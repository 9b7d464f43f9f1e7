/** When a session may be scored, and how often it is tried.
  *
  * Answers of the event log, the store and the recommender are parameters.
  */
module ScoringService {
  import opened Prelude
  import opened ScoringMetrics

  // ---- The event log of one interview ----

  datatype Entry = Entry(session: nat, event: Event)
  datatype Progress = Progress(maxSequence: int, present: nat)

  function MaxSequence(log: seq<Entry>): int {
    if log == [] then 0 else if |log| == 1 then log[0].event.seqNo else Max(MaxSequence(log[..|log| - 1]), log[|log| - 1].event.seqNo)
  }

  /** The numbers from 1 to n that the log holds. */
  function Present(log: seq<Entry>, n: int): set<int> {
    set e | e in log && 1 <= e.event.seqNo <= n :: e.event.seqNo
  }

  function ProgressOf(log: seq<Entry>, n: int): Progress { Progress(MaxSequence(log), |Present(log, n)|) }

  predicate CaughtUp(p: Progress, n: int) { p.maxSequence >= n && p.present as int >= n }

  ghost predicate InLog(log: seq<Entry>, n: int) { exists e :: e in log && e.event.seqNo == n }

  function UpTo(n: nat): (s: set<int>)
    ensures forall i :: i in s <==> 1 <= i <= n
  {
    if n == 0 then {} else UpTo(n - 1) + {n}
  }

  lemma {:induction false} UpToSize(n: nat)
    ensures |UpTo(n)| == n
  {
    if n > 0 {
      UpToSize(n - 1);
    }
  }

  lemma FullSubset(s: set<int>, t: set<int>)
    requires s <= t && |s| >= |t|
    ensures s == t
  {
    assert t == s + (t - s);
    assert |t - s| == 0;
  }

  lemma {:induction false} MaxSequenceBounds(log: seq<Entry>, e: Entry)
    requires e in log
    ensures MaxSequence(log) >= e.event.seqNo
  {
    if |log| > 1 && e in log[..|log| - 1] {
      MaxSequenceBounds(log[..|log| - 1], e);
    }
  }

  /** Counting distinct numbers is enough: the log is caught up exactly when it
    * holds every number from 1 to the trigger's. */
  lemma CaughtUpIff(log: seq<Entry>, n: nat)
    requires n >= 1
    ensures CaughtUp(ProgressOf(log, n), n) <==> forall k :: 1 <= k <= n ==> InLog(log, k)
  {
    var present := Present(log, n);
    UpToSize(n);
    assert present <= UpTo(n);
    if |present| >= n {
      FullSubset(present, UpTo(n));
      forall k | 1 <= k <= n ensures InLog(log, k) {
        assert k in present;
      }
    }
    if forall k :: 1 <= k <= n ==> InLog(log, k) {
      forall k | k in UpTo(n) ensures k in present {
        assert InLog(log, k);
      }
      assert present == UpTo(n);
      assert InLog(log, n);
      var e :| e in log && e.event.seqNo == n;
      MaxSequenceBounds(log, e);
    }
  }

  // ---- Complete metrics are final ----

  /** The session's events up to a number, in any order and with any copies. */
  ghost predicate IsTimeline(log: seq<Entry>, session: nat, upTo: int, timeline: seq<Event>) {
    forall e :: e in timeline <==> e.seqNo <= upTo && Entry(session, e) in log
  }

  /** A number names one event of the interview, and numbers start at 1. */
  ghost predicate OneEventEach(log: seq<Entry>) {
    && (forall a, b :: a in log && b in log && a.event.seqNo == b.event.seqNo ==> a == b)
    && (forall e :: e in log ==> e.event.seqNo >= 1)
  }

  /** Whatever is delivered after the log has caught up, late events included,
    * the metrics of a session up to its trigger stay as they are. */
  lemma CompleteMetricsAreFinal(log: seq<Entry>, more: seq<Entry>, session: nat, n: nat, before: seq<Event>, after: seq<Event>)
    requires n >= 1 && OneEventEach(log + more) && CaughtUp(ProgressOf(log, n), n)
    requires IsTimeline(log, session, n, before) && IsTimeline(log + more, session, n, after)
    ensures Computed(before) == Computed(after)
  {
    CaughtUpIff(log, n);
    forall e ensures e in before <==> e in after {
      if e in after {
        assert Entry(session, e) in log + more;
        assert InLog(log, e.seqNo);
        var x :| x in log && x.event.seqNo == e.seqNo;
        assert x in log + more;
      }
    }
    OrderAndCopiesAreIrrelevant(before, after);
  }

  /** Without the distinct count this fails: a late event may be missing below the
    * highest number, and scoring at once would count it out. */
  lemma MaxAloneIsNotEnough()
    ensures
      var log := [Entry(0, Event(1, SessionStarted, 10, None)), Entry(0, Event(3, SessionSubmitted, 30, None))];
      MaxSequence(log) >= 3 && !InLog(log, 2)
  {
    var log := [Entry(0, Event(1, SessionStarted, 10, None)), Entry(0, Event(3, SessionSubmitted, 30, None))];
    assert log[..1] == [log[0]];
  }

  // ---- Score ----

  datatype Answer<T> = Error | Got(value: T)
  datatype SaveAnswer = SaveError | InterviewGone | Inserted(saved: bool)
  /** What the stores answer to one attempt, and whether the wait after it ends
    * normally or is cancelled. */
  datatype Attempt = Attempt(scored: Answer<bool>, progress: Answer<Progress>, timeline: Answer<seq<Event>>, save: SaveAnswer, waited: bool)

  datatype Outcome = Scored | AlreadyScored | Behind | Permanent | Failure
  /** A score as SaveScore is asked to insert it. */
  datatype Score = Score(metrics: Metrics, complete: bool)

  /** Whether an attempt gets as far as computing the metrics. */
  predicate Ready(a: Attempt, upTo: int, final: bool) {
    a.scored == Got(false) && a.progress.Got? && (final || CaughtUp(a.progress.value, upTo)) && a.timeline.Got?
  }

  method ScoreSession(a: Attempt, upTo: int, final: bool) returns (outcome: Outcome, offered: Option<Score>)
    ensures outcome == Behind <==> a.scored == Got(false) && a.progress.Got? && !CaughtUp(a.progress.value, upTo) && !final
    ensures offered.Some? <==> Ready(a, upTo, final) && Computed(a.timeline.value).Some?
    ensures offered.Some? ==> Some(offered.value.metrics) == Computed(a.timeline.value) && (offered.value.complete <==> CaughtUp(a.progress.value, upTo))
    ensures outcome == Scored <==> offered.Some? && a.save == Inserted(true)
    ensures outcome == AlreadyScored <==> a.scored == Got(true) || (offered.Some? && a.save == Inserted(false))
    ensures outcome == Permanent <==> Ready(a, upTo, final) && (offered.None? || a.save == InterviewGone)
  {
    offered := None;
    if a.scored.Error? { return Failure, None; }
    if a.scored.value { return AlreadyScored, None; }
    if a.progress.Error? { return Failure, None; }
    var complete := CaughtUp(a.progress.value, upTo);
    if !complete && !final { return Behind, None; }
    if a.timeline.Error? { return Failure, None; }
    var metrics := Compute(a.timeline.value);
    if metrics.None? { return Permanent, None; }
    offered := Some(Score(metrics.value, complete));
    match a.save {
      case SaveError => outcome := Failure;
      case InterviewGone => outcome := Permanent;
      case Inserted(saved) => outcome := if saved then Scored else AlreadyScored;
    }
  }

  // ---- The consumer's retries ----

  datatype Config = Config(maxAttempts: nat, base: nat, max: nat)

  /** What NewConsumer accepts. */
  predicate Valid(c: Config) { c.maxAttempts >= 1 && c.base > 0 && c.max >= c.base }

  function Pow2(n: nat): nat { if n == 0 then 1 else 2 * Pow2(n - 1) }

  /** The wait after the k-th attempt in a row that was behind. */
  function WaitAfter(c: Config, k: nat): int
    requires k >= 1
  {
    Min(c.base * Pow2(k - 1), c.max)
  }

  lemma {:induction false} Pow2Grows(m: nat, n: nat)
    requires m <= n
    ensures Pow2(m) <= Pow2(n)
    decreases n - m
  {
    if m < n { Pow2Grows(m + 1, n); }
  }

  method Backoff(c: Config, attempt: nat) returns (wait: int)
    requires Valid(c) && attempt >= 1
    ensures wait == WaitAfter(c, attempt)
  {
    wait := c.base;
    var i := 1;
    while i < attempt && wait < c.max
      invariant 1 <= i <= attempt && wait == c.base * Pow2(i - 1)
    {
      assert c.base * Pow2(i) == 2 * (c.base * Pow2(i - 1));
      wait := wait * 2;
      i := i + 1;
    }
    if i < attempt {
      Pow2Grows(i - 1, attempt - 1);
      assert c.base * Pow2(i - 1) <= c.base * Pow2(attempt - 1);
    }
    wait := if wait < c.max then wait else c.max;
  }

  datatype Handled = Done(outcome: Outcome) | Invalid | Stopped

  /** One trigger: tried until it is scored, fails for good or the consumer stops.
    * It makes at most maxAttempts calls, waits the doubling backoff after every
    * call that was behind, and only the last allowed call may score an incomplete
    * log. */
  method Handle(c: Config, attempts: nat -> Attempt, upTo: int) returns (result: Handled, calls: nat, waits: seq<int>, offered: Option<Score>)
    requires Valid(c)
    ensures 1 <= calls <= c.maxAttempts
    ensures |waits| == if result == Stopped && IsBehind(attempts(calls), upTo, calls >= c.maxAttempts) then calls else calls - 1
    ensures forall k :: 1 <= k <= |waits| ==> waits[k - 1] == WaitAfter(c, k)
    ensures forall k :: 1 <= k < calls ==> IsBehind(attempts(k), upTo, false)
    ensures offered.Some? && !offered.value.complete ==> calls == c.maxAttempts
    ensures result.Done? ==> result.outcome == Scored || result.outcome == AlreadyScored
    ensures result == Done(Scored) ==> offered.Some?
    ensures offered.Some? ==> attempts(calls).timeline.Got? && Some(offered.value.metrics) == Computed(attempts(calls).timeline.value)
  {
    calls, waits, offered := 0, [], None;
    while true
      invariant calls < c.maxAttempts && |waits| == calls && offered.None?
      invariant forall k :: 1 <= k <= |waits| ==> waits[k - 1] == WaitAfter(c, k)
      invariant forall k :: 1 <= k <= calls ==> IsBehind(attempts(k), upTo, false)
      decreases c.maxAttempts - calls
    {
      calls := calls + 1;
      var a := attempts(calls);
      var outcome, score := ScoreSession(a, upTo, calls >= c.maxAttempts);
      match outcome {
        case Scored =>
          return Done(Scored), calls, waits, score;
        case AlreadyScored =>
          return Done(AlreadyScored), calls, waits, score;
        case Behind =>
          var wait := Backoff(c, calls);
          waits := waits + [wait];
          if !a.waited { return Stopped, calls, waits, None; }
        case Permanent =>
          return Invalid, calls, waits, score;
        case Failure =>
          return Stopped, calls, waits, score;
      }
    }
  }

  /** An attempt that finds the log behind its trigger. */
  predicate IsBehind(a: Attempt, upTo: int, final: bool) {
    a.scored == Got(false) && a.progress.Got? && !CaughtUp(a.progress.value, upTo) && !final
  }
}
