/** A viewer of a live stream against everything that runs beside it: the
  * publisher, the lossy channel, ring trimming and expiry, the durable history
  * and the connection. Steps interleave freely.
  *
  * `log` is the interview's event log, in ascending order; first publishes follow
  * it, and the history is a prefix of it. Any published event may be published
  * again at any time, and the ring may expire, so the ring can hold any part of
  * what was published, with holes.
  */
module LiveProtocol {
  import opened Prelude
  import opened LiveRing
  import opened LiveSession

  const CHANNEL := 256

  /** Joining: subscribed, nothing read. Catching: the ring has been read, the
    * history not; `from` is the log position of the ring's oldest event and
    * `upto` how much was published then.
    * Repairing: a gap showed up before `event`, the ring not read yet. */
  datatype Phase =
    | Joining
    | Catching(recent: seq<Event>, oldest: int, from: nat, upto: nat)
    | Sending(queue: seq<Event>)
    | Idle
    | Repairing(event: Event)
    | Closed

  /** The first `published` events of the log are published. `seen` bounds the log
    * positions received from the channel; `lost` says whether the channel ever
    * dropped an event. */
  datatype World = World(viewer: Viewer, phase: Phase, published: nat, ring: seq<Event>, channel: seq<Event>, seen: nat, lost: bool)

  datatype Action =
    | Publish(deliver: bool)
    | Redeliver(i: nat, deliver: bool)
    | Expire
    | ReadRing
    | ReadHistory(upTo: nat)
    | SendNext
    | Receive
    | Disconnect

  /** Fan-out to this viewer: dropped when the channel is full or lossy. */
  function Offer(w: World, e: Event, deliver: bool): World {
    if deliver && |w.channel| < CHANNEL then w.(channel := w.channel + [e]) else w.(lost := true)
  }

  /** Timeline: the history's events above `after`, once it holds `upTo` events. */
  function Timeline(log: seq<Event>, upTo: nat, after: int): seq<Event> {
    Above(if upTo <= |log| then log[..upTo] else log, after)
  }

  /** Where the history must reach: the ring's oldest event, or all published. */
  function OldestIndex(log: seq<Event>, w: World): nat { if w.ring == [] then w.published else Index(log, w.ring[0]) }

  function ReadRingStep(log: seq<Event>, w: World): World {
    var recent := Above(w.ring, w.viewer.lastSent);
    match w.phase
    case Joining =>
      if NeedsHistory(Oldest(w.ring), w.viewer.lastSent)
      then w.(phase := Catching(recent, Oldest(w.ring), OldestIndex(log, w), w.published))
      else w.(phase := Sending(recent))
    case Repairing(e) => w.(phase := Sending(recent + [e]))
    case _ => w
  }

  function ReceiveStep(log: seq<Event>, w: World): World {
    if !w.phase.Idle? || w.channel == [] then w
    else
      var e := w.channel[0];
      var seen := Max(w.seen, Index(log, e) + 1);
      w.(channel := w.channel[1..], seen := seen, phase := if Gap(w.viewer, e) then Repairing(e) else Sending([e]))
  }

  function PublishStep(log: seq<Event>, capacity: nat, w: World, deliver: bool): World {
    if w.published >= |log| then w
    else
      Offer(w.(ring := Published(w.ring, capacity, log[w.published]), published := w.published + 1), log[w.published], deliver)
  }

  /** An event that is still buffered is refused; any other goes through the ring
    * again, where it may stay, and is fanned out again. */
  function RedeliverStep(log: seq<Event>, capacity: nat, w: World, i: nat, deliver: bool): World {
    if i >= w.published || i >= |log| || Holds(w.ring, log[i].seqNo) then w
    else Offer(w.(ring := Published(w.ring, capacity, log[i])), log[i], deliver)
  }

  function Step(log: seq<Event>, capacity: nat, w: World, a: Action): World {
    match a
    case Publish(deliver) => PublishStep(log, capacity, w, deliver)
    case Redeliver(i, deliver) => RedeliverStep(log, capacity, w, i, deliver)
    case Expire => w.(ring := [])
    case ReadRing => ReadRingStep(log, w)
    case ReadHistory(upTo) =>
      if !w.phase.Catching? then w
      else w.(phase := Sending(Below(Timeline(log, upTo, w.viewer.lastSent), w.phase.oldest) + w.phase.recent))
    case SendNext =>
      if !w.phase.Sending? then w
      else if w.phase.queue == [] then w.(phase := Idle)
      else w.(viewer := SendOne(w.viewer, w.phase.queue[0]), phase := Sending(w.phase.queue[1..]))
    case Receive => ReceiveStep(log, w)
    case Disconnect => w.(phase := Closed)
  }

  /** The ring has no hole where a catch-up relies on it: it holds every published
    * event from its oldest on that the viewer still needs. */
  ghost predicate RingCovers(log: seq<Event>, w: World) {
    w.ring != [] ==> forall i :: 0 <= i < w.published && i < |log| && log[i].seqNo >= w.ring[0].seqNo && log[i].seqNo > w.viewer.lastSent ==> log[i] in w.ring
  }

  /** The ring holds every published event the viewer still needs; the one that
    * is being handled may be missing if nothing was published after it. */
  ghost predicate RepairCovers(log: seq<Event>, w: World, e: Event) {
    forall i :: Position(log, w.viewer) <= i < w.published && i < |log| ==> log[i] in w.ring || (i == w.published - 1 && log[i] == e)
  }

  /** What the code relies on without being able to enforce it: at catch-up the
    * ring has no hole and the history reaches its oldest event, and at a gap
    * repair the ring still has what the viewer needs. CatchUpIsCompleteIff and
    * RepairIsCompleteIff show that no less will do. */
  ghost predicate Timely(log: seq<Event>, w: World, a: Action) {
    && (a.ReadRing? && w.phase.Joining? ==> RingCovers(log, w))
    && (a.ReadRing? && w.phase.Repairing? ==> RepairCovers(log, w, w.phase.event))
    && (a.ReadHistory? && w.phase.Catching? ==> w.phase.from <= a.upTo <= |log|)
  }

  function Run(log: seq<Event>, capacity: nat, w: World, actions: seq<Action>): World {
    if actions == [] then w
    else Step(log, capacity, Run(log, capacity, w, actions[..|actions| - 1]), actions[|actions| - 1])
  }

  ghost predicate TimelyRun(log: seq<Event>, capacity: nat, w: World, actions: seq<Action>) {
    actions == [] ||
    (TimelyRun(log, capacity, w, actions[..|actions| - 1])
     && Timely(log, Run(log, capacity, w, actions[..|actions| - 1]), actions[|actions| - 1]))
  }

  // ---- Positions in the log ----

  /** How many log events have a number up to n. */
  function CountTo(log: seq<Event>, n: int): nat {
    if log == [] then 0 else CountTo(log[..|log| - 1], n) + if log[|log| - 1].seqNo <= n then 1 else 0
  }

  function Position(log: seq<Event>, v: Viewer): nat { CountTo(log, v.lastSent) }

  function Index(log: seq<Event>, e: Event): nat { CountTo(log, e.seqNo - 1) }

  lemma {:induction false} CountSplits(log: seq<Event>, n: int)
    requires Ascending(log)
    ensures CountTo(log, n) <= |log|
    ensures forall i :: 0 <= i < |log| ==> (i < CountTo(log, n) <==> log[i].seqNo <= n)
  {
    if log != [] {
      var init := log[..|log| - 1];
      CountSplits(init, n);
      assert forall i :: 0 <= i < |init| ==> log[i] == init[i];
      if log[|log| - 1].seqNo <= n {
        assert forall i :: 0 <= i < |init| ==> log[i].seqNo <= n;
        assert |init| > 0 ==> log[|init| - 1].seqNo <= n;
      }
    }
  }

  lemma IndexIs(log: seq<Event>, j: nat)
    requires Ascending(log) && j < |log|
    ensures Index(log, log[j]) == j
  {
    CountSplits(log, log[j].seqNo - 1);
    assert log[j].seqNo > log[j].seqNo - 1;
    assert j > 0 ==> log[j - 1].seqNo <= log[j].seqNo - 1;
  }

  /** Reading the queue from position p never skips a log event. */
  ghost predicate Chain(log: seq<Event>, queue: seq<Event>, p: nat) {
    queue == [] ||
    (var j := Index(log, queue[0]);
     j < |log| && log[j] == queue[0] && j <= p && Chain(log, queue[1..], Max(p, j + 1)))
  }

  /** The position after the whole queue. */
  function Reach(log: seq<Event>, queue: seq<Event>, p: nat): nat {
    if queue == [] then p else Reach(log, queue[1..], Max(p, Index(log, queue[0]) + 1))
  }

  lemma {:induction false} ChainOfSlice(log: seq<Event>, a: nat, b: nat, p: nat)
    requires Ascending(log) && a <= b <= |log| && a <= p
    ensures Chain(log, log[a..b], p) && Reach(log, log[a..b], p) == (if a < b then Max(p, b) else p)
    decreases b - a
  {
    if a < b {
      IndexIs(log, a);
      assert log[a..b][1..] == log[a + 1..b];
      ChainOfSlice(log, a + 1, b, Max(p, a + 1));
    }
  }

  lemma {:induction false} ChainExtends(log: seq<Event>, queue: seq<Event>, p: nat, j: nat)
    requires Ascending(log) && Chain(log, queue, p) && j < |log| && j <= Reach(log, queue, p)
    ensures Chain(log, queue + [log[j]], p) && Reach(log, queue + [log[j]], p) == Max(Reach(log, queue, p), j + 1)
  {
    IndexIs(log, j);
    if queue == [] {
      assert queue + [log[j]] == [log[j]];
      assert Chain(log, [], Max(p, j + 1));
    } else {
      var i := Index(log, queue[0]);
      ChainExtends(log, queue[1..], Max(p, i + 1), j);
      assert (queue + [log[j]])[1..] == queue[1..] + [log[j]];
    }
  }

  // ---- The invariant ----

  ghost predicate Log(log: seq<Event>, s: Stream) {
    Ascending(log) && forall i :: 0 <= i < |log| ==> log[i].seqNo >= 1 && !Foreign(s, log[i])
  }

  /** What has been sent is the slice of the log right above Last-Event-ID. */
  ghost predicate SentSlice(log: seq<Event>, after: int, v: Viewer) {
    var base := CountTo(log, after);
    var p := Position(log, v);
    && base <= p <= |log| && v.sent == log[base..p]
    && v.lastSent == (if base == p then after else log[p - 1].seqNo)
  }

  /** e is one of the first `bound` log events. */
  ghost predicate Logged(log: seq<Event>, e: Event, bound: nat) {
    Index(log, e) < bound && Index(log, e) < |log| && log[Index(log, e)] == e
  }

  ghost predicate RingInv(log: seq<Event>, capacity: nat, w: World) {
    && w.published <= |log| && Ascending(w.ring) && |w.ring| <= capacity
    && forall e :: e in w.ring ==> Logged(log, e, w.published)
  }

  ghost predicate ChannelInv(log: seq<Event>, w: World) {
    w.seen <= w.published && forall i :: 0 <= i < |w.channel| ==> Logged(log, w.channel[i], w.published)
  }

  /** The position the viewer reaches with what it has already read. */
  ghost function Target(log: seq<Event>, w: World): nat {
    var p := Position(log, w.viewer);
    match w.phase
    case Sending(queue) => Reach(log, queue, p)
    case Catching(_, _, _, upto) => Max(p, upto)
    case Repairing(e) => Max(p, Index(log, e) + 1)
    case _ => p
  }

  ghost predicate PhaseInv(log: seq<Event>, w: World) {
    var p := Position(log, w.viewer);
    match w.phase
    case Sending(queue) => Chain(log, queue, p)
    case Catching(recent, oldest, from, upto) =>
      && from <= upto <= w.published <= |log| && recent == log[from..upto]
      && oldest == (if from < upto then log[from].seqNo else 0) && (from < upto ==> p <= from)
    case Repairing(e) => Logged(log, e, w.published)
    case _ => true
  }

  /** Everything received has been or will be covered; and unless the channel
    * dropped something, so has everything published that is not in it. */
  ghost predicate CoverInv(log: seq<Event>, w: World) {
    w.phase.Joining? || w.phase.Closed? ||
    (&& w.seen <= Target(log, w)
     && (!w.lost ==> forall i :: 0 <= i < w.published && i < |log| ==> i < Target(log, w) || log[i] in w.channel))
  }

  ghost predicate Inv(log: seq<Event>, capacity: nat, after: int, w: World) {
    && Log(log, w.viewer.stream) && SentSlice(log, after, w.viewer) && RingInv(log, capacity, w)
    && ChannelInv(log, w) && PhaseInv(log, w) && CoverInv(log, w)
    && (w.phase.Joining? ==> w.seen == 0)
  }

  // ---- Single steps ----

  lemma PositionSplits(log: seq<Event>, v: Viewer)
    requires Log(log, v.stream)
    ensures Position(log, v) <= |log|
    ensures forall i :: 0 <= i < |log| ==> (i < Position(log, v) <==> log[i].seqNo <= v.lastSent)
  {
    CountSplits(log, v.lastSent);
  }

  /** Handling a log event at or below the position sends it if it is the next. */
  lemma SendAdvances(log: seq<Event>, after: int, v: Viewer, j: nat)
    requires Log(log, v.stream) && SentSlice(log, after, v) && j < |log| && j <= Position(log, v)
    ensures SentSlice(log, after, SendOne(v, log[j]))
    ensures Position(log, SendOne(v, log[j])) == Max(Position(log, v), j + 1)
  {
    PositionSplits(log, v);
    var v' := SendOne(v, log[j]);
    PositionSplits(log, v');
    var p, p' := Position(log, v), Position(log, v');
    if j == p {
      assert j + 1 < |log| ==> log[j + 1].seqNo > log[j].seqNo;
      assert p' == p + 1;
      assert log[CountTo(log, after)..p'] == log[CountTo(log, after)..p] + [log[p]];
    }
  }

  lemma SliceAscends(log: seq<Event>, a: nat, b: nat, e: Event)
    requires Ascending(log) && a <= b <= |log|
    ensures Ascending(log[a..b]) && (e in log[a..b] <==> Logged(log, e, b) && Index(log, e) >= a)
  {
    if e in log[a..b] {
      var i :| a <= i < b && log[i] == e;
      IndexIs(log, i);
    }
    if Logged(log, e, b) && Index(log, e) >= a {
      assert log[a..b][Index(log, e) - a] == e;
    }
  }

  /** With the events from position p on in it, the ring's part above the cursor
    * is the log from p to the last publish. */
  lemma RecentIsSlice(log: seq<Event>, capacity: nat, w: World, p: nat, upto: nat, after: int)
    requires Ascending(log) && RingInv(log, capacity, w) && p <= upto <= w.published
    requires forall i :: p <= i < upto ==> log[i] in w.ring
    requires forall i :: upto <= i < w.published ==> log[i] !in w.ring
    requires forall i :: 0 <= i < |log| ==> (i < p <==> log[i].seqNo <= after)
    ensures Above(w.ring, after) == log[p..upto]
  {
    forall e ensures e in Above(w.ring, after) <==> e in log[p..upto] {
      AboveHas(w.ring, after, e);
      SliceAscends(log, p, upto, e);
    }
    AboveHas(w.ring, after, Event("", "", 0, ""));
    SliceAscends(log, p, upto, Event("", "", 0, ""));
    AscendingUnique(Above(w.ring, after), log[p..upto]);
  }

  /** The steps that only move the viewer to another phase. */
  lemma InvPhase(log: seq<Event>, capacity: nat, after: int, w: World, q: Phase)
    requires Inv(log, capacity, after, w) && !q.Joining?
    requires PhaseInv(log, w.(phase := q)) && CoverInv(log, w.(phase := q))
    ensures Inv(log, capacity, after, w.(phase := q))
  {}

  /** A covering ring that reaches below the cursor holds all that is needed. */
  lemma CoveredFromPosition(log: seq<Event>, capacity: nat, w: World)
    requires Log(log, w.viewer.stream) && RingInv(log, capacity, w) && RingCovers(log, w) && w.ring != []
    requires Oldest(w.ring) <= w.viewer.lastSent + 1
    ensures var p := Position(log, w.viewer); var recent := Above(w.ring, w.viewer.lastSent);
      Chain(log, recent, p) && Reach(log, recent, p) == Max(p, w.published)
  {
    PositionSplits(log, w.viewer);
    RecentFromPosition(log, capacity, w);
  }

  lemma NoneIn(es: seq<Event>)
    ensures es == [] || exists e :: e in es
  {
    if es != [] { assert es[0] in es; }
  }

  /** A covering ring above the cursor is the log from its oldest event on. */
  lemma CoveredFromOldest(log: seq<Event>, capacity: nat, w: World)
    requires Log(log, w.viewer.stream) && RingInv(log, capacity, w) && RingCovers(log, w) && w.ring != []
    requires Oldest(w.ring) > w.viewer.lastSent + 1
    ensures var from := OldestIndex(log, w);
      && from < w.published && Position(log, w.viewer) <= from && log[from] == w.ring[0]
      && Above(w.ring, w.viewer.lastSent) == log[from..w.published]
  {
    PositionSplits(log, w.viewer);
    assert w.ring[0] in w.ring;
    var from := OldestIndex(log, w);
    var before := w.ring[0].seqNo - 1;
    CountSplits(log, before);
    forall e ensures e in Above(w.ring, w.viewer.lastSent) <==> e in Above(w.ring, before) {
      AboveHas(w.ring, w.viewer.lastSent, e);
      AboveHas(w.ring, before, e);
      if e in w.ring {
        var k :| 0 <= k < |w.ring| && w.ring[k] == e;
        assert e.seqNo >= w.ring[0].seqNo;
      }
    }
    AboveHas(w.ring, w.viewer.lastSent, w.ring[0]);
    AboveHas(w.ring, before, w.ring[0]);
    AscendingUnique(Above(w.ring, w.viewer.lastSent), Above(w.ring, before));
    RecentIsSlice(log, capacity, w, from, w.published, before);
  }

  lemma StepJoin(log: seq<Event>, capacity: nat, after: int, w: World)
    requires Inv(log, capacity, after, w) && w.phase.Joining? && RingCovers(log, w)
    ensures Inv(log, capacity, after, ReadRingStep(log, w))
  {
    var p := Position(log, w.viewer);
    var q := ReadRingStep(log, w).phase;
    if w.ring == [] {
      assert Above(w.ring, w.viewer.lastSent) == [];
      assert log[w.published..w.published] == [];
    } else if Oldest(w.ring) > w.viewer.lastSent + 1 {
      CoveredFromOldest(log, capacity, w);
    } else {
      assert w.ring[0] in w.ring;
      CoveredFromPosition(log, capacity, w);
    }
    InvPhase(log, capacity, after, w, q);
  }

  /** What a gap repair works through, when the ring has what it needs. */
  lemma RepairQueue(log: seq<Event>, capacity: nat, w: World)
    requires Log(log, w.viewer.stream) && RingInv(log, capacity, w) && w.phase.Repairing?
    requires Logged(log, w.phase.event, w.published) && RepairCovers(log, w, w.phase.event)
    ensures var queue := ReadRingStep(log, w).phase.queue; var p := Position(log, w.viewer);
      Chain(log, queue, p) && Reach(log, queue, p) == Max(p, w.published)
  {
    var p, n := Position(log, w.viewer), w.published;
    if p < n && log[n - 1] !in w.ring {
      LastMissing(log, capacity, w);
      ChainOfSlice(log, p, n, p);
    } else {
      RepairFromRing(log, capacity, w);
    }
  }

  lemma RepairFromRing(log: seq<Event>, capacity: nat, w: World)
    requires Log(log, w.viewer.stream) && RingInv(log, capacity, w) && w.phase.Repairing? && Logged(log, w.phase.event, w.published)
    requires forall i :: Position(log, w.viewer) <= i < w.published ==> log[i] in w.ring
    ensures var queue := ReadRingStep(log, w).phase.queue; var p := Position(log, w.viewer);
      Chain(log, queue, p) && Reach(log, queue, p) == Max(p, w.published)
  {
    RecentFromPosition(log, capacity, w);
    ChainExtends(log, Above(w.ring, w.viewer.lastSent), Position(log, w.viewer), Index(log, w.phase.event));
  }

  lemma LastMissing(log: seq<Event>, capacity: nat, w: World)
    requires Log(log, w.viewer.stream) && RingInv(log, capacity, w) && w.phase.Repairing?
    requires RepairCovers(log, w, w.phase.event) && Position(log, w.viewer) < w.published && log[w.published - 1] !in w.ring
    ensures ReadRingStep(log, w).phase == Sending(log[Position(log, w.viewer)..w.published])
  {
    PositionSplits(log, w.viewer);
    var p, n := Position(log, w.viewer), w.published;
    RecentIsSlice(log, capacity, w, p, n - 1, w.viewer.lastSent);
    assert log[n - 1] == w.phase.event;
    assert log[p..n - 1] + [log[n - 1]] == log[p..n];
  }

  lemma RecentFromPosition(log: seq<Event>, capacity: nat, w: World)
    requires Log(log, w.viewer.stream) && RingInv(log, capacity, w)
    requires forall i :: Position(log, w.viewer) <= i < w.published ==> log[i] in w.ring
    ensures var p := Position(log, w.viewer); var recent := Above(w.ring, w.viewer.lastSent);
      && recent == (if p <= w.published then log[p..w.published] else [])
      && Chain(log, recent, p) && Reach(log, recent, p) == Max(p, w.published)
  {
    PositionSplits(log, w.viewer);
    var p, n := Position(log, w.viewer), w.published;
    if p <= n {
      RecentIsSlice(log, capacity, w, p, n, w.viewer.lastSent);
      ChainOfSlice(log, p, n, p);
    } else {
      forall x ensures x !in Above(w.ring, w.viewer.lastSent) { AboveHas(w.ring, w.viewer.lastSent, x); }
      NoneIn(Above(w.ring, w.viewer.lastSent));
    }
  }

  lemma StepReadRing(log: seq<Event>, capacity: nat, after: int, w: World)
    requires Inv(log, capacity, after, w) && Timely(log, w, ReadRing)
    ensures Inv(log, capacity, after, ReadRingStep(log, w))
  {
    if w.phase.Joining? {
      StepJoin(log, capacity, after, w);
    } else if w.phase.Repairing? {
      RepairQueue(log, capacity, w);
      InvPhase(log, capacity, after, w, ReadRingStep(log, w).phase);
    }
  }

  lemma TimelineIsSlice(log: seq<Event>, v: Viewer, upTo: nat)
    requires Log(log, v.stream) && upTo <= |log|
    ensures Timeline(log, upTo, v.lastSent) == if Position(log, v) <= upTo then log[Position(log, v)..upTo] else []
  {
    PositionSplits(log, v);
    var k := AboveIsTheTail(log[..upTo], v.lastSent);
    if k > 0 { assert log[..upTo][k - 1] == log[k - 1]; }
    if k < upTo { assert log[..upTo][k] == log[k]; }
  }

  /** History below the oldest buffered event plus the ring: no seam, no hole. */
  lemma HistoryMeetsRing(log: seq<Event>, past: seq<Event>, p: nat, upTo: nat, from: nat, upto: nat)
    requires Ascending(log) && p <= from < upto <= |log| && from <= upTo <= |log| && past == log[p..upTo] && log[0].seqNo >= 1
    ensures Below(past, log[from].seqNo) + log[from..upto] == log[p..upto]
  {
    forall j | 0 <= j < from - p ensures past[j].seqNo < log[from].seqNo { assert past[j] == log[p + j]; }
    if from - p < |past| { assert past[from - p] == log[from]; }
    BelowIsPrefix(past, log[from].seqNo, from - p);
    assert past[..from - p] == log[p..from];
  }

  lemma HistoryQueue(log: seq<Event>, w: World, upTo: nat)
    requires Log(log, w.viewer.stream) && PhaseInv(log, w) && w.phase.Catching? && w.phase.from <= upTo <= |log|
    ensures var p := Position(log, w.viewer);
      var queue := Below(Timeline(log, upTo, w.viewer.lastSent), w.phase.oldest) + w.phase.recent;
      Chain(log, queue, p) && Reach(log, queue, p) >= Max(p, w.phase.upto)
  {
    TimelineIsSlice(log, w.viewer, upTo);
    var p := Position(log, w.viewer);
    var past := Timeline(log, upTo, w.viewer.lastSent);
    if w.phase.from < w.phase.upto {
      HistoryMeetsRing(log, past, p, upTo, w.phase.from, w.phase.upto);
      ChainOfSlice(log, p, w.phase.upto, p);
    } else {
      BelowIsPrefix(past, 0, |past|);
      assert past[..|past|] + w.phase.recent == past;
      if p <= upTo { ChainOfSlice(log, p, upTo, p); }
    }
  }

  lemma StepReadHistory(log: seq<Event>, capacity: nat, after: int, w: World, upTo: nat)
    requires Inv(log, capacity, after, w) && w.phase.Catching? && Timely(log, w, ReadHistory(upTo))
    ensures Inv(log, capacity, after, Step(log, capacity, w, ReadHistory(upTo)))
  {
    HistoryQueue(log, w, upTo);
    InvPhase(log, capacity, after, w, Sending(Below(Timeline(log, upTo, w.viewer.lastSent), w.phase.oldest) + w.phase.recent));
  }

  lemma StepSendNext(log: seq<Event>, capacity: nat, after: int, w: World)
    requires Inv(log, capacity, after, w)
    ensures Inv(log, capacity, after, Step(log, capacity, w, SendNext))
  {
    if w.phase.Sending? {
      var w' := Step(log, capacity, w, SendNext);
      if w.phase.queue == [] {
        InvPhase(log, capacity, after, w, Idle);
      } else {
        SendAdvances(log, after, w.viewer, Index(log, w.phase.queue[0]));
        assert Target(log, w') == Target(log, w);
        assert PhaseInv(log, w') && SentSlice(log, after, w'.viewer);
        assert CoverInv(log, w');
      }
    }
  }

  lemma StepReceive(log: seq<Event>, capacity: nat, after: int, w: World)
    requires Inv(log, capacity, after, w)
    ensures Inv(log, capacity, after, ReceiveStep(log, w))
  {
    if w.phase.Idle? && w.channel != [] {
      var e := w.channel[0];
      var p := Position(log, w.viewer);
      var j := Index(log, e);
      PositionSplits(log, w.viewer);
      var w' := ReceiveStep(log, w);
      forall i | 0 <= i < |w'.channel| ensures Logged(log, w'.channel[i], w.published) {
        assert w'.channel[i] == w.channel[i + 1];
      }
      if !Gap(w.viewer, e) {
        assert j <= p;
        ChainExtends(log, [], p, j);
        assert [] + [log[j]] == [e];
      }
      forall i | 0 <= i < w.published && !w.lost && i >= p && log[i] in w.channel && log[i] != e ensures log[i] in w'.channel {
        var c :| 0 <= c < |w.channel| && w.channel[c] == log[i];
        assert w'.channel[c - 1] == log[i];
      }
    }
  }

  /** Publishing a log event, new or not, keeps the ring a part of the log. */
  lemma RingPublish(log: seq<Event>, capacity: nat, w: World, i: nat, published: nat)
    requires Ascending(log) && RingInv(log, capacity, w) && i < published <= |log| && w.published <= published
    ensures RingInv(log, capacity, w.(ring := Published(w.ring, capacity, log[i]), published := published))
  {
    IndexIs(log, i);
    PublishedShape(w.ring, capacity, log[i]);
  }

  lemma StepPublish(log: seq<Event>, capacity: nat, after: int, w: World, deliver: bool)
    requires Inv(log, capacity, after, w)
    ensures Inv(log, capacity, after, PublishStep(log, capacity, w, deliver))
  {
    if w.published < |log| {
      RingPublish(log, capacity, w, w.published, w.published + 1);
      IndexIs(log, w.published);
      var w' := PublishStep(log, capacity, w, deliver);
      assert RingInv(log, capacity, w');
      forall i | 0 <= i < |w'.channel| ensures Logged(log, w'.channel[i], w'.published) {
        if i < |w.channel| { assert w'.channel[i] == w.channel[i]; }
      }
      assert PhaseInv(log, w') && Target(log, w') == Target(log, w);
      forall i | !w'.lost && 0 <= i < w'.published && !(w'.phase.Joining? || w'.phase.Closed?)
        ensures i < Target(log, w') || log[i] in w'.channel
      {
        if i == w.published { assert w'.channel[|w.channel|] == log[i]; }
      }
    }
  }

  lemma StepRedeliver(log: seq<Event>, capacity: nat, after: int, w: World, i: nat, deliver: bool)
    requires Inv(log, capacity, after, w)
    ensures Inv(log, capacity, after, Step(log, capacity, w, Redeliver(i, deliver)))
  {
    if i < w.published && i < |log| {
      IndexIs(log, i);
      RingPublish(log, capacity, w, i, w.published);
    }
  }

  lemma InvStep(log: seq<Event>, capacity: nat, after: int, w: World, a: Action)
    requires Inv(log, capacity, after, w) && Timely(log, w, a)
    ensures Inv(log, capacity, after, Step(log, capacity, w, a))
  {
    match a
    case Publish(deliver) => StepPublish(log, capacity, after, w, deliver);
    case Redeliver(i, deliver) => StepRedeliver(log, capacity, after, w, i, deliver);
    case Expire =>
    case ReadRing => StepReadRing(log, capacity, after, w);
    case ReadHistory(upTo) => if w.phase.Catching? { StepReadHistory(log, capacity, after, w, upTo); }
    case SendNext => StepSendNext(log, capacity, after, w);
    case Receive => StepReceive(log, capacity, after, w);
    case Disconnect =>
  }

  // ---- Whole runs ----

  /** A viewer that has just subscribed, with whatever ring it finds. */
  ghost predicate Fresh(log: seq<Event>, capacity: nat, after: int, w: World) {
    && Log(log, w.viewer.stream) && RingInv(log, capacity, w)
    && w.phase == Joining && w.viewer.lastSent == after && w.viewer.sent == [] && w.channel == [] && w.seen == 0
  }

  lemma {:induction false} InvRun(log: seq<Event>, capacity: nat, after: int, w: World, actions: seq<Action>)
    requires Fresh(log, capacity, after, w) && TimelyRun(log, capacity, w, actions)
    ensures Inv(log, capacity, after, Run(log, capacity, w, actions))
  {
    if actions == [] {
      CountSplits(log, after);
      assert log[CountTo(log, after)..CountTo(log, after)] == [];
    } else {
      InvRun(log, capacity, after, w, actions[..|actions| - 1]);
      InvStep(log, capacity, after, Run(log, capacity, w, actions[..|actions| - 1]), actions[|actions| - 1]);
    }
  }

  /** At every moment of every run the viewer has been sent the log's events
    * right above Last-Event-ID, each once, in order, without a hole. */
  lemma SentIsContiguousPrefix(log: seq<Event>, capacity: nat, after: int, w: World, actions: seq<Action>)
    requires Fresh(log, capacity, after, w) && TimelyRun(log, capacity, w, actions)
    ensures var sent := Run(log, capacity, w, actions).viewer.sent;
      sent <= Above(log, after) && Ascending(sent)
  {
    InvRun(log, capacity, after, w, actions);
    var v := Run(log, capacity, w, actions).viewer;
    AboveIsSuffix(log, after);
    assert v.sent == Above(log, after)[..|v.sent|];
  }

  lemma AboveIsSuffix(log: seq<Event>, n: int)
    requires Ascending(log)
    ensures CountTo(log, n) <= |log| && Above(log, n) == log[CountTo(log, n)..]
  {
    CountSplits(log, n);
    var k := AboveIsTheTail(log, n);
    assert k < |log| ==> log[k].seqNo > n;
    assert k > 0 ==> log[k - 1].seqNo <= n;
  }

  /** Once a received event has been handled, every log event up to it has been
    * sent (or was at or below Last-Event-ID). */
  lemma HandledMeansAllBefore(log: seq<Event>, capacity: nat, after: int, w: World, actions: seq<Action>, i: nat)
    requires Fresh(log, capacity, after, w) && TimelyRun(log, capacity, w, actions)
    requires Run(log, capacity, w, actions).phase == Idle && i < Run(log, capacity, w, actions).seen
    ensures i < |log| && (log[i].seqNo > after ==> log[i] in Run(log, capacity, w, actions).viewer.sent)
  {
    InvRun(log, capacity, after, w, actions);
    InSlice(log, after, Run(log, capacity, w, actions).viewer, i);
  }

  /** Subscribing before catching up loses nothing: if the channel dropped no
    * event and has been drained, everything published has been sent. */
  lemma NothingLostWithoutDrops(log: seq<Event>, capacity: nat, after: int, w: World, actions: seq<Action>, i: nat)
    requires Fresh(log, capacity, after, w) && TimelyRun(log, capacity, w, actions)
    requires var w' := Run(log, capacity, w, actions); w'.phase == Idle && w'.channel == [] && !w'.lost && i < w'.published
    ensures i < |log| && (log[i].seqNo > after ==> log[i] in Run(log, capacity, w, actions).viewer.sent)
  {
    InvRun(log, capacity, after, w, actions);
    DrainedCovers(log, capacity, after, Run(log, capacity, w, actions), i);
    InSlice(log, after, Run(log, capacity, w, actions).viewer, i);
  }

  lemma DrainedCovers(log: seq<Event>, capacity: nat, after: int, w: World, i: nat)
    requires Inv(log, capacity, after, w) && w.phase == Idle && w.channel == [] && !w.lost && i < w.published
    ensures i < Position(log, w.viewer)
  {
    var e := log[i];
    assert e !in w.channel;
  }

  lemma InSlice(log: seq<Event>, after: int, v: Viewer, i: nat)
    requires Log(log, v.stream) && SentSlice(log, after, v) && i < Position(log, v)
    ensures i < |log| && (log[i].seqNo > after ==> log[i] in v.sent)
  {
    CountSplits(log, after);
    var base := CountTo(log, after);
    if log[i].seqNo > after { assert v.sent[i - base] == log[i]; }
  }

  // ---- Queues ----

  lemma SendAllFirst(v: Viewer, queue: seq<Event>)
    requires queue != []
    ensures SendAll(v, queue) == SendAll(SendOne(v, queue[0]), queue[1..])
  {
    assert queue == [queue[0]] + queue[1..];
    SendAllConcat(v, [queue[0]], queue[1..]);
    assert [queue[0]][..0] == [];
  }

  lemma {:induction false} SendChain(log: seq<Event>, after: int, v: Viewer, queue: seq<Event>)
    requires Log(log, v.stream) && SentSlice(log, after, v) && Chain(log, queue, Position(log, v))
    ensures SentSlice(log, after, SendAll(v, queue)) && Position(log, SendAll(v, queue)) == Reach(log, queue, Position(log, v))
    ensures SendAll(v, queue).stream == v.stream
    decreases |queue|
  {
    if queue != [] {
      var j := Index(log, queue[0]);
      SendAdvances(log, after, v, j);
      SendChain(log, after, SendOne(v, queue[0]), queue[1..]);
      SendAllFirst(v, queue);
    }
  }

  /** What was sent stays sent, and numbers passed over stay unsent. */
  lemma {:induction false} PassedOver(v: Viewer, es: seq<Event>, e: Event)
    requires e.seqNo <= v.lastSent && e !in v.sent
    ensures e !in SendAll(v, es).sent && SendAll(v, es).lastSent >= v.lastSent
  {
    if es != [] { PassedOver(v, es[..|es| - 1], e); }
  }

  lemma BaseBelow(log: seq<Event>, after: int, v: Viewer, i: nat)
    requires Log(log, v.stream) && SentSlice(log, after, v) && Position(log, v) <= i < |log|
    ensures log[i].seqNo > after
  {
    CountSplits(log, after);
  }

  /** Sending a list adds nothing that is not in it. */
  lemma {:induction false} SentFrom(v: Viewer, es: seq<Event>, e: Event)
    ensures e in SendAll(v, es).sent ==> e in v.sent || e in es
  {
    if es != [] { SentFrom(v, es[..|es| - 1], e); }
  }

  /** What the viewer has sent is below its position. */
  lemma SentIsBelow(log: seq<Event>, after: int, v: Viewer, i: nat)
    requires Log(log, v.stream) && SentSlice(log, after, v) && Position(log, v) <= i < |log|
    ensures log[i] !in v.sent
  {
    var base, p := CountTo(log, after), Position(log, v);
    forall k | 0 <= k < |v.sent| ensures v.sent[k] != log[i] {
      assert v.sent[k] == log[base + k];
    }
  }

  /** A queue without a hole delivers everything up to where it reaches. */
  lemma ChainDelivers(log: seq<Event>, after: int, v: Viewer, queue: seq<Event>, i: nat)
    requires Log(log, v.stream) && SentSlice(log, after, v) && Chain(log, queue, Position(log, v))
    requires Position(log, v) <= i < Reach(log, queue, Position(log, v)) && i < |log|
    ensures log[i] in SendAll(v, queue).sent
  {
    SendChain(log, after, v, queue);
    BaseBelow(log, after, v, i);
    InSlice(log, after, SendAll(v, queue), i);
  }

  /** Every published event that the viewer still needs is sent by a queue. */
  ghost predicate Delivers(log: seq<Event>, w: World, queue: seq<Event>) {
    forall i :: Position(log, w.viewer) <= i < w.published && i < |log| ==> log[i] in SendAll(w.viewer, queue).sent
  }

  // ---- When a catch-up is enough ----

  /** What a joining viewer is sent, once the history has been read if it is. */
  function CatchUpQueue(log: seq<Event>, w: World, upTo: nat): seq<Event> {
    var recent := Above(w.ring, w.viewer.lastSent);
    if NeedsHistory(Oldest(w.ring), w.viewer.lastSent) then Below(Timeline(log, upTo, w.viewer.lastSent), Oldest(w.ring)) + recent else recent
  }

  lemma JoinDelivers(log: seq<Event>, capacity: nat, after: int, w: World, upTo: nat)
    requires Inv(log, capacity, after, w) && w.phase.Joining? && RingCovers(log, w) && OldestIndex(log, w) <= upTo <= |log|
    ensures Delivers(log, w, CatchUpQueue(log, w, upTo))
  {
    StepJoin(log, capacity, after, w);
    var queue := CatchUpQueue(log, w, upTo);
    var w' := ReadRingStep(log, w);
    if w'.phase.Catching? {
      HistoryQueue(log, w', upTo);
    } else {
      assert w.ring[0] in w.ring;
      CoveredFromPosition(log, capacity, w);
    }
    forall i | Position(log, w.viewer) <= i < w.published ensures log[i] in SendAll(w.viewer, queue).sent {
      ChainDelivers(log, after, w.viewer, queue, i);
    }
  }

  lemma {:induction false} BelowIsBelow(past: seq<Event>, oldest: int, e: Event)
    requires oldest != 0 && e in Below(past, oldest)
    ensures e.seqNo < oldest
    decreases |past|
  {
    if e != past[0] || past[0].seqNo >= oldest { BelowIsBelow(past[1..], oldest, e); }
  }

  lemma HoleIsSkipped(log: seq<Event>, capacity: nat, after: int, w: World, upTo: nat, i: nat)
    requires Inv(log, capacity, after, w) && w.phase.Joining? && w.ring != []
    requires i < w.published && log[i].seqNo >= w.ring[0].seqNo && log[i].seqNo > w.viewer.lastSent && log[i] !in w.ring
    ensures Position(log, w.viewer) <= i && log[i] !in SendAll(w.viewer, CatchUpQueue(log, w, upTo)).sent
  {
    PositionSplits(log, w.viewer);
    assert w.ring[0] in w.ring;
    assert Oldest(w.ring) >= 1;
    var queue := CatchUpQueue(log, w, upTo);
    SentIsBelow(log, after, w.viewer, i);
    SentFrom(w.viewer, queue, log[i]);
    AboveHas(w.ring, w.viewer.lastSent, log[i]);
    if NeedsHistory(Oldest(w.ring), w.viewer.lastSent) && log[i] in Below(Timeline(log, upTo, w.viewer.lastSent), Oldest(w.ring)) {
      BelowIsBelow(Timeline(log, upTo, w.viewer.lastSent), Oldest(w.ring), log[i]);
    }
  }

  /** A joining viewer is sent everything published exactly when the ring it reads
    * has no hole above its oldest event and the cursor. */
  lemma CatchUpIsCompleteIff(log: seq<Event>, capacity: nat, after: int, w: World, upTo: nat)
    requires Inv(log, capacity, after, w) && w.phase.Joining? && OldestIndex(log, w) <= upTo <= |log|
    ensures RingCovers(log, w) <==> Delivers(log, w, CatchUpQueue(log, w, upTo))
  {
    if RingCovers(log, w) {
      JoinDelivers(log, capacity, after, w, upTo);
    } else {
      var i :| 0 <= i < w.published && i < |log| && log[i].seqNo >= w.ring[0].seqNo && log[i].seqNo > w.viewer.lastSent && log[i] !in w.ring;
      HoleIsSkipped(log, capacity, after, w, upTo, i);
    }
  }

  // ---- When a gap repair is enough ----

  lemma {:induction false} LastTooLow(v: Viewer, es: seq<Event>, e: Event, x: Event)
    requires (forall y :: y in es ==> !Foreign(v.stream, y)) && x in es && x.seqNo > e.seqNo && e !in es && e !in v.sent
    ensures e !in SendAll(v, es + [e]).sent
  {
    LastSentIsHighest(v, es);
    SentFrom(v, es, e);
    assert (es + [e])[..|es|] == es;
    var j :| 0 <= j < |es| && es[j] == x;
    assert SendAll(v, es).lastSent >= x.seqNo;
  }

  lemma OthersAreSkipped(log: seq<Event>, capacity: nat, after: int, w: World, i: nat)
    requires Inv(log, capacity, after, w) && w.phase.Repairing? && Position(log, w.viewer) <= i < w.published
    requires log[i] !in w.ring && log[i] != w.phase.event
    ensures log[i] !in SendAll(w.viewer, ReadRingStep(log, w).phase.queue).sent
  {
    SentIsBelow(log, after, w.viewer, i);
    SentFrom(w.viewer, ReadRingStep(log, w).phase.queue, log[i]);
    AboveHas(w.ring, w.viewer.lastSent, log[i]);
  }

  lemma EventIsSkipped(log: seq<Event>, capacity: nat, after: int, w: World, i: nat)
    requires Inv(log, capacity, after, w) && w.phase.Repairing? && Position(log, w.viewer) <= i < w.published - 1
    requires log[i] !in w.ring && log[i] == w.phase.event && log[w.published - 1] in w.ring
    ensures log[i] !in SendAll(w.viewer, ReadRingStep(log, w).phase.queue).sent
  {
    PositionSplits(log, w.viewer);
    var v, last := w.viewer, log[w.published - 1];
    var recent := Above(w.ring, v.lastSent);
    SentIsBelow(log, after, v, i);
    AboveHas(w.ring, v.lastSent, log[i]);
    AboveHas(w.ring, v.lastSent, last);
    forall y | y in recent ensures !Foreign(v.stream, y) {
      AboveHas(w.ring, v.lastSent, y);
    }
    LastTooLow(v, recent, log[i], last);
  }

  /** A gap repair delivers everything published so far exactly when the ring
    * holds all of it that the viewer misses; only the event being handled may be
    * missing, if it is the last one published. An empty ring is no exception. */
  lemma RepairIsCompleteIff(log: seq<Event>, capacity: nat, after: int, w: World)
    requires Inv(log, capacity, after, w) && w.phase.Repairing?
    ensures RepairCovers(log, w, w.phase.event) <==> Delivers(log, w, ReadRingStep(log, w).phase.queue)
  {
    var queue := ReadRingStep(log, w).phase.queue;
    if RepairCovers(log, w, w.phase.event) {
      RepairQueue(log, capacity, w);
      forall i | Position(log, w.viewer) <= i < w.published ensures log[i] in SendAll(w.viewer, queue).sent {
        ChainDelivers(log, after, w.viewer, queue, i);
      }
    } else {
      var i :| Position(log, w.viewer) <= i < w.published && i < |log| && log[i] !in w.ring && !(i == w.published - 1 && log[i] == w.phase.event);
      var last := w.published - 1;
      if log[i] != w.phase.event {
        OthersAreSkipped(log, capacity, after, w, i);
      } else if log[last] in w.ring {
        EventIsSkipped(log, capacity, after, w, i);
      } else {
        assert log[i].seqNo < log[last].seqNo;
        OthersAreSkipped(log, capacity, after, w, last);
      }
    }
  }

  // ---- When the ring covers by itself ----

  /** How much was published when the ring last expired. */
  function Kept(log: seq<Event>, capacity: nat, w: World, actions: seq<Action>): nat {
    if actions == [] then 0
    else if actions[|actions| - 1].Expire? then Run(log, capacity, w, actions[..|actions| - 1]).published
    else Kept(log, capacity, w, actions[..|actions| - 1])
  }

  /** No event is redelivered once the ring has expired. */
  ghost predicate NoRefill(actions: seq<Action>) {
    forall i, j :: 0 <= i < j < |actions| && actions[i].Expire? ==> !actions[j].Redeliver?
  }

  /** The ring is the top of what was published from some log position on. */
  ghost predicate TopFrom(log: seq<Event>, capacity: nat, w: World, base: nat) {
    base <= w.published <= |log| && RingInv(log, capacity, w) && IsTop(w.ring, capacity, Numbers(log[base..w.published]))
  }

  lemma NumberIn(es: seq<Event>, i: nat)
    requires i < |es|
    ensures es[i].seqNo in Numbers(es)
  {
  }

  lemma NumbersNext(log: seq<Event>, base: nat, n: nat)
    requires base <= n < |log|
    ensures Numbers(log[base..n + 1]) == Numbers(log[base..n]) + {log[n].seqNo}
  {
    var part := log[base..n];
    assert log[base..n + 1] == part[..n - base] + [log[n]] + part[n - base..];
    NumbersInserted(part, n - base, log[n]);
  }

  lemma TopPublish(log: seq<Event>, capacity: nat, w: World, base: nat, deliver: bool)
    requires Ascending(log) && TopFrom(log, capacity, w, base)
    ensures TopFrom(log, capacity, PublishStep(log, capacity, w, deliver), base)
  {
    if w.published < |log| {
      var n := w.published;
      RingPublish(log, capacity, w, n, n + 1);
      PublishKeepsTop(w.ring, capacity, Numbers(log[base..n]), log[n]);
      NumbersNext(log, base, n);
    }
  }

  lemma TopRedeliver(log: seq<Event>, capacity: nat, w: World, i: nat, deliver: bool)
    requires Ascending(log) && TopFrom(log, capacity, w, 0)
    ensures TopFrom(log, capacity, RedeliverStep(log, capacity, w, i, deliver), 0)
  {
    if i < w.published {
      RingPublish(log, capacity, w, i, w.published);
      PublishKeepsTop(w.ring, capacity, Numbers(log[..w.published]), log[i]);
      assert log[0..w.published] == log[..w.published];
      NumberIn(log[..w.published], i);
      assert Numbers(log[..w.published]) + {log[i].seqNo} == Numbers(log[..w.published]);
    }
  }

  lemma TopStep(log: seq<Event>, capacity: nat, w: World, base: nat, a: Action)
    requires Ascending(log) && TopFrom(log, capacity, w, base) && (a.Redeliver? ==> base == 0)
    ensures TopFrom(log, capacity, Step(log, capacity, w, a), if a.Expire? then w.published else base)
  {
    match a
    case Publish(deliver) => TopPublish(log, capacity, w, base, deliver);
    case Redeliver(i, deliver) => TopRedeliver(log, capacity, w, i, deliver);
    case Expire => assert Numbers(log[w.published..w.published]) == {};
    case ReadRing =>
    case ReadHistory(_) =>
    case SendNext =>
    case Receive =>
    case Disconnect =>
  }

  lemma {:induction false} TopRun(log: seq<Event>, capacity: nat, w: World, actions: seq<Action>)
    requires Ascending(log) && TopFrom(log, capacity, w, 0) && NoRefill(actions)
    ensures TopFrom(log, capacity, Run(log, capacity, w, actions), Kept(log, capacity, w, actions))
    ensures (forall i :: 0 <= i < |actions| ==> !actions[i].Expire?) ==> Kept(log, capacity, w, actions) == 0
  {
    if actions != [] {
      var n := |actions| - 1;
      TopRun(log, capacity, w, actions[..n]);
      TopStep(log, capacity, Run(log, capacity, w, actions[..n]), Kept(log, capacity, w, actions[..n]), actions[n]);
    }
  }

  lemma TopCovers(log: seq<Event>, capacity: nat, w: World, base: nat)
    requires Ascending(log) && TopFrom(log, capacity, w, base)
    ensures RingCovers(log, w)
  {
    if w.ring != [] {
      var all := Numbers(log[base..w.published]);
      NumberIn(w.ring, 0);
      assert w.ring[0].seqNo in all;
      forall i | 0 <= i < w.published && log[i].seqNo >= w.ring[0].seqNo ensures log[i] in w.ring {
        assert i >= base;
        NumberIn(log[base..w.published], i - base);
        assert log[i].seqNo in all && log[i].seqNo in Numbers(w.ring);
        var k :| 0 <= k < |w.ring| && w.ring[k].seqNo == log[i].seqNo;
        IndexIs(log, i);
        assert Logged(log, w.ring[k], w.published);
      }
    }
  }

  /** Whatever is dropped, redelivered or expires, the ring has no hole at any
    * catch-up unless an event is redelivered after the ring has expired. */
  lemma RingCoversUnlessRefilled(log: seq<Event>, capacity: nat, after: int, w: World, actions: seq<Action>)
    requires Fresh(log, capacity, after, w) && IsTop(w.ring, capacity, Numbers(log[..w.published])) && NoRefill(actions)
    ensures RingCovers(log, Run(log, capacity, w, actions))
  {
    assert log[0..w.published] == log[..w.published];
    TopRun(log, capacity, w, actions);
    TopCovers(log, capacity, Run(log, capacity, w, actions), Kept(log, capacity, w, actions));
  }

  // ---- A redelivery after expiry ----

  /** The viewer that joins while an old event, redelivered after the ring expired,
    * is all the ring holds, with that event as its Last-Event-ID. */
  function Refilled(log: seq<Event>, capacity: nat, stream: Stream, i: nat, n: nat): World
    requires i < |log|
  {
    World(Viewer(stream, log[i].seqNo, []), Joining, n, Published([], capacity, log[i]), [], 0, false)
  }

  lemma OneInRing(capacity: nat, e: Event)
    requires capacity >= 1
    ensures Published([], capacity, e) == [e]
  {
    assert [] + [e] == [e];
    PublishNewest([], capacity, e);
  }

  lemma ExpiryThenRedelivery(log: seq<Event>, capacity: nat, w: World, i: nat, deliver: bool)
    requires i < w.published <= |log|
    ensures Step(log, capacity, Step(log, capacity, w, Expire), Redeliver(i, deliver)).ring == Published([], capacity, log[i])
  {
  }

  /** Its catch-up finds nothing to send and no need of the history, although
    * events above its cursor are published, nothing was dropped and the channel
    * is empty. */
  lemma RefilledRingHidesEvents(log: seq<Event>, capacity: nat, stream: Stream, i: nat, n: nat)
    requires Log(log, stream) && capacity >= 1 && i + 1 < n <= |log|
    ensures
      var w := Refilled(log, capacity, stream, i, n);
      var w' := Step(log, capacity, Step(log, capacity, w, ReadRing), SendNext);
      && Fresh(log, capacity, log[i].seqNo, w) && !RingCovers(log, w)
      && w' == w.(phase := Idle) && log[i + 1] !in w'.viewer.sent && log[i + 1].seqNo > w.viewer.lastSent
  {
    var e := log[i];
    OneInRing(capacity, e);
    IndexIs(log, i);
    AboveFirst(e, log[i + 1]);
    assert log[i + 1] !in [e];
  }

  /** And once the next event is published they are lost to it for good. */
  lemma RefilledRingLosesEvents(log: seq<Event>, capacity: nat, w: World, i: nat, n: nat)
    requires i + 1 < n < |log| && Log(log, w.viewer.stream) && capacity >= 1
    requires w == Refilled(log, capacity, w.viewer.stream, i, n).(phase := Idle)
    ensures
      var w1 := Step(log, capacity, Step(log, capacity, w, Publish(true)), Receive);
      var w2 := Step(log, capacity, w1, ReadRing);
      w1.phase.Repairing? && w2.phase.Sending? && SendAll(w2.viewer, w2.phase.queue).sent == [log[n]]
  {
    var e, x := log[i], log[n];
    assert e.seqNo < log[i + 1].seqNo < x.seqNo;
    OneInRing(capacity, e);
    NextReceived(log, capacity, w, n);
    RefillPublished(capacity, e, x);
    SentTwice(w.viewer, x);
  }

  lemma NextReceived(log: seq<Event>, capacity: nat, w: World, n: nat)
    requires w.phase == Idle && w.channel == [] && w.published == n < |log| && Gap(w.viewer, log[n])
    ensures
      var w1 := Step(log, capacity, Step(log, capacity, w, Publish(true)), Receive);
      var w2 := Step(log, capacity, w1, ReadRing);
      && w1.phase == Repairing(log[n])
      && w2.phase == Sending(Above(Published(w.ring, capacity, log[n]), w.viewer.lastSent) + [log[n]]) && w2.viewer == w.viewer
  {
    var e := log[n];
    var w0 := w.(ring := Published(w.ring, capacity, e), published := n + 1, channel := [e]);
    OnePublished(log, capacity, w, n);
    OneReceived(log, w0, e);
    var w1 := ReceiveStep(log, w0);
    assert Step(log, capacity, w0, Receive) == w1;
    assert Step(log, capacity, w1, ReadRing) == ReadRingStep(log, w1);
  }

  lemma OnePublished(log: seq<Event>, capacity: nat, w: World, n: nat)
    requires w.channel == [] && w.published == n < |log|
    ensures Step(log, capacity, w, Publish(true)) == w.(ring := Published(w.ring, capacity, log[n]), published := n + 1, channel := [log[n]])
  {
    assert [] + [log[n]] == [log[n]];
  }

  lemma OneReceived(log: seq<Event>, w: World, e: Event)
    requires w.phase == Idle && w.channel == [e] && Gap(w.viewer, e)
    ensures var w1 := ReceiveStep(log, w);
      && w1.phase == Repairing(e) && w1.viewer == w.viewer && w1.ring == w.ring
      && ReadRingStep(log, w1) == w1.(phase := Sending(Above(w.ring, w.viewer.lastSent) + [e]))
  {
  }

  lemma RefillPublished(capacity: nat, e: Event, x: Event)
    requires e.seqNo < x.seqNo && capacity >= 1
    ensures Above(Published([e], capacity, x), e.seqNo) == [x]
  {
    assert [e] + [x] == [e, x];
    PublishNewest([e], capacity, x);
    AboveFirst(e, x);
    if capacity == 1 {
      assert Trim([e, x], 1) == [x];
    } else {
      assert Trim([e, x], capacity) == [e, x];
    }
  }

  lemma SentTwice(v: Viewer, x: Event)
    requires x.seqNo > v.lastSent && !Foreign(v.stream, x)
    ensures SendAll(v, [x] + [x]) == SendOne(v, x)
  {
    SendAllConcat(v, [x], [x]);
    assert [x][..0] == [];
  }

  lemma AboveNext(es: seq<Event>, e: Event, after: int)
    ensures Above(es + [e], after) == if e.seqNo > after then Above(es, after) + [e] else Above(es, after)
  {
    assert (es + [e])[..|es|] == es;
  }

  lemma AboveFirst(e: Event, x: Event)
    requires e.seqNo < x.seqNo
    ensures Above([e, x], e.seqNo) == [x] && Above([x], e.seqNo) == [x] && Above([e], e.seqNo) == []
  {
    AboveNext([], e, e.seqNo);
    AboveNext([], x, e.seqNo);
    AboveNext([e], x, e.seqNo);
    assert [] + [e] == [e] && [] + [x] == [x] && [e] + [x] == [e, x];
  }

  /** An event that is handled after a higher one of its stream is not sent then,
    * nor ever after. */
  lemma OutOfOrderIsSkipped(v: Viewer, es: seq<Event>, i: nat, j: nat)
    requires i < j < |es| && es[j].seqNo < es[i].seqNo && forall e :: e in es ==> !Foreign(v.stream, e)
    requires es[j] !in v.sent && es[j] !in es[..j]
    ensures es[j] !in SendAll(v, es).sent
  {
    var before, rest := es[..j], es[j..];
    assert es == before + rest && before[i] == es[i];
    LastSentIsHighest(v, before);
    SentFrom(v, before, es[j]);
    PassedOver(SendAll(v, before), rest, es[j]);
    SendAllConcat(v, before, rest);
  }
}
