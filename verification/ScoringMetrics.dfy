/** A session's scoring metrics from its event timeline. Times are whole
  * milliseconds; 0 is Go's zero time, which means "none yet".
  */
module ScoringMetrics {
  import opened Prelude
  import opened Sorting

  datatype Kind = SessionStarted | PromptSubmitted | AIResponseCompleted | ExecutionRequested
                | ExecutionCompleted | CodeDiff | SessionSubmitted | SessionExpired | Other

  /** The payload fields the metrics read. */
  datatype Fields = Fields(status: string, origin: string, inputTokens: int, outputTokens: int, added: int, removed: int)
  /** An event of the log; its payload is None if it cannot be decoded. */
  datatype Event = Event(seqNo: int, kind: Kind, at: int, payload: Option<Fields>)

  datatype AI = AI(prompts: int, responses: int, errors: int, inputTokens: int, outputTokens: int)
  datatype Runs = Runs(count: int, succeeded: int, lastStatus: string)
  datatype Diffs = Diffs(count: int, aiCount: int, added: int, removed: int, aiAdded: int)
  datatype Times = Times(active: int, toFirstRun: Option<int>)
  datatype Metrics = Metrics(ai: AI, runs: Runs, diffs: Diffs, times: Times)

  const STATUS_ERROR: string := "error"
  const STATUS_SUCCEEDED: string := "succeeded"
  const ORIGIN_AI_APPLIED: string := "ai_applied"

  predicate IsActivity(e: Event) { e.kind != Other }
  predicate NeedsPayload(e: Event) { e.kind == AIResponseCompleted || e.kind == ExecutionCompleted || e.kind == CodeDiff }
  predicate Undecodable(e: Event) { NeedsPayload(e) && e.payload.None? }

  // ---- Each event's contribution ----

  function Of(e: Event, kind: Kind): int { if e.kind == kind then 1 else 0 }
  predicate Has(e: Event, kind: Kind) { e.kind == kind && e.payload.Some? }

  function Prompts(e: Event): int { Of(e, PromptSubmitted) }
  function Responses(e: Event): int { Of(e, AIResponseCompleted) }
  function Errors(e: Event): int { if Has(e, AIResponseCompleted) && e.payload.value.status == STATUS_ERROR then 1 else 0 }
  function InputTokens(e: Event): int { if Has(e, AIResponseCompleted) then e.payload.value.inputTokens else 0 }
  function OutputTokens(e: Event): int { if Has(e, AIResponseCompleted) then e.payload.value.outputTokens else 0 }
  function RunsDone(e: Event): int { Of(e, ExecutionCompleted) }
  function RunsSucceeded(e: Event): int { if Has(e, ExecutionCompleted) && e.payload.value.status == STATUS_SUCCEEDED then 1 else 0 }
  function DiffsMade(e: Event): int { Of(e, CodeDiff) }
  function Added(e: Event): int { if Has(e, CodeDiff) then e.payload.value.added else 0 }
  function Removed(e: Event): int { if Has(e, CodeDiff) then e.payload.value.removed else 0 }
  predicate Applied(e: Event) { Has(e, CodeDiff) && e.payload.value.origin == ORIGIN_AI_APPLIED }
  function AIDiffs(e: Event): int { if Applied(e) then 1 else 0 }
  function AIAdded(e: Event): int { if Applied(e) then e.payload.value.added else 0 }

  function Total(s: seq<Event>, f: Event -> int): int {
    if s == [] then 0 else Total(s[..|s| - 1], f) + f(s[|s| - 1])
  }

  function Activity(s: seq<Event>): seq<Event> {
    if s == [] then []
    else if IsActivity(s[|s| - 1]) then Activity(s[..|s| - 1]) + [s[|s| - 1]]
    else Activity(s[..|s| - 1])
  }

  /** The earliest time as the code finds it: a zero time counts as none. */
  function First(s: seq<Event>): int {
    if s == [] then 0
    else
      var first, at := First(s[..|s| - 1]), s[|s| - 1].at;
      if first == 0 || at < first then at else first
  }

  function Last(s: seq<Event>): int {
    if s == [] then 0 else var last, at := Last(s[..|s| - 1]), s[|s| - 1].at; if at > last then at else last
  }

  function FirstRun(s: seq<Event>): int {
    if s == [] then 0
    else
      var first, e := FirstRun(s[..|s| - 1]), s[|s| - 1];
      if e.kind == ExecutionRequested && (first == 0 || e.at < first) then e.at else first
  }

  /** The status of the last finished run by sequence number, and that number. */
  function LastRun(s: seq<Event>): (int, string) {
    if s == [] then (-1, "")
    else
      var last, e := LastRun(s[..|s| - 1]), s[|s| - 1];
      if Has(e, ExecutionCompleted) && e.seqNo > last.0 then (e.seqNo, e.payload.value.status) else last
  }

  function AIOf(s: seq<Event>): AI {
    AI(Total(s, Prompts), Total(s, Responses), Total(s, Errors), Total(s, InputTokens), Total(s, OutputTokens))
  }

  function RunsOf(s: seq<Event>): Runs { Runs(Total(s, RunsDone), Total(s, RunsSucceeded), LastRun(s).1) }

  function DiffsOf(s: seq<Event>): Diffs {
    Diffs(Total(s, DiffsMade), Total(s, AIDiffs), Total(s, Added), Total(s, Removed), Total(s, AIAdded))
  }

  function TimesOf(s: seq<Event>): Times {
    Times(if First(s) != 0 then Last(s) - First(s) else 0, if FirstRun(s) != 0 then Some(FirstRun(s) - First(s)) else None)
  }

  function MetricsOf(s: seq<Event>): Metrics { Metrics(AIOf(s), RunsOf(s), DiffsOf(s), TimesOf(s)) }

  // ---- Dedupe ----

  predicate Earlier(a: Event, b: Event) { a.seqNo < b.seqNo }

  /** Drops every event that repeats its predecessor's number. */
  function Unrepeated(s: seq<Event>): seq<Event> {
    if s == [] then []
    else
      var kept, e := Unrepeated(s[..|s| - 1]), s[|s| - 1];
      if kept != [] && kept[|kept| - 1].seqNo == e.seqNo then kept else kept + [e]
  }

  function Deduped(timeline: seq<Event>): seq<Event> { Unrepeated(Sort(timeline, Earlier)) }

  method Dedupe(timeline: seq<Event>) returns (result: seq<Event>)
    ensures result == Deduped(timeline)
  {
    var ordered := Sort(timeline, Earlier);
    result := [];
    for i := 0 to |ordered|
      invariant result == Unrepeated(ordered[..i])
    {
      assert ordered[..i + 1][..i] == ordered[..i];
      if result != [] && result[|result| - 1].seqNo == ordered[i].seqNo {
        continue;
      }
      result := result + [ordered[i]];
    }
    assert ordered[..|ordered|] == ordered;
  }

  // ---- Compute ----

  ghost predicate AllDecodable(s: seq<Event>) { forall e :: e in s ==> !Undecodable(e) }

  /** The metrics, or None when an event that is counted cannot be decoded. */
  ghost function Computed(timeline: seq<Event>): Option<Metrics> {
    if AllDecodable(Deduped(timeline)) then Some(MetricsOf(Activity(Deduped(timeline)))) else None
  }

  lemma ActivityNext(s: seq<Event>, i: nat)
    requires i < |s|
    ensures Activity(s[..i + 1]) == if IsActivity(s[i]) then Activity(s[..i]) + [s[i]] else Activity(s[..i])
  {
    assert s[..i + 1][..i] == s[..i];
  }

  lemma TotalNext(s: seq<Event>, e: Event, f: Event -> int)
    ensures Total(s + [e], f) == Total(s, f) + f(e)
  {
    assert (s + [e])[..|s|] == s;
  }

  function AddAI(m: AI, e: Event): AI {
    AI(m.prompts + Prompts(e), m.responses + Responses(e), m.errors + Errors(e), m.inputTokens + InputTokens(e), m.outputTokens + OutputTokens(e))
  }

  lemma NextAI(s: seq<Event>, e: Event)
    ensures AIOf(s + [e]) == AddAI(AIOf(s), e)
  {
    TotalNext(s, e, Prompts);
    TotalNext(s, e, Responses);
    TotalNext(s, e, Errors);
    TotalNext(s, e, InputTokens);
    TotalNext(s, e, OutputTokens);
  }

  function AddDiff(m: Diffs, e: Event): Diffs {
    Diffs(m.count + DiffsMade(e), m.aiCount + AIDiffs(e), m.added + Added(e), m.removed + Removed(e), m.aiAdded + AIAdded(e))
  }

  lemma NextDiffs(s: seq<Event>, e: Event)
    ensures DiffsOf(s + [e]) == AddDiff(DiffsOf(s), e)
  {
    TotalNext(s, e, DiffsMade);
    TotalNext(s, e, AIDiffs);
    TotalNext(s, e, Added);
    TotalNext(s, e, Removed);
    TotalNext(s, e, AIAdded);
  }

  function LaterRun(last: (int, string), e: Event): (int, string) {
    if Has(e, ExecutionCompleted) && e.seqNo > last.0 then (e.seqNo, e.payload.value.status) else last
  }

  lemma NextRuns(s: seq<Event>, e: Event)
    ensures LastRun(s + [e]) == LaterRun(LastRun(s), e)
    ensures RunsOf(s + [e]) == Runs(RunsOf(s).count + RunsDone(e), RunsOf(s).succeeded + RunsSucceeded(e), LastRun(s + [e]).1)
  {
    TotalNext(s, e, RunsDone);
    TotalNext(s, e, RunsSucceeded);
    assert (s + [e])[..|s|] == s;
  }

  function EarlierRun(first: int, e: Event): int {
    if e.kind == ExecutionRequested && (first == 0 || e.at < first) then e.at else first
  }

  lemma NextTimes(s: seq<Event>, e: Event)
    ensures First(s + [e]) == if First(s) == 0 || e.at < First(s) then e.at else First(s)
    ensures Last(s + [e]) == if e.at > Last(s) then e.at else Last(s)
    ensures FirstRun(s + [e]) == EarlierRun(FirstRun(s), e)
  {
    assert (s + [e])[..|s|] == s;
  }

  /** What Compute has counted so far. */
  datatype Tally = Tally(ai: AI, runs: Runs, diffs: Diffs, firstRun: int, lastRunSequence: int)

  /** The switch over one decodable activity event. */
  method Count(m: Tally, e: Event) returns (r: Tally)
    requires !Undecodable(e)
    ensures Counted(m, e, r)
  {
    r := m;
    match e.kind {
      case PromptSubmitted =>
        r := r.(ai := r.ai.(prompts := r.ai.prompts + 1));
      case AIResponseCompleted =>
        var p, errors := e.payload.value, r.ai.errors;
        if p.status == STATUS_ERROR {
          errors := errors + 1;
        }
        r := r.(ai := AI(r.ai.prompts, r.ai.responses + 1, errors, r.ai.inputTokens + p.inputTokens, r.ai.outputTokens + p.outputTokens));
      case ExecutionRequested =>
        if r.firstRun == 0 || e.at < r.firstRun {
          r := r.(firstRun := e.at);
        }
      case ExecutionCompleted =>
        var p, runs := e.payload.value, r.runs;
        runs := runs.(count := runs.count + 1);
        if p.status == STATUS_SUCCEEDED {
          runs := runs.(succeeded := runs.succeeded + 1);
        }
        if e.seqNo > r.lastRunSequence {
          r := r.(lastRunSequence := e.seqNo);
          runs := runs.(lastStatus := p.status);
        }
        r := r.(runs := runs);
      case CodeDiff =>
        var p, diffs := e.payload.value, r.diffs;
        diffs := diffs.(count := diffs.count + 1, added := diffs.added + p.added, removed := diffs.removed + p.removed);
        if p.origin == ORIGIN_AI_APPLIED {
          diffs := diffs.(aiCount := diffs.aiCount + 1, aiAdded := diffs.aiAdded + p.added);
        }
        r := r.(diffs := diffs);
      case _ =>
    }
  }

  /** What Count makes of one event. */
  ghost predicate Counted(m: Tally, e: Event, r: Tally) {
    && r.ai == AddAI(m.ai, e) && r.diffs == AddDiff(m.diffs, e) && r.firstRun == EarlierRun(m.firstRun, e)
    && (r.lastRunSequence, r.runs.lastStatus) == LaterRun((m.lastRunSequence, m.runs.lastStatus), e)
    && r.runs.count == m.runs.count + RunsDone(e) && r.runs.succeeded == m.runs.succeeded + RunsSucceeded(e)
  }

  /** The counters, first and last time of the events so far. */
  ghost predicate Tallied(acts: seq<Event>, m: Tally, first: int, last: int) {
    && m.ai == AIOf(acts) && m.diffs == DiffsOf(acts)
    && m.runs == RunsOf(acts) && m.lastRunSequence == LastRun(acts).0
    && first == First(acts) && last == Last(acts) && m.firstRun == FirstRun(acts)
  }

  lemma NextTallied(acts: seq<Event>, m: Tally, first: int, last: int, e: Event, r: Tally)
    requires Tallied(acts, m, first, last) && Counted(m, e, r)
    ensures Tallied(acts + [e], r, if first == 0 || e.at < first then e.at else first, if e.at > last then e.at else last)
  {
    NextAI(acts, e);
    NextRuns(acts, e);
    NextDiffs(acts, e);
    NextTimes(acts, e);
  }

  method Durations(first: int, last: int, firstRun: int) returns (times: Times)
    ensures times == Times(if first != 0 then last - first else 0, if firstRun != 0 then Some(firstRun - first) else None)
  {
    var active, toFirstRun := 0, None;
    if first != 0 {
      active := last - first;
    }
    if firstRun != 0 {
      toFirstRun := Some(firstRun - first);
    }
    times := Times(active, toFirstRun);
  }

  /** The loop body up to the counting, on ghost state. */
  lemma NextEvent(ordered: seq<Event>, i: nat, m: Tally, first: int, last: int, r: Tally)
    requires i < |ordered| && IsActivity(ordered[i])
    requires Tallied(Activity(ordered[..i]), m, first, last) && Counted(m, ordered[i], r)
    ensures
      var at := ordered[i].at;
      Tallied(Activity(ordered[..i + 1]), r, if first == 0 || at < first then at else first, if at > last then at else last)
  {
    ActivityNext(ordered, i);
    NextTallied(Activity(ordered[..i]), m, first, last, ordered[i], r);
  }

  lemma Finished(acts: seq<Event>, m: Tally, first: int, last: int, times: Times)
    requires Tallied(acts, m, first, last)
    requires times == Times(if first != 0 then last - first else 0, if m.firstRun != 0 then Some(m.firstRun - first) else None)
    ensures MetricsOf(acts) == Metrics(m.ai, m.runs, m.diffs, times)
  {
    assert TimesOf(acts) == times;
  }

  /** The loop: stops at the first counted event that cannot be decoded. */
  method Scan(ordered: seq<Event>) returns (ok: bool, m: Tally, first: int, last: int)
    ensures ok <==> AllDecodable(ordered)
    ensures ok ==> Tallied(Activity(ordered), m, first, last)
  {
    m := Tally(AI(0, 0, 0, 0, 0), Runs(0, 0, ""), Diffs(0, 0, 0, 0, 0), 0, -1);
    first, last := 0, 0;
    for i := 0 to |ordered|
      invariant AllDecodable(ordered[..i]) && Tallied(Activity(ordered[..i]), m, first, last)
    {
      var e := ordered[i];
      if !IsActivity(e) {
        ActivityNext(ordered, i);
        continue;
      }
      if Undecodable(e) {
        assert e in ordered;
        return false, m, first, last;
      }
      var next := Count(m, e);
      NextEvent(ordered, i, m, first, last, next);
      if first == 0 || e.at < first {
        first := e.at;
      }
      if e.at > last {
        last := e.at;
      }
      m := next;
    }
    assert ordered[..|ordered|] == ordered;
    ok := true;
  }

  method Compute(timeline: seq<Event>) returns (r: Option<Metrics>)
    ensures r == Computed(timeline)
  {
    var ordered := Dedupe(timeline);
    var ok, m, first, last := Scan(ordered);
    if !ok {
      return None;
    }
    var times := Durations(first, last, m.firstRun);
    Finished(Activity(ordered), m, first, last, times);
    return Some(Metrics(m.ai, m.runs, m.diffs, times));
  }

  // ---- Order and repetition do not matter ----

  /** Events with one number are copies of one event. */
  ghost predicate Consistent(timeline: seq<Event>) {
    forall a, b :: a in timeline && b in timeline && a.seqNo == b.seqNo ==> a == b
  }

  ghost predicate Ascending(s: seq<Event>) { forall i, j :: 0 <= i < j < |s| ==> s[i].seqNo < s[j].seqNo }

  ghost predicate SameEvents(a: seq<Event>, b: seq<Event>) { forall e :: e in a <==> e in b }

  lemma EarlierIsAnOrder()
    ensures StrictWeak(Earlier)
  {
  }

  lemma {:induction false} UnrepeatedAscends(s: seq<Event>)
    requires Sorted(s, Earlier)
    ensures Ascending(Unrepeated(s)) && (s != [] ==> Unrepeated(s) != [] && Unrepeated(s)[|Unrepeated(s)| - 1].seqNo == s[|s| - 1].seqNo)
  {
    if |s| > 1 {
      UnrepeatedAscends(s[..|s| - 1]);
      assert !Earlier(s[|s| - 1], s[|s| - 2]);
    }
  }

  lemma {:induction false} UnrepeatedFrom(s: seq<Event>, e: Event)
    ensures e in Unrepeated(s) ==> e in s
  {
    if s != [] {
      UnrepeatedFrom(s[..|s| - 1], e);
    }
  }

  ghost predicate Numbered(s: seq<Event>, n: int) { exists i :: 0 <= i < |s| && s[i].seqNo == n }

  lemma {:induction false} UnrepeatedKeeps(s: seq<Event>, e: Event)
    requires e in s
    ensures Numbered(Unrepeated(s), e.seqNo)
  {
    var init, last := s[..|s| - 1], s[|s| - 1];
    var kept := Unrepeated(init);
    if e == last {
      assert Unrepeated(s)[|Unrepeated(s)| - 1].seqNo == e.seqNo;
    } else {
      assert e in init;
      UnrepeatedKeeps(init, e);
      var i :| 0 <= i < |kept| && kept[i].seqNo == e.seqNo;
      assert Unrepeated(s)[i] == kept[i];
    }
  }

  /** Dedupe keeps exactly one event of each number, in ascending order. */
  lemma DedupedIs(timeline: seq<Event>)
    ensures Ascending(Deduped(timeline))
    ensures forall e :: e in Deduped(timeline) ==> e in timeline
    ensures forall e :: e in timeline ==> Numbered(Deduped(timeline), e.seqNo)
    ensures Consistent(timeline) ==> SameEvents(Deduped(timeline), timeline)
  {
    var sorted := Sort(timeline, Earlier);
    EarlierIsAnOrder();
    SortIsSorted(timeline, Earlier);
    UnrepeatedAscends(sorted);
    forall e ensures (e in sorted <==> e in timeline) && (e in Deduped(timeline) ==> e in sorted) && (e in sorted ==> Numbered(Deduped(timeline), e.seqNo)) {
      assert e in multiset(sorted) <==> e in multiset(timeline);
      UnrepeatedFrom(sorted, e);
      if e in sorted { UnrepeatedKeeps(sorted, e); }
    }
    if Consistent(timeline) {
      forall e | e in timeline ensures e in Deduped(timeline) {
        var i :| 0 <= i < |Deduped(timeline)| && Deduped(timeline)[i].seqNo == e.seqNo;
        assert Deduped(timeline)[i] in timeline;
      }
    }
  }

  /** Any permutation and any repetition of the same events give the same metrics. */
  lemma OrderAndCopiesAreIrrelevant(a: seq<Event>, b: seq<Event>)
    requires Consistent(a) && SameEvents(a, b)
    ensures Computed(a) == Computed(b)
  {
    assert Consistent(b);
    DedupedIs(a);
    DedupedIs(b);
    EarlierIsAnOrder();
    AscendsUnique(Deduped(a), Deduped(b), Earlier);
  }
}
