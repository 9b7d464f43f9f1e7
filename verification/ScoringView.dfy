/** The metrics as ClickHouse computes them: one row per sequence number in
  * session_metric_rows, aggregated by v_session_metrics.
  */
module ScoringView {
  import opened Prelude
  import opened Sorting
  import opened ScoringMetrics

  /** The projected rows of a timeline, one for each sequence number. When copies
    * of a row arrive, any of them may be the one that is kept. */
  ghost predicate IsTable(t: map<int, Event>, timeline: seq<Event>) {
    && (forall k :: k in t ==> t[k] in timeline && t[k].seqNo == k && IsActivity(t[k]))
    && (forall e :: e in timeline && IsActivity(e) ==> e.seqNo in t)
  }

  /** sum(f) over the rows. */
  ghost function SumRows(t: map<int, Event>, f: Event -> int): int {
    if exists k :: k in t then var k :| k in t; f(t[k]) + SumRows(t - {k}, f) else 0
  }

  /** minIf and maxIf. */
  ghost predicate MinAt(t: map<int, Event>, p: Event -> bool, at: int) {
    && (exists k :: k in t && p(t[k]) && t[k].at == at)
    && (forall k :: k in t && p(t[k]) ==> at <= t[k].at)
  }

  ghost predicate MaxAt(t: map<int, Event>, at: int) {
    && (exists k :: k in t && t[k].at == at)
    && (forall k :: k in t ==> t[k].at <= at)
  }

  predicate RunRequested(e: Event) { e.kind == ExecutionRequested }
  predicate RunCompleted(e: Event) { Has(e, ExecutionCompleted) }
  predicate AnyRow(e: Event) { true }

  /** argMaxIf(run_status, sequence_number, run_completed = 1). */
  ghost predicate LastStatus(t: map<int, Event>, status: string) {
    if exists k :: k in t && RunCompleted(t[k]) then
      exists k :: k in t && RunCompleted(t[k]) && t[k].payload.value.status == status && forall j :: j in t && RunCompleted(t[j]) ==> j <= k
    else status == ""
  }

  ghost predicate Durations(t: map<int, Event>, times: Times) {
    exists first, last ::
      && MinAt(t, AnyRow, first) && MaxAt(t, last) && times.active == last - first
      && if exists k :: k in t && RunRequested(t[k])
         then times.toFirstRun.Some? && MinAt(t, RunRequested, times.toFirstRun.value + first)
         else times.toFirstRun.None?
  }

  /** The view's row for a session with at least one activity event. */
  ghost predicate ViewRow(t: map<int, Event>, m: Metrics) {
    && m.ai == AI(SumRows(t, Prompts), SumRows(t, Responses), SumRows(t, Errors), SumRows(t, InputTokens), SumRows(t, OutputTokens))
    && m.runs.count == SumRows(t, RunsDone) && m.runs.succeeded == SumRows(t, RunsSucceeded)
    && m.diffs == Diffs(SumRows(t, DiffsMade), SumRows(t, AIDiffs), SumRows(t, Added), SumRows(t, Removed), SumRows(t, AIAdded))
    && LastStatus(t, m.runs.lastStatus)
    && Durations(t, m.times)
  }

  // ---- A table and a list of its rows ----

  ghost predicate Lists(t: map<int, Event>, rows: seq<Event>) {
    && (forall i, j :: 0 <= i < j < |rows| ==> rows[i].seqNo != rows[j].seqNo)
    && (forall e :: e in rows ==> e.seqNo in t && t[e.seqNo] == e)
    && (forall k :: k in t ==> t[k].seqNo == k && t[k] in rows)
  }

  lemma {:induction false} TotalConcat(a: seq<Event>, b: seq<Event>, f: Event -> int)
    ensures Total(a + b, f) == Total(a, f) + Total(b, f)
  {
    if b == [] {
      assert a + b == a;
    } else {
      TotalConcat(a, b[..|b| - 1], f);
      assert (a + b)[..|a + b| - 1] == a + b[..|b| - 1];
    }
  }

  lemma NoneIn(s: seq<Event>)
    ensures s == [] || exists e :: e in s
  {
    if s != [] { assert s[0] in s; }
  }

  lemma TotalMiddle(a: seq<Event>, x: Event, b: seq<Event>, f: Event -> int)
    ensures Total(a + [x] + b, f) == f(x) + Total(a + b, f)
  {
    TotalConcat(a + [x], b, f);
    TotalNext(a, x, f);
    TotalConcat(a, b, f);
  }

  lemma TotalWithout(rows: seq<Event>, i: nat, f: Event -> int)
    requires i < |rows|
    ensures Total(rows, f) == f(rows[i]) + Total(rows[..i] + rows[i + 1..], f)
  {
    TotalMiddle(rows[..i], rows[i], rows[i + 1..], f);
    assert rows == rows[..i] + [rows[i]] + rows[i + 1..];
  }

  lemma ListsWithout(t: map<int, Event>, rows: seq<Event>, i: nat)
    requires Lists(t, rows) && i < |rows|
    ensures Lists(t - {rows[i].seqNo}, rows[..i] + rows[i + 1..])
  {
    var rest := rows[..i] + rows[i + 1..];
    forall e ensures e in rest <==> e in rows && e != rows[i] {
      if e in rows && e != rows[i] {
        var j :| 0 <= j < |rows| && rows[j] == e;
        assert if j < i then rest[j] == e else rest[j - 1] == e;
      }
    }
  }

  lemma {:induction false} SumIsTotal(t: map<int, Event>, rows: seq<Event>, f: Event -> int)
    requires Lists(t, rows)
    ensures SumRows(t, f) == Total(rows, f)
    decreases |rows|
  {
    NoneIn(rows);
    if exists k :: k in t {
      var k :| k in t && SumRows(t, f) == f(t[k]) + SumRows(t - {k}, f);
      var i :| 0 <= i < |rows| && rows[i] == t[k];
      TotalWithout(rows, i, f);
      ListsWithout(t, rows, i);
      SumIsTotal(t - {k}, rows[..i] + rows[i + 1..], f);
    }
  }

  lemma {:induction false} ActivityHas(s: seq<Event>, e: Event)
    ensures e in Activity(s) <==> e in s && IsActivity(e)
  {
    if s != [] {
      ActivityHas(s[..|s| - 1], e);
      assert s == s[..|s| - 1] + [s[|s| - 1]];
    }
  }

  lemma {:induction false} ActivityAscends(s: seq<Event>)
    requires Ascending(s)
    ensures Ascending(Activity(s))
  {
    if s != [] {
      var n := |s| - 1;
      ActivityAscends(s[..n]);
      forall e | e in Activity(s[..n]) ensures e.seqNo < s[n].seqNo {
        ActivityHas(s[..n], e);
      }
    }
  }

  /** The rows Compute counts are those of the table. */
  lemma ComputeCountsTheTable(timeline: seq<Event>, t: map<int, Event>)
    requires Consistent(timeline) && IsTable(t, timeline)
    ensures Lists(t, Activity(Deduped(timeline))) && Ascending(Activity(Deduped(timeline)))
  {
    DedupedIs(timeline);
    ActivityAscends(Deduped(timeline));
    forall e ensures e in Activity(Deduped(timeline)) <==> e in timeline && IsActivity(e) {
      ActivityHas(Deduped(timeline), e);
    }
  }

  // ---- First, last and last run of a list ----

  lemma {:induction false} FirstIsMin(s: seq<Event>)
    requires s != [] && forall e :: e in s ==> e.at > 0
    ensures First(s) > 0 && (forall e :: e in s ==> First(s) <= e.at) && exists i :: 0 <= i < |s| && s[i].at == First(s)
  {
    var n := |s| - 1;
    assert s[n] in s;
    if n > 0 {
      FirstIsMin(s[..n]);
      var i :| 0 <= i < n && s[..n][i].at == First(s[..n]);
      assert s[i].at == First(s[..n]);
      assert First(s) == if s[n].at < First(s[..n]) then s[n].at else First(s[..n]);
      forall e | e in s ensures First(s) <= e.at {
        assert e in s[..n] || e == s[n];
      }
    } else {
      assert First(s[..n]) == 0;
    }
  }

  lemma {:induction false} LastIsMax(s: seq<Event>)
    requires s != [] && forall e :: e in s ==> e.at > 0
    ensures (forall e :: e in s ==> e.at <= Last(s)) && exists i :: 0 <= i < |s| && s[i].at == Last(s)
  {
    var n := |s| - 1;
    assert s[n] in s;
    if n > 0 {
      LastIsMax(s[..n]);
      var i :| 0 <= i < n && s[..n][i].at == Last(s[..n]);
      assert s[i].at == Last(s[..n]);
      forall e | e in s ensures e.at <= Last(s) {
        assert e in s[..n] || e == s[n];
      }
    } else {
      assert Last(s[..n]) == 0;
    }
  }

  lemma {:induction false} FirstRunIsMin(s: seq<Event>)
    requires forall e :: e in s ==> e.at > 0
    ensures FirstRun(s) == 0 <==> forall e :: e in s ==> !RunRequested(e)
    ensures FirstRun(s) != 0 ==> FirstRun(s) > 0 && exists i :: 0 <= i < |s| && RunRequested(s[i]) && s[i].at == FirstRun(s)
    ensures forall e :: e in s && RunRequested(e) ==> FirstRun(s) <= e.at
  {
    if s != [] {
      var n := |s| - 1;
      assert s[n] in s;
      FirstRunIsMin(s[..n]);
      if FirstRun(s[..n]) != 0 {
        var i :| 0 <= i < n && RunRequested(s[..n][i]) && s[..n][i].at == FirstRun(s[..n]);
        assert s[i] == s[..n][i];
      }
      forall e | e in s ensures e in s[..n] || e == s[n] {
      }
    }
  }

  lemma {:induction false} LastRunIsLast(s: seq<Event>)
    requires Ascending(s) && forall e :: e in s ==> e.seqNo >= 0
    ensures LastRun(s).0 < 0 <==> forall e :: e in s ==> !RunCompleted(e)
    ensures LastRun(s).0 < 0 ==> LastRun(s) == (-1, "")
    ensures LastRun(s).0 >= 0 ==> exists i :: 0 <= i < |s| && RunCompleted(s[i]) && s[i].seqNo == LastRun(s).0 && s[i].payload.value.status == LastRun(s).1
    ensures forall e :: e in s && RunCompleted(e) ==> e.seqNo <= LastRun(s).0
  {
    if s != [] {
      var n := |s| - 1;
      assert s[n] in s;
      LastRunIsLast(s[..n]);
      if LastRun(s[..n]).0 >= 0 {
        var i :| 0 <= i < n && RunCompleted(s[..n][i]) && s[..n][i].seqNo == LastRun(s[..n]).0 && s[..n][i].payload.value.status == LastRun(s[..n]).1;
        assert s[i] == s[..n][i];
      }
      forall e | e in s ensures e in s[..n] || e == s[n] {
      }
    }
  }

  // ---- Agreement ----

  /** What the event log guarantees of what it stores: sequence numbers start at 1
    * and times are after the zero time. */
  ghost predicate Stored(timeline: seq<Event>) {
    Consistent(timeline) && forall e :: e in timeline ==> e.seqNo >= 1 && e.at > 0
  }

  lemma EndsFound(t: map<int, Event>, acts: seq<Event>)
    requires Lists(t, acts) && acts != [] && forall e :: e in acts ==> e.at > 0
    ensures First(acts) > 0 && MinAt(t, AnyRow, First(acts)) && MaxAt(t, Last(acts))
  {
    FirstIsMin(acts);
    LastIsMax(acts);
    var i :| 0 <= i < |acts| && acts[i].at == First(acts);
    assert acts[i] in acts;
    var j :| 0 <= j < |acts| && acts[j].at == Last(acts);
    assert acts[j] in acts;
  }

  lemma RunFound(t: map<int, Event>, acts: seq<Event>)
    requires Lists(t, acts) && forall e :: e in acts ==> e.at > 0
    ensures FirstRun(acts) != 0 <==> exists k :: k in t && RunRequested(t[k])
    ensures FirstRun(acts) != 0 ==> MinAt(t, RunRequested, FirstRun(acts))
  {
    FirstRunIsMin(acts);
    if FirstRun(acts) != 0 {
      var r :| 0 <= r < |acts| && RunRequested(acts[r]) && acts[r].at == FirstRun(acts);
      assert acts[r] in acts;
      assert RunRequested(t[acts[r].seqNo]);
    }
  }

  lemma DurationsFound(t: map<int, Event>, acts: seq<Event>)
    requires Lists(t, acts) && acts != [] && forall e :: e in acts ==> e.at > 0
    ensures Durations(t, TimesOf(acts))
  {
    EndsFound(t, acts);
    RunFound(t, acts);
  }

  lemma TimesAgree(t: map<int, Event>, acts: seq<Event>, times: Times)
    requires Lists(t, acts) && acts != [] && forall e :: e in acts ==> e.at > 0
    ensures Durations(t, times) <==> times == TimesOf(acts)
  {
    DurationsFound(t, acts);
    if Durations(t, times) {
      OnlyOneDuration(t, times, TimesOf(acts));
    }
  }

  lemma OnlyOneDuration(t: map<int, Event>, a: Times, b: Times)
    requires Durations(t, a) && Durations(t, b)
    ensures a == b
  {
  }

  lemma StatusAgrees(t: map<int, Event>, acts: seq<Event>, status: string)
    requires Lists(t, acts) && Ascending(acts) && forall e :: e in acts ==> e.seqNo >= 0
    ensures LastStatus(t, status) <==> status == LastRun(acts).1
  {
    LastRunIsLast(acts);
    if LastRun(acts).0 >= 0 {
      var i :| 0 <= i < |acts| && RunCompleted(acts[i]) && acts[i].seqNo == LastRun(acts).0 && acts[i].payload.value.status == LastRun(acts).1;
      assert acts[i] in acts;
      var k := acts[i].seqNo;
      assert k in t && RunCompleted(t[k]);
      assert forall j :: j in t && RunCompleted(t[j]) ==> j <= k;
    }
  }

  lemma CountersAgree(t: map<int, Event>, acts: seq<Event>)
    requires Lists(t, acts)
    ensures AIOf(acts) == AI(SumRows(t, Prompts), SumRows(t, Responses), SumRows(t, Errors), SumRows(t, InputTokens), SumRows(t, OutputTokens))
    ensures RunsOf(acts).count == SumRows(t, RunsDone) && RunsOf(acts).succeeded == SumRows(t, RunsSucceeded)
    ensures DiffsOf(acts) == Diffs(SumRows(t, DiffsMade), SumRows(t, AIDiffs), SumRows(t, Added), SumRows(t, Removed), SumRows(t, AIAdded))
  {
    SumIsTotal(t, acts, Prompts);
    SumIsTotal(t, acts, Responses);
    SumIsTotal(t, acts, Errors);
    SumIsTotal(t, acts, InputTokens);
    SumIsTotal(t, acts, OutputTokens);
    SumIsTotal(t, acts, RunsDone);
    SumIsTotal(t, acts, RunsSucceeded);
    SumIsTotal(t, acts, DiffsMade);
    SumIsTotal(t, acts, AIDiffs);
    SumIsTotal(t, acts, Added);
    SumIsTotal(t, acts, Removed);
    SumIsTotal(t, acts, AIAdded);
  }

  /** Compute and the view agree on every column, for any timeline the log can
    * hold and any way the table resolves its copies; only with a counted event
    * that cannot be decoded has Compute no result, where the view has a row. */
  lemma ComputeAgreesWithView(timeline: seq<Event>, t: map<int, Event>, m: Metrics)
    requires Stored(timeline) && IsTable(t, timeline) && (exists k :: k in t)
    ensures Computed(timeline) == Some(m) <==> ViewRow(t, m) && AllDecodable(Deduped(timeline))
  {
    var acts := Activity(Deduped(timeline));
    ComputeCountsTheTable(timeline, t);
    var k :| k in t;
    assert t[k] in acts;
    forall e | e in acts ensures e.at > 0 && e.seqNo >= 1 {
      assert t[e.seqNo] in timeline;
    }
    CountersAgree(t, acts);
    TimesAgree(t, acts, m.times);
    StatusAgrees(t, acts, m.runs.lastStatus);
  }

  /** With no activity at all the view has no row and every metric is zero. */
  lemma NoActivity(timeline: seq<Event>)
    requires Consistent(timeline) && IsTable(map[], timeline)
    ensures Computed(timeline) == Some(Metrics(AI(0, 0, 0, 0, 0), Runs(0, 0, ""), Diffs(0, 0, 0, 0, 0), Times(0, None)))
  {
    DedupedIs(timeline);
    ComputeCountsTheTable(timeline, map[]);
    var acts := Activity(Deduped(timeline));
    NoneIn(acts);
    forall e | e in Deduped(timeline) ensures !Undecodable(e) {
      assert !IsActivity(e);
    }
  }

  /** The zero time is not a time for Compute: at 0 the two forms differ. */
  lemma ZeroTimeDisagrees()
    ensures
      var timeline := [Event(1, SessionStarted, 0, None), Event(2, SessionSubmitted, 7, None)];
      var t := map[1 := timeline[0], 2 := timeline[1]];
      IsTable(t, timeline) && forall m :: Computed(timeline) == Some(m) ==> !ViewRow(t, m)
  {
    var timeline := [Event(1, SessionStarted, 0, None), Event(2, SessionSubmitted, 7, None)];
    var t := map[1 := timeline[0], 2 := timeline[1]];
    assert Sorted(timeline, Earlier);
    SortSorted(timeline, Earlier);
    assert timeline[..1] == [timeline[0]] && timeline[..1][..0] == [];
    assert Unrepeated(timeline) == timeline;
    assert Activity(timeline) == timeline;
    assert First(timeline) == 7 && Last(timeline) == 7;
    forall m | Computed(timeline) == Some(m) ensures !ViewRow(t, m) {
      assert m.times.active == 0;
      assert t[1].at == 0 && t[2].at == 7;
    }
  }
}
