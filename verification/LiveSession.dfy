/** One viewer's session: what it writes to its stream, event by event. */
module LiveSession {
  import opened LiveRing

  /** `sent` is what the session has written; `lastSent` starts at the client's
    * Last-Event-ID. */
  datatype Viewer = Viewer(stream: Stream, lastSent: int, sent: seq<Event>)

  predicate Foreign(s: Stream, e: Event) { e.company != s.company || e.interview != s.interview }

  function SendOne(v: Viewer, e: Event): Viewer {
    if e.seqNo <= v.lastSent || Foreign(v.stream, e) then v else v.(lastSent := e.seqNo, sent := v.sent + [e])
  }

  function SendAll(v: Viewer, es: seq<Event>): Viewer {
    if es == [] then v else SendOne(SendAll(v, es[..|es| - 1]), es[|es| - 1])
  }

  /** The part of the history below the oldest buffered event (0: none buffered). */
  function Below(past: seq<Event>, oldest: int): seq<Event> {
    if past == [] || (oldest != 0 && past[0].seqNo >= oldest) then [] else [past[0]] + Below(past[1..], oldest)
  }

  predicate NeedsHistory(oldest: int, lastSent: int) { oldest == 0 || oldest > lastSent + 1 }

  predicate Gap(v: Viewer, e: Event) { e.seqNo > v.lastSent + 1 }

  /** The class behind an open GET /interviews/{id}/live. A write can fail, which
    * ends the stream; `budget` is how many writes still succeed. */
  class Session {
    const stream: Stream
    var lastSent: int
    var sent: seq<Event>
    var budget: nat

    function View(): Viewer reads this { Viewer(stream, lastSent, sent) }

    constructor (stream: Stream, after: int, budget: nat)
      ensures View() == Viewer(stream, after, []) && this.budget == budget
    {
      this.stream := stream;
      lastSent, sent, this.budget := after, [], budget;
    }

    method Send(event: Event) returns (ok: bool)
      modifies this
      ensures ok ==> View() == SendOne(old(View()), event)
      ensures !ok ==> View() == old(View()) && SendOne(old(View()), event) != old(View()) && budget == 0
    {
      if event.seqNo <= lastSent || event.company != stream.company || event.interview != stream.interview {
        return true;
      }
      if budget == 0 {
        return false;
      }
      budget := budget - 1;
      sent := sent + [event];
      lastSent := event.seqNo;
      return true;
    }

    /** Sends a list in order, or a part of it when a write fails. */
    method SendEach(events: seq<Event>) returns (ok: bool)
      modifies this
      ensures ok ==> View() == SendAll(old(View()), events)
      ensures SentPart(old(View()), View(), events)
    {
      var i := 0;
      assert events[..0] == [];
      while i < |events|
        invariant 0 <= i <= |events| && View() == SendAll(old(View()), events[..i])
      {
        assert events[..i + 1][..i] == events[..i];
        var sentOk := Send(events[i]);
        if !sentOk {
          return false;
        }
        i := i + 1;
      }
      assert events[..|events|] == events;
      return true;
    }

    /** catchUp: history up to the ring's oldest event, then the ring's events, or
      * a part of these from the start when a write fails. `past` is empty when there is no history or reading it failed. */
    method CatchUp(recent: seq<Event>, oldest: int, past: seq<Event>, deep: bool) returns (ok: bool)
      modifies this
      ensures ok ==> View() == SendAll(old(View()), CatchUpList(old(View()), recent, oldest, past, deep))
      ensures SentPart(old(View()), View(), CatchUpList(old(View()), recent, oldest, past, deep))
    {
      ghost var start := View();
      ghost var first: seq<Event> := [];
      if deep && (oldest == 0 || oldest > lastSent + 1) {
        var i := 0;
        assert past[..0] == [];
        while i < |past| && !(oldest != 0 && past[i].seqNo >= oldest)
          invariant 0 <= i <= |past| && View() == SendAll(start, past[..i])
          invariant forall j :: 0 <= j < i ==> oldest == 0 || past[j].seqNo < oldest
        {
          assert past[..i + 1][..i] == past[..i];
          var sentOk := Send(past[i]);
          if !sentOk {
            BelowStarts(past, oldest, i);
            assert past[..i] == Below(past, oldest)[..i];
            PartOfFirst(start, View(), Below(past, oldest), recent);
            return false;
          }
          i := i + 1;
        }
        BelowIsPrefix(past, oldest, i);
        first := past[..i];
      }
      ok := SendEach(recent);
      SendAllConcat(start, first, recent);
      PartOfSecond(start, View(), first, recent);
    }

    /** One received event: repair a gap from the ring, then send it; a failing
      * write leaves a part of that, from the start. */
    method Handle(event: Event, recent: seq<Event>, oldest: int) returns (ok: bool)
      modifies this
      ensures ok ==> View() == SendAll(old(View()), (if Gap(old(View()), event) then recent else []) + [event])
      ensures SentPart(old(View()), View(), (if Gap(old(View()), event) then recent else []) + [event])
    {
      ghost var start := View();
      ghost var repair := if Gap(start, event) then recent else [];
      if event.seqNo > lastSent + 1 {
        var repaired := CatchUp(recent, oldest, [], false);
        if !repaired {
          PartOfFirst(start, View(), repair, [event]);
          return false;
        }
      }
      assert View() == SendAll(start, repair);
      assert (repair + [event])[..|repair|] == repair && (repair + [event])[..|repair| + 1] == repair + [event];
      ok := Send(event);
    }
  }

  /** The session has worked through a list from its start, up to some event. */
  ghost predicate SentPart(v: Viewer, w: Viewer, list: seq<Event>) {
    exists n :: 0 <= n <= |list| && w == SendAll(v, list[..n])
  }

  lemma PartOfFirst(v: Viewer, w: Viewer, a: seq<Event>, b: seq<Event>)
    requires SentPart(v, w, a)
    ensures SentPart(v, w, a + b)
  {
    var n :| 0 <= n <= |a| && w == SendAll(v, a[..n]);
    assert (a + b)[..n] == a[..n];
  }

  lemma PartOfSecond(v: Viewer, w: Viewer, a: seq<Event>, b: seq<Event>)
    requires SentPart(SendAll(v, a), w, b)
    ensures SentPart(v, w, a + b)
  {
    var n :| 0 <= n <= |b| && w == SendAll(SendAll(v, a), b[..n]);
    SendAllConcat(v, a, b[..n]);
    assert (a + b)[..|a| + n] == a + b[..n];
  }

  lemma {:induction false} BelowStarts(past: seq<Event>, oldest: int, i: nat)
    requires i <= |past| && forall j :: 0 <= j < i ==> oldest == 0 || past[j].seqNo < oldest
    ensures past[..i] <= Below(past, oldest)
  {
    if i > 0 {
      BelowStarts(past[1..], oldest, i - 1);
      assert past[..i] == [past[0]] + past[1..][..i - 1];
    }
  }

  /** The list a catch-up works through. */
  function CatchUpList(v: Viewer, recent: seq<Event>, oldest: int, past: seq<Event>, deep: bool): seq<Event> {
    if deep && NeedsHistory(oldest, v.lastSent) then Below(past, oldest) + recent else recent
  }

  lemma {:induction false} BelowIsPrefix(past: seq<Event>, oldest: int, i: nat)
    requires i <= |past| && forall j :: 0 <= j < i ==> oldest == 0 || past[j].seqNo < oldest
    requires i == |past| || (oldest != 0 && past[i].seqNo >= oldest)
    ensures Below(past, oldest) == past[..i]
  {
    if i > 0 {
      BelowIsPrefix(past[1..], oldest, i - 1);
      assert past[..i] == [past[0]] + past[1..][..i - 1];
    }
  }

  lemma {:induction false} SendAllConcat(v: Viewer, a: seq<Event>, b: seq<Event>)
    ensures SendAll(v, a + b) == SendAll(SendAll(v, a), b)
  {
    if b == [] {
      assert a + b == a;
    } else {
      SendAllConcat(v, a, b[..|b| - 1]);
      assert (a + b)[..|a + b| - 1] == a + b[..|b| - 1];
    }
  }

  // ---- Which events of a list get through ----

  predicate Record(v: Viewer, es: seq<Event>, i: nat)
    requires i < |es|
  {
    es[i].seqNo > v.lastSent && forall j :: 0 <= j < i ==> es[j].seqNo < es[i].seqNo
  }

  lemma {:induction false} LastSentIsHighest(v: Viewer, es: seq<Event>)
    requires forall e :: e in es ==> !Foreign(v.stream, e)
    ensures SendAll(v, es).stream == v.stream && SendAll(v, es).lastSent >= v.lastSent
    ensures forall j :: 0 <= j < |es| ==> es[j].seqNo <= SendAll(v, es).lastSent
    ensures SendAll(v, es).lastSent == v.lastSent || exists j :: 0 <= j < |es| && es[j].seqNo == SendAll(v, es).lastSent
  {
    if es != [] {
      var init := es[..|es| - 1];
      LastSentIsHighest(v, init);
      var w := SendAll(v, init);
      if es[|es| - 1].seqNo > w.lastSent {
        assert es[|es| - 1].seqNo == SendAll(v, es).lastSent;
      } else if w.lastSent != v.lastSent {
        var j :| 0 <= j < |init| && init[j].seqNo == w.lastSent;
        assert es[j].seqNo == SendAll(v, es).lastSent;
      }
    }
  }

  /** An event of the stream is written at its turn exactly when its number is
    * above the start and above every number handled before it. So an event
    * that comes after a higher one is never seen, and none is seen twice. */
  lemma SentIffRecord(v: Viewer, es: seq<Event>, i: nat)
    requires i < |es| && forall e :: e in es ==> !Foreign(v.stream, e)
    ensures SendAll(v, es[..i + 1]).sent == SendAll(v, es[..i]).sent + if Record(v, es, i) then [es[i]] else []
  {
    var before, e := es[..i], es[i];
    assert es[..i + 1] == before + [e] && (before + [e])[..i] == before;
    assert e in es && forall x :: x in before ==> x in es;
    LastSentIsHighest(v, before);
    assert forall j :: 0 <= j < i ==> before[j] == es[j];
    var w := SendAll(v, before);
    assert SendAll(v, before + [e]) == SendOne(w, e);
    if w.lastSent != v.lastSent {
      var j :| 0 <= j < |before| && before[j].seqNo == w.lastSent;
      assert es[j].seqNo == w.lastSent;
    }
  }
}
