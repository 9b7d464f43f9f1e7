/** The browser's watchLive loop against the live endpoint, over any number of
  * connections, each of which may break anywhere, also inside an event.
  */
module LiveWatch {
  import opened LiveRing
  import opened LiveSession
  import P = LiveProtocol
  import S = Sse

  /** What a connection put on the wire: `items`, of which `cut` characters
    * arrived. `world` and `actions` are the run of the server's session. */
  datatype Connection = Connection(world: P.World, actions: seq<P.Action>, items: seq<S.Item>, cut: nat)

  datatype Watch = Watch(lastEventId: int, delivered: seq<Event>)

  function Payload(m: S.Event): seq<string> { if m.name == "event" then [m.data] else [] }

  /** The JSON bodies of the live events among the parsed messages. */
  function Payloads(messages: seq<S.Event>): seq<string> {
    if messages == [] then []
    else Payloads(messages[..|messages| - 1]) + Payload(messages[|messages| - 1])
  }

  function Encoded(enc: Event -> string, es: seq<Event>): seq<string> {
    if es == [] then [] else Encoded(enc, es[..|es| - 1]) + [enc(es[|es| - 1])]
  }

  function Handle(dec: string -> Event, w: Watch, m: S.Event): Watch {
    if m.name != "event" || dec(m.data).seqNo <= w.lastEventId then w
    else Watch(dec(m.data).seqNo, w.delivered + [dec(m.data)])
  }

  function HandleAll(dec: string -> Event, w: Watch, messages: seq<S.Event>): Watch {
    if messages == [] then w else Handle(dec, HandleAll(dec, w, messages[..|messages| - 1]), messages[|messages| - 1])
  }

  function Received(text: string, cut: nat): string { if cut <= |text| then text[..cut] else text }

  function Messages(c: Connection): seq<S.Event> { S.Parse(Received(S.RenderAll(c.items), c.cut)) }

  /** The state after a series of connections. */
  function WatchAll(dec: string -> Event, w: Watch, cs: seq<Connection>): Watch {
    if cs == [] then w else HandleAll(dec, WatchAll(dec, w, cs[..|cs| - 1]), Messages(cs[|cs| - 1]))
  }

  /** The object behind watchLive's loop. */
  class Watcher {
    const dec: string -> Event
    var lastEventId: int
    var delivered: seq<Event>
    var attempt: nat

    function View(): Watch reads this { Watch(lastEventId, delivered) }

    constructor (dec: string -> Event, lastEventId: int)
      ensures View() == Watch(lastEventId, []) && this.dec == dec && attempt == 0
    {
      this.dec := dec;
      this.lastEventId, delivered, attempt := lastEventId, [], 0;
    }

    /** The body of one connection: skip what was seen, deliver the rest. */
    method Consume(messages: seq<S.Event>)
      modifies this
      ensures View() == HandleAll(dec, old(View()), messages)
      ensures attempt == old(attempt) + 1
        || (attempt == 1 && exists i :: 0 <= i < |messages| && messages[i].name == "caught_up")
    {
      var i := 0;
      assert messages[..0] == [];
      while i < |messages|
        invariant 0 <= i <= |messages| && View() == HandleAll(dec, old(View()), messages[..i])
        invariant attempt == old(attempt) || (attempt == 0 && exists j :: 0 <= j < i && messages[j].name == "caught_up")
      {
        assert messages[..i + 1][..i] == messages[..i];
        var message := messages[i];
        if message.name == "event" {
          var event := dec(message.data);
          if event.seqNo > lastEventId {
            lastEventId := event.seqNo;
            delivered := delivered + [event];
          }
        } else if message.name == "caught_up" {
          attempt := 0;
        }
        i := i + 1;
      }
      assert messages[..|messages|] == messages;
      attempt := attempt + 1;
    }
  }

  // ---- The link between the session and the wire ----

  /** The server session behind a connection resumed after `after`, and what it
    * wrote carries exactly the events it sent, besides comments and caught_up. */
  ghost predicate Serves(log: seq<Event>, capacity: nat, enc: Event -> string, after: int, c: Connection) {
    && P.Fresh(log, capacity, after, c.world) && P.TimelyRun(log, capacity, c.world, c.actions)
    && (forall i :: 0 <= i < |c.items| ==> S.Faithful(c.items[i]))
    && Payloads(S.EventsOf(c.items)) == Encoded(enc, P.Run(log, capacity, c.world, c.actions).viewer.sent)
  }

  /** Every connection resumes from the last event seen so far. */
  ghost predicate Reconnects(log: seq<Event>, capacity: nat, enc: Event -> string, dec: string -> Event, w: Watch, cs: seq<Connection>) {
    cs == [] ||
    (&& Reconnects(log, capacity, enc, dec, w, cs[..|cs| - 1])
     && Serves(log, capacity, enc, WatchAll(dec, w, cs[..|cs| - 1]).lastEventId, cs[|cs| - 1]))
  }

  // ---- One connection ----

  lemma {:induction false} PayloadsPrefix(a: seq<S.Event>, b: seq<S.Event>)
    requires a <= b
    ensures Payloads(a) <= Payloads(b)
    decreases |b|
  {
    if |a| < |b| {
      PayloadsPrefix(a, b[..|b| - 1]);
    } else {
      assert a == b;
    }
  }

  lemma {:induction false} EncodedIs(enc: Event -> string, es: seq<Event>)
    ensures |Encoded(enc, es)| == |es| && forall i :: 0 <= i < |es| ==> Encoded(enc, es)[i] == enc(es[i])
  {
    if es != [] { EncodedIs(enc, es[..|es| - 1]); }
  }

  /** Messages that carry ascending events above the cursor are all delivered. */
  lemma {:induction false} AllDelivered(dec: string -> Event, w: Watch, messages: seq<S.Event>, es: seq<Event>)
    requires |Payloads(messages)| == |es| && forall i :: 0 <= i < |es| ==> dec(Payloads(messages)[i]) == es[i]
    requires Ascending(es) && (es != [] ==> es[0].seqNo > w.lastEventId)
    ensures HandleAll(dec, w, messages) == Watch(if es == [] then w.lastEventId else es[|es| - 1].seqNo, w.delivered + es)
    decreases |messages|
  {
    if messages == [] {
      assert w.delivered + es == w.delivered;
    } else {
      var init := messages[..|messages| - 1];
      if messages[|messages| - 1].name == "event" {
        var n := |es| - 1;
        assert Payloads(messages)[..n] == Payloads(init);
        AllDelivered(dec, w, init, es[..n]);
        assert w.delivered + es == (w.delivered + es[..n]) + [es[n]];
      } else {
        AllDelivered(dec, w, init, es);
      }
    }
  }

  lemma {:induction false} AboveAfter(log: seq<Event>, n: int, es: seq<Event>)
    requires Ascending(log) && es <= Above(log, n) && es != []
    ensures Above(log, n) == es + Above(log, es[|es| - 1].seqNo) && es[0].seqNo > n && Ascending(es)
  {
    var k := AboveIsTheTail(log, n);
    var m := AboveIsTheTail(log, es[|es| - 1].seqNo);
    assert log[k..][..|es|] == es;
    assert es[|es| - 1] == log[k + |es| - 1];
    assert m > 0 ==> log[m - 1].seqNo <= es[|es| - 1].seqNo;
    assert m < |log| ==> log[m].seqNo > es[|es| - 1].seqNo;
    assert es[0] == log[k];
  }

  lemma CutText(text: string, cut: nat)
    ensures S.Parse(Received(text, cut)) <= S.Parse(text)
  {
    var arrived := Received(text, cut);
    assert arrived + text[|arrived|..] == text;
    S.CutIsPrefix(arrived, text[|arrived|..]);
  }

  /** However much of it arrived, the messages carry a prefix of what was sent. */
  lemma ArrivedPrefix(c: Connection)
    requires forall i :: 0 <= i < |c.items| ==> S.Faithful(c.items[i])
    ensures Payloads(Messages(c)) <= Payloads(S.EventsOf(c.items))
  {
    S.WrittenLines(c.items);
    CutText(S.RenderAll(c.items), c.cut);
    PayloadsPrefix(Messages(c), S.EventsOf(c.items));
  }

  lemma Decoded(enc: Event -> string, dec: string -> Event, payloads: seq<string>, sent: seq<Event>)
    requires payloads <= Encoded(enc, sent) && forall e :: dec(enc(e)) == e
    ensures |payloads| <= |sent| && forall i :: 0 <= i < |payloads| ==> dec(payloads[i]) == sent[i]
  {
    EncodedIs(enc, sent);
  }

  lemma Delivers(dec: string -> Event, w: Watch, messages: seq<S.Event>, log: seq<Event>, es: seq<Event>)
    requires |Payloads(messages)| == |es| && forall i :: 0 <= i < |es| ==> dec(Payloads(messages)[i]) == es[i]
    requires Ascending(log) && es <= Above(log, w.lastEventId)
    ensures var w' := HandleAll(dec, w, messages);
      w'.delivered + Above(log, w'.lastEventId) == w.delivered + Above(log, w.lastEventId)
  {
    if es == [] {
      AllDelivered(dec, w, messages, es);
    } else {
      AboveAfter(log, w.lastEventId, es);
      AllDelivered(dec, w, messages, es);
      assert w.delivered + (es + Above(log, es[|es| - 1].seqNo)) == (w.delivered + es) + Above(log, es[|es| - 1].seqNo);
    }
  }

  lemma OneConnection(log: seq<Event>, capacity: nat, enc: Event -> string, dec: string -> Event, w: Watch, c: Connection)
    requires Serves(log, capacity, enc, w.lastEventId, c) && (forall e :: dec(enc(e)) == e) && Ascending(log)
    ensures var w' := HandleAll(dec, w, Messages(c));
      w'.delivered + Above(log, w'.lastEventId) == w.delivered + Above(log, w.lastEventId)
  {
    P.SentIsContiguousPrefix(log, capacity, w.lastEventId, c.world, c.actions);
    ArrivedPrefix(c);
    var sent := P.Run(log, capacity, c.world, c.actions).viewer.sent;
    Decoded(enc, dec, Payloads(Messages(c)), sent);
    Delivers(dec, w, Messages(c), log, sent[..|Payloads(Messages(c))|]);
  }

  // ---- All connections ----

  /** Whatever breaks and however often, the handler gets the log's events above
    * the starting id, each exactly once, in order, without a hole. */
  lemma {:induction false} ExactlyOnceAcrossReconnects(log: seq<Event>, capacity: nat, enc: Event -> string, dec: string -> Event, start: int, cs: seq<Connection>)
    requires Ascending(log) && (forall e :: dec(enc(e)) == e) && Reconnects(log, capacity, enc, dec, Watch(start, []), cs)
    ensures var w := WatchAll(dec, Watch(start, []), cs);
      w.delivered + Above(log, w.lastEventId) == Above(log, start) && Ascending(w.delivered)
  {
    var w0 := Watch(start, []);
    if cs != [] {
      var before := cs[..|cs| - 1];
      ExactlyOnceAcrossReconnects(log, capacity, enc, dec, start, before);
      OneConnection(log, capacity, enc, dec, WatchAll(dec, w0, before), cs[|cs| - 1]);
    } else {
      assert [] + Above(log, start) == Above(log, start);
    }
    var w := WatchAll(dec, w0, cs);
    PrefixAscends(log, start, w.delivered, Above(log, w.lastEventId));
  }

  lemma PrefixAscends(log: seq<Event>, start: int, front: seq<Event>, back: seq<Event>)
    requires Ascending(log) && front + back == Above(log, start)
    ensures Ascending(front)
  {
    var k := AboveIsTheTail(log, start);
    assert forall i :: 0 <= i < |front| ==> front[i] == (front + back)[i] && (front + back)[i] == log[k + i];
  }
}
