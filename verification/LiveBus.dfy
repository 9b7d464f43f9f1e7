/** MemoryBus: per-stream rings and lossy fan-out to subscribers. Every method
  * runs under the bus mutex, so each is one atomic step.
  */
module LiveBus {
  import opened Sorting
  import opened LiveRing

  /** How many undelivered events a subscriber may lag. */
  const SUBSCRIPTION_BUFFER := 256

  function At(m: map<Stream, seq<Event>>, s: Stream): seq<Event> { if s in m then m[s] else [] }

  /** A non-blocking send on a buffered channel. */
  function Delivered(ch: seq<Event>, event: Event): seq<Event> {
    if |ch| < SUBSCRIPTION_BUFFER then ch + [event] else ch
  }

  class Subscription {
    const stream: Stream
    var ch: seq<Event>
    var closed: bool

    constructor (stream: Stream)
      ensures this.stream == stream && ch == [] && !closed
    {
      this.stream := stream;
      ch, closed := [], false;
    }
  }

  class MemoryBus {
    const capacity: nat
    var rings: map<Stream, seq<Event>>
    var subs: map<Stream, set<Subscription>>
    /** Every event ever offered to a stream, in order. */
    ghost var offered: map<Stream, seq<Event>>

    ghost predicate Valid()
      reads this
    {
      && (forall s :: At(rings, s) == RingOf(At(offered, s), capacity))
      && (forall s, sub :: s in subs && sub in subs[s] ==> sub.stream == s)
    }

    /** No closed subscription is sent to. */
    ghost predicate OpenOnly()
      reads this, set s, sub | s in subs && sub in subs[s] :: sub
    {
      forall s, sub :: s in subs && sub in subs[s] ==> !sub.closed
    }

    function Subs(stream: Stream): set<Subscription> reads this { if stream in subs then subs[stream] else {} }

    constructor (capacity: nat)
      ensures Valid() && OpenOnly() && this.capacity == capacity && rings == map[] && subs == map[] && offered == map[]
    {
      this.capacity := capacity;
      rings, subs, offered := map[], map[], map[];
    }

    /** Delivers to every subscriber with room; a slow one misses the event. */
    static method FanOut(targets: set<Subscription>, event: Event)
      modifies targets
      ensures forall sub :: sub in targets ==> sub.closed == old(sub.closed) && sub.ch == Delivered(old(sub.ch), event)
    {
      var todo := targets;
      while todo != {}
        invariant todo <= targets
        invariant forall sub :: sub in targets ==> sub.closed == old(sub.closed)
        invariant forall sub :: sub in targets ==> sub.ch == if sub in todo then old(sub.ch) else Delivered(old(sub.ch), event)
        decreases todo
      {
        var sub :| sub in todo;
        if |sub.ch| < SUBSCRIPTION_BUFFER {
          sub.ch := sub.ch + [event];
        }
        todo := todo - {sub};
      }
    }

    static method Buffered(ring: seq<Event>, n: int) returns (found: bool)
      ensures found <==> Holds(ring, n)
    {
      var i := 0;
      while i < |ring|
        invariant 0 <= i <= |ring|
        invariant forall j :: 0 <= j < i ==> ring[j].seqNo != n
      {
        if ring[i].seqNo == n {
          return true;
        }
        i := i + 1;
      }
      return false;
    }

    method Publish(stream: Stream, event: Event) returns (added: bool)
      requires Valid() && OpenOnly()
      modifies this, Subs(stream)
      ensures Valid() && OpenOnly() && subs == old(subs)
      ensures offered == old(offered)[stream := At(old(offered), stream) + [event]]
      ensures added <==> !Holds(At(old(rings), stream), event.seqNo)
      ensures rings == if added then old(rings)[stream := Added(At(old(rings), stream), capacity, event)] else old(rings)
      ensures forall sub :: sub in old(Subs(stream)) ==> sub.ch == if added then Delivered(old(sub.ch), event) else old(sub.ch)
    {
      var ring := At(rings, stream);
      ghost var all := At(offered, stream);
      assert (all + [event])[..|all|] == all;
      var found := Buffered(ring, event.seqNo);
      if found {
        offered := offered[stream := all + [event]];
        return false;
      }
      ring := Sort(ring + [event], BY_SEQUENCE);
      if |ring| > capacity {
        ring := ring[|ring| - capacity..];
      }
      assert ring == Published(At(rings, stream), capacity, event) == RingOf(all + [event], capacity);
      rings := rings[stream := ring];
      offered := offered[stream := all + [event]];
      assert forall s :: At(rings, s) == if s == stream then ring else At(old(rings), s);
      assert forall s :: At(offered, s) == if s == stream then all + [event] else At(old(offered), s);
      FanOut(Subs(stream), event);
      return true;
    }

    method Recent(stream: Stream, after: int) returns (events: seq<Event>, oldest: int)
      requires Valid()
      ensures events == Above(At(rings, stream), after) && oldest == Oldest(At(rings, stream))
    {
      var ring := At(rings, stream);
      oldest := if |ring| > 0 then ring[0].seqNo else 0;
      events := [];
      var i := 0;
      while i < |ring|
        invariant 0 <= i <= |ring| && events == Above(ring[..i], after)
      {
        assert ring[..i + 1][..i] == ring[..i];
        if ring[i].seqNo > after {
          events := events + [ring[i]];
        }
        i := i + 1;
      }
      assert ring[..|ring|] == ring;
    }

    method Subscribe(stream: Stream) returns (sub: Subscription)
      requires Valid() && OpenOnly()
      modifies this
      ensures Valid() && OpenOnly() && fresh(sub) && sub.stream == stream && sub.ch == []
      ensures rings == old(rings) && offered == old(offered)
      ensures subs == old(subs)[stream := old(Subs(stream)) + {sub}]
    {
      sub := new Subscription(stream);
      subs := subs[stream := Subs(stream) + {sub}];
    }

    method Close(sub: Subscription)
      requires Valid() && OpenOnly()
      modifies this, sub
      ensures Valid() && OpenOnly() && sub.closed && rings == old(rings) && offered == old(offered)
      ensures forall s: Stream {:trigger Subs(s)} :: Subs(s) == old(Subs(s)) - {sub}
    {
      if !sub.closed {
        if sub.stream in subs {
          subs := subs[sub.stream := subs[sub.stream] - {sub}];
        }
        sub.closed := true;
      }
    }
  }
}
