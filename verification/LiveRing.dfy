/** The capped ring of a live stream: what publishing, in any order and with any
  * redelivery, leaves in it.
  */
module LiveRing {
  import opened Sorting

  datatype Stream = Stream(company: string, interview: string)

  /** A session event; `body` stands for the fields the stream only carries. */
  datatype Event = Event(company: string, interview: string, seqNo: int, body: string)

  const BY_SEQUENCE := (a: Event, b: Event) => a.seqNo < b.seqNo

  predicate Ascending(es: seq<Event>) { forall i, j :: 0 <= i < j < |es| ==> es[i].seqNo < es[j].seqNo }

  function Numbers(es: seq<Event>): set<int> { set i | 0 <= i < |es| :: es[i].seqNo }

  predicate Holds(es: seq<Event>, n: int) { exists i :: 0 <= i < |es| && es[i].seqNo == n }

  /** Keeps the newest `capacity` entries. */
  function Trim(ring: seq<Event>, capacity: nat): seq<Event> {
    if |ring| > capacity then ring[|ring| - capacity..] else ring
  }

  /** The ring after a publish that was not a redelivery of a buffered event. */
  function Added(ring: seq<Event>, capacity: nat, e: Event): seq<Event> {
    Trim(Sort(ring + [e], BY_SEQUENCE), capacity)
  }

  function Published(ring: seq<Event>, capacity: nat, e: Event): seq<Event> {
    if Holds(ring, e.seqNo) then ring else Added(ring, capacity, e)
  }

  /** What Recent returns: the part above the cursor, and the lowest number held. */
  function Above(ring: seq<Event>, after: int): seq<Event> {
    if ring == [] then []
    else Above(ring[..|ring| - 1], after) + if ring[|ring| - 1].seqNo > after then [ring[|ring| - 1]] else []
  }

  function Oldest(ring: seq<Event>): int { if ring == [] then 0 else ring[0].seqNo }

  /** The ring after publishing a whole history, starting empty. */
  function RingOf(history: seq<Event>, capacity: nat): seq<Event> {
    if history == [] then []
    else Published(RingOf(history[..|history| - 1], capacity), capacity, history[|history| - 1])
  }

  // ---- One publish ----

  lemma BySequenceIsStrictWeak()
    ensures StrictWeak(BY_SEQUENCE)
  {}

  lemma SortAppend(ring: seq<Event>, e: Event)
    requires Ascending(ring)
    ensures Sorted(ring, BY_SEQUENCE) && Sort(ring + [e], BY_SEQUENCE) == Insert(ring, e, BY_SEQUENCE)
  {
    SortSorted(ring, BY_SEQUENCE);
    assert (ring + [e])[..|ring|] == ring;
  }

  lemma InsertShape(ring: seq<Event>, e: Event) returns (k: nat)
    requires Ascending(ring)
    ensures k <= |ring| && Insert(ring, e, BY_SEQUENCE) == ring[..k] + [e] + ring[k..]
    ensures (forall i :: 0 <= i < k ==> ring[i].seqNo <= e.seqNo) && (forall i :: k <= i < |ring| ==> ring[i].seqNo > e.seqNo)
  {
    BySequenceIsStrictWeak();
    k := InsertCuts(ring, e, BY_SEQUENCE);
  }

  /** The new event takes its place among the numbers; the lowest falls out. */
  lemma AddedShape(ring: seq<Event>, capacity: nat, e: Event) returns (k: nat)
    requires Ascending(ring) && !Holds(ring, e.seqNo)
    ensures k <= |ring| && Sort(ring + [e], BY_SEQUENCE) == ring[..k] + [e] + ring[k..]
    ensures Ascending(ring[..k] + [e] + ring[k..])
  {
    SortAppend(ring, e);
    k := InsertShape(ring, e);
    assert forall i :: 0 <= i < k ==> ring[i].seqNo != e.seqNo;
  }

  lemma NumbersCount(ring: seq<Event>)
    requires Ascending(ring)
    ensures |Numbers(ring)| == |ring|
  {
    if ring != [] {
      var init := ring[..|ring| - 1];
      NumbersCount(init);
      assert Numbers(ring) == Numbers(init) + {ring[|ring| - 1].seqNo};
    }
  }

  /** The ring is the top of everything published: as full as it can be, and
    * whatever is missing is below everything it holds. */
  ghost predicate IsTop(ring: seq<Event>, capacity: nat, all: set<int>) {
    && Ascending(ring) && Numbers(ring) <= all
    && |ring| <= capacity && (|ring| < capacity ==> Numbers(ring) == all)
    && (forall i, n :: 0 <= i < |ring| && n in all && n !in Numbers(ring) ==> n < ring[i].seqNo)
  }

  lemma NumbersInserted(ring: seq<Event>, k: nat, e: Event)
    requires k <= |ring|
    ensures Numbers(ring[..k] + [e] + ring[k..]) == Numbers(ring) + {e.seqNo}
  {
    var whole := ring[..k] + [e] + ring[k..];
    forall n | n in Numbers(ring) + {e.seqNo} ensures n in Numbers(whole) {
      if n == e.seqNo {
        assert whole[k].seqNo == n;
      } else {
        var i :| 0 <= i < |ring| && ring[i].seqNo == n;
        assert whole[if i < k then i else i + 1].seqNo == n;
      }
    }
  }

  lemma NumbersTrimmed(whole: seq<Event>)
    requires whole != []
    ensures Numbers(whole) == Numbers(whole[1..]) + {whole[0].seqNo}
  {
    forall n | n in Numbers(whole) ensures n in Numbers(whole[1..]) + {whole[0].seqNo} {
      var i :| 0 <= i < |whole| && whole[i].seqNo == n;
      if i > 0 { assert whole[1..][i - 1].seqNo == n; }
    }
  }

  lemma PublishKeepsTop(ring: seq<Event>, capacity: nat, all: set<int>, e: Event)
    requires IsTop(ring, capacity, all)
    ensures IsTop(Published(ring, capacity, e), capacity, all + {e.seqNo})
  {
    if Holds(ring, e.seqNo) {
      assert e.seqNo in Numbers(ring);
    } else {
      var k := AddedShape(ring, capacity, e);
      NumbersInserted(ring, k, e);
      WholeKeepsTop(ring, capacity, all, e, ring[..k] + [e] + ring[k..]);
    }
  }

  lemma WholeKeepsTop(ring: seq<Event>, capacity: nat, all: set<int>, e: Event, whole: seq<Event>)
    requires IsTop(ring, capacity, all) && Ascending(whole) && |whole| == |ring| + 1 && Numbers(whole) == Numbers(ring) + {e.seqNo}
    ensures IsTop(Trim(whole, capacity), capacity, all + {e.seqNo})
  {
    if |whole| > capacity {
      var kept := whole[1..];
      assert Trim(whole, capacity) == kept;
      NumbersTrimmed(whole);
      forall i, n | 0 <= i < |kept| && n in all + {e.seqNo} && n !in Numbers(kept) ensures n < kept[i].seqNo {
        BelowKept(ring, capacity, all, e, whole, i, n);
      }
    }
  }

  lemma BelowKept(ring: seq<Event>, capacity: nat, all: set<int>, e: Event, whole: seq<Event>, i: nat, n: int)
    requires IsTop(ring, capacity, all) && Ascending(whole) && |whole| == |ring| + 1 && Numbers(whole) == Numbers(ring) + {e.seqNo}
    requires i + 1 < |whole| && n in all + {e.seqNo} && n !in Numbers(whole[1..])
    ensures n < whole[i + 1].seqNo
  {
    NumbersTrimmed(whole);
    if n != whole[0].seqNo {
      assert n in all && n !in Numbers(ring);
      assert forall m :: m in Numbers(ring) ==> n < m;
      assert whole[0].seqNo in Numbers(whole) && whole[i + 1].seqNo in Numbers(whole);
    }
  }

  /** Publishing above everything buffered just appends and trims. */
  lemma PublishNewest(ring: seq<Event>, capacity: nat, e: Event)
    requires Ascending(ring + [e])
    ensures Published(ring, capacity, e) == Trim(ring + [e], capacity)
  {
    assert forall i :: 0 <= i < |ring| ==> (ring + [e])[i] == ring[i];
    assert (ring + [e])[|ring|] == e;
    SortSorted(ring + [e], BY_SEQUENCE);
  }

  /** Whatever ring a publish finds, it leaves an ascending one within capacity,
    * with nothing in it but what was there and the event. */
  lemma PublishedShape(ring: seq<Event>, capacity: nat, e: Event)
    requires Ascending(ring) && |ring| <= capacity
    ensures Ascending(Published(ring, capacity, e)) && |Published(ring, capacity, e)| <= capacity
    ensures forall x :: x in Published(ring, capacity, e) ==> x in ring || x == e
  {
    if !Holds(ring, e.seqNo) {
      var k := AddedShape(ring, capacity, e);
      var whole := ring[..k] + [e] + ring[k..];
      forall x | x in Trim(whole, capacity) ensures x in ring || x == e {
        WholeHas(ring, k, e, x);
      }
    }
  }

  // ---- Whole histories ----

  lemma {:induction false} RingIsTop(history: seq<Event>, capacity: nat)
    ensures IsTop(RingOf(history, capacity), capacity, Numbers(history))
  {
    if history != [] {
      var before := history[..|history| - 1];
      RingIsTop(before, capacity);
      PublishKeepsTop(RingOf(before, capacity), capacity, Numbers(before), history[|history| - 1]);
      assert Numbers(history) == Numbers(before) + {history[|history| - 1].seqNo};
    }
  }

  /** A number is buffered exactly when it was published and fewer than
    * `capacity` larger numbers were, whatever the order and the repetitions. */
  lemma RingHoldsTheLargest(history: seq<Event>, capacity: nat, n: int)
    ensures Ascending(RingOf(history, capacity))
    ensures n in Numbers(RingOf(history, capacity))
      <==> n in Numbers(history) && |set m | m in Numbers(history) && m > n| < capacity
  {
    RingIsTop(history, capacity);
    var ring := RingOf(history, capacity);
    NumbersCount(ring);
    var larger := set m | m in Numbers(history) && m > n;
    if n in Numbers(ring) {
      assert larger <= Numbers(ring) - {n};
      SubsetSize(larger, Numbers(ring) - {n});
    } else if n in Numbers(history) {
      assert Numbers(ring) <= larger;
      SubsetSize(Numbers(ring), larger);
    }
  }

  lemma SubsetSize(a: set<int>, b: set<int>)
    requires a <= b
    ensures |a| <= |b|
  {
    assert b == a + (b - a);
  }

  ghost predicate FirstCopyAt(history: seq<Event>, j: nat, e: Event) {
    j < |history| && history[j] == e && forall l :: 0 <= l < j ==> history[l].seqNo != e.seqNo
  }

  ghost predicate FirstCopy(history: seq<Event>, e: Event) { exists j: nat :: FirstCopyAt(history, j, e) }

  lemma FirstCopyGrows(before: seq<Event>, x: Event, e: Event)
    ensures FirstCopy(before, e) ==> FirstCopy(before + [x], e)
    ensures x.seqNo !in Numbers(before) ==> FirstCopy(before + [x], x)
  {
    var all := before + [x];
    if FirstCopy(before, e) {
      var j: nat :| FirstCopyAt(before, j, e);
      assert FirstCopyAt(all, j, e);
    }
    if x.seqNo !in Numbers(before) {
      assert forall l :: 0 <= l < |before| ==> all[l].seqNo in Numbers(before);
      assert FirstCopyAt(all, |before|, x);
    }
  }

  lemma WholeHas(ring: seq<Event>, k: nat, e: Event, x: Event)
    requires k <= |ring|
    ensures x in ring[..k] + [e] + ring[k..] <==> x in ring || x == e
  {
    assert ring == ring[..k] + ring[k..];
  }

  /** Publishing a number again changes nothing, even one that was trimmed: below
    * a full ring it falls out at once. */
  lemma RepublishChangesNothing(ring: seq<Event>, capacity: nat, all: set<int>, e: Event)
    requires IsTop(ring, capacity, all)
    ensures e.seqNo in all ==> Published(ring, capacity, e) == ring
  {
    if e.seqNo in all && !Holds(ring, e.seqNo) {
      var k := AddedShape(ring, capacity, e);
      assert e.seqNo !in Numbers(ring) && |ring| == capacity;
      CutAfterSmaller(ring, k, e);
      assert ring[..0] + [e] + ring[0..] == [e] + ring && ([e] + ring)[1..] == ring;
    }
  }

  lemma CutAfterSmaller(ring: seq<Event>, k: nat, e: Event)
    requires k <= |ring| && Ascending(ring[..k] + [e] + ring[k..])
    ensures k > 0 ==> ring[0].seqNo < e.seqNo
  {
    var whole := ring[..k] + [e] + ring[k..];
    if k > 0 {
      assert whole[k] == e && whole[0] == ring[0];
    }
  }

  /** An entry that appears in the ring is the event just published, with a number
    * never published before. */
  lemma NewEntry(ring: seq<Event>, capacity: nat, all: set<int>, e: Event, x: Event)
    requires IsTop(ring, capacity, all) && x in Published(ring, capacity, e) && x !in ring
    ensures x == e && e.seqNo !in all
  {
    RepublishChangesNothing(ring, capacity, all, e);
    var k := AddedShape(ring, capacity, e);
    WholeHas(ring, k, e, x);
  }

  /** The first copy published of a number is the one the ring holds. */
  lemma {:induction false} RingKeepsFirstCopies(history: seq<Event>, capacity: nat)
    ensures forall e :: e in RingOf(history, capacity) ==> FirstCopy(history, e)
  {
    if history != [] {
      var before := history[..|history| - 1];
      var x := history[|history| - 1];
      assert history == before + [x];
      RingKeepsFirstCopies(before, capacity);
      RingIsTop(before, capacity);
      forall e | e in RingOf(history, capacity) ensures FirstCopy(history, e) {
        FirstCopyGrows(before, x, e);
        if e !in RingOf(before, capacity) { NewEntry(RingOf(before, capacity), capacity, Numbers(before), x, e); }
      }
    }
  }

  lemma AboveTail(ring: seq<Event>, after: int, k: nat)
    requires Ascending(ring) && ring != [] && k <= |ring| - 1 && Above(ring[..|ring| - 1], after) == ring[k..|ring| - 1]
    requires ring[|ring| - 1].seqNo > after
    ensures Above(ring, after) == ring[k..]
  {
    assert ring[k..] == ring[k..|ring| - 1] + [ring[|ring| - 1]];
  }

  /** Recent returns the buffered events above the cursor, all and in order. */
  lemma {:induction false} AboveIsTheTail(ring: seq<Event>, after: int) returns (k: nat)
    requires Ascending(ring)
    ensures k <= |ring| && Above(ring, after) == ring[k..]
    ensures forall i :: 0 <= i < |ring| ==> (ring[i].seqNo > after <==> i >= k)
  {
    if ring == [] {
      k := 0;
    } else {
      var n := |ring| - 1;
      k := AboveIsTheTail(ring[..n], after);
      assert ring[..n][k..] == ring[k..n];
      assert forall i :: 0 <= i < n ==> ring[..n][i] == ring[i];
      if ring[n].seqNo > after {
        AboveTail(ring, after, k);
      } else {
        assert forall i :: 0 <= i < n ==> ring[i].seqNo < ring[n].seqNo;
        assert ring[k..n] == [] && ring[|ring|..] == [];
        k := |ring|;
      }
    }
  }

  lemma AboveHas(ring: seq<Event>, after: int, e: Event)
    requires Ascending(ring)
    ensures Ascending(Above(ring, after)) && (e in Above(ring, after) <==> e in ring && e.seqNo > after)
  {
    var k := AboveIsTheTail(ring, after);
    assert ring == ring[..k] + ring[k..];
    if e in ring[..k] {
      var i :| 0 <= i < k && ring[i] == e;
    }
  }

  /** Ascending lists with the same events are the same list. */
  lemma AscendingUnique(a: seq<Event>, b: seq<Event>)
    requires Ascending(a) && Ascending(b) && forall e :: e in a <==> e in b
    ensures a == b
  {
    BySequenceIsStrictWeak();
    AscendsUnique(a, b, BY_SEQUENCE);
  }
}
