/** Stable sorting, as Go's sort.SliceStable and JavaScript's Array.sort promise
  * it. The algorithm is not theirs; the result is the one every stable sort has.
  */
module Sorting {

  /** `less` orders everything, up to ties. */
  ghost predicate StrictWeak<T(!new)>(less: (T, T) -> bool) {
    && (forall a, b :: less(a, b) ==> !less(b, a))
    && (forall a, b, c :: !less(b, a) && !less(c, b) ==> !less(c, a))
  }

  ghost predicate Sorted<T(!new)>(s: seq<T>, less: (T, T) -> bool) {
    forall i, j :: 0 <= i < j < |s| ==> !less(s[j], s[i])
  }

  /** Puts x behind everything it is not less than. */
  function Insert<T>(s: seq<T>, x: T, less: (T, T) -> bool): seq<T> {
    if s == [] || !less(x, s[|s| - 1]) then s + [x]
    else Insert(s[..|s| - 1], x, less) + [s[|s| - 1]]
  }

  function Sort<T>(s: seq<T>, less: (T, T) -> bool): seq<T> {
    if s == [] then [] else Insert(Sort(s[..|s| - 1], less), s[|s| - 1], less)
  }

  /** Inserting into a sorted sequence is one cut: ties stay in front of x. */
  lemma {:induction false} InsertCuts<T(!new)>(s: seq<T>, x: T, less: (T, T) -> bool) returns (k: nat)
    requires StrictWeak(less) && Sorted(s, less)
    ensures k <= |s| && Insert(s, x, less) == s[..k] + [x] + s[k..]
    ensures forall i :: 0 <= i < k ==> !less(x, s[i])
    ensures forall i :: k <= i < |s| ==> less(x, s[i])
    ensures Sorted(Insert(s, x, less), less)
  {
    if s == [] || !less(x, s[|s| - 1]) {
      k := |s|;
      forall i | 0 <= i < |s| ensures !less(x, s[i]) {
        if i < |s| - 1 { assert !less(s[|s| - 1], s[i]); }
      }
    } else {
      var last := s[|s| - 1];
      k := InsertCuts(s[..|s| - 1], x, less);
      assert Insert(s, x, less) == s[..k] + [x] + s[k..];
    }
  }

  lemma {:induction false} SortIsSorted<T(!new)>(s: seq<T>, less: (T, T) -> bool)
    requires StrictWeak(less)
    ensures Sorted(Sort(s, less), less) && multiset(Sort(s, less)) == multiset(s) && |Sort(s, less)| == |s|
  {
    if s != [] {
      var init := s[..|s| - 1];
      SortIsSorted(init, less);
      var t := Sort(init, less);
      var k := InsertCuts(t, s[|s| - 1], less);
      assert t == t[..k] + t[k..];
      assert s == init + [s[|s| - 1]];
    }
  }

  /** Sorting a sorted sequence changes nothing. */
  lemma {:induction false} SortSorted<T(!new)>(s: seq<T>, less: (T, T) -> bool)
    requires Sorted(s, less)
    ensures Sort(s, less) == s
  {
    if s != [] {
      var init, last := s[..|s| - 1], s[|s| - 1];
      SortSorted(init, less);
      assert init == [] || !less(last, init[|init| - 1]);
      assert Insert(init, last, less) == init + [last] == s;
    }
  }

  ghost predicate NoTies<T(!new)>(s: seq<T>, less: (T, T) -> bool) {
    forall i, j :: 0 <= i < |s| && 0 <= j < |s| && !less(s[i], s[j]) && !less(s[j], s[i]) ==> s[i] == s[j]
  }

  /** With no ties between different elements there is one sorted arrangement. */
  lemma {:induction false} SortedUnique<T(!new)>(a: seq<T>, b: seq<T>, less: (T, T) -> bool)
    requires Sorted(a, less) && Sorted(b, less) && multiset(a) == multiset(b) && NoTies(a, less)
    ensures a == b
  {
    assert |multiset(a)| == |multiset(b)|;
    if a != [] {
      SameLast(a, b, less);
      WithoutLast(a);
      WithoutLast(b);
      SortedUnique(a[..|a| - 1], b[..|b| - 1], less);
      assert a == a[..|a| - 1] + [a[|a| - 1]];
    }
  }

  lemma WithoutLast<T>(s: seq<T>)
    requires s != []
    ensures multiset(s[..|s| - 1]) == multiset(s) - multiset{s[|s| - 1]}
  {
    assert s == s[..|s| - 1] + [s[|s| - 1]];
  }

  lemma SameLast<T(!new)>(a: seq<T>, b: seq<T>, less: (T, T) -> bool)
    requires Sorted(a, less) && Sorted(b, less) && multiset(a) == multiset(b) && NoTies(a, less) && |a| == |b| > 0
    ensures a[|a| - 1] == b[|b| - 1]
  {
    var m := |a| - 1;
    assert a[m] in multiset(b) && b[m] in multiset(a);
    var i :| 0 <= i <= m && a[i] == b[m];
    var j :| 0 <= j <= m && b[j] == a[m];
    assert i < m ==> !less(a[m], a[i]);
    assert j < m ==> !less(b[m], b[j]);
  }

  // ---- Sequences without repetitions ----

  lemma Twice<T>(s: seq<T>, i: nat, j: nat)
    requires i < j < |s| && s[i] == s[j]
    ensures multiset(s)[s[i]] >= 2
  {
    assert s == s[..j] + [s[j]] + s[j + 1..];
    assert s[i] in s[..j];
    assert s[i] in multiset(s[..j]);
  }

  lemma {:induction false} AtMostOnce<T>(s: seq<T>, x: T)
    requires forall i, j :: 0 <= i < j < |s| ==> s[i] != s[j]
    ensures multiset(s)[x] <= 1
  {
    if s != [] {
      var n := |s| - 1;
      AtMostOnce(s[..n], x);
      assert s == s[..n] + [s[n]];
      if s[n] == x {
        assert x !in s[..n];
        assert x !in multiset(s[..n]);
      }
    }
  }

  ghost predicate Ascends<T(!new)>(s: seq<T>, less: (T, T) -> bool) {
    forall i, j :: 0 <= i < j < |s| ==> less(s[i], s[j])
  }

  lemma Front<T(!new)>(s: seq<T>, n: nat, less: (T, T) -> bool, x: T)
    requires StrictWeak(less) && Ascends(s, less) && |s| == n + 1
    ensures x in s[..n] <==> x in s && x != s[n]
  {
    assert s == s[..n] + [s[n]];
    if x in s[..n] {
      var i :| 0 <= i < n && s[i] == x;
      assert less(s[i], s[n]);
    }
  }

  /** A strictly ascending sequence is determined by its elements. */
  lemma {:induction false} AscendsUnique<T(!new)>(a: seq<T>, b: seq<T>, less: (T, T) -> bool)
    requires StrictWeak(less) && Ascends(a, less) && Ascends(b, less) && forall x :: x in a <==> x in b
    ensures a == b
  {
    assert a != [] ==> a[0] in b;
    assert b != [] ==> b[0] in a;
    if a != [] {
      var m, n := |a| - 1, |b| - 1;
      assert a[m] in b && b[n] in a;
      assert a[m] == b[n];
      forall x ensures x in a[..m] <==> x in b[..n] {
        Front(a, m, less, x);
        Front(b, n, less, x);
      }
      AscendsUnique(a[..m], b[..n], less);
      assert a == a[..m] + [a[m]] && b == b[..n] + [b[n]];
    }
  }
}
