/** Spending credits on a subtotal: soonest-expiring first. */
module BillingCredits {
  import opened Prelude
  import opened Sorting
  import opened BillingPricing

  /** A credit and the balance still available to one invoice. Ids compare as
    * their text does; instants are integers. */
  datatype Credit = Credit(id: CreditId, balance: int64, granted: int, expires: Option<int>)

  predicate Before(a: Credit, b: Credit) {
    if a.expires.Some? && b.expires.None? then true
    else if a.expires.None? && b.expires.Some? then false
    else if a.expires.Some? && a.expires != b.expires then a.expires.value < b.expires.value
    else if a.granted != b.granted then a.granted < b.granted
    else a.id < b.id
  }

  function Ordered(credits: seq<Credit>): seq<Credit> { Sort(credits, Before) }

  function CreditLineFor(c: Credit, applied: int64): Line
    requires applied > 0
  {
    Line(CreditLine, 1, -applied, Some(c.id))
  }

  function Sum(xs: seq<int>): int {
    if xs == [] then 0 else Sum(xs[..|xs| - 1]) + xs[|xs| - 1]
  }

  function Balance(c: Credit): int { if c.balance > 0 then c.balance as int else 0 }

  /** How much of each credit, in turn, is spent while something is due. */
  function Spends(due: int, ordered: seq<Credit>): (spends: seq<int>)
    ensures |spends| == |ordered|
    ensures forall i :: 0 <= i < |ordered| ==> 0 <= spends[i] <= Balance(ordered[i])
  {
    if ordered == [] then []
    else
      var earlier := Spends(due, ordered[..|ordered| - 1]);
      earlier + [Spend(due - Sum(earlier), ordered[|ordered| - 1])]
  }

  function Spend(due: int, c: Credit): (spend: int)
    ensures 0 <= spend <= Balance(c) && (spend <= due || spend == 0)
  {
    if due <= 0 || c.balance <= 0 then 0 else Min(c.balance as int, due)
  }

  function LinesFor(ordered: seq<Credit>, spends: seq<int>): seq<Line>
    requires |ordered| == |spends| && forall i :: 0 <= i < |spends| ==> 0 <= spends[i] <= MAX_INT64
  {
    if ordered == [] then []
    else
      var n := |ordered| - 1;
      LinesFor(ordered[..n], spends[..n]) + if spends[n] > 0 then [CreditLineFor(ordered[n], spends[n] as int64)] else []
  }

  function LinesOn(due: int, ordered: seq<Credit>): seq<Line> { LinesFor(ordered, Spends(due, ordered)) }

  /** The credit lines of an invoice with this subtotal. */
  function CreditLines(subtotal: int, credits: seq<Credit>): seq<Line> { LinesOn(subtotal, Ordered(credits)) }

  /** One more credit adds at most one line. */
  lemma NextLine(due: int, ordered: seq<Credit>, i: nat)
    requires i < |ordered|
    ensures
      var left := due - Sum(Spends(due, ordered[..i]));
      var spend := Spend(left, ordered[i]);
      && Sum(Spends(due, ordered[..i + 1])) == Sum(Spends(due, ordered[..i])) + spend
      && LinesOn(due, ordered[..i + 1]) == LinesOn(due, ordered[..i]) + if spend > 0 then [CreditLineFor(ordered[i], spend as int64)] else []
  {
    var s := ordered[..i + 1];
    assert s[..i] == ordered[..i];
    var earlier := Spends(due, s[..i]);
    assert Spends(due, s) == earlier + [Spend(due - Sum(earlier), s[i])];
    assert Spends(due, s)[..i] == earlier;
  }

  /** Once nothing is due, the remaining credits add no line. */
  lemma {:induction false} NothingDue(due: int, ordered: seq<Credit>, i: nat)
    requires i <= |ordered| && due - Sum(Spends(due, ordered[..i])) <= 0
    ensures LinesOn(due, ordered) == LinesOn(due, ordered[..i])
    decreases |ordered| - i
  {
    if i == |ordered| {
      assert ordered[..i] == ordered;
    } else {
      NextLine(due, ordered, i);
      assert Spend(due - Sum(Spends(due, ordered[..i])), ordered[i]) == 0;
      NothingDue(due, ordered, i + 1);
    }
  }

  method ApplyCredits(subtotal: int64, credits: seq<Credit>) returns (lines: seq<Line>)
    ensures lines == CreditLines(subtotal as int, credits)
  {
    var ordered := Ordered(credits);
    lines := [];
    var due := subtotal;
    for i := 0 to |ordered|
      invariant lines == LinesOn(subtotal as int, ordered[..i])
      invariant due as int == subtotal as int - Sum(Spends(subtotal as int, ordered[..i]))
    {
      if due <= 0 {
        NothingDue(subtotal as int, ordered, i);
        return;
      }
      NextLine(subtotal as int, ordered, i);
      var applied := if ordered[i].balance < due then ordered[i].balance else due;
      if applied > 0 {
        lines := lines + [CreditLineFor(ordered[i], applied)];
        due := due - applied;
      }
    }
    assert ordered[..|ordered|] == ordered;
  }

  // ---- The greedy choice is the best one ----

  function Balances(ordered: seq<Credit>): (bs: seq<int>)
    ensures |bs| == |ordered|
  {
    seq(|ordered|, i requires 0 <= i < |ordered| => Balance(ordered[i]))
  }

  lemma {:induction false} SpendsPrefix(due: int, ordered: seq<Credit>, k: nat)
    requires k <= |ordered|
    ensures Spends(due, ordered)[..k] == Spends(due, ordered[..k])
  {
    if k == |ordered| {
      assert ordered[..k] == ordered;
    } else {
      var init := ordered[..|ordered| - 1];
      SpendsPrefix(due, init, k);
      assert init[..k] == ordered[..k];
      Longer(Spends(due, init), Spends(due, ordered), k);
    }
  }

  lemma Longer(xs: seq<int>, ys: seq<int>, k: nat)
    requires k <= |xs| < |ys| && ys[..|xs|] == xs
    ensures ys[..k] == xs[..k]
  {
    assert ys[..|xs|][..k] == ys[..k];
  }

  lemma {:induction false} SpendsAll(due: int, ordered: seq<Credit>)
    ensures Sum(Spends(due, ordered)) == Min(Max(due, 0), Sum(Balances(ordered)))
    ensures Sum(Balances(ordered)) >= 0
  {
    if ordered != [] {
      var init := ordered[..|ordered| - 1];
      SpendsAll(due, init);
      assert Balances(ordered)[..|init|] == Balances(init);
      assert Spends(due, ordered)[..|init|] == Spends(due, init);
    }
  }

  /** On every prefix of the order, as much is spent as the subtotal and the
    * balances in that prefix allow. */
  lemma GreedySpendsAll(due: int, ordered: seq<Credit>, k: nat)
    requires k <= |ordered|
    ensures Sum(Spends(due, ordered)[..k]) == Min(Max(due, 0), Sum(Balances(ordered)[..k]))
  {
    SpendsPrefix(due, ordered, k);
    SpendsAll(due, ordered[..k]);
    assert Balances(ordered)[..k] == Balances(ordered[..k]);
  }

  lemma {:induction false} SumMonotone(xs: seq<int>, ys: seq<int>)
    requires |xs| == |ys| && forall i :: 0 <= i < |xs| ==> xs[i] <= ys[i]
    ensures Sum(xs) <= Sum(ys)
  {
    if xs != [] {
      SumMonotone(xs[..|xs| - 1], ys[..|ys| - 1]);
    }
  }

  lemma {:induction false} SumPrefix(xs: seq<int>, k: nat)
    requires k <= |xs| && forall i :: 0 <= i < |xs| ==> 0 <= xs[i]
    ensures Sum(xs[..k]) <= Sum(xs)
  {
    if k < |xs| {
      SumPrefix(xs[..|xs| - 1], k);
      assert xs[..|xs| - 1][..k] == xs[..k];
    } else {
      assert xs[..k] == xs;
    }
  }

  /** Some way of spending the same credits. */
  ghost predicate Allocation(due: int, ordered: seq<Credit>, spends: seq<int>) {
    && |spends| == |ordered|
    && (forall i :: 0 <= i < |spends| ==> 0 <= spends[i] <= Balance(ordered[i]))
    && Sum(spends) <= Max(due, 0)
  }

  predicate ExpiresBy(c: Credit, cutoff: int) { c.expires.Some? && c.expires.value <= cutoff }

  function SpentBy(ordered: seq<Credit>, spends: seq<int>, cutoff: int): int
    requires |ordered| == |spends|
  {
    Sum(seq(|ordered|, i requires 0 <= i < |ordered| => if ExpiresBy(ordered[i], cutoff) then spends[i] else 0))
  }

  /** In the sorted order the credits that expire by a cutoff come first. */
  lemma {:induction false} ExpiringFirst(ordered: seq<Credit>, cutoff: int) returns (k: nat)
    requires Sorted(ordered, Before)
    ensures k <= |ordered| && forall i :: 0 <= i < |ordered| ==> (ExpiresBy(ordered[i], cutoff) <==> i < k)
  {
    k := |ordered|;
    if ordered != [] {
      var n := |ordered| - 1;
      if ExpiresBy(ordered[n], cutoff) {
        forall i | 0 <= i < n ensures ExpiresBy(ordered[i], cutoff) {
          assert !Before(ordered[n], ordered[i]);
        }
      } else {
        k := ExpiringFirst(ordered[..n], cutoff);
      }
    }
  }

  lemma {:induction false} SumPadded(xs: seq<int>, k: nat, padded: seq<int>)
    requires k <= |xs| == |padded| && forall i :: 0 <= i < |xs| ==> padded[i] == if i < k then xs[i] else 0
    ensures Sum(padded) == Sum(xs[..k])
  {
    if k == |xs| {
      assert xs[..k] == padded;
    } else {
      SumPadded(xs[..|xs| - 1], k, padded[..|xs| - 1]);
      assert xs[..|xs| - 1][..k] == xs[..k];
    }
  }

  lemma SpentByPrefix(ordered: seq<Credit>, spends: seq<int>, cutoff: int, k: nat)
    requires |ordered| == |spends| && k <= |ordered|
    requires forall i :: 0 <= i < |ordered| ==> (ExpiresBy(ordered[i], cutoff) <==> i < k)
    ensures SpentBy(ordered, spends, cutoff) == Sum(spends[..k])
  {
    SumPadded(spends, k, seq(|ordered|, i requires 0 <= i < |ordered| => if ExpiresBy(ordered[i], cutoff) then spends[i] else 0));
  }

  lemma PrefixBound(due: int, ordered: seq<Credit>, other: seq<int>, k: nat)
    requires Allocation(due, ordered, other) && k <= |ordered|
    ensures Sum(other[..k]) <= Sum(Spends(due, ordered)[..k])
  {
    GreedySpendsAll(due, ordered, k);
    SumMonotone(other[..k], Balances(ordered)[..k]);
    SumPrefix(other, k);
  }

  lemma SortedGreedyIsBest(due: int, ordered: seq<Credit>, other: seq<int>, cutoff: int)
    requires Sorted(ordered, Before) && Allocation(due, ordered, other)
    ensures SpentBy(ordered, other, cutoff) <= SpentBy(ordered, Spends(due, ordered), cutoff)
  {
    var k := ExpiringFirst(ordered, cutoff);
    SpentByPrefix(ordered, other, cutoff, k);
    SpentByPrefix(ordered, Spends(due, ordered), cutoff, k);
    PrefixBound(due, ordered, other, k);
  }

  lemma SpendsMost(due: int, ordered: seq<Credit>, other: seq<int>)
    requires Allocation(due, ordered, other)
    ensures Sum(other) <= Sum(Spends(due, ordered)) && Allocation(due, ordered, Spends(due, ordered))
  {
    PrefixBound(due, ordered, other, |ordered|);
    assert Spends(due, ordered)[..|ordered|] == Spends(due, ordered) && other[..|ordered|] == other;
    SpendsAll(due, ordered);
  }

  /** No other way to cover the same subtotal uses up more of what expires by any
    * cutoff, and none covers more of the subtotal. */
  lemma GreedyIsBest(subtotal: int, credits: seq<Credit>, other: seq<int>, cutoff: int)
    requires Allocation(subtotal, Ordered(credits), other)
    ensures SpentBy(Ordered(credits), other, cutoff) <= SpentBy(Ordered(credits), Spends(subtotal, Ordered(credits)), cutoff)
    ensures Sum(other) <= Sum(Spends(subtotal, Ordered(credits)))
    ensures Allocation(subtotal, Ordered(credits), Spends(subtotal, Ordered(credits)))
  {
    OrderedIsSorted(credits);
    SortedGreedyIsBest(subtotal, Ordered(credits), other, cutoff);
    SpendsMost(subtotal, Ordered(credits), other);
  }

  // ---- The order the rows come in does not matter ----

  lemma BeforeIsAnOrder()
    ensures StrictWeak(Before)
  {
  }

  predicate DistinctIds(credits: seq<Credit>) {
    forall i, j :: 0 <= i < j < |credits| ==> credits[i].id != credits[j].id
  }

  lemma OrderedIsSorted(credits: seq<Credit>)
    ensures Sorted(Ordered(credits), Before) && multiset(Ordered(credits)) == multiset(credits)
  {
    BeforeIsAnOrder();
    SortIsSorted(credits, Before);
  }

  lemma OrderedHasNoTies(credits: seq<Credit>)
    requires DistinctIds(credits)
    ensures NoTies(Ordered(credits), Before)
  {
    OrderedIsSorted(credits);
    var ordered := Ordered(credits);
    forall i, j | 0 <= i < |ordered| && 0 <= j < |ordered| && !Before(ordered[i], ordered[j]) && !Before(ordered[j], ordered[i])
      ensures ordered[i] == ordered[j]
    {
      assert ordered[i] in multiset(credits) && ordered[j] in multiset(credits);
      assert ordered[i].id == ordered[j].id;
    }
  }

  /** With distinct ids any two orders of the same rows give the same lines. */
  lemma OrderIsIrrelevant(subtotal: int, a: seq<Credit>, b: seq<Credit>)
    requires multiset(a) == multiset(b) && DistinctIds(a)
    ensures CreditLines(subtotal, a) == CreditLines(subtotal, b)
  {
    OrderedIsSorted(a);
    OrderedIsSorted(b);
    OrderedHasNoTies(a);
    SortedUnique(Ordered(a), Ordered(b), Before);
  }

  // ---- With the charges ----

  lemma OneLineSum(lines: seq<Line>, x: Credit, spend: int)
    requires 0 <= spend <= MAX_INT64
    ensures
      var more := if spend > 0 then [CreditLineFor(x, spend as int64)] else [];
      ChargeSum(lines + more) == ChargeSum(lines) && CreditSum(lines + more) == CreditSum(lines) + spend
  {
    var more := if spend > 0 then [CreditLineFor(x, spend as int64)] else [];
    SumsConcat(lines, more);
    assert ChargeSum(more) == 0 && CreditSum(more) == spend;
  }

  lemma {:induction false} LinesSum(ordered: seq<Credit>, spends: seq<int>)
    requires |ordered| == |spends| && forall i :: 0 <= i < |spends| ==> 0 <= spends[i] <= MAX_INT64
    ensures ChargeSum(LinesFor(ordered, spends)) == 0 && CreditSum(LinesFor(ordered, spends)) == Sum(spends)
  {
    if ordered == [] {
      assert spends == [];
    } else {
      var n := |ordered| - 1;
      LinesSum(ordered[..n], spends[..n]);
      OneLineSum(LinesFor(ordered[..n], spends[..n]), ordered[n], spends[n]);
    }
  }

  function Available(credits: seq<Credit>): int { Sum(Balances(Ordered(credits))) }

  /** The invoice as closeCompany computes it. */
  function InvoiceLines(charges: seq<Line>, credits: seq<Credit>): Option<seq<Line>> {
    match TotalsOf(charges)
    case None => None
    case Some(t) => Some(charges + CreditLines(t.subtotal as int, credits))
  }

  predicate OnlyCharges(lines: seq<Line>) { forall l :: l in lines ==> l.kind != CreditLine }

  lemma {:induction false} ChargesHaveNoCredits(lines: seq<Line>)
    requires OnlyCharges(lines)
    ensures CreditSum(lines) == 0
  {
    if lines != [] {
      ChargesHaveNoCredits(lines[..|lines| - 1]);
      assert lines[|lines| - 1] in lines;
    }
  }

  /** Once charges have a subtotal, adding the credit lines never makes the totals
    * fail: the credits cover as much as they can and the rest is due. */
  lemma TotalsNeverFail(charges: seq<Line>, credits: seq<Credit>)
    requires OnlyCharges(charges) && TotalsOf(charges).Some?
    ensures
      var lines := InvoiceLines(charges, credits).value;
      var subtotal := TotalsOf(charges).value.subtotal as int;
      && TotalsOf(lines).Some? && TotalsOf(lines).value.subtotal as int == subtotal >= 0
      && TotalsOf(lines).value.credits as int == Min(subtotal, Available(credits)) == CreditSum(lines)
      && TotalsOf(lines).value.total as int == subtotal - Min(subtotal, Available(credits)) >= 0
  {
    var subtotal := TotalsOf(charges).value.subtotal as int;
    var ordered := Ordered(credits);
    ChargesHaveNoCredits(charges);
    LinesSum(ordered, Spends(subtotal, ordered));
    SumsConcat(charges, CreditLines(subtotal, credits));
    SpendsAll(subtotal, ordered);
  }
}
