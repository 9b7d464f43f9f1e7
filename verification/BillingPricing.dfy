/** Prices a month of usage and covers it with credits. Amounts are integer
  * cents in 64-bit integers, which wrap around.
  */
module BillingPricing {
  import opened Prelude

  const MAX_INT64: int := 0x7FFF_FFFF_FFFF_FFFF
  const TWO_TO_THE_64: int := 0x1_0000_0000_0000_0000
  newtype int64 = x: int | -0x8000_0000_0000_0000 <= x < 0x8000_0000_0000_0000

  /** The 64-bit integer an overflowing result wraps around to. */
  function Wrap(x: int): (r: int64)
    ensures (r as int - x) % TWO_TO_THE_64 == 0
    ensures r as int == x <==> -MAX_INT64 - 1 <= x <= MAX_INT64
  {
    ((x + MAX_INT64 + 1) % TWO_TO_THE_64 - MAX_INT64 - 1) as int64
  }

  datatype Usage = Usage(sessions: int64, inputTokens: int64, outputTokens: int64, runs: int64)
  datatype PriceTable = PriceTable(baseFee: int64, includedSessions: int64, session: int64,
                                   inputPerMillion: int64, outputPerMillion: int64, includedRuns: int64, run: int64)

  datatype Kind = BaseFee | Sessions | InputTokens | OutputTokens | Runs | CreditLine
  type CreditId = nat
  datatype Line = Line(kind: Kind, quantity: int64, amount: int64, credit: Option<CreditId>)

  // ---- Price ----

  /** quantity * price / 10^6 rounded up, in unbounded integers until the end. */
  function PerMillionCeil(quantity: int64, price: int64): int64 {
    if quantity <= 0 || price <= 0 then 0
    else
      var product := quantity as int * price as int;
      Wrap(product / 1_000_000 + if product % 1_000_000 > 0 then 1 else 0)
  }

  function Over(used: int64, included: int64): int64 {
    var over := Wrap(used as int - included as int);
    if over < 0 then 0 else over
  }

  function OverLine(kind: Kind, used: int64, included: int64, price: int64): seq<Line> {
    var billable := Over(used, included);
    if billable > 0 && price > 0 then [Line(kind, billable, Wrap(billable as int * price as int), None)] else []
  }

  function TokenLine(kind: Kind, tokens: int64, price: int64): seq<Line> {
    var cents := PerMillionCeil(tokens, price);
    if cents > 0 then [Line(kind, tokens, cents, None)] else []
  }

  function PriceLines(u: Usage, t: PriceTable): seq<Line> {
    [Line(BaseFee, 1, t.baseFee, None)]
    + OverLine(Sessions, u.sessions, t.includedSessions, t.session)
    + TokenLine(InputTokens, u.inputTokens, t.inputPerMillion)
    + TokenLine(OutputTokens, u.outputTokens, t.outputPerMillion)
    + OverLine(Runs, u.runs, t.includedRuns, t.run)
  }

  method Price(u: Usage, t: PriceTable) returns (lines: seq<Line>)
    ensures lines == PriceLines(u, t)
  {
    lines := [Line(BaseFee, 1, t.baseFee, None)];
    var sessions := Over(u.sessions, t.includedSessions);
    if sessions > 0 && t.session > 0 {
      lines := lines + [Line(Sessions, sessions, Wrap(sessions as int * t.session as int), None)];
    }
    var input := PerMillionCeil(u.inputTokens, t.inputPerMillion);
    if input > 0 {
      lines := lines + [Line(InputTokens, u.inputTokens, input, None)];
    }
    var output := PerMillionCeil(u.outputTokens, t.outputPerMillion);
    if output > 0 {
      lines := lines + [Line(OutputTokens, u.outputTokens, output, None)];
    }
    var runs := Over(u.runs, t.includedRuns);
    if runs > 0 && t.run > 0 {
      lines := lines + [Line(Runs, runs, Wrap(runs as int * t.run as int), None)];
    }
  }

  predicate NonNegative(u: Usage) { u.sessions >= 0 && u.inputTokens >= 0 && u.outputTokens >= 0 && u.runs >= 0 }

  /** What ParsePriceTable accepts. */
  predicate Accepted(t: PriceTable) {
    t.baseFee >= 0 && t.includedSessions >= 0 && t.session >= 0 && t.inputPerMillion >= 0 && t.outputPerMillion >= 0
    && t.includedRuns >= 0 && t.run >= 0
  }

  /** The least whole number of millionths' worth of cents not below the product. */
  ghost predicate IsCeiling(cents: int, product: int) { cents * 1_000_000 >= product > (cents - 1) * 1_000_000 }

  function Product(quantity: int64, price: int64): nat
    requires quantity >= 0 && price >= 0
  {
    MulMonotone(0, quantity as int, price as int);
    quantity as int * price as int
  }

  lemma MulMonotone(a: int, b: int, c: int)
    requires a <= b && 0 <= c
    ensures a * c <= b * c
  {
  }

  /** Units beyond the included ones, each at its price. */
  function Overage(used: int64, included: int64, price: int64): nat
    requires price >= 0
  {
    var over := Max(used as int - included as int, 0);
    MulMonotone(0, over, price as int);
    over * price as int
  }

  function Ceiling(product: nat): (cents: nat)
    ensures IsCeiling(cents, product)
  {
    (product + 999_999) / 1_000_000
  }

  /** What usage costs, in whole numbers of any size. */
  function Due(u: Usage, t: PriceTable): nat
    requires NonNegative(u) && Accepted(t)
  {
    t.baseFee as nat
    + Overage(u.sessions, t.includedSessions, t.session)
    + Ceiling(Product(u.inputTokens, t.inputPerMillion))
    + Ceiling(Product(u.outputTokens, t.outputPerMillion))
    + Overage(u.runs, t.includedRuns, t.run)
  }

  // ---- Totals ----

  function ChargeSum(lines: seq<Line>): int {
    if lines == [] then 0
    else ChargeSum(lines[..|lines| - 1]) + if lines[|lines| - 1].kind == CreditLine then 0 else lines[|lines| - 1].amount as int
  }

  function CreditSum(lines: seq<Line>): int {
    if lines == [] then 0
    else CreditSum(lines[..|lines| - 1]) - if lines[|lines| - 1].kind == CreditLine then lines[|lines| - 1].amount as int else 0
  }

  datatype Totalled = Totalled(subtotal: int64, credits: int64, total: int64)

  /** The sums of a list of lines, unless credits exceed the subtotal. */
  function TotalsOf(lines: seq<Line>): Option<Totalled> {
    var subtotal, credits := Wrap(ChargeSum(lines)), Wrap(CreditSum(lines));
    var total := Wrap(subtotal as int - credits as int);
    if total < 0 then None else Some(Totalled(subtotal, credits, total))
  }

  /** Sums that wrap at every step wrap to the same as the whole sum. */
  lemma WrapAdd(x: int, y: int)
    ensures Wrap(Wrap(x) as int + y) == Wrap(x + y)
  {
    var k := (Wrap(x) as int - x) / TWO_TO_THE_64;
    assert Wrap(x) as int == x + k * TWO_TO_THE_64;
    WrapPeriodic(x + y, k);
  }

  lemma WrapPeriodic(x: int, k: int)
    ensures Wrap(x + k * TWO_TO_THE_64) == Wrap(x)
  {
    var a, b := Wrap(x + k * TWO_TO_THE_64) as int, Wrap(x) as int;
    var i, j := (a - (x + k * TWO_TO_THE_64)) / TWO_TO_THE_64, (b - x) / TWO_TO_THE_64;
    assert a - b == (i + k - j) * TWO_TO_THE_64;
  }

  method Totals(lines: seq<Line>) returns (r: Option<Totalled>)
    ensures r == TotalsOf(lines)
  {
    var subtotal: int64, credits: int64 := 0, 0;
    for i := 0 to |lines|
      invariant subtotal == Wrap(ChargeSum(lines[..i])) && credits == Wrap(CreditSum(lines[..i]))
    {
      assert lines[..i + 1][..i] == lines[..i];
      if lines[i].kind == CreditLine {
        WrapAdd(CreditSum(lines[..i]), -(lines[i].amount as int));
        credits := Wrap(credits as int - lines[i].amount as int);
      } else {
        WrapAdd(ChargeSum(lines[..i]), lines[i].amount as int);
        subtotal := Wrap(subtotal as int + lines[i].amount as int);
      }
    }
    assert lines[..|lines|] == lines;
    var total := Wrap(subtotal as int - credits as int);
    if total < 0 { return None; }
    return Some(Totalled(subtotal, credits, total));
  }

  lemma {:induction false} SumsConcat(a: seq<Line>, b: seq<Line>)
    ensures ChargeSum(a + b) == ChargeSum(a) + ChargeSum(b) && CreditSum(a + b) == CreditSum(a) + CreditSum(b)
  {
    if b == [] {
      assert a + b == a;
    } else {
      SumsConcat(a, b[..|b| - 1]);
      assert (a + b)[..|a + b| - 1] == a + b[..|b| - 1];
    }
  }

  // ---- Pricing results ----

  lemma RoundedUp(product: nat)
    ensures product / 1_000_000 + (if product % 1_000_000 > 0 then 1 else 0) == Ceiling(product)
  {
  }

  lemma PerMillionIsCeiling(quantity: int64, price: int64)
    requires quantity >= 0 && price >= 0
    ensures PerMillionCeil(quantity, price) == Wrap(Ceiling(Product(quantity, price)))
  {
    if quantity == 0 || price == 0 {
      assert Product(quantity, price) == 0;
    } else {
      RoundedUp(Product(quantity, price));
    }
  }

  lemma LineSums(u: Usage, t: PriceTable)
    ensures CreditSum(PriceLines(u, t)) == 0
    ensures ChargeSum(PriceLines(u, t)) == t.baseFee as int
      + ChargeSum(OverLine(Sessions, u.sessions, t.includedSessions, t.session))
      + ChargeSum(TokenLine(InputTokens, u.inputTokens, t.inputPerMillion))
      + ChargeSum(TokenLine(OutputTokens, u.outputTokens, t.outputPerMillion))
      + ChargeSum(OverLine(Runs, u.runs, t.includedRuns, t.run))
  {
    var base := [Line(BaseFee, 1, t.baseFee, None)];
    var s, i := OverLine(Sessions, u.sessions, t.includedSessions, t.session), TokenLine(InputTokens, u.inputTokens, t.inputPerMillion);
    var o, r := TokenLine(OutputTokens, u.outputTokens, t.outputPerMillion), OverLine(Runs, u.runs, t.includedRuns, t.run);
    SumsConcat(base, s);
    SumsConcat(base + s, i);
    SumsConcat(base + s + i, o);
    SumsConcat(base + s + i + o, r);
    assert ChargeSum(base) == t.baseFee as int && CreditSum(base) == 0;
    assert CreditSum(s) == 0 && CreditSum(i) == 0 && CreditSum(o) == 0 && CreditSum(r) == 0;
  }

  lemma OverLineSum(kind: Kind, used: int64, included: int64, price: int64)
    requires used >= 0 && included >= 0 && price >= 0 && kind != CreditLine
    requires Overage(used, included, price) <= MAX_INT64
    ensures ChargeSum(OverLine(kind, used, included, price)) == Overage(used, included, price)
  {
    var over := Max(used as int - included as int, 0);
    if over > 0 && price > 0 {
      assert over * price as int >= 0;
      assert OverLine(kind, used, included, price) == [Line(kind, over as int64, Wrap(over * price as int), None)];
    } else {
      assert over * price as int == 0;
    }
  }

  lemma TokenLineSum(kind: Kind, tokens: int64, price: int64)
    requires tokens >= 0 && price >= 0 && kind != CreditLine && Ceiling(Product(tokens, price)) <= MAX_INT64
    ensures ChargeSum(TokenLine(kind, tokens, price)) == Ceiling(Product(tokens, price))
  {
    PerMillionIsCeiling(tokens, price);
  }

  /** The priced lines add up to the closed form, although zero lines are left
    * out, exactly when that is at most the largest 64-bit integer. */
  lemma PriceIsExactIff(u: Usage, t: PriceTable)
    requires NonNegative(u) && Accepted(t)
    ensures TotalsOf(PriceLines(u, t)).Some? && TotalsOf(PriceLines(u, t)).value.subtotal as int == Due(u, t) <==> Due(u, t) <= MAX_INT64
    ensures Due(u, t) <= MAX_INT64 ==> ChargeSum(PriceLines(u, t)) == Due(u, t)
  {
    LineSums(u, t);
    if Due(u, t) <= MAX_INT64 {
      OverLineSum(Sessions, u.sessions, t.includedSessions, t.session);
      OverLineSum(Runs, u.runs, t.includedRuns, t.run);
      TokenLineSum(InputTokens, u.inputTokens, t.inputPerMillion);
      TokenLineSum(OutputTokens, u.outputTokens, t.outputPerMillion);
    }
  }

  predicate NoMore(u: Usage, v: Usage) {
    u.sessions <= v.sessions && u.inputTokens <= v.inputTokens && u.outputTokens <= v.outputTokens && u.runs <= v.runs
  }

  lemma CeilingMonotone(a: nat, b: nat)
    requires a <= b
    ensures Ceiling(a) <= Ceiling(b)
  {
  }

  lemma DueIsMonotone(u: Usage, v: Usage, t: PriceTable)
    requires NonNegative(u) && NoMore(u, v) && Accepted(t)
    ensures NonNegative(v) && Due(u, t) <= Due(v, t)
  {
    MulMonotone(Max(u.sessions as int - t.includedSessions as int, 0), Max(v.sessions as int - t.includedSessions as int, 0), t.session as int);
    MulMonotone(Max(u.runs as int - t.includedRuns as int, 0), Max(v.runs as int - t.includedRuns as int, 0), t.run as int);
    MulMonotone(u.inputTokens as int, v.inputTokens as int, t.inputPerMillion as int);
    MulMonotone(u.outputTokens as int, v.outputTokens as int, t.outputPerMillion as int);
    CeilingMonotone(Product(u.inputTokens, t.inputPerMillion), Product(v.inputTokens, t.inputPerMillion));
    CeilingMonotone(Product(u.outputTokens, t.outputPerMillion), Product(v.outputTokens, t.outputPerMillion));
  }

  /** More usage never costs less. */
  lemma PriceIsMonotone(u: Usage, v: Usage, t: PriceTable)
    requires NonNegative(u) && NoMore(u, v) && Accepted(t)
    ensures NonNegative(v) && Due(u, t) <= Due(v, t)
    ensures Due(v, t) <= MAX_INT64 ==>
      && TotalsOf(PriceLines(u, t)).Some? && TotalsOf(PriceLines(v, t)).Some?
      && TotalsOf(PriceLines(u, t)).value.subtotal <= TotalsOf(PriceLines(v, t)).value.subtotal
  {
    DueIsMonotone(u, v, t);
    PriceIsExactIff(u, t);
    PriceIsExactIff(v, t);
  }
}
