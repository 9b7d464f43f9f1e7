/** The results about a company's ledger: conservation, immutability of issued
  * invoices, the fixed point of closing again, and the hole in the credit lock.
  */
module BillingTheorems {
  import opened Prelude
  import opened Sorting
  import opened BillingPricing
  import opened BillingCredits
  import opened BillingLedger
  import opened BillingConservation

  ghost predicate GuardedRun(w: World, actions: seq<Action>)
    decreases |actions|
  {
    actions == [] || (Guarded(w, actions[0]) && GuardedRun(Step(w, actions[0]), actions[1..]))
  }

  lemma {:induction false} InvRun(w: World, actions: seq<Action>)
    requires Inv(w) && GuardedRun(w, actions)
    ensures Inv(Run(w, actions))
    decreases |actions|
  {
    if actions != [] {
      InvStep(w, actions[0]);
      InvRun(Step(w, actions[0]), actions[1..]);
    }
  }

  function Fresh(credits: map<CreditId, Grant>): World { World(Ledger(credits, []), map[]) }

  predicate PositiveGrants(credits: map<CreditId, Grant>) { forall c :: c in credits ==> credits[c].amount > 0 }

  /** Over every guarded run of draft closes, closes again, issues and voids: what
    * invoices that are not void take from a credit stays within its grant. */
  lemma CreditsAreConserved(credits: map<CreditId, Grant>, actions: seq<Action>, c: CreditId)
    requires PositiveGrants(credits) && GuardedRun(Fresh(credits), actions)
    requires c in Run(Fresh(credits), actions).db.credits
    ensures
      var db := Run(Fresh(credits), actions).db;
      0 <= Used(db.invoices, c) <= db.credits[c].amount as int
  {
    assert Inv(Fresh(credits));
    InvRun(Fresh(credits), actions);
  }

  ghost predicate RowsLocked(w: World) {
    w.db.credits != map[] && forall t :: t in w.txs ==> w.txs[t].rows != {}
  }

  lemma RowsLockedStep(w: World, a: Action)
    requires RowsLocked(w)
    ensures RowsLocked(Step(w, a)) && Guarded(w, a)
  {
    if Enabled(w, a) && a.AddCredit? {
      assert a.id in Step(w, a).db.credits;
    }
    if Enabled(w, a) && a.Begin? {
      var c :| c in w.db.credits;
      assert c in w.db.credits.Keys;
    }
  }

  lemma {:induction false} RowsLockedRun(w: World, actions: seq<Action>)
    requires RowsLocked(w)
    ensures GuardedRun(w, actions)
    decreases |actions|
  {
    if actions != [] {
      RowsLockedStep(w, actions[0]);
      RowsLockedRun(Step(w, actions[0]), actions[1..]);
    }
  }

  /** A company that had any credit before its first close never overspends one,
    * however closes, grants, issues and voids interleave. */
  lemma OneCreditIsEnough(credits: map<CreditId, Grant>, actions: seq<Action>, c: CreditId)
    requires PositiveGrants(credits) && credits != map[]
    requires c in Run(Fresh(credits), actions).db.credits
    ensures
      var db := Run(Fresh(credits), actions).db;
      0 <= Used(db.invoices, c) <= db.credits[c].amount as int
  {
    RowsLockedRun(Fresh(credits), actions);
    CreditsAreConserved(credits, actions, c);
  }

  // ---- What holds of every run, guarded or not ----

  ghost predicate TotalsOk(x: Invoice) { LinesAllowed(x.lines) && TotalsOf(x.lines) == Some(x.totals) }

  ghost predicate InvoicesOk(w: World) {
    && DistinctPeriods(w.db.invoices)
    && (forall i :: 0 <= i < |w.db.invoices| ==> TotalsOk(w.db.invoices[i]))
    && (forall t :: t in w.txs && HasInvoiceLock(w.txs[t]) ==> Open(w.db, w.txs[t].period))
    && (forall t, u :: t in w.txs && u in w.txs && t != u && HasInvoiceLock(w.txs[t]) && HasInvoiceLock(w.txs[u]) ==> w.txs[t].period != w.txs[u].period)
  }

  /** What may become of an invoice: a draft may be recomputed, issued or voided,
    * an issued one voided, and lines and totals change only in a draft. */
  predicate MayBecome(x: Invoice, y: Invoice) {
    && x.period == y.period
    && (x.status == Issued ==> y.status != Draft) && (x.status == Void ==> y.status == Void)
    && (x.status != Draft ==> y.lines == x.lines && y.totals == x.totals)
  }

  ghost predicate Kept(before: Ledger, after: Ledger) {
    && |before.invoices| <= |after.invoices|
    && forall i :: 0 <= i < |before.invoices| ==> MayBecome(before.invoices[i], after.invoices[i])
  }

  lemma PutKept(db: Ledger, x: Invoice)
    requires DistinctPeriods(db.invoices) && (forall i :: 0 <= i < |db.invoices| ==> TotalsOk(db.invoices[i])) && TotalsOk(x)
    requires var i := Find(db.invoices, x.period); i < |db.invoices| ==> MayBecome(db.invoices[i], x)
    ensures
      var after := db.(invoices := Put(db.invoices, x));
      && DistinctPeriods(after.invoices) && Kept(db, after)
      && forall i :: 0 <= i < |after.invoices| ==> TotalsOk(after.invoices[i])
  {
    PutFind(db.invoices, x, x.period);
    var after := db.(invoices := Put(db.invoices, x));
    var i := Find(db.invoices, x.period);
    assert |after.invoices| >= |db.invoices| && after.invoices[i] == x;
    forall j | 0 <= j < |after.invoices| ensures TotalsOk(after.invoices[j]) && (j < |db.invoices| ==> MayBecome(db.invoices[j], after.invoices[j])) {
      assert j == i || after.invoices[j] == db.invoices[j];
    }
  }

  lemma PutOk(w: World, x: Invoice, txs: map<nat, Tx>)
    requires InvoicesOk(w) && TotalsOk(x)
    requires forall t :: t in txs ==> t in w.txs && txs[t] == w.txs[t] && (HasInvoiceLock(txs[t]) ==> txs[t].period != x.period)
    requires var i := Find(w.db.invoices, x.period); i < |w.db.invoices| ==> MayBecome(w.db.invoices[i], x)
    ensures
      var w' := World(w.db.(invoices := Put(w.db.invoices, x)), txs);
      InvoicesOk(w') && Kept(w.db, w'.db)
  {
    PutKept(w.db, x);
    var db := w.db.(invoices := Put(w.db.invoices, x));
    forall t | t in txs && HasInvoiceLock(txs[t]) ensures Open(db, txs[t].period) {
      assert Open(w.db, txs[t].period);
      PutFind(w.db.invoices, x, txs[t].period);
    }
  }

  lemma CommitOk(w: World, t: nat)
    requires InvoicesOk(w) && Enabled(w, Commit(t))
    ensures InvoicesOk(Step(w, Commit(t))) && Kept(w.db, Step(w, Commit(t)).db)
  {
    var x := w.txs[t];
    var lines := x.phase.lines;
    if TotalsOf(lines).Some? && LinesAllowed(lines) {
      PutOk(w, Invoice(x.period, Draft, lines, TotalsOf(lines).value), w.txs - {t});
    }
  }

  lemma StatusOk(w: World, p: Period, from: set<Status>, to: Status)
    requires InvoicesOk(w) && InvoiceFree(w, p) && ((from == {Draft} && to == Issued) || (from == {Draft, Issued} && to == Void))
    ensures
      var w' := w.(db := SetStatus(w.db, p, from, to));
      InvoicesOk(w') && Kept(w.db, w'.db)
  {
    var i := Find(w.db.invoices, p);
    if i < |w.db.invoices| && w.db.invoices[i].status in from {
      PutOk(w, w.db.invoices[i].(status := to), w.txs);
    }
  }

  /** A close taking or keeping the lock of an open invoice. */
  lemma MovedOk(w: World, t: nat, phase: Phase)
    requires InvoicesOk(w) && t in w.txs
    requires phase == Held || phase.Planned? ==> Open(w.db, w.txs[t].period) && (HasInvoiceLock(w.txs[t]) || InvoiceFree(w, w.txs[t].period))
    ensures InvoicesOk(Moved(w, t, phase))
  {
    var w' := Moved(w, t, phase);
    forall u, v | u in w'.txs && v in w'.txs && u != v && HasInvoiceLock(w'.txs[u]) && HasInvoiceLock(w'.txs[v])
      ensures w'.txs[u].period != w'.txs[v].period
    {
      assert u != t ==> HasInvoiceLock(w.txs[u]);
      assert v != t ==> HasInvoiceLock(w.txs[v]);
    }
  }

  lemma KeptStep(w: World, a: Action)
    requires InvoicesOk(w)
    ensures InvoicesOk(Step(w, a)) && Kept(w.db, Step(w, a).db)
  {
    if Enabled(w, a) {
      match a
      case AddCredit(id, grant) =>
      case Begin(t, p, charges) => BeginOk(w, t, p, charges);
      case LockCredits(t) => MovedOk(w, t, Locked);
      case LockInvoice(t) => if Open(w.db, w.txs[t].period) { MovedOk(w, t, Held); } else { EndedOk(w, t); }
      case Read(t, available) =>
        var lines := InvoiceLines(w.txs[t].charges, available);
        if lines.Some? { MovedOk(w, t, Planned(lines.value)); } else { EndedOk(w, t); }
      case Commit(t) => CommitOk(w, t);
      case Abort(t) => EndedOk(w, t);
      case Issue(p) => StatusOk(w, p, {Draft}, Issued);
      case VoidInvoice(p) => StatusOk(w, p, {Draft, Issued}, Void);
    }
  }

  lemma EndedOk(w: World, t: nat)
    requires InvoicesOk(w)
    ensures InvoicesOk(Ended(w, t))
  {
  }

  lemma BeginOk(w: World, t: nat, p: Period, charges: seq<Line>)
    requires InvoicesOk(w) && Enabled(w, Begin(t, p, charges))
    ensures InvoicesOk(Step(w, Begin(t, p, charges)))
  {
  }

  /** No interleaving changes the lines or totals of an invoice that was issued. */
  lemma {:induction false} IssuedNeverChanges(w: World, actions: seq<Action>, i: nat)
    requires InvoicesOk(w) && i < |w.db.invoices| && w.db.invoices[i].status != Draft
    ensures
      var db := Run(w, actions).db;
      && i < |db.invoices| && MayBecome(w.db.invoices[i], db.invoices[i])
      && db.invoices[i].lines == w.db.invoices[i].lines && db.invoices[i].totals == w.db.invoices[i].totals
    decreases |actions|
  {
    if actions != [] {
      KeptStep(w, actions[0]);
      IssuedNeverChanges(Step(w, actions[0]), actions[1..], i);
    }
  }

  lemma {:induction false} InvoicesOkRun(w: World, actions: seq<Action>)
    requires InvoicesOk(w)
    ensures InvoicesOk(Run(w, actions))
    decreases |actions|
  {
    if actions != [] {
      KeptStep(w, actions[0]);
      InvoicesOkRun(Step(w, actions[0]), actions[1..]);
    }
  }

  /** The greatest subtotal and credits two sums of lines can have; every stored
    * total is the difference of the sums of its charge and its credit lines, and
    * never negative, as long as the charges fit a 64-bit integer. */
  lemma StoredTotalsAreSums(credits: map<CreditId, Grant>, actions: seq<Action>, i: nat)
    requires i < |Run(Fresh(credits), actions).db.invoices|
    ensures
      var x := Run(Fresh(credits), actions).db.invoices[i];
      && x.totals.total >= 0
      && (x.totals.subtotal as int == ChargeSum(x.lines) <==> ChargeSum(x.lines) <= MAX_INT64)
      && (x.totals.credits as int == CreditSum(x.lines) <==> CreditSum(x.lines) <= MAX_INT64)
      && (ChargeSum(x.lines) <= MAX_INT64 && CreditSum(x.lines) <= MAX_INT64 ==> x.totals.total as int == ChargeSum(x.lines) - CreditSum(x.lines))
  {
    InvoicesOkRun(Fresh(credits), actions);
    SumsNonNegative(Run(Fresh(credits), actions).db.invoices[i].lines);
  }

  lemma {:induction false} SumsNonNegative(lines: seq<Line>)
    requires LinesAllowed(lines)
    ensures ChargeSum(lines) >= 0 && CreditSum(lines) >= 0
  {
    if lines != [] {
      SumsNonNegative(lines[..|lines| - 1]);
      assert lines[|lines| - 1] in lines;
    }
  }

  // ---- Closing again ----

  lemma RowsDetermined(db: Ledger, p: Period, a: seq<Credit>, b: seq<Credit>, x: Credit)
    requires ListsAvailable(db, p, a) && ListsAvailable(db, p, b) && x in a
    ensures x in b
  {
    var i :| 0 <= i < |b| && b[i].id == x.id;
    assert b[i] in b;
    assert b[i] == x;
  }

  lemma {:induction false} SameRows(a: seq<Credit>, b: seq<Credit>)
    requires DistinctIds(a) && DistinctIds(b)
    requires forall x :: x in a <==> x in b
    ensures multiset(a) == multiset(b)
  {
    forall x ensures multiset(a)[x] == multiset(b)[x] {
      AtMostOnce(a, x);
      AtMostOnce(b, x);
      assert x in a <==> x in multiset(a);
      assert x in b <==> x in multiset(b);
    }
  }

  /** Whatever order the query lists the credits in, the invoice is the same. */
  lemma AnyRowOrder(db: Ledger, p: Period, charges: seq<Line>, a: seq<Credit>, b: seq<Credit>)
    requires ListsAvailable(db, p, a) && ListsAvailable(db, p, b)
    ensures InvoiceLines(charges, a) == InvoiceLines(charges, b)
    ensures Closed(db, p, charges, a) == Closed(db, p, charges, b)
  {
    forall x ensures x in a <==> x in b {
      if x in a { RowsDetermined(db, p, a, b, x); }
      if x in b { RowsDetermined(db, p, b, a, x); }
    }
    SameRows(a, b);
    if TotalsOf(charges).Some? {
      OrderIsIrrelevant(TotalsOf(charges).value.subtotal as int, a, b);
    }
  }

  /** An invoice's own lines do not count against what it may take. */
  lemma OwnInvoiceIgnored(db: Ledger, x: Invoice, rows: seq<Credit>)
    requires DistinctPeriods(db.invoices)
    ensures ListsAvailable(db.(invoices := Put(db.invoices, x)), x.period, rows) <==> ListsAvailable(db, x.period, rows)
  {
    var after := db.(invoices := Put(db.invoices, x));
    forall c | c in db.credits ensures Remaining(after, x.period, c) == Remaining(db, x.period, c) {
      PutUse(db.invoices, x, x.period, c);
    }
    assert OfferedIds(after, x.period) == OfferedIds(db, x.period);
  }

  lemma PutAgain(invoices: seq<Invoice>, x: Invoice)
    ensures Put(Put(invoices, x), x) == Put(invoices, x)
  {
    var i := Find(invoices, x.period);
    FindIs(Put(invoices, x), x.period, i);
  }

  /** Closing a period again, with the same usage and plan and nothing else
    * changed, changes nothing, whatever order the rows come in. */
  lemma ClosingAgainChangesNothing(db: Ledger, p: Period, charges: seq<Line>, rows: seq<Credit>, again: seq<Credit>)
    requires DistinctPeriods(db.invoices) && ListsAvailable(db, p, rows)
    requires ListsAvailable(Closed(db, p, charges, rows), p, again)
    ensures Closed(Closed(db, p, charges, rows), p, charges, again) == Closed(db, p, charges, rows)
  {
    var after := Closed(db, p, charges, rows);
    if after != db {
      var lines := InvoiceLines(charges, rows).value;
      var x := Invoice(p, Draft, lines, TotalsOf(lines).value);
      OwnInvoiceIgnored(db, x, again);
      AnyRowOrder(db, p, charges, rows, again);
      PutAgain(db.invoices, x);
    } else {
      AnyRowOrder(db, p, charges, rows, again);
    }
  }

  /** The statements of one close. */
  function Statements(t: nat, p: Period, charges: seq<Line>, rows: seq<Credit>): seq<Action> {
    [Begin(t, p, charges), LockCredits(t), LockInvoice(t), Read(t, rows), Commit(t)]
  }

  lemma LocksFirst(w: World, t: nat, p: Period, charges: seq<Line>)
    requires t !in w.txs && Charges(charges)
    requires forall u :: u in w.txs && HasCreditLocks(w.txs[u]) ==> w.txs[u].rows == {}
    ensures Step(Step(w, Begin(t, p, charges)), LockCredits(t)) == w.(txs := w.txs[t := Tx(p, charges, w.db.credits.Keys, Locked)])
  {
    assert Step(w, Begin(t, p, charges)) == w.(txs := w.txs[t := Tx(p, charges, w.db.credits.Keys, Begun)]);
  }

  lemma ThenCommits(w: World, t: nat, x: Tx, rows: seq<Credit>)
    requires t in w.txs && w.txs[t] == x && x.phase == Held && ListsAvailable(w.db, x.period, rows) && Open(w.db, x.period)
    ensures Step(Step(w, Read(t, rows)), Commit(t)) == Ended(w, t).(db := Closed(w.db, x.period, x.charges, rows))
  {
    var w1 := Step(w, Read(t, rows));
    var lines := InvoiceLines(x.charges, rows);
    if lines.Some? {
      assert w1 == Moved(w, t, Planned(lines.value));
      assert Ended(w1, t) == Ended(w, t);
    } else {
      assert w1 == Ended(w, t);
    }
  }

  lemma ThenCloses(w: World, t: nat, x: Tx, rows: seq<Credit>)
    requires t in w.txs && w.txs[t] == x && x.phase == Locked && ListsAvailable(w.db, x.period, rows) && InvoiceFree(w, x.period)
    ensures
      Step(Step(Step(w, LockInvoice(t)), Read(t, rows)), Commit(t)) == Ended(w, t).(db := Closed(w.db, x.period, x.charges, rows))
  {
    var w1 := Step(w, LockInvoice(t));
    if Open(w.db, x.period) {
      assert w1 == Moved(w, t, Held);
      ThenCommits(w1, t, x.(phase := Held), rows);
      assert Ended(w1, t) == Ended(w, t);
    } else {
      assert w1 == Ended(w, t);
    }
  }

  lemma RunCons(w: World, a: Action, rest: seq<Action>)
    ensures Run(w, [a] + rest) == Run(Step(w, a), rest)
  {
    assert ([a] + rest)[1..] == rest;
  }

  lemma RunFive(w: World, a: Action, b: Action, c: Action, d: Action, e: Action)
    ensures Run(w, [a, b, c, d, e]) == Step(Step(Step(Step(Step(w, a), b), c), d), e)
  {
    var w4 := Step(Step(Step(Step(w, a), b), c), d);
    RunCons(w, a, [b, c, d, e]);
    RunCons(Step(w, a), b, [c, d, e]);
    RunCons(Step(Step(w, a), b), c, [d, e]);
    RunCons(Step(Step(Step(w, a), b), c), d, [e]);
    RunCons(w4, e, []);
    assert [a] + [b, c, d, e] == [a, b, c, d, e] && [b] + [c, d, e] == [b, c, d, e] && [c] + [d, e] == [c, d, e];
    assert [d] + [e] == [d, e] && [e] + [] == [e];
  }

  /** A close whose statements nothing interrupts is one step of the whole. */
  lemma UninterruptedClose(w: World, t: nat, p: Period, charges: seq<Line>, rows: seq<Credit>)
    requires t !in w.txs && Charges(charges) && InvoiceFree(w, p) && ListsAvailable(w.db, p, rows)
    requires forall u :: u in w.txs && HasCreditLocks(w.txs[u]) ==> w.txs[u].rows == {}
    ensures Run(w, Statements(t, p, charges, rows)) == w.(db := Closed(w.db, p, charges, rows))
  {
    var x := Tx(p, charges, w.db.credits.Keys, Locked);
    LocksFirst(w, t, p, charges);
    ThenCloses(w.(txs := w.txs[t := x]), t, x, rows);
    assert w.txs[t := x] - {t} == w.txs;
    RunFive(w, Begin(t, p, charges), LockCredits(t), LockInvoice(t), Read(t, rows), Commit(t));
  }

  // ---- Where the credit lock falls short ----

  lemma {:induction false} SpendsFull(due: int, ordered: seq<Credit>)
    requires Sum(Balances(ordered)) <= due
    ensures Spends(due, ordered) == Balances(ordered)
  {
    if ordered != [] {
      var n := |ordered| - 1;
      SpendsAll(due, ordered[..n]);
      assert Balances(ordered)[..n] == Balances(ordered[..n]);
      SpendsFull(due, ordered[..n]);
    }
  }

  function SpentOn(ordered: seq<Credit>, spends: seq<int>, c: CreditId): int
    requires |ordered| == |spends|
  {
    if ordered == [] then 0
    else
      var n := |ordered| - 1;
      SpentOn(ordered[..n], spends[..n], c) + if ordered[n].id == c then spends[n] else 0
  }

  lemma {:induction false} LinesUse(ordered: seq<Credit>, spends: seq<int>, c: CreditId)
    requires |ordered| == |spends| && forall i :: 0 <= i < |spends| ==> 0 <= spends[i] <= Balance(ordered[i]) <= MAX_INT64
    ensures UseOf(LinesFor(ordered, spends), c) == SpentOn(ordered, spends, c)
  {
    if ordered != [] {
      var n := |ordered| - 1;
      LinesUse(ordered[..n], spends[..n], c);
      OneLineUse(ordered[n], spends[n], LinesFor(ordered[..n], spends[..n]), c);
    }
  }

  lemma {:induction false} BalancesSpent(ordered: seq<Credit>, c: CreditId)
    ensures SpentOn(ordered, Balances(ordered), c) == BalanceOf(ordered, c)
  {
    if ordered != [] {
      var n := |ordered| - 1;
      BalancesSpent(ordered[..n], c);
      assert Balances(ordered)[..n] == Balances(ordered[..n]);
    }
  }

  /** With enough due, every balance is spent. */
  lemma FullUse(due: int, ordered: seq<Credit>, c: CreditId)
    requires Sum(Balances(ordered)) <= due
    ensures UseOf(LinesOn(due, ordered), c) == BalanceOf(ordered, c)
  {
    SpendsFull(due, ordered);
    LinesUse(ordered, Balances(ordered), c);
    BalancesSpent(ordered, c);
  }

  lemma {:induction false} BalanceAtLeast(rows: seq<Credit>, x: Credit)
    requires x in rows
    ensures BalanceOf(rows, x.id) >= Balance(x)
  {
    var n := |rows| - 1;
    BalanceNonNegative(rows[..n], x.id);
    if rows[n] != x {
      assert x in rows[..n];
      BalanceAtLeast(rows[..n], x);
    }
  }

  lemma {:induction false} BalanceNonNegative(rows: seq<Credit>, c: CreditId)
    ensures BalanceOf(rows, c) >= 0
  {
    if rows != [] { BalanceNonNegative(rows[..|rows| - 1], c); }
  }

  /** A month whose base fee alone is more than any credit. */
  function LargeCharges(): (lines: seq<Line>)
    ensures Charges(lines) && LinesAllowed(lines) && TotalsOf(lines) == Some(Totalled(MAX_INT64 as int64, 0, MAX_INT64 as int64))
  {
    var lines := [Line(BaseFee, 1, MAX_INT64 as int64, None)];
    assert ChargeSum(lines) == MAX_INT64 && CreditSum(lines) == 0;
    lines
  }

  lemma {:induction false} CreditLinesAllowed(ordered: seq<Credit>, due: int)
    ensures LinesAllowed(LinesOn(due, ordered))
  {
    if ordered != [] {
      var n := |ordered| - 1;
      CreditLinesAllowed(ordered[..n], due);
      NextLine(due, ordered, n);
      assert ordered[..n + 1] == ordered;
    }
  }

  lemma FullLines(rows: seq<Credit>)
    requires Available(rows) <= MAX_INT64
    ensures
      var lines := InvoiceLines(LargeCharges(), rows).value;
      && lines == LargeCharges() + LinesOn(MAX_INT64, Ordered(rows))
      && TotalsOf(lines).Some? && LinesAllowed(lines)
  {
    TotalsNeverFail(LargeCharges(), rows);
    CreditLinesAllowed(Ordered(rows), MAX_INT64);
  }

  lemma FullLinesUse(rows: seq<Credit>, x: Credit)
    requires Available(rows) <= MAX_INT64 && x in rows
    ensures UseOf(InvoiceLines(LargeCharges(), rows).value, x.id) >= Balance(x)
  {
    var ordered := Ordered(rows);
    FullLines(rows);
    OrderedIsSorted(rows);
    FullUse(MAX_INT64, ordered, x.id);
    UseConcat(LargeCharges(), LinesOn(MAX_INT64, ordered), x.id);
    ChargesUseNothing(LargeCharges(), x.id);
    assert x in multiset(ordered);
    BalanceAtLeast(ordered, x);
  }

  /** Closing an unbilled period with a large enough charge uses a credit up. */
  lemma CloseUsesUp(db: Ledger, q: Period, rows: seq<Credit>, c: CreditId)
    requires Find(db.invoices, q) == |db.invoices| && DistinctPeriods(db.invoices)
    requires ListsAvailable(db, q, rows) && Available(rows) <= MAX_INT64 && c in OfferedIds(db, q)
    ensures
      var lines := InvoiceLines(LargeCharges(), rows).value;
      && TotalsOf(lines).Some? && LinesAllowed(lines)
      && Closed(db, q, LargeCharges(), rows) == db.(invoices := db.invoices + [Invoice(q, Draft, lines, TotalsOf(lines).value)])
      && UseOf(lines, c) >= db.credits[c].amount as int - Used(db.invoices, c)
  {
    FullLines(rows);
    var i :| 0 <= i < |rows| && rows[i].id == c;
    assert rows[i] in rows;
    FullLinesUse(rows, rows[i]);
    ElsewhereWhenAbsent(db.invoices, q, c);
  }

  lemma UsedAfterBoth(invoices: seq<Invoice>, y: Invoice, x: Invoice, c: CreditId)
    requires DistinctPeriods(invoices) && y.period != x.period && Find(invoices, y.period) == |invoices|
    ensures Used(Put(invoices + [y], x), c) == Used(invoices, c) + InvoiceUse(y, c) + InvoiceUse(x, c) - OldUse(invoices, x.period, c)
  {
    assert (invoices + [y])[..|invoices|] == invoices;
    PutUse(invoices + [y], x, x.period, c);
    PutUse(invoices, x, x.period, c);
  }

  lemma CommitStores(w: World, t: nat)
    requires t in w.txs && w.txs[t].phase.Planned?
    ensures Step(w, Commit(t)).db == Stored(w.db, w.txs[t].period, w.txs[t].phase.lines)
  {
  }

  lemma CloseThenCommit(w: World, t: nat, u: nat, q: Period, rows: seq<Credit>)
    requires w.txs.Keys == {t} && u != t && w.txs[t].phase.Planned? && w.txs[t].rows == {} && q != w.txs[t].period
    requires ListsAvailable(w.db, q, rows)
    ensures
      Step(Run(w, Statements(u, q, LargeCharges(), rows)), Commit(t)).db
      == Stored(Closed(w.db, q, LargeCharges(), rows), w.txs[t].period, w.txs[t].phase.lines)
  {
    UninterruptedClose(w, u, q, LargeCharges(), rows);
    CommitStores(w.(db := Closed(w.db, q, LargeCharges(), rows)), t);
  }

  /** The guard cannot be dropped. Take any state in which a close that locked no
    * credit row is about to take more from a credit than its invoice held before,
    * while another month without an invoice could use that credit too: then one
    * more close, which nothing blocks, overspends the credit. */
  lemma UnguardedCloseCanOverspend(w: World, t: nat, c: CreditId, u: nat, q: Period, rows: seq<Credit>)
    requires DistinctPeriods(w.db.invoices) && w.txs.Keys == {t} && u != t
    requires w.txs[t].phase.Planned? && w.txs[t].rows == {}
    requires
      var lines := w.txs[t].phase.lines;
      LinesAllowed(lines) && TotalsOf(lines).Some? && UseOf(lines, c) > OldUse(w.db.invoices, w.txs[t].period, c)
    requires q != w.txs[t].period && Find(w.db.invoices, q) == |w.db.invoices| && c in OfferedIds(w.db, q)
    requires ListsAvailable(w.db, q, rows) && Available(rows) <= MAX_INT64
    ensures
      var db := Step(Run(w, Statements(u, q, LargeCharges(), rows)), Commit(t)).db;
      db.credits == w.db.credits && Used(db.invoices, c) > db.credits[c].amount as int
  {
    CloseThenCommit(w, t, u, q, rows);
    CloseUsesUp(w.db, q, rows, c);
    var p, lines := w.txs[t].period, w.txs[t].phase.lines;
    var planned := InvoiceLines(LargeCharges(), rows).value;
    UsedAfterBoth(w.db.invoices, Invoice(q, Draft, planned, TotalsOf(planned).value), Invoice(p, Draft, lines, TotalsOf(lines).value), c);
  }

  const LATE_GRANT: Grant := Grant(100, 1, None)

  function LateRow(): Credit { Credit(7, 100, 1, None) }

  /** A close that found no credit to lock, and the grant that came after. */
  function GrantedMidway(): seq<Action> {
    [Begin(0, Period(0, 30), LargeCharges()), LockCredits(0), LockInvoice(0), AddCredit(7, LATE_GRANT)]
  }

  lemma GrantedMidwayState()
    ensures Run(Fresh(map[]), GrantedMidway()) ==
      World(Ledger(map[7 := LATE_GRANT], []), map[0 := Tx(Period(0, 30), LargeCharges(), {}, Held)])
  {
    var p := Period(0, 30);
    var none: map<CreditId, Grant> := map[];
    assert none.Keys == {};
    var w1 := Step(Fresh(map[]), Begin(0, p, LargeCharges()));
    var w2 := Step(w1, LockCredits(0));
    assert w2 == World(Ledger(map[], []), map[0 := Tx(p, LargeCharges(), {}, Locked)]);
    var w3 := Step(w2, LockInvoice(0));
    var w4 := Step(w3, AddCredit(7, LATE_GRANT));
    RunCons(Fresh(map[]), Begin(0, p, LargeCharges()), [LockCredits(0), LockInvoice(0), AddCredit(7, LATE_GRANT)]);
    RunCons(w1, LockCredits(0), [LockInvoice(0), AddCredit(7, LATE_GRANT)]);
    RunCons(w2, LockInvoice(0), [AddCredit(7, LATE_GRANT)]);
    RunCons(w3, AddCredit(7, LATE_GRANT), []);
    assert GrantedMidway() == [Begin(0, p, LargeCharges())] + [LockCredits(0), LockInvoice(0), AddCredit(7, LATE_GRANT)];
  }

  lemma LateRowOffered(p: Period)
    requires p == Period(0, 30) || p == Period(30, 61)
    ensures
      var db := Ledger(map[7 := LATE_GRANT], []);
      OfferedIds(db, p) == {7} && ListsAvailable(db, p, [LateRow()]) && Available([LateRow()]) == 100
  {
    var db := Ledger(map[7 := LATE_GRANT], []);
    assert Remaining(db, p, 7) == 100;
    assert [LateRow()][0].id == 7;
    assert Ordered([LateRow()]) == [LateRow()] by { assert [LateRow()][..0] == []; }
    assert Balances([LateRow()]) == [100];
  }

  lemma PlannedMidway(w0: World) returns (w: World)
    requires w0 == World(Ledger(map[7 := LATE_GRANT], []), map[0 := Tx(Period(0, 30), LargeCharges(), {}, Held)])
    ensures w == Step(w0, Read(0, [LateRow()])) && w.db == w0.db && w.txs.Keys == {0}
    ensures w.txs[0].period == Period(0, 30) && w.txs[0].rows == {} && w.txs[0].phase.Planned?
    ensures
      var lines := w.txs[0].phase.lines;
      LinesAllowed(lines) && TotalsOf(lines).Some? && UseOf(lines, 7) == 100
  {
    LateRowOffered(Period(0, 30));
    FullLines([LateRow()]);
    FullLinesUse([LateRow()], LateRow());
    PlanFits(w0.db, Period(0, 30), LargeCharges(), [LateRow()], 7);
    w := Step(w0, Read(0, [LateRow()]));
    assert w == Moved(w0, 0, Planned(InvoiceLines(LargeCharges(), [LateRow()]).value));
  }

  lemma RunGlue(w: World, a: seq<Action>, b: Action, c: seq<Action>, d: Action)
    ensures Run(w, a + ([b] + (c + [d]))) == Step(Run(Step(Run(w, a), b), c), d)
  {
    RunConcat(w, a, [b] + (c + [d]));
    RunCons(Run(w, a), b, c + [d]);
    RunConcat(Step(Run(w, a), b), c, [d]);
    RunCons(Run(Step(Run(w, a), b), c), d, []);
  }

  ghost predicate Overspent(w: World, c: CreditId) {
    c in w.db.credits && Used(w.db.invoices, c) > w.db.credits[c].amount as int
  }

  lemma SecondCloseOverspends(w: World, second: seq<Action>)
    requires w.db == Ledger(map[7 := LATE_GRANT], []) && w.txs.Keys == {0}
    requires w.txs[0].period == Period(0, 30) && w.txs[0].rows == {} && w.txs[0].phase.Planned?
    requires
      var lines := w.txs[0].phase.lines;
      LinesAllowed(lines) && TotalsOf(lines).Some? && UseOf(lines, 7) == 100
    requires second == Statements(1, Period(30, 61), LargeCharges(), [LateRow()])
    ensures Overspent(Step(Run(w, second), Commit(0)), 7)
  {
    LateRowOffered(Period(30, 61));
    UnguardedCloseCanOverspend(w, 0, 7, 1, Period(30, 61), [LateRow()]);
  }

  lemma OverspentAfter(start: World, w0: World, first: seq<Action>, second: seq<Action>)
    requires w0 == World(Ledger(map[7 := LATE_GRANT], []), map[0 := Tx(Period(0, 30), LargeCharges(), {}, Held)])
    requires Run(start, first) == w0 && second == Statements(1, Period(30, 61), LargeCharges(), [LateRow()])
    ensures Overspent(Run(start, first + ([Read(0, [LateRow()])] + (second + [Commit(0)]))), 7)
  {
    var w := PlannedMidway(w0);
    SecondCloseOverspends(w, second);
    RunGlue(start, first, Read(0, [LateRow()]), second, Commit(0));
  }

  /** Such states are reached: a credit granted after a close found none to lock,
    * and a second close beside it, spend 100 cents twice. */
  lemma TwoClosesOverspend() returns (actions: seq<Action>)
    ensures Overspent(Run(Fresh(map[]), actions), 7)
  {
    GrantedMidwayState();
    var second := Statements(1, Period(30, 61), LargeCharges(), [LateRow()]);
    actions := GrantedMidway() + ([Read(0, [LateRow()])] + (second + [Commit(0)]));
    OverspentAfter(Fresh(map[]), Run(Fresh(map[]), GrantedMidway()), GrantedMidway(), second);
  }

  lemma {:induction false} RunConcat(w: World, a: seq<Action>, b: seq<Action>)
    ensures Run(w, a + b) == Run(Run(w, a), b)
    decreases |a|
  {
    if a == [] {
      assert a + b == b;
    } else {
      RunConcat(Step(w, a[0]), a[1..], b);
      assert (a + b)[1..] == a[1..] + b;
    }
  }
}
