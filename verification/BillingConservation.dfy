/** What every run of closes, grants, issues and voids keeps of a company's
  * credits and invoices, and where the credit lock falls short.
  */
module BillingConservation {
  import opened Prelude
  import opened Sorting
  import opened BillingPricing
  import opened BillingCredits
  import opened BillingLedger

  // ---- The lines a close plans ----

  lemma DistinctInAnyOrder(a: seq<Credit>, b: seq<Credit>)
    requires DistinctIds(a) && multiset(a) == multiset(b)
    ensures DistinctIds(b)
  {
    forall i, j | 0 <= i < j < |b| ensures b[i].id != b[j].id {
      assert b[i] in multiset(a) && b[j] in multiset(a);
      AtMostOnce(a, b[i]);
      assert b[i] != b[j] by {
        if b[i] == b[j] { Twice(b, i, j); }
      }
    }
  }

  /** The balance of the rows with one id. */
  function BalanceOf(rows: seq<Credit>, c: CreditId): int {
    if rows == [] then 0
    else BalanceOf(rows[..|rows| - 1], c) + if rows[|rows| - 1].id == c then Balance(rows[|rows| - 1]) else 0
  }

  lemma {:induction false} BalanceOfOne(rows: seq<Credit>, c: CreditId)
    requires DistinctIds(rows) && BalanceOf(rows, c) > 0
    ensures exists i :: 0 <= i < |rows| && rows[i].id == c && BalanceOf(rows, c) == rows[i].balance as int
  {
    var n := |rows| - 1;
    if rows[n].id == c {
      NoBalance(rows[..n], c);
    } else {
      BalanceOfOne(rows[..n], c);
      var i :| 0 <= i < n && rows[..n][i].id == c && BalanceOf(rows[..n], c) == rows[..n][i].balance as int;
      assert rows[i].id == c;
    }
  }

  lemma {:induction false} NoBalance(rows: seq<Credit>, c: CreditId)
    requires forall i :: 0 <= i < |rows| ==> rows[i].id != c
    ensures BalanceOf(rows, c) == 0
  {
    if rows != [] {
      NoBalance(rows[..|rows| - 1], c);
    }
  }

  /** Each credit is used within the balance it has. */
  lemma {:induction false} CreditUse(due: int, ordered: seq<Credit>, c: CreditId)
    ensures 0 <= UseOf(LinesOn(due, ordered), c) <= BalanceOf(ordered, c)
  {
    if ordered != [] {
      var n := |ordered| - 1;
      CreditUse(due, ordered[..n], c);
      NextLine(due, ordered, n);
      assert ordered[..n + 1] == ordered;
      OneLineUse(ordered[n], Spend(due - Sum(Spends(due, ordered[..n])), ordered[n]), LinesOn(due, ordered[..n]), c);
    }
  }

  lemma OneLineUse(x: Credit, spend: int, lines: seq<Line>, c: CreditId)
    requires 0 <= spend <= Balance(x)
    ensures
      var more := if spend > 0 then [CreditLineFor(x, spend as int64)] else [];
      UseOf(lines + more, c) == UseOf(lines, c) + if x.id == c then spend else 0
  {
    var more := if spend > 0 then [CreditLineFor(x, spend as int64)] else [];
    UseConcat(lines, more, c);
    assert UseOf(more, c) == if x.id == c then spend else 0;
  }

  /** A planned invoice takes from each credit at most what other invoices leave. */
  lemma PlanFits(db: Ledger, p: Period, charges: seq<Line>, rows: seq<Credit>, c: CreditId)
    requires Charges(charges) && ListsAvailable(db, p, rows) && InvoiceLines(charges, rows).Some?
    ensures
      var use := UseOf(InvoiceLines(charges, rows).value, c);
      && use >= 0
      && (use > 0 ==> rows != [] && c in OfferedIds(db, p) && use <= Remaining(db, p, c))
  {
    var due := TotalsOf(charges).value.subtotal as int;
    var ordered := Ordered(rows);
    OrderedIsSorted(rows);
    DistinctInAnyOrder(rows, ordered);
    UseConcat(charges, CreditLines(due, rows), c);
    ChargesUseNothing(charges, c);
    CreditUse(due, ordered, c);
    if UseOf(LinesOn(due, ordered), c) > 0 {
      BalanceOfOne(ordered, c);
      var i :| 0 <= i < |ordered| && ordered[i].id == c && BalanceOf(ordered, c) == ordered[i].balance as int;
      assert ordered[i] in multiset(rows);
      assert ordered[i] in rows;
    }
  }

  // ---- The invariant ----

  ghost predicate InvoiceOk(credits: map<CreditId, Grant>, x: Invoice) {
    && LinesAllowed(x.lines) && TotalsOf(x.lines) == Some(x.totals)
    && (forall c :: UseOf(x.lines, c) > 0 ==> c in credits)
  }

  /** Every credit is spent within its grant, and every stored total is the sum of
    * its lines. */
  ghost predicate DbOk(db: Ledger) {
    && DistinctPeriods(db.invoices)
    && (forall i :: 0 <= i < |db.invoices| ==> InvoiceOk(db.credits, db.invoices[i]))
    && (forall c :: c in db.credits ==> 0 <= Used(db.invoices, c) <= db.credits[c].amount as int)
  }

  ghost predicate PlanOk(db: Ledger, x: Tx, lines: seq<Line>) {
    forall c :: UseOf(lines, c) > 0 ==>
      x.rows != {} && c in db.credits && UseOf(lines, c) + UsedElsewhere(db.invoices, x.period, c) <= db.credits[c].amount as int
  }

  ghost predicate TxOk(db: Ledger, x: Tx) {
    && x.rows <= db.credits.Keys && Charges(x.charges)
    && (HasInvoiceLock(x) ==> Open(db, x.period))
    && (x.phase.Planned? ==> PlanOk(db, x, x.phase.lines))
  }

  /** Two closes: one saw all the credit rows the other saw, and if both hold
    * theirs then one of them holds none. */
  ghost predicate PairOk(x: Tx, y: Tx) {
    && (x.rows <= y.rows || y.rows <= x.rows)
    && (HasCreditLocks(x) && HasCreditLocks(y) ==> x.rows == {} || y.rows == {})
    && (HasInvoiceLock(x) && HasInvoiceLock(y) ==> x.period != y.period)
  }

  ghost predicate Inv(w: World) {
    && DbOk(w.db)
    && (forall t :: t in w.txs ==> TxOk(w.db, w.txs[t]))
    && (forall t, u :: t in w.txs && u in w.txs && t != u ==> PairOk(w.txs[t], w.txs[u]))
  }

  lemma {:induction false} UseNonNegative(lines: seq<Line>, c: CreditId)
    requires LinesAllowed(lines)
    ensures UseOf(lines, c) >= 0
  {
    if lines != [] {
      UseNonNegative(lines[..|lines| - 1], c);
      assert lines[|lines| - 1] in lines;
    }
  }

  lemma {:induction false} NeverUsed(invoices: seq<Invoice>, c: CreditId)
    requires forall i :: 0 <= i < |invoices| ==> UseOf(invoices[i].lines, c) <= 0 && LinesAllowed(invoices[i].lines)
    ensures Used(invoices, c) == 0
  {
    if invoices != [] {
      var last := invoices[|invoices| - 1];
      UseNonNegative(last.lines, c);
      NeverUsed(invoices[..|invoices| - 1], c);
    }
  }

  lemma {:induction false} ElsewhereNonNegative(invoices: seq<Invoice>, p: Period, c: CreditId)
    requires forall i :: 0 <= i < |invoices| ==> LinesAllowed(invoices[i].lines)
    ensures UsedElsewhere(invoices, p, c) >= 0
  {
    if invoices != [] {
      UseNonNegative(invoices[|invoices| - 1].lines, c);
      ElsewhereNonNegative(invoices[..|invoices| - 1], p, c);
    }
  }

  // ---- Changes to one invoice ----

  lemma PutKeepsDb(db: Ledger, x: Invoice)
    requires DbOk(db) && InvoiceOk(db.credits, x)
    requires forall c :: c in db.credits && InvoiceUse(x, c) > OldUse(db.invoices, x.period, c) ==>
      InvoiceUse(x, c) + UsedElsewhere(db.invoices, x.period, c) <= db.credits[c].amount as int
    ensures DbOk(db.(invoices := Put(db.invoices, x)))
  {
    PutFind(db.invoices, x, x.period);
    forall c | c in db.credits ensures 0 <= Used(Put(db.invoices, x), c) <= db.credits[c].amount as int {
      PutUse(db.invoices, x, x.period, c);
      ElsewhereNonNegative(db.invoices, x.period, c);
      UseNonNegative(x.lines, c);
    }
  }

  lemma PutKeepsTx(db: Ledger, x: Invoice, y: Tx)
    requires DbOk(db) && TxOk(db, y) && (HasInvoiceLock(y) ==> y.period != x.period)
    requires y.phase.Planned? ==> forall c :: UseOf(y.phase.lines, c) > 0 ==> InvoiceUse(x, c) <= OldUse(db.invoices, x.period, c)
    ensures TxOk(db.(invoices := Put(db.invoices, x)), y)
  {
    PutFind(db.invoices, x, y.period);
    if y.phase.Planned? {
      forall c | UseOf(y.phase.lines, c) > 0
        ensures UseOf(y.phase.lines, c) + UsedElsewhere(Put(db.invoices, x), y.period, c) <= db.credits[c].amount as int
      {
        PutUse(db.invoices, x, y.period, c);
      }
    }
  }

  // ---- One step ----

  /** The guard: a close that found no credit row to lock finds none to spend.
    * A close that breaks it read a credit granted after its lock statement. */
  ghost predicate Guarded(w: World, a: Action) {
    a.Read? && Enabled(w, a) && w.txs[a.t].rows == {} ==> a.available == []
  }

  lemma AddCreditKeeps(w: World, id: CreditId, grant: Grant)
    requires Inv(w) && Enabled(w, AddCredit(id, grant))
    ensures Inv(Step(w, AddCredit(id, grant)))
  {
    NeverUsed(w.db.invoices, id);
    var db := w.db.(credits := w.db.credits[id := grant]);
    assert DbOk(db);
    forall t | t in w.txs ensures TxOk(db, w.txs[t]) {
      assert TxOk(w.db, w.txs[t]);
    }
  }

  lemma BeginKeeps(w: World, t: nat, p: Period, charges: seq<Line>)
    requires Inv(w) && Enabled(w, Begin(t, p, charges))
    ensures Inv(Step(w, Begin(t, p, charges)))
  {
  }

  lemma LockKeeps(w: World, t: nat, a: Action)
    requires Inv(w) && Enabled(w, a) && (a == LockCredits(t) || a == LockInvoice(t))
    ensures Inv(Step(w, a))
  {
    var w' := Step(w, a);
    var x := w.txs[t];
    assert TxOk(w.db, x);
    forall u, v | u in w'.txs && v in w'.txs && u != v ensures PairOk(w'.txs[u], w'.txs[v]) {
      assert PairOk(w.txs[u], w.txs[v]);
    }
  }

  lemma ReadKeeps(w: World, t: nat, available: seq<Credit>)
    requires Inv(w) && Enabled(w, Read(t, available)) && Guarded(w, Read(t, available))
    ensures Inv(Step(w, Read(t, available)))
  {
    var w' := Step(w, Read(t, available));
    var x := w.txs[t];
    assert TxOk(w.db, x);
    if InvoiceLines(x.charges, available).Some? {
      var lines := InvoiceLines(x.charges, available).value;
      forall c | UseOf(lines, c) > 0
        ensures x.rows != {} && c in w.db.credits && UseOf(lines, c) + UsedElsewhere(w.db.invoices, x.period, c) <= w.db.credits[c].amount as int
      {
        PlanFits(w.db, x.period, x.charges, available, c);
      }
      assert TxOk(w.db, w'.txs[t]);
    }
    forall u, v | u in w'.txs && v in w'.txs && u != v ensures PairOk(w'.txs[u], w'.txs[v]) {
      assert PairOk(w.txs[u], w.txs[v]);
    }
  }

  lemma CommitKeepsDb(w: World, t: nat)
    requires Inv(w) && Enabled(w, Commit(t))
    ensures DbOk(Step(w, Commit(t)).db)
  {
    var x := w.txs[t];
    var lines := x.phase.lines;
    assert TxOk(w.db, x);
    if TotalsOf(lines).Some? && LinesAllowed(lines) {
      forall c ensures OldUse(w.db.invoices, x.period, c) >= 0 && UseOf(lines, c) >= 0 {
        UseNonNegative(lines, c);
        var i := Find(w.db.invoices, x.period);
        if i < |w.db.invoices| { UseNonNegative(w.db.invoices[i].lines, c); }
      }
      PutKeepsDb(w.db, Invoice(x.period, Draft, lines, TotalsOf(lines).value));
    }
  }

  lemma CommitKeepsTx(w: World, t: nat, u: nat)
    requires Inv(w) && Enabled(w, Commit(t)) && u in w.txs && u != t
    ensures TxOk(Step(w, Commit(t)).db, w.txs[u])
  {
    var x, y := w.txs[t], w.txs[u];
    var lines := x.phase.lines;
    assert TxOk(w.db, x) && TxOk(w.db, y) && PairOk(x, y);
    if TotalsOf(lines).Some? && LinesAllowed(lines) {
      forall c ensures OldUse(w.db.invoices, x.period, c) >= 0 && UseOf(lines, c) >= 0 {
        UseNonNegative(lines, c);
        var i := Find(w.db.invoices, x.period);
        if i < |w.db.invoices| { UseNonNegative(w.db.invoices[i].lines, c); }
      }
      PutKeepsTx(w.db, Invoice(x.period, Draft, lines, TotalsOf(lines).value), y);
    }
  }

  lemma CommitKeeps(w: World, t: nat)
    requires Inv(w) && Enabled(w, Commit(t))
    ensures Inv(Step(w, Commit(t)))
  {
    CommitKeepsDb(w, t);
    forall u | u in w.txs && u != t ensures TxOk(Step(w, Commit(t)).db, w.txs[u]) {
      CommitKeepsTx(w, t, u);
    }
  }

  lemma StatusKeeps(w: World, p: Period, from: set<Status>, to: Status)
    requires Inv(w) && InvoiceFree(w, p) && ((from == {Draft} && to == Issued) || (from == {Draft, Issued} && to == Void))
    ensures Inv(w.(db := SetStatus(w.db, p, from, to)))
  {
    var i := Find(w.db.invoices, p);
    if i < |w.db.invoices| && w.db.invoices[i].status in from {
      var x := w.db.invoices[i].(status := to);
      forall c ensures InvoiceUse(x, c) <= OldUse(w.db.invoices, p, c) {
        UseNonNegative(x.lines, c);
      }
      PutKeepsDb(w.db, x);
      forall t | t in w.txs ensures TxOk(SetStatus(w.db, p, from, to), w.txs[t]) {
        PutKeepsTx(w.db, x, w.txs[t]);
      }
    }
  }

  lemma InvStep(w: World, a: Action)
    requires Inv(w) && Guarded(w, a)
    ensures Inv(Step(w, a))
  {
    if Enabled(w, a) {
      match a
      case AddCredit(id, grant) => AddCreditKeeps(w, id, grant);
      case Begin(t, p, charges) => BeginKeeps(w, t, p, charges);
      case LockCredits(t) => LockKeeps(w, t, a);
      case LockInvoice(t) => LockKeeps(w, t, a);
      case Read(t, available) => ReadKeeps(w, t, available);
      case Commit(t) => CommitKeeps(w, t);
      case Abort(t) =>
      case Issue(p) => StatusKeeps(w, p, {Draft}, Issued);
      case VoidInvoice(p) => StatusKeeps(w, p, {Draft, Issued}, Void);
    }
  }
}
