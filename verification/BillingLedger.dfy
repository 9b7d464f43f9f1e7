/** One company's credits and invoices, and every way of changing them: granting
  * a credit, closing a period, issuing and voiding an invoice.
  *
  * A close is a transaction of several statements; an action below is one
  * statement of one transaction, so a run is any interleaving of closes.
  */
module BillingLedger {
  import opened Prelude
  import opened BillingPricing
  import opened BillingCredits

  datatype Grant = Grant(amount: int64, granted: int, expires: Option<int>)
  /** A calendar month: its first instant and the next month's. */
  datatype Period = Period(start: int, end: int)
  datatype Status = Draft | Issued | Void
  datatype Invoice = Invoice(period: Period, status: Status, lines: seq<Line>, totals: Totalled)
  datatype Ledger = Ledger(credits: map<CreditId, Grant>, invoices: seq<Invoice>)

  /** The place of a period's invoice, or the end. */
  function Find(invoices: seq<Invoice>, p: Period): (i: nat)
    ensures i <= |invoices| && (i < |invoices| ==> invoices[i].period == p)
    ensures forall j :: 0 <= j < i ==> invoices[j].period != p
    decreases |invoices|
  {
    if invoices == [] || invoices[0].period == p then 0 else 1 + Find(invoices[1..], p)
  }

  /** What the lines take from a credit. */
  function UseOf(lines: seq<Line>, c: CreditId): int {
    if lines == [] then 0
    else UseOf(lines[..|lines| - 1], c) - if lines[|lines| - 1].credit == Some(c) then lines[|lines| - 1].amount as int else 0
  }

  function InvoiceUse(i: Invoice, c: CreditId): int { if i.status == Void then 0 else UseOf(i.lines, c) }

  /** What all invoices that are not void take from a credit. */
  function Used(invoices: seq<Invoice>, c: CreditId): int {
    if invoices == [] then 0
    else Used(invoices[..|invoices| - 1], c) + InvoiceUse(invoices[|invoices| - 1], c)
  }

  function UsedElsewhere(invoices: seq<Invoice>, p: Period, c: CreditId): int {
    if invoices == [] then 0
    else
      var last := invoices[|invoices| - 1];
      UsedElsewhere(invoices[..|invoices| - 1], p, c) + if last.period == p then 0 else InvoiceUse(last, c)
  }

  // ---- availableCredits ----

  predicate Applicable(g: Grant, p: Period) { g.granted < p.end && (g.expires.Some? ==> g.expires.value > p.start) }

  function Remaining(db: Ledger, p: Period, c: CreditId): int
    requires c in db.credits
  {
    db.credits[c].amount as int - UsedElsewhere(db.invoices, p, c)
  }

  function OfferedIds(db: Ledger, p: Period): set<CreditId> {
    set c | c in db.credits && Applicable(db.credits[c], p) && Remaining(db, p, c) > 0
  }

  /** The query's rows, in whatever order it returns them. */
  ghost predicate ListsAvailable(db: Ledger, p: Period, rows: seq<Credit>) {
    && DistinctIds(rows)
    && (forall r :: r in rows ==> r.id in OfferedIds(db, p))
    && (forall c :: c in OfferedIds(db, p) ==> exists i :: 0 <= i < |rows| && rows[i].id == c)
    && (forall r :: r in rows ==>
          && r.balance as int == Remaining(db, p, r.id)
          && r.granted == db.credits[r.id].granted && r.expires == db.credits[r.id].expires)
  }

  // ---- Writing a draft ----

  predicate IsCharge(l: Line) { l.kind != CreditLine && l.credit == None }
  predicate Charges(lines: seq<Line>) { forall l :: l in lines ==> IsCharge(l) }

  /** The schema's check on every line. */
  predicate LinesAllowed(lines: seq<Line>) {
    forall l :: l in lines ==> (l.kind == CreditLine <==> l.credit.Some?) && if l.kind == CreditLine then l.amount < 0 else l.amount >= 0
  }

  /** Replaces a draft's lines and totals, or adds the invoice. A rejected line or
    * total rolls everything back. */
  function Stored(db: Ledger, p: Period, lines: seq<Line>): Ledger {
    if TotalsOf(lines).None? || !LinesAllowed(lines) then db
    else
      var invoice := Invoice(p, Draft, lines, TotalsOf(lines).value);
      db.(invoices := Put(db.invoices, invoice))
  }

  /** Replaces the invoice of the same period, or adds one. */
  function Put(invoices: seq<Invoice>, x: Invoice): seq<Invoice> {
    var i := Find(invoices, x.period);
    if i < |invoices| then invoices[i := x] else invoices + [x]
  }

  predicate Open(db: Ledger, p: Period) {
    var i := Find(db.invoices, p);
    i < |db.invoices| ==> db.invoices[i].status == Draft
  }

  /** A close that runs alone. */
  function Closed(db: Ledger, p: Period, charges: seq<Line>, rows: seq<Credit>): Ledger {
    if !Open(db, p) || InvoiceLines(charges, rows).None? then db
    else Stored(db, p, InvoiceLines(charges, rows).value)
  }

  // ---- The machine ----

  datatype Phase = Begun | Locked | Held | Planned(lines: seq<Line>)
  /** A close: the credit rows its first statement sees and then locks, and how
    * far it is. */
  datatype Tx = Tx(period: Period, charges: seq<Line>, rows: set<CreditId>, phase: Phase)
  datatype World = World(db: Ledger, txs: map<nat, Tx>)

  datatype Action =
    | AddCredit(id: CreditId, grant: Grant)
    | Begin(t: nat, period: Period, charges: seq<Line>)
    | LockCredits(t: nat)
    | LockInvoice(t: nat)
    | Read(t: nat, available: seq<Credit>)
    | Commit(t: nat)
    | Abort(t: nat)
    | Issue(period: Period)
    | VoidInvoice(period: Period)

  predicate HasCreditLocks(x: Tx) { x.phase != Begun }
  predicate HasInvoiceLock(x: Tx) { x.phase == Held || x.phase.Planned? }
  predicate InvoiceFree(w: World, p: Period) { forall u :: u in w.txs && HasInvoiceLock(w.txs[u]) ==> w.txs[u].period != p }

  predicate In(w: World, t: nat, phase: Phase) { t in w.txs && w.txs[t].phase == phase }

  ghost predicate Enabled(w: World, a: Action) {
    match a
    case AddCredit(id, grant) => id !in w.db.credits && grant.amount > 0
    case Begin(t, p, charges) => t !in w.txs && Charges(charges)
    case LockCredits(t) =>
      In(w, t, Begun) && forall u :: u in w.txs && u != t && HasCreditLocks(w.txs[u]) ==> w.txs[u].rows !! w.txs[t].rows
    case LockInvoice(t) => In(w, t, Locked) && InvoiceFree(w, w.txs[t].period)
    case Read(t, available) => In(w, t, Held) && ListsAvailable(w.db, w.txs[t].period, available)
    case Commit(t) => t in w.txs && w.txs[t].phase.Planned?
    case Abort(t) => t in w.txs
    case Issue(p) => InvoiceFree(w, p)
    case VoidInvoice(p) => InvoiceFree(w, p)
  }

  function Moved(w: World, t: nat, phase: Phase): World
    requires t in w.txs
  {
    w.(txs := w.txs[t := w.txs[t].(phase := phase)])
  }

  function Ended(w: World, t: nat): World { w.(txs := w.txs - {t}) }

  function SetStatus(db: Ledger, p: Period, from: set<Status>, to: Status): Ledger {
    var i := Find(db.invoices, p);
    if i < |db.invoices| && db.invoices[i].status in from then db.(invoices := Put(db.invoices, db.invoices[i].(status := to)))
    else db
  }

  ghost function Step(w: World, a: Action): World {
    if !Enabled(w, a) then w else
    match a
    case AddCredit(id, grant) => w.(db := w.db.(credits := w.db.credits[id := grant]))
    case Begin(t, p, charges) => w.(txs := w.txs[t := Tx(p, charges, w.db.credits.Keys, Begun)])
    case LockCredits(t) => Moved(w, t, Locked)
    case LockInvoice(t) => if Open(w.db, w.txs[t].period) then Moved(w, t, Held) else Ended(w, t)
    case Read(t, available) =>
      var lines := InvoiceLines(w.txs[t].charges, available);
      if lines.Some? then Moved(w, t, Planned(lines.value)) else Ended(w, t)
    case Commit(t) => Ended(w, t).(db := Stored(w.db, w.txs[t].period, w.txs[t].phase.lines))
    case Abort(t) => Ended(w, t)
    case Issue(p) => w.(db := SetStatus(w.db, p, {Draft}, Issued))
    case VoidInvoice(p) => w.(db := SetStatus(w.db, p, {Draft, Issued}, Void))
  }

  ghost function Run(w: World, actions: seq<Action>): World
    decreases |actions|
  {
    if actions == [] then w else Run(Step(w, actions[0]), actions[1..])
  }

  // ---- Sums ----

  lemma {:induction false} UseConcat(a: seq<Line>, b: seq<Line>, c: CreditId)
    ensures UseOf(a + b, c) == UseOf(a, c) + UseOf(b, c)
  {
    if b == [] {
      assert a + b == a;
    } else {
      UseConcat(a, b[..|b| - 1], c);
      assert (a + b)[..|a + b| - 1] == a + b[..|b| - 1];
    }
  }

  lemma {:induction false} ChargesUseNothing(lines: seq<Line>, c: CreditId)
    requires Charges(lines)
    ensures UseOf(lines, c) == 0
  {
    if lines != [] {
      ChargesUseNothing(lines[..|lines| - 1], c);
      assert lines[|lines| - 1] in lines;
    }
  }

  ghost predicate DistinctPeriods(invoices: seq<Invoice>) {
    forall i, j :: 0 <= i < j < |invoices| ==> invoices[i].period != invoices[j].period
  }

  lemma {:induction false} ElsewhereWhenAbsent(invoices: seq<Invoice>, p: Period, c: CreditId)
    requires forall i :: 0 <= i < |invoices| ==> invoices[i].period != p
    ensures UsedElsewhere(invoices, p, c) == Used(invoices, c)
  {
    if invoices != [] {
      ElsewhereWhenAbsent(invoices[..|invoices| - 1], p, c);
    }
  }

  /** All use is the use of one period's invoice and the use elsewhere. */
  lemma {:induction false} UsedSplits(invoices: seq<Invoice>, i: nat, c: CreditId)
    requires i < |invoices| && DistinctPeriods(invoices)
    ensures Used(invoices, c) == UsedElsewhere(invoices, invoices[i].period, c) + InvoiceUse(invoices[i], c)
  {
    var n := |invoices| - 1;
    if i == n {
      ElsewhereWhenAbsent(invoices[..n], invoices[n].period, c);
    } else {
      UsedSplits(invoices[..n], i, c);
    }
  }

  /** What happens to one period's invoice is not seen elsewhere in that period. */
  lemma {:induction false} ElsewhereIgnoresOwn(invoices: seq<Invoice>, i: nat, x: Invoice, c: CreditId)
    requires i < |invoices| && x.period == invoices[i].period
    ensures UsedElsewhere(invoices[i := x], x.period, c) == UsedElsewhere(invoices, x.period, c)
  {
    var n := |invoices| - 1;
    if i == n {
      assert invoices[i := x][..n] == invoices[..n];
    } else {
      ElsewhereIgnoresOwn(invoices[..n], i, x, c);
      assert invoices[i := x][..n] == invoices[..n][i := x];
    }
  }

  lemma {:induction false} ElsewhereSeesOthers(invoices: seq<Invoice>, i: nat, x: Invoice, q: Period, c: CreditId)
    requires i < |invoices| && x.period == invoices[i].period != q
    ensures UsedElsewhere(invoices[i := x], q, c) == UsedElsewhere(invoices, q, c) - InvoiceUse(invoices[i], c) + InvoiceUse(x, c)
  {
    var n := |invoices| - 1;
    if i == n {
      assert invoices[i := x][..n] == invoices[..n];
    } else {
      ElsewhereSeesOthers(invoices[..n], i, x, q, c);
      assert invoices[i := x][..n] == invoices[..n][i := x];
    }
  }

  function OldUse(invoices: seq<Invoice>, p: Period, c: CreditId): int {
    var i := Find(invoices, p);
    if i < |invoices| then InvoiceUse(invoices[i], c) else 0
  }

  lemma PutUse(invoices: seq<Invoice>, x: Invoice, q: Period, c: CreditId)
    requires DistinctPeriods(invoices)
    ensures Used(Put(invoices, x), c) == UsedElsewhere(invoices, x.period, c) + InvoiceUse(x, c)
    ensures Used(invoices, c) == UsedElsewhere(invoices, x.period, c) + OldUse(invoices, x.period, c)
    ensures UsedElsewhere(Put(invoices, x), x.period, c) == UsedElsewhere(invoices, x.period, c)
    ensures q != x.period ==> UsedElsewhere(Put(invoices, x), q, c) == UsedElsewhere(invoices, q, c) - OldUse(invoices, x.period, c) + InvoiceUse(x, c)
  {
    var i := Find(invoices, x.period);
    if i < |invoices| {
      UsedSplits(invoices, i, c);
      ElsewhereIgnoresOwn(invoices, i, x, c);
      UsedSplits(invoices[i := x], i, c);
      if q != x.period {
        ElsewhereSeesOthers(invoices, i, x, q, c);
      }
    } else {
      assert (invoices + [x])[..|invoices|] == invoices;
      ElsewhereWhenAbsent(invoices, x.period, c);
    }
  }

  lemma FindIs(invoices: seq<Invoice>, q: Period, i: nat)
    requires i <= |invoices| && (i < |invoices| ==> invoices[i].period == q)
    requires forall j :: 0 <= j < i ==> invoices[j].period != q
    ensures Find(invoices, q) == i
  {
  }

  lemma PutFind(invoices: seq<Invoice>, x: Invoice, q: Period)
    requires DistinctPeriods(invoices)
    ensures DistinctPeriods(Put(invoices, x))
    ensures
      var i, j := Find(invoices, q), Find(Put(invoices, x), q);
      if q == x.period then j < |Put(invoices, x)| && Put(invoices, x)[j] == x
      else (i < |invoices| <==> j < |Put(invoices, x)|) && (i < |invoices| ==> i == j && Put(invoices, x)[j] == invoices[i])
  {
    var i, k := Find(invoices, q), Find(invoices, x.period);
    if q == x.period {
      FindIs(Put(invoices, x), q, k);
    } else if i < |invoices| {
      FindIs(Put(invoices, x), q, i);
    } else {
      FindIs(Put(invoices, x), q, |Put(invoices, x)|);
    }
  }
}
