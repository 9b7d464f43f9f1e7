/** The transaction that writes a draft, statement by statement. */
module BillingWrite {
  import opened Prelude
  import opened BillingPricing
  import opened BillingCredits
  import opened BillingLedger

  datatype Outcome = Created | Recomputed | Final | Failed

  /** The lines closeCompany computes from the credits it is given. */
  method ComputeLines(charges: seq<Line>, rows: seq<Credit>) returns (lines: Option<seq<Line>>)
    ensures lines == InvoiceLines(charges, rows)
  {
    var charged := Totals(charges);
    if charged.None? {
      return None;
    }
    var applied := ApplyCredits(charged.value.subtotal, rows);
    lines := Some(charges + applied);
  }

  /** Inserts line after line until the schema rejects one. */
  method InsertLines(lines: seq<Line>) returns (allowed: bool)
    ensures allowed <==> LinesAllowed(lines)
  {
    for k := 0 to |lines|
      invariant LinesAllowed(lines[..k])
    {
      var line := lines[k];
      assert line in lines;
      if (line.kind == CreditLine) != line.credit.Some? || (if line.kind == CreditLine then line.amount >= 0 else line.amount < 0) {
        return false;
      }
    }
    assert lines[..|lines|] == lines;
    return true;
  }

  class BillingStore {
    var credits: map<CreditId, Grant>
    var invoices: seq<Invoice>

    function Contents(): Ledger
      reads this
    {
      Ledger(credits, invoices)
    }

    constructor ()
      ensures Contents() == Ledger(map[], [])
    {
      credits, invoices := map[], [];
    }

    /** The row of a period's invoice. */
    method Lookup(p: Period) returns (i: nat)
      ensures i == Find(invoices, p)
    {
      i := 0;
      while i < |invoices| && invoices[i].period != p
        invariant i <= |invoices| && forall j :: 0 <= j < i ==> invoices[j].period != p
      {
        i := i + 1;
      }
      FindIs(invoices, p, i);
    }

    /** Creates or recomputes a period's draft; an issued or void invoice is left
      * alone, and a failure rolls everything back. `rows` is what the credit
      * query returns. */
    method WriteDraft(p: Period, charges: seq<Line>, rows: seq<Credit>) returns (outcome: Outcome)
      modifies this`invoices
      ensures Contents() == Closed(old(Contents()), p, charges, rows)
      ensures outcome == Final <==> !Open(old(Contents()), p)
      ensures outcome.Final? || outcome.Failed? ==> invoices == old(invoices)
      ensures outcome.Created? ==> Find(old(invoices), p) == |old(invoices)| && |invoices| == |old(invoices)| + 1
      ensures outcome.Recomputed? ==> Find(old(invoices), p) < |old(invoices)| == |invoices|
      ensures outcome.Created? || outcome.Recomputed? ==> InvoiceLines(charges, rows).Some? && LinesAllowed(InvoiceLines(charges, rows).value)
    {
      var i := Lookup(p);
      if i < |invoices| && invoices[i].status != Draft {
        return Final;
      }
      var lines := ComputeLines(charges, rows);
      if lines.None? {
        return Failed;
      }
      var totals := Totals(lines.value);
      if totals.None? {
        return Failed;
      }
      var allowed := InsertLines(lines.value);
      if !allowed {
        return Failed;
      }
      var invoice := Invoice(p, Draft, lines.value, totals.value);
      if i < |invoices| {
        invoices := invoices[i := invoice];
        outcome := Recomputed;
      } else {
        invoices := invoices + [invoice];
        outcome := Created;
      }
    }

    /** Only a draft can be issued. */
    method IssueInvoice(p: Period) returns (ok: bool)
      modifies this`invoices
      ensures Contents() == SetStatus(old(Contents()), p, {Draft}, Issued)
      ensures ok <==> Find(old(invoices), p) < |old(invoices)| && old(invoices)[Find(old(invoices), p)].status == Draft
      ensures !ok ==> invoices == old(invoices)
    {
      var i := Lookup(p);
      ok := i < |invoices| && invoices[i].status == Draft;
      if ok {
        invoices := invoices[i := invoices[i].(status := Issued)];
      }
    }
  }
}
