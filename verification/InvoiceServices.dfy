/** The credits and invoices services, updating the tables step by step inside transactions. */
module InvoiceServices {
  import opened Options
  import opened BillingState
  import opened BillingHandlers
  import opened Database
  import opened LineItems

  /** The invoice with a line added and a new total, as the credit step writes it. */
  function WithCreditLine(inv: Invoice, applied: int, total: int): Invoice {
    inv.(total := total, lines := inv.lines + [LineItem(CreditLine, -applied, 1)])
  }

  /** The tables after the settlement steps are the settled tables. */
  lemma SettledAs(db: Db, i: InvoiceId, b: int, terms: Terms, after: Db)
    requires i in db.invoices && b == Balance(db, db.invoices[i].customer)
    requires var inv := db.invoices[i];
             var r := ApplyCreditAndSurcharge(Stripped(inv.lines), inv.total - SurchargeOn(inv.lines), b, terms);
             && r.Some?
             && after.invoices == db.invoices[i := inv.(
                  lines := r.value.lines, total := r.value.total,
                  status := if r.value.total == 0 then Paid else Finalized)]
             && after.balances == (if b == 0 then db.balances else db.balances[inv.customer := b - r.value.applied])
             && after.ledger == db.ledger + CreditEntries(i, r.value.applied) + InvoiceEntries(i, r.value.total)
             && after == db.(invoices := after.invoices, balances := after.balances, ledger := after.ledger)
    ensures Settle(db.invoices[i].lines, db.invoices[i].total, b, terms).Some?
    ensures after == Settled(db, i, Settle(db.invoices[i].lines, db.invoices[i].total, b, terms).value)
  {
    hide LineTotal, OfType, Stripped, FinalFee;
  }

  /** The same for an invoice created with one line for its amount in the transaction that settles it. */
  lemma BilledAs(db: Db, i: InvoiceId, c: CustomerId, sub: SubscriptionId, amount: int, terms: Terms, after: Db)
    requires i !in db.invoices
    requires var inv, b := SubscriptionInvoice(c, sub, amount), Balance(db, c);
             var r := ApplyCreditAndSurcharge(inv.lines, amount, b, terms);
             && r.Some?
             && after.invoices == db.invoices[i := inv.(
                  lines := r.value.lines, total := r.value.total,
                  status := if r.value.total == 0 then Paid else Finalized)]
             && after.balances == (if b == 0 then db.balances else db.balances[c := b - r.value.applied])
             && after.ledger == db.ledger + CreditEntries(i, r.value.applied) + InvoiceEntries(i, r.value.total)
             && after == db.(invoices := after.invoices, balances := after.balances, ledger := after.ledger)
    ensures after == BillSubscription(db, i, c, sub, amount, terms)
  {
    hide LineTotal, OfType, Stripped, FinalFee, ApplyCreditAndSurcharge, SurchargeOn, Settled;
    PlainLineStripsToItself(amount);
    SettledAs(WithDraft(db, i, SubscriptionInvoice(c, sub, amount)), i, Balance(db, c), terms, after);
  }

  /** Nothing is billed when the ledger refuses. */
  lemma NotBilled(db: Db, i: InvoiceId, c: CustomerId, sub: SubscriptionId, amount: int, terms: Terms)
    requires ApplyCreditAndSurcharge(SubscriptionInvoice(c, sub, amount).lines, amount, Balance(db, c), terms).None?
    ensures BillSubscription(db, i, c, sub, amount, terms) == db
  {
    hide LineTotal, OfType, Stripped, ApplyCreditAndSurcharge, SurchargeOn;
    PlainLineStripsToItself(amount);
  }

  lemma PlainLineStripsToItself(amount: int)
    ensures var lines := [LineItem(OtherLine, amount, 1)];
            Stripped(lines) == lines && SurchargeOn(lines) == 0
  {
    NoneOfType([LineItem(OtherLine, amount, 1)], SurchargeLine);
  }

  lemma TypeTotalAppend(lines: seq<LineItem>, l: LineItem, kind: LineType)
    ensures LineTotal(OfType(lines + [l], kind))
            == LineTotal(OfType(lines, kind)) + if l.kind == kind then l.amount * l.quantity else 0
  {
    var before := OfType(lines, kind);
    assert (lines + [l])[..|lines|] == lines;
    if l.kind == kind { assert (before + [l])[..|before|] == before; } else { assert before + [] == before; }
  }

  class CreditsService {
    const db: Tables
    const ledger: LedgerService

    constructor (db: Tables, ledger: LedgerService)
      requires ledger.db == db
      ensures this.db == db && this.ledger == ledger
    {
      this.db := db;
      this.ledger := ledger;
    }

    /** Applies the customer's balance to an invoice of the given subtotal; None when the ledger throws,
        and then the surrounding transaction rolls back. */
    method ApplyCreditsToInvoice(i: InvoiceId, subtotal: int) returns (r: Option<(int, int)>)
      requires ledger.db == db && i in db.invoices
      modifies db`invoices, db`balances, db`ledger
      ensures var b := old(Balance(db.Snapshot(), db.invoices[i].customer));
              var applied := CreditToApply(b, subtotal);
              && (r.None? <==> b != 0 && applied <= 0)
              && (r.Some? ==> r.value == (applied, subtotal - applied))
              && (b == 0 ==> unchanged(db))
              && (r.Some? && b != 0 ==>
                    && db.invoices == old(db.invoices)[i := WithCreditLine(old(db.invoices)[i], applied, subtotal - applied)]
                    && db.balances == old(db.balances)[old(db.invoices)[i].customer := b - applied]
                    && db.ledger == old(db.ledger) + CreditEntries(i, applied))
    {
      var inv := db.invoices[i];
      if inv.customer !in db.balances || db.balances[inv.customer] == 0 {
        return Some((0, subtotal));
      }
      var balance := db.balances[inv.customer];
      var applied := if balance <= subtotal then balance else subtotal;
      var newTotal := subtotal - applied;
      inv := inv.(lines := inv.lines + [LineItem(CreditLine, -applied, 1)]);
      inv := inv.(total := newTotal);
      db.invoices := db.invoices[i := inv];
      db.balances := db.balances[inv.customer := balance - applied];
      var posted := ledger.RecordCreditApplied(i, applied);
      if !posted { return None; }
      return Some((applied, newTotal));
    }

    method IssueCreditNote(n: NoteId, known: bool, c: CustomerId, invoice: Option<InvoiceId>, amount: int)
      requires ledger.db == db && n !in db.notes
      modifies db
      ensures db.Snapshot() == BillingHandlers.IssueCreditNote(old(db.Snapshot()), n, known, c, invoice, amount)
    {
      if !known { return; }
      if invoice.Some? {
        if invoice.value !in db.invoices || db.invoices[invoice.value].customer != c { return; }
        if amount > db.invoices[invoice.value].total { return; }
      }
      var saved := db.Snapshot();
      db.notes := db.notes[n := Note(c, amount)];
      if c in db.balances {
        db.balances := db.balances[c := db.balances[c] + amount];
      } else {
        db.balances := db.balances[c := amount];
      }
      var posted;
      if amount >= 0 {
        posted := ledger.RecordCreditNoteIssued(n, amount);
      } else {
        posted := ledger.RecordCreditNoteReversed(n, -amount);
      }
      if !posted { db.Restore(saved); }
    }
  }

  class InvoicesService {
    const db: Tables
    const ledger: LedgerService
    const credits: CreditsService

    ghost predicate Wired() {
      ledger.db == db && credits.db == db && credits.ledger == ledger
    }

    constructor (db: Tables, ledger: LedgerService, credits: CreditsService)
      requires ledger.db == db && credits.db == db && credits.ledger == ledger
      ensures Wired() && this.db == db && this.ledger == ledger && this.credits == credits
    {
      this.db := db;
      this.ledger := ledger;
      this.credits := credits;
    }

    /** The sum of the lines of one type. */
    method SumOfType(lines: seq<LineItem>, kind: LineType) returns (sum: int)
      ensures sum == LineTotal(OfType(lines, kind))
    {
      sum := 0;
      assert LineTotal(OfType([], kind)) == 0;
      hide LineTotal, OfType;
      for n := 0 to |lines|
        invariant sum == LineTotal(OfType(lines[..n], kind))
      {
        assert lines[..n + 1] == lines[..n] + [lines[n]];
        TypeTotalAppend(lines[..n], lines[n], kind);
        if lines[n].kind == kind { sum := sum + lines[n].amount * lines[n].quantity; }
      }
      assert lines[..|lines|] == lines;
    }

    method WithoutType(lines: seq<LineItem>, kind: LineType) returns (kept: seq<LineItem>)
      ensures kept == NotOfType(lines, kind)
    {
      kept := [];
      for n := 0 to |lines|
        invariant kept == NotOfType(lines[..n], kind)
      {
        assert lines[..n + 1][..n] == lines[..n];
        if lines[n].kind != kind { kept := kept + [lines[n]]; }
      }
      assert lines[..|lines|] == lines;
    }

    /** Deletes the lines of one type. */
    method DeleteLinesOfType(i: InvoiceId, kind: LineType)
      requires i in db.invoices
      modifies db`invoices
      ensures db.invoices == old(db.invoices)[i := old(db.invoices[i]).(lines := NotOfType(old(db.invoices[i]).lines, kind))]
    {
      var kept := WithoutType(db.invoices[i].lines, kind);
      db.invoices := db.invoices[i := db.invoices[i].(lines := kept)];
    }

    method StripExistingSurchargeLineItems(i: InvoiceId) returns (removed: int)
      requires i in db.invoices
      modifies db`invoices
      ensures removed == SurchargeOn(old(db.invoices[i]).lines)
      ensures db.invoices == old(db.invoices)[i := old(db.invoices[i]).(lines := Stripped(old(db.invoices[i]).lines))]
    {
      removed := SumOfType(db.invoices[i].lines, SurchargeLine);
      if removed > 0 { DeleteLinesOfType(i, SurchargeLine); }
    }

    /** Applies credit to the subtotal, then charges the surcharge on what is left; None when the ledger
        throws. The row keeps whatever total the credit step wrote. */
    method ApplyCreditsAndSurcharge(i: InvoiceId, subtotal: int, terms: Terms) returns (r: Option<(int, int)>)
      requires Wired() && i in db.invoices
      modifies db`invoices, db`balances, db`ledger
      ensures var b := old(Balance(db.Snapshot(), db.invoices[i].customer));
              var inv := old(db.invoices[i]);
              var s := BillingHandlers.ApplyCreditAndSurcharge(inv.lines, subtotal, b, terms);
              && (r.None? <==> s.None?)
              && (r.Some? ==>
                    && r.value == (s.value.applied, s.value.total)
                    && i in db.invoices
                    && db.invoices == old(db.invoices)[i := db.invoices[i]]
                    && db.invoices[i] == inv.(lines := s.value.lines, total := db.invoices[i].total)
                    && db.balances == (if b == 0 then old(db.balances) else old(db.balances)[inv.customer := b - s.value.applied])
                    && db.ledger == old(db.ledger) + CreditEntries(i, s.value.applied))
    {
      ghost var inv := db.invoices[i];
      ghost var b := Balance(db.Snapshot(), inv.customer);
      var credit := credits.ApplyCreditsToInvoice(i, subtotal);
      if credit.None? { return None; }
      var (applied, due) := credit.value;
      assert db.invoices[i].lines == inv.lines + CreditLines(applied);
      if due <= 0 {
        assert inv.lines + CreditLines(applied) + [] == inv.lines + CreditLines(applied);
        return Some((applied, due));
      }
      var fee := Surcharge(terms, due);
      if fee == 0 {
        assert inv.lines + CreditLines(applied) + [] == inv.lines + CreditLines(applied);
        return Some((applied, due));
      }
      db.invoices := db.invoices[i := db.invoices[i].(lines := db.invoices[i].lines + [LineItem(SurchargeLine, fee, 1)])];
      return Some((applied, due + fee));
    }

    /** Writes the final total and status, and the receivable. */
    method CloseInvoice(i: InvoiceId, total: int)
      requires Wired() && i in db.invoices
      modifies db`invoices, db`ledger
      ensures db.invoices == old(db.invoices)[i := old(db.invoices[i]).(
                status := if total == 0 then Paid else Finalized, total := total)]
      ensures db.ledger == old(db.ledger) + InvoiceEntries(i, total)
    {
      db.invoices := db.invoices[i := db.invoices[i].(total := total, status := Finalized)];
      if total > 0 {
        var _ := ledger.RecordInvoiceFinalized(i, total);
      }
      if total == 0 {
        db.invoices := db.invoices[i := db.invoices[i].(status := Paid)];
      }
    }

    /** The finalisation transaction shared by the scheduler, the onboarding loop and immediate charges. */
    method FinalizeDraft(i: InvoiceId, terms: Terms) returns (finalized: bool)
      requires Wired()
      modifies db
      ensures db.Snapshot() == Finalize(old(db.Snapshot()), i, terms)
      ensures finalized ==> i in db.invoices && db.invoices[i].status in {Finalized, Paid}
    {
      hide ApplyCreditAndSurcharge, LineTotal, OfType, NotOfType, Stripped;
      if i !in db.invoices { return false; }
      var saved := db.Snapshot();
      var draft := db.invoices[i];
      if draft.status != Draft { return false; }
      var removed := StripExistingSurchargeLineItems(i);
      var settled := ApplyCreditsAndSurcharge(i, draft.total - removed, terms);
      if settled.None? {
        db.Restore(saved);
        return false;
      }
      CloseInvoice(i, settled.value.1);
      SettledAs(saved, i, Balance(saved, draft.customer), terms, db.Snapshot());
      return true;
    }

    /** Creates and finalises an invoice for a period without a draft, in one transaction. */
    method CreateInvoiceForSubscription(i: InvoiceId, c: CustomerId, sub: SubscriptionId, amount: int, terms: Terms)
      requires Wired() && i !in db.invoices
      modifies db
      ensures db.Snapshot() == BillSubscription(old(db.Snapshot()), i, c, sub, amount, terms)
    {
      hide ApplyCreditAndSurcharge, BillSubscription;
      var saved := db.Snapshot();
      var created := Invoice(c, Some(sub), Recurring, Draft, 0, []);
      db.invoices := db.invoices[i := created];
      db.invoices := db.invoices[i := created.(lines := created.lines + [LineItem(OtherLine, amount, 1)])];
      assert db.invoices[i].lines == [LineItem(OtherLine, amount, 1)];
      var settled := ApplyCreditsAndSurcharge(i, amount, terms);
      if settled.None? {
        db.Restore(saved);
        NotBilled(saved, i, c, sub, amount, terms);
        return;
      }
      CloseInvoice(i, settled.value.1);
      BilledAs(saved, i, c, sub, amount, terms, db.Snapshot());
    }

    method CreateDraftInvoice(i: InvoiceId, c: CustomerId, sub: Option<SubscriptionId>, kind: InvoiceType,
                              lines: seq<LineItem>, total: int, terms: Terms)
      requires i !in db.invoices
      modifies db`invoices
      ensures db.Snapshot() == CreateDraft(old(db.Snapshot()), i, c, sub, kind, lines, total, terms)
    {
      var all, adjusted := lines, total;
      var fee := Surcharge(terms, total);
      if fee > 0 {
        all := all + [LineItem(SurchargeLine, fee, 1)];
        adjusted := adjusted + fee;
      } else {
        assert lines + [] == lines;
      }
      db.invoices := db.invoices[i := Invoice(c, sub, kind, Draft, adjusted, all)];
    }

    /** The fallback of seeding: filter the closed invoice's lines, map them, add them up, create the draft. */
    method SeedDraftFrom(i: InvoiceId, from: InvoiceId, c: CustomerId, rebuilt: map<nat, int>, terms: Terms)
      requires i !in db.invoices
      modifies db`invoices
      ensures db.Snapshot() == SeedCopy(old(db.Snapshot()), i, from, c, rebuilt, terms)
    {
      hide LineTotal, Surcharge;
      if from !in db.invoices { return; }
      var closed := db.invoices[from];
      if closed.kind != Recurring || closed.subscription.None? { return; }
      var kept := WithoutType(closed.lines, SurchargeLine);
      var copied := [];
      for n := 0 to |kept|
        invariant copied == CopiedLines(kept[..n], rebuilt)
      {
        assert kept[..n + 1][..n] == kept[..n];
        var l := kept[n];
        if l.kind == OtherLine && n in rebuilt { l := l.(amount := rebuilt[n]); }
        copied := copied + [l];
      }
      assert kept[..|kept|] == kept;
      var total := SumLines(copied);
      CreateDraftInvoice(i, c, closed.subscription, Recurring, copied, total, terms);
    }

    /** How many open recurring drafts a customer has, counted up to two. */
    method CountOpenRecurringDrafts(c: CustomerId, found: InvoiceId) returns (several: bool)
      requires OpenRecurringDraft(db.Snapshot(), c, found)
      ensures several <==> !OnlyRecurringDraft(db.Snapshot(), c, found)
    {
      var left := db.invoices.Keys - {found};
      while left != {}
        invariant left <= db.invoices.Keys && found !in left
        invariant forall j :: j in db.invoices && j !in left && j != found ==> !OpenRecurringDraft(db.Snapshot(), c, j)
        decreases |left|
      {
        var j :| j in left;
        var inv := db.invoices[j];
        if inv.customer == c && inv.status == Draft && inv.kind == Recurring {
          assert OpenRecurringDraft(db.Snapshot(), c, j);
          return true;
        }
        left := left - {j};
      }
      return false;
    }

    method UpdateOpenInvoiceLineItems(c: CustomerId, found: Option<InvoiceId>, lines: seq<LineItem>, total: int,
                                      terms: Terms)
      requires FoundRecurringDraft(db.Snapshot(), c, found)
      modifies db`invoices
      ensures db.Snapshot() == UpdateOpenDraft(old(db.Snapshot()), c, found, lines, total, terms)
    {
      if found.None? { return; }
      var i := found.value;
      var several := CountOpenRecurringDrafts(c, i);
      if several { return; }
      var all, adjusted := lines, total;
      var fee := Surcharge(terms, total);
      if fee > 0 {
        all := all + [LineItem(SurchargeLine, fee, 1)];
        adjusted := adjusted + fee;
      } else {
        assert lines + [] == lines;
      }
      db.invoices := db.invoices[i := db.invoices[i].(lines := all)];
      db.invoices := db.invoices[i := db.invoices[i].(total := adjusted)];
    }

    method RecalculateSurchargeOnOpenInvoice(c: CustomerId, found: Option<InvoiceId>, terms: Terms)
      requires FoundRecurringDraft(db.Snapshot(), c, found)
      modifies db`invoices
      ensures db.Snapshot() == Recalculate(old(db.Snapshot()), c, found, terms)
    {
      hide Surcharge, LineTotal, NotOfType;
      if found.None? { return; }
      var i := found.value;
      DeleteLinesOfType(i, SurchargeLine);
      var kept := db.invoices[i].lines;
      var subtotal := SumLines(kept);
      var fee := Surcharge(terms, subtotal);
      if fee > 0 {
        db.invoices := db.invoices[i := db.invoices[i].(lines := kept + [LineItem(SurchargeLine, fee, 1)])];
      } else {
        assert kept + [] == kept;
      }
      db.invoices := db.invoices[i := db.invoices[i].(total := subtotal + fee)];
    }

    method SumLines(lines: seq<LineItem>) returns (sum: int)
      ensures sum == LineTotal(lines)
    {
      sum := 0;
      for n := 0 to |lines|
        invariant sum == LineTotal(lines[..n])
      {
        assert lines[..n + 1][..n] == lines[..n];
        sum := sum + lines[n].amount * lines[n].quantity;
      }
      assert lines[..|lines|] == lines;
    }

    method VoidDraftInvoicesForCustomer(c: CustomerId, found: Option<InvoiceId>) returns (voided: nat)
      requires FoundDraft(db.Snapshot(), c, found)
      modifies db`invoices
      ensures db.Snapshot() == VoidDraft(old(db.Snapshot()), c, found)
      ensures voided == if found.Some? then 1 else 0
    {
      if found.None? { return 0; }
      db.invoices := db.invoices[found.value := db.invoices[found.value].(status := Void)];
      return 1;
    }

    method VoidInvoice(i: InvoiceId) returns (voided: bool)
      requires Wired()
      modifies db
      ensures db.Snapshot() == BillingHandlers.VoidInvoice(old(db.Snapshot()), i)
    {
      if i !in db.invoices || db.invoices[i].status != Finalized { return false; }
      var saved := db.Snapshot();
      db.invoices := db.invoices[i := db.invoices[i].(status := Void)];
      var posted := ledger.RecordInvoiceVoided(i, db.invoices[i].total);
      if !posted {
        db.Restore(saved);
        return false;
      }
      return true;
    }
  }
}
