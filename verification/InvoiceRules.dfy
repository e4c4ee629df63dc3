/** What the invoice and credit handlers come to, told from the tables and the call alone: amounts, lines, balance and
    journal rows, in every case. */
module InvoiceRules {
  import opened Options
  import opened Ledger
  import opened BillingState
  import opened BillingHandlers
  import opened LineItems
  import opened LineTotals

  // ---------------------------------------------------------------- lines and fees

  /** The lines that are not surcharges, in order. */
  function Unsurcharged(lines: seq<LineItem>): seq<LineItem> {
    if lines == [] then []
    else (if lines[0].kind == SurchargeLine then [] else [lines[0]]) + Unsurcharged(lines[1..])
  }

  function Worth(lines: seq<LineItem>): int {
    if lines == [] then 0 else lines[0].amount * lines[0].quantity + Worth(lines[1..])
  }

  /** The surcharge on an amount: the nearest cent, halves upwards, of a percentage of it, or a number of dollars; none
      without a card or a rule, and never a negative one. */
  predicate FeeIs(terms: Terms, base: int, fee: int) {
    if !terms.card || terms.rule.None? then fee == 0
    else
      match terms.rule.value
      case Percentage(v) => if base * v < 50 then fee == 0 else 100 * fee - 50 <= base * v < 100 * fee + 50
      case FlatFee(dollars) => fee == if dollars > 0 then 100 * dollars else 0
  }

  function FeeLine(fee: int): seq<LineItem> {
    if fee > 0 then [LineItem(SurchargeLine, fee, 1)] else []
  }

  lemma SurchargeIsFee(terms: Terms, base: int)
    ensures FeeIs(terms, base, Surcharge(terms, base)) && Surcharge(terms, base) >= 0
    ensures FeeLine(Surcharge(terms, base)) == SurchargeLines(Surcharge(terms, base))
  {
    SurchargeRounds(terms, base);
    hide RoundPercent;
  }

  lemma {:induction false} UnsurchargedAppend(lines: seq<LineItem>, l: LineItem)
    ensures Unsurcharged(lines + [l]) == Unsurcharged(lines) + if l.kind == SurchargeLine then [] else [l]
  {
    if lines == [] {
      assert lines + [l] == [l] && [l][1..] == [];
    } else {
      assert (lines + [l])[1..] == lines[1..] + [l];
      UnsurchargedAppend(lines[1..], l);
      var first, added := if lines[0].kind == SurchargeLine then [] else [lines[0]], if l.kind == SurchargeLine then [] else [l];
      assert Unsurcharged(lines + [l]) == first + (Unsurcharged(lines[1..]) + added);
    }
  }

  lemma {:induction false} UnsurchargedIs(lines: seq<LineItem>)
    ensures NotOfType(lines, SurchargeLine) == Unsurcharged(lines)
  {
    if lines != [] {
      var n := |lines| - 1;
      UnsurchargedIs(lines[..n]);
      UnsurchargedAppend(lines[..n], lines[n]);
      assert lines == lines[..n] + [lines[n]];
    }
  }

  lemma {:induction false} WorthAppend(lines: seq<LineItem>, l: LineItem)
    ensures Worth(lines + [l]) == Worth(lines) + l.amount * l.quantity
  {
    if lines == [] {
      assert lines + [l] == [l] && [l][1..] == [];
    } else {
      assert (lines + [l])[1..] == lines[1..] + [l];
      WorthAppend(lines[1..], l);
    }
  }

  lemma {:induction false} WorthIs(lines: seq<LineItem>)
    ensures LineTotal(lines) == Worth(lines)
  {
    if lines != [] {
      var n := |lines| - 1;
      WorthIs(lines[..n]);
      WorthAppend(lines[..n], lines[n]);
      assert lines == lines[..n] + [lines[n]];
    }
  }

  // ---------------------------------------------------------------- finalising

  /** What finalising an invoice with some lines kept and a subtotal makes of the tables. It aborts when the balance is
      negative, or positive with nothing to spend it on. Otherwise the credit used is the smaller of balance and
      subtotal, and the fee is charged on what is then due. */
  predicate IsFinalized(db: Db, after: Db, i: InvoiceId, inv: Invoice, kept: seq<LineItem>, subtotal: int, terms: Terms, fee: int) {
    var balance := if inv.customer in db.balances then db.balances[inv.customer] else 0;
    if balance < 0 || (balance > 0 && subtotal <= 0) then after == db
    else
      var credit := if balance == 0 then 0 else if balance <= subtotal then balance else subtotal;
      var due := subtotal - credit;
      && (if due <= 0 then fee == 0 else FeeIs(terms, due, fee))
      && after == db.(
           invoices := db.invoices[i := inv.(
             status := if due + fee == 0 then Paid else Finalized,
             total := due + fee,
             lines := kept + (if credit > 0 then [LineItem(CreditLine, -credit, 1)] else []) + FeeLine(fee))],
           balances := if credit > 0 then db.balances[inv.customer := balance - credit] else db.balances,
           ledger := db.ledger
             + (if credit > 0 then [Entry(AccountsReceivable, Credits, credit, CreditApplicationRef(i))] else [])
             + (if due + fee > 0 then [Entry(AccountsReceivable, Revenue, due + fee, InvoiceRef(i))] else []))
  }

  lemma SettledRow(db: Db, i: InvoiceId, inv: Invoice, s: Settlement)
    ensures var balance := Balance(db, inv.customer);
            Settled(WithDraft(db, i, inv), i, s)
            == db.(invoices := db.invoices[i := inv.(status := if s.total == 0 then Paid else Finalized, total := s.total, lines := s.lines)],
                   balances := if s.applied > 0 then db.balances[inv.customer := balance - s.applied] else db.balances,
                   ledger := db.ledger + CreditEntries(i, s.applied) + InvoiceEntries(i, s.total))
  {
    var row := inv.(status := if s.total == 0 then Paid else Finalized, total := s.total, lines := s.lines);
    assert WithDraft(db, i, inv).invoices[i := row] == db.invoices[i := row];
  }

  /** The settlement functions do just that. */
  lemma SettledIs(db: Db, i: InvoiceId, inv: Invoice, kept: seq<LineItem>, subtotal: int, terms: Terms) returns (fee: int)
    ensures var r := ApplyCreditAndSurcharge(kept, subtotal, Balance(db, inv.customer), terms);
            var after := if r.None? then db else Settled(WithDraft(db, i, inv), i, r.value);
            IsFinalized(db, after, i, inv, kept, subtotal, terms, fee)
  {
    var balance := Balance(db, inv.customer);
    var due := subtotal - CreditToApply(balance, subtotal);
    fee := FinalFee(terms, due);
    SurchargeIsFee(terms, due);
    var s := ApplyCreditAndSurcharge(kept, subtotal, balance, terms);
    if s.Some? { SettledRow(db, i, inv, s.value); }
    hide Surcharge, FeeIs, Settled, WithDraft;
  }

  /** The lines of a draft that stay: those that are no surcharges, or all when the surcharges are worth nothing. */
  function Kept(lines: seq<LineItem>): seq<LineItem> {
    if Worth(lines) > Worth(Unsurcharged(lines)) then Unsurcharged(lines) else lines
  }

  /** Finalising, in all cases. Only a draft is finalised. Its draft surcharge goes, and the fee is charged afresh under the
      terms of the call. Its subtotal is its total less the draft surcharge, so the worth of the other lines when the
      total was the worth of all; and all other lines stay, and only those, when surcharge lines are positive. */
  lemma FinalizedInvoice(db: Db, i: InvoiceId, terms: Terms) returns (fee: int)
    ensures if i !in db.invoices || db.invoices[i].status != Draft then Finalize(db, i, terms) == db
            else
              var inv := db.invoices[i];
              var subtotal := inv.total - (Worth(inv.lines) - Worth(Unsurcharged(inv.lines)));
              && IsFinalized(db, Finalize(db, i, terms), i, inv, Kept(inv.lines), subtotal, terms, fee)
              && (inv.total == Worth(inv.lines) ==> subtotal == Worth(Unsurcharged(inv.lines)))
              && ((forall l :: l in inv.lines && l.kind == SurchargeLine ==> l.amount > 0 && l.quantity == 1) ==>
                    Kept(inv.lines) == Unsurcharged(inv.lines))
  {
    hide *;
    fee := 0;
    if i in db.invoices && db.invoices[i].status == Draft {
      var inv := db.invoices[i];
      DraftParts(inv.lines);
      fee := FinalizedAs(db, i, terms, Kept(inv.lines), inv.total - (Worth(inv.lines) - Worth(Unsurcharged(inv.lines))));
    } else {
      OthersAreNotFinalized(db, i, terms);
    }
  }

  lemma OthersAreNotFinalized(db: Db, i: InvoiceId, terms: Terms)
    requires i in db.invoices ==> db.invoices[i].status != Draft
    ensures Finalize(db, i, terms) == db
  {
    hide Settle, Settled;
  }

  lemma FinalizedAs(db: Db, i: InvoiceId, terms: Terms, kept: seq<LineItem>, subtotal: int) returns (fee: int)
    requires i in db.invoices && db.invoices[i].status == Draft
    requires Stripped(db.invoices[i].lines) == kept && db.invoices[i].total - SurchargeOn(db.invoices[i].lines) == subtotal
    ensures IsFinalized(db, Finalize(db, i, terms), i, db.invoices[i], kept, subtotal, terms, fee)
  {
    hide *;
    fee := SettledIs(db, i, db.invoices[i], kept, subtotal, terms);
    RewritesItself(db, i);
    FinalizeSettles(db, i, terms);
  }

  lemma FinalizeSettles(db: Db, i: InvoiceId, terms: Terms)
    requires i in db.invoices && db.invoices[i].status == Draft
    ensures var inv := db.invoices[i];
            var r := ApplyCreditAndSurcharge(Stripped(inv.lines), inv.total - SurchargeOn(inv.lines), Balance(db, inv.customer), terms);
            Finalize(db, i, terms) == if r.None? then db else Settled(db, i, r.value)
  {
    hide ApplyCreditAndSurcharge, Settled, SurchargeOn, Stripped, Balance;
  }

  lemma RewritesItself(db: Db, i: InvoiceId)
    requires i in db.invoices
    ensures WithDraft(db, i, db.invoices[i]) == db
  {
    assert db.invoices[i := db.invoices[i]] == db.invoices;
  }

  lemma DraftParts(lines: seq<LineItem>)
    ensures Stripped(lines) == Kept(lines) && SurchargeOn(lines) == Worth(lines) - Worth(Unsurcharged(lines))
    ensures (forall l :: l in lines && l.kind == SurchargeLine ==> l.amount > 0 && l.quantity == 1) ==>
              Kept(lines) == Unsurcharged(lines)
  {
    UnsurchargedIs(lines);
    WorthIs(lines);
    WorthIs(Unsurcharged(lines));
    SplitTotal(lines, SurchargeLine);
    if forall l :: l in lines && l.kind == SurchargeLine ==> l.amount > 0 && l.quantity == 1 { StripsAll(lines); }
    hide LineTotal, OfType, NotOfType, Unsurcharged, Worth;
  }

  /** Billing a period without a draft: an invoice with one line for the amount, finalised at once. */
  lemma BilledSubscription(db: Db, i: InvoiceId, c: CustomerId, sub: SubscriptionId, amount: int, terms: Terms) returns (fee: int)
    ensures var line := LineItem(OtherLine, amount, 1);
            IsFinalized(db, BillSubscription(db, i, c, sub, amount, terms), i,
                        Invoice(c, Some(sub), Recurring, Draft, amount, [line]), [line], amount, terms, fee)
  {
    hide *;
    var line := LineItem(OtherLine, amount, 1);
    fee := SettledIs(db, i, Invoice(c, Some(sub), Recurring, Draft, amount, [line]), [line], amount, terms);
    SubscriptionSettles(db, i, c, sub, amount, terms);
  }

  lemma SubscriptionSettles(db: Db, i: InvoiceId, c: CustomerId, sub: SubscriptionId, amount: int, terms: Terms)
    ensures var lines := [LineItem(OtherLine, amount, 1)];
            var r := ApplyCreditAndSurcharge(lines, amount, Balance(db, c), terms);
            BillSubscription(db, i, c, sub, amount, terms)
            == if r.None? then db
               else Settled(WithDraft(db, i, Invoice(c, Some(sub), Recurring, Draft, amount, lines)), i, r.value)
  {
    NoneOfType([LineItem(OtherLine, amount, 1)], SurchargeLine);
    hide ApplyCreditAndSurcharge, Settled, OfType, NotOfType, Balance, WithDraft;
  }

  const THREE_PERCENT := Terms(true, Some(Percentage(3)))

  lemma ThreePercentOnTop(db: Db, after: Db, i: InvoiceId, inv: Invoice, fee: int)
    requires IsFinalized(db, after, i, inv, [LineItem(OtherLine, 10000, 1)], 10000, THREE_PERCENT, fee)
    requires inv.customer !in db.balances
    ensures i in after.invoices && after.invoices[i].total == 10300 && after.invoices[i].status == Finalized
    ensures after.invoices[i].lines == [LineItem(OtherLine, 10000, 1), LineItem(SurchargeLine, 300, 1)]
    ensures after.ledger == db.ledger + [Entry(AccountsReceivable, Revenue, 10300, InvoiceRef(i))]
  {
    var line, none: seq<LineItem> := LineItem(OtherLine, 10000, 1), [];
    assert fee == 300;
    assert [line] + none + [LineItem(SurchargeLine, 300, 1)] == [line, LineItem(SurchargeLine, 300, 1)];
    var no: Journal := [];
    assert db.ledger + no == db.ledger;
  }

  lemma OneLine(line: LineItem)
    requires line.kind != SurchargeLine
    ensures Unsurcharged([line]) == [line] && Worth([line]) == line.amount * line.quantity
  {
    var none: seq<LineItem> := [];
    assert none + [line] == [line] && Unsurcharged(none) == none && Worth(none) == 0;
    UnsurchargedAppend(none, line);
    WorthAppend(none, line);
    hide Unsurcharged, Worth;
  }

  /** A customer charged 3 percent on a card owes 10300 for a draft of 10000. */
  lemma CardCustomerPaysSurcharge(db: Db, i: InvoiceId)
    requires i in db.invoices && db.invoices[i].status == Draft && db.invoices[i].total == 10000
    requires db.invoices[i].lines == [LineItem(OtherLine, 10000, 1)] && db.invoices[i].customer !in db.balances
    ensures var after := Finalize(db, i, THREE_PERCENT);
            && i in after.invoices && after.invoices[i].total == 10300 && after.invoices[i].status == Finalized
            && after.invoices[i].lines == [LineItem(OtherLine, 10000, 1), LineItem(SurchargeLine, 300, 1)]
            && after.ledger == db.ledger + [Entry(AccountsReceivable, Revenue, 10300, InvoiceRef(i))]
  {
    hide Finalize, Unsurcharged, Worth, IsFinalized;
    OneLine(LineItem(OtherLine, 10000, 1));
    var fee := FinalizedInvoice(db, i, THREE_PERCENT);
    ThreePercentOnTop(db, Finalize(db, i, THREE_PERCENT), i, db.invoices[i], fee);
  }

  // ---------------------------------------------------------------- drafts

  /** A new draft has the caller's lines and total, and the fee on that total. */
  lemma CreatedDraft(db: Db, i: InvoiceId, c: CustomerId, sub: Option<SubscriptionId>, kind: InvoiceType,
                     lines: seq<LineItem>, total: int, terms: Terms) returns (fee: int)
    ensures FeeIs(terms, total, fee)
    ensures CreateDraft(db, i, c, sub, kind, lines, total, terms)
            == db.(invoices := db.invoices[i := Invoice(c, sub, kind, Draft, total + fee, lines + FeeLine(fee))])
  {
    fee := Surcharge(terms, total);
    SurchargeIsFee(terms, total);
    hide Surcharge, FeeIs;
  }

  /** Recurring drafts of the customer. */
  function RecurringDrafts(db: Db, c: CustomerId): set<InvoiceId> {
    set i | i in db.invoices && db.invoices[i].customer == c && db.invoices[i].status == Draft && db.invoices[i].kind == Recurring
  }

  /** The lines and the total are replaced when the customer has exactly one recurring draft. */
  lemma UpdatedDraft(db: Db, c: CustomerId, found: Option<InvoiceId>, lines: seq<LineItem>, total: int, terms: Terms)
    returns (fee: int)
    requires FoundRecurringDraft(db, c, found)
    ensures FeeIs(terms, total, fee)
    ensures found.None? <==> RecurringDrafts(db, c) == {}
    ensures var after := UpdateOpenDraft(db, c, found, lines, total, terms);
            if found.Some? && RecurringDrafts(db, c) == {found.value} then
              after == db.(invoices := db.invoices[found.value :=
                         db.invoices[found.value].(total := total + fee, lines := lines + FeeLine(fee))])
            else after == db
  {
    fee := Surcharge(terms, total);
    SurchargeIsFee(terms, total);
    hide Surcharge, FeeIs;
    if found.Some? { assert OpenRecurringDraft(db, c, found.value) && found.value in RecurringDrafts(db, c); }
    assert forall i :: i in RecurringDrafts(db, c) <==> i in db.invoices && OpenRecurringDraft(db, c, i);
  }

  /** Recalculating replaces the surcharge lines of the draft found by the fee on the rest, and sets the total to both. */
  lemma RecalculatedDraft(db: Db, c: CustomerId, found: Option<InvoiceId>, terms: Terms) returns (fee: int)
    requires FoundRecurringDraft(db, c, found)
    ensures var after := Recalculate(db, c, found, terms);
            if found.None? then after == db
            else
              var kept := Unsurcharged(db.invoices[found.value].lines);
              && FeeIs(terms, Worth(kept), fee)
              && after == db.(invoices := db.invoices[found.value :=
                            db.invoices[found.value].(total := Worth(kept) + fee, lines := kept + FeeLine(fee))])
  {
    fee := 0;
    if found.Some? {
      var kept := Unsurcharged(db.invoices[found.value].lines);
      UnsurchargedIs(db.invoices[found.value].lines);
      WorthIs(kept);
      fee := Surcharge(terms, Worth(kept));
      SurchargeIsFee(terms, Worth(kept));
      hide Surcharge, FeeIs, LineTotal, NotOfType, Worth, Unsurcharged;
    }
  }

  lemma {:induction false} CopiedLineByLine(kept: seq<LineItem>, rebuilt: map<nat, int>)
    ensures |CopiedLines(kept, rebuilt)| == |kept|
    ensures forall k :: 0 <= k < |kept| ==>
              CopiedLines(kept, rebuilt)[k]
              == if kept[k].kind == OtherLine && k in rebuilt then kept[k].(amount := rebuilt[k]) else kept[k]
  {
    if kept != [] { CopiedLineByLine(kept[..|kept| - 1], rebuilt); }
  }

  /** A draft seeded by copying has the lines of the closed invoice but its surcharges, in order, rebuilt ones with
      their new amounts, and the fee on their worth; nothing is copied from an unknown, a single or an unlinked one. */
  lemma SeededCopy(db: Db, i: InvoiceId, from: InvoiceId, c: CustomerId, rebuilt: map<nat, int>, terms: Terms)
    returns (lines: seq<LineItem>, fee: int)
    ensures var after := SeedCopy(db, i, from, c, rebuilt, terms);
            if from !in db.invoices || db.invoices[from].kind != Recurring || db.invoices[from].subscription.None? then after == db
            else
              var kept := Unsurcharged(db.invoices[from].lines);
              && |lines| == |kept|
              && (forall k :: 0 <= k < |kept| ==>
                    lines[k] == if kept[k].kind == OtherLine && k in rebuilt then kept[k].(amount := rebuilt[k]) else kept[k])
              && FeeIs(terms, Worth(lines), fee)
              && after == db.(invoices := db.invoices[i :=
                            Invoice(c, db.invoices[from].subscription, Recurring, Draft, Worth(lines) + fee, lines + FeeLine(fee))])
  {
    hide FeeIs, LineTotal, NotOfType, Worth, Unsurcharged, CopiedLines, CreateDraft, FeeLine;
    lines, fee := [], 0;
    if from in db.invoices && db.invoices[from].kind == Recurring && db.invoices[from].subscription.Some? {
      var kept := Unsurcharged(db.invoices[from].lines);
      UnsurchargedIs(db.invoices[from].lines);
      CopiedLineByLine(kept, rebuilt);
      lines := CopiedLines(kept, rebuilt);
      WorthIs(lines);
      fee := CreatedDraft(db, i, c, db.invoices[from].subscription, Recurring, lines, Worth(lines), terms);
    }
  }

  // ---------------------------------------------------------------- voids

  /** Voiding a draft leaves no journal row. */
  lemma VoidedDraft(db: Db, c: CustomerId, found: Option<InvoiceId>)
    requires FoundDraft(db, c, found)
    ensures VoidDraft(db, c, found)
            == if found.None? then db
               else db.(invoices := db.invoices[found.value := db.invoices[found.value].(status := Void)])
    ensures found.Some? ==> db.invoices[found.value].customer == c && db.invoices[found.value].status == Draft
  {
  }

  /** A finalized invoice with something to pay is voided and its receivable reversed; any other is left alone. */
  lemma VoidedInvoice(db: Db, i: InvoiceId)
    ensures VoidInvoice(db, i)
            == if i in db.invoices && db.invoices[i].status == Finalized && db.invoices[i].total > 0 then
                 db.(invoices := db.invoices[i := db.invoices[i].(status := Void)],
                     ledger := db.ledger + [Entry(Revenue, AccountsReceivable, db.invoices[i].total, VoidRef(i))])
               else db
  {
  }

  // ---------------------------------------------------------------- credit notes

  /** A credit note is issued exactly for a known customer, an amount that is not zero and, if it names an invoice, one
      of the customer whose total it does not exceed. Then note, balance and journal move by the amount; a negative
      one takes credit back. */
  lemma IssuedNote(db: Db, n: NoteId, known: bool, c: CustomerId, invoice: Option<InvoiceId>, amount: int)
    ensures var after := IssueCreditNote(db, n, known, c, invoice, amount);
            if known && amount != 0
               && (invoice.None? || (invoice.value in db.invoices && db.invoices[invoice.value].customer == c
                                     && amount <= db.invoices[invoice.value].total))
            then after == db.(
                   notes := db.notes[n := Note(c, amount)],
                   balances := db.balances[c := (if c in db.balances then db.balances[c] else 0) + amount],
                   ledger := db.ledger + [if amount > 0 then Entry(Credits, AccountsReceivable, amount, CreditNoteRef(n))
                                          else Entry(AccountsReceivable, Credits, -amount, CreditNoteRef(n))])
            else after == db
  {
  }
}
