/** What the surcharge terms of drafts come to in the end: nothing. Recalculations left out, and drafts written
    under other terms, leave every run with the same billed invoices, balances, charges and journal. */
module DraftTerms {
  import opened Options
  import opened Sums
  import opened BillingState
  import opened BillingHandlers
  import opened LineItems
  import opened LineTotals
  import opened InvoiceTotals
  import opened BillingRuns

  // ---------------------------------------------------------------- runs retold

  /** The call under other draft-time terms; terms of a finalisation stay. */
  function WithTerms(ev: Event, terms: Terms): Event {
    match ev
    case EvCreateDraft(i, c, sub, kind, lines, total, _) => EvCreateDraft(i, c, sub, kind, lines, total, terms)
    case EvSeedCopy(i, from, c, rebuilt, _) => EvSeedCopy(i, from, c, rebuilt, terms)
    case EvUpdateOpenDraft(c, found, lines, total, _) => EvUpdateOpenDraft(c, found, lines, total, terms)
    case EvRecalculate(c, found, _) => EvRecalculate(c, found, terms)
    case _ => ev
  }

  /** One step retold: a recalculation may be left out, and any call may come under other draft-time terms. */
  datatype Retelling = AsTold | LeftOut | Under(terms: Terms)

  function RetoldEvent(ev: Event, how: Retelling): Event {
    if how.Under? then WithTerms(ev, how.terms) else ev
  }

  ghost predicate RetoldStep(db: Db, after: Db, ev: Event, how: Retelling, limit: nat) {
    if how.LeftOut? && ev.EvRecalculate? then after == db
    else Enabled(db, RetoldEvent(ev, how)) && after == Step(db, RetoldEvent(ev, how), limit)
  }

  ghost predicate Retold(states: seq<Db>, events: seq<Event>, how: seq<Retelling>, limit: nat) {
    && |states| == |events| + 1 && |how| == |events|
    && states[0] == EMPTY_DB
    && forall t :: 0 <= t < |events| ==> RetoldStep(states[t], states[t + 1], events[t], how[t], limit)
  }

  // ---------------------------------------------------------------- states that differ in draft surcharges

  /** The total of a draft is the sum of its lines. */
  predicate Tidy(inv: Invoice) { DraftLines(inv.lines) && inv.total == LineTotal(inv.lines) }

  /** Rows with the same lines but for surcharges, and the same ones altogether once billed. */
  predicate SameRow(a: Invoice, b: Invoice) {
    && b == a.(total := b.total, lines := b.lines)
    && NotOfType(a.lines, SurchargeLine) == NotOfType(b.lines, SurchargeLine)
    && (a.status == Draft ==> Tidy(a) && Tidy(b))
    && (a.status == Void ==> a == b || (Tidy(a) && Tidy(b)))
    && (a.status == Finalized || a.status == Paid ==> a == b)
  }

  ghost predicate SameInvoices(a: map<InvoiceId, Invoice>, b: map<InvoiceId, Invoice>) {
    a.Keys == b.Keys && forall i :: i in a ==> SameRow(a[i], b[i])
  }

  /** All other tables and the journal are equal. */
  ghost predicate Alike(a: Db, b: Db) {
    b == a.(invoices := b.invoices) && SameInvoices(a.invoices, b.invoices)
  }

  /** What the lines of an invoice come to without surcharges. */
  function Subtotal(inv: Invoice): int { LineTotal(NotOfType(inv.lines, SurchargeLine)) }

  /** The call does not see a difference: the caller of a draft passes the sum of its lines as the total, and a credit
      note for an invoice finds the same row, or is at most its subtotal. */
  predicate SeesNoDifference(a: Db, b: Db, ev: Event) {
    && Matching(ev)
    && (ev.EvIssueCreditNote? && ev.invoice.Some? && ev.invoice.value in a.invoices && ev.invoice.value in b.invoices ==>
          || a.invoices[ev.invoice.value] == b.invoices[ev.invoice.value]
          || ev.amount <= Subtotal(a.invoices[ev.invoice.value]))
  }

  predicate FinalizedOrPaid(inv: Invoice) { inv.status == Finalized || inv.status == Paid }

  /** The invoice has been finalized or paid at some time up to `t`. */
  ghost predicate EverBilled(states: seq<Db>, t: nat, i: InvoiceId)
    requires t < |states|
  {
    exists k :: 0 <= k <= t && i in states[k].invoices && FinalizedOrPaid(states[k].invoices[i])
  }

  /** The caller of a draft passes the sum of its lines as the total; and a credit note for an invoice that was never
      billed, the only call that looks at the total of such a one, is at most its subtotal. */
  ghost predicate LooksAtBilled(states: seq<Db>, events: seq<Event>, k: nat)
    requires k < |events| && k < |states|
  {
    && Matching(events[k])
    && (events[k].EvIssueCreditNote? && events[k].invoice.Some? && events[k].invoice.value in states[k].invoices ==>
          || EverBilled(states, k, events[k].invoice.value)
          || events[k].amount <= Subtotal(states[k].invoices[events[k].invoice.value]))
  }

  lemma PutAlike(a: Db, b: Db, i: InvoiceId, x: Invoice, y: Invoice)
    requires Alike(a, b) && SameRow(x, y)
    ensures Alike(WithDraft(a, i, x), WithDraft(b, i, y))
  {
    hide SameRow;
  }

  lemma AlikeAt(a: Db, b: Db, i: InvoiceId)
    requires Alike(a, b)
    ensures i in a.invoices <==> i in b.invoices
    ensures i in a.invoices ==> SameRow(a.invoices[i], b.invoices[i])
  {
    hide SameRow;
  }

  /** Billed rows and rows of new invoices are their own likes. */
  lemma EqualRow(x: Invoice)
    requires x.status == Draft ==> Tidy(x)
    ensures SameRow(x, x)
  {
  }

  // ---------------------------------------------------------------- writing drafts

  function AsWritten(x: Invoice, lines: seq<LineItem>, fee: int): Invoice {
    x.(status := Draft, total := LineTotal(lines) + fee, lines := lines + SurchargeLines(fee))
  }

  lemma WrittenIsTidy(x: Invoice, lines: seq<LineItem>, fee: int)
    requires DraftLines(lines) && fee >= 0
    ensures Tidy(AsWritten(x, lines, fee))
    ensures NotOfType(AsWritten(x, lines, fee).lines, SurchargeLine) == NotOfType(lines, SurchargeLine)
  {
    hide LineTotal, NotOfType, SurchargeLines, DraftLines;
    DraftWithFee(lines, fee);
  }

  lemma WrittenAlike(x: Invoice, lines: seq<LineItem>, fee: int, otherFee: int)
    requires DraftLines(lines) && fee >= 0 && otherFee >= 0
    ensures SameRow(AsWritten(x, lines, fee), AsWritten(x, lines, otherFee))
  {
    WrittenIsTidy(x, lines, fee);
    WrittenIsTidy(x, lines, otherFee);
    hide LineTotal, NotOfType, SurchargeLines, Tidy;
  }

  lemma CreateAlike(a: Db, b: Db, i: InvoiceId, c: CustomerId, sub: Option<SubscriptionId>, kind: InvoiceType,
                    lines: seq<LineItem>, terms: Terms, others: Terms)
    requires Alike(a, b) && DraftLines(lines)
    ensures Alike(CreateDraft(a, i, c, sub, kind, lines, LineTotal(lines), terms),
                  CreateDraft(b, i, c, sub, kind, lines, LineTotal(lines), others))
  {
    hide Alike, LineTotal, SurchargeLines, Surcharge, SameRow, WithDraft, DraftLines;
    var x, total := Invoice(c, sub, kind, Draft, 0, []), LineTotal(lines);
    var fee, otherFee := Surcharge(terms, total), Surcharge(others, total);
    WrittenAlike(x, lines, fee, otherFee);
    PutAlike(a, b, i, Invoice(c, sub, kind, Draft, total + fee, lines + SurchargeLines(fee)),
             Invoice(c, sub, kind, Draft, total + otherFee, lines + SurchargeLines(otherFee)));
  }

  lemma CopyIsTidy(lines: seq<LineItem>, rebuilt: map<nat, int>)
    ensures DraftLines(CopiedLines(NotOfType(lines, SurchargeLine), rebuilt))
  {
    hide LineTotal, OfType, CopiedLines;
    KeptLinesAreOld(lines, SurchargeLine);
    CopyHasNoSurcharge(NotOfType(lines, SurchargeLine), rebuilt);
  }

  lemma SeedAlike(a: Db, b: Db, i: InvoiceId, from: InvoiceId, c: CustomerId, rebuilt: map<nat, int>, terms: Terms, others: Terms)
    requires Alike(a, b)
    ensures Alike(SeedCopy(a, i, from, c, rebuilt, terms), SeedCopy(b, i, from, c, rebuilt, others))
  {
    hide Alike, LineTotal, NotOfType, CopiedLines, CreateDraft, DraftLines;
    AlikeAt(a, b, from);
    if from in a.invoices {
      var lines := CopiedLines(NotOfType(a.invoices[from].lines, SurchargeLine), rebuilt);
      CopyIsTidy(a.invoices[from].lines, rebuilt);
      CreateAlike(a, b, i, c, a.invoices[from].subscription, Recurring, lines, terms, others);
    }
  }

  lemma DraftsAlike(a: Db, b: Db, c: CustomerId, found: Option<InvoiceId>)
    requires Alike(a, b)
    ensures FoundRecurringDraft(a, c, found) <==> FoundRecurringDraft(b, c, found)
    ensures FoundDraft(a, c, found) <==> FoundDraft(b, c, found)
    ensures forall i :: OnlyRecurringDraft(a, c, i) <==> OnlyRecurringDraft(b, c, i)
  {
    hide NotOfType, Tidy;
  }

  lemma UpdateAlike(a: Db, b: Db, c: CustomerId, found: Option<InvoiceId>, lines: seq<LineItem>, terms: Terms, others: Terms)
    requires Alike(a, b) && DraftLines(lines) && FoundRecurringDraft(a, c, found) && FoundRecurringDraft(b, c, found)
    ensures Alike(UpdateOpenDraft(a, c, found, lines, LineTotal(lines), terms),
                  UpdateOpenDraft(b, c, found, lines, LineTotal(lines), others))
  {
    hide Alike, LineTotal, NotOfType, SurchargeLines, Surcharge, OnlyRecurringDraft, WithDraft, DraftLines, Tidy;
    DraftsAlike(a, b, c, found);
    if found.Some? {
      AlikeAt(a, b, found.value);
      var x, y, total := a.invoices[found.value], b.invoices[found.value], LineTotal(lines);
      var fee, otherFee := Surcharge(terms, total), Surcharge(others, total);
      WrittenAlike(x, lines, fee, otherFee);
      PutAlike(a, b, found.value, x.(total := total + fee, lines := lines + SurchargeLines(fee)),
               y.(total := total + otherFee, lines := lines + SurchargeLines(otherFee)));
    }
  }

  lemma ResurchargedAlike(x: Invoice, y: Invoice, terms: Terms, others: Terms)
    requires x.status == Draft && SameRow(x, y)
    ensures SameRow(Resurcharged(x, terms), Resurcharged(y, others)) && SameRow(Resurcharged(x, terms), y)
  {
    hide LineTotal, NotOfType, Surcharge, SurchargeLines, DraftLines;
    ResurchargeKeeps(x, terms);
    ResurchargeKeeps(y, others);
  }

  /** Recalculated under any terms, or not at all. */
  lemma RecalculateAlike(a: Db, b: Db, c: CustomerId, found: Option<InvoiceId>, terms: Terms, others: Terms)
    requires Alike(a, b) && FoundRecurringDraft(a, c, found) && FoundRecurringDraft(b, c, found)
    ensures Alike(Recalculate(a, c, found, terms), Recalculate(b, c, found, others))
    ensures Alike(Recalculate(a, c, found, terms), b)
  {
    hide Alike, Resurcharged, SameRow, WithDraft;
    if found.Some? {
      var i := found.value;
      AlikeAt(a, b, i);
      ResurchargedAlike(a.invoices[i], b.invoices[i], terms, others);
      PutAlike(a, b, i, Resurcharged(a.invoices[i], terms), Resurcharged(b.invoices[i], others));
      PutAlike(a, b, i, Resurcharged(a.invoices[i], terms), b.invoices[i]);
      assert WithDraft(b, i, b.invoices[i]) == b by { SameDraft(b, i); }
    }
  }

  lemma SameDraft(db: Db, i: InvoiceId)
    requires i in db.invoices
    ensures WithDraft(db, i, db.invoices[i]) == db
  {
    assert db.invoices[i := db.invoices[i]] == db.invoices;
  }

  // ---------------------------------------------------------------- closing drafts

  lemma SettleAlike(x: Invoice, y: Invoice, balance: int, terms: Terms)
    requires x.status == Draft && SameRow(x, y)
    ensures Settle(x.lines, x.total, balance, terms) == Settle(y.lines, y.total, balance, terms)
  {
    hide LineTotal, NotOfType, Settle, DraftLines;
    SettlementForgets(x.lines, x.total, balance, terms);
    SettlementForgets(y.lines, y.total, balance, terms);
  }

  lemma SettledAlike(a: Db, b: Db, i: InvoiceId, s: Settlement)
    requires Alike(a, b) && i in a.invoices
    ensures i in b.invoices && Alike(Settled(a, i, s), Settled(b, i, s))
  {
    hide LineTotal, NotOfType, Tidy, CreditEntries, InvoiceEntries, SameInvoices;
    AlikeAt(a, b, i);
    var final := a.invoices[i].(status := if s.total == 0 then Paid else Finalized, total := s.total, lines := s.lines);
    EqualRow(final);
    PutAlike(a, b, i, final, final);
  }

  lemma FinalizeAlike(a: Db, b: Db, i: InvoiceId, terms: Terms)
    requires Alike(a, b)
    ensures Alike(Finalize(a, i, terms), Finalize(b, i, terms))
  {
    AlikeAt(a, b, i);
    assert a.balances == b.balances;
    hide Alike, Settled, Settle, NotOfType, Tidy;
    if i in a.invoices && a.invoices[i].status == Draft {
      var balance := Balance(a, a.invoices[i].customer);
      SettleAlike(a.invoices[i], b.invoices[i], balance, terms);
      var s := Settle(a.invoices[i].lines, a.invoices[i].total, balance, terms);
      if s.Some? { SettledAlike(a, b, i, s.value); }
    }
  }

  lemma OneLineIsTidy(inv: Invoice, amount: int)
    requires inv.lines == [LineItem(OtherLine, amount, 1)] && inv.total == amount
    ensures Tidy(inv)
  {
    OneLineAdds(amount);
  }

  lemma BillAlike(a: Db, b: Db, i: InvoiceId, c: CustomerId, sub: SubscriptionId, amount: int, terms: Terms)
    requires Alike(a, b)
    ensures Alike(BillSubscription(a, i, c, sub, amount, terms), BillSubscription(b, i, c, sub, amount, terms))
  {
    assert a.balances == b.balances;
    hide Alike, Settled, Settle, Tidy, SameRow;
    var inv := SubscriptionInvoice(c, sub, amount);
    OneLineIsTidy(inv, amount);
    EqualRow(inv);
    PutAlike(a, b, i, inv, inv);
    var s := Settle(inv.lines, inv.total, Balance(a, c), terms);
    if s.Some? { SettledAlike(WithDraft(a, i, inv), WithDraft(b, i, inv), i, s.value); }
  }

  lemma VoidedAlike(a: Db, b: Db, i: InvoiceId)
    requires Alike(a, b) && i in a.invoices
    ensures i in b.invoices && Alike(WithVoidedDraft(a, i), WithVoidedDraft(b, i))
  {
    AlikeAt(a, b, i);
    hide NotOfType, Tidy, Alike;
    PutAlike(a, b, i, a.invoices[i].(status := Void), b.invoices[i].(status := Void));
  }

  lemma VoidInvoiceAlike(a: Db, b: Db, i: InvoiceId)
    requires Alike(a, b)
    ensures Alike(VoidInvoice(a, i), VoidInvoice(b, i))
  {
    AlikeAt(a, b, i);
    hide NotOfType, Tidy, SameInvoices;
    if i in a.invoices && a.invoices[i].status == Finalized {
      var row := a.invoices[i].(status := Void);
      EqualRow(row);
      PutAlike(a, b, i, row, row);
    }
  }

  // ---------------------------------------------------------------- payment, dunning and the rest

  lemma CollectedAlike(a: Db, b: Db, k: ChargeKey)
    requires Alike(a, b) && k in a.charges && a.charges[k].invoice in a.invoices
    requires a.invoices[a.charges[k].invoice].status == Finalized
    ensures k in b.charges && b.charges[k].invoice in b.invoices && Alike(Collected(a, k), Collected(b, k))
  {
    var i := a.charges[k].invoice;
    AlikeAt(a, b, i);
    hide NotOfType, Tidy, SameInvoices;
    var row := a.invoices[i].(status := Paid);
    EqualRow(row);
    PutAlike(a, b, i, row, row);
  }

  lemma RunChargeAlike(a: Db, b: Db, k: ChargeKey, i: InvoiceId, m: MethodId, o: Outcome)
    requires Alike(a, b) && i in a.invoices && a.invoices[i].status == Finalized
    ensures i in b.invoices && Alike(RunCharge(a, k, i, m, o), RunCharge(b, k, i, m, o))
  {
    AlikeAt(a, b, i);
    hide SameInvoices, NotOfType, Tidy, RecordApproved;
    if o.reply.Approved? {
      var inv := a.invoices[i];
      ApprovedAlike(a, b, k, Charge(i, inv.customer, m, inv.total, Pending, None), o.reply.intent, o.published);
    }
  }

  lemma ChargedAlike(a: Db, b: Db, k: ChargeKey, row: Charge)
    requires Alike(a, b)
    ensures Alike(WithCharge(a, k, row), WithCharge(b, k, row))
  {
    hide SameInvoices;
  }

  lemma ApprovedAlike(a: Db, b: Db, k: ChargeKey, row: Charge, intent: IntentId, published: bool)
    requires Alike(a, b) && row.invoice in a.invoices && a.invoices[row.invoice].status == Finalized
    ensures row.invoice in b.invoices
    ensures Alike(RecordApproved(a, k, row, intent, published), RecordApproved(b, k, row, intent, published))
  {
    var known := row.(intent := Some(intent));
    AlikeAt(a, b, row.invoice);
    ChargedAlike(a, b, k, row.(status := Failed));
    ChargedAlike(a, b, k, known);
    var x, y := WithCharge(a, k, known), WithCharge(b, k, known);
    CollectedAlike(x, y, k);
    assert Collected(x, k).charges[k] == Collected(y, k).charges[k] == known.(status := Succeeded);
    hide Alike, Collected, NotOfType, Tidy;
    ChargedAlike(Collected(x, k), Collected(y, k), k, known.(status := Failed));
  }

  /** What handlers read of rows that are alike. */
  lemma SameReads(a: Db, b: Db)
    requires Alike(a, b)
    ensures a.charges == b.charges && a.balances == b.balances && a.dunning == b.dunning && a.processed == b.processed
  {
    hide SameInvoices;
  }

  lemma SameStatus(a: Db, b: Db, i: InvoiceId)
    requires Alike(a, b)
    ensures i in a.invoices <==> i in b.invoices
    ensures i in a.invoices ==>
              a.invoices[i].status == b.invoices[i].status && (a.invoices[i].status == Finalized ==> a.invoices[i] == b.invoices[i])
  {
    AlikeAt(a, b, i);
    hide SameInvoices, NotOfType, Tidy;
  }

  lemma PayAlike(a: Db, b: Db, i: InvoiceId, n: nat, pm: Option<MethodId>, o: Outcome)
    requires Alike(a, b)
    ensures Pay(a, i, n, pm, o).report == Pay(b, i, n, pm, o).report
    ensures Alike(Pay(a, i, n, pm, o).db, Pay(b, i, n, pm, o).db)
  {
    hide Alike, RunCharge, ScheduleDunning;
    SameStatus(a, b, i);
    SameReads(a, b);
    if i in a.invoices && a.invoices[i].status == Finalized && pm.Some? {
      var x, y := RunCharge(a, Attempt(i, n), i, pm.value, o), RunCharge(b, Attempt(i, n), i, pm.value, o);
      RunChargeAlike(a, b, Attempt(i, n), i, pm.value, o);
      SameReads(x, y);
      ScheduledAlike(x, y, i);
    }
  }

  lemma ScheduledAlike(a: Db, b: Db, i: InvoiceId)
    requires Alike(a, b)
    ensures Alike(ScheduleDunning(a, i), ScheduleDunning(b, i))
  {
    hide SameInvoices, AnyNotSkipped;
  }

  lemma ChargeOnceAlike(a: Db, b: Db, i: InvoiceId, k: ChargeKey, c: CustomerId, amount: int, pm: Option<MethodId>, o: Outcome)
    requires Alike(a, b)
    ensures Alike(ChargeOnce(a, i, k, c, amount, pm, o), ChargeOnce(b, i, k, c, amount, pm, o))
  {
    assert a.charges == b.charges;
    hide Alike, RunCharge, Tidy, SameRow, Settled;
    if k !in a.charges && pm.Some? && amount > 0 {
      var inv := OneTimeInvoice(c, amount);
      var s := Settlement(inv.lines, 0, amount);
      OneLineIsTidy(inv, amount);
      EqualRow(inv);
      PutAlike(a, b, i, inv, inv);
      SettledAlike(WithDraft(a, i, inv), WithDraft(b, i, inv), i, s);
      ShowsSettled(WithDraft(a, i, inv), i, s);
      RunChargeAlike(Settled(WithDraft(a, i, inv), i, s), Settled(WithDraft(b, i, inv), i, s), k, i, pm.value, o);
    }
  }

  lemma ShowsSettled(db: Db, i: InvoiceId, s: Settlement)
    requires i in db.invoices
    ensures i in Settled(db, i, s).invoices
    ensures Settled(db, i, s).invoices[i].status == if s.total == 0 then Paid else Finalized
  {
  }

  lemma ChainAlike(a: Db, b: Db, i: InvoiceId, c: Chain)
    requires Alike(a, b)
    ensures Alike(WithChain(a, i, c), WithChain(b, i, c))
  {
    hide SameInvoices;
  }

  lemma RetryAlike(a: Db, b: Db, i: InvoiceId, j: nat, methods: seq<MethodId>, ready: bool, o: Outcome, limit: nat)
    requires Alike(a, b)
    ensures Alike(RunDunning(a, i, j, methods, ready, o, limit), RunDunning(b, i, j, methods, ready, o, limit))
  {
    hide Alike, Pay, SkipRest, Exhausted, AfterReport, SelectMethod, WithChain;
    SameStatus(a, b, i);
    SameReads(a, b);
    var c := ChainOf(a, i);
    if j < |c.retries| {
      var m := SelectMethod(methods, c.retries);
      ChainAlike(a, b, i, SkipRest(c, j));
      ChainAlike(a, b, i, Exhausted(c, j));
      if m.Some? {
        var pm := if ready then m else None;
        var x, y := Pay(a, i, c.retries[j].number, pm, o), Pay(b, i, c.retries[j].number, pm, o);
        PayAlike(a, b, i, c.retries[j].number, pm, o);
        ChainAlike(x.db, y.db, i, AfterReport(c, j, m.value, x.report, limit));
      }
    }
  }

  lemma SuccessAlike(a: Db, b: Db, e: EventId, found: Option<ChargeKey>, published: bool)
    requires Alike(a, b) && (found.Some? ==> found.value in a.charges)
    ensures Alike(PaymentSucceeded(a, e, found, published), PaymentSucceeded(b, e, found, published))
  {
    hide SameInvoices, NotOfType, Tidy, Collected;
    if found.Some? {
      AlikeAt(a, b, a.charges[found.value].invoice);
      if a.charges[found.value].invoice in a.invoices && a.invoices[a.charges[found.value].invoice].status == Finalized {
        CollectedAlike(a, b, found.value);
      }
    }
  }

  lemma NoteAlike(a: Db, b: Db, n: NoteId, known: bool, c: CustomerId, invoice: Option<InvoiceId>, amount: int)
    requires Alike(a, b) && SeesNoDifference(a, b, EvIssueCreditNote(n, known, c, invoice, amount))
    ensures Alike(IssueCreditNote(a, n, known, c, invoice, amount), IssueCreditNote(b, n, known, c, invoice, amount))
  {
    if invoice.Some? {
      AlikeAt(a, b, invoice.value);
      if invoice.value in a.invoices { SameVerdict(a.invoices[invoice.value], b.invoices[invoice.value], amount); }
    }
    NotedAlike(a, b, n, Note(c, amount));
    hide Alike, NotOfType, Tidy, WithNote;
  }

  /** Surcharges only add to a total. */
  lemma TotalCoversSubtotal(inv: Invoice)
    requires Tidy(inv)
    ensures inv.total >= Subtotal(inv)
  {
    SplitTotal(inv.lines, SurchargeLine);
    SurchargeShows(inv.lines);
  }

  lemma SameVerdict(x: Invoice, y: Invoice, amount: int)
    requires SameRow(x, y) && (x == y || amount <= Subtotal(x))
    ensures x.customer == y.customer && (amount > x.total <==> amount > y.total)
  {
    hide LineTotal, NotOfType, Tidy;
    if Tidy(x) { TotalCoversSubtotal(x); }
    if Tidy(y) { TotalCoversSubtotal(y); }
  }

  lemma NotedAlike(a: Db, b: Db, n: NoteId, note: Note)
    requires Alike(a, b)
    ensures Alike(WithNote(a, n, note), WithNote(b, n, note))
  {
    hide SameInvoices;
  }

  lemma RefundAlike(a: Db, b: Db, r: RefundKey, k: ChargeKey, owner: Option<CustomerId>, amount: int, accepted: bool)
    requires Alike(a, b)
    ensures Alike(CreateRefund(a, r, k, owner, amount, accepted), CreateRefund(b, r, k, owner, amount, accepted))
  {
    hide SameInvoices, SumBy;
  }

  // ---------------------------------------------------------------- steps and runs

  lemma EnabledAlike(a: Db, b: Db, ev: Event, how: Retelling)
    requires Alike(a, b) && Enabled(a, ev)
    ensures Enabled(b, RetoldEvent(ev, how))
  {
    hide SameInvoices, FoundRecurringDraft, FoundDraft;
    assert a.invoices.Keys == b.invoices.Keys by { AlikeMeans(a, b); }
    match ev
    case EvUpdateOpenDraft(c, found, _, _, _) => DraftsAlike(a, b, c, found);
    case EvRecalculate(c, found, _) => DraftsAlike(a, b, c, found);
    case EvVoidDraft(c, found) => DraftsAlike(a, b, c, found);
    case _ =>
  }

  lemma OtherStepAlike(a: Db, b: Db, ev: Event, limit: nat)
    requires Alike(a, b) && Enabled(a, ev) && Enabled(b, ev) && SeesNoDifference(a, b, ev)
    requires !ev.EvCreateDraft? && !ev.EvSeedCopy? && !ev.EvUpdateOpenDraft? && !ev.EvRecalculate?
    ensures Alike(Step(a, ev, limit), Step(b, ev, limit))
  {
    hide Alike, SeesNoDifference, VoidInvoice, Finalize, BillSubscription, Pay, ChargeOnce, RunDunning, PaymentSucceeded, PaymentFailed,
         IssueCreditNote, CreateRefund, FoundDraft, FoundRecurringDraft, FoundCharge;
    match ev
    case EvVoidDraft(c, found) => if found.Some? { ShownDraft(a, c, found); VoidedAlike(a, b, found.value); }
    case EvFinalize(i, terms) => FinalizeAlike(a, b, i, terms);
    case EvBillSubscription(i, c, sub, amount, terms) => BillAlike(a, b, i, c, sub, amount, terms);
    case EvVoidInvoice(i) => VoidInvoiceAlike(a, b, i);
    case EvPay(i, n, pm, o) => PayAlike(a, b, i, n, pm, o);
    case EvChargeOnce(i, k, c, amount, pm, o) => ChargeOnceAlike(a, b, i, k, c, amount, pm, o);
    case EvRunDunning(i, j, methods, ready, o) => RetryAlike(a, b, i, j, methods, ready, o, limit);
    case EvPaymentSucceeded(e, intent, found, published) =>
      ShownCharge(a, intent, found);
      SuccessAlike(a, b, e, found, published);
    case EvPaymentFailed(e, intent, found, published) =>
      ShownCharge(a, intent, found);
      FailureAlike(a, b, e, found, published);
    case EvOtherWebhook(e) => MarkedAlike(a, b, e);
    case EvIssueCreditNote(n, known, c, invoice, amount) => NoteAlike(a, b, n, known, c, invoice, amount);
    case EvCreateRefund(r, k, owner, amount, accepted) => RefundAlike(a, b, r, k, owner, amount, accepted);
  }

  lemma ShownDraft(db: Db, c: CustomerId, found: Option<InvoiceId>)
    requires FoundDraft(db, c, found) && found.Some?
    ensures found.value in db.invoices
  {
  }

  lemma ShownCharge(db: Db, intent: IntentId, found: Option<ChargeKey>)
    requires FoundCharge(db, intent, found)
    ensures found.Some? ==> found.value in db.charges
  {
  }

  lemma FailureAlike(a: Db, b: Db, e: EventId, found: Option<ChargeKey>, published: bool)
    requires Alike(a, b) && (found.Some? ==> found.value in a.charges)
    ensures Alike(PaymentFailed(a, e, found, published), PaymentFailed(b, e, found, published))
  {
    hide SameInvoices;
  }

  lemma MarkedAlike(a: Db, b: Db, e: EventId)
    requires Alike(a, b)
    ensures Alike(Marked(a, e), Marked(b, e))
  {
    hide SameInvoices;
  }

  lemma DraftStepAlike(a: Db, b: Db, ev: Event, others: Terms, limit: nat)
    requires Alike(a, b) && Enabled(a, ev) && Enabled(b, WithTerms(ev, others)) && Matching(ev)
    requires ev.EvCreateDraft? || ev.EvSeedCopy? || ev.EvUpdateOpenDraft? || ev.EvRecalculate?
    ensures Alike(Step(a, ev, limit), Step(b, WithTerms(ev, others), limit))
    ensures ev.EvRecalculate? ==> Alike(Step(a, ev, limit), b)
  {
    hide Alike, LineTotal, DraftLines, CreateDraft, SeedCopy, UpdateOpenDraft, Recalculate, FoundRecurringDraft;
    match ev
    case EvCreateDraft(i, c, sub, kind, lines, total, terms) => CreateAlike(a, b, i, c, sub, kind, lines, terms, others);
    case EvSeedCopy(i, from, c, rebuilt, terms) => SeedAlike(a, b, i, from, c, rebuilt, terms, others);
    case EvUpdateOpenDraft(c, found, lines, total, terms) => UpdateAlike(a, b, c, found, lines, terms, others);
    case EvRecalculate(c, found, terms) => RecalculateAlike(a, b, c, found, terms, others);
  }

  lemma StepAlike(a: Db, b: Db, ev: Event, how: Retelling, limit: nat) returns (after: Db)
    requires Alike(a, b) && Enabled(a, ev) && SeesNoDifference(a, b, ev)
    ensures RetoldStep(b, after, ev, how, limit) && Alike(Step(a, ev, limit), after)
  {
    hide Alike, Step, Enabled, LooksAtBilled;
    EnabledAlike(a, b, ev, how);
    after := if how.LeftOut? && ev.EvRecalculate? then b else Step(b, RetoldEvent(ev, how), limit);
    if ev.EvCreateDraft? || ev.EvSeedCopy? || ev.EvUpdateOpenDraft? || ev.EvRecalculate? {
      var others := if how.Under? then how.terms else ev.terms;
      assert WithTerms(ev, others) == if how.Under? then RetoldEvent(ev, how) else ev;
      EnabledAlike(a, b, ev, Under(others));
      DraftStepAlike(a, b, ev, others, limit);
    } else {
      assert RetoldEvent(ev, how) == ev;
      OtherStepAlike(a, b, ev, limit);
    }
  }

  /** The rows of invoices ever billed are equal. */
  ghost predicate SameBilled(states: seq<Db>, t: nat, other: Db)
    requires t < |states|
  {
    forall i :: EverBilled(states, t, i) ==>
      && i in states[t].invoices && states[t].invoices[i].status != Draft
      && i in other.invoices && other.invoices[i] == states[t].invoices[i]
  }

  lemma BilledBeforeOrNow(states: seq<Db>, t: nat, i: InvoiceId)
    requires t + 1 < |states| && EverBilled(states, t + 1, i)
    ensures EverBilled(states, t, i) || (i in states[t + 1].invoices && FinalizedOrPaid(states[t + 1].invoices[i]))
  {
    var k :| 0 <= k <= t + 1 && i in states[k].invoices && FinalizedOrPaid(states[k].invoices[i]);
    assert k <= t ==> EverBilled(states, t, i);
  }

  lemma StepKeepsBilled(states: seq<Db>, t: nat, b: Db, after: Db)
    requires t + 1 < |states| && SameBilled(states, t, b) && Alike(states[t + 1], after)
    requires Follows(states[t], states[t + 1]) && Follows(b, after)
    ensures SameBilled(states, t + 1, after)
  {
    hide EverBilled, Alike;
    forall i | EverBilled(states, t + 1, i)
      ensures i in states[t + 1].invoices && states[t + 1].invoices[i].status != Draft
      ensures i in after.invoices && after.invoices[i] == states[t + 1].invoices[i]
    {
      BilledBeforeOrNow(states, t, i);
      AlikeMeans(states[t + 1], after);
      if EverBilled(states, t, i) {
        assert Continues(states[t].invoices[i], states[t + 1].invoices[i]) && Continues(b.invoices[i], after.invoices[i]);
      }
    }
  }

  lemma RetoldFollows(b: Db, after: Db, ev: Event, how: Retelling, limit: nat)
    requires Sound(b) && RetoldStep(b, after, ev, how, limit)
    ensures Sound(after) && Follows(b, after)
  {
    hide Sound, Step, Enabled, Follows;
    FollowsReflexive(b);
    if !(how.LeftOut? && ev.EvRecalculate?) { StepKeeps(b, RetoldEvent(ev, how), limit); }
  }

  lemma NoDifferenceSeen(states: seq<Db>, events: seq<Event>, k: nat, other: Db)
    requires k < |events| && k < |states| && LooksAtBilled(states, events, k) && SameBilled(states, k, other)
    ensures SeesNoDifference(states[k], other, events[k])
  {
    hide EverBilled, Matching;
  }

  lemma StartsAlike(states: seq<Db>, events: seq<Event>, limit: nat)
    requires Run(states, events, limit)
    ensures Alike(EMPTY_DB, EMPTY_DB) && Sound(EMPTY_DB) && SameBilled(states, 0, EMPTY_DB)
  {
    RunIsSound(states, events, limit, 0);
    hide Sound, Step;
  }

  lemma {:induction false} RetoldRun(states: seq<Db>, events: seq<Event>, how: seq<Retelling>, limit: nat, n: nat)
    returns (others: seq<Db>)
    requires Run(states, events, limit) && |how| == |events| && n <= |events|
    requires forall k :: 0 <= k < |events| ==> LooksAtBilled(states, events, k)
    ensures Retold(others, events[..n], how[..n], limit)
    ensures forall t :: 0 <= t <= n ==> Alike(states[t], others[t]) && SameBilled(states, t, others[t])
    ensures Sound(others[n])
  {
    hide Alike, Step, Enabled, LooksAtBilled, RetoldStep, Sound, SameBilled, Follows, SeesNoDifference;
    if n == 0 {
      others := [EMPTY_DB];
      StartsAlike(states, events, limit);
    } else {
      var before := RetoldRun(states, events, how, limit, n - 1);
      var k := n - 1;
      NoDifferenceSeen(states, events, k, before[k]);
      var after := StepAlike(states[k], before[k], events[k], how[k], limit);
      RetoldFollows(before[k], after, events[k], how[k], limit);
      RunIsSound(states, events, limit, k);
      StepKeeps(states[k], events[k], limit);
      StepKeepsBilled(states, k, before[k], after);
      others := before + [after];
      assert events[..k] == events[..n][..k] && how[..k] == how[..n][..k];
    }
  }

  lemma AlikeMeans(a: Db, b: Db)
    requires Alike(a, b)
    ensures b == a.(invoices := b.invoices) && b.invoices.Keys == a.invoices.Keys
    ensures forall i :: i in a.invoices ==>
              && b.invoices[i] == a.invoices[i].(total := b.invoices[i].total, lines := b.invoices[i].lines)
              && NotOfType(a.invoices[i].lines, SurchargeLine) == NotOfType(b.invoices[i].lines, SurchargeLine)
              && (FinalizedOrPaid(a.invoices[i]) ==> a.invoices[i] == b.invoices[i])
  {
    hide Tidy;
  }

  /** Draft-time surcharges are forgotten: leave out any recalculations, and put any calls that write drafts under
      other terms, and the run is still possible. After every step it has the same journal, balances, notes,
      charges, refunds and dunning, and the same invoices, except that those never billed may differ in their
      surcharge lines and so in their totals. */
  lemma DraftTermsAreForgotten(states: seq<Db>, events: seq<Event>, how: seq<Retelling>, limit: nat)
    returns (others: seq<Db>)
    requires Run(states, events, limit) && |how| == |events|
    requires forall k :: 0 <= k < |events| ==> LooksAtBilled(states, events, k)
    ensures Retold(others, events, how, limit)
    ensures forall t :: 0 <= t < |states| ==>
              others[t] == states[t].(invoices := others[t].invoices) && others[t].invoices.Keys == states[t].invoices.Keys
    ensures forall t, i :: 0 <= t < |states| && i in states[t].invoices ==>
              var a, b := states[t].invoices[i], others[t].invoices[i];
              && b == a.(total := b.total, lines := b.lines)
              && NotOfType(a.lines, SurchargeLine) == NotOfType(b.lines, SurchargeLine)
              && (EverBilled(states, t, i) ==> a == b)
  {
    others := RetoldRun(states, events, how, limit, |events|);
    assert events[..|events|] == events && how[..|events|] == how;
    hide Alike, Step, Enabled, LooksAtBilled, RetoldStep, NotOfType, EverBilled;
    forall t | 0 <= t < |states|
      ensures others[t] == states[t].(invoices := others[t].invoices) && others[t].invoices.Keys == states[t].invoices.Keys
      ensures forall i :: i in states[t].invoices ==>
                var a, b := states[t].invoices[i], others[t].invoices[i];
                && b == a.(total := b.total, lines := b.lines)
                && NotOfType(a.lines, SurchargeLine) == NotOfType(b.lines, SurchargeLine)
                && (EverBilled(states, t, i) ==> a == b)
    {
      AlikeMeans(states[t], others[t]);
    }
  }

  // ---------------------------------------------------------------- credit notes for drafts

  /** Whether a note for a draft is issued when its surcharge was last recalculated under these terms. */
  predicate IssuedUnder(db: Db, n: NoteId, i: InvoiceId, amount: int, terms: Terms)
    requires i in db.invoices
  {
    var draft := Resurcharged(db.invoices[i], terms);
    n in IssueCreditNote(WithDraft(db, i, draft), n, true, draft.customer, Some(i), amount).notes
  }

  /** A note for a draft is issued whatever the surcharge terms exactly when it is at most the subtotal; above that it
      is refused without a surcharge and issued with a flat fee. */
  lemma NotesSeeDraftTotals(db: Db, n: NoteId, i: InvoiceId, amount: int)
    requires i in db.invoices && n !in db.notes && amount != 0
    ensures (forall terms :: IssuedUnder(db, n, i, amount, terms)) <==> amount <= Subtotal(db.invoices[i])
    ensures var none, fee := Terms(false, None), Terms(true, Some(FlatFee(amount - Subtotal(db.invoices[i]))));
            amount > Subtotal(db.invoices[i]) ==> !IssuedUnder(db, n, i, amount, none) && IssuedUnder(db, n, i, amount, fee)
  {
    hide LineTotal, NotOfType;
    var none, fee := Terms(false, None), Terms(true, Some(FlatFee(amount - Subtotal(db.invoices[i]))));
    forall terms ensures IssuedUnder(db, n, i, amount, terms)
                         <==> amount <= Subtotal(db.invoices[i]) + Surcharge(terms, Subtotal(db.invoices[i]))
    {
    }
    assert amount > Subtotal(db.invoices[i]) ==> !IssuedUnder(db, n, i, amount, none) && IssuedUnder(db, n, i, amount, fee);
    hide IssuedUnder;
  }

  const FLAT := Terms(true, Some(FlatFee(1)))
  const BARE := Terms(false, None)

  function Work(): seq<LineItem> { [LineItem(OtherLine, 300, 1)] }

  function NotedEvent(k: nat): Event {
    if k == 0 then EvCreateDraft(0, 0, Some(1), Recurring, Work(), 300, FLAT)
    else EvIssueCreditNote(0, true, 0, Some(0), 350)
  }

  /** A draft of 300 with a fee of 100, and a note of 350 for it. */
  function NotedState(k: nat): Db {
    var draft := Invoice(0, Some(1), Recurring, Draft, 400, Work() + [LineItem(SurchargeLine, 100, 1)]);
    if k == 0 then EMPTY_DB
    else if k == 1 then EMPTY_DB.(invoices := map[0 := draft])
    else WithNote(EMPTY_DB.(invoices := map[0 := draft]), 0, Note(0, 350))
  }

  /** The same without the fee. */
  function UnnotedState(k: nat): Db {
    if k == 0 then EMPTY_DB
    else EMPTY_DB.(invoices := map[0 := Invoice(0, Some(1), Recurring, Draft, 300, Work())])
  }

  /** Such a run: a note of 350 is issued for a draft of 300 under a flat fee of 100, and refused when the draft was
      written under no fee. */
  lemma NoteDependsOnFee(limit: nat) returns (states: seq<Db>, others: seq<Db>, events: seq<Event>)
    ensures Run(states, events, limit) && |events| == 2
    ensures Retold(others, events, [Under(BARE), AsTold], limit)
    ensures 0 in states[2].notes && 0 !in others[2].notes && states[2].ledger != others[2].ledger
  {
    states, others := seq(3, (k: nat) => NotedState(k)), seq(3, (k: nat) => UnnotedState(k));
    events := seq(2, (k: nat) => NotedEvent(k));
    var how := [Under(BARE), AsTold];
    var none: seq<LineItem> := [];
    assert Work() + none == Work();
    hide LineTotal, Pay, RunDunning, ChargeOnce, Finalize, BillSubscription, PaymentSucceeded, PaymentFailed, CreateRefund,
         VoidInvoice, VoidDraft, Recalculate, UpdateOpenDraft, SeedCopy;
    forall t | 0 <= t < 2 ensures Enabled(states[t], events[t]) && states[t + 1] == Step(states[t], events[t], limit) {
    }
    forall t | 0 <= t < 2 ensures RetoldStep(others[t], others[t + 1], events[t], how[t], limit) {
    }
  }
}
