/** Every handler is a short sequence of guarded row changes. What all guarded changes keep, every run
    keeps. */
module BillingChanges {
  import opened Options
  import opened BillingState
  import opened BillingHandlers
  import opened LineItems

  /** `WriteDraft` gives a draft lines from outside; `PutDraft` leaves the credit its lines show. */
  datatype Change =
    | WriteDraft(i: InvoiceId, draft: Invoice)
    | PutDraft(i: InvoiceId, draft: Invoice)
    | DropDraft(i: InvoiceId)
    | SettleInvoice(i: InvoiceId, credit: int, terms: Terms)
    | Cancel(i: InvoiceId)
    | InsertCharge(k: ChargeKey, row: Charge)
    | FailCharge(k: ChargeKey)
    | Collect(k: ChargeKey)
    | AddNote(n: NoteId, note: Note)
    | FailRefund(r: RefundKey, k: ChargeKey, amount: int)
    | PayRefund(r: RefundKey, k: ChargeKey, amount: int)
    | PutChain(i: InvoiceId, chain: Chain)
    | Mark(e: EventId)

  predicate SameOwner(a: Invoice, b: Invoice) {
    a.customer == b.customer && a.subscription == b.subscription && a.kind == b.kind
  }

  /** The draft is new, or rewrites a draft of the same owner. */
  predicate Writable(db: Db, i: InvoiceId, draft: Invoice) {
    draft.status == Draft
    && (i in db.invoices ==> SameOwner(db.invoices[i], draft) && db.invoices[i].status == Draft)
  }

  function ShownBy(db: Db, i: InvoiceId): int {
    if i in db.invoices then CreditOn(db.invoices[i].lines) else 0
  }

  ghost predicate Allowed(db: Db, ch: Change) {
    match ch
    case WriteDraft(i, draft) => Writable(db, i, draft)
    case PutDraft(i, draft) => Writable(db, i, draft) && CreditOn(draft.lines) == ShownBy(db, i)
    case DropDraft(i) => i in db.invoices && db.invoices[i].status == Draft
    case SettleInvoice(i, credit, terms) =>
      && i in db.invoices && db.invoices[i].status == Draft
      && Settle(db.invoices[i].lines, db.invoices[i].total, credit, terms).Some?
    case Cancel(i) => i in db.invoices && db.invoices[i].status == Finalized && db.invoices[i].total > 0
    case InsertCharge(k, row) =>
      && k !in db.charges && row.status != Succeeded
      && row.invoice in db.invoices && db.invoices[row.invoice].status == Finalized
      && row.customer == db.invoices[row.invoice].customer
      && row.amount == db.invoices[row.invoice].total
    case FailCharge(k) => k in db.charges
    case Collect(k) =>
      && k in db.charges && db.charges[k].invoice in db.invoices
      && db.invoices[db.charges[k].invoice].status == Finalized
      && db.invoices[db.charges[k].invoice].total > 0
    case AddNote(n, note) => n !in db.notes && note.amount != 0
    case FailRefund(r, k, _) => r !in db.refunds && k in db.charges
    case PayRefund(r, k, amount) =>
      && r !in db.refunds && k in db.charges && db.charges[k].status == Succeeded
      && amount > 0 && RefundedCents(db, k) + amount <= db.charges[k].amount
    case PutChain(i, _) => true
    case Mark(_) => true
  }

  ghost function Apply(db: Db, ch: Change): Db
    requires Allowed(db, ch)
  {
    match ch
    case WriteDraft(i, draft) => WithDraft(db, i, draft)
    case PutDraft(i, draft) => WithDraft(db, i, draft)
    case DropDraft(i) => WithVoidedDraft(db, i)
    case SettleInvoice(i, credit, terms) =>
      Settled(db, i, Settle(db.invoices[i].lines, db.invoices[i].total, credit, terms).value)
    case Cancel(i) => Voided(db, i)
    case InsertCharge(k, row) => WithCharge(db, k, row)
    case FailCharge(k) => WithCharge(db, k, db.charges[k].(status := Failed))
    case Collect(k) => Collected(db, k)
    case AddNote(n, note) => WithNote(db, n, note)
    case FailRefund(r, k, amount) => WithFailedRefund(db, r, k, amount)
    case PayRefund(r, k, amount) => Refunded(db, r, k, amount)
    case PutChain(i, chain) => WithChain(db, i, chain)
    case Mark(e) => Marked(db, e)
  }

  /** The changes lead from `db` to `end`, each allowed where it is made. */
  ghost predicate Leads(db: Db, changes: seq<Change>, end: Db)
    decreases |changes|
  {
    if changes == [] then db == end
    else Allowed(db, changes[0]) && Leads(Apply(db, changes[0]), changes[1..], end)
  }

  /** No line comes from outside. */
  predicate Inside(changes: seq<Change>) {
    forall ch :: ch in changes ==> !ch.WriteDraft?
  }

  /** `end` is `db` after some allowed changes that bring no lines from outside. */
  ghost predicate Reaches(db: Db, end: Db) {
    exists changes :: Leads(db, changes, end) && Inside(changes)
  }

  lemma Stay(db: Db)
    ensures Reaches(db, db)
  {
    assert Leads(db, [], db);
  }

  lemma {:induction false} LeadsOn(db: Db, changes: seq<Change>, mid: Db, ch: Change)
    requires Leads(db, changes, mid) && Allowed(mid, ch)
    ensures Leads(db, changes + [ch], Apply(mid, ch))
    decreases |changes|
  {
    if changes == [] {
      assert [ch][1..] == [];
    } else {
      LeadsOn(Apply(db, changes[0]), changes[1..], mid, ch);
      assert (changes + [ch])[1..] == changes[1..] + [ch];
    }
  }

  lemma Then(db: Db, mid: Db, ch: Change)
    requires Reaches(db, mid) && Allowed(mid, ch) && !ch.WriteDraft?
    ensures Reaches(db, Apply(mid, ch))
  {
    var changes :| Leads(db, changes, mid) && Inside(changes);
    LeadsOn(db, changes, mid, ch);
  }

  // ---------------------------------------------------------------- every handler is made of them

  lemma ChargeReaches(start: Db, db: Db, k: ChargeKey, i: InvoiceId, m: MethodId, o: Outcome)
    requires Reaches(start, db)
    requires i in db.invoices && db.invoices[i].status == Finalized && k !in db.charges
    ensures Reaches(start, RunCharge(db, k, i, m, o))
  {
    var run := RunCharge(db, k, i, m, o);
    var row := Charge(i, db.invoices[i].customer, m, db.invoices[i].total, Pending, None);
    if o.reply.Approved? && db.invoices[i].total > 0 {
      row := row.(intent := Some(o.reply.intent));
      var inserted := WithCharge(db, k, row);
      Then(start, db, InsertCharge(k, row));
      Then(start, inserted, Collect(k));
      if !o.published { Then(start, Collected(inserted, k), FailCharge(k)); }
    } else {
      Then(start, db, InsertCharge(k, run.charges[k]));
    }
  }

  lemma ChainReaches(start: Db, db: Db, i: InvoiceId, c: Chain)
    requires Reaches(start, db)
    ensures Reaches(start, WithChain(db, i, c))
  {
    Then(start, db, PutChain(i, c));
  }

  lemma PayReaches(db: Db, i: InvoiceId, n: nat, pm: Option<MethodId>, o: Outcome)
    ensures Reaches(db, Pay(db, i, n, pm, o).db)
  {
    Stay(db);
    if i in db.invoices && db.invoices[i].status == Finalized && pm.Some? && Attempt(i, n) !in db.charges {
      var run := RunCharge(db, Attempt(i, n), i, pm.value, o);
      ChargeReaches(db, db, Attempt(i, n), i, pm.value, o);
      var c := ChainOf(run, i);
      ChainReaches(db, run, i, c.(retries := c.retries + [Retry(1, Scheduled, None)]));
    }
  }

  lemma DunningReaches(db: Db, i: InvoiceId, j: nat, methods: seq<MethodId>, ready: bool, o: Outcome, limit: nat)
    ensures Reaches(db, RunDunning(db, i, j, methods, ready, o, limit))
  {
    Stay(db);
    var after := RunDunning(db, i, j, methods, ready, o, limit);
    var c := ChainOf(db, i);
    if after != db {
      var m := SelectMethod(methods, c.retries);
      if db.invoices[i].status == Paid || db.invoices[i].status == Void || m.None? {
        ChainReaches(db, db, i, after.dunning[i]);
      } else {
        var p := Pay(db, i, c.retries[j].number, if ready then Some(m.value) else None, o);
        PayReaches(db, i, c.retries[j].number, if ready then Some(m.value) else None, o);
        if !p.report.Raised? { ChainReaches(db, p.db, i, after.dunning[i]); }
      }
    }
  }

  lemma ChargeOnceReaches(db: Db, i: InvoiceId, k: ChargeKey, c: CustomerId, amount: int,
                          pm: Option<MethodId>, o: Outcome)
    requires i !in db.invoices
    ensures Reaches(db, ChargeOnce(db, i, k, c, amount, pm, o))
  {
    Stay(db);
    if !(k in db.charges || pm.None? || amount <= 0) {
      var inv := OneTimeInvoice(c, amount);
      var draft := WithDraft(db, i, inv);
      var free := Terms(false, None);
      PlainShowsNoCredit(inv.lines);
      Then(db, db, PutDraft(i, inv));
      assert OfType(inv.lines, SurchargeLine) == [];
      assert inv.lines + [] + [] == inv.lines;
      assert Settle(inv.lines, amount, 0, free) == Some(Settlement(inv.lines, 0, amount));
      Then(db, draft, SettleInvoice(i, 0, free));
      ChargeReaches(db, Settled(draft, i, Settlement(inv.lines, 0, amount)), k, i, pm.value, o);
    }
  }

  lemma ResurchargeShowsSame(draft: Invoice, terms: Terms)
    ensures CreditOn(Resurcharged(draft, terms).lines) == CreditOn(draft.lines)
  {
    var kept := NotOfType(draft.lines, SurchargeLine);
    StrippingKeepsCredit(draft.lines);
    SurchargeLinesHide(kept, Surcharge(terms, LineTotal(kept)));
  }

  lemma DraftReaches(db: Db, ev: Event, limit: nat)
    requires Enabled(db, ev)
    requires ev.EvRecalculate? || ev.EvVoidDraft?
    ensures Reaches(db, Step(db, ev, limit))
  {
    hide CreditOn;
    Stay(db);
    match ev
    case EvRecalculate(c, found, terms) =>
      if found.Some? {
        ResurchargeShowsSame(db.invoices[found.value], terms);
        Then(db, db, PutDraft(found.value, Resurcharged(db.invoices[found.value], terms)));
      }
    case EvVoidDraft(_, found) => if found.Some? { Then(db, db, DropDraft(found.value)); }
  }

  /** The draft a step writes with lines from outside: its id and its new row, if it writes one. */
  function Written(db: Db, ev: Event): (r: Option<(InvoiceId, Invoice)>)
    requires WritesLines(ev)
  {
    match ev
    case EvCreateDraft(i, c, sub, kind, lines, total, terms) =>
      var fee := Surcharge(terms, total);
      Some((i, Invoice(c, sub, kind, Draft, total + fee, lines + SurchargeLines(fee))))
    case EvSeedCopy(i, from, c, rebuilt, terms) =>
      if from !in db.invoices || db.invoices[from].kind != Recurring || db.invoices[from].subscription.None? then None
      else
        var lines := CopiedLines(NotOfType(db.invoices[from].lines, SurchargeLine), rebuilt);
        var fee := Surcharge(terms, LineTotal(lines));
        Some((i, Invoice(c, db.invoices[from].subscription, Recurring, Draft, LineTotal(lines) + fee,
                         lines + SurchargeLines(fee))))
    case EvUpdateOpenDraft(c, found, lines, total, terms) =>
      if found.None? || found.value !in db.invoices || !OnlyRecurringDraft(db, c, found.value) then None
      else
        var fee := Surcharge(terms, total);
        Some((found.value, db.invoices[found.value].(total := total + fee, lines := lines + SurchargeLines(fee))))
  }

  /** A step that gives a draft its lines is that one change, or none. */
  lemma WriteIsAllowed(db: Db, ev: Event, limit: nat)
    requires Enabled(db, ev) && WritesLines(ev)
    ensures var w := Written(db, ev);
            if w.None? then Step(db, ev, limit) == db
            else Allowed(db, WriteDraft(w.value.0, w.value.1))
                 && Step(db, ev, limit) == Apply(db, WriteDraft(w.value.0, w.value.1))
  {
    hide Surcharge, SurchargeLines, LineTotal, CopiedLines, NotOfType, Pay, RunDunning, ChargeOnce, Finalize, BillSubscription,
         PaymentSucceeded, PaymentFailed, IssueCreditNote, CreateRefund, VoidInvoice, VoidDraft, Recalculate;
  }

  lemma SettlementReaches(db: Db, ev: Event, limit: nat)
    requires Enabled(db, ev)
    requires ev.EvFinalize? || ev.EvBillSubscription? || ev.EvVoidInvoice?
    ensures Reaches(db, Step(db, ev, limit))
  {
    Stay(db);
    match ev
    case EvFinalize(i, terms) =>
      if i in db.invoices && Allowed(db, SettleInvoice(i, Balance(db, db.invoices[i].customer), terms)) {
        Then(db, db, SettleInvoice(i, Balance(db, db.invoices[i].customer), terms));
      }
    case EvBillSubscription(i, c, sub, amount, terms) =>
      var inv := SubscriptionInvoice(c, sub, amount);
      if Settle(inv.lines, inv.total, Balance(db, c), terms).Some? {
        PlainShowsNoCredit(inv.lines);
        Then(db, db, PutDraft(i, inv));
        Then(db, WithDraft(db, i, inv), SettleInvoice(i, Balance(db, c), terms));
      }
    case EvVoidInvoice(i) => if Allowed(db, Cancel(i)) { Then(db, db, Cancel(i)); }
  }

  lemma WebhookReaches(db: Db, ev: Event, limit: nat)
    requires Enabled(db, ev)
    requires ev.EvPaymentSucceeded? || ev.EvPaymentFailed? || ev.EvOtherWebhook?
    ensures Reaches(db, Step(db, ev, limit))
  {
    Stay(db);
    Then(db, db, Mark(ev.e));
    if ev.EvPaymentSucceeded? && ev.charge.Some? && Allowed(db, Collect(ev.charge.value)) {
      Then(db, db, Collect(ev.charge.value));
      Then(db, Collected(db, ev.charge.value), Mark(ev.e));
    }
    if ev.EvPaymentFailed? && ev.charge.Some? {
      Then(db, db, FailCharge(ev.charge.value));
      Then(db, Apply(db, FailCharge(ev.charge.value)), Mark(ev.e));
    }
  }

  lemma CreditReaches(db: Db, ev: Event, limit: nat)
    requires Enabled(db, ev)
    requires ev.EvIssueCreditNote? || ev.EvCreateRefund?
    ensures Reaches(db, Step(db, ev, limit))
  {
    Stay(db);
    hide Reaches;
    match ev
    case EvIssueCreditNote(n, _, c, _, amount) =>
      if amount != 0 { Then(db, db, AddNote(n, Note(c, amount))); }
    case EvCreateRefund(r, k, _, amount, _) =>
      if Allowed(db, PayRefund(r, k, amount)) { Then(db, db, PayRefund(r, k, amount)); }
      if Allowed(db, FailRefund(r, k, amount)) { Then(db, db, FailRefund(r, k, amount)); }
  }

  /** The handlers that give a draft its lines. */
  predicate WritesLines(ev: Event) {
    ev.EvCreateDraft? || ev.EvSeedCopy? || ev.EvUpdateOpenDraft?
  }

  /** Every step that gives no draft its lines is a sequence of allowed changes. */
  lemma StepReaches(db: Db, ev: Event, limit: nat)
    requires Enabled(db, ev) && !WritesLines(ev)
    ensures Reaches(db, Step(db, ev, limit))
  {
    match ev
    case EvRecalculate(_, _, _) => DraftReaches(db, ev, limit);
    case EvVoidDraft(_, _) => DraftReaches(db, ev, limit);
    case EvFinalize(_, _) => SettlementReaches(db, ev, limit);
    case EvBillSubscription(_, _, _, _, _) => SettlementReaches(db, ev, limit);
    case EvVoidInvoice(_) => SettlementReaches(db, ev, limit);
    case EvPay(i, n, pm, o) => PayReaches(db, i, n, pm, o);
    case EvChargeOnce(i, k, c, amount, pm, o) => ChargeOnceReaches(db, i, k, c, amount, pm, o);
    case EvRunDunning(i, j, methods, ready, o) => DunningReaches(db, i, j, methods, ready, o, limit);
    case EvPaymentSucceeded(_, _, _, _) => WebhookReaches(db, ev, limit);
    case EvPaymentFailed(_, _, _, _) => WebhookReaches(db, ev, limit);
    case EvOtherWebhook(_) => WebhookReaches(db, ev, limit);
    case EvIssueCreditNote(_, _, _, _, _) => CreditReaches(db, ev, limit);
    case EvCreateRefund(_, _, _, _, _) => CreditReaches(db, ev, limit);
  }
}
