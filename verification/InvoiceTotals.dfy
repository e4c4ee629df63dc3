/** In runs whose callers pass matching totals, every invoice total is the sum of its lines; and in every run the
    ledger equations hold for the plain totals exactly when no finalized total is negative. */
module InvoiceTotals {
  import opened Options
  import opened Sums
  import opened Ledger
  import opened BillingState
  import opened BillingHandlers
  import opened BillingChanges
  import opened LineItems
  import opened BillingRuns
  import opened LineTotals

  ghost predicate TotalsMatch(db: Db) {
    && (forall i :: i in db.invoices && db.invoices[i].status == Draft ==> DraftLines(db.invoices[i].lines))
    && forall i :: i in db.invoices ==> db.invoices[i].total == LineTotal(db.invoices[i].lines)
  }

  /** No draft has a negative subtotal and no billed invoice a negative total. */
  predicate NonNegative(inv: Invoice) {
    && (inv.status == Draft ==> LineTotal(NotOfType(inv.lines, SurchargeLine)) >= 0)
    && (inv.status == Finalized || inv.status == Paid ==> inv.total >= 0)
  }

  ghost predicate Solvent(db: Db) {
    forall i :: i in db.invoices ==> NonNegative(db.invoices[i])
  }

  /** The caller of a draft passes the sum of its lines as the total. */
  predicate Matching(ev: Event) {
    match ev
    case EvCreateDraft(_, _, _, _, lines, total, _) => total == LineTotal(lines) && DraftLines(lines)
    case EvUpdateOpenDraft(_, _, lines, total, _) => total == LineTotal(lines) && DraftLines(lines)
    case _ => true
  }

  /** No call brings a negative subtotal: neither a caller's lines, nor the amount of a subscription, nor the copy
      that a draft is seeded with. */
  predicate Fair(db: Db, ev: Event) {
    match ev
    case EvCreateDraft(_, _, _, _, lines, _, _) => LineTotal(NotOfType(lines, SurchargeLine)) >= 0
    case EvSeedCopy(_, from, _, rebuilt, _) =>
      from in db.invoices ==> LineTotal(CopiedLines(NotOfType(db.invoices[from].lines, SurchargeLine), rebuilt)) >= 0
    case EvUpdateOpenDraft(_, _, lines, _, _) => LineTotal(NotOfType(lines, SurchargeLine)) >= 0
    case EvBillSubscription(_, _, _, amount, _) => amount >= 0
    case _ => true
  }

  predicate Kept(a: Invoice, b: Invoice) {
    && b == a.(status := b.status)
    && (a.status == Draft ==> b.status == Draft || b.status == Void)
    && (b.status == Draft ==> a.status == Draft)
    && (a.status == Void ==> b.status == Void)
  }

  /** Only statuses change. */
  ghost predicate KeptLines(db: Db, after: Db) {
    && after.invoices.Keys == db.invoices.Keys
    && forall i :: i in db.invoices ==> Kept(db.invoices[i], after.invoices[i])
  }

  /** Totals add up, and with `fair` calls none is negative. */
  ghost predicate Adds(db: Db, fair: bool) { TotalsMatch(db) && (fair ==> Solvent(db)) }

  lemma KeptLinesAdd(db: Db, after: Db, fair: bool)
    requires Adds(db, fair) && KeptLines(db, after)
    ensures Adds(after, fair)
  {
    hide LineTotal, NotOfType;
  }

  /** Writing one invoice that adds up. */
  lemma PutAdds(db: Db, after: Db, i: InvoiceId, fair: bool)
    requires Adds(db, fair) && i in after.invoices && after.invoices == db.invoices[i := after.invoices[i]]
    requires after.invoices[i].status == Draft ==> DraftLines(after.invoices[i].lines)
    requires after.invoices[i].total == LineTotal(after.invoices[i].lines) && (fair ==> NonNegative(after.invoices[i]))
    ensures Adds(after, fair)
  {
    hide LineTotal, NotOfType;
  }

  lemma ChargeKeepsLines(db: Db, k: ChargeKey, i: InvoiceId, m: MethodId, o: Outcome)
    requires i in db.invoices && db.invoices[i].status == Finalized
    ensures KeptLines(db, RunCharge(db, k, i, m, o))
  {
  }

  lemma PayKeepsLines(db: Db, i: InvoiceId, n: nat, pm: Option<MethodId>, o: Outcome)
    ensures KeptLines(db, Pay(db, i, n, pm, o).db)
  {
    hide RunCharge;
    if i in db.invoices && db.invoices[i].status == Finalized && pm.Some? {
      ChargeKeepsLines(db, Attempt(i, n), i, pm.value, o);
    }
  }

  lemma RetryKeepsLines(db: Db, i: InvoiceId, j: nat, methods: seq<MethodId>, ready: bool, o: Outcome, limit: nat)
    ensures KeptLines(db, RunDunning(db, i, j, methods, ready, o, limit))
  {
    hide Pay, SkipRest, Exhausted, AfterReport, SelectMethod;
    var c := ChainOf(db, i);
    if j < |c.retries| && SelectMethod(methods, c.retries).Some? {
      var m := SelectMethod(methods, c.retries).value;
      PayKeepsLines(db, i, c.retries[j].number, if ready then Some(m) else None, o);
    }
  }

  lemma SuccessEventKeepsLines(db: Db, e: EventId, found: Option<ChargeKey>, published: bool)
    requires found.Some? ==> found.value in db.charges
    ensures KeptLines(db, PaymentSucceeded(db, e, found, published))
  {
  }

  lemma OtherKeepsLines(db: Db, ev: Event, limit: nat)
    requires Enabled(db, ev)
    requires ev.EvVoidDraft? || ev.EvVoidInvoice? || ev.EvPaymentFailed? || ev.EvOtherWebhook?
             || ev.EvIssueCreditNote? || ev.EvCreateRefund?
    ensures KeptLines(db, Step(db, ev, limit))
  {
    hide Pay, RunDunning, ChargeOnce, CreateDraft, UpdateOpenDraft, Recalculate, Finalize, VoidInvoice, VoidDraft,
         BillSubscription, PaymentSucceeded, RefundedCents, FoundCharge, FoundDraft, KeptLines;
    if ev.EvVoidDraft? {
      VoidDraftKeepsLines(db, ev.c, ev.found);
    } else if ev.EvVoidInvoice? {
      VoidInvoiceKeepsLines(db, ev.i);
    } else {
      SameInvoicesKeepLines(db, Step(db, ev, limit));
    }
  }

  lemma VoidDraftKeepsLines(db: Db, c: CustomerId, found: Option<InvoiceId>)
    requires FoundDraft(db, c, found)
    ensures KeptLines(db, VoidDraft(db, c, found))
  {
  }

  lemma VoidInvoiceKeepsLines(db: Db, i: InvoiceId)
    ensures KeptLines(db, VoidInvoice(db, i))
  {
  }

  lemma SameInvoicesKeepLines(db: Db, after: Db)
    requires after.invoices == db.invoices
    ensures KeptLines(db, after)
  {
  }

  /** The surcharge added to the lines from outside is a line like those it joins, and no part of the subtotal. */
  lemma DraftWithFee(lines: seq<LineItem>, fee: int)
    requires DraftLines(lines) && fee >= 0
    ensures DraftLines(lines + SurchargeLines(fee))
    ensures NotOfType(lines + SurchargeLines(fee), SurchargeLine) == NotOfType(lines, SurchargeLine)
    ensures LineTotal(lines + SurchargeLines(fee)) == LineTotal(lines) + fee
  {
    hide LineTotal, OfType, NotOfType;
    AppendLineTotals(lines, 0, fee);
    if fee > 0 {
      OfTypeAppend(lines, LineItem(SurchargeLine, fee, 1), SurchargeLine);
      assert NotOfType(lines, SurchargeLine) + [] == NotOfType(lines, SurchargeLine);
    } else {
      assert lines + SurchargeLines(fee) == lines;
    }
  }

  /** A copy has no surcharge lines, so its total is its subtotal. */
  lemma CopyIsPlain(lines: seq<LineItem>, rebuilt: map<nat, int>)
    ensures var copy := CopiedLines(NotOfType(lines, SurchargeLine), rebuilt);
            DraftLines(copy) && NotOfType(copy, SurchargeLine) == copy
  {
    hide LineTotal, OfType, CopiedLines;
    KeptLinesAreOld(lines, SurchargeLine);
    CopyHasNoSurcharge(NotOfType(lines, SurchargeLine), rebuilt);
    NoneOfType(CopiedLines(NotOfType(lines, SurchargeLine), rebuilt), SurchargeLine);
  }

  lemma DraftAdds(db: Db, ev: Event, limit: nat, fair: bool)
    requires Enabled(db, ev) && Matching(ev) && (fair ==> Fair(db, ev)) && Adds(db, fair) && WritesLines(ev)
    ensures Adds(Step(db, ev, limit), fair)
  {
    WriteIsAllowed(db, ev, limit);
    var w := Written(db, ev);
    if w.Some? { WrittenAdds(db, ev, fair); PutAdds(db, Step(db, ev, limit), w.value.0, fair); }
  }

  lemma WrittenAdds(db: Db, ev: Event, fair: bool)
    requires Enabled(db, ev) && Matching(ev) && (fair ==> Fair(db, ev)) && WritesLines(ev) && Written(db, ev).Some?
    ensures var inv := Written(db, ev).value.1;
            && inv.status == Draft && DraftLines(inv.lines) && inv.total == LineTotal(inv.lines)
            && (fair ==> NonNegative(inv))
  {
    hide LineTotal, NotOfType, Surcharge, SurchargeLines, CopiedLines, DraftLines;
    match ev
    case EvCreateDraft(_, _, _, _, lines, total, terms) => DraftWithFee(lines, Surcharge(terms, total));
    case EvSeedCopy(_, from, _, rebuilt, terms) =>
      var lines := CopiedLines(NotOfType(db.invoices[from].lines, SurchargeLine), rebuilt);
      CopyIsPlain(db.invoices[from].lines, rebuilt);
      DraftWithFee(lines, Surcharge(terms, LineTotal(lines)));
    case EvUpdateOpenDraft(_, _, lines, total, terms) => DraftWithFee(lines, Surcharge(terms, total));
  }

  lemma RecalculateAdds(db: Db, c: CustomerId, found: Option<InvoiceId>, terms: Terms, fair: bool)
    requires FoundRecurringDraft(db, c, found) && Adds(db, fair)
    ensures Adds(Recalculate(db, c, found, terms), fair)
  {
    hide LineTotal, NotOfType;
    if found.Some? {
      ResurchargeKeeps(db.invoices[found.value], terms);
      PutAdds(db, Recalculate(db, c, found, terms), found.value, fair);
    }
  }

  /** A settled invoice adds up. */
  lemma SettledAdds(db: Db, i: InvoiceId, credit: int, terms: Terms, fair: bool)
    requires Adds(db, fair) && i in db.invoices && db.invoices[i].status == Draft
    requires Settle(db.invoices[i].lines, db.invoices[i].total, credit, terms).Some?
    ensures Adds(Settled(db, i, Settle(db.invoices[i].lines, db.invoices[i].total, credit, terms).value), fair)
  {
    hide LineTotal, NotOfType, Settle, FinalFee;
    var inv := db.invoices[i];
    SettlementAddsUp(inv.lines, inv.total, credit, terms);
    PutAdds(db, Settled(db, i, Settle(inv.lines, inv.total, credit, terms).value), i, fair);
  }

  lemma FinalizeAdds(db: Db, i: InvoiceId, terms: Terms, fair: bool)
    requires Adds(db, fair)
    ensures Adds(Finalize(db, i, terms), fair)
  {
    hide Settle, Adds, Settled;
    if i in db.invoices && db.invoices[i].status == Draft {
      var inv := db.invoices[i];
      if Settle(inv.lines, inv.total, Balance(db, inv.customer), terms).Some? {
        SettledAdds(db, i, Balance(db, inv.customer), terms, fair);
      }
    }
  }

  lemma OneLineAdds(amount: int)
    ensures LineTotal([LineItem(OtherLine, amount, 1)]) == amount
    ensures NotOfType([LineItem(OtherLine, amount, 1)], SurchargeLine) == [LineItem(OtherLine, amount, 1)]
  {
    OfTypeAppend([], LineItem(OtherLine, amount, 1), SurchargeLine);
    assert [] + [LineItem(OtherLine, amount, 1)] == [LineItem(OtherLine, amount, 1)];
  }

  lemma BillAdds(db: Db, i: InvoiceId, c: CustomerId, sub: SubscriptionId, amount: int, terms: Terms, fair: bool)
    requires Adds(db, fair) && i !in db.invoices && (fair ==> amount >= 0)
    ensures Adds(BillSubscription(db, i, c, sub, amount, terms), fair)
  {
    hide Settle, Adds, Settled, LineTotal, NotOfType;
    var inv := SubscriptionInvoice(c, sub, amount);
    OneLineAdds(amount);
    PutAdds(db, WithDraft(db, i, inv), i, fair);
    if Settle(inv.lines, inv.total, Balance(db, c), terms).Some? {
      SettledAdds(WithDraft(db, i, inv), i, Balance(db, c), terms, fair);
    }
  }

  lemma ChargeOnceAdds(db: Db, i: InvoiceId, k: ChargeKey, c: CustomerId, amount: int,
                       pm: Option<MethodId>, o: Outcome, fair: bool)
    requires Adds(db, fair) && i !in db.invoices
    ensures Adds(ChargeOnce(db, i, k, c, amount, pm, o), fair)
  {
    hide RunCharge, Adds, LineTotal, NotOfType;
    if amount > 0 && pm.Some? {
      var inv := OneTimeInvoice(c, amount);
      var billed := Settled(WithDraft(db, i, inv), i, Settlement(inv.lines, 0, amount));
      OneLineAdds(amount);
      PutAdds(db, billed, i, fair);
      ChargeKeepsLines(billed, k, i, pm.value, o);
      KeptLinesAdd(billed, RunCharge(billed, k, i, pm.value, o), fair);
    }
  }

  lemma StepAdds(db: Db, ev: Event, limit: nat, fair: bool)
    requires Enabled(db, ev) && Matching(ev) && (fair ==> Fair(db, ev)) && Adds(db, fair)
    ensures Adds(Step(db, ev, limit), fair)
  {
    assert fair && ev.EvBillSubscription? ==> ev.amount >= 0;
    hide Adds, KeptLines, Matching, Fair, CreateDraft, SeedCopy, UpdateOpenDraft, Recalculate, Finalize, BillSubscription,
         VoidInvoice, VoidDraft, Pay, ChargeOnce, RunDunning, PaymentSucceeded, PaymentFailed, IssueCreditNote, CreateRefund;
    match ev
    case EvCreateDraft(_, _, _, _, _, _, _) => DraftAdds(db, ev, limit, fair);
    case EvSeedCopy(_, _, _, _, _) => DraftAdds(db, ev, limit, fair);
    case EvUpdateOpenDraft(_, _, _, _, _) => DraftAdds(db, ev, limit, fair);
    case EvRecalculate(c, found, terms) => RecalculateAdds(db, c, found, terms, fair);
    case EvFinalize(i, terms) => FinalizeAdds(db, i, terms, fair);
    case EvBillSubscription(i, c, sub, amount, terms) => BillAdds(db, i, c, sub, amount, terms, fair);
    case EvChargeOnce(i, k, c, amount, pm, o) => ChargeOnceAdds(db, i, k, c, amount, pm, o, fair);
    case EvPay(i, n, pm, o) =>
      PayKeepsLines(db, i, n, pm, o);
      KeptLinesAdd(db, Step(db, ev, limit), fair);
    case EvRunDunning(i, j, methods, ready, o) =>
      RetryKeepsLines(db, i, j, methods, ready, o, limit);
      KeptLinesAdd(db, Step(db, ev, limit), fair);
    case EvPaymentSucceeded(e, _, found, published) =>
      SuccessEventKeepsLines(db, e, found, published);
      KeptLinesAdd(db, Step(db, ev, limit), fair);
    case _ =>
      OtherKeepsLines(db, ev, limit);
      KeptLinesAdd(db, Step(db, ev, limit), fair);
  }

  lemma {:induction false} RunAdds(states: seq<Db>, events: seq<Event>, limit: nat, t: nat, fair: bool)
    requires Run(states, events, limit) && t < |states|
    requires forall k :: 0 <= k < |events| ==> Matching(events[k]) && (fair ==> Fair(states[k], events[k]))
    ensures Adds(states[t], fair)
  {
    if t > 0 {
      hide Adds, Step, Matching, Fair;
      RunAdds(states, events, limit, t - 1, fair);
      StepAdds(states[t - 1], events[t - 1], limit, fair);
    }
  }

  // ---------------------------------------------------------------- main results

  /** In runs whose callers pass matching totals, every invoice total in every state is the sum of its lines, whatever
      the signs. */
  lemma TotalsAreLineSums(states: seq<Db>, events: seq<Event>, limit: nat, t: nat)
    requires Run(states, events, limit) && t < |states|
    requires forall k :: 0 <= k < |events| ==> Matching(events[k])
    ensures forall i :: i in states[t].invoices ==> states[t].invoices[i].total == LineTotal(states[t].invoices[i].lines)
  {
    hide Step, Matching, LineTotal, NotOfType;
    RunAdds(states, events, limit, t, false);
  }

  function FinalizedTotal(inv: Invoice): int { if inv.status == Finalized then inv.total else 0 }
  function BilledTotal(inv: Invoice): int {
    if inv.status == Finalized || inv.status == Paid then inv.total else 0
  }

  /** No finalized invoice has a negative total. */
  ghost predicate NoNegativeTotal(db: Db) {
    forall i :: i in db.invoices && db.invoices[i].status == Finalized ==> db.invoices[i].total >= 0
  }

  /** The larger of two weights has the larger sum, and the same one only when the weights agree on every row. */
  lemma {:induction false} SumByDominates(m: map<InvoiceId, Invoice>, v: Invoice -> int, w: Invoice -> int)
    requires forall k :: k in m ==> v(m[k]) >= w(m[k])
    ensures SumBy(m, v) >= SumBy(m, w)
    ensures SumBy(m, v) == SumBy(m, w) <==> forall k :: k in m ==> v(m[k]) == w(m[k])
    decreases |m|
  {
    if m != map[] {
      var k :| k in m && SumBy(m, v) == v(m[k]) + SumBy(m - {k}, v);
      SumByRemove(m, k, w);
      SumByDominates(m - {k}, v, w);
      assert forall j :: j in m <==> j in m - {k} || j == k;
    }
  }

  /** In every state of every run, whatever callers pass: receivables are the finalized totals less the credit
      balances, and revenue the billed totals, exactly when no finalized total is negative. */
  lemma PlainTotalsBalance(states: seq<Db>, events: seq<Event>, limit: nat, t: nat)
    requires Run(states, events, limit) && t < |states|
    ensures var db := states[t];
            && (Net(db.ledger, AccountsReceivable) == SumBy(db.invoices, FinalizedTotal) - SumBy(db.balances, Same)
                <==> NoNegativeTotal(db))
            && (Net(db.ledger, Revenue) == -SumBy(db.invoices, BilledTotal) <==> NoNegativeTotal(db))
  {
    hide Step, Net, SumBy;
    LedgerAgreesWithTables(states, events, limit, t);
    RunIsSound(states, events, limit, t);
    SumByDominates(states[t].invoices, Books.Receivable, FinalizedTotal);
    SumByDominates(states[t].invoices, Books.Billed, BilledTotal);
    hide Sound, Books.Receivable, Books.Billed;
    PlainWeights(states[t]);
  }

  lemma PlainWeights(db: Db)
    requires Sound(db)
    ensures (forall i :: i in db.invoices ==> Books.Receivable(db.invoices[i]) == FinalizedTotal(db.invoices[i])) <==> NoNegativeTotal(db)
    ensures (forall i :: i in db.invoices ==> Books.Billed(db.invoices[i]) == BilledTotal(db.invoices[i])) <==> NoNegativeTotal(db)
  {
  }

  /** With matching totals and no call that brings a negative subtotal, none is. */
  lemma FairRunsHaveNoNegativeTotal(states: seq<Db>, events: seq<Event>, limit: nat, t: nat)
    requires Run(states, events, limit) && t < |states|
    requires forall k :: 0 <= k < |events| ==> Matching(events[k]) && Fair(states[k], events[k])
    ensures NoNegativeTotal(states[t])
  {
    hide Step, Matching, Fair, LineTotal, NotOfType;
    RunAdds(states, events, limit, t, true);
  }

  // ---------------------------------------------------------------- a copy with a negative subtotal

  const NO_TERMS := Terms(false, None)
  const WORK := LineItem(OtherLine, 300, 1)
  const REBUILT := LineItem(OtherLine, 250, 1)
  const USED := LineItem(CreditLine, -300, 1)

  function Monthly(status: InvoiceStatus, total: int, lines: seq<LineItem>): Invoice {
    Invoice(0, Some(1), Recurring, status, total, lines)
  }

  /** An employee line of 300 with a bonus of 50, paid by credit, and the draft seeded from it without the bonus. */
  function CopyState(k: nat): Db {
    var issued := Entry(Credits, AccountsReceivable, 300, CreditNoteRef(0));
    var applied := Entry(AccountsReceivable, Credits, 300, CreditApplicationRef(0));
    var notes := map[0 := Note(0, 300)];
    var draft, paid := Monthly(Draft, 300, [WORK]), Monthly(Paid, 0, [WORK, USED]);
    var copy := Monthly(if k == 4 then Draft else Finalized, -50, [REBUILT, USED]);
    if k == 0 then EMPTY_DB
    else if k == 1 then Db(map[], map[0 := 300], notes, map[], map[], map[], {}, [issued])
    else if k == 2 then Db(map[0 := draft], map[0 := 300], notes, map[], map[], map[], {}, [issued])
    else if k == 3 then Db(map[0 := paid], map[0 := 0], notes, map[], map[], map[], {}, [issued, applied])
    else Db(map[0 := paid, 1 := copy], map[0 := 0], notes, map[], map[], map[], {}, [issued, applied])
  }

  function CopyEvent(k: nat): Event {
    if k == 0 then EvIssueCreditNote(0, true, 0, None, 300)
    else if k == 1 then EvCreateDraft(0, 0, Some(1), Recurring, [WORK], 300, NO_TERMS)
    else if k == 2 then EvFinalize(0, NO_TERMS)
    else if k == 3 then EvSeedCopy(1, 0, 0, map[0 := 250], NO_TERMS)
    else EvFinalize(1, NO_TERMS)
  }

  lemma CopySums()
    ensures LineTotal([WORK]) == 300 && LineTotal([REBUILT, USED]) == -50 && LineTotal([]) == 0
  {
    var none: seq<LineItem> := [];
    assert none + [WORK] == [WORK] && none + [REBUILT] == [REBUILT] && [REBUILT] + [USED] == [REBUILT, USED];
    assert LineTotal(none) == 0;
    OfTypeAppend(none, WORK, SurchargeLine);
    OfTypeAppend(none, REBUILT, SurchargeLine);
    OfTypeAppend([REBUILT], USED, SurchargeLine);
    hide LineTotal;
  }

  lemma CopiedPair()
    ensures CopiedLines([WORK, USED], map[0 := 250]) == [REBUILT, USED]
  {
    var pair, none: seq<LineItem> := [WORK, USED], [];
    assert pair[..1] == [WORK] && [WORK][..0] == none && none + [REBUILT] == [REBUILT] && [REBUILT] + [USED] == [REBUILT, USED];
    assert CopiedLines([WORK], map[0 := 250]) == [REBUILT];
  }

  lemma CopyLines()
    ensures LineTotal([WORK]) == 300 && LineTotal([REBUILT, USED]) == -50 && LineTotal([]) == 0
    ensures OfType([WORK], SurchargeLine) == [] == OfType([REBUILT, USED], SurchargeLine)
    ensures NotOfType([WORK, USED], SurchargeLine) == [WORK, USED]
    ensures CopiedLines([WORK, USED], map[0 := 250]) == [REBUILT, USED]
  {
    hide LineTotal, OfType, NotOfType, CopiedLines;
    CopySums();
    CopiedPair();
    NoneOfType([WORK], SurchargeLine);
    NoneOfType([REBUILT, USED], SurchargeLine);
    NoneOfType([WORK, USED], SurchargeLine);
  }

  lemma CopyDrafts()
    ensures 0 !in CopyState(0).notes && IssueCreditNote(CopyState(0), 0, true, 0, None, 300) == CopyState(1)
    ensures 0 !in CopyState(1).invoices && 1 !in CopyState(3).invoices
    ensures CreateDraft(CopyState(1), 0, 0, Some(1), Recurring, [WORK], 300, NO_TERMS) == CopyState(2)
    ensures SeedCopy(CopyState(3), 1, 0, 0, map[0 := 250], NO_TERMS) == CopyState(4)
  {
    CopyLines();
    hide LineTotal, NotOfType, CopiedLines;
    var none: seq<LineItem> := [];
    assert [WORK] + none == [WORK] && [REBUILT, USED] + none == [REBUILT, USED];
  }

  lemma CopySettles()
    ensures Settle([WORK], 300, 300, NO_TERMS) == Some(Settlement([WORK, USED], 300, 0))
    ensures Settle([REBUILT, USED], -50, 0, NO_TERMS) == Some(Settlement([REBUILT, USED], 0, -50))
  {
    CopyLines();
    hide LineTotal, OfType, NotOfType;
    var none: seq<LineItem> := [];
    assert [WORK] + [USED] + none == [WORK, USED] && [REBUILT, USED] + none + none == [REBUILT, USED];
  }

  lemma CopyFinalizes()
    ensures Finalize(CopyState(2), 0, NO_TERMS) == CopyState(3) && Finalize(CopyState(4), 1, NO_TERMS) == CopyState(5)
  {
    CopySettles();
    hide Settle;
    var no: Journal := [];
    assert CopyState(4).ledger + no + no == CopyState(5).ledger;
    assert CopyState(2).ledger + CreditEntries(0, 300) + no == CopyState(3).ledger;
  }

  lemma CopyStep(k: nat, limit: nat)
    requires k < 5
    ensures Enabled(CopyState(k), CopyEvent(k)) && Step(CopyState(k), CopyEvent(k), limit) == CopyState(k + 1)
  {
    hide CopyState, CreateDraft, SeedCopy, Finalize, IssueCreditNote, Pay, RunDunning, ChargeOnce, UpdateOpenDraft, Recalculate,
         BillSubscription, PaymentSucceeded, PaymentFailed, CreateRefund, VoidInvoice, VoidDraft;
    CopyDrafts();
    CopyFinalizes();
  }

  /** The service brings a negative total about by itself: copied without its bonus, an invoice paid by credit becomes
      one of 250 less 300, which is finalized, and the plain equations fail. */
  lemma CopyCanBeNegative(limit: nat) returns (states: seq<Db>, events: seq<Event>)
    ensures Run(states, events, limit) && forall k :: 0 <= k < |events| ==> Matching(events[k])
    ensures var last := states[|states| - 1];
            && 1 in last.invoices && last.invoices[1] == Monthly(Finalized, -50, [REBUILT, USED])
            && !NoNegativeTotal(last) && Net(last.ledger, Revenue) != -SumBy(last.invoices, BilledTotal)
  {
    states, events := seq(6, (k: nat) => CopyState(k)), seq(5, (k: nat) => CopyEvent(k));
    CopyLines();
    hide Step, Enabled, Net, SumBy, LineTotal;
    forall t | 0 <= t < 5 ensures Enabled(states[t], events[t]) && states[t + 1] == Step(states[t], events[t], limit) {
      CopyStep(t, limit);
    }
    PlainTotalsBalance(states, events, limit, 5);
  }
}
