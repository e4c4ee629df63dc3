/** What a succeeded retry means: when its invoice is paid, and that the first one never succeeds. */
module DunningRecovery {
  import opened Options
  import opened Ledger
  import opened BillingState
  import opened BillingHandlers
  import opened Payments
  import opened BillingRuns
  import opened DunningChains

  /** A succeeded retry of the invoice means that the invoice is paid. */
  ghost predicate RecoveryPays(db: Db, i: InvoiceId) {
    i in db.dunning ==>
      forall j :: 0 <= j < |db.dunning[i].retries| && db.dunning[i].retries[j].status == RetrySucceeded ==>
        i in db.invoices && db.invoices[i].status == Paid
  }

  /** The call executes a scheduled attempt of a finalized invoice, with a method selected and ready, while the
      attempt's key holds a charge stored as succeeded: one that some one-time charge brought. */
  predicate TakesBorrowed(db: Db, ev: Event, i: InvoiceId) {
    && ev.EvRunDunning? && ev.i == i && ev.ready
    && i in db.dunning && ev.j < |db.dunning[i].retries| && db.dunning[i].retries[ev.j].status == Scheduled
    && i in db.invoices && db.invoices[i].status == Finalized
    && SelectMethod(ev.methods, db.dunning[i].retries).Some?
    && var k := Attempt(i, db.dunning[i].retries[ev.j].number);
       k in db.charges && db.charges[k].status == Succeeded
  }

  // ---------------------------------------------------------------- what a success report means

  lemma ChargePays(db: Db, k: ChargeKey, i: InvoiceId, m: MethodId, o: Outcome)
    requires i in db.invoices
    ensures var r := RunCharge(db, k, i, m, o);
            i in r.invoices && (r.charges[k].status == Succeeded ==> r.invoices[i].status == Paid)
  {
    hide RecordApproved;
    if o.reply.Approved? {
      ApprovalPays(db, k, Charge(i, db.invoices[i].customer, m, db.invoices[i].total, Pending, None), o.reply.intent, o.published);
    }
  }

  lemma ApprovalPays(db: Db, k: ChargeKey, row: Charge, intent: IntentId, published: bool)
    requires row.invoice in db.invoices
    ensures var r := RecordApproved(db, k, row, intent, published);
            && row.invoice in r.invoices
            && (r.charges[k].status == Succeeded ==> r.invoices[row.invoice].status == Paid)
  {
  }

  /** A success is reported of a finalized invoice only, by a stored success or by a charge that has just paid it. */
  lemma SuccessReportMeans(db: Db, i: InvoiceId, n: nat, pm: Option<MethodId>, o: Outcome)
    requires Pay(db, i, n, pm, o).report == Reported(Succeeded)
    ensures i in db.invoices && db.invoices[i].status == Finalized && pm.Some?
    ensures Attempt(i, n) in db.charges ==> db.charges[Attempt(i, n)].status == Succeeded
    ensures Attempt(i, n) !in db.charges ==>
              i in Pay(db, i, n, pm, o).db.invoices && Pay(db, i, n, pm, o).db.invoices[i].status == Paid
  {
    hide RunCharge;
    if Attempt(i, n) !in db.charges && i in db.invoices && pm.Some? { ChargePays(db, Attempt(i, n), i, pm.value, o); }
  }

  /** A chain gains a succeeded retry only by a success report. */
  lemma OnlyReportsRecover(c: Chain, after: Chain, j: nat, m: MethodId, report: Report, limit: nat)
    requires Orderly(c, limit) && j < |c.retries| && c.retries[j].status == Scheduled
    requires after == SkipRest(c, j) || after == Exhausted(c, j)
             || after == AfterReport(c, j, m, report, limit)
    requires exists h :: 0 <= h < |after.retries| && after.retries[h].status == RetrySucceeded
    ensures after == Recovered(c, j, m) && report == Reported(Succeeded)
    ensures after != SkipRest(c, j) && after != Exhausted(c, j)
    ensures forall h :: 0 <= h < |after.retries| && after.retries[h].status == RetrySucceeded ==> h == j
  {
    EndKeepsOrder(c, j, c.retries[j].(status := Skipped), limit);
    EndKeepsOrder(c, j, c.retries[j].(status := RetryFailed), limit);
    EndKeepsOrder(c, j, c.retries[j].(status := RetrySucceeded, pm := Some(m)), limit);
  }

  /** An execution that gives a chain a succeeded retry gives it to the executed one, on a success report. */
  lemma RetryRecovers(db: Db, i: InvoiceId, j: nat, methods: seq<MethodId>, ready: bool, o: Outcome, limit: nat, h: nat)
    requires Dunned(db, limit) && i in db.dunning
    requires var after := RunDunning(db, i, j, methods, ready, o, limit);
             i in after.dunning && h < |after.dunning[i].retries| && after.dunning[i].retries[h].status == RetrySucceeded
    ensures var c, after := db.dunning[i], RunDunning(db, i, j, methods, ready, o, limit);
            var m := SelectMethod(methods, c.retries);
            || c == after.dunning[i]
            || (h == j < |c.retries| && c.retries[j].status == Scheduled && m.Some?
                && Pay(db, i, c.retries[j].number, if ready then m else None, o).report == Reported(Succeeded)
                && after.invoices == Pay(db, i, c.retries[j].number, if ready then m else None, o).db.invoices)
  {
    var c := db.dunning[i];
    var after := RunDunning(db, i, j, methods, ready, o, limit);
    if c != after.dunning[i] {
      var report := RetryOutcomes(db, i, j, methods, ready, o, limit);
      var m := SelectMethod(methods, c.retries);
      var pm := if ready then m else None;
      OnlyReportsRecover(c, after.dunning[i], j, m.GetOr(0), report, limit);
      SuccessReportMeans(db, i, c.retries[j].number, pm, o);
      hide Pay, SelectMethod, SkipRest, Exhausted, AfterReport, Recovered, Orderly;
    }
  }

  // ---------------------------------------------------------------- one step

  /** A succeeded retry after a step was there before, or the step executed it on a success report. */
  lemma SuccessIsNew(db: Db, ev: Event, limit: nat, i: InvoiceId, h: nat)
    requires Enabled(db, ev) && Dunned(db, limit) && i in Step(db, ev, limit).dunning
    requires var rs := Step(db, ev, limit).dunning[i].retries; h < |rs| && rs[h].status == RetrySucceeded
    ensures i in db.dunning
    ensures var after := Step(db, ev, limit);
            || after.dunning[i] == db.dunning[i]
            || (ev.EvRunDunning? && ev.i == i && ev.j == h < |db.dunning[i].retries| && db.dunning[i].retries[h].status == Scheduled
                && var m := SelectMethod(ev.methods, db.dunning[i].retries);
                   && m.Some?
                   && var p := Pay(db, i, db.dunning[i].retries[h].number, if ev.ready then m else None, ev.o);
                      p.report == Reported(Succeeded) && after.invoices == p.db.invoices)
  {
    hide Pay, SelectMethod;
    if ev.EvRunDunning? && ev.i == i && i in db.dunning {
      RetryRecovers(db, i, ev.j, ev.methods, ev.ready, ev.o, limit, h);
    } else {
      OtherChainsStay(db, ev, limit, i);
    }
  }

  lemma StepKeepsRecovery(db: Db, ev: Event, limit: nat, i: InvoiceId)
    requires Enabled(db, ev) && Dunned(db, limit) && RecoveryPays(db, i) && Follows(db, Step(db, ev, limit))
    requires !TakesBorrowed(db, ev, i)
    ensures RecoveryPays(Step(db, ev, limit), i)
  {
    hide Step, Pay, SelectMethod;
    var after := Step(db, ev, limit);
    if i in after.dunning {
      forall h | 0 <= h < |after.dunning[i].retries| && after.dunning[i].retries[h].status == RetrySucceeded
        ensures i in after.invoices && after.invoices[i].status == Paid
      {
        SuccessIsNew(db, ev, limit, i, h);
        if after.dunning[i] == db.dunning[i] {
          assert Continues(db.invoices[i], after.invoices[i]);
        } else {
          var m := SelectMethod(ev.methods, db.dunning[i].retries);
          SuccessReportMeans(db, i, db.dunning[i].retries[h].number, if ev.ready then m else None, ev.o);
        }
      }
    }
  }

  /** Such a call does give the attempt a success, and the invoice stays unpaid. */
  lemma BorrowingRecovers(db: Db, ev: Event, limit: nat, i: InvoiceId)
    requires Enabled(db, ev) && Dunned(db, limit) && TakesBorrowed(db, ev, i)
    ensures !RecoveryPays(Step(db, ev, limit), i)
  {
    var c := db.dunning[i];
    var m := SelectMethod(ev.methods, c.retries);
    var p := Pay(db, i, c.retries[ev.j].number, m, ev.o);
    assert p == Payment(db, Reported(Succeeded)) by { hide RunCharge; }
    hide Pay, SelectMethod, Orderly;
    assert Step(db, ev, limit) == WithChain(db, i, Recovered(c, ev.j, m.value));
    ShowsRecovery(c, ev.j, m.value, limit);
  }

  lemma ShowsRecovery(c: Chain, j: nat, m: MethodId, limit: nat)
    requires Orderly(c, limit) && j < |c.retries| && c.retries[j].status == Scheduled
    ensures j < |Recovered(c, j, m).retries| && Recovered(c, j, m).retries[j].status == RetrySucceeded
  {
    EndKeepsOrder(c, j, c.retries[j].(status := RetrySucceeded, pm := Some(m)), limit);
  }

  // ---------------------------------------------------------------- runs

  lemma StepFollows(states: seq<Db>, events: seq<Event>, limit: nat, t: nat)
    requires Run(states, events, limit) && t < |events| && limit >= 1
    ensures Sound(states[t]) && Dunned(states[t], limit) && Follows(states[t], Step(states[t], events[t], limit))
  {
    RunIsSound(states, events, limit, t);
    RunIsOrderly(states, events, limit, t);
    StepKeeps(states[t], events[t], limit);
  }

  lemma {:induction false} UnborrowedRunRecovers(states: seq<Db>, events: seq<Event>, limit: nat, t: nat, i: InvoiceId)
    requires Run(states, events, limit) && t < |states| && limit >= 1
    requires forall k :: 0 <= k < t ==> !TakesBorrowed(states[k], events[k], i)
    ensures RecoveryPays(states[t], i)
  {
    hide Step, Enabled, Sound, Dunned, Follows, TakesBorrowed;
    if t > 0 {
      UnborrowedRunRecovers(states, events, limit, t - 1, i);
      StepFollows(states, events, limit, t - 1);
      StepKeepsRecovery(states[t - 1], events[t - 1], limit, i);
    }
  }

  /** A succeeded retry of an invoice means a paid invoice in all states of a run exactly when no execution finds a
      success stored under the attempt's key while the invoice is finalized, with a method selected and ready. */
  lemma RecoveredIsPaid(states: seq<Db>, events: seq<Event>, limit: nat, i: InvoiceId)
    requires Run(states, events, limit) && limit >= 1
    ensures (forall t :: 0 <= t < |states| ==> RecoveryPays(states[t], i))
            <==> (forall k :: 0 <= k < |events| ==> !TakesBorrowed(states[k], events[k], i))
  {
    hide Step, Enabled, Sound, Dunned, Follows, TakesBorrowed, RecoveryPays;
    if forall k :: 0 <= k < |events| ==> !TakesBorrowed(states[k], events[k], i) {
      forall t | 0 <= t < |states| ensures RecoveryPays(states[t], i) { UnborrowedRunRecovers(states, events, limit, t, i); }
    }
    if forall t :: 0 <= t < |states| ==> RecoveryPays(states[t], i) {
      forall k | 0 <= k < |events| ensures !TakesBorrowed(states[k], events[k], i) {
        StepFollows(states, events, limit, k);
        assert RecoveryPays(states[k + 1], i);
        if TakesBorrowed(states[k], events[k], i) { BorrowingRecovers(states[k], events[k], limit, i); }
      }
    }
  }

  // ---------------------------------------------------------------- the first attempt

  /** A chain goes with a first charge of its own invoice, and its first attempt has not succeeded. */
  ghost predicate FirstNotRecovered(db: Db, i: InvoiceId) {
    i in db.dunning ==>
      && Attempt(i, 1) in db.charges && db.charges[Attempt(i, 1)].invoice == i
      && db.dunning[i].retries != [] && db.dunning[i].retries[0].status != RetrySucceeded
  }

  /** A charge stored as succeeded has paid its invoice. */
  lemma StoredSuccessIsPaid(db: Db, k: ChargeKey)
    requires PaidOnce(db) && k in db.charges && db.charges[k].status == Succeeded
    ensures db.charges[k].invoice in db.invoices && db.invoices[db.charges[k].invoice].status == Paid
  {
    PostedShows(db.ledger, db.charges, k);
    assert PaidExactly(db, db.charges[k].invoice);
  }

  lemma PayStartsOwn(db: Db, i: InvoiceId, n: nat, pm: Option<MethodId>, o: Outcome)
    requires Pay(db, i, n, pm, o).db.dunning != db.dunning
    ensures var after := Pay(db, i, n, pm, o).db;
            Attempt(i, 1) in after.charges && after.charges[Attempt(i, 1)].invoice == i
  {
  }

  /** A chain is started by a payment attempt that inserts the first charge of the invoice. */
  lemma StartsWithOwn(db: Db, ev: Event, limit: nat, i: InvoiceId)
    requires Enabled(db, ev) && i !in db.dunning && i in Step(db, ev, limit).dunning && Dunned(db, limit)
    ensures var after := Step(db, ev, limit); Attempt(i, 1) in after.charges && after.charges[Attempt(i, 1)].invoice == i
  {
    hide Pay, RunDunning;
    if ev.EvPay? {
      if ev.i in db.dunning {
        StartedChainsStay(db, ev.i, ev.n, ev.pm, ev.o);
      } else {
        PayStartsChain(db, ev.i, ev.n, ev.pm, ev.o);
        PayStartsOwn(db, ev.i, ev.n, ev.pm, ev.o);
      }
    } else if ev.EvRunDunning? {
      if ev.i in db.dunning {
        RetryKeepsOrder(db, ev.i, ev.j, ev.methods, ev.ready, ev.o, limit);
      } else {
        NoChainNoRetry(db, ev.i, ev.j, ev.methods, ev.ready, ev.o, limit);
      }
    } else {
      QuietSteps(db, ev, limit);
    }
  }

  lemma StepKeepsFirst(db: Db, ev: Event, limit: nat, i: InvoiceId)
    requires Enabled(db, ev) && limit >= 1 && PaidOnce(db) && Dunned(db, limit) && FirstNotRecovered(db, i)
    requires Follows(db, Step(db, ev, limit)) && Dunned(Step(db, ev, limit), limit)
    ensures FirstNotRecovered(Step(db, ev, limit), i)
  {
    hide Step, Pay, SelectMethod;
    var after := Step(db, ev, limit);
    if i in after.dunning {
      if i !in db.dunning { StartsWithOwn(db, ev, limit, i); }
      if after.dunning[i].retries[0].status == RetrySucceeded {
        SuccessIsNew(db, ev, limit, i, 0);
        if after.dunning[i] != db.dunning[i] {
          var m := SelectMethod(ev.methods, db.dunning[i].retries);
          SuccessReportMeans(db, i, 1, if ev.ready then m else None, ev.o);
          StoredSuccessIsPaid(db, Attempt(i, 1));
          assert false;
        }
      }
    }
  }

  /** In no run does the first attempt of any chain succeed, whatever keys callers bring: its key holds the first
      charge of its own invoice, and had that one succeeded the invoice would be paid and the attempt skipped. */
  lemma {:induction false} FirstAttemptNeverSucceeds(states: seq<Db>, events: seq<Event>, limit: nat, t: nat, i: InvoiceId)
    requires Run(states, events, limit) && t < |states| && limit >= 1
    ensures FirstNotRecovered(states[t], i)
  {
    hide Step, Enabled, FirstNotRecovered, Dunned, Follows, PaidOnce;
    if t == 0 {
      EmptyFirst(i);
    } else {
      FirstAttemptNeverSucceeds(states, events, limit, t - 1, i);
      StepFollows(states, events, limit, t - 1);
      RunIsOrderly(states, events, limit, t);
      StepKeepsFirst(states[t - 1], events[t - 1], limit, i);
    }
  }

  lemma EmptyFirst(i: InvoiceId)
    ensures FirstNotRecovered(EMPTY_DB, i)
  {
  }

  // ---------------------------------------------------------------- callers that keep to their own keys

  /** No one-time charge uses a key of the generated form. */
  predicate TokensOnly(events: seq<Event>) {
    forall ev :: ev in events && ev.EvChargeOnce? ==> ev.key.Token?
  }

  /** A charge with a generated key belongs to the invoice in its key. */
  ghost predicate KeysOwn(charges: map<ChargeKey, Charge>) {
    forall k :: k in charges && k.Attempt? ==> charges[k].invoice == k.invoice
  }

  lemma PayOwns(db: Db, i: InvoiceId, n: nat, pm: Option<MethodId>, o: Outcome)
    requires KeysOwn(db.charges)
    ensures KeysOwn(Pay(db, i, n, pm, o).db.charges)
  {
  }

  lemma ChargeOnceOwns(db: Db, i: InvoiceId, k: ChargeKey, c: CustomerId, amount: int, pm: Option<MethodId>, o: Outcome)
    requires KeysOwn(db.charges) && k.Token?
    ensures KeysOwn(ChargeOnce(db, i, k, c, amount, pm, o).charges)
  {
  }

  lemma RetryOwns(db: Db, i: InvoiceId, j: nat, methods: seq<MethodId>, ready: bool, o: Outcome, limit: nat)
    requires KeysOwn(db.charges)
    ensures KeysOwn(RunDunning(db, i, j, methods, ready, o, limit).charges)
  {
    hide Pay, AfterReport, SkipRest, Exhausted, SelectMethod;
    var c := ChainOf(db, i);
    if j < |c.retries| {
      var m := SelectMethod(methods, c.retries).GetOr(0);
      PayOwns(db, i, c.retries[j].number, if ready then Some(m) else None, o);
    }
  }

  lemma StepOwns(db: Db, ev: Event, limit: nat)
    requires Enabled(db, ev) && KeysOwn(db.charges)
    requires ev.EvChargeOnce? ==> ev.key.Token?
    ensures KeysOwn(Step(db, ev, limit).charges)
  {
    if ev.EvPay? {
      PayOwns(db, ev.i, ev.n, ev.pm, ev.o);
    } else if ev.EvRunDunning? {
      RetryOwns(db, ev.i, ev.j, ev.methods, ev.ready, ev.o, limit);
    } else if ev.EvChargeOnce? {
      ChargeOnceOwns(db, ev.i, ev.key, ev.c, ev.amount, ev.pm, ev.o);
    } else {
      QuietStep(db, ev, limit);
    }
  }

  lemma {:induction false} RunOwns(states: seq<Db>, events: seq<Event>, limit: nat, t: nat)
    requires Run(states, events, limit) && t < |states| && TokensOnly(events)
    ensures KeysOwn(states[t].charges)
  {
    hide Step, Enabled, KeysOwn;
    if t == 0 {
      NoChargesOwn();
    } else {
      RunOwns(states, events, limit, t - 1);
      assert events[t - 1] in events;
      StepOwns(states[t - 1], events[t - 1], limit);
    }
  }

  lemma NoChargesOwn()
    ensures KeysOwn(EMPTY_DB.charges)
  {
  }

  lemma OwnKeysAreNotBorrowed(db: Db, ev: Event, i: InvoiceId)
    requires PaidOnce(db) && KeysOwn(db.charges)
    ensures !TakesBorrowed(db, ev, i)
  {
    hide SelectMethod, PaidOnce;
    if TakesBorrowed(db, ev, i) {
      StoredSuccessIsPaid(db, Attempt(i, db.dunning[i].retries[ev.j].number));
      assert false;
    }
  }

  /** So when one-time charges stay out of the generated keys, a succeeded retry always means a paid invoice. */
  lemma OwnKeysRecover(states: seq<Db>, events: seq<Event>, limit: nat, t: nat, i: InvoiceId)
    requires Run(states, events, limit) && t < |states| && limit >= 1 && TokensOnly(events)
    ensures RecoveryPays(states[t], i) && KeysOwn(states[t].charges)
  {
    hide Step, Enabled, KeysOwn, TakesBorrowed, RecoveryPays, PaidOnce;
    RunOwns(states, events, limit, t);
    forall k | 0 <= k < t ensures !TakesBorrowed(states[k], events[k], i) {
      RunOwns(states, events, limit, k);
      RunIsSound(states, events, limit, k);
      OwnKeysAreNotBorrowed(states[k], events[k], i);
    }
    UnborrowedRunRecovers(states, events, limit, t, i);
  }

  // ---------------------------------------------------------------- a one-time key of the generated form

  const CARD: MethodId := 5
  const NO_FEE := Terms(false, None)
  const BORROWED := Attempt(0, 2)
  const DECLINES := Outcome(Threw, true, true)

  function Owed(status: InvoiceStatus): Invoice {
    Invoice(0, Some(1), Recurring, status, 300, [LineItem(OtherLine, 300, 1)])
  }

  /** An invoice, a one-time charge that brings the key of its second attempt, and its dunning. */
  function BorrowedState(k: nat): Db {
    var once := OneTimeInvoice(0, 100).(status := Paid);
    var paidOnce := Charge(9, 0, CARD, 100, Succeeded, Some(1));
    var failed := Charge(0, 0, CARD, 300, Failed, None);
    var billed := [Entry(AccountsReceivable, Revenue, 100, InvoiceRef(9)), Entry(Cash, AccountsReceivable, 100, PaymentRef(BORROWED))];
    var journal := billed + [Entry(AccountsReceivable, Revenue, 300, InvoiceRef(0))];
    var first := Retry(1, RetryFailed, Some(CARD));
    var charges := map[BORROWED := paidOnce, Attempt(0, 1) := failed];
    var rows := map[0 := Owed(Finalized), 9 := once];
    if k == 0 then EMPTY_DB
    else if k == 1 then EMPTY_DB.(invoices := map[0 := Owed(Draft)])
    else if k == 2 then Db(map[0 := Owed(Draft), 9 := once], map[], map[], map[BORROWED := paidOnce], map[], map[], {}, billed)
    else if k == 3 then Db(rows, map[], map[], map[BORROWED := paidOnce], map[], map[], {}, journal)
    else
      Db(rows, map[], map[], charges, map[],
         map[0 := Chain(if k == 4 then [Retry(1, Scheduled, None)]
                        else if k == 5 then [first, Retry(2, Scheduled, None)]
                        else [first, Retry(2, RetrySucceeded, Some(CARD))], 0)], {}, journal)
  }

  function BorrowedEvent(k: nat): Event {
    if k == 0 then EvCreateDraft(0, 0, Some(1), Recurring, [LineItem(OtherLine, 300, 1)], 300, NO_FEE)
    else if k == 1 then EvChargeOnce(9, BORROWED, 0, 100, Some(CARD), Outcome(Approved(1), true, true))
    else if k == 2 then EvFinalize(0, NO_FEE)
    else if k == 3 then EvPay(0, 1, Some(CARD), DECLINES)
    else EvRunDunning(0, k - 4, [CARD], true, DECLINES)
  }

  lemma NoSurcharge()
    ensures var lines := [LineItem(OtherLine, 300, 1)]; OfType(lines, SurchargeLine) == [] && LineTotal([]) == 0
  {
    assert [LineItem(OtherLine, 300, 1)][..0] == [];
  }

  lemma BorrowedDrafts()
    ensures 0 !in BorrowedState(0).invoices
    ensures CreateDraft(BorrowedState(0), 0, 0, Some(1), Recurring, [LineItem(OtherLine, 300, 1)], 300, NO_FEE) == BorrowedState(1)
  {
    var lines, none: seq<LineItem> := [LineItem(OtherLine, 300, 1)], [];
    assert lines + none == lines;
  }

  lemma BorrowedSettles()
    ensures var lines := [LineItem(OtherLine, 300, 1)]; Settle(lines, 300, 0, NO_FEE) == Some(Settlement(lines, 0, 300))
  {
    NoSurcharge();
    hide LineTotal, OfType, NotOfType;
    var lines, none: seq<LineItem> := [LineItem(OtherLine, 300, 1)], [];
    assert lines + none + none == lines;
  }

  lemma BorrowedBills()
    ensures Finalize(BorrowedState(2), 0, NO_FEE) == BorrowedState(3)
  {
    BorrowedSettles();
    hide Settle;
    var db, no: Journal := BorrowedState(2), [];
    assert db.ledger + no + InvoiceEntries(0, 300) == BorrowedState(3).ledger;
  }

  lemma BorrowedCharges()
    ensures 9 !in BorrowedState(1).invoices
    ensures ChargeOnce(BorrowedState(1), 9, BORROWED, 0, 100, Some(CARD), Outcome(Approved(1), true, true)) == BorrowedState(2)
  {
    hide LineTotal;
    var db, inv, no: Journal := BorrowedState(1), OneTimeInvoice(0, 100), [];
    var billed := Settled(WithDraft(db, 9, inv), 9, Settlement(inv.lines, 0, 100));
    assert billed.ledger == [Entry(AccountsReceivable, Revenue, 100, InvoiceRef(9))] by { assert no + no == no; }
    assert billed.invoices == map[0 := Owed(Draft), 9 := inv.(status := Finalized)];
    var row := Charge(9, 0, CARD, 100, Pending, Some(1));
    assert RunCharge(billed, BORROWED, 9, CARD, Outcome(Approved(1), true, true))
        == Collected(WithCharge(billed, BORROWED, row), BORROWED);
  }

  lemma BorrowedFails()
    ensures Pay(BorrowedState(3), 0, 1, Some(CARD), DECLINES).db == BorrowedState(4)
  {
    hide LineTotal;
    var db := BorrowedState(3);
    assert Attempt(0, 1) !in db.charges;
    var run := RunCharge(db, Attempt(0, 1), 0, CARD, DECLINES);
    assert run == BorrowedState(4).(dunning := map[]);
    assert ChainOf(run, 0) == Chain([], 0);
    assert [] + [Retry(1, Scheduled, None)] == [Retry(1, Scheduled, None)];
  }

  lemma BorrowedChain(c: Chain, j: nat, report: Report, limit: nat)
    requires j < 2 && limit >= 2 && 0 in BorrowedState(4 + j).dunning && c == BorrowedState(4 + j).dunning[0]
    requires report == Reported(if j == 0 then Failed else Succeeded)
    ensures j < |c.retries| && AfterReport(c, j, CARD, report, limit) == BorrowedState(5 + j).dunning[0]
  {
    var first, second := Retry(1, RetryFailed, Some(CARD)), Retry(2, RetrySucceeded, Some(CARD));
    if j == 0 {
      assert c.retries[0 := first] + [Retry(2, Scheduled, None)] == BorrowedState(5).dunning[0].retries;
    } else {
      assert c.retries[1 := second] == [first, second] && [first, second][..1] == [first] && [first][..0] == [];
      assert SkipScheduled([first]) == [first] && SkipScheduled([first, second]) == [first, second];
    }
  }

  /** The second attempt finds the borrowed key, and takes its success for its own. */
  lemma BorrowedRetries(j: nat, limit: nat)
    requires j < 2 && limit >= 2
    ensures RunDunning(BorrowedState(4 + j), 0, j, [CARD], true, DECLINES, limit) == BorrowedState(5 + j)
  {
    var db := BorrowedState(4 + j);
    var c := db.dunning[0];
    var p := Pay(db, 0, j + 1, Some(CARD), DECLINES);
    assert p == Payment(db, Reported(if j == 0 then Failed else Succeeded)) by { hide RunCharge; }
    hide Pay, RunCharge;
    BorrowedChain(c, j, p.report, limit);
  }

  lemma BorrowedStep(k: nat, limit: nat)
    requires k < 6 && limit >= 2
    ensures Enabled(BorrowedState(k), BorrowedEvent(k)) && Step(BorrowedState(k), BorrowedEvent(k), limit) == BorrowedState(k + 1)
  {
    hide BorrowedState, CreateDraft, ChargeOnce, Finalize, Pay, RunDunning, UpdateOpenDraft, Recalculate, BillSubscription,
         PaymentSucceeded, PaymentFailed, CreateRefund, VoidInvoice, VoidDraft, SeedCopy;
    if k == 0 {
      BorrowedDrafts();
    } else if k == 1 {
      BorrowedCharges();
    } else if k == 2 {
      BorrowedBills();
    } else if k == 3 {
      BorrowedFails();
    } else {
      BorrowedRetries(k - 4, limit);
    }
  }

  /** Such an execution is possible: a one-time charge that succeeded under the key of an invoice's second
      attempt makes that attempt succeed too, though the invoice is not paid. */
  lemma BorrowedKeyRecovers(limit: nat) returns (states: seq<Db>, events: seq<Event>)
    requires limit >= 2
    ensures Run(states, events, limit) && !TokensOnly(events)
    ensures var last := states[|states| - 1];
            && 0 in last.invoices && last.invoices[0].status == Finalized
            && 0 in last.dunning && |last.dunning[0].retries| == 2 && last.dunning[0].retries[1].status == RetrySucceeded
  {
    states, events := seq(7, (k: nat) => BorrowedState(k)), seq(6, (k: nat) => BorrowedEvent(k));
    hide Step, Enabled;
    forall t | 0 <= t < 6 ensures Enabled(states[t], events[t]) && states[t + 1] == Step(states[t], events[t], limit) {
      BorrowedStep(t, limit);
    }
    assert events[1].EvChargeOnce? && events[1] in events;
  }
}
