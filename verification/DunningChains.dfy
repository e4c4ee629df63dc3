/** The dunning protocol: every chain of retries in every run. */
module DunningChains {
  import opened Options
  import opened BillingState
  import opened BillingHandlers
  import opened BillingRuns

  /** Attempts are numbered 1, 2, 3, ... without a gap and within the limit; all but the last have failed
      with a method; the chain has escalated once exactly when it ends in failure. */
  predicate Orderly(c: Chain, limit: nat) {
    var n := |c.retries|;
    && n <= limit
    && (forall j :: 0 <= j < n ==> c.retries[j].number == j + 1)
    && (forall j :: 0 <= j < n - 1 ==> c.retries[j].status == RetryFailed && c.retries[j].pm.Some?)
    && c.escalations == if n > 0 && c.retries[n - 1].status == RetryFailed then 1 else 0
  }

  predicate Open(c: Chain) {
    c.retries != [] && c.retries[|c.retries| - 1].status == Scheduled
  }

  /** How many more executions an open chain can take. */
  function Remaining(c: Chain, limit: nat): nat
    requires Orderly(c, limit)
  {
    if Open(c) then limit + 1 - |c.retries| else 0
  }

  ghost predicate Dunned(db: Db, limit: nat) {
    forall i :: i in db.dunning ==>
      Orderly(db.dunning[i], limit) && db.dunning[i].retries != [] && Attempt(i, 1) in db.charges
  }

  lemma {:induction false} SkipNothing(retries: seq<Retry>)
    requires forall r :: r in retries ==> r.status != Scheduled
    ensures SkipScheduled(retries) == retries
  {
    if retries != [] {
      assert retries == retries[..|retries| - 1] + [retries[|retries| - 1]];
      SkipNothing(retries[..|retries| - 1]);
    }
  }

  /** Ending the scheduled attempt of an orderly chain: the attempt is the last one, and whatever terminal
      status it gets the chain is orderly and closed. */
  lemma EndKeepsOrder(c: Chain, j: nat, last: Retry, limit: nat)
    requires Orderly(c, limit) && j < |c.retries| && c.retries[j].status == Scheduled
    requires last.number == c.retries[j].number && last.status != Scheduled
    ensures j == |c.retries| - 1
    ensures SkipScheduled(c.retries[j := last]) == c.retries[j := last]
    ensures var e := c.escalations + if last.status == RetryFailed then 1 else 0;
            Orderly(Chain(c.retries[j := last], e), limit) && !Open(Chain(c.retries[j := last], e))
  {
    SkipNothing(c.retries[j := last]);
  }

  /** A failed attempt either closes its chain or opens the next attempt. */
  lemma NextKeepsOrder(c: Chain, j: nat, m: MethodId, limit: nat)
    requires Orderly(c, limit) && j < |c.retries| && c.retries[j].status == Scheduled
    ensures Orderly(NextOrEscalate(c, j, m, limit), limit)
    ensures Remaining(NextOrEscalate(c, j, m, limit), limit) < Remaining(c, limit)
  {
    EndKeepsOrder(c, j, c.retries[j].(status := RetryFailed, pm := Some(m)), limit);
  }

  lemma ClosedKeepsOrder(c: Chain, j: nat, limit: nat)
    requires Orderly(c, limit) && j < |c.retries| && c.retries[j].status == Scheduled
    ensures Orderly(SkipRest(c, j), limit) && !Open(SkipRest(c, j)) && |SkipRest(c, j).retries| == |c.retries|
    ensures Orderly(Exhausted(c, j), limit) && !Open(Exhausted(c, j)) && |Exhausted(c, j).retries| == |c.retries|
  {
    EndKeepsOrder(c, j, c.retries[j].(status := Skipped), limit);
    EndKeepsOrder(c, j, c.retries[j].(status := RetryFailed), limit);
    hide Orderly, SkipScheduled;
  }

  lemma RecoveryKeepsOrder(c: Chain, j: nat, m: MethodId, limit: nat)
    requires Orderly(c, limit) && j < |c.retries| && c.retries[j].status == Scheduled
    ensures Orderly(Recovered(c, j, m), limit) && !Open(Recovered(c, j, m)) && |Recovered(c, j, m).retries| == |c.retries|
  {
    EndKeepsOrder(c, j, c.retries[j].(status := RetrySucceeded, pm := Some(m)), limit);
    hide Orderly, SkipScheduled;
  }

  /** Every way an execution can end keeps the chain orderly and uses it up. */
  lemma OutcomeKeepsOrder(c: Chain, j: nat, m: MethodId, report: Report, limit: nat)
    requires Orderly(c, limit) && j < |c.retries| && c.retries[j].status == Scheduled
    ensures Open(c)
    ensures |SkipRest(c, j).retries| == |Exhausted(c, j).retries| == |c.retries|
    ensures |AfterReport(c, j, m, report, limit).retries| >= |c.retries|
    ensures Orderly(SkipRest(c, j), limit) && Remaining(SkipRest(c, j), limit) < Remaining(c, limit)
    ensures Orderly(Exhausted(c, j), limit) && Remaining(Exhausted(c, j), limit) < Remaining(c, limit)
    ensures Orderly(AfterReport(c, j, m, report, limit), limit)
    ensures !report.Raised? ==> Remaining(AfterReport(c, j, m, report, limit), limit) < Remaining(c, limit)
  {
    OpenIsLast(c, j, limit);
    ClosedKeepsOrder(c, j, limit);
    RecoveryKeepsOrder(c, j, m, limit);
    NextKeepsOrder(c, j, m, limit);
    hide Orderly, Open, SkipRest, Exhausted, Recovered;
  }

  lemma OpenIsLast(c: Chain, j: nat, limit: nat)
    requires Orderly(c, limit) && j < |c.retries| && c.retries[j].status == Scheduled
    ensures Open(c) && |c.retries| <= limit
  {
  }

  /** A payment attempt starts a chain only when it inserts charge 1 of the invoice. */
  lemma PayStartsChain(db: Db, i: InvoiceId, n: nat, pm: Option<MethodId>, o: Outcome)
    requires i !in db.dunning
    ensures var after := Pay(db, i, n, pm, o).db;
            || after.dunning == db.dunning
            || (Attempt(i, 1) in after.charges
                && after.dunning == db.dunning[i := Chain([Retry(1, Scheduled, None)], 0)])
  {
    assert [] + [Retry(1, Scheduled, None)] == [Retry(1, Scheduled, None)];
  }

  /** Once charge 1 exists, payment attempts start no chain, so an invoice never gets a second one. */
  lemma StartedChainsStay(db: Db, i: InvoiceId, n: nat, pm: Option<MethodId>, o: Outcome)
    requires Attempt(i, 1) in db.charges
    ensures Pay(db, i, n, pm, o).db.dunning == db.dunning
  {
  }

  /** No chain changes and no charge is inserted or moved. */
  ghost predicate Quiet(db: Db, after: Db) {
    && after.dunning == db.dunning
    && after.charges.Keys == db.charges.Keys
    && forall k :: k in db.charges ==> after.charges[k].invoice == db.charges[k].invoice
  }

  lemma DraftIsQuiet(db: Db, ev: Event, limit: nat)
    requires Enabled(db, ev)
    requires ev.EvCreateDraft? || ev.EvSeedCopy? || ev.EvUpdateOpenDraft? || ev.EvRecalculate? || ev.EvVoidDraft?
    ensures Quiet(db, Step(db, ev, limit))
  {
    hide Surcharge, LineTotal, NotOfType, CopiedLines, Pay, RunDunning, ChargeOnce, Finalize, BillSubscription,
         PaymentSucceeded, PaymentFailed, IssueCreditNote, CreateRefund, VoidInvoice;
  }

  lemma SettlementIsQuiet(db: Db, ev: Event, limit: nat)
    requires Enabled(db, ev)
    requires ev.EvFinalize? || ev.EvBillSubscription? || ev.EvVoidInvoice?
    ensures Quiet(db, Step(db, ev, limit))
  {
    hide Settle, Pay, RunDunning, ChargeOnce, CreateDraft, UpdateOpenDraft, Recalculate, VoidDraft,
         PaymentSucceeded, PaymentFailed, IssueCreditNote, CreateRefund;
  }

  lemma WebhookIsQuiet(db: Db, ev: Event, limit: nat)
    requires Enabled(db, ev)
    requires ev.EvPaymentSucceeded? || ev.EvPaymentFailed? || ev.EvOtherWebhook?
    ensures Quiet(db, Step(db, ev, limit))
  {
    if ev.EvPaymentSucceeded? {
      hide Step;
      SuccessEventIsQuiet(db, ev.e, ev.charge, ev.published);
      StepOnWebhook(db, ev, limit);
    } else {
      hide Step;
      StepOnWebhook(db, ev, limit);
    }
  }

  lemma SuccessEventIsQuiet(db: Db, e: EventId, found: Option<ChargeKey>, published: bool)
    requires found.Some? ==> found.value in db.charges
    ensures Quiet(db, PaymentSucceeded(db, e, found, published))
  {
  }

  lemma StepOnWebhook(db: Db, ev: Event, limit: nat)
    requires Enabled(db, ev)
    ensures ev.EvPaymentSucceeded? ==>
              Step(db, ev, limit) == PaymentSucceeded(db, ev.e, ev.charge, ev.published)
    ensures ev.EvPaymentFailed? ==> Step(db, ev, limit) == PaymentFailed(db, ev.e, ev.charge, ev.published)
    ensures ev.EvOtherWebhook? ==> Step(db, ev, limit) == Marked(db, ev.e)
  {
    hide Pay, RunDunning, ChargeOnce, CreateDraft, UpdateOpenDraft, Recalculate, VoidDraft, Finalize,
         BillSubscription, VoidInvoice, IssueCreditNote, CreateRefund, PaymentSucceeded, PaymentFailed;
  }

  lemma CreditIsQuiet(db: Db, ev: Event, limit: nat)
    requires Enabled(db, ev)
    requires ev.EvIssueCreditNote? || ev.EvCreateRefund?
    ensures Quiet(db, Step(db, ev, limit))
  {
    hide Pay, RunDunning, ChargeOnce, CreateDraft, UpdateOpenDraft, Recalculate, VoidDraft, Finalize,
         BillSubscription, VoidInvoice, PaymentSucceeded, PaymentFailed, RefundedCents;
  }

  lemma QuietStep(db: Db, ev: Event, limit: nat)
    requires Enabled(db, ev) && !ev.EvPay? && !ev.EvRunDunning? && !ev.EvChargeOnce?
    ensures Quiet(db, Step(db, ev, limit))
  {
    hide Step, Quiet;
    if ev.EvCreateDraft? || ev.EvSeedCopy? || ev.EvUpdateOpenDraft? || ev.EvRecalculate? || ev.EvVoidDraft? {
      DraftIsQuiet(db, ev, limit);
    } else if ev.EvFinalize? || ev.EvBillSubscription? || ev.EvVoidInvoice? {
      SettlementIsQuiet(db, ev, limit);
    } else if ev.EvIssueCreditNote? || ev.EvCreateRefund? {
      CreditIsQuiet(db, ev, limit);
    } else {
      WebhookIsQuiet(db, ev, limit);
    }
  }

  /** Only payment attempts and retries touch chains. */
  lemma QuietSteps(db: Db, ev: Event, limit: nat)
    requires Enabled(db, ev) && !ev.EvPay? && !ev.EvRunDunning?
    ensures Step(db, ev, limit).dunning == db.dunning
  {
    if ev.EvChargeOnce? {
      hide RunCharge, Pay, RunDunning, CreateDraft, UpdateOpenDraft, Recalculate, VoidDraft, Finalize,
           BillSubscription, VoidInvoice, PaymentSucceeded, PaymentFailed, IssueCreditNote, CreateRefund;
      assert Step(db, ev, limit) == ChargeOnce(db, ev.i, ev.key, ev.c, ev.amount, ev.pm, ev.o);
    } else {
      hide Step;
      QuietStep(db, ev, limit);
    }
  }

  /** Executing an attempt keeps its chain orderly, strictly uses it up when it changes it at all, and
      leaves the other chains alone. */
  lemma RetryKeepsOrder(db: Db, i: InvoiceId, j: nat, methods: seq<MethodId>, ready: bool, o: Outcome, limit: nat)
    requires i in db.dunning && Orderly(db.dunning[i], limit) && Attempt(i, 1) in db.charges
    ensures var c, after := db.dunning[i], RunDunning(db, i, j, methods, ready, o, limit);
            && after.dunning == db.dunning[i := ChainOf(after, i)]
            && Orderly(after.dunning[i], limit) && |after.dunning[i].retries| >= |c.retries|
            && (after.dunning[i] != c ==> Remaining(after.dunning[i], limit) < Remaining(c, limit))
            && (!Open(c) ==> after == db)
  {
    hide Pay, AfterReport, SkipRest, Exhausted, SelectMethod, Remaining;
    var c := db.dunning[i];
    if j < |c.retries| && c.retries[j].status == Scheduled {
      var m := SelectMethod(methods, c.retries).GetOr(0);
      var pm := if ready then Some(m) else None;
      StartedChainsStay(db, i, c.retries[j].number, pm, o);
      OutcomeKeepsOrder(c, j, m, Pay(db, i, c.retries[j].number, pm, o).report, limit);
    }
  }

  /** The ways an execution can leave its chain. */
  lemma RetryOutcomes(db: Db, i: InvoiceId, j: nat, methods: seq<MethodId>, ready: bool, o: Outcome, limit: nat)
    returns (report: Report)
    requires i in db.dunning && Attempt(i, 1) in db.charges
    ensures var c, after := db.dunning[i], RunDunning(db, i, j, methods, ready, o, limit);
            var m := SelectMethod(methods, c.retries);
            && i in after.dunning
            && (after.dunning[i] == c
                || (j < |c.retries| && c.retries[j].status == Scheduled
                    && (after.dunning[i] == SkipRest(c, j)
                        || (m.None? && after.dunning[i] == Exhausted(c, j))
                        || (m.Some? && after.dunning[i] == AfterReport(c, j, m.value, report, limit)
                            && report == Pay(db, i, c.retries[j].number, if ready then m else None, o).report))))
  {
    var c := db.dunning[i];
    report := Raised;
    if j < |c.retries| {
      var m := SelectMethod(methods, c.retries).GetOr(0);
      var pm := if ready then Some(m) else None;
      report := Pay(db, i, c.retries[j].number, pm, o).report;
      StartedChainsStay(db, i, c.retries[j].number, pm, o);
    }
  }

  lemma PayKeepsOrder(db: Db, i: InvoiceId, n: nat, pm: Option<MethodId>, o: Outcome, limit: nat)
    requires Dunned(db, limit) && limit >= 1
    requires db.charges.Keys <= Pay(db, i, n, pm, o).db.charges.Keys
    ensures Dunned(Pay(db, i, n, pm, o).db, limit)
  {
    hide Pay;
    if i in db.dunning { StartedChainsStay(db, i, n, pm, o); } else { PayStartsChain(db, i, n, pm, o); }
  }

  lemma DunningKeepsOrder(db: Db, i: InvoiceId, j: nat, methods: seq<MethodId>, ready: bool, o: Outcome, limit: nat)
    requires Dunned(db, limit)
    requires db.charges.Keys <= RunDunning(db, i, j, methods, ready, o, limit).charges.Keys
    ensures Dunned(RunDunning(db, i, j, methods, ready, o, limit), limit)
  {
    hide RunDunning;
    if i in db.dunning {
      RetryKeepsOrder(db, i, j, methods, ready, o, limit);
    } else {
      NoChainNoRetry(db, i, j, methods, ready, o, limit);
    }
  }

  /** Without a chain there is no attempt row to execute. */
  lemma NoChainNoRetry(db: Db, i: InvoiceId, j: nat, methods: seq<MethodId>, ready: bool, o: Outcome, limit: nat)
    requires i !in db.dunning
    ensures RunDunning(db, i, j, methods, ready, o, limit) == db
  {
    hide Pay;
  }

  lemma StepKeepsOrder(db: Db, ev: Event, limit: nat)
    requires Enabled(db, ev) && limit >= 1
    requires db.charges.Keys <= Step(db, ev, limit).charges.Keys
    requires Dunned(db, limit)
    ensures Dunned(Step(db, ev, limit), limit)
  {
    if ev.EvPay? {
      PayKeepsOrder(db, ev.i, ev.n, ev.pm, ev.o, limit);
    } else if ev.EvRunDunning? {
      DunningKeepsOrder(db, ev.i, ev.j, ev.methods, ev.ready, ev.o, limit);
    } else {
      QuietSteps(db, ev, limit);
    }
  }

  lemma {:induction false} RunIsOrderly(states: seq<Db>, events: seq<Event>, limit: nat, t: nat)
    requires Run(states, events, limit) && t < |states| && limit >= 1
    ensures Dunned(states[t], limit)
  {
    if t > 0 {
      RunIsOrderly(states, events, limit, t - 1);
      RunIsSound(states, events, limit, t - 1);
      StepKeeps(states[t - 1], events[t - 1], limit);
      StepKeepsOrder(states[t - 1], events[t - 1], limit);
    }
  }

  /** A step that does not execute a retry of the invoice leaves its chain, or starts it. */
  lemma OtherChainsStay(db: Db, ev: Event, limit: nat, i: InvoiceId)
    requires Enabled(db, ev) && Dunned(db, limit)
    requires ev.EvRunDunning? && ev.i == i ==> i !in db.dunning
    ensures var after := Step(db, ev, limit);
            if i in db.dunning then i in after.dunning && after.dunning[i] == db.dunning[i]
            else i in after.dunning ==> after.dunning[i] == Chain([Retry(1, Scheduled, None)], 0)
  {
    if ev.EvRunDunning? {
      if ev.i in db.dunning {
        RetryKeepsOrder(db, ev.i, ev.j, ev.methods, ev.ready, ev.o, limit);
      } else {
        NoChainNoRetry(db, ev.i, ev.j, ev.methods, ev.ready, ev.o, limit);
      }
    } else if ev.EvPay? {
      if ev.i in db.dunning {
        StartedChainsStay(db, ev.i, ev.n, ev.pm, ev.o);
      } else {
        PayStartsChain(db, ev.i, ev.n, ev.pm, ev.o);
      }
    } else {
      QuietSteps(db, ev, limit);
    }
  }

  // ---------------------------------------------------------------- main results

  /** In every state of every run, the attempts on an invoice are numbered exactly 1..k with k within the
      limit, at most one is scheduled, a succeeded one is the last, and a chain has escalated exactly once
      when it ended in failure and otherwise not at all. */
  lemma DunningIsSafe(states: seq<Db>, events: seq<Event>, limit: nat, t: nat, i: InvoiceId)
    requires Run(states, events, limit) && t < |states| && limit >= 1 && i in states[t].dunning
    ensures var rs := states[t].dunning[i].retries;
            && 1 <= |rs| <= limit
            && (forall j :: 0 <= j < |rs| ==> rs[j].number == j + 1)
            && (forall j, k :: 0 <= j < |rs| && 0 <= k < |rs| && rs[j].status == rs[k].status == Scheduled ==> j == k)
            && (forall j :: 0 <= j < |rs| && rs[j].status == RetrySucceeded ==> j == |rs| - 1)
            && (states[t].dunning[i].escalations == 1 <==> rs[|rs| - 1].status == RetryFailed)
            && states[t].dunning[i].escalations <= 1
  {
    RunIsOrderly(states, events, limit, t);
  }

  /** A chain that has closed never changes again. */
  lemma ClosedStaysClosed(db: Db, ev: Event, limit: nat, i: InvoiceId)
    requires Enabled(db, ev) && Dunned(db, limit) && i in db.dunning && !Open(db.dunning[i])
    ensures ChainOf(Step(db, ev, limit), i) == db.dunning[i]
  {
    if ev.EvPay? {
      if ev.i in db.dunning {
        StartedChainsStay(db, ev.i, ev.n, ev.pm, ev.o);
      } else {
        PayStartsChain(db, ev.i, ev.n, ev.pm, ev.o);
      }
    } else if ev.EvRunDunning? {
      if ev.i in db.dunning { RetryKeepsOrder(db, ev.i, ev.j, ev.methods, ev.ready, ev.o, limit); }
    } else {
      QuietSteps(db, ev, limit);
    }
  }

  /** The first retry reuses the key of the first charge: it replays the stored result, so it inserts no
      charge, posts nothing and pays nothing. */
  lemma FirstRetryReplays(db: Db, i: InvoiceId, methods: seq<MethodId>, ready: bool, o: Outcome, limit: nat)
    requires Dunned(db, limit)
    ensures var after := RunDunning(db, i, 0, methods, ready, o, limit);
            after.charges == db.charges && after.invoices == db.invoices && after.ledger == db.ledger
  {
    hide SkipRest, Exhausted, AfterReport, SelectMethod;
    if i in db.dunning {
      var m := SelectMethod(methods, db.dunning[i].retries).GetOr(0);
      StoredAttemptReplays(db, i, 1, if ready then Some(m) else None, o);
      hide Pay;
    }
  }

  lemma StoredAttemptReplays(db: Db, i: InvoiceId, n: nat, pm: Option<MethodId>, o: Outcome)
    requires Attempt(i, n) in db.charges
    ensures Pay(db, i, n, pm, o).db == db
  {
    hide RunCharge;
  }
}
