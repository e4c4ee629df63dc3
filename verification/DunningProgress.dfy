/** A failing retry always gets somewhere: every failed execution schedules the next attempt, until the cascade is
    exhausted and the chain closes. */
module DunningProgress {
  import opened Options
  import opened BillingState
  import opened BillingHandlers
  import opened DunningChains
  import opened DunningCascade

  /** The call executes the scheduled attempt of the invoice. */
  predicate Executes(db: Db, ev: Event, i: InvoiceId) {
    && ev.EvRunDunning? && ev.i == i && i in db.dunning && i in db.invoices
    && ev.j < |db.dunning[i].retries| && db.dunning[i].retries[ev.j].status == Scheduled
  }

  /** A charge of the attempt is reported, and not as a success: it is stored as failed or pending, or it is declined
      or left pending now, or ends in an exception whose failure event gets out. */
  predicate ChargeFails(db: Db, i: InvoiceId, n: nat, ready: bool, o: Outcome)
    requires i in db.invoices
  {
    && ready && db.invoices[i].status == Finalized
    && if Attempt(i, n) in db.charges then db.charges[Attempt(i, n)].status != Succeeded
       else if RunThrew(db.invoices[i].total, o) then o.failurePublished
       else !o.reply.Approved?
  }

  /** The invoice is still owed, and no method is left or the charge fails. */
  predicate ExecutionFails(db: Db, ev: Event, i: InvoiceId)
    requires Executes(db, ev, i)
  {
    && db.invoices[i].status != Paid && db.invoices[i].status != Void
    && (SelectMethod(ev.methods, db.dunning[i].retries).None?
        || ChargeFails(db, i, db.dunning[i].retries[ev.j].number, ev.ready, ev.o))
  }

  /** What an execution that fails makes of its chain. */
  function AfterFailure(c: Chain, j: nat, methods: seq<MethodId>, limit: nat): Chain
    requires j < |c.retries|
  {
    var m := SelectMethod(methods, c.retries);
    if m.None? then Exhausted(c, j) else NextOrEscalate(c, j, m.value, limit)
  }

  lemma FailureIsReported(db: Db, i: InvoiceId, n: nat, m: MethodId, ready: bool, o: Outcome)
    requires i in db.invoices && ChargeFails(db, i, n, ready, o)
    ensures var report := Pay(db, i, n, Some(m), o).report; report.Reported? && report.status != Succeeded
  {
    hide ScheduleDunning, RecordApproved;
  }

  lemma FailureFails(db: Db, ev: Event, i: InvoiceId, limit: nat)
    requires Executes(db, ev, i) && ExecutionFails(db, ev, i)
    ensures var after := RunDunning(db, i, ev.j, ev.methods, ev.ready, ev.o, limit);
            i in after.dunning && after.dunning[i] == AfterFailure(db.dunning[i], ev.j, ev.methods, limit)
  {
    var c := db.dunning[i];
    var m := SelectMethod(ev.methods, c.retries);
    if m.Some? { FailureIsReported(db, i, c.retries[ev.j].number, m.value, ev.ready, ev.o); }
    hide Pay, SelectMethod, Exhausted, NextOrEscalate, SkipRest, Recovered, ChargeFails;
  }

  /** A failed attempt below the closing length schedules exactly one more, after recording its method; at the closing
      length it closes the chain with one escalation and adds none. */
  lemma FailureProgresses(c: Chain, j: nat, methods: seq<MethodId>, limit: nat)
    requires Orderly(c, limit) && Cascaded(c, methods, limit) && Distinct(methods)
    requires j < |c.retries| && c.retries[j].status == Scheduled
    ensures var n, after := |c.retries|, AfterFailure(c, j, methods, limit);
            && j == n - 1
            && (n < ClosesAt(|methods|, limit) ==>
                  && SelectMethod(methods, c.retries).Some?
                  && after == Chain(c.retries[j := c.retries[j].(status := RetryFailed, pm := SelectMethod(methods, c.retries))]
                                    + [Retry(n + 1, Scheduled, None)], 0)
                  && Open(after))
            && (n == ClosesAt(|methods|, limit) ==>
                  !Open(after) && |after.retries| == n && after.escalations == 1 && after.retries[j].status == RetryFailed)
  {
    SelectedFits(c, j, methods, limit);
    EndKeepsOrder(c, j, c.retries[j].(status := RetryFailed), limit);
    var m := SelectMethod(methods, c.retries);
    hide SelectMethod, SkipScheduled, Cascaded, UsesMethod;
  }

  /** The charge is not reported on: the method cannot be charged, or the charge ends in an exception whose failure
      event does not get out. */
  predicate ExecutionRaises(db: Db, ev: Event, i: InvoiceId)
    requires Executes(db, ev, i)
  {
    && db.invoices[i].status != Paid && db.invoices[i].status != Void
    && SelectMethod(ev.methods, db.dunning[i].retries).Some?
    && (!ev.ready || db.invoices[i].status != Finalized
        || (Attempt(i, db.dunning[i].retries[ev.j].number) !in db.charges
            && RunThrew(db.invoices[i].total, ev.o) && !ev.o.failurePublished))
  }

  lemma RaisedReport(db: Db, i: InvoiceId, n: nat, pm: Option<MethodId>, o: Outcome)
    requires i in db.invoices && db.invoices[i].status != Paid
    ensures Pay(db, i, n, pm, o).report.Raised?
            <==> pm.None? || db.invoices[i].status != Finalized
                 || (Attempt(i, n) !in db.charges && RunThrew(db.invoices[i].total, o) && !o.failurePublished)
  {
    hide ScheduleDunning, RunCharge;
  }

  lemma OnlyRaisingKeeps(c: Chain, j: nat, m: MethodId, report: Report, limit: nat)
    requires Orderly(c, limit) && j < |c.retries| && c.retries[j].status == Scheduled
    ensures SkipRest(c, j) != c && Exhausted(c, j) != c && (AfterReport(c, j, m, report, limit) == c <==> report.Raised?)
  {
    OutcomeKeepsOrder(c, j, m, report, limit);
    hide Orderly, SkipRest, Exhausted, Remaining, Open, Recovered, NextOrEscalate;
  }

  /** Only then does executing the scheduled attempt leave the chain as it is, so that it can be executed again. */
  lemma ExecutionMovesOn(db: Db, ev: Event, i: InvoiceId, limit: nat)
    requires Executes(db, ev, i) && Dunned(db, limit)
    ensures var after := RunDunning(db, i, ev.j, ev.methods, ev.ready, ev.o, limit);
            i in after.dunning && (after.dunning[i] == db.dunning[i] <==> ExecutionRaises(db, ev, i))
  {
    var c := db.dunning[i];
    var m := SelectMethod(ev.methods, c.retries);
    var pm := if ev.ready then m else None;
    if db.invoices[i].status != Paid { RaisedReport(db, i, c.retries[ev.j].number, pm, ev.o); }
    StartedChainsStay(db, i, c.retries[ev.j].number, pm, ev.o);
    OnlyRaisingKeeps(c, ev.j, m.GetOr(0), Pay(db, i, c.retries[ev.j].number, pm, ev.o).report, limit);
    hide Pay, SelectMethod, Exhausted, AfterReport, SkipRest, RunThrew, Dunned;
  }

  // ---------------------------------------------------------------- runs

  /** How many of the first `t` calls execute a scheduled attempt of the invoice. */
  ghost function Executions(states: seq<Db>, events: seq<Event>, i: InvoiceId, t: nat): nat
    requires t <= |events| && t <= |states|
  {
    if t == 0 then 0 else Executions(states, events, i, t - 1) + if Executes(states[t - 1], events[t - 1], i) then 1 else 0
  }

  /** After `e` failed executions: one attempt more than executions until the closing length, then closed. */
  ghost predicate FailedTimes(db: Db, i: InvoiceId, e: nat, n: nat, limit: nat) {
    if i !in db.dunning then e == 0
    else
      var c := db.dunning[i];
      && e <= ClosesAt(n, limit)
      && |c.retries| == Min(e + 1, ClosesAt(n, limit))
      && (Open(c) <==> e < ClosesAt(n, limit))
      && c.escalations == if e == ClosesAt(n, limit) then 1 else 0
  }

  /** A call that does not execute the invoice's scheduled attempt leaves its chain, or starts it. */
  lemma OthersLeaveChain(db: Db, ev: Event, limit: nat, i: InvoiceId)
    requires Enabled(db, ev) && Dunned(db, limit) && !Executes(db, ev, i)
    ensures var after := Step(db, ev, limit);
            if i in db.dunning then i in after.dunning && after.dunning[i] == db.dunning[i]
            else i in after.dunning ==> after.dunning[i] == Chain([Retry(1, Scheduled, None)], 0)
  {
    hide Pay, AfterReport, SkipRest, Exhausted, SelectMethod;
    if ev.EvRunDunning? && ev.i == i {
      if i !in db.dunning { NoChainNoRetry(db, i, ev.j, ev.methods, ev.ready, ev.o, limit); }
    } else {
      OtherChainsStay(db, ev, limit, i);
    }
  }

  lemma StepFails(db: Db, ev: Event, limit: nat, i: InvoiceId, methods: seq<MethodId>, e: nat)
    requires Enabled(db, ev) && limit >= 1 && Dunned(db, limit) && Distinct(methods)
    requires ev.EvRunDunning? && ev.i == i ==> ev.methods == methods
    requires i in db.dunning ==> Cascaded(db.dunning[i], methods, limit)
    requires FailedTimes(db, i, e, |methods|, limit)
    requires Executes(db, ev, i) ==> ExecutionFails(db, ev, i)
    ensures FailedTimes(Step(db, ev, limit), i, e + if Executes(db, ev, i) then 1 else 0, |methods|, limit)
  {
    hide SelectMethod, Exhausted, NextOrEscalate, Cascaded, Pay, SkipRest, AfterReport, ChargeFails, AfterFailure, Distinct;
    if Executes(db, ev, i) {
      FailureFails(db, ev, i, limit);
      FailureProgresses(db.dunning[i], ev.j, methods, limit);
      OpenIsLast(db.dunning[i], ev.j, limit);
      hide RunDunning;
    } else {
      OthersLeaveChain(db, ev, limit, i);
      hide Step;
    }
  }

  /** While every execution on an invoice fails, and the methods stay the same, the chain has one attempt more than
      executions and is open, until the execution number min(n + 1, limit) (all `limit` for one method, 1 for none):
      that one closes it with a single escalation, and there is none after it. */
  lemma {:induction false} FailingChainCloses(states: seq<Db>, events: seq<Event>, limit: nat, t: nat,
                                              i: InvoiceId, methods: seq<MethodId>)
    requires Run(states, events, limit) && t < |states| && limit >= 1
    requires FixedMethods(events, i, methods) && Distinct(methods)
    requires forall k :: 0 <= k < t && Executes(states[k], events[k], i) ==> ExecutionFails(states[k], events[k], i)
    ensures FailedTimes(states[t], i, Executions(states, events, i, t), |methods|, limit)
  {
    hide Step, Enabled, Dunned, Executes, ExecutionFails, FailedTimes, Distinct, Cascaded;
    if t == 0 {
      NothingFailedYet(i, |methods|, limit);
    } else {
      FailingChainCloses(states, events, limit, t - 1, i, methods);
      RunIsOrderly(states, events, limit, t - 1);
      CascadeFollowsOrder(states, events, limit, t - 1, i, methods);
      assert events[t - 1] in events;
      StepFails(states[t - 1], events[t - 1], limit, i, methods, Executions(states, events, i, t - 1));
    }
  }

  lemma NothingFailedYet(i: InvoiceId, n: nat, limit: nat)
    ensures FailedTimes(EMPTY_DB, i, 0, n, limit)
  {
  }
}
