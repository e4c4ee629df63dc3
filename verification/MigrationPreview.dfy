/** When a dry run reports what the real run will report. */
module MigrationPreview {
  import opened Options
  import opened BillingState
  import opened Migration

  /** The ids generated for the invoices are all different, and new. */
  ghost predicate FreshInvoices(db: Tables, b: Body) {
    && FreshPayrolls(db, b.payrolls) && FreshCharges(db, b.charges)
    && (forall p, x :: p in b.payrolls && x in b.charges ==> p.invoice != x.invoice)
  }

  ghost predicate FreshPayrolls(db: Tables, ps: seq<Payroll>) {
    && (forall j, k :: 0 <= j < k < |ps| ==> ps[j].invoice != ps[k].invoice)
    && (forall p :: p in ps ==> p.invoice !in db.invoices)
  }

  ghost predicate FreshCharges(db: Tables, cs: seq<OldCharge>) {
    && (forall j, k :: 0 <= j < k < |cs| ==> cs[j].invoice != cs[k].invoice)
    && (forall x :: x in cs ==> x.invoice !in db.invoices)
  }

  // ---------------------------------------------------------------- where the run and the preview stop

  /** One of the first `upto` payrolls sent has the id and a known status, so it is migrated by now. */
  predicate PayrollSentBefore(ps: seq<Payroll>, upto: nat, id: nat)
    requires upto <= |ps|
  {
    exists j :: 0 <= j < upto && ps[j].id == id && MapPayrollStatus(ps[j]).Some?
  }

  predicate ChargeSentBefore(cs: seq<OldCharge>, upto: nat, id: nat)
    requires upto <= |cs|
  {
    exists j :: 0 <= j < upto && cs[j].id == id && MapChargeStatus(cs[j]).Some?
  }

  /** Why the `k`th payroll would stop a run that gets there, judged from the request and the tables before. */
  function PayrollStopsRun(db: Tables, b: Body, k: nat): Option<Reason>
    requires k < |b.payrolls|
  {
    var p := b.payrolls[k];
    if MapPayrollStatus(p).None? then None
    else if p.total.None? then Some(InvalidAmount)
    else if Migrated(db, FromPayroll(p.id)) || PayrollSentBefore(b.payrolls, k, p.id) then None
    else if p.lines.None? then Some(InvalidLine)
    else if MapPayrollStatus(p).value.charge.Some? && b.methods == [] then Some(NoPaymentMethod)
    else if p.dbFails || p.startingBalance == Some(None)
            || (MapPayrollStatus(p).value.charge.Some? && MigPayroll(p.id) in db.charges) then Some(DatabaseFailed)
    else None
  }

  /** The preview neither sees what is sent before nor looks for a method, parses a starting balance or writes. */
  function PayrollStopsPreview(db: Tables, p: Payroll): Option<Reason> {
    if MapPayrollStatus(p).None? then None
    else if p.total.None? then Some(InvalidAmount)
    else if Migrated(db, FromPayroll(p.id)) then None
    else if p.lines.None? then Some(InvalidLine)
    else None
  }

  function ChargeStopsRun(db: Tables, b: Body, k: nat): Option<Reason>
    requires k < |b.charges|
  {
    var x := b.charges[k];
    if MapChargeStatus(x).None? then None
    else if x.amount.None? then Some(InvalidAmount)
    else if Migrated(db, FromCharge(x.id)) || ChargeSentBefore(b.charges, k, x.id) then None
    else if MapChargeStatus(x).value.charge.Some? && b.methods == [] then Some(NoPaymentMethod)
    else if x.lines.None? then Some(InvalidLine)
    else if x.dbFails || (MapChargeStatus(x).value.charge.Some? && MigCharge(x.id) in db.charges) then Some(DatabaseFailed)
    else None
  }

  function ChargeStopsPreview(db: Tables, x: OldCharge): Option<Reason> {
    if MapChargeStatus(x).None? then None
    else if x.amount.None? then Some(InvalidAmount)
    else if Migrated(db, FromCharge(x.id)) then None
    else if x.lines.None? then Some(InvalidLine)
    else None
  }

  /** The first payroll from the `k`th that stops the run, and why. */
  function PayrollsStopRun(db: Tables, b: Body, k: nat): Option<Reason>
    requires k <= |b.payrolls|
    decreases |b.payrolls| - k
  {
    if k == |b.payrolls| then None
    else if PayrollStopsRun(db, b, k).Some? then PayrollStopsRun(db, b, k)
    else PayrollsStopRun(db, b, k + 1)
  }

  function PayrollsStopPreview(db: Tables, b: Body, k: nat): Option<Reason>
    requires k <= |b.payrolls|
    decreases |b.payrolls| - k
  {
    if k == |b.payrolls| then None
    else if PayrollStopsPreview(db, b.payrolls[k]).Some? then PayrollStopsPreview(db, b.payrolls[k])
    else PayrollsStopPreview(db, b, k + 1)
  }

  function ChargesStopRun(db: Tables, b: Body, k: nat): Option<Reason>
    requires k <= |b.charges|
    decreases |b.charges| - k
  {
    if k == |b.charges| then None
    else if ChargeStopsRun(db, b, k).Some? then ChargeStopsRun(db, b, k)
    else ChargesStopRun(db, b, k + 1)
  }

  function ChargesStopPreview(db: Tables, b: Body, k: nat): Option<Reason>
    requires k <= |b.charges|
    decreases |b.charges| - k
  {
    if k == |b.charges| then None
    else if ChargeStopsPreview(db, b.charges[k]).Some? then ChargeStopsPreview(db, b.charges[k])
    else ChargesStopPreview(db, b, k + 1)
  }

  function AsReason(r: StepResult, fails: bool): Option<Reason> {
    if r.Rejected? then Some(r.reason) else if r.Written? && fails then Some(DatabaseFailed) else None
  }

  function StopsRun(db: Tables, b: Body, step: StepName): Option<Reason> {
    match step
    case CreditBalance => AsReason(BalanceResult(db, b), b.noteFails)
    case SurchargeConfig => AsReason(SurchargeResult(db, b), b.surchargeFails)
    case Payrolls => PayrollsStopRun(db, b, 0)
    case Charges => ChargesStopRun(db, b, 0)
    case SubscriptionStep => AsReason(SubscriptionResult(db, b), b.subscriptionFails)
  }

  function StopsPreview(db: Tables, b: Body, step: StepName): Option<Reason> {
    match step
    case CreditBalance => AsReason(BalanceResult(db, b), false)
    case SurchargeConfig => AsReason(SurchargeResult(db, b), false)
    case Payrolls => PayrollsStopPreview(db, b, 0)
    case Charges => ChargesStopPreview(db, b, 0)
    case SubscriptionStep => AsReason(SubscriptionResult(db, b), false)
  }

  /** At the first step where the run or the preview stops, both do, for the same reason. */
  predicate StopAlike(db: Tables, b: Body, steps: seq<StepName>) {
    steps == []
    || (StopsRun(db, b, steps[0]) == StopsPreview(db, b, steps[0])
        && (StopsRun(db, b, steps[0]).Some? || StopAlike(db, b, steps[1..])))
  }

  // ---------------------------------------------------------------- items

  lemma PutAdds(db: Tables, after: Tables, i: InvoiceId, row: InvoiceRow, o: Origin)
    requires i !in db.invoices && after.invoices == db.invoices[i := row]
    ensures Migrated(after, o) <==> Migrated(db, o) || o == row.origin
  {
    if k :| k in db.invoices && db.invoices[k].origin == o { assert after.invoices[k].origin == o; }
    assert after.invoices[i].origin == row.origin;
  }

  /** Writing an item under a new id adds its origin and its key, and no other. */
  lemma ItemAdds(db: Tables, c: CustomerId, pm: Option<MethodId>, x: Item, o: Origin, k: RowKey)
    requires x.invoice !in db.invoices
    ensures var run := WriteItem(db, c, pm, x);
            && (Migrated(run.0, o) <==> Migrated(db, o) || (run.1.Written? && o == x.origin))
            && (k != x.key ==> (k in run.0.charges <==> k in db.charges))
            && run.0.invoices.Keys <= db.invoices.Keys + {x.invoice}
            && run.0.subscriptions == db.subscriptions
  {
    hide Postings, Abs, Migrated;
    var run := WriteItem(db, c, pm, x);
    if run.1.Written? { PutAdds(db, run.0, x.invoice, RowOf(c, x), o); }
  }

  /** What the run will find when it gets to the payrolls from the `k`th on. */
  ghost predicate PayrollsAt(db: Tables, now: Tables, ps: seq<Payroll>, k: nat)
    requires k <= |ps|
  {
    forall j :: k <= j < |ps| ==>
      && (Migrated(now, FromPayroll(ps[j].id)) <==> Migrated(db, FromPayroll(ps[j].id)) || PayrollSentBefore(ps, k, ps[j].id))
      && (!Migrated(now, FromPayroll(ps[j].id)) ==> (MigPayroll(ps[j].id) in now.charges <==> MigPayroll(ps[j].id) in db.charges))
      && ps[j].invoice !in now.invoices
  }

  ghost predicate ChargesAt(db: Tables, now: Tables, cs: seq<OldCharge>, k: nat)
    requires k <= |cs|
  {
    forall j :: k <= j < |cs| ==>
      && (Migrated(now, FromCharge(cs[j].id)) <==> Migrated(db, FromCharge(cs[j].id)) || ChargeSentBefore(cs, k, cs[j].id))
      && (!Migrated(now, FromCharge(cs[j].id)) ==> (MigCharge(cs[j].id) in now.charges <==> MigCharge(cs[j].id) in db.charges))
      && cs[j].invoice !in now.invoices
  }

  lemma PayrollSentNext(ps: seq<Payroll>, k: nat, id: nat)
    requires k < |ps|
    ensures PayrollSentBefore(ps, k + 1, id)
            <==> PayrollSentBefore(ps, k, id) || (ps[k].id == id && MapPayrollStatus(ps[k]).Some?)
  {
    hide MapPayrollStatus;
  }

  lemma ChargeSentNext(cs: seq<OldCharge>, k: nat, id: nat)
    requires k < |cs|
    ensures ChargeSentBefore(cs, k + 1, id)
            <==> ChargeSentBefore(cs, k, id) || (cs[k].id == id && MapChargeStatus(cs[k]).Some?)
  {
    hide MapChargeStatus;
  }

  lemma ItemResult(now: Tables, c: CustomerId, pm: Option<MethodId>, x: Item)
    ensures WriteItem(now, c, pm, x).1
            == if x.mapped.charge.Some? && pm.None? then Rejected(NoPaymentMethod)
               else if x.dbFails || x.adjustment == Some(None) || (x.mapped.charge.Some? && x.key in now.charges) then
                 Rejected(DatabaseFailed)
               else Written
  {
  }

  /** The `k`th item stops the run exactly when it is expected to. */
  lemma PayrollStopsAsTold(db: Tables, now: Tables, b: Body, pm: Option<MethodId>, k: nat)
    requires k < |b.payrolls| && PayrollsAt(db, now, b.payrolls, k) && (pm.None? <==> b.methods == [])
    ensures var run := WritePlanned(now, b.customer, pm, PlanPayroll(now, b.payrolls[k]));
            AsReason(run.1, false) == PayrollStopsRun(db, b, k)
  {
    var x, plan := b.payrolls[k], PlanPayroll(now, b.payrolls[k]);
    hide MapPayrollStatus, Migrated, Postings, PayrollSentBefore, Abs, RowOf, WriteItem;
    if plan.Writes? { ItemResult(now, b.customer, pm, plan.item); }
  }

  /** The `k`th payroll leaves what is expected for those after it. */
  lemma PayrollLeavesAsTold(db: Tables, now: Tables, b: Body, pm: Option<MethodId>, k: nat)
    requires k < |b.payrolls| && PayrollsAt(db, now, b.payrolls, k)
    requires forall j, i :: 0 <= j < i < |b.payrolls| ==> b.payrolls[j].invoice != b.payrolls[i].invoice
    ensures var run := WritePlanned(now, b.customer, pm, PlanPayroll(now, b.payrolls[k]));
            !run.1.Rejected? ==> PayrollsAt(db, run.0, b.payrolls, k + 1)
  {
    hide WriteItem, MapPayrollStatus, Migrated, PayrollSentBefore, Abs;
    var rows, plan := b.payrolls, PlanPayroll(now, b.payrolls[k]);
    var run := WritePlanned(now, b.customer, pm, plan);
    if !run.1.Rejected? {
      forall j | k + 1 <= j < |rows|
        ensures Migrated(run.0, FromPayroll(rows[j].id))
                <==> Migrated(db, FromPayroll(rows[j].id)) || PayrollSentBefore(rows, k + 1, rows[j].id)
        ensures !Migrated(run.0, FromPayroll(rows[j].id)) ==>
                  (MigPayroll(rows[j].id) in run.0.charges <==> MigPayroll(rows[j].id) in db.charges)
        ensures rows[j].invoice !in run.0.invoices
      {
        PayrollSentNext(rows, k, rows[j].id);
        if plan.Writes? {
          ItemResult(now, b.customer, pm, plan.item);
          ItemAdds(now, b.customer, pm, plan.item, FromPayroll(rows[j].id), MigPayroll(rows[j].id));
        }
      }
    }
  }

  lemma ChargeStopsAsTold(db: Tables, now: Tables, b: Body, pm: Option<MethodId>, k: nat)
    requires k < |b.charges| && ChargesAt(db, now, b.charges, k) && (pm.None? <==> b.methods == [])
    ensures var run := WritePlanned(now, b.customer, pm, PlanCharge(now, b.charges[k], pm.None?));
            AsReason(run.1, false) == ChargeStopsRun(db, b, k)
  {
    var x, plan := b.charges[k], PlanCharge(now, b.charges[k], pm.None?);
    hide MapChargeStatus, Migrated, Postings, ChargeSentBefore, Abs, RowOf, WriteItem;
    if plan.Writes? { ItemResult(now, b.customer, pm, plan.item); }
  }

  /** The `k`th charge leaves what is expected for those after it. */
  lemma ChargeLeavesAsTold(db: Tables, now: Tables, b: Body, pm: Option<MethodId>, k: nat)
    requires k < |b.charges| && ChargesAt(db, now, b.charges, k)
    requires forall j, i :: 0 <= j < i < |b.charges| ==> b.charges[j].invoice != b.charges[i].invoice
    ensures var run := WritePlanned(now, b.customer, pm, PlanCharge(now, b.charges[k], pm.None?));
            !run.1.Rejected? ==> ChargesAt(db, run.0, b.charges, k + 1)
  {
    hide WriteItem, MapChargeStatus, Migrated, ChargeSentBefore, Abs;
    var rows, plan := b.charges, PlanCharge(now, b.charges[k], pm.None?);
    var run := WritePlanned(now, b.customer, pm, plan);
    if !run.1.Rejected? {
      forall j | k + 1 <= j < |rows|
        ensures Migrated(run.0, FromCharge(rows[j].id))
                <==> Migrated(db, FromCharge(rows[j].id)) || ChargeSentBefore(rows, k + 1, rows[j].id)
        ensures !Migrated(run.0, FromCharge(rows[j].id)) ==>
                  (MigCharge(rows[j].id) in run.0.charges <==> MigCharge(rows[j].id) in db.charges)
        ensures rows[j].invoice !in run.0.invoices
      {
        ChargeSentNext(rows, k, rows[j].id);
        if plan.Writes? {
          ItemResult(now, b.customer, pm, plan.item);
          ItemAdds(now, b.customer, pm, plan.item, FromCharge(rows[j].id), MigCharge(rows[j].id));
        }
      }
    }
  }

  // ---------------------------------------------------------------- lists of items

  lemma {:induction false} PayrollsStop(db: Tables, now: Tables, b: Body, pm: Option<MethodId>, k: nat)
    requires k <= |b.payrolls| && PayrollsAt(db, now, b.payrolls, k) && (pm.None? <==> b.methods == [])
    requires forall j, i :: 0 <= j < i < |b.payrolls| ==> b.payrolls[j].invoice != b.payrolls[i].invoice
    ensures AsReason(WritePayrolls(now, b.customer, pm, b.payrolls[k..]).1, false) == PayrollsStopRun(db, b, k)
    decreases |b.payrolls| - k
  {
    hide WritePlanned, PlanPayroll, PayrollStopsRun, PayrollsAt;
    if k < |b.payrolls| {
      PayrollStopsAsTold(db, now, b, pm, k);
      PayrollLeavesAsTold(db, now, b, pm, k);
      var run := WritePlanned(now, b.customer, pm, PlanPayroll(now, b.payrolls[k]));
      assert b.payrolls[k..][0] == b.payrolls[k] && b.payrolls[k..][1..] == b.payrolls[k + 1..];
      if !run.1.Rejected? { PayrollsStop(db, run.0, b, pm, k + 1); }
    }
  }

  lemma {:induction false} ChargesStop(db: Tables, now: Tables, b: Body, pm: Option<MethodId>, k: nat)
    requires k <= |b.charges| && ChargesAt(db, now, b.charges, k) && (pm.None? <==> b.methods == [])
    requires forall j, i :: 0 <= j < i < |b.charges| ==> b.charges[j].invoice != b.charges[i].invoice
    ensures AsReason(WriteCharges(now, b.customer, pm, b.charges[k..]).1, false) == ChargesStopRun(db, b, k)
    decreases |b.charges| - k
  {
    hide WritePlanned, PlanCharge, ChargeStopsRun, ChargesAt;
    if k < |b.charges| {
      ChargeStopsAsTold(db, now, b, pm, k);
      ChargeLeavesAsTold(db, now, b, pm, k);
      var run := WritePlanned(now, b.customer, pm, PlanCharge(now, b.charges[k], pm.None?));
      assert b.charges[k..][0] == b.charges[k] && b.charges[k..][1..] == b.charges[k + 1..];
      if !run.1.Rejected? { ChargesStop(db, run.0, b, pm, k + 1); }
    }
  }

  lemma {:induction false} PayrollsStopPreviewed(db: Tables, b: Body, k: nat)
    requires k <= |b.payrolls|
    ensures AsReason(PreviewPayrolls(db, b.payrolls[k..]), false) == PayrollsStopPreview(db, b, k)
    decreases |b.payrolls| - k
  {
    hide MapPayrollStatus, Migrated;
    if k < |b.payrolls| {
      assert b.payrolls[k..][0] == b.payrolls[k] && b.payrolls[k..][1..] == b.payrolls[k + 1..];
      PayrollsStopPreviewed(db, b, k + 1);
    }
  }

  lemma {:induction false} ChargesStopPreviewed(db: Tables, b: Body, k: nat)
    requires k <= |b.charges|
    ensures AsReason(PreviewCharges(db, b.charges[k..]), false) == ChargesStopPreview(db, b, k)
    decreases |b.charges| - k
  {
    hide MapChargeStatus, Migrated, Abs;
    if k < |b.charges| {
      assert b.charges[k..][0] == b.charges[k] && b.charges[k..][1..] == b.charges[k + 1..];
      ChargesStopPreviewed(db, b, k + 1);
    }
  }

  /** Writing payrolls says nothing about charges and subscriptions. */
  lemma {:induction false} PayrollsLeaveCharges(db: Tables, now: Tables, c: CustomerId, pm: Option<MethodId>, ps: seq<Payroll>,
                                                cs: seq<OldCharge>)
    requires ChargesAt(db, now, cs, 0) && FreshPayrolls(now, ps)
    requires forall p, x :: p in ps && x in cs ==> p.invoice != x.invoice
    ensures ChargesAt(db, WritePayrolls(now, c, pm, ps).0, cs, 0)
    ensures WritePayrolls(now, c, pm, ps).0.subscriptions == now.subscriptions
    decreases |ps|
  {
    hide WriteItem, MapPayrollStatus, Migrated;
    if ps != [] {
      var p, plan := ps[0], PlanPayroll(now, ps[0]);
      var first := WritePlanned(now, c, pm, plan).0;
      forall j | 0 <= j < |cs|
        ensures Migrated(first, FromCharge(cs[j].id)) <==> Migrated(now, FromCharge(cs[j].id))
        ensures MigCharge(cs[j].id) in first.charges <==> MigCharge(cs[j].id) in now.charges
        ensures cs[j].invoice !in first.invoices && first.subscriptions == now.subscriptions
      {
        if plan.Writes? { ItemAdds(now, c, pm, plan.item, FromCharge(cs[j].id), MigCharge(cs[j].id)); }
      }
      if plan.Writes? { ItemAdds(now, c, pm, plan.item, FromCharge(p.id), MigCharge(p.id)); }
      forall q | q in ps[1..] ensures q.invoice !in first.invoices {
        assert q.invoice != p.invoice;
      }
      PayrollsLeaveCharges(db, first, c, pm, ps[1..], cs);
    }
  }

  lemma {:induction false} ChargesLeaveSubscriptions(now: Tables, c: CustomerId, pm: Option<MethodId>, cs: seq<OldCharge>)
    ensures WriteCharges(now, c, pm, cs).0.subscriptions == now.subscriptions
    decreases |cs|
  {
    hide MapChargeStatus, Migrated, Postings, Abs, RowOf;
    if cs != [] { ChargesLeaveSubscriptions(WritePlanned(now, c, pm, PlanCharge(now, cs[0], pm.None?)).0, c, pm, cs[1..]); }
  }

  // ---------------------------------------------------------------- the pipeline

  lemma HasDefault(pms: seq<(MethodId, bool)>)
    requires exists k :: 0 <= k < |pms| && pms[k].1
    ensures FirstDefault(pms).Some?
  {
    var k :| 0 <= k < |pms| && pms[k].1;
    if !pms[0].1 { assert pms[1..][k - 1].1; HasDefault(pms[1..]); }
  }

  lemma MethodIsFound(pms: seq<(MethodId, bool)>)
    ensures DefaultMethod(pms).None? <==> pms == []
  {
    if exists k :: 0 <= k < |pms| && pms[k].1 { HasDefault(pms); }
  }

  lemma SameSubscriptions(x: Tables, y: Tables, b: Body)
    requires x.subscriptions == y.subscriptions
    ensures SubscriptionResult(x, b) == SubscriptionResult(y, b)
  {
    assert ActiveOf(x, b.customer) == ActiveOf(y, b.customer);
  }

  function StopReport(step: StepName, reason: Option<Reason>, later: Report): Report {
    if reason.Some? then Stopped(step, reason.value) else later
  }

  lemma OneRunStep(now: Tables, b: Body, steps: seq<StepName>, reason: Option<Reason>, later: Report)
    requires steps != [] && AsReason(WriteStep(now, b, steps[0]).1, false) == reason
    requires reason.None? ==> RunSteps(WriteStep(now, b, steps[0]).0, b, steps[1..]).1 == later
    ensures RunSteps(now, b, steps).1 == StopReport(steps[0], reason, later)
  {
    hide WriteStep;
  }

  /** The report of a run, told from the request and the tables before. */
  function RunReport(db: Tables, b: Body, steps: seq<StepName>): Report {
    if steps == [] then Done else StopReport(steps[0], StopsRun(db, b, steps[0]), RunReport(db, b, steps[1..]))
  }

  /** As far as the steps from payrolls on are concerned, nothing was written yet. */
  predicate Untouched(db: Tables, now: Tables) {
    now.invoices == db.invoices && now.charges == db.charges && now.subscriptions == db.subscriptions
  }

  lemma NothingSentYet(db: Tables, now: Tables, b: Body)
    requires Untouched(db, now) && FreshInvoices(db, b)
    ensures PayrollsAt(db, now, b.payrolls, 0) && ChargesAt(db, now, b.charges, 0) && FreshPayrolls(now, b.payrolls)
  {
    hide MapPayrollStatus, MapChargeStatus;
    assert forall o :: Migrated(now, o) == Migrated(db, o);
  }

  lemma PayrollStepStops(db: Tables, now: Tables, b: Body)
    requires Untouched(db, now) && FreshInvoices(db, b)
    ensures AsReason(WriteStep(now, b, Payrolls).1, false) == StopsRun(db, b, Payrolls)
    ensures ChargesAt(db, WriteStep(now, b, Payrolls).0, b.charges, 0)
    ensures WriteStep(now, b, Payrolls).0.subscriptions == db.subscriptions
  {
    hide WritePlanned, PlanPayroll, ChargesAt, PayrollsAt, DefaultMethod;
    NothingSentYet(db, now, b);
    MethodIsFound(b.methods);
    assert b.payrolls[0..] == b.payrolls;
    PayrollsStop(db, now, b, DefaultMethod(b.methods), 0);
    PayrollsLeaveCharges(db, now, b.customer, DefaultMethod(b.methods), b.payrolls, b.charges);
  }

  lemma ChargeStepStops(db: Tables, now: Tables, b: Body)
    requires ChargesAt(db, now, b.charges, 0) && now.subscriptions == db.subscriptions && FreshInvoices(db, b)
    ensures AsReason(WriteStep(now, b, Charges).1, false) == StopsRun(db, b, Charges)
    ensures WriteStep(now, b, Charges).0.subscriptions == db.subscriptions
  {
    hide WritePlanned, PlanCharge, ChargesAt, DefaultMethod;
    MethodIsFound(b.methods);
    assert b.charges[0..] == b.charges;
    ChargesStop(db, now, b, DefaultMethod(b.methods), 0);
    ChargesLeaveSubscriptions(now, b.customer, DefaultMethod(b.methods), b.charges);
  }

  lemma SubscriptionStepStops(db: Tables, now: Tables, b: Body)
    requires now.subscriptions == db.subscriptions
    ensures AsReason(WriteStep(now, b, SubscriptionStep).1, false) == StopsRun(db, b, SubscriptionStep)
  {
    hide SubscriptionResult, Linked;
    SameSubscriptions(now, db, b);
  }

  lemma BalanceStepStops(db: Tables, now: Tables, b: Body)
    requires Untouched(db, now) && now.notes == db.notes && now.surcharges == db.surcharges
    ensures var run := WriteStep(now, b, CreditBalance);
            && AsReason(run.1, false) == StopsRun(db, b, CreditBalance)
            && Untouched(db, run.0) && run.0.surcharges == db.surcharges
  {
    assert HasMigrationNote(now, b.customer) == HasMigrationNote(db, b.customer);
    hide HasMigrationNote;
  }

  lemma SurchargeStepStops(db: Tables, now: Tables, b: Body)
    requires Untouched(db, now) && now.surcharges == db.surcharges
    ensures var run := WriteStep(now, b, SurchargeConfig);
            AsReason(run.1, false) == StopsRun(db, b, SurchargeConfig) && Untouched(db, run.0)
  {
  }

  /** The run reports what the request and the tables before tell. */
  lemma RunIsForetold(db: Tables, now: Tables, b: Body)
    requires Untouched(db, now) && now.notes == db.notes && now.surcharges == db.surcharges && FreshInvoices(db, b)
    ensures RunSteps(now, b, STEPS).1 == RunReport(db, b, STEPS)
  {
    hide WriteStep, StopsRun, RunSteps, RunReport, FreshInvoices, Untouched, ChargesAt;
    BalanceStepStops(db, now, b);
    var s1 := WriteStep(now, b, CreditBalance).0;
    SurchargeStepStops(db, s1, b);
    var s2 := WriteStep(s1, b, SurchargeConfig).0;
    PayrollStepStops(db, s2, b);
    var s3 := WriteStep(s2, b, Payrolls).0;
    ChargeStepStops(db, s3, b);
    var s4 := WriteStep(s3, b, Charges).0;
    SubscriptionStepStops(db, s4, b);
    LastReport(db, WriteStep(s4, b, SubscriptionStep).0, b);
    assert [SubscriptionStep][1..] == [] && [Charges, SubscriptionStep][1..] == [SubscriptionStep];
    assert [Payrolls, Charges, SubscriptionStep][1..] == [Charges, SubscriptionStep];
    assert [SurchargeConfig, Payrolls, Charges, SubscriptionStep][1..] == [Payrolls, Charges, SubscriptionStep];
    assert STEPS[1..] == [SurchargeConfig, Payrolls, Charges, SubscriptionStep];
    NextReport(db, s4, b, [SubscriptionStep]);
    NextReport(db, s3, b, [Charges, SubscriptionStep]);
    NextReport(db, s2, b, [Payrolls, Charges, SubscriptionStep]);
    NextReport(db, s1, b, [SurchargeConfig, Payrolls, Charges, SubscriptionStep]);
    NextReport(db, now, b, STEPS);
  }

  lemma LastReport(db: Tables, now: Tables, b: Body)
    ensures RunSteps(now, b, []).1 == RunReport(db, b, []) == Done
  {
  }

  lemma NextReport(db: Tables, now: Tables, b: Body, steps: seq<StepName>)
    requires steps != [] && AsReason(WriteStep(now, b, steps[0]).1, false) == StopsRun(db, b, steps[0])
    requires RunSteps(WriteStep(now, b, steps[0]).0, b, steps[1..]).1 == RunReport(db, b, steps[1..])
    ensures RunSteps(now, b, steps).1 == RunReport(db, b, steps)
  {
    hide WriteStep, StopsRun;
    OneRunStep(now, b, steps, StopsRun(db, b, steps[0]), RunReport(db, b, steps[1..]));
  }

  lemma StepIsPreviewed(db: Tables, b: Body, step: StepName)
    ensures AsReason(PreviewStep(db, b, step), false) == StopsPreview(db, b, step)
  {
    hide PreviewPayrolls, PreviewCharges, BalanceResult, SurchargeResult, SubscriptionResult, PlanPayroll, PlanCharge;
    assert b.payrolls[0..] == b.payrolls && b.charges[0..] == b.charges;
    PayrollsStopPreviewed(db, b, 0);
    ChargesStopPreviewed(db, b, 0);
  }

  predicate NoneTwice(steps: seq<StepName>) {
    forall j, k :: 0 <= j < k < |steps| ==> steps[j] != steps[k]
  }

  lemma {:induction false} StopsWithin(db: Tables, b: Body, steps: seq<StepName>, step: StepName)
    requires step !in steps
    ensures !(RunReport(db, b, steps).Stopped? && RunReport(db, b, steps).step == step)
    ensures !(PreviewSteps(db, b, steps).Stopped? && PreviewSteps(db, b, steps).step == step)
    decreases |steps|
  {
    hide StopsRun, PreviewStep;
    if steps != [] { StopsWithin(db, b, steps[1..], step); }
  }

  /** The reports are the same exactly when both stop alike. */
  lemma {:induction false} SameReports(db: Tables, b: Body, steps: seq<StepName>)
    requires NoneTwice(steps)
    ensures RunReport(db, b, steps) == PreviewSteps(db, b, steps) <==> StopAlike(db, b, steps)
    decreases |steps|
  {
    hide StopsRun, StopsPreview, PreviewStep;
    if steps != [] {
      StepIsPreviewed(db, b, steps[0]);
      StopsWithin(db, b, steps[1..], steps[0]);
      SameReports(db, b, steps[1..]);
    }
  }

  lemma RunIsReported(db: Tables, m: MonolithId, b: Body)
    requires FreshInvoices(db, b) && m !in db.customers && !SettingsResult(b).Rejected? && !b.settingsFail
    ensures Migrate(db, m, b).1 == RunReport(db, b, STEPS) && Preview(db, m, b) == PreviewSteps(db, b, STEPS)
  {
    hide RunSteps, RunReport, FreshInvoices, PreviewSteps, WithMethods;
    RunIsForetold(db, WriteSettings(db, m, b).0, b);
  }

  /** A dry run reports the outcome of the run exactly when the customer is already migrated, or cannot be, or
      is written and the first step at which either stops is the same, with the same reason. Where each one
      stops is told by the request and the tables before: in the lists by the first item that stops it. */
  lemma PreviewPredictsRun(db: Tables, m: MonolithId, b: Body)
    requires FreshInvoices(db, b)
    ensures Preview(db, m, b) == Migrate(db, m, b).1
            <==> m in db.customers || SettingsResult(b).Rejected? || (!b.settingsFail && StopAlike(db, b, STEPS))
  {
    hide FreshInvoices, RunSteps, RunReport, StopAlike, PreviewSteps, WithMethods;
    SameReports(db, b, STEPS);
    if m !in db.customers && !SettingsResult(b).Rejected? {
      if b.settingsFail {
        StopsWithinSteps(db, b, STEPS);
      } else {
        RunIsReported(db, m, b);
      }
    }
  }

  lemma StopsWithinSteps(db: Tables, b: Body, steps: seq<StepName>)
    ensures PreviewSteps(db, b, steps).Done? || PreviewSteps(db, b, steps).Stopped?
    decreases |steps|
  {
    hide PreviewStep;
  }

  predicate PayrollWriteFails(db: Tables, b: Body, p: Payroll)
    requires MapPayrollStatus(p).Some?
  {
    || p.dbFails || p.startingBalance == Some(None)
    || (MapPayrollStatus(p).value.charge.Some? && (b.methods == [] || MigPayroll(p.id) in db.charges))
  }

  /** Where the two part: a payroll not yet migrated stops one and not the other exactly when it was sent before
      and a line does not parse, or it was not, its lines parse and something only the run does fails. */
  lemma PayrollSurprise(db: Tables, b: Body, k: nat)
    requires k < |b.payrolls|
    ensures var p := b.payrolls[k];
            PayrollStopsRun(db, b, k) != PayrollStopsPreview(db, p)
            <==> && MapPayrollStatus(p).Some? && p.total.Some? && !Migrated(db, FromPayroll(p.id))
                 && if PayrollSentBefore(b.payrolls, k, p.id) then p.lines.None?
                    else p.lines.Some? && PayrollWriteFails(db, b, p)
  {
    hide MapPayrollStatus, Migrated, PayrollSentBefore;
  }

  /** The same for charges, whose writer misses the payment method before it looks at the lines. */
  lemma ChargeSurprise(db: Tables, b: Body, k: nat)
    requires k < |b.charges|
    ensures var x := b.charges[k];
            ChargeStopsRun(db, b, k) != ChargeStopsPreview(db, x)
            <==> && MapChargeStatus(x).Some? && x.amount.Some? && !Migrated(db, FromCharge(x.id))
                 && if ChargeSentBefore(b.charges, k, x.id) then x.lines.None?
                    else || (MapChargeStatus(x).value.charge.Some? && b.methods == [])
                         || (x.lines.Some?
                             && (x.dbFails || (MapChargeStatus(x).value.charge.Some? && MigCharge(x.id) in db.charges)))
  {
    hide MapChargeStatus, Migrated, ChargeSentBefore;
  }

  lemma {:induction false} PayrollsStopSame(db: Tables, b: Body, k: nat)
    requires k <= |b.payrolls|
    requires forall j :: k <= j < |b.payrolls| ==> PayrollStopsRun(db, b, j) == PayrollStopsPreview(db, b.payrolls[j])
    ensures PayrollsStopRun(db, b, k) == PayrollsStopPreview(db, b, k)
    decreases |b.payrolls| - k
  {
    hide PayrollStopsRun, PayrollStopsPreview;
    if k < |b.payrolls| { PayrollsStopSame(db, b, k + 1); }
  }

  lemma {:induction false} ChargesStopSame(db: Tables, b: Body, k: nat)
    requires k <= |b.charges|
    requires forall j :: k <= j < |b.charges| ==> ChargeStopsRun(db, b, j) == ChargeStopsPreview(db, b.charges[j])
    ensures ChargesStopRun(db, b, k) == ChargesStopPreview(db, b, k)
    decreases |b.charges| - k
  {
    hide ChargeStopsRun, ChargeStopsPreview;
    if k < |b.charges| { ChargesStopSame(db, b, k + 1); }
  }

  lemma {:induction false} SameStops(db: Tables, b: Body, steps: seq<StepName>)
    requires forall step :: step in steps ==> StopsRun(db, b, step) == StopsPreview(db, b, step)
    ensures StopAlike(db, b, steps)
    decreases |steps|
  {
    hide StopsRun, StopsPreview;
    if steps != [] { SameStops(db, b, steps[1..]); }
  }

  /** So when no item parts the two and the database accepts the single rows, the dry run is right. */
  lemma WithoutSurprisesPreviewIsRight(db: Tables, m: MonolithId, b: Body)
    requires FreshInvoices(db, b) && !b.settingsFail && !b.noteFails && !b.surchargeFails && !b.subscriptionFails
    requires forall k :: 0 <= k < |b.payrolls| ==> PayrollStopsRun(db, b, k) == PayrollStopsPreview(db, b.payrolls[k])
    requires forall k :: 0 <= k < |b.charges| ==> ChargeStopsRun(db, b, k) == ChargeStopsPreview(db, b.charges[k])
    ensures Preview(db, m, b) == Migrate(db, m, b).1
  {
    hide FreshInvoices, PayrollStopsRun, PayrollStopsPreview, ChargeStopsRun, ChargeStopsPreview, Preview, Migrate, StopAlike,
         PayrollsStopRun, PayrollsStopPreview, ChargesStopRun, ChargesStopPreview;
    PayrollsStopSame(db, b, 0);
    ChargesStopSame(db, b, 0);
    SameStops(db, b, STEPS);
    PreviewPredictsRun(db, m, b);
  }

  // ---------------------------------------------------------------- three requests it misses

  const NO_ROWS: Tables := Tables(map[], map[], map[], map[], map[], map[], map[], map[], map[], {}, {}, [])

  function PaidPayroll(lines: Option<seq<int>>, startingBalance: Option<Cents>, invoice: InvoiceId): Payroll {
    Payroll(7, false, false, "paid", false, Some(100), lines, startingBalance, invoice, false)
  }

  function Request(methods: seq<(MethodId, bool)>, payrolls: seq<Payroll>): Body {
    Body(0, 1, true, false, true, methods, false, None, 0, false, None, false, payrolls, [], Some(Some(100)), true, None, 0,
         false)
  }

  lemma StepsOfRequest(b: Body, step: StepName)
    requires b == Request(b.methods, b.payrolls)
    ensures StopsRun(NO_ROWS, b, step) == if step == Payrolls then PayrollsStopRun(NO_ROWS, b, 0) else None
    ensures StopsPreview(NO_ROWS, b, step) == if step == Payrolls then PayrollsStopPreview(NO_ROWS, b, 0) else None
  {
    hide PayrollsStopRun, PayrollsStopPreview;
    assert ActiveOf(NO_ROWS, 0) == {};
  }

  lemma {:induction false} RequestReport(b: Body, steps: seq<StepName>)
    requires b == Request(b.methods, b.payrolls) && NoneTwice(steps)
    ensures RunReport(NO_ROWS, b, steps)
            == if Payrolls in steps then StopReport(Payrolls, PayrollsStopRun(NO_ROWS, b, 0), Done) else Done
    ensures PreviewSteps(NO_ROWS, b, steps)
            == if Payrolls in steps then StopReport(Payrolls, PayrollsStopPreview(NO_ROWS, b, 0), Done) else Done
    decreases |steps|
  {
    hide StopsRun, StopsPreview, PreviewStep, PayrollsStopRun, PayrollsStopPreview, Request;
    if steps != [] {
      StepsOfRequest(b, steps[0]);
      StepIsPreviewed(NO_ROWS, b, steps[0]);
      RequestReport(b, steps[1..]);
    }
  }

  /** On the empty tables the report is decided by the payrolls. */
  lemma ReportsOfRequest(b: Body)
    requires b == Request(b.methods, b.payrolls) && FreshPayrolls(NO_ROWS, b.payrolls)
    ensures Migrate(NO_ROWS, 0, b).1 == StopReport(Payrolls, PayrollsStopRun(NO_ROWS, b, 0), Done)
    ensures Preview(NO_ROWS, 0, b) == StopReport(Payrolls, PayrollsStopPreview(NO_ROWS, b, 0), Done)
  {
    hide PayrollsStopRun, PayrollsStopPreview, RunReport, PreviewSteps, RunSteps, FreshPayrolls;
    RequestReport(b, STEPS);
    RunIsReported(NO_ROWS, 0, b);
  }

  /** The preview misses a starting balance that does not parse, ... */
  lemma PreviewMissesBalances(b: Body)
    requires b == Request([(0, true)], [PaidPayroll(Some([100]), Some(None), 0)])
    ensures Migrate(NO_ROWS, 0, b).1 == Stopped(Payrolls, DatabaseFailed) && Preview(NO_ROWS, 0, b) == Done
  {
    ReportsOfRequest(b);
    hide Migrate, Preview, Request, RunReport;
    assert PayrollStopsRun(NO_ROWS, b, 0) == Some(DatabaseFailed);
    assert PayrollsStopPreview(NO_ROWS, b, 1) == None;
  }

  /** ... a charged payroll of a customer without a payment method, ... */
  lemma PreviewMissesMethods(b: Body)
    requires b == Request([], [PaidPayroll(Some([100]), None, 0)])
    ensures Migrate(NO_ROWS, 0, b).1 == Stopped(Payrolls, NoPaymentMethod) && Preview(NO_ROWS, 0, b) == Done
  {
    ReportsOfRequest(b);
    hide Migrate, Preview, Request, RunReport;
    assert PayrollStopsRun(NO_ROWS, b, 0) == Some(NoPaymentMethod);
    assert PayrollsStopPreview(NO_ROWS, b, 1) == None;
  }

  /** ... and that a payroll sent twice is skipped the second time, even when its lines do not parse. */
  lemma PreviewMissesRepeats(b: Body)
    requires b == Request([(0, true)], [PaidPayroll(Some([100]), None, 0), PaidPayroll(None, None, 1)])
    ensures Migrate(NO_ROWS, 0, b).1 == Done && Preview(NO_ROWS, 0, b) == Stopped(Payrolls, InvalidLine)
  {
    ReportsOfRequest(b);
    hide Migrate, Preview, Request, RunReport;
    assert b.payrolls[0].id == 7 && PayrollSentBefore(b.payrolls, 1, 7);
    assert PayrollStopsRun(NO_ROWS, b, 0) == None && PayrollStopsRun(NO_ROWS, b, 1) == None;
    assert PayrollsStopRun(NO_ROWS, b, 2) == None && PayrollsStopRun(NO_ROWS, b, 1) == None;
    assert PayrollStopsPreview(NO_ROWS, b.payrolls[1]) == Some(InvalidLine);
    assert PayrollsStopPreview(NO_ROWS, b, 1) == Some(InvalidLine);
  }
}
