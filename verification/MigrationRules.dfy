/** What a finished migration has written, told from the request and the tables before alone: the rows of every item,
    with its status, and nothing else. */
module MigrationRules {
  import opened Options
  import opened Ledger
  import opened BillingState
  import opened Migration
  import opened MigrationPreview

  // ---------------------------------------------------------------- statuses

  /** A payroll of the old system becomes an invoice of a status, with a charge of a status or none. */
  predicate PayrollIs(p: Payroll, status: InvoiceStatus, charge: Option<ChargeStatus>) {
    if p.deleted then status == InvoiceStatus.Void && charge == None
    else if p.failure || p.status == "failed" then status == Finalized && charge == Some(ChargeStatus.Failed)
    else if p.status in {"paid", "succeeded"} then status == InvoiceStatus.Paid && charge == Some(ChargeStatus.Succeeded)
    else if p.status in {"pending", "processing"} then status == Finalized && charge == Some(Pending)
    else p.status in {"unpaid", "un-paid"} && status == (if p.future then Draft else Finalized) && charge == None
  }

  predicate ChargeIs(x: OldCharge, status: InvoiceStatus, charge: Option<ChargeStatus>) {
    if x.deleted then status == InvoiceStatus.Void && charge == None
    else if x.status == "failed" then status == Finalized && charge == Some(ChargeStatus.Failed)
    else if x.status in {"paid", "succeeded"} then status == InvoiceStatus.Paid && charge == Some(ChargeStatus.Succeeded)
    else x.status in {"pending", "processing"} && status == Finalized && charge == Some(Pending)
  }

  lemma PayrollStatuses(p: Payroll, m: StatusMap)
    ensures MapPayrollStatus(p) == Some(m) <==> PayrollIs(p, m.invoice, m.charge)
  {
  }

  lemma ChargeStatuses(x: OldCharge, m: StatusMap)
    ensures MapChargeStatus(x) == Some(m) <==> ChargeIs(x, m.invoice, m.charge)
  {
  }

  /** The payroll has a status there is, and is neither in the tables nor sent before. */
  predicate TakesPayroll(db: Tables, ps: seq<Payroll>, k: nat)
    requires k < |ps|
  {
    && KnownPayroll(ps[k])
    && (forall i :: i in db.invoices ==> db.invoices[i].origin != FromPayroll(ps[k].id))
    && forall j :: 0 <= j < k && ps[j].id == ps[k].id ==> !KnownPayroll(ps[j])
  }

  predicate TakesCharge(db: Tables, cs: seq<OldCharge>, k: nat)
    requires k < |cs|
  {
    && KnownCharge(cs[k])
    && (forall i :: i in db.invoices ==> db.invoices[i].origin != FromCharge(cs[k].id))
    && forall j :: 0 <= j < k && cs[j].id == cs[k].id ==> !KnownCharge(cs[j])
  }

  predicate KnownPayroll(p: Payroll) {
    p.deleted || p.failure || p.status in {"paid", "succeeded", "failed", "pending", "processing", "unpaid", "un-paid"}
  }

  predicate KnownCharge(x: OldCharge) {
    x.deleted || x.status in {"paid", "succeeded", "failed", "pending", "processing"}
  }

  lemma KnownStatuses(p: Payroll, x: OldCharge)
    ensures KnownPayroll(p) <==> MapPayrollStatus(p).Some?
    ensures KnownCharge(x) <==> MapChargeStatus(x).Some?
  {
  }

  lemma TakenPayroll(db: Tables, ps: seq<Payroll>, k: nat)
    requires k < |ps|
    ensures TakesPayroll(db, ps, k)
            <==> MapPayrollStatus(ps[k]).Some? && !Migrated(db, FromPayroll(ps[k].id)) && !PayrollSentBefore(ps, k, ps[k].id)
  {
    forall p: Payroll ensures KnownPayroll(p) <==> MapPayrollStatus(p).Some? {
      KnownStatuses(p, OldCharge(0, false, "", false, None, None, 0, false));
    }
    hide MapPayrollStatus, KnownPayroll;
  }

  lemma TakenCharge(db: Tables, cs: seq<OldCharge>, k: nat)
    requires k < |cs|
    ensures TakesCharge(db, cs, k)
            <==> MapChargeStatus(cs[k]).Some? && !Migrated(db, FromCharge(cs[k].id)) && !ChargeSentBefore(cs, k, cs[k].id)
  {
    forall x: OldCharge ensures KnownCharge(x) <==> MapChargeStatus(x).Some? {
      KnownStatuses(Payroll(0, false, false, "", false, None, None, None, 0, false), x);
    }
    hide MapChargeStatus, KnownCharge;
  }

  // ---------------------------------------------------------------- rows about something

  /** The journal rows about a subject, in order. */
  function RowsAbout(ledger: seq<Entry<Tag>>, s: Subject): seq<Entry<Tag>> {
    if ledger == [] then []
    else
      var last := ledger[|ledger| - 1];
      RowsAbout(ledger[..|ledger| - 1], s) + if last.ref.subject == s then [last] else []
  }

  lemma {:induction false} RowsAboutBoth(before: seq<Entry<Tag>>, posted: seq<Entry<Tag>>, s: Subject)
    ensures RowsAbout(before + posted, s) == RowsAbout(before, s) + RowsAbout(posted, s)
  {
    if posted == [] {
      assert before + posted == before;
    } else {
      var n := |posted| - 1;
      assert (before + posted)[..|before| + n] == before + posted[..n];
      RowsAboutBoth(before, posted[..n], s);
    }
  }

  /** What an invoice of the status has in the journal: nothing for a draft or an amount of zero, its receivable, and the
      cash of a paid one or the reversal of a void one. */
  function Booked(i: InvoiceId, status: InvoiceStatus, total: int): seq<Entry<Tag>> {
    var amount, about := if total < 0 then -total else total, Tag(OfInvoice(i), true);
    if amount == 0 then []
    else
      match status
      case Draft => []
      case Finalized => [Entry(AccountsReceivable, Revenue, amount, about)]
      case Paid => [Entry(AccountsReceivable, Revenue, amount, about), Entry(Cash, AccountsReceivable, amount, about)]
      case Void => [Entry(AccountsReceivable, Revenue, amount, about), Entry(Revenue, AccountsReceivable, amount, about)]
  }

  lemma RowsOfTwo(e: Entry<Tag>, f: Entry<Tag>, s: Subject)
    ensures RowsAbout([e], s) == if e.ref.subject == s then [e] else []
    ensures RowsAbout([e, f], s) == RowsAbout([e], s) + if f.ref.subject == s then [f] else []
  {
    assert [e][..0] == [] && [e, f][..1] == [e];
  }

  lemma PostedIsBooked(i: InvoiceId, status: InvoiceStatus, total: int, s: Subject)
    ensures RowsAbout(Postings(i, status, Abs(total)), s) == if s == OfInvoice(i) then Booked(i, status, total) else []
  {
    var owed := Entry(AccountsReceivable, Revenue, Abs(total), Tag(OfInvoice(i), true));
    RowsOfTwo(owed, owed.(debit := Cash, credit := AccountsReceivable), s);
    RowsOfTwo(owed, owed.(debit := Revenue, credit := AccountsReceivable), s);
  }

  // ---------------------------------------------------------------- items

  /** The invoice row, the charge row and the journal rows of an item. */
  ghost predicate IsIn(db: Tables, after: Tables, c: CustomerId, pm: Option<MethodId>, x: Item) {
    && x.invoice in after.invoices && after.invoices[x.invoice] == RowOf(c, x)
    && (if x.mapped.charge.Some? then
          pm.Some? && x.key in after.charges
          && after.charges[x.key] == ChargeRow(c, x.invoice, pm.value, Abs(x.total), x.mapped.charge.value)
        else SameCharge(db, after, x.key))
    && RowsAbout(after.ledger, OfInvoice(x.invoice))
       == RowsAbout(db.ledger, OfInvoice(x.invoice)) + Booked(x.invoice, x.mapped.invoice, x.total)
  }

  predicate SameInvoice(db: Tables, after: Tables, i: InvoiceId) {
    && (i in after.invoices <==> i in db.invoices)
    && (i in db.invoices ==> after.invoices[i] == db.invoices[i])
  }

  predicate SameCharge(db: Tables, after: Tables, key: RowKey) {
    && (key in after.charges <==> key in db.charges)
    && (key in db.charges ==> after.charges[key] == db.charges[key])
  }

  predicate SameRowsAbout(db: Tables, after: Tables, s: Subject) {
    RowsAbout(after.ledger, s) == RowsAbout(db.ledger, s)
  }

  /** All but invoices, charges and journal. */
  predicate SameSettings(db: Tables, after: Tables) {
    && after.customers == db.customers && after.methods == db.methods && after.gateways == db.gateways
    && after.notes == db.notes && after.balances == db.balances && after.surcharges == db.surcharges
    && after.subscriptions == db.subscriptions
  }

  lemma ItemIsIn(db: Tables, c: CustomerId, pm: Option<MethodId>, x: Item)
    requires WriteItem(db, c, pm, x).1.Written?
    ensures IsIn(db, WriteItem(db, c, pm, x).0, c, pm, x) && x.adjustment != Some(None)
  {
    PostedIsBooked(x.invoice, x.mapped.invoice, x.total, OfInvoice(x.invoice));
    RowsAboutBoth(db.ledger, Postings(x.invoice, x.mapped.invoice, Abs(x.total)), OfInvoice(x.invoice));
    hide Postings, RowsAbout, Booked, Abs;
  }

  lemma ItemTables(db: Tables, c: CustomerId, pm: Option<MethodId>, x: Item)
    ensures var run := WriteItem(db, c, pm, x);
            && SameSettings(db, run.0)
            && (!run.1.Written? ==> run.0 == db)
            && (run.1.Written? ==>
                  && run.0.invoices == db.invoices[x.invoice := RowOf(c, x)]
                  && (forall key :: key != x.key ==> SameCharge(db, run.0, key))
                  && run.0.ledger == db.ledger + Postings(x.invoice, x.mapped.invoice, Abs(x.total)))
  {
    hide Postings, RowOf, Abs;
  }

  /** Writing an item leaves other invoices, other charges and all else as they are. */
  lemma ItemLeaves(db: Tables, c: CustomerId, pm: Option<MethodId>, x: Item, i: InvoiceId, key: RowKey, s: Subject)
    ensures var after := WriteItem(db, c, pm, x).0;
            && (i != x.invoice ==> SameInvoice(db, after, i))
            && (key != x.key ==> SameCharge(db, after, key))
            && (s != OfInvoice(x.invoice) ==> SameRowsAbout(db, after, s))
  {
    hide WriteItem, SameSettings, SameCharge;
    ItemTables(db, c, pm, x);
    if WriteItem(db, c, pm, x).0 == db {
      assert SameCharge(db, db, key) by { SameAsItself(db, key); }
    } else {
      PostedIsBooked(x.invoice, x.mapped.invoice, x.total, s);
      RowsAboutBoth(db.ledger, Postings(x.invoice, x.mapped.invoice, Abs(x.total)), s);
      hide Postings, RowsAbout, Booked, Abs, RowOf;
    }
  }

  lemma SameAsItself(db: Tables, key: RowKey)
    ensures SameCharge(db, db, key)
  {
  }

  /** Items one after the other, as far as they go. */
  function WriteAll(db: Tables, c: CustomerId, pm: Option<MethodId>, plans: seq<Planned>): (Tables, StepResult)
    decreases |plans|
  {
    if plans == [] then (db, Written)
    else
      var first := WritePlanned(db, c, pm, plans[0]);
      if first.1.Rejected? then first else WriteAll(first.0, c, pm, plans[1..])
  }

  ghost predicate NoneFor(plans: seq<Planned>, i: InvoiceId) {
    forall k :: 0 <= k < |plans| && plans[k].Writes? ==> plans[k].item.invoice != i
  }

  ghost predicate NoneUnder(plans: seq<Planned>, key: RowKey) {
    forall k :: 0 <= k < |plans| && plans[k].Writes? ==> plans[k].item.key != key
  }

  lemma PlannedLeaves(db: Tables, c: CustomerId, pm: Option<MethodId>, plan: Planned, i: InvoiceId, key: RowKey, s: Subject)
    ensures var after := WritePlanned(db, c, pm, plan).0;
            && (!plan.Writes? || plan.item.invoice != i ==> SameInvoice(db, after, i))
            && (!plan.Writes? || plan.item.key != key ==> SameCharge(db, after, key))
            && (!plan.Writes? || s != OfInvoice(plan.item.invoice) ==> SameRowsAbout(db, after, s))
  {
    hide WriteItem, RowsAbout;
    if plan.Writes? { ItemLeaves(db, c, pm, plan.item, i, key, s); }
  }

  /** All leave what none of them is about. */
  lemma {:induction false} AllLeave(db: Tables, c: CustomerId, pm: Option<MethodId>, plans: seq<Planned>, i: InvoiceId, key: RowKey,
                                    s: Subject)
    ensures var after := WriteAll(db, c, pm, plans).0;
            && (NoneFor(plans, i) ==> SameInvoice(db, after, i))
            && (NoneUnder(plans, key) ==> SameCharge(db, after, key))
            && ((s.OfInvoice? ==> NoneFor(plans, s.i)) ==> SameRowsAbout(db, after, s))
    decreases |plans|
  {
    hide WritePlanned, RowsAbout;
    if plans != [] {
      var first := WritePlanned(db, c, pm, plans[0]);
      PlannedLeaves(db, c, pm, plans[0], i, key, s);
      if !first.1.Rejected? { AllLeave(first.0, c, pm, plans[1..], i, key, s); }
    }
  }

  lemma {:induction false} AllLeaveSettings(db: Tables, c: CustomerId, pm: Option<MethodId>, plans: seq<Planned>)
    ensures SameSettings(db, WriteAll(db, c, pm, plans).0)
    decreases |plans|
  {
    hide WriteItem;
    if plans != [] {
      if plans[0].Writes? { ItemTables(db, c, pm, plans[0].item); }
      var first := WritePlanned(db, c, pm, plans[0]);
      if !first.1.Rejected? { AllLeaveSettings(first.0, c, pm, plans[1..]); }
    }
  }

  /** No two are about the same invoice or under the same key. */
  ghost predicate Apart(plans: seq<Planned>) {
    forall j, k :: 0 <= j < k < |plans| && plans[j].Writes? && plans[k].Writes? ==>
      plans[j].item.invoice != plans[k].item.invoice && plans[j].item.key != plans[k].item.key
  }

  predicate SameItem(db: Tables, after: Tables, x: Item) {
    SameInvoice(db, after, x.invoice) && SameCharge(db, after, x.key) && SameRowsAbout(db, after, OfInvoice(x.invoice))
  }

  lemma StillIn(x: Tables, y: Tables, z: Tables, c: CustomerId, pm: Option<MethodId>, item: Item)
    requires || (IsIn(x, y, c, pm, item) && SameItem(y, z, item))
             || (IsIn(y, z, c, pm, item) && SameItem(x, y, item))
    ensures IsIn(x, z, c, pm, item)
  {
    hide RowOf, Abs, RowsAbout, Booked;
  }

  /** When none is rejected, all are in. */
  lemma {:induction false} AllAreIn(db: Tables, c: CustomerId, pm: Option<MethodId>, plans: seq<Planned>, k: nat)
    requires Apart(plans) && !WriteAll(db, c, pm, plans).1.Rejected? && k < |plans|
    ensures !plans[k].Fails?
    ensures plans[k].Writes? ==> IsIn(db, WriteAll(db, c, pm, plans).0, c, pm, plans[k].item) && plans[k].item.adjustment != Some(None)
    decreases |plans|
  {
    hide WriteItem, IsIn, RowsAbout, SameInvoice, SameCharge, SameRowsAbout, SameSettings;
    var first, after := WritePlanned(db, c, pm, plans[0]), WriteAll(db, c, pm, plans).0;
    if k == 0 {
      if plans[0].Writes? {
        var x := plans[0].item;
        ItemResult(db, c, pm, x);
        ItemIsIn(db, c, pm, x);
        AllLeave(first.0, c, pm, plans[1..], x.invoice, x.key, OfInvoice(x.invoice));
        StillIn(db, first.0, after, c, pm, x);
      }
    } else {
      AllAreIn(first.0, c, pm, plans[1..], k - 1);
      if plans[k].Writes? {
        var x := plans[k].item;
        if plans[0].Writes? {
          ItemLeaves(db, c, pm, plans[0].item, x.invoice, x.key, OfInvoice(x.invoice));
          StillIn(db, first.0, after, c, pm, x);
        }
      }
    }
  }

  // ---------------------------------------------------------------- the items of a request

  /** What becomes of the `k`th payroll, told from the tables before. */
  function PayrollPlan(db: Tables, ps: seq<Payroll>, k: nat): Planned
    requires k < |ps|
  {
    if TakesPayroll(db, ps, k) then PlanPayroll(db, ps[k]) else Skips
  }

  function ChargePlan(db: Tables, cs: seq<OldCharge>, k: nat, noMethod: bool): Planned
    requires k < |cs|
  {
    if TakesCharge(db, cs, k) then PlanCharge(db, cs[k], noMethod) else Skips
  }

  function PayrollPlans(db: Tables, ps: seq<Payroll>, from: nat): seq<Planned>
    requires from <= |ps|
  {
    seq(|ps| - from, k requires 0 <= k < |ps| - from => PayrollPlan(db, ps, from + k))
  }

  function ChargePlans(db: Tables, cs: seq<OldCharge>, from: nat, noMethod: bool): seq<Planned>
    requires from <= |cs|
  {
    seq(|cs| - from, k requires 0 <= k < |cs| - from => ChargePlan(db, cs, from + k, noMethod))
  }

  function Plans(db: Tables, b: Body): seq<Planned> {
    PayrollPlans(db, b.payrolls, 0) + ChargePlans(db, b.charges, 0, b.methods == [])
  }

  lemma SamePayrollPlan(db: Tables, now: Tables, b: Body, pm: Option<MethodId>, k: nat)
    requires k < |b.payrolls| && PayrollsAt(db, now, b.payrolls, k)
    requires !WritePlanned(now, b.customer, pm, PlanPayroll(now, b.payrolls[k])).1.Rejected?
    ensures PlanPayroll(now, b.payrolls[k]) == PayrollPlan(db, b.payrolls, k)
  {
    TakenPayroll(db, b.payrolls, k);
    hide TakesPayroll, MapPayrollStatus, Migrated, PayrollSentBefore, WriteItem;
  }

  lemma SameChargePlan(db: Tables, now: Tables, b: Body, pm: Option<MethodId>, k: nat)
    requires k < |b.charges| && ChargesAt(db, now, b.charges, k)
    requires !WritePlanned(now, b.customer, pm, PlanCharge(now, b.charges[k], pm.None?)).1.Rejected?
    ensures PlanCharge(now, b.charges[k], pm.None?) == ChargePlan(db, b.charges, k, pm.None?)
  {
    TakenCharge(db, b.charges, k);
    hide TakesCharge, MapChargeStatus, Migrated, ChargeSentBefore, WriteItem, Abs;
  }

  lemma {:induction false} PayrollsAsPlanned(db: Tables, now: Tables, b: Body, pm: Option<MethodId>, k: nat)
    requires k <= |b.payrolls| && PayrollsAt(db, now, b.payrolls, k)
    requires forall j, i :: 0 <= j < i < |b.payrolls| ==> b.payrolls[j].invoice != b.payrolls[i].invoice
    requires !WritePayrolls(now, b.customer, pm, b.payrolls[k..]).1.Rejected?
    ensures WriteAll(now, b.customer, pm, PayrollPlans(db, b.payrolls, k)) == WritePayrolls(now, b.customer, pm, b.payrolls[k..])
    decreases |b.payrolls| - k
  {
    hide WritePlanned, PlanPayroll, PayrollPlan, PayrollsAt;
    if k < |b.payrolls| {
      assert b.payrolls[k..][0] == b.payrolls[k] && b.payrolls[k..][1..] == b.payrolls[k + 1..];
      assert PayrollPlans(db, b.payrolls, k)[1..] == PayrollPlans(db, b.payrolls, k + 1);
      SamePayrollPlan(db, now, b, pm, k);
      PayrollLeavesAsTold(db, now, b, pm, k);
      PayrollsAsPlanned(db, WritePlanned(now, b.customer, pm, PlanPayroll(now, b.payrolls[k])).0, b, pm, k + 1);
    }
  }

  lemma {:induction false} ChargesAsPlanned(db: Tables, now: Tables, b: Body, pm: Option<MethodId>, k: nat)
    requires k <= |b.charges| && ChargesAt(db, now, b.charges, k)
    requires forall j, i :: 0 <= j < i < |b.charges| ==> b.charges[j].invoice != b.charges[i].invoice
    requires !WriteCharges(now, b.customer, pm, b.charges[k..]).1.Rejected?
    ensures WriteAll(now, b.customer, pm, ChargePlans(db, b.charges, k, pm.None?))
            == WriteCharges(now, b.customer, pm, b.charges[k..])
    decreases |b.charges| - k
  {
    hide WritePlanned, PlanCharge, ChargePlan, ChargesAt;
    if k < |b.charges| {
      assert b.charges[k..][0] == b.charges[k] && b.charges[k..][1..] == b.charges[k + 1..];
      assert ChargePlans(db, b.charges, k, pm.None?)[1..] == ChargePlans(db, b.charges, k + 1, pm.None?);
      SameChargePlan(db, now, b, pm, k);
      ChargeLeavesAsTold(db, now, b, pm, k);
      ChargesAsPlanned(db, WritePlanned(now, b.customer, pm, PlanCharge(now, b.charges[k], pm.None?)).0, b, pm, k + 1);
    }
  }

  lemma {:induction false} WriteBoth(db: Tables, c: CustomerId, pm: Option<MethodId>, first: seq<Planned>, rest: seq<Planned>)
    requires !WriteAll(db, c, pm, first).1.Rejected?
    ensures WriteAll(db, c, pm, first + rest) == WriteAll(WriteAll(db, c, pm, first).0, c, pm, rest)
    decreases |first|
  {
    hide WritePlanned;
    if first == [] {
      assert first + rest == rest;
    } else {
      assert (first + rest)[1..] == first[1..] + rest;
      WriteBoth(WritePlanned(db, c, pm, first[0]).0, c, pm, first[1..], rest);
    }
  }

  /** The two steps that write items are the plans, one after the other. */
  lemma StepsAsPlanned(db: Tables, now: Tables, b: Body)
    requires Untouched(db, now) && FreshInvoices(db, b)
    requires var first := WriteStep(now, b, Payrolls); !first.1.Rejected? && !WriteStep(first.0, b, Charges).1.Rejected?
    ensures var run := WriteAll(now, b.customer, DefaultMethod(b.methods), Plans(db, b));
            run.0 == WriteStep(WriteStep(now, b, Payrolls).0, b, Charges).0 && !run.1.Rejected?
  {
    hide WritePlanned, PlanPayroll, PlanCharge, PayrollPlan, ChargePlan, PayrollsAt, ChargesAt, DefaultMethod, Untouched;
    var c, pm := b.customer, DefaultMethod(b.methods);
    NothingSentYet(db, now, b);
    MethodIsFound(b.methods);
    PayrollStepStops(db, now, b);
    assert b.payrolls[0..] == b.payrolls && b.charges[0..] == b.charges;
    PayrollsAsPlanned(db, now, b, pm, 0);
    ChargesAsPlanned(db, WriteStep(now, b, Payrolls).0, b, pm, 0);
    WriteBoth(now, c, pm, PayrollPlans(db, b.payrolls, 0), ChargePlans(db, b.charges, 0, pm.None?));
  }

  lemma PlanOfPayroll(db: Tables, ps: seq<Payroll>, k: nat)
    requires k < |ps|
    ensures var plan := PayrollPlan(db, ps, k);
            plan.Writes? ==> TakesPayroll(db, ps, k) && plan.item.invoice == ps[k].invoice && plan.item.key == MigPayroll(ps[k].id)
  {
    hide TakesPayroll, MapPayrollStatus, Migrated;
  }

  lemma PlanOfCharge(db: Tables, cs: seq<OldCharge>, k: nat, noMethod: bool)
    requires k < |cs|
    ensures var plan := ChargePlan(db, cs, k, noMethod);
            plan.Writes? ==> TakesCharge(db, cs, k) && plan.item.invoice == cs[k].invoice && plan.item.key == MigCharge(cs[k].id)
  {
    hide TakesCharge, MapChargeStatus, Migrated, Abs;
  }

  /** What a plan of the request writes is told by its place. */
  lemma PlanAt(db: Tables, b: Body, k: nat)
    requires k < |Plans(db, b)|
    ensures var plan, n := Plans(db, b)[k], |b.payrolls|;
            plan.Writes? ==>
              if k < n then
                TakesPayroll(db, b.payrolls, k) && plan.item.invoice == b.payrolls[k].invoice
                && plan.item.key == MigPayroll(b.payrolls[k].id)
              else
                TakesCharge(db, b.charges, k - n) && plan.item.invoice == b.charges[k - n].invoice
                && plan.item.key == MigCharge(b.charges[k - n].id)
  {
    hide PayrollPlan, ChargePlan, TakesPayroll, TakesCharge;
    if k < |b.payrolls| { PlanOfPayroll(db, b.payrolls, k); }
    else { PlanOfCharge(db, b.charges, k - |b.payrolls|, b.methods == []); }
  }

  lemma PlansAreApart(db: Tables, b: Body)
    requires FreshInvoices(db, b)
    ensures Apart(Plans(db, b))
  {
    hide PayrollPlan, ChargePlan, KnownPayroll, KnownCharge;
    var plans := Plans(db, b);
    forall j, k | 0 <= j < k < |plans| && plans[j].Writes? && plans[k].Writes?
      ensures plans[j].item.invoice != plans[k].item.invoice && plans[j].item.key != plans[k].item.key
    {
      PlanAt(db, b, j);
      PlanAt(db, b, k);
      hide Plans;
    }
  }
}
