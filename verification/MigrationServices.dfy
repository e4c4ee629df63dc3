/** The migration's writers, its pipeline and its rollback, changing the tables row by row. */
module MigrationServices {
  import opened Options
  import opened Ledger
  import opened BillingState
  import opened Migration

  lemma RejectedSettings(db: Tables, m: MonolithId, b: Body)
    requires WriteSettings(db, m, b).1.Rejected?
    ensures WriteSettings(db, m, b).0 == db
  {
  }

  lemma OnlyOne<T>(s: set<T>, x: T)
    requires x in s && |s| == 1
    ensures s == {x}
  {
    assert |s - {x}| == 0;
  }

  class MigrationTables {
    var customers: map<MonolithId, CustomerRow>
    var methods: map<MethodId, MethodRow>
    var gateways: map<CustomerId, GatewayRow>
    var notes: map<NoteId, NoteRow>
    var balances: map<CustomerId, BalanceRow>
    var surcharges: map<CustomerId, SurchargeRow>
    var invoices: map<InvoiceId, InvoiceRow>
    var charges: map<RowKey, ChargeRow>
    var subscriptions: map<SubscriptionId, SubscriptionRow>
    var referenced: set<InvoiceId>
    var flagged: set<CustomerId>
    var ledger: seq<Entry<Tag>>

    function Value(): Tables
      reads this
    {
      Tables(customers, methods, gateways, notes, balances, surcharges, invoices, charges, subscriptions, referenced,
             flagged, ledger)
    }

    constructor (db: Tables)
      ensures Value() == db
    {
      customers, methods, gateways, notes := db.customers, db.methods, db.gateways, db.notes;
      balances, surcharges, invoices, charges := db.balances, db.surcharges, db.invoices, db.charges;
      subscriptions, referenced, flagged, ledger := db.subscriptions, db.referenced, db.flagged, db.ledger;
    }

    method WritePaymentSettings(m: MonolithId, b: Body) returns (result: StepResult)
      modifies this
      ensures (Value(), result) == WriteSettings(old(Value()), m, b)
    {
      if b.cheque { return Rejected(Unsupported); }
      if !b.reachable { return Rejected(Unreachable); }
      if b.settingsFail { return Rejected(DatabaseFailed); }
      customers := customers[m := CustomerRow(b.customer, b.chargeDay, b.prepaid)];
      for k := 0 to |b.methods|
        invariant methods == WithMethods(old(methods), b.customer, b.methods[..k])
        invariant Value() == old(Value()).(methods := methods, customers := customers)
        invariant customers == old(customers)[m := CustomerRow(b.customer, b.chargeDay, b.prepaid)]
      {
        assert b.methods[..k + 1][..k] == b.methods[..k];
        methods := methods[b.methods[k].0 := MethodRow(b.customer, b.methods[k].1)];
      }
      assert b.methods[..|b.methods|] == b.methods;
      gateways := gateways[b.customer := GatewayRow(b.customer)];
      result := Written;
    }

    method WriteCreditBalance(b: Body) returns (result: StepResult)
      modifies this
      ensures (Value(), result) == WriteBalance(old(Value()), b)
    {
      if b.balance.None? { return NothingToDo; }
      if b.balance.value.None? { return Rejected(InvalidAmount); }
      var rawCents := b.balance.value.value;
      if rawCents >= 0 || HasMigrationNote(Value(), b.customer) { return NothingToDo; }
      if b.noteFails { return Rejected(DatabaseFailed); }
      var amount := -rawCents;
      notes := notes[b.note := NoteRow(b.customer, amount, true)];
      balances := balances[b.customer := BalanceRow(b.customer, OldBalance(Value(), b.customer) + amount)];
      ledger := ledger + [Entry(Credits, AccountsReceivable, amount, Tag(OfNote(b.note), true))];
      result := Written;
    }

    method WriteSurchargeConfig(b: Body) returns (result: StepResult)
      modifies this
      ensures (Value(), result) == WriteSurcharge(old(Value()), b)
    {
      if b.surcharge.None? { return NothingToDo; }
      if b.surcharge.value.None? { return Rejected(InvalidAmount); }
      if b.customer in surcharges { return NothingToDo; }
      if b.surchargeFails { return Rejected(DatabaseFailed); }
      surcharges := surcharges[b.customer := SurchargeRow(b.customer, b.surcharge.value.value)];
      result := Written;
    }

    /** Nothing for drafts and zero amounts, else the finalisation and then the payment or the void. */
    method PostInvoice(i: InvoiceId, status: InvoiceStatus, amount: nat)
      modifies `ledger
      ensures ledger == old(ledger) + Postings(i, status, amount)
    {
      var tag := Tag(OfInvoice(i), true);
      if amount > 0 && status != Draft {
        ledger := ledger + [Entry(AccountsReceivable, Revenue, amount, tag)];
        if status == InvoiceStatus.Paid {
          ledger := ledger + [Entry(Cash, AccountsReceivable, amount, tag)];
        } else if status == InvoiceStatus.Void {
          ledger := ledger + [Entry(Revenue, AccountsReceivable, amount, tag)];
        }
      }
    }

    /** One transaction: invoice, charge and journal rows. */
    method WriteInvoice(c: CustomerId, pm: Option<MethodId>, x: Item) returns (result: StepResult)
      modifies this
      ensures (Value(), result) == WriteItem(old(Value()), c, pm, x)
    {
      if x.mapped.charge.Some? && pm.None? { return Rejected(NoPaymentMethod); }
      var adjustment: Option<int> := None;
      if x.adjustment.Some? {
        if x.adjustment.value.None? { return Rejected(DatabaseFailed); }
        adjustment := Some(x.adjustment.value.value);
      }
      if x.dbFails || (x.mapped.charge.Some? && x.key in charges) { return Rejected(DatabaseFailed); }
      invoices := invoices[x.invoice :=
        InvoiceRow(c, None, x.kind, x.mapped.invoice, x.total, x.lines, adjustment, x.origin)];
      if x.mapped.charge.Some? {
        charges := charges[x.key := ChargeRow(c, x.invoice, pm.value, Abs(x.total), x.mapped.charge.value)];
      }
      PostInvoice(x.invoice, x.mapped.invoice, Abs(x.total));
      result := Written;
    }

    method WritePlan(c: CustomerId, pm: Option<MethodId>, plan: Planned) returns (result: StepResult)
      modifies this
      ensures (Value(), result) == WritePlanned(old(Value()), c, pm, plan)
    {
      match plan
      case Fails(reason) => result := Rejected(reason);
      case Skips => result := NothingToDo;
      case Writes(x) => result := WriteInvoice(c, pm, x);
    }

    /** Item after item until one fails; every item so far was written or skipped. */
    method WriteAllPayrolls(c: CustomerId, pm: Option<MethodId>, ps: seq<Payroll>)
      returns (result: StepResult, succeeded: nat, skipped: nat)
      modifies this
      ensures (Value(), result) == WritePayrolls(old(Value()), c, pm, ps)
      ensures succeeded + skipped <= |ps| && (result == Written <==> succeeded + skipped == |ps|)
    {
      hide WritePlanned, PlanPayroll;
      succeeded, skipped := 0, 0;
      for k := 0 to |ps|
        invariant succeeded + skipped == k
        invariant WritePayrolls(Value(), c, pm, ps[k..]) == WritePayrolls(old(Value()), c, pm, ps)
      {
        assert ps[k..][1..] == ps[k + 1..];
        result := WritePlan(c, pm, PlanPayroll(Value(), ps[k]));
        if result.Rejected? { return; }
        if result.Written? { succeeded := succeeded + 1; } else { skipped := skipped + 1; }
      }
      result := Written;
    }

    method WriteAllCharges(c: CustomerId, pm: Option<MethodId>, cs: seq<OldCharge>)
      returns (result: StepResult, succeeded: nat, skipped: nat)
      modifies this
      ensures (Value(), result) == WriteCharges(old(Value()), c, pm, cs)
      ensures succeeded + skipped <= |cs| && (result == Written <==> succeeded + skipped == |cs|)
    {
      hide WritePlanned, PlanCharge;
      succeeded, skipped := 0, 0;
      for k := 0 to |cs|
        invariant succeeded + skipped == k
        invariant WriteCharges(Value(), c, pm, cs[k..]) == WriteCharges(old(Value()), c, pm, cs)
      {
        assert cs[k..][1..] == cs[k + 1..];
        result := WritePlan(c, pm, PlanCharge(Value(), cs[k], pm.None?));
        if result.Rejected? { return; }
        if result.Written? { succeeded := succeeded + 1; } else { skipped := skipped + 1; }
      }
      result := Written;
    }

    /** Point each open unlinked recurring draft of the customer at the subscription, and count them. */
    method LinkOpenRecurringDrafts(c: CustomerId, s: SubscriptionId) returns (linked: nat)
      modifies `invoices
      ensures invoices.Keys == old(invoices).Keys
      ensures forall i :: i in old(invoices) ==>
                invoices[i] == if OpenUnlinked(old(invoices)[i], c) then old(invoices)[i].(subscription := Some(s))
                               else old(invoices)[i]
      ensures linked == |set i | i in old(invoices) && OpenUnlinked(old(invoices)[i], c)|
    {
      var left := set i | i in invoices && OpenUnlinked(invoices[i], c);
      linked := 0;
      assert left == set i | i in old(invoices) && OpenUnlinked(old(invoices)[i], c);
      while left != {}
        invariant left <= invoices.Keys && invoices.Keys == old(invoices).Keys
        invariant forall i :: i in left ==> OpenUnlinked(old(invoices)[i], c)
        invariant forall i :: i in old(invoices) ==>
                    invoices[i] == if OpenUnlinked(old(invoices)[i], c) && i !in left
                                   then old(invoices)[i].(subscription := Some(s)) else old(invoices)[i]
        invariant linked + |left| == |set i | i in old(invoices) && OpenUnlinked(old(invoices)[i], c)|
        decreases |left|
      {
        var i :| i in left;
        invoices := invoices[i := invoices[i].(subscription := Some(s))];
        left := left - {i};
        linked := linked + 1;
      }
    }

    method WriteSubscriptionRow(b: Body) returns (result: StepResult)
      modifies this
      ensures (Value(), result) == WriteSubscription(old(Value()), b)
    {
      if b.runRate.None? { return Rejected(NoRunRate); }
      if b.runRate.value.None? { return Rejected(InvalidAmount); }
      if b.chargeDay < 1 || b.chargeDay > 31 { return Rejected(InvalidChargeDay); }
      var active := set s | s in subscriptions && subscriptions[s].customer == b.customer && subscriptions[s].active;
      assert active == ActiveOf(Value(), b.customer);
      if |active| > 1 { return Rejected(Conflict); }
      if |active| == 1 {
        var s :| s in active;
        OnlyOne(active, s);
        if b.monolithSubscription.None? || subscriptions[s].monolith.None? { return Rejected(Conflict); }
        if subscriptions[s].monolith == b.monolithSubscription { return NothingToDo; }
        return Rejected(Conflict);
      }
      if !b.timingParses { return Rejected(InvalidTiming); }
      if b.subscriptionFails { return Rejected(DatabaseFailed); }
      subscriptions := subscriptions[b.subscription :=
        SubscriptionRow(b.customer, true, b.monolithSubscription, b.runRate.value.value)];
      var linked := LinkOpenRecurringDrafts(b.customer, b.subscription);
      assert invoices == Linked(old(invoices), b.customer, b.subscription);
      result := Written;
    }

    method RunStep(b: Body, step: StepName) returns (result: StepResult)
      modifies this
      ensures (Value(), result) == WriteStep(old(Value()), b, step)
    {
      hide WriteBalance, WriteSurcharge, WritePayrolls, WriteCharges, WriteSubscription;
      var succeeded, skipped;
      match step {
        case CreditBalance => result := WriteCreditBalance(b);
        case SurchargeConfig => result := WriteSurchargeConfig(b);
        case Payrolls =>
          if b.payrolls == [] { return NothingToDo; }
          result, succeeded, skipped := WriteAllPayrolls(b.customer, DefaultMethod(b.methods), b.payrolls);
        case Charges =>
          if b.charges == [] { return NothingToDo; }
          result, succeeded, skipped := WriteAllCharges(b.customer, DefaultMethod(b.methods), b.charges);
        case SubscriptionStep => result := WriteSubscriptionRow(b);
      }
    }

    /** The six steps, stopping at the first failure. */
    method MigrateCustomer(m: MonolithId, b: Body) returns (report: Report, results: seq<StepResult>)
      modifies this
      ensures (Value(), report) == Migrate(old(Value()), m, b)
      ensures report.Stopped? ==> results != [] && results[|results| - 1] == Rejected(report.reason)
      ensures report.Done? ==> |results| == 6 && forall r :: r in results ==> !r.Rejected?
    {
      hide WriteSettings, WriteStep;
      if m in customers { return AlreadyMigrated, []; }
      var settings := WritePaymentSettings(m, b);
      results := [settings];
      if settings.Rejected? {
        RejectedSettings(old(Value()), m, b);
        return StoppedAtSettings(settings.reason), results;
      }
      ghost var start := Value();
      for k := 0 to |STEPS|
        invariant RunSteps(Value(), b, STEPS[k..]) == RunSteps(start, b, STEPS)
        invariant |results| == k + 1 && forall r :: r in results ==> !r.Rejected?
      {
        assert STEPS[k..][1..] == STEPS[k + 1..];
        var result := RunStep(b, STEPS[k]);
        results := results + [result];
        if result.Rejected? { return Stopped(STEPS[k], result.reason), results; }
      }
      report := Done;
    }

    /** Append a mirrored row for each row to reverse. */
    method AppendReversals(rows: seq<Entry<Tag>>) returns (reversals: nat)
      modifies `ledger
      ensures ledger == old(ledger) + Mirrors(rows) && reversals == |rows|
    {
      reversals := 0;
      for k := 0 to |rows|
        invariant reversals == k && ledger == old(ledger) + Mirrors(rows[..k])
      {
        assert rows[..k + 1][..k] == rows[..k];
        ledger := ledger + [Mirror(rows[k])];
        reversals := reversals + 1;
      }
      assert rows[..|rows|] == rows;
    }

    method DeleteInvoicing(c: CustomerId)
      modifies `subscriptions, `notes, `balances, `charges, `invoices
      ensures subscriptions == Without(old(subscriptions), SubscriptionOwner, c) && notes == Without(old(notes), NoteOwner, c)
      ensures balances == Without(old(balances), BalanceOwner, c) && charges == Without(old(charges), ChargeOwner, c)
      ensures invoices == Without(old(invoices), InvoiceOwner, c)
    {
      hide Without;
      subscriptions := Without(subscriptions, SubscriptionOwner, c);
      notes := Without(notes, NoteOwner, c);
      balances := Without(balances, BalanceOwner, c);
      charges := Without(charges, ChargeOwner, c);
      invoices := Without(invoices, InvoiceOwner, c);
    }

    /** Delete the customer's rows, those that point at others first. */
    method DeleteRows(c: CustomerId)
      modifies this
      ensures Value() == Rest(old(Value()), c).(ledger := old(ledger))
    {
      hide Without;
      DeleteInvoicing(c);
      surcharges := Without(surcharges, SurchargeOwner, c);
      methods := Without(methods, MethodOwner, c);
      gateways := Without(gateways, GatewayOwner, c);
      customers := Without(customers, CustomerOwner, c);
    }

    /** Reverse what the migration posted and delete its rows; a violated foreign key aborts the transaction. */
    method RollBack(m: MonolithId) returns (report: RollbackReport)
      modifies this
      ensures (Value(), report) == Rollback(old(Value()), m)
    {
      hide ToReverse, Blocked, Without;
      if m !in customers { return NotMigrated; }
      var c := customers[m].id;
      var rows := ToReverse(Value(), c, ledger);
      if Blocked(Value(), c) { return RollbackFailed; }
      var reversals := AppendReversals(rows);
      DeleteRows(c);
      report := RolledBack(reversals);
    }
  }
}
