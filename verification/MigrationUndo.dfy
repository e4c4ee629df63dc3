/** Rolling back right after a migration, wherever it stopped, restores tables and account balances. */
module MigrationUndo {
  import opened Options
  import opened Ledger
  import opened BillingState
  import opened Migration
  import opened MigrationPreview

  // ---------------------------------------------------------------- what a migration writes

  function InvoiceIds(b: Body): set<InvoiceId> {
    (set p | p in b.payrolls :: p.invoice) + (set x | x in b.charges :: x.invoice)
  }

  /** The generated ids are in no row of another customer. */
  ghost predicate Free(rest: Tables, b: Body) {
    && (forall k :: 0 <= k < |b.methods| ==> b.methods[k].0 !in rest.methods)
    && b.note !in rest.notes && b.subscription !in rest.subscriptions
    && InvoiceIds(b) !! rest.invoices.Keys
    && b.customer !in rest.gateways && b.customer !in rest.balances && b.customer !in rest.surcharges
  }

  /** The customer's invoices, notes and subscriptions carry ids of the request. */
  ghost predicate OwnIds(db: Tables, b: Body) {
    && (forall s :: s in db.subscriptions && db.subscriptions[s].customer == b.customer ==> s == b.subscription)
    && (forall i :: i in db.invoices && db.invoices[i].customer == b.customer ==> i in InvoiceIds(b))
    && (forall n :: n in db.notes && db.notes[n].customer == b.customer ==> n == b.note)
  }

  /** What every step of a migration keeps: the other customers' rows, the journal so far, and the
      customer's own invoices and notes; what it posts is about those. */
  ghost predicate Grows(db: Tables, after: Tables, b: Body) {
    && Rest(after, b.customer) == Rest(db, b.customer)
    && (forall m :: m in db.customers ==> m in after.customers && after.customers[m] == db.customers[m])
    && db.ledger <= after.ledger
    && (forall k :: |db.ledger| <= k < |after.ledger| ==> Reversible(after, b.customer, after.ledger[k]))
    && (forall i :: i in db.invoices && db.invoices[i].customer == b.customer ==>
          i in after.invoices && after.invoices[i].customer == b.customer)
    && (forall n :: n in db.notes && db.notes[n].customer == b.customer ==>
          n in after.notes && after.notes[n].customer == b.customer)
    && (OwnIds(db, b) ==> OwnIds(after, b))
  }

  lemma GrowsSame(db: Tables, b: Body)
    ensures Grows(db, db, b)
  {
    hide Rest, OwnIds;
  }

  lemma GrowsKeeps(db: Tables, after: Tables, b: Body)
    requires Grows(db, after, b)
    ensures Rest(after, b.customer) == Rest(db, b.customer)
    ensures db.ledger <= after.ledger && after.ledger == db.ledger + after.ledger[|db.ledger|..]
    ensures after.flagged == db.flagged && after.referenced == db.referenced
    ensures OwnIds(db, b) ==> OwnIds(after, b)
    ensures forall m :: m in db.customers ==> m in after.customers && after.customers[m] == db.customers[m]
  {
    hide OwnIds, Without;
  }

  lemma GrowsTwice(x: Tables, y: Tables, z: Tables, b: Body)
    requires Grows(x, y, b) && Grows(y, z, b)
    ensures Grows(x, z, b)
  {
    hide Rest, OwnIds;
    forall k | |x.ledger| <= k < |z.ledger| ensures Reversible(z, b.customer, z.ledger[k]) {
      if k < |y.ledger| { assert Reversible(y, b.customer, y.ledger[k]); }
    }
  }

  lemma WithoutPut<K, V>(table: map<K, V>, owner: V -> CustomerId, c: CustomerId, k: K, v: V)
    requires owner(v) == c && k !in Without(table, owner, c)
    ensures Without(table[k := v], owner, c) == Without(table, owner, c)
  {
  }

  lemma AbsentFromRest<K, V>(table: map<K, V>, owner: V -> CustomerId, c: CustomerId, k: K)
    requires k !in table
    ensures k !in Without(table, owner, c)
  {
  }

  lemma {:induction false} WithoutMethods(methods: map<MethodId, MethodRow>, c: CustomerId, pms: seq<(MethodId, bool)>)
    requires forall j :: 0 <= j < |pms| ==> pms[j].0 !in Without(methods, MethodOwner, c)
    ensures Without(WithMethods(methods, c, pms), MethodOwner, c) == Without(methods, MethodOwner, c)
  {
    hide Without;
    if pms != [] {
      var n := |pms| - 1;
      WithoutMethods(methods, c, pms[..n]);
      WithoutPut(WithMethods(methods, c, pms[..n]), MethodOwner, c, pms[n].0, MethodRow(c, pms[n].1));
    }
  }

  lemma SettingsGrow(db: Tables, m: MonolithId, b: Body)
    requires m !in db.customers && Free(Rest(db, b.customer), b)
    ensures Grows(db, WriteSettings(db, m, b).0, b)
  {
    hide InvoiceIds, Without, WithMethods;
    var c := b.customer;
    AbsentFromRest(db.customers, CustomerOwner, c, m);
    WithoutPut(db.customers, CustomerOwner, c, m, CustomerRow(c, b.chargeDay, b.prepaid));
    WithoutMethods(db.methods, c, b.methods);
    WithoutPut(db.gateways, GatewayOwner, c, c, GatewayRow(c));
  }

  lemma BalanceGrows(db: Tables, b: Body)
    requires Free(Rest(db, b.customer), b)
    ensures Grows(db, WriteBalance(db, b).0, b)
  {
    hide InvoiceIds, Without, HasMigrationNote;
    if BalanceResult(db, b).Written? {
      var c, credit := b.customer, -b.balance.value.value;
      WithoutPut(db.notes, NoteOwner, c, b.note, NoteRow(c, credit, true));
      WithoutPut(db.balances, BalanceOwner, c, c, BalanceRow(c, OldBalance(db, c) + credit));
    }
  }

  lemma SurchargeGrows(db: Tables, b: Body)
    requires Free(Rest(db, b.customer), b)
    ensures Grows(db, WriteSurcharge(db, b).0, b)
  {
    hide InvoiceIds, Without;
    if SurchargeResult(db, b).Written? {
      WithoutPut(db.surcharges, SurchargeOwner, b.customer, b.customer, SurchargeRow(b.customer, b.surcharge.value.value));
    }
  }

  lemma PostingsNameTheInvoice(i: InvoiceId, status: InvoiceStatus, amount: nat)
    ensures forall k :: 0 <= k < |Postings(i, status, amount)| ==> Postings(i, status, amount)[k].ref == Tag(OfInvoice(i), true)
  {
  }

  lemma ItemEffects(db: Tables, c: CustomerId, pm: Option<MethodId>, x: Item)
    ensures var run := WriteItem(db, c, pm, x);
            if !run.1.Written? then run.0 == db
            else && run.0.ledger == db.ledger + Postings(x.invoice, x.mapped.invoice, Abs(x.total))
                 && run.0.invoices == db.invoices[x.invoice := RowOf(c, x)]
                 && run.0.notes == db.notes && run.0.subscriptions == db.subscriptions && run.0.customers == db.customers
  {
    hide Postings;
  }

  lemma ItemKeepsOwnIds(db: Tables, b: Body, pm: Option<MethodId>, x: Item)
    requires OwnIds(db, b) && x.invoice in InvoiceIds(b)
    ensures OwnIds(WriteItem(db, b.customer, pm, x).0, b)
  {
    hide InvoiceIds, Postings;
  }

  lemma ItemGrows(db: Tables, b: Body, pm: Option<MethodId>, x: Item)
    requires Free(Rest(db, b.customer), b) && x.invoice in InvoiceIds(b)
    ensures Grows(db, WriteItem(db, b.customer, pm, x).0, b)
  {
    hide InvoiceIds, Without, Postings, Rest, Free, OwnIds, WriteItem, Abs;
    var c, run := b.customer, WriteItem(db, b.customer, pm, x);
    var after := run.0;
    ItemLeavesRest(db, b, pm, x);
    ItemEffects(db, c, pm, x);
    var posted := Postings(x.invoice, x.mapped.invoice, Abs(x.total));
    if !run.1.Written? { return; }
    forall k | |db.ledger| <= k < |after.ledger| ensures Reversible(after, c, after.ledger[k]) {
      PostingsNameTheInvoice(x.invoice, x.mapped.invoice, Abs(x.total));
      assert after.ledger[k] == posted[k - |db.ledger|];
    }
    if OwnIds(db, b) { ItemKeepsOwnIds(db, b, pm, x); }
  }

  lemma ItemLeavesRest(db: Tables, b: Body, pm: Option<MethodId>, x: Item)
    requires Free(Rest(db, b.customer), b) && x.invoice in InvoiceIds(b)
    ensures Rest(WriteItem(db, b.customer, pm, x).0, b.customer) == Rest(db, b.customer)
  {
    hide InvoiceIds, Without, Postings;
    var c := b.customer;
    if WriteItem(db, c, pm, x).1.Written? {
      WithoutPut(db.invoices, InvoiceOwner, c, x.invoice, RowOf(c, x));
      if x.mapped.charge.Some? {
        AbsentFromRest(db.charges, ChargeOwner, c, x.key);
        WithoutPut(db.charges, ChargeOwner, c, x.key, ChargeRow(c, x.invoice, pm.value, Abs(x.total), x.mapped.charge.value));
      }
    }
  }

  lemma {:induction false} PayrollsGrow(db: Tables, b: Body, pm: Option<MethodId>, ps: seq<Payroll>)
    requires Free(Rest(db, b.customer), b) && forall p :: p in ps ==> p in b.payrolls
    ensures Grows(db, WritePayrolls(db, b.customer, pm, ps).0, b)
    decreases |ps|
  {
    hide Free, Rest, Grows, WriteItem;
    GrowsSame(db, b);
    if ps != [] {
      var first := WritePlanned(db, b.customer, pm, PlanPayroll(db, ps[0]));
      assert ps[0].invoice in InvoiceIds(b);
      if PlanPayroll(db, ps[0]).Writes? { ItemGrows(db, b, pm, PlanPayroll(db, ps[0]).item); }
      if !first.1.Rejected? {
        GrowsKeeps(db, first.0, b);
        PayrollsGrow(first.0, b, pm, ps[1..]);
        GrowsTwice(db, first.0, WritePayrolls(first.0, b.customer, pm, ps[1..]).0, b);
      }
    }
  }

  lemma {:induction false} ChargesGrow(db: Tables, b: Body, pm: Option<MethodId>, cs: seq<OldCharge>)
    requires Free(Rest(db, b.customer), b) && forall x :: x in cs ==> x in b.charges
    ensures Grows(db, WriteCharges(db, b.customer, pm, cs).0, b)
    decreases |cs|
  {
    hide Free, Rest, Grows, WriteItem;
    GrowsSame(db, b);
    if cs != [] {
      var plan := PlanCharge(db, cs[0], pm.None?);
      var first := WritePlanned(db, b.customer, pm, plan);
      assert cs[0].invoice in InvoiceIds(b);
      if plan.Writes? { ItemGrows(db, b, pm, plan.item); }
      if !first.1.Rejected? {
        GrowsKeeps(db, first.0, b);
        ChargesGrow(first.0, b, pm, cs[1..]);
        GrowsTwice(db, first.0, WriteCharges(first.0, b.customer, pm, cs[1..]).0, b);
      }
    }
  }

  lemma WithoutLinked(invoices: map<InvoiceId, InvoiceRow>, c: CustomerId, s: SubscriptionId)
    ensures Without(Linked(invoices, c, s), InvoiceOwner, c) == Without(invoices, InvoiceOwner, c)
  {
  }

  lemma SubscriptionGrows(db: Tables, b: Body)
    requires Free(Rest(db, b.customer), b)
    ensures Grows(db, WriteSubscription(db, b).0, b)
  {
    hide InvoiceIds, ActiveOf, SameSubscription, Without;
    var c := b.customer;
    if WriteSubscription(db, b).1.Written? {
      WithoutPut(db.subscriptions, SubscriptionOwner, c, b.subscription, SubscriptionRow(c, true, b.monolithSubscription, b.runRate.value.value));
      WithoutLinked(db.invoices, c, b.subscription);
    }
  }

  lemma StepGrows(db: Tables, b: Body, step: StepName)
    requires Free(Rest(db, b.customer), b)
    ensures Grows(db, WriteStep(db, b, step).0, b)
  {
    hide Free, Rest, Grows, WriteBalance, WriteSurcharge, WriteSubscription;
    GrowsSame(db, b);
    match step
    case CreditBalance => BalanceGrows(db, b);
    case SurchargeConfig => SurchargeGrows(db, b);
    case Payrolls => PayrollsGrow(db, b, DefaultMethod(b.methods), b.payrolls);
    case Charges => ChargesGrow(db, b, DefaultMethod(b.methods), b.charges);
    case SubscriptionStep => SubscriptionGrows(db, b);
  }

  lemma {:induction false} StepsGrow(db: Tables, b: Body, steps: seq<StepName>)
    requires Free(Rest(db, b.customer), b)
    ensures Grows(db, RunSteps(db, b, steps).0, b)
    decreases |steps|
  {
    hide Free, Rest, Grows, WriteStep;
    GrowsSame(db, b);
    if steps != [] {
      var first := WriteStep(db, b, steps[0]);
      StepGrows(db, b, steps[0]);
      if !first.1.Rejected? {
        GrowsKeeps(db, first.0, b);
        StepsGrow(first.0, b, steps[1..]);
        GrowsTwice(db, first.0, RunSteps(first.0, b, steps[1..]).0, b);
      }
    }
  }

  lemma MigrationGrows(db: Tables, m: MonolithId, b: Body)
    requires m !in db.customers && Free(Rest(db, b.customer), b)
    ensures Grows(db, Migrate(db, m, b).0, b)
  {
    hide Free, Rest, Grows, RunSteps, WriteSettings;
    GrowsSame(db, b);
    SettingsGrow(db, m, b);
    var settings := WriteSettings(db, m, b);
    if !settings.1.Rejected? {
      GrowsKeeps(db, settings.0, b);
      StepsGrow(settings.0, b, STEPS);
      GrowsTwice(db, settings.0, RunSteps(settings.0, b, STEPS).0, b);
    }
  }

  // ---------------------------------------------------------------- which drafts end up linked

  /** Nothing points at the new subscription, which is not there yet. */
  ghost predicate Unlinked(db: Tables, b: Body) {
    && (forall i :: i in db.invoices ==> db.invoices[i].subscription != Some(b.subscription))
    && (forall i :: i in db.invoices && db.invoices[i].customer == b.customer ==> db.invoices[i].subscription.None?)
    && (forall s :: s in db.subscriptions ==> db.subscriptions[s].customer != b.customer)
  }

  predicate IsRecurringDraft(inv: InvoiceRow, c: CustomerId) {
    inv.customer == c && inv.kind == Recurring && inv.status == Draft
  }

  /** Exactly the customer's recurring drafts point at the new subscription. */
  ghost predicate DraftsLinked(db: Tables, b: Body) {
    && b.subscription in db.subscriptions && db.subscriptions[b.subscription].customer == b.customer
    && forall i :: i in db.invoices ==>
         (db.invoices[i].subscription == Some(b.subscription) <==> IsRecurringDraft(db.invoices[i], b.customer))
  }

  lemma PlannedStaysUnlinked(db: Tables, b: Body, pm: Option<MethodId>, plan: Planned)
    requires Unlinked(db, b)
    ensures Unlinked(WritePlanned(db, b.customer, pm, plan).0, b)
  {
    hide Postings;
  }

  lemma {:induction false} PayrollsStayUnlinked(db: Tables, b: Body, pm: Option<MethodId>, ps: seq<Payroll>)
    requires Unlinked(db, b)
    ensures Unlinked(WritePayrolls(db, b.customer, pm, ps).0, b)
    decreases |ps|
  {
    hide Unlinked, WritePlanned, PlanPayroll;
    if ps != [] {
      var first := WritePlanned(db, b.customer, pm, PlanPayroll(db, ps[0]));
      PlannedStaysUnlinked(db, b, pm, PlanPayroll(db, ps[0]));
      if !first.1.Rejected? { PayrollsStayUnlinked(first.0, b, pm, ps[1..]); }
    }
  }

  lemma {:induction false} ChargesStayUnlinked(db: Tables, b: Body, pm: Option<MethodId>, cs: seq<OldCharge>)
    requires Unlinked(db, b)
    ensures Unlinked(WriteCharges(db, b.customer, pm, cs).0, b)
    decreases |cs|
  {
    hide Unlinked, WritePlanned, PlanCharge;
    if cs != [] {
      var first := WritePlanned(db, b.customer, pm, PlanCharge(db, cs[0], pm.None?));
      PlannedStaysUnlinked(db, b, pm, PlanCharge(db, cs[0], pm.None?));
      if !first.1.Rejected? { ChargesStayUnlinked(first.0, b, pm, cs[1..]); }
    }
  }

  lemma EarlyStepsStayUnlinked(db: Tables, b: Body)
    requires Unlinked(db, b)
    ensures Unlinked(WriteBalance(db, b).0, b) && Unlinked(WriteSurcharge(db, b).0, b)
  {
  }

  lemma SubscriptionLinks(db: Tables, b: Body)
    requires Unlinked(db, b)
    ensures var after := WriteSubscription(db, b);
            if after.1.Rejected? then Unlinked(after.0, b) else DraftsLinked(after.0, b)
  {
    assert ActiveOf(db, b.customer) == {};
  }

  lemma {:induction false} StepsLink(db: Tables, b: Body, steps: seq<StepName>)
    requires Unlinked(db, b)
    requires steps != [] && steps[|steps| - 1] == SubscriptionStep && SubscriptionStep !in steps[..|steps| - 1]
    ensures var after := RunSteps(db, b, steps);
            if after.1.Done? then DraftsLinked(after.0, b) else Unlinked(after.0, b)
    decreases |steps|
  {
    hide Unlinked, DraftsLinked, WriteBalance, WriteSurcharge, WriteSubscription, WritePayrolls, WriteCharges;
    match steps[0] {
      case CreditBalance => EarlyStepsStayUnlinked(db, b);
      case SurchargeConfig => EarlyStepsStayUnlinked(db, b);
      case Payrolls => PayrollsStayUnlinked(db, b, DefaultMethod(b.methods), b.payrolls);
      case Charges => ChargesStayUnlinked(db, b, DefaultMethod(b.methods), b.charges);
      case SubscriptionStep => SubscriptionLinks(db, b);
    }
    var first := WriteStep(db, b, steps[0]);
    if |steps| == 1 {
      assert steps[1..] == [];
    } else {
      assert steps[0] in steps[..|steps| - 1];
      if !first.1.Rejected? { StepsLink(first.0, b, steps[1..]); }
    }
  }

  // ---------------------------------------------------------------- undo

  /** A first migration: the customer and every generated id are new, to the rows as to the journal. */
  ghost predicate IsNew(db: Tables, m: MonolithId, b: Body) {
    && m !in db.customers
    && Rest(db, b.customer) == db.(ledger := [])
    && Free(db, b)
    && b.customer !in db.flagged && InvoiceIds(b) !! db.referenced
    && (forall i :: i in db.invoices ==> db.invoices[i].subscription != Some(b.subscription))
    && (forall e :: e in db.ledger && e.ref.migration ==>
          (e.ref.subject.OfInvoice? ==> e.ref.subject.i !in InvoiceIds(b))
          && (e.ref.subject.OfNote? ==> e.ref.subject.n != b.note))
  }

  lemma {:induction false} NothingToReverse(db: Tables, c: CustomerId, ledger: seq<Entry<Tag>>)
    requires forall e :: e in ledger ==> !Reversible(db, c, e)
    ensures ToReverse(db, c, ledger) == []
  {
    hide Reversible;
    if ledger != [] { NothingToReverse(db, c, ledger[..|ledger| - 1]); }
  }

  lemma {:induction false} ReverseTheSuffix(db: Tables, c: CustomerId, before: seq<Entry<Tag>>, posted: seq<Entry<Tag>>)
    requires forall e :: e in before ==> !Reversible(db, c, e)
    requires forall e :: e in posted ==> Reversible(db, c, e)
    ensures ToReverse(db, c, before + posted) == posted
  {
    hide Reversible;
    if posted == [] {
      assert before + posted == before;
      NothingToReverse(db, c, before);
    } else {
      var n := |posted| - 1;
      assert (before + posted)[..|before| + n] == before + posted[..n];
      ReverseTheSuffix(db, c, before, posted[..n]);
    }
  }

  /** What a migration posted is exactly what the rollback reverses. */
  lemma RollbackFindsTheSuffix(db: Tables, m: MonolithId, b: Body, after: Tables)
    requires IsNew(db, m, b) && Grows(db, after, b) && OwnIds(after, b)
    ensures ToReverse(after, b.customer, after.ledger) == after.ledger[|db.ledger|..]
  {
    hide Rest, Free, InvoiceIds, ToReverse;
    forall e | e in db.ledger ensures !Reversible(after, b.customer, e) {
    }
    assert after.ledger == db.ledger + after.ledger[|db.ledger|..];
    ReverseTheSuffix(after, b.customer, db.ledger, after.ledger[|db.ledger|..]);
  }

  lemma UndoNets(l: seq<Entry<Tag>>, posted: seq<Entry<Tag>>, a: Account)
    ensures Net(l + posted + Mirrors(posted), a) == Net(l, a)
  {
    NetConcat(l + posted, Mirrors(posted), a);
    NetConcat(l, posted, a);
    MirrorsCancel(posted, a);
  }

  /** Rolling back right after a first migration, whatever was sent and wherever it stopped: the tables and
      the balance of every account are back to what they were, unless the run finished and wrote a recurring
      draft. The draft then points at the subscription, and the rollback aborts and changes nothing. */
  lemma RollbackUndoesMigration(db: Tables, m: MonolithId, b: Body)
    requires IsNew(db, m, b)
    ensures var run := Migrate(db, m, b);
            var after, back := run.0, Rollback(run.0, m);
            if run.1.Done? && exists i :: i in after.invoices && IsRecurringDraft(after.invoices[i], b.customer)
            then back == (after, RollbackFailed)
            else && back.0 == db.(ledger := back.0.ledger)
                 && db.ledger <= after.ledger <= back.0.ledger
                 && back.1 == (if run.1.StoppedAtSettings? then NotMigrated else RolledBack(|after.ledger| - |db.ledger|))
                 && forall a :: Net(back.0.ledger, a) == Net(db.ledger, a)
  {
    hide RunSteps, WriteSettings, ToReverse, Rest, InvoiceIds, Grows, OwnIds, Reversible;
    var run, c := Migrate(db, m, b), b.customer;
    var after := run.0;
    MigrationGrows(db, m, b);
    if !run.1.StoppedAtSettings? {
      AfterMigration(db, m, b);
      RollbackFindsTheSuffix(db, m, b, after);
      GrowsKeeps(db, after, b);
      var posted := after.ledger[|db.ledger|..];
      forall a ensures Net(after.ledger + Mirrors(posted), a) == Net(db.ledger, a) {
        UndoNets(db.ledger, posted, a);
      }
    }
  }

  lemma SettingsStayUnlinked(db: Tables, m: MonolithId, b: Body)
    requires Unlinked(db, b)
    ensures Unlinked(WriteSettings(db, m, b).0, b)
  {
    hide WithMethods;
  }

  lemma BlockedByDrafts(db: Tables, b: Body, done: bool)
    requires OwnIds(db, b) && b.customer !in db.flagged && InvoiceIds(b) !! db.referenced
    requires if done then DraftsLinked(db, b) else Unlinked(db, b)
    ensures Blocked(db, b.customer)
            <==> done && exists i :: i in db.invoices && IsRecurringDraft(db.invoices[i], b.customer)
  {
    hide InvoiceIds;
  }

  lemma NewHasNoRows(db: Tables, m: MonolithId, b: Body)
    requires IsNew(db, m, b)
    ensures m !in db.customers && OwnIds(db, b) && Unlinked(db, b) && Free(Rest(db, b.customer), b)
    ensures b.customer !in db.flagged && InvoiceIds(b) !! db.referenced
  {
    hide InvoiceIds;
  }

  /** The state a migration leaves when it got past the first step: whose rows there are, and when a foreign
      key blocks the rollback. */
  lemma AfterMigration(db: Tables, m: MonolithId, b: Body)
    requires IsNew(db, m, b) && !Migrate(db, m, b).1.StoppedAtSettings?
    ensures var run := Migrate(db, m, b);
            && m in run.0.customers && run.0.customers[m].id == b.customer
            && OwnIds(run.0, b)
            && (Blocked(run.0, b.customer)
                <==> run.1.Done? && exists i :: i in run.0.invoices && IsRecurringDraft(run.0.invoices[i], b.customer))
  {
    hide Rest, RunSteps, InvoiceIds, Reversible, Free, Blocked, IsRecurringDraft, DraftsLinked, Grows, OwnIds, Unlinked;
    var settings, run, c := WriteSettings(db, m, b), Migrate(db, m, b), b.customer;
    NewHasNoRows(db, m, b);
    hide IsNew, Without, Migrated;
    MigrationGrows(db, m, b);
    SettingsGrow(db, m, b);
    GrowsKeeps(db, run.0, b);
    GrowsKeeps(db, settings.0, b);
    StepsGrow(settings.0, b, STEPS);
    GrowsKeeps(settings.0, run.0, b);
    SettingsStayUnlinked(db, m, b);
    StepsLink(settings.0, b, STEPS);
    BlockedByDrafts(run.0, b, run.1.Done?);
  }

  /** A rollback that has nothing left to undo, or that is blocked, changes nothing. */
  lemma SecondRollbackChangesNothing(db: Tables, m: MonolithId)
    ensures Rollback(Rollback(db, m).0, m).0 == Rollback(db, m).0
  {
    if m in db.customers && !Blocked(db, db.customers[m].id) {
      assert m !in Rest(db, db.customers[m].id).customers;
    }
  }

  lemma WithoutTwice<K, V>(table: map<K, V>, owner: V -> CustomerId, c: CustomerId)
    ensures Without(Without(table, owner, c), owner, c) == Without(table, owner, c)
  {
  }

  lemma RestTwice(db: Tables, c: CustomerId, ledger: seq<Entry<Tag>>)
    ensures Rest(Rest(db, c).(ledger := ledger), c) == Rest(db, c)
  {
    hide Without;
    WithoutTwice(db.customers, CustomerOwner, c);
    WithoutTwice(db.methods, MethodOwner, c);
    WithoutTwice(db.gateways, GatewayOwner, c);
    WithoutTwice(db.notes, NoteOwner, c);
    WithoutTwice(db.balances, BalanceOwner, c);
    WithoutTwice(db.surcharges, SurchargeOwner, c);
    WithoutTwice(db.invoices, InvoiceOwner, c);
    WithoutTwice(db.charges, ChargeOwner, c);
    WithoutTwice(db.subscriptions, SubscriptionOwner, c);
  }

  /** In general a rollback takes out of every account what the customer's migration rows put in: what the
      running system posted since stays, and other customers' rows are untouched. */
  lemma RollbackNets(db: Tables, m: MonolithId, a: Account)
    requires Rollback(db, m).1.RolledBack?
    ensures Net(Rollback(db, m).0.ledger, a) == Net(db.ledger, a) - Net(ToReverse(db, db.customers[m].id, db.ledger), a)
    ensures Rest(Rollback(db, m).0, db.customers[m].id) == Rest(db, db.customers[m].id)
  {
    hide ToReverse, Blocked, Rest;
    var rows := ToReverse(db, db.customers[m].id, db.ledger);
    RestTwice(db, db.customers[m].id, db.ledger + Mirrors(rows));
    NetConcat(db.ledger, Mirrors(rows), a);
    MirrorsCancel(rows, a);
  }

  // ---------------------------------------------------------------- a rollback that aborts

  /** One payroll of a coming month that is not paid yet. */
  function ComingPayroll(): Payroll {
    Payroll(7, false, false, "unpaid", true, Some(100), Some([100]), None, 0, false)
  }

  lemma ComingIsDraft(db: Tables, b: Body)
    requires b == Request([(0, true)], [ComingPayroll()]) && db.invoices == map[]
    ensures WriteStep(db, b, CreditBalance) == WriteStep(db, b, SurchargeConfig) == (db, NothingToDo)
    ensures var run := WriteStep(db, b, Payrolls);
            && !run.1.Rejected? && run.0 == db.(invoices := run.0.invoices) && 0 in run.0.invoices
            && IsRecurringDraft(run.0.invoices[0], b.customer) && run.0.invoices[0].subscription.None?
  {
    assert b.payrolls[1..] == [];
    assert MapPayrollStatus(b.payrolls[0]) == Some(StatusMap(Draft, None));
    assert Postings(0, Draft, 100) == [];
  }

  lemma ComingIsLinked(db: Tables, b: Body)
    requires b == Request([(0, true)], [ComingPayroll()]) && db.subscriptions == map[]
    requires 0 in db.invoices && IsRecurringDraft(db.invoices[0], b.customer) && db.invoices[0].subscription.None?
    ensures var run := WriteStep(db, b, SubscriptionStep);
            && !run.1.Rejected? && run.0.customers == db.customers && 0 in run.0.subscriptions && 0 in run.0.invoices
            && run.0.subscriptions[0].customer == b.customer && run.0.invoices[0].subscription == Some(0)
  {
    assert ActiveOf(db, b.customer) == {};
  }

  /** Such a request: for an empty database the migration is done, and the rollback straight after aborts. */
  lemma RollbackCanAbort(b: Body)
    requires b == Request([(0, true)], [ComingPayroll()])
    ensures var run := Migrate(NO_ROWS, 0, b); run.1 == Done && Rollback(run.0, 0) == (run.0, RollbackFailed)
  {
    var s0 := WriteSettings(NO_ROWS, 0, b).0;
    assert 0 in s0.customers && s0.customers[0].id == b.customer && s0.invoices == map[] && s0.subscriptions == map[];
    hide WriteStep, WriteSettings, IsRecurringDraft, ComingPayroll;
    ComingIsDraft(s0, b);
    var s3 := WriteStep(s0, b, Payrolls).0;
    LaterComing(s3, b);
    ComingIsLinked(s3, b);
    var s5 := WriteStep(s3, b, SubscriptionStep).0;
    assert STEPS[1..] == [SurchargeConfig, Payrolls, Charges, SubscriptionStep];
    assert [SurchargeConfig, Payrolls, Charges, SubscriptionStep][1..] == [Payrolls, Charges, SubscriptionStep];
    assert [Payrolls, Charges, SubscriptionStep][1..] == [Charges, SubscriptionStep];
    assert [Charges, SubscriptionStep][1..] == [SubscriptionStep] && [SubscriptionStep][1..] == [];
    assert RunSteps(s5, b, []) == (s5, Done);
    assert RunSteps(s3, b, [SubscriptionStep]) == (s5, Done);
    assert RunSteps(s3, b, [Charges, SubscriptionStep]) == (s5, Done);
    assert RunSteps(s0, b, [Payrolls, Charges, SubscriptionStep]) == (s5, Done);
    assert RunSteps(s0, b, [SurchargeConfig, Payrolls, Charges, SubscriptionStep]) == (s5, Done);
    assert Migrate(NO_ROWS, 0, b) == (s5, Done);
    hide RunSteps, Migrate;
    assert Blocked(s5, b.customer);
  }

  lemma LaterComing(db: Tables, b: Body)
    requires b == Request([(0, true)], [ComingPayroll()])
    ensures WriteStep(db, b, Charges) == (db, NothingToDo)
  {
  }
}
