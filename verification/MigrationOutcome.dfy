/** When a migration finishes, and the tables it leaves then: told from the request and the tables before alone. */
module MigrationOutcome {
  import opened Options
  import opened Ledger
  import opened BillingState
  import opened Migration
  import opened MigrationPreview
  import opened MigrationRules

  // ---------------------------------------------------------------- the steps of a finished migration

  lemma FirstStep(now: Tables, b: Body, steps: seq<StepName>)
    requires steps != [] && RunSteps(now, b, steps).1.Done?
    ensures var first := WriteStep(now, b, steps[0]);
            !first.1.Rejected? && RunSteps(first.0, b, steps[1..]) == RunSteps(now, b, steps)
  {
    hide WriteStep;
  }

  /** The tables after the settings, before the items and after them. */
  lemma FinishedSteps(db: Tables, m: MonolithId, b: Body) returns (s0: Tables, s2: Tables, s4: Tables)
    requires Migrate(db, m, b).1.Done?
    ensures m !in db.customers && WriteSettings(db, m, b) == (s0, Written)
    ensures var credit := WriteBalance(s0, b);
            !credit.1.Rejected? && WriteSurcharge(credit.0, b).0 == s2 && !WriteSurcharge(credit.0, b).1.Rejected?
    ensures var payrolls := WriteStep(s2, b, Payrolls);
            !payrolls.1.Rejected? && WriteStep(payrolls.0, b, Charges).0 == s4 && !WriteStep(payrolls.0, b, Charges).1.Rejected?
    ensures WriteSubscription(s4, b).0 == Migrate(db, m, b).0 && !WriteSubscription(s4, b).1.Rejected?
  {
    hide WriteStep, RunSteps, WriteSettings;
    s0 := WriteSettings(db, m, b).0;
    SettingsAreWritten(db, m, b);
    var s1 := WriteStep(s0, b, CreditBalance).0;
    s2 := WriteStep(s1, b, SurchargeConfig).0;
    var s3 := WriteStep(s2, b, Payrolls).0;
    s4 := WriteStep(s3, b, Charges).0;
    assert STEPS[1..] == [SurchargeConfig, Payrolls, Charges, SubscriptionStep];
    assert [SurchargeConfig, Payrolls, Charges, SubscriptionStep][1..] == [Payrolls, Charges, SubscriptionStep];
    assert [Payrolls, Charges, SubscriptionStep][1..] == [Charges, SubscriptionStep];
    assert [Charges, SubscriptionStep][1..] == [SubscriptionStep] && [SubscriptionStep][1..] == [];
    FirstStep(s0, b, STEPS);
    FirstStep(s1, b, [SurchargeConfig, Payrolls, Charges, SubscriptionStep]);
    FirstStep(s2, b, [Payrolls, Charges, SubscriptionStep]);
    FirstStep(s3, b, [Charges, SubscriptionStep]);
    FirstStep(s4, b, [SubscriptionStep]);
    NoMoreSteps(WriteStep(s4, b, SubscriptionStep).0, b);
    StepsByName(s0, b);
    StepsByName(s1, b);
    StepsByName(s4, b);
  }

  lemma SettingsAreWritten(db: Tables, m: MonolithId, b: Body)
    ensures WriteSettings(db, m, b).1.Rejected? || WriteSettings(db, m, b).1 == Written
  {
    hide WithMethods;
  }

  lemma NoMoreSteps(now: Tables, b: Body)
    ensures RunSteps(now, b, []) == (now, Done)
  {
  }

  lemma StepsByName(now: Tables, b: Body)
    ensures WriteStep(now, b, CreditBalance) == WriteBalance(now, b)
    ensures WriteStep(now, b, SurchargeConfig) == WriteSurcharge(now, b)
    ensures WriteStep(now, b, SubscriptionStep) == WriteSubscription(now, b)
  {
    hide WriteBalance, WriteSurcharge, WriteSubscription;
  }

  // ---------------------------------------------------------------- settings, credit and surcharge

  /** The method is the first default one among those sent, or the first if none is. */
  predicate IsDefaultMethod(methods: seq<(MethodId, bool)>, pm: MethodId) {
    exists k :: 0 <= k < |methods| && methods[k].0 == pm
      && if methods[k].1 then forall j :: 0 <= j < k ==> !methods[j].1
         else k == 0 && forall j :: 0 <= j < |methods| ==> !methods[j].1
  }

  lemma {:induction false} FirstDefaultIs(methods: seq<(MethodId, bool)>)
    ensures var pm := FirstDefault(methods);
            if pm.None? then forall j :: 0 <= j < |methods| ==> !methods[j].1
            else exists k :: 0 <= k < |methods| && methods[k] == (pm.value, true) && forall j :: 0 <= j < k ==> !methods[j].1
  {
    if methods != [] && !methods[0].1 {
      FirstDefaultIs(methods[1..]);
      var pm := FirstDefault(methods[1..]);
      if pm.Some? {
        var k :| 0 <= k < |methods[1..]| && methods[1..][k] == (pm.value, true) && forall j :: 0 <= j < k ==> !methods[1..][j].1;
        assert methods[k + 1] == (pm.value, true);
        assert forall j :: 0 < j < k + 1 ==> methods[j] == methods[1..][j - 1];
      } else {
        assert forall j :: 0 < j < |methods| ==> methods[j] == methods[1..][j - 1];
      }
    } else if methods != [] {
      assert methods[0] == (methods[0].0, true);
    }
  }

  lemma DefaultMethodIs(methods: seq<(MethodId, bool)>)
    requires methods != []
    ensures DefaultMethod(methods).Some? && IsDefaultMethod(methods, DefaultMethod(methods).value)
  {
    FirstDefaultIs(methods);
    hide FirstDefault;
    if exists k :: 0 <= k < |methods| && methods[k].1 {
      var pm := FirstDefault(methods).value;
      var k :| 0 <= k < |methods| && methods[k] == (pm, true) && forall j :: 0 <= j < k ==> !methods[j].1;
    } else {
      assert !methods[0].1;
    }
  }

  /** A method sent is the customer's, with the flag sent last; another one stays as it was. */
  predicate MethodIs(before: map<MethodId, MethodRow>, after: map<MethodId, MethodRow>, c: CustomerId, sent: seq<(MethodId, bool)>,
                     id: MethodId) {
    if forall k :: 0 <= k < |sent| ==> sent[k].0 != id then
      (id in after <==> id in before) && (id in before ==> after[id] == before[id])
    else
      exists k :: 0 <= k < |sent| && sent[k].0 == id && (forall j :: k < j < |sent| ==> sent[j].0 != id)
                  && id in after && after[id] == MethodRow(c, sent[k].1)
  }

  lemma {:induction false} SentMethod(before: map<MethodId, MethodRow>, c: CustomerId, sent: seq<(MethodId, bool)>, id: MethodId)
    ensures MethodIs(before, WithMethods(before, c, sent), c, sent, id)
  {
    if sent != [] {
      var n := |sent| - 1;
      SentMethod(before, c, sent[..n], id);
      if sent[n].0 != id && exists k :: 0 <= k < n && sent[..n][k].0 == id {
        var k :| 0 <= k < n && sent[..n][k].0 == id && (forall j :: k < j < n ==> sent[..n][j].0 != id)
                 && WithMethods(before, c, sent[..n])[id] == MethodRow(c, sent[..n][k].1);
        assert sent[k].0 == id && forall j :: k < j < |sent| ==> sent[j].0 != id;
      } else if sent[n].0 != id {
        assert forall k :: 0 <= k < n ==> sent[k].0 == sent[..n][k].0;
      }
    }
  }

  /** What the database holds of credit migrated before. */
  predicate CreditMigrated(db: Tables, c: CustomerId) {
    exists n :: n in db.notes && db.notes[n].customer == c && db.notes[n].fromMigration
  }

  /** A request brings credit when its balance is negative, and none was migrated before. */
  predicate BringsCredit(db: Tables, b: Body) {
    b.balance.Some? && b.balance.value.Some? && b.balance.value.value < 0 && !CreditMigrated(db, b.customer)
  }

  lemma BalanceWrites(db: Tables, s0: Tables, b: Body)
    requires s0.notes == db.notes && s0.balances == db.balances && s0.ledger == db.ledger && !WriteBalance(s0, b).1.Rejected?
    ensures var s1 := WriteBalance(s0, b).0;
            CreditIsWritten(db, s1, b) && s1 == s0.(notes := s1.notes, balances := s1.balances, ledger := s1.ledger)
  {
    assert CreditMigrated(db, b.customer) <==> HasMigrationNote(s0, b.customer);
    hide HasMigrationNote, CreditMigrated;
  }

  lemma SurchargeWrites(db: Tables, s1: Tables, b: Body)
    requires s1.surcharges == db.surcharges && !WriteSurcharge(s1, b).1.Rejected?
    ensures var s2 := WriteSurcharge(s1, b).0; SurchargeIsWritten(db, s2, b) && s2 == s1.(surcharges := s2.surcharges)
  {
  }

  /** Credit brought is in a note, the balance and one journal row; no other request changes any of them. */
  predicate CreditIsWritten(db: Tables, after: Tables, b: Body) {
    NotesAre(db, after, b) && after.ledger == db.ledger + CreditRows(db, b)
  }

  predicate NotesAre(db: Tables, after: Tables, b: Body) {
    && b.balance != Some(None)
    && if BringsCredit(db, b) then
         var c, credit := b.customer, -b.balance.value.value;
         && after.notes == db.notes[b.note := NoteRow(c, credit, true)]
         && after.balances == db.balances[c := BalanceRow(c, (if c in db.balances then db.balances[c].cents else 0) + credit)]
       else after.notes == db.notes && after.balances == db.balances
  }

  function CreditRows(db: Tables, b: Body): seq<Entry<Tag>> {
    if BringsCredit(db, b) then [Entry(Credits, AccountsReceivable, -b.balance.value.value, Tag(OfNote(b.note), true))] else []
  }

  predicate SurchargeIsWritten(db: Tables, after: Tables, b: Body) {
    && b.surcharge != Some(None)
    && after.surcharges
       == if b.surcharge.Some? && b.customer !in db.surcharges then
            db.surcharges[b.customer := SurchargeRow(b.customer, b.surcharge.value.value)]
          else db.surcharges
  }

  predicate NoneActive(db: Tables, c: CustomerId) {
    forall s :: s in db.subscriptions && db.subscriptions[s].customer == c ==> !db.subscriptions[s].active
  }

  /** The customer's only active subscription is the one sent. */
  ghost predicate OnlyTheOneSent(db: Tables, b: Body) {
    b.monolithSubscription.Some?
    && exists s :: s in db.subscriptions && db.subscriptions[s].monolith == b.monolithSubscription
         && forall t :: t in db.subscriptions && db.subscriptions[t].customer == b.customer && db.subscriptions[t].active <==> t == s
  }

  lemma OneActive(db: Tables, b: Body)
    ensures NoneActive(db, b.customer) <==> ActiveOf(db, b.customer) == {}
    ensures OnlyTheOneSent(db, b) <==> |ActiveOf(db, b.customer)| == 1 && SameSubscription(db, b)
  {
    var active := ActiveOf(db, b.customer);
    assert forall s :: s in active <==> s in db.subscriptions && db.subscriptions[s].customer == b.customer && db.subscriptions[s].active;
    if |active| == 1 && SameSubscription(db, b) {
      var s :| s in active && db.subscriptions[s].monolith == b.monolithSubscription;
      assert |active - {s}| == 0;
      assert forall t :: t in active ==> t == s || t in active - {s};
    }
    if OnlyTheOneSent(db, b) {
      var s :| s in db.subscriptions && db.subscriptions[s].monolith == b.monolithSubscription
         && forall t :: t in db.subscriptions && db.subscriptions[t].customer == b.customer && db.subscriptions[t].active <==> t == s;
      assert s in active && active == {s};
    }
  }

  /** The last step: the new subscription of a customer without an active one, with the open recurring drafts on it. */
  ghost predicate SubscriptionIsWritten(db: Tables, now: Tables, after: Tables, b: Body) {
    && b.runRate.Some? && b.runRate.value.Some? && 1 <= b.chargeDay <= 31
    && if NoneActive(db, b.customer) then
         && b.timingParses
         && after.subscriptions
            == db.subscriptions[b.subscription := SubscriptionRow(b.customer, true, b.monolithSubscription, b.runRate.value.value)]
         && after.invoices.Keys == now.invoices.Keys
         && forall i :: i in now.invoices ==> after.invoices[i] == OnSubscription(now.invoices[i], b)
       else OnlyTheOneSent(db, b) && after.subscriptions == db.subscriptions && after.invoices == now.invoices
  }

  function OnSubscription(row: InvoiceRow, b: Body): InvoiceRow {
    if row.customer == b.customer && row.kind == Recurring && row.status == Draft && row.subscription.None? then
      row.(subscription := Some(b.subscription))
    else row
  }

  lemma SubscriptionWrites(db: Tables, s4: Tables, b: Body)
    requires s4.subscriptions == db.subscriptions && !WriteSubscription(s4, b).1.Rejected?
    ensures var after := WriteSubscription(s4, b).0;
            && SubscriptionIsWritten(db, s4, after, b)
            && after == s4.(subscriptions := after.subscriptions, invoices := after.invoices)
  {
    OneActive(s4, b);
    assert NoneActive(s4, b.customer) <==> NoneActive(db, b.customer);
    assert OnlyTheOneSent(s4, b) <==> OnlyTheOneSent(db, b);
    hide ActiveOf, SameSubscription, NoneActive, OnlyTheOneSent;
  }

  // ---------------------------------------------------------------- what a finished migration leaves

  /** Customer, methods and gateway row. */
  ghost predicate SettingsAre(db: Tables, after: Tables, m: MonolithId, b: Body) {
    && !b.cheque && b.reachable && m !in db.customers
    && after.customers == db.customers[m := CustomerRow(b.customer, b.chargeDay, b.prepaid)]
    && after.gateways == db.gateways[b.customer := GatewayRow(b.customer)]
    && forall id :: MethodIs(db.methods, after.methods, b.customer, b.methods, id)
  }

  lemma SettingsWrite(db: Tables, m: MonolithId, b: Body)
    requires m !in db.customers && WriteSettings(db, m, b).1.Written?
    ensures var s0 := WriteSettings(db, m, b).0;
            && SettingsAre(db, s0, m, b)
            && s0 == db.(customers := s0.customers, methods := s0.methods, gateways := s0.gateways)
  {
    hide WithMethods, MethodIs;
    forall id ensures MethodIs(db.methods, WithMethods(db.methods, b.customer, b.methods), b.customer, b.methods, id) {
      SentMethod(db.methods, b.customer, b.methods, id);
    }
  }

  /** The tables before the items, after them and in the end. */
  lemma FinishedTables(db: Tables, m: MonolithId, b: Body) returns (s2: Tables, s4: Tables)
    requires FreshInvoices(db, b) && Migrate(db, m, b).1.Done?
    ensures var after := Migrate(db, m, b).0;
            && SettingsAre(db, s2, m, b) && CreditIsWritten(db, s2, b) && SurchargeIsWritten(db, s2, b)
            && Untouched(db, s2) && SameSettings(s2, s4)
            && SubscriptionIsWritten(db, s4, after, b)
            && after == s4.(subscriptions := after.subscriptions, invoices := after.invoices)
    ensures WriteAll(s2, b.customer, DefaultMethod(b.methods), Plans(db, b)).0 == s4
    ensures !WriteAll(s2, b.customer, DefaultMethod(b.methods), Plans(db, b)).1.Rejected?
  {
    hide WriteBalance, WriteSurcharge, WriteSettings, WriteStep, WriteAll, WriteSubscription, Migrate, Plans, DefaultMethod, FreshInvoices,
         MethodIs, BringsCredit, CreditRows, SubscriptionIsWritten;
    var s0: Tables;
    s0, s2, s4 := FinishedSteps(db, m, b);
    var s1 := WriteBalance(s0, b).0;
    SettingsWrite(db, m, b);
    BalanceWrites(db, s0, b);
    SurchargeWrites(db, s1, b);
    StepsAsPlanned(db, s2, b);
    AllLeaveSettings(s2, b.customer, DefaultMethod(b.methods), Plans(db, b));
    SubscriptionWrites(db, s4, b);
  }

  /** Journal rows about an invoice are those of the items. */
  lemma CreditRowsAbout(db: Tables, s2: Tables, b: Body, s: Subject)
    requires CreditIsWritten(db, s2, b)
    ensures RowsAbout(s2.ledger, s) == RowsAbout(db.ledger, s) + if s == OfNote(b.note) then CreditRows(db, b) else []
  {
    RowsAboutBoth(db.ledger, CreditRows(db, b), s);
    if BringsCredit(db, b) { assert CreditRows(db, b)[..0] == []; }
    hide BringsCredit;
  }

  /** The rows of one item: an invoice of its status, total and lines, on the new subscription when it is a recurring draft
      and there is a new one; a charge of the default method when the status has one; and the journal rows of the status. */
  ghost predicate IsMigrated(db: Tables, after: Tables, b: Body, x: Item, pm: MethodId) {
    var status := x.mapped.invoice;
    var amount := if x.total < 0 then -x.total else x.total;
    && x.invoice in after.invoices
    && after.invoices[x.invoice]
       == InvoiceRow(b.customer,
                     if status == Draft && x.kind == Recurring && NoneActive(db, b.customer) then Some(b.subscription) else None,
                     x.kind, status, x.total, x.lines, if x.adjustment.Some? then x.adjustment.value else None, x.origin)
    && (if x.mapped.charge.Some? then
          && IsDefaultMethod(b.methods, pm) && x.key in after.charges
          && after.charges[x.key] == ChargeRow(b.customer, x.invoice, pm, amount, x.mapped.charge.value)
        else SameCharge(db, after, x.key))
    && RowsAbout(after.ledger, OfInvoice(x.invoice))
       == RowsAbout(db.ledger, OfInvoice(x.invoice)) + Booked(x.invoice, status, x.total)
  }

  lemma PlanIsMigrated(db: Tables, m: MonolithId, b: Body, k: nat) returns (pm: MethodId)
    requires FreshInvoices(db, b) && Migrate(db, m, b).1.Done? && k < |Plans(db, b)| && !Plans(db, b)[k].Skips?
    ensures Plans(db, b)[k].Writes? && Plans(db, b)[k].item.adjustment != Some(None)
    ensures IsMigrated(db, Migrate(db, m, b).0, b, Plans(db, b)[k].item, pm)
  {
    hide WriteAll, Migrate, Plans, DefaultMethod, FreshInvoices, IsDefaultMethod, NotesAre, CreditRows, CreditIsWritten, SettingsAre,
         SurchargeIsWritten, SameSettings, RowsAbout, Booked, Apart, NoneActive, OnlyTheOneSent;
    var s2, s4 := FinishedTables(db, m, b);
    var default := DefaultMethod(b.methods);
    pm := default.GetOr(0);
    PlansAreApart(db, b);
    AllAreIn(s2, b.customer, default, Plans(db, b), k);
    MethodIsFound(b.methods);
    if b.methods != [] { DefaultMethodIs(b.methods); }
    CreditRowsAbout(db, s2, b, OfInvoice(Plans(db, b)[k].item.invoice));
  }

  /** After a finished migration every payroll taken has its rows: of the status it had in the old system, with its total,
      its lines and the credit taken off it. */
  lemma MigratedPayroll(db: Tables, m: MonolithId, b: Body, k: nat, status: InvoiceStatus, charge: Option<ChargeStatus>)
    returns (pm: MethodId)
    requires FreshInvoices(db, b) && Migrate(db, m, b).1.Done?
    requires k < |b.payrolls| && TakesPayroll(db, b.payrolls, k) && PayrollIs(b.payrolls[k], status, charge)
    ensures var p := b.payrolls[k];
            && p.total.Some? && p.lines.Some? && p.startingBalance != Some(None)
            && IsMigrated(db, Migrate(db, m, b).0, b,
                          Item(p.invoice, MigPayroll(p.id), FromPayroll(p.id), Recurring, StatusMap(status, charge), p.total.value,
                               p.lines.value, p.startingBalance, p.dbFails), pm)
  {
    var p := b.payrolls[k];
    TakenPayroll(db, b.payrolls, k);
    PayrollStatuses(p, StatusMap(status, charge));
    assert Plans(db, b)[k] == PlanPayroll(db, p);
    hide Migrate, Plans, FreshInvoices, MapPayrollStatus, PayrollIs, TakesPayroll, Migrated, IsMigrated;
    pm := PlanIsMigrated(db, m, b, k);
  }

  /** So has every charge taken: its amount is never negative, and the one line of a charge without lines. */
  lemma MigratedCharge(db: Tables, m: MonolithId, b: Body, k: nat, status: InvoiceStatus, charge: Option<ChargeStatus>)
    returns (pm: MethodId)
    requires FreshInvoices(db, b) && Migrate(db, m, b).1.Done?
    requires k < |b.charges| && TakesCharge(db, b.charges, k) && ChargeIs(b.charges[k], status, charge)
    ensures var x := b.charges[k];
            && x.amount.Some? && x.lines.Some?
            && var total := if x.amount.value < 0 then -x.amount.value else x.amount.value;
               IsMigrated(db, Migrate(db, m, b).0, b,
                          Item(x.invoice, MigCharge(x.id), FromCharge(x.id), if x.onboarding then Onboarding else OneTime,
                               StatusMap(status, charge), total, if x.lines.value == [] then [total] else x.lines.value, None,
                               x.dbFails), pm)
  {
    var x, n := b.charges[k], |b.payrolls|;
    TakenCharge(db, b.charges, k);
    ChargeStatuses(x, StatusMap(status, charge));
    assert Plans(db, b)[n + k] == ChargePlan(db, b.charges, k, b.methods == []) == PlanCharge(db, x, b.methods == []);
    hide Migrate, Plans, FreshInvoices, MapChargeStatus, ChargeIs, TakesCharge, Migrated, IsMigrated;
    pm := PlanIsMigrated(db, m, b, n + k);
  }

  /** An invoice of the request that is taken. */
  ghost predicate IsTaken(db: Tables, b: Body, i: InvoiceId) {
    || (exists k :: 0 <= k < |b.payrolls| && b.payrolls[k].invoice == i && TakesPayroll(db, b.payrolls, k))
    || (exists k :: 0 <= k < |b.charges| && b.charges[k].invoice == i && TakesCharge(db, b.charges, k))
  }

  ghost predicate IsTakenUnder(db: Tables, b: Body, key: RowKey) {
    || (exists k :: 0 <= k < |b.payrolls| && key == MigPayroll(b.payrolls[k].id) && TakesPayroll(db, b.payrolls, k))
    || (exists k :: 0 <= k < |b.charges| && key == MigCharge(b.charges[k].id) && TakesCharge(db, b.charges, k))
  }

  lemma PlansAreTaken(db: Tables, b: Body, i: InvoiceId, key: RowKey)
    ensures IsTaken(db, b, i) || NoneFor(Plans(db, b), i)
    ensures IsTakenUnder(db, b, key) || NoneUnder(Plans(db, b), key)
  {
    hide TakesPayroll, TakesCharge, PayrollPlan, ChargePlan;
    forall k | 0 <= k < |Plans(db, b)| && Plans(db, b)[k].Writes?
      ensures Plans(db, b)[k].item.invoice == i ==> IsTaken(db, b, i)
      ensures Plans(db, b)[k].item.key == key ==> IsTakenUnder(db, b, key)
    {
      PlanAt(db, b, k);
    }
  }

  /** Nothing else is written: the other invoices, charges and journal rows are those of before, but for the drafts put on
      the new subscription and the row of the credit. */
  lemma NothingElseIsMigrated(db: Tables, m: MonolithId, b: Body, i: InvoiceId, key: RowKey, s: Subject)
    requires FreshInvoices(db, b) && Migrate(db, m, b).1.Done?
    requires !IsTaken(db, b, i) && !IsTakenUnder(db, b, key) && (s.OfInvoice? ==> !IsTaken(db, b, s.i))
    ensures var after := Migrate(db, m, b).0;
            && (i in after.invoices <==> i in db.invoices)
            && (i in db.invoices ==>
                  after.invoices[i] == if NoneActive(db, b.customer) then OnSubscription(db.invoices[i], b) else db.invoices[i])
            && SameCharge(db, after, key)
            && RowsAbout(after.ledger, s) == RowsAbout(db.ledger, s) + if s == OfNote(b.note) then CreditRows(db, b) else []
  {
    hide WriteAll, Migrate, Plans, DefaultMethod, FreshInvoices, IsTaken, IsTakenUnder, NotesAre, CreditRows, CreditIsWritten, SettingsAre,
         SurchargeIsWritten, SameSettings, RowsAbout, NoneActive, OnlyTheOneSent, OnSubscription, NoneFor, NoneUnder;
    var s2, s4 := FinishedTables(db, m, b);
    PlansAreTaken(db, b, i, key);
    if s.OfInvoice? { PlansAreTaken(db, b, s.i, key); }
    AllLeave(s2, b.customer, DefaultMethod(b.methods), Plans(db, b), i, key, s);
    CreditRowsAbout(db, s2, b, s);
  }

  /** The other tables: customer, methods and gateway as sent, the credit in note and balance, the surcharge, and a
      subscription for a customer without an active one. */
  lemma MigratedSettings(db: Tables, m: MonolithId, b: Body)
    requires FreshInvoices(db, b) && Migrate(db, m, b).1.Done?
    ensures var after := Migrate(db, m, b).0;
            && SettingsAre(db, after, m, b) && NotesAre(db, after, b) && SurchargeIsWritten(db, after, b)
            && b.runRate.Some? && b.runRate.value.Some? && 1 <= b.chargeDay <= 31
            && if NoneActive(db, b.customer) then
                 b.timingParses
                 && after.subscriptions
                    == db.subscriptions[b.subscription := SubscriptionRow(b.customer, true, b.monolithSubscription, b.runRate.value.value)]
               else OnlyTheOneSent(db, b) && after.subscriptions == db.subscriptions
  {
    hide WriteAll, Migrate, Plans, DefaultMethod, FreshInvoices, CreditRows, BringsCredit, MethodIs, NoneActive, OnlyTheOneSent;
    var s2, s4 := FinishedTables(db, m, b);
  }

  // ---------------------------------------------------------------- when a migration finishes

  /** The payroll has a charge in the old system. */
  predicate WasCharged(p: Payroll) {
    !p.deleted && (p.failure || p.status in {"paid", "succeeded", "failed", "pending", "processing"})
  }

  /** Nothing is wrong with a payroll: a known one has a total that parses, and one taken has lines and starting balance
      that parse, a payment method and a free key if it was charged, and a database that takes it. */
  predicate PayrollIsFine(db: Tables, b: Body, k: nat)
    requires k < |b.payrolls|
  {
    var p := b.payrolls[k];
    && (KnownPayroll(p) ==> p.total.Some?)
    && (TakesPayroll(db, b.payrolls, k) ==>
          && p.lines.Some? && p.startingBalance != Some(None) && !p.dbFails
          && (WasCharged(p) ==> b.methods != [] && MigPayroll(p.id) !in db.charges))
  }

  predicate ChargeIsFine(db: Tables, b: Body, k: nat)
    requires k < |b.charges|
  {
    var x := b.charges[k];
    && (KnownCharge(x) ==> x.amount.Some?)
    && (TakesCharge(db, b.charges, k) ==>
          && x.lines.Some? && !x.dbFails
          && (!x.deleted ==> b.methods != [] && MigCharge(x.id) !in db.charges))
  }

  lemma FinePayroll(db: Tables, b: Body, k: nat)
    requires k < |b.payrolls|
    ensures PayrollStopsRun(db, b, k).None? <==> PayrollIsFine(db, b, k)
  {
    var p := b.payrolls[k];
    TakenPayroll(db, b.payrolls, k);
    KnownStatuses(p, OldCharge(0, false, "", false, None, None, 0, false));
    assert MapPayrollStatus(p).Some? ==> (MapPayrollStatus(p).value.charge.Some? <==> WasCharged(p));
    hide MapPayrollStatus, WasCharged, KnownPayroll, TakesPayroll, Migrated, PayrollSentBefore;
  }

  lemma FineCharge(db: Tables, b: Body, k: nat)
    requires k < |b.charges|
    ensures ChargeStopsRun(db, b, k).None? <==> ChargeIsFine(db, b, k)
  {
    var x := b.charges[k];
    TakenCharge(db, b.charges, k);
    KnownStatuses(Payroll(0, false, false, "", false, None, None, None, 0, false), x);
    assert MapChargeStatus(x).Some? ==> (MapChargeStatus(x).value.charge.Some? <==> !x.deleted);
    hide MapChargeStatus, KnownCharge, TakesCharge, Migrated, ChargeSentBefore;
  }

  lemma {:induction false} FinePayrolls(db: Tables, b: Body, k: nat)
    requires k <= |b.payrolls|
    ensures PayrollsStopRun(db, b, k).None? <==> forall j :: k <= j < |b.payrolls| ==> PayrollIsFine(db, b, j)
    decreases |b.payrolls| - k
  {
    hide PayrollIsFine, PayrollStopsRun;
    if k < |b.payrolls| {
      FinePayroll(db, b, k);
      FinePayrolls(db, b, k + 1);
    }
  }

  lemma {:induction false} FineCharges(db: Tables, b: Body, k: nat)
    requires k <= |b.charges|
    ensures ChargesStopRun(db, b, k).None? <==> forall j :: k <= j < |b.charges| ==> ChargeIsFine(db, b, j)
    decreases |b.charges| - k
  {
    hide ChargeIsFine, ChargeStopsRun;
    if k < |b.charges| {
      FineCharge(db, b, k);
      FineCharges(db, b, k + 1);
    }
  }

  predicate CreditIsFine(db: Tables, b: Body) {
    b.balance != Some(None) && (BringsCredit(db, b) ==> !b.noteFails)
  }

  predicate SurchargeIsFine(db: Tables, b: Body) {
    b.surcharge != Some(None) && (b.surcharge.Some? && b.customer !in db.surcharges ==> !b.surchargeFails)
  }

  ghost predicate SubscriptionIsFine(db: Tables, b: Body) {
    && b.runRate.Some? && b.runRate.value.Some? && 1 <= b.chargeDay <= 31
    && if NoneActive(db, b.customer) then b.timingParses && !b.subscriptionFails else OnlyTheOneSent(db, b)
  }

  lemma FineSteps(db: Tables, b: Body)
    ensures StopsRun(db, b, CreditBalance).None? <==> CreditIsFine(db, b)
    ensures StopsRun(db, b, SurchargeConfig).None? <==> SurchargeIsFine(db, b)
    ensures StopsRun(db, b, SubscriptionStep).None? <==> SubscriptionIsFine(db, b)
  {
    assert CreditMigrated(db, b.customer) <==> HasMigrationNote(db, b.customer);
    OneActive(db, b);
    hide HasMigrationNote, CreditMigrated, NoneActive, OnlyTheOneSent, ActiveOf, SameSubscription;
  }

  /** No step stops the run. */
  predicate NothingStops(db: Tables, b: Body) {
    && StopsRun(db, b, CreditBalance).None? && StopsRun(db, b, SurchargeConfig).None? && StopsRun(db, b, Payrolls).None?
    && StopsRun(db, b, Charges).None? && StopsRun(db, b, SubscriptionStep).None?
  }

  lemma ReportIsDone(db: Tables, b: Body)
    ensures RunReport(db, b, STEPS).Done? <==> NothingStops(db, b)
  {
    hide StopsRun;
    assert STEPS[1..] == [SurchargeConfig, Payrolls, Charges, SubscriptionStep];
    assert [SurchargeConfig, Payrolls, Charges, SubscriptionStep][1..] == [Payrolls, Charges, SubscriptionStep];
    assert [Payrolls, Charges, SubscriptionStep][1..] == [Charges, SubscriptionStep];
    assert [Charges, SubscriptionStep][1..] == [SubscriptionStep] && [SubscriptionStep][1..] == [];
    assert RunReport(db, b, []).Done?;
    assert RunReport(db, b, [SubscriptionStep]).Done? <==> StopsRun(db, b, SubscriptionStep).None?;
    assert RunReport(db, b, [Charges, SubscriptionStep]).Done?
           <==> StopsRun(db, b, Charges).None? && StopsRun(db, b, SubscriptionStep).None?;
    assert RunReport(db, b, [SurchargeConfig, Payrolls, Charges, SubscriptionStep]).Done?
           <==> StopsRun(db, b, SurchargeConfig).None? && StopsRun(db, b, Payrolls).None?
                && RunReport(db, b, [Charges, SubscriptionStep]).Done?;
  }

  lemma StoppedAtSettingsWhen(db: Tables, m: MonolithId, b: Body)
    requires m in db.customers || b.cheque || !b.reachable || b.settingsFail
    ensures !Migrate(db, m, b).1.Done?
  {
    hide RunSteps;
  }

  /** A migration finishes exactly when nothing is wrong with any part of the request. */
  lemma FinishesWhen(db: Tables, m: MonolithId, b: Body)
    requires FreshInvoices(db, b)
    ensures Migrate(db, m, b).1.Done?
            <==> && m !in db.customers && !b.cheque && b.reachable && !b.settingsFail
                 && CreditIsFine(db, b) && SurchargeIsFine(db, b)
                 && (forall k :: 0 <= k < |b.payrolls| ==> PayrollIsFine(db, b, k))
                 && (forall k :: 0 <= k < |b.charges| ==> ChargeIsFine(db, b, k))
                 && SubscriptionIsFine(db, b)
  {
    if m in db.customers || b.cheque || !b.reachable || b.settingsFail {
      StoppedAtSettingsWhen(db, m, b);
    } else {
      RunIsReported(db, m, b);
      FineSteps(db, b);
      FinePayrolls(db, b, 0);
      FineCharges(db, b, 0);
      ReportIsDone(db, b);
      hide Migrate, CreditIsFine, SurchargeIsFine, PayrollIsFine, ChargeIsFine, SubscriptionIsFine, PayrollsStopRun, ChargesStopRun,
           RunReport, FreshInvoices, BalanceResult, SurchargeResult, SubscriptionResult;
    }
  }

  // ---------------------------------------------------------------- what a rollback leaves

  /** The row was written by a migration about an invoice or a note of the customer. */
  predicate WasMigratedFor(db: Tables, c: CustomerId, e: Entry<Tag>) {
    && e.ref.migration
    && ((e.ref.subject.OfInvoice? && e.ref.subject.i in db.invoices && db.invoices[e.ref.subject.i].customer == c)
        || (e.ref.subject.OfNote? && e.ref.subject.n in db.notes && db.notes[e.ref.subject.n].customer == c))
  }

  /** Those rows with their accounts swapped, in order. */
  function Reversals(db: Tables, c: CustomerId, ledger: seq<Entry<Tag>>): seq<Entry<Tag>> {
    if ledger == [] then []
    else
      var e := ledger[0];
      (if WasMigratedFor(db, c, e) then [Entry(e.credit, e.debit, e.amount, e.ref)] else []) + Reversals(db, c, ledger[1..])
  }

  lemma {:induction false} ReversalsAppend(db: Tables, c: CustomerId, ledger: seq<Entry<Tag>>, e: Entry<Tag>)
    ensures Reversals(db, c, ledger + [e])
            == Reversals(db, c, ledger) + if WasMigratedFor(db, c, e) then [Entry(e.credit, e.debit, e.amount, e.ref)] else []
  {
    hide WasMigratedFor;
    if ledger == [] {
      assert ledger + [e] == [e] && [e][1..] == [];
    } else {
      assert (ledger + [e])[1..] == ledger[1..] + [e];
      ReversalsAppend(db, c, ledger[1..], e);
    }
  }

  lemma {:induction false} ReversalsAre(db: Tables, c: CustomerId, ledger: seq<Entry<Tag>>)
    ensures Mirrors(ToReverse(db, c, ledger)) == Reversals(db, c, ledger)
    ensures |ToReverse(db, c, ledger)| == |Reversals(db, c, ledger)|
  {
    if ledger != [] {
      var n := |ledger| - 1;
      var e, before := ledger[n], ToReverse(db, c, ledger[..n]);
      ReversalsAre(db, c, ledger[..n]);
      ReversalsAppend(db, c, ledger[..n], e);
      assert ledger == ledger[..n] + [e];
      assert Reversible(db, c, e) <==> WasMigratedFor(db, c, e);
      assert (before + [e])[..|before|] == before && before + [] == before;
      assert Reversals(db, c, ledger[..n]) + [] == Reversals(db, c, ledger[..n]);
      hide Reversible, WasMigratedFor, Reversals;
    }
  }

  /** Rows left alone would point at rows of the customer. */
  predicate IsPointedAt(db: Tables, c: CustomerId) {
    || (exists i, s :: i in db.invoices && s in db.subscriptions && db.invoices[i].subscription == Some(s)
                       && db.subscriptions[s].customer == c)
    || (exists i :: i in db.referenced && i in db.invoices && db.invoices[i].customer == c)
    || c in db.flagged
  }

  /** A table is left with the rows that are not the customer's, as they are. */
  ghost predicate Left<K, V>(before: map<K, V>, after: map<K, V>, owner: V -> CustomerId, c: CustomerId) {
    && (forall k :: k in before ==> (k in after <==> owner(before[k]) != c))
    && (forall k :: k in after ==> k in before && after[k] == before[k])
  }

  lemma WithoutLeaves<K, V>(table: map<K, V>, told: V -> CustomerId, owner: V -> CustomerId, c: CustomerId)
    requires forall v :: told(v) == owner(v)
    ensures Left(table, Without(table, told, c), owner, c)
  {
  }

  /** Every table is left with the rows that are not the customer's. */
  ghost predicate AreLeft(db: Tables, after: Tables, c: CustomerId) {
    && Left(db.customers, after.customers, (r: CustomerRow) => r.id, c)
    && Left(db.methods, after.methods, (r: MethodRow) => r.customer, c)
    && Left(db.gateways, after.gateways, (r: GatewayRow) => r.customer, c)
    && Left(db.notes, after.notes, (r: NoteRow) => r.customer, c)
    && Left(db.balances, after.balances, (r: BalanceRow) => r.customer, c)
    && Left(db.surcharges, after.surcharges, (r: SurchargeRow) => r.customer, c)
    && Left(db.invoices, after.invoices, (r: InvoiceRow) => r.customer, c)
    && Left(db.charges, after.charges, (r: ChargeRow) => r.customer, c)
    && Left(db.subscriptions, after.subscriptions, (r: SubscriptionRow) => r.customer, c)
    && after.referenced == db.referenced && after.flagged == db.flagged
  }

  lemma RestIsLeft(db: Tables, c: CustomerId, ledger: seq<Entry<Tag>>)
    ensures AreLeft(db, Rest(db, c).(ledger := ledger), c)
  {
    hide Left, Without;
    WithoutLeaves(db.customers, CustomerOwner, (r: CustomerRow) => r.id, c);
    WithoutLeaves(db.methods, MethodOwner, (r: MethodRow) => r.customer, c);
    WithoutLeaves(db.gateways, GatewayOwner, (r: GatewayRow) => r.customer, c);
    WithoutLeaves(db.notes, NoteOwner, (r: NoteRow) => r.customer, c);
    WithoutLeaves(db.balances, BalanceOwner, (r: BalanceRow) => r.customer, c);
    WithoutLeaves(db.surcharges, SurchargeOwner, (r: SurchargeRow) => r.customer, c);
    WithoutLeaves(db.invoices, InvoiceOwner, (r: InvoiceRow) => r.customer, c);
    WithoutLeaves(db.charges, ChargeOwner, (r: ChargeRow) => r.customer, c);
    WithoutLeaves(db.subscriptions, SubscriptionOwner, (r: SubscriptionRow) => r.customer, c);
  }

  /** A rollback of a migrated customer takes out that customer's rows and posts the reversal of every row migrated for
      that customer, and counts those; it changes nothing when other rows point at one taken out. */
  lemma RollbackLeaves(db: Tables, m: MonolithId)
    ensures var after, report := Rollback(db, m).0, Rollback(db, m).1;
            if m !in db.customers then after == db && report == NotMigrated
            else
              var c := db.customers[m].id;
              if IsPointedAt(db, c) then after == db && report == RollbackFailed
              else
                && AreLeft(db, after, c)
                && after.ledger == db.ledger + Reversals(db, c, db.ledger)
                && report == RolledBack(|Reversals(db, c, db.ledger)|)
  {
    if m in db.customers {
      var c := db.customers[m].id;
      ReversalsAre(db, c, db.ledger);
      RestIsLeft(db, c, Rollback(db, m).0.ledger);
      PointedAtIs(db, c);
      hide AreLeft, Rest, Blocked, IsPointedAt, ToReverse, Reversals;
    }
  }

  lemma PointedAtIs(db: Tables, c: CustomerId)
    ensures Blocked(db, c) <==> IsPointedAt(db, c)
  {
    if i, s :| i in db.invoices && s in db.subscriptions && db.invoices[i].subscription == Some(s) && db.subscriptions[s].customer == c {
      assert db.invoices[i].subscription.value in db.subscriptions;
    }
  }
}
