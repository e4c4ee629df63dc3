/** The subscription handlers and the scheduler's loop, changing the tables row by row. */
module SubscriptionServices {
  import opened Options
  import opened Calendar
  import opened BillingDates
  import opened BillingState
  import opened Subscriptions
  import opened SchedulerRuns
  import opened PeriodTiling

  /** What the world does in one turn of the scheduler. */
  datatype World = World(newId: InvoiceId, bill: BillResult, advance: AdvanceResult)

  function Ids(w: World): set<InvoiceId> {
    {w.newId} + if w.advance.Completed? then {w.advance.draft} else {}
  }

  /** The ids generated in one run are new and differ from each other. */
  ghost predicate NewIds(used: set<InvoiceId>, world: seq<World>) {
    && (forall k :: 0 <= k < |world| ==> Ids(world[k]) !! used)
    && (forall k :: 0 <= k < |world| ==> world[k].advance.Completed? ==> world[k].advance.draft != world[k].newId)
    && (forall j, k :: 0 <= j < k < |world| ==> Ids(world[j]) !! Ids(world[k]))
  }

  /** The states and results of visiting the due subscriptions one after the other, each turn finding
      whatever draft its query returns. */
  ghost predicate Sweep(states: seq<Schedule>, due: seq<SubscriptionId>, turns: seq<Turn>, kinds: seq<VisitKind>) {
    && |states| == |due| + 1 && |turns| == |kinds| == |due|
    && forall k :: 0 <= k < |due| ==>
         && due[k] in states[k].subs && PossibleTurn(states[k], due[k], turns[k])
         && (states[k + 1], kinds[k]) == Visit(states[k], due[k], turns[k])
  }

  function Count(kinds: seq<VisitKind>, kind: VisitKind): nat {
    if kinds == [] then 0
    else Count(kinds[..|kinds| - 1], kind) + if kinds[|kinds| - 1] == kind then 1 else 0
  }

  lemma CountAppend(kinds: seq<VisitKind>, last: VisitKind, kind: VisitKind)
    ensures Count(kinds + [last], kind) == Count(kinds, kind) + if last == kind then 1 else 0
  {
    assert (kinds + [last])[..|kinds|] == kinds;
  }

  lemma VisitUsesIds(sc: Schedule, s: SubscriptionId, turn: Turn)
    requires s in sc.subs && PossibleTurn(sc, s, turn)
    ensures Visit(sc, s, turn).0.invoices.Keys <= sc.invoices.Keys + Ids(World(turn.newId, turn.bill, turn.advance))
    ensures Visit(sc, s, turn).0.subs.Keys == sc.subs.Keys
  {
    hide DueFor, MonthsLater, Before, PeriodIsBilled, PeriodIsVoided;
  }

  lemma NoTurns(sc: Schedule)
    ensures Sweep([sc], [], [], []) && Count([], Create) == Count([], Skip) == Count([], Fail) == 0
  {
  }

  lemma SweepExtends(states: seq<Schedule>, due: seq<SubscriptionId>, turns: seq<Turn>, kinds: seq<VisitKind>,
                     s: SubscriptionId, turn: Turn, after: Schedule, kind: VisitKind)
    requires Sweep(states, due, turns, kinds)
    requires var last := states[|due|]; s in last.subs && PossibleTurn(last, s, turn) && (after, kind) == Visit(last, s, turn)
    ensures Sweep(states + [after], due + [s], turns + [turn], kinds + [kind])
  {
    hide Visit, PossibleTurn;
  }

  class ScheduleTables {
    var profiles: map<CustomerId, Profile>
    var subs: map<SubscriptionId, Subscription>
    var invoices: map<InvoiceId, PeriodInvoice>

    function Value(): Schedule
      reads this
    {
      Schedule(profiles, subs, invoices)
    }

    constructor (ps: map<CustomerId, Profile>)
      ensures Value() == Schedule(ps, map[], map[])
    {
      profiles, subs, invoices := ps, map[], map[];
    }

    method DueDateFor(c: CustomerId, start: Day) returns (due: Day)
      ensures due == DueFor(Value(), c, start)
    {
      var chargeDay, isPrepaid := 15, true;
      if c in profiles { chargeDay, isPrepaid := profiles[c].chargeDay, profiles[c].prepaid; }
      due := CalculateInvoiceDueDate(start, chargeDay, isPrepaid);
    }

    method MoveBillingPeriod(s: SubscriptionId)
      requires s in subs
      modifies `subs
      ensures Value() == AdvanceBillingPeriod(old(Value()), s)
    {
      hide DueFor;
      var newStart := subs[s].end;
      var newEnd := CalculateBillingPeriodEnd(newStart);
      var nextBillingDate := DueDateFor(subs[s].customer, newStart);
      subs := subs[s := subs[s].(start := newStart, end := newEnd, next := Some(nextBillingDate))];
    }

    /** A draft of the subscription's current period, if there is one. */
    method FindPeriodDraft(s: SubscriptionId) returns (found: Option<InvoiceId>)
      requires s in subs
      ensures FoundPeriodDraft(Value(), s, found)
    {
      if i :| i in invoices && PeriodDraft(Value(), s, i) {
        found := Some(i);
      } else {
        found := None;
      }
    }

    method CreateDraftInvoice(s: SubscriptionId, i: InvoiceId)
      requires s in subs
      modifies `invoices
      ensures Value() == SeedDraft(old(Value()), s, i)
    {
      var dueDate := DueDateFor(subs[s].customer, subs[s].start);
      invoices := invoices[i := PeriodInvoice(Some(s), subs[s].customer, Recurring, Draft, subs[s].start, subs[s].end, dueDate)];
    }

    method AdvanceThenSeed(i: InvoiceId, r: AdvanceResult)
      modifies `subs, `invoices
      ensures Value() == AdvanceAndSeedNextDraft(old(Value()), i, r)
    {
      hide DueFor;
      if i !in invoices { return; }
      var invoice := invoices[i];
      if invoice.kind != Recurring || invoice.subscription.None? { return; }
      var s := invoice.subscription.value;
      if s !in subs { return; }
      if Before(invoice.start, subs[s].start) { return; }
      if subs[s].customer !in profiles { return; }
      if r.ThrewBefore? { return; }
      MoveBillingPeriod(s);
      if r.ThrewAfter? { return; }
      var seeded := FindPeriodDraft(s);
      if seeded.Some? { return; }
      CreateDraftInvoice(s, r.draft);
    }

    method VoidDraftInvoicesForCustomer(c: CustomerId) returns (found: Option<InvoiceId>)
      modifies `invoices
      ensures FoundCustomerDraft(old(Value()), c, found)
      ensures Value() == DropDraft(old(Value()), found)
    {
      if i :| i in invoices && CustomerDraft(Value(), c, i) {
        found := Some(i);
        invoices := invoices[i := invoices[i].(status := InvoiceStatus.Void)];
      } else {
        found := None;
      }
    }

    /** A refused transition throws and leaves the tables as they are. */
    method ChangeStatus(s: SubscriptionId, to: SubscriptionStatus, today: Day)
      returns (found: Option<InvoiceId>)
      modifies `subs, `invoices
      ensures s in old(subs) && Allows(old(subs)[s].status, to) && (to == Paused || to == Canceled)
              ==> FoundCustomerDraft(old(Value()), old(subs)[s].customer, found)
      ensures found.Some? ==> found.value in old(invoices)
      ensures Value() == UpdateState(old(Value()), s, to, today, found)
    {
      found := None;
      if s !in subs || !Allows(subs[s].status, to) { return; }
      if to == Paused || to == Canceled {
        found := VoidDraftInvoicesForCustomer(subs[s].customer);
        subs := subs[s := subs[s].(status := to, next := None)];
      } else if subs[s].status == Paused && to == Active {
        var newEnd := CalculateBillingPeriodEnd(today);
        subs := subs[s := subs[s].(status := to, start := today, end := newEnd, next := Some(newEnd))];
      } else {
        subs := subs[s := subs[s].(status := to)];
      }
    }

    /** A subscription event: resume the paused subscription or create one, then give its period a draft. */
    method SubscribeCustomer(c: CustomerId, newSub: SubscriptionId, start: Day, draft: InvoiceId)
      returns (paused: Option<SubscriptionId>, open: Option<InvoiceId>, dropped: Option<InvoiceId>)
      modifies `subs, `invoices
      ensures if paused.Some? then IsPausedOf(old(Value()), c, paused.value)
              else forall s :: s in old(subs) ==> !IsPausedOf(old(Value()), c, s)
      ensures FoundOpenDraft(old(Value()), c, open)
      ensures dropped.Some? ==> CustomerDraft(old(Value()), c, dropped.value)
      ensures open.Some? && old(invoices)[open.value].subscription != Some(paused.GetOr(newSub)) ==> dropped.Some?
      ensures Value() == SubscribeFromEvent(old(Value()), c, paused, newSub, start, open, dropped, draft)
    {
      hide DueFor, MonthsLater;
      paused, open, dropped := None, None, None;
      var newEnd := CalculateBillingPeriodEnd(start);
      var nextBillingDate := DueDateFor(c, start);
      var row := Subscription(c, Active, start, newEnd, Some(nextBillingDate));
      if s :| s in subs && IsPausedOf(Value(), c, s) {
        paused := Some(s);
        row := subs[s].(status := Active, start := start, end := newEnd, next := Some(nextBillingDate));
      }
      var s := paused.GetOr(newSub);
      subs := subs[s := row];
      if i :| i in invoices && CustomerDraft(Value(), c, i) && invoices[i].kind == Recurring { open := Some(i); }
      if open.Some? && invoices[open.value].subscription == Some(s) { return; }
      if open.Some? { dropped := VoidDraftInvoicesForCustomer(c); }
      CreateDraftInvoice(s, draft);
    }

    /** One turn: look for billed, voided and draft invoices of the period, bill, publish, advance. */
    method BillDueSubscription(s: SubscriptionId, w: World) returns (turn: Turn, kind: VisitKind)
      requires s in subs
      requires Ids(w) !! invoices.Keys && (w.advance.Completed? ==> w.advance.draft != w.newId)
      modifies `subs, `invoices
      ensures turn == Turn(turn.found, w.newId, w.bill, w.advance)
      ensures PossibleTurn(old(Value()), s, turn)
      ensures (Value(), kind) == Visit(old(Value()), s, turn)
    {
      hide DueFor, MonthsLater, AdvanceAndSeedNextDraft;
      var found := FindPeriodDraft(s);
      turn := Turn(found, w.newId, w.bill, w.advance);
      if PeriodIsBilled(Value(), s) { return turn, Skip; }
      if PeriodIsVoided(Value(), s) && found.None? { return turn, Skip; }
      if w.bill.Aborted? { return turn, Fail; }
      var status := if w.bill.paid then InvoiceStatus.Paid else Finalized;
      var invoice := w.newId;
      if found.Some? {
        invoice := found.value;
      } else {
        CreateDraftInvoice(s, w.newId);
      }
      invoices := invoices[invoice := invoices[invoice].(status := status)];
      if !w.bill.published { return turn, Fail; }
      AdvanceThenSeed(invoice, w.advance);
      kind := Create;
    }

    /** Visit every due subscription; a failure of one does not stop the others. */
    method GenerateInvoicesForDueSubscriptions(due: seq<SubscriptionId>, world: seq<World>)
      returns (created: nat, skipped: nat, failed: nat, turns: seq<Turn>, kinds: seq<VisitKind>, ghost states: seq<Schedule>)
      requires forall s :: s in due ==> s in subs
      requires |world| == |due| && NewIds(invoices.Keys, world)
      modifies `subs, `invoices
      ensures Sweep(states, due, turns, kinds) && states[0] == old(Value()) && states[|due|] == Value()
      ensures created == Count(kinds, Create) && skipped == Count(kinds, Skip) && failed == Count(kinds, Fail)
      ensures created + skipped + failed == |due|
    {
      hide Visit, PossibleTurn, Count, Sweep, Ids, DueFor, MonthsLater, IsBilled, IsDue;
      NoTurns(Value());
      created, skipped, failed, turns, kinds := 0, 0, 0, [], [];
      states := [Value()];
      assert due[..0] == [];
      for n := 0 to |due|
        invariant |states| == n + 1 && Sweep(states, due[..n], turns, kinds)
        invariant states[0] == old(Value()) && states[n] == Value()
        invariant created == Count(kinds, Create) && skipped == Count(kinds, Skip) && failed == Count(kinds, Fail)
        invariant created + skipped + failed == n
        invariant forall s :: s in due ==> s in subs
        invariant forall k :: n <= k < |due| ==> Ids(world[k]) !! invoices.Keys
      {
        var turn, kind := BillDueSubscription(due[n], world[n]);
        VisitUsesIds(states[n], due[n], turn);
        SweepExtends(states, due[..n], turns, kinds, due[n], turn, Value(), kind);
        assert due[..n] + [due[n]] == due[..n + 1];
        CountAppend(kinds, kind, Create);
        CountAppend(kinds, kind, Skip);
        CountAppend(kinds, kind, Fail);
        match kind {
          case Create => created := created + 1;
          case Skip => skipped := skipped + 1;
          case Fail => failed := failed + 1;
        }
        turns, kinds := turns + [turn], kinds + [kind];
        states := states + [Value()];
      }
      assert due[..|due|] == due;
    }
  }

  // ---------------------------------------------------------------- what one run achieves

  predicate BilledInPeriod(sc: Schedule, s: SubscriptionId, start: Day, end: Day) {
    exists i :: i in sc.invoices && OfPeriod(sc.invoices[i], s, start, end) && IsBilled(sc.invoices[i])
  }

  lemma VisitKeepsBilled(sc: Schedule, z: SubscriptionId, turn: Turn, s: SubscriptionId, start: Day, end: Day)
    requires z in sc.subs && PossibleTurn(sc, z, turn) && BilledInPeriod(sc, s, start, end)
    ensures BilledInPeriod(Visit(sc, z, turn).0, s, start, end)
  {
    hide DueFor, MonthsLater, Before, PeriodIsBilled, PeriodIsVoided, AdvanceAndSeedNextDraft;
    if Visit(sc, z, turn).1.Create? {
      AdvanceIsQuiet(BillPeriod(sc, z, turn.found, turn.newId, turn.bill.paid), turn.found.GetOr(turn.newId), turn.advance);
    }
    var i :| i in sc.invoices && OfPeriod(sc.invoices[i], s, start, end) && IsBilled(sc.invoices[i]);
    assert Visit(sc, z, turn).0.invoices[i].start == start;
  }

  /** A turn bills its period unless it skips or aborts. */
  lemma VisitBills(sc: Schedule, s: SubscriptionId, turn: Turn)
    requires s in sc.subs && PossibleTurn(sc, s, turn)
    ensures BilledInPeriod(Visit(sc, s, turn).0, s, sc.subs[s].start, sc.subs[s].end)
            <==> PeriodIsBilled(sc, s) || (turn.bill.Billed? && !SkipsPeriod(sc, s, turn.found))
  {
    hide DueFor, MonthsLater, AdvanceAndSeedNextDraft;
    if turn.bill.Billed? && !SkipsPeriod(sc, s, turn.found) {
      var i := turn.found.GetOr(turn.newId);
      var billed := BillPeriod(sc, s, turn.found, turn.newId, turn.bill.paid);
      assert OfPeriod(billed.invoices[i], s, sc.subs[s].start, sc.subs[s].end) && IsBilled(billed.invoices[i]);
      if turn.bill.published {
        AdvanceIsQuiet(billed, i, turn.advance);
        assert Visit(sc, s, turn).0.invoices[i] == billed.invoices[i];
      }
    }
  }

  lemma {:induction false} SweepKeepsBilled(states: seq<Schedule>, due: seq<SubscriptionId>, turns: seq<Turn>,
                                            kinds: seq<VisitKind>, k: nat, s: SubscriptionId, start: Day, end: Day)
    requires Sweep(states, due, turns, kinds) && k <= |due| && BilledInPeriod(states[k], s, start, end)
    ensures BilledInPeriod(states[|due|], s, start, end)
    decreases |due| - k
  {
    hide Visit, PossibleTurn, BilledInPeriod;
    if k < |due| {
      VisitKeepsBilled(states[k], due[k], turns[k], s, start, end);
      SweepKeepsBilled(states, due, turns, kinds, k + 1, s, start, end);
    }
  }

  lemma {:induction false} SweepReaches(states: seq<Schedule>, due: seq<SubscriptionId>, turns: seq<Turn>,
                                        kinds: seq<VisitKind>, k: nat, s: SubscriptionId)
    requires Sweep(states, due, turns, kinds) && k <= |due| && s in states[0].subs && s !in due[..k]
    ensures s in states[k].subs && states[k].subs[s] == states[0].subs[s]
  {
    hide Visit, PossibleTurn;
    if k > 0 {
      assert due[..k] == due[..k - 1] + [due[k - 1]];
      SweepReaches(states, due, turns, kinds, k - 1, s);
      VisitLeavesOthers(states[k - 1], due[k - 1], turns[k - 1], s);
    }
  }

  /** In one run over distinct subscriptions, every subscription counted as created has its period, as it was
      before the run, billed at the end of the run, whatever happened to the others. */
  lemma CreatedMeansBilled(states: seq<Schedule>, due: seq<SubscriptionId>, turns: seq<Turn>, kinds: seq<VisitKind>, k: nat)
    requires Sweep(states, due, turns, kinds) && k < |due| && kinds[k] == Create
    requires due[k] !in due[..k] && due[k] in states[0].subs
    ensures BilledInPeriod(states[|due|], due[k], states[0].subs[due[k]].start, states[0].subs[due[k]].end)
  {
    hide BilledInPeriod, PossibleTurn, AdvanceAndSeedNextDraft, BillPeriod;
    SweepReaches(states, due, turns, kinds, k, due[k]);
    VisitBills(states[k], due[k], turns[k]);
    SweepKeepsBilled(states, due, turns, kinds, k + 1, due[k], states[0].subs[due[k]].start, states[0].subs[due[k]].end);
  }
}
