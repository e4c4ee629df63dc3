/** How a subscription's periods follow each other: between restarts they tile the calendar, so no day is
    billed twice; a resume inside a billed period breaks this; a failed advance stops the subscription. */
module PeriodTiling {
  import opened Options
  import opened Calendar
  import opened BillingDates
  import opened BillingState
  import opened Subscriptions
  import opened SchedulerRuns

  // ---------------------------------------------------------------- n advances

  /** The start after `n` month steps, each from the one before. */
  function NthStart(origin: Day, n: nat): Day {
    if n == 0 then origin else MonthsLater(NthStart(origin, n - 1), 1)
  }

  lemma {:induction false} NthStartMonth(origin: Day, n: nat)
    ensures MonthIndex(NthStart(origin, n)) == MonthIndex(origin) + n
    ensures MinDay(origin.day, 28) <= NthStart(origin, n).day <= origin.day
    ensures n > 0 ==> NthStart(origin, n).day <= NthStart(origin, n - 1).day
  {
    if n > 0 { NthStartMonth(origin, n - 1); }
  }

  function Advanced(sc: Schedule, s: SubscriptionId, n: nat): (r: Schedule)
    requires s in sc.subs
    ensures s in r.subs && r.profiles == sc.profiles
    ensures r.subs[s].customer == sc.subs[s].customer
  {
    if n == 0 then sc else AdvanceBillingPeriod(Advanced(sc, s, n - 1), s)
  }

  lemma PeriodIsMonth(sc: Schedule, s: SubscriptionId)
    requires WellFormed(sc) && s in sc.subs
    ensures sc.subs[s].end == MonthsLater(sc.subs[s].start, 1)
  {
  }

  lemma OneAdvance(sc: Schedule, s: SubscriptionId)
    requires WellFormed(sc) && s in sc.subs
    ensures var sub, after := sc.subs[s], AdvanceBillingPeriod(sc, s).subs[s];
            && WellFormed(AdvanceBillingPeriod(sc, s))
            && after.start == sub.end && after.end == MonthsLater(sub.end, 1)
            && after.next == Some(DueFor(sc, sub.customer, sub.end))
            && MonthIndex(after.next.value) == MonthIndex(DueFor(sc, sub.customer, sub.start)) + 1
  {
    hide MonthsLater, DueDate;
    SubscriptionRowIsQuiet(sc, s, AdvanceBillingPeriod(sc, s).subs[s]);
  }

  lemma SameDue(sc: Schedule, other: Schedule, c: CustomerId, start: Day)
    requires sc.profiles == other.profiles
    ensures DueFor(sc, c, start) == DueFor(other, c, start)
  {
  }

  /** After n advances the start is n months later, on the same day when that is at most 28 and never on a
      later one; it is where the period before ended, and the due date is a month after the one before. */
  lemma {:induction false} AdvancesTile(sc: Schedule, s: SubscriptionId, n: nat)
    requires WellFormed(sc) && s in sc.subs
    ensures var first, last := sc.subs[s], Advanced(sc, s, n).subs[s];
            && WellFormed(Advanced(sc, s, n))
            && MonthIndex(last.start) == MonthIndex(first.start) + n
            && last.start == NthStart(first.start, n) && last.end == NthStart(first.start, n + 1)
            && (first.start.day <= 28 ==> last.start.day == first.start.day)
    ensures n > 0 ==>
              var before, last := Advanced(sc, s, n - 1).subs[s], Advanced(sc, s, n).subs[s];
              && last.start == before.end && last.start.day <= before.start.day
              && last.next == Some(DueFor(sc, last.customer, last.start))
              && MonthIndex(last.next.value) == MonthIndex(DueFor(sc, last.customer, before.start)) + 1
  {
    hide MonthsLater, AdvanceBillingPeriod, DueFor, DueDate, WellFormed, MonthIndex, LengthOf, Clamped, NextPeriod, ProfileOf;
    NthStartMonth(sc.subs[s].start, n);
    NthStartMonth(sc.subs[s].start, n + 1);
    if n == 0 {
      PeriodIsMonth(sc, s);
    } else {
      AdvancesTile(sc, s, n - 1);
      var before := Advanced(sc, s, n - 1);
      OneAdvance(before, s);
      SameDue(sc, before, sc.subs[s].customer, before.subs[s].start);
      SameDue(sc, before, sc.subs[s].customer, before.subs[s].end);
    }
  }

  // ---------------------------------------------------------------- histories between restarts

  /** The action resumes a paused subscription, which starts a period unrelated to the ones before. */
  predicate Restarts(sc: Schedule, a: Action, s: SubscriptionId) {
    || (a.Subscribe? && a.paused == Some(s))
    || (a.ChangeState? && a.s == s && a.to == Active && s in sc.subs && sc.subs[s].status == Paused)
  }

  ghost predicate NotRestarted(states: seq<Schedule>, actions: seq<Action>, s: SubscriptionId, c: nat, u: nat)
    requires |states| == |actions| + 1 && u < |states|
  {
    forall t :: c <= t < u ==> !Restarts(states[t], actions[t], s)
  }

  ghost predicate KeptOrAdvanced(sub: Subscription, after: Subscription) {
    || (after.start == sub.start && after.end == sub.end)
    || (after.start == sub.end && after.end == MonthsLater(sub.end, 1))
  }

  lemma AdvanceKeepsOrAdvances(sc: Schedule, i: InvoiceId, r: AdvanceResult, s: SubscriptionId)
    requires s in sc.subs
    ensures var after := AdvanceAndSeedNextDraft(sc, i, r);
            s in after.subs && KeptOrAdvanced(sc.subs[s], after.subs[s])
  {
    hide DueFor, MonthsLater, PeriodDraft, Before;
  }

  lemma SamePeriodIsKept(sub: Subscription, after: Subscription)
    requires after.start == sub.start && after.end == sub.end
    ensures KeptOrAdvanced(sub, after)
  {
  }

  lemma ChangeStateKeepsPeriod(sc: Schedule, z: SubscriptionId, to: SubscriptionStatus, today: Day, found: Option<InvoiceId>,
                               s: SubscriptionId)
    requires z in sc.subs && s in sc.subs && FoundCustomerDraft(sc, sc.subs[z].customer, found)
    requires !(z == s && to == Active && sc.subs[s].status == Paused)
    ensures s in UpdateState(sc, z, to, today, found).subs
    ensures KeptOrAdvanced(sc.subs[s], UpdateState(sc, z, to, today, found).subs[s])
  {
    hide MonthsLater;
  }

  lemma StepKeepsOrAdvances(sc: Schedule, a: Action, s: SubscriptionId)
    requires Possible(sc, a) && s in sc.subs && !Restarts(sc, a, s)
    ensures s in Act(sc, a).subs && KeptOrAdvanced(sc.subs[s], Act(sc, a).subs[s])
  {
    hide MonthsLater, DueFor, AdvanceAndSeedNextDraft, KeptOrAdvanced, FoundCustomerDraft, FoundOpenDraft, UpdateState,
         PeriodIsBilled, PeriodIsVoided, IsPausedOf;
    SamePeriodIsKept(sc.subs[s], sc.subs[s]);
    match a
    case Bill(z, _, turn) =>
      if Visit(sc, z, turn).1.Create? {
        AdvanceKeepsOrAdvances(BillPeriod(sc, z, turn.found, turn.newId, turn.bill.paid), turn.found.GetOr(turn.newId), turn.advance, s);
      }
    case Advance(i, advance) => AdvanceKeepsOrAdvances(sc, i, advance, s);
    case ChangeState(z, to, today, found) =>
      if z in sc.subs { ChangeStateKeepsPeriod(sc, z, to, today, found, s); }
    case _ =>
  }

  /** The number of steps that move the subscription's period. */
  ghost function Moves(states: seq<Schedule>, s: SubscriptionId, c: nat, u: nat): nat
    requires c <= u < |states|
    requires forall t :: c <= t <= u ==> s in states[t].subs
    decreases u
  {
    if u == c then 0
    else Moves(states, s, c, u - 1) + if states[u].subs[s].start == states[u - 1].subs[s].start then 0 else 1
  }

  lemma SubscriptionsAreKept(sc: Schedule, a: Action)
    requires Possible(sc, a)
    ensures sc.subs.Keys <= Act(sc, a).subs.Keys
  {
    hide Act, Possible, PeriodIsBilled, WellFormed;
    ActEffects(sc, a);
  }

  lemma {:induction false} SubscriptionStays(states: seq<Schedule>, actions: seq<Action>, s: SubscriptionId, c: nat, u: nat)
    requires History(states, actions) && c <= u < |states| && s in states[c].subs
    ensures |states| == |actions| + 1 && forall t :: c <= t <= u ==> s in states[t].subs
    decreases u
  {
    hide Act, Possible;
    if c < u {
      SubscriptionStays(states, actions, s, c, u - 1);
      SubscriptionsAreKept(states[u - 1], actions[u - 1]);
    }
  }

  /** Between restarts every move of a subscription is one month step from where it was. */
  lemma {:induction false} MovesTile(states: seq<Schedule>, actions: seq<Action>, s: SubscriptionId, c: nat, u: nat)
    requires History(states, actions) && c <= u < |states| && s in states[c].subs
    requires NotRestarted(states, actions, s, c, u)
    ensures forall t :: c <= t <= u ==> s in states[t].subs
    ensures var n := Moves(states, s, c, u);
            && states[u].subs[s].start == NthStart(states[c].subs[s].start, n)
            && states[u].subs[s].end == NthStart(states[c].subs[s].start, n + 1)
            && MonthIndex(states[u].subs[s].start) == MonthIndex(states[c].subs[s].start) + n
    decreases u
  {
    hide History, Act, Possible, Restarts, MonthsLater, MonthIndex, KeptOrAdvanced, NthStart;
    SubscriptionStays(states, actions, s, c, u);
    HistoryPeriod(states, actions, u, s);
    NthNext(states[c].subs[s].start, Moves(states, s, c, u));
    var origin, n := states[c].subs[s].start, Moves(states, s, c, u);
    if c < u {
      MovesTile(states, actions, s, c, u - 1);
      var m := Moves(states, s, c, u - 1);
      NextKeepsOrAdvances(states, actions, u - 1, s);
      OneMove(origin, m, states[u - 1].subs[s], states[u].subs[s]);
    }
    NthStartMonth(origin, n);
  }

  lemma NthNext(origin: Day, n: nat)
    ensures NthStart(origin, 0) == origin && NthStart(origin, n + 1) == MonthsLater(NthStart(origin, n), 1)
  {
  }

  lemma HistoryPeriod(states: seq<Schedule>, actions: seq<Action>, t: nat, s: SubscriptionId)
    requires History(states, actions) && t < |states| && s in states[t].subs
    ensures states[t].subs[s].end == MonthsLater(states[t].subs[s].start, 1)
  {
    HistoryIsSound(states, actions, t);
    hide History, Act, Possible, MonthsLater;
    PeriodIsMonth(states[t], s);
  }

  lemma NextKeepsOrAdvances(states: seq<Schedule>, actions: seq<Action>, t: nat, s: SubscriptionId)
    requires History(states, actions) && t < |actions| && s in states[t].subs && !Restarts(states[t], actions[t], s)
    ensures s in states[t + 1].subs && KeptOrAdvanced(states[t].subs[s], states[t + 1].subs[s])
  {
    hide Act, Possible;
    StepKeepsOrAdvances(states[t], actions[t], s);
  }

  lemma OneMove(origin: Day, m: nat, before: Subscription, after: Subscription)
    requires before.start == NthStart(origin, m) && before.end == NthStart(origin, m + 1) && KeptOrAdvanced(before, after)
    ensures after.start == NthStart(origin, if after.start == before.start then m else m + 1)
  {
    hide MonthsLater;
  }

  // ---------------------------------------------------------------- no day billed twice

  /** The day on which a restarted subscription begins its new period. */
  function RestartDay(a: Action): Day
    requires a.Subscribe? || a.ChangeState?
  {
    if a.Subscribe? then a.start else a.today
  }

  predicate Overlap(a: PeriodInvoice, b: PeriodInvoice) {
    Before(a.start, b.end) && Before(b.start, a.end)
  }

  /** Billed for the subscription, and not one of some earlier invoices. */
  predicate BilledSince(sc: Schedule, s: SubscriptionId, earlier: set<InvoiceId>, i: InvoiceId) {
    BilledFor(sc, s, i) && i !in earlier
  }

  /** A restart comes on or after the end of every period billed so far: the caller's guard. */
  ghost predicate RestartsClear(sc: Schedule, a: Action, s: SubscriptionId, earlier: set<InvoiceId>) {
    Restarts(sc, a, s) ==>
      forall i :: BilledSince(sc, s, earlier, i) ==> !Before(RestartDay(a), sc.invoices[i].end)
  }

  /** Every billed period is over when the current one begins, or is the current one. */
  ghost predicate BilledAreOver(sc: Schedule, s: SubscriptionId, earlier: set<InvoiceId>) {
    forall i :: BilledSince(sc, s, earlier, i) ==>
      && s in sc.subs
      && (!Before(sc.subs[s].start, sc.invoices[i].end) || OfPeriod(sc.invoices[i], s, sc.subs[s].start, sc.subs[s].end))
  }

  ghost predicate NoneOverlap(sc: Schedule, s: SubscriptionId, earlier: set<InvoiceId>) {
    forall i, j :: BilledSince(sc, s, earlier, i) && BilledSince(sc, s, earlier, j) && i != j ==>
      !Overlap(sc.invoices[i], sc.invoices[j])
  }

  lemma MonthIsLater(d: Day)
    ensures Before(d, MonthsLater(d, 1))
  {
  }

  lemma RestartBegins(sc: Schedule, a: Action, s: SubscriptionId)
    requires Possible(sc, a) && Restarts(sc, a, s)
    ensures s in Act(sc, a).subs && Act(sc, a).subs[s].start == RestartDay(a)
    ensures Act(sc, a).subs[s].end == MonthsLater(RestartDay(a), 1)
    ensures forall i :: BilledFor(Act(sc, a), s, i) ==> BilledFor(sc, s, i) && SamePeriod(Act(sc, a).invoices[i], sc.invoices[i])
  {
    hide MonthsLater, DueFor, PeriodIsBilled, WellFormed;
    ActEffects(sc, a);
  }

  /** What is billed afterwards was billed before, or is of the current period, which had no billed invoice. */
  lemma BilledByStep(sc: Schedule, a: Action, s: SubscriptionId, i: InvoiceId)
    requires Possible(sc, a) && BilledFor(Act(sc, a), s, i)
    ensures var after := Act(sc, a).invoices[i];
            || (BilledFor(sc, s, i) && SamePeriod(after, sc.invoices[i]))
            || (a.Bill? && a.s == s && s in sc.subs && i == a.turn.found.GetOr(a.turn.newId)
                && OfPeriod(after, s, sc.subs[s].start, sc.subs[s].end) && !PeriodIsBilled(sc, s))
  {
    hide Act, Possible, PeriodIsBilled, WellFormed;
    ActEffects(sc, a);
  }

  lemma BilledIsNotCurrent(sc: Schedule, s: SubscriptionId, i: InvoiceId)
    requires s in sc.subs && !PeriodIsBilled(sc, s) && BilledFor(sc, s, i)
    ensures !OfPeriod(sc.invoices[i], s, sc.subs[s].start, sc.subs[s].end)
  {
    assert InPeriod(sc, s, i) <==> OfPeriod(sc.invoices[i], s, sc.subs[s].start, sc.subs[s].end);
  }

  lemma StepKeepsOver(sc: Schedule, a: Action, s: SubscriptionId, earlier: set<InvoiceId>)
    requires Possible(sc, a) && WellFormed(sc) && BilledAreOver(sc, s, earlier) && RestartsClear(sc, a, s, earlier)
    ensures BilledAreOver(Act(sc, a), s, earlier)
  {
    var after := Act(sc, a);
    if Restarts(sc, a, s) {
      RestartBegins(sc, a, s);
    } else {
      hide Act, Possible, Restarts, MonthsLater, PeriodIsBilled, IsBilled;
      forall i | BilledSince(after, s, earlier, i)
        ensures s in after.subs
        ensures !Before(after.subs[s].start, after.invoices[i].end)
                || OfPeriod(after.invoices[i], s, after.subs[s].start, after.subs[s].end)
      {
        BilledByStep(sc, a, s, i);
        assert s in sc.subs;
        StepKeepsOrAdvances(sc, a, s);
        PeriodIsMonth(sc, s);
        MonthIsLater(sc.subs[s].start);
      }
    }
  }

  lemma StepKeepsApart(sc: Schedule, a: Action, s: SubscriptionId, earlier: set<InvoiceId>)
    requires Possible(sc, a) && BilledAreOver(sc, s, earlier) && NoneOverlap(sc, s, earlier)
    ensures NoneOverlap(Act(sc, a), s, earlier)
  {
    hide Act, Possible, PeriodIsBilled, IsBilled, MonthsLater;
    var after := Act(sc, a);
    forall i, j | BilledSince(after, s, earlier, i) && BilledSince(after, s, earlier, j) && i != j
      ensures !Overlap(after.invoices[i], after.invoices[j])
    {
      BilledByStep(sc, a, s, i);
      BilledByStep(sc, a, s, j);
      if BilledFor(sc, s, i) && SamePeriod(after.invoices[i], sc.invoices[i]) {
        if BilledFor(sc, s, j) && SamePeriod(after.invoices[j], sc.invoices[j]) {
          assert BilledSince(sc, s, earlier, i) && BilledSince(sc, s, earlier, j);
        } else {
          BilledIsNotCurrent(sc, s, i);
        }
      } else if BilledFor(sc, s, j) {
        BilledIsNotCurrent(sc, s, j);
      }
    }
  }

  lemma {:induction false} BilledStayApart(states: seq<Schedule>, actions: seq<Action>, s: SubscriptionId, c: nat, u: nat,
                                           earlier: set<InvoiceId>)
    requires History(states, actions) && c <= u < |states|
    requires forall i :: BilledFor(states[c], s, i) ==> i in earlier
    requires forall t :: c <= t < u ==> RestartsClear(states[t], actions[t], s, earlier)
    ensures BilledAreOver(states[u], s, earlier) && NoneOverlap(states[u], s, earlier)
    decreases u
  {
    hide Act, Possible, BilledAreOver, NoneOverlap, RestartsClear, BilledFor;
    if c == u {
      NothingBilledSince(states[c], s, earlier);
    } else {
      BilledStayApart(states, actions, s, c, u - 1, earlier);
      HistoryIsSound(states, actions, u - 1);
      StepKeepsOver(states[u - 1], actions[u - 1], s, earlier);
      StepKeepsApart(states[u - 1], actions[u - 1], s, earlier);
    }
  }

  lemma NothingBilledSince(sc: Schedule, s: SubscriptionId, earlier: set<InvoiceId>)
    requires forall i :: BilledFor(sc, s, i) ==> i in earlier
    ensures BilledAreOver(sc, s, earlier) && NoneOverlap(sc, s, earlier)
  {
  }

  function BilledIds(sc: Schedule, s: SubscriptionId): set<InvoiceId> {
    set i | i in sc.invoices && BilledFor(sc, s, i)
  }

  /** No day is billed twice: whatever failed advances, replays, pauses, cancels and voids there were, two
      invoices of a subscription billed since some point have periods that do not overlap, when every restart
      since then came on or after the end of the periods billed since then. */
  lemma BilledPeriodsDoNotOverlap(states: seq<Schedule>, actions: seq<Action>, s: SubscriptionId, c: nat, u: nat,
                                  i: InvoiceId, j: InvoiceId)
    requires History(states, actions) && c <= u < |states|
    requires forall t :: c <= t < u ==> RestartsClear(states[t], actions[t], s, BilledIds(states[c], s))
    requires BilledSince(states[u], s, BilledIds(states[c], s), i) && BilledSince(states[u], s, BilledIds(states[c], s), j)
    requires i != j
    ensures var a, b := states[u].invoices[i], states[u].invoices[j];
            !Before(b.start, a.end) || !Before(a.start, b.end)
  {
    hide History, BilledAreOver, RestartsClear;
    BilledStayApart(states, actions, s, c, u, BilledIds(states[c], s));
  }

  /** The guard is needed: the first period billed after a restart, before it moves, overlaps another billed
      one exactly when that one begins before it ends and ends after the restart, so always when the restart
      is inside that one. */
  lemma FirstPeriodAfterRestart(states: seq<Schedule>, actions: seq<Action>, s: SubscriptionId, t: nat, v: nat,
                                i: InvoiceId, j: InvoiceId)
    requires History(states, actions) && t < v < |actions| && Restarts(states[t], actions[t], s)
    requires s in states[v].subs && states[v].subs[s].start == states[t + 1].subs[s].start
    requires BilledFor(states[v + 1], s, j) && !BilledFor(states[v], s, j)
    requires BilledFor(states[v + 1], s, i) && i != j
    ensures var d, a, b := RestartDay(actions[t]), states[v + 1].invoices[i], states[v + 1].invoices[j];
            && (Overlap(a, b) <==> Before(a.start, MonthsLater(d, 1)) && Before(d, a.end))
            && (!Before(d, a.start) && Before(d, a.end) ==> Overlap(a, b))
  {
    hide Act, Possible, MonthsLater, PeriodIsBilled, IsBilled;
    RestartBegins(states[t], actions[t], s);
    BilledByStep(states[v], actions[v], s, j);
    HistoryPeriod(states, actions, v, s);
    MonthIsLater(RestartDay(actions[t]));
  }

  const JAN_1: Day := Date(2026, 0, 1)
  const JAN_15: Day := Date(2026, 0, 15)
  const FEB_1: Day := Date(2026, 1, 1)
  const FEB_15: Day := Date(2026, 1, 15)
  const MAR_1: Day := Date(2026, 2, 1)

  /** A history in which January is billed, the subscription pauses, resumes on the 15th and is billed. */
  function ResumedState(k: nat): Schedule {
    var january := Subscription(0, Active, JAN_1, FEB_1, Some(JAN_1));
    var february := Subscription(0, Active, FEB_1, MAR_1, Some(FEB_1));
    var resumed := Subscription(0, Active, JAN_15, FEB_15, Some(FEB_15));
    var billed := PeriodInvoice(Some(0), 0, Recurring, Finalized, JAN_1, FEB_1, JAN_1);
    var draft := PeriodInvoice(Some(0), 0, Recurring, Draft, FEB_1, MAR_1, FEB_1);
    var voided := draft.(status := InvoiceStatus.Void);
    var again := PeriodInvoice(Some(0), 0, Recurring, Finalized, JAN_15, FEB_15, JAN_1);
    var profiles := map[0 := Profile(1, true)];
    if k == 0 then Schedule(profiles, map[], map[])
    else if k == 1 then Schedule(profiles, map[0 := january], map[])
    else if k == 2 then Schedule(profiles, map[0 := february], map[0 := billed, 1 := draft])
    else if k == 3 then Schedule(profiles, map[0 := february.(status := Paused, next := None)], map[0 := billed, 1 := voided])
    else if k == 4 then Schedule(profiles, map[0 := resumed], map[0 := billed, 1 := voided])
    else Schedule(profiles, map[0 := resumed], map[0 := billed, 1 := voided, 2 := again])
  }

  function ResumedAction(k: nat): Action {
    if k == 0 then CreateSubscription(0, Subscription(0, Active, JAN_1, FEB_1, Some(JAN_1)))
    else if k == 1 then Bill(0, JAN_1, Turn(None, 0, Billed(false, true), Completed(1)))
    else if k == 2 then ChangeState(0, Paused, JAN_15, Some(1))
    else if k == 3 then ChangeState(0, Active, JAN_15, None)
    else Bill(0, FEB_15, Turn(None, 2, Billed(false, true), ThrewBefore))
  }

  lemma ResumedMonths()
    ensures MonthsLater(JAN_1, 1) == FEB_1 && MonthsLater(FEB_1, 1) == MAR_1 && MonthsLater(JAN_15, 1) == FEB_15
    ensures forall sc: Schedule :: 0 in sc.profiles && sc.profiles[0] == Profile(1, true) ==>
              DueFor(sc, 0, JAN_1) == JAN_1 && DueFor(sc, 0, FEB_1) == FEB_1 && DueFor(sc, 0, JAN_15) == JAN_1
  {
  }

  lemma ResumedStepBill()
    ensures Possible(ResumedState(1), ResumedAction(1)) && Act(ResumedState(1), ResumedAction(1)) == ResumedState(2)
  {
    hide MonthsLater, DueFor;
    ResumedMonths();
    var sc := ResumedState(1);
    assert !PeriodIsBilled(sc, 0) && !PeriodIsVoided(sc, 0);
    var billed := BillPeriod(sc, 0, None, 0, false);
    assert billed.invoices == map[0 := ResumedState(2).invoices[0]];
    var advanced := AdvanceBillingPeriod(billed, 0);
    assert advanced.subs == ResumedState(2).subs;
    assert AdvanceAndSeedNextDraft(billed, 0, Completed(1)) == SeedDraft(advanced, 0, 1);
  }

  lemma ResumedStepBillAgain()
    ensures Possible(ResumedState(4), ResumedAction(4)) && Act(ResumedState(4), ResumedAction(4)) == ResumedState(5)
  {
    hide MonthsLater, DueFor;
    ResumedMonths();
    var sc := ResumedState(4);
    assert !PeriodIsBilled(sc, 0) && !PeriodIsVoided(sc, 0);
  }

  lemma ResumedStep(k: nat)
    requires k in {0, 2, 3}
    ensures Possible(ResumedState(k), ResumedAction(k)) && Act(ResumedState(k), ResumedAction(k)) == ResumedState(k + 1)
  {
    hide MonthsLater, DueFor;
    ResumedMonths();
  }

  /** The condition cannot be dropped: resumed on the 15th of a month already billed, a subscription is
      billed from the 15th again. */
  lemma ResumeBillsDaysAgain() returns (states: seq<Schedule>, actions: seq<Action>)
    ensures History(states, actions)
    ensures var last := states[|states| - 1];
            && BilledFor(last, 0, 0) && OfPeriod(last.invoices[0], 0, JAN_1, FEB_1)
            && BilledFor(last, 0, 2) && OfPeriod(last.invoices[2], 0, JAN_15, FEB_15)
            && Overlap(last.invoices[0], last.invoices[2])
  {
    states, actions := seq(6, (k: nat) => ResumedState(k)), seq(5, (k: nat) => ResumedAction(k));
    hide Act, Possible;
    forall t | 0 <= t < 5 ensures Possible(states[t], actions[t]) && states[t + 1] == Act(states[t], actions[t]) {
      hide ResumedState, ResumedAction;
      if t == 1 { ResumedStepBill(); } else if t == 4 { ResumedStepBillAgain(); } else { ResumedStep(t); }
    }
  }

  // ---------------------------------------------------------------- failed advances

  lemma AdvanceMovesPeriod(sc: Schedule, i: InvoiceId, r: AdvanceResult, s: SubscriptionId)
    requires s in sc.subs && i in sc.invoices && sc.invoices[i].subscription == Some(s) && sc.invoices[i].kind == Recurring
    requires sc.invoices[i].start == sc.subs[s].start && sc.subs[s].end == MonthsLater(sc.subs[s].start, 1)
    ensures var after := AdvanceAndSeedNextDraft(sc, i, r);
            && s in after.subs
            && (after.subs[s].start != sc.subs[s].start <==> sc.subs[s].customer in sc.profiles && !r.ThrewBefore?)
            && (after.subs[s].start == sc.subs[s].start ==> after == sc)
  {
    MonthIsLater(sc.subs[s].start);
    hide DueFor, MonthsLater, PeriodDraft;
  }

  /** A turn of the scheduler moves the subscription on exactly when it does not skip it, bills it and publishes
      the event, the customer is known and the advance does not fail first. A turn that bills and does not move
      it on leaves its current period billed. */
  lemma TurnMoves(sc: Schedule, s: SubscriptionId, turn: Turn)
    requires WellFormed(sc) && s in sc.subs && PossibleTurn(sc, s, turn)
    ensures var after := Visit(sc, s, turn).0;
            && s in after.subs
            && (after.subs[s].start != sc.subs[s].start
                <==> !SkipsPeriod(sc, s, turn.found) && turn.bill.Billed? && turn.bill.published
                     && sc.subs[s].customer in sc.profiles && !turn.advance.ThrewBefore?)
            && (after.subs[s].start == sc.subs[s].start && !SkipsPeriod(sc, s, turn.found) && turn.bill.Billed?
                ==> PeriodIsBilled(after, s) && after.subs[s] == sc.subs[s])
  {
    hide DueFor, MonthsLater, SkipsPeriod, AdvanceAndSeedNextDraft;
    if !SkipsPeriod(sc, s, turn.found) && turn.bill.Billed? {
      var billed, i := BillPeriod(sc, s, turn.found, turn.newId, turn.bill.paid), turn.found.GetOr(turn.newId);
      assert InPeriod(billed, s, i) && IsBilled(billed.invoices[i]) && billed.invoices[i].kind == Recurring;
      assert billed.subs == sc.subs && billed.profiles == sc.profiles;
      hide BillPeriod, PeriodIsBilled;
      AdvanceMovesPeriod(billed, i, turn.advance, s);
      assert PeriodIsBilled(billed, s) by { ShowsBilled(billed, s, i); }
    }
  }

  lemma ShowsBilled(sc: Schedule, s: SubscriptionId, i: InvoiceId)
    requires s in sc.subs && InPeriod(sc, s, i) && IsBilled(sc.invoices[i])
    ensures PeriodIsBilled(sc, s)
  {
  }

  lemma VisitLeavesOthers(sc: Schedule, z: SubscriptionId, turn: Turn, s: SubscriptionId)
    requires z in sc.subs && PossibleTurn(sc, z, turn) && s in sc.subs && s != z
    ensures var after := Visit(sc, z, turn).0;
            && s in after.subs && after.subs[s] == sc.subs[s]
            && forall i :: i in sc.invoices && sc.invoices[i].subscription == Some(s) ==>
                 i in after.invoices && after.invoices[i] == sc.invoices[i]
  {
    hide DueFor, MonthsLater, Before, PeriodIsBilled, PeriodIsVoided;
  }

  lemma BilledPeriodIsSkipped(sc: Schedule, s: SubscriptionId, turn: Turn)
    requires s in sc.subs && PossibleTurn(sc, s, turn) && PeriodIsBilled(sc, s)
    ensures Visit(sc, s, turn) == (sc, Skip)
  {
  }

  lemma OthersStayBilled(sc: Schedule, z: SubscriptionId, turn: Turn, s: SubscriptionId)
    requires z in sc.subs && PossibleTurn(sc, z, turn) && s in sc.subs && s != z && PeriodIsBilled(sc, s)
    ensures var after := Visit(sc, z, turn).0;
            s in after.subs && after.subs[s] == sc.subs[s] && PeriodIsBilled(after, s)
  {
    VisitLeavesOthers(sc, z, turn, s);
    hide Visit, PossibleTurn;
  }

  /** A subscription whose current period is billed, because the advance after billing failed, is skipped by
      every later scheduler run: however many there are, they leave it as it is. */
  lemma {:induction false} UnadvancedIsStuck(states: seq<Schedule>, actions: seq<Action>, s: SubscriptionId, c: nat, u: nat)
    requires History(states, actions) && c <= u < |states|
    requires forall t :: c <= t < u ==> actions[t].Bill?
    requires s in states[c].subs && PeriodIsBilled(states[c], s)
    ensures s in states[u].subs && states[u].subs[s] == states[c].subs[s] && PeriodIsBilled(states[u], s)
    decreases u
  {
    hide Visit, PossibleTurn, PeriodIsBilled, IsDue;
    if c < u {
      UnadvancedIsStuck(states, actions, s, c, u - 1);
      var sc, turn := states[u - 1], actions[u - 1].turn;
      var z := actions[u - 1].s;
      if z == s {
        BilledPeriodIsSkipped(sc, s, turn);
      } else {
        OthersStayBilled(sc, z, turn, s);
      }
    }
  }

  /** A history in which the advance after billing January fails; in February the subscription is due still. */
  function StuckState(k: nat): Schedule {
    if k <= 1 then ResumedState(k)
    else
      var billed := PeriodInvoice(Some(0), 0, Recurring, Finalized, JAN_1, FEB_1, JAN_1);
      ResumedState(1).(invoices := map[0 := billed])
  }

  function StuckAction(k: nat): Action {
    if k == 0 then ResumedAction(0)
    else if k == 1 then Bill(0, JAN_1, Turn(None, 0, Billed(false, true), ThrewBefore))
    else Bill(0, FEB_1, Turn(None, 1, Billed(false, true), Completed(2)))
  }

  lemma StuckStep(k: nat)
    requires 1 <= k <= 2
    ensures Possible(StuckState(k), StuckAction(k)) && Act(StuckState(k), StuckAction(k)) == StuckState(k + 1)
    ensures k == 2 ==> PeriodIsBilled(StuckState(2), 0)
  {
    hide MonthsLater, DueFor;
    ResumedMonths();
    var sc := StuckState(k);
    if k == 1 {
      assert !PeriodIsBilled(sc, 0) && !PeriodIsVoided(sc, 0);
    } else {
      assert InPeriod(sc, 0, 0) && IsBilled(sc.invoices[0]);
    }
  }

  /** The state is reached: billed for January, its advance failed, the subscription is not billed for February
      though it is due. */
  lemma StuckIsReached() returns (states: seq<Schedule>, actions: seq<Action>)
    ensures History(states, actions) && |actions| == 3 && actions[1].Bill? && actions[1].turn.advance.ThrewBefore?
    ensures 0 in states[2].subs && PeriodIsBilled(states[2], 0) && IsDue(states[2].subs[0], FEB_1)
    ensures actions[2].Bill? && actions[2].s == 0 && actions[2].today == FEB_1 && states[3] == states[2]
  {
    states, actions := seq(4, (k: nat) => StuckState(k)), seq(3, (k: nat) => StuckAction(k));
    StuckStep(2);
    hide Act, Possible;
    forall t | 0 <= t < 3 ensures Possible(states[t], actions[t]) && states[t + 1] == Act(states[t], actions[t]) {
      if t == 0 { ResumedStep(0); } else { StuckStep(t); }
    }
  }
}
