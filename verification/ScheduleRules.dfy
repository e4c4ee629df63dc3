/** What advances, subscription events, status changes and scheduler turns come to, told from the profiles, the rows and
    the call alone. */
module ScheduleRules {
  import opened Options
  import opened Calendar
  import opened BillingDates
  import opened BillingState
  import opened Subscriptions

  // ---------------------------------------------------------------- due dates

  function Smaller(a: int, b: int): int { if a < b then a else b }

  /** The due date of a customer's period. Its month is the start's, one earlier for charge days 28 to 31, one later for a
      customer who does not pay in advance; its day is the charge day, or the last one of a shorter month, and for a
      postpaid customer no later than the last one of the month before either. An unknown customer has the 15th, prepaid. */
  predicate DueIs(profiles: map<CustomerId, Profile>, c: CustomerId, start: Day, due: Day) {
    var day, prepaid := if c in profiles then profiles[c].chargeDay else 15, c in profiles ==> profiles[c].prepaid;
    var month := MonthIndex(start) - (if day >= 28 then 1 else 0) + (if prepaid then 0 else 1);
    && MonthIndex(due) == month
    && due.day == Smaller(if prepaid then day else Smaller(day, LengthOf(month - 1)), LengthOf(month))
  }

  lemma DueDateIs(sc: Schedule, c: CustomerId, start: Day)
    ensures DueIs(sc.profiles, c, start, DueFor(sc, c, start))
  {
  }

  /** A postpaid date is the charge day clamped to its month exactly when the month before is long enough for that:
      the 31st of March is not, after February. */
  lemma PostpaidDayIsClamped(profiles: map<CustomerId, Profile>, c: CustomerId, start: Day, due: Day)
    requires c in profiles && !profiles[c].prepaid && DueIs(profiles, c, start, due)
    ensures var clamped := Smaller(profiles[c].chargeDay, LengthOf(MonthIndex(due)));
            due.day == clamped <==> clamped <= LengthOf(MonthIndex(due) - 1)
  {
  }

  /** Billed after the period that starts on the 1st of March, a customer charged on the 31st is charged on the 28th. */
  lemma PostpaidClampsTwice(sc: Schedule, c: CustomerId)
    requires c in sc.profiles && sc.profiles[c] == Profile(31, false)
    ensures DueFor(sc, c, Date(2026, 2, 1)) == Date(2026, 2, 28)
  {
  }

  /** A month step: the same day of the next month, or its last one. */
  predicate MonthAfter(d: Day, later: Day) {
    MonthIndex(later) == MonthIndex(d) + 1 && later.day == Smaller(d.day, LengthOf(MonthIndex(d) + 1))
  }

  lemma MonthStepIs(d: Day)
    ensures MonthAfter(d, MonthsLater(d, 1))
  {
  }

  // ---------------------------------------------------------------- advances

  /** A recurring draft of the period. */
  predicate DraftOf(inv: PeriodInvoice, s: SubscriptionId, start: Day, end: Day) {
    inv.subscription == Some(s) && inv.start == start && inv.end == end && inv.status == Draft && inv.kind == Recurring
  }

  /** Advancing for an invoice moves its subscription to the period after the current one, with the due date of that
      period, and gives the period a draft of the same date unless it has one; not for an invoice that is not recurring,
      has no known subscription and customer, or starts before the subscription's period. */
  lemma AdvancedFor(sc: Schedule, i: InvoiceId, r: AdvanceResult) returns (end: Day, due: Day)
    ensures var after := AdvanceAndSeedNextDraft(sc, i, r);
            if i !in sc.invoices || sc.invoices[i].kind != Recurring || sc.invoices[i].subscription.None?
               || sc.invoices[i].subscription.value !in sc.subs || r.ThrewBefore?
            then after == sc
            else
              var s := sc.invoices[i].subscription.value;
              var sub := sc.subs[s];
              if Before(sc.invoices[i].start, sub.start) || sub.customer !in sc.profiles then after == sc
              else
                && MonthAfter(sub.end, end) && DueIs(sc.profiles, sub.customer, sub.end, due)
                && after.profiles == sc.profiles
                && after.subs == sc.subs[s := sub.(start := sub.end, end := end, next := Some(due))]
                && after.invoices
                   == if r.ThrewAfter? || exists d :: d in sc.invoices && DraftOf(sc.invoices[d], s, sub.end, end) then sc.invoices
                      else sc.invoices[r.draft := PeriodInvoice(Some(s), sub.customer, Recurring, Draft, sub.end, end, due)]
  {
    end, due := Date(1970, 0, 1), Date(1970, 0, 1);
    if i in sc.invoices && sc.invoices[i].subscription.Some? && sc.invoices[i].subscription.value in sc.subs {
      var s := sc.invoices[i].subscription.value;
      var sub := sc.subs[s];
      end, due := MonthsLater(sub.end, 1), DueFor(sc, sub.customer, sub.end);
      MonthStepIs(sub.end);
      DueDateIs(sc, sub.customer, sub.end);
      DuesAreProfiles(sc, AdvanceBillingPeriod(sc, s), sub.customer, sub.end);
      PeriodDraftsAre(sc, s, end, due);
      hide MonthsLater, DueFor, DueIs, MonthAfter, Before, PeriodDraft, DraftOf;
    }
  }

  lemma DuesAreProfiles(sc: Schedule, other: Schedule, c: CustomerId, start: Day)
    requires sc.profiles == other.profiles
    ensures DueFor(sc, c, start) == DueFor(other, c, start)
  {
  }

  lemma PeriodDraftsAre(sc: Schedule, s: SubscriptionId, end: Day, due: Day)
    requires s in sc.subs && end == MonthsLater(sc.subs[s].end, 1) && due == DueFor(sc, sc.subs[s].customer, sc.subs[s].end)
    ensures var advanced := AdvanceBillingPeriod(sc, s);
            (exists d :: d in advanced.invoices && PeriodDraft(advanced, s, d))
            <==> exists d :: d in sc.invoices && DraftOf(sc.invoices[d], s, sc.subs[s].end, end)
  {
    hide MonthsLater, DueFor;
    var advanced := AdvanceBillingPeriod(sc, s);
    assert forall d :: d in sc.invoices ==> (PeriodDraft(advanced, s, d) <==> DraftOf(sc.invoices[d], s, sc.subs[s].end, end));
  }

  // ---------------------------------------------------------------- subscription events and status changes

  /** A subscription event starts a period on its day for the paused subscription of the customer, or a new one, active
      and with the due date of that period; and gives it a draft of that date unless the open one found is its own.
      Another open one makes room: the draft found is voided. */
  lemma Subscribed(sc: Schedule, c: CustomerId, paused: Option<SubscriptionId>, newSub: SubscriptionId, start: Day,
                   open: Option<InvoiceId>, dropped: Option<InvoiceId>, draft: InvoiceId) returns (end: Day, due: Day)
    requires paused.Some? ==> IsPausedOf(sc, c, paused.value)
    requires open.Some? ==> open.value in sc.invoices
    requires dropped.Some? ==> dropped.value in sc.invoices
    ensures MonthAfter(start, end) && DueIs(sc.profiles, c, start, due)
    ensures var after := SubscribeFromEvent(sc, c, paused, newSub, start, open, dropped, draft);
            var s := if paused.Some? then paused.value else newSub;
            && after.profiles == sc.profiles
            && after.subs == sc.subs[s := Subscription(c, Active, start, end, Some(due))]
            && after.invoices
               == if open.Some? && sc.invoices[open.value].subscription == Some(s) then sc.invoices
                  else (if open.Some? && dropped.Some? then
                          sc.invoices[dropped.value := sc.invoices[dropped.value].(status := InvoiceStatus.Void)]
                        else sc.invoices)
                       [draft := PeriodInvoice(Some(s), c, Recurring, Draft, start, end, due)]
  {
    end, due := MonthsLater(start, 1), DueFor(sc, c, start);
    MonthStepIs(start);
    DueDateIs(sc, c, start);
    var s := paused.GetOr(newSub);
    var subscribed := sc.(subs := sc.subs[s := Subscription(c, Active, start, end, Some(due))]);
    DuesAreProfiles(sc, subscribed, c, start);
    DuesAreProfiles(sc, DropDraft(subscribed, dropped), c, start);
    hide MonthsLater, DueFor, DueIs, MonthAfter;
  }

  /** The transitions there are. */
  predicate MayBecome(from: SubscriptionStatus, to: SubscriptionStatus) {
    || (from == Awaiting && to == Active)
    || (from == Active && to in {Paused, Canceled, PastDue})
    || (from == Paused && to in {Active, Canceled})
    || (from == PastDue && to in {Active, Canceled})
  }

  /** Pausing and cancelling end the billing and void the draft found; a resume starts a period on its day, to be billed at
      its end, and leaves the drafts; other transitions only change the status, and one that there is not changes nothing. */
  lemma StatusChanged(sc: Schedule, s: SubscriptionId, to: SubscriptionStatus, today: Day, found: Option<InvoiceId>)
    returns (end: Day)
    requires s in sc.subs && (found.Some? ==> found.value in sc.invoices)
    ensures var after, sub := UpdateState(sc, s, to, today, found), sc.subs[s];
            if !MayBecome(sub.status, to) then after == sc
            else if to == Paused || to == Canceled then
              after == sc.(
                subs := sc.subs[s := sub.(status := to, next := None)],
                invoices := if found.None? then sc.invoices
                            else sc.invoices[found.value := sc.invoices[found.value].(status := InvoiceStatus.Void)])
            else if sub.status == Paused then
              MonthAfter(today, end)
              && after == sc.(subs := sc.subs[s := sub.(status := Active, start := today, end := end, next := Some(end))])
            else after == sc.(subs := sc.subs[s := sub.(status := to)])
  {
    end := MonthsLater(today, 1);
    MonthStepIs(today);
    hide MonthsLater, MonthAfter;
  }

  // ---------------------------------------------------------------- scheduler turns

  predicate HasOfStatus(sc: Schedule, s: SubscriptionId, start: Day, end: Day, status: InvoiceStatus) {
    exists i :: i in sc.invoices && sc.invoices[i].subscription == Some(s) && sc.invoices[i].start == start
                && sc.invoices[i].end == end && sc.invoices[i].status == status
  }

  /** A subscription is due exactly when it is active and the day of its next billing has come. */
  lemma DueWhen(sub: Subscription, today: Day)
    ensures IsDue(sub, today) <==> sub.status == Active && sub.next.Some? && DayNumber(sub.next.value) <= DayNumber(today)
  {
    if sub.next.Some? { OrderIsDayNumber(today, sub.next.value); }
    hide DayNumber, Before;
  }

  /** A period is skipped exactly when it has a finalized or paid invoice, or a void one and no recurring draft. */
  lemma SkippedWhen(sc: Schedule, s: SubscriptionId, found: Option<InvoiceId>)
    requires s in sc.subs && FoundPeriodDraft(sc, s, found)
    ensures found.Some? ==> found.value in sc.invoices && DraftOf(sc.invoices[found.value], s, sc.subs[s].start, sc.subs[s].end)
    ensures var start, end := sc.subs[s].start, sc.subs[s].end;
            SkipsPeriod(sc, s, found)
            <==> || HasOfStatus(sc, s, start, end, Finalized) || HasOfStatus(sc, s, start, end, InvoiceStatus.Paid)
                 || (HasOfStatus(sc, s, start, end, InvoiceStatus.Void)
                     && !exists i :: i in sc.invoices && DraftOf(sc.invoices[i], s, start, end))
  {
    var start, end := sc.subs[s].start, sc.subs[s].end;
    if PeriodIsBilled(sc, s) {
      var i :| i in sc.invoices && InPeriod(sc, s, i) && IsBilled(sc.invoices[i]);
      assert HasOfStatus(sc, s, start, end, sc.invoices[i].status);
    }
    if HasOfStatus(sc, s, start, end, Finalized) {
      var i :| i in sc.invoices && sc.invoices[i].subscription == Some(s) && sc.invoices[i].start == start
               && sc.invoices[i].end == end && sc.invoices[i].status == Finalized;
      assert InPeriod(sc, s, i) && IsBilled(sc.invoices[i]);
    }
    if HasOfStatus(sc, s, start, end, InvoiceStatus.Paid) {
      var i :| i in sc.invoices && sc.invoices[i].subscription == Some(s) && sc.invoices[i].start == start
               && sc.invoices[i].end == end && sc.invoices[i].status == InvoiceStatus.Paid;
      assert InPeriod(sc, s, i) && IsBilled(sc.invoices[i]);
    }
    VoidedWhen(sc, s);
    assert forall i :: i in sc.invoices ==> (PeriodDraft(sc, s, i) <==> DraftOf(sc.invoices[i], s, start, end));
    if found.Some? { assert PeriodDraft(sc, s, found.value); }
  }

  lemma VoidedWhen(sc: Schedule, s: SubscriptionId)
    requires s in sc.subs
    ensures PeriodIsVoided(sc, s) <==> HasOfStatus(sc, s, sc.subs[s].start, sc.subs[s].end, InvoiceStatus.Void)
  {
    assert forall i :: i in sc.invoices ==>
      (InPeriod(sc, s, i) <==> sc.invoices[i].subscription == Some(s) && sc.invoices[i].start == sc.subs[s].start
                               && sc.invoices[i].end == sc.subs[s].end);
  }

  /** A turn that does not skip bills the draft found, or a new invoice of the period, finalized or paid, unless the billing
      aborts; and advances for it when the event gets out. Only then does it count as created. */
  lemma TurnTaken(sc: Schedule, s: SubscriptionId, turn: Turn) returns (billed: Schedule, due: Day)
    requires s in sc.subs && PossibleTurn(sc, s, turn)
    ensures var status := if turn.bill.Billed? && turn.bill.paid then InvoiceStatus.Paid else Finalized;
            if SkipsPeriod(sc, s, turn.found) then Visit(sc, s, turn) == (sc, Skip)
            else if turn.bill.Aborted? then Visit(sc, s, turn) == (sc, Fail)
            else
              && DueIs(sc.profiles, sc.subs[s].customer, sc.subs[s].start, due)
              && billed == sc.(invoices :=
                   if turn.found.Some? then sc.invoices[turn.found.value := sc.invoices[turn.found.value].(status := status)]
                   else sc.invoices[turn.newId := PeriodInvoice(Some(s), sc.subs[s].customer, Recurring, status,
                                                                sc.subs[s].start, sc.subs[s].end, due)])
              && Visit(sc, s, turn)
                 == if !turn.bill.published then (billed, Fail)
                    else (AdvanceAndSeedNextDraft(billed, if turn.found.Some? then turn.found.value else turn.newId, turn.advance), Create)
  {
    due := DueFor(sc, sc.subs[s].customer, sc.subs[s].start);
    DueDateIs(sc, sc.subs[s].customer, sc.subs[s].start);
    billed := if turn.bill.Billed? then BillPeriod(sc, s, turn.found, turn.newId, turn.bill.paid) else sc;
    hide DueFor, DueIs, SkipsPeriod, AdvanceAndSeedNextDraft;
    if turn.found.None? && turn.bill.Billed? {
      var seeded, row := SeedDraft(sc, s, turn.newId), billed.invoices[turn.newId];
      assert seeded.invoices[turn.newId := row] == sc.invoices[turn.newId := row];
    }
  }

  // ---------------------------------------------------------------- a postpaid customer

  const JAN_10: Day := Date(2026, 0, 10)
  const FEB_10: Day := Date(2026, 1, 10)
  const MAR_10: Day := Date(2026, 2, 10)

  /** A customer charged on the 10th, after the period: January's is billed on the 10th of February. */
  function PostpaidState(k: nat): Schedule {
    var profiles := map[0 := Profile(10, false)];
    var billed := PeriodInvoice(Some(0), 0, Recurring, Finalized, JAN_10, FEB_10, FEB_10);
    var draft := PeriodInvoice(Some(0), 0, Recurring, Draft, FEB_10, MAR_10, MAR_10);
    if k == 0 then Schedule(profiles, map[], map[])
    else if k == 1 then Schedule(profiles, map[0 := Subscription(0, Active, JAN_10, FEB_10, Some(FEB_10))], map[])
    else Schedule(profiles, map[0 := Subscription(0, Active, FEB_10, MAR_10, Some(MAR_10))], map[0 := billed, 1 := draft])
  }

  function PostpaidAction(k: nat): Action {
    if k == 0 then CreateSubscription(0, Subscription(0, Active, JAN_10, FEB_10, Some(FEB_10)))
    else Bill(0, FEB_10, Turn(None, 0, Billed(false, true), Completed(1)))
  }

  lemma PostpaidDues()
    ensures DueDate(JAN_10, 10, false) == FEB_10 && DueDate(FEB_10, 10, false) == MAR_10
  {
  }

  lemma PostpaidDates()
    ensures MonthsLater(JAN_10, 1) == FEB_10 && MonthsLater(FEB_10, 1) == MAR_10
    ensures forall sc: Schedule :: 0 in sc.profiles && sc.profiles[0] == Profile(10, false) ==>
              DueFor(sc, 0, JAN_10) == FEB_10 && DueFor(sc, 0, FEB_10) == MAR_10
  {
    hide DueDate;
    PostpaidDues();
  }

  lemma PostpaidStart()
    ensures Possible(PostpaidState(0), PostpaidAction(0)) && Act(PostpaidState(0), PostpaidAction(0)) == PostpaidState(1)
  {
    hide MonthsLater, DueFor;
    PostpaidDates();
  }

  lemma PostpaidBill()
    ensures Possible(PostpaidState(1), PostpaidAction(1)) && Act(PostpaidState(1), PostpaidAction(1)) == PostpaidState(2)
  {
    hide MonthsLater, DueFor;
    PostpaidDates();
    var sc := PostpaidState(1);
    assert !PeriodIsBilled(sc, 0) && !PeriodIsVoided(sc, 0);
    var billed := BillPeriod(sc, 0, None, 0, false);
    assert billed.invoices == map[0 := PostpaidState(2).invoices[0]];
    var advanced := AdvanceBillingPeriod(billed, 0);
    assert advanced.subs == PostpaidState(2).subs;
    assert AdvanceAndSeedNextDraft(billed, 0, Completed(1)) == SeedDraft(advanced, 0, 1);
  }

  /** A history with a postpaid customer: after the period to the 10th of February is billed, the next one is billed on the
      10th of March, and its draft is due then. */
  lemma PostpaidHistory() returns (states: seq<Schedule>, actions: seq<Action>)
    ensures History(states, actions)
    ensures var last := states[|states| - 1];
            && last.profiles == map[0 := Profile(10, false)] && 0 in last.subs && last.subs[0].next == Some(MAR_10)
            && last.subs[0].start == FEB_10 && 1 in last.invoices && last.invoices[1].due == MAR_10
  {
    states, actions := seq(3, (k: nat) => PostpaidState(k)), seq(2, (k: nat) => PostpaidAction(k));
    hide Act, Possible;
    forall t | 0 <= t < 2 ensures Possible(states[t], actions[t]) && states[t + 1] == Act(states[t], actions[t]) {
      hide PostpaidState, PostpaidAction;
      if t == 0 { PostpaidStart(); } else { PostpaidBill(); }
    }
  }
}
