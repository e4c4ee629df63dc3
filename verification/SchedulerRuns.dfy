/** What holds over every history of the scheduler: no period is billed twice, only due active
    subscriptions are billed, and periods tile. */
module SchedulerRuns {
  import opened Options
  import opened Calendar
  import opened BillingDates
  import opened BillingState
  import opened Subscriptions

  // ---------------------------------------------------------------- one billed invoice per period

  predicate BilledFor(sc: Schedule, s: SubscriptionId, i: InvoiceId) {
    i in sc.invoices && sc.invoices[i].subscription == Some(s) && IsBilled(sc.invoices[i])
  }

  predicate SamePeriod(a: PeriodInvoice, b: PeriodInvoice) { a.start == b.start && a.end == b.end }

  /** Two billed invoices of a subscription are of different periods. */
  ghost predicate OneBilled(sc: Schedule) {
    forall s, i, j ::
      (BilledFor(sc, s, i) && BilledFor(sc, s, j) && SamePeriod(sc.invoices[i], sc.invoices[j])) ==> i == j
  }

  /** Rows name known subscriptions, and each period is a month step long. */
  ghost predicate WellFormed(sc: Schedule) {
    && (forall i :: i in sc.invoices && sc.invoices[i].subscription.Some? ==> sc.invoices[i].subscription.value in sc.subs)
    && (forall s :: s in sc.subs ==> sc.subs[s].end == MonthsLater(sc.subs[s].start, 1))
  }

  /** Every invoice billed afterwards was billed before, for the same period; states keep their shape, and
      canceled subscriptions stay canceled. */
  ghost predicate Quiet(sc: Schedule, after: Schedule) {
    && (forall s, i :: BilledFor(after, s, i) ==> BilledFor(sc, s, i) && SamePeriod(after.invoices[i], sc.invoices[i]))
    && Orderly(sc, after)
  }

  ghost predicate Orderly(sc: Schedule, after: Schedule) {
    && (WellFormed(sc) ==> WellFormed(after))
    && (forall s :: s in sc.subs ==> s in after.subs && (sc.subs[s].status == Canceled ==> after.subs[s].status == Canceled))
  }

  /** Nothing is billed except invoice `b` of `s`, for its current period, which had no billed invoice. */
  ghost predicate BilledOnly(sc: Schedule, after: Schedule, s: SubscriptionId, b: InvoiceId)
    requires s in sc.subs
  {
    && !PeriodIsBilled(sc, s)
    && b in after.invoices && OfPeriod(after.invoices[b], s, sc.subs[s].start, sc.subs[s].end)
    && (forall z, i :: BilledFor(after, z, i) && i != b ==> BilledFor(sc, z, i) && SamePeriod(after.invoices[i], sc.invoices[i]))
    && Orderly(sc, after)
  }

  lemma WithStatusIsQuiet(sc: Schedule, i: InvoiceId, status: InvoiceStatus)
    requires i in sc.invoices && (status == InvoiceStatus.Void || IsBilled(sc.invoices[i]))
    ensures Quiet(sc, WithStatus(sc, i, status))
  {
  }

  lemma SeedDraftIsQuiet(sc: Schedule, s: SubscriptionId, i: InvoiceId)
    requires s in sc.subs && i !in sc.invoices
    ensures Quiet(sc, SeedDraft(sc, s, i))
  {
    hide DueFor, MonthsLater;
  }

  lemma SubscriptionRowIsQuiet(sc: Schedule, s: SubscriptionId, row: Subscription)
    requires row.end == MonthsLater(row.start, 1) || (s in sc.subs && row.start == sc.subs[s].start && row.end == sc.subs[s].end)
    requires s in sc.subs && sc.subs[s].status == Canceled ==> row.status == Canceled
    ensures Quiet(sc, sc.(subs := sc.subs[s := row]))
  {
    hide MonthsLater;
  }

  lemma QuietSame(sc: Schedule)
    ensures Quiet(sc, sc)
  {
  }

  /** Writing a row that is not a billed invoice of a subscription. */
  lemma UnbilledRowIsQuiet(sc: Schedule, i: InvoiceId, row: PeriodInvoice)
    requires row.subscription.None? || (!IsBilled(row) && row.subscription.value in sc.subs)
    ensures Quiet(sc, sc.(invoices := sc.invoices[i := row]))
  {
  }

  lemma QuietTwice(a: Schedule, b: Schedule, c: Schedule)
    requires Quiet(a, b) && Quiet(b, c)
    ensures Quiet(a, c)
  {
    hide WellFormed;
  }

  lemma AdvanceIsQuiet(sc: Schedule, i: InvoiceId, r: AdvanceResult)
    requires r.Completed? ==> r.draft !in sc.invoices
    ensures Quiet(sc, AdvanceAndSeedNextDraft(sc, i, r))
    ensures forall j :: j in sc.invoices ==>
              j in AdvanceAndSeedNextDraft(sc, i, r).invoices && AdvanceAndSeedNextDraft(sc, i, r).invoices[j] == sc.invoices[j]
  {
    hide DueFor, PeriodDraft, Before, Quiet;
    if AsksForAdvance(sc, i) {
      var s := sc.invoices[i].subscription.value;
      var advanced := AdvanceBillingPeriod(sc, s);
      SubscriptionRowIsQuiet(sc, s, advanced.subs[s]);
      if r.Completed? {
        SeedDraftIsQuiet(advanced, s, r.draft);
        QuietTwice(sc, advanced, SeedDraft(advanced, s, r.draft));
      }
    }
    QuietSame(sc);
  }

  lemma BillPeriodEffects(sc: Schedule, s: SubscriptionId, turn: Turn, paid: bool)
    requires s in sc.subs && PossibleTurn(sc, s, turn) && !PeriodIsBilled(sc, s)
    ensures BilledOnly(sc, BillPeriod(sc, s, turn.found, turn.newId, paid), s, turn.found.GetOr(turn.newId))
    ensures BillPeriod(sc, s, turn.found, turn.newId, paid).invoices.Keys == sc.invoices.Keys + {turn.found.GetOr(turn.newId)}
  {
    hide DueFor, MonthsLater, PeriodIsBilled;
  }

  lemma VisitEffects(sc: Schedule, s: SubscriptionId, turn: Turn)
    requires s in sc.subs && PossibleTurn(sc, s, turn)
    ensures var after := Visit(sc, s, turn).0;
            Quiet(sc, after) || BilledOnly(sc, after, s, turn.found.GetOr(turn.newId))
  {
    hide AdvanceAndSeedNextDraft, BillPeriod, WellFormed, PeriodIsVoided, PeriodIsBilled;
    if !SkipsPeriod(sc, s, turn.found) && turn.bill.Billed? {
      BillPeriodEffects(sc, s, turn, turn.bill.paid);
      var billed := BillPeriod(sc, s, turn.found, turn.newId, turn.bill.paid);
      if turn.bill.published { AdvanceIsQuiet(billed, turn.found.GetOr(turn.newId), turn.advance); }
    }
  }

  lemma DropDraftIsQuiet(sc: Schedule, c: CustomerId, found: Option<InvoiceId>)
    requires FoundCustomerDraft(sc, c, found)
    ensures Quiet(sc, DropDraft(sc, found))
  {
    if found.Some? { WithStatusIsQuiet(sc, found.value, InvoiceStatus.Void); }
  }

  lemma UpdateStateIsQuiet(sc: Schedule, s: SubscriptionId, to: SubscriptionStatus, today: Day, found: Option<InvoiceId>)
    requires s in sc.subs && FoundCustomerDraft(sc, sc.subs[s].customer, found)
    ensures Quiet(sc, UpdateState(sc, s, to, today, found))
  {
    hide Quiet;
    var dropped := DropDraft(sc, found);
    DropDraftIsQuiet(sc, sc.subs[s].customer, found);
    QuietSame(sc);
    if Allows(sc.subs[s].status, to) {
      var row := UpdateState(sc, s, to, today, found).subs[s];
      SubscriptionRowIsQuiet(sc, s, row);
      SubscriptionRowIsQuiet(dropped, s, row);
      QuietTwice(sc, dropped, dropped.(subs := dropped.subs[s := row]));
    }
  }

  lemma SubscribeIsQuiet(sc: Schedule, c: CustomerId, paused: Option<SubscriptionId>, newSub: SubscriptionId, start: Day,
                         open: Option<InvoiceId>, dropped: Option<InvoiceId>, draft: InvoiceId)
    requires if paused.Some? then IsPausedOf(sc, c, paused.value) else newSub !in sc.subs
    requires FoundOpenDraft(sc, c, open) && FoundCustomerDraft(sc, c, dropped) && draft !in sc.invoices
    ensures Quiet(sc, SubscribeFromEvent(sc, c, paused, newSub, start, open, dropped, draft))
  {
    hide Quiet, DueFor;
    var s := paused.GetOr(newSub);
    var row := SubscribeFromEvent(sc, c, paused, newSub, start, open, dropped, draft).subs[s];
    var subscribed := sc.(subs := sc.subs[s := row]);
    SubscriptionRowIsQuiet(sc, s, row);
    DropDraftIsQuiet(subscribed, c, dropped);
    var room := if open.Some? then DropDraft(subscribed, dropped) else subscribed;
    if room != subscribed { QuietTwice(sc, subscribed, room); }
    SeedDraftIsQuiet(room, s, draft);
    QuietTwice(sc, room, SeedDraft(room, s, draft));
  }

  lemma ActEffects(sc: Schedule, a: Action)
    requires Possible(sc, a)
    ensures || Quiet(sc, Act(sc, a))
            || (a.Bill? && a.s in sc.subs && IsDue(sc.subs[a.s], a.today)
                && BilledOnly(sc, Act(sc, a), a.s, a.turn.found.GetOr(a.turn.newId)))
  {
    hide MonthsLater, Visit, AdvanceAndSeedNextDraft, UpdateState, SubscribeFromEvent, PossibleTurn, FoundOpenDraft,
         FoundCustomerDraft, BilledOnly, Quiet;
    match a
    case Bill(s, today, turn) => VisitEffects(sc, s, turn);
    case Advance(i, advance) => AdvanceIsQuiet(sc, i, advance);
    case ChangeState(s, to, today, found) =>
      if s in sc.subs { UpdateStateIsQuiet(sc, s, to, today, found); } else { QuietSame(sc); }
    case Subscribe(c, paused, newSub, start, open, dropped, draft) =>
      SubscribeIsQuiet(sc, c, paused, newSub, start, open, dropped, draft);
    case CreateSubscription(newSub, row) => SubscriptionRowIsQuiet(sc, newSub, row);
    case Link(i, s) => UnbilledRowIsQuiet(sc, i, sc.invoices[i].(subscription := Some(s)));
    case OtherInvoice(i, invoice) => UnbilledRowIsQuiet(sc, i, invoice);
    case Collect(i) => WithStatusIsQuiet(sc, i, InvoiceStatus.Paid);
    case Cancel(i) => WithStatusIsQuiet(sc, i, InvoiceStatus.Void);
  }

  lemma ActKeepsOneBilled(sc: Schedule, a: Action)
    requires Possible(sc, a) && OneBilled(sc)
    ensures OneBilled(Act(sc, a))
  {
    hide Act, Possible, IsBilled;
    ActEffects(sc, a);
    var after := Act(sc, a);
    forall s, i, j | BilledFor(after, s, i) && BilledFor(after, s, j) && SamePeriod(after.invoices[i], after.invoices[j])
      ensures i == j
    {
    }
  }

  lemma EmptyIsSound(sc: Schedule)
    requires sc.subs == map[] && sc.invoices == map[]
    ensures OneBilled(sc) && WellFormed(sc)
  {
  }

  lemma {:induction false} HistoryIsSound(states: seq<Schedule>, actions: seq<Action>, t: nat)
    requires History(states, actions) && t < |states|
    ensures OneBilled(states[t]) && WellFormed(states[t])
  {
    hide Act, Possible, OneBilled, WellFormed;
    if t == 0 {
      EmptyIsSound(states[0]);
    } else {
      HistoryIsSound(states, actions, t - 1);
      ActKeepsOneBilled(states[t - 1], actions[t - 1]);
      ActEffects(states[t - 1], actions[t - 1]);
    }
  }

  /** No double billing: whatever scheduler runs, failed advances, pauses, cancels and resumes came before,
      a period of a subscription has at most one finalized or paid invoice. */
  lemma NoDoubleBilling(states: seq<Schedule>, actions: seq<Action>, t: nat, i: InvoiceId, j: InvoiceId)
    requires History(states, actions) && t < |states|
    requires i in states[t].invoices && j in states[t].invoices
    requires var a, b := states[t].invoices[i], states[t].invoices[j];
             && a.subscription.Some? && a.subscription == b.subscription && a.start == b.start && a.end == b.end
             && IsBilled(a) && IsBilled(b)
    ensures i == j
  {
    hide Act, Possible;
    HistoryIsSound(states, actions, t);
    var s := states[t].invoices[i].subscription.value;
    assert BilledFor(states[t], s, i) && BilledFor(states[t], s, j);
  }

  /** An invoice of a subscription becomes billed only in a scheduler run that finds the subscription active
      and due, and only for its current period. */
  lemma OnlyDueSubscriptionsAreBilled(sc: Schedule, a: Action, i: InvoiceId)
    requires Possible(sc, a)
    requires i in Act(sc, a).invoices && IsBilled(Act(sc, a).invoices[i]) && Act(sc, a).invoices[i].subscription.Some?
    requires i in sc.invoices ==> !IsBilled(sc.invoices[i])
    ensures a.Bill? && Act(sc, a).invoices[i].subscription == Some(a.s) && a.s in sc.subs
    ensures sc.subs[a.s].status == Active && sc.subs[a.s].next.Some? && !Before(a.today, sc.subs[a.s].next.value)
    ensures Act(sc, a).invoices[i].start == sc.subs[a.s].start && Act(sc, a).invoices[i].end == sc.subs[a.s].end
  {
    hide Act, Possible, Before, PeriodIsBilled;
    ActEffects(sc, a);
    assert BilledFor(Act(sc, a), Act(sc, a).invoices[i].subscription.value, i);
  }

  lemma CanceledStepBillsNothing(sc: Schedule, a: Action, s: SubscriptionId, i: InvoiceId)
    requires Possible(sc, a) && s in sc.subs && sc.subs[s].status == Canceled && BilledFor(Act(sc, a), s, i)
    ensures BilledFor(sc, s, i)
  {
    hide Act, Possible, PeriodIsBilled;
    ActEffects(sc, a);
  }

  /** After a cancel nothing of the subscription is ever billed again. */
  lemma {:induction false} CanceledIsNeverBilled(states: seq<Schedule>, actions: seq<Action>, t: nat, u: nat,
                                                 s: SubscriptionId, i: InvoiceId)
    requires History(states, actions) && t <= u < |states|
    requires s in states[t].subs && states[t].subs[s].status == Canceled
    requires BilledFor(states[u], s, i)
    ensures s in states[u].subs && states[u].subs[s].status == Canceled
    ensures BilledFor(states[t], s, i)
    decreases u
  {
    hide Act, Possible, BilledFor;
    CanceledStays(states, actions, t, u, s);
    if t < u {
      CanceledStays(states, actions, t, u - 1, s);
      CanceledStepBillsNothing(states[u - 1], actions[u - 1], s, i);
      CanceledIsNeverBilled(states, actions, t, u - 1, s, i);
    }
  }

  lemma {:induction false} CanceledStays(states: seq<Schedule>, actions: seq<Action>, t: nat, u: nat, s: SubscriptionId)
    requires History(states, actions) && t <= u < |states|
    requires s in states[t].subs && states[t].subs[s].status == Canceled
    ensures s in states[u].subs && states[u].subs[s].status == Canceled
    decreases u
  {
    hide Act, Possible;
    if t < u {
      CanceledStays(states, actions, t, u - 1, s);
      ActEffects(states[u - 1], actions[u - 1]);
    }
  }

  // ---------------------------------------------------------------- replays and stuck periods

  lemma FailedAdvanceChangesNothing(sc: Schedule, i: InvoiceId, r: AdvanceResult)
    requires r.ThrewBefore?
    ensures AdvanceAndSeedNextDraft(sc, i, r) == sc
  {
  }

  lemma AdvanceMoves(sc: Schedule, i: InvoiceId, r: AdvanceResult)
    requires AsksForAdvance(sc, i) && !r.ThrewBefore?
    ensures AdvanceAndSeedNextDraft(sc, i, r).subs[sc.invoices[i].subscription.value].start
            == sc.subs[sc.invoices[i].subscription.value].end
  {
    hide DueFor, MonthsLater, PeriodDraft;
  }

  /** Replaying a finished advance changes nothing, exactly when the invoice starts before the end of the
      period that was advanced past; an invoice of a later period would advance the subscription again. */
  lemma ReplayIsNoOp(sc: Schedule, i: InvoiceId, r: AdvanceResult, again: AdvanceResult)
    requires WellFormed(sc) && AsksForAdvance(sc, i) && !r.ThrewBefore? && !again.ThrewBefore?
    requires (r.Completed? ==> r.draft !in sc.invoices)
    ensures var after := AdvanceAndSeedNextDraft(sc, i, r);
            AdvanceAndSeedNextDraft(after, i, again) == after
            <==> Before(sc.invoices[i].start, sc.subs[sc.invoices[i].subscription.value].end)
  {
  }

  /** After a scheduler turn that bills, the advance has passed the invoice's period, so replaying it is a
      no-op whatever the first attempt and the replay do, unless the first one threw before advancing. */
  lemma ReplayAfterBillingIsNoOp(sc: Schedule, s: SubscriptionId, turn: Turn, again: AdvanceResult)
    requires WellFormed(sc) && s in sc.subs && PossibleTurn(sc, s, turn)
    requires Visit(sc, s, turn).1.Create? && sc.subs[s].customer in sc.profiles
    ensures var after := Visit(sc, s, turn).0;
            AdvanceAndSeedNextDraft(after, turn.found.GetOr(turn.newId), again) == after
            <==> (!turn.advance.ThrewBefore? || again.ThrewBefore?)
  {
    hide DueFor, MonthsLater, PeriodIsBilled, PeriodIsVoided, AdvanceAndSeedNextDraft;
    var billed := BillPeriod(sc, s, turn.found, turn.newId, turn.bill.paid);
    var i := turn.found.GetOr(turn.newId);
    assert billed.invoices[i].kind == Recurring && billed.invoices[i].start == sc.subs[s].start && AsksForAdvance(billed, i);
    BillPeriodEffects(sc, s, turn, turn.bill.paid);
    if turn.advance.ThrewBefore? {
      FailedAdvanceChangesNothing(billed, i, turn.advance);
      if !again.ThrewBefore? { AdvanceMoves(billed, i, again); }
    } else if !again.ThrewBefore? {
      ReplayIsNoOp(billed, i, turn.advance, again);
    }
    if again.ThrewBefore? {
      FailedAdvanceChangesNothing(Visit(sc, s, turn).0, i, again);
    }
  }
}
