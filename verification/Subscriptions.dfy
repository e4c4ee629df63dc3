/** Subscriptions and the invoices of their periods: scheduling, advancing, pausing and resuming. */
module Subscriptions {
  import opened Options
  import opened Calendar
  import opened BillingDates
  import opened BillingState

  type Day = d: Date | Valid(d) witness Date(1970, 0, 1)
  type ChargeDay = n: int | 1 <= n <= 31 witness 1

  datatype SubscriptionStatus = Awaiting | Active | Paused | Canceled | PastDue

  datatype Subscription = Subscription(
    customer: CustomerId,
    status: SubscriptionStatus,
    start: Day,
    end: Day,
    next: Option<Day>)

  datatype PeriodInvoice = PeriodInvoice(
    subscription: Option<SubscriptionId>,
    customer: CustomerId,
    kind: InvoiceType,
    status: InvoiceStatus,
    start: Day,
    end: Day,
    due: Day)

  datatype Profile = Profile(chargeDay: ChargeDay, prepaid: bool)

  datatype Schedule = Schedule(
    profiles: map<CustomerId, Profile>,
    subs: map<SubscriptionId, Subscription>,
    invoices: map<InvoiceId, PeriodInvoice>)

  /** An unknown customer is charged on the 15th, prepaid. */
  function ProfileOf(sc: Schedule, c: CustomerId): Profile {
    if c in sc.profiles then sc.profiles[c] else Profile(15, true)
  }

  function DueFor(sc: Schedule, c: CustomerId, start: Day): Day {
    DueDate(start, ProfileOf(sc, c).chargeDay, ProfileOf(sc, c).prepaid)
  }

  predicate IsBilled(inv: PeriodInvoice) { inv.status == Finalized || inv.status == InvoiceStatus.Paid }

  /** The invoice is one of a subscription's period. */
  predicate OfPeriod(inv: PeriodInvoice, s: SubscriptionId, start: Day, end: Day) {
    inv.subscription == Some(s) && inv.start == start && inv.end == end
  }

  predicate InPeriod(sc: Schedule, s: SubscriptionId, i: InvoiceId)
    requires s in sc.subs
  {
    i in sc.invoices && OfPeriod(sc.invoices[i], s, sc.subs[s].start, sc.subs[s].end)
  }

  predicate PeriodIsBilled(sc: Schedule, s: SubscriptionId)
    requires s in sc.subs
  {
    exists i :: i in sc.invoices && InPeriod(sc, s, i) && IsBilled(sc.invoices[i])
  }

  predicate PeriodIsVoided(sc: Schedule, s: SubscriptionId)
    requires s in sc.subs
  {
    exists i :: i in sc.invoices && InPeriod(sc, s, i) && sc.invoices[i].status == InvoiceStatus.Void
  }

  predicate PeriodDraft(sc: Schedule, s: SubscriptionId, i: InvoiceId)
    requires s in sc.subs
  {
    InPeriod(sc, s, i) && sc.invoices[i].status == Draft && sc.invoices[i].kind == Recurring
  }

  /** `found` is a recurring draft of the current period, or None when there is none. */
  predicate FoundPeriodDraft(sc: Schedule, s: SubscriptionId, found: Option<InvoiceId>)
    requires s in sc.subs
  {
    if found.Some? then PeriodDraft(sc, s, found.value)
    else forall i :: i in sc.invoices ==> !PeriodDraft(sc, s, i)
  }

  // ---------------------------------------------------------------- advancing

  function WithStatus(sc: Schedule, i: InvoiceId, status: InvoiceStatus): Schedule
    requires i in sc.invoices
  {
    sc.(invoices := sc.invoices[i := sc.invoices[i].(status := status)])
  }

  function NextPeriod(sub: Subscription): (r: Subscription)
    ensures r.start == sub.end && MonthIndex(r.end) == MonthIndex(sub.end) + 1
  {
    sub.(start := sub.end, end := MonthsLater(sub.end, 1))
  }

  function AdvanceBillingPeriod(sc: Schedule, s: SubscriptionId): Schedule
    requires s in sc.subs
  {
    var sub := NextPeriod(sc.subs[s]);
    sc.(subs := sc.subs[s := sub.(next := Some(DueFor(sc, sub.customer, sub.start)))])
  }

  function SeedDraft(sc: Schedule, s: SubscriptionId, i: InvoiceId): Schedule
    requires s in sc.subs
  {
    var sub := sc.subs[s];
    sc.(invoices := sc.invoices[i := PeriodInvoice(Some(s), sub.customer, Recurring, Draft, sub.start, sub.end,
                                                   DueFor(sc, sub.customer, sub.start))])
  }

  /** Where advancing and seeding stops: an exception before the period is advanced, one between advancing
      and seeding, or none, with the id of the seeded draft. */
  datatype AdvanceResult = ThrewBefore | ThrewAfter | Completed(draft: InvoiceId)

  /** The invoice asks for an advance: it is a recurring one of a known subscription and customer, and the
      subscription is not already past its period. */
  predicate AsksForAdvance(sc: Schedule, i: InvoiceId) {
    && i in sc.invoices && sc.invoices[i].kind == Recurring && sc.invoices[i].subscription.Some?
    && sc.invoices[i].subscription.value in sc.subs
    && var sub := sc.subs[sc.invoices[i].subscription.value];
       !Before(sc.invoices[i].start, sub.start) && sub.customer in sc.profiles
  }

  function AdvanceAndSeedNextDraft(sc: Schedule, i: InvoiceId, r: AdvanceResult): Schedule {
    if !AsksForAdvance(sc, i) || r.ThrewBefore? then sc
    else
      var s := sc.invoices[i].subscription.value;
      var advanced := AdvanceBillingPeriod(sc, s);
      if r.ThrewAfter? || (exists d :: d in advanced.invoices && PeriodDraft(advanced, s, d)) then advanced
      else SeedDraft(advanced, s, r.draft)
  }

  // ---------------------------------------------------------------- the scheduler

  /** How billing one subscription ends: the transaction aborts, or the invoice is billed, possibly paid at
      once, and its event is published or not. */
  datatype BillResult = Aborted | Billed(paid: bool, published: bool)

  datatype VisitKind = Skip | Fail | Create

  predicate SkipsPeriod(sc: Schedule, s: SubscriptionId, found: Option<InvoiceId>)
    requires s in sc.subs
  {
    PeriodIsBilled(sc, s) || (PeriodIsVoided(sc, s) && found.None?)
  }

  /** The invoice row after billing the current period from its draft, or from scratch under a new id. */
  function BillPeriod(sc: Schedule, s: SubscriptionId, found: Option<InvoiceId>, newId: InvoiceId, paid: bool): Schedule
    requires s in sc.subs && (found.Some? ==> found.value in sc.invoices)
  {
    var status := if paid then InvoiceStatus.Paid else Finalized;
    if found.Some? then WithStatus(sc, found.value, status)
    else WithStatus(SeedDraft(sc, s, newId), newId, status)
  }

  /** What one turn of the scheduler finds and what the world answers. */
  datatype Turn = Turn(found: Option<InvoiceId>, newId: InvoiceId, bill: BillResult, advance: AdvanceResult)

  predicate PossibleTurn(sc: Schedule, s: SubscriptionId, turn: Turn)
    requires s in sc.subs
  {
    && FoundPeriodDraft(sc, s, turn.found)
    && turn.newId !in sc.invoices
    && (turn.advance.Completed? ==> turn.advance.draft !in sc.invoices && turn.advance.draft != turn.newId)
  }

  /** One turn of the scheduler's loop. */
  function Visit(sc: Schedule, s: SubscriptionId, turn: Turn): (r: (Schedule, VisitKind))
    requires s in sc.subs && PossibleTurn(sc, s, turn)
  {
    if SkipsPeriod(sc, s, turn.found) then (sc, Skip)
    else if turn.bill.Aborted? then (sc, Fail)
    else
      var billed := BillPeriod(sc, s, turn.found, turn.newId, turn.bill.paid);
      if !turn.bill.published then (billed, Fail)
      else (AdvanceAndSeedNextDraft(billed, turn.found.GetOr(turn.newId), turn.advance), Create)
  }

  predicate IsDue(sub: Subscription, today: Day) {
    sub.status == Active && sub.next.Some? && !Before(today, sub.next.value)
  }

  // ---------------------------------------------------------------- states

  predicate Allows(from: SubscriptionStatus, to: SubscriptionStatus) {
    match from
    case Awaiting => to == Active
    case Active => to == Paused || to == Canceled || to == PastDue
    case Paused => to == Active || to == Canceled
    case PastDue => to == Active || to == Canceled
    case Canceled => false
  }

  predicate CustomerDraft(sc: Schedule, c: CustomerId, i: InvoiceId) {
    i in sc.invoices && sc.invoices[i].customer == c && sc.invoices[i].status == Draft
  }

  /** `found` is a draft of the customer, of any type, or None when there is none. */
  predicate FoundCustomerDraft(sc: Schedule, c: CustomerId, found: Option<InvoiceId>) {
    if found.Some? then CustomerDraft(sc, c, found.value)
    else forall i :: i in sc.invoices ==> !CustomerDraft(sc, c, i)
  }

  function DropDraft(sc: Schedule, found: Option<InvoiceId>): Schedule
    requires found.Some? ==> found.value in sc.invoices
  {
    if found.None? then sc
    else WithStatus(sc, found.value, InvoiceStatus.Void)
  }

  function PeriodFrom(sub: Subscription, start: Day): Subscription {
    sub.(status := Active, start := start, end := MonthsLater(start, 1))
  }

  function UpdateState(sc: Schedule, s: SubscriptionId, to: SubscriptionStatus, today: Day,
                       found: Option<InvoiceId>): Schedule
    requires found.Some? ==> found.value in sc.invoices
  {
    if s !in sc.subs || !Allows(sc.subs[s].status, to) then sc
    else
      var sub := sc.subs[s];
      if to == Paused || to == Canceled then
        DropDraft(sc, found).(subs := sc.subs[s := sub.(status := to, next := None)])
      else if sub.status == Paused then
        var resumed := PeriodFrom(sub, today);
        sc.(subs := sc.subs[s := resumed.(next := Some(resumed.end))])
      else sc.(subs := sc.subs[s := sub.(status := to)])
  }

  /** A subscription event: the paused subscription found is resumed at `start`, or a new one is created;
      then its period gets a draft, unless the customer's open recurring draft is already its own. An open
      draft of another subscription makes room by voiding a draft of the customer first. */
  function SubscribeFromEvent(sc: Schedule, c: CustomerId, paused: Option<SubscriptionId>, newSub: SubscriptionId,
                              start: Day, open: Option<InvoiceId>, dropped: Option<InvoiceId>,
                              draft: InvoiceId): Schedule
    requires paused.Some? ==> paused.value in sc.subs
    requires open.Some? ==> open.value in sc.invoices
    requires dropped.Some? ==> dropped.value in sc.invoices
  {
    var s := paused.GetOr(newSub);
    var sub := PeriodFrom(if paused.Some? then sc.subs[s] else Subscription(c, Active, start, start, None), start);
    var subscribed := sc.(subs := sc.subs[s := sub.(next := Some(DueFor(sc, c, start)))]);
    if open.Some? && sc.invoices[open.value].subscription == Some(s) then subscribed
    else SeedDraft(if open.Some? then DropDraft(subscribed, dropped) else subscribed, s, draft)
  }

  // ---------------------------------------------------------------- steps and runs

  /** `CreateSubscription` is a pending subscription of the API or an active one of the migration, which may
      `Link` it to a draft; `OtherInvoice` is any write to an invoice without a subscription (onboarding,
      one-time and migrated ones); `Collect` and `Cancel` are the payment and the void of a finalized invoice. */
  datatype Action =
    | Bill(s: SubscriptionId, today: Day, turn: Turn)
    | Advance(i: InvoiceId, advance: AdvanceResult)
    | ChangeState(s: SubscriptionId, to: SubscriptionStatus, today: Day, found: Option<InvoiceId>)
    | Subscribe(c: CustomerId, paused: Option<SubscriptionId>, newSub: SubscriptionId, start: Day,
                open: Option<InvoiceId>, dropped: Option<InvoiceId>, draft: InvoiceId)
    | CreateSubscription(newSub: SubscriptionId, row: Subscription)
    | Link(i: InvoiceId, s: SubscriptionId)
    | OtherInvoice(i: InvoiceId, invoice: PeriodInvoice)
    | Collect(i: InvoiceId)
    | Cancel(i: InvoiceId)

  /** `open` is a recurring draft of the customer, or None when there is none. */
  predicate FoundOpenDraft(sc: Schedule, c: CustomerId, open: Option<InvoiceId>) {
    if open.Some? then CustomerDraft(sc, c, open.value) && sc.invoices[open.value].kind == Recurring
    else forall i :: i in sc.invoices ==> !(CustomerDraft(sc, c, i) && sc.invoices[i].kind == Recurring)
  }

  predicate IsPausedOf(sc: Schedule, c: CustomerId, s: SubscriptionId) {
    s in sc.subs && sc.subs[s].customer == c && sc.subs[s].status == Paused
  }

  /** Generated ids are new, and every row a query returns satisfies the query. */
  predicate Possible(sc: Schedule, a: Action) {
    match a
    case Bill(s, today, turn) => s in sc.subs && IsDue(sc.subs[s], today) && PossibleTurn(sc, s, turn)
    case Advance(_, advance) => advance.Completed? ==> advance.draft !in sc.invoices
    case ChangeState(s, _, _, found) => s in sc.subs ==> FoundCustomerDraft(sc, sc.subs[s].customer, found)
    case Subscribe(c, paused, newSub, _, open, dropped, draft) =>
      && (if paused.Some? then IsPausedOf(sc, c, paused.value)
          else forall s :: s in sc.subs ==> !IsPausedOf(sc, c, s))
      && newSub !in sc.subs && draft !in sc.invoices
      && FoundOpenDraft(sc, c, open) && FoundCustomerDraft(sc, c, dropped)
    case CreateSubscription(newSub, row) =>
      newSub !in sc.subs && row.end == MonthsLater(row.start, 1) && (row.status == Awaiting || row.status == Active)
    case Link(i, s) =>
      && i in sc.invoices && sc.invoices[i].kind == Recurring && sc.invoices[i].status == Draft
      && sc.invoices[i].subscription.None? && s in sc.subs
    case OtherInvoice(i, invoice) =>
      invoice.subscription.None? && (i in sc.invoices ==> sc.invoices[i].subscription.None?)
    case Collect(i) => i in sc.invoices && sc.invoices[i].status == Finalized
    case Cancel(i) => i in sc.invoices && sc.invoices[i].status == Finalized
  }

  function Act(sc: Schedule, a: Action): Schedule
    requires Possible(sc, a)
  {
    match a
    case Bill(s, _, turn) => Visit(sc, s, turn).0
    case Advance(i, advance) => AdvanceAndSeedNextDraft(sc, i, advance)
    case ChangeState(s, to, today, found) =>
      if s in sc.subs then UpdateState(sc, s, to, today, found) else sc
    case Subscribe(c, paused, newSub, start, open, dropped, draft) =>
      SubscribeFromEvent(sc, c, paused, newSub, start, open, dropped, draft)
    case CreateSubscription(newSub, row) => sc.(subs := sc.subs[newSub := row])
    case Link(i, s) => sc.(invoices := sc.invoices[i := sc.invoices[i].(subscription := Some(s))])
    case OtherInvoice(i, invoice) => sc.(invoices := sc.invoices[i := invoice])
    case Collect(i) => WithStatus(sc, i, InvoiceStatus.Paid)
    case Cancel(i) => WithStatus(sc, i, InvoiceStatus.Void)
  }

  /** The states of a history that starts without subscriptions and invoices. */
  ghost predicate History(states: seq<Schedule>, actions: seq<Action>) {
    && |states| == |actions| + 1
    && states[0].subs == map[] && states[0].invoices == map[]
    && forall t :: 0 <= t < |actions| ==>
         Possible(states[t], actions[t]) && states[t + 1] == Act(states[t], actions[t])
  }
}
