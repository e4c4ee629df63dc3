/** Moving one customer from the old system into the billing tables, and the rollback that undoes it. */
module Migration {
  import opened Options
  import opened Ledger
  import opened BillingState

  type MonolithId = nat

  // ---------------------------------------------------------------- tables

  datatype CustomerRow = CustomerRow(id: CustomerId, chargeDay: int, prepaid: bool)
  datatype MethodRow = MethodRow(customer: CustomerId, isDefault: bool)
  datatype NoteRow = NoteRow(customer: CustomerId, amount: int, fromMigration: bool)
  datatype SurchargeRow = SurchargeRow(customer: CustomerId, value: int)
  datatype BalanceRow = BalanceRow(customer: CustomerId, cents: int)
  datatype GatewayRow = GatewayRow(customer: CustomerId)

  /** Where an invoice comes from: a payroll or a charge of the old system, or this one. */
  datatype Origin = FromPayroll(payroll: nat) | FromCharge(charge: nat) | Native

  /** `adjustment` is the credit the old system took off the invoice, kept as it was. */
  datatype InvoiceRow = InvoiceRow(
    customer: CustomerId,
    subscription: Option<SubscriptionId>,
    kind: InvoiceType,
    status: InvoiceStatus,
    total: int,
    lines: seq<int>,
    adjustment: Option<int>,
    origin: Origin)

  /** The unique idempotency key of a charge row. */
  datatype RowKey = MigPayroll(payroll: nat) | MigCharge(charge: nat) | Runtime(key: nat)
  datatype ChargeRow = ChargeRow(customer: CustomerId, invoice: InvoiceId, pm: MethodId, amount: int, status: ChargeStatus)

  datatype SubscriptionRow = SubscriptionRow(customer: CustomerId, active: bool, monolith: Option<nat>, amount: int)

  /** A journal row refers to an invoice, a credit note or something else, and was written by a migration
      or by the running system. */
  datatype Subject = OfInvoice(i: InvoiceId) | OfNote(n: NoteId) | OfOther(id: nat)
  datatype Tag = Tag(subject: Subject, migration: bool)

  /** Customers are keyed by their unique id in the old system. `referenced` are the invoices that refund or
      dunning rows point at, `flagged` the customers that feature flags point at. */
  datatype Tables = Tables(
    customers: map<MonolithId, CustomerRow>,
    methods: map<MethodId, MethodRow>,
    gateways: map<CustomerId, GatewayRow>,
    notes: map<NoteId, NoteRow>,
    balances: map<CustomerId, BalanceRow>,
    surcharges: map<CustomerId, SurchargeRow>,
    invoices: map<InvoiceId, InvoiceRow>,
    charges: map<RowKey, ChargeRow>,
    subscriptions: map<SubscriptionId, SubscriptionRow>,
    referenced: set<InvoiceId>,
    flagged: set<CustomerId>,
    ledger: seq<Entry<Tag>>)

  // ---------------------------------------------------------------- the request

  /** An amount sent as text: None when it does not parse. */
  type Cents = Option<int>

  /** One payroll of the old system. `status` is trimmed and in lower case, `future` says whether its month
      has not begun, `lines` are its line items, None when one of them does not parse; the starting balance
      may be absent. */
  datatype Payroll = Payroll(
    id: nat, deleted: bool, failure: bool, status: string, future: bool, total: Cents, lines: Option<seq<int>>,
    startingBalance: Option<Cents>, invoice: InvoiceId, dbFails: bool)

  datatype OldCharge = OldCharge(
    id: nat, deleted: bool, status: string, onboarding: bool, amount: Cents, lines: Option<seq<int>>,
    invoice: InvoiceId, dbFails: bool)

  datatype StepName = CreditBalance | SurchargeConfig | Payrolls | Charges | SubscriptionStep

  /** What is sent for a customer, the ids the run generates, and where the database fails. */
  datatype Body = Body(
    customer: CustomerId, chargeDay: int, prepaid: bool,
    cheque: bool, reachable: bool, methods: seq<(MethodId, bool)>, settingsFail: bool,
    balance: Option<Cents>, note: NoteId, noteFails: bool,
    surcharge: Option<Cents>, surchargeFails: bool,
    payrolls: seq<Payroll>, charges: seq<OldCharge>,
    runRate: Option<Cents>, timingParses: bool, monolithSubscription: Option<nat>, subscription: SubscriptionId,
    subscriptionFails: bool)

  datatype StepResult = Written | NothingToDo | Rejected(reason: Reason)
  datatype Reason = Unsupported | Unreachable | InvalidAmount | InvalidLine | NoPaymentMethod | InvalidChargeDay | NoRunRate
                  | Conflict | InvalidTiming | DatabaseFailed

  // ---------------------------------------------------------------- rows of one customer

  function CustomerOwner(r: CustomerRow): CustomerId { r.id }
  function MethodOwner(r: MethodRow): CustomerId { r.customer }
  function GatewayOwner(r: GatewayRow): CustomerId { r.customer }
  function NoteOwner(r: NoteRow): CustomerId { r.customer }
  function BalanceOwner(r: BalanceRow): CustomerId { r.customer }
  function SurchargeOwner(r: SurchargeRow): CustomerId { r.customer }
  function InvoiceOwner(r: InvoiceRow): CustomerId { r.customer }
  function ChargeOwner(r: ChargeRow): CustomerId { r.customer }
  function SubscriptionOwner(r: SubscriptionRow): CustomerId { r.customer }

  /** A table without the rows of a customer. */
  function Without<K, V>(table: map<K, V>, owner: V -> CustomerId, c: CustomerId): map<K, V> {
    map k | k in table && owner(table[k]) != c :: table[k]
  }

  /** The tables without the rows of a customer, and without the journal. */
  function Rest(db: Tables, c: CustomerId): Tables {
    Tables(Without(db.customers, CustomerOwner, c), Without(db.methods, MethodOwner, c),
           Without(db.gateways, GatewayOwner, c), Without(db.notes, NoteOwner, c),
           Without(db.balances, BalanceOwner, c), Without(db.surcharges, SurchargeOwner, c),
           Without(db.invoices, InvoiceOwner, c), Without(db.charges, ChargeOwner, c),
           Without(db.subscriptions, SubscriptionOwner, c), db.referenced, db.flagged, [])
  }

  // ---------------------------------------------------------------- step 1: payment settings

  function WithMethods(methods: map<MethodId, MethodRow>, c: CustomerId, pms: seq<(MethodId, bool)>): map<MethodId, MethodRow> {
    if pms == [] then methods
    else WithMethods(methods, c, pms[..|pms| - 1])[pms[|pms| - 1].0 := MethodRow(c, pms[|pms| - 1].1)]
  }

  function SettingsResult(b: Body): StepResult {
    if b.cheque then Rejected(Unsupported) else if !b.reachable then Rejected(Unreachable) else Written
  }

  function WriteSettings(db: Tables, m: MonolithId, b: Body): (Tables, StepResult) {
    if SettingsResult(b).Rejected? then (db, SettingsResult(b))
    else if b.settingsFail then (db, Rejected(DatabaseFailed))
    else
      (db.(customers := db.customers[m := CustomerRow(b.customer, b.chargeDay, b.prepaid)],
           methods := WithMethods(db.methods, b.customer, b.methods),
           gateways := db.gateways[b.customer := GatewayRow(b.customer)]),
       Written)
  }

  // ---------------------------------------------------------------- step 2: credit balance

  predicate HasMigrationNote(db: Tables, c: CustomerId) {
    exists n :: n in db.notes && db.notes[n].customer == c && db.notes[n].fromMigration
  }

  /** A negative balance in the old system is credit the customer has; a positive one is ignored. */
  function BalanceResult(db: Tables, b: Body): StepResult {
    if b.balance.None? then NothingToDo
    else if b.balance.value.None? then Rejected(InvalidAmount)
    else if b.balance.value.value >= 0 then NothingToDo
    else if HasMigrationNote(db, b.customer) then NothingToDo
    else Written
  }

  function OldBalance(db: Tables, c: CustomerId): int {
    if c in db.balances then db.balances[c].cents else 0
  }

  function WriteBalance(db: Tables, b: Body): (Tables, StepResult) {
    if !BalanceResult(db, b).Written? then (db, BalanceResult(db, b))
    else if b.noteFails then (db, Rejected(DatabaseFailed))
    else
      var c, credit := b.customer, -b.balance.value.value;
      (db.(notes := db.notes[b.note := NoteRow(c, credit, true)],
           balances := db.balances[c := BalanceRow(c, OldBalance(db, c) + credit)],
           ledger := db.ledger + [Entry(Credits, AccountsReceivable, credit, Tag(OfNote(b.note), true))]),
       Written)
  }

  // ---------------------------------------------------------------- step 3: surcharge

  function SurchargeResult(db: Tables, b: Body): StepResult {
    if b.surcharge.None? then NothingToDo
    else if b.surcharge.value.None? then Rejected(InvalidAmount)
    else if b.customer in db.surcharges then NothingToDo
    else Written
  }

  function WriteSurcharge(db: Tables, b: Body): (Tables, StepResult) {
    if !SurchargeResult(db, b).Written? then (db, SurchargeResult(db, b))
    else if b.surchargeFails then (db, Rejected(DatabaseFailed))
    else (db.(surcharges := db.surcharges[b.customer := SurchargeRow(b.customer, b.surcharge.value.value)]), Written)
  }

  // ---------------------------------------------------------------- steps 4 and 5: payrolls and charges

  datatype StatusMap = StatusMap(invoice: InvoiceStatus, charge: Option<ChargeStatus>)

  const PAID := StatusMap(InvoiceStatus.Paid, Some(ChargeStatus.Succeeded))
  const OWED := StatusMap(Finalized, Some(ChargeStatus.Failed))
  const IN_FLIGHT := StatusMap(Finalized, Some(Pending))

  function MapPayrollStatus(p: Payroll): Option<StatusMap> {
    if p.deleted then Some(StatusMap(InvoiceStatus.Void, None))
    else if p.failure then Some(OWED)
    else if p.status == "paid" || p.status == "succeeded" then Some(PAID)
    else if p.status == "failed" then Some(OWED)
    else if p.status == "pending" || p.status == "processing" then Some(IN_FLIGHT)
    else if p.status == "un-paid" || p.status == "unpaid" then
      Some(StatusMap(if p.future then Draft else Finalized, None))
    else None
  }

  function MapChargeStatus(c: OldCharge): Option<StatusMap> {
    if c.deleted then Some(StatusMap(InvoiceStatus.Void, None))
    else if c.status == "paid" || c.status == "succeeded" then Some(PAID)
    else if c.status == "failed" then Some(OWED)
    else if c.status == "pending" || c.status == "processing" then Some(IN_FLIGHT)
    else None
  }

  function Abs(n: int): nat { if n < 0 then -n else n }

  predicate Migrated(db: Tables, o: Origin) {
    exists i :: i in db.invoices && db.invoices[i].origin == o
  }

  /** What is posted for a migrated invoice: nothing for drafts and for zero amounts, its finalisation,
      and its payment or its void. */
  function Postings(i: InvoiceId, status: InvoiceStatus, amount: nat): seq<Entry<Tag>> {
    var tag := Tag(OfInvoice(i), true);
    var final := Entry(AccountsReceivable, Revenue, amount, tag);
    if amount == 0 || status == Draft then []
    else if status == InvoiceStatus.Paid then [final, Entry(Cash, AccountsReceivable, amount, tag)]
    else if status == Finalized then [final]
    else [final, Entry(Revenue, AccountsReceivable, amount, tag)]
  }

  /** One migrated invoice as it will be written. Its adjustment is parsed only when it is written. */
  datatype Item = Item(
    invoice: InvoiceId, key: RowKey, origin: Origin, kind: InvoiceType, mapped: StatusMap, total: int, lines: seq<int>,
    adjustment: Option<Cents>, dbFails: bool)

  datatype Planned = Fails(reason: Reason) | Skips | Writes(item: Item)

  function PlanPayroll(db: Tables, p: Payroll): Planned {
    if MapPayrollStatus(p).None? then Skips
    else if p.total.None? then Fails(InvalidAmount)
    else if Migrated(db, FromPayroll(p.id)) then Skips
    else if p.lines.None? then Fails(InvalidLine)
    else Writes(Item(p.invoice, MigPayroll(p.id), FromPayroll(p.id), Recurring, MapPayrollStatus(p).value,
                     p.total.value, p.lines.value, p.startingBalance, p.dbFails))
  }

  /** A charge without line items gets one for its whole amount, which is never negative. `noMethod` is
      true when a charge row could not be written for want of a payment method. */
  function PlanCharge(db: Tables, c: OldCharge, noMethod: bool): Planned {
    if MapChargeStatus(c).None? then Skips
    else if c.amount.None? then Fails(InvalidAmount)
    else if Migrated(db, FromCharge(c.id)) then Skips
    else if noMethod && MapChargeStatus(c).value.charge.Some? then Fails(NoPaymentMethod)
    else if c.lines.None? then Fails(InvalidLine)
    else
      var total := Abs(c.amount.value);
      Writes(Item(c.invoice, MigCharge(c.id), FromCharge(c.id), if c.onboarding then Onboarding else OneTime,
                  MapChargeStatus(c).value, total, if c.lines.value == [] then [total] else c.lines.value, None,
                  c.dbFails))
  }

  /** The default method among those just written, else the first. */
  function DefaultMethod(pms: seq<(MethodId, bool)>): Option<MethodId> {
    if pms == [] then None
    else if exists k :: 0 <= k < |pms| && pms[k].1 then FirstDefault(pms)
    else Some(pms[0].0)
  }

  function FirstDefault(pms: seq<(MethodId, bool)>): Option<MethodId> {
    if pms == [] then None else if pms[0].1 then Some(pms[0].0) else FirstDefault(pms[1..])
  }

  function Parsed(adjustment: Option<Cents>): Option<int> {
    if adjustment.None? then None else adjustment.value
  }

  function RowOf(c: CustomerId, x: Item): InvoiceRow {
    InvoiceRow(c, None, x.kind, x.mapped.invoice, x.total, x.lines, Parsed(x.adjustment), x.origin)
  }

  /** The transaction that writes an invoice with its charge and postings; an adjustment that does not parse
      or a charge row whose key is taken makes it fail, and it is not begun without a payment method. */
  function WriteItem(db: Tables, c: CustomerId, pm: Option<MethodId>, x: Item): (Tables, StepResult) {
    if x.mapped.charge.Some? && pm.None? then (db, Rejected(NoPaymentMethod))
    else if x.dbFails || x.adjustment == Some(None) || (x.mapped.charge.Some? && x.key in db.charges) then
      (db, Rejected(DatabaseFailed))
    else
      (db.(invoices := db.invoices[x.invoice := RowOf(c, x)],
           charges := if x.mapped.charge.None? then db.charges
                      else db.charges[x.key := ChargeRow(c, x.invoice, pm.value, Abs(x.total), x.mapped.charge.value)],
           ledger := db.ledger + Postings(x.invoice, x.mapped.invoice, Abs(x.total))),
       Written)
  }

  function WritePlanned(db: Tables, c: CustomerId, pm: Option<MethodId>, plan: Planned): (Tables, StepResult) {
    match plan
    case Fails(reason) => (db, Rejected(reason))
    case Skips => (db, NothingToDo)
    case Writes(x) => WriteItem(db, c, pm, x)
  }

  function WritePayrolls(db: Tables, c: CustomerId, pm: Option<MethodId>, ps: seq<Payroll>): (Tables, StepResult)
    decreases |ps|
  {
    if ps == [] then (db, Written)
    else
      var first := WritePlanned(db, c, pm, PlanPayroll(db, ps[0]));
      if first.1.Rejected? then first else WritePayrolls(first.0, c, pm, ps[1..])
  }

  function WriteCharges(db: Tables, c: CustomerId, pm: Option<MethodId>, cs: seq<OldCharge>): (Tables, StepResult)
    decreases |cs|
  {
    if cs == [] then (db, Written)
    else
      var first := WritePlanned(db, c, pm, PlanCharge(db, cs[0], pm.None?));
      if first.1.Rejected? then first else WriteCharges(first.0, c, pm, cs[1..])
  }

  // ---------------------------------------------------------------- step 6: subscription

  function ActiveOf(db: Tables, c: CustomerId): set<SubscriptionId> {
    set s | s in db.subscriptions && db.subscriptions[s].customer == c && db.subscriptions[s].active
  }

  /** The one active subscription is the one sent. */
  predicate SameSubscription(db: Tables, b: Body) {
    b.monolithSubscription.Some?
    && exists s :: s in ActiveOf(db, b.customer) && db.subscriptions[s].monolith == b.monolithSubscription
  }

  function SubscriptionResult(db: Tables, b: Body): StepResult {
    if b.runRate.None? then Rejected(NoRunRate)
    else if b.runRate.value.None? then Rejected(InvalidAmount)
    else if b.chargeDay < 1 || b.chargeDay > 31 then Rejected(InvalidChargeDay)
    else if |ActiveOf(db, b.customer)| == 1 && SameSubscription(db, b) then NothingToDo
    else if ActiveOf(db, b.customer) != {} then Rejected(Conflict)
    else if !b.timingParses then Rejected(InvalidTiming)
    else Written
  }

  predicate OpenUnlinked(inv: InvoiceRow, c: CustomerId) {
    inv.customer == c && inv.kind == Recurring && inv.status == Draft && inv.subscription.None?
  }

  /** Every open recurring draft of the customer is linked to the new subscription. */
  function Linked(invoices: map<InvoiceId, InvoiceRow>, c: CustomerId, s: SubscriptionId): map<InvoiceId, InvoiceRow> {
    map i | i in invoices :: if OpenUnlinked(invoices[i], c) then invoices[i].(subscription := Some(s)) else invoices[i]
  }

  function WriteSubscription(db: Tables, b: Body): (Tables, StepResult) {
    if !SubscriptionResult(db, b).Written? then (db, SubscriptionResult(db, b))
    else if b.subscriptionFails then (db, Rejected(DatabaseFailed))
    else
      (db.(subscriptions := db.subscriptions[b.subscription :=
             SubscriptionRow(b.customer, true, b.monolithSubscription, b.runRate.value.value)],
           invoices := Linked(db.invoices, b.customer, b.subscription)),
       Written)
  }

  // ---------------------------------------------------------------- the pipeline

  function WriteStep(db: Tables, b: Body, step: StepName): (Tables, StepResult) {
    match step
    case CreditBalance => WriteBalance(db, b)
    case SurchargeConfig => WriteSurcharge(db, b)
    case Payrolls =>
      if b.payrolls == [] then (db, NothingToDo) else WritePayrolls(db, b.customer, DefaultMethod(b.methods), b.payrolls)
    case Charges =>
      if b.charges == [] then (db, NothingToDo) else WriteCharges(db, b.customer, DefaultMethod(b.methods), b.charges)
    case SubscriptionStep => WriteSubscription(db, b)
  }

  const STEPS := [CreditBalance, SurchargeConfig, Payrolls, Charges, SubscriptionStep]

  datatype Report = AlreadyMigrated | StoppedAtSettings(reason: Reason) | Stopped(step: StepName, reason: Reason) | Done

  /** Each step runs only when the ones before have not failed. */
  function RunSteps(db: Tables, b: Body, steps: seq<StepName>): (r: (Tables, Report))
    ensures r.1.Done? || r.1.Stopped?
    decreases |steps|
  {
    if steps == [] then (db, Done)
    else
      var first := WriteStep(db, b, steps[0]);
      if first.1.Rejected? then (first.0, Stopped(steps[0], first.1.reason)) else RunSteps(first.0, b, steps[1..])
  }

  function Migrate(db: Tables, m: MonolithId, b: Body): (Tables, Report) {
    if m in db.customers then (db, AlreadyMigrated)
    else
      var settings := WriteSettings(db, m, b);
      if settings.1.Rejected? then (db, StoppedAtSettings(settings.1.reason)) else RunSteps(settings.0, b, STEPS)
  }

  // ---------------------------------------------------------------- the preview

  /** A preview plans every item against the tables as they are, and stops where a run would. */
  function PreviewPayrolls(db: Tables, ps: seq<Payroll>): StepResult {
    if ps == [] then Written
    else if PlanPayroll(db, ps[0]).Fails? then Rejected(PlanPayroll(db, ps[0]).reason)
    else PreviewPayrolls(db, ps[1..])
  }

  function PreviewCharges(db: Tables, cs: seq<OldCharge>): StepResult {
    if cs == [] then Written
    else if PlanCharge(db, cs[0], false).Fails? then Rejected(PlanCharge(db, cs[0], false).reason)
    else PreviewCharges(db, cs[1..])
  }

  function PreviewStep(db: Tables, b: Body, step: StepName): StepResult {
    match step
    case CreditBalance => BalanceResult(db, b)
    case SurchargeConfig => SurchargeResult(db, b)
    case Payrolls => if b.payrolls == [] then NothingToDo else PreviewPayrolls(db, b.payrolls)
    case Charges => if b.charges == [] then NothingToDo else PreviewCharges(db, b.charges)
    case SubscriptionStep => SubscriptionResult(db, b)
  }

  /** Every step is previewed; the first one that fails is reported. */
  function PreviewSteps(db: Tables, b: Body, steps: seq<StepName>): Report {
    if steps == [] then Done
    else if PreviewStep(db, b, steps[0]).Rejected? then Stopped(steps[0], PreviewStep(db, b, steps[0]).reason)
    else PreviewSteps(db, b, steps[1..])
  }

  function Preview(db: Tables, m: MonolithId, b: Body): Report {
    if m in db.customers then AlreadyMigrated
    else if SettingsResult(b).Rejected? then StoppedAtSettings(SettingsResult(b).reason)
    else PreviewSteps(db, b, STEPS)
  }

  // ---------------------------------------------------------------- rollback

  /** A journal row the rollback reverses: migration rows about the customer's invoices and notes. */
  predicate Reversible(db: Tables, c: CustomerId, e: Entry<Tag>) {
    e.ref.migration
    && match e.ref.subject
       case OfInvoice(i) => i in db.invoices && db.invoices[i].customer == c
       case OfNote(n) => n in db.notes && db.notes[n].customer == c
       case OfOther(_) => false
  }

  function ToReverse(db: Tables, c: CustomerId, ledger: seq<Entry<Tag>>): seq<Entry<Tag>> {
    if ledger == [] then []
    else
      var last := ledger[|ledger| - 1];
      ToReverse(db, c, ledger[..|ledger| - 1]) + if Reversible(db, c, last) then [last] else []
  }

  /** Deleting the customer's rows violates a foreign key: an invoice still points at one of its
      subscriptions, which are deleted first, or rows the rollback leaves alone point at what it deletes. */
  predicate Blocked(db: Tables, c: CustomerId) {
    || (exists i :: i in db.invoices && db.invoices[i].subscription.Some?
          && db.invoices[i].subscription.value in db.subscriptions
          && db.subscriptions[db.invoices[i].subscription.value].customer == c)
    || (exists i :: i in db.referenced && i in db.invoices && db.invoices[i].customer == c)
    || c in db.flagged
  }

  datatype RollbackReport = NotMigrated | RolledBack(reversals: nat) | RollbackFailed

  function Rollback(db: Tables, m: MonolithId): (Tables, RollbackReport) {
    if m !in db.customers then (db, NotMigrated)
    else
      var c := db.customers[m].id;
      var rows := ToReverse(db, c, db.ledger);
      if Blocked(db, c) then (db, RollbackFailed)
      else (Rest(db, c).(ledger := db.ledger + Mirrors(rows)), RolledBack(|rows|))
  }
}
