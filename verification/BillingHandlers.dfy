/** What each handler does to the billing tables. A handler call is one step; a database transaction
    that throws leaves the tables it found. */
module BillingHandlers {
  import opened Options
  import opened Sums
  import opened BillingState

  // ---------------------------------------------------------------- surcharge and settlement

  datatype SurchargeRule = Percentage(value: int) | FlatFee(dollars: int)

  /** What a surcharge depends on: whether the default method is a card, and the customer's rule. */
  datatype Terms = Terms(card: bool, rule: Option<SurchargeRule>)

  function Min(a: int, b: int): int { if a <= b then a else b }

  /** n / 100 rounded to the nearest integer, halves upwards. */
  function RoundPercent(n: int): int { (2 * n + 100) / 200 }

  /** The card surcharge on a subtotal, 0 when there is none. */
  function Surcharge(terms: Terms, subtotal: int): (fee: int)
    ensures fee >= 0
  {
    if !terms.card || terms.rule.None? then 0
    else
      var fee := match terms.rule.value
        case Percentage(v) => RoundPercent(subtotal * v)
        case FlatFee(d) => d * 100;
      if fee <= 0 then 0 else fee
  }

  function SurchargeLines(fee: int): seq<LineItem> {
    if fee > 0 then [LineItem(SurchargeLine, fee, 1)] else []
  }

  /** The surcharge at finalisation: none when nothing is left to pay. */
  function FinalFee(terms: Terms, due: int): (fee: int)
    ensures fee >= 0
  {
    if due <= 0 then 0 else Surcharge(terms, due)
  }

  function SurchargeOn(lines: seq<LineItem>): int { LineTotal(OfType(lines, SurchargeLine)) }

  /** The lines without the draft surcharge; nothing is deleted when the surcharge sums to nothing. */
  function Stripped(lines: seq<LineItem>): seq<LineItem> {
    if SurchargeOn(lines) > 0 then NotOfType(lines, SurchargeLine) else lines
  }

  function CreditLines(applied: int): seq<LineItem> {
    if applied > 0 then [LineItem(CreditLine, -applied, 1)] else []
  }

  function CreditToApply(balance: int, subtotal: int): int {
    if balance == 0 then 0 else Min(balance, subtotal)
  }

  /** Apply credit to the subtotal of the kept lines, then charge the surcharge on what is left. None when
      the ledger refuses the credit entry. */
  function ApplyCreditAndSurcharge(kept: seq<LineItem>, subtotal: int, balance: int, terms: Terms): Option<Settlement> {
    var applied := CreditToApply(balance, subtotal);
    if balance != 0 && applied <= 0 then None
    else
      var fee := FinalFee(terms, subtotal - applied);
      Some(Settlement(kept + CreditLines(applied) + SurchargeLines(fee), applied, subtotal - applied + fee))
  }

  /** Finalisation: strip the draft surcharge, then apply credit and surcharge afresh. */
  function Settle(lines: seq<LineItem>, total: int, balance: int, terms: Terms): Option<Settlement> {
    ApplyCreditAndSurcharge(Stripped(lines), total - SurchargeOn(lines), balance, terms)
  }

  // ---------------------------------------------------------------- invoices

  function CreateDraft(db: Db, i: InvoiceId, c: CustomerId, sub: Option<SubscriptionId>, kind: InvoiceType,
                       lines: seq<LineItem>, total: int, terms: Terms): Db
  {
    var fee := Surcharge(terms, total);
    WithDraft(db, i, Invoice(c, sub, kind, Draft, total + fee, lines + SurchargeLines(fee)))
  }

  /** One line as the seeding of a new draft copies it: an employee line is rebuilt from its breakdown, when
      it has one, and any other line is taken as it is. */
  function CopiedLine(l: LineItem, rebuilt: Option<int>): LineItem {
    if l.kind == OtherLine && rebuilt.Some? then l.(amount := rebuilt.value) else l
  }

  /** The lines of a closed invoice, surcharge left out, as the new draft gets them. `rebuilt` gives, by
      position, the amounts that breakdowns add up to. */
  function CopiedLines(kept: seq<LineItem>, rebuilt: map<nat, int>): seq<LineItem> {
    if kept == [] then []
    else
      var n := |kept| - 1;
      CopiedLines(kept[..n], rebuilt) + [CopiedLine(kept[n], if n in rebuilt then Some(rebuilt[n]) else None)]
  }

  /** Seeding the next draft when the payroll cannot be fetched: a copy of the closed invoice's lines. */
  function SeedCopy(db: Db, i: InvoiceId, from: InvoiceId, c: CustomerId, rebuilt: map<nat, int>, terms: Terms): Db {
    if from !in db.invoices || db.invoices[from].kind != Recurring || db.invoices[from].subscription.None? then db
    else
      var lines := CopiedLines(NotOfType(db.invoices[from].lines, SurchargeLine), rebuilt);
      CreateDraft(db, i, c, db.invoices[from].subscription, Recurring, lines, LineTotal(lines), terms)
  }

  predicate OpenDraft(db: Db, c: CustomerId, i: InvoiceId) {
    i in db.invoices && db.invoices[i].customer == c && db.invoices[i].status == Draft
  }

  predicate OpenRecurringDraft(db: Db, c: CustomerId, i: InvoiceId) {
    OpenDraft(db, c, i) && db.invoices[i].kind == Recurring
  }

  /** `found` is a row the query for drafts may return, or None when there is no such row. */
  predicate FoundDraft(db: Db, c: CustomerId, found: Option<InvoiceId>) {
    if found.Some? then OpenDraft(db, c, found.value)
    else forall i :: i in db.invoices ==> !OpenDraft(db, c, i)
  }

  predicate FoundRecurringDraft(db: Db, c: CustomerId, found: Option<InvoiceId>) {
    if found.Some? then OpenRecurringDraft(db, c, found.value)
    else forall i :: i in db.invoices ==> !OpenRecurringDraft(db, c, i)
  }

  predicate OnlyRecurringDraft(db: Db, c: CustomerId, i: InvoiceId) {
    forall j :: j in db.invoices && OpenRecurringDraft(db, c, j) ==> j == i
  }

  function UpdateOpenDraft(db: Db, c: CustomerId, found: Option<InvoiceId>, lines: seq<LineItem>,
                           total: int, terms: Terms): Db
    requires FoundRecurringDraft(db, c, found)
  {
    if found.None? || !OnlyRecurringDraft(db, c, found.value) then db
    else
      var fee := Surcharge(terms, total);
      WithDraft(db, found.value,
                db.invoices[found.value].(total := total + fee, lines := lines + SurchargeLines(fee)))
  }

  /** A draft with the surcharge of the current terms. */
  function Resurcharged(draft: Invoice, terms: Terms): Invoice {
    var kept := NotOfType(draft.lines, SurchargeLine);
    var fee := Surcharge(terms, LineTotal(kept));
    draft.(total := LineTotal(kept) + fee, lines := kept + SurchargeLines(fee))
  }

  function Recalculate(db: Db, c: CustomerId, found: Option<InvoiceId>, terms: Terms): Db
    requires FoundRecurringDraft(db, c, found)
  {
    if found.None? then db
    else WithDraft(db, found.value, Resurcharged(db.invoices[found.value], terms))
  }

  function VoidDraft(db: Db, c: CustomerId, found: Option<InvoiceId>): Db
    requires FoundDraft(db, c, found)
  {
    if found.None? then db else WithVoidedDraft(db, found.value)
  }

  function Finalize(db: Db, i: InvoiceId, terms: Terms): Db {
    if i !in db.invoices || db.invoices[i].status != Draft then db
    else
      var inv := db.invoices[i];
      match Settle(inv.lines, inv.total, Balance(db, inv.customer), terms)
      case None => db
      case Some(s) => Settled(db, i, s)
  }

  function SubscriptionInvoice(c: CustomerId, sub: SubscriptionId, amount: int): Invoice {
    Invoice(c, Some(sub), Recurring, Draft, amount, [LineItem(OtherLine, amount, 1)])
  }

  /** The scheduler's fallback when the period has no draft: create and finalise in one transaction. */
  function BillSubscription(db: Db, i: InvoiceId, c: CustomerId, sub: SubscriptionId, amount: int,
                            terms: Terms): Db
  {
    var inv := SubscriptionInvoice(c, sub, amount);
    match Settle(inv.lines, inv.total, Balance(db, c), terms)
    case None => db
    case Some(s) => Settled(WithDraft(db, i, inv), i, s)
  }

  function VoidInvoice(db: Db, i: InvoiceId): Db {
    if i !in db.invoices || db.invoices[i].status != Finalized || db.invoices[i].total <= 0 then db
    else Voided(db, i)
  }

  // ---------------------------------------------------------------- payment

  datatype GatewayReply = Approved(intent: IntentId) | Accepted(intent: IntentId)
                        | Declined(intent: IntentId) | Threw

  /** What the outside world does in one charge: the gateway's reply, whether both success events are
      published, and whether the failure event is. */
  datatype Outcome = Outcome(reply: GatewayReply, published: bool, failurePublished: bool)

  /** The gateway took the money: the payment is recorded, which the ledger refuses for no amount; when
      publishing fails afterwards the charge row is marked failed. */
  function RecordApproved(db: Db, k: ChargeKey, row: Charge, intent: IntentId, published: bool): (r: Db)
    requires row.invoice in db.invoices
    ensures r.dunning == db.dunning && k in r.charges
    ensures r.charges == db.charges[k := r.charges[k]] && r.charges[k].invoice == row.invoice
  {
    if db.invoices[row.invoice].total <= 0 then WithCharge(db, k, row.(status := Failed))
    else
      var paid := Collected(WithCharge(db, k, row.(intent := Some(intent))), k);
      if published then paid else WithCharge(paid, k, paid.charges[k].(status := Failed))
  }

  /** A fresh charge row is inserted and the gateway is called. */
  function RunCharge(db: Db, k: ChargeKey, i: InvoiceId, m: MethodId, o: Outcome): (r: Db)
    requires i in db.invoices
    ensures r.dunning == db.dunning && k in r.charges
    ensures r.charges == db.charges[k := r.charges[k]] && r.charges[k].invoice == i
  {
    var inv := db.invoices[i];
    var row := Charge(i, inv.customer, m, inv.total, Pending, None);
    match o.reply
    case Approved(intent) => RecordApproved(db, k, row, intent, o.published)
    case Accepted(intent) => WithCharge(db, k, row.(intent := Some(intent)))
    case Declined(intent) => WithCharge(db, k, row.(status := Failed, intent := Some(intent)))
    case Threw => WithCharge(db, k, row.(status := Failed))
  }

  /** The charge ended in the handler's catch block. */
  predicate RunThrew(total: int, o: Outcome) {
    o.reply.Threw? || (o.reply.Approved? && (total <= 0 || !o.published))
  }

  datatype Report = Raised | AlreadyPaid | Reported(status: ChargeStatus)
  datatype Payment = Payment(db: Db, report: Report)

  /** Attempt `n` on an invoice. `pm` is None when the method, the customer or the gateway account
      cannot be resolved. */
  function Pay(db: Db, i: InvoiceId, n: nat, pm: Option<MethodId>, o: Outcome): Payment {
    if i !in db.invoices then Payment(db, Raised)
    else if db.invoices[i].status == Paid then Payment(db, AlreadyPaid)
    else if db.invoices[i].status != Finalized || pm.None? then Payment(db, Raised)
    else
      var k := Attempt(i, n);
      if k in db.charges then Payment(db, Reported(db.charges[k].status))
      else
        var run := RunCharge(db, k, i, pm.value, o);
        if !RunThrew(db.invoices[i].total, o) then Payment(run, Reported(run.charges[k].status))
        else if !o.failurePublished then Payment(run, Raised)
        else if db.invoices[i].subscription.Some? && n == 1 then
          Payment(ScheduleDunning(run, i), Reported(Failed))
        else Payment(run, Reported(Failed))
  }

  function OneTimeInvoice(c: CustomerId, amount: int): Invoice {
    Invoice(c, None, Recurring, Draft, amount, [LineItem(OtherLine, amount, 1)])
  }

  /** A one-time charge: an invoice finalised at once, then charged under the caller's key. */
  function ChargeOnce(db: Db, i: InvoiceId, k: ChargeKey, c: CustomerId, amount: int,
                      pm: Option<MethodId>, o: Outcome): Db
  {
    if k in db.charges || pm.None? || amount <= 0 then db
    else
      var inv := OneTimeInvoice(c, amount);
      var billed := Settled(WithDraft(db, i, inv), i, Settlement(inv.lines, 0, amount));
      RunCharge(billed, k, i, pm.value, o)
  }

  // ---------------------------------------------------------------- dunning

  predicate AnyNotSkipped(retries: seq<Retry>) {
    exists r :: r in retries && r.status != Skipped
  }

  function ScheduleDunning(db: Db, i: InvoiceId): Db {
    var c := ChainOf(db, i);
    if AnyNotSkipped(c.retries) then db
    else WithChain(db, i, c.(retries := c.retries + [Retry(1, Scheduled, None)]))
  }

  function SkipScheduled(retries: seq<Retry>): (r: seq<Retry>)
    ensures |r| == |retries|
  {
    if retries == [] then []
    else
      var last := retries[|retries| - 1];
      SkipScheduled(retries[..|retries| - 1])
      + [if last.status == Scheduled then last.(status := Skipped) else last]
  }

  function TriedMethods(retries: seq<Retry>): set<MethodId> {
    set r | r in retries && r.pm.Some? && r.status == RetryFailed :: r.pm.value
  }

  /** The first method, in order, that has not failed. */
  function FirstUntried(methods: seq<MethodId>, tried: set<MethodId>): Option<MethodId> {
    if methods == [] then None
    else if methods[0] !in tried then Some(methods[0])
    else FirstUntried(methods[1..], tried)
  }

  function SelectMethod(methods: seq<MethodId>, retries: seq<Retry>): Option<MethodId> {
    if |methods| == 1 then Some(methods[0])
    else FirstUntried(methods, TriedMethods(retries))
  }

  function SkipRest(c: Chain, j: nat): Chain
    requires j < |c.retries|
  {
    c.(retries := SkipScheduled(c.retries[j := c.retries[j].(status := Skipped)]))
  }

  /** No method is left: the attempt fails without a charge and the chain escalates. */
  function Exhausted(c: Chain, j: nat): Chain
    requires j < |c.retries|
  {
    Chain(SkipScheduled(c.retries[j := c.retries[j].(status := RetryFailed)]), c.escalations + 1)
  }

  function Recovered(c: Chain, j: nat, m: MethodId): Chain
    requires j < |c.retries|
  {
    c.(retries := SkipScheduled(c.retries[j := c.retries[j].(status := RetrySucceeded, pm := Some(m))]))
  }

  /** The attempt failed: schedule the next one, or escalate when the limit is reached. */
  function NextOrEscalate(c: Chain, j: nat, m: MethodId, limit: nat): Chain
    requires j < |c.retries|
  {
    var failed := c.retries[j := c.retries[j].(status := RetryFailed, pm := Some(m))];
    var next := c.retries[j].number + 1;
    if next > limit then Chain(failed, c.escalations + 1)
    else Chain(failed + [Retry(next, Scheduled, None)], c.escalations)
  }

  /** The chain after the charge of attempt row `j` has been reported on. */
  function AfterReport(c: Chain, j: nat, m: MethodId, report: Report, limit: nat): Chain
    requires j < |c.retries|
  {
    match report
    case Raised => c
    case AlreadyPaid => SkipRest(c, j)
    case Reported(s) => if s == Succeeded then Recovered(c, j, m) else NextOrEscalate(c, j, m, limit)
  }

  /** Execute attempt row `j` of an invoice. `methods` are the customer's active methods in order;
      `ready` is false when the selected one cannot be charged. */
  function RunDunning(db: Db, i: InvoiceId, j: nat, methods: seq<MethodId>, ready: bool, o: Outcome,
                      limit: nat): Db
  {
    var c := ChainOf(db, i);
    if j >= |c.retries| || c.retries[j].status != Scheduled || i !in db.invoices then db
    else if db.invoices[i].status == Paid || db.invoices[i].status == Void then
      WithChain(db, i, SkipRest(c, j))
    else
      match SelectMethod(methods, c.retries)
      case None => WithChain(db, i, Exhausted(c, j))
      case Some(m) =>
        var p := Pay(db, i, c.retries[j].number, if ready then Some(m) else None, o);
        if p.report.Raised? then p.db else WithChain(p.db, i, AfterReport(c, j, m, p.report, limit))
  }

  // ---------------------------------------------------------------- webhooks

  /** `found` is a charge row carrying the intent, or None when there is no such row. */
  predicate FoundCharge(db: Db, intent: IntentId, found: Option<ChargeKey>) {
    if found.Some? then found.value in db.charges && db.charges[found.value].intent == Some(intent)
    else forall k :: k in db.charges ==> db.charges[k].intent != Some(intent)
  }

  /** A success event; the transaction aborts, and the event stays unprocessed, when the ledger refuses
      the amount, and it also stays unprocessed when publishing throws after the commit. */
  function PaymentSucceeded(db: Db, e: EventId, found: Option<ChargeKey>, published: bool): Db
    requires found.Some? ==> found.value in db.charges
  {
    if e in db.processed then db
    else if found.None? || db.charges[found.value].invoice !in db.invoices then Marked(db, e)
    else
      var c := db.charges[found.value];
      var inv := db.invoices[c.invoice];
      if inv.status != Finalized || c.status == Succeeded then Marked(db, e)
      else if inv.total <= 0 then db
      else
        var paid := Collected(db, found.value);
        if published then Marked(paid, e) else paid
  }

  function PaymentFailed(db: Db, e: EventId, found: Option<ChargeKey>, published: bool): Db
    requires found.Some? ==> found.value in db.charges
  {
    if e in db.processed then db
    else if found.None? then Marked(db, e)
    else
      var failed := WithCharge(db, found.value, db.charges[found.value].(status := Failed));
      if published then Marked(failed, e) else failed
  }

  // ---------------------------------------------------------------- credits and refunds

  /** `known` is false when the customer does not exist. */
  function IssueCreditNote(db: Db, n: NoteId, known: bool, c: CustomerId, invoice: Option<InvoiceId>,
                           amount: int): Db
  {
    if !known || amount == 0 then db
    else if invoice.Some? && (invoice.value !in db.invoices || db.invoices[invoice.value].customer != c
                              || amount > db.invoices[invoice.value].total) then db
    else WithNote(db, n, Note(c, amount))
  }

  /** What a refund row has given back of charge `k`. */
  function RefundedWeight(k: ChargeKey): Refund -> int {
    (r: Refund) => if r.charge == k && r.status == RefundSucceeded then r.amount else 0
  }

  ghost function RefundedCents(db: Db, k: ChargeKey): int {
    SumBy(db.refunds, RefundedWeight(k))
  }

  /** `accepted` is false when the gateway throws. A refund the ledger refuses fails as well. */
  ghost function CreateRefund(db: Db, r: RefundKey, k: ChargeKey, owner: Option<CustomerId>, amount: int,
                              accepted: bool): Db
  {
    if k !in db.charges then db
    else
      var c := db.charges[k];
      if (owner.Some? && c.customer != owner.value) || c.status != Succeeded || c.intent.None? then db
      else if RefundedCents(db, k) + amount > c.amount || r in db.refunds then db
      else if accepted && amount > 0 then Refunded(db, r, k, amount)
      else WithFailedRefund(db, r, k, amount)
  }

  // ---------------------------------------------------------------- steps and runs

  /** One handler call, with the ids it generates, the rows its queries find and what the gateway and
      the publisher do. */
  datatype Event =
    | EvCreateDraft(i: InvoiceId, c: CustomerId, sub: Option<SubscriptionId>, kind: InvoiceType,
                    lines: seq<LineItem>, total: int, terms: Terms)
    | EvSeedCopy(i: InvoiceId, from: InvoiceId, c: CustomerId, rebuilt: map<nat, int>, terms: Terms)
    | EvUpdateOpenDraft(c: CustomerId, found: Option<InvoiceId>, lines: seq<LineItem>, total: int, terms: Terms)
    | EvRecalculate(c: CustomerId, found: Option<InvoiceId>, terms: Terms)
    | EvVoidDraft(c: CustomerId, found: Option<InvoiceId>)
    | EvFinalize(i: InvoiceId, terms: Terms)
    | EvBillSubscription(i: InvoiceId, c: CustomerId, billed: SubscriptionId, amount: int, terms: Terms)
    | EvVoidInvoice(i: InvoiceId)
    | EvPay(i: InvoiceId, n: nat, pm: Option<MethodId>, o: Outcome)
    | EvChargeOnce(i: InvoiceId, key: ChargeKey, c: CustomerId, amount: int, pm: Option<MethodId>, o: Outcome)
    | EvRunDunning(i: InvoiceId, j: nat, methods: seq<MethodId>, ready: bool, o: Outcome)
    | EvPaymentSucceeded(e: EventId, intent: IntentId, charge: Option<ChargeKey>, published: bool)
    | EvPaymentFailed(e: EventId, intent: IntentId, charge: Option<ChargeKey>, published: bool)
    | EvOtherWebhook(e: EventId)
    | EvIssueCreditNote(note: NoteId, known: bool, c: CustomerId, invoice: Option<InvoiceId>, amount: int)
    | EvCreateRefund(r: RefundKey, key: ChargeKey, owner: Option<CustomerId>, amount: int, accepted: bool)

  /** Generated ids are fresh, and every row a query returns satisfies the query. Callers may bring any lines. */
  ghost predicate Enabled(db: Db, ev: Event) {
    match ev
    case EvCreateDraft(i, _, _, _, _, _, _) => i !in db.invoices
    case EvSeedCopy(i, _, _, _, _) => i !in db.invoices
    case EvUpdateOpenDraft(c, found, _, _, _) => FoundRecurringDraft(db, c, found)
    case EvRecalculate(c, found, _) => FoundRecurringDraft(db, c, found)
    case EvVoidDraft(c, found) => FoundDraft(db, c, found)
    case EvBillSubscription(i, _, _, _, _) => i !in db.invoices
    case EvChargeOnce(i, _, _, _, _, _) => i !in db.invoices
    case EvPaymentSucceeded(_, intent, charge, _) => FoundCharge(db, intent, charge)
    case EvPaymentFailed(_, intent, charge, _) => FoundCharge(db, intent, charge)
    case EvIssueCreditNote(n, _, _, _, _) => n !in db.notes
    case _ => true
  }

  /** `limit` is the configured number of retries. */
  ghost function Step(db: Db, ev: Event, limit: nat): Db
    requires Enabled(db, ev)
  {
    match ev
    case EvCreateDraft(i, c, sub, kind, lines, total, terms) => CreateDraft(db, i, c, sub, kind, lines, total, terms)
    case EvSeedCopy(i, from, c, rebuilt, terms) => SeedCopy(db, i, from, c, rebuilt, terms)
    case EvUpdateOpenDraft(c, found, lines, total, terms) => UpdateOpenDraft(db, c, found, lines, total, terms)
    case EvRecalculate(c, found, terms) => Recalculate(db, c, found, terms)
    case EvVoidDraft(c, found) => VoidDraft(db, c, found)
    case EvFinalize(i, terms) => Finalize(db, i, terms)
    case EvBillSubscription(i, c, sub, amount, terms) => BillSubscription(db, i, c, sub, amount, terms)
    case EvVoidInvoice(i) => VoidInvoice(db, i)
    case EvPay(i, n, pm, o) => Pay(db, i, n, pm, o).db
    case EvChargeOnce(i, k, c, amount, pm, o) => ChargeOnce(db, i, k, c, amount, pm, o)
    case EvRunDunning(i, j, methods, ready, o) => RunDunning(db, i, j, methods, ready, o, limit)
    case EvPaymentSucceeded(e, _, found, published) => PaymentSucceeded(db, e, found, published)
    case EvPaymentFailed(e, _, found, published) => PaymentFailed(db, e, found, published)
    case EvOtherWebhook(e) => Marked(db, e)
    case EvIssueCreditNote(n, known, c, invoice, amount) => IssueCreditNote(db, n, known, c, invoice, amount)
    case EvCreateRefund(r, k, owner, amount, accepted) => CreateRefund(db, r, k, owner, amount, accepted)
  }

  /** The states of a run that starts with empty tables. */
  ghost predicate Run(states: seq<Db>, events: seq<Event>, limit: nat) {
    && |states| == |events| + 1
    && states[0] == EMPTY_DB
    && forall t :: 0 <= t < |events| ==>
         Enabled(states[t], events[t]) && states[t + 1] == Step(states[t], events[t], limit)
  }
}
