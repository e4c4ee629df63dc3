/** The billing tables as one value, and the row changes every handler is made of. */
module BillingState {
  import opened Options
  import opened Ledger

  type CustomerId = nat
  type SubscriptionId = nat
  type InvoiceId = nat
  type MethodId = nat
  type IntentId = nat
  type NoteId = nat
  type RefundKey = nat
  type EventId = nat

  datatype InvoiceStatus = Draft | Finalized | Paid | Void
  datatype InvoiceType = Recurring | Onboarding | OneTime

  datatype LineType = SurchargeLine | CreditLine | OtherLine
  datatype LineItem = LineItem(kind: LineType, amount: int, quantity: int)

  datatype Invoice = Invoice(
    customer: CustomerId,
    subscription: Option<SubscriptionId>,
    kind: InvoiceType,
    status: InvoiceStatus,
    total: int,
    lines: seq<LineItem>)

  /** A credit note; the amount is negative when it takes credit back. */
  datatype Note = Note(customer: CustomerId, amount: int)

  /** The unique idempotency key of a charge row, which identifies the row. A numbered attempt on an
      invoice generates its key; a one-time charge brings any key the caller likes. */
  datatype ChargeKey = Attempt(invoice: InvoiceId, number: nat) | Token(value: nat)

  datatype ChargeStatus = Pending | Succeeded | Failed
  datatype Charge = Charge(
    invoice: InvoiceId,
    customer: CustomerId,
    pm: MethodId,
    amount: int,
    status: ChargeStatus,
    intent: Option<IntentId>)

  datatype RefundStatus = RefundSucceeded | RefundFailed
  datatype Refund = Refund(charge: ChargeKey, amount: int, status: RefundStatus)

  datatype RetryStatus = Scheduled | RetrySucceeded | RetryFailed | Skipped
  datatype Retry = Retry(number: nat, status: RetryStatus, pm: Option<MethodId>)

  /** The dunning attempts of one invoice in order of insertion, and how often it has escalated. */
  datatype Chain = Chain(retries: seq<Retry>, escalations: nat)

  /** What a ledger row refers to. */
  datatype Reference =
    | InvoiceRef(invoice: InvoiceId)
    | VoidRef(invoice: InvoiceId)
    | PaymentRef(charge: ChargeKey)
    | RefundRef(refund: RefundKey)
    | CreditNoteRef(note: NoteId)
    | CreditApplicationRef(invoice: InvoiceId)

  type Journal = seq<Entry<Reference>>

  datatype Db = Db(
    invoices: map<InvoiceId, Invoice>,
    balances: map<CustomerId, int>,
    notes: map<NoteId, Note>,
    charges: map<ChargeKey, Charge>,
    refunds: map<RefundKey, Refund>,
    dunning: map<InvoiceId, Chain>,
    processed: set<EventId>,
    ledger: Journal)

  const EMPTY_DB := Db(map[], map[], map[], map[], map[], map[], {}, [])

  function Balance(db: Db, c: CustomerId): int {
    if c in db.balances then db.balances[c] else 0
  }

  function ChainOf(db: Db, i: InvoiceId): Chain {
    if i in db.dunning then db.dunning[i] else Chain([], 0)
  }

  // ---------------------------------------------------------------- line items

  function LineTotal(lines: seq<LineItem>): int {
    if lines == [] then 0
    else LineTotal(lines[..|lines| - 1]) + lines[|lines| - 1].amount * lines[|lines| - 1].quantity
  }

  /** The lines of one type, in order. */
  function OfType(lines: seq<LineItem>, kind: LineType): seq<LineItem> {
    if lines == [] then []
    else
      var last := lines[|lines| - 1];
      OfType(lines[..|lines| - 1], kind) + if last.kind == kind then [last] else []
  }

  /** The lines not of one type, in order. */
  function NotOfType(lines: seq<LineItem>, kind: LineType): seq<LineItem> {
    if lines == [] then []
    else
      var last := lines[|lines| - 1];
      NotOfType(lines[..|lines| - 1], kind) + if last.kind != kind then [last] else []
  }

  // ---------------------------------------------------------------- row changes

  /** A draft is inserted, or its lines and total are replaced. */
  function WithDraft(db: Db, i: InvoiceId, draft: Invoice): Db {
    db.(invoices := db.invoices[i := draft])
  }

  function WithVoidedDraft(db: Db, i: InvoiceId): Db
    requires i in db.invoices
  {
    db.(invoices := db.invoices[i := db.invoices[i].(status := Void)])
  }

  /** What finalisation computes: the final lines, the credit used and the amount left to pay. */
  datatype Settlement = Settlement(lines: seq<LineItem>, applied: int, total: int)

  function CreditEntries(i: InvoiceId, applied: int): Journal {
    if applied > 0 then [Entry(AccountsReceivable, Credits, applied, CreditApplicationRef(i))] else []
  }

  function InvoiceEntries(i: InvoiceId, total: int): Journal {
    if total > 0 then [Entry(AccountsReceivable, Revenue, total, InvoiceRef(i))] else []
  }

  function Settled(db: Db, i: InvoiceId, s: Settlement): Db
    requires i in db.invoices
  {
    var inv := db.invoices[i];
    var final := inv.(
      status := if s.total == 0 then Paid else Finalized,
      total := s.total,
      lines := s.lines);
    db.(
      invoices := db.invoices[i := final],
      balances := if s.applied > 0 then db.balances[inv.customer := Balance(db, inv.customer) - s.applied]
                  else db.balances,
      ledger := db.ledger + CreditEntries(i, s.applied) + InvoiceEntries(i, s.total))
  }

  function Voided(db: Db, i: InvoiceId): Db
    requires i in db.invoices
  {
    var inv := db.invoices[i];
    db.(
      invoices := db.invoices[i := inv.(status := Void)],
      ledger := db.ledger + [Entry(Revenue, AccountsReceivable, inv.total, VoidRef(i))])
  }

  /** A charge row is inserted, or changes without succeeding. */
  function WithCharge(db: Db, k: ChargeKey, c: Charge): Db {
    db.(charges := db.charges[k := c])
  }

  /** The payment transaction: the charge succeeds, its invoice is paid, cash is posted. */
  function Collected(db: Db, k: ChargeKey): Db
    requires k in db.charges && db.charges[k].invoice in db.invoices
  {
    var i := db.charges[k].invoice;
    var inv := db.invoices[i];
    db.(
      charges := db.charges[k := db.charges[k].(status := Succeeded)],
      invoices := db.invoices[i := inv.(status := Paid)],
      ledger := db.ledger + [Entry(Cash, AccountsReceivable, inv.total, PaymentRef(k))])
  }

  function NoteEntry(n: NoteId, amount: int): Entry<Reference> {
    if amount >= 0 then Entry(Credits, AccountsReceivable, amount, CreditNoteRef(n))
    else Entry(AccountsReceivable, Credits, -amount, CreditNoteRef(n))
  }

  function WithNote(db: Db, n: NoteId, note: Note): Db {
    db.(
      notes := db.notes[n := note],
      balances := db.balances[note.customer := Balance(db, note.customer) + note.amount],
      ledger := db.ledger + [NoteEntry(n, note.amount)])
  }

  function WithFailedRefund(db: Db, r: RefundKey, k: ChargeKey, amount: int): Db {
    db.(refunds := db.refunds[r := Refund(k, amount, RefundFailed)])
  }

  function Refunded(db: Db, r: RefundKey, k: ChargeKey, amount: int): Db {
    db.(
      refunds := db.refunds[r := Refund(k, amount, RefundSucceeded)],
      ledger := db.ledger + [Entry(Ledger.Refunds, Cash, amount, RefundRef(r))])
  }

  function WithChain(db: Db, i: InvoiceId, c: Chain): Db {
    db.(dunning := db.dunning[i := c])
  }

  function Marked(db: Db, e: EventId): Db {
    db.(processed := db.processed + {e})
  }
}
