/** The five accounts agree with the invoice, credit and refund tables. */
module Books {
  import opened Sums
  import opened Ledger
  import opened BillingState
  import opened BillingHandlers
  import opened BillingChanges

  /** What the ledger posts for an invoice of this total: it refuses amounts that are not positive. */
  function Postable(total: int): int { if total > 0 then total else 0 }

  function Receivable(inv: Invoice): int {
    if inv.status == Finalized then Postable(inv.total) else 0
  }

  function Billed(inv: Invoice): int {
    if inv.status == Finalized then Postable(inv.total) else if inv.status == Paid then inv.total else 0
  }

  function PaidTotal(inv: Invoice): int { if inv.status == Paid then inv.total else 0 }

  function GivenBack(r: Refund): int { if r.status == RefundSucceeded then r.amount else 0 }

  /** The net debit the tables call for. */
  ghost function Expected(db: Db, a: Account): int {
    match a
    case AccountsReceivable => SumBy(db.invoices, Receivable) - SumBy(db.balances, Same)
    case Cash => SumBy(db.invoices, PaidTotal) - SumBy(db.refunds, GivenBack)
    case Revenue => -SumBy(db.invoices, Billed)
    case Credits => SumBy(db.balances, Same)
    case Refunds => SumBy(db.refunds, GivenBack)
  }

  ghost predicate BalancedAt(db: Db, a: Account) {
    Net(db.ledger, a) == Expected(db, a)
  }

  ghost predicate Balanced(db: Db) {
    forall a: Account :: BalancedAt(db, a)
  }

  lemma InvoicePut(m: map<InvoiceId, Invoice>, i: InvoiceId, inv: Invoice)
    ensures SumBy(m[i := inv], Receivable) == SumBy(m, Receivable) - (if i in m then Receivable(m[i]) else 0) + Receivable(inv)
    ensures SumBy(m[i := inv], Billed) == SumBy(m, Billed) - (if i in m then Billed(m[i]) else 0) + Billed(inv)
    ensures SumBy(m[i := inv], PaidTotal) == SumBy(m, PaidTotal) - (if i in m then PaidTotal(m[i]) else 0) + PaidTotal(inv)
  {
    SumByPut(m, i, inv, Receivable);
    SumByPut(m, i, inv, Billed);
    SumByPut(m, i, inv, PaidTotal);
  }

  /** What the entries of a settlement do to an account. */
  lemma SettlementNets(l: Journal, i: InvoiceId, applied: int, total: int, a: Account)
    requires applied >= 0
    ensures Net(l + CreditEntries(i, applied) + InvoiceEntries(i, total), a) == Net(l, a)
              + (if a == AccountsReceivable then applied + Postable(total) else 0)
              - (if a == Credits then applied else 0)
              - (if a == Revenue then Postable(total) else 0)
  {
    var credited := l + CreditEntries(i, applied);
    NetConcat(l, CreditEntries(i, applied), a);
    NetConcat(credited, InvoiceEntries(i, total), a);
    NetAppend([], Entry(AccountsReceivable, Credits, applied, CreditApplicationRef(i)), a);
    NetAppend([], Entry(AccountsReceivable, Revenue, total, InvoiceRef(i)), a);
    assert forall e: Entry<Reference> :: [] + [e] == [e];
  }

  lemma SettlePosts(db: Db, i: InvoiceId, s: Settlement, a: Account)
    requires i in db.invoices && db.invoices[i].status == Draft && s.applied >= 0
    requires BalancedAt(db, a)
    ensures BalancedAt(Settled(db, i, s), a)
  {
    hide Net, SumBy;
    var inv := db.invoices[i];
    InvoicePut(db.invoices, i, Settled(db, i, s).invoices[i]);
    SumByPut(db.balances, inv.customer, Balance(db, inv.customer) - s.applied, Same);
    SettlementNets(db.ledger, i, s.applied, s.total, a);
  }

  lemma NotePosts(db: Db, n: NoteId, note: Note, a: Account)
    requires BalancedAt(db, a)
    ensures BalancedAt(WithNote(db, n, note), a)
  {
    hide Net, SumBy;
    SumByPut(db.balances, note.customer, Balance(db, note.customer) + note.amount, Same);
    NetAppend(db.ledger, NoteEntry(n, note.amount), a);
  }

  lemma VoidPosts(db: Db, i: InvoiceId, a: Account)
    requires i in db.invoices && db.invoices[i].status == Finalized && db.invoices[i].total > 0
    requires BalancedAt(db, a)
    ensures BalancedAt(Voided(db, i), a)
  {
    hide Net, SumBy;
    InvoicePut(db.invoices, i, Voided(db, i).invoices[i]);
    NetAppend(db.ledger, Entry(Revenue, AccountsReceivable, db.invoices[i].total, VoidRef(i)), a);
  }

  lemma PaymentPosts(db: Db, k: ChargeKey, a: Account)
    requires Allowed(db, Collect(k))
    requires BalancedAt(db, a)
    ensures BalancedAt(Collected(db, k), a)
  {
    hide Net, SumBy;
    var i := db.charges[k].invoice;
    InvoicePut(db.invoices, i, Collected(db, k).invoices[i]);
    NetAppend(db.ledger, Entry(Cash, AccountsReceivable, db.invoices[i].total, PaymentRef(k)), a);
  }

  lemma RefundPosts(db: Db, r: RefundKey, k: ChargeKey, amount: int, a: Account)
    requires r !in db.refunds
    requires BalancedAt(db, a)
    ensures BalancedAt(Refunded(db, r, k, amount), a)
    ensures BalancedAt(WithFailedRefund(db, r, k, amount), a)
  {
    hide Net, SumBy;
    SumByPut(db.refunds, r, Refund(k, amount, RefundSucceeded), GivenBack);
    SumByPut(db.refunds, r, Refund(k, amount, RefundFailed), GivenBack);
    NetAppend(db.ledger, Entry(Ledger.Refunds, Cash, amount, RefundRef(r)), a);
  }

  lemma DraftsPostNothing(db: Db, i: InvoiceId, draft: Invoice, a: Account)
    requires draft.status == Draft && (i in db.invoices ==> db.invoices[i].status == Draft)
    requires BalancedAt(db, a)
    ensures BalancedAt(WithDraft(db, i, draft), a)
    ensures i in db.invoices ==> BalancedAt(WithVoidedDraft(db, i), a)
  {
    InvoicePut(db.invoices, i, draft);
    if i in db.invoices { InvoicePut(db.invoices, i, WithVoidedDraft(db, i).invoices[i]); }
  }

  /** Every allowed row change keeps every account balanced. */
  lemma ChangeBalances(db: Db, ch: Change, a: Account)
    requires BalancedAt(db, a) && Allowed(db, ch)
    ensures BalancedAt(Apply(db, ch), a)
  {
    match ch
    case WriteDraft(i, draft) => DraftsPostNothing(db, i, draft, a);
    case PutDraft(i, draft) => DraftsPostNothing(db, i, draft, a);
    case DropDraft(i) => DraftsPostNothing(db, i, db.invoices[i], a);
    case SettleInvoice(i, credit, terms) =>
      SettlePosts(db, i, Settle(db.invoices[i].lines, db.invoices[i].total, credit, terms).value, a);
    case Cancel(i) => VoidPosts(db, i, a);
    case Collect(k) => PaymentPosts(db, k, a);
    case AddNote(n, note) => NotePosts(db, n, note, a);
    case FailRefund(r, k, amount) => RefundPosts(db, r, k, amount, a);
    case PayRefund(r, k, amount) => RefundPosts(db, r, k, amount, a);
    case _ =>
  }

  lemma ChangeKeepsBooks(db: Db, ch: Change)
    requires Balanced(db) && Allowed(db, ch)
    ensures Balanced(Apply(db, ch))
  {
    forall a: Account ensures BalancedAt(Apply(db, ch), a) { ChangeBalances(db, ch, a); }
  }

  lemma EmptyIsBalanced()
    ensures Balanced(EMPTY_DB)
  {
    forall a: Account ensures BalancedAt(EMPTY_DB, a) { }
  }
}
