/** Exactly-once payment: what the cash postings say about each invoice. */
module Payments {
  import opened Ledger
  import opened BillingState
  import opened BillingHandlers
  import opened BillingChanges

  predicate PostsFor(e: Entry<Reference>, charges: map<ChargeKey, Charge>, i: InvoiceId) {
    e.ref.PaymentRef? && e.ref.charge in charges && charges[e.ref.charge].invoice == i
  }

  /** The amounts of the payment postings made for the charges of one invoice, oldest first. */
  function Postings(ledger: Journal, charges: map<ChargeKey, Charge>, i: InvoiceId): seq<int> {
    if ledger == [] then []
    else
      var e := ledger[|ledger| - 1];
      Postings(ledger[..|ledger| - 1], charges, i) + if PostsFor(e, charges, i) then [e.amount] else []
  }

  /** The charge has been posted as a payment, so it has succeeded at some time. */
  predicate IsPosted(ledger: Journal, k: ChargeKey) {
    exists e :: e in ledger && e.ref == PaymentRef(k)
  }

  /** A charge belongs to a billed invoice and carries its customer and its total. */
  ghost predicate ChargesMatch(db: Db) {
    forall k :: k in db.charges ==>
      var c := db.charges[k];
      && c.invoice in db.invoices
      && db.invoices[c.invoice].status != Draft
      && db.invoices[c.invoice].customer == c.customer
      && db.invoices[c.invoice].total == c.amount
  }

  /** Payment postings move cash against receivables and refer to known charges. */
  ghost predicate PostingsKnown(db: Db) {
    forall e :: e in db.ledger && e.ref.PaymentRef? ==>
      e.ref.charge in db.charges && e.debit == Cash && e.credit == AccountsReceivable
  }

  /** A paid invoice of a positive total has exactly one posting, of its total; no other has any. */
  ghost predicate PaidExactly(db: Db, i: InvoiceId)
    requires i in db.invoices
  {
    var inv := db.invoices[i];
    Postings(db.ledger, db.charges, i) == if inv.status == Paid && inv.total > 0 then [inv.total] else []
  }

  ghost predicate PaidOnce(db: Db) {
    && ChargesMatch(db)
    && PostingsKnown(db)
    && (forall i :: i in db.invoices ==> PaidExactly(db, i))
    && (forall i :: i in db.invoices && db.invoices[i].status == Paid ==> db.invoices[i].total >= 0)
    && (forall k :: k in db.charges && db.charges[k].status == Succeeded ==> IsPosted(db.ledger, k))
  }

  lemma PostingsAppend(l: Journal, e: Entry<Reference>, charges: map<ChargeKey, Charge>, i: InvoiceId)
    ensures Postings(l + [e], charges, i) == Postings(l, charges, i) + if PostsFor(e, charges, i) then [e.amount] else []
  {
    assert (l + [e])[..|l|] == l;
  }

  /** Entries that are not payments add no posting. */
  lemma {:induction false} PostingsConcat(l: Journal, r: Journal, charges: map<ChargeKey, Charge>, i: InvoiceId)
    requires forall e :: e in r ==> !e.ref.PaymentRef?
    ensures Postings(l + r, charges, i) == Postings(l, charges, i)
  {
    if r == [] {
      assert l + r == l;
    } else {
      var n := |r| - 1;
      PostingsConcat(l, r[..n], charges, i);
      assert l + r == l + r[..n] + [r[n]];
      PostingsAppend(l + r[..n], r[n], charges, i);
    }
  }

  /** Postings depend only on which invoice the posted charges belong to. */
  lemma {:induction false} PostingsFrame(l: Journal, a: map<ChargeKey, Charge>, b: map<ChargeKey, Charge>, i: InvoiceId)
    requires forall e :: e in l && e.ref.PaymentRef? ==>
               e.ref.charge in a && e.ref.charge in b && a[e.ref.charge].invoice == b[e.ref.charge].invoice
    ensures Postings(l, a, i) == Postings(l, b, i)
  {
    if l != [] {
      assert l == l[..|l| - 1] + [l[|l| - 1]];
      PostingsFrame(l[..|l| - 1], a, b, i);
    }
  }

  /** A posted charge shows in the postings of its invoice. */
  lemma {:induction false} PostedShows(l: Journal, charges: map<ChargeKey, Charge>, k: ChargeKey)
    requires k in charges && IsPosted(l, k)
    ensures Postings(l, charges, charges[k].invoice) != []
  {
    var e :| e in l && e.ref == PaymentRef(k);
    var n := |l| - 1;
    assert l == l[..n] + [l[n]];
    if l[n] != e { PostedShows(l[..n], charges, k); }
  }

  /** Two posted charges of one invoice leave two postings. */
  lemma {:induction false} TwoPostedShowTwice(l: Journal, charges: map<ChargeKey, Charge>, j: ChargeKey, k: ChargeKey)
    requires j in charges && k in charges && j != k && charges[j].invoice == charges[k].invoice
    requires IsPosted(l, j) && IsPosted(l, k)
    ensures |Postings(l, charges, charges[k].invoice)| >= 2
  {
    var n := |l| - 1;
    assert l == l[..n] + [l[n]];
    if l[n].ref == PaymentRef(j) {
      PostedShows(l[..n], charges, k);
    } else if l[n].ref == PaymentRef(k) {
      PostedShows(l[..n], charges, j);
    } else {
      TwoPostedShowTwice(l[..n], charges, j, k);
    }
  }

  lemma EmptyIsPaidOnce()
    ensures PaidOnce(EMPTY_DB)
  {
  }

  /** Appending other entries and changing invoices without touching the paid ones keeps payments exact. */
  lemma OtherPaysOnce(db: Db, after: Db, added: Journal)
    requires after.ledger == db.ledger + added && after.charges == db.charges
    requires forall e :: e in added ==> !e.ref.PaymentRef?
    requires ChargesMatch(after)
    requires after.invoices.Keys <= db.invoices.Keys
    requires forall i :: i in after.invoices && after.invoices[i] != db.invoices[i] ==>
               db.invoices[i].status != Paid && (after.invoices[i].status == Paid ==> after.invoices[i].total == 0)
    requires PaidOnce(db)
    ensures PaidOnce(after)
  {
    forall j | j in after.invoices ensures PaidExactly(after, j) {
      assert PaidExactly(db, j);
      PostingsConcat(db.ledger, added, db.charges, j);
    }
    forall k | k in after.charges && after.charges[k].status == Succeeded ensures IsPosted(after.ledger, k) {
      var e :| e in db.ledger && e.ref == PaymentRef(k);
      assert e in after.ledger;
    }
  }

  lemma SamePaysOnce(db: Db, after: Db)
    requires after.ledger == db.ledger && after.charges == db.charges && after.invoices == db.invoices
    requires PaidOnce(db)
    ensures PaidOnce(after)
  {
    assert db.ledger == db.ledger + [];
    OtherPaysOnce(db, after, []);
  }

  lemma SettlePaysOnce(db: Db, i: InvoiceId, s: Settlement)
    requires i in db.invoices && db.invoices[i].status == Draft
    requires PaidOnce(db)
    ensures PaidOnce(Settled(db, i, s))
  {
    var added := CreditEntries(i, s.applied) + InvoiceEntries(i, s.total);
    assert Settled(db, i, s).ledger == db.ledger + added;
    OtherPaysOnce(db, Settled(db, i, s), added);
  }

  lemma EntryPaysOnce(db: Db, after: Db, e: Entry<Reference>)
    requires after.ledger == db.ledger + [e] && !e.ref.PaymentRef? && after.charges == db.charges
    requires after.invoices == db.invoices
    requires PaidOnce(db)
    ensures PaidOnce(after)
  {
    OtherPaysOnce(db, after, [e]);
  }

  lemma VoidPaysOnce(db: Db, i: InvoiceId)
    requires Allowed(db, Cancel(i))
    requires PaidOnce(db)
    ensures PaidOnce(Voided(db, i))
  {
    OtherPaysOnce(db, Voided(db, i), [Entry(Revenue, AccountsReceivable, db.invoices[i].total, VoidRef(i))]);
  }

  lemma ChargePaysOnce(db: Db, k: ChargeKey, row: Charge)
    requires row.status != Succeeded
    requires if k in db.charges then row == db.charges[k].(status := row.status) else Allowed(db, InsertCharge(k, row))
    requires PaidOnce(db)
    ensures PaidOnce(WithCharge(db, k, row))
  {
    var after := WithCharge(db, k, row);
    forall j | j in after.invoices ensures PaidExactly(after, j) {
      assert PaidExactly(db, j);
      PostingsFrame(db.ledger, db.charges, after.charges, j);
    }
  }

  lemma CollectPaysOnce(db: Db, k: ChargeKey)
    requires Allowed(db, Collect(k))
    requires PaidOnce(db)
    ensures PaidOnce(Collected(db, k))
  {
    var after := Collected(db, k);
    CollectedMatches(db, k);
    CollectedIsPosted(db, k);
    hide *;
    forall j | j in after.invoices ensures PaidExactly(after, j) { CollectedPays(db, k, j); }
    ArePaidOnce(after);
  }

  lemma ArePaidOnce(db: Db)
    requires ChargesMatch(db) && PostingsKnown(db)
    requires forall i :: i in db.invoices ==> PaidExactly(db, i)
    requires forall i :: i in db.invoices && db.invoices[i].status == Paid ==> db.invoices[i].total >= 0
    requires forall k :: k in db.charges && db.charges[k].status == Succeeded ==> IsPosted(db.ledger, k)
    ensures PaidOnce(db)
  {
    hide ChargesMatch, PostingsKnown, PaidExactly, IsPosted;
  }

  lemma CollectedMatches(db: Db, k: ChargeKey)
    requires Allowed(db, Collect(k)) && PaidOnce(db)
    ensures Collected(db, k).invoices.Keys == db.invoices.Keys && ChargesMatch(Collected(db, k))
    ensures forall i :: i in Collected(db, k).invoices && Collected(db, k).invoices[i].status == Paid ==>
              Collected(db, k).invoices[i].total >= 0
  {
    hide Postings, PaidExactly, IsPosted, PostingsKnown;
  }

  lemma CollectedIsPosted(db: Db, k: ChargeKey)
    requires Allowed(db, Collect(k)) && PaidOnce(db)
    ensures PostingsKnown(Collected(db, k))
    ensures forall j :: j in Collected(db, k).charges && Collected(db, k).charges[j].status == Succeeded ==>
              IsPosted(Collected(db, k).ledger, j)
  {
    hide Postings, PaidExactly;
    var after := Collected(db, k);
    var e := Entry(Cash, AccountsReceivable, db.invoices[db.charges[k].invoice].total, PaymentRef(k));
    assert e in after.ledger && forall d :: d in db.ledger ==> d in after.ledger;
  }

  lemma CollectedPays(db: Db, k: ChargeKey, j: InvoiceId)
    requires Allowed(db, Collect(k)) && PaidOnce(db) && j in db.invoices
    ensures PaidExactly(Collected(db, k), j)
  {
    hide Postings, IsPosted;
    var after := Collected(db, k);
    var e := Entry(Cash, AccountsReceivable, db.invoices[db.charges[k].invoice].total, PaymentRef(k));
    assert PaidExactly(db, j);
    PostingsFrame(db.ledger, db.charges, after.charges, j);
    PostingsAppend(db.ledger, e, after.charges, j);
  }

  /** Every allowed row change keeps payments exact. */
  lemma ChangePaysOnce(db: Db, ch: Change)
    requires PaidOnce(db) && Allowed(db, ch)
    ensures PaidOnce(Apply(db, ch))
  {
    hide Postings, PaidExactly, Settle;
    match ch
    case WriteDraft(i, draft) => DraftPaysOnce(db, i, draft);
    case PutDraft(i, draft) => DraftPaysOnce(db, i, draft);
    case DropDraft(i) => DropPaysOnce(db, i);
    case SettleInvoice(i, credit, terms) =>
      SettlePaysOnce(db, i, Settle(db.invoices[i].lines, db.invoices[i].total, credit, terms).value);
    case Cancel(i) => VoidPaysOnce(db, i);
    case InsertCharge(k, row) => ChargePaysOnce(db, k, row);
    case FailCharge(k) => ChargePaysOnce(db, k, db.charges[k].(status := Failed));
    case Collect(k) => CollectPaysOnce(db, k);
    case AddNote(n, note) => NotePaysOnce(db, n, note);
    case FailRefund(_, _, _) => SamePaysOnce(db, Apply(db, ch));
    case PayRefund(r, k, amount) =>
      EntryPaysOnce(db, Refunded(db, r, k, amount), Entry(Ledger.Refunds, Cash, amount, RefundRef(r)));
    case _ => SamePaysOnce(db, Apply(db, ch));
  }

  lemma NotePaysOnce(db: Db, n: NoteId, note: Note)
    requires PaidOnce(db)
    ensures PaidOnce(WithNote(db, n, note))
  {
    EntryPaysOnce(db, WithNote(db, n, note), NoteEntry(n, note.amount));
  }

  lemma DraftPaysOnce(db: Db, i: InvoiceId, draft: Invoice)
    requires Writable(db, i, draft)
    requires PaidOnce(db)
    ensures PaidOnce(WithDraft(db, i, draft))
  {
    var after := WithDraft(db, i, draft);
    forall j | j in after.invoices ensures PaidExactly(after, j) {
      if j in db.invoices { assert PaidExactly(db, j); } else { UnknownHasNoPosting(db, db.ledger, j); }
    }
  }

  lemma DropPaysOnce(db: Db, i: InvoiceId)
    requires Allowed(db, DropDraft(i))
    requires PaidOnce(db)
    ensures PaidOnce(WithVoidedDraft(db, i))
  {
    var after := WithVoidedDraft(db, i);
    forall j | j in after.invoices ensures PaidExactly(after, j) { assert PaidExactly(db, j); }
  }

  lemma {:induction false} UnknownHasNoPosting(db: Db, l: Journal, i: InvoiceId)
    requires ChargesMatch(db) && i !in db.invoices
    ensures Postings(l, db.charges, i) == []
  {
    if l != [] { UnknownHasNoPosting(db, l[..|l| - 1], i); }
  }
}
