/** Refunds never exceed the charge they return, and cash never goes negative. */
module RefundCap {
  import opened Sums
  import opened Ledger
  import opened BillingState
  import opened BillingHandlers
  import opened BillingChanges
  import opened Payments

  /** What a charge has brought in so far. */
  ghost function Received(db: Db, k: ChargeKey): int
    requires k in db.charges
  {
    if IsPosted(db.ledger, k) then db.charges[k].amount else 0
  }

  /** What is left of a charge after its refunds. */
  ghost function Held(db: Db, k: ChargeKey): int
    requires k in db.charges
  {
    Received(db, k) - RefundedCents(db, k)
  }

  ghost function Holdings(db: Db): map<ChargeKey, int> {
    map k | k in db.charges :: Held(db, k)
  }

  ghost predicate Capped(db: Db) {
    && (forall r :: r in db.refunds ==> db.refunds[r].charge in db.charges)
    && (forall k :: k in db.charges ==> Held(db, k) >= 0)
    && Net(db.ledger, Cash) == SumBy(Holdings(db), Same)
  }

  lemma EmptyIsCapped()
    ensures Capped(EMPTY_DB)
  {
  }

  /** A charge without refund rows has nothing refunded. */
  lemma {:induction false} NoRefunds(refunds: map<RefundKey, Refund>, k: ChargeKey)
    requires forall r :: r in refunds ==> refunds[r].charge != k
    ensures SumBy(refunds, RefundedWeight(k)) == 0
    decreases |refunds|
  {
    if refunds != map[] {
      var r :| r in refunds && SumBy(refunds, RefundedWeight(k))
                               == RefundedWeight(k)(refunds[r]) + SumBy(refunds - {r}, RefundedWeight(k));
      NoRefunds(refunds - {r}, k);
    }
  }

  lemma PostedAppend(l: Journal, e: Entry<Reference>, k: ChargeKey)
    ensures IsPosted(l + [e], k) <==> IsPosted(l, k) || e.ref == PaymentRef(k)
  {
    assert e in l + [e];
    if IsPosted(l, k) {
      var d :| d in l && d.ref == PaymentRef(k);
      assert d in l + [e];
    }
  }

  /** Entries that neither pay nor move cash leave the holdings alone. */
  lemma {:induction false} QuietEntries(l: Journal, added: Journal, k: ChargeKey)
    requires forall e :: e in added ==> !e.ref.PaymentRef?
    ensures IsPosted(l + added, k) <==> IsPosted(l, k)
  {
    if IsPosted(l, k) {
      var d :| d in l && d.ref == PaymentRef(k);
      assert d in l + added;
    }
  }

  lemma QuietKeepsCap(db: Db, after: Db, added: Journal)
    requires after.ledger == db.ledger + added
    requires after.charges == db.charges && after.refunds == db.refunds
    requires forall e :: e in added ==> !e.ref.PaymentRef?
    requires Net(added, Cash) == 0
    requires Capped(db)
    ensures Capped(after)
  {
    NetConcat(db.ledger, added, Cash);
    forall k | k in db.charges ensures Held(after, k) == Held(db, k) { QuietEntries(db.ledger, added, k); }
    assert Holdings(after) == Holdings(db);
  }

  lemma InsertKeepsCap(db: Db, k: ChargeKey, row: Charge)
    requires k !in db.charges && PostingsKnown(db)
    requires Capped(db)
    ensures Capped(WithCharge(db, k, row))
  {
    var after := WithCharge(db, k, row);
    NoRefunds(db.refunds, k);
    assert Held(after, k) == 0;
    assert Holdings(after) == Holdings(db)[k := 0];
    SumByPut(Holdings(db), k, 0, Same);
  }

  lemma FailKeepsCap(db: Db, k: ChargeKey)
    requires k in db.charges
    requires Capped(db)
    ensures Capped(WithCharge(db, k, db.charges[k].(status := Failed)))
  {
    assert Holdings(WithCharge(db, k, db.charges[k].(status := Failed))) == Holdings(db);
  }

  /** Collecting a charge of an unpaid invoice, which therefore was not posted, adds its amount. */
  lemma CollectHolds(db: Db, k: ChargeKey, j: ChargeKey)
    requires Allowed(db, Collect(k)) && PaidOnce(db) && j in db.charges
    ensures Held(Collected(db, k), j) == Held(db, j) + if j == k then db.charges[k].amount else 0
  {
    var i := db.charges[k].invoice;
    assert PaidExactly(db, i);
    if IsPosted(db.ledger, k) { PostedShows(db.ledger, db.charges, k); }
    PostedAppend(db.ledger, Entry(Cash, AccountsReceivable, db.invoices[i].total, PaymentRef(k)), j);
  }

  lemma HoldingsMove(db: Db, after: Db, k: ChargeKey, delta: int)
    requires k in db.charges && after.charges.Keys == db.charges.Keys
    requires forall j :: j in db.charges ==> Held(after, j) == Held(db, j) + if j == k then delta else 0
    ensures k in Holdings(db) && Holdings(db)[k] == Held(db, k)
    ensures Holdings(after) == Holdings(db)[k := Held(db, k) + delta]
  {
    hide Held;
  }

  lemma HoldingsSum(db: Db, after: Db, k: ChargeKey, delta: int)
    requires k in db.charges && after.charges.Keys == db.charges.Keys
    requires forall j :: j in db.charges ==> Held(after, j) == Held(db, j) + if j == k then delta else 0
    ensures SumBy(Holdings(after), Same) == SumBy(Holdings(db), Same) + delta
  {
    hide *;
    HoldingsMove(db, after, k, delta);
    PutMovesSum(Holdings(db), k, Held(db, k) + delta);
  }

  lemma PutMovesSum(m: map<ChargeKey, int>, k: ChargeKey, v: int)
    requires k in m
    ensures SumBy(m[k := v], Same) == SumBy(m, Same) - m[k] + v
  {
    hide SumBy;
    SumByPut(m, k, v, Same);
  }

  lemma CappedBy(db: Db)
    requires forall r :: r in db.refunds ==> db.refunds[r].charge in db.charges
    requires forall k :: k in db.charges ==> Held(db, k) >= 0
    requires Net(db.ledger, Cash) == SumBy(Holdings(db), Same)
    ensures Capped(db)
  {
    hide Held, Holdings, SumBy, Net;
  }

  /** When one holding moves and cash moves with it, the cap stays as long as the holding does not go
      negative. */
  lemma OneHoldingMoves(db: Db, after: Db, k: ChargeKey, delta: int)
    requires Capped(db) && k in db.charges && after.charges.Keys == db.charges.Keys
    requires forall r :: r in after.refunds ==> after.refunds[r].charge in after.charges
    requires forall j :: j in db.charges ==> Held(after, j) == Held(db, j) + if j == k then delta else 0
    requires Held(db, k) + delta >= 0
    requires Net(after.ledger, Cash) == Net(db.ledger, Cash) + delta
    ensures Capped(after)
  {
    HoldingsSum(db, after, k, delta);
    hide Net, Held, Holdings, SumBy;
    CappedBy(after);
  }

  lemma CollectKeepsCap(db: Db, k: ChargeKey)
    requires Allowed(db, Collect(k)) && PaidOnce(db)
    requires Capped(db)
    ensures Capped(Collected(db, k))
  {
    var c := db.charges[k];
    var after := Collected(db, k);
    forall j | j in db.charges
      ensures Held(after, j) == Held(db, j) + if j == k then c.amount else 0
    {
      CollectHolds(db, k, j);
    }
    NetAppend(db.ledger, Entry(Cash, AccountsReceivable, db.invoices[c.invoice].total, PaymentRef(k)), Cash);
    OneHoldingMoves(db, after, k, c.amount);
  }

  lemma FailedRefundKeepsCap(db: Db, r: RefundKey, k: ChargeKey, amount: int)
    requires Allowed(db, FailRefund(r, k, amount))
    requires Capped(db)
    ensures Capped(WithFailedRefund(db, r, k, amount))
  {
    var after := WithFailedRefund(db, r, k, amount);
    forall j | j in db.charges ensures Held(after, j) == Held(db, j) {
      SumByPut(db.refunds, r, Refund(k, amount, RefundFailed), RefundedWeight(j));
    }
    assert Holdings(after) == Holdings(db);
  }

  lemma RefundHolds(db: Db, r: RefundKey, k: ChargeKey, amount: int, j: ChargeKey)
    requires r !in db.refunds && j in db.charges
    ensures Held(Refunded(db, r, k, amount), j) == Held(db, j) - if j == k then amount else 0
  {
    SumByPut(db.refunds, r, Refund(k, amount, RefundSucceeded), RefundedWeight(j));
    PostedAppend(db.ledger, Entry(Ledger.Refunds, Cash, amount, RefundRef(r)), j);
  }

  lemma RefundKeepsCap(db: Db, r: RefundKey, k: ChargeKey, amount: int)
    requires r !in db.refunds && k in db.charges && IsPosted(db.ledger, k)
    requires RefundedCents(db, k) + amount <= db.charges[k].amount
    requires Capped(db)
    ensures Capped(Refunded(db, r, k, amount))
  {
    var after := Refunded(db, r, k, amount);
    forall j | j in db.charges
      ensures Held(after, j) == Held(db, j) + if j == k then -amount else 0
    {
      RefundHolds(db, r, k, amount, j);
    }
    NetAppend(db.ledger, Entry(Ledger.Refunds, Cash, amount, RefundRef(r)), Cash);
    assert forall q :: q in after.refunds ==> after.refunds[q].charge in after.charges;
    assert Held(db, k) - amount >= 0;
    hide Net, Held, Capped, RefundedCents, IsPosted;
    OneHoldingMoves(db, after, k, -amount);
  }

  lemma NoteKeepsCap(db: Db, n: NoteId, note: Note)
    requires Capped(db)
    ensures Capped(WithNote(db, n, note))
  {
    assert [] + [NoteEntry(n, note.amount)] == [NoteEntry(n, note.amount)];
    NetAppend([], NoteEntry(n, note.amount), Cash);
    QuietKeepsCap(db, WithNote(db, n, note), [NoteEntry(n, note.amount)]);
  }

  lemma VoidKeepsCap(db: Db, i: InvoiceId)
    requires i in db.invoices
    requires Capped(db)
    ensures Capped(Voided(db, i))
  {
    var e := Entry(Revenue, AccountsReceivable, db.invoices[i].total, VoidRef(i));
    assert [] + [e] == [e];
    NetAppend([], e, Cash);
    QuietKeepsCap(db, Voided(db, i), [e]);
  }

  lemma SettlementMovesNoCash(i: InvoiceId, applied: int, total: int)
    ensures Net(CreditEntries(i, applied) + InvoiceEntries(i, total), Cash) == 0
  {
    NetConcat(CreditEntries(i, applied), InvoiceEntries(i, total), Cash);
    assert Net(CreditEntries(i, applied), Cash) == 0 && Net(InvoiceEntries(i, total), Cash) == 0;
  }

  lemma SettleKeepsCap(db: Db, i: InvoiceId, s: Settlement)
    requires i in db.invoices
    requires Capped(db)
    ensures Capped(Settled(db, i, s))
  {
    hide Net, Capped;
    var credit, billed := CreditEntries(i, s.applied), InvoiceEntries(i, s.total);
    SettlementMovesNoCash(i, s.applied, s.total);
    assert Settled(db, i, s).ledger == db.ledger + (credit + billed);
    QuietKeepsCap(db, Settled(db, i, s), credit + billed);
  }

  /** Every allowed row change keeps every charge's refunds within it and cash in step. */
  lemma ChangeKeepsCap(db: Db, ch: Change)
    requires PaidOnce(db) && Capped(db) && Allowed(db, ch)
    ensures Capped(Apply(db, ch))
  {
    match ch
    case SettleInvoice(i, credit, terms) =>
      SettleKeepsCap(db, i, Settle(db.invoices[i].lines, db.invoices[i].total, credit, terms).value);
    case Cancel(i) => VoidKeepsCap(db, i);
    case InsertCharge(k, row) => InsertKeepsCap(db, k, row);
    case FailCharge(k) => FailKeepsCap(db, k);
    case Collect(k) => CollectKeepsCap(db, k);
    case AddNote(n, note) => NoteKeepsCap(db, n, note);
    case FailRefund(r, k, amount) => FailedRefundKeepsCap(db, r, k, amount);
    case PayRefund(r, k, amount) => RefundKeepsCap(db, r, k, amount);
    case _ =>
      assert db.ledger == db.ledger + [];
      QuietKeepsCap(db, Apply(db, ch), []);
  }

  /** Cash is never negative where every charge is capped. */
  lemma CashIsNotNegative(db: Db)
    requires Capped(db)
    ensures Net(db.ledger, Cash) >= 0
  {
    SumByNonNegative(Holdings(db), Same);
  }
}
