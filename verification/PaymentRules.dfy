/** What payments, retries, webhooks and refunds come to, told from the tables and the call alone, in every case. */
module PaymentRules {
  import opened Options
  import opened Sums
  import opened Ledger
  import opened BillingState
  import opened BillingHandlers
  import opened DunningChains

  // ---------------------------------------------------------------- one charge

  function ChargeRow(inv: Invoice, i: InvoiceId, m: MethodId, status: ChargeStatus, intent: Option<IntentId>): Charge {
    Charge(i, inv.customer, m, inv.total, status, intent)
  }

  /** The tables after a new charge of an invoice. Money taken for a positive total makes the invoice paid and is posted
      as cash, even when the events do not get out, which marks the charge failed; nothing else pays. */
  predicate IsCharged(db: Db, after: Db, k: ChargeKey, i: InvoiceId, m: MethodId, o: Outcome)
    requires i in db.invoices
  {
    var inv := db.invoices[i];
    match o.reply
    case Approved(intent) =>
      if inv.total > 0 then
        after == db.(
          charges := db.charges[k := ChargeRow(inv, i, m, if o.published then Succeeded else Failed, Some(intent))],
          invoices := db.invoices[i := inv.(status := Paid)],
          ledger := db.ledger + [Entry(Cash, AccountsReceivable, inv.total, PaymentRef(k))])
      else after == db.(charges := db.charges[k := ChargeRow(inv, i, m, ChargeStatus.Failed, None)])
    case Accepted(intent) => after == db.(charges := db.charges[k := ChargeRow(inv, i, m, Pending, Some(intent))])
    case Declined(intent) => after == db.(charges := db.charges[k := ChargeRow(inv, i, m, ChargeStatus.Failed, Some(intent))])
    case Threw => after == db.(charges := db.charges[k := ChargeRow(inv, i, m, ChargeStatus.Failed, None)])
  }

  lemma ApprovedCharge(db: Db, k: ChargeKey, i: InvoiceId, m: MethodId, intent: IntentId, published: bool)
    requires i in db.invoices && db.invoices[i].total > 0
    ensures var inv := db.invoices[i];
            RecordApproved(db, k, ChargeRow(inv, i, m, Pending, None), intent, published)
            == db.(charges := db.charges[k := ChargeRow(inv, i, m, if published then Succeeded else ChargeStatus.Failed, Some(intent))],
                   invoices := db.invoices[i := inv.(status := Paid)],
                   ledger := db.ledger + [Entry(Cash, AccountsReceivable, inv.total, PaymentRef(k))])
  {
    var inv := db.invoices[i];
    var a, b := ChargeRow(inv, i, m, Pending, Some(intent)), ChargeRow(inv, i, m, Succeeded, Some(intent));
    var c := ChargeRow(inv, i, m, ChargeStatus.Failed, Some(intent));
    assert db.charges[k := a][k := b] == db.charges[k := b] && db.charges[k := b][k := c] == db.charges[k := c];
  }

  lemma ChargedInvoice(db: Db, k: ChargeKey, i: InvoiceId, m: MethodId, o: Outcome)
    requires i in db.invoices
    ensures IsCharged(db, RunCharge(db, k, i, m, o), k, i, m, o)
  {
    if o.reply.Approved? && db.invoices[i].total > 0 {
      ApprovedCharge(db, k, i, m, o.reply.intent, o.published);
      hide RecordApproved;
    }
  }

  /** The money was taken and the success reported. */
  predicate Settles(total: int, o: Outcome) { o.reply.Approved? && total > 0 && o.published }

  /** A payment attempt. Only a finalized invoice with a method that can be charged is charged, and only under a key that
      holds no charge: an existing one is reported as stored. A charge that ends in an exception is reported as failed if
      the failure event gets out, and then starts the dunning of a subscription's invoice on the first attempt, unless it
      has attempts that were not skipped. */
  lemma PaymentAttempt(db: Db, i: InvoiceId, n: nat, pm: Option<MethodId>, o: Outcome) returns (run: Db)
    ensures var p, k := Pay(db, i, n, pm, o), Attempt(i, n);
            if i !in db.invoices || db.invoices[i].status == Draft || db.invoices[i].status == Void then p == Payment(db, Raised)
            else if db.invoices[i].status == Paid then p == Payment(db, AlreadyPaid)
            else if pm.None? then p == Payment(db, Raised)
            else if k in db.charges then p == Payment(db, Reported(db.charges[k].status))
            else
              && IsCharged(db, run, k, i, pm.value, o)
              && (if Settles(db.invoices[i].total, o) then p == Payment(run, Reported(Succeeded))
                  else if o.reply.Accepted? then p == Payment(run, Reported(Pending))
                  else if o.reply.Declined? then p == Payment(run, Reported(ChargeStatus.Failed))
                  else if !o.failurePublished then p == Payment(run, Raised)
                  else p == Payment(
                         if db.invoices[i].subscription.Some? && n == 1 && NoneLeft(db, i) then
                           run.(dunning := db.dunning[i := Started(db, i)])
                         else run,
                         Reported(ChargeStatus.Failed)))
  {
    run := db;
    if i in db.invoices && db.invoices[i].status == Finalized && pm.Some? && Attempt(i, n) !in db.charges {
      run := RunCharge(db, Attempt(i, n), i, pm.value, o);
      ChargedInvoice(db, Attempt(i, n), i, pm.value, o);
      DunningStarts(run, i);
      hide RunCharge, ScheduleDunning;
    }
  }

  /** The invoice has no dunning attempt but skipped ones. */
  predicate NoneLeft(db: Db, i: InvoiceId) {
    i in db.dunning ==> forall j :: 0 <= j < |db.dunning[i].retries| ==> db.dunning[i].retries[j].status == Skipped
  }

  function Started(db: Db, i: InvoiceId): Chain {
    if i in db.dunning then db.dunning[i].(retries := db.dunning[i].retries + [Retry(1, Scheduled, None)])
    else Chain([Retry(1, Scheduled, None)], 0)
  }

  lemma DunningStarts(db: Db, i: InvoiceId)
    ensures ScheduleDunning(db, i) == if NoneLeft(db, i) then db.(dunning := db.dunning[i := Started(db, i)]) else db
  {
    assert [] + [Retry(1, Scheduled, None)] == [Retry(1, Scheduled, None)];
    if i in db.dunning {
      assert forall r :: r in db.dunning[i].retries <==> exists j :: 0 <= j < |db.dunning[i].retries| && db.dunning[i].retries[j] == r;
    }
  }

  /** A one-time charge of a positive amount under a new key: an invoice with one line, finalised without credit or
      surcharge and posted as a receivable, is charged at once. */
  lemma OneTimeCharge(db: Db, i: InvoiceId, k: ChargeKey, c: CustomerId, amount: int, pm: Option<MethodId>, o: Outcome)
    ensures var after := ChargeOnce(db, i, k, c, amount, pm, o);
            if k in db.charges || pm.None? || amount <= 0 then after == db
            else
              var row := Invoice(c, None, Recurring, Finalized, amount, [LineItem(OtherLine, amount, 1)]);
              var billed := db.(invoices := db.invoices[i := row],
                                ledger := db.ledger + [Entry(AccountsReceivable, Revenue, amount, InvoiceRef(i))]);
              IsCharged(billed, after, k, i, pm.value, o)
  {
    if k !in db.charges && pm.Some? && amount > 0 {
      var inv := OneTimeInvoice(c, amount);
      var row := inv.(status := Finalized);
      var billed := db.(invoices := db.invoices[i := row],
                        ledger := db.ledger + [Entry(AccountsReceivable, Revenue, amount, InvoiceRef(i))]);
      var no: Journal := [];
      assert db.invoices[i := inv][i := row] == db.invoices[i := row] && db.ledger + no == db.ledger;
      assert Settled(WithDraft(db, i, inv), i, Settlement(inv.lines, 0, amount)) == billed;
      ChargedInvoice(billed, k, i, pm.value, o);
      hide RunCharge, Settled, IsCharged;
    }
  }

  // ---------------------------------------------------------------- retries

  predicate HasFailed(retries: seq<Retry>, m: MethodId) {
    exists j :: 0 <= j < |retries| && retries[j].pm == Some(m) && retries[j].status == RetryFailed
  }

  /** The only method, or the first in order that has not failed on the chain, or none. */
  predicate NextMethod(methods: seq<MethodId>, retries: seq<Retry>, m: Option<MethodId>) {
    if |methods| == 1 then m == Some(methods[0])
    else if m.None? then forall q :: 0 <= q < |methods| ==> HasFailed(retries, methods[q])
    else exists q :: 0 <= q < |methods| && m == Some(methods[q]) && !HasFailed(retries, methods[q])
                     && forall r :: 0 <= r < q ==> HasFailed(retries, methods[r])
  }

  lemma {:induction false} FirstUntriedIsFirst(methods: seq<MethodId>, tried: set<MethodId>)
    ensures var m := FirstUntried(methods, tried);
            if m.None? then forall q :: 0 <= q < |methods| ==> methods[q] in tried
            else exists q :: 0 <= q < |methods| && m == Some(methods[q]) && methods[q] !in tried
                             && forall r :: 0 <= r < q ==> methods[r] in tried
  {
    if methods != [] && methods[0] in tried {
      FirstUntriedIsFirst(methods[1..], tried);
      var m := FirstUntried(methods[1..], tried);
      if m.Some? {
        var q :| 0 <= q < |methods[1..]| && m == Some(methods[1..][q]) && methods[1..][q] !in tried
                 && forall r :: 0 <= r < q ==> methods[1..][r] in tried;
        assert methods[q + 1] == methods[1..][q];
        assert forall r :: 0 < r < q + 1 ==> methods[r] == methods[1..][r - 1];
      } else {
        assert forall r :: 0 < r < |methods| ==> methods[r] == methods[1..][r - 1];
      }
    } else if methods != [] {
      assert methods[0] !in tried;
    }
  }

  lemma SelectsNextMethod(methods: seq<MethodId>, retries: seq<Retry>)
    ensures NextMethod(methods, retries, SelectMethod(methods, retries))
  {
    FirstUntriedIsFirst(methods, TriedMethods(retries));
    forall m ensures m in TriedMethods(retries) <==> HasFailed(retries, m) {
      if m in TriedMethods(retries) {
        var r :| r in retries && r.pm.Some? && r.status == RetryFailed && r.pm.value == m;
        var j :| 0 <= j < |retries| && retries[j] == r;
        assert HasFailed(retries, m);
      }
      if HasFailed(retries, m) {
        var j :| 0 <= j < |retries| && retries[j].pm == Some(m) && retries[j].status == RetryFailed;
        assert retries[j] in retries;
      }
    }
    hide FirstUntried, TriedMethods, HasFailed;
  }

  /** Executing attempt row `j` of an invoice, in any state of a run. Only the row changes, and a failed one may be followed
      by the next attempt: a paid or void invoice has it skipped; without a method it fails and the chain escalates;
      otherwise it is a payment attempt of its own number with the next method, whose report it takes over. */
  lemma ExecutedRetry(db: Db, i: InvoiceId, j: nat, methods: seq<MethodId>, ready: bool, o: Outcome, limit: nat)
    returns (m: Option<MethodId>, p: Payment)
    requires Dunned(db, limit)
    ensures var after := RunDunning(db, i, j, methods, ready, o, limit);
            var c := if i in db.dunning then db.dunning[i] else Chain([], 0);
            if j >= |c.retries| || c.retries[j].status != Scheduled || i !in db.invoices then after == db
            else if db.invoices[i].status == Paid || db.invoices[i].status == Void then
              after == db.(dunning := db.dunning[i := c.(retries := c.retries[j := c.retries[j].(status := Skipped)])])
            else
              && NextMethod(methods, c.retries, m)
              && if m.None? then
                   after == db.(dunning := db.dunning[i := Chain(c.retries[j := c.retries[j].(status := RetryFailed)], c.escalations + 1)])
                 else
                   && p == Pay(db, i, c.retries[j].number, if ready then m else None, o)
                   && if p.report.Raised? then after == p.db
                      else
                        && p.report.Reported?
                        && after == p.db.(dunning := p.db.dunning[i := AfterAttempt(c, j, m, p.report.status == Succeeded, limit)])
  {
    var c := ChainOf(db, i);
    m := SelectMethod(methods, c.retries);
    p := Payment(db, Raised);
    SelectsNextMethod(methods, c.retries);
    if j < |c.retries| && c.retries[j].status == Scheduled {
      p := Pay(db, i, c.retries[j].number, if ready then m else None, o);
      EndedChains(c, j, m, p.report, limit);
      NotPaidReport(db, i, c.retries[j].number, if ready then m else None, o);
      hide Pay, SelectMethod, NextMethod, Dunned, SkipRest, Exhausted, AfterReport, AfterAttempt;
    }
  }

  lemma EndedChains(c: Chain, j: nat, m: Option<MethodId>, report: Report, limit: nat)
    requires Orderly(c, limit) && j < |c.retries| && c.retries[j].status == Scheduled
    ensures SkipRest(c, j) == c.(retries := c.retries[j := c.retries[j].(status := Skipped)])
    ensures Exhausted(c, j) == Chain(c.retries[j := c.retries[j].(status := RetryFailed)], c.escalations + 1)
    ensures m.Some? && report.Reported? ==>
              AfterReport(c, j, m.value, report, limit) == AfterAttempt(c, j, m, report.status == Succeeded, limit)
  {
    EndKeepsOrder(c, j, c.retries[j].(status := Skipped), limit);
    EndKeepsOrder(c, j, c.retries[j].(status := RetryFailed), limit);
    EndKeepsOrder(c, j, c.retries[j].(status := RetrySucceeded, pm := Some(m.GetOr(0))), limit);
    hide Orderly, SkipScheduled;
  }

  lemma NotPaidReport(db: Db, i: InvoiceId, n: nat, pm: Option<MethodId>, o: Outcome)
    ensures Pay(db, i, n, pm, o).report.AlreadyPaid? ==> i in db.invoices && db.invoices[i].status == Paid
  {
    hide RunCharge, ScheduleDunning;
  }

  function AfterAttempt(c: Chain, j: nat, m: Option<MethodId>, succeeded: bool, limit: nat): Chain
    requires j < |c.retries|
  {
    var row := c.retries[j].(status := if succeeded then RetrySucceeded else RetryFailed, pm := m);
    if succeeded then Chain(c.retries[j := row], c.escalations)
    else if c.retries[j].number < limit then
      Chain(c.retries[j := row] + [Retry(c.retries[j].number + 1, Scheduled, None)], c.escalations)
    else Chain(c.retries[j := row], c.escalations + 1)
  }

  // ---------------------------------------------------------------- webhooks

  /** A success event has something to collect: its charge, not succeeded yet, of a finalized invoice. */
  predicate Collectable(db: Db, found: Option<ChargeKey>)
    requires found.Some? ==> found.value in db.charges
  {
    && found.Some? && db.charges[found.value].status != Succeeded
    && db.charges[found.value].invoice in db.invoices
    && db.invoices[db.charges[found.value].invoice].status == Finalized
  }

  /** An unprocessed success event collects its charge, posting exactly the total, if and only if the charge is
      collectable and the total positive; it is marked when the events get out. A collectable total of zero or less
      aborts and leaves it unmarked, anything else marks it, and a processed one does nothing. */
  lemma SuccessEvent(db: Db, e: EventId, found: Option<ChargeKey>, published: bool)
    requires found.Some? ==> found.value in db.charges
    ensures var after := PaymentSucceeded(db, e, found, published);
            if e in db.processed then after == db
            else if !Collectable(db, found) then after == db.(processed := db.processed + {e})
            else
              var k := found.value;
              var i := db.charges[k].invoice;
              if db.invoices[i].total <= 0 then after == db
              else after == db.(
                charges := db.charges[k := db.charges[k].(status := Succeeded)],
                invoices := db.invoices[i := db.invoices[i].(status := Paid)],
                ledger := db.ledger + [Entry(Cash, AccountsReceivable, db.invoices[i].total, PaymentRef(k))],
                processed := if published then db.processed + {e} else db.processed)
    ensures PaymentSucceeded(db, e, found, published).ledger != db.ledger
            <==> e !in db.processed && Collectable(db, found) && db.invoices[db.charges[found.value].invoice].total > 0
  {
    if Collectable(db, found) {
      var i := db.charges[found.value].invoice;
      var entry := Entry(Cash, AccountsReceivable, db.invoices[i].total, PaymentRef(found.value));
      assert |db.ledger + [entry]| == |db.ledger| + 1;
    }
  }

  /** An unprocessed failure event marks its charge failed, if it finds one, and changes nothing else; it is marked
      processed unless publishing its event throws. */
  lemma FailureEvent(db: Db, e: EventId, found: Option<ChargeKey>, published: bool)
    requires found.Some? ==> found.value in db.charges
    ensures var after := PaymentFailed(db, e, found, published);
            if e in db.processed then after == db
            else if found.None? then after == db.(processed := db.processed + {e})
            else after == db.(
              charges := db.charges[found.value := db.charges[found.value].(status := ChargeStatus.Failed)],
              processed := if published then db.processed + {e} else db.processed)
  {
  }

  /** A bank debit that the gateway had only accepted is collected by its success event. */
  lemma PendingDebitIsCollected(db: Db, e: EventId, k: ChargeKey)
    requires k in db.charges && db.charges[k].status == Pending && e !in db.processed
    requires db.charges[k].invoice in db.invoices && db.invoices[db.charges[k].invoice].status == Finalized
    requires db.invoices[db.charges[k].invoice].total == 300
    ensures var after := PaymentSucceeded(db, e, Some(k), true);
            && k in after.charges && after.charges[k].status == Succeeded
            && db.charges[k].invoice in after.invoices && after.invoices[db.charges[k].invoice].status == Paid
            && after.ledger == db.ledger + [Entry(Cash, AccountsReceivable, 300, PaymentRef(k))] && e in after.processed
  {
    SuccessEvent(db, e, Some(k), true);
    hide PaymentSucceeded;
  }

  // ---------------------------------------------------------------- refunds

  /** What has been given back of a charge. */
  ghost function GivenBack(refunds: map<RefundKey, Refund>, k: ChargeKey): int {
    SumBy(refunds, (r: Refund) => if r.charge == k && r.status == RefundSucceeded then r.amount else 0)
  }

  lemma GivenBackIs(db: Db, k: ChargeKey)
    ensures RefundedCents(db, k) == GivenBack(db.refunds, k)
  {
    SumByAgree(db.refunds, RefundedWeight(k), (r: Refund) => if r.charge == k && r.status == RefundSucceeded then r.amount else 0);
  }

  /** The call gets as far as the gateway: a known, succeeded charge with an intent, of the owner asked for, with room for
      the amount, up to all of it, and a new key. */
  ghost predicate Refundable(db: Db, r: RefundKey, k: ChargeKey, owner: Option<CustomerId>, amount: int) {
    && k in db.charges && db.charges[k].status == Succeeded && db.charges[k].intent.Some?
    && (owner.Some? ==> db.charges[k].customer == owner.value)
    && GivenBack(db.refunds, k) + amount <= db.charges[k].amount
    && r !in db.refunds
  }

  /** A refund succeeds, with its one row of cash paid out, exactly when it is refundable, positive and the gateway accepts
      it; refundable otherwise, it is recorded as failed and posts nothing; and else nothing changes. */
  lemma RefundCall(db: Db, r: RefundKey, k: ChargeKey, owner: Option<CustomerId>, amount: int, accepted: bool)
    ensures var after := CreateRefund(db, r, k, owner, amount, accepted);
            if !Refundable(db, r, k, owner, amount) then after == db
            else if accepted && amount > 0 then
              after == db.(refunds := db.refunds[r := Refund(k, amount, RefundSucceeded)],
                           ledger := db.ledger + [Entry(Ledger.Refunds, Cash, amount, RefundRef(r))])
            else after == db.(refunds := db.refunds[r := Refund(k, amount, RefundFailed)])
  {
    GivenBackIs(db, k);
    hide RefundedCents, GivenBack;
  }

  /** So three refunds of 100 use up a charge of 300, and a fourth is refused. */
  lemma RefundsUseUpCharge(db: Db, k: ChargeKey)
    requires k in db.charges && db.charges[k].status == Succeeded && db.charges[k].intent.Some? && db.charges[k].amount == 300
    requires db.refunds == map[]
    ensures var one := CreateRefund(db, 1, k, None, 100, true);
            var two := CreateRefund(one, 2, k, None, 100, true);
            var three := CreateRefund(two, 3, k, None, 100, true);
            GivenBack(three.refunds, k) == 300 && |three.ledger| == |db.ledger| + 3 && CreateRefund(three, 4, k, None, 100, true) == three
  {
    var one := CreateRefund(db, 1, k, None, 100, true);
    var two := CreateRefund(one, 2, k, None, 100, true);
    var three := CreateRefund(two, 3, k, None, 100, true);
    assert GivenBack(db.refunds, k) == 0;
    RefundAdds(db, 1, k);
    RefundAdds(one, 2, k);
    RefundAdds(two, 3, k);
    RefundCall(three, 4, k, None, 100, true);
    hide CreateRefund, GivenBack;
  }

  lemma RefundAdds(db: Db, r: RefundKey, k: ChargeKey)
    requires Refundable(db, r, k, None, 100)
    ensures var after := CreateRefund(db, r, k, None, 100, true);
            && after.charges == db.charges && after.refunds.Keys == db.refunds.Keys + {r}
            && GivenBack(after.refunds, k) == GivenBack(db.refunds, k) + 100 && |after.ledger| == |db.ledger| + 1
  {
    RefundCall(db, r, k, None, 100, true);
    SumByPut(db.refunds, r, Refund(k, 100, RefundSucceeded),
             (r: Refund) => if r.charge == k && r.status == RefundSucceeded then r.amount else 0);
    hide CreateRefund, SumBy;
  }
}
