/** The charges, dunning, webhook and refund services, updating the tables step by step. */
module PaymentServices {
  import opened Options
  import opened Sums
  import opened BillingState
  import opened BillingHandlers
  import opened Database

  class ChargesService {
    const db: Tables
    const ledger: LedgerService
    const dunning: DunningService

    ghost predicate Wired() {
      ledger.db == db && dunning.db == db
    }

    constructor (db: Tables, ledger: LedgerService, dunning: DunningService)
      requires ledger.db == db && dunning.db == db
      ensures Wired() && this.db == db && this.ledger == ledger && this.dunning == dunning
    {
      this.db := db;
      this.ledger := ledger;
      this.dunning := dunning;
    }

    /** The payment transaction: charge, invoice and ledger together, or nothing when the ledger throws. */
    method RecordSuccess(k: ChargeKey, intent: IntentId) returns (posted: bool)
      requires Wired() && k in db.charges && db.charges[k].invoice in db.invoices
      modifies db
      ensures posted <==> old(db.invoices[db.charges[k].invoice]).total > 0
      ensures !posted ==> db.Snapshot() == old(db.Snapshot())
      ensures var row := old(db.charges[k]).(intent := Some(intent));
              posted ==> db.Snapshot() == Collected(WithCharge(old(db.Snapshot()), k, row), k)
    {
      var saved := db.Snapshot();
      var i := db.charges[k].invoice;
      var inv := db.invoices[i];
      db.charges := db.charges[k := db.charges[k].(intent := Some(intent))];
      db.charges := db.charges[k := db.charges[k].(status := Succeeded)];
      db.invoices := db.invoices[i := inv.(status := Paid)];
      posted := ledger.RecordPaymentSucceeded(k, inv.total);
      if !posted { db.Restore(saved); }
    }

    /** Inserts the pending charge, calls the gateway and records the result; `threw` when the handler's
        catch block ran. */
    method ChargeInvoice(k: ChargeKey, i: InvoiceId, m: MethodId, o: Outcome) returns (threw: bool)
      requires Wired() && i in db.invoices && k !in db.charges
      modifies db
      ensures db.Snapshot() == RunCharge(old(db.Snapshot()), k, i, m, o)
      ensures threw == RunThrew(old(db.invoices[i]).total, o)
    {
      var inv := db.invoices[i];
      ghost var before := db.Snapshot();
      db.charges := db.charges[k := Charge(i, inv.customer, m, inv.total, Pending, None)];
      ghost var inserted := db.Snapshot();
      assert forall c: Charge :: WithCharge(inserted, k, c) == WithCharge(before, k, c) by {
        forall c: Charge ensures WithCharge(inserted, k, c) == WithCharge(before, k, c) {
          assert inserted.charges[k := c] == before.charges[k := c];
        }
      }
      match o.reply {
        case Approved(intent) =>
          var posted := RecordSuccess(k, intent);
          threw := !posted || !o.published;
        case Accepted(intent) =>
          db.charges := db.charges[k := db.charges[k].(intent := Some(intent))];
          threw := false;
        case Declined(intent) =>
          db.charges := db.charges[k := db.charges[k].(status := Failed, intent := Some(intent))];
          threw := false;
        case Threw =>
          threw := true;
      }
      if threw { db.charges := db.charges[k := db.charges[k].(status := Failed)]; }
    }

    method ExecutePaymentForInvoice(i: InvoiceId, n: nat, pm: Option<MethodId>, o: Outcome) returns (r: Report)
      requires Wired()
      modifies db
      ensures db.Snapshot() == Pay(old(db.Snapshot()), i, n, pm, o).db
      ensures r == Pay(old(db.Snapshot()), i, n, pm, o).report
    {
      hide RunCharge, RunThrew;
      if i !in db.invoices { return Raised; }
      var inv := db.invoices[i];
      if inv.status == Paid { return AlreadyPaid; }
      if inv.status != Finalized || pm.None? { return Raised; }
      var k := Attempt(i, n);
      if k in db.charges { return Reported(db.charges[k].status); }
      var threw := ChargeInvoice(k, i, pm.value, o);
      if !threw { return Reported(db.charges[k].status); }
      if !o.failurePublished { return Raised; }
      if inv.subscription.Some? && n == 1 { dunning.ScheduleDunningAttempt(i); }
      return Reported(Failed);
    }

    /** A one-time charge: the invoice is created and finalised in one transaction, then charged. */
    method CreateOneTimeCharge(i: InvoiceId, k: ChargeKey, c: CustomerId, amount: int, pm: Option<MethodId>, o: Outcome)
      requires Wired() && i !in db.invoices
      modifies db
      ensures db.Snapshot() == ChargeOnce(old(db.Snapshot()), i, k, c, amount, pm, o)
    {
      hide RunCharge;
      if k in db.charges || pm.None? { return; }
      var saved := db.Snapshot();
      var row := Invoice(c, None, Recurring, Draft, 0, []);
      db.invoices := db.invoices[i := row];
      row := row.(lines := row.lines + [LineItem(OtherLine, amount, 1)]);
      db.invoices := db.invoices[i := row];
      row := row.(total := amount, status := Finalized);
      db.invoices := db.invoices[i := row];
      var posted := ledger.RecordInvoiceFinalized(i, amount);
      if !posted {
        db.Restore(saved);
        return;
      }
      assert row.lines == [LineItem(OtherLine, amount, 1)];
      assert saved.ledger + CreditEntries(i, 0) == saved.ledger;
      ghost var inv := OneTimeInvoice(c, amount);
      assert db.Snapshot() == Settled(WithDraft(saved, i, inv), i, Settlement(inv.lines, 0, amount));
      var _ := ChargeInvoice(k, i, pm.value, o);
    }
  }

  class DunningService {
    const db: Tables
    const limit: nat

    constructor (db: Tables, limit: nat)
      ensures this.db == db && this.limit == limit
    {
      this.db := db;
      this.limit := limit;
    }

    /** Starts a chain unless an attempt that was not skipped exists. */
    method ScheduleDunningAttempt(i: InvoiceId)
      modifies db`dunning
      ensures db.Snapshot() == ScheduleDunning(old(db.Snapshot()), i)
    {
      var c := if i in db.dunning then db.dunning[i] else Chain([], 0);
      for n := 0 to |c.retries|
        invariant forall m :: 0 <= m < n ==> c.retries[m].status == Skipped
      {
        if c.retries[n].status != Skipped {
          assert c.retries[n] in c.retries;
          return;
        }
      }
      db.dunning := db.dunning[i := c.(retries := c.retries + [Retry(1, Scheduled, None)])];
    }

    /** Skips every attempt of a chain that is still scheduled. */
    method MarkRemainingAsSkipped(retries: seq<Retry>) returns (r: seq<Retry>)
      ensures r == SkipScheduled(retries)
    {
      r := [];
      for n := 0 to |retries|
        invariant r == SkipScheduled(retries[..n])
      {
        assert retries[..n + 1][..n] == retries[..n];
        var row := retries[n];
        if row.status == Scheduled { row := row.(status := Skipped); }
        r := r + [row];
      }
      assert retries[..|retries|] == retries;
    }

    /** The methods that have failed on this chain. */
    method CollectTriedMethods(retries: seq<Retry>) returns (tried: set<MethodId>)
      ensures tried == TriedMethods(retries)
    {
      tried := {};
      for n := 0 to |retries|
        invariant tried == TriedMethods(retries[..n])
      {
        var row := retries[n];
        assert retries[..n + 1] == retries[..n] + [row];
        if row.pm.Some? && row.status == RetryFailed { tried := tried + {row.pm.value}; }
      }
      assert retries[..|retries|] == retries;
    }

    method SelectPaymentMethodForAttempt(methods: seq<MethodId>, retries: seq<Retry>) returns (m: Option<MethodId>)
      ensures m == SelectMethod(methods, retries)
    {
      if |methods| == 1 { return Some(methods[0]); }
      var tried := CollectTriedMethods(retries);
      for n := 0 to |methods|
        invariant FirstUntried(methods, tried) == FirstUntried(methods[n..], tried)
      {
        if methods[n] !in tried { return Some(methods[n]); }
        assert methods[n..][1..] == methods[n + 1..];
      }
      return None;
    }

    method ExecuteDunningAttempt(i: InvoiceId, j: nat, methods: seq<MethodId>, ready: bool, o: Outcome,
                                 charges: ChargesService)
      requires charges.Wired() && charges.db == db
      modifies db
      ensures db.Snapshot() == RunDunning(old(db.Snapshot()), i, j, methods, ready, o, limit)
    {
      hide Pay, SkipScheduled, SelectMethod;
      var c := if i in db.dunning then db.dunning[i] else Chain([], 0);
      if j >= |c.retries| || c.retries[j].status != Scheduled || i !in db.invoices { return; }
      var attempt := c.retries[j];
      if db.invoices[i].status == Paid || db.invoices[i].status == Void {
        var skipped := MarkRemainingAsSkipped(c.retries[j := attempt.(status := Skipped)]);
        db.dunning := db.dunning[i := c.(retries := skipped)];
        return;
      }
      var m := SelectPaymentMethodForAttempt(methods, c.retries);
      if m.None? {
        var rest := MarkRemainingAsSkipped(c.retries[j := attempt.(status := RetryFailed)]);
        db.dunning := db.dunning[i := Chain(rest, c.escalations + 1)];
        return;
      }
      var report := charges.ExecutePaymentForInvoice(i, attempt.number, if ready then m else None, o);
      match report {
        case Raised =>
        case AlreadyPaid =>
          var skipped := MarkRemainingAsSkipped(c.retries[j := attempt.(status := Skipped)]);
          db.dunning := db.dunning[i := c.(retries := skipped)];
        case Reported(status) =>
          if status == Succeeded {
            var rest := MarkRemainingAsSkipped(c.retries[j := attempt.(status := RetrySucceeded, pm := m)]);
            db.dunning := db.dunning[i := c.(retries := rest)];
          } else {
            var failed := c.retries[j := attempt.(status := RetryFailed, pm := m)];
            var hasNext := attempt.number + 1 <= limit;
            if hasNext {
              db.dunning := db.dunning[i := c.(retries := failed + [Retry(attempt.number + 1, Scheduled, None)])];
            } else {
              db.dunning := db.dunning[i := Chain(failed, c.escalations + 1)];
            }
          }
      }
    }
  }

  class WebhookProcessingService {
    const db: Tables
    const ledger: LedgerService

    constructor (db: Tables, ledger: LedgerService)
      requires ledger.db == db
      ensures this.db == db && this.ledger == ledger
    {
      this.db := db;
      this.ledger := ledger;
    }

    /** Handles a success for the charge row found; false when the handler threw. */
    method HandlePaymentSucceeded(found: Option<ChargeKey>, published: bool) returns (completed: bool)
      requires ledger.db == db && (found.Some? ==> found.value in db.charges)
      modifies db
      ensures forall e :: e !in old(db.processed) ==>
                var after := PaymentSucceeded(old(db.Snapshot()), e, found, published);
                if completed then after == Marked(db.Snapshot(), e) else after == db.Snapshot()
    {
      if found.None? { return true; }
      var k := found.value;
      var c := db.charges[k];
      if c.invoice !in db.invoices { return true; }
      var inv := db.invoices[c.invoice];
      if inv.status == Paid { return true; }
      if c.status == Succeeded { return true; }
      if inv.status != Finalized { return true; }
      var saved := db.Snapshot();
      db.charges := db.charges[k := c.(status := Succeeded)];
      db.invoices := db.invoices[c.invoice := inv.(status := Paid)];
      var posted := ledger.RecordPaymentSucceeded(k, inv.total);
      if !posted {
        db.Restore(saved);
        return false;
      }
      return published;
    }

    method HandlePaymentFailed(found: Option<ChargeKey>, published: bool) returns (completed: bool)
      requires found.Some? ==> found.value in db.charges
      modifies db
      ensures forall e :: e !in old(db.processed) ==>
                var after := PaymentFailed(old(db.Snapshot()), e, found, published);
                if completed then after == Marked(db.Snapshot(), e) else after == db.Snapshot()
    {
      if found.None? { return true; }
      db.charges := db.charges[found.value := db.charges[found.value].(status := Failed)];
      return published;
    }

    /** Events already processed are skipped; an event is marked only when its handler completes. */
    method ProcessPaymentEvent(e: EventId, succeeded: bool, found: Option<ChargeKey>, published: bool)
      requires ledger.db == db && (found.Some? ==> found.value in db.charges)
      modifies db
      ensures db.Snapshot() == if succeeded then PaymentSucceeded(old(db.Snapshot()), e, found, published)
                               else PaymentFailed(old(db.Snapshot()), e, found, published)
    {
      if e in db.processed { return; }
      var completed;
      if succeeded {
        completed := HandlePaymentSucceeded(found, published);
      } else {
        completed := HandlePaymentFailed(found, published);
      }
      if completed { db.processed := db.processed + {e}; }
    }
  }

  class RefundsService {
    const db: Tables
    const ledger: LedgerService

    constructor (db: Tables, ledger: LedgerService)
      requires ledger.db == db
      ensures this.db == db && this.ledger == ledger
    {
      this.db := db;
      this.ledger := ledger;
    }

    /** Adds up the succeeded refunds of a charge. */
    method SucceededTotal(k: ChargeKey) returns (sum: int)
      ensures sum == RefundedCents(db.Snapshot(), k)
    {
      var rest := db.refunds;
      sum := 0;
      while rest != map[]
        invariant sum + SumBy(rest, RefundedWeight(k)) == RefundedCents(db.Snapshot(), k)
        decreases |rest|
      {
        var r :| r in rest;
        SumByRemove(rest, r, RefundedWeight(k));
        if rest[r].charge == k && rest[r].status == RefundSucceeded { sum := sum + rest[r].amount; }
        rest := rest - {r};
      }
    }

    method CreateRefund(r: RefundKey, k: ChargeKey, owner: Option<CustomerId>, amount: int, accepted: bool)
      requires ledger.db == db
      modifies db
      ensures db.Snapshot() == BillingHandlers.CreateRefund(old(db.Snapshot()), r, k, owner, amount, accepted)
    {
      if k !in db.charges { return; }
      var c := db.charges[k];
      if owner.Some? && c.customer != owner.value { return; }
      if c.status != Succeeded || c.intent.None? { return; }
      var existing := SucceededTotal(k);
      if existing + amount > c.amount { return; }
      if r in db.refunds { return; }
      var failed := !accepted;
      if accepted {
        var saved := db.Snapshot();
        db.refunds := db.refunds[r := Refund(k, amount, RefundSucceeded)];
        var posted := ledger.RecordRefundSucceeded(r, amount);
        if !posted {
          db.Restore(saved);
          failed := true;
        }
      }
      if failed { db.refunds := db.refunds[r := Refund(k, amount, RefundFailed)]; }
    }
  }
}
