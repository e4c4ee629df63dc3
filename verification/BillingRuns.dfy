/** What holds in every state of every run, and between any two states of a run. */
module BillingRuns {
  import opened Options
  import opened Sums
  import opened Ledger
  import opened BillingState
  import opened BillingHandlers
  import opened BillingChanges
  import Books
  import CustomerCredit
  import opened Payments
  import RefundCap

  ghost predicate Sound(db: Db) {
    Books.Balanced(db) && CustomerCredit.CreditAccounted(db) && PaidOnce(db) && RefundCap.Capped(db)
  }

  lemma ChangeKeepsSound(db: Db, ch: Change)
    requires Sound(db) && Allowed(db, ch)
    ensures Sound(Apply(db, ch))
  {
    Books.ChangeKeepsBooks(db, ch);
    CustomerCredit.ChangeKeepsCredit(db, ch);
    ChangePaysOnce(db, ch);
    RefundCap.ChangeKeepsCap(db, ch);
  }

  /** What later states keep of earlier ones: the ledger only grows, a billed invoice keeps its total and
      lines, paid and void are final, and a charge keeps its invoice and amount. */
  ghost predicate Follows(a: Db, b: Db) {
    && a.ledger <= b.ledger
    && a.processed <= b.processed
    && (forall i :: i in a.invoices ==> i in b.invoices && Continues(a.invoices[i], b.invoices[i]))
    && (forall k :: k in a.charges ==>
          k in b.charges && a.charges[k].invoice == b.charges[k].invoice && a.charges[k].amount == b.charges[k].amount)
    && (forall r :: r in a.refunds ==> r in b.refunds && a.refunds[r] == b.refunds[r])
    && (forall n :: n in a.notes ==> n in b.notes && a.notes[n] == b.notes[n])
  }

  predicate Continues(a: Invoice, b: Invoice) {
    && SameOwner(a, b)
    && (a.status != Draft ==> b.status != Draft && a.total == b.total && a.lines == b.lines)
    && (a.status == Paid || a.status == Void ==> b.status == a.status)
  }

  lemma FollowsReflexive(a: Db)
    ensures Follows(a, a)
  {
  }

  lemma FollowsTransitive(a: Db, b: Db, c: Db)
    requires Follows(a, b) && Follows(b, c)
    ensures Follows(a, c)
  {
  }

  /** Rewriting one invoice that continues, and appending to the other tables, follows. */
  lemma RewriteFollows(a: Db, b: Db, i: InvoiceId, added: Journal)
    requires i in b.invoices && b.invoices == a.invoices[i := b.invoices[i]]
    requires i in a.invoices ==> Continues(a.invoices[i], b.invoices[i])
    requires b.ledger == a.ledger + added && a.processed == b.processed
    requires a.refunds == b.refunds && a.notes == b.notes
    requires a.charges.Keys == b.charges.Keys
    requires forall k :: k in a.charges ==> b.charges[k] == a.charges[k].(status := b.charges[k].status)
    ensures Follows(a, b)
  {
  }

  lemma KeepInvoicesFollows(a: Db, b: Db, added: Journal)
    requires b.invoices == a.invoices && b.ledger == a.ledger + added && a.processed <= b.processed
    requires forall k :: k in a.charges ==> k in b.charges && b.charges[k] == a.charges[k].(status := b.charges[k].status)
    requires forall r :: r in a.refunds ==> r in b.refunds && a.refunds[r] == b.refunds[r]
    requires forall n :: n in a.notes ==> n in b.notes && a.notes[n] == b.notes[n]
    ensures Follows(a, b)
  {
  }

  lemma ChangeFollows(db: Db, ch: Change)
    requires Allowed(db, ch)
    ensures Follows(db, Apply(db, ch))
  {
    var after := Apply(db, ch);
    assert db.ledger == db.ledger + [];
    match ch
    case WriteDraft(i, _) => RewriteFollows(db, after, i, []);
    case PutDraft(i, _) => RewriteFollows(db, after, i, []);
    case DropDraft(i) => RewriteFollows(db, after, i, []);
    case SettleInvoice(i, credit, terms) =>
      var s := Settle(db.invoices[i].lines, db.invoices[i].total, credit, terms).value;
      assert after.ledger == db.ledger + (CreditEntries(i, s.applied) + InvoiceEntries(i, s.total));
      RewriteFollows(db, after, i, CreditEntries(i, s.applied) + InvoiceEntries(i, s.total));
    case Cancel(i) => RewriteFollows(db, after, i, [after.ledger[|db.ledger|]]);
    case Collect(k) => RewriteFollows(db, after, db.charges[k].invoice, [after.ledger[|db.ledger|]]);
    case AddNote(_, _) => KeepInvoicesFollows(db, after, [after.ledger[|db.ledger|]]);
    case PayRefund(_, _, _) => KeepInvoicesFollows(db, after, [after.ledger[|db.ledger|]]);
    case _ => KeepInvoicesFollows(db, after, []);
  }

  lemma {:induction false} ChangesKeep(start: Db, db: Db, changes: seq<Change>, end: Db)
    requires Leads(db, changes, end) && Sound(db) && Follows(start, db)
    ensures Sound(end) && Follows(start, end)
    decreases |changes|
  {
    if changes != [] {
      var next := Apply(db, changes[0]);
      ChangeKeepsSound(db, changes[0]);
      ChangeFollows(db, changes[0]);
      FollowsTransitive(start, db, next);
      ChangesKeep(start, next, changes[1..], end);
    }
  }

  lemma StepKeeps(db: Db, ev: Event, limit: nat)
    requires Sound(db) && Enabled(db, ev)
    ensures Sound(Step(db, ev, limit)) && Follows(db, Step(db, ev, limit))
  {
    hide Step, Enabled, Sound, Follows, Apply, Allowed, Written;
    var after := Step(db, ev, limit);
    FollowsReflexive(db);
    if WritesLines(ev) {
      WriteIsAllowed(db, ev, limit);
      var w := Written(db, ev);
      if w.Some? {
        ChangeKeepsSound(db, WriteDraft(w.value.0, w.value.1));
        ChangeFollows(db, WriteDraft(w.value.0, w.value.1));
      }
    } else {
      StepReaches(db, ev, limit);
      var changes :| Leads(db, changes, after) && Inside(changes);
      ChangesKeep(db, db, changes, after);
    }
  }

  /** Every state of a run is sound. */
  lemma {:induction false} RunIsSound(states: seq<Db>, events: seq<Event>, limit: nat, t: nat)
    requires Run(states, events, limit) && t < |states|
    ensures Sound(states[t])
  {
    if t == 0 {
      Books.EmptyIsBalanced();
      CustomerCredit.EmptyIsAccounted();
      EmptyIsPaidOnce();
      RefundCap.EmptyIsCapped();
    } else {
      RunIsSound(states, events, limit, t - 1);
      StepKeeps(states[t - 1], events[t - 1], limit);
    }
  }

  lemma RunPaysOnce(states: seq<Db>, events: seq<Event>, limit: nat, t: nat)
    requires Run(states, events, limit) && t < |states|
    ensures PaidOnce(states[t])
  {
    hide Step;
    RunIsSound(states, events, limit, t);
  }

  lemma NextFollows(states: seq<Db>, events: seq<Event>, limit: nat, t: nat)
    requires Run(states, events, limit) && t < |events|
    ensures Follows(states[t], states[t + 1])
  {
    RunIsSound(states, events, limit, t);
    StepKeeps(states[t], events[t], limit);
  }

  /** A later state of a run follows every earlier one. */
  lemma {:induction false} RunFollows(states: seq<Db>, events: seq<Event>, limit: nat, s: nat, t: nat)
    requires Run(states, events, limit) && s <= t < |states|
    ensures Follows(states[s], states[t])
    decreases t
  {
    hide Step, Follows;
    if s < t {
      RunFollows(states, events, limit, s, t - 1);
      NextFollows(states, events, limit, t - 1);
      FollowsTransitive(states[s], states[t - 1], states[t]);
    } else {
      FollowsReflexive(states[s]);
    }
  }

  // ---------------------------------------------------------------- main results

  /** In every state of every run the five accounts are exactly what the tables call for. */
  lemma LedgerAgreesWithTables(states: seq<Db>, events: seq<Event>, limit: nat, t: nat)
    requires Run(states, events, limit) && t < |states|
    ensures var db := states[t];
            && Net(db.ledger, AccountsReceivable) == SumBy(db.invoices, Books.Receivable) - SumBy(db.balances, Same)
            && Net(db.ledger, Credits) == SumBy(db.balances, Same)
            && Net(db.ledger, Revenue) == -SumBy(db.invoices, Books.Billed)
            && Net(db.ledger, Cash) == SumBy(db.invoices, Books.PaidTotal) - SumBy(db.refunds, Books.GivenBack)
            && Net(db.ledger, Ledger.Refunds) == SumBy(db.refunds, Books.GivenBack)
            && Net(db.ledger, AccountsReceivable) + Net(db.ledger, Cash) + Net(db.ledger, Revenue)
               + Net(db.ledger, Credits) + Net(db.ledger, Ledger.Refunds) == 0
  {
    hide Step, Net;
    RunIsSound(states, events, limit, t);
    var db := states[t];
    NetsCancel(db.ledger);
    assert forall a: Account :: Books.BalancedAt(db, a) ==> Net(db.ledger, a) == Books.Expected(db, a);
    assert Books.BalancedAt(db, AccountsReceivable) && Books.BalancedAt(db, Credits) && Books.BalancedAt(db, Revenue);
    assert Books.BalancedAt(db, Cash) && Books.BalancedAt(db, Ledger.Refunds);
  }

  /** Per customer, the credit notes issued, signed, are the balance left plus the credit posted as spent. */
  lemma CreditIsConserved(states: seq<Db>, events: seq<Event>, limit: nat, t: nat, c: CustomerId)
    requires Run(states, events, limit) && t < |states|
    ensures SumBy(states[t].notes, CustomerCredit.IssuedTo(c))
            == Balance(states[t], c) + CustomerCredit.Spent(states[t].ledger, states[t].invoices, c)
  {
    RunIsSound(states, events, limit, t);
    assert CustomerCredit.Conserved(states[t], c);
  }

  /** An invoice has at most one cash posting, of exactly its total, and a positive total is paid if and
      only if the posting exists. */
  lemma PaidExactlyOnce(states: seq<Db>, events: seq<Event>, limit: nat, t: nat, i: InvoiceId)
    requires Run(states, events, limit) && t < |states| && i in states[t].invoices
    ensures var db := states[t];
            var inv := db.invoices[i];
            var posted := Postings(db.ledger, db.charges, i);
            && (posted == [] || posted == [inv.total])
            && (inv.total > 0 ==> (inv.status == Paid <==> posted == [inv.total]))
            && (inv.total <= 0 ==> posted == [])
  {
    RunIsSound(states, events, limit, t);
    assert PaidExactly(states[t], i);
  }

  lemma OneSuccess(a: Db, b: Db, j: ChargeKey, k: ChargeKey)
    requires PaidOnce(a) && PaidOnce(b) && Follows(a, b)
    requires j in a.charges && a.charges[j].status == Succeeded
    requires k in b.charges && b.charges[k].status == Succeeded
    requires a.charges[j].invoice == b.charges[k].invoice
    ensures j == k
  {
    hide Postings, PostingsKnown, Continues;
    var e :| e in a.ledger && e.ref == PaymentRef(j);
    assert e in b.ledger;
    assert PaidExactly(b, b.charges[k].invoice);
    if j != k { TwoPostedShowTwice(b.ledger, b.charges, j, k); }
  }

  /** No two charges of one invoice ever succeed, at whatever two moments of a run. */
  lemma NoSecondSuccess(states: seq<Db>, events: seq<Event>, limit: nat, s: nat, t: nat, j: ChargeKey, k: ChargeKey)
    requires Run(states, events, limit) && s <= t < |states|
    requires j in states[s].charges && states[s].charges[j].status == Succeeded
    requires k in states[t].charges && states[t].charges[k].status == Succeeded
    requires states[s].charges[j].invoice == states[t].charges[k].invoice
    ensures j == k
  {
    hide *;
    RunPaysOnce(states, events, limit, s);
    RunPaysOnce(states, events, limit, t);
    RunFollows(states, events, limit, s, t);
    OneSuccess(states[s], states[t], j, k);
  }

  /** Paid and void are final, a billed total never changes, and no ledger row is ever lost. */
  lemma BilledIsFrozen(states: seq<Db>, events: seq<Event>, limit: nat, s: nat, t: nat, i: InvoiceId)
    requires Run(states, events, limit) && s <= t < |states| && i in states[s].invoices
    requires states[s].invoices[i].status != Draft
    ensures i in states[t].invoices
    ensures states[t].invoices[i].total == states[s].invoices[i].total
    ensures states[t].invoices[i].lines == states[s].invoices[i].lines
    ensures states[s].invoices[i].status != Finalized ==> states[t].invoices[i] == states[s].invoices[i]
    ensures states[s].ledger <= states[t].ledger
  {
    RunFollows(states, events, limit, s, t);
  }

  /** Succeeded refunds never exceed the charge, only a charge that has been collected has any, and net
      cash is never negative. */
  lemma RefundsAreCapped(states: seq<Db>, events: seq<Event>, limit: nat, t: nat, k: ChargeKey)
    requires Run(states, events, limit) && t < |states| && k in states[t].charges
    ensures RefundedCents(states[t], k) <= if IsPosted(states[t].ledger, k) then states[t].charges[k].amount else 0
    ensures Net(states[t].ledger, Cash) >= 0
  {
    RunIsSound(states, events, limit, t);
    assert RefundCap.Held(states[t], k) >= 0;
    RefundCap.CashIsNotNegative(states[t]);
  }

  /** A success event that posts collects its charge; unpublished, it does nothing else. */
  lemma UnpublishedCollects(db: Db, e: EventId, found: Option<ChargeKey>)
    requires found.Some? ==> found.value in db.charges
    ensures PaymentSucceeded(db, e, found, false).ledger != db.ledger ==>
              && found.Some? && e !in db.processed && db.charges[found.value].invoice in db.invoices
              && PaymentSucceeded(db, e, found, false) == Collected(db, found.value)
  {
    hide Collected;
  }

  lemma CollectedShows(db: Db, k: ChargeKey)
    requires k in db.charges && db.charges[k].invoice in db.invoices
    ensures var after := Collected(db, k);
            && after.processed == db.processed && k in after.charges && after.charges[k].invoice == db.charges[k].invoice
            && db.charges[k].invoice in after.invoices && after.invoices[db.charges[k].invoice].status == Paid
  {
  }

  /** Redelivering a success event whose publication failed after the commit only marks it processed. */
  lemma RedeliveryOnlyMarks(db: Db, e: EventId, found: Option<ChargeKey>, published: bool)
    requires found.Some? ==> found.value in db.charges
    ensures var first := PaymentSucceeded(db, e, found, false);
            first.ledger != db.ledger ==>
              && e !in first.processed
              && PaymentSucceeded(first, e, found, published) == Marked(first, e)
              && PaymentSucceeded(Marked(first, e), e, found, published) == Marked(first, e)
  {
    var first := PaymentSucceeded(db, e, found, false);
    UnpublishedCollects(db, e, found);
    if first.ledger != db.ledger {
      CollectedShows(db, found.value);
      hide Collected;
      FinishedIsMarked(first, e, found, published);
    }
  }

  lemma FinishedIsMarked(db: Db, e: EventId, found: Option<ChargeKey>, published: bool)
    requires found.Some? && found.value in db.charges && db.charges[found.value].invoice in db.invoices
    requires db.invoices[db.charges[found.value].invoice].status == Paid && e !in db.processed
    ensures PaymentSucceeded(db, e, found, published) == Marked(db, e)
    ensures PaymentSucceeded(Marked(db, e), e, found, published) == Marked(db, e)
  {
  }
}
