/** Per customer, the credit issued is the credit left plus the credit posted as spent; and how far the credit
    that invoice lines show departs from what was spent. */
module CustomerCredit {
  import opened Sums
  import opened Ledger
  import opened BillingState
  import opened BillingHandlers
  import opened LineItems
  import opened BillingChanges

  function IssuedTo(c: CustomerId): Note -> int {
    (n: Note) => if n.customer == c then n.amount else 0
  }

  function ShownTo(c: CustomerId): Invoice -> int {
    (inv: Invoice) => if inv.customer == c then CreditOn(inv.lines) else 0
  }

  /** What a journal row says was spent on an invoice of the customer. */
  function AppliedTo(e: Entry<Reference>, invoices: map<InvoiceId, Invoice>, c: CustomerId): int {
    if e.ref.CreditApplicationRef? && e.ref.invoice in invoices && invoices[e.ref.invoice].customer == c then e.amount
    else 0
  }

  /** The credit of the customer that the journal says was spent. */
  function Spent(ledger: Journal, invoices: map<InvoiceId, Invoice>, c: CustomerId): int {
    if ledger == [] then 0
    else Spent(ledger[..|ledger| - 1], invoices, c) + AppliedTo(ledger[|ledger| - 1], invoices, c)
  }

  ghost predicate ApplicationsKnown(db: Db) {
    forall e :: e in db.ledger && e.ref.CreditApplicationRef? ==> e.ref.invoice in db.invoices
  }

  ghost predicate Conserved(db: Db, c: CustomerId) {
    SumBy(db.notes, IssuedTo(c)) == Balance(db, c) + Spent(db.ledger, db.invoices, c)
  }

  ghost predicate CreditAccounted(db: Db) {
    ApplicationsKnown(db) && forall c :: Conserved(db, c)
  }

  /** The credit that the customer's invoices show beyond what was spent on them. */
  ghost function Excess(db: Db, c: CustomerId): int {
    SumBy(db.invoices, ShownTo(c)) - Spent(db.ledger, db.invoices, c)
  }

  // ---------------------------------------------------------------- what the journal says

  lemma {:induction false} SpentConcat(l: Journal, r: Journal, invoices: map<InvoiceId, Invoice>, c: CustomerId)
    ensures Spent(l + r, invoices, c) == Spent(l, invoices, c) + Spent(r, invoices, c)
  {
    if r == [] {
      assert l + r == l;
    } else {
      var n := |r| - 1;
      assert (l + r)[..|l| + n] == l + r[..n];
      SpentConcat(l, r[..n], invoices, c);
    }
  }

  lemma SpentOne(e: Entry<Reference>, invoices: map<InvoiceId, Invoice>, c: CustomerId)
    ensures Spent([e], invoices, c) == AppliedTo(e, invoices, c)
  {
    var none: Journal := [];
    assert [e][..0] == none;
  }

  lemma {:induction false} SpentFrame(l: Journal, a: map<InvoiceId, Invoice>, b: map<InvoiceId, Invoice>, c: CustomerId)
    requires forall e :: e in l && e.ref.CreditApplicationRef? ==>
               e.ref.invoice in a && e.ref.invoice in b && a[e.ref.invoice].customer == b[e.ref.invoice].customer
    ensures Spent(l, a, c) == Spent(l, b, c)
  {
    if l != [] {
      assert l[|l| - 1] in l;
      SpentFrame(l[..|l| - 1], a, b, c);
    }
  }

  /** Invoices keep their customers and the journal grows by `added`. */
  ghost predicate Extends(db: Db, after: Db, added: Journal) {
    && after.ledger == db.ledger + added
    && forall i :: i in db.invoices ==> i in after.invoices && after.invoices[i].customer == db.invoices[i].customer
  }

  lemma SpentExtends(db: Db, after: Db, added: Journal, c: CustomerId)
    requires ApplicationsKnown(db) && Extends(db, after, added)
    requires forall e :: e in added && e.ref.CreditApplicationRef? ==> e.ref.invoice in after.invoices
    ensures Spent(after.ledger, after.invoices, c) == Spent(db.ledger, db.invoices, c) + Spent(added, after.invoices, c)
    ensures ApplicationsKnown(after)
  {
    SpentFrame(db.ledger, db.invoices, after.invoices, c);
    SpentConcat(db.ledger, added, after.invoices, c);
  }

  lemma {:induction false} SpendsNothing(added: Journal, invoices: map<InvoiceId, Invoice>, c: CustomerId)
    requires forall e :: e in added ==> !e.ref.CreditApplicationRef?
    ensures Spent(added, invoices, c) == 0
  {
    if added != [] {
      assert added[|added| - 1] in added;
      SpendsNothing(added[..|added| - 1], invoices, c);
    }
  }

  /** A change that posts nothing about credit and touches neither notes nor balances. */
  lemma OtherConserves(db: Db, after: Db, added: Journal, c: CustomerId)
    requires ApplicationsKnown(db) && Extends(db, after, added)
    requires forall e :: e in added ==> !e.ref.CreditApplicationRef?
    ensures ApplicationsKnown(after)
    ensures Spent(after.ledger, after.invoices, c) == Spent(db.ledger, db.invoices, c)
    ensures Conserved(db, c) && after.notes == db.notes && after.balances == db.balances ==> Conserved(after, c)
    ensures SumBy(after.invoices, ShownTo(c)) == SumBy(db.invoices, ShownTo(c)) ==> Excess(after, c) == Excess(db, c)
  {
    SpentExtends(db, after, added, c);
    SpendsNothing(added, after.invoices, c);
  }

  lemma SettlementSpends(db: Db, i: InvoiceId, s: Settlement, c: CustomerId)
    requires ApplicationsKnown(db) && i in db.invoices && s.applied >= 0
    ensures var after := Settled(db, i, s);
            && ApplicationsKnown(after)
            && Spent(after.ledger, after.invoices, c)
               == Spent(db.ledger, db.invoices, c) + if db.invoices[i].customer == c then s.applied else 0
  {
    hide Spent;
    var after := Settled(db, i, s);
    var credit, final := CreditEntries(i, s.applied), InvoiceEntries(i, s.total);
    assert after.ledger == db.ledger + (credit + final);
    SpentExtends(db, after, credit + final, c);
    SpentConcat(credit, final, after.invoices, c);
    SpendsNothing(final, after.invoices, c);
    SpendsNothing([], after.invoices, c);
    SpentOne(Entry(AccountsReceivable, Credits, s.applied, CreditApplicationRef(i)), after.invoices, c);
  }

  // ---------------------------------------------------------------- what a change does

  /** Rewriting one invoice of an unchanged customer changes what is shown by the difference. */
  lemma ShownPut(invoices: map<InvoiceId, Invoice>, i: InvoiceId, inv: Invoice, c: CustomerId)
    requires i in invoices ==> invoices[i].customer == inv.customer
    ensures SumBy(invoices[i := inv], ShownTo(c)) == SumBy(invoices, ShownTo(c))
              + if inv.customer == c then CreditOn(inv.lines) - (if i in invoices then CreditOn(invoices[i].lines) else 0) else 0
  {
    hide CreditOn;
    SumByPut(invoices, i, inv, ShownTo(c));
  }

  lemma RewriteConserves(db: Db, after: Db, i: InvoiceId, added: Journal, c: CustomerId)
    requires ApplicationsKnown(db) && i in after.invoices && after.invoices == db.invoices[i := after.invoices[i]]
    requires i in db.invoices ==> after.invoices[i].customer == db.invoices[i].customer
    requires after.ledger == db.ledger + added && forall e :: e in added ==> !e.ref.CreditApplicationRef?
    requires after.notes == db.notes && after.balances == db.balances
    ensures ApplicationsKnown(after) && (Conserved(db, c) ==> Conserved(after, c))
    ensures Excess(after, c) == Excess(db, c)
              + if after.invoices[i].customer == c then CreditOn(after.invoices[i].lines) - ShownBy(db, i) else 0
  {
    hide CreditOn, Spent;
    OtherConserves(db, after, added, c);
    ShownPut(db.invoices, i, after.invoices[i], c);
  }

  lemma SettleConserves(db: Db, i: InvoiceId, s: Settlement, c: CustomerId)
    requires ApplicationsKnown(db) && i in db.invoices && s.applied >= 0
    requires CreditOn(s.lines) == CreditOn(db.invoices[i].lines) + s.applied
    ensures var after := Settled(db, i, s);
            ApplicationsKnown(after) && (Conserved(db, c) ==> Conserved(after, c)) && Excess(after, c) == Excess(db, c)
  {
    hide CreditOn, Spent;
    SettlementSpends(db, i, s, c);
    ShownPut(db.invoices, i, Settled(db, i, s).invoices[i], c);
  }

  lemma NoteConserves(db: Db, n: NoteId, note: Note, c: CustomerId)
    requires ApplicationsKnown(db) && n !in db.notes
    ensures var after := WithNote(db, n, note);
            ApplicationsKnown(after) && (Conserved(db, c) ==> Conserved(after, c)) && Excess(after, c) == Excess(db, c)
  {
    hide Spent;
    OtherConserves(db, WithNote(db, n, note), [NoteEntry(n, note.amount)], c);
    SumByPut(db.notes, n, note, IssuedTo(c));
  }

  /** What a change brings in from outside: the credit that a draft's new lines show beyond its old ones. */
  function BroughtBy(db: Db, ch: Change, c: CustomerId): int {
    if ch.WriteDraft? && ch.draft.customer == c then CreditOn(ch.draft.lines) - ShownBy(db, ch.i) else 0
  }

  lemma ChangeMovesCredit(db: Db, ch: Change, c: CustomerId)
    requires ApplicationsKnown(db) && Allowed(db, ch)
    ensures var after := Apply(db, ch);
            && ApplicationsKnown(after) && (Conserved(db, c) ==> Conserved(after, c))
            && Excess(after, c) == Excess(db, c) + BroughtBy(db, ch, c)
  {
    hide CreditOn, Spent, Settle, Excess, Conserved, ApplicationsKnown;
    var after := Apply(db, ch);
    assert db.ledger == db.ledger + [];
    match ch
    case WriteDraft(i, draft) => RewriteConserves(db, after, i, [], c);
    case PutDraft(i, draft) => RewriteConserves(db, after, i, [], c);
    case DropDraft(i) => RewriteConserves(db, after, i, [], c);
    case SettleInvoice(i, credit, terms) =>
      SettleShowsCredit(db.invoices[i].lines, db.invoices[i].total, credit, terms);
      SettleConserves(db, i, Settle(db.invoices[i].lines, db.invoices[i].total, credit, terms).value, c);
    case Cancel(i) => RewriteConserves(db, after, i, [after.ledger[|db.ledger|]], c);
    case Collect(k) => RewriteConserves(db, after, db.charges[k].invoice, [after.ledger[|db.ledger|]], c);
    case AddNote(n, note) => NoteConserves(db, n, note, c);
    case PayRefund(_, _, _) => SameInvoicesConserve(db, after, [after.ledger[|db.ledger|]], c);
    case _ => SameInvoicesConserve(db, after, [], c);
  }

  lemma SameInvoicesConserve(db: Db, after: Db, added: Journal, c: CustomerId)
    requires ApplicationsKnown(db) && after.invoices == db.invoices
    requires after.ledger == db.ledger + added && forall e :: e in added ==> !e.ref.CreditApplicationRef?
    requires after.notes == db.notes && after.balances == db.balances
    ensures ApplicationsKnown(after) && (Conserved(db, c) ==> Conserved(after, c)) && Excess(after, c) == Excess(db, c)
  {
    hide Spent;
    OtherConserves(db, after, added, c);
  }

  /** Every allowed row change keeps every customer's credit accounted for. */
  lemma ChangeKeepsCredit(db: Db, ch: Change)
    requires CreditAccounted(db) && Allowed(db, ch)
    ensures CreditAccounted(Apply(db, ch))
  {
    hide Conserved, ApplicationsKnown, Apply, Allowed, Excess;
    ChangeMovesCredit(db, ch, 0);
    forall c ensures Conserved(Apply(db, ch), c) { ChangeMovesCredit(db, ch, c); }
  }

  lemma EmptyIsAccounted()
    ensures CreditAccounted(EMPTY_DB)
    ensures forall c :: Excess(EMPTY_DB, c) == 0
  {
  }

  lemma {:induction false} ChangesKeepExcess(db: Db, changes: seq<Change>, end: Db, c: CustomerId)
    requires Leads(db, changes, end) && Inside(changes) && ApplicationsKnown(db)
    ensures Excess(end, c) == Excess(db, c)
    decreases |changes|
  {
    hide Excess, ApplicationsKnown, Apply, Allowed, Conserved;
    if changes != [] {
      assert changes[0] in changes;
      ChangeMovesCredit(db, changes[0], c);
      ChangesKeepExcess(Apply(db, changes[0]), changes[1..], end, c);
    }
  }

  // ---------------------------------------------------------------- what a handler call brings in

  /** The credit that a handler call puts on lines of the customer without spending it: that of the lines a
      caller brings, in place of those it replaces, and all that the closed invoice of a seeding shows. */
  function CreditBrought(db: Db, ev: Event, c: CustomerId): int {
    match ev
    case EvCreateDraft(_, d, _, _, lines, _, _) => if d == c then CreditOn(lines) else 0
    case EvSeedCopy(_, from, d, _, _) =>
      if d == c && from in db.invoices && db.invoices[from].kind == Recurring && db.invoices[from].subscription.Some?
      then CreditOn(db.invoices[from].lines) else 0
    case EvUpdateOpenDraft(d, found, lines, _, _) =>
      if d == c && found.Some? && OnlyRecurringDraft(db, d, found.value) then CreditOn(lines) - ShownBy(db, found.value)
      else 0
    case _ => 0
  }

  lemma WrittenBrings(db: Db, ev: Event, c: CustomerId)
    requires Enabled(db, ev) && WritesLines(ev)
    ensures var w := Written(db, ev);
            CreditBrought(db, ev, c) == if w.None? then 0 else BroughtBy(db, WriteDraft(w.value.0, w.value.1), c)
  {
    hide CreditOn, CopiedLines, NotOfType, Surcharge, LineTotal, SurchargeLines;
    match ev
    case EvCreateDraft(_, _, _, _, lines, total, terms) => SurchargeLinesHide(lines, Surcharge(terms, total));
    case EvSeedCopy(_, from, _, rebuilt, terms) =>
      if from in db.invoices {
        var kept := NotOfType(db.invoices[from].lines, SurchargeLine);
        StrippingKeepsCredit(db.invoices[from].lines);
        CopyKeepsCredit(kept, rebuilt);
        SurchargeLinesHide(CopiedLines(kept, rebuilt), Surcharge(terms, LineTotal(CopiedLines(kept, rebuilt))));
      }
    case EvUpdateOpenDraft(_, _, lines, total, terms) => SurchargeLinesHide(lines, Surcharge(terms, total));
  }

  /** One handler call moves the excess by exactly the credit it brings in. */
  lemma StepMovesExcess(db: Db, ev: Event, limit: nat, c: CustomerId)
    requires Enabled(db, ev) && ApplicationsKnown(db)
    ensures Excess(Step(db, ev, limit), c) == Excess(db, c) + CreditBrought(db, ev, c)
  {
    hide Step, Excess, ApplicationsKnown, Enabled, CreditOn, Apply, Allowed, Conserved;
    if WritesLines(ev) {
      WriteIsAllowed(db, ev, limit);
      WrittenBrings(db, ev, c);
      var w := Written(db, ev);
      if w.Some? { ChangeMovesCredit(db, WriteDraft(w.value.0, w.value.1), c); }
    } else {
      StepReaches(db, ev, limit);
      var changes :| Leads(db, changes, Step(db, ev, limit)) && Inside(changes);
      ChangesKeepExcess(db, changes, Step(db, ev, limit), c);
    }
  }
}
