/** What a migration posts agrees with what it writes. */
module MigrationBooks {
  import opened Options
  import opened Sums
  import opened Ledger
  import opened BillingState
  import opened Migration
  import opened MigrationPreview

  // ---------------------------------------------------------------- statuses

  /** A mapped item is paid exactly when its charge succeeded; an owed one has a failed or pending charge or
      none; void and draft ones have no charge. Only an un-paid payroll of a coming month becomes a draft. */
  lemma MappedStatusesAgree(p: Payroll, c: OldCharge)
    ensures MapPayrollStatus(p).Some? ==> Coherent(MapPayrollStatus(p).value)
    ensures MapChargeStatus(c).Some? ==> Coherent(MapChargeStatus(c).value) && MapChargeStatus(c).value.invoice != Draft
    ensures MapPayrollStatus(p).Some? && MapPayrollStatus(p).value.invoice == Draft
            <==> !p.deleted && !p.failure && p.status in {"un-paid", "unpaid"} && p.future
    ensures MapPayrollStatus(p).Some? && MapPayrollStatus(p).value.invoice == InvoiceStatus.Void <==> p.deleted
    ensures p.deleted == c.deleted && !p.failure && p.status == c.status && p.status !in {"un-paid", "unpaid"}
            ==> MapPayrollStatus(p) == MapChargeStatus(c)
  {
  }

  predicate Coherent(m: StatusMap) {
    && (m.invoice == InvoiceStatus.Paid <==> m.charge == Some(ChargeStatus.Succeeded))
    && (m.charge.Some? ==> m.invoice == InvoiceStatus.Paid || m.invoice == Finalized)
  }

  // ---------------------------------------------------------------- books

  function OwedCents(inv: InvoiceRow): int { if inv.status == Finalized then Abs(inv.total) else 0 }
  function PaidCents(inv: InvoiceRow): int { if inv.status == InvoiceStatus.Paid then Abs(inv.total) else 0 }
  function BilledCents(inv: InvoiceRow): int { OwedCents(inv) + PaidCents(inv) }
  function CreditCents(r: BalanceRow): int { r.cents }

  /** What the tables call for in an account, as far as invoices and credit go. */
  ghost function Expected(db: Tables, a: Account): int {
    match a
    case AccountsReceivable => SumBy(db.invoices, OwedCents) - SumBy(db.balances, CreditCents)
    case Credits => SumBy(db.balances, CreditCents)
    case Revenue => -SumBy(db.invoices, BilledCents)
    case Cash => SumBy(db.invoices, PaidCents)
    case Refunds => 0
  }

  /** The journal has moved with the tables. */
  ghost predicate MovesTogether(db: Tables, after: Tables) {
    forall a :: Net(after.ledger, a) - Expected(after, a) == Net(db.ledger, a) - Expected(db, a)
  }

  lemma MovesTwice(x: Tables, y: Tables, z: Tables)
    requires MovesTogether(x, y) && MovesTogether(y, z)
    ensures MovesTogether(x, z)
  {
    hide Expected, Net;
  }

  lemma SameBooks(db: Tables, after: Tables)
    requires after.ledger == db.ledger && after.invoices == db.invoices && after.balances == db.balances
    ensures MovesTogether(db, after)
  {
  }

  lemma {:induction false} SumBySame<K, V>(m: map<K, V>, n: map<K, V>, w: V -> int)
    requires m.Keys == n.Keys && forall k :: k in m ==> w(m[k]) == w(n[k])
    ensures SumBy(m, w) == SumBy(n, w)
    decreases |m|
  {
    if m == map[] {
      assert n == map[];
    } else {
      var k :| k in m;
      SumByRemove(m, k, w);
      SumByRemove(n, k, w);
      SumBySame(m - {k}, n - {k}, w);
    }
  }

  lemma CreditMovesTogether(db: Tables, b: Body)
    ensures MovesTogether(db, WriteBalance(db, b).0)
  {
    var after := WriteBalance(db, b).0;
    hide SumBy, Net, HasMigrationNote;
    if after != db {
      var c, credit := b.customer, -b.balance.value.value;
      SumByPut(db.balances, c, BalanceRow(c, OldBalance(db, c) + credit), CreditCents);
      forall a ensures Net(after.ledger, a) - Expected(after, a) == Net(db.ledger, a) - Expected(db, a) {
        NetAppend(db.ledger, Entry(Credits, AccountsReceivable, credit, Tag(OfNote(b.note), true)), a);
      }
    }
  }

  /** The postings of an item are what its status calls for: its amount is receivable while owed, cash and
      revenue when paid, revenue when owed, and nothing in the end when void or draft. */
  lemma PostingsNet(i: InvoiceId, status: InvoiceStatus, amount: nat, a: Account)
    ensures Net(Postings(i, status, amount), a)
            == match a
               case AccountsReceivable => if status == Finalized then amount else 0
               case Cash => if status == InvoiceStatus.Paid then amount else 0
               case Revenue => if status == Finalized || status == InvoiceStatus.Paid then -(amount as int) else 0
               case Credits => 0
               case Refunds => 0
  {
    var tag := Tag(OfInvoice(i), true);
    var first := Entry(AccountsReceivable, Revenue, amount, tag);
    var none: seq<Entry<Tag>> := [];
    assert [first] == none + [first];
    NetAppend(none, first, a);
    var paid, voided := Entry(Cash, AccountsReceivable, amount, tag), Entry(Revenue, AccountsReceivable, amount, tag);
    assert [first, paid] == [first] + [paid] && [first, voided] == [first] + [voided];
    NetAppend([first], paid, a);
    NetAppend([first], voided, a);
  }

  lemma ItemMovesTogether(db: Tables, c: CustomerId, pm: Option<MethodId>, x: Item)
    requires x.invoice !in db.invoices
    ensures MovesTogether(db, WriteItem(db, c, pm, x).0)
  {
    var run := WriteItem(db, c, pm, x);
    hide SumBy, Net, Postings;
    if run.1.Written? {
      var row := RowOf(c, x);
      SumByPut(db.invoices, x.invoice, row, OwedCents);
      SumByPut(db.invoices, x.invoice, row, PaidCents);
      SumByPut(db.invoices, x.invoice, row, BilledCents);
      forall a ensures Net(run.0.ledger, a) - Expected(run.0, a) == Net(db.ledger, a) - Expected(db, a) {
        NetConcat(db.ledger, Postings(x.invoice, x.mapped.invoice, Abs(x.total)), a);
        PostingsNet(x.invoice, x.mapped.invoice, Abs(x.total), a);
      }
    } else {
      SameBooks(db, run.0);
    }
  }

  lemma {:induction false} PayrollsMoveTogether(db: Tables, c: CustomerId, pm: Option<MethodId>, ps: seq<Payroll>)
    requires FreshPayrolls(db, ps)
    ensures MovesTogether(db, WritePayrolls(db, c, pm, ps).0)
    ensures WritePayrolls(db, c, pm, ps).0.invoices.Keys <= db.invoices.Keys + set p | p in ps :: p.invoice
    decreases |ps|
  {
    hide WriteItem, MapPayrollStatus, Migrated, MovesTogether;
    SameBooks(db, db);
    if ps != [] {
      var plan := PlanPayroll(db, ps[0]);
      var first := WritePlanned(db, c, pm, plan);
      if plan.Writes? {
        ItemMovesTogether(db, c, pm, plan.item);
        ItemAdds(db, c, pm, plan.item, Native, Runtime(0));
      }
      if !first.1.Rejected? {
        forall p | p in ps[1..] ensures p.invoice !in first.0.invoices {
          assert p in ps && p.invoice != ps[0].invoice;
        }
        PayrollsMoveTogether(first.0, c, pm, ps[1..]);
        MovesTwice(db, first.0, WritePayrolls(first.0, c, pm, ps[1..]).0);
      }
    }
  }

  lemma {:induction false} ChargesMoveTogether(db: Tables, c: CustomerId, pm: Option<MethodId>, cs: seq<OldCharge>)
    requires FreshCharges(db, cs)
    ensures MovesTogether(db, WriteCharges(db, c, pm, cs).0)
    decreases |cs|
  {
    hide WriteItem, MapChargeStatus, Migrated, MovesTogether;
    SameBooks(db, db);
    if cs != [] {
      var plan := PlanCharge(db, cs[0], pm.None?);
      var first := WritePlanned(db, c, pm, plan);
      if plan.Writes? {
        ItemMovesTogether(db, c, pm, plan.item);
        ItemAdds(db, c, pm, plan.item, Native, Runtime(0));
      }
      if !first.1.Rejected? {
        forall x | x in cs[1..] ensures x.invoice !in first.0.invoices {
          assert x in cs && x.invoice != cs[0].invoice;
        }
        ChargesMoveTogether(first.0, c, pm, cs[1..]);
        MovesTwice(db, first.0, WriteCharges(first.0, c, pm, cs[1..]).0);
      }
    }
  }

  lemma LinkedSums(invoices: map<InvoiceId, InvoiceRow>, c: CustomerId, s: SubscriptionId)
    ensures SumBy(Linked(invoices, c, s), OwedCents) == SumBy(invoices, OwedCents)
    ensures SumBy(Linked(invoices, c, s), PaidCents) == SumBy(invoices, PaidCents)
    ensures SumBy(Linked(invoices, c, s), BilledCents) == SumBy(invoices, BilledCents)
  {
    hide SumBy, Abs;
    var after := Linked(invoices, c, s);
    SumBySame(after, invoices, OwedCents);
    SumBySame(after, invoices, PaidCents);
    SumBySame(after, invoices, BilledCents);
  }

  lemma LinkingMovesNothing(db: Tables, b: Body)
    ensures MovesTogether(db, WriteSubscription(db, b).0)
  {
    var after := WriteSubscription(db, b).0;
    hide Net, SumBy, SubscriptionResult, Linked;
    LinkedSums(db.invoices, b.customer, b.subscription);
  }

  lemma OneStepMoves(db: Tables, now: Tables, b: Body, steps: seq<StepName>)
    requires steps != [] && MovesTogether(db, WriteStep(now, b, steps[0]).0)
    requires MovesTogether(db, RunSteps(WriteStep(now, b, steps[0]).0, b, steps[1..]).0)
    ensures MovesTogether(db, RunSteps(now, b, steps).0)
  {
    hide WriteStep, MovesTogether;
  }

  lemma ItemStepsMove(db: Tables, b: Body)
    requires FreshInvoices(db, b)
    ensures var s1 := WriteStep(db, b, Payrolls).0;
            MovesTogether(db, s1) && MovesTogether(db, WriteStep(s1, b, Charges).0)
  {
    hide MovesTogether, WritePayrolls, WriteCharges, DefaultMethod;
    var c, pm := b.customer, DefaultMethod(b.methods);
    var s1 := WriteStep(db, b, Payrolls).0;
    SameBooks(db, db);
    PayrollsMoveTogether(db, c, pm, b.payrolls);
    ChargesMoveTogether(s1, c, pm, b.charges);
    SameBooks(s1, s1);
    MovesTwice(db, s1, WriteStep(s1, b, Charges).0);
  }

  /** The first two steps, and the last: credit moves balances and journal together, the others neither. */
  lemma OtherStepsMove(db: Tables, b: Body)
    ensures MovesTogether(db, WriteStep(db, b, CreditBalance).0)
    ensures MovesTogether(db, WriteStep(db, b, SurchargeConfig).0)
    ensures MovesTogether(db, WriteStep(db, b, SubscriptionStep).0)
    ensures WriteStep(db, b, CreditBalance).0.invoices == WriteStep(db, b, SurchargeConfig).0.invoices == db.invoices
  {
    CreditMovesTogether(db, b);
    SameBooks(db, WriteSurcharge(db, b).0);
    LinkingMovesNothing(db, b);
    hide MovesTogether;
  }

  /** A migration keeps the books: whatever is sent, once or twice, and wherever it stops, every account moves
      by exactly what the invoices and credit balances written call for. */
  lemma MigrationKeepsBooks(db: Tables, m: MonolithId, b: Body)
    requires FreshInvoices(db, b)
    ensures forall a ::
              var after := Migrate(db, m, b).0;
              Net(after.ledger, a) - Expected(after, a) == Net(db.ledger, a) - Expected(db, a)
  {
    SameBooks(db, db);
    SameBooks(db, WriteSettings(db, m, b).0);
    assert WriteSettings(db, m, b).0.invoices == db.invoices;
    StepsMove(db, WriteSettings(db, m, b).0, b);
    assert MovesTogether(db, Migrate(db, m, b).0) by { hide MovesTogether, RunSteps, WriteSettings; }
  }

  lemma StepsMove(db: Tables, s0: Tables, b: Body)
    requires MovesTogether(db, s0) && s0.invoices == db.invoices && FreshInvoices(db, b)
    ensures MovesTogether(db, RunSteps(s0, b, STEPS).0)
  {
    hide MovesTogether, WriteStep, RunSteps;
    var s1 := WriteStep(s0, b, CreditBalance).0;
    var s2 := WriteStep(s1, b, SurchargeConfig).0;
    var s3 := WriteStep(s2, b, Payrolls).0;
    var s4 := WriteStep(s3, b, Charges).0;
    var s5 := WriteStep(s4, b, SubscriptionStep).0;
    OtherStepsMove(s0, b);
    OtherStepsMove(s1, b);
    ItemStepsMove(s2, b);
    OtherStepsMove(s4, b);
    MovesTwice(db, s0, s1);
    MovesTwice(db, s1, s2);
    MovesTwice(db, s2, s3);
    MovesTwice(db, s2, s4);
    MovesTwice(db, s4, s5);
    NoStepsMove(s5, b);
    assert [SubscriptionStep][1..] == [];
    assert STEPS[1..] == [SurchargeConfig, Payrolls, Charges, SubscriptionStep];
    OneStepMoves(db, s4, b, [SubscriptionStep]);
    OneStepMoves(db, s3, b, [Charges, SubscriptionStep]);
    OneStepMoves(db, s2, b, [Payrolls, Charges, SubscriptionStep]);
    OneStepMoves(db, s1, b, [SurchargeConfig, Payrolls, Charges, SubscriptionStep]);
    OneStepMoves(db, s0, b, STEPS);
  }

  lemma NoStepsMove(db: Tables, b: Body)
    ensures RunSteps(db, b, []).0 == db
  {
  }
}
