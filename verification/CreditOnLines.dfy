/** When invoice lines tell how much credit was spent, and when they do not: a seeded draft copies the credit
    line of the invoice it is copied from. */
module CreditOnLines {
  import opened Options
  import opened Sums
  import opened Ledger
  import opened BillingState
  import opened BillingHandlers
  import opened LineItems
  import opened CustomerCredit
  import opened BillingRuns

  /** The credit brought onto the customer's lines in the first `t` steps. */
  ghost function TotalBrought(states: seq<Db>, events: seq<Event>, t: nat, c: CustomerId): int
    requires t <= |events| && t <= |states|
  {
    if t == 0 then 0 else TotalBrought(states, events, t - 1, c) + CreditBrought(states[t - 1], events[t - 1], c)
  }

  lemma {:induction false} ExcessIsBrought(states: seq<Db>, events: seq<Event>, limit: nat, t: nat, c: CustomerId)
    requires Run(states, events, limit) && t < |states|
    ensures Excess(states[t], c) == TotalBrought(states, events, t, c)
  {
    hide Step, Excess, CreditBrought, Enabled;
    if t == 0 {
      EmptyIsAccounted();
    } else {
      ExcessIsBrought(states, events, limit, t - 1, c);
      RunIsSound(states, events, limit, t - 1);
      StepMovesExcess(states[t - 1], events[t - 1], limit, c);
    }
  }

  /** In every state the credit issued is the balance, plus the credit the invoice lines show, less what was
      brought onto lines without being spent. */
  lemma ShownCreditIsAccounted(states: seq<Db>, events: seq<Event>, limit: nat, t: nat, c: CustomerId)
    requires Run(states, events, limit) && t < |states|
    ensures SumBy(states[t].notes, IssuedTo(c))
            == Balance(states[t], c) + SumBy(states[t].invoices, ShownTo(c)) - TotalBrought(states, events, t, c)
  {
    hide Step, CreditBrought, Spent, Enabled;
    CreditIsConserved(states, events, limit, t, c);
    ExcessIsBrought(states, events, limit, t, c);
  }

  /** The lines of the customer's invoices account for the credit issued. */
  ghost predicate LinesConserve(db: Db, c: CustomerId) {
    SumBy(db.notes, IssuedTo(c)) == Balance(db, c) + SumBy(db.invoices, ShownTo(c))
  }

  lemma {:induction false} NothingBrought(states: seq<Db>, events: seq<Event>, t: nat, c: CustomerId)
    requires t <= |events| && t <= |states| && forall k :: 0 <= k < t ==> CreditBrought(states[k], events[k], c) == 0
    ensures TotalBrought(states, events, t, c) == 0
  {
    if t > 0 { NothingBrought(states, events, t - 1, c); }
  }

  /** Lines account for credit in all states of a run exactly when no call brings any onto them: no caller's
      lines do, and no draft is seeded from an invoice that shows credit. */
  lemma LinesConserveExactly(states: seq<Db>, events: seq<Event>, limit: nat, c: CustomerId)
    requires Run(states, events, limit)
    ensures (forall t :: 0 <= t < |states| ==> LinesConserve(states[t], c))
            <==> (forall k :: 0 <= k < |events| ==> CreditBrought(states[k], events[k], c) == 0)
  {
    hide Step, CreditBrought, Enabled;
    forall t | 0 <= t < |states|
      ensures LinesConserve(states[t], c) <==> TotalBrought(states, events, t, c) == 0
    {
      ShownCreditIsAccounted(states, events, limit, t, c);
    }
    if forall t :: 0 <= t < |states| ==> LinesConserve(states[t], c) {
      forall k | 0 <= k < |events| ensures CreditBrought(states[k], events[k], c) == 0 {
        assert LinesConserve(states[k], c) && LinesConserve(states[k + 1], c);
      }
    }
    if forall k :: 0 <= k < |events| ==> CreditBrought(states[k], events[k], c) == 0 {
      forall t | 0 <= t < |states| ensures LinesConserve(states[t], c) { NothingBrought(states, events, t, c); }
    }
  }

  // ---------------------------------------------------------------- a run that gives credit twice

  const NO_TERMS := Terms(false, None)
  const WORK := LineItem(OtherLine, 300, 1)
  const USED := LineItem(CreditLine, -100, 1)

  function Monthly(status: InvoiceStatus, total: int, lines: seq<LineItem>): Invoice {
    Invoice(0, Some(1), Recurring, status, total, lines)
  }

  /** A note of 100, an invoice of 300 that uses it up, and a draft seeded from that invoice, finalised. */
  function TwiceState(k: nat): Db {
    var issued := Entry(Credits, AccountsReceivable, 100, CreditNoteRef(0));
    var applied := Entry(AccountsReceivable, Credits, 100, CreditApplicationRef(0));
    var first, second := Entry(AccountsReceivable, Revenue, 200, InvoiceRef(0)), Entry(AccountsReceivable, Revenue, 200, InvoiceRef(1));
    var notes := map[0 := Note(0, 100)];
    var draft, billed := Monthly(Draft, 300, [WORK]), Monthly(Finalized, 200, [WORK, USED]);
    var seeded := Monthly(Draft, 200, [WORK, USED]);
    if k == 0 then EMPTY_DB
    else if k == 1 then Db(map[], map[0 := 100], notes, map[], map[], map[], {}, [issued])
    else if k == 2 then Db(map[0 := draft], map[0 := 100], notes, map[], map[], map[], {}, [issued])
    else if k == 3 then Db(map[0 := billed], map[0 := 0], notes, map[], map[], map[], {}, [issued, applied, first])
    else if k == 4 then
      Db(map[0 := billed, 1 := seeded], map[0 := 0], notes, map[], map[], map[], {}, [issued, applied, first])
    else Db(map[0 := billed, 1 := billed], map[0 := 0], notes, map[], map[], map[], {}, [issued, applied, first, second])
  }

  function TwiceEvent(k: nat): Event {
    if k == 0 then EvIssueCreditNote(0, true, 0, None, 100)
    else if k == 1 then EvCreateDraft(0, 0, Some(1), Recurring, [WORK], 300, NO_TERMS)
    else if k == 2 then EvFinalize(0, NO_TERMS)
    else if k == 3 then EvSeedCopy(1, 0, 0, map[], NO_TERMS)
    else EvFinalize(1, NO_TERMS)
  }

  lemma TwiceLines()
    ensures LineTotal([WORK]) == 300 && LineTotal([WORK, USED]) == 200
    ensures OfType([WORK], SurchargeLine) == [] == OfType([WORK, USED], SurchargeLine) && LineTotal([]) == 0
    ensures NotOfType([WORK], SurchargeLine) == [WORK] && NotOfType([WORK, USED], SurchargeLine) == [WORK, USED]
    ensures CopiedLines([WORK, USED], map[]) == [WORK, USED]
  {
    hide CreditOn;
    var none: seq<LineItem> := [];
    OfTypeAppend(none, WORK, SurchargeLine);
    OfTypeAppend([WORK], USED, SurchargeLine);
    assert [WORK][..0] == none && [WORK, USED][..1] == [WORK] && none + [WORK] == [WORK] && [WORK] + [USED] == [WORK, USED];
    assert CopiedLines([WORK], map[]) == [WORK];
  }

  lemma TwiceCredit()
    ensures CreditOn([WORK]) == 0 && CreditOn([WORK, USED]) == 100
  {
    var none: seq<LineItem> := [];
    assert none + [WORK] == [WORK] && [WORK] + [USED] == [WORK, USED];
    CreditOnAppend(none, WORK);
    CreditOnAppend([WORK], USED);
    hide OfType;
  }

  lemma TwiceDrafts()
    ensures 0 !in TwiceState(0).notes && IssueCreditNote(TwiceState(0), 0, true, 0, None, 100) == TwiceState(1)
    ensures 0 !in TwiceState(1).invoices && 1 !in TwiceState(3).invoices
    ensures CreateDraft(TwiceState(1), 0, 0, Some(1), Recurring, [WORK], 300, NO_TERMS) == TwiceState(2)
    ensures SeedCopy(TwiceState(3), 1, 0, 0, map[], NO_TERMS) == TwiceState(4)
  {
    TwiceLines();
    hide LineTotal, NotOfType, CopiedLines;
    var none: seq<LineItem> := [];
    assert [WORK] + none == [WORK] && [WORK, USED] + none == [WORK, USED];
  }

  lemma TwiceSettles()
    ensures Settle([WORK], 300, 100, NO_TERMS) == Some(Settlement([WORK, USED], 100, 200))
    ensures Settle([WORK, USED], 200, 0, NO_TERMS) == Some(Settlement([WORK, USED], 0, 200))
  {
    TwiceLines();
    hide LineTotal, OfType, NotOfType;
    var none: seq<LineItem> := [];
    assert [WORK] + [USED] + none == [WORK, USED] && [WORK, USED] + none + none == [WORK, USED];
  }

  lemma TwiceFinalizes()
    ensures Finalize(TwiceState(2), 0, NO_TERMS) == TwiceState(3) && Finalize(TwiceState(4), 1, NO_TERMS) == TwiceState(5)
  {
    TwiceSettles();
    hide Settle;
    var no: Journal := [];
    assert TwiceState(4).ledger + no + InvoiceEntries(1, 200) == TwiceState(5).ledger;
    assert TwiceState(2).ledger + CreditEntries(0, 100) + InvoiceEntries(0, 200) == TwiceState(3).ledger;
  }

  lemma TwiceStep(k: nat, limit: nat)
    requires k < 5
    ensures Enabled(TwiceState(k), TwiceEvent(k)) && Step(TwiceState(k), TwiceEvent(k), limit) == TwiceState(k + 1)
  {
    hide TwiceState, CreateDraft, SeedCopy, Finalize, IssueCreditNote, Pay, RunDunning, ChargeOnce, UpdateOpenDraft, Recalculate,
         BillSubscription, PaymentSucceeded, PaymentFailed, CreateRefund, VoidInvoice, VoidDraft;
    TwiceDrafts();
    TwiceFinalizes();
  }

  /** The credit is given twice: one note of 100 takes 100 off two invoices of 300. The second was seeded from
      the first, its copied line is no credit spent, and the lines show 200. */
  lemma SeedingGivesCreditAgain(limit: nat) returns (states: seq<Db>, events: seq<Event>)
    ensures Run(states, events, limit)
    ensures var last := states[|states| - 1];
            && last.notes == map[0 := Note(0, 100)] && Balance(last, 0) == 0
            && 0 in last.invoices && last.invoices[0] == Monthly(Finalized, 200, [WORK, USED])
            && 1 in last.invoices && last.invoices[1] == last.invoices[0]
            && Excess(last, 0) == 100 && !LinesConserve(last, 0)
  {
    states, events := seq(6, (k: nat) => TwiceState(k)), seq(5, (k: nat) => TwiceEvent(k));
    TwiceBrought(states, events);
    hide Step, Enabled, TotalBrought, Spent;
    forall t | 0 <= t < 5 ensures Enabled(states[t], events[t]) && states[t + 1] == Step(states[t], events[t], limit) {
      TwiceStep(t, limit);
    }
    ExcessIsBrought(states, events, limit, 5, 0);
    ShownCreditIsAccounted(states, events, limit, 5, 0);
  }

  lemma TwiceBrought(states: seq<Db>, events: seq<Event>)
    requires |states| == 6 && |events| == 5
    requires forall k :: 0 <= k < 5 ==> states[k] == TwiceState(k) && events[k] == TwiceEvent(k)
    ensures TotalBrought(states, events, 5, 0) == 100
  {
    TwiceLines();
    TwiceCredit();
    hide CreditOn, NotOfType, CopiedLines, LineTotal;
    assert forall k :: 0 <= k < 5 ==> CreditBrought(states[k], events[k], 0) == if k == 3 then 100 else 0;
    assert TotalBrought(states, events, 1, 0) == 0;
    assert TotalBrought(states, events, 3, 0) == 0 by { assert TotalBrought(states, events, 2, 0) == 0; }
  }
}
