/** Invoice totals against their lines, and what finalisation forgets. */
module LineTotals {
  import opened BillingState
  import opened BillingHandlers
  import opened LineItems

  /** Surcharge lines of a draft are positive single units; any other line may be anything. */
  predicate DraftLine(l: LineItem) {
    l.kind == SurchargeLine ==> l.amount > 0 && l.quantity == 1
  }

  predicate DraftLines(lines: seq<LineItem>) {
    forall l :: l in lines ==> DraftLine(l)
  }

  /** Surcharge lines of a draft are positive, so stripping removes all of them. */
  lemma {:induction false} SurchargeShows(lines: seq<LineItem>)
    requires DraftLines(lines)
    ensures SurchargeOn(lines) >= 0
    ensures SurchargeOn(lines) == 0 ==> NotOfType(lines, SurchargeLine) == lines
  {
    if lines != [] {
      var n := |lines| - 1;
      var rest, last := lines[..n], lines[n];
      assert lines == rest + [last];
      assert last in lines && forall l :: l in rest ==> l in lines;
      SurchargeShows(rest);
      if last.kind == SurchargeLine {
        assert last.amount * last.quantity == last.amount;
        OfTypeAppend(OfType(rest, SurchargeLine), last, SurchargeLine);
      } else {
        assert OfType(rest, SurchargeLine) + [] == OfType(rest, SurchargeLine);
      }
    }
  }

  lemma StripsAll(lines: seq<LineItem>)
    requires DraftLines(lines)
    ensures Stripped(lines) == NotOfType(lines, SurchargeLine)
  {
    SurchargeShows(lines);
  }

  lemma NothingTotals()
    ensures LineTotal([]) == 0
  {
  }

  /** Finalising a draft whose total is the sum of its lines depends on its other lines alone: the
      surcharge lines it has gathered make no difference to any part of the result. */
  lemma SettlementForgets(lines: seq<LineItem>, total: int, balance: int, terms: Terms)
    requires DraftLines(lines) && total == LineTotal(lines)
    ensures var kept := NotOfType(lines, SurchargeLine);
            Settle(lines, total, balance, terms) == Settle(kept, LineTotal(kept), balance, terms)
  {
    hide ApplyCreditAndSurcharge, LineTotal, OfType, NotOfType;
    var kept := NotOfType(lines, SurchargeLine);
    KeptLinesAreOld(lines, SurchargeLine);
    NoneOfType(kept, SurchargeLine);
    SplitTotal(lines, SurchargeLine);
    StripsAll(lines);
    NothingTotals();
  }

  /** The final total is the sum of the final lines, and is what is left of the subtotal after credit
      plus the surcharge on just that. */
  lemma SettlementAddsUp(lines: seq<LineItem>, total: int, balance: int, terms: Terms)
    requires DraftLines(lines) && total == LineTotal(lines)
    requires Settle(lines, total, balance, terms).Some?
    ensures var s := Settle(lines, total, balance, terms).value;
            var subtotal := LineTotal(NotOfType(lines, SurchargeLine));
            var due := subtotal - s.applied;
            && s.total == LineTotal(s.lines) == due + FinalFee(terms, due)
            && s.applied == (if balance == 0 then 0 else Min(balance, subtotal))
            && s.applied >= 0
  {
    hide Surcharge, FinalFee;
    var s := Settle(lines, total, balance, terms).value;
    var kept := Stripped(lines);
    SplitTotal(lines, SurchargeLine);
    StripsAll(lines);
    var due := total - SurchargeOn(lines) - s.applied;
    AppendLineTotals(kept, s.applied, FinalFee(terms, due));
    AppendLineTotals(kept + CreditLines(s.applied), s.applied, FinalFee(terms, due));
  }

  /** Finalisation aborts, because the ledger refuses the credit entry, exactly for a negative balance and
      for a positive one with nothing left to spend it on. */
  lemma FinalisationAborts(lines: seq<LineItem>, total: int, balance: int, terms: Terms)
    requires DraftLines(lines) && total == LineTotal(lines)
    ensures Settle(lines, total, balance, terms).None?
            <==> balance < 0 || (balance > 0 && LineTotal(NotOfType(lines, SurchargeLine)) <= 0)
  {
    hide LineTotal, NotOfType, OfType, Surcharge;
    SplitTotal(lines, SurchargeLine);
    StripsAll(lines);
  }

  /** A percentage surcharge is the nearest cent, halves upwards, and a flat one its dollars; no surcharge is
      charged without a card or a rule, nor a negative one. */
  lemma SurchargeRounds(terms: Terms, subtotal: int)
    ensures var fee := Surcharge(terms, subtotal);
            match terms
            case Terms(true, Some(Percentage(v))) =>
              if subtotal * v < 50 then fee == 0 else 100 * fee - 50 <= subtotal * v < 100 * fee + 50
            case Terms(true, Some(FlatFee(d))) => if d <= 0 then fee == 0 else fee == 100 * d
            case _ => fee == 0
  {
    if terms.rule.Some? && terms.rule.value.Percentage? {
      var n := subtotal * terms.rule.value.value;
      assert 200 * RoundPercent(n) <= 2 * n + 100 < 200 * RoundPercent(n) + 200;
    }
  }

  /** A draft after any sequence of surcharge recalculations. */
  function Recalculated(draft: Invoice, history: seq<Terms>): Invoice {
    if history == [] then draft
    else Resurcharged(Recalculated(draft, history[..|history| - 1]), history[|history| - 1])
  }

  lemma ResurchargeKeeps(draft: Invoice, terms: Terms)
    requires DraftLines(draft.lines)
    ensures var again := Resurcharged(draft, terms);
            && DraftLines(again.lines) && again.total == LineTotal(again.lines)
            && NotOfType(again.lines, SurchargeLine) == NotOfType(draft.lines, SurchargeLine)
  {
    var kept := NotOfType(draft.lines, SurchargeLine);
    var fee := Surcharge(terms, LineTotal(kept));
    KeptLinesAreOld(draft.lines, SurchargeLine);
    NoneOfType(kept, SurchargeLine);
    AppendLineTotals(kept, 0, fee);
    if fee > 0 {
      OfTypeAppend(kept, LineItem(SurchargeLine, fee, 1), SurchargeLine);
      assert kept + [] == kept;
    } else {
      assert kept + SurchargeLines(fee) == kept;
    }
  }

  lemma {:induction false} HistoryKeeps(draft: Invoice, history: seq<Terms>)
    requires DraftLines(draft.lines) && draft.total == LineTotal(draft.lines)
    ensures var again := Recalculated(draft, history);
            && DraftLines(again.lines) && again.total == LineTotal(again.lines)
            && NotOfType(again.lines, SurchargeLine) == NotOfType(draft.lines, SurchargeLine)
  {
    if history != [] {
      HistoryKeeps(draft, history[..|history| - 1]);
      ResurchargeKeeps(Recalculated(draft, history[..|history| - 1]), history[|history| - 1]);
    }
  }

  /** Finalisation forgets surcharge history: whatever recalculations came before, with whatever cards and
      rules, the final lines, credit and total are the ones of the untouched draft. */
  lemma FinalisationForgetsHistory(draft: Invoice, history: seq<Terms>, balance: int, terms: Terms)
    requires DraftLines(draft.lines) && draft.total == LineTotal(draft.lines)
    ensures var again := Recalculated(draft, history);
            Settle(again.lines, again.total, balance, terms) == Settle(draft.lines, draft.total, balance, terms)
  {
    var again := Recalculated(draft, history);
    HistoryKeeps(draft, history);
    SettlementForgets(again.lines, again.total, balance, terms);
    SettlementForgets(draft.lines, draft.total, balance, terms);
  }
}
