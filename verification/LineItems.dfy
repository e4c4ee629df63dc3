/** What appending, filtering and copying lines does to their totals and to the credit they show. */
module LineItems {
  import opened Options
  import opened BillingState
  import opened BillingHandlers

  /** The credit shown on an invoice's lines. */
  function CreditOn(lines: seq<LineItem>): int {
    -LineTotal(OfType(lines, CreditLine))
  }

  lemma {:induction false} NoneOfType(lines: seq<LineItem>, kind: LineType)
    requires forall l :: l in lines ==> l.kind != kind
    ensures OfType(lines, kind) == [] && NotOfType(lines, kind) == lines
  {
    if lines != [] {
      var n := |lines| - 1;
      NoneOfType(lines[..n], kind);
      assert lines == lines[..n] + [lines[n]];
    }
  }

  lemma OfTypeAppend(lines: seq<LineItem>, l: LineItem, kind: LineType)
    ensures OfType(lines + [l], kind) == OfType(lines, kind) + if l.kind == kind then [l] else []
    ensures NotOfType(lines + [l], kind) == NotOfType(lines, kind) + if l.kind != kind then [l] else []
    ensures LineTotal(lines + [l]) == LineTotal(lines) + l.amount * l.quantity
  {
    assert (lines + [l])[..|lines|] == lines;
  }

  lemma {:induction false} KeptLinesAreOld(lines: seq<LineItem>, kind: LineType)
    ensures forall l :: l in NotOfType(lines, kind) <==> l in lines && l.kind != kind
  {
    if lines != [] {
      KeptLinesAreOld(lines[..|lines| - 1], kind);
      assert lines == lines[..|lines| - 1] + [lines[|lines| - 1]];
    }
  }

  lemma {:induction false} SplitTotal(lines: seq<LineItem>, kind: LineType)
    ensures LineTotal(lines) == LineTotal(OfType(lines, kind)) + LineTotal(NotOfType(lines, kind))
  {
    if lines != [] {
      var n := |lines| - 1;
      var rest, last := lines[..n], lines[n];
      SplitTotal(rest, kind);
      if last.kind == kind {
        OfTypeAppend(OfType(rest, kind), last, kind);
        assert NotOfType(rest, kind) + [] == NotOfType(rest, kind);
      } else {
        OfTypeAppend(NotOfType(rest, kind), last, kind);
        assert OfType(rest, kind) + [] == OfType(rest, kind);
      }
    }
  }

  lemma AppendLineTotals(lines: seq<LineItem>, applied: int, fee: int)
    requires applied >= 0 && fee >= 0
    ensures LineTotal(lines + CreditLines(applied)) == LineTotal(lines) - applied
    ensures LineTotal(lines + SurchargeLines(fee)) == LineTotal(lines) + fee
  {
    hide LineTotal, OfType, NotOfType;
    if applied > 0 {
      OfTypeAppend(lines, LineItem(CreditLine, -applied, 1), OtherLine);
    } else {
      assert lines + CreditLines(applied) == lines;
    }
    if fee > 0 {
      OfTypeAppend(lines, LineItem(SurchargeLine, fee, 1), OtherLine);
    } else {
      assert lines + SurchargeLines(fee) == lines;
    }
  }

  // ---------------------------------------------------------------- credit shown

  lemma CreditOnAppend(lines: seq<LineItem>, l: LineItem)
    ensures CreditOn(lines + [l]) == CreditOn(lines) - if l.kind == CreditLine then l.amount * l.quantity else 0
  {
    OfTypeAppend(lines, l, CreditLine);
    OfTypeAppend(OfType(lines, CreditLine), l, CreditLine);
    assert OfType(lines, CreditLine) + [] == OfType(lines, CreditLine);
  }

  lemma CreditLinesShow(lines: seq<LineItem>, applied: int)
    requires applied >= 0
    ensures CreditOn(lines + CreditLines(applied)) == CreditOn(lines) + applied
  {
    hide CreditOn;
    if applied > 0 {
      CreditOnAppend(lines, LineItem(CreditLine, -applied, 1));
    } else {
      assert lines + CreditLines(applied) == lines;
    }
  }

  lemma SurchargeLinesHide(lines: seq<LineItem>, fee: int)
    ensures CreditOn(lines + SurchargeLines(fee)) == CreditOn(lines)
  {
    hide CreditOn;
    if fee > 0 {
      CreditOnAppend(lines, LineItem(SurchargeLine, fee, 1));
    } else {
      assert lines + SurchargeLines(fee) == lines;
    }
  }

  lemma PlainShowsNoCredit(lines: seq<LineItem>)
    requires forall l :: l in lines ==> l.kind == OtherLine
    ensures CreditOn(lines) == 0
  {
    NoneOfType(lines, CreditLine);
  }

  /** Dropping the surcharge lines leaves the credit shown. */
  lemma {:induction false} StrippingKeepsCredit(lines: seq<LineItem>)
    ensures CreditOn(NotOfType(lines, SurchargeLine)) == CreditOn(lines)
  {
    if lines != [] {
      var n := |lines| - 1;
      var rest, last := lines[..n], lines[n];
      assert lines == rest + [last];
      StrippingKeepsCredit(rest);
      hide CreditOn;
      CreditOnAppend(rest, last);
      OfTypeAppend(rest, last, SurchargeLine);
      if last.kind != SurchargeLine {
        CreditOnAppend(NotOfType(rest, SurchargeLine), last);
      } else {
        assert NotOfType(rest, SurchargeLine) + [] == NotOfType(rest, SurchargeLine);
      }
    }
  }

  /** A copy shows the credit of the lines it copies: credit lines are taken as they are. */
  lemma {:induction false} CopyKeepsCredit(kept: seq<LineItem>, rebuilt: map<nat, int>)
    ensures CreditOn(CopiedLines(kept, rebuilt)) == CreditOn(kept)
  {
    if kept != [] {
      var n := |kept| - 1;
      assert kept == kept[..n] + [kept[n]];
      CopyKeepsCredit(kept[..n], rebuilt);
      hide CreditOn;
      CreditOnAppend(kept[..n], kept[n]);
      CreditOnAppend(CopiedLines(kept[..n], rebuilt), CopiedLine(kept[n], if n in rebuilt then Some(rebuilt[n]) else None));
    }
  }

  lemma {:induction false} CopyHasNoSurcharge(kept: seq<LineItem>, rebuilt: map<nat, int>)
    requires forall l :: l in kept ==> l.kind != SurchargeLine
    ensures forall l :: l in CopiedLines(kept, rebuilt) ==> l.kind != SurchargeLine
  {
    if kept != [] {
      var n := |kept| - 1;
      assert kept == kept[..n] + [kept[n]];
      CopyHasNoSurcharge(kept[..n], rebuilt);
    }
  }

  /** Finalising a draft adds exactly the applied credit to what it shows. */
  lemma SettleShowsCredit(lines: seq<LineItem>, total: int, balance: int, terms: Terms)
    requires Settle(lines, total, balance, terms).Some?
    ensures var s := Settle(lines, total, balance, terms).value;
            s.applied >= 0 && CreditOn(s.lines) == CreditOn(lines) + s.applied
  {
    hide LineTotal, OfType, NotOfType, Surcharge, FinalFee, CreditOn, CreditLines, SurchargeLines;
    var s := Settle(lines, total, balance, terms).value;
    var fee := FinalFee(terms, total - SurchargeOn(lines) - s.applied);
    StrippingKeepsCredit(lines);
    CreditLinesShow(Stripped(lines), s.applied);
    SurchargeLinesHide(Stripped(lines) + CreditLines(s.applied), fee);
  }
}
