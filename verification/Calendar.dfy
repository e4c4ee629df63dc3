/** UTC dates at midnight: the civil calendar, the overflow rules of Date.UTC (ECMA-262, section 21.4.1)
    and the day numbers that give dates their order. */
module Calendar {

  /** Months count from 0, as in the source; days from 1. */
  datatype Date = Date(year: int, month: int, day: int)

  predicate Leap(y: int) { y % 4 == 0 && (y % 100 != 0 || y % 400 == 0) }

  /** The length of month `m` of year `y`. */
  function MonthLength(y: int, m: int): (n: int)
    requires 0 <= m < 12
    ensures 28 <= n <= 31
  {
    if m == 1 then (if Leap(y) then 29 else 28)
    else if m == 3 || m == 5 || m == 8 || m == 10 then 30
    else 31
  }

  predicate Valid(d: Date) {
    0 <= d.month < 12 && 1 <= d.day <= MonthLength(d.year, d.month)
  }

  /** Years and months as one count of months. */
  function MonthIndex(d: Date): int { 12 * d.year + d.month }

  function LengthOf(index: int): (n: int)
    ensures 28 <= n <= 31
  {
    MonthLength(index / 12, index % 12)
  }

  /** Days past the end of a month, or before its start, carry over into the neighbouring months. */
  function Carry(index: int, day: int): (d: Date)
    ensures Valid(d)
    decreases if day < 1 then 1 else 0, if day < 1 then -day else day
  {
    if day < 1 then Carry(index - 1, day + LengthOf(index - 1))
    else if day > LengthOf(index) then Carry(index + 1, day - LengthOf(index))
    else Date(index / 12, index % 12, day)
  }

  /** Date.UTC(year, month, day) for any integers. */
  function Utc(year: int, month: int, day: int): (d: Date)
    ensures Valid(d)
  {
    Carry(12 * year + month, day)
  }

  // ---------------------------------------------------------------- day numbers

  /** DayFromYear of ECMA-262: the day number of the first of January, counted from 1970. */
  function DayFromYear(y: int): int {
    365 * (y - 1970) + (y - 1969) / 4 - (y - 1901) / 100 + (y - 1601) / 400
  }

  /** The days of a year before a month. */
  function DaysBefore(y: int, m: int): int
    requires 0 <= m < 12
  {
    if m == 0 then 0 else DaysBefore(y, m - 1) + MonthLength(y, m - 1)
  }

  /** The day number of the first of a month. */
  function MonthStart(index: int): int {
    DayFromYear(index / 12) + DaysBefore(index / 12, index % 12)
  }

  function DayNumber(d: Date): int
    requires 0 <= d.month < 12
  {
    MonthStart(MonthIndex(d)) + d.day - 1
  }

  lemma YearLength(y: int)
    ensures DayFromYear(y + 1) - DayFromYear(y) == if Leap(y) then 366 else 365
  {
    assert (y - 1968) / 4 - (y - 1969) / 4 == if y % 4 == 0 then 1 else 0;
    assert (y - 1900) / 100 - (y - 1901) / 100 == if y % 100 == 0 then 1 else 0;
    assert (y - 1600) / 400 - (y - 1601) / 400 == if y % 400 == 0 then 1 else 0;
    assert y % 400 == 0 ==> y % 100 == 0;
    assert y % 100 == 0 ==> y % 4 == 0;
  }

  /** Each month starts where the one before it ends. */
  lemma MonthsTile(index: int)
    ensures MonthStart(index + 1) == MonthStart(index) + LengthOf(index)
  {
    var y, m := index / 12, index % 12;
    if m < 11 {
      assert (index + 1) / 12 == y && (index + 1) % 12 == m + 1;
    } else {
      assert (index + 1) / 12 == y + 1 && (index + 1) % 12 == 0;
      YearLength(y);
      DaysInYear(y);
    }
  }

  lemma DaysInYear(y: int)
    ensures DaysBefore(y, 11) + 31 == if Leap(y) then 366 else 365
  {
    var f := if Leap(y) then 29 else 28;
    assert DaysBefore(y, 1) == 31 && DaysBefore(y, 2) == 31 + f;
    assert DaysBefore(y, 4) == f + 92 by { assert DaysBefore(y, 3) == f + 62; }
    assert DaysBefore(y, 6) == f + 153 by { assert DaysBefore(y, 5) == f + 123; }
    assert DaysBefore(y, 8) == f + 215 by { assert DaysBefore(y, 7) == f + 184; }
    assert DaysBefore(y, 10) == f + 276 by { assert DaysBefore(y, 9) == f + 245; }
  }

  /** Overflowing dates are the dates ECMA-262 computes: the first of the month plus a number of days. */
  lemma {:induction false} CarryCounts(index: int, day: int)
    ensures DayNumber(Carry(index, day)) == MonthStart(index) + day - 1
    decreases if day < 1 then 1 else 0, if day < 1 then -day else day
  {
    if day < 1 {
      MonthsTile(index - 1);
      CarryCounts(index - 1, day + LengthOf(index - 1));
    } else if day > LengthOf(index) {
      MonthsTile(index);
      CarryCounts(index + 1, day - LengthOf(index));
    }
  }

  /** Calendar order: by month, then by day. */
  predicate Before(a: Date, b: Date) {
    MonthIndex(a) < MonthIndex(b) || (MonthIndex(a) == MonthIndex(b) && a.day < b.day)
  }

  lemma {:induction false} LaterMonthStarts(i: int, j: int)
    requires i < j
    ensures MonthStart(i) + LengthOf(i) <= MonthStart(j)
    decreases j - i
  {
    MonthsTile(j - 1);
    if i < j - 1 { LaterMonthStarts(i, j - 1); }
  }

  lemma IndexParts(d: Date)
    requires 0 <= d.month < 12
    ensures MonthIndex(d) / 12 == d.year && MonthIndex(d) % 12 == d.month
    ensures LengthOf(MonthIndex(d)) == MonthLength(d.year, d.month)
  {
  }

  /** Calendar order is the order of time stamps, and equal day numbers are equal dates. */
  lemma OrderIsDayNumber(a: Date, b: Date)
    requires Valid(a) && Valid(b)
    ensures Before(a, b) <==> DayNumber(a) < DayNumber(b)
    ensures a == b <==> DayNumber(a) == DayNumber(b)
  {
    IndexParts(a);
    IndexParts(b);
    hide MonthStart, LengthOf, MonthLength;
    if MonthIndex(a) < MonthIndex(b) { LaterMonthStarts(MonthIndex(a), MonthIndex(b)); }
    if MonthIndex(b) < MonthIndex(a) { LaterMonthStarts(MonthIndex(b), MonthIndex(a)); }
  }
}
