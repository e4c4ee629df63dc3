/** Platform-fee discounts: in which billing cycles a discount counts. */
module Discounts {
  import opened Options
  import opened Calendar
  import opened BillingDates

  /** A discount's start date and its length in months, each possibly absent. */
  datatype Discount = Discount(discounted: bool, start: Option<Date>, months: Option<int>)

  predicate OnOrAfter(a: Date, b: Date)
    requires Valid(a) && Valid(b)
  {
    DayNumber(a) >= DayNumber(b)
  }

  predicate IsPerpetual(d: Discount) {
    d.discounted && d.months.None? && d.start.None?
  }

  /** An open-ended discount counts from its start date, by the clock and not by the cycle. */
  predicate IsPerpetualSince(now: Date, d: Discount)
    requires Valid(now) && (d.start.Some? ==> Valid(d.start.value))
  {
    d.discounted && d.months.None? && d.start.Some? && OnOrAfter(now, d.start.value)
  }

  predicate IsLimitedValid(cycleStart: Date, d: Discount)
    requires Valid(cycleStart) && (d.start.Some? ==> Valid(d.start.value))
  {
    d.discounted && d.months.Some? && d.start.Some?
    && OnOrAfter(cycleStart, d.start.value)
    && !OnOrAfter(cycleStart, AddMonthsClamped(d.start.value, d.months.value))
  }

  predicate ValidateDiscount(cycleStart: Date, now: Date, d: Discount)
    requires Valid(cycleStart) && Valid(now) && (d.start.Some? ==> Valid(d.start.value))
  {
    IsPerpetual(d) || IsPerpetualSince(now, d) || IsLimitedValid(cycleStart, d)
  }

  /** The first month whose cycle a discount can reach: its own when the cycle day has not passed. */
  function FirstCovered(start: Date, cycleDay: int): int {
    MonthIndex(start) + if cycleDay >= start.day then 0 else 1
  }

  /** A limited discount of n months covers n consecutive monthly cycles and no other, whatever its start
      date (29th to 31st included) and whatever the cycle day. */
  lemma DiscountWindow(d: Discount, now: Date, cycleDay: int, index: int)
    requires Valid(now) && d.discounted && d.start.Some? && Valid(d.start.value) && d.months.Some?
    requires 1 <= cycleDay <= 27
    ensures var first := FirstCovered(d.start.value, cycleDay);
            ValidateDiscount(Clamped(index, cycleDay), now, d) <==> first <= index < first + d.months.value
  {
    var cycle := Clamped(index, cycleDay);
    var end := AddMonthsClamped(d.start.value, d.months.value);
    OrderIsDayNumber(cycle, d.start.value);
    OrderIsDayNumber(cycle, end);
    hide DayNumber, LengthOf, Clamped, MonthsLater, AddMonthsClamped;
  }

  /** The integers from `lo` on, n of them. */
  function Interval(lo: int, n: nat): (r: set<int>)
    ensures |r| == n && forall j :: j in r <==> lo <= j < lo + n
  {
    if n == 0 then {} else Interval(lo, n - 1) + {lo + n - 1}
  }

  /** The months of a span whose cycle the discount covers. */
  ghost function CoveredMonths(d: Discount, now: Date, cycleDay: int, lo: int, hi: int): set<int>
    requires Valid(now) && (d.start.Some? ==> Valid(d.start.value)) && cycleDay >= 1
  {
    set j: int | lo <= j < hi && ValidateDiscount(Clamped(j, cycleDay), now, d)
  }

  /** Counting the covered cycles gives exactly the number of months, over any span wide enough. */
  lemma DiscountCount(d: Discount, now: Date, chargeDay: int, lo: int, hi: int)
    requires Valid(now) && d.discounted && d.start.Some? && Valid(d.start.value) && d.months.Some?
    requires 1 <= chargeDay <= 31 && d.months.value >= 0
    requires lo <= MonthIndex(d.start.value) && MonthIndex(d.start.value) + d.months.value < hi
    ensures |CoveredMonths(d, now, GetBillingCycleDay(chargeDay), lo, hi)| == d.months.value
  {
    var c := GetBillingCycleDay(chargeDay);
    var first := FirstCovered(d.start.value, c);
    forall j ensures ValidateDiscount(Clamped(j, c), now, d) <==> first <= j < first + d.months.value {
      DiscountWindow(d, now, c, j);
    }
    assert CoveredMonths(d, now, c, lo, hi) == Interval(first, d.months.value);
  }
}
