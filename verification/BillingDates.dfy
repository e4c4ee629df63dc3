/** Billing periods, due dates and the migration's first cycle. */
module BillingDates {
  import opened Calendar

  function MinDay(a: int, b: int): int { if a <= b then a else b }

  // ---------------------------------------------------------------- what the dates should be

  /** Day `day` of a month, or its last day when the month is shorter. */
  function Clamped(index: int, day: int): (d: Date)
    requires day >= 1
    ensures Valid(d) && MonthIndex(d) == index && d.day == MinDay(day, LengthOf(index))
  {
    Date(index / 12, index % 12, MinDay(day, LengthOf(index)))
  }

  /** The same day `n` months later, clamped. */
  function MonthsLater(d: Date, n: int): (r: Date)
    requires Valid(d)
    ensures Valid(r) && MonthIndex(r) == MonthIndex(d) + n && r.day == MinDay(d.day, LengthOf(MonthIndex(d) + n))
  {
    Clamped(MonthIndex(d) + n, d.day)
  }

  /** Charge days 28 to 31 get a cycle that starts on the first. */
  predicate Boundary(chargeDay: int) { 28 <= chargeDay <= 31 }

  function GetBillingCycleDay(chargeDay: int): (day: int)
    ensures 1 <= chargeDay <= 31 ==> 1 <= day <= 27
  {
    if Boundary(chargeDay) then 1 else chargeDay
  }

  /** The due date of the period starting at `start`: the charge day of the start's month, or of the month
      before for boundary customers, and one month later for postpaid ones. */
  function DueDate(start: Date, chargeDay: int, prepaid: bool): (d: Date)
    requires Valid(start) && chargeDay >= 1
    ensures Valid(d)
    ensures MonthIndex(d) == MonthIndex(start) - (if Boundary(chargeDay) then 1 else 0) + (if prepaid then 0 else 1)
  {
    var due := Clamped(MonthIndex(start) - (if Boundary(chargeDay) then 1 else 0), chargeDay);
    if prepaid then due else MonthsLater(due, 1)
  }

  lemma ClampTwice(index: int, day: int)
    requires day >= 1
    ensures Clamped(index, MinDay(day, LengthOf(index))) == Clamped(index, day)
  {
  }

  // ---------------------------------------------------------------- what the code computes

  /** A day that exists in its month does not carry. */
  lemma InMonth(index: int, day: int)
    requires 1 <= day <= LengthOf(index)
    ensures Carry(index, day) == Date(index / 12, index % 12, day)
    ensures Carry(index, day) == Clamped(index, day)
  {
  }

  /** Day 0 of the next month is the last day of the month. */
  function DaysInMonth(year: int, month: int): (n: int)
    ensures n == LengthOf(12 * year + month)
  {
    assert Carry(12 * year + month + 1, 0) == Carry(12 * year + month, LengthOf(12 * year + month));
    Utc(year, month + 1, 0).day
  }

  function ClampDay(day: int, year: int, month: int): int {
    MinDay(day, DaysInMonth(year, month))
  }

  /** The remainder operator of the source, which takes the sign of the dividend. */
  function Rem(a: int, b: int): int
    requires b > 0
  {
    if a >= 0 then a % b else -((-a) % b)
  }

  lemma RemIsFloor(a: int)
    ensures (Rem(a, 12) + 12) % 12 == a % 12
  {
  }

  /** The utility's month addition. */
  function AddMonths(d: Date, months: int): (r: Date)
    requires Valid(d)
    ensures r == MonthsLater(d, months)
  {
    var m := d.month + months;
    var targetYear := d.year + m / 12;
    var targetMonth := (Rem(m, 12) + 12) % 12;
    RemIsFloor(m);
    assert 12 * targetYear + targetMonth == MonthIndex(d) + months;
    InMonth(MonthIndex(d) + months, MinDay(d.day, LengthOf(MonthIndex(d) + months)));
    Utc(targetYear, targetMonth, ClampDay(d.day, targetYear, targetMonth))
  }

  /** The resolver's month addition, with the last day of the target month inlined. */
  function AddMonthsClamped(start: Date, months: int): (r: Date)
    requires Valid(start)
    ensures r == MonthsLater(start, months)
  {
    var targetMonthIndex := start.month + months;
    var targetYear := start.year + targetMonthIndex / 12;
    var targetMonth := (Rem(targetMonthIndex, 12) + 12) % 12;
    RemIsFloor(targetMonthIndex);
    assert 12 * targetYear + targetMonth == MonthIndex(start) + months;
    assert Utc(targetYear, targetMonth + 1, 0).day == DaysInMonth(targetYear, targetMonth);
    var lastDay := Utc(targetYear, targetMonth + 1, 0).day;
    InMonth(MonthIndex(start) + months, MinDay(start.day, lastDay));
    Utc(targetYear, targetMonth, MinDay(start.day, lastDay))
  }

  /** The subscription's month step: move the month, and when the day has overflowed go back to day 0. */
  method CalculateBillingPeriodEnd(start: Date) returns (end: Date)
    requires Valid(start)
    ensures end == MonthsLater(start, 1)
    ensures Before(start, end)
  {
    var index := MonthIndex(start) + 1;
    end := Utc(start.year, start.month + 1, start.day);
    if start.day <= LengthOf(index) {
      InMonth(index, start.day);
    } else {
      assert end == Carry(index + 1, start.day - LengthOf(index));
      InMonth(index + 1, start.day - LengthOf(index));
    }
    if end.day != start.day {
      assert MonthIndex(end) == index + 1;
      InMonth(index, LengthOf(index));
      assert Carry(index + 1, 0) == Carry(index, LengthOf(index));
      end := Utc(end.year, end.month, 0);
    }
  }

  /** The three month steps of the system are one function on every valid date, strictly later in time. */
  lemma MonthStepsAgree(d: Date)
    requires Valid(d)
    ensures AddMonths(d, 1) == AddMonthsClamped(d, 1) == MonthsLater(d, 1)
    ensures DayNumber(d) < DayNumber(AddMonths(d, 1)) <= DayNumber(d) + 31
  {
    var next := MonthsLater(d, 1);
    OrderIsDayNumber(d, next);
    MonthsTile(MonthIndex(d));
    IndexParts(d);
    IndexParts(next);
  }

  method CalculateInvoiceDueDate(start: Date, chargeDay: int, prepaid: bool) returns (due: Date)
    requires Valid(start) && 1 <= chargeDay <= 31
    ensures due == DueDate(start, chargeDay, prepaid)
  {
    hide Carry, LengthOf, Clamped, AddMonths, DaysInMonth;
    var dueYear, dueMonth := start.year, start.month;
    if chargeDay in {28, 29, 30, 31} {
      dueMonth := start.month - 1;
      if dueMonth < 0 {
        dueMonth := 11;
        dueYear := dueYear - 1;
      }
    }
    var day := ClampDay(chargeDay, dueYear, dueMonth);
    InMonth(12 * dueYear + dueMonth, day);
    ClampTwice(12 * dueYear + dueMonth, chargeDay);
    due := Utc(dueYear, dueMonth, day);
    if !prepaid { due := AddMonths(due, 1); }
  }

  /** The first charge day after a date: this month's, if it is still to come, else next month's. */
  function NextPayment(today: Date, chargeDay: int): (d: Date)
    requires Valid(today) && chargeDay >= 1
    ensures Valid(d)
  {
    var current := Clamped(MonthIndex(today), chargeDay);
    if Before(today, current) then current else Clamped(MonthIndex(today) + 1, chargeDay)
  }

  /** It is the earliest clamped occurrence of the charge day strictly after the date. */
  lemma NextPaymentIsEarliest(today: Date, chargeDay: int, index: int)
    requires Valid(today) && chargeDay >= 1
    ensures Before(today, NextPayment(today, chargeDay))
    ensures Before(today, Clamped(index, chargeDay)) ==> !Before(Clamped(index, chargeDay), NextPayment(today, chargeDay))
  {
  }

  /** Step 1: the next charge day, rolling the month and the year over. */
  method FindNextPayment(today: Date, chargeDay: int) returns (year: int, month: int, payment: Date)
    requires Valid(today) && 1 <= chargeDay <= 31
    ensures payment == NextPayment(today, chargeDay)
    ensures 0 <= month < 12 && 12 * year + month == MonthIndex(payment)
  {
    hide Carry, LengthOf, Clamped, DaysInMonth;
    year, month := today.year, today.month;
    if today.day >= ClampDay(chargeDay, year, month) {
      month := month + 1;
      if month > 11 {
        month := 0;
        year := year + 1;
      }
    }
    var day := ClampDay(chargeDay, year, month);
    InMonth(12 * year + month, day);
    ClampTwice(12 * year + month, chargeDay);
    payment := Utc(year, month, day);
  }

  method CalculateNextBillingPeriod(today: Date, chargeDay: int, prepaid: bool)
    returns (start: Date, end: Date, due: Date)
    requires Valid(today) && 1 <= chargeDay <= 31
    ensures Valid(start) && end == MonthsLater(start, 1)
    ensures start.day == GetBillingCycleDay(chargeDay)
    ensures MonthIndex(start) == MonthIndex(NextPayment(today, chargeDay))
                                 + (if Boundary(chargeDay) then 1 else 0) + (if prepaid then 0 else 1)
    ensures due == if prepaid then NextPayment(today, chargeDay) else MonthsLater(NextPayment(today, chargeDay), 1)
  {
    hide Carry, LengthOf, Clamped, AddMonths, DaysInMonth, NextPayment;
    var startYear, startMonth, nextPaymentDate := FindNextPayment(today, chargeDay);
    var cycleDay := GetBillingCycleDay(chargeDay);
    if chargeDay in {28, 29, 30, 31} {
      startMonth := startMonth + 1;
      if startMonth > 11 {
        startMonth := 0;
        startYear := startYear + 1;
      }
    }
    InMonth(12 * startYear + startMonth, cycleDay);
    start := Utc(startYear, startMonth, ClampDay(cycleDay, startYear, startMonth));
    if !prepaid { start := AddMonths(start, 1); }
    end := AddMonths(start, 1);
    due := nextPaymentDate;
    if !prepaid { due := AddMonths(nextPaymentDate, 1); }
  }

  /** The due date returned with a next period is the due date of its start exactly for prepaid customers;
      for postpaid ones the two differ by a month whatever the date. */
  lemma NextPeriodDueIsConsistent(today: Date, chargeDay: int, prepaid: bool, start: Date, due: Date)
    requires Valid(today) && Valid(start) && 1 <= chargeDay <= 31
    requires start.day == GetBillingCycleDay(chargeDay)
    requires MonthIndex(start) == MonthIndex(NextPayment(today, chargeDay))
                                  + (if Boundary(chargeDay) then 1 else 0) + (if prepaid then 0 else 1)
    requires due == if prepaid then NextPayment(today, chargeDay) else MonthsLater(NextPayment(today, chargeDay), 1)
    ensures due == DueDate(start, chargeDay, prepaid) <==> prepaid
    ensures !prepaid ==> MonthIndex(DueDate(start, chargeDay, prepaid)) == MonthIndex(due) + 1
  {
  }

  /** Around a cycle-aligned start, prepaid dues fall on or before it and postpaid dues after it, at the
      latest at the end of the period. */
  lemma DueFallsInCycle(start: Date, chargeDay: int)
    requires Valid(start) && 1 <= chargeDay <= 31 && start.day == GetBillingCycleDay(chargeDay)
    ensures !Before(start, DueDate(start, chargeDay, true))
    ensures Before(start, DueDate(start, chargeDay, false))
    ensures !Before(MonthsLater(start, 1), DueDate(start, chargeDay, false))
  {
  }

  // ---------------------------------------------------------------- the migration's first cycle

  /** The first cycle of a migrated customer: next month's for prepaid, this month's for postpaid. */
  function ComputeBillingCycle(chargeDay: int, today: Date, prepaid: bool): (cycle: (Date, Date)) {
    var offset := if prepaid then 1 else 0;
    var day := if chargeDay >= 28 && chargeDay <= 31 then 1 else chargeDay;
    (Utc(today.year, today.month + offset, day), Utc(today.year, today.month + offset + 1, day))
  }

  function ComputeDueDate(chargeDay: int, today: Date): (due: Date)
    ensures Valid(due)
  {
    if 1 <= chargeDay <= 27 then Utc(today.year, today.month + 1, chargeDay)
    else if 28 <= chargeDay <= 31 then
      if Utc(today.year, today.month + 1, 0).day >= chargeDay then Utc(today.year, today.month, chargeDay)
      else Utc(today.year, today.month + 1, 1)
    else Utc(today.year, today.month + 1, 1)
  }

  /** A migrated cycle is one month long and starts on the customer's cycle day. */
  lemma MigratedCycleIsAligned(chargeDay: int, today: Date, prepaid: bool)
    requires Valid(today) && 1 <= chargeDay <= 31
    ensures var cycle := ComputeBillingCycle(chargeDay, today, prepaid);
            && Valid(cycle.0) && cycle.0.day == GetBillingCycleDay(chargeDay)
            && MonthIndex(cycle.0) == MonthIndex(today) + (if prepaid then 1 else 0)
            && cycle.1 == MonthsLater(cycle.0, 1)
  {
    var index := MonthIndex(today) + if prepaid then 1 else 0;
    InMonth(index, GetBillingCycleDay(chargeDay));
    InMonth(index + 1, GetBillingCycleDay(chargeDay));
  }

  /** The migration's due date is the one the running service computes for the migrated cycle, always for
      charge days 1 to 27; for 28 to 31 exactly when this month has the day and, for postpaid customers,
      last month has it too. */
  lemma MigratedDueAgrees(chargeDay: int, today: Date, prepaid: bool)
    requires Valid(today) && 1 <= chargeDay <= 31
    ensures var start := ComputeBillingCycle(chargeDay, today, prepaid).0;
            Valid(start)
            && (ComputeDueDate(chargeDay, today) == DueDate(start, chargeDay, prepaid)
                <==> || chargeDay <= 27
                     || (chargeDay <= LengthOf(MonthIndex(today))
                         && (prepaid || chargeDay <= LengthOf(MonthIndex(today) - 1))))
  {
    MigratedCycleIsAligned(chargeDay, today, prepaid);
    var index := MonthIndex(today);
    if chargeDay <= 27 {
      InMonth(index + 1, chargeDay);
    } else {
      assert Utc(today.year, today.month + 1, 0).day == DaysInMonth(today.year, today.month);
      if chargeDay <= LengthOf(index) { InMonth(index, chargeDay); } else { InMonth(index + 1, 1); }
    }
  }
}
