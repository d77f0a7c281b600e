/**
 * The quick statistics of the hosted dashboard (src/pages/Dashboard.tsx):
 * the length of the selected month, the days elapsed in it, the average
 * daily variable spending and the projection of that average over the whole
 * month. Today's date is a parameter.
 */
module Dashboard {
  import opened Domain

  /** Gregorian leap years: divisible by 4, except centuries not divisible by 400. */
  predicate IsLeapYear(year: int) {
    year % 4 == 0 && (year % 100 != 0 || year % 400 == 0)
  }

  /** The length of month 1..12 of a year. */
  function MonthLength(month: int, year: int): (r: int)
    requires 1 <= month <= 12
    ensures 28 <= r <= 31
  {
    if month == 2 then (if IsLeapYear(year) then 29 else 28)
    else if month == 4 || month == 6 || month == 9 || month == 11 then 30
    else 31
  }

  /**
   * `new Date(year, month, 0).getDate()`: day 0 of the (0-based) month
   * `month` is the last day of the 1-based month `month`; a month outside
   * 1..12 rolls over into a neighbouring year, as the Date constructor does.
   */
  function DaysInMonth(month: int, year: int): (r: int)
    ensures 28 <= r <= 31
    ensures 1 <= month <= 12 ==> r == MonthLength(month, year)
  {
    MonthLength((month - 1) % 12 + 1, year + (month - 1) / 12)
  }

  /** The year's month lengths add up to 365 days, or 366 in a leap year. */
  lemma {:induction false} YearLength(year: int)
    ensures DaysInMonth(1, year) + DaysInMonth(2, year) + DaysInMonth(3, year) + DaysInMonth(4, year) +
            DaysInMonth(5, year) + DaysInMonth(6, year) + DaysInMonth(7, year) + DaysInMonth(8, year) +
            DaysInMonth(9, year) + DaysInMonth(10, year) + DaysInMonth(11, year) + DaysInMonth(12, year) ==
            (if IsLeapYear(year) then 366 else 365)
    ensures DaysInMonth(13, year) == DaysInMonth(1, year + 1)
    ensures DaysInMonth(0, year) == DaysInMonth(12, year - 1)
  {
  }

  /** `isCurrentMonth`: the selected month is today's month of today's year. */
  predicate IsCurrentMonth(month: int, year: int, today: Date) {
    month == today.month && year == today.year
  }

  /** `daysElapsed`: today's day of the month for the current month, the whole month otherwise. */
  function DaysElapsed(month: int, year: int, today: Date): (r: int)
    ensures IsCurrentMonth(month, year, today) ==> r == today.day
    ensures !IsCurrentMonth(month, year, today) ==> r == DaysInMonth(month, year)
  {
    if IsCurrentMonth(month, year, today) then today.day else DaysInMonth(month, year)
  }

  /** `averageDaily`: the variable spending per elapsed day, zero when no day has elapsed. */
  function AverageDaily(variable: real, month: int, year: int, today: Date): (r: real)
    ensures DaysElapsed(month, year, today) <= 0 ==> r == 0.0
    ensures DaysElapsed(month, year, today) > 0 ==> r * DaysElapsed(month, year, today) as real == variable
  {
    var elapsed := DaysElapsed(month, year, today);
    if elapsed > 0 then variable / elapsed as real else 0.0
  }

  /** `projectedMonthly`: the daily average kept up over the whole month. */
  function ProjectedMonthly(variable: real, month: int, year: int, today: Date): real {
    AverageDaily(variable, month, year, today) * DaysInMonth(month, year) as real
  }

  /**
   * A month other than the current one is over, so its projection is what
   * was spent; in the current month the spending is scaled by the month's
   * length over the days elapsed; no day elapsed projects nothing.
   */
  lemma {:induction false} ProjectionRules(variable: real, month: int, year: int, today: Date)
    ensures !IsCurrentMonth(month, year, today) ==> ProjectedMonthly(variable, month, year, today) == variable
    ensures IsCurrentMonth(month, year, today) && today.day > 0 ==>
      ProjectedMonthly(variable, month, year, today) * today.day as real ==
        variable * DaysInMonth(month, year) as real
    ensures IsCurrentMonth(month, year, today) && today.day <= 0 ==>
      ProjectedMonthly(variable, month, year, today) == 0.0
  {
    var d := DaysInMonth(month, year) as real;
    var avg := AverageDaily(variable, month, year, today);
    if IsCurrentMonth(month, year, today) && today.day > 0 {
      var t := today.day as real;
      assert avg * t == variable;
      assert (avg * d) * t == (avg * t) * d;
    }
  }
}
