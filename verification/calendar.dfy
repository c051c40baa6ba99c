/** Whole calendar days as the JavaScript `Date` constructor builds them:
    a full year, a 0-based month and a 1-based day of the month. Time of day
    is not modelled; every date stands for one whole day. */
module Calendar {

  datatype Date = Date(year: int, month: int, day: int)

  /** Leap years of the proleptic Gregorian calendar that `Date` uses. */
  predicate IsLeapYear(y: int)
  {
    (y % 4 == 0 && y % 100 != 0) || y % 400 == 0
  }

  /** The number of days of month `m` (0 = January) of year `y`. */
  function DaysInMonth(y: int, m: int): (n: int)
    requires 0 <= m < 12
    ensures 28 <= n <= 31
    ensures m == 1 <==> n < 30
  {
    if m == 1 then (if IsLeapYear(y) then 29 else 28)
    else if m == 3 || m == 5 || m == 8 || m == 10 then 30
    else 31
  }

  /** A day that exists in the calendar. */
  predicate Valid(d: Date)
  {
    0 <= d.month < 12 && 1 <= d.day <= DaysInMonth(d.year, d.month)
  }

  /** Months counted from the start of year 0: consecutive months differ by one. */
  function MonthIndex(d: Date): int
  {
    d.year * 12 + d.month
  }

  /** Chronological order; on valid dates it is the order of their timestamps. */
  predicate AtOrBefore(a: Date, b: Date)
  {
    a.year < b.year || (a.year == b.year && (a.month < b.month || (a.month == b.month && a.day <= b.day)))
  }

  /** `isWithinInterval` and a `>= start, <= end` range query: both ends included. */
  predicate Within(d: Date, start: Date, end: Date)
  {
    AtOrBefore(start, d) && AtOrBefore(d, end)
  }

  /** `new Date(year, month, 1)`. A month outside 0..11 rolls over into a
      neighbouring year, so the result is a valid first of the month whose
      month index is exactly `year * 12 + month`. */
  function FirstOfMonth(year: int, month: int): (d: Date)
    ensures Valid(d) && d.day == 1
    ensures MonthIndex(d) == year * 12 + month
  {
    Date(year + month / 12, month % 12, 1)
  }

  /** Day 0 of a month, which `Date` reads as the last day of the month before. */
  function DayBefore(first: Date): (d: Date)
    requires Valid(first) && first.day == 1
    ensures Valid(d) && AtOrBefore(d, first) && d != first
    ensures MonthIndex(d) == MonthIndex(first) - 1
    ensures d.day == DaysInMonth(d.year, d.month)
  {
    if first.month == 0 then Date(first.year - 1, 11, 31)
    else Date(first.year, first.month - 1, DaysInMonth(first.year, first.month - 1))
  }

  /** Two valid dates in the same month index lie in the same year and month. */
  lemma SameMonthIndex(a: Date, b: Date)
    requires 0 <= a.month < 12 && 0 <= b.month < 12
    requires MonthIndex(a) == MonthIndex(b)
    ensures a.year == b.year && a.month == b.month
  {
  }

  /** `new Date(year, month + 1, 0)`: the last day of the same month that
      `FirstOfMonth(year, month)` opens. */
  function LastOfMonth(year: int, month: int): (d: Date)
    ensures Valid(d)
    ensures d.year == FirstOfMonth(year, month).year && d.month == FirstOfMonth(year, month).month
    ensures d.day == DaysInMonth(d.year, d.month)
  {
    var d := DayBefore(FirstOfMonth(year, month + 1));
    SameMonthIndex(d, FirstOfMonth(year, month));
    d
  }

  /** A valid day lies between the first and the last day of a month exactly
      when it belongs to that month. */
  lemma MonthRangeIsMonth(d: Date, year: int, month: int)
    requires Valid(d)
    ensures Within(d, FirstOfMonth(year, month), LastOfMonth(year, month))
        <==> d.year == FirstOfMonth(year, month).year && d.month == FirstOfMonth(year, month).month
  {
  }

  /** The month before `month` as `compareMonthlyExpenses` computes it: December
      of the year before when `month` is January, otherwise the same year. */
  function PreviousMonth(year: int, month: int): (ym: (int, int))
    ensures ym.0 * 12 + ym.1 == year * 12 + month - 1
    ensures 0 <= month < 12 ==> 0 <= ym.1 < 12
    ensures month == 0 <==> ym.0 == year - 1
  {
    if month == 0 then (year - 1, 11) else (year, month - 1)
  }

  /** For any month the source can be asked about, the previous month's range ends
      on the day before the current month's range starts: the two ranges are adjacent. */
  lemma PreviousMonthIsAdjacent(year: int, month: int)
    ensures var (py, pm) := PreviousMonth(year, month);
      LastOfMonth(py, pm) == DayBefore(FirstOfMonth(year, month))
  {
    var (py, pm) := PreviousMonth(year, month);
    var last, before := LastOfMonth(py, pm), DayBefore(FirstOfMonth(year, month));
    SameMonthIndex(FirstOfMonth(py, pm), FirstOfMonth(year, month - 1));
    SameMonthIndex(last, before);
  }

  /** A day number that orders valid dates chronologically. It is not a count of
      elapsed days, but it has the sign behaviour of the timestamp difference
      `getTime() - getTime()` that the source compares with. */
  function Ordinal(d: Date): int
  {
    d.year * 372 + d.month * 31 + d.day
  }

  /** On valid dates the ordinal agrees with the calendar order, in both directions. */
  lemma OrdinalMonotone(a: Date, b: Date)
    requires Valid(a) && Valid(b)
    ensures AtOrBefore(a, b) <==> Ordinal(a) <= Ordinal(b)
  {
  }
}
