/**
 * The calendar helper the projection engine relies on: Python's
 * `calendar.monthrange(year, month)[1]`, the number of days of a month of the
 * proleptic Gregorian calendar.
 */
module Calendar {
  import opened Wrappers

  /** Month numbers as the records store them (1 = January .. 12 = December). */
  type Month = m: int | 1 <= m <= 12 witness 1

  /** Gregorian leap-year rule, as `calendar.isleap`. */
  predicate IsLeapYear(year: int) {
    year % 4 == 0 && (year % 100 != 0 || year % 400 == 0)
  }

  /** Days per month of a common year, indexed by month number (index 0 unused), as `calendar.mdays`. */
  const CommonMonthDays: seq<int> := [0, 31, 28, 31, 30, 31, 30, 31, 31, 30, 31, 30, 31]

  /** `monthrange(year, month)[1]`: the common-year length plus one for February of a leap year. */
  function DaysInMonth(year: int, month: Month): (d: int)
    ensures 28 <= d <= 31
    ensures d == 29 <==> month == 2 && IsLeapYear(year)
    ensures d == 30 <==> month == 4 || month == 6 || month == 9 || month == 11
    ensures d == 28 <==> month == 2 && !IsLeapYear(year)
  {
    CommonMonthDays[month] + (if month == 2 && IsLeapYear(year) then 1 else 0)
  }

  datatype PeriodError = InvalidPeriod

  /** `monthrange` on an unchecked month number: months outside 1..12 raise. */
  function MonthRange(year: int, month: int): (r: Result<int, PeriodError>)
    ensures r.Err? <==> !(1 <= month <= 12)
    ensures r.Ok? ==> 28 <= r.value <= 31
    ensures r.Ok? ==> r.value == DaysInMonth(year, month)
  {
    if 1 <= month <= 12 then Ok(DaysInMonth(year, month)) else Err(InvalidPeriod)
  }

  /** Days of months 1..m of a year. */
  function DaysThrough(year: int, m: nat): int
    requires m <= 12
  {
    if m == 0 then 0 else DaysThrough(year, m - 1) + DaysInMonth(year, m)
  }

  /** The twelve month lengths add up to the length of the year: 366 in a leap year, 365 otherwise. */
  lemma {:induction false} YearLength(year: int)
    ensures DaysThrough(year, 12) == if IsLeapYear(year) then 366 else 365
  {
    var leap := if IsLeapYear(year) then 1 else 0;
    assert DaysThrough(year, 1) == 31;
    assert DaysThrough(year, 2) == 59 + leap;
    assert DaysThrough(year, 3) == 90 + leap;
    assert DaysThrough(year, 4) == 120 + leap;
    assert DaysThrough(year, 5) == 151 + leap;
    assert DaysThrough(year, 6) == 181 + leap;
    assert DaysThrough(year, 7) == 212 + leap;
    assert DaysThrough(year, 8) == 243 + leap;
    assert DaysThrough(year, 9) == 273 + leap;
    assert DaysThrough(year, 10) == 304 + leap;
    assert DaysThrough(year, 11) == 334 + leap;
  }
}
