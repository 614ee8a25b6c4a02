/**
 * Civil (proleptic Gregorian) dates as pandas parses them from the stored
 * ISO 8601 strings, with the day ordinal used for date differences and the
 * (year, month) key used for monthly grouping.
 */
module Dates {

  datatype Date = Date(year: int, month: int, day: int)

  predicate IsLeapYear(y: int)
  {
    y % 4 == 0 && (y % 100 != 0 || y % 400 == 0)
  }

  function DaysInYear(y: int): int
  {
    if IsLeapYear(y) then 366 else 365
  }

  /** Length of month `m` of year `y`; 0 for a month number outside 1..12. */
  function DaysInMonth(y: int, m: int): int
  {
    if m == 2 then (if IsLeapYear(y) then 29 else 28)
    else if m == 4 || m == 6 || m == 9 || m == 11 then 30
    else if 1 <= m <= 12 then 31
    else 0
  }

  /** The triple names a day of the Gregorian calendar. */
  predicate IsCalendarDate(d: Date)
  {
    1 <= d.month <= 12 && 1 <= d.day <= DaysInMonth(d.year, d.month)
  }

  /** Strict calendar order: by year, then month, then day. */
  predicate Before(a: Date, b: Date)
  {
    a.year < b.year
    || (a.year == b.year && a.month < b.month)
    || (a.year == b.year && a.month == b.month && a.day < b.day)
  }

  /**
   * pandas stores timestamps as 64-bit nanosecond counts from the epoch, so
   * the midnights it can represent run from 1677-09-22 to 2262-04-11.
   */
  const FirstTimestampDate := Date(1677, 9, 22)
  const LastTimestampDate := Date(2262, 4, 11)

  /** `pd.to_datetime` turns the stored date into a timestamp without raising. */
  predicate Parseable(d: Date)
  {
    IsCalendarDate(d) && !Before(d, FirstTimestampDate) && !Before(LastTimestampDate, d)
  }

  /** Days in the years before `y` (year 1 starts the count). */
  function DaysBeforeYear(y: int): int
  {
    365 * (y - 1) + (y - 1) / 4 - (y - 1) / 100 + (y - 1) / 400
  }

  /** Days in the months of year `y` before month `m`. */
  function DaysBeforeMonth(y: int, m: int): int
    decreases m
  {
    if m <= 1 then 0 else DaysBeforeMonth(y, m - 1) + DaysInMonth(y, m - 1)
  }

  /**
   * Day ordinal: 0001-01-01 is day 1, as in Python's `date.toordinal`. The
   * difference of two ordinals is the `.days` of the dates' difference.
   */
  function DayNumber(d: Date): int
  {
    DaysBeforeYear(d.year) + DaysBeforeMonth(d.year, d.month) + d.day
  }

  /** The calendar month a date falls in, pandas' `to_period('M')`. */
  function MonthOf(d: Date): (int, int)
  {
    (d.year, d.month)
  }

  lemma {:induction false} YearStep(y: int)
    ensures DaysBeforeYear(y + 1) == DaysBeforeYear(y) + DaysInYear(y)
  {
    assert y / 4 - (y - 1) / 4 == (if y % 4 == 0 then 1 else 0);
    assert y / 100 - (y - 1) / 100 == (if y % 100 == 0 then 1 else 0);
    assert y / 400 - (y - 1) / 400 == (if y % 400 == 0 then 1 else 0);
  }

  lemma {:induction false} YearsMonotone(y: int, z: int)
    requires y <= z
    ensures DaysBeforeYear(y) + (z - y) * 365 <= DaysBeforeYear(z)
    decreases z - y
  {
    if y < z {
      YearStep(y);
      YearsMonotone(y + 1, z);
    }
  }

  lemma {:induction false} MonthsMonotone(y: int, m: int, n: int)
    requires 1 <= m <= n <= 13
    ensures DaysBeforeMonth(y, m) + (n - m) * 28 <= DaysBeforeMonth(y, n)
    decreases n - m
  {
    if m < n {
      MonthsMonotone(y, m, n - 1);
    }
  }

  lemma {:induction false} WholeYear(y: int)
    ensures DaysBeforeMonth(y, 13) == DaysInYear(y)
  {
  }

  /** A calendar date's offset within its year lies in 1..DaysInYear. */
  lemma {:induction false} DayOfYearBounds(d: Date)
    requires IsCalendarDate(d)
    ensures 1 <= DaysBeforeMonth(d.year, d.month) + d.day <= DaysInYear(d.year)
  {
    MonthsMonotone(d.year, 1, d.month);
    MonthsMonotone(d.year, d.month + 1, 13);
    WholeYear(d.year);
  }

  /** A date's ordinal is at most that of the last day of its year. */
  lemma {:induction false} YearEnd(d: Date)
    requires IsCalendarDate(d)
    ensures DayNumber(d) <= DaysBeforeYear(d.year + 1)
  {
    DayOfYearBounds(d);
    YearStep(d.year);
  }

  /** A date's ordinal exceeds the ordinal of every day before year `y` when `y` is not later than its year. */
  lemma {:induction false} YearStart(y: int, d: Date)
    requires IsCalendarDate(d) && y <= d.year
    ensures DaysBeforeYear(y) < DayNumber(d)
  {
    DayOfYearBounds(d);
    YearsMonotone(y, d.year);
  }

  /** The day ordinal follows calendar order, so it is also injective on calendar dates. */
  lemma {:induction false} DayNumberMonotone(a: Date, b: Date)
    requires IsCalendarDate(a) && IsCalendarDate(b)
    requires Before(a, b)
    ensures DayNumber(a) < DayNumber(b)
  {
    if a.year < b.year {
      YearEnd(a);
      YearStart(a.year + 1, b);
    } else if a.month < b.month {
      MonthsMonotone(a.year, a.month + 1, b.month);
    }
  }

  lemma {:induction false} DayNumberInjective(a: Date, b: Date)
    requires IsCalendarDate(a) && IsCalendarDate(b)
    ensures DayNumber(a) == DayNumber(b) <==> a == b
  {
    if Before(a, b) {
      DayNumberMonotone(a, b);
    } else if Before(b, a) {
      DayNumberMonotone(b, a);
    }
  }

  /** The calendar day after `d`: the next day of the month, else the 1st of the next month, else January 1. */
  function NextDay(d: Date): Date
  {
    if d.day < DaysInMonth(d.year, d.month) then Date(d.year, d.month, d.day + 1)
    else if d.month < 12 then Date(d.year, d.month + 1, 1)
    else Date(d.year + 1, 1, 1)
  }

  /**
   * Consecutive calendar days have consecutive ordinals, so the difference of
   * two ordinals counts the days from one date to the other.
   */
  lemma {:induction false} DayNumberNext(d: Date)
    requires IsCalendarDate(d)
    ensures IsCalendarDate(NextDay(d)) && Before(d, NextDay(d))
    ensures DayNumber(NextDay(d)) == DayNumber(d) + 1
  {
    if d.day == DaysInMonth(d.year, d.month) && d.month == 12 {
      YearStep(d.year);
      WholeYear(d.year);
    }
  }
}
