/**
  Calendar arithmetic on day numbers. Day 0 is 1970-01-01 (a Thursday), the
  epoch of JavaScript `Date` values; the proleptic Gregorian calendar is used
  throughout, as `Date` does. Months are numbered 0..11 as `getMonth` numbers
  them.
 */
module Dates {

  /** Date.prototype.getDay of a day number: 0 is Sunday. */
  function Weekday(day: int): (w: int)
    ensures 0 <= w < 7
  {
    (day + 4) % 7
  }

  predicate IsLeapYear(y: int) {
    y % 4 == 0 && (y % 100 != 0 || y % 400 == 0)
  }

  function DaysInMonth(y: int, m: int): (n: int)
    requires 0 <= m < 12
    ensures 28 <= n <= 31
    ensures n == 29 <==> m == 1 && IsLeapYear(y)
  {
    if m == 1 then (if IsLeapYear(y) then 29 else 28)
    else if m == 3 || m == 5 || m == 8 || m == 10 then 30
    else 31
  }

  function DaysBeforeMonth(y: int, m: int): int
    requires 0 <= m < 12
  {
    [0, 31, 59, 90, 120, 151, 181, 212, 243, 273, 304, 334][m] + (if m >= 2 && IsLeapYear(y) then 1 else 0)
  }

  /** Leap years among 1 .. y-1 (a difference of two of these counts the leap
      years between them for any years, negative ones included). */
  function LeapYearsBefore(y: int): int {
    (y - 1) / 4 - (y - 1) / 100 + (y - 1) / 400
  }

  /** Day number of January 1 of year `y`. */
  function YearStart(y: int): int {
    365 * (y - 1970) + LeapYearsBefore(y) - LeapYearsBefore(1970)
  }

  /** Day number of the 1st of month `m` of year `y`. */
  function MonthStart(y: int, m: int): int
    requires 0 <= m < 12
  {
    YearStart(y) + DaysBeforeMonth(y, m)
  }

  /** `new Date(y, m, d)`: a month outside 0..11 moves into a neighbouring year
      and a day outside the month moves into a neighbouring month (ECMAScript
      MakeDay). */
  function MakeDay(y: int, m: int, d: int): int {
    MonthStart(y + m / 12, m % 12) + d - 1
  }

  /** The year, month and day-of-month a `Date` reports through getFullYear,
      getMonth and getDate. */
  datatype CivilDate = CivilDate(year: int, month: int, day: int)

  predicate ValidCivil(c: CivilDate) {
    0 <= c.month < 12 && 1 <= c.day <= DaysInMonth(c.year, c.month)
  }

  function DayNumber(c: CivilDate): int
    requires 0 <= c.month < 12
  {
    MonthStart(c.year, c.month) + c.day - 1
  }

  lemma DivStep(y: int)
    ensures y / 4 - (y - 1) / 4 == if y % 4 == 0 then 1 else 0
    ensures y / 100 - (y - 1) / 100 == if y % 100 == 0 then 1 else 0
    ensures y / 400 - (y - 1) / 400 == if y % 400 == 0 then 1 else 0
  {
  }

  /** Inside a year, `new Date(y, m, d)` is `d - 1` days after the 1st of
      the month. */
  lemma MakeDayInYear(y: int, m: int, d: int)
    requires 0 <= m < 12
    ensures MakeDay(y, m, d) == MonthStart(y, m) + d - 1
  {
    assert m / 12 == 0 && m % 12 == m;
  }

  /** One more leap year is counted exactly when `y` is one. */
  lemma LeapStep(y: int)
    ensures LeapYearsBefore(y + 1) - LeapYearsBefore(y) == if IsLeapYear(y) then 1 else 0
  {
    DivStep(y);
  }

  /** A year has 366 days when it is a leap year and 365 otherwise. */
  lemma YearLength(y: int)
    ensures YearStart(y + 1) - YearStart(y) == if IsLeapYear(y) then 366 else 365
  {
    LeapStep(y);
  }

  /** The 1st of the next month (by `new Date(y, m + 1, 1)`) follows the 1st
      of this month by exactly the month's length, December included. */
  lemma MonthLength(y: int, m: int)
    requires 0 <= m < 12
    ensures MakeDay(y, m + 1, 1) == MonthStart(y, m) + DaysInMonth(y, m)
  {
    if m == 11 {
      YearLength(y);
    }
  }

  /** `new Date(y, m + 1, 0)` is the last day of month `m`. */
  lemma LastDayOfMonth(y: int, m: int)
    requires 0 <= m < 12
    ensures MakeDay(y, m + 1, 0) == MonthStart(y, m) + DaysInMonth(y, m) - 1
  {
    MonthLength(y, m);
  }

  /** Within a year, the months before `m + 1` are those before `m` and `m`
      itself. */
  lemma DaysBeforeStep(y: int, m: int)
    requires 0 <= m < 11
    ensures DaysBeforeMonth(y, m + 1) == DaysBeforeMonth(y, m) + DaysInMonth(y, m)
  {
  }

  /** `new Date(y, m - 1, 1)` is the 1st of the previous month, which ends the
      day before the 1st of month `m`. */
  lemma PreviousMonthStart(y: int, m: int)
    requires 0 <= m < 12
    ensures MakeDay(y, m - 1, 1) + DaysInMonth(y + (m - 1) / 12, (m - 1) % 12) == MonthStart(y, m)
  {
    var py, pm := y + (m - 1) / 12, (m - 1) % 12;
    if m == 0 {
      assert py == y - 1 && pm == 11;
      YearLength(y - 1);
    } else {
      assert py == y && pm == m - 1;
      DaysBeforeStep(y, m - 1);
    }
    assert MakeDay(y, m - 1, 1) == MonthStart(py, pm);
  }

  /** 2024-11-10, the date of the booking example, is day 20037 and a Sunday. */
  lemma ExampleDate()
    ensures DayNumber(CivilDate(2024, 10, 10)) == 20037
    ensures Weekday(20037) == 0
  {
  }
}
