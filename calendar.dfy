/**
 * The proleptic Gregorian calendar: the three services the settlement code takes
 * from a date library (a date value, its day of the week with Sunday = 0, and
 * adding whole days), written out over (year, month, day).
 */
module Calendar {

  datatype Date = Date(year: int, month: int, day: int)

  predicate IsLeapYear(y: int) {
    y % 4 == 0 && (y % 100 != 0 || y % 400 == 0)
  }

  function DaysInMonth(y: int, m: int): (n: int)
    requires 1 <= m <= 12
    ensures 28 <= n <= 31
  {
    if m == 2 then (if IsLeapYear(y) then 29 else 28)
    else if m == 4 || m == 6 || m == 9 || m == 11 then 30
    else 31
  }

  /** A calendar date from 1 January of year 1 onwards. */
  predicate ValidDate(d: Date) {
    d.year >= 1 && 1 <= d.month <= 12 && 1 <= d.day <= DaysInMonth(d.year, d.month)
  }

  function DaysInYear(y: int): int {
    if IsLeapYear(y) then 366 else 365
  }

  /** Days in the years 1 .. y-1. */
  function DaysBeforeYear(y: int): int
    requires y >= 1
  {
    var p := y - 1;
    365 * p + p / 4 - p / 100 + p / 400
  }

  /** Days in the months 1 .. m-1 of year y. */
  function DaysBeforeMonth(y: int, m: int): int
    requires 1 <= m <= 13
  {
    if m == 1 then 0 else DaysBeforeMonth(y, m - 1) + DaysInMonth(y, m - 1)
  }

  /** Number of days from 1 January of year 1 to d. */
  function DayNumber(d: Date): int
    requires ValidDate(d)
  {
    DaysBeforeYear(d.year) + DaysBeforeMonth(d.year, d.month) + d.day - 1
  }

  /** Day of the week, Sunday = 0 .. Saturday = 6; 1 January of year 1 was a Monday. */
  function DayOfWeek(d: Date): (w: int)
    requires ValidDate(d)
    ensures 0 <= w < 7
  {
    (DayNumber(d) + 1) % 7
  }

  lemma {:induction false} LeapDays(p: int)
    requires p >= 0
    ensures (p + 1) / 4 == p / 4 + (if (p + 1) % 4 == 0 then 1 else 0)
    ensures (p + 1) / 100 == p / 100 + (if (p + 1) % 100 == 0 then 1 else 0)
    ensures (p + 1) / 400 == p / 400 + (if (p + 1) % 400 == 0 then 1 else 0)
  {
  }

  lemma {:induction false} MonthsOfYear(y: int)
    ensures DaysBeforeMonth(y, 13) == DaysInYear(y)
  {
    var feb := DaysInMonth(y, 2);
    assert DaysBeforeMonth(y, 2) == 31;
    assert DaysBeforeMonth(y, 3) == 31 + feb;
    assert DaysBeforeMonth(y, 5) == 92 + feb;
    assert DaysBeforeMonth(y, 7) == 153 + feb;
    assert DaysBeforeMonth(y, 9) == 215 + feb;
    assert DaysBeforeMonth(y, 11) == 276 + feb;
  }

  lemma {:induction false} YearLength(y: int)
    requires y >= 1
    ensures DaysBeforeYear(y + 1) == DaysBeforeYear(y) + DaysInYear(y)
  {
    LeapDays(y - 1);
  }

  lemma {:induction false} WeekdayShift(x: int, n: nat)
    ensures (x + n + 1) % 7 == ((x + 1) % 7 + n) % 7
  {
  }

  /** The day after d. */
  function NextDay(d: Date): (r: Date)
    requires ValidDate(d)
    ensures ValidDate(r)
    ensures DayNumber(r) == DayNumber(d) + 1
  {
    if d.day < DaysInMonth(d.year, d.month) then
      Date(d.year, d.month, d.day + 1)
    else if d.month < 12 then
      Date(d.year, d.month + 1, 1)
    else
      YearLength(d.year);
      MonthsOfYear(d.year);
      Date(d.year + 1, 1, 1)
  }

  /** d moved n whole days forward. */
  function AddDays(d: Date, n: nat): (r: Date)
    requires ValidDate(d)
    ensures ValidDate(r)
    ensures DayNumber(r) == DayNumber(d) + n
  {
    if n == 0 then d else NextDay(AddDays(d, n - 1))
  }

  /** n days later is n places further round the week. */
  lemma {:induction false} AddDaysWeekday(d: Date, n: nat)
    requires ValidDate(d)
    ensures DayOfWeek(AddDays(d, n)) == (DayOfWeek(d) + n) % 7
  {
    WeekdayShift(DayNumber(d), n);
  }

  /** The weekday numbering agrees with the real calendar: 3 March 2017 was a Friday, 4 March a Saturday, 5 March a Sunday. */
  lemma {:induction false} KnownWeekdays()
    ensures DayOfWeek(Date(2017, 3, 3)) == 5
    ensures DayOfWeek(Date(2017, 3, 4)) == 6
    ensures DayOfWeek(Date(2017, 3, 5)) == 0
    ensures DayOfWeek(Date(1, 1, 1)) == 1
  {
  }
}
