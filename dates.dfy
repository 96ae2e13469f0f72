/**
 * Calendar dates as the generator and the dashboard use them: proleptic
 * Gregorian (year, month, day) triples, numbered the way Python's
 * `date.toordinal()` numbers them (0001-01-01 is day 1) and with Python's
 * `weekday()` convention (Monday is 0, Saturday 5, Sunday 6).
 */
module Dates {

  datatype Date = Date(year: int, month: int, day: int)

  predicate IsLeapYear(y: int) {
    y % 4 == 0 && (y % 100 != 0 || y % 400 == 0)
  }

  function DaysInYear(y: int): int {
    if IsLeapYear(y) then 366 else 365
  }

  function DaysInMonth(y: int, m: int): int {
    if m == 2 then (if IsLeapYear(y) then 29 else 28)
    else if m == 4 || m == 6 || m == 9 || m == 11 then 30
    else 31
  }

  /** A real calendar date from year 1 on. */
  predicate ValidDate(d: Date) {
    1 <= d.year && 1 <= d.month <= 12 && 1 <= d.day <= DaysInMonth(d.year, d.month)
  }

  /** Days in the years 1 .. y-1. */
  function DaysBeforeYear(y: int): int
    requires 1 <= y
  {
    var p := y - 1;
    p * 365 + p / 4 - p / 100 + p / 400
  }

  /** Days in the months 1 .. m-1 of year y. */
  function DaysBeforeMonth(y: int, m: int): int
    requires 1 <= m <= 12
  {
    var common :=
      if m == 1 then 0 else if m == 2 then 31 else if m == 3 then 59
      else if m == 4 then 90 else if m == 5 then 120 else if m == 6 then 151
      else if m == 7 then 181 else if m == 8 then 212 else if m == 9 then 243
      else if m == 10 then 273 else if m == 11 then 304 else 334;
    common + (if m > 2 && IsLeapYear(y) then 1 else 0)
  }

  /** The day number of a date; 0001-01-01 is day 1. */
  function Ordinal(d: Date): (n: int)
    requires ValidDate(d)
    ensures n >= 1
  {
    DaysBeforeYear(d.year) + DaysBeforeMonth(d.year, d.month) + d.day
  }

  /** Monday is 0, ..., Saturday is 5, Sunday is 6. */
  function Weekday(d: Date): (w: int)
    requires ValidDate(d)
    ensures 0 <= w < 7
  {
    (Ordinal(d) + 6) % 7
  }

  predicate IsWeekend(d: Date)
    requires ValidDate(d)
  {
    Weekday(d) >= 5
  }

  /** Chronological comparison of dates, field by field. */
  predicate DateLess(a: Date, b: Date) {
    a.year < b.year
    || (a.year == b.year && a.month < b.month)
    || (a.year == b.year && a.month == b.month && a.day < b.day)
  }

  predicate DateLessEq(a: Date, b: Date) {
    a == b || DateLess(a, b)
  }

  lemma DaysBeforeYearStep(y: int)
    requires 1 <= y
    ensures DaysBeforeYear(y + 1) == DaysBeforeYear(y) + DaysInYear(y)
  {
    var p := y - 1;
    assert y / 4 == p / 4 + (if y % 4 == 0 then 1 else 0);
    assert y / 100 == p / 100 + (if y % 100 == 0 then 1 else 0);
    assert y / 400 == p / 400 + (if y % 400 == 0 then 1 else 0);
  }

  lemma {:induction false} DaysBeforeYearMonotone(y: int, z: int)
    requires 1 <= y <= z
    ensures DaysBeforeYear(y) + (z - y) * 365 <= DaysBeforeYear(z)
    decreases z - y
  {
    if y < z {
      DaysBeforeYearStep(y);
      DaysBeforeYearMonotone(y + 1, z);
    }
  }

  lemma DaysBeforeMonthStep(y: int, m: int)
    requires 1 <= m < 12
    ensures DaysBeforeMonth(y, m + 1) == DaysBeforeMonth(y, m) + DaysInMonth(y, m)
  {
  }

  lemma MonthFitsInYear(y: int, m: int)
    requires 1 <= m <= 12
    ensures DaysBeforeMonth(y, m) + DaysInMonth(y, m) <= DaysInYear(y)
  {
  }

  lemma {:induction false} DaysBeforeMonthMonotone(y: int, m: int, n: int)
    requires 1 <= m < n <= 12
    ensures DaysBeforeMonth(y, m) + DaysInMonth(y, m) <= DaysBeforeMonth(y, n)
    decreases n - m
  {
    DaysBeforeMonthStep(y, m);
    if m + 1 < n {
      DaysBeforeMonthMonotone(y, m + 1, n);
    }
  }

  /** The day after `d`, stepping over month and year ends. */
  function NextDay(d: Date): (r: Date)
    requires ValidDate(d)
    ensures ValidDate(r) && Ordinal(r) == Ordinal(d) + 1
  {
    if d.day < DaysInMonth(d.year, d.month) then
      Date(d.year, d.month, d.day + 1)
    else if d.month < 12 then
      DaysBeforeMonthStep(d.year, d.month);
      Date(d.year, d.month + 1, 1)
    else
      DaysBeforeYearStep(d.year);
      Date(d.year + 1, 1, 1)
  }

  /** The day before `d`; 0001-01-01 has none. */
  function PrevDay(d: Date): (r: Date)
    requires ValidDate(d) && Ordinal(d) > 1
    ensures ValidDate(r) && Ordinal(r) == Ordinal(d) - 1
  {
    if d.day > 1 then
      Date(d.year, d.month, d.day - 1)
    else if d.month > 1 then
      DaysBeforeMonthStep(d.year, d.month - 1);
      Date(d.year, d.month - 1, DaysInMonth(d.year, d.month - 1))
    else
      assert d.year > 1;
      DaysBeforeYearStep(d.year - 1);
      Date(d.year - 1, 12, 31)
  }

  /** `d` plus `k` days: `d + timedelta(days=k)` for k >= 0. */
  function AddDays(d: Date, k: nat): (r: Date)
    requires ValidDate(d)
    ensures ValidDate(r) && Ordinal(r) == Ordinal(d) + k
    decreases k
  {
    if k == 0 then d else AddDays(NextDay(d), k - 1)
  }

  /**
   * The Monday that starts the Monday-to-Sunday week holding `d`, which is
   * the start of the week period `d` falls in.
   */
  function WeekStart(d: Date): (w: Date)
    requires ValidDate(d)
    ensures ValidDate(w) && Weekday(w) == 0
    ensures Ordinal(w) == Ordinal(d) - Weekday(d)
    decreases Weekday(d)
  {
    if Weekday(d) == 0 then d
    else
      WeekdayOfPrevDay(d);
      WeekStart(PrevDay(d))
  }

  lemma WeekdayOfPrevDay(d: Date)
    requires ValidDate(d) && Weekday(d) != 0
    ensures Ordinal(d) > 1 && Weekday(PrevDay(d)) == Weekday(d) - 1
  {
    var o := Ordinal(d);
    assert Weekday(d) == (o + 6) % 7;
    assert o != 1;
    ModSevenStep(o);
    assert Ordinal(PrevDay(d)) + 6 == o + 5;
  }

  lemma ModSevenStep(n: int)
    requires (n + 6) % 7 != 0
    ensures (n + 5) % 7 == (n + 6) % 7 - 1
  {
  }

  /** 0001-01-01 is day 1. */
  lemma FirstDayNumber()
    ensures Ordinal(Date(1, 1, 1)) == 1
  {
    assert DaysBeforeYear(1) == 0;
  }

  /** Day numbering and the weekday convention start together: day 1 is a Monday. */
  lemma FirstDayIsMonday()
    ensures Weekday(Date(1, 1, 1)) == 0
  {
    assert DaysBeforeYear(1) == 0;
  }

  /**
   * Python's `weekday()` convention on a known week: 1 January 2024 is a
   * Monday (0), the 5th a Friday (4), the 6th a Saturday (5) and the 7th a
   * Sunday (6); only the last two are weekend days.
   */
  lemma January2024Weekdays()
    ensures Weekday(Date(2024, 1, 1)) == 0
    ensures Weekday(Date(2024, 1, 5)) == 4 && !IsWeekend(Date(2024, 1, 5))
    ensures Weekday(Date(2024, 1, 6)) == 5 && IsWeekend(Date(2024, 1, 6))
    ensures Weekday(Date(2024, 1, 7)) == 6 && IsWeekend(Date(2024, 1, 7))
  {
    assert DaysBeforeYear(2024) == 738885;
  }

  /** Each day moves the weekday on by one, Sunday wrapping round to Monday. */
  lemma WeekdayOfNextDay(d: Date)
    requires ValidDate(d)
    ensures Weekday(NextDay(d)) == (Weekday(d) + 1) % 7
  {
    var o := Ordinal(d);
    assert Ordinal(NextDay(d)) == o + 1;
    ModSevenNext(o);
  }

  lemma ModSevenNext(n: int)
    ensures (n + 7) % 7 == ((n + 6) % 7 + 1) % 7
  {
  }

  /** `k` days later the weekday has moved on by `k`, modulo 7. */
  lemma WeekdayOfAddDays(d: Date, k: nat)
    requires ValidDate(d)
    ensures Weekday(AddDays(d, k)) == (Weekday(d) + k) % 7
  {
    var o := Ordinal(d);
    var e := AddDays(d, k);
    var o' := Ordinal(e);
    assert o' == o + k;
    ModSevenAdd(o, k);
    assert Weekday(e) == (o' + 6) % 7;
    assert Weekday(d) == (o + 6) % 7;
  }

  lemma ModSevenAdd(n: int, k: int)
    ensures (n + k + 6) % 7 == ((n + 6) % 7 + k) % 7
  {
  }

  /** The first day of the month holding `d`. */
  function MonthStart(d: Date): (m: Date)
    requires ValidDate(d)
    ensures ValidDate(m) && m.day == 1
    ensures m.year == d.year && m.month == d.month
    ensures DateLessEq(m, d)
  {
    Date(d.year, d.month, 1)
  }

  /** Field-by-field order agrees with day-number order on real dates. */
  lemma {:induction false} OrdinalOrder(a: Date, b: Date)
    requires ValidDate(a) && ValidDate(b)
    ensures DateLess(a, b) <==> Ordinal(a) < Ordinal(b)
    ensures a == b <==> Ordinal(a) == Ordinal(b)
  {
    if DateLess(a, b) {
      OrdinalBefore(a, b);
    } else if DateLess(b, a) {
      OrdinalBefore(b, a);
    } else {
      assert a == b;
    }
  }

  lemma OrdinalBefore(a: Date, b: Date)
    requires ValidDate(a) && ValidDate(b) && DateLess(a, b)
    ensures Ordinal(a) < Ordinal(b)
  {
    if a.year < b.year {
      MonthFitsInYear(a.year, a.month);
      DaysBeforeYearStep(a.year);
      DaysBeforeYearMonotone(a.year + 1, b.year);
    } else if a.month < b.month {
      DaysBeforeMonthMonotone(a.year, a.month, b.month);
    }
  }

  /** DateLess is a strict total order on all triples. */
  lemma DateLessIsStrictTotal(a: Date, b: Date, c: Date)
    ensures !DateLess(a, a)
    ensures DateLess(a, b) && DateLess(b, c) ==> DateLess(a, c)
    ensures a != b ==> DateLess(a, b) || DateLess(b, a)
  {
  }

}
