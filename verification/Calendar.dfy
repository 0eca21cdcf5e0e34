/** The proleptic Gregorian calendar in UTC: days counted from 0001-01-01, seconds from its midnight. */
module Calendar {

  predicate IsLeap(year: int) {
    year % 4 == 0 && (year % 100 != 0 || year % 400 == 0)
  }

  function DaysInMonth(year: int, month: int): int {
    if month == 2 then (if IsLeap(year) then 29 else 28)
    else if month in {4, 6, 9, 11} then 30
    else 31
  }

  datatype Date = Date(year: int, month: int, day: int) {
    predicate Valid() {
      1 <= year && 1 <= month <= 12 && 1 <= day <= DaysInMonth(year, month)
    }
  }

  const FIRST := Date(1, 1, 1)

  /** The first of January 1970. */
  const EPOCH_DAY: nat := 719162

  function NextDay(d: Date): (r: Date)
    requires d.Valid()
    ensures r.Valid()
  {
    if d.day < DaysInMonth(d.year, d.month) then d.(day := d.day + 1)
    else if d.month < 12 then Date(d.year, d.month + 1, 1)
    else Date(d.year + 1, 1, 1)
  }

  function PreviousDay(d: Date): (r: Date)
    requires d.Valid() && d != FIRST
    ensures r.Valid()
  {
    if d.day > 1 then d.(day := d.day - 1)
    else if d.month > 1 then Date(d.year, d.month - 1, DaysInMonth(d.year, d.month - 1))
    else Date(d.year - 1, 12, 31)
  }

  lemma {:induction false} NextUndoesPrevious(d: Date)
    requires d.Valid() && d != FIRST
    ensures NextDay(PreviousDay(d)) == d
  {
  }

  /** The date `n` days after 0001-01-01. */
  function DateOf(n: nat): (d: Date)
    ensures d.Valid()
  {
    if n == 0 then FIRST else NextDay(DateOf(n - 1))
  }

  lemma {:induction false} Tomorrow(n: nat)
    ensures DateOf(n + 1) == NextDay(DateOf(n))
  {
    hide NextDay;
  }

  // ---- the number of a day ----

  function DaysBeforeYear(year: int): int {
    var y := year - 1;
    365 * y + y / 4 - y / 100 + y / 400
  }

  function DaysBeforeMonth(year: int, month: int): int
    requires 1 <= month <= 12
  {
    if month == 1 then 0 else DaysBeforeMonth(year, month - 1) + DaysInMonth(year, month - 1)
  }

  function DayNumber(d: Date): int
    requires d.Valid()
  {
    DaysBeforeYear(d.year) + DaysBeforeMonth(d.year, d.month) + d.day - 1
  }

  /** A year is as long as its months together. */
  lemma {:induction false} YearLength(year: int)
    ensures DaysBeforeMonth(year, 12) + 31 == if IsLeap(year) then 366 else 365
    ensures DaysBeforeYear(year + 1) == DaysBeforeYear(year) + if IsLeap(year) then 366 else 365
  {
    assert DaysInMonth(year, 3) == 31 && DaysBeforeMonth(year, 3) == DaysBeforeMonth(year, 2) + DaysInMonth(year, 2);
    assert DaysBeforeMonth(year, 3) == 31 + DaysInMonth(year, 2);
    assert DaysBeforeMonth(year, 4) == DaysBeforeMonth(year, 3) + 31;
    assert DaysBeforeMonth(year, 5) == DaysBeforeMonth(year, 4) + 30;
    assert DaysBeforeMonth(year, 6) == DaysBeforeMonth(year, 5) + 31;
    assert DaysBeforeMonth(year, 7) == DaysBeforeMonth(year, 6) + 30;
    assert DaysBeforeMonth(year, 8) == DaysBeforeMonth(year, 7) + 31;
    assert DaysBeforeMonth(year, 9) == DaysBeforeMonth(year, 8) + 31;
    assert DaysBeforeMonth(year, 10) == DaysBeforeMonth(year, 9) + 30;
    assert DaysBeforeMonth(year, 11) == DaysBeforeMonth(year, 10) + 31;
    assert DaysBeforeMonth(year, 12) == DaysBeforeMonth(year, 11) + 30;
    LeapDays(year);
  }

  lemma {:induction false} LeapDays(y: int)
    ensures y / 4 - (y - 1) / 4 == if y % 4 == 0 then 1 else 0
    ensures y / 100 - (y - 1) / 100 == if y % 100 == 0 then 1 else 0
    ensures y / 400 - (y - 1) / 400 == if y % 400 == 0 then 1 else 0
    ensures y % 400 == 0 ==> y % 100 == 0
    ensures y % 100 == 0 ==> y % 4 == 0
  {
  }

  lemma {:induction false} NextDayNumber(d: Date)
    requires d.Valid()
    ensures DayNumber(NextDay(d)) == DayNumber(d) + 1
  {
    hide IsLeap;
    if d.day == DaysInMonth(d.year, d.month) && d.month == 12 {
      YearLength(d.year);
    }
  }

  lemma {:induction false} NumberOfDate(n: nat)
    ensures DayNumber(DateOf(n)) == n
  {
    hide NextDay;
    if n > 0 {
      NumberOfDate(n - 1);
      NextDayNumber(DateOf(n - 1));
    }
  }

  lemma {:induction false} MonthsAreNonNegative(year: int, month: int)
    requires 1 <= month <= 12
    ensures 0 <= DaysBeforeMonth(year, month)
    ensures DaysBeforeMonth(year, month) + DaysInMonth(year, month) <= DaysBeforeMonth(year, 12) + 31
    decreases 12 - month
  {
    if month > 1 { MonthsFromJanuary(year, month); }
    if month < 12 { MonthsAreNonNegative(year, month + 1); }
  }

  lemma {:induction false} MonthsFromJanuary(year: int, month: int)
    requires 1 <= month <= 12
    ensures 0 <= DaysBeforeMonth(year, month)
  {
    if month > 1 { MonthsFromJanuary(year, month - 1); }
  }

  lemma {:induction false} YearsAreNonNegative(year: int)
    requires 1 <= year
    ensures 0 <= DaysBeforeYear(year)
  {
  }

  /** A date lies in its year. */
  lemma {:induction false} WithinYear(d: Date)
    requires d.Valid()
    ensures 0 <= DaysBeforeYear(d.year) <= DayNumber(d) < DaysBeforeYear(d.year + 1)
  {
    hide IsLeap;
    YearsAreNonNegative(d.year);
    MonthsAreNonNegative(d.year, d.month);
    YearLength(d.year);
  }

  /** Counting days and reading dates are inverse. */
  lemma {:induction false} DateOfNumber(d: Date)
    requires d.Valid()
    ensures 0 <= DayNumber(d) && DateOf(DayNumber(d)) == d
    decreases d.year, d.month, d.day
  {
    hide DayNumber, NextDay, PreviousDay;
    WithinYear(d);
    if d == FIRST {
      assert DayNumber(FIRST) == 0 by { FirstIsZero(); }
    } else {
      var e := PreviousDay(d);
      NextUndoesPrevious(d);
      NextDayNumber(e);
      Earlier(d);
      DateOfNumber(e);
    }
  }

  lemma {:induction false} FirstIsZero()
    ensures DayNumber(FIRST) == 0
  {
  }

  lemma {:induction false} Earlier(d: Date)
    requires d.Valid() && d != FIRST
    ensures var e := PreviousDay(d);
            e.year < d.year || (e.year == d.year && (e.month < d.month || (e.month == d.month && e.day < d.day)))
    ensures PreviousDay(d).year >= 1 && PreviousDay(d).month >= 1
  {
  }

  // ---- what recurs ----

  /** Any eight years in a row hold a leap year: leap years are at most eight years apart. */
  function LeapYearAfter(year: int): (r: int)
    ensures year < r <= year + 8 && IsLeap(r)
  {
    var next := (year / 4 + 1) * 4;
    if IsLeap(next) then next else next + 4
  }

  /** Nine years in a row have at most 3288 days. */
  lemma {:induction false} NineYears(year: int)
    ensures DaysBeforeYear(year + 9) - DaysBeforeYear(year) <= 3288
  {
    hide DaysBeforeYear, IsLeap;
    FourYears(year);
    FourYears(year + 4);
    OneYear(year + 8);
    var r := year % 4;
    assert (year + 4) % 4 == r && (year + 8) % 4 == r;
  }

  lemma {:induction false} OneYear(year: int)
    ensures DaysBeforeYear(year + 1) - DaysBeforeYear(year) <= 366
    ensures year % 4 != 0 ==> DaysBeforeYear(year + 1) - DaysBeforeYear(year) == 365
  {
    hide DaysBeforeYear;
    YearLength(year);
  }

  lemma {:induction false} FourYears(year: int)
    ensures DaysBeforeYear(year + 4) - DaysBeforeYear(year) <= 1461
  {
    hide DaysBeforeYear;
    OneYear(year);
    OneYear(year + 1);
    OneYear(year + 2);
    OneYear(year + 3);
  }

  /** Every month and day that exists in some year comes again within 3287 days of any day. */
  lemma {:induction false} DayRecurs(n: nat, d: Date) returns (later: nat)
    requires d.Valid()
    ensures n < later <= n + 3287
    ensures DateOf(later).month == d.month && DateOf(later).day == d.day
  {
    hide DateOf, DayNumber, IsLeap;
    var today := DateOf(n);
    NumberOfDate(n);
    WithinYear(today);
    var year := LeapYearAfter(today.year);
    var target := Date(year, d.month, d.day);
    LeapMonths(d.year, year, d.month);
    WithinYear(target);
    DateOfNumber(target);
    YearsInOrder(today.year + 1, year);
    YearsInOrder(year + 1, today.year + 9);
    NineYears(today.year);
    later := DayNumber(target);
  }

  lemma {:induction false} LeapMonths(year: int, leap: int, month: int)
    requires IsLeap(leap)
    ensures DaysInMonth(year, month) <= DaysInMonth(leap, month)
  {
  }

  lemma {:induction false} YearsInOrder(a: int, b: int)
    requires a <= b
    ensures DaysBeforeYear(a) <= DaysBeforeYear(b)
    decreases b - a
  {
    if a < b {
      YearLength(a);
      YearsInOrder(a + 1, b);
    }
  }

  // ---- weekdays ----

  /** 0 is Sunday; 0001-01-01 was a Monday. */
  function Weekday(n: nat): nat {
    (n + 1) % 7
  }

  /** Every weekday comes again, in any given month, within 3293 days of any day. */
  lemma {:induction false} WeekdayRecurs(n: nat, month: int, weekday: nat) returns (later: nat)
    requires 1 <= month <= 12 && weekday < 7
    ensures n < later <= n + 3293
    ensures DateOf(later).month == month && Weekday(later) == weekday
  {
    hide DateOf;
    assert Date(1, month, 1).Valid();
    var first := DayRecurs(n, Date(1, month, 1));
    later := first + (weekday + 7 - Weekday(first)) % 7;
    SameMonth(first, later - first);
  }

  lemma {:induction false} SameMonth(first: nat, k: nat)
    requires DateOf(first).day == 1 && k < 28
    ensures DateOf(first + k) == DateOf(first).(day := 1 + k)
  {
    if k > 0 {
      SameMonth(first, k - 1);
    }
  }

  /** The days are anchored: 1970 began on a Thursday, 719162 days after the first day, and days of the week follow
      each other. */
  lemma {:induction false} EpochIsThursday(n: nat)
    ensures DateOf(EPOCH_DAY) == Date(1970, 1, 1) && Weekday(EPOCH_DAY) == 4
    ensures Weekday(n + 1) == if Weekday(n) == 6 then 0 else Weekday(n) + 1
  {
    hide DateOf;
    DateOfNumber(Date(1970, 1, 1));
  }
}
