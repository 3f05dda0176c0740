/** The proleptic Gregorian calendar: the reference the two converters of the
    repository are measured against. Day 0 is 1 January 1970. */
module Calendar {
  predicate Leap(y: int) {
    y % 4 == 0 && (y % 100 != 0 || y % 400 == 0)
  }

  function YearDays(y: int): int { if Leap(y) then 366 else 365 }

  function MonthDays(y: int, m: int): int
    requires 1 <= m <= 12
  {
    if m == 2 then (if Leap(y) then 29 else 28)
    else if m == 4 || m == 6 || m == 9 || m == 11 then 30
    else 31
  }

  /** Days of the year before the first of month `m`. */
  function MonthStart(y: int, m: int): int
    requires 1 <= m <= 13
    decreases m
  {
    if m == 1 then 0 else MonthStart(y, m - 1) + MonthDays(y, m - 1)
  }

  /** Leap years among 1..y. */
  function LeapsThrough(y: int): int { y / 4 - y / 100 + y / 400 }

  /** Day number of 1 January. */
  function DaysBefore(y: int): int {
    365 * (y - 1970) + LeapsThrough(y - 1) - 477
  }

  /** Day number of a date. */
  function DayNumber(y: int, m: int, d: int): int
    requires 1 <= m <= 12
  {
    DaysBefore(y) + MonthStart(y, m) + d - 1
  }

  ghost predicate IsDate(y: int, m: int, d: int) {
    1 <= m <= 12 && 1 <= d <= MonthDays(y, m)
  }

  lemma DaysBeforeNext(y: int)
    ensures DaysBefore(y + 1) == DaysBefore(y) + YearDays(y)
  {
    LeapsStep(y);
  }

  lemma LeapsStep(y: int)
    ensures LeapsThrough(y) == LeapsThrough(y - 1) + if Leap(y) then 1 else 0
  {
    QuotientStep(y, 4);
    QuotientStep(y, 100);
    QuotientStep(y, 400);
    if y % 400 == 0 {
      MultipleOf(y, 100, 4 * (y / 400));
    }
    if y % 100 == 0 {
      MultipleOf(y, 4, 25 * (y / 100));
    }
  }

  lemma MultipleOf(y: int, k: int, q: int)
    requires (k == 4 || k == 100) && y == k * q
    ensures y % k == 0
  {
  }

  lemma QuotientStep(y: int, k: int)
    requires k == 4 || k == 100 || k == 400
    ensures y / k == (y - 1) / k + if y % k == 0 then 1 else 0
  {
  }

  /** The month starts, worked out. */
  lemma MonthStarts(y: int)
    ensures var l := if Leap(y) then 1 else 0;
      && MonthStart(y, 1) == 0 && MonthStart(y, 2) == 31 && MonthStart(y, 3) == 59 + l
      && MonthStart(y, 4) == 90 + l && MonthStart(y, 5) == 120 + l && MonthStart(y, 6) == 151 + l
      && MonthStart(y, 7) == 181 + l && MonthStart(y, 8) == 212 + l && MonthStart(y, 9) == 243 + l
      && MonthStart(y, 10) == 273 + l && MonthStart(y, 11) == 304 + l && MonthStart(y, 12) == 334 + l
      && MonthStart(y, 13) == 365 + l
  {
  }

  /** A date falls inside its own year. */
  lemma DateInYear(y: int, m: int, d: int)
    requires IsDate(y, m, d)
    ensures 0 <= MonthStart(y, m) + d - 1 < YearDays(y)
    ensures DaysBefore(y) <= DayNumber(y, m, d) < DaysBefore(y + 1)
  {
    MonthStarts(y);
    DaysBeforeNext(y);
  }

  lemma {:induction false} YearsAreOrdered(a: int, b: int)
    requires a < b
    ensures DaysBefore(a + 1) <= DaysBefore(b)
    decreases b - a
  {
  }

  lemma DatesInYearAreUnique(y: int, m1: int, d1: int, m2: int, d2: int)
    requires IsDate(y, m1, d1) && IsDate(y, m2, d2)
    requires MonthStart(y, m1) + d1 == MonthStart(y, m2) + d2
    ensures m1 == m2 && d1 == d2
  {
    if m1 < m2 {
      MonthsAreOrdered(y, m1, m2);
    } else if m2 < m1 {
      MonthsAreOrdered(y, m2, m1);
    }
  }

  lemma {:induction false} MonthsAreOrdered(y: int, a: int, b: int)
    requires 1 <= a < b <= 13
    ensures MonthStart(y, a) + MonthDays(y, a) <= MonthStart(y, b)
    decreases b
  {
    if a + 1 < b {
      MonthsAreOrdered(y, a, b - 1);
    }
  }

  /** A day number has one date. */
  lemma DatesAreUnique(y1: int, m1: int, d1: int, y2: int, m2: int, d2: int)
    requires IsDate(y1, m1, d1) && IsDate(y2, m2, d2)
    requires DayNumber(y1, m1, d1) == DayNumber(y2, m2, d2)
    ensures y1 == y2 && m1 == m2 && d1 == d2
  {
    DateInYear(y1, m1, d1);
    DateInYear(y2, m2, d2);
    if y1 < y2 {
      YearsAreOrdered(y1, y2);
    } else if y2 < y1 {
      YearsAreOrdered(y2, y1);
    } else {
      DatesInYearAreUnique(y1, m1, d1, m2, d2);
    }
  }
}
