/** `telemetry_unix_ms_to_utc` (rtos-example-code/threadx_telemetry.c): nested
    year and month loops over the full 64-bit millisecond range. */
module UtcLoop {
  import opened Prelude
  import opened Calendar

  type i32 = n: int | -0x8000_0000 <= n < 0x8000_0000

  datatype Utc = Utc(year: i32, month: u8, day: u8, hour: u8, minute: u8, second: u8, millisecond: u16)

  const DAYS_BEFORE_MONTH: seq<u16> := [0, 31, 59, 90, 120, 151, 181, 212, 243, 273, 304, 334]

  const LAST_DAY: int := 213503982334   // (2^64 - 1) / 86400000

  function MonthBegin(leap: bool, m: int): int
    requires 1 <= m <= 12
  {
    DAYS_BEFORE_MONTH[m - 1] + if leap && m > 2 then 1 else 0
  }

  /** The bound the month loop tests; February never gets its leap day. */
  function MonthEnd(leap: bool, m: int): int
    requires 1 <= m <= 12
  {
    (if m < 12 then DAYS_BEFORE_MONTH[m] as int else if leap then 366 else 365) + if leap && m > 2 then 1 else 0
  }

  /** The year and day of year the outer loop stops at. */
  function YearOf(days: nat, y: int): (r: (int, nat))
    ensures r.0 >= y && r.1 < YearDays(r.0)
    ensures DaysBefore(r.0) + r.1 == DaysBefore(y) + days
    ensures 365 * (r.0 - y) <= days
    decreases days
  {
    if days < YearDays(y) then (y, days)
    else
      DaysBeforeNext(y);
      YearOf(days - YearDays(y), y + 1)
  }

  /** The month the inner loop stops at, starting from `m`. */
  function MonthOf(leap: bool, doy: nat, m: int): (r: int)
    requires 1 <= m <= 12 && doy < (if leap then 366 else 365)
    ensures m <= r <= 12 && doy < MonthEnd(leap, r)
    ensures forall k :: m <= k < r ==> MonthEnd(leap, k) <= doy
    decreases 12 - m
  {
    if doy < MonthEnd(leap, m) || m == 12 then m else MonthOf(leap, doy, m + 1)
  }

  /** `(uint8_t)(day_of_year - month_start + 1U)` in 32-bit unsigned arithmetic. */
  function DayCast(doy: nat, begin: int): u8 {
    ((doy - begin + 1) % 0x1_0000_0000) % 0x100
  }

  function DateOf(days: nat): (r: (int, int, u8))
    ensures 1 <= r.1 <= 12
  {
    var (y, doy) := YearOf(days, 1970);
    var m := MonthOf(Leap(y), doy, 1);
    (y, m, DayCast(doy, MonthBegin(Leap(y), m)))
  }

  lemma YearFitsI32(days: nat)
    requires days <= LAST_DAY
    ensures 1970 <= YearOf(days, 1970).0 < 0x8000_0000
  {
  }

  function ToUtc(unixMs: u64): Utc {
    var secs := unixMs / 1000;
    var sod := secs % 86400;
    YearFitsI32(secs / 86400);
    var (y, m, d) := DateOf(secs / 86400);
    Utc(y, m, d, sod / 3600, (sod % 3600) / 60, sod % 60, unixMs % 1000)
  }

  /** The C function. `present` says that none of the seven output pointers is null. */
  method UnixMsToUtc(unixMs: u64, present: bool) returns (r: Option<Utc>)
    ensures r == if present then Some(ToUtc(unixMs)) else None
  {
    hide YearOf, MonthOf, DaysBefore;
    var wholeSeconds := unixMs / 1000;
    var daysSinceEpoch := wholeSeconds / 86400;
    var secondsOfDay: u32 := wholeSeconds % 86400;
    var y: i32 := 1970;
    var days: nat := daysSinceEpoch;
    if !present {
      return None;
    }
    while true
      invariant YearOf(days, y) == YearOf(daysSinceEpoch, 1970)
      invariant 1970 <= y && 365 * (y - 1970) + days <= daysSinceEpoch
      decreases days
    {
      var leap := y % 4 == 0 && (y % 100 != 0 || y % 400 == 0);
      var daysInYear := if leap then 366 else 365;
      YearLoop(days, y);
      if days < daysInYear {
        var m: int := 1;
        while m <= 12
          invariant 1 <= m <= 12
          invariant MonthOf(leap, days, m) == MonthOf(leap, days, 1)
          decreases 12 - m
        {
          var monthStart := MonthBegin(leap, m);
          var monthEnd := MonthEnd(leap, m);
          MonthLoop(leap, days, m);
          if days < monthEnd {
            return Some(Utc(y, m, DayCast(days, monthStart), secondsOfDay / 3600, (secondsOfDay % 3600) / 60,
                            secondsOfDay % 60, unixMs % 1000));
          }
          m := m + 1;
        }
        return None;
      }
      days := days - daysInYear;
      y := y + 1;
    }
  }

  lemma YearLoop(days: nat, y: int)
    ensures YearOf(days, y) == if days < YearDays(y) then (y, days) else YearOf(days - YearDays(y), y + 1)
  {
  }

  lemma MonthLoop(leap: bool, doy: nat, m: int)
    requires 1 <= m <= 12 && doy < (if leap then 366 else 365)
    ensures doy < MonthEnd(leap, m) ==> MonthOf(leap, doy, m) == m
    ensures doy >= MonthEnd(leap, m) ==> m < 12 && MonthOf(leap, doy, m) == MonthOf(leap, doy, m + 1)
  {
  }

  // ---- what the loops compute ----

  /** The millisecond falls on a 29 February. */
  ghost predicate OnLeapDay(unixMs: u64) {
    exists y :: Leap(y) && unixMs / 86400000 == DayNumber(y, 2, 29)
  }

  lemma MonthTables(y: int, m: int)
    requires 1 <= m <= 12
    ensures MonthBegin(Leap(y), m) == MonthStart(y, m)
    ensures MonthEnd(Leap(y), m) == MonthStart(y, m + 1) - (if Leap(y) && m == 2 then 1 else 0)
                                    + (if Leap(y) && m == 12 then 1 else 0)
  {
    MonthStarts(y);
  }

  /** The date the loops find: the Gregorian one, except that 29 February comes
      out as day 0 of March. In both cases the day number is preserved. */
  lemma DateIsRight(days: nat)
    ensures var (y, m, d) := DateOf(days); var doy := YearOf(days, 1970).1;
      && y >= 1970
      && DayNumber(y, m, d) == days
      && (if Leap(y) && doy == 59 then m == 3 && d == 0 else IsDate(y, m, d))
  {
    hide YearOf, MonthOf, DaysBefore, MonthStart, LeapsThrough, Leap, DayCast, MonthBegin, MonthDays;
    var (y, doy) := YearOf(days, 1970);
    assert DaysBefore(1970) == 0 by {
      Epoch();
    }
    MonthIsRight(y, doy);
  }

  /** Within a year: the month found contains the day, 29 February aside. */
  lemma MonthIsRight(y: int, doy: nat)
    requires doy < YearDays(y)
    ensures var m := MonthOf(Leap(y), doy, 1); var d := DayCast(doy, MonthBegin(Leap(y), m));
      && MonthStart(y, m) + d - 1 == doy
      && if Leap(y) && doy == 59 then m == 3 && d == 0 else 1 <= d <= MonthDays(y, m)
  {
    hide MonthOf, MonthStart, Leap, DayCast;
    var m := MonthOf(Leap(y), doy, 1);
    MonthTables(y, m);
    MonthStarts(y);
    if m > 1 {
      MonthTables(y, m - 1);
    }
    MonthLengths(y, m);
    DayCastFits(doy, MonthBegin(Leap(y), m));
  }

  lemma DayCastFits(doy: nat, begin: int)
    ensures 0 <= doy - begin + 1 < 0x100 ==> DayCast(doy, begin) == doy - begin + 1
  {
  }

  lemma Epoch()
    ensures DaysBefore(1970) == 0
  {
  }

  lemma MonthLengths(y: int, m: int)
    requires 1 <= m <= 12
    ensures MonthStart(y, m + 1) == MonthStart(y, m) + MonthDays(y, m)
  {
  }

  /** The instant a tuple stands for, day 0 of March included. */
  function Instant(u: Utc): int
    requires 1 <= u.month <= 12
  {
    DayNumber(u.year, u.month, u.day) * 86400000
    + u.hour * 3600000 + u.minute * 60000 + u.second * 1000 + u.millisecond
  }

  lemma TimeOfDay(unixMs: u64)
    ensures var u := ToUtc(unixMs);
      && u.hour < 24 && u.minute < 60 && u.second < 60 && u.millisecond < 1000
      && u.hour * 3600000 + u.minute * 60000 + u.second * 1000 + u.millisecond
      == unixMs - (unixMs / 1000 / 86400) * 86400000
  {
    hide DateOf;
    var secs := unixMs / 1000;
    var sod := secs % 86400;
    SecondsSplit(sod);
    assert unixMs == secs * 1000 + unixMs % 1000;
    assert secs == (secs / 86400) * 86400 + sod;
  }

  lemma SecondsSplit(sod: nat)
    requires sod < 86400
    ensures sod / 3600 < 24 && (sod % 3600) / 60 < 60
    ensures (sod / 3600) * 3600 + ((sod % 3600) / 60) * 60 + sod % 60 == sod
  {
  }

  /** Nothing is lost: for every 64-bit input the seven fields recombine to it. */
  lemma UtcRecombines(unixMs: u64)
    ensures 1 <= ToUtc(unixMs).month <= 12
    ensures Instant(ToUtc(unixMs)) == unixMs
  {
    hide DateOf, DayNumber;
    TimeOfDay(unixMs);
    DateIsRight(unixMs / 1000 / 86400);
  }

  lemma DayOf(unixMs: u64)
    ensures unixMs / 86400000 == unixMs / 1000 / 86400
  {
  }

  lemma LeapDayOfYear(days: nat)
    ensures var (y, doy) := YearOf(days, 1970);
      (Leap(y) && doy == 59) <==> exists z :: Leap(z) && days == DayNumber(z, 2, 29)
  {
    hide YearOf, DaysBefore, MonthStart;
    var (y, doy) := YearOf(days, 1970);
    Epoch();
    MonthStarts(y);
    DaysBeforeNext(y);
    if Leap(y) && doy == 59 {
      assert days == DayNumber(y, 2, 29);
    }
    forall z | Leap(z) && days == DayNumber(z, 2, 29) ensures Leap(y) && doy == 59 {
      MonthStarts(z);
      DaysBeforeNext(z);
      if y < z {
        YearsAreOrdered(y, z);
      } else if z < y {
        YearsAreOrdered(z, y);
      }
    }
  }

  /** Exactly when the stored date is a Gregorian date at all: on every day but
      a 29 February, which is stored as day 0 of month 3. */
  lemma DateIsGregorianIffNotLeapDay(unixMs: u64)
    ensures var u := ToUtc(unixMs);
      && (IsDate(u.year, u.month, u.day) <==> !OnLeapDay(unixMs))
      && (OnLeapDay(unixMs) ==> Leap(u.year) && u.month == 3 && u.day == 0)
  {
    var days := unixMs / 1000 / 86400;
    DayOf(unixMs);
    DateIsRight(days);
    LeapDayOfYear(days);
    hide YearOf, DateOf, DayNumber;
  }

  /** An input that fails: midnight of 29 February 2000. */
  lemma LeapDay2000()
    ensures var u := ToUtc(951782400000); u.month == 3 && u.day == 0 && !IsDate(u.year, u.month, u.day)
  {
    hide ToUtc, IsDate;
    assert DayNumber(2000, 2, 29) == 11016 && Leap(2000);
    assert OnLeapDay(951782400000);
    DateIsGregorianIffNotLeapDay(951782400000);
  }

  // ---- order ----

  ghost predicate DateBefore(a: (int, int, int), b: (int, int, int)) {
    a.0 < b.0 || (a.0 == b.0 && (a.1 < b.1 || (a.1 == b.1 && a.2 < b.2)))
  }

  ghost predicate TimeBefore(a: Utc, b: Utc) {
    a.hour < b.hour || (a.hour == b.hour && (a.minute < b.minute || (a.minute == b.minute &&
      (a.second < b.second || (a.second == b.second && a.millisecond < b.millisecond)))))
  }

  /** Lexicographic order of the seven fields. */
  ghost predicate Before(a: Utc, b: Utc) {
    || DateBefore((a.year, a.month, a.day), (b.year, b.month, b.day))
    || ((a.year, a.month, a.day) == (b.year, b.month, b.day) && TimeBefore(a, b))
  }

  lemma LaterDayLaterDate(a: nat, b: nat)
    requires a < b
    ensures var (y1, m1, d1) := DateOf(a); var (y2, m2, d2) := DateOf(b);
      DateBefore((y1, m1, d1 as int), (y2, m2, d2 as int))
  {
    hide YearOf, MonthOf, DaysBefore, MonthStart;
    var (y1, doy1) := YearOf(a, 1970);
    var (y2, doy2) := YearOf(b, 1970);
    DaysBeforeNext(y1);
    DaysBeforeNext(y2);
    if y2 < y1 {
      YearsAreOrdered(y2, y1);
    }
    if y1 == y2 {
      DateIsRight(a);
      DateIsRight(b);
      LaterMonth(Leap(y1), doy1, doy2);
    }
  }

  lemma LaterMonth(leap: bool, a: nat, b: nat)
    requires a < b < (if leap then 366 else 365)
    ensures MonthOf(leap, a, 1) <= MonthOf(leap, b, 1)
  {
    hide MonthOf;
  }

  /** Order is kept: over all 64-bit inputs the tuple is strictly increasing
      lexicographically, across 29 February too. */
  lemma UtcIsStrictlyIncreasing(a: u64, b: u64)
    requires a < b
    ensures Before(ToUtc(a), ToUtc(b))
  {
    var days1, days2 := a / 1000 / 86400, b / 1000 / 86400;
    TimeOfDay(a);
    TimeOfDay(b);
    DayOf(a);
    DayOf(b);
    if days1 < days2 {
      LaterDayLaterDate(days1, days2);
    } else {
      hide DateOf;
      assert days1 == days2;
      LaterTime(ToUtc(a), ToUtc(b));
    }
  }

  lemma LaterTime(a: Utc, b: Utc)
    requires a.minute < 60 && a.second < 60 && a.millisecond < 1000
    requires b.minute < 60 && b.second < 60 && b.millisecond < 1000
    requires a.hour * 3600000 + a.minute * 60000 + a.second * 1000 + a.millisecond
           < b.hour * 3600000 + b.minute * 60000 + b.second * 1000 + b.millisecond
    ensures TimeBefore(a, b)
  {
  }
}
