/** The closed-form calendar of src/timesync.rs: era arithmetic instead of
    loops. It is proved to compute the Gregorian calendar, and then set against
    the loop converter of the ThreadX example that feeds it. */
module NetworkTime {
  import opened Prelude
  import opened Calendar
  import opened UtcLoop

  /** Days of a 400-year era before its March-based year `yoe`. */
  function EraYearStart(yoe: int): int { 365 * yoe + yoe / 4 - yoe / 100 }

  /** Days of a March-based year before its month `mp`. */
  function MarchMonthStart(mp: int): int { (153 * mp + 2) / 5 }

  function DaysFromCivil(year: int, month: int, day: int): int {
    var era0 := year / 400;
    var yoe0 := year % 400 - if month <= 2 then 1 else 0;
    var era := if yoe0 < 0 then era0 - 1 else era0;
    var yoe := if yoe0 < 0 then yoe0 + 400 else yoe0;
    var mp := month + if month > 2 then -3 else 9;
    var doy := MarchMonthStart(mp) + day - 1;
    var doe := EraYearStart(yoe) + doy;
    era * 146097 + doe - 719468
  }

  function YearOfEra(doe: nat): nat
    requires doe <= 146096
  {
    (doe - doe / 1460 + doe / 36524 - doe / 146096) / 365
  }

  /** Year, month and day of a day number; `None` when the year leaves `i32`. */
  function CivilFromDays(days: nat): Option<(int, int, int)> {
    var z := days + 719468;
    var era := z / 146097;
    var doe := z % 146097;
    var yoe := YearOfEra(doe);
    var doy := doe - EraYearStart(yoe);
    var mp := (5 * doy + 2) / 153;
    var d := doy - MarchMonthStart(mp) + 1;
    var m := if mp < 10 then mp + 3 else mp - 9;
    var y := yoe + era * 400 + if m <= 2 then 1 else 0;
    if y < 0x8000_0000 then Some((y, m, d)) else None
  }

  // ---- the era formula for the year ----

  /** The last March-based year of an era, and every fourth but not the
      hundredth, ends in a 29 February. */
  predicate LongYear(yoe: int) { (yoe + 1) % 4 == 0 && ((yoe + 1) % 100 != 0 || yoe == 399) }

  /** In the coordinates century, quadrennium, year: the quotients of the
      formula cancel to the year itself. */
  lemma YearFormula(c: nat, q: nat, t: nat, doy: nat)
    requires c <= 3 && q <= 24 && t <= 3
    requires doy <= 364 || (doy == 365 && t == 3 && (q < 24 || c == 3))
    ensures var doe := 36524 * c + 1461 * q + 365 * t + doy;
      doe <= 146096 && YearOfEra(doe) == 100 * c + 4 * q + t
  {
    hide YearOfEra;
    var doe := 36524 * c + 1461 * q + 365 * t + doy;
    var over := 24 * c + q + 365 * t + doy;
    assert doe == 1460 * (25 * c + q) + over;
    var e := if over >= 1460 then 1 else 0;
    Quotient(doe, 1460, 25 * c + q + e);
    var full := if c == 3 && q == 24 && t == 3 && doy == 365 then 1 else 0;
    Quotient(doe, 36524, c + full);
    Quotient(doe, 146096, full);
    var year := 100 * c + 4 * q + t;
    assert 365 * year + doy - e == doe - (25 * c + q + e) + (c + full) - full;
    Quotient(365 * year + doy - e, 365, year);
    YearFromQuotients(doe, 25 * c + q + e, c + full, full, year);
  }

  lemma YearFromQuotients(doe: nat, a: int, b: int, c: int, year: int)
    requires doe <= 146096 && doe / 1460 == a && doe / 36524 == b && doe / 146096 == c
    requires (doe - a + b - c) / 365 == year
    ensures YearOfEra(doe) == year
  {
  }

  lemma Coordinates(c: nat, q: nat, t: nat)
    requires c <= 3 && q <= 24 && t <= 3
    ensures var yoe := 100 * c + 4 * q + t;
      && EraYearStart(yoe) == 36524 * c + 1461 * q + 365 * t
      && (LongYear(yoe) <==> t == 3 && (q < 24 || c == 3))
  {
    var yoe := 100 * c + 4 * q + t;
    Quotient(yoe, 4, 25 * c + q);
    Quotient(yoe, 100, c);
    Quotient(yoe + 1, 4, if t == 3 then 25 * c + q + 1 else 25 * c + q);
    Quotient(yoe + 1, 100, if q == 24 && t == 3 then c + 1 else c);
  }

  /** Every day of an era lies in a March-based year, and the formula finds it. */
  lemma EraYearFound(doe: nat)
    requires doe <= 146096
    ensures var yoe := YearOfEra(doe); var doy := doe - EraYearStart(yoe);
      yoe <= 399 && 0 <= doy <= 365 && (doy == 365 ==> LongYear(yoe))
  {
    hide YearOfEra, EraYearStart, LongYear;
    var c := if doe == 146096 then 3 else doe / 36524;
    var r := doe - 36524 * c;
    var q := if r == 36524 then 24 else r / 1461;
    var s := r - 1461 * q;
    var t := if s >= 1095 then 3 else s / 365;
    assert c <= 3 && 0 <= r <= 36524 && (r == 36524 ==> c == 3);
    assert q <= 24 && 0 <= s <= 1460;
    assert q == 24 && c < 3 ==> s <= 1459;
    YearFormula(c, q, t, s - 365 * t);
    Coordinates(c, q, t);
  }

  // ---- the month formula ----

  lemma MarchMonths()
    ensures MarchMonthStart(0) == 0 && MarchMonthStart(1) == 31 && MarchMonthStart(2) == 61
    ensures MarchMonthStart(3) == 92 && MarchMonthStart(4) == 122 && MarchMonthStart(5) == 153
    ensures MarchMonthStart(6) == 184 && MarchMonthStart(7) == 214 && MarchMonthStart(8) == 245
    ensures MarchMonthStart(9) == 275 && MarchMonthStart(10) == 306 && MarchMonthStart(11) == 337
  {
  }

  lemma MarchMonthFound(doy: nat)
    requires doy <= 365
    ensures var mp := (5 * doy + 2) / 153;
      0 <= mp <= 11 && MarchMonthStart(mp) <= doy && (mp < 11 ==> doy < MarchMonthStart(mp + 1))
  {
  }

  /** March-based month starts against the civil ones, seen from 1 March. */
  lemma MarchStartsAgree(y: int, m: int)
    requires 1 <= m <= 12
    ensures m > 2 ==> MonthStart(y, m) == MonthStart(y, 3) + MarchMonthStart(m - 3)
    ensures m <= 2 ==> YearDays(y) + MonthStart(y + 1, m) == MonthStart(y, 3) + MarchMonthStart(m + 9)
  {
    MarchMonths();
    MonthStarts(y);
    MonthStarts(y + 1);
  }

  /** Day number of 1 March, in era coordinates. */
  lemma MarchFirst(era: int, yoe: int)
    requires 0 <= yoe <= 399
    ensures var y := 400 * era + yoe;
      DaysBefore(y) + MonthStart(y, 3) == era * 146097 + EraYearStart(yoe) - 719468
  {
    var y := 400 * era + yoe;
    MonthStarts(y);
    LeapsStep(y);
    Quotient(y, 4, 100 * era + yoe / 4);
    Quotient(y, 100, 4 * era + yoe / 100);
    Quotient(y, 400, era);
  }

  // ---- the closed forms compute the calendar ----

  /** `days_from_civil` is the Gregorian day number, for every year and month. */
  lemma DaysFromCivilIsDayNumber(year: int, month: int, day: int)
    requires 1 <= month <= 12
    ensures DaysFromCivil(year, month, day) == DayNumber(year, month, day)
  {
    hide DaysBefore, MonthStart, EraYearStart, MarchMonthStart;
    var era0, rem := year / 400, year % 400;
    if month > 2 {
      MarchFirst(era0, rem);
      MarchStartsAgree(year, month);
    } else {
      var era := if rem == 0 then era0 - 1 else era0;
      var yoe := if rem == 0 then 399 else rem - 1;
      assert 400 * era + yoe == year - 1;
      MarchFirst(era, yoe);
      MarchStartsAgree(year - 1, month);
      DaysBeforeNext(year - 1);
    }
  }

  lemma LongYearIsLeap(era: int, yoe: int)
    requires 0 <= yoe <= 399
    ensures LongYear(yoe) ==> Leap(400 * era + yoe + 1)
  {
    var n := yoe + 1;
    var y := 400 * era + n;
    ResidueShift(y, n, 100 * era, 4);
    ResidueShift(y, n, 4 * era, 100);
    ResidueShift(y, n, era, 400);
  }

  lemma ResidueShift(y: int, n: int, k: int, m: int)
    requires m > 0 && y == k * m + n
    ensures y % m == n % m
  {
    Quotient(y, m, k + n / m);
  }

  /** `civil_from_days` returns the one Gregorian date with that day number,
      unless its year does not fit `i32`. */
  lemma CivilFromDaysIsTheDate(days: nat)
    ensures match CivilFromDays(days)
      case Some((y, m, d)) => IsDate(y, m, d) && DayNumber(y, m, d) == days
      case None => forall y, m, d :: IsDate(y, m, d) && DayNumber(y, m, d) == days ==> y >= 0x8000_0000
  {
    var r := CivilDate(days);
    forall y, m, d | IsDate(y, m, d) && DayNumber(y, m, d) == days ensures y == r.0 {
      DatesAreUnique(y, m, d, r.0, r.1, r.2);
    }
    hide DayNumber, IsDate;
  }

  lemma CivilDate(days: nat) returns (r: (int, int, int))
    ensures IsDate(r.0, r.1, r.2) && DayNumber(r.0, r.1, r.2) == days
    ensures CivilFromDays(days) == if r.0 < 0x8000_0000 then Some(r) else None
  {
    hide EraYearStart, YearOfEra, LongYear, IsDate, DayNumber, MarchDate, MarchMonthStart;
    var era, doe := (days + 719468) / 146097, (days + 719468) % 146097;
    EraYearFound(doe);
    var yoe := YearOfEra(doe);
    DateInEra(era, yoe, doe - EraYearStart(yoe));
    r := MarchDate(era, yoe, doe - EraYearStart(yoe));
    MarchDateUnfolds(era, yoe, doe - EraYearStart(yoe));
  }

  /** Year, month and day of day `doy` of a March-based year. */
  function MarchDate(era: int, yoe: int, doy: int): (int, int, int) {
    var mp := (5 * doy + 2) / 153;
    var m := if mp < 10 then mp + 3 else mp - 9;
    (yoe + era * 400 + if m <= 2 then 1 else 0, m, doy - MarchMonthStart(mp) + 1)
  }

  lemma MarchDateUnfolds(era: int, yoe: int, doy: int)
    ensures var mp := (5 * doy + 2) / 153; var m := if mp < 10 then mp + 3 else mp - 9;
      MarchDate(era, yoe, doy)
      == (yoe + era * 400 + if m <= 2 then 1 else 0, m, doy - MarchMonthStart(mp) + 1)
  {
  }

  lemma DateInEra(era: int, yoe: int, doy: int)
    requires 0 <= yoe <= 399 && 0 <= doy <= 365 && (doy == 365 ==> LongYear(yoe))
    ensures var (y, m, d) := MarchDate(era, yoe, doy);
      IsDate(y, m, d) && DayNumber(y, m, d) == era * 146097 + EraYearStart(yoe) + doy - 719468
  {
    hide DaysBefore, MonthStart, EraYearStart, MarchMonthStart, LongYear, Leap, IsDate;
    var mp := (5 * doy + 2) / 153;
    var (y, m, d) := MarchDate(era, yoe, doy);
    var base := 400 * era + yoe;
    MarchMonthFound(doy);
    LongYearIsLeap(era, yoe);
    MarchMonthLengths(y, mp, doy, LongYear(yoe));
    assert 1 <= m <= 12;
    MarchFirst(era, yoe);
    MarchStartsAgree(base, m);
    DaysBeforeNext(base);
  }

  lemma MarchMonthLengths(y: int, mp: int, doy: int, long: bool)
    requires 0 <= mp <= 11 && MarchMonthStart(mp) <= doy <= 365 && (mp < 11 ==> doy < MarchMonthStart(mp + 1))
    requires doy == 365 ==> long
    requires mp == 11 && long ==> Leap(y)
    ensures IsDate(y, if mp < 10 then mp + 3 else mp - 9, doy - MarchMonthStart(mp) + 1)
  {
    MarchMonths();
  }

  // ---- the network clock ----

  /** `as_unix_ms`: field checks, then the day number. */
  function AsUnixMs(u: Utc): Option<u64> {
    if !(1 <= u.month <= 12) || !(1 <= u.day <= 31) || u.hour > 23 || u.minute > 59 || u.second > 59
       || u.millisecond * 1000000 >= 1000000000
    then None
    else
      var secs := DaysFromCivil(u.year, u.month, u.day) * 86400 + u.hour * 3600 + u.minute * 60 + u.second;
      var ns := secs * 1000000000 + u.millisecond * 1000000;
      if ns < 0 || ns / 1000000 >= 0x1_0000_0000_0000_0000 then None else Some(ns / 1000000)
  }

  /** The clock accepts exactly the fields of a time of day on a day 1 to 31 whose
      instant is a 64-bit count of milliseconds since 1970, and gives that count. */
  lemma ClockCountsMilliseconds(u: Utc)
    ensures 1 <= u.month <= 12 ==>
      var ms := DayNumber(u.year, u.month, u.day) * 86400000 + u.hour * 3600000 + u.minute * 60000 + u.second * 1000
                + u.millisecond;
      AsUnixMs(u) == if 1 <= u.day <= 31 && u.hour <= 23 && u.minute <= 59 && u.second <= 59 && u.millisecond <= 999
                        && 0 <= ms <= 0xFFFF_FFFF_FFFF_FFFF
                     then Some(ms) else None
    ensures !(1 <= u.month <= 12) ==> AsUnixMs(u).None?
  {
    hide DayNumber, DaysFromCivil;
    if 1 <= u.month <= 12 {
      DaysFromCivilIsDayNumber(u.year, u.month, u.day);
    }
  }

  /** The loop converter feeds the network clock the right instant if and only
      if the instant is not on a 29 February; on that day the clock refuses it. */
  lemma ClockAcceptsIffNotLeapDay(unixMs: u64)
    ensures AsUnixMs(ToUtc(unixMs)) == (if OnLeapDay(unixMs) then None else Some(unixMs))
  {
    hide DateOf, DayNumber, OnLeapDay, DaysFromCivil;
    var u := ToUtc(unixMs);
    DateIsGregorianIffNotLeapDay(unixMs);
    UtcRecombines(unixMs);
    TimeOfDay(unixMs);
    DaysFromCivilIsDayNumber(u.year, u.month, u.day);
    if !OnLeapDay(unixMs) {
      var ns := unixMs * 1000000;
      assert u.day <= 31;
      assert (DaysFromCivil(u.year, u.month, u.day) * 86400 + u.hour * 3600 + u.minute * 60 + u.second) * 1000000000
             + u.millisecond * 1000000 == ns;
      assert ns / 1000000 == unixMs;
    }
  }

  /** Loop and closed form agree on every date they can both name. */
  lemma ConvertersAgree(days: nat)
    requires days <= LAST_DAY
    requires forall y :: Leap(y) ==> days != DayNumber(y, 2, 29)
    ensures var (y, m, d) := DateOf(days); CivilFromDays(days) == Some((y, m, d as int))
  {
    DateIsRight(days);
    LeapDayOfYear(days);
    YearFitsI32(days);
    hide DayNumber, YearOf, IsDate;
    var r := CivilDate(days);
    var (y, m, d) := DateOf(days);
    DatesAreUnique(y, m, d, r.0, r.1, r.2);
  }
}
