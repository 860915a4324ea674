/**
 * `to_julian_day` and `get_c_time_info`: a calendar timestamp becomes a Julian
 * day number and the nanoseconds elapsed since that day's midnight. Also the C
 * test program's fixed array of time points.
 */
module Calendar {

  /** Python `datetime` accepts years 1 through 9999 of the proleptic Gregorian calendar. */
  const MinYear := 1
  const MaxYear := 9999

  datatype Date = Date(year: int, month: int, day: int)

  datatype DateTime = DateTime(date: Date, hour: int, minute: int, second: int, microsecond: int)

  predicate IsLeapYear(y: int)
  {
    y % 4 == 0 && (y % 100 != 0 || y % 400 == 0)
  }

  function DaysInMonth(y: int, m: int): int
    requires 1 <= m <= 12
  {
    if m == 2 then (if IsLeapYear(y) then 29 else 28)
    else if m == 4 || m == 6 || m == 9 || m == 11 then 30
    else 31
  }

  predicate ValidDate(d: Date)
  {
    MinYear <= d.year <= MaxYear && 1 <= d.month <= 12 && 1 <= d.day <= DaysInMonth(d.year, d.month)
  }

  /** Division that rounds toward zero, as the published algorithm's integer arithmetic does. */
  function TruncDiv(n: int, d: int): int
    requires d > 0
  {
    if n >= 0 then n / d else -((-n) / d)
  }

  /**
   * `to_julian_day`: the Julian day number of a Gregorian date, by the formula
   * of Fliegel and Van Flandern (Communications of the ACM 11(10), 1968).
   */
  function JulianDay(d: Date): int
    requires ValidDate(d)
  {
    var a := TruncDiv(d.month - 14, 12);
    1461 * (d.year + 4800 + a) / 4 + 367 * (d.month - 2 - 12 * a) / 12
      - 3 * ((d.year + 4900 + a) / 100) / 4 + d.day - 32075
  }

  // ---------------------------------------------------------------------------
  // Reference: count the days
  // ---------------------------------------------------------------------------

  /** Days in the years 1 .. y-1. */
  function DaysBeforeYear(y: int): int
    requires y >= 1
  {
    var n := y - 1;
    365 * n + n / 4 - n / 100 + n / 400
  }

  /** Days in the months 1 .. m-1 of year y. */
  function DaysBeforeMonth(y: int, m: int): int
    requires 1 <= m <= 12
  {
    if m == 1 then 0 else DaysBeforeMonth(y, m - 1) + DaysInMonth(y, m - 1)
  }

  /** Day 1 is 1 January of year 1; each later day is one more. */
  function Ordinal(d: Date): int
    requires ValidDate(d)
  {
    DaysBeforeYear(d.year) + DaysBeforeMonth(d.year, d.month) + d.day
  }

  /** The Julian day number of the day before 1 January of year 1. */
  const JulianDayOfOrdinalZero := 1721425

  /** The day after `d` in the calendar. */
  function NextDay(d: Date): Date
    requires ValidDate(d)
  {
    if d.day < DaysInMonth(d.year, d.month) then Date(d.year, d.month, d.day + 1)
    else if d.month < 12 then Date(d.year, d.month + 1, 1)
    else Date(d.year + 1, 1, 1)
  }

  lemma DivStep4(n: int)
    requires n >= 0
    ensures (n + 1) / 4 - n / 4 == if (n + 1) % 4 == 0 then 1 else 0
  {
  }

  lemma DivStep100(n: int)
    requires n >= 0
    ensures (n + 1) / 100 - n / 100 == if (n + 1) % 100 == 0 then 1 else 0
  {
  }

  lemma DivStep400(n: int)
    requires n >= 0
    ensures (n + 1) / 400 - n / 400 == if (n + 1) % 400 == 0 then 1 else 0
  {
  }

  /** A year has 365 days, one more when it is a leap year. */
  lemma DaysBeforeNextYear(y: int)
    requires y >= 1
    ensures DaysBeforeYear(y + 1) == DaysBeforeYear(y) + 365 + (if IsLeapYear(y) then 1 else 0)
  {
    var n := y - 1;
    DivStep4(n);
    DivStep100(n);
    DivStep400(n);
    DivisibilityChain(y);
    var by4, by100, by400 := (if y % 4 == 0 then 1 else 0), (if y % 100 == 0 then 1 else 0), (if y % 400 == 0 then 1 else 0);
    assert DaysBeforeYear(y + 1) - DaysBeforeYear(y) == 365 + by4 - by100 + by400;
  }

  /** A multiple of 400 is a multiple of 100, and a multiple of 100 a multiple of 4. */
  lemma DivisibilityChain(y: int)
    ensures y % 400 == 0 ==> y % 100 == 0
    ensures y % 100 == 0 ==> y % 4 == 0
  {
    if y % 400 == 0 {
      var k := y / 400;
      assert y == 400 * k;
      assert y == 100 * (4 * k) + 0;
    }
    if y % 100 == 0 {
      var k := y / 100;
      assert y == 100 * k;
      assert y == 4 * (25 * k) + 0;
    }
  }

  /** From March on, the days before month m follow the formula's month term. */
  lemma DaysBeforeMonthTable(y: int, m: int)
    requires 1 <= m <= 12
    ensures m == 1 ==> DaysBeforeMonth(y, m) == 0
    ensures m == 2 ==> DaysBeforeMonth(y, m) == 31
    ensures m >= 3 ==> DaysBeforeMonth(y, m) == 367 * (m - 2) / 12 + 29 + (if IsLeapYear(y) then 1 else 0)
  {
    if m > 1 {
      DaysBeforeMonthTable(y, m - 1);
    }
  }

  lemma DaysBeforeDecember(y: int)
    ensures DaysBeforeMonth(y, 12) + 31 == 365 + (if IsLeapYear(y) then 1 else 0)
  {
    DaysBeforeMonthTable(y, 12);
  }

  /** The day count advances by exactly one from each day to the next. */
  lemma OrdinalNextDay(d: Date)
    requires ValidDate(d) && ValidDate(NextDay(d))
    ensures Ordinal(NextDay(d)) == Ordinal(d) + 1
  {
    if d.day == DaysInMonth(d.year, d.month) && d.month == 12 {
      DaysBeforeNextYear(d.year);
      DaysBeforeDecember(d.year);
    }
  }

  lemma CenturyTerm(q: int)
    requires q >= 0
    ensures 3 * (q + 1) / 4 == q - q / 4
  {
  }

  lemma QuarterOf1461(n: int)
    requires n >= 0
    ensures 1461 * n / 4 == 365 * n + n / 4
  {
  }

  /** The year terms of the formula are the usual Gregorian leap-day count. */
  lemma FormulaYearTerms(yy: int)
    requires yy >= 0
    ensures 1461 * yy / 4 - 3 * ((yy + 100) / 100) / 4 == 365 * yy + yy / 4 - yy / 100 + yy / 400
  {
    QuarterOf1461(yy);
    assert (yy + 100) / 100 == yy / 100 + 1;
    CenturyTerm(yy / 100);
    assert yy / 100 / 4 == yy / 400;
  }

  /** Moving the count 4800 years (twelve 400-year cycles) adds a constant. */
  lemma ShiftTwelveCycles(n: int)
    requires n >= 0
    ensures 365 * (n + 4800) + (n + 4800) / 4 - (n + 4800) / 100 + (n + 4800) / 400
         == 365 * n + n / 4 - n / 100 + n / 400 + 1753164
  {
    assert (n + 4800) / 4 == n / 4 + 1200;
    assert (n + 4800) / 100 == n / 100 + 48;
    assert (n + 4800) / 400 == n / 400 + 12;
  }

  /** January and February count as months 11 and 12 of the formula's previous year. */
  lemma {:induction false} DayCountEarlyMonths(d: Date)
    requires ValidDate(d) && d.month <= 2
    ensures JulianDay(d) == Ordinal(d) + JulianDayOfOrdinalZero
  {
    DaysBeforeMonthTable(d.year, d.month);
    assert TruncDiv(d.month - 14, 12) == -1;
    FormulaYearTerms(d.year - 1 + 4800);
    ShiftTwelveCycles(d.year - 1);
  }

  /** March to December: the formula's year is the calendar year. */
  lemma {:induction false} DayCountLateMonths(d: Date)
    requires ValidDate(d) && d.month > 2
    ensures JulianDay(d) == Ordinal(d) + JulianDayOfOrdinalZero
  {
    DaysBeforeMonthTable(d.year, d.month);
    assert TruncDiv(d.month - 14, 12) == 0;
    FormulaYearTerms(d.year + 4800);
    ShiftTwelveCycles(d.year);
    DaysBeforeNextYear(d.year);
  }

  /**
   * The formula counts days: it is the ordinal day count shifted by a constant,
   * for every date Python can represent.
   */
  lemma JulianDayIsDayCount(d: Date)
    requires ValidDate(d)
    ensures JulianDay(d) == Ordinal(d) + JulianDayOfOrdinalZero
  {
    if d.month <= 2 {
      DayCountEarlyMonths(d);
    } else {
      DayCountLateMonths(d);
    }
  }

  /** Consecutive dates have consecutive Julian day numbers. */
  lemma JulianDayNextDay(d: Date)
    requires ValidDate(d) && ValidDate(NextDay(d))
    ensures JulianDay(NextDay(d)) == JulianDay(d) + 1
  {
    JulianDayIsDayCount(d);
    JulianDayIsDayCount(NextDay(d));
    OrdinalNextDay(d);
  }

  /** The fixed points the unit test checks. */
  lemma JulianDayFixedPoints()
    ensures JulianDay(Date(1970, 1, 1)) == 2440588
    ensures JulianDay(Date(1969, 12, 30)) == 2440586
    ensures JulianDay(Date(1970, 1, 30)) == 2440617
    ensures JulianDay(Date(2020, 2, 5)) == 2458885
    ensures JulianDay(Date(2021, 6, 1)) == 2459367
  {
    JulianDayEpoch();
    JulianDayEndOf1969();
    JulianDayLaterFixedPoints();
  }

  lemma JulianDayEpoch()
    ensures JulianDay(Date(1970, 1, 1)) == 2440588
  {
    assert TruncDiv(1 - 14, 12) == -1;
  }

  lemma JulianDayEndOf1969()
    ensures JulianDay(Date(1969, 12, 30)) == 2440586
  {
    assert TruncDiv(12 - 14, 12) == 0;
  }

  lemma JulianDayLaterFixedPoints()
    ensures JulianDay(Date(1970, 1, 30)) == 2440617
    ensures JulianDay(Date(2020, 2, 5)) == 2458885
    ensures JulianDay(Date(2021, 6, 1)) == 2459367
  {
    assert TruncDiv(1 - 14, 12) == -1 && TruncDiv(2 - 14, 12) == -1;
    assert TruncDiv(6 - 14, 12) == 0;
  }

  // ---------------------------------------------------------------------------
  // Time of day
  // ---------------------------------------------------------------------------

  const NanosecondsPerSecond := 1000000000
  const NanosecondsPerDay := 86400 * NanosecondsPerSecond

  predicate ValidDateTime(dt: DateTime)
  {
    ValidDate(dt.date) && 0 <= dt.hour < 24 && 0 <= dt.minute < 60 && 0 <= dt.second < 60
    && 0 <= dt.microsecond < 1000000
  }

  /** Nanoseconds since midnight; every time of day lands inside one day. */
  function NanosecondsOfDay(dt: DateTime): (ns: int)
    requires ValidDateTime(dt)
    ensures 0 <= ns < NanosecondsPerDay
  {
    ((dt.hour * 60 + dt.minute) * 60 + dt.second) * NanosecondsPerSecond + dt.microsecond * 1000
  }

  /** The clock reading can be recovered from the nanosecond count. */
  lemma NanosecondsOfDayDecodes(dt: DateTime)
    requires ValidDateTime(dt)
    ensures NanosecondsOfDay(dt) / (3600 * NanosecondsPerSecond) == dt.hour
    ensures NanosecondsOfDay(dt) / (60 * NanosecondsPerSecond) % 60 == dt.minute
    ensures NanosecondsOfDay(dt) / NanosecondsPerSecond % 60 == dt.second
    ensures NanosecondsOfDay(dt) % NanosecondsPerSecond / 1000 == dt.microsecond
  {
    var ns := NanosecondsOfDay(dt);
    var seconds := (dt.hour * 60 + dt.minute) * 60 + dt.second;
    assert ns / NanosecondsPerSecond == seconds;
    assert ns % NanosecondsPerSecond == dt.microsecond * 1000;
    assert ns / (60 * NanosecondsPerSecond) == dt.hour * 60 + dt.minute;
  }

  datatype TimeInfo = TimeInfo(julianDay: int, nanosecondsOfDay: int)

  /** `get_c_time_info`. */
  function GetCTimeInfo(dt: DateTime): (info: TimeInfo)
    requires ValidDateTime(dt)
    ensures info.julianDay == Ordinal(dt.date) + JulianDayOfOrdinalZero
    ensures info.nanosecondsOfDay == NanosecondsOfDay(dt) && 0 <= info.nanosecondsOfDay < NanosecondsPerDay
  {
    JulianDayIsDayCount(dt.date);
    TimeInfo(JulianDay(dt.date), NanosecondsOfDay(dt))
  }

  /** The unit test: 2020-02-05 15:27:04. */
  lemma TimeInfoExample()
    ensures GetCTimeInfo(DateTime(Date(2020, 2, 5), 15, 27, 4, 0)) == TimeInfo(2458885, (4 + 60 * (27 + 60 * 15)) * 1000000000)
  {
  }

  // ---------------------------------------------------------------------------
  // The C test program's time points
  // ---------------------------------------------------------------------------

  /**
   * `get_time_infos`: one entry per time point, all on 5 February 2020,
   * starting at 15:27:04 and one second apart.
   */
  method GetTimeInfos(numTimeInfos: nat) returns (infos: array<TimeInfo>)
    ensures infos.Length == numTimeInfos
    ensures forall t :: 0 <= t < numTimeInfos ==>
      infos[t] == TimeInfo(2458885, (55624 + t) * NanosecondsPerSecond)
  {
    infos := new TimeInfo[numTimeInfos](_ => TimeInfo(0, 0));
    var julianDay := 2458885;
    var seconds := 4 + 60 * (27 + 60 * 15);
    for t := 0 to numTimeInfos
      invariant forall j :: 0 <= j < t ==> infos[j] == TimeInfo(2458885, (55624 + j) * NanosecondsPerSecond)
    {
      var nanoseconds := (seconds + t) * NanosecondsPerSecond;
      infos[t] := TimeInfo(julianDay, nanoseconds);
    }
  }

  /**
   * The C program's hand-computed entries agree with the converter: entry t is
   * the time info of 15:27:04 plus t seconds, while that stays within the minute.
   */
  lemma TimeInfosMatchConverter(t: nat)
    requires t < 56
    ensures TimeInfo(2458885, (55624 + t) * NanosecondsPerSecond)
         == GetCTimeInfo(DateTime(Date(2020, 2, 5), 15, 27, 4 + t, 0))
  {
  }
}
