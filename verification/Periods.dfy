/** Hours, days, weeks (from Monday) and months of UTC time, in milliseconds
    since 1970-01-01, and the tiling they form. */
module Periods {

  datatype Interval = Hour | Day | Week | Month

  const HOUR_MS := 3_600_000
  const DAY_MS := 86_400_000

  // ----- The proleptic Gregorian calendar -----

  predicate IsLeap(y: int) { y % 4 == 0 && (y % 100 != 0 || y % 400 == 0) }

  /** Leap years in the years up to and including `y`, up to a constant. */
  function Leaps(y: int): int { y / 4 - y / 100 + y / 400 }

  function DaysBeforeYear(y: int): int { 365 * (y - 1970) + Leaps(y - 1) - Leaps(1969) }

  /** Days of the year before month `k` (0 is January). */
  function DaysBeforeMonth(k: int, leap: bool): int
    requires 0 <= k < 12
  {
    [0, 31, 59, 90, 120, 151, 181, 212, 243, 273, 304, 334][k] + (if leap && k >= 2 then 1 else 0)
  }

  /** The day on which the month number `m` since January 1970 starts. */
  function MonthStartDay(m: int): int {
    DaysBeforeYear(1970 + m / 12) + DaysBeforeMonth(m % 12, IsLeap(1970 + m / 12))
  }

  lemma DivStep(y: int, n: int)
    requires n in {4, 100, 400}
    ensures y / n - (y - 1) / n == if y % n == 0 then 1 else 0
  {
  }

  lemma FourCenturies(y: int)
    ensures y % 400 == 0 ==> y % 100 == 0
  {
    if y % 400 == 0 { assert y == 100 * (4 * (y / 400)); }
  }

  lemma Centuries(y: int)
    ensures y % 100 == 0 ==> y % 4 == 0
  {
    if y % 100 == 0 { assert y == 4 * (25 * (y / 100)); }
  }

  lemma LeapStep(y: int)
    ensures Leaps(y) - Leaps(y - 1) == if IsLeap(y) then 1 else 0
  {
    DivStep(y, 4);
    DivStep(y, 100);
    DivStep(y, 400);
    FourCenturies(y);
    Centuries(y);
  }

  /** Every month has between 28 and 31 days. */
  lemma MonthLength(m: int)
    ensures MonthStartDay(m) + 28 <= MonthStartDay(m + 1) <= MonthStartDay(m) + 31
  {
    LeapStep(1970 + m / 12);
    var k := m % 12;
    if k == 11 {
      assert (m + 1) / 12 == m / 12 + 1 && (m + 1) % 12 == 0;
    } else {
      assert (m + 1) / 12 == m / 12 && (m + 1) % 12 == k + 1;
    }
  }

  lemma {:induction false} MonthStartBound(m: int)
    ensures MonthStartDay(m) <= if m >= 0 then 31 * m else 28 * m
    decreases if m >= 0 then m else -m
  {
    if m == 0 {
      assert MonthStartDay(0) == 0;
      return;
    }
    hide MonthStartDay;
    if m > 0 {
      MonthStartBound(m - 1);
      MonthLength(m - 1);
    } else {
      MonthStartBound(m + 1);
      MonthLength(m);
    }
  }

  function MonthFrom(day: int, m: int): (r: int)
    requires MonthStartDay(m) <= day
    ensures MonthStartDay(r) <= day < MonthStartDay(r + 1)
    decreases day - MonthStartDay(m)
  {
    hide MonthStartDay;
    MonthLength(m);
    if MonthStartDay(m + 1) <= day then MonthFrom(day, m + 1) else m
  }

  /** The month a day belongs to. */
  function MonthOf(day: int): (r: int)
    ensures MonthStartDay(r) <= day < MonthStartDay(r + 1)
  {
    hide MonthStartDay, MonthFrom;
    var guess := if day >= 0 then day / 31 else day / 28;
    MonthStartBound(guess);
    MonthFrom(day, guess)
  }

  lemma {:induction false} MonthsIncrease(a: int, b: int)
    requires a < b
    ensures MonthStartDay(a) < MonthStartDay(b)
    decreases b - a
  {
    hide MonthStartDay;
    MonthLength(b - 1);
    if a < b - 1 { MonthsIncrease(a, b - 1); }
  }

  lemma MonthUnique(day: int, m: int)
    requires MonthStartDay(m) <= day < MonthStartDay(m + 1)
    ensures MonthOf(day) == m
  {
    hide MonthStartDay, MonthOf;
    var r := MonthOf(day);
    if r < m {
      if r + 1 < m { MonthsIncrease(r + 1, m); }
    } else if m < r {
      if m + 1 < r { MonthsIncrease(m + 1, r); }
    }
  }

  // ----- periodStart and nextPeriod -----

  /** The day on which the day, week or month of `day` starts. 1970-01-01 was a
      Thursday, so `day + 3` counts days since a Monday. */
  function StartDay(day: int, interval: Interval): int {
    match interval
    case Hour => day
    case Day => day
    case Week => day - (day + 3) % 7
    case Month => MonthStartDay(MonthOf(day))
  }

  /** The day after the last of a day, week or month starting on `day`. */
  function EndDay(day: int, interval: Interval): int {
    match interval
    case Hour => day
    case Day => day + 1
    case Week => day + 7
    case Month => MonthStartDay(MonthOf(day) + 1)
  }

  function PeriodStart(t: int, interval: Interval): int {
    if interval == Hour then t / HOUR_MS * HOUR_MS else StartDay(t / DAY_MS, interval) * DAY_MS
  }

  predicate IsBoundary(t: int, interval: Interval) { PeriodStart(t, interval) == t }

  function NextPeriod(start: int, interval: Interval): int
    requires IsBoundary(start, interval)
  {
    if interval == Hour then start + HOUR_MS else EndDay(start / DAY_MS, interval) * DAY_MS
  }

  lemma DayUnits(t: int, day: int)
    ensures day * DAY_MS / DAY_MS == day
    ensures t / DAY_MS * DAY_MS <= t < (t / DAY_MS + 1) * DAY_MS
  {
  }

  lemma HourUnits(t: int)
    ensures t / HOUR_MS * HOUR_MS / HOUR_MS == t / HOUR_MS
    ensures t / HOUR_MS * HOUR_MS <= t < (t / HOUR_MS + 1) * HOUR_MS
    ensures IsBoundary(t, Hour) ==> IsBoundary(t + HOUR_MS, Hour)
  {
  }

  /** Days, weeks and months tile the days. */
  lemma DayTiling(day: int, interval: Interval)
    requires interval != Hour
    ensures StartDay(day, interval) <= day < EndDay(StartDay(day, interval), interval)
    ensures StartDay(StartDay(day, interval), interval) == StartDay(day, interval)
    ensures StartDay(day, interval) == day ==> StartDay(EndDay(day, interval), interval) == EndDay(day, interval)
  {
    hide MonthStartDay, MonthOf;
    if interval == Month {
      var m := MonthOf(day);
      MonthLength(m);
      MonthLength(m + 1);
      MonthUnique(MonthStartDay(m), m);
      MonthUnique(MonthStartDay(m + 1), m + 1);
    }
  }

  lemma DayTilingUnique(day: int, start: int, interval: Interval)
    requires interval != Hour && StartDay(start, interval) == start
    requires start <= day < EndDay(start, interval)
    ensures StartDay(day, interval) == start
  {
    hide MonthStartDay, MonthOf;
    if interval == Month {
      MonthUnique(day, MonthOf(start));
    }
  }

  /** A period start is a boundary, and so is the end of every period. */
  lemma BoundariesClosed(t: int, interval: Interval)
    ensures IsBoundary(PeriodStart(t, interval), interval)
    ensures IsBoundary(t, interval) ==> IsBoundary(NextPeriod(t, interval), interval)
  {
    hide StartDay, EndDay;
    if interval == Hour {
      HourUnits(t);
    } else {
      var day := t / DAY_MS;
      DayTiling(day, interval);
      DayUnits(t, StartDay(day, interval));
      DayUnits(t, EndDay(day, interval));
    }
  }

  /** Every instant lies in the period that starts at its period start. */
  lemma Tiling(t: int, interval: Interval)
    ensures IsBoundary(PeriodStart(t, interval), interval)
    ensures PeriodStart(t, interval) <= t < NextPeriod(PeriodStart(t, interval), interval)
  {
    hide StartDay, EndDay;
    BoundariesClosed(t, interval);
    if interval == Hour {
      HourUnits(t);
    } else {
      DayTiling(t / DAY_MS, interval);
      DayUnits(t, StartDay(t / DAY_MS, interval));
    }
  }

  /** ... and in no other period. */
  lemma TilingUnique(t: int, start: int, interval: Interval)
    requires IsBoundary(start, interval)
    requires start <= t < NextPeriod(start, interval)
    ensures PeriodStart(t, interval) == start
  {
    hide StartDay, EndDay;
    if interval == Hour {
      HourUnits(t);
    } else {
      var day := start / DAY_MS;
      DayUnits(start, StartDay(day, interval));
      DayUnits(t, StartDay(day, interval));
      DayTilingUnique(t / DAY_MS, day, interval);
    }
  }

  /** Between a boundary and the next there is no other, so boundaries are ordered
      like the periods they start. */
  lemma NextIsNearest(start: int, other: int, interval: Interval)
    requires IsBoundary(start, interval) && IsBoundary(other, interval)
    ensures start < NextPeriod(start, interval)
    ensures start < other ==> NextPeriod(start, interval) <= other
  {
    hide PeriodStart, NextPeriod;
    Tiling(start, interval);
    if start < other < NextPeriod(start, interval) {
      TilingUnique(other, start, interval);
    }
  }

  lemma PeriodStartMonotone(a: int, b: int, interval: Interval)
    requires a <= b
    ensures PeriodStart(a, interval) <= PeriodStart(b, interval)
  {
    hide PeriodStart, NextPeriod;
    Tiling(a, interval);
    Tiling(b, interval);
    NextIsNearest(PeriodStart(b, interval), PeriodStart(a, interval), interval);
  }

  // ----- The periods on the calendar -----

  /** The length of month `k` (0 is January). */
  function DaysIn(k: int, leap: bool): int {
    if k == 1 then if leap then 29 else 28 else if k == 3 || k == 5 || k == 8 || k == 10 then 30 else 31
  }

  lemma DaysStep(k: int, leap: bool)
    requires 0 <= k < 12
    ensures DaysBeforeMonth(0, leap) == 0
    ensures DaysIn(k, leap)
         == (if k < 11 then DaysBeforeMonth(k + 1, leap) else if leap then 366 else 365) - DaysBeforeMonth(k, leap)
  {
  }

  predicate Gregorian(year: int) { year % 400 == 0 || (year % 4 == 0 && year % 100 != 0) }

  /** Months, counted from January 1970, have the lengths of the Gregorian calendar. */
  lemma CalendarMonths(year: int, k: int)
    requires 0 <= k < 12
    ensures MonthStartDay(0) == 0
    ensures MonthStartDay(12 * (year - 1970) + k + 1) - MonthStartDay(12 * (year - 1970) + k)
      == DaysIn(k, Gregorian(year))
  {
    hide *;
    FirstMonth();
    var m := 12 * (year - 1970) + k;
    LeapYears(year);
    DaysStep(k, IsLeap(year));
    YearStep(year);
    MonthStartIs(m, year, k);
    if k < 11 {
      MonthStartIs(m + 1, year, k + 1);
    } else {
      DaysStep(0, IsLeap(year + 1));
      MonthStartIs(m + 1, year + 1, 0);
    }
  }

  lemma FirstMonth()
    ensures MonthStartDay(0) == 0
  {
  }

  lemma MonthStartIs(m: int, year: int, k: int)
    requires m == 12 * (year - 1970) + k && 0 <= k < 12
    ensures MonthStartDay(m) == DaysBeforeYear(year) + DaysBeforeMonth(k, IsLeap(year))
  {
    assert m / 12 == year - 1970 && m % 12 == k;
  }

  lemma YearStep(year: int)
    ensures DaysBeforeYear(year + 1) == DaysBeforeYear(year) + if IsLeap(year) then 366 else 365
  {
    LeapStep(year);
  }

  lemma LeapYears(year: int)
    ensures IsLeap(year) <==> Gregorian(year)
  {
    FourCenturies(year);
    Centuries(year);
  }

  /** Hours, days, weeks from Monday 5 January 1970 on, and months begin where the calendar
      says. */
  lemma CalendarBoundaries(t: int)
    ensures IsBoundary(t, Hour) <==> t % 3_600_000 == 0
    ensures IsBoundary(t, Day) <==> t % 86_400_000 == 0
    ensures IsBoundary(t, Week) <==> (t - 345_600_000) % 604_800_000 == 0
    ensures IsBoundary(t, Month) <==> exists m: int :: t == MonthStartDay(m) * 86_400_000
  {
    hide MonthStartDay, MonthOf;
    WeekBoundary(t);
    var day := t / DAY_MS;
    if IsBoundary(t, Month) { assert t == MonthStartDay(MonthOf(day)) * 86_400_000; }
    if exists m: int :: t == MonthStartDay(m) * 86_400_000 {
      var m: int :| t == MonthStartDay(m) * 86_400_000;
      DayUnits(t, MonthStartDay(m));
      MonthLength(m);
      MonthUnique(MonthStartDay(m), m);
    }
  }

  lemma WeekBoundary(t: int)
    ensures IsBoundary(t, Week) <==> (t - 345_600_000) % 604_800_000 == 0
  {
    if IsBoundary(t, Week) { WeekStart(t); }
    if (t - 345_600_000) % 604_800_000 == 0 { FromMonday(t, (t - 345_600_000) / 604_800_000); }
  }

  lemma WeekStart(t: int)
    requires IsBoundary(t, Week)
    ensures (t - 345_600_000) % 604_800_000 == 0
  {
    var day := t / DAY_MS;
    var week := (day + 3) / 7;
    Remainder(day + 3);
    assert t == (7 * week - 3) * DAY_MS;
    Multiple(week - 1);
  }

  lemma Remainder(n: int)
    ensures n == 7 * (n / 7) + n % 7
  {
  }

  lemma Multiple(k: int)
    ensures k * 604_800_000 % 604_800_000 == 0
  {
  }

  lemma FromMonday(t: int, week: int)
    requires t - 345_600_000 == 604_800_000 * week
    ensures IsBoundary(t, Week)
  {
    var day := 7 * week + 4;
    assert t == day * DAY_MS;
    DayUnits(t, day);
    assert (day + 3) % 7 == 0;
  }

  /** An hour, a day and a week last as long as they should. */
  lemma PeriodLengths(start: int, interval: Interval)
    requires IsBoundary(start, interval) && interval != Month
    ensures NextPeriod(start, interval) - start
         == match interval case Hour => 3_600_000 case Day => 86_400_000 case _ => 604_800_000
  {
    DayUnits(start, start / DAY_MS);
  }
}
