/**
 * ISO weeks over the proleptic Gregorian calendar in UTC (lib/notes.ts). Instants are integer
 * milliseconds since 1970-01-01; the calendar is that of the ECMAScript Date object.
 */
module Weeks {
  import opened Options
  import opened Decimal

  const DAY_MS: int := 86400000
  const WEEK_MS: int := 7 * DAY_MS

  // ----------------------------------------------------------------------------------------
  // The calendar
  // ----------------------------------------------------------------------------------------

  predicate IsLeap(y: int) {
    y % 4 == 0 && (y % 100 != 0 || y % 400 == 0)
  }

  function YearDays(y: int): int {
    if IsLeap(y) then 366 else 365
  }

  /** Days from 1970-01-01 to the first of January of year `y`. */
  function YearStart(y: int): int
    decreases if y < 1970 then 1970 - y else y - 1970
  {
    if y == 1970 then 0
    else if y > 1970 then YearStart(y - 1) + YearDays(y - 1)
    else YearStart(y + 1) - YearDays(y)
  }

  lemma YearLength(y: int)
    ensures YearStart(y + 1) == YearStart(y) + YearDays(y)
  {
  }

  /** ECMAScript's DayFromYear. */
  function DayFromYear(y: int): int {
    365 * (y - 1970) + (y - 1969) / 4 - (y - 1901) / 100 + (y - 1601) / 400
  }

  lemma FourthYearStep(y: int)
    ensures (y - 1968) / 4 == (y - 1969) / 4 + if y % 4 == 0 then 1 else 0
  {
    assert (y - 1968) % 4 == y % 4;
  }

  lemma HundredthYearStep(y: int)
    ensures (y - 1900) / 100 == (y - 1901) / 100 + if y % 100 == 0 then 1 else 0
  {
    assert (y - 1900) % 100 == y % 100;
  }

  lemma FourHundredthYearStep(y: int)
    ensures (y - 1600) / 400 == (y - 1601) / 400 + if y % 400 == 0 then 1 else 0
  {
    assert (y - 1600) % 400 == y % 400;
  }

  lemma LeapRule(y: int)
    ensures YearDays(y) == 365 + (if y % 4 == 0 then 1 else 0) - (if y % 100 == 0 then 1 else 0) + (if y % 400 == 0 then 1 else 0)
  {
    if y % 400 == 0 {
      assert y == 100 * (4 * (y / 400));
    }
    if y % 100 == 0 {
      assert y == 4 * (25 * (y / 100));
    }
  }

  lemma DayFromYearStep(y: int)
    ensures DayFromYear(y + 1) == DayFromYear(y) + YearDays(y)
  {
    LeapRule(y);
    FourthYearStep(y);
    HundredthYearStep(y);
    FourHundredthYearStep(y);
  }

  /** The sum of the year lengths is that closed form. */
  lemma {:induction false} YearStartClosedForm(y: int)
    ensures YearStart(y) == DayFromYear(y)
    decreases if y < 1970 then 1970 - y else y - 1970
  {
    if y > 1970 {
      YearStartClosedForm(y - 1);
      DayFromYearStep(y - 1);
    } else if y < 1970 {
      YearStartClosedForm(y + 1);
      DayFromYearStep(y);
    }
  }

  lemma {:induction false} YearStartGrows(y: int, z: int)
    requires y < z
    ensures YearStart(y) + 365 <= YearStart(z)
    decreases z - y
  {
    YearLength(z - 1);
    if y < z - 1 {
      YearStartGrows(y, z - 1);
    }
  }

  function YearFrom(day: int, y: int): (r: int)
    ensures YearStart(r) <= day < YearStart(r + 1)
    decreases if YearStart(y) <= day < YearStart(y + 1) then 0
              else 1 + (if day < YearStart(y) then YearStart(y) - day else day - YearStart(y))
  {
    YearLength(y);
    YearLength(y - 1);
    if day < YearStart(y) then YearFrom(day, y - 1)
    else if YearStart(y + 1) <= day then YearFrom(day, y + 1)
    else y
  }

  /** The year containing a day: the largest year that starts no later. */
  function YearOf(day: int): (y: int)
    ensures YearStart(y) <= day < YearStart(y + 1)
  {
    YearFrom(day, 1970)
  }

  lemma YearOfIsUnique(day: int, y: int)
    requires YearStart(y) <= day < YearStart(y + 1)
    ensures YearOf(day) == y
  {
    var z := YearOf(day);
    if y + 1 < z {
      YearStartGrows(y + 1, z);
    }
    if z + 1 < y {
      YearStartGrows(z + 1, y);
    }
  }

  /** A day on or after the start of a year belongs to that year or a later one. */
  lemma YearOfAtLeast(day: int, y: int)
    requires YearStart(y) <= day
    ensures y <= YearOf(day)
  {
    if YearOf(day) + 1 < y {
      YearStartGrows(YearOf(day) + 1, y);
    }
  }

  /** Days before month `m` (0 for January) within its year. */
  function MonthStart(m: int, leap: bool): int
    requires 0 <= m <= 12
  {
    var extra := if leap then 1 else 0;
    if m == 0 then 0 else if m == 1 then 31 else
    extra + (
      if m == 2 then 59 else if m == 3 then 90 else if m == 4 then 120 else if m == 5 then 151
      else if m == 6 then 181 else if m == 7 then 212 else if m == 8 then 243 else if m == 9 then 273
      else if m == 10 then 304 else if m == 11 then 334 else 365)
  }

  function MonthFrom(dayOfYear: int, leap: bool, m: int): (r: int)
    requires 0 <= m <= 11 && MonthStart(m, leap) <= dayOfYear < MonthStart(12, leap)
    ensures m <= r <= 11 && MonthStart(r, leap) <= dayOfYear < MonthStart(r + 1, leap)
    decreases 12 - m
  {
    if dayOfYear < MonthStart(m + 1, leap) then m else MonthFrom(dayOfYear, leap, m + 1)
  }

  /** The UTC calendar fields of a day, the month counted from 0 and the date from 1. */
  datatype Fields = Fields(year: int, month: int, date: int)

  function FieldsOf(day: int): (f: Fields)
    ensures 0 <= f.month <= 11
  {
    var y := YearOf(day);
    YearLength(y);
    assert MonthStart(12, IsLeap(y)) == YearDays(y);
    var m := MonthFrom(day - YearStart(y), IsLeap(y), 0);
    Fields(y, m, day - YearStart(y) - MonthStart(m, IsLeap(y)) + 1)
  }

  /** `Date.UTC(year, month, date)` in days; a year from 0 to 99 is read as one of the 1900s. */
  function UtcDay(year: int, month: int, date: int): int
    requires 0 <= month <= 11
  {
    var y := if 0 <= year <= 99 then 1900 + year else year;
    YearStart(y) + MonthStart(month, IsLeap(y)) + date - 1
  }

  lemma FieldsReadBack(day: int)
    requires !(0 <= YearOf(day) <= 99)
    ensures var f := FieldsOf(day); UtcDay(f.year, f.month, f.date) == day
  {
  }

  /** Monday is 1 and Sunday 7: `getUTCDay() || 7`. */
  function Weekday(day: int): (w: int)
    ensures 1 <= w <= 7
  {
    var sundayFirst := (day + 4) % 7;
    if sundayFirst == 0 then 7 else sundayFirst
  }

  /** The length of a month of the Gregorian calendar, January being month 0. */
  function MonthDays(y: int, m: int): int {
    if m == 1 then if IsLeap(y) then 29 else 28
    else if m == 3 || m == 5 || m == 8 || m == 10 then 30 else 31
  }

  /** Days from 1970-01-01 to the given date. */
  function DayNumber(y: int, m: int, d: int): int
    requires 0 <= m <= 11
    decreases m
  {
    if m == 0 then DayFromYear(y) + d - 1 else DayNumber(y, m - 1, d + MonthDays(y, m - 1))
  }

  lemma {:induction false} MonthsAddUp(y: int, m: int, d: int)
    requires 0 <= m <= 11
    ensures DayNumber(y, m, d) == YearStart(y) + MonthStart(m, IsLeap(y)) + d - 1
    ensures MonthStart(m + 1, IsLeap(y)) == MonthStart(m, IsLeap(y)) + MonthDays(y, m)
    decreases m
  {
    YearStartClosedForm(y);
    if m > 0 {
      MonthsAddUp(y, m - 1, d + MonthDays(y, m - 1));
    }
  }

  lemma {:induction false} MonthsGrow(m: int, n: int, leap: bool)
    requires 0 <= m <= n <= 12
    ensures MonthStart(m, leap) <= MonthStart(n, leap)
    decreases n - m
  {
    if m < n {
      MonthsGrow(m, n - 1, leap);
    }
  }

  lemma DateOf(y: int, m: int, d: int)
    requires 0 <= m <= 11 && 1 <= d <= MonthDays(y, m)
    ensures FieldsOf(DayNumber(y, m, d)) == Fields(y, m, d)
  {
    var leap := IsLeap(y);
    MonthsAddUp(y, m, d);
    hide MonthDays, MonthStart, YearStart, DayNumber, IsLeap, FieldsOf;
    MonthsGrow(0, m, leap);
    MonthsGrow(m + 1, 12, leap);
    FieldsInMonth(DayNumber(y, m, d), y, m);
  }

  lemma FieldsLie(day: int)
    ensures var f := FieldsOf(day);
      var dayOfYear := day - YearStart(f.year);
      && f.year == YearOf(day) && MonthStart(f.month, IsLeap(f.year)) <= dayOfYear < MonthStart(f.month + 1, IsLeap(f.year))
      && f.date == dayOfYear - MonthStart(f.month, IsLeap(f.year)) + 1
  {
    var y := YearOf(day);
    YearLength(y);
    assert MonthStart(12, IsLeap(y)) == YearDays(y);
    hide YearOf, YearStart, MonthFrom;
  }

  lemma MonthsFill(y: int)
    ensures MonthStart(12, IsLeap(y)) == YearDays(y)
  {
  }

  lemma FieldsInMonth(day: int, y: int, m: int)
    requires 0 <= m <= 11
    requires var leap, dayOfYear := IsLeap(y), day - YearStart(y);
      0 <= MonthStart(m, leap) <= dayOfYear < MonthStart(m + 1, leap) <= MonthStart(12, leap)
    ensures FieldsOf(day) == Fields(y, m, day - YearStart(y) - MonthStart(m, IsLeap(y)) + 1)
  {
    hide FieldsOf, MonthStart, YearStart, YearOf, YearDays, IsLeap;
    MonthsFill(y);
    YearLength(y);
    YearOfIsUnique(day, y);
    FieldsLie(day);
    var n := FieldsOf(day).month;
    if n < m {
      MonthsGrow(n + 1, m, IsLeap(y));
    } else if m < n {
      MonthsGrow(m + 1, n, IsLeap(y));
    }
  }

  /** The instant at a time of a day. */
  function Instant(day: int, hours: int, minutes: int, seconds: int, ms: int): int {
    (((day * 24 + hours) * 60 + minutes) * 60 + seconds) * 1000 + ms
  }

  predicate IsTime(hours: int, minutes: int, seconds: int, ms: int) {
    0 <= hours < 24 && 0 <= minutes < 60 && 0 <= seconds < 60 && 0 <= ms < 1000
  }

  /**
   * An instant is read as the date it is of, at every time of that date; days follow one another through the week, and
   * 1 January 1970 was a Thursday.
   */
  lemma DateIsRead(y: int, m: int, d: int, hours: int, minutes: int, seconds: int, ms: int)
    requires 0 <= m <= 11 && 1 <= d <= MonthDays(y, m) && IsTime(hours, minutes, seconds, ms)
    ensures var day := Instant(DayNumber(y, m, d), hours, minutes, seconds, ms) / DAY_MS;
      FieldsOf(day) == Fields(y, m, d) && (Weekday(day) - Weekday(0)) % 7 == day % 7 && Weekday(0) == 4
  {
    DateOf(y, m, d);
    InstantOfDay(DayNumber(y, m, d), hours, minutes, seconds, ms);
    WeekdayOf(DayNumber(y, m, d));
    hide FieldsOf, DayNumber, Instant, Weekday, MonthDays;
  }

  lemma InstantOfDay(day: int, hours: int, minutes: int, seconds: int, ms: int)
    requires IsTime(hours, minutes, seconds, ms)
    ensures Instant(day, hours, minutes, seconds, ms) / DAY_MS == day
  {
    assert 0 <= Instant(day, hours, minutes, seconds, ms) - day * DAY_MS < DAY_MS;
  }

  lemma WeekdayOf(day: int)
    ensures (Weekday(day) - Weekday(0)) % 7 == day % 7 && Weekday(0) == 4
  {
  }

  // ----------------------------------------------------------------------------------------
  // Week keys
  // ----------------------------------------------------------------------------------------

  function Ceil7(n: int): int {
    -((-n) / 7)
  }

  function Pad2(n: int): string {
    var s := Written(n);
    if |s| < 2 then "0" + s else s
  }

  function KeyText(year: int, week: int): string {
    Written(year) + "-W" + Pad2(week)
  }

  /** The year and the week number in the key of a day: those of the Thursday of its week. */
  function WeekOfDay(day: int): (int, int) {
    var f := FieldsOf(day);
    var d := UtcDay(f.year, f.month, f.date);
    var thursday := d + 4 - Weekday(d);
    var isoYear := YearOf(thursday);
    (isoYear, Ceil7(thursday - UtcDay(isoYear, 0, 1) + 1))
  }

  function WeekKey(t: int): string {
    var (year, week) := WeekOfDay(t / DAY_MS);
    KeyText(year, week)
  }

  datatype Range = Range(start: int, end: int)

  predicate Matches(key: string) {
    |key| == 8 && IsDigit(key[0]) && IsDigit(key[1]) && IsDigit(key[2]) && IsDigit(key[3])
    && key[4] == '-' && key[5] == 'W' && IsDigit(key[6]) && IsDigit(key[7])
  }

  /** The Monday of the week holding January 4th. */
  function FirstMonday(y: int): int {
    var jan4 := Weekday(UtcDay(y, 0, 4));
    UtcDay(y, 0, 4 - (jan4 - 1))
  }

  function StartOf(year: int, week: int): int {
    FirstMonday(year) * DAY_MS + (week - 1) * WEEK_MS
  }

  function WeekRange(key: string): Option<Range> {
    if !Matches(key) then None
    else
      var year := Value(key[..4]);
      var week := Value(key[6..]);
      if week < 1 || week > 53 then None
      else
        var start := StartOf(year, week);
        if WeekKey(start) != key then None else Some(Range(start, start + WEEK_MS))
  }

  // ----------------------------------------------------------------------------------------
  // What an ISO week is (ISO 8601, section 4.1.4): the week belongs to its Thursday's year
  // ----------------------------------------------------------------------------------------

  ghost function MondayOf(day: int): int {
    day - (Weekday(day) - 1)
  }

  ghost function IsoYearOfDay(day: int): int {
    YearOf(MondayOf(day) + 3)
  }

  ghost function IsoYear(t: int): int {
    IsoYearOfDay(t / DAY_MS)
  }

  /** The number of Thursdays of the ISO year up to and including this week's. */
  ghost function IsoWeekOfDay(day: int): int {
    (MondayOf(day) + 3 - YearStart(IsoYearOfDay(day))) / 7 + 1
  }

  ghost function IsoWeek(t: int): int {
    IsoWeekOfDay(t / DAY_MS)
  }

  /** A year has a 53rd week when it has 53 Thursdays. */
  ghost predicate Has53Weeks(y: int) {
    var jan1 := Weekday(YearStart(y));
    jan1 == 4 || (jan1 == 3 && IsLeap(y))
  }

  lemma MondayFacts(day: int)
    ensures Weekday(MondayOf(day)) == 1
    ensures MondayOf(day) <= day < MondayOf(day) + 7
  {
  }

  lemma SameWeek(day: int, other: int)
    requires MondayOf(day) <= other < MondayOf(day) + 7
    ensures MondayOf(other) == MondayOf(day)
  {
  }

  lemma CeilingOfSevenths(n: int)
    ensures Ceil7(n + 1) == n / 7 + 1
  {
  }

  /** The Thursday of a week lies in its ISO year, in week 1 to 53, and 53 only when the year has 53 Thursdays. */
  lemma WeekBounds(start: int, days: int, thursday: int)
    requires days == 365 || days == 366
    requires start <= thursday < start + days && Weekday(thursday) == 4
    ensures 1 <= (thursday - start) / 7 + 1 <= 53
    ensures (thursday - start) / 7 + 1 == 53 ==> Weekday(start) == 4 || (Weekday(start) == 3 && days == 366)
  {
  }

  lemma ThursdayFacts(day: int)
    ensures Weekday(MondayOf(day) + 3) == 4
    ensures day + 4 - Weekday(day) == MondayOf(day) + 3
  {
  }

  lemma IsoWeekBounds(day: int)
    ensures 1 <= IsoWeekOfDay(day) <= 53
    ensures IsoWeekOfDay(day) == 53 ==> Has53Weeks(IsoYearOfDay(day))
  {
    var y := IsoYearOfDay(day);
    ThursdayFacts(day);
    YearLength(y);
    WeekBounds(YearStart(y), YearDays(y), MondayOf(day) + 3);
  }

  /** From the year 1000 on, the computed week is the ISO week. */
  lemma WeekOfDayIsIso(day: int)
    requires IsoYearOfDay(day) >= 1000
    ensures WeekOfDay(day) == (IsoYearOfDay(day), IsoWeekOfDay(day))
  {
    var y := IsoYearOfDay(day);
    MondayFacts(day);
    LateEnough(day, y);
    FieldsReadBack(day);
    ThursdayFacts(day);
    CeilingOfSevenths(MondayOf(day) + 3 - YearStart(y));
    assert UtcDay(y, 0, 1) == YearStart(y);
  }

  lemma WeekKeyIsIso(t: int)
    requires IsoYear(t) >= 1000
    ensures WeekKey(t) == KeyText(IsoYear(t), IsoWeek(t))
    ensures 1 <= IsoWeek(t) <= 53
    ensures IsoWeek(t) == 53 ==> Has53Weeks(IsoYear(t))
  {
    WeekOfDayIsIso(t / DAY_MS);
    IsoWeekBounds(t / DAY_MS);
  }

  /** A date of the years 0 to 99 is taken for the one 1900 years later. */
  lemma EarlyYearsAreTakenForLater(y: int, m: int, d: int)
    requires 0 <= y <= 99 && 0 <= m <= 11 && 1 <= d <= MonthDays(y, m)
    ensures WeekOfDay(DayNumber(y, m, d)) == WeekOfDay(DayNumber(1900 + y, m, d))
  {
    DateOf(y, m, d);
    LaterDay(y, m, d);
    hide FieldsOf, UtcDay, DayNumber, WeekOfDay, MonthDays;
    ReadAlike(DayNumber(y, m, d), DayNumber(1900 + y, m, d));
  }

  lemma ReadAlike(day: int, other: int)
    requires var f, g := FieldsOf(day), FieldsOf(other); UtcDay(f.year, f.month, f.date) == UtcDay(g.year, g.month, g.date)
    ensures WeekOfDay(day) == WeekOfDay(other)
  {
    hide FieldsOf, UtcDay, YearOf, YearStart, Weekday, Ceil7;
  }

  lemma LaterDay(y: int, m: int, d: int)
    requires 0 <= y <= 99 && 0 <= m <= 11 && 1 <= d <= MonthDays(y, m)
    ensures var day := DayNumber(1900 + y, m, d);
      var f := FieldsOf(day);
      UtcDay(y, m, d) == day && UtcDay(f.year, f.month, f.date) == day
  {
    var day := DayNumber(1900 + y, m, d);
    MonthsAddUp(1900 + y, m, d);
    assert YearStart(1900 + y) <= day;
    YearOfAtLeast(day, 1900 + y);
    FieldsReadBack(day);
  }

  /** The week of a date in closed form: day 0 is a Thursday, so the Thursday of a day's week is the multiple of 7 nearest to it. */
  lemma WeekInClosedForm(day: int, y: int)
    requires var thursday := (day + 3) / 7 * 7; y >= 1000 && DayFromYear(y) <= thursday < DayFromYear(y + 1)
    ensures WeekOfDay(day) == (y, ((day + 3) / 7 * 7 - DayFromYear(y)) / 7 + 1)
  {
    hide WeekOfDay, YearStart, YearOf, MondayOf, DayFromYear;
    YearStartClosedForm(y);
    YearStartClosedForm(y + 1);
    ThursdayIs(day);
    YearOfIsUnique(MondayOf(day) + 3, y);
    WeekOfDayIsIso(day);
  }

  lemma ThursdayIs(day: int)
    ensures MondayOf(day) + 3 == (day + 3) / 7 * 7
  {
  }

  /** A day at most a week before a year from 1000 on is nowhere near the years 0 to 99. */
  lemma LateEnough(day: int, y: int)
    requires YearStart(y) - 7 <= day && y >= 1000
    ensures YearOf(day) > 99
  {
    YearStartGrows(100, y);
    YearOfAtLeast(day, 100);
  }

  // ----------------------------------------------------------------------------------------
  // Keys and ranges
  // ----------------------------------------------------------------------------------------

  lemma KeyParts(year: int, week: int)
    requires 1000 <= year <= 9999 && 1 <= week <= 53
    ensures var key := KeyText(year, week);
      Matches(key) && Value(key[..4]) == year && Value(key[6..]) == week
  {
    var key := KeyText(year, week);
    FourDigits(year);
    assert |Pad2(week)| == 2 && IsDigit(Pad2(week)[0]) && IsDigit(Pad2(week)[1]) && Value(Pad2(week)) == week by {
      TwoDigits(week);
    }
    assert key[..4] == Written(year);
    assert key[6..] == Pad2(week);
    UnsignedReadsBack(year);
  }

  lemma TwoDigits(n: int)
    requires 0 <= n <= 99
    ensures Pad2(n) == [Digit(n / 10), Digit(n % 10)]
    ensures Value(Pad2(n)) == n
  {
    assert Unsigned(n / 10) == [Digit(n / 10)];
    var s := Pad2(n);
    assert s[..1] == [Digit(n / 10)];
    assert s[..1][..0] == [];
    assert Value(s[..1]) == DigitValue(s[0]) == n / 10;
    assert DigitValue(s[1]) == n % 10;
  }

  lemma FirstMondayFacts(y: int)
    requires y >= 1000
    ensures Weekday(FirstMonday(y)) == 1 && YearStart(y) - 3 <= FirstMonday(y) <= YearStart(y) + 3
  {
    var jan4 := YearStart(y) + 3;
    assert FirstMonday(y) == MondayOf(jan4);
    MondayFacts(jan4);
  }

  /** Two Mondays, the later in the week numbered from the earlier. */
  lemma MondaysApart(first: int, start: int, monday: int)
    requires Weekday(first) == 1 && Weekday(monday) == 1
    requires start - 3 <= first <= start + 3 && start <= monday + 3
    ensures first + (monday + 3 - start) / 7 * 7 == monday
  {
  }

  /** The range of the week containing `t` starts on that week's Monday. */
  lemma StartOfIsMonday(t: int)
    requires 1000 <= IsoYear(t)
    ensures StartOf(IsoYear(t), IsoWeek(t)) == MondayOf(t / DAY_MS) * DAY_MS
  {
    var y, monday := IsoYear(t), MondayOf(t / DAY_MS);
    FirstMondayFacts(y);
    MondayFacts(t / DAY_MS);
    MondaysApart(FirstMonday(y), YearStart(y), monday);
  }

  /** The first instant of a day. */
  lemma Midnight(day: int, t: int)
    ensures day * DAY_MS / DAY_MS == day && day * DAY_MS % DAY_MS == 0
    ensures day <= t / DAY_MS < day + 7 <==> day * DAY_MS <= t < day * DAY_MS + WEEK_MS
  {
  }

  lemma SameWeekSameKey(t: int, u: int)
    requires 1000 <= IsoYear(t)
    requires MondayOf(t / DAY_MS) <= u / DAY_MS < MondayOf(t / DAY_MS) + 7
    ensures MondayOf(u / DAY_MS) == MondayOf(t / DAY_MS)
    ensures IsoYear(u) == IsoYear(t) && IsoWeek(u) == IsoWeek(t) && WeekKey(u) == WeekKey(t)
  {
    SameWeek(t / DAY_MS, u / DAY_MS);
    WeekKeyIsIso(t);
    WeekKeyIsIso(u);
  }

  /** Every instant from ISO year 1000 to 9999 has a range: seven days from a Monday, holding the instant. */
  lemma RangeOfKey(t: int)
    requires 1000 <= IsoYear(t) <= 9999
    ensures WeekRange(WeekKey(t)).Some?
    ensures var r := WeekRange(WeekKey(t)).value;
      && r.start <= t < r.end && r.end - r.start == 7 * DAY_MS
      && r.start % DAY_MS == 0 && Weekday(r.start / DAY_MS) == 1
      && r.start == MondayOf(t / DAY_MS) * DAY_MS
  {
    var monday := MondayOf(t / DAY_MS);
    var start := monday * DAY_MS;
    WeekKeyIsIso(t);
    KeyParts(IsoYear(t), IsoWeek(t));
    StartOfIsMonday(t);
    MondayFacts(t / DAY_MS);
    Midnight(monday, t);
    SameWeekSameKey(t, start);
  }

  /** A matching key names its year in its first four characters. */
  lemma KeyYear(year: int, week: int)
    requires Matches(KeyText(year, week))
    ensures 1000 <= year <= 9999 && Value(KeyText(year, week)[..4]) == year
  {
    var key, text := KeyText(year, week), Written(year);
    assert text <= key && key[|text|] == '-';
    assert forall i :: 0 <= i < |text| ==> key[i] == text[i];
    assert text[0] == key[0];
    assert year >= 0;
    UnsignedReadsBack(year);
    assert |text| == 4;
    FourLong(year);
    assert key[..4] == text;
  }

  /** The weeks `weekRange` counts from January 4th of `year` lie in that ISO year or a later one. */
  lemma StartDayLiesInYear(year: int, week: int)
    requires year >= 1000 && 1 <= week
    ensures var day := FirstMonday(year) + 7 * (week - 1);
      MondayOf(day) == day && IsoYearOfDay(day) >= year
  {
    var day := FirstMonday(year) + 7 * (week - 1);
    FirstMondayFacts(year);
    WholeWeeksOn(FirstMonday(year), week - 1);
    YearOfAtLeast(day + 3, year);
  }

  lemma WholeWeeksOn(day: int, weeks: int)
    ensures Weekday(day + 7 * weeks) == Weekday(day)
  {
  }

  lemma StartsAtMidnight(year: int, week: int)
    ensures StartOf(year, week) == (FirstMonday(year) + 7 * (week - 1)) * DAY_MS
    ensures StartOf(year, week) / DAY_MS == FirstMonday(year) + 7 * (week - 1)
  {
    Midnight(FirstMonday(year) + 7 * (week - 1), 0);
  }

  lemma ParsedStart(key: string) returns (year: int, week: int, day: int)
    requires WeekRange(key).Some?
    ensures year == Value(key[..4]) && week == Value(key[6..]) && 1 <= week
    ensures year >= 1000 && day == FirstMonday(year) + 7 * (week - 1)
    ensures WeekRange(key).value.start == day * DAY_MS
    ensures WeekOfDay(day).0 <= 9999 && KeyText(WeekOfDay(day).0, WeekOfDay(day).1) == key
  {
    year, week := Value(key[..4]), Value(key[6..]);
    day := FirstMonday(year) + 7 * (week - 1);
    StartsAtMidnight(year, week);
    var found := WeekOfDay(day);
    assert WeekKey(StartOf(year, week)) == KeyText(found.0, found.1);
    KeyYear(found.0, found.1);
  }

  /** An accepted range starts on the Monday of a week of ISO year 1000 to 9999, and its key is that week's. */
  lemma AcceptedKey(key: string)
    requires WeekRange(key).Some?
    ensures var start := WeekRange(key).value.start;
      && 1000 <= IsoYear(start) <= 9999 && WeekKey(start) == key
      && start % DAY_MS == 0 && MondayOf(start / DAY_MS) == start / DAY_MS
      && IsoYear(start) == Value(key[..4]) && IsoWeek(start) == Value(key[6..])
  {
    var year, week, day := ParsedStart(key);
    Midnight(day, 0);
    StartDayLiesInYear(year, week);
    WeekOfDayIsIso(day);
    IsoWeekBounds(day);
    KeyParts(IsoYearOfDay(day), IsoWeekOfDay(day));
  }

  /** Every instant of an accepted range has the range's key. */
  lemma KeyOfRange(key: string, t: int)
    requires WeekRange(key).Some?
    requires WeekRange(key).value.start <= t < WeekRange(key).value.end
    ensures WeekKey(t) == key && 1000 <= IsoYear(t) <= 9999
  {
    var start := WeekRange(key).value.start;
    AcceptedKey(key);
    Midnight(start / DAY_MS, t);
    SameWeekSameKey(start, t);
  }

  /** The accepted keys are exactly the keys of instants of ISO years 1000 to 9999. */
  lemma AcceptedKeysAreWeeks(key: string)
    ensures WeekRange(key).Some? <==> exists t :: 1000 <= IsoYear(t) <= 9999 && WeekKey(t) == key
  {
    if WeekRange(key).Some? {
      AcceptedKey(key);
    }
    if t :| 1000 <= IsoYear(t) <= 9999 && WeekKey(t) == key {
      RangeOfKey(t);
    }
  }

  /** The Thursday that begins 52 weeks after a year's first one is still in a year of 53 Thursdays. */
  lemma Week53Thursday(start: int, days: int, first: int)
    requires days == 365 || days == 366
    requires Weekday(start) == 4 || (Weekday(start) == 3 && days == 366)
    requires Weekday(first) == 1 && start - 3 <= first <= start + 3
    ensures start <= first + 7 * 52 + 3 < start + days && (first + 7 * 52 + 3 - start) / 7 + 1 == 53
  {
  }

  lemma Week53Exists(year: int)
    requires 1000 <= year <= 9999 && Has53Weeks(year)
    ensures WeekRange(KeyText(year, 53)).Some?
  {
    var monday := FirstMonday(year) + 7 * 52;
    FirstMondayFacts(year);
    WholeWeeksOn(FirstMonday(year), 52);
    assert MondayOf(monday) == monday;
    YearLength(year);
    Week53Thursday(YearStart(year), YearDays(year), FirstMonday(year));
    YearOfIsUnique(monday + 3, year);
    Midnight(monday, 0);
    WeekKeyIsIso(monday * DAY_MS);
    RangeOfKey(monday * DAY_MS);
  }

  /** Week 53 is accepted exactly in the years that have one. */
  lemma Week53Accepted(year: int)
    requires 1000 <= year <= 9999
    ensures WeekRange(KeyText(year, 53)).Some? <==> Has53Weeks(year)
  {
    KeyParts(year, 53);
    if WeekRange(KeyText(year, 53)).Some? {
      AcceptedKey(KeyText(year, 53));
      WeekKeyIsIso(WeekRange(KeyText(year, 53)).value.start);
    }
    if Has53Weeks(year) {
      Week53Exists(year);
    }
  }

  /** Two accepted ranges that share an instant belong to one key. */
  lemma RangesDoNotOverlap(a: string, b: string, t: int)
    requires WeekRange(a).Some? && WeekRange(b).Some?
    requires WeekRange(a).value.start <= t < WeekRange(a).value.end
    requires WeekRange(b).value.start <= t < WeekRange(b).value.end
    ensures a == b
  {
    KeyOfRange(a, t);
    KeyOfRange(b, t);
  }

  /** Where one range ends the next week's begins, up to the end of ISO year 9999. */
  lemma RangesTile(key: string)
    requires WeekRange(key).Some? && IsoYear(WeekRange(key).value.end) <= 9999
    ensures var end := WeekRange(key).value.end;
      WeekRange(WeekKey(end)).Some? && WeekRange(WeekKey(end)).value.start == end
  {
    var r := WeekRange(key).value;
    AcceptedKey(key);
    var monday := r.start / DAY_MS;
    Midnight(monday, 0);
    Midnight(monday + 7, 0);
    assert r.end == (monday + 7) * DAY_MS;
    WholeWeeksOn(monday, 1);
    YearOfAtLeast(monday + 7 + 3, IsoYear(r.start));
    RangeOfKey(r.end);
  }

  // ----------------------------------------------------------------------------------------
  // The week guard on mutations
  // ----------------------------------------------------------------------------------------

  /** The start of the current week; none for a clock outside the years a key can name. */
  function CurrentWeekStart(now: int): Option<int> {
    var range := WeekRange(WeekKey(now));
    if range.Some? then Some(range.value.start) else None
  }

  /** The WHERE clause of every mutation of a note. */
  predicate Writable(createdAt: int, now: int) {
    var start := CurrentWeekStart(now);
    start.Some? && createdAt >= start.value
  }

  /** A note may be changed exactly during the ISO week it was written in. */
  lemma WritableInItsOwnWeek(createdAt: int, now: int)
    requires createdAt <= now && 1000 <= IsoYear(now) <= 9999
    ensures Writable(createdAt, now) <==> 1000 <= IsoYear(createdAt) <= 9999 && WeekKey(createdAt) == WeekKey(now)
  {
    RangeOfKey(now);
    if Writable(createdAt, now) {
      KeyOfRange(WeekKey(now), createdAt);
    }
    if 1000 <= IsoYear(createdAt) <= 9999 && WeekKey(createdAt) == WeekKey(now) {
      RangeOfKey(createdAt);
    }
  }
}
