/** Civil dates from day counts, and US daylight saving time.

    `MonthDay`, `Weekday` and `UsDaylightTime` are the program's arithmetic. What they should compute is stated
    apart from it: the proleptic Gregorian calendar as the day after (or before) each date, counted from Thursday
    1970-01-01, and daylight saving time as the days between two Sundays of that calendar. */
module CivilDate {

  // The program's arithmetic

  /** The weekday of a day counted from 1970-01-01, Sunday as 0. */
  function Weekday(days: int): int {
    (days + 4) % 7
  }

  /** Year of the 400-year era that starts on March 1, from the day of the era. */
  function YearOfEra(doe: int): int {
    (doe - doe / 1460 + doe / 36524 - doe / 146096) / 365
  }

  function MonthDay(days: int): (int, int) {
    MonthDayOfEra((days + 719468) % 146097)
  }

  function MonthDayOfEra(doe: int): (int, int) {
    var yoe := YearOfEra(doe);
    var doy := doe - (365 * yoe + yoe / 4 - yoe / 100);
    var mp := (5 * doy + 2) / 153;
    var day := doy - (153 * mp + 2) / 5 + 1;
    var month := if mp < 10 then mp + 3 else mp - 9;
    (month, day)
  }

  predicate UsDaylightTime(days: int, weekday: int) {
    var (month, day) := MonthDay(days);
    DaylightOn(month, day, weekday)
  }

  predicate DaylightOn(month: int, day: int, weekday: int) {
    var firstWeekday := (weekday - (day - 1)) % 7;
    var firstSunday := 1 + (7 - firstWeekday) % 7;
    if 4 <= month <= 10 then true
    else if month == 3 then day >= firstSunday + 7
    else if month == 11 then day < firstSunday
    else false
  }

  // The Gregorian calendar, day by day

  datatype Date = Date(year: int, month: int, day: int)

  predicate LeapYear(year: int) {
    year % 4 == 0 && (year % 100 != 0 || year % 400 == 0)
  }

  function MonthLength(year: int, month: int): int {
    if month == 2 then if LeapYear(year) then 29 else 28
    else if month == 4 || month == 6 || month == 9 || month == 11 then 30
    else 31
  }

  ghost predicate IsDate(date: Date) {
    1 <= date.month <= 12 && 1 <= date.day <= MonthLength(date.year, date.month)
  }

  function Tomorrow(date: Date): Date {
    if date.day < MonthLength(date.year, date.month) then date.(day := date.day + 1)
    else if date.month < 12 then Date(date.year, date.month + 1, 1)
    else Date(date.year + 1, 1, 1)
  }

  function Yesterday(date: Date): Date {
    if date.day > 1 then date.(day := date.day - 1)
    else if date.month > 1 then Date(date.year, date.month - 1, MonthLength(date.year, date.month - 1))
    else Date(date.year - 1, 12, 31)
  }

  /** The date of a day count, stepping one day at a time from 1970-01-01. */
  function DateOf(days: int): Date
    decreases if days < 0 then -days else days
  {
    if days == 0 then Date(1970, 1, 1)
    else if days > 0 then Tomorrow(DateOf(days - 1))
    else Yesterday(DateOf(days + 1))
  }

  // A closed form of the calendar: years and months counted from March

  /** Days of an era before its year `year` (0..400) starts. */
  function YearStart(year: int): int {
    365 * year + year / 4 - year / 100 + year / 400
  }

  /** Days of a March-based year before its month `mp` (0 is March) starts. */
  function MonthStart(mp: int): int {
    (153 * mp + 2) / 5
  }

  /** The day count of a date. */
  function DaysUntil(date: Date): int {
    var year := if date.month <= 2 then date.year - 1 else date.year;
    var mp := if date.month <= 2 then date.month + 9 else date.month - 3;
    YearStart(year) + MonthStart(mp) + date.day - 1 - 719468
  }

  /** The date of the `doy`th day of the March-based year `year`. */
  function DayOfYear(year: int, doy: int): Date {
    var mp := (5 * doy + 2) / 153;
    var month := if mp < 10 then mp + 3 else mp - 9;
    Date(if month <= 2 then year + 1 else year, month, doy - (153 * mp + 2) / 5 + 1)
  }

  /** The program's date, with the year its arithmetic implies. */
  function Civil(days: int): Date {
    var era, doe := (days + 719468) / 146097, (days + 719468) % 146097;
    DayOfYear(era * 400 + YearOfEra(doe), doe - YearStart(YearOfEra(doe)))
  }

  /** Every day of an era is in century `c` (0..3), its four-year block `q` (0..24), year `k` (0..3), day `t`. */
  lemma EraDay(doe: int) returns (c: int, q: int, k: int, t: int)
    requires 0 <= doe < 146097
    ensures 0 <= c <= 3 && 0 <= q <= 24 && 0 <= k <= 3 && 0 <= t <= 365
    ensures t == 365 ==> k == 3 && (q < 24 || c == 3)
    ensures doe == 36524 * c + 1461 * q + 365 * k + t
  {
    c := Min3(doe / 36524);
    var r := doe - 36524 * c;
    q := r / 1461;
    var s := r - 1461 * q;
    k := Min3(s / 365);
    t := s - 365 * k;
  }

  function Min3(x: int): int {
    if x > 3 then 3 else x
  }

  lemma YearOfEraIs(doe: int, c: int, q: int, k: int, t: int)
    requires 0 <= c <= 3 && 0 <= q <= 24 && 0 <= k <= 3 && 0 <= t <= 365
    requires t == 365 ==> k == 3 && (q < 24 || c == 3)
    requires doe == 36524 * c + 1461 * q + 365 * k + t
    ensures YearOfEra(doe) == 100 * c + 4 * q + k
  {
    var carry := (24 * c + q + 365 * k + t) / 1460;
    assert doe / 1460 == 25 * c + q + carry;
    if doe == 146096 {
    } else {
      assert doe / 36524 == c;
      assert doe / 146096 == 0;
      assert doe - doe / 1460 + doe / 36524 - doe / 146096 == 365 * (100 * c + 4 * q + k) + t - carry;
      assert 0 <= t - carry < 365;
    }
  }

  lemma YearOfEraSpan(doe: int)
    requires 0 <= doe < 146097
    ensures 0 <= YearOfEra(doe) < 400
    ensures YearStart(YearOfEra(doe)) <= doe < YearStart(YearOfEra(doe) + 1)
  {
    var c, q, k, t := EraDay(doe);
    YearOfEraIs(doe, c, q, k, t);
    hide YearOfEra;
    var year := 100 * c + 4 * q + k;
    assert year / 4 == 25 * c + q && year / 100 == c && year / 400 == 0;
    if k < 3 {
      assert (year + 1) / 4 == 25 * c + q && (year + 1) / 100 == c;
    } else if q < 24 {
      assert (year + 1) / 4 == 25 * c + q + 1 && (year + 1) / 100 == c;
    } else {
      assert (year + 1) / 4 == 25 * c + 25 && (year + 1) / 100 == c + 1;
    }
  }

  lemma MonthOfYear(doy: int)
    requires 0 <= doy < 366
    ensures var mp := (5 * doy + 2) / 153; 0 <= mp < 12 && MonthStart(mp) <= doy < MonthStart(mp + 1)
  {
  }

  /** The March-based year and month of a date, and its day in that year. */
  function MarchYear(date: Date): int {
    if date.month <= 2 then date.year - 1 else date.year
  }

  function MarchMonth(date: Date): int {
    if date.month <= 2 then date.month + 9 else date.month - 3
  }

  lemma MonthSpan(date: Date)
    requires IsDate(date)
    ensures MonthStart(MarchMonth(date)) + date.day <= MonthStart(MarchMonth(date) + 1) || MarchMonth(date) == 11
    ensures MonthStart(MarchMonth(date)) + date.day <= YearStart(MarchYear(date) + 1) - YearStart(MarchYear(date))
  {
    hide YearStart, LeapYear;
    var year := MarchYear(date);
    LeapDay(year + 1);
    assert YearStart(year + 1) - YearStart(year) == if LeapYear(year + 1) then 366 else 365;
  }

  lemma LeapDay(year: int)
    ensures YearStart(year) - YearStart(year - 1) == if LeapYear(year) then 366 else 365
  {
    assert year / 4 - (year - 1) / 4 == if year % 4 == 0 then 1 else 0;
    assert year / 100 - (year - 1) / 100 == if year % 100 == 0 then 1 else 0;
    assert year / 400 - (year - 1) / 400 == if year % 400 == 0 then 1 else 0;
  }

  lemma YearStartGrows(a: int, b: int)
    requires a <= b
    ensures YearStart(a) + 365 * (b - a) <= YearStart(b)
    decreases b - a
  {
    if a < b {
      YearStartGrows(a, b - 1);
      LeapDay(b);
    }
  }

  lemma YearOfEras(era: int, yoe: int)
    ensures YearStart(era * 400 + yoe) == era * 146097 + YearStart(yoe)
  {
    assert (era * 400 + yoe) / 4 == era * 100 + yoe / 4;
    assert (era * 400 + yoe) / 100 == era * 4 + yoe / 100;
    assert (era * 400 + yoe) / 400 == era + yoe / 400;
  }

  lemma DayOfYearCounts(year: int, doy: int)
    requires 0 <= doy < if LeapYear(year + 1) then 366 else 365
    ensures IsDate(DayOfYear(year, doy))
    ensures DaysUntil(DayOfYear(year, doy)) == YearStart(year) + doy - 719468
  {
    MonthOfYear(doy);
  }

  lemma DayOfEraCounts(era: int, yoe: int, doe: int)
    requires YearStart(yoe) <= doe < YearStart(yoe + 1)
    ensures IsDate(DayOfYear(era * 400 + yoe, doe - YearStart(yoe)))
    ensures DaysUntil(DayOfYear(era * 400 + yoe, doe - YearStart(yoe))) == era * 146097 + doe - 719468
  {
    var year := era * 400 + yoe;
    YearOfEras(era, yoe);
    YearOfEras(era, yoe + 1);
    LeapDay(year + 1);
    DayOfYearCounts(year, doe - YearStart(yoe));
  }

  /** The program's date is a date, and it is the one its day count counts to. */
  lemma CivilCounts(days: int)
    ensures IsDate(Civil(days))
    ensures DaysUntil(Civil(days)) == days
  {
    hide YearOfEra, YearStart, DayOfYear, DaysUntil, IsDate;
    var era, doe := (days + 719468) / 146097, (days + 719468) % 146097;
    YearOfEraSpan(doe);
    DayOfEraCounts(era, YearOfEra(doe), doe);
  }

  lemma MonthDayIsCivil(days: int)
    ensures MonthDay(days) == (Civil(days).month, Civil(days).day)
  {
    var doe := (days + 719468) % 146097;
    YearOfEraSpan(doe);
    assert YearOfEra(doe) / 400 == 0;
  }

  /** Two dates with the same day count are the same date. */
  lemma DaysUntilInjective(a: Date, b: Date)
    requires IsDate(a) && IsDate(b) && DaysUntil(a) == DaysUntil(b)
    ensures a == b
  {
    hide YearStart, LeapYear, MonthLength;
    MonthSpan(a);
    MonthSpan(b);
    if MarchYear(a) < MarchYear(b) {
      YearStartGrows(MarchYear(a) + 1, MarchYear(b));
    } else if MarchYear(b) < MarchYear(a) {
      YearStartGrows(MarchYear(b) + 1, MarchYear(a));
    }
  }

  lemma TomorrowCounts(date: Date)
    requires IsDate(date)
    ensures IsDate(Tomorrow(date))
    ensures DaysUntil(Tomorrow(date)) == DaysUntil(date) + 1
  {
    hide YearStart, LeapYear;
    LeapDay(MarchYear(date) + 1);
  }

  lemma YesterdayCounts(date: Date)
    requires IsDate(date)
    ensures IsDate(Yesterday(date))
    ensures DaysUntil(Yesterday(date)) == DaysUntil(date) - 1
  {
    TomorrowCounts(Yesterday(date));
    assert Tomorrow(Yesterday(date)) == date;
  }

  lemma {:induction false} DateOfCounts(days: int)
    ensures IsDate(DateOf(days)) && DaysUntil(DateOf(days)) == days
    decreases if days < 0 then -days else days
  {
    if days > 0 {
      DateOfCounts(days - 1);
      TomorrowCounts(DateOf(days - 1));
    } else if days < 0 {
      DateOfCounts(days + 1);
      YesterdayCounts(DateOf(days + 1));
    }
  }

  /** The program's month and day are those of the proleptic Gregorian calendar, for every day count. */
  lemma MonthDayIsGregorian(days: int)
    ensures IsDate(DateOf(days))
    ensures Civil(days) == DateOf(days)
    ensures MonthDay(days) == (DateOf(days).month, DateOf(days).day)
  {
    CivilCounts(days);
    MonthDayIsCivil(days);
    DateOfCounts(days);
    DaysUntilInjective(Civil(days), DateOf(days));
  }

  // Daylight saving time

  /** Day `days` is the `nth` Sunday of the month. */
  ghost predicate IsSunday(days: int, year: int, month: int, nth: int) {
    var date := DateOf(days);
    Weekday(days) == 0 && date.year == year && date.month == month && 7 * (nth - 1) < date.day <= 7 * nth
  }

  /** US daylight saving time holds exactly from the second Sunday of March up to, not including, the first Sunday
      of November of the day's year. */
  lemma DaylightTimeIsBetweenSundays(days: int, march: int, november: int)
    requires IsSunday(march, DateOf(days).year, 3, 2)
    requires IsSunday(november, DateOf(days).year, 11, 1)
    ensures UsDaylightTime(days, Weekday(days)) <==> march <= days < november
  {
    MonthDayIsGregorian(days);
    DateOfCounts(days);
    DateOfCounts(march);
    DateOfCounts(november);
    DaylightOfDate(DateOf(days), DateOf(march), DateOf(november));
  }

  lemma DaylightOfDate(date: Date, march: Date, november: Date)
    requires IsDate(date)
    requires IsDate(march) && march.year == date.year && march.month == 3 && 7 < march.day <= 14
    requires IsDate(november) && november.year == date.year && november.month == 11 && 0 < november.day <= 7
    requires Weekday(DaysUntil(march)) == 0 && Weekday(DaysUntil(november)) == 0
    ensures DaylightOn(date.month, date.day, Weekday(DaysUntil(date)))
            <==> DaysUntil(march) <= DaysUntil(date) < DaysUntil(november)
  {
    hide YearStart, LeapYear;
    if date.month == 3 {
      WeekdayAdd(DaysUntil(march), -7);
      FirstSunday(DaysUntil(date), date.day, march.day - 7);
    } else if date.month == 11 {
      FirstSunday(DaysUntil(date), date.day, november.day);
    } else {
      DayInYear(date);
    }
  }

  /** Outside March and November a day is before March 1, between April 1 and October 31, or after November 30. */
  lemma DayInYear(date: Date)
    requires IsDate(date) && date.month != 3 && date.month != 11
    ensures var first := YearStart(date.year) - 719468;
            if date.month < 3 then DaysUntil(date) < first
            else if date.month < 11 then first + 31 <= DaysUntil(date) < first + 245
            else first + 275 <= DaysUntil(date)
  {
    LeapDay(date.year);
    if date.month < 3 {
      assert YearStart(date.year) - YearStart(date.year - 1) >= 365;
    }
  }

  /** From the weekday of any day of a month the program derives that month's first Sunday. */
  lemma FirstSunday(days: int, day: int, sunday: int)
    requires 1 <= sunday <= 7
    requires Weekday(days - day + sunday) == 0
    ensures 1 + (7 - (Weekday(days) - (day - 1)) % 7) % 7 == sunday
  {
    WeekdayAdd(days, 1 - day);
    WeekdayAdd(days - day + 1, sunday - 1);
  }

  /** Every year has the two Sundays between which daylight saving time runs, and each is one day only. */
  lemma SundaysExist(year: int) returns (march: int, november: int)
    ensures forall days :: IsSunday(days, year, 3, 2) <==> days == march
    ensures forall days :: IsSunday(days, year, 11, 1) <==> days == november
  {
    march := SundayFrom(year, 3, 8);
    november := SundayFrom(year, 11, 1);
    forall days
      ensures IsSunday(days, year, 3, 2) ==> days == march
      ensures IsSunday(days, year, 11, 1) ==> days == november
    {
      if IsSunday(days, year, 3, 2) {
        OneSunday(days, march, year, 3, 2);
      }
      if IsSunday(days, year, 11, 1) {
        OneSunday(days, november, year, 11, 1);
      }
    }
  }

  lemma OneSunday(a: int, b: int, year: int, month: int, nth: int)
    requires IsSunday(a, year, month, nth) && IsSunday(b, year, month, nth)
    ensures a == b
  {
    DateOfCounts(a);
    DateOfCounts(b);
    hide DateOf, YearStart, MonthStart;
    assert b == a + (DateOf(b).day - DateOf(a).day);
    WeekdayAdd(a, b - a);
  }

  lemma SundayFrom(year: int, month: int, from: int) returns (sunday: int)
    requires month == 3 || month == 11
    requires from == 1 || from == 8
    ensures Weekday(sunday) == 0
    ensures DateOf(sunday).year == year && DateOf(sunday).month == month && from <= DateOf(sunday).day < from + 7
  {
    var start := DaysUntil(Date(year, month, from));
    var k := (7 - Weekday(start)) % 7;
    sunday := start + k;
    assert Weekday(sunday) == 0 by { WeekdayAdd(start, k); }
    var date := Date(year, month, from + k);
    assert DaysUntil(date) == sunday;
    DateOfCounts(sunday);
    DaysUntilInjective(DateOf(sunday), date);
  }

  lemma WeekdayAdd(days: int, k: int)
    ensures Weekday(days + k) == (Weekday(days) + k) % 7
  {
  }
}
