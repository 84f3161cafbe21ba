/** Regular NYSE sessions from the clock and the stored calendar: the program's test, the client's sessions, and the
    client's search for the next one. */
module Market {
  import opened Numbers
  import opened CivilDate

  const DAY_SECONDS := 86400
  const HOUR := 3600
  const OPEN := 9 * HOUR + 30 * 60
  const CLOSE := 16 * HOUR
  const EARLY_CLOSE := 13 * HOUR
  const CALENDAR_DAYS := 1464

  /** Closures as bitmaps: bit `i` stands for day `firstDay + i`. */
  datatype MarketCalendar = MarketCalendar(
    firstDay: u16, validThrough: u16, holidays: seq<bv8>, earlyCloses: seq<bv8>)

  /** The byte with only bit `i` set. */
  function Mask(i: int): bv8 {
    if i == 0 then 1 else if i == 1 then 2 else if i == 2 then 4 else if i == 3 then 8
    else if i == 4 then 16 else if i == 5 then 32 else if i == 6 then 64 else 128
  }

  /** Bit `index` of a bitmap; past its end no bit is set. */
  predicate IsSet(bits: seq<bv8>, index: nat) {
    index / 8 < |bits| && bits[index / 8] & Mask(index % 8) != 0
  }

  const CALENDAR_BYTES := CALENDAR_DAYS / 8

  /** A bitmap with no day set. */
  function NoDays(): (bits: seq<bv8>)
    ensures |bits| == CALENDAR_BYTES && forall index: nat :: !IsSet(bits, index)
  {
    seq(CALENDAR_BYTES, _ => 0)
  }

  predicate Covers(calendar: MarketCalendar, day: int) {
    calendar.firstDay <= day <= calendar.validThrough
  }

  /** The program's `us_market_open`. */
  predicate UsMarketOpen(now: int, calendar: MarketCalendar) {
    var days := now / DAY_SECONDS;
    var weekday := Weekday(days);
    if !Covers(calendar, days) then false
    else
      var index := days - calendar.firstDay;
      if weekday == 0 || weekday == 6 || IsSet(calendar.holidays, index) then false
      else
        var offset := if UsDaylightTime(days, weekday) then 4 * HOUR else 5 * HOUR;
        var close := if IsSet(calendar.earlyCloses, index) then EARLY_CLOSE else CLOSE;
        OPEN + offset <= now % DAY_SECONDS < close + offset
  }

  // The hours

  /** Bit `i` of a byte, counted from the least significant. */
  predicate BitOf(byte: bv8, i: nat)
    requires i < 8
  {
    (byte >> i) & 1 == 1
  }

  /** Day `day` is marked in a bitmap whose first bit stands for `first`. */
  predicate Marked(bits: seq<bv8>, first: int, day: int) {
    first <= day && (day - first) / 8 < |bits| && BitOf(bits[(day - first) / 8], (day - first) % 8)
  }

  lemma MarkedIsSet(bits: seq<bv8>, first: int, day: int)
    requires first <= day
    ensures Marked(bits, first, day) <==> IsSet(bits, day - first)
  {
    if (day - first) / 8 < |bits| {
      BitIsMasked(bits[(day - first) / 8], (day - first) % 8);
    }
  }

  lemma BitIsMasked(byte: bv8, i: nat)
    requires i < 8
    ensures BitOf(byte, i) <==> byte & Mask(i) != 0
  {
    assert (byte >> 0) & 1 == 1 <==> byte & 1 != 0;
    assert (byte >> 1) & 1 == 1 <==> byte & 2 != 0;
    assert (byte >> 2) & 1 == 1 <==> byte & 4 != 0;
    assert (byte >> 3) & 1 == 1 <==> byte & 8 != 0;
    assert (byte >> 4) & 1 == 1 <==> byte & 16 != 0;
    assert (byte >> 5) & 1 == 1 <==> byte & 32 != 0;
    assert (byte >> 6) & 1 == 1 <==> byte & 64 != 0;
    assert (byte >> 7) & 1 == 1 <==> byte & 128 != 0;
  }

  /** Between the second Sunday of March and the first of November of the day's year. */
  ghost predicate InSummer(day: int) {
    exists march, november ::
      && IsSunday(march, DateOf(day).year, 3, 2) && IsSunday(november, DateOf(day).year, 11, 1)
      && march <= day < november
  }

  lemma SummerIsDaylightTime(day: int)
    ensures InSummer(day) <==> UsDaylightTime(day, Weekday(day))
  {
    var march, november := SundaysExist(DateOf(day).year);
    DaylightTimeIsBetweenSundays(day, march, november);
  }

  /** The session's hours: on a weekday the calendar covers and does not close, from 9:30 to 16:00, or to 13:00 if it
      closes early, four hours behind UTC in summer and five in winter. 1970-01-01 was a Thursday. */
  ghost predicate InSession(now: int, calendar: MarketCalendar) {
    var day := now / 86_400;
    var local := now % 86_400 - if InSummer(day) then 14_400 else 18_000;
    && calendar.firstDay <= day <= calendar.validThrough
    && (day + 3) % 7 < 5
    && !Marked(calendar.holidays, calendar.firstDay, day)
    && 34_200 <= local < if Marked(calendar.earlyCloses, calendar.firstDay, day) then 46_800 else 57_600
  }

  lemma MarketHours(now: int, calendar: MarketCalendar)
    ensures UsMarketOpen(now, calendar) <==> InSession(now, calendar)
  {
    hide InSummer, Marked, IsSet, UsDaylightTime;
    var day := now / DAY_SECONDS;
    SummerIsDaylightTime(day);
    if calendar.firstDay <= day {
      MarkedIsSet(calendar.holidays, calendar.firstDay, day);
      MarkedIsSet(calendar.earlyCloses, calendar.firstDay, day);
    }
  }

  // The client's mirror, with JavaScript's truncating division

  function DivEuclid(value: int, divisor: int): int
    requires divisor > 0
  {
    var quotient := TruncDiv(value, divisor);
    if TruncMod(value, divisor) < 0 then quotient - 1 else quotient
  }

  /** JavaScript's division truncates: the quotient toward zero, the remainder with the dividend's sign. */
  lemma Truncates(value: int, divisor: int)
    requires divisor > 0
    ensures TruncDiv(value, divisor) * divisor + TruncMod(value, divisor) == value
    ensures if value >= 0 then 0 <= TruncMod(value, divisor) < divisor else -divisor < TruncMod(value, divisor) <= 0
  {
    DivisionParts(if value >= 0 then value else -value, divisor);
    if value < 0 {
      assert TruncDiv(value, divisor) == -(-value / divisor);
    }
  }

  function ClientModulo(value: int, divisor: int): int
    requires divisor > 0
  {
    TruncMod(TruncMod(value, divisor) + divisor, divisor)
  }

  function ClientWeekday(day: int): int {
    ClientModulo(day + 4, 7)
  }

  predicate ClientDaylightTime(days: int, dayOfWeek: int) {
    var (month, day) := MonthDayOfEra(ClientModulo(days + 719468, 146097));
    var firstWeekday := ClientModulo(dayOfWeek - (day - 1), 7);
    var firstSunday := 1 + TruncMod(7 - firstWeekday, 7);
    if 4 <= month <= 10 then true
    else if month == 3 then day >= firstSunday + 7
    else if month == 11 then day < firstSunday
    else false
  }

  /** A session trades from `open` until just before `close`. */
  datatype MarketSession = MarketSession(open: int, close: int)

  function SessionOf(day: int, calendar: MarketCalendar): Option<MarketSession> {
    if day < calendar.firstDay || day > calendar.validThrough then None
    else
      var index := day - calendar.firstDay;
      var dayOfWeek := ClientWeekday(day);
      if dayOfWeek == 0 || dayOfWeek == 6 || IsSet(calendar.holidays, index) then None
      else
        var offset := if ClientDaylightTime(day, dayOfWeek) then 4 * HOUR else 5 * HOUR;
        var start := day * DAY_SECONDS + offset;
        Some(MarketSession(
          start + OPEN,
          start + if IsSet(calendar.earlyCloses, index) then EARLY_CLOSE else CLOSE))
  }

  predicate ClientMarketOpen(now: int, calendar: MarketCalendar) {
    var session := SessionOf(DivEuclid(now, DAY_SECONDS), calendar);
    session.Some? && session.value.open <= now < session.value.close
  }

  lemma ClientDivision(value: int, divisor: int)
    requires divisor > 0
    ensures DivEuclid(value, divisor) == value / divisor
    ensures ClientModulo(value, divisor) == value % divisor
  {
    if value >= 0 {
      DivisionParts(value, divisor);
      ShiftedModulo(value % divisor, divisor);
    } else {
      DivisionParts(-value, divisor);
      NegatedDivision(value, divisor);
      ShiftedModulo(-(-value % divisor), divisor);
    }
  }

  lemma DivisionParts(value: int, divisor: int)
    requires divisor > 0
    ensures value / divisor * divisor + value % divisor == value
    ensures 0 <= value % divisor < divisor
  {
  }

  lemma QuotientIs(value: int, divisor: int, q: int, r: int)
    requires divisor > 0 && 0 <= r < divisor && value == q * divisor + r
    ensures value / divisor == q && value % divisor == r
  {
    DivisionParts(value, divisor);
    var d := value / divisor - q;
    assert d * divisor == r - value % divisor;
    AtLeastOnce(d, divisor);
    AtLeastOnce(-d, divisor);

  }

  lemma AtLeastOnce(d: int, divisor: int)
    requires divisor > 0
    ensures d >= 1 ==> d * divisor >= divisor
  {
  }

  lemma NegatedDivision(value: int, divisor: int)
    requires divisor > 0 && value < 0
    ensures var r := -value % divisor;
            if r == 0 then value / divisor == -(-value / divisor) && value % divisor == 0
            else value / divisor == -(-value / divisor) - 1 && value % divisor == divisor - r
  {
    DivisionParts(-value, divisor);
    var q, r := -value / divisor, -value % divisor;
    if r == 0 {
      QuotientIs(value, divisor, -q, 0);
    } else {
      assert value == (-q - 1) * divisor + (divisor - r);
      QuotientIs(value, divisor, -q - 1, divisor - r);
    }
  }

  lemma ShiftedModulo(r: int, divisor: int)
    requires divisor > 0 && -divisor < r < divisor
    ensures TruncMod(r + divisor, divisor) == if r < 0 then r + divisor else r
  {
    if r < 0 {
      QuotientIs(r + divisor, divisor, 0, r + divisor);
    } else {
      QuotientIs(r + divisor, divisor, 1, r);
    }
  }

  lemma DaylightTimesAgree(days: int)
    ensures ClientWeekday(days) == Weekday(days)
    ensures ClientDaylightTime(days, ClientWeekday(days)) == UsDaylightTime(days, Weekday(days))
  {
    hide MonthDayOfEra, ClientModulo;
    ClientDivision(days + 4, 7);
    ClientDivision(days + 719468, 146097);
    var (month, day) := MonthDay(days);
    ClientDivision(Weekday(days) - (day - 1), 7);
  }

  /** A session opens and closes on the UTC day it belongs to. */
  lemma SessionWithinDay(day: int, calendar: MarketCalendar)
    requires SessionOf(day, calendar).Some?
    ensures var session := SessionOf(day, calendar).value;
            day * DAY_SECONDS < session.open < session.close < (day + 1) * DAY_SECONDS
  {
  }

  /** The client and the program agree on whether the market is open, at every clock. */
  lemma MarketsAgree(now: int, calendar: MarketCalendar)
    ensures ClientMarketOpen(now, calendar) <==> UsMarketOpen(now, calendar)
  {
    ClientDivision(now, DAY_SECONDS);
    DaylightTimesAgree(now / DAY_SECONDS);
  }

  /** The market is open exactly inside the session of some day. */
  lemma OpenInSession(now: int, day: int, calendar: MarketCalendar)
    requires SessionOf(day, calendar).Some?
    requires SessionOf(day, calendar).value.open <= now < SessionOf(day, calendar).value.close
    ensures now / DAY_SECONDS == day
    ensures UsMarketOpen(now, calendar)
  {
    SessionWithinDay(day, calendar);
    ClientDivision(now, DAY_SECONDS);
    MarketsAgree(now, calendar);
  }

  /** Of all the calendar's sessions that have not closed, the one that closes first; none when no session is left. */
  ghost predicate IsNextSession(next: Option<MarketSession>, now: int, calendar: MarketCalendar) {
    && (next.Some? ==> now < next.value.close && exists day :: SessionOf(day, calendar) == next)
    && (forall day :: SessionOf(day, calendar).Some? && now < SessionOf(day, calendar).value.close ==>
                        next.Some? && next.value.close <= SessionOf(day, calendar).value.close)
  }

  /** Day by day from the clock's own, up to the first session that has not closed. */
  method NextMarketSession(now: int, calendar: MarketCalendar) returns (next: Option<MarketSession>)
    ensures IsNextSession(next, now, calendar)
  {
    ClientDivision(now, DAY_SECONDS);
    var day := DivEuclid(now, DAY_SECONDS);
    forall past | past < day ensures ClosedBy(past, now, calendar) {
      EarlierDaysClosed(past, now, calendar);
    }
    while day <= calendar.validThrough
      invariant forall past :: past < day ==> ClosedBy(past, now, calendar)
      decreases calendar.validThrough - day
    {
      var session := SessionOf(day, calendar);
      if session.Some? && now < session.value.close {
        FirstToClose(day, now, calendar);
        return session;
      }
      day := day + 1;
    }
    NoneLeft(day, now, calendar);
    return None;
  }

  lemma NoneLeft(day: int, now: int, calendar: MarketCalendar)
    requires calendar.validThrough < day
    requires forall past :: past < day ==> ClosedBy(past, now, calendar)
    ensures IsNextSession(None, now, calendar)
  {
    forall any | SessionOf(any, calendar).Some?
      ensures SessionOf(any, calendar).value.close <= now
    {
      assert any < day ==> ClosedBy(any, now, calendar);
    }
  }

  /** Day `day` has no session still to close at `now`. */
  predicate ClosedBy(day: int, now: int, calendar: MarketCalendar) {
    SessionOf(day, calendar).Some? ==> SessionOf(day, calendar).value.close <= now
  }

  lemma EarlierDaysClosed(day: int, now: int, calendar: MarketCalendar)
    requires day < now / DAY_SECONDS
    ensures ClosedBy(day, now, calendar)
  {
    if SessionOf(day, calendar).Some? {
      SessionWithinDay(day, calendar);
    }
  }

  lemma FirstToClose(day: int, now: int, calendar: MarketCalendar)
    requires SessionOf(day, calendar).Some? && now < SessionOf(day, calendar).value.close
    requires forall past :: past < day ==> ClosedBy(past, now, calendar)
    ensures IsNextSession(SessionOf(day, calendar), now, calendar)
  {
    SessionWithinDay(day, calendar);
    forall later | SessionOf(later, calendar).Some? && now < SessionOf(later, calendar).value.close
      ensures SessionOf(day, calendar).value.close <= SessionOf(later, calendar).value.close
    {
      assert later < day ==> ClosedBy(later, now, calendar);
      SessionWithinDay(later, calendar);
    }
  }
}
