/** The preview's simulation against the subscriptions' periods: where they start with the user's weeks they never limit
    it, and where they do not they can. */
module PreviewPeriod {
  import opened Numbers
  import opened Market
  import opened Amount
  import opened Subscriptions
  import opened Program
  import opened Preview
  import opened PreviewGate

  /** What a pull makes of a subscription: it counts in the running period, or opens the period of its clock. */
  function DrawnInPeriod(s: Subscription, total: u64, at: i64): Subscription {
    var period := s.periodHours * 3600;
    if period > 0 && at - s.periodStart >= period then
      s.(periodStart := SaturateI64(s.periodStart + (at - s.periodStart) / period * period), pulledInPeriod := total)
    else s.(pulledInPeriod := Min(s.pulledInPeriod + total, U64_MAX))
  }

  /** The week of the user at whose start a subscription's period starts. */
  function PeriodWeek(user: User, s: Subscription): int {
    (s.periodStart - user.enrolledAt) / WEEK_SECONDS
  }

  /** A live subscription by the week for the user's tier, its running period one of the user's weeks, with no more
      pulled in it than the user was in that week. */
  predicate Aligned(user: User, s: Subscription, clock: int) {
    && s.expiresAt == 0 && s.periodHours == 168
    && TRIAL_CAP <= s.amount && TierCap(user.settings.tier) <= s.amount
    && user.enrolledAt <= s.periodStart <= clock && (s.periodStart - user.enrolledAt) % WEEK_SECONDS == 0
    && (user.week == PeriodWeek(user, s) ==> s.pulledInPeriod <= user.weekSpent)
    && (user.week < PeriodWeek(user, s) ==> s.pulledInPeriod == 0)
  }

  /** So is the subscription of every enabled token. */
  predicate AlignedHeld(user: User, held: Pair<Option<Subscription>>, clock: int) {
    && (Enabled(user.settings.paymentTokens, 0) ==> held.first.Some? && Aligned(user, held.first.value, clock))
    && (Enabled(user.settings.paymentTokens, 1) ==> held.second.Some? && Aligned(user, held.second.value, clock))
  }

  /** The weeks of two clocks, by multiples of the week. */
  lemma PeriodWeekIs(user: User, s: Subscription, at: i64)
    requires 0 <= user.enrolledAt <= s.periodStart <= at && ClockInRange(at)
    requires (s.periodStart - user.enrolledAt) % WEEK_SECONDS == 0
    ensures if at - s.periodStart >= WEEK_SECONDS then PeriodWeek(user, s) < WeekAt(user, at)
            else WeekAt(user, at) == PeriodWeek(user, s)
    ensures var start := s.periodStart + (at - s.periodStart) / WEEK_SECONDS * WEEK_SECONDS;
            && s.periodStart <= start <= at && (start - user.enrolledAt) % WEEK_SECONDS == 0
            && (start - user.enrolledAt) / WEEK_SECONDS == WeekAt(user, at)
  {
    hide WeekAt, PeriodWeek;
    WeeksExact(user, at);
    var k := (s.periodStart - user.enrolledAt) / WEEK_SECONDS;
    assert PeriodWeek(user, s) == k by { PeriodWeekOf(user, s); }
    WeeksFrom(user.enrolledAt, k, s.periodStart, at);
  }

  lemma PeriodWeekOf(user: User, s: Subscription)
    ensures PeriodWeek(user, s) == (s.periodStart - user.enrolledAt) / WEEK_SECONDS
  {
  }

  /** Whole weeks from a start that is itself whole weeks after the first. */
  lemma WeeksFrom(first: int, k: int, start: int, at: int)
    requires start == first + k * WEEK_SECONDS && start <= at
    ensures var turn := start + (at - start) / WEEK_SECONDS * WEEK_SECONDS;
            && start <= turn <= at && (turn - first) % WEEK_SECONDS == 0
            && (turn - first) / WEEK_SECONDS == (at - first) / WEEK_SECONDS == k + (at - start) / WEEK_SECONDS
  {
    var j, r := (at - start) / WEEK_SECONDS, (at - start) % WEEK_SECONDS;
    assert at - first == (k + j) * WEEK_SECONDS + r;
  }

  /** An aligned subscription allows what the week does. */
  lemma AlignedAllows(user: User, s: Subscription, betaCap: u64, at: i64)
    requires 0 <= user.enrolledAt && ClockInRange(at) && Aligned(user, s, at) && user.week <= WeekAt(user, at)
    ensures RoomAt(user, betaCap, at) <= Remaining(Some(s), at)
  {
    PeriodWeekIs(user, s, at);
    hide WeekAt, PeriodWeek;
  }

  /** A pull leaves its token's subscription aligned, and the other's. */
  lemma DrawingStaysAligned(user: User, after: User, s: Subscription, total: u64, at: i64)
    requires 0 <= user.enrolledAt && ClockInRange(at) && Aligned(user, s, at) && user.week <= WeekAt(user, at)
    requires after.settings == user.settings && after.enrolledAt == user.enrolledAt
    requires after.week == WeekAt(user, at) && after.weekSpent == SpentAt(user, at) + total
    ensures Aligned(after, DrawnInPeriod(s, total, at), at) && Aligned(after, s, at)
  {
    PeriodWeekIs(user, s, at);
    hide WeekAt;
  }
  // A whole span

  /** At this clock the week of the user's counter has come, and the enabled tokens' subscriptions are aligned. */
  predicate AlignedAt(p: Position, clock: i64) {
    && 0 <= p.state.user.enrolledAt <= clock && p.state.user.week <= WeekAt(p.state.user, clock)
    && AlignedHeld(p.state.user, p.held, clock)
  }

  lemma AlignedLater(p: Position, clock: i64, later: i64)
    requires AlignedAt(p, clock) && 0 < clock <= later && ClockInRange(later)
    ensures AlignedAt(p, later)
  {
    hide Enabled, PeriodWeek;
    WeeksExact(p.state.user, clock);
    WeeksExact(p.state.user, later);
    hide WeekAt;
  }

  lemma PullWithinRoom(s: State, config: Config, token: u8, at: i64)
    requires token < 2
    ensures 0 <= SimulatedPull(s, config, token, at).Total() <= RoomAt(s.user, config.settings.userWeeklyCap, at)
    ensures SimulatedPull(s, config, token, at).Total() > 0 ==> Enabled(s.user.settings.paymentTokens, token)
  {
    hide PullAt, WeeklyCap, SpentAt, Enabled;
    PullWithinWeek(s.user, token, s.balances.At(token), config.settings.userWeeklyCap, config.calendar, at);
  }

  /** What a simulated sweep records. */
  lemma SimulatedCounts(s: State, config: Config, token: u8, at: i64)
    requires token < 2 && SimulatedPull(s, config, token, at).Total() > 0
    ensures var user, after := s.user, SweptOnce(s, config, token, at).user;
            && after.settings == user.settings && after.enrolledAt == user.enrolledAt
            && after.week == WeekAt(user, at)
            && after.weekSpent == SpentAt(user, at) + SimulatedPull(s, config, token, at).Total()
  {
    hide PullAt, WeekAt, WeeklyCap, Enabled, Recorded;
    PullIsRecorded(s.user, token, s.balances.At(token), config.settings.userWeeklyCap, config.calendar, at);
  }

  lemma AlignedOnce(p: Position, config: Config, token: u8, at: i64)
    requires token < 2 && ClockInRange(at) && AlignedAt(p, at)
    ensures Allowed(p, config, token, at)
    ensures AlignedAt(SimulatedOnce(p, config, token, at, DrawnInPeriod), at)
  {
    hide SimulatedPull, RoomAt, Remaining, SweptOnce, Aligned, DrawnInPeriod, WeekAt, SpentAt, Enabled;
    var user := p.state.user;
    PullWithinRoom(p.state, config, token, at);
    SimulatedIsSwept(p.state, config, token, at);
    var total := SimulatedPull(p.state, config, token, at).Total();
    if total > 0 {
      var after := SweptOnce(p.state, config, token, at).user;
      SimulatedCounts(p.state, config, token, at);
      WeekOnlyEnrollment(user, after, at);
      AlignedAllows(user, p.held.At(token).value, config.settings.userWeeklyCap, at);
      DrawingStaysAligned(user, after, p.held.At(token).value, total, at);
      if Enabled(user.settings.paymentTokens, 1 - token) {
        DrawingStaysAligned(user, after, p.held.At(1 - token).value, total, at);
      }
    }
  }

  /** Subscriptions whose periods start with the user's weeks never limit a simulation. */
  lemma {:induction false} AlignedDays(p: Position, config: Config, from: int, until: int, day: int, clock: i64)
    requires Span(from, until) && ClockInRange(until) && from / DAY_SECONDS <= day
    requires 0 < clock && AlignedAt(p, clock) && (clock <= from || clock / DAY_SECONDS < day)
    ensures AllowedDays(p, config, from, until, day, DrawnInPeriod)
    decreases until - day * DAY_SECONDS
  {
    hide SimulatedOnce, Allowed, AlignedAt, Instant, OpenFor;
    if day * DAY_SECONDS < until {
      var at := Instant(p.state.user.settings.engine, config.calendar, day, from, until);
      InstantIsFirst(p.state.user.settings.engine, config.calendar, day, from, until);
      if at.None? {
        AlignedDays(p, config, from, until, day + 1, clock);
      } else {
        AlignedLater(p, clock, at.value);
        AlignedOnce(p, config, 0, at.value);
        var first := SimulatedOnce(p, config, 0, at.value, DrawnInPeriod);
        AlignedOnce(first, config, 1, at.value);
        AlignedDays(
          SimulatedOnce(first, config, 1, at.value, DrawnInPeriod), config, from, until, day + 1, at.value);
      }
    }
  }

  /** Where the subscriptions' periods start with the user's weeks, the first day alone decides whether a simulated span
      is the program's. */
  lemma AlignedSpanIsMade(p: Position, config: Config, from: int, until: int)
    requires Span(from, until) && 0 < from <= until && ClockInRange(until)
    requires !config.paused && SweptBy(p.state.user, from / DAY_SECONDS) && AlignedAt(p, from)
    ensures var day := from / DAY_SECONDS;
            var at := Instant(p.state.user.settings.engine, config.calendar, day, from, until);
            MakesDays(p, config, from, until, day, DrawnInPeriod)
            <==> at.None? || FreeAt(p.state, config, at.value)
  {
    hide MakesDays, AllowedDays, AlignedAt, Instant, MadeDays, SweptDays, FreeAt;
    AlignedDays(p, config, from, until, from / DAY_SECONDS, from);
    SpanIsMade(p, config, from, until, DrawnInPeriod);
  }
  /** Of a user who enrolls there is nothing to decide: with the subscriptions that enrolling makes, any simulated span
      is the program's. */
  lemma NewcomersSpanIsMade(
    params: EnrollParams, balances: Pair<u64>, held: Pair<Option<Subscription>>, config: Config, now: i64, until: int)
    requires balances.first + PAYDAY <= U64_MAX && balances.second + PAYDAY <= U64_MAX
    requires params.tier < 2 && !config.paused && DAY_SECONDS <= now <= until && ClockInRange(until)
    requires forall token | 0 <= token < 2 && Enabled(params.paymentTokens, token) ::
               exists id :: held.At(token) == Some(Subscription(0, TIERS.At(params.tier), 168, now, 0, id))
    ensures MakesDays(
      Position(Paid(None, balances, params, now), held), config, now, until, now / DAY_SECONDS, DrawnInPeriod)
  {
    hide MakesDays, FreeAt, AlignedAt, Instant, Enabled, IncomeShare, MadeDays, SweptDays;
    var p := Position(Paid(None, balances, params, now), held);
    NewcomerIsAligned(params, balances, held, now);
    AlignedSpanIsMade(p, config, now, until);
    var at := Instant(params.engine, config.calendar, now / DAY_SECONDS, now, until);
    if at.Some? {
      NeverSweptIsFree(p.state, config, at.value);
    }
  }

  lemma NeverSweptIsFree(s: State, config: Config, at: i64)
    requires s.user.lastSweepDay == Pair(0, 0) && DAY_SECONDS <= at && ClockInRange(at)
    ensures FreeAt(s, config, at)
  {
    hide SimulatedPull, SweptOnce, Today;
    LaterThanDayOne(at);
    SweptKeepsDays(s, config, 0, at);
  }

  lemma LaterThanDayOne(at: i64)
    requires DAY_SECONDS <= at && ClockInRange(at)
    ensures 0 < Today(at)
  {
  }

  lemma NewcomerIsAligned(
    params: EnrollParams, balances: Pair<u64>, held: Pair<Option<Subscription>>, now: i64)
    requires balances.first + PAYDAY <= U64_MAX && balances.second + PAYDAY <= U64_MAX
    requires params.tier < 2 && 0 < now && ClockInRange(now)
    requires forall token | 0 <= token < 2 && Enabled(params.paymentTokens, token) ::
               exists id :: held.At(token) == Some(Subscription(0, TIERS.At(params.tier), 168, now, 0, id))
    ensures AlignedAt(Position(Paid(None, balances, params, now), held), now)
  {
    hide Enabled, IncomeShare;
    assert held.first == held.At(0) && held.second == held.At(1);
  }

  // A return between two periods

  const LATE := FIRST + 2 * WEEK_SECONDS - 3600
  const NEXT := FIRST + 2 * WEEK_SECONDS

  /** The return in the last hour of a week, with the subscription made then. */
  function Late(): Position {
    Position(
      State(
        User(SaverParams(), FIRST, 0, 1_000_000, FIRST + 60, 100_000_000, Active, LATE, Pair(20, 0)),
        Pair(1_000_000_000, 0), 0),
      Pair(Some(Subscription(0, 10_000_000, 168, LATE, 0, 1)), None))
  }

  /** At the end of that week. */
  function Drained(): Position {
    Position(
      State(
        User(SaverParams(), FIRST, 1, 10_000_000, LATE, 91_000_000, Active, LATE, Pair(33, 0)),
        Pair(990_000_000, 0), 10_000_000),
      Pair(Some(Subscription(0, 10_000_000, 168, LATE, 10_000_000, 1)), None))
  }

  lemma LatePull(calendar: MarketCalendar)
    ensures PullAt(Late().state.user, 0, 1_000_000_000, 25_000_000, calendar, LATE) == Pull(1_000_000, 9_000_000)
    ensures PullAt(Drained().state.user, 0, 990_000_000, 25_000_000, calendar, NEXT) == Pull(1_000_000, 9_000_000)
  {
    hide UsMarketOpen;
  }

  lemma LateOnce(config: Config)
    requires !config.paused && config.settings.userWeeklyCap == 25_000_000
    ensures Makes(Late(), config, 0, LATE)
    ensures MadeOnce(Late(), config, 0, LATE, DrawnInPeriod) == Drained()
  {
    hide PullAt, UsMarketOpen, SweepGate;
    LatePull(config.calendar);
    assert Enabled(1, 0);
    assert SimulatedPull(Late().state, config, 0, LATE) == Pull(1_000_000, 9_000_000);
    assert Remaining(Late().held.first, LATE) == 10_000_000;
    SimulatedSweepIsMade(Late().state, config, 0, LATE, Late().held.first);
  }

  lemma NotEnabled(config: Config)
    ensures Makes(Drained(), config, 1, LATE)
    ensures MadeOnce(Drained(), config, 1, LATE, DrawnInPeriod) == Drained()
  {
    hide SweepGate, PullAt;
    assert !Enabled(1, 1);
    NothingMade(Drained().state, config, 1, LATE, None);
  }

  lemma LateSpan(config: Config)
    requires !config.paused && config.settings.userWeeklyCap == 25_000_000
    ensures MakesDays(Late(), config, LATE, NEXT, 33, DrawnInPeriod)
    ensures MadeDays(Late(), config, LATE, NEXT, 33, DrawnInPeriod) == Drained()
  {
    hide SweepGate, SimulatedPull, OpenFor, UsMarketOpen, MadeOnce;
    LateOnce(config);
    NotEnabled(config);
  }

  /** No enabled token's subscription allows anything. */
  predicate NothingHeld(p: Position, at: i64) {
    && (Enabled(p.state.user.settings.paymentTokens, 0) ==> Remaining(p.held.first, at) == 0)
    && (Enabled(p.state.user.settings.paymentTokens, 1) ==> Remaining(p.held.second, at) == 0)
  }

  /** A span in which the subscriptions never allow anything pulls nothing. */
  lemma {:induction false} NothingHeldDays(p: Position, config: Config, from: int, until: int, day: int, draw: Draw)
    requires Span(from, until) && from / DAY_SECONDS <= day
    requires forall d | day <= d && d * DAY_SECONDS < until ::
               var at := Instant(p.state.user.settings.engine, config.calendar, d, from, until);
               at.Some? ==> NothingHeld(p, at.value)
    ensures MadeDays(p, config, from, until, day, draw) == p
    decreases until - day * DAY_SECONDS
  {
    hide MadeOnce, NothingHeld, Instant;
    if day * DAY_SECONDS < until {
      var at := Instant(p.state.user.settings.engine, config.calendar, day, from, until);
      if at.Some? {
        NothingHeldOnce(p, config, 0, at.value, draw);
        NothingHeldOnce(p, config, 1, at.value, draw);
      }
      NothingHeldDays(p, config, from, until, day + 1, draw);
    }
  }

  lemma NothingHeldOnce(p: Position, config: Config, token: u8, at: i64, draw: Draw)
    requires token < 2 && NothingHeld(p, at)
    ensures MadeOnce(p, config, token, at, draw) == p
  {
    hide SweepGate, PullAt, Remaining, Enabled;
    NothingMade(p.state, config, token, at, p.held.At(token));
  }

  /** Ten dollars are due, and allowed by the week, at the start of the next; the subscription allows nothing in it. */
  lemma StuckWeek(config: Config)
    requires !config.paused && config.settings.userWeeklyCap == 25_000_000
    ensures var next := Drained().(state := Drained().state.(total := 0));
            && FreeAt(next.state, config, NEXT)
            && SimulatedPull(next.state, config, 0, NEXT) == Pull(1_000_000, 9_000_000)
            && SweepGate(config, next.state.user, InputFor(config, next.state, 0, next.held.first), NEXT)
               == Err(NothingToSweep)
            && MadeDays(next, config, NEXT, NEXT + WEEK_SECONDS, 34, DrawnInPeriod) == next
  {
    hide PullAt, SweepGate, FreeAt, Instant, MadeDays;
    var next := Drained().(state := Drained().state.(total := 0));
    LatePull(config.calendar);
    assert Enabled(1, 0);
    SaverIsFree(next.state, config, NEXT);
    forall d | 34 <= d && d * DAY_SECONDS < NEXT + WEEK_SECONDS
      ensures var at := Instant(Daily, config.calendar, d, NEXT, NEXT + WEEK_SECONDS);
              at.Some? ==> NothingHeld(next, at.value)
    {
      DailyInstant(config.calendar, d, NEXT, NEXT + WEEK_SECONDS);
      DrainedUntil(d * DAY_SECONDS);
    }
    NothingHeldDays(next, config, NEXT, NEXT + WEEK_SECONDS, 34, DrawnInPeriod);
    DrainedUntil(NEXT);
    NothingLeft(next.state, config, 0, NEXT, next.held.first);
  }

  lemma NothingLeft(s: State, config: Config, token: u8, at: i64, subscription: Option<Subscription>)
    requires token < 2 && !config.paused && OpenFor(s.user.settings.engine, config.calendar, at)
    requires s.user.lastSweepDay.At(token) < Today(at)
    requires SimulatedPull(s, config, token, at).Total() > 0 && Remaining(subscription, at) == 0
    ensures SweepGate(config, s.user, InputFor(config, s, token, subscription), at) == Err(NothingToSweep)
  {
    hide PullAt, Remaining, UsMarketOpen, Enabled, Today;
    var pull := PullAt(s.user, token, s.balances.At(token), config.settings.userWeeklyCap, config.calendar, at);
    assert SimulatedPull(s, config, token, at) == pull;
    CappedAtNothing(pull);
  }

  lemma CappedAtNothing(pull: Pull)
    ensures pull.Capped(0) == Pull(0, 0)
  {
  }

  lemma DailyInstant(calendar: MarketCalendar, day: int, from: int, until: int)
    requires from <= day * DAY_SECONDS < until
    ensures Instant(Daily, calendar, day, from, until) == Some(day * DAY_SECONDS)
  {
  }

  lemma DrainedUntil(at: i64)
    requires NEXT <= at <= NEXT + 6 * DAY_SECONDS
    ensures Remaining(Drained().held.first, at) == 0
    ensures NothingHeld(Drained(), at)
  {
    assert !Enabled(1, 1);
  }

  lemma SaverIsFree(s: State, config: Config, at: i64)
    requires s.user.settings.paymentTokens == 1 && s.user.lastSweepDay.first < Today(at)
    ensures FreeAt(s, config, at)
  {
    hide PullAt, SweptOnce;
    SweptKeepsDays(s, config, 0, at);
    assert !Enabled(1, 1);
  }

  lemma LateCourse(config: Config)
    requires !config.paused && config.settings.userWeeklyCap == 25_000_000
    ensures WeekEnd(Late().state.user, LATE) == NEXT
    ensures CourseOf(Late().state, config, LATE).nextEnd.total == 10_000_000
  {
    hide MakesDays, MadeDays, SweptDays, WeekAt, WeeklyCap, Moves, OpenFor, Cushioned, RoomAt;
    LateWeek();
    LateSpan(config);
    CourseWithinRules(Late().state, config, LATE);
    MadeDaysAreSimulated(Late(), Late(), config, LATE, NEXT, 33, DrawnInPeriod);
    NextTen(config, CourseOf(Late().state, config, LATE).weekEnd.(total := 0));
  }

  lemma LateWeek()
    ensures WeekAt(Late().state.user, LATE) == 1 && WeekEnd(Late().state.user, LATE) == NEXT
    ensures WeeklyCap(Late().state.user, 25_000_000, NEXT) == 10_000_000
  {
  }

  /** At least ten dollars of that week are simulated. */
  lemma NextTen(config: Config, s: State)
    requires config.settings.userWeeklyCap == 25_000_000
    requires s == Drained().state.(total := 0, user := Drained().state.user.(lastSweepDay := s.user.lastSweepDay))
    ensures 10_000_000 <= SweptDays(s, config, NEXT, NEXT + WEEK_SECONDS, 34).total
  {
    hide PullAt, SweptOnce, Instant;
    LatePull(config.calendar);
    assert Enabled(1, 0);
    var drained := Drained().(state := Drained().state.(total := 0));
    PullIgnoresDays(drained, Position(s, drained.held), config, 0, NEXT);
    SimulatedIsSwept(s, config, 0, NEXT);
    var first := SweptOnce(s, config, 0, NEXT);
    SweptOnceMoves(first, config, 1, NEXT);
    DailyInstant(config.calendar, 34, NEXT, NEXT + WEEK_SECONDS);
    SweptDaysMove(SweptOnce(first, config, 1, NEXT), config, NEXT, NEXT + WEEK_SECONDS, 35);
  }

  /** The preview of a return in the last hour of a user's week, with the account left behind two weeks before and the
      subscription made on returning: the rest of the week is as simulated, and takes all the subscription's first
      period allows. Ten dollars are shown of the next week, at whose start the program finds nothing to sweep, as on
      all of its days, though no token was swept on them. */
  lemma ReturnOffPeriod(config: Config)
    requires !config.paused && config.settings.userWeeklyCap == 25_000_000
    ensures Left().Ok?
    ensures var paid := Paid(Some(Left().value), Pair(0, 0), SaverParams(), LATE);
            var p := Position(paid, Late().held);
            var made := MadeDays(p, config, LATE, NEXT, LATE / DAY_SECONDS, DrawnInPeriod);
            var next := made.(state := made.state.(total := 0));
            && WeekEnd(paid.user, LATE) == NEXT
            && MakesDays(p, config, LATE, NEXT, LATE / DAY_SECONDS, DrawnInPeriod)
            && FreeAt(next.state, config, NEXT)
            && SimulatedPull(next.state, config, 0, NEXT) == Pull(1_000_000, 9_000_000)
            && SweepGate(config, next.state.user, InputFor(config, next.state, 0, next.held.first), NEXT)
               == Err(NothingToSweep)
            && MadeDays(next, config, NEXT, NEXT + WEEK_SECONDS, NEXT / DAY_SECONDS, DrawnInPeriod).state.total == 0
            && CourseOf(paid, config, LATE).nextEnd.total == 10_000_000
  {
    hide MakesDays, MadeDays, SweepGate, FreeAt, SimulatedPull, SweptDays, WeekAt, Left;
    LeftIs();
    assert Paid(Some(Left().value), Pair(0, 0), SaverParams(), LATE) == Late().state;
    LateSpan(config);
    StuckWeek(config);
    LateCourse(config);
  }
}
