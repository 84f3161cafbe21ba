/** The preview's simulation against the program's gate: which simulated sweeps the program would make. */
module PreviewGate {
  import opened Numbers
  import opened Market
  import opened Amount
  import opened Subscriptions
  import opened Program
  import opened Preview

  /** What the builder would pass for a simulated sweep. */
  function InputFor(config: Config, s: State, token: u8, subscription: Option<Subscription>): SweepInput
    requires token < 2
  {
    var payment := config.paymentTokens.At(token);
    SweepInput(
      token, Some(s.balances.At(token)), payment.mint, payment.tokenProgram,
      PlanAddress(token, s.user.settings.tier), subscription)
  }

  /** The pull a simulation makes of an enabled token. */
  function SimulatedPull(s: State, config: Config, token: u8, at: i64): Pull
    requires token < 2
  {
    if !Enabled(s.user.settings.paymentTokens, token) then Pull(0, 0)
    else PullAt(s.user, token, s.balances.At(token), config.settings.userWeeklyCap, config.calendar, at)
  }

  /** A simulated sweep is one the program makes, with the same pull, exactly if the token was not swept that day and
      the subscription allows the pull: the simulation reads neither. */
  lemma SimulatedSweepIsMade(s: State, config: Config, token: u8, at: i64, subscription: Option<Subscription>)
    requires token < 2 && !config.paused && OpenFor(s.user.settings.engine, config.calendar, at)
    requires SimulatedPull(s, config, token, at).Total() > 0
    ensures var pull := SimulatedPull(s, config, token, at);
            SweepGate(config, s.user, InputFor(config, s, token, subscription), at) == Ok(pull)
            <==> s.user.lastSweepDay.At(token) < Today(at) && pull.Total() <= Remaining(subscription, at)
  {
    hide PullAt, Remaining, UsMarketOpen, Enabled;
  }

  // Over a span

  /** A state and what the user's subscriptions to the two tokens' plans hold. */
  datatype Position = Position(state: State, held: Pair<Option<Subscription>>)

  /** What a pull of an amount at a clock makes of a subscription. */
  type Draw = (Subscription, u64, i64) -> Subscription

  function Drawn(held: Pair<Option<Subscription>>, token: u8, total: u64, at: i64, draw: Draw)
    : Pair<Option<Subscription>>
    requires token < 2
  {
    if held.At(token).None? then held else held.With(token, Some(draw(held.At(token).value, total, at)))
  }

  /** A sweep as the program makes it, its day recorded, or nothing when its gate refuses. */
  function MadeOnce(p: Position, config: Config, token: u8, at: i64, draw: Draw): Position
    requires token < 2
  {
    var s := p.state;
    var gate := SweepGate(config, s.user, InputFor(config, s, token, p.held.At(token)), at);
    if gate.Err? then p
    else
      GateWithinBalance(config, s, token, at, p.held.At(token));
      Position(
        State(
          Swept(s.user, token, gate.value, at),
          s.balances.With(token, s.balances.At(token) - gate.value.Total()),
          s.total + gate.value.Total()),
        Drawn(p.held, token, gate.value.Total(), at, draw))
  }

  lemma GateWithinBalance(config: Config, s: State, token: u8, at: i64, subscription: Option<Subscription>)
    requires token < 2
    requires SweepGate(config, s.user, InputFor(config, s, token, subscription), at).Ok?
    ensures 0 <= SweepGate(config, s.user, InputFor(config, s, token, subscription), at).value.Total()
              <= s.balances.At(token)
  {
    hide EngineDue, WeeklyCap, SpentAt, Remaining, UsMarketOpen;
  }

  function MadeAt(p: Position, config: Config, at: i64, draw: Draw): Position {
    MadeOnce(MadeOnce(p, config, 0, at, draw), config, 1, at, draw)
  }

  /** The program's sweeps at the simulation's instants, from `day` on. */
  function MadeDays(p: Position, config: Config, from: int, until: int, day: int, draw: Draw): Position
    requires Span(from, until)
    decreases until - day * DAY_SECONDS
  {
    if day * DAY_SECONDS >= until then p
    else
      var at := Instant(p.state.user.settings.engine, config.calendar, day, from, until);
      MadeDays(if at.Some? then MadeAt(p, config, at.value, draw) else p, config, from, until, day + 1, draw)
  }

  /** The sweep the simulation makes from here, if any, is the program's. */
  ghost predicate Makes(p: Position, config: Config, token: u8, at: i64)
    requires token < 2
  {
    var pull := SimulatedPull(p.state, config, token, at);
    pull.Total() > 0 ==>
      SweepGate(config, p.state.user, InputFor(config, p.state, token, p.held.At(token)), at) == Ok(pull)
  }

  ghost predicate MakesAt(p: Position, config: Config, at: i64, draw: Draw) {
    Makes(p, config, 0, at) && Makes(MadeOnce(p, config, 0, at, draw), config, 1, at)
  }

  /** Every sweep simulated from `day` on is the program's. */
  ghost predicate MakesDays(p: Position, config: Config, from: int, until: int, day: int, draw: Draw)
    requires Span(from, until)
    decreases until - day * DAY_SECONDS
  {
    day * DAY_SECONDS < until ==>
      var at := Instant(p.state.user.settings.engine, config.calendar, day, from, until);
      if at.None? then MakesDays(p, config, from, until, day + 1, draw)
      else
        && MakesAt(p, config, at.value, draw)
        && MakesDays(MadeAt(p, config, at.value, draw), config, from, until, day + 1, draw)
  }

  // What a caller can read off the simulation

  /** A simulated sweep, with what its pull makes of the subscription. */
  function SimulatedOnce(p: Position, config: Config, token: u8, at: i64, draw: Draw): Position
    requires token < 2
  {
    SimulatedIsSwept(p.state, config, token, at);
    var total := SimulatedPull(p.state, config, token, at).Total();
    Position(
      SweptOnce(p.state, config, token, at),
      if total == 0 then p.held else Drawn(p.held, token, total, at, draw))
  }

  function SimulatedAt(p: Position, config: Config, at: i64, draw: Draw): Position {
    SimulatedOnce(SimulatedOnce(p, config, 0, at, draw), config, 1, at, draw)
  }

  /** Nothing would be pulled of the token, or its subscription allows the pull. */
  predicate Allowed(p: Position, config: Config, token: u8, at: i64)
    requires token < 2
  {
    var total := SimulatedPull(p.state, config, token, at).Total();
    total == 0 || total <= Remaining(p.held.At(token), at)
  }

  predicate AllowedAt(p: Position, config: Config, at: i64, draw: Draw) {
    Allowed(p, config, 0, at) && Allowed(SimulatedOnce(p, config, 0, at, draw), config, 1, at)
  }

  /** The subscriptions allow every pull simulated from `day` on. */
  predicate AllowedDays(p: Position, config: Config, from: int, until: int, day: int, draw: Draw)
    requires Span(from, until)
    decreases until - day * DAY_SECONDS
  {
    day * DAY_SECONDS < until ==>
      var at := Instant(p.state.user.settings.engine, config.calendar, day, from, until);
      if at.None? then AllowedDays(p, config, from, until, day + 1, draw)
      else
        && AllowedAt(p, config, at.value, draw)
        && AllowedDays(SimulatedAt(p, config, at.value, draw), config, from, until, day + 1, draw)
  }

  /** Nothing would be pulled of the token, or it was not swept on the day of `at`. */
  predicate Free(s: State, config: Config, token: u8, at: i64)
    requires token < 2
  {
    SimulatedPull(s, config, token, at).Total() == 0 || s.user.lastSweepDay.At(token) < Today(at)
  }

  /** Both tokens free at the day's instant, the second after the first's sweep. */
  predicate FreeAt(s: State, config: Config, at: i64) {
    Free(s, config, 0, at) && Free(SweptOnce(s, config, 0, at), config, 1, at)
  }

  // One sweep of each

  /** The same but for the days of the last sweeps, which a simulation does not record. */
  predicate SameButDays(made: Position, simulated: Position) {
    && simulated.held == made.held
    && simulated.state
       == made.state.(user := made.state.user.(lastSweepDay := simulated.state.user.lastSweepDay))
  }

  /** What a passed gate has checked. */
  lemma GateNeeds(config: Config, user: User, input: SweepInput, now: i64)
    requires SweepGate(config, user, input, now).Ok?
    ensures input.token < 2 && input.balance.Some? && Enabled(user.settings.paymentTokens, input.token)
    ensures 0 < SweepGate(config, user, input, now).value.Total()
    ensures SweepGate(config, user, input, now).value
            == PullAt(user, input.token, input.balance.value, config.settings.userWeeklyCap, config.calendar, now)
                 .Capped(Remaining(input.subscription, now))
  {
    hide PullAt, Remaining, UsMarketOpen, Enabled;
  }

  /** What the simulation does not pull, or the subscription does not allow anything of, the program does not sweep. */
  lemma NothingMade(s: State, config: Config, token: u8, at: i64, subscription: Option<Subscription>)
    requires token < 2
    requires SimulatedPull(s, config, token, at).Total() == 0 || Remaining(subscription, at) == 0
    ensures SweepGate(config, s.user, InputFor(config, s, token, subscription), at).Err?
  {
    hide PullAt, Remaining, SweepGate, Enabled;
    var input := InputFor(config, s, token, subscription);
    if SweepGate(config, s.user, input, at).Ok? {
      GateNeeds(config, s.user, input, at);
    }
  }

  lemma PullIgnoresDays(made: Position, simulated: Position, config: Config, token: u8, at: i64)
    requires token < 2 && SameButDays(made, simulated)
    ensures SimulatedPull(made.state, config, token, at) == SimulatedPull(simulated.state, config, token, at)
  {
    hide Enabled, UsMarketOpen;
  }

  lemma SimulatedIsSwept(s: State, config: Config, token: u8, at: i64)
    requires token < 2
    ensures 0 <= SimulatedPull(s, config, token, at).Total() <= s.balances.At(token)
    ensures var pull := SimulatedPull(s, config, token, at);
            SweptOnce(s, config, token, at)
            == if pull.Total() == 0 then s
               else State(Recorded(s.user, pull, at), s.balances.With(token, s.balances.At(token) - pull.Total()),
                          s.total + pull.Total())
  {
    hide PullAt, Recorded, Enabled;
    PullWithinBalance(s.user, token, s.balances.At(token), config.settings.userWeeklyCap, config.calendar, at);
  }

  /** Where the program makes the simulated sweep, it leaves the simulated state. */
  lemma MadeOnceIsSimulated(made: Position, simulated: Position, config: Config, token: u8, at: i64, draw: Draw)
    requires token < 2 && SameButDays(made, simulated)
    requires Makes(made, config, token, at)
    ensures SameButDays(MadeOnce(made, config, token, at, draw), SimulatedOnce(simulated, config, token, at, draw))
  {
    PullIgnoresDays(made, simulated, config, token, at);
    SimulatedIsSwept(simulated.state, config, token, at);
    if SimulatedPull(made.state, config, token, at).Total() == 0 {
      NothingMade(made.state, config, token, at, made.held.At(token));
    }
    hide SimulatedPull, SweptOnce, WeekAt, SweepGate, Drawn;
  }

  lemma MakesIff(made: Position, simulated: Position, config: Config, token: u8, at: i64)
    requires token < 2 && !config.paused && SameButDays(made, simulated)
    requires OpenFor(made.state.user.settings.engine, config.calendar, at)
    ensures Makes(made, config, token, at)
            <==> Free(made.state, config, token, at) && Allowed(simulated, config, token, at)
  {
    hide Remaining, UsMarketOpen, Enabled, SweepGate, OpenFor, SimulatedPull;
    PullIgnoresDays(made, simulated, config, token, at);
    SimulatedIsSwept(made.state, config, token, at);
    if SimulatedPull(made.state, config, token, at).Total() > 0 {
      SimulatedSweepIsMade(made.state, config, token, at, made.held.At(token));
    }
  }

  /** A sweep the program makes leaves the token swept that day, the settings and the other token's day as they were. */
  lemma MadeOnceDays(p: Position, config: Config, token: u8, at: i64, draw: Draw)
    requires token < 2
    ensures var user, after := p.state.user, MadeOnce(p, config, token, at, draw).state.user;
            && after.settings == user.settings
            && after.lastSweepDay.At(1 - token) == user.lastSweepDay.At(1 - token)
            && (after.lastSweepDay.At(token) == user.lastSweepDay.At(token)
                || after.lastSweepDay.At(token) == Today(at))
  {
    hide SweepGate, WeekAt, Drawn;
  }

  lemma SweptKeepsDays(s: State, config: Config, token: u8, at: i64)
    requires token < 2
    ensures SweptOnce(s, config, token, at).user.lastSweepDay == s.user.lastSweepDay
    ensures SweptOnce(s, config, token, at).user.settings == s.user.settings
  {
    hide PullAt, WeekAt, Enabled;
  }

  /** Both sweeps of an instant, and what they leave. */
  lemma MakesAtIff(made: Position, simulated: Position, config: Config, at: i64, draw: Draw)
    requires !config.paused && SameButDays(made, simulated)
    requires OpenFor(made.state.user.settings.engine, config.calendar, at)
    ensures MakesAt(made, config, at, draw)
            <==> FreeAt(made.state, config, at) && AllowedAt(simulated, config, at, draw)
    ensures MakesAt(made, config, at, draw) ==>
              SameButDays(MadeAt(made, config, at, draw), SimulatedAt(simulated, config, at, draw))
  {
    hide SweepGate, SimulatedPull, OpenFor, Makes, MadeOnce, SweptOnce, Allowed, SimulatedOnce;
    var first, next := MadeOnce(made, config, 0, at, draw), SimulatedOnce(simulated, config, 0, at, draw);
    MakesIff(made, simulated, config, 0, at);
    if Makes(made, config, 0, at) {
      MadeOnceIsSimulated(made, simulated, config, 0, at, draw);
      MadeOnceDays(made, config, 0, at, draw);
      MakesIff(first, next, config, 1, at);
      FreeAfter(made, config, at, draw);
      if Makes(first, config, 1, at) {
        MadeOnceIsSimulated(first, next, config, 1, at, draw);
      }
    }
  }

  /** Whether the second token is free after the first's sweep does not depend on who made it. */
  lemma FreeAfter(made: Position, config: Config, at: i64, draw: Draw)
    requires Makes(made, config, 0, at)
    ensures Free(MadeOnce(made, config, 0, at, draw).state, config, 1, at)
            <==> Free(SweptOnce(made.state, config, 0, at), config, 1, at)
  {
    hide SweepGate, SimulatedPull, Makes, MadeOnce, SweptOnce;
    MadeOnceIsSimulated(made, made, config, 0, at, draw);
    MadeOnceDays(made, config, 0, at, draw);
    SweptKeepsDays(made.state, config, 0, at);
    PullIgnoresDays(
      MadeOnce(made, config, 0, at, draw), SimulatedOnce(made, config, 0, at, draw), config, 1, at);
  }

  // All of a span

  /** Neither token was swept after `day`. */
  predicate SweptBy(user: User, day: int) {
    user.lastSweepDay.first <= day && user.lastSweepDay.second <= day
  }

  lemma DayMade(p: Position, config: Config, at: i64, day: int, draw: Draw)
    requires ClockInRange(at) && at / DAY_SECONDS == day && SweptBy(p.state.user, day)
    ensures Today(at) == day
    ensures SweptBy(MadeAt(p, config, at, draw).state.user, day)
    ensures MadeAt(p, config, at, draw).state.user.settings == p.state.user.settings
  {
    hide MadeOnce;
    MadeOnceDays(p, config, 0, at, draw);
    MadeOnceDays(MadeOnce(p, config, 0, at, draw), config, 1, at, draw);
  }

  /** On the days after the last sweeps only the subscriptions decide. */
  lemma {:induction false} LaterDaysMade(
    made: Position, simulated: Position, config: Config, from: int, until: int, day: int, draw: Draw)
    requires Span(from, until) && ClockInRange(until) && from / DAY_SECONDS <= day && 0 < day
    requires !config.paused && SweptBy(made.state.user, day - 1) && SameButDays(made, simulated)
    ensures MakesDays(made, config, from, until, day, draw) <==> AllowedDays(simulated, config, from, until, day, draw)
    decreases until - day * DAY_SECONDS
  {
    hide MadeOnce, SweptOnce, SimulatedPull, Makes, Instant, OpenFor, Allowed, SimulatedOnce;
    if day * DAY_SECONDS < until {
      var at := Instant(made.state.user.settings.engine, config.calendar, day, from, until);
      InstantIsFirst(made.state.user.settings.engine, config.calendar, day, from, until);
      if at.None? {
        LaterDaysMade(made, simulated, config, from, until, day + 1, draw);
      } else {
        DayMade(made, config, at.value, day, draw);
        SweptKeepsDays(made.state, config, 0, at.value);
        MakesAtIff(made, simulated, config, at.value, draw);
        if MakesAt(made, config, at.value, draw) {
          LaterDaysMade(
            MadeAt(made, config, at.value, draw), SimulatedAt(simulated, config, at.value, draw),
            config, from, until, day + 1, draw);
        }
      }
    }
  }

  lemma {:induction false} MadeDaysAreSimulated(
    made: Position, simulated: Position, config: Config, from: int, until: int, day: int, draw: Draw)
    requires Span(from, until) && SameButDays(made, simulated) && !config.paused && from / DAY_SECONDS <= day
    requires MakesDays(made, config, from, until, day, draw)
    ensures var after, s := MadeDays(made, config, from, until, day, draw).state,
                            SweptDays(simulated.state, config, from, until, day);
            s == after.(user := after.user.(lastSweepDay := s.user.lastSweepDay))
    decreases until - day * DAY_SECONDS
  {
    hide MadeOnce, SweptOnce, Makes, Instant, OpenFor, SimulatedPull;
    if day * DAY_SECONDS < until {
      var at := Instant(made.state.user.settings.engine, config.calendar, day, from, until);
      InstantIsFirst(made.state.user.settings.engine, config.calendar, day, from, until);
      if at.None? {
        MadeDaysAreSimulated(made, simulated, config, from, until, day + 1, draw);
      } else {
        MakesAtIff(made, simulated, config, at.value, draw);
        MadeDaysAreSimulated(
          MadeAt(made, config, at.value, draw), SimulatedAt(simulated, config, at.value, draw),
          config, from, until, day + 1, draw);
      }
    }
  }

  /** A whole simulated span is the program's exactly if on its first day no token that would be pulled was swept
      already and at each of its instants the subscriptions, drawn on by the span's own pulls, allow what would be
      pulled; and then the program's sweeps leave the simulated state. Any account at the clock meets `SweptBy`. */
  lemma SpanIsMade(p: Position, config: Config, from: int, until: int, draw: Draw)
    requires Span(from, until) && 0 < from <= until && ClockInRange(until)
    requires !config.paused && SweptBy(p.state.user, from / DAY_SECONDS)
    ensures var day := from / DAY_SECONDS;
            var at := Instant(p.state.user.settings.engine, config.calendar, day, from, until);
            MakesDays(p, config, from, until, day, draw)
            <==> (at.None? || FreeAt(p.state, config, at.value)) && AllowedDays(p, config, from, until, day, draw)
    ensures var day := from / DAY_SECONDS;
            var made := MadeDays(p, config, from, until, day, draw).state;
            var s := SweptDays(p.state, config, from, until, day);
            MakesDays(p, config, from, until, day, draw) ==>
              s == made.(user := made.user.(lastSweepDay := s.user.lastSweepDay))
  {
    hide MadeOnce, SweptOnce, SimulatedPull, Makes, Instant, OpenFor, MadeDays, SweptDays, FreeAt, Allowed;
    hide SimulatedOnce;
    var day := from / DAY_SECONDS;
    var at := Instant(p.state.user.settings.engine, config.calendar, day, from, until);
    InstantIsFirst(p.state.user.settings.engine, config.calendar, day, from, until);
    if day * DAY_SECONDS < until {
      if at.None? {
        LaterDaysMade(p, p, config, from, until, day + 1, draw);
      } else {
        DayMade(p, config, at.value, day, draw);
        MakesAtIff(p, p, config, at.value, draw);
        if MakesAt(p, config, at.value, draw) {
          LaterDaysMade(
            MadeAt(p, config, at.value, draw), SimulatedAt(p, config, at.value, draw),
            config, from, until, day + 1, draw);
        }
      }
    }
    if MakesDays(p, config, from, until, day, draw) {
      MadeDaysAreSimulated(p, p, config, from, until, day, draw);
    }
  }

  // A return on the day of a sweep

  const FIRST := 20 * DAY_SECONDS
  const SAVER: Key := 7

  /** Of a daily saver at the smallest tier. */
  function SaverParams(): EnrollParams {
    EnrollParams(0, 1, 0, Daily, 1_000_000, true, 0, Pair(0, 0), 0, EMPTY_LABEL)
  }

  /** Enrolled, swept of the day's dollar within the same minute, and then exited. */
  function Left(): Result<User> {
    var swept := Swept(Enrolled(SaverParams(), FIRST), 0, Pull(1_000_000, 0), FIRST + 60);
    var live := Subscription(0, 10_000_000, 168, FIRST, 1_000_000, 1);
    ExitedUser(
      swept, SAVER,
      [AccountInfo(PlanAddress(0, 0), None), AccountInfo(SubscriptionAddress(0, 0, SAVER), Some(live))], FIRST + 120)
  }

  /** The preview of a return an hour later: it sweeps at once, four dollars of what the payday sets aside, where the
      program answers that the day's sweep is done. */
  lemma ReturnOnSweepDay(config: Config, subscription: Option<Subscription>)
    requires !config.paused && config.settings.userWeeklyCap == 25_000_000
    ensures Left().Ok?
    ensures var now := FIRST + 3600;
            var paid := Paid(Some(Left().value), Pair(0, 0), SaverParams(), now);
            && Instant(Daily, config.calendar, now / DAY_SECONDS, now, now + DAY_SECONDS) == Some(now)
            && SweptOnce(paid, config, 0, now).total == 4_000_000
            && SweepGate(config, paid.user, InputFor(config, paid, 0, subscription), now) == Err(AlreadySwept)
            && !FreeAt(paid, config, now)
  {
    hide UsMarketOpen, Remaining, PullAt, Left, Recorded, SweepGate, SweptOnce, FreeAt;
    LeftIs();
    var now := FIRST + 3600;
    var paid := Paid(Some(Left().value), Pair(0, 0), SaverParams(), now);
    PaidIs();
    LeftPull(config.calendar);
    SimulatedIsSwept(paid, config, 0, now);
    RefusedToday(config, paid.user, InputFor(config, paid, 0, subscription), now);
    NotFree(paid, config, now);
  }

  /** What the preview starts from. */
  function Back(): State {
    State(
      User(SaverParams(), FIRST, 0, 1_000_000, FIRST + 60, 100_000_000, Active, FIRST + 3600, Pair(20, 0)),
      Pair(1_000_000_000, 0), 0)
  }

  lemma PaidIs()
    requires Left().Ok?
    ensures Paid(Some(Left().value), Pair(0, 0), SaverParams(), FIRST + 3600) == Back()
    ensures Enabled(Back().user.settings.paymentTokens, 0)
  {
    hide Left;
    LeftIs();
  }

  lemma RefusedToday(config: Config, user: User, input: SweepInput, now: i64)
    requires !config.paused && input.token < 2 && Today(now) <= user.lastSweepDay.At(input.token)
    ensures SweepGate(config, user, input, now) == Err(AlreadySwept)
  {
    hide PullAt, Remaining, UsMarketOpen;
  }

  lemma NotFree(s: State, config: Config, at: i64)
    requires SimulatedPull(s, config, 0, at).Total() > 0 && Today(at) <= s.user.lastSweepDay.At(0)
    ensures !FreeAt(s, config, at)
  {
    hide SimulatedPull, SweptOnce;
  }

  lemma LeftIs()
    ensures Left().Ok?
    ensures Left().value
            == User(CLEARED, FIRST, 0, 1_000_000, FIRST + 60, 0, Exited, FIRST, Pair(20, 0))
  {
  }

  lemma LeftPull(calendar: MarketCalendar)
    ensures PullAt(Back().user, 0, 1_000_000_000, 25_000_000, calendar, FIRST + 3600) == Pull(0, 4_000_000)
  {
    hide UsMarketOpen;
  }
}
