/** The payday preview: a simulation of the user's coming sweeps, day by day, that must stay inside the program's rules.
    */
module Preview {
  import opened Numbers
  import opened Market
  import opened Amount
  import opened Program

  const PAYDAY := 1_000_000_000

  /** The user the preview imagines: a new one, or the account left behind with new settings. */
  function JoinedAccount(params: EnrollParams, account: Option<User>, now: i64): User {
    if account.Some? then account.value.(settings := params, attestableFrom := now, pending := 0, status := Active)
    else User(params, now, 0, 0, 0, 0, Active, now, Pair(0, 0))
  }

  /** The preview starts from the account the program would make, from any exited account: nothing waits for one, and it
      was never attestable from later than the clock. */
  lemma JoinedAsTheProgramDoes(params: EnrollParams, account: Option<User>, now: i64)
    ensures JoinedAccount(params, account, now)
            == (if account.Some? then Reactivated(account.value, params, now) else Enrolled(params, now))
            <==> account.None? || (account.value.pending == 0 && account.value.attestableFrom <= now)
  {
  }

  // The program's rules folded over the chosen instants

  /** What a simulation has come to: the user, the balances, and what was pulled. */
  datatype State = State(user: User, balances: Pair<u64>, total: nat)

  /** The instant of UTC day `day` in the span at which the simulation sweeps, if any. */
  function Instant(engine: Engine, calendar: MarketCalendar, day: int, from: int, until: int): (at: Option<int>)
    ensures at.Some? ==> from <= at.value < until
  {
    var start := Max(day * DAY_SECONDS, from);
    if engine.Daily? then if start < until then Some(start) else None
    else
      var session := SessionOf(day, calendar);
      if session.None? || start >= session.value.close then None
      else
        var start := Max(start, session.value.open);
        if start < until then Some(start) else None
  }

  /** A sweep of `token` as the program pulls and records it; nothing is recorded when nothing is pulled. */
  function SweptOnce(s: State, config: Config, token: nat, at: i64): State
    requires token < 2
  {
    var pull := PullAt(s.user, token, s.balances.At(token), config.settings.userWeeklyCap, config.calendar, at);
    if !Enabled(s.user.settings.paymentTokens, token) || pull.Total() == 0 then s
    else
      PullWithinBalance(s.user, token, s.balances.At(token), config.settings.userWeeklyCap, config.calendar, at);
      State(
        Recorded(s.user, pull, at),
        s.balances.With(token, s.balances.At(token) - pull.Total()),
        s.total + pull.Total())
  }

  lemma PullWithinBalance(user: User, token: nat, balance: u64, betaCap: u64, calendar: MarketCalendar, now: i64)
    ensures 0 <= PullAt(user, token, balance, betaCap, calendar, now).Total() <= balance
  {
  }

  function SweptAt(s: State, config: Config, at: i64): State {
    SweptOnce(SweptOnce(s, config, 0, at), config, 1, at)
  }

  /** A span of instants the program's clock can show. */
  predicate Span(from: int, until: int) {
    0 <= from && until <= I64_MAX
  }

  /** The sweeps of the days from `day` on, until `until`. */
  function SweptDays(s: State, config: Config, from: int, until: int, day: int): State
    requires Span(from, until)
    decreases until - day * DAY_SECONDS
  {
    if day * DAY_SECONDS >= until then s
    else
      var at := Instant(s.user.settings.engine, config.calendar, day, from, until);
      SweptDays(if at.Some? then SweptAt(s, config, at.value) else s, config, from, until, day + 1)
  }

  // The simulation

  class Simulation {
    var user: User
    var balances: Pair<u64>
    var total: nat

    constructor (user: User, balances: Pair<u64>)
      ensures View() == State(user, balances, 0)
    {
      this.user, this.balances, this.total := user, balances, 0;
    }

    function View(): State
      reads this
    {
      State(user, balances, total)
    }

    /** One sweep of `token`, through the client's mirror of `pull` and the updates of `record`. */
    method SweepToken(config: Config, token: nat, at: i64)
      requires token < 2 && 0 <= user.enrolledAt && at < I64_MAX
      modifies this
      ensures View() == SweptOnce(old(View()), config, token, at)
    {
      hide ClientPull, ClientSpentAt, ClientWeekAt, ClientWeeklyCap, WeeklyCap, WeekAt, PullAt, Enabled;
      var betaCap := config.settings.userWeeklyCap;
      ClientPullsAlike(user, token, balances.At(token), betaCap, config.calendar, at);
      PullIsRecorded(user, token, balances.At(token), betaCap, config.calendar, at);
      if !Enabled(user.settings.paymentTokens, token) {
        return;
      }
      var pull := ClientPull(user, token, balances.At(token), betaCap, config.calendar, at);
      var pulled := pull.engine + pull.pending;
      if pulled == 0 {
        return;
      }
      user := user.(weekSpent := ClientSpentAt(user, at) + pulled, week := ClientWeekAt(user, at));
      if pull.engine > 0 {
        user := user.(engineRanAt := at);
      }
      user := user.(pending := user.pending - pull.pending);
      balances := balances.With(token, balances.At(token) - pulled);
      total := total + pulled;
    }

    /** Runs the sweeps from `from` to `until`, and returns what they pull. */
    method SweepThrough(config: Config, from: int, until: int) returns (pulled: nat)
      requires Span(from, until) && 0 <= user.enrolledAt
      modifies this
      ensures View() == SweptDays(State(old(user), old(balances), 0), config, from, until, from / DAY_SECONDS)
      ensures pulled == total
    {
      hide SweptOnce, SessionOf;
      total := 0;
      ClientDivision(from, DAY_SECONDS);
      var day := DivEuclid(from, DAY_SECONDS);
      while day * DAY_SECONDS < until
        invariant 0 <= user.enrolledAt
        invariant SweptDays(View(), config, from, until, day)
                  == SweptDays(State(old(user), old(balances), 0), config, from, until, from / DAY_SECONDS)
        decreases until - day * DAY_SECONDS
      {
        var at := if day * DAY_SECONDS > from then day * DAY_SECONDS else from;
        day := day + 1;
        if user.settings.engine.Weekly? {
          var session := SessionOf(day - 1, config.calendar);
          if session.None? || at >= session.value.close {
            continue;
          }
          if at < session.value.open {
            at := session.value.open;
          }
        }
        if at >= until {
          continue;
        }
        ghost var before := View();
        SweepKeepsEnrollment(before, config, 0, at);
        SweepKeepsEnrollment(SweptOnce(before, config, 0, at), config, 1, at);
        var token := 0;
        while token < 2
          invariant 0 <= token <= 2
          invariant View() == if token == 0 then before
                              else if token == 1 then SweptOnce(before, config, 0, at)
                              else SweptAt(before, config, at)
        {
          SweepToken(config, token, at);
          token := token + 1;
        }
      }
      return total;
    }
  }

  lemma SweepKeepsEnrollment(s: State, config: Config, token: nat, at: i64)
    requires token < 2
    ensures SweptOnce(s, config, token, at).user.enrolledAt == s.user.enrolledAt
  {
    hide PullAt;
  }

  /** The client's bookkeeping of a pull, which saturates nowhere, is the program's. */
  lemma PullIsRecorded(user: User, token: nat, balance: u64, betaCap: u64, calendar: MarketCalendar, now: i64)
    ensures var pull := PullAt(user, token, balance, betaCap, calendar, now);
            && 0 <= pull.Total() <= balance && pull.pending <= user.pending
            && (pull.Total() > 0 ==>
                  && SpentAt(user, now) + pull.Total() <= WeeklyCap(user, betaCap, now)
                  && Recorded(user, pull, now)
                     == user.(week := WeekAt(user, now), weekSpent := SpentAt(user, now) + pull.Total(),
                              pending := user.pending - pull.pending,
                              engineRanAt := if pull.engine > 0 then now else user.engineRanAt))
  {
  }

  // The chosen instants

  /** The hours of the user's engine: any under the daily one, a session's under the weekly one. */
  predicate OpenFor(engine: Engine, calendar: MarketCalendar, t: int) {
    engine.Weekly? ==> UsMarketOpen(t, calendar)
  }

  lemma OpenIsInSession(t: int, calendar: MarketCalendar)
    ensures UsMarketOpen(t, calendar) <==>
              var session := SessionOf(t / DAY_SECONDS, calendar);
              session.Some? && session.value.open <= t < session.value.close
  {
    hide UsMarketOpen, SessionOf;
    MarketsAgree(t, calendar);
    ClientDivision(t, DAY_SECONDS);
  }

  /** The simulation sweeps at the first instant of the day, within the span, in the engine's hours: none exactly when
      there is no such instant. */
  lemma InstantIsFirst(engine: Engine, calendar: MarketCalendar, day: int, from: int, until: int)
    requires from / DAY_SECONDS <= day
    ensures var at := Instant(engine, calendar, day, from, until);
            && (at.Some? ==> at.value / DAY_SECONDS == day && OpenFor(engine, calendar, at.value))
            && (forall t :: from <= t < until && t / DAY_SECONDS == day && OpenFor(engine, calendar, t) ==>
                  at.Some? && at.value <= t)
  {
    hide UsMarketOpen, SessionOf;
    var at := Instant(engine, calendar, day, from, until);
    if engine.Weekly? {
      if SessionOf(day, calendar).Some? {
        SessionWithinDay(day, calendar);
      }
      if at.Some? {
        OpenIsInSession(at.value, calendar);
      }
      forall t | from <= t < until && t / DAY_SECONDS == day && OpenFor(engine, calendar, t)
        ensures at.Some? && at.value <= t
      {
        OpenIsInSession(t, calendar);
      }
    }
  }

  // What every simulation keeps

  function Sum(balances: Pair<u64>): nat {
    balances.first + balances.second
  }

  /** Simulated sweeps move balances into the total and take nothing below a cushion; the settings stay. */
  ghost predicate Moves(before: State, after: State) {
    && after.user.settings == before.user.settings && after.user.enrolledAt == before.user.enrolledAt
    && after.user.status == before.user.status
    && after.user.pending <= before.user.pending && before.total <= after.total
    && Sum(after.balances) + after.total == Sum(before.balances) + before.total
    && forall token | 0 <= token < 2 ::
         Min(before.balances.At(token), before.user.settings.cushions.At(token))
         <= after.balances.At(token) <= before.balances.At(token)
  }

  lemma SweptOnceMoves(s: State, config: Config, token: nat, at: i64)
    requires token < 2
    ensures Moves(s, SweptOnce(s, config, token, at))
  {
    hide WeeklyCap, WeekAt, EngineDue, Enabled;
  }

  lemma {:induction false} SweptDaysMove(s: State, config: Config, from: int, until: int, day: int)
    requires Span(from, until)
    ensures Moves(s, SweptDays(s, config, from, until, day))
    decreases until - day * DAY_SECONDS
  {
    hide SweptOnce, Instant;
    if day * DAY_SECONDS < until {
      var at := Instant(s.user.settings.engine, config.calendar, day, from, until);
      if at.Some? {
        SweptOnceMoves(s, config, 0, at.value);
        SweptOnceMoves(SweptOnce(s, config, 0, at.value), config, 1, at.value);
        SweptDaysMove(SweptAt(s, config, at.value), config, from, until, day + 1);
      } else {
        SweptDaysMove(s, config, from, until, day + 1);
      }
    }
  }

  // Within one week of the user

  /** The span lies in week `week` of the user, whose cap is then `cap`. */
  ghost predicate OneWeek(user: User, betaCap: u64, from: int, until: int, week: u32, cap: u64) {
    forall t: i64 :: from <= t < until ==> WeekAt(user, t) == week && WeeklyCap(user, betaCap, t) == cap
  }

  /** What the user's counter holds for `week`. */
  function Counted(user: User, week: u32): u64 {
    if user.week == week then user.weekSpent else 0
  }

  /** Everything pulled is counted against the week, and never past its cap. */
  ghost predicate Counts(before: State, after: State, week: u32, cap: u64) {
    && Moves(before, after)
    && (after.user.week == before.user.week || after.user.week == week)
    && Counted(after.user, week) == Counted(before.user, week) + (after.total - before.total)
    && (after.total > before.total ==> Counted(after.user, week) <= cap)
  }

  /** Nothing is left to pull this week: nothing waits, the cap is reached, or every enabled balance is at its cushion.
      */
  ghost predicate Exhausted(s: State, week: u32, cap: u64) {
    s.user.pending > 0 && Counted(s.user, week) < cap ==> Cushioned(s)
  }

  predicate Cushioned(s: State) {
    && (Enabled(s.user.settings.paymentTokens, 0) ==> s.balances.first <= s.user.settings.cushions.first)
    && (Enabled(s.user.settings.paymentTokens, 1) ==> s.balances.second <= s.user.settings.cushions.second)
  }

  lemma SweptOnceCounts(s: State, config: Config, token: nat, at: i64, week: u32, cap: u64)
    requires token < 2
    requires WeekAt(s.user, at) == week && WeeklyCap(s.user, config.settings.userWeeklyCap, at) == cap
    ensures Counts(s, SweptOnce(s, config, token, at), week, cap)
  {
    hide Moves, PullAt, Recorded, WeeklyCap, WeekAt, Enabled;
    SweptOnceMoves(s, config, token, at);
    PullIsRecorded(s.user, token, s.balances.At(token), config.settings.userWeeklyCap, config.calendar, at);
  }

  /** A sweep of one token leaves nothing waiting, or the cap reached, or that token's balance at its cushion. */
  lemma SweptOnceExhausts(s: State, config: Config, token: nat, at: i64, week: u32, cap: u64)
    requires token < 2 && s.user.status.Active? && Enabled(s.user.settings.paymentTokens, token)
    requires WeekAt(s.user, at) == week && WeeklyCap(s.user, config.settings.userWeeklyCap, at) == cap
    ensures var after := SweptOnce(s, config, token, at);
            after.user.pending > 0 && Counted(after.user, week) < cap ==>
              after.balances.At(token) <= s.user.settings.cushions.At(token)
  {
    hide PullAt, Recorded, WeeklyCap, WeekAt, Enabled, EngineDue;
    PullIsRecorded(s.user, token, s.balances.At(token), config.settings.userWeeklyCap, config.calendar, at);
    PullIsTheMostAllowed(s.user, token, s.balances.At(token), config.settings.userWeeklyCap, config.calendar, at);
  }

  lemma SweptAtCounts(s: State, config: Config, at: i64, week: u32, cap: u64)
    requires s.user.status.Active?
    requires WeekAt(s.user, at) == week && WeeklyCap(s.user, config.settings.userWeeklyCap, at) == cap
    ensures Counts(s, SweptAt(s, config, at), week, cap)
    ensures Exhausted(SweptAt(s, config, at), week, cap)
  {
    hide SweptOnce, Enabled;
    SweptOnceCounts(s, config, 0, at, week, cap);
    var next := SweptOnce(s, config, 0, at);
    assert WeekAt(next.user, at) == week && WeeklyCap(next.user, config.settings.userWeeklyCap, at) == cap;
    SweptOnceCounts(next, config, 1, at, week, cap);
    if Enabled(s.user.settings.paymentTokens, 0) {
      SweptOnceExhausts(s, config, 0, at, week, cap);
    }
    if Enabled(s.user.settings.paymentTokens, 1) {
      SweptOnceExhausts(next, config, 1, at, week, cap);
    }
  }

  lemma OneWeekStays(user: User, later: User, betaCap: u64, from: int, until: int, week: u32, cap: u64)
    requires later.settings == user.settings && later.enrolledAt == user.enrolledAt
    requires OneWeek(user, betaCap, from, until, week, cap)
    ensures OneWeek(later, betaCap, from, until, week, cap)
  {
    forall t: i64 | from <= t < until
      ensures WeekAt(later, t) == week && WeeklyCap(later, betaCap, t) == cap
    {
      assert WeekAt(user, t) == week && WeeklyCap(user, betaCap, t) == cap;
    }
  }

  lemma CountsOn(a: State, b: State, c: State, week: u32, cap: u64)
    requires Counts(a, b, week, cap) && Counts(b, c, week, cap)
    ensures Counts(a, c, week, cap)
    ensures Exhausted(b, week, cap) ==> Exhausted(c, week, cap)
  {
    assert c.balances.At(0) <= b.balances.At(0) && c.balances.At(1) <= b.balances.At(1);
  }

  lemma CountsSettings(a: State, b: State, week: u32, cap: u64)
    requires Counts(a, b, week, cap)
    ensures b.user.settings == a.user.settings && b.user.enrolledAt == a.user.enrolledAt
    ensures b.user.status == a.user.status
  {
  }

  lemma NothingCounts(s: State, week: u32, cap: u64)
    ensures Counts(s, s, week, cap)
  {
  }

  lemma {:induction false} SweptDaysCount(
    s: State, config: Config, from: int, until: int, day: int, week: u32, cap: u64)
    requires Span(from, until) && s.user.status.Active?
    requires OneWeek(s.user, config.settings.userWeeklyCap, from, until, week, cap)
    ensures Counts(s, SweptDays(s, config, from, until, day), week, cap)
    ensures Exhausted(s, week, cap) ==> Exhausted(SweptDays(s, config, from, until, day), week, cap)
    decreases until - day * DAY_SECONDS
  {
    hide SweptAt, WeekAt, WeeklyCap, Counts, Exhausted;
    if day * DAY_SECONDS < until {
      var at := Instant(s.user.settings.engine, config.calendar, day, from, until);
      hide Instant;
      if at.Some? {
        var next := SweptAt(s, config, at.value);
        SweptAtCounts(s, config, at.value, week, cap);
        CountsSettings(s, next, week, cap);
        OneWeekStays(s.user, next.user, config.settings.userWeeklyCap, from, until, week, cap);
        SweptDaysCount(next, config, from, until, day + 1, week, cap);
        CountsOn(s, next, SweptDays(s, config, from, until, day), week, cap);
      } else {
        SweptDaysCount(s, config, from, until, day + 1, week, cap);
      }
    } else {
      NothingCounts(s, week, cap);
    }
  }

  /** A span with an instant at which the program would sweep leaves nothing to pull this week. */
  lemma {:induction false} SweptDaysExhaust(
    s: State, config: Config, from: int, until: int, day: int, t: i64, week: u32, cap: u64)
    requires Span(from, until) && s.user.status.Active?
    requires OneWeek(s.user, config.settings.userWeeklyCap, from, until, week, cap)
    requires from / DAY_SECONDS <= day <= t / DAY_SECONDS && from <= t < until
    requires OpenFor(s.user.settings.engine, config.calendar, t)
    ensures Exhausted(SweptDays(s, config, from, until, day), week, cap)
    decreases until - day * DAY_SECONDS
  {
    hide SweptAt, WeekAt, WeeklyCap, OpenFor, Instant, Exhausted, Counts;
    InstantIsFirst(s.user.settings.engine, config.calendar, day, from, until);
    var at := Instant(s.user.settings.engine, config.calendar, day, from, until);
    var next := if at.Some? then SweptAt(s, config, at.value) else s;
    if at.Some? {
      assert WeekAt(s.user, at.value) == week;
      SweptAtCounts(s, config, at.value, week, cap);
      CountsSettings(s, next, week, cap);
      OneWeekStays(s.user, next.user, config.settings.userWeeklyCap, from, until, week, cap);
    }
    if day == t / DAY_SECONDS {
      SweptDaysCount(next, config, from, until, day + 1, week, cap);
    } else {
      SweptDaysExhaust(next, config, from, until, day + 1, t, week, cap);
    }
  }

  // The preview

  /** What limits a preview's purchase. */
  datatype Binding = ByBalance | ByCap | ByRules

  datatype Preview = Preview(invested: nat, cap: u64, trial: bool, binding: Binding, waits: u64, nextWeek: nat)

  /** The user and the balances once the payday has come in the first enabled token. */
  function Paid(account: Option<User>, balances: Pair<u64>, params: EnrollParams, now: i64): State
    requires balances.first + PAYDAY <= U64_MAX && balances.second + PAYDAY <= U64_MAX
  {
    var user := JoinedAccount(params, account, now);
    State(
      user.(pending := IncomeShare(user, PAYDAY)),
      if Enabled(params.paymentTokens, 0) then Pair(balances.first + PAYDAY, balances.second)
      else if Enabled(params.paymentTokens, 1) then Pair(balances.first, balances.second + PAYDAY)
      else balances,
      0)
  }

  /** The thousand dollars come in the first token chosen, and a tenth of them waits under the income rule; everything
      the user chose counts from now, and of an account left behind the counters stay. */
  lemma PaydayComesIn(account: Option<User>, balances: Pair<u64>, params: EnrollParams, now: i64)
    requires balances.first + PAYDAY <= U64_MAX && balances.second + PAYDAY <= U64_MAX
    ensures var paid := Paid(account, balances, params, now);
            && paid.total == 0
            && paid.balances == (if params.paymentTokens & 1 != 0 then
                                   Pair(balances.first + 1_000_000_000, balances.second)
                                 else if params.paymentTokens & 2 != 0 then
                                   Pair(balances.first, balances.second + 1_000_000_000)
                                 else balances)
            && paid.user.pending == (if params.incomeRule then 100_000_000 else 0)
            && paid.user.settings == params && paid.user.status == Active && paid.user.attestableFrom == now
            && (account.None? ==>
                  && paid.user.enrolledAt == now && paid.user.week == 0 && paid.user.weekSpent == 0
                  && paid.user.engineRanAt == 0 && paid.user.lastSweepDay == Pair(0, 0))
            && (account.Some? ==>
                  paid.user == account.value.(settings := params, status := Active, attestableFrom := now,
                                              pending := paid.user.pending))
  {
  }

  /** The end of the user's week at `now`. */
  function WeekEnd(user: User, now: i64): int {
    user.enrolledAt + (WeekAt(user, now) + 1) * WEEK_SECONDS
  }

  lemma WeeksAhead(user: User, betaCap: u64, now: i64)
    requires 0 <= user.enrolledAt <= now && ClockInRange(now) && ClockInRange(now + 2 * WEEK_SECONDS)
    ensures var end, week := WeekEnd(user, now), WeekAt(user, now);
            && now < end <= now + WEEK_SECONDS && week < U32_MAX
            && OneWeek(user, betaCap, now, end, week, WeeklyCap(user, betaCap, now))
            && OneWeek(user, betaCap, end, end + WEEK_SECONDS, week + 1, WeeklyCap(user, betaCap, end))
  {
    var end, week := WeekEnd(user, now), WeekAt(user, now);
    WeeksExact(user, now);
    WeekIs(user, now, week);
    WeekIs(user, end, week + 1);
    hide WeekAt, WeeklyCap;
    forall t: i64 | now <= t < end
      ensures WeekAt(user, t) == week && WeeklyCap(user, betaCap, t) == WeeklyCap(user, betaCap, now)
    {
      WeekIs(user, t, week);
      CapOfWeek(user, betaCap, t, now);
    }
    forall t: i64 | end <= t < end + WEEK_SECONDS
      ensures WeekAt(user, t) == week + 1 && WeeklyCap(user, betaCap, t) == WeeklyCap(user, betaCap, end)
    {
      WeekIs(user, t, week + 1);
      CapOfWeek(user, betaCap, t, end);
    }
  }

  lemma WeekIs(user: User, t: i64, week: nat)
    requires 0 <= user.enrolledAt <= t && ClockInRange(t)
    requires user.enrolledAt + week * WEEK_SECONDS <= t < user.enrolledAt + (week + 1) * WEEK_SECONDS
    ensures WeekAt(user, t) == week
  {
    WeeksExact(user, t);
  }

  lemma CapOfWeek(user: User, betaCap: u64, t: i64, u: i64)
    requires 0 <= user.enrolledAt <= t && ClockInRange(t) && user.enrolledAt <= u && ClockInRange(u)
    requires WeekAt(user, t) == WeekAt(user, u)
    ensures WeeklyCap(user, betaCap, t) == WeeklyCap(user, betaCap, u)
  {
    WeeksExact(user, t);
    WeeksExact(user, u);
    hide WeekAt;
  }

  /** The states the preview passes: paid, at the week's end, and a week later. */
  datatype Course = Course(paid: State, weekEnd: State, nextEnd: State, end: i64)

  function CourseOf(paid: State, config: Config, now: i64): Course
    requires 0 <= now && 0 <= WeekEnd(paid.user, now) && WeekEnd(paid.user, now) + WEEK_SECONDS <= I64_MAX
  {
    var end := WeekEnd(paid.user, now);
    var first := SweptDays(paid, config, now, end, now / DAY_SECONDS);
    Course(
      paid, first,
      SweptDays(first.(total := 0), config, end, end + WEEK_SECONDS, end / DAY_SECONDS),
      end)
  }

  function RoomAt(user: User, betaCap: u64, now: i64): u64 {
    SaturatingSub(WeeklyCap(user, betaCap, now), SpentAt(user, now))
  }

  /** What the program's rules bound: this week's purchase is within the room left under its cap, the next week's within
      that week's cap, and when the program can sweep at all in the rest of the week, what still waits at its end waits
      for the cap or for balances above the cushions. */
  lemma CourseWithinRules(paid: State, config: Config, now: i64)
    requires 0 <= paid.user.enrolledAt <= now && ClockInRange(now) && ClockInRange(now + 2 * WEEK_SECONDS)
    requires paid.user.status.Active? && paid.total == 0 && paid.user.week <= WeekAt(paid.user, now)
    ensures WeekEnd(paid.user, now) <= now + WEEK_SECONDS
    ensures var c, betaCap := CourseOf(paid, config, now), config.settings.userWeeklyCap;
            && Moves(paid, c.weekEnd) && Moves(c.weekEnd.(total := 0), c.nextEnd)
            && c.weekEnd.total <= RoomAt(paid.user, betaCap, now)
            && c.nextEnd.total <= WeeklyCap(paid.user, betaCap, c.end)
            && ((exists t: i64 :: now <= t < c.end && OpenFor(paid.user.settings.engine, config.calendar, t)) ==>
                  c.weekEnd.user.pending == 0 || c.weekEnd.total == RoomAt(paid.user, betaCap, now)
                  || Cushioned(c.weekEnd))
  {
    var betaCap := config.settings.userWeeklyCap;
    WeeksAhead(paid.user, betaCap, now);
    var c := CourseOf(paid, config, now);
    var week, cap := WeekAt(paid.user, now), WeeklyCap(paid.user, betaCap, now);
    var nextCap := WeeklyCap(paid.user, betaCap, c.end);
    assert SpentAt(paid.user, now) == Counted(paid.user, week);
    hide WeekAt, WeeklyCap, SweptDays, WeekEnd, Counts, Exhausted, Moves, Cushioned, SpentAt, OpenFor, OneWeek;
    SweptDaysCount(paid, config, now, c.end, now / DAY_SECONDS, week, cap);
    CountsSettings(paid, c.weekEnd, week, cap);
    WithinRoom(paid, c.weekEnd, week, cap);
    var rested := c.weekEnd.(total := 0);
    OneWeekStays(paid.user, rested.user, betaCap, c.end, c.end + WEEK_SECONDS, week + 1, nextCap);
    SweptDaysCount(rested, config, c.end, c.end + WEEK_SECONDS, c.end / DAY_SECONDS, week + 1, nextCap);
    WithinRoom(rested, c.nextEnd, week + 1, nextCap);
    if t: i64 :| now <= t < c.end && OpenFor(paid.user.settings.engine, config.calendar, t) {
      SweptDaysExhaust(paid, config, now, c.end, now / DAY_SECONDS, t, week, cap);
    }
  }

  lemma WithinRoom(before: State, after: State, week: u32, cap: u64)
    requires Counts(before, after, week, cap) && before.total == 0
    ensures Moves(before, after)
    ensures after.user.week == before.user.week || after.user.week == week
    ensures after.total <= SaturatingSub(cap, Counted(before.user, week))
    ensures Exhausted(after, week, cap) ==>
              || after.user.pending == 0
              || after.total == SaturatingSub(cap, Counted(before.user, week))
              || Cushioned(after)
  {
    hide Moves, Cushioned;
  }

  /** A balance at its cushion stays there. */
  lemma CushionedOn(before: State, after: State)
    requires Moves(before, after) && Cushioned(before)
    ensures Cushioned(after)
  {
    assert after.balances.At(0) <= before.balances.At(0) && after.balances.At(1) <= before.balances.At(1);
  }

  /** The account and the balances with the payday in. */
  method Join(account: Option<User>, balances: Pair<u64>, now: i64, params: EnrollParams)
    returns (user: User, held: Pair<u64>)
    requires balances.first + PAYDAY <= U64_MAX && balances.second + PAYDAY <= U64_MAX
    ensures State(user, held, 0) == Paid(account, balances, params, now)
  {
    user := JoinedAccount(params, account, now);
    held := balances;
    if Enabled(user.settings.paymentTokens, 0) {
      held := held.With(0, held.first + PAYDAY);
    } else if Enabled(user.settings.paymentTokens, 1) {
      held := held.With(1, held.second + PAYDAY);
    }
    user := user.(pending := user.pending + ClientIncomeShare(user, PAYDAY));
  }

  /** What the code reports as limiting the purchase: it looks at the balances after both weeks. */
  ghost function BindingOf(c: Course, room: u64): Binding {
    if c.weekEnd.total == room then ByCap
    else if Cushioned(c.nextEnd) && c.weekEnd.user.pending > 0 then ByBalance
    else ByRules
  }
}
