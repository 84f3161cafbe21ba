/** What the preview's binding means: exactly when a purchase it says the balance limits ends at the cushions. */
module PreviewBinding {
  import opened Numbers
  import opened Market
  import opened CalendarLoader
  import opened Amount
  import opened Program
  import opened Preview
  import CivilDate

  // What stands above the cushions

  function ExcessOf(s: State, token: nat): nat
    requires token < 2
  {
    if Enabled(s.user.settings.paymentTokens, token)
    then SaturatingSub(s.balances.At(token), s.user.settings.cushions.At(token)) else 0
  }

  /** What the enabled tokens hold above their cushions. */
  function Excess(s: State): nat {
    ExcessOf(s, 0) + ExcessOf(s, 1)
  }

  /** What the first token with anything above its cushion holds above it. */
  function FirstExcess(s: State): nat {
    if ExcessOf(s, 0) > 0 then ExcessOf(s, 0) else ExcessOf(s, 1)
  }

  lemma CushionedIsNoExcess(s: State)
    ensures Cushioned(s) <==> Excess(s) == 0
  {
    hide Enabled;
  }

  /** What a simulation pulled for the engine. */
  function EnginePart(before: State, after: State): int {
    (after.total - before.total) - (before.user.pending - after.user.pending)
  }

  /** One sweep takes what it pulls out of the excess, and for the engine what is due of it within the token's room. */
  lemma SweptOnceParts(s: State, config: Config, token: nat, at: i64)
    requires token < 2 && s.user.status.Active?
    ensures var after := SweptOnce(s, config, token, at);
            var room := Min(RoomAt(s.user, config.settings.userWeeklyCap, at), ExcessOf(s, token));
            var due := if EngineDue(s.user, config.calendar, at) then s.user.settings.engineAmount else 0;
            && after.total - s.total == Min(due + s.user.pending, room)
            && EnginePart(s, after) == Min(due, room)
            && ExcessOf(after, token) == ExcessOf(s, token) - (after.total - s.total)
            && ExcessOf(after, 1 - token) == ExcessOf(s, 1 - token)
            && after.user.settings == s.user.settings && after.user.enrolledAt == s.user.enrolledAt
            && after.user.status == s.user.status
            && after.user.engineRanAt == if EnginePart(s, after) > 0 then at else s.user.engineRanAt
  {
    hide Enabled, WeekAt, WeeklyCap, EngineDue, PullAt;
    PullIsTheMostAllowed(s.user, token, s.balances.At(token), config.settings.userWeeklyCap, config.calendar, at);
    PullIsRecorded(s.user, token, s.balances.At(token), config.settings.userWeeklyCap, config.calendar, at);
  }

  lemma SweptAtExcess(s: State, config: Config, at: i64)
    requires s.user.status.Active?
    ensures var after := SweptAt(s, config, at);
            && Excess(after) + after.total == Excess(s) + s.total
            && after.user.settings == s.user.settings && after.user.enrolledAt == s.user.enrolledAt
            && after.user.status == s.user.status
  {
    hide SweptOnce, ExcessOf, RoomAt, EngineDue;
    SweptOnceParts(s, config, 0, at);
    SweptOnceParts(SweptOnce(s, config, 0, at), config, 1, at);
  }

  /** An engine that is not due, or has no amount, takes nothing. */
  lemma NoEngineAt(s: State, config: Config, at: i64)
    requires s.user.status.Active?
    requires s.user.settings.engineAmount == 0 || !EngineDue(s.user, config.calendar, at)
    ensures EnginePart(s, SweptAt(s, config, at)) == 0
    ensures SweptAt(s, config, at).user.engineRanAt == s.user.engineRanAt
  {
    hide SweptOnce, ExcessOf, RoomAt, UsMarketOpen;
    SweptOnceParts(s, config, 0, at);
    SweptOnceParts(SweptOnce(s, config, 0, at), config, 1, at);
  }

  /** A weekly engine that is due takes its amount, within the cap and the first excess, and then is not due again. */
  lemma EngineAt(s: State, config: Config, at: i64, cap: u64)
    requires s.user.status.Active? && s.user.settings.engine.Weekly? && s.user.enrolledAt <= at
    requires EngineDue(s.user, config.calendar, at)
    requires RoomAt(s.user, config.settings.userWeeklyCap, at) == cap && FirstExcess(s) <= cap
    ensures EnginePart(s, SweptAt(s, config, at)) == Min(s.user.settings.engineAmount, FirstExcess(s))
    ensures EnginePart(s, SweptAt(s, config, at)) > 0 ==> SweptAt(s, config, at).user.engineRanAt == at
  {
    hide SweptOnce, ExcessOf, UsMarketOpen, WeekAt;
    SweptOnceParts(s, config, 0, at);
    var next := SweptOnce(s, config, 0, at);
    SweptOnceParts(next, config, 1, at);
    if ExcessOf(s, 0) == 0 {
      SameIfNothing(s, config, 0, at);
    }
  }

  lemma SameIfNothing(s: State, config: Config, token: nat, at: i64)
    requires token < 2 && SweptOnce(s, config, token, at).total == s.total
    ensures SweptOnce(s, config, token, at) == s
  {
    PullIsRecorded(s.user, token, s.balances.At(token), config.settings.userWeeklyCap, config.calendar, at);
    hide PullAt, Recorded, Enabled;
  }

  // Over a span within one user week

  lemma {:induction false} SweptDaysExcess(s: State, config: Config, from: int, until: int, day: int)
    requires Span(from, until) && s.user.status.Active?
    ensures var after := SweptDays(s, config, from, until, day);
            && Excess(after) + after.total == Excess(s) + s.total
            && after.user.settings == s.user.settings
    decreases until - day * DAY_SECONDS
  {
    hide SweptAt, Instant, Excess;
    if day * DAY_SECONDS < until {
      var at := Instant(s.user.settings.engine, config.calendar, day, from, until);
      if at.Some? {
        SweptAtExcess(s, config, at.value);
      }
      SweptDaysExcess(if at.Some? then SweptAt(s, config, at.value) else s, config, from, until, day + 1);
    }
  }

  /** Without an instant in the engine's hours nothing happens. */
  lemma {:induction false} NoSweeps(s: State, config: Config, from: int, until: int, day: int)
    requires Span(from, until) && from / DAY_SECONDS <= day
    requires forall t: i64 :: from <= t < until ==> !OpenFor(s.user.settings.engine, config.calendar, t)
    ensures SweptDays(s, config, from, until, day) == s
    decreases until - day * DAY_SECONDS
  {
    hide SweptAt, Instant, OpenFor;
    if day * DAY_SECONDS < until {
      InstantIsFirst(s.user.settings.engine, config.calendar, day, from, until);
      NoSweeps(s, config, from, until, day + 1);
    }
  }

  /** The engine has not bought in week `week` yet, or has. */
  predicate RanIn(user: User, week: int) {
    user.engineRanAt >= user.enrolledAt && WeekAt(user, user.engineRanAt) == week
  }

  predicate NotRanBy(user: User, week: int) {
    user.engineRanAt < user.enrolledAt || WeekAt(user, user.engineRanAt) < week
  }

  /** After the week's purchase, or without an amount, the engine takes nothing. */
  lemma {:induction false} NoEngineDays(
    s: State, config: Config, from: int, until: int, day: int, week: u32, cap: u64)
    requires Span(from, until) && s.user.status.Active? && s.user.settings.engine.Weekly?
    requires OneWeek(s.user, config.settings.userWeeklyCap, from, until, week, cap)
    requires s.user.settings.engineAmount == 0 || RanIn(s.user, week)
    ensures EnginePart(s, SweptDays(s, config, from, until, day)) == 0
    decreases until - day * DAY_SECONDS
  {
    hide SweptAt, Instant, UsMarketOpen, WeeklyCap, WeekAt;
    if day * DAY_SECONDS < until {
      var at := Instant(s.user.settings.engine, config.calendar, day, from, until);
      var next := if at.Some? then SweptAt(s, config, at.value) else s;
      if at.Some? {
        assert WeekAt(s.user, at.value) == week;
        NoEngineAt(s, config, at.value);
        SweptAtExcess(s, config, at.value);
        OneWeekStays(s.user, next.user, config.settings.userWeeklyCap, from, until, week, cap);
        RanStays(s.user, next.user, week);
      }
      hide OneWeek, RanIn, Excess;
      NoEngineDays(next, config, from, until, day + 1, week, cap);
    }
  }

  lemma RanStays(user: User, later: User, week: int)
    requires later.settings == user.settings && later.enrolledAt == user.enrolledAt
    requires later.engineRanAt == user.engineRanAt
    ensures RanIn(later, week) == RanIn(user, week) && NotRanBy(later, week) == NotRanBy(user, week)
  {
  }

  /** In a week in which it has not bought, with an instant in its hours, the engine takes its amount within the first
      excess, if the cap is at least that. */
  lemma {:induction false} EngineDays(
    s: State, config: Config, from: int, until: int, day: int, t: i64, week: u32, cap: u64)
    requires Span(from, until) && s.user.status.Active? && s.user.settings.engine.Weekly?
    requires s.user.enrolledAt <= from
    requires OneWeek(s.user, config.settings.userWeeklyCap, from, until, week, cap)
    requires from / DAY_SECONDS <= day <= t / DAY_SECONDS && from <= t < until
    requires OpenFor(s.user.settings.engine, config.calendar, t)
    requires NotRanBy(s.user, week) && Counted(s.user, week) == 0 && 0 < FirstExcess(s) <= cap
    ensures EnginePart(s, SweptDays(s, config, from, until, day)) == Min(s.user.settings.engineAmount, FirstExcess(s))
    decreases until - day * DAY_SECONDS
  {
    hide SweptAt, Instant, UsMarketOpen, WeeklyCap, WeekAt;
    InstantIsFirst(s.user.settings.engine, config.calendar, day, from, until);
    var at := Instant(s.user.settings.engine, config.calendar, day, from, until);
    if at.None? {
      EngineDays(s, config, from, until, day + 1, t, week, cap);
    } else {
      assert WeekAt(s.user, at.value) == week && WeeklyCap(s.user, config.settings.userWeeklyCap, at.value) == cap;
      EngineAt(s, config, at.value, cap);
      SweptAtExcess(s, config, at.value);
      var next := SweptAt(s, config, at.value);
      OneWeekStays(s.user, next.user, config.settings.userWeeklyCap, from, until, week, cap);
      assert WeekAt(next.user, at.value) == week;
      hide OneWeek, Excess;
      NoEngineDays(next, config, from, until, day + 1, week, cap);
    }
  }

  /** The program can sweep the user's engine at some instant of the span. */
  ghost predicate HasOpening(engine: Engine, calendar: MarketCalendar, from: int, until: int) {
    exists t: i64 :: from <= t < until && OpenFor(engine, calendar, t)
  }

  /** A week's sweeps can take everything above the cushions: there is a session, the cap allows it, and so do the
      engine, which buys once from the first token, and what waits. */
  ghost predicate Drains(s: State, config: Config, from: int, until: int, cap: u64) {
    && HasOpening(s.user.settings.engine, config.calendar, from, until)
    && Excess(s) <= cap
    && Excess(s) <= Min(s.user.settings.engineAmount, FirstExcess(s)) + s.user.pending
  }

  lemma WeekDrains(s: State, config: Config, from: int, until: int, week: u32, cap: u64)
    requires Span(from, until) && s.total == 0 && s.user.status.Active? && s.user.settings.engine.Weekly?
    requires s.user.enrolledAt <= from && NotRanBy(s.user, week) && Counted(s.user, week) == 0
    requires OneWeek(s.user, config.settings.userWeeklyCap, from, until, week, cap)
    requires !Cushioned(s)
    ensures Cushioned(SweptDays(s, config, from, until, from / DAY_SECONDS)) <==> Drains(s, config, from, until, cap)
  {
    hide SweptDays, OneWeek, Cushioned, OpenFor, NotRanBy;
    var day := from / DAY_SECONDS;
    var after := SweptDays(s, config, from, until, day);
    CushionedIsNoExcess(s);
    CushionedIsNoExcess(after);
    SweptDaysExcess(s, config, from, until, day);
    SweptDaysCount(s, config, from, until, day, week, cap);
    hide Moves, ExcessOf;
    if HasOpening(s.user.settings.engine, config.calendar, from, until) {
      var t: i64 :| from <= t < until && OpenFor(s.user.settings.engine, config.calendar, t);
      if Excess(s) <= cap {
        EngineDays(s, config, from, until, day, t, week, cap);
        SweptDaysExhaust(s, config, from, until, day, t, week, cap);
        WithinRoom(s, after, week, cap);
        PendingFalls(s, after);
      }
    } else {
      NoSweeps(s, config, from, until, day);
    }
  }

  lemma PendingFalls(before: State, after: State)
    requires Moves(before, after)
    ensures after.user.pending <= before.user.pending
  {
  }

  /** The balance, when the preview reports it, is what limits the purchase: the program can sweep at some instant in
      the rest of the week, or the cap leaves no room, or nothing waits, or the balances are at their cushions from the
      start, or the next week's sweeps do not take everything above them. Otherwise no session is left, nothing is
      pulled this week, and the report looks at balances a week later. */
  ghost predicate BalanceExplains(c: Course, config: Config, now: i64) {
    var betaCap, paid := config.settings.userWeeklyCap, c.paid;
    || HasOpening(paid.user.settings.engine, config.calendar, now, c.end)
    || RoomAt(paid.user, betaCap, now) == 0 || paid.user.pending == 0 || Cushioned(paid)
    || !Drains(paid, config, c.end, c.end + WEEK_SECONDS, WeeklyCap(paid.user, betaCap, c.end))
  }

  /** Every enabled token ends a week limited by the balance at its cushion, exactly then. */
  lemma BalanceBindingIff(paid: State, config: Config, now: i64)
    requires 0 <= paid.user.enrolledAt <= now && ClockInRange(now) && ClockInRange(now + 2 * WEEK_SECONDS)
    requires paid.user.status.Active? && paid.total == 0 && paid.user.week <= WeekAt(paid.user, now)
    requires paid.user.engineRanAt <= now
    ensures WeekEnd(paid.user, now) + WEEK_SECONDS <= I64_MAX
    ensures var c, room := CourseOf(paid, config, now), RoomAt(paid.user, config.settings.userWeeklyCap, now);
            (BindingOf(c, room).ByBalance? ==> Cushioned(c.weekEnd)) <==> BalanceExplains(c, config, now)
  {
    var betaCap, week := config.settings.userWeeklyCap, WeekAt(paid.user, now);
    WeeksAhead(paid.user, betaCap, now);
    CourseWithinRules(paid, config, now);
    NotRunAhead(paid.user, now);
    var c, room := CourseOf(paid, config, now), RoomAt(paid.user, betaCap, now);
    var nextCap := WeeklyCap(paid.user, betaCap, c.end);
    assert Counted(paid.user, week + 1) == 0;
    hide SweptDays, WeekAt, WeeklyCap, WeekEnd, RoomAt, Cushioned, OpenFor, NotRanBy, Moves, OneWeek, Drains, Counted;
    if HasOpening(paid.user.settings.engine, config.calendar, now, c.end) {
      OpeningBinds(c, room);
    } else {
      NoSweeps(paid, config, now, c.end, now / DAY_SECONDS);
      assert c.weekEnd == paid;
      if !Cushioned(paid) {
        assert paid.(total := 0) == paid;
        NoOpeningIsWeekly(paid.user.settings.engine, config.calendar, now, c.end);
        WeekDrains(paid, config, c.end, c.end + WEEK_SECONDS, week + 1, nextCap);
      }
    }
  }

  /** With an opening the week's end is at the cushions unless the cap binds or nothing waits. */
  lemma OpeningBinds(c: Course, room: u64)
    requires c.weekEnd.user.pending == 0 || c.weekEnd.total == room || Cushioned(c.weekEnd)
    ensures BindingOf(c, room).ByBalance? ==> Cushioned(c.weekEnd)
  {
  }

  lemma NoOpeningIsWeekly(engine: Engine, calendar: MarketCalendar, from: i64, until: int)
    requires from < until && !HasOpening(engine, calendar, from, until)
    ensures engine.Weekly?
  {
    if engine.Daily? {
      assert OpenFor(engine, calendar, from);
    }
  }

  lemma NotRunAhead(user: User, now: i64)
    requires 0 <= user.enrolledAt <= now && ClockInRange(now) && user.engineRanAt <= now
    ensures NotRanBy(user, WeekAt(user, now) + 1)
  {
    if user.engineRanAt >= user.enrolledAt {
      RanEarlier(user, now);
    }
  }

  lemma RanEarlier(user: User, now: i64)
    requires 0 <= user.enrolledAt <= user.engineRanAt <= now && ClockInRange(now)
    ensures WeekAt(user, user.engineRanAt) <= WeekAt(user, now)
  {
    if user.engineRanAt > 0 {
      WeeksExact(user, user.engineRanAt);
    }
    WeeksExact(user, now);
  }

  // The preview

  /** A preview that follows its course, and what its binding says of it: the cap exactly if it leaves no room; with an
      opening left in the week the balance exactly if something waits, and then the balances are at their cushions; and
      the exact condition for that in general, on an account whose engine has not run ahead of the clock. */
  ghost predicate PreviewOf(p: Preview, c: Course, config: Config, now: i64) {
    var betaCap, user := config.settings.userWeeklyCap, c.paid.user;
    && p.invested == c.weekEnd.total && p.waits == c.weekEnd.user.pending && p.nextWeek == c.nextEnd.total
    && p.cap == WeeklyCap(user, betaCap, now)
    && p.invested <= RoomAt(user, betaCap, now) <= p.cap
    && p.nextWeek <= WeeklyCap(user, betaCap, c.end)
    && (p.trial <==> now < user.enrolledAt + TRIAL_SECONDS)
    && (p.binding.ByCap? <==> p.invested == RoomAt(user, betaCap, now))
    && p.binding == BindingOf(c, RoomAt(user, betaCap, now))
    && (HasOpening(user.settings.engine, config.calendar, now, c.end) ==>
          && (p.binding.ByBalance? <==> p.invested != RoomAt(user, betaCap, now) && p.waits > 0)
          && (p.binding.ByBalance? ==> Cushioned(c.weekEnd)))
    && (user.engineRanAt <= now ==>
          ((p.binding.ByBalance? ==> Cushioned(c.weekEnd)) <==> BalanceExplains(c, config, now)))
  }

  /** What the report's numbers are: the span to the end of the running week of the user, five dollars in the first week
      and the tier's in others within the beta's cap, what is left of that, and a binding by the balance exactly if
      something waits and every chosen balance ends the week after at its cushion. */
  lemma ReportIs(p: Preview, paid: State, config: Config, now: i64)
    requires 0 <= paid.user.enrolledAt <= now && ClockInRange(now) && ClockInRange(now + 2 * WEEK_SECONDS)
    requires WeekEnd(paid.user, now) + WEEK_SECONDS <= I64_MAX
    requires PreviewOf(p, CourseOf(paid, config, now), config, now)
    ensures var c, user, betaCap := CourseOf(paid, config, now), paid.user, config.settings.userWeeklyCap;
            var week := (now - user.enrolledAt) / 604_800;
            var tierCap := if user.settings.tier == 0 then 10_000_000
                           else if user.settings.tier == 1 then 25_000_000 else 0;
            var spent := if user.week == week then user.weekSpent else 0;
            var drained := && (c.nextEnd.user.settings.paymentTokens & 1 != 0 ==>
                                 c.nextEnd.balances.first <= c.nextEnd.user.settings.cushions.first)
                           && (c.nextEnd.user.settings.paymentTokens & 2 != 0 ==>
                                 c.nextEnd.balances.second <= c.nextEnd.user.settings.cushions.second);
            && c.end == user.enrolledAt + (week + 1) * 604_800
            && p.invested == c.weekEnd.total && p.waits == c.weekEnd.user.pending && p.nextWeek == c.nextEnd.total
            && (p.trial <==> week == 0)
            && p.cap == Min(if p.trial then 5_000_000 else tierCap, betaCap)
            && p.binding == (if p.invested == (if p.cap > spent then p.cap - spent else 0) then ByCap
                             else if drained && p.waits > 0 then ByBalance else ByRules)
  {
  }

  lemma FollowsCourse(p: Preview, paid: State, config: Config, now: i64)
    requires 0 <= paid.user.enrolledAt <= now && ClockInRange(now) && ClockInRange(now + 2 * WEEK_SECONDS)
    requires paid.user.status.Active? && paid.total == 0 && paid.user.week <= WeekAt(paid.user, now)
    requires WeekEnd(paid.user, now) + WEEK_SECONDS <= I64_MAX
    requires var c, betaCap := CourseOf(paid, config, now), config.settings.userWeeklyCap;
             && p.invested == c.weekEnd.total && p.waits == c.weekEnd.user.pending && p.nextWeek == c.nextEnd.total
             && p.cap == WeeklyCap(paid.user, betaCap, now)
             && (p.trial <==> now < paid.user.enrolledAt + TRIAL_SECONDS)
             && p.binding == BindingOf(c, RoomAt(paid.user, betaCap, now))
    ensures PreviewOf(p, CourseOf(paid, config, now), config, now)
  {
    if paid.user.engineRanAt <= now {
      BalanceBindingIff(paid, config, now);
    }
    hide WeeklyCap, SpentAt, Moves, OpenFor, SweptDays, BalanceExplains;
    CourseWithinRules(paid, config, now);
    var c := CourseOf(paid, config, now);
    if Cushioned(c.weekEnd) {
      CushionedOn(c.weekEnd.(total := 0), c.nextEnd);
    }
  }

  /** The two simulated spans, and the balances' state after them. */
  method Simulate(user: User, held: Pair<u64>, config: Config, now: i64, ghost c: Course)
    returns (invested: nat, waits: u64, nextWeek: nat, cushioned: bool)
    requires 0 <= user.enrolledAt && 0 <= now < I64_MAX
    requires 0 <= WeekEnd(user, now) && WeekEnd(user, now) + WEEK_SECONDS <= I64_MAX
    requires c == CourseOf(State(user, held, 0), config, now)
    requires c.weekEnd.user.enrolledAt == user.enrolledAt
    ensures invested == c.weekEnd.total && waits == c.weekEnd.user.pending && nextWeek == c.nextEnd.total
    ensures cushioned == Cushioned(c.nextEnd)
  {
    hide SweptDays, Cushioned, WeekAt, ClientWeekAt;
    ClientWeeksAlike(user, now);
    var weekEnd := user.enrolledAt + (ClientWeekAt(user, now) + 1) * WEEK_SECONDS;
    var simulation := new Simulation(user, held);
    invested := simulation.SweepThrough(config, now, weekEnd);
    waits := simulation.user.pending;
    nextWeek := simulation.SweepThrough(config, weekEnd, weekEnd + WEEK_SECONDS);
    cushioned := Cushioned(simulation.View());
  }

  lemma PaidInOrder(account: Option<User>, balances: Pair<u64>, params: EnrollParams, now: i64)
    requires balances.first + PAYDAY <= U64_MAX && balances.second + PAYDAY <= U64_MAX
    requires 0 < now && ClockInRange(now) && ClockInRange(now + 2 * WEEK_SECONDS)
    requires account.Some? ==>
               && 0 <= account.value.enrolledAt <= now && account.value.week <= WeekAt(account.value, now)
    ensures var user := Paid(account, balances, params, now).user;
            && 0 <= user.enrolledAt <= now && user.status.Active? && user.week <= WeekAt(user, now)
            && 0 <= WeekEnd(user, now) && WeekEnd(user, now) + WEEK_SECONDS <= I64_MAX
  {
    var user := Paid(account, balances, params, now).user;
    WeeksExact(user, now);
  }

  method PaydayPreview(account: Option<User>, balances: Pair<u64>, config: Config, now: i64, params: EnrollParams)
    returns (p: Preview)
    requires balances.first + PAYDAY <= U64_MAX && balances.second + PAYDAY <= U64_MAX
    requires 0 < now && ClockInRange(now) && ClockInRange(now + 2 * WEEK_SECONDS)
    requires account.Some? ==>
               && 0 <= account.value.enrolledAt <= now && account.value.week <= WeekAt(account.value, now)
    ensures var paid := Paid(account, balances, params, now);
            && 0 <= WeekEnd(paid.user, now) && WeekEnd(paid.user, now) + WEEK_SECONDS <= I64_MAX
            && PreviewOf(p, CourseOf(paid, config, now), config, now)
  {
    hide ClientWeeklyCap, ClientSpentAt, ClientWeekAt, ClientPull, PullAt, WeeklyCap, WeekAt, Paid, WeekEnd, SpentAt;
    hide SweptDays, Cushioned, CourseOf, PreviewOf, OpenFor;
    var user, held := Join(account, balances, now, params);
    ghost var paid := State(user, held, 0);
    PaidInOrder(account, balances, params, now);
    var betaCap := config.settings.userWeeklyCap;
    ClientPullsAlike(user, 0, 0, betaCap, config.calendar, now);
    CourseWithinRules(paid, config, now);
    ghost var c := CourseOf(paid, config, now);
    var cap := ClientWeeklyCap(user, betaCap, now);
    var room := if cap > ClientSpentAt(user, now) then cap - ClientSpentAt(user, now) else 0;
    var invested, waits, nextWeek, cushioned := Simulate(user, held, config, now, c);
    p := Preview(
      invested, cap, now < user.enrolledAt + TRIAL_SECONDS,
      if invested == room then ByCap else if cushioned && waits > 0 then ByBalance else ByRules,
      waits, nextWeek);
    FollowsCourse(p, paid, config, now);
  }

  // A weekend return

  /** 2025-01-06, and the Saturday and the Monday after it. */
  const MONDAY := 20094
  const SATURDAY := MONDAY + 5
  const NEXT_MONDAY := MONDAY + 7
  const LAST_DAY := MONDAY + CALENDAR_DAYS - 1

  /** A calendar without closures, loaded that Monday for as long as one can be. */
  function OpenCalendar(): MarketCalendar {
    MarketCalendar(MONDAY, LAST_DAY, NoDays(), NoDays())
  }

  /** It is what loading a calendar without closures on the Monday stores. */
  lemma OpenCalendarIsLoaded()
    ensures Refusal([], [], LAST_DAY, MONDAY) == None
    ensures Holds(OpenCalendar().holidays, MONDAY, LAST_DAY, [])
    ensures Holds(OpenCalendar().earlyCloses, MONDAY, LAST_DAY, [])
  {
  }

  /** A user who enrolled on the Monday and left, and what they choose on their return: weekly, a share of income, and
      all but a dollar of the payday left alone. */
  const AWAY := User(CLEARED, MONDAY * DAY_SECONDS, 0, 0, 0, 0, Exited, MONDAY * DAY_SECONDS, Pair(0, 0))
  const RETURNING := EnrollParams(0, 1, 0, Weekly, 0, true, 0, Pair(999_000_000, 0), 0, EMPTY_LABEL)

  function Returned(): State {
    Paid(Some(AWAY), Pair(0, 0), RETURNING, SATURDAY * DAY_SECONDS)
  }

  /** On the Saturday the preview tells them that the balance limits the purchase, though it stays a dollar above its
      cushion: what their week is missing is a session, and the balance is spent in the next. Their calendar is one that
      the loader accepts and stores. */
  lemma WeekendBinding(config: Config)
    requires config.settings.userWeeklyCap == 25_000_000 && config.calendar == OpenCalendar()
    ensures var now := SATURDAY * DAY_SECONDS;
            && WeekEnd(Returned().user, now) == NEXT_MONDAY * DAY_SECONDS
            && var c := CourseOf(Returned(), config, now);
               && BindingOf(c, RoomAt(Returned().user, 25_000_000, now)).ByBalance?
               && !Cushioned(c.weekEnd)
    ensures Refusal([], [], LAST_DAY, MONDAY) == None
    ensures Holds(OpenCalendar().holidays, MONDAY, LAST_DAY, [])
            && Holds(OpenCalendar().earlyCloses, MONDAY, LAST_DAY, [])
  {
    OpenCalendarIsLoaded();
    var now, end, paid := SATURDAY * DAY_SECONDS, NEXT_MONDAY * DAY_SECONDS, Returned();
    ReturnedIs();
    hide Returned;
    WeekIs(paid.user, now, 0);
    WeekIs(paid.user, end, 1);
    assert WeekEnd(paid.user, now) == end;
    ClosedAllWeekend();
    OpensOnMonday();
    CushionedIsNoExcess(paid);
    assert ExcessOf(paid, 0) == 1_000_000 && ExcessOf(paid, 1) == 0 by { ReturnedExcess(); }
    assert WeeklyCap(paid.user, 25_000_000, end) == 10_000_000 && RoomAt(paid.user, 25_000_000, now) == 5_000_000;
    hide Enabled, OpenFor, WeekAt, WeeklyCap, SweptDays, RoomAt, Cushioned, ExcessOf, WeekEnd;
    assert Drains(paid, config, end, end + WEEK_SECONDS, 10_000_000);
    BalanceBindingIff(paid, config, now);
    assert !BalanceExplains(CourseOf(paid, config, now), config, now);
  }

  lemma ReturnedIs()
    ensures Returned()
            == State(
                 User(RETURNING, MONDAY * DAY_SECONDS, 0, 0, 0, 100_000_000, Active, SATURDAY * DAY_SECONDS,
                      Pair(0, 0)),
                 Pair(1_000_000_000, 0), 0)
  {
  }

  lemma ReturnedExcess()
    ensures ExcessOf(Returned(), 0) == 1_000_000 && ExcessOf(Returned(), 1) == 0
  {
    ReturnedIs();
  }

  lemma ClosedAllWeekend()
    ensures !HasOpening(Weekly, OpenCalendar(), SATURDAY * DAY_SECONDS, NEXT_MONDAY * DAY_SECONDS)
  {
    hide OpenFor, OpenCalendar;
    forall t: i64 | SATURDAY * DAY_SECONDS <= t < NEXT_MONDAY * DAY_SECONDS
      ensures !OpenFor(Weekly, OpenCalendar(), t)
    {
      ClosedOnWeekend(t, OpenCalendar());
    }
  }

  lemma ClosedOnWeekend(t: int, calendar: MarketCalendar)
    requires SATURDAY * DAY_SECONDS <= t < NEXT_MONDAY * DAY_SECONDS
    ensures !OpenFor(Weekly, calendar, t)
  {
    hide CivilDate.UsDaylightTime, IsSet;
    assert t / DAY_SECONDS == SATURDAY || t / DAY_SECONDS == SATURDAY + 1;
    assert CivilDate.Weekday(SATURDAY) == 6 && CivilDate.Weekday(SATURDAY + 1) == 0;
  }

  lemma OpensOnMonday()
    ensures HasOpening(
              Weekly, OpenCalendar(), NEXT_MONDAY * DAY_SECONDS, NEXT_MONDAY * DAY_SECONDS + WEEK_SECONDS)
  {
    ClientDivision(NEXT_MONDAY + 4, 7);
    hide ClientDaylightTime, UsMarketOpen;
    var session := SessionOf(NEXT_MONDAY, OpenCalendar()).value;
    SessionWithinDay(NEXT_MONDAY, OpenCalendar());
    OpenInSession(session.open, NEXT_MONDAY, OpenCalendar());
    assert OpenFor(Weekly, OpenCalendar(), session.open);
  }
}
