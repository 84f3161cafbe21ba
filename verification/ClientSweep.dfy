/** The client's mirror of the sweep's gate: what it answers, how long the answer holds, and which tokens it reads. */
module ClientSweep {
  import opened Numbers
  import opened Market
  import opened Amount
  import opened Subscriptions
  import opened Program

  /** What the client reads of a token account of the user. */
  datatype TokenAccountState = TokenAccountState(
    amount: u64, delegate: Option<Key>, delegatedAmount: u64, frozen: bool)

  /** Everything the client's answer is computed from. */
  datatype SweepState = SweepState(
    config: Config,
    now: i64,
    token: u8,
    user: User,
    account: Option<TokenAccountState>,
    subscription: Option<Subscription>,
    authority: Key,
    authorityInitId: Option<u64>)

  datatype Ended = EndedSubscription | EndedAuthority | EndedFrozen | EndedDelegate

  /** The pull, the program's error, or what the user must restore first. */
  datatype Answer = Pulls(pull: Pull) | Throws(error: Error) | RestoreRequired(ended: Ended)

  predicate IsRunning(subscription: Option<Subscription>, now: int) {
    subscription.Some? && (subscription.value.expiresAt == 0 || subscription.value.expiresAt > now)
  }

  function ClientToday(now: int): u32 {
    DivEuclid(now, DAY_SECONDS) % (U32_MAX + 1)
  }

  function GetSweepPull(state: SweepState): Answer {
    var config, user, now := state.config, state.user, state.now;
    if config.paused then Throws(ProgramPaused)
    else if state.token >= 2 then Throws(UnknownPaymentToken)
    else if ClientToday(now) <= user.lastSweepDay.At(state.token) then Throws(AlreadySwept)
    else if user.settings.engine.Weekly? && !ClientMarketOpen(now, config.calendar) then Throws(NothingToSweep)
    else
      var balance := if state.account.Some? then state.account.value.amount else 0;
      var pull := ClientPull(user, state.token, balance, config.settings.userWeeklyCap, config.calendar, now);
      if pull.Total() == 0 then Throws(NothingToSweep)
      else if !Enabled(user.settings.paymentTokens, state.token) then Throws(UnknownPaymentToken)
      else if !IsRunning(state.subscription, now) then RestoreRequired(EndedSubscription)
      else if state.authorityInitId != Some(state.subscription.value.initId) then RestoreRequired(EndedAuthority)
      else if state.account.Some? && state.account.value.frozen then RestoreRequired(EndedFrozen)
      else
        var capped := pull.Capped(ClientRemaining(state.subscription, now));
        if capped.Total() == 0 then Throws(NothingToSweep)
        else if state.account.None? || state.account.value.delegate != Some(state.authority)
                || state.account.value.delegatedAmount < capped.Total() then RestoreRequired(EndedDelegate)
        else Pulls(capped)
  }

  // The client against the program

  /** What the builder passes to the program's sweep from a state. */
  function InputOf(state: SweepState): SweepInput {
    var token := if state.token < 2 then state.config.paymentTokens.At(state.token) else PaymentToken(0, 0, 0);
    SweepInput(
      state.token,
      if state.account.Some? then Some(state.account.value.amount) else None,
      token.mint, token.tokenProgram,
      PlanAddress(state.token, state.user.settings.tier),
      state.subscription)
  }

  /** Clocks close enough to each other that no subtraction of the program saturates. */
  predicate ClocksSane(state: SweepState) {
    && SpansFit(state.user, state.now)
    && (state.subscription.Some? ==> state.now - state.subscription.value.periodStart <= I64_MAX)
  }

  /** The checks before the program reads the user's balance. */
  predicate ReadsBalance(state: SweepState) {
    && !state.config.paused && state.token < 2
    && Today(state.now) > state.user.lastSweepDay.At(state.token)
    && (state.user.settings.engine.Weekly? ==> UsMarketOpen(state.now, state.config.calendar))
  }

  /** When the client gives a pull, the program's gate passes with that pull. When the client throws a program error,
      the program fails with that error exactly if the payment account exists or an earlier check fails: for a
      missing account the program's own answer is another error. When the client finds the subscription ended, the
      program fails too. */
  lemma GatesAgree(state: SweepState)
    requires ClocksSane(state)
    ensures var program := SweepGate(state.config, state.user, InputOf(state), state.now);
            match GetSweepPull(state)
            case Pulls(pull) => program == Ok(pull)
            case Throws(error) => program == Err(error) <==> state.account.Some? || !ReadsBalance(state)
            case RestoreRequired(ended) =>
              ended.EndedSubscription? && state.account.Some? ==> program == Err(NothingToSweep)
  {
    hide PullAt, ClientPull, ClientMarketOpen, UsMarketOpen, ClientToday, Today;
    var balance := if state.account.Some? then state.account.value.amount else 0;
    ClientPullsAlike(
      state.user, state.token, balance, state.config.settings.userWeeklyCap, state.config.calendar, state.now);
    ChecksAgree(state);
    RemainingAgrees(state.subscription, state.now);
    if state.account.None? && state.token < 2 {
      NothingFromNothing(
        state.user, state.token, state.config.settings.userWeeklyCap, state.config.calendar, state.now);
    }
  }

  /** What Subscriptions needs of the user's accounts to pull a total at the clock: the authority the subscription was
      made with, and the account neither frozen nor delegated to another or for less. */
  predicate Usable(state: SweepState, total: int) {
    && state.subscription.Some? && state.authorityInitId == Some(state.subscription.value.initId)
    && state.account.Some? && !state.account.value.frozen
    && state.account.value.delegate == Some(state.authority) && total <= state.account.value.delegatedAmount
  }

  /** A pull the program's gate passes with is the client's answer exactly if the accounts can be pulled from;
      otherwise it names the first thing to restore, which really is amiss. */
  lemma RestoresAreNeeded(state: SweepState)
    requires ClocksSane(state)
    ensures var program := SweepGate(state.config, state.user, InputOf(state), state.now);
            program.Ok? ==>
              if Usable(state, program.value.engine + program.value.pending) then
                GetSweepPull(state) == Pulls(program.value)
              else GetSweepPull(state).RestoreRequired?
    ensures GetSweepPull(state).RestoreRequired? ==>
              var s := state.subscription;
              var running := s.Some? && (s.value.expiresAt == 0 || state.now < s.value.expiresAt);
              var sameAuthority := s.Some? && state.authorityInitId == Some(s.value.initId);
              var frozen := state.account.Some? && state.account.value.frozen;
              match GetSweepPull(state).ended
              case EndedSubscription => !running
              case EndedAuthority => running && !sameAuthority
              case EndedFrozen => running && sameAuthority && frozen
              case EndedDelegate =>
                && running && sameAuthority && !frozen
                && (state.account.Some? ==>
                      var program := SweepGate(state.config, state.user, InputOf(state), state.now);
                      program.Ok? && !Usable(state, program.value.engine + program.value.pending))
  {
    hide WeeklyCap, SpentAt, EngineDue, ClientWeeklyCap, ClientSpentAt, ClientEngineDue;
    var balance := if state.account.Some? then state.account.value.amount else 0;
    ClientPullsAlike(
      state.user, state.token, balance, state.config.settings.userWeeklyCap, state.config.calendar, state.now);
    hide PullAt, ClientPull;
    ChecksAgree(state);
    RemainingAgrees(state.subscription, state.now);
  }

  /** Without the payment account, where the program would read its balance, the client says there is nothing to sweep
      and the program that the token account is invalid. */
  lemma MissingAccountDiffers(state: SweepState)
    requires state.account.None? && ReadsBalance(state)
    ensures GetSweepPull(state) == Throws(NothingToSweep)
    ensures SweepGate(state.config, state.user, InputOf(state), state.now) == Err(InvalidTokenAccount)
  {
    assert GetSweepPull(state) == Throws(NothingToSweep) by {
      ChecksAgree(state);
      ClientFindsNothing(state);
    }
    ProgramRefusesMissing(state.config, state.user, InputOf(state), state.now);
  }

  lemma ClientFindsNothing(state: SweepState)
    requires !state.config.paused && state.token < 2 && state.account.None?
    requires ClientToday(state.now) > state.user.lastSweepDay.At(state.token)
    requires state.user.settings.engine.Weekly? ==> ClientMarketOpen(state.now, state.config.calendar)
    ensures GetSweepPull(state) == Throws(NothingToSweep)
  {
    hide ClientPull;
    NothingFromNothing(
      state.user, state.token, state.config.settings.userWeeklyCap, state.config.calendar, state.now);
  }

  lemma ProgramRefusesMissing(config: Config, user: User, input: SweepInput, now: i64)
    requires !config.paused && input.token < 2 && input.balance.None?
    requires Today(now) > user.lastSweepDay.At(input.token)
    requires user.settings.engine.Weekly? ==> UsMarketOpen(now, config.calendar)
    ensures SweepGate(config, user, input, now) == Err(InvalidTokenAccount)
  {
  }

  /** The client's checks before the balance are the program's. */
  lemma ChecksAgree(state: SweepState)
    ensures ClientToday(state.now) == Today(state.now)
    ensures ClientMarketOpen(state.now, state.config.calendar) == UsMarketOpen(state.now, state.config.calendar)
  {
    MarketsAgree(state.now, state.config.calendar);
    ClientDivision(state.now, DAY_SECONDS);
  }

  lemma NothingFromNothing(user: User, token: nat, betaCap: u64, calendar: MarketCalendar, now: int)
    ensures ClientPull(user, token, 0, betaCap, calendar, now).Total() == 0
  {
  }

  /** Such a state: a daily user never swept, with the calendar a new deployment has. */
  lemma MissingAccountExists() returns (state: SweepState)
    ensures ClocksSane(state) && state.account.None? && ReadsBalance(state)
    ensures GetSweepPull(state) == Throws(NothingToSweep)
    ensures SweepGate(state.config, state.user, InputOf(state), state.now) == Err(InvalidTokenAccount)
  {
    var config := Config(
      false, Settings(1, 1, 25_000_000, 1), 1,
      Pair(Asset(1, 1, 8, 1), Asset(2, 1, 8, 2)), Pair(PaymentToken(3, 1, 0), PaymentToken(4, 1, 5)),
      MarketCalendar(0, 0, NoDays(), NoDays()));
    var params := EnrollParams(0, 1, 0, Daily, 1_000_000, false, 0, Pair(0, 0), 0, EMPTY_LABEL);
    state := SweepState(config, 86400, 0, Enrolled(params, 86400), None, None, 0, None);
    MissingAccountDiffers(state);
  }

  // How long the answer holds

  /** The user's next week, or the enrollment when it is still ahead. */
  function NextWeek(user: User, now: int): int {
    if now < user.enrolledAt then user.enrolledAt
    else user.enrolledAt + (ClientWeekAt(user, now) + 1) * WEEK_SECONDS
  }

  /** The first turn after `now` of a period that started at `start`. */
  function NextTurn(start: int, period: int, now: int): int
    requires period > 0
  {
    start + ((now - start) / period + 1) * period
  }

  lemma NextTurnIsNext(start: int, period: int, now: int)
    requires period > 0 && now >= start
    ensures now < NextTurn(start, period, now) <= now + period
    ensures now < start + period ==> NextTurn(start, period, now) == start + period
  {
    DivisionParts(now - start, period);
    if now < start + period {
      QuotientIs(now - start, period, 0, now - start);
    }
  }

  /** An instant after the clock at which the rules can change: UTC midnight, a whole number of weeks after the
      enrollment, a session's open or close for a weekly user, the subscription's expiry or, once its period has
      started, a whole number of periods after that. */
  ghost predicate IsBoundary(state: SweepState, instant: int) {
    state.now < instant
    && (|| instant % 86_400 == 0
        || WholeSpansAfter(state.user.enrolledAt, 604_800, instant)
        || (state.user.settings.engine.Weekly? && IsSessionEdge(state.config.calendar, instant))
        || (state.subscription.Some?
            && var s := state.subscription.value;
               || instant == s.expiresAt
               || (state.now >= s.periodStart && WholeSpansAfter(s.periodStart, s.periodHours * 3600, instant))))
  }

  /** `instant` is a whole number of spans after `start`. */
  predicate WholeSpansAfter(start: int, span: nat, instant: int) {
    span > 0 && start <= instant && (instant - start) % span == 0
  }

  /** From one turn to the next there is no other. */
  lemma TurnsAre(start: int, span: nat, now: int, instant: int)
    requires span > 0 && start <= now < instant
    ensures WholeSpansAfter(start, span, start + ((now - start) / span + 1) * span)
    ensures WholeSpansAfter(start, span, instant) ==> start + ((now - start) / span + 1) * span <= instant
  {
    var q := (now - start) / span;
    DivisionParts(now - start, span);
    SpansFrom(start, span, q + 1);
    if WholeSpansAfter(start, span, instant) {
      DivisionParts(instant - start, span);
      NextMultiple(q, (instant - start) / span, span, now - start);
    }
  }

  lemma SpansFrom(start: int, span: nat, k: nat)
    requires span > 0
    ensures WholeSpansAfter(start, span, start + k * span)
  {
    QuotientIs(k * span, span, k, 0);
  }

  lemma NextMultiple(q: int, m: int, span: nat, elapsed: int)
    requires span > 0 && q * span <= elapsed < m * span
    ensures (q + 1) * span <= m * span
  {
    if m <= q {
      TimesGrows(m, q, span);
      assert false;
    }
    TimesGrows(q + 1, m, span);
  }

  lemma TimesGrows(a: int, b: int, span: nat)
    requires a <= b
    ensures a * span <= b * span
  {
  }

  lemma WeekTurnsAre(user: User, now: i64, instant: int)
    requires ClockInRange(now) && 0 <= user.enrolledAt && now < instant
    ensures WholeSpansAfter(user.enrolledAt, 604_800, NextWeek(user, now))
    ensures WholeSpansAfter(user.enrolledAt, 604_800, instant) ==> NextWeek(user, now) <= instant
  {
    if now >= user.enrolledAt {
      ClientWeeksAlike(user, now);
      WeeksExact(user, now);
      hide ClientWeekAt;
      TurnsAre(user.enrolledAt, 604_800, now, instant);
    }
  }

  ghost predicate IsSessionEdge(calendar: MarketCalendar, instant: int) {
    exists day ::
      SessionOf(day, calendar).Some?
      && (instant == SessionOf(day, calendar).value.open || instant == SessionOf(day, calendar).value.close)
  }

  /** The week, the trial and what was spent hold still until the user's next week. */
  lemma WeekHoldsStill(user: User, betaCap: u64, now: i64, later: i64)
    requires 0 <= user.enrolledAt && ClockInRange(now) && ClockInRange(later) && now <= later
    requires later < if now < user.enrolledAt then user.enrolledAt
                     else user.enrolledAt + (ClientWeekAt(user, now) + 1) * WEEK_SECONDS
    ensures ClientWeekAt(user, later) == ClientWeekAt(user, now)
    ensures ClientWeeklyCap(user, betaCap, later) == ClientWeeklyCap(user, betaCap, now)
    ensures ClientSpentAt(user, later) == ClientSpentAt(user, now)
  {
    if now >= user.enrolledAt {
      ClientWeeksAlike(user, now);
      ClientWeeksAlike(user, later);
      WeeksExact(user, now);
      WeeksExact(user, later);
      assert (later - user.enrolledAt) / WEEK_SECONDS == (now - user.enrolledAt) / WEEK_SECONDS;
    }
  }

  /** Open or closed holds still until the session in progress closes or the next one opens. */
  lemma MarketHoldsStill(calendar: MarketCalendar, next: Option<MarketSession>, now: int, later: int)
    requires now <= later && IsNextSession(next, now, calendar)
    requires next.Some? ==> later < if now < next.value.open then next.value.open else next.value.close
    ensures ClientMarketOpen(later, calendar) == ClientMarketOpen(now, calendar)
  {
    if next.Some? {
      var day :| SessionOf(day, calendar) == next;
      if next.value.open <= now {
        OpenInSession(now, day, calendar);
        OpenInSession(later, day, calendar);
        MarketsAgree(now, calendar);
        MarketsAgree(later, calendar);
      } else {
        NotBeforeOpen(calendar, day, now, now);
        NotBeforeOpen(calendar, day, now, later);
      }
    }
  }

  lemma NotBeforeOpen(calendar: MarketCalendar, day: int, now: int, instant: int)
    requires SessionOf(day, calendar).Some? && now <= instant < SessionOf(day, calendar).value.open
    requires forall d :: SessionOf(d, calendar).Some? && now < SessionOf(d, calendar).value.close ==>
                           SessionOf(day, calendar).value.close <= SessionOf(d, calendar).value.close
    ensures !ClientMarketOpen(instant, calendar)
  {
    var today := DivEuclid(instant, DAY_SECONDS);
    if ClientMarketOpen(instant, calendar) {
      SessionWithinDay(day, calendar);
      SessionWithinDay(today, calendar);
      SameSession(day, today, SessionOf(day, calendar).value, SessionOf(today, calendar).value, instant);
    }
  }

  /** A session still running at `instant` that closes no earlier than one opening later does not exist. */
  lemma SameSession(day: int, today: int, next: MarketSession, running: MarketSession, instant: int)
    requires day * DAY_SECONDS < next.open < next.close < (day + 1) * DAY_SECONDS
    requires today * DAY_SECONDS < running.open < running.close < (today + 1) * DAY_SECONDS
    requires day == today ==> next == running
    requires running.open <= instant < running.close
    requires instant < next.open
    ensures next.close > running.close
  {
  }

  /** What the subscription allows holds still until its period turns or it expires. */
  lemma SubscriptionHoldsStill(s: Subscription, now: int, later: int)
    requires now <= later < now + U32_MAX && now - s.periodStart < U64_MAX - U32_MAX
    requires s.expiresAt > now ==> later < s.expiresAt
    requires now < s.periodStart + s.periodHours * 3600 ==> later < s.periodStart + s.periodHours * 3600
    ensures ClientRemaining(Some(s), later) == ClientRemaining(Some(s), now)
    ensures IsRunning(Some(s), later) == IsRunning(Some(s), now)
  {
  }

  lemma NextWeekIsAfter(user: User, now: i64)
    requires ClockInRange(now) && 0 <= user.enrolledAt
    ensures now < NextWeek(user, now)
  {
    if now >= user.enrolledAt {
      ClientWeeksAlike(user, now);
      WeeksExact(user, now);
    }
  }

  /** What holds still with the clock short of every boundary but the subscription's. */
  lemma RestHoldsStill(state: SweepState, later: i64)
    requires ClockInRange(state.now) && 0 <= state.user.enrolledAt && state.now <= later
    requires later < (state.now / DAY_SECONDS + 1) * DAY_SECONDS
    requires later < NextWeek(state.user, state.now)
    requires state.user.settings.engine.Weekly? ==>
               ClientMarketOpen(later, state.config.calendar) == ClientMarketOpen(state.now, state.config.calendar)
    ensures ClientToday(later) == ClientToday(state.now)
    ensures var balance := if state.account.Some? then state.account.value.amount else 0;
            var betaCap, calendar := state.config.settings.userWeeklyCap, state.config.calendar;
            ClientPull(state.user, state.token, balance, betaCap, calendar, later)
            == ClientPull(state.user, state.token, balance, betaCap, calendar, state.now)
  {
    ClientDivision(state.now, DAY_SECONDS);
    ClientDivision(later, DAY_SECONDS);
    assert later / DAY_SECONDS == state.now / DAY_SECONDS;
    WeekHoldsStill(state.user, state.config.settings.userWeeklyCap, state.now, later);
    PullHoldsStill(
      state.user, state.token, if state.account.Some? then state.account.value.amount else 0,
      state.config.settings.userWeeklyCap, state.config.calendar, state.now, later);
  }

  lemma PullHoldsStill(
    user: User, token: nat, balance: u64, betaCap: u64, calendar: MarketCalendar, now: i64, later: i64)
    requires ClientWeekAt(user, later) == ClientWeekAt(user, now)
    requires ClientWeeklyCap(user, betaCap, later) == ClientWeeklyCap(user, betaCap, now)
    requires DivEuclid(later, DAY_SECONDS) == DivEuclid(now, DAY_SECONDS)
    requires user.settings.engine.Weekly? ==> ClientMarketOpen(later, calendar) == ClientMarketOpen(now, calendar)
    ensures ClientPull(user, token, balance, betaCap, calendar, later)
            == ClientPull(user, token, balance, betaCap, calendar, now)
  {
    assert ClientEngineDue(user, calendar, later) == ClientEngineDue(user, calendar, now);
  }

  /** The clock and the subscription enter the client's answer only through these. */
  lemma SameAnswer(state: SweepState, other: SweepState)
    requires other == state.(now := other.now, subscription := other.subscription)
    requires ClientToday(other.now) == ClientToday(state.now)
    requires state.user.settings.engine.Weekly? ==>
               ClientMarketOpen(other.now, state.config.calendar) == ClientMarketOpen(state.now, state.config.calendar)
    requires var balance := if state.account.Some? then state.account.value.amount else 0;
             var betaCap := state.config.settings.userWeeklyCap;
             ClientPull(state.user, state.token, balance, betaCap, state.config.calendar, other.now)
             == ClientPull(state.user, state.token, balance, betaCap, state.config.calendar, state.now)
    requires IsRunning(other.subscription, other.now) == IsRunning(state.subscription, state.now)
    requires state.subscription.Some? && other.subscription.Some? ==>
               other.subscription.value.initId == state.subscription.value.initId
    requires ClientRemaining(other.subscription, other.now) == ClientRemaining(state.subscription, state.now)
    ensures GetSweepPull(other) == GetSweepPull(state)
  {
  }

  /** Before every boundary, and before the turn of a period still to start, the client's answer is the same. */
  lemma AnswerHoldsStill(state: SweepState, later: i64)
    requires ClockInRange(state.now) && 0 <= state.user.enrolledAt && state.now <= later
    requires later < (state.now / DAY_SECONDS + 1) * DAY_SECONDS
    requires later < NextWeek(state.user, state.now)
    requires state.user.settings.engine.Weekly? ==>
               ClientMarketOpen(later, state.config.calendar) == ClientMarketOpen(state.now, state.config.calendar)
    requires state.subscription.Some? ==>
               var s := state.subscription.value;
               && (s.expiresAt > state.now ==> later < s.expiresAt)
               && (state.now < s.periodStart + s.periodHours * 3600 ==> later < s.periodStart + s.periodHours * 3600)
    ensures GetSweepPull(state.(now := later)) == GetSweepPull(state)
  {
    hide GetSweepPull, ClientPull, ClientMarketOpen, ClientToday, ClientRemaining;
    RestHoldsStill(state, later);
    if state.subscription.Some? {
      SubscriptionHoldsStill(state.subscription.value, state.now, later);
    } else {
      assert ClientRemaining(None, later) == ClientRemaining(None, state.now) by { NothingRemains(later, state.now); }
    }
    SameAnswer(state, state.(now := later));
  }

  lemma NothingRemains(later: int, now: int)
    ensures ClientRemaining(None, later) == ClientRemaining(None, now)
  {
  }

  /** The state with nothing yet pulled in the subscription's period. */
  function Refilled(state: SweepState): SweepState {
    if state.subscription.None? then state
    else state.(subscription := Some(state.subscription.value.(pulledInPeriod := 0)))
  }

  /** From the turn of a period still to start, the answer is the one with nothing pulled in the period. */
  lemma AnswerRefills(state: SweepState, later: i64)
    requires ClockInRange(state.now) && 0 <= state.user.enrolledAt && state.now <= later
    requires later < (state.now / DAY_SECONDS + 1) * DAY_SECONDS
    requires later < NextWeek(state.user, state.now)
    requires state.user.settings.engine.Weekly? ==>
               ClientMarketOpen(later, state.config.calendar) == ClientMarketOpen(state.now, state.config.calendar)
    requires state.subscription.Some?
    requires var s := state.subscription.value;
             && (s.expiresAt > state.now ==> later < s.expiresAt)
             && state.now < s.periodStart && s.periodStart + s.periodHours * 3600 <= later
    ensures GetSweepPull(state.(now := later)) == GetSweepPull(Refilled(state))
  {
    hide GetSweepPull, ClientPull, ClientMarketOpen, ClientToday, ClientRemaining;
    RestHoldsStill(state, later);
    PeriodRefills(state.subscription.value, state.now, later);
    SameAnswer(Refilled(state), state.(now := later));
  }

  lemma PeriodRefills(s: Subscription, now: int, later: int)
    requires now < s.periodStart && s.periodStart + s.periodHours * 3600 <= later < now + U32_MAX
    requires s.expiresAt > now ==> later < s.expiresAt
    ensures ClientRemaining(Some(s), later) == ClientRemaining(Some(s.(pulledInPeriod := 0)), now)
    ensures IsRunning(Some(s), later) == IsRunning(Some(s.(pulledInPeriod := 0)), now)
  {
  }

  /** The answer is the same at every clock up to `until`. */
  ghost predicate AnswerHolds(state: SweepState, until: int) {
    forall later: i64 :: state.now <= later < until ==> GetSweepPull(state.(now := later)) == GetSweepPull(state)
  }

  /** The program's gate passes with this pull at every clock up to `until`. */
  ghost predicate GatePulls(state: SweepState, pull: Pull, until: int) {
    forall later: i64 :: state.now <= later < until && ClocksSane(state.(now := later)) ==>
                           SweepGate(state.config, state.user, InputOf(state), later) == Ok(pull)
  }

  /** A pull that the client's answer stays at is the program's for as long: whenever the sweep built from it lands
      before that, the gate passes with it. */
  lemma PullHoldsInProgram(state: SweepState, until: int)
    requires GetSweepPull(state).Pulls? && AnswerHolds(state, until)
    ensures GatePulls(state, GetSweepPull(state).pull, until)
  {
    hide GetSweepPull, SweepGate, ClocksSane;
    forall later: i64 | state.now <= later < until && ClocksSane(state.(now := later))
      ensures SweepGate(state.config, state.user, InputOf(state), later) == Ok(GetSweepPull(state).pull)
    {
      GatesAgree(state.(now := later));
      assert GetSweepPull(state.(now := later)) == GetSweepPull(state);
    }
  }

  /** A period still to start is over before the first boundary: the code lists no turn of one. */
  ghost predicate TurnsUnlisted(state: SweepState) {
    state.subscription.Some?
    && var s := state.subscription.value;
       && state.now < s.periodStart
       && forall instant :: state.now < instant <= s.periodStart + s.periodHours * 3600 ==> !IsBoundary(state, instant)
  }

  /** The subscription's period has started or lasts a day or more, as every plan's does. */
  predicate PeriodSeen(state: SweepState) {
    state.subscription.Some? ==>
      state.now >= state.subscription.value.periodStart || state.subscription.value.periodHours >= 24
  }

  /** Seconds to the first boundary, at most a day. The client's answer, pull or error, holds until it, for every
      subscription whose period has started or lasts a day; in general it holds exactly if no period still to start is
      over by then, or one's turn would not change the answer now. A pull that holds is the program's all the while. */
  method SecondsToNextSweepBoundary(state: SweepState) returns (seconds: int)
    requires ClockInRange(state.now) && 0 <= state.user.enrolledAt
    ensures 0 < seconds <= DAY_SECONDS
    ensures IsBoundary(state, state.now + seconds)
    ensures forall instant :: instant < state.now + seconds ==> !IsBoundary(state, instant)
    ensures PeriodSeen(state) ==> AnswerHolds(state, state.now + seconds)
    ensures AnswerHolds(state, state.now + seconds)
            <==> !TurnsUnlisted(state) || GetSweepPull(Refilled(state)) == GetSweepPull(state)
    ensures AnswerHolds(state, state.now + seconds) && GetSweepPull(state).Pulls? ==>
              GatePulls(state, GetSweepPull(state).pull, state.now + seconds)
  {
    hide GetSweepPull, SessionOf, ClientMarketOpen, IsBoundary, NextTurn, ClientWeekAt, IsNextSession, GatePulls;
    hide AnswerHolds, TurnsUnlisted, PeriodSeen, BeforeListed, Refilled;
    var now, user, subscription := state.now, state.user, state.subscription;
    var boundaries := [(DivEuclid(now, DAY_SECONDS) + 1) * DAY_SECONDS];
    boundaries := boundaries + [
      if now < user.enrolledAt then user.enrolledAt
      else user.enrolledAt + (ClientWeekAt(user, now) + 1) * WEEK_SECONDS];
    ghost var listed := boundaries;
    var session := None;
    if user.settings.engine.Weekly? {
      session := NextMarketSession(now, state.config.calendar);
      if session.Some? {
        boundaries := boundaries + [if now < session.value.open then session.value.open else session.value.close];
      }
    }
    assert boundaries == listed + Edges(state, session);
    listed := boundaries;
    if subscription.Some? {
      var s := subscription.value;
      if s.expiresAt > now {
        boundaries := boundaries + [s.expiresAt];
      }
      assert boundaries == listed + Expiries(state);
      listed := boundaries;
      var period := s.periodHours * 3600;
      if period > 0 && now >= s.periodStart {
        boundaries := boundaries + [NextTurn(s.periodStart, period, now)];
      }
      assert boundaries == listed + Turns(state);
    } else {
      assert Expiries(state) == Turns(state) == [];
    }
    hide Edges, Expiries, Turns;
    assert boundaries == Listed(state, session);
    hide Listed;
    var next := Earliest(boundaries);
    seconds := next - now;
    FirstListed(state, session, next);
    if AnswerHolds(state, next) && GetSweepPull(state).Pulls? {
      PullHoldsInProgram(state, next);
    }
  }

  /** The first instant listed is the first boundary, and what holds until it. */
  lemma FirstListed(state: SweepState, session: Option<MarketSession>, next: int)
    requires ClockInRange(state.now) && 0 <= state.user.enrolledAt
    requires state.user.settings.engine.Weekly? ==> IsNextSession(session, state.now, state.config.calendar)
    requires next in Listed(state, session) && forall instant :: instant in Listed(state, session) ==> next <= instant
    ensures state.now < next <= state.now + DAY_SECONDS
    ensures IsBoundary(state, next) && forall instant :: instant < next ==> !IsBoundary(state, instant)
    ensures PeriodSeen(state) ==> AnswerHolds(state, next)
    ensures AnswerHolds(state, next) <==> !TurnsUnlisted(state) || GetSweepPull(Refilled(state)) == GetSweepPull(state)
  {
    hide GetSweepPull, IsBoundary, IsNextSession, AnswerHolds, TurnsUnlisted, PeriodSeen, BeforeListed, Refilled;
    hide Listed;
    ListedAreBoundaries(state, session);
    EarliestListed(state, session, next);
    FirstBoundary(state, session, next);
    AnswersHoldStill(state, session, next);
  }

  /** The instants the code lists, with the next session it found. */
  function Listed(state: SweepState, session: Option<MarketSession>): seq<int> {
    [(DivEuclid(state.now, DAY_SECONDS) + 1) * DAY_SECONDS] + [NextWeek(state.user, state.now)]
    + Edges(state, session) + Expiries(state) + Turns(state)
  }

  function Edges(state: SweepState, session: Option<MarketSession>): seq<int> {
    if state.user.settings.engine.Weekly? && session.Some?
    then [if state.now < session.value.open then session.value.open else session.value.close] else []
  }

  function Expiries(state: SweepState): seq<int> {
    if state.subscription.Some? && state.subscription.value.expiresAt > state.now
    then [state.subscription.value.expiresAt] else []
  }

  function Turns(state: SweepState): seq<int> {
    if state.subscription.Some? && state.subscription.value.periodHours > 0
       && state.now >= state.subscription.value.periodStart
    then [NextTurn(state.subscription.value.periodStart, state.subscription.value.periodHours * 3600, state.now)]
    else []
  }

  lemma ListedAreBoundaries(state: SweepState, session: Option<MarketSession>)
    requires ClockInRange(state.now) && 0 <= state.user.enrolledAt
    requires state.user.settings.engine.Weekly? ==> IsNextSession(session, state.now, state.config.calendar)
    ensures forall instant :: instant in Listed(state, session) ==> state.now < instant && IsBoundary(state, instant)
    ensures (DivEuclid(state.now, DAY_SECONDS) + 1) * DAY_SECONDS in Listed(state, session)
    ensures (DivEuclid(state.now, DAY_SECONDS) + 1) * DAY_SECONDS <= state.now + DAY_SECONDS
  {
    hide NextWeek, NextTurn, SessionOf, IsSessionEdge;
    MidnightIsBoundary(state);
    NextWeekIsBoundary(state);
    if state.user.settings.engine.Weekly? && session.Some? {
      EdgeIsBoundary(
        state, session.value, if state.now < session.value.open then session.value.open else session.value.close);
    }
    if state.subscription.Some? {
      SubscriptionBoundaries(state);
    }
  }

  lemma EarliestListed(state: SweepState, session: Option<MarketSession>, next: int)
    requires state.user.settings.engine.Weekly? ==> IsNextSession(session, state.now, state.config.calendar)
    requires forall instant :: instant in Listed(state, session) ==> next <= instant
    ensures BeforeListed(state, session, next)
  {
    hide NextWeek, NextTurn, IsNextSession, DivEuclid;
    ClientDivision(state.now, DAY_SECONDS);
    var now, listed := state.now, Listed(state, session);
    assert listed[0] in listed && listed[1] in listed;
    assert state.user.settings.engine.Weekly? && session.Some? ==>
        (if now < session.value.open then session.value.open else session.value.close) in listed;
    if state.subscription.Some? {
      var s := state.subscription.value;
      assert s.expiresAt > now ==> s.expiresAt in listed;
      assert s.periodHours > 0 && now >= s.periodStart ==> NextTurn(s.periodStart, s.periodHours * 3600, now) in listed;
    }
  }

  lemma MidnightIsBoundary(state: SweepState)
    ensures var midnight := (DivEuclid(state.now, DAY_SECONDS) + 1) * DAY_SECONDS;
            && midnight == (state.now / DAY_SECONDS + 1) * DAY_SECONDS
            && state.now < midnight && IsBoundary(state, midnight)
  {
    hide NextTurn, ClientWeekAt;
    ClientDivision(state.now, DAY_SECONDS);
  }

  lemma NextWeekIsBoundary(state: SweepState)
    requires ClockInRange(state.now) && 0 <= state.user.enrolledAt
    ensures IsBoundary(state, NextWeek(state.user, state.now))
    ensures state.now < NextWeek(state.user, state.now)
  {
    hide NextTurn;
    NextWeekIsAfter(state.user, state.now);
    WeekTurnsAre(state.user, state.now, state.now + 1);
  }

  lemma EdgeIsBoundary(state: SweepState, session: MarketSession, edge: int)
    requires state.user.settings.engine.Weekly? && state.now < edge
    requires exists day :: SessionOf(day, state.config.calendar) == Some(session)
    requires edge == session.open || edge == session.close
    ensures IsBoundary(state, edge)
  {
    hide SessionOf, NextTurn, ClientWeekAt;
    var day :| SessionOf(day, state.config.calendar) == Some(session);
  }

  lemma SubscriptionBoundaries(state: SweepState)
    requires state.subscription.Some?
    ensures var s := state.subscription.value;
            && (s.expiresAt > state.now ==> IsBoundary(state, s.expiresAt))
            && (s.periodHours > 0 && state.now >= s.periodStart ==>
                  var turn := NextTurn(s.periodStart, s.periodHours * 3600, state.now);
                  state.now < turn && IsBoundary(state, turn))
  {
    hide ClientWeekAt;
    var s := state.subscription.value;
    if s.periodHours > 0 && state.now >= s.periodStart {
      NextTurnIsNext(s.periodStart, s.periodHours * 3600, state.now);
      TurnsAre(s.periodStart, s.periodHours * 3600, state.now, state.now + 1);
    }
  }

  /** `next` is no later than any instant the code lists. */
  ghost predicate BeforeListed(state: SweepState, session: Option<MarketSession>, next: int) {
    && next <= (state.now / DAY_SECONDS + 1) * DAY_SECONDS && next <= NextWeek(state.user, state.now)
    && (state.user.settings.engine.Weekly? ==>
          && IsNextSession(session, state.now, state.config.calendar)
          && (session.Some? ==>
                next <= if state.now < session.value.open then session.value.open else session.value.close))
    && (state.subscription.Some? ==>
          var s := state.subscription.value;
          && (s.expiresAt > state.now ==> next <= s.expiresAt)
          && (state.now >= s.periodStart && s.periodHours > 0 ==>
                next <= NextTurn(s.periodStart, s.periodHours * 3600, state.now)))
  }

  /** The code lists the first of all boundaries. */
  lemma FirstBoundary(state: SweepState, session: Option<MarketSession>, next: int)
    requires ClockInRange(state.now) && 0 <= state.user.enrolledAt
    requires BeforeListed(state, session, next)
    ensures forall instant :: instant < next ==> !IsBoundary(state, instant)
  {
    hide NextWeek, IsNextSession, WholeSpansAfter;
    forall instant | instant < next ensures !IsBoundary(state, instant) {
      if state.now < instant {
        if instant % 86_400 == 0 {
          MidnightsAre(state.now, instant);
        }
        WeekTurnsAre(state.user, state.now, instant);
        if state.subscription.Some? && state.now >= state.subscription.value.periodStart {
          PeriodTurnsAre(state.subscription.value, state.now, instant);
        }
      }
      if state.user.settings.engine.Weekly? && state.now < instant && IsSessionEdge(state.config.calendar, instant) {
        NoEarlierEdge(state.config.calendar, session, state.now, instant);
      }
    }
  }

  lemma MidnightsAre(now: int, instant: int)
    requires now < instant && instant % 86_400 == 0
    ensures (now / DAY_SECONDS + 1) * DAY_SECONDS <= instant
  {
  }

  lemma PeriodTurnsAre(s: Subscription, now: int, instant: int)
    requires s.periodStart <= now < instant
    ensures WholeSpansAfter(s.periodStart, s.periodHours * 3600, instant) ==>
              s.periodHours > 0 && NextTurn(s.periodStart, s.periodHours * 3600, now) <= instant
  {
    if s.periodHours > 0 {
      TurnsAre(s.periodStart, s.periodHours * 3600, now, instant);
    }
  }

  /** No session opens or closes between the clock and the next session's next edge. */
  lemma NoEarlierEdge(calendar: MarketCalendar, next: Option<MarketSession>, now: int, edge: int)
    requires IsNextSession(next, now, calendar)
    requires now < edge && IsSessionEdge(calendar, edge)
    ensures next.Some? && (if now < next.value.open then next.value.open else next.value.close) <= edge
  {
    var day :| SessionOf(day, calendar).Some?
      && (edge == SessionOf(day, calendar).value.open || edge == SessionOf(day, calendar).value.close);
    SessionWithinDay(day, calendar);
    assert now < SessionOf(day, calendar).value.close;
    var first :| SessionOf(first, calendar) == next;
    SessionWithinDay(first, calendar);
    hide SessionOf;
    if first != day {
      assert first < day;
    }
  }

  /** The subscription's period is still to start, and over before `next`. */
  predicate TurnsBefore(state: SweepState, next: int) {
    state.subscription.Some?
    && state.now < state.subscription.value.periodStart
    && state.subscription.value.periodStart + state.subscription.value.periodHours * 3600 < next
  }

  lemma AnswersHoldStill(state: SweepState, session: Option<MarketSession>, next: int)
    requires ClockInRange(state.now) && 0 <= state.user.enrolledAt && state.now < next
    requires BeforeListed(state, session, next)
    requires IsBoundary(state, next) && forall instant :: instant < next ==> !IsBoundary(state, instant)
    ensures PeriodSeen(state) ==> AnswerHolds(state, next)
    ensures AnswerHolds(state, next) <==> !TurnsUnlisted(state) || GetSweepPull(Refilled(state)) == GetSweepPull(state)
  {
    assert TurnsUnlisted(state) <==> TurnsBefore(state, next) by {
      if state.subscription.Some? && !TurnsBefore(state, next) {
        assert IsBoundary(state, next);
      }
    }
    assert PeriodSeen(state) ==> !TurnsBefore(state, next);
    hide GetSweepPull, IsBoundary, TurnsUnlisted, PeriodSeen;
    forall later: i64 | state.now <= later < next
      ensures GetSweepPull(state.(now := later))
              == if TurnsBefore(state, next)
                    && later >= state.subscription.value.periodStart + state.subscription.value.periodHours * 3600
                 then GetSweepPull(Refilled(state)) else GetSweepPull(state)
    {
      AnswerAt(state, session, next, later);
    }
    if TurnsBefore(state, next) {
      var turn: i64 := state.subscription.value.periodStart + state.subscription.value.periodHours * 3600;
      assert GetSweepPull(state.(now := turn)) == GetSweepPull(Refilled(state));
    }
  }

  lemma AnswerAt(state: SweepState, session: Option<MarketSession>, next: int, later: i64)
    requires ClockInRange(state.now) && 0 <= state.user.enrolledAt && state.now <= later < next
    requires BeforeListed(state, session, next)
    ensures GetSweepPull(state.(now := later))
            == if TurnsBefore(state, next)
                  && later >= state.subscription.value.periodStart + state.subscription.value.periodHours * 3600
               then GetSweepPull(Refilled(state)) else GetSweepPull(state)
  {
    hide GetSweepPull;
    if state.user.settings.engine.Weekly? {
      MarketHoldsStill(state.config.calendar, session, state.now, later);
    }
    hide IsNextSession, ClientMarketOpen, Refilled;
    if state.subscription.Some? {
      var s := state.subscription.value;
      if state.now >= s.periodStart && s.periodHours > 0 {
        NextTurnIsNext(s.periodStart, s.periodHours * 3600, state.now);
      }
    }
    if TurnsBefore(state, next)
       && later >= state.subscription.value.periodStart + state.subscription.value.periodHours * 3600 {
      AnswerRefills(state, later);
    } else {
      AnswerHoldsStill(state, later);
    }
  }

  method Earliest(boundaries: seq<int>) returns (next: int)
    requires boundaries != []
    ensures next in boundaries && forall b :: b in boundaries ==> next <= b
  {
    next := boundaries[0];
    for i := 1 to |boundaries|
      invariant next in boundaries && forall j :: 0 <= j < i ==> next <= boundaries[j]
    {
      next := if boundaries[i] < next then boundaries[i] else next;
    }
  }

  // The tokens worth reading

  datatype Candidate = Candidate(token: nat, user: User)

  /** The token is enabled, its user active, its last sweep before today, and a rich enough account would be pulled. */
  predicate WorthReading(c: Candidate, config: Config, now: i64) {
    && c.token < 2 && Enabled(c.user.settings.paymentTokens, c.token)
    && c.user.status.Active?
    && (c.user.settings.engine.Weekly? ==> ClientMarketOpen(now, config.calendar))
    && c.user.lastSweepDay.At(c.token) < DivEuclid(now, DAY_SECONDS)
    && ClientPull(c.user, c.token, U64_MAX, config.settings.userWeeklyCap, config.calendar, now).Total() > 0
  }

  /** The candidates among `users`, in order, token by token. */
  function Candidates(users: seq<User>, config: Config, now: i64): seq<Candidate> {
    if users == [] then []
    else
      Candidates(users[..|users| - 1], config, now) + CandidatesOf(users[|users| - 1], config, now, 2)
  }

  function CandidatesOf(user: User, config: Config, now: i64, tokens: nat): seq<Candidate> {
    if tokens == 0 then []
    else
      CandidatesOf(user, config, now, tokens - 1)
      + if WorthReading(Candidate(tokens - 1, user), config, now) then [Candidate(tokens - 1, user)] else []
  }

  method SweepCandidates(users: seq<User>, config: Config, now: i64) returns (candidates: seq<Candidate>)
    ensures candidates == Candidates(users, config, now)
  {
    hide ClientMarketOpen, ClientPull;
    candidates := [];
    var day := DivEuclid(now, DAY_SECONDS);
    var open := ClientMarketOpen(now, config.calendar);
    var i := 0;
    while i < |users|
      invariant 0 <= i <= |users|
      invariant candidates == Candidates(users[..i], config, now)
    {
      var user := users[i];
      assert users[..i + 1][..i] == users[..i];
      i := i + 1;
      if !user.status.Active? || (user.settings.engine.Weekly? && !open) {
        assert CandidatesOf(user, config, now, 1) == CandidatesOf(user, config, now, 0) == [];
        assert CandidatesOf(user, config, now, 2) == CandidatesOf(user, config, now, 1);
        continue;
      }
      var token := 0;
      while token < 2
        invariant 0 <= token <= 2
        invariant candidates == Candidates(users[..i - 1], config, now) + CandidatesOf(user, config, now, token)
      {
        if Enabled(user.settings.paymentTokens, token) && user.lastSweepDay.At(token) < day {
          var upperBound := ClientPull(
            user, token, U64_MAX, config.settings.userWeeklyCap, config.calendar, now);
          if upperBound.Total() > 0 {
            candidates := candidates + [Candidate(token, user)];
          }
        }
        token := token + 1;
      }
    }
    assert users[..|users|] == users;
  }

  /** The candidates are in the order of the users, each user's first token before the second. */
  lemma {:induction false} CandidatesInOrder(users: seq<User>, more: seq<User>, config: Config, now: i64)
    ensures Candidates(users + more, config, now) == Candidates(users, config, now) + Candidates(more, config, now)
    ensures |users| == 1 ==>
              var first, second := Candidate(0, users[0]), Candidate(1, users[0]);
              Candidates(users, config, now)
              == (if WorthReading(first, config, now) then [first] else [])
                 + if WorthReading(second, config, now) then [second] else []
    decreases more
  {
    hide WorthReading;
    if |users| == 1 {
      assert users[..0] == [];
      assert CandidatesOf(users[0], config, now, 0) == [];
      assert CandidatesOf(users[0], config, now, 2) == Candidates(users, config, now);
    }
    if more == [] {
      assert users + more == users;
    } else {
      var last := |more| - 1;
      assert (users + more)[..|users| + last] == users + more[..last];
      CandidatesInOrder(users, more[..last], config, now);
    }
  }

  /** What makes a token worth reading: it is one of the user's, who is active, and was not swept today; for a weekly
      user the market is open; and some balance would be pulled from. */
  ghost predicate MaySweep(c: Candidate, config: Config, now: i64) {
    && ((c.token == 0 && c.user.settings.paymentTokens & 1 != 0)
        || (c.token == 1 && c.user.settings.paymentTokens & 2 != 0))
    && c.user.status == Active
    && (if c.token == 0 then c.user.lastSweepDay.first else c.user.lastSweepDay.second) < now / 86_400
    && (c.user.settings.engine == Weekly ==> InSession(now, config.calendar))
    && exists balance: u64 ::
         PullAt(c.user, c.token, balance, config.settings.userWeeklyCap, config.calendar, now).Total() > 0
  }

  /** The candidates are exactly the tokens of the users that may be swept. */
  lemma CandidatesMaySweep(users: seq<User>, config: Config, now: i64, c: Candidate)
    requires SpansFit(c.user, now)
    ensures c in Candidates(users, config, now) <==> c.user in users && MaySweep(c, config, now)
  {
    hide PullAt, ClientPull, ClientMarketOpen, UsMarketOpen, InSession;
    CandidatesAreWorthReading(users, config, now, c);
    MarketsAgree(now, config.calendar);
    MarketHours(now, config.calendar);
    ClientDivision(now, DAY_SECONDS);
    var betaCap := config.settings.userWeeklyCap;
    ClientPullsAlike(c.user, c.token, U64_MAX, betaCap, config.calendar, now);
    if balance: u64 :| PullAt(c.user, c.token, balance, betaCap, config.calendar, now).Total() > 0 {
      PullGrowsWithBalance(c.user, c.token, balance, U64_MAX, betaCap, config.calendar, now);
    }
  }

  lemma {:induction false} CandidatesAreWorthReading(users: seq<User>, config: Config, now: i64, c: Candidate)
    ensures c in Candidates(users, config, now) <==> c.user in users && WorthReading(c, config, now)
  {
    if users != [] {
      var last := |users| - 1;
      CandidatesAreWorthReading(users[..last], config, now, c);
      CandidatesOfAreWorthReading(users[last], config, now, 2, c);
      assert users == users[..last] + [users[last]];
    }
  }

  lemma {:induction false} CandidatesOfAreWorthReading(user: User, config: Config, now: i64, tokens: nat, c: Candidate)
    requires tokens <= 2
    ensures c in CandidatesOf(user, config, now, tokens)
            <==> c.user == user && c.token < tokens && WorthReading(c, config, now)
  {
    if tokens > 0 {
      CandidatesOfAreWorthReading(user, config, now, tokens - 1, c);
    }
  }

  /** No token is omitted that a sweep would take: whatever the token's account and subscription hold, a pull of it
      makes it a candidate. */
  lemma NoSweepOmitted(users: seq<User>, state: SweepState)
    requires state.user in users && ClockInRange(state.now)
    requires GetSweepPull(state).Pulls?
    ensures Candidate(state.token, state.user) in Candidates(users, state.config, state.now)
  {
    var config, user, now := state.config, state.user, state.now;
    CandidatesAreWorthReading(users, config, now, Candidate(state.token, user));
    var betaCap := config.settings.userWeeklyCap;
    ClientPullGrows(user, state.token, state.account.value.amount, betaCap, config.calendar, now);
    ClientDivision(now, DAY_SECONDS);
  }

  lemma ClientPullGrows(user: User, token: nat, balance: u64, betaCap: u64, calendar: MarketCalendar, now: int)
    ensures ClientPull(user, token, balance, betaCap, calendar, now).Total()
            <= ClientPull(user, token, U64_MAX, betaCap, calendar, now).Total()
  {
  }
}
