/** The program in plain terms: what every transaction requires and does, in raw units, seconds and bits, apart from the
    program's own functions; and that in every state of every run the program does exactly that. */
module Terms {
  import opened Numbers
  import opened Market
  import opened Amount
  import opened Subscriptions
  import opened Program
  import opened Runs

  function Least(a: int, b: int): int {
    if a <= b then a else b
  }

  /** What of `a` is above `b`. */
  function Above(a: int, b: int): nat {
    if a > b then a - b else 0
  }

  /** The item of a payment token. */
  function Item<T>(items: Pair<T>, token: u8): T {
    if token == 0 then items.first else items.second
  }

  function WithItem<T>(items: Pair<T>, token: u8, item: T): Pair<T> {
    if token == 0 then Pair(item, items.second) else Pair(items.first, item)
  }

  predicate Chosen(tokens: bv8, token: u8) {
    if token == 0 then tokens & 1 != 0 else tokens & 2 != 0
  }

  // What a sweep takes

  /** Ten dollars a week at the lower tier, twenty-five at the higher. */
  function TierDollars(tier: u8): u64 {
    if tier == 0 then 10_000_000 else if tier == 1 then 25_000_000 else 0
  }

  /** Five dollars in the first week and the tier's after it, within the beta's cap. */
  function Cap(user: User, betaCap: u64, now: i64): u64 {
    Least(if now < user.enrolledAt + 604_800 then 5_000_000 else TierDollars(user.settings.tier), betaCap)
  }

  function WeekOf(user: User, now: i64): int {
    (now - user.enrolledAt) / 604_800
  }

  /** The engine's amount if it has not bought since the enrollment, this UTC day or, weekly, this week of the user; a
      weekly one only in a session. */
  ghost function Due(user: User, calendar: MarketCalendar, now: i64): u64 {
    var ran := user.engineRanAt >= user.enrolledAt;
    var due := if user.settings.engine.Daily? then ran ==> user.engineRanAt / 86_400 < now / 86_400
               else (ran ==> WeekOf(user, user.engineRanAt) < WeekOf(user, now)) && InSession(now, calendar);
    if due then user.settings.engineAmount else 0
  }

  /** What the subscription allows: its amount in each period, less what was pulled in the running one, until it
      expires. No clock difference above 2^63 - 1 is seen. */
  function Allowance(subscription: Option<Subscription>, now: i64): u64 {
    if subscription.None? || 0 != subscription.value.expiresAt <= now then 0
    else
      var s := subscription.value;
      var elapsed := Least(now - s.periodStart, 0x7FFF_FFFF_FFFF_FFFF);
      if 0 <= elapsed && s.periodHours * 3_600 <= elapsed then s.amount else Above(s.amount, s.pulledInPeriod)
  }

  /** The most a sweep may take: within what is left of the week's cap, above the cushion and allowed. */
  function Room(user: User, token: u8, balance: u64, betaCap: u64, spent: int, allowance: u64, now: i64): int {
    Least(allowance, Least(Above(Cap(user, betaCap, now), spent), Above(balance, Item(user.settings.cushions, token))))
  }

  /** What is taken of an active user: what is due and what waits, as far as there is room, what is due first. */
  ghost predicate Takes(pull: Pull, user: User, calendar: MarketCalendar, room: int, now: i64) {
    && pull.engine == Least(Due(user, calendar, now), room)
    && pull.engine + pull.pending == Least(Due(user, calendar, now) + user.pending, room)
  }

  lemma AllowanceIs(subscription: Option<Subscription>, now: i64)
    ensures Remaining(subscription, now) == Allowance(subscription, now)
  {
  }

  lemma CapIs(user: User, betaCap: u64, now: i64)
    requires UserOk(user, now) && ClockInRange(now)
    ensures WeeklyCap(user, betaCap, now) == Cap(user, betaCap, now)
  {
    hide WeekAt;
  }

  /** What was pulled in the week of the clock, as the counter has it. */
  function SpentOf(user: User, now: i64): int {
    if user.week == WeekOf(user, now) then user.weekSpent else 0
  }

  lemma DueIs(user: User, calendar: MarketCalendar, now: i64)
    requires UserOk(user, now) && ClockInRange(now)
    ensures Due(user, calendar, now) == if EngineDue(user, calendar, now) then user.settings.engineAmount else 0
    ensures SpentOf(user, now) == SpentAt(user, now)
  {
    hide UsMarketOpen, InSession;
    MarketHours(now, calendar);
    WeeksExact(user, now);
    if user.engineRanAt >= user.enrolledAt {
      WeeksExact(user, user.engineRanAt);
    }
    hide WeekAt;
  }

  lemma CappedTakes(pull: Pull, user: User, calendar: MarketCalendar, room: int, limit: u64, now: i64)
    requires Takes(pull, user, calendar, room, now) && 0 <= room
    ensures Takes(pull.Capped(limit), user, calendar, Least(limit, room), now)
  {
    hide Due;
  }

  lemma MostOf(
    user: User, token: u8, balance: u64, betaCap: u64, calendar: MarketCalendar, now: i64, due: u64, left: nat)
    requires token < 2 && user.status.Active?
    requires due == if EngineDue(user, calendar, now) then user.settings.engineAmount else 0
    requires left == SaturatingSub(WeeklyCap(user, betaCap, now), SpentAt(user, now))
    ensures var room := Least(left, Above(balance, Item(user.settings.cushions, token)));
            var pull := PullAt(user, token, balance, betaCap, calendar, now);
            pull.engine == Least(due, room) && pull.engine + pull.pending == Least(due + user.pending, room)
  {
    hide WeeklyCap, SpentAt, EngineDue;
  }

  lemma TheMostAllowed(user: User, token: u8, balance: u64, betaCap: u64, calendar: MarketCalendar, now: i64)
    requires UserOk(user, now) && ClockInRange(now) && token < 2 && user.status.Active?
    ensures var room := Least(Above(Cap(user, betaCap, now), SpentOf(user, now)),
                              Above(balance, Item(user.settings.cushions, token)));
            0 <= room && Takes(PullAt(user, token, balance, betaCap, calendar, now), user, calendar, room, now)
  {
    hide WeeklyCap, SpentAt, EngineDue, Cap, Due, SpentOf, PullAt, UserOk;
    CapIs(user, betaCap, now);
    DueIs(user, calendar, now);
    MostOf(user, token, balance, betaCap, calendar, now, Due(user, calendar, now),
           Above(Cap(user, betaCap, now), SpentOf(user, now)));
  }

  /** A pull within the subscription is what is due and waits, as far as there is room. */
  lemma PullTakes(
    user: User, token: u8, balance: u64, betaCap: u64, calendar: MarketCalendar, subscription: Option<Subscription>,
    now: i64)
    requires UserOk(user, now) && ClockInRange(now) && token < 2 && user.status.Active?
    ensures var pull := PullAt(user, token, balance, betaCap, calendar, now).Capped(Remaining(subscription, now));
            var room := Room(user, token, balance, betaCap, SpentOf(user, now), Allowance(subscription, now), now);
            Takes(pull, user, calendar, room, now)
  {
    AllowanceIs(subscription, now);
    TheMostAllowed(user, token, balance, betaCap, calendar, now);
    hide Remaining, Allowance, Cap, SpentOf, PullAt, Takes;
    var room := Least(Above(Cap(user, betaCap, now), SpentOf(user, now)),
                      Above(balance, Item(user.settings.cushions, token)));
    CappedTakes(
      PullAt(user, token, balance, betaCap, calendar, now), user, calendar, room, Allowance(subscription, now), now);
  }

  // What each transaction requires

  /** What is wrong with the rules a user asks for, if anything. */
  function RulesRefused(p: EnrollParams): Option<Error> {
    if p.tier > 1 then Some(InvalidTier)
    else if p.asset > 1 then Some(UnknownAsset)
    else if p.paymentTokens == 0 then Some(NoPaymentToken)
    else if p.paymentTokens > 3 then Some(UnknownPaymentToken)
    else if p.engineAmount == 0 && !p.incomeRule && p.changeMultiplier == 0 then Some(InvalidRules)
    else if p.changeMultiplier > 3 || p.engineAmount > TierDollars(p.tier) then Some(InvalidRules)
    else None
  }

  /** Why the sponsor's `payer` cannot have a user join now, if so. */
  function JoinRefused(config: Config, p: EnrollParams, key: Key, accounts: seq<AccountInfo>): Option<Error> {
    if config.paused then Some(ProgramPaused)
    else if config.userCount >= config.settings.maxUsers then Some(BetaFull)
    else if p.tier > 1 then Some(InvalidTier)
    else if TierDollars(p.tier) > config.settings.userWeeklyCap then Some(CapAboveBetaLimit)
    else if RulesRefused(p).Some? then RulesRefused(p)
    else if !LiveInOrder(accounts, p.paymentTokens, p.tier, key) then Some(SubscriptionMismatch)
    else None
  }

  /** What a transfer sets aside: a tenth of an income of fifty dollars or more, or the change that completes a
      payment's dollar, at least fifty cents, as often as the user chose. */
  function Share(user: User, kind: EventKind, amount: u64): int {
    if kind.Income? then if user.settings.incomeRule && amount >= 50_000_000 then amount / 10 else 0
    else
      var change := if amount % 1_000_000 == 0 then 0 else 1_000_000 - amount % 1_000_000;
      (if change < 500_000 then 500_000 else change) * user.settings.changeMultiplier
  }

  function AttestRefused(user: User, a: Attestation, now: i64): Option<Error> {
    if !user.status.Active? then Some(UserNotActive)
    else if a.amount == 0 || a.eventTime < user.attestableFrom || a.eventTime > now then Some(InvalidAttestation)
    else if now - a.eventTime > 604_800 then Some(AttestationExpired)
    else if a.paymentToken > 1 || !Chosen(user.settings.paymentTokens, a.paymentToken) then Some(UnknownPaymentToken)
    else if Share(user, a.kind, a.amount) == 0 then Some(NothingToInvest)
    else None
  }

  ghost function SweepRefused(config: Config, user: User, input: SweepInput, now: i64): Option<Error> {
    var token := Item(config.paymentTokens, input.token);
    if config.paused then Some(ProgramPaused)
    else if input.token > 1 then Some(UnknownPaymentToken)
    else if Item<u32>(user.lastSweepDay, input.token) >= now / 86_400 then Some(AlreadySwept)
    else if user.settings.engine.Weekly? && !InSession(now, config.calendar) then Some(NothingToSweep)
    else if input.balance.None? then Some(InvalidTokenAccount)
    else if !user.status.Active? || Due(user, config.calendar, now) + user.pending == 0
            || Room(user, input.token, input.balance.value, config.settings.userWeeklyCap, SpentOf(user, now),
                    U64_MAX, now) == 0 then Some(NothingToSweep)
    else if !Chosen(user.settings.paymentTokens, input.token) then Some(UnknownPaymentToken)
    else if input.mint != token.mint || input.tokenProgram != token.tokenProgram then Some(UnknownPaymentToken)
    else if input.plan != PlanAddress(input.token, user.settings.tier) then Some(SubscriptionMismatch)
    else if Allowance(input.subscription, now) == 0 then Some(NothingToSweep)
    else None
  }

  /** What a transfer is known by: its user, its transaction and its place there. */
  function RecordOf(a: Attestation): TransferKey {
    TransferKey(a.user, a.signature, a.transferIndex)
  }

  predicate IsOnUser(a: Action) {
    a.Attest? || a.Sweep? || a.UpdateSettings? || a.SetUserPaused? || a.LowerPending? || a.ChangeTier?
    || a.ChangePaymentTokens? || a.Exit? || a.Reactivate?
  }

  function UserOf(a: Action): Key
    requires IsOnUser(a)
  {
    if a.Attest? then a.attestation.user else a.user
  }

  ghost function UserRefused(config: Config, user: User, a: Action, now: i64): Option<Error>
    requires IsOnUser(a)
  {
    var s := user.settings;
    match a
    case Attest(attestation) => AttestRefused(user, attestation, now)
    case Sweep(_, input) => SweepRefused(config, user, input, now)
    case UpdateSettings(_, p) =>
      if user.status.Exited? then Some(UserNotActive)
      else if p.tier != s.tier || p.paymentTokens != s.paymentTokens then Some(PlanChangeRequired)
      else RulesRefused(p)
    case SetUserPaused(_, paused) =>
      if user.status.Exited? || (paused && user.status.Paused?) then Some(UserNotActive)
      else if !paused && user.status.Active? then Some(UserNotPaused)
      else None
    case LowerPending(_, pending) =>
      if user.status.Exited? then Some(UserNotActive)
      else if pending > user.pending then Some(PendingIncrease)
      else None
    case ChangeTier(key, tier, accounts) =>
      if user.status.Exited? then Some(UserNotActive)
      else if tier > 1 || tier == s.tier then Some(InvalidTier)
      else if TierDollars(tier) > config.settings.userWeeklyCap then Some(CapAboveBetaLimit)
      else if TierDollars(tier) < s.engineAmount then Some(InvalidRules)
      else if !TriplesInOrder(accounts, s.paymentTokens, s.tier, tier, key) then Some(SubscriptionMismatch)
      else None
    case ChangePaymentTokens(key, tokens, accounts) =>
      if user.status.Exited? then Some(UserNotActive)
      else if tokens == 0 then Some(NoPaymentToken)
      else if tokens > 3 then Some(UnknownPaymentToken)
      else if !SwitchesInOrder(accounts, s.paymentTokens, tokens, s.tier, key) then Some(SubscriptionMismatch)
      else None
    case Exit(key, accounts) =>
      if user.status.Exited? then Some(UserNotActive)
      else if !PairsInOrder(accounts, s.paymentTokens, s.tier, key) then Some(SubscriptionMismatch)
      else None
    case Reactivate(key, payer, p, accounts) =>
      if payer != config.settings.sponsor then Some(NotSponsor)
      else if !user.status.Exited? then Some(UserNotExited)
      else JoinRefused(config, p, key, accounts)
  }

  /** Why a transaction fails, if it does. */
  ghost function Refused(w: World, a: Action): Option<Error> {
    if IsOnUser(a) && UserOf(a) !in w.users then Some(AccountMissing)
    else if a.Attest? && RecordOf(a.attestation) in w.records then Some(AccountInUse)
    else if IsOnUser(a) then UserRefused(w.config, w.users[UserOf(a)], a, w.now)
    else if a.Enroll? then
      if a.user in w.users then Some(AccountInUse)
      else if a.payer != w.config.settings.sponsor then Some(NotSponsor)
      else JoinRefused(w.config, a.params, a.user, a.accounts)
    else if a.CloseAttestation? then
      if a.key !in w.records then Some(AccountMissing)
      else if w.now <= w.records[a.key] then Some(AttestationNotExpired)
      else None
    else if a.UpdateConfig? then
      if a.settings.attestor == 0 then Some(InvalidAttestor)
      else if a.settings.sponsor == 0 then Some(InvalidSponsor)
      else if a.settings.userWeeklyCap == 0 || a.settings.maxUsers == 0 then Some(InvalidCap)
      else None
    else None
  }

  // What each transaction does

  function Latest(a: int, b: int): int {
    if a < b then b else a
  }

  /** Whether transfers count more after a change of rules or tokens. */
  predicate CountsMore(before: EnrollParams, after: EnrollParams) {
    || (after.incomeRule && !before.incomeRule) || after.changeMultiplier > before.changeMultiplier
    || (Chosen(after.paymentTokens, 0) && !Chosen(before.paymentTokens, 0))
    || (Chosen(after.paymentTokens, 1) && !Chosen(before.paymentTokens, 1))
  }

  ghost predicate SweepDoes(config: Config, user: User, input: SweepInput, now: i64, after: User)
    requires input.balance.Some? && input.token < 2
  {
    var room := Room(user, input.token, input.balance.value, config.settings.userWeeklyCap, SpentOf(user, now),
                     Allowance(input.subscription, now), now);
    var due := Due(user, config.calendar, now);
    var engine, total := Least(due, room), Least(due + user.pending, room);
    && after.week == WeekOf(user, now) && after.weekSpent == SpentOf(user, now) + total
    && after.pending == user.pending - (total - engine)
    && after.engineRanAt == (if engine > 0 then now else user.engineRanAt)
    && Item<u32>(after.lastSweepDay, input.token) == now / 86_400
    && Item<u32>(after.lastSweepDay, 1 - input.token) == Item<u32>(user.lastSweepDay, 1 - input.token)
    && after == user.(week := after.week, weekSpent := after.weekSpent, pending := after.pending,
                      engineRanAt := after.engineRanAt, lastSweepDay := after.lastSweepDay)
  }

  /** What a transaction makes of the user it is about. */
  ghost predicate UserDoes(config: Config, user: User, a: Action, now: i64, after: User)
    requires IsOnUser(a)
  {
    var s := user.settings;
    match a
    case Attest(attestation) =>
      && after.pending == Least(user.pending + Share(user, attestation.kind, attestation.amount),
                                0xFFFF_FFFF_FFFF_FFFF)
      && after == user.(pending := after.pending)
    case Sweep(_, input) => input.balance.Some? && input.token < 2 && SweepDoes(config, user, input, now, after)
    case UpdateSettings(_, p) =>
      after == user.(settings := p, attestableFrom := if CountsMore(s, p) then Latest(user.attestableFrom, now)
                                                      else user.attestableFrom)
    case SetUserPaused(_, paused) =>
      if paused then after == user.(status := Paused)
      else after == user.(status := Active, attestableFrom := Latest(user.attestableFrom, now))
    case LowerPending(_, pending) => after == user.(pending := pending)
    case ChangeTier(_, tier, _) => after == user.(settings := s.(tier := tier))
    case ChangePaymentTokens(_, tokens, _) =>
      var p := s.(paymentTokens := tokens);
      after == user.(settings := p, attestableFrom := if CountsMore(s, p) then Latest(user.attestableFrom, now)
                                                      else user.attestableFrom)
    case Exit(_, _) =>
      after == user.(settings := EnrollParams(0, 0, 0, Daily, 0, false, 0, Pair(0, 0), 0, seq(32, _ => 0)),
                     pending := 0, status := Exited)
    case Reactivate(_, _, p, _) =>
      after == user.(settings := p, status := Active, attestableFrom := Latest(user.attestableFrom, now))
  }

  /** What a committed transaction leaves. */
  ghost predicate Does(w: World, a: Action, after: World) {
    && after.now == (if a.Tick? then Least(w.now + a.seconds, 0x7FFF_FFFF_FFFF_FFFF) else w.now)
    && after.records
       == (if a.Attest? then w.records[RecordOf(a.attestation) := a.attestation.eventTime + 604_800]
           else if a.CloseAttestation? then w.records - {a.key}
           else w.records)
    && after.config.userCount
       == (if a.Enroll? || a.Reactivate? then w.config.userCount + 1
           else if a.Exit? then Above(w.config.userCount, 1)
           else w.config.userCount)
    && after.config
       == w.config.(settings := if a.UpdateConfig? then a.settings else w.config.settings,
                    paused := if a.SetPaused? then a.paused else w.config.paused,
                    calendar := if a.SetMarketCalendar? then a.calendar else w.config.calendar,
                    userCount := after.config.userCount)
    && if IsOnUser(a) then
         var key := UserOf(a);
         && key in w.users && key in after.users && after.users == w.users[key := after.users[key]]
         && UserDoes(w.config, w.users[key], a, w.now, after.users[key])
       else
         after.users
         == if a.Enroll? then w.users[a.user := User(a.params, w.now, 0, 0, 0, 0, Active, w.now, Pair(0, 0))]
            else w.users
  }

  // That it is what the program does

  lemma TwoBits(tokens: bv8)
    ensures tokens >> 2 != 0 <==> tokens > 3
  {
  }

  lemma RulesAre(p: EnrollParams)
    ensures ValidateRules(p) == match RulesRefused(p) case Some(e) => Err(e) case None => Ok(())
  {
    TwoBits(p.paymentTokens);
  }

  lemma JoinIs(config: Config, payer: Key, p: EnrollParams, key: Key, accounts: seq<AccountInfo>)
    ensures Admitted(config, payer, p, key, accounts)
            == if payer != config.settings.sponsor then Err(NotSponsor)
               else match JoinRefused(config, p, key, accounts) case Some(e) => Err(e) case None => Ok(())
  {
    hide AllLive, LiveInOrder, ValidateRules, RulesRefused;
    RulesAre(p);
    AllLiveAccepts(accounts, p.paymentTokens, p.tier, key);
  }

  lemma ShareIs(user: User, a: Attestation)
    ensures Invested(user, a) == Share(user, a.kind, a.amount)
  {
  }

  lemma ChosenIs(tokens: bv8, token: u8)
    requires token < 2
    ensures Enabled(tokens, token) <==> Chosen(tokens, token)
  {
  }

  lemma AttestIs(user: User, a: Attestation, now: i64)
    ensures match AttestRefused(user, a, now)
            case Some(e) => Attested(user, a, now) == Err(e)
            case None =>
              Attested(user, a, now)
              == Ok(user.(pending := Least(user.pending + Share(user, a.kind, a.amount), 0xFFFF_FFFF_FFFF_FFFF)))
  {
    hide Enabled, Chosen, Invested, Share;
    ShareIs(user, a);
    if a.paymentToken < 2 {
      ChosenIs(user.settings.paymentTokens, a.paymentToken);
    }
  }

  /** What every state of a run keeps. */
  ghost predicate Sane(w: World) {
    ClockInRange(w.now) && forall key :: key in w.users ==> UserOk(w.users[key], w.now)
  }

  lemma TodayIs(now: i64)
    requires ClockInRange(now)
    ensures Today(now) == now / 86_400
  {
  }

  lemma PullsNothing(user: User, token: u8, balance: u64, betaCap: u64, calendar: MarketCalendar, now: i64)
    requires UserOk(user, now) && ClockInRange(now) && token < 2
    ensures PullAt(user, token, balance, betaCap, calendar, now).Total() == 0
            <==> !user.status.Active? || Due(user, calendar, now) + user.pending == 0
                 || Room(user, token, balance, betaCap, SpentOf(user, now), U64_MAX, now) == 0
  {
    hide PullAt, Cap, Due, SpentOf, UserOk;
    if user.status.Active? {
      TheMostAllowed(user, token, balance, betaCap, calendar, now);
    } else {
      InactivePullsNothing(user, token, balance, betaCap, calendar, now);
    }
  }

  lemma AllowsNothing(
    user: User, token: u8, balance: u64, betaCap: u64, calendar: MarketCalendar, allowance: u64, now: i64)
    ensures var pull := PullAt(user, token, balance, betaCap, calendar, now);
            pull.Total() > 0 ==> (pull.Capped(allowance).Total() == 0 <==> allowance == 0)
  {
    hide WeeklyCap, SpentAt, EngineDue, PullAt;
  }

  /** A sweep's gate, and what the swept account holds. */
  lemma SweepIs(config: Config, user: User, input: SweepInput, now: i64)
    requires UserOk(user, now) && ClockInRange(now)
    ensures var gate := SweepGate(config, user, input, now);
            match SweepRefused(config, user, input, now)
            case Some(e) => gate == Err(e)
            case None => gate.Ok? && SweepDoes(config, user, input, now, Swept(user, input.token, gate.value, now))
  {
    hide PullAt, Remaining, Room, Due, SpentOf, Allowance, UsMarketOpen, InSession, Enabled, Chosen, Today, UserOk;
    hide Swept, SweepDoes;
    TodayIs(now);
    MarketHours(now, config.calendar);
    if !config.paused && input.token < 2 && Item<u32>(user.lastSweepDay, input.token) < now / 86_400
       && (user.settings.engine.Weekly? ==> InSession(now, config.calendar)) && input.balance.Some? {
      AmountGateIs(config, user, input, now);
      if SweepRefused(config, user, input, now).None? {
        SweptIs(config, user, input, now);
      }
    }
  }

  /** The checks from the balance on. */
  lemma AmountGateIs(config: Config, user: User, input: SweepInput, now: i64)
    requires UserOk(user, now) && ClockInRange(now)
    requires !config.paused && input.token < 2 && user.lastSweepDay.At(input.token) < Today(now)
    requires user.settings.engine.Weekly? ==> UsMarketOpen(now, config.calendar)
    requires user.settings.engine.Weekly? ==> InSession(now, config.calendar)
    requires input.balance.Some? && Item<u32>(user.lastSweepDay, input.token) < now / 86_400
    ensures match SweepRefused(config, user, input, now)
            case Some(e) => SweepGate(config, user, input, now) == Err(e)
            case None => SweepGate(config, user, input, now).Ok?
  {
    hide PullAt, Remaining, Room, Due, SpentOf, Allowance, Enabled, Chosen, UserOk, SweepGate, SweepRefused;
    var betaCap, balance := config.settings.userWeeklyCap, input.balance.value;
    ChosenIs(user.settings.paymentTokens, input.token);
    PullsNothing(user, input.token, balance, betaCap, config.calendar, now);
    AllowanceIs(input.subscription, now);
    AllowsNothing(user, input.token, balance, betaCap, config.calendar, Allowance(input.subscription, now), now);
    GateFromBalance(config, user, input, now);
    RefusedFromBalance(config, user, input, now);
  }

  /** The program's gate from the balance on. */
  lemma GateFromBalance(config: Config, user: User, input: SweepInput, now: i64)
    requires !config.paused && input.token < 2 && user.lastSweepDay.At(input.token) < Today(now)
    requires user.settings.engine.Weekly? ==> UsMarketOpen(now, config.calendar)
    requires input.balance.Some?
    ensures var pull := PullAt(user, input.token, input.balance.value, config.settings.userWeeklyCap, config.calendar,
                               now);
            var token := Item(config.paymentTokens, input.token);
            SweepGate(config, user, input, now)
            == if pull.Total() == 0 then Err(NothingToSweep)
               else if !Enabled(user.settings.paymentTokens, input.token)
                       || input.mint != token.mint || input.tokenProgram != token.tokenProgram then
                 Err(UnknownPaymentToken)
               else if input.plan != PlanAddress(input.token, user.settings.tier) then Err(SubscriptionMismatch)
               else
                 var capped := pull.Capped(Remaining(input.subscription, now));
                 if capped.Total() == 0 then Err(NothingToSweep) else Ok(capped)
  {
    hide PullAt, Remaining, Enabled, UsMarketOpen, Today;
    assert config.paymentTokens.At(input.token) == Item(config.paymentTokens, input.token);
  }

  lemma RefusedFromBalance(config: Config, user: User, input: SweepInput, now: i64)
    requires !config.paused && input.token < 2 && Item<u32>(user.lastSweepDay, input.token) < now / 86_400
    requires user.settings.engine.Weekly? ==> InSession(now, config.calendar)
    requires input.balance.Some?
    ensures var token := Item(config.paymentTokens, input.token);
            SweepRefused(config, user, input, now)
            == if !user.status.Active? || Due(user, config.calendar, now) + user.pending == 0
                  || Room(user, input.token, input.balance.value, config.settings.userWeeklyCap, SpentOf(user, now),
                          U64_MAX, now) == 0 then Some(NothingToSweep)
               else if !Chosen(user.settings.paymentTokens, input.token)
                       || input.mint != token.mint || input.tokenProgram != token.tokenProgram then
                 Some(UnknownPaymentToken)
               else if input.plan != PlanAddress(input.token, user.settings.tier) then Some(SubscriptionMismatch)
               else if Allowance(input.subscription, now) == 0 then Some(NothingToSweep)
               else None
  {
    hide Room, Due, SpentOf, Allowance, Chosen, InSession;
  }

  lemma SweptIs(config: Config, user: User, input: SweepInput, now: i64)
    requires UserOk(user, now) && ClockInRange(now) && SweepGate(config, user, input, now).Ok?
    ensures input.token < 2 && input.balance.Some?
    ensures var pull := SweepGate(config, user, input, now).value;
            SweepDoes(config, user, input, now, Swept(user, input.token, pull, now))
  {
    hide SweepGate, PullAt, Remaining, Room, Due, WeekAt, SpentAt, Allowance, UserOk;
    var betaCap := config.settings.userWeeklyCap;
    GatePassed(config, user, input, now);
    PullTakes(user, input.token, input.balance.value, betaCap, config.calendar, input.subscription, now);
    RecordedStaysWithinCap(
      user, input.token, input.balance.value, betaCap, config.calendar, now, Remaining(input.subscription, now));
    WeekIs(user, now);
    TodayIs(now);
    DueIs(user, config.calendar, now);
  }

  lemma WeekIs(user: User, now: i64)
    requires UserOk(user, now) && ClockInRange(now)
    ensures WeekAt(user, now) == WeekOf(user, now)
  {
    WeeksExact(user, now);
  }

  lemma CountsMoreIs(before: EnrollParams, after: EnrollParams)
    requires after.paymentTokens <= 3 && after.incomeRule == before.incomeRule
    requires after.changeMultiplier == before.changeMultiplier
    ensures CountsMore(before, after) <==> after.paymentTokens & !before.paymentTokens != 0
  {
  }

  /** What a step on a user does with that user. */
  lemma UserIs(config: Config, user: User, a: Action, now: i64)
    requires IsOnUser(a) && UserOk(user, now) && ClockInRange(now)
    ensures Subject(a) == Some(UserOf(a)) && !a.Enroll?
    ensures var step := UserStep(config, user, a, now);
            match UserRefused(config, user, a, now)
            case Some(e) => step == Err(e)
            case None => step.Ok? && UserDoes(config, user, a, now, step.value)
  {
    hide SweepGate, SweepRefused, SweepDoes, Swept, Attested, AttestRefused, ValidateRules, RulesRefused, Admitted;
    hide JoinRefused, MoveAll, SwitchAll, EndAll, TriplesInOrder, SwitchesInOrder, PairsInOrder, CountsMore, UserOk;
    hide Share;
    var s := user.settings;
    match a
    case Attest(attestation) => AttestIs(user, attestation, now);
    case Sweep(_, input) => SweepStepIs(config, user, a, now);
    case UpdateSettings(_, p) => UpdateIs(user, p, now);
    case SetUserPaused(_, _) =>
    case LowerPending(_, _) =>
    case ChangeTier(key, tier, accounts) => MoveAllAccepts(accounts, s.paymentTokens, s.tier, tier, key, now);
    case ChangePaymentTokens(key, tokens, accounts) => TokensIs(user, key, tokens, accounts, now);
    case Exit(key, accounts) => EndAllAccepts(accounts, s.paymentTokens, s.tier, key, now);
    case Reactivate(key, payer, p, accounts) => JoinIs(config, payer, p, key, accounts);
  }

  lemma SweepStepIs(config: Config, user: User, a: Action, now: i64)
    requires a.Sweep? && UserOk(user, now) && ClockInRange(now)
    ensures var step := UserStep(config, user, a, now);
            match UserRefused(config, user, a, now)
            case Some(e) => step == Err(e)
            case None => step.Ok? && UserDoes(config, user, a, now, step.value)
  {
    hide SweepGate, SweepRefused, SweepDoes, Swept, UserOk;
    SweepIs(config, user, a.input, now);
    if SweepRefused(config, user, a.input, now).None? {
      SweptIs(config, user, a.input, now);
    }
  }

  lemma UpdateIs(user: User, p: EnrollParams, now: i64)
    ensures var updated := UpdatedSettings(user, p, now);
            if user.status.Exited? then updated == Err(UserNotActive)
            else if p.tier != user.settings.tier || p.paymentTokens != user.settings.paymentTokens then
              updated == Err(PlanChangeRequired)
            else if RulesRefused(p).Some? then updated == Err(RulesRefused(p).value)
            else
              updated
              == Ok(user.(settings := p, attestableFrom := if CountsMore(user.settings, p)
                                                           then Latest(user.attestableFrom, now)
                                                           else user.attestableFrom))
  {
    hide ValidateRules, RulesRefused, Chosen;
    RulesAre(p);
  }

  lemma TokensIs(user: User, key: Key, tokens: bv8, accounts: seq<AccountInfo>, now: i64)
    ensures var changed, s := TokensChanged(user, key, tokens, accounts, now), user.settings;
            var p := s.(paymentTokens := tokens);
            if user.status.Exited? then changed == Err(UserNotActive)
            else if tokens == 0 then changed == Err(NoPaymentToken)
            else if tokens > 3 then changed == Err(UnknownPaymentToken)
            else if !SwitchesInOrder(accounts, s.paymentTokens, tokens, s.tier, key) then
              changed == Err(SubscriptionMismatch)
            else
              changed
              == Ok(user.(settings := p, attestableFrom := if CountsMore(s, p) then Latest(user.attestableFrom, now)
                                                           else user.attestableFrom))
  {
    hide SwitchAll, SwitchesInOrder, CountsMore;
    TwoBits(tokens);
    SwitchAllAccepts(accounts, user.settings.paymentTokens, tokens, user.settings.tier, key, now);
    if tokens <= 3 {
      CountsMoreIs(user.settings, user.settings.(paymentTokens := tokens));
    }
  }

  lemma SeatIsFree(config: Config, a: Action)
    requires a.Enroll? || a.Reactivate?
    ensures JoinRefused(config, a.params, a.user, a.accounts).None? ==> SeatTaken(config).Ok?
  {
    hide RulesRefused, LiveInOrder;
  }

  lemma OnUserInTerms(w: World, a: Action)
    requires Sane(w) && IsOnUser(a)
    ensures match Refused(w, a)
            case Some(e) => Step(w, a) == Err(e)
            case None => Step(w, a).Ok? && Does(w, a, Step(w, a).value)
  {
    hide UserStep, UserDoes, UserOk, JoinRefused, SweepRefused, AttestRefused, RulesRefused, SeatTaken;
    hide PairsInOrder, TriplesInOrder, SwitchesInOrder;
    if UserOf(a) in w.users {
      UserIs(w.config, w.users[UserOf(a)], a, w.now);
      if a.Reactivate? {
        SeatIsFree(w.config, a);
        if SeatTaken(w.config).Ok? {
          SeatIs(w.config);
        }
      }
    }
  }

  lemma SeatIs(config: Config)
    requires SeatTaken(config).Ok?
    ensures config.userCount < U32_MAX && SeatTaken(config) == Ok(config.(userCount := config.userCount + 1))
  {
  }

  lemma OtherInTerms(w: World, a: Action)
    requires !IsOnUser(a) && ClockInRange(w.now)
    ensures match Refused(w, a)
            case Some(e) => Step(w, a) == Err(e)
            case None => Step(w, a).Ok? && Does(w, a, Step(w, a).value)
  {
    hide Admitted, JoinRefused, SeatTaken;
    if a.Enroll? {
      JoinIs(w.config, a.payer, a.params, a.user, a.accounts);
      SeatIsFree(w.config, a);
      if SeatTaken(w.config).Ok? {
        SeatIs(w.config);
      }
    }
  }

  /** Each transaction is refused for the first of its reasons, or does what it says. */
  lemma StepInTerms(w: World, a: Action)
    requires Sane(w)
    ensures match Refused(w, a)
            case Some(e) => Step(w, a) == Err(e)
            case None => Step(w, a).Ok? && Does(w, a, Step(w, a).value)
  {
    hide Refused, Step, Does, UserOk;
    if IsOnUser(a) {
      OnUserInTerms(w, a);
    } else {
      OtherInTerms(w, a);
    }
  }

  lemma StatesAreSane(ws: seq<World>, acts: seq<Action>, n: nat)
    requires IsRun(ws, acts) && n < |ws|
    ensures Sane(ws[n])
  {
    hide UserOk;
    forall key | key in ws[n].users
      ensures UserOk(ws[n].users[key], ws[n].now)
    {
      UsersOk(ws, acts, n, key);
    }
  }

  /** In every state of a run every transaction is refused or committed in these terms. */
  lemma RunInTerms(ws: seq<World>, acts: seq<Action>, n: nat, a: Action)
    requires IsRun(ws, acts) && n < |ws|
    ensures match Refused(ws[n], a)
            case Some(e) => Step(ws[n], a) == Err(e)
            case None => Step(ws[n], a).Ok? && Does(ws[n], a, Step(ws[n], a).value)
  {
    StatesAreSane(ws, acts, n);
    StepInTerms(ws[n], a);
  }
}