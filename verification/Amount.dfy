/** The amounts a sweep takes from a user, computed by the program and again by the client. */
module Amount {
  import opened Numbers
  import opened Market

  const WEEK_SECONDS := 7 * DAY_SECONDS
  const TRIAL_SECONDS := WEEK_SECONDS
  const TRIAL_CAP: u64 := 5_000_000
  const INCOME_SHARE_BPS := 1_000
  const INCOME_MIN := 50_000_000
  const CHANGE_STEP := 1_000_000
  const CHANGE_MIN := 500_000

  /** An address. */
  type Key = nat

  /** One value for each of the two payment tokens, or the two tiers. */
  datatype Pair<T> = Pair(first: T, second: T) {
    function At(i: nat): T
      requires i < 2
    {
      if i == 0 then first else second
    }

    function With(i: nat, value: T): Pair<T>
      requires i < 2
    {
      if i == 0 then Pair(value, second) else Pair(first, value)
    }
  }

  const TIERS: Pair<u64> := Pair(10_000_000, 25_000_000)

  datatype Engine = Daily | Weekly
  datatype UserStatus = Active | Paused | Exited

  /** What a user chooses. */
  datatype EnrollParams = EnrollParams(
    tier: u8,
    paymentTokens: bv8,
    asset: u8,
    engine: Engine,
    engineAmount: u64,
    incomeRule: bool,
    changeMultiplier: u8,
    cushions: Pair<u64>,
    goalAmount: u64,
    goalLabel: seq<u8>)

  /** The state of one `UserConfig` account. */
  datatype User = User(
    settings: EnrollParams,
    enrolledAt: i64,
    week: u32,
    weekSpent: u64,
    engineRanAt: i64,
    pending: u64,
    status: UserStatus,
    attestableFrom: i64,
    lastSweepDay: Pair<u32>)

  /** The bit of a payment token in `paymentTokens`. */
  function Bit(token: nat): bv8
    requires token < 2
  {
    if token == 0 then 1 else 2
  }

  predicate Enabled(tokens: bv8, token: nat)
    requires token < 2
  {
    tokens & Bit(token) != 0
  }

  datatype Pull = Pull(engine: u64, pending: u64) {
    function Total(): int {
      engine + pending
    }

    /** What of the pull fits `limit`; pending amounts give way before the engine. */
    function Capped(limit: u64): Pull {
      var kept := Min(engine, limit);
      Pull(kept, Min(pending, limit - kept))
    }
  }

  // The program

  function IncomeShare(user: User, income: u64): u64 {
    if !user.settings.incomeRule || income < INCOME_MIN then 0
    else income * INCOME_SHARE_BPS / 10_000
  }

  function Change(user: User, payment: u64): u64 {
    var roundUp := (CHANGE_STEP - payment % CHANGE_STEP) % CHANGE_STEP;
    Max(roundUp, CHANGE_MIN) * user.settings.changeMultiplier
  }

  function WeekAt(user: User, now: i64): u32 {
    Max(SaturateI64(now - user.enrolledAt), 0) / WEEK_SECONDS % (U32_MAX + 1)
  }

  function TierCap(tier: u8): u64 {
    if tier < 2 then TIERS.At(tier) else 0
  }

  function WeeklyCap(user: User, betaCap: u64, now: i64): u64 {
    var cap := if now < SaturateI64(user.enrolledAt + TRIAL_SECONDS) then TRIAL_CAP else TierCap(user.settings.tier);
    Min(cap, betaCap)
  }

  function SpentAt(user: User, now: i64): u64 {
    if WeekAt(user, now) == user.week then user.weekSpent else 0
  }

  predicate EngineDue(user: User, calendar: MarketCalendar, now: i64) {
    var ran := user.engineRanAt >= user.enrolledAt;
    match user.settings.engine
    case Daily => !ran || now / DAY_SECONDS > user.engineRanAt / DAY_SECONDS
    case Weekly => (!ran || WeekAt(user, now) > WeekAt(user, user.engineRanAt)) && UsMarketOpen(now, calendar)
  }

  function Cushion(user: User, token: nat): u64 {
    if token < 2 then user.settings.cushions.At(token) else U64_MAX
  }

  function PullAt(user: User, token: nat, balance: u64, betaCap: u64, calendar: MarketCalendar, now: i64): Pull {
    if !user.status.Active? then Pull(0, 0)
    else
      var room := Min(
        SaturatingSub(WeeklyCap(user, betaCap, now), SpentAt(user, now)),
        SaturatingSub(balance, Cushion(user, token)));
      var engine := if EngineDue(user, calendar, now) then Min(user.settings.engineAmount, room) else 0;
      Pull(engine, Min(user.pending, room - engine))
  }

  /** The user after a completed pull. */
  function Recorded(user: User, pull: Pull, now: i64): User {
    var week := WeekAt(user, now);
    var spent := if week != user.week then 0 else user.weekSpent;
    user.(
      week := week,
      weekSpent := Min(spent + pull.Total(), U64_MAX),
      pending := SaturatingSub(user.pending, pull.pending),
      engineRanAt := if pull.engine > 0 then now else user.engineRanAt)
  }

  // The client's mirror

  function ClientIncomeShare(user: User, income: u64): int {
    if user.settings.incomeRule && income >= INCOME_MIN then TruncDiv(income * INCOME_SHARE_BPS, 10_000) else 0
  }

  function ClientWeekAt(user: User, now: int): int {
    var elapsed := now - user.enrolledAt;
    (if elapsed > 0 then elapsed else 0) / WEEK_SECONDS % (U32_MAX + 1)
  }

  function ClientWeeklyCap(user: User, betaCap: u64, now: int): u64 {
    var cap := if now < user.enrolledAt + TRIAL_SECONDS then TRIAL_CAP else TierCap(user.settings.tier);
    Min(cap, betaCap)
  }

  function ClientSpentAt(user: User, now: int): u64 {
    if ClientWeekAt(user, now) == user.week then user.weekSpent else 0
  }

  predicate ClientEngineDue(user: User, calendar: MarketCalendar, now: int) {
    var ran := user.engineRanAt >= user.enrolledAt;
    if user.settings.engine.Daily? then
      !ran || DivEuclid(now, DAY_SECONDS) > DivEuclid(user.engineRanAt, DAY_SECONDS)
    else
      (!ran || ClientWeekAt(user, now) > ClientWeekAt(user, user.engineRanAt)) && ClientMarketOpen(now, calendar)
  }

  function ClientPull(user: User, token: nat, balance: u64, betaCap: u64, calendar: MarketCalendar, now: int): Pull {
    if !user.status.Active? then Pull(0, 0)
    else
      var room := Min(
        SaturatingSub(ClientWeeklyCap(user, betaCap, now), ClientSpentAt(user, now)),
        SaturatingSub(balance, Cushion(user, token)));
      var engine := if ClientEngineDue(user, calendar, now) then Min(user.settings.engineAmount, room) else 0;
      Pull(engine, Min(user.pending, room - engine))
  }

  function ClientChange(user: User, payment: u64): int {
    var roundUp := TruncMod(CHANGE_STEP - TruncMod(payment, CHANGE_STEP), CHANGE_STEP);
    (if roundUp > CHANGE_MIN then roundUp else CHANGE_MIN) * user.settings.changeMultiplier
  }

  /** What a payment or an income sets aside, in either language: a payment the least amount that completes its dollar,
      but at least 50 cents, times the multiplier; an income of $50 or more a tenth of it, rounded down. */
  lemma SharesAre(user: User, amount: u64)
    ensures ClientIncomeShare(user, amount) == IncomeShare(user, amount)
    ensures ClientChange(user, amount) == Change(user, amount)
    ensures exists up ::
              && 0 <= up < 1_000_000 && (amount + up) % 1_000_000 == 0
              && Change(user, amount) == Max(up, 500_000) * user.settings.changeMultiplier
    ensures var share := IncomeShare(user, amount);
            if user.settings.incomeRule && amount >= 50_000_000 then 10 * share <= amount < 10 * (share + 1)
            else share == 0
  {
    var up := (CHANGE_STEP - amount % CHANGE_STEP) % CHANGE_STEP;
    assert (amount + up) % 1_000_000 == 0;
  }

  // Clocks

  /** A cluster clock with its week and day counts below 2^32, so that the program's casts keep them. */
  predicate ClockInRange(now: int) {
    0 < now < (U32_MAX + 1) * DAY_SECONDS
  }

  /** The program's signed subtractions from enrollment do not saturate at this clock. */
  predicate SpansFit(user: User, now: i64) {
    && now - user.enrolledAt <= I64_MAX && user.engineRanAt - user.enrolledAt <= I64_MAX
    && (now < I64_MAX || user.enrolledAt + TRIAL_SECONDS <= I64_MAX)
  }

  /** The client pulls what the program pulls, wherever the program's clock arithmetic does not saturate. */
  lemma ClientPullsAlike(
    user: User, token: nat, balance: u64, betaCap: u64, calendar: MarketCalendar, now: i64)
    requires SpansFit(user, now)
    ensures ClientPull(user, token, balance, betaCap, calendar, now)
            == PullAt(user, token, balance, betaCap, calendar, now)
    ensures ClientWeekAt(user, now) == WeekAt(user, now)
    ensures ClientWeeklyCap(user, betaCap, now) == WeeklyCap(user, betaCap, now)
    ensures ClientSpentAt(user, now) == SpentAt(user, now)
  {
    MarketsAgree(now, calendar);
    ClientDivision(now, DAY_SECONDS);
    ClientDivision(user.engineRanAt, DAY_SECONDS);
    ClientWeeksAlike(user, now);
    ClientWeeksAlike(user, user.engineRanAt);
  }

  lemma ClientWeeksAlike(user: User, now: i64)
    requires now - user.enrolledAt <= I64_MAX
    ensures ClientWeekAt(user, now) == WeekAt(user, now)
  {
  }

  /** A pull takes the most the rules allow, and the rules' limits are exact: the due engine amount and the pending
      amount together, within the week's remaining cap and above the cushion, the engine first. */
  lemma PullIsTheMostAllowed(
    user: User, token: nat, balance: u64, betaCap: u64, calendar: MarketCalendar, now: i64)
    requires user.status.Active?
    ensures var pull := PullAt(user, token, balance, betaCap, calendar, now);
            var due := if EngineDue(user, calendar, now) then user.settings.engineAmount else 0;
            var room := Min(SaturatingSub(WeeklyCap(user, betaCap, now), SpentAt(user, now)),
                            SaturatingSub(balance, Cushion(user, token)));
            && pull.Total() == Min(due + user.pending, room)
            && pull.engine == Min(due, room)
            && (balance >= Cushion(user, token) ==> balance - pull.Total() >= Cushion(user, token))
    ensures var trial := now < SaturateI64(user.enrolledAt + 604_800);
            var tierCap := if user.settings.tier == 0 then 10_000_000
                           else if user.settings.tier == 1 then 25_000_000 else 0;
            WeeklyCap(user, betaCap, now) == Min(if trial then 5_000_000 else tierCap, betaCap)
  {
    hide WeeklyCap, SpentAt, EngineDue;
    WeeklyCapIs(user, betaCap, now);
  }

  lemma WeeklyCapIs(user: User, betaCap: u64, now: i64)
    ensures var trial := now < SaturateI64(user.enrolledAt + 604_800);
            var tierCap := if user.settings.tier == 0 then 10_000_000
                           else if user.settings.tier == 1 then 25_000_000 else 0;
            WeeklyCap(user, betaCap, now) == Min(if trial then 5_000_000 else tierCap, betaCap)
  {
  }

  /** A larger balance never lowers the pull. */
  lemma PullGrowsWithBalance(
    user: User, token: nat, low: u64, high: u64, betaCap: u64, calendar: MarketCalendar, now: i64)
    requires low <= high
    ensures PullAt(user, token, low, betaCap, calendar, now).Total()
            <= PullAt(user, token, high, betaCap, calendar, now).Total()
    ensures PullAt(user, token, low, betaCap, calendar, now).engine
            <= PullAt(user, token, high, betaCap, calendar, now).engine
  {
  }

  /** After the pull is recorded, the week's total is what it was plus the pull and stays within the week's cap, unless
      it was above it already. */
  lemma RecordedStaysWithinCap(
    user: User, token: nat, balance: u64, betaCap: u64, calendar: MarketCalendar, now: i64, limit: u64)
    ensures var pull := PullAt(user, token, balance, betaCap, calendar, now).Capped(limit);
            var after := Recorded(user, pull, now);
            && after.week == WeekAt(user, now)
            && after.weekSpent == SpentAt(user, now) + pull.Total()
            && (pull.Total() > 0 ==> after.weekSpent <= WeeklyCap(user, betaCap, now))
            && after.pending == user.pending - pull.pending
  {
    hide PullAt, WeekAt, WeeklyCap;
    PullWithinWeek(user, token, balance, betaCap, calendar, now);
  }

  lemma PullWithinWeek(user: User, token: nat, balance: u64, betaCap: u64, calendar: MarketCalendar, now: i64)
    ensures var pull := PullAt(user, token, balance, betaCap, calendar, now);
            0 <= pull.Total() <= SaturatingSub(WeeklyCap(user, betaCap, now), SpentAt(user, now))
            && pull.pending <= user.pending
  {
    hide PullAt, WeeklyCap, SpentAt, EngineDue;
    if user.status.Active? {
      PullIsTheMostAllowed(user, token, balance, betaCap, calendar, now);
    } else {
      InactivePullsNothing(user, token, balance, betaCap, calendar, now);
    }
  }

  lemma InactivePullsNothing(user: User, token: nat, balance: u64, betaCap: u64, calendar: MarketCalendar, now: i64)
    requires !user.status.Active?
    ensures PullAt(user, token, balance, betaCap, calendar, now) == Pull(0, 0)
  {
  }

  /** The week depends on the user only by the enrollment. */
  lemma WeekOnlyEnrollment(user: User, other: User, now: i64)
    requires other.enrolledAt == user.enrolledAt
    ensures WeekAt(other, now) == WeekAt(user, now)
  {
  }

  /** The program's `u32` week and day counts are exact on clocks in range. */
  lemma WeeksExact(user: User, now: i64)
    requires 0 <= user.enrolledAt <= now && ClockInRange(now)
    ensures WeekAt(user, now) == (now - user.enrolledAt) / WEEK_SECONDS
    ensures WeekAt(user, now) == 0 <==> now < user.enrolledAt + TRIAL_SECONDS
  {
  }
}
