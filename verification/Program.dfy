/** The program's instructions as functions on the state they read and write, and the state machine they make. */
module Program {
  import opened Numbers
  import opened Market
  import opened Amount
  import opened Subscriptions

  const ATTESTATION_TTL_SECONDS := 7 * DAY_SECONDS

  datatype Asset = Asset(mint: Key, tokenProgram: Key, decimals: u8, pythFeedId: u32)
  datatype PaymentToken = PaymentToken(mint: Key, tokenProgram: Key, usdFeedId: u32)

  /** The part of the configuration that the admin updates at once. */
  datatype Settings = Settings(attestor: Key, sponsor: Key, userWeeklyCap: u64, maxUsers: u32)

  datatype Config = Config(
    paused: bool,
    settings: Settings,
    userCount: u32,
    assets: Pair<Asset>,
    paymentTokens: Pair<PaymentToken>,
    calendar: MarketCalendar)

  datatype EventKind = Income | Payment

  datatype Attestation = Attestation(
    kind: EventKind, user: Key, paymentToken: u8, amount: u64, eventTime: i64, signature: Key, transferIndex: u16)

  /** What addresses an attestation record: the user, the transaction and the transfer's position in it. */
  datatype TransferKey = TransferKey(user: Key, signature: Key, transferIndex: u16)

  function KeyOf(a: Attestation): TransferKey {
    TransferKey(a.user, a.signature, a.transferIndex)
  }

  const EMPTY_LABEL: seq<u8> := [0, 0, 0, 0, 0, 0, 0, 0, 0, 0, 0, 0, 0, 0, 0, 0,
                                 0, 0, 0, 0, 0, 0, 0, 0, 0, 0, 0, 0, 0, 0, 0, 0]

  /** What an exit leaves as settings. */
  const CLEARED := EnrollParams(0, 0, 0, Daily, 0, false, 0, Pair(0, 0), 0, EMPTY_LABEL)

  // Validation

  /** The default public key. */
  const NO_KEY: Key := 0

  function ValidateConfig(settings: Settings): Result<()> {
    if settings.attestor == NO_KEY then Err(InvalidAttestor)
    else if settings.sponsor == NO_KEY then Err(InvalidSponsor)
    else Require(settings.userWeeklyCap > 0 && settings.maxUsers > 0, InvalidCap)
  }

  function ValidateRules(params: EnrollParams): Result<()> {
    if params.tier >= 2 then Err(InvalidTier)
    else if params.asset >= 2 then Err(UnknownAsset)
    else if params.paymentTokens == 0 then Err(NoPaymentToken)
    else if params.paymentTokens >> 2 != 0 then Err(UnknownPaymentToken)
    else
      var invests := params.engineAmount > 0 || params.incomeRule || params.changeMultiplier > 0;
      Require(
        invests && params.changeMultiplier <= 3 && params.engineAmount <= TIERS.At(params.tier), InvalidRules)
  }

  function Validate(params: EnrollParams, betaCap: u64): Result<()> {
    if params.tier >= 2 then Err(InvalidTier)
    else if betaCap < TIERS.At(params.tier) then Err(CapAboveBetaLimit)
    else ValidateRules(params)
  }

  // Instructions on one user

  function Raised(user: User, now: i64): User {
    user.(attestableFrom := Max(user.attestableFrom, now))
  }

  function Enrolled(params: EnrollParams, now: i64): User {
    User(params, now, 0, 0, 0, 0, Active, now, Pair(0, 0))
  }

  function UpdatedSettings(user: User, params: EnrollParams, now: i64): Result<User> {
    if user.status.Exited? then Err(UserNotActive)
    else if params.tier != user.settings.tier || params.paymentTokens != user.settings.paymentTokens then
      Err(PlanChangeRequired)
    else
      var _ :- ValidateRules(params);
      var countsMore :=
        (params.incomeRule && !user.settings.incomeRule)
        || params.changeMultiplier > user.settings.changeMultiplier;
      Ok((if countsMore then Raised(user, now) else user).(settings := params))
  }

  function PausedSet(user: User, paused: bool, now: i64): Result<User> {
    if user.status.Exited? then Err(UserNotActive)
    else if paused then
      if user.status.Active? then Ok(user.(status := Paused)) else Err(UserNotActive)
    else
      if user.status.Paused? then Ok(Raised(user.(status := Active), now)) else Err(UserNotPaused)
  }

  function PendingLowered(user: User, pending: u64): Result<User> {
    if user.status.Exited? then Err(UserNotActive)
    else if user.pending < pending then Err(PendingIncrease)
    else Ok(user.(pending := pending))
  }

  function TierChanged(
    user: User, key: Key, betaCap: u64, tier: u8, accounts: seq<AccountInfo>, now: i64): Result<User>
  {
    if user.status.Exited? then Err(UserNotActive)
    else if tier >= 2 then Err(InvalidTier)
    else if tier == user.settings.tier then Err(InvalidTier)
    else if betaCap < TIERS.At(tier) then Err(CapAboveBetaLimit)
    else if TIERS.At(tier) < user.settings.engineAmount then Err(InvalidRules)
    else
      var _ :- MoveAll(accounts, user.settings.paymentTokens, user.settings.tier, tier, key, now, 0, 0);
      Ok(user.(settings := user.settings.(tier := tier)))
  }

  function TokensChanged(user: User, key: Key, tokens: bv8, accounts: seq<AccountInfo>, now: i64): Result<User> {
    if user.status.Exited? then Err(UserNotActive)
    else if tokens == 0 then Err(NoPaymentToken)
    else if tokens >> 2 != 0 then Err(UnknownPaymentToken)
    else
      var enabled := user.settings.paymentTokens;
      var _ :- SwitchAll(accounts, enabled, tokens, user.settings.tier, key, now, 0, 0);
      var raised := if tokens & !enabled != 0 then Raised(user, now) else user;
      Ok(raised.(settings := user.settings.(paymentTokens := tokens)))
  }

  function ExitedUser(user: User, key: Key, accounts: seq<AccountInfo>, now: i64): Result<User> {
    if user.status.Exited? then Err(UserNotActive)
    else
      var _ :- EndAll(accounts, user.settings.paymentTokens, user.settings.tier, key, now, 0, 0);
      Ok(user.(settings := CLEARED, pending := 0, status := Exited))
  }

  function Reactivated(user: User, params: EnrollParams, now: i64): User {
    Raised(user.(settings := params, status := Active), now)
  }

  /** What enrolling and reactivating require of the config and the subscriptions. */
  function Admitted(config: Config, payer: Key, params: EnrollParams, key: Key, accounts: seq<AccountInfo>)
    : Result<()>
  {
    if config.settings.sponsor != payer then Err(NotSponsor)
    else if config.paused then Err(ProgramPaused)
    else if config.settings.maxUsers <= config.userCount then Err(BetaFull)
    else
      var _ :- Validate(params, config.settings.userWeeklyCap);
      Require(AllLive(accounts, params.paymentTokens, params.tier, key, 0, 0), SubscriptionMismatch)
  }

  function ReactivatedUser(
    config: Config, user: User, payer: Key, params: EnrollParams, key: Key, accounts: seq<AccountInfo>, now: i64)
    : Result<User>
  {
    if config.settings.sponsor != payer then Err(NotSponsor)
    else if !user.status.Exited? then Err(UserNotExited)
    else
      var _ :- Admitted(config, payer, params, key, accounts);
      Ok(Reactivated(user, params, now))
  }

  /** What an attested transfer adds to `pending`, before saturation. */
  function Invested(user: User, a: Attestation): u64 {
    match a.kind
    case Income => IncomeShare(user, a.amount)
    case Payment => Change(user, a.amount)
  }

  /** `attest` after its signature is accepted. */
  function Attested(user: User, a: Attestation, now: i64): Result<User> {
    if !user.status.Active? then Err(UserNotActive)
    else if !(a.amount > 0 && user.attestableFrom <= a.eventTime <= now) then Err(InvalidAttestation)
    else if a.eventTime + ATTESTATION_TTL_SECONDS < now then Err(AttestationExpired)
    else if !(a.paymentToken < 2 && Enabled(user.settings.paymentTokens, a.paymentToken)) then
      Err(UnknownPaymentToken)
    else if Invested(user, a) == 0 then Err(NothingToInvest)
    else Ok(user.(pending := SaturatingAdd(user.pending, Invested(user, a))))
  }

  // The sweep up to its swap

  /** What a sweep is given: the token, the balance read from the user's account (none when it holds no token
      account's bytes), the payment mint, token program and plan passed, and the subscription's state. */
  datatype SweepInput = SweepInput(
    token: u8, balance: Option<u64>, mint: Key, tokenProgram: Key, plan: Address, subscription: Option<Subscription>)

  function Today(now: i64): u32 {
    now / DAY_SECONDS % (U32_MAX + 1)
  }

  /** The program's checks of a sweep in order, up to the amount it pulls. */
  function SweepGate(config: Config, user: User, input: SweepInput, now: i64): Result<Pull> {
    if config.paused then Err(ProgramPaused)
    else if input.token >= 2 then Err(UnknownPaymentToken)
    else if Today(now) <= user.lastSweepDay.At(input.token) then Err(AlreadySwept)
    else if user.settings.engine.Weekly? && !UsMarketOpen(now, config.calendar) then Err(NothingToSweep)
    else if input.balance.None? then Err(InvalidTokenAccount)
    else
      var betaCap := config.settings.userWeeklyCap;
      var pull := PullAt(user, input.token, input.balance.value, betaCap, config.calendar, now);
      if pull.Total() == 0 then Err(NothingToSweep)
      else if !Enabled(user.settings.paymentTokens, input.token) then Err(UnknownPaymentToken)
      else if input.mint != config.paymentTokens.At(input.token).mint then Err(UnknownPaymentToken)
      else if input.tokenProgram != config.paymentTokens.At(input.token).tokenProgram then Err(UnknownPaymentToken)
      else if input.plan != PlanAddress(input.token, user.settings.tier) then Err(SubscriptionMismatch)
      else
        var capped := pull.Capped(Remaining(input.subscription, now));
        if capped.Total() == 0 then Err(NothingToSweep) else Ok(capped)
  }

  /** The user after a sweep that pulled `pull` of `token`. */
  function Swept(user: User, token: nat, pull: Pull, now: i64): User
    requires token < 2
  {
    Recorded(user, pull, now).(lastSweepDay := user.lastSweepDay.With(token, Today(now)))
  }

  // The state machine

  datatype World = World(now: i64, config: Config, users: map<Key, User>, records: map<TransferKey, int>)

  /** Committed transactions and the passing of time. The admin's calendar is any calendar; a sweep in a run is one
      whose prices, pull and swap succeeded. */
  datatype Action =
    | Tick(seconds: nat)
    | UpdateConfig(settings: Settings)
    | SetPaused(paused: bool)
    | SetMarketCalendar(calendar: MarketCalendar)
    | Enroll(user: Key, payer: Key, params: EnrollParams, accounts: seq<AccountInfo>)
    | Attest(attestation: Attestation)
    | CloseAttestation(key: TransferKey)
    | Sweep(user: Key, input: SweepInput)
    | UpdateSettings(user: Key, params: EnrollParams)
    | SetUserPaused(user: Key, paused: bool)
    | LowerPending(user: Key, pending: u64)
    | ChangeTier(user: Key, tier: u8, accounts: seq<AccountInfo>)
    | ChangePaymentTokens(user: Key, tokens: bv8, accounts: seq<AccountInfo>)
    | Exit(user: Key, accounts: seq<AccountInfo>)
    | Reactivate(user: Key, payer: Key, params: EnrollParams, accounts: seq<AccountInfo>)

  /** The user an action changes, if it changes one. */
  function Subject(a: Action): Option<Key> {
    match a
    case Tick(_) => None
    case UpdateConfig(_) => None
    case SetPaused(_) => None
    case SetMarketCalendar(_) => None
    case CloseAttestation(_) => None
    case Attest(attestation) => Some(attestation.user)
    case _ => Some(a.user)
  }

  /** What an action on an existing user makes of the user. */
  function UserStep(config: Config, user: User, a: Action, now: i64): Result<User>
    requires Subject(a).Some? && !a.Enroll?
  {
    match a
    case Attest(attestation) => Attested(user, attestation, now)
    case Sweep(_, input) =>
      var pull :- SweepGate(config, user, input, now);
      Ok(Swept(user, input.token, pull, now))
    case UpdateSettings(_, params) => UpdatedSettings(user, params, now)
    case SetUserPaused(_, paused) => PausedSet(user, paused, now)
    case LowerPending(_, pending) => PendingLowered(user, pending)
    case ChangeTier(key, tier, accounts) =>
      TierChanged(user, key, config.settings.userWeeklyCap, tier, accounts, now)
    case ChangePaymentTokens(key, tokens, accounts) => TokensChanged(user, key, tokens, accounts, now)
    case Exit(key, accounts) => ExitedUser(user, key, accounts, now)
    case Reactivate(key, payer, params, accounts) =>
      ReactivatedUser(config, user, payer, params, key, accounts, now)
  }

  function ConfigStep(config: Config, a: Action): Result<Config> {
    match a
    case UpdateConfig(settings) =>
      var _ :- ValidateConfig(settings);
      Ok(config.(settings := settings))
    case SetPaused(paused) => Ok(config.(paused := paused))
    case SetMarketCalendar(calendar) => Ok(config.(calendar := calendar))
    case Enroll(_, _, _, _) => SeatTaken(config)
    case Reactivate(_, _, _, _) => SeatTaken(config)
    case Exit(_, _) => Ok(config.(userCount := SaturatingSub(config.userCount, 1)))
    case _ => Ok(config)
  }

  /** One more user; `Admitted` has found room below `maxUsers`. */
  function SeatTaken(config: Config): Result<Config> {
    if config.userCount >= config.settings.maxUsers then Err(BetaFull)
    else Ok(config.(userCount := config.userCount + 1))
  }

  function RecordsStep(records: map<TransferKey, int>, a: Action, now: i64): Result<map<TransferKey, int>> {
    match a
    case Attest(attestation) =>
      if KeyOf(attestation) in records then Err(AccountInUse)
      else Ok(records[KeyOf(attestation) := attestation.eventTime + ATTESTATION_TTL_SECONDS])
    case CloseAttestation(key) =>
      if key !in records then Err(AccountMissing)
      else if now <= records[key] then Err(AttestationNotExpired)
      else Ok(records - {key})
    case _ => Ok(records)
  }

  /** The user an action needs to exist does not. */
  predicate UserMissing(users: map<Key, User>, a: Action) {
    Subject(a).Some? && !a.Enroll? && Subject(a).value !in users
  }

  function UsersStep(config: Config, users: map<Key, User>, a: Action, now: i64): Result<map<Key, User>>
    requires !UserMissing(users, a)
  {
    if a.Enroll? then
      if a.user in users then Err(AccountInUse)
      else
        var _ :- Admitted(config, a.payer, a.params, a.user, a.accounts);
        Ok(users[a.user := Enrolled(a.params, now)])
    else if Subject(a).None? then Ok(users)
    else
      var key := Subject(a).value;
      var user :- UserStep(config, users[key], a, now);
      Ok(users[key := user])
  }

  function Step(w: World, a: Action): Result<World> {
    if UserMissing(w.users, a) then Err(AccountMissing)
    else
      var records :- RecordsStep(w.records, a, w.now);
      var users :- UsersStep(w.config, w.users, a, w.now);
      var config :- ConfigStep(w.config, a);
      Ok(World(if a.Tick? then SaturateI64(w.now + a.seconds) else w.now, config, users, records))
  }

  /** The state at deployment: no user, no record. */
  predicate Initial(w: World) {
    ClockInRange(w.now) && w.users == map[] && w.records == map[] && w.config.userCount == 0
  }

  /** A run: every action commits, and the clock stays in range. */
  ghost predicate IsRun(ws: seq<World>, acts: seq<Action>) {
    && |ws| == |acts| + 1
    && Initial(ws[0])
    && (forall i :: 0 <= i < |ws| ==> ClockInRange(ws[i].now))
    && (forall i :: 0 <= i < |acts| ==> Step(ws[i], acts[i]) == Ok(ws[i + 1]))
  }
}
