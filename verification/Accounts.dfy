/** The program's accounts as objects, and its instructions as the in-place updates they are: each one either refuses
    and leaves its accounts as they were, or makes the change that `Program` gives as a function. */
module Accounts {
  import opened Numbers
  import opened Market
  import opened CalendarLoader
  import opened Amount
  import opened Program
  import Subscriptions

  /** An instruction that did what `expected` says, or refused with its error and left the user as they were. */
  predicate Follows(expected: Result<User>, r: Result<()>, before: User, after: User) {
    if expected.Ok? then r.Ok? && after == expected.value
    else r == Err(expected.error) && after == before
  }

  /** One user's settings and sweep state. */
  class UserConfig {
    const key: Key
    var tier: u8
    var paymentTokens: bv8
    var asset: u8
    var engine: Engine
    var engineAmount: u64
    var incomeRule: bool
    var changeMultiplier: u8
    var cushions: Pair<u64>
    var goalAmount: u64
    var goalLabel: seq<u8>
    var enrolledAt: i64
    var week: u32
    var weekSpent: u64
    var engineRanAt: i64
    var pending: u64
    var status: UserStatus
    var attestableFrom: i64
    var lastSweepDay: Pair<u32>

    /** The settings the user chose. */
    function Settings(): EnrollParams
      reads this
    {
      EnrollParams(
        tier, paymentTokens, asset, engine, engineAmount, incomeRule, changeMultiplier, cushions, goalAmount, goalLabel)
    }

    /** The account as a value. */
    function View(): User
      reads this
    {
      User(Settings(), enrolledAt, week, weekSpent, engineRanAt, pending, status, attestableFrom, lastSweepDay)
    }

    constructor (key: Key, params: EnrollParams, now: i64)
      ensures this.key == key && View() == Enrolled(params, now)
    {
      this.key := key;
      tier, paymentTokens, asset := params.tier, params.paymentTokens, params.asset;
      engine, engineAmount := params.engine, params.engineAmount;
      incomeRule, changeMultiplier := params.incomeRule, params.changeMultiplier;
      cushions, goalAmount, goalLabel := params.cushions, params.goalAmount, params.goalLabel;
      enrolledAt, attestableFrom := now, now;
      week, weekSpent, engineRanAt, pending := 0, 0, 0, 0;
      status, lastSweepDay := Active, Pair(0, 0);
    }

    method SetSettings(params: EnrollParams)
      modifies this`tier, this`paymentTokens, this`asset, this`engine, this`engineAmount, this`incomeRule
      modifies this`changeMultiplier, this`cushions, this`goalAmount, this`goalLabel
      ensures Settings() == params
    {
      tier, paymentTokens, asset := params.tier, params.paymentTokens, params.asset;
      engine, engineAmount := params.engine, params.engineAmount;
      incomeRule, changeMultiplier := params.incomeRule, params.changeMultiplier;
      cushions, goalAmount, goalLabel := params.cushions, params.goalAmount, params.goalLabel;
    }

    method RaiseAttestableFrom(now: i64)
      modifies this`attestableFrom
      ensures View() == Raised(old(View()), now)
    {
      attestableFrom := Max(attestableFrom, now);
    }

    method Record(pull: Pull, now: i64)
      modifies this`week, this`weekSpent, this`pending, this`engineRanAt
      ensures View() == Recorded(old(View()), pull, now)
    {
      var current := WeekAt(View(), now);
      if current != week {
        week := current;
        weekSpent := 0;
      }
      weekSpent := Min(weekSpent + pull.Total(), U64_MAX);
      pending := SaturatingSub(pending, pull.pending);
      if pull.engine > 0 {
        engineRanAt := now;
      }
    }

    /** What a sweep of `token` changes after its swap. */
    method FinishSweep(token: nat, pull: Pull, now: i64)
      requires token < 2
      modifies this
      ensures View() == Swept(old(View()), token, pull, now)
    {
      Record(pull, now);
      lastSweepDay := lastSweepDay.With(token, Today(now));
    }

    method UpdateSettings(params: EnrollParams, now: i64) returns (r: Result<()>)
      modifies this
      ensures Follows(UpdatedSettings(old(View()), params, now), r, old(View()), View())
    {
      if status.Exited? {
        return Err(UserNotActive);
      }
      if params.tier != tier || params.paymentTokens != paymentTokens {
        return Err(PlanChangeRequired);
      }
      hide ValidateRules;
      var _ :- ValidateRules(params);
      var countsMore := (params.incomeRule && !incomeRule) || params.changeMultiplier > changeMultiplier;
      if countsMore {
        RaiseAttestableFrom(now);
      }
      SetSettings(params);
      return Ok(());
    }

    method SetUserPaused(paused: bool, now: i64) returns (r: Result<()>)
      modifies this
      ensures Follows(PausedSet(old(View()), paused, now), r, old(View()), View())
    {
      if status.Exited? {
        return Err(UserNotActive);
      }
      if paused {
        if !status.Active? {
          return Err(UserNotActive);
        }
        status := Paused;
      } else {
        if !status.Paused? {
          return Err(UserNotPaused);
        }
        status := Active;
        RaiseAttestableFrom(now);
      }
      return Ok(());
    }

    method LowerPending(lowered: u64) returns (r: Result<()>)
      modifies this`pending
      ensures Follows(PendingLowered(old(View()), lowered), r, old(View()), View())
    {
      if status.Exited? {
        return Err(UserNotActive);
      }
      if pending < lowered {
        return Err(PendingIncrease);
      }
      pending := lowered;
      return Ok(());
    }

    /** Adds what an attested transfer invests. */
    method Credit(attestation: Attestation, now: i64) returns (r: Result<()>)
      modifies this`pending
      ensures Follows(Attested(old(View()), attestation, now), r, old(View()), View())
    {
      hide IncomeShare, Change, Enabled, SaturatingAdd;
      if !status.Active? {
        return Err(UserNotActive);
      }
      if !(attestation.amount > 0 && attestableFrom <= attestation.eventTime <= now) {
        return Err(InvalidAttestation);
      }
      if attestation.eventTime + ATTESTATION_TTL_SECONDS < now {
        return Err(AttestationExpired);
      }
      var token := attestation.paymentToken;
      if !(token < 2 && Enabled(paymentTokens, token)) {
        return Err(UnknownPaymentToken);
      }
      var invested: u64;
      match attestation.kind {
        case Income => invested := IncomeShare(View(), attestation.amount);
        case Payment => invested := Change(View(), attestation.amount);
      }
      if invested == 0 {
        return Err(NothingToInvest);
      }
      pending := SaturatingAdd(pending, invested);
      return Ok(());
    }

    method ChangeTier(config: ConfigAccount, newTier: u8, accounts: array<Subscriptions.AccountInfo>, now: i64)
      returns (r: Result<()>)
      modifies this, accounts
      ensures Follows(
                TierChanged(old(View()), key, config.userWeeklyCap, newTier, old(accounts[..]), now),
                r, old(View()), View())
      ensures r.Ok? ==> Subscriptions.MoveAll(
                          old(accounts[..]), old(paymentTokens), old(tier), newTier, key, now, 0, 0) == Ok(accounts[..])
    {
      hide Subscriptions.MoveAll;
      if status.Exited? {
        return Err(UserNotActive);
      }
      if newTier >= 2 || newTier == tier {
        return Err(InvalidTier);
      }
      var cap := TIERS.At(newTier);
      if config.userWeeklyCap < cap {
        return Err(CapAboveBetaLimit);
      }
      if cap < engineAmount {
        return Err(InvalidRules);
      }
      var _ :- MoveSubscriptions(accounts, paymentTokens, tier, newTier, key, now);
      tier := newTier;
      return Ok(());
    }

    method ChangePaymentTokens(tokens: bv8, accounts: array<Subscriptions.AccountInfo>, now: i64)
      returns (r: Result<()>)
      modifies this, accounts
      ensures Follows(TokensChanged(old(View()), key, tokens, old(accounts[..]), now), r, old(View()), View())
      ensures r.Ok? ==> Subscriptions.SwitchAll(
                          old(accounts[..]), old(paymentTokens), tokens, old(tier), key, now, 0, 0) == Ok(accounts[..])
    {
      hide Subscriptions.SwitchAll;
      if status.Exited? {
        return Err(UserNotActive);
      }
      if tokens == 0 {
        return Err(NoPaymentToken);
      }
      if tokens >> 2 != 0 {
        return Err(UnknownPaymentToken);
      }
      var enabled := paymentTokens;
      var _ :- SwitchSubscriptions(accounts, enabled, tokens, tier, key, now);
      if tokens & !enabled != 0 {
        RaiseAttestableFrom(now);
      }
      paymentTokens := tokens;
      return Ok(());
    }

    method Leave()
      modifies this
      ensures View() == old(View()).(settings := CLEARED, pending := 0, status := Exited)
    {
      SetSettings(CLEARED);
      pending := 0;
      status := Exited;
    }

    method Exit(config: ConfigAccount, accounts: array<Subscriptions.AccountInfo>, now: i64) returns (r: Result<()>)
      modifies this, config`userCount, accounts
      ensures Follows(ExitedUser(old(View()), key, old(accounts[..]), now), r, old(View()), View())
      ensures config.userCount == if r.Ok? then SaturatingSub(old(config.userCount), 1) else old(config.userCount)
      ensures r.Ok? ==> Subscriptions.EndAll(
                          old(accounts[..]), old(paymentTokens), old(tier), key, now, 0, 0) == Ok(accounts[..])
    {
      hide Subscriptions.EndAll;
      if status.Exited? {
        return Err(UserNotActive);
      }
      var _ :- EndSubscriptions(accounts, paymentTokens, tier, key, now);
      config.userCount := SaturatingSub(config.userCount, 1);
      Leave();
      return Ok(());
    }

    method Return(params: EnrollParams, now: i64)
      modifies this
      ensures View() == Reactivated(old(View()), params, now)
    {
      SetSettings(params);
      status := Active;
      RaiseAttestableFrom(now);
    }

    method Reactivate(
      config: ConfigAccount, payer: Key, params: EnrollParams, accounts: seq<Subscriptions.AccountInfo>, now: i64)
      returns (r: Result<()>)
      modifies this, config`userCount
      ensures Follows(
                ReactivatedUser(old(config.View()), old(View()), payer, params, key, accounts, now),
                r, old(View()), View())
      ensures config.userCount == old(config.userCount) + if r.Ok? then 1 else 0
    {
      hide Admitted;
      if config.sponsor != payer {
        return Err(NotSponsor);
      }
      if !status.Exited? {
        return Err(UserNotExited);
      }
      var _ :- config.Admit(payer, params, key, accounts);
      Return(params, now);
      config.userCount := config.userCount + 1;
      return Ok(());
    }
  }

  /** The program's one configuration. */
  class ConfigAccount {
    var paused: bool
    var attestor: Key
    var sponsor: Key
    var userWeeklyCap: u64
    var maxUsers: u32
    var userCount: u32
    var assets: Pair<Asset>
    var paymentTokens: Pair<PaymentToken>
    var marketCalendar: MarketCalendar

    constructor (
      settings: Program.Settings, assets: Pair<Asset>, paymentTokens: Pair<PaymentToken>, calendar: MarketCalendar)
      ensures View() == Config(false, settings, 0, assets, paymentTokens, calendar)
    {
      paused, userCount := false, 0;
      attestor, sponsor, userWeeklyCap, maxUsers :=
        settings.attestor, settings.sponsor, settings.userWeeklyCap, settings.maxUsers;
      this.assets, this.paymentTokens, marketCalendar := assets, paymentTokens, calendar;
    }

    function View(): Config
      reads this
    {
      Config(
        paused, Settings(attestor, sponsor, userWeeklyCap, maxUsers), userCount, assets, paymentTokens, marketCalendar)
    }

    method UpdateConfig(settings: Settings) returns (r: Result<()>)
      modifies this
      ensures var expected := ConfigStep(old(View()), Action.UpdateConfig(settings));
              if expected.Ok? then r.Ok? && View() == expected.value
              else r == Err(expected.error) && View() == old(View())
    {
      var _ :- ValidateConfig(settings);
      attestor, sponsor := settings.attestor, settings.sponsor;
      userWeeklyCap, maxUsers := settings.userWeeklyCap, settings.maxUsers;
      return Ok(());
    }

    method SetPaused(paused: bool)
      modifies this`paused
      ensures View() == old(View()).(paused := paused)
    {
      this.paused := paused;
    }

    /** Loads the closures as of the clock's day; a calendar refused leaves the stored one. */
    method SetMarketCalendar(holidays: seq<u16>, earlyCloses: seq<u16>, validThrough: u16, now: i64)
      returns (r: Result<()>)
      modifies this`marketCalendar
      ensures var today := now / DAY_SECONDS;
              var refusal := Refusal(holidays, earlyCloses, validThrough, today);
              if refusal.Some? then r == Err(refusal.value) && View() == old(View())
              else
                && r.Ok? && View() == old(View()).(calendar := marketCalendar)
                && marketCalendar.firstDay == today % (U16_MAX + 1) && marketCalendar.validThrough == validThrough
                && Holds(marketCalendar.holidays, today, validThrough, holidays)
                && Holds(marketCalendar.earlyCloses, today, validThrough, earlyCloses)
    {
      var loaded := LoadCalendar(holidays, earlyCloses, validThrough, now / DAY_SECONDS);
      if loaded.Err? {
        return Err(loaded.error);
      }
      marketCalendar := loaded.value;
      return Ok(());
    }

    /** What enrolling and reactivating check before they write. */
    method Admit(payer: Key, params: EnrollParams, key: Key, accounts: seq<Subscriptions.AccountInfo>)
      returns (r: Result<()>)
      ensures r == Admitted(View(), payer, params, key, accounts)
      ensures r.Ok? ==> userCount < maxUsers
    {
      if sponsor != payer {
        return Err(NotSponsor);
      }
      if paused {
        return Err(ProgramPaused);
      }
      if maxUsers <= userCount {
        return Err(BetaFull);
      }
      var _ :- Validate(params, userWeeklyCap);
      r := RequireLive(accounts, params.paymentTokens, params.tier, key);
    }

    method Enroll(
      payer: Key, params: EnrollParams, key: Key, accounts: seq<Subscriptions.AccountInfo>, now: i64)
      returns (r: Result<UserConfig>)
      modifies this`userCount
      ensures var admitted := Admitted(old(View()), payer, params, key, accounts);
              if admitted.Ok? then
                && r.Ok? && fresh(r.value) && r.value.key == key && r.value.View() == Enrolled(params, now)
                && userCount == old(userCount) + 1
              else r == Err(admitted.error) && userCount == old(userCount)
    {
      var _ :- Admit(payer, params, key, accounts);
      var user := new UserConfig(key, params, now);
      userCount := userCount + 1;
      return Ok(user);
    }
  }

  /** The records of counted transfers, by what derives their addresses. */
  class AttestationRecords {
    var expiresAt: map<TransferKey, int>

    constructor ()
      ensures expiresAt == map[]
    {
      expiresAt := map[];
    }

    /** Counts a transfer whose signature is accepted, and leaves its record. */
    method Attest(user: UserConfig, attestation: Attestation, now: i64) returns (r: Result<()>)
      requires user.key == attestation.user
      modifies this, user`pending
      ensures var records := RecordsStep(old(expiresAt), Action.Attest(attestation), now);
              var counted := Attested(old(user.View()), attestation, now);
              if records.Err? then
                r == Err(records.error) && user.View() == old(user.View()) && expiresAt == old(expiresAt)
              else
                && Follows(counted, r, old(user.View()), user.View())
                && expiresAt == if r.Ok? then records.value else old(expiresAt)
    {
      hide Attested;
      if KeyOf(attestation) in expiresAt {
        return Err(AccountInUse);
      }
      var _ :- user.Credit(attestation, now);
      expiresAt := expiresAt[KeyOf(attestation) := attestation.eventTime + ATTESTATION_TTL_SECONDS];
      return Ok(());
    }

    method CloseAttestation(key: TransferKey, now: i64) returns (r: Result<()>)
      modifies this
      ensures var records := RecordsStep(old(expiresAt), Action.CloseAttestation(key), now);
              if records.Ok? then r.Ok? && expiresAt == records.value
              else r == Err(records.error) && expiresAt == old(expiresAt)
    {
      if key !in expiresAt {
        return Err(AccountMissing);
      }
      if now <= expiresAt[key] {
        return Err(AttestationNotExpired);
      }
      expiresAt := expiresAt - {key};
      return Ok(());
    }
  }

  // The walks over the accounts passed for the user's subscriptions

  /** Ends one subscription in place, unless it is closed or has ended. */
  method Cancel(
    accounts: array<Subscriptions.AccountInfo>, plan: nat, subscription: nat,
    token: nat, tier: nat, user: Key, now: i64)
    returns (r: Result<()>)
    requires plan < accounts.Length && subscription < accounts.Length
    modifies accounts
    ensures var ended := Subscriptions.Cancelled(
                  old(accounts[plan]), old(accounts[subscription]), token, tier, user, now);
            if ended.Ok? then r.Ok? && accounts[..] == old(accounts[..])[subscription := ended.value]
            else r == Err(ended.error) && accounts[..] == old(accounts[..])
  {
    if accounts[plan].address != Subscriptions.PlanAddress(token, tier) {
      return Err(SubscriptionMismatch);
    }
    if accounts[subscription].address != Subscriptions.SubscriptionAddress(token, tier, user) {
      return Err(SubscriptionMismatch);
    }
    var held := accounts[subscription].held;
    if held.None? {
      return Ok(());
    }
    if held.value.expiresAt != 0 && held.value.expiresAt <= now {
      return Ok(());
    }
    accounts[subscription] := accounts[subscription].(held := Some(held.value.(expiresAt := now)));
    return Ok(());
  }

  method RequireLive(accounts: seq<Subscriptions.AccountInfo>, tokens: bv8, tier: nat, user: Key)
    returns (r: Result<()>)
    ensures r == Require(Subscriptions.AllLive(accounts, tokens, tier, user, 0, 0), SubscriptionMismatch)
  {
    var token, next := 0, 0;
    while token < 2
      invariant 0 <= token <= 2 && 0 <= next
      invariant Subscriptions.AllLive(accounts, tokens, tier, user, token, next)
                <==> Subscriptions.AllLive(accounts, tokens, tier, user, 0, 0)
    {
      if Enabled(tokens, token) {
        if next >= |accounts| || !Subscriptions.IsLive(accounts[next], token, tier, user) {
          return Err(SubscriptionMismatch);
        }
        next := next + 1;
      }
      token := token + 1;
    }
    return Ok(());
  }

  method EndSubscriptions(
    accounts: array<Subscriptions.AccountInfo>, tokens: bv8, tier: nat, user: Key, now: i64) returns (r: Result<()>)
    modifies accounts
    ensures var ended := Subscriptions.EndAll(old(accounts[..]), tokens, tier, user, now, 0, 0);
            if ended.Ok? then r.Ok? && accounts[..] == ended.value else r == Err(ended.error)
  {
    hide Subscriptions.Cancelled;
    var token, next := 0, 0;
    while token < 2
      invariant 0 <= token <= 2 && 0 <= next
      invariant Subscriptions.EndAll(accounts[..], tokens, tier, user, now, token, next)
                == Subscriptions.EndAll(old(accounts[..]), tokens, tier, user, now, 0, 0)
    {
      if Enabled(tokens, token) {
        if next + 2 > accounts.Length {
          return Err(SubscriptionMismatch);
        }
        var _ :- Cancel(accounts, next, next + 1, token, tier, user, now);
        next := next + 2;
      }
      token := token + 1;
    }
    return Ok(());
  }

  method MoveSubscriptions(
    accounts: array<Subscriptions.AccountInfo>, tokens: bv8, tier: nat, newTier: nat, user: Key, now: i64)
    returns (r: Result<()>)
    modifies accounts
    ensures var moved := Subscriptions.MoveAll(old(accounts[..]), tokens, tier, newTier, user, now, 0, 0);
            if moved.Ok? then r.Ok? && accounts[..] == moved.value else r == Err(moved.error)
  {
    hide Subscriptions.Cancelled;
    var token, next := 0, 0;
    while token < 2
      invariant 0 <= token <= 2 && 0 <= next
      invariant Subscriptions.MoveAll(accounts[..], tokens, tier, newTier, user, now, token, next)
                == Subscriptions.MoveAll(old(accounts[..]), tokens, tier, newTier, user, now, 0, 0)
    {
      if Enabled(tokens, token) {
        if next + 3 > accounts.Length {
          return Err(SubscriptionMismatch);
        }
        var _ :- Cancel(accounts, next, next + 1, token, tier, user, now);
        if !Subscriptions.IsLive(accounts[next + 2], token, newTier, user) {
          return Err(SubscriptionMismatch);
        }
        next := next + 3;
      }
      token := token + 1;
    }
    return Ok(());
  }

  method SwitchSubscriptions(
    accounts: array<Subscriptions.AccountInfo>, tokens: bv8, newTokens: bv8, tier: nat, user: Key, now: i64)
    returns (r: Result<()>)
    modifies accounts
    ensures var switched := Subscriptions.SwitchAll(old(accounts[..]), tokens, newTokens, tier, user, now, 0, 0);
            if switched.Ok? then r.Ok? && accounts[..] == switched.value else r == Err(switched.error)
  {
    hide Subscriptions.Cancelled;
    var token, next := 0, 0;
    while token < 2
      invariant 0 <= token <= 2 && 0 <= next
      invariant Subscriptions.SwitchAll(accounts[..], tokens, newTokens, tier, user, now, token, next)
                == Subscriptions.SwitchAll(old(accounts[..]), tokens, newTokens, tier, user, now, 0, 0)
    {
      if Enabled(tokens, token) && !Enabled(newTokens, token) {
        if next + 2 > accounts.Length {
          return Err(SubscriptionMismatch);
        }
        var _ :- Cancel(accounts, next, next + 1, token, tier, user, now);
        next := next + 2;
      } else if !Enabled(tokens, token) && Enabled(newTokens, token) {
        if next >= accounts.Length || !Subscriptions.IsLive(accounts[next], token, tier, user) {
          return Err(SubscriptionMismatch);
        }
        next := next + 1;
      }
      token := token + 1;
    }
    return Ok(());
  }
}
