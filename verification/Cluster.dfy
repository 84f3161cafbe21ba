/** The deployed program: its accounts together, changed in place by one transaction after another, with the history
    they make. Whatever transactions come, the history is a run, so every guarantee over runs holds of it. */
module Cluster {
  import opened Numbers
  import opened Market
  import opened Amount
  import opened Program
  import opened Accounts
  import opened CalendarLoader
  import Custody
  import Ledger
  import Runs
  import Subscriptions

  /** A transaction that commits as `a` says, or fails and changes nothing. */
  predicate Commits(before: World, a: Action, after: World, r: Result<()>) {
    var next := Step(before, a);
    if next.Ok? then r.Ok? && after == next.value else r == Err(next.error) && after == before
  }

  /** What an action on an enrolled user does to the whole state. */
  lemma StepOfUser(w: World, a: Action, key: Key)
    requires Subject(a) == Some(key) && !a.Enroll? && !a.Attest?
    ensures if key !in w.users then Step(w, a) == Err(AccountMissing)
            else
              var user := UserStep(w.config, w.users[key], a, w.now);
              if user.Err? then Step(w, a) == Err(user.error)
              else Step(w, a) == Ok(w.(users := w.users[key := user.value], config := SeatsAfter(w.config, a)))
  {
  }

  /** The configuration after an action on an enrolled user. */
  function SeatsAfter(config: Config, a: Action): Config {
    if a.Exit? then config.(userCount := SaturatingSub(config.userCount, 1))
    else if a.Reactivate? && config.userCount < config.settings.maxUsers then config.(userCount := config.userCount + 1)
    else config
  }

  /** The function each action on an enrolled user is. */
  lemma ActionsAre(config: Config, user: User, a: Action, now: i64)
    requires Subject(a).Some? && !a.Enroll?
    ensures var next := UserStep(config, user, a, now);
            && (a.UpdateSettings? ==> next == UpdatedSettings(user, a.params, now))
            && (a.SetUserPaused? ==> next == PausedSet(user, a.paused, now))
            && (a.LowerPending? ==> next == PendingLowered(user, a.pending))
            && (a.ChangeTier? ==>
                  next == TierChanged(user, a.user, config.settings.userWeeklyCap, a.tier, a.accounts, now))
            && (a.ChangePaymentTokens? ==> next == TokensChanged(user, a.user, a.tokens, a.accounts, now))
            && (a.Exit? ==> next == ExitedUser(user, a.user, a.accounts, now))
            && (a.Reactivate? ==> next == ReactivatedUser(config, user, a.payer, a.params, a.user, a.accounts, now))
    ensures !a.Exit? && !a.Reactivate? ==> SeatsAfter(config, a) == config
    ensures a.Exit? ==> SeatsAfter(config, a) == config.(userCount := SaturatingSub(config.userCount, 1))
    ensures a.Reactivate? && UserStep(config, user, a, now).Ok? ==>
              config.userCount < U32_MAX && SeatsAfter(config, a) == config.(userCount := config.userCount + 1)
  {
    hide SweepGate, UpdatedSettings, PausedSet, PendingLowered, TierChanged, TokensChanged, ExitedUser;
    hide Validate, Subscriptions.AllLive;
  }

  lemma EnrollsOne(w: World, a: Action)
    requires a.Enroll?
    ensures var admitted := Admitted(w.config, a.payer, a.params, a.user, a.accounts);
            if a.user in w.users then Step(w, a) == Err(AccountInUse)
            else if admitted.Err? then Step(w, a) == Err(admitted.error)
            else
              && w.config.userCount < w.config.settings.maxUsers
              && Step(w, a) == Ok(w.(users := w.users[a.user := Enrolled(a.params, w.now)],
                                     config := w.config.(userCount := w.config.userCount + 1)))
  {
    hide Validate, Subscriptions.AllLive;
  }

  lemma CountsTransfer(w: World, a: Action)
    requires a.Attest? && a.attestation.user in w.users
    ensures var key, records := a.attestation.user, RecordsStep(w.records, a, w.now);
            var user := Attested(w.users[key], a.attestation, w.now);
            if records.Err? then Step(w, a) == Err(records.error)
            else if user.Err? then Step(w, a) == Err(user.error)
            else Step(w, a) == Ok(w.(users := w.users[key := user.value], records := records.value))
  {
    hide Attested;
  }

  lemma MissingUser(before: World, a: Action, key: Key)
    requires Subject(a) == Some(key) && !a.Enroll? && key !in before.users
    ensures Commits(before, a, before, Err(AccountMissing))
  {
  }

  lemma UserFollowed(before: World, a: Action, key: Key, user: User, after: World, r: Result<()>)
    requires Subject(a) == Some(key) && !a.Enroll? && !a.Attest? && key in before.users
    requires Follows(UserStep(before.config, before.users[key], a, before.now), r, before.users[key], user)
    requires after.users == before.users[key := user] && after.now == before.now && after.records == before.records
    requires after.config == if r.Ok? then SeatsAfter(before.config, a) else before.config
    ensures Commits(before, a, after, r)
    ensures if r.Ok? then Step(before, a) == Ok(after) else after == before
  {
    hide Step, UserStep, SeatsAfter;
    StepOfUser(before, a, key);
    if r.Err? {
      assert before.users[key := user] == before.users;
    }
  }

  /** A sweep that commits as the state machine's does, with everything its own contract says, or is refused and leaves
      all as it was. */
  ghost predicate SweepCommits(
    before: World, held: Custody.Holdings, call: Custody.SweepCall, route: Custody.Route,
    after: World, holdings: Custody.Holdings, r: Result<Custody.SweepResult>)
  {
    && (if call.user in before.users then
          && call.user in after.users
          && Custody.SweepOutcome(
               before.config, before.users[call.user], call, held, route, before.now, after.users[call.user], r)
        else r == Err(AccountMissing))
    && (if r.Ok? then
          && Commits(before, Action.Sweep(call.user, call.input), after, Ok(()))
          && holdings == r.value.accounts
        else after == before && holdings == held)
  }

  lemma SweepFollowed(
    before: World, held: Custody.Holdings, call: Custody.SweepCall, route: Custody.Route, user: User,
    r: Result<Custody.SweepResult>) returns (swap: Option<Custody.RoutedSweep>)
    requires call.user in before.users
    requires Custody.SweepOutcome(before.config, before.users[call.user], call, held, route, before.now, user, r)
    ensures var a, next := Action.Sweep(call.user, call.input), before.(users := before.users[call.user := user]);
            && SweepCommits(before, held, call, route, next, if r.Ok? then r.value.accounts else held, r)
            && (r.Ok? ==> Step(before, a) == Ok(next) && TokensMove(a, swap, held, r.value.accounts))
            && (r.Err? ==> next == before)
  {
    swap := None;
    hide SweepGate, Swept, Custody.SwapAccountsKept, Custody.SwapDataKept, Custody.ProgramsKept, Custody.Succeeds;
    hide Custody.MovesTokens, Custody.FailsWith, Custody.Exchanged, Custody.PricedAt;
    if r.Ok? {
      SweepsOne(before, Action.Sweep(call.user, call.input), user);
      swap := Some(Custody.SweepOf(before.config, call, route, r.value.pull.Total()));
    } else {
      assert before.users[call.user := user] == before.users;
    }
  }

  lemma SweepMissing(before: World, held: Custody.Holdings, call: Custody.SweepCall, route: Custody.Route)
    requires call.user !in before.users
    ensures SweepCommits(before, held, call, route, before, held, Err(AccountMissing))
  {
  }

  // The history

  /** Every state since deployment and the token accounts in each, what led from each to the next, and how each sweep
      moved tokens. */
  datatype History = History(
    worlds: seq<World>, acts: seq<Action>, ledgers: seq<Custody.Holdings>, swaps: seq<Option<Custody.RoutedSweep>>)

  /** What an action does to token accounts: a sweep moves them as its own swap does, while time passes others move them
      in any way, and nothing else touches them. */
  ghost predicate TokensMove(
    a: Action, swap: Option<Custody.RoutedSweep>, before: Custody.Holdings, after: Custody.Holdings)
  {
    if a.Sweep? then
      swap.Some? && swap.value.call.user == a.user && Custody.MovesTokens(swap.value, before, after)
    else swap.None? && (a.Tick? || after == before)
  }

  /** The history ends in this state. The swap authority is the program's own, and no user. */
  ghost predicate Logged(h: History, w: World, holdings: Custody.Holdings) {
    && |h.worlds| == |h.ledgers| == |h.acts| + 1 && |h.swaps| == |h.acts|
    && IsRun(h.worlds, h.acts) && h.worlds[|h.acts|] == w && h.ledgers[|h.acts|] == holdings
    && (forall i :: 0 <= i < |h.acts| ==> TokensMove(h.acts[i], h.swaps[i], h.ledgers[i], h.ledgers[i + 1]))
    && Custody.TablesValid(w.config) && Custody.SWAP_AUTHORITY !in w.users
  }

  function Extended(
    h: History, a: Action, swap: Option<Custody.RoutedSweep>, w: World, holdings: Custody.Holdings): History
  {
    History(h.worlds + [w], h.acts + [a], h.ledgers + [holdings], h.swaps + [swap])
  }

  lemma LoggedOn(
    h: History, before: World, held: Custody.Holdings, a: Action, swap: Option<Custody.RoutedSweep>,
    after: World, holdings: Custody.Holdings)
    requires Logged(h, before, held) && Step(before, a) == Ok(after) && ClockInRange(after.now)
    requires TokensMove(a, swap, held, holdings) && (a.Enroll? ==> a.user != Custody.SWAP_AUTHORITY)
    ensures Logged(Extended(h, a, swap, after, holdings), after, holdings)
  {
    Runs.StepOnUser(before, a, Custody.SWAP_AUTHORITY);
    TablesStay(before, a);
    hide Step, TokensMove, Custody.TablesValid;
  }

  lemma TablesStay(w: World, a: Action)
    requires Step(w, a).Ok?
    ensures Step(w, a).value.config.assets == w.config.assets
    ensures Step(w, a).value.config.paymentTokens == w.config.paymentTokens
  {
  }

  class Cluster {
    var now: i64
    const config: ConfigAccount
    const records: AttestationRecords
    var users: map<Key, UserConfig>

    /** The token accounts of everyone. */
    var holdings: Custody.Holdings

    ghost var history: History

    /** The accounts as values. */
    ghost function View(): World
      reads this`now, this`users, config, records, users.Values
    {
      World(now, config.View(), Users(), records.expiresAt)
    }

    ghost function Users(): map<Key, User>
      reads this`users, users.Values
    {
      map key | key in users :: users[key].View()
    }

    /** Each user's account is at the user's own address, so changing one changes no other. */
    ghost predicate Addressed()
      reads this`users, users.Values
    {
      forall key :: key in users ==> users[key].key == key
    }

    twostate lemma OneUserChanged(key: Key)
      requires users == old(users) && key in users
      requires forall other :: other in users && users[other] != users[key] ==> unchanged(users[other])
      requires Addressed()
      ensures Addressed() && Users() == old(Users())[key := users[key].View()]
    {
      assert forall other :: other in users && other != key ==> users[other] != users[key];
    }

    ghost predicate Valid()
      reads this, config, records, users.Values
    {
      Addressed() && ClockInRange(now) && Logged(history, View(), holdings)
    }

    constructor (config: ConfigAccount, now: i64, holdings: Custody.Holdings)
      requires config.userCount == 0 && ClockInRange(now) && Custody.TablesValid(config.View())
      ensures Valid() && View() == World(now, config.View(), map[], map[])
      ensures this.holdings == holdings && history.acts == []
    {
      this.now, this.config, this.users, this.holdings := now, config, map[], holdings;
      this.records := new AttestationRecords();
      new;
      assert View() == World(now, config.View(), map[], map[]);
      history := History([View()], [], [holdings], []);
    }

    /** Adds what has just been done to the history. */
    ghost method Commit(a: Action, swap: Option<Custody.RoutedSweep>, before: World, held: Custody.Holdings)
      requires Addressed() && ClockInRange(now) && Logged(history, before, held)
      requires Step(before, a) == Ok(View())
      requires TokensMove(a, swap, held, holdings) && (a.Enroll? ==> a.user != Custody.SWAP_AUTHORITY)
      modifies this`history
      ensures Valid() && View() == old(View())
      ensures history == Extended(old(history), a, swap, View(), holdings)
    {
      hide Logged, Step, TokensMove;
      LoggedOn(history, before, held, a, swap, View(), holdings);
      history := Extended(history, a, swap, View(), holdings);
    }

    method UpdateSettings(key: Key, params: EnrollParams) returns (r: Result<()>)
      requires Valid()
      modifies this`history, users.Values
      ensures Valid() && Commits(old(View()), Action.UpdateSettings(key, params), View(), r)
    {
      hide Logged, Step, UserStep, SeatsAfter, Commits, UpdatedSettings;
      ghost var before, a := View(), Action.UpdateSettings(key, params);
      if key !in users {
        MissingUser(before, a, key);
        return Err(AccountMissing);
      }
      ActionsAre(before.config, before.users[key], a, now);
      r := users[key].UpdateSettings(params, now);
      OneUserChanged(key);
      UserFollowed(before, a, key, users[key].View(), View(), r);
      if r.Ok? {
        Commit(a, None, before, holdings);
      }
    }

    method SetUserPaused(key: Key, paused: bool) returns (r: Result<()>)
      requires Valid()
      modifies this`history, users.Values
      ensures Valid() && Commits(old(View()), Action.SetUserPaused(key, paused), View(), r)
    {
      hide Logged, Step, UserStep, SeatsAfter, Commits, PausedSet;
      ghost var before, a := View(), Action.SetUserPaused(key, paused);
      if key !in users {
        MissingUser(before, a, key);
        return Err(AccountMissing);
      }
      ActionsAre(before.config, before.users[key], a, now);
      r := users[key].SetUserPaused(paused, now);
      OneUserChanged(key);
      UserFollowed(before, a, key, users[key].View(), View(), r);
      if r.Ok? {
        Commit(a, None, before, holdings);
      }
    }

    method LowerPending(key: Key, pending: u64) returns (r: Result<()>)
      requires Valid()
      modifies this`history, users.Values
      ensures Valid() && Commits(old(View()), Action.LowerPending(key, pending), View(), r)
    {
      hide Logged, Step, UserStep, SeatsAfter, Commits, PendingLowered;
      ghost var before, a := View(), Action.LowerPending(key, pending);
      if key !in users {
        MissingUser(before, a, key);
        return Err(AccountMissing);
      }
      ActionsAre(before.config, before.users[key], a, now);
      r := users[key].LowerPending(pending);
      OneUserChanged(key);
      UserFollowed(before, a, key, users[key].View(), View(), r);
      if r.Ok? {
        Commit(a, None, before, holdings);
      }
    }

    method ChangeTier(key: Key, tier: u8, accounts: array<Subscriptions.AccountInfo>) returns (r: Result<()>)
      requires Valid()
      modifies this`history, users.Values, accounts
      ensures Valid() && Commits(old(View()), Action.ChangeTier(key, tier, old(accounts[..])), View(), r)
    {
      hide Logged, Step, UserStep, SeatsAfter, Commits, TierChanged;
      ghost var before, a := View(), Action.ChangeTier(key, tier, accounts[..]);
      if key !in users {
        MissingUser(before, a, key);
        return Err(AccountMissing);
      }
      ActionsAre(before.config, before.users[key], a, now);
      r := users[key].ChangeTier(config, tier, accounts, now);
      OneUserChanged(key);
      UserFollowed(before, a, key, users[key].View(), View(), r);
      if r.Ok? {
        Commit(a, None, before, holdings);
      }
    }

    method ChangePaymentTokens(key: Key, tokens: bv8, accounts: array<Subscriptions.AccountInfo>)
      returns (r: Result<()>)
      requires Valid()
      modifies this`history, users.Values, accounts
      ensures Valid() && Commits(old(View()), Action.ChangePaymentTokens(key, tokens, old(accounts[..])), View(), r)
    {
      hide Logged, Step, UserStep, SeatsAfter, Commits, TokensChanged;
      ghost var before, a := View(), Action.ChangePaymentTokens(key, tokens, accounts[..]);
      if key !in users {
        MissingUser(before, a, key);
        return Err(AccountMissing);
      }
      ActionsAre(before.config, before.users[key], a, now);
      r := users[key].ChangePaymentTokens(tokens, accounts, now);
      OneUserChanged(key);
      UserFollowed(before, a, key, users[key].View(), View(), r);
      if r.Ok? {
        Commit(a, None, before, holdings);
      }
    }

    method Exit(key: Key, accounts: array<Subscriptions.AccountInfo>) returns (r: Result<()>)
      requires Valid()
      modifies this`history, users.Values, config`userCount, accounts
      ensures Valid() && Commits(old(View()), Action.Exit(key, old(accounts[..])), View(), r)
    {
      hide Logged, Step, UserStep, SeatsAfter, Commits, ExitedUser;
      ghost var before, a := View(), Action.Exit(key, accounts[..]);
      if key !in users {
        MissingUser(before, a, key);
        return Err(AccountMissing);
      }
      ActionsAre(before.config, before.users[key], a, now);
      r := users[key].Exit(config, accounts, now);
      OneUserChanged(key);
      UserFollowed(before, a, key, users[key].View(), View(), r);
      if r.Ok? {
        Commit(a, None, before, holdings);
      }
    }

    method Reactivate(key: Key, payer: Key, params: EnrollParams, accounts: seq<Subscriptions.AccountInfo>)
      returns (r: Result<()>)
      requires Valid()
      modifies this`history, users.Values, config`userCount
      ensures Valid() && Commits(old(View()), Action.Reactivate(key, payer, params, accounts), View(), r)
    {
      hide Logged, Step, UserStep, SeatsAfter, Commits, ReactivatedUser;
      ghost var before, a := View(), Action.Reactivate(key, payer, params, accounts);
      if key !in users {
        MissingUser(before, a, key);
        return Err(AccountMissing);
      }
      ActionsAre(before.config, before.users[key], a, now);
      r := users[key].Reactivate(config, payer, params, accounts, now);
      OneUserChanged(key);
      UserFollowed(before, a, key, users[key].View(), View(), r);
      if r.Ok? {
        Commit(a, None, before, holdings);
      }
    }

    /** The new account at its address. */
    method Open(key: Key, user: UserConfig)
      requires Addressed() && user.key == key
      modifies this`users
      ensures Addressed() && users == old(users)[key := user] && Users() == old(Users())[key := user.View()]
    {
      users := users[key := user];
    }

    method Enroll(key: Key, payer: Key, params: EnrollParams, accounts: seq<Subscriptions.AccountInfo>)
      returns (r: Result<()>)
      requires Valid() && key != Custody.SWAP_AUTHORITY
      modifies this`history, this`users, config`userCount
      ensures Valid() && Commits(old(View()), Action.Enroll(key, payer, params, accounts), View(), r)
    {
      hide Logged, Admitted, Step;
      ghost var before, a := View(), Action.Enroll(key, payer, params, accounts);
      EnrollsOne(before, a);
      if key in users {
        return Err(AccountInUse);
      }
      var enrolled := config.Enroll(payer, params, key, accounts, now);
      if enrolled.Err? {
        assert Users() == before.users;
        return Err(enrolled.error);
      }
      Open(key, enrolled.value);
      Commit(a, None, before, holdings);
      return Ok(());
    }

    method Attest(attestation: Attestation) returns (r: Result<()>)
      requires Valid()
      modifies this`history, records, users.Values
      ensures Valid() && Commits(old(View()), Action.Attest(attestation), View(), r)
    {
      hide Logged, Attested, Step, RecordsStep;
      var key := attestation.user;
      ghost var before, a := View(), Action.Attest(attestation);
      if key !in users {
        MissingUser(before, a, key);
        return Err(AccountMissing);
      }
      CountsTransfer(before, a);
      r := records.Attest(users[key], attestation, now);
      OneUserChanged(key);
      if r.Ok? {
        Commit(a, None, before, holdings);
      } else {
        assert Users() == before.users;
      }
    }

    method CloseAttestation(key: TransferKey) returns (r: Result<()>)
      requires Valid()
      modifies this`history, records
      ensures Valid() && Commits(old(View()), Action.CloseAttestation(key), View(), r)
    {
      hide Logged;
      ghost var before, a := View(), Action.CloseAttestation(key);
      r := records.CloseAttestation(key, now);
      assert Users() == before.users;
      if r.Ok? {
        Commit(a, None, before, holdings);
      }
    }

    method UpdateConfig(settings: Settings) returns (r: Result<()>)
      requires Valid()
      modifies this`history, config
      ensures Valid() && Commits(old(View()), Action.UpdateConfig(settings), View(), r)
    {
      hide Logged, ValidateConfig;
      ghost var before, a := View(), Action.UpdateConfig(settings);
      r := config.UpdateConfig(settings);
      assert Users() == before.users;
      if r.Ok? {
        Commit(a, None, before, holdings);
      }
    }

    method SetPaused(paused: bool)
      requires Valid()
      modifies this`history, config
      ensures Valid() && Commits(old(View()), Action.SetPaused(paused), View(), Ok(()))
    {
      hide Logged;
      ghost var before, a := View(), Action.SetPaused(paused);
      config.SetPaused(paused);
      assert Users() == before.users;
      Commit(a, None, before, holdings);
    }

    method SetMarketCalendar(holidays: seq<u16>, earlyCloses: seq<u16>, validThrough: u16) returns (r: Result<()>)
      requires Valid()
      modifies this`history, config
      ensures Valid()
      ensures var today := old(now) / DAY_SECONDS;
              var refusal := Refusal(holidays, earlyCloses, validThrough, today);
              if refusal.Some? then r == Err(refusal.value) && View() == old(View())
              else
                && Commits(old(View()), Action.SetMarketCalendar(config.marketCalendar), View(), r)
                && config.marketCalendar.firstDay == today % (U16_MAX + 1)
                && config.marketCalendar.validThrough == validThrough
                && Holds(config.marketCalendar.holidays, today, validThrough, holidays)
                && Holds(config.marketCalendar.earlyCloses, today, validThrough, earlyCloses)
    {
      hide Logged, Refusal, Holds;
      ghost var before := View();
      r := config.SetMarketCalendar(holidays, earlyCloses, validThrough, now);
      assert Users() == before.users;
      if r.Ok? {
        Commit(Action.SetMarketCalendar(config.marketCalendar), None, before, holdings);
      }
    }

    /** The clock moves on, and meanwhile other programs' transactions leave token accounts as they may. */
    method Tick(seconds: nat, next: Custody.Holdings)
      requires Valid() && ClockInRange(now + seconds)
      modifies this`now, this`holdings, this`history
      ensures Valid() && Commits(old(View()), Action.Tick(seconds), View(), Ok(())) && holdings == next
    {
      hide Logged;
      ghost var before, held := View(), holdings;
      now, holdings := now + seconds, next;
      assert Users() == before.users;
      Commit(Action.Tick(seconds), None, before, held);
    }

    /** The sweep of one user, short of the history. */
    method SweepUser(call: Custody.SweepCall, route: Custody.Route) returns (r: Result<Custody.SweepResult>)
      requires Addressed() && Custody.TablesValid(config.View())
      requires call.user in users && call.user != Custody.SWAP_AUTHORITY
      requires call.input.balance == Custody.BalanceIn(holdings, call.userPayment)
      modifies users.Values
      ensures Addressed() && Users() == old(Users())[call.user := users[call.user].View()]
      ensures Custody.SweepOutcome(
                config.View(), old(users[call.user].View()), call, holdings, route, now, users[call.user].View(), r)
    {
      hide Custody.SweepOutcome, Custody.TablesValid, Custody.BalanceIn;
      r := Custody.Sweep(config, users[call.user], call, holdings, route, now);
      OneUserChanged(call.user);
    }

    /** Leaves the token accounts a sweep left, and adds it to the history. */
    method CommitSweep(
      ghost call: Custody.SweepCall, ghost swap: Option<Custody.RoutedSweep>, ghost before: World,
      ghost held: Custody.Holdings, after: Custody.Holdings)
      requires Addressed() && ClockInRange(now) && Logged(history, before, held)
      requires Step(before, Action.Sweep(call.user, call.input)) == Ok(View())
      requires TokensMove(Action.Sweep(call.user, call.input), swap, held, after)
      modifies this`history, this`holdings
      ensures Valid() && View() == old(View()) && holdings == after
    {
      hide Step, Logged, TokensMove;
      holdings := after;
      assert View() == old(View());
      Commit(Action.Sweep(call.user, call.input), swap, before, held);
    }

    /** A sweep, its swap included, of the token accounts as they stand. */
    method Sweep(call: Custody.SweepCall, route: Custody.Route) returns (r: Result<Custody.SweepResult>)
      requires Valid() && call.input.balance == Custody.BalanceIn(holdings, call.userPayment)
      modifies this`history, this`holdings, users.Values
      ensures Valid() && SweepCommits(old(View()), old(holdings), call, route, View(), holdings, r)
    {
      hide Step, Logged, TokensMove, Commits, SweepCommits;
      hide Custody.SweepOutcome, Custody.TablesValid, Custody.BalanceIn;
      ghost var before, held := View(), holdings;
      UserIsNotSwapAuthority(history, before, held, call.user);
      if call.user !in users {
        SweepMissing(before, held, call, route);
        return Err(AccountMissing);
      }
      r := SweepUser(call, route);
      ghost var user, next := users[call.user].View(), View();
      assert next == before.(users := before.users[call.user := user]);
      ghost var swap := SweepFollowed(before, held, call, route, user, r);
      if r.Ok? {
        CommitSweep(call, swap, before, held, r.value.accounts);
      }
    }
  }

  lemma UserIsNotSwapAuthority(h: History, w: World, holdings: Custody.Holdings, key: Key)
    requires Logged(h, w, holdings)
    ensures Custody.TablesValid(w.config) && (key in w.users ==> key != Custody.SWAP_AUTHORITY)
  {
  }

  lemma SweepsOne(w: World, a: Action, user: User)
    requires a.Sweep? && a.user in w.users && a.input.token < 2
    requires SweepGate(w.config, w.users[a.user], a.input, w.now).Ok?
    requires user == Swept(w.users[a.user], a.input.token,
                           SweepGate(w.config, w.users[a.user], a.input, w.now).value, w.now)
    ensures Step(w, a) == Ok(w.(users := w.users[a.user := user]))
  {
    hide SweepGate, Swept;
  }

  /** What holds of the accounts after any transactions: no week of any user has been pulled past its bound, the stored
      counter is what the history adds up to, the seats are counted, and every account is in order. */
  lemma GuaranteesHold(c: Cluster)
    requires c.Valid()
    ensures forall key, week ::
              Runs.Spent(c.history.worlds, c.history.acts, key, week, |c.history.acts|)
              <= if week == 0 then 5_000_000 else 25_000_000
    ensures forall key :: key in c.users ==>
              c.users[key].weekSpent
              == Runs.Spent(c.history.worlds, c.history.acts, key, c.users[key].week, |c.history.acts|)
    ensures c.config.userCount == |Ledger.Seated(c.Users())|
    ensures forall key :: key in c.users ==>
                            Runs.UserOk(c.users[key].View(), c.now) && Runs.SettingsOk(c.users[key].View())
  {
    hide IsRun, Step, Runs.UserOk, Runs.SettingsOk, TokensMove;
    var worlds, acts := c.history.worlds, c.history.acts;
    var n := |acts|;
    assert worlds[n] == c.View();
    forall key, week
      ensures Runs.Spent(worlds, acts, key, week, n) <= if week == 0 then 5_000_000 else 25_000_000
    {
      Runs.WeeklyCapHolds(worlds, acts, key, week);
    }
    forall key | key in c.users
      ensures c.users[key].weekSpent == Runs.Spent(worlds, acts, key, c.users[key].week, n)
      ensures Runs.UserOk(c.users[key].View(), c.now) && Runs.SettingsOk(c.users[key].View())
    {
      assert c.View().users[key] == c.users[key].View();
      Runs.WeekSpentIsSum(worlds, acts, key, c.users[key].week, n);
      Runs.UsersOk(worlds, acts, n, key);
      Runs.SettingsStayValid(worlds, acts, n, key);
    }
    Ledger.UserCountIsSeats(worlds, acts, n);
  }

  /** Custody of the whole deployment is zero-sum: if the transactions of others leave the swap authority's token
      accounts alone, then after any transactions none of those accounts is new and each holds the bytes it had at
      deployment; and if no sweep's route gave one to another program, all of them are as they were. */
  lemma CustodyHolds(c: Cluster)
    requires c.Valid()
    requires forall i :: 0 <= i < |c.history.acts| && c.history.acts[i].Tick? ==>
                           Custody.SwapAccountsKept(c.history.ledgers[i], c.history.ledgers[i + 1])
    ensures Custody.NoneCreated(c.history.ledgers[0], c.holdings)
    ensures (forall i :: 0 <= i < |c.history.acts| ==>
                           Custody.ProgramsKept(c.history.ledgers[i], c.history.ledgers[i + 1])) ==>
              Custody.SwapAccountsKept(c.history.ledgers[0], c.holdings)
  {
    var h := c.history;
    hide IsRun, Custody.MovesTokens;
    forall i | 0 <= i < |h.swaps| ensures Custody.CustodyStep(h.swaps[i], h.ledgers[i], h.ledgers[i + 1]) {
      assert TokensMove(h.acts[i], h.swaps[i], h.ledgers[i], h.ledgers[i + 1]);
    }
    hide Custody.CustodyStep, Custody.ProgramsKept, Custody.SwapAccountsKept, Custody.NoneCreated;
    Custody.CustodyIsZeroSum(h.ledgers, h.swaps);
  }
}
