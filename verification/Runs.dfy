/** Guarantees over every run of the program: the weekly cap, the cadence, no backfill, and counting each transfer once.
    */
module Runs {
  import opened Numbers
  import opened Market
  import opened Amount
  import opened Program
  import Subscriptions

  // What every state of a run keeps

  /** No counter of the user is ahead of the clock. */
  predicate UserOk(user: User, now: i64) {
    && 0 < user.enrolledAt <= user.attestableFrom <= now
    && user.week <= WeekAt(user, now)
    && user.engineRanAt <= now
    && user.lastSweepDay.first <= Today(now) && user.lastSweepDay.second <= Today(now)
  }

  /** A committed action on a user, seen from that user: the user it finds, and the user it leaves. */
  lemma StepOnUser(w: World, a: Action, key: Key)
    requires Step(w, a).Ok?
    ensures var after := Step(w, a).value.users;
            if Subject(a) != Some(key) then key in after <==> key in w.users
            else if a.Enroll? then key !in w.users && key in after && after[key] == Enrolled(a.params, w.now)
            else && key in w.users && key in after
                 && UserStep(w.config, w.users[key], a, w.now) == Ok(after[key])
    ensures Subject(a) != Some(key) && key in w.users ==> Step(w, a).value.users[key] == w.users[key]
    ensures w.now <= Step(w, a).value.now || w.now > I64_MAX
  {
  }

  lemma UserStepKeepsOk(config: Config, user: User, a: Action, now: i64)
    requires Subject(a).Some? && !a.Enroll?
    requires UserOk(user, now) && ClockInRange(now)
    requires UserStep(config, user, a, now).Ok?
    ensures UserOk(UserStep(config, user, a, now).value, now)
    ensures UserStep(config, user, a, now).value.enrolledAt == user.enrolledAt
  {
    hide SweepGate, WeekAt, Admitted, Subscriptions.EndAll, Subscriptions.MoveAll, Subscriptions.SwitchAll;
    hide ValidateRules, Invested;
    WeekOnlyEnrollment(user, UserStep(config, user, a, now).value, now);
  }

  lemma OkLater(user: User, now: i64, later: i64)
    requires UserOk(user, now) && now <= later && ClockInRange(later)
    ensures UserOk(user, later)
  {
    hide WeekAt, Today;
    WeeksExact(user, now);
    WeeksExact(user, later);
    LaterOrSame(now - user.enrolledAt, later - user.enrolledAt, WEEK_SECONDS);
    TodayGrows(now, later);
  }

  lemma LaterOrSame(a: int, b: int, span: nat)
    requires a <= b && span > 0
    ensures a / span <= b / span
  {
    DivisionParts(a, span);
    DivisionParts(b, span);
    AtLeastOnce(a / span - b / span, span);
  }

  lemma TodayGrows(now: i64, later: i64)
    requires 0 < now <= later && ClockInRange(later)
    ensures Today(now) <= Today(later)
  {
  }

  lemma {:induction false} UsersOk(ws: seq<World>, acts: seq<Action>, n: nat, key: Key)
    requires IsRun(ws, acts) && n < |ws| && key in ws[n].users
    ensures UserOk(ws[n].users[key], ws[n].now)
  {
    hide Step, UserStep;
    if n > 0 {
      var w, a := ws[n - 1], acts[n - 1];
      assert Step(w, a) == Ok(ws[n]);
      StepOnUser(w, a, key);
      if key in w.users {
        UsersOk(ws, acts, n - 1, key);
        if Subject(a) == Some(key) {
          UserStepKeepsOk(w.config, w.users[key], a, w.now);
        }
        OkLater(if Subject(a) == Some(key) then ws[n].users[key] else w.users[key], w.now, ws[n].now);
      }
    }
  }

  /** The clock never runs back, and a user once enrolled stays, enrolled since the same second. */
  lemma {:induction false} Forward(ws: seq<World>, acts: seq<Action>, i: nat, j: nat)
    requires IsRun(ws, acts) && i <= j < |ws|
    ensures ws[i].now <= ws[j].now
    ensures forall key :: key in ws[i].users ==>
                            key in ws[j].users && ws[j].users[key].enrolledAt == ws[i].users[key].enrolledAt
    decreases j - i
  {
    hide Step, UserStep, UserOk;
    if i < j {
      Forward(ws, acts, i, j - 1);
      var w, a := ws[j - 1], acts[j - 1];
      assert Step(w, a) == Ok(ws[j]);
      forall key | key in ws[i].users
        ensures key in ws[j].users && ws[j].users[key].enrolledAt == ws[i].users[key].enrolledAt
      {
        StepOnUser(w, a, key);
        UsersOk(ws, acts, j - 1, key);
        if Subject(a) == Some(key) {
          UserStepKeepsOk(w.config, w.users[key], a, w.now);
        }
      }
      StepOnUser(w, a, 0);
    }
  }

  // Standing settings

  /** A user who is in has rules the program accepts; one who left has nothing set and nothing waiting. */
  predicate SettingsOk(user: User) {
    if user.status.Exited? then user.settings == CLEARED && user.pending == 0 else ValidateRules(user.settings).Ok?
  }

  lemma UserStepKeepsSettings(config: Config, user: User, a: Action, now: i64)
    requires Subject(a).Some? && !a.Enroll?
    requires SettingsOk(user) && UserStep(config, user, a, now).Ok?
    ensures SettingsOk(UserStep(config, user, a, now).value)
  {
    hide SweepGate, Subscriptions.AllLive, Subscriptions.EndAll, Subscriptions.MoveAll, Subscriptions.SwitchAll;
    if a.Sweep? {
      GatePassed(config, user, a.input, now);
    }
  }

  /** In every state of a run the settings of each user are valid, through every partial change of them. */
  lemma {:induction false} SettingsStayValid(ws: seq<World>, acts: seq<Action>, n: nat, key: Key)
    requires IsRun(ws, acts) && n < |ws| && key in ws[n].users
    ensures SettingsOk(ws[n].users[key])
  {
    hide Step, UserStep, SettingsOk;
    if n > 0 {
      var w, a := ws[n - 1], acts[n - 1];
      assert Step(w, a) == Ok(ws[n]);
      StepOnUser(w, a, key);
      if key in w.users {
        SettingsStayValid(ws, acts, n - 1, key);
        if Subject(a) == Some(key) {
          UserStepKeepsSettings(w.config, w.users[key], a, w.now);
        }
      } else {
        EnrolledSettings(w, a);
      }
    }
  }

  lemma EnrolledSettings(w: World, a: Action)
    requires a.Enroll? && Step(w, a).Ok?
    ensures SettingsOk(Enrolled(a.params, w.now))
  {
  }

  /** A tier is chosen, at enrollment, on return or by changing it, only within the beta's cap of that moment. */
  lemma TierChosenWithinBeta(w: World, a: Action, key: Key)
    requires Step(w, a).Ok? && key in Step(w, a).value.users
    requires var after := Step(w, a).value.users[key];
             !after.status.Exited?
             && (key !in w.users || w.users[key].status.Exited? || w.users[key].settings.tier != after.settings.tier)
    ensures var after := Step(w, a).value.users[key];
            after.settings.tier < 2 && TIERS.At(after.settings.tier) <= w.config.settings.userWeeklyCap
  {
    StepOnUser(w, a, key);
    hide Step, SweepGate, ValidateRules;
  }

  // The weekly cap

  /** Whether step `i` is a sweep of `key`, and then what it pulled. */
  predicate IsSweep(ws: seq<World>, acts: seq<Action>, i: nat, key: Key)
    requires i < |acts| < |ws|
  {
    acts[i].Sweep? && acts[i].user == key && key in ws[i].users
    && SweepGate(ws[i].config, ws[i].users[key], acts[i].input, ws[i].now).Ok?
  }

  function SweepPull(ws: seq<World>, acts: seq<Action>, i: nat, key: Key): Pull
    requires i < |acts| < |ws| && IsSweep(ws, acts, i, key)
  {
    SweepGate(ws[i].config, ws[i].users[key], acts[i].input, ws[i].now).value
  }

  /** What the first `n` steps pulled from `key` in the user's week `week`, across both tokens. */
  function Spent(ws: seq<World>, acts: seq<Action>, key: Key, week: int, n: nat): nat
    requires n <= |acts| < |ws|
  {
    if n == 0 then 0
    else
      Spent(ws, acts, key, week, n - 1)
      + if IsSweep(ws, acts, n - 1, key) && WeekAt(ws[n - 1].users[key], ws[n - 1].now) == week
        then SweepPull(ws, acts, n - 1, key).Total() else 0
  }

  /** The most a week can hold: $5 in the first, $25 in any other. */
  function WeekBound(week: int): int {
    if week == 0 then TRIAL_CAP else TIERS.second
  }

  /** The sum for `week` is the user's counter in the counter's week, nothing in later weeks, and within its bound. */
  predicate SpentOk(ws: seq<World>, acts: seq<Action>, key: Key, week: int, n: nat)
    requires n <= |acts| < |ws|
  {
    && Spent(ws, acts, key, week, n) <= WeekBound(week)
    && (key !in ws[n].users || week > ws[n].users[key].week ==> Spent(ws, acts, key, week, n) == 0)
    && (key in ws[n].users && week == ws[n].users[key].week ==>
          Spent(ws, acts, key, week, n) == ws[n].users[key].weekSpent)
  }

  /** What a passed gate says of the pull. */
  lemma GatePassed(config: Config, user: User, input: SweepInput, now: i64)
    requires SweepGate(config, user, input, now).Ok?
    ensures var pull := SweepGate(config, user, input, now).value;
            && input.token < 2 && input.balance.Some? && user.status.Active?
            && pull == PullAt(
                         user, input.token, input.balance.value, config.settings.userWeeklyCap, config.calendar, now)
                         .Capped(Subscriptions.Remaining(input.subscription, now))
            && pull.Total() > 0
            && user.lastSweepDay.At(input.token) < Today(now)
            && (pull.engine > 0 ==> EngineDue(user, config.calendar, now))
  {
  }

  lemma CapWithinBound(user: User, betaCap: u64, now: i64)
    requires UserOk(user, now) && ClockInRange(now)
    ensures WeeklyCap(user, betaCap, now) <= WeekBound(WeekAt(user, now))
  {
    WeeksExact(user, now);
  }

  /** A sweep's gate passes only what `PullAt` allows, capped by the subscription, and moves the counters by it. */
  lemma SweepCounts(config: Config, user: User, input: SweepInput, now: i64)
    requires UserOk(user, now) && ClockInRange(now)
    requires SweepGate(config, user, input, now).Ok?
    ensures var pull := SweepGate(config, user, input, now).value;
            var after := Recorded(user, pull, now);
            && 0 < pull.Total()
            && after.week == WeekAt(user, now)
            && after.weekSpent == SpentAt(user, now) + pull.Total()
            && after.weekSpent <= WeeklyCap(user, config.settings.userWeeklyCap, now)
            && after.weekSpent <= WeekBound(WeekAt(user, now))
            && after.pending == user.pending - pull.pending
  {
    GatePassed(config, user, input, now);
    RecordedStaysWithinCap(
      user, input.token, input.balance.value, config.settings.userWeeklyCap, config.calendar, now,
      Subscriptions.Remaining(input.subscription, now));
    CapWithinBound(user, config.settings.userWeeklyCap, now);
  }

  /** Only a sweep moves the week's, the engine's and the days' counters. */
  lemma OthersKeepCounters(config: Config, user: User, a: Action, now: i64)
    requires Subject(a).Some? && !a.Enroll? && !a.Sweep?
    requires UserStep(config, user, a, now).Ok?
    ensures var after := UserStep(config, user, a, now).value;
            && after.enrolledAt == user.enrolledAt
            && after.week == user.week && after.weekSpent == user.weekSpent
            && after.engineRanAt == user.engineRanAt && after.lastSweepDay == user.lastSweepDay
  {
  }

  /** One step of a run on a user it finds, with the counters it leaves. */
  lemma CountersStep(ws: seq<World>, acts: seq<Action>, n: nat, key: Key)
    requires IsRun(ws, acts) && n < |acts| && key in ws[n].users
    ensures key in ws[n + 1].users
    ensures var user, after := ws[n].users[key], ws[n + 1].users[key];
            if IsSweep(ws, acts, n, key) then
              after == Swept(user, acts[n].input.token, SweepPull(ws, acts, n, key), ws[n].now)
            else
              && after.week == user.week && after.weekSpent == user.weekSpent
              && after.engineRanAt == user.engineRanAt && after.lastSweepDay == user.lastSweepDay
  {
    hide Step;
    var w, a := ws[n], acts[n];
    assert Step(w, a) == Ok(ws[n + 1]);
    StepOnUser(w, a, key);
    if Subject(a) == Some(key) && !a.Sweep? {
      OthersKeepCounters(w.config, w.users[key], a, w.now);
    }
  }

  /** A sweep adds its pull to the sum of its week, and to the counter, which starts over in a new week. */
  lemma SweepKeepsSpentOk(ws: seq<World>, acts: seq<Action>, key: Key, week: int, n: nat)
    requires IsRun(ws, acts) && n < |acts| && IsSweep(ws, acts, n, key) && key in ws[n + 1].users
    requires UserOk(ws[n].users[key], ws[n].now) && SpentOk(ws, acts, key, week, n)
    requires ws[n + 1].users[key]
             == Swept(ws[n].users[key], acts[n].input.token, SweepPull(ws, acts, n, key), ws[n].now)
    ensures SpentOk(ws, acts, key, week, n + 1)
  {
    hide Step, SweepGate, WeekAt, WeeklyCap;
    SweepCounts(ws[n].config, ws[n].users[key], acts[n].input, ws[n].now);
  }

  lemma OtherKeepsSpentOk(ws: seq<World>, acts: seq<Action>, key: Key, week: int, n: nat)
    requires IsRun(ws, acts) && n < |acts| && !IsSweep(ws, acts, n, key)
    requires SpentOk(ws, acts, key, week, n)
    requires if key in ws[n].users then
               && key in ws[n + 1].users
               && ws[n + 1].users[key].week == ws[n].users[key].week
               && ws[n + 1].users[key].weekSpent == ws[n].users[key].weekSpent
             else
               key in ws[n + 1].users ==> ws[n + 1].users[key].week == 0 && ws[n + 1].users[key].weekSpent == 0
    ensures SpentOk(ws, acts, key, week, n + 1)
  {
    hide Step, SweepGate, WeekAt, WeeklyCap;
  }

  lemma {:induction false} WeekSpentIsSum(ws: seq<World>, acts: seq<Action>, key: Key, week: int, n: nat)
    requires IsRun(ws, acts) && n <= |acts|
    ensures SpentOk(ws, acts, key, week, n)
  {
    hide Step, SweepGate, WeekAt, WeeklyCap, SpentOk, UserOk, IsRun;
    RunLength(ws, acts);
    if n > 0 {
      WeekSpentIsSum(ws, acts, key, week, n - 1);
      if key in ws[n - 1].users {
        UsersOk(ws, acts, n - 1, key);
        CountersStep(ws, acts, n - 1, key);
        if IsSweep(ws, acts, n - 1, key) {
          SweepKeepsSpentOk(ws, acts, key, week, n - 1);
        } else {
          OtherKeepsSpentOk(ws, acts, key, week, n - 1);
        }
      } else {
        StartsUnspent(ws, acts, key, n - 1);
        OtherKeepsSpentOk(ws, acts, key, week, n - 1);
      }
    } else {
      NothingSpent(ws, acts, key, week);
    }
  }

  lemma RunLength(ws: seq<World>, acts: seq<Action>)
    requires IsRun(ws, acts)
    ensures |ws| == |acts| + 1
  {
  }

  lemma NothingSpent(ws: seq<World>, acts: seq<Action>, key: Key, week: int)
    requires IsRun(ws, acts)
    ensures SpentOk(ws, acts, key, week, 0)
  {
  }

  /** A user first seen after a step has just enrolled, and nothing is spent. */
  lemma StartsUnspent(ws: seq<World>, acts: seq<Action>, key: Key, n: nat)
    requires IsRun(ws, acts) && n < |acts| && key !in ws[n].users
    ensures key in ws[n + 1].users ==> ws[n + 1].users[key].week == 0 && ws[n + 1].users[key].weekSpent == 0
  {
    assert Step(ws[n], acts[n]) == Ok(ws[n + 1]);
    StepOnUser(ws[n], acts[n], key);
  }

  /** The weekly cap: in every run no user is pulled more than $5 in their first week, nor more than $25 in any week,
      whatever tier, cap, token and calendar changes, exits and returns happen in between. */
  lemma WeeklyCapHolds(ws: seq<World>, acts: seq<Action>, key: Key, week: int)
    requires IsRun(ws, acts)
    ensures Spent(ws, acts, key, week, |acts|) <= if week == 0 then 5_000_000 else 25_000_000
  {
    WeekSpentIsSum(ws, acts, key, week, |acts|);
  }

  /** Right after each sweep, everything pulled in that week is within the cap in force at that sweep. */
  lemma SweepEndsWithinCap(ws: seq<World>, acts: seq<Action>, key: Key, i: nat)
    requires IsRun(ws, acts) && i < |acts| && IsSweep(ws, acts, i, key)
    ensures var user := ws[i].users[key];
            var tierCap := if user.settings.tier == 0 then 10_000_000
                           else if user.settings.tier == 1 then 25_000_000 else 0;
            Spent(ws, acts, key, WeekAt(user, ws[i].now), i + 1)
            <= Min(if ws[i].now < user.enrolledAt + 604_800 then 5_000_000 else tierCap,
                   ws[i].config.settings.userWeeklyCap)
  {
    hide WeekAt;
    WeekSpentIsSum(ws, acts, key, WeekAt(ws[i].users[key], ws[i].now), i + 1);
    UsersOk(ws, acts, i, key);
    CountersStep(ws, acts, i, key);
    SweepCounts(ws[i].config, ws[i].users[key], acts[i].input, ws[i].now);
  }

  // The cadence

  lemma {:induction false} LastSweepDayCovers(ws: seq<World>, acts: seq<Action>, key: Key, i: nat, n: nat)
    requires IsRun(ws, acts) && i < n < |ws| && IsSweep(ws, acts, i, key)
    ensures key in ws[n].users
    ensures ws[n].users[key].lastSweepDay.At(acts[i].input.token) >= ws[i].now / DAY_SECONDS
    decreases n
  {
    hide Step, SweepGate;
    if i < n - 1 {
      LastSweepDayCovers(ws, acts, key, i, n - 1);
      Forward(ws, acts, i, n - 1);
    }
    CountersStep(ws, acts, n - 1, key);
  }

  /** No two sweeps of a user's token share a UTC day, over exits and returns too. */
  lemma OneSweepPerTokenAndDay(ws: seq<World>, acts: seq<Action>, key: Key, i: nat, j: nat)
    requires IsRun(ws, acts) && i < j < |acts|
    requires IsSweep(ws, acts, i, key) && IsSweep(ws, acts, j, key)
    requires acts[i].input.token == acts[j].input.token
    ensures ws[i].now / DAY_SECONDS < ws[j].now / DAY_SECONDS
  {
    LastSweepDayCovers(ws, acts, key, i, j);
    SweptOnLaterDay(ws[j].config, ws[j].users[key], acts[j].input, ws[j].now, ws[i].now);
  }

  lemma SweptOnLaterDay(config: Config, user: User, input: SweepInput, now: i64, earlier: i64)
    requires ClockInRange(now)
    requires SweepGate(config, user, input, now).Ok?
    requires input.token < 2 && user.lastSweepDay.At(input.token) >= earlier / DAY_SECONDS
    ensures earlier / DAY_SECONDS < now / DAY_SECONDS
  {
    hide SweepGate, PullAt, EngineDue, Subscriptions.Remaining;
    GatePassed(config, user, input, now);
    assert Today(now) == now / DAY_SECONDS;
  }

  predicate EngineBuys(ws: seq<World>, acts: seq<Action>, i: nat, key: Key)
    requires i < |acts| < |ws|
  {
    IsSweep(ws, acts, i, key) && SweepPull(ws, acts, i, key).engine > 0
  }

  lemma {:induction false} EngineRanAtCovers(ws: seq<World>, acts: seq<Action>, key: Key, i: nat, n: nat)
    requires IsRun(ws, acts) && i < n < |ws| && EngineBuys(ws, acts, i, key)
    ensures key in ws[n].users
    ensures ws[i].now <= ws[n].users[key].engineRanAt
    ensures ws[n].users[key].enrolledAt == ws[i].users[key].enrolledAt <= ws[i].now
    decreases n
  {
    hide Step, SweepGate;
    if i < n - 1 {
      EngineRanAtCovers(ws, acts, key, i, n - 1);
      EngineRanAtGrows(ws, acts, key, n - 1);
      Forward(ws, acts, n - 1, n);
    } else {
      CountersStep(ws, acts, i, key);
      UsersOk(ws, acts, i, key);
      Forward(ws, acts, i, n);
    }
  }

  lemma EngineRanAtGrows(ws: seq<World>, acts: seq<Action>, key: Key, n: nat)
    requires IsRun(ws, acts) && n < |acts| && key in ws[n].users
    ensures key in ws[n + 1].users
    ensures ws[n].users[key].engineRanAt <= ws[n + 1].users[key].engineRanAt
  {
    CountersStep(ws, acts, n, key);
    UsersOk(ws, acts, n, key);
  }

  /** A purchase at `now` is later in the engine's calendar than `earlier`. */
  predicate LaterPurchase(user: User, calendar: MarketCalendar, earlier: i64, now: i64) {
    match user.settings.engine
    case Daily => earlier / DAY_SECONDS < now / DAY_SECONDS
    case Weekly => WeekAt(user, earlier) < WeekAt(user, now) && UsMarketOpen(now, calendar)
  }

  lemma DueIsLater(user: User, calendar: MarketCalendar, earlier: i64, now: i64)
    requires UserOk(user, now) && ClockInRange(now)
    requires user.enrolledAt <= earlier <= user.engineRanAt
    requires EngineDue(user, calendar, now)
    ensures LaterPurchase(user, calendar, earlier, now)
  {
    hide WeekAt, UsMarketOpen;
    if user.settings.engine.Weekly? {
      WeeksExact(user, earlier);
      WeeksExact(user, user.engineRanAt);
    }
  }

  /** Every engine purchase falls on a later UTC day than every earlier one under the daily engine; under the weekly
      engine in a later week of the user, inside a session. */
  lemma EngineCadence(ws: seq<World>, acts: seq<Action>, key: Key, i: nat, j: nat)
    requires IsRun(ws, acts) && i < j < |acts|
    requires EngineBuys(ws, acts, i, key) && EngineBuys(ws, acts, j, key)
    ensures LaterPurchase(ws[j].users[key], ws[j].config.calendar, ws[i].now, ws[j].now)
  {
    EngineRanAtCovers(ws, acts, key, i, j);
    UsersOk(ws, acts, j, key);
    GatePassed(ws[j].config, ws[j].users[key], acts[j].input, ws[j].now);
    DueIsLater(ws[j].users[key], ws[j].config.calendar, ws[i].now, ws[j].now);
  }

  // No backfill

  /** Whether step `i` credits an attested transfer of `key`. */
  predicate IsCredit(acts: seq<Action>, i: nat, key: Key)
    requires i < |acts|
  {
    acts[i].Attest? && acts[i].attestation.user == key
  }

  /** The user counts a transfer of this kind and token at least as much as `other` does. */
  predicate CountsAtLeast(user: User, other: User, kind: EventKind, token: nat)
    requires token < 2
  {
    && (other.status.Active? ==> user.status.Active?)
    && (Enabled(other.settings.paymentTokens, token) ==> Enabled(user.settings.paymentTokens, token))
    && (kind.Income? && other.settings.incomeRule ==> user.settings.incomeRule)
    && (kind.Payment? ==> user.settings.changeMultiplier >= other.settings.changeMultiplier)
  }

  lemma NewTokensRaise(tokens: bv8, enabled: bv8, token: nat)
    requires token < 2
    requires tokens & !enabled == 0 && Enabled(tokens, token)
    ensures Enabled(enabled, token)
  {
    if token == 0 {
      assert tokens & 1 != 0 && tokens & !enabled == 0 ==> enabled & 1 != 0;
    } else {
      assert tokens & 2 != 0 && tokens & !enabled == 0 ==> enabled & 2 != 0;
    }
  }

  /** An action that makes a transfer count more raises `attestableFrom` to the clock; no action lowers it. */
  lemma CountingMoreRaises(config: Config, user: User, a: Action, now: i64, kind: EventKind, token: nat)
    requires Subject(a).Some? && !a.Enroll? && token < 2
    requires UserOk(user, now) && UserStep(config, user, a, now).Ok?
    ensures var after := UserStep(config, user, a, now).value;
            && after.attestableFrom >= user.attestableFrom
            && (CountsAtLeast(user, after, kind, token) || after.attestableFrom >= now)
  {
    if a.ChangePaymentTokens? {
      var enabled := user.settings.paymentTokens;
      if a.tokens & !enabled == 0 && Enabled(a.tokens, token) {
        NewTokensRaise(a.tokens, enabled, token);
      }
    } else if a.Exit? {
      NothingEnabled(token);
    }
  }

  lemma NothingEnabled(token: nat)
    requires token < 2
    ensures !Enabled(CLEARED.paymentTokens, token)
  {
  }

  lemma {:induction false} RaisedSince(
    ws: seq<World>, acts: seq<Action>, key: Key, i: nat, j: nat, kind: EventKind, token: nat)
    requires IsRun(ws, acts) && i <= j < |ws| && key in ws[i].users && token < 2
    ensures key in ws[j].users
    ensures CountsAtLeast(ws[i].users[key], ws[j].users[key], kind, token)
            || ws[j].users[key].attestableFrom >= ws[i].now
    decreases j - i
  {
    hide Step, UserStep;
    if i < j {
      RaisedSince(ws, acts, key, i, j - 1, kind, token);
      var w, a := ws[j - 1], acts[j - 1];
      assert Step(w, a) == Ok(ws[j]);
      StepOnUser(w, a, key);
      Forward(ws, acts, i, j - 1);
      if Subject(a) == Some(key) {
        UsersOk(ws, acts, j - 1, key);
        CountingMoreRaises(w.config, w.users[key], a, w.now, kind, token);
      }
    }
  }

  /** No backfill: when a transfer is credited, then in every earlier state whose clock is after the transfer's time
      the user existed only as one who was active, had its token enabled and, for income, the rule on, or for a
      payment, a multiplier at least as large as the one that counts it now. */
  lemma NoBackfill(ws: seq<World>, acts: seq<Action>, key: Key, i: nat, j: nat)
    requires IsRun(ws, acts) && i <= j < |acts| && IsCredit(acts, j, key)
    requires ws[i].now > acts[j].attestation.eventTime
    ensures acts[j].attestation.paymentToken < 2 && key in ws[j].users && key in ws[i].users
    ensures var then_, now, a := ws[i].users[key], ws[j].users[key], acts[j].attestation;
            && then_.status.Active?
            && Enabled(then_.settings.paymentTokens, a.paymentToken)
            && (a.kind.Income? ==> then_.settings.incomeRule)
            && (a.kind.Payment? ==> then_.settings.changeMultiplier >= now.settings.changeMultiplier)
  {
    var a := acts[j].attestation;
    assert Step(ws[j], acts[j]) == Ok(ws[j + 1]);
    StepOnUser(ws[j], acts[j], key);
    UsersOk(ws, acts, j, key);
    EnrolledBefore(ws, acts, key, i, j);
    RaisedSince(ws, acts, key, i, j, a.kind, a.paymentToken);
  }

  /** A user exists in every state whose clock is after the enrollment. */
  lemma {:induction false} EnrolledBefore(ws: seq<World>, acts: seq<Action>, key: Key, i: nat, j: nat)
    requires IsRun(ws, acts) && i <= j < |ws| && key in ws[j].users
    requires ws[i].now > ws[j].users[key].enrolledAt
    ensures key in ws[i].users
    decreases j
  {
    hide Step, UserStep, UserOk;
    if i < j {
      var w, a := ws[j - 1], acts[j - 1];
      assert Step(w, a) == Ok(ws[j]);
      StepOnUser(w, a, key);
      Forward(ws, acts, i, j - 1);
      if key in w.users {
        Forward(ws, acts, j - 1, j);
        EnrolledBefore(ws, acts, key, i, j - 1);
      }
    }
  }

  // Each transfer counts once

  /** A counted transfer's record, its own or that of a later transfer with its key, stands until its attestation window
      is over. */
  lemma {:induction false} RecordStands(ws: seq<World>, acts: seq<Action>, i: nat, n: nat)
    requires IsRun(ws, acts) && i < n < |ws| && acts[i].Attest?
    ensures var key, expiresAt :=
              KeyOf(acts[i].attestation), acts[i].attestation.eventTime + ATTESTATION_TTL_SECONDS;
            if key in ws[n].records then ws[n].records[key] >= expiresAt else ws[n].now > expiresAt
    decreases n
  {
    var w, a := ws[n - 1], acts[n - 1];
    assert Step(w, a) == Ok(ws[n]);
    if i < n - 1 {
      RecordStands(ws, acts, i, n - 1);
      Forward(ws, acts, n - 1, n);
    }
    RecordLeft(w, a);
  }

  /** What a step leaves of the records. */
  lemma RecordLeft(w: World, a: Action)
    requires Step(w, a).Ok?
    ensures var after := Step(w, a).value.records;
            if a.Attest? then
              var expiresAt := a.attestation.eventTime + ATTESTATION_TTL_SECONDS;
              && KeyOf(a.attestation) !in w.records && w.now <= expiresAt
              && after == w.records[KeyOf(a.attestation) := expiresAt]
            else if a.CloseAttestation? then
              a.key in w.records && w.now > w.records[a.key] && after == w.records - {a.key}
            else after == w.records
  {
    if a.Attest? {
      StepOnUser(w, a, a.attestation.user);
    }
  }

  /** Of two transfers counted under one key, records closed in between or not, the second was made later: so one that
      is always attested with the same time counts at most once in a run. */
  lemma SameKeyCountsLater(ws: seq<World>, acts: seq<Action>, i: nat, j: nat)
    requires IsRun(ws, acts) && i < j < |acts|
    requires acts[i].Attest? && acts[j].Attest?
    requires KeyOf(acts[i].attestation) == KeyOf(acts[j].attestation)
    ensures acts[i].attestation.eventTime < acts[j].attestation.eventTime
  {
    RecordStands(ws, acts, i, j);
    assert Step(ws[j], acts[j]) == Ok(ws[j + 1]);
    RecordLeft(ws[j], acts[j]);
  }

  /** Every attestation of a transfer gives it the same time. */
  ghost predicate TimesFixed(acts: seq<Action>) {
    forall i, j | 0 <= i < |acts| && 0 <= j < |acts| && acts[i].Attest? && acts[j].Attest? ::
      KeyOf(acts[i].attestation) == KeyOf(acts[j].attestation) ==>
        acts[i].attestation.eventTime == acts[j].attestation.eventTime
  }

  /** How often the transfer `key` was counted. */
  function Counts(acts: seq<Action>, key: TransferKey, n: nat): nat
    requires n <= |acts|
  {
    if n == 0 then 0
    else Counts(acts, key, n - 1) + if acts[n - 1].Attest? && KeyOf(acts[n - 1].attestation) == key then 1 else 0
  }

  lemma {:induction false} CountedBefore(acts: seq<Action>, key: TransferKey, n: nat) returns (i: nat)
    requires n <= |acts| && Counts(acts, key, n) > 0
    ensures i < n && acts[i].Attest? && KeyOf(acts[i].attestation) == key
  {
    i := n - 1;
    if !(acts[i].Attest? && KeyOf(acts[i].attestation) == key) {
      i := CountedBefore(acts, key, n - 1);
    }
  }

  /** With times fixed, no transfer is counted twice in a run. */
  lemma {:induction false} TransferCountsOnce(ws: seq<World>, acts: seq<Action>, key: TransferKey, n: nat)
    requires IsRun(ws, acts) && TimesFixed(acts) && n <= |acts|
    ensures Counts(acts, key, n) <= 1
  {
    hide IsRun;
    if n > 0 {
      TransferCountsOnce(ws, acts, key, n - 1);
      if acts[n - 1].Attest? && KeyOf(acts[n - 1].attestation) == key && Counts(acts, key, n - 1) > 0 {
        var i := CountedBefore(acts, key, n - 1);
        SameKeyCountsLater(ws, acts, i, n - 1);
      }
    }
  }
}
