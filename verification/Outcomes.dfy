/** What the plain terms make of whole runs: every sweep takes the most it may, every credit adds its share, and a user
    who has paused or left is left alone. */
module Outcomes {
  import opened Numbers
  import opened Amount
  import opened Program
  import opened Runs
  import opened Terms
  import opened Subscriptions

  /** A committed step does what its terms say. */
  lemma Committed(ws: seq<World>, acts: seq<Action>, i: nat)
    requires IsRun(ws, acts) && i < |acts|
    ensures Refused(ws[i], acts[i]).None? && Does(ws[i], acts[i], ws[i + 1])
  {
    hide Step, Refused, Does;
    RunInTerms(ws, acts, i, acts[i]);
    assert Step(ws[i], acts[i]) == Ok(ws[i + 1]);
  }

  // Sweeps

  /** Every sweep of a run takes what is due and what waits, what is due first, exactly as far as the week's cap less
      what the run's sweeps pulled in that week before, the balance above the cushion and the subscription allow. */
  lemma SweepTakesTheMost(ws: seq<World>, acts: seq<Action>, key: Key, i: nat)
    requires IsRun(ws, acts) && i < |acts| && acts[i].Sweep? && acts[i].user == key
    ensures key in ws[i].users && IsSweep(ws, acts, i, key)
    ensures var user, input, now, config := ws[i].users[key], acts[i].input, ws[i].now, ws[i].config;
            && input.balance.Some? && user.status.Active?
            && var spent := Spent(ws, acts, key, WeekOf(user, now), i);
               var room := Room(user, input.token, input.balance.value, config.settings.userWeeklyCap, spent,
                                Allowance(input.subscription, now), now);
               Takes(SweepPull(ws, acts, i, key), user, config.calendar, room, now)
  {
    hide Step, SweepGate, Allowance, Takes, WeekAt, PullAt;
    assert Step(ws[i], acts[i]) == Ok(ws[i + 1]);
    StepOnUser(ws[i], acts[i], key);
    SweepPasses(ws[i], acts[i]);
    var user, input, now, config := ws[i].users[key], acts[i].input, ws[i].now, ws[i].config;
    GatePassed(config, user, input, now);
    UsersOk(ws, acts, i, key);
    SpentIs(ws, acts, key, i);
    PullTakes(
      user, input.token, input.balance.value, config.settings.userWeeklyCap, config.calendar, input.subscription, now);
  }

  lemma SweepPasses(w: World, a: Action)
    requires a.Sweep? && Step(w, a).Ok?
    ensures a.user in w.users && SweepGate(w.config, w.users[a.user], a.input, w.now).Ok?
  {
    hide SweepGate;
  }

  /** What the user's counter holds of this week is what the run's sweeps pulled in it. */
  lemma SpentIs(ws: seq<World>, acts: seq<Action>, key: Key, i: nat)
    requires IsRun(ws, acts) && i <= |acts| && key in ws[i].users
    ensures var user, now := ws[i].users[key], ws[i].now;
            SpentOf(user, now) == Spent(ws, acts, key, WeekOf(user, now), i)
  {
    hide IsRun, WeekAt;
    RunLength(ws, acts);
    UsersOk(ws, acts, i, key);
    StatesAreSane(ws, acts, i);
    WeekIs(ws[i].users[key], ws[i].now);
    WeekSpentIsSum(ws, acts, key, WeekOf(ws[i].users[key], ws[i].now), i);
  }

  // Credits

  /** What a transfer adds: of an income under the rule, fifty dollars or more, a tenth rounded down; of a payment what
      completes its dollar, at least fifty cents, times the multiplier. */
  ghost predicate IsShare(share: int, user: User, a: Attestation) {
    match a.kind
    case Income => user.settings.incomeRule && 50_000_000 <= a.amount && 10 * share <= a.amount < 10 * (share + 1)
    case Payment =>
      exists up ::
        && 0 <= up < 1_000_000 && (a.amount + up) % 1_000_000 == 0
        && share == Latest(up, 500_000) * user.settings.changeMultiplier
  }

  /** Every counted transfer adds its share to what waits, which stops at 2^64 - 1, and changes nothing else of the
      user. */
  lemma CreditAddsItsShare(ws: seq<World>, acts: seq<Action>, i: nat) returns (share: int)
    requires IsRun(ws, acts) && i < |acts| && acts[i].Attest?
    ensures var a := acts[i].attestation;
            && a.user in ws[i].users && a.user in ws[i + 1].users
            && var user, after := ws[i].users[a.user], ws[i + 1].users[a.user];
               && 0 < share && IsShare(share, user, a)
               && after.pending == Least(user.pending + share, 0xFFFF_FFFF_FFFF_FFFF)
               && after == user.(pending := after.pending)
  {
    hide IsRun;
    RunLength(ws, acts);
    Committed(ws, acts, i);
    var a := acts[i].attestation;
    share := Share(ws[i].users[a.user], a.kind, a.amount);
    if a.kind.Payment? {
      var up := if a.amount % 1_000_000 == 0 then 0 else 1_000_000 - a.amount % 1_000_000;
      assert (a.amount + up) % 1_000_000 == 0;
      assert share == Latest(up, 500_000) * ws[i].users[a.user].settings.changeMultiplier;
    }
  }

  // Pausing and leaving

  predicate Stops(a: Action, key: Key) {
    (a.SetUserPaused? && a.user == key && a.paused) || (a.Exit? && a.user == key)
  }

  predicate Restarts(a: Action, key: Key) {
    (a.SetUserPaused? && a.user == key && !a.paused) || (a.Reactivate? && a.user == key)
  }

  /** A committed pause, resumption, exit or return leaves the status it says. */
  lemma StatusAfter(ws: seq<World>, acts: seq<Action>, key: Key, i: nat)
    requires IsRun(ws, acts) && i < |acts| && (Stops(acts[i], key) || Restarts(acts[i], key))
    ensures key in ws[i].users && key in ws[i + 1].users
    ensures var before, after := ws[i].users[key].status, ws[i + 1].users[key].status;
            match acts[i]
            case SetUserPaused(_, paused) => if paused then before.Active? && after.Paused?
                                             else before.Paused? && after.Active?
            case Exit(_, _) => !before.Exited? && after.Exited?
            case Reactivate(_, _, _, _) => before.Exited? && after.Active?
  {
    hide IsRun, PairsInOrder, JoinRefused;
    RunLength(ws, acts);
    Committed(ws, acts, i);
  }

  /** Nothing but a resumption or a return makes a user active again. */
  lemma OnlyRestarts(ws: seq<World>, acts: seq<Action>, key: Key, i: nat)
    requires IsRun(ws, acts) && i < |acts| && key in ws[i].users && !ws[i].users[key].status.Active?
    requires !Restarts(acts[i], key)
    ensures key in ws[i + 1].users && !ws[i + 1].users[key].status.Active?
    ensures !(acts[i].Sweep? && acts[i].user == key) && !IsCredit(acts, i, key)
  {
    hide IsRun, PairsInOrder, JoinRefused, TriplesInOrder, SwitchesInOrder, RulesRefused, SweepDoes, CountsMore, Share;
    RunLength(ws, acts);
    Committed(ws, acts, i);
  }

  lemma {:induction false} StaysStopped(ws: seq<World>, acts: seq<Action>, key: Key, i: nat, j: nat)
    requires IsRun(ws, acts) && i < j < |ws| && Stops(acts[i], key)
    requires forall k :: i < k < j ==> !Restarts(acts[k], key)
    ensures key in ws[j].users && !ws[j].users[key].status.Active?
    decreases j - i
  {
    hide IsRun;
    RunLength(ws, acts);
    if j == i + 1 {
      StatusAfter(ws, acts, key, i);
    } else {
      StaysStopped(ws, acts, key, i, j - 1);
      OnlyRestarts(ws, acts, key, j - 1);
    }
  }

  /** From a pause to the next resumption, and from an exit to the next return, nothing is swept from the user and no
      transfer of theirs is counted. */
  lemma StoppedUserIsLeftAlone(ws: seq<World>, acts: seq<Action>, key: Key, i: nat, j: nat)
    requires IsRun(ws, acts) && i < j < |acts| && Stops(acts[i], key)
    requires forall k :: i < k <= j ==> !Restarts(acts[k], key)
    ensures !(acts[j].Sweep? && acts[j].user == key) && !IsCredit(acts, j, key)
  {
    hide IsRun;
    RunLength(ws, acts);
    StaysStopped(ws, acts, key, i, j);
    OnlyRestarts(ws, acts, key, j);
  }
}
