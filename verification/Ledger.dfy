/** Conservation over every run: what waits to be invested, and the seats of the beta. */
module Ledger {
  import opened Numbers
  import opened Amount
  import opened Program
  import opened Runs

  // What waits to be invested

  /** Ways `pending` changes: credits at what they invest, the part saturation loses, sweeps, the user lowering it, and
      exits discarding it. */
  datatype Flow = Credited | Forfeited | Pulled | Lowered | Discarded

  /** How much of a flow an action on user `key` is. */
  function FlowOf(flow: Flow, config: Config, user: User, a: Action, now: i64): int {
    match flow
    case Credited => if a.Attest? then Invested(user, a.attestation) else 0
    case Forfeited =>
      if a.Attest? then
        var invested := Invested(user, a.attestation);
        invested - (SaturatingAdd(user.pending, invested) - user.pending)
      else 0
    case Pulled =>
      if a.Sweep? && SweepGate(config, user, a.input, now).Ok? then SweepGate(config, user, a.input, now).value.pending
      else 0
    case Lowered => if a.LowerPending? then user.pending - a.pending else 0
    case Discarded => if a.Exit? then user.pending else 0
  }

  /** A flow of user `key` over the first `n` steps. */
  function Total(flow: Flow, ws: seq<World>, acts: seq<Action>, key: Key, n: nat): int
    requires n <= |acts| < |ws|
  {
    if n == 0 then 0
    else
      Total(flow, ws, acts, key, n - 1)
      + if Subject(acts[n - 1]) == Some(key) && key in ws[n - 1].users
        then FlowOf(flow, ws[n - 1].config, ws[n - 1].users[key], acts[n - 1], ws[n - 1].now) else 0
  }

  /** What waits for a user, who before enrolling has nothing waiting. */
  function Waiting(w: World, key: Key): nat {
    if key in w.users then w.users[key].pending else 0
  }

  lemma StepConserves(config: Config, user: User, a: Action, now: i64)
    requires Subject(a).Some? && !a.Enroll?
    requires UserOk(user, now) && ClockInRange(now)
    requires UserStep(config, user, a, now).Ok?
    ensures UserStep(config, user, a, now).value.pending
            == user.pending
               + FlowOf(Credited, config, user, a, now) - FlowOf(Forfeited, config, user, a, now)
               - FlowOf(Pulled, config, user, a, now)
               - FlowOf(Lowered, config, user, a, now) - FlowOf(Discarded, config, user, a, now)
    ensures FlowOf(Credited, config, user, a, now) >= FlowOf(Forfeited, config, user, a, now) >= 0
    ensures FlowOf(Forfeited, config, user, a, now) > 0 ==>
              user.pending + FlowOf(Credited, config, user, a, now) > U64_MAX
    ensures forall flow: Flow :: FlowOf(flow, config, user, a, now) >= 0
  {
    if a.Sweep? {
      SweepCounts(config, user, a.input, now);
    }
  }

  ghost predicate Conserved(ws: seq<World>, acts: seq<Action>, key: Key, n: nat)
    requires n <= |acts| < |ws|
  {
    && Waiting(ws[n], key)
       == Total(Credited, ws, acts, key, n) - Total(Forfeited, ws, acts, key, n)
          - Total(Pulled, ws, acts, key, n) - Total(Lowered, ws, acts, key, n) - Total(Discarded, ws, acts, key, n)
    && forall flow: Flow :: Total(flow, ws, acts, key, n) >= 0
  }

  /** In every state of a run, what waits is exactly what was credited, less what saturation lost, what sweeps pulled,
      what the user lowered and what exits discarded. */
  lemma {:induction false} PendingIsConserved(ws: seq<World>, acts: seq<Action>, key: Key, n: nat)
    requires IsRun(ws, acts) && n <= |acts|
    ensures Conserved(ws, acts, key, n)
  {
    hide Step, UserStep, FlowOf;
    if n > 0 {
      PendingIsConserved(ws, acts, key, n - 1);
      var w, a := ws[n - 1], acts[n - 1];
      assert Step(w, a) == Ok(ws[n]);
      StepOnUser(w, a, key);
      if Subject(a) == Some(key) && key in w.users {
        UsersOk(ws, acts, n - 1, key);
        StepConserves(w.config, w.users[key], a, w.now);
      }
      forall flow: Flow
        ensures Total(flow, ws, acts, key, n) >= 0
      {
        assert Total(flow, ws, acts, key, n - 1) >= 0;
      }
    }
  }

  lemma {:induction false} NothingForfeited(ws: seq<World>, acts: seq<Action>, key: Key, n: nat)
    requires IsRun(ws, acts) && n <= |acts|
    ensures Total(Forfeited, ws, acts, key, n) > 0 ==> Total(Credited, ws, acts, key, n) > U64_MAX
  {
    hide Step, UserStep, FlowOf;
    if n > 0 {
      NothingForfeited(ws, acts, key, n - 1);
      PendingIsConserved(ws, acts, key, n - 1);
      var w, a := ws[n - 1], acts[n - 1];
      assert Step(w, a) == Ok(ws[n]);
      StepOnUser(w, a, key);
      if Subject(a) == Some(key) && key in w.users {
        UsersOk(ws, acts, n - 1, key);
        StepConserves(w.config, w.users[key], a, w.now);
        assert Total(Pulled, ws, acts, key, n - 1) >= 0 && Total(Lowered, ws, acts, key, n - 1) >= 0;
        assert Total(Discarded, ws, acts, key, n - 1) >= 0 && Total(Forfeited, ws, acts, key, n - 1) >= 0;
      }
    }
  }

  /** Sweeps never pull more from what waits than was credited, and short of 2^64 raw units credited (18 trillion
      dollars) nothing is lost to saturation. */
  lemma PulledWithinCredited(ws: seq<World>, acts: seq<Action>, key: Key)
    requires IsRun(ws, acts)
    ensures Total(Pulled, ws, acts, key, |acts|) <= Total(Credited, ws, acts, key, |acts|)
    ensures Total(Credited, ws, acts, key, |acts|) <= U64_MAX ==>
              Waiting(ws[|acts|], key)
              == Total(Credited, ws, acts, key, |acts|) - Total(Pulled, ws, acts, key, |acts|)
                 - Total(Lowered, ws, acts, key, |acts|) - Total(Discarded, ws, acts, key, |acts|)
  {
    PendingIsConserved(ws, acts, key, |acts|);
    NothingForfeited(ws, acts, key, |acts|);
    assert Total(Forfeited, ws, acts, key, |acts|) >= 0;
    assert Total(Lowered, ws, acts, key, |acts|) >= 0 && Total(Discarded, ws, acts, key, |acts|) >= 0;
  }

  // Seats

  /** The users who have not exited. */
  function Seated(users: map<Key, User>): set<Key> {
    set key | key in users && !users[key].status.Exited?
  }

  lemma StepMovesSeats(w: World, a: Action)
    requires Step(w, a).Ok?
    ensures var before, after := Seated(w.users), Seated(Step(w, a).value.users);
            if a.Enroll? || a.Reactivate? then a.user !in before && after == before + {a.user}
            else if a.Exit? then a.user in before && after == before - {a.user}
            else after == before
  {
    forall key
      ensures key in Seated(Step(w, a).value.users)
              <==> if (a.Enroll? || a.Reactivate? || a.Exit?) && a.user == key then !a.Exit?
                   else key in Seated(w.users)
    {
      StepOnUser(w, a, key);
    }
    var after := Seated(Step(w, a).value.users);
    if a.Enroll? || a.Reactivate? {
      assert after == Seated(w.users) + {a.user};
    } else if a.Exit? {
      assert after == Seated(w.users) - {a.user};
    } else {
      assert after == Seated(w.users);
    }
  }

  /** `user_count` is always the number of users who have not exited. */
  lemma {:induction false} UserCountIsSeats(ws: seq<World>, acts: seq<Action>, n: nat)
    requires IsRun(ws, acts) && n <= |acts|
    ensures ws[n].config.userCount == |Seated(ws[n].users)|
  {
    hide Step;
    if n > 0 {
      UserCountIsSeats(ws, acts, n - 1);
      assert Step(ws[n - 1], acts[n - 1]) == Ok(ws[n]);
      StepMovesSeats(ws[n - 1], acts[n - 1]);
      CountStep(ws[n - 1], acts[n - 1]);
    } else {
      assert Seated(ws[0].users) == {};
    }
  }

  lemma CountStep(w: World, a: Action)
    requires Step(w, a).Ok?
    ensures Step(w, a).value.config.userCount
            == if a.Enroll? || a.Reactivate? then w.config.userCount + 1
               else if a.Exit? then SaturatingSub(w.config.userCount, 1)
               else w.config.userCount
    ensures a.Enroll? || a.Reactivate? ==> w.config.userCount < w.config.settings.maxUsers
  {
  }

  /** An exit always finds its own seat counted, so its saturating subtraction subtracts one. */
  lemma ExitFreesItsSeat(ws: seq<World>, acts: seq<Action>, i: nat)
    requires IsRun(ws, acts) && i < |acts| && acts[i].Exit?
    ensures ws[i].config.userCount >= 1
    ensures ws[i + 1].config.userCount == ws[i].config.userCount - 1
  {
    UserCountIsSeats(ws, acts, i);
    assert Step(ws[i], acts[i]) == Ok(ws[i + 1]);
    StepMovesSeats(ws[i], acts[i]);
    CountStep(ws[i], acts[i]);
    assert acts[i].user in Seated(ws[i].users);
  }
}
