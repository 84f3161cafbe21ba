/** Subscriptions of users to plans of the vault: liveness, the rest a period allows, cancelling, and the walks that the
    instructions make over the accounts passed to them. */
module Subscriptions {
  import opened Numbers
  import opened Amount

  /** A Subscriptions account: when it ends (0 never), what its period allows, when it started, what was pulled. */
  datatype Subscription = Subscription(
    expiresAt: i64, amount: u64, periodHours: u64, periodStart: i64, pulledInPeriod: u64, initId: u64)

  /** Derived addresses: a plan of a payment token and tier, a user's subscription to it, or anything else. */
  datatype Address =
    | PlanAddress(token: nat, tier: nat)
    | SubscriptionAddress(token: nat, tier: nat, user: Key)
    | OtherAddress(key: Key)

  /** An account passed to an instruction: its address, and the subscription it holds if Subscriptions owns it. */
  datatype AccountInfo = AccountInfo(address: Address, held: Option<Subscription>)

  predicate IsLive(account: AccountInfo, token: nat, tier: nat, user: Key) {
    account.held.Some? && account.held.value.expiresAt == 0 && account.address == SubscriptionAddress(token, tier, user)
  }

  predicate HasEnded(account: AccountInfo, now: i64) {
    account.held.Some? ==> account.held.value.expiresAt != 0 && account.held.value.expiresAt <= now
  }

  /** The program's `remaining`. */
  function Remaining(held: Option<Subscription>, now: i64): u64 {
    if held.None? then 0
    else
      var s := held.value;
      var expired := s.expiresAt != 0 && now >= s.expiresAt;
      var period := Min(s.periodHours * 3600, U64_MAX);
      var elapsed := SaturateI64(now - s.periodStart);
      if expired then 0
      else if 0 <= elapsed && elapsed >= period then s.amount
      else SaturatingSub(s.amount, s.pulledInPeriod)
  }

  /** The client's `nativeRemaining`. */
  function ClientRemaining(held: Option<Subscription>, now: int): u64 {
    if held.None? then 0
    else
      var s := held.value;
      if s.expiresAt != 0 && now >= s.expiresAt then 0
      else
        var period := Min(s.periodHours * 3600, U64_MAX);
        var elapsed := now - s.periodStart;
        if elapsed >= 0 && elapsed >= period then s.amount
        else SaturatingSub(s.amount, s.pulledInPeriod)
  }

  /** The client's bound is the program's exactly unless a running period of more than 2^63 seconds is over, which the
      program's saturating clock never sees, after something was pulled in it. */
  lemma RemainingAgrees(held: Option<Subscription>, now: i64)
    ensures ClientRemaining(held, now) == Remaining(held, now)
            <==> held.None?
                 || var s := held.value;
                    var period := Min(s.periodHours * 3600, U64_MAX);
                    || !(I64_MAX < period <= now - s.periodStart)
                    || (s.expiresAt != 0 && now >= s.expiresAt)
                    || s.amount == 0 || s.pulledInPeriod == 0
  {
  }

  /** Sets the expiry to the clock, unless there is nothing to end; both accounts passed must be the right ones. */
  function Cancelled(plan: AccountInfo, account: AccountInfo, token: nat, tier: nat, user: Key, now: i64)
    : Result<AccountInfo>
  {
    if plan.address != PlanAddress(token, tier) then Err(SubscriptionMismatch)
    else if account.address != SubscriptionAddress(token, tier, user) then Err(SubscriptionMismatch)
    else if HasEnded(account, now) then Ok(account)
    else Ok(account.(held := Some(account.held.value.(expiresAt := now))))
  }

  // The walks, from payment token `token` on, with the accounts from `next` on still to be taken

  /** The accounts are, token after enabled token, live subscriptions of the user at this tier. */
  predicate AllLive(accounts: seq<AccountInfo>, tokens: bv8, tier: nat, user: Key, token: nat, next: nat)
    requires token <= 2
    decreases 2 - token
  {
    token == 2
    || (if Enabled(tokens, token)
        then next < |accounts| && IsLive(accounts[next], token, tier, user)
             && AllLive(accounts, tokens, tier, user, token + 1, next + 1)
        else AllLive(accounts, tokens, tier, user, token + 1, next))
  }

  /** What the accounts hold after ending the enabled tokens' subscriptions: pairs of plan and subscription. */
  function EndAll(accounts: seq<AccountInfo>, tokens: bv8, tier: nat, user: Key, now: i64, token: nat, next: nat)
    : Result<seq<AccountInfo>>
    requires token <= 2
    decreases 2 - token
  {
    if token == 2 then Ok(accounts)
    else if !Enabled(tokens, token) then EndAll(accounts, tokens, tier, user, now, token + 1, next)
    else if next + 2 > |accounts| then Err(SubscriptionMismatch)
    else
      var ended :- Cancelled(accounts[next], accounts[next + 1], token, tier, user, now);
      EndAll(accounts[next + 1 := ended], tokens, tier, user, now, token + 1, next + 2)
  }

  /** Changing tier: triples of the current plan, the subscription to end and the live one to the new plan. */
  function MoveAll(
    accounts: seq<AccountInfo>, tokens: bv8, tier: nat, newTier: nat, user: Key, now: i64, token: nat, next: nat)
    : Result<seq<AccountInfo>>
    requires token <= 2
    decreases 2 - token
  {
    if token == 2 then Ok(accounts)
    else if !Enabled(tokens, token) then MoveAll(accounts, tokens, tier, newTier, user, now, token + 1, next)
    else if next + 3 > |accounts| then Err(SubscriptionMismatch)
    else
      var ended :- Cancelled(accounts[next], accounts[next + 1], token, tier, user, now);
      if !IsLive(accounts[next + 2], token, newTier, user) then Err(SubscriptionMismatch)
      else MoveAll(accounts[next + 1 := ended], tokens, tier, newTier, user, now, token + 1, next + 3)
  }

  /** Changing tokens: plan and subscription of a dropped token, or the live subscription of an added one. */
  function SwitchAll(
    accounts: seq<AccountInfo>, tokens: bv8, newTokens: bv8, tier: nat, user: Key, now: i64, token: nat, next: nat)
    : Result<seq<AccountInfo>>
    requires token <= 2
    decreases 2 - token
  {
    if token == 2 then Ok(accounts)
    else if Enabled(tokens, token) && !Enabled(newTokens, token) then
      if next + 2 > |accounts| then Err(SubscriptionMismatch)
      else
        var ended :- Cancelled(accounts[next], accounts[next + 1], token, tier, user, now);
        SwitchAll(accounts[next + 1 := ended], tokens, newTokens, tier, user, now, token + 1, next + 2)
    else if !Enabled(tokens, token) && Enabled(newTokens, token) then
      if next >= |accounts| || !IsLive(accounts[next], token, tier, user) then Err(SubscriptionMismatch)
      else SwitchAll(accounts, tokens, newTokens, tier, user, now, token + 1, next + 1)
    else SwitchAll(accounts, tokens, newTokens, tier, user, now, token + 1, next)
  }

  /** Token `token`'s subscription to the tier's plan is among the accounts, and has ended. */
  ghost predicate Ended(accounts: seq<AccountInfo>, token: nat, tier: nat, user: Key, now: i64) {
    exists i :: 0 <= i < |accounts| && accounts[i].address == SubscriptionAddress(token, tier, user)
                && (accounts[i].held.Some? ==> 0 != accounts[i].held.value.expiresAt <= now)
  }

  /** Token `token`'s subscription to the tier's plan is among the accounts, and is live. */
  ghost predicate Live(accounts: seq<AccountInfo>, token: nat, tier: nat, user: Key) {
    exists i :: 0 <= i < |accounts| && accounts[i].address == SubscriptionAddress(token, tier, user)
                && accounts[i].held.Some? && accounts[i].held.value.expiresAt == 0
  }

  /** `after` is `before` except that subscriptions of `user` to the tier's plans of tokens from `token` on that are in
      `tokens` and not in `kept`, and had not ended, end now; nothing else of an account changes. */
  ghost predicate OnlyEnds(
    before: seq<AccountInfo>, after: seq<AccountInfo>, tokens: bv8, kept: bv8, token: nat, tier: nat, user: Key,
    now: i64)
  {
    && |after| == |before|
    && forall i :: 0 <= i < |before| && after[i] != before[i] ==>
         && before[i].held.Some? && !(0 != before[i].held.value.expiresAt <= now)
         && after[i] == before[i].(held := Some(before[i].held.value.(expiresAt := now)))
         && exists t :: token <= t < 2 && Enabled(tokens, t) && !Enabled(kept, t)
                        && before[i].address == SubscriptionAddress(t, tier, user)
  }

  lemma NoneKept(token: nat)
    requires token < 2
    ensures !Enabled(0, token)
  {
  }

  lemma {:induction false} EndAllEnds(
    accounts: seq<AccountInfo>, tokens: bv8, tier: nat, user: Key, now: i64, token: nat, next: nat)
    requires now > 0 && token <= 2
    requires EndAll(accounts, tokens, tier, user, now, token, next).Ok?
    ensures var after := EndAll(accounts, tokens, tier, user, now, token, next).value;
            && OnlyEnds(accounts, after, tokens, 0, token, tier, user, now)
            && forall t :: token <= t < 2 && Enabled(tokens, t) ==> Ended(after, t, tier, user, now)
    decreases 2 - token
  {
    if token < 2 {
      if !Enabled(tokens, token) {
        EndAllEnds(accounts, tokens, tier, user, now, token + 1, next);
      } else {
        NoneKept(token);
        var ended := Cancelled(accounts[next], accounts[next + 1], token, tier, user, now).value;
        var mid := accounts[next + 1 := ended];
        EndAllEnds(mid, tokens, tier, user, now, token + 1, next + 2);
        var after := EndAll(accounts, tokens, tier, user, now, token, next).value;
        assert after[next + 1] == ended;
      }
    }
  }

  /** After a change of tier every enabled token's old subscription has ended and its new one is live. */
  lemma {:induction false} MoveAllMoves(
    accounts: seq<AccountInfo>, tokens: bv8, tier: nat, newTier: nat, user: Key, now: i64, token: nat, next: nat)
    requires now > 0 && token <= 2 && tier != newTier
    requires MoveAll(accounts, tokens, tier, newTier, user, now, token, next).Ok?
    ensures var after := MoveAll(accounts, tokens, tier, newTier, user, now, token, next).value;
            && OnlyEnds(accounts, after, tokens, 0, token, tier, user, now)
            && forall t :: token <= t < 2 && Enabled(tokens, t) ==>
                 Ended(after, t, tier, user, now) && Live(after, t, newTier, user)
    decreases 2 - token
  {
    if token < 2 {
      if !Enabled(tokens, token) {
        MoveAllMoves(accounts, tokens, tier, newTier, user, now, token + 1, next);
      } else {
        NoneKept(token);
        var ended := Cancelled(accounts[next], accounts[next + 1], token, tier, user, now).value;
        var mid := accounts[next + 1 := ended];
        MoveAllMoves(mid, tokens, tier, newTier, user, now, token + 1, next + 3);
        var after := MoveAll(accounts, tokens, tier, newTier, user, now, token, next).value;
        assert after[next + 1] == ended;
        assert after[next + 2] == accounts[next + 2];
        assert IsLive(after[next + 2], token, newTier, user);
      }
    }
  }

  ghost predicate Switched(
    accounts: seq<AccountInfo>, tokens: bv8, newTokens: bv8, token: nat, tier: nat, user: Key, now: i64)
    requires token < 2
  {
    && (Enabled(tokens, token) && !Enabled(newTokens, token) ==> Ended(accounts, token, tier, user, now))
    && (!Enabled(tokens, token) && Enabled(newTokens, token) ==> Live(accounts, token, tier, user))
  }

  /** After a change of tokens every dropped token's subscription has ended and every added one's is live. */
  lemma {:induction false} SwitchAllSwitches(
    accounts: seq<AccountInfo>, tokens: bv8, newTokens: bv8, tier: nat, user: Key, now: i64, token: nat, next: nat)
    requires now > 0 && token <= 2
    requires SwitchAll(accounts, tokens, newTokens, tier, user, now, token, next).Ok?
    ensures var after := SwitchAll(accounts, tokens, newTokens, tier, user, now, token, next).value;
            && OnlyEnds(accounts, after, tokens, newTokens, token, tier, user, now)
            && forall t :: token <= t < 2 ==> Switched(after, tokens, newTokens, t, tier, user, now)
    decreases 2 - token
  {
    hide Enabled;
    if token < 2 {
      var after := SwitchAll(accounts, tokens, newTokens, tier, user, now, token, next).value;
      if Enabled(tokens, token) && !Enabled(newTokens, token) {
        var ended := Cancelled(accounts[next], accounts[next + 1], token, tier, user, now).value;
        SwitchAllSwitches(accounts[next + 1 := ended], tokens, newTokens, tier, user, now, token + 1, next + 2);
        assert after[next + 1] == ended;
      } else if !Enabled(tokens, token) && Enabled(newTokens, token) {
        SwitchAllSwitches(accounts, tokens, newTokens, tier, user, now, token + 1, next + 1);
        assert after[next] == accounts[next];
        assert IsLive(after[next], token, tier, user);
      } else {
        SwitchAllSwitches(accounts, tokens, newTokens, tier, user, now, token + 1, next);
      }
    }
  }

  // What the walks accept, account by account

  /** Account `i` is a live subscription of the user to the token's plan of the tier. */
  predicate LiveAt(accounts: seq<AccountInfo>, i: nat, token: nat, tier: nat, user: Key) {
    i < |accounts| && accounts[i].address == SubscriptionAddress(token, tier, user)
    && accounts[i].held.Some? && accounts[i].held.value.expiresAt == 0
  }

  /** Accounts `i` and `i + 1` are that plan and the user's subscription to it, live or not. */
  predicate PairAt(accounts: seq<AccountInfo>, i: nat, token: nat, tier: nat, user: Key) {
    i + 1 < |accounts| && accounts[i].address == PlanAddress(token, tier)
    && accounts[i + 1].address == SubscriptionAddress(token, tier, user)
  }

  /** For each token chosen, in order, a live subscription. */
  predicate LiveInOrder(accounts: seq<AccountInfo>, tokens: bv8, tier: nat, user: Key) {
    && (tokens & 1 != 0 ==> LiveAt(accounts, 0, 0, tier, user))
    && (tokens & 2 != 0 ==> LiveAt(accounts, if tokens & 1 != 0 then 1 else 0, 1, tier, user))
  }

  /** For each token chosen, in order, the plan and the subscription to end. */
  predicate PairsInOrder(accounts: seq<AccountInfo>, tokens: bv8, tier: nat, user: Key) {
    && (tokens & 1 != 0 ==> PairAt(accounts, 0, 0, tier, user))
    && (tokens & 2 != 0 ==> PairAt(accounts, if tokens & 1 != 0 then 2 else 0, 1, tier, user))
  }

  /** For each token chosen, in order, the plan, the subscription to end and the live one to the new tier's plan. */
  predicate TriplesInOrder(accounts: seq<AccountInfo>, tokens: bv8, tier: nat, newTier: nat, user: Key) {
    var second := if tokens & 1 != 0 then 3 else 0;
    && (tokens & 1 != 0 ==> PairAt(accounts, 0, 0, tier, user) && LiveAt(accounts, 2, 0, newTier, user))
    && (tokens & 2 != 0 ==> PairAt(accounts, second, 1, tier, user) && LiveAt(accounts, second + 2, 1, newTier, user))
  }

  /** In the tokens' order the plan and the subscription of one dropped, or the live subscription of one added. */
  predicate SwitchesInOrder(accounts: seq<AccountInfo>, tokens: bv8, newTokens: bv8, tier: nat, user: Key) {
    var second :=
      if tokens & 1 != 0 && newTokens & 1 == 0 then 2 else if tokens & 1 == 0 && newTokens & 1 != 0 then 1 else 0;
    && (tokens & 1 != 0 && newTokens & 1 == 0 ==> PairAt(accounts, 0, 0, tier, user))
    && (tokens & 1 == 0 && newTokens & 1 != 0 ==> LiveAt(accounts, 0, 0, tier, user))
    && (tokens & 2 != 0 && newTokens & 2 == 0 ==> PairAt(accounts, second, 1, tier, user))
    && (tokens & 2 == 0 && newTokens & 2 != 0 ==> LiveAt(accounts, second, 1, tier, user))
  }

  /** The accounts an enrollment or a return is accepted with. */
  lemma AllLiveAccepts(accounts: seq<AccountInfo>, tokens: bv8, tier: nat, user: Key)
    ensures AllLive(accounts, tokens, tier, user, 0, 0) <==> LiveInOrder(accounts, tokens, tier, user)
  {
    var next := if Enabled(tokens, 0) then 1 else 0;
    assert AllLive(accounts, tokens, tier, user, 1, next)
      <==> (Enabled(tokens, 1) ==> LiveAt(accounts, next, 1, tier, user));
  }

  /** An exit. */
  lemma EndAllAccepts(accounts: seq<AccountInfo>, tokens: bv8, tier: nat, user: Key, now: i64)
    ensures var ended := EndAll(accounts, tokens, tier, user, now, 0, 0);
            if PairsInOrder(accounts, tokens, tier, user) then ended.Ok? else ended == Err(SubscriptionMismatch)
  {
    if Enabled(tokens, 0) && PairAt(accounts, 0, 0, tier, user) {
      var ended := Cancelled(accounts[0], accounts[1], 0, tier, user, now).value;
      EndLast(accounts[1 := ended], tokens, tier, user, now, 2);
    } else {
      EndLast(accounts, tokens, tier, user, now, 0);
    }
  }

  lemma EndLast(accounts: seq<AccountInfo>, tokens: bv8, tier: nat, user: Key, now: i64, next: nat)
    ensures var ended := EndAll(accounts, tokens, tier, user, now, 1, next);
            if Enabled(tokens, 1) ==> PairAt(accounts, next, 1, tier, user) then ended.Ok?
            else ended == Err(SubscriptionMismatch)
  {
  }

  /** A change of tier. */
  lemma MoveAllAccepts(accounts: seq<AccountInfo>, tokens: bv8, tier: nat, newTier: nat, user: Key, now: i64)
    ensures var moved := MoveAll(accounts, tokens, tier, newTier, user, now, 0, 0);
            if TriplesInOrder(accounts, tokens, tier, newTier, user) then moved.Ok?
            else moved == Err(SubscriptionMismatch)
  {
    if Enabled(tokens, 0) && PairAt(accounts, 0, 0, tier, user) {
      var ended := Cancelled(accounts[0], accounts[1], 0, tier, user, now).value;
      MoveLast(accounts[1 := ended], tokens, tier, newTier, user, now, 3);
    } else {
      MoveLast(accounts, tokens, tier, newTier, user, now, 0);
    }
  }

  lemma MoveLast(
    accounts: seq<AccountInfo>, tokens: bv8, tier: nat, newTier: nat, user: Key, now: i64, next: nat)
    ensures var moved := MoveAll(accounts, tokens, tier, newTier, user, now, 1, next);
            if Enabled(tokens, 1) ==>
                 PairAt(accounts, next, 1, tier, user) && LiveAt(accounts, next + 2, 1, newTier, user)
            then moved.Ok? else moved == Err(SubscriptionMismatch)
  {
  }

  /** A change of tokens. */
  lemma SwitchAllAccepts(accounts: seq<AccountInfo>, tokens: bv8, newTokens: bv8, tier: nat, user: Key, now: i64)
    ensures var switched := SwitchAll(accounts, tokens, newTokens, tier, user, now, 0, 0);
            if SwitchesInOrder(accounts, tokens, newTokens, tier, user) then switched.Ok?
            else switched == Err(SubscriptionMismatch)
  {
    hide HasEnded, Enabled, SwitchesInOrder, IsLive;
    SwitchesByToken(accounts, tokens, newTokens, tier, user);
    if Enabled(tokens, 0) && !Enabled(newTokens, 0) {
      if PairAt(accounts, 0, 0, tier, user) {
        var ended := Cancelled(accounts[0], accounts[1], 0, tier, user, now).value;
        SwitchLast(accounts[1 := ended], tokens, newTokens, tier, user, now, 2);
      }
    } else if !Enabled(tokens, 0) && Enabled(newTokens, 0) {
      LiveIsAt(accounts, 0, 0, tier, user);
      SwitchLast(accounts, tokens, newTokens, tier, user, now, 1);
    } else {
      SwitchLast(accounts, tokens, newTokens, tier, user, now, 0);
    }
  }

  lemma SwitchesByToken(accounts: seq<AccountInfo>, tokens: bv8, newTokens: bv8, tier: nat, user: Key)
    ensures SwitchesInOrder(accounts, tokens, newTokens, tier, user)
            <==> var second := if Enabled(tokens, 0) && !Enabled(newTokens, 0) then 2
                               else if !Enabled(tokens, 0) && Enabled(newTokens, 0) then 1 else 0;
                 && (Enabled(tokens, 0) && !Enabled(newTokens, 0) ==> PairAt(accounts, 0, 0, tier, user))
                 && (!Enabled(tokens, 0) && Enabled(newTokens, 0) ==> LiveAt(accounts, 0, 0, tier, user))
                 && (Enabled(tokens, 1) && !Enabled(newTokens, 1) ==> PairAt(accounts, second, 1, tier, user))
                 && (!Enabled(tokens, 1) && Enabled(newTokens, 1) ==> LiveAt(accounts, second, 1, tier, user))
  {
    hide PairAt, LiveAt;
  }

  lemma LiveIsAt(accounts: seq<AccountInfo>, i: nat, token: nat, tier: nat, user: Key)
    ensures LiveAt(accounts, i, token, tier, user) <==> i < |accounts| && IsLive(accounts[i], token, tier, user)
  {
  }

  lemma SwitchLast(
    accounts: seq<AccountInfo>, tokens: bv8, newTokens: bv8, tier: nat, user: Key, now: i64, next: nat)
    ensures var switched := SwitchAll(accounts, tokens, newTokens, tier, user, now, 1, next);
            if && (Enabled(tokens, 1) && !Enabled(newTokens, 1) ==> PairAt(accounts, next, 1, tier, user))
               && (!Enabled(tokens, 1) && Enabled(newTokens, 1) ==> LiveAt(accounts, next, 1, tier, user))
            then switched.Ok? else switched == Err(SubscriptionMismatch)
  {
  }
}
