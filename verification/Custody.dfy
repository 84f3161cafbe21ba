/** A whole sweep, its swap included: what an arbitrary route can and cannot change. */
module Custody {
  import opened Numbers
  import opened Market
  import opened Amount
  import opened Subscriptions
  import opened Program
  import opened Price
  import opened MinOut
  import Accounts

  /** What an account's bytes are: a token account's mint, owner, amount and everything else, or anything. */
  datatype Data =
    | TokenData(mint: Key, owner: Key, amount: u64, rest: seq<u8>)
    | OtherData(bytes: seq<u8>)

  /** An account: the program that owns it, and its data. */
  datatype Account = Account(program: Key, data: Data)

  /** The accounts that exist, by address. */
  type Holdings = map<Key, Account>

  const TOKEN_PROGRAM: Key := 1
  const TOKEN_2022_PROGRAM: Key := 2
  const SWAP_AUTHORITY: Key := 3
  const USD_DECIMALS: u8 := 6

  /** A program the router may be: given the accounts it is passed, what it leaves, or that it fails. */
  type Route = Holdings -> Option<Holdings>

  datatype RouteAccount = RouteAccount(address: Key, isWritable: bool)

  /** What a sweep is called with. */
  datatype SweepCall = SweepCall(
    user: Key,
    input: SweepInput,
    userPayment: Key,
    swapPayment: Key,
    userAsset: Key,
    assetMessage: Bytes,
    paymentMessage: Bytes,
    routeAccounts: seq<RouteAccount>)

  predicate IsTokenProgram(program: Key) {
    program == TOKEN_PROGRAM || program == TOKEN_2022_PROGRAM
  }

  predicate IsSwapTokenAccount(accounts: Holdings, address: Key) {
    && address in accounts && IsTokenProgram(accounts[address].program)
    && accounts[address].data.TokenData? && accounts[address].data.owner == SWAP_AUTHORITY
  }

  predicate IsTokenAccount(accounts: Holdings, address: Key, tokenProgram: Key, mint: Key, owner: Key) {
    && address in accounts && accounts[address].program == tokenProgram
    && accounts[address].data.TokenData?
    && accounts[address].data.mint == mint && accounts[address].data.owner == owner
  }

  function AmountAt(accounts: Holdings, address: Key): Result<u64> {
    if address in accounts && accounts[address].data.TokenData? then Ok(accounts[address].data.amount)
    else Err(InvalidTokenAccount)
  }

  function WithAmount(accounts: Holdings, address: Key, amount: u64): Holdings
    requires address in accounts && accounts[address].data.TokenData?
  {
    accounts[address := accounts[address].(data := accounts[address].data.(amount := amount))]
  }

  function ItemOf<T>(items: Pair<T>, i: u8): T {
    if i == 0 then items.first else items.second
  }

  /** The pull by Subscriptions: exactly `total` of the token, from the user's own account to the swap authority's. */
  function Transfer(accounts: Holdings, call: SweepCall, token: PaymentToken, total: u64): Result<Holdings> {
    var from, to := call.userPayment, call.swapPayment;
    if from == to || !IsTokenAccount(accounts, from, token.tokenProgram, token.mint, call.user) then Err(CallFailed)
    else if !IsTokenAccount(accounts, to, token.tokenProgram, token.mint, SWAP_AUTHORITY) then Err(CallFailed)
    else if accounts[from].data.amount < total || accounts[to].data.amount + total > U64_MAX then Err(CallFailed)
    else
      var paid := WithAmount(accounts, from, accounts[from].data.amount - total);
      Ok(WithAmount(paid, to, accounts[to].data.amount + total))
  }

  predicate MayWrite(routeAccounts: seq<RouteAccount>, address: Key) {
    exists i :: 0 <= i < |routeAccounts| && routeAccounts[i].address == address && routeAccounts[i].isWritable
  }

  /** What the runtime lets a route leave: only accounts passed to it as writable differ from before. */
  ghost predicate Confined(before: Holdings, after: Holdings, routeAccounts: seq<RouteAccount>) {
    forall a :: !MayWrite(routeAccounts, a) ==>
                  (a in before <==> a in after) && (a in before ==> after[a] == before[a])
  }

  /** Whatever the route does to the accounts it may write. */
  function Routed(route: Route, before: Holdings, routeAccounts: seq<RouteAccount>): (r: Result<Holdings>)
    ensures r.Ok? ==> Confined(before, r.value, routeAccounts)
  {
    var ran := route(before);
    if ran.None? then Err(CallFailed)
    else
      var kept := map a | a in before && !MayWrite(routeAccounts, a) :: before[a];
      var written := map a | a in ran.value && MayWrite(routeAccounts, a) :: ran.value[a];
      Ok(kept + written)
  }

  /** A route that runs leaves what it says of the accounts passed to it as writable, and everything else as it was. */
  lemma RouteLeaves(route: Route, before: Holdings, routeAccounts: seq<RouteAccount>, a: Key)
    ensures var ran, after := route(before), Routed(route, before, routeAccounts);
            if ran.None? then after == Err(CallFailed)
            else
              var writable := exists i :: 0 <= i < |routeAccounts| && routeAccounts[i] == RouteAccount(a, true);
              var left := if writable then ran.value else before;
              after.Ok? && (a in after.value <==> a in left) && (a in left ==> after.value[a] == left[a])
  {
    assert MayWrite(routeAccounts, a) <==>
        exists i :: 0 <= i < |routeAccounts| && routeAccounts[i] == RouteAccount(a, true);
  }

  /** The account's data is what it was. */
  predicate SameData(before: Holdings, after: Holdings, address: Key) {
    address in before && address in after && after[address].data == before[address].data
  }

  /** Some watched account did not end as it started. */
  predicate Changed(watched: set<Key>, before: Holdings, after: Holdings) {
    exists a :: a in watched && !SameData(before, after, a)
  }

  /** A writable account is the swap authority's afterwards without having been watched. */
  predicate Created(call: SweepCall, watched: set<Key>, after: Holdings) {
    exists i :: 0 <= i < |call.routeAccounts| && call.routeAccounts[i].isWritable
                && IsSwapTokenAccount(after, call.routeAccounts[i].address)
                && call.routeAccounts[i].address !in watched
  }

  /** What a sweep leaves: the accounts, what it pulled, and what it received against its minimum. */
  datatype SweepResult = SweepResult(accounts: Holdings, pull: Pull, received: u64, minimum: u64)

  /** What is looked at twice: where the pull goes, and each of the swap authority's accounts that a route could write.
      */
  function Watched(call: SweepCall, accounts: Holdings): set<Key> {
    {call.swapPayment}
    + set i | 0 <= i < |call.routeAccounts| && call.routeAccounts[i].isWritable
              && IsSwapTokenAccount(accounts, call.routeAccounts[i].address) :: call.routeAccounts[i].address
  }

  /** Every token account of the swap authority still holds the same bytes, and there is no new one. */
  ghost predicate SwapDataKept(before: Holdings, after: Holdings) {
    (forall a :: IsSwapTokenAccount(before, a) ==> SameData(before, after, a)) && NoneCreated(before, after)
  }

  /** What is now a token account of the swap authority was one before, with the same bytes. */
  ghost predicate NoneCreated(before: Holdings, after: Holdings) {
    forall a :: IsSwapTokenAccount(after, a) ==> IsSwapTokenAccount(before, a) && SameData(before, after, a)
  }

  /** The swap authority's token accounts stand before and after, the same in everything. */
  ghost predicate SwapAccountsKept(before: Holdings, after: Holdings) {
    forall a :: IsSwapTokenAccount(before, a) || IsSwapTokenAccount(after, a) ==>
                  a in before && a in after && after[a] == before[a]
  }

  /** No token account of the swap authority went to another program. */
  ghost predicate ProgramsKept(before: Holdings, after: Holdings) {
    forall a :: IsSwapTokenAccount(before, a) && a in after ==> after[a].program == before[a].program
  }

  /** The two prices a sweep trades at. */
  ghost predicate PricedAt(config: Config, user: User, call: SweepCall, minimum: u64, total: int, now: i64)
    requires user.settings.asset < 2 && call.input.token < 2 && 0 <= total <= U64_MAX
  {
    var asset := config.assets.At(user.settings.asset);
    var token := config.paymentTokens.At(call.input.token);
    exists assetQuote, paymentQuote ::
      && QuoteOf(call.assetMessage, asset.pythFeedId, now) == Ok(assetQuote)
      && QuoteOf(call.paymentMessage, token.usdFeedId, now) == Ok(paymentQuote)
      && ProgramMinOut(Swap(total, paymentQuote, USD_DECIMALS, assetQuote, asset.decimals)) == Ok(minimum)
  }

  /** What the token programs keep for a holder who has not signed: each of their token accounts stays theirs, in its
      mint and under its program, with no less in it. */
  ghost predicate HolderKept(before: Holdings, after: Holdings, holder: Key) {
    forall a :: a in before && IsTokenProgram(before[a].program) && before[a].data.TokenData?
                && before[a].data.owner == holder ==>
                  && IsTokenAccount(after, a, before[a].program, before[a].data.mint, holder)
                  && after[a].data.amount >= before[a].data.amount
  }

  /** What a sweep that succeeds did: it pulled exactly the total and the route spent exactly that; the user's asset
      account grew by no less than the minimum from the prices, itself at least one unit; and nothing else changed but
      what the route could write. If the token programs kept the user's accounts from a route the user did not sign,
      the asset account is still the user's and the user paid no more than the total. */
  ghost predicate Delivered(config: Config, user: User, call: SweepCall, before: Holdings, r: SweepResult, now: i64) {
    && user.settings.asset < 2 && call.input.token < 2 && 0 < r.pull.Total() <= U64_MAX
    && PricedAt(config, user, call, r.minimum, r.pull.Total(), now)
    && 1 <= r.minimum <= r.received
    && AmountAt(before, call.userAsset).Ok? && AmountAt(r.accounts, call.userAsset).Ok?
    && AmountAt(r.accounts, call.userAsset).value == AmountAt(before, call.userAsset).value + r.received
    && var asset, token := config.assets.At(user.settings.asset), config.paymentTokens.At(call.input.token);
       Exchanged(call, asset, token, r.pull.Total(), before, r.accounts)
  }

  ghost predicate Exchanged(
    call: SweepCall, asset: Asset, token: PaymentToken, total: u64, before: Holdings, after: Holdings)
  {
    var pulled := Transfer(before, call, token, total);
    && pulled.Ok?
    && IsTokenAccount(pulled.value, call.swapPayment, token.tokenProgram, token.mint, SWAP_AUTHORITY)
    && AmountAt(after, call.swapPayment).Ok?
    && AmountAt(pulled.value, call.swapPayment).value - AmountAt(after, call.swapPayment).value == total
    && AmountAt(before, call.userPayment).Ok?
    && IsTokenAccount(before, call.userAsset, asset.tokenProgram, asset.mint, call.user)
    && (!MayWrite(call.routeAccounts, call.userPayment) ==>
          && AmountAt(after, call.userPayment).Ok?
          && AmountAt(before, call.userPayment).value - AmountAt(after, call.userPayment).value == total)
    && (HolderKept(pulled.value, after, call.user) ==>
          && IsTokenAccount(after, call.userAsset, asset.tokenProgram, asset.mint, call.user)
          && IsTokenAccount(after, call.userPayment, token.tokenProgram, token.mint, call.user)
          && AmountAt(before, call.userPayment).value - AmountAt(after, call.userPayment).value <= total)
    && (forall a :: a != call.userPayment && a != call.swapPayment && !MayWrite(call.routeAccounts, a) ==>
          (a in before <==> a in after) && (a in before ==> after[a] == before[a]))
  }

  /** What the two looks at the watched accounts prove about a route that does anything to what it may write: every byte
      of the swap authority's token accounts is kept and none is created, and so they are the same in everything
      exactly if none of them went to another program, which the looks do not compare. */
  lemma WatchKeepsSwapAccounts(
    call: SweepCall, token: PaymentToken, total: u64, before: Holdings, pulled: Holdings, after: Holdings)
    requires call.user != SWAP_AUTHORITY && IsTokenProgram(token.tokenProgram)
    requires Transfer(before, call, token, total) == Ok(pulled)
    requires Confined(pulled, after, call.routeAccounts)
    requires !Changed(Watched(call, before), before, after) && !Created(call, Watched(call, before), after)
    ensures SwapDataKept(before, after)
    ensures SwapAccountsKept(before, after) <==> ProgramsKept(before, after)
  {
    forall a | IsSwapTokenAccount(before, a) || IsSwapTokenAccount(after, a)
      ensures IsSwapTokenAccount(before, a) && SameData(before, after, a)
    {
      if a != call.swapPayment && !MayWrite(call.routeAccounts, a) {
        assert a != call.userPayment;
      } else {
        if a != call.swapPayment {
          WritableIsWatched(call, before, after, a);
        }
        assert a in Watched(call, before);
        assert SameData(before, after, a);
      }
    }
  }

  lemma WritableIsWatched(call: SweepCall, before: Holdings, after: Holdings, a: Key)
    requires MayWrite(call.routeAccounts, a) && a != call.swapPayment
    requires IsSwapTokenAccount(before, a) || IsSwapTokenAccount(after, a)
    requires !Created(call, Watched(call, before), after)
    ensures a in Watched(call, before) && IsSwapTokenAccount(before, a)
  {
    var i :| 0 <= i < |call.routeAccounts| && call.routeAccounts[i].address == a && call.routeAccounts[i].isWritable;
    assert IsSwapTokenAccount(before, a) ==> call.routeAccounts[i].address in Watched(call, before);
  }

  /** What the pull and the route did with the tokens. */
  lemma RouteDelivers(
    call: SweepCall, asset: Asset, token: PaymentToken, total: u64, before: Holdings, pulled: Holdings, after: Holdings)
    requires IsTokenProgram(token.tokenProgram) && IsTokenProgram(asset.tokenProgram) && call.user != SWAP_AUTHORITY
    requires IsTokenAccount(before, call.userAsset, asset.tokenProgram, asset.mint, call.user)
    requires Transfer(before, call, token, total) == Ok(pulled)
    requires Confined(pulled, after, call.routeAccounts)
    requires !Changed(Watched(call, before), before, after)
    ensures Exchanged(call, asset, token, total, before, after)
  {
    assert call.swapPayment in Watched(call, before);
    assert SameData(before, after, call.swapPayment);
    hide MayWrite, Watched, Changed;
    if HolderKept(pulled, after, call.user) {
      assert pulled[call.userPayment].data.owner == call.user;
      assert pulled[call.userAsset].data.owner == call.user;
    }
  }

  /** What a sweep needs beyond its gate: a listed asset, token accounts to receive it and the pull, both prices, a
      minimum they give, a pull and a route that succeed, no trace on the swap authority's accounts, and the minimum
      received. */
  ghost predicate Succeeds(
    config: Config, user: User, call: SweepCall, accounts: Holdings, route: Route, minimum: u64, total: u64, now: i64)
    requires call.input.token < 2
  {
    user.settings.asset < 2 &&
    var asset := config.assets.At(user.settings.asset);
    var token := config.paymentTokens.At(call.input.token);
    && IsTokenAccount(accounts, call.userAsset, asset.tokenProgram, asset.mint, call.user)
    && IsTokenAccount(accounts, call.swapPayment, token.tokenProgram, token.mint, SWAP_AUTHORITY)
    && PricedAt(config, user, call, minimum, total, now)
    && RouteSucceeds(call, accounts, route, token, minimum, total)
  }

  ghost predicate RouteSucceeds(
    call: SweepCall, accounts: Holdings, route: Route, token: PaymentToken, minimum: u64, total: u64)
  {
    var pulled := Transfer(accounts, call, token, total);
    pulled.Ok? &&
    var after := Routed(route, pulled.value, call.routeAccounts);
    && after.Ok?
    && !Changed(Watched(call, accounts), accounts, after.value) && !Created(call, Watched(call, accounts), after.value)
    && AmountAt(accounts, call.userAsset).Ok? && AmountAt(after.value, call.userAsset).Ok?
    && AmountAt(accounts, call.userAsset).value + minimum <= AmountAt(after.value, call.userAsset).value
  }

  /** What a deployed configuration's tables hold, as checked when it is made: programs of the two token standards. */
  predicate TablesValid(config: Config) {
    && IsTokenProgram(config.assets.first.tokenProgram) && IsTokenProgram(config.assets.second.tokenProgram)
    && IsTokenProgram(config.paymentTokens.first.tokenProgram)
    && IsTokenProgram(config.paymentTokens.second.tokenProgram)
  }

  /** The part of a sweep that moves tokens, as the program lets it through. */
  datatype RoutedSweep = RoutedSweep(call: SweepCall, route: Route, token: PaymentToken, total: u64)

  ghost predicate MovesTokens(sweep: RoutedSweep, before: Holdings, after: Holdings) {
    var call := sweep.call;
    var pulled := Transfer(before, call, sweep.token, sweep.total);
    && call.user != SWAP_AUTHORITY && IsTokenProgram(sweep.token.tokenProgram)
    && pulled.Ok? && Routed(sweep.route, pulled.value, call.routeAccounts) == Ok(after)
    && !Changed(Watched(call, before), before, after) && !Created(call, Watched(call, before), after)
  }

  function SweepOf(config: Config, call: SweepCall, route: Route, total: u64): RoutedSweep
    requires call.input.token < 2
  {
    RoutedSweep(call, route, config.paymentTokens.At(call.input.token), total)
  }

  /** What a sweep leaves, or why it is refused: a gate's error, or nothing that `Succeeds` allows. */
  ghost predicate SweepOutcome(
    config: Config, before: User, call: SweepCall, accounts: Holdings, route: Route, now: i64,
    after: User, r: Result<SweepResult>)
  {
    var gate := SweepGate(config, before, call.input, now);
    && (gate.Err? ==> r == Err(gate.error))
    && (r.Err? ==> after == before)
    && (r.Ok? ==>
          && gate == Ok(r.value.pull)
          && after == Swept(before, call.input.token, r.value.pull, now)
          && SwapDataKept(accounts, r.value.accounts)
          && (SwapAccountsKept(accounts, r.value.accounts) <==> ProgramsKept(accounts, r.value.accounts))
          && Delivered(config, before, call, accounts, r.value, now)
          && MovesTokens(SweepOf(config, call, route, r.value.pull.Total()), accounts, r.value.accounts))
    && (gate.Ok? && r.Err? ==>
          call.input.token < 2
          && (forall minimum: u64 :: !Succeeds(config, before, call, accounts, route, minimum, gate.value.Total(), now))
          && FailsWith(config, before, call, accounts, route, gate.value.Total(), now, r.error))
  }

  /** The error of what fails first after the gate: the accounts, the prices, the pull, the route, what it left of the
      swap authority's, and what was received. */
  ghost predicate FailsWith(
    config: Config, user: User, call: SweepCall, accounts: Holdings, route: Route, total: int, now: i64, e: Error)
    requires call.input.token < 2
  {
    if user.settings.asset > 1 then e == UnknownAsset
    else
      var asset, token := ItemOf(config.assets, user.settings.asset), ItemOf(config.paymentTokens, call.input.token);
      if !(IsTokenAccount(accounts, call.userAsset, asset.tokenProgram, asset.mint, call.user)
           && IsTokenAccount(accounts, call.swapPayment, token.tokenProgram, token.mint, SWAP_AUTHORITY)) then
        e == InvalidTokenAccount
      else
        var assetQuote := QuoteOf(call.assetMessage, asset.pythFeedId, now);
        var paymentQuote := QuoteOf(call.paymentMessage, token.usdFeedId, now);
        if assetQuote.Err? then e == assetQuote.error
        else if paymentQuote.Err? then e == paymentQuote.error
        else
          0 <= total <= U64_MAX &&
          var minimum := ProgramMinOut(Swap(total, paymentQuote.value, 6, assetQuote.value, asset.decimals));
          if minimum.Err? then e == minimum.error
          else ExchangeFailsWith(call, accounts, route, token, total, minimum.value, e)
  }

  ghost predicate ExchangeFailsWith(
    call: SweepCall, accounts: Holdings, route: Route, token: PaymentToken, total: u64, minimum: u64, e: Error)
  {
    var pulled := Transfer(accounts, call, token, total);
    if pulled.Err? then e == CallFailed
    else
      var after := Routed(route, pulled.value, call.routeAccounts);
      if after.Err? then e == CallFailed
      else if Changed(Watched(call, accounts), accounts, after.value)
              || Created(call, Watched(call, accounts), after.value) then e == SwapAccountChanged
      else if call.userAsset !in after.value || !after.value[call.userAsset].data.TokenData? then
        e == InvalidTokenAccount
      else
        e == SlippageExceeded && AmountAt(accounts, call.userAsset).Ok?
        && after.value[call.userAsset].data.amount < AmountAt(accounts, call.userAsset).value + minimum
  }

  /** The program's sweep: the gate, the checks of accounts and prices, then the pull and the route between the two
      looks at what the swap authority holds. The user is never the swap authority, which cannot sign an enrollment. */
  method Sweep(
    config: Accounts.ConfigAccount, user: Accounts.UserConfig, call: SweepCall, accounts: Holdings, route: Route,
    now: i64)
    returns (r: Result<SweepResult>)
    requires call.user == user.key != SWAP_AUTHORITY
    requires TablesValid(config.View())
    requires call.input.balance == BalanceIn(accounts, call.userPayment)
    modifies user
    ensures SweepOutcome(config.View(), old(user.View()), call, accounts, route, now, user.View(), r)
  {
    hide SweepGate, Swept, QuoteOf, ProgramMinOut, Watched, Changed, Created, Transfer, Confined, SwapAccountsKept;
    hide MayWrite, Exchanged, ProgramsKept, SwapDataKept, Routed, ExchangeFailsWith;
    ghost var before := user.View();
    var pull :- SweepGate(config.View(), user.View(), call.input, now);
    GateGives(config.View(), before, call.input, now);
    var total := pull.Total();
    if user.asset >= 2 {
      return Err(UnknownAsset);
    }
    var asset := config.assets.At(user.asset);
    var token := config.paymentTokens.At(call.input.token);
    if !(IsTokenAccount(accounts, call.userAsset, asset.tokenProgram, asset.mint, call.user)
         && IsTokenAccount(accounts, call.swapPayment, token.tokenProgram, token.mint, SWAP_AUTHORITY)) {
      return Err(InvalidTokenAccount);
    }
    var assetQuote := ProgramQuote(call.assetMessage, asset.pythFeedId, now);
    if assetQuote.Err? {
      return Err(assetQuote.error);
    }
    var paymentQuote := ProgramQuote(call.paymentMessage, token.usdFeedId, now);
    if paymentQuote.Err? {
      return Err(paymentQuote.error);
    }
    var minimum :- ProgramMinOut(
      Swap(total, paymentQuote.value, USD_DECIMALS, assetQuote.value, asset.decimals));
    MinimumIsPositive(Swap(total, paymentQuote.value, USD_DECIMALS, assetQuote.value, asset.decimals));
    var exchanged :- Exchange(call, asset, token, total, minimum, accounts, route);
    assert PricedAt(config.View(), before, call, minimum, total, now);
    user.FinishSweep(call.input.token, pull, now);
    r := Ok(SweepResult(exchanged.0, pull, exchanged.1, minimum));
  }

  /** The pull and the route between the two looks, and what the user received. */
  method Exchange(
    call: SweepCall, asset: Asset, token: PaymentToken, total: u64, minimum: u64, accounts: Holdings, route: Route)
    returns (r: Result<(Holdings, u64)>)
    requires IsTokenProgram(token.tokenProgram) && IsTokenProgram(asset.tokenProgram) && call.user != SWAP_AUTHORITY
    requires IsTokenAccount(accounts, call.userAsset, asset.tokenProgram, asset.mint, call.user)
    requires minimum >= 1
    ensures r.Err? ==> ExchangeFailsWith(call, accounts, route, token, total, minimum, r.error)
    ensures r.Err? ==> !RouteSucceeds(call, accounts, route, token, minimum, total)
    ensures r.Ok? ==>
              var (after, received) := r.value;
              && SwapDataKept(accounts, after) && (SwapAccountsKept(accounts, after) <==> ProgramsKept(accounts, after))
              && Exchanged(call, asset, token, total, accounts, after)
              && MovesTokens(RoutedSweep(call, route, token, total), accounts, after)
              && minimum <= received
              && AmountAt(accounts, call.userAsset).Ok? && AmountAt(after, call.userAsset).Ok?
              && AmountAt(after, call.userAsset).value == AmountAt(accounts, call.userAsset).value + received
  {
    hide Watched, Changed, Created, Transfer, Confined, SwapAccountsKept, MayWrite, Exchanged, ProgramsKept;
    hide SwapDataKept;
    TransferAccepts(accounts, call, token, total);
    var watched := Watched(call, accounts);
    var assetBefore := AmountAt(accounts, call.userAsset).value;
    var pulled :- Transfer(accounts, call, token, total);
    var after :- Routed(route, pulled, call.routeAccounts);
    if Changed(watched, accounts, after) {
      return Err(SwapAccountChanged);
    }
    if Created(call, watched, after) {
      return Err(SwapAccountChanged);
    }
    var assetAfter :- AmountAt(after, call.userAsset);
    var received := SaturatingSub(assetAfter, assetBefore);
    if received < minimum {
      return Err(SlippageExceeded);
    }
    WatchKeepsSwapAccounts(call, token, total, accounts, pulled, after);
    RouteDelivers(call, asset, token, total, accounts, pulled, after);
    r := Ok((after, received));
  }

  /** The pull goes through exactly between two different accounts, the user's own of the token and the swap
      authority's, with the total in the one and room for it in the other. */
  lemma TransferAccepts(accounts: Holdings, call: SweepCall, token: PaymentToken, total: u64)
    ensures var pulled, from, to := Transfer(accounts, call, token, total), call.userPayment, call.swapPayment;
            if && from != to && from in accounts && to in accounts
               && accounts[from].program == token.tokenProgram && accounts[to].program == token.tokenProgram
               && accounts[from].data.TokenData? && accounts[to].data.TokenData?
               && accounts[from].data.mint == token.mint && accounts[from].data.owner == call.user
               && accounts[to].data.mint == token.mint && accounts[to].data.owner == SWAP_AUTHORITY
               && total <= accounts[from].data.amount
               && accounts[to].data.amount + total <= 0xFFFF_FFFF_FFFF_FFFF
            then pulled.Ok? else pulled == Err(CallFailed)
  {
  }

  function BalanceIn(accounts: Holdings, address: Key): Option<u64> {
    if AmountAt(accounts, address).Ok? then Some(AmountAt(accounts, address).value) else None
  }

  lemma GateGives(config: Config, user: User, input: SweepInput, now: i64)
    requires SweepGate(config, user, input, now).Ok?
    ensures input.token < 2 && 0 < SweepGate(config, user, input, now).value.Total() <= U64_MAX
  {
    hide EngineDue, Remaining, WeeklyCap, SpentAt, UsMarketOpen;
  }

  lemma MinimumIsPositive(swap: Swap)
    requires ProgramMinOut(swap).Ok? && swap.amount > 0
    ensures ProgramMinOut(swap).value >= 1
  {
    MinOutBoundsWorth(swap);
  }

  // What a sweep moved, in plain terms

  /** A token account of this mint and owner under one of the two token programs. */
  predicate IsHeld(account: Account, mint: Key, owner: Key) {
    (account.program == TOKEN_PROGRAM || account.program == TOKEN_2022_PROGRAM)
    && account.data.TokenData? && account.data.mint == mint && account.data.owner == owner
  }

  /** A finished sweep took the total from the user's own account of the token, exactly so if its route could not write
      that one, and left every byte of the swap authority's; the user's account of the asset holds exactly what was
      received more, at least the minimum. */
  ghost predicate Moved(config: Config, user: User, call: SweepCall, before: Holdings, r: SweepResult) {
    var after, total := r.accounts, r.pull.engine + r.pull.pending;
    var asset, token := ItemOf(config.assets, user.settings.asset), ItemOf(config.paymentTokens, call.input.token);
    var from, to, got := call.userPayment, call.swapPayment, call.userAsset;
    && from in before && IsHeld(before[from], token.mint, call.user) && total <= before[from].data.amount
    && ((forall i :: 0 <= i < |call.routeAccounts| && call.routeAccounts[i].isWritable ==>
                       call.routeAccounts[i].address != from) ==>
          from in after
          && after[from] == before[from].(data := before[from].data.(amount := before[from].data.amount - total)))
    && to in before && IsHeld(before[to], token.mint, SWAP_AUTHORITY)
    && to in after && after[to].data == before[to].data
    && got in before && IsHeld(before[got], asset.mint, call.user) && before[got].program == asset.tokenProgram
    && got in after && after[got].data.TokenData?
    && after[got].data.amount == before[got].data.amount + r.received && 1 <= r.minimum <= r.received
  }

  lemma SweepMoves(
    config: Config, user: User, call: SweepCall, route: Route, before: Holdings, r: SweepResult, now: i64)
    requires TablesValid(config) && Delivered(config, user, call, before, r, now)
    requires MovesTokens(SweepOf(config, call, route, r.pull.Total()), before, r.accounts)
    ensures Moved(config, user, call, before, r)
    ensures AuthorityKept(before, r.accounts)
  {
    hide PricedAt, Watched, Changed, Created, Routed, SwapDataKept, SwapAccountsKept, ProgramsKept;
    var token := config.paymentTokens.At(call.input.token);
    assert token == ItemOf(config.paymentTokens, call.input.token);
    assert config.assets.At(user.settings.asset) == ItemOf(config.assets, user.settings.asset);
    MovingKeepsSwapAccounts(SweepOf(config, call, route, r.pull.Total()), before, r.accounts);
    KeptIsAuthorityKept(before, r.accounts);
    TransferTakes(before, call, token, r.pull.Total());
  }

  /** What was the swap authority's holds the same bytes, and what is was. */
  ghost predicate AuthorityKept(before: Holdings, after: Holdings) {
    && (forall a, mint :: a in before && IsHeld(before[a], mint, SWAP_AUTHORITY) ==>
                            a in after && after[a].data == before[a].data)
    && (forall a, mint :: a in after && IsHeld(after[a], mint, SWAP_AUTHORITY) ==>
                            a in before && IsHeld(before[a], mint, SWAP_AUTHORITY) && after[a].data == before[a].data)
  }

  lemma KeptIsAuthorityKept(before: Holdings, after: Holdings)
    requires SwapDataKept(before, after)
    ensures AuthorityKept(before, after)
  {
    forall a, mint | a in before && IsHeld(before[a], mint, SWAP_AUTHORITY)
      ensures a in after && after[a].data == before[a].data
    {
      assert IsSwapTokenAccount(before, a);
    }
    forall a, mint | a in after && IsHeld(after[a], mint, SWAP_AUTHORITY)
      ensures a in before && IsHeld(before[a], mint, SWAP_AUTHORITY) && after[a].data == before[a].data
    {
      assert IsSwapTokenAccount(after, a);
      assert IsSwapTokenAccount(before, a);
    }
  }

  /** The two looks pass exactly if the swap authority's token accounts are the same ones with the same bytes. */
  lemma LooksPassIff(
    call: SweepCall, token: PaymentToken, total: u64, before: Holdings, pulled: Holdings, after: Holdings)
    requires call.user != SWAP_AUTHORITY && IsTokenProgram(token.tokenProgram)
    requires Transfer(before, call, token, total) == Ok(pulled) && Confined(pulled, after, call.routeAccounts)
    ensures !Changed(Watched(call, before), before, after) && !Created(call, Watched(call, before), after)
            <==> AuthorityKept(before, after)
  {
    if !Changed(Watched(call, before), before, after) && !Created(call, Watched(call, before), after) {
      WatchKeepsSwapAccounts(call, token, total, before, pulled, after);
      KeptIsAuthorityKept(before, after);
    }
    if AuthorityKept(before, after) {
      TransferTakes(before, call, token, total);
      KeptPassesLooks(call, before, after, token.mint);
    }
  }

  lemma KeptPassesLooks(call: SweepCall, before: Holdings, after: Holdings, mint: Key)
    requires AuthorityKept(before, after)
    requires call.swapPayment in before && IsHeld(before[call.swapPayment], mint, SWAP_AUTHORITY)
    ensures !Changed(Watched(call, before), before, after) && !Created(call, Watched(call, before), after)
  {
    forall a | a in Watched(call, before)
      ensures SameData(before, after, a)
    {
      assert IsHeld(before[a], before[a].data.mint, SWAP_AUTHORITY);
    }
    forall i | 0 <= i < |call.routeAccounts| && call.routeAccounts[i].isWritable
               && IsSwapTokenAccount(after, call.routeAccounts[i].address)
      ensures call.routeAccounts[i].address in Watched(call, before)
    {
      var a := call.routeAccounts[i].address;
      assert IsHeld(after[a], after[a].data.mint, SWAP_AUTHORITY);
      assert IsSwapTokenAccount(before, a);
    }
  }

  lemma TransferTakes(before: Holdings, call: SweepCall, token: PaymentToken, total: u64)
    requires Transfer(before, call, token, total).Ok? && IsTokenProgram(token.tokenProgram)
    ensures var from, to, pulled := call.userPayment, call.swapPayment, Transfer(before, call, token, total).value;
            && from in before && IsHeld(before[from], token.mint, call.user) && total <= before[from].data.amount
            && to in before && IsHeld(before[to], token.mint, SWAP_AUTHORITY)
            && from in pulled
            && pulled[from] == before[from].(data := before[from].data.(amount := before[from].data.amount - total))
  {
  }

  /** A sweep of a token counted at one dollar, whose asset message is an update of some feeds: the payment message is
      empty; the update is at most a minute old and sure of the asset's price within half a percent; and what the sweep
      received would cost, at the high end of that price, within two raw units of 99.45% of the dollars pulled, or
      more. */
  lemma DollarSweepReceives(
    config: Config, user: User, call: SweepCall, before: Holdings, r: SweepResult, now: i64, envelope: Bytes, at: nat,
    feeds: seq<(u32, Quote)>)
    requires Delivered(config, user, call, before, r, now)
    requires |envelope| == 96 && at * 1_000_000 <= U64_MAX && |feeds| <= 255
    requires call.assetMessage == PythUpdate(envelope, at, feeds)
    requires ItemOf(config.assets, user.settings.asset).pythFeedId != 0
    requires ItemOf(config.paymentTokens, call.input.token).usdFeedId == 0
    ensures var asset := ItemOf(config.assets, user.settings.asset);
            var quote := FirstOf(feeds, asset.pythFeedId);
            && call.paymentMessage == [] && quote.Some?
            && 0 < quote.value.price && 0 < quote.value.confidence && quote.value.confidence * 200 <= quote.value.price
            && now - at <= 60
            && var unit := (quote.value.price + quote.value.confidence) as real
                           * TenTo(quote.value.exponent - asset.decimals);
               var dollars := (r.pull.engine + r.pull.pending) as real * TenTo(-6);
               && 0.0 < unit && r.minimum as real * unit <= 0.9945 * dollars < (r.minimum as real + 2.0) * unit
               && r.minimum <= r.received
  {
    hide QuoteOf, ProgramMinOut, Exchanged, PythUpdate, FirstOf, TenTo, PaidDollars, UnitDollars;
    var asset, token := config.assets.At(user.settings.asset), config.paymentTokens.At(call.input.token);
    assert asset == ItemOf(config.assets, user.settings.asset);
    assert token == ItemOf(config.paymentTokens, call.input.token);
    var total := r.pull.Total();
    var assetQuote, paymentQuote :|
      && QuoteOf(call.assetMessage, asset.pythFeedId, now) == Ok(assetQuote)
      && QuoteOf(call.paymentMessage, token.usdFeedId, now) == Ok(paymentQuote)
      && ProgramMinOut(Swap(total, paymentQuote, USD_DECIMALS, assetQuote, asset.decimals)) == Ok(r.minimum);
    UpdatesReadBack(envelope, at, feeds, asset.pythFeedId, now);
    OneDollar(call.paymentMessage, now);
    var swap := Swap(total, paymentQuote, USD_DECIMALS, assetQuote, asset.decimals);
    MinOutInDollars(swap);
    DollarsPaid(swap);
  }

  lemma OneDollar(message: Bytes, now: int)
    ensures QuoteOf(message, 0, now) == if message == [] then Ok(Quote(1, 0, 0)) else Err(InvalidPriceUpdate)
  {
  }

  lemma DollarsPaid(swap: Swap)
    requires swap.payment == Quote(1, 0, 0) && swap.paymentDecimals == 6
    ensures PaidDollars(swap) == swap.amount as real * TenTo(-6)
    ensures UnitDollars(swap)
            == (swap.asset.price + swap.asset.confidence) as real * TenTo(swap.asset.exponent - swap.assetDecimals)
  {
    hide TenTo;
  }

  // Custody over many sweeps

  lemma MovingKeepsSwapAccounts(sweep: RoutedSweep, before: Holdings, after: Holdings)
    requires MovesTokens(sweep, before, after)
    ensures SwapDataKept(before, after)
    ensures SwapAccountsKept(before, after) <==> ProgramsKept(before, after)
  {
    var pulled := Transfer(before, sweep.call, sweep.token, sweep.total).value;
    hide Transfer, Routed, Confined, Watched, Changed, Created, SwapAccountsKept, SwapDataKept, ProgramsKept;
    WatchKeepsSwapAccounts(sweep.call, sweep.token, sweep.total, before, pulled, after);
  }

  /** What is between two states: a sweep that moved tokens, or a transaction that leaves the swap authority's token
      accounts alone. */
  ghost predicate CustodyStep(step: Option<RoutedSweep>, before: Holdings, after: Holdings) {
    if step.Some? then MovesTokens(step.value, before, after) else SwapAccountsKept(before, after)
  }

  /** Custody is zero-sum: over any succession of sweeps, each with a route of its own that does anything it can, and of
      other transactions that leave the swap authority's token accounts alone, no such account is created and each that
      remains one holds its first bytes; and if no sweep's route gave one to another program, every one of them ends
      exactly as it started. */
  lemma {:induction false} CustodyIsZeroSum(states: seq<Holdings>, steps: seq<Option<RoutedSweep>>)
    requires |states| == |steps| + 1
    requires forall i :: 0 <= i < |steps| ==> CustodyStep(steps[i], states[i], states[i + 1])
    ensures NoneCreated(states[0], states[|steps|])
    ensures (forall i :: 0 <= i < |steps| ==> ProgramsKept(states[i], states[i + 1])) ==>
              SwapAccountsKept(states[0], states[|steps|])
  {
    hide MovesTokens, ProgramsKept;
    if |steps| > 0 {
      var n := |steps| - 1;
      var prefix, first, last, end := states[..n + 1], states[0], states[n], states[n + 1];
      CustodyIsZeroSum(prefix, steps[..n]);
      assert CustodyStep(steps[n], last, end);
      if steps[n].Some? {
        MovingKeepsSwapAccounts(steps[n].value, last, end);
      }
      assert NoneCreated(last, end);
      CreatedOn(first, last, end);
      hide NoneCreated;
      if forall i :: 0 <= i < |steps| ==> ProgramsKept(states[i], states[i + 1]) {
        assert ProgramsKept(last, end);
        assert forall i :: 0 <= i < n ==> ProgramsKept(prefix[i], prefix[i + 1]);
        KeptOn(first, last, end);
      }
    }
  }

  lemma CreatedOn(first: Holdings, last: Holdings, end: Holdings)
    requires NoneCreated(first, last) && NoneCreated(last, end)
    ensures NoneCreated(first, end)
  {
    forall a | IsSwapTokenAccount(end, a)
      ensures IsSwapTokenAccount(first, a) && SameData(first, end, a)
    {
      assert IsSwapTokenAccount(last, a);
    }
  }

  lemma KeptOn(first: Holdings, last: Holdings, end: Holdings)
    requires SwapAccountsKept(first, last) && SwapAccountsKept(last, end)
    ensures SwapAccountsKept(first, end)
  {
    forall a | IsSwapTokenAccount(first, a) || IsSwapTokenAccount(end, a)
      ensures a in first && a in end && end[a] == first[a]
    {
      assert IsSwapTokenAccount(first, a) ==> IsSwapTokenAccount(last, a);
      assert IsSwapTokenAccount(end, a) ==> IsSwapTokenAccount(last, a);
    }
  }

  // The case the looks do not see

  const USER: Key := 10
  const PAYMENT: Key := 11
  const SWAP_PAYMENT: Key := 12
  const ASSET: Key := 13
  const OTHER_SWAP: Key := 14

  /** Accounts of a user with a dollar, of the swap authority, and one more of the swap authority's. */
  function Standing(): Holdings {
    map[
      PAYMENT := Account(TOKEN_PROGRAM, TokenData(4, USER, 1_000_000, [])),
      SWAP_PAYMENT := Account(TOKEN_PROGRAM, TokenData(4, SWAP_AUTHORITY, 0, [])),
      ASSET := Account(TOKEN_PROGRAM, TokenData(5, USER, 0, [])),
      OTHER_SWAP := Account(TOKEN_PROGRAM, TokenData(6, SWAP_AUTHORITY, 7, []))]
  }

  function StandingCall(): SweepCall {
    SweepCall(
      USER, SweepInput(0, Some(1_000_000), 4, TOKEN_PROGRAM, PlanAddress(0, 0), None), PAYMENT, SWAP_PAYMENT, ASSET,
      [], [], [RouteAccount(SWAP_PAYMENT, true), RouteAccount(ASSET, true), RouteAccount(OTHER_SWAP, true)])
  }

  /** Spends the dollar, pays the asset, and puts another program's account with the same bytes in the place of the swap
      authority's other account. */
  function Impostor(before: Holdings): Option<Holdings> {
    if SWAP_PAYMENT in before && ASSET in before && OTHER_SWAP in before
       && before[SWAP_PAYMENT].data.TokenData? && before[ASSET].data.TokenData?
    then Some(before[SWAP_PAYMENT := before[SWAP_PAYMENT].(data := before[SWAP_PAYMENT].data.(amount := 0))]
                    [ASSET := before[ASSET].(data := before[ASSET].data.(amount := 100))]
                    [OTHER_SWAP := before[OTHER_SWAP].(program := 99)])
    else None
  }

  /** A route that leaves the same bytes under another program passes both looks, and is the only kind that does and
      does not keep the accounts: the looks compare bytes, and the program is not among them. */
  lemma ImpostorPasses() returns (sweep: RoutedSweep, after: Holdings)
    ensures MovesTokens(sweep, Standing(), after)
    ensures !ProgramsKept(Standing(), after) && !SwapAccountsKept(Standing(), after)
  {
    sweep := RoutedSweep(StandingCall(), Impostor, PaymentToken(4, TOKEN_PROGRAM, 0), 1_000_000);
    after := Replaced();
    StandingPull();
    ImpostorRouted();
    LooksPass();
    assert IsSwapTokenAccount(Standing(), OTHER_SWAP);
    hide Transfer, Routed, Changed, Created, Watched;
  }

  function Pulled(): Holdings {
    Standing()[PAYMENT := Account(TOKEN_PROGRAM, TokenData(4, USER, 0, []))]
              [SWAP_PAYMENT := Account(TOKEN_PROGRAM, TokenData(4, SWAP_AUTHORITY, 1_000_000, []))]
  }

  function Replaced(): Holdings {
    Standing()[PAYMENT := Account(TOKEN_PROGRAM, TokenData(4, USER, 0, []))]
              [ASSET := Account(TOKEN_PROGRAM, TokenData(5, USER, 100, []))]
              [OTHER_SWAP := Account(99, TokenData(6, SWAP_AUTHORITY, 7, []))]
  }

  lemma ImpostorRouted()
    ensures Routed(Impostor, Pulled(), StandingCall().routeAccounts) == Ok(Replaced())
  {
    WritesThree();
    hide MayWrite;
    assert Impostor(Pulled()).value == Replaced();
    assert Routed(Impostor, Pulled(), StandingCall().routeAccounts).value == Replaced();
  }

  lemma LooksPass()
    ensures !Changed(Watched(StandingCall(), Standing()), Standing(), Replaced())
    ensures !Created(StandingCall(), Watched(StandingCall(), Standing()), Replaced())
  {
    var accounts := StandingCall().routeAccounts;
    assert accounts[0].address == SWAP_PAYMENT && accounts[1].address == ASSET && accounts[2].address == OTHER_SWAP;
    assert SWAP_PAYMENT in Watched(StandingCall(), Standing());
  }

  lemma StandingPull()
    ensures Transfer(Standing(), StandingCall(), PaymentToken(4, TOKEN_PROGRAM, 0), 1_000_000) == Ok(Pulled())
  {
  }

  lemma WritesThree()
    ensures forall a ::
              MayWrite(StandingCall().routeAccounts, a) <==> a == SWAP_PAYMENT || a == ASSET || a == OTHER_SWAP
  {
    var accounts := StandingCall().routeAccounts;
    assert accounts[0].address == SWAP_PAYMENT && accounts[1].address == ASSET && accounts[2].address == OTHER_SWAP;
  }
}
