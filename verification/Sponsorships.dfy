/** What the sponsor pays for: the table of built, sent and settled transactions, and the limits on sending. */
module Sponsorships {
  import opened Numbers
  import opened SlidingWindow

  const DAY_MS := 24 * 60 * 60 * 1000
  const RETURN_WINDOW_MS := 30 * DAY_MS
  const PREPARED_TTL_MS := 2 * 60 * 1000

  datatype Kind = Enroll | Reactivate
  datatype Outcome = Prepared | Sent | Landed | Failed

  datatype Row = Row(
    wallet: string,
    ip: Option<string>,
    kind: Kind,
    message: string,
    assetAccount: Option<string>,
    preparedAt: int,
    sentAt: Option<int>,
    outcome: Outcome)

  type Table = map<nat, Row>

  /** A send that counts: claimed, and not known to have failed. */
  predicate Spent(row: Row) {
    (row.outcome.Sent? || row.outcome.Landed?) && row.sentAt.Some?
  }

  /** The limits: whose sends are counted, how many are allowed, and in what window. */
  datatype Scope = OfWallet(wallet: string) | OfAll | OfIp(ip: string) | OfReturns(wallet: string)

  predicate InScope(scope: Scope, row: Row) {
    match scope
    case OfWallet(wallet) => row.wallet == wallet
    case OfAll => true
    case OfIp(ip) => row.ip == Some(ip)
    case OfReturns(wallet) => row.wallet == wallet && row.kind.Reactivate?
  }

  function Most(scope: Scope): nat {
    match scope
    case OfWallet(_) => 3
    case OfAll => 500
    case OfIp(_) => 10
    case OfReturns(_) => 2
  }

  function Window(scope: Scope): nat {
    if scope.OfReturns? then RETURN_WINDOW_MS else DAY_MS
  }

  /** When each send that counts in `scope` was claimed. */
  function Times(table: Table, scope: Scope): map<nat, int> {
    map id | id in table && Spent(table[id]) && InScope(scope, table[id]) :: table[id].sentAt.value
  }

  /** The scopes a send of `kind` by `wallet` from `ip` is checked in, in order. */
  function Checks(wallet: string, ip: Option<string>, kind: Kind): seq<Scope> {
    [OfWallet(wallet), OfAll]
    + (if ip.Some? then [OfIp(ip.value)] else [])
    + (if kind.Reactivate? then [OfReturns(wallet)] else [])
  }

  predicate HasRoom(table: Table, scope: Scope, now: int) {
    |After(Times(table, scope), now - Window(scope))| < Most(scope)
  }

  /** Another row than `except` counts as having created this account of the wallet. */
  predicate AssetAccountPaid(table: Table, wallet: string, mint: string, except: nat) {
    exists id :: id in table && id != except
                 && table[id].wallet == wallet && table[id].assetAccount == Some(mint) && Spent(table[id])
  }

  predicate Claimable(row: Row, message: string, wallet: string, now: int) {
    row.message == message && row.wallet == wallet && row.outcome.Prepared? && row.preparedAt > now - PREPARED_TTL_MS
  }

  /** A claim to send the message of row `id`, with the address it came from. */
  datatype Claim = Claim(id: nat, ip: Option<string>, now: int)

  function Claimed(row: Row, claim: Claim): Row {
    row.(ip := if claim.ip.Some? then claim.ip else row.ip, outcome := Sent, sentAt := Some(claim.now))
  }

  /** A claim the table grants. */
  ghost predicate Granted(table: Table, claim: Claim) {
    && claim.id in table
    && var row := table[claim.id];
       && row.outcome.Prepared? && row.preparedAt > claim.now - PREPARED_TTL_MS
       && (forall scope :: scope in Checks(row.wallet, claim.ip, row.kind) ==> HasRoom(table, scope, claim.now))
       && (row.assetAccount.Some? ==> !AssetAccountPaid(table, row.wallet, row.assetAccount.value, claim.id))
  }

  /** A limit without room, and in how many seconds to try again. */
  datatype Limit = Limit(scope: Scope, retryAfter: int)

  datatype Answer =
    | Sending(claim: Claim)
    | Unknown
    | Limited(limit: Limit)
    | AssetAccountExists

  class Ledger {
    var rows: Table
    var nextId: nat

    /** Every table there has been, and what led from each to the next. */
    ghost var tables: seq<Table>
    ghost var events: seq<Event>

    /** Ids are below the next one, no two rows hold the same message, and the history is one of steps. */
    ghost predicate Valid()
      reads this
    {
      && (forall id :: id in rows ==> id < nextId)
      && DistinctMessages(rows)
      && IsHistory(tables, events) && tables[|events|] == rows
    }

    constructor ()
      ensures Valid() && rows == map[]
    {
      rows, nextId := map[], 0;
      tables, events := [map[]], [];
    }

    /** Adds what has just been done to the history. */
    ghost method Commit(event: Event)
      requires IsHistory(tables, events) && TableStep(tables[|events|], event, rows)
      modifies this`tables, this`events
      ensures IsHistory(tables, events) && tables[|events|] == rows
      ensures events == old(events) + [event]
    {
      tables, events := tables + [rows], events + [event];
    }

    /** The limit was passed: its scope has no room, and its oldest send is in the window until `retryAfter`. */
    ghost predicate Passed(limit: Limit, now: int)
      reads this`rows
    {
      && !HasRoom(rows, limit.scope, now)
      && IsRetry(limit.retryAfter, Times(rows, limit.scope), Window(limit.scope), now)
    }

    /** The first send limit passed, checked in order. */
    method SendLimit(wallet: string, ip: Option<string>, kind: Kind, now: int) returns (limited: Option<Limit>)
      ensures limited.None? <==> forall scope :: scope in Checks(wallet, ip, kind) ==> HasRoom(rows, scope, now)
      ensures limited.Some? ==> Passed(limited.value, now)
      ensures limited.Some? ==>
                exists i :: 0 <= i < |Checks(wallet, ip, kind)| && Checks(wallet, ip, kind)[i] == limited.value.scope
                            && forall j :: 0 <= j < i ==> HasRoom(rows, Checks(wallet, ip, kind)[j], now)
      ensures FirstFull(rows, wallet, ip, kind, now)
              == if limited.Some? then Some(limited.value.scope) else None
    {
      var checks := [OfWallet(wallet), OfAll];
      if ip.Some? {
        checks := checks + [OfIp(ip.value)];
      }
      if kind.Reactivate? {
        checks := checks + [OfReturns(wallet)];
      }
      assert checks == Checks(wallet, ip, kind);
      hide Times, Checks, IsRetry, FirstFull, OfWalletIn, AllIn, OfAddressIn, ReturnsIn;
      for i := 0 to |checks|
        invariant forall j :: 0 <= j < i ==> HasRoom(rows, checks[j], now)
      {
        var times, window := Times(rows, checks[i]), Window(checks[i]);
        if |After(times, now - window)| >= Most(checks[i]) {
          assert checks[i] in checks;
          var seconds := RetryAfter(times, window, now);
          FirstFullIs(rows, wallet, ip, kind, now, i);
          return Some(Limit(checks[i], seconds));
        }
      }
      FirstFullIs(rows, wallet, ip, kind, now, |checks|);
      return None;
    }

    /** Records a built transaction; a message already recorded is left as it is. */
    method RecordPrepared(prepared: Row)
      requires Valid() && prepared.outcome.Prepared? && prepared.sentAt.None?
      modifies this
      ensures Valid()
      ensures if exists id :: id in old(rows) && old(rows)[id].message == prepared.message then rows == old(rows)
              else rows == old(rows)[old(nextId) := prepared] && old(nextId) !in old(rows)
    {
      if !exists id :: id in rows && rows[id].message == prepared.message {
        rows := rows[nextId := prepared];
        Commit(Record(nextId, prepared));
        nextId := nextId + 1;
      }
    }

    /** Claims a prepared message for sending, all under the lock. */
    method ClaimSend(message: string, wallet: string, ip: Option<string>, now: int) returns (r: Answer)
      requires Valid()
      modifies this
      ensures Valid() && nextId == old(nextId)
      ensures match r
              case Sending(claim) =>
                && claim.ip == ip && claim.now == now
                && Granted(old(rows), claim)
                && old(rows)[claim.id].message == message && old(rows)[claim.id].wallet == wallet
                && rows == old(rows)[claim.id := Claimed(old(rows)[claim.id], claim)]
                && events == old(events) + [Send(claim)]
              case Unknown =>
                rows == old(rows) && forall id :: id in rows ==> !Claimable(rows[id], message, wallet, now)
              case Limited(limit) => rows == old(rows) && Passed(limit, now)
              case AssetAccountExists =>
                && rows == old(rows)
                && exists id :: id in rows && Claimable(rows[id], message, wallet, now) && rows[id].assetAccount.Some?
                                && AssetAccountPaid(rows, wallet, rows[id].assetAccount.value, id)
      ensures ClaimDoes(old(rows), message, wallet, ip, now, r, rows)
    {
      hide IsReady, RoomFor, PaidElsewhere, Checks, IsHistory, DistinctMessages, FirstFull;
      ReadyIs(rows, message, wallet, now);
      if !exists id :: id in rows && Claimable(rows[id], message, wallet, now) {
        return Unknown;
      }
      var id :| id in rows && Claimable(rows[id], message, wallet, now);
      var row := rows[id];
      RoomIs(rows, wallet, ip, row.kind, now);
      var limited := SendLimit(wallet, ip, row.kind, now);
      if limited.Some? {
        return Limited(limited.value);
      }
      if row.assetAccount.Some? && AssetAccountPaid(rows, wallet, row.assetAccount.value, id) {
        return AssetAccountExists;
      }
      MarkSent(Claim(id, ip, now));
      return Sending(Claim(id, ip, now));
    }

    /** Marks the row of a claim that is granted as sent. */
    method MarkSent(claim: Claim)
      requires Valid() && Granted(rows, claim)
      modifies this
      ensures Valid() && nextId == old(nextId)
      ensures rows == old(rows)[claim.id := Claimed(old(rows)[claim.id], claim)]
      ensures events == old(events) + [Send(claim)]
    {
      hide IsHistory;
      var row := rows[claim.id];
      rows := rows[claim.id := row.(ip := if claim.ip.Some? then claim.ip else row.ip, outcome := Sent,
                                    sentAt := Some(claim.now))];
      Commit(Send(claim));
    }

    /** Sets the outcome of whatever row has the id. */
    method SettleSend(id: nat, landed: bool)
      requires Valid()
      modifies this
      ensures Valid() && nextId == old(nextId)
      ensures rows == if id in old(rows)
                      then old(rows)[id := old(rows)[id].(outcome := if landed then Landed else Failed)] else old(rows)
      ensures events == if id in old(rows) then old(events) + [Event.Settle(id, landed)] else old(events)
    {
      if id in rows {
        rows := rows[id := rows[id].(outcome := if landed then Landed else Failed)];
        Commit(Event.Settle(id, landed));
      }
    }
  }

  ghost predicate DistinctMessages(table: Table) {
    forall i, j :: i in table && j in table && table[i].message == table[j].message ==> i == j
  }

  // Every interleaving

  /** What the table goes through, one transaction at a time. */
  datatype Event = Record(id: nat, row: Row) | Send(claim: Claim) | Settle(id: nat, landed: bool)

  /** What the methods above do to the table. */
  ghost predicate TableStep(before: Table, event: Event, after: Table) {
    match event
    case Record(id, row) =>
      && id !in before && row.outcome.Prepared? && row.sentAt.None?
      && (forall i :: i in before ==> before[i].message != row.message)
      && after == before[id := row]
    case Send(claim) => Granted(before, claim) && after == before[claim.id := Claimed(before[claim.id], claim)]
    case Settle(id, landed) =>
      && id in before
      && after == before[id := before[id].(outcome := if landed then Landed else Failed)]
  }

  ghost predicate IsHistory(tables: seq<Table>, events: seq<Event>) {
    && |tables| == |events| + 1
    && tables[0] == map[]
    && forall i :: 0 <= i < |events| ==> TableStep(tables[i], events[i], tables[i + 1])
  }

  /** A settlement that lands a claim which had failed, so that it counts again. The route settles its own claim, once.
      */
  predicate Recounts(before: Table, event: Event) {
    event.Settle? && event.landed && event.id in before
    && !Spent(before[event.id]) && before[event.id].sentAt.Some?
  }

  ghost predicate NothingRecounted(tables: seq<Table>, events: seq<Event>)
    requires |tables| == |events| + 1
  {
    forall i :: 0 <= i < |events| ==> !Recounts(tables[i], events[i])
  }

  /** Every claim of the event carries the address it came from. */
  predicate CarriesAddress(event: Event) {
    event.Send? ==> event.claim.ip.Some?
  }

  /** A claim without an address is not for a row of the scope's address; any other claim that counts is checked. */
  predicate IsChecked(before: Table, event: Event, scope: Scope) {
    scope.OfIp? && event.Send? && event.claim.ip.None? && event.claim.id in before ==>
      before[event.claim.id].ip != Some(scope.ip)
  }

  lemma TimesAfterClaim(before: Table, claim: Claim, scope: Scope)
    requires claim.id in before && before[claim.id].outcome.Prepared?
    ensures var after := Times(before[claim.id := Claimed(before[claim.id], claim)], scope);
            && claim.id !in Times(before, scope)
            && after == if InScope(scope, Claimed(before[claim.id], claim))
                        then Times(before, scope)[claim.id := claim.now] else Times(before, scope)
  {
  }

  lemma TimesAfterOther(before: Table, event: Event, after: Table, scope: Scope)
    requires TableStep(before, event, after) && !event.Send? && !Recounts(before, event)
    ensures forall id :: id in Times(after, scope) ==>
                           id in Times(before, scope) && Times(before, scope)[id] == Times(after, scope)[id]
  {
    hide Granted;
  }

  lemma StepKeepsBound(before: Table, event: Event, after: Table, scope: Scope)
    requires TableStep(before, event, after) && IsChecked(before, event, scope) && !Recounts(before, event)
    requires Bounded(Times(before, scope), Window(scope), Most(scope))
    ensures Bounded(Times(after, scope), Window(scope), Most(scope))
  {
    if event.Send? {
      var claim := event.claim;
      TimesAfterClaim(before, claim, scope);
      var row := before[claim.id];
      if InScope(scope, Claimed(row, claim)) {
        assert scope in Checks(row.wallet, claim.ip, row.kind);
        assert HasRoom(before, scope, claim.now);
        AddKeepsBound(Times(before, scope), claim.id, claim.now, Window(scope), Most(scope));
      }
    } else {
      TimesAfterOther(before, event, after, scope);
      FewerKeepBound(Times(before, scope), Times(after, scope), Window(scope), Most(scope));
    }
  }

  /** For every interleaving of builds, claims and settlements that count nothing again, with claim times in any order:
      at most 3 unfailed sends per wallet and 500 in all in any 24 hours, at most 2 returns per wallet in any 30 days,
      and, if no claim without an address is for a row of this one, at most 10 of its rows in any 24 hours. */
  lemma {:induction false} LimitsHold(tables: seq<Table>, events: seq<Event>, n: nat, scope: Scope)
    requires IsHistory(tables, events) && n <= |events| && NothingRecounted(tables, events)
    requires forall i :: 0 <= i < n ==> IsChecked(tables[i], events[i], scope)
    ensures Bounded(Times(tables[n], scope), Window(scope), Most(scope))
  {
    if n == 0 {
      assert Times(tables[0], scope) == map[];
    } else {
      LimitsHold(tables, events, n - 1, scope);
      StepKeepsBound(tables[n - 1], events[n - 1], tables[n], scope);
    }
  }

  // The claims that carry an address

  /** The rows claimed from the address by the first `n` events. */
  ghost function FromIp(events: seq<Event>, n: nat, ip: string): set<nat>
    requires n <= |events|
  {
    if n == 0 then {}
    else
      var event := events[n - 1];
      FromIp(events, n - 1, ip) + if event.Send? && event.claim.ip == Some(ip) then {event.claim.id} else {}
  }

  /** When each of these rows that counts was claimed. */
  ghost function ClaimedTimes(table: Table, ids: set<nat>): map<nat, int> {
    map id | id in table && id in ids && Spent(table[id]) :: table[id].sentAt.value
  }

  /** A row claimed from an address keeps it and is not claimed again. */
  lemma {:induction false} ClaimedRowsStay(tables: seq<Table>, events: seq<Event>, n: nat, ip: string)
    requires IsHistory(tables, events) && n <= |events|
    ensures forall id :: id in FromIp(events, n, ip) ==>
                           id in tables[n] && !tables[n][id].outcome.Prepared? && tables[n][id].ip == Some(ip)
  {
    if n > 0 {
      ClaimedRowsStay(tables, events, n - 1, ip);
      assert TableStep(tables[n - 1], events[n - 1], tables[n]);
    }
  }

  /** Whatever else is built, claimed and settled, with or without an address, at most 10 unfailed claims that carry an
      address are of any 24 hours. */
  lemma {:induction false} AddressClaimsHold(tables: seq<Table>, events: seq<Event>, n: nat, ip: string)
    requires IsHistory(tables, events) && n <= |events| && NothingRecounted(tables, events)
    ensures Bounded(ClaimedTimes(tables[n], FromIp(events, n, ip)), DAY_MS, 10)
  {
    if n == 0 {
      assert ClaimedTimes(tables[0], FromIp(events, 0, ip)) == map[];
    } else {
      AddressClaimsHold(tables, events, n - 1, ip);
      ClaimedRowsStay(tables, events, n - 1, ip);
      ClaimsAfterStep(tables[n - 1], events[n - 1], tables[n], FromIp(events, n - 1, ip), ip);
    }
  }

  lemma ClaimsAfterStep(before: Table, event: Event, after: Table, ids: set<nat>, ip: string)
    requires TableStep(before, event, after) && !Recounts(before, event)
    requires forall id :: id in ids ==> id in before && !before[id].outcome.Prepared? && before[id].ip == Some(ip)
    requires Bounded(ClaimedTimes(before, ids), DAY_MS, 10)
    ensures var claimed := if event.Send? && event.claim.ip == Some(ip) then {event.claim.id} else {};
            Bounded(ClaimedTimes(after, ids + claimed), DAY_MS, 10)
  {
    var times := ClaimedTimes(before, ids);
    if event.Send? && event.claim.ip == Some(ip) {
      var claim := event.claim;
      assert ClaimedTimes(after, ids + {claim.id}) == times[claim.id := claim.now];
      assert OfIp(ip) in Checks(before[claim.id].wallet, claim.ip, before[claim.id].kind);
      assert HasRoom(before, OfIp(ip), claim.now);
      SmallerSet(After(times, claim.now - DAY_MS), After(Times(before, OfIp(ip)), claim.now - DAY_MS));
      AddKeepsBound(times, claim.id, claim.now, DAY_MS, 10);
    } else {
      FewerKeepBound(times, ClaimedTimes(after, ids + {}), DAY_MS, 10);
    }
  }

  /** A claim keeps an address's bound exactly if it carries an address, or its row has none of that address, or the
      windows it falls in have room: without an address nothing is checked, and the row keeps the one it was built
      for. */
  lemma AddressBoundIff(table: Table, claim: Claim, ip: string)
    requires Granted(table, claim)
    requires Bounded(Times(table, OfIp(ip)), DAY_MS, 10)
    ensures var after := table[claim.id := Claimed(table[claim.id], claim)];
            Bounded(Times(after, OfIp(ip)), DAY_MS, 10)
            <==> claim.ip.Some? || table[claim.id].ip != Some(ip)
                 || forall from :: from < claim.now <= from + DAY_MS ==>
                                     |Within(Times(table, OfIp(ip)), from, DAY_MS)| < 10
  {
    var after := table[claim.id := Claimed(table[claim.id], claim)];
    TimesAfterClaim(table, claim, OfIp(ip));
    if claim.ip.Some? {
      StepKeepsBound(table, Send(claim), after, OfIp(ip));
    } else if table[claim.id].ip == Some(ip) {
      AddKeepsBoundIff(Times(table, OfIp(ip)), claim.id, claim.now, DAY_MS, 10);
    }
  }

  /** A settlement that makes a claim count again keeps a bound exactly if the claim is outside the scope, or the
      windows its time falls in have room. */
  lemma RecountKeepsBoundIff(before: Table, event: Event, after: Table, scope: Scope)
    requires TableStep(before, event, after) && Recounts(before, event)
    requires Bounded(Times(before, scope), Window(scope), Most(scope))
    ensures var row := before[event.id];
            Bounded(Times(after, scope), Window(scope), Most(scope))
            <==> !InScope(scope, row)
                 || forall from :: from < row.sentAt.value <= from + Window(scope) ==>
                                     |Within(Times(before, scope), from, Window(scope))| < Most(scope)
  {
    var row := before[event.id];
    if InScope(scope, row) {
      assert Times(after, scope) == Times(before, scope)[event.id := row.sentAt.value];
      AddKeepsBoundIff(Times(before, scope), event.id, row.sentAt.value, Window(scope), Most(scope));
    } else {
      assert Times(after, scope) == Times(before, scope);
    }
  }

  // Once only

  lemma {:induction false} RowsStay(tables: seq<Table>, events: seq<Event>, i: nat, j: nat, id: nat)
    requires IsHistory(tables, events) && i <= j < |tables| && id in tables[i]
    ensures id in tables[j] && tables[j][id].message == tables[i][id].message
    ensures !tables[i][id].outcome.Prepared? ==> !tables[j][id].outcome.Prepared?
    decreases j - i
  {
    if i < j {
      RowsStay(tables, events, i, j - 1, id);
      assert TableStep(tables[j - 1], events[j - 1], tables[j]);
    }
  }

  lemma {:induction false} MessagesStayDistinct(tables: seq<Table>, events: seq<Event>, n: nat)
    requires IsHistory(tables, events) && n < |tables|
    ensures DistinctMessages(tables[n])
  {
    if n > 0 {
      MessagesStayDistinct(tables, events, n - 1);
      assert TableStep(tables[n - 1], events[n - 1], tables[n]);
    }
  }

  /** Each message is sent at most once. */
  lemma MessageSentOnce(tables: seq<Table>, events: seq<Event>, i: nat, j: nat)
    requires IsHistory(tables, events) && i < j < |events| && events[i].Send? && events[j].Send?
    ensures events[i].claim.id in tables[i] && events[j].claim.id in tables[j]
    ensures tables[i][events[i].claim.id].message != tables[j][events[j].claim.id].message
  {
    var first, second := events[i].claim.id, events[j].claim.id;
    assert TableStep(tables[i], events[i], tables[i + 1]) && TableStep(tables[j], events[j], tables[j + 1]);
    RowsStay(tables, events, i + 1, j, first);
    MessagesStayDistinct(tables, events, j);
  }

  /** A row that counts: sent and not known to have failed. */
  predicate IsSent(row: Row) {
    (row.outcome == Sent || row.outcome == Landed) && row.sentAt.Some?
  }

  /** At most one unfailed send creates each wallet's account in each asset. */
  ghost predicate PaidOnce(table: Table) {
    forall i, j | i in table && j in table && i != j && IsSent(table[i]) && IsSent(table[j]) ::
      table[i].wallet == table[j].wallet && table[i].assetAccount.Some? ==>
        table[i].assetAccount != table[j].assetAccount
  }

  lemma {:induction false} AssetAccountsPaidOnce(tables: seq<Table>, events: seq<Event>, n: nat)
    requires IsHistory(tables, events) && n < |tables| && NothingRecounted(tables, events)
    ensures PaidOnce(tables[n])
  {
    if n > 0 {
      AssetAccountsPaidOnce(tables, events, n - 1);
      assert TableStep(tables[n - 1], events[n - 1], tables[n]);
    }
  }

  // The limits on the rows themselves

  /** The rows that count and were claimed after `from`, and no later than `until` if that is given. */
  predicate SentIn(row: Row, from: int, until: Option<int>) {
    IsSent(row) && from < row.sentAt.value && (until.Some? ==> row.sentAt.value <= until.value)
  }

  function OfWalletIn(rows: Table, wallet: string, from: int, until: Option<int>): set<nat> {
    set id | id in rows && rows[id].wallet == wallet && SentIn(rows[id], from, until)
  }

  function AllIn(rows: Table, from: int, until: Option<int>): set<nat> {
    set id | id in rows && SentIn(rows[id], from, until)
  }

  function OfAddressIn(rows: Table, ip: string, from: int, until: Option<int>): set<nat> {
    set id | id in rows && rows[id].ip == Some(ip) && SentIn(rows[id], from, until)
  }

  function ReturnsIn(rows: Table, wallet: string, from: int, until: Option<int>): set<nat> {
    set id | id in rows && rows[id].wallet == wallet && rows[id].kind == Reactivate && SentIn(rows[id], from, until)
  }

  /** The counts of a window are the sets of rows in it. */
  lemma WindowsAre(rows: Table, from: int)
    ensures forall wallet ::
              Within(Times(rows, OfWallet(wallet)), from, Window(OfWallet(wallet)))
              == OfWalletIn(rows, wallet, from, Some(from + 86_400_000))
    ensures Within(Times(rows, OfAll), from, Window(OfAll)) == AllIn(rows, from, Some(from + 86_400_000))
    ensures forall ip ::
              Within(Times(rows, OfIp(ip)), from, Window(OfIp(ip)))
              == OfAddressIn(rows, ip, from, Some(from + 86_400_000))
    ensures forall wallet ::
              Within(Times(rows, OfReturns(wallet)), from, Window(OfReturns(wallet)))
              == ReturnsIn(rows, wallet, from, Some(from + 2_592_000_000))
  {
  }

  /** In every 24 hours at most three of a wallet's sends count and 500 in all, and in every 30 days two of its
      returns. */
  lemma RowsWithinLimits(tables: seq<Table>, events: seq<Event>, n: nat, wallet: string, from: int)
    requires IsHistory(tables, events) && n <= |events| && NothingRecounted(tables, events)
    ensures |OfWalletIn(tables[n], wallet, from, Some(from + 86_400_000))| <= 3
    ensures |AllIn(tables[n], from, Some(from + 86_400_000))| <= 500
    ensures |ReturnsIn(tables[n], wallet, from, Some(from + 2_592_000_000))| <= 2
  {
    hide Times, Within, OfWalletIn, AllIn, ReturnsIn, OfAddressIn, TableStep;
    LimitsHold(tables, events, n, OfWallet(wallet));
    LimitsHold(tables, events, n, OfAll);
    LimitsHold(tables, events, n, OfReturns(wallet));
    WindowsAre(tables[n], from);
    assert |Within(Times(tables[n], OfWallet(wallet)), from, Window(OfWallet(wallet)))| <= 3;
    assert |Within(Times(tables[n], OfAll), from, Window(OfAll))| <= 500;
    assert |Within(Times(tables[n], OfReturns(wallet)), from, Window(OfReturns(wallet)))| <= 2;
  }

  /** In every 24 hours at most ten of the claims that carry an address count, and at most ten of its rows if no claim
      without an address was for one of them. */
  lemma AddressWithinLimits(tables: seq<Table>, events: seq<Event>, n: nat, ip: string, from: int)
    requires IsHistory(tables, events) && n <= |events| && NothingRecounted(tables, events)
    ensures |FromAddressIn(tables[n], FromIp(events, n, ip), from, from + 86_400_000)| <= 10
    ensures NoneUnchecked(tables, events, n, ip) ==>
              |OfAddressIn(tables[n], ip, from, Some(from + 86_400_000))| <= 10
  {
    hide Times, OfWalletIn, AllIn, ReturnsIn, OfAddressIn, TableStep;
    AddressClaimsHold(tables, events, n, ip);
    assert Within(ClaimedTimes(tables[n], FromIp(events, n, ip)), from, DAY_MS)
        == FromAddressIn(tables[n], FromIp(events, n, ip), from, from + 86_400_000);
    WindowsAre(tables[n], from);
    if NoneUnchecked(tables, events, n, ip) {
      LimitsHold(tables, events, n, OfIp(ip));
      assert |Within(Times(tables[n], OfIp(ip)), from, Window(OfIp(ip)))| <= 10;
    }
  }

  /** None of the first `n` claims was for one of the address's rows without carrying an address. */
  ghost predicate NoneUnchecked(tables: seq<Table>, events: seq<Event>, n: nat, ip: string)
    requires n <= |events| && n <= |tables|
  {
    forall i :: 0 <= i < n && events[i].Send? && events[i].claim.ip.None? && events[i].claim.id in tables[i] ==>
                  tables[i][events[i].claim.id].ip != Some(ip)
  }

  function FromAddressIn(rows: Table, claimed: set<nat>, from: int, until: int): set<nat> {
    set id | id in rows && id in claimed && SentIn(rows[id], from, Some(until))
  }

  /** What holds of the table after any claims and settlements. */
  lemma TableWithinLimits(ledger: Ledger, wallet: string, ip: string, from: int)
    requires ledger.Valid() && NothingRecounted(ledger.tables, ledger.events)
    ensures |OfWalletIn(ledger.rows, wallet, from, Some(from + 86_400_000))| <= 3
    ensures |AllIn(ledger.rows, from, Some(from + 86_400_000))| <= 500
    ensures |ReturnsIn(ledger.rows, wallet, from, Some(from + 2_592_000_000))| <= 2
    ensures var claimed := FromIp(ledger.events, |ledger.events|, ip);
            |FromAddressIn(ledger.rows, claimed, from, from + 86_400_000)| <= 10
    ensures PaidOnce(ledger.rows)
  {
    hide OfWalletIn, AllIn, ReturnsIn, OfAddressIn, FromAddressIn, TableStep, FromIp, PaidOnce;
    var n := |ledger.events|;
    RowsWithinLimits(ledger.tables, ledger.events, n, wallet, from);
    AddressWithinLimits(ledger.tables, ledger.events, n, ip, from);
    AssetAccountsPaidOnce(ledger.tables, ledger.events, n);
  }

  /** Room for one more send: fewer than the limits, counted from a day or thirty before now. */
  predicate RoomFor(rows: Table, wallet: string, ip: Option<string>, kind: Kind, now: int) {
    && |OfWalletIn(rows, wallet, now - 86_400_000, None)| < 3
    && |AllIn(rows, now - 86_400_000, None)| < 500
    && (ip.Some? ==> |OfAddressIn(rows, ip.value, now - 86_400_000, None)| < 10)
    && (kind == Reactivate ==> |ReturnsIn(rows, wallet, now - 2_592_000_000, None)| < 2)
  }

  /** A row built for this message and wallet within the last two minutes and not sent yet. */
  predicate IsReady(row: Row, message: string, wallet: string, now: int) {
    row.message == message && row.wallet == wallet && row.outcome == Prepared && now - row.preparedAt < 120_000
  }

  /** Another row that counts creates the same account of the same wallet. */
  predicate PaidElsewhere(rows: Table, id: nat)
    requires id in rows
  {
    rows[id].assetAccount.Some?
    && exists other :: other in rows && other != id && IsSent(rows[other]) && rows[other].wallet == rows[id].wallet
                       && rows[other].assetAccount == rows[id].assetAccount
  }

  /** What a claim answers and leaves, in terms of the rows: a ready row is sent when there is room for it and its
      account is not paid for elsewhere, and otherwise nothing changes and the answer says why. */
  ghost predicate ClaimDoes(
    before: Table, message: string, wallet: string, ip: Option<string>, now: int, r: Answer, after: Table)
  {
    match r
    case Sending(claim) =>
      && claim.id in before && IsReady(before[claim.id], message, wallet, now)
      && RoomFor(before, wallet, ip, before[claim.id].kind, now) && !PaidElsewhere(before, claim.id)
      && after == before[claim.id := before[claim.id].(
                    ip := if ip.Some? then ip else before[claim.id].ip, outcome := Sent, sentAt := Some(now))]
    case Unknown => after == before && forall id :: id in before ==> !IsReady(before[id], message, wallet, now)
    case Limited(_) =>
      after == before && exists id :: id in before && IsReady(before[id], message, wallet, now)
                                      && !RoomFor(before, wallet, ip, before[id].kind, now)
    case AssetAccountExists =>
      after == before && exists id :: id in before && IsReady(before[id], message, wallet, now)
                                      && RoomFor(before, wallet, ip, before[id].kind, now) && PaidElsewhere(before, id)
  }

  lemma ReadyIs(rows: Table, message: string, wallet: string, now: int)
    ensures forall id :: id in rows ==>
              (Claimable(rows[id], message, wallet, now) <==> IsReady(rows[id], message, wallet, now))
    ensures forall id :: id in rows && rows[id].wallet == wallet ==>
              (PaidElsewhere(rows, id)
               <==> rows[id].assetAccount.Some? && AssetAccountPaid(rows, wallet, rows[id].assetAccount.value, id))
  {
  }

  /** The first limit without room, in the order they are asked. */
  function FirstFull(rows: Table, wallet: string, ip: Option<string>, kind: Kind, now: int): Option<Scope> {
    if |OfWalletIn(rows, wallet, now - 86_400_000, None)| >= 3 then Some(OfWallet(wallet))
    else if |AllIn(rows, now - 86_400_000, None)| >= 500 then Some(OfAll)
    else if ip.Some? && |OfAddressIn(rows, ip.value, now - 86_400_000, None)| >= 10 then Some(OfIp(ip.value))
    else if kind == Reactivate && |ReturnsIn(rows, wallet, now - 2_592_000_000, None)| >= 2 then Some(OfReturns(wallet))
    else None
  }

  lemma FirstFullIs(rows: Table, wallet: string, ip: Option<string>, kind: Kind, now: int, i: nat)
    requires var checks := Checks(wallet, ip, kind);
             && i <= |checks| && (forall j :: 0 <= j < i ==> HasRoom(rows, checks[j], now))
             && (i < |checks| ==> !HasRoom(rows, checks[i], now))
    ensures FirstFull(rows, wallet, ip, kind, now)
            == if i < |Checks(wallet, ip, kind)| then Some(Checks(wallet, ip, kind)[i]) else None
  {
    hide Times, After, OfWalletIn, AllIn, ReturnsIn, OfAddressIn, HasRoom;
    CountsAre(rows, wallet, now);
    var checks := Checks(wallet, ip, kind);
    assert checks[0] == OfWallet(wallet) && checks[1] == OfAll;
    assert ip.Some? ==> checks[2] == OfIp(ip.value);
    assert kind.Reactivate? ==> checks[|checks| - 1] == OfReturns(wallet);
  }

  lemma RoomIs(rows: Table, wallet: string, ip: Option<string>, kind: Kind, now: int)
    ensures (forall scope :: scope in Checks(wallet, ip, kind) ==> HasRoom(rows, scope, now))
            <==> RoomFor(rows, wallet, ip, kind, now)
  {
    CountsAre(rows, wallet, now);
    hide Times, After, OfWalletIn, AllIn, ReturnsIn, OfAddressIn;
    var checks := Checks(wallet, ip, kind);
    assert checks[0] == OfWallet(wallet) && checks[1] == OfAll;
    assert ip.Some? ==> checks[2] == OfIp(ip.value);
    assert kind.Reactivate? ==> checks[|checks| - 1] == OfReturns(wallet);
  }

  lemma CountsAre(rows: Table, wallet: string, now: int)
    ensures HasRoom(rows, OfWallet(wallet), now) <==> |OfWalletIn(rows, wallet, now - 86_400_000, None)| < 3
    ensures HasRoom(rows, OfAll, now) <==> |AllIn(rows, now - 86_400_000, None)| < 500
    ensures forall ip :: HasRoom(rows, OfIp(ip), now) <==> |OfAddressIn(rows, ip, now - 86_400_000, None)| < 10
    ensures HasRoom(rows, OfReturns(wallet), now) <==> |ReturnsIn(rows, wallet, now - 2_592_000_000, None)| < 2
  {
    assert After(Times(rows, OfWallet(wallet)), now - 86_400_000) == OfWalletIn(rows, wallet, now - 86_400_000, None);
    assert After(Times(rows, OfAll), now - 86_400_000) == AllIn(rows, now - 86_400_000, None);
    forall ip
      ensures After(Times(rows, OfIp(ip)), now - 86_400_000) == OfAddressIn(rows, ip, now - 86_400_000, None)
    {
    }
    assert After(Times(rows, OfReturns(wallet)), now - 2_592_000_000)
        == ReturnsIn(rows, wallet, now - 2_592_000_000, None);
  }

  // A history in which the address limit is passed

  const ADDRESS := "203.0.113.7"

  /** The `i`th of many wallets, each with a message built for the one address. */
  function Built(i: nat): Row {
    Row(Name(i), Some(ADDRESS), Enroll, Name(i), None, 0, None, Prepared)
  }

  function Name(i: nat): string {
    seq(i, _ => 'w')
  }

  function SentFrom(i: nat): Row {
    Claimed(Built(i), Claim(i, Some(ADDRESS), 0))
  }

  function BuiltAndSent(built: nat, sent: nat): Table {
    map id: nat | id < built :: if id < sent then SentFrom(id) else Built(id)
  }

  /** Eleven wallets at one address build, ten send from it, and the eleventh's claim carries none. */
  function CrowdedTable(i: nat): Table {
    if i <= 11 then BuiltAndSent(i, 0) else BuiltAndSent(11, i - 11)
  }

  function CrowdedEvent(i: nat): Event {
    if i < 11 then Record(i, Built(i)) else Send(Claim(i - 11, if i < 21 then Some(ADDRESS) else None, 0))
  }

  /** The address limit can be passed: the row keeps the address it was built for, where the claim's was not checked. */
  lemma AddressBoundBreaks() returns (tables: seq<Table>, events: seq<Event>)
    ensures IsHistory(tables, events) && NothingRecounted(tables, events) && |events| == 22
    ensures forall i :: 0 <= i < 21 ==> CarriesAddress(events[i])
    ensures !Bounded(Times(tables[22], OfIp(ADDRESS)), DAY_MS, 10)
  {
    tables, events := seq(23, i requires 0 <= i => CrowdedTable(i)), seq(22, i requires 0 <= i => CrowdedEvent(i));
    assert tables[0] == map[];
    hide TableStep, BuiltAndSent;
    forall i | 0 <= i < 22 ensures TableStep(tables[i], events[i], tables[i + 1]) {
      if i < 11 {
        BuildStep(i);
      } else {
        SendStep(i - 11);
      }
    }
    CrowdedWindow();
  }

  lemma CrowdedWindow()
    ensures |Within(Times(BuiltAndSent(11, 11), OfIp(ADDRESS)), -1, DAY_MS)| == 11
  {
    var crowded := Within(Times(BuiltAndSent(11, 11), OfIp(ADDRESS)), -1, DAY_MS);
    forall id: nat ensures id in crowded <==> id in First(11) {
      FirstIn(11, id);
    }
    assert crowded == First(11);
    FirstCount(11);
  }

  lemma BuildStep(i: nat)
    requires i < 11
    ensures TableStep(CrowdedTable(i), CrowdedEvent(i), CrowdedTable(i + 1))
  {
    forall j: nat | j < i ensures Built(j).message != Built(i).message {
      NamesDiffer(i, j);
    }
    assert CrowdedTable(i + 1) == CrowdedTable(i)[i := Built(i)];
  }

  lemma NamesDiffer(i: nat, j: nat)
    requires i != j
    ensures Name(i) != Name(j)
  {
    assert |Name(i)| == i && |Name(j)| == j;
  }

  lemma SendStep(k: nat)
    requires k < 11
    ensures TableStep(CrowdedTable(k + 11), CrowdedEvent(k + 11), CrowdedTable(k + 12))
  {
    hide Granted, Name;
    var table, claim := BuiltAndSent(11, k), CrowdedEvent(k + 11).claim;
    CrowdedGrant(k);
    assert BuiltAndSent(11, k + 1) == table[k := Claimed(table[k], claim)];
  }

  lemma CrowdedGrant(k: nat)
    requires k < 11
    ensures Granted(BuiltAndSent(11, k), CrowdedEvent(k + 11).claim)
  {
    hide HasRoom, Name, AssetAccountPaid;
    CrowdedRoom(k);
    assert BuiltAndSent(11, k)[k] == Built(k);
  }

  lemma CrowdedRoom(k: nat)
    requires k < 11
    ensures HasRoom(BuiltAndSent(11, k), OfWallet(Name(k)), 0)
    ensures HasRoom(BuiltAndSent(11, k), OfAll, 0)
    ensures k < 10 ==> HasRoom(BuiltAndSent(11, k), OfIp(ADDRESS), 0)
  {
    RoomWithin(k, OfAll);
    if k < 10 {
      RoomWithin(k, OfIp(ADDRESS));
    }
    NoneOfWallet(k);
    hide Times, BuiltAndSent, Name, After;
  }

  lemma RoomWithin(k: nat, scope: Scope)
    requires k < 11 && k < Most(scope) && !scope.OfReturns?
    ensures HasRoom(BuiltAndSent(11, k), scope, 0)
  {
    RecentAreSent(k, scope);
    FirstCount(k);
    hide Times, BuiltAndSent, First, Name;
    SmallerSet(After(Times(BuiltAndSent(11, k), scope), -86_400_000), First(k));
  }

  lemma RecentAreSent(k: nat, scope: Scope)
    requires k < 11
    ensures After(Times(BuiltAndSent(11, k), scope), -86_400_000) <= First(k)
  {
    hide Name;
    forall id: nat | id in After(Times(BuiltAndSent(11, k), scope), -86_400_000) ensures id in First(k) {
      FirstIn(k, id);
    }
  }

  lemma NoneOfWallet(k: nat)
    requires k < 11
    ensures After(Times(BuiltAndSent(11, k), OfWallet(Name(k))), -86_400_000) == {}
  {
    forall id: nat ensures id !in Times(BuiltAndSent(11, k), OfWallet(Name(k))) {
      if id < k {
        NamesDiffer(id, k);
        hide Name;
      }
    }
  }

  function First(n: nat): set<nat> {
    if n == 0 then {} else First(n - 1) + {n - 1}
  }

  lemma {:induction false} FirstIn(n: nat, id: nat)
    ensures id in First(n) <==> id < n
  {
    if n > 0 {
      FirstIn(n - 1, id);
    }
  }

  lemma {:induction false} FirstCount(n: nat)
    ensures |First(n)| == n
  {
    if n > 0 {
      FirstCount(n - 1);
      FirstIn(n - 1, n - 1);
    }
  }
}
