/** The devnet faucet's grants: reserved under a lock, released when the mint fails. */
module Faucet {
  import opened Numbers
  import opened SlidingWindow

  const FAUCET_WINDOW_MS := 24 * 60 * 60 * 1000

  datatype Grant = Grant(wallet: string, ip: Option<string>, grantedAt: int, signature: Option<string>)

  datatype Key = OfWallet(wallet: string) | OfIp(ip: string)

  predicate HasKey(key: Key, grant: Grant) {
    match key
    case OfWallet(wallet) => grant.wallet == wallet
    case OfIp(ip) => grant.ip == Some(ip)
  }

  function Most(key: Key): nat {
    if key.OfWallet? then 1 else 3
  }

  function GrantTimes(grants: map<nat, Grant>, key: Key): map<nat, int> {
    map id | id in grants && HasKey(key, grants[id]) :: grants[id].grantedAt
  }

  predicate HasRoom(grants: map<nat, Grant>, key: Key, now: int) {
    |After(GrantTimes(grants, key), now - FAUCET_WINDOW_MS)| < Most(key)
  }

  /** A grant's id, or in how many seconds to try again. */
  datatype Reservation = Reserved(id: nat) | TryAgain(seconds: int)

  class Grants {
    var grants: map<nat, Grant>
    var nextId: nat

    /** Every window of every wallet and address is within its limit. */
    ghost predicate Valid()
      reads this
    {
      && (forall id :: id in grants ==> id < nextId)
      && (forall key :: Bounded(GrantTimes(grants, key), FAUCET_WINDOW_MS, Most(key)))
    }

    constructor ()
      ensures Valid() && grants == map[]
    {
      grants, nextId := map[], 0;
      new;
      forall key ensures Bounded(GrantTimes(grants, key), FAUCET_WINDOW_MS, Most(key)) {
        assert GrantTimes(grants, key) == map[];
      }
    }

    /** In how many seconds to try again, for the first of the wallet and the address without room; none if both have.
        */
    method Limited(wallet: string, ip: Option<string>, now: int) returns (limited: Option<int>)
      ensures limited.None?
              <==> HasRoom(grants, OfWallet(wallet), now) && (ip.Some? ==> HasRoom(grants, OfIp(ip.value), now))
      ensures limited.Some? ==>
                var walletFirst := !HasRoom(grants, OfWallet(wallet), now) || ip.None?;
                var key := if walletFirst then OfWallet(wallet) else OfIp(ip.value);
                IsRetry(limited.value, GrantTimes(grants, key), FAUCET_WINDOW_MS, now)
    {
      hide GrantTimes, IsRetry, After;
      var keys := [OfWallet(wallet)] + if ip.Some? then [OfIp(ip.value)] else [];
      assert keys[0] == OfWallet(wallet) && (ip.Some? ==> keys[1] == OfIp(ip.value));
      for i := 0 to |keys|
        invariant forall j :: 0 <= j < i ==> HasRoom(grants, keys[j], now)
      {
        if |After(GrantTimes(grants, keys[i]), now - FAUCET_WINDOW_MS)| >= Most(keys[i]) {
          var seconds := RetryAfter(GrantTimes(grants, keys[i]), FAUCET_WINDOW_MS, now);
          return Some(seconds);
        }
      }
      return None;
    }

    /** Reserves a grant if wallet and address have room for one, and says otherwise when to try again, for the first of
        the two without. */
    method Reserve(wallet: string, ip: Option<string>, now: int) returns (r: Reservation)
      requires Valid()
      modifies this
      ensures Valid()
      ensures if HasRoom(old(grants), OfWallet(wallet), now)
                 && (ip.Some? ==> HasRoom(old(grants), OfIp(ip.value), now)) then
                && r == Reserved(old(nextId)) && old(nextId) !in old(grants)
                && grants == old(grants)[old(nextId) := Grant(wallet, ip, now, None)]
              else
                && grants == old(grants) && r.TryAgain?
                && var walletFirst := !HasRoom(grants, OfWallet(wallet), now) || ip.None?;
                   var key := if walletFirst then OfWallet(wallet) else OfIp(ip.value);
                   IsRetry(r.seconds, GrantTimes(grants, key), FAUCET_WINDOW_MS, now)
      ensures r.Reserved? <==> RoomFor(old(grants), wallet, ip, now)
    {
      hide GrantTimes, IsRetry, RoomFor;
      RoomIs(grants, wallet, ip, now);
      var limited := Limited(wallet, ip, now);
      if limited.Some? {
        return TryAgain(limited.value);
      }
      var grant := Grant(wallet, ip, now, None);
      forall key ensures Bounded(GrantTimes(grants[nextId := grant], key), FAUCET_WINDOW_MS, Most(key)) {
        GrantKeepsBound(grants, nextId, grant, key);
      }
      grants := grants[nextId := grant];
      r := Reserved(nextId);
      nextId := nextId + 1;
    }

    /** Ends a reservation: a mint that landed leaves its signature, one that failed frees the grant. */
    method Settle(id: nat, signature: Option<string>)
      requires Valid()
      modifies this
      ensures Valid() && nextId == old(nextId)
      ensures grants == if id !in old(grants) then old(grants)
                        else if signature.Some? then old(grants)[id := old(grants)[id].(signature := signature)]
                        else old(grants) - {id}
    {
      if id in grants {
        ghost var before := grants;
        if signature.Some? {
          grants := grants[id := grants[id].(signature := signature)];
        } else {
          grants := grants - {id};
        }
        forall key ensures Bounded(GrantTimes(grants, key), FAUCET_WINDOW_MS, Most(key)) {
          FewerKeepBound(GrantTimes(before, key), GrantTimes(grants, key), FAUCET_WINDOW_MS, Most(key));
        }
      }
    }
  }

  lemma GrantKeepsBound(grants: map<nat, Grant>, id: nat, grant: Grant, key: Key)
    requires id !in grants
    requires Bounded(GrantTimes(grants, key), FAUCET_WINDOW_MS, Most(key))
    requires HasKey(key, grant) ==> |After(GrantTimes(grants, key), grant.grantedAt - FAUCET_WINDOW_MS)| < Most(key)
    ensures Bounded(GrantTimes(grants[id := grant], key), FAUCET_WINDOW_MS, Most(key))
  {
    if HasKey(key, grant) {
      assert GrantTimes(grants[id := grant], key) == GrantTimes(grants, key)[id := grant.grantedAt];
      AddKeepsBound(GrantTimes(grants, key), id, grant.grantedAt, FAUCET_WINDOW_MS, Most(key));
    } else {
      assert GrantTimes(grants[id := grant], key) == GrantTimes(grants, key);
    }
  }

  // The limits on the grants themselves

  /** The wallet's grants after `from`, and no later than `until` if that is given. */
  function OfWalletIn(grants: map<nat, Grant>, wallet: string, from: int, until: Option<int>): set<nat> {
    set id | id in grants && grants[id].wallet == wallet && from < grants[id].grantedAt
             && (until.Some? ==> grants[id].grantedAt <= until.value)
  }

  function OfAddressIn(grants: map<nat, Grant>, ip: string, from: int, until: Option<int>): set<nat> {
    set id | id in grants && grants[id].ip == Some(ip) && from < grants[id].grantedAt
             && (until.Some? ==> grants[id].grantedAt <= until.value)
  }

  /** In every 24 hours a wallet has at most one grant and an address three, reserved or landed. */
  lemma GrantsWithinLimits(g: Grants, wallet: string, ip: string, from: int)
    requires g.Valid()
    ensures |OfWalletIn(g.grants, wallet, from, Some(from + 86_400_000))| <= 1
    ensures |OfAddressIn(g.grants, ip, from, Some(from + 86_400_000))| <= 3
  {
    assert Bounded(GrantTimes(g.grants, OfWallet(wallet)), FAUCET_WINDOW_MS, Most(OfWallet(wallet)));
    assert Within(GrantTimes(g.grants, OfWallet(wallet)), from, FAUCET_WINDOW_MS)
        == OfWalletIn(g.grants, wallet, from, Some(from + 86_400_000));
    assert Within(GrantTimes(g.grants, OfIp(ip)), from, FAUCET_WINDOW_MS)
        == OfAddressIn(g.grants, ip, from, Some(from + 86_400_000));
    assert Bounded(GrantTimes(g.grants, OfIp(ip)), FAUCET_WINDOW_MS, Most(OfIp(ip)));
  }

  /** Room for one more grant, counted from a day before now. */
  predicate RoomFor(grants: map<nat, Grant>, wallet: string, ip: Option<string>, now: int) {
    && |OfWalletIn(grants, wallet, now - 86_400_000, None)| < 1
    && (ip.Some? ==> |OfAddressIn(grants, ip.value, now - 86_400_000, None)| < 3)
  }

  lemma RoomIs(grants: map<nat, Grant>, wallet: string, ip: Option<string>, now: int)
    ensures HasRoom(grants, OfWallet(wallet), now) && (ip.Some? ==> HasRoom(grants, OfIp(ip.value), now))
            <==> RoomFor(grants, wallet, ip, now)
  {
    assert After(GrantTimes(grants, OfWallet(wallet)), now - FAUCET_WINDOW_MS)
        == OfWalletIn(grants, wallet, now - 86_400_000, None);
    if ip.Some? {
      assert After(GrantTimes(grants, OfIp(ip.value)), now - FAUCET_WINDOW_MS)
          == OfAddressIn(grants, ip.value, now - 86_400_000, None);
    }
  }
}
