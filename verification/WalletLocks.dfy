/** The wallet's coin reservations (`swap_locks` and the coin cache of `src/wallet/api.rs`). */
module WalletLocks {
  import opened MakerState

  /** Who a reservation belongs to: coinswaps and Lightning swaps have ids of their own. */
  datatype Key = Onchain(id: SwapId) | Lightning(id: SwapId)

  type Locks = map<Key, set<OutPoint>>

  datatype Wallet = Wallet(locks: Locks, cache: set<OutPoint>)

  function Inputs(plan: seq<SplitPlan>): set<OutPoint> {
    set i, coin | 0 <= i < |plan| && coin in plan[i].utxos :: coin
  }

  function Coins(outpoints: seq<OutPoint>): set<OutPoint> {
    set coin | coin in outpoints
  }

  lemma CoinsNext(outpoints: seq<OutPoint>, i: nat)
    requires i < |outpoints|
    ensures Coins(outpoints[..i + 1]) == Coins(outpoints[..i]) + {outpoints[i]}
  {
  }

  function Reserved(locks: Locks): set<OutPoint> {
    set key, coin | key in locks && coin in locks[key] :: coin
  }

  function HeldBy(locks: Locks, key: Key): set<OutPoint> {
    if key in locks then locks[key] else {}
  }

  /** The coins planning may pick: known to the wallet and held by no swap. */
  function Plannable(wallet: Wallet): set<OutPoint> {
    wallet.cache - Reserved(wallet.locks)
  }

  function Reserve(wallet: Wallet, key: Key, coins: set<OutPoint>): Wallet {
    wallet.(locks := wallet.locks[key := HeldBy(wallet.locks, key) + coins])
  }

  /** Reserves all of `coins` or nothing. */
  function Claim(wallet: Wallet, key: Key, coins: set<OutPoint>): (Wallet, bool) {
    if coins <= Plannable(wallet) then (Reserve(wallet, key, coins), true) else (wallet, false)
  }

  function ReleaseAll(wallet: Wallet, key: Key): Wallet {
    wallet.(locks := wallet.locks - {key})
  }

  /** Frees coins a broadcast transaction spent: gone from the cache and from the reservation. */
  function ReleaseSpent(wallet: Wallet, key: Key, coins: set<OutPoint>): Wallet {
    var left := HeldBy(wallet.locks, key) - coins;
    Wallet(if key !in wallet.locks then wallet.locks else if left == {} then wallet.locks - {key} else wallet.locks[key := left],
           wallet.cache - coins)
  }

  predicate Disjoint(locks: Locks) {
    forall a, b :: a in locks && b in locks && a != b ==> locks[a] * locks[b] == {}
  }

  /** Reserving plannable coins keeps the reservations of different swaps apart. */
  lemma ReserveKeepsDisjoint(wallet: Wallet, key: Key, coins: set<OutPoint>)
    requires Disjoint(wallet.locks) && coins <= Plannable(wallet)
    ensures Disjoint(Reserve(wallet, key, coins).locks)
  {
  }

  /** What a release leaves is a part of what was reserved, swap by swap. */
  lemma ReleaseShrinks(wallet: Wallet, key: Key, coins: set<OutPoint>)
    ensures Disjoint(wallet.locks) ==> Disjoint(ReleaseAll(wallet, key).locks) && Disjoint(ReleaseSpent(wallet, key, coins).locks)
    ensures HeldBy(ReleaseSpent(wallet, key, coins).locks, key) == HeldBy(wallet.locks, key) - coins
    ensures forall other :: other != key ==> HeldBy(ReleaseSpent(wallet, key, coins).locks, other) == HeldBy(wallet.locks, other)
  {
  }

  /** The wallet's lock table, updated in place one outpoint at a time. */
  class LockTable {
    var locks: Locks
    var cache: set<OutPoint>

    ghost function View(): Wallet
      reads this
    {
      Wallet(locks, cache)
    }

    constructor (cache: set<OutPoint>)
      ensures View() == Wallet(map[], cache)
    {
      this.locks, this.cache := map[], cache;
    }

    method ReserveSwapLocks(key: Key, outpoints: seq<OutPoint>)
      modifies this
      ensures View() == Reserve(old(View()), key, Coins(outpoints))
    {
      var entry := if key in locks then locks[key] else {};
      for i := 0 to |outpoints|
        invariant entry == HeldBy(locks, key) + Coins(outpoints[..i])
        invariant View() == old(View())
      {
        entry := entry + {outpoints[i]};
        CoinsNext(outpoints, i);
      }
      assert outpoints[..|outpoints|] == outpoints;
      locks := locks[key := entry];
    }

    method ClaimSwapInputs(key: Key, inputs: seq<OutPoint>) returns (claimed: bool)
      modifies this
      ensures (View(), claimed) == Claim(old(View()), key, Coins(inputs))
    {
      var plannable := Plannable(Wallet(locks, cache));
      for i := 0 to |inputs|
        invariant View() == old(View())
        invariant forall j :: 0 <= j < i ==> inputs[j] in plannable
      {
        if inputs[i] !in plannable {
          assert inputs[i] in Coins(inputs);
          return false;
        }
      }
      ReserveSwapLocks(key, inputs);
      return true;
    }

    /** `release_swap_locks` with `None`: true when there was something to release. */
    method ReleaseSwapLocks(key: Key) returns (freed: bool)
      modifies this
      ensures View() == ReleaseAll(old(View()), key) && freed == (key in old(locks))
    {
      freed := key in locks;
      locks := locks - {key};
    }

    /** `release_swap_locks` with `Some(inputs)`: true when one of them was reserved. */
    method ReleaseBroadcastInputs(key: Key, inputs: seq<OutPoint>) returns (freed: bool)
      modifies this
      ensures View() == ReleaseSpent(old(View()), key, Coins(inputs))
      ensures freed == (HeldBy(old(locks), key) * Coins(inputs) != {})
    {
      for i := 0 to |inputs|
        invariant locks == old(locks) && cache == old(cache) - Coins(inputs[..i])
      {
        cache := cache - {inputs[i]};
        CoinsNext(inputs, i);
      }
      assert inputs[..|inputs|] == inputs;
      if key !in locks {
        return false;
      }
      freed := false;
      var held := locks[key];
      var entry := held;
      for i := 0 to |inputs|
        invariant locks == old(locks) && cache == old(cache) - Coins(inputs)
        invariant entry == held - Coins(inputs[..i])
        invariant freed == (held * Coins(inputs[..i]) != {})
      {
        CoinsNext(inputs, i);
        assert held * Coins(inputs[..i + 1]) == held * Coins(inputs[..i]) + (held * {inputs[i]});
        assert inputs[i] in held && inputs[i] !in entry ==> inputs[i] in held * Coins(inputs[..i]);
        assert inputs[i] in entry ==> inputs[i] in held * {inputs[i]};
        assert inputs[i] !in held ==> held * {inputs[i]} == {};
        freed := freed || inputs[i] in entry;
        entry := entry - {inputs[i]};
      }
      locks := if entry == {} then locks - {key} else locks[key := entry];
    }
  }
}
