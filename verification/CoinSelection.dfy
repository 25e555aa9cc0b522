/** Picking coins for one funding split (`smallest_cover` and the pool handling of `src/wallet/funding.rs`). */
module CoinSelection {
  import opened Common
  import opened MakerState

  datatype Utxo = Utxo(outpoint: OutPoint, value: nat)

  /** A planning pool: distinct wallet coins, largest first. */
  predicate Descending(pool: seq<Utxo>) {
    forall i, j :: 0 <= i < j < |pool| ==> pool[i].value >= pool[j].value
  }

  predicate DistinctCoins(pool: seq<Utxo>) {
    forall i, j :: 0 <= i < j < |pool| ==> pool[i].outpoint != pool[j].outpoint
  }

  /** The value of the coins at the chosen positions. */
  function SumOf(pool: seq<Utxo>, chosen: set<nat>): nat
    decreases |pool|
  {
    if pool == [] then 0
    else SumOf(pool[..|pool| - 1], chosen) + if |pool| - 1 in chosen then pool[|pool| - 1].value else 0
  }

  /** The coins at positions below `|pool|`. */
  predicate InPool(pool: seq<Utxo>, chosen: set<nat>) {
    forall i :: i in chosen ==> i < |pool|
  }

  predicate IsCover(pool: seq<Utxo>, chosen: set<nat>, need: nat) {
    InPool(pool, chosen) && SumOf(pool, chosen) >= need
  }

  lemma {:induction false} SumOfNone(pool: seq<Utxo>)
    ensures SumOf(pool, {}) == 0
    decreases |pool|
  {
    if pool != [] {
      SumOfNone(pool[..|pool| - 1]);
    }
  }

  lemma {:induction false} SumOfOneMore(pool: seq<Utxo>, chosen: set<nat>, i: nat)
    requires i < |pool| && i !in chosen
    ensures SumOf(pool, chosen + {i}) == SumOf(pool, chosen) + pool[i].value
    decreases |pool|
  {
    if i < |pool| - 1 {
      SumOfOneMore(pool[..|pool| - 1], chosen, i);
    } else {
      SumOfAbove(pool[..|pool| - 1], chosen, i);
    }
  }

  /** Positions past the pool do not count. */
  lemma {:induction false} SumOfAbove(pool: seq<Utxo>, chosen: set<nat>, i: nat)
    requires |pool| <= i
    ensures SumOf(pool, chosen + {i}) == SumOf(pool, chosen)
    decreases |pool|
  {
    if pool != [] {
      SumOfAbove(pool[..|pool| - 1], chosen, i);
    }
  }

  /** The first `n` positions. */
  function First(n: nat): (r: set<nat>)
    ensures |r| == n && forall i: nat :: i in r <==> i < n
  {
    if n == 0 then {} else First(n - 1) + {n - 1}
  }

  lemma {:induction false} SizeBound(pool: seq<Utxo>, chosen: set<nat>)
    requires InPool(pool, chosen)
    ensures |chosen| <= |pool|
  {
    var all := First(|pool|);
    assert chosen <= all;
    assert all == chosen + (all - chosen);
  }

  /** In a descending pool no `n` coins are worth more than the first `n`. */
  lemma {:induction false} LargestFirst(pool: seq<Utxo>, chosen: set<nat>)
    requires Descending(pool) && InPool(pool, chosen)
    ensures SumOf(pool, chosen) <= SumOf(pool, First(|chosen|))
    decreases |pool|
  {
    if pool == [] {
      assert chosen == {};
    } else {
      var shorter, last := pool[..|pool| - 1], |pool| - 1;
      var fewer := chosen - {last};
      LargestFirst(shorter, fewer);
      SizeBound(shorter, fewer);
      if last in chosen {
        LastChosen(pool, chosen);
      } else {
        assert fewer == chosen;
      }
    }
  }

  lemma LastChosen(pool: seq<Utxo>, chosen: set<nat>)
    requires Descending(pool) && pool != [] && |pool| - 1 in chosen
    requires var fewer := chosen - {|pool| - 1};
             |fewer| < |pool| && SumOf(pool[..|pool| - 1], fewer) <= SumOf(pool[..|pool| - 1], First(|fewer|))
    ensures SumOf(pool, chosen) <= SumOf(pool, First(|chosen|))
  {
    hide First;
    var shorter, last := pool[..|pool| - 1], |pool| - 1;
    var fewer := chosen - {last};
    assert chosen == fewer + {last};
    SumOfAbove(shorter, fewer, last);
    SumOfOneMore(pool, First(|fewer|), |fewer|);
    assert First(|chosen|) == First(|fewer|) + {|fewer|};
    SumOfSkip(pool, First(|fewer|));
  }

  lemma SumOfSkip(pool: seq<Utxo>, chosen: set<nat>)
    requires pool != [] && |pool| - 1 !in chosen
    ensures SumOf(pool, chosen) == SumOf(pool[..|pool| - 1], chosen)
  {
  }

  lemma SumOfPair(pool: seq<Utxo>, i: nat, j: nat)
    requires i < |pool| && j < |pool| && i != j
    ensures SumOf(pool, {i, j}) == pool[i].value + pool[j].value
  {
    SumOfNone(pool);
    SumOfOneMore(pool, {}, i);
    SumOfOneMore(pool, {i}, j);
    assert {} + {i} == {i} && {i} + {j} == {i, j};
  }

  lemma SumOfSingle(pool: seq<Utxo>, i: nat)
    requires i < |pool|
    ensures SumOf(pool, {i}) == pool[i].value
  {
    SumOfNone(pool);
    SumOfOneMore(pool, {}, i);
    assert {} + {i} == {i};
  }

  // ---------------------------------------------------------------- one coin, two coins, many coins

  /** No `n` coins cover `need` with a smaller total. */
  ghost predicate Cheapest(pool: seq<Utxo>, chosen: set<nat>, n: nat, need: nat) {
    forall other :: |other| == n && IsCover(pool, other, need) ==> SumOf(pool, chosen) <= SumOf(pool, other)
  }

  ghost predicate NoCover(pool: seq<Utxo>, n: nat, need: nat) {
    forall other :: |other| == n && InPool(pool, other) ==> SumOf(pool, other) < need
  }

  lemma OneElement(s: set<nat>) returns (i: nat)
    requires |s| == 1
    ensures s == {i}
  {
    i :| i in s;
    assert |s - {i}| == 0;
  }

  lemma TwoElements(s: set<nat>) returns (i: nat, j: nat)
    requires |s| == 2
    ensures i < j && s == {i, j}
  {
    var a :| a in s;
    var b := OneElement(s - {a});
    assert b in s - {a};
    assert s == (s - {a}) + {a};
    i, j := if a < b then a else b, if a < b then b else a;
  }

  /** Descending order: the last sufficient coin is the smallest. */
  method CoverByOne(pool: seq<Utxo>, need: nat) returns (r: Option<set<nat>>)
    requires Descending(pool)
    ensures r.Some? ==> |r.value| == 1 && IsCover(pool, r.value, need) && Cheapest(pool, r.value, 1, need)
    ensures r.None? ==> NoCover(pool, 1, need)
  {
    var pos := |pool|;
    while pos > 0 && pool[pos - 1].value < need
      invariant 0 <= pos <= |pool|
      invariant forall i :: pos <= i < |pool| ==> pool[i].value < need
    {
      pos := pos - 1;
    }
    r := if pos > 0 then Some({pos - 1}) else None;
    if pos > 0 {
      SumOfSingle(pool, pos - 1);
    }
    forall other: set<nat> | |other| == 1 && InPool(pool, other)
      ensures SumOf(pool, other) < need || (r.Some? && SumOf(pool, r.value) <= SumOf(pool, other))
    {
      var i := OneElement(other);
      SumOfSingle(pool, i);
    }
  }

  /** The value at the `i`-th smallest place. */
  function Rising(pool: seq<Utxo>, i: nat): nat
    requires i < |pool|
  {
    pool[|pool| - 1 - i].value
  }

  /** Every pair outside the window is too small, or no better than the best so far. */
  predicate Searched(pool: seq<Utxo>, lo: nat, hi: nat, best: Option<(nat, nat)>, need: nat) {
    && (best.Some? ==> best.value.0 < best.value.1 < |pool| && Rising(pool, best.value.0) + Rising(pool, best.value.1) >= need)
    && forall i: nat, j: nat :: i < j < |pool| && (i < lo || j > hi) && Rising(pool, i) + Rising(pool, j) >= need ==>
         best.Some? && Rising(pool, best.value.0) + Rising(pool, best.value.1) <= Rising(pool, i) + Rising(pool, j)
  }

  /** The lower end is too small even with the largest coin left. */
  lemma RaiseLow(pool: seq<Utxo>, lo: nat, hi: nat, best: Option<(nat, nat)>, need: nat)
    requires Descending(pool) && lo < hi < |pool| && Searched(pool, lo, hi, best, need)
    requires Rising(pool, lo) + Rising(pool, hi) < need
    ensures Searched(pool, lo + 1, hi, best, need)
  {
  }

  /** The upper end already covers with the smallest coin left. */
  lemma LowerHigh(pool: seq<Utxo>, lo: nat, hi: nat, best: Option<(nat, nat)>, need: nat)
    requires Descending(pool) && lo < hi < |pool| && Searched(pool, lo, hi, best, need)
    requires best.Some? && Rising(pool, best.value.0) + Rising(pool, best.value.1) <= Rising(pool, lo) + Rising(pool, hi)
    ensures Searched(pool, lo, hi - 1, best, need)
  {
  }

  /** Two pointers over the rising values find the cheapest covering pair. */
  method CoverByTwo(pool: seq<Utxo>, need: nat) returns (r: Option<set<nat>>)
    requires Descending(pool) && |pool| >= 2
    ensures r.Some? ==> |r.value| == 2 && IsCover(pool, r.value, need) && Cheapest(pool, r.value, 2, need)
    ensures r.None? ==> NoCover(pool, 2, need)
  {
    var lo: nat, hi: nat := 0, |pool| - 1;
    var best: Option<(nat, nat)> := None;
    while lo < hi
      invariant lo <= hi < |pool|
      invariant Searched(pool, lo, hi, best, need)
      decreases hi - lo
    {
      var sum := Rising(pool, lo) + Rising(pool, hi);
      if sum >= need {
        if best.None? || sum < Rising(pool, best.value.0) + Rising(pool, best.value.1) {
          best := Some((lo, hi));
        }
        LowerHigh(pool, lo, hi, best, need);
        hi := hi - 1;
      } else {
        RaiseLow(pool, lo, hi, best, need);
        lo := lo + 1;
      }
    }
    r := PairPositions(pool, best, lo, need);
  }

  /** Reads the best pair back as positions. */
  method PairPositions(pool: seq<Utxo>, best: Option<(nat, nat)>, lo: nat, need: nat) returns (r: Option<set<nat>>)
    requires |pool| >= 2 && Searched(pool, lo, lo, best, need)
    ensures r.Some? ==> |r.value| == 2 && IsCover(pool, r.value, need) && Cheapest(pool, r.value, 2, need)
    ensures r.None? ==> NoCover(pool, 2, need)
  {
    if best.Some? {
      var a, b := |pool| - 1 - best.value.0, |pool| - 1 - best.value.1;
      r := Some({a, b});
      SumOfPair(pool, a, b);
    } else {
      r := None;
    }
    forall other: set<nat> | |other| == 2 && InPool(pool, other)
      ensures SumOf(pool, other) < need || (r.Some? && SumOf(pool, r.value) <= SumOf(pool, other))
    {
      var i, j := TwoElements(other);
      SumOfPair(pool, i, j);
      assert i in other && j in other;
      assert Rising(pool, |pool| - 1 - j) == pool[j].value && Rising(pool, |pool| - 1 - i) == pool[i].value;
    }
  }

  /** Greedy fill: the largest coin within the deficit, else the smallest above it; at most `n` coins. */
  method CoverByMany(pool: seq<Utxo>, n: nat, need: nat) returns (r: Option<set<nat>>)
    ensures r.Some? ==> |r.value| <= n && IsCover(pool, r.value, need)
    ensures r.None? && need > 0 && |pool| <= n ==> SumOf(pool, First(|pool|)) < need
  {
    hide SumOf;
    var taken: set<nat>, covered := {}, 0;
    SumOfNone(pool);
    for count := 0 to n
      invariant InPool(pool, taken) && |taken| == count && covered == SumOf(pool, taken) <= need && (need > 0 ==> covered < need)
    {
      var pick := PickWithin(pool, taken, need - covered);
      if pick.None? {
        assert taken == First(|pool|);
        return None;
      }
      SumOfOneMore(pool, taken, pick.value);
      covered := covered + pool[pick.value].value;
      taken := taken + {pick.value};
      if covered >= need {
        return Some(taken);
      }
    }
    if |pool| <= n {
      AllTaken(pool, taken);
    }
    return None;
  }

  /** As many positions as the pool has are all of them. */
  lemma AllTaken(pool: seq<Utxo>, taken: set<nat>)
    requires InPool(pool, taken) && |taken| >= |pool|
    ensures taken == First(|pool|)
  {
    var all := First(|pool|);
    assert taken <= all;
    assert |all - taken| == |all| - |taken|;
  }

  /** The first untaken coin within `deficit`, else the last one above it. */
  method PickWithin(pool: seq<Utxo>, taken: set<nat>, deficit: nat) returns (pick: Option<nat>)
    ensures pick.Some? ==> pick.value < |pool| && pick.value !in taken
    ensures pick.Some? && pool[pick.value].value <= deficit ==>
              forall i: nat :: i < pick.value && i !in taken ==> pool[i].value > deficit
    ensures pick.Some? && pool[pick.value].value > deficit ==>
              forall i: nat :: i < |pool| && i !in taken ==> pool[i].value > deficit && i <= pick.value
    ensures pick.None? ==> forall i: nat :: i < |pool| ==> i in taken
  {
    for i := 0 to |pool|
      invariant forall j: nat :: j < i && j !in taken ==> pool[j].value > deficit
    {
      if i !in taken && pool[i].value <= deficit {
        return Some(i);
      }
    }
    for i := |pool| downto 0
      invariant forall j: nat :: i <= j < |pool| ==> j in taken
    {
      if i !in taken && pool[i].value > deficit {
        return Some(i);
      }
    }
    return None;
  }

  /** `smallest_cover`: exact for one and two coins, greedy above. */
  method SmallestCover(pool: seq<Utxo>, n: nat, need: nat) returns (r: Option<set<nat>>)
    requires Descending(pool) && n > 0
    ensures r.Some? ==> |r.value| <= n && IsCover(pool, r.value, need)
    ensures n <= 2 && r.Some? ==> |r.value| == n && Cheapest(pool, r.value, n, need)
    ensures n <= 2 && r.None? ==> NoCover(pool, n, need)
  {
    if |pool| < n {
      forall other: set<nat> | InPool(pool, other)
        ensures |other| <= |pool|
      {
        SizeBound(pool, other);
      }
      return None;
    }
    if n == 1 {
      r := CoverByOne(pool, need);
    } else if n == 2 {
      r := CoverByTwo(pool, need);
    } else {
      r := CoverByMany(pool, n, need);
    }
  }

  // ---------------------------------------------------------------- taking coins out of the pool

  function Outpoints(pool: seq<Utxo>): set<OutPoint> {
    set i | 0 <= i < |pool| :: pool[i].outpoint
  }

  /** Values by outpoint, agreeing with the pool. */
  predicate Agrees(values: map<OutPoint, nat>, pool: seq<Utxo>) {
    forall i :: 0 <= i < |pool| ==> pool[i].outpoint in values && values[pool[i].outpoint] == pool[i].value
  }

  /** The value of a list of coins; unknown ones are worth nothing. */
  function Worth(values: map<OutPoint, nat>, coins: seq<OutPoint>): nat {
    if coins == [] then 0 else (if coins[0] in values then values[coins[0]] else 0) + Worth(values, coins[1..])
  }

  /** What is left of the pool, in order. */
  function Rest(pool: seq<Utxo>, chosen: set<nat>): seq<Utxo>
    decreases |pool|
  {
    if pool == [] then []
    else
      var rest := Rest(pool[..|pool| - 1], chosen);
      if |pool| - 1 in chosen then rest else rest + [pool[|pool| - 1]]
  }

  /** The chosen coins, last position first. */
  function Taken(pool: seq<Utxo>, chosen: set<nat>): seq<OutPoint>
    decreases |pool|
  {
    if pool == [] then []
    else if |pool| - 1 in chosen then [pool[|pool| - 1].outpoint] + Taken(pool[..|pool| - 1], chosen)
    else Taken(pool[..|pool| - 1], chosen)
  }

  function CoinSet(coins: seq<OutPoint>): set<OutPoint> {
    set coin | coin in coins
  }

  lemma {:induction false} TakenWorth(values: map<OutPoint, nat>, pool: seq<Utxo>, chosen: set<nat>)
    requires Agrees(values, pool)
    ensures Worth(values, Taken(pool, chosen)) == SumOf(pool, chosen)
    decreases |pool|
  {
    if pool != [] {
      TakenWorth(values, pool[..|pool| - 1], chosen);
    }
  }

  lemma {:induction false} TakenSize(pool: seq<Utxo>, chosen: set<nat>)
    requires InPool(pool, chosen)
    ensures |Taken(pool, chosen)| == |chosen|
    decreases |pool|
  {
    if pool != [] {
      var shorter, last := pool[..|pool| - 1], |pool| - 1;
      TakenSize(shorter, chosen - {last});
      TakenBelow(shorter, chosen, last);
    } else {
      assert chosen == {};
    }
  }

  lemma {:induction false} TakenBelow(pool: seq<Utxo>, chosen: set<nat>, i: nat)
    requires |pool| <= i
    ensures Taken(pool, chosen - {i}) == Taken(pool, chosen)
    decreases |pool|
  {
    if pool != [] {
      TakenBelow(pool[..|pool| - 1], chosen, i);
    }
  }

  /** Taking splits the pool: the taken coins are distinct, and the rest has exactly the others, still in order. */
  lemma {:induction false} TakingSplits(pool: seq<Utxo>, chosen: set<nat>)
    requires DistinctCoins(pool)
    ensures NoRepeats(Taken(pool, chosen)) && DistinctCoins(Rest(pool, chosen))
    ensures CoinSet(Taken(pool, chosen)) + Outpoints(Rest(pool, chosen)) == Outpoints(pool)
    ensures CoinSet(Taken(pool, chosen)) !! Outpoints(Rest(pool, chosen))
    decreases |pool|
  {
    if pool != [] {
      var shorter, last := pool[..|pool| - 1], pool[|pool| - 1];
      TakingSplits(shorter, chosen);
      assert Outpoints(pool) == Outpoints(shorter) + {last.outpoint};
      assert last.outpoint !in Outpoints(shorter);
      var taken, rest := Taken(shorter, chosen), Rest(shorter, chosen);
      assert CoinSet([last.outpoint] + taken) == CoinSet(taken) + {last.outpoint};
      assert forall i :: 0 <= i < |taken| ==> taken[i] in CoinSet(taken);
      assert Outpoints(rest + [last]) == Outpoints(rest) + {last.outpoint} by {
        RestOneMore(rest, last);
      }
      assert forall i :: 0 <= i < |rest| ==> rest[i].outpoint in Outpoints(rest);
    }
  }

  lemma RestOneMore(rest: seq<Utxo>, last: Utxo)
    ensures Outpoints(rest + [last]) == Outpoints(rest) + {last.outpoint}
  {
    var longer := rest + [last];
    assert longer[|rest|] == last;
    assert forall i :: 0 <= i < |rest| ==> longer[i] == rest[i];
  }

  lemma {:induction false} RestKeeps(values: map<OutPoint, nat>, pool: seq<Utxo>, chosen: set<nat>)
    requires Descending(pool) && Agrees(values, pool)
    ensures Descending(Rest(pool, chosen)) && Agrees(values, Rest(pool, chosen))
    ensures pool != [] && Rest(pool, chosen) != [] ==>
              Rest(pool, chosen)[|Rest(pool, chosen)| - 1].value >= pool[|pool| - 1].value
    decreases |pool|
  {
    if pool != [] {
      var shorter := pool[..|pool| - 1];
      RestKeeps(values, shorter, chosen);
    }
  }

  /** Removes the chosen positions, the highest first. */
  method TakeCoins(pool: seq<Utxo>, chosen: set<nat>) returns (rest: seq<Utxo>, utxos: seq<OutPoint>)
    ensures rest == Rest(pool, chosen) && utxos == Taken(pool, chosen)
  {
    rest, utxos := pool, [];
    ghost var kept: seq<Utxo> := [];
    assert pool[..|pool|] == pool;
    for pos := |pool| downto 0
      invariant rest == pool[..pos] + kept
      invariant Rest(pool, chosen) == Rest(pool[..pos], chosen) + kept
      invariant Taken(pool, chosen) == utxos + Taken(pool[..pos], chosen)
    {
      assert pool[..pos + 1][..pos] == pool[..pos];
      if pos in chosen {
        utxos := utxos + [rest[pos].outpoint];
        rest := rest[..pos] + rest[pos + 1..];
      } else {
        kept := [pool[pos]] + kept;
      }
    }
  }
}
