/** Planning a swap's funding again in the shape the taker was charged for (`fit_declared_shape`, `replan_funding`). */
module Replanning {
  import opened Common
  import opened MakerState
  import opened FeePolicy
  import opened CoinSelection
  import opened Planner
  import opened Forwarding

  // ---------------------------------------------------------------- pairing splits by size

  /** A permutation of the first `n` indices. */
  predicate Permutation(order: seq<nat>, n: nat) {
    |order| == n && NoRepeats(order) && forall r :: 0 <= r < n ==> order[r] < n
  }

  /** Puts `i` after every index whose key is not larger. */
  function InsertIndex(order: seq<nat>, keys: seq<nat>, i: nat): seq<nat>
    requires i < |keys| && forall r :: 0 <= r < |order| ==> order[r] < |keys|
  {
    if order == [] || keys[i] < keys[order[0]] then [i] + order else [order[0]] + InsertIndex(order[1..], keys, i)
  }

  lemma {:induction false} InsertIndexKeeps(order: seq<nat>, keys: seq<nat>, i: nat)
    requires i < |keys| && (forall r :: 0 <= r < |order| ==> order[r] < |keys|) && NoRepeats(order) && i !in order
    ensures var after := InsertIndex(order, keys, i);
            |after| == |order| + 1 && NoRepeats(after) && forall j :: j in after <==> j in order || j == i
  {
    if order != [] && keys[i] >= keys[order[0]] {
      InsertIndexKeeps(order[1..], keys, i);
      var rest := InsertIndex(order[1..], keys, i);
      assert order[0] !in order[1..];
      assert order[0] !in rest;
    }
  }

  predicate Ascending(order: seq<nat>, keys: seq<nat>) {
    (forall r :: 0 <= r < |order| ==> order[r] < |keys|)
    && forall r, q :: 0 <= r < q < |order| ==> keys[order[r]] <= keys[order[q]]
  }

  lemma {:induction false} InsertIndexAscends(order: seq<nat>, keys: seq<nat>, i: nat)
    requires i < |keys| && Ascending(order, keys) && NoRepeats(order) && i !in order
    ensures Ascending(InsertIndex(order, keys, i), keys)
  {
    hide InsertIndex, NoRepeats;
    if order == [] || keys[i] < keys[order[0]] {
      InsertedFirst(order, keys, i);
    } else {
      TailAscends(order, keys);
      InsertIndexAscends(order[1..], keys, i);
      InsertIndexKeeps(order[1..], keys, i);
      var rest := InsertIndex(order[1..], keys, i);
      forall q | 0 <= q < |rest|
        ensures rest[q] < |keys| && keys[rest[q]] >= keys[order[0]]
      {
        assert rest[q] in rest;
      }
      InsertedLater(order, keys, i);
      HeadAscends(order[0], rest, keys);
    }
  }

  lemma InsertedFirst(order: seq<nat>, keys: seq<nat>, i: nat)
    requires i < |keys| && Ascending(order, keys) && (order == [] || keys[i] < keys[order[0]])
    ensures InsertIndex(order, keys, i) == [i] + order && Ascending([i] + order, keys)
  {
  }

  lemma InsertedLater(order: seq<nat>, keys: seq<nat>, i: nat)
    requires i < |keys| && Ascending(order, keys) && order != [] && keys[i] >= keys[order[0]]
    ensures InsertIndex(order, keys, i) == [order[0]] + InsertIndex(order[1..], keys, i)
  {
  }

  lemma TailAscends(order: seq<nat>, keys: seq<nat>)
    requires Ascending(order, keys) && order != []
    ensures Ascending(order[1..], keys) && (NoRepeats(order) ==> NoRepeats(order[1..]))
    ensures forall q :: q in order[1..] ==> q in order && keys[q] >= keys[order[0]]
  {
  }

  lemma HeadAscends(head: nat, tail: seq<nat>, keys: seq<nat>)
    requires Ascending(tail, keys) && head < |keys| && forall q :: 0 <= q < |tail| ==> keys[tail[q]] >= keys[head]
    ensures Ascending([head] + tail, keys)
  {
  }

  /** A stable sort of the indices by key. */
  method OrderBy(keys: seq<nat>) returns (order: seq<nat>)
    ensures Permutation(order, |keys|) && Ascending(order, keys)
  {
    order := [];
    for i := 0 to |keys|
      invariant |order| == i && NoRepeats(order) && (forall r :: 0 <= r < i ==> order[r] < i) && Ascending(order, keys)
    {
      InsertIndexKeeps(order, keys, i);
      InsertIndexAscends(order, keys, i);
      order := InsertIndex(order, keys, i);
      assert forall r :: 0 <= r < |order| ==> order[r] in order;
    }
  }

  /** Every index below `n` has a place in the order. */
  lemma PermutationHitsAll(order: seq<nat>, n: nat, i: nat)
    requires Permutation(order, n) && i < n
    ensures i in order
  {
    SetSize(order);
    var all := First(n);
    assert CoinSet(order) <= all;
    SameSize(CoinSet(order), all);
    assert i in CoinSet(order);
  }

  lemma {:induction false} SetSize(order: seq<nat>)
    requires NoRepeats(order)
    ensures |CoinSet(order)| == |order|
  {
    if order != [] {
      SetSize(order[1..]);
      assert CoinSet(order) == CoinSet(order[1..]) + {order[0]};
      assert order[0] !in CoinSet(order[1..]);
    }
  }

  lemma SameSize(small: set<nat>, large: set<nat>)
    requires small <= large && |small| == |large|
    ensures small == large
  {
    assert large == small + (large - small);
  }

  /** The place of each index in the order. */
  method Ranks(order: seq<nat>) returns (rank: seq<nat>)
    requires Permutation(order, |order|)
    ensures Permutation(rank, |order|) && forall r :: 0 <= r < |order| ==> rank[order[r]] == r
  {
    var n := |order|;
    var place := new nat[n](_ => 0);
    for r := 0 to n
      invariant forall q :: 0 <= q < r ==> place[order[q]] == q
    {
      place[order[r]] := r;
    }
    rank := place[..];
    forall i | 0 <= i < n
      ensures 0 <= rank[i] < n && order[rank[i]] == i
    {
      PermutationHitsAll(order, n, i);
      var q :| 0 <= q < n && order[q] == i;
    }
  }

  /** The splits in the order of `p`. */
  function Permuted(plan: seq<SplitPlan>, p: seq<nat>): seq<SplitPlan>
    requires Permutation(p, |plan|)
  {
    seq(|plan|, i requires 0 <= i < |plan| => plan[p[i]])
  }

  function AsPool(plan: seq<SplitPlan>): seq<Utxo> {
    seq(|plan|, i requires 0 <= i < |plan| => Utxo(0, plan[i].value))
  }

  lemma {:induction false} TotalAsSum(plan: seq<SplitPlan>)
    ensures PlanTotal(plan) == SumOf(AsPool(plan), First(|plan|))
    decreases |plan|
  {
    if plan != [] {
      var n := |plan|;
      TotalAsSum(plan[..n - 1]);
      assert AsPool(plan)[..n - 1] == AsPool(plan[..n - 1]);
      SumOfAbove(AsPool(plan[..n - 1]), First(n - 1), n - 1);
      assert First(n) == First(n - 1) + {n - 1};
    }
  }

  lemma {:induction false} PermutedPrefix(plan: seq<SplitPlan>, p: seq<nat>, k: nat)
    requires Permutation(p, |plan|) && k <= |plan|
    ensures PlanTotal(Permuted(plan, p)[..k]) == SumOf(AsPool(plan), CoinSet(p[..k]))
    decreases k
  {
    if k == 0 {
      assert CoinSet(p[..0]) == {};
      SumOfNone(AsPool(plan));
    } else {
      PermutedPrefix(plan, p, k - 1);
      var shorter := Permuted(plan, p)[..k];
      assert shorter[..k - 1] == Permuted(plan, p)[..k - 1];
      assert p[..k] == p[..k - 1] + [p[k - 1]];
      assert CoinSet(p[..k]) == CoinSet(p[..k - 1]) + {p[k - 1]};
      assert p[k - 1] !in CoinSet(p[..k - 1]);
      SumOfOneMore(AsPool(plan), CoinSet(p[..k - 1]), p[k - 1]);
    }
  }

  /** Reordering splits keeps the total. */
  lemma PermutedTotal(plan: seq<SplitPlan>, p: seq<nat>)
    requires Permutation(p, |plan|)
    ensures PlanTotal(Permuted(plan, p)) == PlanTotal(plan)
  {
    var n := |plan|;
    PermutedPrefix(plan, p, n);
    assert Permuted(plan, p)[..n] == Permuted(plan, p) && p[..n] == p;
    SetSize(p);
    assert CoinSet(p) <= First(n);
    SameSize(CoinSet(p), First(n));
    TotalAsSum(plan);
  }

  // ---------------------------------------------------------------- topping splits up with spare coins

  lemma CeilSum(x: real, y: real)
    ensures Ceil(x + y) <= Ceil(x) + Ceil(y)
  {
    CeilLeast(x, Ceil(x));
    CeilLeast(y, Ceil(y));
    CeilLeast(x + y, Ceil(x) + Ceil(y));
  }

  /** One more input raises the rounded fee by at most the rounded fee of its own bytes. */
  lemma OneMoreInput(inputs: nat, rate: real)
    requires FundingFee(inputs + 1, rate).Some? && FeeAtRate(68, rate).Some?
    ensures FundingFee(inputs, rate).Some? && FundingFee(inputs + 1, rate).value <= FundingFee(inputs, rate).value + FeeAtRate(68, rate).value
  {
    FeeMonotone(FundingTxVsize(inputs), FundingTxVsize(inputs + 1), rate);
    var n := FundingTxVsize(inputs) as real;
    assert FundingTxVsize(inputs + 1) as real == n + 68.0;
    assert rate * (n + 68.0) == rate * n + rate * 68.0;
    CeilSum(rate * n, rate * 68.0);
  }

  lemma {:induction false} WorthAppend(values: map<OutPoint, nat>, coins: seq<OutPoint>, more: seq<OutPoint>)
    ensures Worth(values, coins + more) == Worth(values, coins) + Worth(values, more)
    decreases |coins|
  {
    if coins == [] {
      assert coins + more == more;
    } else {
      WorthAppend(values, coins[1..], more);
      assert (coins + more)[1..] == coins[1..] + more;
    }
  }

  /** Each coin is worth at least its own input. */
  predicate PayTheirWay(values: map<OutPoint, nat>, coins: seq<OutPoint>, inputFee: nat) {
    forall i :: 0 <= i < |coins| ==> coins[i] in values && values[coins[i]] >= inputFee
  }

  /** The coins cover `value` plus the real fee of spending them. */
  predicate Pays(values: map<OutPoint, nat>, coins: seq<OutPoint>, value: nat, rate: real) {
    FundingFee(|coins|, rate).Some? && Worth(values, coins) >= value + FundingFee(|coins|, rate).value
  }

  /** So a split topped up with such coins still pays, as long as its fee can be priced. */
  lemma {:induction false} ToppedUpStillPays(values: map<OutPoint, nat>, coins: seq<OutPoint>, more: seq<OutPoint>, value: nat, rate: real)
    requires Pays(values, coins, value, rate) && FeeAtRate(68, rate).Some? && PayTheirWay(values, more, FeeAtRate(68, rate).value)
    requires FundingFee(|coins + more|, rate).Some?
    ensures Pays(values, coins + more, value, rate)
    decreases |more|
  {
    if more == [] {
      assert coins + more == coins;
    } else {
      var last := |more| - 1;
      FeeMonotone(FundingTxVsize(|coins| + last), FundingTxVsize(|coins| + |more|), rate);
      ToppedUpStillPays(values, coins, more[..last], value, rate);
      assert coins + more == (coins + more[..last]) + [more[last]];
      WorthAppend(values, coins + more[..last], [more[last]]);
      OneMoreInput(|coins + more[..last]|, rate);
      assert Worth(values, [more[last]]) == values[more[last]];
    }
  }

  /** The pool's unused coins that are worth their own input. */
  function Worthwhile(pool: seq<Utxo>, used: set<OutPoint>, inputFee: nat): set<OutPoint> {
    set i | 0 <= i < |pool| && pool[i].outpoint !in used && pool[i].value >= inputFee :: pool[i].outpoint
  }

  /** The coins picked from the first `r` places of the order: at `places`, all that are unused and worth their input. */
  ghost predicate SpareSoFar(pool: seq<Utxo>, order: seq<nat>, used: set<OutPoint>, inputFee: nat, spare: seq<OutPoint>, places: seq<nat>, r: nat)
    requires Permutation(order, |pool|) && r <= |pool|
  {
    && |places| == |spare| && (forall i, j :: 0 <= i < j < |places| ==> places[i] < places[j])
    && (forall i :: 0 <= i < |places| ==> places[i] < r && Eligible(pool[order[places[i]]], used, inputFee) && spare[i] == pool[order[places[i]]].outpoint)
    && (forall q: nat :: q < r && Eligible(pool[order[q]], used, inputFee) ==> q in places)
  }

  predicate Eligible(coin: Utxo, used: set<OutPoint>, inputFee: nat) {
    coin.outpoint !in used && coin.value >= inputFee
  }

  lemma SpareInOrder(values: map<OutPoint, nat>, pool: seq<Utxo>, order: seq<nat>, keys: seq<nat>, used: set<OutPoint>, inputFee: nat,
                     spare: seq<OutPoint>, places: seq<nat>)
    requires DistinctCoins(pool) && Agrees(values, pool) && Permutation(order, |pool|) && Ascending(order, keys) && |keys| == |pool|
    requires forall i :: 0 <= i < |pool| ==> keys[i] == pool[i].value
    requires SpareSoFar(pool, order, used, inputFee, spare, places, |pool|)
    ensures NoRepeats(spare) && PayTheirWay(values, spare, inputFee)
    ensures forall i, j :: 0 <= i < j < |spare| ==> values[spare[i]] <= values[spare[j]]
  {
    hide Eligible;
    forall i | 0 <= i < |spare|
      ensures spare[i] in values && values[spare[i]] == pool[order[places[i]]].value >= inputFee
    {
      EligiblePays(pool[order[places[i]]], used, inputFee);
    }
    forall i, j | 0 <= i < j < |spare|
      ensures spare[i] != spare[j] && values[spare[i]] <= values[spare[j]]
    {
      assert order[places[i]] != order[places[j]] && keys[order[places[i]]] <= keys[order[places[j]]];
    }
  }

  lemma EligiblePays(coin: Utxo, used: set<OutPoint>, inputFee: nat)
    ensures Eligible(coin, used, inputFee) ==> coin.value >= inputFee
  {
  }

  lemma SpareIsWorthwhile(pool: seq<Utxo>, order: seq<nat>, used: set<OutPoint>, inputFee: nat, spare: seq<OutPoint>, places: seq<nat>)
    requires Permutation(order, |pool|) && SpareSoFar(pool, order, used, inputFee, spare, places, |pool|)
    ensures CoinSet(spare) == Worthwhile(pool, used, inputFee) && Worthwhile(pool, used, inputFee) <= Outpoints(pool) - used
  {
    forall i | 0 <= i < |pool| && Eligible(pool[i], used, inputFee)
      ensures pool[i].outpoint in CoinSet(spare)
    {
      PermutationHitsAll(order, |pool|, i);
      var q :| 0 <= q < |pool| && order[q] == i;
      var k :| 0 <= k < |places| && places[k] == q;
      assert spare[k] in spare;
    }
    forall k | 0 <= k < |spare|
      ensures spare[k] in Worthwhile(pool, used, inputFee)
    {
      assert Eligible(pool[order[places[k]]], used, inputFee);
    }
  }

  /** All unused coins of a pool that pay their way, smallest first. */
  method SpareCoins(ghost values: map<OutPoint, nat>, pool: seq<Utxo>, used: set<OutPoint>, inputFee: nat) returns (spare: seq<OutPoint>)
    requires DistinctCoins(pool) && Agrees(values, pool)
    ensures NoRepeats(spare) && CoinSet(spare) <= Outpoints(pool) - used && PayTheirWay(values, spare, inputFee)
    ensures forall i, j :: 0 <= i < j < |spare| ==> values[spare[i]] <= values[spare[j]]
    ensures CoinSet(spare) == Worthwhile(pool, used, inputFee)
  {
    hide DistinctCoins, Agrees, PayTheirWay, NoRepeats, Ascending, Worthwhile;
    var keys := seq(|pool|, i requires 0 <= i < |pool| => pool[i].value);
    var order := OrderBy(keys);
    spare := [];
    ghost var places: seq<nat> := [];
    for r := 0 to |pool|
      invariant SpareSoFar(pool, order, used, inputFee, spare, places, r)
    {
      var coin := pool[order[r]];
      if coin.outpoint !in used && coin.value >= inputFee {
        spare, places := spare + [coin.outpoint], places + [r];
        assert places[|places| - 1] == r;
      }
    }
    SpareInOrder(values, pool, order, keys, used, inputFee, spare, places);
    SpareIsWorthwhile(pool, order, used, inputFee, spare, places);
  }

  /** The split with spare coins added behind its own. */
  predicate ToppedUp(values: map<OutPoint, nat>, before: SplitPlan, after: SplitPlan, inputFee: nat) {
    after.value == before.value && before.utxos <= after.utxos && NoRepeats(after.utxos)
    && PayTheirWay(values, after.utxos[|before.utxos|..], inputFee)
  }

  /** Spare coins belong to no split and appear once. */
  predicate SpareApart(plan: seq<SplitPlan>, a: seq<OutPoint>, b: seq<OutPoint>) {
    NoRepeats(a) && NoRepeats(b) && CoinSet(a) !! CoinSet(b)
    && forall i :: 0 <= i < |plan| ==> CoinSet(plan[i].utxos) !! CoinSet(a) && CoinSet(plan[i].utxos) !! CoinSet(b)
  }

  lemma DrainKeepsApart(plan: seq<SplitPlan>, a: seq<OutPoint>, b: seq<OutPoint>, i: nat, short: nat)
    requires i < |plan| && short <= |a| && Apart(plan) && SpareApart(plan, a, b) && NoRepeats(plan[i].utxos)
    ensures var after := plan[i := plan[i].(utxos := plan[i].utxos + a[..short])];
            Apart(after) && SpareApart(after, a[short..], b) && NoRepeats(after[i].utxos)
  {
    var more, left := a[..short], a[short..];
    var utxos := plan[i].utxos + more;
    assert CoinSet(utxos) == CoinSet(plan[i].utxos) + CoinSet(more);
    assert CoinSet(more) <= CoinSet(a) && CoinSet(left) <= CoinSet(a);
    forall p, q | 0 <= p < |more| && 0 <= q < |left|
      ensures more[p] != left[q]
    {
      assert more[p] == a[p] && left[q] == a[short + q];
    }
    assert CoinSet(more) !! CoinSet(left);
    forall p, q | 0 <= p < q < |utxos|
      ensures utxos[p] != utxos[q]
    {
      assert p < |plan[i].utxos| ==> utxos[p] in CoinSet(plan[i].utxos);
      assert q >= |plan[i].utxos| ==> utxos[q] in CoinSet(a);
    }
  }

  /** The coins that the splits of one kind, swept or regular, lack to their declared counts. */
  function Shortage(plan: seq<SplitPlan>, declared: seq<nat>, swept: set<OutPoint>, fromSwept: bool): nat
    requires |declared| == |plan|
    decreases |plan|
  {
    if plan == [] then 0
    else
      var last := |plan| - 1;
      Shortage(plan[..last], declared[..last], swept, fromSwept)
      + if (plan[last].utxos != [] && plan[last].utxos[0] in swept) == fromSwept && declared[last] > |plan[last].utxos|
        then declared[last] - |plan[last].utxos| else 0
  }

  lemma {:induction false} ShortageOfPart(plan: seq<SplitPlan>, declared: seq<nat>, swept: set<OutPoint>, fromSwept: bool, n: nat)
    requires |declared| == |plan| && n <= |plan|
    ensures Shortage(plan[..n], declared[..n], swept, fromSwept) <= Shortage(plan, declared, swept, fromSwept)
    decreases |plan|
  {
    if n == |plan| {
      assert plan[..n] == plan && declared[..n] == declared;
    } else {
      var last := |plan| - 1;
      ShortageOfPart(plan[..last], declared[..last], swept, fromSwept, n);
      assert plan[..last][..n] == plan[..n] && declared[..last][..n] == declared[..n];
    }
  }

  lemma ShortageOneMore(plan: seq<SplitPlan>, declared: seq<nat>, swept: set<OutPoint>, fromSwept: bool, i: nat)
    requires |declared| == |plan| && i < |plan|
    ensures Shortage(plan[..i + 1], declared[..i + 1], swept, fromSwept) == Shortage(plan[..i], declared[..i], swept, fromSwept)
              + if (plan[i].utxos != [] && plan[i].utxos[0] in swept) == fromSwept && declared[i] > |plan[i].utxos| then declared[i] - |plan[i].utxos| else 0
  {
    assert plan[..i + 1][..i] == plan[..i] && declared[..i + 1][..i] == declared[..i];
  }

  /** Tops each split up to its declared count, from the spare coins of its own pool; refused exactly when a pool has too few. */
  method TopUp(ghost values: map<OutPoint, nat>, plan: seq<SplitPlan>, declared: seq<nat>, swept: set<OutPoint>, regularSpare: seq<OutPoint>,
               sweptSpare: seq<OutPoint>, ghost inputFee: nat) returns (r: Result<seq<SplitPlan>>)
    requires |declared| == |plan| && Apart(plan) && SpareApart(plan, regularSpare, sweptSpare)
    requires forall i :: 0 <= i < |plan| ==> NoRepeats(plan[i].utxos)
    requires PayTheirWay(values, regularSpare, inputFee) && PayTheirWay(values, sweptSpare, inputFee)
    ensures r.Ok? ==> |r.value| == |plan| && Apart(r.value) && forall i :: 0 <= i < |plan| ==>
              ToppedUp(values, plan[i], r.value[i], inputFee) && |r.value[i].utxos| == Max(|plan[i].utxos|, declared[i])
    ensures r.Ok? <==> Shortage(plan, declared, swept, false) <= |regularSpare| && Shortage(plan, declared, swept, true) <= |sweptSpare|
  {
    hide Apart, SpareApart, NoRepeats, PayTheirWay, Shortage;
    NoShortage(swept);
    var fitted, regular, other := plan, regularSpare, sweptSpare;
    NothingAdded(values, plan, inputFee);
    for i := 0 to |plan|
      invariant |fitted| == |plan| && Apart(fitted) && SpareApart(fitted, regular, other)
      invariant PayTheirWay(values, regular, inputFee) && PayTheirWay(values, other, inputFee)
      invariant forall j :: 0 <= j < |plan| ==> ToppedUp(values, plan[j], fitted[j], inputFee)
      invariant forall j :: 0 <= j < i ==> |fitted[j].utxos| == Max(|plan[j].utxos|, declared[j])
      invariant |regular| + Shortage(plan[..i], declared[..i], swept, false) == |regularSpare|
      invariant |other| + Shortage(plan[..i], declared[..i], swept, true) == |sweptSpare|
      invariant forall j :: i <= j < |plan| ==> fitted[j] == plan[j]
    {
      var split := fitted[i];
      var short := if declared[i] > |split.utxos| then declared[i] - |split.utxos| else 0;
      var fromSwept := split.utxos != [] && split.utxos[0] in swept;
      var pool := if fromSwept then other else regular;
      ShortageOneMore(plan, declared, swept, false, i);
      ShortageOneMore(plan, declared, swept, true, i);
      if |pool| < short {
        ShortageOfPart(plan, declared, swept, fromSwept, i + 1);
        return Err("too few spare coins to keep a split's declared input count");
      }
      SwapSpare(fitted, regular, other);
      DrainKeepsApart(fitted, pool, if fromSwept then regular else other, i, short);
      AddedPays(values, plan[i], pool, short, inputFee);
      fitted := fitted[i := split.(utxos := split.utxos + pool[..short])];
      if fromSwept {
        other := pool[short..];
        SwapSpare(fitted, other, regular);
      } else {
        regular := pool[short..];
      }
    }
    assert plan[..|plan|] == plan && declared[..|plan|] == declared;
    return Ok(fitted);
  }

  lemma NoShortage(swept: set<OutPoint>)
    ensures Shortage([], [], swept, false) == 0 == Shortage([], [], swept, true)
  {
  }

  lemma NothingAdded(values: map<OutPoint, nat>, plan: seq<SplitPlan>, inputFee: nat)
    requires forall i :: 0 <= i < |plan| ==> NoRepeats(plan[i].utxos)
    ensures forall i :: 0 <= i < |plan| ==> ToppedUp(values, plan[i], plan[i], inputFee)
  {
  }

  lemma SwapSpare(plan: seq<SplitPlan>, a: seq<OutPoint>, b: seq<OutPoint>)
    ensures SpareApart(plan, a, b) ==> SpareApart(plan, b, a)
  {
  }

  lemma AddedPays(values: map<OutPoint, nat>, split: SplitPlan, pool: seq<OutPoint>, short: nat, inputFee: nat)
    requires short <= |pool| && PayTheirWay(values, pool, inputFee)
    ensures PayTheirWay(values, pool[short..], inputFee)
    ensures NoRepeats(split.utxos + pool[..short]) ==> ToppedUp(values, split, split.(utxos := split.utxos + pool[..short]), inputFee)
  {
  }

  /** The two pools the wallet plans from. */
  predicate GoodPools(values: map<OutPoint, nat>, regular: seq<Utxo>, swept: seq<Utxo>) {
    && DistinctCoins(regular) && DistinctCoins(swept) && Agrees(values, regular) && Agrees(values, swept)
    && Outpoints(regular) !! Outpoints(swept)
  }

  /** Everything a fitted plan promises: the declared shape, the same forwarded total, and splits that pay for themselves from their own coins. */
  predicate Fitted(values: map<OutPoint, nat>, plan: seq<SplitPlan>, declared: seq<nat>, total: nat, budget: nat, rate: real) {
    && |plan| == |declared| && Apart(plan)
    && Gross(plan, declared, budget, rate) == Some(total)
    && forall i :: 0 <= i < |plan| ==>
         var fee := FundingFeePolicy(declared[i], budget, rate);
         |plan[i].utxos| >= declared[i] && NoRepeats(plan[i].utxos) && fee.Some? && Pays(values, plan[i].utxos, plan[i].value + fee.value, rate)
  }

  lemma SpareIsApart(plan: seq<SplitPlan>, regular: seq<Utxo>, swept: seq<Utxo>, a: seq<OutPoint>, b: seq<OutPoint>)
    requires NoRepeats(a) && NoRepeats(b) && Outpoints(regular) !! Outpoints(swept)
    requires CoinSet(a) <= Outpoints(regular) - PlanCoins(plan) && CoinSet(b) <= Outpoints(swept) - PlanCoins(plan)
    ensures SpareApart(plan, a, b)
  {
    hide Outpoints;
    assert forall i, coin :: 0 <= i < |plan| && coin in plan[i].utxos ==> coin in PlanCoins(plan);
  }

  /** `fit_declared_shape`. */
  method FitDeclaredShape(ghost values: map<OutPoint, nat>, renewed: seq<SplitPlan>, declared: seq<nat>, regular: seq<Utxo>, swept: seq<Utxo>,
                          budget: nat, rate: real, swapFee: nat, protocol: Protocol) returns (r: Result<seq<SplitPlan>>)
    requires GoodPools(values, regular, swept) && Apart(renewed)
    requires forall i :: 0 <= i < |renewed| ==> NoRepeats(renewed[i].utxos) && Pays(values, renewed[i].utxos, renewed[i].value, rate)
    ensures r.Ok? ==> Fitted(values, r.value, declared, PlanTotal(renewed), budget, rate)
    ensures r.Ok? ==> OverBudget(r.value, declared, budget, rate).Some? && OverBudget(r.value, declared, budget, rate).value <= swapFee
    ensures r.Err? ==> Unfit(renewed, declared, regular, swept, budget, rate, swapFee, protocol)
  {
    hide UnfitAs, PairedFrom, Shortage, Worthwhile, PayTheirWay, Agrees, DistinctCoins, PlanCoins, Fitted, Apart, SpareApart, Pays, ToppedUp,
      Outpoints, CoinSet, NoRepeats, OverBudget, NetSplit, FeeAtRate, MinContractValue, PlanTotal;
    if |renewed| != |declared| {
      return Err("re-plan has a different split count");
    }
    var paired := PairBySize(values, renewed, declared, rate);
    var used := PlanCoins(paired);
    var inputFee := FeeAtRate(68, rate);
    if inputFee.None? {
      return Err("input fee arithmetic overflow");
    }
    var regularSpare := SpareCoins(values, regular, used, inputFee.value);
    var sweptSpare := SpareCoins(values, swept, used, inputFee.value);
    SpareIsApart(paired, regular, swept, regularSpare, sweptSpare);
    var topped := TopUp(values, paired, declared, Outpoints(swept), regularSpare, sweptSpare, inputFee.value);
    if topped.Err? {
      TooFewSpare(paired, declared, regular, swept, budget, rate, swapFee, protocol, inputFee.value, regularSpare, sweptSpare);
      return topped;
    }
    var ok := CheckOverBudget(topped.value, declared, budget, rate, swapFee);
    if !ok {
      DoesNotFit(values, paired, topped.value, declared, regular, swept, budget, rate, swapFee, protocol, inputFee.value);
      return Err("funding plan spends above the taker's input budget");
    }
    r := NetPolicyFees(topped.value, declared, budget, rate, protocol);
    if r.Err? {
      DoesNotFit(values, paired, topped.value, declared, regular, swept, budget, rate, swapFee, protocol, inputFee.value);
    } else {
      FittedFrom(values, paired, topped.value, r.value, declared, budget, rate, inputFee.value, MinContractValue(protocol, rate).value);
    }
  }

  /** The same splits in another order, where a larger declared count never has the smaller split. */
  ghost predicate PairedFrom(renewed: seq<SplitPlan>, declared: seq<nat>, paired: seq<SplitPlan>)
    requires |renewed| == |declared|
  {
    && |paired| == |renewed| && (exists p: seq<nat> :: Permutation(p, |renewed|) && paired == Permuted(renewed, p))
    && forall i, j :: 0 <= i < |paired| && 0 <= j < |paired| && declared[i] < declared[j] ==> |paired[i].utxos| <= |paired[j].utxos|
  }

  /** The plan with coins added up to the declared counts. */
  ghost predicate FilledUp(plan: seq<SplitPlan>, declared: seq<nat>, topped: seq<SplitPlan>)
    requires |declared| == |plan|
  {
    |topped| == |plan| && forall i :: 0 <= i < |plan| ==>
      topped[i].value == plan[i].value && plan[i].utxos <= topped[i].utxos && |topped[i].utxos| == Max(|plan[i].utxos|, declared[i])
  }

  /** Why a plan in the declared order does not fit: too few spare coins in a pool, too dear for the hop, or a split below the floor. */
  ghost predicate UnfitAs(paired: seq<SplitPlan>, declared: seq<nat>, regular: seq<Utxo>, swept: seq<Utxo>, budget: nat, rate: real,
                          swapFee: nat, protocol: Protocol, inputFee: nat)
    requires |declared| == |paired|
  {
    || Shortage(paired, declared, Outpoints(swept), false) > |Worthwhile(regular, PlanCoins(paired), inputFee)|
    || Shortage(paired, declared, Outpoints(swept), true) > |Worthwhile(swept, PlanCoins(paired), inputFee)|
    || exists topped :: FilledUp(paired, declared, topped) &&
         (var extra := OverBudget(topped, declared, budget, rate);
          extra.None? || extra.value > swapFee || !Nettable(topped, declared, budget, rate, protocol))
  }

  /** Why a re-plan does not fit the declared shape. */
  ghost predicate Unfit(renewed: seq<SplitPlan>, declared: seq<nat>, regular: seq<Utxo>, swept: seq<Utxo>, budget: nat, rate: real,
                        swapFee: nat, protocol: Protocol) {
    || |renewed| != |declared| || FeeAtRate(68, rate).None?
    || exists paired :: PairedFrom(renewed, declared, paired)
                        && UnfitAs(paired, declared, regular, swept, budget, rate, swapFee, protocol, FeeAtRate(68, rate).value)
  }

  lemma TooFewSpare(paired: seq<SplitPlan>, declared: seq<nat>, regular: seq<Utxo>, swept: seq<Utxo>, budget: nat, rate: real,
                    swapFee: nat, protocol: Protocol, inputFee: nat, regularSpare: seq<OutPoint>, sweptSpare: seq<OutPoint>)
    requires |declared| == |paired| && NoRepeats(regularSpare) && NoRepeats(sweptSpare)
    requires CoinSet(regularSpare) == Worthwhile(regular, PlanCoins(paired), inputFee)
    requires CoinSet(sweptSpare) == Worthwhile(swept, PlanCoins(paired), inputFee)
    requires Shortage(paired, declared, Outpoints(swept), false) > |regularSpare| || Shortage(paired, declared, Outpoints(swept), true) > |sweptSpare|
    ensures UnfitAs(paired, declared, regular, swept, budget, rate, swapFee, protocol, inputFee)
  {
    hide Shortage, Worthwhile;
    CountOnce(regularSpare);
    CountOnce(sweptSpare);
  }

  lemma {:induction false} CountOnce(coins: seq<OutPoint>)
    requires NoRepeats(coins)
    ensures |CoinSet(coins)| == |coins|
  {
    if coins != [] {
      var last := |coins| - 1;
      CountOnce(coins[..last]);
      assert CoinSet(coins) == CoinSet(coins[..last]) + {coins[last]};
      assert coins[last] !in CoinSet(coins[..last]);
    }
  }

  lemma DoesNotFit(values: map<OutPoint, nat>, paired: seq<SplitPlan>, topped: seq<SplitPlan>, declared: seq<nat>, regular: seq<Utxo>, swept: seq<Utxo>, budget: nat, rate: real,
                   swapFee: nat, protocol: Protocol, inputFee: nat)
    requires |declared| == |paired| == |topped|
    requires forall i :: 0 <= i < |paired| ==>
               ToppedUp(values, paired[i], topped[i], inputFee) && |topped[i].utxos| == Max(|paired[i].utxos|, declared[i])
    requires var extra := OverBudget(topped, declared, budget, rate);
             extra.None? || extra.value > swapFee || !Nettable(topped, declared, budget, rate, protocol)
    ensures UnfitAs(paired, declared, regular, swept, budget, rate, swapFee, protocol, inputFee)
  {
    hide OverBudget, Nettable, Shortage, Worthwhile;
    assert FilledUp(paired, declared, topped);
  }

  /** The `i`-th smallest new split goes to the `i`-th smallest declared count. */
  method PairBySize(ghost values: map<OutPoint, nat>, renewed: seq<SplitPlan>, declared: seq<nat>, rate: real) returns (paired: seq<SplitPlan>)
    requires |renewed| == |declared| && Apart(renewed)
    requires forall i :: 0 <= i < |renewed| ==> NoRepeats(renewed[i].utxos) && Pays(values, renewed[i].utxos, renewed[i].value, rate)
    ensures |paired| == |renewed| && Apart(paired) && PlanTotal(paired) == PlanTotal(renewed)
    ensures forall i :: 0 <= i < |paired| ==> NoRepeats(paired[i].utxos) && Pays(values, paired[i].utxos, paired[i].value, rate)
    ensures PairedFrom(renewed, declared, paired)
  {
    var bySize := OrderBy(InputCounts(renewed));
    var order := OrderBy(declared);
    var rank := Ranks(order);
    var n := |renewed|;
    var p := seq(n, i requires 0 <= i < n => bySize[rank[i]]);
    ComposedPermutation(bySize, rank, p, n);
    PermutedTotal(renewed, p);
    PermutedApart(renewed, p);
    paired := Permuted(renewed, p);
    PairedBySize(renewed, declared, bySize, order, rank, p);
  }

  lemma ComposedPermutation(outer: seq<nat>, inner: seq<nat>, p: seq<nat>, n: nat)
    requires Permutation(outer, n) && Permutation(inner, n) && |p| == n && forall i :: 0 <= i < n ==> p[i] == outer[inner[i]]
    ensures Permutation(p, n)
  {
  }

  lemma PermutedApart(plan: seq<SplitPlan>, p: seq<nat>)
    requires Permutation(p, |plan|) && Apart(plan)
    ensures Apart(Permuted(plan, p))
  {
  }

  lemma PairedBySize(renewed: seq<SplitPlan>, declared: seq<nat>, bySize: seq<nat>, order: seq<nat>, rank: seq<nat>, p: seq<nat>)
    requires |renewed| == |declared|
    requires Permutation(bySize, |renewed|) && Ascending(bySize, InputCounts(renewed))
    requires Permutation(order, |renewed|) && Ascending(order, declared)
    requires Permutation(rank, |renewed|) && forall r :: 0 <= r < |order| ==> rank[order[r]] == r
    requires Permutation(p, |renewed|) && forall i :: 0 <= i < |p| ==> p[i] == bySize[rank[i]]
    ensures forall i, j :: 0 <= i < |renewed| && 0 <= j < |renewed| && declared[i] < declared[j] ==>
              |Permuted(renewed, p)[i].utxos| <= |Permuted(renewed, p)[j].utxos|
  {
    var n := |renewed|;
    forall i, j | 0 <= i < n && 0 <= j < n && declared[i] < declared[j]
      ensures |Permuted(renewed, p)[i].utxos| <= |Permuted(renewed, p)[j].utxos|
    {
      PermutationHitsAll(order, n, i);
      PermutationHitsAll(order, n, j);
      var a :| 0 <= a < n && order[a] == i;
      var b :| 0 <= b < n && order[b] == j;
      assert a < b;
      assert InputCounts(renewed)[bySize[a]] <= InputCounts(renewed)[bySize[b]];
    }
  }

  lemma FittedFrom(values: map<OutPoint, nat>, paired: seq<SplitPlan>, topped: seq<SplitPlan>, plan: seq<SplitPlan>, declared: seq<nat>,
                   budget: nat, rate: real, inputFee: nat, floor: nat)
    requires |topped| == |paired| == |declared| && Apart(topped) && NettedFrom(topped, declared, budget, rate, floor, plan)
    requires OverBudget(topped, declared, budget, rate).Some? && FeeAtRate(68, rate) == Some(inputFee)
    requires forall i :: 0 <= i < |paired| ==> Pays(values, paired[i].utxos, paired[i].value, rate)
    requires forall i :: 0 <= i < |paired| ==> ToppedUp(values, paired[i], topped[i], inputFee) && |topped[i].utxos| >= declared[i]
    ensures Fitted(values, plan, declared, PlanTotal(paired), budget, rate)
    ensures OverBudget(plan, declared, budget, rate) == OverBudget(topped, declared, budget, rate)
  {
    hide Gross, OverBudget, PlanTotal, Worth, Apart, NoRepeats;
    NettingConserves(topped, declared, budget, rate, floor, plan);
    NettingKeepsCoins(topped, declared, budget, rate, floor, plan);
    SameTotal(paired, topped);
    SameOverBudget(topped, plan, declared, budget, rate);
    ApartByCoins(topped, plan);
    forall i | 0 <= i < |plan|
      ensures NoRepeats(plan[i].utxos) && |plan[i].utxos| >= declared[i] && FundingFeePolicy(declared[i], budget, rate).Some?
      ensures Pays(values, plan[i].utxos, plan[i].value + FundingFeePolicy(declared[i], budget, rate).value, rate)
    {
      FittedSplit(values, paired[i], topped[i], plan[i], declared[i], budget, rate, inputFee, floor) by {
        PricedFee(topped, declared, budget, rate, i);
      }
    }
  }

  lemma ApartByCoins(a: seq<SplitPlan>, b: seq<SplitPlan>)
    requires Apart(a) && |b| == |a| && forall i :: 0 <= i < |a| ==> b[i].utxos == a[i].utxos
    ensures Apart(b)
  {
  }

  lemma FittedSplit(values: map<OutPoint, nat>, paired: SplitPlan, topped: SplitPlan, split: SplitPlan, declared: nat, budget: nat, rate: real,
                    inputFee: nat, floor: nat)
    requires Pays(values, paired.utxos, paired.value, rate) && ToppedUp(values, paired, topped, inputFee)
    requires FeeAtRate(68, rate) == Some(inputFee) && FundingFee(|topped.utxos|, rate).Some?
    requires NetSplit(topped, declared, budget, rate, floor) == Some(split)
    ensures FundingFeePolicy(declared, budget, rate).Some? && split.utxos == topped.utxos && NoRepeats(split.utxos)
    ensures Pays(values, split.utxos, split.value + FundingFeePolicy(declared, budget, rate).value, rate)
  {
    var more := topped.utxos[|paired.utxos|..];
    assert paired.utxos + more == topped.utxos;
    ToppedUpStillPays(values, paired.utxos, more, paired.value, rate);
  }

  lemma {:induction false} SameTotal(a: seq<SplitPlan>, b: seq<SplitPlan>)
    requires |a| == |b| && forall i :: 0 <= i < |a| ==> a[i].value == b[i].value
    ensures PlanTotal(a) == PlanTotal(b)
    decreases |a|
  {
    if a != [] {
      SameTotal(a[..|a| - 1], b[..|b| - 1]);
    }
  }

  lemma {:induction false} SameOverBudget(a: seq<SplitPlan>, b: seq<SplitPlan>, declared: seq<nat>, budget: nat, rate: real)
    requires |a| == |b| == |declared| && InputCounts(a) == InputCounts(b)
    ensures OverBudget(a, declared, budget, rate) == OverBudget(b, declared, budget, rate)
    decreases |a|
  {
    if a != [] {
      var last := |a| - 1;
      assert InputCounts(a[..last]) == InputCounts(a)[..last] && InputCounts(b[..last]) == InputCounts(b)[..last];
      assert |a[last].utxos| == InputCounts(a)[last] && |b[last].utxos| == InputCounts(b)[last];
      SameOverBudget(a[..last], b[..last], declared[..last], budget, rate);
    }
  }

  /** A priced plan has a priced fee for every split. */
  lemma {:induction false} PricedFee(plan: seq<SplitPlan>, declared: seq<nat>, budget: nat, rate: real, i: nat)
    requires |declared| == |plan| && i < |plan| && OverBudget(plan, declared, budget, rate).Some?
    ensures FundingFee(|plan[i].utxos|, rate).Some?
    decreases |plan|
  {
    if i < |plan| - 1 {
      PricedFee(plan[..|plan| - 1], declared[..|plan| - 1], budget, rate, i);
    }
  }
}
