/** Splitting an amount over funding transactions (`src/wallet/funding.rs`). */
module Planner {
  import opened Common
  import opened MakerState
  import opened FeePolicy
  import opened CoinSelection

  /** What a split's coins must cover: its value plus the real fee, or plus the change margin of an exact spend. */
  function Need(target: nat, inputs: nat, rate: real, exactChange: Option<nat>): Option<nat> {
    match exactChange
    case Some(change) => CheckedAdd(Some(target), Some(change))
    case None => CheckedAdd(FundingFee(inputs, rate), Some(target))
  }

  lemma NeedMonotone(target: nat, fewer: nat, more: nat, rate: real, exactChange: Option<nat>)
    requires fewer <= more && Need(target, more, rate, exactChange).Some?
    ensures Need(target, fewer, rate, exactChange).Some?
         && Need(target, fewer, rate, exactChange).value <= Need(target, more, rate, exactChange).value
  {
    if exactChange.None? {
      FeeMonotone(FundingTxVsize(fewer), FundingTxVsize(more), rate);
    }
  }

  /** The chosen coins cover the split they are for. */
  predicate Funds(pool: seq<Utxo>, chosen: set<nat>, target: nat, rate: real, exactChange: Option<nat>) {
    InPool(pool, chosen) && var need := Need(target, |chosen|, rate, exactChange); need.Some? && SumOf(pool, chosen) >= need.value
  }

  lemma CoverFunds(pool: seq<Utxo>, chosen: set<nat>, n: nat, target: nat, rate: real, exactChange: Option<nat>)
    requires |chosen| <= n && Need(target, n, rate, exactChange).Some?
    requires IsCover(pool, chosen, Need(target, n, rate, exactChange).value)
    ensures Funds(pool, chosen, target, rate, exactChange)
  {
    NeedMonotone(target, |chosen|, n, rate, exactChange);
  }

  /** No `m` coins fund the split. */
  ghost predicate NoneFund(pool: seq<Utxo>, m: nat, target: nat, rate: real, exactChange: Option<nat>) {
    forall chosen :: |chosen| == m ==> !Funds(pool, chosen, target, rate, exactChange)
  }

  /** Neither one coin nor two, as far as the budget allows, fund the split. */
  ghost predicate StuckAt(pool: seq<Utxo>, target: nat, budget: nat, rate: real, exactChange: Option<nat>) {
    && (budget >= 1 ==> NoneFund(pool, 1, target, rate, exactChange))
    && (budget >= 2 ==> NoneFund(pool, 2, target, rate, exactChange))
  }

  /** The fewest coins within the budget; exact for one and two. */
  method PickWithinBudget(pool: seq<Utxo>, target: nat, budget: nat, rate: real, exactChange: Option<nat>)
    returns (picked: Option<set<nat>>)
    requires Descending(pool)
    ensures picked.Some? ==> |picked.value| <= budget && Funds(pool, picked.value, target, rate, exactChange)
    ensures picked.Some? && |picked.value| > 1 ==> NoneFund(pool, 1, target, rate, exactChange)
    ensures picked.Some? && |picked.value| > 2 ==> NoneFund(pool, 2, target, rate, exactChange)
    ensures picked.None? ==> StuckAt(pool, target, budget, rate, exactChange)
  {
    hide Need, SumOf, First, Funds, NoneFund;
    var topSum := 0;
    var limit := Min(budget, |pool|);
    SumOfNone(pool);
    assert First(0) == {};
    for n := 1 to limit + 1
      invariant topSum == SumOf(pool, First(n - 1))
      invariant n > 1 ==> NoneFund(pool, 1, target, rate, exactChange)
      invariant n > 2 ==> NoneFund(pool, 2, target, rate, exactChange)
    {
      SumOfOneMore(pool, First(n - 1), n - 1);
      assert First(n) == First(n - 1) + {n - 1};
      topSum := topSum + pool[n - 1].value;
      var need := Need(target, n, rate, exactChange);
      if need.Some? && topSum >= need.value {
        var cover := SmallestCover(pool, n, need.value);
        if cover.Some? {
          CoverFunds(pool, cover.value, n, target, rate, exactChange);
          return cover;
        }
      } else if need.Some? {
        TopSumTooSmall(pool, n, need.value);
      }
      if n <= 2 {
        NoCoverNoneFund(pool, n, target, rate, exactChange);
      }
    }
    TooFewCoins(pool, 1, target, rate, exactChange);
    TooFewCoins(pool, 2, target, rate, exactChange);
    return None;
  }

  lemma TooFewCoins(pool: seq<Utxo>, m: nat, target: nat, rate: real, exactChange: Option<nat>)
    ensures |pool| < m ==> NoneFund(pool, m, target, rate, exactChange)
  {
    if |pool| < m {
      forall chosen: set<nat> | |chosen| == m
        ensures !Funds(pool, chosen, target, rate, exactChange)
      {
        if InPool(pool, chosen) {
          SizeBound(pool, chosen);
        }
      }
    }
  }

  /** Without a cover of what `n` inputs need, no `n` coins fund the split. */
  lemma NoCoverNoneFund(pool: seq<Utxo>, n: nat, target: nat, rate: real, exactChange: Option<nat>)
    requires Need(target, n, rate, exactChange).Some? ==> NoCover(pool, n, Need(target, n, rate, exactChange).value)
    ensures NoneFund(pool, n, target, rate, exactChange)
  {
  }

  /** When the `n` largest coins fall short, so do any `n`. */
  lemma TopSumTooSmall(pool: seq<Utxo>, n: nat, need: nat)
    requires Descending(pool) && SumOf(pool, First(n)) < need
    ensures NoCover(pool, n, need)
  {
    forall other: set<nat> | |other| == n && InPool(pool, other)
      ensures SumOf(pool, other) < need
    {
      LargestFirst(pool, other);
    }
  }

  /** The single-split fallback: largest coins first, beyond the budget; fails only when no coins fund the split. */
  method PickOverBudget(pool: seq<Utxo>, target: nat, rate: real, exactChange: Option<nat>) returns (picked: Option<set<nat>>)
    requires Descending(pool)
    ensures picked.Some? ==> Funds(pool, picked.value, target, rate, exactChange)
    ensures picked.None? ==> forall chosen :: !Funds(pool, chosen, target, rate, exactChange)
  {
    hide Need, SumOf, First;
    var covered, count := 0, 0;
    SumOfNone(pool);
    assert First(0) == {};
    var need := Need(target, 0, rate, exactChange);
    while count < |pool| && need.Some? && covered < need.value
      invariant count <= |pool| && covered == SumOf(pool, First(count)) && need == Need(target, count, rate, exactChange)
      invariant forall c: nat :: c < count ==> ShortAt(pool, c, target, rate, exactChange)
    {
      assert ShortAt(pool, count, target, rate, exactChange);
      SumOfOneMore(pool, First(count), count);
      assert First(count + 1) == First(count) + {count};
      covered := covered + pool[count].value;
      count := count + 1;
      need := Need(target, count, rate, exactChange);
    }
    if need.Some? && covered >= need.value {
      return Some(First(count));
    }
    NothingFunds(pool, count, target, rate, exactChange);
    return None;
  }

  /** The largest coins fell short at every count, until they ran out or the fee could not be priced. */
  lemma NothingFunds(pool: seq<Utxo>, count: nat, target: nat, rate: real, exactChange: Option<nat>)
    requires Descending(pool) && count <= |pool|
    requires forall c: nat :: c < count ==> ShortAt(pool, c, target, rate, exactChange)
    requires Need(target, count, rate, exactChange).None? || (count == |pool| && ShortAt(pool, count, target, rate, exactChange))
    ensures forall chosen :: !Funds(pool, chosen, target, rate, exactChange)
  {
    hide SumOf, First, Need;
    forall chosen: set<nat> | InPool(pool, chosen)
      ensures !Funds(pool, chosen, target, rate, exactChange)
    {
      SizeBound(pool, chosen);
      LargestFirst(pool, chosen);
      if |chosen| < count {
        assert ShortAt(pool, |chosen|, target, rate, exactChange);
      } else if Need(target, |chosen|, rate, exactChange).Some? {
        NeedMonotone(target, count, |chosen|, rate, exactChange);
      }
    }
  }

  /** The `c` largest coins fall short of what `c` inputs need. */
  predicate ShortAt(pool: seq<Utxo>, c: nat, target: nat, rate: real, exactChange: Option<nat>) {
    var need := Need(target, c, rate, exactChange); need.Some? && SumOf(pool, First(c)) < need.value
  }

  // ---------------------------------------------------------------- a whole plan

  function PlanTotal(plan: seq<SplitPlan>): nat
    decreases |plan|
  {
    if plan == [] then 0 else PlanTotal(plan[..|plan| - 1]) + plan[|plan| - 1].value
  }

  /** The split's coins are distinct and worth its need. */
  predicate SplitFunded(values: map<OutPoint, nat>, split: SplitPlan, rate: real, exactChange: Option<nat>) {
    NoRepeats(split.utxos)
    && var need := Need(split.value, |split.utxos|, rate, exactChange);
       need.Some? && Worth(values, split.utxos) >= need.value
  }

  predicate SplitsFunded(values: map<OutPoint, nat>, plan: seq<SplitPlan>, minSplit: nat, rate: real, exactChange: Option<nat>) {
    forall i :: 0 <= i < |plan| ==> plan[i].value >= minSplit && SplitFunded(values, plan[i], rate, exactChange)
  }

  predicate Apart(plan: seq<SplitPlan>) {
    forall i, j :: 0 <= i < j < |plan| ==> CoinSet(plan[i].utxos) !! CoinSet(plan[j].utxos)
  }

  predicate DrawnFrom(plan: seq<SplitPlan>, coins: set<OutPoint>) {
    forall i :: 0 <= i < |plan| ==> CoinSet(plan[i].utxos) <= coins
  }

  /** At most `budget` coins per split, except that a plan of one split may exceed it. */
  predicate WithinBudget(plan: seq<SplitPlan>, budget: nat) {
    |plan| > 1 ==> forall i :: 0 <= i < |plan| ==> |plan[i].utxos| <= budget
  }

  /** Everything a plan promises. */
  predicate Sound(values: map<OutPoint, nat>, coins: set<OutPoint>, plan: seq<SplitPlan>, total: nat, budget: nat, minSplit: nat,
                  rate: real, exactChange: Option<nat>) {
    && PlanTotal(plan) == total
    && SplitsFunded(values, plan, minSplit, rate, exactChange)
    && Apart(plan) && DrawnFrom(plan, coins) && WithinBudget(plan, budget)
  }

  lemma MulMonotone(a: nat, b: nat, c: nat)
    requires a <= b
    ensures a * c <= b * c
  {
  }

  lemma DivBounds(n: nat, d: nat)
    requires d > 0
    ensures (n / d) * d <= n < (n / d + 1) * d
  {
    assert n == (n / d) * d + n % d;
  }

  predicate Enough(left: nat, splits: nat, minSplit: nat) {
    left >= splits * minSplit
  }

  function Share(left: nat, splits: nat): nat
    requires splits > 0
  {
    left / splits
  }

  /** Cutting an even share off leaves an even share for each of the others. */
  lemma EvenShare(left: nat, splits: nat, minSplit: nat)
    requires splits > 0 && Enough(left, splits, minSplit)
    ensures minSplit <= Share(left, splits) <= left
    ensures Enough(left - Share(left, splits), splits - 1, minSplit)
    ensures splits == 1 ==> Share(left, splits) == left
  {
    var share := Share(left, splits);
    DivBounds(left, splits);
    if share < minSplit {
      MulMonotone(share + 1, minSplit, splits);
    }
    MulMonotone(minSplit, share, splits - 1);
    assert share * splits == share * (splits - 1) + share;
  }

  /** One split planned and its coins taken. */
  lemma SplitTaken(values: map<OutPoint, nat>, pool: seq<Utxo>, chosen: set<nat>, target: nat, rate: real, exactChange: Option<nat>)
    requires Descending(pool) && DistinctCoins(pool) && Agrees(values, pool) && Funds(pool, chosen, target, rate, exactChange)
    ensures SplitFunded(values, SplitPlan(Taken(pool, chosen), target), rate, exactChange)
    ensures |Taken(pool, chosen)| == |chosen|
    ensures var rest := Rest(pool, chosen);
            Descending(rest) && DistinctCoins(rest) && Agrees(values, rest)
            && Outpoints(rest) == Outpoints(pool) - CoinSet(Taken(pool, chosen))
            && CoinSet(Taken(pool, chosen)) <= Outpoints(pool)
  {
    TakenWorth(values, pool, chosen);
    TakenSize(pool, chosen);
    TakingSplits(pool, chosen);
    RestKeeps(values, pool, chosen);
  }

  /** The splits planned so far, and the pool that remains. */
  predicate Partial(values: map<OutPoint, nat>, coins: set<OutPoint>, plan: seq<SplitPlan>, remaining: seq<Utxo>, minSplit: nat,
                    rate: real, exactChange: Option<nat>) {
    && Descending(remaining) && DistinctCoins(remaining) && Agrees(values, remaining) && Outpoints(remaining) <= coins
    && SplitsFunded(values, plan, minSplit, rate, exactChange) && Apart(plan) && DrawnFrom(plan, coins)
    && forall i :: 0 <= i < |plan| ==> CoinSet(plan[i].utxos) !! Outpoints(remaining)
  }

  lemma PartialExtends(values: map<OutPoint, nat>, coins: set<OutPoint>, plan: seq<SplitPlan>, remaining: seq<Utxo>, minSplit: nat,
                       rate: real, exactChange: Option<nat>, chosen: set<nat>, target: nat)
    requires Partial(values, coins, plan, remaining, minSplit, rate, exactChange)
    requires Funds(remaining, chosen, target, rate, exactChange) && target >= minSplit
    ensures Partial(values, coins, plan + [SplitPlan(Taken(remaining, chosen), target)], Rest(remaining, chosen), minSplit, rate, exactChange)
    ensures |Taken(remaining, chosen)| == |chosen| && Outpoints(Rest(remaining, chosen)) == Outpoints(remaining) - CoinSet(Taken(remaining, chosen))
  {
    hide Taken, Rest, SplitFunded, Agrees, Descending, DistinctCoins, Funds;
    SplitTaken(values, remaining, chosen, target, rate, exactChange);
  }

  function PlanCoins(plan: seq<SplitPlan>): set<OutPoint> {
    set i, coin | 0 <= i < |plan| && coin in plan[i].utxos :: coin
  }

  /** Why `k` splits do not come about: after some of them, an even share of the rest is not funded by one or two of all the coins left. */
  ghost predicate Stuck(values: map<OutPoint, nat>, pool: seq<Utxo>, total: nat, k: nat, budget: nat, rate: real, minSplit: nat,
                        exactChange: Option<nat>) {
    exists plans: seq<SplitPlan>, left: seq<Utxo> ::
      && Partial(values, Outpoints(pool), plans, left, minSplit, rate, exactChange) && Outpoints(left) == Outpoints(pool) - PlanCoins(plans)
      && |plans| < k && PlanTotal(plans) <= total
      && StuckAt(left, Share(total - PlanTotal(plans), k - |plans|), budget, rate, exactChange)
  }

  lemma NoSplitsYet(values: map<OutPoint, nat>, pool: seq<Utxo>, minSplit: nat, rate: real, exactChange: Option<nat>)
    requires Descending(pool) && DistinctCoins(pool) && Agrees(values, pool)
    ensures PlanCoins([]) == {} && Partial(values, Outpoints(pool), [], pool, minSplit, rate, exactChange)
  {
  }

  lemma PartialPool(values: map<OutPoint, nat>, coins: set<OutPoint>, plans: seq<SplitPlan>, left: seq<Utxo>, minSplit: nat, rate: real,
                    exactChange: Option<nat>)
    requires Partial(values, coins, plans, left, minSplit, rate, exactChange)
    ensures Descending(left)
  {
  }

  lemma PartialSound(values: map<OutPoint, nat>, coins: set<OutPoint>, plans: seq<SplitPlan>, left: seq<Utxo>, budget: nat, minSplit: nat,
                     rate: real, exactChange: Option<nat>)
    requires Partial(values, coins, plans, left, minSplit, rate, exactChange)
    requires |plans| > 1 ==> forall j :: 0 <= j < |plans| ==> |plans[j].utxos| <= budget
    ensures Sound(values, coins, plans, PlanTotal(plans), budget, minSplit, rate, exactChange)
  {
  }

  lemma IsStuck(values: map<OutPoint, nat>, pool: seq<Utxo>, plans: seq<SplitPlan>, left: seq<Utxo>, total: nat, k: nat, budget: nat, rate: real,
                minSplit: nat, exactChange: Option<nat>)
    requires Partial(values, Outpoints(pool), plans, left, minSplit, rate, exactChange) && Outpoints(left) == Outpoints(pool) - PlanCoins(plans)
    requires |plans| < k && PlanTotal(plans) <= total
    requires StuckAt(left, Share(total - PlanTotal(plans), k - |plans|), budget, rate, exactChange)
    ensures Stuck(values, pool, total, k, budget, rate, minSplit, exactChange)
  {
    hide Partial, StuckAt, Outpoints, PlanCoins, Share;
  }

  lemma OneMoreSplit(plans: seq<SplitPlan>, split: SplitPlan)
    ensures PlanCoins(plans + [split]) == PlanCoins(plans) + CoinSet(split.utxos)
  {
    var longer := plans + [split];
    forall coin | coin in CoinSet(split.utxos)
      ensures coin in PlanCoins(longer)
    {
      assert longer[|plans|] == split;
    }
    forall coin | coin in PlanCoins(plans)
      ensures coin in PlanCoins(longer)
    {
      var i :| 0 <= i < |plans| && coin in plans[i].utxos;
      assert longer[i] == plans[i];
    }
  }

  /** `plan_with_k`: exactly `k` even splits, or none. */
  method PlanWithK(ghost values: map<OutPoint, nat>, pool: seq<Utxo>, total: nat, k: nat, budget: nat, rate: real, minSplit: nat,
                   exactChange: Option<nat>) returns (plan: Option<seq<SplitPlan>>)
    requires Descending(pool) && DistinctCoins(pool) && Agrees(values, pool)
    ensures plan.Some? ==> |plan.value| == k > 0
                           && Sound(values, Outpoints(pool), plan.value, total, budget, minSplit, rate, exactChange)
    ensures plan.None? && k == 1 && total >= minSplit ==> forall chosen :: !Funds(pool, chosen, total, rate, exactChange)
    ensures plan.None? && k > 0 && Enough(total, k, minSplit) ==> Stuck(values, pool, total, k, budget, rate, minSplit, exactChange)
  {
    hide Funds, Agrees, Descending, DistinctCoins, Outpoints, Taken, Rest, Share, PlanCoins, StuckAt, Partial, Stuck, Sound;
    if k == 0 || !Enough(total, k, minSplit) {
      return None;
    }
    var remaining := pool;
    var plans: seq<SplitPlan>, handed := [], 0;
    NoSplitsYet(values, pool, minSplit, rate, exactChange);
    for i := 0 to k
      invariant |plans| == i && PlanTotal(plans) == handed <= total && Enough(total - handed, k - i, minSplit)
      invariant i == k ==> handed == total
      invariant i == 0 ==> remaining == pool && handed == 0
      invariant Partial(values, Outpoints(pool), plans, remaining, minSplit, rate, exactChange)
      invariant Outpoints(remaining) == Outpoints(pool) - PlanCoins(plans)
      invariant k > 1 ==> forall j :: 0 <= j < i ==> |plans[j].utxos| <= budget
    {
      EvenShare(total - handed, k - i, minSplit);
      PartialPool(values, Outpoints(pool), plans, remaining, minSplit, rate, exactChange);
      var target := Share(total - handed, k - i);
      var picked := PickWithinBudget(remaining, target, budget, rate, exactChange);
      if picked.None? {
        IsStuck(values, pool, plans, remaining, total, k, budget, rate, minSplit, exactChange);
      }
      if picked.None? && k == 1 {
        picked := PickOverBudget(remaining, target, rate, exactChange);
      }
      if picked.None? {
        return None;
      }
      PartialExtends(values, Outpoints(pool), plans, remaining, minSplit, rate, exactChange, picked.value, target);
      var rest, utxos := TakeCoins(remaining, picked.value);
      OneMoreSplit(plans, SplitPlan(utxos, target));
      remaining := rest;
      plans := plans + [SplitPlan(utxos, target)];
      handed := handed + target;
    }
    PartialSound(values, Outpoints(pool), plans, remaining, budget, minSplit, rate, exactChange);
    return Some(plans);
  }

  // ---------------------------------------------------------------- over a whole pool

  /** Larger values first, equal ones by outpoint. */
  predicate Before(a: Utxo, b: Utxo) {
    a.value > b.value || (a.value == b.value && a.outpoint >= b.outpoint)
  }

  function Inserted(sorted: seq<Utxo>, coin: Utxo): seq<Utxo> {
    if sorted == [] || Before(coin, sorted[0]) then [coin] + sorted else [sorted[0]] + Inserted(sorted[1..], coin)
  }

  /** The pool sorted for planning. */
  function Sorted(pool: seq<Utxo>): seq<Utxo> {
    if pool == [] then [] else Inserted(Sorted(pool[1..]), pool[0])
  }

  predicate AtMost(pool: seq<Utxo>, top: nat) {
    forall i :: 0 <= i < |pool| ==> pool[i].value <= top
  }

  lemma {:induction false} InsertedAtMost(sorted: seq<Utxo>, coin: Utxo, top: nat)
    requires AtMost(sorted, top) && coin.value <= top
    ensures AtMost(Inserted(sorted, coin), top)
  {
    if sorted != [] && !Before(coin, sorted[0]) {
      InsertedAtMost(sorted[1..], coin, top);
    }
  }

  lemma DescendingFrom(head: Utxo, tail: seq<Utxo>)
    requires Descending(tail) && AtMost(tail, head.value)
    ensures Descending([head] + tail)
  {
  }

  lemma {:induction false} InsertedKeeps(sorted: seq<Utxo>, coin: Utxo)
    requires Descending(sorted)
    ensures Descending(Inserted(sorted, coin)) && multiset(Inserted(sorted, coin)) == multiset(sorted) + multiset{coin}
  {
    if sorted == [] || Before(coin, sorted[0]) {
      DescendingFrom(coin, sorted);
    } else {
      InsertedKeeps(sorted[1..], coin);
      InsertedAtMost(sorted[1..], coin, sorted[0].value);
      DescendingFrom(sorted[0], Inserted(sorted[1..], coin));
      assert sorted == [sorted[0]] + sorted[1..];
    }
  }

  lemma {:induction false} SortedKeeps(pool: seq<Utxo>)
    ensures Descending(Sorted(pool)) && multiset(Sorted(pool)) == multiset(pool)
  {
    if pool != [] {
      SortedKeeps(pool[1..]);
      InsertedKeeps(Sorted(pool[1..]), pool[0]);
      assert pool == [pool[0]] + pool[1..];
    }
  }

  lemma SameCoins(values: map<OutPoint, nat>, a: seq<Utxo>, b: seq<Utxo>)
    requires multiset(a) == multiset(b) && DistinctCoins(a) && Agrees(values, a)
    ensures DistinctCoins(b) && Agrees(values, b) && Outpoints(b) == Outpoints(a)
  {
    forall u: Utxo
      ensures u in a <==> u in b
    {
      assert u in multiset(a) <==> u in multiset(b);
    }
    forall i | 0 <= i < |b|
      ensures b[i].outpoint in values && values[b[i].outpoint] == b[i].value && b[i].outpoint in Outpoints(a)
    {
      assert b[i] in a;
    }
    forall i | 0 <= i < |a|
      ensures a[i].outpoint in Outpoints(b)
    {
      assert a[i] in b;
    }
    DistinctKept(a, b);
  }

  lemma DistinctKept(a: seq<Utxo>, b: seq<Utxo>)
    requires multiset(a) == multiset(b) && DistinctCoins(a)
    ensures DistinctCoins(b)
  {
    forall i, j | 0 <= i < j < |b|
      ensures b[i].outpoint != b[j].outpoint
    {
      if b[i].outpoint == b[j].outpoint {
        assert b[i] in multiset(a) && b[j] in multiset(a);
        assert b[i] == b[j];
        Twice(b, i, j);
        OnceOnly(a, b[i]);
        assert false;
      }
    }
  }

  lemma Twice(s: seq<Utxo>, i: nat, j: nat)
    requires i < j < |s| && s[i] == s[j]
    ensures multiset(s)[s[i]] >= 2
  {
    assert s == s[..j] + [s[j]] + s[j + 1..];
    assert s[i] in multiset(s[..j]) by {
      assert s[..j][i] == s[i];
    }
  }

  lemma {:induction false} OnceOnly(s: seq<Utxo>, u: Utxo)
    requires DistinctCoins(s)
    ensures multiset(s)[u] <= 1
    decreases |s|
  {
    if s != [] {
      OnceOnly(s[1..], u);
      assert s == [s[0]] + s[1..];
      if s[0] == u && u in s[1..] {
        assert false;
      }
    }
  }

  /** These coins pay for a single split of the whole amount. */
  predicate CoinsFund(values: map<OutPoint, nat>, coins: seq<OutPoint>, total: nat, rate: real, exactChange: Option<nat>) {
    var need := Need(total, |coins|, rate, exactChange); need.Some? && Worth(values, coins) >= need.value
  }

  /** A choice of coins from the pool. */
  predicate ChoiceFrom(coins: seq<OutPoint>, available: set<OutPoint>) {
    NoRepeats(coins) && CoinSet(coins) <= available
  }

  lemma {:induction false} PositionsOf(values: map<OutPoint, nat>, pool: seq<Utxo>, coins: seq<OutPoint>) returns (chosen: set<nat>)
    requires DistinctCoins(pool) && Agrees(values, pool) && ChoiceFrom(coins, Outpoints(pool))
    ensures InPool(pool, chosen) && |chosen| == |coins| && SumOf(pool, chosen) == Worth(values, coins)
    ensures forall i :: i in chosen ==> pool[i].outpoint in coins
  {
    if coins == [] {
      chosen := {};
      SumOfNone(pool);
    } else {
      assert CoinSet(coins[1..]) <= CoinSet(coins);
      var others := PositionsOf(values, pool, coins[1..]);
      assert coins[0] in CoinSet(coins);
      var i: nat :| i < |pool| && pool[i].outpoint == coins[0];
      assert i !in others;
      chosen := others + {i};
      SumOfOneMore(pool, others, i);
    }
  }

  /** When no positions fund the amount, no choice of coins does. */
  lemma NoChoiceFunds(values: map<OutPoint, nat>, pool: seq<Utxo>, total: nat, rate: real, exactChange: Option<nat>)
    requires DistinctCoins(pool) && Agrees(values, pool)
    requires forall chosen :: !Funds(pool, chosen, total, rate, exactChange)
    ensures forall coins :: ChoiceFrom(coins, Outpoints(pool)) ==> !CoinsFund(values, coins, total, rate, exactChange)
  {
    forall coins | ChoiceFrom(coins, Outpoints(pool))
      ensures !CoinsFund(values, coins, total, rate, exactChange)
    {
      var chosen := PositionsOf(values, pool, coins);
      assert !Funds(pool, chosen, total, rate, exactChange);
    }
  }

  /**
   `plan_funding_splits`: from the largest number of splits down, each funded by its own coins. Every
   larger number was stuck, and it comes back empty only when no choice of the pool's coins pays for
   the amount at all.
   */
  method PlanFundingSplits(ghost values: map<OutPoint, nat>, pool: seq<Utxo>, total: nat, maxSplits: nat, budget: nat, rate: real,
                           minSplit: nat, exactChange: Option<nat>) returns (plan: seq<SplitPlan>)
    requires DistinctCoins(pool) && Agrees(values, pool)
    ensures plan != [] ==> |plan| <= maxSplits && Sound(values, Outpoints(pool), plan, total, budget, minSplit, rate, exactChange)
    ensures plan == [] && maxSplits > 0 && total >= minSplit ==>
              forall coins :: ChoiceFrom(coins, Outpoints(pool)) ==> !CoinsFund(values, coins, total, rate, exactChange)
    ensures forall j :: |plan| < j <= maxSplits && Enough(total, j, minSplit) ==>
              Stuck(values, Sorted(pool), total, j, budget, rate, minSplit, exactChange)
  {
    hide Sound, Funds, CoinsFund, Sorted, Stuck, Enough;
    var sorted := Sorted(pool);
    SortedKeeps(pool);
    SameCoins(values, pool, sorted);
    var k := maxSplits;
    while k > 0
      invariant 0 <= k <= maxSplits
      invariant k < maxSplits && k == 0 && total >= minSplit ==> forall chosen :: !Funds(sorted, chosen, total, rate, exactChange)
      invariant forall j :: k < j <= maxSplits && Enough(total, j, minSplit) ==>
                  Stuck(values, sorted, total, j, budget, rate, minSplit, exactChange)
    {
      var attempt := PlanWithK(values, sorted, total, k, budget, rate, minSplit, exactChange);
      if attempt.Some? {
        return attempt.value;
      }
      k := k - 1;
    }
    if maxSplits > 0 && total >= minSplit {
      NoChoiceFunds(values, sorted, total, rate, exactChange);
    }
    return [];
  }
}
