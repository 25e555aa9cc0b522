/** Funding plans under the taker's input budget, and netting the reimbursed fees (`src/wallet/funding.rs`). */
module Forwarding {
  import opened Common
  import opened MakerState
  import opened FeePolicy
  import opened CoinSelection
  import opened Planner

  // ---------------------------------------------------------------- what a plan spends above the budget

  /** The input count a split is reimbursed for. */
  function PricedInputs(inputs: nat, budget: nat): nat {
    Min(Max(inputs, 1), Max(budget, 1))
  }

  /** The real fee of a split minus the reimbursed one. */
  function ExtraFee(inputs: nat, declared: nat, budget: nat, rate: real): Option<nat> {
    var real', priced := FundingFee(inputs, rate), FundingFee(PricedInputs(declared, budget), rate);
    if real'.Some? && priced.Some? && real'.value >= priced.value then Some(real'.value - priced.value) else None
  }

  function OverBudget(plan: seq<SplitPlan>, declared: seq<nat>, budget: nat, rate: real): Option<nat>
    requires |declared| == |plan|
    decreases |plan|
  {
    if plan == [] then Some(0)
    else
      var last := |plan| - 1;
      CheckedAdd(OverBudget(plan[..last], declared[..last], budget, rate), ExtraFee(|plan[last].utxos|, declared[last], budget, rate))
  }

  function InputCounts(plan: seq<SplitPlan>): seq<nat> {
    seq(|plan|, i requires 0 <= i < |plan| => |plan[i].utxos|)
  }

  /** `check_over_budget_spend`: what the plan costs above the reimbursement stays within what the hop earns. */
  method CheckOverBudget(plan: seq<SplitPlan>, declared: seq<nat>, budget: nat, rate: real, swapFee: nat) returns (ok: bool)
    ensures ok <==> |declared| == |plan| && OverBudget(plan, declared, budget, rate).Some?
                    && OverBudget(plan, declared, budget, rate).value <= swapFee
  {
    if |declared| != |plan| {
      return false;
    }
    var total: Option<nat> := Some(0);
    for i := 0 to |plan|
      invariant total == OverBudget(plan[..i], declared[..i], budget, rate)
    {
      assert plan[..i + 1][..i] == plan[..i] && declared[..i + 1][..i] == declared[..i];
      total := CheckedAdd(total, ExtraFee(|plan[i].utxos|, declared[i], budget, rate));
    }
    assert plan[..|plan|] == plan && declared[..|declared|] == declared;
    return total.Some? && total.value <= swapFee;
  }

  /** A plan that keeps every split within the budget costs nothing above it. */
  lemma {:induction false} WithinBudgetCostsNothing(plan: seq<SplitPlan>, budget: nat, rate: real)
    requires forall i :: 0 <= i < |plan| ==> 1 <= |plan[i].utxos| <= budget && FundingFee(|plan[i].utxos|, rate).Some?
    ensures OverBudget(plan, InputCounts(plan), budget, rate) == Some(0)
    decreases |plan|
  {
    if plan != [] {
      var last := |plan| - 1;
      WithinBudgetCostsNothing(plan[..last], budget, rate);
      assert InputCounts(plan)[..last] == InputCounts(plan[..last]);
      assert PricedInputs(|plan[last].utxos|, budget) == |plan[last].utxos|;
    }
  }

  /** The real fees of the plan's transactions. */
  function RealFees(plan: seq<SplitPlan>, rate: real): Option<nat>
    decreases |plan|
  {
    if plan == [] then Some(0)
    else
      var last := |plan| - 1;
      var (before, fee) := (RealFees(plan[..last], rate), FundingFee(|plan[last].utxos|, rate));
      if before.Some? && fee.Some? then Some(before.value + fee.value) else None
  }

  /** The fees the taker reimburses. */
  function ReimbursedFees(plan: seq<SplitPlan>, budget: nat, rate: real): Option<nat>
    decreases |plan|
  {
    if plan == [] then Some(0)
    else
      var last := |plan| - 1;
      var (before, fee) := (ReimbursedFees(plan[..last], budget, rate), FundingFeePolicy(|plan[last].utxos|, budget, rate));
      if before.Some? && fee.Some? then Some(before.value + fee.value) else None
  }

  /** What the guard compares with the hop's fee is exactly what the plan costs above the reimbursement. */
  lemma {:induction false} GuardIsShortfall(plan: seq<SplitPlan>, budget: nat, rate: real)
    requires budget > 0 && OverBudget(plan, InputCounts(plan), budget, rate).Some?
    ensures RealFees(plan, rate).Some? && ReimbursedFees(plan, budget, rate).Some?
    ensures RealFees(plan, rate).value == ReimbursedFees(plan, budget, rate).value + OverBudget(plan, InputCounts(plan), budget, rate).value
    decreases |plan|
  {
    if plan != [] {
      var last := |plan| - 1;
      assert InputCounts(plan)[..last] == InputCounts(plan[..last]);
      GuardIsShortfall(plan[..last], budget, rate);
    }
  }

  // ---------------------------------------------------------------- planning from two pools

  const INSUFFICIENT_FUND := "InsufficientFund"

  function PoolSum(pool: seq<Utxo>): nat
    decreases |pool|
  {
    if pool == [] then 0 else PoolSum(pool[..|pool| - 1]) + pool[|pool| - 1].value
  }

  lemma {:induction false} SumOfAtMostAll(pool: seq<Utxo>, chosen: set<nat>)
    ensures SumOf(pool, chosen) <= PoolSum(pool)
    decreases |pool|
  {
    if pool != [] {
      SumOfAtMostAll(pool[..|pool| - 1], chosen);
    }
  }

  /** No choice of the pool's coins pays for the amount. */
  ghost predicate CannotFund(values: map<OutPoint, nat>, pool: seq<Utxo>, total: nat, rate: real) {
    forall coins :: ChoiceFrom(coins, Outpoints(pool)) ==> !CoinsFund(values, coins, total, rate, None)
  }

  /** A pool below the amount plus the one-input fee cannot fund it. */
  lemma PoolTooSmall(values: map<OutPoint, nat>, pool: seq<Utxo>, total: nat, rate: real)
    requires DistinctCoins(pool) && Agrees(values, pool) && FundingFee(1, rate).Some? && PoolSum(pool) < total + FundingFee(1, rate).value
    ensures CannotFund(values, pool, total, rate)
  {
    forall coins | ChoiceFrom(coins, Outpoints(pool))
      ensures !CoinsFund(values, coins, total, rate, None)
    {
      var chosen := PositionsOf(values, pool, coins);
      SumOfAtMostAll(pool, chosen);
      if coins == [] {
        assert Worth(values, coins) == 0;
      } else if Need(total, |coins|, rate, None).Some? {
        NeedMonotone(total, 1, |coins|, rate, None);
      }
    }
  }

  /** One pool: planned and within the guard. */
  ghost predicate PlannedFrom(values: map<OutPoint, nat>, pool: seq<Utxo>, plan: seq<SplitPlan>, total: nat, maxSplits: nat, budget: nat,
                              rate: real, minSplit: nat, swapFee: nat) {
    && 0 < |plan| <= maxSplits && Sound(values, Outpoints(pool), plan, total, budget, minSplit, rate, None)
    && var extra := OverBudget(plan, InputCounts(plan), budget, rate); extra.Some? && extra.value <= swapFee
  }

  /** The pool has a plan of its own, and spending it costs the hop more than it earns, or a fee that cannot be priced. */
  ghost predicate OverGuard(values: map<OutPoint, nat>, pool: seq<Utxo>, total: nat, maxSplits: nat, budget: nat,
                            rate: real, minSplit: nat, swapFee: nat) {
    exists plan :: 0 < |plan| <= maxSplits && Sound(values, Outpoints(pool), plan, total, budget, minSplit, rate, None)
                   && var extra := OverBudget(plan, InputCounts(plan), budget, rate); extra.None? || extra.value > swapFee
  }

  /** Why a plan is refused although the amount is above the floor. */
  ghost predicate PoolsRefuse(values: map<OutPoint, nat>, pools: seq<seq<Utxo>>, total: nat, maxSplits: nat, budget: nat,
                              rate: real, minSplit: nat, swapFee: nat, reason: string) {
    && (forall i :: 0 <= i < |pools| ==> CannotFund(values, pools[i], total, rate)
                                         || OverGuard(values, pools[i], total, maxSplits, budget, rate, minSplit, swapFee))
    && (reason == INSUFFICIENT_FUND ==> forall i :: 0 <= i < |pools| ==> CannotFund(values, pools[i], total, rate))
    && (reason != INSUFFICIENT_FUND ==>
          exists i :: 0 <= i < |pools| && OverGuard(values, pools[i], total, maxSplits, budget, rate, minSplit, swapFee))
  }

  lemma GuardDecides(values: map<OutPoint, nat>, pool: seq<Utxo>, plan: seq<SplitPlan>, total: nat, maxSplits: nat, budget: nat,
                     rate: real, minSplit: nat, swapFee: nat)
    requires 0 < |plan| <= maxSplits && Sound(values, Outpoints(pool), plan, total, budget, minSplit, rate, None)
    ensures |InputCounts(plan)| == |plan|
    ensures var extra := OverBudget(plan, InputCounts(plan), budget, rate);
            if extra.Some? && extra.value <= swapFee then PlannedFrom(values, pool, plan, total, maxSplits, budget, rate, minSplit, swapFee)
            else OverGuard(values, pool, total, maxSplits, budget, rate, minSplit, swapFee)
  {
    hide Sound, OverBudget;
  }

  /** `plan_from_pools` for a forwarding maker: the regular pool first, the swept one next, never both. */
  method PlanFromPools(ghost values: map<OutPoint, nat>, pools: seq<seq<Utxo>>, required: nat, total: nat, maxSplits: nat, budget: nat,
                       rate: real, swapFee: nat, minSplit: nat) returns (r: Result<seq<SplitPlan>>)
    requires forall i :: 0 <= i < |pools| ==> DistinctCoins(pools[i]) && Agrees(values, pools[i])
    requires FundingFee(1, rate).Some? && required == total + FundingFee(1, rate).value && total >= minSplit
    ensures r.Ok? ==> exists i :: 0 <= i < |pools| && PlannedFrom(values, pools[i], r.value, total, maxSplits, budget, rate, minSplit, swapFee)
    ensures r.Err? && maxSplits > 0 ==> PoolsRefuse(values, pools, total, maxSplits, budget, rate, minSplit, swapFee, r.reason)
  {
    hide Sound, CannotFund, CoinsFund, Agrees, DistinctCoins, OverBudget, InputCounts, OverGuard, PlannedFrom, Outpoints, PoolSum, ChoiceFrom;
    var guardFailed := false;
    for i := 0 to |pools|
      invariant !guardFailed && maxSplits > 0 ==> forall j :: 0 <= j < i ==> CannotFund(values, pools[j], total, rate)
      invariant maxSplits > 0 ==> forall j :: 0 <= j < i ==> CannotFund(values, pools[j], total, rate)
                                                             || OverGuard(values, pools[j], total, maxSplits, budget, rate, minSplit, swapFee)
      invariant guardFailed ==> exists j :: 0 <= j < i && OverGuard(values, pools[j], total, maxSplits, budget, rate, minSplit, swapFee)
    {
      if PoolSum(pools[i]) >= required {
        var plan := PlanFundingSplits(values, pools[i], total, maxSplits, budget, rate, minSplit, None);
        if plan == [] {
          Emptied(values, pools[i], total, maxSplits, rate);
        } else {
          var ok := CheckOverBudget(plan, InputCounts(plan), budget, rate, swapFee);
          GuardDecides(values, pools[i], plan, total, maxSplits, budget, rate, minSplit, swapFee);
          if ok {
            return Ok(plan);
          }
          guardFailed := true;
        }
      } else {
        PoolTooSmall(values, pools[i], total, rate);
      }
    }
    return Err(if guardFailed then "funding plan spends above the taker's input budget" else INSUFFICIENT_FUND);
  }

  lemma Emptied(values: map<OutPoint, nat>, pool: seq<Utxo>, total: nat, maxSplits: nat, rate: real)
    requires maxSplits > 0 ==> forall coins :: ChoiceFrom(coins, Outpoints(pool)) ==> !CoinsFund(values, coins, total, rate, None)
    ensures maxSplits > 0 ==> CannotFund(values, pool, total, rate)
  {
  }

  /** `plan_funding` for a forwarding maker. */
  method PlanFunding(ghost values: map<OutPoint, nat>, pools: seq<seq<Utxo>>, total: nat, maxSplits: nat, rate: real, budget: nat,
                     swapFee: nat, protocol: Protocol) returns (r: Result<seq<SplitPlan>>)
    requires forall i :: 0 <= i < |pools| ==> DistinctCoins(pools[i]) && Agrees(values, pools[i])
    ensures r.Ok? ==> MinContractValue(protocol, rate).Some?
    ensures r.Ok? ==> exists i :: 0 <= i < |pools| &&
                        PlannedFrom(values, pools[i], r.value, total, maxSplits, budget, rate, MinContractValue(protocol, rate).value, swapFee)
    ensures r.Err? && maxSplits > 0 ==>
              || MinContractValue(protocol, rate).None? || total < MinContractValue(protocol, rate).value
              || FundingFee(1, rate).None? || total + FundingFee(1, rate).value > U64_MAX
              || PoolsRefuse(values, pools, total, maxSplits, budget, rate, MinContractValue(protocol, rate).value, swapFee, r.reason)
    ensures r.Err? && r.reason == INSUFFICIENT_FUND && maxSplits > 0 ==>
              forall i :: 0 <= i < |pools| ==> CannotFund(values, pools[i], total, rate)
  {
    hide PlannedFrom, CannotFund, Agrees, DistinctCoins, OverGuard;
    var floor := MinContractValue(protocol, rate);
    if floor.None? {
      return Err("contract floor cannot be priced");
    }
    if total < floor.value {
      return Err("Amount is below the contract floor");
    }
    var margin := FundingFee(1, rate);
    if margin.None? || total + margin.value > U64_MAX {
      return Err("funding threshold overflow");
    }
    r := PlanFromPools(values, pools, total + margin.value, total, maxSplits, budget, rate, swapFee, floor.value);
  }

  // ---------------------------------------------------------------- netting the reimbursed fees

  /** The plan's total before netting: each split's value plus its policy fee at the priced count. */
  function Gross(plan: seq<SplitPlan>, priced: seq<nat>, budget: nat, rate: real): Option<nat>
    requires |priced| == |plan|
    decreases |plan|
  {
    if plan == [] then Some(0)
    else
      var last := |plan| - 1;
      var (before, fee) := (Gross(plan[..last], priced[..last], budget, rate), FundingFeePolicy(priced[last], budget, rate));
      if before.Some? && fee.Some? then Some(before.value + fee.value + plan[last].value) else None
  }

  /** One split netted at its priced count, if it stays above the floor. */
  function NetSplit(split: SplitPlan, priced: nat, budget: nat, rate: real, floor: nat): Option<SplitPlan> {
    var fee := FundingFeePolicy(priced, budget, rate);
    if fee.Some? && split.value >= fee.value && split.value - fee.value >= floor then
      Some(split.(value := split.value - fee.value))
    else None
  }

  predicate Nettable(plan: seq<SplitPlan>, priced: seq<nat>, budget: nat, rate: real, protocol: Protocol) {
    |priced| == |plan| && MinContractValue(protocol, rate).Some?
    && forall i :: 0 <= i < |plan| ==> NetSplit(plan[i], priced[i], budget, rate, MinContractValue(protocol, rate).value).Some?
  }

  /** `net_policy_fees`: succeeds exactly when every split stays above the floor, and nets each by its own fee. */
  method NetPolicyFees(plan: seq<SplitPlan>, priced: seq<nat>, budget: nat, rate: real, protocol: Protocol)
    returns (r: Result<seq<SplitPlan>>)
    ensures r.Ok? <==> Nettable(plan, priced, budget, rate, protocol)
    ensures r.Ok? ==> |r.value| == |plan| && forall i :: 0 <= i < |plan| ==>
              NetSplit(plan[i], priced[i], budget, rate, MinContractValue(protocol, rate).value) == Some(r.value[i])
  {
    if |priced| != |plan| {
      return Err("netting needs one priced input count per split");
    }
    var floor := MinContractValue(protocol, rate);
    if floor.None? {
      return Err("contract floor cannot be priced");
    }
    var netted: seq<SplitPlan> := [];
    for i := 0 to |plan|
      invariant |netted| == i && forall j :: 0 <= j < i ==> NetSplit(plan[j], priced[j], budget, rate, floor.value) == Some(netted[j])
    {
      var split := NetSplit(plan[i], priced[i], budget, rate, floor.value);
      if split.None? {
        return Err("funding fee pushes a split below the minimum");
      }
      netted := netted + [split.value];
    }
    return Ok(netted);
  }

  /** Each split of `netted` is the split of `plan`, less its policy fee. */
  predicate NettedFrom(plan: seq<SplitPlan>, priced: seq<nat>, budget: nat, rate: real, floor: nat, netted: seq<SplitPlan>) {
    |netted| == |plan| == |priced|
    && forall i :: 0 <= i < |plan| ==> NetSplit(plan[i], priced[i], budget, rate, floor) == Some(netted[i])
  }

  lemma NettingKeepsCoins(plan: seq<SplitPlan>, priced: seq<nat>, budget: nat, rate: real, floor: nat, netted: seq<SplitPlan>)
    requires NettedFrom(plan, priced, budget, rate, floor, netted)
    ensures forall i :: 0 <= i < |plan| ==> netted[i].utxos == plan[i].utxos
    ensures InputCounts(netted) == InputCounts(plan)
  {
  }

  /** Netting conserves: what is left plus the policy fees is what was planned. */
  lemma {:induction false} NettingConserves(plan: seq<SplitPlan>, priced: seq<nat>, budget: nat, rate: real, floor: nat, netted: seq<SplitPlan>)
    requires NettedFrom(plan, priced, budget, rate, floor, netted)
    ensures Gross(netted, priced, budget, rate) == Some(PlanTotal(plan))
    decreases |plan|
  {
    hide FundingFeePolicy;
    if plan != [] {
      var last := |plan| - 1;
      assert NetSplit(plan[last], priced[last], budget, rate, floor) == Some(netted[last]);
      NettingConserves(plan[..last], priced[..last], budget, rate, floor, netted[..last]);
    }
  }
}
