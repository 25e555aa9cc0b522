/**
 From the negotiated amount to the frozen funding plan, and back from the taker's proof of
 funding (`plan_admission`, `frozen_funding_plan` and `replan_funding` of `src/maker/api.rs`,
 `process_proof_of_funding` of `src/maker/legacy_handlers.rs`).
 */
module Admission {
  import opened Common
  import opened MakerState
  import opened FeePolicy
  import opened CoinSelection
  import opened Planner
  import opened Forwarding
  import opened Replanning

  /** What is left of the amount after the service fee and all sweeps; none when it does not keep the floor. */
  function Forwardable(terms: Terms, serviceFee: nat): Option<nat> {
    var sweeps := SweepFees(terms.protocol, terms.swapFeerate, terms.incomingCount);
    var floor := SwapCostFloor(terms.protocol, terms.swapFeerate, terms.incomingCount, terms.maxInputBudget);
    if sweeps.Some? && floor.Some? && terms.swapAmount >= serviceFee && terms.swapAmount - serviceFee >= floor.value then
      Some(terms.swapAmount - serviceFee - sweeps.value)
    else None
  }

  /** The floor already covers the sweeps. */
  lemma FloorCoversSweeps(protocol: Protocol, rate: real, incoming: nat, budget: nat)
    requires SwapCostFloor(protocol, rate, incoming, budget).Some?
    ensures SweepFees(protocol, rate, incoming).Some? && MinContractValue(protocol, rate).Some?
    ensures SwapCostFloor(protocol, rate, incoming, budget).value >=
              SweepFees(protocol, rate, incoming).value + MinContractValue(protocol, rate).value
  {
  }

  /** Everything an admitted plan promises. */
  predicate Admitted(values: map<OutPoint, nat>, terms: Terms, serviceFee: nat, plan: seq<SplitPlan>) {
    && 0 < |plan| <= terms.txCount && Apart(plan)
    && MinContractValue(terms.protocol, terms.swapFeerate).Some?
    && SweepFees(terms.protocol, terms.swapFeerate, terms.incomingCount).Some?
    && Conserved(terms, serviceFee, plan)
    && forall i :: 0 <= i < |plan| ==>
         plan[i].value >= MinContractValue(terms.protocol, terms.swapFeerate).value
         && var fee := FundingFeePolicy(|plan[i].utxos|, terms.maxInputBudget, terms.swapFeerate);
            fee.Some? && Pays(values, plan[i].utxos, plan[i].value + fee.value, terms.swapFeerate)
  }

  /** Amount = service fee + sweep fees + the splits' values and policy fees. */
  predicate Conserved(terms: Terms, serviceFee: nat, plan: seq<SplitPlan>)
    requires SweepFees(terms.protocol, terms.swapFeerate, terms.incomingCount).Some?
  {
    var gross := Gross(plan, InputCounts(plan), terms.maxInputBudget, terms.swapFeerate);
    gross.Some?
    && terms.swapAmount == serviceFee + SweepFees(terms.protocol, terms.swapFeerate, terms.incomingCount).value + gross.value
  }

  /** A planned split pays for its value and its real fee. */
  lemma PlannedPays(values: map<OutPoint, nat>, pool: seq<Utxo>, plan: seq<SplitPlan>, total: nat, maxSplits: nat, budget: nat, rate: real,
                    minSplit: nat, swapFee: nat)
    requires PlannedFrom(values, pool, plan, total, maxSplits, budget, rate, minSplit, swapFee)
    ensures 0 < |plan| <= maxSplits && PlanTotal(plan) == total && Apart(plan)
    ensures forall i :: 0 <= i < |plan| ==> NoRepeats(plan[i].utxos) && Pays(values, plan[i].utxos, plan[i].value, rate)
  {
  }

  lemma NettedAdmits(values: map<OutPoint, nat>, terms: Terms, serviceFee: nat, plan: seq<SplitPlan>, netted: seq<SplitPlan>)
    requires Forwardable(terms, serviceFee) == Some(PlanTotal(plan)) && 0 < |plan| <= terms.txCount && Apart(plan)
    requires MinContractValue(terms.protocol, terms.swapFeerate).Some?
    requires NettedFrom(plan, InputCounts(plan), terms.maxInputBudget, terms.swapFeerate,
                        MinContractValue(terms.protocol, terms.swapFeerate).value, netted)
    requires forall i :: 0 <= i < |plan| ==> Pays(values, plan[i].utxos, plan[i].value, terms.swapFeerate)
    ensures Admitted(values, terms, serviceFee, netted)
  {
    hide Gross, PlanTotal, Pays, MinContractValue, SwapCostFloor, FundingFeePolicy, Apart, SweepFees, NetSplit;
    var floor := MinContractValue(terms.protocol, terms.swapFeerate).value;
    NettingConserves(plan, InputCounts(plan), terms.maxInputBudget, terms.swapFeerate, floor, netted);
    NettingKeepsCoins(plan, InputCounts(plan), terms.maxInputBudget, terms.swapFeerate, floor, netted);
    ApartByCoins(plan, netted);
    FloorCoversSweeps(terms.protocol, terms.swapFeerate, terms.incomingCount, terms.maxInputBudget);
    assert Conserved(terms, serviceFee, netted);
    forall i | 0 <= i < |plan|
      ensures netted[i].value >= floor
      ensures var fee := FundingFeePolicy(|netted[i].utxos|, terms.maxInputBudget, terms.swapFeerate);
              fee.Some? && Pays(values, netted[i].utxos, netted[i].value + fee.value, terms.swapFeerate)
    {
      assert NetSplit(plan[i], InputCounts(plan)[i], terms.maxInputBudget, terms.swapFeerate, floor) == Some(netted[i]);
      NettedSplitPays(values, plan[i], netted[i], terms.maxInputBudget, terms.swapFeerate, floor);
    }
  }

  lemma NettedSplitPays(values: map<OutPoint, nat>, split: SplitPlan, netted: SplitPlan, budget: nat, rate: real, floor: nat)
    requires NetSplit(split, |split.utxos|, budget, rate, floor) == Some(netted) && Pays(values, split.utxos, split.value, rate)
    ensures netted.value >= floor && FundingFeePolicy(|netted.utxos|, budget, rate).Some?
    ensures Pays(values, netted.utxos, netted.value + FundingFeePolicy(|netted.utxos|, budget, rate).value, rate)
  {
  }

  const BELOW_MINIMUM := "Swap amount below the minimum for its shape"
  const LIQUIDITY := "InsufficientLiquidity"

  /**
   Why an amount above its floor is refused: it does not fit 64 bits with a funding fee, the pools
   refuse it at some number of splits, or even one split does not keep the floor after its own fee.
   */
  ghost predicate NoPlan(values: map<OutPoint, nat>, pools: seq<seq<Utxo>>, terms: Terms, serviceFee: nat, total: nat) {
    var floor := MinContractValue(terms.protocol, terms.swapFeerate);
    floor.Some? &&
    var fee := FundingFee(1, terms.swapFeerate);
    || fee.None? || total + fee.value > U64_MAX
    || (exists splits, reason :: 1 <= splits <= terms.txCount && PoolsRefuse(values, pools, total, splits, terms.maxInputBudget, terms.swapFeerate,
                                                                              floor.value, serviceFee, reason))
    || (exists i, split: SplitPlan :: 0 <= i < |pools| && OneSplitTooSmall(values, pools[i], terms, total, floor.value, split))
  }

  /** A choice of this pool's coins pays for the whole amount in one split, and the fee reimbursed for it leaves less than the floor. */
  ghost predicate OneSplitTooSmall(values: map<OutPoint, nat>, pool: seq<Utxo>, terms: Terms, total: nat, floor: nat, split: SplitPlan) {
    && split.value == total && ChoiceFrom(split.utxos, Outpoints(pool)) && Pays(values, split.utxos, total, terms.swapFeerate)
    && var fee := FundingFeePolicy(|split.utxos|, terms.maxInputBudget, terms.swapFeerate);
       fee.None? || total < fee.value + floor
  }

  /** `plan_admission`: plans the forwardable amount, with one split fewer whenever netting pushes a split below the floor. */
  method PlanAdmission(ghost values: map<OutPoint, nat>, regular: seq<Utxo>, swept: seq<Utxo>, terms: Terms, serviceFee: nat)
    returns (r: Result<seq<SplitPlan>>)
    requires GoodPools(values, regular, swept)
    ensures r.Ok? ==> Admitted(values, terms, serviceFee, r.value)
    ensures Forwardable(terms, serviceFee).None? ==> r == Err(BELOW_MINIMUM)
    ensures r.Err? && Forwardable(terms, serviceFee).Some? && terms.txCount > 0 ==>
              NoPlan(values, [regular, swept], terms, serviceFee, Forwardable(terms, serviceFee).value)
  {
    hide Admitted, NettedFrom, PlannedFrom, Pays, Agrees, DistinctCoins, Apart, PoolsRefuse;
    var sweeps := SweepFees(terms.protocol, terms.swapFeerate, terms.incomingCount);
    var floor := SwapCostFloor(terms.protocol, terms.swapFeerate, terms.incomingCount, terms.maxInputBudget);
    if sweeps.None? || floor.None? || terms.swapAmount < serviceFee || terms.swapAmount - serviceFee < floor.value {
      return Err(BELOW_MINIMUM);
    }
    FloorCoversSweeps(terms.protocol, terms.swapFeerate, terms.incomingCount, terms.maxInputBudget);
    var forwardable: nat := terms.swapAmount - serviceFee - sweeps.value;
    var maxSplits: nat := terms.txCount;
    while true
      invariant maxSplits <= terms.txCount && (terms.txCount > 0 ==> maxSplits > 0)
      decreases maxSplits
    {
      var planned := PlanFunding(values, [regular, swept], forwardable, maxSplits, terms.swapFeerate, terms.maxInputBudget,
                                 serviceFee, terms.protocol);
      if planned.Err? {
        return Err(if planned.reason == INSUFFICIENT_FUND then LIQUIDITY else planned.reason);
      }
      var plan := planned.value;
      ghost var i :| 0 <= i < 2 && PlannedFrom(values, [regular, swept][i], plan, forwardable, maxSplits, terms.maxInputBudget,
                                               terms.swapFeerate, MinContractValue(terms.protocol, terms.swapFeerate).value, serviceFee);
      PlannedPays(values, [regular, swept][i], plan, forwardable, maxSplits, terms.maxInputBudget, terms.swapFeerate,
                  MinContractValue(terms.protocol, terms.swapFeerate).value, serviceFee);
      var netted := NetPolicyFees(plan, InputCounts(plan), terms.maxInputBudget, terms.swapFeerate, terms.protocol);
      if netted.Ok? {
        AsNetted(plan, InputCounts(plan), terms.maxInputBudget, terms.swapFeerate, terms.protocol, netted.value);
        NettedAdmits(values, terms, serviceFee, plan, netted.value);
        return netted;
      }
      if |plan| <= 1 {
        AloneTooSmall(values, [regular, swept][i], plan, terms, forwardable, maxSplits, serviceFee);
        return Err(LIQUIDITY);
      }
      maxSplits := |plan| - 1;
    }
  }

  /** A single split that cannot be netted is one whose fee leaves less than the floor. */
  lemma AloneTooSmall(values: map<OutPoint, nat>, pool: seq<Utxo>, plan: seq<SplitPlan>, terms: Terms, total: nat, maxSplits: nat, serviceFee: nat)
    requires MinContractValue(terms.protocol, terms.swapFeerate).Some? && |plan| == 1
    requires PlannedFrom(values, pool, plan, total, maxSplits, terms.maxInputBudget, terms.swapFeerate,
                         MinContractValue(terms.protocol, terms.swapFeerate).value, serviceFee)
    requires !Nettable(plan, InputCounts(plan), terms.maxInputBudget, terms.swapFeerate, terms.protocol)
    ensures OneSplitTooSmall(values, pool, terms, total, MinContractValue(terms.protocol, terms.swapFeerate).value, plan[0])
  {
    PlannedPays(values, pool, plan, total, maxSplits, terms.maxInputBudget, terms.swapFeerate,
                MinContractValue(terms.protocol, terms.swapFeerate).value, serviceFee);
    assert plan == [plan[0]] && PlanTotal(plan[..0]) == 0;
  }

  lemma AsNetted(plan: seq<SplitPlan>, priced: seq<nat>, budget: nat, rate: real, protocol: Protocol, netted: seq<SplitPlan>)
    requires Nettable(plan, priced, budget, rate, protocol) && |netted| == |plan|
    requires forall i :: 0 <= i < |plan| ==> NetSplit(plan[i], priced[i], budget, rate, MinContractValue(protocol, rate).value) == Some(netted[i])
    ensures NettedFrom(plan, priced, budget, rate, MinContractValue(protocol, rate).value, netted)
  {
  }

  /** Why a frozen plan cannot be renewed: the amount cannot be planned again, or the new plan does not fit the declared shape. */
  ghost predicate NoReplan(values: map<OutPoint, nat>, regular: seq<Utxo>, swept: seq<Utxo>, terms: Terms, serviceFee: nat,
                           frozen: seq<SplitPlan>, gross: nat) {
    var (floor, fee) := (MinContractValue(terms.protocol, terms.swapFeerate), FundingFee(1, terms.swapFeerate));
    || floor.None? || gross < floor.value || fee.None? || gross + fee.value > U64_MAX
    || (exists reason :: PoolsRefuse(values, [regular, swept], gross, |frozen|, terms.maxInputBudget, terms.swapFeerate, floor.value, serviceFee, reason))
    || (exists i, renewed :: 0 <= i < 2 && PlannedFrom(values, [regular, swept][i], renewed, gross, |frozen|, terms.maxInputBudget,
                                                       terms.swapFeerate, floor.value, serviceFee)
                             && Unfit(renewed, InputCounts(frozen), regular, swept, terms.maxInputBudget, terms.swapFeerate, serviceFee, terms.protocol))
  }

  /** `replan_funding`: the same number of splits, each at least as many coins as declared, forwarding the same gross. */
  method ReplanFunding(ghost values: map<OutPoint, nat>, regular: seq<Utxo>, swept: seq<Utxo>, terms: Terms, serviceFee: nat,
                       frozen: seq<SplitPlan>, gross: nat) returns (r: Result<seq<SplitPlan>>)
    requires GoodPools(values, regular, swept)
    ensures r.Ok? ==> Fitted(values, r.value, InputCounts(frozen), gross, terms.maxInputBudget, terms.swapFeerate)
    ensures r.Err? && frozen != [] ==> NoReplan(values, regular, swept, terms, serviceFee, frozen, gross)
  {
    hide Fitted, PlannedFrom, Agrees, DistinctCoins, Apart, Pays, PoolsRefuse, Unfit;
    var planned := PlanFunding(values, [regular, swept], gross, |frozen|, terms.swapFeerate, terms.maxInputBudget, serviceFee, terms.protocol);
    if planned.Err? {
      return Err(if planned.reason == INSUFFICIENT_FUND then LIQUIDITY else planned.reason);
    }
    ghost var i :| 0 <= i < 2 && PlannedFrom(values, [regular, swept][i], planned.value, gross, |frozen|, terms.maxInputBudget,
                                             terms.swapFeerate, MinContractValue(terms.protocol, terms.swapFeerate).value, serviceFee);
    PlannedPays(values, [regular, swept][i], planned.value, gross, |frozen|, terms.maxInputBudget, terms.swapFeerate,
                MinContractValue(terms.protocol, terms.swapFeerate).value, serviceFee);
    r := FitDeclaredShape(values, planned.value, InputCounts(frozen), regular, swept, terms.maxInputBudget, terms.swapFeerate, serviceFee,
                          terms.protocol);
    if r.Err? {
      return Err(LIQUIDITY);
    }
  }

  // ---------------------------------------------------------------- the proof of funding

  /** The frozen plan's total before netting, summed with 64-bit overflow checks. */
  function FrozenGross(plan: seq<SplitPlan>, budget: nat, rate: real): Option<nat>
    decreases |plan|
  {
    if plan == [] then Some(0)
    else
      var last := |plan| - 1;
      CheckedAdd(CheckedAdd(FrozenGross(plan[..last], budget, rate), FundingFeePolicy(|plan[last].utxos|, budget, rate)),
                 Some(plan[last].value))
  }

  lemma {:induction false} FrozenGrossIsGross(plan: seq<SplitPlan>, budget: nat, rate: real)
    requires Gross(plan, InputCounts(plan), budget, rate).Some? && Gross(plan, InputCounts(plan), budget, rate).value <= U64_MAX
    ensures FrozenGross(plan, budget, rate) == Gross(plan, InputCounts(plan), budget, rate)
    decreases |plan|
  {
    if plan != [] {
      var last := |plan| - 1;
      assert InputCounts(plan)[..last] == InputCounts(plan[..last]);
      FrozenGrossIsGross(plan[..last], budget, rate);
    }
  }

  /** And never says anything else: a total it gives is the gross, and fits 64 bits. */
  lemma {:induction false} FrozenGrossOnly(plan: seq<SplitPlan>, budget: nat, rate: real)
    requires FrozenGross(plan, budget, rate).Some?
    ensures Gross(plan, InputCounts(plan), budget, rate) == FrozenGross(plan, budget, rate) && FrozenGross(plan, budget, rate).value <= U64_MAX
    decreases |plan|
  {
    if plan != [] {
      var last := |plan| - 1;
      assert InputCounts(plan)[..last] == InputCounts(plan[..last]);
      FrozenGrossOnly(plan[..last], budget, rate);
    }
  }

  /** The frozen plan is used exactly for the amount it nets to: the values of its splits and their reimbursed fees. */
  lemma FrozenPlanExactly(terms: Terms, plan: seq<SplitPlan>, amount: nat)
    requires amount <= U64_MAX
    ensures FrozenFundingPlan(terms, plan, amount).Ok? <==>
              plan != [] && Gross(plan, InputCounts(plan), terms.maxInputBudget, terms.swapFeerate) == Some(amount)
    ensures FrozenFundingPlan(terms, plan, amount).Ok? ==> FrozenFundingPlan(terms, plan, amount).value == plan
  {
    hide Gross, FrozenGross;
    if FrozenGross(plan, terms.maxInputBudget, terms.swapFeerate).Some? {
      FrozenGrossOnly(plan, terms.maxInputBudget, terms.swapFeerate);
    } else if Gross(plan, InputCounts(plan), terms.maxInputBudget, terms.swapFeerate) == Some(amount) {
      FrozenGrossIsGross(plan, terms.maxInputBudget, terms.swapFeerate);
    }
  }

  /** `frozen_funding_plan`. */
  function FrozenFundingPlan(terms: Terms, plan: seq<SplitPlan>, amount: nat): Result<seq<SplitPlan>> {
    if plan == [] then Err("No frozen funding plan for this swap")
    else
      var gross := FrozenGross(plan, terms.maxInputBudget, terms.swapFeerate);
      if gross.None? then Err("Funding plan total overflow")
      else if gross.value != amount then Err("Requested amount does not match the frozen funding plan")
      else Ok(plan)
  }

  /** A proof of funding, reduced to what the checks read. */
  datatype Proof = Proof(refundLocktime: nat, outputs: seq<nat>, nextHops: nat)

  function Sum(values: seq<nat>): nat
    decreases |values|
  {
    if values == [] then 0 else Sum(values[..|values| - 1]) + values[|values| - 1]
  }

  /** The checks on a Legacy proof: locktime, counts, every output worth sweeping, and the exact amount. */
  predicate ProofAccepted(terms: Terms, plan: seq<SplitPlan>, proof: Proof) {
    && proof.refundLocktime == terms.timelock
    && |proof.outputs| == terms.incomingCount
    && proof.nextHops == |plan|
    && MinContractValue(Legacy, terms.swapFeerate).Some?
    && (forall i :: 0 <= i < |proof.outputs| ==> proof.outputs[i] >= MinContractValue(Legacy, terms.swapFeerate).value)
    && Sum(proof.outputs) == terms.swapAmount
  }

  /** The loop over the incoming outputs: each above the floor, and their exact sum. */
  method CheckOutputs(proof: Proof, terms: Terms, plan: seq<SplitPlan>) returns (ok: bool)
    ensures ok <==> && proof.refundLocktime == terms.timelock && |proof.outputs| == terms.incomingCount && proof.nextHops == |plan|
                    && SettlementBudget(Legacy, terms.swapFeerate).Some? && Sum(proof.outputs) == terms.swapAmount
                    && SettlementBudget(Legacy, terms.swapFeerate).value + 330 <= U64_MAX
                    && forall value :: value in proof.outputs ==> value >= SettlementBudget(Legacy, terms.swapFeerate).value + 330
    ensures ok == ProofAccepted(terms, plan, proof)
  {
    if proof.refundLocktime != terms.timelock || |proof.outputs| != terms.incomingCount || proof.nextHops != |plan| {
      return false;
    }
    var floor := MinContractValue(Legacy, terms.swapFeerate);
    if floor.None? {
      return false;
    }
    var incoming := 0;
    for i := 0 to |proof.outputs|
      invariant incoming == Sum(proof.outputs[..i])
      invariant forall j :: 0 <= j < i ==> proof.outputs[j] >= floor.value
    {
      if proof.outputs[i] < floor.value {
        assert proof.outputs[i] in proof.outputs;
        return false;
      }
      assert proof.outputs[..i + 1][..i] == proof.outputs[..i];
      incoming := incoming + proof.outputs[i];
    }
    assert proof.outputs[..|proof.outputs|] == proof.outputs;
    return incoming == terms.swapAmount;
  }

  /** What the maker forwards on an accepted proof: the fee and the sweeps are computed again from the proof. */
  function ProofForwardable(config: Config, terms: Terms, proof: Proof): Result<nat> {
    var fee := SwapFee(config, Sum(proof.outputs), proof.refundLocktime);
    var sweeps := SweepFees(Legacy, terms.swapFeerate, |proof.outputs|);
    if sweeps.None? then Err("Sweep fee overflow")
    else if Sum(proof.outputs) < fee || Sum(proof.outputs) - fee < sweeps.value then Err("Swap fee exceeds incoming amount")
    else Ok(Sum(proof.outputs) - fee - sweeps.value)
  }

  /**
   Every proof that passes the checks forwards exactly the frozen gross, so neither the fee nor
   the plan can fail to match: amount in = fee + sweeps + what the frozen splits spend.
   */
  lemma ProofMatchesFrozenPlan(values: map<OutPoint, nat>, config: Config, terms: Terms, plan: seq<SplitPlan>, proof: Proof)
    requires terms.protocol == Legacy && terms.refundLocktimeOffset == terms.timelock && terms.swapAmount <= U64_MAX
    requires Admitted(values, terms, SwapFee(config, terms.swapAmount, terms.refundLocktimeOffset), plan)
    requires ProofAccepted(terms, plan, proof)
    ensures ProofForwardable(config, terms, proof).Ok?
    ensures FrozenFundingPlan(terms, plan, ProofForwardable(config, terms, proof).value) == Ok(plan)
  {
    hide SwapFee, SweepFees, Gross, FrozenGross, MinContractValue, FundingFeePolicy;
    FrozenGrossIsGross(plan, terms.maxInputBudget, terms.swapFeerate);
  }

  /** At the advertised minimum and above, the floor check of a plain one-maker swap passes for both protocols. */
  lemma MinimumPassesAdmission(config: Config, protocol: Protocol, amount: nat)
    requires Unsaturated(config, DearestFloor()) && MinSwapAmount(config) <= amount <= U64_MAX
    ensures var terms := Terms(amount, 1, 1, 1, REFUND_LOCKTIME_BASE, protocol, REFUND_LOCKTIME_BASE, MIN_RELAY_FEE_RATE);
            Forwardable(terms, SwapFee(config, amount, REFUND_LOCKTIME_BASE)).Some?
  {
    MinimumIsLeast(config);
    FloorValue();
    FloorCoversSweeps(protocol, MIN_RELAY_FEE_RATE, 1, 1);
    assert Covers(config, DearestFloor(), amount);
  }
}
