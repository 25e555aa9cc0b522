/** Fee policy and the advertised minimum (`src/utill.rs`, `src/maker/api.rs`), in exact arithmetic over `real`. */
module FeePolicy {
  import opened Common
  import opened MakerState

  const U64_MAX := 0xffff_ffff_ffff_ffff
  const MIN_RELAY_FEE_RATE := 1.0
  const LEGACY_CONTRACT_SPEND_VSIZE := 150
  const TAPROOT_KEYPATH_VSIZE := 112
  const CONTRACT_TX_VSIZE := 150
  const TAPROOT_SCRIPTPATH_VSIZE := 155
  const P2TR_MIN_NON_DUST := 330
  const MIN_SWAP_STEP := 500

  function Ceil(x: real): int {
    -((-x).Floor)
  }

  /** The ceiling is the least integer that is not below. */
  lemma CeilLeast(x: real, n: int)
    ensures Ceil(x) <= n <==> x <= n as real
  {
  }

  function CheckedAdd(a: Option<nat>, b: Option<nat>): Option<nat> {
    if a.Some? && b.Some? && a.value + b.value <= U64_MAX then Some(a.value + b.value) else None
  }

  function CheckedMul(a: Option<nat>, n: nat): Option<nat> {
    if a.Some? && a.value * n <= U64_MAX then Some(a.value * n) else None
  }

  /** A float cast to `u64`. */
  function Saturate(x: int): nat {
    if x < 0 then 0 else if x > U64_MAX then U64_MAX else x
  }

  function FundingTxVsize(inputs: nat): nat {
    11 + 43 + 43 + 68 * inputs
  }

  /** None for a rate below the relay floor or a fee that does not fit 64 bits. */
  function FeeAtRate(vbytes: nat, rate: real): (fee: Option<nat>)
    ensures fee.Some? <==> rate >= 1.0 && rate * vbytes as real < 18446744073709551616.0
    ensures fee.Some? ==> fee.value as real >= rate * vbytes as real && fee.value as real < rate * vbytes as real + 1.0
  {
    if rate < MIN_RELAY_FEE_RATE then None
    else
      var fee := rate * vbytes as real;
      if fee >= (U64_MAX + 1) as real then None else Some(Ceil(fee))
  }

  lemma MoreCostsMore(small: nat, large: nat, rate: real)
    requires small <= large && rate >= 0.0
    ensures rate * small as real <= rate * large as real
  {
    var more := (large - small) as real;
    assert large as real == small as real + more;
    assert rate * (small as real + more) == rate * small as real + rate * more;
  }

  /** A larger transaction never costs less, and is never priced when a smaller one is not. */
  lemma FeeMonotone(small: nat, large: nat, rate: real)
    requires small <= large && FeeAtRate(large, rate).Some?
    ensures FeeAtRate(small, rate).Some? && FeeAtRate(small, rate).value <= FeeAtRate(large, rate).value
  {
    hide Ceil;
    var s, l := rate * small as real, rate * large as real;
    MoreCostsMore(small, large, rate);
    CeilLeast(s, Ceil(l));
    CeilLeast(l, Ceil(l));
  }

  /** Real cost of a funding transaction. */
  function FundingFee(inputs: nat, rate: real): Option<nat> {
    FeeAtRate(FundingTxVsize(inputs), rate)
  }

  /** What the taker reimburses: at most `budget` inputs, at least one where the budget allows one. */
  function FundingFeePolicy(inputs: nat, budget: nat, rate: real): Option<nat> {
    FundingFee(Min(Max(inputs, 1), budget), rate)
  }

  /** The taker never reimburses more than the transaction costs, and all of it within the budget. */
  lemma PolicyNeverExceedsReal(inputs: nat, budget: nat, rate: real)
    requires inputs > 0 && FundingFee(inputs, rate).Some?
    ensures FundingFeePolicy(inputs, budget, rate).Some? && FundingFeePolicy(inputs, budget, rate).value <= FundingFee(inputs, rate).value
    ensures inputs <= budget ==> FundingFeePolicy(inputs, budget, rate) == FundingFee(inputs, rate)
  {
    FeeMonotone(FundingTxVsize(Min(inputs, budget)), FundingTxVsize(inputs), rate);
  }

  /** A further input costs the sender its 68 bytes: what is reimbursed stops growing at the budget. */
  lemma PolicyPaysForBytes(inputs: nat, budget: nat, rate: real)
    requires FundingFeePolicy(inputs, budget, rate).Some?
    ensures var paid := if inputs > budget then budget else if inputs == 0 && budget > 0 then 1 else inputs;
            var fee := FundingFeePolicy(inputs, budget, rate).value as real;
            rate * (97 + 68 * paid) as real <= fee < rate * (97 + 68 * paid) as real + 1.0
  {
  }

  function SweepFeePolicy(protocol: Protocol, rate: real): Option<nat> {
    FeeAtRate(if protocol.Legacy? then LEGACY_CONTRACT_SPEND_VSIZE else TAPROOT_KEYPATH_VSIZE, rate)
  }

  function SettlementBudget(protocol: Protocol, rate: real): Option<nat> {
    match protocol
    case Legacy => CheckedAdd(FeeAtRate(CONTRACT_TX_VSIZE, rate), FeeAtRate(LEGACY_CONTRACT_SPEND_VSIZE, rate))
    case Taproot => FeeAtRate(TAPROOT_SCRIPTPATH_VSIZE, rate)
  }

  function MinContractValue(protocol: Protocol, rate: real): Option<nat> {
    CheckedAdd(SettlementBudget(protocol, rate), Some(P2TR_MIN_NON_DUST))
  }

  /** The sweeps of all incoming contracts. */
  function SweepFees(protocol: Protocol, rate: real, incoming: nat): Option<nat> {
    CheckedMul(SweepFeePolicy(protocol, rate), incoming)
  }

  /** What a hop must keep after its own fee. */
  function SwapCostFloor(protocol: Protocol, rate: real, incoming: nat, budget: nat): Option<nat> {
    CheckedAdd(CheckedAdd(SweepFees(protocol, rate, incoming), MinContractValue(protocol, rate)), FundingFeePolicy(1, budget, rate))
  }

  /** Rounding up one price by less than a satoshi rounds up `n` of them by at most `n`. */
  lemma {:induction false} TimesAtLeast(x: real, price: nat, n: nat)
    requires x <= price as real < x + 1.0
    ensures n as real * x <= (price * n) as real <= n as real * x + n as real
  {
    if n > 0 {
      TimesAtLeast(x, price, n - 1);
      assert price * n == price * (n - 1) + price;
      assert n as real * x == (n - 1) as real * x + x;
    }
  }

  lemma SettlementPaysForBytes(protocol: Protocol, rate: real)
    requires SettlementBudget(protocol, rate).Some?
    ensures var settle := SettlementBudget(protocol, rate).value as real;
            if protocol == Legacy then rate * 300.0 <= settle < rate * 300.0 + 2.0 else rate * 155.0 <= settle < rate * 155.0 + 1.0
  {
  }

  /**
   At the agreed rate the floor pays for the bytes of every sweep, of one settlement and of one funding
   transaction with an input, and for an output above dust. It asks for less than one satoshi more per
   transaction, which is the rounding up.
   */
  lemma FloorPaysForBytes(protocol: Protocol, rate: real, incoming: nat, budget: nat)
    requires SwapCostFloor(protocol, rate, incoming, budget).Some? && budget > 0
    ensures var floor := SwapCostFloor(protocol, rate, incoming, budget).value as real;
            var sweeps := incoming as real * (rate * (if protocol == Legacy then 150.0 else 112.0));
            var rest := rate * (if protocol == Legacy then 300.0 else 155.0) + rate * 165.0 + 330.0;
            sweeps + rest <= floor < sweeps + rest + incoming as real + 3.0
  {
    hide FeeAtRate;
    var sweep, funding := SweepFeePolicy(protocol, rate).value, FundingFeePolicy(1, budget, rate).value;
    PolicyPaysForBytes(1, budget, rate);
    assert rate * 165.0 <= funding as real < rate * 165.0 + 1.0;
    var settle := SettlementBudget(protocol, rate).value as real;
    SettlementPaysForBytes(protocol, rate);
    TimesAtLeast(rate * (if protocol == Legacy then 150.0 else 112.0), sweep, incoming);
    assert SwapCostFloor(protocol, rate, incoming, budget).value as real == (sweep * incoming) as real + (settle + 330.0) + funding as real;
  }

  /** The maker's fee settings; percentages as the configuration writes them. */
  datatype Config = Config(baseFee: nat, amountPct: real, timePct: real)

  function RawFee(config: Config, amount: nat, timelock: nat): real {
    config.baseFee as real + amount as real * config.amountPct / 100.0 + amount as real * timelock as real * config.timePct / 100.0
  }

  /** `calculate_swap_fee`. */
  function SwapFee(config: Config, amount: nat, timelock: nat): nat {
    Saturate(Ceil(RawFee(config, amount, timelock)))
  }

  // ---------------------------------------------------------------- the advertised minimum

  /** The part of the amount paid as relative fee: a share of the amount, and one for every block it is locked. */
  function RelativeFeeFor(config: Config, timelock: nat): real {
    (config.amountPct + timelock as real * config.timePct) / 100.0
  }

  /** The same for a one-maker swap. */
  function RelativeFee(config: Config): real {
    RelativeFeeFor(config, REFUND_LOCKTIME_BASE)
  }

  /** The dearest protocol's floor: one coin in, one coin out, at the relay floor. */
  function DearestFloor(): nat {
    var legacy := SwapCostFloor(Legacy, MIN_RELAY_FEE_RATE, 1, 1);
    var taproot := SwapCostFloor(Taproot, MIN_RELAY_FEE_RATE, 1, 1);
    if legacy.Some? && taproot.Some? then Max(legacy.value, taproot.value)
    else if legacy.Some? then legacy.value
    else if taproot.Some? then taproot.value
    else 0
  }

  function DivCeil(n: nat, step: nat): nat
    requires step > 0
  {
    (n + step - 1) / step
  }

  function MinSwapAmount(config: Config): nat {
    var rel := RelativeFee(config);
    if !(0.0 <= rel < 1.0) then U64_MAX
    else
      var exact := Saturate(Ceil(Saturate(config.baseFee + DearestFloor()) as real / (1.0 - rel)));
      Saturate(DivCeil(exact, MIN_SWAP_STEP) * MIN_SWAP_STEP)
  }

  /** The least amount whose remainder covers `cost`, before rounding up. */
  function ExactMinimum(config: Config, cost: nat): int
    requires RelativeFee(config) < 1.0
  {
    Ceil((config.baseFee + cost) as real / (1.0 - RelativeFee(config)))
  }

  /** The relative fee is in range and none of the saturating steps saturates. */
  predicate Unsaturated(config: Config, cost: nat) {
    0.0 <= RelativeFee(config) < 1.0
    && config.baseFee + cost <= U64_MAX
    && 0 <= ExactMinimum(config, cost) <= U64_MAX
    && DivCeil(ExactMinimum(config, cost), MIN_SWAP_STEP) * MIN_SWAP_STEP <= U64_MAX
  }

  /** What is left of the amount after the fee covers `cost`. */
  predicate CoversFor(config: Config, cost: nat, amount: nat, timelock: nat) {
    amount - SwapFee(config, amount, timelock) >= cost
  }

  predicate Covers(config: Config, cost: nat, amount: nat) {
    CoversFor(config, cost, amount, REFUND_LOCKTIME_BASE)
  }

  /** Legacy is the dearest protocol. */
  lemma FloorValue()
    ensures SwapCostFloor(Legacy, MIN_RELAY_FEE_RATE, 1, 1) == Some(945)
    ensures SwapCostFloor(Taproot, MIN_RELAY_FEE_RATE, 1, 1) == Some(762)
    ensures DearestFloor() == 945
  {
  }

  /** For every lock time the fee is the base fee plus the relative fee of the amount. */
  lemma FeeIsAffine(config: Config, amount: nat, timelock: nat)
    ensures RawFee(config, amount, timelock) == config.baseFee as real + amount as real * RelativeFeeFor(config, timelock)
  {
    var a, p, t, lock := amount as real, config.amountPct, config.timePct, timelock as real;
    Distribute(a, p, lock * t);
    Associate(a, lock, t);
  }

  /** One more block of lock time costs exactly its share of the amount. */
  lemma OneMoreBlock(config: Config, amount: nat, timelock: nat)
    ensures RawFee(config, amount, timelock + 1) == RawFee(config, amount, timelock) + amount as real * config.timePct / 100.0
  {
    var a, t, lock := amount as real, config.timePct, timelock as real;
    assert (timelock + 1) as real == lock + 1.0;
    assert a * (lock + 1.0) * t == a * lock * t + a * t by {
      Associate(a, lock + 1.0, t);
      Associate(a, lock, t);
      assert (lock + 1.0) * t == lock * t + t;
      assert a * (lock * t + t) == a * (lock * t) + a * t;
    }
  }

  /** The fee asked for is the least whole number that is not below the exact one, within 64 bits. */
  lemma SwapFeeIsLeast(config: Config, amount: nat, timelock: nat, n: nat)
    requires 0.0 <= config.baseFee as real + amount as real * RelativeFeeFor(config, timelock) <= U64_MAX as real && n <= U64_MAX
    ensures SwapFee(config, amount, timelock) <= n <==> config.baseFee as real + amount as real * RelativeFeeFor(config, timelock) <= n as real
  {
    hide RawFee, RelativeFeeFor, Ceil;
    FeeIsAffine(config, amount, timelock);
    CeilLeast(RawFee(config, amount, timelock), n);
    CeilLeast(RawFee(config, amount, timelock), -1);
    CeilLeast(RawFee(config, amount, timelock), U64_MAX);
  }

  lemma Associate(x: real, y: real, z: real)
    ensures x * y * z == x * (y * z)
  {
  }

  lemma Distribute(a: real, p: real, q: real)
    ensures a * ((p + q) / 100.0) == a * p / 100.0 + a * q / 100.0
  {
    assert a * (p + q) == a * p + a * q;
    Associate(a, p + q, 0.01);
    assert (p + q) / 100.0 == (p + q) * 0.01;
  }

  /** For every lock time an amount covers the cost exactly from `(base + cost) / (1 - rel)` on. */
  lemma CoversForExactly(config: Config, cost: nat, amount: nat, timelock: nat)
    requires 0.0 <= RelativeFeeFor(config, timelock) < 1.0 && amount <= U64_MAX && cost > 0
    ensures CoversFor(config, cost, amount, timelock) <==> Ceil((config.baseFee + cost) as real / (1.0 - RelativeFeeFor(config, timelock))) <= amount
  {
    hide RelativeFeeFor, RawFee, Ceil;
    var rel, base, a := RelativeFeeFor(config, timelock), config.baseFee, amount as real;
    var raw, quotient := RawFee(config, amount, timelock), (base + cost) as real / (1.0 - rel);
    FeeIsAffine(config, amount, timelock);
    SolveForAmount(base as real, cost as real, rel, a);
    assert raw >= 0.0;
    assert quotient == (base as real + cost as real) / (1.0 - rel);
    CeilLeast(raw, -1);
    CeilLeast(raw, amount - cost);
    CeilLeast(quotient, amount);
    calc {
      CoversFor(config, cost, amount, timelock);
      Saturate(Ceil(raw)) <= amount - cost;
      Ceil(raw) <= amount - cost;
      raw <= (amount - cost) as real;
      raw <= a - cost as real;
      quotient <= a;
      Ceil(quotient) <= amount;
    }
  }

  lemma CoversExactly(config: Config, cost: nat, amount: nat)
    requires 0.0 <= RelativeFee(config) < 1.0 && amount <= U64_MAX && cost > 0
    ensures Covers(config, cost, amount) <==> ExactMinimum(config, cost) <= amount
  {
    hide RelativeFeeFor, Ceil, CoversFor;
    CoversForExactly(config, cost, amount, REFUND_LOCKTIME_BASE);
  }

  lemma SolveForAmount(base: real, cost: real, rel: real, amount: real)
    requires base >= 0.0 && 0.0 <= rel < 1.0 && amount >= 0.0
    ensures base + amount * rel <= amount - cost <==> (base + cost) / (1.0 - rel) <= amount
    ensures base + amount * rel >= 0.0
  {
    NonNegativeProduct(amount, rel);
    DivideThrough(base + cost, 1.0 - rel, amount);
    assert amount * (1.0 - rel) == amount - amount * rel;
  }

  lemma NonNegativeProduct(x: real, y: real)
    requires x >= 0.0 && y >= 0.0
    ensures x * y >= 0.0
  {
  }

  lemma DivideThrough(x: real, y: real, z: real)
    requires y > 0.0
    ensures x / y <= z <==> x <= z * y
  {
    var q := x / y;
    assert q * y == x;
    if q <= z {
      assert (z - q) * y >= 0.0;
    } else {
      assert (q - z) * y > 0.0;
    }
  }

  lemma DivCeilLeast(n: nat, k: nat)
    ensures DivCeil(n, MIN_SWAP_STEP) <= k <==> n <= k * MIN_SWAP_STEP
  {
  }

  /** The rounded minimum covers the cost, so does every larger amount, and no smaller multiple of 500 does. */
  lemma RoundedMinimumIsLeast(config: Config, cost: nat)
    requires Unsaturated(config, cost) && cost > 0
    ensures var least := DivCeil(ExactMinimum(config, cost), MIN_SWAP_STEP) * MIN_SWAP_STEP;
            && (forall amount: nat :: least <= amount <= U64_MAX ==> Covers(config, cost, amount))
            && (forall k: nat :: k * MIN_SWAP_STEP <= U64_MAX && Covers(config, cost, k * MIN_SWAP_STEP) ==> k * MIN_SWAP_STEP >= least)
  {
    hide RelativeFee, SwapFee, Ceil, Covers;
    var exact: nat := ExactMinimum(config, cost);
    DivCeilLeast(exact, DivCeil(exact, MIN_SWAP_STEP));
    forall amount: nat | DivCeil(exact, MIN_SWAP_STEP) * MIN_SWAP_STEP <= amount <= U64_MAX
      ensures Covers(config, cost, amount)
    {
      CoversExactly(config, cost, amount);
    }
    forall k: nat | k * MIN_SWAP_STEP <= U64_MAX && Covers(config, cost, k * MIN_SWAP_STEP)
      ensures k * MIN_SWAP_STEP >= DivCeil(exact, MIN_SWAP_STEP) * MIN_SWAP_STEP
    {
      CoversExactly(config, cost, k * MIN_SWAP_STEP);
      DivCeilLeast(exact, k);
    }
  }

  /** The advertised minimum is the least multiple of 500 that covers the dearest protocol's floor; every larger amount covers it too. */
  lemma MinimumIsLeast(config: Config)
    requires Unsaturated(config, DearestFloor())
    ensures MinSwapAmount(config) % MIN_SWAP_STEP == 0
    ensures forall amount: nat :: MinSwapAmount(config) <= amount <= U64_MAX ==> Covers(config, DearestFloor(), amount)
    ensures forall k: nat :: k * MIN_SWAP_STEP <= U64_MAX && Covers(config, DearestFloor(), k * MIN_SWAP_STEP) ==>
              k * MIN_SWAP_STEP >= MinSwapAmount(config)
  {
    hide RelativeFee, Ceil, Covers;
    FloorValue();
    RoundedMinimumIsLeast(config, DearestFloor());
    assert MinSwapAmount(config) == DivCeil(ExactMinimum(config, DearestFloor()), MIN_SWAP_STEP) * MIN_SWAP_STEP;
  }

  /** From a relative fee of 1 on no minimum is advertised, and indeed no amount covers any cost. */
  lemma NoMinimumWhenFeeTakesAll(config: Config, cost: nat, amount: nat)
    requires RelativeFee(config) >= 1.0 && amount <= U64_MAX && cost > 0
    ensures MinSwapAmount(config) == U64_MAX && !Covers(config, cost, amount)
  {
    FeeIsAffine(config, amount, REFUND_LOCKTIME_BASE);
    NonNegativeProduct(amount as real, RelativeFee(config) - 1.0);
    assert amount as real * RelativeFee(config) == amount as real + amount as real * (RelativeFee(config) - 1.0);
    CeilLeast(RawFee(config, amount, REFUND_LOCKTIME_BASE), amount - cost);
  }
}
