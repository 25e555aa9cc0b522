/**
 The clock of a swap-out (`src/lightning/swap_out.rs`): the taker pays first, the maker funds the
 HTLC once the payment is held, the taker's claim shows the preimage before it confirms, and the
 held payment fails back when its window is over.

 Two results, each with the exact bound. The taker never pays for coins the maker takes back, and
 the maker never gives coins away for a payment that failed back.
 */
module SwapOutTiming {
  import opened Common
  import opened Ledger
  import opened SwapHtlc
  import opened SwapIn

  datatype Held = Unpaid | Since(height: nat) | Settled | FailedBack

  /** The taker signs for the hash lock and the maker for the time lock; only the taker knows the preimage at first. */
  datatype Swap = Swap(htlc: Htlc, preimage: Preimage, minConfirmations: nat)

  datatype Spend = Spend(input: TxIn, at: nat)

  datatype State = State(height: nat, payment: Held, funded: Option<nat>, revealed: Option<nat>, spend: Option<Spend>)

  const START := State(0, Unpaid, None, None, None)

  datatype Step =
    | Pay                             // the payment is held at the maker's node
    | Fund                            // the maker's HTLC confirms in the block at this height
    | Reveal                          // the taker sends its claim: the preimage is out
    | Settle                          // the maker settles the held payment with the preimage
    | Expire                          // the held payment fails back
    | Block(spend: Option<TxIn>)      // the next block, with or without a spend of the HTLC

  /** A spend the next block may contain: valid by script and age; the hash lock needs the preimage. */
  predicate Mineable(swap: Swap, s: State, input: TxIn) {
    && s.funded.Some? && s.spend.None? && s.funded.value <= s.height + 1
    && Satisfies(swap.htlc, input, s.height + 1 - s.funded.value)
    && (TakesHashlock(swap.htlc, input) ==> s.revealed.Some?)
  }

  /** `verify_htlc` before `claim_tx`: confirmed often enough and unspent. */
  predicate MayReveal(swap: Swap, s: State) {
    s.funded.Some? && s.spend.None? && s.revealed.None? && s.funded.value <= s.height && s.height - s.funded.value + 1 >= swap.minConfirmations
  }

  function Next(swap: Swap, s: State, step: Step): State {
    match step
    case Pay => if s.payment.Unpaid? && CltvBound(swap.htlc.locktime).Some? then s.(payment := Since(s.height)) else s
    case Fund => if s.payment.Since? && s.funded.None? then s.(funded := Some(s.height)) else s
    case Reveal => if MayReveal(swap, s) then s.(revealed := Some(s.height)) else s
    case Settle => if s.payment.Since? && s.revealed.Some? then s.(payment := Held.Settled) else s
    case Expire => if s.payment.Since? then s.(payment := FailedBack) else s
    case Block(spend) =>
      s.(height := s.height + 1,
         spend := if spend.Some? && Mineable(swap, s, spend.value) then Some(Spend(spend.value, s.height + 1)) else s.spend)
  }

  function Run(swap: Swap, s: State, steps: seq<Step>): State
    decreases |steps|
  {
    if steps == [] then s else Run(swap, Next(swap, s, steps[0]), steps[1..])
  }

  /** Every step of the run keeps to the rule. */
  predicate Keeps(swap: Swap, s: State, steps: seq<Step>, rule: (State, Step) -> bool)
    decreases |steps|
  {
    steps == [] || (rule(s, steps[0]) && Keeps(swap, Next(swap, s, steps[0]), steps[1..], rule))
  }

  predicate Claimed(swap: Swap, s: State) {
    s.spend.Some? && TakesHashlock(swap.htlc, s.spend.value.input)
  }

  /** The maker has the payment and its coins as well. */
  predicate PaidForNothing(swap: Swap, s: State) {
    s.payment.Settled? && s.spend.Some? && !Claimed(swap, s)
  }

  /** The taker has the coins and its payment as well. */
  predicate GivenAway(swap: Swap, s: State) {
    s.payment.FailedBack? && Claimed(swap, s)
  }

  // ---------------------------------------------------------------- the taker's side

  /** The taker's delays: `send` blocks from funding to sending the claim, `claim` from there to its confirmation. */
  datatype TakerDelays = TakerDelays(send: nat, claim: nat)

  predicate TakerTimely(swap: Swap, s: State, step: Step, d: TakerDelays) {
    match step
    case Reveal => MayReveal(swap, s) ==> s.height - s.funded.value <= d.send
    case Block(spend) =>
      s.revealed.Some? && s.spend.None? && s.height + 1 >= s.revealed.value + d.claim ==>
        spend.Some? && Mineable(swap, s, spend.value) && TakesHashlock(swap.htlc, spend.value)
    case _ => true
  }

  function TakerRule(swap: Swap, d: TakerDelays): (State, Step) -> bool {
    (s, step) => TakerTimely(swap, s, step, d)
  }

  /** A claim in the very next block cannot be overtaken; a later one must be in before the lock time. */
  predicate TakerFits(swap: Swap, d: TakerDelays) {
    d.claim <= 1 || d.send + d.claim <= swap.htlc.locktime
  }

  predicate TakerSafe(swap: Swap, s: State, d: TakerDelays) {
    && (s.payment.Settled? ==> s.revealed.Some?)
    && (s.funded.Some? ==> s.funded.value <= s.height)
    && (s.revealed.Some? ==>
          && s.funded.Some? && s.revealed.value <= s.height && s.revealed.value <= s.funded.value + d.send
          && (s.spend.None? ==> s.height < s.revealed.value + d.claim || s.height == s.revealed.value)
          && (s.spend.Some? ==> Claimed(swap, s)))
  }

  lemma TakerStepSafe(swap: Swap, s: State, step: Step, d: TakerDelays)
    requires TakerFits(swap, d) && TakerSafe(swap, s, d) && TakerTimely(swap, s, step, d)
    ensures TakerSafe(swap, Next(swap, s, step), d)
  {
  }

  lemma {:induction false} TakerRunSafe(swap: Swap, s: State, steps: seq<Step>, d: TakerDelays)
    requires TakerFits(swap, d) && TakerSafe(swap, s, d) && Keeps(swap, s, steps, TakerRule(swap, d))
    ensures TakerSafe(swap, Run(swap, s, steps), d)
    decreases |steps|
  {
    if steps != [] {
      TakerStepSafe(swap, s, steps[0], d);
      TakerRunSafe(swap, Next(swap, s, steps[0]), steps[1..], d);
    }
  }

  /** A taker whose delays fit the lock time never pays for coins the maker takes back, whatever the maker does. */
  lemma NeverPaidForNothing(swap: Swap, steps: seq<Step>, d: TakerDelays)
    requires TakerFits(swap, d) && Keeps(swap, START, steps, TakerRule(swap, d))
    ensures !PaidForNothing(swap, Run(swap, START, steps))
  {
    TakerRunSafe(swap, START, steps, d);
  }

  // ---------------------------------------------------------------- the maker's side

  /**
   The maker's delays: `fund` blocks from the held payment to the funding, `refund` from the lock
   time to a confirmed spend, `settle` from a confirmed claim to the settlement. The node holds
   the payment for `window` blocks.
   */
  datatype MakerDelays = MakerDelays(fund: nat, refund: nat, settle: nat, window: nat)

  predicate MakerTimely(swap: Swap, s: State, step: Step, d: MakerDelays) {
    match step
    case Fund => s.payment.Since? && s.funded.None? ==> s.height <= s.payment.height + d.fund
    case Expire => s.payment.Since? ==> s.height >= s.payment.height + d.window
    case Block(spend) =>
      && (s.funded.Some? && s.spend.None? && s.height + 1 >= s.funded.value + swap.htlc.locktime + d.refund ==>
            spend.Some? && Mineable(swap, s, spend.value))
      && (s.payment.Since? && Claimed(swap, s) ==> s.height + 1 <= s.spend.value.at + d.settle)
    case _ => true
  }

  function MakerRule(swap: Swap, d: MakerDelays): (State, Step) -> bool {
    (s, step) => MakerTimely(swap, s, step, d)
  }

  /** The window outlasts the funding, the lock time, the refund and the settlement. */
  predicate MakerFits(swap: Swap, d: MakerDelays) {
    d.fund + swap.htlc.locktime + d.refund + d.settle < d.window
  }

  predicate MakerSafe(swap: Swap, s: State, d: MakerDelays) {
    var last := swap.htlc.locktime + d.refund;
    && (!s.payment.Unpaid? ==> swap.htlc.locktime > 0) && (s.payment.Unpaid? ==> s.funded.None?)
    && (s.funded.None? ==> s.spend.None? && s.revealed.None?)
    && (s.funded.Some? ==> s.funded.value <= s.height && (s.spend.None? ==> s.height < s.funded.value + last))
    && (s.spend.Some? ==> s.spend.value.at <= s.height && s.spend.value.at <= s.funded.value + last)
    && (s.payment.Since? ==>
          && (s.funded.Some? ==> s.funded.value <= s.payment.height + d.fund)
          && (Claimed(swap, s) ==> s.height <= s.spend.value.at + d.settle))
    && (s.payment.FailedBack? && s.funded.Some? ==> s.spend.Some? && !Claimed(swap, s))
  }

  lemma MakerStepSafe(swap: Swap, s: State, step: Step, d: MakerDelays)
    requires MakerFits(swap, d) && MakerSafe(swap, s, d) && MakerTimely(swap, s, step, d)
    ensures MakerSafe(swap, Next(swap, s, step), d)
  {
  }

  lemma {:induction false} MakerRunSafe(swap: Swap, s: State, steps: seq<Step>, d: MakerDelays)
    requires MakerFits(swap, d) && MakerSafe(swap, s, d) && Keeps(swap, s, steps, MakerRule(swap, d))
    ensures MakerSafe(swap, Run(swap, s, steps), d)
    decreases |steps|
  {
    if steps != [] {
      MakerStepSafe(swap, s, steps[0], d);
      MakerRunSafe(swap, Next(swap, s, steps[0]), steps[1..], d);
    }
  }

  /** A maker whose payment is held longer than its delays and the lock time never gives coins away, whatever the taker does. */
  lemma NeverGivenAway(swap: Swap, steps: seq<Step>, d: MakerDelays)
    requires MakerFits(swap, d) && Keeps(swap, START, steps, MakerRule(swap, d))
    ensures !GivenAway(swap, Run(swap, START, steps))
  {
    MakerRunSafe(swap, START, steps, d);
  }

  /** The coins are locked only for a payment that is held, and the preimage shown only for coins confirmed often enough. */
  predicate PaidAndConfirmed(swap: Swap, s: State) {
    && (s.funded.Some? ==> s.funded.value <= s.height && !s.payment.Unpaid?)
    && (s.revealed.Some? ==> s.funded.Some? && s.funded.value + swap.minConfirmations <= s.revealed.value + 1)
    && (s.payment.Settled? ==> s.revealed.Some?)
  }

  /** In every run, timely or not: payment, funding, confirmations, preimage and settlement come in this order. */
  lemma {:induction false} NothingShownUnconfirmed(swap: Swap, s: State, steps: seq<Step>)
    requires PaidAndConfirmed(swap, s)
    ensures PaidAndConfirmed(swap, Run(swap, s, steps))
    decreases |steps|
  {
    if steps != [] {
      NothingShownUnconfirmed(swap, Next(swap, s, steps[0]), steps[1..]);
    }
  }

  // ---------------------------------------------------------------- both bounds are exact

  lemma {:induction false} RunConcat(swap: Swap, s: State, first: seq<Step>, more: seq<Step>, rule: (State, Step) -> bool)
    ensures Run(swap, s, first + more) == Run(swap, Run(swap, s, first), more)
    ensures Keeps(swap, s, first, rule) && Keeps(swap, Run(swap, s, first), more, rule) ==> Keeps(swap, s, first + more, rule)
    decreases |first|
  {
    if first == [] {
      assert first + more == more;
    } else {
      assert (first + more)[1..] == first[1..] + more;
      RunConcat(swap, Next(swap, s, first[0]), first[1..], more, rule);
    }
  }

  /** `n` blocks without a spend. */
  function Blocks(n: nat): seq<Step> {
    if n == 0 then [] else [Block(None)] + Blocks(n - 1)
  }

  function AtHeight(s: State, h: nat): State {
    s.(height := h)
  }

  /** The rule lets the chain grow to height `h` without a spend. */
  ghost predicate MayWait(s: State, h: nat, rule: (State, Step) -> bool) {
    forall i :: s.height <= i < h ==> rule(AtHeight(s, i), Block(None))
  }

  lemma {:induction false} BlocksPass(swap: Swap, s: State, n: nat, rule: (State, Step) -> bool)
    requires MayWait(s, s.height + n, rule)
    ensures Keeps(swap, s, Blocks(n), rule) && Run(swap, s, Blocks(n)) == AtHeight(s, s.height + n)
    decreases n
  {
    if n > 0 {
      assert Blocks(n)[1..] == Blocks(n - 1);
      assert AtHeight(s, s.height) == s;
      var later := Next(swap, s, Block(None));
      forall i | later.height <= i < later.height + (n - 1)
        ensures rule(AtHeight(later, i), Block(None))
      {
        assert AtHeight(later, i) == AtHeight(s, i);
      }
      BlocksPass(swap, later, n - 1, rule);
    }
  }

  lemma OneStep(swap: Swap, s: State, step: Step, rule: (State, Step) -> bool)
    requires rule(s, step)
    ensures Keeps(swap, s, [step], rule) && Run(swap, s, [step]) == Next(swap, s, step)
  {
    assert [step][1..] == [];
  }

  /** Waiting `n` blocks on top of a run that keeps to the rule, then one more step. */
  lemma WaitThen(swap: Swap, steps: seq<Step>, n: nat, step: Step, rule: (State, Step) -> bool) returns (longer: seq<Step>)
    requires Keeps(swap, START, steps, rule)
    requires var s := Run(swap, START, steps); MayWait(s, s.height + n, rule) && rule(AtHeight(s, s.height + n), step)
    ensures Keeps(swap, START, longer, rule)
    ensures var s := Run(swap, START, steps); Run(swap, START, longer) == Next(swap, AtHeight(s, s.height + n), step)
  {
    hide Run, Keeps, MayWait;
    var s := Run(swap, START, steps);
    BlocksPass(swap, s, n, rule);
    RunConcat(swap, START, steps, Blocks(n), rule);
    OneStep(swap, AtHeight(s, s.height + n), step, rule);
    RunConcat(swap, START, steps + Blocks(n), [step], rule);
    longer := steps + Blocks(n) + [step];
  }

  function Refund(swap: Swap): TxIn {
    TxIn(0, swap.htlc.locktime, [Signature(swap.htlc.timelock), Nothing, Script(swap.htlc)])
  }

  function Claim(swap: Swap): TxIn {
    TxIn(0, 0, [Signature(swap.htlc.hashlock), Bytes32(swap.preimage), Script(swap.htlc)])
  }

  /** When the taker's delays do not fit the lock time, some run that keeps to them has it pay for nothing. */
  lemma PaidForNothingWhenLate(swap: Swap, d: TakerDelays) returns (steps: seq<Step>)
    requires !TakerFits(swap, d) && CltvBound(swap.htlc.locktime).Some? && swap.minConfirmations <= Min(d.send, swap.htlc.locktime - 1) + 1
    ensures Keeps(swap, START, steps, TakerRule(swap, d)) && PaidForNothing(swap, Run(swap, START, steps))
  {
    hide Run, Keeps;
    var rule, wait := TakerRule(swap, d), Min(d.send, swap.htlc.locktime - 1);
    NoSteps(swap, rule);
    steps := WaitThen(swap, [], 0, Pay, rule);
    steps := WaitThen(swap, steps, 0, Fund, rule);
    steps := WaitThen(swap, steps, wait, Reveal, rule);
    steps := WaitThen(swap, steps, 0, Settle, rule);
    steps := WaitThen(swap, steps, swap.htlc.locktime - 1 - wait, Block(Some(Refund(swap))), rule);
  }

  lemma NoSteps(swap: Swap, rule: (State, Step) -> bool)
    ensures Keeps(swap, START, [], rule) && Run(swap, START, []) == START
  {
  }

  /** When the window does not outlast the maker's delays and the lock time, some run that keeps to them gives its coins away. */
  lemma GivenAwayWhenLate(swap: Swap, d: MakerDelays) returns (steps: seq<Step>)
    requires !MakerFits(swap, d) && CltvBound(swap.htlc.locktime).Some? && swap.minConfirmations <= swap.htlc.locktime + d.refund
    requires swap.htlc.hashvalue == Ripemd160(Sha256(swap.preimage))
    ensures Keeps(swap, START, steps, MakerRule(swap, d)) && GivenAway(swap, Run(swap, START, steps))
  {
    hide Run, Keeps;
    var rule := MakerRule(swap, d);
    NoSteps(swap, rule);
    steps := WaitThen(swap, [], 0, Pay, rule);
    steps := WaitThen(swap, steps, d.fund, Fund, rule);
    steps := WaitThen(swap, steps, swap.htlc.locktime + d.refund - 1, Reveal, rule);
    steps := WaitThen(swap, steps, 0, Block(Some(Claim(swap))), rule);
    steps := WaitThen(swap, steps, d.settle, Expire, rule);
  }

  /** A swap-out can go through within both roles' delays: the maker is paid and the taker's claim confirms. */
  lemma SwapOutInTime(swap: Swap, taker: TakerDelays, maker: MakerDelays) returns (steps: seq<Step>)
    requires CltvBound(swap.htlc.locktime).Some? && swap.minConfirmations <= Min(taker.send + 1, swap.htlc.locktime)
    requires swap.htlc.hashvalue == Ripemd160(Sha256(swap.preimage))
    ensures Keeps(swap, START, steps, (s, step) => TakerTimely(swap, s, step, taker) && MakerTimely(swap, s, step, maker))
    ensures var s := Run(swap, START, steps); s.payment.Settled? && Claimed(swap, s)
  {
    hide Run, Keeps;
    var rule := (s, step) => TakerTimely(swap, s, step, taker) && MakerTimely(swap, s, step, maker);
    NoSteps(swap, rule);
    steps := WaitThen(swap, [], 0, Pay, rule);
    steps := WaitThen(swap, steps, 0, Fund, rule);
    steps := WaitThen(swap, steps, Max(swap.minConfirmations, 1) - 1, Reveal, rule);
    steps := WaitThen(swap, steps, 0, Settle, rule);
    steps := WaitThen(swap, steps, 0, Block(Some(Claim(swap))), rule);
  }
}
