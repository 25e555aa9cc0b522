/**
 The clock of a swap-in (`src/lightning/swap.rs`): the maker pays a bounded number of blocks
 after the funding confirmed, over a route bounded by the lock time less a 12-block margin, and
 its claim confirms a bounded number of blocks after it learned the preimage.
 */
module SwapInTiming {
  import opened Common
  import opened Ledger
  import opened SwapHtlc
  import opened SwapIn

  datatype Payment = Unpaid | InFlight(since: nat) | PaidAt(at: nat) | FailedBack

  /** The maker signs for the hash lock and the taker for the time lock; only the taker knows the preimage at first. */
  datatype Swap = Swap(htlc: Htlc, preimage: Preimage, minConfirmations: nat)

  datatype State = State(height: nat, funded: Option<nat>, spend: Option<TxIn>, payment: Payment, learned: Option<nat>)

  const START := State(0, None, None, Unpaid, None)

  datatype Step =
    | Confirm                         // the funding confirms in the block at this height
    | Pay                             // the maker pays the hold invoice
    | Settle                          // the taker claims the held payment and so reveals the preimage
    | GiveUp                          // the held payment fails back
    | Learn                           // the maker reads the preimage from its node
    | Block(spend: Option<TxIn>)      // the next block, with or without a spend of the HTLC

  /** A spend the next block may contain: valid by script and age, and made by someone who can make it. */
  predicate Mineable(swap: Swap, s: State, input: TxIn) {
    && s.funded.Some? && s.spend.None? && s.funded.value <= s.height + 1
    && Satisfies(swap.htlc, input, s.height + 1 - s.funded.value)
    && (TakesHashlock(swap.htlc, input) ==> s.learned.Some?)
  }

  /** Enough confirmations, unspent, and a lock time that leaves a route budget. */
  predicate MayPay(swap: Swap, s: State) {
    s.funded.Some? && s.spend.None? && s.payment.Unpaid? && s.funded.value <= s.height
    && s.height - s.funded.value + 1 >= swap.minConfirmations && CltvBound(swap.htlc.locktime).Some?
  }

  function Next(swap: Swap, s: State, step: Step): State {
    match step
    case Confirm => if s.funded.None? then s.(funded := Some(s.height)) else s
    case Pay => if MayPay(swap, s) then s.(payment := InFlight(s.height)) else s
    case Settle => if s.payment.InFlight? then s.(payment := PaidAt(s.height)) else s
    case GiveUp => if s.payment.InFlight? then s.(payment := FailedBack) else s
    case Learn => if s.payment.PaidAt? && s.learned.None? then s.(learned := Some(s.height)) else s
    case Block(spend) =>
      s.(height := s.height + 1, spend := if spend.Some? && Mineable(swap, s, spend.value) then spend else s.spend)
  }

  /** The delays: `pay` blocks from funding to payment, `poll` from settlement to learning, `claim` from learning to the confirmed claim. */
  datatype Delays = Delays(pay: nat, poll: nat, claim: nat)

  /** The step keeps to the delays, and the node to the route bound. */
  predicate Timely(swap: Swap, s: State, step: Step, delays: Delays) {
    match step
    case Pay => MayPay(swap, s) ==> s.height - s.funded.value <= delays.pay
    case Settle => s.payment.InFlight? && CltvBound(swap.htlc.locktime).Some? ==> s.height <= s.payment.since + CltvBound(swap.htlc.locktime).value
    case Block(spend) =>
      s.payment.PaidAt? && s.spend.None? ==>
        && (s.learned.None? ==> s.height + 1 <= s.payment.at + delays.poll)
        && (s.learned.Some? && s.height + 1 >= s.learned.value + delays.claim ==>
              spend.Some? && Mineable(swap, s, spend.value) && TakesHashlock(swap.htlc, spend.value))
    case _ => true
  }

  function Run(swap: Swap, s: State, steps: seq<Step>): State
    decreases |steps|
  {
    if steps == [] then s else Run(swap, Next(swap, s, steps[0]), steps[1..])
  }

  predicate TimelyRun(swap: Swap, s: State, steps: seq<Step>, delays: Delays)
    decreases |steps|
  {
    steps == [] || (Timely(swap, s, steps[0], delays) && TimelyRun(swap, Next(swap, s, steps[0]), steps[1..], delays))
  }

  /** The taker has the Lightning payment and the refund as well. */
  predicate Doubled(s: State) {
    s.payment.PaidAt? && s.spend.Some? && |s.spend.value.stack| == 3 && s.spend.value.stack[1] == Nothing
  }

  predicate Fits(delays: Delays) {
    delays.pay + delays.poll + delays.claim <= ROUTE_CLTV_MARGIN
  }

  // ---------------------------------------------------------------- safety

  /** Everything happened in time, and a refund only past the lock time and without a payment. */
  predicate OnTime(swap: Swap, s: State, delays: Delays) {
    && (s.funded.None? ==> s.payment.Unpaid? && s.spend.None? && s.learned.None?)
    && (s.funded.Some? ==> s.funded.value <= s.height)
    && (s.payment.InFlight? ==> CltvBound(swap.htlc.locktime).Some? && s.payment.since <= s.funded.value + delays.pay)
    && (s.payment.PaidAt? ==> CltvBound(swap.htlc.locktime).Some? && s.payment.at <= s.height
                              && s.payment.at + ROUTE_CLTV_MARGIN <= s.funded.value + delays.pay + swap.htlc.locktime)
    && (s.learned.Some? ==> s.payment.PaidAt? && s.learned.value <= s.payment.at + delays.poll && s.learned.value <= s.height)
    && (s.payment.PaidAt? && s.learned.None? && s.spend.None? ==> s.height <= s.payment.at + delays.poll)
    && (s.learned.Some? && s.spend.None? ==> s.height < s.learned.value + delays.claim)
    && (s.spend.Some? && !TakesHashlock(swap.htlc, s.spend.value) ==>
          s.funded.Some? && s.height >= s.funded.value + swap.htlc.locktime && !s.payment.PaidAt?)
    && (s.spend.Some? && TakesHashlock(swap.htlc, s.spend.value) ==> s.learned.Some?)
  }

  lemma StepOnTime(swap: Swap, s: State, step: Step, delays: Delays)
    requires delays.claim > 0 && Fits(delays) && OnTime(swap, s, delays) && Timely(swap, s, step, delays)
    ensures OnTime(swap, Next(swap, s, step), delays)
  {
  }

  lemma {:induction false} RunOnTime(swap: Swap, s: State, steps: seq<Step>, delays: Delays)
    requires delays.claim > 0 && Fits(delays) && OnTime(swap, s, delays) && TimelyRun(swap, s, steps, delays)
    ensures OnTime(swap, Run(swap, s, steps), delays)
    decreases |steps|
  {
    if steps != [] {
      StepOnTime(swap, s, steps[0], delays);
      RunOnTime(swap, Next(swap, s, steps[0]), steps[1..], delays);
    }
  }

  /** In every timely run the taker never ends up with both the Lightning payment and the refund. */
  lemma NeverDoubled(swap: Swap, steps: seq<Step>, delays: Delays)
    requires delays.claim > 0 && Fits(delays) && TimelyRun(swap, START, steps, delays)
    ensures !Doubled(Run(swap, START, steps))
  {
    RunOnTime(swap, START, steps, delays);
  }

  /** A payment leaves only once the funding has the agreed confirmations. */
  predicate ConfirmedFirst(swap: Swap, s: State) {
    && (s.funded.Some? ==> s.funded.value <= s.height)
    && (!s.payment.Unpaid? ==> s.funded.Some? && s.funded.value + swap.minConfirmations <= s.height + 1)
    && (s.payment.InFlight? ==> s.funded.value + swap.minConfirmations <= s.payment.since + 1)
    && (s.payment.PaidAt? ==> s.funded.value + swap.minConfirmations <= s.payment.at + 1)
    && (s.learned.Some? ==> s.payment.PaidAt?)
  }

  /** In every run, timely or not: no payment before the confirmations, and no preimage before the payment settled. */
  lemma {:induction false} NothingPaidUnconfirmed(swap: Swap, s: State, steps: seq<Step>)
    requires ConfirmedFirst(swap, s)
    ensures ConfirmedFirst(swap, Run(swap, s, steps))
    decreases |steps|
  {
    if steps != [] {
      NothingPaidUnconfirmed(swap, Next(swap, s, steps[0]), steps[1..]);
    }
  }

  // ---------------------------------------------------------------- the bound is exact

  lemma {:induction false} RunConcat(swap: Swap, s: State, first: seq<Step>, more: seq<Step>, delays: Delays)
    ensures Run(swap, s, first + more) == Run(swap, Run(swap, s, first), more)
    ensures TimelyRun(swap, s, first, delays) && TimelyRun(swap, Run(swap, s, first), more, delays) ==> TimelyRun(swap, s, first + more, delays)
    decreases |first|
  {
    if first == [] {
      assert first + more == more;
    } else {
      assert (first + more)[1..] == first[1..] + more;
      RunConcat(swap, Next(swap, s, first[0]), first[1..], more, delays);
    }
  }

  /** `n` blocks without a spend. */
  function Blocks(n: nat): seq<Step> {
    if n == 0 then [] else [Block(None)] + Blocks(n - 1)
  }

  /** The next `n` blocks may pass without a claim. */
  predicate MayWait(s: State, n: nat, delays: Delays) {
    s.payment.PaidAt? && s.spend.None? ==>
      if s.learned.None? then s.height + n <= s.payment.at + delays.poll else s.height + n < s.learned.value + delays.claim
  }

  lemma {:induction false} BlocksPass(swap: Swap, s: State, n: nat, delays: Delays)
    requires n > 0 ==> MayWait(s, n, delays)
    ensures TimelyRun(swap, s, Blocks(n), delays) && Run(swap, s, Blocks(n)) == s.(height := s.height + n)
    decreases n
  {
    if n > 0 {
      assert Blocks(n)[1..] == Blocks(n - 1);
      BlocksPass(swap, Next(swap, s, Block(None)), n - 1, delays);
    }
  }

  lemma OneStep(swap: Swap, s: State, step: Step, delays: Delays)
    requires Timely(swap, s, step, delays)
    ensures TimelyRun(swap, s, [step], delays) && Run(swap, s, [step]) == Next(swap, s, step)
  {
    assert [step][1..] == [];
  }

  function Refund(swap: Swap): TxIn {
    TxIn(0, swap.htlc.locktime, [Signature(swap.htlc.timelock), Nothing, Script(swap.htlc)])
  }

  /** Waiting `n` blocks on top of a timely run, then one more step. */
  lemma WaitThen(swap: Swap, steps: seq<Step>, n: nat, step: Step, delays: Delays) returns (longer: seq<Step>)
    requires TimelyRun(swap, START, steps, delays) && (n > 0 ==> MayWait(Run(swap, START, steps), n, delays))
    requires var s := Run(swap, START, steps); Timely(swap, s.(height := s.height + n), step, delays)
    ensures TimelyRun(swap, START, longer, delays)
    ensures var s := Run(swap, START, steps); Run(swap, START, longer) == Next(swap, s.(height := s.height + n), step)
  {
    hide Run, TimelyRun, Next, Timely;
    var s := Run(swap, START, steps);
    BlocksPass(swap, s, n, delays);
    RunConcat(swap, START, steps, Blocks(n), delays);
    OneStep(swap, s.(height := s.height + n), step, delays);
    RunConcat(swap, START, steps + Blocks(n), [step], delays);
    longer := steps + Blocks(n) + [step];
  }

  lemma Begin(swap: Swap, delays: Delays)
    ensures TimelyRun(swap, START, [Confirm], delays) && Run(swap, START, [Confirm]) == State(0, Some(0), None, Unpaid, None)
  {
  }

  /** When the delays exceed the margin, some timely run pays the taker twice: so the 12 blocks are exactly what the delays may use. */
  lemma DoubledWhenLate(swap: Swap, delays: Delays) returns (steps: seq<Step>)
    requires delays.claim > 0 && !Fits(delays) && CltvBound(swap.htlc.locktime).Some?
    requires swap.minConfirmations <= Min(delays.pay, ROUTE_CLTV_MARGIN) + 1
    ensures TimelyRun(swap, START, steps, delays) && Doubled(Run(swap, START, steps))
  {
    hide TimelyRun, Run;
    Begin(swap, delays);
    var wait, route := Min(delays.pay, ROUTE_CLTV_MARGIN), CltvBound(swap.htlc.locktime).value;
    steps := WaitThen(swap, [Confirm], wait, Pay, delays);
    var refund := Block(Some(Refund(swap)));
    if wait == ROUTE_CLTV_MARGIN {
      steps := WaitThen(swap, steps, route - 1, refund, delays);
      steps := WaitThen(swap, steps, 0, Settle, delays);
    } else {
      steps := WaitThen(swap, steps, route, Settle, delays);
      var rest := ROUTE_CLTV_MARGIN - wait;
      if delays.poll >= rest {
        steps := WaitThen(swap, steps, rest - 1, refund, delays);
      } else {
        steps := WaitThen(swap, steps, delays.poll, Learn, delays);
        steps := WaitThen(swap, steps, rest - delays.poll - 1, refund, delays);
      }
    }
  }

  /** A timely swap-in can go through: the taker is paid and the maker's claim confirms. */
  lemma SwapInInTime(swap: Swap, delays: Delays) returns (steps: seq<Step>)
    requires delays.claim > 0 && CltvBound(swap.htlc.locktime).Some? && swap.minConfirmations <= delays.pay + 1
    requires swap.htlc.hashvalue == Ripemd160(Sha256(swap.preimage))
    ensures TimelyRun(swap, START, steps, delays)
    ensures var s := Run(swap, START, steps); s.payment.PaidAt? && s.spend.Some? && TakesHashlock(swap.htlc, s.spend.value)
  {
    hide TimelyRun, Run;
    Begin(swap, delays);
    var claim := TxIn(0, 0, [Signature(swap.htlc.hashlock), Bytes32(swap.preimage), Script(swap.htlc)]);
    steps := WaitThen(swap, [Confirm], Max(swap.minConfirmations, 1) - 1, Pay, delays);
    steps := WaitThen(swap, steps, 0, Settle, delays);
    steps := WaitThen(swap, steps, 0, Learn, delays);
    steps := WaitThen(swap, steps, 0, Block(Some(claim)), delays);
  }

  /** And it can fail: the held payment goes back, and the taker has its coins again after the lock time. */
  lemma RefundAfterFailure(swap: Swap, delays: Delays) returns (steps: seq<Step>)
    requires CltvBound(swap.htlc.locktime).Some? && swap.minConfirmations <= Min(delays.pay + 1, swap.htlc.locktime)
    ensures TimelyRun(swap, START, steps, delays)
    ensures var s := Run(swap, START, steps); s.payment.FailedBack? && s.spend == Some(Refund(swap)) && s.height == swap.htlc.locktime
  {
    hide TimelyRun, Run;
    Begin(swap, delays);
    var wait := Max(swap.minConfirmations, 1) - 1;
    steps := WaitThen(swap, [Confirm], wait, Pay, delays);
    steps := WaitThen(swap, steps, 0, GiveUp, delays);
    steps := WaitThen(swap, steps, swap.htlc.locktime - wait - 1, Block(Some(Refund(swap))), delays);
  }
}
