/** The maker's stored swap state and per-connection state (`src/maker/api.rs`, `src/maker/handlers.rs`). */
module MakerState {
  import opened Common

  type SwapId = string
  type Txid = nat
  /** A wallet coin, named by its outpoint. */
  type OutPoint = nat

  datatype Protocol = Legacy | Taproot

  datatype Phase =
    | AwaitingHello | AwaitingOfferRequest | AwaitingSwapDetails | AwaitingContractData
    | AwaitingSignaturesOrPreimage | AwaitingPrivateKeyHandover | Completed

  /** One planned funding transaction: the coins it spends and the value it sends. */
  datatype SplitPlan = SplitPlan(utxos: seq<OutPoint>, value: nat)

  /** A funding transaction, with the outpoints it spends. */
  datatype Tx = Tx(txid: Txid, inputs: seq<OutPoint>)

  /** A swapcoin, reduced to the contract transaction it rests on. A Taproot contract is its own funding. */
  datatype SwapCoin = SwapCoin(contract: Tx)

  datatype Terms = Terms(
    swapAmount: nat, txCount: nat, incomingCount: nat, maxInputBudget: nat,
    timelock: nat, protocol: Protocol, refundLocktimeOffset: nat, swapFeerate: real)

  const ZERO_TERMS := Terms(0, 0, 0, 0, 0, Legacy, 0, 0.0)

  /** What is stored per swap id, across connections. `startTime` identifies the admission. */
  datatype SwapState = SwapState(
    negotiated: Terms,
    phase: Phase,
    incoming: seq<SwapCoin>,
    outgoing: seq<SwapCoin>,
    claimedIncoming: seq<Txid>,
    pendingFunding: seq<Tx>,
    fundingBroadcast: seq<Txid>,
    serviceFee: nat,
    fundingPlan: seq<SplitPlan>,
    claimedPlan: seq<SplitPlan>,
    lastActivity: nat,
    startTime: nat,
    fundingHeight: Option<nat>)
  {
    /** No funding exists on either side yet. Claimed incoming txids and claimed coins do not count. */
    predicate IsUnfunded() {
      phase == AwaitingContractData && incoming == [] && outgoing == [] && pendingFunding == [] && fundingBroadcast == []
    }
  }

  const DEFAULT_STATE := SwapState(ZERO_TERMS, AwaitingHello, [], [], [], [], [], 0, [], [], 0, 0, None)

  /** What one connection knows of the swap it drives. */
  datatype Connection = Connection(
    phase: Phase,
    swapId: Option<SwapId>,
    terms: Terms,
    incoming: seq<SwapCoin>,
    outgoing: seq<SwapCoin>,
    pendingFunding: seq<Tx>,
    fundingBroadcast: seq<Txid>,
    serviceFee: nat,
    fundingPlan: seq<SplitPlan>,
    startTime: nat)

  type Swaps = map<SwapId, SwapState>

  /** A broadcast list after one more accepted send: each transaction once, in the order of the first sends. */
  function Listed(list: seq<Txid>, txid: Txid): (after: seq<Txid>)
    ensures list <= after && txid in after && (forall other :: other in after ==> other in list || other == txid)
    ensures NoRepeats(list) ==> NoRepeats(after)
  {
    if txid in list then list else list + [txid]
  }

  const MAX_CONCURRENT_SWAPS := 30
  const MAX_UNFUNDED_ADMISSIONS := 3600
  const REFUND_LOCKTIME_STEP := 20
  const REFUND_LOCKTIME_BASE := 20
  const MIN_CONTRACT_REACTION_TIME := 10
  const U32_MAX := 0xffff_ffff
}
