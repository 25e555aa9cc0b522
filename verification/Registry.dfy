/**
 The sections of `src/maker/api.rs` that run under the `ongoing_swaps` lock, one step each.

 The sections are functions on the stored map. The class `SwapRegistry` holds the map and
 runs them the way the source does. A run is any sequence of sections, so every interleaving
 of handlers, reconnects and drains is one.
 */
module Registry {
  import opened Common
  import opened MakerState

  // ---------------------------------------------------------------- caps

  predicate CountsUnfunded(state: SwapState) {
    state.phase != Completed && state.IsUnfunded()
  }

  predicate CountsFunded(state: SwapState) {
    state.phase != Completed && !state.IsUnfunded()
  }

  function UnfundedIds(swaps: Swaps): set<SwapId> {
    set id | id in swaps && CountsUnfunded(swaps[id])
  }

  function FundedIds(swaps: Swaps): set<SwapId> {
    set id | id in swaps && CountsFunded(swaps[id])
  }

  predicate AtCap(swaps: Swaps) {
    |FundedIds(swaps)| >= MAX_CONCURRENT_SWAPS || |UnfundedIds(swaps)| >= MAX_UNFUNDED_ADMISSIONS
  }

  // ---------------------------------------------------------------- storing a connection

  /** What a store leaves under the swap id; claims, heights and a known plan survive it. */
  function Written(stored: SwapState, conn: Connection, planned: Option<seq<SplitPlan>>, now: nat): SwapState {
    stored.(
      negotiated := conn.terms,
      phase := conn.phase,
      incoming := conn.incoming,
      outgoing := conn.outgoing,
      pendingFunding := conn.pendingFunding,
      fundingBroadcast := conn.fundingBroadcast,
      serviceFee := conn.serviceFee,
      fundingPlan := if planned.Some? then planned.value else conn.fundingPlan,
      lastActivity := now,
      startTime := conn.startTime)
  }

  /** A non-admission store is stale unless the connection holds the stored admission, or puts back a completed swap. */
  predicate Stale(swaps: Swaps, id: SwapId, conn: Connection) {
    if id in swaps then swaps[id].startTime != conn.startTime else conn.phase != Completed
  }

  datatype StoreResult = Stored | Refreshed | Mismatch | Expired | TooMany | StaleStore

  /** The locked part of `store_connection_state`; `planned` is the plan made before the lock was taken. */
  function StoreOutcome(swaps: Swaps, id: SwapId, conn: Connection, admission: bool, planned: Option<seq<SplitPlan>>): StoreResult {
    if admission && id in swaps then
      if swaps[id].negotiated != conn.terms then Mismatch else Refreshed
    else if admission && planned.None? then Expired
    else if planned.Some? && AtCap(swaps) then TooMany
    else if !admission && Stale(swaps, id, conn) then StaleStore
    else Stored
  }

  function Store(swaps: Swaps, id: SwapId, conn: Connection, admission: bool, planned: Option<seq<SplitPlan>>, now: nat): Swaps {
    match StoreOutcome(swaps, id, conn, admission, planned)
    case Stored => swaps[id := Written(if id in swaps then swaps[id] else DEFAULT_STATE, conn, planned, now)]
    case Refreshed => swaps[id := swaps[id].(lastActivity := now)]
    case _ => swaps
  }

  // ---------------------------------------------------------------- incoming contract claims

  function Txids(coins: seq<SwapCoin>): set<Txid> {
    set coin | coin in coins :: coin.contract.txid
  }

  function Holds(state: SwapState): set<Txid> {
    (set txid | txid in state.claimedIncoming) + Txids(state.incoming) + Txids(state.outgoing)
  }

  /** True when a swap other than `except` already holds one of `txids`. */
  predicate LiveSwapHolds(swaps: Swaps, except: SwapId, txids: seq<Txid>) {
    exists id :: id in swaps && id != except && Holds(swaps[id]) * (set txid | txid in txids) != {}
  }

  predicate ClaimAccepted(swaps: Swaps, id: SwapId, txids: seq<Txid>) {
    !LiveSwapHolds(swaps, id, txids) && id in swaps
    && (swaps[id].claimedIncoming == [] || swaps[id].claimedIncoming == txids)
  }

  function ClaimIncoming(swaps: Swaps, id: SwapId, txids: seq<Txid>, now: nat): Swaps {
    if ClaimAccepted(swaps, id, txids) then
      swaps[id := swaps[id].(claimedIncoming := txids, lastActivity := now)]
    else swaps
  }

  // ---------------------------------------------------------------- refund deadlines and the idle drain

  function SatAdd(a: nat, b: nat): nat {
    if a + b <= U32_MAX then a + b else U32_MAX
  }

  predicate PastRefundDeadline(protocol: Protocol, timelock: nat, fundingHeight: Option<nat>, height: nat) {
    match protocol
    case Taproot => SatAdd(timelock, REFUND_LOCKTIME_STEP) < SatAdd(height, MIN_CONTRACT_REACTION_TIME)
    case Legacy =>
      fundingHeight.Some?
      && SatAdd(SatAdd(fundingHeight.value, timelock), REFUND_LOCKTIME_STEP) < SatAdd(height, MIN_CONTRACT_REACTION_TIME)
  }

  predicate Past(state: SwapState, height: nat) {
    PastRefundDeadline(state.negotiated.protocol, state.negotiated.timelock, state.fundingHeight, height)
  }

  predicate Idle(state: SwapState, now: nat, timeout: nat) {
    now > state.lastActivity + timeout
  }

  predicate DropsUnfunded(state: SwapState, now: nat, timeout: nat) {
    state.IsUnfunded() && Idle(state, now, timeout)
  }

  predicate DrainsStale(state: SwapState, now: nat, timeout: nat, height: Option<nat>) {
    state.outgoing != [] && ((height.Some? && Past(state, height.value)) || Idle(state, now, timeout))
  }

  function DroppedIds(swaps: Swaps, now: nat, timeout: nat): set<SwapId> {
    set id | id in swaps && DropsUnfunded(swaps[id], now, timeout)
  }

  function StaleIds(swaps: Swaps, now: nat, timeout: nat, height: Option<nat>): set<SwapId> {
    set id | id in swaps && DrainsStale(swaps[id], now, timeout, height)
  }

  function Drain(swaps: Swaps, now: nat, timeout: nat, height: Option<nat>): Swaps {
    swaps - DroppedIds(swaps, now, timeout) - StaleIds(swaps, now, timeout, height)
  }

  // ---------------------------------------------------------------- the other locked sections

  function Touch(swaps: Swaps, id: SwapId, now: nat): Swaps {
    if id in swaps then swaps[id := swaps[id].(lastActivity := now)] else swaps
  }

  /** The transactions that show the taker's money moving: for Legacy, what the incoming contracts spend. */
  predicate NamesFunding(state: SwapState) {
    match state.negotiated.protocol
    case Legacy => exists i :: 0 <= i < |state.incoming| && state.incoming[i].contract.inputs != []
    case Taproot => state.claimedIncoming != [] || state.incoming != []
  }

  /** A keepalive counts unless the swap is past its deadline, breached, or named funding the backend cannot see. */
  predicate KeepaliveCounts(swaps: Swaps, id: SwapId, height: nat, breached: bool, unseen: bool) {
    !breached && (id in swaps ==> !Past(swaps[id], height) && !(unseen && NamesFunding(swaps[id])))
  }

  function AfterKeepalive(swaps: Swaps, id: SwapId, now: nat, height: nat, breached: bool, unseen: bool): Swaps {
    if KeepaliveCounts(swaps, id, height, breached, unseen) then Touch(swaps, id, now) else swaps
  }

  function RecordBroadcast(swaps: Swaps, id: SwapId, txid: Txid, now: nat): Swaps {
    if id in swaps then
      swaps[id := swaps[id].(
        fundingBroadcast := Listed(swaps[id].fundingBroadcast, txid),
        lastActivity := now)]
    else swaps
  }

  function SetClaimedPlan(swaps: Swaps, id: SwapId, plan: seq<SplitPlan>): Swaps {
    if id in swaps then swaps[id := swaps[id].(claimedPlan := plan)] else swaps
  }

  function SetFundingHeight(swaps: Swaps, id: SwapId, height: nat): Swaps {
    if id in swaps then swaps[id := swaps[id].(fundingHeight := Some(height))] else swaps
  }

  /** Every section that may change the stored map. */
  datatype Section =
    | Admitting(id: SwapId, conn: Connection, planned: Option<seq<SplitPlan>>)
    | Storing(id: SwapId, conn: Connection)
    | Claiming(id: SwapId, txids: seq<Txid>)
    | Touching(id: SwapId)
    | Recording(id: SwapId, txid: Txid)
    | Planning(id: SwapId, plan: seq<SplitPlan>)
    | Confirming(id: SwapId, height: nat)
    | Removing(id: SwapId)
    | Draining(timeout: nat, tip: Option<nat>)

  function Apply(swaps: Swaps, section: Section, now: nat): Swaps {
    match section
    case Admitting(id, conn, planned) => Store(swaps, id, conn, true, planned, now)
    case Storing(id, conn) => Store(swaps, id, conn, false, None, now)
    case Claiming(id, txids) => ClaimIncoming(swaps, id, txids, now)
    case Touching(id) => Touch(swaps, id, now)
    case Recording(id, txid) => RecordBroadcast(swaps, id, txid, now)
    case Planning(id, plan) => SetClaimedPlan(swaps, id, plan)
    case Confirming(id, height) => SetFundingHeight(swaps, id, height)
    case Removing(id) => swaps - {id}
    case Draining(timeout, tip) => Drain(swaps, now, timeout, tip)
  }

  /** A run: the sections in the order the lock was taken, each with the time it ran at. */
  function Run(swaps: Swaps, sections: seq<(Section, nat)>): Swaps
    decreases |sections|
  {
    if sections == [] then swaps
    else Apply(Run(swaps, sections[..|sections| - 1]), sections[|sections| - 1].0, sections[|sections| - 1].1)
  }

  // ---------------------------------------------------------------- incoming claims stay disjoint and fixed

  function Claimed(state: SwapState): set<Txid> {
    set txid | txid in state.claimedIncoming
  }

  predicate ClaimsDisjoint(swaps: Swaps) {
    forall a, b :: a in swaps && b in swaps && a != b ==> Claimed(swaps[a]) * Claimed(swaps[b]) == {}
  }

  lemma ClaimStaysDisjoint(swaps: Swaps, id: SwapId, txids: seq<Txid>, now: nat)
    requires ClaimsDisjoint(swaps)
    ensures ClaimsDisjoint(ClaimIncoming(swaps, id, txids, now))
  {
  }

  /** A txid is held elsewhere when another live swap claimed it or carries a coin, in or out, on that contract. */
  lemma HoldsExactly(swaps: Swaps, except: SwapId, txids: seq<Txid>)
    ensures LiveSwapHolds(swaps, except, txids) <==>
            exists id, txid :: id in swaps && id != except && txid in txids && Carries(swaps[id], txid)
  {
    forall id | id in swaps && id != except
      ensures Holds(swaps[id]) * (set txid | txid in txids) != {} <==> exists txid :: txid in txids && Carries(swaps[id], txid)
    {
      var shared := Holds(swaps[id]) * (set txid | txid in txids);
      assert forall txid :: txid in shared <==> txid in txids && Carries(swaps[id], txid);
    }
  }

  predicate Carries(state: SwapState, txid: Txid) {
    txid in state.claimedIncoming || exists coin :: coin in state.incoming + state.outgoing && coin.contract.txid == txid
  }

  /** Outside a claim, every section keeps each swap's claim; a new entry starts with none. */
  lemma SectionKeepsClaims(swaps: Swaps, section: Section, now: nat, id: SwapId)
    requires id in Apply(swaps, section, now)
    ensures id !in swaps ==> Apply(swaps, section, now)[id].claimedIncoming == []
    ensures id in swaps && (!section.Claiming? || swaps[id].claimedIncoming != [])
        ==> Apply(swaps, section, now)[id].claimedIncoming == swaps[id].claimedIncoming
  {
  }

  lemma SectionKeepsDisjoint(swaps: Swaps, section: Section, now: nat)
    requires ClaimsDisjoint(swaps)
    ensures ClaimsDisjoint(Apply(swaps, section, now))
  {
    if section.Claiming? {
      ClaimStaysDisjoint(swaps, section.id, section.txids, now);
    } else {
      var after := Apply(swaps, section, now);
      forall a, b | a in after && b in after && a != b
        ensures Claimed(after[a]) * Claimed(after[b]) == {}
      {
        SectionKeepsClaims(swaps, section, now, a);
        SectionKeepsClaims(swaps, section, now, b);
      }
    }
  }

  /** In every run the incoming contracts claimed by distinct live swaps are disjoint. */
  lemma {:induction false} IncomingClaimsDisjoint(sections: seq<(Section, nat)>)
    ensures ClaimsDisjoint(Run(map[], sections))
    decreases |sections|
  {
    if sections != [] {
      var earlier := sections[..|sections| - 1];
      IncomingClaimsDisjoint(earlier);
      SectionKeepsDisjoint(Run(map[], earlier), sections[|sections| - 1].0, sections[|sections| - 1].1);
    }
  }

  /** A retry of the same claim is accepted again and changes nothing but the activity time. */
  lemma ClaimRetryAccepted(swaps: Swaps, id: SwapId, txids: seq<Txid>, now: nat, later: nat)
    requires ClaimAccepted(swaps, id, txids)
    ensures var claimed := ClaimIncoming(swaps, id, txids, now);
            && ClaimAccepted(claimed, id, txids)
            && ClaimIncoming(claimed, id, txids, later) == claimed[id := claimed[id].(lastActivity := later)]
  {
  }

  /** True when `id` stays live through the whole run. */
  ghost predicate StaysLive(swaps: Swaps, sections: seq<(Section, nat)>, id: SwapId) {
    forall k :: 0 <= k <= |sections| ==> id in Run(swaps, sections[..k])
  }

  /** A non-empty claim is constant until its swap is removed. */
  lemma {:induction false} ClaimConstantWhileLive(swaps: Swaps, sections: seq<(Section, nat)>, id: SwapId)
    requires StaysLive(swaps, sections, id)
    requires id in swaps && swaps[id].claimedIncoming != []
    ensures id in Run(swaps, sections) && Run(swaps, sections)[id].claimedIncoming == swaps[id].claimedIncoming
    decreases |sections|
  {
    assert sections[..|sections|] == sections;
    if sections != [] {
      var earlier := sections[..|sections| - 1];
      forall k | 0 <= k <= |earlier|
        ensures id in Run(swaps, earlier[..k])
      {
        assert earlier[..k] == sections[..k];
      }
      ClaimConstantWhileLive(swaps, earlier, id);
      SectionKeepsClaims(Run(swaps, earlier), sections[|sections| - 1].0, sections[|sections| - 1].1, id);
    }
  }

  // ---------------------------------------------------------------- racing admissions keep the caps

  predicate WithinCaps(swaps: Swaps) {
    |UnfundedIds(swaps)| <= MAX_UNFUNDED_ADMISSIONS
    && |UnfundedIds(swaps) + FundedIds(swaps)| <= MAX_UNFUNDED_ADMISSIONS + MAX_CONCURRENT_SWAPS - 1
  }

  /** A store of a live swap's own connection never moves it back to unfunded, nor back from completed. */
  predicate Forward(swaps: Swaps, section: Section) {
    section.Storing? && StoreOutcome(swaps, section.id, section.conn, false, None) == Stored ==>
      var written := Written(if section.id in swaps then swaps[section.id] else DEFAULT_STATE, section.conn, None, 0);
      && (CountsUnfunded(written) ==> section.id in UnfundedIds(swaps))
      && (written.phase != Completed ==> section.id in UnfundedIds(swaps) + FundedIds(swaps))
  }

  /** Only an accepted admission adds to either count, and it adds one swap. */
  lemma SectionGrowth(swaps: Swaps, section: Section, now: nat)
    requires Forward(swaps, section)
    ensures var after := Apply(swaps, section, now);
            var added := if section.Admitting? && StoreOutcome(swaps, section.id, section.conn, true, section.planned) == Stored
                         then {section.id} else {};
            && UnfundedIds(after) <= UnfundedIds(swaps) + added
            && UnfundedIds(after) + FundedIds(after) <= UnfundedIds(swaps) + FundedIds(swaps) + added
  {
  }

  lemma SubsetSize<T>(small: set<T>, large: set<T>)
    requires small <= large
    ensures |small| <= |large|
  {
    assert large == small + (large - small);
  }

  lemma SectionKeepsCaps(swaps: Swaps, section: Section, now: nat)
    requires WithinCaps(swaps) && Forward(swaps, section)
    ensures WithinCaps(Apply(swaps, section, now))
  {
    hide Apply, FundedIds, UnfundedIds, Forward;
    var after := Apply(swaps, section, now);
    SectionGrowth(swaps, section, now);
    if section.Admitting? && StoreOutcome(swaps, section.id, section.conn, true, section.planned) == Stored {
      assert !AtCap(swaps);
      SubsetSize(UnfundedIds(after), UnfundedIds(swaps) + {section.id});
      SubsetSize(UnfundedIds(after) + FundedIds(after), UnfundedIds(swaps) + FundedIds(swaps) + {section.id});
    } else {
      SubsetSize(UnfundedIds(after), UnfundedIds(swaps));
      SubsetSize(UnfundedIds(after) + FundedIds(after), UnfundedIds(swaps) + FundedIds(swaps));
    }
  }

  ghost predicate ForwardRun(swaps: Swaps, sections: seq<(Section, nat)>) {
    forall k :: 0 <= k < |sections| ==> Forward(Run(swaps, sections[..k]), sections[k].0)
  }

  /**
   However many admissions passed the unlocked check, the re-check under the lock keeps the
   unfunded swaps within their cap, and all swaps not yet completed within the two caps together.
   */
  lemma {:induction false} RacingAdmissionsKeepCaps(sections: seq<(Section, nat)>)
    requires ForwardRun(map[], sections)
    ensures WithinCaps(Run(map[], sections))
    decreases |sections|
  {
    if sections == [] {
      assert UnfundedIds(map[]) == {} && FundedIds(map[]) == {};
    } else {
      var earlier := sections[..|sections| - 1];
      forall k | 0 <= k < |earlier|
        ensures Forward(Run(map[], earlier[..k]), earlier[k].0)
      {
        assert earlier[..k] == sections[..k];
      }
      RacingAdmissionsKeepCaps(earlier);
      SectionKeepsCaps(Run(map[], earlier), sections[|sections| - 1].0, sections[|sections| - 1].1);
    }
  }

  // ---------------------------------------------------------------- refund deadlines

  /** Saturation aside, a deadline is the block at which fewer than the reaction time is left. */
  lemma PastExactly(protocol: Protocol, timelock: nat, fundingHeight: Option<nat>, height: nat)
    ensures PastRefundDeadline(protocol, timelock, fundingHeight, height) <==>
            && (protocol == Legacy ==> fundingHeight.Some?)
            && var deadline := (if protocol == Taproot then 0 else fundingHeight.value) + timelock + REFUND_LOCKTIME_STEP;
               deadline < U32_MAX && deadline < height + MIN_CONTRACT_REACTION_TIME
  {
  }

  lemma PastMonotone(protocol: Protocol, timelock: nat, fundingHeight: Option<nat>, height: nat, later: nat)
    requires height <= later && PastRefundDeadline(protocol, timelock, fundingHeight, height)
    ensures PastRefundDeadline(protocol, timelock, fundingHeight, later)
  {
  }

  /** The timelock check a Taproot SwapDetails must pass at the height it is validated. */
  predicate TaprootTimelockAccepted(timelock: nat, height: nat) {
    !(SatAdd(timelock, REFUND_LOCKTIME_STEP) < SatAdd(height, MIN_CONTRACT_REACTION_TIME))
  }

  /** An accepted Taproot swap is not past its deadline at any height up to the one that validated it. */
  lemma ValidatedNotPast(timelock: nat, fundingHeight: Option<nat>, validated: nat, height: nat)
    requires TaprootTimelockAccepted(timelock, validated) && height <= validated
    ensures !PastRefundDeadline(Taproot, timelock, fundingHeight, height)
  {
  }

  /**
   A keepalive at a height where the swap is not past its deadline, not breached and its funding
   seen keeps it through every drain up to the idle timeout, as long as the tip is not past the
   deadline; any other keepalive of a stored swap changes nothing.
   */
  lemma KeepaliveKeepsAlive(swaps: Swaps, id: SwapId, sent: nat, height: nat, breached: bool, unseen: bool, now: nat, timeout: nat, tip: Option<nat>)
    requires id in swaps && sent <= now <= sent + timeout && !(tip.Some? && Past(swaps[id], tip.value))
    ensures var after := AfterKeepalive(swaps, id, sent, height, breached, unseen);
            var named := if swaps[id].negotiated.protocol == Legacy then exists coin :: coin in swaps[id].incoming && coin.contract.inputs != []
                         else swaps[id].claimedIncoming != [] || swaps[id].incoming != [];
            if breached || Past(swaps[id], height) || (unseen && named) then after == swaps
            else id in Drain(after, now, timeout, tip) && Drain(after, now, timeout, tip)[id] == swaps[id].(lastActivity := sent)
  {
  }

  /**
   What one drain takes: an entry whose proof of funding never came, with no coin and no transaction on
   either side, once it was idle too long, whatever it claimed or planned; and an entry with outgoing
   coins once it was idle too long or past its deadline. Everything else stays as it is.
   */
  lemma DrainExactly(swaps: Swaps, now: nat, timeout: nat, height: Option<nat>, id: SwapId)
    requires id in swaps
    ensures var (state, after) := (swaps[id], Drain(swaps, now, timeout, height));
            var dropped := && state.phase == AwaitingContractData && state.incoming == [] && state.outgoing == []
                           && state.pendingFunding == [] && state.fundingBroadcast == [] && state.lastActivity + timeout < now;
            var stale := state.outgoing != [] && (state.lastActivity + timeout < now || (height.Some? && Past(state, height.value)));
            && (id in DroppedIds(swaps, now, timeout) <==> dropped)
            && (id in StaleIds(swaps, now, timeout, height) <==> stale)
            && (id in after <==> !dropped && !stale) && (id in after ==> after[id] == state)
  {
    if id in Drain(swaps, now, timeout, height) {
      assert !DropsUnfunded(swaps[id], now, timeout) && !DrainsStale(swaps[id], now, timeout, height);
    }
  }

  /** After a drain at a readable height nothing live with outgoing coins is past its deadline. */
  lemma DrainLeavesNonePast(swaps: Swaps, now: nat, timeout: nat, height: nat, id: SwapId)
    requires id in Drain(swaps, now, timeout, Some(height))
    ensures swaps[id] == Drain(swaps, now, timeout, Some(height))[id]
    ensures swaps[id].outgoing != [] ==> !Past(swaps[id], height) && !Idle(swaps[id], now, timeout)
  {
  }

  /** Neither a keepalive nor any section that leaves this swap's coins and terms alone. */
  predicate LeavesTerms(section: Section, id: SwapId) {
    !(section.Storing? && section.id == id) && !(section.Confirming? && section.id == id)
  }

  /**
   A swap past its deadline is drained by the next drain at that height or later, whatever
   keepalives, claims, records or other swaps' stores run in between.
   */
  lemma {:induction false} NothingPostponesDrain(swaps: Swaps, sections: seq<(Section, nat)>, id: SwapId, height: nat,
                                                 now: nat, timeout: nat, tip: nat)
    requires id in swaps && swaps[id].outgoing != [] && Past(swaps[id], height) && height <= tip
    requires forall k :: 0 <= k < |sections| ==> LeavesTerms(sections[k].0, id)
    requires StaysLive(swaps, sections, id)
    ensures id in Run(swaps, sections) && Past(Run(swaps, sections)[id], tip)
    ensures id !in Apply(Run(swaps, sections), Draining(timeout, Some(tip)), now)
    decreases |sections|
  {
    assert sections[..|sections|] == sections;
    KeepsTerms(swaps, sections, id);
    var state := Run(swaps, sections)[id];
    PastMonotone(state.negotiated.protocol, state.negotiated.timelock, state.fundingHeight, height, tip);
  }

  lemma {:induction false} KeepsTerms(swaps: Swaps, sections: seq<(Section, nat)>, id: SwapId)
    requires id in swaps && StaysLive(swaps, sections, id)
    requires forall k :: 0 <= k < |sections| ==> LeavesTerms(sections[k].0, id)
    ensures id in Run(swaps, sections)
    ensures var state := Run(swaps, sections)[id];
            && state.negotiated == swaps[id].negotiated && state.outgoing == swaps[id].outgoing
            && state.fundingHeight == swaps[id].fundingHeight
    decreases |sections|
  {
    assert sections[..|sections|] == sections;
    if sections != [] {
      var earlier := sections[..|sections| - 1];
      forall k | 0 <= k <= |earlier|
        ensures id in Run(swaps, earlier[..k])
      {
        assert earlier[..k] == sections[..k];
      }
      KeepsTerms(swaps, earlier, id);
      assert LeavesTerms(sections[|sections| - 1].0, id);
    }
  }

  // ---------------------------------------------------------------- the stored map and its methods

  /** The part of a store that runs before the lock: a plan for a fresh admission, or a refusal. */
  function PlanBeforeStore(swaps: Swaps, id: SwapId, admission: bool, persistedOpen: bool,
                           plan: Result<seq<SplitPlan>>): Result<Option<seq<SplitPlan>>> {
    if !admission || id in swaps then Ok(None)
    else if persistedOpen then Err("Swap id belongs to an unfinished swap")
    else if AtCap(swaps) then Err("TooManySwaps")
    else match plan
      case Ok(splits) => Ok(Some(splits))
      case Err(reason) => Err(reason)
  }

  /** A whole store with nothing running in between, as one message performs it. */
  function StoreMessage(swaps: Swaps, id: SwapId, conn: Connection, admission: bool, persistedOpen: bool,
                        plan: Result<seq<SplitPlan>>, now: nat): (Swaps, bool) {
    match PlanBeforeStore(swaps, id, admission, persistedOpen, plan)
    case Err(_) => (swaps, false)
    case Ok(planned) =>
      (Store(swaps, id, conn, admission, planned, now), StoreOutcome(swaps, id, conn, admission, planned) in {Stored, Refreshed})
  }

  /**
   When an admission is accepted: again for a live swap with the same terms, where only its activity time
   changes; otherwise for an id without an unfinished swap on disk, below both caps, with a plan.
   */
  lemma AdmittedExactly(swaps: Swaps, id: SwapId, conn: Connection, persistedOpen: bool, plan: Result<seq<SplitPlan>>, now: nat)
    ensures var (after, accepted) := StoreMessage(swaps, id, conn, true, persistedOpen, plan, now);
            if id in swaps then
              && (accepted <==> swaps[id].negotiated == conn.terms)
              && after == if accepted then swaps[id := swaps[id].(lastActivity := now)] else swaps
            else
              && (accepted <==> && !persistedOpen && plan.Ok?
                                && |FundedIds(swaps)| < MAX_CONCURRENT_SWAPS && |UnfundedIds(swaps)| < MAX_UNFUNDED_ADMISSIONS)
              && (!accepted ==> after == swaps)
              && (accepted ==>
                    && after.Keys == swaps.Keys + {id} && after == swaps[id := after[id]]
                    && after[id].negotiated == conn.terms && after[id].fundingPlan == plan.value && after[id].serviceFee == conn.serviceFee
                    && after[id].startTime == conn.startTime && after[id].claimedIncoming == [] && after[id].claimedPlan == [])
  {
  }

  lemma CountOneMore<T>(part: set<T>, left: set<T>, x: T)
    requires x in left
    ensures |part - (left - {x})| == |part - left| + if x in part then 1 else 0
  {
    if x in part {
      assert part - (left - {x}) == (part - left) + {x};
    } else {
      assert part - (left - {x}) == part - left;
    }
  }

  lemma CountedOnce(swaps: Swaps, id: SwapId)
    requires id in swaps
    ensures id in FundedIds(swaps) <==> CountsFunded(swaps[id])
    ensures id in UnfundedIds(swaps) <==> CountsUnfunded(swaps[id])
  {
  }

  /** What the two counts count: live swaps not yet completed, apart from whether anything was funded. */
  lemma CountedExactly(swaps: Swaps, id: SwapId)
    requires id in swaps
    ensures var state := swaps[id];
            var unfunded := && state.phase == AwaitingContractData && state.incoming == [] && state.outgoing == []
                            && state.pendingFunding == [] && state.fundingBroadcast == [];
            && (id in UnfundedIds(swaps) <==> unfunded)
            && (id in FundedIds(swaps) <==> state.phase != Completed && !unfunded)
  {
  }

  lemma CountedAreLive(swaps: Swaps)
    ensures FundedIds(swaps) - swaps.Keys == {} && UnfundedIds(swaps) - swaps.Keys == {}
  {
  }

  /** Counts the live swaps one entry at a time. */
  method CountSwaps(swaps: Swaps) returns (funded: nat, unfunded: nat)
    ensures funded == |FundedIds(swaps)| && unfunded == |UnfundedIds(swaps)|
  {
    hide FundedIds, UnfundedIds, CountsFunded, CountsUnfunded;
    funded, unfunded := 0, 0;
    var left := swaps.Keys;
    ghost var fundedIds, unfundedIds := FundedIds(swaps), UnfundedIds(swaps);
    CountedAreLive(swaps);
    while left != {}
      invariant left <= swaps.Keys
      invariant funded == |fundedIds - left| && unfunded == |unfundedIds - left|
      decreases left
    {
      var id :| id in left;
      CountOneMore(fundedIds, left, id);
      CountOneMore(unfundedIds, left, id);
      CountedOnce(swaps, id);
      left := left - {id};
      if CountsUnfunded(swaps[id]) {
        unfunded := unfunded + 1;
      }
      if CountsFunded(swaps[id]) {
        funded := funded + 1;
      }
    }
    assert fundedIds - {} == fundedIds && unfundedIds - {} == unfundedIds;
  }

  /** The transactions among which a broadcast funding transaction is looked up. */
  function FundingTxes(state: SwapState): seq<Tx> {
    match state.negotiated.protocol
    case Legacy => state.pendingFunding
    case Taproot => seq(|state.outgoing|, i requires 0 <= i < |state.outgoing| => state.outgoing[i].contract)
  }

  /** The inputs of the first transaction with this id, none if it is not there. */
  function InputsOf(txes: seq<Tx>, txid: Txid): seq<OutPoint> {
    if txes == [] then [] else if txes[0].txid == txid then txes[0].inputs else InputsOf(txes[1..], txid)
  }

  /** What is looked up is the first transaction with this id. */
  lemma {:induction false} InputsOfFirst(txes: seq<Tx>, txid: Txid)
    ensures (exists k :: 0 <= k < |txes| && txes[k].txid == txid && (forall j :: 0 <= j < k ==> txes[j].txid != txid)
                         && InputsOf(txes, txid) == txes[k].inputs)
         || ((forall k :: 0 <= k < |txes| ==> txes[k].txid != txid) && InputsOf(txes, txid) == [])
    decreases |txes|
  {
    if txes == [] {
    } else if txes[0].txid == txid {
      assert 0 <= 0 < |txes| && txes[0].txid == txid;
    } else {
      InputsOfFirst(txes[1..], txid);
      if rest :| 0 <= rest < |txes[1..]| && txes[1..][rest].txid == txid
                 && (forall j :: 0 <= j < rest ==> txes[1..][j].txid != txid) && InputsOf(txes[1..], txid) == txes[1..][rest].inputs {
        forall j | 0 <= j < rest + 1
          ensures txes[j].txid != txid
        {
          assert j > 0 ==> txes[1..][j - 1] == txes[j];
        }
        assert txes[rest + 1] == txes[1..][rest];
      } else {
        forall k | 0 <= k < |txes|
          ensures txes[k].txid != txid
        {
          assert k > 0 ==> txes[1..][k - 1] == txes[k];
        }
      }
    }
  }

  /** `spent` is what the transaction `txid` of this swap spends: its first pending funding, or, for Taproot, its first contract. */
  ghost predicate SpentBy(state: SwapState, txid: Txid, spent: seq<OutPoint>) {
    if state.negotiated.protocol == Legacy then
      || (exists k :: 0 <= k < |state.pendingFunding| && state.pendingFunding[k].txid == txid && spent == state.pendingFunding[k].inputs
                      && forall j :: 0 <= j < k ==> state.pendingFunding[j].txid != txid)
      || (spent == [] && forall k :: 0 <= k < |state.pendingFunding| ==> state.pendingFunding[k].txid != txid)
    else
      || (exists k :: 0 <= k < |state.outgoing| && state.outgoing[k].contract.txid == txid && spent == state.outgoing[k].contract.inputs
                      && forall j :: 0 <= j < k ==> state.outgoing[j].contract.txid != txid)
      || (spent == [] && forall k :: 0 <= k < |state.outgoing| ==> state.outgoing[k].contract.txid != txid)
  }

  /** The inputs a record frees are those of the swap's own transaction with that id. */
  lemma SpentExactly(state: SwapState, txid: Txid)
    ensures SpentBy(state, txid, InputsOf(FundingTxes(state), txid))
  {
    hide InputsOf;
    var txes := FundingTxes(state);
    InputsOfFirst(txes, txid);
    if k :| 0 <= k < |txes| && txes[k].txid == txid && (forall j :: 0 <= j < k ==> txes[j].txid != txid)
            && InputsOf(txes, txid) == txes[k].inputs {
      assert state.negotiated.protocol == Taproot ==> forall j :: 0 <= j < k ==> state.outgoing[j].contract == txes[j];
    } else {
      assert state.negotiated.protocol == Taproot ==> forall j :: 0 <= j < |state.outgoing| ==> state.outgoing[j].contract == txes[j];
    }
  }

  class SwapRegistry {
    var swaps: Swaps

    constructor ()
      ensures swaps == map[]
    {
      swaps := map[];
    }

    method CountLive() returns (funded: nat, unfunded: nat)
      ensures funded == |FundedIds(swaps)| && unfunded == |UnfundedIds(swaps)|
    {
      funded, unfunded := CountSwaps(swaps);
    }

    method HoldsElsewhere(except: SwapId, txids: seq<Txid>) returns (held: bool)
      ensures held == LiveSwapHolds(swaps, except, txids)
      ensures held <==> exists id, txid :: id in swaps && id != except && txid in txids && Carries(swaps[id], txid)
    {
      HoldsExactly(swaps, except, txids);
      held := false;
      var left := swaps.Keys;
      while left != {} && !held
        invariant left <= swaps.Keys
        invariant held ==> LiveSwapHolds(swaps, except, txids)
        invariant !held ==> forall id :: id in swaps.Keys - left && id != except ==> Holds(swaps[id]) * (set txid | txid in txids) == {}
        decreases left
      {
        var id :| id in left;
        left := left - {id};
        held := id != except && Holds(swaps[id]) * (set txid | txid in txids) != {};
      }
    }

    /** `store_connection_state`: plan, re-check under the lock, refuse a stale connection, write. */
    method StoreConnectionState(id: SwapId, conn: Connection, admission: bool, persistedOpen: bool,
                                plan: Result<seq<SplitPlan>>, now: nat) returns (accepted: bool)
      modifies this
      ensures (swaps, accepted) == StoreMessage(old(swaps), id, conn, admission, persistedOpen, plan, now)
    {
      var planned: Option<seq<SplitPlan>> := None;
      if admission && id !in swaps {
        if persistedOpen {
          return false;
        }
        var funded, unfunded := CountLive();
        if funded >= MAX_CONCURRENT_SWAPS || unfunded >= MAX_UNFUNDED_ADMISSIONS {
          return false;
        }
        if plan.Err? {
          return false;
        }
        planned := Some(plan.value);
      }
      if admission && id in swaps {
        if swaps[id].negotiated != conn.terms {
          return false;
        }
        swaps := swaps[id := swaps[id].(lastActivity := now)];
        return true;
      }
      if planned.Some? {
        var funded, unfunded := CountLive();
        if funded >= MAX_CONCURRENT_SWAPS || unfunded >= MAX_UNFUNDED_ADMISSIONS {
          return false;
        }
      }
      var stale := if id in swaps then swaps[id].startTime != conn.startTime else conn.phase != Completed;
      if !admission && stale {
        return false;
      }
      var state := if id in swaps then swaps[id] else DEFAULT_STATE;
      swaps := swaps[id := Written(state, conn, planned, now)];
      accepted := true;
    }

    method ClaimIncomingContractTxids(id: SwapId, txids: seq<Txid>, now: nat) returns (accepted: bool)
      modifies this
      ensures accepted == ClaimAccepted(old(swaps), id, txids)
      ensures swaps == ClaimIncoming(old(swaps), id, txids, now)
      ensures accepted <==> && id in old(swaps) && (old(swaps)[id].claimedIncoming == [] || old(swaps)[id].claimedIncoming == txids)
                            && (forall other, txid :: other in old(swaps) && other != id && txid in txids ==> !Carries(old(swaps)[other], txid))
      ensures accepted ==> swaps == old(swaps)[id := old(swaps)[id].(claimedIncoming := txids, lastActivity := now)]
      ensures !accepted ==> swaps == old(swaps)
    {
      var elsewhere := HoldsElsewhere(id, txids);
      if elsewhere || id !in swaps {
        return false;
      }
      if swaps[id].claimedIncoming != [] && swaps[id].claimedIncoming != txids {
        return false;
      }
      swaps := swaps[id := swaps[id].(claimedIncoming := txids, lastActivity := now)];
      accepted := true;
    }

    method DropIdleUnfunded(now: nat, timeout: nat) returns (dropped: set<SwapId>)
      modifies this
      ensures dropped == DroppedIds(old(swaps), now, timeout)
      ensures swaps == old(swaps) - dropped
    {
      ghost var before := swaps;
      dropped := {};
      var left := swaps.Keys;
      while left != {}
        invariant left <= swaps.Keys && swaps == before - dropped
        invariant dropped == DroppedIds(before, now, timeout) - left
        decreases left
      {
        var id :| id in left;
        left := left - {id};
        if DropsUnfunded(swaps[id], now, timeout) {
          dropped := dropped + {id};
          swaps := swaps - {id};
        }
      }
    }

    method DrainStaleFunded(now: nat, timeout: nat, height: Option<nat>) returns (idle: Swaps)
      modifies this
      ensures idle.Keys == StaleIds(old(swaps), now, timeout, height)
      ensures forall id :: id in idle ==> idle[id] == old(swaps)[id]
      ensures swaps == old(swaps) - idle.Keys
    {
      ghost var before := swaps;
      idle := map[];
      var left := swaps.Keys;
      while left != {}
        invariant left <= swaps.Keys && swaps == before - idle.Keys
        invariant idle.Keys == StaleIds(before, now, timeout, height) - left
        invariant forall id :: id in idle ==> idle[id] == before[id]
        decreases left
      {
        var id :| id in left;
        left := left - {id};
        if DrainsStale(swaps[id], now, timeout, height) {
          idle := idle[id := swaps[id]];
          swaps := swaps - {id};
        }
      }
    }

    /** `drain_idle_swaps`: drop the idle unfunded entries, then hand over the stale ones with coins. */
    method DrainIdleSwaps(now: nat, timeout: nat, height: Option<nat>) returns (dropped: set<SwapId>, idle: Swaps)
      modifies this
      ensures swaps == Drain(old(swaps), now, timeout, height)
      ensures dropped == DroppedIds(old(swaps), now, timeout)
      ensures idle.Keys == StaleIds(old(swaps), now, timeout, height)
      ensures forall id :: id in idle ==> idle[id] == old(swaps)[id]
    {
      dropped := DropIdleUnfunded(now, timeout);
      assert StaleIds(swaps, now, timeout, height) == StaleIds(old(swaps), now, timeout, height);
      idle := DrainStaleFunded(now, timeout, height);
    }

    method SetHeight(id: SwapId, height: nat)
      modifies this
      ensures swaps == SetFundingHeight(old(swaps), id, height)
    {
      if id in swaps {
        swaps := swaps[id := swaps[id].(fundingHeight := Some(height))];
      }
    }

    method RemoveSwapState(id: SwapId)
      modifies this
      ensures swaps == old(swaps) - {id}
    {
      swaps := swaps - {id};
    }

    method SetClaimed(id: SwapId, plan: seq<SplitPlan>)
      modifies this
      ensures swaps == SetClaimedPlan(old(swaps), id, plan)
    {
      if id in swaps {
        swaps := swaps[id := swaps[id].(claimedPlan := plan)];
      }
    }

    /** Records one accepted send and returns the inputs whose reservation ends with it. */
    method RecordFundingBroadcast(id: SwapId, txid: Txid, now: nat) returns (spent: Option<seq<OutPoint>>)
      modifies this
      ensures swaps == RecordBroadcast(old(swaps), id, txid, now)
      ensures spent == if id in old(swaps) then Some(InputsOf(FundingTxes(old(swaps)[id]), txid)) else None
      ensures id in old(swaps) ==> SpentBy(old(swaps)[id], txid, spent.value)
    {
      if id !in swaps {
        return None;
      }
      var state := swaps[id];
      if txid !in state.fundingBroadcast {
        state := state.(fundingBroadcast := state.fundingBroadcast + [txid]);
      }
      swaps := swaps[id := state.(lastActivity := now)];
      var txes := FundingTxes(state);
      assert txes == FundingTxes(old(swaps)[id]);
      var i := 0;
      while i < |txes| && txes[i].txid != txid
        invariant 0 <= i <= |txes|
        invariant InputsOf(txes, txid) == InputsOf(txes[i..], txid)
      {
        i := i + 1;
      }
      spent := Some(if i < |txes| then txes[i].inputs else []);
      SpentExactly(old(swaps)[id], txid);
    }
  }
}
