/**
 Connections over the stored swaps, one locked section at a time (`src/maker/handlers.rs`,
 `src/maker/legacy_handlers.rs`, `src/maker/taproot_handlers.rs`, the completion path of
 `src/maker/server.rs`).

 Any number of connections open, resend, reconnect and re-use swap ids, and the sections of
 their handlers interleave in any order; a handler may fail before any of them, which closes its
 connection. The system keeps a record of what each admission fixed; the model proves that what
 is stored, and what a connection carries for a swap, is what the admission it belongs to fixed.
 */
module Connections {
  import opened Common
  import opened MakerState
  import opened Registry

  type ConnId = nat

  /** What an admission fixes for good. */
  datatype Admission = Admission(id: SwapId, terms: Terms, fee: nat, plan: seq<SplitPlan>)

  /** Where the handler of a connection is. */
  datatype Job =
    | Listening
    | Admitting(id: SwapId, terms: Terms, planned: Option<seq<SplitPlan>>)   // planned, before the lock
    | ReadingBack                                                            // admitted, before it reads the stored plan
    | Signing                                                                // signed for the sender, before the store
    | Claiming                                                               // built its incoming coins, before it claims them
    | Waiting                                                                // waits for confirmations
    | Building                                                               // before it claims coins for the plan
    | Built                                                                  // before the store, or a failed build
    | Checking                                                               // got signatures, before the store
    | Verifying
    | Sending
    | Completing                                                             // handed its keys over, before the removal
    | Settling
    | Refreshing(of: SwapId)                                                 // a keepalive that counts

  datatype Session = Session(conn: Connection, job: Job)

  /** `admitted` is the history of admissions by start time; the code keeps no such table. */
  datatype System = System(swaps: Swaps, sessions: map<ConnId, Session>, clock: nat, admitted: map<nat, Admission>)

  const EMPTY := System(map[], map[], 0, map[])

  const FRESH := Connection(AwaitingHello, None, ZERO_TERMS, [], [], [], [], 0, [], 0)

  datatype Request =
    | Hello
    | GetOffer
      // `valid` is the answer of the parameter checks; `persistedOpen` and `plan` are the wallet's answers.
    | SwapDetails(id: SwapId, terms: Terms, valid: bool, persistedOpen: bool, plan: Result<seq<SplitPlan>>)
    | SenderSigs(id: SwapId)
      // A Legacy proof of funding or Taproot contract data, with the incoming coins it names.
    | ContractData(id: SwapId, protocol: Protocol, coins: seq<SwapCoin>)
    | ContractSigs(id: SwapId)
    | ReceiverSigs(id: SwapId)
    | Handover(id: SwapId, protocol: Protocol)
      // `height` is the backend's answer, none when it has none; `breached` and `unseen` are the watchtower's and the backend's.
    | Keepalive(id: SwapId, height: Option<nat>, breached: bool, unseen: bool)

  /** The next section of a handler; the arguments are what the wallet and the chain answer. */
  datatype Step =
    | Lock
    | ReadBack
    | StoreNow
    | Claim
    | Poll
    | Confirm(height: Option<nat>)
    | Plan(plan: Option<seq<SplitPlan>>)           // none when an earlier claim is used again
    | Unplan                                       // a build failed
    | StoreBuilt(outgoing: seq<SwapCoin>, pending: seq<Tx>)
    | Verify(ok: bool)
    | Record(txid: Txid)
    | Finish
    | RemoveEntry
    | PutBack                                      // settling failed
    | Settle
    | TouchEntry

  datatype Event =
    | Connected(c: ConnId)
    | Disconnected(c: ConnId)                      // also a handler that fails
    | Received(c: ConnId, request: Request)
    | Stepped(c: ConnId, step: Step)
    | Drained(timeout: nat, tip: Option<nat>)

  /** The maker's service fee: a function of the negotiated terms for a fixed configuration. */
  type FeeSchedule = Terms -> nat

  function Close(sys: System, c: ConnId): System {
    sys.(sessions := sys.sessions - {c})
  }

  function Continue(sys: System, c: ConnId, conn: Connection, job: Job): System {
    sys.(sessions := sys.sessions[c := Session(conn, job)])
  }

  // ---------------------------------------------------------------- restoring and dispatching

  /** The connection an entry is restored to. */
  function FromEntry(id: SwapId, e: SwapState): Connection {
    Connection(e.phase, Some(id), e.negotiated, e.incoming, e.outgoing, e.pendingFunding, e.fundingBroadcast, e.serviceFee, e.fundingPlan, e.startTime)
  }

  /** `restore_state_if_needed`: a connection without coins takes the stored state over, unless it holds an older admission. */
  function Restore(conn: Connection, id: SwapId, swaps: Swaps): Result<Connection> {
    if conn.terms.swapAmount != 0 && conn.outgoing != [] then Ok(conn)
    else if id !in swaps then Ok(conn)
    else if conn.swapId == Some(id) && conn.startTime != swaps[id].startTime then
      Err("Swap plan expired; the taker must send new SwapDetails")
    else Ok(FromEntry(id, swaps[id]))
  }

  /** The phases in which protocol messages are handled. */
  predicate Working(phase: Phase) {
    phase in {AwaitingContractData, AwaitingSignaturesOrPreimage, AwaitingPrivateKeyHandover}
  }

  /** Dispatch: restore, then the protocol, phase and swap-id checks every handler starts with. */
  function Dispatch(conn: Connection, swaps: Swaps, id: SwapId, protocol: Protocol, phases: set<Phase>): Result<Connection> {
    match Restore(conn, id, swaps)
    case Err(reason) => Err(reason)
    case Ok(restored) =>
      if restored.terms.protocol != protocol then Err("Protocol mismatch")
      else if restored.phase !in phases then Err("Unexpected phase")
      else if restored.swapId.Some? && restored.swapId != Some(id) then Err("Swap ID mismatch")
      else Ok(restored)
  }

  /** The protocol, and the phases, a message is handled in. */
  function PhasesFor(req: Request): (Protocol, set<Phase>) {
    match req
    case SenderSigs(_) => (Legacy, {AwaitingContractData, AwaitingSignaturesOrPreimage})
    case ContractData(_, Legacy, _) => (Legacy, {AwaitingContractData, AwaitingSignaturesOrPreimage})
    case ContractData(_, Taproot, _) => (Taproot, {AwaitingContractData})
    case ContractSigs(_) => (Legacy, {AwaitingSignaturesOrPreimage})
    case ReceiverSigs(_) => (Legacy, {AwaitingPrivateKeyHandover})
    case Handover(_, protocol) => (protocol, {AwaitingPrivateKeyHandover})
    case _ => (Legacy, {})
  }

  predicate IsWork(req: Request) {
    req.SenderSigs? || req.ContractData? || req.ContractSigs? || req.ReceiverSigs? || req.Handover?
  }

  function Dispatched(conn: Connection, swaps: Swaps, req: Request): Result<Connection>
    requires IsWork(req)
  {
    Dispatch(conn, swaps, req.id, PhasesFor(req).0, PhasesFor(req).1)
  }

  // ---------------------------------------------------------------- a message arrives

  /** What a dispatched message makes of its connection before the first section. */
  function Start(sys: System, c: ConnId, conn: Connection, req: Request): System
    requires IsWork(req)
  {
    match req
    case SenderSigs(_) => Continue(sys, c, conn, Signing)
    case ContractData(_, _, coins) => Continue(sys, c, conn.(incoming := coins), Job.Claiming)
    case ContractSigs(_) => Continue(sys, c, conn, Checking)
    case Handover(_, _) => if conn.outgoing == [] then Close(sys, c) else Continue(sys, c, conn.(phase := Completed), Completing)
    case _ => Continue(sys, c, conn, Listening)
  }

  function Receive(sys: System, c: ConnId, req: Request): System
    requires c in sys.sessions
  {
    var conn := sys.sessions[c].conn;
    match req
    case Hello =>
      if conn.phase != AwaitingHello then Close(sys, c) else Continue(sys, c, conn.(phase := AwaitingOfferRequest), Listening)
    case GetOffer =>
      if conn.phase != AwaitingOfferRequest then Close(sys, c) else Continue(sys, c, conn.(phase := AwaitingSwapDetails), Listening)
    case SwapDetails(id, terms, valid, persistedOpen, plan) =>
      if conn.phase != AwaitingSwapDetails then Close(sys, c)
      else if !valid then sys
      else
        (match PlanBeforeStore(sys.swaps, id, true, persistedOpen, plan)
         case Err(_) => Continue(sys.(clock := sys.clock + 1), c, Unbound(conn, terms.protocol, sys.clock), Listening)
         case Ok(planned) => Continue(sys, c, conn, Job.Admitting(id, terms, planned)))
    case Keepalive(id, height, breached, unseen) =>
      if (conn.swapId.Some? && conn.swapId != Some(id)) || height.None? then Close(sys, c)
      else if KeepaliveCounts(sys.swaps, id, height.value, breached, unseen) then Continue(sys, c, conn, Refreshing(id))
      else sys
    case _ =>
      (match Dispatched(conn, sys.swaps, req)
       case Err(_) => Close(sys, c)
       case Ok(restored) => Start(sys, c, restored, req))
  }

  /** A refused admission leaves no swap on the connection. */
  function Unbound(conn: Connection, protocol: Protocol, now: nat): Connection {
    conn.(swapId := None, terms := ZERO_TERMS.(protocol := protocol), startTime := now, serviceFee := 0, fundingPlan := [])
  }

  // ---------------------------------------------------------------- the sections

  /** The connection with the asked terms on it, under a start time of its own. */
  function Asked(conn: Connection, id: SwapId, terms: Terms, fee: nat, now: nat): Connection {
    conn.(swapId := Some(id), terms := terms, startTime := now, serviceFee := fee, phase := AwaitingContractData)
  }

  /** The locked section of an admission. */
  function LockedAdmission(sys: System, fees: FeeSchedule, c: ConnId): System
    requires c in sys.sessions && sys.sessions[c].job.Admitting?
  {
    var Session(conn, Admitting(id, terms, planned)) := sys.sessions[c];
    var asked := Asked(conn, id, terms, fees(terms), sys.clock);
    var later := sys.(clock := sys.clock + 1);
    match StoreOutcome(sys.swaps, id, asked, true, planned)
    case Stored =>
      Continue(later.(swaps := Store(sys.swaps, id, asked, true, planned, sys.clock),
                      admitted := sys.admitted[sys.clock := Admission(id, terms, fees(terms), Store(sys.swaps, id, asked, true, planned, sys.clock)[id].fundingPlan)]),
               c, asked, ReadingBack)
    case Refreshed => Continue(later.(swaps := Store(sys.swaps, id, asked, true, planned, sys.clock)), c, asked, ReadingBack)
    case _ => Continue(later, c, Unbound(conn, terms.protocol, sys.clock), Listening)
  }

  /** A store of the connection under its id; a refusal closes it. */
  function StoreConn(sys: System, c: ConnId, id: SwapId, conn: Connection, job: Job): System {
    if StoreOutcome(sys.swaps, id, conn, false, None) == Stored then
      Continue(sys.(swaps := Store(sys.swaps, id, conn, false, None, sys.clock)), c, conn, job)
    else Close(sys, c)
  }

  function TxidsOf(coins: seq<SwapCoin>): (txids: seq<Txid>)
    ensures |txids| == |coins| && forall i :: 0 <= i < |coins| ==> txids[i] == coins[i].contract.txid
  {
    seq(|coins|, i requires 0 <= i < |coins| => coins[i].contract.txid)
  }

  /** What is stored when the outgoing coins are built; Taproot prices its fee anew. */
  function WithCoins(conn: Connection, fees: FeeSchedule, outgoing: seq<SwapCoin>, pending: seq<Tx>): Connection {
    match conn.terms.protocol
    case Legacy => conn.(outgoing := outgoing, pendingFunding := pending, phase := AwaitingSignaturesOrPreimage)
    case Taproot => conn.(outgoing := outgoing, serviceFee := fees(conn.terms))
  }

  function Finished(conn: Connection): Connection {
    conn.(phase := AwaitingPrivateKeyHandover, pendingFunding := if conn.terms.protocol.Legacy? then [] else conn.pendingFunding)
  }

  function Recorded(conn: Connection, txid: Txid): Connection {
    conn.(fundingBroadcast := Listed(conn.fundingBroadcast, txid))
  }

  /** A section that needs the entry, and writes it by id whatever admission it belongs to. */
  function ById(sys: System, c: ConnId, id: SwapId, swaps: Swaps, conn: Connection, job: Job): System {
    if id in sys.swaps then Continue(sys.(swaps := swaps), c, conn, job) else Close(sys, c)
  }

  /** The next section of the handler of `c`; one that does not come next changes nothing. */
  function StepFor(sys: System, fees: FeeSchedule, c: ConnId, step: Step): System
    requires c in sys.sessions
  {
    var Session(conn, job) := sys.sessions[c];
    if job.Admitting? && step.Lock? then LockedAdmission(sys, fees, c)
    else if job.Refreshing? && step.TouchEntry? then
      Continue(sys.(swaps := Touch(sys.swaps, job.of, sys.clock)), c, conn, Listening)
    else if conn.swapId.None? then sys
    else SectionFor(sys, fees, c, conn.swapId.value, step)
  }

  function SectionFor(sys: System, fees: FeeSchedule, c: ConnId, id: SwapId, step: Step): System
    requires c in sys.sessions
  {
    var Session(conn, job) := sys.sessions[c];
    match (job, step)
    case (ReadingBack, ReadBack) =>
      if id !in sys.swaps then Close(sys, c)
      else Continue(sys, c, conn.(fundingPlan := sys.swaps[id].fundingPlan, startTime := sys.swaps[id].startTime), Listening)
    case (Signing, StoreNow) => StoreConn(sys, c, id, conn, Listening)
    case (Claiming, Claim) =>
      if ClaimAccepted(sys.swaps, id, TxidsOf(conn.incoming)) then
        Continue(sys.(swaps := ClaimIncoming(sys.swaps, id, TxidsOf(conn.incoming), sys.clock)), c, conn, Waiting)
      else Close(sys, c)
    case (Waiting, Poll) => ById(sys, c, id, Touch(sys.swaps, id, sys.clock), conn, Waiting)
    case (Waiting, Confirm(height)) =>
      Continue(sys.(swaps := if height.Some? then SetFundingHeight(sys.swaps, id, height.value) else sys.swaps), c, conn, Building)
    case (Building, Plan(plan)) =>
      ById(sys, c, id, if plan.Some? then SetClaimedPlan(sys.swaps, id, plan.value) else sys.swaps, conn, Built)
    case (Built, Unplan) => Close(sys.(swaps := SetClaimedPlan(sys.swaps, id, [])), c)
    case (Built, StoreBuilt(outgoing, pending)) =>
      StoreConn(sys, c, id, WithCoins(conn, fees, outgoing, pending), if conn.terms.protocol.Legacy? then Listening else Sending)
    case (Checking, StoreNow) => StoreConn(sys, c, id, conn, Verifying)
    case (Verifying, Verify(ok)) => if ok then Continue(sys, c, conn, Sending) else Close(sys.(swaps := sys.swaps - {id}), c)
    case (Sending, Record(txid)) => ById(sys, c, id, RecordBroadcast(sys.swaps, id, txid, sys.clock), Recorded(conn, txid), Sending)
    case (Sending, Finish) => StoreConn(sys, c, id, Finished(conn), Listening)
    case (Completing, RemoveEntry) => Continue(sys.(swaps := sys.swaps - {id}), c, conn, Settling)
    case (Settling, PutBack) => Close(sys.(swaps := Store(sys.swaps, id, conn, false, None, sys.clock)), c)
    case (Settling, Settle) => Close(sys, c)
    case _ => sys
  }

  function Handle(sys: System, fees: FeeSchedule, event: Event): System {
    match event
    case Connected(c) => if c in sys.sessions then sys else Continue(sys, c, FRESH, Listening)
    case Disconnected(c) => Close(sys, c)
    case Received(c, req) => if c in sys.sessions && sys.sessions[c].job.Listening? then Receive(sys, c, req) else sys
    case Stepped(c, step) => if c in sys.sessions then StepFor(sys, fees, c, step) else sys
    case Drained(timeout, tip) => sys.(swaps := Drain(sys.swaps, sys.clock, timeout, tip), clock := sys.clock + 1)
  }

  function HandleAll(sys: System, fees: FeeSchedule, events: seq<Event>): System
    decreases |events|
  {
    if events == [] then sys else Handle(HandleAll(sys, fees, events[..|events| - 1]), fees, events[|events| - 1])
  }

  // ---------------------------------------------------------------- what stores do

  /** A reconnect gets back exactly what was stored: an accepted store followed by a restore is the connection itself. */
  lemma RestoreAfterStore(swaps: Swaps, id: SwapId, conn: Connection, now: nat)
    requires StoreOutcome(swaps, id, conn, false, None) == Stored
    ensures Restore(FRESH, id, Store(swaps, id, conn, false, None, now)) == Ok(conn.(swapId := Some(id)))
  {
  }

  /** After a new admission a reconnect gets the asked terms, with the plan frozen for them. */
  lemma RestoreAfterAdmission(swaps: Swaps, id: SwapId, conn: Connection, plan: seq<SplitPlan>, now: nat)
    requires StoreOutcome(swaps, id, conn, true, Some(plan)) == Stored
    ensures Restore(FRESH, id, Store(swaps, id, conn, true, Some(plan), now)) == Ok(conn.(swapId := Some(id), fundingPlan := plan))
  {
  }

  /** What an admission fixes is equal, and so is the admission. */
  predicate SameAdmission(a: SwapState, b: SwapState) {
    a.startTime == b.startTime && a.negotiated == b.negotiated && a.serviceFee == b.serviceFee && a.fundingPlan == b.fundingPlan
  }

  /** An admission section either changes nothing, refreshes the live admission it repeats, or makes a new one. */
  lemma AdmissionEffect(swaps: Swaps, id: SwapId, conn: Connection, planned: Option<seq<SplitPlan>>, now: nat)
    ensures var (after, outcome) := (Store(swaps, id, conn, true, planned, now), StoreOutcome(swaps, id, conn, true, planned));
            && (!outcome.Stored? && !outcome.Refreshed? ==> after == swaps)
            && (outcome.Stored? || outcome.Refreshed? ==> id in after && after[id].negotiated == conn.terms && after == swaps[id := after[id]])
            && (outcome.Refreshed? ==> id in swaps && SameAdmission(swaps[id], after[id]) && after[id].claimedIncoming == swaps[id].claimedIncoming)
            && (outcome.Stored? ==> id !in swaps && after[id].startTime == conn.startTime && after[id].serviceFee == conn.serviceFee)
  {
  }

  /** Any other store changes nothing, or writes the connection's state over its own admission; it never admits a live phase. */
  lemma StoreEffect(swaps: Swaps, id: SwapId, conn: Connection, now: nat)
    ensures var (after, outcome) := (Store(swaps, id, conn, false, None, now), StoreOutcome(swaps, id, conn, false, None));
            && (!outcome.Stored? ==> after == swaps)
            && (outcome.Stored? ==> id in after && after == swaps[id := after[id]]
                                    && after[id].startTime == conn.startTime && after[id].negotiated == conn.terms
                                    && after[id].serviceFee == conn.serviceFee && after[id].fundingPlan == conn.fundingPlan)
            && (outcome.Stored? && id in swaps ==>
                  && after[id].claimedIncoming == swaps[id].claimedIncoming && after[id].claimedPlan == swaps[id].claimedPlan
                  && after[id].fundingHeight == swaps[id].fundingHeight)
            && (outcome.Stored? <==> (id in swaps && swaps[id].startTime == conn.startTime) || (id !in swaps && conn.phase == Completed))
  {
  }

  // ---------------------------------------------------------------- agreement with the admission

  predicate StoredAgrees(sys: System, id: SwapId) {
    id in sys.swaps ==>
      var s := sys.swaps[id];
      s.startTime in sys.admitted && sys.admitted[s.startTime] == Admission(id, s.negotiated, s.serviceFee, s.fundingPlan)
  }

  /** The phase and the swap id fit what the handler is doing. */
  predicate InStep(s: Session) {
    match s.job
    case Listening => Working(s.conn.phase) <==> s.conn.swapId.Some?
    case Refreshing(of) => (Working(s.conn.phase) <==> s.conn.swapId.Some?) && (s.conn.swapId.Some? ==> s.conn.swapId == Some(of))
    case Admitting(_, _, _) => s.conn.phase == AwaitingSwapDetails && s.conn.swapId.None?
    case Completing => s.conn.phase == Completed && s.conn.swapId.Some?
    case Settling => s.conn.phase == Completed && s.conn.swapId.Some?
    case _ => Working(s.conn.phase) && s.conn.swapId.Some?
  }

  /** The connection carries what its admission fixed; while it reads its plan back, only the fee is its own. */
  predicate CarriesAdmission(admitted: map<nat, Admission>, fees: FeeSchedule, s: Session) {
    s.conn.swapId.Some? ==>
      if s.job.ReadingBack? then s.conn.serviceFee == fees(s.conn.terms)
      else s.conn.startTime in admitted
           && admitted[s.conn.startTime] == Admission(s.conn.swapId.value, s.conn.terms, s.conn.serviceFee, s.conn.fundingPlan)
  }

  predicate SessionAgrees(sys: System, fees: FeeSchedule, c: ConnId) {
    c in sys.sessions ==> InStep(sys.sessions[c]) && CarriesAdmission(sys.admitted, fees, sys.sessions[c])
  }

  predicate FeesAgree(sys: System, fees: FeeSchedule) {
    forall t :: t in sys.admitted ==> t < sys.clock && sys.admitted[t].fee == fees(sys.admitted[t].terms)
  }

  ghost predicate Agreement(sys: System, fees: FeeSchedule) {
    && (forall id :: StoredAgrees(sys, id))
    && (forall c :: SessionAgrees(sys, fees, c))
    && FeesAgree(sys, fees)
  }

  /** Admissions are only ever added. */
  predicate Extends(sys: System, later: System) {
    sys.clock <= later.clock && forall t :: t in sys.admitted ==> t in later.admitted && later.admitted[t] == sys.admitted[t]
  }

  /** The read-back of an admission finds an entry with other terms than the ones it asked for. */
  predicate Misreads(sys: System, event: Event) {
    event.Stepped? && event.step.ReadBack? && event.c in sys.sessions && sys.sessions[event.c].job.ReadingBack?
    && var conn := sys.sessions[event.c].conn;
       conn.swapId.Some? && conn.swapId.value in sys.swaps && sys.swaps[conn.swapId.value].negotiated != conn.terms
  }

  /** Agreement carries over to everything a step leaves alone. */
  lemma Carried(sys: System, later: System, fees: FeeSchedule, c: ConnId)
    requires Agreement(sys, fees) && Extends(sys, later) && FeesAgree(later, fees)
    requires forall d :: d in later.sessions && d != c ==> d in sys.sessions && later.sessions[d] == sys.sessions[d]
    ensures forall d :: d != c ==> SessionAgrees(later, fees, d)
    ensures forall id :: id in later.swaps && id in sys.swaps && SameAdmission(sys.swaps[id], later.swaps[id]) ==> StoredAgrees(later, id)
  {
    forall d | d != c
      ensures SessionAgrees(later, fees, d)
    {
      assert SessionAgrees(sys, fees, d);
    }
    forall id | id in later.swaps && id in sys.swaps && SameAdmission(sys.swaps[id], later.swaps[id])
      ensures StoredAgrees(later, id)
    {
      assert StoredAgrees(sys, id);
    }
  }

  /** Every entry that is left keeps its admission. */
  predicate KeepsEntries(swaps: Swaps, later: Swaps) {
    forall id :: id in later ==> id in swaps && SameAdmission(swaps[id], later[id])
  }

  /** A step that keeps entries' admissions, and leaves its own connection in step with the same admission, keeps agreement. */
  lemma KeptAgrees(sys: System, later: System, fees: FeeSchedule, c: ConnId)
    requires Agreement(sys, fees) && KeepsEntries(sys.swaps, later.swaps) && later.admitted == sys.admitted && sys.clock <= later.clock
    requires forall d :: d in later.sessions && d != c ==> d in sys.sessions && later.sessions[d] == sys.sessions[d]
    requires c in later.sessions ==> InStep(later.sessions[c]) && CarriesAdmission(sys.admitted, fees, later.sessions[c])
    ensures Agreement(later, fees) && Extends(sys, later)
  {
    Carried(sys, later, fees, c);
  }

  lemma SameKept(swaps: Swaps, id: SwapId)
    ensures KeepsEntries(swaps, swaps) && KeepsEntries(swaps, swaps - {id})
  {
  }

  lemma OneKept(swaps: Swaps, id: SwapId, state: SwapState)
    requires id in swaps && SameAdmission(swaps[id], state)
    ensures KeepsEntries(swaps, swaps[id := state])
  {
  }

  /** The connection a handler works on belongs to a recorded admission. */
  lemma DispatchAgrees(sys: System, fees: FeeSchedule, c: ConnId, req: Request)
    requires Agreement(sys, fees) && c in sys.sessions && sys.sessions[c].job.Listening? && IsWork(req)
    requires Dispatched(sys.sessions[c].conn, sys.swaps, req).Ok?
    ensures var conn := Dispatched(sys.sessions[c].conn, sys.swaps, req).value;
            && conn.swapId == Some(req.id) && Working(conn.phase) && conn.phase in PhasesFor(req).1
            && conn.startTime in sys.admitted
            && sys.admitted[conn.startTime] == Admission(req.id, conn.terms, conn.serviceFee, conn.fundingPlan)
  {
    assert SessionAgrees(sys, fees, c) && StoredAgrees(sys, req.id);
  }

  lemma AgreesAt(sys: System, fees: FeeSchedule, c: ConnId)
    requires Agreement(sys, fees)
    ensures SessionAgrees(sys, fees, c)
  {
  }

  lemma WorkAgrees(sys: System, fees: FeeSchedule, c: ConnId, req: Request)
    requires Agreement(sys, fees) && c in sys.sessions && sys.sessions[c].job.Listening? && IsWork(req)
    ensures Agreement(Receive(sys, c, req), fees) && Extends(sys, Receive(sys, c, req))
  {
    hide Agreement, Dispatched, KeepsEntries;
    if Dispatched(sys.sessions[c].conn, sys.swaps, req).Ok? {
      DispatchAgrees(sys, fees, c, req);
    }
    SameKept(sys.swaps, req.id);
    KeptAgrees(sys, Receive(sys, c, req), fees, c);
  }

  lemma ReceiveAgrees(sys: System, fees: FeeSchedule, c: ConnId, req: Request)
    requires Agreement(sys, fees) && c in sys.sessions && sys.sessions[c].job.Listening?
    ensures Agreement(Receive(sys, c, req), fees) && Extends(sys, Receive(sys, c, req))
  {
    hide Agreement, Dispatched, KeepaliveCounts, PlanBeforeStore, Start, KeepsEntries;
    if IsWork(req) {
      WorkAgrees(sys, fees, c, req);
    } else {
      AgreesAt(sys, fees, c);
      SameKept(sys.swaps, "");
      KeptAgrees(sys, Receive(sys, c, req), fees, c);
    }
  }

  /** An admission section records the new admission, or refreshes the live one it repeats. */
  lemma LockAgrees(sys: System, fees: FeeSchedule, c: ConnId)
    requires Agreement(sys, fees) && c in sys.sessions && sys.sessions[c].job.Admitting?
    ensures Agreement(LockedAdmission(sys, fees, c), fees) && Extends(sys, LockedAdmission(sys, fees, c))
  {
    hide Store, StoreOutcome;
    var Session(conn, Admitting(id, terms, planned)) := sys.sessions[c];
    var asked := Asked(conn, id, terms, fees(terms), sys.clock);
    var later := LockedAdmission(sys, fees, c);
    AgreesAt(sys, fees, c);
    AdmissionEffect(sys.swaps, id, asked, planned, sys.clock);
    Carried(sys, later, fees, c);
    forall i | i in later.swaps
      ensures StoredAgrees(later, i)
    {
      assert i != id ==> i in sys.swaps && later.swaps[i] == sys.swaps[i];
    }
  }

  /** A store keeps every entry's admission, or puts an entry back under the connection's own. */
  lemma StoreAgrees(sys: System, fees: FeeSchedule, c: ConnId, id: SwapId, conn: Connection, now: nat)
    requires Agreement(sys, fees)
    requires conn.startTime in sys.admitted && sys.admitted[conn.startTime] == Admission(id, conn.terms, conn.serviceFee, conn.fundingPlan)
    ensures var swaps := Store(sys.swaps, id, conn, false, None, now);
            && (forall i :: i in swaps && i != id ==> i in sys.swaps && swaps[i] == sys.swaps[i])
            && (forall i :: StoredAgrees(sys.(swaps := swaps), i))
            && (conn.phase != Completed ==> KeepsEntries(sys.swaps, swaps))
  {
    hide Store;
    StoreEffect(sys.swaps, id, conn, now);
    var later := sys.(swaps := Store(sys.swaps, id, conn, false, None, now));
    assert StoredAgrees(sys, id);
    forall i
      ensures StoredAgrees(later, i)
    {
      assert StoredAgrees(sys, i);
    }
  }

  predicate Stores(job: Job, step: Step) {
    (job.Signing? && step.StoreNow?) || (job.Checking? && step.StoreNow?) || (job.Built? && step.StoreBuilt?) || (job.Sending? && step.Finish?)
  }

  /** The connection that such a section stores. */
  function ToStore(conn: Connection, job: Job, fees: FeeSchedule, step: Step): Connection
    requires Stores(job, step)
  {
    if job.Built? then WithCoins(conn, fees, step.outgoing, step.pending) else if job.Sending? then Finished(conn) else conn
  }

  /** What the handler does next once its store is accepted. */
  function AfterStore(conn: Connection, job: Job): Job {
    match job
    case Checking => Verifying
    case Built => if conn.terms.protocol.Legacy? then Listening else Sending
    case _ => Listening
  }

  lemma StoreSectionIs(sys: System, fees: FeeSchedule, c: ConnId, step: Step)
    requires c in sys.sessions && sys.sessions[c].conn.swapId.Some? && Stores(sys.sessions[c].job, step)
    ensures var Session(conn, job) := sys.sessions[c];
            StepFor(sys, fees, c, step) == StoreConn(sys, c, conn.swapId.value, ToStore(conn, job, fees, step), AfterStore(conn, job))
  {
  }

  lemma StoringAgrees(sys: System, fees: FeeSchedule, c: ConnId, step: Step)
    requires Agreement(sys, fees) && c in sys.sessions && sys.sessions[c].conn.swapId.Some? && Stores(sys.sessions[c].job, step)
    ensures var later := StepFor(sys, fees, c, step); Agreement(later, fees) && Extends(sys, later)
  {
    hide Agreement, Store, StoreOutcome, KeepsEntries;
    var Session(conn, job) := sys.sessions[c];
    AgreesAt(sys, fees, c);
    SameKept(sys.swaps, conn.swapId.value);
    var stored := ToStore(conn, job, fees, step);
    assert stored.serviceFee == conn.serviceFee by {
      FeeIsScheduled(sys, fees, conn.startTime);
    }
    StoreAgrees(sys, fees, c, conn.swapId.value, stored, sys.clock);
    StoreSectionIs(sys, fees, c, step);
    hide StepFor;
    KeptAgrees(sys, StepFor(sys, fees, c, step), fees, c);
  }

  lemma FeeIsScheduled(sys: System, fees: FeeSchedule, t: nat)
    requires Agreement(sys, fees) && t in sys.admitted
    ensures sys.admitted[t].fee == fees(sys.admitted[t].terms)
  {
  }

  lemma PutBackAgrees(sys: System, fees: FeeSchedule, c: ConnId)
    requires Agreement(sys, fees) && c in sys.sessions && sys.sessions[c].conn.swapId.Some? && sys.sessions[c].job.Settling?
    ensures var later := StepFor(sys, fees, c, PutBack); Agreement(later, fees) && Extends(sys, later)
  {
    hide Store, StoreOutcome;
    var conn, later := sys.sessions[c].conn, StepFor(sys, fees, c, PutBack);
    AgreesAt(sys, fees, c);
    StoreAgrees(sys, fees, c, conn.swapId.value, conn, sys.clock);
    Carried(sys, later, fees, c);
    forall i
      ensures StoredAgrees(later, i)
    {
      assert StoredAgrees(sys.(swaps := later.swaps), i);
    }
  }

  /** Sections that write by id leave every admission alone. */
  lemma ByIdKeeps(swaps: Swaps, id: SwapId, now: nat, txids: seq<Txid>, height: nat, plan: seq<SplitPlan>, txid: Txid)
    ensures KeepsEntries(swaps, Touch(swaps, id, now)) && KeepsEntries(swaps, ClaimIncoming(swaps, id, txids, now))
    ensures KeepsEntries(swaps, SetFundingHeight(swaps, id, height)) && KeepsEntries(swaps, SetClaimedPlan(swaps, id, plan))
    ensures KeepsEntries(swaps, RecordBroadcast(swaps, id, txid, now)) && KeepsEntries(swaps, swaps - {id}) && KeepsEntries(swaps, swaps)
  {
    hide KeepsEntries, ClaimAccepted;
    SameKept(swaps, id);
    if id in swaps {
      OneKept(swaps, id, Touch(swaps, id, now)[id]);
      OneKept(swaps, id, ClaimIncoming(swaps, id, txids, now)[id]);
      OneKept(swaps, id, SetFundingHeight(swaps, id, height)[id]);
      OneKept(swaps, id, SetClaimedPlan(swaps, id, plan)[id]);
      OneKept(swaps, id, RecordBroadcast(swaps, id, txid, now)[id]);
      assert ClaimAccepted(swaps, id, txids) || ClaimIncoming(swaps, id, txids, now) == swaps;
    } else {
      assert !ClaimAccepted(swaps, id, txids) by {
        NoEntryNoClaim(swaps, id, txids);
      }
    }
  }

  lemma NoEntryNoClaim(swaps: Swaps, id: SwapId, txids: seq<Txid>)
    requires id !in swaps
    ensures !ClaimAccepted(swaps, id, txids)
  {
  }

  predicate Prepares(step: Step) {
    step.Claim? || step.Poll? || step.Confirm? || step.Plan? || step.Unplan?
  }

  lemma PreparingIs(sys: System, fees: FeeSchedule, c: ConnId, step: Step)
    requires c in sys.sessions && Prepares(step)
    ensures var Session(conn, job) := sys.sessions[c];
            StepFor(sys, fees, c, step) ==
              if conn.swapId.None? then sys
              else
                var id := conn.swapId.value;
                if job.Claiming? && step.Claim? then
                  if ClaimAccepted(sys.swaps, id, TxidsOf(conn.incoming)) then
                    Continue(sys.(swaps := ClaimIncoming(sys.swaps, id, TxidsOf(conn.incoming), sys.clock)), c, conn, Waiting)
                  else Close(sys, c)
                else if job.Waiting? && step.Poll? then ById(sys, c, id, Touch(sys.swaps, id, sys.clock), conn, Waiting)
                else if job.Waiting? && step.Confirm? then
                  Continue(sys.(swaps := if step.height.Some? then SetFundingHeight(sys.swaps, id, step.height.value) else sys.swaps), c, conn, Building)
                else if job.Building? && step.Plan? then
                  ById(sys, c, id, if step.plan.Some? then SetClaimedPlan(sys.swaps, id, step.plan.value) else sys.swaps, conn, Built)
                else if job.Built? && step.Unplan? then Close(sys.(swaps := SetClaimedPlan(sys.swaps, id, [])), c)
                else sys
  {
    hide Touch, ClaimIncoming, ClaimAccepted, SetFundingHeight, SetClaimedPlan, RecordBroadcast, StoreConn;
  }

  /** From the claim to the coins built, nothing but by-id sections runs. */
  lemma PreparingAgrees(sys: System, fees: FeeSchedule, c: ConnId, step: Step)
    requires Agreement(sys, fees) && c in sys.sessions && Prepares(step)
    ensures var later := StepFor(sys, fees, c, step); Agreement(later, fees) && Extends(sys, later)
  {
    hide Agreement, Touch, ClaimIncoming, ClaimAccepted, SetFundingHeight, SetClaimedPlan, RecordBroadcast, KeepsEntries, StoreConn, StepFor;
    var Session(conn, job) := sys.sessions[c];
    AgreesAt(sys, fees, c);
    PreparingIs(sys, fees, c, step);
    var id := if conn.swapId.Some? then conn.swapId.value else "";
    var height := if step.Confirm? && step.height.Some? then step.height.value else 0;
    ByIdKeeps(sys.swaps, id, sys.clock, TxidsOf(conn.incoming), height, if step.Plan? && step.plan.Some? then step.plan.value else [], 0);
    KeptAgrees(sys, StepFor(sys, fees, c, step), fees, c);
  }

  /** The admission a connection carries does not depend on its records, nor on what its handler does next. */
  lemma SameAdmissionCarried(sys: System, fees: FeeSchedule, c: ConnId, conn: Connection)
    requires c in sys.sessions && !sys.sessions[c].job.ReadingBack? && CarriesAdmission(sys.admitted, fees, sys.sessions[c])
    requires var own := sys.sessions[c].conn; conn == own.(fundingBroadcast := conn.fundingBroadcast)
    ensures forall job: Job :: !job.ReadingBack? ==>
              CarriesAdmission(sys.admitted, fees, Session(conn, job)) && CarriesAdmission(sys.admitted, fees, Session(sys.sessions[c].conn, job))
  {
  }

  predicate Sends(step: Step) {
    step.Verify? || step.Record? || step.RemoveEntry? || step.Settle?
  }

  /** Verifying, recording and completing change entries by id or remove them. */
  lemma SendingAgrees(sys: System, fees: FeeSchedule, c: ConnId, step: Step)
    requires Agreement(sys, fees) && c in sys.sessions && Sends(step)
    ensures var later := StepFor(sys, fees, c, step); Agreement(later, fees) && Extends(sys, later)
  {
    hide Agreement, RecordBroadcast, KeepsEntries, StoreConn, CarriesAdmission, Listed, StepFor;
    if step.Record? {
      RecordAgrees(sys, fees, c, step.txid);
    } else {
      OtherSendAgrees(sys, fees, c, step);
    }
  }

  lemma RecordAgrees(sys: System, fees: FeeSchedule, c: ConnId, txid: Txid)
    requires Agreement(sys, fees) && c in sys.sessions
    ensures var later := StepFor(sys, fees, c, Record(txid)); Agreement(later, fees) && Extends(sys, later)
  {
    hide Agreement, RecordBroadcast, KeepsEntries, StoreConn, CarriesAdmission, Listed;
    var Session(conn, job) := sys.sessions[c];
    AgreesAt(sys, fees, c);
    if !job.ReadingBack? {
      SameAdmissionCarried(sys, fees, c, Recorded(conn, txid));
    }
    ByIdKeeps(sys.swaps, if conn.swapId.Some? then conn.swapId.value else "", sys.clock, [], 0, [], txid);
    KeptAgrees(sys, StepFor(sys, fees, c, Record(txid)), fees, c);
  }

  lemma OtherSendIs(sys: System, fees: FeeSchedule, c: ConnId, step: Step)
    requires c in sys.sessions && Sends(step) && !step.Record?
    ensures var Session(conn, job) := sys.sessions[c];
            StepFor(sys, fees, c, step) ==
              if conn.swapId.None? then sys
              else if job.Verifying? && step == Verify(true) then Continue(sys, c, conn, Sending)
              else if job.Verifying? && step == Verify(false) then Close(sys.(swaps := sys.swaps - {conn.swapId.value}), c)
              else if job.Completing? && step.RemoveEntry? then Continue(sys.(swaps := sys.swaps - {conn.swapId.value}), c, conn, Settling)
              else if job.Settling? && step.Settle? then Close(sys, c) else sys
  {
  }

  lemma OtherSendAgrees(sys: System, fees: FeeSchedule, c: ConnId, step: Step)
    requires Agreement(sys, fees) && c in sys.sessions && Sends(step) && !step.Record?
    ensures var later := StepFor(sys, fees, c, step); Agreement(later, fees) && Extends(sys, later)
  {
    hide Agreement, RecordBroadcast, KeepsEntries, CarriesAdmission, StepFor;
    var Session(conn, job) := sys.sessions[c];
    OtherSendIs(sys, fees, c, step);
    AgreesAt(sys, fees, c);
    if !job.ReadingBack? {
      SameAdmissionCarried(sys, fees, c, conn);
    }
    ByIdKeeps(sys.swaps, if conn.swapId.Some? then conn.swapId.value else "", sys.clock, [], 0, [], 0);
    KeptAgrees(sys, StepFor(sys, fees, c, step), fees, c);
  }

  lemma TouchAgrees(sys: System, fees: FeeSchedule, c: ConnId)
    requires Agreement(sys, fees) && c in sys.sessions
    ensures var later := StepFor(sys, fees, c, TouchEntry); Agreement(later, fees) && Extends(sys, later)
  {
    hide Agreement, Touch, KeepsEntries;
    AgreesAt(sys, fees, c);
    ByIdKeeps(sys.swaps, if sys.sessions[c].job.Refreshing? then sys.sessions[c].job.of else "", sys.clock, [], 0, [], 0);
    KeptAgrees(sys, StepFor(sys, fees, c, TouchEntry), fees, c);
  }

  /** A read-back that finds the terms it asked for keeps agreement. */
  lemma TrueReadAgrees(sys: System, fees: FeeSchedule, c: ConnId)
    requires Agreement(sys, fees) && c in sys.sessions && !Misreads(sys, Stepped(c, ReadBack))
    ensures var later := StepFor(sys, fees, c, ReadBack); Agreement(later, fees) && Extends(sys, later)
  {
    AgreesAt(sys, fees, c);
    hide Agreement, KeepsEntries;
    SameKept(sys.swaps, "");
    if sys.sessions[c].job.ReadingBack? {
      ReadBackAgrees(sys, fees, c);
    }
    KeptAgrees(sys, StepFor(sys, fees, c, ReadBack), fees, c);
  }

  lemma ReadBackAgrees(sys: System, fees: FeeSchedule, c: ConnId)
    requires Agreement(sys, fees) && c in sys.sessions && sys.sessions[c].job.ReadingBack?
    ensures var later := StepFor(sys, fees, c, ReadBack);
            if Misreads(sys, Stepped(c, ReadBack)) then !SessionAgrees(later, fees, c) && later.swaps == sys.swaps
            else c in later.sessions ==> InStep(later.sessions[c]) && CarriesAdmission(sys.admitted, fees, later.sessions[c])
    ensures Extends(sys, StepFor(sys, fees, c, ReadBack))
  {
    AgreesAt(sys, fees, c);
    assert StoredAgrees(sys, sys.sessions[c].conn.swapId.value);
  }

  lemma StepAgrees(sys: System, fees: FeeSchedule, c: ConnId, step: Step)
    requires Agreement(sys, fees) && c in sys.sessions && !Misreads(sys, Stepped(c, step))
    ensures var later := StepFor(sys, fees, c, step); Agreement(later, fees) && Extends(sys, later)
  {
    var Session(conn, job) := sys.sessions[c];
    AgreesAt(sys, fees, c);
    hide Agreement, SectionFor, LockedAdmission, Extends;
    if step.Lock? {
      if job.Admitting? {
        LockAgrees(sys, fees, c);
      } else {
        LockIgnored(sys, fees, c);
      }
    } else if step.PutBack? {
      if job.Settling? {
        PutBackAgrees(sys, fees, c);
      } else {
        PutBackIgnored(sys, fees, c);
      }
    } else if Stores(job, step) {
      StoringAgrees(sys, fees, c, step);
    } else if Prepares(step) {
      PreparingAgrees(sys, fees, c, step);
    } else if Sends(step) {
      SendingAgrees(sys, fees, c, step);
    } else if step.TouchEntry? {
      TouchAgrees(sys, fees, c);
    } else if step.ReadBack? {
      TrueReadAgrees(sys, fees, c);
    } else {
      StoreIgnored(sys, fees, c, step);
    }
  }

  lemma StoreIgnored(sys: System, fees: FeeSchedule, c: ConnId, step: Step)
    requires c in sys.sessions && !Stores(sys.sessions[c].job, step) && (step.StoreNow? || step.StoreBuilt? || step.Finish?)
    ensures StepFor(sys, fees, c, step) == sys && Extends(sys, sys)
  {
  }

  lemma LockIgnored(sys: System, fees: FeeSchedule, c: ConnId)
    requires c in sys.sessions && !sys.sessions[c].job.Admitting?
    ensures StepFor(sys, fees, c, Lock) == sys && Extends(sys, sys)
  {
  }

  lemma PutBackIgnored(sys: System, fees: FeeSchedule, c: ConnId)
    requires c in sys.sessions && !sys.sessions[c].job.Settling?
    ensures StepFor(sys, fees, c, PutBack) == sys && Extends(sys, sys)
  {
  }

  lemma DrainAgrees(sys: System, fees: FeeSchedule, event: Event)
    requires Agreement(sys, fees) && (event.Drained? || event.Connected? || event.Disconnected?)
    ensures Agreement(Handle(sys, fees, event), fees) && Extends(sys, Handle(sys, fees, event))
  {
    var c := if event.Drained? then 0 else event.c;
    AgreesAt(sys, fees, c);
    KeptAgrees(sys, Handle(sys, fees, event), fees, c);
  }

  /** Every event keeps agreement, but for a read-back that finds other terms; and that one never does. */
  lemma EventAgrees(sys: System, fees: FeeSchedule, event: Event)
    requires Agreement(sys, fees)
    ensures Agreement(Handle(sys, fees, event), fees) <==> !Misreads(sys, event)
    ensures Extends(sys, Handle(sys, fees, event))
  {
    if Misreads(sys, event) {
      ReadBackAgrees(sys, fees, event.c);
    } else if event.Received? {
      if event.c in sys.sessions && sys.sessions[event.c].job.Listening? {
        ReceiveAgrees(sys, fees, event.c, event.request);
      }
    } else if event.Stepped? {
      if event.c in sys.sessions {
        StepAgrees(sys, fees, event.c, event.step);
      }
    } else {
      DrainAgrees(sys, fees, event);
    }
  }

  /** In the run every admission reads back the terms it asked for. */
  ghost predicate ReadsTrue(fees: FeeSchedule, events: seq<Event>) {
    forall n :: 0 <= n < |events| ==> !Misreads(HandleAll(EMPTY, fees, events[..n]), events[n])
  }

  ghost predicate AlwaysAgrees(fees: FeeSchedule, events: seq<Event>) {
    forall n :: 0 <= n <= |events| ==> Agreement(HandleAll(EMPTY, fees, events[..n]), fees)
  }

  lemma OneMore(sys: System, fees: FeeSchedule, events: seq<Event>, event: Event)
    ensures HandleAll(sys, fees, events + [event]) == Handle(HandleAll(sys, fees, events), fees, event)
  {
    assert (events + [event])[..|events|] == events;
  }

  lemma ReadsTrueUpTo(fees: FeeSchedule, events: seq<Event>, n: nat)
    requires ReadsTrue(fees, events) && n <= |events|
    ensures ReadsTrue(fees, events[..n])
  {
    forall k | 0 <= k < n
      ensures !Misreads(HandleAll(EMPTY, fees, events[..n][..k]), events[..n][k])
    {
      assert events[..n][..k] == events[..k];
    }
  }

  lemma NothingAgrees(fees: FeeSchedule)
    ensures Agreement(EMPTY, fees)
  {
  }

  lemma {:induction false} TrueRunsAgree(fees: FeeSchedule, events: seq<Event>)
    requires ReadsTrue(fees, events)
    ensures Agreement(HandleAll(EMPTY, fees, events), fees)
    decreases |events|
  {
    hide Handle, Misreads, Agreement;
    if events == [] {
      NothingAgrees(fees);
    } else {
      ReadsTrueUpTo(fees, events, |events| - 1);
      TrueRunsAgree(fees, events[..|events| - 1]);
      EventAgrees(HandleAll(EMPTY, fees, events[..|events| - 1]), fees, events[|events| - 1]);
    }
  }

  /**
   Over every interleaving of every connection's sections: what is stored for a live swap, and
   what a connection carries for it, is at every moment what the admission it belongs to fixed,
   terms, fee and frozen plan, exactly when every admission reads back the terms it asked for.
   */
  lemma TermsFixedAtAdmission(fees: FeeSchedule, events: seq<Event>)
    ensures AlwaysAgrees(fees, events) <==> ReadsTrue(fees, events)
  {
    hide Handle, Misreads, Agreement, HandleAll;
    if ReadsTrue(fees, events) {
      forall n | 0 <= n <= |events|
        ensures Agreement(HandleAll(EMPTY, fees, events[..n]), fees)
      {
        ReadsTrueUpTo(fees, events, n);
        TrueRunsAgree(fees, events[..n]);
      }
    }
    if AlwaysAgrees(fees, events) {
      forall n | 0 <= n < |events|
        ensures !Misreads(HandleAll(EMPTY, fees, events[..n]), events[n])
      {
        OneMore(EMPTY, fees, events[..n], events[n]);
        assert events[..n] + [events[n]] == events[..n + 1];
        EventAgrees(HandleAll(EMPTY, fees, events[..n]), fees, events[n]);
      }
    }
  }

  lemma ExtendsOn(a: System, b: System, c: System)
    requires Extends(a, b) && Extends(b, c)
    ensures Extends(a, c)
  {
  }

  lemma ExtendsItself(sys: System)
    ensures Extends(sys, sys)
  {
  }

  lemma {:induction false} AdmissionsKept(fees: FeeSchedule, events: seq<Event>, n: nat)
    requires ReadsTrue(fees, events) && n <= |events|
    ensures Extends(HandleAll(EMPTY, fees, events[..n]), HandleAll(EMPTY, fees, events))
    decreases |events| - n
  {
    hide Handle, Misreads, Agreement, HandleAll, ReadsTrue, Extends;
    if n == |events| {
      assert events[..n] == events;
      ExtendsItself(HandleAll(EMPTY, fees, events));
    } else {
      AdmissionsKept(fees, events, n + 1);
      ReadsTrueUpTo(fees, events, n);
      TrueRunsAgree(fees, events[..n]);
      OneMore(EMPTY, fees, events[..n], events[n]);
      assert events[..n] + [events[n]] == events[..n + 1];
      EventAgrees(HandleAll(EMPTY, fees, events[..n]), fees, events[n]);
      ExtendsOn(HandleAll(EMPTY, fees, events[..n]), HandleAll(EMPTY, fees, events[..n + 1]), HandleAll(EMPTY, fees, events));
    }
  }

  /** However such a run goes on, a swap that is stored under the same admission has the same terms, fee and plan. */
  lemma LiveTermsConstant(fees: FeeSchedule, events: seq<Event>, n: nat, id: SwapId)
    requires ReadsTrue(fees, events) && n <= |events|
    requires id in HandleAll(EMPTY, fees, events[..n]).swaps && id in HandleAll(EMPTY, fees, events).swaps
    requires HandleAll(EMPTY, fees, events[..n]).swaps[id].startTime == HandleAll(EMPTY, fees, events).swaps[id].startTime
    ensures SameAdmission(HandleAll(EMPTY, fees, events[..n]).swaps[id], HandleAll(EMPTY, fees, events).swaps[id])
  {
    hide HandleAll;
    ReadsTrueUpTo(fees, events, n);
    TrueRunsAgree(fees, events[..n]);
    TrueRunsAgree(fees, events);
    AdmissionsKept(fees, events, n);
    assert StoredAgrees(HandleAll(EMPTY, fees, events[..n]), id) && StoredAgrees(HandleAll(EMPTY, fees, events), id);
  }

  /** A valid message asked for these terms, its id had no unfinished swap on disk, and the wallet answered with this plan. */
  ghost predicate AskedAndPlanned(events: seq<Event>, id: SwapId, terms: Terms, plan: seq<SplitPlan>) {
    exists c :: Received(c, SwapDetails(id, terms, true, false, Ok(plan))) in events
  }

  /** Every admission made, and every plan still waiting for the lock, comes from such a message. */
  ghost predicate Traced(sys: System, events: seq<Event>) {
    && (forall t :: t in sys.admitted ==> AskedAndPlanned(events, sys.admitted[t].id, sys.admitted[t].terms, sys.admitted[t].plan))
    && (forall c :: c in sys.sessions && sys.sessions[c].job.Admitting? && sys.sessions[c].job.planned.Some? ==>
          AskedAndPlanned(events, sys.sessions[c].job.id, sys.sessions[c].job.terms, sys.sessions[c].job.planned.value))
  }

  /** No section of any handler leaves its connection waiting for the lock anew, or touches another connection. */
  lemma StepsTakeNoPlan(sys: System, fees: FeeSchedule, c: ConnId, step: Step, d: ConnId)
    requires c in sys.sessions && d in StepFor(sys, fees, c, step).sessions
    ensures var later := StepFor(sys, fees, c, step);
            (d in sys.sessions && later.sessions[d] == sys.sessions[d]) || !later.sessions[d].job.Admitting?
  {
    hide Store, StoreOutcome, Drain, Touch, SetFundingHeight, SetClaimedPlan, RecordBroadcast, ClaimIncoming, ClaimAccepted, WithCoins, Finished, Recorded;
  }

  lemma MessagesTakePlans(sys: System, c: ConnId, req: Request, d: ConnId)
    requires c in sys.sessions && d in Receive(sys, c, req).sessions && Receive(sys, c, req).sessions[d].job.Admitting?
    ensures var job := Receive(sys, c, req).sessions[d].job;
            || (d in sys.sessions && sys.sessions[d].job == job)
            || (d == c && (job.planned.Some? ==> req == SwapDetails(job.id, job.terms, true, false, Ok(job.planned.value))))
  {
    hide Dispatched, KeepaliveCounts, AtCap;
  }

  /** A plan is taken up only from a message without an unfinished swap; nothing else waits for the lock. */
  lemma PlansComeFromMessages(sys: System, fees: FeeSchedule, event: Event, c: ConnId)
    requires c in Handle(sys, fees, event).sessions && Handle(sys, fees, event).sessions[c].job.Admitting?
    ensures var job := Handle(sys, fees, event).sessions[c].job;
            || (c in sys.sessions && sys.sessions[c].job == job)
            || (job.planned.Some? ==> event == Received(c, SwapDetails(job.id, job.terms, true, false, Ok(job.planned.value))))
  {
    hide StepFor, Receive, Drain;
    match event
    case Received(b, req) => if b in sys.sessions && sys.sessions[b].job.Listening? { MessagesTakePlans(sys, b, req, c); }
    case Stepped(b, step) => if b in sys.sessions { StepsTakeNoPlan(sys, fees, b, step, c); }
    case _ =>
  }

  /** A new admission is the lock of such a waiting plan. */
  lemma AdmissionsComeFromPlans(sys: System, fees: FeeSchedule, event: Event, t: nat)
    requires t in Handle(sys, fees, event).admitted && !(t in sys.admitted && sys.admitted[t] == Handle(sys, fees, event).admitted[t])
    ensures var made := Handle(sys, fees, event).admitted[t];
            && event.Stepped? && event.c in sys.sessions
            && sys.sessions[event.c].job == Job.Admitting(made.id, made.terms, Some(made.plan))
  {
    hide StepFor, Drain, Receive;
    if event.Received? && event.c in sys.sessions {
      MessagesAdmitNothing(sys, event.c, event.request);
    }
    if event.Stepped? && event.c in sys.sessions {
      OnlyLocksAdmit(sys, fees, event.c, event.step, t);
    }
  }

  lemma MessagesAdmitNothing(sys: System, c: ConnId, req: Request)
    requires c in sys.sessions
    ensures Receive(sys, c, req).admitted == sys.admitted
  {
    hide Dispatched, KeepaliveCounts, AtCap;
  }

  lemma SectionsAdmitNothing(sys: System, fees: FeeSchedule, c: ConnId, id: SwapId, step: Step)
    requires c in sys.sessions
    ensures SectionFor(sys, fees, c, id, step).admitted == sys.admitted
  {
    hide Store, StoreOutcome, Touch, SetFundingHeight, SetClaimedPlan, RecordBroadcast, ClaimIncoming, ClaimAccepted, WithCoins, Finished, Recorded;
  }

  lemma OnlyLocksAdmit(sys: System, fees: FeeSchedule, c: ConnId, step: Step, t: nat)
    requires c in sys.sessions && t in StepFor(sys, fees, c, step).admitted
    requires !(t in sys.admitted && sys.admitted[t] == StepFor(sys, fees, c, step).admitted[t])
    ensures var made := StepFor(sys, fees, c, step).admitted[t]; sys.sessions[c].job == Job.Admitting(made.id, made.terms, Some(made.plan))
  {
    hide SectionFor, AtCap;
    if sys.sessions[c].conn.swapId.Some? {
      SectionsAdmitNothing(sys, fees, c, sys.sessions[c].conn.swapId.value, step);
    }
  }

  /** However the messages interleave: no swap is admitted under an id with an unfinished swap on disk, and none without a plan of its own. */
  lemma {:induction false} UnfinishedNeverAdmitted(fees: FeeSchedule, events: seq<Event>)
    ensures Traced(HandleAll(EMPTY, fees, events), events)
    decreases |events|
  {
    hide Handle;
    if events != [] {
      var earlier, event := events[..|events| - 1], events[|events| - 1];
      UnfinishedNeverAdmitted(fees, earlier);
      var sys, later := HandleAll(EMPTY, fees, earlier), HandleAll(EMPTY, fees, events);
      assert forall e :: e in earlier ==> e in events;
      forall t | t in later.admitted
        ensures AskedAndPlanned(events, later.admitted[t].id, later.admitted[t].terms, later.admitted[t].plan)
      {
        if !(t in sys.admitted && sys.admitted[t] == later.admitted[t]) {
          AdmissionsComeFromPlans(sys, fees, event, t);
          var made := later.admitted[t];
          assert AskedAndPlanned(earlier, made.id, made.terms, made.plan);
        }
      }
      forall c | c in later.sessions && later.sessions[c].job.Admitting? && later.sessions[c].job.planned.Some?
        ensures AskedAndPlanned(events, later.sessions[c].job.id, later.sessions[c].job.terms, later.sessions[c].job.planned.value)
      {
        PlansComeFromMessages(sys, fees, event, c);
      }
    }
  }

  // ---------------------------------------------------------------- what ends an admission

  /** The live admission of `id` is gone: no entry, or one of another admission. */
  predicate Ended(sys: System, later: System, id: SwapId)
    requires id in sys.swaps
  {
    id !in later.swaps || later.swaps[id].startTime != sys.swaps[id].startTime
  }

  predicate DrainedAway(sys: System, event: Event, id: SwapId) {
    event.Drained? && id in DroppedIds(sys.swaps, sys.clock, event.timeout) + StaleIds(sys.swaps, sys.clock, event.timeout, event.tip)
  }

  /** The removal after a completed handover, or after signatures that do not verify, of a connection on `id`, whatever its admission. */
  predicate RemovedAway(sys: System, event: Event, id: SwapId) {
    event.Stepped? && event.c in sys.sessions && sys.sessions[event.c].conn.swapId == Some(id)
    && ((sys.sessions[event.c].job.Completing? && event.step.RemoveEntry?) || (sys.sessions[event.c].job.Verifying? && event.step == Verify(false)))
  }

  /** No store of any connection ends a live admission. */
  lemma StoreKeepsAdmissions(sys: System, fees: FeeSchedule, c: ConnId, step: Step, id: SwapId)
    requires id in sys.swaps && c in sys.sessions && sys.sessions[c].conn.swapId.Some? && Stores(sys.sessions[c].job, step)
    ensures !Ended(sys, StepFor(sys, fees, c, step), id)
  {
    hide StepFor, StoreOutcome, Store;
    var Session(conn, job) := sys.sessions[c];
    StoreSectionIs(sys, fees, c, step);
    StoreEffect(sys.swaps, conn.swapId.value, ToStore(conn, job, fees, step), sys.clock);
  }

  lemma PreparingKeepsAdmissions(sys: System, fees: FeeSchedule, c: ConnId, step: Step, id: SwapId)
    requires id in sys.swaps && c in sys.sessions && Prepares(step)
    ensures !Ended(sys, StepFor(sys, fees, c, step), id)
  {
    hide ClaimAccepted, StoreConn;
  }

  lemma SendingKeepsAdmissions(sys: System, fees: FeeSchedule, c: ConnId, step: Step, id: SwapId)
    requires id in sys.swaps && c in sys.sessions && Sends(step) && !RemovedAway(sys, Stepped(c, step), id)
    ensures !Ended(sys, StepFor(sys, fees, c, step), id)
  {
    hide StoreConn;
  }

  /** No store, admission or by-id section ends a live admission. */
  lemma StoresKeepAdmissions(sys: System, fees: FeeSchedule, c: ConnId, step: Step, id: SwapId)
    requires id in sys.swaps && c in sys.sessions && !RemovedAway(sys, Stepped(c, step), id)
    ensures !Ended(sys, StepFor(sys, fees, c, step), id)
  {
    hide StoreOutcome, ClaimAccepted, Store, StoreConn;
    var Session(conn, job) := sys.sessions[c];
    if conn.swapId.Some? && Stores(job, step) {
      hide StepFor;
      StoreKeepsAdmissions(sys, fees, c, step, id);
    } else if Prepares(step) {
      hide StepFor;
      PreparingKeepsAdmissions(sys, fees, c, step, id);
    } else if Sends(step) {
      hide StepFor;
      SendingKeepsAdmissions(sys, fees, c, step, id);
    } else if job.Admitting? {
      AdmissionEffect(sys.swaps, job.id, Asked(conn, job.id, job.terms, fees(job.terms), sys.clock), job.planned, sys.clock);
    } else if conn.swapId.Some? {
      StoreEffect(sys.swaps, conn.swapId.value, conn, sys.clock);
    }
  }

  /**
   Exactly what ends a live admission, over every section of every connection: a drain of it, and
   a removal of its id by a connection that completed a handover or got bad signatures.
   */
  lemma WhatEndsAnAdmission(sys: System, fees: FeeSchedule, event: Event, id: SwapId)
    requires id in sys.swaps
    ensures Ended(sys, Handle(sys, fees, event), id) <==> DrainedAway(sys, event, id) || RemovedAway(sys, event, id)
  {
    hide StepFor, Receive;
    if RemovedAway(sys, event, id) {
      Removes(sys, fees, event.c, event.step, id);
    } else if event.Stepped? && event.c in sys.sessions {
      StoresKeepAdmissions(sys, fees, event.c, event.step, id);
    } else if event.Received? && event.c in sys.sessions {
      ReceiveStoresNothing(sys, event.c, event.request);
    }
  }

  lemma Removes(sys: System, fees: FeeSchedule, c: ConnId, step: Step, id: SwapId)
    requires RemovedAway(sys, Stepped(c, step), id)
    ensures StepFor(sys, fees, c, step).swaps == sys.swaps - {id}
  {
  }

  /** A message stores nothing by arriving. */
  lemma ReceiveStoresNothing(sys: System, c: ConnId, req: Request)
    requires c in sys.sessions
    ensures Receive(sys, c, req).swaps == sys.swaps
  {
  }

  /** A swap that did not settle is put back when its id is free, as a new entry, or still its own admission's, and never over another one. */
  lemma PutBackExactly(sys: System, fees: FeeSchedule, c: ConnId)
    requires c in sys.sessions && sys.sessions[c].job.Settling? && sys.sessions[c].conn.swapId.Some? && sys.sessions[c].conn.phase == Completed
    ensures var conn, id := sys.sessions[c].conn, sys.sessions[c].conn.swapId.value;
            StepFor(sys, fees, c, PutBack).swaps ==
              if id !in sys.swaps then sys.swaps[id := Written(DEFAULT_STATE, conn, None, sys.clock)]
              else if sys.swaps[id].startTime == conn.startTime then sys.swaps[id := Written(sys.swaps[id], conn, None, sys.clock)]
              else sys.swaps
  {
  }

  /** A connection without coins that finds its admission stored takes everything from there, so what it misread is gone. */
  lemma MisreadIsRestored(sys: System, c: ConnId, req: Request)
    requires c in sys.sessions && sys.sessions[c].conn.outgoing == [] && IsWork(req) && req.id in sys.swaps
    requires Dispatched(sys.sessions[c].conn, sys.swaps, req).Ok?
    ensures Dispatched(sys.sessions[c].conn, sys.swaps, req).value == FromEntry(req.id, sys.swaps[req.id])
  {
  }

  // ---------------------------------------------------------------- what another admission's connection writes

  /** The connection drives an admission of `id` other than the live one. */
  predicate HoldsOlderAdmission(sys: System, c: ConnId, id: SwapId) {
    c in sys.sessions && id in sys.swaps && sys.sessions[c].conn.swapId == Some(id) && !sys.sessions[c].job.ReadingBack?
    && sys.sessions[c].conn.startTime != sys.swaps[id].startTime
  }

  /** A message of such a connection is dispatched exactly when it has coins of its own, and its protocol and phase fit. */
  lemma OlderDispatchExactly(sys: System, c: ConnId, req: Request)
    requires IsWork(req) && HoldsOlderAdmission(sys, c, req.id)
    ensures var conn := sys.sessions[c].conn;
            Dispatched(conn, sys.swaps, req).Ok? <==>
              conn.outgoing != [] && conn.terms.swapAmount != 0 && conn.terms.protocol == PhasesFor(req).0 && conn.phase in PhasesFor(req).1
  {
  }

  /** What the next section of `c` writes into the entry of its id, whatever admission the entry belongs to; its stores aside. */
  function WrittenById(sys: System, c: ConnId, step: Step, id: SwapId): SwapState
    requires c in sys.sessions && id in sys.swaps
  {
    var Session(conn, job) := sys.sessions[c];
    var entry := sys.swaps[id];
    match (job, step)
    case (Claiming, Claim) =>
      if ClaimAccepted(sys.swaps, id, TxidsOf(conn.incoming)) then
        entry.(claimedIncoming := TxidsOf(conn.incoming), lastActivity := sys.clock) else entry
    case (Waiting, Poll) => entry.(lastActivity := sys.clock)
    case (Waiting, Confirm(height)) => if height.Some? then entry.(fundingHeight := height) else entry
    case (Building, Plan(plan)) => if plan.Some? then entry.(claimedPlan := plan.value) else entry
    case (Built, Unplan) => entry.(claimedPlan := [])
    case (Sending, Record(txid)) =>
      entry.(fundingBroadcast := Listed(entry.fundingBroadcast, txid), lastActivity := sys.clock)
    case (Refreshing(of), TouchEntry) => if of == id then entry.(lastActivity := sys.clock) else entry
    case _ => entry
  }

  /** Terms, fee, plan, identity, phase, coins and pending transactions are the same. */
  predicate SameButRecords(a: SwapState, b: SwapState) {
    SameAdmission(a, b) && a.phase == b.phase && a.incoming == b.incoming && a.outgoing == b.outgoing && a.pendingFunding == b.pendingFunding
  }

  /** No store of such a connection is accepted, whatever coins it carries: it closes the connection. */
  lemma OlderAdmissionCannotStore(sys: System, fees: FeeSchedule, c: ConnId, step: Step, id: SwapId)
    requires HoldsOlderAdmission(sys, c, id) && (Stores(sys.sessions[c].job, step) || step.PutBack?)
    ensures Handle(sys, fees, Stepped(c, step)) == if step.PutBack? && !sys.sessions[c].job.Settling? then sys else Close(sys, c)
  {
    hide StoreOutcome;
    var Session(conn, job) := sys.sessions[c];
    StoreEffect(sys.swaps, id, if Stores(job, step) then ToStore(conn, job, fees, step) else conn, sys.clock);
  }

  /** The step changes the entry of `id` by what its by-id section writes, or removes it, and leaves every other entry alone. */
  ghost predicate WritesOnly(sys: System, later: System, c: ConnId, step: Step, id: SwapId)
    requires c in sys.sessions && id in sys.swaps
  {
    if RemovedAway(sys, Stepped(c, step), id) then later.swaps == sys.swaps - {id}
    else later.swaps == sys.swaps[id := WrittenById(sys, c, step, id)] && SameButRecords(sys.swaps[id], WrittenById(sys, c, step, id))
  }

  lemma OlderPrepares(sys: System, fees: FeeSchedule, c: ConnId, step: Step, id: SwapId)
    requires HoldsOlderAdmission(sys, c, id) && Prepares(step)
    ensures WritesOnly(sys, Handle(sys, fees, Stepped(c, step)), c, step, id)
  {
    hide ClaimAccepted;
    assert sys.swaps[id := sys.swaps[id]] == sys.swaps;
    if step.Claim? && ClaimAccepted(sys.swaps, id, TxidsOf(sys.sessions[c].conn.incoming)) {
      assert id in sys.swaps;
    }
  }

  lemma OlderOther(sys: System, fees: FeeSchedule, c: ConnId, step: Step, id: SwapId)
    requires HoldsOlderAdmission(sys, c, id) && InStep(sys.sessions[c]) && !Prepares(step) && !Stores(sys.sessions[c].job, step) && !step.PutBack?
    ensures WritesOnly(sys, Handle(sys, fees, Stepped(c, step)), c, step, id)
  {
    assert sys.swaps[id := sys.swaps[id]] == sys.swaps;
  }

  /**
   Everything a connection can do to the live entry of its id while it holds another admission of
   it: its stores are refused, but its by-id sections write claims, heights, claimed coins, records
   and the activity time, and its removals take the entry away. Nothing else changes.
   */
  lemma OlderAdmissionWritesExactly(sys: System, fees: FeeSchedule, c: ConnId, step: Step, id: SwapId)
    requires Agreement(sys, fees) && HoldsOlderAdmission(sys, c, id)
    ensures WritesOnly(sys, Handle(sys, fees, Stepped(c, step)), c, step, id)
  {
    AgreesAt(sys, fees, c);
    if Prepares(step) {
      OlderPrepares(sys, fees, c, step, id);
    } else if Stores(sys.sessions[c].job, step) || step.PutBack? {
      hide StepFor;
      OlderAdmissionCannotStore(sys, fees, c, step, id);
      assert sys.swaps[id := sys.swaps[id]] == sys.swaps;
    } else {
      OlderOther(sys, fees, c, step, id);
    }
  }

  // ---------------------------------------------------------------- what a claim of another admission costs

  lemma StoreSectionKeepsClaim(sys: System, fees: FeeSchedule, c: ConnId, step: Step, id: SwapId)
    requires id in sys.swaps && c in sys.sessions && sys.sessions[c].conn.swapId.Some? && Stores(sys.sessions[c].job, step)
    ensures id in StepFor(sys, fees, c, step).swaps && StepFor(sys, fees, c, step).swaps[id].claimedIncoming == sys.swaps[id].claimedIncoming
  {
    hide StepFor, StoreOutcome, Store;
    var Session(conn, job) := sys.sessions[c];
    StoreSectionIs(sys, fees, c, step);
    StoreEffect(sys.swaps, conn.swapId.value, ToStore(conn, job, fees, step), sys.clock);
  }

  lemma ClaimKept(swaps: Swaps, id: SwapId, txids: seq<Txid>, now: nat, other: SwapId)
    requires other in swaps && swaps[other].claimedIncoming != []
    ensures other in ClaimIncoming(swaps, id, txids, now) && ClaimIncoming(swaps, id, txids, now)[other].claimedIncoming == swaps[other].claimedIncoming
  {
  }

  lemma EventKeepsClaim(sys: System, fees: FeeSchedule, event: Event, id: SwapId)
    requires id in sys.swaps && sys.swaps[id].claimedIncoming != [] && id in Handle(sys, fees, event).swaps
    ensures Handle(sys, fees, event).swaps[id].claimedIncoming == sys.swaps[id].claimedIncoming
  {
    hide StoreOutcome, Store, ClaimAccepted, Receive, Listed;
    if event.Received? && event.c in sys.sessions {
      ReceiveStoresNothing(sys, event.c, event.request);
    } else if event.Stepped? && event.c in sys.sessions {
      var Session(conn, job) := sys.sessions[event.c];
      if job.Admitting? {
        AdmissionEffect(sys.swaps, job.id, Asked(conn, job.id, job.terms, fees(job.terms), sys.clock), job.planned, sys.clock);
      } else if conn.swapId.Some? {
        hide StoreConn;
        StoreEffect(sys.swaps, conn.swapId.value, conn, sys.clock);
        if Stores(job, event.step) {
          hide StepFor;
          StoreSectionKeepsClaim(sys, fees, event.c, event.step, id);
        } else if event.step.Claim? {
          ClaimKept(sys.swaps, conn.swapId.value, TxidsOf(conn.incoming), sys.clock, id);
        }
      }
    }
  }

  ghost predicate StaysLive(sys: System, fees: FeeSchedule, events: seq<Event>, id: SwapId) {
    forall n :: 0 <= n <= |events| ==> id in HandleAll(sys, fees, events[..n]).swaps
  }

  lemma {:induction false} ClaimFixedWhileLive(sys: System, fees: FeeSchedule, events: seq<Event>, id: SwapId)
    requires id in sys.swaps && sys.swaps[id].claimedIncoming != [] && StaysLive(sys, fees, events, id)
    ensures id in HandleAll(sys, fees, events).swaps
    ensures HandleAll(sys, fees, events).swaps[id].claimedIncoming == sys.swaps[id].claimedIncoming
    decreases |events|
  {
    assert events[..|events|] == events;
    if events != [] {
      hide Handle;
      var earlier := events[..|events| - 1];
      forall n | 0 <= n <= |earlier|
        ensures id in HandleAll(sys, fees, earlier[..n]).swaps
      {
        assert earlier[..n] == events[..n];
      }
      ClaimFixedWhileLive(sys, fees, earlier, id);
      EventKeepsClaim(HandleAll(sys, fees, earlier), fees, events[|events| - 1], id);
    }
  }

  /**
   A claim by a connection of another admission is for good: as long as the entry lives, every
   claim of other contracts for it, the live admission's own among them, is refused.
   */
  lemma OlderClaimBlocksLive(sys: System, fees: FeeSchedule, c: ConnId, id: SwapId, events: seq<Event>, own: seq<Txid>)
    requires HoldsOlderAdmission(sys, c, id) && sys.sessions[c].job == Job.Claiming && sys.sessions[c].conn.incoming != []
    requires ClaimAccepted(sys.swaps, id, TxidsOf(sys.sessions[c].conn.incoming)) && own != TxidsOf(sys.sessions[c].conn.incoming)
    requires StaysLive(Handle(sys, fees, Stepped(c, Claim)), fees, events, id)
    ensures !ClaimAccepted(HandleAll(Handle(sys, fees, Stepped(c, Claim)), fees, events).swaps, id, own)
  {
    var claimed := Handle(sys, fees, Stepped(c, Claim));
    assert claimed.swaps[id].claimedIncoming == TxidsOf(sys.sessions[c].conn.incoming);
    ClaimFixedWhileLive(claimed, fees, events, id);
  }

  // ---------------------------------------------------------------- runs

  lemma {:induction false} RunOn(sys: System, fees: FeeSchedule, first: seq<Event>, more: seq<Event>)
    ensures HandleAll(sys, fees, first + more) == HandleAll(HandleAll(sys, fees, first), fees, more)
    decreases |more|
  {
    if more == [] {
      assert first + more == first;
    } else {
      var fewer := more[..|more| - 1];
      assert (first + more)[..|first + more| - 1] == first + fewer;
      RunOn(sys, fees, first, fewer);
    }
  }

  lemma EmptyRun(sys: System, fees: FeeSchedule)
    ensures HandleAll(sys, fees, []) == sys
  {
  }

  lemma RunThree(sys: System, fees: FeeSchedule, e1: Event, e2: Event, e3: Event)
    ensures HandleAll(sys, fees, [e1] + [e2] + [e3]) == Handle(Handle(Handle(sys, fees, e1), fees, e2), fees, e3)
  {
    hide HandleAll, Handle;
    EmptyRun(sys, fees);
    assert [] + [e1] == [e1];
    OneMore(sys, fees, [], e1);
    OneMore(sys, fees, [e1], e2);
    OneMore(sys, fees, [e1] + [e2], e3);
  }

  const NEGOTIATING := FRESH.(phase := AwaitingSwapDetails)

  /** A connection opens, negotiates and asks for `terms`, up to the locked section. */
  function Asking(c: ConnId, id: SwapId, terms: Terms): seq<Event> {
    [Connected(c)] + [Received(c, Hello)] + [Received(c, GetOffer)] + [Received(c, SwapDetails(id, terms, true, false, Ok([])))]
  }

  lemma Opens(sys: System, fees: FeeSchedule, c: ConnId)
    requires c !in sys.sessions
    ensures Handle(Handle(Handle(sys, fees, Connected(c)), fees, Received(c, Hello)), fees, Received(c, GetOffer))
            == Continue(sys, c, NEGOTIATING, Listening)
  {
    var m1 := Handle(sys, fees, Connected(c));
    assert m1 == Continue(sys, c, FRESH, Listening);
    var m2 := Handle(m1, fees, Received(c, Hello));
    assert m2 == Continue(sys, c, FRESH.(phase := AwaitingOfferRequest), Listening);
  }

  lemma NothingLive()
    ensures !AtCap(map[])
  {
    assert FundedIds(map[]) == {} && UnfundedIds(map[]) == {};
  }

  lemma Asks(sys: System, fees: FeeSchedule, c: ConnId, id: SwapId, terms: Terms)
    requires c !in sys.sessions && (id in sys.swaps || sys.swaps == map[])
    ensures HandleAll(sys, fees, Asking(c, id, terms))
            == Continue(sys, c, NEGOTIATING, Job.Admitting(id, terms, if id in sys.swaps then None else Some([])))
  {
    hide HandleAll;
    var details := Received(c, SwapDetails(id, terms, true, false, Ok([])));
    RunThree(sys, fees, Connected(c), Received(c, Hello), Received(c, GetOffer));
    OneMore(sys, fees, [Connected(c)] + [Received(c, Hello)] + [Received(c, GetOffer)], details);
    var negotiating := Continue(sys, c, NEGOTIATING, Listening);
    assert HandleAll(sys, fees, Asking(c, id, terms)) == Handle(negotiating, fees, details) by {
      Opens(sys, fees, c);
    }
    NothingLive();
  }

  /** The locked section with nothing stored, and the read-back. */
  lemma LocksAndReads(sys: System, fees: FeeSchedule, c: ConnId, id: SwapId, terms: Terms)
    requires c in sys.sessions && sys.sessions[c] == Session(NEGOTIATING, Job.Admitting(id, terms, Some([]))) && sys.swaps == map[]
    ensures var asked := Asked(NEGOTIATING, id, terms, fees(terms), sys.clock);
            var later := Handle(Handle(sys, fees, Stepped(c, Lock)), fees, Stepped(c, ReadBack));
            && later.swaps == map[id := Written(DEFAULT_STATE, asked, Some([]), sys.clock)]
            && later.sessions == sys.sessions[c := Session(asked, Listening)] && later.clock == sys.clock + 1
  {
    NothingLive();
    var asked := Asked(NEGOTIATING, id, terms, fees(terms), sys.clock);
    var m1 := Handle(sys, fees, Stepped(c, Lock));
    assert m1.swaps == map[id := Written(DEFAULT_STATE, asked, Some([]), sys.clock)];
    assert m1.sessions == sys.sessions[c := Session(asked, ReadingBack)];
  }

  /** With nothing stored, the admission goes through and is read back. */
  lemma Admits(sys: System, fees: FeeSchedule, c: ConnId, id: SwapId, terms: Terms)
    requires c !in sys.sessions && sys.swaps == map[]
    ensures var asked := Asked(NEGOTIATING, id, terms, fees(terms), sys.clock);
            var later := HandleAll(sys, fees, Asking(c, id, terms) + [Stepped(c, Lock)] + [Stepped(c, ReadBack)]);
            && later.swaps == map[id := Written(DEFAULT_STATE, asked, Some([]), sys.clock)]
            && later.sessions == sys.sessions[c := Session(asked, Listening)] && later.clock == sys.clock + 1
  {
    hide HandleAll, Handle, Asked, Written;
    Asks(sys, fees, c, id, terms);
    OneMore(sys, fees, Asking(c, id, terms), Stepped(c, Lock));
    OneMore(sys, fees, Asking(c, id, terms) + [Stepped(c, Lock)], Stepped(c, ReadBack));
    LocksAndReads(HandleAll(sys, fees, Asking(c, id, terms)), fees, c, id, terms);
  }

  /** The connection and the only entry belong to one admission that is at `phase`. */
  predicate Alone(sys: System, c: ConnId, id: SwapId, phase: Phase) {
    && sys.swaps.Keys == {id} && c in sys.sessions && sys.sessions[c].job.Listening?
    && sys.swaps[id].phase == phase && sys.swaps[id].negotiated.protocol == Legacy && sys.swaps[id].negotiated.swapAmount != 0
    && sys.sessions[c].conn.swapId == Some(id) && sys.sessions[c].conn.startTime == sys.swaps[id].startTime
  }

  /** The connection has coins of its own, on the same terms. */
  predicate HasCoins(sys: System, c: ConnId, id: SwapId, coin: SwapCoin, phase: Phase) {
    && Alone(sys, c, id, phase) && sys.swaps[id].outgoing == [coin]
    && sys.sessions[c].conn.terms == sys.swaps[id].negotiated && sys.sessions[c].conn.outgoing == [coin] && sys.sessions[c].conn.phase == phase
  }

  /** A proof of funding, from its arrival to its store. */
  function Proving(c: ConnId, id: SwapId, coin: SwapCoin): seq<Event> {
    [Received(c, ContractData(id, Legacy, [coin]))] + [Stepped(c, Claim)] + [Stepped(c, Confirm(None))] + [Stepped(c, Plan(None))]
    + [Stepped(c, StoreBuilt([coin], []))]
  }

  lemma ProofArrives(sys: System, fees: FeeSchedule, c: ConnId, id: SwapId, coin: SwapCoin)
    requires Alone(sys, c, id, AwaitingContractData) && sys.sessions[c].conn.outgoing == []
    ensures Handle(sys, fees, Received(c, ContractData(id, Legacy, [coin])))
            == Continue(sys, c, FromEntry(id, sys.swaps[id]).(incoming := [coin]), Job.Claiming)
  {
  }

  lemma ProofClaims(sys: System, fees: FeeSchedule, c: ConnId, id: SwapId, coin: SwapCoin)
    requires c in sys.sessions && sys.sessions[c].job == Job.Claiming && sys.sessions[c].conn.swapId == Some(id)
    requires sys.swaps.Keys == {id} && sys.swaps[id].claimedIncoming == []
    ensures Handle(sys, fees, Stepped(c, Claim))
            == Continue(sys.(swaps := ClaimIncoming(sys.swaps, id, TxidsOf(sys.sessions[c].conn.incoming), sys.clock)), c, sys.sessions[c].conn, Waiting)
    ensures ClaimAccepted(sys.swaps, id, TxidsOf(sys.sessions[c].conn.incoming))
  {
  }

  lemma ProofStores(sys: System, fees: FeeSchedule, c: ConnId, id: SwapId, coin: SwapCoin)
    requires c in sys.sessions && sys.sessions[c].job.Waiting? && sys.sessions[c].conn.swapId == Some(id) && sys.swaps.Keys == {id}
    requires sys.sessions[c].conn.startTime == sys.swaps[id].startTime && sys.sessions[c].conn.terms.protocol == Legacy
    ensures var stored := WithCoins(sys.sessions[c].conn, fees, [coin], []);
            Handle(Handle(Handle(sys, fees, Stepped(c, Confirm(None))), fees, Stepped(c, Plan(None))), fees, Stepped(c, StoreBuilt([coin], [])))
            == Continue(sys.(swaps := sys.swaps[id := Written(sys.swaps[id], stored, None, sys.clock)]), c, stored, Listening)
  {
    var m1 := Handle(sys, fees, Stepped(c, Confirm(None)));
    assert m1 == Continue(sys, c, sys.sessions[c].conn, Building);
    var m2 := Handle(m1, fees, Stepped(c, Plan(None)));
    assert m2 == Continue(sys, c, sys.sessions[c].conn, Built);
  }

  lemma Proves(sys: System, fees: FeeSchedule, c: ConnId, id: SwapId, coin: SwapCoin)
    requires Alone(sys, c, id, AwaitingContractData) && sys.sessions[c].conn.outgoing == [] && sys.swaps[id].claimedIncoming == []
    ensures var later := HandleAll(sys, fees, Proving(c, id, coin));
            && HasCoins(later, c, id, coin, AwaitingSignaturesOrPreimage) && later.swaps[id].startTime == sys.swaps[id].startTime
            && later.swaps[id].negotiated == sys.swaps[id].negotiated
            && later.sessions == sys.sessions[c := later.sessions[c]] && later.clock == sys.clock
  {
    hide HandleAll, Handle, ClaimAccepted;
    var arrives, claims := Received(c, ContractData(id, Legacy, [coin])), Stepped(c, Claim);
    var m1 := Handle(sys, fees, arrives);
    ProofArrives(sys, fees, c, id, coin);
    ProofClaims(m1, fees, c, id, coin);
    var m2 := Handle(m1, fees, claims);
    assert m2.swaps.Keys == {id};
    ProofStores(m2, fees, c, id, coin);
    RunThree(sys, fees, arrives, claims, Stepped(c, Confirm(None)));
    OneMore(sys, fees, [arrives] + [claims] + [Stepped(c, Confirm(None))], Stepped(c, Plan(None)));
    OneMore(sys, fees, [arrives] + [claims] + [Stepped(c, Confirm(None))] + [Stepped(c, Plan(None))], Stepped(c, StoreBuilt([coin], [])));
  }

  /** A new connection resends the contract signatures; they are stored. */
  function Resending(d: ConnId, id: SwapId): seq<Event> {
    [Connected(d)] + [Received(d, ContractSigs(id))] + [Stepped(d, StoreNow)]
  }

  /** A message on a new connection finds the stored state. */
  lemma FreshArrives(sys: System, fees: FeeSchedule, d: ConnId, req: Request)
    requires d !in sys.sessions && IsWork(req) && req.id in sys.swaps && !(req.Handover? && sys.swaps[req.id].outgoing == [])
    requires sys.swaps[req.id].phase in PhasesFor(req).1 && sys.swaps[req.id].negotiated.protocol == PhasesFor(req).0
    ensures Handle(Handle(sys, fees, Connected(d)), fees, Received(d, req)) == Start(sys, d, FromEntry(req.id, sys.swaps[req.id]), req)
  {
    var m1 := Handle(sys, fees, Connected(d));
    assert m1 == Continue(sys, d, FRESH, Listening);
    assert Dispatched(FRESH, sys.swaps, req) == Ok(FromEntry(req.id, sys.swaps[req.id]));
  }

  /** A message on a connection with coins of its own is handled as it is. */
  lemma OwnArrives(sys: System, fees: FeeSchedule, c: ConnId, req: Request)
    requires c in sys.sessions && sys.sessions[c].job.Listening? && IsWork(req) && sys.sessions[c].conn.outgoing != []
    requires sys.sessions[c].conn.terms.swapAmount != 0 && sys.sessions[c].conn.swapId == Some(req.id)
    requires sys.sessions[c].conn.phase in PhasesFor(req).1 && sys.sessions[c].conn.terms.protocol == PhasesFor(req).0
    ensures Handle(sys, fees, Received(c, req)) == Start(sys, c, sys.sessions[c].conn, req)
  {
  }

  /** The first store of a handler that got signatures. */
  lemma ChecksIn(sys: System, fees: FeeSchedule, c: ConnId, id: SwapId)
    requires c in sys.sessions && sys.sessions[c].job.Checking? && sys.sessions[c].conn.swapId == Some(id)
    requires id in sys.swaps && sys.swaps[id].startTime == sys.sessions[c].conn.startTime
    ensures var conn := sys.sessions[c].conn;
            Handle(sys, fees, Stepped(c, StoreNow))
            == Continue(sys.(swaps := sys.swaps[id := Written(sys.swaps[id], conn, None, sys.clock)]), c, conn, Verifying)
  {
  }

  lemma SigsStored(sys: System, fees: FeeSchedule, d: ConnId, id: SwapId)
    requires d !in sys.sessions && id in sys.swaps && sys.swaps[id].phase == AwaitingSignaturesOrPreimage && sys.swaps[id].negotiated.protocol == Legacy
    ensures HandleAll(sys, fees, Resending(d, id))
            == Continue(sys.(swaps := sys.swaps[id := Written(sys.swaps[id], FromEntry(id, sys.swaps[id]), None, sys.clock)]), d, FromEntry(id, sys.swaps[id]), Verifying)
  {
    hide HandleAll, Handle, Written;
    RunThree(sys, fees, Connected(d), Received(d, ContractSigs(id)), Stepped(d, StoreNow));
    FreshArrives(sys, fees, d, ContractSigs(id));
    ChecksIn(Continue(sys, d, FromEntry(id, sys.swaps[id]), Checking), fees, d, id);
  }

  /** Signatures that do not verify end the live admission, and leave every other connection of it open. */
  lemma BadSignaturesEnd(sys: System, fees: FeeSchedule, d: ConnId, id: SwapId)
    requires d !in sys.sessions && id in sys.swaps && sys.swaps[id].phase == AwaitingSignaturesOrPreimage && sys.swaps[id].negotiated.protocol == Legacy
    ensures RemovedAway(HandleAll(sys, fees, Resending(d, id)), Stepped(d, Verify(false)), id)
    ensures HandleAll(sys, fees, Resending(d, id) + [Stepped(d, Verify(false))]) == sys.(swaps := sys.swaps - {id})
  {
    hide HandleAll, Written;
    SigsStored(sys, fees, d, id);
    OneMore(sys, fees, Resending(d, id), Stepped(d, Verify(false)));
    var before := HandleAll(sys, fees, Resending(d, id));
    assert before.swaps - {id} == sys.swaps - {id};
    assert before.sessions - {d} == sys.sessions;
  }

  /** The contract signatures on the connection's own coins, to the final store. */
  function Funding(c: ConnId, id: SwapId): seq<Event> {
    [Received(c, ContractSigs(id))] + [Stepped(c, StoreNow)] + [Stepped(c, Verify(true))] + [Stepped(c, Finish)]
  }

  lemma Funds(sys: System, fees: FeeSchedule, c: ConnId, id: SwapId, coin: SwapCoin)
    requires HasCoins(sys, c, id, coin, AwaitingSignaturesOrPreimage)
    ensures var later := HandleAll(sys, fees, Funding(c, id));
            && HasCoins(later, c, id, coin, AwaitingPrivateKeyHandover) && later.sessions == sys.sessions[c := later.sessions[c]]
            && later.swaps[id].startTime == sys.swaps[id].startTime && later.clock == sys.clock
  {
    hide HandleAll, Handle;
    var conn := sys.sessions[c].conn;
    RunThree(sys, fees, Received(c, ContractSigs(id)), Stepped(c, StoreNow), Stepped(c, Verify(true)));
    OneMore(sys, fees, [Received(c, ContractSigs(id))] + [Stepped(c, StoreNow)] + [Stepped(c, Verify(true))], Stepped(c, Finish));
    OwnArrives(sys, fees, c, ContractSigs(id));
    ChecksIn(Continue(sys, c, conn, Checking), fees, c, id);
    var written := Continue(sys.(swaps := sys.swaps[id := Written(sys.swaps[id], conn, None, sys.clock)]), c, conn, Verifying);
    assert Handle(Continue(sys, c, conn, Checking), fees, Stepped(c, StoreNow)) == written;
    VerifiesAndFinishes(written, fees, c, id);
    var later := HandleAll(sys, fees, Funding(c, id));
    assert later == Handle(Handle(written, fees, Stepped(c, Verify(true))), fees, Stepped(c, Finish));
    assert later.sessions == sys.sessions[c := Session(Finished(conn), Listening)] && later.swaps.Keys == {id};
  }

  lemma VerifiesAndFinishes(sys: System, fees: FeeSchedule, c: ConnId, id: SwapId)
    requires c in sys.sessions && sys.sessions[c].job.Verifying? && sys.sessions[c].conn.swapId == Some(id)
    requires id in sys.swaps && sys.swaps[id].startTime == sys.sessions[c].conn.startTime
    ensures var stored := Finished(sys.sessions[c].conn);
            Handle(Handle(sys, fees, Stepped(c, Verify(true))), fees, Stepped(c, Finish))
            == Continue(sys.(swaps := sys.swaps[id := Written(sys.swaps[id], stored, None, sys.clock)]), c, stored, Listening)
  {
    var m1 := Handle(sys, fees, Stepped(c, Verify(true)));
    assert m1 == Continue(sys, c, sys.sessions[c].conn, Sending);
  }

  /** A new connection hands the keys over and settles. */
  function HandingOver(d: ConnId, id: SwapId): seq<Event> {
    [Connected(d)] + [Received(d, Handover(id, Legacy))] + [Stepped(d, RemoveEntry)] + [Stepped(d, Settle)]
  }

  lemma RemovesAndSettles(sys: System, fees: FeeSchedule, d: ConnId, id: SwapId)
    requires d in sys.sessions && sys.sessions[d].job.Completing? && sys.sessions[d].conn.swapId == Some(id)
    ensures Handle(Handle(sys, fees, Stepped(d, RemoveEntry)), fees, Stepped(d, Settle))
            == sys.(swaps := sys.swaps - {id}, sessions := sys.sessions - {d})
  {
    var m1 := Handle(sys, fees, Stepped(d, RemoveEntry));
    assert m1 == Continue(sys.(swaps := sys.swaps - {id}), d, sys.sessions[d].conn, Settling);
  }

  lemma HandsOver(sys: System, fees: FeeSchedule, d: ConnId, id: SwapId)
    requires d !in sys.sessions && id in sys.swaps && sys.swaps[id].phase == AwaitingPrivateKeyHandover
    requires sys.swaps[id].negotiated.protocol == Legacy && sys.swaps[id].outgoing != []
    ensures HandleAll(sys, fees, HandingOver(d, id)) == sys.(swaps := sys.swaps - {id})
  {
    hide HandleAll, Handle;
    RunThree(sys, fees, Connected(d), Received(d, Handover(id, Legacy)), Stepped(d, RemoveEntry));
    OneMore(sys, fees, [Connected(d)] + [Received(d, Handover(id, Legacy))] + [Stepped(d, RemoveEntry)], Stepped(d, Settle));
    FreshArrives(sys, fees, d, Handover(id, Legacy));
    var completing := Continue(sys, d, FromEntry(id, sys.swaps[id]).(phase := Completed), Completing);
    RemovesAndSettles(completing, fees, d, id);
    assert completing.sessions - {d} == sys.sessions;
  }

  const EXAMPLE := ZERO_TERMS.(swapAmount := 1)
  const OTHER := ZERO_TERMS.(swapAmount := 2)
  const COIN := SwapCoin(Tx(0, []))

  function AdmittingRun(c: ConnId, terms: Terms): seq<Event> {
    Asking(c, "a", terms) + [Stepped(c, Lock)] + [Stepped(c, ReadBack)]
  }

  /** Connection 0 is admitted and proves its funding. */
  lemma ProvenRun(fees: FeeSchedule) returns (events: seq<Event>)
    ensures var sys := HandleAll(EMPTY, fees, events);
            HasCoins(sys, 0, "a", COIN, AwaitingSignaturesOrPreimage) && sys.swaps["a"].startTime == 0 && sys.sessions.Keys == {0} && sys.clock == 1
  {
    hide HandleAll;
    Admits(EMPTY, fees, 0, "a", EXAMPLE);
    var admitted := HandleAll(EMPTY, fees, AdmittingRun(0, EXAMPLE));
    assert admitted.swaps.Keys == {"a"};
    Proves(admitted, fees, 0, "a", COIN);
    events := AdmittingRun(0, EXAMPLE) + Proving(0, "a", COIN);
    RunOn(EMPTY, fees, AdmittingRun(0, EXAMPLE), Proving(0, "a", COIN));
  }

  /** Its id is free again while the connection stays open, and is admitted anew on connection 2. */
  lemma AdmittedAnew(fees: FeeSchedule, before: seq<Event>, phase: Phase)
    requires var sys := HandleAll(EMPTY, fees, before);
             sys.swaps == map[] && sys.sessions.Keys == {0} && sys.clock == 1 && sys.sessions[0].job.Listening?
             && sys.sessions[0].conn.swapId == Some("a") && sys.sessions[0].conn.startTime == 0 && sys.sessions[0].conn.terms.protocol == Legacy
             && sys.sessions[0].conn.terms.swapAmount != 0 && sys.sessions[0].conn.outgoing == [COIN] && sys.sessions[0].conn.phase == phase
    ensures var (sys, earlier) := (HandleAll(EMPTY, fees, before + AdmittingRun(2, EXAMPLE)), HandleAll(EMPTY, fees, before));
            && HoldsOlderAdmission(sys, 0, "a") && sys.swaps.Keys == {"a"} && sys.swaps["a"].claimedIncoming == []
            && sys.swaps["a"].incoming == [] && sys.swaps["a"].fundingHeight == None && sys.swaps["a"].negotiated == EXAMPLE
            && sys.swaps["a"].lastActivity == 1 && sys.clock == 2 && 0 in earlier.sessions && sys.sessions[0] == earlier.sessions[0]
  {
    hide HandleAll;
    RunOn(EMPTY, fees, before, AdmittingRun(2, EXAMPLE));
    Admits(HandleAll(EMPTY, fees, before), fees, 2, "a", EXAMPLE);
  }

  /** Connection 0 proved its funding, connection 1 sent bad signatures, and the id is admitted anew: connection 0 is still open. */
  lemma OlderStaysOpen(fees: FeeSchedule) returns (events: seq<Event>)
    ensures var sys := HandleAll(EMPTY, fees, events);
            && HoldsOlderAdmission(sys, 0, "a") && sys.sessions[0].job.Listening? && sys.sessions[0].conn.outgoing == [COIN]
            && sys.sessions[0].conn.terms.protocol == Legacy && sys.sessions[0].conn.terms.swapAmount != 0
            && sys.sessions[0].conn.phase == AwaitingSignaturesOrPreimage
            && sys.swaps.Keys == {"a"} && sys.swaps["a"].claimedIncoming == [] && sys.swaps["a"].incoming == []
            && sys.swaps["a"].fundingHeight == None && sys.swaps["a"].negotiated == EXAMPLE && sys.swaps["a"].lastActivity == 1 && sys.clock == 2
  {
    hide HandleAll;
    events := ProvenRun(fees);
    var proven := HandleAll(EMPTY, fees, events);
    BadSignaturesEnd(proven, fees, 1, "a");
    RunOn(EMPTY, fees, events, Resending(1, "a") + [Stepped(1, Verify(false))]);
    assert proven.swaps - {"a"} == map[];
    events := events + (Resending(1, "a") + [Stepped(1, Verify(false))]);
    AdmittedAnew(fees, events, AwaitingSignaturesOrPreimage);
    events := events + AdmittingRun(2, EXAMPLE);
  }

  /** There its proof of funding, with whatever coins, is about to claim the entry of the newer admission. */
  lemma OlderProofClaimsNewer(fees: FeeSchedule, coins: seq<SwapCoin>) returns (events: seq<Event>)
    ensures var sys := HandleAll(EMPTY, fees, events);
            && HoldsOlderAdmission(sys, 0, "a") && sys.sessions[0].job == Job.Claiming && sys.sessions[0].conn.incoming == coins
            && ClaimAccepted(sys.swaps, "a", TxidsOf(coins))
  {
    hide HandleAll;
    events := OlderStaysOpen(fees);
    var sys, proof := HandleAll(EMPTY, fees, events), Received(0, ContractData("a", Legacy, coins));
    OneMore(EMPTY, fees, events, proof);
    OwnArrives(sys, fees, 0, proof.request);
    events := events + [proof];
  }

  /** And its keepalive refreshes the newer admission. */
  lemma KeepaliveRefreshesNewerAdmission(fees: FeeSchedule) returns (events: seq<Event>)
    ensures var sys := HandleAll(EMPTY, fees, events);
            && HoldsOlderAdmission(sys, 0, "a") && "a" in Handle(sys, fees, Stepped(0, TouchEntry)).swaps
            && Handle(sys, fees, Stepped(0, TouchEntry)).swaps["a"].lastActivity != sys.swaps["a"].lastActivity
  {
    hide HandleAll;
    events := OlderStaysOpen(fees);
    var sys, alive := HandleAll(EMPTY, fees, events), Received(0, Keepalive("a", Some(0), false, false));
    OneMore(EMPTY, fees, events, alive);
    assert Handle(sys, fees, alive) == Continue(sys, 0, sys.sessions[0].conn, Refreshing("a"));
    events := events + [alive];
  }

  /** A run in which a handover of an older admission removes the live one that reused its id. */
  lemma HandoverRemovesNewerAdmission(fees: FeeSchedule) returns (events: seq<Event>)
    ensures var sys := HandleAll(EMPTY, fees, events);
            HoldsOlderAdmission(sys, 0, "a") && RemovedAway(sys, Stepped(0, RemoveEntry), "a")
  {
    hide HandleAll;
    events := ProvenRun(fees);
    var proven := HandleAll(EMPTY, fees, events);
    Funds(proven, fees, 0, "a", COIN);
    RunOn(EMPTY, fees, events, Funding(0, "a"));
    events := events + Funding(0, "a");
    var funded := HandleAll(EMPTY, fees, events);
    HandsOver(funded, fees, 1, "a");
    RunOn(EMPTY, fees, events, HandingOver(1, "a"));
    assert funded.swaps - {"a"} == map[];
    events := events + HandingOver(1, "a");
    AdmittedAnew(fees, events, AwaitingPrivateKeyHandover);
    events := events + AdmittingRun(2, EXAMPLE);
    var sys, over := HandleAll(EMPTY, fees, events), Received(0, Handover("a", Legacy));
    OneMore(EMPTY, fees, events, over);
    OwnArrives(sys, fees, 0, over.request);
    events := events + [over];
  }

  /** A second connection repeats the admission and is about to read its plan back. */
  lemma Repeats(sys: System, fees: FeeSchedule, c: ConnId, id: SwapId)
    requires c !in sys.sessions && id in sys.swaps
    ensures var later := HandleAll(sys, fees, Asking(c, id, sys.swaps[id].negotiated) + [Stepped(c, Lock)]);
            && later.swaps == sys.swaps[id := sys.swaps[id].(lastActivity := sys.clock)] && later.clock == sys.clock + 1
            && c in later.sessions && later.sessions == sys.sessions[c := later.sessions[c]] && later.sessions[c].job.ReadingBack?
            && later.sessions[c].conn.swapId == Some(id) && later.sessions[c].conn.terms == sys.swaps[id].negotiated
  {
    hide HandleAll;
    Asks(sys, fees, c, id, sys.swaps[id].negotiated);
    OneMore(sys, fees, Asking(c, id, sys.swaps[id].negotiated), Stepped(c, Lock));
  }

  /**
   A run in which an admission reads back other terms: connection 1 repeats connection 0's
   admission; before it reads its plan back, that admission ends with bad signatures and the id
   is admitted on other terms.
   */
  lemma ReadBackMisses(fees: FeeSchedule) returns (events: seq<Event>)
    ensures Misreads(HandleAll(EMPTY, fees, events), Stepped(1, ReadBack))
  {
    hide HandleAll;
    Admits(EMPTY, fees, 0, "a", EXAMPLE);
    events := AdmittingRun(0, EXAMPLE);
    var repeating := Asking(1, "a", EXAMPLE) + [Stepped(1, Lock)];
    Repeats(HandleAll(EMPTY, fees, events), fees, 1, "a");
    RunOn(EMPTY, fees, events, repeating);
    events := events + repeating;
    var repeated := HandleAll(EMPTY, fees, events);
    assert repeated.swaps.Keys == {"a"};
    Proves(repeated, fees, 0, "a", COIN);
    RunOn(EMPTY, fees, events, Proving(0, "a", COIN));
    events := events + Proving(0, "a", COIN);
    var proven := HandleAll(EMPTY, fees, events);
    BadSignaturesEnd(proven, fees, 3, "a");
    RunOn(EMPTY, fees, events, Resending(3, "a") + [Stepped(3, Verify(false))]);
    events := events + (Resending(3, "a") + [Stepped(3, Verify(false))]);
    assert proven.swaps - {"a"} == map[];
    Admits(HandleAll(EMPTY, fees, events), fees, 2, "a", OTHER);
    RunOn(EMPTY, fees, events, AdmittingRun(2, OTHER));
    events := events + AdmittingRun(2, OTHER);
  }

  // ---------------------------------------------------------------- the handlers

  /** The sections of a proof of funding, or of contract data up to its first store, with nothing in between. */
  function ProofAlone(sys: System, fees: FeeSchedule, c: ConnId, req: Request, height: Option<nat>, plan: Option<seq<SplitPlan>>, last: Step): System {
    var m1 := Handle(sys, fees, Received(c, req));
    var m2 := Handle(m1, fees, Stepped(c, Claim));
    var m3 := Handle(m2, fees, Stepped(c, Confirm(height)));
    var m4 := Handle(m3, fees, Stepped(c, Plan(plan)));
    Handle(m4, fees, Stepped(c, last))
  }

  function RecordAll(sys: System, fees: FeeSchedule, c: ConnId, txids: seq<Txid>): System
    decreases |txids|
  {
    if txids == [] then sys else Handle(RecordAll(sys, fees, c, txids[..|txids| - 1]), fees, Stepped(c, Record(txids[|txids| - 1])))
  }

  /** The sections of the contract signatures, with nothing in between. */
  function SigsAlone(sys: System, fees: FeeSchedule, c: ConnId, id: SwapId, ok: bool, txids: seq<Txid>): System {
    var m1 := Handle(sys, fees, Received(c, ContractSigs(id)));
    var m2 := Handle(m1, fees, Stepped(c, StoreNow));
    var m3 := Handle(m2, fees, Stepped(c, Verify(ok)));
    Handle(RecordAll(m3, fees, c, txids), fees, Stepped(c, Finish))
  }

  // ---------------------------------------------------------------- what a handler leaves stored

  /** Which messages each phase takes; every other message in it is an error. */
  lemma PhasesTake(req: Request, phase: Phase)
    requires IsWork(req)
    ensures phase in PhasesFor(req).1 <==>
              match phase
              case AwaitingContractData => req.SenderSigs? || req.ContractData?
              case AwaitingSignaturesOrPreimage => req.SenderSigs? || req.ContractSigs? || (req.ContractData? && req.protocol == Legacy)
              case AwaitingPrivateKeyHandover => req.ReceiverSigs? || req.Handover?
              case _ => false
    ensures PhasesFor(req).0 == if req.ContractData? || req.Handover? then req.protocol else Legacy
  {
  }

  /** A live admission's message that builds the outgoing coins stores exactly them, with the transactions that fund them. */
  lemma BuiltIsStored(sys: System, fees: FeeSchedule, c: ConnId, id: SwapId, outgoing: seq<SwapCoin>, pending: seq<Tx>)
    requires c in sys.sessions && sys.sessions[c].job.Built? && sys.sessions[c].conn.swapId == Some(id)
    requires id in sys.swaps && sys.swaps[id].startTime == sys.sessions[c].conn.startTime
    ensures var conn, later := sys.sessions[c].conn, StepFor(sys, fees, c, StoreBuilt(outgoing, pending));
            && c in later.sessions && id in later.swaps && later.swaps == sys.swaps[id := later.swaps[id]]
            && StoresCoins(conn, sys.swaps[id], later.swaps[id], fees, outgoing, pending) && later.swaps[id].lastActivity == sys.clock
            && later.sessions[c].job == (if conn.terms.protocol.Legacy? then Listening else Sending)
            && Restore(FRESH, id, later.swaps) == Ok(later.sessions[c].conn)
  {
  }

  /** The entry holds the connection's own swap with these coins; Legacy waits for signatures, Taproot prices its fee anew. */
  predicate StoresCoins(conn: Connection, before: SwapState, after: SwapState, fees: FeeSchedule, outgoing: seq<SwapCoin>, pending: seq<Tx>) {
    && after.outgoing == outgoing && after.incoming == conn.incoming && after.fundingBroadcast == conn.fundingBroadcast
    && after.negotiated == conn.terms && after.fundingPlan == conn.fundingPlan && after.startTime == conn.startTime
    && after.claimedIncoming == before.claimedIncoming && after.claimedPlan == before.claimedPlan && after.fundingHeight == before.fundingHeight
    && (match conn.terms.protocol
        case Legacy =>
          after.pendingFunding == pending && after.phase == AwaitingSignaturesOrPreimage && after.serviceFee == conn.serviceFee
        case Taproot =>
          after.pendingFunding == conn.pendingFunding && after.phase == conn.phase && after.serviceFee == fees(conn.terms))
  }

  /** The final store of the send loop keeps coins and records, and a Legacy swap has nothing left to send. */
  lemma FinishIsStored(sys: System, fees: FeeSchedule, c: ConnId, id: SwapId)
    requires c in sys.sessions && sys.sessions[c].job.Sending? && sys.sessions[c].conn.swapId == Some(id)
    requires id in sys.swaps && sys.swaps[id].startTime == sys.sessions[c].conn.startTime
    ensures var conn, later := sys.sessions[c].conn, StepFor(sys, fees, c, Finish);
            && c in later.sessions && id in later.swaps && later.swaps == sys.swaps[id := later.swaps[id]]
            && later.swaps[id].phase == AwaitingPrivateKeyHandover && later.swaps[id].incoming == conn.incoming
            && later.swaps[id].outgoing == conn.outgoing && later.swaps[id].fundingBroadcast == conn.fundingBroadcast
            && later.swaps[id].pendingFunding == (if conn.terms.protocol.Legacy? then [] else conn.pendingFunding)
            && SameAdmission(later.swaps[id], sys.swaps[id].(negotiated := conn.terms, serviceFee := conn.serviceFee, fundingPlan := conn.fundingPlan))
            && later.sessions[c].job.Listening? && Restore(FRESH, id, later.swaps) == Ok(later.sessions[c].conn)
  {
  }

  /** A connection that is closed ignores what is left of its handler. */
  lemma ClosedIgnores(sys: System, fees: FeeSchedule, c: ConnId, step: Step)
    requires c !in sys.sessions
    ensures Handle(sys, fees, Stepped(c, step)) == sys
  {
  }

  lemma WorkArrives(sys: System, fees: FeeSchedule, c: ConnId, req: Request)
    requires c in sys.sessions && sys.sessions[c].job.Listening? && IsWork(req)
    ensures var r := Dispatched(sys.sessions[c].conn, sys.swaps, req);
            Handle(sys, fees, Received(c, req)) == if r.Ok? then Start(sys, c, r.value, req) else Close(sys, c)
  {
  }

  lemma ClaimStep(sys: System, fees: FeeSchedule, c: ConnId, id: SwapId)
    requires c in sys.sessions && sys.sessions[c].job == Job.Claiming && sys.sessions[c].conn.swapId == Some(id)
    requires ClaimAccepted(sys.swaps, id, TxidsOf(sys.sessions[c].conn.incoming))
    ensures var conn := sys.sessions[c].conn;
            id in sys.swaps && Handle(sys, fees, Stepped(c, Claim))
            == Continue(sys.(swaps := sys.swaps[id := sys.swaps[id].(claimedIncoming := TxidsOf(conn.incoming), lastActivity := sys.clock)]), c, conn, Waiting)
  {
  }

  lemma ConfirmStep(sys: System, fees: FeeSchedule, c: ConnId, id: SwapId, height: Option<nat>)
    requires c in sys.sessions && sys.sessions[c].job.Waiting? && sys.sessions[c].conn.swapId == Some(id) && id in sys.swaps
    ensures Handle(sys, fees, Stepped(c, Confirm(height)))
            == Continue(sys.(swaps := sys.swaps[id := sys.swaps[id].(fundingHeight := if height.Some? then height else sys.swaps[id].fundingHeight)]),
                        c, sys.sessions[c].conn, Building)
  {
  }

  lemma PlanStep(sys: System, fees: FeeSchedule, c: ConnId, id: SwapId, plan: Option<seq<SplitPlan>>)
    requires c in sys.sessions && sys.sessions[c].job.Building? && sys.sessions[c].conn.swapId == Some(id) && id in sys.swaps
    ensures Handle(sys, fees, Stepped(c, Plan(plan)))
            == Continue(sys.(swaps := sys.swaps[id := sys.swaps[id].(claimedPlan := if plan.Some? then plan.value else sys.swaps[id].claimedPlan)]),
                        c, sys.sessions[c].conn, Built)
  {
  }

  /** From a claim that is accepted to the coins built: the height and the claimed plan are written by id. */
  lemma ClaimedToBuilt(sys: System, fees: FeeSchedule, c: ConnId, id: SwapId, height: Option<nat>, plan: Option<seq<SplitPlan>>)
    requires c in sys.sessions && sys.sessions[c].job == Job.Claiming && sys.sessions[c].conn.swapId == Some(id)
    requires id in sys.swaps && ClaimAccepted(sys.swaps, id, TxidsOf(sys.sessions[c].conn.incoming))
    ensures var conn, entry := sys.sessions[c].conn, sys.swaps[id];
            Handle(Handle(Handle(sys, fees, Stepped(c, Claim)), fees, Stepped(c, Confirm(height))), fees, Stepped(c, Plan(plan)))
            == Continue(sys.(swaps := sys.swaps[id := entry.(claimedIncoming := TxidsOf(conn.incoming), lastActivity := sys.clock,
                                                             fundingHeight := if height.Some? then height else entry.fundingHeight,
                                                             claimedPlan := if plan.Some? then plan.value else entry.claimedPlan)]),
                        c, conn, Built)
  {
    hide Handle, ClaimAccepted;
    var conn, entry := sys.sessions[c].conn, sys.swaps[id];
    var m1 := Handle(sys, fees, Stepped(c, Claim));
    ClaimStep(sys, fees, c, id);
    ConfirmStep(m1, fees, c, id, height);
    var m2 := Handle(m1, fees, Stepped(c, Confirm(height)));
    PlanStep(m2, fees, c, id, plan);
    var m3 := Handle(m2, fees, Stepped(c, Plan(plan)));
    assert m3.swaps == sys.swaps[id := m3.swaps[id]] && m3.sessions == sys.sessions[c := m3.sessions[c]];
  }

  lemma RefusedClaimCloses(sys: System, fees: FeeSchedule, c: ConnId, id: SwapId)
    requires c in sys.sessions && sys.sessions[c].job == Job.Claiming && sys.sessions[c].conn.swapId == Some(id)
    requires !ClaimAccepted(sys.swaps, id, TxidsOf(sys.sessions[c].conn.incoming))
    ensures Handle(sys, fees, Stepped(c, Claim)) == Close(sys, c)
  {
  }

  /**
   A proof of funding that nothing interrupts is stored exactly when it is dispatched, its claim is
   accepted and the entry is of its own admission. What is stored then is the proof's incoming coins
   with their claim, the coins built and the transactions that fund them; a reconnect gets it back.
   */
  lemma ProofExactly(sys: System, fees: FeeSchedule, c: ConnId, req: Request, height: Option<nat>, plan: Option<seq<SplitPlan>>,
                     outgoing: seq<SwapCoin>, pending: seq<Tx>)
    requires Agreement(sys, fees) && c in sys.sessions && sys.sessions[c].job.Listening? && req.ContractData?
    ensures var r, later := Dispatched(sys.sessions[c].conn, sys.swaps, req), ProofAlone(sys, fees, c, req, height, plan, StoreBuilt(outgoing, pending));
            && (c in later.sessions <==>
                  r.Ok? && ClaimAccepted(sys.swaps, req.id, TxidsOf(req.coins)) && sys.swaps[req.id].startTime == r.value.startTime)
            && (c in later.sessions ==> ProofStored(sys, later, fees, c, r.value, req, height, plan, outgoing, pending))
  {
    hide Handle, ClaimAccepted, Dispatched, Agreement;
    var r := Dispatched(sys.sessions[c].conn, sys.swaps, req);
    WorkArrives(sys, fees, c, req);
    var last := Stepped(c, StoreBuilt(outgoing, pending));
    if r.Ok? {
      DispatchAgrees(sys, fees, c, req);
      var m1 := Continue(sys, c, r.value.(incoming := req.coins), Job.Claiming);
      if ClaimAccepted(sys.swaps, req.id, TxidsOf(req.coins)) {
        ClaimStep(m1, fees, c, req.id);
        ClaimedToBuilt(m1, fees, c, req.id, height, plan);
        var m4 := Handle(Handle(Handle(m1, fees, Stepped(c, Claim)), fees, Stepped(c, Confirm(height))), fees, Stepped(c, Plan(plan)));
        LastProofStep(m4, fees, c, req.id, outgoing, pending);
        var later := Handle(m4, fees, last);
        assert later == ProofAlone(sys, fees, c, req, height, plan, last.step);
        assert c in later.sessions ==> later.swaps == sys.swaps[req.id := later.swaps[req.id]];
      } else {
        RefusedClaimCloses(m1, fees, c, req.id);
        StaysClosed(Close(m1, c), fees, c, height, plan, last.step);
      }
    } else {
      ClosedIgnores(Close(sys, c), fees, c, Claim);
      StaysClosed(Close(sys, c), fees, c, height, plan, last.step);
    }
  }

  lemma StaysClosed(sys: System, fees: FeeSchedule, c: ConnId, height: Option<nat>, plan: Option<seq<SplitPlan>>, last: Step)
    requires c !in sys.sessions
    ensures Handle(Handle(Handle(sys, fees, Stepped(c, Confirm(height))), fees, Stepped(c, Plan(plan))), fees, Stepped(c, last)) == sys
  {
    hide Handle;
    ClosedIgnores(sys, fees, c, Confirm(height));
    ClosedIgnores(sys, fees, c, Plan(plan));
    ClosedIgnores(sys, fees, c, last);
  }

  lemma LastProofStep(sys: System, fees: FeeSchedule, c: ConnId, id: SwapId, outgoing: seq<SwapCoin>, pending: seq<Tx>)
    requires c in sys.sessions && sys.sessions[c].job.Built? && sys.sessions[c].conn.swapId == Some(id) && id in sys.swaps
    requires Working(sys.sessions[c].conn.phase)
    ensures var conn, later := sys.sessions[c].conn, Handle(sys, fees, Stepped(c, StoreBuilt(outgoing, pending)));
            if sys.swaps[id].startTime == conn.startTime then
              && c in later.sessions && id in later.swaps && later.swaps == sys.swaps[id := later.swaps[id]]
              && StoresCoins(conn, sys.swaps[id], later.swaps[id], fees, outgoing, pending)
              && Restore(FRESH, id, later.swaps) == Ok(later.sessions[c].conn)
            else c !in later.sessions
  {
    if sys.swaps[id].startTime == sys.sessions[c].conn.startTime {
      BuiltIsStored(sys, fees, c, id, outgoing, pending);
    }
  }

  /** The entry of the proof's id after it is stored; every other entry is as it was. */
  predicate ProofStored(sys: System, later: System, fees: FeeSchedule, c: ConnId, conn: Connection, req: Request,
                        height: Option<nat>, plan: Option<seq<SplitPlan>>, outgoing: seq<SwapCoin>, pending: seq<Tx>)
    requires req.ContractData?
  {
    req.id in sys.swaps && req.id in later.swaps && c in later.sessions
    && var (before, after) := (sys.swaps[req.id], later.swaps[req.id]);
       && later.swaps == sys.swaps[req.id := after]
       && after.incoming == req.coins && after.claimedIncoming == TxidsOf(req.coins) && after.outgoing == outgoing
       && after.fundingHeight == (if height.Some? then height else before.fundingHeight)
       && after.claimedPlan == (if plan.Some? then plan.value else before.claimedPlan)
       && after.fundingBroadcast == conn.fundingBroadcast && after.negotiated == conn.terms && after.fundingPlan == conn.fundingPlan
       && after.startTime == conn.startTime == before.startTime
       && (if conn.terms.protocol.Legacy? then after.pendingFunding == pending && after.phase == AwaitingSignaturesOrPreimage && after.serviceFee == conn.serviceFee
           else after.pendingFunding == conn.pendingFunding && after.phase == conn.phase && after.serviceFee == fees(conn.terms))
       && Restore(FRESH, req.id, later.swaps) == Ok(later.sessions[c].conn)
  }

  /** The sections of an admission, with nothing in between. */
  function DetailsAlone(sys: System, fees: FeeSchedule, c: ConnId, req: Request): System {
    var m1 := Handle(sys, fees, Received(c, req));
    var m2 := Handle(m1, fees, Stepped(c, Lock));
    Handle(m2, fees, Stepped(c, ReadBack))
  }

  lemma DetailsArrive(sys: System, fees: FeeSchedule, c: ConnId, req: Request)
    requires req.SwapDetails? && req.valid && c in sys.sessions && sys.sessions[c].job.Listening? && sys.sessions[c].conn.phase == AwaitingSwapDetails
    ensures var conn, planned := sys.sessions[c].conn, PlanBeforeStore(sys.swaps, req.id, true, req.persistedOpen, req.plan);
            Handle(sys, fees, Received(c, req))
            == if planned.Ok? then Continue(sys, c, conn, Job.Admitting(req.id, req.terms, planned.value))
               else Continue(sys.(clock := sys.clock + 1), c, Unbound(conn, req.terms.protocol, sys.clock), Listening)
  {
  }

  /** A connection that is not admitting ignores the rest. */
  lemma UnboundIgnores(sys: System, fees: FeeSchedule, c: ConnId)
    requires c in sys.sessions && sys.sessions[c].job.Listening?
    ensures Handle(Handle(sys, fees, Stepped(c, Lock)), fees, Stepped(c, ReadBack)) == sys
  {
  }

  lemma LockedAndRead(sys: System, fees: FeeSchedule, c: ConnId)
    requires c in sys.sessions && sys.sessions[c].job.Admitting?
    ensures var Session(conn, Admitting(id, terms, planned)) := sys.sessions[c];
            var asked := Asked(conn, id, terms, fees(terms), sys.clock);
            var (swaps, outcome) := (Store(sys.swaps, id, asked, true, planned, sys.clock), StoreOutcome(sys.swaps, id, asked, true, planned));
            var later := Handle(Handle(sys, fees, Stepped(c, Lock)), fees, Stepped(c, ReadBack));
            if outcome.Stored? || outcome.Refreshed? then
              id in swaps
              && later == Continue(sys.(swaps := swaps, clock := sys.clock + 1,
                                        admitted := if outcome.Refreshed? then sys.admitted
                                                    else sys.admitted[sys.clock := Admission(id, terms, fees(terms), swaps[id].fundingPlan)]),
                                   c, asked.(fundingPlan := swaps[id].fundingPlan, startTime := swaps[id].startTime), Listening)
            else later == Continue(sys.(clock := sys.clock + 1), c, Unbound(conn, terms.protocol, sys.clock), Listening)
  {
    hide Store, StoreOutcome;
    var Session(conn, Admitting(id, terms, planned)) := sys.sessions[c];
    var asked := Asked(conn, id, terms, fees(terms), sys.clock);
    AdmissionEffect(sys.swaps, id, asked, planned, sys.clock);
    var m1 := Handle(sys, fees, Stepped(c, Lock));
    assert m1 == LockedAdmission(sys, fees, c);
  }

  /** An admission with nothing in between is one store, refused or read back at once. */
  lemma DetailsInOne(sys: System, fees: FeeSchedule, c: ConnId, req: Request)
    requires req.SwapDetails? && req.valid && c in sys.sessions && sys.sessions[c].job.Listening? && sys.sessions[c].conn.phase == AwaitingSwapDetails
    ensures var asked := Asked(sys.sessions[c].conn, req.id, req.terms, fees(req.terms), sys.clock);
            var (swaps, accepted) := StoreMessage(sys.swaps, req.id, asked, true, req.persistedOpen, req.plan, sys.clock);
            var later := DetailsAlone(sys, fees, c, req);
            && later.swaps == swaps && later.clock == sys.clock + 1 && (accepted ==> req.id in swaps)
            && later.sessions == sys.sessions[c := Session(
                 if accepted then asked.(fundingPlan := swaps[req.id].fundingPlan, startTime := swaps[req.id].startTime)
                 else Unbound(sys.sessions[c].conn, req.terms.protocol, sys.clock), Listening)]
            && later.admitted == if accepted && req.id !in sys.swaps
                                 then sys.admitted[sys.clock := Admission(req.id, req.terms, fees(req.terms), swaps[req.id].fundingPlan)] else sys.admitted
  {
    hide Handle, AtCap, Store;
    var m1 := Handle(sys, fees, Received(c, req));
    DetailsArrive(sys, fees, c, req);
    if m1.sessions[c].job.Admitting? {
      var Session(conn, Admitting(id, terms, planned)) := m1.sessions[c];
      LockedAndRead(m1, fees, c);
      AdmissionEffect(sys.swaps, id, Asked(conn, id, terms, fees(terms), sys.clock), planned, sys.clock);
    } else {
      UnboundIgnores(m1, fees, c);
    }
  }

  /** The sections of a handover, with nothing in between. */
  function HandoverAlone(sys: System, fees: FeeSchedule, c: ConnId, req: Request, settled: bool): System {
    var m1 := Handle(sys, fees, Received(c, req));
    var m2 := Handle(m1, fees, Stepped(c, RemoveEntry));
    Handle(m2, fees, Stepped(c, if settled then Settle else PutBack))
  }

  /** One recorded send: on the connection's list and in the entry, once. */
  lemma RecordStep(sys: System, fees: FeeSchedule, c: ConnId, id: SwapId, txid: Txid)
    requires c in sys.sessions && sys.sessions[c].job.Sending? && sys.sessions[c].conn.swapId == Some(id) && id in sys.swaps
    ensures var conn, later := sys.sessions[c].conn, Handle(sys, fees, Stepped(c, Record(txid)));
            && later.sessions == sys.sessions[c := Session(conn.(fundingBroadcast := Listed(conn.fundingBroadcast, txid)), Sending)]
            && id in later.swaps && later.swaps == sys.swaps[id := later.swaps[id]] && later.clock == sys.clock
            && later.swaps[id] == sys.swaps[id].(fundingBroadcast := Listed(sys.swaps[id].fundingBroadcast, txid), lastActivity := sys.clock)
  {
  }

  /** The list goes on from the first one, and names exactly what that one named and the new transactions, none twice that was not. */
  ghost predicate Continues(before: seq<Txid>, after: seq<Txid>, txids: seq<Txid>) {
    before <= after && (forall txid :: txid in after <==> txid in before || txid in txids) && (NoRepeats(before) ==> NoRepeats(after))
  }

  lemma {:induction false} RecordsAll(sys: System, fees: FeeSchedule, c: ConnId, id: SwapId, txids: seq<Txid>)
    requires c in sys.sessions && sys.sessions[c].job.Sending? && sys.sessions[c].conn.swapId == Some(id) && id in sys.swaps
    ensures var conn, later := sys.sessions[c].conn, RecordAll(sys, fees, c, txids);
            && c in later.sessions && later.sessions == sys.sessions[c := later.sessions[c]] && later.sessions[c].job.Sending?
            && Continues(conn.fundingBroadcast, later.sessions[c].conn.fundingBroadcast, txids)
            && later.sessions[c].conn == conn.(fundingBroadcast := later.sessions[c].conn.fundingBroadcast)
            && id in later.swaps && later.swaps == sys.swaps[id := later.swaps[id]] && later.swaps[id].startTime == sys.swaps[id].startTime
            && later.clock == sys.clock
    decreases |txids|
  {
    hide Handle, Listed, Continues;
    if txids == [] {
      NothingListed(sys.sessions[c].conn.fundingBroadcast);
    } else {
      var earlier, txid := txids[..|txids| - 1], txids[|txids| - 1];
      var m := RecordAll(sys, fees, c, earlier);
      RecordsAll(sys, fees, c, id, earlier);
      RecordStep(m, fees, c, id, txid);
      OneMoreListed(sys.sessions[c].conn.fundingBroadcast, m.sessions[c].conn.fundingBroadcast, earlier, txid);
      assert txids == earlier + [txid];
    }
  }

  lemma NothingListed(list: seq<Txid>)
    ensures Continues(list, list, [])
  {
  }

  lemma OneMoreListed(before: seq<Txid>, after: seq<Txid>, txids: seq<Txid>, txid: Txid)
    requires Continues(before, after, txids)
    ensures Continues(before, Listed(after, txid), txids + [txid])
  {
  }

  lemma RefusedStoreCloses(sys: System, fees: FeeSchedule, c: ConnId, id: SwapId)
    requires c in sys.sessions && sys.sessions[c].job.Checking? && sys.sessions[c].conn.swapId == Some(id) && sys.sessions[c].conn.phase != Completed
    requires id !in sys.swaps || sys.swaps[id].startTime != sys.sessions[c].conn.startTime
    ensures Handle(sys, fees, Stepped(c, StoreNow)) == Close(sys, c)
  {
  }

  lemma VerifyStep(sys: System, fees: FeeSchedule, c: ConnId, id: SwapId, ok: bool)
    requires c in sys.sessions && sys.sessions[c].job.Verifying? && sys.sessions[c].conn.swapId == Some(id)
    ensures Handle(sys, fees, Stepped(c, Verify(ok)))
            == if ok then Continue(sys, c, sys.sessions[c].conn, Sending) else Close(sys.(swaps := sys.swaps - {id}), c)
  {
  }

  lemma {:induction false} ClosedRecords(sys: System, fees: FeeSchedule, c: ConnId, txids: seq<Txid>)
    requires c !in sys.sessions
    ensures RecordAll(sys, fees, c, txids) == sys
    decreases |txids|
  {
    if txids != [] {
      ClosedRecords(sys, fees, c, txids[..|txids| - 1]);
      ClosedIgnores(sys, fees, c, Record(txids[|txids| - 1]));
    }
  }

  lemma FinishStep(sys: System, fees: FeeSchedule, c: ConnId, id: SwapId)
    requires c in sys.sessions && sys.sessions[c].job.Sending? && sys.sessions[c].conn.swapId == Some(id)
    requires id in sys.swaps && sys.swaps[id].startTime == sys.sessions[c].conn.startTime
    ensures var conn, later := sys.sessions[c].conn, Handle(sys, fees, Stepped(c, Finish));
            c in later.sessions && id in later.swaps && later.swaps == sys.swaps[id := later.swaps[id]] && FinishedAs(conn, later.swaps[id])
  {
    FinishIsStored(sys, fees, c, id);
  }

  /** The entry is the connection's own swap, all of it sent. */
  predicate FinishedAs(conn: Connection, entry: SwapState) {
    && entry.phase == AwaitingPrivateKeyHandover && entry.incoming == conn.incoming && entry.outgoing == conn.outgoing
    && entry.pendingFunding == (if conn.terms.protocol.Legacy? then [] else conn.pendingFunding)
    && entry.fundingBroadcast == conn.fundingBroadcast && entry.startTime == conn.startTime
  }

  /**
   Contract signatures that nothing interrupts: handled exactly on a live admission of the
   connection's own; good ones leave the swap sent and recorded, bad ones remove it, and anything
   else changes nothing but closes the connection.
   */
  lemma SigsExactly(sys: System, fees: FeeSchedule, c: ConnId, id: SwapId, ok: bool, txids: seq<Txid>)
    requires Agreement(sys, fees) && c in sys.sessions && sys.sessions[c].job.Listening?
    ensures SigsHandled(sys, SigsAlone(sys, fees, c, id, ok, txids), c, id, ok, txids)
  {
    hide Handle, Dispatched, Agreement, Written;
    var r := Dispatched(sys.sessions[c].conn, sys.swaps, ContractSigs(id));
    WorkArrives(sys, fees, c, ContractSigs(id));
    if r.Ok? {
      DispatchAgrees(sys, fees, c, ContractSigs(id));
      var m1 := Continue(sys, c, r.value, Checking);
      var m2 := Handle(m1, fees, Stepped(c, StoreNow));
      if id in sys.swaps && sys.swaps[id].startTime == r.value.startTime {
        ChecksIn(m1, fees, c, id);
        WrittenKeeps(sys.swaps[id], r.value, sys.clock);
        VerifyStep(m2, fees, c, id, ok);
        var m3 := Handle(m2, fees, Stepped(c, Verify(ok)));
        if ok {
          RecordsAll(m3, fees, c, id, txids);
          var m4 := RecordAll(m3, fees, c, txids);
          FinishStep(m4, fees, c, id);
          var later := Handle(m4, fees, Stepped(c, Finish));
          assert later.swaps == sys.swaps[id := later.swaps[id]];
        } else {
          ClosedRecords(m3, fees, c, txids);
          ClosedIgnores(m3, fees, c, Finish);
          assert m3.swaps == sys.swaps - {id};
        }
      } else {
        RefusedStoreCloses(m1, fees, c, id);
        SigsClosed(m2, fees, c, ok, txids);
        assert m2.sessions == sys.sessions - {c};
      }
    } else {
      ClosedIgnores(Close(sys, c), fees, c, StoreNow);
      SigsClosed(Close(sys, c), fees, c, ok, txids);
    }
  }

  lemma WrittenKeeps(entry: SwapState, conn: Connection, now: nat)
    ensures Written(entry, conn, None, now).startTime == conn.startTime
  {
  }

  lemma SigsClosed(sys: System, fees: FeeSchedule, c: ConnId, ok: bool, txids: seq<Txid>)
    requires c !in sys.sessions
    ensures Handle(RecordAll(Handle(sys, fees, Stepped(c, Verify(ok))), fees, c, txids), fees, Stepped(c, Finish)) == sys
  {
    hide Handle;
    ClosedIgnores(sys, fees, c, Verify(ok));
    ClosedRecords(sys, fees, c, txids);
    ClosedIgnores(sys, fees, c, Finish);
  }

  ghost predicate SigsHandled(sys: System, later: System, c: ConnId, id: SwapId, ok: bool, txids: seq<Txid>)
    requires c in sys.sessions
  {
    var r := Dispatched(sys.sessions[c].conn, sys.swaps, ContractSigs(id));
    if !(r.Ok? && id in sys.swaps && sys.swaps[id].startTime == r.value.startTime) then
      later.swaps == sys.swaps && later.sessions == sys.sessions - {c}
    else if !ok then later.swaps == sys.swaps - {id} && later.sessions == sys.sessions - {c}
    else
      && c in later.sessions && id in later.swaps && later.swaps == sys.swaps[id := later.swaps[id]]
      && Continues(r.value.fundingBroadcast, later.swaps[id].fundingBroadcast, txids)
      && FinishedAs(r.value.(fundingBroadcast := later.swaps[id].fundingBroadcast), later.swaps[id])
  }

  /** A handover that nothing interrupts ends the entry of its id, or leaves it completed with its coins for recovery. */
  lemma HandoverExactly(sys: System, fees: FeeSchedule, c: ConnId, req: Request, settled: bool)
    requires Agreement(sys, fees) && c in sys.sessions && sys.sessions[c].job.Listening? && req.Handover?
    ensures HandoverHandled(sys, HandoverAlone(sys, fees, c, req, settled), c, req, settled)
  {
    hide Handle, Dispatched, Agreement;
    var r := Dispatched(sys.sessions[c].conn, sys.swaps, req);
    WorkArrives(sys, fees, c, req);
    var last := if settled then Settle else PutBack;
    if r.Ok? && r.value.outgoing != [] {
      DispatchAgrees(sys, fees, c, req);
      EndsHandover(Continue(sys, c, r.value.(phase := Completed), Completing), fees, c, req.id, settled);
    } else {
      ClosedIgnores(Close(sys, c), fees, c, RemoveEntry);
      ClosedIgnores(Close(sys, c), fees, c, last);
    }
  }

  lemma EndsHandover(sys: System, fees: FeeSchedule, c: ConnId, id: SwapId, settled: bool)
    requires c in sys.sessions && sys.sessions[c].job.Completing? && sys.sessions[c].conn.swapId == Some(id) && sys.sessions[c].conn.phase == Completed
    ensures var conn, later := sys.sessions[c].conn, Handle(Handle(sys, fees, Stepped(c, RemoveEntry)), fees, Stepped(c, if settled then Settle else PutBack));
            && later.sessions == sys.sessions - {c}
            && (if settled then later.swaps == sys.swaps - {id}
                else id in later.swaps && later.swaps == (sys.swaps - {id})[id := later.swaps[id]] && PutBackAs(conn, later.swaps[id]))
  {
    var m1 := Handle(sys, fees, Stepped(c, RemoveEntry));
    assert m1 == Continue(sys.(swaps := sys.swaps - {id}), c, sys.sessions[c].conn, Settling);
    assert m1.sessions - {c} == sys.sessions - {c};
  }

  /** Completed, with the connection's coins and identity; claims and heights are gone. */
  predicate PutBackAs(conn: Connection, entry: SwapState) {
    && entry.phase == Completed && entry.incoming == conn.incoming && entry.outgoing == conn.outgoing && entry.startTime == conn.startTime
    && entry.negotiated == conn.terms && entry.claimedIncoming == [] && entry.claimedPlan == [] && entry.fundingHeight == None
  }

  predicate HandoverHandled(sys: System, later: System, c: ConnId, req: Request, settled: bool)
    requires c in sys.sessions && req.Handover?
  {
    var r := Dispatched(sys.sessions[c].conn, sys.swaps, req);
    later.sessions == sys.sessions - {c}
    && if !(r.Ok? && r.value.outgoing != []) then later.swaps == sys.swaps
       else if settled then later.swaps == sys.swaps - {req.id}
       else req.id in later.swaps && later.swaps == (sys.swaps - {req.id})[req.id := later.swaps[req.id]]
            && PutBackAs(r.value.(phase := Completed), later.swaps[req.id])
  }

  /** The maker's connections over the stored swaps: each section of a handler updates its session in place. */
  class MakerServer {
    const registry: SwapRegistry
    var sessions: map<ConnId, Session>
    var clock: nat
    ghost var admitted: map<nat, Admission>

    ghost function View(): System
      reads this, registry
    {
      System(registry.swaps, sessions, clock, admitted)
    }

    constructor (registry: SwapRegistry)
      requires registry.swaps == map[]
      ensures this.registry == registry && View() == EMPTY
    {
      this.registry, sessions, clock, admitted := registry, map[], 0, map[];
    }

    /** `restore_state_if_needed`. */
    method RestoreStateIfNeeded(conn: Connection, id: SwapId) returns (r: Result<Connection>)
      ensures r == Restore(conn, id, registry.swaps)
    {
      if (conn.terms.swapAmount == 0 || conn.outgoing == []) && id in registry.swaps {
        var stored := registry.swaps[id];
        if conn.swapId == Some(id) && conn.startTime != stored.startTime {
          return Err("Swap plan expired; the taker must send new SwapDetails");
        }
        return Ok(conn.(swapId := Some(id), terms := stored.negotiated, phase := stored.phase, incoming := stored.incoming,
                        outgoing := stored.outgoing, pendingFunding := stored.pendingFunding, fundingBroadcast := stored.fundingBroadcast,
                        serviceFee := stored.serviceFee, fundingPlan := stored.fundingPlan, startTime := stored.startTime));
      }
      return Ok(conn);
    }

    /** The checks every protocol handler starts with. */
    method DispatchMessage(conn: Connection, req: Request) returns (r: Result<Connection>)
      requires IsWork(req)
      ensures r == Dispatched(conn, registry.swaps, req)
    {
      r := RestoreStateIfNeeded(conn, req.id);
      if r.Err? {
        return;
      }
      var (protocol, phases) := PhasesFor(req);
      if r.value.terms.protocol != protocol {
        return Err("Protocol mismatch");
      }
      if r.value.phase !in phases {
        return Err("Unexpected phase");
      }
      if r.value.swapId.Some? && r.value.swapId != Some(req.id) {
        return Err("Swap ID mismatch");
      }
    }

    /** A protocol message arrives. */
    method MessageReceived(fees: FeeSchedule, c: ConnId, req: Request)
      requires c in sessions && sessions[c].job.Listening? && IsWork(req)
      modifies this
      ensures View() == Handle(old(View()), fees, Received(c, req))
    {
      var r := DispatchMessage(sessions[c].conn, req);
      if r.Err? || (req.Handover? && r.value.outgoing == []) {
        sessions := sessions - {c};
        return;
      }
      var session := Session(r.value, Listening);
      if req.SenderSigs? {
        session := session.(job := Signing);
      } else if req.ContractData? {
        session := Session(r.value.(incoming := req.coins), Job.Claiming);
      } else if req.ContractSigs? {
        session := session.(job := Checking);
      } else if req.Handover? {
        session := Session(r.value.(phase := Completed), Completing);
      }
      sessions := sessions[c := session];
    }

    /** `handle_swap_details`: admit, or resend an admission that is live, and read the stored plan back. */
    method SwapDetailsReceived(fees: FeeSchedule, c: ConnId, req: Request)
      requires req.SwapDetails? && c in sessions && sessions[c].job.Listening?
      modifies this, registry
      ensures View() == DetailsAlone(old(View()), fees, c, req)
    {
      var conn := sessions[c].conn;
      if conn.phase != AwaitingSwapDetails {
        sessions := sessions - {c};
        return;
      }
      if !req.valid {
        return;
      }
      DetailsInOne(View(), fees, c, req);
      var asked := Asked(conn, req.id, req.terms, fees(req.terms), clock);
      ghost var before := registry.swaps;
      var accepted := registry.StoreConnectionState(req.id, asked, true, req.persistedOpen, req.plan, clock);
      if !accepted {
        conn := conn.(swapId := None, terms := ZERO_TERMS.(protocol := req.terms.protocol), startTime := clock, serviceFee := 0, fundingPlan := []);
      } else {
        var stored := registry.swaps[req.id];
        conn := asked.(fundingPlan := stored.fundingPlan, startTime := stored.startTime);
        if req.id !in before {
          admitted := admitted[clock := Admission(req.id, req.terms, fees(req.terms), stored.fundingPlan)];
        }
      }
      sessions := sessions[c := Session(conn, Listening)];
      clock := clock + 1;
    }

    /** A store of the session; a refusal closes it. */
    method StoreSession(fees: FeeSchedule, c: ConnId, step: Step)
      requires step.StoreNow? || step.StoreBuilt? || step.Finish?
      modifies this, registry
      ensures View() == Handle(old(View()), fees, Stepped(c, step))
    {
      if c !in sessions || !Stores(sessions[c].job, step) || sessions[c].conn.swapId.None? {
        return;
      }
      StoreSectionIs(View(), fees, c, step);
      hide SectionFor, StoreOutcome, Written;
      var Session(conn, job) := sessions[c];
      var stored := ToStore(conn, job, fees, step);
      var accepted := registry.StoreConnectionState(conn.swapId.value, stored, false, false, Err(""), clock);
      if accepted {
        sessions := sessions[c := Session(stored, AfterStore(conn, job))];
      } else {
        sessions := sessions - {c};
      }
    }

    method ClaimContracts(fees: FeeSchedule, c: ConnId)
      modifies this, registry
      ensures View() == Handle(old(View()), fees, Stepped(c, Claim))
    {
      if c !in sessions || sessions[c].job != Job.Claiming || sessions[c].conn.swapId.None? {
        return;
      }
      var conn := sessions[c].conn;
      var accepted := registry.ClaimIncomingContractTxids(conn.swapId.value, TxidsOf(conn.incoming), clock);
      sessions := if accepted then sessions[c := Session(conn, Waiting)] else sessions - {c};
    }

    method ConfirmFunding(fees: FeeSchedule, c: ConnId, height: Option<nat>)
      modifies this, registry
      ensures View() == Handle(old(View()), fees, Stepped(c, Confirm(height)))
    {
      if c !in sessions || !sessions[c].job.Waiting? || sessions[c].conn.swapId.None? {
        return;
      }
      if height.Some? {
        registry.SetHeight(sessions[c].conn.swapId.value, height.value);
      }
      sessions := sessions[c := Session(sessions[c].conn, Building)];
    }

    method ClaimPlan(fees: FeeSchedule, c: ConnId, plan: Option<seq<SplitPlan>>)
      modifies this, registry
      ensures View() == Handle(old(View()), fees, Stepped(c, Plan(plan)))
    {
      if c !in sessions || !sessions[c].job.Building? || sessions[c].conn.swapId.None? {
        return;
      }
      var conn := sessions[c].conn;
      if conn.swapId.value !in registry.swaps {
        sessions := sessions - {c};
        return;
      }
      if plan.Some? {
        registry.SetClaimed(conn.swapId.value, plan.value);
      }
      sessions := sessions[c := Session(conn, Built)];
    }

    /** A failed build gives the claimed plan up and closes the connection. */
    method ReleasePlan(fees: FeeSchedule, c: ConnId)
      modifies this, registry
      ensures View() == Handle(old(View()), fees, Stepped(c, Unplan))
    {
      if c !in sessions || !sessions[c].job.Built? || sessions[c].conn.swapId.None? {
        return;
      }
      registry.SetClaimed(sessions[c].conn.swapId.value, []);
      sessions := sessions - {c};
    }

    /** Signatures that do not verify remove the entry by id. */
    method VerifySignatures(fees: FeeSchedule, c: ConnId, ok: bool)
      modifies this, registry
      ensures View() == Handle(old(View()), fees, Stepped(c, Verify(ok)))
    {
      if c !in sessions || !sessions[c].job.Verifying? || sessions[c].conn.swapId.None? {
        return;
      }
      if ok {
        sessions := sessions[c := Session(sessions[c].conn, Sending)];
      } else {
        registry.RemoveSwapState(sessions[c].conn.swapId.value);
        sessions := sessions - {c};
      }
    }

    method RecordSend(fees: FeeSchedule, c: ConnId, txid: Txid)
      modifies this, registry
      ensures View() == Handle(old(View()), fees, Stepped(c, Record(txid)))
    {
      if c !in sessions || !sessions[c].job.Sending? || sessions[c].conn.swapId.None? {
        return;
      }
      var conn := sessions[c].conn;
      var spent := registry.RecordFundingBroadcast(conn.swapId.value, txid, clock);
      sessions := if spent.Some? then sessions[c := Session(Recorded(conn, txid), Sending)] else sessions - {c};
    }

    method RemoveCompleted(fees: FeeSchedule, c: ConnId)
      modifies this, registry
      ensures View() == Handle(old(View()), fees, Stepped(c, RemoveEntry))
    {
      if c !in sessions || !sessions[c].job.Completing? || sessions[c].conn.swapId.None? {
        return;
      }
      registry.RemoveSwapState(sessions[c].conn.swapId.value);
      sessions := sessions[c := Session(sessions[c].conn, Settling)];
    }

    /** The connection ends; a swap that did not settle is put back for recovery. */
    method EndSettling(fees: FeeSchedule, c: ConnId, settled: bool)
      modifies this, registry
      ensures View() == Handle(old(View()), fees, Stepped(c, if settled then Settle else PutBack))
    {
      if c !in sessions || !sessions[c].job.Settling? || sessions[c].conn.swapId.None? {
        return;
      }
      if !settled {
        var _ := registry.StoreConnectionState(sessions[c].conn.swapId.value, sessions[c].conn, false, false, Err(""), clock);
      }
      sessions := sessions - {c};
    }

    /** The key handover and the completion path of the server loop. */
    method HandoverReceived(fees: FeeSchedule, c: ConnId, req: Request, settled: bool)
      requires c in sessions && sessions[c].job.Listening? && req.Handover?
      modifies this, registry
      ensures View() == HandoverAlone(old(View()), fees, c, req, settled)
      ensures old(Agreement(View(), fees)) ==> HandoverHandled(old(View()), View(), c, req, settled)
    {
      if Agreement(View(), fees) {
        HandoverExactly(View(), fees, c, req, settled);
      }
      hide Handle;
      MessageReceived(fees, c, req);
      RemoveCompleted(fees, c);
      EndSettling(fees, c, settled);
    }

    /** `process_proof_of_funding`, and contract data up to its first store; `last` is that store, or a failed build. */
    method ProofReceived(fees: FeeSchedule, c: ConnId, req: Request, height: Option<nat>, plan: Option<seq<SplitPlan>>, last: Step)
      requires c in sessions && sessions[c].job.Listening? && req.ContractData? && (last.StoreBuilt? || last.Unplan?)
      modifies this, registry
      ensures View() == ProofAlone(old(View()), fees, c, req, height, plan, last)
      ensures old(Agreement(View(), fees)) && last.StoreBuilt? ==>
                var r := old(Dispatched(sessions[c].conn, registry.swaps, req));
                && (c in sessions <==> r.Ok? && old(ClaimAccepted(registry.swaps, req.id, TxidsOf(req.coins)))
                                       && old(registry.swaps)[req.id].startTime == r.value.startTime)
                && (c in sessions ==> ProofStored(old(View()), View(), fees, c, r.value, req, height, plan, last.outgoing, last.pending))
    {
      if Agreement(View(), fees) && last.StoreBuilt? {
        ProofExactly(View(), fees, c, req, height, plan, last.outgoing, last.pending);
      }
      hide Handle;
      MessageReceived(fees, c, req);
      ClaimContracts(fees, c);
      ConfirmFunding(fees, c, height);
      ClaimPlan(fees, c, plan);
      if last.StoreBuilt? {
        StoreSession(fees, c, last);
      } else {
        ReleasePlan(fees, c);
      }
    }

    /** `process_resp_contract_sigs_for_recvr_and_sender` over the stored swaps; `txids` are the sends it records. */
    method ContractSigsReceived(fees: FeeSchedule, c: ConnId, id: SwapId, ok: bool, txids: seq<Txid>)
      requires c in sessions && sessions[c].job.Listening?
      modifies this, registry
      ensures View() == SigsAlone(old(View()), fees, c, id, ok, txids)
      ensures old(Agreement(View(), fees)) ==> SigsHandled(old(View()), View(), c, id, ok, txids)
    {
      if Agreement(View(), fees) {
        SigsExactly(View(), fees, c, id, ok, txids);
      }
      hide Handle;
      MessageReceived(fees, c, ContractSigs(id));
      StoreSession(fees, c, StoreNow);
      VerifySignatures(fees, c, ok);
      ghost var verified := View();
      for i := 0 to |txids|
        invariant View() == RecordAll(verified, fees, c, txids[..i])
      {
        assert txids[..i + 1][..i] == txids[..i];
        RecordSend(fees, c, txids[i]);
      }
      assert txids[..|txids|] == txids;
      StoreSession(fees, c, Finish);
    }
  }
}
