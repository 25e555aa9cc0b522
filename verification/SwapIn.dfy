/**
 Swap-in (`src/lightning/swap.rs`): the taker locks coins in an HTLC and is paid over Lightning
 by a hold invoice on the same hash; the maker learns the preimage from the settled payment and
 claims the coins.
 */
module SwapIn {
  import opened Common
  import opened Ledger
  import opened SwapHtlc

  const ROUTE_CLTV_MARGIN := 12

  datatype Params = Params(amount: nat, makerFee: nat, locktime: nat, minConfirmations: nat)

  datatype Request = Request(invoice: Bolt11, paymentHash: Hash, params: Params, timelockKey: PubKey)

  datatype Accept = Accept(hashlockKey: PubKey, locktime: nat, minConfirmations: nat)

  // ---------------------------------------------------------------- the messages

  function MakerAccepts(hashlockKey: PubKey, request: Request): (Accept, Htlc) {
    (Accept(hashlockKey, request.params.locktime, request.params.minConfirmations),
     NewHtlc(hashlockKey, request.timelockKey, request.paymentHash, request.params.locktime))
  }

  function TakerOnAccept(params: Params, paymentHash: Hash, timelockKey: PubKey, accept: Accept): Result<Htlc> {
    if accept.locktime != params.locktime || accept.minConfirmations != params.minConfirmations then Err("maker changed terms")
    else Ok(NewHtlc(accept.hashlockKey, timelockKey, paymentHash, accept.locktime))
  }

  /** Both roles build the same HTLC from one another's messages, for every request. */
  lemma SameHtlc(request: Request, hashlockKey: PubKey)
    ensures TakerOnAccept(request.params, request.paymentHash, request.timelockKey, MakerAccepts(hashlockKey, request).0)
            == Ok(MakerAccepts(hashlockKey, request).1)
  {
  }

  /** Whatever the maker answers, an accepted answer repeats the taker's terms, and the coins can come back to the taker's key alone. */
  lemma AcceptedAsAsked(params: Params, paymentHash: Hash, timelockKey: PubKey, accept: Accept)
    ensures var r := TakerOnAccept(params, paymentHash, timelockKey, accept);
            && (r.Ok? <==> accept.locktime == params.locktime && accept.minConfirmations == params.minConfirmations)
            && (r.Ok? ==> && r.value.hashlock == accept.hashlockKey && r.value.timelock == timelockKey
                          && r.value.hashvalue == Ripemd160(paymentHash) && r.value.locktime == params.locktime)
  {
  }

  /** The route bound the maker asks for; none when the lock time leaves no room above the margin. */
  function CltvBound(locktime: nat): Option<nat> {
    if locktime > ROUTE_CLTV_MARGIN then Some(locktime - ROUTE_CLTV_MARGIN) else None
  }

  /** `verify_invoice`: the text commits to the hash and to exactly this amount. */
  predicate VerifyInvoice(invoice: Bolt11, hash: Hash, msat: nat) {
    invoice.hash == hash && invoice.amount == Some(msat)
  }

  // ---------------------------------------------------------------- draining a node's events

  /** How many events are popped up to and including the first wanted one. */
  function Popped(queue: seq<LnEvent>, wanted: LnEvent -> bool): (n: nat)
    ensures n <= |queue|
  {
    if queue == [] then 0 else if wanted(queue[0]) then 1 else 1 + Popped(queue[1..], wanted)
  }

  function Found(queue: seq<LnEvent>, wanted: LnEvent -> bool): Option<LnEvent> {
    if queue == [] then None else if wanted(queue[0]) then Some(queue[0]) else Found(queue[1..], wanted)
  }

  function Drained(ledger: Ledger, node: NodeId, wanted: LnEvent -> bool): Ledger {
    var queue := Queue(ledger.queues, node);
    if queue == [] then ledger else ledger.(queues := ledger.queues[node := queue[Popped(queue, wanted)..]])
  }

  lemma {:induction false} FoundIsQueued(queue: seq<LnEvent>, wanted: LnEvent -> bool)
    ensures Found(queue, wanted).Some? ==> Found(queue, wanted).value in queue && wanted(Found(queue, wanted).value)
  {
    if queue != [] && !wanted(queue[0]) {
      FoundIsQueued(queue[1..], wanted);
    }
  }

  /** What is found is the first wanted event, and what is popped is everything up to it; without one, everything. */
  lemma {:induction false} FoundIsFirst(queue: seq<LnEvent>, wanted: LnEvent -> bool)
    ensures Found(queue, wanted).None? <==> forall i :: 0 <= i < |queue| ==> !wanted(queue[i])
    ensures Found(queue, wanted).None? ==> Popped(queue, wanted) == |queue|
    ensures Found(queue, wanted).Some? ==>
              var n := Popped(queue, wanted);
              0 < n <= |queue| && Found(queue, wanted) == Some(queue[n - 1]) && wanted(queue[n - 1])
              && forall i :: 0 <= i < n - 1 ==> !wanted(queue[i])
  {
    if queue != [] && !wanted(queue[0]) {
      FoundIsFirst(queue[1..], wanted);
      assert forall i :: 0 < i < |queue| ==> queue[i] == queue[1..][i - 1];
      forall i | 0 <= i < Popped(queue, wanted) - 1
        ensures !wanted(queue[i])
      {
        assert i > 0 ==> queue[i] == queue[1..][i - 1];
      }
    }
  }

  /** Events that are not wanted are passed over. */
  lemma {:induction false} FoundLater(queue: seq<LnEvent>, more: seq<LnEvent>, wanted: LnEvent -> bool)
    requires forall i :: 0 <= i < |queue| ==> !wanted(queue[i])
    ensures Found(queue + more, wanted) == Found(more, wanted) && Popped(queue + more, wanted) == |queue| + Popped(more, wanted)
    decreases |queue|
  {
    if queue == [] {
      assert queue + more == more;
    } else {
      assert (queue + more)[1..] == queue[1..] + more;
      FoundLater(queue[1..], more, wanted);
    }
  }

  /** Polls until a wanted event or an empty queue. */
  method PollUntil(ledger: SharedLedger, node: NodeId, wanted: LnEvent -> bool) returns (event: Option<LnEvent>)
    modifies ledger
    ensures ledger.View() == Drained(old(ledger.View()), node, wanted)
    ensures event == Found(Queue(old(ledger.queues), node), wanted)
  {
    var left := |Queue(ledger.queues, node)|;
    ghost var start := ledger.View();
    ghost var popped := 0;
    while true
      invariant left == |Queue(ledger.queues, node)| && popped + left == |Queue(start.queues, node)|
      invariant Queue(ledger.queues, node) == Queue(start.queues, node)[popped..]
      invariant if popped == 0 then ledger.View() == start
                else ledger.View() == start.(queues := start.queues[node := Queue(ledger.queues, node)])
      invariant Popped(Queue(start.queues, node), wanted) == popped + Popped(Queue(ledger.queues, node), wanted)
      invariant Found(Queue(start.queues, node), wanted) == Found(Queue(ledger.queues, node), wanted)
      decreases left
    {
      event := ledger.Poll(node);
      if event.None? {
        return;
      }
      popped, left := popped + 1, left - 1;
      if wanted(event.value) {
        return;
      }
    }
  }

  // ---------------------------------------------------------------- the roles

  predicate IsClaimable(event: LnEvent, hash: Hash) {
    event.PaymentClaimable? && event.hash == hash
  }

  predicate IsSuccess(event: LnEvent, hash: Hash) {
    event.PaymentSuccessful? && event.hash == hash && event.preimage.Some?
  }

  function WantClaimable(hash: Hash): LnEvent -> bool {
    e => IsClaimable(e, hash)
  }

  function WantSuccess(hash: Hash): LnEvent -> bool {
    e => IsSuccess(e, hash)
  }

  class SwapInTaker {
    const ledger: SharedLedger
    const node: NodeId
    const params: Params
    const preimage: Preimage
    const timelockKey: PubKey
    var htlc: Option<Htlc>

    /** The HTLC gives the coins back to the taker's key, after the agreed lock time. */
    ghost predicate Valid()
      reads this
    {
      htlc.Some? ==> htlc.value.timelock == timelockKey && htlc.value.locktime == params.locktime
    }

    constructor (ledger: SharedLedger, node: NodeId, params: Params, preimage: Preimage, timelockKey: PubKey)
      ensures this.ledger == ledger && this.node == node && this.params == params && this.preimage == preimage
      ensures this.timelockKey == timelockKey && htlc == None && Valid()
    {
      this.ledger, this.node, this.params, this.preimage, this.timelockKey, htlc := ledger, node, params, preimage, timelockKey, None;
    }

    /** Registers a hold invoice over exactly the swap amount and asks the maker to pay it. */
    method MakeRequest(stamp: nat) returns (r: Result<Request>)
      modifies ledger
      ensures ledger.View() == CreateHoldInvoice(old(ledger.View()), node, Sha256(preimage), Some(params.amount * 1000), stamp)
      ensures r.Ok? <==> Sha256(preimage) !in old(ledger.invoices)
      ensures r.Ok? ==> r.value == Request(Bolt11(Sha256(preimage), Some(params.amount * 1000), node, stamp), Sha256(preimage), params, timelockKey)
    {
      var created := ledger.CreateHold(node, Sha256(preimage), Some(params.amount * 1000), stamp);
      if !created {
        return Err("invoice already exists");
      }
      return Ok(Request(Bolt11(Sha256(preimage), Some(params.amount * 1000), node, stamp), Sha256(preimage), params, timelockKey));
    }

    method OnAccept(accept: Accept) returns (r: Result<Htlc>)
      requires Valid()
      modifies this`htlc
      ensures Valid()
      ensures r == TakerOnAccept(params, Sha256(preimage), timelockKey, accept)
      ensures htlc == if r.Ok? then Some(r.value) else old(htlc)
    {
      if accept.locktime != params.locktime || accept.minConfirmations != params.minConfirmations {
        return Err("maker changed terms");
      }
      htlc := Some(NewHtlc(accept.hashlockKey, timelockKey, Sha256(preimage), accept.locktime));
      return Ok(htlc.value);
    }

    /** Claims the held payment once it has arrived; other events are dropped on the way. */
    method TryClaim() returns (r: Result<bool>)
      modifies ledger
      ensures var before := old(ledger.View());
              var arrived := Found(Queue(before.queues, node), WantClaimable(Sha256(preimage))).Some?;
              var drained := Drained(before, node, WantClaimable(Sha256(preimage)));
              && ledger.View() == (if arrived then ClaimHeldPayment(drained, preimage) else drained)
              && (r == Ok(true) <==> arrived && Claimable(before, Sha256(preimage))) && (r == Ok(false) <==> !arrived)
    {
      var event := PollUntil(ledger, node, WantClaimable(Sha256(preimage)));
      if event.None? {
        return Ok(false);
      }
      var claimed := ledger.ClaimHeld(preimage);
      return if claimed then Ok(true) else Err("PaymentNotFound");
    }

    /** A refund of the whole value less the fee that the script accepts exactly from the lock time on, and that reveals nothing. */
    method RefundTx(outpoint: nat, value: nat) returns (r: Result<Transaction>)
      requires Valid()
      ensures r.Ok? <==> htlc.Some? && value >= SPEND_FEE
      ensures r.Ok? ==> |r.value.inputs| == 1 && r.value.inputs[0].outpoint == outpoint && r.value.value == value - SPEND_FEE
      ensures r.Ok? ==> ExtractPreimage(htlc.value, r.value.inputs) == None
      ensures r.Ok? ==> forall age: nat :: Satisfies(htlc.value, r.value.inputs[0], age) <==> age >= params.locktime
    {
      if htlc.None? {
        return Err("refund_tx before on_accept");
      }
      if value >= SPEND_FEE {
        forall age: nat {
          TimelockSpendWaits(htlc.value, outpoint, value, age);
        }
      }
      return TimelockSpend(htlc.value, outpoint, value, timelockKey);
    }
  }

  class SwapInMaker {
    const ledger: SharedLedger
    const node: NodeId
    const hashlockKey: PubKey
    var request: Option<Request>
    var htlc: Option<Htlc>
    var preimage: Option<Preimage>

    /** Accepting comes first, and fixes the HTLC. */
    ghost predicate Valid()
      reads this
    {
      && (request.Some? ==> htlc == Some(MakerAccepts(hashlockKey, request.value).1))
      && (request.None? ==> htlc.None? && preimage.None?)
    }

    /** The learned preimage opens the accepted hash; a second accept may leave an older one behind. */
    ghost predicate Learned()
      reads this
    {
      request.Some? && preimage.Some? && Sha256(preimage.value) == request.value.paymentHash
    }

    constructor (ledger: SharedLedger, node: NodeId, hashlockKey: PubKey)
      ensures this.ledger == ledger && this.node == node && this.hashlockKey == hashlockKey
      ensures Valid() && request == None
    {
      this.ledger, this.node, this.hashlockKey, request, htlc, preimage := ledger, node, hashlockKey, None, None, None;
    }

    method AcceptRequest(asked: Request) returns (accept: Accept)
      requires Valid()
      modifies this
      ensures Valid() && request == Some(asked) && accept == MakerAccepts(hashlockKey, asked).0 && preimage == old(preimage)
    {
      accept := Accept(hashlockKey, asked.params.locktime, asked.params.minConfirmations);
      htlc := Some(NewHtlc(hashlockKey, asked.timelockKey, asked.paymentHash, asked.params.locktime));
      request := Some(asked);
    }

    /** The funding pays the agreed script exactly amount plus fee, as announced, and is confirmed often enough. */
    method VerifyHtlc(announced: nat, script: Htlc, value: nat, confirmations: nat) returns (ok: bool)
      requires Valid()
      ensures ok <==> request.Some? && announced == value && script == htlc.value
                      && value == request.value.params.amount + request.value.params.makerFee
                      && confirmations >= request.value.params.minConfirmations
    {
      if request.None? || announced != value {
        return false;
      }
      return script == htlc.value && value == request.value.params.amount + request.value.params.makerFee
             && confirmations >= request.value.params.minConfirmations;
    }

    /** Pays the requested invoice over a route bounded below the refund. */
    method Pay() returns (r: Result<nat>)
      requires Valid()
      modifies ledger
      ensures r.Ok? <==> request.Some? && request.value.params.locktime > 12 && Payable(old(ledger.View()), request.value.invoice, None)
      ensures r.Ok? ==> r.value == request.value.params.locktime - 12
      ensures ledger.View() == if request.Some? && CltvBound(request.value.params.locktime).Some?
                               then PayInvoice(old(ledger.View()), node, request.value.invoice, None) else old(ledger.View())
    {
      if request.None? {
        return Err("pay_invoice before accept");
      }
      var bound := CltvBound(request.value.params.locktime);
      if bound.None? {
        return Err("locktime leaves no route budget above the margin");
      }
      var paid := ledger.Pay(node, request.value.invoice, None);
      return if paid then Ok(bound.value) else Err("invoice not payable");
    }

    /** Learns the preimage from the settlement of its payment; refused before accepting, and for a preimage of another hash. */
    method TryLearnPreimage() returns (r: Result<Option<Preimage>>)
      requires Valid()
      modifies this`preimage, ledger
      ensures Valid() && ledger.View() == if request.Some? then Drained(old(ledger.View()), node, WantSuccess(request.value.paymentHash)) else old(ledger.View())
      ensures r.Ok? ==> request.Some?
      ensures request.Some? ==>
                var found := Found(Queue(old(ledger.queues), node), WantSuccess(request.value.paymentHash));
                && (r == Ok(None) <==> found.None?)
                && (r.Ok? && r.value.Some? <==>
                      found.Some? && found.value.PaymentSuccessful? && found.value.preimage.Some?
                      && Sha256(found.value.preimage.value) == request.value.paymentHash)
                && (r.Ok? && r.value.Some? ==> found == Some(PaymentSuccessful(request.value.paymentHash, r.value)))
      ensures if r.Ok? && r.value.Some? then Learned() && preimage == r.value else preimage == old(preimage)
    {
      if request.None? {
        return Err("try_learn_preimage before accept");
      }
      var hash := request.value.paymentHash;
      var event := PollUntil(ledger, node, WantSuccess(hash));
      FoundIsQueued(Queue(old(ledger.queues), node), WantSuccess(hash));
      if event.None? {
        return Ok(None);
      }
      if Sha256(event.value.preimage.value) != hash {
        return Err("backend returned preimage not matching payment hash");
      }
      preimage := event.value.preimage;
      return Ok(preimage);
    }

    /** A claim of the accepted HTLC, which the script accepts exactly when the preimage was learned for it. */
    method ClaimTx(outpoint: nat, value: nat) returns (r: Result<Transaction>)
      requires Valid()
      ensures r.Ok? <==> htlc.Some? && preimage.Some? && value >= SPEND_FEE
      ensures r.Ok? ==> r == HashlockSpend(htlc.value, outpoint, value, hashlockKey, preimage.value)
      ensures r.Ok? ==> |r.value.inputs| == 1 && r.value.inputs[0].outpoint == outpoint && r.value.value == value - SPEND_FEE
      ensures r.Ok? ==> (Satisfies(htlc.value, r.value.inputs[0], 0) <==> Learned())
    {
      if htlc.None? || preimage.None? {
        return Err("claim_tx before preimage is learned");
      }
      return HashlockSpend(htlc.value, outpoint, value, hashlockKey, preimage.value);
    }
  }

  // ---------------------------------------------------------------- what a claim implies on the Lightning side

  lemma {:induction false} RunAppend(ledger: Ledger, first: seq<Operation>, more: seq<Operation>)
    ensures Run(ledger, first + more) == Run(Run(ledger, first), more)
    decreases |more|
  {
    if more == [] {
      assert first + more == first;
    } else {
      var fewer := more[..|more| - 1];
      assert (first + more)[..|first + more| - 1] == first + fewer;
      RunAppend(ledger, first, fewer);
    }
  }

  lemma NothingOpenYet()
    ensures OpenUnpaid(EMPTY)
  {
  }

  /** In every run, from the state after any prefix on, invoices only move forward. */
  lemma KeptSince(ops: seq<Operation>, cut: nat)
    requires FreshRun(ops) && cut <= |ops|
    ensures Kept(Run(EMPTY, ops[..cut]), Run(EMPTY, ops))
  {
    hide Run, Apply, Kept, OpenUnpaid, FreshHash;
    var first, more := ops[..cut], ops[cut..];
    assert ops == first + more;
    RunAppend(EMPTY, first, more);
    forall k | 0 <= k < cut
      ensures FreshHash(Run(EMPTY, first[..k]), first[k])
    {
      assert first[..k] == ops[..k];
    }
    NothingOpenYet();
    RunsMoveForward(EMPTY, first);
    forall k | 0 <= k < |more|
      ensures FreshHash(Run(Run(EMPTY, first), more[..k]), more[k])
    {
      RunAppend(EMPTY, first, more[..k]);
      assert first + more[..k] == ops[..cut + k];
      assert more[k] == ops[cut + k];
    }
    RunsMoveForward(Run(EMPTY, first), more);
  }

  /**
   The maker learns the preimage only when the taker's invoice is settled for exactly the swap
   amount: `cut` operations in, the taker's hold invoice was registered; whatever happens
   after, finding the success event means that this invoice is settled.
   */
  lemma LearnedMeansPaid(ops: seq<Operation>, cut: nat, maker: NodeId, taker: NodeId, hash: Hash, amount: nat)
    requires FreshRun(ops) && cut <= |ops|
    requires var invoices := Run(EMPTY, ops[..cut]).invoices;
             hash in invoices && invoices[hash].isHold && invoices[hash].owner == taker && invoices[hash].amount == Some(amount * 1000)
    requires Found(Queue(Run(EMPTY, ops).queues, maker), WantSuccess(hash)).Some?
    ensures hash in Run(EMPTY, ops).invoices
    ensures var invoice := Run(EMPTY, ops).invoices[hash];
            && invoice.status.Settled? && invoice.owner == taker && invoice.amount == Some(amount * 1000)
            && invoice.preimage.Some? && Sha256(invoice.preimage.value) == hash
  {
    var ledger := Run(EMPTY, ops);
    var event := Found(Queue(ledger.queues, maker), WantSuccess(hash)).value;
    FoundIsQueued(Queue(ledger.queues, maker), WantSuccess(hash));
    RunKeepsEmitted(ops);
    EmittedCounts(ledger.log, maker, hash, event.preimage);
    LedgerRefines(ops);
    assert HashAgrees(ledger, hash);
    KeptSince(ops, cut);
    assert Continues(Run(EMPTY, ops[..cut]).invoices[hash], ledger.invoices[hash]);
  }

  /** The run up to any point is one with fresh hashes too. */
  lemma FreshUpTo(ops: seq<Operation>, at: nat)
    requires FreshRun(ops) && at <= |ops|
    ensures FreshRun(ops[..at])
  {
    forall k | 0 <= k < at
      ensures FreshHash(Run(EMPTY, ops[..at][..k]), ops[..at][k])
    {
      assert ops[..at][..k] == ops[..k];
    }
  }

  /** What a node finds as the success of a payment carries a preimage of its hash. */
  lemma FoundPreimageMatches(ops: seq<Operation>, node: NodeId, hash: Hash)
    requires FreshRun(ops) && Found(Queue(Run(EMPTY, ops).queues, node), WantSuccess(hash)).Some?
    ensures var event := Found(Queue(Run(EMPTY, ops).queues, node), WantSuccess(hash)).value;
            event.PaymentSuccessful? && event.preimage.Some? && Sha256(event.preimage.value) == hash
  {
    hide Run;
    FoundIsQueued(Queue(Run(EMPTY, ops).queues, node), WantSuccess(hash));
    RunKeepsEmitted(ops);
    RunKeepsSuccesses(ops);
  }

  /**
   A claim means payment, for good: the maker that found the success after `at` operations can
   claim the HTLC with its preimage, and in every later state the taker's invoice, registered
   after `cut` operations, stays settled for exactly the swap amount.
   */
  lemma ClaimMeansPaid(ops: seq<Operation>, cut: nat, at: nat, maker: NodeId, taker: NodeId, request: Request, hashlockKey: PubKey,
                       preimage: Preimage, outpoint: nat, value: nat)
    requires FreshRun(ops) && cut <= at <= |ops| && value >= SPEND_FEE
    requires var invoices, hash := Run(EMPTY, ops[..cut]).invoices, request.paymentHash;
             hash in invoices && invoices[hash].isHold && invoices[hash].owner == taker && invoices[hash].amount == Some(request.params.amount * 1000)
    requires Found(Queue(Run(EMPTY, ops[..at]).queues, maker), WantSuccess(request.paymentHash))
             == Some(PaymentSuccessful(request.paymentHash, Some(preimage)))
    ensures var htlc := MakerAccepts(hashlockKey, request).1;
            Satisfies(htlc, HashlockSpend(htlc, outpoint, value, hashlockKey, preimage).value.inputs[0], 0)
    ensures request.paymentHash in Run(EMPTY, ops).invoices
    ensures var invoice := Run(EMPTY, ops).invoices[request.paymentHash];
            invoice.status.Settled? && invoice.owner == taker && invoice.amount == Some(request.params.amount * 1000)
  {
    hide Run;
    var hash := request.paymentHash;
    FreshUpTo(ops, at);
    FoundPreimageMatches(ops[..at], maker, hash);
    HashlockSpendReveals(MakerAccepts(hashlockKey, request).1, outpoint, value, preimage, 0);
    assert ops[..at][..cut] == ops[..cut];
    LearnedMeansPaid(ops[..at], cut, maker, taker, hash, request.params.amount);
    KeptSince(ops, at);
    assert Continues(Run(EMPTY, ops[..at]).invoices[hash], Run(EMPTY, ops).invoices[hash]);
  }

  // ---------------------------------------------------------------- what the maker pays for

  /** The ledger once the maker has paid the requested invoice and the payment is settled with `preimage`. */
  function Settlement(ledger: Ledger, maker: NodeId, request: Request, preimage: Preimage): Ledger {
    ClaimHeldPayment(PayInvoice(ledger, maker, request.invoice, None), preimage)
  }

  /** The latest entry credits the node with this amount for the hash. */
  predicate Credits(log: seq<Entry>, node: NodeId, hash: Hash, msat: nat) {
    log != [] && log[|log| - 1] == Emitted(node, PaymentReceived(hash, msat))
  }

  /** What settling the requested invoice adds to the maker's events. */
  lemma SettlementEvents(ledger: Ledger, maker: NodeId, request: Request, preimage: Preimage) returns (before: seq<LnEvent>, after: seq<LnEvent>)
    requires Payable(ledger, request.invoice, None) && InvoiceSound(request.invoice.hash, ledger.invoices[request.invoice.hash])
    requires Sha256(preimage) == request.invoice.hash
    ensures var hash, settled := request.invoice.hash, Settlement(ledger, maker, request, preimage);
            && Queue(settled.queues, maker) == Queue(ledger.queues, maker) + before + [PaymentSuccessful(hash, Some(preimage))] + after
            && (forall i :: 0 <= i < |before| ==> before[i].PaymentClaimable?)
            && request.invoice.amount.Some? && Credits(settled.log, ledger.invoices[hash].owner, hash, request.invoice.amount.value)
  {
    var hash, invoice := request.invoice.hash, ledger.invoices[request.invoice.hash];
    var amount, paid := invoice.amount.value, PayInvoice(ledger, maker, request.invoice, None);
    after := if invoice.owner == maker then [PaymentReceived(hash, amount)] else [];
    if invoice.isHold {
      before := if invoice.owner == maker then [PaymentClaimable(hash, amount)] else [];
      HoldPaid(ledger, maker, request.invoice, before);
      HoldSettled(paid, maker, preimage, after);
    } else {
      before := [];
      RegularPaid(ledger, maker, request.invoice, preimage, after);
    }
  }

  lemma HoldPaid(ledger: Ledger, maker: NodeId, text: Bolt11, before: seq<LnEvent>)
    requires Payable(ledger, text, None) && ledger.invoices[text.hash].isHold
    requires before == if ledger.invoices[text.hash].owner == maker then [PaymentClaimable(text.hash, ledger.invoices[text.hash].amount.value)] else []
    ensures var paid := PayInvoice(ledger, maker, text, None);
            && Queue(paid.queues, maker) == Queue(ledger.queues, maker) + before
            && paid.invoices == ledger.invoices[text.hash := ledger.invoices[text.hash].(payer := Some(maker), status := Held(ledger.invoices[text.hash].amount.value))]
  {
  }

  lemma HoldSettled(paid: Ledger, maker: NodeId, preimage: Preimage, after: seq<LnEvent>)
    requires Claimable(paid, Sha256(preimage)) && paid.invoices[Sha256(preimage)].payer == Some(maker)
    requires var invoice := paid.invoices[Sha256(preimage)];
             after == if invoice.owner == maker then [PaymentReceived(Sha256(preimage), invoice.status.amount)] else []
    ensures var settled, invoice := ClaimHeldPayment(paid, preimage), paid.invoices[Sha256(preimage)];
            && Queue(settled.queues, maker) == Queue(paid.queues, maker) + [PaymentSuccessful(Sha256(preimage), Some(preimage))] + after
            && Credits(settled.log, invoice.owner, Sha256(preimage), invoice.status.amount)
  {
  }

  lemma RegularPaid(ledger: Ledger, maker: NodeId, text: Bolt11, preimage: Preimage, after: seq<LnEvent>)
    requires Payable(ledger, text, None) && !ledger.invoices[text.hash].isHold && ledger.invoices[text.hash].preimage == Some(preimage)
    requires text.hash == Sha256(preimage)
    requires after == if ledger.invoices[text.hash].owner == maker then [PaymentReceived(text.hash, ledger.invoices[text.hash].amount.value)] else []
    ensures var settled := ClaimHeldPayment(PayInvoice(ledger, maker, text, None), preimage);
            && Queue(settled.queues, maker) == Queue(ledger.queues, maker) + [PaymentSuccessful(text.hash, Some(preimage))] + after
            && Credits(settled.log, ledger.invoices[text.hash].owner, text.hash, ledger.invoices[text.hash].amount.value)
  {
  }

  /** A node has no success of an unsettled invoice in its queue. */
  lemma NoSuccessBefore(ops: seq<Operation>, node: NodeId, hash: Hash)
    requires FreshRun(ops) && hash in Run(EMPTY, ops).invoices && Run(EMPTY, ops).invoices[hash].status.Open?
    ensures var queue := Queue(Run(EMPTY, ops).queues, node); forall i :: 0 <= i < |queue| ==> !IsSuccess(queue[i], hash)
  {
    hide Run;
    var ledger := Run(EMPTY, ops);
    var queue := Queue(ledger.queues, node);
    RunKeepsEmitted(ops);
    LedgerRefines(ops);
    assert HashAgrees(ledger, hash);
    forall i | 0 <= i < |queue|
      ensures !IsSuccess(queue[i], hash)
    {
      if IsSuccess(queue[i], hash) {
        EmittedCounts(ledger.log, node, hash, queue[i].preimage);
      }
    }
  }

  /**
   The maker pays whatever invoice the request names, without comparing it with the request.
   Settling that payment costs it exactly the agreed amount and gives it the preimage its claim
   needs exactly when the invoice commits to the request's hash and to that amount.
   */
  lemma MakerPaysTheInvoice(ops: seq<Operation>, maker: NodeId, request: Request, preimage: Preimage)
    requires FreshRun(ops) && Payable(Run(EMPTY, ops), request.invoice, None) && Sha256(preimage) == request.invoice.hash
    ensures var settled, hash := Settlement(Run(EMPTY, ops), maker, request, preimage), request.invoice.hash;
            && (Credits(settled.log, Run(EMPTY, ops).invoices[hash].owner, hash, request.params.amount * 1000)
                && Found(Queue(settled.queues, maker), WantSuccess(request.paymentHash)) == Some(PaymentSuccessful(request.paymentHash, Some(preimage)))
                <==> VerifyInvoice(request.invoice, request.paymentHash, request.params.amount * 1000))
  {
    hide Run, PayInvoice, ClaimHeldPayment;
    var ledger, hash := Run(EMPTY, ops), request.invoice.hash;
    LedgerRefines(ops);
    assert HashAgrees(ledger, hash);
    var before, after := SettlementEvents(ledger, maker, request, preimage);
    var settled := Settlement(ledger, maker, request, preimage);
    if request.paymentHash == hash {
      NoSuccessBefore(ops, maker, hash);
      var rest := [PaymentSuccessful(hash, Some(preimage))] + after;
      assert Queue(settled.queues, maker) == (Queue(ledger.queues, maker) + before) + rest;
      FoundLater(Queue(ledger.queues, maker) + before, rest, WantSuccess(hash));
    } else if Found(Queue(settled.queues, maker), WantSuccess(request.paymentHash)) == Some(PaymentSuccessful(request.paymentHash, Some(preimage))) {
      FoundIsQueued(Queue(settled.queues, maker), WantSuccess(request.paymentHash));
      OtherSuccessImpossible(ops, maker, request, preimage);
    }
  }

  /** No event of the settled ledger announces the preimage for another hash. */
  lemma OtherSuccessImpossible(ops: seq<Operation>, maker: NodeId, request: Request, preimage: Preimage)
    requires FreshRun(ops) && Sha256(preimage) != request.paymentHash
    ensures PaymentSuccessful(request.paymentHash, Some(preimage)) !in Queue(Settlement(Run(EMPTY, ops), maker, request, preimage).queues, maker)
  {
    var ledger := Run(EMPTY, ops);
    hide Run, PayInvoice, ClaimHeldPayment;
    var paying, claiming := Paying(maker, request.invoice, None), Claiming(preimage);
    LedgerRefines(ops);
    RunKeepsEmitted(ops);
    RunKeepsSuccesses(ops);
    ApplyKeepsSuccesses(ledger, paying);
    ApplyRefines(ledger, paying);
    ApplyKeepsSuccesses(Apply(ledger, paying), claiming);
    ApplyKeepsEmitted(ledger, paying);
    ApplyKeepsEmitted(Apply(ledger, paying), claiming);
  }

  /** An invoice over another hash, for the agreed amount: the maker's payment settles, and it never finds what the HTLC asks for. */
  lemma OtherInvoiceBuysNothing() returns (ops: seq<Operation>, request: Request)
    ensures FreshRun(ops) && Payable(Run(EMPTY, ops), request.invoice, None)
    ensures request.invoice.amount == Some(request.params.amount * 1000) && request.invoice.hash == Sha256(6) != request.paymentHash
    ensures var settled := Settlement(Run(EMPTY, ops), 1, request, 6);
            Lookup(settled, 1, Sha256(6)) == Paid(6) && Found(Queue(settled.queues, 1), WantSuccess(request.paymentHash)).None?
  {
    ops := [Holding(0, Sha256(6), Some(1000), 9)];
    request := Request(Bolt11(Sha256(6), Some(1000), 0, 9), Sha256(5), Params(1, 0, 20, 1), 0);
    assert Run(EMPTY, ops) == Apply(EMPTY, ops[0]);
  }

  // ---------------------------------------------------------------- a swap-in goes through

  /** No node has an event about a hash nobody has used. */
  lemma NoEventBefore(ledger: Ledger, hash: Hash, node: NodeId)
    requires QueuedWasEmitted(ledger) && EmittedKnown(ledger) && hash !in ledger.invoices
    ensures forall i :: 0 <= i < |Queue(ledger.queues, node)| ==> Queue(ledger.queues, node)[i].hash != hash
  {
  }

  /**
   A swap-in goes through: after the taker's request, the maker's payment and the taker's claim,
   the maker finds exactly the taker's preimage, and its claim satisfies the HTLC both built.
   */
  lemma SwapInCompletes(ops: seq<Operation>, taker: NodeId, maker: NodeId, params: Params, preimage: Preimage, stamp: nat, keys: (PubKey, PubKey))
    requires Sha256(preimage) !in Run(EMPTY, ops).invoices && taker != maker
    requires params.amount + params.makerFee >= SPEND_FEE
    ensures var ledger, hash := Run(EMPTY, ops), Sha256(preimage);
            var invoice := Bolt11(hash, Some(params.amount * 1000), taker, stamp);
            var paid := PayInvoice(CreateHoldInvoice(ledger, taker, hash, Some(params.amount * 1000), stamp), maker, invoice, None);
            var claimed := ClaimHeldPayment(Drained(paid, taker, WantClaimable(hash)), preimage);
            var htlc := MakerAccepts(keys.0, Request(invoice, hash, params, keys.1)).1;
            && Found(Queue(paid.queues, taker), WantClaimable(hash)) == Some(PaymentClaimable(hash, params.amount * 1000))
            && Found(Queue(claimed.queues, maker), WantSuccess(hash)) == Some(PaymentSuccessful(hash, Some(preimage)))
            && Satisfies(htlc, HashlockSpend(htlc, 0, params.amount + params.makerFee, keys.0, preimage).value.inputs[0], 0)
  {
    var ledger, hash := Run(EMPTY, ops), Sha256(preimage);
    hide Run;
    var invoice := Bolt11(hash, Some(params.amount * 1000), taker, stamp);
    RunKeepsEmitted(ops);
    RunKeepsKnown(ops);
    NoEventBefore(ledger, hash, taker);
    NoEventBefore(ledger, hash, maker);
    var held := CreateHoldInvoice(ledger, taker, hash, Some(params.amount * 1000), stamp);
    var paid := PayInvoice(held, maker, invoice, None);
    assert Payable(held, invoice, None);
    FoundLater(Queue(ledger.queues, taker), [PaymentClaimable(hash, params.amount * 1000)], WantClaimable(hash));
    var drained := Drained(paid, taker, WantClaimable(hash));
    assert Queue(drained.queues, maker) == Queue(ledger.queues, maker);
    FoundLater(Queue(ledger.queues, maker), [PaymentSuccessful(hash, Some(preimage))], WantSuccess(hash));
  }
}
