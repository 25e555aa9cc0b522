/**
 Swap-out (`src/lightning/swap_out.rs`): the taker pays a hold invoice of the maker, the maker
 locks coins in an HTLC on the same hash, and the taker's on-chain claim reveals the preimage
 that lets the maker settle.
 */
module SwapOut {
  import opened Common
  import opened Ledger
  import opened SwapHtlc
  import opened SwapIn

  datatype OutRequest = OutRequest(paymentHash: Hash, params: Params, hashlockKey: PubKey)

  datatype OutAccept = OutAccept(invoice: Bolt11, paymentHash: Hash, timelockKey: PubKey, locktime: nat, minConfirmations: nat)

  /** What the taker pays over Lightning, in millisatoshi. */
  function InvoiceMsat(params: Params): nat {
    (params.amount + params.makerFee) * 1000
  }

  /** The price is the amount and the maker's fee, each satoshi a thousand millisatoshi. */
  lemma PriceIs(params: Params)
    ensures InvoiceMsat(params) == 1000 * params.amount + 1000 * params.makerFee
  {
  }

  function OutMakerHtlc(timelockKey: PubKey, request: OutRequest): Htlc {
    NewHtlc(request.hashlockKey, timelockKey, request.paymentHash, request.params.locktime)
  }

  function OutTakerOnAccept(params: Params, hash: Hash, hashlockKey: PubKey, accept: OutAccept): Result<Htlc> {
    if !VerifyInvoice(accept.invoice, hash, InvoiceMsat(params)) then Err("invoice does not match the swap")
    else if accept.paymentHash != hash then Err("maker echoed wrong payment hash")
    else if accept.locktime != params.locktime || accept.minConfirmations != params.minConfirmations then Err("maker changed terms")
    else Ok(NewHtlc(hashlockKey, accept.timelockKey, hash, accept.locktime))
  }

  /** The maker's answer to a request, with the invoice its node made. */
  function OutMakerAccepts(node: NodeId, timelockKey: PubKey, request: OutRequest, stamp: nat): OutAccept {
    OutAccept(Bolt11(request.paymentHash, Some(InvoiceMsat(request.params)), node, stamp), request.paymentHash, timelockKey,
              request.params.locktime, request.params.minConfirmations)
  }

  /** Both roles build the same HTLC, for every request. */
  lemma SameHtlcOut(request: OutRequest, node: NodeId, timelockKey: PubKey, stamp: nat)
    ensures OutTakerOnAccept(request.params, request.paymentHash, request.hashlockKey, OutMakerAccepts(node, timelockKey, request, stamp))
            == Ok(OutMakerHtlc(timelockKey, request))
  {
  }

  /** Whatever the maker answers, an accepted answer has the taker pay for its own hash, at the agreed price and terms. */
  lemma AcceptedOnlyAsAsked(params: Params, hash: Hash, hashlockKey: PubKey, accept: OutAccept)
    ensures var r := OutTakerOnAccept(params, hash, hashlockKey, accept);
            r.Ok? <==> && accept.invoice.hash == hash == accept.paymentHash
                       && accept.invoice.amount == Some(1000 * params.amount + 1000 * params.makerFee)
                       && accept.locktime == params.locktime && accept.minConfirmations == params.minConfirmations
    ensures var r := OutTakerOnAccept(params, hash, hashlockKey, accept);
            r.Ok? ==> && r.value.hashlock == hashlockKey && r.value.timelock == accept.timelockKey
                      && r.value.hashvalue == Ripemd160(hash) && r.value.locktime == params.locktime
  {
  }

  class SwapOutTaker {
    const ledger: SharedLedger
    const node: NodeId
    const params: Params
    const preimage: Preimage
    const hashlockKey: PubKey
    var invoice: Option<Bolt11>
    var htlc: Option<Htlc>

    /** The HTLC pays the taker's key for the taker's preimage. */
    ghost predicate Valid()
      reads this
    {
      htlc.Some? ==> htlc.value.hashlock == hashlockKey && htlc.value.hashvalue == Ripemd160(Sha256(preimage))
    }

    constructor (ledger: SharedLedger, node: NodeId, params: Params, preimage: Preimage, hashlockKey: PubKey)
      ensures this.ledger == ledger && this.node == node && this.params == params && this.preimage == preimage
      ensures this.hashlockKey == hashlockKey && invoice == None && htlc == None && Valid()
    {
      this.ledger, this.node, this.params, this.preimage, this.hashlockKey := ledger, node, params, preimage, hashlockKey;
      invoice, htlc := None, None;
    }

    method OnAccept(accept: OutAccept) returns (r: Result<Htlc>)
      requires Valid()
      modifies this
      ensures Valid()
      ensures r == OutTakerOnAccept(params, Sha256(preimage), hashlockKey, accept)
      ensures if r.Ok? then htlc == Some(r.value) && invoice == Some(accept.invoice) else htlc == old(htlc) && invoice == old(invoice)
    {
      if !VerifyInvoice(accept.invoice, Sha256(preimage), InvoiceMsat(params)) {
        return Err("invoice does not match the swap");
      }
      if accept.paymentHash != Sha256(preimage) {
        return Err("maker echoed wrong payment hash");
      }
      if accept.locktime != params.locktime || accept.minConfirmations != params.minConfirmations {
        return Err("maker changed terms");
      }
      htlc := Some(NewHtlc(hashlockKey, accept.timelockKey, Sha256(preimage), accept.locktime));
      invoice := Some(accept.invoice);
      return Ok(htlc.value);
    }

    method Pay() returns (r: Result<nat>)
      modifies ledger
      ensures r.Ok? <==> invoice.Some? && params.locktime > 12 && Payable(old(ledger.View()), invoice.value, None)
      ensures r.Ok? ==> r.value == params.locktime - 12
      ensures ledger.View() == if invoice.Some? && CltvBound(params.locktime).Some?
                               then PayInvoice(old(ledger.View()), node, invoice.value, None) else old(ledger.View())
    {
      if invoice.None? {
        return Err("pay_invoice before on_accept");
      }
      var bound := CltvBound(params.locktime);
      if bound.None? {
        return Err("locktime leaves no route budget above the margin");
      }
      var paid := ledger.Pay(node, invoice.value, None);
      return if paid then Ok(bound.value) else Err("invoice not payable");
    }

    /** The funding pays the agreed script exactly the swap amount, as announced, and is confirmed often enough. */
    method VerifyHtlc(announced: nat, script: Htlc, value: nat, confirmations: nat) returns (ok: bool)
      ensures ok <==> htlc == Some(script) && announced == value == params.amount && confirmations >= params.minConfirmations
    {
      if htlc.None? || announced != value {
        return false;
      }
      return script == htlc.value && value == params.amount && confirmations >= params.minConfirmations;
    }

    /** A claim the script accepts at any time, and that shows the maker the preimage. */
    method ClaimTx(outpoint: nat, value: nat) returns (r: Result<Transaction>)
      requires Valid()
      ensures r.Ok? <==> htlc.Some? && value >= SPEND_FEE
      ensures r.Ok? ==> |r.value.inputs| == 1 && r.value.inputs[0].outpoint == outpoint && r.value.value == value - SPEND_FEE
      ensures r.Ok? ==> (forall age :: Satisfies(htlc.value, r.value.inputs[0], age)) && ExtractPreimage(htlc.value, r.value.inputs) == Some(preimage)
    {
      if htlc.None? {
        return Err("claim_tx before on_accept");
      }
      if value >= SPEND_FEE {
        forall age {
          HashlockSpendReveals(htlc.value, outpoint, value, preimage, age);
        }
      }
      return HashlockSpend(htlc.value, outpoint, value, hashlockKey, preimage);
    }
  }

  class SwapOutMaker {
    const ledger: SharedLedger
    const node: NodeId
    const timelockKey: PubKey
    var request: Option<OutRequest>
    var htlc: Option<Htlc>

    ghost predicate Valid()
      reads this
    {
      if request.Some? then htlc == Some(OutMakerHtlc(timelockKey, request.value)) else htlc.None?
    }

    constructor (ledger: SharedLedger, node: NodeId, timelockKey: PubKey)
      ensures this.ledger == ledger && this.node == node && this.timelockKey == timelockKey
      ensures Valid() && request == None
    {
      this.ledger, this.node, this.timelockKey, request, htlc := ledger, node, timelockKey, None, None;
    }

    method AcceptRequest(asked: OutRequest, stamp: nat) returns (r: Result<OutAccept>)
      requires Valid()
      modifies this, ledger
      ensures Valid()
      ensures ledger.View() == CreateHoldInvoice(old(ledger.View()), node, asked.paymentHash, Some(InvoiceMsat(asked.params)), stamp)
      ensures r.Ok? <==> asked.paymentHash !in old(ledger.invoices)
      ensures if r.Ok? then request == Some(asked) && r.value == OutMakerAccepts(node, timelockKey, asked, stamp) else request == old(request)
    {
      var created := ledger.CreateHold(node, asked.paymentHash, Some(InvoiceMsat(asked.params)), stamp);
      if !created {
        return Err("invoice already exists");
      }
      htlc := Some(NewHtlc(asked.hashlockKey, timelockKey, asked.paymentHash, asked.params.locktime));
      request := Some(asked);
      return Ok(OutAccept(Bolt11(asked.paymentHash, Some(InvoiceMsat(asked.params)), node, stamp), asked.paymentHash, timelockKey,
                          asked.params.locktime, asked.params.minConfirmations));
    }

    method TryAwaitPayment() returns (r: Result<bool>)
      requires Valid()
      modifies ledger
      ensures r.Ok? <==> request.Some?
      ensures r.Ok? ==> r.value == Found(Queue(old(ledger.queues), node), WantClaimable(request.value.paymentHash)).Some?
      ensures ledger.View() == if r.Ok? then Drained(old(ledger.View()), node, WantClaimable(request.value.paymentHash)) else old(ledger.View())
    {
      if request.None? {
        return Err("try_await_payment before accept");
      }
      var event := PollUntil(ledger, node, WantClaimable(request.value.paymentHash));
      return Ok(event.Some?);
    }

    /** Settles the held payment with the preimage the spend reveals, and nothing else. */
    method SettleFromSpend(tx: Transaction) returns (r: Result<Preimage>)
      requires Valid()
      modifies ledger
      ensures r.Ok? <==> Settles(request, htlc, tx, old(ledger.View()))
      ensures r.Ok? ==> ExtractPreimage(htlc.value, tx.inputs) == Some(r.value)
      ensures ledger.View() == if r.Ok? then ClaimHeldPayment(old(ledger.View()), r.value) else old(ledger.View())
    {
      if request.None? {
        return Err("settle_from_spend before accept");
      }
      var found := FindPreimage(htlc.value, tx);
      if found.None? {
        return Err("transaction does not reveal the HTLC preimage");
      }
      if Sha256(found.value) != request.value.paymentHash {
        return Err("revealed preimage does not match the payment hash");
      }
      var claimed := ledger.ClaimHeld(found.value);
      return if claimed then Ok(found.value) else Err("PaymentNotFound");
    }
  }

  /** The spend reveals a preimage of the agreed hash, and the payment is held. */
  predicate Settles(request: Option<OutRequest>, htlc: Option<Htlc>, tx: Transaction, ledger: Ledger) {
    request.Some? && htlc.Some?
    && var found := ExtractPreimage(htlc.value, tx.inputs);
       found.Some? && Sha256(found.value) == request.value.paymentHash && Claimable(ledger, request.value.paymentHash)
  }

  /**
   Settling means payment in full: `cut` operations in, the maker's hold invoice was registered
   for the amount plus fee; when settling succeeds after any further operations, that same
   invoice was held for exactly that amount and is settled.
   */
  lemma SettlingCollects(ops: seq<Operation>, cut: nat, maker: NodeId, request: OutRequest, htlc: Htlc, tx: Transaction)
    requires FreshRun(ops) && cut <= |ops|
    requires var invoices := Run(EMPTY, ops[..cut]).invoices;
             request.paymentHash in invoices && invoices[request.paymentHash].isHold && invoices[request.paymentHash].owner == maker
             && invoices[request.paymentHash].amount == Some(InvoiceMsat(request.params))
    requires Settles(Some(request), Some(htlc), tx, Run(EMPTY, ops))
    ensures request.paymentHash in Run(EMPTY, ops).invoices
    ensures Run(EMPTY, ops).invoices[request.paymentHash].status == Held(InvoiceMsat(request.params))
    ensures var after := ClaimHeldPayment(Run(EMPTY, ops), ExtractPreimage(htlc, tx.inputs).value);
            && request.paymentHash in after.invoices && after.invoices[request.paymentHash].status.Settled?
            && after.invoices[request.paymentHash].owner == maker
            && Emitted(maker, PaymentReceived(request.paymentHash, 1000 * request.params.amount + 1000 * request.params.makerFee)) in after.log
  {
    var (ledger, hash) := (Run(EMPTY, ops), request.paymentHash);
    hide Run, InvoiceMsat, Told, Successes, Failures;
    PriceIs(request.params);
    LedgerRefines(ops);
    assert HashAgrees(ledger, hash);
    KeptSince(ops, cut);
    assert Continues(Run(EMPTY, ops[..cut]).invoices[hash], ledger.invoices[hash]);
    var after := ClaimHeldPayment(ledger, ExtractPreimage(htlc, tx.inputs).value);
    assert after.log[|after.log| - 1] == Emitted(maker, PaymentReceived(hash, InvoiceMsat(request.params)));
  }

  /**
   The taker cannot take the coins without letting the maker settle: any valid transaction that
   spends the HTLC by its hash lock lets the maker settle, while the payment is held.
   */
  lemma ClaimLetsMakerSettle(ledger: Ledger, request: OutRequest, timelockKey: PubKey, tx: Transaction, ages: seq<nat>, spend: nat)
    requires Claimable(ledger, request.paymentHash) && |ages| == |tx.inputs| && spend < |tx.inputs|
    requires var htlc := OutMakerHtlc(timelockKey, request);
             TakesHashlock(htlc, tx.inputs[spend])
             && forall i :: 0 <= i < |tx.inputs| && TakesHashlock(htlc, tx.inputs[i]) ==> Satisfies(htlc, tx.inputs[i], ages[i])
    ensures Settles(Some(request), Some(OutMakerHtlc(timelockKey, request)), tx, ledger)
  {
    ValidHashlockSpendReveals(OutMakerHtlc(timelockKey, request), tx.inputs, ages, spend);
  }

  /** The payment the taker was asked for arrives at the maker, held for the full price. */
  lemma SwapOutPaymentArrives(ops: seq<Operation>, taker: NodeId, maker: NodeId, request: OutRequest, stamp: nat)
    requires request.paymentHash !in Run(EMPTY, ops).invoices
    ensures var ledger, hash := Run(EMPTY, ops), request.paymentHash;
            var accept := OutMakerAccepts(maker, 0, request, stamp);
            var paid := PayInvoice(CreateHoldInvoice(ledger, maker, hash, Some(InvoiceMsat(request.params)), stamp), taker, accept.invoice, None);
            && Found(Queue(paid.queues, maker), WantClaimable(hash)) == Some(PaymentClaimable(hash, InvoiceMsat(request.params)))
            && Claimable(paid, hash)
  {
    var ledger, hash := Run(EMPTY, ops), request.paymentHash;
    hide Run;
    RunKeepsEmitted(ops);
    RunKeepsKnown(ops);
    NoEventBefore(ledger, hash, maker);
    var held := CreateHoldInvoice(ledger, maker, hash, Some(InvoiceMsat(request.params)), stamp);
    assert Payable(held, OutMakerAccepts(maker, 0, request, stamp).invoice, None);
    FoundLater(Queue(ledger.queues, maker), [PaymentClaimable(hash, InvoiceMsat(request.params))], WantClaimable(hash));
  }
}
