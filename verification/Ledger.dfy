/**
 The shared in-memory Lightning ledger (`src/lightning/mock.rs`): invoices, held payments and
 the events each node sees. The model adds a log of all payments made and events emitted, to
 say what a node's full history is.
 */
module Ledger {
  import opened Common

  type NodeId = nat
  type Preimage = nat

  /** sha256 as an injective constructor; `Opaque` hashes have no known preimage. */
  datatype Hash = Sha256(preimage: Preimage) | Opaque(id: nat)

  /** An invoice text: it carries the payment hash, and no two invoices have the same text. */
  datatype Bolt11 = Bolt11(hash: Hash, amount: Option<nat>, node: NodeId, stamp: nat)

  datatype Status = Open | Held(amount: nat) | Settled | Cancelled

  datatype Invoice = Invoice(
    text: Bolt11, amount: Option<nat>, preimage: Option<Preimage>, isHold: bool, status: Status,
    owner: NodeId, payer: Option<NodeId>, recordLost: bool)

  datatype LnEvent =
    | PaymentClaimable(hash: Hash, amount: nat)
    | PaymentSuccessful(hash: Hash, preimage: Option<Preimage>)
    | PaymentReceived(hash: Hash, amount: nat)
    | PaymentFailed(hash: Hash)

  datatype PaymentOutcome = NotFound | Pending | Paid(preimage: Preimage) | Failed

  datatype Entry = Payment(payer: NodeId, hash: Hash) | Emitted(node: NodeId, event: LnEvent)

  datatype Ledger = Ledger(invoices: map<Hash, Invoice>, queues: map<NodeId, seq<LnEvent>>, nextId: nat, log: seq<Entry>)

  const EMPTY := Ledger(map[], map[], 0, [])

  // ---------------------------------------------------------------- the operations

  function Queue(queues: map<NodeId, seq<LnEvent>>, node: NodeId): seq<LnEvent> {
    if node in queues then queues[node] else []
  }

  function Push(ledger: Ledger, node: NodeId, event: LnEvent): Ledger {
    ledger.(queues := ledger.queues[node := Queue(ledger.queues, node) + [event]], log := ledger.log + [Emitted(node, event)])
  }

  /** The hash the next regular invoice gets. */
  function NextHash(ledger: Ledger): Hash {
    Sha256(ledger.nextId + 1)
  }

  function CreateInvoice(ledger: Ledger, node: NodeId, amount: Option<nat>): Ledger {
    var text := Bolt11(NextHash(ledger), amount, node, ledger.nextId + 1);
    ledger.(nextId := ledger.nextId + 1,
            invoices := ledger.invoices[NextHash(ledger) := Invoice(text, amount, Some(ledger.nextId + 1), false, Open, node, None, false)])
  }

  /** The amount to pay: an argument is required exactly for a variable-amount invoice. */
  function AmountToPay(fixed: Option<nat>, asked: Option<nat>): Option<nat> {
    if fixed.Some? && asked.None? then fixed else if fixed.None? && asked.Some? then asked else None
  }

  predicate Payable(ledger: Ledger, text: Bolt11, asked: Option<nat>) {
    text.hash in ledger.invoices && ledger.invoices[text.hash].text == text
    && ledger.invoices[text.hash].status == Open && AmountToPay(ledger.invoices[text.hash].amount, asked).Some?
  }

  function PayInvoice(ledger: Ledger, node: NodeId, text: Bolt11, asked: Option<nat>): Ledger {
    if !Payable(ledger, text, asked) then ledger
    else
      var hash := text.hash;
      var invoice := ledger.invoices[hash].(payer := Some(node));
      var amount := AmountToPay(invoice.amount, asked).value;
      var paid := ledger.(log := ledger.log + [Payment(node, hash)]);
      if invoice.isHold then
        Push(paid.(invoices := paid.invoices[hash := invoice.(status := Held(amount))]), invoice.owner, PaymentClaimable(hash, amount))
      else
        Push(Push(paid.(invoices := paid.invoices[hash := invoice.(status := Settled)]), node, PaymentSuccessful(hash, invoice.preimage)),
             invoice.owner, PaymentReceived(hash, amount))
  }

  function CreateHoldInvoice(ledger: Ledger, node: NodeId, hash: Hash, amount: Option<nat>, stamp: nat): Ledger {
    if hash in ledger.invoices then ledger
    else ledger.(invoices := ledger.invoices[hash := Invoice(Bolt11(hash, amount, node, stamp), amount, None, true, Open, node, None, false)])
  }

  predicate Claimable(ledger: Ledger, hash: Hash) {
    hash in ledger.invoices && ledger.invoices[hash].isHold && ledger.invoices[hash].status.Held?
  }

  function ClaimHeldPayment(ledger: Ledger, preimage: Preimage): Ledger {
    var hash := Sha256(preimage);
    if !Claimable(ledger, hash) then ledger
    else
      var invoice := ledger.invoices[hash];
      var claimed := ledger.(invoices := ledger.invoices[hash := invoice.(status := Settled, preimage := Some(preimage))]);
      Push(Push(claimed, if invoice.payer.Some? then invoice.payer.value else invoice.owner, PaymentSuccessful(hash, Some(preimage))),
           invoice.owner, PaymentReceived(hash, invoice.status.amount))
  }

  predicate Failable(invoices: map<Hash, Invoice>, hash: Hash) {
    hash in invoices && invoices[hash].isHold && (invoices[hash].status.Open? || invoices[hash].status.Held?)
  }

  function FailHeldPayment(ledger: Ledger, hash: Hash): Ledger {
    if !Failable(ledger.invoices, hash) then ledger
    else
      var invoice := ledger.invoices[hash];
      var failed := ledger.(invoices := ledger.invoices[hash := invoice.(status := Cancelled)]);
      if invoice.payer.Some? then Push(failed, invoice.payer.value, PaymentFailed(hash)) else failed
  }

  function LosePaymentRecord(ledger: Ledger, node: NodeId, hash: Hash): Ledger {
    if hash in ledger.invoices && ledger.invoices[hash].payer == Some(node) then
      ledger.(invoices := ledger.invoices[hash := ledger.invoices[hash].(recordLost := true)])
    else ledger
  }

  function PollEvent(ledger: Ledger, node: NodeId): (Ledger, Option<LnEvent>) {
    var queue := Queue(ledger.queues, node);
    if queue == [] then (ledger, None) else (ledger.(queues := ledger.queues[node := queue[1..]]), Some(queue[0]))
  }

  /** `payment_outcome`, arm by arm. */
  function Lookup(ledger: Ledger, node: NodeId, hash: Hash): PaymentOutcome {
    if hash !in ledger.invoices || ledger.invoices[hash].payer != Some(node) || ledger.invoices[hash].recordLost then NotFound
    else
      var invoice := ledger.invoices[hash];
      match invoice.status
      case Settled => if invoice.preimage.Some? then Paid(invoice.preimage.value) else Pending
      case Held(_) => Pending
      case Cancelled => Failed
      case Open => NotFound
  }

  datatype Operation =
    | Creating(node: NodeId, amount: Option<nat>)
    | Paying(node: NodeId, text: Bolt11, amount: Option<nat>)
    | Holding(node: NodeId, hash: Hash, amount: Option<nat>, stamp: nat)
    | Claiming(preimage: Preimage)
    | Failing(hash: Hash)
    | Losing(node: NodeId, hash: Hash)
    | Polling(node: NodeId)

  function Apply(ledger: Ledger, op: Operation): Ledger {
    match op
    case Creating(node, amount) => CreateInvoice(ledger, node, amount)
    case Paying(node, text, amount) => PayInvoice(ledger, node, text, amount)
    case Holding(node, hash, amount, stamp) => CreateHoldInvoice(ledger, node, hash, amount, stamp)
    case Claiming(preimage) => ClaimHeldPayment(ledger, preimage)
    case Failing(hash) => FailHeldPayment(ledger, hash)
    case Losing(node, hash) => LosePaymentRecord(ledger, node, hash)
    case Polling(node) => PollEvent(ledger, node).0
  }

  function Run(ledger: Ledger, ops: seq<Operation>): Ledger
    decreases |ops|
  {
    if ops == [] then ledger else Apply(Run(ledger, ops[..|ops| - 1]), ops[|ops| - 1])
  }

  // ---------------------------------------------------------------- what the history says

  /** A node's payment of `hash`, told from the payments it made and the events it saw. */
  function Told(log: seq<Entry>, node: NodeId, hash: Hash): PaymentOutcome
    decreases |log|
  {
    if log == [] then NotFound
    else
      var before := Told(log[..|log| - 1], node, hash);
      match log[|log| - 1]
      case Payment(payer, paid) => if payer == node && paid == hash then Pending else before
      case Emitted(seer, PaymentSuccessful(of, Some(preimage))) =>
        if seer == node && of == hash && before == Pending then Paid(preimage) else before
      case Emitted(seer, PaymentFailed(of)) => if seer == node && of == hash && before == Pending then Failed else before
      case _ => before
  }

  /** How many success events, and how many failure events, were emitted for `hash`. */
  function Successes(log: seq<Entry>, hash: Hash): nat
    decreases |log|
  {
    if log == [] then 0
    else
      var last := log[|log| - 1];
      Successes(log[..|log| - 1], hash) + if last.Emitted? && last.event.PaymentSuccessful? && last.event.hash == hash then 1 else 0
  }

  function Failures(log: seq<Entry>, hash: Hash): nat
    decreases |log|
  {
    if log == [] then 0
    else
      var last := log[|log| - 1];
      Failures(log[..|log| - 1], hash) + if last.Emitted? && last.event.PaymentFailed? && last.event.hash == hash then 1 else 0
  }

  /** What an invoice says about `node`'s payment of it, the record aside. */
  function Shown(invoice: Invoice, node: NodeId): PaymentOutcome {
    if invoice.payer != Some(node) then NotFound
    else
      match invoice.status
      case Held(_) => Pending
      case Settled => if invoice.preimage.Some? then Paid(invoice.preimage.value) else Pending
      case Cancelled => Failed
      case Open => NotFound
  }

  /** The state of one invoice is consistent: unpaid while open, a matching preimage once settled. */
  predicate InvoiceSound(hash: Hash, invoice: Invoice) {
    && invoice.text.hash == hash && invoice.text.amount == invoice.amount
    && (invoice.status.Open? ==> invoice.payer.None?)
    && (invoice.status.Held? || invoice.status.Settled? ==> invoice.payer.Some?)
    && (invoice.status.Settled? || !invoice.isHold ==> invoice.preimage.Some?)
    && (invoice.preimage.Some? ==> hash == Sha256(invoice.preimage.value))
    && (invoice.status.Held? && invoice.amount.Some? ==> invoice.status.amount == invoice.amount.value)
  }

  /** The log tells of one hash exactly what its invoice shows. */
  ghost predicate HashAgrees(ledger: Ledger, hash: Hash) {
    if hash in ledger.invoices then
      var invoice := ledger.invoices[hash];
      && InvoiceSound(hash, invoice)
      && (forall node :: Told(ledger.log, node, hash) == Shown(invoice, node))
      && Successes(ledger.log, hash) == (if invoice.status.Settled? then 1 else 0)
      && Failures(ledger.log, hash) == (if invoice.status.Cancelled? && invoice.payer.Some? then 1 else 0)
    else
      (forall node :: Told(ledger.log, node, hash) == NotFound) && Successes(ledger.log, hash) == 0 == Failures(ledger.log, hash)
  }

  ghost predicate Refines(ledger: Ledger) {
    forall hash :: HashAgrees(ledger, hash)
  }

  /** Regular invoices get hashes nobody used before. */
  predicate FreshHash(ledger: Ledger, op: Operation) {
    op.Creating? ==> NextHash(ledger) !in ledger.invoices
  }

  /** An entry about another hash, or a plain notice to the owner, changes nothing that is told of `hash`. */
  lemma OtherEntry(log: seq<Entry>, entry: Entry, hash: Hash)
    requires match entry
             case Payment(_, paid) => paid != hash
             case Emitted(_, event) => event.hash != hash || event.PaymentClaimable? || event.PaymentReceived?
    ensures forall node :: Told(log + [entry], node, hash) == Told(log, node, hash)
    ensures Successes(log + [entry], hash) == Successes(log, hash) && Failures(log + [entry], hash) == Failures(log, hash)
  {
    assert (log + [entry])[..|log|] == log;
  }

  lemma PaymentEntry(log: seq<Entry>, payer: NodeId, hash: Hash)
    ensures forall node :: Told(log + [Payment(payer, hash)], node, hash) == if node == payer then Pending else Told(log, node, hash)
    ensures Successes(log + [Payment(payer, hash)], hash) == Successes(log, hash)
         && Failures(log + [Payment(payer, hash)], hash) == Failures(log, hash)
  {
    assert (log + [Payment(payer, hash)])[..|log|] == log;
  }

  lemma SuccessEntry(log: seq<Entry>, seer: NodeId, hash: Hash, preimage: Preimage)
    ensures var after := log + [Emitted(seer, PaymentSuccessful(hash, Some(preimage)))];
            && (forall node :: Told(after, node, hash) ==
                  if node == seer && Told(log, node, hash) == Pending then Paid(preimage) else Told(log, node, hash))
            && Successes(after, hash) == Successes(log, hash) + 1 && Failures(after, hash) == Failures(log, hash)
  {
    assert (log + [Emitted(seer, PaymentSuccessful(hash, Some(preimage)))])[..|log|] == log;
  }

  lemma FailureEntry(log: seq<Entry>, seer: NodeId, hash: Hash)
    ensures var after := log + [Emitted(seer, PaymentFailed(hash))];
            && (forall node :: Told(after, node, hash) ==
                  if node == seer && Told(log, node, hash) == Pending then Failed else Told(log, node, hash))
            && Successes(after, hash) == Successes(log, hash) && Failures(after, hash) == Failures(log, hash) + 1
  {
    assert (log + [Emitted(seer, PaymentFailed(hash))])[..|log|] == log;
  }

  /** What a payment adds to the log. */
  function PayLog(invoice: Invoice, node: NodeId, hash: Hash, amount: nat): seq<Entry> {
    if invoice.isHold then [Payment(node, hash), Emitted(invoice.owner, PaymentClaimable(hash, amount))]
    else [Payment(node, hash), Emitted(node, PaymentSuccessful(hash, invoice.preimage)), Emitted(invoice.owner, PaymentReceived(hash, amount))]
  }

  lemma PayLogged(ledger: Ledger, node: NodeId, text: Bolt11, asked: Option<nat>)
    requires Payable(ledger, text, asked)
    ensures var invoice := ledger.invoices[text.hash];
            var amount := AmountToPay(invoice.amount, asked).value;
            var after := PayInvoice(ledger, node, text, asked);
            && after.log == ledger.log + PayLog(invoice, node, text.hash, amount)
            && after.invoices == ledger.invoices[text.hash := invoice.(payer := Some(node),
                                                                       status := if invoice.isHold then Held(amount) else Settled)]
  {
  }

  lemma PayLogOther(log: seq<Entry>, invoice: Invoice, node: NodeId, paid: Hash, amount: nat, hash: Hash)
    requires paid != hash
    ensures var after := log + PayLog(invoice, node, paid, amount);
            && (forall n :: Told(after, n, hash) == Told(log, n, hash))
            && Successes(after, hash) == Successes(log, hash) && Failures(after, hash) == Failures(log, hash)
  {
    hide Told, Successes, Failures;
    var added := PayLog(invoice, node, paid, amount);
    OtherEntry(log, added[0], hash);
    OtherEntry(log + [added[0]], added[1], hash);
    assert log + added[..2] == log + [added[0]] + [added[1]];
    if invoice.isHold {
      assert log + added == log + added[..2];
    } else {
      OtherEntry(log + added[..2], added[2], hash);
      assert log + added == log + added[..2] + [added[2]];
    }
  }

  lemma PayLogOwn(log: seq<Entry>, invoice: Invoice, node: NodeId, hash: Hash, amount: nat)
    requires !invoice.isHold ==> invoice.preimage.Some?
    ensures var after := log + PayLog(invoice, node, hash, amount);
            && (forall n :: Told(after, n, hash) ==
                  if n != node then Told(log, n, hash) else if invoice.isHold then Pending else Paid(invoice.preimage.value))
            && Successes(after, hash) == Successes(log, hash) + (if invoice.isHold then 0 else 1) && Failures(after, hash) == Failures(log, hash)
  {
    hide Told, Successes, Failures;
    var added := PayLog(invoice, node, hash, amount);
    PaymentEntry(log, node, hash);
    assert log + added[..2] == log + [added[0]] + [added[1]];
    if invoice.isHold {
      OtherEntry(log + [added[0]], added[1], hash);
      assert log + added == log + added[..2];
    } else {
      SuccessEntry(log + [added[0]], node, hash, invoice.preimage.value);
      OtherEntry(log + added[..2], added[2], hash);
      assert log + added == log + added[..2] + [added[2]];
    }
  }

  lemma PayAgreesOwn(ledger: Ledger, node: NodeId, text: Bolt11, asked: Option<nat>)
    requires HashAgrees(ledger, text.hash) && Payable(ledger, text, asked)
    ensures HashAgrees(PayInvoice(ledger, node, text, asked), text.hash)
  {
    hide Told, Successes, Failures, PayInvoice, PayLog;
    var hash, invoice := text.hash, ledger.invoices[text.hash];
    var amount := AmountToPay(invoice.amount, asked).value;
    PayLogged(ledger, node, text, asked);
    PayLogOwn(ledger.log, invoice, node, hash, amount);
    var after := PayInvoice(ledger, node, text, asked);
    assert InvoiceSound(hash, after.invoices[hash]);
    forall n
      ensures Told(after.log, n, hash) == Shown(after.invoices[hash], n)
    {
      assert Told(ledger.log, n, hash) == Shown(invoice, n) == NotFound;
    }
  }

  lemma PayAgreesOther(ledger: Ledger, node: NodeId, text: Bolt11, asked: Option<nat>, hash: Hash)
    requires HashAgrees(ledger, hash) && Payable(ledger, text, asked) && hash != text.hash
    ensures HashAgrees(PayInvoice(ledger, node, text, asked), hash)
  {
    hide Told, Successes, Failures, PayInvoice, PayLog, Shown, InvoiceSound;
    var invoice := ledger.invoices[text.hash];
    PayLogged(ledger, node, text, asked);
    PayLogOther(ledger.log, invoice, node, text.hash, AmountToPay(invoice.amount, asked).value, hash);
  }

  lemma PayAgrees(ledger: Ledger, node: NodeId, text: Bolt11, asked: Option<nat>, hash: Hash)
    requires HashAgrees(ledger, hash) && HashAgrees(ledger, text.hash)
    ensures HashAgrees(PayInvoice(ledger, node, text, asked), hash)
  {
    hide HashAgrees;
    if Payable(ledger, text, asked) {
      if hash == text.hash {
        PayAgreesOwn(ledger, node, text, asked);
      } else {
        PayAgreesOther(ledger, node, text, asked, hash);
      }
    }
  }

  lemma ClaimAgrees(ledger: Ledger, preimage: Preimage, hash: Hash)
    requires HashAgrees(ledger, hash) && HashAgrees(ledger, Sha256(preimage))
    ensures HashAgrees(ClaimHeldPayment(ledger, preimage), hash)
  {
    var claimed := Sha256(preimage);
    if Claimable(ledger, claimed) {
      var invoice := ledger.invoices[claimed];
      var success := Emitted(invoice.payer.value, PaymentSuccessful(claimed, Some(preimage)));
      if hash == claimed {
        SuccessEntry(ledger.log, invoice.payer.value, hash, preimage);
      } else {
        OtherEntry(ledger.log, success, hash);
      }
      OtherEntry(ledger.log + [success], Emitted(invoice.owner, PaymentReceived(claimed, invoice.status.amount)), hash);
    }
  }

  lemma FailAgrees(ledger: Ledger, failed: Hash, hash: Hash)
    requires HashAgrees(ledger, hash) && HashAgrees(ledger, failed)
    ensures HashAgrees(FailHeldPayment(ledger, failed), hash)
  {
    hide Told, Successes, Failures, Queue;
    if failed in ledger.invoices && ledger.invoices[failed].payer.Some? {
      if hash == failed {
        FailureEntry(ledger.log, ledger.invoices[failed].payer.value, hash);
      } else {
        OtherEntry(ledger.log, Emitted(ledger.invoices[failed].payer.value, PaymentFailed(failed)), hash);
      }
    }
  }

  lemma ApplyRefines(ledger: Ledger, op: Operation)
    requires Refines(ledger) && FreshHash(ledger, op)
    ensures Refines(Apply(ledger, op))
  {
    forall hash
      ensures HashAgrees(Apply(ledger, op), hash)
    {
      assert HashAgrees(ledger, hash);
      match op
      case Paying(node, text, amount) => assert HashAgrees(ledger, text.hash); PayAgrees(ledger, node, text, amount, hash);
      case Claiming(preimage) => assert HashAgrees(ledger, Sha256(preimage)); ClaimAgrees(ledger, preimage, hash);
      case Failing(failed) => assert HashAgrees(ledger, failed); FailAgrees(ledger, failed, hash);
      case _ =>
    }
  }

  // ---------------------------------------------------------------- whole runs

  ghost predicate FreshRun(ops: seq<Operation>) {
    forall k :: 0 <= k < |ops| ==> FreshHash(Run(EMPTY, ops[..k]), ops[k])
  }

  lemma FreshShorter(ops: seq<Operation>)
    requires FreshRun(ops) && ops != []
    ensures FreshRun(ops[..|ops| - 1])
  {
    var earlier := ops[..|ops| - 1];
    forall k | 0 <= k < |earlier|
      ensures FreshHash(Run(EMPTY, earlier[..k]), earlier[k])
    {
      assert earlier[..k] == ops[..k];
    }
  }

  /** Over every run the log tells of each payment exactly what its invoice shows. */
  lemma {:induction false} LedgerRefines(ops: seq<Operation>)
    requires FreshRun(ops)
    ensures Refines(Run(EMPTY, ops))
    decreases |ops|
  {
    if ops == [] {
      forall hash
        ensures HashAgrees(EMPTY, hash)
      {
        assert forall node :: Told([], node, hash) == NotFound;
      }
    } else {
      FreshShorter(ops);
      LedgerRefines(ops[..|ops| - 1]);
      ApplyRefines(Run(EMPTY, ops[..|ops| - 1]), ops[|ops| - 1]);
    }
  }

  /** The payer's outcome lookup says what its full history says, unless its record is lost. */
  lemma OutcomeIsHistory(ops: seq<Operation>, node: NodeId, hash: Hash)
    requires FreshRun(ops)
    ensures var ledger := Run(EMPTY, ops);
            (hash in ledger.invoices && ledger.invoices[hash].recordLost) || Lookup(ledger, node, hash) == Told(ledger.log, node, hash)
  {
    LedgerRefines(ops);
    assert HashAgrees(Run(EMPTY, ops), hash);
  }

  /** No hash ever has two successes, nor a success and a failure. */
  lemma AtMostOneOutcome(ops: seq<Operation>, hash: Hash)
    requires FreshRun(ops)
    ensures Successes(Run(EMPTY, ops).log, hash) + Failures(Run(EMPTY, ops).log, hash) <= 1
  {
    LedgerRefines(ops);
    assert HashAgrees(Run(EMPTY, ops), hash);
  }

  /** The two odd arms of the lookup are dead: no settled invoice lacks its preimage, no open one has a payer. */
  lemma OddArmsUnreachable(ops: seq<Operation>, hash: Hash)
    requires FreshRun(ops)
    ensures var invoices := Run(EMPTY, ops).invoices;
            hash in invoices ==>
              && (invoices[hash].status.Settled? ==> invoices[hash].preimage.Some? && Sha256(invoices[hash].preimage.value) == hash)
              && (invoices[hash].status.Open? ==> invoices[hash].payer.None?)
  {
    LedgerRefines(ops);
    assert HashAgrees(Run(EMPTY, ops), hash);
  }

  /** Open, then held, then settled or cancelled for good. */
  predicate Forward(before: Status, after: Status) {
    match before
    case Open => true
    case Held(amount) => after == before || after.Settled? || after.Cancelled?
    case Settled => after.Settled?
    case Cancelled => after.Cancelled?
  }

  /** Same invoice, later state; a payer, once there, stays. */
  predicate Continues(before: Invoice, after: Invoice) {
    && after.text == before.text && after.amount == before.amount && after.isHold == before.isHold && after.owner == before.owner
    && (before.payer.Some? ==> after.payer == before.payer) && Forward(before.status, after.status)
  }

  predicate Kept(before: Ledger, after: Ledger) {
    forall hash :: hash in before.invoices ==> hash in after.invoices && Continues(before.invoices[hash], after.invoices[hash])
  }

  predicate OpenUnpaid(ledger: Ledger) {
    forall hash :: hash in ledger.invoices && ledger.invoices[hash].status.Open? ==> ledger.invoices[hash].payer.None?
  }

  /** An operation that changes one invoice, forward, moves every invoice forward. */
  lemma OneMovesForward(ledger: Ledger, after: Ledger, hash: Hash)
    requires OpenUnpaid(ledger) && hash in after.invoices && after.invoices == ledger.invoices[hash := after.invoices[hash]]
    requires hash in ledger.invoices ==> Continues(ledger.invoices[hash], after.invoices[hash])
    requires after.invoices[hash].status.Open? ==> after.invoices[hash].payer.None?
    ensures Kept(ledger, after) && OpenUnpaid(after)
  {
  }

  lemma SameMovesForward(ledger: Ledger, after: Ledger)
    requires OpenUnpaid(ledger) && after.invoices == ledger.invoices
    ensures Kept(ledger, after) && OpenUnpaid(after)
  {
  }

  /** Every operation moves every invoice forward, as long as a regular invoice gets a new hash. */
  lemma OperationsMoveForward(ledger: Ledger, op: Operation)
    requires OpenUnpaid(ledger) && FreshHash(ledger, op)
    ensures Kept(ledger, Apply(ledger, op)) && OpenUnpaid(Apply(ledger, op))
  {
    hide Kept;
    var after := Apply(ledger, op);
    if after.invoices == ledger.invoices {
      SameMovesForward(ledger, after);
    } else {
      var hash := match op
        case Creating(_, _) => NextHash(ledger)
        case Paying(_, text, _) => text.hash
        case Holding(_, hash, _, _) => hash
        case Claiming(preimage) => Sha256(preimage)
        case Failing(hash) => hash
        case Losing(_, hash) => hash
        case Polling(_) => NextHash(ledger);
      OneMovesForward(ledger, after, hash);
    }
  }

  /** And only then: a regular invoice on a used hash replaces what was there. */
  lemma CreatingKeepsExactlyWhenFresh(ledger: Ledger, node: NodeId, amount: Option<nat>)
    requires forall hash :: hash in ledger.invoices && !ledger.invoices[hash].isHold ==> ledger.invoices[hash].text.stamp <= ledger.nextId
    ensures Kept(ledger, CreateInvoice(ledger, node, amount)) <==> NextHash(ledger) !in ledger.invoices
  {
  }

  lemma KeptTransitive(a: Ledger, b: Ledger, c: Ledger)
    requires Kept(a, b) && Kept(b, c)
    ensures Kept(a, c)
  {
  }

  /** Over every continuation of a run, invoices only move forward. */
  lemma {:induction false} RunsMoveForward(ledger: Ledger, ops: seq<Operation>)
    requires OpenUnpaid(ledger) && forall k :: 0 <= k < |ops| ==> FreshHash(Run(ledger, ops[..k]), ops[k])
    ensures Kept(ledger, Run(ledger, ops)) && OpenUnpaid(Run(ledger, ops))
    decreases |ops|
  {
    if ops != [] {
      var earlier := ops[..|ops| - 1];
      forall k | 0 <= k < |earlier|
        ensures FreshHash(Run(ledger, earlier[..k]), earlier[k])
      {
        assert earlier[..k] == ops[..k];
      }
      RunsMoveForward(ledger, earlier);
      OperationsMoveForward(Run(ledger, earlier), ops[|ops| - 1]);
      KeptTransitive(ledger, Run(ledger, earlier), Run(ledger, ops));
    }
  }

  /** A settled hold invoice is forgotten when a regular invoice is created on its hash. */
  lemma ReusedHashForgets()
    ensures var ops := [Holding(0, Sha256(1), Some(5), 9), Paying(1, Bolt11(Sha256(1), Some(5), 0, 9), None), Claiming(1), Creating(0, None)];
            && Lookup(Run(EMPTY, ops[..3]), 1, Sha256(1)) == Paid(1)
            && Lookup(Run(EMPTY, ops), 1, Sha256(1)) == NotFound
  {
    var ops := [Holding(0, Sha256(1), Some(5), 9), Paying(1, Bolt11(Sha256(1), Some(5), 0, 9), None), Claiming(1), Creating(0, None)];
    assert ops[..3][..2] == ops[..2] && ops[..2][..1] == ops[..1] && ops[..1][..0] == [];
    assert Run(EMPTY, ops[..1]) == Apply(EMPTY, ops[0]);
    assert Run(EMPTY, ops[..2]) == Apply(Run(EMPTY, ops[..1]), ops[1]);
    assert Run(EMPTY, ops[..3]) == Apply(Run(EMPTY, ops[..2]), ops[2]);
  }

  // ---------------------------------------------------------------- what each call does, over the fields

  /** One more operation that creates no regular invoice keeps a run fresh and is applied to where it ended. */
  lemma OneMore(ops: seq<Operation>, op: Operation)
    requires FreshRun(ops) && !op.Creating?
    ensures FreshRun(ops + [op]) && Run(EMPTY, ops + [op]) == Apply(Run(EMPTY, ops), op)
    ensures Refines(Run(EMPTY, ops)) && Refines(Run(EMPTY, ops + [op]))
  {
    hide Refines, Apply;
    var longer := ops + [op];
    assert longer[..|ops|] == ops;
    forall k | 0 <= k < |longer|
      ensures FreshHash(Run(EMPTY, longer[..k]), longer[k])
    {
      assert k < |ops| ==> longer[..k] == ops[..k] && longer[k] == ops[k];
    }
    LedgerRefines(ops);
    LedgerRefines(longer);
  }

  /** What one event adds to the queue of `node`. */
  function ForNode(node: NodeId, seer: NodeId, event: LnEvent): seq<LnEvent> {
    if node == seer then [event] else []
  }

  /**
   Failing a hold invoice that is open or held cancels it. A held one has a payer, who is told of the
   failure and whose history then says so. Any other call changes nothing at all.
   */
  lemma FailExactly(ops: seq<Operation>, hash: Hash)
    requires FreshRun(ops)
    ensures var (ledger, after) := (Run(EMPTY, ops), Run(EMPTY, ops + [Failing(hash)]));
            if hash in ledger.invoices && ledger.invoices[hash].isHold && (ledger.invoices[hash].status.Open? || ledger.invoices[hash].status.Held?) then
              var invoice := ledger.invoices[hash];
              && after.invoices == ledger.invoices[hash := invoice.(status := Cancelled)]
              && after.nextId == ledger.nextId
              && (invoice.payer.Some? <==> invoice.status.Held?)
              && (if invoice.payer.None? then after.queues == ledger.queues && after.log == ledger.log
                  else
                    && (forall node :: Queue(after.queues, node) ==
                                       Queue(ledger.queues, node) + ForNode(node, invoice.payer.value, PaymentFailed(hash)))
                    && Told(ledger.log, invoice.payer.value, hash) == Pending && Told(after.log, invoice.payer.value, hash) == Failed)
            else after == ledger
  {
    hide Told, Successes, Failures;
    OneMore(ops, Failing(hash));
    assert HashAgrees(Run(EMPTY, ops), hash) && HashAgrees(Run(EMPTY, ops + [Failing(hash)]), hash);
  }

  lemma PayRefused(ledger: Ledger, payer: NodeId, text: Bolt11, asked: Option<nat>)
    requires !Payable(ledger, text, asked)
    ensures PayInvoice(ledger, payer, text, asked) == ledger
  {
  }

  /** Who hears what of a payment. */
  lemma PayNotices(ledger: Ledger, payer: NodeId, text: Bolt11, asked: Option<nat>, node: NodeId)
    requires Payable(ledger, text, asked)
    ensures var (invoice, after) := (ledger.invoices[text.hash], PayInvoice(ledger, payer, text, asked));
            var amount := AmountToPay(invoice.amount, asked).value;
            && after.nextId == ledger.nextId
            && Queue(after.queues, node) ==
                 if invoice.isHold then Queue(ledger.queues, node) + ForNode(node, invoice.owner, PaymentClaimable(text.hash, amount))
                 else Queue(ledger.queues, node) + ForNode(node, payer, PaymentSuccessful(text.hash, invoice.preimage))
                      + ForNode(node, invoice.owner, PaymentReceived(text.hash, amount))
  {
  }

  /** A payment of `amount` arrived: held for the owner of a hold invoice, settled at a regular one, and told to whom it concerns. */
  ghost predicate PaidInto(ledger: Ledger, after: Ledger, payer: NodeId, hash: Hash, amount: nat)
    requires hash in ledger.invoices
  {
    var invoice := ledger.invoices[hash];
    && after.nextId == ledger.nextId && Told(ledger.log, payer, hash) == NotFound
    && if invoice.isHold then
         && after.invoices == ledger.invoices[hash := invoice.(payer := Some(payer), status := Held(amount))]
         && (forall node :: Queue(after.queues, node) ==
                            Queue(ledger.queues, node) + ForNode(node, invoice.owner, PaymentClaimable(hash, amount)))
         && Told(after.log, payer, hash) == Pending
       else
         && after.invoices == ledger.invoices[hash := invoice.(payer := Some(payer), status := Settled)]
         && invoice.preimage.Some? && Sha256(invoice.preimage.value) == hash
         && (forall node :: Queue(after.queues, node) ==
                            Queue(ledger.queues, node) + ForNode(node, payer, PaymentSuccessful(hash, invoice.preimage))
                            + ForNode(node, invoice.owner, PaymentReceived(hash, amount)))
         && Told(after.log, payer, hash) == Paid(invoice.preimage.value)
  }

  lemma PaysInto(ledger: Ledger, payer: NodeId, text: Bolt11, asked: Option<nat>)
    requires HashAgrees(ledger, text.hash) && Payable(ledger, text, asked)
    ensures PaidInto(ledger, PayInvoice(ledger, payer, text, asked), payer, text.hash, AmountToPay(ledger.invoices[text.hash].amount, asked).value)
  {
    hide Told, Successes, Failures, Queue, PayInvoice, PayLog;
    PayLogged(ledger, payer, text, asked);
    PayAgreesOwn(ledger, payer, text, asked);
    var hash, invoice, after := text.hash, ledger.invoices[text.hash], PayInvoice(ledger, payer, text, asked);
    var amount := AmountToPay(invoice.amount, asked).value;
    forall node
      ensures after.nextId == ledger.nextId
      ensures invoice.isHold ==>
                Queue(after.queues, node) == Queue(ledger.queues, node) + ForNode(node, invoice.owner, PaymentClaimable(hash, amount))
      ensures !invoice.isHold ==>
                Queue(after.queues, node) == Queue(ledger.queues, node) + ForNode(node, payer, PaymentSuccessful(hash, invoice.preimage))
                                             + ForNode(node, invoice.owner, PaymentReceived(hash, amount))
    {
      PayNotices(ledger, payer, text, asked, node);
    }
    PayNotices(ledger, payer, text, asked, payer);
    assert Told(ledger.log, payer, hash) == Shown(invoice, payer) == NotFound;
    assert Told(after.log, payer, hash) == Shown(after.invoices[hash], payer);
  }

  /**
   Paying an open invoice with its own text and exactly one amount, the invoice's or the payer's, pays
   that amount into it. Any other call changes nothing at all.
   */
  lemma PayExactly(ops: seq<Operation>, payer: NodeId, text: Bolt11, asked: Option<nat>)
    requires FreshRun(ops)
    ensures var (ledger, after) := (Run(EMPTY, ops), Run(EMPTY, ops + [Paying(payer, text, asked)]));
            if && text.hash in ledger.invoices && ledger.invoices[text.hash].text == text && ledger.invoices[text.hash].status.Open?
               && (ledger.invoices[text.hash].amount.Some? <==> asked.None?)
            then
              PaidInto(ledger, after, payer, text.hash, if asked.Some? then asked.value else ledger.invoices[text.hash].amount.value)
            else after == ledger
  {
    hide PaidInto, PayInvoice, HashAgrees;
    OneMore(ops, Paying(payer, text, asked));
    var ledger := Run(EMPTY, ops);
    assert HashAgrees(ledger, text.hash);
    if Payable(ledger, text, asked) {
      PaysInto(ledger, payer, text, asked);
    } else {
      PayRefused(ledger, payer, text, asked);
    }
  }

  /**
   Claiming a held payment settles the invoice with the preimage. The payer gets the preimage and the
   owner the held amount. Any other call changes nothing at all.
   */
  lemma ClaimExactly(ops: seq<Operation>, preimage: Preimage)
    requires FreshRun(ops)
    ensures var (ledger, after, hash) := (Run(EMPTY, ops), Run(EMPTY, ops + [Claiming(preimage)]), Sha256(preimage));
            if hash in ledger.invoices && ledger.invoices[hash].isHold && ledger.invoices[hash].status.Held? then
              var invoice := ledger.invoices[hash];
              && after.invoices == ledger.invoices[hash := invoice.(status := Settled, preimage := Some(preimage))]
              && after.nextId == ledger.nextId && invoice.payer.Some?
              && (forall node :: Queue(after.queues, node) ==
                                 Queue(ledger.queues, node) + ForNode(node, invoice.payer.value, PaymentSuccessful(hash, Some(preimage)))
                                 + ForNode(node, invoice.owner, PaymentReceived(hash, invoice.status.amount)))
              && Told(ledger.log, invoice.payer.value, hash) == Pending && Told(after.log, invoice.payer.value, hash) == Paid(preimage)
            else after == ledger
  {
    hide Told, Successes, Failures;
    OneMore(ops, Claiming(preimage));
    assert HashAgrees(Run(EMPTY, ops), Sha256(preimage)) && HashAgrees(Run(EMPTY, ops + [Claiming(preimage)]), Sha256(preimage));
  }

  /** A lost record hides the payment from its payer's lookup, from nobody else's, and tells nobody anything. */
  lemma LoseExactly(ops: seq<Operation>, node: NodeId, hash: Hash)
    requires FreshRun(ops)
    ensures var (ledger, after) := (Run(EMPTY, ops), Run(EMPTY, ops + [Losing(node, hash)]));
            && Lookup(after, node, hash) == NotFound
            && (forall n, h :: n != node || h != hash ==> Lookup(after, n, h) == Lookup(ledger, n, h))
            && after.queues == ledger.queues && after.log == ledger.log
  {
    hide Told, Successes, Failures;
    OneMore(ops, Losing(node, hash));
    assert HashAgrees(Run(EMPTY, ops), hash);
  }

  // ---------------------------------------------------------------- what a node polls

  /** The events that were emitted to `node`, in order. */
  function EmittedTo(log: seq<Entry>, node: NodeId): seq<LnEvent>
    decreases |log|
  {
    if log == [] then []
    else
      var (earlier, last) := (log[..|log| - 1], log[|log| - 1]);
      EmittedTo(earlier, node) + if last.Emitted? then ForNode(node, last.node, last.event) else []
  }

  /** The events that `node` polled in a run, in order. */
  function PolledBy(ops: seq<Operation>, node: NodeId): seq<LnEvent>
    decreases |ops|
  {
    if ops == [] then []
    else
      var (earlier, last) := (ops[..|ops| - 1], ops[|ops| - 1]);
      var polled := if last == Polling(node) then PollEvent(Run(EMPTY, earlier), node).1 else None;
      PolledBy(earlier, node) + if polled.Some? then [polled.value] else []
  }

  lemma OneMoreEntry(log: seq<Entry>, entry: Entry, node: NodeId)
    ensures EmittedTo(log + [entry], node) == EmittedTo(log, node) + if entry.Emitted? then ForNode(node, entry.node, entry.event) else []
  {
    assert (log + [entry])[..|log|] == log;
  }

  /** An event pushed reaches the queue exactly as it reaches the log. */
  lemma PushInOrder(ledger: Ledger, seer: NodeId, event: LnEvent, node: NodeId, before: seq<LnEvent>)
    requires before + Queue(ledger.queues, node) == EmittedTo(ledger.log, node)
    ensures var after := Push(ledger, seer, event); before + Queue(after.queues, node) == EmittedTo(after.log, node)
  {
    OneMoreEntry(ledger.log, Emitted(seer, event), node);
    assert before + (Queue(ledger.queues, node) + [event]) == before + Queue(ledger.queues, node) + [event];
  }

  lemma ApplyInOrder(ledger: Ledger, op: Operation, node: NodeId, before: seq<LnEvent>)
    requires before + Queue(ledger.queues, node) == EmittedTo(ledger.log, node) && op != Polling(node)
    ensures var after := Apply(ledger, op); before + Queue(after.queues, node) == EmittedTo(after.log, node)
  {
    hide EmittedTo, Push, Queue;
    match op
    case Paying(payer, text, asked) =>
      if Payable(ledger, text, asked) {
        var invoice := ledger.invoices[text.hash].(payer := Some(payer));
        var amount := AmountToPay(invoice.amount, asked).value;
        OneMoreEntry(ledger.log, Payment(payer, text.hash), node);
        var paid := ledger.(log := ledger.log + [Payment(payer, text.hash)]);
        if invoice.isHold {
          PushInOrder(paid.(invoices := paid.invoices[text.hash := invoice.(status := Held(amount))]), invoice.owner,
                      PaymentClaimable(text.hash, amount), node, before);
        } else {
          var settled := paid.(invoices := paid.invoices[text.hash := invoice.(status := Settled)]);
          var success := PaymentSuccessful(text.hash, invoice.preimage);
          PushInOrder(settled, payer, success, node, before);
          PushInOrder(Push(settled, payer, success), invoice.owner, PaymentReceived(text.hash, amount), node, before);
        }
      }
    case Claiming(preimage) =>
      if Claimable(ledger, Sha256(preimage)) {
        var hash, invoice := Sha256(preimage), ledger.invoices[Sha256(preimage)];
        var claimed := ledger.(invoices := ledger.invoices[hash := invoice.(status := Settled, preimage := Some(preimage))]);
        var seer := if invoice.payer.Some? then invoice.payer.value else invoice.owner;
        PushInOrder(claimed, seer, PaymentSuccessful(hash, Some(preimage)), node, before);
        PushInOrder(Push(claimed, seer, PaymentSuccessful(hash, Some(preimage))), invoice.owner,
                    PaymentReceived(hash, invoice.status.amount), node, before);
      }
    case Failing(hash) =>
      if Failable(ledger.invoices, hash) && ledger.invoices[hash].payer.Some? {
        PushInOrder(ledger.(invoices := ledger.invoices[hash := ledger.invoices[hash].(status := Cancelled)]),
                    ledger.invoices[hash].payer.value, PaymentFailed(hash), node, before);
      }
    case Polling(other) =>
      OtherQueueKept(ledger, other, node);
    case _ =>
  }

  lemma OtherQueueKept(ledger: Ledger, other: NodeId, node: NodeId)
    requires other != node
    ensures Queue(PollEvent(ledger, other).0.queues, node) == Queue(ledger.queues, node)
  {
  }

  /** What a node polled and what still waits for it is what was emitted to it: nothing lost, doubled or reordered. */
  lemma {:induction false} PolledInOrder(ops: seq<Operation>, node: NodeId)
    ensures PolledBy(ops, node) + Queue(Run(EMPTY, ops).queues, node) == EmittedTo(Run(EMPTY, ops).log, node)
    decreases |ops|
  {
    if ops != [] {
      var earlier, last := ops[..|ops| - 1], ops[|ops| - 1];
      PolledInOrder(earlier, node);
      var ledger := Run(EMPTY, earlier);
      if last == Polling(node) {
        var queue := Queue(ledger.queues, node);
        if queue != [] {
          assert PolledBy(ops, node) + queue[1..] == PolledBy(earlier, node) + ([queue[0]] + queue[1..]);
          assert [queue[0]] + queue[1..] == queue;
        }
      } else {
        assert PolledBy(ops, node) == PolledBy(earlier, node);
        ApplyInOrder(ledger, last, node, PolledBy(earlier, node));
      }
    }
  }

  predicate QueuedWasEmitted(ledger: Ledger) {
    forall node, i :: node in ledger.queues && 0 <= i < |ledger.queues[node]| ==> Emitted(node, ledger.queues[node][i]) in ledger.log
  }

  lemma PushKeepsEmitted(ledger: Ledger, node: NodeId, event: LnEvent)
    requires QueuedWasEmitted(ledger)
    ensures QueuedWasEmitted(Push(ledger, node, event))
  {
  }

  lemma MoreLogKeepsEmitted(ledger: Ledger, after: Ledger)
    requires QueuedWasEmitted(ledger) && after.queues == ledger.queues && ledger.log <= after.log
    ensures QueuedWasEmitted(after)
  {
  }

  lemma ApplyKeepsEmitted(ledger: Ledger, op: Operation)
    requires QueuedWasEmitted(ledger)
    ensures QueuedWasEmitted(Apply(ledger, op))
  {
    match op
    case Paying(node, text, asked) =>
      if Payable(ledger, text, asked) {
        var invoice := ledger.invoices[text.hash].(payer := Some(node));
        var amount := AmountToPay(invoice.amount, asked).value;
        var paid := ledger.(log := ledger.log + [Payment(node, text.hash)]);
        var held := paid.(invoices := paid.invoices[text.hash := invoice.(status := Held(amount))]);
        var settled := paid.(invoices := paid.invoices[text.hash := invoice.(status := Settled)]);
        MoreLogKeepsEmitted(ledger, held);
        MoreLogKeepsEmitted(ledger, settled);
        PushKeepsEmitted(held, invoice.owner, PaymentClaimable(text.hash, amount));
        PushKeepsEmitted(settled, node, PaymentSuccessful(text.hash, invoice.preimage));
        PushKeepsEmitted(Push(settled, node, PaymentSuccessful(text.hash, invoice.preimage)), invoice.owner, PaymentReceived(text.hash, amount));
      }
    case Claiming(preimage) =>
      if Claimable(ledger, Sha256(preimage)) {
        var hash, invoice := Sha256(preimage), ledger.invoices[Sha256(preimage)];
        var claimed := ledger.(invoices := ledger.invoices[hash := invoice.(status := Settled, preimage := Some(preimage))]);
        var seer := if invoice.payer.Some? then invoice.payer.value else invoice.owner;
        MoreLogKeepsEmitted(ledger, claimed);
        PushKeepsEmitted(claimed, seer, PaymentSuccessful(hash, Some(preimage)));
        PushKeepsEmitted(Push(claimed, seer, PaymentSuccessful(hash, Some(preimage))), invoice.owner, PaymentReceived(hash, invoice.status.amount));
      }
    case Failing(hash) =>
      if hash in ledger.invoices && ledger.invoices[hash].payer.Some? {
        var failed := ledger.(invoices := ledger.invoices[hash := ledger.invoices[hash].(status := Cancelled)]);
        MoreLogKeepsEmitted(ledger, failed);
        PushKeepsEmitted(failed, ledger.invoices[hash].payer.value, PaymentFailed(hash));
      }
    case _ =>
  }

  lemma {:induction false} RunKeepsEmitted(ops: seq<Operation>)
    ensures QueuedWasEmitted(Run(EMPTY, ops))
    decreases |ops|
  {
    if ops != [] {
      RunKeepsEmitted(ops[..|ops| - 1]);
      ApplyKeepsEmitted(Run(EMPTY, ops[..|ops| - 1]), ops[|ops| - 1]);
    }
  }

  /** Events are only ever about registered hashes. */
  predicate EmittedKnown(ledger: Ledger) {
    forall i :: 0 <= i < |ledger.log| && ledger.log[i].Emitted? ==> ledger.log[i].event.hash in ledger.invoices
  }

  lemma ApplyKeepsKnown(ledger: Ledger, op: Operation)
    requires EmittedKnown(ledger)
    ensures EmittedKnown(Apply(ledger, op))
  {
  }

  lemma {:induction false} RunKeepsKnown(ops: seq<Operation>)
    ensures EmittedKnown(Run(EMPTY, ops))
    decreases |ops|
  {
    if ops != [] {
      RunKeepsKnown(ops[..|ops| - 1]);
      ApplyKeepsKnown(Run(EMPTY, ops[..|ops| - 1]), ops[|ops| - 1]);
    }
  }

  lemma {:induction false} EmittedCounts(log: seq<Entry>, node: NodeId, hash: Hash, preimage: Option<Preimage>)
    requires Emitted(node, PaymentSuccessful(hash, preimage)) in log
    ensures Successes(log, hash) >= 1
    decreases |log|
  {
    if log[|log| - 1] != Emitted(node, PaymentSuccessful(hash, preimage)) {
      assert Emitted(node, PaymentSuccessful(hash, preimage)) in log[..|log| - 1];
      EmittedCounts(log[..|log| - 1], node, hash, preimage);
    }
  }

  /** Every success that was announced carries a preimage of its hash. */
  predicate SuccessesSound(log: seq<Entry>) {
    forall i :: 0 <= i < |log| && log[i].Emitted? && log[i].event.PaymentSuccessful? ==>
      log[i].event.preimage.Some? && Sha256(log[i].event.preimage.value) == log[i].event.hash
  }

  lemma ApplyKeepsSuccesses(ledger: Ledger, op: Operation)
    requires SuccessesSound(ledger.log) && Refines(ledger)
    ensures SuccessesSound(Apply(ledger, op).log)
  {
    hide Told, Successes, Failures;
    if op.Paying? {
      assert HashAgrees(ledger, op.text.hash);
    }
  }

  lemma {:induction false} RunKeepsSuccesses(ops: seq<Operation>)
    requires FreshRun(ops)
    ensures SuccessesSound(Run(EMPTY, ops).log)
    decreases |ops|
  {
    if ops != [] {
      FreshShorter(ops);
      RunKeepsSuccesses(ops[..|ops| - 1]);
      LedgerRefines(ops[..|ops| - 1]);
      ApplyKeepsSuccesses(Run(EMPTY, ops[..|ops| - 1]), ops[|ops| - 1]);
    }
  }

  /** A success event a node polls means that the invoice is settled, with a preimage of its hash. */
  lemma PolledSuccessIsSettled(ops: seq<Operation>, node: NodeId)
    requires FreshRun(ops)
    ensures var (ledger, event) := (Run(EMPTY, ops), PollEvent(Run(EMPTY, ops), node).1);
            event.Some? && event.value.PaymentSuccessful? ==>
              event.value.hash in ledger.invoices && ledger.invoices[event.value.hash].status.Settled?
  {
    var ledger := Run(EMPTY, ops);
    var event := PollEvent(ledger, node).1;
    if event.Some? && event.value.PaymentSuccessful? {
      RunKeepsEmitted(ops);
      EmittedCounts(ledger.log, node, event.value.hash, event.value.preimage);
      LedgerRefines(ops);
      assert HashAgrees(ledger, event.value.hash);
    }
  }

  // ---------------------------------------------------------------- the ledger in memory

  /** An invoice that waits for its first payment, to be made to `node`. */
  predicate OpenFor(invoice: Invoice, text: Bolt11, node: NodeId, amount: Option<nat>) {
    && invoice.text == text && invoice.amount == amount == text.amount && invoice.owner == node
    && invoice.status == Open && invoice.payer.None? && !invoice.recordLost
  }

  /** The ledger all nodes share, updated in place; `log` is only for the statement of what happened. */
  class SharedLedger {
    var invoices: map<Hash, Invoice>
    var queues: map<NodeId, seq<LnEvent>>
    var nextId: nat
    ghost var log: seq<Entry>

    ghost function View(): Ledger
      reads this
    {
      Ledger(invoices, queues, nextId, log)
    }

    constructor ()
      ensures View() == EMPTY
    {
      invoices, queues, nextId, log := map[], map[], 0, [];
    }

    method PushEvent(node: NodeId, event: LnEvent)
      modifies this
      ensures View() == Push(old(View()), node, event)
    {
      queues := queues[node := Queue(queues, node) + [event]];
      log := log + [Emitted(node, event)];
    }

    method CreateRegular(node: NodeId, amount: Option<nat>) returns (text: Bolt11)
      modifies this
      ensures View() == CreateInvoice(old(View()), node, amount)
      ensures text.hash in invoices && OpenFor(invoices[text.hash], text, node, amount) && !invoices[text.hash].isHold
      ensures invoices[text.hash].preimage.Some? && Sha256(invoices[text.hash].preimage.value) == text.hash
      ensures invoices == old(invoices)[text.hash := invoices[text.hash]] && queues == old(queues) && log == old(log)
    {
      nextId := nextId + 1;
      var hash := Sha256(nextId);
      text := Bolt11(hash, amount, node, nextId);
      invoices := invoices[hash := Invoice(text, amount, Some(nextId), false, Open, node, None, false)];
    }

    method Pay(node: NodeId, text: Bolt11, asked: Option<nat>) returns (paid: bool)
      modifies this
      ensures View() == PayInvoice(old(View()), node, text, asked)
      ensures paid <==> && text.hash in old(invoices) && old(invoices)[text.hash].text == text && old(invoices)[text.hash].status.Open?
                        && (old(invoices)[text.hash].amount.Some? <==> asked.None?)
    {
      var hash := text.hash;
      if hash !in invoices || invoices[hash].text != text || !invoices[hash].status.Open? {
        return false;
      }
      var entry := invoices[hash];
      if entry.amount.Some? == asked.Some? {
        return false;
      }
      var amount := if entry.amount.Some? then entry.amount.value else asked.value;
      log := log + [Payment(node, hash)];
      if entry.isHold {
        invoices := invoices[hash := entry.(payer := Some(node), status := Held(amount))];
        PushEvent(entry.owner, PaymentClaimable(hash, amount));
      } else {
        invoices := invoices[hash := entry.(payer := Some(node), status := Settled)];
        PushEvent(node, PaymentSuccessful(hash, entry.preimage));
        PushEvent(entry.owner, PaymentReceived(hash, amount));
      }
      return true;
    }

    method CreateHold(node: NodeId, hash: Hash, amount: Option<nat>, stamp: nat) returns (created: bool)
      modifies this
      ensures View() == CreateHoldInvoice(old(View()), node, hash, amount, stamp) && created == (hash !in old(invoices))
      ensures if created then
                && hash in invoices && OpenFor(invoices[hash], Bolt11(hash, amount, node, stamp), node, amount)
                && invoices[hash].isHold && invoices[hash].preimage.None? && invoices == old(invoices)[hash := invoices[hash]]
                && queues == old(queues) && nextId == old(nextId) && log == old(log)
              else View() == old(View())
    {
      if hash in invoices {
        return false;
      }
      invoices := invoices[hash := Invoice(Bolt11(hash, amount, node, stamp), amount, None, true, Open, node, None, false)];
      return true;
    }

    method ClaimHeld(preimage: Preimage) returns (claimed: bool)
      modifies this
      ensures View() == ClaimHeldPayment(old(View()), preimage)
      ensures claimed <==> && Sha256(preimage) in old(invoices) && old(invoices)[Sha256(preimage)].isHold
                           && old(invoices)[Sha256(preimage)].status.Held?
    {
      var hash := Sha256(preimage);
      if hash !in invoices || !invoices[hash].isHold || !invoices[hash].status.Held? {
        return false;
      }
      var invoice := invoices[hash];
      invoices := invoices[hash := invoice.(status := Settled, preimage := Some(preimage))];
      PushEvent(if invoice.payer.Some? then invoice.payer.value else invoice.owner, PaymentSuccessful(hash, Some(preimage)));
      PushEvent(invoice.owner, PaymentReceived(hash, invoice.status.amount));
      return true;
    }

    method FailHeld(hash: Hash) returns (failed: bool)
      modifies this
      ensures View() == FailHeldPayment(old(View()), hash)
      ensures failed <==> && hash in old(invoices) && old(invoices)[hash].isHold
                          && (old(invoices)[hash].status.Open? || old(invoices)[hash].status.Held?)
    {
      if hash !in invoices || !invoices[hash].isHold || invoices[hash].status.Settled? || invoices[hash].status.Cancelled? {
        return false;
      }
      var invoice := invoices[hash];
      invoices := invoices[hash := invoice.(status := Cancelled)];
      if invoice.payer.Some? {
        PushEvent(invoice.payer.value, PaymentFailed(hash));
      }
      return true;
    }

    method Poll(node: NodeId) returns (event: Option<LnEvent>)
      modifies this
      ensures (View(), event) == PollEvent(old(View()), node)
    {
      var queue := Queue(queues, node);
      if queue == [] {
        return None;
      }
      queues := queues[node := queue[1..]];
      return Some(queue[0]);
    }
  }
}
