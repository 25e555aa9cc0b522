/** The on-chain HTLC of a submarine swap and its two spends (`src/lightning/swap.rs`, script of `src/protocol/contract.rs`). */
module SwapHtlc {
  import opened Common
  import opened Ledger

  type PubKey = nat

  /** hash160 of a preimage, as ripemd160 of its sha256; injective. */
  datatype Hash160 = Ripemd160(hash: Hash)

  /** The contract script: hash lock for one key, relative time lock for the other. */
  datatype Htlc = Htlc(hashlock: PubKey, timelock: PubKey, hashvalue: Hash160, locktime: nat)

  /** A witness element: a 32-byte string, the empty string, a signature by a key, a witness script, or anything else. */
  datatype Element = Bytes32(content: Preimage) | Nothing | Signature(key: PubKey) | Script(script: Htlc) | Blob(id: nat)

  datatype TxIn = TxIn(outpoint: nat, sequence: nat, stack: seq<Element>)

  datatype Transaction = Transaction(inputs: seq<TxIn>, value: nat)

  /** The HTLC on the Lightning payment hash, built without knowing the preimage. */
  function NewHtlc(hashlock: PubKey, timelock: PubKey, paymentHash: Hash, locktime: nat): Htlc {
    Htlc(hashlock, timelock, Ripemd160(paymentHash), locktime)
  }

  /** 150 vbytes at 2 sat per vbyte. */
  const SPEND_FEE := 300

  function BuildSpend(outpoint: nat, value: nat, sequence: nat, stack: seq<Element>): Result<Transaction> {
    if value < SPEND_FEE then Err("fee exceeds input value") else Ok(Transaction([TxIn(outpoint, sequence, stack)], value - SPEND_FEE))
  }

  function HashlockSpend(htlc: Htlc, outpoint: nat, value: nat, key: PubKey, preimage: Preimage): Result<Transaction> {
    BuildSpend(outpoint, value, 0, [Signature(key), Bytes32(preimage), Script(htlc)])
  }

  function TimelockSpend(htlc: Htlc, outpoint: nat, value: nat, key: PubKey): Result<Transaction> {
    BuildSpend(outpoint, value, htlc.locktime, [Signature(key), Nothing, Script(htlc)])
  }

  /** What the script demands of an input, `age` blocks after the spent output confirmed (BIP 68 and BIP 112). */
  predicate Satisfies(htlc: Htlc, input: TxIn, age: nat) {
    && age >= input.sequence
    && |input.stack| == 3 && input.stack[2] == Script(htlc)
    && if input.stack[1].Bytes32? && Ripemd160(Sha256(input.stack[1].content)) == htlc.hashvalue then
         input.stack[0] == Signature(htlc.hashlock)
       else
         input.stack[1] == Nothing && input.stack[0] == Signature(htlc.timelock) && input.sequence >= htlc.locktime
  }

  predicate TakesHashlock(htlc: Htlc, input: TxIn) {
    |input.stack| == 3 && input.stack[2] == Script(htlc) && input.stack[1].Bytes32?
  }

  /** `extract_preimage`: the first input with this script that shows a 32-byte second element. */
  function ExtractPreimage(htlc: Htlc, inputs: seq<TxIn>): Option<Preimage> {
    if inputs == [] then None
    else if TakesHashlock(htlc, inputs[0]) then Some(inputs[0].stack[1].content)
    else ExtractPreimage(htlc, inputs[1..])
  }

  /** The scan over the inputs: the bytes of the first witness of three elements that ends in some 32 bytes and this script. */
  method FindPreimage(htlc: Htlc, tx: Transaction) returns (found: Option<Preimage>)
    ensures found == ExtractPreimage(htlc, tx.inputs)
    ensures found.None? ==> forall input :: input in tx.inputs && |input.stack| == 3 && input.stack[1].Bytes32? ==> input.stack[2] != Script(htlc)
    ensures found.Some? ==> exists i :: 0 <= i < |tx.inputs| && |tx.inputs[i].stack| == 3
                                        && tx.inputs[i].stack[1..] == [Bytes32(found.value), Script(htlc)]
                                        && forall j :: 0 <= j < i && |tx.inputs[j].stack| == 3 && tx.inputs[j].stack[1].Bytes32? ==>
                                             tx.inputs[j].stack[2] != Script(htlc)
  {
    for i := 0 to |tx.inputs|
      invariant ExtractPreimage(htlc, tx.inputs) == ExtractPreimage(htlc, tx.inputs[i..])
      invariant forall j :: 0 <= j < i ==> !TakesHashlock(htlc, tx.inputs[j])
    {
      if TakesHashlock(htlc, tx.inputs[i]) {
        return Some(tx.inputs[i].stack[1].content);
      }
    }
    return None;
  }

  /** A hashlock spend with the right key and preimage is valid at once; extraction returns exactly its preimage. */
  lemma HashlockSpendReveals(htlc: Htlc, outpoint: nat, value: nat, preimage: Preimage, age: nat)
    requires value >= SPEND_FEE && htlc.hashvalue == Ripemd160(Sha256(preimage))
    ensures var tx := HashlockSpend(htlc, outpoint, value, htlc.hashlock, preimage).value;
            Satisfies(htlc, tx.inputs[0], age) && ExtractPreimage(htlc, tx.inputs) == Some(preimage)
  {
  }

  /** A timelock spend is valid exactly from `locktime` blocks on, and reveals nothing. */
  lemma TimelockSpendWaits(htlc: Htlc, outpoint: nat, value: nat, age: nat)
    requires value >= SPEND_FEE
    ensures var tx := TimelockSpend(htlc, outpoint, value, htlc.timelock).value;
            (Satisfies(htlc, tx.inputs[0], age) <==> age >= htlc.locktime) && ExtractPreimage(htlc, tx.inputs) == None
  {
  }

  /**
   Whoever makes a valid transaction that spends the HTLC by its hash lock reveals the preimage:
   extraction finds it, whatever other inputs the transaction has.
   */
  lemma {:induction false} ValidHashlockSpendReveals(htlc: Htlc, inputs: seq<TxIn>, ages: seq<nat>, spend: nat)
    requires |ages| == |inputs| && spend < |inputs|
    requires forall i :: 0 <= i < |inputs| && TakesHashlock(htlc, inputs[i]) ==> Satisfies(htlc, inputs[i], ages[i])
    requires TakesHashlock(htlc, inputs[spend])
    ensures ExtractPreimage(htlc, inputs).Some? && Ripemd160(Sha256(ExtractPreimage(htlc, inputs).value)) == htlc.hashvalue
    decreases |inputs|
  {
    if TakesHashlock(htlc, inputs[0]) {
      assert Satisfies(htlc, inputs[0], ages[0]);
    } else {
      forall i | 0 <= i < |inputs[1..]| && TakesHashlock(htlc, inputs[1..][i])
        ensures Satisfies(htlc, inputs[1..][i], ages[1..][i])
      {
        assert inputs[1..][i] == inputs[i + 1] && ages[1..][i] == ages[i + 1];
      }
      ValidHashlockSpendReveals(htlc, inputs[1..], ages[1..], spend - 1);
    }
  }

  /** A valid spend takes one branch only: before the lock time it shows a preimage, by the refunding key it waited. */
  lemma EarlySpendShowsPreimage(htlc: Htlc, input: TxIn, age: nat)
    requires Satisfies(htlc, input, age) && age < htlc.locktime
    ensures TakesHashlock(htlc, input) && Ripemd160(Sha256(input.stack[1].content)) == htlc.hashvalue
    ensures input.stack[0] == Signature(htlc.hashlock)
  {
  }
}
