/**
 The funding broadcast of one Legacy swap (`process_resp_contract_sigs_for_recvr_and_sender` of
 `src/maker/legacy_handlers.rs`), one effect per step: store, arm the watches, save the signed
 coins, then send, commit and record one funding transaction after another, and store again.

 The handler holds the swap's funding mark, but other connections of the same admission do not
 need it to store the broadcast list they carry, and a drain or a removal takes the stored swap
 away. All of this may happen between any two steps, and the handler may stop after any of them.
 */
module Broadcast {
  import opened Common
  import opened MakerState

  /** An outgoing coin: its contract transaction and the funding transaction that one spends. */
  datatype Coin = Coin(contract: Txid, outputs: nat, funding: Txid)

  datatype Batch = Batch(coins: seq<Coin>, txids: seq<Txid>)

  /** What the wallet has on disk for a coin. */
  datatype Saved = Saved(signed: bool, committed: bool)

  /** Where the broadcast list of the swap is: stored, handed to recovery by a drain, or gone with a removal. */
  datatype Records = Stored(list: seq<Txid>) | Handed(list: seq<Txid>) | Lost

  datatype World = World(saved: map<Txid, Saved>, watched: set<(Txid, nat)>, accepted: set<Txid>, records: Records)

  /** The next effect of the handler. */
  datatype Position =
    | ToStore
    | Verifying
    | Arming(coin: nat, output: nat)
    | ToSave
    | ToSend(index: nat)                    // past the last transaction: the final store
    | Committing(index: nat, coin: nat)
    | ToRecord(index: nat)
    | Done

  /** A handler of connection `c`, with the connection's own broadcast list. */
  datatype Handler = Handler(c: nat, at: Position, list: seq<Txid>)

  // ---------------------------------------------------------------- the effects

  /** The outputs armed once `coins` coins are done, and `outputs` outputs of the next. */
  function Armed(batch: Batch, coins: nat, outputs: nat): set<(Txid, nat)>
    requires coins <= |batch.coins|
  {
    (set i, v | 0 <= i < coins && 0 <= v < batch.coins[i].outputs :: (batch.coins[i].contract, v))
    + if coins < |batch.coins| then set v | 0 <= v < outputs :: (batch.coins[coins].contract, v) else {}
  }

  /** Saving merges: a coin once committed stays committed. */
  function Put(saved: map<Txid, Saved>, coin: Coin, committed: bool): map<Txid, Saved> {
    saved[coin.contract := Saved(true, committed || (coin.contract in saved && saved[coin.contract].committed))]
  }

  function PutAll(saved: map<Txid, Saved>, coins: seq<Coin>): map<Txid, Saved>
    decreases |coins|
  {
    if coins == [] then saved else Put(PutAll(saved, coins[..|coins| - 1]), coins[|coins| - 1], false)
  }

  /** One effect of the handler; none when it ends. A store or a record of a swap that is gone is an error. */
  function Effect(world: World, batch: Batch, h: Handler): (World, Option<Handler>) {
    match h.at
    case ToStore =>
      if world.records.Stored? then (world.(records := Stored(h.list)), Some(h.(at := Verifying))) else (world, None)
    case Verifying => (world, Some(h.(at := Arming(0, 0))))
    case Arming(i, v) =>
      if i >= |batch.coins| then (world, Some(h.(at := ToSave)))
      else if v >= batch.coins[i].outputs then (world, Some(h.(at := Arming(i + 1, 0))))
      else (world.(watched := world.watched + {(batch.coins[i].contract, v)}), Some(h.(at := Arming(i, v + 1))))
    case ToSave => (world.(saved := PutAll(world.saved, batch.coins)), Some(h.(at := ToSend(0))))
    case ToSend(i) =>
      if i < |batch.txids| then (world.(accepted := world.accepted + {batch.txids[i]}), Some(h.(at := Committing(i, 0))))
      else if world.records.Stored? then (world.(records := Stored(h.list)), Some(h.(at := Done)))
      else (world, None)
    case Committing(i, j) =>
      if j >= |batch.coins| || i >= |batch.txids| then (world, Some(h.(at := ToRecord(i))))
      else if batch.coins[j].funding == batch.txids[i] then
        (world.(saved := Put(world.saved, batch.coins[j], true)), Some(h.(at := Committing(i, j + 1))))
      else (world, Some(h.(at := Committing(i, j + 1))))
    case ToRecord(i) =>
      if i < |batch.txids| && world.records.Stored? then
        (world.(records := Stored(Listed(world.records.list, batch.txids[i]))),
         Some(h.(at := ToSend(i + 1), list := Listed(h.list, batch.txids[i]))))
      else (world, None)
    case Done => (world, None)
  }

  /** The open connections with the lists they carry, and the handler that holds the mark. */
  datatype Machine = Machine(world: World, lists: map<nat, seq<Txid>>, running: Option<Handler>)

  datatype Event =
    | Open(c: nat)            // a new connection, with an empty list
    | Restore(c: nat)         // it takes the stored list over
    | StoreBy(c: nat)         // a message that stores its connection without the mark
    | PutBack(c: nat)         // a completed connection stores a swap that is gone
    | Begin(c: nat)           // the contract signatures arrive
    | Advance
    | Fail                    // the handler stops: its connection is closed
    | BadSignatures
    | Drain
    | Remove

  predicate Busy(m: Machine, c: nat) {
    m.running.Some? && m.running.value.c == c
  }

  function Next(m: Machine, batch: Batch, event: Event): Machine {
    match event
    case Open(c) => if Busy(m, c) then m else m.(lists := m.lists[c := []])
    case Restore(c) =>
      if !Busy(m, c) && m.world.records.Stored? then m.(lists := m.lists[c := m.world.records.list]) else m
    case StoreBy(c) =>
      if c in m.lists && m.world.records.Stored? then m.(world := m.world.(records := Stored(m.lists[c]))) else m
    case PutBack(c) =>
      if c in m.lists && !m.world.records.Stored? then m.(world := m.world.(records := Stored(m.lists[c]))) else m
    case Begin(c) =>
      if m.running.None? && c in m.lists then
        m.(lists := m.lists - {c}, running := Some(Handler(c, ToStore, m.lists[c])))
      else m
    case Advance =>
      if m.running.None? then m
      else
        var (world, running) := Effect(m.world, batch, m.running.value);
        Machine(world, if m.running.value.at.Done? then m.lists[m.running.value.c := m.running.value.list] else m.lists, running)
    case Fail => m.(running := None)
    case BadSignatures =>
      if m.running.Some? && m.running.value.at.Verifying? then m.(world := Removed(m.world), running := None) else m
    case Drain => if m.world.records.Stored? then m.(world := m.world.(records := Handed(m.world.records.list))) else m
    case Remove => m.(world := Removed(m.world))
  }

  function Removed(world: World): World {
    if world.records.Stored? then world.(records := Lost) else world
  }

  function Run(m: Machine, batch: Batch, events: seq<Event>): Machine
    decreases |events|
  {
    if events == [] then m else Next(Run(m, batch, events[..|events| - 1]), batch, events[|events| - 1])
  }

  /** A swap before its first broadcast: nothing accepted, nothing recorded, nobody at work. */
  predicate Unsent(m: Machine) {
    m.world.accepted == {} && m.world.records == Stored([]) && m.lists == map[] && m.running == None
  }

  // ---------------------------------------------------------------- what every run keeps

  function Prefix(batch: Batch, n: nat): set<Txid>
    requires n <= |batch.txids|
  {
    set i | 0 <= i < n :: batch.txids[i]
  }

  /** Every coin is saved with the counterparty's signature and all its contract outputs are watched. */
  predicate Armoured(world: World, batch: Batch) {
    && (forall i :: 0 <= i < |batch.coins| ==> batch.coins[i].contract in world.saved && world.saved[batch.coins[i].contract].signed)
    && Armed(batch, |batch.coins|, 0) <= world.watched
  }

  /** Those of the first `count` coins that `txid` funds are committed. */
  predicate CommittedAmong(world: World, batch: Batch, txid: Txid, count: nat)
    requires count <= |batch.coins|
  {
    forall i :: 0 <= i < count && batch.coins[i].funding == txid ==>
      batch.coins[i].contract in world.saved && world.saved[batch.coins[i].contract].committed
  }

  predicate CommittedFor(world: World, batch: Batch, txid: Txid) {
    CommittedAmong(world, batch, txid, |batch.coins|)
  }

  /**
   The first `a` transactions are the accepted ones, only over saved and watched coins, and the
   coins of all but the last of them are committed.
   */
  predicate InOrder(world: World, batch: Batch, a: nat) {
    && a <= |batch.txids| && world.accepted == Prefix(batch, a)
    && (a > 0 ==> Armoured(world, batch))
    && (forall i :: 0 <= i && i + 1 < a ==> CommittedFor(world, batch, batch.txids[i]))
  }

  /** The list names only accepted transactions whose coins are committed, each once. */
  predicate Sound(world: World, batch: Batch, list: seq<Txid>) {
    NoRepeats(list) && forall txid :: txid in list ==> txid in world.accepted && CommittedFor(world, batch, txid)
  }

  predicate SoundRecords(world: World, batch: Batch) {
    !world.records.Lost? ==> Sound(world, batch, world.records.list)
  }

  /** The first `n` transactions are committed and on the handler's own list. */
  predicate PassedOver(world: World, batch: Batch, list: seq<Txid>, n: nat)
    requires n <= |batch.txids|
  {
    forall i :: 0 <= i < n ==> CommittedFor(world, batch, batch.txids[i]) && batch.txids[i] in list
  }

  /** What the handler has done before its next effect. */
  predicate AtOk(world: World, batch: Batch, h: Handler, a: nat)
    requires a <= |batch.txids|
  {
    match h.at
    case ToStore => true
    case Verifying => true
    case Arming(i, v) => i <= |batch.coins| && Armed(batch, i, v) <= world.watched
    case ToSave => Armed(batch, |batch.coins|, 0) <= world.watched
    case ToSend(i) => i <= a && Armoured(world, batch) && PassedOver(world, batch, h.list, i)
    case Committing(i, j) =>
      && i < a && j <= |batch.coins| && Armoured(world, batch) && PassedOver(world, batch, h.list, i)
      && CommittedAmong(world, batch, batch.txids[i], j)
    case ToRecord(i) =>
      && i < a && Armoured(world, batch) && PassedOver(world, batch, h.list, i) && CommittedFor(world, batch, batch.txids[i])
    case Done => PassedOver(world, batch, h.list, |batch.txids|)
  }

  predicate DistinctContracts(batch: Batch) {
    forall i, j :: 0 <= i < j < |batch.coins| ==> batch.coins[i].contract != batch.coins[j].contract
  }

  /** A coin is committed only once its own funding transaction is accepted. */
  predicate Earned(world: World, batch: Batch) {
    forall i :: 0 <= i < |batch.coins| && batch.coins[i].contract in world.saved && world.saved[batch.coins[i].contract].committed ==>
      batch.coins[i].funding in world.accepted
  }

  predicate HandlerOk(world: World, batch: Batch, h: Handler, a: nat) {
    a <= |batch.txids| && Sound(world, batch, h.list) && AtOk(world, batch, h, a)
  }

  predicate Orderly(m: Machine, batch: Batch, a: nat) {
    && InOrder(m.world, batch, a) && SoundRecords(m.world, batch)
    && (forall c :: c in m.lists ==> Sound(m.world, batch, m.lists[c]))
    && (m.running.Some? ==> HandlerOk(m.world, batch, m.running.value, a))
  }

  /** What is saved, signed, committed, watched or accepted stays so. */
  predicate Keeps(world: World, after: World) {
    && (forall c :: c in world.saved ==>
          c in after.saved && (world.saved[c].signed ==> after.saved[c].signed) && (world.saved[c].committed ==> after.saved[c].committed))
    && world.watched <= after.watched && world.accepted <= after.accepted
  }

  lemma {:induction false} PutAllSaves(saved: map<Txid, Saved>, coins: seq<Coin>)
    ensures forall c :: c in saved ==>
              c in PutAll(saved, coins) && (saved[c].signed ==> PutAll(saved, coins)[c].signed)
              && (saved[c].committed ==> PutAll(saved, coins)[c].committed)
    ensures forall i :: 0 <= i < |coins| ==> coins[i].contract in PutAll(saved, coins) && PutAll(saved, coins)[coins[i].contract].signed
    decreases |coins|
  {
    if coins != [] {
      PutAllSaves(saved, coins[..|coins| - 1]);
    }
  }

  lemma EffectKeeps(world: World, batch: Batch, h: Handler)
    ensures Keeps(world, Effect(world, batch, h).0)
  {
    PutAllSaves(world.saved, batch.coins);
  }

  lemma KeptSound(world: World, after: World, batch: Batch, list: seq<Txid>)
    requires Keeps(world, after) && Sound(world, batch, list)
    ensures Sound(after, batch, list)
  {
  }

  lemma PrefixGrows(batch: Batch, a: nat, i: nat)
    requires i <= a <= |batch.txids| && i < |batch.txids|
    ensures Prefix(batch, a) + {batch.txids[i]} == Prefix(batch, if i == a then a + 1 else a)
  {
  }

  /** How many transactions are accepted after the handler's next effect. */
  function Accepted(batch: Batch, h: Handler, a: nat): nat {
    if h.at.ToSend? && h.at.index == a && a < |batch.txids| then a + 1 else a
  }

  lemma ArmingOk(world: World, batch: Batch, h: Handler, a: nat)
    requires h.at.Arming? && HandlerOk(world, batch, h, a) && Effect(world, batch, h).1.Some?
    ensures AtOk(Effect(world, batch, h).0, batch, Effect(world, batch, h).1.value, a)
  {
    var i, v := h.at.coin, h.at.output;
    if i < |batch.coins| && v >= batch.coins[i].outputs {
      assert Armed(batch, i + 1, 0) <= Armed(batch, i, v);
    } else if i >= |batch.coins| {
      assert Armed(batch, i, v) == Armed(batch, |batch.coins|, 0);
    } else {
      assert Armed(batch, i, v + 1) <= Armed(batch, i, v) + {(batch.coins[i].contract, v)};
    }
  }

  lemma SendingOk(world: World, batch: Batch, h: Handler, a: nat)
    requires InOrder(world, batch, a) && SoundRecords(world, batch) && HandlerOk(world, batch, h, a)
    requires h.at.ToSend? || h.at.Committing? || h.at.ToRecord?
    ensures var (after, running) := Effect(world, batch, h);
            && InOrder(after, batch, Accepted(batch, h, a)) && SoundRecords(after, batch)
            && (running.Some? ==> HandlerOk(after, batch, running.value, Accepted(batch, h, a)))
  {
    EffectKeeps(world, batch, h);
    var after := Effect(world, batch, h).0;
    KeptSound(world, after, batch, h.list);
    if !world.records.Lost? {
      KeptSound(world, after, batch, world.records.list);
    }
    if h.at.ToSend? && h.at.index < |batch.txids| {
      PrefixGrows(batch, a, h.at.index);
    } else if h.at.ToRecord? {
      assert batch.txids[h.at.index] in Prefix(batch, a);
    }
  }

  lemma EffectOk(world: World, batch: Batch, h: Handler, a: nat)
    requires InOrder(world, batch, a) && SoundRecords(world, batch) && HandlerOk(world, batch, h, a)
    ensures var (after, running) := Effect(world, batch, h);
            && InOrder(after, batch, Accepted(batch, h, a)) && SoundRecords(after, batch)
            && (running.Some? ==> HandlerOk(after, batch, running.value, Accepted(batch, h, a)))
  {
    EffectKeeps(world, batch, h);
    var after := Effect(world, batch, h).0;
    if h.at.ToSend? || h.at.Committing? || h.at.ToRecord? {
      SendingOk(world, batch, h, a);
    } else {
      KeptSound(world, after, batch, h.list);
      if h.at.Arming? {
        ArmingOk(world, batch, h, a);
      } else if h.at.ToSave? {
        PutAllSaves(world.saved, batch.coins);
      }
    }
  }

  lemma {:induction false} PutAllCommitsNothing(saved: map<Txid, Saved>, coins: seq<Coin>, c: Txid)
    requires c in PutAll(saved, coins) && PutAll(saved, coins)[c].committed
    ensures c in saved && saved[c].committed
    decreases |coins|
  {
    if coins != [] {
      PutAllCommitsNothing(saved, coins[..|coins| - 1], c);
    }
  }

  lemma EffectEarned(world: World, batch: Batch, h: Handler, a: nat)
    requires DistinctContracts(batch) && Earned(world, batch) && InOrder(world, batch, a) && HandlerOk(world, batch, h, a)
    ensures Earned(Effect(world, batch, h).0, batch)
  {
    var after := Effect(world, batch, h).0;
    forall i | 0 <= i < |batch.coins| && batch.coins[i].contract in after.saved && after.saved[batch.coins[i].contract].committed
      ensures batch.coins[i].funding in after.accepted
    {
      if h.at.ToSave? {
        PutAllCommitsNothing(world.saved, batch.coins, batch.coins[i].contract);
      } else if h.at.Committing? {
        assert batch.txids[h.at.index] in Prefix(batch, a);
      }
    }
  }

  lemma NextOrderly(m: Machine, batch: Batch, event: Event, a: nat) returns (a': nat)
    requires Orderly(m, batch, a)
    ensures Orderly(Next(m, batch, event), batch, a') && a <= a'
    ensures DistinctContracts(batch) && Earned(m.world, batch) ==> Earned(Next(m, batch, event).world, batch)
  {
    a' := a;
    if event.Advance? && m.running.Some? {
      if DistinctContracts(batch) && Earned(m.world, batch) {
        EffectEarned(m.world, batch, m.running.value, a);
      }
      hide Effect, InOrder, AtOk, Sound;
      var h := m.running.value;
      a' := Accepted(batch, h, a);
      var after := Effect(m.world, batch, h).0;
      EffectOk(m.world, batch, h, a);
      EffectKeeps(m.world, batch, h);
      KeptSound(m.world, after, batch, h.list);
      forall c | c in m.lists
        ensures Sound(after, batch, m.lists[c])
      {
        KeptSound(m.world, after, batch, m.lists[c]);
      }
    } else if !event.Advance? {
      OtherOrderly(m, batch, event, a);
    }
  }

  lemma OtherOrderly(m: Machine, batch: Batch, event: Event, a: nat)
    requires Orderly(m, batch, a) && !event.Advance?
    ensures Orderly(Next(m, batch, event), batch, a)
  {
    var later := Next(m, batch, event);
    assert later.world == m.world.(records := later.world.records);
  }

  /**
   Over every run, whatever connections store, drains and removals come in between, and wherever
   handlers stop: the accepted transactions are the first ones, over coins that were saved with
   their signature and watched first; the coins of all but the last of them are committed, and no
   coin is committed before its own funding transaction is accepted; every list, stored, handed on or carried, names only accepted and committed ones, once each.
   */
  lemma {:induction false} AcceptedInOrder(m: Machine, batch: Batch, events: seq<Event>) returns (a: nat)
    requires Unsent(m)
    ensures Orderly(Run(m, batch, events), batch, a)
    ensures DistinctContracts(batch) && Earned(m.world, batch) ==> Earned(Run(m, batch, events).world, batch)
    decreases |events|
  {
    if events == [] {
      a := 0;
    } else {
      hide Orderly, Next;
      var earlier := events[..|events| - 1];
      a := AcceptedInOrder(m, batch, earlier);
      a := NextOrderly(Run(m, batch, earlier), batch, events[|events| - 1], a);
    }
  }

  // ---------------------------------------------------------------- what the list may lag behind

  /** The accepted transactions the list does not name. */
  function Missing(world: World, list: seq<Txid>): set<Txid> {
    set txid | txid in world.accepted && txid !in list
  }

  predicate AtMostOne(txids: set<Txid>) {
    forall x, y :: x in txids && y in txids ==> x == y
  }

  /** At most one accepted transaction is not on the list; of a list that is lost nothing is said. */
  predicate Safe(world: World) {
    !world.records.Lost? ==> AtMostOne(Missing(world, world.records.list))
  }

  /** The transactions the handler has recorded in this pass, and will not record again. */
  function Passed(batch: Batch, h: Handler): set<Txid> {
    match h.at
    case ToSend(i) => if i <= |batch.txids| then Prefix(batch, i) else {}
    case Committing(i, _) => if i <= |batch.txids| then Prefix(batch, i) else {}
    case ToRecord(i) => if i <= |batch.txids| then Prefix(batch, i) else {}
    case _ => {}
  }

  /** The handler is about to send a transaction nobody has sent. */
  predicate SendsNew(world: World, batch: Batch, h: Handler) {
    h.at.ToSend? && h.at.index < |batch.txids| && batch.txids[h.at.index] !in world.accepted
  }

  predicate AllSent(world: World, batch: Batch) {
    forall i :: 0 <= i < |batch.txids| ==> batch.txids[i] in world.accepted
  }

  /** The list, while stored, stays safe with this handler: it misses at most one, and none the handler has passed unless all are sent. */
  predicate ListOk(world: World, batch: Batch, running: Option<Handler>, list: seq<Txid>) {
    && AtMostOne(Missing(world, list))
    && (running.Some? ==>
          && (AllSent(world, batch) || Missing(world, list) * Passed(batch, running.value) == {})
          && (running.value.at.ToStore? ==> AtMostOne(Missing(world, running.value.list))))
  }

  /** Safe now and wherever the running handler stops. */
  predicate Good(world: World, batch: Batch, running: Option<Handler>) {
    match world.records
    case Stored(list) => ListOk(world, batch, running, list)
    case Handed(list) =>
      AtMostOne(Missing(world, list)) && (running.Some? && SendsNew(world, batch, running.value) ==> Missing(world, list) == {})
    case Lost => true
  }

  function Advances(world: World, batch: Batch, running: Option<Handler>, k: nat): (World, Option<Handler>)
    decreases k
  {
    if k == 0 || running.None? then (world, running)
    else
      var (after, later) := Effect(world, batch, running.value);
      Advances(after, batch, later, k - 1)
  }

  ghost predicate SafeThroughout(world: World, batch: Batch, running: Option<Handler>) {
    forall k: nat :: Safe(Advances(world, batch, running, k).0)
  }

  /** An accepted prefix leaves the next transaction unsent. */
  lemma NextIsNew(world: World, batch: Batch, a: nat)
    requires NoRepeats(batch.txids) && InOrder(world, batch, a)
    ensures forall i :: 0 <= i < |batch.txids| ==> (batch.txids[i] in world.accepted <==> i < a)
    ensures AllSent(world, batch) <==> a == |batch.txids|
  {
    forall i | 0 <= i < |batch.txids|
      ensures batch.txids[i] in world.accepted <==> i < a
    {
    }
    if a < |batch.txids| {
      assert batch.txids[a] !in world.accepted;
    }
  }

  /** Sending keeps the condition: a new transaction is sent only when none is missing. */
  lemma SendGood(world: World, batch: Batch, h: Handler, a: nat)
    requires NoRepeats(batch.txids) && InOrder(world, batch, a) && HandlerOk(world, batch, h, a) && h.at.ToSend?
    requires Good(world, batch, Some(h))
    ensures Good(Effect(world, batch, h).0, batch, Effect(world, batch, h).1)
  {
    NextIsNew(world, batch, a);
    var after, i := Effect(world, batch, h).0, h.at.index;
    if i == |batch.txids| {
      if world.records.Stored? {
        assert Missing(after, h.list) == {};
      }
    } else if i < a {
      assert after == world;
    } else if !world.records.Lost? {
      assert Missing(world, world.records.list) * Prefix(batch, a) == Missing(world, world.records.list);
      assert Missing(world, world.records.list) == {};
      assert Missing(after, world.records.list) <= {batch.txids[a]};
      assert batch.txids[a] !in Prefix(batch, a);
    }
  }

  /** Recording takes the transaction off what is missing before the handler passes it. */
  lemma RecordGood(world: World, batch: Batch, h: Handler, a: nat)
    requires NoRepeats(batch.txids) && InOrder(world, batch, a) && HandlerOk(world, batch, h, a) && h.at.ToRecord?
    requires Good(world, batch, Some(h))
    ensures Good(Effect(world, batch, h).0, batch, Effect(world, batch, h).1)
  {
    if world.records.Stored? {
      var i, list := h.at.index, world.records.list;
      var after := Effect(world, batch, h).0;
      assert Missing(after, after.records.list) == Missing(world, list) - {batch.txids[i]};
      assert Prefix(batch, i + 1) == Prefix(batch, i) + {batch.txids[i]};
      assert AllSent(after, batch) == AllSent(world, batch);
    }
  }

  /** The other effects leave the accepted transactions alone; the first store puts the handler's own list there. */
  lemma OtherGood(world: World, batch: Batch, h: Handler, a: nat)
    requires InOrder(world, batch, a) && HandlerOk(world, batch, h, a) && !h.at.ToSend? && !h.at.ToRecord?
    requires Good(world, batch, Some(h))
    ensures Good(Effect(world, batch, h).0, batch, Effect(world, batch, h).1)
  {
    var (after, running) := Effect(world, batch, h);
    assert after.accepted == world.accepted && AllSent(after, batch) == AllSent(world, batch);
    if !world.records.Lost? {
      assert Missing(after, world.records.list) == Missing(world, world.records.list);
      assert Missing(after, h.list) == Missing(world, h.list);
    }
    if h.at.ToSave? && |batch.txids| > 0 {
      assert Prefix(batch, 0) == {};
      assert batch.txids[0] !in world.accepted ==> a == 0;
    }
  }

  lemma EffectGood(world: World, batch: Batch, h: Handler, a: nat)
    requires NoRepeats(batch.txids) && InOrder(world, batch, a) && HandlerOk(world, batch, h, a)
    requires Good(world, batch, Some(h))
    ensures Good(Effect(world, batch, h).0, batch, Effect(world, batch, h).1)
  {
    hide Good, Effect, HandlerOk, InOrder, NoRepeats;
    if h.at.ToSend? {
      SendGood(world, batch, h, a);
    } else if h.at.ToRecord? {
      RecordGood(world, batch, h, a);
    } else {
      OtherGood(world, batch, h, a);
    }
  }

  lemma {:induction false} GoodStaysSafe(world: World, batch: Batch, running: Option<Handler>, a: nat, k: nat)
    requires NoRepeats(batch.txids) && InOrder(world, batch, a) && SoundRecords(world, batch)
    requires running.Some? ==> HandlerOk(world, batch, running.value, a)
    requires Good(world, batch, running)
    ensures Safe(Advances(world, batch, running, k).0)
    decreases k
  {
    if k > 0 && running.Some? {
      hide Good, Effect, HandlerOk, InOrder, NoRepeats, SoundRecords, Safe;
      EffectOk(world, batch, running.value, a);
      EffectGood(world, batch, running.value, a);
      var (after, later) := Effect(world, batch, running.value);
      GoodStaysSafe(after, batch, later, Accepted(batch, running.value, a), k - 1);
    }
  }

  /** How far the handler is from its next new send. */
  function Rank(at: Position): nat {
    match at
    case ToSend(_) => 2
    case Committing(_, _) => 1
    case _ => 0
  }

  predicate Hole(world: World, batch: Batch, h: Handler, hole: Txid) {
    && world.records.Stored? && hole in Missing(world, world.records.list) && hole in Passed(batch, h)
  }

  /** A handler that has passed a missing transaction, with others still to send, gets to send one while it is missing. */
  lemma {:induction false} HoleSurfaces(world: World, batch: Batch, h: Handler, a: nat, hole: Txid) returns (k: nat)
    requires NoRepeats(batch.txids) && InOrder(world, batch, a) && SoundRecords(world, batch) && HandlerOk(world, batch, h, a)
    requires a < |batch.txids| && (h.at.ToSend? || h.at.Committing? || h.at.ToRecord?) && Hole(world, batch, h, hole)
    ensures !Safe(Advances(world, batch, Some(h), k).0)
    decreases |batch.txids| - h.at.index, Rank(h.at), if h.at.Committing? then |batch.coins| - h.at.coin else 0
  {
    NextIsNew(world, batch, a);
    var (after, running) := Effect(world, batch, h);
    if h.at.ToSend? && h.at.index == a {
      k := 1;
      assert Advances(world, batch, Some(h), 1) == Advances(after, batch, running, 0);
      assert batch.txids[a] in Missing(after, after.records.list) && hole in Missing(after, after.records.list);
    } else {
      EffectOk(world, batch, h, a);
      assert Hole(after, batch, running.value, hole) by {
        HoleStays(world, batch, h, a, hole);
      }
      k := HoleSurfaces(after, batch, running.value, a, hole);
      k := k + 1;
    }
  }

  lemma HoleStays(world: World, batch: Batch, h: Handler, a: nat, hole: Txid)
    requires NoRepeats(batch.txids) && InOrder(world, batch, a) && HandlerOk(world, batch, h, a)
    requires Hole(world, batch, h, hole) && (h.at.Committing? || h.at.ToRecord? || (h.at.ToSend? && h.at.index < a))
    ensures Effect(world, batch, h).1.Some? && Hole(Effect(world, batch, h).0, batch, Effect(world, batch, h).1.value, hole)
  {
    if h.at.ToRecord? {
      assert Prefix(batch, h.at.index + 1) == Prefix(batch, h.at.index) + {batch.txids[h.at.index]};
    }
  }

  /** The condition is exact: it holds exactly when the list is safe now and wherever the handler stops. */
  lemma GoodExactly(world: World, batch: Batch, running: Option<Handler>, a: nat)
    requires NoRepeats(batch.txids) && InOrder(world, batch, a) && SoundRecords(world, batch)
    requires running.Some? ==> HandlerOk(world, batch, running.value, a)
    ensures SafeThroughout(world, batch, running) <==> Good(world, batch, running)
  {
    if Good(world, batch, running) {
      forall k: nat
        ensures Safe(Advances(world, batch, running, k).0)
      {
        GoodStaysSafe(world, batch, running, a, k);
      }
    } else {
      var k := BadGetsUnsafe(world, batch, running, a);
    }
  }

  lemma BadGetsUnsafe(world: World, batch: Batch, running: Option<Handler>, a: nat) returns (k: nat)
    requires NoRepeats(batch.txids) && InOrder(world, batch, a) && SoundRecords(world, batch)
    requires running.Some? ==> HandlerOk(world, batch, running.value, a)
    requires !Good(world, batch, running)
    ensures !Safe(Advances(world, batch, running, k).0)
  {
    NextIsNew(world, batch, a);
    var list := world.records.list;
    if !AtMostOne(Missing(world, list)) {
      k := 0;
    } else {
      var h := running.value;
      var (after, later) := Effect(world, batch, h);
      assert Advances(world, batch, running, 1) == Advances(after, batch, later, 0) == (after, later);
      if world.records.Handed? {
        k := 1;
        var missing :| missing in Missing(world, list);
        assert missing in Missing(after, list) && batch.txids[h.at.index] in Missing(after, list);
      } else if h.at.ToStore? && !AtMostOne(Missing(world, h.list)) {
        k := 1;
        assert Missing(after, h.list) == Missing(world, h.list);
      } else {
        var hole :| hole in Missing(world, list) * Passed(batch, h);
        k := HoleSurfaces(world, batch, h, a, hole);
      }
    }
  }

  // ---------------------------------------------------------------- whole runs

  /** What decides: an event that stores a carried list must store one that is right for the handler at work. */
  predicate Allowed(m: Machine, batch: Batch, event: Event) {
    match event
    case StoreBy(c) => c in m.lists && m.world.records.Stored? ==> ListOk(m.world, batch, m.running, m.lists[c])
    case PutBack(c) => c in m.lists && !m.world.records.Stored? ==> ListOk(m.world, batch, m.running, m.lists[c])
    case Begin(c) => c in m.lists && m.running.None? && m.world.records.Stored? ==> AtMostOne(Missing(m.world, m.lists[c]))
    case _ => true
  }

  /** From a good state every event but such a store leads to a good one, and a store does exactly when it is allowed. */
  lemma AllowedExactly(m: Machine, batch: Batch, event: Event, a: nat)
    requires NoRepeats(batch.txids) && Orderly(m, batch, a) && Good(m.world, batch, m.running)
    ensures Good(Next(m, batch, event).world, batch, Next(m, batch, event).running) <==> Allowed(m, batch, event)
  {
    var later := Next(m, batch, event);
    if event.Advance? && m.running.Some? {
      EffectGood(m.world, batch, m.running.value, a);
    } else {
      assert later.world.accepted == m.world.accepted && AllSent(later.world, batch) == AllSent(m.world, batch);
      assert forall list :: Missing(later.world, list) == Missing(m.world, list);
      NextIsNew(m.world, batch, a);
      if event.Drain? && m.world.records.Stored? && m.running.Some? && SendsNew(m.world, batch, m.running.value) {
        DrainGood(m.world, batch, m.running.value, a);
      }
    }
  }

  /** A handler about to send something new has nothing missing behind it, so the list it is handed on with is complete. */
  lemma DrainGood(world: World, batch: Batch, h: Handler, a: nat)
    requires NoRepeats(batch.txids) && InOrder(world, batch, a) && HandlerOk(world, batch, h, a)
    requires world.records.Stored? && Good(world, batch, Some(h)) && SendsNew(world, batch, h)
    ensures Missing(world, world.records.list) == {}
  {
    NextIsNew(world, batch, a);
    assert h.at.index == a;
    assert Missing(world, world.records.list) * Prefix(batch, a) == Missing(world, world.records.list);
  }

  /** One event, exactly: from a good state the swap is safe now and wherever the handler then stops, if and only if the event is allowed. */
  lemma AllowedIsSafe(m: Machine, batch: Batch, event: Event, a: nat)
    requires NoRepeats(batch.txids) && Orderly(m, batch, a) && Good(m.world, batch, m.running)
    ensures SafeThroughout(Next(m, batch, event).world, batch, Next(m, batch, event).running) <==> Allowed(m, batch, event)
  {
    hide Good, Next, InOrder, HandlerOk, NoRepeats, Allowed, SafeThroughout;
    AllowedExactly(m, batch, event, a);
    var a' := NextOrderly(m, batch, event, a);
    var later := Next(m, batch, event);
    GoodExactly(later.world, batch, later.running, a');
  }

  ghost predicate AllowedRun(m: Machine, batch: Batch, events: seq<Event>) {
    forall n :: 0 <= n < |events| ==> Allowed(Run(m, batch, events[..n]), batch, events[n])
  }

  /** At every moment of the run the swap is safe, and stays so wherever the handler at work stops. */
  ghost predicate AlwaysSafe(m: Machine, batch: Batch, events: seq<Event>) {
    forall n :: 0 <= n <= |events| ==>
      SafeThroughout(Run(m, batch, events[..n]).world, batch, Run(m, batch, events[..n]).running)
  }

  lemma {:induction false} AllowedRunsGood(m: Machine, batch: Batch, events: seq<Event>)
    requires NoRepeats(batch.txids) && Unsent(m) && AllowedRun(m, batch, events)
    ensures Good(Run(m, batch, events).world, batch, Run(m, batch, events).running)
    decreases |events|
  {
    if events != [] {
      hide Good, Next, Allowed, Unsent, NoRepeats;
      var earlier := events[..|events| - 1];
      forall n | 0 <= n < |earlier|
        ensures Allowed(Run(m, batch, earlier[..n]), batch, earlier[n])
      {
        assert earlier[..n] == events[..n];
      }
      AllowedRunsGood(m, batch, earlier);
      var a := AcceptedInOrder(m, batch, earlier);
      AllowedExactly(Run(m, batch, earlier), batch, events[|events| - 1], a);
    }
  }

  /** The swap is safe at every moment of a run exactly when every list that is stored on the way is allowed. */
  lemma BroadcastSafe(m: Machine, batch: Batch, events: seq<Event>)
    requires NoRepeats(batch.txids) && Unsent(m)
    ensures AlwaysSafe(m, batch, events) <==> AllowedRun(m, batch, events)
  {
    hide Next, Allowed, Unsent, NoRepeats, SafeThroughout, Good, Run;
    if AllowedRun(m, batch, events) {
      forall n | 0 <= n <= |events|
        ensures SafeThroughout(Run(m, batch, events[..n]).world, batch, Run(m, batch, events[..n]).running)
      {
        AllowedUpTo(m, batch, events, n);
        AllowedRunsGood(m, batch, events[..n]);
        var a := AcceptedInOrder(m, batch, events[..n]);
        GoodExactly(Run(m, batch, events[..n]).world, batch, Run(m, batch, events[..n]).running, a);
      }
    }
    if AlwaysSafe(m, batch, events) {
      forall n | 0 <= n < |events|
        ensures Allowed(Run(m, batch, events[..n]), batch, events[n])
      {
        var a := AcceptedInOrder(m, batch, events[..n]);
        GoodExactly(Run(m, batch, events[..n]).world, batch, Run(m, batch, events[..n]).running, a);
        AllowedIsSafe(Run(m, batch, events[..n]), batch, events[n], a);
        OneMore(m, batch, events[..n], events[n]);
        assert events[..n] + [events[n]] == events[..n + 1];
      }
    }
  }

  lemma AllowedUpTo(m: Machine, batch: Batch, events: seq<Event>, n: nat)
    requires AllowedRun(m, batch, events) && n <= |events|
    ensures AllowedRun(m, batch, events[..n])
  {
    forall k | 0 <= k < n
      ensures Allowed(Run(m, batch, events[..n][..k]), batch, events[..n][k])
    {
      assert events[..n][..k] == events[..k];
    }
  }

  lemma OneMore(m: Machine, batch: Batch, events: seq<Event>, event: Event)
    ensures Run(m, batch, events + [event]) == Next(Run(m, batch, events), batch, event)
  {
    assert (events + [event])[..|events|] == events;
  }

  /**
   By what the connection carries: a list with all stored records is always allowed, one that
   lacks two of them never, and one that lacks exactly one accepted transaction exactly when no
   handler has passed that one with others still to send.
   */
  lemma OlderListSafeExactly(m: Machine, batch: Batch, c: nat, a: nat)
    requires Orderly(m, batch, a) && Good(m.world, batch, m.running) && m.world.records.Stored? && c in m.lists
    ensures (forall txid :: txid in m.world.records.list ==> txid in m.lists[c]) ==>
              Allowed(m, batch, StoreBy(c)) && Allowed(m, batch, Begin(c))
    ensures forall x, y :: x in m.world.records.list && y in m.world.records.list && x != y && x !in m.lists[c] && y !in m.lists[c] ==>
              !Allowed(m, batch, StoreBy(c)) && (m.running.None? ==> !Allowed(m, batch, Begin(c)))
    ensures forall x :: Missing(m.world, m.lists[c]) == {x} ==>
              (Allowed(m, batch, StoreBy(c)) <==> m.running.None? || AllSent(m.world, batch) || x !in Passed(batch, m.running.value))
  {
    var stored, carried := Missing(m.world, m.world.records.list), Missing(m.world, m.lists[c]);
    if forall txid :: txid in m.world.records.list ==> txid in m.lists[c] {
      assert carried <= stored;
    }
    forall x, y | x in m.world.records.list && y in m.world.records.list && x != y && x !in m.lists[c] && y !in m.lists[c]
      ensures !AtMostOne(carried)
    {
      assert x in carried && y in carried;
    }
    forall x | Missing(m.world, m.lists[c]) == {x}
      ensures Allowed(m, batch, StoreBy(c)) <==> m.running.None? || AllSent(m.world, batch) || x !in Passed(batch, m.running.value)
    {
      assert carried == {x} && AtMostOne(carried);
      if m.running.Some? {
        var passed := Passed(batch, m.running.value);
        assert x in passed ==> x in carried * passed;
        assert x !in passed ==> carried * passed == {};
      }
    }
  }

  // ---------------------------------------------------------------- a swap that is gone

  /** The transaction the handler sends next, if it sends one before it records. */
  function UpNext(batch: Batch, at: Position): set<Txid> {
    match at
    case ToSend(i) => if i < |batch.txids| then {batch.txids[i]} else {}
    case Committing(_, _) => {}
    case ToRecord(_) => {}
    case Done => {}
    case _ => if batch.txids == [] then {} else {batch.txids[0]}
  }

  /** Once the stored swap is gone, a handler at work sends at most the transaction it comes to next, however far it gets. */
  lemma {:induction false} GoneStopsTheLoop(world: World, batch: Batch, h: Handler, k: nat)
    requires !world.records.Stored?
    ensures var after := Advances(world, batch, Some(h), k).0;
            after.accepted <= world.accepted + UpNext(batch, h.at) && after.records == world.records
    decreases k
  {
    if k > 0 {
      var (after, later) := Effect(world, batch, h);
      if later.Some? {
        GoneStopsTheLoop(after, batch, later.value, k - 1);
      }
    }
  }

  // ---------------------------------------------------------------- completion

  lemma {:induction false} DistinctOnce(txids: seq<Txid>, txid: Txid)
    requires NoRepeats(txids)
    ensures multiset(txids)[txid] == if txid in txids then 1 else 0
    decreases |txids|
  {
    if txids != [] {
      var rest := txids[..|txids| - 1];
      assert txids == rest + [txids[|txids| - 1]];
      DistinctOnce(rest, txid);
    }
  }

  /**
   A handler that completes leaves every transaction accepted and committed and, whatever was
   stored in between, the list with each of them exactly once.
   */
  lemma CompletionRecordsEachOnce(world: World, batch: Batch, h: Handler, a: nat)
    requires NoRepeats(batch.txids) && InOrder(world, batch, a) && HandlerOk(world, batch, h, a)
    requires h.at == ToSend(|batch.txids|) && world.records.Stored?
    ensures var after := Effect(world, batch, h).0;
            && after.records.Stored? && multiset(after.records.list) == multiset(batch.txids)
            && after.accepted == Prefix(batch, |batch.txids|)
            && forall i :: 0 <= i < |batch.txids| ==> CommittedFor(after, batch, batch.txids[i])
  {
    var list := h.list;
    forall txid
      ensures multiset(list)[txid] == multiset(batch.txids)[txid]
    {
      DistinctOnce(list, txid);
      DistinctOnce(batch.txids, txid);
      assert txid in list ==> txid in Prefix(batch, a);
    }
  }

  function Stage(at: Position): nat {
    match at
    case ToStore => 5
    case Verifying => 4
    case Arming(_, _) => 3
    case ToSave => 2
    case Done => 0
    case _ => 1
  }

  /** What is left of the stage: coins to arm or transactions to send, then the part within. */
  function Left(batch: Batch, at: Position): (int, nat, int) {
    match at
    case Arming(i, v) => (|batch.coins| - i, 0, if i < |batch.coins| then batch.coins[i].outputs - v else 0)
    case ToSend(i) => (|batch.txids| - i, Rank(at), 0)
    case Committing(i, j) => (|batch.txids| - i, Rank(at), |batch.coins| - j)
    case ToRecord(i) => (|batch.txids| - i, Rank(at), 0)
    case _ => (0, 0, 0)
  }

  /** One position is nearer to the end than another. */
  predicate Nearer(batch: Batch, at: Position, before: Position) {
    var (x, y) := (Left(batch, at), Left(batch, before));
    Stage(at) < Stage(before)
    || (Stage(at) == Stage(before)
        && (0 <= x.0 < y.0 || (x.0 == y.0 && (x.1 < y.1 || (x.1 == y.1 && 0 <= x.2 < y.2)))))
  }

  lemma StepIsNearer(world: World, batch: Batch, h: Handler, a: nat)
    requires world.records.Stored? && HandlerOk(world, batch, h, a) && !h.at.Done? && h.at != ToSend(|batch.txids|)
    ensures var (after, running) := Effect(world, batch, h);
            running.Some? && after.records.Stored? && !running.value.at.Done? && Nearer(batch, running.value.at, h.at)
  {
    hide Armed, Armoured, PassedOver, Sound, CommittedAmong, PutAll, Put;
  }

  /** A handler that nothing disturbs gets to its final store. */
  lemma {:induction false} Undisturbed(world: World, batch: Batch, h: Handler, a: nat) returns (k: nat, last: World, end: Handler, all: nat)
    requires world.records.Stored? && InOrder(world, batch, a) && SoundRecords(world, batch) && HandlerOk(world, batch, h, a) && !h.at.Done?
    ensures Advances(world, batch, Some(h), k) == (last, Some(end)) && end.at == ToSend(|batch.txids|) && last.records.Stored?
    ensures InOrder(last, batch, all) && HandlerOk(last, batch, end, all)
    decreases Stage(h.at), Left(batch, h.at).0, Left(batch, h.at).1, Left(batch, h.at).2
  {
    if h.at == ToSend(|batch.txids|) {
      k, last, end, all := 0, world, h, a;
    } else {
      hide Effect, InOrder, SoundRecords, HandlerOk;
      var (after, running) := Effect(world, batch, h);
      EffectOk(world, batch, h, a);
      StepIsNearer(world, batch, h, a);
      k, last, end, all := Undisturbed(after, batch, running.value, Accepted(batch, h, a));
      k := k + 1;
    }
  }

  /** So contract signatures that nothing disturbs end with every transaction accepted, committed and listed exactly once. */
  lemma BroadcastCompletes(world: World, batch: Batch, c: nat, list: seq<Txid>, a: nat) returns (k: nat)
    requires NoRepeats(batch.txids) && world.records.Stored? && InOrder(world, batch, a) && SoundRecords(world, batch) && Sound(world, batch, list)
    ensures var (after, running) := Advances(world, batch, Some(Handler(c, ToStore, list)), k);
            && running.Some? && running.value.at.Done? && after.accepted == Prefix(batch, |batch.txids|)
            && after.records.Stored? && multiset(after.records.list) == multiset(batch.txids)
            && forall i :: 0 <= i < |batch.txids| ==> CommittedFor(after, batch, batch.txids[i])
  {
    var last, end, all;
    k, last, end, all := Undisturbed(world, batch, Handler(c, ToStore, list), a);
    CompletionRecordsEachOnce(last, batch, end, all);
    OneFurther(world, batch, Some(Handler(c, ToStore, list)), k, last, end);
    k := k + 1;
  }

  lemma {:induction false} OneFurther(world: World, batch: Batch, running: Option<Handler>, k: nat, last: World, end: Handler)
    requires Advances(world, batch, running, k) == (last, Some(end))
    ensures Advances(world, batch, running, k + 1) == Effect(last, batch, end)
    decreases k
  {
    if k == 0 {
      var (after, later) := Effect(world, batch, end);
      assert Advances(after, batch, later, 0) == (after, later);
    } else if running.Some? {
      var (after, later) := Effect(world, batch, running.value);
      OneFurther(after, batch, later, k - 1, last, end);
    }
  }

  // ---------------------------------------------------------------- runs that are not safe

  const START := Machine(World(map[], {}, {}, Stored([])), map[], None)
  const PAIR := Batch([], [1, 2])

  /** Connection 0 has sent and recorded the first of two transactions; connection 1 still carries the empty list. */
  const SENT_ONE := Machine(World(map[], {}, {1}, Stored([1])), map[1 := []], Some(Handler(0, ToSend(1), [1])))

  const PREPARING := [Open(0)] + [Open(1)] + [Begin(0)] + [Advance] + [Advance] + [Advance] + [Advance]
  const OPENING := PREPARING + [Advance] + [Advance] + [Advance]

  lemma FollowedBy(events: seq<Event>, event: Event, before: Machine, after: Machine)
    requires Run(START, PAIR, events) == before && Next(before, PAIR, event) == after
    ensures Run(START, PAIR, events + [event]) == after
  {
    OneMore(START, PAIR, events, event);
  }

  /** Connection 0 at work with nothing recorded yet. */
  function Working(accepted: set<Txid>, at: Position): Machine {
    Machine(World(map[], {}, accepted, Stored([])), map[1 := []], Some(Handler(0, at, [])))
  }

  lemma PreparedToSend()
    ensures Run(START, PAIR, PREPARING) == Working({}, ToSend(0))
  {
    var events: seq<Event> := [];
    hide Run;
    var first := START.(lists := map[0 := []]);
    var both := START.(lists := map[0 := [], 1 := []]);
    EmptyRun(START, PAIR);
    FollowedBy(events, Open(0), START, first);
    events := [Open(0)];
    assert [] + [Open(0)] == events;
    FollowedBy(events, Open(1), first, both);
    events := events + [Open(1)];
    FollowedBy(events, Begin(0), both, Working({}, ToStore));
    events := events + [Begin(0)];
    FollowedBy(events, Advance, Working({}, ToStore), Working({}, Verifying));
    events := events + [Advance];
    FollowedBy(events, Advance, Working({}, Verifying), Working({}, Arming(0, 0)));
    events := events + [Advance];
    FollowedBy(events, Advance, Working({}, Arming(0, 0)), Working({}, ToSave));
    events := events + [Advance];
    FollowedBy(events, Advance, Working({}, ToSave), Working({}, ToSend(0)));
  }

  lemma SentOne()
    ensures Unsent(START) && Run(START, PAIR, OPENING) == SENT_ONE
  {
    hide Run;
    PreparedToSend();
    FollowedBy(PREPARING, Advance, Working({}, ToSend(0)), Working({1}, Committing(0, 0)));
    FollowedBy(PREPARING + [Advance], Advance, Working({1}, Committing(0, 0)), Working({1}, ToRecord(0)));
    assert Listed([], 1) == [1];
    FollowedBy(PREPARING + [Advance] + [Advance], Advance, Working({1}, ToRecord(0)), SENT_ONE);
  }

  lemma EmptyRun(m: Machine, batch: Batch)
    ensures Run(m, batch, []) == m
  {
  }

  /** The second transaction is sent while the stored list and connection 1's are as given. */
  function SentTwo(list: seq<Txid>, carried: seq<Txid>, running: Option<Handler>): Machine {
    Machine(World(map[], {}, {1, 2}, Stored(list)), map[1 := carried], running)
  }

  /** A store of the empty list in the middle of the loop: the next send leaves two accepted transactions unrecorded. */
  lemma StoreInTheLoopHides()
    ensures Unsent(START) && !Safe(Run(START, PAIR, OPENING + [StoreBy(1)] + [Advance]).world)
  {
    hide Run;
    SentOne();
    var stored := SENT_ONE.(world := SENT_ONE.world.(records := Stored([])));
    var later := SentTwo([], [], Some(Handler(0, Committing(1, 0), [1])));
    FollowedBy(OPENING, StoreBy(1), SENT_ONE, stored);
    FollowedBy(OPENING + [StoreBy(1)], Advance, stored, later);
    assert 1 in Missing(later.world, []) && 2 in Missing(later.world, []);
  }

  /** Connection 0 has sent both transactions and stopped before it recorded the second. */
  lemma StoppedAfterTwo()
    ensures Run(START, PAIR, OPENING + [Advance] + [Fail]) == SentTwo([1], [], None)
  {
    hide Run;
    SentOne();
    FollowedBy(OPENING, Advance, SENT_ONE, SentTwo([1], [], Some(Handler(0, Committing(1, 0), [1]))));
    FollowedBy(OPENING + [Advance], Fail, SentTwo([1], [], Some(Handler(0, Committing(1, 0), [1]))), SentTwo([1], [], None));
  }

  /** A second handling by a connection with an older list, after the first one stopped: its first store does the same. */
  lemma OlderConnectionHidesBroadcasts()
    ensures Unsent(START) && !Safe(Run(START, PAIR, OPENING + [Advance] + [Fail] + [Begin(1)] + [Advance]).world)
  {
    hide Run;
    StoppedAfterTwo();
    var stopped, begun := SentTwo([1], [], None), SentTwo([1], [], Some(Handler(1, ToStore, []))).(lists := map[]);
    var later := SentTwo([], [], Some(Handler(1, Verifying, []))).(lists := map[]);
    FollowedBy(OPENING + [Advance] + [Fail], Begin(1), stopped, begun);
    FollowedBy(OPENING + [Advance] + [Fail] + [Begin(1)], Advance, begun, later);
    assert 1 in Missing(later.world, []) && 2 in Missing(later.world, []);
  }

  /**
   Bad signatures in a second message, by a connection that carries the stored list, remove the
   stored swap: with two transactions accepted, no list names either of them.
   */
  lemma RemovalLosesList()
    ensures var before := Run(START, PAIR, OPENING + [Advance] + [Fail] + [Restore(1)] + [Begin(1)] + [Advance]);
            var later := Next(before, PAIR, BadSignatures);
            Good(before.world, PAIR, before.running) && later.world.accepted == {1, 2} && later.world.records == Lost
  {
    hide Run;
    StoppedAfterTwo();
    var stopped, restored := SentTwo([1], [], None), SentTwo([1], [1], None);
    var begun := SentTwo([1], [1], Some(Handler(1, ToStore, [1]))).(lists := map[]);
    var before := SentTwo([1], [1], Some(Handler(1, Verifying, [1]))).(lists := map[]);
    FollowedBy(OPENING + [Advance] + [Fail], Restore(1), stopped, restored);
    FollowedBy(OPENING + [Advance] + [Fail] + [Restore(1)], Begin(1), restored, begun);
    FollowedBy(OPENING + [Advance] + [Fail] + [Restore(1)] + [Begin(1)], Advance, begun, before);
  }

  // ---------------------------------------------------------------- the handler

  /** The maker as the handler sees it: wallet file, watchtower, chain and stored swap, changed one effect at a time. */
  class Maker {
    var saved: map<Txid, Saved>
    var watched: set<(Txid, nat)>
    var accepted: set<Txid>
    var records: Records

    ghost function View(): World
      reads this
    {
      World(saved, watched, accepted, records)
    }

    constructor ()
      ensures View() == START.world
    {
      saved, watched, accepted, records := map[], {}, {}, Stored([]);
    }

    /** Arms the contract outputs one by one; `left` counts the steps until the handler is stopped. */
    method ArmWatches(batch: Batch, h: Handler, steps: nat) returns (left: nat, ok: bool)
      requires h.at == Arming(0, 0)
      modifies this
      ensures ok ==> Advances(old(View()), batch, Some(h), steps) == Advances(View(), batch, Some(h.(at := ToSave)), left)
      ensures !ok ==> View() == Advances(old(View()), batch, Some(h), steps).0
    {
      left := steps;
      for i := 0 to |batch.coins|
        invariant Advances(old(View()), batch, Some(h), steps) == Advances(View(), batch, Some(h.(at := Arming(i, 0))), left)
      {
        for v := 0 to batch.coins[i].outputs
          invariant Advances(old(View()), batch, Some(h), steps) == Advances(View(), batch, Some(h.(at := Arming(i, v))), left)
        {
          if left == 0 {
            return left, false;
          }
          watched := watched + {(batch.coins[i].contract, v)};
          left := left - 1;
        }
        if left == 0 {
          return left, false;
        }
        left := left - 1;
      }
      if left == 0 {
        return left, false;
      }
      return left - 1, true;
    }

    method SaveFundingBatch(coins: seq<Coin>)
      modifies this
      ensures View() == old(View()).(saved := PutAll(old(saved), coins))
    {
      for i := 0 to |coins|
        invariant View() == old(View()).(saved := PutAll(old(saved), coins[..i]))
      {
        assert coins[..i + 1][..i] == coins[..i];
        saved := Put(saved, coins[i], false);
      }
      assert coins[..|coins|] == coins;
    }

    /** Commits and saves the coins `txid` funds, one by one. */
    method CommitFundedBy(batch: Batch, h: Handler, steps: nat) returns (left: nat, ok: bool)
      requires h.at.Committing? && h.at.coin == 0 && h.at.index < |batch.txids|
      modifies this
      ensures records == old(records)
      ensures ok ==> Advances(old(View()), batch, Some(h), steps) == Advances(View(), batch, Some(h.(at := ToRecord(h.at.index))), left)
      ensures !ok ==> View() == Advances(old(View()), batch, Some(h), steps).0
    {
      left := steps;
      var index := h.at.index;
      for j := 0 to |batch.coins|
        invariant records == old(records)
        invariant Advances(old(View()), batch, Some(h), steps) == Advances(View(), batch, Some(h.(at := Committing(index, j))), left)
      {
        if left == 0 {
          return left, false;
        }
        if batch.coins[j].funding == batch.txids[index] {
          saved := Put(saved, batch.coins[j], true);
        }
        left := left - 1;
      }
      if left == 0 {
        return left, false;
      }
      return left - 1, true;
    }

    /** The send loop and the final store. */
    method SendBatch(batch: Batch, c: nat, carried: seq<Txid>, steps: nat) returns (ok: bool)
      modifies this
      ensures View() == Advances(old(View()), batch, Some(Handler(c, ToSend(0), carried)), steps).0
    {
      var left, list := steps, carried;
      for i := 0 to |batch.txids|
        invariant Advances(old(View()), batch, Some(Handler(c, ToSend(0), carried)), steps)
                  == Advances(View(), batch, Some(Handler(c, ToSend(i), list)), left)
      {
        if left == 0 {
          return false;
        }
        accepted := accepted + {batch.txids[i]};
        var committed;
        left, committed := CommitFundedBy(batch, Handler(c, Committing(i, 0), list), left - 1);
        if !committed || left == 0 || !records.Stored? {
          return false;
        }
        list := Listed(list, batch.txids[i]);
        records := Stored(Listed(records.list, batch.txids[i]));
        left := left - 1;
      }
      if left == 0 || !records.Stored? {
        return false;
      }
      records := Stored(list);
      assert Advances(View(), batch, Some(Handler(c, Done, list)), left - 1).0 == View();
      return true;
    }

    /** The whole handler, stopped after the given number of steps; bad signatures remove the stored swap. */
    method HandleContractSigs(batch: Batch, c: nat, carried: seq<Txid>, good: bool, steps: nat) returns (ok: bool)
      modifies this
      ensures good ==> View() == Advances(old(View()), batch, Some(Handler(c, ToStore, carried)), steps).0
      ensures !good ==> View() == if steps < 2 then Advances(old(View()), batch, Some(Handler(c, ToStore, carried)), steps).0 else Removed(old(View()))
    {
      if steps == 0 || !records.Stored? {
        return false;
      }
      records := Stored(carried);
      ghost var h := Handler(c, Verifying, carried);
      assert Advances(old(View()), batch, Some(h.(at := ToStore)), steps) == Advances(View(), batch, Some(h), steps - 1);
      if steps == 1 {
        return false;
      }
      if !good {
        records := Lost;
        return false;
      }
      assert Advances(View(), batch, Some(h), steps - 1) == Advances(View(), batch, Some(h.(at := Arming(0, 0))), steps - 2);
      var left, armed := ArmWatches(batch, Handler(c, Arming(0, 0), carried), steps - 2);
      if !armed || left == 0 {
        return false;
      }
      SaveFundingBatch(batch.coins);
      ok := SendBatch(batch, c, carried, left - 1);
    }
  }
}
