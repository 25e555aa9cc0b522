/**
 Funding passes, drains and removals over the two shared tables, one locked section per step
 (`execute_frozen_plan`, `drain_idle_swaps`, `record_funding_broadcast` of `src/maker/api.rs`).

 Any number of threads interleave. A funding handler holds the per-swap funding mark from its
 first section to its last. The `funding_claims` mutex is not used: the runs it allows are
 among the runs here.
 */
module FundingClaims {
  import opened Common
  import opened MakerState
  import opened WalletLocks
  import Registry

  /** What the threads share; `spent` holds the coins recorded as spent by accepted funding. */
  datatype Shared = Shared(swaps: Swaps, wallet: Wallet, spent: set<OutPoint>)

  /** Where a thread is, between two locked sections. */
  datatype Thread =
    | Idle
    | Guarded(id: SwapId)                                                             // holds the funding mark
    | Frozen(id: SwapId, plan: seq<SplitPlan>)                                        // read the frozen plan
    | Choosing(id: SwapId, plan: seq<SplitPlan>, claimed: Option<seq<SplitPlan>>)     // read the claimed plan
    | Chosen(id: SwapId, plan: seq<SplitPlan>)                                        // reserved a fresh claim
    | Dropping(id: SwapId)                                                            // found its entry gone
    | Building(id: SwapId, plan: seq<SplitPlan>)
    | Failing(id: SwapId)                                                             // a build failed
    | Clearing(id: SwapId)                                                            // gave the coins back
    | Freeing(id: SwapId, inputs: set<OutPoint>)                                      // recorded a broadcast
    | Draining(ids: set<SwapId>)                                                      // dropped unfunded entries
    | Removing(gone: SwapId)                                                          // removed a finished swap

  datatype Action =
    | Acquire(mark: SwapId)
    | Freeze(matches: bool)
    | Lookup
    | Choose(replan: Option<seq<SplitPlan>>, saved: bool)
    | Attach
    | Undo
    | Build(ok: bool)
    | Unreserve
    | Clear
    | Record(txid: Txid, now: nat)
    | Free
    | Finish
    | DrainSwaps(now: nat, timeout: nat, tip: Option<nat>)
    | DrainLocks
    | RemoveSwap(which: SwapId)
    | RemoveLocks

  predicate Guards(thread: Thread, id: SwapId) {
    !thread.Idle? && !thread.Draining? && !thread.Removing? && thread.id == id
  }

  /** Coins go to the plan claimed before if it is still held, else to the frozen plan, else to a re-plan. */
  function ChooseCoins(shared: Shared, at: Thread, replan: Option<seq<SplitPlan>>, saved: bool): (Shared, Thread)
    requires at.Choosing?
  {
    var key := Onchain(at.id);
    match at.claimed
    case Some(claimed) =>
      if key in shared.wallet.locks && Inputs(claimed) <= shared.wallet.locks[key] then (shared, Building(at.id, claimed))
      else (shared, Guarded(at.id))
    case None =>
      var (first, claimedFirst) := Claim(shared.wallet, key, Inputs(at.plan));
      if claimedFirst then Saved(shared, at.id, at.plan, first, saved)
      else if replan.None? then (shared, Guarded(at.id))
      else
        var (second, claimedSecond) := Claim(shared.wallet, key, Inputs(replan.value));
        if claimedSecond then Saved(shared, at.id, replan.value, second, saved) else (shared, Guarded(at.id))
  }

  /** A fresh claim counts once it is on disk; otherwise the whole reservation is given back. */
  function Saved(shared: Shared, id: SwapId, plan: seq<SplitPlan>, wallet: Wallet, saved: bool): (Shared, Thread) {
    if saved then (shared.(wallet := wallet), Chosen(id, plan))
    else (shared.(wallet := ReleaseAll(wallet, Onchain(id))), Guarded(id))
  }

  /** The coin is known to the wallet and reserved for nobody. */
  predicate FreeCoin(wallet: Wallet, coin: OutPoint) {
    coin in wallet.cache && forall key :: key in wallet.locks ==> coin !in wallet.locks[key]
  }

  predicate AllFree(wallet: Wallet, plan: seq<SplitPlan>) {
    forall i, coin :: 0 <= i < |plan| && coin in plan[i].utxos ==> FreeCoin(wallet, coin)
  }

  lemma PlannableIs(wallet: Wallet, coin: OutPoint)
    ensures coin in Plannable(wallet) <==> FreeCoin(wallet, coin)
  {
    assert coin in Reserved(wallet.locks) <==> exists key :: key in wallet.locks && coin in wallet.locks[key];
  }

  lemma FreeIsPlannable(wallet: Wallet, plan: seq<SplitPlan>)
    ensures AllFree(wallet, plan) <==> Inputs(plan) <= Plannable(wallet)
  {
    hide Plannable, FreeCoin;
    forall coin {
      PlannableIs(wallet, coin);
    }
    assert forall i, coin :: 0 <= i < |plan| && coin in plan[i].utxos ==> coin in Inputs(plan);
  }

  /** The coins of the plan are added to the swap's reservation, and nothing else changes in the wallet. */
  predicate Adds(before: Wallet, after: Wallet, id: SwapId, plan: seq<SplitPlan>) {
    && after.cache == before.cache && after.locks.Keys == before.locks.Keys + {Onchain(id)}
    && after.locks[Onchain(id)] == HeldBy(before.locks, Onchain(id)) + Inputs(plan)
    && forall key :: key in before.locks && key != Onchain(id) ==> after.locks[key] == before.locks[key]
  }

  /**
   The choice of coins of a swap that has claimed none: the frozen plan when its coins are free,
   otherwise a re-plan whose coins are; refused when there is neither, or when the claim cannot be saved.
   */
  lemma ChoiceExactly(shared: Shared, id: SwapId, plan: seq<SplitPlan>, replan: Option<seq<SplitPlan>>, saved: bool)
    ensures var (after, thread) := ChooseCoins(shared, Choosing(id, plan, None), replan, saved);
            && after.swaps == shared.swaps && after.spent == shared.spent
            && (saved && AllFree(shared.wallet, plan) ==> thread == Chosen(id, plan) && Adds(shared.wallet, after.wallet, id, plan))
            && (saved && !AllFree(shared.wallet, plan) && replan.Some? && AllFree(shared.wallet, replan.value) ==>
                  thread == Chosen(id, replan.value) && Adds(shared.wallet, after.wallet, id, replan.value))
            && (!saved || (!AllFree(shared.wallet, plan) && !(replan.Some? && AllFree(shared.wallet, replan.value))) ==> thread == Guarded(id))
            && (thread == Guarded(id) && saved ==> after.wallet == shared.wallet)
            && (!saved ==> after.wallet == if AllFree(shared.wallet, plan) || (replan.Some? && AllFree(shared.wallet, replan.value))
                                           then shared.wallet.(locks := shared.wallet.locks - {Onchain(id)}) else shared.wallet)
  {
    hide AllFree, Plannable;
    FreeIsPlannable(shared.wallet, plan);
    if replan.Some? {
      FreeIsPlannable(shared.wallet, replan.value);
    }
  }

  /** A pass starts from the stored plan of its swap, exactly when there is one and the asked amount matches it. */
  lemma FreezeExactly(shared: Shared, id: SwapId, matches: bool)
    ensures Act(shared, Guarded(id), Freeze(matches))
            == (shared, if matches && id in shared.swaps && shared.swaps[id].fundingPlan != [] then Frozen(id, shared.swaps[id].fundingPlan)
                        else Guarded(id))
  {
  }

  /** The swap has a reservation, and every coin of the plan is in it. */
  predicate HoldsAll(wallet: Wallet, id: SwapId, plan: seq<SplitPlan>) {
    Onchain(id) in wallet.locks && forall i, coin :: 0 <= i < |plan| && coin in plan[i].utxos ==> coin in wallet.locks[Onchain(id)]
  }

  /** A swap that has claimed coins goes on with exactly these while all of them are reserved for it, and is refused otherwise. */
  lemma ClaimReusedExactly(shared: Shared, id: SwapId, plan: seq<SplitPlan>, claimed: seq<SplitPlan>, replan: Option<seq<SplitPlan>>, saved: bool)
    ensures ChooseCoins(shared, Choosing(id, plan, Some(claimed)), replan, saved)
            == (shared, if HoldsAll(shared.wallet, id, claimed) then Building(id, claimed) else Guarded(id))
  {
    if Onchain(id) in shared.wallet.locks && Inputs(claimed) <= shared.wallet.locks[Onchain(id)] {
      forall i, coin | 0 <= i < |claimed| && coin in claimed[i].utxos
        ensures coin in shared.wallet.locks[Onchain(id)]
      {
        assert coin in Inputs(claimed);
      }
    }
  }

  /** One locked section. A section that does not apply where the thread is changes nothing. */
  function Act(shared: Shared, at: Thread, action: Action): (Shared, Thread) {
    match action
    case Acquire(id) => (shared, if at.Idle? then Guarded(id) else at)
    case Freeze(matches) =>
      (shared, if at.Guarded? && at.id in shared.swaps && shared.swaps[at.id].fundingPlan != [] && matches
               then Frozen(at.id, shared.swaps[at.id].fundingPlan) else at)
    case Lookup =>
      if !at.Frozen? then (shared, at)
      else if at.id !in shared.swaps then (shared, Guarded(at.id))
      else
        var claimed := shared.swaps[at.id].claimedPlan;
        (shared, Choosing(at.id, at.plan, if claimed == [] then None else Some(claimed)))
    case Choose(replan, saved) => if at.Choosing? then ChooseCoins(shared, at, replan, saved) else (shared, at)
    case Attach =>
      if !at.Chosen? then (shared, at)
      else if at.id in shared.swaps then
        (shared.(swaps := Registry.SetClaimedPlan(shared.swaps, at.id, at.plan)), Building(at.id, at.plan))
      else (shared, Dropping(at.id))
    case Undo =>
      if at.Dropping? then (shared.(wallet := ReleaseAll(shared.wallet, Onchain(at.id))), Guarded(at.id)) else (shared, at)
    case Build(ok) => (shared, if at.Building? then (if ok then Guarded(at.id) else Failing(at.id)) else at)
    case Unreserve =>
      if at.Failing? then (shared.(wallet := ReleaseAll(shared.wallet, Onchain(at.id))), Clearing(at.id)) else (shared, at)
    case Clear =>
      if at.Clearing? then (shared.(swaps := Registry.SetClaimedPlan(shared.swaps, at.id, [])), Guarded(at.id)) else (shared, at)
    case Record(txid, now) =>
      if !at.Guarded? || at.id !in shared.swaps then (shared, at)
      else
        var inputs := Coins(Registry.InputsOf(Registry.FundingTxes(shared.swaps[at.id]), txid));
        (shared.(swaps := Registry.RecordBroadcast(shared.swaps, at.id, txid, now)),
         if inputs == {} then at else Freeing(at.id, inputs))
    case Free =>
      if at.Freeing? then
        (shared.(wallet := ReleaseSpent(shared.wallet, Onchain(at.id), at.inputs), spent := shared.spent + at.inputs), Guarded(at.id))
      else (shared, at)
    case Finish => (shared, if at.Guarded? then Idle else at)
    case DrainSwaps(now, timeout, tip) =>
      if at.Idle? then
        (shared.(swaps := Registry.Drain(shared.swaps, now, timeout, tip)), Draining(Registry.DroppedIds(shared.swaps, now, timeout)))
      else (shared, at)
    case DrainLocks =>
      if at.Draining? then (shared.(wallet := ReleaseEach(shared.wallet, at.ids)), Idle) else (shared, at)
    case RemoveSwap(id) => if at.Idle? then (shared.(swaps := shared.swaps - {id}), Removing(id)) else (shared, at)
    case RemoveLocks =>
      if at.Removing? then (shared.(wallet := ReleaseAll(shared.wallet, Onchain(at.gone))), Idle) else (shared, at)
  }

  function ReleaseEach(wallet: Wallet, ids: set<SwapId>): Wallet {
    wallet.(locks := map key | key in wallet.locks && !(key.Onchain? && key.id in ids) :: wallet.locks[key])
  }

  datatype Event =
    | Section(t: nat, action: Action)
      // Any other section on the stored swaps: admissions, stores, contract claims, keepalives.
    | Locked(section: Registry.Section, at: nat)
      // A Lightning HTLC plans from the plannable coins, reserves and builds in one section.
    | FundHtlc(key: SwapId, coins: set<OutPoint>, built: bool)
    | EndHtlc(key: SwapId)
      // The wallet re-reads its coins; a coin the chain saw spent does not come back.
    | Sync(coins: set<OutPoint>)

  /** `dropped` is history: the ids a drain dropped as unfunded, until they are admitted again. */
  datatype Machine = Machine(shared: Shared, threads: map<nat, Thread>, dropped: set<SwapId>)

  const START := Machine(Shared(map[], Wallet(map[], {}), {}), map[], {})

  function At(m: Machine, t: nat): Thread {
    if t in m.threads then m.threads[t] else Idle
  }

  predicate MarkFree(m: Machine, id: SwapId) {
    forall t :: t in m.threads ==> !Guards(m.threads[t], id)
  }

  predicate External(section: Registry.Section) {
    section.Admitting? || section.Storing? || section.Claiming? || section.Touching? || section.Confirming?
  }

  function Next(m: Machine, event: Event): Machine {
    match event
    case Section(t, action) =>
      if action.Acquire? && !MarkFree(m, action.mark) then m
      else
        var (shared, thread) := Act(m.shared, At(m, t), action);
        var gone := if action.DrainSwaps? && At(m, t).Idle? then Registry.DroppedIds(m.shared.swaps, action.now, action.timeout) else {};
        Machine(shared, m.threads[t := thread], m.dropped + gone)
    case Locked(section, at) =>
      if External(section) then
        var swaps := Registry.Apply(m.shared.swaps, section, at);
        m.(shared := m.shared.(swaps := swaps), dropped := m.dropped - swaps.Keys)
      else m
    case FundHtlc(key, coins, built) =>
      if !(coins <= Plannable(m.shared.wallet)) then m
      else
        var wallet := Reserve(m.shared.wallet, Lightning(key), coins);
        m.(shared := m.shared.(wallet := if built then wallet else ReleaseAll(wallet, Lightning(key))))
    case EndHtlc(key) => m.(shared := m.shared.(wallet := ReleaseAll(m.shared.wallet, Lightning(key))))
    case Sync(coins) => m.(shared := m.shared.(wallet := m.shared.wallet.(cache := coins - m.shared.spent)))
  }

  function Run(m: Machine, events: seq<Event>): Machine
    decreases |events|
  {
    if events == [] then m else Next(Run(m, events[..|events| - 1]), events[|events| - 1])
  }

  // ---------------------------------------------------------------- what every section leaves alone

  /** A section of a thread that holds the mark of `id` touches only that swap's entry and reservation. */
  lemma MarkedActLocal(shared: Shared, at: Thread, action: Action, id: SwapId, other: SwapId)
    requires Guards(at, id) && other != id
    ensures var after := Act(shared, at, action).0;
            && (other in after.swaps <==> other in shared.swaps)
            && (other in shared.swaps ==> after.swaps[other] == shared.swaps[other])
            && (Onchain(other) in after.wallet.locks <==> Onchain(other) in shared.wallet.locks)
            && HeldBy(after.wallet.locks, Onchain(other)) == HeldBy(shared.wallet.locks, Onchain(other))
  {
  }

  /** A marked thread keeps its mark until it finishes; no section gives it another. */
  lemma MarkKept(shared: Shared, at: Thread, action: Action, id: SwapId)
    ensures Guards(Act(shared, at, action).1, id) ==> Guards(at, id) || action == Acquire(id)
    ensures Guards(at, id) ==> Guards(Act(shared, at, action).1, id) || Act(shared, at, action).1.Idle?
  {
  }

  /** The other sections on the stored swaps keep each live claimed plan, remove nothing, and start new entries without one. */
  lemma ExternalKeepsPlans(swaps: Swaps, section: Registry.Section, now: nat, id: SwapId)
    requires External(section)
    ensures id in swaps ==> id in Registry.Apply(swaps, section, now)
                            && Registry.Apply(swaps, section, now)[id].claimedPlan == swaps[id].claimedPlan
    ensures id !in swaps && id in Registry.Apply(swaps, section, now) ==> Registry.Apply(swaps, section, now)[id].claimedPlan == []
  {
  }

  // ---------------------------------------------------------------- reservations are disjoint

  lemma ActKeepsDisjoint(shared: Shared, at: Thread, action: Action)
    requires Disjoint(shared.wallet.locks)
    ensures Disjoint(Act(shared, at, action).0.wallet.locks)
  {
    if action.Choose? && at.Choosing? {
      var key := Onchain(at.id);
      forall plan | Inputs(plan) <= Plannable(shared.wallet)
        ensures Disjoint(Reserve(shared.wallet, key, Inputs(plan)).locks)
      {
        ReserveKeepsDisjoint(shared.wallet, key, Inputs(plan));
      }
    } else if action.Free? && at.Freeing? {
      ReleaseShrinks(shared.wallet, Onchain(at.id), at.inputs);
    }
  }

  /** In every run the coins reserved for different swaps, Lightning swaps included, are disjoint. */
  lemma {:induction false} ReservationsDisjoint(events: seq<Event>)
    ensures Disjoint(Run(START, events).shared.wallet.locks)
    decreases |events|
  {
    if events != [] {
      var m, event := Run(START, events[..|events| - 1]), events[|events| - 1];
      ReservationsDisjoint(events[..|events| - 1]);
      if event.Section? {
        ActKeepsDisjoint(m.shared, At(m, event.t), event.action);
      } else if event.FundHtlc? && event.coins <= Plannable(m.shared.wallet) {
        ReserveKeepsDisjoint(m.shared.wallet, Lightning(event.key), event.coins);
      }
    }
  }

  // ---------------------------------------------------------------- a dropped swap keeps no reservation

  /** The thread's next sections give back whatever is reserved for `id`. */
  predicate Owes(thread: Thread, id: SwapId) {
    (thread.Draining? && id in thread.ids) || ((thread.Chosen? || thread.Dropping? || thread.Failing?) && thread.id == id)
  }

  ghost predicate Owed(m: Machine, id: SwapId) {
    exists t :: t in m.threads && Owes(m.threads[t], id)
  }

  ghost predicate DropsOwed(m: Machine) {
    forall id :: id in m.dropped ==> id !in m.shared.swaps && (Onchain(id) in m.shared.wallet.locks ==> Owed(m, id))
  }

  /** A reservation only appears with a debt, and for a swap with no entry the debt is only dropped by paying it. */
  lemma DebtLocal(shared: Shared, at: Thread, action: Action, id: SwapId)
    ensures var (after, thread) := Act(shared, at, action);
            && (Onchain(id) in after.wallet.locks ==> Onchain(id) in shared.wallet.locks || Owes(thread, id))
            && (Owes(at, id) && id !in shared.swaps ==> Owes(thread, id) || Onchain(id) !in after.wallet.locks)
            && (id in after.swaps ==> id in shared.swaps)
            && (action.DrainSwaps? && at.Idle? && id in Registry.DroppedIds(shared.swaps, action.now, action.timeout) ==>
                  Owes(thread, id) && id !in after.swaps)
  {
  }

  lemma SectionKeepsDebts(m: Machine, t: nat, action: Action)
    requires DropsOwed(m)
    ensures DropsOwed(Next(m, Section(t, action)))
  {
    hide Act;
    var later := Next(m, Section(t, action));
    if later != m {
      forall id | id in later.dropped
        ensures id !in later.shared.swaps && (Onchain(id) in later.shared.wallet.locks ==> Owed(later, id))
      {
        DebtLocal(m.shared, At(m, t), action, id);
        assert later.threads[t] == Act(m.shared, At(m, t), action).1;
        if id in m.dropped && Onchain(id) in m.shared.wallet.locks && Onchain(id) in later.shared.wallet.locks {
          var owing :| owing in m.threads && Owes(m.threads[owing], id);
          assert Owes(later.threads[owing], id);
        }
      }
    }
  }

  lemma {:induction false} RunKeepsDebts(events: seq<Event>)
    ensures DropsOwed(Run(START, events))
    decreases |events|
  {
    if events != [] {
      var m, event := Run(START, events[..|events| - 1]), events[|events| - 1];
      RunKeepsDebts(events[..|events| - 1]);
      if event.Section? {
        SectionKeepsDebts(m, event.t, event.action);
      } else {
        var later := Next(m, event);
        forall id | id in later.dropped
          ensures id !in later.shared.swaps && (Onchain(id) in later.shared.wallet.locks ==> Owed(later, id))
        {
          assert Owed(m, id) ==> Owed(later, id);
        }
      }
    }
  }

  /**
   However drains, removals and funding passes interleave: a swap dropped as unfunded and not
   admitted again holds no reservation once no thread is between two sections that concern it.
   */
  lemma DroppedSwapHoldsNothing(events: seq<Event>, id: SwapId)
    requires id in Run(START, events).dropped
    requires forall t :: t in Run(START, events).threads ==> !Owes(Run(START, events).threads[t], id)
    ensures Onchain(id) !in Run(START, events).shared.wallet.locks
  {
    RunKeepsDebts(events);
  }

  // ---------------------------------------------------------------- a recorded broadcast is final

  ghost predicate MarksUnique(m: Machine) {
    forall t, u, id :: t in m.threads && u in m.threads && t != u && Guards(m.threads[t], id) ==> !Guards(m.threads[u], id)
  }

  lemma NextKeepsMarks(m: Machine, event: Event)
    requires MarksUnique(m)
    ensures MarksUnique(Next(m, event))
  {
    if event.Section? {
      hide Act;
      forall id {
        MarkKept(m.shared, At(m, event.t), event.action, id);
      }
    }
  }

  /** A coin of the claimed plan is spent and out of the swap's reservation. */
  predicate Spoiled(shared: Shared, id: SwapId) {
    id in shared.swaps && (Inputs(shared.swaps[id].claimedPlan) * shared.spent) - HeldBy(shared.wallet.locks, Onchain(id)) != {}
  }

  /** No thread has passed, or is about to pass, the choice of coins for `id`. */
  predicate Refused(shared: Shared, thread: Thread, id: SwapId) {
    Guards(thread, id) ==>
      && !thread.Chosen? && !thread.Building? && !thread.Failing? && !thread.Clearing?
      && (thread.Choosing? ==> id in shared.swaps && thread.claimed == Some(shared.swaps[id].claimedPlan))
  }

  ghost predicate Final(m: Machine, id: SwapId) {
    Spoiled(m.shared, id) && forall t :: t in m.threads ==> Refused(m.shared, m.threads[t], id)
  }

  predicate SpentUncached(shared: Shared) {
    shared.spent !! shared.wallet.cache
  }

  lemma NextKeepsSpent(m: Machine, event: Event)
    requires SpentUncached(m.shared)
    ensures SpentUncached(Next(m, event).shared)
  {
  }

  /** Once spoiled, a section either removes the swap or leaves it spoiled and its own thread refused. */
  lemma SpoiledLocal(shared: Shared, at: Thread, action: Action, id: SwapId)
    requires SpentUncached(shared) && Spoiled(shared, id) && Refused(shared, at, id)
    requires id in Act(shared, at, action).0.swaps
    ensures Spoiled(Act(shared, at, action).0, id) && Refused(Act(shared, at, action).0, Act(shared, at, action).1, id)
    ensures Act(shared, at, action).0.swaps[id].claimedPlan == shared.swaps[id].claimedPlan
  {
  }

  lemma NextKeepsFinal(m: Machine, event: Event, id: SwapId)
    requires SpentUncached(m.shared) && Final(m, id) && id in Next(m, event).shared.swaps
    ensures Final(Next(m, event), id)
  {
    if event.Section? {
      hide Act, Spoiled;
      if Next(m, event) != m {
        SpoiledLocal(m.shared, At(m, event.t), event.action, id);
      }
    } else if event.Locked? && External(event.section) {
      ExternalKeepsPlans(m.shared.swaps, event.section, event.at, id);
    }
  }

  /** Recording a broadcast that spends a coin of the claimed plan ends in the final state. */
  lemma FreeMakesFinal(m: Machine, t: nat)
    requires MarksUnique(m) && t in m.threads && m.threads[t].Freeing?
    requires m.threads[t].id in m.shared.swaps
    requires m.threads[t].inputs * Inputs(m.shared.swaps[m.threads[t].id].claimedPlan) != {}
    ensures Final(Next(m, Section(t, Free)), m.threads[t].id)
  {
  }

  lemma {:induction false} RunKeepsMarksAndSpent(events: seq<Event>)
    ensures MarksUnique(Run(START, events)) && SpentUncached(Run(START, events).shared)
    decreases |events|
  {
    if events != [] {
      RunKeepsMarksAndSpent(events[..|events| - 1]);
      NextKeepsMarks(Run(START, events[..|events| - 1]), events[|events| - 1]);
      NextKeepsSpent(Run(START, events[..|events| - 1]), events[|events| - 1]);
    }
  }

  /** True when `id` has an entry throughout the run. */
  ghost predicate StaysLive(m: Machine, events: seq<Event>, id: SwapId) {
    forall k :: 0 <= k <= |events| ==> id in Run(m, events[..k]).shared.swaps
  }

  lemma {:induction false} FinalForGood(m: Machine, events: seq<Event>, id: SwapId)
    requires SpentUncached(m.shared) && Final(m, id) && StaysLive(m, events, id)
    ensures Final(Run(m, events), id) && SpentUncached(Run(m, events).shared)
    decreases |events|
  {
    assert events[..|events|] == events;
    if events != [] {
      var earlier := events[..|events| - 1];
      forall k | 0 <= k <= |earlier|
        ensures id in Run(m, earlier[..k]).shared.swaps
      {
        assert earlier[..k] == events[..k];
      }
      FinalForGood(m, earlier, id);
      NextKeepsFinal(Run(m, earlier), events[|events| - 1], id);
      NextKeepsSpent(Run(m, earlier), events[|events| - 1]);
    }
  }

  /** A thread has recorded a broadcast that spends a coin of the claimed plan and is about to free its inputs. */
  predicate FreesClaimed(m: Machine, t: nat, id: SwapId) {
    t in m.threads && m.threads[t].Freeing? && m.threads[t].id == id && id in m.shared.swaps
    && m.threads[t].inputs * Inputs(m.shared.swaps[id].claimedPlan) != {}
  }

  /** Another thread's section on a live swap whose mark it does not hold leaves the claimed plan alone. */
  lemma OthersKeepPlan(shared: Shared, at: Thread, action: Action, id: SwapId)
    requires !Guards(at, id) && id in shared.swaps && id in Act(shared, at, action).0.swaps
    ensures Act(shared, at, action).0.swaps[id].claimedPlan == shared.swaps[id].claimedPlan
  {
  }

  lemma NextKeepsFreeing(m: Machine, event: Event, t: nat, id: SwapId)
    requires MarksUnique(m) && FreesClaimed(m, t, id) && id in Next(m, event).shared.swaps
    ensures FreesClaimed(Next(m, event), t, id) || Final(Next(m, event), id)
  {
    if event == Section(t, Free) {
      FreeMakesFinal(m, t);
    } else if event.Section? && event.t != t {
      assert Guards(m.threads[t], id);
      OthersKeepPlan(m.shared, At(m, event.t), event.action, id);
    } else if event.Locked? && External(event.section) {
      ExternalKeepsPlans(m.shared.swaps, event.section, event.at, id);
    }
  }

  lemma {:induction false} FreeingIsFinal(m: Machine, events: seq<Event>, t: nat, id: SwapId)
    requires MarksUnique(m) && SpentUncached(m.shared) && FreesClaimed(m, t, id) && StaysLive(m, events, id)
    ensures FreesClaimed(Run(m, events), t, id) || Final(Run(m, events), id)
    ensures MarksUnique(Run(m, events)) && SpentUncached(Run(m, events).shared)
    decreases |events|
  {
    assert events[..|events|] == events;
    if events != [] {
      var earlier, event := events[..|events| - 1], events[|events| - 1];
      forall k | 0 <= k <= |earlier|
        ensures id in Run(m, earlier[..k]).shared.swaps
      {
        assert earlier[..k] == events[..k];
      }
      FreeingIsFinal(m, earlier, t, id);
      hide Next;
      NextKeepsMarks(Run(m, earlier), event);
      NextKeepsSpent(Run(m, earlier), event);
      if FreesClaimed(Run(m, earlier), t, id) {
        NextKeepsFreeing(Run(m, earlier), event, t, id);
      } else {
        NextKeepsFinal(Run(m, earlier), event, id);
      }
    }
  }

  /** The broadcast is of a funding transaction of the swap that spends a coin of its claimed plan. */
  predicate SpendsClaim(swaps: Swaps, id: SwapId, txid: Txid) {
    id in swaps && Coins(Registry.InputsOf(Registry.FundingTxes(swaps[id]), txid)) * Inputs(swaps[id].claimedPlan) != {}
  }

  lemma RecordFrees(m: Machine, t: nat, txid: Txid, now: nat)
    requires At(m, t).Guarded? && SpendsClaim(m.shared.swaps, At(m, t).id, txid)
    ensures FreesClaimed(Next(m, Section(t, Record(txid, now))), t, At(m, t).id)
  {
  }

  /**
   Once a broadcast spending a coin of the claimed plan is recorded, no funding pass of that live
   swap reaches the building of a transaction again, in any continuation.
   */
  lemma RecordedBroadcastIsFinal(before: seq<Event>, t: nat, txid: Txid, now: nat, after: seq<Event>, u: nat)
    requires At(Run(START, before), t).Guarded?
    requires SpendsClaim(Run(START, before).shared.swaps, At(Run(START, before), t).id, txid)
    requires StaysLive(Next(Run(START, before), Section(t, Record(txid, now))), after, At(Run(START, before), t).id)
    ensures var later := Run(Next(Run(START, before), Section(t, Record(txid, now))), after);
            At(later, u).Building? ==> At(later, u).id != At(Run(START, before), t).id
  {
    hide Next, SpendsClaim;
    var m := Run(START, before);
    var recorded, id := Next(m, Section(t, Record(txid, now))), At(m, t).id;
    RunKeepsMarksAndSpent(before);
    NextKeepsMarks(m, Section(t, Record(txid, now)));
    NextKeepsSpent(m, Section(t, Record(txid, now)));
    RecordFrees(m, t, txid, now);
    FreeingIsFinal(recorded, after, t, id);
    if FreesClaimed(Run(recorded, after), t, id) {
      assert Guards(Run(recorded, after).threads[t], id);
    }
  }

  // ---------------------------------------------------------------- what is built is what is reserved

  /** The coins of the plan are still all reserved for `id`. */
  predicate StillHeld(shared: Shared, id: SwapId, plan: seq<SplitPlan>) {
    Onchain(id) in shared.wallet.locks && Inputs(plan) <= shared.wallet.locks[Onchain(id)]
  }

  /** Every coin of the plan is reserved for `id` or recorded as spent. */
  predicate Backs(shared: Shared, id: SwapId, plan: seq<SplitPlan>) {
    Inputs(plan) <= HeldBy(shared.wallet.locks, Onchain(id)) + shared.spent
  }

  /**
   What the thread remembers of an earlier entry of `id` would carry over into a new one: it still
   owes a release, or is about to build, or builds, from a plan the new entry has not claimed.
   */
  predicate Disturbs(shared: Shared, thread: Thread, id: SwapId) {
    match thread
    case Draining(ids) => id in ids
    case Removing(gone) => id == gone
    case Choosing(owner, _, claimed) => id == owner && claimed.Some? && claimed.value != [] && StillHeld(shared, id, claimed.value)
    case Chosen(owner, plan) => id == owner && !Backs(shared, id, plan)
    case Building(owner, plan) => id == owner && plan != []
    case _ => false
  }

  /** An id is stored anew only when no thread disturbs it. */
  ghost predicate Quiet(m: Machine, event: Event) {
    forall t, id :: t in m.threads && id in Next(m, event).shared.swaps && id !in m.shared.swaps ==> !Disturbs(m.shared, m.threads[t], id)
  }

  predicate InStep(shared: Shared, thread: Thread) {
    match thread
    case Draining(ids) => ids !! shared.swaps.Keys
    case Removing(gone) => gone !in shared.swaps
    case Dropping(id) => id in shared.swaps ==> shared.swaps[id].claimedPlan == []
    case Choosing(id, _, claimed) =>
      && (claimed.Some? ==> claimed.value != [])
      && (id in shared.swaps ==>
            || claimed == (if shared.swaps[id].claimedPlan == [] then None else Some(shared.swaps[id].claimedPlan))
            || (shared.swaps[id].claimedPlan == [] && !StillHeld(shared, id, claimed.value)))
    case Chosen(id, plan) => id in shared.swaps ==> shared.swaps[id].claimedPlan == [] && Backs(shared, id, plan)
    case Building(id, plan) => id in shared.swaps ==> shared.swaps[id].claimedPlan == plan
    case _ => true
  }

  /** Every coin of the claimed plan is reserved for the swap or recorded as spent. */
  predicate Covered(shared: Shared, id: SwapId) {
    id in shared.swaps ==> Backs(shared, id, shared.swaps[id].claimedPlan)
  }

  ghost predicate Backed(m: Machine) {
    && MarksUnique(m)
    && (forall t :: t in m.threads ==> InStep(m.shared, m.threads[t]))
    && (forall id :: Covered(m.shared, id) || exists t :: t in m.threads && m.threads[t] == Clearing(id))
  }

  lemma ActKeepsInStep(shared: Shared, at: Thread, action: Action)
    requires InStep(shared, at)
    ensures InStep(Act(shared, at, action).0, Act(shared, at, action).1)
  {
  }

  /** A thread is kept in step by the sections of a thread that does not share its mark. */
  lemma OthersKeepInStep(shared: Shared, at: Thread, action: Action, other: Thread)
    requires InStep(shared, at) && InStep(shared, other)
    requires forall id :: Guards(at, id) ==> !Guards(other, id)
    ensures InStep(Act(shared, at, action).0, other)
  {
    var after := Act(shared, at, action).0;
    assert after.swaps.Keys <= shared.swaps.Keys;
    if other.Choosing? || other.Chosen? || other.Dropping? || other.Building? {
      if !at.Idle? && !at.Draining? && !at.Removing? {
        assert Guards(at, at.id);
        MarkedActLocal(shared, at, action, at.id, other.id);
      }
    }
  }

  /** A section keeps a claimed plan covered, or leaves its own thread about to clear it. */
  lemma ActKeepsCovered(shared: Shared, at: Thread, action: Action, id: SwapId)
    requires InStep(shared, at)
    requires Covered(shared, id) || at == Clearing(id)
    ensures Covered(Act(shared, at, action).0, id) || Act(shared, at, action).1 == Clearing(id)
  {
  }

  /** While another thread is about to clear `id`, a section of an unmarked or differently marked thread changes nothing about that. */
  lemma SectionKeepsBacked(m: Machine, t: nat, action: Action)
    requires Backed(m)
    ensures Backed(Next(m, Section(t, action)))
  {
    NextKeepsMarks(m, Section(t, action));
    var later := Next(m, Section(t, action));
    if later != m {
      hide Act, InStep, Covered;
      ActKeepsInStepAt(m, t, action);
      forall u | u in later.threads
        ensures InStep(later.shared, later.threads[u])
      {
        if u != t {
          OthersKeepInStep(m.shared, At(m, t), action, m.threads[u]);
        }
      }
      forall id
        ensures Covered(later.shared, id) || exists u :: u in later.threads && later.threads[u] == Clearing(id)
      {
        if Covered(m.shared, id) || At(m, t) == Clearing(id) {
          ActKeepsCovered(m.shared, At(m, t), action, id);
          assert later.threads[t] == Act(m.shared, At(m, t), action).1;
        } else {
          var u :| u in m.threads && m.threads[u] == Clearing(id);
          assert later.threads[u] == Clearing(id);
        }
      }
    }
  }

  lemma ActKeepsInStepAt(m: Machine, t: nat, action: Action)
    requires Backed(m)
    ensures InStep(m.shared, At(m, t))
    ensures InStep(Act(m.shared, At(m, t), action).0, Act(m.shared, At(m, t), action).1)
  {
    ActKeepsInStep(m.shared, At(m, t), action);
  }

  /** An undisturbed new entry leaves every thread in step. */
  lemma NewEntriesInStep(m: Machine, section: Registry.Section, at: nat, t: nat)
    requires External(section) && Quiet(m, Locked(section, at)) && t in m.threads && InStep(m.shared, m.threads[t])
    ensures InStep(Next(m, Locked(section, at)).shared, m.threads[t])
  {
    hide Registry.Apply;
    var swaps := Next(m, Locked(section, at)).shared.swaps;
    forall id
      ensures id in m.shared.swaps ==> id in swaps && swaps[id].claimedPlan == m.shared.swaps[id].claimedPlan
      ensures id !in m.shared.swaps && id in swaps ==> swaps[id].claimedPlan == [] && !Disturbs(m.shared, m.threads[t], id)
    {
      ExternalKeepsPlans(m.shared.swaps, section, at, id);
    }
  }

  lemma LockedKeepsBacked(m: Machine, section: Registry.Section, at: nat)
    requires Backed(m) && External(section) && Quiet(m, Locked(section, at))
    ensures Backed(Next(m, Locked(section, at)))
  {
    hide Registry.Apply;
    var later := Next(m, Locked(section, at));
    forall id
      ensures id in m.shared.swaps ==> id in later.shared.swaps && later.shared.swaps[id].claimedPlan == m.shared.swaps[id].claimedPlan
      ensures id !in m.shared.swaps && id in later.shared.swaps ==> later.shared.swaps[id].claimedPlan == []
    {
      ExternalKeepsPlans(m.shared.swaps, section, at, id);
    }
    forall t | t in later.threads
      ensures InStep(later.shared, later.threads[t])
    {
      NewEntriesInStep(m, section, at, t);
    }
    forall id
      ensures Covered(later.shared, id) || exists t :: t in later.threads && later.threads[t] == Clearing(id)
    {
      assert Covered(m.shared, id) || exists t :: t in m.threads && m.threads[t] == Clearing(id);
    }
  }

  lemma WalletKeepsBacked(m: Machine, event: Event)
    requires Backed(m) && (event.FundHtlc? || event.EndHtlc? || event.Sync?)
    ensures Backed(Next(m, event))
  {
    var later := Next(m, event);
    forall id
      ensures HeldBy(later.shared.wallet.locks, Onchain(id)) == HeldBy(m.shared.wallet.locks, Onchain(id))
      ensures Covered(later.shared, id) == Covered(m.shared, id)
    {
    }
    forall t | t in later.threads
      ensures InStep(later.shared, later.threads[t])
    {
      assert InStep(m.shared, m.threads[t]);
    }
  }

  /** A disturbed new entry leaves the thread that disturbs it out of step. */
  lemma DisturbedIsOutOfStep(m: Machine, section: Registry.Section, at: nat, t: nat, id: SwapId)
    requires External(section) && t in m.threads && Disturbs(m.shared, m.threads[t], id)
    requires id !in m.shared.swaps && id in Next(m, Locked(section, at)).shared.swaps
    ensures !InStep(Next(m, Locked(section, at)).shared, m.threads[t])
  {
    hide Registry.Apply;
    ExternalKeepsPlans(m.shared.swaps, section, at, id);
  }

  /** Sections of threads and of the wallet store no new id. */
  lemma OnlyStoresAdmit(m: Machine, event: Event)
    requires !event.Locked?
    ensures Next(m, event).shared.swaps.Keys <= m.shared.swaps.Keys
  {
  }

  /** The quiet condition is exactly what keeps the claims backed. */
  lemma QuietExactly(m: Machine, event: Event)
    requires Backed(m)
    ensures Backed(Next(m, event)) <==> Quiet(m, event)
  {
    hide Disturbs, InStep, Act;
    if Quiet(m, event) {
      QuietKeepsBacked(m, event);
    } else {
      var t, id :| t in m.threads && id in Next(m, event).shared.swaps && id !in m.shared.swaps && Disturbs(m.shared, m.threads[t], id);
      if event.Locked? && External(event.section) {
        DisturbedIsOutOfStep(m, event.section, event.at, t, id);
      } else if !event.Locked? {
        OnlyStoresAdmit(m, event);
      }
    }
  }

  lemma QuietKeepsBacked(m: Machine, event: Event)
    requires Backed(m) && Quiet(m, event)
    ensures Backed(Next(m, event))
  {
    if event.Section? {
      SectionKeepsBacked(m, event.t, event.action);
    } else if event.Locked? {
      if External(event.section) {
        LockedKeepsBacked(m, event.section, event.at);
      }
    } else {
      WalletKeepsBacked(m, event);
    }
  }

  ghost predicate QuietRun(events: seq<Event>) {
    forall k :: 0 <= k < |events| ==> Quiet(Run(START, events[..k]), events[k])
  }

  lemma {:induction false} QuietRunsBacked(events: seq<Event>)
    requires QuietRun(events)
    ensures Backed(Run(START, events))
    decreases |events|
  {
    if events != [] {
      var earlier := events[..|events| - 1];
      forall k | 0 <= k < |earlier|
        ensures Quiet(Run(START, earlier[..k]), earlier[k])
      {
        assert earlier[..k] == events[..k];
      }
      QuietRunsBacked(earlier);
      QuietKeepsBacked(Run(START, earlier), events[|events| - 1]);
    }
  }

  /** In a quiet run a live swap is built only from its claimed plan, whose coins are reserved for it or already spent by its funding. */
  lemma BuildsFromReservedCoins(events: seq<Event>, t: nat)
    requires QuietRun(events)
    ensures var m := Run(START, events);
            At(m, t).Building? && At(m, t).id in m.shared.swaps ==>
              && At(m, t).plan == m.shared.swaps[At(m, t).id].claimedPlan
              && Covered(m.shared, At(m, t).id)
  {
    var m := Run(START, events);
    QuietRunsBacked(events);
    if At(m, t).Building? && At(m, t).id in m.shared.swaps {
      assert InStep(m.shared, m.threads[t]);
      assert Guards(m.threads[t], At(m, t).id);
      assert Guards(Clearing(At(m, t).id), At(m, t).id);
    }
  }

  predicate BuildsCovered(m: Machine, t: nat) {
    At(m, t).Building? && At(m, t).id in m.shared.swaps
    && At(m, t).plan == m.shared.swaps[At(m, t).id].claimedPlan && Covered(m.shared, At(m, t).id)
  }

  lemma CoveredCoinsApart(m: Machine, t: nat, u: nat, coin: OutPoint)
    requires MarksUnique(m) && Disjoint(m.shared.wallet.locks)
    requires BuildsCovered(m, t) && BuildsCovered(m, u) && t != u
    requires coin in Inputs(At(m, t).plan) * Inputs(At(m, u).plan)
    ensures coin in m.shared.spent
  {
    var a, b := Onchain(m.threads[t].id), Onchain(m.threads[u].id);
    assert Guards(m.threads[t], a.id) && !Guards(m.threads[u], a.id) && Guards(m.threads[u], b.id);
    assert coin in HeldBy(m.shared.wallet.locks, a) + m.shared.spent && coin in HeldBy(m.shared.wallet.locks, b) + m.shared.spent;
    assert coin !in m.shared.spent ==> coin in HeldBy(m.shared.wallet.locks, a) * HeldBy(m.shared.wallet.locks, b);
  }

  /** So, in a quiet run, no two threads ever build live swaps from the same unspent coin. */
  lemma NoCoinBuiltTwice(events: seq<Event>, t: nat, u: nat, coin: OutPoint)
    requires QuietRun(events) && t != u
    requires At(Run(START, events), t).Building? && At(Run(START, events), u).Building?
    requires At(Run(START, events), t).id in Run(START, events).shared.swaps
    requires At(Run(START, events), u).id in Run(START, events).shared.swaps
    requires coin in Inputs(At(Run(START, events), t).plan) * Inputs(At(Run(START, events), u).plan)
    ensures coin in Run(START, events).shared.spent
  {
    hide Run, Covered, InStep;
    BuildsFromReservedCoins(events, t);
    BuildsFromReservedCoins(events, u);
    ReservationsDisjoint(events);
    QuietRunsBacked(events);
    CoveredCoinsApart(Run(START, events), t, u, coin);
  }

  lemma OneMore(m: Machine, events: seq<Event>, event: Event)
    ensures Run(m, events + [event]) == Next(Run(m, events), event)
  {
    assert (events + [event])[..|events|] == events;
  }

  /** A whole funding pass of a swap that has claimed nothing yet and whose planned coins are free. */
  function Pass(u: nat, id: SwapId): seq<Event> {
    [Section(u, Acquire(id))] + [Section(u, Freeze(true))] + [Section(u, Lookup)] + [Section(u, Choose(None, true))] + [Section(u, Attach)]
  }

  lemma PassBuilds(m: Machine, u: nat, id: SwapId)
    requires At(m, u).Idle? && MarkFree(m, id) && id in m.shared.swaps
    requires m.shared.swaps[id].claimedPlan == [] && m.shared.swaps[id].fundingPlan != []
    requires Inputs(m.shared.swaps[id].fundingPlan) <= Plannable(m.shared.wallet)
    ensures var plan := m.shared.swaps[id].fundingPlan;
            Run(m, Pass(u, id)) ==
              m.(threads := m.threads[u := Building(id, plan)],
                 shared := m.shared.(swaps := Registry.SetClaimedPlan(m.shared.swaps, id, plan),
                                     wallet := Reserve(m.shared.wallet, Onchain(id), Inputs(plan))))
  {
    hide Run, Next;
    var plan := m.shared.swaps[id].fundingPlan;
    var opening := [Section(u, Acquire(id))] + [Section(u, Freeze(true))] + [Section(u, Lookup)];
    PassReads(m, u, id);
    var choosing := m.(threads := m.threads[u := Choosing(id, plan, None)]);
    OneMore(m, opening, Section(u, Choose(None, true)));
    OneMore(m, opening + [Section(u, Choose(None, true))], Section(u, Attach));
    PassClaims(m, choosing, u, id);
  }

  lemma PassReads(m: Machine, u: nat, id: SwapId)
    requires At(m, u).Idle? && MarkFree(m, id) && id in m.shared.swaps
    requires m.shared.swaps[id].claimedPlan == [] && m.shared.swaps[id].fundingPlan != []
    ensures Run(m, [Section(u, Acquire(id))] + [Section(u, Freeze(true))] + [Section(u, Lookup)])
            == m.(threads := m.threads[u := Choosing(id, m.shared.swaps[id].fundingPlan, None)])
  {
    hide Run;
    var plan := m.shared.swaps[id].fundingPlan;
    var e1, e2, e3 := Section(u, Acquire(id)), Section(u, Freeze(true)), Section(u, Lookup);
    EmptyRun(m);
    OneMore(m, [], e1);
    assert [] + [e1] == [e1];
    OneMore(m, [e1], e2);
    OneMore(m, [e1] + [e2], e3);
    assert m.threads[u := Guarded(id)][u := Frozen(id, plan)][u := Choosing(id, plan, None)] == m.threads[u := Choosing(id, plan, None)];
  }

  lemma EmptyRun(m: Machine)
    ensures Run(m, []) == m
  {
  }

  /** A whole funding pass when a planned coin went to another swap: it re-plans. */
  function ReplanPass(u: nat, id: SwapId, other: seq<SplitPlan>): seq<Event> {
    [Section(u, Acquire(id))] + [Section(u, Freeze(true))] + [Section(u, Lookup)] + [Section(u, Choose(Some(other), true))] + [Section(u, Attach)]
  }

  lemma ReplanPassBuilds(m: Machine, u: nat, id: SwapId, other: seq<SplitPlan>)
    requires At(m, u).Idle? && MarkFree(m, id) && id in m.shared.swaps
    requires m.shared.swaps[id].claimedPlan == [] && m.shared.swaps[id].fundingPlan != []
    requires !AllFree(m.shared.wallet, m.shared.swaps[id].fundingPlan) && AllFree(m.shared.wallet, other)
    ensures var later := Run(m, ReplanPass(u, id, other));
            && At(later, u) == Building(id, other) && id in later.shared.swaps && later.shared.swaps[id].claimedPlan == other
            && Adds(m.shared.wallet, later.shared.wallet, id, other)
  {
    hide Run, Next, AllFree;
    var plan := m.shared.swaps[id].fundingPlan;
    var opening := [Section(u, Acquire(id))] + [Section(u, Freeze(true))] + [Section(u, Lookup)];
    PassReads(m, u, id);
    OneMore(m, opening, Section(u, Choose(Some(other), true)));
    OneMore(m, opening + [Section(u, Choose(Some(other), true))], Section(u, Attach));
    ReplanClaims(m, m.(threads := m.threads[u := Choosing(id, plan, None)]), u, id, other);
  }

  lemma ReplanClaims(m: Machine, choosing: Machine, u: nat, id: SwapId, other: seq<SplitPlan>)
    requires id in m.shared.swaps && !AllFree(m.shared.wallet, m.shared.swaps[id].fundingPlan) && AllFree(m.shared.wallet, other)
    requires choosing == m.(threads := m.threads[u := Choosing(id, m.shared.swaps[id].fundingPlan, None)])
    ensures var later := Next(Next(choosing, Section(u, Choose(Some(other), true))), Section(u, Attach));
            && At(later, u) == Building(id, other) && id in later.shared.swaps && later.shared.swaps[id].claimedPlan == other
            && Adds(m.shared.wallet, later.shared.wallet, id, other)
  {
    hide AllFree, Adds, ChooseCoins;
    ChoiceExactly(m.shared, id, m.shared.swaps[id].fundingPlan, Some(other), true);
  }

  lemma PassClaims(m: Machine, choosing: Machine, u: nat, id: SwapId)
    requires id in m.shared.swaps && Inputs(m.shared.swaps[id].fundingPlan) <= Plannable(m.shared.wallet)
    requires choosing == m.(threads := m.threads[u := Choosing(id, m.shared.swaps[id].fundingPlan, None)])
    ensures var plan := m.shared.swaps[id].fundingPlan;
            Next(Next(choosing, Section(u, Choose(None, true))), Section(u, Attach)) ==
              m.(threads := m.threads[u := Building(id, plan)],
                 shared := m.shared.(swaps := Registry.SetClaimedPlan(m.shared.swaps, id, plan),
                                     wallet := Reserve(m.shared.wallet, Onchain(id), Inputs(plan))))
  {
  }

  /**
   Each part of the quiet condition is needed. Where the thread holds the mark of an entry that
   has claimed nothing, its own next section, if any is needed, leaves it building the live swap
   from a plan that is not the entry's claim or not covered.
   */
  lemma StalePassBreaksBuild(m: Machine, t: nat, id: SwapId) returns (events: seq<Event>)
    requires t in m.threads && Disturbs(m.shared, m.threads[t], id) && Guards(m.threads[t], id)
    requires id in m.shared.swaps && m.shared.swaps[id].claimedPlan == []
    ensures var later := Run(m, events);
            At(later, t).Building? && At(later, t).id == id && id in later.shared.swaps && !BuildsCovered(later, t)
  {
    EmptyRun(m);
    match m.threads[t]
    case Choosing(_, _, _) =>
      events := [] + [Section(t, Choose(None, true))];
      OneMore(m, [], Section(t, Choose(None, true)));
    case Chosen(_, plan) =>
      events := [] + [Section(t, Attach)];
      OneMore(m, [], Section(t, Attach));
    case Building(_, _) =>
      events := [];
  }

  /** The section that gives back what a drain or a removal still owes. */
  function LateRelease(thread: Thread): Action {
    if thread.Draining? then DrainLocks else RemoveLocks
  }

  /**
   And where a drain or a removal still owes the release of an earlier entry of a live id, a
   funding pass followed by that release leaves the live swap building from coins that are
   neither reserved for it nor spent.
   */
  lemma LateReleaseStripsClaim(m: Machine, t: nat, u: nat, id: SwapId)
    requires SpentUncached(m.shared)
    requires t != u && (At(m, t).Draining? || At(m, t).Removing?) && Disturbs(m.shared, At(m, t), id)
    requires At(m, u).Idle? && MarkFree(m, id) && id in m.shared.swaps
    requires m.shared.swaps[id].claimedPlan == [] && m.shared.swaps[id].fundingPlan != []
    requires {} < Inputs(m.shared.swaps[id].fundingPlan) <= Plannable(m.shared.wallet)
    ensures var later := Run(m, Pass(u, id) + [Section(t, LateRelease(At(m, t)))]);
            At(later, u) == Building(id, m.shared.swaps[id].fundingPlan) && id in later.shared.swaps && !Covered(later.shared, id)
  {
    hide Run, Next;
    var built := Run(m, Pass(u, id));
    PassBuilds(m, u, id);
    OneMore(m, Pass(u, id), Section(t, LateRelease(At(m, t))));
    ReleaseStrips(built, t, u, id);
  }

  /** The late release takes the reservation from under the build. */
  lemma ReleaseStrips(built: Machine, t: nat, u: nat, id: SwapId)
    requires t != u && (At(built, t).Draining? || At(built, t).Removing?) && Disturbs(built.shared, At(built, t), id)
    requires At(built, u).Building? && id in built.shared.swaps
    requires Inputs(built.shared.swaps[id].claimedPlan) - built.shared.spent != {}
    ensures var later := Next(built, Section(t, LateRelease(At(built, t))));
            At(later, u) == At(built, u) && id in later.shared.swaps && !Covered(later.shared, id)
  {
  }

  lemma {:induction false} RunOn(m: Machine, first: seq<Event>, more: seq<Event>)
    ensures Run(m, first + more) == Run(Run(m, first), more)
    decreases |more|
  {
    if more == [] {
      assert first + more == first;
    } else {
      var fewer := more[..|more| - 1];
      assert (first + more)[..|first + more| - 1] == first + fewer;
      RunOn(m, first, fewer);
    }
  }

  /** After the late release the coins are free again, and another swap can pass. */
  lemma ReleaseFreesCoins(m: Machine, built: Machine, t: nat, u: nat, v: nat, id: SwapId, other: SwapId)
    requires t != u && t != v && u != v && (At(m, t).Draining? || At(m, t).Removing?) && Disturbs(m.shared, At(m, t), id)
    requires id in m.shared.swaps && other in m.shared.swaps && id != other && MarkFree(m, other) && At(m, v).Idle?
    requires var plan := m.shared.swaps[id].fundingPlan;
             built == m.(threads := m.threads[u := Building(id, plan)],
                         shared := m.shared.(swaps := Registry.SetClaimedPlan(m.shared.swaps, id, plan),
                                             wallet := Reserve(m.shared.wallet, Onchain(id), Inputs(plan))))
    ensures var later := Next(built, Section(t, LateRelease(At(m, t))));
            && At(later, v).Idle? && MarkFree(later, other) && At(later, u) == At(built, u) && id in later.shared.swaps
            && other in later.shared.swaps && later.shared.swaps[other] == m.shared.swaps[other]
            && Plannable(m.shared.wallet) <= Plannable(later.shared.wallet) && later.shared.spent == m.shared.spent
  {
  }

  /** And so two live swaps may be built from one unspent coin. */
  lemma LateReleaseSharesCoin(m: Machine, t: nat, u: nat, v: nat, id: SwapId, other: SwapId, coin: OutPoint)
    requires SpentUncached(m.shared)
    requires t != u && t != v && u != v && (At(m, t).Draining? || At(m, t).Removing?) && Disturbs(m.shared, At(m, t), id)
    requires At(m, u).Idle? && At(m, v).Idle? && MarkFree(m, id) && MarkFree(m, other) && id != other
    requires id in m.shared.swaps && m.shared.swaps[id].claimedPlan == [] && m.shared.swaps[id].fundingPlan != []
    requires other in m.shared.swaps && m.shared.swaps[other].claimedPlan == [] && m.shared.swaps[other].fundingPlan != []
    requires Inputs(m.shared.swaps[id].fundingPlan) <= Plannable(m.shared.wallet)
    requires Inputs(m.shared.swaps[other].fundingPlan) <= Plannable(m.shared.wallet)
    requires coin in Inputs(m.shared.swaps[id].fundingPlan) * Inputs(m.shared.swaps[other].fundingPlan)
    ensures var later := Run(m, Pass(u, id) + [Section(t, LateRelease(At(m, t)))] + Pass(v, other));
            && At(later, u) == Building(id, m.shared.swaps[id].fundingPlan) && id in later.shared.swaps
            && At(later, v) == Building(other, m.shared.swaps[other].fundingPlan) && other in later.shared.swaps
            && coin !in later.shared.spent
  {
    hide Run, Next, Pass, LateRelease;
    PassBuilds(m, u, id);
    OneMore(m, Pass(u, id), Section(t, LateRelease(At(m, t))));
    ReleaseFreesCoins(m, Run(m, Pass(u, id)), t, u, v, id, other);
    var released := Run(m, Pass(u, id) + [Section(t, LateRelease(At(m, t)))]);
    PassBuilds(released, v, other);
    RunOn(m, Pass(u, id) + [Section(t, LateRelease(At(m, t)))], Pass(v, other));
  }

  /** An admission into an empty table is stored with its plan. */
  lemma FirstAdmission(m: Machine, conn: Connection, plan: seq<SplitPlan>, at: nat)
    requires m.shared.swaps == map[]
    ensures var later := Next(m, Locked(Registry.Admitting("a", conn, Some(plan)), at));
            && later.shared.swaps == map["a" := Registry.Written(DEFAULT_STATE, conn, Some(plan), at)]
            && later.threads == m.threads && later.shared.wallet == m.shared.wallet && later.shared.spent == m.shared.spent
  {
    assert Registry.FundedIds(map[]) == {} && Registry.UnfundedIds(map[]) == {};
  }

  /** Such a state is reached: a drain drops an admission, and its id is admitted again before the drain's second section. */
  lemma ReAdmittedBeforeRelease() returns (events: seq<Event>)
    ensures var m := Run(START, events);
            && SpentUncached(m.shared) && At(m, 0).Draining? && "a" in At(m, 0).ids && At(m, 1).Idle? && MarkFree(m, "a")
            && "a" in m.shared.swaps && m.shared.swaps["a"].claimedPlan == [] && m.shared.swaps["a"].fundingPlan != []
            && {} < Inputs(m.shared.swaps["a"].fundingPlan) <= Plannable(m.shared.wallet)
  {
    hide Run, Next;
    var plan := [SplitPlan([7], 1)];
    assert 7 in plan[0].utxos;
    assert Inputs(plan) == {7};
    var conn := Connection(AwaitingContractData, Some("a"), ZERO_TERMS, [], [], [], [], 0, [], 0);
    var admit := Registry.Admitting("a", conn, Some(plan));
    EmptyRun(START);
    OneMore(START, [], Sync({7}));
    events := [] + [Sync({7})];
    assert Run(START, events) == START.(shared := START.shared.(wallet := Wallet(map[], {7}))) by {
      FirstSync();
    }
    FirstAdmission(Run(START, events), conn, plan, 0);
    OneMore(START, events, Locked(admit, 0));
    events := events + [Locked(admit, 0)];
    DropAdmission(Run(START, events), conn, plan);
    OneMore(START, events, Section(0, DrainSwaps(1, 0, None)));
    events := events + [Section(0, DrainSwaps(1, 0, None))];
    FirstAdmission(Run(START, events), conn, plan, 2);
    OneMore(START, events, Locked(admit, 2));
    events := events + [Locked(admit, 2)];
  }

  lemma FirstSync()
    ensures Next(START, Sync({7})) == START.(shared := START.shared.(wallet := Wallet(map[], {7})))
  {
  }

  /** One idle tick later a drain drops the admission. */
  lemma DropAdmission(m: Machine, conn: Connection, plan: seq<SplitPlan>)
    requires m.shared.swaps == map["a" := Registry.Written(DEFAULT_STATE, conn, Some(plan), 0)] && m.threads == map[]
    requires conn.phase == AwaitingContractData && conn.incoming == [] && conn.outgoing == []
    requires conn.pendingFunding == [] && conn.fundingBroadcast == []
    ensures var later := Next(m, Section(0, DrainSwaps(1, 0, None)));
            && later.shared == m.shared.(swaps := map[]) && later.threads == map[0 := Draining({"a"})]
  {
    assert Registry.DropsUnfunded(m.shared.swaps["a"], 1, 0);
    assert Registry.DroppedIds(m.shared.swaps, 1, 0) == {"a"};
    assert Registry.Drain(m.shared.swaps, 1, 0, None) == map[];
  }

  // ---------------------------------------------------------------- the sections in order

  /** The sections of one funding pass with no other thread in between; those that do not apply do nothing. */
  function Alone(shared: Shared, at: Thread, replan: Option<seq<SplitPlan>>, saved: bool, ok: bool): (Shared, Thread) {
    var (s1, t1) := Act(shared, at, Lookup);
    var (s2, t2) := Act(s1, t1, Choose(replan, saved));
    var (s3, t3) := Act(s2, t2, Attach);
    var (s4, t4) := Act(s3, t3, Undo);
    var (s5, t5) := Act(s4, t4, Build(ok));
    var (s6, t6) := Act(s5, t5, Unreserve);
    Act(s6, t6, Clear)
  }

  /** The maker's marks of running funding steps. */
  class FundingMarks {
    var running: set<SwapId>

    constructor ()
      ensures running == {}
    {
      running := {};
    }

    /** `FundingGuard::acquire`: refused while another handler holds the mark. */
    method AcquireMark(id: SwapId) returns (acquired: bool)
      modifies this
      ensures acquired <==> id !in old(running)
      ensures running == old(running) + {id}
    {
      acquired := id !in running;
      running := running + {id};
    }

    method DropMark(id: SwapId)
      modifies this
      ensures running == old(running) - {id}
    {
      running := running - {id};
    }
  }

  /** The plan's outpoints, split by split. */
  function Flattened(plan: seq<SplitPlan>): seq<OutPoint>
    decreases |plan|
  {
    if plan == [] then [] else plan[0].utxos + Flattened(plan[1..])
  }

  lemma {:induction false} FlattenedInputs(plan: seq<SplitPlan>)
    ensures Coins(Flattened(plan)) == Inputs(plan)
    decreases |plan|
  {
    if plan != [] {
      FlattenedInputs(plan[1..]);
      var all, rest := Inputs(plan), Inputs(plan[1..]);
      forall coin
        ensures coin in all <==> coin in plan[0].utxos || coin in rest
      {
        if coin in all {
          var i :| 0 <= i < |plan| && coin in plan[i].utxos;
          assert i > 0 ==> coin in plan[1..][i - 1].utxos;
        }
        if coin in rest {
          var i :| 0 <= i < |plan[1..]| && coin in plan[1..][i].utxos;
          assert coin in plan[i + 1].utxos;
        }
      }
    }
  }

  ghost function SharedBy(registry: Registry.SwapRegistry, table: LockTable, spent: set<OutPoint>): Shared
    reads registry, table
  {
    Shared(registry.swaps, table.View(), spent)
  }

  /** The choice of coins under the wallet lock; none when it is refused. */
  method ChooseInputs(table: LockTable, id: SwapId, plan: seq<SplitPlan>, claimed: Option<seq<SplitPlan>>,
                      replan: Option<seq<SplitPlan>>, saved: bool, ghost swaps: Swaps, ghost spent: set<OutPoint>)
    returns (chosen: Option<seq<SplitPlan>>)
    modifies table
    ensures var (after, thread) := ChooseCoins(Shared(swaps, old(table.View()), spent), Choosing(id, plan, claimed), replan, saved);
            && table.View() == after.wallet && after.swaps == swaps && after.spent == spent
            && thread == if chosen.None? then Guarded(id) else if claimed.Some? then Building(id, chosen.value) else Chosen(id, chosen.value)
    ensures var before := old(table.View());
            && (claimed.Some? ==> (chosen == if HoldsAll(before, id, claimed.value) then claimed else None) && table.View() == before)
            && (claimed.None? && saved && AllFree(before, plan) ==> chosen == Some(plan) && Adds(before, table.View(), id, plan))
            && (claimed.None? && saved && !AllFree(before, plan) && replan.Some? && AllFree(before, replan.value) ==>
                  chosen == replan && Adds(before, table.View(), id, replan.value))
            && (claimed.None? && (!saved || (!AllFree(before, plan) && !(replan.Some? && AllFree(before, replan.value)))) ==> chosen == None)
  {
    ghost var shared := Shared(swaps, table.View(), spent);
    if claimed.None? {
      ChoiceExactly(shared, id, plan, replan, saved);
    } else {
      ClaimReusedExactly(shared, id, plan, claimed.value, replan, saved);
    }
    hide AllFree, Adds, HoldsAll;
    if claimed.Some? {
      FlattenedInputs(claimed.value);
      var held := Onchain(id) in table.locks && Coins(Flattened(claimed.value)) <= table.locks[Onchain(id)];
      return if held then claimed else None;
    }
    FlattenedInputs(plan);
    var selected := plan;
    var ok := table.ClaimSwapInputs(Onchain(id), Flattened(plan));
    if !ok {
      if replan.None? {
        return None;
      }
      FlattenedInputs(replan.value);
      selected := replan.value;
      ok := table.ClaimSwapInputs(Onchain(id), Flattened(selected));
      if !ok {
        return None;
      }
    }
    if !saved {
      var _ := table.ReleaseSwapLocks(Onchain(id));
      return None;
    }
    return Some(selected);
  }

  /** The sections in order come down to the choice of coins, the claim it records and, when the build fails, the release of both. */
  lemma AloneIs(shared: Shared, id: SwapId, plan: seq<SplitPlan>, replan: Option<seq<SplitPlan>>, saved: bool, ok: bool)
    ensures var after := Alone(shared, Frozen(id, plan), replan, saved, ok).0;
            if id !in shared.swaps then after == shared
            else
              var claimed := shared.swaps[id].claimedPlan;
              var (chose, thread) := ChooseCoins(shared, Choosing(id, plan, if claimed == [] then None else Some(claimed)), replan, saved);
              if thread.Guarded? then after == chose
              else if ok then after == if claimed == [] && thread.Chosen? then chose.(swaps := Registry.SetClaimedPlan(chose.swaps, id, thread.plan)) else chose
              else after.swaps == Registry.SetClaimedPlan(shared.swaps, id, []) && after.wallet == ReleaseAll(chose.wallet, Onchain(id)) && after.spent == shared.spent
  {
  }

  /** What a pass builds when nothing interrupts it: the plan it settles on, unless one of its splits fails to build. */
  ghost function Outcome(swaps: Swaps, wallet: Wallet, id: SwapId, plan: seq<SplitPlan>, replan: Option<seq<SplitPlan>>, saved: bool,
                         failing: Option<nat>): (built: Option<seq<SplitPlan>>)
    ensures built.Some? ==> id in swaps && !(failing.Some? && failing.value < |built.value|)
    ensures id in swaps && swaps[id].claimedPlan != [] && failing.None? ==>
              (built == Some(swaps[id].claimedPlan) <==> HoldsAll(wallet, id, swaps[id].claimedPlan))
    ensures id in swaps && swaps[id].claimedPlan == [] && failing.None? ==>
              (built.Some? <==> saved && (AllFree(wallet, plan) || (replan.Some? && AllFree(wallet, replan.value))))
    ensures id in swaps && swaps[id].claimedPlan == [] && built.Some? ==> built == if AllFree(wallet, plan) then Some(plan) else replan
  {
    var settled :=
      if id !in swaps then None
      else if swaps[id].claimedPlan != [] then
        if HoldsAll(wallet, id, swaps[id].claimedPlan) then Some(swaps[id].claimedPlan) else None
      else if !saved then None
      else if AllFree(wallet, plan) then Some(plan)
      else if replan.Some? && AllFree(wallet, replan.value) then replan
      else None;
    if settled.Some? && failing.Some? && failing.value < |settled.value| then None else settled
  }

  /** `execute_frozen_plan`, run without interruption; `failing` is the split whose build fails. */
  method ExecuteFrozenPlan(registry: Registry.SwapRegistry, table: LockTable, id: SwapId, plan: seq<SplitPlan>,
                           replan: Option<seq<SplitPlan>>, saved: bool, failing: Option<nat>, ghost spent: set<OutPoint>)
    returns (built: Option<seq<SplitPlan>>)
    modifies registry, table
    ensures exists ok ::
              && SharedBy(registry, table, spent) == Alone(old(SharedBy(registry, table, spent)), Frozen(id, plan), replan, saved, ok).0
              && (built.Some? ==> ok)
    ensures built == Outcome(old(registry.swaps), old(table.View()), id, plan, replan, saved, failing)
    ensures built.Some? ==> id in registry.swaps && registry.swaps[id].claimedPlan == built.value && HoldsAll(table.View(), id, built.value)
  {
    ghost var start := SharedBy(registry, table, spent);
    AloneIs(start, id, plan, replan, saved, true);
    AloneIs(start, id, plan, replan, saved, false);
    hide Alone, ChooseCoins, AllFree;
    if id !in registry.swaps {
      return None;
    }
    var stored := registry.swaps[id].claimedPlan;
    var claimed := if stored == [] then None else Some(stored);
    var chosen := ChooseInputs(table, id, plan, claimed, replan, saved, registry.swaps, spent);
    if chosen.None? {
      return None;
    }
    HeldAfter(old(table.View()), table.View(), id, chosen.value);
    if claimed.None? {
      registry.SetClaimed(id, chosen.value);
    }
    var i := 0;
    while i < |chosen.value| && failing != Some(i)
      invariant 0 <= i <= |chosen.value| && !(failing.Some? && failing.value < i)
    {
      i := i + 1;
    }
    if i < |chosen.value| {
      var _ := table.ReleaseSwapLocks(Onchain(id));
      registry.SetClaimed(id, []);
      return None;
    }
    return chosen;
  }

  lemma HeldAfter(before: Wallet, after: Wallet, id: SwapId, plan: seq<SplitPlan>)
    ensures Adds(before, after, id, plan) ==> HoldsAll(after, id, plan)
  {
    if Adds(before, after, id, plan) {
      forall i, coin | 0 <= i < |plan| && coin in plan[i].utxos
        ensures coin in after.locks[Onchain(id)]
      {
        assert coin in Inputs(plan);
      }
    }
  }

  /** Releases the reservations of the ids, in any order. */
  method ReleaseDropped(table: LockTable, ids: set<SwapId>)
    modifies table
    ensures table.View() == ReleaseEach(old(table.View()), ids)
  {
    var left := ids;
    while left != {}
      invariant left <= ids && table.View() == ReleaseEach(old(table.View()), ids - left)
      decreases left
    {
      var id :| id in left;
      var _ := table.ReleaseSwapLocks(Onchain(id));
      left := left - {id};
    }
    assert ids - {} == ids;
  }

  /** `drain_idle_swaps` over both tables: what it dropped as unfunded holds nothing afterwards. */
  method DrainBoth(registry: Registry.SwapRegistry, table: LockTable, now: nat, timeout: nat, tip: Option<nat>, ghost spent: set<OutPoint>)
    returns (dropped: set<SwapId>, idle: Swaps)
    modifies registry, table
    ensures var (s1, t1) := Act(old(SharedBy(registry, table, spent)), Idle, DrainSwaps(now, timeout, tip));
            SharedBy(registry, table, spent) == Act(s1, t1, DrainLocks).0 && t1 == Draining(dropped)
    ensures forall id :: id in dropped ==> Onchain(id) !in table.locks && id !in registry.swaps
  {
    dropped, idle := registry.DrainIdleSwaps(now, timeout, tip);
    ReleaseDropped(table, dropped);
  }
}
