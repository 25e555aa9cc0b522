# Verified model of the openswap maker, its Lightning swaps, its descriptor checksum and its shared files

This project models four parts of openswap in Dafny and proves what they promise: the maker's swap
registry and funding protocol, the submarine swaps over the in-memory Lightning ledger, the
checksum, fee and configuration code of `src/utill.rs`, and the shared blocklist file.
`dafny verify dfyconfig.toml` checks the whole project.

## How the model is laid out

| file | what it models |
|---|---|
| `Common.dfy`, `MakerState.dfy` | option and result types; the maker's stored swap state and connection state |
| `Registry.dfy` | every section that runs under the `ongoing_swaps` lock, as functions, runs of them, and the class that executes them |
| `Connections.dfy` | the sections of all handlers over any number of connections, reconnects and re-used swap ids |
| `WalletLocks.dfy`, `FundingClaims.dfy` | coin reservations, and funding passes, drains and removals interleaving one locked section at a time |
| `Broadcast.dfy` | the funding broadcast one effect at a time, with other connections' stores, drains and removals in between |
| `FeePolicy.dfy` | fee policy and the advertised minimum, over `real` |
| `CoinSelection.dfy`, `Planner.dfy`, `Forwarding.dfy`, `Replanning.dfy`, `Admission.dfy` | coin selection, splitting, netting, re-planning, admission and the proof of funding |
| `Ledger.dfy`, `SwapHtlc.dfy`, `SwapIn.dfy`, `SwapInTiming.dfy`, `SwapOut.dfy`, `SwapOutTiming.dfy` | the shared Lightning ledger, the HTLC and its spends, both swap directions and their clocks |
| `Checksum.dfy` | the descriptor checksum of BIP 380 |
| `ConfigFile.dfy` | the config reader and the in-place config editor |
| `Blocklist.dfy`, `BlocklistFile.dfy` | the blocklist index, and several processes writing its file |

Concurrency is modelled as runs of atomic steps: a theorem about "every run" is about every sequence
of steps, so about every interleaving. A class holds the state the source mutates; its methods are
proved equal to the functions the theorems are about. What these functions do is stated a second time
by the fields of the state: the lemmas whose names end in `Exactly` say when a call does something,
what it then leaves, and that it changes nothing otherwise.

## Reading the model

- `swap_start_time` is a number that each admission takes anew from a clock; two admissions never share one.
- Hashes are injective constructors: `Sha256(p)` is equal to `Sha256(q)` only when `p` equals `q`. Signatures are the
  name of the key. An invoice text carries its hash and amount and is unique.
- Rates and percentages are `real`, with the source's explicit ceilings; sums that the source checks or saturates at
  64 bits are checked or saturated here.
- What the environment decides is a parameter of a step: wallet answers, backend answers, the order in which a hash map
  is written, where a handler stops.
- Coinswap ids and Lightning swap ids are kept apart as reservation keys.

## Where the code does not do what was wanted

- A drain releases coin reservations by swap id, in a second locked section, and a funding pass writes its claim back by
  id only. When an id is admitted again in between, the live swap may build from coins that are not reserved for it. What
  matters is what a thread still remembers of the earlier entry: a release it owes, a plan it claimed and still holds, a
  chosen plan whose coins were released, a plan it builds. `QuietExactly` proves that this condition is exact,
  `LateReleaseStripsClaim`, `LateReleaseSharesCoin` and `StalePassBreaksBuild` give the failing continuations and
  `ReAdmittedBeforeRelease` reaches one; `BuildsFromReservedCoins` and `NoCoinBuiltTwice` prove the property for all runs
  without such a re-admission.
- A handler for contract signatures starts by storing its connection, and a request for sender signatures stores its
  connection without the funding mark, also in the middle of another handler's send loop. A connection with an older copy
  then replaces the broadcast list. `BroadcastSafe`, `AllowedIsSafe` and `GoodExactly` give the exact condition;
  `StoreInTheLoopHides` and `OlderConnectionHidesBroadcasts` are runs. What survives in every run is `AcceptedInOrder`, and
  a handler that completes repairs the list (`CompletionRecordsEachOnce`).
- Signatures that do not verify remove the stored swap with its broadcast list, also when funding is out already
  (`RemovalLosesList`); the committed coins on disk then lag by at most one (`AcceptedInOrder`). A drain hands the list on.
- A claim of incoming contracts, the funding height, the claimed plan, records, keepalives and removals are written by swap
  id, also by a connection that holds another admission of that id: a proof of funding claims, and a handover or bad
  signatures remove, what is not theirs. `OlderAdmissionWritesExactly` says over all sections what such a connection
  changes, `OlderClaimBlocksLive` what its claim costs, `WhatEndsAnAdmission` what ends an admission;
  `OlderProofClaimsNewer`, `KeepaliveRefreshesNewerAdmission`, `HandoverRemovesNewerAdmission` and `BadSignaturesEnd` are
  runs.
- An accepted admission reads its plan back in a second locked section. When the id is removed and admitted on other terms
  in between, the connection carries its own terms with the other admission's plan. `TermsFixedAtAdmission` proves that
  this is the only way terms, fee and plan come apart, `ReadBackMisses` is a run, and `MisreadIsRestored` says what ends it.
- The ledger's regular invoices overwrite whatever is stored under their hash: `CreatingKeepsExactlyWhenFresh` and
  `ReusedHashForgets`.
- The swap-in maker pays the invoice text without comparing its hash and amount with the request, unlike the swap-out
  taker. `MakerPaysTheInvoice` proves that the payment buys the HTLC at the agreed price exactly when they match, and
  `OtherInvoiceBuysNothing` is a run with another hash.
- The swap-out's module comment asks for a hold window longer than the lock time plus a margin, which nothing enforces.
  `NeverGivenAway` and `GivenAwayWhenLate` give the exact sum.
- The comment on the swap-in route bound speaks of a margin that is left to spend against the refund. `NeverDoubled` and
  `DoubledWhenLate` show that the delays of paying, polling and claiming share exactly these 12 blocks.
- The comment in `plan_admission` that the subtraction cannot underflow is right: `FloorCoversSweeps`.

## Model

| member | source | states |
|---|---|---|
| `Registry.IncomingClaimsDisjoint` | src/maker/api.rs:2667-2690 | in every run the incoming contract txids claimed by different live swaps are disjoint |
| `Registry.SectionKeepsClaims` | src/maker/api.rs:2853-3011 | no section but a claim changes a swap's claimed txids, a non-empty claim is never replaced, and a new entry starts without one |
| `Registry.ClaimConstantWhileLive` | src/maker/api.rs:2667-2690 | a non-empty claim stays the same through every run in which its swap stays live |
| `Registry.ClaimRetryAccepted` | src/maker/api.rs:2667-2690 | repeating an accepted claim is accepted and changes only the activity time |
| `Registry.SectionGrowth` | src/maker/api.rs:2864-2946 | only an accepted admission adds to the unfunded or to the live swaps, and it adds one |
| `Registry.RacingAdmissionsKeepCaps` | src/maker/api.rs:2864-2946 | over every run of admissions that all passed the unlocked check, stores that move no swap back, drains and removals: never more unfunded swaps than their cap, nor more live swaps than both caps allow |
| `Registry.CountSwaps` | src/maker/api.rs:2242-2271 | the one-pass count equals the number of funded and of unfunded live swaps |
| `Registry.CountedExactly` | src/maker/api.rs:2242-2271 | by the fields: unfunded are the swaps that wait for contract data with no coin and no transaction on either side, funded all others not completed |
| `Registry.HoldsExactly` | src/maker/api.rs:2275-2295 | a txid is held elsewhere exactly when another live swap claimed it or has an incoming or outgoing coin on that contract |
| `Registry.AdmittedExactly` | src/maker/api.rs:2864-2946 | an admission is accepted again exactly for the same terms and then only refreshes; a new one exactly without an unfinished swap on disk, below both caps and with a plan, and stores these terms, this fee and this plan |
| `Registry.DrainExactly` | src/maker/api.rs:1653-1730 | by the fields: exactly which entries a drain drops as unfunded, whatever they claimed or planned, which it hands over, and that all others stay as they are |
| `Registry.SpentExactly` | src/maker/api.rs:2590-2619 | the inputs a record frees are those of the first pending funding transaction with that id or, for Taproot, of the first such outgoing contract |
| `Registry.PastExactly` | src/maker/handlers.rs:207-226 | the saturating comparison in plain arithmetic: past exactly when the refund height is below the 32-bit limit and closer than the reaction time |
| `Registry.PastMonotone` | src/maker/handlers.rs:207-226 | a swap past its deadline at one height is past it at every later one |
| `Registry.ValidatedNotPast` | src/maker/api.rs:2421-2434 | a Taproot timelock that passes validation at a height is not past its deadline there |
| `Registry.KeepaliveKeepsAlive` | src/maker/handlers.rs:1022-1060 | a keepalive that is before the deadline, unbreached and with its funding seen keeps the swap through every drain up to the idle timeout; any other changes nothing; which transactions count as its funding is said by the fields, for both protocols |
| `Registry.DrainLeavesNonePast` | src/maker/api.rs:1691-1728 | after a drain at a readable height no live swap with outgoing coins is past its deadline |
| `Registry.NothingPostponesDrain` | src/maker/handlers.rs:1022-1060 | a past swap with outgoing coins is drained by the next drain at that height or later, whatever keepalives, claims, records and other swaps' stores run before it |
| `Registry.SwapRegistry.HoldsElsewhere` | src/maker/api.rs:2275-2295 | the scan finds a txid exactly when another live swap claims it or holds an incoming or outgoing coin on it |
| `Registry.SwapRegistry.StoreConnectionState` | src/maker/api.rs:2853-3011 | the stored map and the verdict after every kind of store: admission, resend, mismatch, expiry, cap, stale store, put-back |
| `Registry.SwapRegistry.ClaimIncomingContractTxids` | src/maker/api.rs:2667-2690 | claims exactly when no other live swap claims or carries a txid and no different claim is there, and then writes the claim and the activity time and nothing else |
| `Registry.SwapRegistry.DrainIdleSwaps` | src/maker/api.rs:1653-1730 | removes exactly the idle unfunded swaps and the stale funded ones, and hands the latter back as they were |
| `Registry.SwapRegistry.RecordFundingBroadcast` | src/maker/api.rs:2590-2619 | records a txid once, in order, and returns the inputs of the transaction of that swap it names |
| `Connections.TermsFixedAtAdmission` | src/maker/handlers.rs:1189-1410 | over every interleaving of all connections' sections: stored swaps and bound connections carry at every moment exactly the terms, fee and frozen plan of the admission they belong to, if and only if every admission reads back the terms it asked for |
| `Connections.EventAgrees` | src/maker/handlers.rs:1325-1344 | every section keeps this agreement, but for a read-back that finds other terms, and that one never does |
| `Connections.ReadBackMisses` | src/maker/handlers.rs:1297-1344 | a run in which the id is admitted on other terms between an accepted resend and its read-back |
| `Connections.MisreadIsRestored` | src/maker/handlers.rs:1368-1410 | the next message of such a connection takes everything from the stored entry, while there is one |
| `Connections.LiveTermsConstant` | src/maker/api.rs:2853-3036 | however such a run continues, a swap stored under the same admission has the same terms, fee and plan |
| `Connections.UnfinishedNeverAdmitted` | src/maker/api.rs:2864-2897 | over every interleaving: every admission ever made, and every plan that waits for the lock, comes from a valid message whose id had no unfinished swap on disk, with exactly the terms it asked for and the plan the wallet answered |
| `Connections.OlderAdmissionWritesExactly` | src/maker/legacy_handlers.rs:350-545 | everything a connection of another admission does to the live entry of its id: its stores are refused; its by-id sections write claims, the funding height, the claimed plan, records and the activity time; its removals take the entry away; nothing else changes |
| `Connections.OlderAdmissionCannotStore` | src/maker/api.rs:2951-2970 | every store of such a connection is refused and closes it |
| `Connections.OlderDispatchExactly` | src/maker/handlers.rs:1373-1385 | its messages are handled exactly when it has coins of its own and protocol and phase fit |
| `Connections.OlderClaimBlocksLive` | src/maker/api.rs:2667-2690 | a claim it makes is for good: while the entry lives, every claim of other contracts, the live admission's own among them, is refused |
| `Connections.ClaimFixedWhileLive` | src/maker/api.rs:2667-2690 | over every continuation in which the entry stays, its claim stays the same |
| `Connections.OlderProofClaimsNewer` | src/maker/legacy_handlers.rs:160-353 | a run in which the proof of funding of an older admission is about to claim the entry of the newer one |
| `Connections.KeepaliveRefreshesNewerAdmission` | src/maker/handlers.rs:1022-1060 | a run in which a keepalive of an older admission refreshes the live one |
| `Connections.HandoverRemovesNewerAdmission` | src/maker/server.rs:826-834 | a run in which a handover of an older admission removes the live one |
| `Connections.StoresKeepAdmissions` | src/maker/api.rs:2901-2977 | no store, admission or by-id section ends a live admission |
| `Connections.WhatEndsAnAdmission` | src/maker/server.rs:826-928 | a section ends a live admission exactly when it is a drain of it, the removal after a completed handover of its id, or the removal after signatures that do not verify |
| `Connections.BadSignaturesEnd` | src/maker/legacy_handlers.rs:629-651 | contract signatures that do not verify, on a new connection, end the live admission and leave its other connections open |
| `Connections.PutBackExactly` | src/maker/server.rs:895-928 | a swap that did not settle is put back when its id is free or still its own admission's, and never over another one |
| `Connections.RestoreAfterStore` | src/maker/handlers.rs:1368-1410 | an accepted store followed by a restore on a new connection gives the stored connection back, field by field |
| `Connections.RestoreAfterAdmission` | src/maker/handlers.rs:1325-1344 | after a new admission a reconnect gets the asked terms with the frozen plan |
| `Connections.AdmissionEffect` | src/maker/api.rs:2901-2946 | an admission section changes nothing, refreshes the live admission whose terms it repeats, or makes a new one |
| `Connections.StoreEffect` | src/maker/api.rs:2951-3011 | any other store is accepted exactly for the stored admission, or to put a completed swap back, and writes one entry, whose claims, claimed plan and funding height it keeps |
| `Connections.PhasesTake` | src/maker/legacy_handlers.rs:67-180 | which protocol messages each phase takes, and in which protocol; every other message in it is refused |
| `Connections.BuiltIsStored` | src/maker/legacy_handlers.rs:470-545 | a live admission that built its outgoing coins has stored exactly these coins, the transactions that fund them and the incoming coins, with terms, plan, claims and list kept; a reconnect gets the same back |
| `Connections.FinishIsStored` | src/maker/legacy_handlers.rs:831-835 | the final store keeps coins and list, leaves a Legacy swap nothing to send, and a reconnect gets the same back |
| `Connections.ProofExactly` | src/maker/legacy_handlers.rs:160-545 | an uninterrupted proof is stored exactly when it is dispatched, its claim is accepted and the entry is of its own admission; the entry then holds the proof's coins and claim, the built coins and their transactions |
| `Connections.SigsExactly` | src/maker/legacy_handlers.rs:583-835 | uninterrupted contract signatures: handled exactly on the connection's own live admission; good ones leave the swap sent and each transaction listed once, bad ones remove it, and otherwise nothing stored changes |
| `Connections.HandoverExactly` | src/maker/server.rs:826-928 | an uninterrupted handover ends the entry of its id or, when it does not settle, leaves it completed with its coins |
| `Connections.DetailsInOne` | src/maker/handlers.rs:1297-1344 | an admission with nothing in between is one store, refused or read back at once |
| `Connections.MakerServer.RestoreStateIfNeeded` | src/maker/handlers.rs:1368-1413 | a connection without coins takes the stored state over, unless it holds another admission |
| `Connections.MakerServer.DispatchMessage` | src/maker/handlers.rs:338-367 | the restore, protocol, phase and swap-id checks a protocol handler starts with |
| `Connections.MakerServer.MessageReceived` | src/maker/legacy_handlers.rs:67-180 | a protocol message is dispatched and starts its handler, or closes the connection |
| `Connections.MakerServer.SwapDetailsReceived` | src/maker/handlers.rs:1189-1365 | the whole state after a SwapDetails message: admitted, resent, refused or closed |
| `Connections.MakerServer.StoreSession` | src/maker/api.rs:2951-3011 | the store of a handler as the sections have it, accepted or closing the connection; `BuiltIsStored` and `FinishIsStored` say what it leaves field by field |
| `Connections.MakerServer.ProofReceived` | src/maker/legacy_handlers.rs:160-545 | a proof of funding run without interruption: stored exactly when dispatched, claimed and of its own admission, and what the entry then holds, coin by coin and transaction by transaction |
| `Connections.MakerServer.ContractSigsReceived` | src/maker/legacy_handlers.rs:583-835 | the contract signatures over the stored swaps: store, then removal, or the records and the final store with every sent transaction listed |
| `Connections.MakerServer.HandoverReceived` | src/maker/server.rs:826-928 | a handover: removal by id, and the put-back, completed and with its coins, when it does not settle |
| `WalletLocks.ReserveKeepsDisjoint` | src/wallet/api.rs:2489-2516 | reserving plannable coins keeps different swaps' reservations disjoint |
| `WalletLocks.ReleaseShrinks` | src/wallet/api.rs:2537-2563 | a release only takes from its own swap's reservation, exactly the freed coins |
| `WalletLocks.LockTable.ReserveSwapLocks` | src/wallet/api.rs:2489-2499 | the loop adds all outpoints to the swap's reservation |
| `WalletLocks.LockTable.ClaimSwapInputs` | src/wallet/api.rs:2503-2516 | all inputs are reserved or none, and only when each is plannable |
| `WalletLocks.LockTable.ReleaseSwapLocks` | src/wallet/api.rs:2537-2545 | drops the whole reservation and tells whether there was one |
| `WalletLocks.LockTable.ReleaseBroadcastInputs` | src/wallet/api.rs:2546-2563 | removes spent inputs from cache and reservation, drops an empty reservation, and tells whether one was reserved |
| `FundingClaims.ReservationsDisjoint` | src/maker/api.rs:2020-2078 | in every interleaving the coins reserved for different swaps, Lightning HTLC funding included, are disjoint |
| `FundingClaims.DroppedSwapHoldsNothing` | src/maker/api.rs:1653-1746 | in every interleaving a swap dropped as unfunded and not admitted again holds no reservation once no thread owes a release for it |
| `FundingClaims.RunKeepsDebts` | src/maker/api.rs:2079-2095 | while a dropped swap still has a reservation, some thread's next sections release it |
| `FundingClaims.RecordedBroadcastIsFinal` | src/maker/api.rs:2590-2628 | from the recording of a broadcast that spends a coin of the claimed plan on, no funding pass of that live swap builds a transaction again, in any continuation |
| `FundingClaims.FreeMakesFinal` | src/maker/api.rs:2618-2626 | freeing the spent inputs leaves the claim not fully held and no other thread past the choice of coins |
| `FundingClaims.FinalForGood` | src/maker/api.rs:2035-2047 | nothing makes the held test true again while the swap stays live |
| `FundingClaims.NextKeepsMarks` | src/maker/handlers.rs:405-435 | no two threads ever hold the funding mark of one swap |
| `FundingClaims.BuildsFromReservedCoins` | src/maker/api.rs:2004-2117 | in every run where no thread disturbs a newly stored id, a live swap is built only from its claimed plan, every coin reserved for it or spent by its own funding |
| `FundingClaims.QuietExactly` | src/maker/api.rs:2004-2117 | a step keeps every claim backed and every thread in step exactly when no thread disturbs an id it stores anew |
| `FundingClaims.NoCoinBuiltTwice` | src/maker/api.rs:2004-2117 | in such runs no two threads build live swaps from the same unspent coin |
| `FundingClaims.LateReleaseStripsClaim` | src/maker/api.rs:1730-1743 | whenever an id is live again before a drain or a removal has released its earlier entry, a funding pass and then that release leave it building from unreserved coins |
| `FundingClaims.LateReleaseSharesCoin` | src/maker/api.rs:1730-1743 | and another swap that planned the same coin then builds from it too, while it is unspent |
| `FundingClaims.StalePassBreaksBuild` | src/maker/api.rs:2079-2095 | whenever a pass over an earlier entry still holds its old claim, has chosen coins that were released, or builds, at most one more section has the live swap built from a plan that is not its claim or not covered |
| `FundingClaims.ReAdmittedBeforeRelease` | src/maker/api.rs:1653-1746 | such a state is reachable |
| `FundingClaims.PassBuilds` | src/maker/api.rs:2004-2078 | a pass over free planned coins reserves exactly them, records the claim and builds |
| `FundingClaims.ReplanPassBuilds` | src/maker/api.rs:2051-2078 | a pass whose planned coins are taken, with a re-plan over free coins, reserves exactly those, records the re-plan as the claim and builds from it |
| `FundingClaims.FreezeExactly` | src/maker/api.rs:1950-1979 | a pass starts from the stored plan exactly when there is one and the asked amount matches it |
| `FundingClaims.ChoiceExactly` | src/maker/api.rs:2020-2077 | without an earlier claim: the frozen plan exactly when all its coins are free, else the re-plan exactly when all of its are, else refused; exactly these coins are added to the reservation, and an unsaved claim is given back |
| `FundingClaims.ClaimReusedExactly` | src/maker/api.rs:2035-2047 | an earlier claim is used again exactly while every coin of it is reserved for the swap, and refused otherwise |
| `FundingClaims.FundingMarks.AcquireMark` | src/maker/handlers.rs:412-423 | the mark is given exactly when nobody holds it |
| `FundingClaims.FundingMarks.DropMark` | src/maker/handlers.rs:426-435 | dropping the mark frees exactly that swap |
| `FundingClaims.ChooseInputs` | src/maker/api.rs:2020-2077 | answers a plan exactly when an earlier claim is fully held or, without one, the frozen plan or else the re-plan has only free coins and is saved; says which plan it is and what is reserved afterwards |
| `FundingClaims.ExecuteFrozenPlan` | src/maker/api.rs:1981-2148 | an uninterrupted pass ends in the state its sections give one after the other; it builds exactly when a plan is settled on as above and no split of it fails, and then the claim recorded is the plan built, every coin of it reserved |
| `FundingClaims.DrainBoth` | src/maker/api.rs:1653-1746 | both sections of a drain: what it drops as unfunded holds no reservation and no entry |
| `Broadcast.AcceptedInOrder` | src/maker/legacy_handlers.rs:583-835 | over every run, whatever connections store, drain or remove between any two effects and wherever handlers stop: the accepted transactions are the first ones, over coins saved with their signature and watched first; the coins of all but the last are committed, and no coin is committed unless its own funding transaction is accepted; every list, stored, handed on or carried, names only accepted and committed ones, once each |
| `Broadcast.BroadcastSafe` | src/maker/legacy_handlers.rs:150-156 | the swap is safe at every moment of a run, at most one accepted transaction missing from its list and so wherever the handler stops, if and only if every list stored on the way is allowed |
| `Broadcast.AllowedIsSafe` | src/maker/legacy_handlers.rs:622-835 | one event, exactly: from a good state the swap stays safe wherever the handler then stops if and only if the event is allowed |
| `Broadcast.GoodExactly` | src/maker/legacy_handlers.rs:742-835 | the condition on list and handler is exact: safe now and at every later stop of the handler if and only if the list misses at most one accepted transaction, and none the handler has passed while others are to be sent |
| `Broadcast.OlderListSafeExactly` | src/maker/legacy_handlers.rs:150-156 | by what is carried: a list with all stored records is always allowed, one that lacks two never, one that lacks exactly one accepted transaction exactly when no handler has passed it with others to send |
| `Broadcast.CompletionRecordsEachOnce` | src/maker/legacy_handlers.rs:831-835 | the final store leaves every transaction accepted, committed and listed exactly once, whatever was stored in between |
| `Broadcast.BroadcastCompletes` | src/maker/legacy_handlers.rs:583-835 | contract signatures that nothing disturbs reach the end, with every transaction accepted, committed and listed exactly once |
| `Broadcast.GoneStopsTheLoop` | src/maker/legacy_handlers.rs:742-835 | once the stored swap is gone, a handler at work sends at most the transaction it comes to next |
| `Broadcast.StoreInTheLoopHides` | src/maker/legacy_handlers.rs:150-156 | a run in which a store without the mark in the middle of the loop leaves two accepted transactions unrecorded |
| `Broadcast.OlderConnectionHidesBroadcasts` | src/maker/legacy_handlers.rs:622-629 | a run of two handlings with the same outcome |
| `Broadcast.RemovalLosesList` | src/maker/legacy_handlers.rs:631-651 | a run in which bad signatures remove the stored swap while two accepted transactions are out: no list names them |
| `Broadcast.PutAllSaves` | src/wallet/api.rs:852-890 | saving a batch saves every coin with its signature and forgets no commitment |
| `Broadcast.Maker.ArmWatches` | src/maker/legacy_handlers.rs:699-709 | the nested loop arms the contract outputs one by one, up to any stop |
| `Broadcast.Maker.CommitFundedBy` | src/maker/legacy_handlers.rs:722-734 | the coins the transaction funds, and no others, are committed one by one, up to any stop |
| `Broadcast.Maker.SendBatch` | src/maker/legacy_handlers.rs:742-835 | the send loop and the final store, up to any stop, effect by effect those of the run theorems |
| `Broadcast.Maker.HandleContractSigs` | src/maker/legacy_handlers.rs:583-835 | the whole handler, up to any stop, bad signatures included, effect by effect those of the run theorems |
| `FeePolicy.FeeAtRate` | src/utill.rs:193-204 | there is a fee exactly for a rate of at least 1 and a product below 2^64; it is the rate times the size, rounded up by less than one |
| `FeePolicy.FeeMonotone` | src/utill.rs:193-204 | a larger transaction never costs less |
| `FeePolicy.PolicyNeverExceedsReal` | src/utill.rs:209-216 | the reimbursement never exceeds the real fee and equals it within the budget |
| `FeePolicy.PolicyPaysForBytes` | src/utill.rs:209-216 | what is reimbursed is the rate times 97 bytes and 68 for each input up to the budget, rounded up by less than one |
| `FeePolicy.FloorPaysForBytes` | src/maker/api.rs:117-127 | at any rate the cost floor pays for the bytes of all sweeps, one settlement and one funding transaction and for a non-dust output, and asks for less than one satoshi more per transaction |
| `FeePolicy.FloorValue` | src/maker/api.rs:117-127 | the cost floors of a plain swap at the relay floor: 945 sats Legacy, 762 sats Taproot |
| `FeePolicy.FeeIsAffine` | src/maker/api.rs:2458-2464 | for every lock time the fee before rounding is the base fee plus the amount times the relative fee of that lock time |
| `FeePolicy.OneMoreBlock` | src/maker/api.rs:2458-2464 | one more block of lock time raises it by exactly the amount times the time percentage |
| `FeePolicy.SwapFeeIsLeast` | src/maker/api.rs:2458-2464 | for every lock time, with the fee in range, the service fee is the least integer not below that |
| `FeePolicy.CoversForExactly` | src/maker/api.rs:148-153 | for every lock time, an amount minus its fee covers a cost exactly from the closed form on |
| `FeePolicy.CoversExactly` | src/maker/api.rs:148-153 | an amount minus its fee covers a cost exactly from the closed form on |
| `FeePolicy.MinimumIsLeast` | src/maker/api.rs:117-154 | the advertised minimum is the least multiple of 500 that covers the dearest floor, and every larger amount covers it |
| `FeePolicy.NoMinimumWhenFeeTakesAll` | src/maker/api.rs:135-154 | from a relative fee of 1 on nothing is advertised and no amount covers any cost |
| `CoinSelection.CoverByOne` | src/wallet/funding.rs:167-173 | the smallest single coin that covers, or no single coin does |
| `CoinSelection.CoverByTwo` | src/wallet/funding.rs:174-192 | the two-pointer search finds the cheapest covering pair, or no pair covers |
| `CoinSelection.CoverByMany` | src/wallet/funding.rs:193-215 | the greedy fill covers with at most n distinct coins; allowed the whole pool, it fails only when the whole pool is short |
| `CoinSelection.PickWithin` | src/wallet/funding.rs:200-210 | the greedy choice: the first untaken coin within the deficit, else the last one above it |
| `CoinSelection.SmallestCover` | src/wallet/funding.rs:162-216 | a cover of at most n coins; cheapest and complete for one and two |
| `CoinSelection.LargestFirst` | src/wallet/funding.rs:107-122 | no n coins are worth more than the n largest, so the top-sum skip loses nothing |
| `CoinSelection.TakeCoins` | src/wallet/funding.rs:142-148 | taking the chosen positions leaves exactly the other coins in order |
| `Planner.PickWithinBudget` | src/wallet/funding.rs:106-123 | the picked coins pay the split with at most the budget of inputs, and no fewer of one or two coins would; it fails only when, as far as the budget allows, no one coin and no two pay |
| `Planner.PickOverBudget` | src/wallet/funding.rs:125-140 | the fallback pays the split, and fails only when no choice of coins does |
| `Planner.PlanWithK` | src/wallet/funding.rs:70-157 | a plan of k splits sums to the total, every split above the floor and paid by its own distinct coins within the budget; it fails only when, after some funded splits, no one and no two of all the coins left pay an even share of the rest; a single split fails only when no coins pay |
| `Planner.PlanFundingSplits` | src/wallet/funding.rs:41-68 | a plan is sound as above and within the split limit, every larger number of splits above the floor was stuck in that way, and it is empty only when no choice of coins pays for the amount |
| `Forwarding.CheckOverBudget` | src/wallet/funding.rs:227-258 | accepts exactly when the priced excess over the reimbursement stays within the hop's fee |
| `Forwarding.WithinBudgetCostsNothing` | src/wallet/funding.rs:223-226 | a plan whose splits keep within the budget has no excess |
| `Forwarding.GuardIsShortfall` | src/wallet/funding.rs:227-258 | what the guard compares with the hop's fee is exactly the real fees of the plan less the reimbursed ones |
| `Forwarding.PlanFromPools` | src/wallet/funding.rs:366-414 | a plan comes whole from one pool and passes the guard; a refusal means that each pool cannot pay or has a plan the guard refuses, and a shortfall that neither can pay |
| `Forwarding.PlanFunding` | src/wallet/funding.rs:454-520 | the same over the priced contract floor, with the two further refusals: below the floor, or past 64 bits |
| `Forwarding.NetPolicyFees` | src/wallet/funding.rs:264-293 | succeeds exactly when every split stays above the floor after its own fee |
| `Forwarding.NettingConserves` | src/wallet/funding.rs:264-293 | the netted values plus the policy fees are the planned total |
| `Replanning.OrderBy` | src/wallet/funding.rs:315-317 | a sorted permutation of the indices |
| `Replanning.PermutedTotal` | src/wallet/funding.rs:315-322 | pairing splits by size keeps the total |
| `Replanning.OneMoreInput` | src/wallet/funding.rs:330-331 | one more input raises the rounded fee by at most the rounded fee of its own bytes |
| `Replanning.ToppedUpStillPays` | src/wallet/funding.rs:330-349 | a split topped up with coins worth their own input still pays |
| `Replanning.SpareCoins` | src/wallet/funding.rs:334-340 | the spare coins are exactly the unused ones worth their input, each once, smallest first |
| `Replanning.TopUp` | src/wallet/funding.rs:341-351 | every split is filled exactly up to its declared count with spare coins of its own, no coin used twice; refused exactly when the splits of one pool lack more coins than it has to spare |
| `Replanning.FitDeclaredShape` | src/wallet/funding.rs:300-363 | same number of splits, at least the declared inputs each, the same forwarded total, still paying, within the guard; a refusal means a different count, too few spare coins, too dear for the hop, or a split below the floor |
| `Admission.PlanAdmission` | src/maker/api.rs:1865-1941 | the split-reducing loop terminates; an admitted plan keeps amount = service fee + sweeps + values + policy fees, every split above the floor and paying from its own coins; above its floor an amount is refused only when it passes 64 bits, the pools refuse it at some number of splits, or even one split does not keep the floor |
| `Admission.FloorCoversSweeps` | src/maker/api.rs:1872-1889 | the cost floor covers the sweeps, so the subtraction cannot underflow |
| `Admission.ReplanFunding` | src/maker/api.rs:72-113 | a re-plan has the frozen plan's shape and forwards the same gross; it fails only when the gross cannot be planned again or the new plan does not fit that shape |
| `Admission.CheckOutputs` | src/maker/legacy_handlers.rs:181-271 | the checks on a proof of funding pass exactly on the locktime, both counts, every output above the settlement cost plus 330 satoshi, and the exact amount |
| `Admission.ProofMatchesFrozenPlan` | src/maker/legacy_handlers.rs:403-420 | every accepted Legacy proof forwards exactly the frozen gross, so the mismatch and the excess-fee errors are unreachable |
| `Admission.FrozenGrossIsGross` | src/maker/api.rs:1957-1969 | the overflow-checked sum is the plan's gross while that fits 64 bits |
| `Admission.FrozenPlanExactly` | src/maker/api.rs:1945-1979 | the frozen plan is used exactly for the amount it nets to, the values of its splits plus their reimbursed fees |
| `Admission.MinimumPassesAdmission` | src/maker/api.rs:1877-1889 | at the advertised minimum and above, a plain swap passes the floor check for both protocols |
| `Ledger.LedgerRefines` | src/lightning/mock.rs:466-634 | over every run with new hashes for regular invoices, the log of payments and events tells of each hash exactly what its invoice shows |
| `Ledger.OutcomeIsHistory` | src/lightning/mock.rs:636-661 | a payer's outcome lookup with an unlost record is what its full history says |
| `Ledger.AtMostOneOutcome` | src/lightning/mock.rs:574-634 | no hash has two successes, nor a success and a failure |
| `Ledger.OddArmsUnreachable` | src/lightning/mock.rs:653-659 | no settled invoice lacks its preimage and no open one has a payer |
| `Ledger.PayExactly` | src/lightning/mock.rs:466-541 | in every such run: paying an open invoice by its own text and exactly one amount parks it at a hold invoice, where the owner hears of it, or settles a regular one, where payer and owner do, and the payer's history says so; any other call changes nothing |
| `Ledger.ClaimExactly` | src/lightning/mock.rs:574-610 | claiming a held payment settles it with the preimage, which the payer gets and whose history then says paid, and the owner hears of the held amount; any other call changes nothing |
| `Ledger.FailExactly` | src/lightning/mock.rs:612-634 | failing a hold invoice that is open or held cancels it; the payer of a held one is told, and its history then says failed; any other call changes nothing |
| `Ledger.LoseExactly` | src/lightning/mock.rs:636-661 | a lost record hides the payment from its payer's lookup and from nobody else |
| `Ledger.PolledInOrder` | src/lightning/mock.rs:68-72 | over every run, what a node polled followed by what still waits for it is exactly what was emitted to it, in order |
| `Ledger.RunsMoveForward` | src/lightning/mock.rs:27-37 | over every continuation an invoice keeps its identity and its status only moves forward |
| `Ledger.CreatingKeepsExactlyWhenFresh` | src/lightning/mock.rs:440-464 | a regular invoice leaves all others alone exactly when its hash is new |
| `Ledger.ReusedHashForgets` | src/lightning/mock.rs:447-459 | a settled hold invoice is forgotten when a regular invoice is created on its hash |
| `Ledger.PolledSuccessIsSettled` | src/lightning/mock.rs:683-685 | a success event a node polls is about a settled invoice |
| `Ledger.RunKeepsEmitted` | src/lightning/mock.rs:68-72 | every queued event was emitted to that node |
| `Ledger.RunKeepsSuccesses` | src/lightning/mock.rs:574-610 | every success ever announced carries a preimage of its hash |
| `Ledger.SharedLedger.CreateRegular` | src/lightning/mock.rs:440-464 | creates an open invoice of this node under a new text, with a preimage of its hash, and tells nobody |
| `Ledger.SharedLedger.Pay` | src/lightning/mock.rs:466-541 | pays exactly an open invoice, by its own text, with exactly one amount, as `PayExactly` says |
| `Ledger.SharedLedger.CreateHold` | src/lightning/mock.rs:543-572 | refuses a hash that is in use; otherwise an open hold invoice of this node, without a preimage |
| `Ledger.SharedLedger.ClaimHeld` | src/lightning/mock.rs:574-610 | settles exactly a held payment with its preimage, as `ClaimExactly` says |
| `Ledger.SharedLedger.FailHeld` | src/lightning/mock.rs:612-634 | cancels exactly an open or held hold invoice, as `FailExactly` says |
| `Ledger.SharedLedger.Poll` | src/lightning/mock.rs:683-685 | takes the oldest event |
| `SwapHtlc.FindPreimage` | src/lightning/swap.rs:314-328 | the scan returns the 32 bytes of the first witness of three elements that ends in them and this script, and nothing exactly when there is none |
| `SwapHtlc.HashlockSpendReveals` | src/lightning/swap.rs:265-283 | a hashlock spend is valid at once and extraction returns exactly its preimage |
| `SwapHtlc.TimelockSpendWaits` | src/lightning/swap.rs:288-308 | a refund is valid exactly from the lock time on and reveals nothing |
| `SwapHtlc.ValidHashlockSpendReveals` | src/protocol/contract.rs:206-252 | any valid transaction that spends the HTLC by its hash lock reveals a preimage of the hash to the extraction, whatever its other inputs |
| `SwapHtlc.EarlySpendShowsPreimage` | src/protocol/contract.rs:206-252 | a valid spend before the lock time shows the preimage under the hashlock key |
| `SwapIn.SameHtlc` | src/lightning/swap.rs:453-468 | both roles of a swap-in build the same HTLC, for every request |
| `SwapIn.AcceptedAsAsked` | src/lightning/swap.rs:453-471 | the taker accepts exactly its own lock time and confirmations, and the HTLC then refunds its key and waits for its hash |
| `SwapIn.FoundIsFirst` | src/lightning/swap.rs:474-488 | what is found is the first wanted event; it and everything before it is popped, and everything when there is none |
| `SwapIn.PollUntil` | src/lightning/swap.rs:474-488 | drains events up to the first wanted one |
| `SwapIn.SwapInTaker.MakeRequest` | src/lightning/swap.rs:433-448 | registers a hold invoice over exactly the amount, unless the hash is taken |
| `SwapIn.SwapInTaker.OnAccept` | src/lightning/swap.rs:453-471 | accepts exactly the echoed terms |
| `SwapIn.SwapInTaker.TryClaim` | src/lightning/swap.rs:474-488 | claims exactly when the payment has arrived and is held |
| `SwapIn.SwapInTaker.RefundTx` | src/lightning/swap.rs:493-505 | once the HTLC is known, a refund of the value less the fee that the script accepts exactly from the lock time on and that reveals no preimage |
| `SwapIn.SwapInMaker.AcceptRequest` | src/lightning/swap.rs:539-554 | fixes the HTLC and the request |
| `SwapIn.SwapInMaker.VerifyHtlc` | src/lightning/swap.rs:557-584 | the exact condition on script, value, announcement and confirmations |
| `SwapIn.SwapInMaker.Pay` | src/lightning/swap.rs:589-611 | pays exactly with a lock time above 12 and a payable invoice, over a route bounded by the lock time less 12 |
| `SwapIn.SwapInMaker.TryLearnPreimage` | src/lightning/swap.rs:616-641 | refused before accepting; learns exactly the preimage of the accepted hash from the first success event, and refuses one of another hash |
| `SwapIn.SwapInMaker.ClaimTx` | src/lightning/swap.rs:645-666 | builds a claim of the value less the fee only with a learned preimage; the script accepts it exactly when that opens the accepted hash |
| `SwapIn.LearnedMeansPaid` | src/lightning/swap.rs:616-666 | when the maker can learn the preimage, the taker's invoice is settled for exactly amount times 1000 msat, in every run |
| `SwapIn.ClaimMeansPaid` | src/lightning/swap.rs:616-666 | the preimage the maker learned makes its claim valid, and in every later state the taker's invoice stays settled for exactly amount times 1000 msat |
| `SwapIn.FoundPreimageMatches` | src/lightning/swap.rs:628-634 | every success event found carries a preimage of its hash, so the mismatch error is unreachable over this ledger |
| `SwapIn.MakerPaysTheInvoice` | src/lightning/swap.rs:539-611 | settling the invoice the maker pays costs it exactly the agreed amount and gives it the preimage its claim waits for exactly when the invoice commits to the request's hash and to that amount |
| `SwapIn.OtherInvoiceBuysNothing` | src/lightning/swap.rs:589-641 | a run in which an invoice over another hash settles and the awaited success never comes |
| `SwapIn.SwapInCompletes` | src/lightning/swap.rs:433-666 | request, payment and claim let the maker find exactly the taker's preimage, with which its claim satisfies the HTLC |
| `SwapInTiming.NeverDoubled` | src/lightning/swap.rs:474-666 | when the delays of paying, polling and claiming fit the 12-block margin, no timely run pays the taker both over Lightning and by refund |
| `SwapInTiming.DoubledWhenLate` | src/lightning/swap.rs:66-70 | when they do not fit, some timely run does |
| `SwapInTiming.NothingPaidUnconfirmed` | src/lightning/swap.rs:557-611 | in every run, timely or not: no payment before the agreed confirmations, and no preimage before the payment settled |
| `SwapInTiming.SwapInInTime` | src/lightning/swap.rs:474-666 | within any delays that allow the confirmations, a run pays the taker and confirms the maker's claim |
| `SwapInTiming.RefundAfterFailure` | src/lightning/swap.rs:490-505 | and one fails the payment back and gives the taker its coins at the lock time |
| `SwapOut.SameHtlcOut` | src/lightning/swap_out.rs:176-203 | both roles of a swap-out build the same HTLC, for every request |
| `SwapOut.PriceIs` | src/lightning/swap_out.rs:83-86 | the price over Lightning is amount plus fee, in millisatoshi |
| `SwapOut.AcceptedOnlyAsAsked` | src/lightning/swap_out.rs:176-203 | the taker accepts exactly an answer for its own hash and terms, at a thousand millisatoshi for each satoshi of amount and fee |
| `SwapOut.SwapOutTaker.OnAccept` | src/lightning/swap_out.rs:176-203 | verifies invoice, hash and terms before anything is set |
| `SwapOut.SwapOutTaker.Pay` | src/lightning/swap_out.rs:209-226 | pays exactly with a lock time above 12 and a payable invoice, over a route bounded by the lock time less 12 |
| `SwapOut.SwapOutTaker.VerifyHtlc` | src/lightning/swap_out.rs:231-255 | the exact condition on script, value, announcement and confirmations |
| `SwapOut.SwapOutTaker.ClaimTx` | src/lightning/swap_out.rs:258-276 | once the HTLC is known, a claim of the value less the fee that the script accepts at any age and that shows exactly the taker's preimage |
| `SwapOut.SwapOutMaker.AcceptRequest` | src/lightning/swap_out.rs:310-334 | registers a hold invoice over amount plus fee and fixes the HTLC |
| `SwapOut.SwapOutMaker.TryAwaitPayment` | src/lightning/swap_out.rs:340-357 | refused before accepting; true exactly when the held payment was announced |
| `SwapOut.SwapOutMaker.SettleFromSpend` | src/lightning/swap_out.rs:361-380 | succeeds exactly with a revealed preimage of the agreed hash while the payment is held, and settles that payment only |
| `SwapOut.SettlingCollects` | src/lightning/swap_out.rs:361-380 | a successful settlement finds the maker's own invoice held for amount plus fee and settles it |
| `SwapOut.ClaimLetsMakerSettle` | src/lightning/swap_out.rs:356-380 | whoever spends the HTLC by its hash lock lets the maker settle while the payment is held |
| `SwapOut.SwapOutPaymentArrives` | src/lightning/swap_out.rs:310-357 | the payment the taker was asked for arrives at the maker, held for the full price |
| `SwapOutTiming.NeverPaidForNothing` | src/lightning/swap_out.rs:228-276 | a taker whose claim confirms in the next block, or whose delays fit the lock time, never pays for coins the maker takes back, in any run |
| `SwapOutTiming.PaidForNothingWhenLate` | src/lightning/swap_out.rs:228-276 | when they do not fit, some run that keeps to them has it pay for nothing |
| `SwapOutTiming.NeverGivenAway` | src/lightning/swap_out.rs:30-45 | a maker whose payment is held longer than its delays and the lock time together never gives coins away for a payment that failed back, in any run |
| `SwapOutTiming.GivenAwayWhenLate` | src/lightning/swap_out.rs:30-45 | when the window is not longer, some run that keeps to the delays gives them away |
| `SwapOutTiming.NothingShownUnconfirmed` | src/lightning/swap_out.rs:228-276 | in every run, timely or not: payment, funding, confirmations, preimage and settlement come in this order |
| `SwapOutTiming.SwapOutInTime` | src/lightning/swap_out.rs:209-380 | within any delays that allow the confirmations, a run settles the payment and confirms the taker's claim |
| `Checksum.PolynomialModulus` | src/utill.rs:623-642 | one step of the register is the generator step |
| `Checksum.StepLinear` | src/utill.rs:623-642 | the step is linear over exclusive or |
| `Checksum.StepBounded` | src/utill.rs:623-642 | a five-bit value keeps the register below 2^40 |
| `Checksum.StepInjective` | src/utill.rs:623-642 | on 40-bit registers the step is invertible |
| `Checksum.FoldInjective` | src/utill.rs:623-642 | feeding the same symbols keeps different registers different |
| `Checksum.WindowInjective` | src/utill.rs:623-642 | up to eight symbols fed to one register are determined by the register they leave |
| `Checksum.WindowDifference` | src/utill.rs:623-642 | feeding up to eight symbols instead of zeros changes the register by exactly those symbols, packed |
| `Checksum.ExpandFiveBit` | src/utill.rs:695-712 | every fed value is below 32 |
| `Checksum.ExpandInjective` | src/utill.rs:695-712 | different positions expand to different symbols, group weights included |
| `Checksum.PositionAt` | src/utill.rs:66-67 | each of the 95 characters of the input alphabet stands for its place in it |
| `Checksum.RenderAt` | src/utill.rs:68-68 | each output symbol is written as the character at its place in the checksum alphabet |
| `Checksum.KnownAnswer` | src/utill.rs:685-726 | the checksum of raw(deadbeef) is 89f8spxm, as in BIP 380 |
| `Checksum.ResidueIsOne` | src/utill.rs:713-726 | feeding the eight output symbols instead of eight zeros leaves the residue 1 |
| `Checksum.RenderInjective` | src/utill.rs:718-726 | different output symbols render to different checksums |
| `Checksum.BurstDetected` | src/utill.rs:685-726 | two descriptors of equal length that differ only within two neighbouring groups get different checksums |
| `Checksum.FourNeighboursDetected` | src/utill.rs:685-726 | so do any two that differ within four neighbouring characters, a single character among them |
| `Checksum.ComputeChecksum` | src/utill.rs:685-726 | the streaming loop equals the two-phase form, expand then fold, and rejects exactly descriptors with a foreign character |
| `ConfigFile.ParseToml` | src/utill.rs:529-547 | the reader equals the fold of the lines |
| `ConfigFile.SetConfigKey` | src/utill.rs:594-621 | the editor's loop writes exactly the edited text, and nothing exactly when every line that sets the key already says so |
| `ConfigFile.SameSetting` | src/utill.rs:536-604 | reader and editor see the same key and value in every line, whatever its line end |
| `ConfigFile.SettingExactly` | src/utill.rs:535-542 | without the parser: a text sets a key to a value exactly when they are what surrounds its first equals sign, without the blanks around them |
| `ConfigFile.ReadIsLastLine` | src/utill.rs:529-547 | reading gives every key what the last line that sets it says, without its surrounding quotes, and no other key |
| `ConfigFile.LineEditedExactly` | src/utill.rs:594-612 | a line that sets the key becomes key, equals sign and value with the line's own end; every other line is left alone |
| `ConfigFile.EditedLineByLine` | src/utill.rs:594-621 | the file after an edit, line by line |
| `ConfigFile.ReadAfterEdit` | src/utill.rs:529-621 | for every text, reading after an edit gives the old map updated at that key only |
| `ConfigFile.OtherLinesKept` | src/utill.rs:594-621 | an edit keeps every other line in place; at most it ends an unended last line and adds one |
| `ConfigFile.EditIdempotent` | src/utill.rs:614-618 | a second identical edit changes nothing |
| `Blocklist.LookupIsLastMatch` | src/blocklist.rs:227-255 | the index gives the last matching list entry, and nothing exactly when none matches |
| `Blocklist.BuildIndex` | src/blocklist.rs:227-255 | the loop builds that index |
| `Blocklist.RewriteReindexes` | src/blocklist.rs:310-322 | the index written out in any order is read back as the same index |
| `Blocklist.AddKeepsUnknownFields` | src/blocklist.rs:336-350 | a relabel sets address and label, keeps every unknown field and touches no other script |
| `Blocklist.AddedIsLastEntry` | src/blocklist.rs:336-350 | what adding a whole list leaves of every script: address and label of the last entry for it, and what was there when none names it |
| `Blocklist.AddedKeepsFields` | src/blocklist.rs:336-350 | and of its unknown fields: each from the last entry that brings it, else the old one; none is lost |
| `Blocklist.RemovedIsPart` | src/blocklist.rs:357-371 | a removal takes exactly the named scripts |
| `Blocklist.ValidateAll` | src/blocklist.rs:281-300 | succeeds exactly when every address parses |
| `Blocklist.AddressBlocklist.Load` | src/blocklist.rs:270-279 | indexes the current file, or refuses one that names a need this build lacks |
| `Blocklist.AddressBlocklist.Commit` | src/blocklist.rs:310-322 | writes the index with the other fields as they were; a failing write leaves file and index alone |
| `Blocklist.AddressBlocklist.Add` | src/blocklist.rs:328-352 | all or nothing, a failing lock or write included; the index grows by exactly `added`, and the file decodes to it |
| `Blocklist.AddressBlocklist.Remove` | src/blocklist.rs:357-371 | all or nothing, a failing lock or write included; the index shrinks by exactly the count, and the file decodes to it |
| `BlocklistFile.FileIsLinearizable` | src/blocklist.rs:302-371 | however processes interleave, fail, crash or lose power, the file decodes to the effect of the renamed operations in lock order, other fields kept |
| `BlocklistFile.SyncedSurvives` | src/atomic_file.rs:92-108 | a synced operation is never undone; a power loss keeps a prefix |
| `BlocklistFile.StepsKeepInStep` | src/atomic_file.rs:25-46 | only the lock holder is at work, on the file as it is |
| `BlocklistFile.OperationCompletes` | src/blocklist.rs:302-371 | an add or remove that nothing stops is done: the file has exactly its effect and all other fields, safe from a power loss, and the lock is free |
| `BlocklistFile.FileSystem.WriteAtomically` | src/atomic_file.rs:64-111 | wherever a write stops, the file is the old one whole or the new one whole; a rename is durable only after a successful directory sync |
| `BlocklistFile.WriteIsSteps` | src/atomic_file.rs:64-111 | up to every stop, the write is the run of steps that the linearizability theorem is about |

## Left out

- Signatures, key tweaking, script encoding, sighashes, invoice encoding, address parsing and JSON: foreign code, taken as opaque or injective.
- What the Taproot handler builds and the effects of its send loop (its sections over the stored swaps are in `Connections`), the Lightning message handlers, the taker, the watchtower and recovery after a restart, `release_orphan_reservations` included.
- Fidelity bonds, gRPC, Tor, nostr, TCP framing, logging, thread pools and shutdown: input and output with few state properties.
- Integration-test behaviours and `simulate_*` and `push_event` helpers of the mock node: test-only faults.
- The mock node's channels, balances and on-chain addresses.
- The phase-guarded Lightning stores of the maker: compare-and-set on one field.
- `parse_list` and the typed field parsers of the configuration: what they make of a malformed value, and that a parsed list is written back as it was, is not stated.
- Floating-point rounding: rates and percentages are exact reals.
- `Instant` resolution: two admissions never take the same start time in the model.
- Connections.TermsFixedAtAdmission: the service fee is a function of the terms, because the maker's configuration does not change while it runs; the coins and transactions a handler builds are any.
- Connections.MakerServer.SwapDetailsReceived: the checks on the parameters and the wallet's plan are inputs of the message; `Admission.PlanAdmission` models the plan. What an admission reads before its lock, and the checks of a keepalive, are one step.
- Connections.MakerServer.ProofReceived: the funding mark and the wallet's reservations are not part of this model; `FundingClaims` has them.
- Broadcast.BroadcastSafe: of a list that is lost with a removal nothing is promised but `AcceptedInOrder`; the batch of one admission is fixed, because a rebuild is refused once a broadcast is recorded (`FundingClaims.RecordedBroadcastIsFinal`).
- Broadcast.Maker.HandleContractSigs: the refusals between saving and sending change nothing and are a stop there.
- FundingClaims.BuildsFromReservedCoins: false for runs in which an id is stored anew while a thread still disturbs it; `QuietExactly` has the exact condition.
- FundingClaims.NoCoinBuiltTwice: under the same condition.
- FundingClaims.ExecuteFrozenPlan: the transactions themselves are not built; a build succeeds or fails.
- FundingClaims.RecordedBroadcastIsFinal: only for a recorded transaction that the stored swap names with its inputs, as the code frees inputs only then.
- Planner.PlanFundingSplits: a larger number of splits was stuck in the order in which the code picks; that no other choice of coins would have funded it is not stated, because the greedy fill for three and more coins may miss a cover.
- Admission.PlanAdmission: a refusal is explained, but the explanation does not force one, because another split of the same coins may pass.
- CoinSelection.CoverByMany: does not state that the cover is the cheapest, because the greedy fill does not promise it.
- Forwarding.PlanFunding: manual coin selection, exclusions and exact-change spends through the wallet front end are not modelled; `Planner.PlanWithK` covers the exact-change case itself.
- Checksum.FourNeighboursDetected: changes in characters that are far apart are not treated; the minimum distance of the code over a given length is not proved.
- SwapOutTiming.NeverGivenAway: fees, reorganisations and the node's own rules for failing a payment back are not modelled; the window is a number of blocks.
- SwapInTiming.NeverDoubled: fees, reorganisations and mempool competition before the lock time are not modelled; the claim confirms within its delay by assumption.
- Blocklist.AddressBlocklist.Add: entries that do not parse on the current network are dropped by a rewrite, so the statements are over the usable entries.
