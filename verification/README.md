# Dafny model of the liquidation and arbitrage bot

This project models the parts of the bot where a correctness claim spans several functions and many
interleaved steps, and proves those claims for every input or every run.

**Crash-safe sending.** `Persistence` is the intent store, `NonceAllocator` the shared nonce authority,
`Liveness` the judgement whether a signed transaction may still be on the wire, `Reconcile` the resolvers and
the pass over the work list, `CrashSafety` and `Executor` the claim, record, broadcast and report of one action.
`SendProtocol` puts them together as a state machine in which two engines, reconcile passes, resyncs, the chain,
the clock and crashes interleave at every await; `SendSafety` proves its inductive invariant and the theorems over
all runs whose claims are exclusive. `SendDeployment` says which engine loop may send what, and `SendSharedKey` proves that
the promises hold in all runs of a deployment exactly when no two of its loops share an idempotency key. `EngineLoops` is
the deployment of the bot itself.

**Exposure.** `RiskGate` is the gate, with `GateLedger` its reservation ledger and breaker, `GateCapacity` what each
operation does to capacity, `GateHalts` whether it trades, told from events, and `CodeGuard` its code-hash guard under
overlapping passes. `ExposureSafety` puts the gate beside a chain with a balance for every
height; `Outflows` is the evidence gatherer, `ExposureRuns` lets every snapshot bring its evidence from earlier in the same run, and
`StoreEvidence` takes the work list from the store of the send protocol. `RouterFunding` is the treasury ledger and `Treasury` proves, over runs of
gate, router and chain together, that the same WBTC is never committed twice. `ArbitrageCycle` is the settlement
discipline of one poll cycle and `SpendFor` the declaration of one liquidation.

**Safe custody.** `SafeCustody` takes operator commands one at a time against the store, the bot and the Safe, each read and
write a step of its own.

**Loop cores.** `CandidateWindow` is the rotating candidate window, `ChunkedProbe` the chunked reads of the indexer.

Classes keep the source's mutable fields. Each method is proved equal to a function of the old state, and the lemmas about
runs are stated on those functions. Where the source awaits something outside, its answer is a parameter or a script.

## What is assumed

- A transaction mines only at its account's current nonce (Ethereum Yellow Paper, section 6), the node's `pending` count is never below `latest`, and mined history is final.
- Once the in-flight judgement answers no for a broadcast transaction, it does not mine unless it is broadcast again.
- Every row write carries a stamp no earlier version of that row carries.
- Hashes are collision-free: a content hash is represented by the fields it commits to, and a transaction hash is used for one nonce only.
- A SafeTx executes only at the Safe's current nonce, which only goes up (the `hashStruct` definition of EIP-712 is taken as injective); one operator command runs at a time; scans of past logs are complete.
- A vault never returns to escrow, block timestamps never fall, and the router refuses a batch past its deadline.
- In `ExposureSafety` and `ExposureRuns`, settlements and the chain's answers are truthful: an outflow that left or may leave is reported under its own hash. For the arbitrage engine that is proved (`OutcomesAreTruthful`).

## What turned out not to hold, and when it does

- The set of open sends is keyed by intent id, so two unfinished sends of one intent share an entry and the first to end uncovers the other (`EndKeepsCoverExactly`). A nonce is then offered, and taken, while a transaction at it can still mine. `SharedKeyLosesTheFence` gives the runs for any two loops that share a key; `NeverSignsOver`, `NeverOffersALiveNonce`, `WrittenAhead` and `InFlightHashesCoverPossible` say that this is the only way: each holds in all runs of a deployment if and only if no two loops share a key.
- The gate judges each declared spend alone, so two entries on one account can together overdraw it (`RepeatedKeysOverdraw`). `AdmissionKeepsSolvencyExactly` is the exact condition; `SpendFor` meets it.
- Published treasury capacity is clamped at zero, so "published less reserved is at most capacity less commitments" fails when more is held than the read shows (`DrainedTreasuryBreaksTheBareInequality` is such a run, `BareInequalityHoldsExactly` the condition). For every positive amount the gate admits the claim holds (`NeverCommittedTwice`).
- Reconcile and the nonce fence can disagree: an intent the fence still reserves for is ended if and only if it has a receipt or a later nonce has mined (`EndedWhileFencedExactly`). `FencedIntentsEnd` has an instance of each kind, within the grace window. Without either, an ended intent is one the fence has let go of (`EndedIntentIsNotFenced`).
- Two engines in one process share a key if the vault swap contract and the adapter are one address: under inventory funding both then approve it for WBTC. `LoopsApartExactly` says that this is the only way.
- The documentation of `StateStore.release` says the envelope is cleared; the code keeps it, and so does the model.

## Model

| member | source | states |
|---|---|---|
| Persistence.KeyIdentifiesAction | packages/persistence/src/utils.ts:9-11 | two inputs share a key if and only if they are the same action up to the case of addresses and subjects, as long as no field contains a colon |
| Persistence.ColonsCollide | packages/persistence/src/utils.ts:4-11 | with a colon in a field, two different actions share one key |
| Persistence.WritesAreStamped | packages/persistence/src/memory.ts:62-90 | no operation removes a row, and any row an operation touches carries the stamp of that write |
| Persistence.EnvelopesAreKept | packages/persistence/src/memory.ts:125-189 | an envelope on a live row survives every operation except a new claim, and such a row is never superseded or expired by the operations that supersede and expire |
| Persistence.StatusMoves | packages/persistence/src/memory.ts:62-189 | outside free transitions, each status is entered by one operation only, from the statuses and under the guard that operation has; nothing else confirms |
| Persistence.StatusMovesExactly | packages/persistence/src/memory.ts:125-189 | and the guards suffice: each claim, broadcast report, release, failure, retirement and expiry moves a row if and only if the row is where that operation starts from |
| Persistence.OnlyStatusMoves | packages/persistence/src/memory.ts:125-189 | no such operation changes anything else about a row than envelope, hash or error, each by its own operation, and the stamp |
| Persistence.RevivedRowsStartClean | packages/persistence/src/memory.ts:62-90 | an intent is recorded or proposed if and only if there is no row or it has ended; the new attempt has no nonce, hash, error, horizon or envelope of the old one and keeps only its creation stamp |
| Persistence.OtherRowsAreKept | packages/persistence/src/memory.ts:62-208 | an operation touches and makes no row but its own |
| Persistence.TransitionsMerge | packages/persistence/src/memory.ts:191-208 | a transition lands if and only if the row is as its writer saw it; what it brings replaces, what it leaves out stays, and the later of two horizons stands |
| Persistence.PayloadHashCommits | packages/execution/src/txSender.ts:104-130 | payloads share a hash if and only if they ask for the same call on the same chain under the same gas limit |
| Persistence.HorizonOnlyMovesLater | packages/persistence/src/memory.ts:46-49 | over any history of one attempt, a recorded relay horizon never moves earlier and never disappears |
| Persistence.SweepRows | packages/persistence/src/memory.ts:176-189 | the sweep retires exactly the unclaimed, envelope-free proposals past the cutoff and counts them |
| Persistence.MemoryStateStore.Record | packages/persistence/src/memory.ts:62-90 | a live intent is refused unchanged; otherwise the row is re-created empty of nonce, hash, error, horizon and envelope |
| Persistence.MemoryStateStore.Propose | packages/persistence/src/memory.ts:103-106 | a live intent refuses a proposal unchanged; otherwise the row is re-created with exactly this payload and hash; a payload that names another chain writes nothing |
| Persistence.MemoryStateStore.ClaimProposal | packages/persistence/src/memory.ts:125-140 | wins only on a proposed row with the expected payload hash, and says which condition failed otherwise |
| Persistence.MemoryStateStore.MarkBroadcast | packages/persistence/src/memory.ts:142-150 | records a hash only on a claimed row that has none and whose payload is the expected one |
| Persistence.MemoryStateStore.ExpireProposals | packages/persistence/src/memory.ts:176-189 | the store after a sweep, and the number of rows it retired |
| Persistence.MemoryStateStore.Transition | packages/persistence/src/memory.ts:191-208 | writes only the version the caller expects; absent fields stay, and the horizon takes the later of the two |
| Liveness.PrivateReleaseExactly | packages/engine/src/shared/liveness.ts:154-178 | with the relay-aware reader a transaction is judged dead if and only if it is past the grace window, the head is beyond horizon plus margin, and the node does not know it |
| Liveness.RelayNeverDecides | packages/engine/src/shared/liveness.ts:293-332 | changing any relay answer never changes that judgement |
| Liveness.PublicReleaseExactly | packages/engine/src/shared/liveness.ts:154-178 | without a relay a transaction is judged dead if and only if the grace window is over and the node does not know it |
| Liveness.ReleaseWaitsForEveryHorizon | packages/engine/src/shared/liveness.ts:154-178 | a release means the head has passed every horizon ever recorded for the attempt |
| Liveness.WindowIsHonoured | packages/engine/src/shared/liveness.ts:214-242 | a transaction submitted at a head is not released until that head plus the configured window plus the margin has passed |
| Liveness.DeclaredDeadlinesExtend | packages/engine/src/shared/liveness.ts:265-279 | a deadline the relay declares can only lengthen the recorded horizon, within the cap |
| Liveness.ResolvedIsLeast | packages/engine/src/shared/liveness.ts:222-242 | the recorded horizon is the least that fences for the configured window and for the declared deadline up to the ceiling |
| Liveness.RecoversExactly | packages/engine/src/shared/liveness.ts:244-262 | a missing horizon is recovered if and only if the relay knows the hash, has not seen it in public and names a deadline |
| Reconcile.SignedEndsExactly | packages/engine/src/shared/reconcile.ts:198-231 | a signed non-Safe intent is ended if and only if there is a receipt, a later nonce has mined, or it can no longer be in flight |
| Reconcile.EndedWhileFencedExactly | packages/engine/src/shared/reconcile.ts:198-231 | an intent whose nonce the fence still reserves, on the same clock, head and answers, is ended if and only if it has a receipt or a later nonce has mined |
| Reconcile.FencedIntentsEnd | packages/engine/src/shared/reconcile.ts:198-231 | both happen: within the grace window one intent confirmed by its receipt and one failed because another transaction mined at its nonce |
| Reconcile.SafeEndsExactly | packages/engine/src/shared/reconcile.ts:138-191 | a Safe intent ends if and only if its transaction mined and answers by itself, or it reverted and the scan did not fail, or it has no receipt past the grace window and the scan found the SafeTx; with neither a receipt nor a found execution it never ends |
| Reconcile.SafeConfirmsOnEventsOnly | packages/engine/src/shared/reconcile.ts:138-191 | and it is confirmed if and only if an execution event of its own SafeTx says so |
| Reconcile.SafeEndsUnderTheCarrier | packages/engine/src/shared/reconcile.ts:122-136 | the hash it ends under is that of the transaction that carried the verdict |
| Reconcile.WithoutNonceOnlyReceiptsEnd | packages/engine/src/shared/reconcile.ts:198-209 | an intent broadcast from another wallet ends if and only if there is a receipt |
| Reconcile.UnbroadcastEndsExactly | packages/engine/src/shared/reconcile.ts:241-277 | an intent without a hash fails if and only if its nonce mined or is in no pool and nobody can still be signing it; with its nonce in the pool it is kept as submitted |
| Reconcile.RepairsExactly | packages/engine/src/shared/reconcile.ts:226-230 | a row that stays is written if and only if it has no horizon under private submission and one was recovered, and then nothing but the horizon |
| Reconcile.WrittenAsCounted | packages/engine/src/shared/reconcile.ts:406-443 | the summary counts as confirmed or failed exactly the intents that are written so |
| Reconcile.AsReadPinsTheVersion | packages/engine/src/shared/reconcile.ts:399-443 | after arbitrary store activity, a guarded write applies only if the row is still the very version that was read |
| Reconcile.ReconcilePending | packages/engine/src/shared/reconcile.ts:322-450 | every write of a pass replaces exactly the row that was judged or nothing, whatever else the store does meanwhile; the summary counts each intent once |
| Reconcile.ReconcileOne | packages/engine/src/shared/reconcile.ts:406-443 | one intent: skipped while this process sends it, else judged and written under the version guard |
| NonceAllocator.HandedExactly | packages/execution/src/nonce.ts:95-127 | between two resyncs the nonces are the optional hole and then the lease counting up by one |
| NonceAllocator.HandedAreDistinct | packages/execution/src/nonce.ts:105-114 | no nonce is handed out twice between two resyncs |
| NonceAllocator.HandedAvoidsLive | packages/engine/src/shared/crashSafety.ts:248-275 | after a fenced resync no live nonce is handed out; a dead hole at the chain's next nonce goes first, and nothing else below the floor is handed out |
| NonceAllocator.NonceAllocator.WithNonce | packages/execution/src/nonce.ts:106-114 | a section that throws spends its nonce like any other and leaves the allocator ready; the history of nonces stays the predicted one |
| NonceAllocator.NonceAllocator.Resync | packages/execution/src/nonce.ts:115-127 | forgets the old hole and keeps a reported one only below the new lease |
| CrashSafety.CrashSafety.ReadLiveNonces | packages/engine/src/shared/crashSafety.ts:190-214 | exactly the nonces of signed in-flight intents that could still be on the wire |
| CrashSafety.ReservedExactly | packages/engine/src/shared/crashSafety.ts:190-214 | a nonce is reserved if and only if some pending or submitted row was signed with it and its transaction may be on the wire |
| CrashSafety.CrashSafety.FloorOf | packages/engine/src/shared/crashSafety.ts:258-259 | the least nonce above every live one |
| CrashSafety.CrashSafety.ResyncNonces | packages/engine/src/shared/crashSafety.ts:248-275 | leaves the allocator at the fenced seed that `HandedAvoidsLive` is about |
| CrashSafety.CrashSafety.MarkPending | packages/engine/src/shared/crashSafety.ts:292-305 | nonce and hash land only on the attempt that was claimed |
| SendSafety.JudgementIsSound | packages/engine/src/shared/reconcile.ts:406-443 | a pass that decides to end a row never decides it about a transaction that can still mine |
| SendSafety.UnansweredKeeps | packages/engine/src/shared/crashSafety.ts:292-305 | a record that lands while its answer is lost ends the send and leaves every promise standing |
| SendSafety.PassApplyKeeps | packages/engine/src/shared/reconcile.ts:399-443 | applying a decision made on an older read keeps the invariant |
| SendSafety.ResyncSetKeeps | packages/engine/src/shared/crashSafety.ts:248-275 | re-seeding from the surveyed live set keeps every possible transaction below the lease or off the hole |
| SendSafety.ExclusiveRunsAreSafe | packages/engine/src/shared/crashSafety.ts:190-314 | in every run whose claims are exclusive, whatever interleaving of engines, passes, resyncs, mining, clock and crashes, all four promises below hold |
| SendDeployment.ConformingRunIsExclusive | packages/engine/src/shared/executor.ts:410-424 | when no two engine loops share a key and each awaits one send before claiming the next, claims are exclusive throughout |
| SendSharedKey.ExclusiveClaimsStayApart | packages/engine/src/shared/crashSafety.ts:140-165 | in every run with exclusive claims, open sends are on distinct intents and all of them are in the set of open sends |
| SendDeployment.ActionsApartExactly | packages/persistence/src/utils.ts:9-11 | with no colon in any field, no two loops share a key if and only if no two loops ever take the same action |
| EngineLoops.LoopsApartExactly | packages/engine/src/liquidation/funding/inventory.ts:62-84 | under inventory funding the arbitrage loop, which approves the vault swap contract, and the liquidation loop, which approves the adapter, share no key if and only if those are two contracts |
| EngineLoops.LoopsAreSafeExactly | services/arbitrageur/src/index.ts:127-156 | both loops in one process keep everything the send protocol promises, in all runs, if and only if those are two contracts |
| SendSharedKey.NeverSignsOver | packages/engine/src/shared/crashSafety.ts:190-275 | over every run of a deployment of engine loops no nonce is signed over while a transaction at it can still mine, and at most one such transaction holds a nonce, if and only if no two loops share a key |
| SendSharedKey.NeverOffersALiveNonce | packages/execution/src/nonce.ts:85-129 | likewise, if and only if: the allocator never offers the nonce of a transaction that can still mine |
| SendSharedKey.WrittenAhead | packages/engine/src/shared/executor.ts:410-472 | likewise, if and only if: before the bytes leave, the claimed row carries their nonce and hash, what can still mine is on the work list under them, and one key has at most one such transaction, across crashes and revivals |
| SendSharedKey.InFlightHashesCoverPossible | packages/engine/src/shared/crashSafety.ts:240-246 | likewise, if and only if: the set of in-flight hashes contains every transaction that can still mine |
| SendSharedKey.SharedKeyLosesTheFence | packages/engine/src/shared/crashSafety.ts:217-223 | for any two loops with actions under one key there are runs that end with a live transaction off the work list, its nonce on offer, and its nonce taken again |
| SendSharedKey.EndKeepsCoverExactly | packages/engine/src/shared/crashSafety.ts:217-223 | ending a send keeps the other open sends covered if and only if none of them shares its intent |
| Executor.TxSender.Send | packages/execution/src/txSender.ts:280-314 | a record is made if and only if signing works, the store answers and the row is the claimed attempt; the bytes are handed over, once, if and only if it was made and no halt came after; the error class follows the broadcaster's answer |
| Executor.AutoExecutor.Report | packages/engine/src/shared/executor.ts:441-468 | unless the store fails, the row is then submitted, with the hash after a broadcast, the error after a throw, and, if a record had been made, a horizon no earlier than the resolved one; without a record only the claimed attempt is written |
| Executor.ReportedWindowIsHonoured | packages/engine/src/shared/executor.ts:441-468 | a row left so is fenced until the head is past the head at submission plus the configured window and margin, whatever else is written during the attempt |
| Executor.SparedRowStaysInFlight | packages/engine/src/shared/executor.ts:444-451 | claims, proposals, sweeps and writes that keep to the transaction, in any order and number, leave a recorded row in flight under its nonce and hash |
| Executor.AttemptIsNotRestored | packages/engine/src/shared/executor.ts:459-466 | once the row is no longer the claimed attempt, no freshly stamped write makes it that attempt again, so the bound write stays refused |
| Executor.AutoExecutor.Commit | packages/engine/src/shared/executor.ts:410-472 | with others using store and allocator before the section and the store until the report: record and handover happen exactly as `Send` has it, at the nonce then on offer; a broadcast is reported if and only if the bytes were accepted, an attempt if and only if they were handed over and not certainly refused; the row says what was reported; a lost attempt is left alone; the open send is always closed |
| Executor.Propose | packages/engine/src/shared/executor.ts:649-675 | a changed proposal replaces the live one exactly when nobody claimed it and it carries no envelope; otherwise the store is unchanged |
| RiskGate.RiskGate.Held | packages/risk/src/gate.ts:102-108 | the loop over holds computes the sum of what every hold owes on a key |
| RiskGate.RiskGate.JudgeSpend | packages/risk/src/gate.ts:190-199 | the first spend that cannot be afforded blocks, unknown balances included |
| RiskGate.RiskGate.Open | packages/risk/src/gate.ts:315-330 | an allowed action reserves its slot and every spend, a blocked one changes nothing |
| RiskGate.RiskGate.SettleSlot | packages/risk/src/gate.ts:333-386 | only the first outcome of a slot has an effect |
| RiskGate.RiskGate.BookSpend | packages/risk/src/gate.ts:334-384 | where a settled spend goes: nowhere, a hold by hash, or the count until the next refresh |
| RiskGate.RiskGate.Snapshot | packages/risk/src/gate.ts:301-311 | holds are retired only on the refreshed accounts, then the balances are published |
| GateLedger.LedgerBalances | packages/risk/src/gate.ts:315-391 | over every trace, reservations equal the declared spend of the unsettled slots key by key, `inFlight` is their number and never passes the cap |
| GateLedger.SettlingNeverLowersCapacity | packages/risk/src/gate.ts:333-386 | settling never lowers capacity on any key; an outcome that moved nothing returns the whole spend |
| GateCapacity.OpeningTakes | packages/risk/src/gate.ts:315-330 | an admitted action lowers capacity on each account by exactly what it declared there |
| GateCapacity.SettlingReturns | packages/risk/src/gate.ts:333-386 | settling returns all of it, less the gate's own part if the outcome counts as spent and its hash is not held already |
| GateCapacity.SettlingHolds | packages/risk/src/gate.ts:350-384 | that part is held under the hash, with the height it mined at once known, or without a hash counted until the next read |
| GateCapacity.SpendIsConserved | packages/risk/src/gate.ts:350-366 | what was declared is counted by the gate or by its caller, all of it and once |
| GateCapacity.PublicationTells | packages/risk/src/gate.ts:113-130 | a publication older than the accepted one changes nothing; any other sets its account to the amount less holds and reservations, and no other account |
| GateCapacity.RetiringReleases | packages/risk/src/gate.ts:301-308 | a snapshot lets go of exactly the retired outflows, on exactly the accounts it refreshes |
| GateCapacity.SnapshotTells | packages/risk/src/gate.ts:301-311 | an account it refreshes then has its balance less reservations and every hold but the retired ones |
| GateCapacity.KeysNameAccounts | packages/risk/src/gate.ts:100-100 | two accounts share an entry if and only if owner and token agree up to letter case |
| GateLedger.AdmissionKeepsSolvencyExactly | packages/risk/src/gate.ts:315-330 | admitting an action keeps every capacity non-negative if and only if its spends fit summed per key |
| GateLedger.DistinctSpendsFit | packages/risk/src/gate.ts:190-199 | with pairwise distinct keys, passing the per-entry guard means the sums fit |
| GateLedger.SpendFitsExactly | packages/risk/src/gate.ts:190-199 | the spend guard passes if and only if every entry names a known balance and fits in it by itself |
| GateLedger.AdmittedExactly | packages/risk/src/gate.ts:177-241 | an action is admitted if and only if the gate runs, the cap has room, every entry fits, the profit floor holds where both sides are known, and the data is of judgeable, recent age |
| GateLedger.RepeatedKeysOverdraw | packages/risk/src/gate.ts:190-199 | two entries on one key each pass the guard and together overdraw it |
| GateLedger.SolventBetweenSnapshots | packages/risk/src/gate.ts:315-391 | from one balance read to the next, capacity that starts non-negative stays so |
| GateLedger.CounterIsFailuresSinceCleared | packages/risk/src/gate.ts:244-262 | over every trace, the counter is the size of the set of events since the last settled success or accepted resume at which a slot was settled for the first time as a genuine failure |
| GateLedger.SomePointCleared | packages/risk/src/gate.ts:244-262 | every trace has such a last point, so the counter is such a number on every trace |
| GateLedger.OpenUntilFirstReport | packages/risk/src/gate.ts:333-340 | a slot is open exactly until the first outcome reported for it after it was opened, which is the one that counts |
| GateLedger.ThresholdHalts | packages/risk/src/gate.ts:244-262 | over every trace the gate is halted whenever the counter is at the threshold |
| GateHalts.RunsExactly | packages/risk/src/gate.ts:151-169 | over every trace the gate runs if and only if it was set running, by its start or an accepted resume, and since then nobody halted it, no failure was one too many and no pass found cause for a code-hash halt |
| GateHalts.FlagsTellTheEvents | packages/risk/src/gate.ts:393-446 | the code-hash flag, the verified flag and the halt count are what the passes of the trace make them: a pass that finds other code halts, one that cannot read does so only before the first clean pass, and a clean pass retires only halts counted when it began |
| GateHalts.HaltedAdmitsNothing | packages/risk/src/gate.ts:177-181 | halted by anyone, the gate admits nothing until a resume is accepted |
| GateLedger.BackstopIsSilent | packages/risk/src/utils.ts:8-10 | the backstop releases every open slot it is given, leaves settled ones alone and moves neither breaker nor state |
| CodeGuard.HaltClearsExactly | packages/risk/src/gate.ts:393-446 | a standing halt clears if and only if a pass ends that read every pinned address clean and began after the latest such halt |
| CodeGuard.RunningMeansVerified | packages/risk/src/gate.ts:418-446 | with hashes configured, once any pass has ended a running gate means some pass verified every address |
| CodeGuard.NoPinsNoGuard | packages/risk/src/gate.ts:393-395 | with no hashes configured, in every run nothing is verified and nothing halts for bytecode |
| CodeGuard.VerifiedMeansCleanPass | packages/risk/src/gate.ts:436-446 | the verified flag is set if and only if the run contains a clean pass |
| CodeGuard.OlderCleanPassDoesNotClear | packages/risk/src/gate.ts:436-443 | a clean pass that began before a halt and ends after it leaves the halt standing |
| CodeGuard.RunKeepsSound | packages/risk/src/gate.ts:151-169 | the halt counter a pass captured tells exactly whether a halt came after it began |
| ExposureSafety.NeverOverReports | packages/risk/src/gate.ts:109-130 | over every run in which one account is told only its own balance at a height, by snapshot or singly, while all others are told anything: its capacity is at most the balance at the accepted height less every broadcast outflow that balance does not show and that took or can still take it |
| ExposureSafety.AvailableKeeps | packages/risk/src/gate.ts:113-130 | a single publication, for this account or any other, leaves every unshown outflow held |
| ExposureSafety.SnapshotKeeps | packages/risk/src/gate.ts:301-311 | applying a justified snapshot keeps every unshown outflow held, an older snapshot after a newer one included |
| ExposureSafety.SettleKeeps | packages/risk/src/gate.ts:333-386 | a truthful settlement moves an outflow from its reservation into a hold without a gap |
| ExposureSafety.CapacityCovers | packages/risk/src/gate.ts:109-110 | in any state of the invariant, reservations and holds cover everything owed |
| Outflows.SettledOutflows | packages/engine/src/shared/outflows.ts:32-73 | lists exactly the outflows whose evidence retires them |
| Outflows.RetiredListIsJustified | packages/engine/src/shared/outflows.ts:32-73 | with the holds, the work list and each receipt read at different times in that order, every retired outflow is shown by the read or can never happen when the list is applied |
| Outflows.RetiredExactly | packages/engine/src/shared/outflows.ts:32-73 | an outflow is retired if and only if, when its receipt was looked up, it had mined within the read, or was gone and not on the work list |
| Outflows.RetiredWithoutStoreExactly | packages/engine/src/shared/outflows.ts:43-61 | without a store it is retired if and only if it had mined within the read, or not mined and unknown to the node; a failed lookup retires nothing the hold does not date |
| Outflows.WorkListMustBeReadFirst | packages/engine/src/shared/outflows.ts:43-61 | reading receipts before the work list would retire an outflow the read does not show |
| ExposureRuns.EvidenceJustifies | packages/engine/src/shared/outflows.ts:32-73 | what a snapshot retires, listed from reads at earlier points of the same run, is shown by its own read or can never happen |
| ExposureRuns.NeverOverReportsOnEvidence | packages/risk/src/gate.ts:301-311 | over every run whose snapshots retire exactly what the gatherer lists from earlier reads of that run, with true work lists, the capacity bound of `NeverOverReports` holds at every point |
| StoreEvidence.StoreKeepsPendingInFlight | packages/engine/src/shared/crashSafety.ts:240-246 | in whatever state a deployment with keys apart reaches, every pending transaction is among the in-flight hashes |
| StoreEvidence.GateNeverOverReports | packages/engine/src/shared/outflows.ts:43-61 | gate, gatherer and send protocol together: with every work list read from a store that a deployment with keys apart can reach, the bound holds at every point of every run, nothing being assumed of what snapshots retire |
| RouterFunding.HeldBoundsEverySelection | packages/engine/src/arbitrage/funding/router.ts:294-311 | what any set of settled batches can take, each vault acquired at most once, is at most what is held |
| RouterFunding.SomeSelectionAttainsHeld | packages/engine/src/arbitrage/funding/router.ts:294-311 | some such set takes exactly what is held |
| RouterFunding.PublicationIsMostSpared | packages/engine/src/arbitrage/funding/router.ts:288-316 | the gate is told the largest amount that, together with any selection of settled batches, fits in balance and allowance, or nothing where there is none; no other account is touched |
| RouterFunding.ScanCoversEveryRecord | packages/engine/src/arbitrage/funding/router.ts:346-362 | the scan starts at or below every live record less the margin and at no block past the head, and no earlier than the earliest record and the head ask for |
| RouterFunding.SignedForItsLifetime | packages/engine/src/arbitrage/funding/router.ts:476-497 | a signed batch can execute for exactly the configured lifetime of chain time |
| RouterFunding.RecordedAsSigned | packages/engine/src/arbitrage/funding/router.ts:514-530 | it is on record with its vault, amount, deadline and block, and disturbs no other record |
| RouterFunding.ResigningDoesNotStack | packages/engine/src/arbitrage/funding/router.ts:294-311 | signing a vault again under no larger amount holds nothing more |
| RouterFunding.DeadlineFor | packages/engine/src/arbitrage/funding/router.ts:476-497 | signing is refused exactly when the block leads the host clock by more than the limit, which bounds every signed lifetime |
| RouterFunding.WorstPerVault | packages/engine/src/arbitrage/funding/router.ts:302-310 | the loop finds the largest unbacked amount of each vault |
| RouterFunding.Funding.RetireAuthorizations | packages/engine/src/arbitrage/funding/router.ts:331-372 | lapsed batches go first, then every batch of a vault the scan from the earliest live record reports acquired |
| RouterFunding.Funding.RefreshInventory | packages/engine/src/arbitrage/funding/router.ts:262-281 | one height for balance, allowance and retirement; then, unless the gate has accepted a later height, it is told the most that read can spare |
| RouterFunding.Funding.RecordSigned | packages/engine/src/arbitrage/funding/router.ts:514-530 | a batch is on record, backed, if and only if it was signed |
| RouterFunding.Funding.SettleAuthorization | packages/engine/src/arbitrage/funding/router.ts:536-552 | the batch stops being backed, a consumed one keeps its height, and at once the gate is told the most the last read can spare |
| Treasury.NeverCommittedTwice | packages/engine/src/arbitrage/funding/router.ts:288-316 | over every run of gate, router and chain, a positive amount the gate would admit plus the largest live batch of every vault, backed or not, fits in the lesser of balance and allowance last read |
| Treasury.CommittedIsCovered | packages/engine/src/arbitrage/funding/router.ts:294-311 | every live batch is held by the router or reserved by the gate |
| Treasury.PublishedLessReservedCoversCommitted | packages/engine/src/arbitrage/funding/router.ts:288-316 | published less reserved is at most capacity less commitments while the read covers what is held |
| Treasury.CommittedIsEverything | packages/engine/src/arbitrage/funding/router.ts:294-316 | when every record is live and each open slot stands behind a vault of its own, commitments are exactly held plus reserved |
| Treasury.BareInequalityHoldsExactly | packages/engine/src/arbitrage/funding/router.ts:311-316 | after any run that ends in a refresh with everything on record live, that inequality holds if and only if what is held does not exceed the read |
| Treasury.DrainedTreasuryBreaksTheBareInequality | packages/engine/src/arbitrage/funding/router.ts:311-316 | a run from the start that ends so, every read being the one answer at its height: ten committed, four read in the next block, and a published zero above the bare bound |
| Treasury.LiveIsKept | packages/engine/src/arbitrage/funding/router.ts:331-372 | the retirement rules drop no batch that can still take money the read contains |
| Treasury.RefreshDropsTheRest | packages/engine/src/arbitrage/funding/router.ts:331-372 | after a refresh a batch is on record if and only if it was, it is not known to have executed within the read, its deadline and margin are not past, and no log reports its vault acquired |
| Treasury.ConfirmedIsReleased | packages/engine/src/arbitrage/funding/router.ts:536-552 | a confirmed acquisition is off the record after any refresh at or above the block it mined in |
| Treasury.HandsOverItsOwn | packages/engine/src/arbitrage/funding/router.ts:536-552 | a settled slot hands over its own batch and no other, and changes nothing of what may still be taken |
| ArbitrageCycle.NoReceiptMeansUnresolved | packages/engine/src/arbitrage/engine.ts:714-764 | a transaction that left, or may have, and has no receipt of its own is settled unresolved under its own hash |
| ArbitrageCycle.AbandonedMeansNothingLeft | packages/engine/src/arbitrage/engine.ts:317-330 | a slot is settled abandoned only if nothing of ours left, or the router refused an expired batch |
| ArbitrageCycle.OutcomesAreTruthful | packages/engine/src/arbitrage/engine.ts:714-838 | with true receipts, whatever outcome settles a slot reports an outflow that left or may leave under its own hash, as the exposure theorem requires |
| ArbitrageCycle.CountsAsSpentExactly | packages/engine/src/arbitrage/engine.ts:317-410 | an outcome counts as spent if and only if a transaction is unresolved, the acquisition succeeded, the verdict read says our batch paid or may have, or classifying threw |
| ArbitrageCycle.BreakerExemptExactly | packages/engine/src/arbitrage/engine.ts:714-838 | it is kept from the breaker if and only if nothing was sent, the fate is unknown, the race was lost or the authorization expired |
| ArbitrageCycle.CarriesItsEvidence | packages/engine/src/arbitrage/engine.ts:714-838 | an unresolved outcome names its transaction; a success or lost race names it with the block it mined in; no other names a block |
| ArbitrageCycle.FundAndCommit | packages/engine/src/arbitrage/engine.ts:564-660 | each path between the gate and the broadcast settles once, throws, or hands the slot on |
| ArbitrageCycle.PrepareAndSend | packages/engine/src/arbitrage/engine.ts:467-708 | a slot is opened, for the declared spend, if and only if the vault is worth it and the gate allows it then; it is settled by the outcome its script calls for unless handed to the receipt phase |
| ArbitrageCycle.FinishAcquisition | packages/engine/src/arbitrage/engine.ts:714-838 | a receipt settles its slot by one outcome, a throw while classifying included |
| ArbitrageCycle.SendAll | packages/engine/src/arbitrage/engine.ts:204-234 | vaults are tried in order, each once, and get a slot if and only if worth it and then allowed by the gate; only a send error or a throwing throttle ends the phase early; every slot is settled or listed as sent |
| ArbitrageCycle.SettleReceipts | packages/engine/src/arbitrage/engine.ts:236-268 | every sent slot ends with its own receipt's outcome |
| ArbitrageCycle.SettleBroadcasts | packages/engine/src/arbitrage/engine.ts:184-199 | the backstop settles what no receipt settled and changes nothing else |
| ArbitrageCycle.Poll | packages/engine/src/arbitrage/engine.ts:184-267 | however the cycle ends, each slot it opened is settled by exactly one outcome and none of them counts as in flight, with another engine using the gate throughout |
| SpendFor.SpendFor | packages/engine/src/liquidation/funding/inventory.ts:258-308 | one non-zero entry per token whose amounts sum to what the call can take; an unread topology or an unlisted reserve is an error |
| SpendFor.DeclarationIsAffordable | packages/engine/src/liquidation/funding/inventory.ts:258-308 | such a declaration is admitted only if the account can pay for everything the call can take, and keeps every balance solvent |
| SafeCustody.AtMostOneExecutes | services/operator-cli/src/operations.ts:146-219 | of two different SafeTxs issued for a row while it lives, one has not executed and never can |
| SafeCustody.NewSafeTxOnlyAfterTheOld | services/operator-cli/src/operations.ts:187-201 | a different SafeTx is issued only when every earlier one's nonce has passed without executing it |
| SafeCustody.NeverExecutesIsFinal | services/operator-cli/src/operations.ts:140-177 | a SafeTx whose nonce passed without it never executes on any continuation |
| SafeCustody.OneIntactEnvelope | services/operator-cli/src/operations.ts:203-219 | at most one live row carries an envelope, and it is the zero-gas SafeTx of that row's own payload |
| SafeCustody.EnvelopeRowIsKept | packages/persistence/src/memory.ts:125-189 | a live row with an envelope is never superseded or expired and keeps its payload; its envelope gives way only when dead |
| SafeCustody.FailEndsOnlyTheDead | services/operator-cli/src/operations.ts:473-495 | giving up ends a row with an envelope only once that SafeTx can never execute |
| SafeCustody.ScreenInFlightKeeps | services/operator-cli/src/operations.ts:210-219 | the second of the two reads of the screen suffices: no row with an envelope can have slipped between them |
| SafeCustody.ClassificationIsSound | services/operator-cli/src/operations.ts:146-177 | with the nonce read before the scan, each verdict means what it says about the chain |
| SafeCustody.OnlyLiveOrDeadProceeds | services/operator-cli/src/operations.ts:146-177 | a command goes on past a retained envelope if and only if it is intact and either live, for a claim, or dead |
| SafeCustody.LiveEnvelopeIsReused | services/operator-cli/src/operations.ts:187-201 | a claim reuses a live envelope as it is and builds a new one only past a dead one |
| SafeCustody.BuiltIsExecutable | packages/execution/src/safe.ts:153-173 | a new envelope takes the Safe's current nonce and could be executed there and then |
| SafeCustody.BeginsExactly | services/operator-cli/src/operations.ts:40-65 | a command starts if and only if the row has the payload that was proposed, for this chain, and the status the command is for |
| SafeCustody.ReleasesOnlyUnexecuted | services/operator-cli/src/operations.ts:440-465 | a row with an envelope is released if and only if the scan did not find its SafeTx executed |
| SafeCustody.PreparesUndisturbed | services/operator-cli/src/operations.ts:291-305 | an undisturbed claim gets past its screen to a fresh envelope whenever no other row carries one |
| SafeCustody.ClaimGoesThrough | services/operator-cli/src/operations.ts:291-341 | it then claims the row under that envelope, and a broadcasting command may report its transaction, which submits the row |
| SafeCustody.SafeHashCommits | packages/execution/src/safe.ts:144-173 | SafeTx hashes agree if and only if chain, Safe, target, value, data and all parameters do |
| CandidateWindow.SelectPositions | packages/engine/src/liquidation/domain.ts:53-86 | duplicate-free output drawn from the feed; selected, truncated, malformed and duplicate entries add up to the feed |
| CandidateWindow.UniqueKeepsEachProxyOnce | packages/engine/src/liquidation/domain.ts:58-80 | every proxy with a usable entry is kept exactly once |
| CandidateWindow.UniqueKeepsFirsts | packages/engine/src/liquidation/domain.ts:58-80 | by its first usable entry, and in feed order |
| CandidateWindow.UsableExactly | packages/engine/src/liquidation/domain.ts:43-72 | an entry is usable if and only if proxy and borrower are both strings of `0x` and forty hexadecimal digits |
| CandidateWindow.WindowAt | packages/engine/src/liquidation/domain.ts:80-86 | the window reads the list cyclically from its offset |
| CandidateWindow.EveryPositionIsReached | packages/engine/src/liquidation/engine.ts:232-241 | for an unchanged feed every position is selected within the ceiling of n over max cycles, from any offset |
| CandidateWindow.ShortListIsTakenWhole | packages/engine/src/liquidation/domain.ts:80-86 | a list that fits is taken whole and the cursor returns to the front |
| CandidateWindow.Cursor.Poll | packages/engine/src/liquidation/engine.ts:232-241 | the cursor moves past the window that was selected |
| ChunkedProbe.ProbeInChunks | services/ponder/src/probePositions.ts:71-94 | one entry per item in input order, each its own item's answer or its batch's failure, for any chunk size and any batches; exactly the failed chunks are reported |
| ChunkedProbe.ChunksAreMultiples | services/ponder/src/probePositions.ts:71-94 | chunks start exactly at the multiples of the chunk size |
| ChunkedProbe.AnswersStayWithTheirItems | services/ponder/src/probePositions.ts:71-94 | no chunk size moves an answer to another item |
| ChunkedProbe.SummarizeProbes | services/ponder/src/probePositions.ts:141-161 | checked is the number of answered candidates, faults that of reverts other than a healthy position, and every candidate is counted once; a length mismatch is an error |
| ChunkedProbe.ResolveChunkSize | services/ponder/src/probePositions.ts:42-50 | a positive integer is used as given; anything else falls back to the default and is flagged unless blank |
| ChunkedProbe.SucceededIsAligned | services/ponder/src/probePositions.ts:141-161 | a success is paired with a candidate if and only if that candidate's own probe returned it |
| ChunkedProbe.PreviewInChunks | services/ponder/src/previewVaults.ts:30-65 | previews, departures and failures add up to the vaults, and the batch error is that of the first chunk that failed |
| ChunkedProbe.OutcomeAt | services/ponder/src/previewVaults.ts:35-61 | the outcome counted for a vault is its own: its entry of a batch that answered in full, or what the call for it alone said |
| ChunkedProbe.PreviewsExactly | services/ponder/src/previewVaults.ts:35-61 | it answers if its batch did in full or its own call did, is gone if and only if that call reverted so, and otherwise failed under that call's error |
| ChunkedProbe.GoneExactly | services/ponder/src/previewVaults.ts:50-61 | as many vaults are reported gone as have that outcome |
| ChunkedProbe.PreviewsKeepInputOrder | services/ponder/src/previewVaults.ts:30-65 | a vault that answered has its own preview at its place in input order |
| ChunkedProbe.FailuresAreTheirOwn | services/ponder/src/previewVaults.ts:50-61 | a vault is reported failed if and only if its own outcome is that failure |

## Left out

- Operation without a store: nothing there fences a nonce beyond the node's own count.
- RPC, HTTP, relay, KMS, Slack, metrics and logging: their answers are parameters.
- The Postgres adapter: the in-memory store is the semantics; insertion order of its rows is not modelled.
- Approvals and revocations of the AUTO executor: the same claim, record and broadcast steps as `commit`, with a receipt awaited; only their hash-bound late writes appear, in `SendProtocol`.
- The liquidation engine's own send loop: a throw in the middle of a batch settles slots through the backstop, so the cycle property is stated for arbitrage only.
- The EOA branch of the operator CLI, `show`, and decoding of `execTransaction`: confirming records whatever hash the operator reports on a claimed row.
- Progress of Safe rows: only safety is claimed, not that every retained envelope can be cleared.
- SafeCustody.AtMostOneExecutes: is about one attempt at a row. A Safe row that reconcile ends as reverted may be revived while its SafeTx is still executable, and nothing is claimed across the two attempts.
- The MANUAL executor's unguarded outcome write: the bot steps of `SafeCustody` resolve in-flight rows only.
- SendSharedKey.NeverSignsOver: a deployment is one process; two processes on one signer are outside it, as they are for the allocator. One loop never has two sends open, since each awaits `commit` before it goes on.
- ExposureSafety.NeverOverReports: outflows with no transaction to hold them by are counted only until the next read, as in the source; an account told figures other than its balance, like the treasury's, is the subject of `Treasury`.
- Treasury.NeverCommittedTwice: requires that refresh heights do not go back; `OlderPublishIsIgnored` says what happens otherwise. Reading one height is a single step.
- Executor.AutoExecutor.Commit: a store that fails while claiming makes `commit` throw before anything is signed; that path is in `ArbitrageCycle` only. That the rest of the process spares a recorded row is the subject of `SendSafety`.
- Chain reorganisations: the margins that allow for them are modelled as constants and not relied on.
- Clock resolution: two writes of one row within the same millisecond.
- Funding by inventory in the arbitrage engine, flash venues, profit floors, payload and Safe call encodings, `bufferAmount`, `selectProbeCandidates`: they would only add easy members.
