# Verified model of the Random contract and its provider engine

Random is a smart contract that turns hash-committed preimages of many providers into shared
entropy, once per tick for one of three streams. The provider client keeps one chain of signed
calls per stream alive: a first commit, then calls that open the previous commit and make the
next one, and at the end a terminal reveal. This project models both sides and the bridge
between them, and proves what they promise over every run.

* **The contract** (`RandomRules`, `RandomRounds`, `RandomWorld`, `TickReveals`, `EntropySale`,
  `RandomContract`). `RandomRules` states each procedure on values, with the loops of `END_TICK`
  as recursive walks that delete while they go. `RandomRounds` says what those walks mean: which
  slots survive, which entropy each tier gets, what is burned or paid back. `RandomWorld` lets
  any calls, purchases and tick ends happen in any order; `TickReveals` records the accepted calls
  of the current tick and says, bit by bit, what they make of its entropy. `RandomContract.Random` is the contract
  in its own form: nine parallel arrays, search loops, swap-deletes, a bit mask and an XOR loop,
  each procedure proved equal to its value form.
* **The status bridge** (`ProviderStatus`, `StatusBridge`). The report of `GetProviderStatus`,
  its 680-byte layout, and the client's strict decoder with its bit-mask duplicate check.
* **The provider engine** (`SlotRules`, `Monitor`, `EpochPhases`, `Cycles`, `ProviderEngine`). `SlotRules`
  and `Monitor` give every engine method as a function on one slot, or on the delivery counters
  and the queue of tick checks. `ProviderEngine.ProviderEngine` is the engine as an object that
  updates its slots in place with the loops of the source, `Cycle` included; each method is
  proved equal to its function, and every state it can be in is a run of them.
* **Runs of the engine** (`SlotRuns` and the `Slot…` modules after it, `MonitorRuns`, `MonitorQueue`,
  `CycleWork`, `EngineSafety`). A run is any sequence of steps with any ticks, any task results at
  any time and any status answers. Its history records what was signed, broadcast, accepted and
  observed. `SlotLives` adds which tasks run and which calls failed, as sets that follow from the
  events alone; the state of every planned call, each reported failure, each change of a slot's
  state, each wait and each dispatch are then told from that history (`SlotFailures`, `SlotWaits`,
  `SlotEnds`). `CycleWork` says what a completed cycle leaves undone: nothing.
* **Both machines together** (`Delivery`, `ChainDelivery`, `KeySlots`, `Snapshots`, `JointRuns`,
  `NoFalseSuspicion`, `CycleRuns`, `Doubts`, `LateAnswer`). A chain that the engine signs is
  accepted call by call by the contract and gets all its money back. `JointRuns` runs one stream
  of the engine beside the contract: either side moves in any order and at any pace, other callers
  do as they please, each signed call is executed in its target tick, and a status answer is what
  the contract's report, encoded and decoded, shows at some moment of that very run. There the
  engine suspects a chain exactly when an answer shows the contract after it evicted the chain.
  `CycleRuns` restricts these runs to the engine's own cycles, completed or failed, with the
  status query each of them leaves: what an answer may show to be safe then depends only on the
  tick its query was requested at.

A handler without a loop is specified by the function of the same name in `SlotRules` or
`Monitor`, to which its method is proved equal; the table lists what is proved about those
functions over all runs, and of the methods only the loops and the cycle.

The digest is an arbitrary function from preimages to ids. Only the theorems on whole chains
assume something about it, namely that no digest and no drawn preimage is zero. Signing may fail
at every call. Time is a natural
number of milliseconds. A network task is a flag on the call that owns it, and a poll finds it
pending, successful or failed. Contract locals start at zero, as the framework guarantees.

Four findings about the code, each with its exact condition or proof:

* A truthful answer can make the engine distrust a chain all of whose signed calls were executed:
  if the chain was not extended in time, the contract evicts the slot after `chain.last + 3`, and
  a cycle applies an answer from after that tick before it extends or loses the chain
  (`src/engine.rs:455-486`). Over all joint runs a suspicion arises if and only if some answer
  shows a tick later than `chain.last + 3` and, while the chain is starting, was requested after
  its first target (`NoFalseSuspicion.SuspicionsAreLateAnswers`). In cycle order no answer that
  shows at most seven ticks more than its query was requested at is late, whatever fails
  (`CycleRuns.PromptAnswersAreTrusted`), and eight is too many: `LateAnswer.LateAnswerExample` is a
  run of four cycles in which the one at tick 8 signs the calls for 9 and 12 and makes the query,
  all signed calls are executed, and the answer shows tick 16. Such an answer does little harm:
  when each cycle's tick is no older than the answer it applies, it is counted once at most and
  the next completed cycle ends the chain (`Doubts.LateAnswersFreezeNothing`).
* The comment at `docs/Random.h:174` says the `+ 2` offset selects the stream finalized last. In
  32-bit arithmetic it does so exactly while `tick + 2` does not wrap
  (`EntropySale.SaleStreamIsPreviousStream`); in the last two ticks the stream finalized before
  that one is sold (`EntropySale.SaleOfTheSoldTick`).
* The branch at `src/engine.rs:1224-1231` that gives up a retried terminal call is never taken,
  because polling has already failed that call (`SlotMarks.NothingIsGivenUp`).
* After a local loss the next chain start rests on an absence requested strictly after the loss
  exactly when the loss is not in the last 32-bit tick (`SlotFreshness.RestartAfterLossIsFresh`).

## Model

| member | source | states |
|---|---|---|
| `RandomRounds.EndTickFilters` | docs/Random.h:435-583 | the back-to-front swap-delete walk leaves, as a multiset of full records, exactly the slots a plain filter keeps: flagged ones with a non-zero commit after a reveal tick, all flagged ones after an empty tick |
| `RandomRounds.EndTickEntropy` | docs/Random.h:410-592 | a tier's entropy is the XOR of everything revealed for it, or zero if any slot of the tier was a no-show or nobody revealed, whatever the slot order and although a no-show may be found midway |
| `RandomRounds.EndTickParity` | docs/Random.h:480-592 | bit by bit: a bit of a tier's entropy is set if and only if the tier had no no-show and an odd number of its reveals have that bit set |
| `RandomRounds.EndTickBurns` | docs/Random.h:544-552 | no-shows are burned, and counted as burned, exactly in ticks in which somebody revealed |
| `RandomRounds.RevealTickPaysNothing` | docs/Random.h:480-592 | a tick with a reveal pays nothing out |
| `RandomWorld.EmptyTickPaysBack` | docs/Random.h:431-478 | in a tick without a reveal each account gets back exactly what its stale slots had locked |
| `RandomRounds.XorOrderFree` | docs/Random.h:494-500 | the XOR of the reveals depends only on the multiset of slots |
| `RandomWorld.StepKeepsWorld` | docs/Random.h:224-593 | every call, purchase and tick end keeps: unique (provider, tier) per stream, exactly 10^tier locked behind a non-zero commit, nothing locked and flagged as revealed behind a zero commit |
| `RandomWorld.TickEndClearsTheStream` | docs/Random.h:406-593 | after END_TICK at T all flags and reveals of the stream of T are clear, and every survivor has T as its update tick |
| `RandomWorld.AcceptedExactly` | docs/Random.h:226-376 | a call is accepted exactly when a user attaches a tier's stake and it is a first commit of an absent key with room, or opens the commit of its own slot not yet updated in this tick |
| `RandomWorld.OneAcceptedCallPerTick` | docs/Random.h:283-333 | after an accepted call, any further call of that provider and tier in the tick changes nothing and is refunded, whatever happened in between |
| `RandomWorld.MoneyIsConserved` | docs/Random.h:166-593 | over every run, for each account alone and for all together: received minus paid out minus burned minus charged is what is locked |
| `RandomWorld.CountersAgree` | docs/Random.h:206-207 | `earnedAmount` grows by exactly the fees charged and `burnedAmount` by exactly the stakes of no-shows in ticks in which somebody revealed |
| `TickReveals.RevealsAreTheCalls` | docs/Random.h:283-376 | over every run of the deployed contract: a slot that revealed in this tick holds the preimage and the commit of the one accepted call of its key in the tick, every accepted call is held by a slot, and an enrolled provider without one stands as the tick began |
| `TickReveals.EntropyIsTheCalls` | docs/Random.h:410-592 | over every run, bit by bit: END_TICK publishes for each tier the parity of the preimages of the calls accepted for it in the tick, or nothing if an enrolled provider of the tier did not call |
| `RandomContract.Random.constructor` | docs/Random.h:96-122 | a deployed contract is empty in all nine arrays |
| `RandomContract.Random.RevealAndCommit` | docs/Random.h:224-392 | the procedure on the parallel arrays does to the abstract contract exactly what the rule says, with the same transfers, and keeps every vacated position zero in all nine arrays |
| `RandomContract.Random.EndTick` | docs/Random.h:406-593 | both walks with in-loop swap-deletes, the tier bit mask and the burns equal the value form, effects in the same order |
| `RandomContract.Random.Evict` | docs/Random.h:451-475 | moving the last record into the hole in all nine arrays and zeroing the vacated one is swap-delete on records and touches no other stream |
| `RandomContract.Random.XorInto` | docs/Random.h:494-500 | the bit loop computes the XOR, each bit of it the difference of the two |
| `RandomContract.Random.BuyEntropy` | docs/Random.h:166-222 | the purchase equals its rule: effects, output bits and earned amount |
| `RandomContract.Random.GetProviderStatus` | docs/Random.h:138-164 | the scan over three streams reports all holdings in order, the first 32 of them |
| `EntropySale.SaleStreamIsPreviousStream` | docs/Random.h:174-175 | the stream read is that of the previous tick if and only if `tick + 2` does not wrap |
| `EntropySale.ContributionsAreReveals` | docs/Random.h:483-506 | for a tier without a no-show the contribution marks after END_TICK are exactly the reveals of those who stay |
| `EntropySale.SaleOfTheSoldTick` | docs/Random.h:166-222 | in every 32-bit tick T a purchase succeeds exactly when the tick it reads (T - 1, or T - 2 where `T + 2` wraps) left the tier without a no-show and with some bit set in an odd number of reveals, and the named trustee revealed and stayed; it then costs bits × fee, and of the output bit i is set if and only if i is below the number of bits asked for and an odd number of the tier's reveals have it set; otherwise it is refunded in full and no bit is set |
| `EntropySale.SaleOfTheCalls` | docs/Random.h:166-222 | over every run of the deployed contract: a purchase yields, bit by bit, the parity of the preimages that the accepted calls of the sold tick revealed for the tier, and succeeds exactly when everyone enrolled in the tier called, some bit is odd and the named trustee's call was a reveal that stays |
| `ProviderStatus.LayoutReads` | src/contract.rs:148-163 | reading the encoded report at the decoder's offsets returns what was written |
| `ProviderStatus.Decode` | src/contract.rs:35-88 | the decoding loop with its 32-bit mask equals the parser that compares keys, error by error |
| `ProviderStatus.SlotFor` | src/contract.rs:90-92 | the lookup answers with a listed slot of that key, and with nothing exactly when the key is not listed |
| `StatusBridge.DecodeAccepts` | src/contract.rs:35-88 | bytes are accepted if and only if size, count, ranges, flags and uniqueness of keys all hold, and then the slots are exactly the entries |
| `StatusBridge.DecodedFields` | src/contract.rs:148-163 | where the decoder finds each field of an accepted response, and that every number is read least significant byte first |
| `StatusBridge.ByteOrderExample` | src/contract.rs:148-163 | the bytes 4, 3, 2, 1 read as 0x01020304 |
| `StatusBridge.AtMostThirty` | src/contract.rs:76-82 | an accepted response has at most 30 entries |
| `StatusBridge.ReportRoundTrip` | src/contract.rs:148-163 | decoding the encoded report of any list, in any order, with distinct keys in range and amounts and ticks of their widths returns that list |
| `StatusBridge.StatusIsTruthful` | docs/Random.h:138-164 | in every reachable contract state the report is complete and in the order of streams and slots, its bytes are accepted, and a key looks up to the provider's own slot with its stake, contribution mark and update tick, or to nothing exactly when it is not enrolled |
| `SlotShape.RunKeepsShape` | src/engine.rs:184-212 | over every run a slot has a chain exactly in the states that manage one, with matching first target, frozen tail or unique last terminal call, and at most one task per call |
| `SlotLinks.NoTargetIsReused` | src/engine.rs:911-1098 | the targets signed in an epoch strictly increase across chains, restarts, losses and the terminal call, on the stream's residue; inside a chain they step by three and each call opens the commit before it; nothing follows a terminal call |
| `SlotLinks.OutstandingOpensLast` | src/engine.rs:1012-1031 | the outstanding preimage of a live chain opens the last commit it signed |
| `SlotLinks.ExtensionIsBounded` | src/engine.rs:968-1033 | one extension signs at most two calls, the next two targets, after the current tick, however far the tick jumped |
| `SlotLinks.ExtensionReachesTheHorizon` | src/engine.rs:1002-1030 | an extension that is not late signs one continuation after the other, each three ticks on, opening the commit before it and committing to the next draw, and stops short of the tick six ahead only where the wallet fails to sign the next call or no 32-bit tick is left |
| `SlotSends.GateMeansChainAccepted` | src/engine.rs:1179-1188 | the dispatcher's gate for a terminal call is open exactly when every earlier call signed for its chain was accepted, pruned ones included and older chains left aside |
| `SlotLog.BroadcastLogIsSafe` | src/engine.rs:1167-1341 | over every run each broadcast lies in its window, finds no running task, carries the signed bytes; it is redundant exactly after acceptance, at most once per call, 3 or 4 ticks ahead, never for a terminal call or an older chain; a terminal reveal goes out only after its whole chain was accepted, once in a shutdown drain |
| `SlotLog.AcceptedDrainIsComplete` | src/engine.rs:1468-1489 | a drain that ends accepted had every call of its chain accepted |
| `SlotLives.CallsAreTheirHistory` | src/engine.rs:1100-1341 | over every run each planned call is in exactly the state its history gives: accepted by the backend, failed where an expiry passed it or its shutdown terminal task failed, under way while its task runs, to be retried after a task failed, ready if never sent; and it counts as sent twice exactly if it was |
| `SlotEnds.DispatchIsComplete` | src/engine.rs:1195-1265 | over every run a dispatch sends a call if and only if it is planned, 1 to 6 ticks ahead (4 for one that opens a commit), and either neither accepted nor failed with no task running (a terminal one only after its chain was accepted), or due for its one redundant delivery |
| `SlotEnds.PlannedCallsAreExact` | src/engine.rs:1524-1537 | over every run exactly the signed calls stay planned while a chain is managed, until pruning drops those of an older chain that are reached and those of the current one that are passed and accepted |
| `SlotEnds.StatesAreExact` | src/engine.rs:823-1165 | over every run and for every step: when a live chain is lost, frozen or drained and with which reason, bound and terminal target; when a drain fails and when it succeeds; when a frozen chain is released and to what; when a slot is given up at the end of the 32-bit ticks; and that nothing else moves a state |
| `SlotFreeze.FreezesAtTheThird` | src/engine.rs:767-821 | a live chain has at most two counted observations and freezes in exactly the step that counts the third; counted request ticks strictly increase, consecutive evidence repeats (two absences, foreign update ticks that do not fall, or the same missing target), and each was really answered so |
| `SlotFreeze.LatestIsGreatest` | src/engine.rs:86-93 | the latest target before a tick is the greatest of the chain's targets below it |
| `SlotFreeze.LagNamesADueTarget` | src/engine.rs:743-764 | a lag names the first target after the watermark, signed by this chain and due before the request |
| `SlotFreeze.WatermarkNeverDecreases` | src/engine.rs:727-745 | while the chain is the same, its acknowledgement watermark never falls |
| `SlotFailures.AcknowledgementIsExact` | src/engine.rs:717-745 | over every run the watermark is the highest of the chain's own targets observed while it was live, and a live chain is active exactly when there was one |
| `SlotFreshness.StartIsJustified` | src/engine.rs:632-650 | a chain starts only on an absence of the same epoch requested at or after the bound, with no occupied answer applied since |
| `SlotFreshness.BoundNeverDecreases` | src/engine.rs:688-712 | until the next start the bound never falls |
| `SlotFreshness.NextStartIsFresh` | src/engine.rs:911-924 | from any waiting or frozen state on, the next start rests on an absence requested at or after the bound of that state |
| `SlotFreshness.RestartAfterLossIsFresh` | src/engine.rs:984-997 | a live chain is lost locally only by expiry or a continuation never planned, and the next start rests on an absence requested at or after the tick that follows the loss, strictly later exactly below the last 32-bit tick |
| `SlotWaits.WaitsAreExact` | src/engine.rs:632-712 | over every run the bound of a wait is the one it began with, lifted past every occupied answer since, and absence counts as seen if and only if some answer since was absent at or after that bound and no later one was occupied; drain requests and the end of a frozen chain change neither |
| `SlotWaits.StartsAreExact` | src/engine.rs:911-966 | over every run a start request begins a chain if and only if absence was seen, no drain was asked for and a target is free, at the first target of the stream at least six ticks ahead and after everything signed; it signs the one first commit to the drawn preimage and keeps the planned calls |
| `SlotFailures.FailuresAreExact` | src/engine.rs:823-1165 | over every run each step reports exactly the target as failed that the history tells: of an expiry, of a continuation passed unplanned, of a failed terminal task in a shutdown drain, of a confirmed absence or lag; no other step reports any |
| `SlotFailures.ExpiryOfALiveChain` | src/engine.rs:1100-1165 | over every run an expiry at a tick reports a target of a live chain if and only if it is the least target of a reveal signed for this chain that the tick has reached and the backend has not accepted; the chain is lost if and only if the tick has reached any unaccepted call signed for it |
| `SlotMarks.ChainFailsAtMostOnce` | src/engine.rs:1144-1163 | a chain reports at most one financial failure, across expiry, freeze, missed continuation and failed terminal reveal, and none while it is live |
| `SlotMarks.EpochFailuresAreBounded` | src/engine.rs:383-386 | over every run the targets reported as failed in an epoch, and the reports themselves, are at most as many as the chains started in it |
| `SlotMarks.MarksNameTheChain` | src/engine.rs:823-832 | a failure names a target of the chain or the one right after its tail, a success one of its reveals |
| `SlotMarks.NothingIsGivenUp` | src/engine.rs:1224-1231 | no reachable dispatch gives a call up |
| `SlotOutcomes.SuccessesAreAcceptedReveals` | src/engine.rs:1271-1341 | over every run a success is reported for exactly the reveals of the epoch that the backend accepted, and for no first commit, terminal reveal or unsigned target |
| `SlotProgress.DrainFinishes` | src/engine.rs:1035-1165 | once a slot drains, whatever happens short of an epoch change, the first serviced tick that reaches its deadline drains it, and it stays so |
| `SlotProgress.RequestAndService` | src/engine.rs:467-492 | an accepted drain request sets the deadline of the state it finds, the terminal target or the frozen tail, and a service at or after it finishes the drain; asked to shut down, a slot that was not draining for the epoch's end is in a shutdown drain until it is drained |
| `MonitorRuns.CountersAreExact` | src/engine.rs:253-268 | over every run each counter is its value at the last reset plus the number of targets with that outcome, as long as 64 bits suffice, so no decrement clamps |
| `MonitorRuns.OutcomesOnlyWorsen` | src/engine.rs:350-372 | within an epoch no outcome improves and the check watermark does not fall |
| `MonitorRuns.OutcomesComeFromReports` | src/engine.rs:350-372 | over every run a target's outcome is empty if a check found its tick empty, else failed if a failure was reported for it, else ok if a success was, since the last reset |
| `MonitorRuns.NoTargetIsCheckedTwice` | src/engine.rs:374-381 | over every run the queue is the disjoint union of waiting, ready and running checks, apart from completed ones and above the watermark, and no target completes two checks in an epoch |
| `MonitorQueue.ReportsAreQueued` | src/engine.rs:374-387 | over every run a target is queued or checked if and only if it was reported since the last reset and lies at or above the watermark, and one newly reported waits among the pending checks |
| `MonitorQueue.WatermarkIsExact` | src/engine.rs:1431-1452 | over every run the watermark lies 32 ticks and the configured delay behind the highest tick seen since the last reset, and no target is checked before its own tick and the delay have passed |
| `MonitorQueue.RetriesAreExact` | src/engine.rs:1374-1382 | over every run a check that failed n times waits from its latest failure for 1, 2, 4, 8, 16 and then always 30 seconds |
| `MonitorQueue.ChecksArePaced` | src/engine.rs:1390-1429 | over every run two checks start at least the configured interval apart, none before the reset allowed it |
| `MonitorRuns.EnsureStartsTheNewest` | src/engine.rs:1390-1429 | promotion moves exactly the eligible targets, and a check starts exactly when there is a candidate, the newest one |
| `ProviderEngine.ProviderEngine.Cycle` | src/engine.rs:444-500 | a completed cycle is, for each slot, exactly the listed steps in that order, all of its planning was signed and accepted, and it leaves the status query it made for its own tick, or the one still running; a failed one has observed every slot, serviced none and made no query; a failed tick query changes nothing; the monitor is reset first, exactly when the epoch changes, is then told nothing but the slots' outcomes, and checks last |
| `CycleWork.CompletedCycleIsDone` | src/engine.rs:444-500 | over every run, after a completed cycle nothing is left to do for the slot at its tick: no due call of a live chain is unaccepted, a drain is ahead of its terminal target and a frozen chain of its tail, a task runs for every call that could be sent, and nothing is kept that pruning drops; while planning, a live chain is planned past the tick six ahead and no slot that is free to start waits |
| `CycleWork.CycleObserves` | src/engine.rs:444-461 | before it plans, a cycle starts over in a new epoch; otherwise every task found finished well is accepted, and an answer to a query of this epoch, and no other, is applied at the tick of that query |
| `Cycles.QueriesArePaced` | src/engine.rs:571-618 | over every run of cycles two status queries of an epoch are made at least 500 milliseconds apart, by completed cycles only, each for its own tick, and exactly when none is left running and it is time |
| `ProviderEngine.ProviderEngine.ClosingCycleDrains` | src/engine.rs:462-492 | a completed closing cycle drains every slot that was not refused by the deadline of the state it found, for shutdown if that was asked |
| `ProviderEngine.ProviderEngine.UpdateEpochPhase` | src/engine.rs:502-541 | the phase after one observation; exactly when the epoch number changes every slot and the monitor start over and a running status query is dropped |
| `ProviderEngine.ProviderEngine.ResetSlots` | src/engine.rs:543-569 | every slot is fresh; outcomes, check queues, the running check and the watermark are cleared, the counters stay; a running status query is dropped |
| `EpochPhases.PhaseIsDecided` | src/engine.rs:502-541 | over every run of cycles within an epoch: warm-up lasts until some cycle saw the ready tick fixed by the first one, draining begins with the first cycle that is warm and finds the stop window, and lasts |
| `ProviderEngine.ProviderEngine.PlanCalls` | src/engine.rs:1002-1031 | the planning loop in place equals the recursive plan, and ends early exactly when signing stopped it short of the horizon |
| `ProviderEngine.ProviderEngine.ExpireEachCall` | src/engine.rs:1100-1140 | one pass finds whether anything expired, the first expired reveal and the last attempted terminal call, and fails each passed call |
| `ProviderEngine.ProviderEngine.DispatchCalls` | src/engine.rs:1167-1269 | all calls are dispatched under one gate computed before the loop |
| `ProviderEngine.ProviderEngine.ExpireCalls` | src/engine.rs:1100-1165 | the expiry loop, its single failure, and the end of the chain |
| `ProviderEngine.ProviderEngine.HarvestBroadcasts` | src/engine.rs:1271-1341 | polling all calls, successes reported before failures |
| `ProviderEngine.ProviderEngine.PruneCalls` | src/engine.rs:1524-1537 | the retained calls |
| `ProviderEngine.ProviderEngine.PromoteChecks` | src/engine.rs:1396-1403 | the loop that stops at the first target too recent moves exactly all eligible ones |
| `ProviderEngine.ProviderEngine.EnsureTickCheck` | src/engine.rs:1390-1429 | expiry, promotion and start of a check |
| `EngineSafety.EveryStateIsSafe` | src/engine.rs:275-299 | in every state an engine object can be in: each slot is coherent, its targets ascend and are linked, its broadcasts are in order, it failed at most once, its suspicion is made of agreeing answers and short of a freeze while live, its absence rests on a fresh enough answer and an accepted drain is complete; the check queue is consistent and the counters are exact |
| `EngineSafety.OutcomesAreTheSlots` | src/engine.rs:350-387 | in every state a target's outcome is ok exactly when the slot of its stream signed a reveal for it in this epoch, the backend accepted it, no slot reported a failure for it and no check found its tick empty; failed exactly when some slot reported one and its tick was not found empty |
| `EngineSafety.SlotsLive` | src/engine.rs:275-299 | every slot of an engine object has lived through its log: each of its calls is in the state its history gives, and each step from here reports exactly the failures that history tells |
| `EngineSafety.ReportsAreChecked` | src/engine.rs:374-387 | in every state a target is queued for a tick check or checked if and only if a slot reported it in this epoch and it is at or above the watermark |
| `EngineSafety.CycleIsDone` | src/engine.rs:444-500 | after a completed cycle of the object nothing is left to do for any of its slots at the cycle's tick |
| `EngineSafety.EngineFailuresAreBounded` | src/engine.rs:253-268 | in every state at most as many targets count as failed as chains were started in this epoch, and the failure counter has grown by no more since the epoch began (while 64 bits suffice) |
| `EngineSafety.StreamsShareNoTarget` | src/engine.rs:1545-1551 | two streams never sign a call for the same target |
| `EngineSafety.SuccessfulShutdownIsComplete` | src/engine.rs:1581-1591 | when shutdown ends without failure, a slot had no trusted chain to drain or its whole last chain was accepted |
| `EngineSafety.EngineDrainFinishes` | src/engine.rs:467-492 | from any engine state in which a slot drains, the first serviced tick at its deadline drains it for the rest of the epoch |
| `Delivery.TickDelivers` | docs/Random.h:224-392 | a fitting call is accepted when it comes, is no no-show when the tick ends, and END_TICK leaves exactly its commit with that update tick, or nothing after a terminal call |
| `Delivery.RoundDelivers` | docs/Random.h:406-593 | what was settled stays until the stream's next tick |
| `Delivery.RoundMoney` | docs/Random.h:294-350 | a first commit locks one stake, a re-commit keeps it, a terminal reveal frees it, and everything else attached comes back in the round |
| `ChainDelivery.RunChainIsLinked` | src/engine.rs:911-1098 | what a run signs as one chain steps by three ticks, opens commit after commit, and only its last call may be terminal |
| `ChainDelivery.EngineCallIsDelivered` | src/engine.rs:911-1098 | every call of every chain of every engine run is accepted in its tick, is no no-show, and is settled to its own commit with its target as update tick, others interleaved and repetitions included |
| `ChainDelivery.EngineChainIsRepaid` | src/engine.rs:1035-1098 | after the terminal reveal the slot is gone and everything the chain attached was paid back |
| `KeySlots.SlotStays` | docs/Random.h:224-593 | event by event: an executed call's slot is taken in its tick, holds its commit through the stream's next tick, and is evicted there unless the next call comes, whatever others do |
| `JointRuns.SidesAreRuns` | src/engine.rs:444-500 | each side of a joint run is a run of its own machine, so the theorems over those runs apply |
| `NoFalseSuspicion.LiveChainSnapshot` | docs/Random.h:138-164 | at any moment since the latest answer, in the middle of a tick or not, the contract's decoded report shows the latest target of the engine's live chain whose tick that moment has seen, and nothing once the chain is evicted |
| `NoFalseSuspicion.SuspicionsAreLateAnswers` | src/engine.rs:620-821 | over every joint run: the engine suspects a chain at some point if and only if some answer shows a tick after `chain.last + 3` (and, for a starting chain, was requested after its first target) |
| `NoFalseSuspicion.NoFalseSuspicionEver` | src/engine.rs:620-821 | over every joint run without such a late answer no suspicion is held, nothing is counted against a chain and none is frozen |
| `NoFalseSuspicion.ExtendedChainsAreTrusted` | src/engine.rs:968-1033 | after an extension at tick T signed in full, no answer up to tick T + 7 is late |
| `CycleRuns.CycleIsATurn` | src/engine.rs:444-500 | what `Cycle` promises makes it a turn of a cycle run: its steps lead the stream's trace from the engine's state before to the one after, planned on the slot the turn speaks of |
| `CycleRuns.PromptAnswersAreTrusted` | src/engine.rs:444-500 | over every run of cycles beside the contract, failed ones included: if every answer shows at most seven ticks more than its query was requested at, no chain is ever suspected, not even within a cycle, and nothing is counted |
| `Doubts.LateAnswersFreezeNothing` | src/engine.rs:767-877 | over every run of cycles whose ticks are no older than the answers they apply, however late those are: no chain is frozen, at most one observation is ever counted, only against a chain whose next target has passed, and a completed cycle leaves none suspected |
| `LateAnswer.LateAnswerExample` | src/engine.rs:444-500 | a run of cycles beside the contract in which every signed call is executed, every answer is truthful and shows at most eight ticks more than its query was requested at, and a live chain is suspected: seven is the most that is safe |

## Left out

- NoFalseSuspicion.NoFalseSuspicionEver: supposes that answers do not go back in time from one to the next and that a first commit finds room; missed calls are outside the joint runs.
- CycleRuns.PromptAnswersAreTrusted: supposes moreover that within an epoch the ticks of the cycles do not go back; a run is stated for one stream at a time, with the same turns for all three.
- ProviderEngine.ProviderEngine.constructor: the clock is read once, where the source reads it three times in a row.
- RandomContract.Random.BuyEntropy: the product of bits and fee is unbounded, where the source computes it in signed 64 bits.
- MonitorRuns.CountersAreExact: stated while the counters cannot have reached 64 bits; beyond that the saturating counters stop agreeing with the outcomes.
- RandomWorld.CountersAgree: the contract's 64-bit amounts do not wrap in the model.
- Signed bytes are their target tick and procedure input; wallet, signature and transaction layout are not modelled, nor is the 544-byte encoding of the procedure input, two fixed fields one after the other.
- The number of skipped tick checks and the pace of the line that reports it, which only reach the log.
- Transaction digests kept for monitoring and the inclusion they are compared with, which only reach the log.
- `Fees`, `INITIALIZE`, changes of the fee, and function registration.
- The run loop around the cycle with its shutdown deadline, the wall-clock test for the end of the epoch (a boolean here), broadcast timeouts, and the time a task takes.
- HTTP, Bob and gRPC adapters, JSON decoding, command line, seed handling, console and log text.
- The KangarooTwelve function itself and the randomness of preimages.
