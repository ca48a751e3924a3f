# NePA: verified model of the host side

NePA turns a protocol document into a specification, has a language model write a C implementation of
it task by task, and checks the result. Its host side spends money under caps shared by several
processes, survives being killed at any write, and reads untrusted streams. This project models that
host side and proves what it keeps.

| file | what it models |
|---|---|
| `Outcomes.dfy` | result types; sequences; searching texts; sums of amounts |
| `BudgetLedger.dfy`, `RunStore.dfy` | a run's ledger: admission, reservation, settlement, conservation of money |
| `Campaign.dfy` | any number of runs and processes on one campaign directory: its state machine, call numbers, conservation |
| `CampaignCaps.dfy`, `CampaignBills.dfy`, `CampaignOverflow.dfy`, `CampaignFaults.dfy` | the campaign's caps, on record and as billed, and its stop on overflow: what every history keeps, exactly which events break it, and histories that do |
| `CampaignSteps.dfy` | the operations of a process as events of that state machine |
| `Tariff.dfy` | tiered prices and the reservation that bounds them |
| `LlmClient.dfy` | the retry loop's accounting |
| `Plan.dfy` | the serial plan, follow-up surgery, claim checking |
| `Checkpoints.dfy`, `ActionStore.dfy` | the action protocol over run.json, the project tree and git, with deaths, interruptions, old copies and recovery |
| `Lifecycle.dfy`, `Spending.dfy` | sessions, decisions, follow-ups, delivery and repairs over any number of stops; exactly how many decisions a run has left |
| `Resumption.dfy`, `Orchestrator.dfy` | the same over processes that work from old files and follow-ups cut half way; the two loops |
| `TypeClosure.dfy` | the slice of a specification that goes with one message |
| `Sockets.dfy`, `Mqtt.dfy` | MQTT framing over short reads |
| `HttpHead.dfy`, `Http.dfy` | the reader of pipelined fixed-length responses |
| `EventStream.dfy`, `ChatStream.dfy` | event streams and the assembly of a chat completion from deltas |
| `Observations.dfy`, `CodingContext.dfy` | the working context: fresh file observations, eviction under a byte bound, matched receipts |
| `Merge.dfy`, `SpecCompiler.dfy` | merging candidate definitions; compiling claims into a specification with every claim accounted for |
| `Segments.dfy`, `Evidence.dfy` | cutting a document into segments; locating quotes and checking their coordinates |
| `Verdict.dfy` | the verification verdict and the report's own judgement of the same rows |
| `Projection.dfy` | the projection of raw results to published feedback |

Objects whose methods update fields in place are classes; their methods are proved against functions
or state machines, and the theorems are about those. Money is `real`. Processes are interleaved
event by event; a process may die between any two saves, be interrupted between any two updates and
save what it has, and work from a file it read too early. `dafny verify dfyconfig.toml` checks
everything.

## Where the code falls short of its promise

Each of these is a lemma with a concrete history or input, beside the exact condition under which the
code does keep the promise.

- A run's `run.json` is read when the store is opened, before its lock is taken. Saving that copy over
  a newer file can push a campaign's record over its cap (`CampaignFaults.StaleLockBreaksCap`), let
  more than the cap be billed while the record stays within it (`CampaignFaults.StaleLockBillsTwice`),
  and erase recorded overflow, which reopens a stopped campaign
  (`CampaignFaults.StaleLockReopensCampaign`). The cap on the record is broken exactly by copies that
  show more on a meter, less overflow, than the file (`CampaignCaps.StaysWithinIff`; with overflow on
  record, `CampaignOverflow.StoppedStaysWithinIff`). The cap on what is billed is broken exactly by
  copies that leave the record short of what the calls have cost: when no reservation was saved
  without its call being made, those that show less than the file
  (`CampaignBills.LockBilledWithinIff`). The stop is broken exactly by copies without overflow when no
  other run records any (`CampaignOverflow.LockKeepsStopIff`).
- The same lock puts back the counters of sessions and decisions, so processes that keep starting from
  one old file make any number of paid decisions (`Resumption.NoBoundOnDecisions`,
  `Resumption.BoundBroken`). Every decision made is on record, within the bound, or was forgotten
  (`Resumption.DecisionsAccounted`), and `Resumption.LockWithinIff` says which locks keep the bound.
- A follow-up interrupted between its task's entry and the counter, and saved by the handler, is asked
  for again under the same id: the entry is replaced and the id stands in the plan twice
  (`Resumption.LostFollowUp`, `Resumption.CutKeepsIdsIff`). Interrupted one update earlier it leaves a
  run in which no process can do anything (`Resumption.CutStopsIff`).
- The deadline signal can interrupt the in-memory updates of a reservation or settlement, and the
  final save happens outside the campaign lock (`CampaignFaults.InterruptionBreaksCap`). Which
  interruptions break the cap on the record is said by `CampaignCaps.StaysWithinIff` and
  `CampaignCaps.InterruptionRaisesIff`; which unbalance a ledger or push it over its run's own cap
  (`CampaignFaults.CutBillBreaksRunCap`), by `Campaign.LedgersConserved`.
- The same interruptions, saved by the same handler, leave a run that no process can recover
  (`Checkpoints.InterruptedFinishStuck`) or a passed task whose files recovery throws away
  (`Checkpoints.InterruptedAcceptLosesFiles`); and a recovery from an old copy undoes an acceptance
  (`Checkpoints.StaleRecoveryUndoesAcceptance`) or, refused, makes recovery impossible
  (`Checkpoints.StaleRefusalStuck`). `Checkpoints.StepRecoverableIff` and `Checkpoints.StepRefinesIff`
  say exactly when.
- Prices with a cache-hit rate above the miss rate are accepted, and their reservations are not upper
  bounds (`Tariff.DearHitsBreakReservation`).
- A recovery that dies half way cannot be repeated when no action was pending and the recorded tree
  is not the one it left (`Checkpoints.HalfRecoveryStuck`, `Checkpoints.HalfRecoveryRepeatableIff`).
- The projection of results to published feedback does not look into lists inside lists or into the
  observation of a command, so whatever stands there under a key kept on the host is published
  (`Projection.ListedIsPublished`, `Projection.ObservedIsPublished`); `Projection.PublishedCleanIff`
  says exactly when nothing of the kind is.
- The Remaining Length decoder accepts superfluous zero digits (`Mqtt.OverlongAccepted`,
  `Mqtt.AcceptedIsFrameIff`).
- The header-size check of the response reader looks at the buffer after each read, so whether a
  response is refused depends on how its bytes arrive (`Http.ChunkingDecides`,
  `Http.HeaderSizeIndependentIff`).
- A read's receipt promises the content while the file has that version; a file changed and changed
  back has it without the content (`Observations.ReceiptOutlivesContent`).
- Containment ignores the order of lists, so definitions that differ in it merge silently
  (`Merge.FlatListsInterchangeableIff`), and whether definitions conflict depends on their order
  (`Merge.OrderMatters`, `Merge.OrderIndependentIff`).
- Projecting feedback that was published already can change it: a bare detail loses its source
  positions (`Projection.DetailAgain`) and a container command inside a container command is stripped
  again (`Projection.StrippedTwice`).
- A required check that cites no requirement can fail the verification and leave every requirement
  fine in the report (`Verdict.UncitedDisagrees`, `Verdict.AgreementIff`).

## Model

| member | source | states |
|---|---|---|
| `BudgetLedger.NextNumber` | nepa/run_store.py:294-297 | the number after the counter that no request evidence holds: above the counter, unused, and every number skipped was used |
| `BudgetLedger.AdmittedIff` | nepa/run_store.py:268-293 | a reservation is admitted exactly when the amount is not negative, the run has time and money left and no overflow, no run.json records any, and the amount fits under the run cap, the campaign cap and, in capability and public_tools, the phase cap on top of the sums over all run.json files |
| `BudgetLedger.RefusalIsFirstGrounds` | nepa/run_store.py:268-293 | a refusal names the first of the eight tests, in the order the code makes them, that has grounds; whether one has grounds does not depend on the others |
| `BudgetLedger.PendingRemove` | nepa/run_store.py:268-322 | the total owed on pending calls falls by exactly the removed reservation, whichever call goes first |
| `BudgetLedger.ReserveUpdatesInOrder` | nepa/run_store.py:298-303 | which fields each number of a reservation's updates has changed |
| `BudgetLedger.SettleUpdatesInOrder` | nepa/run_store.py:311-322 | which fields each number of a settlement's updates has changed |
| `BudgetLedger.InterruptedReserveBalancesIff` | nepa/run_store.py:298-303 | an interrupted reservation leaves cost = settled + pending and the phases summing to it exactly when the interruption comes before the cost is raised or after the pending entry, or nothing was reserved |
| `BudgetLedger.InterruptedSettleBalancesIff` | nepa/run_store.py:311-322 | the same for each of the seven updates of a settlement, with the exact amounts for which an interruption does no harm |
| `BudgetLedger.InterruptedSettleWithinCapIff` | nepa/run_store.py:311-322 | an interrupted settlement leaves the cost within the run cap plus overflow exactly unless the cut comes after the cost moved, before the overflow is recorded, and the bill is beyond them |
| `BudgetLedger.ReserveKeepsLedger` | nepa/run_store.py:276-306 | an admitted reservation conserves money and keeps cost within the run cap plus overflow |
| `BudgetLedger.SettleKeepsLedger` | nepa/run_store.py:308-322 | a settlement conserves money and keeps cost within the run cap plus overflow, whatever the bill |
| `RunStore.CampaignRoot.CampaignCost` | nepa/run_store.py:65-73 | the loop's total is the sum of the costs of every run.json |
| `RunStore.CampaignRoot.PhaseCost` | nepa/run_store.py:287-289 | the loop's total is the sum of one phase's costs over every run.json |
| `RunStore.RunStore.NextSequence` | nepa/run_store.py:294-297 | the loop finds exactly the next free number |
| `RunStore.RunStore.Refuse` | nepa/run_store.py:268-293 | refuses nothing exactly when amount, time, overflow and each cap allow it, written out over the run.json files and this copy; a refusal names the first test with grounds |
| `RunStore.RunStore.ReserveCall` | nepa/run_store.py:276-306 | succeeds exactly when the amount is not negative, the time is not up, neither this copy nor any run.json has overflow, the cost is below the run cap, and cost and the sums over all run.json files plus the amount are within run, campaign and phase cap; then issues the next number without evidence, adds the amount to the cost and its phase, counts the call, enters it as pending, saves this run and writes its evidence, nothing else; a refusal changes nothing |
| `RunStore.RunStore.SettleCall` | nepa/run_store.py:308-322 | the call leaves the pending ones; cost and its phase move by bill less reservation, overflow by its positive part, the bill's cost is filed under its period, and both token counts are added; saved, nothing else changed |
| `RunStore.RunStore.FailCall` | nepa/run_store.py:324-329 | a failed call keeps its reservation pending |
| `Campaign.CallNumbersNeverReused` | nepa/run_store.py:276-306 | in every history of any number of runs, with stale copies, deaths between save and evidence, and interrupted updates, no run hands out a number twice |
| `Campaign.Effects` | nepa/run_store.py:276-329 | what each event leaves of its run's directory, field by field: the copy read, the ledger on disk, evidence and numbers handed out, what the calls come to cost |
| `Campaign.HolderEffects` | nepa/run_store.py:276-329 | who works on the run after each event, from which copy, whether only to save and leave, and which call may still be answered |
| `Campaign.LedgersConserved` | nepa/run_store.py:268-329 | in every history, interrupted or not, every run.json and every process's copy keeps cost = settled + pending = the phases' sum from first event to last exactly when every interruption is cut where that balance allows it, and cost within the run cap plus recorded overflow exactly when every one is cut where the cap allows it |
| `Campaign.RunKeepsIff` | nepa/run_store.py:298-322 | one event keeps either promise in all ledgers of its run exactly when it is no interruption or one at a point the promise allows |
| `CampaignCaps.CampaignCapSafe` | nepa/run_store.py:65-86 | in every history of any number of runs and processes, the spending on record of the campaign and of each capped phase is at most the limit, plus recorded overflow, plus what old copies under a lock and interrupted updates added to it |
| `CampaignCaps.CarefulCapSafe` | nepa/run_store.py:276-329 | the spending on record is within the limit plus recorded overflow when no lock is taken on a copy that shows more on the meter, less overflow, than run.json, and no update is cut where it would; what was billed is bounded by the CampaignBills rows |
| `CampaignCaps.StaysWithinIff` | nepa/run_store.py:173-202 | after any such history without recorded overflow, an event leaves the record of every such continuation within the limit exactly when it raises nothing in that sense |
| `CampaignCaps.UncoveredBreaksCap` | nepa/run_store.py:173-202 | a process's copy that shows more than its run.json lets the record of a fresh, uninterrupted continuation exceed the limit: another run takes the room left, and the copy is saved |
| `CampaignCaps.InterruptionRaisesIff` | nepa/run_store.py:299-322 | under a fresh lock, exactly these interruptions raise a meter: a reservation of something cut after the cost (for its phase, the phase's cost), and a settlement above its reservation cut between that and the overflow |
| `CampaignBills.BilledCapSafe` | nepa/run_store.py:276-329 | in every history, what the runs' calls truly cost (bills of those answered, reservations of the others) is at most the limit, plus recorded overflow, plus what untested events added to the record, plus what locks and interruptions made it forget |
| `CampaignBills.UnshownFalls` | nepa/run_store.py:276-322 | no event hides more of its run's true cost from the record than a lock or an interruption conceals |
| `CampaignBills.FreshBilledWithin` | nepa/run_store.py:276-322 | with every lock taken on the file as it is and every update whole, the record hides nothing and the true cost is within the limit plus recorded overflow |
| `CampaignBills.LockBilledWithinIff` | nepa/run_store.py:89-98 | after such a history without recorded overflow, a lock on any copy leaves the true cost of every such continuation within the limit plus recorded overflow exactly when the record, with the copy in place of its file, would still show what the calls have cost |
| `CampaignOverflow.OverflowStopsCampaign` | nepa/run_store.py:268-293 | once any run.json records overflow, no later event of a history admits a reservation in any run, if no lock of the history is taken on a copy without overflow while run.json records some |
| `CampaignOverflow.LockKeepsStopIff` | nepa/run_store.py:89-98 | a lock on any copy leaves an overdrawn campaign stopped in every such continuation exactly when the copy has overflow or another run records some |
| `CampaignOverflow.FirstSaveKeepsOverflowIff` | nepa/run_store.py:173-185 | recorded overflow outlives a lock and the holder's first save exactly under that condition |
| `CampaignOverflow.StoppedStaysWithinIff` | nepa/run_store.py:173-202 | with overflow on record, a lock or interruption leaves the record of every later history of fresh locks and whole updates within limit plus overflow exactly when what the files show, less overflow, and what the event adds are within the limit together |
| `CampaignCaps.LoadFalls` | nepa/run_store.py:308-329 | an event that saves no admission raises what a run can put on a meter by at most its charge, which only untested events have |
| `CampaignFaults.InterruptionBreaksCap` | nepa/run_store.py:188-202 | a history in which the deadline signal interrupts a reservation and the final save outside the campaign lock pushes the record over the cap |
| `CampaignFaults.StaleLockBreaksCap` | nepa/run_store.py:89-98 | a history in which a run.json read before its lock is saved over a newer one and the record exceeds the cap with no overflow recorded |
| `CampaignFaults.StaleLockReopensCampaign` | nepa/run_store.py:89-98 | a history in which a lock on an old copy erases recorded overflow and another run is admitted again |
| `CampaignFaults.StaleLockBillsTwice` | nepa/run_store.py:89-98 | a history with whole updates in which a lock on an old copy lets twice the cap be billed while the record stays within it |
| `CampaignFaults.CutBillBreaksRunCap` | nepa/run_store.py:308-322 | a history in which a bill above the run cap, cut before its overflow is recorded, leaves run.json beyond the cap with no overflow |
| `CampaignSteps.Lock` | nepa/run_store.py:89-98 | a process that reads run.json and takes its lock does the state machine's two events |
| `CampaignSteps.ReserveCall` | nepa/run_store.py:276-306 | a granted reservation is an event the state machine allows and leaves the state it says; one refused in time changes nothing and is not allowed there either |
| `CampaignSteps.SettleCall` | nepa/run_store.py:308-322 | a settlement is the event that settles the call |
| `CampaignSteps.ReserveWithinCap` | nepa/run_store.py:276-306 | after any history of the campaign's processes, the next reservation of this process, granted or refused, leaves in the run.json files at most the limit, plus recorded overflow, plus what old copies and interruptions of the history added |
| `Tariff.TierReached` | nepa/llm/telemetry.py:21-24 | every smaller input count falls in the tier of some count the reservation prices that is at least as large |
| `Tariff.PriceIs` | nepa/llm/telemetry.py:15-35 | what a priced usage costs per million tokens: hits, misses and output at the rates of the least tier that fits the input, times the multiplier at quiet hours of the DeepSeek schedule, in full at busy or unknown hours and on flat ones; filed as flat, off-peak or peak accordingly |
| `Tariff.PricedIff` | nepa/llm/telemetry.py:17-24 | which usages have no price, with the error of each: negative counts, hits outside the input, input beyond the last tier |
| `Tariff.NothingIsFree` | nepa/llm/telemetry.py:30-31 | no tokens cost nothing |
| `Tariff.MillionOutput` | nepa/llm/telemetry.py:30-31 | a million further output tokens cost exactly the output rate times the share the start is charged |
| `Tariff.MillionInput` | nepa/llm/telemetry.py:30-31 | a million further input tokens of the same tier cost exactly its input rate when they miss the cache, its cache rate when they hit it, times that share |
| `Tariff.QuietIsCheaper` | nepa/llm/telemetry.py:26-31 | a quiet start on the DeepSeek schedule costs the multiplier times the busy price and is filed off-peak, a busy or unknown start costs the full price and is filed peak; a flat price knows no hours |
| `Tariff.ReservationIsDearest` | nepa/llm/telemetry.py:39-45 | a reservation is priceable exactly when its own count is, and is then the greatest full price without hits over its own count and every tier limit below it, one of which attains it |
| `Tariff.DearestBounds` | nepa/llm/telemetry.py:43-45 | the reservation is at least the price of each count it considers |
| `Tariff.ChargeBound` | nepa/llm/telemetry.py:25-31 | any split of the input into hits and misses costs at most the dearer of all hits and all misses, at any time of day |
| `Tariff.UsageCovered` | nepa/llm/telemetry.py:15-45 | a usage inside the reserved bounds is priceable and costs at most the reservation when the candidates priced as all hits do |
| `Tariff.ReservationConservativeIff` | nepa/llm/telemetry.py:15-45 | the reservation bounds every usage, cache split and start time inside its token bounds exactly when it bounds its candidate counts priced as all cache hits |
| `Tariff.CheapHitsSuffice` | nepa/llm/telemetry.py:40-45 | with no hit rate above its miss rate every reservation is conservative |
| `Tariff.DearHitsBreakReservation` | nepa/config.py:60-75 | a price the configuration accepts, with hits dearer than misses, whose reservation is exceeded |
| `LlmClient.RetriedLedger` | nepa/llm/client.py:228-257 | failed attempts conserve money and stay pending at the full reservation, under distinct rising numbers |
| `LlmClient.CompletedLedger` | nepa/llm/client.py:228-275 | a call that fails k times and then returns costs k full reservations plus its bill, and only the failures stay pending |
| `LlmClient.TryOnce` | nepa/llm/client.py:228-257 | one reservation and one attempt, other runs moving in between: refused as the admission rule says on what was on disk then; else the next free number, settled at the reply's price or kept pending |
| `LlmClient.Complete` | nepa/llm/client.py:216-275 | over any replies and any moves of other runs: at most three reservations under the next free numbers, the last settled exactly when the call returns and none when it raises, a retry only after a retryable fault, a refusal only as the admission rule says |
| `LlmClient.CompletionConserves` | nepa/llm/client.py:216-275 | however a completion ends, money is conserved, exactly its failed attempts stay pending, and its cost is theirs plus the bill |
| `LlmClient.EndSays` | nepa/llm/client.py:228-275 | all but the last attempt of a completion met a retryable fault; it returned exactly on an answer with a price, billed by it and counted by its tokens in and out, and raised for the last reply's own reason or for the first failing test of a refused reservation |
| `LlmClient.BoundedAnswerAddsNoOverflow` | nepa/llm/client.py:200-211 | an answer inside the prepared token bounds of a conservative price settles without overflow after any number of failures |
| `Checkpoints.StepSane` | nepa/run_store.py:331-355 | every event, interrupted ones and old copies included, keeps every copy consistent with the commits and the project of a process at work explained; a recovery ends at the checkpoint |
| `Checkpoints.UpdatesInOrder` | nepa/run_store.py:346-355 | which fields each number of updates of a session start, an action's end, an acceptance and a recovery has changed |
| `Checkpoints.Effects` | nepa/run_store.py:331-418 | what each event leaves, field by field: commits, a process at work or none, the copy read, the project |
| `Checkpoints.RecordEffects` | nepa/run_store.py:331-396 | the fields of run.json after each event of the process at work, whole or cut |
| `Checkpoints.CopyEffects` | nepa/run_store.py:398-418 | the fields of run.json after a recovery, whole or cut, or a refusal, from the copy that was read |
| `Checkpoints.StepRecoverableIff` | nepa/orchestrator.py:97-112 | every event keeps recovery possible, except an action's end, a recovery or a refusal interrupted, dead or saved outside a stated guard, and these exactly outside it |
| `Checkpoints.RefusedForGood` | nepa/run_store.py:398-418 | once recovery is impossible, every process that reads run.json from then on is refused and nothing changes any more |
| `Checkpoints.RecoveryRestoresCheckpoint` | nepa/run_store.py:398-418 | wherever a run died or was interrupted within those guards, a process that reads run.json then can recover, and leaves project and hashes at the accepted checkpoint, with task statuses, budget and commits untouched |
| `Checkpoints.StepRefinesIff` | nepa/run_store.py:346-355 | each event does to the accepted tree and passed tasks what it means, exactly under its guard: an acceptance cut after the status only if the checkpoint has the same tree, a save of an old copy only if that accepts the same |
| `Checkpoints.TornAcceptanceIff` | nepa/run_store.py:346-355 | an interrupted acceptance is either done or undone exactly under that guard |
| `Checkpoints.CrashingRunRefines` | nepa/run_store.py:331-418 | a run that dies, is interrupted and recovers any number of times within those guards has the accepted tree and passed tasks of the crash-free run making only its acceptances, session starts and surrenders |
| `Checkpoints.HalfRecoveryRepeatableIff` | nepa/run_store.py:406-418 | a recovery that died or was interrupted half way can be repeated exactly when an action was pending or the tree it left is the recorded one |
| `Checkpoints.HalfRecoveryStuck` | nepa/run_store.py:404-418 | a reachable run whose interrupted recovery is refused from then on |
| `Checkpoints.InterruptedFinishStuck` | nepa/run_store.py:339-344 | a reachable run whose interrupted end of an action is refused from then on |
| `Checkpoints.InterruptedAcceptLosesFiles` | nepa/run_store.py:346-355 | a reachable run with a passed task whose files recovery has thrown away |
| `Checkpoints.StaleRecoveryUndoesAcceptance` | nepa/run_store.py:89-98 | a reachable run whose accepted task is undone by a recovery from an older run.json |
| `Checkpoints.StaleRefusalStuck` | nepa/orchestrator.py:97-112 | a reachable run that a refused, saved older run.json makes unrecoverable |
| `Checkpoints.RestoredIsCheckpointIff` | nepa/tools/git_ops.py:25-32 | restoring a commit over a project gives exactly the committed tree exactly when the project has no other files, so recovery moves it away first |
| `ActionStore.Store.Begin` | nepa/run_store.py:331-337 | refuses exactly when the project changed unrecorded, changing nothing; else only the pending action is recorded, which is the protocol's start event |
| `ActionStore.Store.Finish` | nepa/run_store.py:339-344 | the pending action is cleared and the project's hashes recorded, saved and nothing else, which is the protocol's finish event |
| `ActionStore.Store.FinishCut` | nepa/run_store.py:339-344 | the end of an action cut after none, one or both of these updates and saved is the protocol's interrupted finish |
| `ActionStore.Store.Pass` | nepa/run_store.py:346-355 | the project is committed, the task passed, the commit accepted, the hashes recorded, current task and pending action cleared, saved and nothing else, which is the protocol's acceptance event |
| `ActionStore.Store.RecoverRun` | nepa/run_store.py:398-418 | on whatever copy was read before the lock: succeeds exactly when the project is the recorded one or an action was pending; with a current task or a pending action project and hashes are then the accepted commit and no action is pending, saved; else nothing changes |
| `ActionStore.Store.Resume` | nepa/orchestrator.py:60-66 | a resumption with its save is the protocol's recovery, or when refused its abandonment of the copy |
| `ActionStore.CrashAndRecover` | nepa/run_store.py:331-418 | a process that dies in an action after writing anything, or is interrupted at any update of its end, and the next one: back at the checkpoint with budget and statuses kept, exactly unless the interruption hit between the updates of an action that changed something |
| `Plan.AddBatches` | nepa/speclib/plan.py:40-49 | the batching loop appends the plan's batches of at most twelve and assigns each requirement, and no other, to the task of its batch |
| `Plan.CompilePlan` | nepa/speclib/plan.py:8-58 | compiling gives the plan with no follow-ups and the assignment of every requirement |
| `Plan.Relink` | nepa/run_store.py:438-439 | the renumbering loop makes each task depend on the one before it |
| `Plan.FollowUpExtends` | nepa/run_store.py:433-439 | inserting a follow-up before the end and relinking turns the plan with k follow-ups into the plan with k + 1 |
| `Plan.PlanShape` | nepa/speclib/plan.py:8-58 | every plan is one chain from bootstrap to final integration with the follow-ups, in order, just before the end |
| `Plan.PlanOrdered` | nepa/speclib/plan.py:16-57 | the kinds of task come in a fixed order and no task appears twice |
| `Plan.RequirementsPartitioned` | nepa/speclib/plan.py:40-49 | the tasks' primary requirements in plan order are exactly the specification's |
| `Plan.BatchesBounded` | nepa/speclib/plan.py:40-49 | no task has more than twelve primary requirements and exactly the batch tasks have some |
| `Plan.ValidClaimsCoverOnceIff` | nepa/speclib/plan.py:61-85 | claims pass exactly when they name each primary requirement once and each is grounded |
| `Plan.DistinctIffFullSize` | nepa/speclib/plan.py:64 | comparing a list's length with its set's detects exactly the repetitions |
| `Lifecycle.StepSound` | nepa/agents/session.py:111-196 | every step of the processes of one lineage of run.json keeps: follow-ups and repairs within limits, sessions and decisions within theirs per task, passed tasks in plan order with valid claims, delivery only of a passed plan; a session cut between its count and its status is a step, old copies and cut follow-ups are Resumption's events |
| `Lifecycle.Scheduled` | nepa/run_store.py:433-449 | a follow-up's task takes the place before final integration and no other task's state moves relative to the plan |
| `Lifecycle.DecisionsRecorded` | nepa/agents/session.py:124-127 | while every process works from the file its predecessor left, the recorded decision counters add up to the decisions made |
| `Lifecycle.LifetimeDecisions` | nepa/agents/session.py:111-127 | while every process works from the file its predecessor left, over any number of stops and resumptions, the decisions made are at most D * (S * (first plan's tasks + F) + R) |
| `Spending.StepSpends` | nepa/agents/session.py:111-196 | no step makes a decision the run did not have left, and none adds to what is left |
| `Spending.SpendAll` | nepa/agents/session.py:111-196 | from any sound state between sessions some history makes every decision that is left |
| `Spending.RemainingIsExact` | nepa/agents/session.py:111-196 | a bound holds of the decisions of every continuation exactly when it is at least what is left |
| `Spending.NewRemaining` | nepa/agents/session.py:111-127 | a new run has exactly D * (S * (first plan's tasks + F) + R) left, without F when S is 1, since no task then has a session to ask for a follow-up in, and nothing when S is 0 |
| `Resumption.NextSteady` | nepa/orchestrator.py:55-112 | every event, a lock or a refusal on any file ever read and a follow-up cut after any of its updates included, keeps every record and every copy sound: passed tasks in order, sessions and decisions within their limits |
| `Resumption.Effects` | nepa/run_store.py:420-450 | what each event leaves, field by field: copies, plan files, the lock, the plan, the counter and the entry of a follow-up, whole or cut |
| `Resumption.DecisionsAccounted` | nepa/agents/session.py:124-127 | over any history of any number of processes, every decision made is recorded or has been forgotten: by a lock, the recorded decisions of the file less those of its copy, or by a follow-up that replaces an entry, that entry's |
| `Resumption.DecisionsBoundedByForgetting` | nepa/agents/session.py:111-127 | the decisions ever made are at most D * (S * (first plan's tasks + F) + R) plus those forgotten |
| `Resumption.FreshAreRecorded` | nepa/orchestrator.py:55-66 | while processes work from the files their predecessors left and no follow-up is cut between its entry and the counter, every decision made is on record and within that bound |
| `Resumption.NextSpends` | nepa/orchestrator.py:55-112 | an event that gives no decision back (a lock on a record with no more potential than the one replaced, no replaced entry) makes none beyond the record's potential and does not raise it |
| `Resumption.LockWithinIff` | nepa/run_store.py:89-98 | after any history whatever, a lock on any copy leaves the decisions of every careful continuation within a bound exactly when those made so far and the copy's potential are within it |
| `Resumption.CarefulLifetime` | nepa/orchestrator.py:55-112 | careful histories of a new run make at most what it has left, and one makes as many |
| `Resumption.CutKeepsIdsIff` | nepa/run_store.py:445-449 | after a follow-up is cut, every continuation without another cut between entry and counter, on whatever files its processes work, keeps the plan's ids distinct exactly when this cut is not one between entry and counter |
| `Resumption.CutStopsIff` | nepa/run_store.py:445-449 | processes that work from the file a cut left do nothing with it exactly when the cut came between the active plan and the task's entry |
| `Resumption.SuccessAlwaysMeans` | nepa/orchestrator.py:74-97 | in every history, on whatever files its processes worked and wherever they were cut, a run recorded as a success passed its whole plan, delivered what passed the final checks, and its claims name every requirement exactly once |
| `Resumption.PassedAlwaysPrefix` | nepa/orchestrator.py:76-81 | at every moment of every such history the passed tasks are a prefix of the plan |
| `Resumption.NoBoundOnDecisions` | nepa/run_store.py:89-98 | for any number n, a history whose processes keep locking on the first file makes n times the first plan's decisions |
| `Resumption.BoundBroken` | nepa/run_store.py:89-98 | a run whose lifetime bound is three makes six decisions |
| `Resumption.LostFollowUp` | nepa/run_store.py:445-449 | for any limits with two sessions and a follow-up, a history in which a cut between entry and counter puts the same id in the plan twice |
| `Orchestrator.Orchestrator.AppendFollowUp` | nepa/run_store.py:420-450 | admits exactly when the task is not final integration, follow-ups and the task's sessions are left and the request is well formed; a refusal names the first of these that fails and changes nothing, an admission inserts exactly one follow-up |
| `Orchestrator.Orchestrator.TakeDecision` | nepa/agents/session.py:124-192 | one round: the task passes exactly when its claims check out, the build passes and, for final integration, the verification too; a follow-up is scheduled exactly when allowed; an error is raised exactly when the round raises one |
| `Orchestrator.Orchestrator.RunSession` | nepa/agents/session.py:112-192 | one session more, at most D decisions, passing the task or closing |
| `Orchestrator.Orchestrator.RunTask` | nepa/agents/session.py:111-196 | returns true exactly when the task passed; false outside a repair only when its sessions are used up |
| `Orchestrator.Orchestrator.FirstPending` | nepa/orchestrator.py:77-79 | finds the first task of the plan that has not passed, and none exactly when all have |
| `Orchestrator.Orchestrator.PassTasks` | nepa/orchestrator.py:74-81 | the first loop ends; it leaves every task passed, or reports exhaustion only of a task whose sessions are used up |
| `Orchestrator.Orchestrator.EveryTaskPassed` | nepa/orchestrator.py:83 | looking through the recorded task states is looking through the plan |
| `Orchestrator.Orchestrator.ExportDelivery` | nepa/orchestrator.py:18-53 | publishes exactly when the checks of a copy pass; a published delivery stands |
| `Orchestrator.Orchestrator.Repair` | nepa/orchestrator.py:88-95 | counts a repair and gives final integration one session |
| `Orchestrator.Orchestrator.DeliverOrRepair` | nepa/orchestrator.py:82-95 | the second loop ends; with a delivery that passed, or with all repairs used and nothing delivered |
| `Orchestrator.Orchestrator.Run` | nepa/orchestrator.py:55-112 | after any history of the run's processes, from the record it locked: always ends; exit code zero exactly when the run is left a success; exhaustion reported only when true; its decisions are all on record, and those of all processes are within the lifetime bound plus the decisions forgotten before |
| `Orchestrator.ExitCodes` | nepa/orchestrator.py:93-112 | zero only for success, and the code of each other end |
| `TypeClosure.ReachIsLeastClosed` | nepa/speclib/planning.py:21-29 | the types reachable from a message's fields are the least set holding its defined field types and closed under defined dependencies |
| `TypeClosure.Dependencies` | nepa/speclib/lint.py:47-51 | a type depends on exactly its item, length and base type and its members |
| `TypeClosure.Worklist` | nepa/speclib/planning.py:22-29 | the loop ends; what it takes is closed under roots and dependencies and inside every such closed set |
| `TypeClosure.NeededTypes` | nepa/speclib/planning.py:21-29 | the worklist ends on cyclic type graphs with exactly the reachable types |
| `TypeClosure.MessageContext` | nepa/speclib/planning.py:15-32 | the slice holds exactly the reachable types and exactly the requirements cited by the message, its fields or these types, each in specification order |
| `TypeClosure.SliceSelfContained` | nepa/speclib/lint.py:47-51 | every type name the slice uses is either not defined by the specification or defined in the slice |
| `Mqtt.EncodeRemaining` | gold_file/mqtt/acceptance/mqtt_behavior.py:157-163 | the loop writes the Remaining Length encoding of section 2.2.3 of MQTT 3.1.1 |
| `Mqtt.EncodingDenotes` | gold_file/mqtt/acceptance/mqtt_behavior.py:157-163 | an encoding is a well-formed digit string that denotes its length |
| `Mqtt.EncodingSize` | gold_file/mqtt/acceptance/mqtt_behavior.py:157-163 | k bytes suffice exactly for lengths below 128^k |
| `Mqtt.EncodingMinimal` | gold_file/mqtt/acceptance/mqtt_behavior.py:157-163 | no other digit string for a length is as short as its encoding |
| `Mqtt.EncodingInjective` | gold_file/mqtt/acceptance/mqtt_behavior.py:157-163 | different lengths have different encodings |
| `Mqtt.CanonicalIff` | gold_file/mqtt/acceptance/mqtt_behavior.py:206-222 | a digit string decodes and encodes back to itself exactly when it has no superfluous zero digit |
| `Mqtt.OverlongAccepted` | gold_file/mqtt/acceptance/mqtt_behavior.py:210-218 | a packet whose length has a superfluous zero digit is read, and is not the frame of what was read |
| `Mqtt.FrameReadsBack` | gold_file/mqtt/acceptance/mqtt_behavior.py:171-172 | every framed body up to 1 MiB reads back with its header, and what follows stays unread |
| `Mqtt.AcceptedParts` | gold_file/mqtt/acceptance/mqtt_behavior.py:206-222 | whatever is accepted is a header, at most four digits, as many bytes as they denote, and the rest |
| `Mqtt.AcceptedIsFrameIff` | gold_file/mqtt/acceptance/mqtt_behavior.py:206-222 | accepted bytes are the encoder's frame exactly when the digits have no superfluous zero |
| `Mqtt.Receive` | gold_file/mqtt/acceptance/mqtt_behavior.py:179-190 | reads exactly the bytes asked for under any schedule of short reads; end of stream and timeout reported exactly |
| `Mqtt.Client.ReadLength` | gold_file/mqtt/acceptance/mqtt_behavior.py:210-220 | the bounded digit loop reads what the length field denotes, with its size and continuation errors |
| `Mqtt.Client.ReadNext` | gold_file/mqtt/acceptance/mqtt_behavior.py:206-222 | one packet under any schedule of short reads is what reading the whole stream at once gives, errors included |
| `Mqtt.ReadSequence` | gold_file/mqtt/acceptance/mqtt_behavior.py:206-222 | any number of framed packets come back in order under any schedule, and the rest stays unread |
| `Searching.FindIsFirst` | gold_file/http/acceptance/http_behavior.py:186-192 | the search finds the first occurrence, if there is one |
| `HttpHead.ReadFields` | gold_file/http/acceptance/http_behavior.py:200-208 | the field loop gives the fields of the lines, last of two with one name, or the first line's error |
| `HttpHead.StatusIs` | gold_file/http/acceptance/http_behavior.py:194-199 | a status line is the protocol's version, a blank, three digits and a blank, exactly; with fewer parts or another version there is no status line, with another second part no status code |
| `HttpHead.FieldSays` | gold_file/http/acceptance/http_behavior.py:202-208 | a field line gives what follows its first colon, without the blanks around it, to what stands before it in small letters; a second length is refused |
| `HttpHead.FieldsNamed` | gold_file/http/acceptance/http_behavior.py:200-208 | accepted fields are exactly those the lines name, and the length is named at most once |
| `HttpHead.AcceptedHeadIsFixedLength` | gold_file/http/acceptance/http_behavior.py:200-214 | a head is accepted only with exactly one line that gives a decimal length and without a transfer coding, as section 6.3 of RFC 9112 needs |
| `HttpHead.RenderedParses` | gold_file/http/acceptance/http_behavior.py:193-214 | a status line and a Content-Length field, as a server writes them, parse as what they say |
| `Http.HeadInPrefixIff` | gold_file/http/acceptance/http_behavior.py:186-192 | a prefix holds the head exactly when it reaches the head's end, and then it is the same head |
| `Http.HeaderSizeIndependentIff` | gold_file/http/acceptance/http_behavior.py:186-191 | all read schedules agree that a response is not refused for its head's size exactly when nothing needs to be read or the largest read that may complete the head still fits |
| `Http.ChunkingDecides` | gold_file/http/acceptance/http_behavior.py:184-222 | a complete response with a head as long as the limit, read by two clients: one schedule reads it, another refuses it for size |
| `Http.Client.FillBuffer` | gold_file/http/acceptance/http_behavior.py:186-191 | the header loop ends as the schedule decides, losing no byte |
| `Http.Client.FillBody` | gold_file/http/acceptance/http_behavior.py:216-220 | the body loop holds exactly the bytes wanted or reports the stream's end |
| `Http.ReadIs` | gold_file/http/acceptance/http_behavior.py:192-222 | what a stream gives whose first blank line follows a header: the header's error; for an answer to HEAD no body, whatever length is stated, and all that follows left; else the stated number of bytes, unless they are too many or too few are there |
| `Http.HeadlessIff` | gold_file/http/acceptance/http_behavior.py:186-191 | reading ends before the head does exactly when the stream has no blank line |
| `Http.Client.Read` | gold_file/http/acceptance/http_behavior.py:184-222 | one response under any schedule is what reading the whole stream at once gives, errors included; the stream was the header, a blank line, the body and what is now left, the body as long as the header says, or empty for an answer to HEAD |
| `Http.SentReadsBack` | gold_file/http/acceptance/http_behavior.py:184-222 | a well-formed response at the front of a stream, to GET or to HEAD, is read exactly, as in section 6.3 of RFC 9112, the rest left as it is |
| `Http.ReadAll` | gold_file/http/acceptance/http_behavior.py:184-222 | pipelined responses to GET and HEAD requests in any order come back in order with exact bodies under every schedule, as in section 9.3.2 of RFC 9112 |
| `Http.RenderedWellFormed` | gold_file/http/acceptance/http_behavior.py:184-222 | a response with a status line and its length, written plainly, is such a well-formed response, and so is the answer to HEAD that states the length and sends nothing |
| `EventStream.LinesReadBackIff` | nepa/llm/providers/openai_compat.py:99-101 | lines come back exactly when no CR ending one line is followed by the LF ending an empty line |
| `EventStream.NoLineAdded` | nepa/llm/providers/openai_compat.py:99-101 | splitting never yields more lines than were written, and as many only without such a clash |
| `EventStream.SseEvents` | nepa/llm/providers/openai_compat.py:97-117 | the generator yields the events of the lines and ends with their error |
| `EventStream.FieldSays` | nepa/llm/providers/openai_compat.py:105-113 | a line's field is what stands before its first colon; its value is what follows without one leading space, and empty without a colon |
| `EventStream.ItemsRead` | nepa/llm/providers/openai_compat.py:102-115 | the data lines of a block add their values, comments and other fields nothing |
| `EventStream.StreamReadsBack` | nepa/llm/providers/openai_compat.py:97-117 | payloads come back as sent under LF, CRLF or CR line ends, also mixed ones that do not clash, with comments and event, id or retry fields in between |
| `EventStream.OneEndingIsUnambiguous` | nepa/llm/providers/openai_compat.py:99-101 | one line ending used throughout never clashes |
| `ChatStream.ParseChatStream` | nepa/llm/providers/openai_compat.py:148-260 | the loop over the generator assembles the answer the payloads make, joining collected pieces at the end and looking at nothing after the end marker |
| `ChatStream.AnsweredIff` | nepa/llm/providers/openai_compat.py:160-249 | a stream is answered exactly when it is marked as done after events each of which has one choice, none, or usage alone, names no model but the requested one, and has no empty finish reason and no bad usage, among which one names the model, one gives a finish reason and one the token counts, and no two tool deltas contradict each other |
| `ChatStream.RefusedFor` | nepa/llm/providers/openai_compat.py:168-232 | why one event is refused, the first objection counting, and exactly what an accepted one adds |
| `ChatStream.AssembleEnds` | nepa/llm/providers/openai_compat.py:160-249 | the error of every stream that is not answered: its first refused event, a malformed one, its end without a mark, or after the mark the first of usage, finish reason, model and identity that is missing |
| `ChatStream.AnswerTakesTheLast` | nepa/llm/providers/openai_compat.py:224-232 | the tokens in and out of an answer are those of the last event that gives any, its finish reason the last one given |
| `ChatStream.AnswerSays` | nepa/llm/providers/openai_compat.py:192-221 | an answer's text and reasoning are all that was delivered, and it has a tool call for each index a delta names, with all its pieces in order and the id and kind its deltas give |
| `ChatStream.AnswerIsFromRequested` | nepa/llm/providers/openai_compat.py:160-177 | every event behind an answer that names a model names the one requested |
| `ChatStream.CuttingUnseen` | nepa/llm/providers/openai_compat.py:160-260 | cutting an event's text, reasoning and tool deltas into two events anywhere changes neither answer nor error, in any stream |
| `ChatStream.ToolCutIsSame` | nepa/llm/providers/openai_compat.py:205-221 | cutting one tool delta's name and arguments in two is such a cut |
| `Observations.HeldIff` | nepa/agents/context.py:40-51 | an observation is held exactly while it is the latest of its read and every request since found its file at its version |
| `Observations.FreshExactly` | nepa/agents/context.py:41-51 | the observations a request offers are exactly the held ones whose files are as they were read |
| `Observations.ReceiptOutlivesContent` | nepa/agents/context.py:32-37 | a file changed and changed back between requests has the version its receipt promises content for, without the content |
| `CodingContext.ReceiptsMatch` | nepa/agents/context.py:58-73 | each call of each transaction has its receipt at its own place right after the message that made the calls, with that transaction's feedback |
| `CodingContext.OneReceiptEach` | nepa/agents/context.py:60-68 | no other row of the transaction answers the same call |
| `CodingContext.UnmatchedIff` | nepa/agents/context.py:60-66 | calls cannot be answered exactly when one has no id, an empty one, or that of an earlier call |
| `CodingContext.Context.Record` | nepa/agents/context.py:24-38 | the newest transaction is appended; a read's content moves to the observations and its receipt, with the read and the version and without the content, is kept; the latest diagnostic is replaced exactly by a finish, a gate's report, an error, a nonzero exit or a time-out |
| `CodingContext.Context.DropStale` | nepa/agents/context.py:41-51 | the loop keeps exactly the observations whose files have their versions, in order |
| `CodingContext.Context.Compose` | nepa/agents/context.py:53-73 | the messages of all transactions held, or the error of unmatched calls exactly when some transaction has them |
| `CodingContext.Context.Request` | nepa/agents/context.py:40-90 | ends; the request fits and repeats fresh observations and the latest diagnostic, the transactions kept are a suffix with every longer suffix too big, and it fails only when the newest transaction alone does not fit; over the context's life an observation is held exactly while it is its read's latest and every request since found its file at that version |
| `Merge.ContainsTransitive` | nepa/spec_extract/compile.py:92-97 | structural containment of JSON trees composes |
| `Merge.SurvivorCovers` | nepa/spec_extract/compile.py:83-119 | unless a conflict is recorded for a key, the surviving value covers every candidate seen for it |
| `Merge.JudgeIs` | nepa/spec_extract/compile.py:89-119 | how a candidate stands to the one held: the same, richer, poorer, or in conflict exactly when neither contains the other, and then it replaces the held one exactly when it is more trusted, or as trusted and more specific |
| `Merge.NoOrderConflictsIff` | nepa/spec_extract/compile.py:83-119 | no order of a key's candidates conflicts exactly when every two of them are comparable |
| `Merge.CleanOrderExistsIff` | nepa/spec_extract/compile.py:83-119 | a key's candidates merge in some order exactly when one of them covers all the others |
| `Merge.OrderIndependentIff` | nepa/spec_extract/compile.py:83-119 | whether they conflict is independent of their order exactly when every two are comparable or none covers all the others |
| `Merge.OrderMatters` | nepa/spec_extract/compile.py:98-119 | three definitions that merge in one order and conflict in another |
| `Merge.ListFreeAntisymmetric` | nepa/spec_extract/compile.py:92-97 | values without lists that contain each other are equal |
| `Merge.FlatListsInterchangeableIff` | nepa/spec_extract/compile.py:92-97 | lists of scalars contain each other exactly when they have the same elements, so differently ordered ones merge without a conflict |
| `SpecCompiler.Compiler.Cite` | nepa/spec_extract/compile.py:25-40 | the requirement a claim cites is emitted with its wording; a wording met before keeps its first requirement; the claim is mapped and joins the ones cited |
| `SpecCompiler.SameNodeIff` | nepa/spec_extract/compile.py:83-86 | two claims are for one node exactly when both are fields of one name in one message, or of one other kind with one id, a missing id counting as the kind's name |
| `SpecCompiler.Compiler.Meet` | nepa/spec_extract/compile.py:83-119 | a claim for a key already held is a repetition, a merge either way, or a conflict with two gaps, and the node changes exactly when the claim is richer or outranks |
| `SpecCompiler.Compiler.FileNode` | nepa/spec_extract/compile.py:83-119 | filing a claim keeps every key's node the fold of the claims seen for it, conflicts on record |
| `SpecCompiler.Compiler.Take` | nepa/spec_extract/compile.py:42-119 | a requirement claim is cited; one without a place in the output or without a value is a gap; a new node is held; a repetition or merge is mapped and a contradiction makes two gaps; every claim so far is mapped, in a gap, held, or displaced by a mapped superset |
| `SpecCompiler.Compiler.EmitNode` | nepa/spec_extract/compile.py:129-154 | each node is mapped for its evidence and its entry, for its evidence alone and left as a gap with nested fields, mapped as the protocol, or left for its message; the output gains exactly that entry |
| `SpecCompiler.Compiler.EmitEntry` | nepa/spec_extract/compile.py:134-154 | a structural claim cites its evidence and is emitted, or is a gap with nested fields; citations stay known and ids distinct |
| `SpecCompiler.Compiler.EmitField` | nepa/spec_extract/compile.py:155-175 | a field that joins the first message with its parent's id is cited and mapped, any other is a gap |
| `SpecCompiler.Compile` | nepa/spec_extract/compile.py:17-176 | the wording of every requirement claim leads to an emitted requirement, the digest of the first claim so worded; every emitted requirement is the digest of such a first claim, with its wording; those cited are the requirement claims, the structural nodes and the joining fields, in order; every claim ends mapped, in a gap, or displaced by a mapped superset under its key, and every id on either list is there for a stated reason; every citation names an emitted requirement, ids are distinct, a key's node covers every claim for the key unless two that cannot be merged are both gaps, and the output is exactly what the nodes make |
| `SpecCompiler.CitationsEvidenced` | nepa/spec_extract/compile.py:25-40 | citing any claims in any order leaves each wording with the digest of the first claim that has it, and as requirements exactly these digests, each with such a claim's wording |
| `SpecCompiler.BuiltExactly` | nepa/spec_extract/compile.py:133-154 | the types and messages are those of the type nodes and of the message nodes without nested fields, in their order, each with its node's id and the requirement of its node's wording |
| `SpecCompiler.TransportIsLast` | nepa/spec_extract/compile.py:133-154 | the transport is the last transport node's, and there is one exactly when there is such a node |
| `SpecCompiler.FieldedExactly` | nepa/spec_extract/compile.py:155-176 | a message keeps its entry and gains, in order, exactly the citations of the complete fields that name it first |
| `Segments.Cutter.Flush` | nepa/spec_extract/ingest.py:62-79 | ending a run appends one segment with exactly its lines |
| `Segments.Cutter.TakeLine` | nepa/spec_extract/ingest.py:80-95 | each line keeps: finished segments are whole labelled runs, the buffer the run up to here |
| `Segments.CutDocument` | nepa/spec_extract/ingest.py:57-96 | the segments hold exactly the document's lines that are not blank without their form feeds, in order; each is a run that could not be longer, with exactly its lines' text, section and page, and no form feed |
| `Segments.SegmentationUnique` | nepa/spec_extract/ingest.py:57-96 | two such segmentations of a document are equal |
| `Segments.RawLinesJoin` | nepa/spec_extract/ingest.py:80 | the lines of a document hold no line feed and joined with line feeds are the document |
| `Segments.CleanCounts` | nepa/spec_extract/ingest.py:81-84 | a cleaned line is the line without its form feeds, and the page moves by their number |
| `Evidence.LocatedSlice` | nepa/spec_extract/llm.py:63-73 | a located quote is a slice of its segment with exactly the words cited and nothing but white space between them; the cited text itself when it stands there |
| `Evidence.LocatedIff` | nepa/spec_extract/llm.py:63-73 | a citation is located exactly when some slice of the segment has its words |
| `Evidence.FoldedIs` | nepa/spec_extract/llm.py:78 | folding keeps the words in order and leaves single blanks between them |
| `Evidence.ResolvesIff` | nepa/spec_extract/llm.py:57-73 | a citation resolves exactly when its segment is known, it is not empty, and some slice of the segment has its words |
| `Evidence.SpanInsideSegment` | nepa/spec_extract/llm.py:74-77 | a span's line numbers lie inside its segment |
| `Evidence.LineHolds` | nepa/spec_extract/llm.py:75-76 | counting line feeds before a position of joined lines gives the line that holds the position |
| `Evidence.ParseItem` | nepa/spec_extract/llm.py:45-79 | the citation loop resolves every citation or gives the first one's error |
| `Evidence.CitationsAre` | nepa/spec_extract/llm.py:48-52 | an item without citations cites the one segment that holds its quote word for word, and nothing when none or several do |
| `Evidence.RejectedIff` | nepa/spec_extract/llm.py:45-60 | an item is rejected without evidence exactly when its quote is blank, without citations exactly when it cites nothing, and for a citation exactly when one does not resolve |
| `Evidence.FirstDecides` | nepa/spec_extract/llm.py:56-73 | of the citations that do not resolve the first decides the rejection |
| `Evidence.SupportedIff` | nepa/spec_extract/llm.py:78-79 | an item whose citations resolve is accepted exactly when its folded quote is found in what they hold, joined and folded |
| `Evidence.AcceptedIsFaultless` | nepa/spec_extract/llm.py:45-95 | every accepted claim's spans pass the second check, one per citation in order |
| `Evidence.AcceptedInsideDocument` | nepa/spec_extract/llm.py:45-95 | every citation of a claim accepted over a document's segments names a segment of it, lines inside that segment, and characters of it that are the quote |
| `Evidence.AcceptedOnLines` | nepa/spec_extract/llm.py:74-77 | the first and the last position of every accepted citation lie on the lines of the document that it records, whose characters stand there |
| `Evidence.FaultlessIff` | nepa/spec_extract/evidence.py:21-37 | the second check finds no fault exactly when the segment is known and the characters are the quote |
| `Evidence.FaultsAre` | nepa/spec_extract/evidence.py:25-36 | which faults a span has: an unknown segment alone, or a quote the segment does not hold and positions whose characters are not the quote, each exactly when it applies |
| `Evidence.ValidateEvidence` | nepa/spec_extract/evidence.py:21-37 | the loops report nothing exactly when no span of any claim has a fault |
| `Verdict.Supervise` | nepa/tools/verification_worker.py:13-45 | a row for every check in order, passed exactly when the structured result says true and the exit is zero, with the exit or none after a time-out; a pass exactly when there are checks and all required ones passed |
| `Verdict.Verify` | nepa/tools/verification.py:259-278 | passes exactly when there are builds and each one passes: some check is required, the rows are those of the checks in order, every row under a required check's name passed with exit 0, the checker exited 0 in time and said passed, and the server exited 0, not early, without a kill, a sanitizer's report or a cut in its log; each build is recorded with its execution and detail |
| `Verdict.JudgedIff` | nepa/report.py:18-37 | when the report calls a check passed or failed on a build, and which of the two: record, completeness, time, exit codes and the server's end, field by field |
| `Verdict.JudgedHasRow` | nepa/report.py:18-27 | a check is judged only from the sole record of the build and its first row for the check |
| `Verdict.ReportRequirement` | nepa/report.py:14-42 | unverified exactly without a required check mapped to the requirement or without builds, failed exactly when one is judged failed on some build, failed or incomplete exactly when one is not judged passed |
| `Verdict.PassedIsFine` | nepa/report.py:14-41 | a passed verification leaves every requirement with its scenarios passed or unverified |
| `Verdict.ScenariosPassedMeans` | nepa/report.py:22-41 | a requirement whose scenarios passed has, for every required check mapped to it and on every build, a row that passed with exit 0, in the only record of the build, which has a row for every check and no other, from a checker that ended in time with exit 0 or 1 and a server that exited 0, not early, without a kill, a sanitizer's report or a cut |
| `Verdict.ProducedIff` | nepa/tools/verification_worker.py:13-54 | the records a build can have, written out |
| `Verdict.AgreementIff` | nepa/report.py:9-47 | the two judgements agree on everything the checker can produce, time-outs, failures and missing results included, exactly when every required check cites a requirement |
| `Verdict.UncitedDisagrees` | nepa/report.py:14-47 | a failing required check that cites no requirement leaves every requirement fine and the verification failed |
| `Projection.ObservedAgain` | nepa/tools/verification.py:21-40 | filtering an observation again changes nothing, nested ones included |
| `Projection.ObservedExactly` | nepa/tools/verification.py:21-40 | an observation keeps exactly the keys whose value is of the kind its key carries |
| `Projection.ObservedIsSafe` | nepa/tools/verification.py:99-137 | a filtered observation is its own projection |
| `Projection.SafeByKind` | nepa/tools/verification.py:99-137 | which part of the projection an object meets, by the keys it holds, and which keys any other object keeps |
| `Projection.CheckSays` | nepa/tools/verification.py:90-94 | what a published check says under each key: passed only where the raw row says true, with the status to match |
| `Projection.DetailSays` | nepa/tools/verification.py:81-90 | what a published detail says under each key: the server's end as it was, of its output only that it is left out |
| `Projection.CategoriesSay` | nepa/tools/verification.py:85-86 | of the sanitizer's categories the three known ones are published, in their order |
| `Projection.VerificationSays` | nepa/tools/verification.py:66-96 | a published verification is marked as published and private, passes only where the raw result says true, and has every variant in order with its id, its pass and its detail |
| `Projection.StrippedIs` | nepa/tools/verification.py:110-114 | a container's command line keeps what follows the working directory and the image, nothing without a working directory; any other command stays |
| `Projection.CommandSays` | nepa/tools/verification.py:108-123 | what a published command says under each key, its output replaced exactly when the container failed with the daemon's words |
| `Projection.PublishedCleanIff` | nepa/tools/verification.py:99-137 | a published value holds nothing, at any depth, under a key kept on the host exactly when the values the projection hands on without looking into them hold nothing of the kind |
| `Projection.ListedIsPublished` | nepa/tools/verification.py:133-134 | whatever an object in a list inside a list holds is published |
| `Projection.ObservedIsPublished` | nepa/tools/verification.py:116 | whatever the observation of a command holds is published |
| `Projection.VerificationViewAgain` | nepa/tools/verification.py:66-96 | a published verification is its own projection: positions are kept, not derived again |
| `Projection.DetailAgain` | nepa/tools/verification.py:103-104 | projecting a detail outside a list of variants again changes nothing exactly when it has no source positions |
| `Projection.StrippedAgainIff` | nepa/tools/verification.py:110-114 | stripping a command twice strips no more exactly when what is left runs no container |
| `Projection.CommandAgain` | nepa/tools/verification.py:108-122 | projecting a command result again changes nothing exactly when its stripped command runs no container; a replaced error text stays |
| `Projection.SafeAgainIff` | nepa/tools/verification.py:99-137 | for any result, projecting again changes nothing exactly when the bare details in it have no source positions and its stripped commands run no container themselves |
| `Projection.StrippedTwice` | nepa/tools/verification.py:110-114 | a command that loses a second layer when projected again |

## Left out

- Docker, subprocesses, signals, sockets and HTTP transport: their results are arbitrary inputs (rounds, grants, outcomes, replies).
- JSON Schema and pydantic validation, JSON decoding and serialised bytes: decoded values are inputs; the wire size of a request is an arbitrary function of its messages.
- SHA-256: a tree stands for its hashes and an id for its digest, which takes hashing to be injective; git and the hash walk both ignore empty directories.
- Floating-point rounding of money and rates: amounts are `real`.
- The wall clock and the peak-hour calendar: whether the deadline has passed and the tariff period are arbitrary inputs.
- The refusal of old-schema run files when totalling campaign costs, and reconfiguration, which changes caps in mid-run.
- LlmClient.Complete: a run created by another process meanwhile counts as one that was there with nothing spent.
- Campaign: only the process that made a call settles it, as in the source; a call whose process died stays reserved.
- Checkpoints.StepRecoverableIff: append_followup's own updates are one event here; cut between them they are events of `Resumption`, which in turn lets any file ever read pass recovery or be refused.
- Resumption.RepeatsId: the goal of a follow-up whose id comes twice is not modelled, and when a session's own task is the one whose entry is replaced, what that process still does on the old entry is not; the model ends it there.
- Resumption.LockWithinIff: continuations in which a later lock gives decisions back, or an entry is replaced, are bounded by what they forget (`Resumption.DecisionsAccounted`), not by the potential of the copy.
- Task goals and contexts, model routing, prompts and secret redaction: they steer the model, not the state modelled here.
- Projection: the key tables, the word pattern, daemon error texts and the search for source positions are inputs that satisfy what the source's tables say; ids and categories of check rows are scalars.
- Orchestrator.Orchestrator.Run: its follow-up limit is the one its record leaves it, since a plan file that exists already refuses like the limit; a record with a task without an entry, at which the first loop raises, is not given to it; the sandbox image check and recovery's own refusals appear as an arbitrary fault before the first loop; a delivery changed after publication appears as none.
- Mqtt: `string`, `connect_packet` and the individual conformance exercises would add only easy members.
- ChatStream.ParseChatStream: ill-typed JSON is one malformed payload, the detail checks of usage objects are an input, tool calls are given by index rather than as the sorted list, and parameter support is not tracked.
- SpecCompiler.Compile: the key normalisation of values and the requirement's wording and digest are inputs, `specificity` is an arbitrary function, the protocol entry and the final lint gap are not built; roles are not derived.
- Merge: Python's equality of `True` and `1` is kept by modelling both as numbers.
- Segments.CutDocument: the segment kind and id are left out and the heading expression is an arbitrary function; the blank line appended to the document is the last flush.
- Evidence: claim kinds, confidence and candidate ids are not checked; white space is the ASCII kind.
- Verdict: rows without an id or with other JSON types are not modelled, and detail that is not a list is no rows; a verification whose containers could not be removed raises and leaves no record.
- Port choice, container clean-up, source locations, metrics, experiments, baseline collection and the command line.
