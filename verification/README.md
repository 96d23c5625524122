# A verified model of the trainer and its rollout manager

These Dafny modules model the integer, index and state logic of the trainer (`dsv41_train`) and the rollout manager
(`rollout_manager`) and prove what that logic is for. `dafny verify dfyconfig.toml` checks all of it.

Where the code changes state step by step, the model is a class or a method with a loop, proved equal to a specification
function; theorems about whole runs are lemmas about that function. Where the code computes a value, it is a function.
asyncio code becomes steps that are atomic between two awaits; what the environment does (completions, hook outcomes,
cancellation, the drain deadline, failures of reads and writes, timeouts) is an input, and every theorem is for all
inputs. A collective is a function on the sequence of what all ranks pass in. Tensor rows and contents are abstract
values, resource quantities and tensor elements of the adjoint theorems are reals, and a digest is the content it stands
for.

| area | modules |
|---|---|
| scheduler | `Resources`, `CoordinatorSpec`, `CoordinatorInvariants`, `CoordinatorAdmission`, `CoordinatorCompletion`, `CoordinatorTheorems`, `CoordinatorProgress`, `CoordinatorFairness`, `CoordinatorEvidence`, `CoordinatorStops`, `CoordinatorChecks`, `CoordinatorRun` |
| persistent streams | `StreamSpec`, `StreamCharges`, `StreamTheorems`, `StreamGroups`, `StreamOwners`, `StreamSubmissions`, `StreamResults`, `StreamReports`, `StreamWaves`, `StreamWaiters`, `StreamProgress`, `StreamEnds`, `StreamDeadlock`, `StreamSleepers`, `StreamRun` |
| expert routing | `Collectives`, `TokenDispatch` |
| context parallelism | `ContextParallel`, `ContextAdjoint` |
| microbatch planner | `Sorting`, `LearnerBatchPlanner` |
| row cache | `RowIds`, `RowCache` |
| snapshots | `ShardReassembly`, `DeltaRows`, `DeltaExport`, `EngramRollback` |
| distributed checkpoints | `CheckpointSpec`, `CheckpointTheorems`, `CheckpointSuccess`, `CheckpointLoad`, `Checkpoint`, `MasterCheck` |
| input cache | `InputCacheSpec`, `InputCacheTheorems`, `InputCacheUse`, `InputCache` |
| policy lifecycle | `MailboxSpec`, `MailboxTheorems`, `MailboxIssues`, `MailboxSteps`, `Mailbox`, `ActivationSpec`, `ActivationTheorems`, `ActivationCauses`, `Activation`, `GroupAssembly`, `BoundedLagSpec`, `BoundedLagTheorems`, `BoundedLag` |

`Basics` and `Wrappers` hold what several of them share.

## Model

| member | source | states |
|---|---|---|
| CoordinatorSpec.ValidatedIsAdmissible | rollout_manager/coordinator.py:393-422 | A plan list that passes every check of `run` meets exactly what the theorems about runs assume of it. |
| CoordinatorChecks.AcceptedIff | rollout_manager/coordinator.py:393-422 | A run accepts a plan list exactly if its plans are different episodes of one run for registered backends, every backend-stage executor can be given to one backend, every episode fits its executor alone, and under terminal waves each group finds workers and room together. |
| CoordinatorRun.Run | rollout_manager/coordinator.py:436-577 | The loop on mutable fields, over any schedule of completions, hook outcomes, cancellations and deadlines, ends in the specified state and hands back one result per plan in input order. |
| CoordinatorRun.Coordinator.Iterate | rollout_manager/coordinator.py:436-551 | One turn of the loop, admission, wait, completions and drain, is the specified transition. |
| CoordinatorTheorems.IterateSafe | rollout_manager/coordinator.py:436-551 | Every turn keeps all invariants under both policies, whatever happens in it. |
| CoordinatorTheorems.ReservedIsHeld | rollout_manager/coordinator.py:43-65 | At every step reserved is the sum of the charges still held, quarantined the sum of the quarantined ones, no capacity is exceeded, and a charge is held exactly by a running or quarantined plan or a member of an unfinished wave. |
| CoordinatorTheorems.QuarantineNeverShrinks | rollout_manager/coordinator.py:60-65 | From any point of a run to any later one, no quarantined amount shrinks. |
| CoordinatorTheorems.EndsQuarantinedOnly | rollout_manager/coordinator.py:479-551 | When the loop has ended, normally, by cancellation or at the drain deadline, nothing runs and reserved equals quarantined. |
| CoordinatorTheorems.StoppedAdmitsNothing | rollout_manager/coordinator.py:437-478 | Once `stopped` is set no plan is admitted any more. |
| CoordinatorStops.RoundExplained | rollout_manager/coordinator.py:436-551 | After any schedule, one more turn stops, cancels, ends or drains the run for exactly the causes listed (a cancellation, a wave's admission hook, an unclean result, a wave that could not be closed, the passed deadline), and records nothing but first reports of running episodes and what the deadline left behind. |
| CoordinatorStops.CancelledAdmitsNothing | rollout_manager/coordinator.py:437-459 | From the turn on in which the run is cancelled or a wave's admission hook fails, nothing is admitted, that turn included. |
| CoordinatorStops.TroubledAdmitsNothing | rollout_manager/coordinator.py:503-548 | Nothing is admitted after a result that is unsafe, an infrastructure failure, not admitted or up for review, nor after a quarantined charge. |
| CoordinatorStops.ResultsAreReports | rollout_manager/coordinator.py:503-551 | Every recorded result is the first outcome reported for its plan in some turn, or says that the drain deadline left it behind. |
| CoordinatorStops.OverdueEnds | rollout_manager/coordinator.py:479-502 | A run cancelled in some turn has ended after any later turn that finds the deadline passed. |
| CoordinatorTheorems.OneResultEach | rollout_manager/coordinator.py:503-577 | Every plan gets one result under its own identity: it was admitted once and keeps its first recorded result for good, or was never admitted and the result says so. |
| CoordinatorProgress.NeverStalls | rollout_manager/coordinator.py:436-499 | While a trouble-free run has work left, every turn has an episode to wait for. |
| CoordinatorProgress.FinishesInTime | rollout_manager/coordinator.py:436-551 | As many turns in which something completes as there are plans end a trouble-free run, under both policies. |
| CoordinatorProgress.EverythingExecuted | rollout_manager/coordinator.py:436-577 | A trouble-free run that has ended executed every plan exactly once, with its own result, and reserves nothing. |
| CoordinatorFairness.NoOvertaking | rollout_manager/coordinator.py:460-478 | In one scan a later plan passes an earlier one of its executor only if the earlier one's group found no slot. |
| CoordinatorFairness.NothingIdles | rollout_manager/coordinator.py:460-478 | After a scan that leaves a worker free, a plan waits only for a group slot or because its executor has no room for it or for an earlier plan in the same queue. |
| CoordinatorEvidence.UnprovenStaysReserved | rollout_manager/coordinator.py:503-548 | A finished plan without proof of its cleanup keeps its charge for ever; under native groups every other finished plan's charge is released. |
| CoordinatorEvidence.WavesReleaseOnlyProven | rollout_manager/coordinator.py:525-548 | Once a wave member's charge is released, every member has a result that proves its cleanup. |
| CoordinatorEvidence.OldestWaveStarts | rollout_manager/coordinator.py:441-459 | With no wave held, the group of the plan that waits longest starts, whole and alone. |
| StreamRun.Replay | rollout_manager/coordinator.py:192-363 | The stream on mutable fields, over any interleaving of any groups, ends where the specification does, with every invariant. |
| StreamRun.StreamCoordinator.Submit | rollout_manager/coordinator.py:199-224 | A submission is checked as a whole and then plan by plan, each accepted plan claiming its backend-stage executor at once; it is refused with the specified error and keeps those claims, or adds its group and takes its input credit. |
| StreamSubmissions.TakenOnIff | rollout_manager/coordinator.py:192-224 | A group is taken on exactly if its plans are different episodes of one semantic group and one run, it continues the open stream (its run, a later sequence number than all before, within the input credit), and it can be run (backend registered, stages its own, every plan fits alone). |
| StreamSubmissions.OneRunPerStream | rollout_manager/coordinator.py:202-208 | In every run all plans ever taken on share one run identity, the plans of a group are different episodes of one semantic group, and the groups' sequence numbers increase strictly. |
| StreamSubmissions.ClosedForGood | rollout_manager/coordinator.py:365-389 | Closing takes effect exactly when every group has been handed back, and for good: nothing is taken on or changes any more. |
| StreamSubmissions.PausedIff | rollout_manager/coordinator.py:174-190 | A stream is paused exactly since a pause or its close, until a resumption while it is open and not cancelled. |
| StreamOwners.StageHasOneOwner | rollout_manager/coordinator.py:215-219 | In every run all plans ever accepted for one backend-stage executor belong to one backend. |
| StreamOwners.OwnersStay | rollout_manager/coordinator.py:215-219 | From any point of a run to any later one, no executor changes its owner. |
| StreamOwners.RefusalLeaves | rollout_manager/coordinator.py:199-224 | A refused submission leaves no group; it leaves the owners alone exactly if it was refused as a whole or no plan before the refused one claims an executor. |
| StreamOwners.RefusedGroupShutsOut | rollout_manager/coordinator.py:211-222 | A refused submission after which another backend is refused an executor that nobody uses. |
| StreamTheorems.ExecuteSound | rollout_manager/coordinator.py:226-363 | Every interleaving keeps the ledgers, the worker, group and input bounds, the phases of all groups, and which plan is charged, quarantined or on a worker. |
| StreamCharges.WaveSizeIsGreedy | rollout_manager/coordinator.py:297-301 | The next wave is the longest piece of the remaining plans within the worker limit and the capacity of empty executors. |
| StreamResults.WavesSplitTheGroup | rollout_manager/coordinator.py:291-342 | The settled waves follow one another from the group's first plan on, each within the worker limit and capacity alone, and split the group entirely unless the stream was cancelled. |
| StreamWaves.WavesAreMaximal | rollout_manager/coordinator.py:291-303 | In every run each settled wave is as long as it can be: it ends its group, has a plan for every worker, or has no room on empty executors for the group's next plan. |
| StreamResults.WavesSettleWhole | rollout_manager/coordinator.py:320-342 | Each settled wave was released whole, with results that prove cleanup, or is quarantined whole, with results none of which does. |
| StreamResults.OneResultPerPlan | rollout_manager/coordinator.py:291-363 | A finished group has one result per plan in caller order, even when cancelled midway; exactly the plans without proof of cleanup are quarantined. |
| StreamReports.ResultsAreReports | rollout_manager/coordinator.py:228-342 | Every recorded result is the outcome its one episode reported, or that with its cleanup put in doubt; where no episode ran it says so, and then the stream was cancelled. |
| StreamReports.ReportedOnce | rollout_manager/coordinator.py:228-263 | No episode reports twice: the one that runs has not reported yet. |
| StreamReports.WaveReleasedIff | rollout_manager/coordinator.py:312-342 | A settled wave was released exactly if each of its episodes that ran proved its cleanup, its admission hook did not fail, and its closing was certain. |
| StreamReports.CancelledIff | rollout_manager/coordinator.py:228-342 | A stream is cancelled exactly if somebody cancelled it, an episode ended in doubt, on infrastructure or up for review, an admission hook failed, or a wave in doubt settled. |
| StreamWaves.CancelledStartsNothing | rollout_manager/coordinator.py:228-238 | From a cancellation on no episode starts: every one that runs later was running then. |
| StreamResults.ReservedIsHeld | rollout_manager/coordinator.py:226-331 | At every step of every interleaving reserved and quarantined are the charges held and quarantined, within capacity, and workers, slots and input credit are within their limits. |
| StreamResults.AllReturnedLeavesQuarantine | rollout_manager/coordinator.py:238-250 | When all groups are handed back, reserved equals quarantined. |
| StreamProgress.ReservationNeverWaits | rollout_manager/coordinator.py:304-310 | With one group at a time a wave never waits: at its first check it is charged, or the stream is cancelled. |
| StreamResults.WorkerIsFree | rollout_manager/coordinator.py:226-227 | With one group at a time a worker is free for every plan of the running wave that waits for one. |
| StreamResults.NothingTakenBack | rollout_manager/coordinator.py:192-363 | Results handed back stay as they are, quarantined plans stay quarantined, and a cancelled stream stays cancelled and charges nothing more. |
| StreamWaiters.ExecuteDrowsy | rollout_manager/coordinator.py:228-250 | In every run somebody waits for a notification only while charges are held, none is quarantined, and some executor is limited. |
| StreamProgress.StuckIff | rollout_manager/coordinator.py:226-310 | In every reachable state with a group not handed back, no task can move exactly if all workers are held by plans that wait for room while a charged wave waits for a worker, and everybody else waits for room, a slot or a worker in vain. |
| StreamEnds.EndsOrSticks | rollout_manager/coordinator.py:226-363 | From every reachable state the tasks come by themselves, within a bound the state gives, to where every group is handed back or to the one deadlock. |
| StreamEnds.StepsAreFew | rollout_manager/coordinator.py:226-363 | In any run the tasks take at most twenty steps for each plan and twenty for each group, cancelled or not: nothing loops. |
| StreamProgress.CancellationWakesNobody | rollout_manager/coordinator.py:351-359 | Cancelling a stuck stream leaves it stuck exactly if all who wait for room have checked already. |
| StreamProgress.PausingFrees | rollout_manager/coordinator.py:174-184 | Once a cancelled stream is paused, it is not stuck. |
| StreamProgress.UniformNeverStuck | rollout_manager/coordinator.py:278-310 | Groups that all run in waves, or all without, never wait for each other for ever, for any number of concurrent groups. |
| StreamDeadlock.SomeRunSticksIff | rollout_manager/coordinator.py:192-310 | Some run of a configuration gets stuck if and only if its policy is native groups, backends with and without group hooks are registered, two groups may run at once, more input is allowed than there are workers, and some executor has a positive limit. |
| StreamDeadlock.StreamGetsStuck | rollout_manager/coordinator.py:226-237 | The smallest such stream, with a run after which no task can move. |
| StreamSleepers.AsleepIff | rollout_manager/coordinator.py:228-250 | In every run a task or plan sleeps exactly if it checked for room in vain, on a stream not cancelled, and since then no episode has ended, no wave has settled and nobody has paused or closed the stream. |
| StreamSleepers.SomeRunSticksForGoodIff | rollout_manager/coordinator.py:226-310 | Cancelling is no way out: the configurations of which some run is stuck, and still stuck after a cancellation, are exactly those of which some run gets stuck at all. |
| TokenDispatch.ExpertParallelRoundTrip | dsv41_train/dispatch.py:25-146 | For any number of ranks that divides the expert count, any tokens, in-range routes and expert functions, dispatch, local experts and combine give every rank exactly what the local dispatcher gives. |
| TokenDispatch.LocalIsReference | dsv41_train/dispatch.py:31-43 | The local dispatcher gives each token the sum, over its routes, of what the routed expert makes of its row and weight. |
| TokenDispatch.DispatchDelivers | dsv41_train/dispatch.py:68-107 | Rank d receives exactly the routes whose expert it holds, sender by sender, each sender's in original order. |
| TokenDispatch.RoutedAreOwned | dsv41_train/dispatch.py:58-66 | No rank is handed a route of an expert that it does not hold, and the local expert index is in range. |
| TokenDispatch.StableOrderIsBuckets | dsv41_train/dispatch.py:77-85 | The stable sort by owner lists rank 0's routes, then rank 1's, and so on, in original order. |
| Sorting.ArgsortInverts | dsv41_train/dispatch.py:109-120 | Sorting the positions of a permutation by its values gives its inverse. |
| Collectives.TransposedExchangeReturns | dsv41_train/dispatch.py:122-146 | An all-to-all followed by one with transposed splits returns every buffer to its sender. |
| Collectives.CountExchangeTransposes | dsv41_train/dispatch.py:82-90 | The exchange of the counts gives every rank its column of the split table. |
| LearnerBatchPlanner.PlanMicrobatches | dsv41_train/rl/learner_batch_planner.py:29-67 | The planner's loops: each error exactly in its case; fixed-size slices in input order without shapes; with shapes the greedy plan over the sorted responses, no longer than any packing. |
| LearnerBatchPlanner.GreedyIsMinimal | dsv41_train/rl/learner_batch_planner.py:49-67 | The plan has no more batches than any division of the responses, contiguous or not, into parts that fit some qualified cell. |
| LearnerBatchPlanner.PlanIsUnique | dsv41_train/rl/learner_batch_planner.py:49-67 | The greedy plan is unique: of the cells that take the most responses each batch gets the one with the fewest tokens, then the narrowest. |
| LearnerBatchPlanner.PlanCoversOnce | dsv41_train/rl/learner_batch_planner.py:49-67 | Every response is in exactly one batch, at one place, and every batch fits the qualified cell recorded for it. |
| LearnerBatchPlanner.PackingPreservesObjective | dsv41_train/rl/distributed_grpo.py:267-318 | However responses are sorted and packed, the accumulated objective is the sum of their losses over the group size. |
| RowCache.Cache.Read | dsv41_train/engram_offload.py:150-203 | A read that succeeds is the plain lookup of every requested id, or, if the table's storage has come back to the address the cache knows, exactly what the cached rows show; a failed read says why and leaves a sound cache. |
| RowCache.Cache.CapacityIsLargest | dsv41_train/engram_offload.py:64-82 | The cache has as many slots as the table has rows or, if that is fewer, as the budget pays for with their tags. |
| RowCache.Cache.ChunkIsLargest | dsv41_train/engram_offload.py:175-179 | A chunk of missing rows is as large as the budget and the staging limit both allow, and at least one row. |
| RowCache.Cache.Serve | dsv41_train/engram_offload.py:163-203 | Hits and misses are counted exactly; every occurrence gets its cached row or the table's, through duplicates, collisions and chunks; only a change during a CUDA lookup can fail it. |
| RowCache.Cache.Install | dsv41_train/engram_offload.py:137-148 | Every requested place gets its row; each slot goes to the largest id of the chunk that maps to it, and no other slot changes. |
| RowCache.Replay | dsv41_train/engram_offload.py:53-203 | Over any sequence of reads, updates, replacements and clears, with any interference inside reads, the cache stays within budget and direct-mapped, never writes a table, and every successful read is plain lookup unless some table's storage returned to an earlier address. |
| RowCache.StaleRead | dsv41_train/engram_offload.py:60-87 | A run in which storage returns to its first address and a read gives the row seen before. |
| ContextParallel.ShardIsPart | dsv41_train/cp.py:132-139 | Sharding succeeds exactly if the rank count divides the length, and gives rank r its consecutive part. |
| ContextParallel.GatherOfShards | dsv41_train/cp.py:141-149 | Gathering the shards of a tensor gives the tensor back. |
| ContextParallel.RingDelivers | dsv41_train/cp.py:38-63 | A ring exchange hands each rank its neighbour's whole buffer, and the sizes each rank expects are those sent. |
| ContextParallel.LeftHaloIsNeighbour | dsv41_train/cp.py:70-90 | Every rank but the first gets the end of its left neighbour's shard before its own. |
| ContextParallel.GatheredKeysAreTheRows | dsv41_train/cp.py:198-262 | For any rank count, rank, token and window place, halo and full gather both yield the key of the whole row, in range. |
| ContextParallel.GatherAttentionAccepts | dsv41_train/cp.py:151-162 | The gather is refused only for an empty window over several ranks. |
| ContextParallel.MasksTogether | dsv41_train/cp.py:198-254 | A token attends to a key in the whole row exactly if the rank that holds it has an unmasked window place for the key, and then only one; no other place is unmasked. |
| ContextParallel.PositionCounts | dsv41_train/cp.py:205-215 | A token's position is its distance from the first token of its sequence; a masked token is at 0. |
| ContextParallel.PackingKeepsRows | dsv41_train/cp.py:265-273 | Packed tokens keep the positions of their own rows and attend exactly to the tokens of their own row that they attend to there. |
| ContextAdjoint.LeftHaloAdjoint | dsv41_train/cp.py:66-116 | Summed over all ranks, halo output times any gradient equals input times the backward's result, for every halo length and ring size. |
| ContextAdjoint.AllGatherAdjoint | dsv41_train/cp.py:17-35 | The same for the gather and its all-to-all backward. |
| ContextAdjoint.AddReceived | dsv41_train/cp.py:92-116 | The in-place addition adds the received gradient to the last places and changes no other. |
| ShardReassembly.LayoutReader.Slice | dsv41_train/sft_source.py:153-179 | A rank's layout is accepted exactly if it is valid for the rank and the payload has the slice's length; the range is that slice, and its mesh remembers the rank. |
| ShardReassembly.LayoutReader.CheckMembers | dsv41_train/sft_source.py:117-119 | Every mesh must have been seen by exactly its members. |
| ShardReassembly.ReadPieces | dsv41_train/sft_source.py:92-121 | Reading all ranks succeeds exactly if all layouts fit and all meshes are complete, reports missing members exactly if only the latter fails, and places every payload. |
| ShardReassembly.CoverIffTiles | dsv41_train/sft_source.py:202-219 | The pass over the sorted pieces accepts exactly those that partition the rows, replicas being equal. |
| ShardReassembly.Cover | dsv41_train/sft_source.py:202-219 | The same for pieces in any order; what is kept has one piece of every range. |
| ShardReassembly.CopyTensor | dsv41_train/sft_source.py:235-245 | Copying chunk by chunk puts every row of every piece in its place, for any chunk size. |
| ShardReassembly.DeployedTiles | dsv41_train/sft_source.py:202-219 | What the ranks of a complete save wrote partitions the tensor, for any rank-to-mesh order, replicas, sharded meshes and empty tail shards. |
| ShardReassembly.DeployedReads | dsv41_train/sft_source.py:92-121 | A complete save is read back: its layouts fit, its meshes are complete, and the payloads are the pieces saved. |
| ShardReassembly.Reassemble | dsv41_train/sft_source.py:92-245 | Reading, covering and copying a complete save succeeds and rebuilds exactly the tensor, for any chunk size. |
| DeltaRows.CheckedIsValid | dsv41_train/rl/engram_state.py:63-81 | The checks on a delta accept exactly ascending in-range indices with one row each. |
| DeltaRows.SnapshotOfOverlay | dsv41_train/rl/engram_state.py:301-305 | Saving after installing a delta gives the delta back. |
| DeltaExport.GlobalRows | dsv41_train/sft_export.py:26-65 | Owners are accepted, in any order and with empty ones among them, exactly if each is in order and together they partition the table; the export is their join and valid. |
| DeltaExport.ExportIsOwnersRows | dsv41_train/sft_export.py:26-65 | The export over any base gives every row what its owner's own snapshot over its own range gives it. |
| EngramRollback.ReadBase | dsv41_train/sft_engram.py:42-66 | Reading run by run equals reading row by row; it fails exactly on a reader error or too many rows. |
| EngramRollback.SelectOmitted | dsv41_train/sft_engram.py:147-158 | The sorted search selects exactly the dirty ids the payload does not name. |
| EngramRollback.OwnerTable.Step | dsv41_train/sft_engram.py:106-113 | A sparse step makes the touched ids dirty, sorted and once each, and changes no other row; of repeated gradient ids the last wins. |
| EngramRollback.OwnerTable.StateDict | dsv41_train/sft_engram.py:118-123 | The saved rows over the base are the whole table. |
| EngramRollback.OwnerTable.Load | dsv41_train/sft_engram.py:124-170 | Whatever came before, a successful load leaves the base overlaid with the payload; a rejected one changes nothing. |
| EngramRollback.OwnerTable.LoadByFullRollback | dsv41_train/rl/engram_state.py:307-326 | Putting back all dirty rows from the mapped baseline ends exactly where the selective rollback ends. |
| EngramRollback.Replay | dsv41_train/sft_engram.py:106-170 | Over any interleaving of steps, saves and loads with failing reads, every save reproduces its moment's table and loading it brings that table back. |
| EngramRollback.LoadTables | dsv41_train/sft_engram.py:124-170 | All tables of an owner load, or a bad record leaves every one as it was. |
| CheckpointTheorems.SameCollectives | dsv41_train/sft_checkpoint.py:210-277 | With failures anywhere, all ranks call the same collectives in the same order and raise or return at the same one. |
| CheckpointTheorems.NeverHangs | dsv41_train/sft_checkpoint.py:24-34 | No rank waits in a collective for a rank that has gone. |
| CheckpointTheorems.ManifestMeansComplete | dsv41_train/sft_checkpoint.py:248-277 | In a fresh directory a manifest exists only if every rank file is complete under its recorded size and digest and all ranks agreed on step and identity. |
| CheckpointTheorems.ReturnMeansPublished | dsv41_train/sft_checkpoint.py:248-277 | If the save returns on any rank, the checkpoint is published and complete. |
| CheckpointSuccess.EndsAsItWent | dsv41_train/sft_checkpoint.py:210-277 | A save that has ended returned on every rank exactly if nothing went wrong on any rank in any phase; otherwise every rank raised at a phase to which something that went wrong belongs, and nothing went wrong that an earlier phase should have reported. |
| CheckpointSuccess.CleanSaveReturns | dsv41_train/sft_checkpoint.py:210-277 | Into a new directory, with valid ranks that agree and no failure, the save returns on every rank and the complete manifest is there, in whatever order the ranks work between the four collectives. |
| CheckpointSuccess.FourRoundsEnd | dsv41_train/sft_checkpoint.py:210-277 | Once every rank has worked and all have met four times, whatever else happened, the save has ended on every rank. |
| CheckpointSuccess.FilesWritten | dsv41_train/sft_checkpoint.py:234-260 | A rank's file holds what the rank saves exactly from when it replaced it, and is as it was until then; the directory is there from the first mkdir or file on. |
| CheckpointSuccess.ManifestWritten | dsv41_train/sft_checkpoint.py:261-277 | The manifest is the job's, with its step, identity and records, exactly from when rank 0 replaced it with all ranks agreed and every file visible at its size, even if what followed failed; until then it is as it was. |
| CheckpointTheorems.ManifestNeverReplaced | dsv41_train/sft_checkpoint.py:236-243 | The manifest of an existing directory is never replaced. |
| CheckpointTheorems.ExistingUntouched | dsv41_train/sft_checkpoint.py:234-243 | When whatever makes mkdir fail has a text, saving into an existing directory leaves it as it was. |
| CheckpointTheorems.ExistingChangesIff | dsv41_train/sft_checkpoint.py:234-248 | When all ranks have met after mkdir in an existing directory, some way to go on changes the directory if and only if the exception had no text and some rank has something else to save than what is there. |
| CheckpointTheorems.FailedMkdirStops | dsv41_train/sft_checkpoint.py:24-34 | A failed mkdir stops all ranks at its collective exactly if its exception has a text; otherwise all go on. |
| CheckpointTheorems.ExistingOverwritten | dsv41_train/sft_checkpoint.py:227-243 | A run in which a bare `MemoryError` lets a save overwrite an existing checkpoint's rank file. |
| CheckpointLoad.MutatesOnlyValidated | dsv41_train/sft_checkpoint.py:280-346 | If any rank changes its live state, every rank has validated its own file. |
| CheckpointLoad.RefusedTogether | dsv41_train/sft_checkpoint.py:280-346 | One rank that cannot validate keeps all live states as they were, and all ranks raise together. |
| CheckpointLoad.LoadDecides | dsv41_train/sft_checkpoint.py:280-326 | When every rank has tried and all have met: if every rank's first attempt passed its checks all go on to their live state, else all are refused and nothing is touched, whatever follows. |
| CheckpointLoad.CleanLoadRestores | dsv41_train/sft_checkpoint.py:280-346 | If every rank's first attempt passes and no restore of a rank fails, the rank ends up with what the checkpoint holds for it, at the checkpoint's step. |
| CheckpointLoad.EndedForGood | dsv41_train/sft_checkpoint.py:326-346 | A rank whose load has ended keeps its live state. |
| CheckpointLoad.ChecksAccept | dsv41_train/sft_checkpoint.py:280-320 | A complete checkpoint is accepted exactly for the same world size, identity and schema. |
| CheckpointLoad.AcceptedIsComplete | dsv41_train/sft_checkpoint.py:280-320 | Whatever is on disk, all ranks accept it exactly if it is the complete checkpoint of a job with their identity and layouts. |
| CheckpointLoad.SaveThenLoad | dsv41_train/sft_checkpoint.py:210-346 | After a save that returned, a load that returns restores on each rank exactly what it saved, whatever happened to the rank files meanwhile. |
| Checkpoint.Run | dsv41_train/sft_checkpoint.py:210-277 | The save on mutable state, over any interleaving of ranks and failures, is the specified protocol and keeps its invariants. |
| MasterCheck.Check | dsv41_train/sft_checkpoint.py:151-168 | The bounded recursive comparison accepts exactly if at every index both values are finite and the master rounds to the parameter, and never compares more than the limit at once. |
| MasterCheck.EqualMatches | dsv41_train/sft_checkpoint.py:157-168 | Comparing a slice axis by axis is comparing it at every index in it. |
| InputCache.Serve | rollout_manager/input_cache.py:182-307 | The cache on mutable maps, over any sequence of requests, is the specified one and keeps every invariant. |
| InputCacheTheorems.HandleSound | rollout_manager/input_cache.py:324-350 | Every request of any caller keeps the byte and entry limits, the mirror of leases, one live producer per key, and the copy limits. |
| InputCacheTheorems.HitsReturnPublished | rollout_manager/input_cache.py:228-283 | After any requests a hit returns what was last published under its key, and the consumer's leased bytes stay within its limit. |
| InputCacheTheorems.PinnedSurvives | rollout_manager/input_cache.py:182-283 | Through every acquisition by anybody, an entry that is leased or being generated stays as it is, but for the lease a hit adds to it. |
| InputCacheTheorems.SpaceIsThorough | rollout_manager/input_cache.py:192-200 | Eviction gives up only when no entry of the tier is unused. |
| InputCacheTheorems.OldestFirst | rollout_manager/input_cache.py:192-200 | An unused entry that survives making room protects every entry listed after it. |
| InputCacheUse.OrderIsByLastUse | rollout_manager/input_cache.py:228-283 | After any sequence of requests the entries are listed by the last request that hit or reserved them. |
| InputCacheUse.LeastRecentlyUsedFirst | rollout_manager/input_cache.py:192-200 | After any sequence of requests, if an acquisition leaves an unused entry in its place, it leaves every entry of that tier that was hit or reserved later. |
| InputCacheUse.AcquisitionsAnswered | rollout_manager/input_cache.py:228-283 | Every acquisition is answered exactly so: refused, made to wait, bypassed, leased within the copy budget, or reserved in the first tier that has room once everything unused has given way, and bypassed exactly if none has. |
| InputCacheUse.EntryFate | rollout_manager/input_cache.py:182-307 | Exactly what a request does to an entry: its producer gives it up or publishes it once within its reservation, an unused one may be evicted for another key, a clear without consumers forgets it; otherwise only leases come, or go back by their own consumer. |
| InputCacheUse.OthersAnswered | rollout_manager/input_cache.py:202-226 | A new consumer gets its own token; publications, releases, ends, aborts and clears succeed exactly in their cases; no request touches another consumer's record. |
| InputCacheUse.MetricsCount | rollout_manager/input_cache.py:228-307 | Hits, misses, bypasses and publications are the numbers of requests so answered. |
| InputCacheUse.EvictionsCounted | rollout_manager/input_cache.py:182-200 | An acquisition conserves entries and bytes, the evicted ones being counted; no other request counts one. |
| InputCacheTheorems.EndSound | rollout_manager/input_cache.py:216-226 | Retiring a consumer frees its leases, its unfinished entries and its record, and loses no published content. |
| Mailbox.Run | dsv41_train/rl/manager.py:100-196 | Manager and learner on mutable fields, over any interleaving, are the specified machine and keep its invariants until a refusal. |
| Mailbox.Manager.Commit | dsv41_train/rl/manager.py:124-135 | A commit is refused without effect or forgets the oldest delivered groups and moves the cursor behind them. |
| MailboxTheorems.MailboxIsExact | dsv41_train/rl/manager.py:88-98 | Until a refusal: retained ids plus the one in flight are exactly the range from committed to next; delivered ids are its prefix, those the learner holds, in order; the mailbox is bounded; and between restarts no id is issued twice. |
| MailboxTheorems.RunIsSafe | dsv41_train/rl/manager.py:46-195 | Every run, with restarts anywhere, keeps the invariants, and nothing but a refused commit ever fails it: no packet is newer than the learner and no checkpoint is rejected. |
| MailboxTheorems.CommitsAccepted | dsv41_train/rl/runtime.py:477-513 | Without excluded packets every commit of every interleaving is accepted. |
| MailboxTheorems.RefusedIff | dsv41_train/rl/runtime.py:477-513 | Taking a packet ends the run exactly if the packet is excluded and a group has been kept for the step. |
| MailboxTheorems.ExclusionAfterKeptGroupIsRefused | dsv41_train/rl/runtime.py:488-492 | A run in which this happens. |
| MailboxSteps.TrainsExactly | dsv41_train/rl/runtime.py:504-532 | The learner trains exactly if it has its groups and the manager has drained; the step commits these groups, none of them excluded or too old, checkpoints the new step with the manager's cursors, drop count and remaining packets, and resumes sampling under the new version. |
| MailboxSteps.EveryStepIsSaved | dsv41_train/rl/runtime.py:511-527 | At any time of any run the learner's step is the one of its last checkpoint, and the committed groups are those dropped plus groups-per-step for each step; the same holds of what the checkpoint keeps. |
| MailboxSteps.RestartKeepsTheStep | dsv41_train/rl/manager.py:46-58 | A restart, whenever it comes, keeps the step and its version: it loses drops and samples, but no training. |
| MailboxSteps.RestartAfterStep | dsv41_train/rl/runtime.py:511-532 | A restart right after a step resumes with the step's version, both cursors, and the packets not trained on, to be delivered again. |
| MailboxSteps.OnlyTrainingSteps | dsv41_train/rl/runtime.py:504-532 | Nothing but such a step changes the learner's step. |
| MailboxSteps.ReceiveDoes | dsv41_train/rl/runtime.py:477-503 | In every state of a run the next packet is kept exactly if it is neither excluded nor too old, and else dropped with the cursor past it, or refused after a kept group. |
| MailboxSteps.DispatchDoes | dsv41_train/rl/manager.py:174-195 | In every state of a run a group is started exactly if sampling is open, none is in flight, and both mailbox bounds leave room, stated by the cursors. |
| MailboxSteps.CommitAcceptsIff | dsv41_train/rl/manager.py:124-135 | A commit is accepted exactly if the ids given, consumed and dropped in any order, are the oldest retained ones, each once and all delivered. |
| MailboxSteps.RestoreAcceptsIff | dsv41_train/rl/manager.py:46-58 | Recovery state is accepted exactly if its packets are those of an open range that the mailbox can hold. |
| MailboxSteps.SnapshotsRestore | dsv41_train/rl/manager.py:88-98 | A snapshot can be taken exactly when what it holds can be restored: while no group is being sampled. |
| MailboxSteps.AlwaysGoesOn | dsv41_train/rl/manager.py:100-196 | Learner and manager are never both stuck: short of a refusal some event other than a restart changes the state. |
| MailboxIssues.IssuedAgainIff | dsv41_train/rl/manager.py:177-195 | The next id was given out before exactly if the cursor has been further on at some time of the run. |
| MailboxIssues.RestartRepeats | dsv41_train/rl/manager.py:46-58 | After however many restarts, one more gives out again exactly the ids from the saved cursor up to the highest cursor the run has reached. |
| MailboxIssues.FirstRestartRepeatsNothingIff | dsv41_train/rl/manager.py:46-58 | A first restart repeats no id exactly if the live cursor is the saved one. |
| MailboxIssues.NeverWithoutRestart | dsv41_train/rl/manager.py:177-195 | Without a restart the next id is always new, and the cursor is at its highest. |
| MailboxIssues.RestartIssuesAgain | dsv41_train/rl/manager.py:46-58 | A run in which a restart issues an id again. |
| GroupAssembly.GroupAssembler.Register | rollout_manager/benchmark_training.py:112-121 | A group is taken on exactly if its id is new and highest and its episodes are new and find room. |
| GroupAssembly.GroupAssembler.Complete | rollout_manager/benchmark_training.py:123-175 | A result counts once; the last sibling, and no earlier one, closes the group with one receipt, results in registered order, and gives its episodes' room back. |
| GroupAssembly.Judge | rollout_manager/benchmark_training.py:135-171 | The loop over the samples and the group's own construction: trainable exactly if every sample is eligible and sample and request identities are the samples' own; otherwise refused with every sample at fault in order, or else with what is wrong with them together. |
| GroupAssembly.QualifiesIff | rollout_manager/benchmark_training.py:135-171 | A group qualifies exactly if the checks find no fault with any sample and neither a sample identity nor a request of the group occurs twice. |
| GroupAssembly.ReceiptIs | rollout_manager/benchmark_training.py:123-175 | The one receipt of a complete group: its results in registered order and the lease, or every fault in order, or else the repeated sample, or else the shared request. |
| GroupAssembly.NoFaultIsEligible | rollout_manager/benchmark_training.py:138-164 | The checks on one sample find no fault exactly if its source, reward, turns, policy, delivery records and context are as required. |
| GroupAssembly.RequestsApart | rollout_manager/training.py:266-268 | Comparing all requests of the group at once finds exactly those repeated within a sample or shared by two. |
| Activation.Run | rollout_manager/benchmark_training.py:325-509 | The provider on mutable fields, over any interleaving of producer and control calls, is the specified machine and keeps its invariants. |
| ActivationTheorems.InstalledOnlyWhenDrained | rollout_manager/benchmark_training.py:463-491 | A policy is installed only with no group in flight and one unspent drain receipt, and is newer than all before it. |
| ActivationCauses.InstalledAreAcknowledged | rollout_manager/benchmark_training.py:463-491 | The policies installed in a run are exactly those whose own activation the controller acknowledged, in order, and there are as many receipts as drains it proved. |
| ActivationCauses.EffectsHaveCauses | rollout_manager/benchmark_training.py:418-506 | Every installation follows the acknowledgement of that very activation, every receipt the proof of that very drain, and every reopening the acknowledgement of that very resumption. |
| ActivationCauses.ErrorIffTroubled | rollout_manager/benchmark_training.py:269-288 | An error is recorded exactly if a caller gave up, the producer failed or the controller did not acknowledge a policy; and outside an activation the last installed policy is in force. |
| ActivationCauses.LearnerTurn | rollout_manager/benchmark_training.py:418-506 | A whole pause, activation and resumption with any answers of the controller: exactly when the receipt is granted, the version installed, the old policy put back with an error, and the provider reopened. |
| ActivationCauses.ProducerTurn | rollout_manager/benchmark_training.py:325-387 | A whole group: exactly when it is leased, when it leaves a packet, and when the producer fails. |
| ActivationCauses.ClosedLeasesNothing | rollout_manager/benchmark_training.py:325-333 | Once the provider is closing no further group is leased. |
| ActivationCauses.FlagsIff | rollout_manager/benchmark_training.py:269-288 | The provider is cancelled, closing or timed out exactly from the event on that says so. |
| ActivationCauses.TakenInOrder | rollout_manager/benchmark_training.py:389-396 | Packets are taken one by one, the oldest first, and stay until committed. |
| ActivationCauses.CommitsIff | rollout_manager/benchmark_training.py:444-458 | A commit succeeds, and removes exactly what is retained before its end, if all of that is delivered, nothing is missing and nothing excluded was trained on; otherwise nothing changes. |
| ActivationTheorems.SnapshotsHaveNoGaps | rollout_manager/benchmark_training.py:409-416 | A snapshot that succeeds has a gap-free cursor range. |
| ActivationTheorems.PacketsHaveOnePolicy | rollout_manager/benchmark_training.py:325-387 | Every packet was registered and completed under one policy. |
| ActivationTheorems.NothingAfterTimeoutIff | rollout_manager/benchmark_training.py:269-288 | After a recorded timeout nothing is granted, installed or reopened whatever follows, exactly if no call was between its last test and its write. |
| ActivationTheorems.LastWriteAfterTimeout | rollout_manager/benchmark_training.py:418-506 | In the other case the call writes once more: its receipt, its policy, or the reopening. |
| ActivationTheorems.NothingGrantedAgain | rollout_manager/benchmark_training.py:269-288 | Once a timeout and an error are recorded and no call is about to write, no policy is installed and no receipt granted again. |
| BoundedLag.Run | dsv41_train/rl/distributed_grpo.py:422-482 | The update and prefetch loop on mutable fields, with any verdicts, steps and failures, is the specified machine and keeps its invariants. |
| BoundedLagTheorems.LagIsBounded | dsv41_train/rl/distributed_grpo.py:231-256 | Every group that reaches training was sampled whole under one published policy, the learner's or with prefetch the one before, and is scored with exactly the parameters that sampled it. |
| BoundedLagTheorems.PrefetchedIff | dsv41_train/rl/distributed_grpo.py:433-461 | A trained group was prefetched, and lags by one, exactly if prefetching is on, at least two updates came before, and its record directly follows the one trained on before. |
| BoundedLagTheorems.PublishedAreTheSteps | dsv41_train/rl/distributed_grpo.py:461-475 | What is published under version v is exactly what the v-th optimizer step made of the parameters, and the learner's parameters are those of its last step. |
| BoundedLagTheorems.LetThroughIff | dsv41_train/rl/distributed_grpo.py:231-256 | Whatever is presented to a training step is let through exactly if it is a whole group sampled under one acknowledged policy that is the learner's or, with prefetch, of the version before and the same lineage, and under Token-TIS the one whose snapshot is at hand. |
| BoundedLagTheorems.NeverRejects | dsv41_train/rl/distributed_grpo.py:231-256 | The lag and anchor checks never reject. |
| BoundedLagTheorems.SnapshotsAreFew | dsv41_train/rl/distributed_grpo.py:470-473 | At most two adapter snapshots are held. |
| BoundedLagTheorems.TrainsTheUsable | dsv41_train/rl/distributed_grpo.py:439-484 | The groups trained on are the usable ones in order; the run ends with all updates, or with every record judged and too few usable. |
| BoundedLagTheorems.NeverStalls | dsv41_train/rl/distributed_grpo.py:439-482 | Until the loop ends, its next step brings it nearer to the end. |

## Findings

Properties the code does not have, each with an input that shows it and the exact condition under which it does hold.

| property | fails for | holds exactly if |
|---|---|---|
| The learner's commits are always accepted (dsv41_train/rl/runtime.py:477-513 against dsv41_train/rl/manager.py:124-135 and rollout_manager/benchmark_training.py:444-458). | Two groups per step: the first is sampled and kept, the second is excluded. The learner drops the second alone, which is not the oldest retained group: `MailboxTheorems.ExclusionAfterKeptGroupIsRefused`. | The packet taken is not excluded, or no group has been kept for the step yet: `MailboxTheorems.RefusedIff`. Commits of stale packets and of finished steps are always accepted. |
| A group id is never issued twice (the cursor is called never-reused at dsv41_train/rl/manager.py:191-195). | A group is sampled, everything stops before a checkpoint is written, and the restarted manager issues its id again, under a new epoch: `MailboxIssues.RestartIssuesAgain`. | A first restart: the live cursor is the saved one, so no group was started since the checkpoint: `MailboxIssues.FirstRestartRepeatsNothingIff`. Any restart: the saved cursor is the highest the run has reached; the ids between the two are those repeated: `MailboxIssues.RestartRepeats`. Never without a restart: `MailboxIssues.NeverWithoutRestart`. |
| A failed phase of a save raises on every rank, and a save never touches an existing checkpoint (dsv41_train/sft_checkpoint.py:24-34, 234-243). | An exception without text in `mkdir`, such as a bare `MemoryError`, counts as no error; all ranks go on and rank 0 overwrites its file of the checkpoint that is there: `CheckpointTheorems.ExistingOverwritten`. | The exception has a text: then all ranks raise (`CheckpointTheorems.FailedMkdirStops`), and only then, or if every rank has to save what is there already, can nothing change the directory any more (`CheckpointTheorems.ExistingChangesIff`). An existing manifest survives in any case: `CheckpointTheorems.ManifestNeverReplaced`. |
| A row cache read is plain lookup (dsv41_train/engram_offload.py:60-87). | Storage is replaced twice and ends at its first address with the same shape and version; the cache answers with the row it saw first: `RowCache.StaleRead`. | The cache is not bound to an earlier storage of the same address, shape and version; then every read is a lookup, and otherwise it shows the cached rows: `RowCache.Cache.Read`. Over whole runs: `RowCache.Replay`. |
| Concurrent groups of a stream always go on (rollout_manager/coordinator.py:226-237, 304-310). | One executor, one worker, a charged wave waiting for the worker, which a plan of a group without waves holds while it waits for room: `StreamDeadlock.StreamGetsStuck`. | In terms of the configuration: not all of native groups, a backend with and one without group hooks, two group slots, more input credit than workers, and a limited executor: `StreamDeadlock.SomeRunSticksIff`. In terms of the state: `StreamProgress.StuckIff`. |
| Cancelling a stream lets its waiting groups give up (rollout_manager/coordinator.py:229-234, 304-308, 351-359). | The stuck stream above, once everybody has checked for room: `StreamSleepers.AllCheck`. | Somebody who waits for room has still to check (`StreamProgress.CancellationWakesNobody`), or the stream is paused as well (`StreamProgress.PausingFrees`). In terms of the configuration: `StreamSleepers.SomeRunSticksForGoodIff`. |
| A refused submission changes nothing (rollout_manager/coordinator.py:211-222). | A group with a backend-stage plan and one that is too large; the stage's executor then belongs to a backend that runs nothing: `StreamOwners.RefusedGroupShutsOut`. | It is refused as a whole, or no plan before the refused one is for an executor without owner: `StreamOwners.RefusalLeaves`. |
| After a recorded timeout no pause, activation or resume takes effect (rollout_manager/benchmark_training.py:269-288, 418-506). | A call has passed its last test of the flag when the caller's thread gives up: `ActivationTheorems.LastWriteAfterTimeout`. | No call is between its last test and its write: `ActivationTheorems.NothingAfterTimeoutIff`. |

## Left out

- Event-store writes and their failures, wall-clock values, summaries, peaks of reserved amounts, and closing backends.
- The quarantine taken in the `finally` part of `run` (rollout_manager/coordinator.py:558-565): only an event-store failure or an unexpected exception of the loop itself reaches it with episodes active. Failing or cancelled backend starts and hooks are modelled as outcomes.
- A task whose benchmark differs from its identity's: plans carry one benchmark, so the late refusal at rollout_manager/coordinator.py:281-282 is not modelled. An exception raised by an episode task itself (rollout_manager/coordinator.py:259-262) is an unproven outcome like any other.
- Resource quantities are exact reals; rounding of fractional CPU sums is not modelled.
- Worker threads and time: a drain deadline, a caller's timeout and every completion are steps that may come at any point where the code can notice them. Recording a caller's timeout is one step.
- RowCache.Replay: one action of another caller per chunk of a CUDA lookup; streams, events, pinned memory and the autograd hooks are not modelled.
- The sparse owner rows of a full source checkpoint (dsv41_train/sft_source.py:221-233, 247-259) and its manifest and schema checks; their cover argument is the one `DeltaExport.GlobalRows` proves.
- Checkpoints: what a rank does between two collectives is one step, and the directory does not change while it is loaded; the encoding of optimizer state is abstract content with a schema.
- GroupAssembly.Judge: the token, probability and field checks of one turn record, the reward policy's own checks and the JSON check of the evidence are each one input; which of them fails is not told apart.
- Input cache: sockets, descriptors, failures to create a file, and bytes a producer writes after publishing; a waiting acquisition is one that returns and is asked again, or times out.
- `ContextParallel.sum` and `mean_loss` (dsv41_train/cp.py:164-184): additions over all ranks without index logic.
- Floating-point numerics, model forward and losses, optimizer arithmetic, gradient clipping, metric aggregation, and the training chunks of dsv41_train/rl/runtime.py:79-109.
- RPC, tokenizers, command lines, datasets, browser relay and telemetry: plumbing without logic of the kind above.
