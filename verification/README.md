# A verified model of the FaST-GShare autoscaler's allocator and planner

The autoscaler serves inference functions on shared GPUs. A GPU is a bin of width 1.0 (time quota)
and height `TotalSMPercentage` (share of the streaming multiprocessors). A *replica group* (`Config`)
is a number of equal rectangles (quota x SM) placed in such a bin by a shelf packer. Every ten seconds
the reconciler looks at the request rate of a function and plans new groups, removes or shrinks groups,
or does nothing. This project models that logic in Dafny and proves what it keeps over every run.

| file | contents |
|---|---|
| `Shelves.dfy` | the value of a packer, its invariant, insertion and removal |
| `ShelfCapacity.dfy` | the capacity predictor, exactness and monotonicity |
| `ShelfRelease.dfy` | releasing sets of items in any order, round trips |
| `ShelfGeometry.dfy` | overlap-free placement and area, over every run of calls |
| `ShelfPacker.dfy` | the packer as a mutable object, tied to `Shelves` |
| `GpuLedger.dfy` | committing, releasing and shrinking groups on one GPU; ownership and memory over runs |
| `GpuManager.dfy` | `GPUInfo` and the groups as mutable objects, tied to `GpuLedger` |
| `ConfigFinder.dfy` | grid search per GPU, greedy pass over GPUs, commit of the plans |
| `GpuOrder.dfy` | the comparator of GPUs and what sorting by it guarantees |
| `ScaleUp.dfy` | sort, plan, commit as one operation |
| `ScaleDown.dfy` | the scale-down planner: safety, shape, greedy optimality |
| `FunctionScaler.dfy` | one function as a state machine: hysteresis and capacity ledger over runs |
| `Reconciler.dfy` | one tick of the reconciler as the program runs it, tied to `FunctionScaler` |
| `GpuMemory.dfy` | bytes of the replicas placed on a GPU: when commits exceed the total, how the counter strays |
| `Cluster.dfy` | a function together with its GPUs, while others use them: which replicas are really placed, over runs |
| `PlacedCapacity.dfy` | placed against recorded capacity over runs, and the effect of scaling on both |
| `Delivery.dfy` | the planner's result, committed on the cluster: placed capacity rises by what was requested |
| `Orphans.dfy` | replicas no function holds: when a scale-up leaves them, and that they stay |
| `World.dfy` | all functions on the same GPUs: which groups the live items of a GPU belong to, over runs |
| `Views.dfy` | every run of all functions is, for each of them, a run of the single-function system |
| `Controller.dfy` | the autoscaler as a mutable object: tables of functions and GPUs, each tick one step of `World` |
| `ExampleTicks.dfy`, `ExamplePlans.dfy`, `Examples.dfy` | concrete runs, with plans the planner returns, on which the program does not do what it seems to promise |
| `Configs.dfy`, `Options.dfy`, `MapSums.dfy`, `Insertion.dfy`, `Arithmetic.dfy` | records, sums over maps, sorted insertion, exact arithmetic |

Conventions. `float64` is modelled by exact reals; `int(x)` truncates toward zero. Go's map iteration
order and the ties of an unstable sort are sequences chosen by the environment, so theorems hold for
all of them; methods return the chosen order as a ghost result. Error returns are `None`, `-1` or a
Boolean. Cluster calls, pod creation, GPU provisioning and UUIDs are parameters. Each public method is
one atomic step.

## Where the code does not do what it seems to promise

The model follows the code; each of these has a theorem below.

- Memory is booked with the opposite sign: a commit lowers `UsageMemory`, so load looks like free
  memory and plans are accepted beyond the total (`MemoryOversubscribedExample`; exactly when not, in
  bytes of the replicas placed: `CommitWithinTotalIff`, `NeverOversubscribedIff`). A reduction lowers
  the counter again although it frees memory, so the counter does not return
  (`CounterDoesNotReturnExample`; exactly when it does: `MemoryReturnsIffNothingReduced`). Deleting a
  function reduces its groups to nothing instead of releasing them, so the same happens there.
- `ReducedDelta` holds the RPS that remains, not the RPS that goes, and is then subtracted from the
  capacity ledger (`ShrinkBooksTheWrongAmount`; exactly when the ledger is right:
  `LedgerAgreesIffNeverShrank`, with the condition of a partial reduction in terms of its inputs in
  `ShrinkIffSurplusCovers`). The plan is nevertheless safe on record, because the sort order confines
  partial reductions to the last group (`PlanScaleDown`, `ShrinkShape`, `ScaleDownIsSafe`).
- A reduction does not update the group's record, so a later scale-down starts from a stale replica
  count and may leave too little or nothing (`StaleRecordsLeaveNothing`). Records are fresh exactly if
  no group still held was shrunk (`IntactIffNoneShrunk`). A scale-down leaves the predicted rate placed
  exactly if a test on its inputs holds (`ScaleDownKeepsPlacedCapacity`), and falls short by at most
  what was missing before.
- A scale-up whose pods cannot be created is not undone on the GPUs: unless no plan had room for a
  single replica, its replicas stay and no function holds them (`LeakExample`, `FailedScaleUpLeaksIff`,
  `OrphansStay`; over runs of all functions `NoLeakIff`).
- `CanFit` does not check sizes: it accepts sizes that `Insert` refuses (`CanFitAcceptsInvalidSizes`;
  `PredictorsAgree` gives the exact relation for all sizes).
- The packer's unit test expects two shelves after its second insertion; first-fit yields one
  (`SecondItemJoinsFirstShelf`).

## Model

| member | source | states |
|---|---|---|
| `Shelves.FirstFit` | internal/shelf/shelf.go:63-74 | the chosen shelf has room and no earlier one does |
| `Shelves.InsertInv` | internal/shelf/shelf.go:47-90 | every insertion attempt keeps index agreement, exact width and height caches, non-empty shelves, the bin limits and fresh IDs |
| `Shelves.InsertContents` | internal/shelf/shelf.go:58-89 | success adds exactly one item of that size under an unused ID; failure changes nothing but the ID counter |
| `Shelves.RemoveInv` | internal/shelf/shelf.go:109-138 | removal keeps the same invariant, including the shift of the index when a shelf collapses |
| `Shelves.RemoveContents` | internal/shelf/shelf.go:113-137 | exactly the named item disappears, all others keep ID and size; the returned index is its shelf, or -1 if unknown |
| `Shelves.EmptyMeansNoItems` | internal/shelf/shelf.go:140-142 | no shelves if and only if no items |
| `Shelves.ShelvesDetermine` | internal/shelf/shelf.go:29-32 | used height and item index are functions of the shelves in every valid state |
| `Shelves.SecondItemJoinsFirstShelf` | internal/shelf/shelf_test.go:24-43 | the test's second insertion gives one shelf |
| `ShelfCapacity.PredictorsAgree` | internal/shelf/shelf.go:92-106 | for every size: insertion succeeds iff the size is valid and `CanFit` holds, iff the predicted count is at least 1 |
| `ShelfCapacity.CanFitAcceptsInvalidSizes` | internal/shelf/shelf.go:92-106 | an empty packer for which `CanFit` holds of width 0 and of width 1.5, both refused by an insertion |
| `ShelfCapacity.InsertTakesOneSlot` | internal/shelf/shelf.go:62-89 | a success lowers the predicted count for that size by exactly one, joining or opening a shelf |
| `ShelfCapacity.MaxInsertableIsExact` | internal/shelf/shelf.go:145-169 | of any n consecutive attempts exactly min(n, predicted) succeed, and the prediction drops by that many |
| `ShelfCapacity.NextInsertFails` | internal/shelf/shelf.go:145-169 | after exactly the predicted number of insertions the next one fails |
| `ShelfCapacity.RemoveNeverLowersCapacity` | internal/shelf/shelf.go:122-135 | a removal never lowers the capacity for any size, collapse included |
| `ShelfCapacity.InsertNeverRaisesCapacity` | internal/shelf/shelf.go:63-89 | an insertion never raises the capacity for any size |
| `ShelfCapacity.RemovedSizeFitsAgain` | internal/shelf/shelf.go:109-138 | after a removal an item of the removed size can be inserted |
| `ShelfRelease.RemoveRunIsDrop` | internal/shelf/shelf.go:109-138 | any sequence of removals, with repetitions and unknown IDs, equals striking the set of IDs from all shelves at once |
| `ShelfRelease.ReleaseOrderIrrelevant` | internal/controller/gpu_manager.go:87-90 | two removal sequences with the same IDs reach the same state |
| `ShelfRelease.InsertThenReleaseIsIdentity` | internal/shelf/shelf.go:47-138 | placing up to n items and releasing those placed, in any order, restores everything but the ID counter |
| `ShelfRelease.RunIdsLive` | internal/shelf/shelf.go:58-89 | the IDs of a run are new, and with the old ones exactly the live IDs |
| `ShelfRelease.CommitAfterReleases` | internal/controller/gpu_manager.go:62-72 | a count that was predicted to fit still fits after any removals |
| `ShelfGeometry.PlacementInside` | internal/shelf/shelf.go:51-89 | every item lies within width 1.0 and the maximal height |
| `ShelfGeometry.PlacementDisjoint` | internal/shelf/shelf.go:65-88 | no two items overlap |
| `ShelfGeometry.AreaBound` | internal/shelf/shelf.go:69-88 | total item area is at most the used height, and that at most the bin height |
| `ShelfGeometry.Reached` | internal/shelf/shelf.go:36-138 | the invariant (index agreement, exact caches, no empty shelf, IDs below the counter) holds after every sequence of calls on a new packer |
| `ShelfGeometry.EveryRunIsSound` | internal/shelf/shelf.go:47-138 | all three hold after every sequence of insert and remove calls with any arguments |
| `ShelfPacking.ShelfPacker.constructor` | internal/shelf/shelf.go:36-44 | a new packer is valid and empty |
| `ShelfPacking.ShelfPacker.Insert` | internal/shelf/shelf.go:47-90 | the object takes exactly the value-level insertion step and stays valid |
| `ShelfPacking.ShelfPacker.CanFit` | internal/shelf/shelf.go:92-106 | for valid sizes, true iff an insertion would succeed |
| `ShelfPacking.ShelfPacker.Remove` | internal/shelf/shelf.go:109-138 | the object takes exactly the value-level removal step; the missing-item error cannot occur |
| `ShelfPacking.ShiftLocations` | internal/shelf/shelf.go:130-134 | the re-indexing loop lowers exactly the indices above the collapsed shelf, in any map order |
| `ShelfPacking.ShelfPacker.IsEmpty` | internal/shelf/shelf.go:140-142 | true iff no item is live |
| `ShelfPacking.ShelfPacker.MaxInsertableItems` | internal/shelf/shelf.go:145-169 | the loop computes the count c such that of c+1 insertions exactly c succeed |
| `GpuLedger.CommitPlacesWhatFits` | internal/controller/gpu_manager.go:62-81 | a commit places min(required, predicted) replicas, succeeds iff all required fit, and records their number and RPS |
| `GpuLedger.CommitIds` | internal/controller/gpu_manager.go:63-72 | the group gets one new ID per replica placed; with the old ones these are the live IDs |
| `GpuLedger.CommitMemory` | internal/controller/gpu_manager.go:59-69 | after the rollback exactly the placed replicas are booked; a negative count is booked without being placed |
| `GpuLedger.CommitThenRelease` | internal/controller/gpu_manager.go:54-95 | commit then release, in any order, restores the packer up to the ID counter; memory is restored iff the required count is not negative or the memory size is 0 |
| `GpuLedger.ReduceMeetsPlan` | internal/controller/gpu_manager.go:97-122 | a reduction leaves the asked number of items iff the group still had all recorded replicas or is reduced to none |
| `GpuLedger.ItemsWithinRecord` | internal/controller/gpu_manager.go:74-118 | over every run no group owns more items than replicas on record |
| `GpuLedger.OwnershipStep` | internal/controller/gpu_manager.go:54-122 | every operation keeps the groups' items a partition of the live IDs |
| `GpuLedger.OthersUntouched` | internal/controller/gpu_manager.go:84-122 | releasing or shrinking one group removes only its own items, and the emptiness result is true iff no group owns an item |
| `GpuLedger.Run` | internal/controller/gpu_manager.go:54-122 | the partition holds after every run of commits, releases and reductions by any number of groups |
| `GpuLedger.MemoryLaw` | internal/controller/gpu_manager.go:60-106 | over every run the memory counter is its start minus the bytes on record for the groups held minus all bytes ever booked by reductions |
| `GpuLedger.MemoryReturnsIffNothingReduced` | internal/controller/gpu_manager.go:92-106 | with everything released the counter is back at its start iff reductions booked nothing |
| `GpuLedger.MemoryCounterWithinBoundsIff` | internal/controller/gpu_manager.go:50-60 | reported availability never falls below the total; the counter is within bounds iff nothing is on record and reductions booked nothing |
| `GpuLedger.CommitRaisesAvailability` | internal/controller/gpu_manager.go:50-69 | a commit raises the reported availability by the memory it takes |
| `GpuMemory.BytesPlacedLaw` | internal/controller/gpu_manager.go:60-122 | over every run the bytes of the replicas placed are minus the counter, minus what reductions booked, minus what is on record but not placed |
| `GpuMemory.CommitWithinTotalIff` | internal/controller/gpu_manager.go:59-72 | after every run a commit keeps the bytes placed within the total iff the bytes it places are at most total plus counter plus those two corrections; a planned commit places all it requires |
| `GpuMemory.ReleaseBytes` | internal/controller/gpu_manager.go:84-122 | releases and reductions never raise the bytes placed |
| `GpuMemory.NoReductionsNoBytes` | internal/controller/gpu_manager.go:97-122 | without reductions everything on record is placed, both corrections are zero and the test needs total and counter only |
| `GpuMemory.NeverOversubscribedIff` | internal/controller/gpu_manager.go:59-122 | the bytes placed are within the total throughout a run iff every commit of it passes that test, reductions included |
| `GpuMemory.MemoryOversubscribedExample` | internal/controller/gpu_manager.go:50-60 | a run on a GPU of one byte: two groups of one byte are each planned and committed without error, and two bytes are placed |
| `GpuMemory.CounterDoesNotReturnExample` | internal/controller/gpu_manager.go:92-106 | a run of commit, reduction and release after which nothing is held and the counter is -1 |
| `GpuManagement.GPUInfo.constructor` | internal/controller/gpu_manager.go:124-141 | a new GPU record is valid and unused |
| `GpuManagement.GPUInfo.AllocateAndCommitConfig` | internal/controller/gpu_manager.go:54-82 | GPU, group and result are exactly those of the value-level commit |
| `GpuManagement.GPUInfo.DeallocateConfig` | internal/controller/gpu_manager.go:84-95 | the loop releases every item of the group in some complete order; the result tells whether the packer is empty |
| `GpuManagement.GPUInfo.ReduceConfig` | internal/controller/gpu_manager.go:97-122 | the loop releases the first so many items of some complete order and keeps the record unchanged |
| `ConfigFinder.GetQPS` | internal/profiling/profiling_retrieve.go:125-174 | an existing entry is returned as it is; with rounding, a point without one lies midway between the two neighbouring entries, equals the only one, or is 0 iff neither exists |
| `ConfigFinder.EntryAtPercent` | internal/profiling/profiling_retrieve.go:125-134 | the entry looked up is the positive value stored at the quota's nearest percent, and 0 without one |
| `ConfigFinder.Neighbours` | internal/profiling/profiling_retrieve.go:147-152 | rounding looks at the nearest multiples below and above |
| `ConfigFinder.BestIsUnique` | internal/controller/config_finder.go:324-331 | first-in-scan-order of maximal efficiency determines a single grid point |
| `ConfigFinder.FeasiblePossible` | internal/controller/config_finder.go:267-291 | a feasible point always admits at least one replica |
| `ConfigFinder.ReplicasFit` | internal/controller/config_finder.go:292-298 | the planned count is between 1 and what is possible, and either uses all of it within the wanted QPS or overshoots by less than one replica |
| `ConfigFinder.PossibleIs` | internal/controller/config_finder.go:289-291 | the largest count that neither the shelves nor the memory reported as available rule out |
| `ConfigFinder.FeasibleIsOffer` | internal/controller/config_finder.go:254-287 | the points considered and accepted are exactly those in range at which an insertion would succeed, memory is reported for a replica and a throughput was measured; for an exclusive request the whole GPU only |
| `ConfigFinder.BestIsBestPlan` | internal/controller/config_finder.go:267-331 | the plan kept is, field by field: its own throughput and quota, the requested type, the right count, and no offer has more throughput for its share of the GPU, nor an earlier one as much |
| `ConfigFinder.BestPlanIsUnique` | internal/controller/config_finder.go:300-331 | there is only one such plan |
| `ConfigFinder.UsableOnNumbers` | internal/controller/config_finder.go:93-103 | a GPU can carry a plan iff its total memory holds a replica and it offers some point |
| `ConfigFinder.GetConfig` | internal/controller/config_finder.go:250-338 | nothing is returned iff no QPS is wanted or the GPU offers no point; otherwise the one best plan, field by field, within shelf and memory bounds; an exclusive request gets the whole GPU |
| `ConfigFinder.GetConfigs` | internal/controller/config_finder.go:55-124 | budget law: plans sum to request minus remainder, all but the last use everything available at their point, overshoot is below one replica of the last; every usable GPU tried has a plan, the one best plan for the QPS then wanted; an error iff nothing is requested or no GPU has the total memory and offers a point |
| `ConfigFinder.ChosenDetermines` | internal/controller/config_finder.go:93-116 | that determines the plans but for their UUIDs, given the GPUs drawn on |
| `ConfigFinder.PlanEqualsCommit` | internal/controller/config_finder.go:236-244 | a plan is committed in full, without error and with its planned RPS, even after any removals from that GPU |
| `ConfigFinder.KeptIs` | internal/controller/config_finder.go:224-244 | what is kept of a plan: it moves to the GPU it is committed to, with as many replicas as fit of those required, and their RPS; nothing iff there is no GPU or no room |
| `ConfigFinder.AfterCommitIs` | internal/controller/gpu_manager.go:54-82 | the GPU after the commit of one plan: new items for as many replicas as were kept, their memory booked, the plan's type, and nothing else changed |
| `ConfigFinder.PrepareConfigs` | internal/controller/config_finder.go:155-248 | exactly the plans that find a GPU and place a replica are kept, and each records a consistent group |
| `ConfigFinder.ScaleUpDeliversPlan` | internal/controller/config_finder.go:104-116 | if GPUs only lost items since planning, all plans are committed in full and the committed RPS is the planned sum |
| `GpuOrder.LessIsStrictWeakOrder` | internal/controller/gpu_sort.go:10-52 | for positive totals and costs the comparator is a strict weak order |
| `GpuOrder.LessOnGpus` | internal/controller/gpu_sort.go:11-51 | the comparator on the GPUs' fields: matching type, then throughput times the other's cost, then the gap between SM and memory in use, then free SM, then free memory |
| `GpuOrder.SortGPUInfos` | internal/controller/gpu_sort.go:8-55 | sorting yields a permutation in which, for every pair, the earlier GPU may precede the later one on those fields |
| `GpuOrder.MatchingFirst` | internal/controller/gpu_sort.go:11-16 | in every ordered sequence the GPUs of the requested type come first |
| `GpuOrder.NonMatchingOnlyAfterMatching` | internal/controller/config_finder.go:93-116 | a plan draws on another type only after every matching GPU was tried, and each usable one of those carries a plan |
| `ScaleUp.CommittedIsAdmissible` | internal/controller/fastfunc_scale.go:111-131 | whatever is committed from plans with a throughput is consistent and has fresh, distinct UUIDs, as the capacity ledger relies on |
| `ScaleUp.ScaleUpFunc` | internal/controller/fastfunc_scale.go:108-126 | the whole scale-up: error iff nothing is requested or usable, admissible otherwise, and adding exactly request minus remainder when no GPU was filled in between |
| `ScaleDown.Removable` | internal/controller/fastfunc_reconcile.go:208-231 | the longest removable prefix: what is left reaches the target, one group more would not |
| `ScaleDown.FloorDecides` | internal/controller/fastfunc_reconcile.go:214-231 | the floor removes a group iff the slack covers its RPS, so the inner break never happens |
| `ScaleDown.ShrinkStep` | internal/controller/fastfunc_reconcile.go:233-250 | the guard of a partial reduction can hold on the last group only, when all others are removed |
| `ScaleDown.PlanScaleDown` | internal/controller/fastfunc_reconcile.go:196-251 | the loop with all its exits removes exactly the longest removable prefix and shrinks exactly the group `Shrink` names |
| `ScaleDown.ShrinkShape` | internal/controller/fastfunc_reconcile.go:233-246 | at most one group is shrunk, the last, only if all others go; what stays and what goes each cover the target, and the recorded delta is what stays |
| `ScaleDown.ShrinkIffSurplusCovers` | internal/controller/fastfunc_reconcile.go:214-246 | a plan shrinks a group iff the target is positive and the surplus of the last group covers it, a test on the inputs |
| `ScaleDown.RemovedExactly` | internal/controller/fastfunc_reconcile.go:253-277 | a planned removal takes effect iff the pod is not found or was deleted, as often as it is planned; never after a failed call |
| `ScaleDown.UpdatedExactly` | internal/controller/fastfunc_reconcile.go:279-308 | the same for planned reductions |
| `ScaleDown.ScaleDownIsSafe` | internal/controller/fastfunc_reconcile.go:187-312 | whatever subset of cluster calls is executed, the recorded RPS left reaches the target if it did before; if it did not, nothing is touched |
| `ScaleDown.PrefixIsCheapest` | internal/controller/fastfunc_reconcile.go:191-194 | no set of groups has less RPS than the sorted prefix of the same size |
| `ScaleDown.GreedyRemovesMost` | internal/controller/fastfunc_reconcile.go:191-231 | no set of whole groups with more members could be removed while leaving the target |
| `FunctionScaler.PredictedRate` | internal/controller/fastfunc_scale.go:43-51 | the largest of the minimum, the current rate, and the current rate plus its growth against the earlier window |
| `FunctionScaler.DecisionOnNumbers` | internal/controller/fastfunc_scale.go:53-98 | scale up iff new or capacity below 1.5 times that rate; qualify for a scale-down iff known, capacity enough, at least two groups, no rising rate and under half the capacity in use; fire at the third such tick |
| `FunctionScaler.NewFunction` | internal/controller/fastfunc_scale.go:25-38 | a function seen for the first time holds nothing and scales up at any rate, by 1.5 times the predicted one |
| `FunctionScaler.EnteredByScaleUp` | internal/controller/fastfunc_scale.go:111-131 | a completed scale-up enters exactly the committed groups and raises the capacity by their recorded RPS; any other leaves groups and capacity as they were |
| `FunctionScaler.LeftByScaleDown` | internal/controller/fastfunc_scale.go:151-160 | a group leaves a function iff it is in the removable prefix and its pod is not found or was deleted |
| `FunctionScaler.StepLaw` | internal/controller/fastfunc_scale.go:127-160 | every tick keeps the records consistent and moves the ledger with the held groups, up to the drift of a partial reduction |
| `FunctionScaler.Hysteresis` | internal/controller/fastfunc_scale.go:77-98 | over every run: the counter is the length of the current qualifying run modulo 3, a tick scales down iff that length is a positive multiple of 3, and never scales both ways |
| `FunctionScaler.LedgerLaw` | internal/controller/fastfunc_scale.go:35-160 | over every run the capacity ledger trails the recorded RPS of held groups by an accumulated drift that is never negative |
| `FunctionScaler.LedgerAgreesIffNeverShrank` | internal/controller/fastfunc_scale.go:140-150 | the ledger equals the held RPS iff no partial reduction was ever executed |
| `FunctionScaler.ShrinksAtIff` | internal/controller/fastfunc_scale.go:134-150 | a tick executes a partial reduction iff it scales down, the surplus of the last listed group covers the predicted rate, and the call for it is executed |
| `Examples.ShrinkBooksTheWrongAmount` | internal/controller/fastfunc_reconcile.go:239-246 | a run of four ticks from a new function, scaled up with the planner's result, after which the ledger says 90, the records 110, and 20 are placed |
| `FunctionScaler.ScaleDownLeavesEnough` | internal/controller/fastfunc_scale.go:134-160 | every scale-down of every run, whatever calls fail, leaves recorded RPS at or above the predicted rate and that at or above the minimum; without earlier shrinking the ledger too |
| `Cluster.KeptArePlaced` | internal/controller/fastfunc_scale.go:111-131 | every group a scale-up keeps is on its GPU with exactly the replicas on its record |
| `Cluster.RunOfTicks` | internal/controller/fastfunc_scale.go:19-167 | in every run of the system the function goes through exactly the states its own ticks lead to |
| `Cluster.RemovedGroupsLeaveGpus` | internal/controller/fastfunc_scale.go:151-160 | every group a scale-down removes is off its GPU afterwards |
| `Cluster.DownPlaced` | internal/controller/fastfunc_scale.go:140-160 | after a scale-down every group still held keeps its record and has lost exactly min(placed, recorded minus new) replicas if it was shrunk, else none |
| `Cluster.StepCounts` | internal/controller/fastfunc_scale.go:108-160 | the same for every event: old groups lose what is taken from them, new groups have all their replicas placed |
| `Cluster.StepKeepsLinked` | internal/controller/fastfunc_scale.go:108-160 | every tick, and every operation of other functions on the same GPUs, keeps the groups placed within their records, ownership intact and the ledger at most the recorded RPS |
| `Cluster.StaleIffShrinks` | internal/controller/gpu_manager.go:97-122 | records in agreement with what is placed become stale by a step iff it executes a partial reduction |
| `Cluster.ShortIffShrunk` | internal/controller/gpu_manager.go:97-122 | over every run a held group has fewer replicas placed than recorded iff an executed reduction shrank it |
| `Cluster.IntactIffNoneShrunk` | internal/controller/gpu_manager.go:97-122 | over every run all records agree with what is placed iff no group still held was shrunk |
| `PlacedCapacity.PlacedLaw` | internal/controller/gpu_manager.go:74-118 | placed RPS is recorded RPS minus what is missing; that is never negative, and zero iff all records agree |
| `PlacedCapacity.ScaleDownEffect` | internal/controller/fastfunc_scale.go:140-160 | exact effect of any scale-down on placed and missing RPS: removed groups go with both, replicas really taken move from placed to missing |
| `PlacedCapacity.ScaleDownKeepsPlacedCapacity` | internal/controller/fastfunc_scale.go:134-160 | whatever calls fail, a scale-down leaves placed RPS at or above the predicted rate iff what is missing in the groups that stay, with what the plan takes from the last one, is at most their recorded RPS minus the rate; it falls short by at most what was missing before |
| `PlacedCapacity.PlacedEqualsRecorded` | internal/controller/fastfunc_scale.go:108-160 | over every run placed RPS is recorded RPS minus what is missing, and equal to it iff no group still held was shrunk |
| `PlacedCapacity.PlacedCapacitySuffices` | internal/controller/fastfunc_scale.go:134-160 | the same after every run, and the test holds whenever no group still held was shrunk |
| `PlacedCapacity.NoScaleUpMeansEnough` | internal/controller/fastfunc_scale.go:53-84 | over every run a tick that does not scale up has predicted rate times scale factor covered by what is placed, up to what is missing |
| `PlacedCapacity.ScaleUpRaisesPlaced` | internal/controller/fastfunc_scale.go:111-131 | a completed scale-up adds exactly the recorded RPS of its groups to what is placed, and nothing to what is missing |
| `Examples.StaleRecordsLeaveNothing` | internal/controller/gpu_manager.go:97-122 | a run from a new function, scaled up twice with the planner's results, whose second scale-down, for a predicted rate of 30, leaves nothing placed |
| `Delivery.PlansKeptInFull` | internal/controller/config_finder.go:155-248 | plans made on the GPUs of a cluster, one per GPU, are all kept with every replica |
| `Delivery.ScaleUpDeliversRequest` | internal/controller/fastfunc_scale.go:54-131 | end to end: the planner's result raises placed RPS by request minus remainder, and then covers predicted rate times scale factor up to remainder and missing |
| `Delivery.GenuineScaleUpDelivers` | internal/controller/fastfunc_scale.go:54-131 | so does every scale-up with the planner's result for the capacity found lacking, the first one of a function included |
| `Delivery.KeptIsCommitAll` | internal/controller/config_finder.go:155-248 | for plans on distinct GPUs, committing to a shared table keeps what committing each to its own GPU keeps |
| `Orphans.KeepsNothingIff` | internal/controller/config_finder.go:236-244 | a scale-up keeps no group iff no plan has room for a single replica on its GPU as it is before the first commit |
| `Orphans.FailedScaleUpLeaksIff` | internal/controller/fastfunc_scale.go:111-126 | when pod creation fails the function does not change, and the live IDs of every GPU are unchanged iff no plan has room for a single replica |
| `Orphans.FailedScaleUpOrphans` | internal/controller/fastfunc_scale.go:111-126 | every group such a scale-up placed stays on its GPU with all its replicas and is held by no one |
| `Orphans.OrphansStay` | internal/controller/fastfunc_scale.go:108-160 | it stays, with the same items, through every later run of ticks and of other operations that do not name it |
| `Examples.LeakExample` | internal/controller/fastfunc_scale.go:111-126 | a run of one failed scale-up with the planner's result, after which the function holds nothing and eleven replicas of a group stay placed |
| `Worlds.OtherView` | internal/controller/fastfunc_scale.go:19-167 | a tick of one function leaves every other function's record and placed replicas as they are, and takes none of its groups |
| `Worlds.StepKeepsWorld` | internal/controller/fastfunc_scale.go:19-167 | every tick or deletion of any function, and every new GPU, keeps all functions linked to their groups and no group held twice |
| `Worlds.DeletionKeepsWorld` | internal/controller/fastfunc_controller.go:306-325 | the deletion of a function frees every item of its groups and leaves every other function's record, groups and items as they are |
| `Worlds.LiveIdsAccounted` | internal/controller/gpu_manager.go:54-122 | over every run of ticks and deletions of all functions the live IDs of a GPU are exactly the items of groups some function holds or a failed scale-up left behind, each ID in one of them |
| `Worlds.NoLeakIff` | internal/controller/fastfunc_scale.go:111-126 | nothing is left behind in a run iff every failed scale-up of it had no room for a single replica |
| `Worlds.EmptyIffUnowned` | internal/controller/fastfunc_scale.go:146-158 | over every run a GPU is reported empty iff no function has a replica on it and none was left behind there |
| `Views.EveryFunctionRuns` | internal/controller/fastfunc_scale.go:19-167 | every run of all functions is, for each function, a run of the single-function system with its own ticks since it was last deleted, so its state depends on those only |
| `Views.EveryFunctionServed` | internal/controller/fastfunc_scale.go:53-84 | so for every function of every run: placed RPS is recorded RPS minus what is missing, and a tick that does not scale up has its demand covered up to that |
| `Reconciling.CurrentConfigs` | internal/controller/fastfunc_reconcile.go:55-61 | every config of the function is listed exactly once |
| `Reconciling.SortByRPS` | internal/controller/fastfunc_reconcile.go:191-194 | an ascending permutation |
| `Reconciling.ScaleDownFunc` | internal/controller/fastfunc_reconcile.go:187-312 | list, sort, plan and execute realise the reference plan for some sorted listing, executing exactly the calls whose pod is not found or done, and the target survives |
| `Reconciling.Decide` | internal/controller/fastfunc_scale.go:34-98 | predicted rate and branch taken on the numbers of metrics and record; rate, branch and counter are those of the state machine |
| `Reconciling.TickOnce` | internal/controller/fastfunc_scale.go:19-167 | one tick on one record is exactly one step of the state machine |
| `Controlling.ListGpus` | internal/controller/config_finder.go:66-88 | every ready and preferred GPU of the table is listed exactly once |
| `Controlling.Plan` | internal/controller/config_finder.go:55-124 | list, sort and search give a result of the planner for the GPUs of the table, with UUIDs that are new to them |
| `Controlling.CommitPlans` | internal/controller/config_finder.go:155-248 | the commit loop on the shared table leaves the GPUs and keeps the groups that the value-level commits give, one plan after another |
| `Controlling.KeptAdmissible` | internal/controller/fastfunc_scale.go:127-131 | the groups kept are consistent and have distinct UUIDs |
| `Controlling.ReduceAll` | internal/controller/fastfunc_scale.go:140-150 | the loop over shrunk groups leaves the GPUs as the value-level reductions do |
| `Controlling.ReleaseAll` | internal/controller/fastfunc_scale.go:151-160 | the loop over removed groups leaves the GPUs as the value-level releases do |
| `Controlling.TickOnRecord` | internal/controller/fastfunc_scale.go:108-160 | what each kind of tick enters into, removes from, or leaves in the function's record |
| `Controlling.TickOn` | internal/controller/fastfunc_scale.go:19-167 | decision, planner, commits, bookkeeping and GPU calls together are one step of the single-function system, with the planner's result; created pods enter exactly the kept groups and their RPS, failed ones nothing |
| `Controlling.Controller.constructor` | internal/controller/fastfunc_reconcile.go:63 | no function is known and the GPUs are those given |
| `Controlling.Controller.AddGpu` | internal/controller/config_finder.go:196-222 | a new GPU is one step of the run of all functions |
| `Controlling.Controller.UpdateFunction` | internal/controller/fastfunc_scale.go:19-167 | each call extends the run of all functions by exactly one tick of the named function, whose scale-up is the planner's result for the capacity lacking, so every theorem about runs holds of the object; its record gains exactly the kept groups if pods are created, loses exactly the executed removals, and is otherwise kept |
| `Controlling.Controller.DeleteFunction` | internal/controller/fastfunc_controller.go:306-325 | a known function is forgotten by exactly one step of that run; an unknown one changes nothing |

## Left out

- `float64` rounding: the drift of `quota += 0.1` and of `int(remainingWidth / width)` is outside the exact-arithmetic model.
- Kubernetes, Prometheus, gRPC and HTTP traffic, informers, the TCP handshake and heartbeats: inputs or outcomes of the model.
- `AddFastPods` returns after the first pod it creates; the model only knows whether it reported an error, not which pods exist.
- The delayed release of empty GPUs through timers and a work queue.
- Interleavings of goroutines and the mutexes: each public method is one step, and each GPU occurs once in a planning pass.
- Loading the throughput table from CSV files, of which the largest entry per key is kept.
- `Reset`, `FilterGPUs`, cost and memory tables, quota limits and cost fields of a config: unused by the decisions modelled, or easy.
- The node and GPU tables: which GPUs exist, are ready, are preferred or get provisioned is given to the model.
- ConfigFinder.PrepareConfigs: works on GPU values, one per config, so that GPUs may change between plan and commit; `Controlling.CommitPlans` is the same loop on a shared table.
- GpuOrder.LessIsStrictWeakOrder: assumes positive costs, memory and height, without which the code divides by zero.
- Controlling.Controller.UpdateFunction: keeps GPUs as values in a table, while `GpuManager.dfy` has them as objects; a virtual GPU joins the table before it is planned on, not between plan and commit; which GPUs are ready and preferred is an input.
