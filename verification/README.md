# Verified model of the edge LLM scheduler's control plane

The scheduler cuts a language model into contiguous layer ranges, one per node, and serves requests by passing hidden states
from stage to stage. It moves the cluster from one cut to another while requests are in flight, keeps per-request key-value
caches on the stages, and relocates cached KV blocks when a node leaves. This project models that control plane in Dafny
and proves what it is for. `dafny verify dfyconfig.toml` checks everything.

## How the model is organised

- **Cutting the model.** `Coverage` (the plan validator), `LargestRemainder` and `Apportionment` (splitting layers by compute
  capability), `ModelManagement` (the memory ledger), `PlanMemory` (what a placement and a whole plan need).
- **Running a plan.** `TorchEngine` (a stage runtime), `PipelinePlacement` (turning the published plan into a chain of stage
  tasks), `Recovery`, `Scheduler` (one request, with retries), `Coordinator` with `KvStore` and `KvCopy` (one
  reconfiguration: prepare all, book memory, copy KV, activate all, publish; and draining).
- **Interleavings.** `Protocol` is a transition system in which every `await` of the source is a step, so any number of
  requests, reconfigurations (succeeding or failing), drains, node events and lost activations interleave freely; its steps
  are the functions the classes above are proved against. Activations are handed over in memory or pushed to and pulled from
  the mailbox of the receiving node, where pushes may arrive late, in any order, or not at all. The theorems over all runs:
  `ProtocolSafety` (one plan per answer), `ProtocolAnswers` (what the text of an answer is), `ProtocolMixing` and
  `ProtocolSharedIds` (which request ids are safe), `ProtocolCutOver`, `ProtocolDrains` and `ProtocolActivation` (service across
  reconfigurations, which drains endanger it, and when an activation can fail), `ProtocolProgress` (undisturbed requests are
  answered). Reconfigurations do not overlap each other, because the event bus dispatches one event at a
  time and awaits its handlers (`edge_llm_scheduler/core/event_bus.py`).
- **Decoding with caches.** `CachedModel` (a causal transformer with and without a cache), `HfEngine` (a stage with
  per-request caches), `StagedDecoding` (passes through the stages and any interleaving of them), `RealPipelines` (the
  controller loop).
- **A node leaves.** `MigrationChoice` (what to keep under a deadline and where to put it), `Migration` (decide and execute),
  `MigrationBalance` and `MigrationTerms` (what its terms amount to), `MigrationEffect` and `NodeLeave` (what the two together
  achieve).
- **The edges.** `Wire` (length-prefixed frames), `Mailbox` (activation mailbox and tags), `Gateway` (splicing a replay).
- **Shared.** `Types`, `Sorting`, `Products` (monotone multiplication), `Decimals` (numbers written in decimal).

Objects whose methods update their fields are classes proved against functions on values; loops are loops with invariants.
Layers, embedding, key/value projections, attention and output head are arbitrary functions of an arbitrary type, so every
result holds for every model of that shape. A layer depends only on its id, as the weights of the source do. The causal mask
is the shape of `attend`: a row sees the cache entries up to its own position. Flops, loads, costs and quotas are exact reals.

## What the proofs turned up

- Routing leaves out plan nodes that are not healthy without saying so. A result then comes from part of the model; it is
  the whole model exactly when every plan node was healthy at routing (`RouteIsCompleteIff`, `ResultsComeFromOnePlan`);
  such answers do occur (`PartialRouteIsAnswered`).
- Recovery tasks carry neither epoch nor prompt, so on this engine no retry is ever answered
  (`RecoveryTasksNeverAnswered`, `OnlyTheFirstAttemptAnswers`).
- `drain_old_epoch` refuses only the current epoch, so it accepts every epoch that is still to come. Whatever else
  is drained, an activation can fail after the ledger was rewritten exactly when a drain of its own epoch has been begun
  (`ActivationCanFailIff`, `OnlyItsOwnDrain`; four steps that do it are in `DrainBreaksActivationIff`, from a moment that is
  reachable by `FullyPreparedIsReachable`). A drain of any future epoch that retires a node after that epoch was
  published takes the published plan out of service (`LateRetirementTakesPlanDown`). The safe use is exact: a drain is
  harmless if and only if its epoch has already been issued (`DrainIsHarmlessIff`), and callers who keep to that never see
  an activation fail (`ActivationNeverFails`, `CutOverHolds`).
- Through mailboxes, on any plan of at least two stages, a request can be answered for the prompt of another new one exactly
  when the two have the same id (`MixedUpIff`, with the run in `SharedIdAnswersTheOtherPrompt`). Different ids for live
  requests are not enough: `edge_llm_scheduler/core/transport.py`
  says that methods return when the transfer is complete, but a TCP push is not acknowledged, so it may be filed after its
  request was given up. Ids that are never used again are enough (`FreshIdsAreCareful`). Without a transport nothing is
  asked of ids.
- `NodeManager.register` replaces the state of a node that is already known, while its reservation stays. The books stay
  right exactly when the node reports the free memory on record and is not in the current plan
  (`ReregistrationConservesIff`); if it
  reports more, because it has given its reservation up, the next plan can promise more than the node has
  (`ReregistrationOverbooksIff`).
- The real pipeline never releases caches. A request id used again under the same epoch continues the old conversation
  (`RunRequest` with a history, `StaleCacheShows`); `run_concurrent` uses the same ids on every call. A re-plan in the
  middle of a request silently makes it start over (`ReplanForgets`, `SwitchForgets`); the token fed next is then
  continued rightly, for every model of numbers, exactly when nothing of the request had been seen (`StaleCacheShows` with that
  token as the prompt).
- Migration moves one copy per block, so a block with two copies on the leaving node leaves one behind (`NodeIsEmptyIff`, read
  off the store alone in `NodeIsEmptyWithoutDeadlineIff`, with the input in `SecondCopyStays`). Bytes are charged to a target even when the block is then dropped for its cost; the balance results cover the bytes
  of all offers, which without a deadline are those of the moves (`AllOffersMove`).
- A replay is asked for with the sent text appended to the prompt, so an upstream may return the continuation alone. The
  gateway then cuts whatever the continuation shares with the beginning of the sent text, so it is forwarded whole exactly
  when the two begin differently (`ForwardReplay`).
- Tags need node ids without colons (`TagsAreDistinct`, `ColonsCollide`) and the mailbox needs tags without NUL
  (`PushThenPullIff`).

## Hypotheses

Task ids are drawn from a counter and so are fresh (the source draws UUIDs). Node ids are distinct where nodes come from a
table keyed by id. The copies of one KV block agree on their layer range where completeness and idempotence of copying are
stated, since the hash is computed from it. Decoding results are stated for stage ranges that cut the model into
non-empty parts. In the interleaved protocol the text of an answer is tied to the request's own prompt for runs in which a
request id is free when it is used (no running request has it and no mail of it is about) and node ids contain no colon;
both are asked only when activations travel through mailboxes. In `Mailbox` operations are taken in the order in which the
receiver handles them.

## Model

| member | source | states |
|---|---|---|
| Coverage.Validate | edge_llm_scheduler/core/model_manager.py:261-283 | accepts a plan, in whatever order it is listed, exactly when its nodes are distinct and its ranges are non-empty and tile the layers; each complaint names a real defect |
| Coverage.TilesIsChain | edge_llm_scheduler/core/model_manager.py:265-282 | sorted by range, every plan that tiles the model joins up from layer 0 to the last one |
| Coverage.ChainTiles | edge_llm_scheduler/core/model_manager.py:266-283 | ranges that join up over distinct nodes give each layer exactly one owner |
| Coverage.BrokenChainIsNoTiling | edge_llm_scheduler/core/model_manager.py:274-278 | a gap, an overlap or an empty range met during the scan means the plan does not tile the model |
| LargestRemainder.SharesSum | edge_llm_scheduler/policies/reparallelization.py:74-82 | the rounded shares add up to the number of layers exactly |
| LargestRemainder.SharesWithinQuota | edge_llm_scheduler/policies/reparallelization.py:76-82 | each share is the floor or the ceiling of its quota |
| LargestRemainder.LargerQuotaNeverLess | edge_llm_scheduler/policies/reparallelization.py:79-82 | a larger quota never gets the smaller share |
| LargestRemainder.NoWholeQuotaRoundedUp | edge_llm_scheduler/policies/reparallelization.py:79-82 | a node whose quota is a whole number is never given an extra layer |
| LargestRemainder.TieGoesToEarlier | edge_llm_scheduler/policies/reparallelization.py:79-82 | between equal fractional parts the node that comes first is rounded up first |
| LargestRemainder.SharesOptimal | edge_llm_scheduler/policies/reparallelization.py:74-82 | no integer allocation of the same number of layers is closer to the quotas in total absolute deviation |
| Apportionment.SplitIsExact | edge_llm_scheduler/policies/reparallelization.py:71-82 | for the weights of the policy: shares are non-negative, sum to the layers and lie within one layer of the quota |
| Apportionment.StrongerNeverFewer | edge_llm_scheduler/policies/reparallelization.py:71-82 | a strictly stronger node never gets fewer layers |
| Apportionment.SplitMinimisesImbalance | edge_llm_scheduler/policies/reparallelization.py:70-82 | among all integer allocations b of L layers the split minimises the sum over nodes of the distance between b times W and w times L |
| Apportionment.SplitTiles | edge_llm_scheduler/policies/reparallelization.py:84-95 | the computed ranges are ones the coverage validator accepts, for at least one layer and one alive node |
| Apportionment.AssignLayers | edge_llm_scheduler/policies/reparallelization.py:76-82 | the loop that hands out the remaining layers computes exactly the largest-remainder shares |
| Apportionment.LayOut | edge_llm_scheduler/policies/reparallelization.py:84-95 | the loop that lays out ranges gives exactly the nodes with a positive share a placement, of that many layers, from the sum of the shares before it |
| Apportionment.LayoutLaysOut | edge_llm_scheduler/policies/reparallelization.py:84-95 | node k of the list has a placement exactly when its share is positive, and its range runs from the sum of the shares before k to that sum plus share k |
| Apportionment.StrongerNodeOwnsMore | edge_llm_scheduler/policies/reparallelization.py:71-95 | on the placements themselves: a node with more than one flop and more flops than another holds at least as many layers |
| Apportionment.AliveInOrder | edge_llm_scheduler/policies/reparallelization.py:66-68 | the alive nodes keep the order of the list |
| Apportionment.Reconfigure | edge_llm_scheduler/policies/reparallelization.py:57-107 | the whole policy: falls back on missing input, never needs its repair step, and returns a valid plan on alive nodes only, in which each node, in order, has its share of the layers and a stronger one at least as many as a weaker one |
| PlanMemory.RangesAddUp | edge_llm_scheduler/core/model_manager.py:250-254 | ranges that join up need together what the joined range needs, and where a range lies does not matter |
| PlanMemory.ExpertsAddUp | edge_llm_scheduler/core/model_manager.py:255-259 | each expert listed adds its size to what the layers need |
| PlanMemory.FirstExpertCounts | edge_llm_scheduler/core/model_manager.py:255-258 | the size of an expert is that of the first entry with its id |
| PlanMemory.UnknownExpertIsFree | edge_llm_scheduler/core/model_manager.py:255-258 | an expert the model does not list takes nothing |
| PlanMemory.PlanNeedsWholeModel | edge_llm_scheduler/core/model_manager.py:250-259 | over the nodes of any plan that tiles the model, the demands come to all parameter bytes, less the remainder of dividing them among the layers, plus the experts listed |
| ModelManagement.ModelManager.CheckCapacity | edge_llm_scheduler/core/model_manager.py:110-123 | the pre-check succeeds exactly when every node of a tiling plan is known, alive and has room once its old reservation is given back |
| ModelManagement.ModelManager.ApplyPipelinePlan | edge_llm_scheduler/core/model_manager.py:103-138 | a plan is booked in full exactly when it can be hosted, otherwise the ledger is untouched |
| ModelManagement.ModelManager.ReleaseDropped | edge_llm_scheduler/core/model_manager.py:125-131 | nodes that leave the plan get their reservation back and lose their range, the others keep their state |
| ModelManagement.ModelManager.TakeUp | edge_llm_scheduler/core/model_manager.py:132-135 | nodes of the plan end with exactly what is left after their new reservation, and their new range |
| ModelManagement.MemoryConserved | edge_llm_scheduler/core/model_manager.py:103-138 | over any run of accepted and rejected plans free plus reserved bytes of each node is constant, free memory stays non-negative, and a range is recorded exactly for the nodes of the current plan |
| ModelManagement.ReregistrationConservesIff | edge_llm_scheduler/core/node_manager.py:51-53 | a node that registers again keeps its bytes accounted for exactly when it reports the free memory on record, and the ledger in order exactly when it is not in the current plan |
| ModelManagement.ReregistrationOverbooksIff | edge_llm_scheduler/core/model_manager.py:110-123 | after a node has registered again, a next plan that asks more of it than the bytes on record can be accepted exactly when it reported more free than was on record |
| ModelManagement.ReleaseThenTakeUp | edge_llm_scheduler/core/model_manager.py:125-138 | the two update loops together amount to the booked ledger, whatever order the nodes are visited in |
| TorchEngine.RunLayersAppend | edge_llm_scheduler/backends/torch_layered_engine.py:134-137 | running two lists of layers one after the other is running their concatenation |
| TorchEngine.OneLayerOnce | edge_llm_scheduler/backends/torch_layered_engine.py:134-137 | a single layer is applied once, which with RunLayersAppend says what any list of layers does |
| TorchEngine.LayerIdsRise | edge_llm_scheduler/backends/torch_layered_engine.py:86-89 | the ids of a range are its layers, each once, in rising order |
| TorchEngine.PrepareStoresStage | edge_llm_scheduler/backends/torch_layered_engine.py:74-100 | prepare succeeds exactly for an assignment of the node itself with a range of the model, stores it with its source and layers, and touches nothing else; each refusal is true |
| TorchEngine.RetireForgetsStage | edge_llm_scheduler/backends/torch_layered_engine.py:107-110 | retiring forgets the epoch, switches the node off if it was running it, and keeps every other epoch |
| TorchEngine.AnswersIff | edge_llm_scheduler/backends/torch_layered_engine.py:112-128 | a stage answers exactly when it is active in the task epoch with the task range and its input belongs to the task's own request and epoch and is addressed to it; each refusal is true, in the order of the checks |
| TorchEngine.AnswerSays | edge_llm_scheduler/backends/torch_layered_engine.py:139-187 | the labels of an answer; only the last stage gives a text, and at least one token |
| TorchEngine.GenerateRunsTaskRange | edge_llm_scheduler/backends/torch_layered_engine.py:112-137 | a stage that answers is active in the task epoch and has run exactly the layers the task names on the input of the task |
| TorchEngine.RuntimeStepsKeepEngineOk | edge_llm_scheduler/backends/torch_layered_engine.py:74-110 | prepare, activate and retire keep a node consistent: real ranges with exactly their layers, and only prepared epochs active |
| TorchEngine.TorchLayeredEngine.PrepareEpoch | edge_llm_scheduler/backends/torch_layered_engine.py:74-100 | stores the stage with its layers in order, or refuses a foreign assignment or a bad range and changes nothing |
| TorchEngine.TorchLayeredEngine.ActivateEpoch | edge_llm_scheduler/backends/torch_layered_engine.py:102-105 | switches to a prepared epoch, or changes nothing |
| TorchEngine.TorchLayeredEngine.RetireEpoch | edge_llm_scheduler/backends/torch_layered_engine.py:107-110 | forgets the epoch and deactivates it if it was active |
| TorchEngine.TorchLayeredEngine.Generate | edge_llm_scheduler/backends/torch_layered_engine.py:112-187 | the checks of epoch, range, stage index, prompt and of the activation's request, epoch and destination, in the order of the code, then the fold of the prepared layers over the input |
| PipelinePlacement.FullRouteIsChain | edge_llm_scheduler/policies/placement.py:292-298 | with every plan node healthy the route joins up over the whole model |
| PipelinePlacement.RouteIsCompleteIff | edge_llm_scheduler/policies/placement.py:292-315 | the routed stages run layers 0 to L-1 once each and in order exactly when no node of the plan was unhealthy at routing |
| PipelinePlacement.RouteNodesDistinct | edge_llm_scheduler/policies/placement.py:292-296 | no node serves two stages of a request, whichever nodes are dropped |
| PipelinePlacement.AnyCutRunsTheModel | edge_llm_scheduler/core/task_scheduler.py:138-160 | however a valid plan cuts the model and lists its parts, running the routed stages in turn is folding layers 0 to L-1 over the embedded prompt |
| PipelinePlacement.ChainLayers | edge_llm_scheduler/policies/placement.py:292-315 | the layers of ranges that join up are the consecutive layer ids |
| PipelinePlacement.RouteTasks | edge_llm_scheduler/policies/placement.py:300-315 | each task is for its stage's node and range, under the epoch, with the request's own data; ids differ, and exactly the last task is the one that gives the text |
| PipelinePlacement.LayeredPipelinePlacement.Place | edge_llm_scheduler/policies/placement.py:284-315 | one task per healthy placement with a range, in start order, bound to the epoch published now |
| PipelinePlacement.LayeredPipelinePlacement.SetPlan | edge_llm_scheduler/policies/placement.py:279-282 | publishes placements and epoch of the plan |
| Recovery.Recovered | edge_llm_scheduler/policies/recovery.py:39-90 | a replacement exists exactly while retries are left; it keeps request, range and KV ids, goes to the node the policy resumes on, goes on from the committed tokens under token recovery only, and carries neither epoch nor prompt |
| KvStore.OperationsKeepStoreOk | edge_llm_scheduler/backends/mock_storage.py:36-84 | save, move and evict keep the order list duplicate-free and equal to the key set, and leave no empty entry |
| KvStore.SaveEffect | edge_llm_scheduler/backends/mock_storage.py:36-42 | saving adds or replaces exactly one copy, with its data or the placeholder of its hash, and a new hash comes last in the order |
| KvStore.MoveEffect | edge_llm_scheduler/backends/mock_storage.py:61-72 | moving succeeds exactly when the copy is there, takes it from its place to the other one, and changes nothing else |
| KvStore.EvictEffect | edge_llm_scheduler/backends/mock_storage.py:74-84 | evicting removes one copy, or all of them, and a hash without copies loses its place |
| KvStore.WithoutFirstSplits | edge_llm_scheduler/backends/mock_storage.py:79-84 | taking a hash out of the order leaves the others in theirs |
| KvStore.MockKVStore.Save | edge_llm_scheduler/backends/mock_storage.py:36-42 | adds or replaces one copy, filled with the placeholder of its hash when it has no data, and appends a new hash to the order |
| KvStore.MockKVStore.Load | edge_llm_scheduler/backends/mock_storage.py:44-45 | finds a block exactly where it is held |
| KvStore.MockKVStore.Lookup | edge_llm_scheduler/backends/mock_storage.py:47-59 | the length of the longest leading run of hashes that are held |
| KvStore.MockKVStore.Move | edge_llm_scheduler/backends/mock_storage.py:61-72 | moves one copy, or reports the missing block or source and changes nothing |
| KvStore.MockKVStore.Evict | edge_llm_scheduler/backends/mock_storage.py:74-84 | removes one copy, or the hash altogether when it was the last one or everything is to go |
| KvStore.MockKVStore.GetIndex | edge_llm_scheduler/backends/mock_storage.py:86-87 | every stored hash with its locations, each once |
| KvCopy.OwnerForRange | edge_llm_scheduler/core/pipeline_controller.py:189-201 | an owner is found exactly when some placement encloses the range |
| KvCopy.OwnerOwnsEveryLayer | edge_llm_scheduler/core/pipeline_controller.py:189-201 | for a non-empty range an owner is found exactly when one placement owns every layer of it, and the one found does |
| KvCopy.OwnerIsUnique | edge_llm_scheduler/core/pipeline_controller.py:189-201 | under a valid plan the owner does not depend on the search order |
| KvCopy.CopyIsMonotone | edge_llm_scheduler/core/pipeline_controller.py:155-187 | copying loses no held block and keeps the store well-formed |
| KvCopy.CopyIsComplete | edge_llm_scheduler/core/pipeline_controller.py:166-187 | a held block whose layers lie inside one placement ends up on that placement's accelerator |
| KvCopy.CopyIsIdempotent | edge_llm_scheduler/core/pipeline_controller.py:166-187 | a second run adds no location, whatever order the locations are listed in |
| KvCopy.CopyFollowsLayers | edge_llm_scheduler/core/pipeline_controller.py:155-187 | with no layer owned twice, a block ends up where it was and on the accelerator of the node that owns all its layers, and nowhere else; records exist exactly for the blocks with a copy away from there, and are true; a block whose layers lie in two placements is not copied |
| KvCopy.CopyReusableKv | edge_llm_scheduler/core/pipeline_controller.py:155-187 | the loop reaches exactly that store and makes one true record for each block that had somewhere to go, in terms of the layers the placements own |
| Coordinator.PipelineReconfigurationCoordinator.ValidatePlan | edge_llm_scheduler/core/pipeline_controller.py:133-138 | accepts exactly the plans that tile the model on known, alive nodes |
| Coordinator.PipelineReconfigurationCoordinator.PrepareAll | edge_llm_scheduler/core/pipeline_controller.py:72-85 | succeeds exactly when every node has a runtime the range fits, and then each was told its source, another holder or the fallback; in any case no active epoch moves and only the next epoch is touched |
| Coordinator.PipelineReconfigurationCoordinator.ActivateAll | edge_llm_scheduler/core/pipeline_controller.py:91-92 | no activation fails, and exactly the plan nodes switch |
| Coordinator.PipelineReconfigurationCoordinator.ApplyPlan | edge_llm_scheduler/core/pipeline_controller.py:62-107 | succeeds exactly for feasible plans; on success the whole cluster is on the next epoch with the plan published, the ledger booked and the KV copied; on failure nothing a request can see has changed |
| Coordinator.PipelineReconfigurationCoordinator.DrainOldEpoch | edge_llm_scheduler/core/pipeline_controller.py:109-114 | refuses exactly the current epoch, retires any other one everywhere, and keeps the current plan in service |
| Coordinator.PipelineReconfigurationCoordinator.AttachRuntime | edge_llm_scheduler/core/pipeline_controller.py:59-60 | a runtime is filed under its own node, in place of an earlier one |
| Coordinator.PipelineReconfigurationCoordinator.ReconfigureForTopology | edge_llm_scheduler/core/pipeline_controller.py:116-131 | a plan the capability policy computes for alive nodes is never refused by the validator, and the one applied is the proportional one; what an injected policy proposes is applied exactly when it is feasible; a failure is invisible |
| Coordinator.FailureIsInvisible | edge_llm_scheduler/core/pipeline_controller.py:68-85 | preparing the next epoch disturbs nobody who serves an earlier one |
| Coordinator.SourceIsOtherHolder | edge_llm_scheduler/core/pipeline_controller.py:140-153 | a node is told to fetch from another one exactly when that one is the last to hold this very range under the current plan |
| Coordinator.PrepareThenActivate | edge_llm_scheduler/core/pipeline_controller.py:73-92 | prepare everywhere then activate everywhere puts every plan node in service with its planned range |
| Coordinator.RetireKeepsCutOver | edge_llm_scheduler/core/pipeline_controller.py:109-114 | draining any epoch but the current one leaves the current plan in service |
| Scheduler.OnlyTheFirstAttemptAnswers | edge_llm_scheduler/core/task_scheduler.py:188-236 | retrying never helps on the strict engine: a task is answered exactly when its first attempt is |
| Scheduler.TaskScheduler.AttachEngine | edge_llm_scheduler/core/task_scheduler.py:88-89 | an engine is filed under its own node, and a sound engine with nothing prepared under epoch 0 keeps the scheduler sound |
| Scheduler.TaskScheduler.RunTask | edge_llm_scheduler/core/task_scheduler.py:188-236 | at most one engine call more than there are retries left, with that number as the measure, and the node table ends as it began |
| Scheduler.StageOfPipeline | edge_llm_scheduler/core/task_scheduler.py:147-159 | a stage answers exactly when it accepts and was reached over a hop between two nodes, and its answer carries the next hidden state |
| Scheduler.TasksByStart | edge_llm_scheduler/core/task_scheduler.py:138-143 | in the order of the pipeline a task whose layers start earlier comes first, and between equal starts the earlier stage does |
| Scheduler.RoutedTasksInOrder | edge_llm_scheduler/core/task_scheduler.py:138-143 | sorting the tasks of a route changes nothing |
| Scheduler.RoutedTasksPass | edge_llm_scheduler/core/task_scheduler.py:138-160 | for routed tasks all stages pass exactly when every routed node serves the published epoch with its range and every hop arrives |
| Scheduler.TaskScheduler.RunStage | edge_llm_scheduler/core/task_scheduler.py:147-157 | one turn of the loop: delivery, task, and the activation for the next turn |
| Scheduler.TaskScheduler.RunPipeline | edge_llm_scheduler/core/task_scheduler.py:138-160 | answers exactly when every stage passes, with the layers of all tasks applied in order; a lost activation is the only other way to be told |
| Scheduler.TaskScheduler.HandleRequest | edge_llm_scheduler/core/task_scheduler.py:93-112 | a request is answered exactly when the route is non-empty and in service and every hop arrives, with the route's layers applied to its prompt; a lost activation leaves no result behind |
| ProtocolSafety.StepSafe | edge_llm_scheduler/core/pipeline_controller.py:62-114 | every step of requests, reconfigurations, drains and node events keeps the safety invariant |
| ProtocolSafety.RunsAreSafe | edge_llm_scheduler/core/pipeline_controller.py:62-114 | every reachable state is safe, whatever the interleaving |
| ProtocolSafety.ResultsComeFromOnePlan | edge_llm_scheduler/core/task_scheduler.py:138-236 | a returned result was computed under one applied epoch and by stages of that plan only, no recovery task supplied any of it, and the layers that ran are the whole model exactly when all plan nodes were healthy at routing, whatever the transport did |
| ProtocolAnswers.PulledIsOwn | edge_llm_scheduler/core/task_scheduler.py:162-186 | when all mail under its id is its own, what a request pulls is the output of its own last stage, whatever the mailboxes hold of other requests |
| ProtocolAnswers.StepUnmixed | edge_llm_scheduler/core/task_scheduler.py:138-186 | no step of any request, mailbox, reconfiguration, drain or node mixes up activations, as long as ids are free when they are used |
| ProtocolAnswers.CarefulRunsAreUnmixed | edge_llm_scheduler/core/task_scheduler.py:138-186 | in every run with free ids each running request holds the output of its own last stage, and all mail under its id is its own |
| ProtocolAnswers.ResultsAreOfTheirOwnLayers | edge_llm_scheduler/core/task_scheduler.py:138-186 | the text of an answer is read off exactly the layers that ran, applied to the request's own prompt; without a transport nothing is asked of the ids |
| ProtocolAnswers.ResultsEqualWholeModel | edge_llm_scheduler/core/task_scheduler.py:138-160 | with all plan nodes healthy the answer is the single-machine answer, independent of the cut |
| ProtocolMixing.FreshIdsAreCareful | edge_llm_scheduler/core/task_scheduler.py:162-186 | callers who never use a request id twice are safe, whatever order pushes arrive in and whichever get lost |
| ProtocolMixing.SameKeyIsPulled | edge_llm_scheduler/backends/tcp_transport.py:43-64 | whatever is in flight under the tag of a request's own hand-over can be what the request pulls |
| Protocol.PullOutcome | edge_llm_scheduler/core/task_scheduler.py:168-186 | a pull takes what is filed and the request goes on with it; a miss, or an activation for another node, ends the request |
| Protocol.NoResultOutcome | edge_llm_scheduler/core/task_scheduler.py:188-236 | a stage call without a result ends the request, unless a retry is left: then a recovery task takes its place |
| Protocol.MailOutcome | edge_llm_scheduler/backends/tcp_transport.py:118-137 | a push that arrives replaces what is filed under its key; a lost one changes nothing |
| ProtocolMixing.SharedIdAnswersTheOtherPrompt | edge_llm_scheduler/core/task_scheduler.py:162-186 | two requests with one id on any plan of at least two stages: the second can be answered with the whole model's output for the prompt of the first, when they overlap and also when the first was given up before the second came |
| ProtocolSharedIds.MixedUpIff | edge_llm_scheduler/core/task_scheduler.py:162-186 | with mailboxes, a plan of at least two stages in service and two new requests whose prompts the model tells apart: the second can be answered with a text that is not its own exactly when the two have the same id, whether or not they are ever running together |
| ProtocolSharedIds.DifferentIdsStayFresh | edge_llm_scheduler/core/task_scheduler.py:162-186 | however the cluster goes on after two requests with different new ids have come in, no id is used twice |
| ProtocolSafety.RecoveryTasksNeverAnswered | edge_llm_scheduler/policies/recovery.py:44-51 | no recovery task is answered by any node in any reachable state |
| ProtocolSafety.AdvanceKeepsTicketOk | edge_llm_scheduler/core/task_scheduler.py:147-159 | taking an answer and turning to the next stage keeps a request bound to its plan and in layer order |
| ProtocolCutOver.EpochsGrow | edge_llm_scheduler/core/pipeline_controller.py:69-97 | epochs strictly increase and an applied epoch keeps its plan for ever |
| ProtocolCutOver.CutOverHolds | edge_llm_scheduler/core/pipeline_controller.py:87-114 | in any run that only drains issued epochs: the published plan is the current one and is in service on all its nodes, or half-way through an activation every one of them serves the current or the next epoch |
| ProtocolCutOver.NothingVisibleBeforeCommit | edge_llm_scheduler/core/pipeline_controller.py:68-88 | up to the ledger check a reconfiguration changes nothing visible, so failing there leaves no trace |
| ProtocolCutOver.ActivationNeverFails | edge_llm_scheduler/core/pipeline_controller.py:91-92 | once the ledger has accepted a plan no activation fails, if only issued epochs are drained |
| ProtocolCutOver.DrainingTheNextEpochBreaksIt | edge_llm_scheduler/core/pipeline_controller.py:109-114 | otherwise it can: draining the epoch being installed leaves the ledger on the new plan and service on the old one |
| ProtocolDrains.FullyPreparedIsReachable | edge_llm_scheduler/core/pipeline_controller.py:62-88 | a fully prepared moment whose plan the ledger would accept is reached by a disciplined run, on every configuration with a layer and for any node |
| ProtocolDrains.DrainBreaksActivationIff | edge_llm_scheduler/core/pipeline_controller.py:109-114 | at a fully prepared moment of a disciplined run, a drain of epoch e makes the activation fail after the ledger was rewritten exactly when e is the epoch being installed |
| ProtocolActivation.OnlyItsOwnDrain | edge_llm_scheduler/core/pipeline_controller.py:62-114 | in any run, whatever is drained in it, an activation that fails after the ledger was rewritten is of an epoch whose own drain was begun |
| ProtocolActivation.ActivationCanFailIff | edge_llm_scheduler/core/pipeline_controller.py:62-114 | from any state of any run with no activation under way, the activation of an epoch still to come can fail, with no further drain, exactly when a drain of that very epoch has been begun |
| ProtocolActivation.DrainEndangersItsEpochOnly | edge_llm_scheduler/core/pipeline_controller.py:109-114 | an accepted call of the drain puts the activation of a future epoch at risk, over every continuation without further drains, exactly when it names that epoch |
| ProtocolDrains.LateRetirementTakesPlanDown | edge_llm_scheduler/core/pipeline_controller.py:109-114 | a drain begun before its epoch was published, and retiring a node afterwards, takes the published plan out of service |
| ProtocolDrains.FutureDrainTakesPlanDown | edge_llm_scheduler/core/pipeline_controller.py:62-114 | from every orderly state, once a drain of an epoch still to come has begun, a run without further drains ends with the published plan out of service |
| ProtocolDrains.DrainIsHarmlessIff | edge_llm_scheduler/core/pipeline_controller.py:109-114 | from any state of a disciplined run, beginning the drain of e can lead, without further drains, to a published plan out of service exactly when e has not been issued yet |
| ProtocolProgress.UndisturbedRequestIsAnswered | edge_llm_scheduler/core/task_scheduler.py:93-160 | a request routed while the plan is in service on healthy nodes, and left undisturbed, is answered with the whole model |
| ProtocolProgress.PartialRouteIsAnswered | edge_llm_scheduler/policies/placement.py:292-298 | with some plan node unhealthy at routing and some not, the request is answered all the same, by layers that are not the whole model |
| ProtocolProgress.DisciplinedRunsStayInService | edge_llm_scheduler/core/pipeline_controller.py:87-114 | the plan is in service whenever no activation is under way, if only issued epochs are drained |
| CachedModel.LaterTokensDoNotMatter | edge_llm_scheduler/backends/hf_layered_engine.py:534-546 | causality: later tokens do not change earlier rows |
| CachedModel.LayerOverChunk | edge_llm_scheduler/backends/hf_layered_engine.py:494-503 | one layer over a chunk with the right cache gives the uncached rows and the right longer cache |
| CachedModel.StageForwardIsRight | edge_llm_scheduler/backends/hf_layered_engine.py:464-526 | a stage with the right cache turns right rows into right rows and leaves the right cache, for chunks of any length |
| CachedModel.CacheLength | edge_llm_scheduler/backends/hf_layered_engine.py:394-414 | the length of a cache is the number of tokens fed |
| CachedModel.Monolithic | edge_llm_scheduler/experiments/verify_equivalence.py:136-146 | the cached greedy loop of one machine equals greedy decoding that recomputes everything |
| CachedModel.Step | edge_llm_scheduler/experiments/verify_equivalence.py:63-70 | one cached call of the whole model gives the next token of the uncached model |
| HfEngine.CallIsRight | edge_llm_scheduler/backends/hf_layered_engine.py:324-348 | a prefill or decode call answers as the uncached model would at that layer |
| HfEngine.CallTouchesOneCache | edge_llm_scheduler/backends/hf_layered_engine.py:464-526 | a call changes one cache entry and is unnoticed by every other request |
| HfEngine.ReleaseMakesFresh | edge_llm_scheduler/backends/hf_layered_engine.py:350-352 | releasing a request makes its id new again and leaves the others alone |
| HfEngine.SwitchForgets | edge_llm_scheduler/backends/hf_layered_engine.py:548-556 | activating an epoch under which a request has no cache silently loses its history |
| HfEngine.RetireKeepsOthers | edge_llm_scheduler/backends/hf_layered_engine.py:227-239 | retiring an epoch that is not active disturbs no request |
| HfEngine.RetireForgets | edge_llm_scheduler/backends/hf_layered_engine.py:227-239 | after retiring, the epoch is neither prepared nor active and no cache is filed under it, while every other epoch and cache stands |
| HfEngine.RetiredEpochStartsAfresh | edge_llm_scheduler/backends/hf_layered_engine.py:227-239 | an epoch retired, prepared and activated again starts every request afresh |
| HfEngine.ReleaseForgetsEverywhere | edge_llm_scheduler/backends/hf_layered_engine.py:350-352 | a released request is new under every epoch, and exactly its caches go |
| HfEngine.SwitchBackRemembers | edge_llm_scheduler/backends/hf_layered_engine.py:222-225 | switching to another epoch and back finds every request where it was |
| HfEngine.PrepareStoresRange | edge_llm_scheduler/backends/hf_layered_engine.py:156-220 | prepare succeeds exactly for an assignment of the node itself with a range of the model, stores the range and touches nothing else |
| HfEngine.CallSucceedsIff | edge_llm_scheduler/backends/hf_layered_engine.py:324-348 | a call succeeds exactly on an active, prepared epoch with the input its stage reads, and an empty list of tokens stands for token 0 |
| HfEngine.PositionIsTokensSeen | edge_llm_scheduler/backends/hf_layered_engine.py:394-414 | the reported position of a request is the number of tokens the stage has seen |
| HfEngine.HFLayeredEngine.PrepareEpoch | edge_llm_scheduler/backends/hf_layered_engine.py:156-220 | stores the range under its epoch, or refuses a foreign assignment or a bad range and changes nothing |
| HfEngine.HFLayeredEngine.ActivateEpoch | edge_llm_scheduler/backends/hf_layered_engine.py:222-225 | switches to a prepared epoch, or changes nothing |
| HfEngine.HFLayeredEngine.RetireEpoch | edge_llm_scheduler/backends/hf_layered_engine.py:227-239 | forgets the stage of the epoch and every cache filed under it, and nothing else |
| HfEngine.HFLayeredEngine.ReleaseRequest | edge_llm_scheduler/backends/hf_layered_engine.py:350-352 | drops the caches of the request under every epoch |
| HfEngine.HFLayeredEngine.Forward | edge_llm_scheduler/backends/hf_layered_engine.py:464-526 | the loop over the layers computes the stage on the chunk and files the longer cache |
| HfEngine.HFLayeredEngine.Prefill | edge_llm_scheduler/backends/hf_layered_engine.py:324-335 | the checks in order, an empty token list standing for token 0, and no change on failure |
| HfEngine.HFLayeredEngine.Decode | edge_llm_scheduler/backends/hf_layered_engine.py:337-348 | the same with one token |
| HfEngine.HFLayeredEngine.RequestPositions | edge_llm_scheduler/backends/hf_layered_engine.py:394-414 | positions of exactly the requests cached under the active epoch |
| StagedDecoding.StepKeepsPassOk | edge_llm_scheduler/experiments/run_real_pipeline.py:294-322 | half-way through a pass the stages behind have seen the chunk, those ahead have not, and the rows in hand are the uncached ones |
| StagedDecoding.RequestStepIsRight | edge_llm_scheduler/experiments/run_real_pipeline.py:288-357 | every stage call keeps a request on its greedy run and advances it by one call |
| StagedDecoding.StepUnnoticed | edge_llm_scheduler/agents/stage_agent.py:116-140 | a stage call of one request is unnoticed by the others |
| StagedDecoding.InterleavingIsInvisible | edge_llm_scheduler/experiments/run_real_pipeline.py:408-421 | in any interleaving of stage calls of requests with fresh ids each request stands exactly where its own number of calls puts it |
| StagedDecoding.EnoughTurnsFinish | edge_llm_scheduler/experiments/run_real_pipeline.py:408-421 | with enough calls each request has the tokens it would get alone, and every stage holds prompt plus decode steps |
| RealPipelines.RealPipeline.ApplyPlan | edge_llm_scheduler/experiments/run_real_pipeline.py:225-247 | prepares all then activates all; if a prepare fails no stage has switched; on success no cache exists under the new epoch |
| RealPipelines.RealPipeline.CallStage | edge_llm_scheduler/experiments/run_real_pipeline.py:294-322 | the body of the loop over the stages |
| RealPipelines.RealPipeline.Feed | edge_llm_scheduler/experiments/run_real_pipeline.py:294-357 | one pass of a chunk: the next token of the uncached model, and other requests untouched |
| RealPipelines.RealPipeline.RunRequest | edge_llm_scheduler/experiments/run_real_pipeline.py:280-357 | the generated tokens are the uncached greedy continuation of what was seen under the id and the prompt, all stages have then seen it too, other requests are untouched |
| RealPipelines.VerifyEquivalence | edge_llm_scheduler/experiments/verify_equivalence.py:136-189 | any cut of the model generates token for token what one machine generates |
| RealPipelines.StaleCacheShows | edge_llm_scheduler/experiments/run_real_pipeline.py:408-414 | over models whose tokens and rows are numbers: every one of them answers as if the id were new exactly when nothing of the id is cached |
| RealPipelines.ReplanForgets | edge_llm_scheduler/experiments/run_real_pipeline.py:225-247 | after a re-plan every request counts as not begun, even one half-way through |
| RealPipelines.PositionsAgree | edge_llm_scheduler/backends/hf_layered_engine.py:394-414 | all stages report the same position, the number of tokens seen |
| MigrationChoice.GreedyIsMaximal | edge_llm_scheduler/policies/migration.py:184-207 | for non-negative costs the budget is respected and no offer left out for its cost would still fit |
| MigrationChoice.GreedyIsOptimal | edge_llm_scheduler/policies/migration.py:168-207 | for equal costs no selection that meets the deadline has a greater total priority |
| MigrationChoice.LeadingIsBest | edge_llm_scheduler/policies/migration.py:180-182 | no choice of m blocks is worth more than the m dearest |
| MigrationChoice.TargetsBalanced | edge_llm_scheduler/policies/migration.py:269-287 | any target that got a block scores at most the lowest score plus the largest block over its free memory |
| MigrationChoice.EqualTargetsDifferByOneBlock | edge_llm_scheduler/policies/migration.py:269-287 | between equal targets the assigned bytes differ by at most one largest block |
| MigrationBalance.LedgerCountsBytes | edge_llm_scheduler/policies/migration.py:269-287 | the ledger of a decision counts exactly the bytes its offers send to a target, an empty block as one byte |
| MigrationBalance.EachToLeastFull | edge_llm_scheduler/policies/migration.py:269-287 | each block goes to the first of the targets that are least full, by load and by the bytes of the blocks before it over the free memory |
| MigrationBalance.SpreadIsBalanced | edge_llm_scheduler/policies/migration.py:269-287 | in terms of the bytes the offers send: a target that gets anything ends at most one largest block fuller than any other |
| MigrationBalance.EqualTargetsGetEqualBytes | edge_llm_scheduler/policies/migration.py:269-287 | the bytes sent to targets of equal load and memory differ by at most one largest block |
| MigrationTerms.CostIsTripAndTransfer | edge_llm_scheduler/backends/mock_storage.py:89-101 | a move costs the round trip, local or of the destination, and its bytes over the width of the slower link, which is at least one |
| MigrationTerms.WorthIsRecomputeTime | edge_llm_scheduler/policies/migration.py:174-175 | a block is worth the larger of its reuse count and the least count, times its prefill time |
| MigrationTerms.LoadsFastestCopy | edge_llm_scheduler/policies/migration.py:240-247 | a block is loaded from the accelerator, main memory or disk of the node, in that order |
| MigrationTerms.AppraisedInOrder | edge_llm_scheduler/policies/migration.py:168-178 | blocks are appraised in the order asked for |
| MigrationTerms.RankIsStable | edge_llm_scheduler/policies/migration.py:180-180 | of two blocks the one asked for first and worth no less stays first |
| MigrationTerms.TargetsAreAccepted | edge_llm_scheduler/policies/migration.py:256-259 | the targets are exactly the alive nodes that pass the filter, with their load and free memory |
| MigrationTerms.TargetsInOrder | edge_llm_scheduler/policies/migration.py:256-259 | targets keep the order of the nodes |
| MigrationTerms.PlannedMoveTerms | edge_llm_scheduler/policies/migration.py:168-205 | a planned move carries the worth of its block and the cost of that very move, and starts at the first listed copy on the node |
| MigrationTerms.AllOffersMove | edge_llm_scheduler/policies/migration.py:184-207 | without a deadline every offer with a target is a planned move, in order |
| MigrationTerms.WhichMovesFail | edge_llm_scheduler/policies/migration.py:215-236 | of moves of different blocks exactly those fail that find no copy at their source in the store at the start, and no move disturbs another block |
| Migration.MoveCostNonNegative | edge_llm_scheduler/backends/mock_storage.py:89-101 | with non-negative round trips no move has a negative cost |
| Migration.PriorityMigration.SelectTargets | edge_llm_scheduler/policies/migration.py:256-259 | the alive nodes that pass the filter, in order |
| Migration.PriorityMigration.AssignTarget | edge_llm_scheduler/policies/migration.py:269-287 | the first target of lowest score, charged with the block |
| Migration.PriorityMigration.Appraise | edge_llm_scheduler/policies/migration.py:168-178 | the blocks that load with their priorities, and those that do not |
| Migration.PriorityMigration.Decide | edge_llm_scheduler/policies/migration.py:157-213 | the loops compute exactly the plan of the specification: ranked, placed, kept while they fit |
| Migration.PriorityMigration.Execute | edge_llm_scheduler/policies/migration.py:215-236 | moves one by one, failed moves become drops, dropped blocks are evicted everywhere, the store stays well-formed |
| MigrationEffect.PlanPartitions | edge_llm_scheduler/policies/migration.py:168-207 | each block asked about lands in exactly one of moves and drops |
| MigrationEffect.PlannedMovesSound | edge_llm_scheduler/policies/migration.py:186-205 | every planned move starts at a held copy on the leaving node and ends on a target |
| MigrationEffect.LeavingNodeIsMigrated | edge_llm_scheduler/policies/migration.py:157-236 | decide then execute: all moves succeed, moved blocks are at their destination, dropped ones gone, all others untouched |
| MigrationEffect.NodeIsEmptyIff | edge_llm_scheduler/policies/migration.py:215-254 | nothing is left on the node exactly when no moved block had a second copy there |
| MigrationEffect.MovedWithoutDeadline | edge_llm_scheduler/policies/migration.py:157-213 | without a deadline exactly the blocks that load are moved, if there is a target at all |
| MigrationEffect.NodeIsEmptyWithoutDeadlineIff | edge_llm_scheduler/policies/migration.py:215-254 | without a deadline nothing is left on the node exactly when there was no target, or no block that loads had a second copy on it |
| MigrationEffect.SecondCopyStays | edge_llm_scheduler/policies/migration.py:215-254 | a block saved on the accelerator and in main memory of a node is still there after its move succeeded |
| MigrationEffect.ColonFreeTargetsElsewhere | edge_llm_scheduler/policies/migration.py:249-254 | with colon-free ids no target location looks like one of the leaving node |
| MigrationEffect.PlanFillsDeadline | edge_llm_scheduler/policies/migration.py:184-207 | the plan meets the deadline, and any block dropped for its cost would break it |
| MigrationEffect.PlanIsMostValuable | edge_llm_scheduler/policies/migration.py:168-207 | when all moves cost the same no other selection within the deadline is worth more than the plan |
| NodeLeave.HeldIdsAreHeld | edge_llm_scheduler/core/task_scheduler.py:255-257 | the ids collected for a node are exactly the hashes with a copy on it, each once |
| NodeLeave.MigrateAway | edge_llm_scheduler/core/task_scheduler.py:255-280 | collect, decide, execute on the store: partition and deadline always, and with colon-free ids the exact contents afterwards and the exact condition for an empty node |
| NodeLeave.OnNodeLeft | edge_llm_scheduler/core/task_scheduler.py:240-280 | blocks are migrated exactly when the event is not stale, the node is known and has a stage in the current plan, if there is one; otherwise the store is untouched |
| Wire.UnpackPack | edge_llm_scheduler/agents/stage_agent.py:37-37 | the four length bytes are read back as the length |
| Wire.PackIsBigEndian | edge_llm_scheduler/agents/stage_agent.py:37-37 | the length is in network byte order |
| Wire.FrameLayout | edge_llm_scheduler/agents/stage_agent.py:61-63 | length of the header, header, length of the payload, payload |
| Wire.StreamReadsBack | edge_llm_scheduler/agents/stage_agent.py:43-63 | frames written in sequence are read back as the same sequence, followed by the frames of what comes after, with the same bytes left unread |
| Wire.WrittenIsRead | edge_llm_scheduler/agents/stage_agent.py:43-63 | a whole stream of frames is read back with no byte left over |
| Wire.CutFrameIsClosed | edge_llm_scheduler/agents/stage_agent.py:43-58 | a frame cut short anywhere is reported as a closed connection |
| Wire.BrokenStreamKeepsWholeFrames | edge_llm_scheduler/agents/stage_agent.py:43-58 | a stream that breaks off inside a frame yields exactly the frames before it, and exactly the broken piece is left over |
| Wire.RecvExactly | edge_llm_scheduler/agents/stage_agent.py:43-50 | the next bytes under any fragmentation, or a closed connection with everything consumed |
| Wire.ReadFrame | edge_llm_scheduler/agents/stage_agent.py:53-58 | the frame at the front of the stream, and the rest left unread |
| Wire.WriteFrame | edge_llm_scheduler/agents/stage_agent.py:61-63 | the bytes of the frame, or a refusal before anything is sent when a length does not fit |
| Wire.WriteFrames | edge_llm_scheduler/agents/stage_agent.py:61-63 | a sequence of frames is sent as the concatenation of their bytes |
| Wire.ReadUntilClosed | edge_llm_scheduler/agents/stage_agent.py:185-191 | the reading loop of a connection returns exactly the frames of its stream, and has consumed everything when the connection closed |
| Mailbox.BoxHoldsLatest | edge_llm_scheduler/backends/tcp_transport.py:118-137 | after any operations with NUL-free tags the store holds exactly the latest unconsumed push of each tag |
| Mailbox.PullReturnsLatest | edge_llm_scheduler/backends/tcp_transport.py:43-64 | a pull returns exactly the latest unconsumed push under its tag, or a miss |
| Mailbox.PushThenPullIff | edge_llm_scheduler/backends/tcp_transport.py:43-64 | what is pushed under a tag can be pulled under it exactly when the tag contains no NUL |
| Mailbox.TcpReceiver.Handle | edge_llm_scheduler/backends/tcp_transport.py:118-137 | one message: store, hand out and remove, miss, or refuse |
| Mailbox.PushTo | edge_llm_scheduler/backends/tcp_transport.py:43-47 | a push is filed under what precedes the first NUL of the tag, which is the tag itself with its own data exactly when the tag has no NUL |
| Mailbox.PullFrom | edge_llm_scheduler/backends/tcp_transport.py:49-64 | a pull hands out what is stored and removes it |
| Decimals.DigitsDiffer | edge_llm_scheduler/core/types.py:155-158 | different numbers are written differently |
| Decimals.DigitsRead | edge_llm_scheduler/core/types.py:155-158 | what is written reads as the number, without a leading zero |
| Mailbox.TagLooksLike | edge_llm_scheduler/core/types.py:152-158 | the text of a tag |
| Mailbox.TagsAreDistinct | edge_llm_scheduler/core/types.py:152-158 | tags are injective in request, epoch, stage, source and written destination when node ids contain no colon, whatever the request id contains; only a missing destination and a node called unassigned are written alike |
| Mailbox.TagsOfOneNodeAreDistinct | edge_llm_scheduler/core/types.py:152-158 | in the mailbox of one node, whatever it is called, different hops into it have different tags |
| Mailbox.ColonsCollide | edge_llm_scheduler/core/types.py:152-158 | with a colon in a node id two different hops share a tag |
| Mailbox.DeliveriesDoNotMix | edge_llm_scheduler/core/task_scheduler.py:162-186 | no traffic of other hops can take or replace a pushed activation |
| Gateway.SkipAlreadySent | edge_llm_scheduler/gateway/vllm_gateway.py:153-168 | the part of the replay after the longest common prefix; it completes what was sent to the replay exactly when flagged exact |
| Gateway.Chunk | edge_llm_scheduler/gateway/vllm_gateway.py:346-357 | pieces of 64 characters, a rest, and the empty closing piece, which join up to the text |
| Gateway.ForwardReplay | edge_llm_scheduler/gateway/vllm_gateway.py:304-317 | the client ends up with the replayed text exactly when the replay repeats what was sent; a replay that is the continuation alone is forwarded whole exactly when one of the texts is empty or they begin differently |

## Left out

- Tensor arithmetic, masks as tensors, rotary embedding, dtype conversion, devices and checkpoint loading: layers are abstract functions and the activation payload is the hidden state itself.
- Floating-point rounding in weights, scores and costs: exact reals are used.
- JSON, base64, SHA-256 and UTF-8: an encoding that decoding undoes, or an injective one, is a parameter.
- Sockets, threads, asyncio scheduling, HTTP and timeouts: calls happen one at a time in any order; a receive returns any non-empty part of what is there.
- The choice of healthy nodes: the set is a parameter, arbitrary at every routing.
- KV blocks registered from results in `_run_task`, prefix hits, task status marks, timestamps, metrics, events and counters: they do not influence the modelled results.
- The retries that `_on_node_left` starts for pending tasks of the leaving node: they are recovery tasks, which the model shows are never answered.
- Node states are values in the node table rather than shared objects; aliasing between node objects is not captured.
- The order of locations inside a KV index entry is left open; results hold for every order. The order of hashes is the store's arrival order.
- The KV store is not part of the interleaved protocol: copying and migration are proved one call at a time.
- A drain in the interleaved protocol may retire a node at any later time and more than once, which allows more runs than the source has.
- TorchEngine.TorchLayeredEngine.Generate: the checks of tensor kind and checksum of an incoming activation and the KV block of the result are left out; activations arrive as they were sent.
- RealPipelines.RealPipeline.ApplyPlan: the stages are the ones that are alive and the split of the layers is a parameter.
- RealPipelines.RealPipeline.RunRequest: all stages are alive; failures of a stage in the middle of a pass are not modelled.
- RealPipelines.VerifyEquivalence: the cut side is the controller loop instead of the script's own loop over stages; the comparison is of tokens, not of logits.
- NodeLeave.OnNodeLeft: the retries of pending tasks, which are never answered, and the closing reconfiguration, which is ReconfigureForTopology, are left out.
- ModelManagement.MemoryConserved: its runs do not register a known node again; what that does is stated by ReregistrationConservesIff.
- Two node ids registered with one network address, and so sharing one mailbox.
- The order in which pushes over one connection arrive: the protocol lets pushes overtake each other.
- HfEngine.HFLayeredEngine.Prefill: hidden rows handed in are taken to be non-empty, as the agent only decodes non-empty payloads.
- Gateway.ForwardReplay: whether a replay repeats what was sent is decided by the upstream server and is a parameter here; the rest of the gateway's recovery is not modelled.
- `split_layers`, `even_split` and `plan_stages`: weaker forms of the proportional split.
- `DefaultMigration`, `E2Placement`, `DefaultPlacement`, `CapabilityPlacement`: simple heuristics without a guarantee to state.
- `load_placement`, `load_layers`, `unload`, heartbeats that replace node state, and, in the interleaved protocol, attaching a runtime for an id that has one: they bypass the ledger and the epochs.
- `LayeredMockEngine`, `MockEngine`, `HFLayeredEngine.generate`, simulations, datasets, measurement and fleet scripts: stand-ins or input and output.
- Checksums and integer parsing of activation envelopes: the wire is lossless here.
