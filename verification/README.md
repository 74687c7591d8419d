# Constellation controller: a verified model

A Dafny model of the controller of Constellation, a small task orchestration cluster: the task and chunk
lifecycle, the scheduler, the heartbeat sweep, the splitter, the priority queue, node placement and the
WebSocket hub. `dafny verify dfyconfig.toml` checks everything.

## What is modelled

* **Rows and statements.** The tables are maps from primary keys to rows (`Records`, `TaskStore`). Each SQL
  statement is a function on the database value `Db`; the class `Store` runs them and says so of its whole
  contents. A query without `ORDER BY` lists its rows in any order, and what is proved of the loops holds
  for every order. A nullable text column is an `Option`, and `None` (NULL) matches no comparison.
* **One scheduling cycle** (`Scheduling`): the loops of `scheduleCycle` as methods on the store, proved to
  refine the relation `Cycle`, which says of every row what is decided for it alone on the node snapshot.
* **One heartbeat sweep** (`Heartbeats`): the nested loops, proved to refine the relation `Sweep`.
* **The handlers** (`Handlers`) and, on top of them, **the lifecycle** (`Lifecycle`, `Invariants`): a
  transition system whose steps are submit, cancel, retry, poll, report, cycle, sweep and any change to the
  nodes, with counters for what was handed out and rescheduled. Handler calls, cycles and sweeps are atomic
  steps there; the relations that define the steps are the postconditions of the methods. Agents report only
  what they pulled, as completed or failed (`agent/src/executor.rs`). Submissions may carry gang fields,
  which the HTTP form leaves off, so that gangs are covered.
* **The interleaved controller** (`Interleaving`): the scheduler, the sweeper and any number of handlers as
  threads between single store calls, each with the snapshot it read earlier; reports are unrestricted. On
  it, `HandOuts` bounds how often an item is handed out, `Stranding` says when a split parent is left
  waiting, and `Failures` holds two complete runs in which a guarantee of the atomic steps fails.
* **The splitter** (`FileSplitting`, `SplitPlans`, `Slices`): files are byte sequences, `bufio.ScanLines` and
  its 1 MB limit are written out, reads may be short. `Text` and `ChunkIds` hold printing and parsing of IDs
  and file names.
* **The priority queue** (`TaskQueue`): `container/heap` on a slice of items with back-indices. The in-place
  methods are proved against functions on sequences, and the heap facts about those functions.
* **Placement and scoring** (`Placement`, `Scoring`): both node selectors, over real numbers.
* **The hub** (`Hub`): the three branches of the loop as methods on clients with bounded queues, proved
  against steps on values; safety and delivery over every run of the steps.

Where the code and its comments differ the model follows the code: the documented score range is 0 to 1
(`controller/scheduler/scoring.go:20`), while the highest score the code can give is 0.95.

Four things go wrong in the code, each shown by a lemma together with the condition for it:

* A file of size 0 cut by size is split into no chunks at all, and its task stays in `splitting` until it is
  cancelled (`Invariants.EmptyPlanSticksExactly`, `Invariants.StuckUntilCancelled`).
* Two overlapping polls of one node can hand out the same task or chunk twice (`Failures.HandedOutTwice`,
  `Failures.ChunkHandedOutTwice`). The hand-outs of an item, counting those under way, exceed its budget at
  some time if and only if a poll reads it with the budget used up while another poll of the node holds it
  (`HandOuts.HandOutsExactly`); for a chunk that is: if and only if any poll reads it while another holds it
  (`HandOuts.ChunkHandOutsExactly`).
* The scheduler can put a parent back in `splitting` after its last chunk has completed it, because it read the
  parent as queued before (`Failures.ParentStranded`), or because a manual retry that had seen the parent
  cancelled queued it again afterwards (`Failures.ParentStrandedByRetry`). A parent is left behind, in
  `splitting` or in the queue, exactly by such a write (`Stranding.LeftExactly`, `Stranding.RunLeavesExactly`);
  with atomic steps none is (`Invariants.NoParentStranded`).
* A client whose queue fills up before its greeting is evicted, and the greeting then meets a closed queue
  (`Hub.GreetingCanMeetClosedQueue`, `Hub.GreetingMeetsClosedQueueExactly`).

## Model

| member | source | states |
|---|---|---|
| `Invariants.HandOutBound` | controller/api/tasks.go:370-421 | in every run a task was handed out at most retry_count + 1 times, one fewer while it awaits handing out, and a chunk at most once |
| `Invariants.ReportDecides` | controller/state/store.go:673-687 | in every run a report for a task leaves its row completed exactly for exit code 0 and failed exactly for any other, with that code and nothing else changed |
| `Invariants.HeardFromStaysOnline` | controller/scheduler/scheduler.go:323-340 | in every run no sweep touches a node last heard from at most 30 seconds ago, nor the tasks on it |
| `Invariants.RescheduleBound` | controller/scheduler/scheduler.go:344-373 | in every run the sweep reschedules a task at most max(retry_max, 0) times |
| `Invariants.CompletedParentsAreDone` | controller/api/tasks.go:454-483 | in every run a completed split parent has a chunk and all its chunks are completed or failed |
| `Invariants.CompletedExactlyWhenDone` | controller/api/tasks.go:454-483 | in every run, cancels and manual retries included, a split parent is completed exactly when it has a chunk and all its chunks are completed or failed |
| `Invariants.NoParentStranded` | controller/api/tasks.go:466-483 | in every run a parent in splitting that has chunks has an open one, so the last result never leaves it waiting |
| `Invariants.GangCompletedExactlyWhenDone` | controller/api/tasks.go:466-483 | in every run whose polls name a node a gang is completed exactly when it has chunks and all are done, so a scheduled gang with chunks has an open one |
| `Invariants.NoChunksBeforeSplitting` | controller/scheduler/scheduler.go:109-124 | in every run without manual retry a waiting split task has no chunks |
| `Invariants.StuckUntilCancelled` | controller/api/tasks.go:454-483 | in every run a parent in splitting without chunks stays so until it is cancelled |
| `Invariants.EmptyPlanSticksExactly` | controller/scheduler/scheduler.go:109-124 | a cycle leaves a waiting split task in splitting without chunks if and only if it had none and its file is empty and cut by size |
| `Invariants.MeasureDropsInRuns` | controller/scheduler/scheduler.go:344-373 | in every run without manual retry 3·(budget − retries) + rank strictly drops at every change out of a non-terminal status, never grows, and terminal statuses stay terminal |
| `Invariants.MoveBound` | controller/state/store.go:689-695 | in every run without manual retry a task leaves non-terminal statuses at most 3·max(retry_max, 0) + 3 times |
| `Invariants.GangAllOrNothingInStore` | controller/scheduler/scheduler.go:126-168 | a cycle gives a gang without chunks nothing, or one scheduled chunk per rank on distinct eligible nodes, the latter exactly when enough nodes are eligible |
| `Invariants.RunKeepsInv` | controller/state/store.go:647-695 | the row and history invariants hold in every state of every run |
| `Invariants.StepEffect` | controller/api/tasks.go:208-504 | every step changes every task and chunk row by one of the listed changes, counters included, and a chunk that becomes done finishes its parent unless another is open |
| `Invariants.ChunkRowParsed` | controller/api/tasks.go:454-472 | in reachable states every chunk ID is recognised and parsed back to the parent in its row |
| `Lifecycle.RowChanges` | controller/state/store.go:647-695 | what each step does to a task row, and from which statuses that can happen |
| `Lifecycle.ChunkRowChanges` | controller/state/store.go:919-943 | the same for a chunk row |
| `Lifecycle.NewChunkRows` | controller/scheduler/scheduler.go:109-165 | only a cycle adds chunk rows, and only for tasks that were waiting |
| `Lifecycle.SubmissionIsAStep` | controller/api/tasks.go:126-148 | an accepted submission stores a fresh queued row |
| `Lifecycle.AcceptableExactly` | controller/api/tasks.go:52-124 | a request is acceptable exactly if it has a command, a priority the queue query ranks, a runtime, a strategy the splitter knows, and an online target, as far as it names them |
| `Lifecycle.SubmittedNeverOvercommits` | controller/scheduler/scoring.go:41-52 | for every submitted task the CPU branch "remaining < 0" is dead, whatever the node reports |
| `Interleaving.NoNodeWhileWaiting` | controller/state/store.go:647-695 | interleaved, a waiting task has no node, and a split task has none and is never pending for one |
| `Interleaving.FineRescheduleBound` | controller/scheduler/scheduler.go:344-373 | interleaved, the sweeper's retries of a task stay within max(retry_max, 0), whatever falls between its read and its write |
| `Interleaving.FineInvKept` | controller/state/store.go:665-695 | every single store call, on whatever stale snapshot, keeps the interleaved invariant |
| `Interleaving.SweeperNextTaskKept` | controller/scheduler/scheduler.go:350-372 | the sweeper's comparison with the count it read keeps the bound |
| `Interleaving.CallsAreTurn` | controller/scheduler/scheduler.go:107-201 | the single calls the scheduler decides for a task, run without interruption, are its turn in the cycle: split, gang or placement |
| `Interleaving.ChunkCallIsTurn` | controller/scheduler/scheduler.go:204-224 | the same for a queued chunk |
| `Interleaving.CallsArePoll` | controller/api/tasks.go:370-421 | the single calls of a poll, in any row order and without interruption, are the poll step |
| `Interleaving.HandOutIsNextCall` | controller/api/tasks.go:387-418 | the hand-outs of a poll are these calls, one after the other |
| `Interleaving.UndisturbedRescue` | controller/scheduler/scheduler.go:350-372 | on a row unchanged since it was read the sweeper's comparison and write are the rescue of the sweep |
| `HandOuts.FineHandOutBound` | controller/api/tasks.go:370-421 | interleaved, in every run in which no poll reads what another poll of the node still holds, a task is handed out at most retry_count + 1 times and a chunk at most once |
| `HandOuts.SeparatePollsBound` | controller/api/tasks.go:370-421 | so in every run in which polls of the same node do not overlap |
| `HandOuts.HandOutsExactly` | controller/api/tasks.go:370-421 | in every interleaved run, for tasks and chunks: hand-outs made and under way stay within the budget at all times if and only if no poll reads the item, while another poll of the node holds it, when the budget is used up |
| `HandOuts.ChunkHandOutsExactly` | controller/api/tasks.go:399-418 | for a chunk they exceed one if and only if some poll has read it while another poll of the node held it; so when no poll holds it, it was handed out at most once if and only if that never happened |
| `HandOuts.RereadRaisesWeightExactly` | controller/state/store.go:772-783 | the read of a poll promises one hand-out too many exactly when another poll of the node still holds the task |
| `HandOuts.StepKeepsItem` | controller/api/tasks.go:370-421 | every single store call keeps hand-outs made, under way, ready and still to be scheduled within the budget of the item |
| `Failures.HandedOutTwice` | controller/api/tasks.go:370-421 | a run in which two overlapping polls hand out one task twice, never retried |
| `Failures.ChunkHandedOutTwice` | controller/api/tasks.go:370-421 | the same for a chunk, of a parent never retried |
| `Stranding.LeftExactly` | controller/state/store.go:647-695 | interleaved, a step leaves a parent behind, in splitting or in the queue with all chunks done and no handler to complete it, if and only if it writes splitting or a requeue over a parent that was elsewhere, with all chunks done and no such handler |
| `Stranding.StrandedExactly` | controller/scheduler/scheduler.go:109-124 | in splitting, that write is the scheduler's call after a split, whenever it read the parent |
| `Stranding.RunLeavesExactly` | controller/scheduler/scheduler.go:109-124 | a run leaves a parent behind at some time if and only if it makes such a write |
| `Failures.ParentStranded` | controller/scheduler/scheduler.go:109-124 | a run of submit, split, poll, cancel, retry and a last report that strands its parent |
| `Failures.ParentStrandedByRetry` | controller/api/tasks.go:236-261 | a run in which a retry that saw the parent cancelled queues it after its last chunk completed it, and the next cycle strands it without any stale read |
| `Scheduling.Scheduler.ScheduleCycle` | controller/scheduler/scheduler.go:81-225 | the loops refine the pointwise relation on the snapshot they read |
| `Scheduling.Scheduler.Turn` | controller/scheduler/scheduler.go:107-201 | one turn of the task loop does what is decided for that task |
| `Scheduling.Scheduler.SplitTurn` | controller/scheduler/scheduler.go:109-124 | splits and inserts, or fails the task |
| `Scheduling.Scheduler.GangTurn` | controller/scheduler/scheduler.go:126-168 | all members at once or nothing |
| `Scheduling.Scheduler.ChunkTurn` | controller/scheduler/scheduler.go:204-224 | a queued chunk is placed as its parent would be |
| `Scheduling.CycleIsDeterministic` | controller/scheduler/scheduler.go:81-225 | the result of a cycle depends on the store and the snapshot only, not on the order of the queued lists |
| `Scheduling.PlacedInStore` | controller/scheduler/scheduler.go:170-201 | an ordinary waiting task ends assigned to the node the selectors choose and pending for it, or unchanged when no node suits |
| `Scheduling.ChunkPlacedInStore` | controller/scheduler/scheduler.go:204-224 | a queued chunk ends on the node the selectors choose for its parent, or unchanged |
| `Scheduling.SplitInStore` | controller/scheduler/scheduler.go:109-124 | a split task ends in splitting with a row for every planned chunk, or failed with exit code 1 |
| `Scheduling.ReadingsAfterCycle` | controller/scheduler/scheduler.go:158-200 | a node that was given work shows one running task more than in the snapshot, however many it was given, and every other reading as it was |
| `Scheduling.CycleComplete` | controller/scheduler/scheduler.go:107-224 | the turns of both loops together are the pointwise decisions, live metrics included |
| `Scheduling.SameDemandSameNode` | controller/scheduler/scheduler.go:205-210 | a parent row changed earlier in the cycle places its chunks as before |
| `Scheduling.NewChunksConsistent` | controller/state/store.go:807-809 | chunks inserted in one cycle never clash, so the order of insertion does not matter |
| `Heartbeats.CheckHeartbeats` | controller/scheduler/scheduler.go:317-341 | exactly the silent online non-controller nodes go offline, each running task of such a node is rescued once, nothing else changes |
| `Heartbeats.SweepByTheClock` | controller/scheduler/scheduler.go:317-373 | afterwards no online worker is silent for over 30 seconds; a node row changes exactly if it was, and then goes offline; a running task changes exactly if its node did, to queued one retry higher or to failed |
| `Heartbeats.RescheduleNodeTasks` | controller/scheduler/scheduler.go:344-373 | each running task of the node is requeued one retry higher or failed, no other changes |
| `Heartbeats.SweepIsDeterministic` | controller/scheduler/scheduler.go:317-373 | the result does not depend on the order of nodes and tasks |
| `Heartbeats.SweepIsIdempotent` | controller/scheduler/scheduler.go:317-373 | a second sweep at the same time changes nothing |
| `Handlers.Server.HandleSubmitTask` | controller/api/tasks.go:45-167 | exactly the acceptable requests create exactly one queued row |
| `Handlers.Server.Validate` | controller/api/tasks.go:52-124 | the validations accept exactly the acceptable requests |
| `Handlers.Server.HandleCancelTask` | controller/api/tasks.go:208-234 | cancels exactly the tasks that are not terminal |
| `Handlers.Server.HandleRetryTask` | controller/api/tasks.go:236-261 | requeues exactly the failed and cancelled tasks |
| `Handlers.Server.HandleGetPendingTasks` | controller/api/tasks.go:370-421 | hands out everything pending for the node once and marks it running |
| `Handlers.Server.HandleTaskResult` | controller/api/tasks.go:429-504 | the report step, and a panic exactly for IDs under seven bytes |
| `Handlers.TaskReportMeans` | controller/api/tasks.go:485-504 | a report for a task decides its row by the exit code and touches nothing else |
| `Handlers.ChunkReportMeans` | controller/api/tasks.go:454-483 | a report for a chunk moves its row to the reported status and completes the parent exactly when all its chunks are completed or failed |
| `Handlers.AggregateResults` | controller/splitter/splitter.go:325-351 | complete means all chunks done; failed means complete with a failed chunk |
| `Handlers.BothCompletionTests` | controller/state/store.go:901-917 | the two-count test is the flag loop for every chunk status assignment, except without chunks |
| `TaskStore.CountsTellAllDone` | controller/state/store.go:901-917 | the two counts are positive and equal exactly when there is a chunk and all are done |
| `TaskStore.Store.AreAllChunksCompleted` | controller/state/store.go:901-917 | answers whether there is a chunk and all are done |
| `TaskStore.Store.CreateTask` | controller/state/store.go:513-557 | inserts one row, with defaults for what is empty; a duplicate key changes nothing |
| `TaskStore.Store.UpdateTaskAssignment` | controller/state/store.go:665-671 | sets node and status, whatever the status was |
| `TaskStore.Store.UpdateTaskResult` | controller/state/store.go:673-687 | sets the status by the exit code, whatever it was |
| `TaskStore.Store.IncrementTaskRetry` | controller/state/store.go:689-695 | one retry more, queued, no node |
| `TaskStore.Store.UpdateTaskStatus` | controller/state/store.go:647-663 | sets the status only |
| `TaskStore.Store.CreateTaskChunk` | controller/state/store.go:803-826 | inserts a row, with its default ID and status; a duplicate key keeps the old row |
| `TaskStore.Store.UpdateChunkStatus` | controller/state/store.go:919-935 | sets the status, and the exit code for completed and failed |
| `TaskStore.Store.UpdateChunkAssignment` | controller/state/store.go:937-943 | sets node and status |
| `TaskStore.Store.UpdateNodeStatus` | controller/state/store.go:433-439 | sets a node's status |
| `TaskStore.Store.UpdateNodeLiveMetrics` | controller/state/store.go:460-465 | replaces the readings of a node |
| `TaskStore.Store.GetPendingTasksForNode` | controller/state/store.go:772-799 | lists each scheduled task of the node once |
| `TaskStore.Store.GetPendingChunksForNode` | controller/state/store.go:863-899 | lists each scheduled chunk of the node once |
| `TaskStore.Store.GetQueuedTasks` | controller/state/store.go:697-732 | lists each submitted or queued task once, by priority and then creation time |
| `TaskStore.Store.GetQueuedChunks` | controller/state/store.go:734-770 | lists each queued chunk once |
| `TaskStore.Store.ListRunningTasks` | controller/state/store.go:593-645 | lists each running task once |
| `TaskStore.Store.ListNodes` | controller/state/store.go:392-431 | lists each node once |
| `TaskStore.Store.GetOnlineWorkerNodes` | controller/state/store.go:475-509 | the snapshot holds each online worker once, with five readings |
| `Placement.FindBestNode` | controller/scheduler/scheduler.go:228-260 | answers the chosen node: pinned, else the first with the highest score among the online nodes that fit |
| `Placement.PlaceTask` | controller/scheduler/placement.go:21-93 | answers the same node, fails exactly when there is none, tells the failing stage, and never with "scoring failed" |
| `Placement.BestNodeExists` | controller/scheduler/scheduler.go:228-260 | there is a chosen node exactly when some online node fits and, for a pinned task, is the target |
| `Placement.ChoiceIsBest` | controller/scheduler/scheduler.go:250-257 | the choice is unique |
| `Placement.BestCandidateIsBest` | controller/scheduler/placement.go:26-80 | filtering first does not change which node is chosen |
| `Placement.FilterNodes` | controller/scheduler/placement.go:26-40 | the candidates are the eligible nodes in list order |
| `Placement.PinnedCandidate` | controller/scheduler/placement.go:53-67 | for a pinned task the first candidate that is the target, if any |
| `Placement.BestCandidate` | controller/scheduler/placement.go:69-80 | the first candidate with the highest score, with that score |
| `Placement.FindGangNodes` | controller/scheduler/scheduler.go:288-299 | the first WorldSize eligible nodes, or none |
| `Placement.GangAllOrNothing` | controller/scheduler/scheduler.go:288-299 | no node or WorldSize distinct eligible ones, none exactly when too few are eligible |
| `Placement.GangIsFirst` | controller/scheduler/scheduler.go:288-299 | the gang are the first eligible nodes in list order |
| `Placement.EligibleExactly` | controller/scheduler/scheduler.go:263-286 | on sane readings, truncation included, a node is eligible exactly when it is online and what it has free covers the cores, memory and GPUs asked for |
| `Placement.NothingAskedFitsExactly` | controller/scheduler/scheduler.go:263-268 | beyond sane readings a task that asks for nothing passes exactly while less than one core is missing |
| `Placement.RunningTasksCost` | controller/scheduler/scoring.go:32-34 | each of the first five running tasks costs a tenth of the score the node would have without any, further ones nothing |
| `Placement.LeftInTenths` | controller/scheduler/scoring.go:32-34 | so scores of otherwise equal nodes are as ten less min(running tasks, 5) |
| `Placement.FewerTasksScoreHigher` | controller/scheduler/scoring.go:32-34 | below five running tasks one task more is a strictly lower score |
| `Placement.NotTheBusier` | controller/scheduler/scheduler.go:250-257 | no selector answers the busier of two otherwise equal eligible nodes |
| `Placement.ReadingsTradeOff` | controller/scheduler/scoring.go:21-91 | between readings of one machine a point of CPU usage weighs 0.35, of memory usage 0.30, and load per core 0.25; an idle machine scores 0.95 |
| `Placement.OverloadIsFull` | controller/scheduler/scoring.go:79-86 | load beyond the number of cores makes no further difference |
| `Placement.UnknownHardwareScore` | controller/scheduler/scoring.go:41-91 | a free node of unknown hardware scores 0.325 |
| `Scoring.ScoreRangeAndMonotone` | controller/scheduler/scoring.go:21-37 | on sane readings the unclamped score is in [0, 0.95], clamping changes nothing, and busier never scores higher |
| `Placement.RemainingNeverNegative` | controller/scheduler/scoring.go:41-76 | for sane readings and a node that passes the hard constraints the "remaining < 0" branches are dead |
| `Placement.RemainingNegativeExactly` | controller/scheduler/scheduler.go:263-276 | whatever the readings, the CPU branch is taken if and only if the task asks for no core and the CPU usage is above 100, and the memory branch is dead for a positive requirement |
| `TaskQueue.PriorityQueue.Enqueue` | controller/scheduler/queue.go:27-36 | keeps heap order and positions, adds exactly the task |
| `TaskQueue.PriorityQueue.Dequeue` | controller/scheduler/queue.go:39-49 | takes out a task no other is before; nothing on an empty queue |
| `TaskQueue.PriorityQueue.Peek` | controller/scheduler/queue.go:52-61 | shows a task no other is before |
| `TaskQueue.PriorityQueue.Remove` | controller/scheduler/queue.go:71-82 | takes out exactly one task with the ID if there is one |
| `TaskQueue.PriorityQueue.Swap` | controller/scheduler/queue.go:105-109 | exchanges two items and their positions |
| `TaskQueue.PriorityQueue.Up` | controller/scheduler/queue.go:96-116 | the in-place loop computes the sift-up function |
| `TaskQueue.PriorityQueue.Down` | controller/scheduler/queue.go:96-126 | the in-place loop computes the sift-down function and says whether the item moved |
| `TaskQueue.RemovalFacts` | controller/scheduler/queue.go:71-82 | removal from any position leaves a heap without exactly that item |
| `TaskQueue.PushFacts` | controller/scheduler/queue.go:111-116 | insertion leaves a heap with exactly that item more |
| `TaskQueue.LoweredIsHeap` | controller/scheduler/queue.go:96-109 | sift-down repairs the heap unless the item did not move |
| `TaskQueue.RaisedIsHeap` | controller/scheduler/queue.go:96-109 | sift-up repairs the heap |
| `TaskQueue.RootIsFirst` | controller/scheduler/queue.go:96-103 | no item of a heap is before its root |
| `TaskQueue.DrainFollowsOrderBy` | controller/state/store.go:708-716 | draining is a permutation with the key sequence of the ORDER BY |
| `TaskQueue.PriorityOrder` | controller/scheduler/queue.go:129-142 | critical before high before normal before low, any other priority as normal, older first, in the queue as in the query |
| `TaskQueue.Drain` | controller/scheduler/queue.go:39-49 | repeated Dequeue calls empty the queue in such an order, whatever listing in ORDER BY order one compares with |
| `FileSplitting.SplitByLines` | controller/splitter/splitter.go:73-161 | whatever lines make up the file: chunk j holds exactly lines [jL, min((j+1)L, total)), each without one trailing carriage return, in ceil(total/L) files; an error exactly for a line of 1 MB or for no lines |
| `FileSplitting.RawLinesAre` | controller/splitter/splitter.go:84-94 | the lines of a file are determined: newline-free pieces put together with newlines are what the scanner sees |
| `FileSplitting.EveryFileHasLines` | controller/splitter/splitter.go:84-94 | every file is made up of lines |
| `FileSplitting.LineCount` | controller/splitter/splitter.go:84-94 | there are as many lines as newlines, and one more if the file does not end in one |
| `FileSplitting.WriteChunks` | controller/splitter/splitter.go:117-155 | the writing loop fills the chunk files so |
| `FileSplitting.LineFilesLossless` | controller/splitter/splitter.go:117-155 | the chunk files concatenated are the input with a final newline if and only if no line ends in a carriage return |
| `FileSplitting.NoCRMeansLossless` | controller/splitter/splitter.go:117-155 | in particular for input without carriage returns |
| `FileSplitting.SplitBySize` | controller/splitter/splitter.go:163-225 | chunk i is bytes [iB, min((i+1)B, size)), ceil(size/B) chunks, concatenation is the file |
| `FileSplitting.CopyChunk` | controller/splitter/splitter.go:196-210 | whatever the short reads, the next B bytes or what is left |
| `FileSplitting.FileReader.Read` | controller/splitter/splitter.go:202-209 | a read returns at least one byte and at most the wanted ones, or end of file |
| `SplitPlans.SplitTask` | controller/splitter/splitter.go:30-43 | the chunk list or error of each strategy |
| `SplitPlans.ChunkSplit` | controller/splitter/splitter.go:48-71 | defaults and errors, and what is on disk in the input file of each chunk: the lines or bytes of its part, 10000 by default |
| `SplitPlans.MapReduceSplit` | controller/splitter/splitter.go:229-243 | chunk splitting with relabelled IDs |
| `SplitPlans.PipelineSplit` | controller/splitter/splitter.go:247-282 | one stage per piece of the command |
| `SplitPlans.ReplicatedSplit` | controller/splitter/splitter.go:286-320 | min(workers, MaxNodes) replicas, an error without workers |
| `SplitPlans.ReplicasReadTaskInput` | controller/splitter/splitter.go:305-316 | every replica reads the task's own input |
| `SplitPlans.PlanIsWellFormed` | controller/splitter/splitter.go:136-144 | chunks are numbered, belong to the task, wait, and have distinct IDs and output files, and distinct input files where the input is cut |
| `SplitPlans.PlanIdsAre` | controller/splitter/splitter.go:137-137 | each ID names strategy, task and index |
| `SplitPlans.PlanIdsLeadBack` | controller/api/tasks.go:454-472 | and is recognised and parsed back to the task |
| `SplitPlans.EmptyPlanExactly` | controller/splitter/splitter.go:175-187 | success without chunks exactly for an empty file cut by size |
| `SplitPlans.PipelineIsAChain` | controller/splitter/splitter.go:247-279 | stages chain from the task input, pieces rejoin to the command |
| `ChunkIds.RoundTrip` | controller/api/tasks.go:454-472 | every chunk ID of a task is recognised and parsed back to it |
| `ChunkIds.ClassifiedExactly` | controller/api/tasks.go:454-454 | of any ID, what is taken for a chunk: exactly what starts with one of the four prefixes, of at least seven bytes |
| `ChunkIds.ParsedExactlyForTaskIds` | controller/api/tasks.go:469-472 | the parser recovers a parent if and only if it is "task-" and a dash-free part |
| `ChunkIds.TaskIdNotChunk` | controller/api/tasks.go:454-454 | a task ID is never taken for a chunk; under seven bytes the test panics |
| `ChunkIds.ChunkIdInjective` | controller/state/store.go:807-809 | distinct (prefix, parent, index) have distinct IDs, for every parent string |
| `ChunkIds.PaddedNamesInjective` | controller/splitter/splitter.go:127-128 | chunk and result file names are injective over all indices |
| `ChunkIds.PlainNamesInjective` | controller/splitter/splitter.go:265-267 | so are stage and replica file names |
| `Text.SplitRejoins` | controller/splitter/splitter.go:249-249 | the pieces of a split rejoin and hold no separator |
| `Text.SplitOfJoin` | controller/api/tasks.go:469-472 | conversely, joined pieces without the separator are split off as they were |
| `Text.Pad4Injective` | controller/splitter/splitter.go:127-128 | four-digit padding keeps all indices apart |
| `Text.Pad4Width` | controller/splitter/splitter.go:127-128 | padding fills up to four digits and no further |
| `Hub.ClosedOnce` | controller/api/websocket.go:53-84 | over every run a queue is closed at most once, and exactly when its client has left the map |
| `Hub.Delivery` | controller/api/websocket.go:71-81 | over every run the messages a client was given are a contiguous block of the log from its registration, and what was taken and queued is that block |
| `Hub.GreetingMeetsClosedQueueExactly` | controller/api/websocket.go:109-135 | the greeting meets a closed queue if and only if more than 256 messages were broadcast since registration |
| `Hub.GreetingCanMeetClosedQueue` | controller/api/websocket.go:109-135 | a run in which it does, for every client and any 257 messages |
| `Hub.StepOk` | controller/api/websocket.go:53-141 | every step keeps the hub invariant |
| `Hub.WebSocketHub.HandleRegister` | controller/api/websocket.go:56-60 | the register step |
| `Hub.WebSocketHub.HandleUnregister` | controller/api/websocket.go:62-69 | the unregister step; an evicted client is not closed again |
| `Hub.WebSocketHub.HandleBroadcast` | controller/api/websocket.go:71-81 | the broadcast step in any iteration order, evicting while iterating, no closed queue touched |
| `Hub.Client.TrySend` | controller/api/websocket.go:74-76 | a non-blocking send on an open queue |
| `Hub.Client.Close` | controller/api/websocket.go:77-77 | closing an open queue |

## Left out

- `Invariants.HandOutBound`: takes each poll as one step; polls that interleave are treated in `HandOuts`.
- `TaskStore.Store.CreateTask`: the defaults of runtime and type; runtime is not stored and the type has no empty value.
- `TaskStore.Store.UpdateTaskStatus`: does not record started_at and completed_at; nothing modelled reads them.
- `TaskStore.Store.UpdateTaskResult`: does not record the error message or completed_at.
- `TaskStore.Store.UpdateChunkStatus`: does not record started_at and completed_at.
- `TaskStore.Store.UpdateNodeLiveMetrics`: does not record the time of the update; nothing modelled reads it.
- `TaskStore.Store.ListRunningTasks`: the query with the status filter "running" only, in any order; no priority filter and no pages.
- `TaskStore.Store.ListNodes`: lists table rows; the live metrics the query attaches are not read by the sweep.
- `FileSplitting.FileReader.Read`: no I/O errors other than end of file.
- `FileSplitting.SplitByLines`: the scanner is a function of the file contents (lines, and whether one is too long), not a buffer that is refilled.
- `Placement.PlaceTask`: the texts of the error messages and of the reason field are not built.
- `Handlers.Server.HandleSubmitTask`: the task name, environment, working directory and timeouts are not stored, and memory sizes arrive parsed.
- `TaskQueue.PriorityQueue.Down`: the choice between the two children is a function the loop calls, not two assignments.
- HTTP, JSON, authentication, gRPC, TLS, discovery, dashboard, CLI and generated code.
- The SQL engine, migrations, foreign keys and failing statements; users, audit log and pagination.
- IEEE floating point: scores are real numbers; NaN and rounding do not occur.
- Integer width: retry counts, sizes and times are unbounded integers.
- Directory creation, failing file creation, log files, subprocesses and cgroups.
- Broadcast events emitted by the scheduler and handlers, and the metrics' update time.
- The reduce task of map-reduce, which the code builds but never stores.
- parseMemorySize, formatBytes and GetComputationPool: simple computations.
- Progress: that waiting tasks are eventually scheduled or that agents eventually report.
