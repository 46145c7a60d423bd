# Task runner: verified model

This project models the scheduling core of the task runner: the in-process agent loop with
its crash-recovery store, the task-graph engine, and the distributed scheduler, worker and
bus. It states what these parts are for and proves it, with Dafny 4.11:

    dafny verify dfyconfig.toml

Code that changes things step by step is modelled by classes and methods with the same
loops and branches; each method is proved against a function or a predicate on values, and
the theorems about whole runs are lemmas about those. Concurrent code is modelled as a state
machine whose steps are the points where another goroutine may get in between.

- **Crash-recovery store** (`StateStore`, `StoreHistory`, `Recovery`, `RunLife`). Workers
  load the state file, change their copy and save it with the lock released in between; a
  save merges three versions. For every interleaving in which operations on one task do not
  overlap, the three sets end as if the operations had run one after the other in the order
  of their saves (`Serializable`). For the task data this is false (`StaleDataComesBack`):
  an entry that was already in the base is written back as it was. `StaleSaveHarmlessIff`
  says exactly when a save disturbs another task's data, and `SerializableWithData` is the
  theorem for histories in which that does not happen. Each task stays in at most one set,
  over any runs and crashes between saves, when the operations on a task come in turn
  (`AlwaysExclusive`); `InTurnIff` says what that takes, task by task, and the agent loop
  meets it. Recovery relies on it: its two guards never fire (`GuardsVacuousIff`).
- **Task graph** (`CycleSearch`, `TaskLinks`, `TaskGraph`, `GraphDrain`, `GraphLevels`).
  `BuildGraph` succeeds exactly on sound trees and every error names a defect the tree really
  has; the cycle search and the depth search are sound and complete. A run that closes
  available tasks never gets stuck when no task is stuck from the start, takes as many steps
  as there were open tasks, and `CompletableIff` makes this an equivalence.
  `CalculateConcurrency` counts the levels of the graph. A task is meant to be counted after
  its dependencies; `ComesAfterIff` and, told by levels, `ComesAfterDeepestIff` say exactly
  when it is. Where all tasks are, the tasks of one level are independent, and
  `ClosedDependencyMixesLevels` is a graph where they are not.
- **Agent loop** (`Dispatcher`, `TaskRun`, `TaskAnswers`, `TaskLife`, `LoopLife`). The
  dispatcher and its workers never deadlock, never give one task to two workers and stay
  within the limits. That a stop request stops the loop is true with one worker and false
  with more: `StopReturnsIff` says when it takes effect, `StopIgnored` is a run in which any
  number of tasks is taken on after it. A task run does what the answers come to: nothing
  lands or closes unapproved (`NothingLandsUnapproved`), the last answer decides the end,
  and a task is tried again exactly while the budget for its trouble lasts
  (`RetriedWithinBudget`). It writes Closed only after landing under the lock, the record
  before the status and clears it only after. `LoopLife` puts dispatcher, workers and store
  together: whatever the interleaving, the operations come in turn (`LoopIsInTurn`), so that
  over any number of processes, each ending anywhere, no task is ever in two sets
  (`SessionsExclusive`).
- **Queue worker and bus** (`MemoryBus`, `QueueWorker`, `QueueJobs`). Items are conserved
  and leave each queue in order; no wake-up of the worker loop is lost although the signal
  may be dropped. A message is acknowledged exactly when some handling was final
  (`AckedIff`), never delivered again then, and otherwise queued for another worker
  (`HandedOn`). That every message is settled in the end is false: once the loop has ended,
  by a failed heartbeat or by a cancelled context, the messages it took and gave to no
  handler stay in flight for good, and no others (`StrandedIff`); `LossIsReached` is such a
  run. A cancelled context sends back what is pending, but not what lies in the consumer's
  channel or in its hand (`CancelSendsBack`).
- **Mastermind** (`StatusCommands`, `SchedulerGraphs`, `SchedulerEvents`, `GraphDiff`,
  `SchedulerPlan`, `SchedulePass`, `ScheduleRuns`). Status commands are decided once,
  versions never fall, of two commands expecting the same version one at most is accepted,
  and no backend is told anything but what a command for it says (`OnlyMeantIsTold`). What
  is planned stands on completed work (`RunnableOnCompleted`). Diffs bring a receiver up to
  date task by task, unless a second graph under the same ref has a task of the same id
  (`RemovalKeepsIff`). A scheduling pass is safe, complete up to its budget, and fair among
  graphs; its keys are distinct exactly when no runnable tasks of different graphs go by one
  name (`RunnableOrderDistinctIff`), as a node may name another graph than the one it lies
  in. Keys are marked after the bus accepted them. Over all runs, with snapshots, diffs and
  events between a pass's steps, enqueued and running tasks stay apart exactly when each key
  is marked while its task is still live and not reported started (`RunsKeptIff`);
  `LateMarkOverlaps` and `LateMarkLeaks` are runs in which one is marked later.
- **Framing** (`Framing`, `JsonText`). The byte scanner splits any concatenation of JSON
  objects and arrays as RFC 8259 (sections 2, 4, 5, 6 and 7) prints them, whatever white
  space stands in and between them; a text cut off is an error. It does not match brackets
  (`NotAValidator`).
- **Pipeline, event sink, capability index** (`Pipeline`, `PipelineOutcomes`, `StreamSink`,
  `CapabilityRegistry`). Each outcome of a pipeline has its cause in one reply
  (`OutcomeIff`). A pipeline has a bound on its attempts exactly when its chain of successes
  ends, where a success only leads on by a condition that can be read and can hold; retries
  are bounded whatever the configuration. The lines of the event stream account for every
  event. The index finds what a scan of the catalog finds.

Where the code and its comments differ, the model follows the code. The comment at
`internal/engine/engine.go:301` speaks of roots, the code exempts every task with children
from completion; `UpdateTaskStatus` answers no error on a graph without nodes
(`internal/engine/engine.go:266-268`); an environment requirement other than docker, git or
go is met by every executor (`internal/distributed/mastermind_scheduler.go:786-805`);
validation takes `quality_score>=5` for a condition, evaluation refuses it for want of blanks
(`internal/distributed/executor_pipeline.go:318-321`, `ComparisonReadableIff`).

## Model

| member | source | states |
|---|---|---|
| `StateStore.MergeSetChanges` | internal/agent/scheduler_state.go:324-341 | id by id: what the worker changed since its load wins, everything else stays as the file has it now; without a base the copy is taken whole |
| `StateStore.MergeTaskDataChanges` | internal/agent/scheduler_state.go:343-371 | ids removed since the load go, new ids are taken whole, and every key of an entry already in the base is written over the file's entry |
| `StateStore.WrittenRoundTrip` | internal/agent/scheduler_state.go:214-297 | the sorted lists that are written read back as the sets they came from |
| `StateStore.Store.Load` | internal/agent/scheduler_state.go:181-189 | the snapshot is the parent's entry, kept a second time as the base |
| `StateStore.Store.Save` | internal/agent/scheduler_state.go:191-212 | the parent's entry becomes the three-way merge; entries of other parents are untouched |
| `StoreHistory.OperationMoves` | internal/agent/scheduler_state.go:99-179 | what each operation makes of its task's place in the three sets, and that other tasks stay; recovery empties the sets |
| `StoreHistory.OperationWrites` | internal/agent/scheduler_state.go:125-153 | only blocking with data writes data: every key it brings, over what the task had |
| `StoreHistory.StaleSaveIsAtomic` | internal/agent/scheduler_state.go:191-212 | a save whose base is current for its own tasks, however stale for others, writes the sets the operation would write at once |
| `StoreHistory.Serializable` | internal/agent/scheduler_state.go:99-212 | for every interleaving of loads and saves without overlapping operations on one task, the three sets equal those of running the operations atomically in save order |
| `StoreHistory.WrittenDataMerge` | internal/agent/scheduler_state.go:354-368 | saving one changed entry overlays its keys on the entry the file has, so keys are never removed this way |
| `StoreHistory.FreshDataSaveIsAtomic` | internal/agent/scheduler_state.go:343-371 | with a base current for the data too, the whole entry is what the atomic operation writes |
| `StoreHistory.SerializableWithData` | internal/agent/scheduler_state.go:191-212 | in histories where no save brings an old entry back, the task data too is that of the atomic operations in save order |
| `StoreHistory.StaleSaveHarmlessIff` | internal/agent/scheduler_state.go:360-368 | a save leaves the data of a task it does not write alone exactly when its base has no entry for the task or only keys that are still current |
| `StoreHistory.StaleDataComesBack` | internal/agent/scheduler_state.go:360-368 | two workers and one entry: the save about another task restores the old value |
| `Recovery.Loop.MarkTaskInFlight` | internal/agent/scheduler_state.go:99-109 | one load and save: the id is added to those in flight; the other two sets stay as they are |
| `Recovery.Loop.MarkTaskCompleted` | internal/agent/scheduler_state.go:111-123 | one load and save: the id moves to completed and leaves the other two sets; its data stays as it is |
| `Recovery.Loop.MarkTaskBlockedWithData` | internal/agent/scheduler_state.go:125-153 | the id moves to blocked, with a copy of the data when there is some |
| `Recovery.Loop.ClearTaskTerminalState` | internal/agent/scheduler_state.go:155-167 | one load and save: the id leaves all three sets; its data stays as it is |
| `Recovery.Loop.ClearTaskInFlight` | internal/agent/scheduler_state.go:169-179 | the id leaves the in-flight set |
| `Recovery.Loop.RestoreStatuses` | internal/agent/scheduler_state.go:61-93 | the three loops with a backend that may fail at any call: complete, every id has its status and data; stopped, doing it all again gives the same result |
| `Recovery.Loop.RecoverSchedulerState` | internal/agent/scheduler_state.go:51-97 | complete, the statuses and data are restored and the three sets empty; stopped halfway, the file is unchanged and a second recovery ends the same |
| `Recovery.GuardsVacuousIff` | internal/agent/scheduler_state.go:83-89 | recovery gives an id the status its sets stand for exactly when it is not both in flight and in another set: the guards look at sets emptied before |
| `Recovery.RecoveredDataIs` | internal/agent/scheduler_state.go:68-79 | a blocked task gets the data the file has for it, or the note that it is blocked; the data of other tasks stays |
| `Recovery.ExclusiveRecovery` | internal/agent/scheduler_state.go:61-93 | with exclusive sets: Closed iff completed, Blocked iff blocked, Open iff in flight |
| `RunLife.AlwaysExclusive` | internal/agent/scheduler_state.go:51-179 | in every state reachable by runs and crashes between saves, each task is in at most one of the three sets, given that operations begin in turn for their task |
| `RunLife.InTurnIff` | internal/agent/scheduler_state.go:99-179 | operations begin in turn, whatever the interleaving, iff task by task they never overlap and follow the phases idle, in flight, completed or blocked, idle |
| `RunLife.RecoveryOfAnyCrash` | internal/agent/scheduler_state.go:51-97 | wherever a run or a recovery is cut off, the recovery that follows gives each id the one status its set stands for, the same as if it had not been cut off |
| `RunLife.FreshLife` | internal/agent/scheduler_state.go:44-49 | a first run, and a run on the file any crash left, start inside the invariant |
| `CycleSearch.Finder.Dfs` | internal/engine/engine.go:514-573 | the recursive search: either a genuine cycle is recorded, or the node and all it reaches are ranked below it; terminates by the number of unvisited nodes |
| `CycleSearch.FindDependencyCycle` | internal/engine/engine.go:514-573 | non-empty means a closed path of dependency links, empty means a ranking in which every dependency ranks lower; empty iff the links are acyclic |
| `CycleSearch.RankedIsAcyclic` | internal/engine/engine.go:514-573 | links along which a rank falls have no cycle |
| `CycleSearch.DepthFinder.Visit` | internal/engine/engine.go:429-471 | the recursive depth: one more than the parent's, or a genuine cycle of parents |
| `CycleSearch.AssignDepths` | internal/engine/engine.go:422-486 | no error iff the parent chains are acyclic, and then every node is one below its parent, at 0 without one |
| `TaskLinks.LinksHold` | internal/engine/engine.go:394-420 | linking succeeds iff no child is given two parents, and then the tables hold exactly the stated links, once each, from both ends |
| `TaskGraph.LinkDeclaredParents` | internal/engine/engine.go:57-82 | parent fields in id order: all known and linked, or an error that is justified |
| `TaskGraph.LinkRelations` | internal/engine/engine.go:84-125 | relations in order: all good and linked, or an error that is justified |
| `TaskGraph.BuildGraph` | internal/engine/engine.go:23-143 | built iff everything stated is known, nobody has two parents and neither dependencies nor parents run in a circle; each error names a defect of the tree; the graph has every stated link from both ends, sorted, with depths |
| `TaskGraph.JustifiedErrorUnsound` | internal/engine/engine.go:57-133 | an error of BuildGraph rules the tree out |
| `GraphDrain.TaskEngine.GetNextAvailable` | internal/engine/engine.go:145-177 | exactly the open tasks without children whose dependencies are all closed and known, in id order, once each |
| `GraphDrain.TaskEngine.UpdateTaskStatus` | internal/engine/engine.go:265-283 | unknown tasks, and Closed while a dependency is not, are refused; otherwise exactly this node changes |
| `GraphDrain.TaskEngine.IsComplete` | internal/engine/engine.go:285-308 | true iff every task without children is closed, failed or blocked |
| `GraphDrain.CompleteIff` | internal/engine/engine.go:285-308 | complete iff no task without children is open or in progress |
| `GraphDrain.AcyclicHasSink` | internal/engine/engine.go:127-130 | without cycles every non-empty set of nodes has one that leads to none of them |
| `GraphDrain.PlainTreesDrain` | internal/engine/engine.go:145-177 | graphs with nothing missing, tasks open or closed, and no dependency on an unclosed container can be drained |
| `GraphDrain.SomeTaskAvailable` | internal/engine/engine.go:145-177 | while a task is open in such a graph, some task is available |
| `GraphDrain.Drains` | internal/engine/engine.go:145-308 | whatever order tasks are picked in, no run gets stuck, and it is complete exactly after as many steps as there were open childless nodes |
| `GraphDrain.CompletableIff` | internal/engine/engine.go:145-308 | an acyclic graph can be completed at all iff no task is stuck from the start |
| `GraphDrain.DrainAll` | internal/engine/engine.go:145-308 | the loop that closes any available task: no closing is refused, it ends complete, in exactly that many steps |
| `GraphLevels.BuiltGraphsAreLinked` | internal/engine/engine.go:134-142 | graphs from BuildGraph list each link once and mirror it, which the counting needs |
| `GraphLevels.InitialDegree` | internal/engine/engine.go:190-206 | the first counter: unclosed dependencies, and one for missing ones |
| `GraphLevels.Release` | internal/engine/engine.go:225-237 | peeling a node counts each dependent down by one and collects those that reach zero |
| `GraphLevels.PeelLevel` | internal/engine/engine.go:213-243 | one level: the counters fall to what they are without it, the next level is collected, and its open tasks are counted |
| `GraphLevels.CalculateConcurrency` | internal/engine/engine.go:179-263 | 0 without nodes, otherwise the widest level under the caps; terminates |
| `GraphLevels.LevelsDisjoint` | internal/engine/engine.go:234-236 | a node enters at most one level |
| `GraphLevels.WidestIsMaximum` | internal/engine/engine.go:239-241 | the number found is the maximum over all levels and some level is as wide |
| `GraphLevels.FirstLevelIsAvailable` | internal/engine/engine.go:186-211 | the tasks counted in the first level are exactly the available ones |
| `GraphLevels.AtLeastAvailable` | internal/engine/engine.go:247-262 | the result is at least the number of available tasks or equals a cap that is set |
| `GraphLevels.Limited` | internal/engine/engine.go:247-262 | at least 1, within the caps that are set, and reduced only by them |
| `GraphLevels.EntersIff` | internal/engine/engine.go:202-238 | a task is in the first n + 1 levels iff its dependencies outstanding after n, with one for missing ones, are no more than its closed dependencies peeled by then |
| `GraphLevels.ComesAfterIff` | internal/engine/engine.go:202-238 | a task is counted only after all its unclosed dependencies iff, at every level, it has none outstanding or more than its closed ones make up for |
| `GraphLevels.ComesAfterDeepestIff` | internal/engine/engine.go:202-238 | for a task with nothing missing, unclosed dependencies that are open, and settled closed ones: iff the unclosed ones all lie in the first level, or the deepest level they lie in holds more of them than there are closed ones |
| `GraphLevels.LevelIsIndependent` | internal/engine/engine.go:213-243 | if closed tasks depend on closed ones only and every task comes after its unclosed dependencies, no two tasks counted in a level are connected by a path |
| `GraphLevels.UnmixedComeAfter` | internal/engine/engine.go:202-204 | where no task mixes closed with unclosed dependencies, all tasks come after theirs |
| `GraphLevels.NothingClosedIsUnmixed` | internal/engine/engine.go:202-204 | graphs without closed nodes are such graphs |
| `GraphLevels.ClosedDependencyMixesLevels` | internal/engine/engine.go:202-236 | a graph where a task is counted in the level of its own dependency, because closed dependencies are counted down though not counted |
| `GraphLevels.AllPeeled` | internal/engine/engine.go:213-245 | in acyclic graphs of open and closed nodes with nothing missing every node gets its level |
| `Dispatcher.AlwaysSafe` | internal/agent/loop.go:185-282 | over all interleavings: in flight at most Concurrency, no task in two workers, processed plus in flight at most MaxTasks when set |
| `Dispatcher.ReportNeverBlocks` | internal/agent/loop.go:185-206 | the result channel always has room for a worker's report |
| `Dispatcher.SendFindsWorker` | internal/agent/loop.go:250-257 | the unbuffered send finds a worker that is free or gets free by its own next step |
| `Dispatcher.NeverDeadlocked` | internal/agent/loop.go:211-281 | until it has returned, the loop always has a step, whatever NextTasks answers |
| `Dispatcher.QuietReturn` | internal/agent/loop.go:211-281 | a return without error leaves nothing in flight and all workers idle |
| `Dispatcher.FreshRun` | internal/agent/loop.go:185-211 | the loop starts inside the invariant |
| `Dispatcher.PickIsFirst` | internal/agent/loop.go:231-243 | the task picked is the first candidate that is neither in flight nor locked |
| `Dispatcher.ProcessedIs` | internal/agent/loop.go:271-280 | what counts against MaxTasks is the number of successful reports taken in |
| `Dispatcher.StopReturnsIff` | internal/agent/loop.go:211-214 | at the top of the loop a requested stop returns iff nothing is in flight |
| `Dispatcher.StopTakesNothingOn` | internal/agent/loop.go:211-214 | after a stop with nothing in flight at the top no run takes a task on, and the return is without an error |
| `Dispatcher.StopAfterOne` | internal/agent/loop.go:211-281 | with one worker the task running when the stop is requested is the last one |
| `Dispatcher.StopIgnored` | internal/agent/loop.go:211-281 | with any larger number of workers and tasks always ready, a run from the start in which any number of tasks is taken on and done after the stop |
| `TaskRun.Runner.RunTask` | internal/agent/loop.go:284-979 | every call has its reason in the answers before it, and an end without error counts what they come to; at most 2 + max(0, MaxRetries - review retries) + max(0, MaxRetries - completion retries) implement runs; an end without error counts one task, with its status written and the record cleared; the landing lock is given back |
| `TaskRun.Runner.Attempts` | internal/agent/loop.go:416-979 | the retry loop terminates within its three budgets, each turn with its reason; with merging on, a completed task was pushed |
| `TaskRun.Runner.AfterFailure` | internal/agent/loop.go:816-950 | a failed turn is followed by another one iff no call fails and the budget for its trouble lasts |
| `TaskRun.Runner.CompleteTask` | internal/agent/loop.go:598-786 | the record says completed before landing, Closed is written after it; at most two merges and one push |
| `TaskRun.Runner.LandOnce` | internal/agent/loop.go:654-744 | one pass of the landing loop: commit once, merge, push; only a first pass that did not push may try again |
| `TaskRun.Runner.MergeFailed` | internal/agent/loop.go:674-712 | a first merge that fails is tried again, with a new commit after a conflict was remedied, a second one blocks |
| `TaskRun.Runner.Land` | internal/agent/loop.go:646-751 | the landing loop ends landed xor blocked, after at most two merges and one push |
| `TaskRun.Runner.BlockTask` | internal/agent/loop.go:755-775 | record, status, data and clearing in this order; the task ends Blocked |
| `TaskRun.Runner.FailTask` | internal/agent/loop.go:932-950 | data, status and clearing in this order; the task ends Failed |
| `TaskRun.Runner.ReviewResult` | internal/agent/loop.go:490-596 | a review, and a second one when the first has no verdict, keep a completed result or turn it into a failure |
| `TaskAnswers.NothingLandsUnapproved` | internal/agent/loop.go:490-786 | in the trace of any run, a task is recorded as completed, committed, merged, pushed or closed only after its last implementation completed, the last review of that turn was a pass where one is asked for, and the gate after both passed; no turn follows |
| `TaskAnswers.CompletedOnlyApproved` | internal/agent/loop.go:598-786 | an end that counts completed has such an approval, and with merging on a push that went through after it |
| `TaskAnswers.LastAnswerDecides` | internal/agent/loop.go:787-978 | the last implementation's answer, when not completed, decides: nothing lands, blocked ends blocked, any other status ends failed, a failure ends failed if it is one of a review and blocked if not |
| `TaskAnswers.LastReviewDecides` | internal/agent/loop.go:490-596 | the same for the last review of a completed implementation; one without a pass ends failed |
| `TaskAnswers.RetriedWithinBudget` | internal/agent/loop.go:816-950 | in a run without an error a turn is followed by another iff it failed and its trouble is the model's for the first time, or fewer earlier turns than the budget allows ended in the same trouble |
| `TaskAnswers.TroubleIs` | internal/agent/loop.go:816-890 | which trouble a failed turn is counted as, told by its answers |
| `TaskAnswers.EndIs` | internal/agent/loop.go:598-978 | the ends exclude one another, so each is counted iff its cause holds |
| `TaskAnswers.FirstAfterGates` | internal/agent/loop.go:315-385 | the first implementation follows a passed gate, the tests gate where that is on |
| `TaskAnswers.NoTurnMeansBlocked` | internal/agent/loop.go:315-385 | an error-free run without an implementation was blocked by a gate and lands nothing |
| `TaskLife.RecordBeforeStatus` | internal/agent/loop.go:598-815 | Blocked and Closed are written only when the last operation on record says the same |
| `TaskLife.StatusBeforeClearing` | internal/agent/loop.go:598-815 | the record is cleared only after the status it stands for was written, and for a blocked task its data |
| `TaskLife.ClosedOnlyAfterLanding` | internal/agent/loop.go:647-779 | in the trace of any run with merging on, every write of Closed follows the landing lock, a merge and a push that succeeded, with the lock still held |
| `TaskLife.TraceFollowsPhases` | internal/agent/loop.go:284-979 | the store operations of a run are all on its task and come in the order in flight, completed or blocked, cleared; a run without error ends cleared |
| `LoopLife.LoopIsInTurn` | internal/agent/loop.go:185-282 | over all interleavings of the dispatcher, the workers and the loads and saves of their store operations, these begin in turn, and each task is in at most one set throughout |
| `LoopLife.StartedFits` | internal/agent/loop.go:171-211 | the loop on a recovered file starts inside the invariant |
| `LoopLife.RecoveryStartsLoop` | internal/agent/scheduler_state.go:51-97 | the load and the save of recovery lead from any exclusive file to that start |
| `LoopLife.SessionsExclusive` | internal/agent/scheduler_state.go:51-179 | after any number of processes, one after another, each recovered or not and ending anywhere, each task is in at most one set and recovery gives it the status of that set |
| `MemoryBus.MemoryBus.Enqueue` | internal/distributed/bus.go:128-149 | refused on a closed bus or without a queue name; otherwise at the end of its queue under a new id |
| `MemoryBus.MemoryBus.TakeQueueItem` | internal/distributed/bus.go:289-303 | the first item moves from the queue to the in-flight table |
| `MemoryBus.MemoryBus.AckQueueItem` | internal/distributed/bus.go:305-309 | the item leaves the in-flight table |
| `MemoryBus.MemoryBus.NackQueueItem` | internal/distributed/bus.go:311-320 | an item in flight goes to the end of its queue, any other id changes nothing |
| `MemoryBus.MemoryBus.Close` | internal/distributed/bus.go:322-340 | queues and in-flight items are dropped and nothing is accepted afterwards |
| `MemoryBus.AlwaysConserved` | internal/distributed/bus.go:128-320 | over any sequence of calls up to Close, the accepted ids are the queued, the in-flight and the acknowledged ones, each item unchanged |
| `MemoryBus.EmptyLedgerFits` | internal/distributed/bus.go:73-79 | a new bus meets both the conservation and the order invariant |
| `MemoryBus.ExactlyOnePlace` | internal/distributed/bus.go:289-320 | an accepted id is in exactly one of the three |
| `MemoryBus.AckIsFinal` | internal/distributed/bus.go:305-320 | an acknowledged item is never handed out again |
| `MemoryBus.LastInLine` | internal/distributed/bus.go:128-320 | an item enqueued or put back is handed out after all that stand in its queue, and right after them |
| `MemoryBus.Refusals` | internal/distributed/bus.go:128-340 | an enqueue changes nothing iff the name is blank or the bus closed, and a closed bus does nothing any more |
| `MemoryBus.AlwaysFifo` | internal/distributed/bus.go:128-320 | items never put back leave each queue in the order they were enqueued |
| `QueueWorker.Handlers.HandleQueueMessage` | internal/distributed/worker_runtime.go:385-464 | every path settles its message exactly once, sending it back only for transient errors and cancelled runs, and restores the load counter |
| `QueueWorker.AlwaysInv` | internal/distributed/worker_runtime.go:224-301 | over all interleavings the slots add up, no wake-up is lost, messages start in arrival order, and every unsettled message is in flight for this worker alone |
| `QueueWorker.SlotCount` | internal/distributed/worker_runtime.go:224-246 | free slots plus running handlers is maxConcurrency |
| `QueueWorker.NeverStranded` | internal/distributed/worker_runtime.go:247-300 | while the loop waits with messages pending, a token is ready, a worker is about to signal, or a handler is still running |
| `QueueWorker.SettlementTakesEffect` | internal/distributed/worker_runtime.go:385-464 | a settlement always meets its own delivery in flight: acked for good when the handling is final, queued once more otherwise |
| `QueueJobs.HandlingDecides` | internal/distributed/worker_runtime.go:385-464 | what one handling does, whoever's it is: unreadable, or requirements met and then an unreadable request, a permanent fault, no runner or a run without a transient error acknowledges; all else queues again |
| `QueueJobs.AckedIff` | internal/distributed/worker_runtime.go:385-464 | over all interleavings of the workers a message is acknowledged iff some handling of it was final |
| `QueueJobs.StaysAvailable` | internal/distributed/worker_runtime.go:392-395 | a message none of whose handlings was final is queued or with a worker after any run |
| `QueueJobs.HandedOn` | internal/distributed/worker_runtime.go:392-395 | a message handled by a worker that does not meet its requirements, or stopped by a transient fault, can be taken by another worker |
| `QueueWorker.AckedNeverRedelivered` | internal/distributed/worker_runtime.go:385-464 | once a handler acked a message no run of this worker and all other consumers is handed it again |
| `QueueWorker.CancelSendsBack` | internal/distributed/worker_runtime.go:261-267 | after a cancelled context one step for each pending message queues them all again, with nothing else taken off a queue; what the consumer's channel and hand hold is left where it is |
| `QueueWorker.StrandedIff` | internal/distributed/worker_runtime.go:261-271 | of the messages an ended loop holds, exactly those without a handler, be they pending, in the channel or in hand, stay in flight over all further steps |
| `QueueWorker.FailedHeartbeatStrands` | internal/distributed/worker_runtime.go:268-271 | after a failed heartbeat a message stays in flight forever iff it was pending, in the channel or in hand |
| `QueueWorker.LossIsReached` | internal/distributed/worker_runtime.go:247-301 | a run from a fresh worker on an empty bus that ends with a pending message lost for good |
| `QueueWorker.FreshWorker` | internal/distributed/worker_runtime.go:224-232 | the worker starts inside the invariant |
| `Framing.PayloadReader.Read` | internal/codex/runner_adapter.go:636-685 | a frame is exactly the next bracketed payload after white space; an unfinished one is an error; nothing else is consumed |
| `Framing.ReadAll` | internal/codex/runner_adapter.go:514-548 | repeated reading yields all frames in order and the reason it ended |
| `JsonText.TextNeutral` | internal/codex/runner_adapter.go:645-683 | any JSON value printed legally leaves bracket depth and string state as they were, escaped quotes and brackets in strings included |
| `JsonText.TextIsFrame` | internal/codex/runner_adapter.go:636-685 | a printed object or array is one frame: it closes at its last byte and not before |
| `JsonText.TruncatedNeverCompletes` | internal/codex/runner_adapter.go:636-685 | no proper prefix of one completes |
| `JsonText.FrameUnique` | internal/codex/runner_adapter.go:636-685 | two frames that begin the same input are equal |
| `JsonText.ReadsUnique` | internal/codex/runner_adapter.go:636-685 | an input has one answer |
| `JsonText.RoundTrip` | internal/codex/runner_adapter.go:636-685 | whatever objects and arrays are printed one after the other, with any white space inside and between them, reading returns exactly those texts in order, and a text cut off at the end is an error |
| `JsonText.ReadStream` | internal/contracts/protocol_harness.go:117-172 | the same for a reader run over such a stream |
| `JsonText.NotAValidator` | internal/codex/runner_adapter.go:663-680 | brackets are counted, not matched |
| `StatusCommands.Mastermind.CheckVersions` | internal/distributed/mastermind.go:895-915 | the first backend, in order, that is unknown or not at the expected version |
| `StatusCommands.Mastermind.WriteBackends` | internal/distributed/mastermind.go:917-940 | status, then comment, then version, backend by backend, up to the first failing write |
| `StatusCommands.Mastermind.HandleTaskStatusUpdate` | internal/distributed/mastermind.go:842-956 | the whole handler: replays, refusals and writes, with their order |
| `StatusCommands.TargetsAreMeant` | internal/distributed/mastermind.go:883-893 | the targets are the named backends, all configured ones when none is named, each once |
| `StatusCommands.AcceptsIff` | internal/distributed/mastermind.go:842-956 | a command is accepted iff it is new, complete and signed, is for known backends all at the expected version, and every write succeeds |
| `StatusCommands.AcceptedNeeds` | internal/distributed/mastermind.go:895-952 | an accepted record names exactly the backends the command is for, with one more than the version read for each |
| `StatusCommands.AcceptedAdvancesMeant` | internal/distributed/mastermind.go:883-937 | an accepted command raises the versions of its task on exactly the backends it is for |
| `StatusCommands.OnlyMeantIsTold` | internal/distributed/mastermind.go:917-933 | no delivery tells a backend anything but the status and comment of a command for it, each at most once, and an accepted command tells all of it |
| `StatusCommands.UnknownNeverAccepted` | internal/distributed/mastermind.go:897-901 | a command that names a backend nobody configured is never accepted |
| `StatusCommands.RefusedForCause` | internal/distributed/mastermind.go:873-928 | a refusal names its cause: the first check that fails, and the first backend in order that differs |
| `StatusCommands.UndecidedChangesNothing` | internal/distributed/mastermind.go:842-872 | what is not decided changes nothing |
| `StatusCommands.WhatAdvances` | internal/distributed/mastermind.go:917-940 | a delivery raises versions by one, and only: all targets when accepted, exactly those before the failing one when a write failed, none otherwise |
| `StatusCommands.DecidedOnce` | internal/distributed/mastermind.go:866-871 | a decided command keeps its record whatever follows, and every replay is answered from it and changes nothing |
| `StatusCommands.VersionsNeverFall` | internal/distributed/mastermind.go:935-937 | versions never decrease over any deliveries |
| `StatusCommands.OneWinner` | internal/distributed/mastermind.go:906-911 | two commands with the same positive expected version on a shared backend and task are never both accepted |
| `StatusCommands.PartialWriteConflicts` | internal/distributed/mastermind.go:917-937 | after a failed write no command with that expected version can win on the backends written before |
| `StatusCommands.VersionsWereTold` | internal/distributed/mastermind.go:919-937 | no version runs ahead of the status writes the backend was told |
| `SchedulerGraphs.Scheduler.ApplySnapshot` | internal/distributed/mastermind_scheduler.go:89-118 | every graph named is replaced by its nodes, by id, the last of equal ids; one without a ref discards the whole snapshot; then pruned |
| `SchedulerGraphs.Scheduler.ApplyDiff` | internal/distributed/mastermind_scheduler.go:120-159 | upserts, then deletions, graph by graph, with the keys of deleted tasks forgotten; then pruned |
| `SchedulerGraphs.Scheduler.PruneState` | internal/distributed/mastermind_scheduler.go:449-477 | only known tasks that are open or in progress stay enqueued, in progress or blocked |
| `SchedulerGraphs.Scheduler.FindGraphRef` | internal/distributed/mastermind_scheduler.go:415-433 | the first graph, in order, that has the task, or none |
| `SchedulerGraphs.Scheduler.ApplyMonitorEvent` | internal/distributed/mastermind_scheduler.go:161-244 | a start, an end or a failure moves the task's key and marks its node, under the graph named or found; the answer says whether there is news |
| `SchedulerEvents.EventIs` | internal/distributed/mastermind_scheduler.go:175-214 | a start, completion or failure sets the task's node to in progress, closed or blocked, moves its key, and changes nothing else; all are news but a repeated start |
| `SchedulerEvents.CompletionReleases` | internal/distributed/mastermind_scheduler.go:192-203 | after a completion exactly the open nodes that waited for nothing else can be planned of those that waited for it |
| `SchedulerEvents.NothingOnUnfinished` | internal/distributed/mastermind_scheduler.go:178-214 | after a start or a failure neither the task nor what depends on it can be planned, and other nodes as before |
| `SchedulerEvents.OtherGraphsStay` | internal/distributed/mastermind_scheduler.go:182-213 | other graphs are not touched |
| `SchedulerEvents.LastReportDecides` | internal/distributed/mastermind_scheduler.go:161-214 | over any run of reports the last one about a task decides its status, and the rest of its node never changes |
| `SchedulerEvents.RunnableOnCompleted` | internal/distributed/mastermind_scheduler.go:161-214 | over any run of reports a runnable node depends only on tasks last reported completed, or closed from the start and never reported |
| `GraphDiff.SnapshotReplaces` | internal/distributed/mastermind_scheduler.go:89-118 | after a snapshot a graph holds the nodes of the last one sent for it: the last of equal ids, under the graph's name when it names none |
| `GraphDiff.SnapshotLeaves` | internal/distributed/mastermind_scheduler.go:89-118 | graphs no snapshot names stay, and one blank name discards the snapshot |
| `GraphDiff.SnapshotRemembersIff` | internal/distributed/mastermind_scheduler.go:449-477 | after a snapshot a key stays in its set iff its task is known and open or in progress |
| `GraphDiff.DiffPatches` | internal/distributed/mastermind_scheduler.go:120-159 | a diff removes what it deletes even when it brings it as well, and otherwise brings the last node of the id |
| `GraphDiff.RememberedIff` | internal/distributed/mastermind_scheduler.go:145-158 | after diffs a key stays in its set iff no diff deleted the task on the way and it is open or in progress now |
| `GraphDiff.SentByRef` | internal/distributed/mastermind.go:1384-1389 | the diffs are sent in the order of their refs |
| `GraphDiff.DiffTaskGraphNodes` | internal/distributed/mastermind.go:1393-1422 | the nodes that are new or different and the ids that are gone, in id order |
| `GraphDiff.BuildTaskGraphDiffs` | internal/distributed/mastermind.go:1336-1391 | one diff for each graph that was added, changed or removed and nothing else, whatever order the maps are walked in, sorted |
| `GraphDiff.DiffThenPatch` | internal/distributed/mastermind.go:1393-1422 | applying the diff of two node lists to what the first means gives what the second means |
| `GraphDiff.DiffsBringUpToDate` | internal/distributed/mastermind.go:1336-1391 | task by task: where the receiver held what the previous snapshot of a graph meant, it holds after all diffs what the current one means, unless another graph under that ref has a task of that id |
| `GraphDiff.GraphBroughtUpToDate` | internal/distributed/mastermind.go:1336-1391 | a graph that alone has its ref is brought up to date as a whole; removed, it is empty |
| `GraphDiff.OthersStay` | internal/distributed/mastermind.go:1336-1391 | tasks that no snapshot has are left as they were |
| `GraphDiff.RemovalKeepsIff` | internal/distributed/mastermind.go:1357-1382 | of two sources with the same root id, hence one ref, one goes: a task of the other is kept iff the one that goes has no task of that id |
| `SchedulerPlan.CheckDependencies` | internal/distributed/mastermind_scheduler.go:571-596 | satisfied iff the parent and every dependency are in the graph and closed |
| `SchedulerPlan.RunnableCandidates` | internal/distributed/mastermind_scheduler.go:521-544 | exactly the runnable nodes: open, dependencies closed, and not a root with children; by priority, then id |
| `SchedulerPlan.FirstIsUrgent` | internal/distributed/mastermind_scheduler.go:535-542 | no runnable node has a higher priority than the first, and of those with the same it has the least id |
| `SchedulerPlan.OrderedUnique` | internal/distributed/mastermind_scheduler.go:535-542 | the order leaves only one list |
| `SchedulerPlan.TakeTurns` | internal/distributed/mastermind_scheduler.go:502-519 | round after round one node from every graph that has any left |
| `SchedulerPlan.NextRunnable` | internal/distributed/mastermind_scheduler.go:479-519 | the candidates of all graphs, starting one graph further each time |
| `SchedulerPlan.TurnsKeepEachGraph` | internal/distributed/mastermind_scheduler.go:502-519 | each graph's candidates appear all, once, in their own order, whatever graph they name |
| `SchedulerPlan.TurnsAreFair` | internal/distributed/mastermind_scheduler.go:502-519 | in any prefix a graph with candidates left trails no other by more than one |
| `SchedulerPlan.EveryGraphGoesFirst` | internal/distributed/mastermind_scheduler.go:488-494 | in as many passes as there are graphs, each graph has the first turn once |
| `SchedulePass.ExecutorMatches` | internal/distributed/mastermind_scheduler.go:772-807 | all capabilities, all credentials, and the docker, git and go probes asked for |
| `SchedulePass.MatchesIff` | internal/distributed/mastermind_scheduler.go:772-807 | an executor matches iff it offers every capability, credential and probe that is asked for |
| `SchedulePass.MoreNeverLoses` | internal/distributed/mastermind_scheduler.go:772-807 | offering more never loses a match |
| `SchedulePass.FreeSlotsAdd` | internal/distributed/mastermind_scheduler.go:328-336 | free slots add up over the executors |
| `SchedulePass.OneExecutorsSlots` | internal/distributed/mastermind_scheduler.go:328-336 | an executor that reports fewer than none counts as full |
| `SchedulePass.LimitsAdd` | internal/distributed/mastermind_scheduler.go:337-340 | the limits of two groups of executors add up, to within the rounding |
| `SchedulePass.IdleBudget` | internal/distributed/mastermind_scheduler.go:337-345 | at a backpressure of one the budget of an idle scheduler is all free slots |
| `SchedulePass.QueuesAreRight` | internal/distributed/mastermind_scheduler.go:752-761 | every item goes to the prefix when its task asks for no capability, and else to the queue of the first one, which an executor that matches it offers |
| `SchedulePass.Plan` | internal/distributed/mastermind_scheduler.go:324-401 | the pass over the runnable order: items, reports, and the blocked set |
| `SchedulePass.ScheduleOnce` | internal/distributed/mastermind_scheduler.go:278-301 | a pass without anything in between: what the bus accepts is marked enqueued or blocked |
| `SchedulePass.PlanIsEligiblePrefix` | internal/distributed/mastermind_scheduler.go:349-400 | the items are the eligible tasks in order, cut off where the budget ends and not before |
| `SchedulePass.RunnableOrderMembers` | internal/distributed/mastermind_scheduler.go:479-544 | the runnable order holds exactly the runnable tasks of all graphs |
| `SchedulePass.RunnableOrderDistinctIff` | internal/distributed/mastermind_scheduler.go:479-544 | its keys are distinct iff no runnable tasks of different graphs name the same graph with the same id |
| `SchedulePass.PlanIsSafe` | internal/distributed/mastermind_scheduler.go:324-401 | items are runnable, not in flight, matched by an executor, with distinct keys where the order's are, and at most max(0, floor(free slots * backpressure) - enqueued - in progress); nothing eligible is held back while the budget lasts |
| `SchedulePass.ReportsIff` | internal/distributed/mastermind_scheduler.go:357-375 | a task is reported blocked iff it is runnable, not in flight, matched by nobody and not reported already; it may be again after some executor matched |
| `SchedulePass.OpenRootStallsGraph` | internal/distributed/mastermind_scheduler.go:526-529 | in a graph with nothing closed and every task below a parent, a root with children leaves nothing runnable |
| `ScheduleRuns.RunsKeepApart` | internal/distributed/mastermind_scheduler.go:89-301 | over any snapshots, diffs, events and passes that nothing interrupts, whatever the graphs hold: no task is both enqueued and in progress, and nodes sit under their own ids |
| `ScheduleRuns.FreshSchedulerFits` | internal/distributed/mastermind_scheduler.go:58-87 | the scheduler starts inside that invariant |
| `ScheduleRuns.MarkKeepsIff` | internal/distributed/mastermind_scheduler.go:288-299 | marking a key keeps enqueued and in progress apart, and enqueued tasks live, iff the task is live and not in progress at that moment |
| `ScheduleRuns.RunsKeptIff` | internal/distributed/mastermind_scheduler.go:89-301 | over all runs in which anything may come between the plan, the bus and the marks, both hold throughout iff each mark is in time in that sense |
| `ScheduleRuns.UninterruptedPass` | internal/distributed/mastermind_scheduler.go:278-301 | the steps of a pass with nothing in between have the effect of the whole pass |
| `ScheduleRuns.PlannedInTime` | internal/distributed/mastermind_scheduler.go:324-401 | where runnable nodes name the graph they lie in, every planned key is in time when it is planned |
| `ScheduleRuns.PassWithinBudget` | internal/distributed/mastermind_scheduler.go:324-347 | a pass leaves at most floor(free slots * backpressure) in flight, or adds nothing |
| `ScheduleRuns.LateMarkOverlaps` | internal/distributed/mastermind_scheduler.go:288-299 | a scheduler, a pass and a run in which a task's start is seen before its key is marked: it is both enqueued and in progress |
| `ScheduleRuns.LateMarkLeaks` | internal/distributed/mastermind_scheduler.go:288-299 | the same with its end seen first too: a finished task stays enqueued until something prunes it |
| `ScheduleRuns.OneNameTwice` | internal/distributed/mastermind_scheduler.go:351-395 | a scheduler with two graphs, one node of which names the other graph, whose plan holds the same key twice |
| `Pipeline.RunStage` | internal/distributed/executor_pipeline.go:87-211 | one visit to a stage: attempts until it ends the pipeline or moves on |
| `Pipeline.Execute` | internal/distributed/executor_pipeline.go:36-214 | the pipeline run on any replies is the stage machine, with the runs it counts |
| `PipelineOutcomes.AttemptEndsIff` | internal/distributed/executor_pipeline.go:87-211 | an attempt ends the pipeline with an outcome iff the reply, the stage and the number of the attempt are its cause: completed by a success whose action is complete, given up by a failure at its last attempt or with the action fail, and so on for each outcome |
| `PipelineOutcomes.OutcomeIff` | internal/distributed/executor_pipeline.go:36-214 | a run on any replies ends with an outcome iff some reply is its cause |
| `PipelineOutcomes.AttemptsCounted` | internal/distributed/executor_pipeline.go:88-89 | attempts are numbered over all visits to the stage |
| `PipelineOutcomes.GaveUpReportsVisit` | internal/distributed/executor_pipeline.go:167-205 | what a pipeline that gave up reports are the attempts of the last visit in order, with their numbers and reasons |
| `PipelineOutcomes.NoFirstStage` | internal/distributed/executor_pipeline.go:60-70 | without the first stage nothing is run |
| `Pipeline.BoundedIff` | internal/distributed/executor_pipeline.go:60-214 | a bound on the attempts of all runs exists iff the chain of successes from quality_gate comes to an end, where a success leads on by a condition that can be read and can hold |
| `Pipeline.ComparisonReadableIff` | internal/distributed/executor_pipeline.go:301-321 | a comparison that validation accepts can be evaluated iff blanks stand on both sides of its operator |
| `Pipeline.ChainIsShort` | internal/distributed/executor_pipeline.go:140-152 | a chain that ends does so within as many steps as there are stages |
| `Pipeline.StageRunsBounded` | internal/distributed/executor_pipeline.go:71-90 | then no stage runs more than max(1, MaxAttempts) times |
| `Pipeline.RetriesBounded` | internal/distributed/executor_pipeline.go:187-201 | for any configuration, the failures of a stage that lead to a retry are at most its attempts less one, over all visits |
| `Pipeline.DelayGrows` | internal/distributed/executor_pipeline.go:391-406 | delays are not negative, do not shrink with the attempt, and keep within the cap that is set |
| `Pipeline.DelaySteps` | internal/distributed/executor_pipeline.go:391-406 | the first retry waits the initial delay, each later one the backoff longer, up to the cap |
| `StreamSink.StreamEventSink.FlushPendingRunnerOutput` | internal/contracts/stream_sink.go:94-114 | what is held back becomes one line with its counts, and is forgotten even when writing fails |
| `StreamSink.StreamEventSink.QueueRunnerOutput` | internal/contracts/stream_sink.go:84-92 | the newest output is kept; beyond the limit outputs are counted as dropped |
| `StreamSink.StreamEventSink.Emit` | internal/contracts/stream_sink.go:51-82 | which events are written at once, after a flush, and which are held back |
| `StreamSink.HeldBackIff` | internal/contracts/stream_sink.go:70-79 | an output is held back iff verbose is off and it comes less than the interval after the clock, which stands at some earlier output |
| `StreamSink.DirectOutputsApart` | internal/contracts/stream_sink.go:70-79 | while times do not go back and writing works, two outputs written by themselves lie at least the interval apart |
| `StreamSink.ClockGoesBack` | internal/contracts/stream_sink.go:94-114 | four events with times that go back for which they do not |
| `StreamSink.NothingUnaccounted` | internal/contracts/stream_sink.go:51-114 | while emits succeed, the lines in order stand for consecutive stretches of events that make up all but those held back; a stretch of several is runner output ending in the line's event |
| `StreamSink.OutputsConserved` | internal/contracts/stream_sink.go:51-114 | outputs received = written + coalesced + dropped + held back, and the other events are exactly the other lines, once each, in order |
| `StreamSink.FailuresLoseOnlyTheirOwn` | internal/contracts/stream_sink.go:94-114 | with failing writes the balance is short by exactly the event of each failed emit and what its flush held |
| `CapabilityRegistry.NormalizeCapabilities` | internal/codingagents/catalog.go:432-453 | the supported capabilities, each where it first stands |
| `CapabilityRegistry.MergeCapabilities` | internal/codingagents/catalog.go:558-588 | features that name capabilities are appended once |
| `CapabilityRegistry.NormalizedOnce` | internal/codingagents/catalog.go:313-386 | normalising a definition a second time changes nothing |
| `CapabilityRegistry.NormalizedOffers` | internal/codingagents/catalog.go:313-386 | of the five capabilities a definition offers those it lists or names among its features, and each of its two names stands in for the other |
| `CapabilityRegistry.LoadSucceedsIff` | internal/codingagents/catalog.go:70-143 | a catalog loads iff every definition has a name and is valid |
| `CapabilityRegistry.LastDefinitionWins` | internal/codingagents/catalog.go:130-143 | of several definitions of one name the last is in the catalog |
| `CapabilityRegistry.NormalizedIsNormal` | internal/codingagents/catalog.go:313-386 | after it the capability list has no repeats and only supported members |
| `CapabilityRegistry.Add` | internal/codingagents/catalog.go:130-143 | a nameless or invalid definition is refused; otherwise it replaces the one of its name |
| `CapabilityRegistry.LoadCatalog` | internal/codingagents/catalog.go:70-128 | definitions are added in order and the first bad one is an error |
| `CapabilityRegistry.AgentRegistry.RebuildIndex` | internal/codingagents/registry.go:315-334 | under each capability exactly the backends that offer it, in name order, once each |
| `CapabilityRegistry.AgentRegistry.Load` | internal/codingagents/registry.go:70-80 | a load that succeeds replaces the catalog and keeps the index in step; one that fails changes nothing |
| `CapabilityRegistry.AgentRegistry.Register` | internal/codingagents/registry.go:82-97 | a definition that is accepted replaces the one of its name and keeps the index in step |
| `CapabilityRegistry.AgentRegistry.Discover` | internal/codingagents/registry.go:112-149 | the counts over the index give exactly the name-ordered scan: every backend that offers all supported members of what is required, and all backends when none is supported |
| `CapabilityRegistry.FullCounts` | internal/codingagents/registry.go:129-140 | a count equals the number of requirements iff all are offered |
| `Ordering.SortedKeys` | internal/engine/engine.go:354-361 | the keys of a map in order, each once: what the loops that sort first walk |
| `Ordering.AscendingUnique` | internal/engine/engine.go:354-361 | there is only one such list, so those loops do not depend on the order of the map |

## Left out

- GraphLevels.LevelIsIndependent: that every task comes after its unclosed dependencies is
  sufficient for independent levels and not necessary; a task that comes before one of them
  need not share its level.
- JsonText.RoundTrip: numbers are any non-empty text of digits, signs, points and exponent
  letters, which includes all that section 6 of RFC 8259 allows.
- TaskRun.Runner.RunTask: prompts, events, artifacts and the classification of failures are
  answers of the environment; the addenda to later prompts are not modelled. The gates are
  one answer each, which stands for what their methods find.
- GraphDiff.DiffsBringUpToDate: source contexts are not modelled, so neither is the order of
  diffs of one ref, which the result does not depend on; the encoding of a node is taken to
  tell different nodes apart. A key keeps its ref, which is the root id in the key. What
  becomes of a task that two graphs under one ref have is said for a source that goes
  (RemovalKeepsIff), not for two that change it at once.
- StreamSink.OutputsConserved: an event that arrives with the two count entries already in
  its metadata is not considered, nor is the map being shared with other sinks.
- Pipeline.BoundedIff: a readable condition other than "true" and "false" may come out either
  way at any time, as the metadata of the stage would have it; metadata is not modelled. Some
  error returns of Execute drop the stage runs; the model always reports them.
- CapabilityRegistry.AgentRegistry.Load: catalogs come from LoadCatalog; a loader that hands
  over a catalog built otherwise is not considered. Validation of the other fields is one
  truth value.
- StatusCommands.Mastermind.HandleTaskStatusUpdate: publishing the answers is not modelled;
  it changes no state. Versions are unbounded.
- Reading and writing the state file, its JSON, and errors of doing so: the file is a value
  that is replaced at once.
- Trimming and lower-casing of names: ids, refs, backends and capabilities come trimmed and
  in lower case; keys are pairs instead of strings joined with a bar.
- Nodes of the task graph are values in a map and links are ids: pointers shared between
  nodes, and the copies made of tasks and metadata, are not modelled.
- normalizeTasks and conflicting task records; the list of edges of a built graph.
- The locks of internal/scheduler: the task lock and the landing lock are plain mutexes, and
  the landing states, whose errors the code discards, are left out.
- What a return of the loop with an error leaves running: workers that still hold a task.
- Publish, Subscribe, Request and Respond of the bus, the Redis and NATS buses, and the
  forwarding goroutine of ConsumeQueue beyond taking and delivering one item at a time.
- Workspaces, git, runners, log files and health checks; retries of a runner on a timeout.
- Registration, heartbeats and capability probes of a worker beyond their effect on the loop.
- Merging of routed service requests, task graph subscriptions and filters, and the snapshot
  form without a list of graphs.
- Encoding of the dispatched request, workspace specifications, and reading priorities,
  dependencies and requirements from metadata: they are fields of a node.
- Backpressure is a real number, without the rounding of floating point.
- Wall-clock time: timestamps and delays are integers, and a wait succeeds or fails.
