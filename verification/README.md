# oqpi: a verified model of the task scheduler

oqpi is a header-only C++ concurrency library: unit tasks, parallel groups and sequence groups are
linked into a tree, a scheduler hands them to worker threads by priority, and callers wait for them,
passively or by running them themselves. This project models its task-group protocol, its wake-up and
stop protocol, its manual-reset event, its partitioners and `parallel_for`, and proves what they
promise, for every tree, every number of workers and callers, and every interleaving.

`dafny verify --verification-time-limit 0 dfyconfig.toml` checks the whole project.

## How the concurrent part is modelled

A state (`Machine.State`) is a board (a cell of flags and counters for each task, the queue of each
sequence, and the trace of function calls), the scheduler (one queue per priority, a counting semaphore
and a running flag per worker, the scheduler's own flag) and one stack of pending operations per agent.
An operation is one atomic access of the source: a compare-exchange of `grabbed_`, a load of `done_`, a
`fetch_add` of `currentTaskIndex_`, a `fetch_sub` of `activeTasksCount_`, a `push` or `tryPop`, one link
of the climb to a priority, the reset of a parent pointer, a post or a wait on a semaphore, the start or
the end of a function. A step lets one agent perform its topmost operation; the continuation it leaves
is pushed on its stack, so the mutual recursion of `notifyParent`, `oneTaskDone` and `notifyGroupDone`,
and the nesting of `execute`, are the stack itself. A run is any sequence of such steps from a fresh
tree whose root some caller adds, through `stop()` and beyond.

The tree protocol is proved through a ledger (modules `Ledger`, `LedgerMoves`, `LedgerFacts`): every
pending operation and queue entry carries duties (owning a token, being inside a function, having a
completion to pass up, a claimed index, an offer to the scheduler), and `Ledger.Balanced` says how the
multiset of all duties matches the cells. Each atomic action is shown to exchange duties and keep the
balance (`MachineLedger`, `MachineBalance`). On it rest exactly-once execution, conservation of
completions and the order of sequences (`Safety`), the return of waits (`Returning`), the absence of
stalls (`Progress`), termination (`Termination`), throttling from above (`Throttling`, `ThrottledRuns`)
and from below (`WorkConserving`), what the pump drops (`Pumping`), the life of the parent links
(`ParentLinks`) and active waiting (`ActiveWaiting`). Wake-ups, stopping, priorities, and the order and
the refusals of the queues are properties of the scheduler's half of the state (`WakeUps`, `Stopping`,
`StopReturns`, `Filing`, `Queueing`). `ParallelFor` is the product of the machine with the loops of the
batches, `LoopTurns` the order of the calls of one of them, `RacingLoops` the same with the races of the
atomic partitioner in it, `CountedLoops` with the 32-bit counter of the simple one.
`Scenarios` builds runs step by step for trees and configurations left open; `Limits`, `EarlyWaits` and
`LateAdds` use it to show where a property ends.

One rule is asked of callers (`Runs.TurnsKept`): `activeWait` on a unit task or a parallel group only in
the tree of the root and with no sequence above it; on a sequence, where it does no more than wait, it is
free. `Runs.Disciplined` are the states of the runs in which callers keep it, `Runs.InService` those before
`stop()` begins. Well-formedness, wake-ups, stopping and the bound on the length of runs do not need the
rule; throttling excludes `activeWait` altogether.

The same code is also modelled as objects where it works on its own: a parallel group
(`ParallelGroups`), the queue (`ConcurrentQueues`), the pump (`SchedulerPump`), adding tasks and
resolving priorities (`Hierarchy`), running a tree on the calling thread (`SingleThreaded`), the event
(`Events`) and the partitioners (`Partitioners`, `LoopPartitions`).

## Where the code differs from what one might expect

- A limit of 1 (`maxSimultaneousTasks`) still lets one queued child run beside child 0, because the loop
  tests the limit only after it has added a task. The bound is max(2, k), `ThrottledRuns.AtMostLimit`, and
  a group is as full as that while it has children left, `WorkConserving.AsManyAsAllowed`,
  `Limits.LimitIsAttained`. `Limits.LimitIsKeptExactly` says for which roots k itself is kept, and
  `ParallelGroups.LimitExceeded` for which calls of the loop. With `activeWait` no limit is kept:
  `Limits.AllAtOnce`.
- `activeWait` on a task below a sequence starts it at once, whatever comes before it
  (`EarlyWaits.StartsOutOfTurn`). Even on the first child of a sequence it lets two agents pop the same
  unsynchronised queue (`EarlyWaits.TwoPoppers`, `EarlyWaits.RuleIsNeeded`), and on the last it can leave
  the sequence without anybody to finish it (`EarlyWaits.NeverDone`).
- A task's parent pointer is reset after it has called its parent, while an `add` of it may still be
  looking for its priority. The entry is then filed under normal, though it belongs elsewhere:
  `LateAdds.FiledInTheWrongQueue`. Nothing comes of it, as the task is done: `Filing.LaunchesWhatItServes`.
  In release builds the same climb dereferences the pointer without a test.
- `atomic_partitioner` compares its index with the element count, not with the last index, so a range
  that does not begin at 0 is not covered, or covered too far: `PartitionRace.CoversWholeRange`,
  `LoopPartitions.AtomicLoopIsExact`.
- The counter of `simple_partitioner` is incremented by every call, also by those that are told false.
  A loop of n batches asks 2n times, so with more than 2^30 batches the counter wraps within one loop, the
  index arithmetic overflows, and indices are handed out twice: `CountedLoops.LoopWraps`,
  `Partitioners.FirstBadCall`, `CountedLoops.CalledTwice`. Up to 2^30 batches the loop is exact:
  `CountedLoops.SimpleLoop`, `CountedLoops.CountsExactly`.
- Called on, the counter wraps after 2^31 calls, and the batches are handed out again after 2^32:
  `Partitioners.HandedOutOnce`.
- An `atomic_partitioner` that begins so far below 0 that its first difference does not fit 32 bits hands
  out nothing: `Partitioners.AtomicPartitioner.GetNextValidRange`, `LoopPartitions.SetupOf`.
- A group run by `executeSingleThreaded` that somebody else has grabbed is declared done all the same:
  `SingleThreaded.ExecuteSingleThreaded`.
- `addTask` does not look for cycles; `Hierarchy.AddKeepsLinked` and `Hierarchy.AddAncestorMakesCycle`
  say exactly when it makes one.
- A group completed by `activeWait` is done without having been grabbed, which is why the pump and
  `signalAvailableWorker` test for it: `ActiveWaiting.ActiveWaitNeedsNoWorker`,
  `Pumping.DiscardsOnlyTaken`.

## Model

| member | source | states |
|---|---|---|
| Runs.InitialInv | include/oqpi/scheduling/scheduler.hpp:94-110 | the state in which the workers have been started on a fresh tree and the callers are about to make their requests satisfies the invariant |
| Runs.StepInv | include/oqpi/scheduling/scheduler.hpp:230-276 | whichever agent moves, one atomic step leads from a state that satisfies the invariant to one that does |
| Runs.ReachableInv | include/oqpi/scheduling/scheduler.hpp:230-310 | every state of every run, before and after stop(), is well formed and has no lost wake-up and no unheard stop |
| Runs.DisciplinedKept | include/oqpi/scheduling/task_group_base.hpp:42-49 | and if callers keep the rule, pending operations, queue entries and the tokens stop() made workers drop balance the cells of the tree, in every state of every run |
| Safety.TokenIsExclusive | include/oqpi/scheduling/task_base.hpp:109-113 | two agents are never both about to run the same task, before or after stop() begins: whoever is won its grab flag, there is one such place in the whole machine, and no token is held that a worker has dropped |
| Safety.ExactlyOnce | include/oqpi/scheduling/task.hpp:64-71 | a unit task's function starts at most once and ends at most as often; a task that is done or has called its parent has run exactly once; a grabbed task that has not started is in somebody's hands, or a worker dropped it after stop() had begun |
| Safety.CompletesOnce | include/oqpi/scheduling/task_group.hpp:97-103 | set-done, notify, call-parent is under way in at most one place per task, never after the parent has been called, and for a parallel group only when the counter is zero |
| Safety.CountIsConserved | include/oqpi/scheduling/parallel_group.hpp:115-121 | activeTasksCount_ is the number of children that have not called oneTaskDone, and is zero exactly when the group is completing or has completed |
| Safety.OnePopper | include/oqpi/scheduling/sequence_group.hpp:61-94 | at most one agent is about to pop a sequence's unsynchronised queue, and then no child is in flight |
| Safety.SequenceSplits | include/oqpi/scheduling/sequence_group.hpp:61-94 | the queue is the tail of the original list, all popped children but the last have called back, and no token, flag, operation or queue entry is about a child still queued |
| Safety.DoneIsDownwardClosed | include/oqpi/scheduling/task_group.hpp:97-103 | when a node is done every descendant is done, has called its parent, and its function has returned |
| Safety.WaitReturnsWhenDone | include/oqpi/scheduling/task.hpp:85-101 | a wait (or the wait at the end of activeWait) gets through only when the task is done and every function below it has returned |
| Returning.ReturnsOnlyWhenDone | include/oqpi/scheduling/task.hpp:85-101 | a call of activeWait or wait on a unit task, a parallel group or a sequence has returned only when it is done and every function below it has returned, whatever the caller ran meanwhile |
| Safety.ClaimIsExclusive | include/oqpi/scheduling/parallel_group.hpp:95-110 | an index from 1 on is claimed by one agent only, and its child has not been offered before |
| Safety.FirstIsNeverOffered | include/oqpi/scheduling/parallel_group.hpp:92-110 | a group passes neither child 0 nor an unclaimed index to the scheduler |
| Safety.OrderIsKept | include/oqpi/scheduling/sequence_group.hpp:71-81 | if callers keep the rule and a sequence has x under an earlier child than y, the function of x has returned before that of y starts |
| EarlyWaits.StartsOutOfTurn | include/oqpi/scheduling/task.hpp:91-101 | the condition is needed wherever something comes before: for every waitable unit task, or waitable parallel group with a unit task as first child, and every unit task that a sequence puts before it, a run in which a caller's activeWait starts it first |
| EarlyWaits.TwoPoppers | include/oqpi/scheduling/sequence_group.hpp:61-94 | and where nothing does: whichever child of a root sequence a caller actively waits for, a run in which the caller and a worker are both about to pop its unsynchronised queue |
| EarlyWaits.RuleIsNeeded | include/oqpi/scheduling/sequence_group.hpp:85-94 | so with one caller adding the root and one actively waiting for a unit task among its children, the queues are popped by one agent at a time in every run if and only if the rule is kept |
| EarlyWaits.NeverDone | include/oqpi/scheduling/sequence_group.hpp:61-81 | and needed for progress: on every root sequence of unit tasks, one activeWait on the last child leads to a state in which nobody can step and the sequence is not done |
| Safety.CompleteRunIsAPermutation | include/oqpi/scheduling/parallel_group.hpp:87-134 | when the root is done the functions that have run are the leaves of the depth-first walk, each exactly once |
| SameCalls.ConcurrentRunMatches | include/oqpi/scheduling/task_group.hpp:58-66 | the trace of a complete concurrent run is a permutation of the calls executeSingleThreaded makes on the same tree when nothing has been grabbed, and respects the order of its sequences |
| LedgerMoves.Grab | include/oqpi/scheduling/task_base.hpp:109-113 | winning the token of an open task turns the offer into ownership and keeps the balance |
| LedgerMoves.Begin | include/oqpi/scheduling/task.hpp:125-130 | an owner may start the function: whatever the sequences put before it is over |
| LedgerMoves.NotifyParallel | include/oqpi/scheduling/parallel_group.hpp:115-134 | the counter never goes below zero; the call that takes it to zero completes the group, any other refills if there is a limit |
| LedgerMoves.NotifySequence | include/oqpi/scheduling/sequence_group.hpp:71-81 | the caller is the one child in flight, and after its call nobody is |
| LedgerMoves.Pop | include/oqpi/scheduling/sequence_group.hpp:85-94 | the popped child is the next of the list, has not been touched, and becomes the child in flight |
| LedgerMoves.SequenceEnds | include/oqpi/scheduling/sequence_group.hpp:77-80 | an empty queue after the last call completes the sequence |
| LedgerMoves.Claim | include/oqpi/scheduling/parallel_group.hpp:95-97 | fetch_add gives each claimer an index nobody else has |
| LedgerMoves.ForkExhausted | include/oqpi/scheduling/parallel_group.hpp:95-107 | a scheduling loop that runs out of indices leaves every child looked after |
| LedgerMoves.RefillExhausted | include/oqpi/scheduling/parallel_group.hpp:122-133 | so does a refill that runs out of indices |
| LedgerMoves.OfferChild | include/oqpi/scheduling/parallel_group.hpp:97-105 | offering a claimed child hands its care to the scheduler, once |
| LedgerMoves.ClosedBelow | include/oqpi/scheduling/task_group.hpp:97-103 | below a node that is completing, every node has called its parent |
| LedgerMoves.PrecedingFinished | include/oqpi/scheduling/sequence_group.hpp:71-81 | what must precede an open unit task has finished |
| MachineLedger.TaskTrades | include/oqpi/scheduling/task.hpp:64-137 | every operation of tasks, notifyParent and sequences passes its duties on to what follows it |
| MachineLedger.ParallelTrades | include/oqpi/scheduling/parallel_group.hpp:87-134 | so does every operation of the two loops of a parallel group |
| MachineLedger.CallerTrades | include/oqpi/scheduling/parallel_group.hpp:65-76 | so does every operation of activeWait and wait that keeps the rule |
| MachineLedger.WorkerTrades | include/oqpi/scheduling/scheduler.hpp:230-310 | so does every operation of a worker that does not move a token to or from a queue or drop it |
| MachineBalance.StepBalanced | include/oqpi/scheduling/task_group_base.hpp:42-49 | one step of any agent keeps the balance of duties and cells, for the whole climb of completions up the tree, the resetting of parent pointers, and the tokens that are dropped once stop() has begun |
| MachineBalance.DutyMoves | include/oqpi/scheduling/scheduler.hpp:190-310 | push and tryPop move an offer between an agent and a queue, and a worker that stops moves its token to the dropped ones: all duties together stay the same |
| MachineShape.StepShape | include/oqpi/scheduling/task_group.hpp:36-66 | a step leads from a well-formed state to a well-formed state; grab tokens are never given back |
| MachineStacks.StepStructured | include/oqpi/scheduling/worker.hpp:93-132 | a worker is always at one position of its loop, with task work on top; below a caller's blocking wait there are only more waits |
| WakeUps.PerformWaking | include/oqpi/scheduling/scheduler.hpp:310-333 | a step posts a token to a worker exactly when it announces a task the worker may work on or comes from stop(), takes one exactly when it is the worker's own wait or try, and otherwise leaves its semaphore alone; an add comes to each worker in turn |
| WakeUps.WorkerPasses | include/oqpi/scheduling/scheduler.hpp:240-262 | a worker goes past a queue it serves only when it has just seen it empty |
| WakeUps.StepHears | include/oqpi/scheduling/scheduler.hpp:230-276 | one step keeps, for each worker and queue: passed and not empty implies a token or an adder on its way |
| WakeUps.StepStopHeard | include/oqpi/scheduling/scheduler.hpp:114-129 | one step keeps: a worker that stop() has posted to holds a token wherever it may sleep |
| Stopping.NoSleepBesideWork | include/oqpi/scheduling/scheduler.hpp:190-199 | in every reachable state, a non-empty queue that a worker serves and has passed in its current pump means a token in its semaphore or an adder that has yet to notify it |
| Stopping.PostedIsNotBlocked | include/oqpi/scheduling/scheduler.hpp:114-129 | after stop() has posted to a worker it is never blocked with zero tokens |
| Stopping.NeverSleepsAgain | include/oqpi/scheduling/worker.hpp:93-132 | once stop() has begun, a worker that is outside its pump never waits again, for the rest of the run |
| Stopping.TakesUpNothing | include/oqpi/scheduling/worker.hpp:93-124 | a worker told to stop that is not at work on a task takes up none any more; and once the scheduler has been told to stop, a worker that has not confirmed a task confirms none |
| Stopping.JoinIsNotStuck | include/oqpi/scheduling/scheduler.hpp:125-128 | a worker that stop() is joining has been told to end and has left its loop or can go on |
| StopReturns.StopIsBounded | include/oqpi/scheduling/scheduler.hpp:114-129 | once all workers' flags are clear, every step lowers a measure, so the rest of any run is bounded |
| StopReturns.StopIsOver | include/oqpi/scheduling/scheduler.hpp:114-129 | a state after the beginning of stop() in which nobody can step has all workers out of their loops and no call of stop() pending |
| StopReturns.StopReturnsAtLast | include/oqpi/scheduling/scheduler.hpp:114-129 | so every run in which all workers' flags are clear is bounded, and one that cannot go on has returned from stop() |
| StopReturns.RunCarries | include/oqpi/scheduling/scheduler.hpp:114-129 | at any time after stop() has begun, it is still under way or all workers have left their loops: it returns only after it has joined them |
| Pumping.HigherSeenEmpty | include/oqpi/scheduling/scheduler.hpp:240-260 | when the pump has come to queue p, it has seen each queue of higher priority that the worker serves empty, in that same pump |
| Pumping.PumpsDrained | include/oqpi/scheduling/scheduler.hpp:265-273 | whenever a worker begins to look for a task it has just seen its semaphore at zero, at the first time and after each wait |
| Pumping.DiscardsOnlyTaken | include/oqpi/scheduling/scheduler.hpp:246-257 | an entry the pump drops on a lost grab has called its parent, waits for its children, or has somebody else at work for it (or was dropped by a stopping worker); one it drops as done after winning is a parallel group that activeWait completed: its token is this worker's, its children have all called it, nobody runs its loops; any other entry is kept and won |
| Pumping.LostUnit | include/oqpi/scheduling/scheduler.hpp:246-257 | for a unit task: its function has started already or another agent holds its token |
| Queueing.FirstInFirstOut | include/oqpi/concurrent_queue.hpp:12-34 | between any two states of any run, what is left of a queue comes first and in the same order: as many entries as have been taken were taken from the front, and new ones joined behind |
| Queueing.StepQueues | include/oqpi/scheduling/scheduler.hpp:244-247 | a queue changes only by a push at its end or by losing its first entry to the worker that takes it |
| Queueing.RefusedForEver | include/oqpi/scheduling/scheduler.hpp:192-303 | a task that is grabbed, or done, and that nobody has got past a test for it, gets past that test never again: the tests of add, of the two loops of its group, of the pump and of signalAvailableWorker |
| Queueing.NoNewEntries | include/oqpi/scheduling/scheduler.hpp:190-199 | so a task that is grabbed or done and not on its way into a queue gets into none any more |
| Queueing.NoNewOffers | include/oqpi/scheduling/parallel_group.hpp:97-128 | and a group passes on no child that is done, nor one that is grabbed and that no loop has found free |
| Filing.QueuedWhereItBelongs | include/oqpi/scheduling/scheduler.hpp:190-227 | with the parent pointer reset after oneTaskDone, every queue entry has, by the nearest node from it up that does not inherit, the priority its queue is for, or has called its parent before |
| LateAdds.FiledInTheWrongQueue | include/oqpi/scheduling/task_group_base.hpp:42-49 | the second case occurs: for every unlimited parallel root of a priority other than normal whose child 1 is a waitable unit task that inherits it, a run in which the climb of add meets the reset and files the finished child under normal |
| ParentLinks.GroupOutlivesItsChildren | include/oqpi/scheduling/task_group_base.hpp:42-49 | the links are reset late enough: a group all whose children have let go of it has completed and called its own parent |
| Filing.LaunchesWhatItServes | include/oqpi/scheduling/worker_base.hpp:61-64 | a worker launches only tasks whose priority, that of the nearest node that does not inherit over the links as they were built, it serves |
| Progress.HaltsOnlyWhenDone | include/oqpi/scheduling/parallel_group.hpp:87-134 | if callers keep the rule, the scheduler runs and no agent can step, the root is done, its functions have each run once, the queues are empty, the workers sleep, and a caller is blocked only on something not under the root |
| Progress.NoStall | include/oqpi/scheduling/scheduler.hpp:230-310 | so while the root is not done and the scheduler runs, some agent can step, with throttled groups too |
| Termination.StepPays | include/oqpi/scheduling/parallel_group.hpp:87-134 | every step lowers a natural-number measure of tokens, uncalled parents, unclaimed and unpopped children, queue entries, semaphore tokens and pending operations, while the scheduler runs and again when all workers have been told to end |
| Termination.RunIsBounded | include/oqpi/scheduling/scheduler.hpp:230-310 | so the length of any run is bounded by the measure of its first state, whatever the callers ask for |
| Termination.MaximalRunsFinish | include/oqpi/scheduling/task_group_base.hpp:42-49 | every run that cannot be continued, and in which callers keep the rule, has finished the root, each function once |
| Throttling.OfferKeeps | include/oqpi/scheduling/parallel_group.hpp:97-105 | passing one more child to the scheduler is paid for by the loop's budget or by the child that was counted down |
| Throttling.CallKeeps | include/oqpi/scheduling/parallel_group.hpp:117-133 | counting a child down makes room for one refill |
| ThrottledRuns.StepThrottled | include/oqpi/scheduling/parallel_group.hpp:87-134 | one step without activeWait keeps the throttling invariant, however refills race with the scheduling loop |
| ThrottledRuns.AtMostLimit | include/oqpi/scheduling/parallel_group.hpp:92-133 | with a limit k and no activeWait, at most max(2, k) children are queued, about to be queued, or running and not counted down, in every state of every run (how many there are at least: WorkConserving and Limits) |
| ThrottledRuns.LimitIsKept | include/oqpi/scheduling/parallel_group.hpp:92-133 | so k itself is kept when k is at least 2 or the group has one child |
| WorkConserving.LoopEndsInTime | include/oqpi/scheduling/parallel_group.hpp:92-107 | in every run, whoever waits: a group comes to grab child 0 only when no index is left or it has scheduled at least max(1, k - 1) children, k its limit |
| WorkConserving.EveryPlaceIsFilled | include/oqpi/scheduling/parallel_group.hpp:87-133 | while a limited group has indices and children left, the children it has passed on and the refills under way are, exactly, those its loop has scheduled and one for each child that has called back; and when the loop is over it has scheduled max(1, k - 1) |
| WorkConserving.StepMetered | include/oqpi/scheduling/parallel_group.hpp:87-133 | one step of any agent keeps this account |
| WorkConserving.AsManyAsAllowed | include/oqpi/scheduling/parallel_group.hpp:87-133 | so without activeWait, from the end of the loop until no index is left, exactly max(2, k) children are in play, counting the refills under way: a place that becomes free is filled |
| Limits.LimitIsAttained | include/oqpi/scheduling/parallel_group.hpp:87-112 | on every tree with a parallel root, a run without activeWait in which exactly min(n, max(2, k)) of its n children are in play, all n without a limit |
| Limits.LimitOneIsExceeded | include/oqpi/scheduling/parallel_group.hpp:100-110 | on every tree whose root has limit 1 and at least two children, a run without activeWait in which two of them are in play |
| Limits.LimitIsKeptExactly | include/oqpi/scheduling/parallel_group.hpp:92-133 | so the limit of the root is kept in all runs without activeWait if and only if it is at least 2 or there is one child |
| Limits.AllAtOnce | include/oqpi/scheduling/parallel_group.hpp:65-76 | with activeWait there is no bound: on every parallel root a run in which all children are in play at once, whatever the limit |
| ActiveWaiting.BlockedBehindOthers | include/oqpi/scheduling/parallel_group.hpp:65-76 | a caller that has gone through all children of a fork and is blocked waits for another agent that runs one of them or is completing the group |
| ActiveWaiting.ActiveWaitNeedsNoWorker | include/oqpi/scheduling/parallel_group.hpp:65-76 | with no other agent moving, add followed by activeWait on a fork of unit tasks is never blocked, and ends with every child run and the group done but not grabbed |
| ActiveWaiting.SoloIsBounded | include/oqpi/scheduling/parallel_group.hpp:65-76 | and ends within a bounded number of steps |
| ParallelGroups.ParallelGroup.constructor | include/oqpi/scheduling/parallel_group.hpp:29-36 | counter 0, next index 1, no tasks |
| ParallelGroups.ParallelGroup.AddTaskImpl | include/oqpi/scheduling/parallel_group.hpp:80-84 | one more task and one more in the counter |
| ParallelGroups.ParallelGroup.ExecuteImpl | include/oqpi/scheduling/parallel_group.hpp:87-112 | an empty group is refused; otherwise the first open tasks from the shared index on are added, as many as the limit allows, the index ends just past the last one tried, and task 0 is grabbed |
| ParallelGroups.ParallelGroup.OneTaskDone | include/oqpi/scheduling/parallel_group.hpp:115-135 | the counter goes down by one; zero completes the group; otherwise a limited group adds its next open task, if any |
| ParallelGroups.NonePassedOver | include/oqpi/scheduling/parallel_group.hpp:95-107 | the loop passes over no open task while its budget lasts |
| ParallelGroups.AfterSelected | include/oqpi/scheduling/parallel_group.hpp:95-107 | the index that the loop leaves behind is one past the last task it has added if its budget is spent, and otherwise one past the end |
| ParallelGroups.SelectedAreOpen | include/oqpi/scheduling/parallel_group.hpp:95-107 | only open tasks are added, in order, each once |
| ParallelGroups.LoopAdds | include/oqpi/scheduling/parallel_group.hpp:95-107 | of the open tasks from the shared index on the loop adds all without a limit, else k - 1, or one if k is 1, as far as there are that many |
| ParallelGroups.LimitExceeded | include/oqpi/scheduling/parallel_group.hpp:100 | the scheduling loop together with task 0 exceeds the limit exactly when the limit is 1 and another task is open |
| ConcurrentQueues.ConcurrentQueue.Push | include/oqpi/concurrent_queue.hpp:12-22 | the element goes to the end |
| ConcurrentQueues.ConcurrentQueue.TryPop | include/oqpi/concurrent_queue.hpp:24-34 | the oldest element comes out, or nothing does and nothing changes |
| SchedulerPump.PrioritiesServed | include/oqpi/scheduling/worker_base.hpp:24-38 | which priorities each of the nine worker priorities serves, bit by bit |
| SchedulerPump.StartDemands | include/oqpi/scheduling/scheduler.hpp:94-101 | the configurations of the model are exactly those that pass the check start() makes, a worker for each priority |
| SchedulerPump.OneForAny | include/oqpi/scheduling/scheduler.hpp:94-101 | one worker that serves any priority satisfies the check start() makes |
| SchedulerPump.Scheduler.PumpTask | include/oqpi/scheduling/scheduler.hpp:233-263 | true without a handle once stopped; else the first entry in priority and age order whose task is neither grabbed nor done, now grabbed, with every entry before it gone and stale; else false with every served queue empty and all its entries stale |
| SchedulerPump.Scheduler.PumpQueue | include/oqpi/scheduling/scheduler.hpp:244-258 | the inner loop: the entries before the winner are dropped, those after it stay |
| Hierarchy.Task.TryGrab | include/oqpi/scheduling/task_base.hpp:109-113 | won exactly when the flag was clear; set afterwards |
| Hierarchy.Task.AddTask | include/oqpi/scheduling/task_group.hpp:36-48 | a task that is bound already, or an invalid handle, is refused and nothing changes; otherwise its parent is set and the list and the counter grow |
| Hierarchy.AddTaskTo | include/oqpi/scheduling/task_group.hpp:36-48 | the objects afterwards are linked as the grown tree says |
| Hierarchy.AddKeepsLinked | include/oqpi/scheduling/task_group.hpp:36-48 | adding a task that is not the group or above it keeps the parent links acyclic and matched by the child lists |
| Hierarchy.AddAncestorMakesCycle | include/oqpi/scheduling/task_group.hpp:36-48 | adding the group itself or an ancestor closes a cycle of parent links |
| Hierarchy.ResolveTaskPriority | include/oqpi/scheduling/scheduler.hpp:205-227 | whenever the parent links are acyclic the loop ends, with the priority of the nearest node on the chain of parents that does not inherit, normal if there is none, and never an invalid queue |
| TaskTree.Tree.ResolveIsNearest | include/oqpi/scheduling/scheduler.hpp:205-227 | there is a chain of parent links whose nodes inherit, up to one that does not and has this priority, or up to the top and it is normal, exactly for the priority the task resolves to |
| TaskTree.QueuesInOrder | include/oqpi/scheduling/task_type.hpp:12-22 | each priority has a queue of its own, the most urgent first |
| SingleThreaded.ExecuteSingleThreaded | include/oqpi/scheduling/task_group.hpp:58-66 | the functions of the tasks the run comes to are called in depth-first order, one at a time, whatever has been grabbed before; each task it comes to is grabbed, done and signalled once more, except for unit tasks that were grabbed before, and nothing else below changes |
| SingleThreaded.ExecuteUnit | include/oqpi/scheduling/task.hpp:74-82 | the function runs exactly if the token is won; the parent is not called |
| SingleThreaded.ExecuteParallel | include/oqpi/scheduling/parallel_group.hpp:47-62 | the same for a parallel group: children in the order they were added if the token is won, done and signalled in any case |
| SingleThreaded.ExecuteSequence | include/oqpi/scheduling/sequence_group.hpp:39-49 | the same for a sequence, which pops and runs until its queue is empty |
| SingleThreaded.FreshLeaves | include/oqpi/scheduling/task_group.hpp:58-66 | on a tree nobody has touched the run comes to every unit task |
| SingleThreaded.OpenLeavesCount | include/oqpi/scheduling/task_group.hpp:58-66 | the functions called are those of the unit tasks below that the run comes to and that have not been grabbed, each once and no others |
| SingleThreaded.ReachedMeans | include/oqpi/scheduling/task_group.hpp:58-66 | it comes to a task exactly when nothing above it, up to where the run begins, has been grabbed |
| SingleThreaded.OpenLeavesOrdered | include/oqpi/scheduling/task_group.hpp:58-66 | and they are called from left to right: of any two, some group has the one called first under a child added earlier |
| Partitioners.MakeBase | include/oqpi/parallel_algorithms/base_partitioner.hpp:14-19 | element and batch counts fit and agree with the bounds; the batch count is the element count or the given maximum, whichever is less |
| Partitioners.SimplePartitioner.constructor | include/oqpi/parallel_algorithms/simple_partitioner.hpp:18-23 | share and remainder divide the elements among the batches; also where there are no elements or no batches they are what the division gives, or one and none |
| Partitioners.TruncatedDivision | include/oqpi/parallel_algorithms/simple_partitioner.hpp:18-23 | quotient and remainder are those of the source's language, rounded towards zero, for every sign |
| Partitioners.SimplePartitioner.LastIndexOfBatch | include/oqpi/parallel_algorithms/simple_partitioner.hpp:60-66 | for a batch that there is, no intermediate 32-bit value overflows and the result is where the next batch begins; for a negative one that holds only within stated bounds, and beyond them the sum wraps around |
| Partitioners.SimplePartitioner.FirstIndexOfBatch | include/oqpi/parallel_algorithms/simple_partitioner.hpp:53-58 | a batch begins where the one before it ends |
| Partitioners.SimplePartitioner.GetNextValidRange | include/oqpi/parallel_algorithms/simple_partitioner.hpp:36-50 | the n-th call gets the n-th batch; false once they are used up; the counter wraps, and while it is negative every call returns true with a range that begins at the first index and does not end behind it unless the sum overflows |
| Partitioners.FirstBadCall | include/oqpi/parallel_algorithms/simple_partitioner.hpp:60-66 | with more than 2^30 batches the sum overflows at the very first call after the wrap, and wrapped around it hands out the first two indices again |
| Partitioners.HandedOutOnce | include/oqpi/parallel_algorithms/simple_partitioner.hpp:36-50 | call n is for batch b exactly when n is b modulo 2^32: within 2^32 calls each batch is handed out once |
| Partitioners.BatchesTile | include/oqpi/parallel_algorithms/simple_partitioner.hpp:53-66 | the batches begin at the first index, end at the last, are never empty, differ in size by at most one, larger ones first |
| Partitioners.IndexInOneBatch | include/oqpi/parallel_algorithms/simple_partitioner.hpp:53-66 | every index of the range is in exactly one batch |
| Partitioners.AtomicPartitioner.constructor | include/oqpi/parallel_algorithms/atomic_partitioner.hpp:18-22 | the shared index begins at the first index |
| Partitioners.AtomicPartitioner.CompareExchange | include/oqpi/parallel_algorithms/atomic_partitioner.hpp:53 | the index changes exactly if it was as expected |
| Partitioners.AtomicPartitioner.GetNextValidRange | include/oqpi/parallel_algorithms/atomic_partitioner.hpp:42-66 | against any interference: the index ends where it was, moved on by what others took and by the range returned, so nothing is lost; that range begins at the index as it was when won and is as long as asked for or up to the element count; false only when nothing is left or what is left does not fit 32 bits; each failure is an advance made by somebody else |
| PartitionRace.RangesAreDisjoint | include/oqpi/parallel_algorithms/atomic_partitioner.hpp:42-66 | under every interleaving of loads and exchanges the ranges are non-empty, pairwise disjoint and tile what has been claimed; retries are bounded |
| PartitionRace.FailureMeansProgress | include/oqpi/parallel_algorithms/atomic_partitioner.hpp:53-60 | a failed exchange means that the index has advanced since the load |
| PartitionRace.ToldMeansCovered | include/oqpi/parallel_algorithms/atomic_partitioner.hpp:49-64 | once any caller gets false the ranges are exactly the indices from firstIndex to below elementCount |
| PartitionRace.CoversWholeRange | include/oqpi/parallel_algorithms/atomic_partitioner.hpp:49-64 | they are the whole range of the partitioner exactly when firstIndex is 0 |
| PartitionRace.NothingForFiveToEight | include/oqpi/parallel_algorithms/atomic_partitioner.hpp:49-64 | for the range 5 to 8 the first caller is told at once that nothing is left |
| PartitionRace.RangesAreFixed | include/oqpi/parallel_algorithms/atomic_partitioner.hpp:42-66 | which ranges are handed out does not depend on the interleaving |
| LoopPartitions.SimplePartitions | include/oqpi/parallel_algorithms/simple_partitioner.hpp:36-66 | as long as its counter has not wrapped, a simple_partitioner is a source of adjacent ranges for a loop, from its first to its last index |
| CountedLoops.AskedAtMost | include/oqpi/parallel_algorithms/parallel_for.hpp:73-86 | in a loop over a simple_partitioner with its 32-bit counter, n ranges and m batches ask at most n + m times, if that many questions cannot make the counter wrap |
| CountedLoops.SimpleLoop | include/oqpi/parallel_algorithms/parallel_for.hpp:65-104 | with up to 2^30 batches, one child each, a finished loop has called the function once for each index from the first to below the last, and for no other |
| CountedLoops.SimpleAtMostOnce | include/oqpi/parallel_algorithms/parallel_for.hpp:65-104 | and at every moment before that at most once |
| CountedLoops.SimpleIsBounded | include/oqpi/parallel_algorithms/parallel_for.hpp:79-85 | such a loop is bounded |
| CountedLoops.SimpleNeverStalls | include/oqpi/parallel_algorithms/parallel_for.hpp:98-104 | and until its group is done some step is possible |
| CountedLoops.LoopWraps | include/oqpi/parallel_algorithms/simple_partitioner.hpp:38 | a finished loop has made its counter wrap if and only if it has more than 2^30 batches; with n up to that it has asked 2n times |
| CountedLoops.CalledTwice | include/oqpi/parallel_algorithms/simple_partitioner.hpp:36-50 | with more there is a run, without stop() and without a second caller, in which the function is called twice for the first index |
| CountedLoops.CountsExactly | include/oqpi/parallel_algorithms/simple_partitioner.hpp:36-50 | so no index is called twice and none outside the range, in every run, if and only if there are at most 2^30 batches |
| LoopPartitions.AtomicPartitions | include/oqpi/parallel_algorithms/atomic_partitioner.hpp:42-66 | so is an atomic_partitioner: what has been handed out when a caller gets false, under any interleaving, is what these ranges cover, possibly nothing |
| LoopPartitions.AtomicLoop | include/oqpi/parallel_algorithms/parallel_for.hpp:65-104 | with it, a finished loop has called the function once for each index from the first to below the element count, and for no other |
| LoopPartitions.RaceFits | include/oqpi/parallel_algorithms/atomic_partitioner.hpp:46-53 | whether a 32-bit atomic_partitioner has something to grab, and how much, in any state of the race, with a difference that does not fit 32 bits taken to wrap around |
| LoopPartitions.AtomicLoopIsExact | include/oqpi/parallel_algorithms/parallel_for.hpp:65-104 | with a 32-bit atomic_partitioner that is not empty, a finished loop has called each index of its own range once and no other if and only if the range begins at 0 |
| LoopPartitions.RunBatch | include/oqpi/parallel_algorithms/parallel_for.hpp:75-86 | one batch on its own, at whatever count before the wrap it begins, calls the function for every index not handed out yet, one after the other from the first of them to below the last index, with its batch index, and asks once more |
| LoopPartitions.RunAtomicBatch | include/oqpi/parallel_algorithms/parallel_for.hpp:75-86 | the same with an atomic_partitioner, from the shared index to below the element count |
| LoopPartitions.CallRange | include/oqpi/parallel_algorithms/parallel_for.hpp:81-84 | the loop over one range calls the function for first, first + 1, ... up to below last, each once and in this order |
| ParallelFor.AtMostOnce | include/oqpi/parallel_algorithms/parallel_for.hpp:75-86 | at every moment no index has been passed to the function twice and none outside the range at all |
| LoopTurns.OneCallAtATime | include/oqpi/parallel_algorithms/parallel_for.hpp:75-86 | whatever the interleaving, each batch calls the function for one index at a time, returning before the next, in increasing order |
| ParallelFor.ExactlyOncePerIndex | include/oqpi/parallel_algorithms/parallel_for.hpp:65-104 | when the group is done, the function has been called once for each index of the range, for no other, and all calls have returned |
| ParallelFor.LoopNeverStalls | include/oqpi/parallel_algorithms/parallel_for.hpp:98-104 | until then some step of a batch or of the machine is possible |
| ParallelFor.LoopIsBounded | include/oqpi/parallel_algorithms/parallel_for.hpp:79-85 | the number of steps is bounded |
| ParallelFor.LoopsComplete | include/oqpi/parallel_algorithms/parallel_for.hpp:65-104 | a loop that cannot go on is complete |
| ParallelFor.ReturnsWhenCalled | include/oqpi/parallel_algorithms/parallel_for.hpp:98-104 | add followed by activeWait returns only when the function has been called for each index of the range and all calls have returned |
| RacingLoops.RunShows | include/oqpi/parallel_algorithms/atomic_partitioner.hpp:42-66 | a loop whose batches race for the shared index, one load and one exchange at a time, is a run of the loop that claims a range in one step |
| RacingLoops.RacingLoopIsExact | include/oqpi/parallel_algorithms/parallel_for.hpp:65-104 | so it too has called the function exactly once for each index from the first to below the element count when the group is done |
| RacingLoops.RaceNeverStalls | include/oqpi/parallel_algorithms/atomic_partitioner.hpp:42-66 | until the group is done some step is possible |
| RacingLoops.RaceIsBounded | include/oqpi/parallel_algorithms/atomic_partitioner.hpp:42-66 | and the run is bounded, failed exchanges included |
| Events.ManualResetEvent.Wait | include/oqpi/synchronization/posix/posix_event.hpp:77-92 | a wait that gets through leaves the semaphore as it found it |
| Events.ManualResetEvent.Notify | include/oqpi/synchronization/posix/posix_event.hpp:71-74 | one more token |
| Events.ManualResetEvent.Reset | include/oqpi/synchronization/posix/posix_event.hpp:141-156 | with nobody else about, reset terminates with the event not signalled |
| Events.TokensAreConserved | include/oqpi/synchronization/posix/posix_event.hpp:71-92 | value plus waiters between their wait and their re-post is initial value plus notifies |
| Events.NoReturnBeforeNotify | include/oqpi/synchronization/posix/posix_event.hpp:77-92 | nobody wakes before a notify unless the event was signalled at the start |
| Events.EveryWaiterReturns | include/oqpi/synchronization/posix/posix_event.hpp:84-89 | after one notify nobody stays blocked: at rest every waiter has returned and the event is still signalled |
| Events.RunIsBounded | include/oqpi/synchronization/posix/posix_event.hpp:71-92 | at most two steps for each agent |

## Left out

- StopReturns.StopReturnsAtLast: begins when the flags of all workers are clear. Between the clearing of
  the scheduler's flag and of its own a worker may go round its loop any number of times, so that far
  only a fair scheduling of threads brings stop() on, and fairness is not modelled.
- Objects for the concurrent groups and workers: the interleaved protocol is a state machine on values,
  one operation per atomic access; only its uninterrupted loops are also classes.
- Wait and activeWait on fire-and-forget tasks, which have no event, and with them requests on tasks
  that are not waitable.
- Groups must be complete and non-empty before they are scheduled, as `addTask` is not thread safe;
  `ParallelGroups` has the branch for an empty group, the machine has no empty groups.
- Starting the scheduler again after `stop()`: it is started once, before the callers make their requests.
- More than one root being scheduled: the other trees of a forest may be waited for but are not added.
- Checks that only exist in debug builds (`oqpi_ensure`, `oqpi_failed`) are taken with their debug
  meaning; in release builds they are constants (include/oqpi/error_handling.hpp:187-192).
- A `parallel_for` over an invalid partitioner, which makes no group and does nothing.
- `isIdle`, `waitUntilIdle`, timed waits, error returns of the semaphore calls, auto-reset events,
  mutexes, named objects and the Windows variants.
- Weak memory ordering (accesses are sequentially consistent) and lifetimes of tasks and groups (they are
  never freed).
- Contexts, task results, names, logging, thread attributes and the helper overloads.
- Functions that block, throw or never return: a function is a start and an end event in the trace.
- What signed overflow does, which the source's language leaves undefined: the partitioners' sums and
  differences and the loop index are taken to wrap around.
- Partitioners.AtomicPartitioner.GetNextValidRange: leaves out a difference below the smallest 32-bit
  number, which only a partitioner with a negative element count can produce.
- EarlyWaits.NeverDone: shows that a last child actively waited for can stop the sequence for good, not
  that another child cannot.
- Events.ManualResetEvent.Wait: a method models the waits that get through; blocking is in the state
  machine of the same module. A reset that runs beside other agents is not modelled.
- ParallelGroups.ParallelGroup.ExecuteImpl: the scheduler's `add` is the push of a handle, and the run of
  task 0 that may follow the grab is left to the caller.
- SingleThreaded.ExecuteSingleThreaded: a group that has not been grabbed has its list and counter as they
  were built, which is what the source checks.
- Locks: the concurrent queue is atomic by its mutex, which is not modelled.
