# hfts: a verified model

hfts is a scheduler of fibers on worker threads. This project models its concurrent protocol, its heap data
structures and the two programs of its benchmark in Dafny, and proves what they keep in every run.

## Parts

| files | part of the system | form |
|---|---|---|
| `Wrappers.dfy`, `Collections.dfy` | what several parts share | a datatype and small lemmas |
| `Timeouts.dfy`, `WaitingFibers.dfy` | the index of fibers that wait with a deadline | functions, and the object changed in place |
| `Worker.dfy`, `WorkerProofs.dfy`, `WorkerTasks.dfy`, `WorkerObject.dfy` | one worker and its fibers | a transition system, and the object whose methods are its steps |
| `System.dfy`, `SystemProofs.dfy`, `SystemRuns.dfy`, `SystemTheorems.dfy`, `SystemWaits.dfy`, `SystemHints.dfy`, `SystemEnds.dfy`, `SystemLosses.dfy`, `SchedulerObject.dfy` | any number of workers: submission, stealing, destruction | a transition system over runs, and the object with the hints |
| `Events.dfy`, `EventLocks.dfy`, `EventDeadlock.dfy`, `EventBooks.dfy`, `EventWakeups.dfy`, `EventWakeSteps.dfy`, `EventTheorems.dfy`, `EventWaits.dfy`, `EventLosses.dfy`, `EventGraph.dfy`, `EventEnds.dfy`, `ConditionObject.dfy`, `EventObject.dfy` | events, wait groups and condition variables under any interleaving of fibers and plain threads | a transition system over runs, the objects, and the recursive `signal` |
| `Composition.dfy`, `CompositionTheorems.dfy` | events and workers together | the two transition systems side by side |
| `List.dfy`, `Vector.dfy` | the intrusive list and the growing vector | classes on the heap |
| `Pool.dfy`, `Reduce.dfy`, `Xorshift.dfy` | the thread pool and the parallel reduction of the benchmark | a transition system with its object, and loops |
| `Memory.dfy` | allocation, its layouts and its accounting | functions, and classes |

A worker is modelled at the granularity of its mutex and its fiber switches: a step ends where the mutex is taken
or given up, or where control passes to another fiber. Each fiber that is not current keeps the point where it will
go on, and the task it is executing. The main invariant (`Workers.Inv`) has four parts: `Partition` says where every
fiber is and what its tag and resume point are, including the current fiber while it is already queued inside
`suspend`; `Counters` fixes `num` and `numBlockedFibers`; `Wakeful` says that a worker asleep although its wait
condition holds is owed a notification; `Leaving` describes a worker after the switch at the end of `run`.

In `Systems` a run is any interleaving of the workers' own steps with submissions, the atomic operations of the
submission loop and of `onBeginSpinning`, thefts, notifications of fibers, deliveries of `notify_one`, the binding of
threads, and the destructor. The history variable `place` says where each task is, and `Placed` ties it to what the queues, thieves and fibers hold.

In `Events` the locks are a map from lock to holder. The fields `monotone`, `retests`, `direct`, `origin` and
`sources` are not in the source. `monotone` states a discipline of the program: manual events only, never cleared.
`retests` selects the repaired timed wait, which tests the predicate again when its deadline has passed. The others
are history.

In `Compositions` each waiting fiber of `Events` is a fiber of a worker of `Workers`, and a wait that parks, a
notification, an expired deadline and the return from the wait are one step of both. The mutex of a worker is a lock of
`Events` when a fiber holds it, and a control point of `Workers` when the worker's own thread does; it is never both.

## Where the code and its intent differ

The model follows the code. Where the code breaks what it is meant to keep, there is a lemma with the exact
condition, and the repaired operation has a name of its own.

- `WaitingFibers::take` and `erase` each update one half of the index only (`TakeConsistentIff`,
  `EraseConsistentIff`); with two waiting fibers and one due, the loop of `enqueueFiberTimeouts` does not end
  (`WrittenLoopEndsIff`). `TakeBoth` and `EraseBoth` update both halves. The worker model uses these.
- `enqueueFiberTimeouts` does not mark the fibers as queued, although a comment in `Worker::enqueue` says so
  (`WrittenTimeoutsKeepIff`). The worker model marks them.
- A timed wait of a fiber that reaches its deadline returns without testing the predicate again, so that it can use
  up the notification of an automatic event (`TimedWaitLosesWakeup`). With `retests` none is lost. Timed waits of
  plain threads test it again and are harmless.
- `WaitGroup::add` can wrap the count to zero without notifying (`WrappedAddLosesWakeup`). An `add` that wraps past
  zero is harmless.
- These two are the only steps that lose a wakeup. `Harmful` says when one does, in terms of the state before it:
  a step loses a wakeup exactly if it is harmful (`StepExact`), and a run has lost none exactly if no step of it is
  (`WakeupsKeptIff`).
- `Worker::enqueue(Fiber*)` accepts an idle fiber (`PushFiberKeepsIff`). A notification of a condition variable never
  targets one (`Compositions.NotifyKeeps`).
- The destructor stops the workers one after the other. A task submitted meanwhile can be put on a worker that has
  left; if no other worker steals it there, it is never started (`LateTaskIsLost`). `FinishedIff` says exactly which
  tasks are finished; all those accepted before destruction began are (`DestructorWaitsForAll`).
- `vector::operator=` keeps the count and capacity of storage it has given back (`AssignSoundIff`).
- The chunk count of the reduction is cut to 32 bits for its wait group, so that with 2^32 chunks or more the wait can
  end too early (`AllDoneIff`, `EarlyChecksum`), and the rounding-up division can overflow (`PartitionedIff`).
- The sizes of allocations can overflow, among them the page count times the page size of a guarded one (`InsideIff`).
- A pool without threads never runs its tasks (`NoThreadsNoWork`).

## Assumptions

Mutexes and condition variables are atomic steps with spurious wakeups; atomics are sequentially consistent. The
clock is whatever the caller of a step says. A fiber belongs to one worker. A task holds no lock of its own while it
waits. Nobody is inside `Scheduler::enqueue` when the destructor returns. `malloc` and the page mapping succeed and
return blocks inside the address space.

## Model

| member | source | states |
|---|---|---|
| `Timeouts.AddConsistentIff` | include/hfts/waitingfiber.hpp:75-78 | `add` keeps the ordered set and the map inverse exactly when the fiber is new or already has that deadline; it registers the deadline it is given unless there is one already |
| `Timeouts.TakeConsistentIff` | include/hfts/waitingfiber.hpp:57-69 | `take` as written never reads an empty set, returns what the intended one returns, and breaks the two halves exactly when it returns a fiber |
| `Timeouts.EraseConsistentIff` | include/hfts/waitingfiber.hpp:80-87 | `erase` as written breaks the two halves exactly when the fiber has a deadline |
| `Timeouts.EraseBothCorrect` | include/hfts/waitingfiber.hpp:80-87 | with both halves removed, erasing keeps them inverse and removes exactly that fiber |
| `Timeouts.EraseUndoesAdd` | include/hfts/waitingfiber.hpp:75-87 | erasing a fiber just added restores the index |
| `Timeouts.TakeBothCorrect` | include/hfts/waitingfiber.hpp:57-69 | the intended `take` returns nothing exactly when nothing is due, else the fiber with the least deadline, and with the least address among those, takes out that fiber alone, and keeps the halves inverse |
| `Timeouts.WrittenLoopEndsIff` | src/worker.cpp:305-311 | the loop of `enqueueFiberTimeouts` with the written `take` ends exactly when nothing is due or a single fiber waits |
| `Timeouts.StuckRound` | src/worker.cpp:305-311 | after its first round on two or more waiting fibers the written loop takes the same fiber for ever |
| `Timeouts.DrainStep` | src/worker.cpp:305-311 | a drain is one intended `take` after another |
| `Timeouts.DueCorrect` | src/worker.cpp:305-311 | the drained fibers are exactly those with a deadline up to now, in (time, address) order |
| `Timeouts.DueInOrder` | include/hfts/waitingfiber.hpp:93-98 | of two drained fibers the one with the earlier deadline comes first, and at equal deadlines the one with the smaller address |
| `Timeouts.DueDistinct` | src/worker.cpp:305-311 | no fiber is drained twice |
| `Timeouts.DrainedCorrect` | src/worker.cpp:305-311 | what is left is consistent and holds exactly the fibers not due, with their deadlines |
| `Timeouts.FirstIsLeast` | include/hfts/waitingfiber.hpp:71-73 | `first` is the least deadline of any waiting fiber |
| `WaitingFiberObjects.WaitingFibers.Add` | include/hfts/waitingfiber.hpp:75-78 | in place, `add` is the modelled one and keeps the halves inverse for a new fiber |
| `WaitingFiberObjects.WaitingFibers.Take` | include/hfts/waitingfiber.hpp:57-69 | in place, the written `take` wherever it is defined; on a consistent index the halves stay inverse exactly when it returns nothing |
| `WaitingFiberObjects.WaitingFibers.Erase` | include/hfts/waitingfiber.hpp:80-87 | in place, the written `erase`; on a consistent index the halves stay inverse exactly when the fiber has no deadline |
| `WaitingFiberObjects.WaitingFibers.TakeBoth` | include/hfts/waitingfiber.hpp:57-69 | in place, the intended `take`: both halves change together, and a returned fiber shortens the set |
| `WaitingFiberObjects.WaitingFibers.EraseBoth` | include/hfts/waitingfiber.hpp:80-87 | in place, the intended `erase`: both halves change together and the fiber is gone |
| `WaitingFiberObjects.WaitingFibers.First` | include/hfts/waitingfiber.hpp:71-73 | the returned time is a deadline of the map and no deadline is earlier |
| `WaitingFiberObjects.WaitingFibers.Contains` | include/hfts/waitingfiber.hpp:89-91 | true exactly when the ordered set holds an entry of the fiber |
| `WorkerProofs.StepKeeps` | src/worker.cpp:97-356 | every step of a worker's thread keeps the partition of its fibers with their tags and resume points, both counters, and the promise to a sleeping worker |
| `WorkerProofs.PushTaskKeeps` | src/worker.cpp:194-207 | enqueueing a task from outside keeps the invariant, also while the worker sleeps, spins or executes, and after it has left |
| `WorkerProofs.PushFiberKeepsIff` | src/worker.cpp:165-192 | a notification keeps the invariant exactly when its target is not idle, also after the worker has left |
| `WorkerProofs.StealKeeps` | src/worker.cpp:209-226 | stealing the front task keeps the invariant, also when it empties the queue again |
| `WorkerProofs.GrantKeeps` | src/worker.cpp:294-299 | a thief that has been given a task keeps its own invariant |
| `WorkerProofs.DeliverKeeps` | src/worker.cpp:189-206 | a late `notify_one` keeps the invariant |
| `WorkerProofs.MoveTimeoutsKeeps` | src/worker.cpp:305-311 | moving the due fibers to the ready queue keeps the partition and `num` |
| `WorkerProofs.SwitchToReadyKeeps` | src/worker.cpp:142-148 | blocking for a ready fiber keeps the invariant, also when the fiber picks itself |
| `WorkerProofs.SwitchToIdleKeeps` | src/worker.cpp:149-151 | blocking for an idle fiber keeps the invariant |
| `WorkerProofs.SwitchToNewKeeps` | src/worker.cpp:152-154 | blocking for a new fiber keeps the invariant |
| `WorkerProofs.RunReadyKeeps` | src/worker.cpp:315-326 | parking the current fiber among the idle ones for a ready one keeps the invariant |
| `WorkerProofs.LeaveRunKeeps` | src/worker.cpp:228-240 | the switch at the end of `run` keeps what remains to be said of a finished worker |
| `WorkerProofs.FinalSwitch` | src/worker.cpp:228-240 | that switch never resumes a fiber inside a wait: the main fiber is parked in `runUntilIdle` |
| `WorkerProofs.ExactlyOnePlace` | include/hfts/worker.hpp:186-190 | outside the first part of `suspend` each fiber is in exactly one of current, idle, ready, waiting, yielded |
| `WorkerProofs.BlockedCoversWaiting` | include/hfts/worker.hpp:137-138 | at switch points at least as many fibers are blocked as wait with a deadline |
| `WorkerProofs.TagProtocol` | src/worker.cpp:127-159 | a fiber's state changes only along the six transitions of the protocol, from one given state to another, and at whose hands |
| `WorkerProofs.NotifiedTags` | src/worker.cpp:165-192 | a notification changes the state of its target alone: to queued if it was waiting or yielded, and then it is put in the queue once |
| `WorkerProofs.WrittenTimeoutsKeepIff` | src/worker.cpp:305-311 | `enqueueFiberTimeouts` as written keeps the partition exactly when nothing is due, after however many rounds |
| `WorkerTasks.OtherStepsKeepTasks` | src/worker.cpp:127-159 | no other step of the worker moves a task, through suspension, switches and resumption |
| `WorkerTasks.StepInOrder` | src/worker.cpp:313-338 | the queue stays the unstarted end of everything ever put in it, and after shutdown the stop task is before it |
| `WorkerTasks.StealInOrder` | src/worker.cpp:209-226 | stealing takes from the front, so that order is kept |
| `WorkerObjects.WorkerObject.Enqueue` | src/worker.cpp:194-207 | in place: the task is at the back, `num` counts it, a notification is owed if asked for; the invariant is kept, also after the worker has left |
| `WorkerObjects.WorkerObject.EnqueueFiber` | src/worker.cpp:165-192 | in place: a waiting or yielded fiber is queued once and loses its deadline, a running or queued one is left alone; the invariant is kept exactly if the target is not idle |
| `WorkerObjects.WorkerObject.Steal` | src/worker.cpp:209-226 | in place: succeeds exactly when the lock is had and the front task may leave, and then removes it |
| `WorkerObjects.WorkerObject.BeginRun` | src/worker.cpp:49-52 | in place: the thread has taken the work mutex and enters `run` |
| `WorkerObjects.WorkerObject.EnterRun` | src/worker.cpp:228-235 | in place: the first wait of `run`, with the `notifyAdded` handshake |
| `WorkerObjects.WorkerObject.RecheckRun` | src/worker.cpp:363-372 | in place: the same after a wakeup or a deadline, which ends the sleep if a fiber waits for one |
| `WorkerObjects.WorkerObject.TestLoop` | src/worker.cpp:242-247 | the loop is left only with shutdown set, nothing queued and no fiber blocked |
| `WorkerObjects.WorkerObject.LeaveRun` | src/worker.cpp:228-240 | in place: the main fiber is current afterwards, resumed in `runUntilIdle` if it was not |
| `WorkerObjects.WorkerObject.EnterWait` | src/worker.cpp:249-264 | in place: returns at once if something is queued, else spins or waits |
| `WorkerObjects.WorkerObject.KeepStolen` | src/worker.cpp:294-299 | in place: the stolen task is queued and counted |
| `WorkerObjects.WorkerObject.TestWait` | src/worker.cpp:266-268 | in place: sleeps exactly when nothing is queued and it is not time to stop |
| `WorkerObjects.WorkerObject.RecheckWait` | src/worker.cpp:363-372 | in place: goes on exactly when something is queued, it is time to stop, or a deadline has passed with a fiber waiting for one |
| `WorkerObjects.WorkerObject.EnqueueFiberTimeouts` | src/worker.cpp:305-311 | in place, with the missing updates: ends, moves exactly the due fibers in order, marks each queued, counts them |
| `WorkerObjects.WorkerObject.BeginSuspend` | src/worker.cpp:127-135 | in place: the current fiber is waiting with exactly the given deadline, every other deadline being as before, or yielded with the deadlines untouched |
| `WorkerObjects.WorkerObject.Block` | src/worker.cpp:142-154 | in place: the three-way choice of `suspend`; the blocked count, `num` and both resume points are right |
| `WorkerObjects.WorkerObject.EndSuspend` | src/worker.cpp:156-158 | in place: the fiber that goes on is no longer counted as blocked and is running |
| `WorkerObjects.WorkerObject.RunReady` | src/worker.cpp:315-321 | in place: the current fiber becomes idle and the first ready one goes on |
| `WorkerObjects.WorkerObject.BackFromReady` | src/worker.cpp:321-325 | in place: the fiber that was idle is running again |
| `WorkerObjects.WorkerObject.RunTask` | src/worker.cpp:328-331 | in place: the oldest task is taken |
| `WorkerObjects.WorkerObject.FinishTask` | src/worker.cpp:332-337 | in place: a stop task, and no other, sets `shutdown` |
| `SystemTheorems.EventMoves` | src/scheduler.cpp:94-141 | in every event a task moves only along: in flight, queued, stolen by another worker, queued there, on one fiber, completed |
| `SystemRuns.EventKeeps` | src/scheduler.cpp:94-141 | every event of any number of workers keeps all invariants: one place for each task, no duplicates, all workers' invariants, hint ranges, stop order |
| `SystemRuns.RunGood` | src/scheduler.cpp:15-45 | so they hold in every state of every run |
| `SystemTheorems.InExactlyOnePlace` | src/scheduler.cpp:94-136 | in every run a submitted task is at every moment in exactly one place; none is lost or duplicated, whatever the hints and counters hold |
| `SystemTheorems.NeverStartedTwice` | src/worker.cpp:328-337 | no task is started twice, on whatever workers |
| `SystemTheorems.StaysOnItsFiber` | src/worker.cpp:328-337 | a started task stays on its fiber, suspended or not, until it completes |
| `SystemTheorems.DroppedIff` | src/scheduler.cpp:94-100 | in every run a task has been dropped exactly if its submission had to stay with a submitter without a worker, and then it is never anywhere |
| `SystemTheorems.AimsInRange` | src/scheduler.cpp:101-111 | however the 32-bit counters wrap and whatever others do between the atomic operations of a round or of `onBeginSpinning`, what has been read names an existing slot or worker |
| `SystemTheorems.SameThreadStays` | src/worker.cpp:216-221 | a SameThread task never leaves the worker it was submitted on |
| `SystemTheorems.SleepersAreOwed` | src/worker.cpp:249-303 | in every run no worker sleeps with a task or a ready fiber queued, with shutdown set and nothing blocked, or, in the first wait, with shutdown set or a deadline to wait for, unless a notification is on its way; `num` is tasks plus ready fibers |
| `SystemTheorems.ShutdownComesLast` | src/worker.cpp:74-83 | when a worker has shut down, everything queued on it up to its stop task has been started or stolen |
| `SystemWaits.DeadlineKept` | src/worker.cpp:127-135 | in every run a fiber suspended with a deadline keeps exactly that deadline as long as it goes on waiting, whatever steps, thefts, submissions and notifications come between |
| `SystemWaits.QueuedWhenDue` | src/worker.cpp:305-311 | in every run a fiber still waiting since a suspend with deadline t is queued by `enqueueFiberTimeouts` at `now` exactly if t is at most `now`, and otherwise waits on with deadline t |
| `SystemWaits.SleepEnds` | src/worker.cpp:363-372 | the sleep of `waitForWork` ends exactly with something queued, at the time to stop, or when the first deadline of a waiting fiber has passed |
| `SystemWaits.IdleOrder` | src/worker.cpp:313-338 | `runUntilIdle` runs all ready fibers before it starts a task, and ends only with neither |
| `SystemHints.SpinBegins` | src/worker.cpp:249-262 | a worker begins to spin exactly in `waitForWork` with nothing queued, if it has a thread of its own |
| `SystemHints.BeginsPosts` | src/scheduler.cpp:138-141 | only a worker that begins to spin takes the number of a slot to write; a round that ends forgets where it aimed, and nothing else touches counters, slots or aims |
| `SystemHints.HintTaken` | src/scheduler.cpp:102-109 | a submitter aims at the worker it finds in its slot, or is to take its turn; the slot is empty then and every other slot as before |
| `SystemHints.LastSpinnerFirst` | src/scheduler.cpp:101-141 | with nobody in between, the worker that began to spin last is the one that the next round aims at, also when the 32-bit counter wraps |
| `SystemHints.HintWasPosted` | src/scheduler.cpp:101-141 | in every run, whoever is found in a slot that was empty earlier has written it since |
| `SystemHints.HintUsedOnce` | src/scheduler.cpp:102-109 | in every run, between two rounds that take a hint from one slot, the worker that the later one finds has written that slot |
| `SystemHints.CountersAre` | src/scheduler.cpp:101-141 | in every run the two counters are how often workers began to spin less how often slots were looked at, from the initial value on, and how often turns were taken, modulo 2^32 |
| `SystemHints.SlotsAre` | src/scheduler.cpp:101-141 | so the slots that are written and looked at follow from these numbers |
| `SystemHints.WorkersTakeTurns` | src/scheduler.cpp:106-109 | in every run the n-th submitter without a hint aims at worker n modulo 2^32 modulo the number of workers |
| `SystemEnds.DestroyedIsQuiet` | src/scheduler.cpp:31-45 | when the destructor has returned every worker has left, and a task is unfinished exactly if it is in the queue of one |
| `SystemEnds.DestructorWaitsForAll` | src/scheduler.cpp:31-45 | every task placed before destruction began has finished when the destructor returns, through stealing, suspension and one-by-one stopping |
| `SystemEnds.LeftStealIff` | src/worker.cpp:209-226 | in every run a worker that has left takes no step, and another can steal from it exactly if the front task of its queue is there and not SameThread |
| `SystemEnds.LeftForGood` | src/worker.cpp:228-240 | a worker that has left has left for good, in every run, and its fibers are as it left them |
| `SystemEnds.PutOnly` | src/scheduler.cpp:94-120 | a task comes into a queue only by a submission, a thief keeping it, or the stop of that worker |
| `SystemEnds.PutWhenLeft` | src/scheduler.cpp:94-120 | a task in the queue of a worker that has left was put there after that, and has been there ever since |
| `SystemEnds.FinishedIff` | src/scheduler.cpp:31-45 | when the destructor has returned, an accepted task is finished exactly if it has at some moment been put in the queue of a worker that had not left yet |
| `SystemEnds.PutInTime` | src/scheduler.cpp:31-45 | a task put on a worker that had not left yet has finished when the destructor returns, whenever that was |
| `SystemLosses.LateTaskIsLost` | src/scheduler.cpp:39-44 | a reachable state in which the destructor has returned and a task submitted meanwhile is not done |
| `SchedulerObjects.SchedulerObject.OnBeginSpinning` | src/scheduler.cpp:138-141 | in place, with others acting between the two atomic operations: the number is written to the slot that the wrapping counter named before |
| `SchedulerObjects.SchedulerObject.PickWorker` | src/scheduler.cpp:102-111 | in place, with others acting between the atomic operations: one round takes the hint of its slot, which holds -1 then, every other slot being as the others left it, or else the next worker in turn; it names an existing worker |
| `SchedulerObjects.SchedulerObject.Enqueue` | src/scheduler.cpp:101-119 | the loop over any outcomes of `tryLock`, with others acting between any two operations: the task goes to the worker that the first successful round names |
| `EventLocks.StepCore` | include/hfts/event.hpp:130-144 | every step keeps that control points and locks agree, edges lead from older to newer events, and stacks are well linked |
| `EventDeadlock.WantsAbove` | src/worker.cpp:105-125 | an agent only ever wants a lock above every lock it holds |
| `EventDeadlock.NoCircle` | include/hfts/conditionvariable.hpp:61-119 | there is no circle of agents each wanting a lock the next one holds |
| `EventDeadlock.NeverStuck` | include/hfts/conditionvariable.hpp:61-119 | whenever some lock is held, the holder of some lock can take a step |
| `EventDeadlock.RunsNeverDeadlock` | include/hfts/event.hpp:130-144 | both, in every state of every run |
| `EventDeadlock.MutualExclusion` | include/hfts/conditionvariable.hpp:96-119 | no lock ever has two holders |
| `EventBooks.StepBooks` | include/hfts/conditionvariable.hpp:96-119 | the waiting list holds exactly the enlisted fibers, once each, and both counters count the waiters exactly |
| `EventWakeSteps.StepGood` | include/hfts/conditionvariable.hpp:61-119 | every step keeps locks, books, and what the holder of a mutex knows of the flag it protects |
| `EventWakeSteps.StepExact` | src/worker.cpp:105-125 | from a state that has lost no wakeup of a primitive, a step loses one exactly if it is harmful: an expired fiber wait, the last to know of an automatic signal, or an `add` that wraps to zero past a waiter nobody is about to notify |
| `EventTheorems.WaiterIsServed` | include/hfts/waitgroup.hpp:50-63 | in every run a waiter on a signalled manual event is heading for a test, being notified, or leaving; so is one on a group at zero, as long as no step has been harmful to the group |
| `EventTheorems.SomeWaiterIsServed` | include/hfts/event.hpp:130-152 | while an automatic event with waiters is signalled, somebody is notifying or some waiter is heading for the test, as long as no step has been harmful to the event |
| `EventTheorems.NobodySleepsThrough` | include/hfts/event.hpp:130-152 | outside notifications nobody sleeps on a signalled manual event, or on a group at zero to which no step has been harmful |
| `EventTheorems.SparedIsOwed` | include/hfts/conditionvariable.hpp:61-119 | in every run, as long as no step is harmful to a primitive, no wakeup of it is lost |
| `EventTheorems.WakeupsKeptIff` | include/hfts/conditionvariable.hpp:61-119 | no state of a run has lost a wakeup exactly if no step of the run is harmful to any primitive |
| `EventTheorems.DisciplineSuffices` | include/hfts/event.hpp:45-64 | no wakeup of an automatic event is lost if no fiber waits on it with a deadline, nor of a group if no `add` takes its count to 2^32 exactly |
| `EventWaits.WaitLockReturns` | include/hfts/conditionvariable.hpp:95-100 | a wait returns at once exactly if its event is signalled or its group at zero |
| `EventWaits.TestReturns` | src/worker.cpp:109-125 | a fiber that tests again leaves the wait satisfied exactly if its event is signalled or its group at zero |
| `EventWaits.RelockReturns` | src/worker.cpp:117-122 | after a suspend a fiber whose deadline has passed gives up, without testing as written and with the test as repaired; any other tests again |
| `EventWaits.DelistReturns` | include/hfts/event.hpp:146-163 | a fiber that leaves satisfied finds its event still signalled, resets it if automatic, and is no longer counted |
| `EventWaits.ThreadTestReturns` | include/hfts/conditionvariable.hpp:112-118 | a plain thread leaves exactly if its event is signalled, its group at zero, or its deadline past |
| `EventWaits.OnlyWaysOut` | include/hfts/conditionvariable.hpp:95-119 | in any step, an agent comes out of a wait only by one of these steps of its own |
| `EventWaits.WaitReturnsSatisfied` | include/hfts/conditionvariable.hpp:95-119 | in every run a wait without a deadline returns only with its event signalled, or, of a group, with a count of zero found in its last test |
| `EventWaits.CountLedger` | include/hfts/waitgroup.hpp:46-58 | over any stretch of a run the count of a group grows by the amounts of `add` and falls by one for every call of `done`, modulo 2^32 |
| `EventWaits.ZeroAfterAllCalls` | include/hfts/waitgroup.hpp:40-63 | so a group made for n calls, with nothing added, is at zero after exactly n calls of `done`, for every n below 2^32 |
| `EventWaits.ManualFlag` | include/hfts/event.hpp:130-192 | a manual event is signalled by `signal` and reset by `clear` and by nothing else; no wait or test uses it up |
| `EventWaits.OnlyMade` | include/hfts/event.hpp:226-237 | what `any` makes has the mode and sources asked for, is not signalled yet and has neither dependents nor waiters; nothing else but a construction makes a primitive |
| `EventWaits.NotifyQueues` | include/hfts/conditionvariable.hpp:61-89 | `notify_one` queues the fiber that was enlisted last and nobody else, and wakes no thread then; `notify_all` queues the fibers one after another; without a fiber left they come to the threads |
| `EventWaits.CondWakes` | include/hfts/conditionvariable.hpp:72-88 | of the threads asleep on the primitive, one is woken if there is any, or all of them; nobody else moves |
| `EventLosses.TimedWaitLosesWakeup` | src/worker.cpp:117-122 | a run in which a timed wait takes the notification of an automatic event and leaves without testing: another waiter sleeps on |
| `EventLosses.WrappedAddLosesWakeup` | include/hfts/waitgroup.hpp:46-48 | a run in which `add` wraps the count to zero and notifies nobody |
| `EventLosses.NeverLosesIff` | include/hfts/event.hpp:130-178 | of all programs, none ever loses a wakeup of a primitive of this kind exactly for manual events, and for automatic ones with the repaired timed wait |
| `EventTheorems.StepTickets` | include/hfts/event.hpp:146-152 | one step's ledger of an automatic event: raised, let through, cleared |
| `EventTheorems.SignalsAreUsedOnce` | include/hfts/event.hpp:16-21 | over any stretch of a run an automatic event lets through at most as many waits and tests as it was raised; without `clear`, each signal is used once |
| `EventGraph.StepGraph` | include/hfts/event.hpp:226-237 | every step keeps: edges are those to the sources, dependents of signalled events are signalled or about to be, every signalled event goes back to a direct signal |
| `EventGraph.SignalledIff` | include/hfts/event.hpp:225-237 | once nobody is inside `signal` or `any`, an event is signalled exactly when it or an ancestor through `any` was signalled initially or directly |
| `EventGraph.SignalsSpread` | include/hfts/event.hpp:130-144 | in every state, also amid signals, the same one way round, and closed for events whose mutex is free |
| `EventGraph.SignalNeverReenters` | include/hfts/event.hpp:130-144 | recursive `signal` goes no deeper than there are events and never enters an event whose mutex it holds |
| `EventEnds.FrameEnds` | include/hfts/event.hpp:130-144 | in an infinite run each level of the recursion comes to an end, and what the levels below hold keeps its dependents until then |
| `EventEnds.CallReturns` | include/hfts/event.hpp:130-144 | every call of `signal`, `done` or `any` returns, whatever other agents wait for, signal, clear or build meanwhile, if the caller is not left standing and the number of primitives stays bounded |
| `Compositions.NotifyKeeps` | include/hfts/conditionvariable.hpp:61-89 | a notification queues the fiber of its target on its worker; that fiber is never idle, so the worker's invariant is kept |
| `Compositions.MoveKeeps` | src/worker.cpp:105-192 | every step of events and workers together keeps both invariants; that a parked waiter is a waiting or yielded fiber, a queued one a queued fiber, and any other agent in an operation the fiber its worker executes; and that a work mutex held by a fiber is not held by the worker's own thread |
| `CompositionTheorems.SatisfiedFiberRuns` | src/worker.cpp:105-192 | in every joint run, outside notifications, each fiber waiting on a signalled manual event, or on a group at zero to which no step has been harmful, is executing or in the queue of its worker, and that worker is awake or owed a notification |
| `CompositionTheorems.SomeSatisfiedWaiterRuns` | src/worker.cpp:105-192 | the same of some waiter on a signalled automatic event, unless the waiter at hand is giving up at its deadline |
| `CompositionTheorems.JointOwed` | include/hfts/conditionvariable.hpp:61-119 | in every joint run no wakeup of a primitive is lost as long as no step is harmful to it |
| `CompositionTheorems.JointNeverStuck` | src/worker.cpp:105-356 | whenever an event mutex, a condition variable or a work mutex is held, be it by an agent or by a worker's own thread, one of the holders can move |
| `CompositionTheorems.JointRunsNeverDeadlock` | src/worker.cpp:105-356 | so in every state of every joint run |
| `ConditionObjects.ConditionObject.BeginWait` | include/hfts/conditionvariable.hpp:96-108 | in place: returns exactly when the predicate holds, resetting an automatic event, else counts the waiter |
| `ConditionObjects.ConditionObject.Enlist` | include/hfts/conditionvariable.hpp:101-106 | in place: the fiber is in front of the list, which holds it once |
| `ConditionObjects.ConditionObject.Delist` | include/hfts/conditionvariable.hpp:109-118 | in place: exactly this fiber leaves the list |
| `ConditionObjects.ConditionObject.TestOnThread` | include/hfts/conditionvariable.hpp:112-118 | in place: a plain thread leaves exactly when the predicate holds or its deadline has passed |
| `ConditionObjects.ConditionObject.BeginSignal` | include/hfts/event.hpp:130-140 | in place: no notification only if already signalled or nobody waits unaware |
| `ConditionObjects.ConditionObject.NextTarget` | include/hfts/conditionvariable.hpp:61-89 | the next fiber to notify is in the list and waits on this primitive |
| `ConditionObjects.ConditionObject.Done` | include/hfts/waitgroup.hpp:50-58 | in place: one less than before, modulo 2^32; true exactly for the call that reaches zero, which then notifies |
| `ConditionObjects.ConditionObject.Add` | include/hfts/waitgroup.hpp:46-48 | in place: the count modulo 2^32, which is zero afterwards exactly if it was and nothing is added, or the sum is 2^32 |
| `ConditionObjects.ConditionObject.Clear` | include/hfts/event.hpp:189-192 | in place: the flag is reset |
| `ConditionObjects.ConditionObject.Test` | include/hfts/event.hpp:209-218 | in place: the flag is returned, and reset if automatic |
| `EventObjects.EventTable.SignalShared` | include/hfts/event.hpp:130-144 | the recursive `signal` on one thread, for events of both modes, reset or not: lights exactly what the event reaches along events not signalled, and gives each its one notice, to one waiter or to all by mode |
| `EventObjects.EventTable.Signal` | include/hfts/event.hpp:185-187 | the same from outside, one waiter being notified exactly for every automatic event lit and all for every manual one; a direct dependent is signalled afterwards exactly if it was before or the event was not; without resets exactly everything that depends on the event is lit |
| `EventObjects.EventTable.Create` | include/hfts/event.hpp:180-183 | a new event of either mode is signalled exactly if created so |
| `EventObjects.EventTable.Any` | include/hfts/event.hpp:226-237 | the new event of either mode depends on exactly the sources; it is signalled, with one notice, exactly if one of them is |
| `EventObjects.SignalKeepsWhole` | include/hfts/event.hpp:225-237 | without resets: an event is signalled exactly if it depends on one signalled directly, and is notified once; signalling keeps that |
| `EventObjects.SpreadsWhenSettled` | include/hfts/event.hpp:130-144 | without resets, what a signal reaches along events not signalled is all that depends on the event and was not signalled |
| `Lists.Unlink` | include/hfts/containers.hpp:520-533 | takes the entry out of a doubly linked chain, whichever its position |
| `Lists.Link` | include/hfts/containers.hpp:535-544 | puts an unlinked entry in front of a chain |
| `Lists.List.Grow` | include/hfts/containers.hpp:487-518 | adds fresh raw entries in front of the spare chain, and its allocation in front of the others; nothing else changes |
| `Lists.List.EmplaceFront` | include/hfts/containers.hpp:459-475 | the element is in front, every other entry stays in place, the capacity doubles only if no spare entry was left |
| `Lists.List.Erase` | include/hfts/containers.hpp:477-485 | exactly this element goes, its entry becomes the first spare one, every other entry stays in place |
| `Lists.List.Elements` | include/hfts/containers.hpp:410-452 | iteration meets every element once, in order, and ends |
| `Lists.List.Destroy` | include/hfts/containers.hpp:431-442 | the destructor destroys every element once, and then frees every allocation the list has made once |
| `Vectors.Vector.Free` | include/hfts/containers.hpp:316-327 | destroys every element once and leaves no storage after a heap block |
| `Vectors.Vector.MoveInto` | include/hfts/containers.hpp:294-298 | constructs every element anew in the larger block |
| `Vectors.Vector.Reserve` | include/hfts/containers.hpp:284-304 | keeps the contents; every move is one construction and one destruction; moves stay within the capacity |
| `Vectors.Vector.PushBack` | include/hfts/containers.hpp:191-196 | appends; constructions, destructions and live slots balance |
| `Vectors.Vector.PopBack` | include/hfts/containers.hpp:205-210 | removes and destroys the last element |
| `Vectors.Vector.Resize` | include/hfts/containers.hpp:273-282 | cuts, or fills up with default elements |
| `Vectors.AppendAll` | include/hfts/containers.hpp:191-196 | any run of appends to a fresh vector: the moves are at most the capacity, which is at most twice the number of appends, or 8, or the buffer |
| `Vectors.AssignSoundIff` | include/hfts/containers.hpp:151-188 | `operator=` from another vector is sound exactly if all fits the inline buffer, or the target was empty and a new block is needed |
| `Vectors.AssignExamples` | include/hfts/containers.hpp:155-161 | it is always sound on a fresh target; two targets on which it is not |
| `Pools.StepInv` | example/benchmark.cpp:114-152 | every step keeps: tasks start in order and are queued, running or done; `pending` is queued plus in flight; sleepers are notified; the last thread leaves nothing |
| `Pools.WaitReturnsIff` | example/benchmark.cpp:123-126 | `waitUntilIdle` returns exactly at a moment when every enqueued task has finished |
| `Pools.NobodyMissesOut` | example/benchmark.cpp:114-152 | nobody sleeps in `waitUntilIdle` when all is done, and no queued task is without a thread awake or a notification to come |
| `Pools.DestructionDrains` | example/benchmark.cpp:103-112 | when all threads have been joined every task has finished, if there is a thread |
| `Pools.NoThreadsNoWork` | example/benchmark.cpp:96-101 | a pool without threads keeps its tasks for ever |
| `Pools.PlainThreadPool.Enqueue` | example/benchmark.cpp:114-121 | in place: one task more, queued and pending |
| `Pools.PlainThreadPool.Take` | example/benchmark.cpp:132-140 | in place: the tasks come out in the order of their enqueueing, none after it is done |
| `Pools.PlainThreadPool.Finish` | example/benchmark.cpp:144-150 | in place: notifies exactly when every task enqueued so far is done |
| `Reductions.DoWork` | example/benchmark.cpp:78-84 | the loop over the rounds of one item |
| `Reductions.WorkedAt` | example/benchmark.cpp:78-84 | the values of some seeds after no, one and two rounds |
| `Xorshifts.XorshiftOnce` | example/benchmark.cpp:71-76 | the mixing of a round maps no two 64-bit values to the same one |
| `Xorshifts.XorshiftAt` | example/benchmark.cpp:71-76 | the mixing of zero, of the lowest and of the highest bit, and of one value with bits all over |
| `Reductions.ReduceRange` | example/benchmark.cpp:86-92 | the loop is the wrapping sum over the items of the range, zero for none, and the work of seed i + 1 for item i alone |
| `Reductions.SumValues` | example/benchmark.cpp:344-350 | the loop is the wrapping sum of the values |
| `Reductions.PartitionedIff` | example/benchmark.cpp:515-533 | the chunks partition the items exactly when the rounding-up division does not overflow; otherwise there are none |
| `Reductions.SumSplits` | example/benchmark.cpp:86-92 | a range sum is the sum of the sums of its two parts |
| `Reductions.ReductionKeepsMeaning` | example/benchmark.cpp:515-541 | the wrapping sum of all partial sums is the sequential checksum |
| `Reductions.WaitEndsLastIff` | example/benchmark.cpp:524-539 | the 32-bit count is zero after the last chunk, and after none before exactly when the chunk count fits 32 bits |
| `Reductions.AllDoneIff` | example/benchmark.cpp:524-539 | all chunks are done whenever the wait can end exactly if the chunk count fits 32 bits |
| `Reductions.LeftAndMissed` | example/benchmark.cpp:540-541 | what is found and what has been missed add up to all partial sums |
| `Reductions.ChecksumIff` | example/benchmark.cpp:524-541 | the checksum is the sequential one exactly if the chunks not found, among those the wait has not waited for, add up to zero; nothing is missed if the count fits |
| `Reductions.EarlyChecksum` | example/benchmark.cpp:524-541 | 2^32 + 1 chunks of one item: the wait can end after one of them, with a wrong checksum |
| `Reductions.RunParallelReduce` | example/benchmark.cpp:509-544 | in any completion order, whenever the wait ends and whatever chunks are written late: the sum of what is found; the sequential checksum exactly if what is missed adds up to zero, so if neither the rounding nor the 32-bit count overflows |
| `Reductions.RunSequentialReduce` | example/benchmark.cpp:546-553 | the sequential checksum |
| `Memories.AlignUpIff` | include/hfts/memory.hpp:21-24 | `alignUp` gives the least multiple from the value on, exactly when its addition does not overflow |
| `Memories.InsideIff` | src/memory.cpp:121-172 | the layout, with its hidden pointer or guards, lies inside the raw block exactly when no size computation overflows, for every request |
| `Memories.RawSizeIs` | src/memory.cpp:121-172 | what is asked of the system: the least number of pages that hold the memory and two for the guards, or the memory with room to align it and for a pointer, or the memory alone |
| `Memories.PlacedIs` | src/memory.cpp:121-172 | where the memory begins: at the second page, at the next multiple of the alignment, or at the block; by hand, the block is read back from behind it, and no other byte has changed |
| `Memories.FreeRecoversBase` | src/memory.cpp:165-216 | whatever the client writes in its memory, free recovers the raw block; the memory is aligned, behind guards too if a page is a multiple of the alignment |
| `Memories.LoadStored` | src/memory.cpp:170-178 | the pointer read back is the pointer stored, if its bytes are untouched |
| `Memories.ReleaseMatches` | include/hfts/memory.hpp:142-212 | every way to release reconstructs the request of its allocation |
| `Memories.RoomIff` | include/hfts/memory.hpp:142-212 | what is asked for has the alignment and usage it should, and holds the objects exactly if number times size does not overflow |
| `Memories.RawMemory.Allocate` | src/memory.cpp:185-205 | in place: where the memory begins and what is written behind it |
| `Memories.RawMemory.Free` | src/memory.cpp:207-216 | in place: gives back what was allocated |
| `Memories.UsagesAreAll` | include/hfts/memory.hpp:258-272 | counts and bytes of the usages add up to all live allocations |
| `Memories.SlotIff` | include/hfts/memory.hpp:40-50 | every usage has an entry of its own in the statistics |
| `Memories.CountIs` | include/hfts/memory.hpp:258-272 | the count of a usage is how often it occurs among the live allocations |
| `Memories.TrackedAllocator.Allocate` | include/hfts/memory.hpp:282-290 | in place: the entry of the usage asked for has one more and that many bytes more, modulo 2^64, every other entry being as before; the statistics stay those of the live allocations, usage by usage |
| `Memories.TrackedAllocator.Free` | include/hfts/memory.hpp:292-300 | in place: the same the other way round, for an allocation handed back unchanged |
| `Memories.TrackedAllocator.Totals` | include/hfts/memory.hpp:258-272 | the totals are the number and bytes of the live allocations, modulo 2^64 |
| `Memories.TrackedAllocator.Perform` | include/hfts/memory.hpp:142-212 | in place: one call of `create`, `destroy`, a smart pointer or the STL adaptor; what is live stays what the releases will hand back |
| `Memories.TrackedAllocator.PerformAll` | include/hfts/memory.hpp:142-300 | over any run of matched calls the statistics are those of the objects not yet released |

## Left out

- SignalledIff: holds for programs of manual events that are never cleared; with automatic events or `clear` the flag also depends on who has consumed it. `EventTable.Signal` says for both modes what one signal lights.
- SatisfiedFiberRuns: is a safety statement; that a queued fiber eventually runs depends on fair scheduling and on tasks that end, which are not modelled.
- CallReturns: needs a bound on the number of primitives, because others could build new dependents in front of the signal without end.
- SwitchToReadyKeeps: follows the fibers through their saved control points; the switch of stacks and registers (src/osfiber_i.S, include/hfts/osfiberm.hpp) is not part of this model.
- RunParallelReduce: takes the order of completion as a parameter; that every scheduled chunk completes once is `DestructorWaitsForAll` and `NeverStartedTwice`.
- EnqueueFiberTimeouts: is the repaired loop; the written one is described by `WrittenLoopEndsIff` and `WrittenTimeoutsKeepIff`.
- The loops of `runUntilShutdown`, `runUntilIdle` and `spinForWorkAndLock` are control points of the worker, one method for each stretch between two of them, because other threads and fibers act in between.
- The joint system has no submissions of its own: tasks come and go by any steps that the workers allow. Placement and destruction are the subject of the `System` files.
- The slot of a worker about to spin is written before its mutex is given up; in the model it may also be written a little later, which only adds runs.
- `Worker::wait` without a mutex and predicate, which no primitive uses, is the step `SuspendTask` of module Workers without its result.
- Threads of `std::condition_variable` other than those of plain waiters, `hfts::lock` and `hfts::mutex` themselves.
- `pending` of the pool and the counters `num` and `numBlockedFibers` are unbounded integers; each counts objects in memory.
- Self-assignment of a vector, and the construction of only the first of the n objects of `make_unique_n`.
- src/thread.cpp: thread creation and affinity.
- Operating system calls, the platform branches, page protection and failing allocations.
- Configuration, task constructors, `defer`, thread-local storage, example/fractal.cpp, and the parsing, timing and printing of example/benchmark.cpp.
