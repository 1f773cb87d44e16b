/** One worker as a transition system: `Worker` of include/hfts/worker.hpp and src/worker.cpp.
    A step is the stretch of code between two points at which the work mutex is taken or released or a
    fiber switch happens. Every fiber that is not current keeps the point where it will go on. */
module Workers {
  import opened Wrappers
  import opened Timeouts

  datatype Mode = MultiThreaded | SingleThreaded

  // A task of `stop()` sets `shutdown`; every other task is work of the program.
  datatype Action = Work | SetShutdown

  datatype Task = Task(id: nat, sameThread: bool, action: Action)

  datatype Tag = Idle | Waiting | Yielded | Queued | Running

  // Where a fiber that is not current goes on. Inside `suspend` it carries the task it is executing,
  // or None for the code of a thread bound to the scheduler.
  datatype Resume = InSuspend(carry: Option<Task>) | InRunUntilIdle | InRun

  // Who called `waitForWork`.
  datatype Caller = FromLoop | FromSuspend(carry: Option<Task>)

  datatype Pc =
    | Begin                                     // the thread has not taken the mutex yet
    | Fresh                                     // entry of run()
    | RunSleep(asleep: bool)                    // in the first wait of run()
    | LoopTop                                   // condition of runUntilShutdown()
    | WaitTop(caller: Caller)                   // entry of waitForWork()
    | Spin(caller: Caller)                      // spinForWorkAndLock(), mutex free
    | SpinStolen(caller: Caller, stolen: Task)  // the same, holding a stolen task
    | WaitCond(caller: Caller)                  // before work.wait() in waitForWork()
    | Sleep(caller: Caller, asleep: bool)       // in work.wait(), mutex free
    | MoveDue(caller: Caller)                   // after work.wait()
    | Block(carry: Option<Task>)                // suspend() after waitForWork()
    | BackInSuspend(carry: Option<Task>)        // suspend() after the switch
    | IdleLoop                                  // loop of runUntilIdle()
    | BackInIdle                                // runUntilIdle() after the switch
    | InTask(carry: Option<Task>)               // executing a task or bound code, mutex free
    | LoopExit                                  // end of runUntilShutdown()
    | Done                                      // the thread has left the worker

  // Where the fibers of a worker are. Fibers are 0 (the main fiber) to `created`.
  datatype Fibers = Fibers(
    ready: seq<int>,          // work.fibers
    waiting: Index,           // work.waiting
    idle: set<int>,           // idleFibers
    tag: map<int, Tag>,
    resume: map<int, Resume>,
    current: int,
    created: int)             // size of workerFibers

  datatype Worker = Worker(
    mode: Mode,
    pc: Pc,
    fs: Fibers,
    tasks: seq<Task>,
    num: int,
    blocked: int,
    notifyAdded: bool,
    shutdown: bool,
    pendingNotify: int,       // calls of added.notify_one() still owed
    ending: bool,             // history: the switch at the end of run() has happened
    log: seq<Task>)           // history: every task ever put in `tasks`

  predicate Unlocked(pc: Pc) {
    pc.Begin? || pc.RunSleep? || pc.Spin? || pc.SpinStolen? || pc.Sleep? || pc.InTask? || pc.Done?
  }

  function Start(mode: Mode): Worker {
    Worker(mode, if mode.MultiThreaded? then Begin else InTask(None),
           Fibers([], EMPTY, {}, map[0 := Running], map[], 0, 0), [], 0, 0, true, false, 0, false, [])
  }

  // ---------------------------------------------------------------------------------------------
  // Steps of the worker's own thread
  // ---------------------------------------------------------------------------------------------

  datatype Step =
    | BeginRun
    | EnterRun
    | Spurious
    | RecheckRun
    | TestLoop
    | EnterWait
    | LockAfterSpin
    | KeepStolen
    | TestWait
    | RecheckWait(expired: bool)
    | MoveTimeouts(now: Time)
    | SwitchAway(pick: int)
    | ReturnFromSuspend
    | RunReady
    | RunTask
    | EndIdle
    | ReturnFromIdle
    | FinishTask
    | SuspendTask(deadline: Option<Time>)
    | BeginStop
    | LeaveRun

  predicate WorkPredicate(w: Worker) {
    w.num > 0 || (w.shutdown && w.blocked == 0)
  }

  predicate RunPredicate(w: Worker) {
    w.num > 0 || |w.fs.waiting.fibers| > 0 || w.shutdown
  }

  function AfterWait(c: Caller): Pc {
    match c
    case FromLoop => IdleLoop
    case FromSuspend(k) => Block(k)
  }

  function SavedAt(fs: Fibers, f: int): Resume {
    if f in fs.resume then fs.resume[f] else InRun
  }

  function PointOf(r: Resume): Pc {
    match r
    case InSuspend(k) => BackInSuspend(k)
    case InRunUntilIdle => BackInIdle
    case InRun => LoopExit
  }

  // switchToFiber() to another fiber; the mutex stays held.
  function Switched(fs: Fibers, saved: Resume, to: int): Fibers {
    fs.(resume := fs.resume[fs.current := saved] - {to}, current := to)
  }

  function DoEnterRun(w: Worker): Worker {
    if w.mode.SingleThreaded? then w.(pc := LoopTop)
    else if RunPredicate(w) then w.(pc := LoopTop, notifyAdded := false)
    else w.(pc := RunSleep(true), notifyAdded := true)
  }

  function DoSpurious(w: Worker): Worker {
    match w.pc
    case RunSleep(_) => w.(pc := RunSleep(false))
    case Sleep(c, _) => w.(pc := Sleep(c, false))
    case _ => w
  }

  function DoRecheckRun(w: Worker): Worker {
    if RunPredicate(w) then w.(pc := LoopTop, notifyAdded := false) else w.(pc := RunSleep(true))
  }

  function DoTestLoop(w: Worker): Worker {
    if !w.shutdown || w.num > 0 || w.blocked > 0 then w.(pc := WaitTop(FromLoop)) else w.(pc := LoopExit)
  }

  function DoEnterWait(w: Worker): Worker
    requires w.pc.WaitTop?
  {
    if w.num > 0 then w.(pc := AfterWait(w.pc.caller))
    else if w.mode.MultiThreaded? then w.(pc := Spin(w.pc.caller))
    else w.(pc := WaitCond(w.pc.caller))
  }

  function DoKeepStolen(w: Worker): Worker
    requires w.pc.SpinStolen?
  {
    w.(tasks := w.tasks + [w.pc.stolen], num := w.num + 1, log := w.log + [w.pc.stolen], pc := WaitCond(w.pc.caller))
  }

  function DoTestWait(w: Worker): Worker
    requires w.pc.WaitCond?
  {
    if WorkPredicate(w) then w.(pc := MoveDue(w.pc.caller), notifyAdded := false)
    else w.(pc := Sleep(w.pc.caller, true), notifyAdded := true)
  }

  function DoRecheckWait(w: Worker, expired: bool): Worker
    requires w.pc.Sleep?
  {
    if WorkPredicate(w) || expired then w.(pc := MoveDue(w.pc.caller), notifyAdded := false)
    else w.(pc := Sleep(w.pc.caller, true))
  }

  // enqueueFiberTimeouts() with both halves of the index updated and the state set to Queued, as the
  // comment at src/worker.cpp:183-184 says.
  function DueQueued(fs: Fibers, now: Time): Fibers {
    var due := Due(fs.waiting.timeouts, now);
    fs.(ready := fs.ready + due,
    waiting := Drained(fs.waiting, now),
    tag := map f | f in fs.tag :: if f in due then Queued else fs.tag[f])
  }

  function DoMoveTimeouts(w: Worker, now: Time): Worker
    requires w.pc.MoveDue?
  {
    w.(fs := DueQueued(w.fs, now),
    num := w.num + |Due(w.fs.waiting.timeouts, now)|,
    pc := AfterWait(w.pc.caller))
  }

  // A new fiber enters run().
  function Created(fs: Fibers, carry: Option<Task>): Fibers {
    fs.(created := fs.created + 1,
    tag := fs.tag[fs.created + 1 := Running],
    resume := fs.resume[fs.current := InSuspend(carry)],
    current := fs.created + 1)
  }

  // The choice in suspend(): a ready fiber, else an idle one, else a new one.
  function DoSwitchAway(w: Worker, pick: int): Worker
    requires w.pc.Block?
  {
    var fs, k := w.fs, w.pc.carry;
    if fs.ready != [] then
      var rest, to := fs.(ready := fs.ready[1..]), fs.ready[0];
      if to == fs.current then w.(blocked := w.blocked + 1, num := w.num - 1, fs := rest, pc := BackInSuspend(k))
      else w.(blocked := w.blocked + 1, num := w.num - 1, fs := Switched(rest, InSuspend(k), to),
              pc := PointOf(SavedAt(fs, to)))
    else if fs.idle != {} then
      w.(blocked := w.blocked + 1, fs := Switched(fs.(idle := fs.idle - {pick}), InSuspend(k), pick),
         pc := PointOf(SavedAt(fs, pick)))
    else w.(blocked := w.blocked + 1, fs := Created(fs, k), pc := Fresh)
  }

  function Resumed(fs: Fibers): Fibers {
    fs.(tag := fs.tag[fs.current := Running])
  }

  function DoReturnFromSuspend(w: Worker): Worker
    requires w.pc.BackInSuspend?
  {
    w.(blocked := w.blocked - 1, fs := Resumed(w.fs), pc := InTask(w.pc.carry))
  }

  // runUntilIdle() parks the current fiber among the idle ones and runs a ready one.
  function Idled(fs: Fibers): Fibers
    requires fs.ready != []
  {
    Switched(fs.(ready := fs.ready[1..], tag := fs.tag[fs.current := Idle], idle := fs.idle + {fs.current}),
             InRunUntilIdle, fs.ready[0])
  }

  function DoRunReady(w: Worker): Worker
    requires w.fs.ready != []
  {
    w.(num := w.num - 1, fs := Idled(w.fs), pc := PointOf(SavedAt(w.fs, w.fs.ready[0])))
  }

  function DoRunTask(w: Worker): Worker
    requires w.tasks != []
  {
    w.(num := w.num - 1, tasks := w.tasks[1..], pc := InTask(Some(w.tasks[0])))
  }

  function DoFinishTask(w: Worker): Worker
    requires w.pc.InTask? && w.pc.carry.Some?
  {
    w.(shutdown := w.shutdown || w.pc.carry.value.action == SetShutdown, pc := IdleLoop)
  }

  // The state change and the registration of the deadline in suspend().
  function SetAside(fs: Fibers, deadline: Option<Time>): Fibers {
    if deadline.Some? then fs.(tag := fs.tag[fs.current := Waiting],
                               waiting := Add(fs.waiting, deadline.value, fs.current))
    else fs.(tag := fs.tag[fs.current := Yielded])
  }

  function DoSuspendTask(w: Worker, deadline: Option<Time>): Worker
    requires w.pc.InTask?
  {
    w.(fs := SetAside(w.fs, deadline), pc := WaitTop(FromSuspend(w.pc.carry)))
  }

  function DoLeaveRun(w: Worker): Worker {
    if w.fs.current == 0 then w.(pc := Done, ending := true)
    else w.(ending := true, fs := Switched(w.fs, InRun, 0), pc := PointOf(SavedAt(w.fs, 0)))
  }

  predicate Enabled(w: Worker, st: Step) {
    match st
    case BeginRun => w.pc.Begin?
    case EnterRun => w.pc.Fresh?
    case Spurious => w.pc.RunSleep? || w.pc.Sleep?
    case RecheckRun => w.pc == RunSleep(false)
    case TestLoop => w.pc.LoopTop?
    case EnterWait => w.pc.WaitTop?
    case LockAfterSpin => w.pc.Spin?
    case KeepStolen => w.pc.SpinStolen?
    case TestWait => w.pc.WaitCond?
    case RecheckWait(expired) => w.pc.Sleep? && !w.pc.asleep && (expired ==> |w.fs.waiting.fibers| > 0)
    case MoveTimeouts(_) => w.pc.MoveDue?
    case SwitchAway(pick) => w.pc.Block? && (w.fs.ready == [] && w.fs.idle != {} ==> pick in w.fs.idle)
    case ReturnFromSuspend => w.pc.BackInSuspend?
    case RunReady => w.pc.IdleLoop? && w.fs.ready != []
    case RunTask => w.pc.IdleLoop? && w.fs.ready == [] && w.tasks != []
    case EndIdle => w.pc.IdleLoop? && w.fs.ready == [] && w.tasks == []
    case ReturnFromIdle => w.pc.BackInIdle?
    case FinishTask => w.pc.InTask? && w.pc.carry.Some?
    case SuspendTask(_) => w.pc.InTask? && (w.pc.carry.Some? ==> w.pc.carry.value.action == Work)
    case BeginStop => w.mode.SingleThreaded? && w.pc == InTask(None) && w.fs.current == 0
    case LeaveRun => w.pc.LoopExit?
  }

  function Apply(w: Worker, st: Step): Worker
    requires Enabled(w, st)
  {
    match st
    case BeginRun => w.(pc := Fresh)
    case EnterRun => DoEnterRun(w)
    case Spurious => DoSpurious(w)
    case RecheckRun => DoRecheckRun(w)
    case TestLoop => DoTestLoop(w)
    case EnterWait => DoEnterWait(w)
    case LockAfterSpin => w.(pc := WaitCond(w.pc.caller))
    case KeepStolen => DoKeepStolen(w)
    case TestWait => DoTestWait(w)
    case RecheckWait(expired) => DoRecheckWait(w, expired)
    case MoveTimeouts(now) => DoMoveTimeouts(w, now)
    case SwitchAway(pick) => DoSwitchAway(w, pick)
    case ReturnFromSuspend => DoReturnFromSuspend(w)
    case RunReady => DoRunReady(w)
    case RunTask => DoRunTask(w)
    case EndIdle => w.(pc := LoopTop)
    case ReturnFromIdle => w.(fs := Resumed(w.fs), pc := IdleLoop)
    case FinishTask => DoFinishTask(w)
    case SuspendTask(deadline) => DoSuspendTask(w, deadline)
    case BeginStop => w.(shutdown := true, pc := LoopTop)
    case LeaveRun => DoLeaveRun(w)
  }

  // ---------------------------------------------------------------------------------------------
  // Steps of other threads; all but the last need the mutex
  // ---------------------------------------------------------------------------------------------

  function Owe(w: Worker): Worker {
    if w.notifyAdded then w.(pendingNotify := w.pendingNotify + 1) else w
  }

  // enqueueAndUnlock(Task&&)
  function PushTask(w: Worker, t: Task): Worker {
    Owe(w).(tasks := w.tasks + [t], num := w.num + 1, log := w.log + [t])
  }

  // enqueue(Fiber*)
  function Notified(fs: Fibers, f: int): Fibers
    requires f in fs.tag
  {
    fs.(ready := fs.ready + [f], tag := fs.tag[f := Queued],
    waiting := if fs.tag[f] == Waiting then EraseBoth(fs.waiting, f) else fs.waiting)
  }

  function PushFiber(w: Worker, f: int): Worker
    requires f in w.fs.tag
  {
    if w.fs.tag[f] == Running || w.fs.tag[f] == Queued then w
    else Owe(w).(fs := Notified(w.fs, f), num := w.num + 1)
  }

  predicate Stealable(w: Worker) {
    w.num > 0 && Unlocked(w.pc) && w.tasks != [] && !w.tasks[0].sameThread
  }

  // steal() when it succeeds
  function StealFront(w: Worker): Worker
    requires Stealable(w)
  {
    w.(num := w.num - 1, tasks := w.tasks[1..])
  }

  function Grant(w: Worker, t: Task): Worker
    requires w.pc.Spin?
  {
    w.(pc := SpinStolen(w.pc.caller, t))
  }

  // One owed added.notify_one()
  function Deliver(w: Worker): Worker
    requires w.pendingNotify > 0
  {
    DoSpurious(w.(pendingNotify := w.pendingNotify - 1))
  }

  // ---------------------------------------------------------------------------------------------
  // Invariant
  // ---------------------------------------------------------------------------------------------

  // What the control point says about the current fiber.
  datatype Role = Executing | InWait | FromQueue | FromIdle

  function RoleOf(pc: Pc): Role {
    match pc
    case BackInSuspend(_) => FromQueue
    case BackInIdle => FromIdle
    case Block(_) => InWait
    case WaitTop(c) => CallerRole(c)
    case Spin(c) => CallerRole(c)
    case SpinStolen(c, _) => CallerRole(c)
    case WaitCond(c) => CallerRole(c)
    case Sleep(c, _) => CallerRole(c)
    case MoveDue(c) => CallerRole(c)
    case _ => Executing
  }

  function CallerRole(c: Caller): Role {
    if c.FromSuspend? then InWait else Executing
  }

  predicate Parked(t: Tag) {
    t == Waiting || t == Yielded || t == Queued
  }

  /** Every fiber is in exactly one place, and its tag and resume point say which. The current fiber may
      already be queued while it is still inside suspend(). */
  ghost predicate Partition(p: Fibers, role: Role) {
    && 0 <= p.current <= p.created
    && (forall f :: f in p.tag <==> 0 <= f <= p.created)
    && (forall f :: f in p.resume <==> 0 <= f <= p.created && f != p.current)
    && Consistent(p.waiting)
    && (forall i, j :: 0 <= i < j < |p.ready| ==> p.ready[i] != p.ready[j])
    && (forall f :: f in p.resume ==>
          && p.resume[f] != InRun
          && (p.resume[f] == InRunUntilIdle <==> p.tag[f] == Idle)
          && (p.resume[f].InSuspend? <==> Parked(p.tag[f])))
    && (forall f :: f in p.idle <==> f in p.resume && p.resume[f] == InRunUntilIdle)
    && (forall f :: f in p.ready <==> f in p.tag && p.tag[f] == Queued && !(f == p.current && role == FromQueue))
    && (forall f :: f in p.waiting.fibers <==> f in p.tag && p.tag[f] == Waiting)
    && (match role
        case FromQueue => p.tag[p.current] == Queued
        case FromIdle => p.tag[p.current] == Idle
        case InWait => Parked(p.tag[p.current])
        case Executing => p.tag[p.current] == Running)
  }

  // The fibers that will go on inside suspend().
  ghost function Suspended(resume: map<int, Resume>): set<int> {
    set f | f in resume && resume[f].InSuspend?
  }

  ghost predicate Counters(w: Worker) {
    && w.num == |w.tasks| + |w.fs.ready|
    && w.blocked == |Suspended(w.fs.resume)| + (if w.pc.BackInSuspend? then 1 else 0)
  }

  ghost predicate Asleep(w: Worker) {
    (w.pc.RunSleep? && w.pc.asleep) || (w.pc.Sleep? && w.pc.asleep)
  }

  // A worker that sleeps although its predicate holds is owed a notification.
  ghost predicate Wakeful(w: Worker) {
    && 0 <= w.pendingNotify
    && (w.pc.RunSleep? || w.pc.Sleep? ==> w.notifyAdded)
    && (w.pc.RunSleep? && w.pc.asleep && RunPredicate(w) ==> w.pendingNotify > 0)
    && (w.pc.Sleep? && w.pc.asleep && WorkPredicate(w) ==> w.pendingNotify > 0)
    && (w.pc.RunSleep? || w.pc.Spin? || w.pc.SpinStolen? ==> w.mode.MultiThreaded?)
  }

  // Nothing is left to do.
  ghost predicate Finished(w: Worker) {
    && w.shutdown && w.num == 0 && w.blocked == 0
    && w.tasks == [] && w.fs.ready == [] && Suspended(w.fs.resume) == {}
  }

  // Nothing is left to do but what others put in the queue after the thread has left; nobody will do it here.
  ghost predicate Departed(w: Worker) {
    w.shutdown && w.num == |w.tasks| && w.blocked == 0 && w.fs.ready == [] && Suspended(w.fs.resume) == {}
  }

  // The main fiber goes back through runUntilIdle() to the end of run().
  ghost predicate Leaving(w: Worker) {
    && w.fs.current == 0
    && (forall f :: f in w.fs.tag ==> w.fs.tag[f] == Idle || w.fs.tag[f] == Running)
    && (w.pc.BackInIdle? ==> 0 in w.fs.tag && w.fs.tag[0] == Idle)
    && (w.pc.BackInIdle? || w.pc.IdleLoop? || w.pc.LoopTop? || w.pc.LoopExit? || w.pc.Done?)
    && (if w.pc.Done? then Departed(w) else Finished(w))
  }

  ghost predicate Inv(w: Worker) {
    && (w.pc.Done? ==> w.ending)
    && (if w.ending then Leaving(w)
        else Partition(w.fs, RoleOf(w.pc)) && Counters(w) && Wakeful(w) && (w.pc.LoopExit? ==> Finished(w)))
  }
}
