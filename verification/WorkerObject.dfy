/** The worker as the object of src/worker.cpp: its fields are changed in place, under the work mutex. Each method
    is a stretch of a source function between two points at which the mutex or the fiber may change; its contract
    is the step of the transition system in module Workers, whose invariant it keeps. */
module WorkerObjects {
  import opened Wrappers
  import opened Timeouts
  import opened Workers
  import opened WorkerProofs
  import opened WaitingFiberObjects

  class WorkerObject {
    const mode: Mode
    // struct Work
    var num: int
    var numBlockedFibers: int
    var tasks: seq<Task>
    var fibers: seq<int>
    const waiting: WaitingFibers
    var notifyAdded: bool
    // the worker
    var idleFibers: set<int>
    var state: map<int, Tag>
    var currentFiber: int
    var workerFibers: int       // their number
    var shutdown: bool
    // where its thread and its fibers are, and history
    ghost var pc: Pc
    ghost var resume: map<int, Resume>
    ghost var pendingNotify: int
    ghost var ending: bool
    ghost var log: seq<Task>

    ghost function Fs(): Fibers
      reads this, waiting
    {
      Fibers(fibers, waiting.View(), idleFibers, state, resume, currentFiber, workerFibers)
    }

    ghost function View(): Worker
      reads this, waiting
    {
      Worker(mode, pc, Fs(), tasks, num, numBlockedFibers, notifyAdded, shutdown, pendingNotify, ending, log)
    }

    ghost predicate Valid()
      reads this, waiting
    {
      Inv(View())
    }

    constructor (mode_: Mode)
      ensures View() == Start(mode_) && Valid() && fresh(waiting)
      ensures mode == mode_ && num == 0 && numBlockedFibers == 0 && tasks == [] && fibers == [] && idleFibers == {}
      ensures currentFiber == 0 && state == map[0 := Running] && notifyAdded && !shutdown
      ensures pc == if mode_.MultiThreaded? then Begin else InTask(None)
    {
      mode := mode_;
      waiting := new WaitingFibers();
      num, numBlockedFibers, tasks, fibers, notifyAdded := 0, 0, [], [], true;
      idleFibers, state, currentFiber, workerFibers, shutdown := {}, map[0 := Running], 0, 0, false;
      pc, resume := (if mode_.MultiThreaded? then Begin else InTask(None)), map[];
      pendingNotify, ending, log := 0, false, [];
      new;
      StartKeeps(mode_);
    }

    // -------------------------------------------------------------------------------------------
    // Called by other threads
    // -------------------------------------------------------------------------------------------

    method Enqueue(task: Task)
      requires Valid() && Unlocked(pc)
      modifies this`tasks, this`log, this`num, this`pendingNotify
      ensures View() == PushTask(old(View()), task) && Valid()
      ensures tasks == old(tasks) + [task] && num == old(num) + 1
      ensures pendingNotify == old(pendingNotify) + if notifyAdded then 1 else 0
    {
      hide Inv;
      PushTaskKeeps(View(), task);
      var notify := notifyAdded;
      tasks, log := tasks + [task], log + [task];
      num := num + 1;
      if notify { pendingNotify := pendingNotify + 1; }
    }

    /** An idle target is queued like any other, and then the worker is no longer in order. */
    method EnqueueFiber(fiber: int)
      requires Valid() && Unlocked(pc) && fiber in state
      modifies this`fibers, this`state, this`num, this`pendingNotify, waiting
      ensures View() == PushFiber(old(View()), fiber) && (Valid() <==> old(state)[fiber] != Idle)
      ensures old(state)[fiber] == Running || old(state)[fiber] == Queued ==>
                && fibers == old(fibers) && state == old(state) && num == old(num)
                && pendingNotify == old(pendingNotify) && waiting.View() == old(waiting.View())
      ensures old(state)[fiber] != Running && old(state)[fiber] != Queued ==>
                && fibers == old(fibers) + [fiber] && state == old(state)[fiber := Queued] && num == old(num) + 1
                && pendingNotify == old(pendingNotify) + (if notifyAdded then 1 else 0)
                && waiting.fibers == if old(state)[fiber] == Waiting then old(waiting.fibers) - {fiber}
                                     else old(waiting.fibers)
    {
      WaitsInOrder(fiber);
      hide Inv, Notified, Consistent;
      PushFiberKeepsIff(View(), fiber);
      if state[fiber] == Running || state[fiber] == Queued { return; }
      QueueAndNotify(fiber);
    }

    method QueueAndNotify(fiber: int)
      requires fiber in state && (state[fiber] == Waiting ==> Consistent(waiting.View()))
      modifies this`fibers, this`state, this`num, this`pendingNotify, waiting
      ensures View() == Owe(old(View())).(fs := Notified(old(Fs()), fiber), num := old(num) + 1)
      ensures fibers == old(fibers) + [fiber] && state == old(state)[fiber := Queued] && num == old(num) + 1
      ensures pendingNotify == old(pendingNotify) + if notifyAdded then 1 else 0
      ensures waiting.fibers == if old(state)[fiber] == Waiting then old(waiting.fibers) - {fiber}
                        else old(waiting.fibers)
    {
      hide Notified, Consistent;
      var notify := notifyAdded;
      QueueFiber(fiber);
      num := num + 1;
      if notify { pendingNotify := pendingNotify + 1; }
    }

    method QueueFiber(fiber: int)
      requires fiber in state && (state[fiber] == Waiting ==> Consistent(waiting.View()))
      modifies this`fibers, this`state, waiting
      ensures Fs() == Notified(old(Fs()), fiber)
      ensures fibers == old(fibers) + [fiber] && state == old(state)[fiber := Queued]
      ensures waiting.fibers == if old(state)[fiber] == Waiting then old(waiting.fibers) - {fiber}
                        else old(waiting.fibers)
    {
      if state[fiber] == Waiting { waiting.EraseBoth(fiber); }
      fibers := fibers + [fiber];
      state := state[fiber := Queued];
    }

    lemma WaitsInOrder(fiber: int)
      requires Valid() && fiber in state
      ensures state[fiber] == Waiting ==> Consistent(waiting.View())
    {
      assert !ending ==> Partition(Fs(), RoleOf(pc));
    }

    /** Gives away the oldest task, unless that must stay on this thread or the mutex is taken. */
    method Steal(locks: bool) returns (out: Option<Task>)
      requires Valid() && (locks ==> Unlocked(pc))
      modifies this`num, this`tasks
      ensures out.Some? <==> locks && Stealable(old(View()))
      ensures out.Some? ==> out.value == old(tasks)[0] && View() == StealFront(old(View()))
      ensures out.None? ==> View() == old(View())
      ensures Valid()
      ensures out.Some? <==> locks && old(tasks) != [] && !old(tasks)[0].sameThread
      ensures out.Some? ==> tasks == old(tasks)[1..] && num == old(num) - 1
      ensures out.None? ==> tasks == old(tasks) && num == old(num)
    {
      if num <= 0 || !locks { return None; }
      if tasks == [] || tasks[0].sameThread { return None; }
      StealKeeps(View());
      num := num - 1;
      out := Some(tasks[0]);
      tasks := tasks[1..];
    }

    // -------------------------------------------------------------------------------------------
    // run() and runUntilShutdown()
    // -------------------------------------------------------------------------------------------

    // The predicate of the first wait in run() and of the one in waitForWork()
    method RunReadyNow() returns (b: bool)
      ensures b <==> RunPredicate(View())
      ensures b <==> num > 0 || waiting.fibers != map[] || shutdown
    {
      b := num > 0 || |waiting.fibers| > 0 || shutdown;
    }

    method WorkReadyNow() returns (b: bool)
      ensures b <==> WorkPredicate(View())
      ensures b <==> num > 0 || (shutdown && numBlockedFibers == 0)
    {
      b := num > 0 || (shutdown && numBlockedFibers == 0);
    }

    /** start(): the thread takes the work mutex before it calls run(). */
    method BeginRun()
      requires Valid() && pc.Begin?
      modifies this`pc
      ensures View() == old(View()).(pc := Fresh) && Valid()
      ensures pc == Fresh
    {
      hide Inv;
      BeginRunKeeps(View());
      pc := Fresh;
    }

    method EnterRun()
      requires Valid() && pc.Fresh?
      modifies this`pc, this`notifyAdded
      ensures View() == DoEnterRun(old(View())) && Valid()
      ensures pc == if mode.SingleThreaded? || num > 0 || waiting.fibers != map[] || shutdown then LoopTop
                    else RunSleep(true)
      ensures notifyAdded == if mode.SingleThreaded? then old(notifyAdded) else pc.RunSleep?
    {
      hide Inv;
      EnterRunKeeps(View());
      if mode.MultiThreaded? {
        notifyAdded := true;
        var ready := RunReadyNow();
        pc := RunSleep(true);
        if ready {
          notifyAdded := false;
          pc := LoopTop;
        }
      } else {
        pc := LoopTop;
      }
    }

    method RecheckRun()
      requires Valid() && pc == RunSleep(false)
      modifies this`pc, this`notifyAdded
      ensures View() == DoRecheckRun(old(View())) && Valid()
      ensures pc == if num > 0 || waiting.fibers != map[] || shutdown then LoopTop else RunSleep(true)
      ensures notifyAdded == if pc.RunSleep? then old(notifyAdded) else false
    {
      hide Inv;
      RecheckRunKeeps(View());
      var ready := RunReadyNow();
      pc := RunSleep(true);
      if ready {
        notifyAdded := false;
        pc := LoopTop;
      }
    }

    method TestLoop() returns (again: bool)
      requires Valid() && pc.LoopTop?
      modifies this`pc
      ensures View() == DoTestLoop(old(View())) && Valid()
      ensures again <==> pc == WaitTop(FromLoop)
      ensures !again ==> Finished(View())
      ensures again <==> !shutdown || num > 0 || numBlockedFibers > 0
    {
      TestLoopKeeps(View());
      again := !shutdown || num > 0 || numBlockedFibers > 0;
      pc := if again then WaitTop(FromLoop) else LoopExit;
      assert !again && ending ==> Leaving(View());
    }

    /** The switch at the end of run(): a no-op, or to the main fiber, which is parked in runUntilIdle(). */
    method LeaveRun()
      requires Valid() && pc.LoopExit?
      modifies this`pc, this`ending, this`currentFiber, this`resume
      ensures View() == DoLeaveRun(old(View())) && Valid() && currentFiber == 0
      ensures old(currentFiber) != 0 ==> 0 in old(resume) && old(resume)[0] == InRunUntilIdle && pc == BackInIdle
      ensures old(currentFiber) == 0 ==> pc == Done
      ensures ending
    {
      hide Inv;
      LeaveRunKeeps(View());
      if currentFiber != 0 { FinalSwitch(View()); }
      ending := true;
      if currentFiber == 0 {
        pc := Done;
      } else {
        pc := PointOf(SavedAt(Fs(), 0));
        SwitchTo(0, InRun);
      }
    }

    // switchToFiber() to another fiber
    method SwitchTo(to: int, ghost saved: Resume)
      modifies this`currentFiber, this`resume
      ensures Fs() == Switched(old(Fs()), saved, to)
      ensures currentFiber == to
    {
      resume := resume[currentFiber := saved] - {to};
      currentFiber := to;
    }

    // -------------------------------------------------------------------------------------------
    // waitForWork()
    // -------------------------------------------------------------------------------------------

    method EnterWait() returns (ready: bool)
      requires Valid() && pc.WaitTop?
      modifies this`pc
      ensures View() == DoEnterWait(old(View())) && Valid() && (ready <==> old(num) > 0)
      ensures num > 0 ==> pc == if old(pc).caller.FromLoop? then IdleLoop else Pc.Block(old(pc).caller.carry)
      ensures num <= 0 ==> pc == if mode.MultiThreaded? then Spin(old(pc).caller) else WaitCond(old(pc).caller)
    {
      hide Inv;
      EnterWaitKeeps(View());
      ready := num > 0;
      pc := if ready then AfterWait(pc.caller)
            else if mode.MultiThreaded? then Spin(pc.caller) else WaitCond(pc.caller);
    }

    method LockAfterSpin()
      requires Valid() && pc.Spin?
      modifies this`pc
      ensures View() == old(View()).(pc := WaitCond(old(pc).caller)) && Valid()
      ensures pc == WaitCond(old(pc).caller)
    {
      LockAfterSpinKeeps(View());
      pc := WaitCond(pc.caller);
    }

    method KeepStolen(stolen: Task)
      requires Valid() && pc.SpinStolen? && pc.stolen == stolen
      modifies this`tasks, this`log, this`num, this`pc
      ensures View() == DoKeepStolen(old(View())) && Valid()
      ensures tasks == old(tasks) + [stolen] && num == old(num) + 1 && pc == WaitCond(old(pc).caller)
    {
      hide Inv;
      KeepStolenKeeps(View());
      tasks, log := tasks + [stolen], log + [stolen];
      num := num + 1;
      pc := WaitCond(pc.caller);
    }

    method TestWait()
      requires Valid() && pc.WaitCond?
      modifies this`pc, this`notifyAdded
      ensures View() == DoTestWait(old(View())) && Valid()
      ensures pc.Sleep? <==> num <= 0 && !(shutdown && numBlockedFibers == 0)
      ensures pc == if pc.Sleep? then Sleep(old(pc).caller, true) else MoveDue(old(pc).caller)
      ensures notifyAdded == pc.Sleep?
    {
      hide Inv;
      TestWaitKeeps(View());
      notifyAdded := true;
      var ready := WorkReadyNow();
      if ready {
        notifyAdded := false;
        pc := MoveDue(pc.caller);
      } else {
        pc := Sleep(pc.caller, true);
      }
    }

    method RecheckWait(expired: bool)
      requires Valid() && pc.Sleep? && !pc.asleep
      modifies this`pc, this`notifyAdded
      ensures View() == DoRecheckWait(old(View()), expired) && Valid()
      ensures pc.Sleep? <==> num <= 0 && !(shutdown && numBlockedFibers == 0) && !expired
      ensures pc == if pc.Sleep? then Sleep(old(pc).caller, true) else MoveDue(old(pc).caller)
      ensures notifyAdded == if pc.Sleep? then old(notifyAdded) else false
    {
      hide Inv;
      RecheckWaitKeeps(View(), expired);
      var ready := WorkReadyNow();
      if ready || expired {
        notifyAdded := false;
        pc := MoveDue(pc.caller);
      } else {
        pc := Sleep(pc.caller, true);
      }
    }

    /** enqueueFiberTimeouts(), with both halves of the index updated and the fibers marked queued: the loop ends,
        and moves exactly the fibers due, in the order of the index. */
    method EnqueueFiberTimeouts(now: Time)
      requires Valid() && pc.MoveDue?
      modifies this`fibers, this`state, this`num, this`pc, waiting
      ensures View() == DoMoveTimeouts(old(View()), now) && Valid()
      ensures old(fibers) <= fibers && num == old(num) + |fibers| - |old(fibers)|
      ensures forall f :: f in old(waiting.fibers) ==>
                if old(waiting.fibers)[f] <= now then f in fibers[|old(fibers)|..] && f !in waiting.fibers
                else f !in fibers[|old(fibers)|..] && f in waiting.fibers && waiting.fibers[f] == old(waiting.fibers)[f]
      ensures forall f :: f in old(state) ==>
                f in state && state[f] == if f in fibers[|old(fibers)|..] then Queued else old(state)[f]
      ensures forall f :: f in fibers[|old(fibers)|..] ==> f in old(waiting.fibers)
    {
      MoveDueHolds();
      ghost var was := Fs();
      DueMeans(was, now);
      hide Inv, Consistent, DueQueued, Due;
      MoveTimeoutsKeeps(View(), now);
      QueueDue(now);
      assert Fs() == DueQueued(was, now);
      assert fibers[|was.ready|..] == Due(was.waiting.timeouts, now);
      pc := AfterWait(pc.caller);
    }

    // What queueing the due fibers means for each of them
    static lemma DueMeans(fs: Fibers, now: Time)
      requires Consistent(fs.waiting)
      ensures var u, due := DueQueued(fs, now), Due(fs.waiting.timeouts, now);
              && u.ready == fs.ready + due
              && (forall f :: f in fs.waiting.fibers ==>
                    if fs.waiting.fibers[f] <= now then f in due && f !in u.waiting.fibers
                    else f !in due && f in u.waiting.fibers && u.waiting.fibers[f] == fs.waiting.fibers[f])
              && (forall f :: f in fs.tag ==> f in u.tag && u.tag[f] == if f in due then Queued else fs.tag[f])
              && (forall f :: f in due ==> f in fs.waiting.fibers)
    {
      DueCorrect(fs.waiting, now);
      DrainedCorrect(fs.waiting, now);
      hide Consistent, Due, Drained;
    }

    static ghost function Marked(tag: map<int, Tag>, queued: seq<int>): map<int, Tag> {
      map f | f in tag :: if f in queued then Queued else tag[f]
    }

    static lemma MarkedOne(tag: map<int, Tag>, queued: seq<int>, f: int)
      requires f in tag
      ensures Marked(tag, queued)[f := Queued] == Marked(tag, queued + [f])
    {}

    // What is still to be queued, given the fiber taken last.
    static ghost function Rest(got: Option<int>, ix: Index, now: Time): seq<int> {
      match got
      case None => []
      case Some(f) => [f] + Due(ix.timeouts, now)
    }

    // One take after another; the fiber in hand is the last one taken.
    static ghost predicate Draining(all: Index, added: seq<int>, got: Option<int>, ix: Index, now: Time) {
      && Consistent(ix) && Due(all.timeouts, now) == added + Rest(got, ix, now)
      && Drained(all, now) == (if got.None? then ix else Drained(ix, now))
    }

    static lemma DrainOn(all: Index, added: seq<int>, f: int, ix: Index, now: Time)
      requires Draining(all, added, Some(f), ix, now)
      ensures f in Due(all.timeouts, now) && Consistent(ix)
      ensures Consistent(Timeouts.TakeBoth(ix, now).0) ==>
                Draining(all, added + [f], Timeouts.TakeBoth(ix, now).1, Timeouts.TakeBoth(ix, now).0, now)
    {
      hide Due, Drained, Timeouts.TakeBoth, Consistent;
      DrainStep(ix, now);
      Regroup(added, f, Due(ix.timeouts, now));
    }

    static lemma Regroup(a: seq<int>, f: int, d: seq<int>)
      ensures a + ([f] + d) == a + [f] + d && f in a + ([f] + d)
    {
      assert (a + ([f] + d))[|a|] == f;
    }

    static lemma DrainStart(ix: Index, now: Time)
      requires Consistent(ix)
      ensures Consistent(Timeouts.TakeBoth(ix, now).0) ==>
                Draining(ix, [], Timeouts.TakeBoth(ix, now).1, Timeouts.TakeBoth(ix, now).0, now)
    {
      DrainStep(ix, now);
    }

    method QueueTaken(fiber: int)
      modifies this`fibers, this`state, this`num
      ensures fibers == old(fibers) + [fiber] && state == old(state)[fiber := Queued] && num == old(num) + 1
    {
      fibers := fibers + [fiber];
      state := state[fiber := Queued];
      num := num + 1;
    }

    method QueueDue(now: Time)
      requires Consistent(waiting.View()) && forall f :: f in waiting.fibers ==> f in state
      modifies this`fibers, this`state, this`num, waiting
      ensures Fs() == DueQueued(old(Fs()), now) && num == old(num) + |Due(old(waiting.timeouts), now)|
    {
      ghost var was, added := Fs(), [];
      hide DueQueued, Timeouts.TakeBoth, Timeouts.Due, Consistent, Marked, Draining;
      DueCorrect(was.waiting, now);
      MarkedNone(was.tag);
      DrainStart(was.waiting, now);
      var fiber := waiting.TakeBoth(now);
      while fiber.Some?
        invariant Draining(was.waiting, added, fiber, waiting.View(), now)
        invariant fibers == was.ready + added && num == old(num) + |added| && state == Marked(was.tag, added)
        decreases |waiting.timeouts|, fiber.Some?
      {
        DrainOn(was.waiting, added, fiber.value, waiting.View(), now);
        MarkedOne(was.tag, added, fiber.value);
        QueueTaken(fiber.value);
        added := added + [fiber.value];
        fiber := waiting.TakeBoth(now);
      }
      DrainEnds(was, added, Fs(), now);
    }

    static lemma DrainEnds(was: Fibers, added: seq<int>, fs: Fibers, now: Time)
      requires Draining(was.waiting, added, None, fs.waiting, now)
      requires fs == was.(ready := was.ready + added, tag := Marked(was.tag, added), waiting := fs.waiting)
      ensures fs == DueQueued(was, now) && added == Due(was.waiting.timeouts, now)
    {}

    static lemma MarkedNone(tag: map<int, Tag>)
      ensures Marked(tag, []) == tag
    {}

    lemma MoveDueHolds()
      requires Valid() && pc.MoveDue?
      ensures Consistent(waiting.View()) && forall f :: f in waiting.fibers ==> f in state
    {
      assert !ending;
      assert Partition(Fs(), RoleOf(pc));
    }

    // -------------------------------------------------------------------------------------------
    // suspend()
    // -------------------------------------------------------------------------------------------

    method BeginSuspend(timeout: Option<Time>)
      requires Valid() && pc.InTask?
      modifies this`state, this`pc, waiting
      ensures View() == DoSuspendTask(old(View()), timeout) && Valid()
      ensures state == old(state)[currentFiber := if timeout.Some? then Waiting else Yielded]
      ensures timeout.Some? ==> waiting.fibers == old(waiting.fibers)[currentFiber := timeout.value]
      ensures timeout.None? ==> waiting.View() == old(waiting.View())
      ensures pc == WaitTop(FromSuspend(old(pc).carry))
    {
      CurrentNotWaiting();
      hide Inv;
      SuspendKeeps(View(), timeout);
      SetAsideCurrent(timeout);
      pc := WaitTop(FromSuspend(pc.carry));
    }

    lemma CurrentNotWaiting()
      requires Valid() && pc.InTask?
      ensures currentFiber !in waiting.fibers
    {
      assert Partition(Fs(), RoleOf(pc));
    }

    method SetAsideCurrent(timeout: Option<Time>)
      modifies this`state, waiting
      ensures Fs() == SetAside(old(Fs()), timeout)
      ensures state == old(state)[currentFiber := if timeout.Some? then Waiting else Yielded]
      ensures timeout.Some? && currentFiber !in old(waiting.fibers) ==>
                waiting.fibers == old(waiting.fibers)[currentFiber := timeout.value]
      ensures timeout.None? ==> waiting.View() == old(waiting.View())
    {
      match timeout
      case Some(t) =>
        state := state[currentFiber := Waiting];
        waiting.Add(t, currentFiber);
      case None =>
        state := state[currentFiber := Yielded];
    }

    /** The fiber blocks: a ready fiber goes on, else an idle one, else a new one is made. */
    method Block(pick: int)
      requires Valid() && pc.Block? && (fibers == [] && idleFibers != {} ==> pick in idleFibers)
      modifies this`num, this`numBlockedFibers, this`fibers, this`idleFibers, this`workerFibers, this`state,
               this`resume, this`currentFiber, this`pc
      ensures View() == DoSwitchAway(old(View()), pick) && Valid()
      ensures numBlockedFibers == old(numBlockedFibers) + 1
      ensures old(fibers) != [] ==>
                && currentFiber == old(fibers)[0] && fibers == old(fibers)[1..] && num == old(num) - 1
                && idleFibers == old(idleFibers) && workerFibers == old(workerFibers) && state == old(state)
      ensures old(fibers) == [] && old(idleFibers) != {} ==>
                && currentFiber == pick && idleFibers == old(idleFibers) - {pick} && num == old(num) && fibers == []
                && workerFibers == old(workerFibers) && state == old(state)
      ensures old(fibers) == [] && old(idleFibers) == {} ==>
                && currentFiber == workerFibers == old(workerFibers) + 1 && state == old(state)[currentFiber := Running]
                && pc == Fresh && num == old(num) && fibers == [] && idleFibers == {}
    {
      hide Inv;
      if fibers != [] { BlockForReady(pick); }
      else if idleFibers != {} { BlockForIdle(pick); }
      else { BlockForNew(pick); }
    }

    method BlockForReady(ghost pick: int)
      requires Valid() && pc.Block? && fibers != []
      modifies this`num, this`numBlockedFibers, this`fibers, this`resume, this`currentFiber, this`pc
      ensures View() == DoSwitchAway(old(View()), pick) && Valid()
      ensures numBlockedFibers == old(numBlockedFibers) + 1
      ensures currentFiber == old(fibers)[0] && fibers == old(fibers)[1..] && num == old(num) - 1
    {
      hide Inv, Switched, PointOf, DoSwitchAway;
      SwitchToReadyKeeps(View(), pick);
      ToReadyIs(View(), pick);
      numBlockedFibers := numBlockedFibers + 1;
      num := num - 1;
      var to := TakeFiber();
      SwitchFrom(to, pc.carry);
    }

    method BlockForIdle(pick: int)
      requires Valid() && pc.Block? && fibers == [] && pick in idleFibers
      modifies this`numBlockedFibers, this`idleFibers, this`resume, this`currentFiber, this`pc
      ensures View() == DoSwitchAway(old(View()), pick) && Valid()
      ensures numBlockedFibers == old(numBlockedFibers) + 1
      ensures currentFiber == pick && idleFibers == old(idleFibers) - {pick}
    {
      hide Inv, Switched, PointOf, DoSwitchAway, SavedAt;
      ghost var w := View();
      SwitchToIdleKeeps(w, pick);
      ToIdleIs(w, pick);
      numBlockedFibers := numBlockedFibers + 1;
      TakeIdle(pick);
      ghost var rest := w.fs.(idle := w.fs.idle - {pick});
      assert Fs() == rest && pc == w.pc;
      GoTo(pick, pc.carry);
      assert Fs() == Switched(rest, InSuspend(w.pc.carry), pick) && pc == PointOf(SavedAt(rest, pick));
    }

    method BlockForNew(ghost pick: int)
      requires Valid() && pc.Block? && fibers == [] && idleFibers == {}
      modifies this`numBlockedFibers, this`workerFibers, this`state, this`resume, this`currentFiber, this`pc
      ensures View() == DoSwitchAway(old(View()), pick) && Valid()
      ensures numBlockedFibers == old(numBlockedFibers) + 1
      ensures currentFiber == workerFibers == old(workerFibers) + 1 && pc == Fresh
      ensures state == old(state)[currentFiber := Running]
    {
      hide Inv;
      SwitchToNewKeeps(View(), pick);
      numBlockedFibers := numBlockedFibers + 1;
      SwitchToNew(pc.carry);
      pc := Fresh;
    }

    static lemma ToReadyIs(w: Worker, pick: int)
      requires w.pc.Block? && w.fs.ready != []
      ensures var rest, to := w.fs.(ready := w.fs.ready[1..]), w.fs.ready[0];
              DoSwitchAway(w, pick)
              == w.(blocked := w.blocked + 1, num := w.num - 1,
                    fs := if to == w.fs.current then rest else Switched(rest, InSuspend(w.pc.carry), to),
                    pc := if to == w.fs.current then BackInSuspend(w.pc.carry) else PointOf(SavedAt(rest, to)))
    {}

    static lemma ToIdleIs(w: Worker, pick: int)
      requires w.pc.Block? && w.fs.ready == [] && pick in w.fs.idle
      ensures var rest := w.fs.(idle := w.fs.idle - {pick});
              DoSwitchAway(w, pick)
              == w.(blocked := w.blocked + 1, fs := Switched(rest, InSuspend(w.pc.carry), pick),
                    pc := PointOf(SavedAt(rest, pick)))
    {}

    // switchToFiber() in suspend(): a fiber that picks itself goes straight on.
    method SwitchFrom(to: int, ghost carry: Option<Task>)
      modifies this`currentFiber, this`resume, this`pc
      ensures if to == old(currentFiber) then Fs() == old(Fs()) && pc == BackInSuspend(carry)
              else Fs() == Switched(old(Fs()), InSuspend(carry), to) && pc == PointOf(SavedAt(old(Fs()), to))
      ensures currentFiber == to
    {
      if to == currentFiber {
        pc := BackInSuspend(carry);
      } else {
        GoTo(to, carry);
      }
    }

    method GoTo(to: int, ghost carry: Option<Task>)
      modifies this`currentFiber, this`resume, this`pc
      ensures Fs() == Switched(old(Fs()), InSuspend(carry), to) && pc == PointOf(SavedAt(old(Fs()), to))
      ensures currentFiber == to
    {
      pc := PointOf(SavedAt(Fs(), to));
      SwitchTo(to, InSuspend(carry));
    }

    // containers::take(idleFibers)
    method TakeIdle(pick: int)
      modifies this`idleFibers
      ensures Fs() == old(Fs()).(idle := old(idleFibers) - {pick})
      ensures idleFibers == old(idleFibers) - {pick}
    {
      idleFibers := idleFibers - {pick};
    }

    // containers::take(work.fibers)
    method TakeFiber() returns (to: int)
      requires fibers != []
      modifies this`fibers
      ensures to == old(fibers)[0] && Fs() == old(Fs()).(ready := old(fibers)[1..])
      ensures fibers == old(fibers)[1..]
    {
      to := fibers[0];
      fibers := fibers[1..];
    }

    // switchToFiber(createWorkerFiber())
    method SwitchToNew(ghost carry: Option<Task>)
      modifies this`workerFibers, this`state, this`resume, this`currentFiber
      ensures Fs() == Created(old(Fs()), carry)
      ensures currentFiber == workerFibers == old(workerFibers) + 1 && state == old(state)[currentFiber := Running]
    {
      workerFibers := workerFibers + 1;
      state := state[workerFibers := Running];
      resume := resume[currentFiber := InSuspend(carry)];
      currentFiber := workerFibers;
    }

    method EndSuspend()
      requires Valid() && pc.BackInSuspend?
      modifies this`numBlockedFibers, this`state, this`pc
      ensures View() == DoReturnFromSuspend(old(View())) && Valid()
      ensures numBlockedFibers == old(numBlockedFibers) - 1 && state == old(state)[currentFiber := Running]
      ensures pc == InTask(old(pc).carry)
    {
      hide Inv;
      ReturnFromSuspendKeeps(View());
      numBlockedFibers := numBlockedFibers - 1;
      state := state[currentFiber := Running];
      pc := InTask(pc.carry);
    }

    // -------------------------------------------------------------------------------------------
    // runUntilIdle()
    // -------------------------------------------------------------------------------------------

    method RunReady()
      requires Valid() && pc.IdleLoop? && fibers != []
      modifies this`num, this`pc, this`fibers, this`state, this`idleFibers, this`resume, this`currentFiber
      ensures View() == DoRunReady(old(View())) && Valid()
      ensures currentFiber == old(fibers)[0] && fibers == old(fibers)[1..] && num == old(num) - 1
      ensures state == old(state)[old(currentFiber) := Idle] && idleFibers == old(idleFibers) + {old(currentFiber)}
    {
      hide Inv;
      RunReadyKeeps(View());
      num := num - 1;
      pc := PointOf(SavedAt(Fs(), fibers[0]));
      IdleAndSwitch();
    }

    method IdleAndSwitch()
      requires fibers != []
      modifies this`fibers, this`state, this`idleFibers, this`resume, this`currentFiber
      ensures Fs() == Idled(old(Fs()))
      ensures currentFiber == old(fibers)[0] && fibers == old(fibers)[1..]
      ensures state == old(state)[old(currentFiber) := Idle] && idleFibers == old(idleFibers) + {old(currentFiber)}
    {
      var fiber := TakeFiber();
      state := state[currentFiber := Idle];
      idleFibers := idleFibers + {currentFiber};
      SwitchTo(fiber, InRunUntilIdle);
    }

    method BackFromReady()
      requires Valid() && pc.BackInIdle?
      modifies this`state, this`pc
      ensures View() == old(View()).(fs := Resumed(old(View()).fs), pc := IdleLoop) && Valid()
      ensures state == old(state)[currentFiber := Running] && pc == IdleLoop
    {
      hide Inv;
      ReturnFromIdleKeeps(View());
      state := state[currentFiber := Running];
      pc := IdleLoop;
    }

    method RunTask() returns (task: Task)
      requires Valid() && pc.IdleLoop? && fibers == [] && tasks != []
      modifies this`num, this`tasks, this`pc
      ensures View() == DoRunTask(old(View())) && Valid() && task == old(tasks)[0]
      ensures num == old(num) - 1 && tasks == old(tasks)[1..] && pc == InTask(Some(task))
    {
      hide Inv;
      RunTaskKeeps(View());
      num := num - 1;
      task := tasks[0];
      tasks := tasks[1..];
      pc := InTask(Some(task));
    }

    method FinishTask(task: Task)
      requires Valid() && pc == InTask(Some(task))
      modifies this`shutdown, this`pc
      ensures View() == DoFinishTask(old(View())) && Valid()
      ensures shutdown <==> old(shutdown) || task.action == SetShutdown
      ensures pc == IdleLoop
    {
      hide Inv;
      FinishTaskKeeps(View());
      if task.action == SetShutdown { shutdown := true; }
      pc := IdleLoop;
    }

    method EndIdle()
      requires Valid() && pc.IdleLoop? && fibers == [] && tasks == []
      modifies this`pc
      ensures View() == old(View()).(pc := LoopTop) && Valid()
      ensures pc == LoopTop
    {
      ToLoopKeeps(View(), false);
      pc := LoopTop;
    }

    /** stop() of a bound thread's worker */
    method BeginStop()
      requires Valid() && mode.SingleThreaded? && pc == InTask(None) && currentFiber == 0
      modifies this`shutdown, this`pc
      ensures View() == old(View()).(shutdown := true, pc := LoopTop) && Valid()
      ensures shutdown && pc == LoopTop
    {
      ToLoopKeeps(View(), true);
      shutdown := true;
      pc := LoopTop;
    }
  }
}
