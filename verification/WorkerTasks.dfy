/** How the steps of a worker move tasks: which fiber carries which task, and in which order a worker's queue
    is emptied. */
module WorkerTasks {
  import opened Wrappers
  import opened Timeouts
  import opened Workers
  import opened WorkerProofs

  // The task at the current control point.
  function TaskAt(pc: Pc): Option<Task> {
    match pc
    case InTask(k) => k
    case Block(k) => k
    case BackInSuspend(k) => k
    case WaitTop(c) => TaskOf(c)
    case Spin(c) => TaskOf(c)
    case SpinStolen(c, _) => TaskOf(c)
    case WaitCond(c) => TaskOf(c)
    case Sleep(c, _) => TaskOf(c)
    case MoveDue(c) => TaskOf(c)
    case _ => None
  }

  function TaskOf(c: Caller): Option<Task> {
    if c.FromSuspend? then c.carry else None
  }

  // The task that fiber f has started and not finished.
  function Carried(w: Worker, f: int): Option<Task> {
    if f == w.fs.current then TaskAt(w.pc)
    else if f in w.fs.resume && w.fs.resume[f].InSuspend? then w.fs.resume[f].carry
    else None
  }

  // The task a spinning worker has stolen and not yet queued.
  function InHand(w: Worker): Option<Task> {
    if w.pc.SpinStolen? then Some(w.pc.stolen) else None
  }

  ghost predicate SameTasks(w: Worker, v: Worker) {
    && v.tasks == w.tasks && v.log == w.log && InHand(v) == InHand(w)
    && forall f :: Carried(v, f) == Carried(w, f)
  }

  /** The current fiber starts the front task, and nothing else changes. */
  lemma RunTaskStarts(w: Worker)
    requires Inv(w) && w.pc.IdleLoop? && w.tasks != []
    ensures var v := DoRunTask(w);
            && v.tasks == w.tasks[1..] && v.log == w.log && InHand(v) == InHand(w)
            && v.fs.current == w.fs.current
            && Carried(w, w.fs.current) == None && Carried(v, w.fs.current) == Some(w.tasks[0])
            && forall f :: f != w.fs.current ==> Carried(v, f) == Carried(w, f)
  {}

  /** The current fiber finishes its task, and nothing else changes. */
  lemma FinishTaskFinishes(w: Worker)
    requires Inv(w) && w.pc.InTask? && w.pc.carry.Some?
    ensures var v := DoFinishTask(w);
            && v.tasks == w.tasks && v.log == w.log && InHand(v) == InHand(w)
            && v.fs.current == w.fs.current
            && Carried(w, w.fs.current) == w.pc.carry && Carried(v, w.fs.current) == None
            && forall f :: f != w.fs.current ==> Carried(v, f) == Carried(w, f)
  {}

  lemma SwitchAwayKeepsTasks(w: Worker, pick: int)
    requires Inv(w) && w.pc.Block? && (w.fs.ready == [] && w.fs.idle != {} ==> pick in w.fs.idle)
    ensures SameTasks(w, DoSwitchAway(w, pick))
  {
    BlockPartition(w);
    hide Inv, Partition, SameTasks, DoSwitchAway;
    if w.fs.ready == [] {
      IdleOrNewKeepsTasks(w, pick);
    } else {
      ReadyKeepsTasks(w, pick);
    }
  }

  lemma ReadyKeepsTasks(w: Worker, pick: int)
    requires Partition(w.fs, InWait) && w.pc.Block? && w.fs.ready != []
    ensures SameTasks(w, DoSwitchAway(w, pick))
  {
    hide Consistent;
    if w.fs.ready[0] != w.fs.current {
      TakeReady(w.fs, w.pc.carry);
      hide Partition;
    }
  }

  lemma BlockPartition(w: Worker)
    requires Inv(w) && w.pc.Block?
    ensures Partition(w.fs, InWait)
  {}

  lemma IdleOrNewKeepsTasks(w: Worker, pick: int)
    requires Partition(w.fs, InWait) && w.pc.Block? && w.fs.ready == [] && (w.fs.idle != {} ==> pick in w.fs.idle)
    ensures SameTasks(w, DoSwitchAway(w, pick))
  {
    hide Consistent;
  }

  lemma RunReadyKeepsTasks(w: Worker)
    requires Inv(w) && w.pc.IdleLoop? && w.fs.ready != []
    ensures SameTasks(w, DoRunReady(w))
  {
    hide Consistent, Counters, Wakeful;
    IdleForReady(w.fs);
  }

  lemma LeaveRunKeepsTasks(w: Worker)
    requires Inv(w) && w.pc.LoopExit?
    ensures SameTasks(w, DoLeaveRun(w))
  {
    hide Consistent, Counters, Wakeful;
    if w.fs.current != 0 { FinalSwitch(w); }
  }

  lemma InPlaceKeepsTasks(w: Worker, v: Worker)
    requires v.fs.resume == w.fs.resume && v.fs.current == w.fs.current
    requires v.tasks == w.tasks && v.log == w.log && InHand(v) == InHand(w) && TaskAt(v.pc) == TaskAt(w.pc)
    ensures SameTasks(w, v)
  {}

  predicate WaitStep(st: Step) {
    st.BeginRun? || st.EnterRun? || st.Spurious? || st.RecheckRun? || st.TestLoop? || st.EnterWait?
        || st.LockAfterSpin? || st.TestWait?
    || st.RecheckWait?
  }

  lemma WaitSteps(w: Worker, st: Step)
    requires Enabled(w, st) && WaitStep(st)
    ensures SameTasks(w, Apply(w, st))
  {
    WaitStepInPlace(w, st);
    WaitStepTask(w, st);
    hide SameTasks, Carried, Apply, Enabled, TaskAt, InHand;
    InPlaceKeepsTasks(w, Apply(w, st));
  }

  lemma WaitStepInPlace(w: Worker, st: Step)
    requires Enabled(w, st) && WaitStep(st)
    ensures Apply(w, st).fs == w.fs && Apply(w, st).tasks == w.tasks && Apply(w, st).log == w.log
  {}

  lemma WaitStepTask(w: Worker, st: Step)
    requires Enabled(w, st) && WaitStep(st)
    ensures InHand(Apply(w, st)) == InHand(w) && TaskAt(Apply(w, st).pc) == TaskAt(w.pc)
  {
    hide WorkPredicate, RunPredicate;
  }

  lemma InPlaceSteps(w: Worker, st: Step)
    requires Enabled(w, st) && !WaitStep(st) && !st.SwitchAway? && !st.RunReady? && !st.LeaveRun?
    requires !st.RunTask? && !st.FinishTask? && !st.KeepStolen?
    ensures SameTasks(w, Apply(w, st))
  {
    hide SameTasks, Carried;
    InPlaceKeepsTasks(w, Apply(w, st));
  }

  /** Only three steps of a worker move a task; no other step changes which fiber carries what. */
  lemma OtherStepsKeepTasks(w: Worker, st: Step)
    requires Inv(w) && Enabled(w, st) && !st.RunTask? && !st.FinishTask? && !st.KeepStolen?
    ensures SameTasks(w, Apply(w, st))
  {
    hide Inv, SameTasks, Carried;
    match st
    case SwitchAway(pick) => SwitchAwayKeepsTasks(w, pick);
    case RunReady => RunReadyKeepsTasks(w);
    case LeaveRun => LeaveRunKeepsTasks(w);
    case _ => if WaitStep(st) { WaitSteps(w, st); } else { InPlaceSteps(w, st); }
  }

  /** The flag is set exactly by the end of a stop task and by stop() of a bound thread, and never reset. */
  lemma ShutdownByTaskOrStop(w: Worker, st: Step)
    requires Enabled(w, st)
    ensures Apply(w, st).mode == w.mode
    ensures Apply(w, st).shutdown <==>
              || w.shutdown
              || (st.FinishTask? && w.pc.carry.value.action == SetShutdown)
              || (st.BeginStop? && w.mode.SingleThreaded?)
  {}

  // ---------------------------------------------------------------------------------------------
  // Order
  // ---------------------------------------------------------------------------------------------

  /** The queue is the rest of everything ever put in it; what a fiber carries has left the queue; and a
      worker with a thread of its own shuts down only after a stop task has left the queue. */
  ghost predicate InOrder(w: Worker) {
    && |w.tasks| <= |w.log|
    && w.tasks == w.log[|w.log| - |w.tasks|..]
    && (forall f :: Carried(w, f).Some? ==> Carried(w, f).value in w.log[..|w.log| - |w.tasks|])
    && (w.mode.MultiThreaded? && w.shutdown ==>
          exists j :: 0 <= j < |w.log| - |w.tasks| && w.log[j].action == SetShutdown)
  }

  // Moving the front of the queue out of it.
  lemma FrontLeaves(log: seq<Task>, tasks: seq<Task>)
    requires 0 < |tasks| <= |log| && tasks == log[|log| - |tasks|..]
    ensures var n := |log| - |tasks|;
            && log[n] == tasks[0] && tasks[1..] == log[n + 1..] && log[..n + 1] == log[..n] + [tasks[0]]
  {}

  lemma StepInOrder(w: Worker, st: Step)
    requires Inv(w) && Enabled(w, st) && InOrder(w)
    ensures InOrder(Apply(w, st))
  {
    ShutdownByTaskOrStop(w, st);
    hide Inv, InOrder, DoRunTask, DoFinishTask, DoKeepStolen;
    match st
    case RunTask => RunTaskInOrder(w);
    case FinishTask => FinishTaskInOrder(w);
    case KeepStolen => KeepStolenInOrder(w);
    case _ =>
      OtherStepsKeepTasks(w, st);
      hide Apply, Enabled, SameTasks;
      SameInOrder(w, Apply(w, st));
  }

  lemma RunTaskInOrder(w: Worker)
    requires Inv(w) && InOrder(w) && w.pc.IdleLoop? && w.tasks != []
    ensures InOrder(DoRunTask(w))
  {
    hide Inv, Carried;
    RunTaskStarts(w);
    FrontLeaves(w.log, w.tasks);
  }

  lemma FinishTaskInOrder(w: Worker)
    requires Inv(w) && InOrder(w) && w.pc.InTask? && w.pc.carry.Some?
    ensures InOrder(DoFinishTask(w))
  {
    hide Inv, Carried;
    FinishTaskFinishes(w);
    assert Carried(w, w.fs.current) == w.pc.carry;
  }

  lemma SameInOrder(w: Worker, v: Worker)
    requires InOrder(w) && SameTasks(w, v) && v.mode == w.mode && (v.mode.MultiThreaded? && v.shutdown ==> w.shutdown)
    ensures InOrder(v)
  {
    hide Carried;
  }

  lemma KeepStolenInOrder(w: Worker)
    requires InOrder(w) && w.pc.SpinStolen?
    ensures InOrder(DoKeepStolen(w))
  {
    PushedInOrder(w, DoKeepStolen(w), w.pc.stolen);
  }

  lemma PushedInOrder(w: Worker, v: Worker, t: Task)
    requires InOrder(w)
    requires v.tasks == w.tasks + [t] && v.log == w.log + [t] && v.mode == w.mode && v.shutdown == w.shutdown
    requires forall f :: Carried(v, f) == Carried(w, f)
    ensures InOrder(v)
  {
    hide Carried;
    var n := |w.log| - |w.tasks|;
    assert v.log[..n] == w.log[..n];
    if v.mode.MultiThreaded? && v.shutdown {
      var j :| 0 <= j < n && w.log[j].action == SetShutdown;
      assert v.log[j].action == SetShutdown;
    }
  }

  lemma StealInOrder(w: Worker)
    requires InOrder(w) && Stealable(w)
    ensures InOrder(StealFront(w))
  {
    FrontLeaves(w.log, w.tasks);
    assert forall f :: Carried(StealFront(w), f) == Carried(w, f);
  }
}
