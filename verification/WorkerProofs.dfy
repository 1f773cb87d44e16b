/** What every step of a worker keeps: the partition of its fibers, its counters, and the promise that a
    sleeping worker does not miss work. */
module WorkerProofs {
  import opened Wrappers
  import opened Timeouts
  import opened Workers

  lemma StartKeeps(mode: Mode)
    ensures Inv(Start(mode))
  {
    assert Suspended(Start(mode).fs.resume) == {};
  }

  // ---------------------------------------------------------------------------------------------
  // What each kind of move does to the partition
  // ---------------------------------------------------------------------------------------------

  lemma ParkCurrent(p: Fibers, deadline: Option<Time>)
    requires Partition(p, Executing)
    ensures Partition(SetAside(p, deadline), InWait)
  {
    if deadline.Some? { AddConsistentIff(p.waiting, deadline.value, p.current); }
  }

  lemma ReturnCurrent(p: Fibers, role: Role)
    requires Partition(p, role) && (role == FromQueue || role == FromIdle)
    ensures Partition(Resumed(p), Executing)
  {}

  lemma QueueTail(s: seq<int>, f: int)
    requires s != [] && forall i, j :: 0 <= i < j < |s| ==> s[i] != s[j]
    ensures f in s[1..] <==> f in s && f != s[0]
  {
    if f in s[1..] {
      var k :| 0 <= k < |s| - 1 && s[1..][k] == f;
      assert s[k + 1] == f;
    }
  }

  // suspend() takes itself off the queue.
  lemma TakeSelf(p: Fibers)
    requires Partition(p, InWait) && p.ready != [] && p.ready[0] == p.current
    ensures Partition(p.(ready := p.ready[1..]), FromQueue)
  {
    assert p.current in p.ready;
    forall f ensures f in p.ready[1..] <==> f in p.ready && f != p.current { QueueTail(p.ready, f); }
  }

  // suspend() switches to another ready fiber.
  lemma TakeReady(p: Fibers, carry: Option<Task>)
    requires Partition(p, InWait) && p.ready != [] && p.ready[0] != p.current
    ensures p.current !in p.resume && p.ready[0] in p.resume && p.resume[p.ready[0]].InSuspend?
    ensures Partition(Switched(p.(ready := p.ready[1..]), InSuspend(carry), p.ready[0]), FromQueue)
  {
    assert p.ready[0] in p.ready;
    forall f ensures f in p.ready[1..] <==> f in p.ready && f != p.ready[0] { QueueTail(p.ready, f); }
  }

  lemma IdleForReady(p: Fibers)
    requires Partition(p, Executing) && p.ready != []
    ensures p.current !in p.resume && p.ready[0] in p.resume && p.resume[p.ready[0]].InSuspend?
    ensures Partition(Idled(p), FromQueue)
  {
    assert p.ready[0] in p.ready;
    forall f ensures f in p.ready[1..] <==> f in p.ready && f != p.ready[0] { QueueTail(p.ready, f); }
  }

  lemma TakeIdle(p: Fibers, carry: Option<Task>, pick: int)
    requires Partition(p, InWait) && pick in p.idle
    ensures p.current !in p.resume && pick in p.resume && p.resume[pick] == InRunUntilIdle
    ensures Partition(Switched(p.(idle := p.idle - {pick}), InSuspend(carry), pick), FromIdle)
  {}

  lemma TakeNew(p: Fibers, carry: Option<Task>)
    requires Partition(p, InWait)
    ensures p.current !in p.resume
    ensures Partition(Created(p, carry), Executing)
  {}

  lemma QueueFiber(p: Fibers, role: Role, f: int)
    requires Partition(p, role) && f in p.tag && (p.tag[f] == Yielded || p.tag[f] == Waiting)
    ensures Partition(Notified(p, f), role)
  {
    hide Consistent, EraseBoth;
    assert f !in p.ready;
    if p.tag[f] == Waiting { EraseBothCorrect(p.waiting, f); }
  }

  lemma QueueDue(p: Fibers, role: Role, now: Time)
    requires Partition(p, role)
    ensures Partition(DueQueued(p, now), role)
  {
    hide Consistent, Due, Drained;
    var due := Due(p.waiting.timeouts, now);
    var q := p.ready + due;
    DueCorrect(p.waiting, now);
    DueDistinct(p.waiting, now);
    DrainedCorrect(p.waiting, now);
    forall i, j | 0 <= i < j < |q| ensures q[i] != q[j] {
      if i < |p.ready| <= j {
        assert q[i] in p.ready && q[j] in due;
      }
    }
    forall f ensures f in q <==> f in p.ready || f in due {}
  }

  // ---------------------------------------------------------------------------------------------
  // Counting suspended fibers
  // ---------------------------------------------------------------------------------------------

  lemma SwitchSuspended(resume: map<int, Resume>, current: int, saved: Resume, to: int)
    requires to in resume && current !in resume
    ensures |Suspended(resume[current := saved] - {to})| ==
              |Suspended(resume)| - (if resume[to].InSuspend? then 1 else 0) + (if saved.InSuspend? then 1 else 0)
  {
    assert Suspended(resume[current := saved] - {to}) ==
           Suspended(resume) - {to} + (if saved.InSuspend? then {current} else {});
    assert current !in Suspended(resume) && (to in Suspended(resume) <==> resume[to].InSuspend?);
  }

  lemma SaveSuspended(resume: map<int, Resume>, current: int, carry: Option<Task>)
    requires current !in resume
    ensures |Suspended(resume[current := InSuspend(carry)])| == |Suspended(resume)| + 1
  {
    assert Suspended(resume[current := InSuspend(carry)]) == Suspended(resume) + {current};
    assert current !in Suspended(resume);
  }

  // ---------------------------------------------------------------------------------------------
  // The worker's own steps
  // ---------------------------------------------------------------------------------------------

  // Steps that move no fiber.
  lemma BeginRunKeeps(w: Worker)
    requires Inv(w) && w.pc.Begin?
    ensures Inv(w.(pc := Fresh))
  {
    hide Partition;
  }

  lemma EnterRunKeeps(w: Worker)
    requires Inv(w) && w.pc.Fresh?
    ensures Inv(DoEnterRun(w))
  {
    hide Partition;
  }

  lemma SpuriousKeeps(w: Worker)
    requires Inv(w)
    ensures Inv(DoSpurious(w))
  {
    hide Partition;
  }

  lemma RecheckRunKeeps(w: Worker)
    requires Inv(w) && w.pc == RunSleep(false)
    ensures Inv(DoRecheckRun(w))
  {
    hide Partition;
  }

  lemma TestLoopKeeps(w: Worker)
    requires Inv(w) && w.pc.LoopTop?
    ensures Inv(DoTestLoop(w))
  {
    hide Partition;
  }

  lemma EnterWaitKeeps(w: Worker)
    requires Inv(w) && w.pc.WaitTop?
    ensures Inv(DoEnterWait(w))
  {
    hide Partition;
  }

  lemma LockAfterSpinKeeps(w: Worker)
    requires Inv(w) && w.pc.Spin?
    ensures Inv(w.(pc := WaitCond(w.pc.caller)))
  {
    hide Partition;
  }

  lemma KeepStolenKeeps(w: Worker)
    requires Inv(w) && w.pc.SpinStolen?
    ensures Inv(DoKeepStolen(w))
  {
    hide Partition;
  }

  lemma TestWaitKeeps(w: Worker)
    requires Inv(w) && w.pc.WaitCond?
    ensures Inv(DoTestWait(w))
  {
    hide Partition;
  }

  lemma RecheckWaitKeeps(w: Worker, expired: bool)
    requires Inv(w) && w.pc.Sleep? && !w.pc.asleep
    ensures Inv(DoRecheckWait(w, expired))
  {
    hide Partition;
  }

  lemma RunTaskKeeps(w: Worker)
    requires Inv(w) && w.pc.IdleLoop? && w.tasks != []
    ensures Inv(DoRunTask(w))
  {
    hide Partition;
  }

  lemma FinishTaskKeeps(w: Worker)
    requires Inv(w) && w.pc.InTask? && w.pc.carry.Some?
    ensures Inv(DoFinishTask(w))
  {
    hide Partition;
  }

  lemma ToLoopKeeps(w: Worker, stopping: bool)
    requires Inv(w) && (w.pc.IdleLoop? || w.pc.InTask?)
    ensures Inv(w.(shutdown := w.shutdown || stopping, pc := LoopTop))
  {
    hide Partition;
  }

  // Steps that move a fiber.
  lemma SuspendKeeps(w: Worker, deadline: Option<Time>)
    requires Inv(w) && w.pc.InTask?
    ensures Inv(DoSuspendTask(w, deadline))
  {
    hide Partition;
    ParkCurrent(w.fs, deadline);
  }

  lemma ReturnFromSuspendKeeps(w: Worker)
    requires Inv(w) && w.pc.BackInSuspend?
    ensures Inv(DoReturnFromSuspend(w))
  {
    hide Partition;
    ReturnCurrent(w.fs, FromQueue);
  }

  lemma ReturnFromIdleKeeps(w: Worker)
    requires Inv(w) && w.pc.BackInIdle?
    ensures Inv(w.(fs := Resumed(w.fs), pc := IdleLoop))
  {
    hide Partition;
    if !w.ending { ReturnCurrent(w.fs, FromIdle); }
  }

  lemma RunReadyKeeps(w: Worker)
    requires Inv(w) && w.pc.IdleLoop? && w.fs.ready != []
    ensures Inv(DoRunReady(w))
  {
    hide Partition;
    IdleForReady(w.fs);
    SwitchSuspended(w.fs.resume, w.fs.current, InRunUntilIdle, w.fs.ready[0]);
  }

  lemma SwitchToReadyKeeps(w: Worker, pick: int)
    requires Inv(w) && w.pc.Block? && w.fs.ready != []
    ensures Inv(DoSwitchAway(w, pick))
  {
    hide Partition;
    if w.fs.ready[0] == w.fs.current {
      TakeSelf(w.fs);
    } else {
      TakeReady(w.fs, w.pc.carry);
      SwitchSuspended(w.fs.resume, w.fs.current, InSuspend(w.pc.carry), w.fs.ready[0]);
    }
  }

  lemma SwitchToIdleKeeps(w: Worker, pick: int)
    requires Inv(w) && w.pc.Block? && w.fs.ready == [] && pick in w.fs.idle
    ensures Inv(DoSwitchAway(w, pick))
  {
    hide Partition;
    TakeIdle(w.fs, w.pc.carry, pick);
    SwitchSuspended(w.fs.resume, w.fs.current, InSuspend(w.pc.carry), pick);
  }

  lemma SwitchToNewKeeps(w: Worker, pick: int)
    requires Inv(w) && w.pc.Block? && w.fs.ready == [] && w.fs.idle == {}
    ensures Inv(DoSwitchAway(w, pick))
  {
    hide Partition;
    TakeNew(w.fs, w.pc.carry);
    SaveSuspended(w.fs.resume, w.fs.current, w.pc.carry);
  }

  lemma MoveTimeoutsKeeps(w: Worker, now: Time)
    requires Inv(w) && w.pc.MoveDue?
    ensures Inv(DoMoveTimeouts(w, now))
  {
    hide Partition;
    QueueDue(w.fs, RoleOf(w.pc), now);
  }

  /** When run() leaves its loop, the switch to the main fiber is a no-op or resumes a main fiber that is
      parked in runUntilIdle(); it never resumes a fiber inside a wait. */
  lemma FinalSwitch(w: Worker)
    requires Inv(w) && w.pc.LoopExit? && w.fs.current != 0
    ensures 0 in w.fs.resume && w.fs.resume[0] == InRunUntilIdle && 0 in w.fs.idle
    ensures 0 in w.fs.tag && w.fs.tag[0] == Idle
  {
    assert 0 in w.fs.resume;
    assert 0 !in Suspended(w.fs.resume);
  }

  lemma NoneParked(w: Worker)
    requires Inv(w) && !w.ending && w.pc.LoopExit?
    ensures forall f :: f in w.fs.tag ==> w.fs.tag[f] == Idle || w.fs.tag[f] == Running
  {
    forall f | f in w.fs.tag ensures w.fs.tag[f] == Idle || w.fs.tag[f] == Running {
      assert f !in Suspended(w.fs.resume);
    }
  }

  lemma LeaveRunKeeps(w: Worker)
    requires Inv(w) && w.pc.LoopExit?
    ensures Inv(DoLeaveRun(w))
  {
    hide Partition;
    if !w.ending { NoneParked(w); }
    if w.fs.current != 0 {
      FinalSwitch(w);
      assert Suspended(w.fs.resume[w.fs.current := InRun] - {0}) == {};
    }
  }

  /** Every step of the worker's own thread keeps the invariant. */
  lemma StepKeeps(w: Worker, st: Step)
    requires Inv(w) && Enabled(w, st)
    ensures Inv(Apply(w, st))
  {
    match st
    case BeginRun => BeginRunKeeps(w);
    case EnterRun => EnterRunKeeps(w);
    case Spurious => SpuriousKeeps(w);
    case RecheckRun => RecheckRunKeeps(w);
    case TestLoop => TestLoopKeeps(w);
    case EnterWait => EnterWaitKeeps(w);
    case LockAfterSpin => LockAfterSpinKeeps(w);
    case KeepStolen => KeepStolenKeeps(w);
    case TestWait => TestWaitKeeps(w);
    case RecheckWait(expired) => RecheckWaitKeeps(w, expired);
    case MoveTimeouts(now) => MoveTimeoutsKeeps(w, now);
    case SwitchAway(pick) =>
      if w.fs.ready != [] { SwitchToReadyKeeps(w, pick); }
      else if w.fs.idle != {} { SwitchToIdleKeeps(w, pick); }
      else { SwitchToNewKeeps(w, pick); }
    case ReturnFromSuspend => ReturnFromSuspendKeeps(w);
    case RunReady => RunReadyKeeps(w);
    case RunTask => RunTaskKeeps(w);
    case EndIdle => ToLoopKeeps(w, false);
    case ReturnFromIdle => ReturnFromIdleKeeps(w);
    case FinishTask => FinishTaskKeeps(w);
    case SuspendTask(deadline) => SuspendKeeps(w, deadline);
    case BeginStop => ToLoopKeeps(w, true);
    case LeaveRun => LeaveRunKeeps(w);
  }

  // ---------------------------------------------------------------------------------------------
  // Steps of other threads
  // ---------------------------------------------------------------------------------------------

  lemma PushTaskKeeps(w: Worker, t: Task)
    requires Inv(w) && Unlocked(w.pc)
    ensures Inv(PushTask(w, t))
  {
    hide Partition;
  }

  lemma StealKeeps(w: Worker)
    requires Inv(w) && Stealable(w)
    ensures Inv(StealFront(w))
  {
    hide Partition;
  }

  lemma GrantKeeps(w: Worker, t: Task)
    requires Inv(w) && w.pc.Spin?
    ensures Inv(Grant(w, t))
  {
    hide Partition;
  }

  lemma DeliverKeeps(w: Worker)
    requires Inv(w) && w.pendingNotify > 0
    ensures Inv(Deliver(w))
  {
    hide Partition;
  }

  lemma NotifyKeeps(w: Worker, f: int)
    requires Inv(w) && Unlocked(w.pc) && f in w.fs.tag && (w.fs.tag[f] == Yielded || w.fs.tag[f] == Waiting)
    ensures Inv(PushFiber(w, f))
  {
    hide Partition, Notified;
    assert !w.ending;
    QueueFiber(w.fs, RoleOf(w.pc), f);
    NotifiedReady(w.fs, f);
  }

  lemma NotifiedReady(p: Fibers, f: int)
    requires f in p.tag
    ensures Notified(p, f).ready == p.ready + [f] && Notified(p, f).resume == p.resume
    ensures p.tag[f] != Waiting ==> Notified(p, f).waiting == p.waiting
    ensures |Notified(p, f).waiting.fibers| > 0 ==> |p.waiting.fibers| > 0
  {
    if p.waiting.fibers == map[] { assert f !in p.waiting.fibers; }
  }

  // An idle fiber must not be in the queue.
  lemma NotifyIdleBreaks(w: Worker, f: int)
    requires Inv(w) && Unlocked(w.pc) && f in w.fs.tag && w.fs.tag[f] == Idle
    ensures !Inv(PushFiber(w, f))
  {
    hide Consistent, Counters, Wakeful, EraseBoth;
    var fs := PushFiber(w, f).fs;
    assert fs.ready != [] && fs.tag[f] == Queued && fs.resume == w.fs.resume && fs.current == w.fs.current;
    if !w.ending { assert f in w.fs.resume && w.fs.resume[f] == InRunUntilIdle; }
  }

  /** A notification keeps the invariant exactly when its target is not idle, that is, when the target is
      inside a wait or already running or queued. */
  lemma PushFiberKeepsIff(w: Worker, f: int)
    requires Inv(w) && Unlocked(w.pc) && f in w.fs.tag
    ensures Inv(PushFiber(w, f)) <==> w.fs.tag[f] != Idle
  {
    match w.fs.tag[f]
    case Idle => NotifyIdleBreaks(w, f);
    case Waiting => NotifyKeeps(w, f);
    case Yielded => NotifyKeeps(w, f);
    case _ =>
  }

  // ---------------------------------------------------------------------------------------------
  // What the invariant says
  // ---------------------------------------------------------------------------------------------

  function Ones(bs: seq<bool>): int {
    if bs == [] then 0 else (if bs[0] then 1 else 0) + Ones(bs[1..])
  }

  /** Whenever the current fiber is not inside suspend(), each fiber of the worker is in exactly one of five
      places: current, idle, ready, waiting with a deadline, or yielded. */
  lemma ExactlyOnePlace(w: Worker, f: int)
    requires Inv(w) && !w.ending && RoleOf(w.pc) != InWait && 0 <= f <= w.fs.created
    ensures Ones([f == w.fs.current, f in w.fs.idle, f in w.fs.ready, f in w.fs.waiting.fibers,
                  f in w.fs.tag && w.fs.tag[f] == Yielded]) == 1
  {
    hide Consistent;
    var a, b, c, d, e := f == w.fs.current, f in w.fs.idle, f in w.fs.ready, f in w.fs.waiting.fibers,
                         f in w.fs.tag && w.fs.tag[f] == Yielded;
    assert Ones([a, b, c, d, e]) == (if a then 1 else 0) + Ones([b, c, d, e]) by {
      assert [a, b, c, d, e][1..] == [b, c, d, e];
    }
    assert Ones([b, c, d, e]) == (if b then 1 else 0) + Ones([c, d, e]) by { assert [b, c, d, e][1..] == [c, d, e]; }
    assert Ones([c, d, e]) == (if c then 1 else 0) + Ones([d, e]) by { assert [c, d, e][1..] == [d, e]; }
    assert Ones([d, e]) == (if d then 1 else 0) + Ones([e]) by { assert [d, e][1..] == [e]; }
    assert Ones([e]) == if e then 1 else 0;
  }

  /** Right after a fiber switch at least as many fibers are blocked as wait with a deadline. */
  lemma BlockedCoversWaiting(w: Worker)
    requires Inv(w) && !w.ending && RoleOf(w.pc) != InWait
    ensures |w.fs.waiting.fibers| <= w.blocked
  {
    hide Consistent;
    forall f | f in w.fs.waiting.fibers ensures f in Suspended(w.fs.resume) {
      assert w.fs.tag[f] == Waiting;
    }
    SubsetSize(w.fs.waiting.fibers.Keys, Suspended(w.fs.resume));
    assert |w.fs.waiting.fibers| == |w.fs.waiting.fibers.Keys|;
  }

  lemma SubsetSize(a: set<int>, b: set<int>)
    requires a <= b
    ensures |a| <= |b|
  {
    assert b == a + (b - a);
  }

  predicate TagMove(st: Step, a: Tag, b: Tag, isCurrent: bool) {
    || a == b
    || (a == Running && (b == Waiting || b == Yielded) && st.SuspendTask? && isCurrent)
    || (a == Waiting && b == Queued && st.MoveTimeouts?)
    || (a == Queued && b == Running && st.ReturnFromSuspend? && isCurrent)
    || (a == Running && b == Idle && st.RunReady? && isCurrent)
    || (a == Idle && b == Running && st.ReturnFromIdle? && isCurrent)
  }

  ghost predicate TagsMove(w: Worker, fs: Fibers, st: Step, f: int) {
    f in w.fs.tag ==> f in fs.tag && TagMove(st, w.fs.tag[f], fs.tag[f], f == w.fs.current)
  }

  /** A fiber's state changes only along these lines: the current fiber is set aside by suspend() and set
      running when it returns, and a deadline queues a waiting fiber. */
  lemma TagProtocol(w: Worker, st: Step, f: int)
    requires Inv(w) && Enabled(w, st)
    ensures TagsMove(w, Apply(w, st).fs, st, f)
  {
    hide Inv, TagsMove, DoMoveTimeouts, DoSwitchAway, DoReturnFromSuspend, DoRunReady, DoSuspendTask, DoLeaveRun;
    match st
    case MoveTimeouts(now) => TimeoutTags(w, now, f);
    case SwitchAway(pick) => SwitchTags(w, pick, f);
    case ReturnFromSuspend => ReturnTags(w, f);
    case RunReady => ReadyTags(w, f);
    case SuspendTask(deadline) => SuspendTags(w, deadline, f);
    case LeaveRun => LeaveTags(w, f);
    case ReturnFromIdle => IdleReturnTags(w, f);
    case _ => FibersStay(w, st); SameTags(w, st, f);
  }

  lemma TimeoutTags(w: Worker, now: Time, f: int)
    requires Inv(w) && w.pc.MoveDue?
    ensures TagsMove(w, DoMoveTimeouts(w, now).fs, MoveTimeouts(now), f)
  {
    TagFacts(w);
    DueCorrect(w.fs.waiting, now);
    hide Inv, Due, Drained, Consistent;
  }

  lemma SwitchTags(w: Worker, pick: int, f: int)
    requires Inv(w) && w.pc.Block?
    ensures TagsMove(w, DoSwitchAway(w, pick).fs, SwitchAway(pick), f)
  {
    TagFacts(w);
    hide Inv;
  }

  lemma ReturnTags(w: Worker, f: int)
    requires Inv(w) && w.pc.BackInSuspend?
    ensures TagsMove(w, DoReturnFromSuspend(w).fs, ReturnFromSuspend, f)
  {
    TagFacts(w);
    hide Inv;
  }

  lemma ReadyTags(w: Worker, f: int)
    requires Inv(w) && w.pc.IdleLoop? && w.fs.ready != []
    ensures TagsMove(w, DoRunReady(w).fs, RunReady, f)
  {
    TagFacts(w);
    hide Inv;
  }

  lemma SuspendTags(w: Worker, deadline: Option<Time>, f: int)
    requires Inv(w) && w.pc.InTask?
    ensures TagsMove(w, DoSuspendTask(w, deadline).fs, SuspendTask(deadline), f)
  {
    TagFacts(w);
    hide Inv;
  }

  lemma IdleReturnTags(w: Worker, f: int)
    requires Inv(w) && w.pc.BackInIdle?
    ensures TagsMove(w, Resumed(w.fs), ReturnFromIdle, f)
  {
    hide Consistent, Counters, Wakeful;
    assert w.fs.current in w.fs.tag ==> w.fs.tag[w.fs.current] == Idle;
  }

  lemma LeaveTags(w: Worker, f: int)
    ensures TagsMove(w, DoLeaveRun(w).fs, LeaveRun, f)
  {}

  lemma SameTags(w: Worker, st: Step, f: int)
    ensures TagsMove(w, w.fs, st, f)
  {}

  predicate MovesFiber(st: Step) {
    st.MoveTimeouts? || st.SwitchAway? || st.ReturnFromSuspend? || st.RunReady? || st.ReturnFromIdle?
        || st.SuspendTask? || st.LeaveRun?
  }

  lemma FibersStay(w: Worker, st: Step)
    requires Enabled(w, st) && !MovesFiber(st)
    ensures Apply(w, st).fs == w.fs
  {}

  lemma TagFacts(w: Worker)
    requires Inv(w) && !w.ending
    ensures Consistent(w.fs.waiting) && w.fs.current in w.fs.tag && w.fs.created + 1 !in w.fs.tag
    ensures forall f :: f in w.fs.waiting.fibers ==> f in w.fs.tag && w.fs.tag[f] == Waiting
    ensures RoleOf(w.pc) == FromQueue ==> w.fs.tag[w.fs.current] == Queued
    ensures RoleOf(w.pc) == Executing ==> w.fs.tag[w.fs.current] == Running
  {}

  /** A notification by another thread queues its target alone, and only a target set aside by suspend(); those
      that are running or queued already are left as they are. */
  lemma NotifiedTags(w: Worker, f: int, g: int)
    requires Inv(w) && Unlocked(w.pc) && f in w.fs.tag && w.fs.tag[f] != Idle && g in w.fs.tag
    ensures var fs := PushFiber(w, f).fs;
            && g in fs.tag
            && fs.tag[g] == (if g == f && Parked(w.fs.tag[f]) then Queued else w.fs.tag[g])
            && (f in fs.ready <==> Parked(w.fs.tag[f]))
            && fs.ready == w.fs.ready + (if fs.tag[f] == w.fs.tag[f] then [] else [f])
  {
    hide Consistent, Counters, Wakeful, EraseBoth;
    var fs := PushFiber(w, f).fs;
    assert fs.ready != w.fs.ready ==> fs.ready[|w.fs.ready|] == f;
    assert w.ending ==> w.fs.tag[f] == Running;
  }

  // ---------------------------------------------------------------------------------------------
  // enqueueFiberTimeouts() as written
  // ---------------------------------------------------------------------------------------------

  // n rounds of the loop: the fiber goes to the queue, its state stays, and `take` is the written one.
  function WrittenRounds(p: Fibers, now: Time, n: nat): Fibers
    decreases n
  {
    var t := Take(p.waiting, now);
    if n == 0 || t.Undefined? || t.fiber == None then p
    else WrittenRounds(p.(ready := p.ready + [t.fiber.value], waiting := t.index), now, n - 1)
  }

  lemma {:induction false} WrittenRoundsQueue(p: Fibers, now: Time, n: nat, f: int)
    requires f in p.ready
    ensures f in WrittenRounds(p, now, n).ready && WrittenRounds(p, now, n).tag == p.tag
    decreases n
  {
    var t := Take(p.waiting, now);
    if n > 0 && t.Taken? && t.fiber.Some? {
      WrittenRoundsQueue(p.(ready := p.ready + [t.fiber.value], waiting := t.index), now, n - 1, f);
    }
  }

  /** The loop as written, after any number of rounds, keeps the fiber partition exactly when no fiber is due. */
  lemma WrittenTimeoutsKeepIff(p: Fibers, role: Role, now: Time, n: nat)
    requires Partition(p, role) && role != FromQueue && n > 0
    ensures Partition(WrittenRounds(p, now, n), role) <==>
            forall f :: f in p.waiting.fibers ==> p.waiting.fibers[f] > now
  {
    TakeConsistentIff(p.waiting, now);
    TakeBothCorrect(p.waiting, now);
    var t := Take(p.waiting, now);
    if t.fiber.Some? {
      var f := t.fiber.value;
      var q := p.(ready := p.ready + [f], waiting := t.index);
      assert f == q.ready[|p.ready|];
      WrittenRoundsQueue(q, now, n - 1, f);
      var r := WrittenRounds(p, now, n);
      assert f in r.ready && r.tag[f] == Waiting;
    }
  }
}
