/** What holds in every run of events and workers together: no deadlock on event mutexes, condition variables and work
    mutexes, and satisfied waiters down to the queues of the workers. */
module CompositionTheorems {
  import opened Wrappers
  import opened Collections
  import opened Events
  import opened EventLocks
  import opened EventDeadlock
  import opened EventBooks
  import opened EventWakeups
  import opened EventWakeSteps
  import opened EventTheorems
  import opened Compositions
  import W = Workers
  import P = WorkerProofs

  ghost predicate JointInit(j: Joint) {
    Init(j.s) && Placed(j) && forall k :: 0 <= k < |j.ws| ==> j.ws[k] == W.Start(j.ws[k].mode)
  }

  ghost predicate JointRun(js: seq<Joint>, ms: seq<Move>) {
    && |js| == |ms| + 1 && JointInit(js[0])
    && forall k :: 0 <= k < |ms| ==> CanMove(js[k], ms[k]) && Moved(js[k], ms[k]) == js[k + 1]
  }

  lemma InitJoint(j: Joint)
    requires JointInit(j)
    ensures JointInv(j)
  {
    assert forall a :: At(j.s, a) == Out;
    assert Good(j.s);
    hide Good, W.Inv;
    forall k | 0 <= k < |j.ws| ensures W.Inv(j.ws[k]) { P.StartKeeps(j.ws[k].mode); }
    assert Ties(j);
  }

  lemma {:induction false} JointRunKeeps(js: seq<Joint>, ms: seq<Move>, k: nat)
    requires JointRun(js, ms) && k < |js|
    ensures JointInv(js[k])
  {
    hide JointInv, CanMove, Moved, JointInit;
    if k == 0 {
      InitJoint(js[0]);
    } else {
      JointRunKeeps(js, ms, k - 1);
      assert CanMove(js[k - 1], ms[k - 1]) && Moved(js[k - 1], ms[k - 1]) == js[k];
      MoveKeeps(js[k - 1], ms[k - 1]);
    }
  }

  // ---------------------------------------------------------------------------------------------
  // No deadlock
  // ---------------------------------------------------------------------------------------------

  // The worker's own thread holds the work mutex.
  predicate ThreadHolds(j: Joint, k: int) {
    0 <= k < |j.ws| && !W.Unlocked(j.ws[k].pc)
  }

  /** The move is one of an agent that holds a lock, or of a worker's thread that holds its work mutex. */
  ghost predicate OfHolder(j: Joint, m: Move) {
    match m
    case Plain(st) => !st.NewPrim? && st.a in j.s.mx.Values
    case Own(k, _) => ThreadHolds(j, k)
    case Around(_, _) => false
    case Suspend(a, _) => a in j.s.mx.Values
    case Return(a) => a in j.s.worker && ThreadHolds(j, j.s.worker[a])
    case Notify(a) => a in j.s.mx.Values
    case Expire(k, _, _) => ThreadHolds(j, k)
  }

  lemma TimeoutsMove(j: Joint, k: int) returns (m: Move)
    requires JointInv(j) && 0 <= k < |j.ws| && j.ws[k].pc.MoveDue?
    ensures CanMove(j, m) && OfHolder(j, m)
  {
    hide Ties;
    var agents := Listing(set a | a in j.s.worker && Expired(j, a, k, 0));
    m := Expire(k, 0, agents);
  }

  // A worker comes back from a switch inside suspend(), which a wait or the task itself has called.
  lemma BackMoves(j: Joint, k: int) returns (m: Move)
    requires JointInv(j) && 0 <= k < |j.ws| && j.ws[k].pc.BackInSuspend?
    ensures CanMove(j, m) && OfHolder(j, m)
  {
    var w := j.ws[k];
    if a :| OnWorker(j, a, k) && j.fiber[a] == w.fs.current && At(j.s, a).WParked? {
      TieOf(j, a);
      InvOf(j, k);
      BackIsQueued(w);
      hide Ties;
      m := Return(a);
    } else {
      hide Ties;
      m := Own(k, W.ReturnFromSuspend);
    }
  }

  lemma BackIsQueued(w: W.Worker)
    requires W.Inv(w) && w.pc.BackInSuspend?
    ensures w.fs.current in w.fs.tag && w.fs.tag[w.fs.current] == W.Queued
  {}

  lemma OwnMoves(j: Joint, k: int, st: W.Step)
    requires ThreadHolds(j, k) && W.Enabled(j.ws[k], st) && !st.MoveTimeouts? && !st.ReturnFromSuspend?
    ensures CanMove(j, Own(k, st)) && OfHolder(j, Own(k, st))
  {
    hide W.Enabled;
  }

  // A worker's thread that holds the work mutex wants no other lock.
  lemma NextStep(w: W.Worker) returns (st: W.Step)
    requires !W.Unlocked(w.pc) && !w.pc.MoveDue? && !w.pc.BackInSuspend?
    ensures W.Enabled(w, st) && !st.MoveTimeouts? && !st.ReturnFromSuspend?
  {
    match w.pc
    case Fresh => st := W.EnterRun;
    case LoopTop => st := W.TestLoop;
    case WaitTop(_) => st := W.EnterWait;
    case WaitCond(_) => st := W.TestWait;
    case Block(_) =>
      assert (forall f :: f !in w.fs.idle) ==> w.fs.idle == {};
      var pick := if w.fs.idle != {} then var f :| f in w.fs.idle; f else 0;
      st := W.SwitchAway(pick);
    case IdleLoop => st := if w.fs.ready != [] then W.RunReady else if w.tasks != [] then W.RunTask else W.EndIdle;
    case BackInIdle => st := W.ReturnFromIdle;
    case LoopExit => st := W.LeaveRun;
  }

  lemma ThreadMoves(j: Joint, k: int) returns (m: Move)
    requires JointInv(j) && ThreadHolds(j, k)
    ensures CanMove(j, m) && OfHolder(j, m)
  {
    hide JointInv, CanMove, OfHolder, W.Enabled;
    if j.ws[k].pc.MoveDue? {
      m := TimeoutsMove(j, k);
    } else if j.ws[k].pc.BackInSuspend? {
      m := BackMoves(j, k);
    } else {
      var st := NextStep(j.ws[k]);
      OwnMoves(j, k, st);
      m := Own(k, st);
    }
  }

  // Who holds a lock is not parked, and a thread or in the middle of an operation.
  lemma HolderBusy(s: State, a: int)
    requires Good(s) && a in s.mx.Values
    ensures !At(s, a).WParked? && (a in s.worker ==> Engaged(At(s, a))) && (At(s, a).WPark? ==> a in s.worker)
  {
    var l :| l in s.mx && s.mx[l] == a;
    assert Holds(At(s, a), WorkOf(s, a), l);
    assert GoodPc(s, a);
  }

  // When no worker's thread holds its mutex, what an agent can do alone it can do here.
  lemma AgentMoves(j: Joint, st: Step) returns (m: Move)
    requires JointInv(j) && Can(j.s, st) && (st.Fiber? || st.Thread? || st.Signaller?) && st.a in j.s.mx.Values
    requires forall k :: !ThreadHolds(j, k)
    ensures CanMove(j, m) && OfHolder(j, m)
  {
    var a := st.a;
    HolderBusy(j.s, a);
    if a in j.s.worker { TieOf(j, a); }
    assert a in j.s.worker ==> Executing(j, a);
    hide Ties, MutexTied, Good, CanMove, OfHolder, Can, Tied, Notifies;
    if Notifies(j.s, st) {
      NotifyStep(j.s, st);
      NotifyMove(j, a);
      m := Notify(a);
    } else if At(j.s, a).WPark? {
      m := Suspend(a, if At(j.s, a).timed then Some(0) else None);
      SuspendMove(j, a, m.deadline);
    } else {
      MovesNoFiber(j.s, st);
      PlainMove(j, st);
      m := Plain(st);
    }
  }

  lemma NotifyMove(j: Joint, a: int)
    requires Can(j.s, Signaller(a, SigNotify)) && Notifies(j.s, Signaller(a, SigNotify)) && a in j.s.mx.Values
    requires (a in j.s.worker ==> Executing(j, a)) && forall k :: !ThreadHolds(j, k)
    ensures CanMove(j, Notify(a)) && OfHolder(j, Notify(a))
  {
    var t := NextTarget(j.s, a);
    assert t in j.s.worker ==> !ThreadHolds(j, j.s.worker[t]);
    hide Can, Notifies, NextTarget;
  }

  lemma SuspendMove(j: Joint, a: int, deadline: Option<int>)
    requires At(j.s, a).WPark? && (deadline.Some? <==> At(j.s, a).timed) && a in j.s.mx.Values && Executing(j, a)
    ensures CanMove(j, Suspend(a, deadline)) && OfHolder(j, Suspend(a, deadline))
  {}

  lemma PlainMove(j: Joint, st: Step)
    requires Can(j.s, st) && !MovesFiber(j.s, st) && !st.NewPrim? && st.a in j.s.mx.Values
    requires st.a in j.s.worker ==> Executing(j, st.a)
    ensures CanMove(j, Plain(st)) && OfHolder(j, Plain(st))
  {
    hide Can, MovesFiber;
  }

  predicate Executing(j: Joint, a: int) {
    a in j.s.worker && 0 <= j.s.worker[a] < |j.ws| && a in j.fiber && Executes(j.ws[j.s.worker[a]], j.fiber[a])
  }

  lemma NotifyStep(s: State, st: Step)
    requires Notifies(s, st)
    ensures st == Signaller(st.a, SigNotify)
  {}

  lemma MovesNoFiber(s: State, st: Step)
    requires Can(s, st) && !st.User? && !st.NewPrim? && !Notifies(s, st) && !At(s, st.a).WPark? && !At(s, st.a).WParked?
    ensures !MovesFiber(s, st)
  {
    hide CanThread, CanSig, Notifies;
  }

  /** Whenever some lock is held, be it by an agent or by a worker's own thread, one of the holders can move. */
  lemma JointNeverStuck(j: Joint)
    requires JointInv(j) && (j.s.mx != map[] || exists k :: ThreadHolds(j, k))
    ensures exists m :: CanMove(j, m) && OfHolder(j, m)
  {
    hide CanMove, OfHolder;
    if k :| ThreadHolds(j, k) {
      var m := ThreadMoves(j, k);
    } else {
      NeverStuck(j.s);
      var st: Step :| Can(j.s, st) && (st.Fiber? || st.Thread? || st.Signaller?) && st.a in j.s.mx.Values;
      var m := AgentMoves(j, st);
    }
  }

  /** So in every state of every joint run. */
  lemma JointRunsNeverDeadlock(js: seq<Joint>, ms: seq<Move>, k: nat)
    requires JointRun(js, ms) && k < |js|
    ensures js[k].s.mx != map[] || (exists i :: ThreadHolds(js[k], i)) ==>
              exists m :: CanMove(js[k], m) && OfHolder(js[k], m)
  {
    JointRunKeeps(js, ms, k);
    hide JointRun, JointInv, CanMove, OfHolder;
    if js[k].s.mx != map[] || exists i :: ThreadHolds(js[k], i) { JointNeverStuck(js[k]); }
  }

  // ---------------------------------------------------------------------------------------------
  // Wakeups
  // ---------------------------------------------------------------------------------------------

  // No move before the k-th loses a wakeup of e.
  ghost predicate JointSpared(js: seq<Joint>, ms: seq<Move>, e: int, k: nat)
    requires k <= |ms| <= |js|
  {
    forall i :: 0 <= i < k && Known(js[i].s, e) && ms[i].Plain? ==> !Harmful(js[i].s, ms[i].st, e)
  }

  lemma {:induction false} QueueEachOwed(s: State, k: int, agents: seq<int>, e: int)
    requires Good(s) && Free(s, Wk(k)) && NoDup(agents) && Known(s, e) && Owed(s, e)
    requires forall a :: a in agents ==> At(s, a).WParked? && a in s.worker && s.worker[a] == k
    ensures Known(QueueEach(s, agents), e) && Owed(QueueEach(s, agents), e)
    ensures QueueEach(s, agents).ev == s.ev
    decreases |agents|
  {
    if agents != [] {
      var v := DoFiber(s, agents[0], Queue);
      var st := Fiber(agents[0], Queue);
      assert CanFiber(s, agents[0], Queue);
      EventStep(s, st);
      StepExact(s, st, e);
      hide Good, Owed;
      QueueEachOwed(v, k, agents[1..], e);
    }
  }

  lemma ParkOwed(s: State, a: int, st: FiberStep, e: int)
    requires Good(s) && CanFiber(s, a, st) && (st.Park? || st.Resume?) && Known(s, e) && Owed(s, e)
    ensures Known(DoFiber(s, a, st), e) && Owed(DoFiber(s, a, st), e)
  {
    hide Good, Owed, DoFiber, CanFiber;
    StepExact(s, Fiber(a, st), e);
  }

  lemma NotifyOwed(j: Joint, a: int, e: int)
    requires Good(j.s) && CanMove(j, Notify(a)) && Known(j.s, e) && Owed(j.s, e)
    ensures Known(Moved(j, Notify(a)).s, e) && Owed(Moved(j, Notify(a)).s, e)
  {
    hide Good, Owed, DoSig, CanSig;
    StepExact(j.s, Signaller(a, SigNotify), e);
    assert Moved(j, Notify(a)).s == DoSig(j.s, a, SigNotify);
  }

  // What a move is for the events: nothing, one step, or several of them that queue fibers.
  lemma MoveOwed(j: Joint, m: Move, e: int)
    requires JointInv(j) && CanMove(j, m) && Known(j.s, e) && Owed(j.s, e)
    requires Spares(j, m, e)
    ensures Known(Moved(j, m).s, e) && Owed(Moved(j, m).s, e)
  {
    hide Owed, Can, Do, Good;
    match m
    case Plain(st) => StepExact(j.s, st, e);
    case Suspend(a, _) => ParkOwed(j.s, a, Park, e);
    case Return(a) => ParkOwed(j.s, a, Resume, e);
    case Notify(a) => NotifyOwed(j, a, e);
    case Expire(k, _, agents) => QueueEachOwed(j.s, k, agents, e);
    case _ =>
  }

  lemma {:induction false} QueueEachKinds(s: State, agents: seq<int>)
    ensures QueueEach(s, agents).ev == s.ev
    decreases |agents|
  {
    if agents != [] {
      QueueEachKinds(if CanFiber(s, agents[0], Queue) then DoFiber(s, agents[0], Queue) else s, agents[1..]);
    }
  }

  lemma MoveKinds(j: Joint, m: Move, e: int)
    requires JointInv(j) && CanMove(j, m) && Known(j.s, e)
    ensures Known(Moved(j, m).s, e) && Moved(j, m).s.ev[e].kind == j.s.ev[e].kind
  {
    hide Can, Do, JointInv;
    match m
    case Plain(st) => StepKinds(j.s, st);
    case Notify(a) => StepKinds(j.s, Signaller(a, SigNotify));
    case Expire(_, _, agents) => QueueEachKinds(j.s, agents);
    case _ =>
  }

  lemma OnlyPlainMakes(j: Joint, m: Move)
    requires JointInv(j) && CanMove(j, m) && !m.Plain?
    ensures |Moved(j, m).s.ev| == |j.s.ev|
  {
    hide Can, Do, JointInv;
    match m
    case Notify(a) => StepKinds(j.s, Signaller(a, SigNotify));
    case Expire(_, _, agents) => QueueEachKinds(j.s, agents);
    case _ =>
  }

  lemma PlainMakes(j: Joint, st: Step, e: int)
    requires Good(j.s) && CanMove(j, Plain(st)) && !Known(j.s, e) && Known(Moved(j, Plain(st)).s, e)
    ensures Owed(Moved(j, Plain(st)).s, e)
  {
    hide Can, Do, Owed, Good;
    NewcomerOwed(j.s, st, e);
  }

  // A new primitive has no waiter yet.
  lemma MoveMakes(j: Joint, m: Move, e: int)
    requires JointInv(j) && CanMove(j, m) && !Known(j.s, e) && Known(Moved(j, m).s, e)
    ensures Owed(Moved(j, m).s, e)
  {
    hide CanMove, Moved, Owed, Good;
    if m.Plain? { PlainMakes(j, m.st, e); } else { OnlyPlainMakes(j, m); }
  }

  lemma ManualUnharmed(s: State, st: Step, e: int)
    requires Can(s, st) && Known(s, e) && s.ev[e].kind.Manual?
    ensures !Harmful(s, st, e)
  {}

  lemma NoneAtFirst(js: seq<Joint>, ms: seq<Move>, e: int)
    requires JointRun(js, ms)
    ensures |js| > 0 && !Known(js[0].s, e)
  {
    hide CanMove, Moved;
  }

  // The same as for the events alone, over joint runs
  lemma {:induction false} JointOwed(js: seq<Joint>, ms: seq<Move>, e: int, k: nat)
    requires JointRun(js, ms) && k <= |ms| < |js| && Known(js[k].s, e)
    requires js[k].s.ev[e].kind.Manual? || JointSpared(js, ms, e, k)
    ensures Owed(js[k].s, e)
  {
    hide JointRun, JointInv, Owed, CanMove, Moved, JointSpared, Known;
    NoneAtFirst(js, ms, e);
    if k > 0 {
      JointRunKeeps(js, ms, k - 1);
      MoveOf(js, ms, k - 1);
      var j, m := js[k - 1], ms[k - 1];
      if Known(j.s, e) {
        SparedMove(js, ms, e, k);
        JointOwed(js, ms, e, k - 1);
        MoveOwed(j, m, e);
      } else {
        MoveMakes(j, m, e);
      }
    }
  }

  lemma MoveOf(js: seq<Joint>, ms: seq<Move>, k: nat)
    requires JointRun(js, ms) && k < |ms|
    ensures |js| == |ms| + 1 && CanMove(js[k], ms[k]) && Moved(js[k], ms[k]) == js[k + 1]
  {
    hide CanMove, Moved;
  }

  // The last move spares the primitive, and so do those before.
  lemma SparedMove(js: seq<Joint>, ms: seq<Move>, e: int, k: nat)
    requires JointRun(js, ms) && 0 < k <= |ms| < |js| && Known(js[k].s, e) && Known(js[k - 1].s, e)
    requires js[k].s.ev[e].kind.Manual? || JointSpared(js, ms, e, k)
    ensures js[k - 1].s.ev[e].kind.Manual? || JointSpared(js, ms, e, k - 1)
    ensures CanMove(js[k - 1], ms[k - 1]) && Spares(js[k - 1], ms[k - 1], e)
  {
    hide JointRun, JointInv, JointSpared, Spares, CanMove, Moved;
    var j, m := js[k - 1], ms[k - 1];
    JointRunKeeps(js, ms, k - 1);
    MoveOf(js, ms, k - 1);
    MoveKinds(j, m, e);
    if j.s.ev[e].kind.Manual? { ManualMoveSpares(j, m, e); } else { SparedBefore(js, ms, e, k); }
  }

  ghost predicate Spares(j: Joint, m: Move, e: int)
    requires CanMove(j, m) && Known(j.s, e)
  {
    m.Plain? ==> !Harmful(j.s, m.st, e)
  }

  lemma ManualMoveSpares(j: Joint, m: Move, e: int)
    requires CanMove(j, m) && Known(j.s, e) && j.s.ev[e].kind.Manual?
    ensures Spares(j, m, e)
  {
    hide Harmful, CanMove;
    if m.Plain? { PlainUnharmed(j, m.st, e); }
  }

  lemma SparedBefore(js: seq<Joint>, ms: seq<Move>, e: int, k: nat)
    requires 0 < k <= |ms| < |js| && CanMove(js[k - 1], ms[k - 1]) && Known(js[k - 1].s, e) && JointSpared(js, ms, e, k)
    ensures JointSpared(js, ms, e, k - 1) && Spares(js[k - 1], ms[k - 1], e)
  {
    hide Harmful, CanMove, Known;
  }

  lemma PlainUnharmed(j: Joint, st: Step, e: int)
    requires CanMove(j, Plain(st)) && Known(j.s, e) && j.s.ev[e].kind.Manual?
    ensures !Harmful(j.s, st, e)
  {
    hide Can, Harmful;
    ManualUnharmed(j.s, st, e);
  }

  /** The fiber of the agent is executing, or in the queue of its worker, or just taken off it; and the worker is awake
      or owed a notification. */
  ghost predicate Runs(j: Joint, a: int) {
    && a in j.s.worker && 0 <= j.s.worker[a] < |j.ws| && a in j.fiber
    && var w, f := j.ws[j.s.worker[a]], j.fiber[a];
       || Executes(w, f)
       || ((f in w.fs.ready || (f == w.fs.current && w.pc.BackInSuspend?))
           && (W.Asleep(w) ==> w.pendingNotify > 0))
  }

  // Who is in an operation and not parked, or queued, runs.
  lemma AwakeRuns(j: Joint, a: int)
    requires JointInv(j) && a in j.s.worker
    requires Engaged(At(j.s, a)) || (At(j.s, a).WParked? && At(j.s, a).queued)
    ensures Runs(j, a)
  {
    TieOf(j, a);
    InvOf(j, j.s.worker[a]);
    hide JointInv;
    if At(j.s, a).WParked? { QueuedRuns(j.ws[j.s.worker[a]], j.fiber[a]); }
    hide W.Inv;
  }

  lemma QueuedRuns(w: W.Worker, f: int)
    requires W.Inv(w) && f in w.fs.tag && w.fs.tag[f] == W.Queued
    ensures f in w.fs.ready || (f == w.fs.current && w.pc.BackInSuspend?)
    ensures W.Asleep(w) ==> w.pendingNotify > 0
  {}

  // Nobody is in the middle of notifying the waiters of e.
  ghost predicate Announced(s: State, e: int)
    requires Known(s, e)
  {
    forall b :: TopIs(At(s, b), e) ==>
      var ph := At(s, b).stack.top.ph; ph.SDeps? || ph.APush? || ph.ALock? || (ph.SLock? && !s.ev[e].kind.Group?)
  }

  /** In every run: when a manual event is signalled, or a group is at zero to which no step has been harmful, and
      nobody is in the middle of notifying, each fiber that waits on it runs. */
  lemma SatisfiedFiberRuns(js: seq<Joint>, ms: seq<Move>, k: nat, e: int, a: int)
    requires JointRun(js, ms) && k <= |ms| < |js| && Known(js[k].s, e) && Pred(js[k].s.ev[e])
    requires js[k].s.ev[e].kind.Manual? || (js[k].s.ev[e].kind.Group? && JointSpared(js, ms, e, k))
    requires a in js[k].s.worker && Counted(At(js[k].s, a), e) && Announced(js[k].s, e)
    ensures Runs(js[k], a)
  {
    JointRunKeeps(js, ms, k);
    JointOwed(js, ms, e, k);
    hide JointRun, JointSpared, Owed, Pred, Runs;
    assert Good(js[k].s);
    hide Good, JointInv, Announced;
    OwedIsServed(js[k].s, e, a);
    ServedIsAwake(js[k].s, e, a);
    AwakeRuns(js[k], a);
  }

  lemma ServedIsAwake(s: State, e: int, a: int)
    requires Good(s) && Known(s, e) && a in s.worker && Counted(At(s, a), e) && Announced(s, e)
    requires Aware(At(s, a), e) || (exists b :: Owes(s, b, a, e)) || At(s, a) == WDelist(e, false)
    ensures Engaged(At(s, a)) || (At(s, a).WParked? && At(s, a).queued)
  {
    assert GoodPc(s, a);
    hide Good;
  }

  /** While an automatic event to which no step has been harmful is signalled, and nobody is in the middle of notifying,
      some waiter runs: a fiber as above, or a thread that is awake; unless the waiter at hand is giving up. */
  lemma SomeSatisfiedWaiterRuns(js: seq<Joint>, ms: seq<Move>, k: nat, e: int, a: int)
    requires JointRun(js, ms) && k <= |ms| < |js| && Known(js[k].s, e) && JointSpared(js, ms, e, k)
    requires js[k].s.ev[e].kind.Auto? && js[k].s.ev[e].signalled && Counted(At(js[k].s, a), e)
    requires forall b :: !Notifying(js[k].s, b, e)
    ensures At(js[k].s, a) == WDelist(e, false)
            || exists c :: Aware(At(js[k].s, c), e) && (c in js[k].s.worker ==> Runs(js[k], c))
  {
    JointRunKeeps(js, ms, k);
    JointOwed(js, ms, e, k);
    hide JointRun, JointSpared, Owed, Runs;
    assert Good(js[k].s);
    hide Good, JointInv, Notifying;
    OneOwedIsServed(js[k].s, e, a);
    if c :| Aware(At(js[k].s, c), e) {
      if c in js[k].s.worker {
        AwareFiber(js[k].s, c, e);
        AwakeRuns(js[k], c);
      }
    }
  }

  lemma AwareFiber(s: State, c: int, e: int)
    requires Good(s) && Aware(At(s, c), e) && c in s.worker
    ensures Engaged(At(s, c)) || (At(s, c).WParked? && At(s, c).queued)
  {
    assert GoodPc(s, c);
  }
}
