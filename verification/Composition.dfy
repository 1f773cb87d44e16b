/** Events and workers together: the fibers that wait in module Events are fibers of the workers of module Workers. A
    wait that parks suspends its fiber, a notification queues it, its return resumes it; each is one step of both. */
module Compositions {
  import opened Wrappers
  import opened Collections
  import opened Timeouts
  import opened Events
  import opened EventLocks
  import opened EventBooks
  import opened EventWakeups
  import opened EventWakeSteps
  import W = Workers
  import P = WorkerProofs

  // Agent a of the events, if it is on a worker, is fiber fiber[a] of that worker.
  datatype Joint = Joint(s: State, ws: seq<W.Worker>, fiber: map<int, int>)

  // In the middle of an operation, and running.
  predicate Engaged(p: Pc) {
    || p.WLock? || p.WEnlist? || p.WLoop? || p.WWork? || p.WBoth? || p.WPark? || p.WRelock? || p.WDelist?
    || p.Sig? || p.AnyNext?
  }

  predicate Executes(w: W.Worker, f: int) {
    w.fs.current == f && w.pc.InTask?
  }

  /** What the control point of an agent in an operation says about its fiber. */
  predicate Tied(p: Pc, w: W.Worker, f: int) {
    if p.WParked? then
      f in w.fs.tag && w.fs.tag[f] == (if p.queued then W.Queued else if p.timed then W.Waiting else W.Yielded)
    else Engaged(p) ==> Executes(w, f)
  }

  ghost predicate Placed(j: Joint) {
    && (forall a :: a in j.s.worker ==> 0 <= j.s.worker[a] < |j.ws| && a in j.fiber)
    && (forall a, b :: a in j.s.worker && b in j.s.worker && j.s.worker[a] == j.s.worker[b] && a != b ==>
          a in j.fiber && b in j.fiber && j.fiber[a] != j.fiber[b])
  }

  ghost predicate AllTied(j: Joint) {
    forall a :: a in j.s.worker ==>
      0 <= j.s.worker[a] < |j.ws| && a in j.fiber && Tied(At(j.s, a), j.ws[j.s.worker[a]], j.fiber[a])
  }

  ghost predicate InvAll(ws: seq<W.Worker>) {
    forall k :: 0 <= k < |ws| ==> W.Inv(ws[k])
  }

  // A mutex of a worker that an agent holds, it holds on the fiber that the worker executes; so the worker's own thread
  // does not hold it.
  ghost predicate MutexTied(j: Joint) {
    forall k :: Wk(k) in j.s.mx ==>
      OnWorker(j, j.s.mx[Wk(k)], k) && Executes(j.ws[k], j.fiber[j.s.mx[Wk(k)]]) && W.Unlocked(j.ws[k].pc)
  }

  ghost predicate Ties(j: Joint) {
    Good(j.s) && Placed(j) && InvAll(j.ws) && AllTied(j)
  }

  ghost predicate JointInv(j: Joint) {
    Ties(j) && MutexTied(j)
  }

  // What happens to a worker without moving a fiber: others queue and steal tasks, and wake it.
  datatype Outer = Submit(t: W.Task) | GiveAway | Receive(t: W.Task) | Wake

  predicate CanOuter(w: W.Worker, o: Outer) {
    match o
    case Submit(_) => W.Unlocked(w.pc)
    case GiveAway => W.Stealable(w)
    case Receive(_) => w.pc.Spin?
    case Wake => w.pendingNotify > 0
  }

  function DoOuter(w: W.Worker, o: Outer): W.Worker
    requires CanOuter(w, o)
  {
    match o
    case Submit(t) => W.PushTask(w, t)
    case GiveAway => W.StealFront(w)
    case Receive(t) => W.Grant(w, t)
    case Wake => W.Deliver(w)
  }

  datatype Move =
    | Plain(st: Step)                         // of the events; no fiber is moved
    | Own(k: int, own: W.Step)                // of a worker; no fiber in a wait is moved
    | Around(k: int, o: Outer)
    | Suspend(a: int, deadline: Option<Time>)    // suspend() inside a wait
    | Return(a: int)                          // suspend() returns there
    | Notify(a: int)                          // agent a notifies its next target
    | Expire(k: int, now: Time, agents: seq<int>)  // deadlines have passed, among others of the waits of these agents

  // The step is a notification that has a target.
  predicate Notifies(s: State, st: Step) {
    st.Signaller? && st.sig.SigNotify? && InFrame(s, st.a) && At(s, st.a).stack.top.ph.SNotify?
    && HasTarget(s.ev[At(s, st.a).stack.top.e], At(s, st.a).stack.top.ph.k)
  }

  predicate MovesFiber(s: State, st: Step) {
    (st.Fiber? && (st.fiber.Park? || st.fiber.Queue? || st.fiber.Resume?)) || Notifies(s, st)
  }

  function NextTarget(s: State, a: int): int
    requires Notifies(s, Signaller(a, SigNotify))
  {
    Target(s.ev[At(s, a).stack.top.e], At(s, a).stack.top.ph.k)
  }

  // An agent on a fiber takes its steps while its fiber executes.
  ghost predicate Running(j: Joint, st: Step) {
    !st.NewPrim? && st.a in j.s.worker ==>
      0 <= j.s.worker[st.a] < |j.ws| && st.a in j.fiber && Executes(j.ws[j.s.worker[st.a]], j.fiber[st.a])
  }

  ghost predicate OnWorker(j: Joint, a: int, k: int) {
    a in j.s.worker && j.s.worker[a] == k && 0 <= k < |j.ws| && a in j.fiber
  }

  // A fiber does not leave its task, nor suspend itself elsewhere, in the middle of an operation.
  ghost predicate Allowed(j: Joint, k: int, st: W.Step) {
    && !st.MoveTimeouts?
    && forall a :: OnWorker(j, a, k) && 0 <= k < |j.ws| && j.fiber[a] == j.ws[k].fs.current ==>
         (j.ws[k].pc.InTask? ==> !Engaged(At(j.s, a))) && (st.ReturnFromSuspend? ==> !At(j.s, a).WParked?)
  }

  // The wait of agent a on worker k is over its deadline.
  ghost predicate Expired(j: Joint, a: int, k: int, now: Time) {
    OnWorker(j, a, k) && At(j.s, a).WParked? && j.fiber[a] in Timeouts.Due(j.ws[k].fs.waiting.timeouts, now)
  }

  // Each in turn is queued.
  function QueueEach(s: State, agents: seq<int>): State
    decreases |agents|
  {
    if agents == [] then s
    else QueueEach(if CanFiber(s, agents[0], Queue) then DoFiber(s, agents[0], Queue) else s, agents[1..])
  }

  // Worker::enqueue(Fiber*)
  function Pushed(w: W.Worker, f: int): W.Worker {
    if f in w.fs.tag then W.PushFiber(w, f) else w
  }

  ghost predicate CanMove(j: Joint, m: Move) {
    match m
    case Plain(st) => Can(j.s, st) && !MovesFiber(j.s, st) && Running(j, st)
    case Own(k, st) => 0 <= k < |j.ws| && W.Enabled(j.ws[k], st) && Allowed(j, k, st)
    case Around(k, o) =>
      0 <= k < |j.ws| && CanOuter(j.ws[k], o) && (o.Submit? || o.GiveAway? ==> Free(j.s, Wk(k)))
    case Suspend(a, deadline) =>
      && a in j.s.worker && At(j.s, a).WPark? && (deadline.Some? <==> At(j.s, a).timed)
      && OnWorker(j, a, j.s.worker[a]) && Executes(j.ws[j.s.worker[a]], j.fiber[a])
    case Return(a) =>
      && a in j.s.worker && CanFiber(j.s, a, Resume) && OnWorker(j, a, j.s.worker[a])
      && j.ws[j.s.worker[a]].pc.BackInSuspend? && j.ws[j.s.worker[a]].fs.current == j.fiber[a]
    case Notify(a) =>
      && Can(j.s, Signaller(a, SigNotify)) && Notifies(j.s, Signaller(a, SigNotify))
      && Running(j, Signaller(a, SigNotify))
      && var t := NextTarget(j.s, a);
         OnWorker(j, t, if t in j.s.worker then j.s.worker[t] else 0) ==> W.Unlocked(j.ws[j.s.worker[t]].pc)
    case Expire(k, now, agents) =>
      && 0 <= k < |j.ws| && j.ws[k].pc.MoveDue? && Free(j.s, Wk(k))
      && NoDup(agents) && forall a :: a in agents <==> Expired(j, a, k, now)
  }

  ghost function Moved(j: Joint, m: Move): Joint
    requires CanMove(j, m)
  {
    match m
    case Plain(st) => j.(s := Do(j.s, st))
    case Own(k, st) => j.(ws := j.ws[k := W.Apply(j.ws[k], st)])
    case Around(k, o) => j.(ws := j.ws[k := DoOuter(j.ws[k], o)])
    case Suspend(a, deadline) => Parked(j, a, deadline)
    case Return(a) => Returned(j, a)
    case Notify(a) => Notified(j, a, NextTarget(j.s, a))
    case Expire(k, now, agents) => j.(s := QueueEach(j.s, agents), ws := j.ws[k := W.DoMoveTimeouts(j.ws[k], now)])
  }

  function Parked(j: Joint, a: int, deadline: Option<Time>): Joint
    requires a in j.s.worker && At(j.s, a).WPark? && 0 <= j.s.worker[a] < |j.ws| && j.ws[j.s.worker[a]].pc.InTask?
  {
    var k := j.s.worker[a];
    j.(s := DoFiber(j.s, a, Park), ws := j.ws[k := W.DoSuspendTask(j.ws[k], deadline)])
  }

  function Returned(j: Joint, a: int): Joint
    requires a in j.s.worker && CanFiber(j.s, a, Resume) && 0 <= j.s.worker[a] < |j.ws|
    requires j.ws[j.s.worker[a]].pc.BackInSuspend?
  {
    var k := j.s.worker[a];
    j.(s := DoFiber(j.s, a, Resume), ws := j.ws[k := W.DoReturnFromSuspend(j.ws[k])])
  }

  ghost function Notified(j: Joint, a: int, t: int): Joint
    requires CanSig(j.s, a, SigNotify)
  {
    var u := DoSig(j.s, a, SigNotify);
    if t in j.s.worker && 0 <= j.s.worker[t] < |j.ws| && t in j.fiber then
      var k := j.s.worker[t];
      j.(s := u, ws := j.ws[k := Pushed(j.ws[k], j.fiber[t])])
    else j.(s := u)
  }

  // ---------------------------------------------------------------------------------------------
  // Ties
  // ---------------------------------------------------------------------------------------------

  lemma OwnTied(w: W.Worker, st: W.Step, p: Pc, f: int)
    requires W.Inv(w) && W.Enabled(w, st) && Tied(p, w, f) && !st.MoveTimeouts?
    requires f == w.fs.current ==> (w.pc.InTask? ==> !Engaged(p)) && (st.ReturnFromSuspend? ==> !p.WParked?)
    ensures Tied(p, W.Apply(w, st), f)
  {
    P.TagProtocol(w, st, f);
    hide W.Inv, W.Apply, W.Enabled;
  }

  lemma OuterTied(w: W.Worker, o: Outer, p: Pc, f: int)
    requires CanOuter(w, o) && Tied(p, w, f)
    ensures Tied(p, DoOuter(w, o), f)
  {}

  lemma OuterKeeps(w: W.Worker, o: Outer)
    requires W.Inv(w) && CanOuter(w, o)
    ensures W.Inv(DoOuter(w, o))
  {
    hide W.Inv;
    match o
    case Submit(t) => P.PushTaskKeeps(w, t);
    case GiveAway => P.StealKeeps(w);
    case Receive(t) => P.GrantKeeps(w, t);
    case Wake => P.DeliverKeeps(w);
  }

  // The target of a notification is never idle: that is what keeps its worker in order.
  lemma PushedTied(w: W.Worker, p: Pc, f: int)
    requires W.Inv(w) && W.Unlocked(w.pc) && Tied(p, w, f) && (Engaged(p) || p.WParked?)
    ensures f in w.fs.tag && w.fs.tag[f] != W.Idle
    ensures W.Inv(Pushed(w, f))
    ensures Tied(if p.WParked? then p.(queued := true) else p, Pushed(w, f), f)
  {
    ExecutingRuns(w, f);
    P.PushFiberKeepsIff(w, f);
    P.NotifiedTags(w, f, f);
    hide W.Inv;
  }

  lemma ExecutingRuns(w: W.Worker, f: int)
    requires W.Inv(w)
    ensures Executes(w, f) ==> f in w.fs.tag && w.fs.tag[f] == W.Running
  {}

  // Another fiber of the same worker is left alone.
  lemma PushedOther(w: W.Worker, f: int, p: Pc, g: int)
    requires W.Inv(w) && W.Unlocked(w.pc) && f in w.fs.tag && w.fs.tag[f] != W.Idle && g != f && Tied(p, w, g)
    ensures Tied(p, Pushed(w, f), g)
  {
    if g in w.fs.tag { P.NotifiedTags(w, f, g); }
    hide W.Inv;
  }

  lemma ParkTied(w: W.Worker, e: int, timed: bool, f: int, deadline: Option<Time>)
    requires W.Inv(w) && Executes(w, f) && (deadline.Some? <==> timed)
    ensures W.Inv(W.DoSuspendTask(w, deadline)) && Tied(WParked(e, timed, false), W.DoSuspendTask(w, deadline), f)
  {
    P.SuspendKeeps(w, deadline);
    hide W.Inv;
  }

  lemma ParkOther(w: W.Worker, f: int, deadline: Option<Time>, p: Pc, g: int)
    requires Executes(w, f) && g != f && Tied(p, w, g)
    ensures Tied(p, W.DoSuspendTask(w, deadline), g)
  {}

  lemma ReturnTied(w: W.Worker, p: Pc, f: int)
    requires W.Inv(w) && w.pc.BackInSuspend? && w.fs.current == f && Engaged(p)
    ensures W.Inv(W.DoReturnFromSuspend(w)) && Tied(p, W.DoReturnFromSuspend(w), f)
  {
    P.ReturnFromSuspendKeeps(w);
    hide W.Inv;
  }

  lemma ReturnOther(w: W.Worker, p: Pc, g: int)
    requires w.pc.BackInSuspend? && w.fs.current != g && Tied(p, w, g)
    ensures Tied(p, W.DoReturnFromSuspend(w), g)
  {}

  lemma ExpireTied(w: W.Worker, now: Time, p: Pc, f: int)
    requires W.Inv(w) && w.pc.MoveDue? && Tied(p, w, f)
    ensures var v, due := W.DoMoveTimeouts(w, now), f in Timeouts.Due(w.fs.waiting.timeouts, now);
            if due && p.WParked? then Tied(p.(queued := true), v, f) else Tied(p, v, f)
  {}

  // ---------------------------------------------------------------------------------------------
  // The part of the events
  // ---------------------------------------------------------------------------------------------

  lemma EventStep(s: State, st: Step)
    requires Good(s) && Can(s, st)
    ensures Good(Do(s, st)) && Do(s, st).worker == s.worker
  {
    StepGood(s, st);
    StepKinds(s, st);
  }

  // Only the agent moves, or sleeping threads are woken; nobody comes to be parked.
  ghost predicate Mild(s: State, u: State, a: int) {
    forall b :: At(u, b) == At(s, b) || (b == a && !At(u, b).WParked?) || (At(s, b).TSleep? && At(u, b).TSleep?)
  }

  lemma FiberMild(s: State, a: int, st: FiberStep)
    requires CanFiber(s, a, st) && !st.Park? && !st.Queue? && !st.Resume?
    ensures Mild(s, DoFiber(s, a, st), a)
  {}

  lemma ThreadMild(s: State, a: int, st: ThreadStep)
    requires CanThread(s, a, st)
    ensures Mild(s, DoThread(s, a, st), a)
  {}

  lemma UserMild(s: State, a: int, st: UserStep)
    requires CanUser(s, a, st)
    ensures Mild(s, DoUser(s, a, st), a)
  {}

  lemma SigMild(s: State, a: int, st: SigStep)
    requires CanSig(s, a, st) && !Notifies(s, Signaller(a, st))
    ensures Mild(s, DoSig(s, a, st), a)
  {
    hide Mild, Roused;
    var p := At(s, a);
    if st.SigCond? {
      CondMild(s, a, p.stack.top.e, st.lucky, p.stack.below, p.ret);
    } else if st.SigNotify? {
      NoTargetMild(s, a, p.stack.top.e, p.stack.top.ph.k, p.stack.below, p.ret);
    } else {
      SigMoves(s, a, st);
      hide DoSig, CanSig;
      MoveMild(s, DoSig(s, a, st), a);
    }
  }

  lemma MoveMild(s: State, u: State, a: int)
    requires a in u.pc && u.pc == s.pc[a := u.pc[a]] && Signalling(At(u, a))
    ensures Mild(s, u, a)
  {}

  lemma NoTargetMild(s: State, a: int, e: int, k: int, below: Stack, ret: Return)
    requires Known(s, e) && !HasTarget(s.ev[e], k)
    ensures Mild(s, DoSigNotify(s, a, e, k, below, ret), a)
  {
    hide HasTarget;
  }

  lemma CondMild(s: State, a: int, e: int, lucky: int, below: Stack, ret: Return)
    requires Known(s, e)
    ensures Mild(s, DoSigCond(s, a, e, lucky, below, ret), a)
  {
    RousedStirs(s, e, lucky);
    hide Roused;
  }

  lemma PlainMild(s: State, st: Step)
    requires Can(s, st) && !MovesFiber(s, st)
    ensures Mild(s, Do(s, st), if st.NewPrim? then 0 else st.a)
  {
    hide CanFiber, CanThread, CanSig, CanUser, DoFiber, DoThread, DoSig, DoUser, Mild;
    match st
    case Fiber(a, f) => FiberMild(s, a, f);
    case Thread(a, t) => ThreadMild(s, a, t);
    case Signaller(a, g) => SigMild(s, a, g);
    case User(a, o) => UserMild(s, a, o);
    case NewPrim(p) => NewMild(s, p);
  }

  lemma NewMild(s: State, p: Prim)
    ensures Mild(s, s.(ev := s.ev + [p]), 0)
  {}

  // Of a notification: its target is queued if it is parked, and nobody else is moved but the notifier.
  lemma NotifyMoves(s: State, a: int)
    requires Can(s, Signaller(a, SigNotify)) && Notifies(s, Signaller(a, SigNotify)) && Lists(s)
    ensures var t, u := NextTarget(s, a), DoSig(s, a, SigNotify);
            && t != a && (Engaged(At(s, t)) || At(s, t).WParked?) && At(s, a).Sig? && At(u, a).Sig?
            && At(u, t) == (if At(s, t).WParked? then At(s, t).(queued := true) else At(s, t))
            && forall b :: b != a && b != t ==> At(u, b) == At(s, b)
  {
    TargetListed(s, a);
    var p, t := At(s, a), NextTarget(s, a);
    var e, k := p.stack.top.e, p.stack.top.ph.k;
    EnqueuedAt(s, t);
    hide Enqueued, Lists, NextTarget, Target, Notifies, CanSig;
    assert t == Target(s.ev[e], k);
    NotifyAt(s, a, e, k, p.stack.below, p.ret);
  }

  lemma TargetListed(s: State, a: int)
    requires Notifies(s, Signaller(a, SigNotify)) && Lists(s)
    ensures var t := NextTarget(s, a); t != a && (Engaged(At(s, t)) || At(s, t).WParked?)
  {
    var e, t := At(s, a).stack.top.e, NextTarget(s, a);
    assert t in s.ev[e].waiting;
    assert Listed(At(s, t), e);
  }

  lemma EnqueuedAt(s: State, t: int)
    ensures forall b :: At(Enqueued(s, t), b)
                        == if b == t && At(s, t).WParked? then At(s, t).(queued := true) else At(s, b)
  {}

  lemma NotifyAt(s: State, a: int, e: int, k: int, below: Stack, ret: Return)
    requires Known(s, e) && HasTarget(s.ev[e], k)
    ensures var u := DoSigNotify(s, a, e, k, below, ret);
            At(u, a).Sig? && forall b :: b != a ==> At(u, b) == At(Enqueued(s, Target(s.ev[e], k)), b)
  {
    hide Enqueued, Target, HasTarget;
  }

  lemma ParkEvents(s: State, a: int)
    requires Good(s) && At(s, a).WPark?
    ensures var u := DoFiber(s, a, Park);
            && Good(u) && u.worker == s.worker && At(u, a) == WParked(At(s, a).e, At(s, a).timed, false)
            && forall b :: b != a ==> At(u, b) == At(s, b)
  {
    EventStep(s, Fiber(a, Park));
    hide Good;
  }

  lemma ReturnEvents(s: State, a: int)
    requires Good(s) && CanFiber(s, a, Resume)
    ensures var u := DoFiber(s, a, Resume);
            && Good(u) && u.worker == s.worker && At(u, a) == WRelock(At(s, a).e, At(s, a).timed)
            && forall b :: b != a ==> At(u, b) == At(s, b)
  {
    EventStep(s, Fiber(a, Resume));
    hide Good;
  }

  // The target is on a fiber.
  lemma NotifyEvents(s: State, a: int)
    requires Good(s) && Can(s, Signaller(a, SigNotify)) && Notifies(s, Signaller(a, SigNotify))
    ensures var t, u := NextTarget(s, a), DoSig(s, a, SigNotify);
            && Good(u) && u.worker == s.worker && t in s.worker
            && t != a && (Engaged(At(s, t)) || At(s, t).WParked?) && At(s, a).Sig? && At(u, a).Sig?
            && At(u, t) == (if At(s, t).WParked? then At(s, t).(queued := true) else At(s, t))
            && forall b :: b != a && b != t ==> At(u, b) == At(s, b)
  {
    EventStep(s, Signaller(a, SigNotify));
    var t := NextTarget(s, a);
    assert GoodPc(s, t) && Lists(s);
    hide Good, Lists;
    NotifyMoves(s, a);
  }

  lemma {:induction false} QueueEachIs(s: State, k: int, agents: seq<int>)
    requires Good(s) && Free(s, Wk(k)) && NoDup(agents)
    requires forall a :: a in agents ==> At(s, a).WParked? && a in s.worker && s.worker[a] == k
    ensures var u := QueueEach(s, agents);
            && Good(u) && u.worker == s.worker
            && forall b :: At(u, b) == (if b in agents then At(s, b).(queued := true) else At(s, b))
    decreases |agents|
  {
    if agents != [] {
      var v := DoFiber(s, agents[0], Queue);
      assert CanFiber(s, agents[0], Queue);
      EventStep(s, Fiber(agents[0], Queue));
      hide Good;
      QueueEachIs(v, k, agents[1..]);
    }
  }

  // ---------------------------------------------------------------------------------------------
  // Every move
  // ---------------------------------------------------------------------------------------------

  // Workers but the k-th, and the tie of every agent, looked at one by one.
  lemma Assemble(j: Joint, u: Joint, k: int)
    requires Ties(j) && Good(u.s) && u.s.worker == j.s.worker && u.fiber == j.fiber
    requires |u.ws| == |j.ws| && (0 <= k < |j.ws| ==> W.Inv(u.ws[k]))
    requires forall i :: 0 <= i < |j.ws| && i != k ==> u.ws[i] == j.ws[i]
    requires forall a :: OnWorker(u, a, k) ==> Tied(At(u.s, a), u.ws[k], u.fiber[a])
    requires forall a :: a in j.s.worker && j.s.worker[a] != k ==> Tied(At(u.s, a), j.ws[j.s.worker[a]], j.fiber[a])
    ensures Ties(u)
  {
    hide Tied, W.Inv, Good;
    assert Placed(u);
    forall a | a in u.s.worker
      ensures 0 <= u.s.worker[a] < |u.ws| && a in u.fiber && Tied(At(u.s, a), u.ws[u.s.worker[a]], u.fiber[a])
    {
      assert u.s.worker[a] == k ==> OnWorker(u, a, k);
    }
  }

  lemma TieOf(j: Joint, a: int)
    requires AllTied(j) && a in j.s.worker
    ensures 0 <= j.s.worker[a] < |j.ws| && a in j.fiber && Tied(At(j.s, a), j.ws[j.s.worker[a]], j.fiber[a])
  {}

  lemma InvOf(j: Joint, k: int)
    requires InvAll(j.ws) && 0 <= k < |j.ws|
    ensures W.Inv(j.ws[k])
  {}

  lemma Apart(j: Joint, a: int, b: int)
    requires Placed(j) && a in j.s.worker && b in j.s.worker && j.s.worker[a] == j.s.worker[b] && a != b
    ensures a in j.fiber && b in j.fiber && j.fiber[a] != j.fiber[b]
  {}

  lemma PlainKeeps(j: Joint, st: Step)
    requires Ties(j) && CanMove(j, Plain(st))
    ensures Ties(Moved(j, Plain(st)))
  {
    var u := Moved(j, Plain(st));
    hide Good, Can, Do, Tied;
    EventStep(j.s, st);
    PlainMild(j.s, st);
    forall a | a in j.s.worker ensures Tied(At(u.s, a), j.ws[j.s.worker[a]], j.fiber[a]) {
      TieOf(j, a);
      MildTied(j.s, u.s, if st.NewPrim? then 0 else st.a, a, j.ws[j.s.worker[a]], j.fiber[a]);
    }
    Assemble(j, u, -1);
  }

  lemma MildTied(s: State, u: State, a: int, b: int, w: W.Worker, f: int)
    requires Mild(s, u, a) && Tied(At(s, b), w, f) && (b == a ==> Executes(w, f) || At(u, b) == At(s, b))
    ensures Tied(At(u, b), w, f)
  {}

  lemma OwnKeeps(j: Joint, k: int, st: W.Step)
    requires Ties(j) && CanMove(j, Own(k, st))
    ensures Ties(Moved(j, Own(k, st)))
  {
    var u := Moved(j, Own(k, st));
    InvOf(j, k);
    hide Good, W.Inv, W.Apply, W.Enabled, Tied;
    P.StepKeeps(j.ws[k], st);
    forall a | OnWorker(u, a, k) ensures Tied(At(u.s, a), u.ws[k], u.fiber[a]) {
      TieOf(j, a);
      assert OnWorker(j, a, k);
      OwnTied(j.ws[k], st, At(j.s, a), j.fiber[a]);
    }
    Assemble(j, u, k);
  }

  lemma AroundKeeps(j: Joint, k: int, o: Outer)
    requires Ties(j) && CanMove(j, Around(k, o))
    ensures Ties(Moved(j, Around(k, o)))
  {
    var u := Moved(j, Around(k, o));
    InvOf(j, k);
    hide Good, W.Inv, DoOuter, CanOuter, Tied;
    OuterKeeps(j.ws[k], o);
    forall a | OnWorker(u, a, k) ensures Tied(At(u.s, a), u.ws[k], u.fiber[a]) {
      TieOf(j, a);
      OuterTied(j.ws[k], o, At(j.s, a), j.fiber[a]);
    }
    Assemble(j, u, k);
  }

  lemma SuspendKeeps(j: Joint, a: int, deadline: Option<Time>)
    requires Ties(j) && CanMove(j, Suspend(a, deadline))
    ensures Ties(Moved(j, Suspend(a, deadline)))
  {
    var k, p := j.s.worker[a], At(j.s, a);
    var u := Moved(j, Suspend(a, deadline));
    InvOf(j, k);
    ParkEvents(j.s, a);
    ParkTied(j.ws[k], p.e, p.timed, j.fiber[a], deadline);
    hide Good, W.Inv, W.DoSuspendTask, Tied, DoFiber;
    forall b | OnWorker(u, b, k) ensures Tied(At(u.s, b), u.ws[k], u.fiber[b]) {
      TieOf(j, b);
      if b != a {
        Apart(j, a, b);
        ParkOther(j.ws[k], j.fiber[a], deadline, At(j.s, b), j.fiber[b]);
      }
    }
    forall b | b in j.s.worker && j.s.worker[b] != k ensures Tied(At(u.s, b), j.ws[j.s.worker[b]], j.fiber[b]) {
      TieOf(j, b);
    }
    Assemble(j, u, k);
  }

  lemma ReturnKeeps(j: Joint, a: int)
    requires Ties(j) && CanMove(j, Return(a))
    ensures Ties(Moved(j, Return(a)))
  {
    var k, p := j.s.worker[a], At(j.s, a);
    var u := Moved(j, Return(a));
    InvOf(j, k);
    ReturnEvents(j.s, a);
    ReturnTied(j.ws[k], At(u.s, a), j.fiber[a]);
    hide Good, W.Inv, W.DoReturnFromSuspend, Tied, DoFiber;
    forall b | OnWorker(u, b, k) ensures Tied(At(u.s, b), u.ws[k], u.fiber[b]) {
      TieOf(j, b);
      if b != a {
        Apart(j, a, b);
        ReturnOther(j.ws[k], At(j.s, b), j.fiber[b]);
      }
    }
    forall b | b in j.s.worker && j.s.worker[b] != k ensures Tied(At(u.s, b), j.ws[j.s.worker[b]], j.fiber[b]) {
      TieOf(j, b);
    }
    Assemble(j, u, k);
  }

  lemma ExpireKeeps(j: Joint, k: int, now: Time, agents: seq<int>)
    requires Ties(j) && CanMove(j, Expire(k, now, agents))
    ensures Ties(Moved(j, Expire(k, now, agents)))
  {
    var u := Moved(j, Expire(k, now, agents));
    InvOf(j, k);
    QueueEachIs(j.s, k, agents);
    P.MoveTimeoutsKeeps(j.ws[k], now);
    hide Good, W.Inv, W.DoMoveTimeouts, Tied, QueueEach;
    forall b | OnWorker(u, b, k) ensures Tied(At(u.s, b), u.ws[k], u.fiber[b]) {
      TieOf(j, b);
      assert b in agents <==> Expired(j, b, k, now);
      ExpireTied(j.ws[k], now, At(j.s, b), j.fiber[b]);
    }
    forall b | b in j.s.worker && j.s.worker[b] != k ensures Tied(At(u.s, b), j.ws[j.s.worker[b]], j.fiber[b]) {
      TieOf(j, b);
      assert b in agents <==> Expired(j, b, k, now);
    }
    Assemble(j, u, k);
  }

  lemma NotifyKeeps(j: Joint, a: int)
    requires Ties(j) && CanMove(j, Notify(a))
    ensures Ties(Moved(j, Notify(a)))
    ensures var t := NextTarget(j.s, a);
            && t in j.s.worker && 0 <= j.s.worker[t] < |j.ws| && t in j.fiber
            && j.fiber[t] in j.ws[j.s.worker[t]].fs.tag && j.ws[j.s.worker[t]].fs.tag[j.fiber[t]] != W.Idle
  {
    NotifyEvents(j.s, a);
    var t := NextTarget(j.s, a);
    TieOf(j, t);
    var k, f := j.s.worker[t], j.fiber[t];
    assert OnWorker(j, t, k);
    var u := Moved(j, Notify(a));
    hide Good, DoSig, CanSig, Can, NextTarget, Notifies;
    InvOf(j, k);
    PushedTied(j.ws[k], At(j.s, t), f);
    hide W.Inv, Pushed, Tied;
    forall b | OnWorker(u, b, k) ensures Tied(At(u.s, b), u.ws[k], u.fiber[b]) {
      TieOf(j, b);
      if b == a {
        SignallerTied(At(j.s, a), At(u.s, a), j.ws[k], f, j.fiber[a]);
      } else if b != t {
        Apart(j, t, b);
        PushedOther(j.ws[k], f, At(j.s, b), j.fiber[b]);
      }
    }
    forall b | b in j.s.worker && j.s.worker[b] != k ensures Tied(At(u.s, b), j.ws[j.s.worker[b]], j.fiber[b]) {
      TieOf(j, b);
      if b == a { BothSignal(At(j.s, a), At(u.s, a), j.ws[j.s.worker[a]], j.fiber[a]); }
    }
    Assemble(j, u, k);
  }

  // The notifier goes on executing, on whatever worker.
  lemma SignallerTied(p: Pc, q: Pc, w: W.Worker, f: int, g: int)
    requires p.Sig? && q.Sig? && Tied(p, w, g)
    ensures Tied(q, Pushed(w, f), g)
  {}

  lemma BothSignal(p: Pc, q: Pc, w: W.Worker, g: int)
    requires p.Sig? && q.Sig? && Tied(p, w, g)
    ensures Tied(q, w, g)
  {}

  // Who holds the mutex of a worker is in a wait on a fiber of that worker, about to park.
  lemma TiesTieMutex(j: Joint)
    requires Ties(j)
    ensures MutexTied(j)
  {
    forall k | Wk(k) in j.s.mx
      ensures OnWorker(j, j.s.mx[Wk(k)], k) && Executes(j.ws[k], j.fiber[j.s.mx[Wk(k)]]) && W.Unlocked(j.ws[k].pc)
    {
      var a := j.s.mx[Wk(k)];
      HolderWaits(j.s, a, k);
      hide Good, InvAll;
      TieOf(j, a);
    }
  }

  lemma HolderWaits(s: State, a: int, k: int)
    requires Good(s) && Wk(k) in s.mx && s.mx[Wk(k)] == a
    ensures (At(s, a).WBoth? || At(s, a).WPark?) && a in s.worker && s.worker[a] == k
  {
    assert Holds(At(s, a), WorkOf(s, a), Wk(k));
    assert GoodPc(s, a);
    if At(s, a).Sig? { StackHoldsNoWorker(At(s, a).stack, k); }
  }

  lemma {:induction false} StackHoldsNoWorker(st: Stack, k: int)
    ensures !StackHolds(st, Wk(k))
  {
    if st.Push? { StackHoldsNoWorker(st.below, k); }
  }

  /** Every move of the joint system keeps both invariants and the ties between waits and fibers, and the work mutex has
      one holder among the agents and the worker's own thread. */
  lemma MoveKeeps(j: Joint, m: Move)
    requires JointInv(j) && CanMove(j, m)
    ensures JointInv(Moved(j, m))
  {
    hide Ties, MutexTied, CanMove, Moved;
    match m {
      case Plain(st) => PlainKeeps(j, st);
      case Own(k, st) => OwnKeeps(j, k, st);
      case Around(k, o) => AroundKeeps(j, k, o);
      case Suspend(a, deadline) => SuspendKeeps(j, a, deadline);
      case Return(a) => ReturnKeeps(j, a);
      case Notify(a) => NotifyKeeps(j, a);
      case Expire(k, now, agents) => ExpireKeeps(j, k, now, agents);
    }
    TiesTieMutex(Moved(j, m));
  }
}
