/** The invariant of the system over whole runs, and what it gives: conservation of tasks, SameThread tasks
    at home, sleepers that are owed a notification, and a destructor that returns only when all is done. */
module SystemRuns {
  import opened Wrappers
  import opened Collections
  import opened Workers
  import opened WorkerProofs
  import opened WorkerTasks
  import opened Systems
  import opened SystemProofs

  lemma InitGood(s: System)
    requires Init(s)
    ensures Good(s)
  {
    StartKeeps(MultiThreaded);
    StartTasks(MultiThreaded);
    hide Inv, InOrder, Carried, InHand;
    forall t, p ensures !At(s, t, p) {
      match p
      case InQueue(j) => assert 0 <= j < |s.ws| ==> s.ws[j] == Start(MultiThreaded);
      case Stolen(j) => assert 0 <= j < |s.ws| ==> s.ws[j] == Start(MultiThreaded);
      case OnFiber(j, f) => assert 0 <= j < |s.ws| ==> s.ws[j] == Start(MultiThreaded);
      case _ =>
    }
  }

  lemma StartTasks(mode: Mode)
    ensures InHand(Start(mode)) == None && forall f :: Carried(Start(mode), f) == None
    ensures InOrder(Start(mode))
  {
    var w := Start(mode);
    assert w.fs.resume == map[];
    assert forall f :: Carried(w, f) == None;
    hide Carried;
    assert w.log == w.log[0..];
  }

  // ---------------------------------------------------------------------------------------------
  // Every event keeps the invariant
  // ---------------------------------------------------------------------------------------------

  lemma OwnHome(s: System, i: int, st: Step)
    requires Good(s) && Can(s, Own(i, st))
    ensures AtHome(DoOwn(s, i, st))
  {
    hide Inv, InOrder, At, NoDup;
    match st
    case RunTask => RunTaskPlaced(s, i);
    case FinishTask => FinishTaskPlaced(s, i);
    case KeepStolen => KeepStolenPlaced(s, i);
    case _ =>
  }

  lemma OwnPhases(s: System, i: int, st: Step)
    requires Good(s) && Can(s, Own(i, st))
    ensures Phases(DoOwn(s, i, st))
  {
    ShutdownByTaskOrStop(s.ws[i], st);
    NotDone(s.ws[i], st);
    OwnKeepsTasks(s, i, st);
    hide Inv, InOrder, At, NoDup, Placed, NoDups, WorkersOk, AtHome, DoOwn, Apply, Enabled;
    if i < s.count { StopTaskAtHome(s, i, st); }
    PhasesKept(s, DoOwn(s, i, st), i, Apply(s.ws[i], st));
  }

  lemma PhasesKept(s: System, u: System, i: int, v: Worker)
    requires Phases(s) && 0 <= i < |s.ws| && !s.ws[i].pc.Done? && u.ws == s.ws[i := v]
    requires u.place.Keys == s.place.Keys && u.home == s.home && u.phase == s.phase && u.count == s.count
    requires u.flight == s.flight && (i < s.count && v.shutdown ==> Asked(s.phase, i))
    ensures Phases(u)
  {
    forall t | t in u.place ensures t in s.place {
      assert t in u.place.Keys;
    }
  }

  lemma NotDone(w: Worker, st: Step)
    requires Enabled(w, st)
    ensures !w.pc.Done?
  {}

  // A stop task that ends was put in this queue by the destructor.
  lemma StopTaskAtHome(s: System, i: int, st: Step)
    requires Good(s) && Can(s, Own(i, st)) && i < s.count
    ensures st.FinishTask? && s.ws[i].pc.carry.value.action == SetShutdown ==> Asked(s.phase, i)
  {
    hide Inv, InOrder, At, NoDup;
    if st.FinishTask? { FinishTaskPlaced(s, i); }
  }

  // A worker's own step moves tasks, but knows no new ones.
  lemma OwnKeepsTasks(s: System, i: int, st: Step)
    requires Good(s) && Can(s, Own(i, st))
    ensures var u := DoOwn(s, i, st);
            && u.place.Keys == s.place.Keys && u.home == s.home && u.phase == s.phase && u.count == s.count
            && u.flight == s.flight && u.ws == s.ws[i := Apply(s.ws[i], st)]
  {
    hide Inv, InOrder, At, NoDup, Apply, Phases, AtHome;
    match st
    case RunTask => RunTaskPlaced(s, i);
    case FinishTask => FinishTaskPlaced(s, i);
    case KeepStolen => KeepStolenPlaced(s, i);
    case _ =>
  }

  lemma Replaced(ws: seq<Worker>, i: int, v: Worker)
    requires WorkersOk(ws) && 0 <= i < |ws| && Inv(v) && InOrder(v)
    ensures WorkersOk(ws[i := v])
  {
    hide Inv, InOrder;
  }

  lemma OwnKeeps(s: System, i: int, st: Step)
    requires Good(s) && Can(s, Own(i, st))
    ensures Good(DoOwn(s, i, st))
  {
    hide Inv, InOrder, Placed, NoDups, AtHome, Phases, Apply, Enabled;
    var w := s.ws[i];
    OwnHome(s, i, st);
    OwnPhases(s, i, st);
    OwnPlaced(s, i, st);
    StepKeeps(w, st);
    StepInOrder(w, st);
    ShutdownByTaskOrStop(w, st);
    Replaced(s.ws, i, Apply(w, st));
    hide WorkersOk;
    OwnRanges(s, i, st);
  }

  lemma OwnRanges(s: System, i: int, st: Step)
    requires Ranges(s) && Can(s, Own(i, st))
    requires Apply(s.ws[i], st).mode == s.ws[i].mode
    ensures Ranges(DoOwn(s, i, st))
  {
    hide Apply, Enabled;
  }

  lemma PushInOrder(w: Worker, t: Task)
    requires InOrder(w)
    ensures InOrder(PushTask(w, t)) && InHand(PushTask(w, t)) == InHand(w)
    ensures forall f :: Carried(PushTask(w, t), f) == Carried(w, f)
  {
    var v := PushTask(w, t);
    assert InHand(v) == InHand(w) && forall f :: Carried(v, f) == Carried(w, f);
    PushedInOrder(w, v, t);
  }

  lemma DoneIsShut(w: Worker)
    requires Inv(w)
    ensures w.pc.Done? ==> w.shutdown && Departed(w)
  {}

  // Pushing a task: what concerns the workers.
  lemma PushKeepsWorkers(ws: seq<Worker>, i: int, t: Task)
    requires WorkersOk(ws) && 0 <= i < |ws| && Unlocked(ws[i].pc)
    ensures WorkersOk(ws[i := PushTask(ws[i], t)])
  {
    hide Inv, InOrder;
    PushTaskKeeps(ws[i], t);
    PushInOrder(ws[i], t);
    Replaced(ws, i, PushTask(ws[i], t));
  }

  lemma SubmitPlaced(s: System, t: Task, bound: Option<int>)
    requires Placed(s) && NoDups(s.ws) && WorkersOk(s.ws) && Can(s, Submit(t, bound))
    ensures Placed(DoSubmit(s, t, bound)) && NoDups(DoSubmit(s, t, bound).ws)
  {
    hide Inv, NoDup, StaysWithSubmitter;
    var u := DoSubmit(s, t, bound);
    if !StaysWithSubmitter(s, t) {
      forall x, q ensures At(u, x, q) <==> if x == t then q == InFlight else At(s, x, q) {
        assert !At(s, t, q);
      }
      Relocated(s, u, t, InFlight);
    } else if bound.Some? {
      assert !At(s, t, InFlight);
      PushInOrder(s.ws[bound.value], t);
      PushMoves(s, u, bound.value, PushTask(s.ws[bound.value], t), t);
    } else {
      forall x, q ensures At(u, x, q) <==> At(s, x, q) {}
    }
  }

  lemma SubmitKeeps(s: System, t: Task, bound: Option<int>)
    requires Good(s) && Can(s, Submit(t, bound))
    ensures Good(DoSubmit(s, t, bound))
  {
    hide Inv, InOrder, NoDups, Placed, WorkersOk;
    SubmitPlaced(s, t, bound);
    if StaysWithSubmitter(s, t) && bound.Some? { PushKeepsWorkers(s.ws, bound.value, t); }
  }

  lemma TryPlacePlaced(s: System, t: Task, locks: bool)
    requires Placed(s) && NoDups(s.ws) && WorkersOk(s.ws) && Can(s, TryPlace(t, locks))
    ensures Placed(DoTryPlace(s, t, locks)) && NoDups(DoTryPlace(s, t, locks).ws)
    ensures t in s.place && s.place[t] == InFlight
  {
    hide Inv, NoDup;
    var u, i := DoTryPlace(s, t, locks), s.hints.aim[t].at;
    assert At(s, t, InFlight);
    if locks {
      PushInOrder(s.ws[i], t);
      PushMoves(s, u, i, PushTask(s.ws[i], t), t);
    } else {
      forall x, q ensures At(u, x, q) <==> At(s, x, q) {}
    }
  }

  lemma TryPlaceRest(s: System, t: Task, locks: bool)
    requires Good(s) && Can(s, TryPlace(t, locks)) && t in s.place && s.place[t] == InFlight
    ensures Ranges(DoTryPlace(s, t, locks)) && AtHome(DoTryPlace(s, t, locks)) && Phases(DoTryPlace(s, t, locks))
  {
    hide Inv, InOrder, NoDups, Placed, WorkersOk;
    TryPlaceRanges(s, t, locks);
    hide Ranges;
  }

  lemma TryPlaceRanges(s: System, t: Task, locks: bool)
    requires Ranges(s) && Can(s, TryPlace(t, locks))
    ensures Ranges(DoTryPlace(s, t, locks))
  {}

  lemma TryPlaceKeeps(s: System, t: Task, locks: bool)
    requires Good(s) && Can(s, TryPlace(t, locks))
    ensures Good(DoTryPlace(s, t, locks))
  {
    TryPlacePlaced(s, t, locks);
    TryPlaceRest(s, t, locks);
    hide Inv, InOrder, NoDups, Placed, WorkersOk, Ranges, AtHome, Phases;
    if locks { PushKeepsWorkers(s.ws, s.hints.aim[t].at, t); }
  }

  // Whatever others do in between, what is written and read stays in range.
  lemma HintInRange(h: Hints, count: int, st: HintStep)
    requires HintsOk(h, count) && CanHint(h, count, if st.AimSlot? then {st.t} else {}, st)
    ensures HintsOk(DoHint(h, count, st), count)
  {}

  lemma HintKeeps(s: System, h: HintStep)
    requires Good(s) && Can(s, Hint(h))
    ensures Good(Do(s, Hint(h)))
  {
    HintInRange(s.hints, s.count, h);
    hide WorkersOk, NoDups, DoHint, HintsOk, CanHint;
    var u := Do(s, Hint(h));
    forall t, p ensures At(u, t, p) <==> At(s, t, p) {}
  }

  lemma StealKeepsWorkers(s: System, thief: int, from: int)
    requires WorkersOk(s.ws) && Can(s, Steal(thief, from))
    ensures WorkersOk(DoSteal(s, thief, from).ws)
  {
    var v := from % s.count;
    var t := s.ws[v].tasks[0];
    hide Inv, InOrder, Stealable;
    StealKeeps(s.ws[v]);
    StealInOrder(s.ws[v]);
    GrantKeeps(s.ws[thief], t);
    GrantInOrder(s.ws[thief], t);
    Replaced(s.ws, v, StealFront(s.ws[v]));
    Replaced(s.ws[v := StealFront(s.ws[v])], thief, Grant(s.ws[thief], t));
  }

  lemma StealKeepsAll(s: System, thief: int, from: int)
    requires Good(s) && Can(s, Steal(thief, from))
    ensures Good(DoSteal(s, thief, from))
  {
    hide Inv, InOrder, NoDups, Placed, WorkersOk;
    StealPlaced(s, thief, from);
    StealKeepsWorkers(s, thief, from);
  }

  lemma GrantInOrder(w: Worker, t: Task)
    requires InOrder(w) && w.pc.Spin?
    ensures InOrder(Grant(w, t))
  {
    assert forall f :: Carried(Grant(w, t), f) == Carried(w, f);
  }

  lemma SameTasksInOrder(w: Worker, v: Worker)
    requires InOrder(w) && SameTasks(w, v) && v.mode == w.mode && v.shutdown == w.shutdown
    ensures InOrder(v)
  {}

  // An event that only touches control or fibers of one worker.
  lemma BystanderKeeps(s: System, i: int, v: Worker)
    requires Good(s) && 0 <= i < |s.ws| && SameTasks(s.ws[i], v) && Inv(v)
    requires v.mode == s.ws[i].mode && v.shutdown == s.ws[i].shutdown && (v.pc.Done? <==> s.ws[i].pc.Done?)
    ensures Good(Put(s, i, v))
  {
    hide Inv, InOrder, NoDups, Placed, SameTasks;
    SameTasksInOrder(s.ws[i], v);
    BystanderPlaced(s, i, v);
    Replaced(s.ws, i, v);
    hide WorkersOk;
  }

  lemma NotifyKeeps(s: System, i: int, f: int)
    requires Good(s) && Can(s, Notify(i, f))
    ensures Good(Do(s, Notify(i, f)))
  {
    var w := s.ws[i];
    NotifySameTasks(w, f);
    PushFiberKeepsIff(w, f);
    hide Inv, InOrder, At, NoDup;
    BystanderKeeps(s, i, PushFiber(w, f));
  }

  lemma DeliverKeepsAll(s: System, i: int)
    requires Good(s) && Can(s, DeliverTo(i))
    ensures Good(Do(s, DeliverTo(i)))
  {
    hide Inv, InOrder, At, NoDup;
    DeliverSameTasks(s.ws[i]);
    DeliverKeeps(s.ws[i]);
    BystanderKeeps(s, i, Deliver(s.ws[i]));
  }

  lemma BindKeeps(s: System)
    requires Good(s) && Can(s, Bind)
    ensures Good(Do(s, Bind))
  {
    hide Inv, InOrder, Placed, NoDups;
    BindPlaced(s);
    StartKeeps(SingleThreaded);
    StartTasks(SingleThreaded);
  }

  lemma PhaseKeeps(s: System, u: System)
    requires Good(s) && u == s.(phase := u.phase) && Phases(u)
    ensures Good(u)
  {
    hide WorkersOk, NoDups, Phases;
    forall t, p ensures At(u, t, p) <==> At(s, t, p) {}
  }

  lemma AskStopPlaced(s: System, t: Task)
    requires Placed(s) && NoDups(s.ws) && Phases(s) && Can(s, AskStop(t))
    ensures Placed(DoAskStop(s, t)) && NoDups(DoAskStop(s, t).ws)
  {
    hide NoDup;
    assert !At(s, t, InFlight);
    var w := s.ws[s.phase.left - 1];
    assert InHand(PushTask(w, t)) == InHand(w) && forall f :: Carried(PushTask(w, t), f) == Carried(w, f);
    PushMoves(s, DoAskStop(s, t), s.phase.left - 1, PushTask(w, t), t);
  }

  lemma AskStopHome(s: System, t: Task)
    requires AtHome(s) && Can(s, AskStop(t))
    ensures AtHome(DoAskStop(s, t))
  {}

  lemma AskStopPhases(s: System, t: Task)
    requires Phases(s) && Can(s, AskStop(t))
    ensures Phases(DoAskStop(s, t))
  {}

  lemma AskStopWorkers(s: System, t: Task)
    requires Ranges(s) && WorkersOk(s.ws) && Phases(s) && Can(s, AskStop(t))
    ensures WorkersOk(DoAskStop(s, t).ws)
  {
    hide Inv, InOrder;
    DoneIsShut(s.ws[s.phase.left - 1]);
    PushKeepsWorkers(s.ws, s.phase.left - 1, t);
  }

  lemma AskStopKeeps(s: System, t: Task)
    requires Good(s) && Can(s, AskStop(t))
    ensures Good(DoAskStop(s, t))
  {
    hide Placed, NoDups, WorkersOk, AtHome, Phases;
    AskStopPlaced(s, t);
    AskStopWorkers(s, t);
    AskStopHome(s, t);
    AskStopPhases(s, t);
  }

  /** Every event keeps the invariant. */
  lemma EventKeeps(s: System, e: Event)
    requires Good(s) && Can(s, e)
    ensures Good(Do(s, e))
  {
    hide Good;
    match e
    case Own(i, st) => OwnKeeps(s, i, st);
    case Submit(t, bound) => SubmitKeeps(s, t, bound);
    case Hint(h) => HintKeeps(s, h);
    case TryPlace(t, locks) => TryPlaceKeeps(s, t, locks);
    case Steal(thief, from) => StealKeepsAll(s, thief, from);
    case Notify(i, f) => NotifyKeeps(s, i, f);
    case DeliverTo(i) => DeliverKeepsAll(s, i);
    case Bind => BindKeeps(s);
    case AskStop(t) => AskStopKeeps(s, t);
    case _ => DestroyKeeps(s, e);
  }

  lemma DestroyKeeps(s: System, e: Event)
    requires Good(s) && Can(s, e) && (e.BeginDestroy? || e.Join? || e.EndDestroy?)
    ensures Good(Do(s, e))
  {
    hide Inv, InOrder, NoDup, At;
    PhaseKeeps(s, Do(s, e));
  }

  lemma {:induction false} RunGood(ss: seq<System>, es: seq<Event>, k: nat)
    requires Run(ss, es) && k < |ss|
    ensures Good(ss[k])
  {
    hide Good, Can, Do, Init;
    if k == 0 {
      InitGood(ss[0]);
    } else {
      RunGood(ss, es, k - 1);
      assert Can(ss[k - 1], es[k - 1]) && Do(ss[k - 1], es[k - 1]) == ss[k];
      EventKeeps(ss[k - 1], es[k - 1]);
    }
  }
}
