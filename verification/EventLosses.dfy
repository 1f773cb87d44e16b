/** Runs in which a wakeup is lost, and the kinds of primitives for which there is none. */
module EventLosses {
  import opened Events
  import opened EventWakeups
  import opened EventTheorems

  /** No reachable state loses a wakeup of a primitive of this kind, as written or with the repaired timed wait. */
  ghost predicate NeverLoses(kind: Kind, retests: bool) {
    forall s, e :: Reachable(s) && Known(s, e) && s.ev[e].kind == kind && s.retests == retests ==> Owed(s, e)
  }

  // Agent 1 is a fiber, 2 and 3 are plain threads; there is one primitive.
  function Scene(r: bool, p: Prim, mx: map<Lock, int>, one: Pc, two: Pc, three: Pc): State {
    State([p], mx, map[1 := one, 2 := two, 3 := three], map[1 := 0], false, r)
  }

  function Door(signalled: bool, waiting: seq<int>, waitingNum: int, condNum: int): Prim {
    Prim(Auto, signalled, 0, [], waiting, waitingNum, condNum, signalled, 0, [])
  }

  function Turnstile(count: int, waitingNum: int): Prim {
    Prim(Group, false, count, [], [], waitingNum, waitingNum, false, 0, [])
  }

  lemma Follow(s: State, st: Step, u: State)
    requires Reachable(s) && Can(s, st) && Do(s, st) == u
    ensures Reachable(u)
  {
    hide Can, Do, Reachable;
    OneMore(s, st);
  }

  lemma ByFiber(s: State, a: int, st: FiberStep, u: State)
    requires Reachable(s) && CanFiber(s, a, st) && DoFiber(s, a, st) == u
    ensures Reachable(u)
  {
    hide CanFiber, DoFiber, Reachable;
    Follow(s, Fiber(a, st), u);
  }

  lemma ByThread(s: State, a: int, st: ThreadStep, u: State)
    requires Reachable(s) && CanThread(s, a, st) && DoThread(s, a, st) == u
    ensures Reachable(u)
  {
    hide CanThread, DoThread, Reachable;
    Follow(s, Thread(a, st), u);
  }

  lemma BySignaller(s: State, a: int, st: SigStep, u: State)
    requires Reachable(s) && CanSig(s, a, st) && DoSig(s, a, st) == u
    ensures Reachable(u)
  {
    hide CanSig, DoSig, Reachable;
    Follow(s, Signaller(a, st), u);
  }

  lemma ByUser(s: State, a: int, st: UserStep, u: State)
    requires Reachable(s) && CanUser(s, a, st) && DoUser(s, a, st) == u
    ensures Reachable(u)
  {
    hide CanUser, DoUser, Reachable;
    Follow(s, User(a, st), u);
  }

  lemma SceneStarts(r: bool, p: Prim)
    requires NewOk(Scene(r, p, map[], Out, Out, Out).(ev := []), p, 0)
    ensures Reachable(Scene(r, p, map[], Out, Out, Out))
  {
    var s := Scene(r, p, map[], Out, Out, Out).(ev := []);
    assert Run([s], []);
    Follow(s, NewPrim(p), Scene(r, p, map[], Out, Out, Out));
  }

  // A plain thread falls asleep on a primitive whose predicate is false.
  lemma ThreadFallsAsleep(r: bool, p: Prim)
    requires Reachable(Scene(r, p, map[], Out, Out, Out)) && !Pred(p)
    ensures Reachable(Scene(r, p.(waitingNum := p.waitingNum + 1, condNum := p.condNum + 1), map[], Out,
                            TSleep(0, false, true), Out))
  {
    hide Reachable, Pred, DoSig, CanSig, Consume;
    var q := p.(waitingNum := p.waitingNum + 1, condNum := p.condNum + 1);
    ThreadComes(r, p);
    assert !Pred(q) by { assert Pred(q) == Pred(p) by { SamePred(p, q); } }
    hide DoUser, CanUser, DoFiber, CanFiber;
    ByThread(Scene(r, q, map[Ev(0) := 2], Out, TCheck(0, false), Out), 2, ThreadTest(false),
             Scene(r, q, map[Ev(0) := 2], Out, TCommit(0, false), Out));
    ByThread(Scene(r, q, map[Ev(0) := 2], Out, TCommit(0, false), Out), 2, ThreadSleep,
             Scene(r, q, map[], Out, TSleep(0, false, true), Out));
  }

  lemma ThreadComes(r: bool, p: Prim)
    requires Reachable(Scene(r, p, map[], Out, Out, Out)) && !Pred(p)
    ensures Reachable(Scene(r, p.(waitingNum := p.waitingNum + 1, condNum := p.condNum + 1), map[Ev(0) := 2], Out,
                            TCheck(0, false), Out))
  {
    hide Reachable, Pred, DoSig, CanSig, Consume, DoThread, CanThread;
    var q := p.(waitingNum := p.waitingNum + 1, condNum := p.condNum + 1);
    ByUser(Scene(r, p, map[], Out, Out, Out), 2, StartWait(0, false), Scene(r, p, map[], Out, WLock(0, false), Out));
    ByFiber(Scene(r, p, map[], Out, WLock(0, false), Out), 2, WaitLock,
            Scene(r, q, map[Ev(0) := 2], Out, TCheck(0, false), Out));
  }

  lemma SamePred(p: Prim, q: Prim)
    requires q.kind == p.kind && q.signalled == p.signalled && q.count == p.count
    ensures Pred(q) <==> Pred(p)
  {}

  // Then a fiber enters a timed wait,
  lemma FiberEnters(z: Pc)
    requires Reachable(Scene(false, Door(false, [], 1, 1), map[], Out, z, Out))
    ensures Reachable(Scene(false, Door(false, [1], 2, 1), map[Ev(0) := 1], WLoop(0, true), z, Out))
  {
    hide Reachable;
    var p, q, r := Door(false, [], 1, 1), Door(false, [], 2, 1), Door(false, [1], 2, 1);
    ByUser(Scene(false, p, map[], Out, z, Out), 1, StartWait(0, true), Scene(false, p, map[], WLock(0, true), z, Out));
    hide CanUser, DoUser;
    ByFiber(Scene(false, p, map[], WLock(0, true), z, Out), 1, WaitLock,
            Scene(false, q, map[Ev(0) := 1], WEnlist(0, true), z, Out));
    assert [1] + q.waiting == [1];
    ByFiber(Scene(false, q, map[Ev(0) := 1], WEnlist(0, true), z, Out), 1, Enlist,
            Scene(false, r, map[Ev(0) := 1], WLoop(0, true), z, Out));
  }

  // tests,
  lemma FiberTests(z: Pc)
    requires Reachable(Scene(false, Door(false, [1], 2, 1), map[Ev(0) := 1], WLoop(0, true), z, Out))
    ensures Reachable(Scene(false, Door(false, [1], 2, 1), map[Ev(0) := 1], WWork(0, true), z, Out))
  {
    hide Reachable, DoWaitLock, DoEnlist, DoDelist;
    var r := Door(false, [1], 2, 1);
    ByFiber(Scene(false, r, map[Ev(0) := 1], WLoop(0, true), z, Out), 1, TestPred,
            Scene(false, r, map[Ev(0) := 1], WWork(0, true), z, Out));
  }

  // takes the work mutex,
  lemma FiberTakesWork(z: Pc)
    requires Reachable(Scene(false, Door(false, [1], 2, 1), map[Ev(0) := 1], WWork(0, true), z, Out))
    ensures Reachable(Scene(false, Door(false, [1], 2, 1), map[Ev(0) := 1, Wk(0) := 1], WBoth(0, true), z, Out))
  {
    hide Reachable, DoWaitLock, DoEnlist, DoDelist, DoTestPred;
    var r := Door(false, [1], 2, 1);
    ByFiber(Scene(false, r, map[Ev(0) := 1], WWork(0, true), z, Out), 1, TakeWork,
            Scene(false, r, map[Ev(0) := 1, Wk(0) := 1], WBoth(0, true), z, Out));
  }

  // and parks.
  lemma FiberParks(z: Pc)
    requires Reachable(Scene(false, Door(false, [1], 2, 1), map[Ev(0) := 1, Wk(0) := 1], WBoth(0, true), z, Out))
    ensures Reachable(Scene(false, Door(false, [1], 2, 1), map[], WParked(0, true, false), z, Out))
  {
    hide Reachable, DoWaitLock, DoEnlist, DoDelist, DoTestPred;
    var r := Door(false, [1], 2, 1);
    ByFiber(Scene(false, r, map[Ev(0) := 1, Wk(0) := 1], WBoth(0, true), z, Out), 1, DropMutex,
            Scene(false, r, map[Wk(0) := 1], WPark(0, true), z, Out));
    ByFiber(Scene(false, r, map[Wk(0) := 1], WPark(0, true), z, Out), 1, Park,
            Scene(false, r, map[], WParked(0, true, false), z, Out));
  }

  function Signalling3(ph: Phase): Pc {
    Sig(Push(Frame(0, ph), Nil), ToOut)
  }

  // A signal finds the fiber in the list
  lemma SignalBegins(y: Pc, z: Pc)
    requires Reachable(Scene(false, Door(false, [1], 2, 1), map[], y, z, Out))
    ensures Reachable(Scene(false, Door(true, [1], 2, 1), map[Ev(0) := 3], y, z, Signalling3(SCv)))
  {
    hide Reachable;
    var p, q := Door(false, [1], 2, 1), Door(true, [1], 2, 1);
    ByUser(Scene(false, p, map[], y, z, Out), 3, StartSignal(0), Scene(false, p, map[], y, z, Signalling3(SLock)));
    hide CanUser, DoUser;
    BySignaller(Scene(false, p, map[], y, z, Signalling3(SLock)), 3, SigLock,
                Scene(false, q, map[Ev(0) := 3], y, z, Signalling3(SCv)));
  }

  // and, with the list's mutex,
  lemma SignalFindsList(y: Pc, z: Pc)
    requires Reachable(Scene(false, Door(true, [1], 2, 1), map[Ev(0) := 3], y, z, Signalling3(SCv)))
    ensures Reachable(Scene(false, Door(true, [1], 2, 1), map[Ev(0) := 3, Cv(0) := 3], y, z, Signalling3(SNotify(0))))
  {
    hide Reachable, DoSigLock, DoSigNotify, DoSigCond, DoSigDeps, DoAnyLock, DoAnyPush, DoAnyStep;
    var q := Door(true, [1], 2, 1);
    BySignaller(Scene(false, q, map[Ev(0) := 3], y, z, Signalling3(SCv)), 3, SigCv,
                Scene(false, q, map[Ev(0) := 3, Cv(0) := 3], y, z, Signalling3(SNotify(0))));
  }

  // notifies it,
  lemma SignalGoesToFiber(z: Pc)
    requires Reachable(Scene(false, Door(true, [1], 2, 1), map[Ev(0) := 3, Cv(0) := 3], WParked(0, true, false), z,
                             Signalling3(SNotify(0))))
    ensures Reachable(Scene(false, Door(true, [1], 2, 1), map[Ev(0) := 3], WParked(0, true, true), z,
                            Signalling3(SDeps(0))))
  {
    hide Reachable, DoSigLock, DoSigCv, DoSigNotify, DoSigCond, DoSigDeps, DoAnyLock, DoAnyPush, DoAnyStep;
    var q, y, w := Door(true, [1], 2, 1), WParked(0, true, false), WParked(0, true, true);
    var s := Scene(false, q, map[Ev(0) := 3, Cv(0) := 3], y, z, Signalling3(SNotify(0)));
    FiberQueued(z);
    BySignaller(s, 3, SigNotify, Scene(false, q, map[Ev(0) := 3], w, z, Signalling3(SDeps(0))));
  }

  lemma FiberQueued(z: Pc)
    ensures var q, y, w := Door(true, [1], 2, 1), WParked(0, true, false), WParked(0, true, true);
            DoSigNotify(Scene(false, q, map[Ev(0) := 3, Cv(0) := 3], y, z, Signalling3(SNotify(0))), 3, 0, 0, Nil,
                        ToOut)
            == Scene(false, q, map[Ev(0) := 3], w, z, Signalling3(SDeps(0)))
  {
    var q, y, w := Door(true, [1], 2, 1), WParked(0, true, false), WParked(0, true, true);
    var s := Scene(false, q, map[Ev(0) := 3, Cv(0) := 3], y, z, Signalling3(SNotify(0)));
    assert HasTarget(q, 0) && Target(q, 0) == 1;
    assert Enqueued(s, 1) == Scene(false, q, map[Ev(0) := 3, Cv(0) := 3], w, z, Signalling3(SNotify(0)));
    assert map[Ev(0) := 3, Cv(0) := 3] - {Cv(0)} == map[Ev(0) := 3];
    hide Enqueued, HasTarget, Target;
  }

  // and nobody else.
  lemma SignalEnds(y: Pc, z: Pc)
    requires Reachable(Scene(false, Door(true, [1], 2, 1), map[Ev(0) := 3], y, z, Signalling3(SDeps(0))))
    ensures Reachable(Scene(false, Door(true, [1], 2, 1), map[], y, z, Out))
  {
    hide Reachable, DoSigLock, DoSigNotify, DoSigCond, DoAnyLock, DoAnyPush, DoAnyStep;
    var q := Door(true, [1], 2, 1);
    BySignaller(Scene(false, q, map[Ev(0) := 3], y, z, Signalling3(SDeps(0))), 3, SigDeps,
                Scene(false, q, map[], y, z, Out));
  }

  /** A timed wait takes the notification and leaves without testing the event: the thread that also waits
      sleeps on, though the event is signalled and nobody is left to wake it. */
  lemma TimedWaitLosesWakeup()
    ensures !NeverLoses(Auto, false)
  {
    var z := TSleep(0, false, true);
    var u := Scene(false, Door(true, [], 1, 1), map[], Out, z, Out);
    assert Reachable(u) by {
      hide Reachable, Pred;
      assert !Pred(Door(false, [], 0, 0)) by { Unraised(); }
      SceneStarts(false, Door(false, [], 0, 0));
      ThreadFallsAsleep(false, Door(false, [], 0, 0));
      FiberEnters(z);
      FiberTests(z);
      FiberTakesWork(z);
      FiberParks(z);
      SignalBegins(WParked(0, true, false), z);
      SignalFindsList(WParked(0, true, false), z);
      SignalGoesToFiber(z);
      SignalEnds(WParked(0, true, true), z);
      FiberGivesUp(z);
      FiberLeaves(z);
    }
    assert Unaware(At(u, 2), 0, Auto);
    hide Reachable;
    assert forall b :: !Notifying(u, b, 0) && !Aware(At(u, b), 0);
    assert !OneOwed(u, 0) && Known(u, 0);
  }

  lemma Unraised()
    ensures !Pred(Door(false, [], 0, 0))
  {}

  // The fiber runs again after its deadline,
  lemma FiberGivesUp(z: Pc)
    requires Reachable(Scene(false, Door(true, [1], 2, 1), map[], WParked(0, true, true), z, Out))
    ensures Reachable(Scene(false, Door(true, [1], 2, 1), map[Ev(0) := 1], WDelist(0, false), z, Out))
  {
    hide Reachable, DoWaitLock, DoEnlist, DoTestPred, DoDelist;
    var q := Door(true, [1], 2, 1);
    ByFiber(Scene(false, q, map[], WParked(0, true, true), z, Out), 1, Resume,
            Scene(false, q, map[], WRelock(0, true), z, Out));
    ByFiber(Scene(false, q, map[], WRelock(0, true), z, Out), 1, Relock(true),
            Scene(false, q, map[Ev(0) := 1], WDelist(0, false), z, Out));
  }

  // and leaves.
  lemma FiberLeaves(z: Pc)
    requires Reachable(Scene(false, Door(true, [1], 2, 1), map[Ev(0) := 1], WDelist(0, false), z, Out))
    ensures Reachable(Scene(false, Door(true, [], 1, 1), map[], Out, z, Out))
  {
    hide Reachable, DoWaitLock, DoEnlist, DoTestPred;
    var q := Door(true, [1], 2, 1);
    ByFiber(Scene(false, q, map[Ev(0) := 1], WDelist(0, false), z, Out), 1, Delist,
            Scene(false, Door(true, [], 1, 1), map[], Out, z, Out));
  }

  /** add() may wrap the count of a wait group round to zero, and then notifies nobody. */
  lemma WrappedAddLosesWakeup(r: bool)
    ensures !NeverLoses(Group, r)
  {
    hide Reachable;
    var p, q, z := Turnstile(1, 0), Turnstile(1, 1), TSleep(0, false, true);
    SceneStarts(r, p);
    ThreadFallsAsleep(r, p);
    var u := Scene(r, Turnstile(0, 1), map[], Out, z, Out);
    ByUser(Scene(r, q, map[], Out, z, Out), 1, AddCount(0, U32 - 1), u);
    assert Unaware(At(u, 2), 0, Group);
    assert forall b :: !Owes(u, b, 2, 0);
    assert !AllOwed(u, 0) && Known(u, 0);
  }

  /** Whatever the program does, wakeups are never lost exactly for manual events, and for automatic events with the
      repaired timed wait. */
  lemma NeverLosesIff(kind: Kind, retests: bool)
    ensures NeverLoses(kind, retests) <==> kind.Manual? || (kind.Auto? && retests)
  {
    if kind.Manual? || (kind.Auto? && retests) {
      forall s, e | Reachable(s) && Known(s, e) && s.ev[e].kind == kind && s.retests == retests ensures Owed(s, e) {
        var ss: seq<State>, steps: seq<Step> :| Run(ss, steps) && ss[|steps|] == s;
        assert |ss| == |steps| + 1;
        if kind.Manual? { ManualSpared(ss, steps, e, |steps|); } else { RetestSpared(ss, steps, e, |steps|); }
        hide Run, Owed, Reachable, Spared;
        SparedIsOwed(ss, steps, e, |steps|);
      }
    } else if kind.Auto? {
      TimedWaitLosesWakeup();
    } else {
      WrappedAddLosesWakeup(retests);
    }
  }
}
