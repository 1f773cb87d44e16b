/** What single waits, counts and notifications mean: a wait returns when it should and only then, the count of a group
    is what was added less the calls of done(), and notify_one() wakes one waiter where notify_all() wakes all. */
module EventWaits {
  import opened Events
  import opened EventLocks
  import opened EventBooks
  import opened EventWakeups
  import opened EventWakeSteps
  import opened EventTheorems

  // ---------------------------------------------------------------------------------------------
  // The end of a wait
  // ---------------------------------------------------------------------------------------------

  // An event that is signalled, or a group whose count is zero.
  predicate Satisfied(p: Prim) {
    (p.kind.Group? && p.count == 0) || (!p.kind.Group? && p.signalled)
  }

  /** A wait returns at once exactly if its event is signalled or its group at zero. */
  lemma WaitLockReturns(s: State, a: int)
    requires CanFiber(s, a, WaitLock)
    ensures var e, u := At(s, a).e, DoFiber(s, a, WaitLock);
            && Known(s, e) && Known(u, e)
            && (At(u, a).Out? <==> (s.ev[e].kind.Group? && s.ev[e].count == 0)
                                   || (!s.ev[e].kind.Group? && s.ev[e].signalled))
            && (At(u, a).Out? ==> u.ev[e] == s.ev[e].(signalled := s.ev[e].signalled && !s.ev[e].kind.Auto?))
            && (!At(u, a).Out? ==> (if a in s.worker then At(u, a).WEnlist? else At(u, a).TCheck?))
  {}

  /** A fiber that tests its event or group again leaves the wait satisfied exactly if it holds. */
  lemma TestReturns(s: State, a: int)
    requires CanFiber(s, a, TestPred)
    ensures var e, u := At(s, a).e, DoFiber(s, a, TestPred);
            && Known(s, e) && u.ev == s.ev
            && At(u, a) == (if (s.ev[e].kind.Group? && s.ev[e].count == 0)
                               || (!s.ev[e].kind.Group? && s.ev[e].signalled)
                            then WDelist(e, true) else WWork(e, At(s, a).timed))
  {}

  /** When its deadline has passed, a fiber leaves the wait, whether it holds or not; as the source is written, it does
      not look. */
  lemma RelockReturns(s: State, a: int, expired: bool)
    requires CanFiber(s, a, Relock(expired))
    ensures var e, u := At(s, a).e, DoFiber(s, a, Relock(expired));
            && Known(s, e) && u.ev == s.ev && (expired ==> At(s, a).timed)
            && (!expired ==> At(u, a) == WLoop(e, At(s, a).timed))
            && (expired && !s.retests ==> At(u, a) == WDelist(e, false))
            && (expired && s.retests ==> At(u, a).WDelist? && (At(u, a).ok <==> Satisfied(s.ev[e])))
  {}

  /** A fiber that leaves is off the list, and resets an automatic event only if it found it signalled; and then it
      still is. */
  lemma DelistReturns(s: State, a: int)
    requires Good(s) && CanFiber(s, a, Delist)
    ensures var e, ok, u := At(s, a).e, At(s, a).ok, DoFiber(s, a, Delist);
            && Known(s, e) && Known(u, e) && At(u, a).Out?
            && (ok && !s.ev[e].kind.Group? ==> s.ev[e].signalled)
            && u.ev[e].signalled == (s.ev[e].signalled && !(ok && s.ev[e].kind.Auto?))
            && u.ev[e].count == s.ev[e].count && u.ev[e].waitingNum == s.ev[e].waitingNum - 1
  {
    assert Fact(s.ev, At(s, a));
    hide Good;
  }

  /** A plain thread leaves exactly if its event or group holds or its deadline has passed. */
  lemma ThreadTestReturns(s: State, a: int, expired: bool)
    requires CanThread(s, a, ThreadTest(expired))
    ensures var e, u := At(s, a).e, DoThread(s, a, ThreadTest(expired));
            && Known(s, e) && Known(u, e) && (expired ==> At(s, a).timed)
            && (At(u, a).Out? <==> expired || (s.ev[e].kind.Group? && s.ev[e].count == 0)
                                   || (!s.ev[e].kind.Group? && s.ev[e].signalled))
            && (!At(u, a).Out? ==> At(u, a) == TCommit(e, At(s, a).timed) && u.ev == s.ev)
            && u.ev[e].signalled == (s.ev[e].signalled && !s.ev[e].kind.Auto?)
  {
    var e := At(s, a).e;
    ThreadTestTouches(s, a, e, At(s, a).timed, expired);
  }

  predicate InWait(p: Pc, e: int) {
    (p.WLock? && p.e == e) || Counted(p, e)
  }

  /** These are all the ways out of a wait. */
  lemma OnlyWaysOut(s: State, st: Step, a: int, e: int)
    requires Can(s, st) && InWait(At(s, a), e)
    ensures !InWait(At(Do(s, st), a), e) ==>
              && At(Do(s, st), a).Out?
              && (|| st == Fiber(a, WaitLock) || st == Fiber(a, Delist)
                  || (st.Thread? && st.a == a && st.thread.ThreadTest?))
  {
    hide CanFiber, CanThread, CanSig, CanUser, DoFiber, DoThread, DoSig, DoUser, InWait;
    match st
    case Fiber(b, f) => FiberWays(s, b, f, a, e);
    case Thread(b, t) => ThreadWays(s, b, t, a, e);
    case Signaller(b, g) => SigWays(s, b, g, a, e);
    case User(b, o) => UserWays(s, b, o, a, e);
    case NewPrim(p) => SamePoint(s, Do(s, st), a);
  }

  lemma SamePoint(s: State, u: State, a: int)
    requires u.pc == s.pc
    ensures At(u, a) == At(s, a)
  {}

  lemma FiberWays(s: State, b: int, f: FiberStep, a: int, e: int)
    requires CanFiber(s, b, f) && InWait(At(s, a), e)
    ensures !InWait(At(DoFiber(s, b, f), a), e) ==>
              At(DoFiber(s, b, f), a).Out? && b == a && (f.WaitLock? || f.Delist?)
  {}

  lemma ThreadWays(s: State, b: int, t: ThreadStep, a: int, e: int)
    requires CanThread(s, b, t) && InWait(At(s, a), e)
    ensures !InWait(At(DoThread(s, b, t), a), e) ==> At(DoThread(s, b, t), a).Out? && b == a && t.ThreadTest?
  {}

  lemma UserWays(s: State, b: int, o: UserStep, a: int, e: int)
    requires CanUser(s, b, o) && InWait(At(s, a), e)
    ensures InWait(At(DoUser(s, b, o), a), e)
  {}

  lemma SigWays(s: State, b: int, g: SigStep, a: int, e: int)
    requires CanSig(s, b, g) && InWait(At(s, a), e)
    ensures InWait(At(DoSig(s, b, g), a), e)
  {
    var p := At(s, b);
    if g.SigNotify? {
      NotifyStirs(s, b, p.stack.top.e, p.stack.top.ph.k, p.stack.below, p.ret);
      StirredWaits(At(s, a), At(DoSig(s, b, g), a), e);
    } else if g.SigCond? {
      CondStirs(s, b, p.stack.top.e, g.lucky, p.stack.below, p.ret);
      StirredWaits(At(s, a), At(DoSig(s, b, g), a), e);
    } else {
      SigMoves(s, b, g);
      hide DoSig, CanSig;
      assert a != b;
    }
  }

  lemma StirredWaits(p: Pc, q: Pc, e: int)
    ensures Stirred(p, q) && InWait(p, e) ==> InWait(q, e)
  {}

  // ---------------------------------------------------------------------------------------------
  // Waits with and without a deadline
  // ---------------------------------------------------------------------------------------------

  // An agent that waits at e does so as it began, with a deadline or not; only with one does it leave unsatisfied.
  predicate AsBegun(p: Pc, e: int, timed: bool) {
    InWait(p, e) && if p.WDelist? then p.ok || timed else p.timed == timed
  }

  lemma FiberBegun(s: State, b: int, f: FiberStep, a: int, e: int, timed: bool)
    requires CanFiber(s, b, f) && AsBegun(At(s, a), e, timed) && InWait(At(DoFiber(s, b, f), a), e)
    ensures AsBegun(At(DoFiber(s, b, f), a), e, timed)
  {}

  lemma ThreadBegun(s: State, b: int, t: ThreadStep, a: int, e: int, timed: bool)
    requires CanThread(s, b, t) && AsBegun(At(s, a), e, timed) && InWait(At(DoThread(s, b, t), a), e)
    ensures AsBegun(At(DoThread(s, b, t), a), e, timed)
  {}

  lemma UserBegun(s: State, b: int, o: UserStep, a: int, e: int, timed: bool)
    requires CanUser(s, b, o) && AsBegun(At(s, a), e, timed)
    ensures AsBegun(At(DoUser(s, b, o), a), e, timed)
  {}

  lemma SigBegun(s: State, b: int, g: SigStep, a: int, e: int, timed: bool)
    requires CanSig(s, b, g) && AsBegun(At(s, a), e, timed)
    ensures AsBegun(At(DoSig(s, b, g), a), e, timed)
  {
    var p := At(s, b);
    if g.SigNotify? {
      NotifyStirs(s, b, p.stack.top.e, p.stack.top.ph.k, p.stack.below, p.ret);
      StirredBegun(At(s, a), At(DoSig(s, b, g), a), e, timed);
    } else if g.SigCond? {
      CondStirs(s, b, p.stack.top.e, g.lucky, p.stack.below, p.ret);
      StirredBegun(At(s, a), At(DoSig(s, b, g), a), e, timed);
    } else {
      SigMoves(s, b, g);
      hide DoSig, CanSig;
      assert a != b;
    }
  }

  lemma StirredBegun(p: Pc, q: Pc, e: int, timed: bool)
    ensures Stirred(p, q) && AsBegun(p, e, timed) ==> AsBegun(q, e, timed)
  {}

  lemma StepBegun(s: State, st: Step, a: int, e: int, timed: bool)
    requires Can(s, st) && AsBegun(At(s, a), e, timed) && InWait(At(Do(s, st), a), e)
    ensures AsBegun(At(Do(s, st), a), e, timed)
  {
    hide CanFiber, CanThread, CanSig, CanUser, DoFiber, DoThread, DoSig, DoUser, AsBegun;
    match st
    case Fiber(b, f) => FiberBegun(s, b, f, a, e, timed);
    case Thread(b, t) => ThreadBegun(s, b, t, a, e, timed);
    case Signaller(b, g) => SigBegun(s, b, g, a, e, timed);
    case User(b, o) => UserBegun(s, b, o, a, e, timed);
    case NewPrim(p) => SamePoint(s, Do(s, st), a);
  }

  lemma Begun(s: State, a: int, e: int, timed: bool)
    requires Can(s, User(a, StartWait(e, timed)))
    ensures AsBegun(At(Do(s, User(a, StartWait(e, timed))), a), e, timed)
  {}

  // Agent a has begun to wait at e by step j, and does so still before step k.
  ghost predicate Waits(ss: seq<State>, steps: seq<Step>, j: nat, k: nat, a: int, e: int, timed: bool) {
    && Run(ss, steps) && j < k <= |steps| && steps[j] == User(a, StartWait(e, timed))
    && forall m :: j < m <= k && m < |ss| ==> InWait(At(ss[m], a), e)
  }

  lemma {:induction false} StaysAsBegun(ss: seq<State>, steps: seq<Step>, j: nat, k: nat, a: int, e: int, timed: bool)
    requires Waits(ss, steps, j, k, a, e, timed)
    ensures |ss| == |steps| + 1 && AsBegun(At(ss[k], a), e, timed)
  {
    hide Run, Can, Do, AsBegun, InWait;
    RunStep(ss, steps, k - 1);
    if j == k - 1 {
      Begun(ss[j], a, e, timed);
    } else {
      StaysAsBegun(ss, steps, j, k - 1, a, e, timed);
      StepBegun(ss[k - 1], steps[k - 1], a, e, timed);
    }
  }

  // An agent that leaves: with the event signalled or the group at zero, unless it has a deadline. A fiber has seen a
  // group at zero before, in its last test.
  lemma Leaves(s: State, st: Step, a: int, e: int, timed: bool)
    requires Good(s) && Can(s, st) && AsBegun(At(s, a), e, timed) && !InWait(At(Do(s, st), a), e)
    ensures Known(s, e) && At(Do(s, st), a).Out?
    ensures !timed ==> Satisfied(s.ev[e]) || (s.ev[e].kind.Group? && At(s, a) == WDelist(e, true))
  {
    OnlyWaysOut(s, st, a, e);
    assert At(s, a).e == e;
    match st {
      case Fiber(_, WaitLock) => WaitLockReturns(s, a);
      case Fiber(_, Delist) => DelistReturns(s, a);
      case Thread(_, ThreadTest(expired)) => ThreadTestReturns(s, a, expired);
      case _ =>
    }
  }

  /** In every run a wait without a deadline returns only with its event signalled, or, of a group, with a count of zero
      found in the last test. */
  lemma WaitReturnsSatisfied(ss: seq<State>, steps: seq<Step>, j: nat, k: nat, a: int, e: int)
    requires Waits(ss, steps, j, k, a, e, false) && k < |steps| < |ss| && !InWait(At(ss[k + 1], a), e)
    ensures Known(ss[k], e) && At(ss[k + 1], a).Out?
    ensures Satisfied(ss[k].ev[e]) || (ss[k].ev[e].kind.Group? && At(ss[k], a) == WDelist(e, true))
  {
    hide Run, Can, Do, AsBegun, InWait, Good;
    StaysAsBegun(ss, steps, j, k, a, e, false);
    RunStep(ss, steps, k);
    RunGood(ss, steps, k);
    Leaves(ss[k], steps[k], a, e, false);
  }

  // ---------------------------------------------------------------------------------------------
  // Wait groups
  // ---------------------------------------------------------------------------------------------

  // What a step adds to the count of group e, and takes off it.
  function Adds(st: Step, e: int): int {
    if st.User? && st.user.AddCount? && st.user.e == e then st.user.n else 0
  }

  function Takes(st: Step, e: int): int {
    if st.User? && st.user == StartDone(e) then 1 else 0
  }

  lemma UserCount(s: State, a: int, o: UserStep, e: int)
    requires CanUser(s, a, o) && Known(s, e) && s.ev[e].kind.Group? && 0 <= s.ev[e].count < U32
    ensures var u := DoUser(s, a, o);
            && Known(u, e) && u.ev[e].kind.Group?
            && u.ev[e].count == (s.ev[e].count + Adds(User(a, o), e) - Takes(User(a, o), e)) % U32
  {}

  lemma OtherCount(s: State, st: Step, e: int)
    requires Can(s, st) && Known(s, e) && !st.User?
    ensures Known(Do(s, st), e) && Do(s, st).ev[e].kind == s.ev[e].kind && Do(s, st).ev[e].count == s.ev[e].count
  {
    hide CanFiber, CanThread, CanSig, DoFiber, DoThread, DoSig;
    match st
    case Fiber(a, f) => FiberCount(s, a, f, e);
    case Thread(a, t) => ThreadCount(s, a, t, e);
    case Signaller(a, g) => SigCount(s, a, g, e);
    case NewPrim(_) =>
  }

  lemma FiberCount(s: State, a: int, f: FiberStep, e: int)
    requires CanFiber(s, a, f) && Known(s, e)
    ensures var u := DoFiber(s, a, f); Known(u, e) && u.ev[e].kind == s.ev[e].kind && u.ev[e].count == s.ev[e].count
  {
    hide DoWaitLock;
    if f.WaitLock? { WaitLockTouches(s, a, At(s, a).e, At(s, a).timed); }
  }

  lemma ThreadCount(s: State, a: int, t: ThreadStep, e: int)
    requires CanThread(s, a, t) && Known(s, e)
    ensures var u := DoThread(s, a, t); Known(u, e) && u.ev[e].kind == s.ev[e].kind && u.ev[e].count == s.ev[e].count
  {
    hide DoThreadTest;
    if t.ThreadTest? { ThreadTestTouches(s, a, At(s, a).e, At(s, a).timed, t.expired); }
  }

  lemma SigCount(s: State, a: int, g: SigStep, e: int)
    requires CanSig(s, a, g) && Known(s, e)
    ensures var u := DoSig(s, a, g); Known(u, e) && u.ev[e].kind == s.ev[e].kind && u.ev[e].count == s.ev[e].count
  {
    hide DoSigNotify, DoSigCond, Popped, BelowEvent;
    if g.SigNotify? {
      NotifyStirs(s, a, At(s, a).stack.top.e, At(s, a).stack.top.ph.k, At(s, a).stack.below, At(s, a).ret);
    } else if g.SigCond? {
      CondStirs(s, a, At(s, a).stack.top.e, g.lucky, At(s, a).stack.below, At(s, a).ret);
    }
  }

  lemma StepCount(s: State, st: Step, e: int)
    requires Can(s, st) && Known(s, e) && s.ev[e].kind.Group? && 0 <= s.ev[e].count < U32
    ensures Known(Do(s, st), e) && Do(s, st).ev[e].kind.Group?
    ensures Do(s, st).ev[e].count == (s.ev[e].count + Adds(st, e) - Takes(st, e)) % U32
  {
    hide CanUser, DoUser;
    if st.User? { UserCount(s, st.a, st.user, e); } else { OtherCount(s, st, e); }
  }

  lemma NewcomerCount(s: State, st: Step, e: int)
    requires Can(s, st) && !Known(s, e) && Known(Do(s, st), e) && Do(s, st).ev[e].kind.Group?
    ensures st.NewPrim? && e == |s.ev| && Do(s, st).ev[e] == st.p && 0 <= st.p.count < U32
  {
    StepKinds(s, st);
    hide DoFiber, DoThread, DoSig, CanFiber, CanThread, CanSig;
  }

  lemma {:induction false} CountInRange(ss: seq<State>, steps: seq<Step>, e: int, k: nat)
    requires Run(ss, steps) && k <= |steps| < |ss| && Known(ss[k], e) && ss[k].ev[e].kind.Group?
    ensures 0 <= ss[k].ev[e].count < U32
  {
    hide Run, Init, Can, Do;
    if k == 0 {
      StartsWithNone(ss, steps, e);
    } else {
      RunStep(ss, steps, k - 1);
      if Known(ss[k - 1], e) {
        SameKind(ss, steps, e, k - 1, k);
        CountInRange(ss, steps, e, k - 1);
        StepCount(ss[k - 1], steps[k - 1], e);
      } else {
        NewcomerCount(ss[k - 1], steps[k - 1], e);
      }
    }
  }

  lemma StartsWithNone(ss: seq<State>, steps: seq<Step>, e: int)
    requires Run(ss, steps)
    ensures |ss| > 0 && !Known(ss[0], e)
  {
    hide Can, Do;
  }

  // The sums over the steps from j on and before k
  function Added(steps: seq<Step>, e: int, j: nat, k: nat): int
    requires j <= k <= |steps|
    decreases k
  {
    if j == k then 0 else Added(steps, e, j, k - 1) + Adds(steps[k - 1], e)
  }

  function Taken(steps: seq<Step>, e: int, j: nat, k: nat): (n: int)
    requires j <= k <= |steps|
    ensures 0 <= n <= k - j
    decreases k
  {
    if j == k then 0 else Taken(steps, e, j, k - 1) + Takes(steps[k - 1], e)
  }

  lemma Shift(x: int, y: int)
    ensures (x % U32 + y) % U32 == (x + y) % U32
  {
    var q := x / U32;
    assert x % U32 + y == (x + y) - q * U32;
    Whole(x + y, q);
  }

  lemma Whole(x: int, q: int)
    ensures (x - q * U32) % U32 == x % U32
  {}

  /** Over any stretch of a run, the count of a group grows by what add() was given and falls by one for every call of
      done(), modulo 2^32. */
  lemma {:induction false} CountLedger(ss: seq<State>, steps: seq<Step>, e: int, j: nat, k: nat)
    requires Run(ss, steps) && j <= k <= |steps| < |ss| && Known(ss[j], e) && ss[j].ev[e].kind.Group?
    ensures Known(ss[k], e) && ss[k].ev[e].kind.Group?
    ensures ss[k].ev[e].count == (ss[j].ev[e].count + Added(steps, e, j, k) - Taken(steps, e, j, k)) % U32
    decreases k
  {
    hide Run, Init, Can, Do, Adds, Takes;
    CountInRange(ss, steps, e, j);
    if j < k {
      CountLedger(ss, steps, e, j, k - 1);
      RunStep(ss, steps, k - 1);
      CountInRange(ss, steps, e, k - 1);
      StepCount(ss[k - 1], steps[k - 1], e);
      Shift(ss[j].ev[e].count + Added(steps, e, j, k - 1) - Taken(steps, e, j, k - 1),
            Adds(steps[k - 1], e) - Takes(steps[k - 1], e));
    }
  }

  /** So a group made for n calls of done(), with nothing added, is at zero after n of them and not before. */
  lemma ZeroAfterAllCalls(ss: seq<State>, steps: seq<Step>, e: int, j: nat, k: nat, p: Prim)
    requires Run(ss, steps) && j < k <= |steps| < |ss| && steps[j] == NewPrim(p) && e == |ss[j].ev| && p.kind.Group?
    requires Added(steps, e, j + 1, k) == 0 && Taken(steps, e, j + 1, k) <= p.count
    ensures Known(ss[k], e) && ss[k].ev[e].count == p.count - Taken(steps, e, j + 1, k)
    ensures ss[k].ev[e].count == 0 <==> Taken(steps, e, j + 1, k) == p.count
  {
    hide Run, Init, Added, Taken;
    RunStep(ss, steps, j);
    Made(ss[j], p);
    CountLedger(ss, steps, e, j + 1, k);
  }

  lemma Made(s: State, p: Prim)
    requires Can(s, NewPrim(p))
    ensures var u := Do(s, NewPrim(p)); Known(u, |s.ev|) && u.ev[|s.ev|] == p && 0 <= p.count < U32
  {}

  // ---------------------------------------------------------------------------------------------
  // Manual events
  // ---------------------------------------------------------------------------------------------

  lemma FiberFlag(s: State, a: int, f: FiberStep, e: int)
    requires CanFiber(s, a, f) && Known(s, e) && s.ev[e].kind.Manual?
    ensures var u := DoFiber(s, a, f); Known(u, e) && u.ev[e].signalled == s.ev[e].signalled
  {}

  lemma ThreadFlag(s: State, a: int, t: ThreadStep, e: int)
    requires CanThread(s, a, t) && Known(s, e) && s.ev[e].kind.Manual?
    ensures var u := DoThread(s, a, t); Known(u, e) && u.ev[e].signalled == s.ev[e].signalled
  {}

  lemma SigFlag(s: State, a: int, g: SigStep, e: int)
    requires CanSig(s, a, g) && Known(s, e) && s.ev[e].kind.Manual?
    ensures var u := DoSig(s, a, g);
            Known(u, e) && (u.ev[e].signalled <==> s.ev[e].signalled || Raises(s, Signaller(a, g), e))
  {
    hide DoSigNotify, DoSigCond, Popped, BelowEvent;
    if g.SigNotify? {
      NotifyStirs(s, a, At(s, a).stack.top.e, At(s, a).stack.top.ph.k, At(s, a).stack.below, At(s, a).ret);
    } else if g.SigCond? {
      CondStirs(s, a, At(s, a).stack.top.e, g.lucky, At(s, a).stack.below, At(s, a).ret);
    }
  }

  /** A manual event is signalled by signal() and reset by clear(), and by nothing else; no wait or test uses it up. */
  lemma ManualFlag(s: State, st: Step, e: int)
    requires Can(s, st) && Known(s, e) && s.ev[e].kind.Manual?
    ensures Known(Do(s, st), e)
    ensures Do(s, st).ev[e].signalled <==>
            (s.ev[e].signalled || Raises(s, st, e)) && !(st.User? && st.user == ClearEvent(e))
  {
    hide CanFiber, CanThread, CanSig, DoFiber, DoThread, DoSig;
    match st
    case Fiber(a, f) => FiberFlag(s, a, f, e);
    case Thread(a, t) => ThreadFlag(s, a, t, e);
    case Signaller(a, g) => SigFlag(s, a, g, e);
    case User(a, o) =>
    case NewPrim(p) =>
  }

  /** Primitives are made one at a time. Those that any() makes have the mode and the sources asked for; they are not
      signalled yet, nothing depends on them, and nobody waits for them. */
  lemma OnlyMade(s: State, st: Step)
    requires Can(s, st)
    ensures var u, n := Do(s, st), |s.ev|;
            && |u.ev| == (if st.NewPrim? || (st.User? && st.user.StartAny?) then n + 1 else n)
            && (st.NewPrim? ==> u.ev[n] == st.p)
            && (st.User? && st.user.StartAny? ==>
                  && u.ev[n].kind == st.user.kind && u.ev[n].sources == st.user.sources && !u.ev[n].signalled
                  && u.ev[n].deps == [] && u.ev[n].waiting == [] && u.ev[n].waitingNum == u.ev[n].condNum == 0)
  {
    hide CanFiber, CanThread, CanSig, DoFiber, DoThread, DoSig;
    match st
    case Fiber(a, f) => FiberMakes(s, a, f);
    case Thread(a, t) => ThreadMakes(s, a, t);
    case Signaller(a, g) => SigMakes(s, a, g);
    case User(a, o) =>
    case NewPrim(p) =>
  }

  lemma FiberMakes(s: State, a: int, f: FiberStep)
    requires CanFiber(s, a, f)
    ensures |DoFiber(s, a, f).ev| == |s.ev|
  {
    hide Consume, Joined;
  }

  lemma ThreadMakes(s: State, a: int, t: ThreadStep)
    requires CanThread(s, a, t)
    ensures |DoThread(s, a, t).ev| == |s.ev|
  {
    hide Consume;
  }

  lemma SigMakes(s: State, a: int, g: SigStep)
    requires CanSig(s, a, g)
    ensures |DoSig(s, a, g).ev| == |s.ev|
  {
    hide BelowEvent, Popped;
  }

  // ---------------------------------------------------------------------------------------------
  // Notifications
  // ---------------------------------------------------------------------------------------------

  // Agent t is queued if it is parked, and nobody else but the notifier a moves.
  ghost predicate OnlyQueued(s: State, u: State, a: int, t: int) {
    && (t != a ==> At(u, t) == (if At(s, t).WParked? then At(s, t).(queued := true) else At(s, t)))
    && forall b :: b != a && b != t ==> At(u, b) == At(s, b)
  }

  /** notify_one() queues the fiber that was enlisted last and nobody else, and then wakes no thread; without a fiber in
      the list it goes on to the threads. notify_all() queues the fibers one after the other, and then does. */
  lemma NotifyQueues(s: State, a: int)
    requires CanSig(s, a, SigNotify)
    ensures var f, u := At(s, a).stack.top, DoSig(s, a, SigNotify);
            var w, k := s.ev[f.e].waiting, f.ph.k;
            && At(u, a).Sig? && At(u, a).stack.Push? && At(u, a).stack.top.e == f.e && u.ev == s.ev
            && (s.ev[f.e].kind.Auto? && w != [] ==> OnlyQueued(s, u, a, w[0]) && At(u, a).stack.top.ph == SDeps(0))
            && (!s.ev[f.e].kind.Auto? && 0 <= k < |w| ==>
                  OnlyQueued(s, u, a, w[k]) && At(u, a).stack.top.ph == SNotify(k + 1))
            && ((if s.ev[f.e].kind.Auto? then w == [] else k >= |w|) ==>
                  OnlyQueued(s, u, a, a) && At(u, a).stack.top.ph == SCond)
  {
    var p := At(s, a);
    var e, k := p.stack.top.e, p.stack.top.ph.k;
    if HasTarget(s.ev[e], k) { QueuedAt(s, Target(s.ev[e], k)); }
    hide Enqueued, CanSig;
  }

  lemma QueuedAt(s: State, t: int)
    ensures forall b :: At(Enqueued(s, t), b)
                        == if b == t && At(s, t).WParked? then At(s, t).(queued := true) else At(s, b)
    ensures Enqueued(s, t).ev == s.ev
  {}

  /** Of the threads that sleep on the primitive, notify_one() wakes one, if there is any, and notify_all() all; nobody
      else is woken. */
  lemma CondWakes(s: State, a: int, lucky: int)
    requires Good(s) && CanSig(s, a, SigCond(lucky))
    ensures var e, u := At(s, a).stack.top.e, DoSig(s, a, SigCond(lucky));
            && u.ev == s.ev
            && (forall b :: b != a && !AsleepOn(s, b, e) && !(s.ev[e].kind.Auto? && b == lucky) ==>
                  At(u, b) == At(s, b))
            && (!s.ev[e].kind.Auto? ==> forall b :: !AsleepOn(u, b, e))
            && (s.ev[e].kind.Auto? ==> forall b :: b != a && b != lucky ==> At(u, b) == At(s, b))
            && (s.ev[e].kind.Auto? && AsleepOn(s, lucky, e) ==> !AsleepOn(u, lucky, e))
  {
    var e := At(s, a).stack.top.e;
    forall b ensures AsleepOn(s, b, e) ==> s.ev[e].condNum > 0 { AsleepIsCounted(s, b, e); }
    AllWake(s, e);
    hide Good, CanSig, AllAwoken;
  }

  lemma AllWake(s: State, e: int)
    ensures AllAwoken(s, e).ev == s.ev
    ensures forall b :: !AsleepOn(AllAwoken(s, e), b, e) && (!AsleepOn(s, b, e) ==> At(AllAwoken(s, e), b) == At(s, b))
  {}

  lemma AsleepIsCounted(s: State, b: int, e: int)
    requires Good(s)
    ensures Known(s, e) && AsleepOn(s, b, e) ==> s.ev[e].condNum > 0
  {
    if Known(s, e) && AsleepOn(s, b, e) { assert b in Threads(s.pc, e); }
  }
}
