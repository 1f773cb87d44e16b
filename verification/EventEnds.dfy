/** Calls of signal(), done() and any() come to an end, whatever other agents do meanwhile: they may wait, signal, clear
    and build events at any moment, as long as not without end new primitives are made. */
module EventEnds {
  import opened Events
  import opened EventLocks
  import opened EventDeadlock

  /** A run without end. */
  ghost predicate Forever(ss: nat -> State, steps: nat -> Step) {
    Init(ss(0)) && forall k: nat :: Can(ss(k), steps(k)) && Do(ss(k), steps(k)) == ss(k + 1)
  }

  predicate By(st: Step, a: int) {
    !st.NewPrim? && st.a == a
  }

  predicate Inside(p: Pc) {
    p.Sig? || p.AnyNext?
  }

  /** The agent is not left standing inside a call for ever. */
  ghost predicate Attended(ss: nat -> State, steps: nat -> Step, a: int) {
    forall k: nat {:trigger ss(k)} :: exists t: nat :: t >= k && (By(steps(t), a) || !Inside(At(ss(t), a)))
  }

  ghost predicate AtMost(ss: nat -> State, n: nat) {
    forall k: nat :: |ss(k).ev| <= n
  }

  lemma {:induction false} ForeverCore(ss: nat -> State, steps: nat -> Step, k: nat)
    requires Forever(ss, steps)
    ensures Core(ss(k))
  {
    hide Core, Can, Do, Init;
    if k == 0 {
      InitCore(ss(0));
    } else {
      ForeverCore(ss, steps, k - 1);
      assert Can(ss(k - 1), steps(k - 1)) && Do(ss(k - 1), steps(k - 1)) == ss(k);
      StepCore(ss(k - 1), steps(k - 1));
    }
  }

  // ---------------------------------------------------------------------------------------------
  // What a frame has still to do
  // ---------------------------------------------------------------------------------------------

  function Stage(ph: Phase): nat {
    match ph
    case ALock(_) => 6
    case APush(_) => 5
    case SLock => 4
    case SCv => 3
    case SNotify(_) => 2
    case SCond => 1
    case SDeps(_) => 0
  }

  function Left(p: Prim, ph: Phase): nat {
    match ph
    case SNotify(k) => if k < |p.waiting| then |p.waiting| - k else 0
    case SDeps(i) => if i < |p.deps| then |p.deps| - i else 0
    case _ => 0
  }

  predicate Less(p: Prim, f: Phase, q: Prim, g: Phase) {
    Stage(f) < Stage(g) || (Stage(f) == Stage(g) && Left(p, f) < Left(q, g))
  }

  // ---------------------------------------------------------------------------------------------
  // What other agents can change
  // ---------------------------------------------------------------------------------------------

  // Dependents are only added by a round of any(), and only the waiters themselves change the list.
  predicate ChangesDeps(s: State, st: Step, e: int) {
    st.Signaller? && st.sig.AnyPush? && InFrame(s, st.a) && At(s, st.a).stack.top.e == e
  }

  predicate ChangesList(s: State, st: Step, e: int) {
    st.Fiber? && match At(s, st.a)
                 case WEnlist(d, _) => d == e && Free(s, Cv(e))
                 case WDelist(d, _) => d == e && Free(s, Cv(e))
                 case _ => false
  }

  // The step of a changes at most one primitive and a's own control point.
  ghost predicate Local(s: State, u: State, a: int, e: int) {
    |s.ev| <= |u.ev| && 0 <= e < |u.ev| && forall b :: b != a ==> At(u, b) == At(s, b)
  }

  predicate SameDeps(s: State, u: State, e: int) {
    Known(s, e) && Known(u, e) && u.ev[e].deps == s.ev[e].deps
  }

  predicate SameList(s: State, u: State, e: int) {
    Known(s, e) && Known(u, e) && u.ev[e].waiting == s.ev[e].waiting
  }

  lemma Changed(s: State, u: State, a: int, d: int, p: Prim, q: Pc, e: int)
    requires Known(s, e) && Known(s, d) && u.ev == s.ev[d := p] && u.pc == s.pc[a := q] && p.deps == s.ev[d].deps
    ensures Local(s, u, a, e) && SameDeps(s, u, e)
    ensures d != e || p.waiting == s.ev[d].waiting ==> SameList(s, u, e)
  {}

  lemma WaitLockKeeps(s: State, a: int, d: int, timed: bool, e: int)
    requires Known(s, d) && Known(s, e)
    ensures var u := DoWaitLock(s, a, d, timed); Local(s, u, a, e) && SameDeps(s, u, e) && SameList(s, u, e)
  {
    hide DoWaitLock, Local, SameDeps, SameList;
    WaitLockTouches(s, a, d, timed);
    var u := DoWaitLock(s, a, d, timed);
    Changed(s, u, a, d, u.ev[d], u.pc[a], e);
  }

  lemma EnlistKeeps(s: State, a: int, d: int, timed: bool, e: int)
    requires Known(s, d) && Known(s, e)
    ensures var u := DoEnlist(s, a, d, timed); Local(s, u, a, e) && SameDeps(s, u, e) && (d != e ==> SameList(s, u, e))
  {
    var u := DoEnlist(s, a, d, timed);
    Changed(s, u, a, d, u.ev[d], u.pc[a], e);
  }

  lemma DelistKeeps(s: State, a: int, d: int, ok: bool, e: int)
    requires Known(s, d) && Known(s, e)
    ensures var u := DoDelist(s, a, d, ok); Local(s, u, a, e) && SameDeps(s, u, e) && (d != e ==> SameList(s, u, e))
  {
    hide RemoveFirst;
    var u := DoDelist(s, a, d, ok);
    Changed(s, u, a, d, u.ev[d], u.pc[a], e);
  }

  lemma ThreadTestKeeps(s: State, a: int, d: int, timed: bool, expired: bool, e: int)
    requires Known(s, d) && Known(s, e)
    ensures var u := DoThreadTest(s, a, d, timed, expired); Local(s, u, a, e) && SameDeps(s, u, e) && SameList(s, u, e)
  {
    hide DoThreadTest, Local, SameDeps, SameList;
    ThreadTestTouches(s, a, d, timed, expired);
    var u := DoThreadTest(s, a, d, timed, expired);
    Changed(s, u, a, d, u.ev[d], u.pc[a], e);
  }

  lemma MoveKeeps(s: State, u: State, a: int, e: int)
    requires Known(s, e) && u.ev == s.ev && a in u.pc && u.pc == s.pc[a := u.pc[a]]
    ensures Local(s, u, a, e) && SameDeps(s, u, e) && SameList(s, u, e)
  {}

  lemma FiberKeeps(s: State, a: int, st: FiberStep, e: int)
    requires CanFiber(s, a, st) && Known(s, e)
    ensures Local(s, DoFiber(s, a, st), a, e) && SameDeps(s, DoFiber(s, a, st), e)
    ensures !ChangesList(s, Fiber(a, st), e) ==> SameList(s, DoFiber(s, a, st), e)
  {
    hide Local, SameDeps, SameList, DoWaitLock, DoEnlist, DoDelist, Pred;
    var p := At(s, a);
    match st
    case WaitLock => WaitLockKeeps(s, a, p.e, p.timed, e);
    case Enlist => EnlistKeeps(s, a, p.e, p.timed, e);
    case Delist => DelistKeeps(s, a, p.e, p.ok, e);
    case _ => MoveKeeps(s, DoFiber(s, a, st), a, e);
  }

  lemma ThreadKeeps(s: State, a: int, st: ThreadStep, e: int)
    requires CanThread(s, a, st) && Known(s, e)
    ensures var u := DoThread(s, a, st); Local(s, u, a, e) && SameDeps(s, u, e) && SameList(s, u, e)
  {
    hide Local, SameDeps, SameList, DoThreadTest;
    var p := At(s, a);
    match st
    case ThreadTest(expired) => ThreadTestKeeps(s, a, p.e, p.timed, expired, e);
    case _ => MoveKeeps(s, DoThread(s, a, st), a, e);
  }

  lemma UserKeeps(s: State, a: int, st: UserStep, e: int)
    requires CanUser(s, a, st) && Known(s, e)
    ensures var u := DoUser(s, a, st); Local(s, u, a, e) && SameDeps(s, u, e) && SameList(s, u, e)
  {
    hide Local, SameDeps, SameList, DoDone, DoStartAny;
    var u := DoUser(s, a, st);
    match st
    case StartWait(_, _) => MoveKeeps(s, u, a, e);
    case StartSignal(_) => MoveKeeps(s, u, a, e);
    case StartDone(d) => DoneKeeps(s, a, d, e);
    case AddCount(d, _) => Changed(s, u, a, d, u.ev[d], Out, e);
    case ClearEvent(d) => Changed(s, u, a, d, u.ev[d], Out, e);
    case TestEvent(d) => Changed(s, u, a, d, u.ev[d], Out, e);
    case StartAny(kind, sources) => AnyKeeps(s, a, kind, sources, e);
  }

  lemma DoneKeeps(s: State, a: int, d: int, e: int)
    requires Known(s, d) && Known(s, e) && a in s.pc
    ensures var u := DoDone(s, a, d); Local(s, u, a, e) && SameDeps(s, u, e) && SameList(s, u, e)
  {
    var u := DoDone(s, a, d);
    assert s.pc == s.pc[a := s.pc[a]];
    Changed(s, u, a, d, u.ev[d], u.pc[a], e);
  }

  lemma AnyKeeps(s: State, a: int, kind: Kind, sources: seq<int>, e: int)
    requires Known(s, e)
    ensures var u := DoStartAny(s, a, kind, sources); Local(s, u, a, e) && SameDeps(s, u, e) && SameList(s, u, e)
  {}

  // A signaller may besides stir waiters.
  ghost predicate LocalInside(s: State, u: State, a: int, e: int) {
    |s.ev| <= |u.ev| && 0 <= e < |u.ev| && forall b :: b != a && Inside(At(s, b)) ==> At(u, b) == At(s, b)
  }

  lemma StirsKeeps(s: State, u: State, a: int, e: int)
    requires Stirs(s, u, a) && Known(s, e)
    ensures LocalInside(s, u, a, e) && SameDeps(s, u, e) && SameList(s, u, e)
  {}

  lemma LocalIsInside(s: State, u: State, a: int, e: int)
    requires Local(s, u, a, e)
    ensures LocalInside(s, u, a, e)
  {}

  lemma SigLockKeeps(s: State, a: int, f: Frame, below: Stack, ret: Return, e: int)
    requires Known(s, f.e) && Known(s, e)
    ensures var u := DoSigLock(s, a, f, below, ret); Local(s, u, a, e) && SameDeps(s, u, e) && SameList(s, u, e)
  {
    var u := DoSigLock(s, a, f, below, ret);
    hide Local, SameDeps, SameList, Popped, BelowEvent;
    assert u.ev[f.e].deps == s.ev[f.e].deps && u.ev[f.e].waiting == s.ev[f.e].waiting;
    Changed(s, u, a, f.e, u.ev[f.e], u.pc[a], e);
  }

  lemma AnyPushKeeps(s: State, a: int, d: int, made: int, below: Stack, ret: Return, e: int)
    requires Known(s, d) && Known(s, e)
    ensures var u := DoAnyPush(s, a, d, made, below, ret);
            Local(s, u, a, e) && (d != e ==> SameDeps(s, u, e)) && SameList(s, u, e)
  {}

  lemma SigKeeps(s: State, a: int, st: SigStep, e: int)
    requires CanSig(s, a, st) && Known(s, e)
    ensures var u := DoSig(s, a, st);
            LocalInside(s, u, a, e) && SameList(s, u, e) && (!ChangesDeps(s, Signaller(a, st), e) ==> SameDeps(s, u, e))
  {
    hide Local, LocalInside, SameDeps, SameList, DoSigLock, DoSigNotify, DoSigCond, DoAnyPush, Stirs;
    var p, u := At(s, a), DoSig(s, a, st);
    match st
    case SigNotify =>
      NotifyStirs(s, a, p.stack.top.e, p.stack.top.ph.k, p.stack.below, p.ret);
      StirsKeeps(s, u, a, e);
    case SigCond(lucky) =>
      CondStirs(s, a, p.stack.top.e, lucky, p.stack.below, p.ret);
      StirsKeeps(s, u, a, e);
    case SigLock =>
      SigLockKeeps(s, a, p.stack.top, p.stack.below, p.ret, e);
      LocalIsInside(s, u, a, e);
    case AnyPush =>
      AnyPushKeeps(s, a, p.stack.top.e, p.stack.top.ph.new_, p.stack.below, p.ret, e);
      LocalIsInside(s, u, a, e);
    case _ =>
      MoveKeeps(s, u, a, e);
      LocalIsInside(s, u, a, e);
  }

  lemma StepKeeps(s: State, st: Step, a: int, e: int)
    requires Can(s, st) && Known(s, e) && !By(st, a) && Inside(At(s, a))
    ensures At(Do(s, st), a) == At(s, a) && |s.ev| <= |Do(s, st).ev|
    ensures !ChangesDeps(s, st, e) ==> SameDeps(s, Do(s, st), e)
    ensures !ChangesList(s, st, e) ==> SameList(s, Do(s, st), e)
  {
    hide DoFiber, DoThread, DoSig, DoUser, CanFiber, CanThread, CanSig, CanUser, NewOk, ChangesDeps, ChangesList;
    match st
    case Fiber(b, f) => FiberKeeps(s, b, f, e);
    case Thread(b, t) => ThreadKeeps(s, b, t, e);
    case Signaller(b, g) => SigKeeps(s, b, g, e);
    case User(b, o) => UserKeeps(s, b, o, e);
    case NewPrim(_) =>
  }

  // Where an agent stands, the primitives it holds keep what its call relies on.
  ghost predicate Kept(s: State, u: State, a: int) {
    && At(u, a) == At(s, a) && |s.ev| <= |u.ev|
    && (At(s, a).Sig? ==> forall e :: Known(s, e) ==>
          && (StackHolds(At(s, a).stack, Ev(e)) ==> SameDeps(s, u, e))
          && (StackHolds(At(s, a).stack, Cv(e)) ==> SameList(s, u, e)))
  }

  // To change the dependents of e one must hold its mutex.
  lemma DepsNeedMutex(s: State, st: Step, a: int, e: int)
    requires LocksOk(s) && At(s, a).Sig? && StackHolds(At(s, a).stack, Ev(e)) && !By(st, a) && Can(s, st)
    ensures !ChangesDeps(s, st, e)
  {
    if ChangesDeps(s, st, e) {
      hide LocksOk, CanFiber, CanThread, CanUser, Free;
      assert Holds(At(s, a), WorkOf(s, a), Ev(e));
      assert Holds(At(s, st.a), WorkOf(s, st.a), Ev(e));
      OneHolder(s, a, st.a, Ev(e));
    }
  }

  lemma OneHolder(s: State, a: int, b: int, l: Lock)
    requires LocksOk(s) && Holds(At(s, a), WorkOf(s, a), l)
    ensures !Free(s, l) && (Holds(At(s, b), WorkOf(s, b), l) ==> a == b)
  {
    hide Holds, At, WorkOf;
  }

  lemma ListNeedsMutex(s: State, st: Step, a: int, e: int)
    requires LocksOk(s) && At(s, a).Sig? && StackHolds(At(s, a).stack, Cv(e))
    ensures !ChangesList(s, st, e)
  {
    assert Holds(At(s, a), WorkOf(s, a), Cv(e));
    OneHolder(s, a, a, Cv(e));
  }

  lemma OtherStep(s: State, st: Step, a: int)
    requires Core(s) && Can(s, st) && !By(st, a) && Inside(At(s, a))
    ensures Kept(s, Do(s, st), a)
  {
    var u := Do(s, st);
    hide Can, Do, Shape, LocksOk, SameDeps, SameList, ChangesDeps, ChangesList, StackHolds, At;
    forall e | Known(s, e) && At(s, a).Sig?
      ensures StackHolds(At(s, a).stack, Ev(e)) ==> SameDeps(s, u, e)
      ensures StackHolds(At(s, a).stack, Cv(e)) ==> SameList(s, u, e)
    {
      StepKeeps(s, st, a, e);
      if StackHolds(At(s, a).stack, Ev(e)) { DepsNeedMutex(s, st, a, e); }
      if StackHolds(At(s, a).stack, Cv(e)) { ListNeedsMutex(s, st, a, e); }
    }
    StepStays(s, st, a);
  }

  lemma StepStays(s: State, st: Step, a: int)
    requires Core(s) && Can(s, st) && !By(st, a) && Inside(At(s, a))
    ensures At(Do(s, st), a) == At(s, a) && |s.ev| <= |Do(s, st).ev|
  {
    var e := StandsAt(s, a);
    StepKeeps(s, st, a, e);
  }

  // An event at which the call is
  function StandsAt(s: State, a: int): (e: int)
    requires Inside(At(s, a)) && GoodPc(s, a)
    ensures Known(s, e)
  {
    match At(s, a)
    case Sig(st, _) => st.top.e
    case AnyNext(m, _) => m
  }

  // The next step of the agent itself
  lemma {:induction false} Turn(ss: nat -> State, steps: nat -> Step, a: int, k: nat, limit: nat) returns (t: nat)
    requires Forever(ss, steps) && Inside(At(ss(k), a)) && k <= limit
    requires By(steps(limit), a) || !Inside(At(ss(limit), a))
    ensures k <= t && By(steps(t), a) && Kept(ss(k), ss(t), a) && Can(ss(t), steps(t))
            && Do(ss(t), steps(t)) == ss(t + 1)
    decreases limit - k
  {
    assert Can(ss(k), steps(k)) && Do(ss(k), steps(k)) == ss(k + 1);
    hide Can, Do, Forever, Core, At;
    if By(steps(k), a) {
      t := k;
    } else {
      ForeverCore(ss, steps, k);
      OtherStep(ss(k), steps(k), a);
      t := Turn(ss, steps, a, k + 1, limit);
    }
  }

  // ---------------------------------------------------------------------------------------------
  // The agent's own steps
  // ---------------------------------------------------------------------------------------------

  // The frame f has come further, or signals a newer event.
  ghost predicate Goes(s: State, u: State, a: int, f: Frame, base: Stack, ret: Return) {
    && Known(s, f.e) && Known(u, f.e) && At(u, a).Sig? && At(u, a).ret == ret && At(u, a).stack.Push?
    && var st := At(u, a).stack;
       || (st.top.e == f.e && st.below == base && Less(u.ev[f.e], st.top.ph, s.ev[f.e], f.ph))
       || (st.top.e > f.e && st.below.Push? && st.below.below == base && st.below.top.e == f.e
           && (st.below.top.ph.SDeps? || st.below.top.ph.APush?) && Less(u.ev[f.e], st.below.top.ph, s.ev[f.e], f.ph))
  }

  lemma OwnStays(s: State, st: Step, a: int, f: Frame, base: Stack, ret: Return, e: int)
    requires Core(s) && Can(s, st) && By(st, a) && At(s, a) == Sig(Push(f, base), ret)
    requires Known(s, e) && StackHolds(base, Ev(e))
    ensures SameDeps(s, Do(s, st), e)
  {
    assert GoodPc(s, a) && st.Signaller?;
    hide LocksOk, DoSig, CanSig, GoodPc;
    BelowIsOlder(s.ev, f, base, ret, Ev(e));
    SigKeeps(s, a, st.sig, e);
  }

  lemma LockGoes(s: State, a: int, f: Frame, base: Stack, ret: Return)
    requires Known(s, f.e) && f.ph == SLock
    ensures var u := DoSigLock(s, a, f, base, ret);
            |u.ev| == |s.ev| && (At(u, a) == Popped(base, ret) || Goes(s, u, a, f, base, ret))
  {
    hide Popped, BelowEvent;
  }

  lemma NotifyGoes(s: State, a: int, f: Frame, base: Stack, ret: Return)
    requires Known(s, f.e) && f.ph.SNotify?
    ensures var u := DoSigNotify(s, a, f.e, f.ph.k, base, ret); |u.ev| == |s.ev| && Goes(s, u, a, f, base, ret)
  {
    hide Enqueued;
    NotifyStirs(s, a, f.e, f.ph.k, base, ret);
    var u := DoSigNotify(s, a, f.e, f.ph.k, base, ret);
    assert HasTarget(s.ev[f.e], f.ph.k) || At(u, a).stack.top.ph == SCond;
  }

  lemma DepsGo(s: State, a: int, f: Frame, base: Stack, ret: Return)
    requires GoodPc(s, a) && Ordered(s.ev) && At(s, a) == Sig(Push(f, base), ret) && f.ph.SDeps?
    ensures Known(s, f.e)
    ensures var u := DoSigDeps(s, a, f.e, f.ph.i, base, ret);
            |u.ev| == |s.ev| && (At(u, a) == Popped(base, ret) || Goes(s, u, a, f, base, ret))
  {
    if f.ph.i < |s.ev[f.e].deps| { assert s.ev[f.e].deps[f.ph.i] in s.ev[f.e].deps; }
    hide Popped;
  }

  lemma AnyLockGoes(s: State, a: int, f: Frame, base: Stack, ret: Return)
    requires GoodPc(s, a) && At(s, a) == Sig(Push(f, base), ret) && f.ph.ALock?
    ensures Known(s, f.e)
    ensures var u := DoAnyLock(s, a, f.e, f.ph.new_, base, ret); |u.ev| == |s.ev| && Goes(s, u, a, f, base, ret)
  {}

  lemma OwnGoes(s: State, a: int, st: SigStep, f: Frame, base: Stack, ret: Return)
    requires Core(s) && CanSig(s, a, st) && At(s, a) == Sig(Push(f, base), ret)
    ensures var u := DoSig(s, a, st);
            |u.ev| == |s.ev| && (At(u, a) == Popped(base, ret) || Goes(s, u, a, f, base, ret))
  {
    assert GoodPc(s, a) && Ordered(s.ev);
    hide GoodPc, Ordered, Goes, Popped, LocksOk, Shape, DoSigLock, DoSigNotify, DoSigCond, DoSigDeps, DoAnyLock;
    match st
    case SigLock => LockGoes(s, a, f, base, ret);
    case SigCv => CvGoes(s, a, f, base, ret);
    case SigNotify => NotifyGoes(s, a, f, base, ret);
    case SigCond(lucky) =>
      CondStirs(s, a, f.e, lucky, base, ret);
      CondGoes(s, DoSigCond(s, a, f.e, lucky, base, ret), a, f, base, ret);
    case SigDeps => DepsGo(s, a, f, base, ret);
    case AnyLock => AnyLockGoes(s, a, f, base, ret);
    case _ =>
  }

  lemma CvGoes(s: State, a: int, f: Frame, base: Stack, ret: Return)
    requires Known(s, f.e) && f.ph == SCv
    ensures Goes(s, DoSigCv(s, a, f.e, base, ret), a, f, base, ret)
  {}

  lemma CondGoes(s: State, u: State, a: int, f: Frame, base: Stack, ret: Return)
    requires Known(s, f.e) && f.ph == SCond && u.ev == s.ev && At(u, a) == Sig(Push(Frame(f.e, SDeps(0)), base), ret)
    ensures Goes(s, u, a, f, base, ret)
  {}

  lemma OwnStep(s: State, st: Step, a: int, f: Frame, base: Stack, ret: Return)
    requires Core(s) && Can(s, st) && By(st, a) && At(s, a) == Sig(Push(f, base), ret)
    ensures var u := Do(s, st); |u.ev| == |s.ev| && (At(u, a) == Popped(base, ret) || Goes(s, u, a, f, base, ret))
    ensures forall e :: Known(s, e) && StackHolds(base, Ev(e)) ==> SameDeps(s, Do(s, st), e)
  {
    assert st.Signaller?;
    forall e | Known(s, e) && StackHolds(base, Ev(e)) ensures SameDeps(s, Do(s, st), e) {
      OwnStays(s, st, a, f, base, ret, e);
    }
    OwnGoes(s, a, st.sig, f, base, ret);
  }

  // ---------------------------------------------------------------------------------------------
  // Calls end
  // ---------------------------------------------------------------------------------------------

  ghost predicate BaseKept(s: State, u: State, base: Stack) {
    |s.ev| <= |u.ev| && forall e :: Known(s, e) && StackHolds(base, Ev(e)) ==> SameDeps(s, u, e)
  }

  // What a frame has still to do stays while others move.
  lemma SameLeft(s: State, v: State, a: int, f: Frame, base: Stack, ret: Return)
    requires Kept(s, v, a) && At(s, a) == Sig(Push(f, base), ret) && Known(s, f.e)
    ensures Known(v, f.e) && Left(v.ev[f.e], f.ph) == Left(s.ev[f.e], f.ph)
    ensures forall e :: Known(s, e) && StackHolds(base, Ev(e)) ==> SameDeps(s, v, e)
  {
    assert forall l :: FrameHolds(f, l) || StackHolds(base, l) ==> StackHolds(At(s, a).stack, l);
  }

  lemma InRange(ss: nat -> State, steps: nat -> Step, a: int, k: nat)
    requires Forever(ss, steps) && At(ss(k), a).Sig?
    ensures At(ss(k), a).stack.Push? && Known(ss(k), At(ss(k), a).stack.top.e)
  {
    ForeverCore(ss, steps, k);
    assert GoodPc(ss(k), a);
  }

  // Others move, then the agent itself does.
  lemma Advance(ss: nat -> State, steps: nat -> Step, a: int, k: nat, f: Frame, base: Stack, ret: Return)
      returns (t: nat)
    requires Forever(ss, steps) && Attended(ss, steps, a) && At(ss(k), a) == Sig(Push(f, base), ret)
    ensures t > k && (At(ss(t), a) == Popped(base, ret) || Goes(ss(k), ss(t), a, f, base, ret))
    ensures BaseKept(ss(k), ss(t), base)
  {
    InRange(ss, steps, a, k);
    var limit := Attention(ss, steps, a, k);
    hide Attended;
    var m := Turn(ss, steps, a, k, limit);
    ForeverCore(ss, steps, m);
    hide Forever, Core, Can, Do, LocksOk, Shape, Known, FrameHolds, StackHolds, Popped;
    SameLeft(ss(k), ss(m), a, f, base, ret);
    OwnStep(ss(m), steps(m), a, f, base, ret);
    t := m + 1;
    GoesOn(ss(k), ss(m), ss(t), a, f, base, ret);
  }

  lemma Attention(ss: nat -> State, steps: nat -> Step, a: int, k: nat) returns (limit: nat)
    requires Attended(ss, steps, a)
    ensures limit >= k && (By(steps(limit), a) || !Inside(At(ss(limit), a)))
  {
    var s := ss(k);
    limit :| limit >= k && (By(steps(limit), a) || !Inside(At(ss(limit), a)));
  }

  lemma GoesOn(s: State, v: State, u: State, a: int, f: Frame, base: Stack, ret: Return)
    requires Known(s, f.e) && Known(v, f.e) && Left(v.ev[f.e], f.ph) == Left(s.ev[f.e], f.ph)
    requires |s.ev| <= |v.ev| == |u.ev|
    requires forall e :: Known(s, e) && StackHolds(base, Ev(e)) ==> SameDeps(s, v, e)
    requires forall e :: Known(v, e) && StackHolds(base, Ev(e)) ==> SameDeps(v, u, e)
    ensures BaseKept(s, u, base)
    ensures Goes(v, u, a, f, base, ret) ==> Goes(s, u, a, f, base, ret)
  {
    hide StackHolds, Left, Stage;
  }

  // What the frame under a call has to do is the same when the call is over.
  lemma LeftAfterCall(u: State, v: State, g: Frame, base: Stack)
    requires Known(u, g.e) && (g.ph.SDeps? || g.ph.APush?)
    requires BaseKept(u, v, Push(g, base))
    ensures Known(v, g.e) && Left(v.ev[g.e], g.ph) == Left(u.ev[g.e], g.ph)
    ensures BaseKept(u, v, base)
  {
    assert FrameHolds(g, Ev(g.e)) && StackHolds(Push(g, base), Ev(g.e));
    assert forall l :: StackHolds(base, l) ==> StackHolds(Push(g, base), l);
  }

  /** From the time k at which agent a is in frame f, the frame is done at some later time; what the frames below
      hold keeps its dependents until then. */
  lemma {:induction false} FrameEnds(ss: nat -> State, steps: nat -> Step, n: nat, a: int, k: nat, f: Frame,
                                     base: Stack,
                                     ret: Return, left: nat)
      returns (j: nat)
    requires Forever(ss, steps) && Attended(ss, steps, a) && AtMost(ss, n)
    requires At(ss(k), a) == Sig(Push(f, base), ret) && Known(ss(k), f.e) && left == Left(ss(k).ev[f.e], f.ph)
    ensures j > k && At(ss(j), a) == Popped(base, ret) && BaseKept(ss(k), ss(j), base)
    decreases n - f.e, Stage(f.ph), left
  {
    assert |ss(k).ev| <= n;
    var t := Advance(ss, steps, a, k, f, base, ret);
    hide Forever, Attended, AtMost, Popped, Left, Stage, StackHolds, SameDeps;
    var u := ss(t);
    if At(u, a) == Popped(base, ret) {
      j := t;
    } else if At(u, a).stack.top.e == f.e {
      var g := At(u, a).stack.top;
      j := FrameEnds(ss, steps, n, a, t, g, base, ret, Left(u.ev[g.e], g.ph));
    } else {
      InRange(ss, steps, a, t);
      var c, g := At(u, a).stack.top, At(u, a).stack.below.top;
      assert c.e < |u.ev| <= n;
      var m := FrameEnds(ss, steps, n, a, t, c, Push(g, base), ret, Left(u.ev[c.e], c.ph));
      LeftAfterCall(u, ss(m), g, base);
      j := FrameEnds(ss, steps, n, a, m, g, base, ret, Left(ss(m).ev[g.e], g.ph));
    }
  }

  lemma {:induction false} StackEnds(ss: nat -> State, steps: nat -> Step, n: nat, a: int, k: nat, st: Stack,
                                     ret: Return)
      returns (j: nat)
    requires Forever(ss, steps) && Attended(ss, steps, a) && AtMost(ss, n) && At(ss(k), a) == Sig(st, ret)
    ensures j > k && At(ss(j), a) == Popped(Nil, ret)
    decreases st
  {
    InRange(ss, steps, a, k);
    hide Forever, Attended, AtMost;
    j := FrameEnds(ss, steps, n, a, k, st.top, st.below, ret, Left(ss(k).ev[st.top.e], st.top.ph));
    if st.below.Push? { j := StackEnds(ss, steps, n, a, j, st.below, ret); }
  }

  lemma {:induction false} AnyEnds(ss: nat -> State, steps: nat -> Step, n: nat, a: int, k: nat, made: int,
                                   rest: seq<int>)
      returns (j: nat)
    requires Forever(ss, steps) && Attended(ss, steps, a) && AtMost(ss, n) && At(ss(k), a) == AnyNext(made, rest)
    ensures j > k && At(ss(j), a) == Out
    decreases |rest|
  {
    var limit := Attention(ss, steps, a, k);
    hide Attended;
    var t := Turn(ss, steps, a, k, limit);
    NextRound(ss(t), steps(t), a);
    hide Forever, Can, Do, AtMost;
    j := t + 1;
    if rest != [] {
      j := StackEnds(ss, steps, n, a, t + 1, At(ss(t + 1), a).stack, ToAny(made, rest[1..]));
      j := AnyEnds(ss, steps, n, a, j, made, rest[1..]);
    }
  }

  lemma NextRound(s: State, st: Step, a: int)
    requires Can(s, st) && By(st, a) && At(s, a).AnyNext?
    ensures var rest, p := At(s, a).rest, At(Do(s, st), a);
            if rest == [] then p == Out else p.Sig? && p.ret == ToAny(At(s, a).made, rest[1..])
  {
    assert st.Signaller? && st.sig.AnyStep?;
  }

  /** Every call of signal(), done() or any() returns, for whatever the other agents do in the meantime, if the agent
      is not left standing for ever and the number of primitives stays bounded. */
  lemma CallReturns(ss: nat -> State, steps: nat -> Step, n: nat, a: int, k: nat)
    requires Forever(ss, steps) && Attended(ss, steps, a) && AtMost(ss, n) && Inside(At(ss(k), a))
    ensures exists j: nat :: j > k && At(ss(j), a) == Out
  {
    hide Forever, Attended, AtMost;
    match At(ss(k), a)
    case AnyNext(made, rest) => var j := AnyEnds(ss, steps, n, a, k, made, rest);
    case Sig(st, ret) =>
      var j := StackEnds(ss, steps, n, a, k, st, ret);
      if ret.ToAny? { var i := AnyEnds(ss, steps, n, a, j, ret.made, ret.rest); }
  }
}
