/** Every step keeps what the holders of event mutexes know, and loses no wakeup. */
module EventWakeSteps {
  import opened Events
  import opened EventLocks
  import opened EventBooks
  import opened EventWakeups

  // The control point is about e, if about any primitive.
  predicate About(p: Pc, e: int) {
    match p
    case Out => true
    case AnyNext(_, _) => true
    case Sig(st, _) => st.Push? ==> st.top.e == e
    case _ => p.e == e
  }

  predicate Leaves(q: Pc, e: int) {
    q.Sig? || q.WLock? || About(q, e)
  }

  lemma AboutNothingElse(p: Pc, e: int, d: int, k: Kind)
    requires d != e
    ensures About(p, e) ==> !Aware(p, d) && !TopIs(p, d)
    ensures Leaves(p, e) ==> !Unaware(p, d, k)
  {}

  // Agent a is busy with e and with nothing else.
  ghost predicate Busy(s: State, u: State, a: int, e: int) {
    && OnlyAgent(s, u, a) && |u.ev| == |s.ev| && Known(s, e)
    && (forall d :: Known(s, d) && d != e ==> u.ev[d] == s.ev[d])
    && u.ev[e].kind == s.ev[e].kind && About(At(s, a), e) && Leaves(At(u, a), e)
    && (u.ev[e].signalled != s.ev[e].signalled || u.ev[e].waiting != s.ev[e].waiting ==>
          Ev(e) !in s.mx || s.mx[Ev(e)] == a)
    && (0 <= s.ev[e].count < U32 ==> 0 <= u.ev[e].count < U32)
  }

  lemma BusyBut(s: State, u: State, a: int, e: int)
    requires Core(s) && Facts(s) && Busy(s, u, a, e) && Fact(u.ev, At(u, a))
    ensures Facts(u) && KeepsBut(s, u, e)
  {
    forall d, k | d != e ensures !Aware(At(s, a), d) && !TopIs(At(s, a), d) && !Unaware(At(u, a), d, k) {
      AboutNothingElse(At(s, a), e, d, k);
      AboutNothingElse(At(u, a), e, d, k);
    }
    hide Core, Facts, KeepsBut, Owed, Aware, Unaware, Fact, About, Leaves;
    FactsKept(s, u, a);
    OthersOwed(s, u, a, e);
  }

  lemma BusyGood(s: State, u: State, a: int, e: int)
    requires Core(s) && Facts(s) && Busy(s, u, a, e) && Fact(u.ev, At(u, a))
    requires Owed(s, e) ==> Owed(u, e)
    ensures Facts(u) && Keeps(s, u)
  {
    hide Core, Facts, Owed, Busy, Fact, Keeps, KeepsBut;
    BusyBut(s, u, a, e);
    Together(s, u, e);
  }

  // The agent moves on without a change to the list of e, nor a first signal.
  lemma MoveGood(s: State, u: State, a: int, e: int)
    requires Good(s) && Busy(s, u, a, e) && Fact(u.ev, At(u, a)) && u.ev[e].waiting == s.ev[e].waiting
    requires Pred(u.ev[e]) ==>
      && Pred(s.ev[e])
      && (Unaware(At(u, a), e, s.ev[e].kind) ==>
            Unaware(At(s, a), e, s.ev[e].kind) && (OnCond(At(s, a), e) ==> OnCond(At(u, a), e)))
      && (s.ev[e].kind.Auto? && Aware(At(s, a), e) ==> Aware(At(u, a), e))
      && !Active(At(s, a), e, s.ev[e].kind)
    ensures Facts(u) && Keeps(s, u)
  {
    hide Core, Books, Facts, Keeps, Owed, Fact, Pred, Aware, Unaware, Active, OnCond;
    if !Pred(u.ev[e]) { OwedVacuously(u, e); } else if Owed(s, e) { OwedByMove(s, u, a, e); }
    BusyGood(s, u, a, e);
  }

  // ---------------------------------------------------------------------------------------------
  // Waiting
  // ---------------------------------------------------------------------------------------------

  lemma WaitLockGood(s: State, a: int, e: int, t: bool)
    requires Good(s) && At(s, a) == WLock(e, t) && Known(s, e) && Free(s, Ev(e))
    ensures Facts(DoWaitLock(s, a, e, t)) && Keeps(s, DoWaitLock(s, a, e, t))
  {
    hide Core, Books, Facts, Keeps, Owed;
    if Pred(s.ev[e]) { ReturnsAtOnce(s, a, e, t); } else { BeginsToWait(s, a, e, t); }
  }

  lemma ReturnsAtOnce(s: State, a: int, e: int, t: bool)
    requires Good(s) && At(s, a) == WLock(e, t) && Known(s, e) && Free(s, Ev(e)) && Pred(s.ev[e])
    ensures Facts(DoWaitLock(s, a, e, t)) && Keeps(s, DoWaitLock(s, a, e, t))
  {
    var u := Go(SetEv(s, e, Consume(s.ev[e])), a, Out);
    assert DoWaitLock(s, a, e, t) == u;
    hide Core, Books, Facts, Keeps, Owed, DoWaitLock;
    MoveGood(s, u, a, e);
  }

  lemma BeginsToWait(s: State, a: int, e: int, t: bool)
    requires Good(s) && At(s, a) == WLock(e, t) && Known(s, e) && Free(s, Ev(e)) && !Pred(s.ev[e])
    ensures Facts(DoWaitLock(s, a, e, t)) && Keeps(s, DoWaitLock(s, a, e, t))
  {
    var u := DoWaitLock(s, a, e, t);
    hide Good;
    BeginsBusy(s, u, a, e, t);
    hide Facts, Keeps, Owed, Busy, DoWaitLock, Fact;
    OwedVacuously(u, e);
    assert Core(s) && Facts(s) by { GoodParts(s); }
    BusyGood(s, u, a, e);
  }

  lemma GoodParts(s: State)
    requires Good(s)
    ensures Core(s) && Books(s) && Facts(s)
  {}

  lemma BeginsBusy(s: State, u: State, a: int, e: int, t: bool)
    requires At(s, a) == WLock(e, t) && Known(s, e) && Free(s, Ev(e)) && !Pred(s.ev[e])
    requires u.ev == s.ev[e := Joined(s.ev[e], a in s.worker)] && OnlyAgent(s, u, a)
    requires At(u, a) == if a in s.worker then WEnlist(e, t) else TCheck(e, t)
    ensures Known(u, e) && !Pred(u.ev[e]) && Fact(u.ev, At(u, a)) && Busy(s, u, a, e)
  {}

  // A lock has one holder.
  lemma OneHolder(s: State, a: int, b: int, l: Lock)
    requires LocksOk(s) && Holds(At(s, a), WorkOf(s, a), l) && a != b
    ensures !Holds(At(s, b), WorkOf(s, b), l)
  {
    assert l in s.mx && s.mx[l] == a;
  }

  // Nobody walks the list of e while its mutex is free.
  lemma NobodyWalks(s: State, e: int, b: int)
    requires LocksOk(s) && Free(s, Cv(e)) && TopIs(At(s, b), e)
    ensures !At(s, b).stack.top.ph.SNotify?
  {
    assert At(s, b).stack.top.ph.SNotify? ==> Holds(At(s, b), WorkOf(s, b), Cv(e));
  }

  // The list of e changes while nobody walks it.
  lemma OwedWhileEdited(s: State, u: State, a: int, e: int)
    requires Core(s) && Known(s, e) && Known(u, e) && Owed(s, e) && OnlyAgent(s, u, a) && Free(s, Cv(e))
    requires u.ev[e].kind == s.ev[e].kind
    requires Pred(u.ev[e]) ==> Pred(s.ev[e])
    requires !Unaware(At(u, a), e, s.ev[e].kind) && !TopIs(At(s, a), e)
    requires s.ev[e].kind.Auto? ==> !Aware(At(s, a), e)
    ensures Owed(u, e)
  {
    forall b | TopIs(At(s, b), e) ensures !At(s, b).stack.top.ph.SNotify? { NobodyWalks(s, e, b); }
    hide Core, Owed, Unaware, Pred;
    OwedKept(s, u, e);
  }

  lemma EnlistGood(s: State, a: int, e: int, t: bool)
    requires Good(s) && At(s, a) == WEnlist(e, t) && Known(s, e) && Free(s, Cv(e))
    ensures Facts(DoEnlist(s, a, e, t)) && Keeps(s, DoEnlist(s, a, e, t))
  {
    var u := DoEnlist(s, a, e, t);
    assert Fact(s.ev, At(s, a));
    assert Holds(At(s, a), WorkOf(s, a), Ev(e));
    hide Core, Books, Facts, Keeps, Owed;
    if !Pred(u.ev[e]) { OwedVacuously(u, e); } else if Owed(s, e) { OwedWhileEdited(s, u, a, e); }
    BusyGood(s, u, a, e);
  }

  lemma TestPredGood(s: State, a: int, e: int, t: bool)
    requires Good(s) && At(s, a) == WLoop(e, t) && Known(s, e)
    ensures Facts(DoTestPred(s, a, e, t)) && Keeps(s, DoTestPred(s, a, e, t))
  {
    hide Core, Books, Facts, Keeps, Owed;
    var u := DoTestPred(s, a, e, t);
    MoveGood(s, u, a, e);
  }

  lemma DelistGood(s: State, a: int, e: int, ok: bool)
    requires Good(s) && At(s, a) == WDelist(e, ok) && Known(s, e) && Free(s, Cv(e))
    ensures Facts(DoDelist(s, a, e, ok)) && Keeps(s, DoDelist(s, a, e, ok))
  {
    var u := DoDelist(s, a, e, ok);
    assert Holds(At(s, a), WorkOf(s, a), Ev(e));
    assert GoodPc(s, a);
    hide Core, Books, Facts, Keeps, Owed;
    if !Pred(u.ev[e]) { OwedVacuously(u, e); } else if Owed(s, e) { OwedWhileEdited(s, u, a, e); }
    BusyGood(s, u, a, e);
  }

  // No wakeup of e is lost, or it was not harmless.
  ghost predicate Exact(s: State, st: Step, u: State, e: int)
    requires Known(s, e)
  {
    Known(u, e) && (Owed(s, e) ==> (Owed(u, e) <==> !Harmful(s, st, e)))
  }

  lemma ExactlyKept(s: State, st: Step, u: State, e: int)
    requires Known(s, e) && Keeps(s, u) && !Harmful(s, st, e)
    ensures Exact(s, st, u, e)
  {
    hide Owed, Harmful;
  }

  // The steps of a waiter that touch no primitive.
  predicate Moves(p: Pc, q: Pc) {
    match p
    case WWork(e, t) => q == WBoth(e, t)
    case WBoth(e, t) => q == WPark(e, t)
    case WPark(e, t) => q == WParked(e, t, false)
    case WParked(e, t, queued) => q == WParked(e, t, true) || (queued && q == WRelock(e, t))
    case WRelock(e, t) => q == WLoop(e, t) || (t && (q == WDelist(e, false) || q == WDelist(e, true)))
    case TCommit(e, t) => q == TSleep(e, t, true)
    case TSleep(e, t, asleep) => q == TSleep(e, t, false) || (!asleep && q == TCheck(e, t))
    case _ => false
  }

  // A fiber gives up at its deadline.
  predicate GivesUp(p: Pc, q: Pc) {
    p.WRelock? && q == WDelist(p.e, false)
  }

  lemma PlainGood(s: State, u: State, a: int, q: Pc)
    requires Good(s) && Moves(At(s, a), q) && Fact(s.ev, q)
    requires u.ev == s.ev && u.pc == s.pc[a := q] && OnlyAgent(s, u, a)
    requires GivesUp(At(s, a), q) && Known(s, q.e) && s.ev[q.e].kind.Auto? ==> !s.ev[q.e].signalled
    ensures Facts(u) && Keeps(s, u)
  {
    assert Fact(s.ev, At(s, a)) && GoodPc(s, a);
    hide Good;
    MoveGood(s, u, a, q.e);
  }

  // A fiber gives up its wait for a signalled automatic event.
  lemma GiveUp(s: State, u: State, a: int, e: int, d: int)
    requires Good(s) && At(s, a).WRelock? && At(s, a).e == e && Known(s, e) && s.ev[e].kind.Auto? && s.ev[e].signalled
    requires u.ev == s.ev && u.pc == s.pc[a := WDelist(e, false)] && OnlyAgent(s, u, a) && !s.retests && Known(s, d)
    ensures Facts(u) && Exact(s, Fiber(a, Relock(true)), u, d)
  {
    assert Fact(u.ev, At(u, a));
    hide Good;
    BusyBut(s, u, a, e);
    hide Facts;
    if d == e {
      hide KeepsBut;
      assert forall x :: Unaware(At(u, x), e, Auto) <==> Unaware(At(s, x), e, Auto);
      assert forall b :: Notifying(u, b, e) <==> Notifying(s, b, e);
      assert forall c :: Aware(At(u, c), e) <==> c != a && Aware(At(s, c), e);
    }
  }

  lemma MovesNext(s: State, a: int, st: FiberStep)
    requires Good(s) && CanFiber(s, a, st)
    requires st.TakeWork? || st.DropMutex? || st.Park? || st.Queue? || st.Resume? || st.Relock?
    ensures var u := DoFiber(s, a, st);
            && a in u.pc && u.ev == s.ev && u.pc == s.pc[a := u.pc[a]] && OnlyAgent(s, u, a)
            && Moves(At(s, a), u.pc[a]) && Fact(s.ev, u.pc[a])
            && (GivesUp(At(s, a), u.pc[a]) ==>
                  st == Relock(true) && Known(s, At(s, a).e) && !(s.retests && Pred(s.ev[At(s, a).e])))
  {
    assert Fact(s.ev, At(s, a));
    assert GoodPc(s, a);
    hide Good;
  }

  lemma FiberMoveGood(s: State, a: int, st: FiberStep, e: int)
    requires Good(s) && CanFiber(s, a, st) && Known(s, e)
    requires st.TakeWork? || st.DropMutex? || st.Park? || st.Queue? || st.Resume? || st.Relock?
    ensures Facts(DoFiber(s, a, st)) && Exact(s, Fiber(a, st), DoFiber(s, a, st), e)
  {
    var u, d := DoFiber(s, a, st), At(s, a).e;
    MovesNext(s, a, st);
    hide Good, Facts, Owed, DoFiber, CanFiber, Keeps;
    if GivesUp(At(s, a), u.pc[a]) && s.ev[d].kind.Auto? && s.ev[d].signalled {
      GiveUp(s, u, a, d, e);
    } else {
      PlainGood(s, u, a, u.pc[a]);
      ExactlyKept(s, Fiber(a, st), u, e);
    }
  }

  lemma ThreadTestGood(s: State, a: int, e: int, t: bool, expired: bool)
    requires Good(s) && At(s, a) == TCheck(e, t) && Known(s, e)
    ensures Facts(DoThreadTest(s, a, e, t, expired)) && Keeps(s, DoThreadTest(s, a, e, t, expired))
  {
    var u := DoThreadTest(s, a, e, t, expired);
    if Pred(s.ev[e]) || expired {
      ThreadLeaves(s, u, a, e, t);
    } else {
      hide Good;
      MoveGood(s, u, a, e);
    }
  }

  lemma ThreadLeaves(s: State, u: State, a: int, e: int, t: bool)
    requires Good(s) && At(s, a) == TCheck(e, t) && Known(s, e) && OnlyAgent(s, u, a) && At(u, a).Out?
    requires var p := s.ev[e];
             var q := p.(waitingNum := p.waitingNum - 1, condNum := p.condNum - 1);
             u.ev == s.ev[e := if Pred(p) then Consume(q) else q]
    ensures Facts(u) && Keeps(s, u)
  {
    assert Holds(At(s, a), WorkOf(s, a), Ev(e));
    hide Good;
    MoveGood(s, u, a, e);
  }

  lemma ThreadMoveGood(s: State, a: int, st: ThreadStep)
    requires Good(s) && CanThread(s, a, st) && !st.ThreadTest?
    ensures Facts(DoThread(s, a, st)) && Keeps(s, DoThread(s, a, st))
  {
    assert Fact(s.ev, At(s, a));
    assert GoodPc(s, a);
    hide Good, Facts, Keeps;
    PlainGood(s, DoThread(s, a, st), a, DoThread(s, a, st).pc[a]);
  }

  // ---------------------------------------------------------------------------------------------
  // Signalling
  // ---------------------------------------------------------------------------------------------

  lemma PoppedFact(ev: seq<Prim>, st: Stack, ret: Return)
    ensures Fact(ev, Popped(st, ret)) <==> StackFact(ev, st)
  {}

  lemma PoppedInert(st: Stack, ret: Return, e: int, k: Kind)
    ensures !Unaware(Popped(st, ret), e, k) && !Aware(Popped(st, ret), e)
  {}

  // Nobody waits on e if its counter is zero.
  lemma NobodyUnaware(s: State, e: int, a: int)
    requires Books(s) && Known(s, e)
    ensures s.ev[e].waitingNum == 0 ==> !Unaware(At(s, a), e, s.ev[e].kind)
  {
    assert Unaware(At(s, a), e, s.ev[e].kind) ==> a in Waiters(s.pc, e);
  }

  lemma AlreadySignalledGood(s: State, a: int, f: Frame, below: Stack, ret: Return)
    requires Good(s) && At(s, a) == Sig(Push(f, below), ret) && f.ph == SLock && Known(s, f.e) && !s.ev[f.e].kind.Group?
    ensures Facts(Go(s, a, Popped(below, ret))) && Keeps(s, Go(s, a, Popped(below, ret)))
  {
    var u := Go(s, a, Popped(below, ret));
    assert Fact(s.ev, At(s, a));
    PoppedFact(s.ev, below, ret);
    forall d, k { PoppedInert(below, ret, d, k); }
    hide Core, Books, Facts, Keeps, Owed, Popped, Fact;
    MoveGood(s, u, a, f.e);
  }

  lemma SigLockFacts(s: State, a: int, f: Frame, below: Stack, ret: Return)
    requires Good(s) && At(s, a) == Sig(Push(f, below), ret) && f.ph == SLock && Known(s, f.e) && Free(s, Ev(f.e))
    requires s.ev[f.e].kind.Group? || !s.ev[f.e].signalled
    ensures Facts(DoSigLock(s, a, f, below, ret))
  {
    var u := DoSigLock(s, a, f, below, ret);
    assert Fact(s.ev, At(s, a));
    assert GoodPc(s, a);
    NotHeldBelow(s, a, f, below, ret, Ev(f.e));
    StackFactKept(s.ev, u.ev, below, ret);
    hide Core, Books, Facts;
    FactsKept(s, u, a);
  }

  lemma SigLockIs(s: State, a: int, f: Frame, below: Stack, ret: Return)
    requires Known(s, f.e) && (s.ev[f.e].kind.Group? || !s.ev[f.e].signalled)
    ensures var u, e := DoSigLock(s, a, f, below, ret), f.e;
            && OnlyAgent(s, u, a) && |u.ev| == |s.ev| && (forall d :: Known(s, d) && d != e ==> u.ev[d] == s.ev[d])
            && u.ev[e].kind == s.ev[e].kind
            && At(u, a) == Sig(Push(Frame(e, if s.ev[e].waitingNum == 0 then SDeps(0) else SCv), below), ret)
  {
    hide BelowEvent;
  }

  lemma SigLockGood(s: State, a: int, f: Frame, below: Stack, ret: Return)
    requires Good(s) && At(s, a) == Sig(Push(f, below), ret) && f.ph == SLock && Known(s, f.e) && Free(s, Ev(f.e))
    ensures Facts(DoSigLock(s, a, f, below, ret)) && Keeps(s, DoSigLock(s, a, f, below, ret))
  {
    var u, e := DoSigLock(s, a, f, below, ret), f.e;
    if !s.ev[e].kind.Group? && s.ev[e].signalled {
      AlreadySignalledGood(s, a, f, below, ret);
    } else {
      SigLockFacts(s, a, f, below, ret);
      SigLockIs(s, a, f, below, ret);
      hide DoSigLock;
      forall x ensures s.ev[e].waitingNum == 0 ==> !Unaware(At(s, x), e, s.ev[e].kind) { NobodyUnaware(s, e, x); }
      hide Good, Facts, Owed, Keeps, KeepsBut;
      if s.ev[e].waitingNum == 0 { NobodyOwed(s, u, a, e); } else { AllPromised(u, a, e); }
      OthersOwed(s, u, a, e);
      Together(s, u, e);
    }
  }

  lemma NobodyOwed(s: State, u: State, a: int, e: int)
    requires Known(u, e) && OnlyAgent(s, u, a) && At(u, a).Sig? && forall x :: !Unaware(At(s, x), e, u.ev[e].kind)
    ensures Owed(u, e)
  {
    assert !Unaware(At(u, a), e, u.ev[e].kind);
    hide Unaware;
    assert forall x :: !Unaware(At(u, x), e, u.ev[e].kind);
  }

  // An agent about to notify has everybody before it.
  lemma AllPromised(u: State, a: int, e: int)
    requires Known(u, e) && TopIs(At(u, a), e) && (At(u, a).stack.top.ph == SCv || At(u, a).stack.top.ph == SNotify(0))
    ensures Owed(u, e)
  {
    if u.ev[e].kind.Auto? {
      assert Notifying(u, a, e);
    } else {
      forall x | Unaware(At(u, x), e, u.ev[e].kind) ensures exists b :: Owes(u, b, x, e) { assert Owes(u, a, x, e); }
    }
  }

  lemma SigCvGood(s: State, a: int, e: int, below: Stack, ret: Return)
    requires Good(s) && At(s, a) == Sig(Push(Frame(e, SCv), below), ret) && Known(s, e)
    ensures Facts(DoSigCv(s, a, e, below, ret)) && Keeps(s, DoSigCv(s, a, e, below, ret))
  {
    var u := DoSigCv(s, a, e, below, ret);
    assert Fact(s.ev, At(s, a));
    AllPromised(u, a, e);
    hide Core, Books, Facts, Keeps, Owed;
    BusyGood(s, u, a, e);
  }

  // Being queued or awoken makes nobody less aware.
  lemma StirredAware(p: Pc, q: Pc, e: int, k: Kind)
    requires Stirred(p, q)
    ensures (Unaware(q, e, k) ==> Unaware(p, e, k)) && (Aware(p, e) ==> Aware(q, e))
    ensures (OnCond(p, e) <==> OnCond(q, e)) && (p.Sig? || q.Sig? ==> p == q)
  {}

  lemma WokenGood(s: State, u: State)
    requires Core(s) && Facts(s) && u.ev == s.ev && u.mx == s.mx && forall b :: Stirred(At(s, b), At(u, b))
    ensures Facts(u) && Keeps(s, u)
  {
    assert forall b :: Fact(s.ev, At(s, b));
    hide Core, Facts, Fact, Stirred;
    forall b ensures Fact(u.ev, At(u, b)) { WokenFact(u.ev, At(s, b), At(u, b)); }
    assert Facts(u) by { WokenFacts(s, u); }
    forall e | Known(s, e) && Owed(s, e) ensures Owed(u, e) { WokenOwed(s, u, e); }
  }

  lemma WokenOwed(s: State, u: State, e: int)
    requires Known(s, e) && Owed(s, e) && u.ev == s.ev && forall b :: Stirred(At(s, b), At(u, b))
    ensures Owed(u, e)
  {
    forall b, k: Kind
      ensures (Unaware(At(u, b), e, k) ==> Unaware(At(s, b), e, k)) && (Aware(At(s, b), e) ==> Aware(At(u, b), e))
      ensures (OnCond(At(s, b), e) <==> OnCond(At(u, b), e)) && (At(s, b).Sig? ==> At(u, b) == At(s, b))
    {
      StirredAware(At(s, b), At(u, b), e, k);
    }
    hide Owed, Unaware, Aware, OnCond, Stirred;
    OwedKept(s, u, e);
  }

  lemma WokenFacts(s: State, u: State)
    requires Facts(s) && u.ev == s.ev && forall b :: Fact(u.ev, At(u, b))
    ensures Facts(u)
  {}

  // A listed fiber is notified: it becomes aware, or is already on its way to a test.
  lemma TargetAware(s: State, a: int, e: int, t: int)
    requires Core(s) && Lists(s) && Known(s, e) && t in s.ev[e].waiting && Free(s, WorkOf(s, t))
    requires Holds(At(s, a), WorkOf(s, a), Ev(e)) && a != t
    ensures Aware(At(Enqueued(s, t), t), e)
  {
    assert Listed(At(s, t), e);
    OneHolder(s, a, t, Ev(e));
    assert !Holds(At(s, t), WorkOf(s, t), WorkOf(s, t));
  }

  lemma NotifyFacts(v: State, a: int, e: int, k: int, next: Phase, below: Stack, ret: Return, u: State)
    requires Core(v) && Facts(v) && At(v, a) == Sig(Push(Frame(e, SNotify(k)), below), ret) && Known(v, e)
    requires next == SDeps(0) || next == SNotify(k + 1)
             || (next == SCond && (v.ev[e].kind.Auto? ==> v.ev[e].waiting == []))
    requires u.ev == v.ev && u.pc == v.pc[a := Sig(Push(Frame(e, next), below), ret)] && u.worker == v.worker
    ensures Facts(u)
  {
    assert Fact(v.ev, At(v, a));
    hide Core, Facts;
    FactsKept(v, u, a);
  }

  lemma NotifyOneGood(s: State, a: int, e: int, k: int, below: Stack, ret: Return)
    requires Good(s) && At(s, a) == Sig(Push(Frame(e, SNotify(k)), below), ret) && Known(s, e)
    requires HasTarget(s.ev[e], k) && Free(s, WorkOf(s, Target(s.ev[e], k)))
    ensures Facts(DoSigNotify(s, a, e, k, below, ret)) && Keeps(s, DoSigNotify(s, a, e, k, below, ret))
  {
    var t := Target(s.ev[e], k);
    var v := Enqueued(s, t);
    TargetAhead(s, a, e, k, t, below, ret);
    var u := DoSigNotify(s, a, e, k, below, ret);
    hide Good, Facts, Keeps, Enqueued, Aware;
    assert OnlyAgent(v, u, a) by { EnqueuedStirs(s, t); }
    NotifyMoves(v, u, a, e, k, t, below, ret);
    OneAfterAnother(s, v, u);
  }

  // Queueing the target keeps everything.
  lemma TargetAhead(s: State, a: int, e: int, k: int, t: int, below: Stack, ret: Return)
    requires Good(s) && At(s, a) == Sig(Push(Frame(e, SNotify(k)), below), ret) && Known(s, e)
    requires HasTarget(s.ev[e], k) && t == Target(s.ev[e], k) && Free(s, WorkOf(s, t))
    ensures var v := Enqueued(s, t);
            && Core(v) && Facts(v) && Keeps(s, v) && v.ev == s.ev && At(v, a) == At(s, a) && Aware(At(v, t), e)
            && a != t
  {
    assert Holds(At(s, a), WorkOf(s, a), Ev(e));
    assert a != t by { assert Listed(At(s, t), e); }
    TargetAware(s, a, e, t);
    EnqueuedCore(s, t);
    hide Core, Books;
    WokenGood(s, Enqueued(s, t));
    hide Facts, Keeps;
  }

  lemma NotifyMoves(v: State, u: State, a: int, e: int, k: int, t: int, below: Stack, ret: Return)
    requires Core(v) && Facts(v) && At(v, a) == Sig(Push(Frame(e, SNotify(k)), below), ret) && Known(v, e)
    requires HasTarget(v.ev[e], k) && t == Target(v.ev[e], k) && Aware(At(v, t), e) && t != a && OnlyAgent(v, u, a)
    requires var q := Sig(Push(Frame(e, if v.ev[e].kind.Auto? then SDeps(0) else SNotify(k + 1)), below), ret);
             u.ev == v.ev && u.pc == v.pc[a := q] && At(u, a) == q
    ensures Facts(u) && Keeps(v, u)
  {
    NotifyFacts(v, a, e, k, if v.ev[e].kind.Auto? then SDeps(0) else SNotify(k + 1), below, ret, u);
    if Owed(v, e) { NotifiedOwed(v, u, a, e, k, t, below, ret); }
    hide Core, Facts, Owed, Keeps, KeepsBut;
    OthersOwed(v, u, a, e);
    Together(v, u, e);
  }

  // After the k-th waiter has been notified.
  lemma NotifiedOwed(v: State, u: State, a: int, e: int, k: int, t: int, below: Stack, ret: Return)
    requires At(v, a) == Sig(Push(Frame(e, SNotify(k)), below), ret) && Known(v, e) && Owed(v, e)
    requires HasTarget(v.ev[e], k) && t == Target(v.ev[e], k) && Aware(At(v, t), e) && t != a
    requires u.ev == v.ev && OnlyAgent(v, u, a)
    requires At(u, a) == Sig(Push(Frame(e, if v.ev[e].kind.Auto? then SDeps(0) else SNotify(k + 1)), below), ret)
    ensures Owed(u, e)
  {
    if v.ev[e].kind.Auto? {
      assert Aware(At(u, t), e);
    } else {
      assert !Unaware(At(u, t), e, v.ev[e].kind);
      forall b, x | Owes(v, b, x, e) && Unaware(At(u, x), e, v.ev[e].kind) ensures Owes(u, b, x, e) {
        assert x != t;
      }
      hide Owed, Unaware;
      OwedKept(v, u, e);
    }
  }

  // The end of the list: what is left are plain threads.
  lemma ListDoneGood(s: State, a: int, e: int, k: int, below: Stack, ret: Return)
    requires Good(s) && At(s, a) == Sig(Push(Frame(e, SNotify(k)), below), ret) && Known(s, e) && k >= 0
    requires !HasTarget(s.ev[e], k)
    ensures Facts(DoSigNotify(s, a, e, k, below, ret)) && Keeps(s, DoSigNotify(s, a, e, k, below, ret))
  {
    var u := DoSigNotify(s, a, e, k, below, ret);
    NotifyFacts(s, a, e, k, SCond, below, ret, u);
    if Owed(s, e) { ListDoneOwed(s, u, a, e, k, below, ret); }
    hide Core, Books, Facts, Keeps, KeepsBut, Owed;
    OthersOwed(s, u, a, e);
    Together(s, u, e);
  }

  lemma ListDoneOwed(s: State, u: State, a: int, e: int, k: int, below: Stack, ret: Return)
    requires Good(s) && At(s, a) == Sig(Push(Frame(e, SNotify(k)), below), ret) && Known(s, e) && k >= 0
    requires !HasTarget(s.ev[e], k) && u.ev == s.ev && OnlyAgent(s, u, a) && Owed(s, e)
    requires At(u, a) == Sig(Push(Frame(e, SCond), below), ret)
    ensures Owed(u, e)
  {
    if s.ev[e].kind.Auto? {
      assert Notifying(u, a, e);
    } else {
      assert Holds(At(s, a), WorkOf(s, a), Ev(e));
      forall b, x | Owes(s, b, x, e) && Unaware(At(u, x), e, s.ev[e].kind) ensures Owes(u, b, x, e) {
        if b == a {
          assert x !in s.ev[e].waiting;
          assert !Listed(At(s, x), e);
          if x != a { OneHolder(s, a, x, Ev(e)); }
          assert OnCond(At(u, x), e);
        }
      }
      hide Core, Books, Facts, Keeps, Owed, Unaware;
      OwedKept(s, u, e);
    }
  }

  lemma NoThreads(s: State, e: int, x: int)
    requires Books(s) && Known(s, e)
    ensures s.ev[e].condNum <= 0 ==> !OnCond(At(s, x), e)
  {
    assert OnCond(At(s, x), e) ==> x in Threads(s.pc, e);
  }

  lemma SigCondGood(s: State, a: int, e: int, lucky: int, below: Stack, ret: Return)
    requires Good(s) && At(s, a) == Sig(Push(Frame(e, SCond), below), ret) && Known(s, e)
    requires (exists b :: AsleepOn(s, b, e)) ==> AsleepOn(s, lucky, e)
    ensures Facts(DoSigCond(s, a, e, lucky, below, ret)) && Keeps(s, DoSigCond(s, a, e, lucky, below, ret))
  {
    var q := Sig(Push(Frame(e, SDeps(0)), below), ret);
    var v := Roused(s, e, lucky);
    var u := Go(v, a, q);
    assert u == DoSigCond(s, a, e, lucky, below, ret);
    hide DoSigCond;
    CondAhead(s, a, e, lucky, below, ret);
    if Owed(s, e) { CondOwed(s, v, u, a, e, lucky, below, ret); }
    hide Good, Core, Facts, Keeps, KeepsBut, Owed, Roused;
    CondMoves(v, u, a, e, below, ret);
    Skipped(s, v, u, e);
  }

  // Waking the threads keeps everything.
  lemma CondAhead(s: State, a: int, e: int, lucky: int, below: Stack, ret: Return)
    requires Good(s) && At(s, a) == Sig(Push(Frame(e, SCond), below), ret) && Known(s, e)
    ensures var v := Roused(s, e, lucky);
            && Core(v) && Facts(v) && Keeps(s, v) && v.ev == s.ev && At(v, a) == At(s, a)
  {
    var v := Roused(s, e, lucky);
    RousedStirs(s, e, lucky);
    hide Roused, Core, Books, Facts, Keeps;
    AwokenCore(s, v);
    assert Core(s) && Facts(s) by { GoodParts(s); }
    WokenGood(s, v);
  }

  lemma CondMoves(v: State, u: State, a: int, e: int, below: Stack, ret: Return)
    requires Core(v) && Facts(v) && At(v, a) == Sig(Push(Frame(e, SCond), below), ret) && Known(v, e)
    requires u == Go(v, a, Sig(Push(Frame(e, SDeps(0)), below), ret))
    ensures Facts(u) && KeepsBut(v, u, e)
  {
    assert Fact(v.ev, At(v, a));
    hide Core, Facts, KeepsBut;
    BusyBut(v, u, a, e);
  }

  lemma Skipped(s: State, v: State, u: State, e: int)
    requires Keeps(s, v) && KeepsBut(v, u, e) && (Known(s, e) && Owed(s, e) ==> Owed(u, e))
    ensures Keeps(s, u)
  {
    hide Owed;
  }

  lemma CondOwed(s: State, v: State, u: State, a: int, e: int, lucky: int, below: Stack, ret: Return)
    requires Good(s) && At(s, a) == Sig(Push(Frame(e, SCond), below), ret) && Known(s, e)
    requires (exists b :: AsleepOn(s, b, e)) ==> AsleepOn(s, lucky, e)
    requires v == Roused(s, e, lucky) && u.ev == s.ev && OnlyAgent(v, u, a) && Owed(s, e)
    requires At(u, a) == Sig(Push(Frame(e, SDeps(0)), below), ret)
    ensures Owed(u, e)
  {
    assert LocksOk(s) && Books(s);
    if s.ev[e].kind.Auto? {
      LuckyOwed(s, v, u, a, e, lucky, below, ret);
    } else {
      RousedStirs(s, e, lucky);
      assert OnlyWoken(s, v);
      hide Good, LocksOk, Books, Owed, Unaware;
      forall b, x | Owes(s, b, x, e) && Unaware(At(u, x), e, s.ev[e].kind) ensures Owes(u, b, x, e) {
        if b == a { ThreadsWoken(s, v, u, a, e, lucky, x, below, ret); } else { OwesStays(s, v, u, a, b, x, e); }
      }
      forall x | Unaware(At(u, x), e, s.ev[e].kind) ensures Unaware(At(s, x), e, s.ev[e].kind) {
        WasUnaware(s, v, u, a, x, e);
      }
      OwedKept(s, u, e);
    }
  }

  ghost predicate OnlyWoken(s: State, v: State) {
    forall b :: At(v, b) == At(s, b) || At(v, b) == Awoken(At(s, b))
  }

  lemma WasUnaware(s: State, v: State, u: State, a: int, x: int, e: int)
    requires Known(s, e) && OnlyWoken(s, v) && OnlyAgent(v, u, a) && At(u, a).Sig?
    requires Unaware(At(u, x), e, s.ev[e].kind)
    ensures Unaware(At(s, x), e, s.ev[e].kind)
  {}

  lemma OwesStays(s: State, v: State, u: State, a: int, b: int, x: int, e: int)
    requires OnlyWoken(s, v) && OnlyAgent(v, u, a) && u.ev == s.ev && At(u, a).Sig? && At(s, a).Sig?
    requires Owes(s, b, x, e) && b != a
    ensures Owes(u, b, x, e)
  {
    assert At(u, b) == At(s, b);
    assert OnCond(At(s, x), e) ==> OnCond(At(u, x), e);
  }

  lemma LuckyOwed(s: State, v: State, u: State, a: int, e: int, lucky: int, below: Stack, ret: Return)
    requires Good(s) && At(s, a) == Sig(Push(Frame(e, SCond), below), ret) && Known(s, e) && s.ev[e].kind.Auto?
    requires (exists b :: AsleepOn(s, b, e)) ==> AsleepOn(s, lucky, e)
    requires v == Roused(s, e, lucky) && u.ev == s.ev && OnlyAgent(v, u, a)
    requires At(u, a) == Sig(Push(Frame(e, SDeps(0)), below), ret)
    ensures Owed(u, e)
  {
    assert Fact(s.ev, At(s, a));
    assert Lists(s);
    forall x ensures s.ev[e].condNum <= 0 ==> !OnCond(At(s, x), e) { NoThreads(s, e, x); }
    hide Good, Lists, Fact;
    if x :| Unaware(At(u, x), e, s.ev[e].kind) {
      assert Unaware(At(s, x), e, s.ev[e].kind);
      assert !Listed(At(s, x), e) by { assert Lists(s) && x !in s.ev[e].waiting; }
      assert AsleepOn(s, x, e);
      assert Aware(At(u, lucky), e);
    }
  }

  lemma ThreadsWoken(s: State, v: State, u: State, a: int, e: int, lucky: int, x: int, below: Stack, ret: Return)
    requires LocksOk(s) && Books(s) && At(s, a) == Sig(Push(Frame(e, SCond), below), ret) && Known(s, e)
    requires v == Roused(s, e, lucky) && OnlyAgent(v, u, a) && !s.ev[e].kind.Auto?
    requires At(u, a).Sig? && OnCond(At(s, x), e)
    ensures !Unaware(At(u, x), e, s.ev[e].kind)
  {
    NoThreads(s, e, x);
    if x != a { OneHolder(s, a, x, Ev(e)); }
    hide LocksOk, Books;
  }

  // Steps through dependents and sources: they owe nothing themselves.
  predicate Inert(ph: Phase) {
    ph.SDeps? || ph.ALock? || ph.APush?
  }

  // One agent moves on from such a step; at most the dependents of its event change.
  lemma InertGood(s: State, u: State, a: int, f: Frame, below: Stack, ret: Return)
    requires Good(s) && At(s, a) == Sig(Push(f, below), ret) && Known(s, f.e) && Inert(f.ph)
    requires OnlyAgent(s, u, a) && |u.ev| == |s.ev|
    requires forall d :: Known(s, d) && d != f.e ==> u.ev[d] == s.ev[d]
    requires u.ev[f.e] == s.ev[f.e].(deps := u.ev[f.e].deps)
    requires Fact(u.ev, At(u, a)) && (At(u, a).Sig? || At(u, a).Out? || At(u, a).AnyNext?)
    ensures Facts(u) && Keeps(s, u)
  {
    hide Core, Books, Facts, Keeps, Owed, Fact;
    MoveGood(s, u, a, f.e);
  }

  lemma SigDepsGood(s: State, a: int, e: int, i: int, below: Stack, ret: Return)
    requires Good(s) && At(s, a) == Sig(Push(Frame(e, SDeps(i)), below), ret) && Known(s, e) && i >= 0
    ensures Facts(DoSigDeps(s, a, e, i, below, ret)) && Keeps(s, DoSigDeps(s, a, e, i, below, ret))
  {
    DepsFact(s, a, e, i, below, ret);
    hide Good, Facts, Keeps, Fact, Popped;
    assert At(DoSigDeps(s, a, e, i, below, ret), a).Sig?
           || At(DoSigDeps(s, a, e, i, below, ret), a) == Popped(below, ret);
    PoppedKind(below, ret);
    InertGood(s, DoSigDeps(s, a, e, i, below, ret), a, Frame(e, SDeps(i)), below, ret);
  }

  lemma PoppedKind(st: Stack, ret: Return)
    ensures Popped(st, ret).Sig? || Popped(st, ret).Out? || Popped(st, ret).AnyNext?
  {}

  lemma DepsFact(s: State, a: int, e: int, i: int, below: Stack, ret: Return)
    requires Good(s) && At(s, a) == Sig(Push(Frame(e, SDeps(i)), below), ret) && Known(s, e) && i >= 0
    ensures Fact(s.ev, At(DoSigDeps(s, a, e, i, below, ret), a))
  {
    assert Fact(s.ev, At(s, a));
    hide Good;
    PoppedFact(s.ev, below, ret);
    assert StackFact(s.ev, below) && FrameFact(s.ev, Frame(e, SDeps(i)));
    assert StackFact(s.ev, Push(Frame(e, SDeps(i + 1)), below));
    hide Popped;
  }

  lemma AnyLockGood(s: State, a: int, e: int, m: int, below: Stack, ret: Return)
    requires Good(s) && At(s, a) == Sig(Push(Frame(e, ALock(m)), below), ret) && Known(s, e)
    ensures Facts(DoAnyLock(s, a, e, m, below, ret)) && Keeps(s, DoAnyLock(s, a, e, m, below, ret))
  {
    assert Fact(s.ev, At(s, a));
    assert StackFact(s.ev, below) && StackFact(s.ev, Push(Frame(e, APush(m)), below));
    hide Good;
    InertGood(s, DoAnyLock(s, a, e, m, below, ret), a, Frame(e, ALock(m)), below, ret);
  }

  lemma AnyPushGood(s: State, a: int, e: int, m: int, below: Stack, ret: Return)
    requires Good(s) && At(s, a) == Sig(Push(Frame(e, APush(m)), below), ret) && Known(s, e)
    ensures Facts(DoAnyPush(s, a, e, m, below, ret)) && Keeps(s, DoAnyPush(s, a, e, m, below, ret))
  {
    var u := DoAnyPush(s, a, e, m, below, ret);
    assert Fact(s.ev, At(s, a));
    assert GoodPc(s, a);
    StackFactKept(s.ev, u.ev, below, ret);
    PoppedFact(u.ev, below, ret);
    hide Good;
    InertGood(s, u, a, Frame(e, APush(m)), below, ret);
  }

  // ---------------------------------------------------------------------------------------------
  // Entering an operation
  // ---------------------------------------------------------------------------------------------

  lemma EnterGood(s: State, u: State, a: int, e: int)
    requires Good(s) && Enters(s, u, a, e)
    ensures Facts(u) && Keeps(s, u)
  {
    assert Facts(s) && Ranged(s);
    assert FrameFact(u.ev, Frame(e, SLock)) && StackFact(u.ev, Nil);
    assert Fact(u.ev, At(u, a));
    hide Core, Books, Facts, Keeps, Owed;
    if !Pred(u.ev[e]) { OwedVacuously(u, e); }
    else if !Pred(s.ev[e]) { GroupOwed(u, a, e); }
    else if Owed(s, e) { OwedByMove(s, u, a, e); }
    BusyGood(s, u, a, e);
  }

  // add()
  lemma AddExact(s: State, a: int, e: int, n: int, d: int)
    requires Good(s) && CanUser(s, a, AddCount(e, n)) && Known(s, d)
    ensures var u := DoUser(s, a, AddCount(e, n)); Facts(u) && Exact(s, User(a, AddCount(e, n)), u, d)
  {
    var u := DoUser(s, a, AddCount(e, n));
    assert Facts(s) && Ranged(s);
    assert At(u, a) == Out && OnlyAgent(s, u, a);
    hide Good, Facts, Owed, Keeps;
    if s.ev[e].count > 0 && s.ev[e].count + n == U32 {
      WrapExact(s, u, a, e, n, d);
    } else {
      assert Enters(s, u, a, e);
      EnterGood(s, u, a, e);
      ExactlyKept(s, User(a, AddCount(e, n)), u, d);
    }
  }

  // add() takes the count of a group round to zero.
  lemma WrapExact(s: State, u: State, a: int, e: int, n: int, d: int)
    requires Good(s) && CanUser(s, a, AddCount(e, n)) && u == DoUser(s, a, AddCount(e, n)) && Known(s, d)
    requires s.ev[e].count > 0 && s.ev[e].count + n == U32
    ensures Facts(u) && Exact(s, User(a, AddCount(e, n)), u, d)
  {
    assert Fact(u.ev, At(u, a)) && u.ev[e].count == 0;
    hide Good;
    BusyBut(s, u, a, e);
    hide Facts;
    if d == e {
      hide KeepsBut;
      assert forall x :: At(u, x) == At(s, x);
      assert forall b, x :: Owes(u, b, x, e) <==> Owes(s, b, x, e);
    }
  }

  lemma GroupOwed(u: State, a: int, e: int)
    requires Known(u, e) && u.ev[e].kind.Group? && At(u, a) == Sig(Push(Frame(e, SLock), Nil), ToOut)
    ensures Owed(u, e)
  {
    forall x | Unaware(At(u, x), e, u.ev[e].kind) ensures exists b :: Owes(u, b, x, e) { assert Owes(u, a, x, e); }
  }

  lemma NotYetKnown(s: State, u: State, e: int)
    requires Shape(s) && e == |s.ev| < |u.ev| && forall b :: !Counted(At(u, b), e) || At(u, b) == At(s, b)
    ensures Owed(u, e)
  {
    NobodyThere(s);
    assert forall x :: !Unaware(At(u, x), e, u.ev[e].kind);
  }

  // A new primitive.
  lemma NewGood(s: State, u: State, a: int)
    requires Good(s) && At(s, a).Out? && OnlyAgent(s, u, a) && |u.ev| == |s.ev| + 1 && u.ev[..|s.ev|] == s.ev
    requires 0 <= u.ev[|s.ev|].count < U32
    requires At(u, a).Out? || At(u, a).AnyNext?
    ensures Facts(u) && Keeps(s, u) && Owed(u, |s.ev|)
  {
    assert forall d :: Known(s, d) ==> u.ev[d] == u.ev[..|s.ev|][d];
    assert Ranged(s) ==> Ranged(u);
    NotYetKnown(s, u, |s.ev|);
    hide Core, Books, Facts, Owed;
    FactsKept(s, u, a);
    forall d | Known(s, d) && Owed(s, d) ensures Owed(u, d) { OwedByMove(s, u, a, d); }
  }

  // ---------------------------------------------------------------------------------------------
  // All steps
  // ---------------------------------------------------------------------------------------------

  lemma FiberGood(s: State, a: int, st: FiberStep, e: int)
    requires Good(s) && CanFiber(s, a, st) && Known(s, e)
    ensures Facts(DoFiber(s, a, st)) && Exact(s, Fiber(a, st), DoFiber(s, a, st), e)
  {
    hide Good, Facts, Keeps, Owed, Exact;
    var p, u := At(s, a), DoFiber(s, a, st);
    match st
    case WaitLock => WaitLockGood(s, a, p.e, p.timed); ExactlyKept(s, Fiber(a, st), u, e);
    case Enlist => EnlistGood(s, a, p.e, p.timed); ExactlyKept(s, Fiber(a, st), u, e);
    case TestPred => TestPredGood(s, a, p.e, p.timed); ExactlyKept(s, Fiber(a, st), u, e);
    case Delist => DelistGood(s, a, p.e, p.ok); ExactlyKept(s, Fiber(a, st), u, e);
    case _ => FiberMoveGood(s, a, st, e);
  }

  lemma ThreadGood(s: State, a: int, st: ThreadStep)
    requires Good(s) && CanThread(s, a, st)
    ensures Facts(DoThread(s, a, st)) && Keeps(s, DoThread(s, a, st))
  {
    hide Good, Facts, Keeps;
    if st.ThreadTest? {
      ThreadTestGood(s, a, At(s, a).e, At(s, a).timed, st.expired);
    } else {
      ThreadMoveGood(s, a, st);
    }
  }

  lemma SigGood(s: State, a: int, st: SigStep)
    requires Good(s) && CanSig(s, a, st)
    ensures Facts(DoSig(s, a, st)) && Keeps(s, DoSig(s, a, st))
  {
    if st.AnyStep? {
      AnyStepGood(s, a, At(s, a).made, At(s, a).rest);
    } else {
      var f, below, ret := At(s, a).stack.top, At(s, a).stack.below, At(s, a).ret;
      assert GoodPc(s, a);
      assert f.ph.SNotify? ==> f.ph.k >= 0;
      assert f == Frame(f.e, f.ph);
      hide Good, Facts, Keeps;
      match st
      case SigLock => SigLockGood(s, a, f, below, ret);
      case SigCv => SigCvGood(s, a, f.e, below, ret);
      case SigNotify =>
        if HasTarget(s.ev[f.e], f.ph.k) { NotifyOneGood(s, a, f.e, f.ph.k, below, ret); }
        else { ListDoneGood(s, a, f.e, f.ph.k, below, ret); }
      case SigCond(lucky) => SigCondGood(s, a, f.e, lucky, below, ret);
      case SigDeps => SigDepsGood(s, a, f.e, f.ph.i, below, ret);
      case AnyLock => AnyLockGood(s, a, f.e, f.ph.new_, below, ret);
      case AnyPush => AnyPushGood(s, a, f.e, f.ph.new_, below, ret);
      case AnyStep =>
    }
  }

  lemma AnyStepGood(s: State, a: int, m: int, rest: seq<int>)
    requires Good(s) && At(s, a) == AnyNext(m, rest)
    ensures Facts(DoAnyStep(s, a, m, rest)) && Keeps(s, DoAnyStep(s, a, m, rest))
  {
    var u := DoAnyStep(s, a, m, rest);
    assert Fact(u.ev, At(u, a)) by {
      if rest != [] { assert StackFact(u.ev, Nil) && FrameFact(u.ev, Frame(rest[0], ALock(m))); }
    }
    hide Core, Books, Facts, Fact, Owed;
    FactsKept(s, u, a);
    forall d | Known(s, d) && Owed(s, d) ensures Owed(u, d) { OwedByMove(s, u, a, d); }
  }

  // An idle agent enters an operation on e, or carries one out, other than add().
  ghost predicate Enters(s: State, u: State, a: int, e: int) {
    && At(s, a).Out? && Known(s, e) && OnlyAgent(s, u, a) && |u.ev| == |s.ev|
    && (forall d :: Known(s, d) && d != e ==> u.ev[d] == s.ev[d])
    && u.ev[e] == s.ev[e].(signalled := u.ev[e].signalled, count := u.ev[e].count)
    && (u.ev[e].signalled != s.ev[e].signalled ==> Free(s, Ev(e)))
    && (0 <= s.ev[e].count < U32 ==> 0 <= u.ev[e].count < U32)
    && (Pred(u.ev[e]) ==> Pred(s.ev[e]) || (s.ev[e].kind.Group? && TopIs(At(u, a), e)))
    && (At(u, a).Out? || At(u, a).WLock? || At(u, a).AnyNext? || At(u, a) == Sig(Push(Frame(e, SLock), Nil), ToOut))
  }

  lemma UserEnters(s: State, a: int, st: UserStep)
    requires CanUser(s, a, st) && !st.AddCount? && !st.StartAny?
    ensures Enters(s, DoUser(s, a, st), a, st.e)
  {}

  lemma UserGood(s: State, a: int, st: UserStep, e: int)
    requires Good(s) && CanUser(s, a, st) && Known(s, e)
    ensures Facts(DoUser(s, a, st)) && Exact(s, User(a, st), DoUser(s, a, st), e)
  {
    if st.AddCount? {
      hide Good, Facts, Exact;
      AddExact(s, a, st.e, st.n, e);
    } else if st.StartAny? {
      hide Good, Facts, Keeps, Owed, Exact;
      NewGood(s, DoUser(s, a, st), a);
      ExactlyKept(s, User(a, st), DoUser(s, a, st), e);
    } else {
      UserEnters(s, a, st);
      hide Good, Facts, Keeps, Owed, Exact, DoUser, CanUser, Enters;
      EnterGood(s, DoUser(s, a, st), a, st.e);
      ExactlyKept(s, User(a, st), DoUser(s, a, st), e);
    }
  }

  lemma NewPrimGood(s: State, p: Prim)
    requires Good(s) && NewOk(s, p, |s.ev|)
    ensures var u := s.(ev := s.ev + [p]); Facts(u) && Keeps(s, u) && Owed(u, |s.ev|)
  {
    var u := s.(ev := s.ev + [p]);
    NotYetKnown(s, u, |s.ev|);
    assert Ranged(s) ==> Ranged(u);
    assert Facts(s) ==> Ranged(s);
    hide Core, Books, Facts, Owed;
    AllFactsKept(s, u);
    forall d | Known(s, d) && Owed(s, d) ensures Owed(u, d) { OwedKept(s, u, d); }
  }

  lemma AllFactsKept(s: State, u: State)
    requires Core(s) && Facts(s) && u.pc == s.pc && s.ev <= u.ev && Ranged(u)
    ensures Facts(u)
  {
    forall b ensures Fact(u.ev, At(u, b)) {
      assert Fact(s.ev, At(s, b)) && GoodPc(s, b);
      if At(s, b).Sig? { StackFactKept(s.ev, u.ev, At(s, b).stack, At(s, b).ret); }
    }
  }

  lemma StepFacts(s: State, st: Step)
    requires Good(s) && Can(s, st)
    ensures Facts(Do(s, st))
  {
    if st.Fiber? { assert GoodPc(s, st.a); }
    hide DoFiber, DoThread, DoSig, DoUser, CanSig, CanUser, Good, Facts, Keeps, Exact, Owed;
    match st
    case Fiber(a, f) => FiberGood(s, a, f, At(s, a).e);
    case Thread(a, t) => ThreadGood(s, a, t);
    case Signaller(a, g) => SigGood(s, a, g);
    case User(a, o) => UserFacts(s, a, o);
    case NewPrim(p) => NewPrimGood(s, p);
  }

  lemma UserFacts(s: State, a: int, st: UserStep)
    requires Good(s) && CanUser(s, a, st)
    ensures Facts(DoUser(s, a, st))
  {
    hide Good, Facts, Exact;
    if st.StartAny? { NewGood(s, DoUser(s, a, st), a); } else { UserGood(s, a, st, st.e); }
  }

  /** A step loses a wakeup of e exactly if it is harmful. */
  lemma StepExact(s: State, st: Step, e: int)
    requires Good(s) && Can(s, st) && Known(s, e)
    ensures Facts(Do(s, st)) && Known(Do(s, st), e)
    ensures Owed(s, e) ==> (Owed(Do(s, st), e) <==> !Harmful(s, st, e))
  {
    assert Exact(s, st, Do(s, st), e) && Facts(Do(s, st)) by {
      hide DoFiber, DoThread, DoSig, DoUser, CanFiber, CanThread, CanSig, CanUser, Good, Facts, Keeps, Exact, Owed;
      match st
      case Fiber(a, f) => FiberGood(s, a, f, e);
      case Thread(a, t) => ThreadGood(s, a, t); ExactlyKept(s, st, Do(s, st), e);
      case Signaller(a, g) => SigGood(s, a, g); ExactlyKept(s, st, Do(s, st), e);
      case User(a, o) => UserGood(s, a, o, e);
      case NewPrim(p) => NewPrimGood(s, p); ExactlyKept(s, st, Do(s, st), e);
    }
    hide Can, Do, Facts, Owed, Harmful;
  }

  /** Every step keeps the locks, the books, and what holders know. */
  lemma StepGood(s: State, st: Step)
    requires Good(s) && Can(s, st)
    ensures Good(Do(s, st))
  {
    StepFacts(s, st);
    hide Can, Do, Facts, LocksOk, Shape;
    assert Core(s) ==> Shape(s);
    hide Core;
    StepCore(s, st);
    StepBooks(s, st);
  }

  // ---------------------------------------------------------------------------------------------
  // What no step changes
  // ---------------------------------------------------------------------------------------------

  ghost predicate SameKinds(s: State, u: State) {
    && u.retests == s.retests && u.monotone == s.monotone && u.worker == s.worker && |s.ev| <= |u.ev|
    && forall e :: Known(s, e) ==> u.ev[e].kind == s.ev[e].kind
  }

  lemma FiberKinds(s: State, a: int, st: FiberStep)
    requires CanFiber(s, a, st)
    ensures SameKinds(s, DoFiber(s, a, st)) && |DoFiber(s, a, st).ev| == |s.ev|
  {
    hide DoWaitLock;
    if st.WaitLock? { WaitLockTouches(s, a, At(s, a).e, At(s, a).timed); }
  }

  lemma TestKinds(s: State, a: int, e: int, t: bool, expired: bool)
    requires Known(s, e)
    ensures var u := DoThreadTest(s, a, e, t, expired); SameKinds(s, u) && |u.ev| == |s.ev|
  {
    hide DoThreadTest;
    ThreadTestTouches(s, a, e, t, expired);
  }

  lemma ThreadKinds(s: State, a: int, st: ThreadStep)
    requires CanThread(s, a, st)
    ensures SameKinds(s, DoThread(s, a, st)) && |DoThread(s, a, st).ev| == |s.ev|
  {
    hide DoThreadTest;
    if st.ThreadTest? { TestKinds(s, a, At(s, a).e, At(s, a).timed, st.expired); }
  }

  lemma SigKinds(s: State, a: int, st: SigStep)
    requires CanSig(s, a, st)
    ensures SameKinds(s, DoSig(s, a, st)) && |DoSig(s, a, st).ev| == |s.ev|
  {
    hide DoSigNotify, DoSigCond;
    if st.SigNotify? {
      NotifyStirs(s, a, At(s, a).stack.top.e, At(s, a).stack.top.ph.k, At(s, a).stack.below, At(s, a).ret);
    } else if st.SigCond? {
      CondStirs(s, a, At(s, a).stack.top.e, st.lucky, At(s, a).stack.below, At(s, a).ret);
    }
  }

  lemma UserKinds(s: State, a: int, st: UserStep)
    requires CanUser(s, a, st)
    ensures SameKinds(s, DoUser(s, a, st)) && |DoUser(s, a, st).ev| == |s.ev| + (if st.StartAny? then 1 else 0)
  {}

  lemma StepKinds(s: State, st: Step)
    requires Can(s, st)
    ensures SameKinds(s, Do(s, st))
    ensures |Do(s, st).ev| == |s.ev| + (if st.NewPrim? || (st.User? && st.user.StartAny?) then 1 else 0)
  {
    hide DoFiber, DoThread, DoSig, DoUser, CanFiber, CanThread, CanSig, CanUser;
    match st
    case Fiber(a, f) => FiberKinds(s, a, f);
    case Thread(a, t) => ThreadKinds(s, a, t);
    case Signaller(a, g) => SigKinds(s, a, g);
    case User(a, o) => UserKinds(s, a, o);
    case NewPrim(p) =>
  }

  // A primitive that a step creates has lost no wakeup.
  lemma NewcomerOwed(s: State, st: Step, e: int)
    requires Good(s) && Can(s, st) && !Known(s, e) && Known(Do(s, st), e)
    ensures Owed(Do(s, st), e)
  {
    StepKinds(s, st);
    if st.NewPrim? {
      hide Good, Owed, Facts, Keeps, DoFiber, DoThread, DoSig, DoUser;
      NewPrimGood(s, st.p);
    } else {
      assert st.User? && st.user.StartAny?;
      hide Good, Owed, Facts, Keeps, DoFiber, DoThread, DoSig;
      NewGood(s, DoUser(s, st.a, st.user), st.a);
    }
  }
}
