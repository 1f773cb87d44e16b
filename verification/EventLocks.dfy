/** Who holds which lock, in which order, and what a control point says about it. */
module EventLocks {
  import opened Events

  predicate FrameHolds(f: Frame, l: Lock) {
    match f.ph
    case SLock => false
    case ALock(_) => false
    case SNotify(_) => l == Ev(f.e) || l == Cv(f.e)
    case _ => l == Ev(f.e)
  }

  predicate StackHolds(st: Stack, l: Lock) {
    st.Push? && (FrameHolds(st.top, l) || StackHolds(st.below, l))
  }

  // Whether an agent at control point p, on a worker with mutex wk, holds lock l.
  predicate Holds(p: Pc, wk: Lock, l: Lock) {
    match p
    case WEnlist(e, _) => l == Ev(e)
    case WLoop(e, _) => l == Ev(e)
    case WWork(e, _) => l == Ev(e)
    case WBoth(e, _) => l == Ev(e) || l == wk
    case WPark(_, _) => l == wk
    case WDelist(e, _) => l == Ev(e)
    case TCheck(e, _) => l == Ev(e)
    case TCommit(e, _) => l == Ev(e)
    case Sig(st, _) => StackHolds(st, l)
    case _ => false
  }

  /** The control points and the locks agree; in particular no lock has two holders. */
  ghost predicate LocksOk(s: State) {
    forall a, l :: Holds(At(s, a), WorkOf(s, a), l) <==> l in s.mx && s.mx[l] == a
  }

  // ---------------------------------------------------------------------------------------------
  // Shape of control points
  // ---------------------------------------------------------------------------------------------

  /** Dependency edges go from older to newer events. */
  ghost predicate Ordered(ev: seq<Prim>) {
    forall e, d {:trigger d in ev[e].deps} :: 0 <= e < |ev| && d in ev[e].deps ==>
      e < d < |ev| && !ev[e].kind.Group? && !ev[d].kind.Group?
  }

  predicate GoodFrame(ev: seq<Prim>, f: Frame) {
    && 0 <= f.e < |ev|
    && match f.ph
       case SNotify(k) => 0 <= k
       case SDeps(i) => 0 <= i <= |ev[f.e].deps|
       case ALock(m) => f.e < m < |ev| && !ev[m].kind.Group? && !ev[f.e].kind.Group?
       case APush(m) => f.e < m < |ev| && !ev[m].kind.Group? && !ev[f.e].kind.Group?
       case _ => true
  }

  // A frame lies under another because it is signalling it.
  predicate Linked(ev: seq<Prim>, f: Frame, under: Frame) {
    && 0 <= under.e < |ev| && f.ph != ALock(f.e) && !f.ph.ALock? && !f.ph.APush?
    && match under.ph
       case SDeps(i) => 1 <= i <= |ev[under.e].deps| && ev[under.e].deps[i - 1] == f.e
       case APush(m) => m == f.e
       case _ => false
  }

  predicate GoodStack(ev: seq<Prim>, st: Stack, ret: Return) {
    && st.Push? && GoodFrame(ev, st.top)
    && (if st.below.Push? then Linked(ev, st.top, st.below.top) && GoodStack(ev, st.below, ret)
        else (st.top.ph.ALock? || st.top.ph.APush?) ==> ret.ToAny? && ret.made == st.top.ph.new_)
    && (ret.ToAny? ==> GoodSources(ev, ret.made, ret.rest))
  }

  predicate GoodSources(ev: seq<Prim>, made: int, rest: seq<int>) {
    0 <= made < |ev| && !ev[made].kind.Group? && forall e :: e in rest ==> 0 <= e < made && !ev[e].kind.Group?
  }

  predicate GoodWait(s: State, a: int, e: int, fiber: bool) {
    Known(s, e) && (fiber <==> a in s.worker)
  }

  predicate GoodPc(s: State, a: int) {
    match At(s, a)
    case Out => true
    case WLock(e, _) => Known(s, e)
    case WEnlist(e, _) => GoodWait(s, a, e, true)
    case WLoop(e, _) => GoodWait(s, a, e, true)
    case WWork(e, _) => GoodWait(s, a, e, true)
    case WBoth(e, _) => GoodWait(s, a, e, true)
    case WPark(e, _) => GoodWait(s, a, e, true)
    case WParked(e, _, _) => GoodWait(s, a, e, true)
    case WRelock(e, _) => GoodWait(s, a, e, true)
    case WDelist(e, _) => GoodWait(s, a, e, true)
    case TCheck(e, _) => GoodWait(s, a, e, false)
    case TCommit(e, _) => GoodWait(s, a, e, false)
    case TSleep(e, _, _) => GoodWait(s, a, e, false)
    case Sig(st, ret) => GoodStack(s.ev, st, ret)
    case AnyNext(m, rest) => GoodSources(s.ev, m, rest)
  }

  ghost predicate Shape(s: State) {
    Ordered(s.ev) && forall a :: GoodPc(s, a)
  }

  // ---------------------------------------------------------------------------------------------
  // Frames of a step
  // ---------------------------------------------------------------------------------------------

  // Only agent a moves.
  ghost predicate OnlyAgent(s: State, u: State, a: int) {
    && u.worker == s.worker && u.monotone == s.monotone && u.retests == s.retests
    && forall b :: b != a ==> At(u, b) == At(s, b)
  }

  // Other agents may be queued or awoken, but hold what they held.
  ghost predicate OthersHold(s: State, u: State, a: int) {
    && u.worker == s.worker
    && forall b, l :: b != a ==> (Holds(At(u, b), WorkOf(s, b), l) <==> Holds(At(s, b), WorkOf(s, b), l))
  }

  // The primitives keep their kind, and dependents are only added.
  ghost predicate Grown(ev: seq<Prim>, fv: seq<Prim>) {
    && |ev| <= |fv|
    && forall e :: 0 <= e < |ev| ==>
         fv[e].kind == ev[e].kind && ev[e].deps <= fv[e].deps
  }

  lemma LocksSame(s: State, u: State, a: int)
    requires LocksOk(s) && OthersHold(s, u, a) && u.mx == s.mx
    requires forall l :: Holds(At(u, a), WorkOf(s, a), l) <==> Holds(At(s, a), WorkOf(s, a), l)
    ensures LocksOk(u)
  {
    hide Holds, At;
    forall b, l ensures Holds(At(u, b), WorkOf(u, b), l) <==> l in u.mx && u.mx[l] == b {
      assert WorkOf(u, b) == WorkOf(s, b);
    }
  }

  lemma LockTaken(s: State, u: State, a: int, m: Lock)
    requires LocksOk(s) && OthersHold(s, u, a) && Free(s, m) && u.mx == s.mx[m := a]
    requires forall l :: Holds(At(u, a), WorkOf(s, a), l) <==> Holds(At(s, a), WorkOf(s, a), l) || l == m
    ensures LocksOk(u)
  {
    hide Holds, At;
    forall b, l ensures Holds(At(u, b), WorkOf(u, b), l) <==> l in u.mx && u.mx[l] == b {
      assert WorkOf(u, b) == WorkOf(s, b);
      assert Holds(At(s, b), WorkOf(s, b), l) <==> l in s.mx && s.mx[l] == b;
    }
  }

  lemma LockDropped(s: State, u: State, a: int, m: Lock)
    requires LocksOk(s) && OthersHold(s, u, a) && u.mx == s.mx - {m}
    requires Holds(At(s, a), WorkOf(s, a), m)
    requires forall l :: Holds(At(u, a), WorkOf(s, a), l) <==> Holds(At(s, a), WorkOf(s, a), l) && l != m
    ensures LocksOk(u)
  {
    hide Holds, At;
    forall b, l ensures Holds(At(u, b), WorkOf(u, b), l) <==> l in u.mx && u.mx[l] == b {
      assert WorkOf(u, b) == WorkOf(s, b);
      assert Holds(At(s, b), WorkOf(s, b), l) <==> l in s.mx && s.mx[l] == b;
    }
  }

  // A stack holds only event mutexes below its top event, apart from what the top frame holds.
  lemma {:induction false} BelowIsOlder(ev: seq<Prim>, f: Frame, below: Stack, ret: Return, l: Lock)
    requires Ordered(ev) && GoodStack(ev, Push(f, below), ret) && StackHolds(below, l)
    ensures l.Ev? && l.e < f.e
    decreases below
  {
    var g := below.top;
    assert Linked(ev, f, g) && GoodStack(ev, below, ret) && GoodFrame(ev, g);
    assert g.ph.SDeps? ==> f.e in ev[g.e].deps;
    assert g.e < f.e;
    if !FrameHolds(below.top, l) {
      BelowIsOlder(ev, below.top, below.below, ret, l);
    }
  }

  lemma {:induction false} StackGrows(ev: seq<Prim>, fv: seq<Prim>, st: Stack, ret: Return)
    requires GoodStack(ev, st, ret) && Grown(ev, fv)
    ensures GoodStack(fv, st, ret)
  {
    if st.below.Push? { StackGrows(ev, fv, st.below, ret); }
  }

  lemma PcGrows(s: State, u: State, b: int)
    requires GoodPc(s, b) && Grown(s.ev, u.ev) && u.worker == s.worker && At(u, b) == At(s, b)
    ensures GoodPc(u, b)
  {
    hide GoodStack;
    if At(s, b).Sig? { StackGrows(s.ev, u.ev, At(s, b).stack, At(s, b).ret); }
  }

  lemma ShapeKept(s: State, u: State, a: int)
    requires Shape(s) && OnlyAgent(s, u, a) && Grown(s.ev, u.ev) && Ordered(u.ev) && GoodPc(u, a)
    ensures Shape(u)
  {
    hide GoodPc, Grown, At;
    forall b ensures GoodPc(u, b) {
      if b != a { PcGrows(s, u, b); }
    }
  }

  ghost predicate Core(s: State) {
    LocksOk(s) && Shape(s)
  }

  lemma Updated(ev: seq<Prim>, e: int, p: Prim)
    requires Ordered(ev) && 0 <= e < |ev| && p.deps == ev[e].deps && p.kind == ev[e].kind
    ensures Ordered(ev[e := p]) && Grown(ev, ev[e := p])
  {
    var fv := ev[e := p];
    assert forall d :: 0 <= d < |ev| ==> fv[d].deps == ev[d].deps && fv[d].kind == ev[d].kind;
  }

  // u differs from s in the control point of a, the locks, and what is signalled and counted at e.
  ghost predicate Touches(s: State, u: State, a: int, e: int) {
    && Known(s, e) && Known(u, e) && u.ev == s.ev[e := u.ev[e]] && a in u.pc && u.pc == s.pc[a := u.pc[a]]
    && u.worker == s.worker && u.monotone == s.monotone && u.retests == s.retests
    && u.ev[e] == s.ev[e].(signalled := u.ev[e].signalled, waitingNum := u.ev[e].waitingNum, condNum := u.ev[e].condNum)
  }

  lemma TouchesBy(s: State, u: State, a: int, e: int, p: Prim, q: Pc)
    requires Known(s, e) && u == s.(ev := s.ev[e := p], mx := u.mx, pc := s.pc[a := q])
    requires p == s.ev[e].(signalled := p.signalled, waitingNum := p.waitingNum, condNum := p.condNum)
    ensures Touches(s, u, a, e)
  {}

  lemma ConsumeIs(p: Prim)
    ensures Consume(p) == p.(signalled := Consume(p).signalled)
  {}

  lemma WaitLockTouches(s: State, a: int, e: int, t: bool)
    requires Known(s, e)
    ensures Touches(s, DoWaitLock(s, a, e, t), a, e)
  {
    hide Pred, Consume, Touches;
    var p, u := s.ev[e], DoWaitLock(s, a, e, t);
    ConsumeIs(p);
    TouchesBy(s, u, a, e, if Pred(p) then Consume(p) else Events.Joined(p, a in s.worker), u.pc[a]);
  }

  lemma ThreadTestTouches(s: State, a: int, e: int, t: bool, expired: bool)
    requires Known(s, e)
    ensures Touches(s, DoThreadTest(s, a, e, t, expired), a, e)
  {
    hide Pred, Consume, Touches;
    var p, u := s.ev[e], DoThreadTest(s, a, e, t, expired);
    var q := p.(waitingNum := p.waitingNum - 1, condNum := p.condNum - 1);
    ConsumeIs(q);
    assert s.ev == s.ev[e := p];
    TouchesBy(s, u, a, e, if Pred(p) then Consume(q) else if expired then q else p, u.pc[a]);
  }

  // ---------------------------------------------------------------------------------------------
  // Waiting
  // ---------------------------------------------------------------------------------------------

  lemma WaitLockCore(s: State, a: int, e: int, t: bool)
    requires Core(s) && At(s, a) == WLock(e, t) && Known(s, e) && Free(s, Ev(e))
    ensures Core(DoWaitLock(s, a, e, t))
  {
    hide LocksOk;
    var u := DoWaitLock(s, a, e, t);
    assert GoodPc(s, a);
    Updated(s.ev, e, u.ev[e]);
    ShapeKept(s, u, a);
    hide Shape;
    if Pred(s.ev[e]) { LocksSame(s, u, a); } else { LockTaken(s, u, a, Ev(e)); }
  }

  lemma EnlistCore(s: State, a: int, e: int, t: bool)
    requires Core(s) && At(s, a) == WEnlist(e, t) && Known(s, e)
    ensures Core(DoEnlist(s, a, e, t))
  {
    hide LocksOk;
    assert GoodPc(s, a);
    Updated(s.ev, e, DoEnlist(s, a, e, t).ev[e]);
    ShapeKept(s, DoEnlist(s, a, e, t), a);
    hide Shape;
    LocksSame(s, DoEnlist(s, a, e, t), a);
  }

  lemma TestPredCore(s: State, a: int, e: int, t: bool)
    requires Core(s) && At(s, a) == WLoop(e, t) && Known(s, e)
    ensures Core(DoTestPred(s, a, e, t))
  {
    hide LocksOk;
    assert GoodPc(s, a);
    ShapeKept(s, DoTestPred(s, a, e, t), a);
    hide Shape;
    LocksSame(s, DoTestPred(s, a, e, t), a);
  }

  // Steps of a waiter that touch no primitive: one lock is taken, given up, or none.
  lemma MoveCore(s: State, u: State, a: int, q: Pc, l: Lock)
    requires Core(s) && u.ev == s.ev && u.pc == s.pc[a := q] && u.worker == s.worker && u.monotone == s.monotone
             && u.retests == s.retests
    requires GoodPc(u, a)
    requires
      || (u.mx == s.mx && forall m :: Holds(q, WorkOf(s, a), m) <==> Holds(At(s, a), WorkOf(s, a), m))
      || (u.mx == s.mx[l := a] && Free(s, l)
          && forall m :: Holds(q, WorkOf(s, a), m) <==> Holds(At(s, a), WorkOf(s, a), m) || m == l)
      || (u.mx == s.mx - {l} && Holds(At(s, a), WorkOf(s, a), l)
          && forall m :: Holds(q, WorkOf(s, a), m) <==> Holds(At(s, a), WorkOf(s, a), m) && m != l)
    ensures Core(u)
  {
    hide LocksOk, Holds, GoodPc;
    ShapeKept(s, u, a);
    hide Shape;
    if u.mx == s.mx && forall m :: Holds(q, WorkOf(s, a), m) <==> Holds(At(s, a), WorkOf(s, a), m) {
      LocksSame(s, u, a);
    } else if u.mx == s.mx[l := a] && Free(s, l)
              && forall m :: Holds(q, WorkOf(s, a), m) <==> Holds(At(s, a), WorkOf(s, a), m) || m == l {
      LockTaken(s, u, a, l);
    } else {
      LockDropped(s, u, a, l);
    }
  }

  lemma DelistCore(s: State, a: int, e: int, ok: bool)
    requires Core(s) && At(s, a) == WDelist(e, ok) && Known(s, e)
    ensures Core(DoDelist(s, a, e, ok))
  {
    hide LocksOk;
    assert GoodPc(s, a);
    Updated(s.ev, e, DoDelist(s, a, e, ok).ev[e]);
    ShapeKept(s, DoDelist(s, a, e, ok), a);
    hide Shape;
    LockDropped(s, DoDelist(s, a, e, ok), a, Ev(e));
  }

  lemma ThreadTestCore(s: State, a: int, e: int, t: bool, expired: bool)
    requires Core(s) && At(s, a) == TCheck(e, t) && Known(s, e) && (expired ==> t)
    ensures Core(DoThreadTest(s, a, e, t, expired))
  {
    hide LocksOk;
    var u := DoThreadTest(s, a, e, t, expired);
    assert GoodPc(s, a);
    Updated(s.ev, e, u.ev[e]);
    ShapeKept(s, u, a);
    hide Shape;
    if Pred(s.ev[e]) || expired { LockDropped(s, u, a, Ev(e)); } else { LocksSame(s, u, a); }
  }

  // ---------------------------------------------------------------------------------------------
  // Signalling
  // ---------------------------------------------------------------------------------------------

  lemma PoppedHolds(st: Stack, ret: Return, wk: Lock, l: Lock)
    ensures Holds(Popped(st, ret), wk, l) <==> StackHolds(st, l)
  {}

  lemma PoppedGood(ev: seq<Prim>, f: Frame, below: Stack, ret: Return)
    requires GoodStack(ev, Push(f, below), ret)
    ensures below.Push? ==> GoodStack(ev, below, ret)
    ensures below.Nil? && ret.ToAny? ==> GoodSources(ev, ret.made, ret.rest)
  {}

  lemma AlreadySignalledCore(s: State, a: int, f: Frame, below: Stack, ret: Return)
    requires Core(s) && At(s, a) == Sig(Push(f, below), ret) && f.ph == SLock
    ensures Core(Go(s, a, Popped(below, ret)))
  {
    assert GoodPc(s, a);
    PoppedGood(s.ev, f, below, ret);
    hide LocksOk, Shape;
    forall l { PoppedHolds(below, ret, WorkOf(s, a), l); }
    MoveCore(s, Go(s, a, Popped(below, ret)), a, Popped(below, ret), Ev(0));
  }

  // Taking the mutex of an event and setting its fields.
  lemma TakeEventCore(s: State, a: int, f: Frame, below: Stack, ret: Return, q: Prim, next: Phase)
    requires Core(s) && At(s, a) == Sig(Push(f, below), ret) && f.ph == SLock && Known(s, f.e) && Free(s, Ev(f.e))
    requires q.deps == s.ev[f.e].deps && q.kind == s.ev[f.e].kind
    requires next == SCv || next == SDeps(0)
    ensures Core(Go(Acquire(SetEv(s, f.e, q), Ev(f.e), a), a, Sig(Push(Frame(f.e, next), below), ret)))
  {
    hide LocksOk;
    var u := Go(Acquire(SetEv(s, f.e, q), Ev(f.e), a), a, Sig(Push(Frame(f.e, next), below), ret));
    assert GoodPc(s, a);
    Updated(s.ev, f.e, q);
    StackGrows(s.ev, u.ev, Push(f, below), ret);
    ShapeKept(s, u, a);
    hide Shape, Ordered, Grown;
    LockTaken(s, u, a, Ev(f.e));
  }

  lemma SigLockCore(s: State, a: int, f: Frame, below: Stack, ret: Return)
    requires Core(s) && At(s, a) == Sig(Push(f, below), ret) && f.ph == SLock && Known(s, f.e) && Free(s, Ev(f.e))
    ensures Core(DoSigLock(s, a, f, below, ret))
  {
    hide Core;
    var u := DoSigLock(s, a, f, below, ret);
    if !s.ev[f.e].kind.Group? && s.ev[f.e].signalled {
      AlreadySignalledCore(s, a, f, below, ret);
    } else {
      TakeEventCore(s, a, f, below, ret, u.ev[f.e], u.pc[a].stack.top.ph);
    }
  }

  lemma NotHeldBelow(s: State, a: int, f: Frame, below: Stack, ret: Return, l: Lock)
    requires Shape(s) && At(s, a) == Sig(Push(f, below), ret) && (!l.Ev? || l.e >= f.e)
    ensures !StackHolds(below, l)
  {
    assert GoodPc(s, a);
    if StackHolds(below, l) { BelowIsOlder(s.ev, f, below, ret, l); }
  }

  lemma SigCvCore(s: State, a: int, f: Frame, below: Stack, ret: Return)
    requires Core(s) && At(s, a) == Sig(Push(f, below), ret) && f.ph == SCv && Free(s, Cv(f.e))
    ensures Core(DoSigCv(s, a, f.e, below, ret))
  {
    assert GoodPc(s, a);
    hide LocksOk, Shape;
    MoveCore(s, DoSigCv(s, a, f.e, below, ret), a, Sig(Push(Frame(f.e, SNotify(0)), below), ret), Cv(f.e));
  }

  // A waiter that has been queued or awoken, or left alone
  predicate Stirred(p: Pc, q: Pc) {
    q == p || q == Awoken(p) || (p.WParked? && q == p.(queued := true))
  }

  // Agent a moves and may stir others; the primitives stay.
  ghost predicate Stirs(s: State, u: State, a: int) {
    && u.ev == s.ev && u.worker == s.worker && u.monotone == s.monotone && u.retests == s.retests
    && u.pc.Keys == s.pc.Keys + {a} && forall b :: b != a ==> Stirred(At(s, b), At(u, b))
  }

  lemma EnqueuedStirs(s: State, t: int)
    ensures var v := Enqueued(s, t);
            && v.ev == s.ev && v.worker == s.worker && v.monotone == s.monotone && v.retests == s.retests
            && v.mx == s.mx
            && v.pc.Keys == s.pc.Keys
            && forall b :: At(v, b) == At(s, b) || (At(s, b).WParked? && At(v, b) == At(s, b).(queued := true))
  {}

  lemma MovedStirs(s: State, v: State, u: State, a: int, q: Pc)
    requires v.ev == s.ev && v.worker == s.worker && v.monotone == s.monotone && v.retests == s.retests
    requires v.pc.Keys == s.pc.Keys && forall b :: Stirred(At(s, b), At(v, b))
    requires u.ev == v.ev && u.worker == v.worker && u.monotone == v.monotone && u.retests == v.retests
    requires u.pc == v.pc[a := q]
    ensures Stirs(s, u, a) && At(u, a) == q
  {
    hide Stirred;
    assert forall b :: b != a ==> At(u, b) == At(v, b);
  }

  lemma NotifyStirs(s: State, a: int, e: int, k: int, below: Stack, ret: Return)
    requires Known(s, e)
    ensures var u := DoSigNotify(s, a, e, k, below, ret);
            && Stirs(s, u, a) && At(u, a).Sig? && At(u, a).stack.Push? && At(u, a).stack.below == below
            && At(u, a).ret == ret
            && At(u, a).stack.top.e == e && At(u, a).stack.top.ph in {SCond, SDeps(0), SNotify(k + 1)}
  {
    var u := DoSigNotify(s, a, e, k, below, ret);
    var next := if !HasTarget(s.ev[e], k) then SCond else if s.ev[e].kind.Auto? then SDeps(0) else SNotify(k + 1);
    var q := Sig(Push(Frame(e, next), below), ret);
    var v := if HasTarget(s.ev[e], k) then Enqueued(s, Target(s.ev[e], k)) else s;
    if HasTarget(s.ev[e], k) { EnqueuedStirs(s, Target(s.ev[e], k)); }
    hide Enqueued, Stirs, HasTarget, Target;
    assert u.pc == v.pc[a := q];
    MovedStirs(s, v, u, a, q);
  }

  lemma RousedStirs(s: State, e: int, lucky: int)
    requires Known(s, e)
    ensures var v := Roused(s, e, lucky);
            && v.ev == s.ev && v.worker == s.worker && v.monotone == s.monotone && v.retests == s.retests
            && v.mx == s.mx
            && v.pc.Keys == s.pc.Keys && forall b :: At(v, b) == At(s, b) || At(v, b) == Awoken(At(s, b))
  {}

  lemma CondStirs(s: State, a: int, e: int, lucky: int, below: Stack, ret: Return)
    requires Known(s, e)
    ensures var u := DoSigCond(s, a, e, lucky, below, ret);
            && Stirs(s, u, a) && At(u, a) == Sig(Push(Frame(e, SDeps(0)), below), ret)
  {
    RousedStirs(s, e, lucky);
    hide Roused, Awoken;
    var v, q := Roused(s, e, lucky), Sig(Push(Frame(e, SDeps(0)), below), ret);
    hide Stirs;
    MovedStirs(s, v, Go(v, a, q), a, q);
  }

  lemma EnqueuedCore(s: State, t: int)
    requires Core(s)
    ensures Core(Enqueued(s, t))
    ensures Enqueued(s, t).ev == s.ev && Enqueued(s, t).mx == s.mx && Enqueued(s, t).worker == s.worker
    ensures forall b :: !At(s, b).WParked? ==> At(Enqueued(s, t), b) == At(s, b)
  {
    assert GoodPc(s, t);
    hide LocksOk, Shape;
    if At(s, t).WParked? { MoveCore(s, Enqueued(s, t), t, Enqueued(s, t).pc[t], Ev(0)); }
  }

  // The notifier goes on; it keeps the list's mutex or gives it up.
  lemma NotifyMoveCore(s: State, a: int, e: int, k: int, below: Stack, ret: Return, next: Phase)
    requires Core(s) && At(s, a) == Sig(Push(Frame(e, SNotify(k)), below), ret)
    requires next == SCond || next == SDeps(0) || (next.SNotify? && next.k >= 0)
    ensures Core(Go(if next.SNotify? then s else Release(s, Cv(e)), a, Sig(Push(Frame(e, next), below), ret)))
  {
    NotHeldBelow(s, a, Frame(e, SNotify(k)), below, ret, Cv(e));
    assert GoodPc(s, a);
    hide LocksOk, Shape;
    MoveCore(s, Go(if next.SNotify? then s else Release(s, Cv(e)), a, Sig(Push(Frame(e, next), below), ret)), a,
             Sig(Push(Frame(e, next), below), ret), Cv(e));
  }

  lemma SigNotifyCore(s: State, a: int, e: int, k: int, below: Stack, ret: Return)
    requires Core(s) && At(s, a) == Sig(Push(Frame(e, SNotify(k)), below), ret) && Known(s, e) && k >= 0
    ensures Core(DoSigNotify(s, a, e, k, below, ret))
  {
    hide Core;
    var p := s.ev[e];
    if HasTarget(p, k) {
      EnqueuedCore(s, Target(p, k));
      NotifyMoveCore(Enqueued(s, Target(p, k)), a, e, k, below, ret, if p.kind.Auto? then SDeps(0) else SNotify(k + 1));
    } else {
      NotifyMoveCore(s, a, e, k, below, ret, SCond);
    }
  }

  lemma AwokenCore(s: State, u: State)
    requires Core(s) && u.ev == s.ev && u.mx == s.mx && u.worker == s.worker && u.monotone == s.monotone
             && u.retests == s.retests
    requires forall b :: At(u, b) == At(s, b) || At(u, b) == Awoken(At(s, b))
    ensures Core(u)
  {
    forall b, l ensures Holds(At(u, b), WorkOf(u, b), l) <==> Holds(At(s, b), WorkOf(s, b), l) {}
    forall b ensures GoodPc(u, b) {
      assert GoodPc(s, b);
    }
  }

  lemma CondMoveCore(v: State, a: int, e: int, below: Stack, ret: Return)
    requires Core(v) && At(v, a) == Sig(Push(Frame(e, SCond), below), ret) && Known(v, e)
    ensures Core(Go(v, a, Sig(Push(Frame(e, SDeps(0)), below), ret)))
  {
    assert GoodPc(v, a);
    hide LocksOk, Shape;
    MoveCore(v, Go(v, a, Sig(Push(Frame(e, SDeps(0)), below), ret)), a, Sig(Push(Frame(e, SDeps(0)), below), ret),
             Ev(e));
  }

  lemma SigCondCore(s: State, a: int, e: int, lucky: int, below: Stack, ret: Return)
    requires Core(s) && At(s, a) == Sig(Push(Frame(e, SCond), below), ret) && Known(s, e)
    ensures Core(DoSigCond(s, a, e, lucky, below, ret))
  {
    var v := Roused(s, e, lucky);
    RousedStirs(s, e, lucky);
    hide Core, Roused;
    AwokenCore(s, v);
    assert At(v, a) == At(s, a);
    CondMoveCore(v, a, e, below, ret);
  }

  lemma DescendCore(s: State, a: int, e: int, i: int, below: Stack, ret: Return)
    requires Core(s) && At(s, a) == Sig(Push(Frame(e, SDeps(i)), below), ret) && Known(s, e)
    requires 0 <= i < |s.ev[e].deps|
    ensures Core(DoSigDeps(s, a, e, i, below, ret))
  {
    var u := DoSigDeps(s, a, e, i, below, ret);
    var st, f := Push(Frame(e, SDeps(i + 1)), below), Frame(s.ev[e].deps[i], SLock);
    assert GoodPc(s, a);
    assert s.ev[e].deps[i] in s.ev[e].deps;
    assert GoodStack(s.ev, st, ret) && Linked(s.ev, f, st.top);
    assert forall l :: StackHolds(Push(f, st), l) <==> StackHolds(st, l);
    hide LocksOk, Shape;
    MoveCore(s, u, a, Sig(Push(f, st), ret), Ev(e));
  }

  lemma ReturnCore(s: State, a: int, e: int, i: int, below: Stack, ret: Return)
    requires Core(s) && At(s, a) == Sig(Push(Frame(e, SDeps(i)), below), ret) && Known(s, e)
    requires i >= |s.ev[e].deps|
    ensures Core(DoSigDeps(s, a, e, i, below, ret))
  {
    var u := DoSigDeps(s, a, e, i, below, ret);
    NotHeldBelow(s, a, Frame(e, SDeps(i)), below, ret, Ev(e));
    assert GoodPc(s, a);
    PoppedGood(s.ev, Frame(e, SDeps(i)), below, ret);
    hide LocksOk, Shape;
    forall l ensures Holds(Popped(below, ret), WorkOf(s, a), l) <==> Holds(At(s, a), WorkOf(s, a), l) && l != Ev(e) {
      PoppedHolds(below, ret, WorkOf(s, a), l);
    }
    MoveCore(s, u, a, Popped(below, ret), Ev(e));
  }

  lemma AnyLockCore(s: State, a: int, e: int, m: int, below: Stack, ret: Return)
    requires Core(s) && At(s, a) == Sig(Push(Frame(e, ALock(m)), below), ret) && Known(s, e) && Free(s, Ev(e))
    ensures Core(DoAnyLock(s, a, e, m, below, ret))
  {
    var u := DoAnyLock(s, a, e, m, below, ret);
    var st, f := Push(Frame(e, APush(m)), below), Frame(m, SLock);
    assert GoodPc(s, a);
    assert below.Nil? && GoodStack(s.ev, st, ret) && Linked(s.ev, f, st.top);
    assert forall l :: StackHolds(Push(f, st), l) <==> StackHolds(st, l);
    hide LocksOk, Shape;
    MoveCore(s, u, a, u.pc[a], Ev(e));
  }

  lemma EdgeAdded(ev: seq<Prim>, e: int, m: int)
    requires Ordered(ev) && GoodFrame(ev, Frame(e, APush(m)))
    ensures var fv := ev[e := ev[e].(deps := ev[e].deps + [m])]; Grown(ev, fv) && Ordered(fv)
  {
    var fv := ev[e := ev[e].(deps := ev[e].deps + [m])];
    assert forall d :: 0 <= d < |ev| ==> fv[d].kind == ev[d].kind && (d != e ==> fv[d].deps == ev[d].deps);
    assert forall x :: x in fv[e].deps <==> x in ev[e].deps || x == m;
  }

  lemma AnyPushCore(s: State, a: int, e: int, m: int, below: Stack, ret: Return)
    requires Core(s) && At(s, a) == Sig(Push(Frame(e, APush(m)), below), ret) && Known(s, e)
    ensures Core(DoAnyPush(s, a, e, m, below, ret))
  {
    hide LocksOk;
    var u := DoAnyPush(s, a, e, m, below, ret);
    NotHeldBelow(s, a, Frame(e, APush(m)), below, ret, Ev(e));
    assert GoodPc(s, a);
    assert Grown(s.ev, u.ev) && Ordered(u.ev) by { EdgeAdded(s.ev, e, m); }
    StackGrows(s.ev, u.ev, Push(Frame(e, APush(m)), below), ret);
    PoppedGood(u.ev, Frame(e, APush(m)), below, ret);
    ShapeKept(s, u, a);
    hide Shape;
    forall l { PoppedHolds(below, ret, WorkOf(s, a), l); }
    LockDropped(s, u, a, Ev(e));
  }

  lemma EntryHoldsNothing(f: Frame, l: Lock)
    requires f.ph.SLock? || f.ph.ALock?
    ensures !StackHolds(Push(f, Nil), l)
  {
    assert !StackHolds(Nil, l);
  }

  lemma AnyStepCore(s: State, a: int, m: int, rest: seq<int>)
    requires Core(s) && At(s, a) == AnyNext(m, rest)
    ensures Core(DoAnyStep(s, a, m, rest))
  {
    assert GoodPc(s, a);
    assert rest != [] ==> rest[0] in rest;
    assert forall x :: rest != [] && x in rest[1..] ==> x in rest;
    hide LocksOk, Shape;
    if rest != [] { forall l { EntryHoldsNothing(Frame(rest[0], ALock(m)), l); } }
    MoveCore(s, DoAnyStep(s, a, m, rest), a, DoAnyStep(s, a, m, rest).pc[a], Ev(0));
  }

  // ---------------------------------------------------------------------------------------------
  // All steps
  // ---------------------------------------------------------------------------------------------

  lemma FiberMoveCore(s: State, a: int, st: FiberStep)
    requires Core(s) && CanFiber(s, a, st)
    requires st.TakeWork? || st.DropMutex? || st.Park? || st.Queue? || st.Resume? || st.Relock?
    ensures Core(DoFiber(s, a, st))
  {
    assert GoodPc(s, a);
    hide LocksOk, Shape;
    var u := DoFiber(s, a, st);
    MoveCore(s, u, a, u.pc[a], if st.TakeWork? || st.Park? then WorkOf(s, a) else Ev(At(s, a).e));
  }

  lemma FiberCore(s: State, a: int, st: FiberStep)
    requires Core(s) && CanFiber(s, a, st)
    ensures Core(DoFiber(s, a, st))
  {
    hide Core;
    var p := At(s, a);
    match st
    case WaitLock => WaitLockCore(s, a, p.e, p.timed);
    case Enlist => EnlistCore(s, a, p.e, p.timed);
    case TestPred => TestPredCore(s, a, p.e, p.timed);
    case Delist => DelistCore(s, a, p.e, p.ok);
    case _ => FiberMoveCore(s, a, st);
  }

  lemma ThreadMoveCore(s: State, a: int, st: ThreadStep)
    requires Core(s) && CanThread(s, a, st) && !st.ThreadTest?
    ensures Core(DoThread(s, a, st))
  {
    assert GoodPc(s, a);
    hide LocksOk, Shape;
    var u := DoThread(s, a, st);
    MoveCore(s, u, a, u.pc[a], Ev(At(s, a).e));
  }

  lemma ThreadCore(s: State, a: int, st: ThreadStep)
    requires Core(s) && CanThread(s, a, st)
    ensures Core(DoThread(s, a, st))
  {
    hide Core;
    if st.ThreadTest? {
      ThreadTestCore(s, a, At(s, a).e, At(s, a).timed, st.expired);
    } else {
      ThreadMoveCore(s, a, st);
    }
  }

  lemma SigCore(s: State, a: int, st: SigStep)
    requires Core(s) && CanSig(s, a, st)
    ensures Core(DoSig(s, a, st))
  {
    if st.AnyStep? {
      AnyStepCore(s, a, At(s, a).made, At(s, a).rest);
    } else {
      var f, below, ret := At(s, a).stack.top, At(s, a).stack.below, At(s, a).ret;
      assert GoodPc(s, a);
      assert f.ph.SNotify? ==> f.ph.k >= 0;
      assert f == Frame(f.e, f.ph);
      hide Core;
      match st
      case SigLock => SigLockCore(s, a, f, below, ret);
      case SigCv => SigCvCore(s, a, f, below, ret);
      case SigNotify => SigNotifyCore(s, a, f.e, f.ph.k, below, ret);
      case SigCond(lucky) => SigCondCore(s, a, f.e, lucky, below, ret);
      case SigDeps =>
        if f.ph.i < |s.ev[f.e].deps| {
          DescendCore(s, a, f.e, f.ph.i, below, ret);
        } else {
          ReturnCore(s, a, f.e, f.ph.i, below, ret);
        }
      case AnyLock => AnyLockCore(s, a, f.e, f.ph.new_, below, ret);
      case AnyPush => AnyPushCore(s, a, f.e, f.ph.new_, below, ret);
      case AnyStep =>
    }
  }

  // A change of one primitive that keeps its edges, with or without entering signal().
  lemma PrimCore(s: State, u: State, a: int, e: int, p: Prim)
    requires Core(s) && At(s, a).Out? && Known(s, e) && u.ev == s.ev[e := p] && u.mx == s.mx
    requires p.deps == s.ev[e].deps && p.kind == s.ev[e].kind
    requires OnlyAgent(s, u, a) && (At(u, a).Out? || At(u, a) == Sig(Push(Frame(e, SLock), Nil), ToOut))
    ensures Core(u)
  {
    hide LocksOk;
    Updated(s.ev, e, p);
    ShapeKept(s, u, a);
    hide Shape;
    forall l { EntryHoldsNothing(Frame(e, SLock), l); }
    LocksSame(s, u, a);
  }

  lemma GrowCore(s: State, u: State, a: int, p: Prim)
    requires Core(s) && At(s, a).Out? && u.ev == s.ev + [p] && p.deps == [] && u.mx == s.mx
    requires OnlyAgent(s, u, a) && GoodPc(u, a) && (At(u, a).Out? || At(u, a).AnyNext?)
    ensures Core(u)
  {
    hide LocksOk;
    assert Ordered(u.ev) && Grown(s.ev, u.ev);
    ShapeKept(s, u, a);
    hide Shape;
    LocksSame(s, u, a);
  }

  lemma UserCore(s: State, a: int, st: UserStep)
    requires Core(s) && CanUser(s, a, st)
    ensures Core(DoUser(s, a, st))
  {
    var u := DoUser(s, a, st);
    match st
    case StartWait(e, timed) =>
      hide LocksOk, Shape;
      MoveCore(s, u, a, u.pc[a], Ev(e));
    case StartSignal(e) =>
      hide LocksOk, Shape;
      forall l { EntryHoldsNothing(Frame(e, SLock), l); }
      MoveCore(s, u, a, u.pc[a], Ev(e));
    case StartAny(_, _) => hide Core; GrowCore(s, u, a, u.ev[|s.ev|]);
    case _ => hide Core; PrimCore(s, u, a, st.e, u.ev[st.e]);
  }

  lemma StepCore(s: State, st: Step)
    requires Core(s) && Can(s, st)
    ensures Core(Do(s, st))
  {
    hide DoFiber, DoThread, DoSig, DoUser, CanFiber, CanThread, CanSig, CanUser;
    match st
    case Fiber(a, f) => hide Core; FiberCore(s, a, f);
    case Thread(a, t) => hide Core; ThreadCore(s, a, t);
    case Signaller(a, g) => hide Core; SigCore(s, a, g);
    case User(a, o) => hide Core; UserCore(s, a, o);
    case NewPrim(p) => NewPrimCore(s, p);
  }

  lemma NewPrimCore(s: State, p: Prim)
    requires Core(s) && NewOk(s, p, |s.ev|)
    ensures Core(s.(ev := s.ev + [p]))
  {
    var u := s.(ev := s.ev + [p]);
    assert Ordered(u.ev) && Grown(s.ev, u.ev);
    forall b ensures GoodPc(u, b) { hide GoodPc; PcGrows(s, u, b); }
    assert forall b :: At(u, b) == At(s, b) && WorkOf(u, b) == WorkOf(s, b);
  }
}
