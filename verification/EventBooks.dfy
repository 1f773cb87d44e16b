/** The books of a condition variable: its list holds each enlisted fiber once, and its two counters count
    the waiters exactly. */
module EventBooks {
  import opened Collections
  import opened Events
  import opened EventLocks

  // The control points of a fiber that is in the list of e.
  predicate Listed(p: Pc, e: int) {
    match p
    case WLoop(x, _) => x == e
    case WWork(x, _) => x == e
    case WBoth(x, _) => x == e
    case WPark(x, _) => x == e
    case WParked(x, _, _) => x == e
    case WRelock(x, _) => x == e
    case WDelist(x, _) => x == e
    case _ => false
  }

  // The control points of a plain thread that waits on e.
  predicate OnCond(p: Pc, e: int) {
    match p
    case TCheck(x, _) => x == e
    case TCommit(x, _) => x == e
    case TSleep(x, _, _) => x == e
    case _ => false
  }

  predicate Counted(p: Pc, e: int) {
    Listed(p, e) || OnCond(p, e) || (p.WEnlist? && p.e == e)
  }

  ghost function Waiters(pc: map<int, Pc>, e: int): set<int> {
    set a | a in pc && Counted(pc[a], e)
  }

  ghost function Threads(pc: map<int, Pc>, e: int): set<int> {
    set a | a in pc && OnCond(pc[a], e)
  }

  ghost predicate Lists(s: State) {
    forall e :: Known(s, e) ==>
      NoDup(s.ev[e].waiting) && forall a :: a in s.ev[e].waiting <==> Listed(At(s, a), e)
  }

  ghost predicate Counts(s: State) {
    forall e :: Known(s, e) ==>
      s.ev[e].waitingNum == |Waiters(s.pc, e)| && s.ev[e].condNum == |Threads(s.pc, e)|
  }

  ghost predicate Books(s: State) {
    Lists(s) && Counts(s)
  }

  predicate SameBook(p: Prim, q: Prim) {
    q.waiting == p.waiting && q.waitingNum == p.waitingNum && q.condNum == p.condNum
  }

  predicate SameRole(p: Pc, q: Pc, e: int) {
    && (Listed(q, e) <==> Listed(p, e)) && (OnCond(q, e) <==> OnCond(p, e)) && (Counted(q, e) <==> Counted(p, e))
  }

  /** Steps in which nobody enters or leaves a wait keep the books. */
  lemma BooksSame(s: State, u: State)
    requires Books(s) && u.pc.Keys == s.pc.Keys && |u.ev| >= |s.ev|
    requires forall e :: Known(s, e) ==> SameBook(s.ev[e], u.ev[e])
    requires forall a, e :: SameRole(At(s, a), At(u, a), e)
    requires forall e :: |s.ev| <= e < |u.ev| ==>
               u.ev[e].waiting == [] && u.ev[e].waitingNum == 0 && u.ev[e].condNum == 0
    requires |u.ev| > |s.ev| ==> forall a, e :: e >= |s.ev| ==> !Counted(At(s, a), e)
    ensures Books(u)
  {
    hide Listed, OnCond, Counted;
    forall e | Known(u, e)
      ensures Waiters(u.pc, e) == Waiters(s.pc, e) && Threads(u.pc, e) == Threads(s.pc, e)
      ensures forall a :: Listed(At(u, a), e) <==> Listed(At(s, a), e)
    {
      forall a ensures Listed(At(u, a), e) <==> Listed(At(s, a), e) { assert SameRole(At(s, a), At(u, a), e); }
      forall a | a in s.pc
        ensures Counted(u.pc[a], e) == Counted(s.pc[a], e) && OnCond(u.pc[a], e) == OnCond(s.pc[a], e)
      {
        assert SameRole(At(s, a), At(u, a), e);
      }
    }
    forall e | Known(u, e) && e >= |s.ev|
      ensures Waiters(s.pc, e) == {} && Threads(s.pc, e) == {} && forall a :: !Listed(At(s, a), e)
    {
      forall a ensures !Counted(At(s, a), e) && !Listed(At(s, a), e) && !OnCond(At(s, a), e) {
        RolesCount(At(s, a), e);
      }
      forall a | a in s.pc ensures !Counted(s.pc[a], e) && !OnCond(s.pc[a], e) { assert At(s, a) == s.pc[a]; }
    }
    forall e | Known(u, e) ensures e < |s.ev| ==> SameBook(s.ev[e], u.ev[e]) {}
  }

  lemma RolesCount(p: Pc, e: int)
    ensures Listed(p, e) || OnCond(p, e) ==> Counted(p, e)
  {}

  lemma NobodyThere(s: State)
    requires Shape(s)
    ensures forall a, e :: e >= |s.ev| ==> !Counted(At(s, a), e)
  {
    forall a, e | e >= |s.ev| ensures !Counted(At(s, a), e) {
      hide GoodStack;
      assert GoodPc(s, a);
    }
  }

  lemma WaitersMove(pc: map<int, Pc>, a: int, p: Pc, e: int)
    requires a in pc
    ensures |Waiters(pc[a := p], e)| == |Waiters(pc, e)|
            + (if Counted(p, e) then 1 else 0) - (if Counted(pc[a], e) then 1 else 0)
  {
    hide Counted;
    SameBut(Waiters(pc, e), Waiters(pc[a := p], e), a);
  }

  lemma ThreadsMove(pc: map<int, Pc>, a: int, p: Pc, e: int)
    requires a in pc
    ensures |Threads(pc[a := p], e)| == |Threads(pc, e)|
            + (if OnCond(p, e) then 1 else 0) - (if OnCond(pc[a], e) then 1 else 0)
  {
    hide OnCond;
    SameBut(Threads(pc, e), Threads(pc[a := p], e), a);
  }

  // One agent moves, one primitive changes: the counts of that primitive.
  lemma CountChange(s: State, u: State, a: int, e: int)
    requires Counts(s) && Known(s, e) && a in s.pc && u.pc == s.pc[a := At(u, a)] && |u.ev| == |s.ev|
    requires forall d :: Known(s, d) && d != e ==> u.ev[d] == s.ev[d]
    requires forall d :: d != e ==> SameRole(At(s, a), At(u, a), d)
    requires u.ev[e].waitingNum == s.ev[e].waitingNum
               + (if Counted(At(u, a), e) then 1 else 0) - (if Counted(At(s, a), e) then 1 else 0)
    requires u.ev[e].condNum == s.ev[e].condNum
               + (if OnCond(At(u, a), e) then 1 else 0) - (if OnCond(At(s, a), e) then 1 else 0)
    ensures Counts(u)
  {
    hide Listed, OnCond, Counted, Waiters, Threads;
    forall d | Known(u, d)
      ensures u.ev[d].waitingNum == |Waiters(u.pc, d)| && u.ev[d].condNum == |Threads(u.pc, d)|
    {
      WaitersMove(s.pc, a, At(u, a), d);
      ThreadsMove(s.pc, a, At(u, a), d);
      assert d != e ==> SameRole(At(s, a), At(u, a), d);
    }
  }

  lemma ListsSame(s: State, u: State, a: int, e: int)
    requires Lists(s) && Known(s, e) && u.pc == s.pc[a := At(u, a)] && |u.ev| == |s.ev|
    requires forall d :: Known(s, d) ==> u.ev[d].waiting == s.ev[d].waiting
    requires forall d :: Listed(At(u, a), d) <==> Listed(At(s, a), d)
    ensures Lists(u)
  {
    hide Listed;
    assert forall b :: b != a ==> At(u, b) == At(s, b);
  }

  // One agent moves and the counters of e follow; its list stays.
  lemma CountersBooks(s: State, u: State, a: int, e: int, p: Prim, q: Pc)
    requires Books(s) && Known(s, e) && a in s.pc && u.pc == s.pc[a := q] && u.ev == s.ev[e := p]
    requires p.waiting == s.ev[e].waiting && (forall d :: Listed(q, d) <==> Listed(s.pc[a], d))
    requires forall d :: d != e ==> SameRole(s.pc[a], q, d)
    requires p.waitingNum == s.ev[e].waitingNum
             + (if Counted(q, e) then 1 else 0) - (if Counted(s.pc[a], e) then 1 else 0)
    requires p.condNum == s.ev[e].condNum + (if OnCond(q, e) then 1 else 0) - (if OnCond(s.pc[a], e) then 1 else 0)
    ensures Books(u)
  {
    hide Lists, Counts, Listed, OnCond, Counted, SameRole;
    ListsSame(s, u, a, e);
    CountChange(s, u, a, e);
  }

  // Wanting the mutex or outside
  lemma ApartRole(p: Pc, q: Pc, d: int)
    requires (p.WLock? || p.Out?) && (q.WLock? || q.Out?)
    ensures SameRole(p, q, d) && (Listed(q, d) <==> Listed(p, d)) && !Counted(p, d) && !OnCond(p, d)
  {}

  // Beginning to wait, on a fiber or on a plain thread
  lemma BeginRole(p: Pc, q: Pc, e: int, d: int)
    requires p.WLock? && ((q.WEnlist? && q.e == e) || (q.TCheck? && q.e == e))
    ensures !Listed(p, d) && !Listed(q, d) && !Counted(p, d) && !OnCond(p, d)
    ensures (Counted(q, d) <==> d == e) && (OnCond(q, d) <==> d == e && q.TCheck?)
    ensures d != e ==> SameRole(p, q, d)
  {}

  lemma WaitLockBooks(s: State, a: int, e: int, t: bool)
    requires Books(s) && At(s, a) == WLock(e, t) && Known(s, e)
    ensures Books(DoWaitLock(s, a, e, t))
  {
    var u := DoWaitLock(s, a, e, t);
    var p, q := s.pc[a], u.pc[a];
    hide Books, Listed, OnCond, Counted, SameRole;
    if Pred(s.ev[e]) {
      forall d ensures SameRole(p, q, d) && (Listed(q, d) <==> Listed(p, d)) { ApartRole(p, q, d); }
      ApartRole(p, q, e);
      ApartRole(q, p, e);
    } else {
      forall d ensures (Listed(q, d) <==> Listed(p, d)) && (d != e ==> SameRole(p, q, d)) { BeginRole(p, q, e, d); }
      BeginRole(p, q, e, e);
    }
    CountersBooks(s, u, a, e, u.ev[e], q);
  }

  lemma RemoveFirstExact(q: seq<int>, a: int)
    requires NoDup(q)
    ensures NoDup(RemoveFirst(q, a))
    ensures forall x :: x in RemoveFirst(q, a) <==> x in q && x != a
  {
    if q != [] {
      if q[0] == a {
        assert forall x :: x in q[1..] ==> x != a;
      } else {
        RemoveFirstExact(q[1..], a);
        assert forall x :: x in q[1..] ==> x != q[0];
        var r := RemoveFirst(q[1..], a);
        assert forall i :: 0 <= i < |r| ==> r[i] in q[1..];
        assert forall i :: 0 < i < |[q[0]] + r| ==> ([q[0]] + r)[i] == r[i - 1];
      }
    }
  }

  lemma {:induction false} RemoveFirstLength(q: seq<int>, a: int)
    ensures |RemoveFirst(q, a)| == if a in q then |q| - 1 else |q|
  {
    if q != [] && q[0] != a { RemoveFirstLength(q[1..], a); }
  }

  lemma EnlistBooks(s: State, a: int, e: int, t: bool)
    requires Books(s) && At(s, a) == WEnlist(e, t) && Known(s, e)
    ensures Books(DoEnlist(s, a, e, t))
  {
    var u := DoEnlist(s, a, e, t);
    assert a !in s.ev[e].waiting;
    assert forall b :: b in u.ev[e].waiting <==> b == a || b in s.ev[e].waiting;
    assert Lists(u);
    hide Lists, Counts;
    CountChange(s, u, a, e);
  }

  lemma DelistBooks(s: State, a: int, e: int, ok: bool)
    requires Books(s) && At(s, a) == WDelist(e, ok) && Known(s, e)
    ensures Books(DoDelist(s, a, e, ok))
  {
    var u := DoDelist(s, a, e, ok);
    RemoveFirstExact(s.ev[e].waiting, a);
    assert Lists(u);
    hide Lists, Counts;
    CountChange(s, u, a, e);
  }

  // A plain thread leaves.
  lemma LeaveRole(p: Pc, q: Pc, e: int, d: int)
    requires p.TCheck? && p.e == e && q.Out?
    ensures !Listed(p, d) && !Listed(q, d) && !Counted(q, d) && !OnCond(q, d)
    ensures (Counted(p, d) <==> d == e) && (OnCond(p, d) <==> d == e)
    ensures d != e ==> SameRole(p, q, d)
  {}

  lemma ThreadTestBooks(s: State, a: int, e: int, t: bool, expired: bool)
    requires Books(s) && At(s, a) == TCheck(e, t) && Known(s, e)
    ensures Books(DoThreadTest(s, a, e, t, expired))
  {
    var u := DoThreadTest(s, a, e, t, expired);
    if Pred(s.ev[e]) || expired {
      var p, q := s.pc[a], u.pc[a];
      hide Books, Listed, OnCond, Counted, SameRole;
      forall d ensures (Listed(q, d) <==> Listed(p, d)) && (d != e ==> SameRole(p, q, d)) { LeaveRole(p, q, e, d); }
      LeaveRole(p, q, e, e);
      CountersBooks(s, u, a, e, u.ev[e], q);
    } else {
      hide Books;
      BooksSame(s, u);
    }
  }

  lemma FiberBooks(s: State, a: int, st: FiberStep)
    requires Books(s) && CanFiber(s, a, st)
    ensures Books(DoFiber(s, a, st))
  {
    hide Books;
    var p := At(s, a);
    match st
    case WaitLock => WaitLockBooks(s, a, p.e, p.timed);
    case Enlist => EnlistBooks(s, a, p.e, p.timed);
    case Delist => DelistBooks(s, a, p.e, p.ok);
    case _ => BooksSame(s, DoFiber(s, a, st));
  }

  lemma ThreadBooks(s: State, a: int, st: ThreadStep)
    requires Books(s) && CanThread(s, a, st)
    ensures Books(DoThread(s, a, st))
  {
    hide Books;
    if st.ThreadTest? { ThreadTestBooks(s, a, At(s, a).e, At(s, a).timed, st.expired); }
    else { BooksSame(s, DoThread(s, a, st)); }
  }

  predicate Signalling(p: Pc) {
    p.Sig? || p.AnyNext? || p.Out?
  }

  // A signaller moves; the list and the counters stay.
  lemma SignallerBooks(s: State, u: State, a: int)
    requires Books(s) && a in s.pc && u.pc == s.pc[a := At(u, a)] && |u.ev| == |s.ev|
    requires forall e :: Known(s, e) ==> SameBook(s.ev[e], u.ev[e])
    requires Signalling(At(s, a)) && Signalling(At(u, a))
    ensures Books(u)
  {
    hide Books;
    BooksSame(s, u);
  }

  lemma StirredRole(p: Pc, q: Pc, e: int)
    requires Stirred(p, q)
    ensures SameRole(p, q, e)
  {}

  lemma SignallingRole(p: Pc, q: Pc, e: int)
    requires Signalling(p) && Signalling(q)
    ensures SameRole(p, q, e)
  {}

  // The signaller moves; fibers are queued or threads awoken.
  lemma StirsBooks(s: State, u: State, a: int)
    requires Books(s) && Stirs(s, u, a) && a in s.pc && Signalling(At(s, a)) && Signalling(At(u, a))
    ensures Books(u)
  {
    hide Books, SameRole, Stirred, Signalling;
    forall b, e ensures SameRole(At(s, b), At(u, b), e) {
      if b == a { SignallingRole(At(s, b), At(u, b), e); } else { StirredRole(At(s, b), At(u, b), e); }
    }
    BooksSame(s, u);
  }

  lemma SigNotifyBooks(s: State, a: int, e: int, k: int, below: Stack, ret: Return)
    requires Books(s) && At(s, a).Sig? && Known(s, e)
    ensures Books(DoSigNotify(s, a, e, k, below, ret))
  {
    hide Books, DoSigNotify, Stirs;
    NotifyStirs(s, a, e, k, below, ret);
    StirsBooks(s, DoSigNotify(s, a, e, k, below, ret), a);
  }

  lemma SigCondBooks(s: State, a: int, e: int, lucky: int, below: Stack, ret: Return)
    requires Books(s) && At(s, a).Sig? && Known(s, e)
    ensures Books(DoSigCond(s, a, e, lucky, below, ret))
  {
    hide Books, DoSigCond, Stirs;
    CondStirs(s, a, e, lucky, below, ret);
    StirsBooks(s, DoSigCond(s, a, e, lucky, below, ret), a);
  }

  lemma SigBooks(s: State, a: int, st: SigStep)
    requires Books(s) && CanSig(s, a, st)
    ensures Books(DoSig(s, a, st))
  {
    hide Books;
    if st.SigNotify? {
      SigNotifyBooks(s, a, At(s, a).stack.top.e, At(s, a).stack.top.ph.k, At(s, a).stack.below, At(s, a).ret);
    } else if st.SigCond? {
      SigCondBooks(s, a, At(s, a).stack.top.e, st.lucky, At(s, a).stack.below, At(s, a).ret);
    } else {
      SigShape(s, a, st);
      hide DoSig, CanSig, SameBook, Signalling;
      SignallerBooks(s, DoSig(s, a, st), a);
    }
  }

  lemma SigShape(s: State, a: int, st: SigStep)
    requires CanSig(s, a, st) && !st.SigNotify? && !st.SigCond?
    ensures var u := DoSig(s, a, st);
            && a in s.pc && a in u.pc && u.pc == s.pc[a := u.pc[a]] && |u.ev| == |s.ev|
            && Signalling(At(s, a)) && Signalling(At(u, a)) && forall e :: Known(s, e) ==> SameBook(s.ev[e], u.ev[e])
  {
    SigMoves(s, a, st);
    SigPrims(s, a, st);
    hide DoSig, CanSig, SameBook, Signalling;
  }

  lemma SigMoves(s: State, a: int, st: SigStep)
    requires CanSig(s, a, st) && !st.SigNotify? && !st.SigCond?
    ensures var u := DoSig(s, a, st);
            && a in s.pc && a in u.pc && u.pc == s.pc[a := u.pc[a]] && Signalling(At(s, a)) && Signalling(At(u, a))
  {
    hide BelowEvent;
  }

  lemma SigPrims(s: State, a: int, st: SigStep)
    requires CanSig(s, a, st) && !st.SigNotify? && !st.SigCond?
    ensures var u := DoSig(s, a, st); |u.ev| == |s.ev| && forall e :: Known(s, e) ==> SameBook(s.ev[e], u.ev[e])
  {
    hide Popped, BelowEvent;
  }

  // Entering an operation is no wait yet.
  lemma EnterRole(p: Pc, q: Pc, d: int)
    requires p.Out? && (Signalling(q) || q.WLock?)
    ensures SameRole(p, q, d)
  {}

  lemma UserShape(s: State, a: int, st: UserStep)
    requires CanUser(s, a, st)
    ensures var u := DoUser(s, a, st);
            && u.pc.Keys == s.pc.Keys && (forall b :: b != a ==> At(u, b) == At(s, b))
            && At(s, a).Out? && (Signalling(At(u, a)) || At(u, a).WLock?)
            && |u.ev| >= |s.ev| && (forall e :: Known(s, e) ==> SameBook(s.ev[e], u.ev[e]))
            && forall e :: |s.ev| <= e < |u.ev| ==>
                 u.ev[e].waiting == [] && u.ev[e].waitingNum == 0 && u.ev[e].condNum == 0
  {
    UserMoves(s, a, st);
    UserPrims(s, a, st);
    hide DoUser, CanUser, SameBook, Signalling;
  }

  lemma UserMoves(s: State, a: int, st: UserStep)
    requires CanUser(s, a, st)
    ensures var u := DoUser(s, a, st);
            && u.pc.Keys == s.pc.Keys && (forall b :: b != a ==> At(u, b) == At(s, b))
            && At(s, a).Out? && (Signalling(At(u, a)) || At(u, a).WLock?)
  {}

  lemma UserPrims(s: State, a: int, st: UserStep)
    requires CanUser(s, a, st)
    ensures var u := DoUser(s, a, st);
            && |u.ev| >= |s.ev| && (forall e :: Known(s, e) ==> SameBook(s.ev[e], u.ev[e]))
            && forall e :: |s.ev| <= e < |u.ev| ==>
                 u.ev[e].waiting == [] && u.ev[e].waitingNum == 0 && u.ev[e].condNum == 0
  {}

  lemma UserBooks(s: State, a: int, st: UserStep)
    requires Books(s) && Shape(s) && CanUser(s, a, st)
    ensures Books(DoUser(s, a, st))
  {
    NobodyThere(s);
    UserShape(s, a, st);
    hide Books, Shape, DoUser, CanUser, SameRole, Counted, Signalling;
    var u := DoUser(s, a, st);
    forall b, e ensures SameRole(At(s, b), At(u, b), e) {
      if b == a { EnterRole(At(s, b), At(u, b), e); } else { StirredRole(At(s, b), At(u, b), e); }
    }
    BooksSame(s, u);
  }

  lemma StepBooks(s: State, st: Step)
    requires Books(s) && Shape(s) && Can(s, st)
    ensures Books(Do(s, st))
  {
    hide DoFiber, DoThread, DoSig, DoUser, CanFiber, CanThread, CanSig, CanUser;
    NobodyThere(s);
    hide Books, Shape;
    match st
    case Fiber(a, f) => FiberBooks(s, a, f);
    case Thread(a, t) => ThreadBooks(s, a, t);
    case Signaller(a, g) => SigBooks(s, a, g);
    case User(a, o) => UserBooks(s, a, o);
    case NewPrim(p) => BooksSame(s, Do(s, st));
  }
}
