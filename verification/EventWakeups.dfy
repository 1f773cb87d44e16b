/** What it means that no wakeup is lost: whenever an event is signalled, or a wait group is at zero, while somebody
    waits on it unaware, a notification is on its way, to every such waiter of a manual event or a wait group, and to
    at least one waiter of an automatic event. And which steps are harmful to that. */
module EventWakeups {
  import opened Events
  import opened EventLocks
  import opened EventBooks

  // ---------------------------------------------------------------------------------------------
  // What a control point knows about the signalled flag, because it holds the mutex
  // ---------------------------------------------------------------------------------------------

  predicate FrameFact(ev: seq<Prim>, f: Frame) {
    0 <= f.e < |ev| ==>
      && (f.ph.SCv? || f.ph.SNotify? || f.ph.SCond? || f.ph.SDeps? ==> ev[f.e].kind.Group? || ev[f.e].signalled)
      && (f.ph.SCond? && ev[f.e].kind.Auto? ==> ev[f.e].waiting == [])
  }

  predicate StackFact(ev: seq<Prim>, st: Stack) {
    st.Push? ==> FrameFact(ev, st.top) && StackFact(ev, st.below)
  }

  predicate Unsignalled(ev: seq<Prim>, e: int) {
    0 <= e < |ev| ==> ev[e].kind.Group? || !ev[e].signalled
  }

  predicate Fact(ev: seq<Prim>, p: Pc) {
    match p
    case WEnlist(e, _) => Unsignalled(ev, e)
    case WWork(e, _) => Unsignalled(ev, e)
    case WBoth(e, _) => Unsignalled(ev, e)
    case TCommit(e, _) => Unsignalled(ev, e)
    case WDelist(e, ok) => ok && 0 <= e < |ev| ==> ev[e].kind.Group? || ev[e].signalled
    case Sig(st, _) => StackFact(ev, st)
    case _ => true
  }

  ghost predicate Facts(s: State) {
    (forall a :: Fact(s.ev, At(s, a))) && Ranged(s)
  }

  // The count is an unsigned 32-bit integer.
  ghost predicate Ranged(s: State) {
    forall e :: Known(s, e) ==> 0 <= s.ev[e].count < U32
  }

  // The flag and the list of e only change at the hands of the holder of its mutex, or of nobody's.
  ghost predicate Guarded(s: State, u: State, a: int) {
    && |s.ev| <= |u.ev|
    && (forall e :: Known(s, e) ==>
          && u.ev[e].kind == s.ev[e].kind
          && (u.ev[e].signalled != s.ev[e].signalled || u.ev[e].waiting != s.ev[e].waiting ==>
                Ev(e) !in s.mx || s.mx[Ev(e)] == a))
    && (Ranged(s) ==> Ranged(u))
  }

  lemma {:induction false} StackFactKept(ev: seq<Prim>, fv: seq<Prim>, st: Stack, ret: Return)
    requires StackFact(ev, st) && |ev| <= |fv| && (st.Push? ==> GoodStack(ev, st, ret))
    requires forall e :: 0 <= e < |ev| ==> fv[e].kind == ev[e].kind
    requires forall e :: 0 <= e < |ev| && StackHolds(st, Ev(e)) ==>
               fv[e].signalled == ev[e].signalled && fv[e].waiting == ev[e].waiting
    ensures StackFact(fv, st)
  {
    if st.Push? {
      assert GoodFrame(ev, st.top);
      StackFactKept(ev, fv, st.below, ret);
    }
  }

  lemma FactKept(s: State, u: State, a: int, b: int)
    requires LocksOk(s) && GoodPc(s, b) && Fact(s.ev, At(s, b)) && Guarded(s, u, a) && b != a
    ensures Fact(u.ev, At(s, b))
  {
    var p := At(s, b);
    assert forall e :: Holds(p, WorkOf(s, b), Ev(e)) ==> Ev(e) in s.mx && s.mx[Ev(e)] == b;
    if p.Sig? { StackFactKept(s.ev, u.ev, p.stack, p.ret); }
  }

  lemma FactsKept(s: State, u: State, a: int)
    requires Core(s) && Facts(s) && Guarded(s, u, a) && Fact(u.ev, At(u, a))
    requires forall b :: b != a ==> Stirred(At(s, b), At(u, b))
    ensures Facts(u)
  {
    forall b ensures Fact(u.ev, At(u, b)) {
      hide Fact, GoodPc, Guarded, LocksOk;
      assert Fact(s.ev, At(s, b)) && GoodPc(s, b);
      if b != a {
        FactKept(s, u, a, b);
        WokenFact(u.ev, At(s, b), At(u, b));
      }
    }
  }

  lemma WokenFact(ev: seq<Prim>, p: Pc, q: Pc)
    requires Fact(ev, p) && Stirred(p, q)
    ensures Fact(ev, q)
  {}

  // ---------------------------------------------------------------------------------------------
  // Who is owed a notification, and who owes it
  // ---------------------------------------------------------------------------------------------

  /** A waiter that will not test the predicate again by itself. For a Group also one that has found the
      count above zero and is about to park, because the count drops outside the mutex. */
  predicate Unaware(p: Pc, e: int, kind: Kind) {
    match p
    case WPark(x, _) => x == e
    case WParked(x, _, queued) => x == e && !queued
    case TSleep(x, _, asleep) => x == e && asleep
    case WEnlist(x, _) => kind.Group? && x == e
    case WWork(x, _) => kind.Group? && x == e
    case WBoth(x, _) => kind.Group? && x == e
    case TCommit(x, _) => kind.Group? && x == e
    case _ => false
  }

  /** A waiter that is queued or running towards its next test of the predicate. */
  predicate Aware(p: Pc, e: int) {
    match p
    case WParked(x, _, queued) => x == e && queued
    case WRelock(x, _) => x == e
    case WLoop(x, _) => x == e
    case WDelist(x, ok) => x == e && ok
    case TSleep(x, _, asleep) => x == e && !asleep
    case TCheck(x, _) => x == e
    case _ => false
  }

  // The frame an agent is executing.
  predicate TopIs(p: Pc, e: int) {
    p.Sig? && p.stack.Push? && p.stack.top.e == e
  }

  /** Agent b is about to notify agent a of e. */
  predicate Owes(s: State, b: int, a: int, e: int) {
    && TopIs(At(s, b), e) && Known(s, e)
    && match At(s, b).stack.top.ph
       case SLock => s.ev[e].kind.Group?
       case SCv => true
       case SNotify(k) => forall i :: 0 <= i < k && i < |s.ev[e].waiting| ==> s.ev[e].waiting[i] != a
       case SCond => OnCond(At(s, a), e)
       case _ => false
  }

  /** Agent b is about to notify somebody of e. */
  predicate Notifying(s: State, b: int, e: int) {
    TopIs(At(s, b), e) && (At(s, b).stack.top.ph.SCv? || At(s, b).stack.top.ph.SNotify? || At(s, b).stack.top.ph.SCond?)
  }

  ghost predicate AllOwed(s: State, e: int)
    requires Known(s, e)
  {
    Pred(s.ev[e]) ==> forall a :: Unaware(At(s, a), e, s.ev[e].kind) ==> exists b :: Owes(s, b, a, e)
  }

  ghost predicate OneOwed(s: State, e: int)
    requires Known(s, e)
  {
    Pred(s.ev[e]) && (exists a :: Unaware(At(s, a), e, s.ev[e].kind)) ==>
      (exists b :: Notifying(s, b, e)) || exists c :: Aware(At(s, c), e)
  }

  ghost predicate Owed(s: State, e: int)
    requires Known(s, e)
  {
    if s.ev[e].kind.Auto? then OneOwed(s, e) else AllOwed(s, e)
  }

  /** No wakeup of a primitive is lost. */
  ghost predicate NoLostWakeup(s: State) {
    forall e :: Known(s, e) ==> Owed(s, e)
  }

  ghost predicate Good(s: State) {
    Core(s) && Books(s) && Facts(s)
  }

  // Of one step: no wakeup is lost by it.
  ghost predicate Keeps(s: State, u: State) {
    |s.ev| <= |u.ev| && forall d :: Known(s, d) && Owed(s, d) ==> Owed(u, d)
  }

  ghost predicate KeepsBut(s: State, u: State, e: int) {
    |s.ev| <= |u.ev| && forall d :: d != e && Known(s, d) && Owed(s, d) ==> Owed(u, d)
  }

  /** The step loses a wakeup of e. A fiber gives up its wait for a signalled automatic event at its deadline, the
      last one to know of the signal, while others wait; or add() wraps the count of a group to zero while
      somebody waits whom nobody is about to notify. */
  ghost predicate Harmful(s: State, st: Step, e: int)
    requires Known(s, e)
  {
    match st
    case Fiber(a, Relock(true)) =>
      && At(s, a).WRelock? && At(s, a).e == e && s.ev[e].kind.Auto? && s.ev[e].signalled && !s.retests
      && (exists x :: Unaware(At(s, x), e, Auto))
      && (forall b :: !Notifying(s, b, e)) && forall c :: c != a ==> !Aware(At(s, c), e)
    case User(_, AddCount(x, n)) =>
      && x == e && s.ev[e].count > 0 && s.ev[e].count + n == U32
      && exists y :: Unaware(At(s, y), e, Group) && forall b :: !Owes(s, b, y, e)
    case _ => false
  }

  // ---------------------------------------------------------------------------------------------
  // Frames
  // ---------------------------------------------------------------------------------------------

  lemma OwedVacuously(u: State, e: int)
    requires Known(u, e) && !Pred(u.ev[e])
    ensures Owed(u, e)
  {}

  lemma OwedKept(s: State, u: State, e: int)
    requires Known(s, e) && Known(u, e) && Owed(s, e)
    requires u.ev[e].kind == s.ev[e].kind
    requires Pred(u.ev[e]) ==> Pred(s.ev[e])
    requires forall a :: Unaware(At(u, a), e, s.ev[e].kind) ==> Unaware(At(s, a), e, s.ev[e].kind)
    requires s.ev[e].kind.Auto? ==> forall c :: Aware(At(s, c), e) ==> Aware(At(u, c), e)
    requires s.ev[e].kind.Auto? ==> forall b :: Notifying(s, b, e) ==> Notifying(u, b, e)
    requires !s.ev[e].kind.Auto? ==>
               forall b, a :: Owes(s, b, a, e) && Unaware(At(u, a), e, s.ev[e].kind) ==> Owes(u, b, a, e)
    ensures Owed(u, e)
  {
    hide Unaware, Aware, Owes, Notifying, Pred;
    if s.ev[e].kind.Auto? {
      if Pred(u.ev[e]) && exists a :: Unaware(At(u, a), e, s.ev[e].kind) {
        var a :| Unaware(At(u, a), e, s.ev[e].kind);
        assert Unaware(At(s, a), e, s.ev[e].kind);
        if b :| Notifying(s, b, e) { assert Notifying(u, b, e); }
        else { var c :| Aware(At(s, c), e); assert Aware(At(u, c), e); }
      }
    } else if Pred(u.ev[e]) {
      forall a | Unaware(At(u, a), e, s.ev[e].kind) ensures exists b :: Owes(u, b, a, e) {
        assert Unaware(At(s, a), e, s.ev[e].kind);
        var b :| Owes(s, b, a, e);
        assert Owes(u, b, a, e);
      }
    }
  }

  // A frame that owes notifications of its event, or for a Group will.
  predicate Active(p: Pc, e: int, kind: Kind) {
    && TopIs(p, e) && !p.stack.top.ph.SDeps? && !p.stack.top.ph.ALock? && !p.stack.top.ph.APush?
    && (p.stack.top.ph.SLock? ==> kind.Group?)
  }

  // One agent moves and the primitive keeps what concerns its waiters.
  lemma OwedByMove(s: State, u: State, a: int, e: int)
    requires Known(s, e) && Known(u, e) && Owed(s, e) && OnlyAgent(s, u, a)
    requires u.ev[e].kind == s.ev[e].kind && u.ev[e].waiting == s.ev[e].waiting
    requires Pred(u.ev[e]) ==> Pred(s.ev[e])
    requires Unaware(At(u, a), e, s.ev[e].kind) ==>
               Unaware(At(s, a), e, s.ev[e].kind) && (OnCond(At(s, a), e) ==> OnCond(At(u, a), e))
    requires s.ev[e].kind.Auto? && Aware(At(s, a), e) ==> Aware(At(u, a), e)
    requires !Active(At(s, a), e, s.ev[e].kind)
    ensures Owed(u, e)
  {
    hide Owed;
    OwedKept(s, u, e);
  }

  // An agent that is busy with e owes nothing, and is owed nothing, anywhere else.
  lemma OthersOwed(s: State, u: State, a: int, e: int)
    requires OnlyAgent(s, u, a) && |u.ev| == |s.ev|
    requires forall d :: Known(s, d) && d != e ==> u.ev[d] == s.ev[d]
    requires forall d :: d != e ==> !Aware(At(s, a), d) && !TopIs(At(s, a), d)
    requires forall d, k :: d != e ==> !Unaware(At(u, a), d, k)
    ensures KeepsBut(s, u, e)
  {
    hide Owed, Aware, Unaware;
    forall d | d != e && Known(s, d) && Owed(s, d) ensures Owed(u, d) { OwedByMove(s, u, a, d); }
  }

  lemma Together(s: State, u: State, e: int)
    requires KeepsBut(s, u, e) && (Known(s, e) && Owed(s, e) ==> Owed(u, e))
    ensures Keeps(s, u)
  {
    hide Owed;
  }

  lemma OneAfterAnother(s: State, v: State, u: State)
    requires Keeps(s, v) && Keeps(v, u)
    ensures Keeps(s, u)
  {
    hide Owed;
  }
}
