/** Whole runs of events and wait groups: when wakeups are lost, and how often an automatic event lets a wait
    through. */
module EventTheorems {
  import opened Events
  import opened EventLocks
  import opened EventBooks
  import opened EventWakeups
  import opened EventWakeSteps

  lemma InitGood(s: State)
    requires Init(s)
    ensures Good(s)
  {
    assert forall a :: At(s, a) == Out;
  }

  lemma {:induction false} RunGood(ss: seq<State>, steps: seq<Step>, k: nat)
    requires Run(ss, steps) && k < |ss|
    ensures Good(ss[k])
  {
    hide Good, Can, Do, Init;
    if k == 0 {
      InitGood(ss[0]);
    } else {
      RunGood(ss, steps, k - 1);
      assert Can(ss[k - 1], steps[k - 1]) && Do(ss[k - 1], steps[k - 1]) == ss[k];
      StepGood(ss[k - 1], steps[k - 1]);
    }
  }

  ghost predicate Reachable(s: State) {
    exists ss: seq<State>, steps: seq<Step> :: Run(ss, steps) && ss[|steps|] == s
  }

  lemma OneMore(s: State, st: Step)
    requires Reachable(s) && Can(s, st)
    ensures Reachable(Do(s, st))
  {
    hide Can, Do, Init;
    var ss: seq<State>, steps: seq<Step> :| Run(ss, steps) && ss[|steps|] == s;
    assert Run(ss + [Do(s, st)], steps + [st]);
  }

  // ---------------------------------------------------------------------------------------------
  // Wakeups
  // ---------------------------------------------------------------------------------------------

  lemma RunStep(ss: seq<State>, steps: seq<Step>, k: nat)
    requires Run(ss, steps) && k < |steps|
    ensures |ss| == |steps| + 1 && Can(ss[k], steps[k]) && Do(ss[k], steps[k]) == ss[k + 1]
  {
    hide Can, Do, Init;
  }

  // No step before the k-th loses a wakeup of e.
  ghost predicate Spared(ss: seq<State>, steps: seq<Step>, e: int, k: nat)
    requires k <= |steps| <= |ss|
  {
    forall i :: 0 <= i < k && Known(ss[i], e) ==> !Harmful(ss[i], steps[i], e)
  }

  /** As long as no step is harmful to e, no wakeup of e is lost. */
  lemma {:induction false} SparedIsOwed(ss: seq<State>, steps: seq<Step>, e: int, k: nat)
    requires Run(ss, steps) && k <= |steps| <= |ss| && Spared(ss, steps, e, k) && Known(ss[k], e)
    ensures Owed(ss[k], e)
  {
    hide Can, Do, Init, Owed, Harmful, Good;
    if k == 0 {
      StartsEmpty(ss[0]);
    } else {
      RunStep(ss, steps, k - 1);
      RunGood(ss, steps, k - 1);
      if Known(ss[k - 1], e) {
        SparedIsOwed(ss, steps, e, k - 1);
        StepExact(ss[k - 1], steps[k - 1], e);
      } else {
        NewcomerOwed(ss[k - 1], steps[k - 1], e);
      }
    }
  }

  lemma StartsEmpty(s: State)
    ensures Init(s) ==> s.ev == []
  {}

  /** The exact condition, run by run: no state of a run has lost a wakeup exactly if no step of it is harmful. */
  lemma WakeupsKeptIff(ss: seq<State>, steps: seq<Step>)
    requires Run(ss, steps) && |steps| <= |ss|
    ensures (forall k :: 0 <= k < |ss| ==> NoLostWakeup(ss[k])) <==> forall e :: Spared(ss, steps, e, |steps|)
  {
    if forall e :: Spared(ss, steps, e, |steps|) {
      forall k, e | 0 <= k < |ss| && Known(ss[k], e) ensures Owed(ss[k], e) {
        assert Spared(ss, steps, e, |steps|);
        SparedIsOwed(ss, steps, e, k);
      }
    }
    if forall k :: 0 <= k < |ss| ==> NoLostWakeup(ss[k]) {
      forall e, i | 0 <= i < |steps| && Known(ss[i], e) ensures !Harmful(ss[i], steps[i], e) {
        HarmShows(ss, steps, i, e);
      }
    }
  }

  lemma HarmShows(ss: seq<State>, steps: seq<Step>, i: nat, e: int)
    requires Run(ss, steps) && i < |steps| < |ss| && Known(ss[i], e) && NoLostWakeup(ss[i]) && NoLostWakeup(ss[i + 1])
    ensures !Harmful(ss[i], steps[i], e)
  {
    RunStep(ss, steps, i);
    RunGood(ss, steps, i);
    hide Run, Can, Do, Good, Harmful;
    StepExact(ss[i], steps[i], e);
  }

  /** A waiter whose event is signalled, or whose group is at zero, is on its way to a test that will see it, or
      is being notified, or is leaving at its deadline; always for manual events, and for groups unless add() has
      wrapped their count to zero past a waiter. */
  lemma WaiterIsServed(ss: seq<State>, steps: seq<Step>, k: nat, e: int, a: int)
    requires Run(ss, steps) && k <= |steps| < |ss| && Known(ss[k], e) && Pred(ss[k].ev[e]) && Counted(At(ss[k], a), e)
    requires ss[k].ev[e].kind.Manual? || (ss[k].ev[e].kind.Group? && Spared(ss, steps, e, k))
    ensures var s := ss[k];
            Aware(At(s, a), e) || (exists b :: Owes(s, b, a, e)) || At(s, a) == WDelist(e, false)
  {
    RunGood(ss, steps, k);
    if ss[k].ev[e].kind.Manual? { ManualSpared(ss, steps, e, k); }
    SparedIsOwed(ss, steps, e, k);
    hide Run, Good, Owes, Spared, Owed;
    OwedIsServed(ss[k], e, a);
  }

  lemma OwedIsServed(s: State, e: int, a: int)
    requires Good(s) && Known(s, e) && Owed(s, e) && !s.ev[e].kind.Auto? && Pred(s.ev[e]) && Counted(At(s, a), e)
    ensures Aware(At(s, a), e) || (exists b :: Owes(s, b, a, e)) || At(s, a) == WDelist(e, false)
  {
    assert Fact(s.ev, At(s, a));
    assert Unaware(At(s, a), e, s.ev[e].kind) ==> exists b :: Owes(s, b, a, e);
    hide Good, Owes;
  }

  /** While an automatic event is signalled, somebody is notifying or some waiter is on its way to the test, unless a
      fiber has given up at its deadline as the last one to know. */
  lemma SomeWaiterIsServed(ss: seq<State>, steps: seq<Step>, k: nat, e: int, a: int)
    requires Run(ss, steps) && k <= |steps| < |ss| && Known(ss[k], e) && Counted(At(ss[k], a), e)
    requires ss[k].ev[e].kind.Auto? && ss[k].ev[e].signalled && Spared(ss, steps, e, k)
    ensures var s := ss[k];
            (exists b :: Notifying(s, b, e)) || (exists c :: Aware(At(s, c), e)) || At(s, a) == WDelist(e, false)
  {
    RunGood(ss, steps, k);
    SparedIsOwed(ss, steps, e, k);
    hide Run, Good, Notifying, Spared, Owed;
    OneOwedIsServed(ss[k], e, a);
  }

  lemma OneOwedIsServed(s: State, e: int, a: int)
    requires Good(s) && Known(s, e) && Owed(s, e) && s.ev[e].kind.Auto? && s.ev[e].signalled && Counted(At(s, a), e)
    ensures (exists b :: Notifying(s, b, e)) || (exists c :: Aware(At(s, c), e)) || At(s, a) == WDelist(e, false)
  {
    assert Fact(s.ev, At(s, a));
    assert Unaware(At(s, a), e, s.ev[e].kind) ==> OneOwed(s, e);
    hide Good, Notifying;
  }

  /** When nobody is in the middle of a notification, nobody sleeps on a satisfied manual event or wait group. */
  lemma NobodySleepsThrough(ss: seq<State>, steps: seq<Step>, k: nat, e: int, a: int)
    requires Run(ss, steps) && k <= |steps| < |ss| && Known(ss[k], e) && Pred(ss[k].ev[e])
    requires ss[k].ev[e].kind.Manual? || (ss[k].ev[e].kind.Group? && Spared(ss, steps, e, k))
    requires forall b :: TopIs(At(ss[k], b), e) ==> At(ss[k], b).stack.top.ph.SDeps? || At(ss[k], b).stack.top.ph.APush?
    ensures var s := ss[k]; !AsleepOn(s, a, e) && (At(s, a).WParked? && At(s, a).e == e ==> At(s, a).queued)
  {
    if Counted(At(ss[k], a), e) {
      WaiterIsServed(ss, steps, k, e, a);
      hide Run, Spared;
    }
  }

  // ---------------------------------------------------------------------------------------------
  // Kinds and programs
  // ---------------------------------------------------------------------------------------------

  lemma {:induction false} SameKind(ss: seq<State>, steps: seq<Step>, e: int, j: nat, k: nat)
    requires Run(ss, steps) && j <= k <= |steps| < |ss| && Known(ss[j], e)
    ensures Known(ss[k], e) && ss[k].ev[e].kind == ss[j].ev[e].kind && ss[k].retests == ss[j].retests
    decreases k
  {
    hide Run, Can, Do;
    if j < k {
      SameKind(ss, steps, e, j, k - 1);
      RunStep(ss, steps, k - 1);
      StepKinds(ss[k - 1], steps[k - 1]);
    }
  }

  // No step is harmful to a manual event.
  lemma ManualSpared(ss: seq<State>, steps: seq<Step>, e: int, k: nat)
    requires Run(ss, steps) && k <= |steps| < |ss| && Known(ss[k], e) && ss[k].ev[e].kind.Manual?
    ensures Spared(ss, steps, e, k)
  {
    forall i | 0 <= i < k && Known(ss[i], e) ensures !Harmful(ss[i], steps[i], e) {
      SameKind(ss, steps, e, i, k);
      RunStep(ss, steps, i);
      hide Run, Do;
    }
  }

  // With the repaired timed wait, none is harmful to an automatic event.
  lemma RetestSpared(ss: seq<State>, steps: seq<Step>, e: int, k: nat)
    requires Run(ss, steps) && k <= |steps| < |ss| && Known(ss[k], e) && ss[k].ev[e].kind.Auto? && ss[k].retests
    ensures Spared(ss, steps, e, k)
  {
    forall i | 0 <= i < k && Known(ss[i], e) ensures !Harmful(ss[i], steps[i], e) {
      SameKind(ss, steps, e, i, k);
      RunStep(ss, steps, i);
      hide Run, Do;
    }
  }

  // A fiber waits on e with a deadline.
  predicate TimedOn(p: Pc, e: int) {
    match p
    case WLock(x, t) => x == e && t
    case WEnlist(x, t) => x == e && t
    case WLoop(x, t) => x == e && t
    case WWork(x, t) => x == e && t
    case WBoth(x, t) => x == e && t
    case WPark(x, t) => x == e && t
    case WParked(x, t, _) => x == e && t
    case WRelock(x, t) => x == e && t
    case _ => false
  }

  /** What a program does not do: a fiber does not wait on an automatic event e with a deadline; add() does not take
      the count of a group e from above zero to 2^32 exactly. */
  ghost predicate Forbears(s: State, st: Step, e: int)
    requires Known(s, e)
  {
    match s.ev[e].kind
    case Auto => forall a :: a in s.worker ==> st != User(a, StartWait(e, true))
    case Group => forall a, n :: s.ev[e].count > 0 && s.ev[e].count + n == U32 ==> st != User(a, AddCount(e, n))
    case Manual => true
  }

  lemma FiberTimed(s: State, b: int, st: FiberStep, e: int, a: int)
    requires CanFiber(s, b, st)
    ensures TimedOn(At(DoFiber(s, b, st), a), e) ==> TimedOn(At(s, a), e)
  {}

  lemma ThreadTimed(s: State, b: int, st: ThreadStep, e: int, a: int)
    requires CanThread(s, b, st)
    ensures TimedOn(At(DoThread(s, b, st), a), e) ==> TimedOn(At(s, a), e)
  {}

  // Who is queued or awoken waits as before.
  lemma StirredTimed(p: Pc, q: Pc, e: int)
    requires Stirred(p, q)
    ensures TimedOn(q, e) ==> TimedOn(p, e)
  {}

  lemma SigTimed(s: State, b: int, st: SigStep, e: int, a: int)
    requires CanSig(s, b, st)
    ensures TimedOn(At(DoSig(s, b, st), a), e) ==> TimedOn(At(s, a), e)
  {
    hide DoSigNotify, DoSigCond, TimedOn, Stirred;
    var u := DoSig(s, b, st);
    if st.SigNotify? {
      NotifyStirs(s, b, At(s, b).stack.top.e, At(s, b).stack.top.ph.k, At(s, b).stack.below, At(s, b).ret);
    } else if st.SigCond? {
      CondStirs(s, b, At(s, b).stack.top.e, st.lucky, At(s, b).stack.below, At(s, b).ret);
    }
    assert At(u, b).Sig? || At(u, b).Out? || At(u, b).AnyNext?;
    if a == b { NotWaiting(At(u, b), e); }
    else if st.SigNotify? || st.SigCond? { StirredTimed(At(s, a), At(u, a), e); }
    else { assert At(u, a) == At(s, a); }
  }

  lemma NotWaiting(p: Pc, e: int)
    requires p.Sig? || p.Out? || p.AnyNext?
    ensures !TimedOn(p, e)
  {}

  lemma UserTimed(s: State, b: int, st: UserStep, e: int, a: int)
    requires CanUser(s, b, st)
    ensures TimedOn(At(DoUser(s, b, st), a), e) ==> TimedOn(At(s, a), e) || (b == a && st == StartWait(e, true))
  {}

  // A wait with a deadline begins as one.
  lemma TimedBefore(s: State, st: Step, e: int, a: int)
    requires Can(s, st) && TimedOn(At(Do(s, st), a), e)
    ensures TimedOn(At(s, a), e) || st == User(a, StartWait(e, true))
  {
    hide CanFiber, CanThread, CanSig, CanUser, DoFiber, DoThread, DoSig, DoUser, TimedOn;
    match st
    case Fiber(b, f) => FiberTimed(s, b, f, e, a);
    case Thread(b, t) => ThreadTimed(s, b, t, e, a);
    case Signaller(b, g) => SigTimed(s, b, g, e, a);
    case User(b, o) => UserTimed(s, b, o, e, a);
    case NewPrim(p) =>
  }

  ghost predicate Disciplined(ss: seq<State>, steps: seq<Step>, e: int, k: nat)
    requires k <= |steps| <= |ss|
  {
    forall i :: 0 <= i < k && Known(ss[i], e) ==> Forbears(ss[i], steps[i], e)
  }

  lemma TimedIsKnown(s: State, a: int, e: int)
    requires Shape(s) && TimedOn(At(s, a), e)
    ensures Known(s, e)
  {
    assert GoodPc(s, a);
  }

  // A fiber that waits on e with a deadline has begun to, and e was there before.
  lemma TimedStep(s: State, st: Step, e: int, a: int)
    requires Good(s) && Can(s, st) && a in s.worker && TimedOn(At(Do(s, st), a), e)
    ensures Known(s, e) && (s.ev[e].kind.Auto? ==> TimedOn(At(s, a), e) || !Forbears(s, st, e))
  {
    GoodShape(s);
    hide Good, Shape, Do;
    TimedBefore(s, st, e, a);
    if TimedOn(At(s, a), e) { TimedIsKnown(s, a, e); }
  }

  lemma {:induction false} NobodyTimed(ss: seq<State>, steps: seq<Step>, e: int, k: nat, a: int)
    requires Run(ss, steps) && k <= |steps| < |ss| && Disciplined(ss, steps, e, k)
    requires Known(ss[k], e) && ss[k].ev[e].kind.Auto? && a in ss[k].worker
    ensures !TimedOn(At(ss[k], a), e)
  {
    if k > 0 {
      var s, st := ss[k - 1], steps[k - 1];
      RunStep(ss, steps, k - 1);
      RunGood(ss, steps, k - 1);
      hide Run, Good, Can, Do, TimedOn, Forbears;
      StepKinds(s, st);
      if TimedOn(At(ss[k], a), e) {
        TimedStep(s, st, e, a);
        NobodyTimed(ss, steps, e, k - 1, a);
      }
    }
  }

  lemma GoodShape(s: State)
    requires Good(s)
    ensures Shape(s)
  {}

  lemma DisciplineSpares(ss: seq<State>, steps: seq<Step>, e: int, k: nat)
    requires Run(ss, steps) && k <= |steps| < |ss| && Known(ss[k], e) && Disciplined(ss, steps, e, k)
    ensures Spared(ss, steps, e, k)
  {
    forall i | 0 <= i < k && Known(ss[i], e) ensures !Harmful(ss[i], steps[i], e) {
      var s, st := ss[i], steps[i];
      RunStep(ss, steps, i);
      assert Forbears(s, st, e);
      if s.ev[e].kind.Auto? && st.Fiber? && st.fiber == Relock(true) {
        RunGood(ss, steps, i);
        GoodShape(s);
        assert GoodPc(s, st.a);
        hide Run, Good, Shape, Do;
        if At(s, st.a).WRelock? && At(s, st.a).e == e { NobodyTimed(ss, steps, e, i, st.a); }
      }
    }
  }

  /** In a program that forbears from these, no wakeup of e is ever lost. */
  lemma DisciplineSuffices(ss: seq<State>, steps: seq<Step>, e: int, k: nat)
    requires Run(ss, steps) && k <= |steps| < |ss| && Known(ss[k], e) && Disciplined(ss, steps, e, k)
    ensures Owed(ss[k], e)
  {
    hide Run, Owed, Disciplined, Spared;
    DisciplineSpares(ss, steps, e, k);
    SparedIsOwed(ss, steps, e, k);
  }

  // ---------------------------------------------------------------------------------------------
  // Automatic events
  // ---------------------------------------------------------------------------------------------

  function Int(b: bool): int {
    if b then 1 else 0
  }

  /** The step signals e, which was not signalled. */
  predicate Raises(s: State, st: Step, e: int) {
    && st.Signaller? && st.sig.SigLock? && InFrame(s, st.a) && At(s, st.a).stack.top.e == e
    && !s.ev[e].signalled
  }

  /** The step lets a wait on e return because of the signal, or a test() return true. */
  predicate LetsThrough(s: State, st: Step, e: int)
    requires Known(s, e)
  {
    match st
    case Fiber(a, f) =>
      (f.WaitLock? && At(s, a).WLock? && At(s, a).e == e && s.ev[e].signalled)
      || (f.Delist? && At(s, a) == WDelist(e, true))
    case Thread(a, t) => t.ThreadTest? && At(s, a).TCheck? && At(s, a).e == e && s.ev[e].signalled
    case User(_, o) => o == TestEvent(e) && s.ev[e].signalled
    case _ => false
  }

  predicate Clears(s: State, st: Step, e: int)
    requires Known(s, e)
  {
    st.User? && st.user == ClearEvent(e) && s.ev[e].signalled
  }

  lemma FiberTickets(s: State, a: int, f: FiberStep, e: int)
    requires Facts(s) && CanFiber(s, a, f) && Known(s, e) && s.ev[e].kind.Auto?
    ensures var u := DoFiber(s, a, f);
            Known(u, e) && u.ev[e].kind.Auto? &&
            Int(u.ev[e].signalled) == Int(s.ev[e].signalled) - Int(LetsThrough(s, Fiber(a, f), e))
  {
    assert Fact(s.ev, At(s, a));
  }

  lemma ThreadTickets(s: State, a: int, t: ThreadStep, e: int)
    requires CanThread(s, a, t) && Known(s, e) && s.ev[e].kind.Auto?
    ensures var u := DoThread(s, a, t);
            Known(u, e) && u.ev[e].kind.Auto? &&
            Int(u.ev[e].signalled) == Int(s.ev[e].signalled) - Int(LetsThrough(s, Thread(a, t), e))
  {}

  lemma SigTickets(s: State, a: int, g: SigStep, e: int)
    requires CanSig(s, a, g) && Known(s, e) && s.ev[e].kind.Auto?
    ensures var u := DoSig(s, a, g);
            Known(u, e) && u.ev[e].kind.Auto? &&
            Int(u.ev[e].signalled) == Int(s.ev[e].signalled) + Int(Raises(s, Signaller(a, g), e))
  {}

  lemma UserTickets(s: State, a: int, o: UserStep, e: int)
    requires CanUser(s, a, o) && Known(s, e) && s.ev[e].kind.Auto?
    ensures var u := DoUser(s, a, o);
            Known(u, e) && u.ev[e].kind.Auto? &&
            Int(u.ev[e].signalled) == Int(s.ev[e].signalled)
            - Int(LetsThrough(s, User(a, o), e)) - Int(Clears(s, User(a, o), e))
  {}

  /** One step's ledger: a raise sets the flag, a wait or test that gets through, or a clear, resets it. */
  lemma StepTickets(s: State, st: Step, e: int)
    requires Facts(s) && Can(s, st) && Known(s, e) && s.ev[e].kind.Auto?
    ensures Known(Do(s, st), e) && Do(s, st).ev[e].kind.Auto?
    ensures Int(Do(s, st).ev[e].signalled) ==
            Int(s.ev[e].signalled) + Int(Raises(s, st, e)) - Int(LetsThrough(s, st, e)) - Int(Clears(s, st, e))
  {
    hide Facts, CanFiber, CanThread, CanSig, CanUser, DoFiber, DoThread, DoSig, DoUser;
    match st
    case Fiber(a, f) => FiberTickets(s, a, f, e);
    case Thread(a, t) => ThreadTickets(s, a, t, e);
    case Signaller(a, g) => SigTickets(s, a, g, e);
    case User(a, o) => UserTickets(s, a, o, e);
    case NewPrim(p) =>
  }

  ghost function Raised(ss: seq<State>, steps: seq<Step>, e: int, k: nat): int
    requires k <= |steps| <= |ss|
  {
    if k == 0 then 0 else Raised(ss, steps, e, k - 1) + Int(Known(ss[k - 1], e) && Raises(ss[k - 1], steps[k - 1], e))
  }

  ghost function LetThrough(ss: seq<State>, steps: seq<Step>, e: int, k: nat): int
    requires k <= |steps| <= |ss|
  {
    if k == 0 then 0
    else LetThrough(ss, steps, e, k - 1) + Int(Known(ss[k - 1], e) && LetsThrough(ss[k - 1], steps[k - 1], e))
  }

  // What has been let through and what is standing, less what was raised.
  ghost function Balance(ss: seq<State>, steps: seq<Step>, e: int, k: nat): int
    requires k <= |steps| < |ss| && Known(ss[k], e)
  {
    LetThrough(ss, steps, e, k) + Int(ss[k].ev[e].signalled) - Raised(ss, steps, e, k)
  }

  lemma BalanceStep(ss: seq<State>, steps: seq<Step>, e: int, k: nat)
    requires Run(ss, steps) && k < |steps| && Known(ss[k], e) && ss[k].ev[e].kind.Auto?
    ensures |ss| == |steps| + 1 && Known(ss[k + 1], e) && ss[k + 1].ev[e].kind.Auto?
    ensures Balance(ss, steps, e, k + 1) == Balance(ss, steps, e, k) - Int(Clears(ss[k], steps[k], e))
  {
    RunFacts(ss, steps, k);
    RunStep(ss, steps, k);
    hide Run, Can, Do, Facts, Raises, LetsThrough, Clears;
    StepTickets(ss[k], steps[k], e);
  }

  ghost predicate NeverCleared(ss: seq<State>, steps: seq<Step>, e: int, from: nat, k: nat)
    requires k <= |steps| < |ss|
  {
    forall i :: from <= i < k ==> Known(ss[i], e) && !Clears(ss[i], steps[i], e)
  }

  lemma {:induction false} BalanceFalls(ss: seq<State>, steps: seq<Step>, e: int, from: nat, k: nat)
    requires Run(ss, steps) && from <= k <= |steps| < |ss| && Known(ss[from], e) && ss[from].ev[e].kind.Auto?
    ensures Known(ss[k], e) && ss[k].ev[e].kind.Auto? && Balance(ss, steps, e, k) <= Balance(ss, steps, e, from)
    ensures NeverCleared(ss, steps, e, from, k) ==> Balance(ss, steps, e, k) == Balance(ss, steps, e, from)
    decreases k
  {
    hide Run, Clears, Balance;
    if from < k {
      BalanceFalls(ss, steps, e, from, k - 1);
      BalanceStep(ss, steps, e, k - 1);
    }
  }

  /** Over any stretch of a run, an automatic event lets through at most as many waits and tests as it was
      signalled, counting a signal that was standing at the start; without clear(), every signal is used once. */
  lemma SignalsAreUsedOnce(ss: seq<State>, steps: seq<Step>, e: int, from: nat, k: nat)
    requires Run(ss, steps) && from <= k <= |steps| < |ss| && Known(ss[from], e) && ss[from].ev[e].kind.Auto?
    ensures Known(ss[k], e)
    ensures LetThrough(ss, steps, e, k) - LetThrough(ss, steps, e, from) + Int(ss[k].ev[e].signalled)
            <= Int(ss[from].ev[e].signalled) + Raised(ss, steps, e, k) - Raised(ss, steps, e, from)
    ensures NeverCleared(ss, steps, e, from, k) ==>
              LetThrough(ss, steps, e, k) - LetThrough(ss, steps, e, from) + Int(ss[k].ev[e].signalled)
              == Int(ss[from].ev[e].signalled) + Raised(ss, steps, e, k) - Raised(ss, steps, e, from)
  {
    BalanceFalls(ss, steps, e, from, k);
    hide Run, LetThrough, Raised, NeverCleared;
  }

  lemma RunFacts(ss: seq<State>, steps: seq<Step>, k: nat)
    requires Run(ss, steps) && k < |ss|
    ensures Facts(ss[k])
  {
    RunGood(ss, steps, k);
    assert Good(ss[k]);
    hide Run;
  }
}
