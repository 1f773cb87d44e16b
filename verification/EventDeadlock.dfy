/** The lock order: event mutexes in the order of creation, then condition variables, then workers. No step
    wants a lock at or below one its agent holds, so agents never block each other in a circle. */
module EventDeadlock {
  import opened Wrappers
  import opened Events
  import opened EventLocks

  predicate Before(l: Lock, m: Lock) {
    match l
    case Ev(x) => m.Ev? ==> x < m.e
    case Cv(_) => m.Wk?
    case Wk(_) => false
  }

  // The lock an agent is about to take.
  function Wants(s: State, a: int): Option<Lock> {
    match At(s, a)
    case WLock(e, _) => Some(Ev(e))
    case WEnlist(e, _) => Some(Cv(e))
    case WWork(_, _) => Some(WorkOf(s, a))
    case WParked(_, _, queued) => if queued then Some(WorkOf(s, a)) else None
    case WRelock(e, _) => Some(Ev(e))
    case WDelist(e, _) => Some(Cv(e))
    case TSleep(e, _, asleep) => if asleep then None else Some(Ev(e))
    case Sig(st, _) => if st.Push? then FrameWants(s, st.top) else None
    case _ => None
  }

  function FrameWants(s: State, f: Frame): Option<Lock> {
    match f.ph
    case SLock => Some(Ev(f.e))
    case ALock(_) => Some(Ev(f.e))
    case SCv => Some(Cv(f.e))
    case SNotify(k) => if Known(s, f.e) && HasTarget(s.ev[f.e], k) then Some(WorkOf(s, Target(s.ev[f.e], k))) else None
    case _ => None
  }

  predicate Blocked(s: State, a: int) {
    Wants(s, a).Some? && Wants(s, a).value in s.mx
  }

  /** An agent only ever wants a lock above every lock it holds. */
  lemma WantsAbove(s: State, a: int, l: Lock)
    requires Core(s) && l in s.mx && s.mx[l] == a && Wants(s, a).Some?
    ensures Before(l, Wants(s, a).value)
  {
    assert Holds(At(s, a), WorkOf(s, a), l);
    assert GoodPc(s, a);
    if At(s, a).Sig? {
      var st, ret := At(s, a).stack, At(s, a).ret;
      if StackHolds(st.below, l) { BelowIsOlder(s.ev, st.top, st.below, ret, l); }
    }
  }

  // The lock that agents[i] wants is held by agents[i + 1].
  ghost predicate Chain(s: State, agents: seq<int>) {
    forall i :: 0 <= i < |agents| - 1 ==>
      Wants(s, agents[i]).Some? && Wants(s, agents[i]).value in s.mx && s.mx[Wants(s, agents[i]).value] == agents[i + 1]
  }

  lemma {:induction false} ChainClimbs(s: State, agents: seq<int>)
    requires Core(s) && Chain(s, agents) && |agents| >= 2 && Wants(s, agents[|agents| - 1]).Some?
    ensures Before(Wants(s, agents[0]).value, Wants(s, agents[|agents| - 1]).value)
    decreases |agents|
  {
    var n := |agents|;
    WantsAbove(s, agents[n - 1], Wants(s, agents[n - 2]).value);
    if n > 2 {
      var init := agents[..n - 1];
      assert Chain(s, init) && init[|init| - 1] == agents[n - 2];
      ChainClimbs(s, init);
    }
  }

  /** No circle of agents, each wanting a lock the next one holds. */
  lemma NoCircle(s: State, agents: seq<int>)
    requires Core(s) && |agents| >= 2 && agents[0] == agents[|agents| - 1]
    ensures !Chain(s, agents)
  {
    if Chain(s, agents) { ChainClimbs(s, agents); }
  }

  ghost function Above(s: State, l: Lock): set<Lock> {
    set m | m in s.mx.Keys && Before(l, m)
  }

  lemma {:induction false} ClimbToRunner(s: State, l: Lock) returns (a: int, m: Lock)
    requires Core(s) && l in s.mx
    ensures m in s.mx && s.mx[m] == a && !Blocked(s, a)
    decreases |Above(s, l)|
  {
    a, m := s.mx[l], l;
    if Blocked(s, a) {
      var up := Wants(s, a).value;
      WantsAbove(s, a, l);
      assert up in Above(s, l) && up !in Above(s, up);
      assert Above(s, up) <= Above(s, l) - {up};
      SmallerSet(Above(s, up), Above(s, l), up);
      a, m := ClimbToRunner(s, up);
    }
  }

  lemma SmallerSet(x: set<Lock>, y: set<Lock>, up: Lock)
    requires up in y && x <= y - {up}
    ensures |x| < |y|
  {
    assert y - {up} == x + (y - {up} - x);
  }

  // What an agent that holds a lock and is not blocked does next.
  lemma RunnerSteps(s: State, a: int, m: Lock) returns (st: Step)
    requires Core(s) && m in s.mx && s.mx[m] == a && !Blocked(s, a)
    ensures Can(s, st) && (st.Fiber? || st.Thread? || st.Signaller?) && st.a == a
  {
    assert Holds(At(s, a), WorkOf(s, a), m);
    assert GoodPc(s, a);
    match At(s, a)
    case WEnlist(_, _) => st := Fiber(a, Enlist);
    case WLoop(_, _) => st := Fiber(a, TestPred);
    case WWork(_, _) => st := Fiber(a, TakeWork);
    case WBoth(_, _) => st := Fiber(a, DropMutex);
    case WPark(_, _) => st := Fiber(a, Park);
    case WDelist(_, _) => st := Fiber(a, Delist);
    case TCheck(_, _) => st := Thread(a, ThreadTest(false));
    case TCommit(_, _) => st := Thread(a, ThreadSleep);
    case Sig(_, _) => st := SignallerSteps(s, a);
  }

  lemma SignallerSteps(s: State, a: int) returns (st: Step)
    requires Core(s) && At(s, a).Sig? && !Blocked(s, a)
    ensures Can(s, st) && st.Signaller? && st.a == a
  {
    assert GoodPc(s, a);
    var f := At(s, a).stack.top;
    match f.ph
    case SLock => st := Signaller(a, SigLock);
    case SCv => st := Signaller(a, SigCv);
    case SNotify(_) => st := Signaller(a, SigNotify);
    case SCond =>
      var lucky := if exists b :: AsleepOn(s, b, f.e) then var b :| AsleepOn(s, b, f.e); b else a;
      st := Signaller(a, SigCond(lucky));
    case SDeps(_) => st := Signaller(a, SigDeps);
    case ALock(_) => st := Signaller(a, AnyLock);
    case APush(_) => st := Signaller(a, AnyPush);
  }

  /** Whenever some lock is held, the holder of some lock can take a step. */
  lemma NeverStuck(s: State)
    requires Core(s) && s.mx != map[]
    ensures exists st: Step :: Can(s, st) && (st.Fiber? || st.Thread? || st.Signaller?) && st.a in s.mx.Values
  {
    assert s.mx.Keys != {};
    var l :| l in s.mx.Keys;
    var a, m := ClimbToRunner(s, l);
    var st := RunnerSteps(s, a, m);
    assert s.mx[m] in s.mx.Values;
  }

  lemma InitCore(s: State)
    requires Init(s)
    ensures Core(s)
  {
    assert forall a :: At(s, a) == Out;
  }

  lemma {:induction false} RunCore(ss: seq<State>, steps: seq<Step>, k: nat)
    requires Run(ss, steps) && k < |ss|
    ensures Core(ss[k])
  {
    hide Core, Can, Do, Init;
    if k == 0 {
      InitCore(ss[0]);
    } else {
      RunCore(ss, steps, k - 1);
      assert Can(ss[k - 1], steps[k - 1]) && Do(ss[k - 1], steps[k - 1]) == ss[k];
      StepCore(ss[k - 1], steps[k - 1]);
    }
  }

  /** Deadlock freedom over whole runs. */
  lemma RunsNeverDeadlock(ss: seq<State>, steps: seq<Step>, k: nat, agents: seq<int>)
    requires Run(ss, steps) && k < |ss|
    ensures |agents| >= 2 && agents[0] == agents[|agents| - 1] ==> !Chain(ss[k], agents)
    ensures ss[k].mx != map[] ==>
              exists st: Step :: Can(ss[k], st) && (st.Fiber? || st.Thread? || st.Signaller?) && st.a in ss[k].mx.Values
  {
    hide Core, Can, Do, Init, Chain;
    RunCore(ss, steps, k);
    if |agents| >= 2 && agents[0] == agents[|agents| - 1] { NoCircle(ss[k], agents); }
    if ss[k].mx != map[] { NeverStuck(ss[k]); }
  }

  /** No lock ever has two holders. */
  lemma MutualExclusion(ss: seq<State>, steps: seq<Step>, k: nat, a: int, b: int, l: Lock)
    requires Run(ss, steps) && k < |ss|
    requires Holds(At(ss[k], a), WorkOf(ss[k], a), l) && Holds(At(ss[k], b), WorkOf(ss[k], b), l)
    ensures a == b
  {
    hide Can, Do, Init, Shape;
    RunCore(ss, steps, k);
    var s := ss[k];
    assert Holds(At(s, a), WorkOf(s, a), l) ==> s.mx[l] == a;
    assert Holds(At(s, b), WorkOf(s, b), l) ==> s.mx[l] == b;
  }
}
