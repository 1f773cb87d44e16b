/** Events and wait groups with their condition variables, under any interleaving of fibers and plain threads
    (include/hfts/event.hpp, waitgroup.hpp, conditionvariable.hpp, and Worker::wait in src/worker.cpp).
    A step ends where a lock is taken or given up. A fiber's worker is reduced to its mutex and to whether the
    fiber is parked or queued; the worker model of module Workers says how it gets from one to the other. */
module Events {

  const U32: int := 0x1_0000_0000

  // Group is a WaitGroup; the others are the modes of an Event.
  datatype Kind = Auto | Manual | Group

  // Primitives are numbered in the order of their creation.
  datatype Prim = Prim(
    kind: Kind,
    signalled: bool,
    count: int,           // of a Group
    deps: seq<int>,
    waiting: seq<int>,    // the list of the condition variable, front first
    waitingNum: int,
    condNum: int,         // waitingOnConditionNum
    direct: bool,         // history: signalled initially or by a call of signal()
    origin: int,          // history: the direct signal that signalled it last
    sources: seq<int>)    // history: the events any() made it from

  datatype Lock = Ev(e: int) | Cv(e: int) | Wk(w: int)

  // What a thread inside signal() does at one event, or inside any() at one source.
  datatype Phase =
    | SLock                // wants the event's mutex
    | SCv                  // in notify, wants the condition variable's mutex
    | SNotify(k: int)      // holds both, about to notify the k-th waiter
    | SCond                // about to notify plain threads
    | SDeps(i: int)        // about to signal the i-th dependent
    | ALock(new_: int)     // any() wants the source's mutex
    | APush(new_: int)     // any() holds it and is about to add the dependent

  datatype Frame = Frame(e: int, ph: Phase)

  datatype Stack = Nil | Push(top: Frame, below: Stack)

  datatype Return = ToOut | ToAny(made: int, rest: seq<int>)

  datatype Pc =
    | Out
    | WLock(e: int, timed: bool)                 // wait: wants the mutex
    | WEnlist(e: int, timed: bool)               // predicate false, wants the list's mutex
    | WLoop(e: int, timed: bool)                 // Worker::wait: about to test the predicate
    | WWork(e: int, timed: bool)                 // wants the work mutex
    | WBoth(e: int, timed: bool)                 // holds mutex and work mutex
    | WPark(e: int, timed: bool)                 // holds the work mutex only
    | WParked(e: int, timed: bool, queued: bool) // switched away
    | WRelock(e: int, timed: bool)               // running again, wants the mutex
    | WDelist(e: int, ok: bool)                  // leaving, wants the list's mutex
    | TCheck(e: int, timed: bool)                // plain thread: about to test the predicate
    | TCommit(e: int, timed: bool)               // about to sleep on the condition
    | TSleep(e: int, timed: bool, asleep: bool)
    | Sig(stack: Stack, ret: Return)
    | AnyNext(made: int, rest: seq<int>)

  // An agent is a fiber, if it has a worker, or a plain thread.
  datatype State = State(
    ev: seq<Prim>,
    mx: map<Lock, int>,      // held locks and their owners
    pc: map<int, Pc>,
    worker: map<int, int>,
    monotone: bool,          // discipline of the program: manual events only, never cleared
    retests: bool)           // repaired: a fiber's timed wait tests the predicate again when its deadline has passed

  predicate Pred(p: Prim) {
    if p.kind.Group? then p.count == 0 else p.signalled
  }

  function Consume(p: Prim): Prim {
    if p.kind.Auto? then p.(signalled := false) else p
  }

  predicate Known(s: State, e: int) {
    0 <= e < |s.ev|
  }

  // ---------------------------------------------------------------------------------------------
  // Steps
  // ---------------------------------------------------------------------------------------------

  // A fiber in wait()
  datatype FiberStep =
    | WaitLock | Enlist | TestPred | TakeWork | DropMutex | Park | Queue | Resume | Relock(expired: bool) | Delist

  // A plain thread in wait()
  datatype ThreadStep = ThreadTest(expired: bool) | ThreadSleep | Wake | ThreadRelock

  // Inside signal(), done() or any()
  datatype SigStep = SigLock | SigCv | SigNotify | SigCond(lucky: int) | SigDeps | AnyStep | AnyLock | AnyPush

  // Entering an operation, and the operations that are a single critical section
  datatype UserStep =
    | StartWait(e: int, timed: bool)
    | StartSignal(e: int)
    | StartDone(e: int)
    | AddCount(e: int, n: int)
    | ClearEvent(e: int)
    | TestEvent(e: int)
    | StartAny(kind: Kind, sources: seq<int>)

  datatype Step =
    | Fiber(a: int, fiber: FiberStep)
    | Thread(a: int, thread: ThreadStep)
    | Signaller(a: int, sig: SigStep)
    | User(a: int, user: UserStep)
    | NewPrim(p: Prim)

  function At(s: State, a: int): Pc {
    if a in s.pc then s.pc[a] else Out
  }

  function Go(s: State, a: int, p: Pc): State {
    s.(pc := s.pc[a := p])
  }

  function SetEv(s: State, e: int, p: Prim): State
    requires Known(s, e)
  {
    s.(ev := s.ev[e := p])
  }

  function Acquire(s: State, l: Lock, a: int): State {
    s.(mx := s.mx[l := a])
  }

  function Release(s: State, l: Lock): State {
    s.(mx := s.mx - {l})
  }

  predicate Free(s: State, l: Lock) {
    l !in s.mx
  }

  function WorkOf(s: State, a: int): Lock {
    Wk(if a in s.worker then s.worker[a] else -1)
  }

  function RemoveFirst(q: seq<int>, a: int): (r: seq<int>)
    ensures forall x :: x in r ==> x in q
    ensures forall x :: x in q && x != a ==> x in r
    ensures |r| <= |q|
  {
    if q == [] then [] else if q[0] == a then q[1..] else [q[0]] + RemoveFirst(q[1..], a)
  }

  // One more waiter, on a fiber or on a plain thread
  function Joined(p: Prim, onFiber: bool): Prim {
    p.(waitingNum := p.waitingNum + 1, condNum := p.condNum + (if onFiber then 0 else 1))
  }

  // wait() up to the first test of the predicate
  function DoWaitLock(s: State, a: int, e: int, timed: bool): State
    requires Known(s, e)
  {
    var p := s.ev[e];
    if Pred(p) then Go(SetEv(s, e, Consume(p)), a, Out)
    else
      Go(Acquire(SetEv(s, e, Joined(p, a in s.worker)), Ev(e), a), a,
         if a in s.worker then WEnlist(e, timed) else TCheck(e, timed))
  }

  function DoEnlist(s: State, a: int, e: int, timed: bool): State
    requires Known(s, e)
  {
    Go(SetEv(s, e, s.ev[e].(waiting := [a] + s.ev[e].waiting)), a, WLoop(e, timed))
  }

  function DoTestPred(s: State, a: int, e: int, timed: bool): State
    requires Known(s, e)
  {
    Go(s, a, if Pred(s.ev[e]) then WDelist(e, true) else WWork(e, timed))
  }

  // Worker::wait with the mutex again: at its deadline it is over, without another test of the predicate.
  function DoRelock(s: State, a: int, e: int, timed: bool, expired: bool): State
    requires Known(s, e)
  {
    Go(Acquire(s, Ev(e), a), a,
       if expired then WDelist(e, s.retests && Pred(s.ev[e])) else WLoop(e, timed))
  }

  // A fiber leaves the list and the wait; if the predicate held, an Auto event is reset.
  function DoDelist(s: State, a: int, e: int, ok: bool): State
    requires Known(s, e)
  {
    var p := s.ev[e].(waiting := RemoveFirst(s.ev[e].waiting, a), waitingNum := s.ev[e].waitingNum - 1);
    Go(Release(SetEv(s, e, if ok then Consume(p) else p), Ev(e)), a, Out)
  }

  function DoThreadTest(s: State, a: int, e: int, timed: bool, expired: bool): State
    requires Known(s, e)
  {
    var p := s.ev[e];
    var q := p.(waitingNum := p.waitingNum - 1, condNum := p.condNum - 1);
    if Pred(p) then Go(Release(SetEv(s, e, Consume(q)), Ev(e)), a, Out)
    else if expired then Go(Release(SetEv(s, e, q), Ev(e)), a, Out)
    else Go(s, a, TCommit(e, timed))
  }

  // Worker::enqueue(Fiber*): only a parked fiber is queued.
  function Enqueued(s: State, t: int): State {
    match At(s, t)
    case WParked(e, timed, _) => Go(s, t, WParked(e, timed, true))
    case _ => s
  }

  function Awoken(p: Pc): Pc {
    if p.TSleep? then TSleep(p.e, p.timed, false) else p
  }

  function AllAwoken(s: State, e: int): State {
    s.(pc := map a | a in s.pc :: if s.pc[a].TSleep? && s.pc[a].e == e then Awoken(s.pc[a]) else s.pc[a])
  }

  function Popped(st: Stack, ret: Return): Pc {
    if st.Push? then Sig(st, ret)
    else match ret
      case ToOut => Out
      case ToAny(made, rest) => AnyNext(made, rest)
  }

  function BelowEvent(st: Stack, e: int): int {
    if st.Push? then st.top.e else e
  }

  // signal(): with the mutex free, do nothing if already signalled; else signal and go on to notify.
  function DoSigLock(s: State, a: int, f: Frame, below: Stack, ret: Return): State
    requires Known(s, f.e)
  {
    var p := s.ev[f.e];
    if !p.kind.Group? && p.signalled then Go(s, a, Popped(below, ret))
    else
      var next := if p.waitingNum == 0 then SDeps(0) else SCv;
      var q := if p.kind.Group? then p
               else
                 var from := BelowEvent(below, f.e);
                 p.(signalled := true, direct := p.direct || below.Nil?,
                    origin := if Known(s, from) && from != f.e then s.ev[from].origin else f.e);
      Go(Acquire(SetEv(s, f.e, q), Ev(f.e), a), a, Sig(Push(Frame(f.e, next), below), ret))
  }

  predicate HasTarget(p: Prim, k: int) {
    if p.kind.Auto? then p.waiting != [] else 0 <= k < |p.waiting|
  }

  function Target(p: Prim, k: int): int
    requires HasTarget(p, k)
  {
    if p.kind.Auto? then p.waiting[0] else p.waiting[k]
  }

  function DoSigNotify(s: State, a: int, e: int, k: int, below: Stack, ret: Return): State
    requires Known(s, e)
  {
    var p := s.ev[e];
    if !HasTarget(p, k) then Go(Release(s, Cv(e)), a, Sig(Push(Frame(e, SCond), below), ret))
    else if p.kind.Auto? then
      Go(Release(Enqueued(s, Target(p, k)), Cv(e)), a, Sig(Push(Frame(e, SDeps(0)), below), ret))
    else Go(Enqueued(s, Target(p, k)), a, Sig(Push(Frame(e, SNotify(k + 1)), below), ret))
  }

  // condition.notify_one() wakes the lucky one, condition.notify_all() everybody.
  function Roused(s: State, e: int, lucky: int): State
    requires Known(s, e)
  {
    if s.ev[e].condNum <= 0 then s
    else if s.ev[e].kind.Auto? then (if lucky in s.pc then Go(s, lucky, Awoken(s.pc[lucky])) else s)
    else AllAwoken(s, e)
  }

  function DoSigCond(s: State, a: int, e: int, lucky: int, below: Stack, ret: Return): State
    requires Known(s, e)
  {
    Go(Roused(s, e, lucky), a, Sig(Push(Frame(e, SDeps(0)), below), ret))
  }

  function DoSigDeps(s: State, a: int, e: int, i: int, below: Stack, ret: Return): State
    requires Known(s, e) && 0 <= i
  {
    var d := s.ev[e].deps;
    if i < |d| then Go(s, a, Sig(Push(Frame(d[i], SLock), Push(Frame(e, SDeps(i + 1)), below)), ret))
    else Go(Release(s, Ev(e)), a, Popped(below, ret))
  }

  function DoAnyLock(s: State, a: int, e: int, made: int, below: Stack, ret: Return): State
    requires Known(s, e)
  {
    var st := Push(Frame(e, APush(made)), below);
    Go(Acquire(s, Ev(e), a), a, Sig(if s.ev[e].signalled then Push(Frame(made, SLock), st) else st, ret))
  }

  function DoAnyPush(s: State, a: int, e: int, made: int, below: Stack, ret: Return): State
    requires Known(s, e)
  {
    Go(Release(SetEv(s, e, s.ev[e].(deps := s.ev[e].deps + [made])), Ev(e)), a, Popped(below, ret))
  }

  predicate AsleepOn(s: State, a: int, e: int) {
    At(s, a).TSleep? && At(s, a).e == e && At(s, a).asleep
  }

  predicate NewOk(s: State, p: Prim, at: int) {
    && p.deps == [] && p.waiting == [] && p.waitingNum == 0 && p.condNum == 0
    && 0 <= p.count < U32 && p.origin == at && p.sources == [] && p.direct == p.signalled
    && (p.kind.Group? ==> !p.signalled)
    && (s.monotone ==> !p.kind.Auto?)
  }

  predicate CanFiber(s: State, a: int, st: FiberStep) {
    var p := At(s, a);
    match st
    case WaitLock => p.WLock? && Known(s, p.e) && Free(s, Ev(p.e))
    case Enlist => p.WEnlist? && Known(s, p.e) && Free(s, Cv(p.e))
    case TestPred => p.WLoop? && Known(s, p.e)
    case TakeWork => p.WWork? && Free(s, WorkOf(s, a))
    case DropMutex => p.WBoth?
    case Park => p.WPark?
    case Queue => p.WParked? && Free(s, WorkOf(s, a))
    case Resume => p.WParked? && p.queued && Free(s, WorkOf(s, a))
    case Relock(expired) => p.WRelock? && Known(s, p.e) && Free(s, Ev(p.e)) && (expired ==> p.timed)
    case Delist => p.WDelist? && Known(s, p.e) && Free(s, Cv(p.e))
  }

  function DoFiber(s: State, a: int, st: FiberStep): State
    requires CanFiber(s, a, st)
  {
    var p := At(s, a);
    match st
    case WaitLock => DoWaitLock(s, a, p.e, p.timed)
    case Enlist => DoEnlist(s, a, p.e, p.timed)
    case TestPred => DoTestPred(s, a, p.e, p.timed)
    case TakeWork => Go(Acquire(s, WorkOf(s, a), a), a, WBoth(p.e, p.timed))
    case DropMutex => Go(Release(s, Ev(p.e)), a, WPark(p.e, p.timed))
    case Park => Go(Release(s, WorkOf(s, a)), a, WParked(p.e, p.timed, false))
    case Queue => Go(s, a, WParked(p.e, p.timed, true))
    case Resume => Go(s, a, WRelock(p.e, p.timed))
    case Relock(expired) => DoRelock(s, a, p.e, p.timed, expired)
    case Delist => DoDelist(s, a, p.e, p.ok)
  }

  predicate CanThread(s: State, a: int, st: ThreadStep) {
    var p := At(s, a);
    match st
    case ThreadTest(expired) => p.TCheck? && Known(s, p.e) && (expired ==> p.timed)
    case ThreadSleep => p.TCommit?
    case Wake => p.TSleep?
    case ThreadRelock => p.TSleep? && !p.asleep && Free(s, Ev(p.e))
  }

  function DoThread(s: State, a: int, st: ThreadStep): State
    requires CanThread(s, a, st)
  {
    var p := At(s, a);
    match st
    case ThreadTest(expired) => DoThreadTest(s, a, p.e, p.timed, expired)
    case ThreadSleep => Go(Release(s, Ev(p.e)), a, TSleep(p.e, p.timed, true))
    case Wake => Go(s, a, TSleep(p.e, p.timed, false))
    case ThreadRelock => Go(Acquire(s, Ev(p.e), a), a, TCheck(p.e, p.timed))
  }

  predicate InFrame(s: State, a: int) {
    At(s, a).Sig? && At(s, a).stack.Push? && Known(s, At(s, a).stack.top.e)
  }

  ghost predicate CanSig(s: State, a: int, st: SigStep) {
    var p := At(s, a);
    if st.AnyStep? then p.AnyNext?
    else
      && InFrame(s, a)
      && var f := p.stack.top;
         match st
         case SigLock => f.ph == SLock && Free(s, Ev(f.e))
         case SigCv => f.ph == SCv && Free(s, Cv(f.e))
         case SigNotify =>
           f.ph.SNotify? && (HasTarget(s.ev[f.e], f.ph.k) ==> Free(s, WorkOf(s, Target(s.ev[f.e], f.ph.k))))
         case SigCond(lucky) => f.ph == SCond && ((exists b :: AsleepOn(s, b, f.e)) ==> AsleepOn(s, lucky, f.e))
         case SigDeps => f.ph.SDeps? && f.ph.i >= 0
         case AnyLock => f.ph.ALock? && Free(s, Ev(f.e))
         case AnyPush => f.ph.APush?
         case AnyStep => true
  }

  function DoAnyStep(s: State, a: int, made: int, rest: seq<int>): State {
    Go(s, a, if rest == [] then Out else Sig(Push(Frame(rest[0], ALock(made)), Nil), ToAny(made, rest[1..])))
  }

  function DoSigCv(s: State, a: int, e: int, below: Stack, ret: Return): State {
    Go(Acquire(s, Cv(e), a), a, Sig(Push(Frame(e, SNotify(0)), below), ret))
  }

  function DoSig(s: State, a: int, st: SigStep): State
    requires CanSig(s, a, st)
  {
    var p := At(s, a);
    if st.AnyStep? then DoAnyStep(s, a, p.made, p.rest)
    else
      var f, below, ret := p.stack.top, p.stack.below, p.ret;
      match st
      case SigLock => DoSigLock(s, a, f, below, ret)
      case SigCv => DoSigCv(s, a, f.e, below, ret)
      case SigNotify => DoSigNotify(s, a, f.e, f.ph.k, below, ret)
      case SigCond(lucky) => DoSigCond(s, a, f.e, lucky, below, ret)
      case SigDeps => DoSigDeps(s, a, f.e, f.ph.i, below, ret)
      case AnyLock => DoAnyLock(s, a, f.e, f.ph.new_, below, ret)
      case AnyPush => DoAnyPush(s, a, f.e, f.ph.new_, below, ret)
      case AnyStep => s
  }

  ghost predicate CanUser(s: State, a: int, st: UserStep) {
    && a in s.pc && s.pc[a].Out?
    && match st
       case StartWait(e, timed) => Known(s, e)
       case StartSignal(e) => Known(s, e) && !s.ev[e].kind.Group?
       case StartDone(e) => Known(s, e) && s.ev[e].kind.Group?
       case AddCount(e, n) => Known(s, e) && s.ev[e].kind.Group? && 0 <= n < U32
       case ClearEvent(e) => Known(s, e) && !s.ev[e].kind.Group? && Free(s, Ev(e)) && !s.monotone
       case TestEvent(e) => Known(s, e) && !s.ev[e].kind.Group? && Free(s, Ev(e))
       case StartAny(kind, sources) =>
         && !kind.Group? && (s.monotone ==> !kind.Auto?)
         && forall e :: e in sources ==> Known(s, e) && !s.ev[e].kind.Group?
  }

  // done(): the count drops outside the mutex; only the call that reaches zero goes on to notify.
  function DoDone(s: State, a: int, e: int): State
    requires Known(s, e)
  {
    var c := (s.ev[e].count - 1) % U32;
    var u := SetEv(s, e, s.ev[e].(count := c));
    if c == 0 then Go(u, a, Sig(Push(Frame(e, SLock), Nil), ToOut)) else u
  }

  function DoStartAny(s: State, a: int, kind: Kind, sources: seq<int>): State {
    Go(s.(ev := s.ev + [Prim(kind, false, 0, [], [], 0, 0, false, |s.ev|, sources)]), a, AnyNext(|s.ev|, sources))
  }

  function DoUser(s: State, a: int, st: UserStep): State
    requires CanUser(s, a, st)
  {
    match st
    case StartWait(e, timed) => Go(s, a, WLock(e, timed))
    case StartSignal(e) => Go(s, a, Sig(Push(Frame(e, SLock), Nil), ToOut))
    case StartDone(e) => DoDone(s, a, e)
    case AddCount(e, n) => SetEv(s, e, s.ev[e].(count := (s.ev[e].count + n) % U32))
    case ClearEvent(e) => SetEv(s, e, s.ev[e].(signalled := false))
    case TestEvent(e) => SetEv(s, e, Consume(s.ev[e]))
    case StartAny(kind, sources) => DoStartAny(s, a, kind, sources)
  }

  ghost predicate Can(s: State, st: Step) {
    match st
    case Fiber(a, f) => CanFiber(s, a, f)
    case Thread(a, t) => CanThread(s, a, t)
    case Signaller(a, g) => CanSig(s, a, g)
    case User(a, o) => CanUser(s, a, o)
    case NewPrim(p) => NewOk(s, p, |s.ev|)
  }

  ghost function Do(s: State, st: Step): State
    requires Can(s, st)
  {
    match st
    case Fiber(a, f) => DoFiber(s, a, f)
    case Thread(a, t) => DoThread(s, a, t)
    case Signaller(a, g) => DoSig(s, a, g)
    case User(a, o) => DoUser(s, a, o)
    case NewPrim(p) => s.(ev := s.ev + [p])
  }

  ghost predicate Init(s: State) {
    s.ev == [] && s.mx == map[] && forall a :: a in s.pc ==> s.pc[a] == Out
  }

  ghost predicate Run(ss: seq<State>, steps: seq<Step>) {
    && |ss| == |steps| + 1 && Init(ss[0])
    && forall k :: 0 <= k < |steps| ==> Can(ss[k], steps[k]) && Do(ss[k], steps[k]) == ss[k + 1]
  }
}
