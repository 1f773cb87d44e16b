/** All workers of a scheduler together: submission with spinning hints, stealing, and the destructor
    (src/scheduler.cpp). A run is any interleaving of the workers' steps with these. */
module Systems {
  import opened Wrappers
  import opened Collections
  import opened Workers
  import opened WorkerTasks

  // Where a submitted task is. InFlight: its submitter is still looking for a worker to lock.
  datatype Place = InFlight | InQueue(at: int) | Stolen(at: int) | OnFiber(at: int, fiber: int) | Completed

  // The destructor stops workers count-1 down to 0; it has stopped those from `left` on.
  datatype Phase = Serving | Stopping(left: int, asked: bool) | Destroyed

  // What a submitter has read in this round of its loop: the slot to look at; nothing there, so that the next worker
  // is due; or the worker to try.
  datatype Aim = AtSlot(i: int) | InTurn | Target(at: int)

  // What guides submission. Each access to a slot or a counter is atomic, and others come in between.
  datatype Hints = Hints(
    slots: seq<int>,           // spinningWorkers
    spinIdx: int,              // nextSpinningWorkerIdx
    enqIdx: int,               // nextEnqueueIndex
    aim: map<Task, Aim>,       // local to the submitters
    posts: map<int, int>)      // local to the workers: the slot to write

  datatype System = System(
    ws: seq<Worker>,           // workers 0..count-1 have threads of their own; the others are bound threads
    count: int,
    hints: Hints,
    flight: set<Task>,
    done: set<Task>,
    dropped: set<Task>,
    phase: Phase,
    place: map<Task, Place>,   // history
    home: map<Task, int>)      // history: the queue a SameThread task was put in

  const U32: int := 0x1_0000_0000

  ghost predicate Init(s: System) {
    && 0 <= s.count <= 256 && |s.ws| == s.count
    && (forall i :: 0 <= i < s.count ==> s.ws[i] == Start(MultiThreaded))
    && s.hints == Hints(seq(s.count, _ => -1), 0x800_0000, 0, map[], map[])
    && s.flight == {} && s.done == {} && s.dropped == {} && s.phase == Serving
    && s.place == map[] && s.home == map[]
  }

  datatype Event =
    | Own(i: int, st: Step)
    | Submit(t: Task, bound: Option<int>)
    | Hint(h: HintStep)
    | TryPlace(t: Task, locks: bool)
    | Steal(thief: int, from: int)
    | Notify(i: int, f: int)
    | DeliverTo(i: int)
    | Bind
    | BeginDestroy
    | AskStop(t: Task)
    | Join
    | EndDestroy

  // One atomic operation of onBeginSpinning() or of a round of enqueue()
  datatype HintStep =
    | Post(i: int)             // spinningWorkers[idx] = workerId
    | AimSlot(t: Task)         // --nextSpinningWorkerIdx
    | TakeHint(t: Task)        // spinningWorkers[i].exchange(-1)
    | TakeTurn(t: Task)        // nextEnqueueIndex++

  predicate CanHint(h: Hints, count: int, flight: set<Task>, st: HintStep) {
    match st
    case Post(i) => i in h.posts && 0 <= h.posts[i] < |h.slots|
    case AimSlot(t) => t in flight && t !in h.aim && count > 0
    case TakeHint(t) => t in h.aim && h.aim[t].AtSlot? && 0 <= h.aim[t].i < |h.slots|
    case TakeTurn(t) => t in h.aim && h.aim[t].InTurn? && count > 0
  }

  function DoHint(h: Hints, count: int, st: HintStep): Hints
    requires CanHint(h, count, if st.AimSlot? then {st.t} else {}, st)
  {
    match st
    case Post(i) => h.(slots := h.slots[h.posts[i] := i], posts := h.posts - {i})
    case AimSlot(t) =>
      var spin := (h.spinIdx - 1) % U32;
      h.(spinIdx := spin, aim := h.aim[t := AtSlot(spin % count)])
    case TakeHint(t) =>
      var i := h.aim[t].i;
      h.(slots := h.slots[i := -1], aim := h.aim[t := if h.slots[i] < 0 then InTurn else Target(h.slots[i])])
    case TakeTurn(t) => h.(enqIdx := (h.enqIdx + 1) % U32, aim := h.aim[t := Target(h.enqIdx % count)])
  }

  // A worker about to spin takes the number of the slot to write.
  function Entered(h: Hints, count: int, i: int): Hints
    requires count > 0
  {
    h.(spinIdx := (h.spinIdx + 1) % U32, posts := h.posts[i := h.spinIdx % count])
  }

  function Put(s: System, i: int, w: Worker): System
    requires 0 <= i < |s.ws|
  {
    s.(ws := s.ws[i := w])
  }

  // A worker's own step, with what it does to its task and, on entering the spin, onBeginSpinning().
  function DoOwn(s: System, i: int, st: Step): System
    requires 0 <= i < |s.ws| && Enabled(s.ws[i], st)
    requires st.EnterWait? && s.ws[i].mode.MultiThreaded? ==> s.count > 0
  {
    var w := s.ws[i];
    var u := Put(s, i, Apply(w, st));
    match st
    case RunTask => u.(place := s.place[w.tasks[0] := OnFiber(i, w.fs.current)])
    case FinishTask => u.(place := s.place[w.pc.carry.value := Completed], done := s.done + {w.pc.carry.value})
    case KeepStolen => u.(place := s.place[w.pc.stolen := InQueue(i)])
    case EnterWait =>
      if w.num <= 0 && w.mode.MultiThreaded?
      then u.(hints := Entered(s.hints, s.count, i))
      else u
    case _ => u
  }

  // Scheduler::enqueue() up to the loop. Without a bound worker a SameThread task is dropped, and so is
  // every task if there are no worker threads.
  predicate StaysWithSubmitter(s: System, t: Task) {
    t.sameThread || s.count == 0
  }

  function DoSubmit(s: System, t: Task, bound: Option<int>): System
    requires bound.Some? ==> 0 <= bound.value < |s.ws|
  {
    if !StaysWithSubmitter(s, t) then s.(flight := s.flight + {t}, place := s.place[t := InFlight])
    else if bound.None? then s.(dropped := s.dropped + {t})
    else
      var b := bound.value;
      Put(s, b, PushTask(s.ws[b], t)).(place := s.place[t := InQueue(b)], home := s.home[t := b])
  }

  // The worker that the submitter of t is to try.
  predicate Aims(s: System, t: Task, i: int) {
    t in s.hints.aim && s.hints.aim[t] == Target(i)
  }

  // The end of a round of the loop: the task is put on the worker if its mutex could be locked.
  function DoTryPlace(s: System, t: Task, locks: bool): System
    requires t in s.hints.aim && s.hints.aim[t].Target? && 0 <= s.hints.aim[t].at < |s.ws|
  {
    var u := s.(hints := s.hints.(aim := s.hints.aim - {t}));
    var i := s.hints.aim[t].at;
    if locks then Put(u, i, PushTask(s.ws[i], t)).(flight := s.flight - {t}, place := s.place[t := InQueue(i)])
    else u
  }

  // stealWork() when it succeeds
  function DoSteal(s: System, thief: int, from: int): System
    requires 0 <= thief < s.count <= |s.ws| && s.ws[thief].pc.Spin?
    requires Stealable(s.ws[from % s.count])
  {
    var v := from % s.count;
    var t := s.ws[v].tasks[0];
    s.(ws := s.ws[v := StealFront(s.ws[v])][thief := Grant(s.ws[thief], t)], place := s.place[t := Stolen(thief)])
  }

  function DoAskStop(s: System, t: Task): System
    requires s.phase.Stopping? && 0 < s.phase.left <= |s.ws|
  {
    var i := s.phase.left - 1;
    Put(s, i, PushTask(s.ws[i], t)).(place := s.place[t := InQueue(i)], home := s.home[t := i],
                                     phase := Stopping(s.phase.left, true))
  }

  predicate Fresh(s: System, t: Task) {
    t !in s.place && t !in s.dropped
  }

  ghost predicate Can(s: System, e: Event) {
    match e
    case Own(i, st) =>
      && 0 <= i < |s.ws| && Enabled(s.ws[i], st) && i !in s.hints.posts
      && (st.EnterWait? && s.ws[i].mode.MultiThreaded? ==> s.count > 0)
    case Submit(t, bound) =>
      && !s.phase.Destroyed? && Fresh(s, t) && t.action == Work
      && (bound.Some? ==> 0 <= bound.value < |s.ws| && s.ws[bound.value].pc.InTask?)
    case Hint(h) => CanHint(s.hints, s.count, s.flight, h)
    case TryPlace(t, locks) =>
      && t in s.flight && t in s.hints.aim && s.hints.aim[t].Target? && 0 <= s.hints.aim[t].at < |s.ws|
      && (locks ==> Unlocked(s.ws[s.hints.aim[t].at].pc))
    case Steal(thief, from) =>
      && 0 <= thief < s.count <= |s.ws| && s.ws[thief].pc.Spin?
      && from % s.count != thief && Stealable(s.ws[from % s.count])
    case Notify(i, f) =>
      && 0 <= i < |s.ws| && Unlocked(s.ws[i].pc) && f in s.ws[i].fs.tag && s.ws[i].fs.tag[f] != Idle
    case DeliverTo(i) => 0 <= i < |s.ws| && s.ws[i].pendingNotify > 0
    case Bind => s.phase.Serving?
    case BeginDestroy => s.phase.Serving? && forall i :: 0 <= i < |s.ws| && s.count <= i ==> s.ws[i].pc.Done?
    case AskStop(t) =>
      && s.phase.Stopping? && !s.phase.asked && 0 < s.phase.left <= |s.ws| && Unlocked(s.ws[s.phase.left - 1].pc)
      && Fresh(s, t) && t.action == SetShutdown && t.sameThread
    case Join => s.phase.Stopping? && s.phase.asked && 0 < s.phase.left <= |s.ws| && s.ws[s.phase.left - 1].pc.Done?
    case EndDestroy => s.phase.Stopping? && s.phase.left == 0 && s.flight == {}
  }

  function Do(s: System, e: Event): System
    requires Can(s, e)
  {
    match e
    case Own(i, st) => DoOwn(s, i, st)
    case Submit(t, bound) => DoSubmit(s, t, bound)
    case Hint(h) => s.(hints := DoHint(s.hints, s.count, h))
    case TryPlace(t, locks) => DoTryPlace(s, t, locks)
    case Steal(thief, from) => DoSteal(s, thief, from)
    case Notify(i, f) => Put(s, i, PushFiber(s.ws[i], f))
    case DeliverTo(i) => Put(s, i, Deliver(s.ws[i]))
    case Bind => s.(ws := s.ws + [Start(SingleThreaded)])
    case BeginDestroy => s.(phase := Stopping(s.count, false))
    case AskStop(t) => DoAskStop(s, t)
    case Join => s.(phase := Stopping(s.phase.left - 1, false))
    case EndDestroy => s.(phase := Destroyed)
  }

  ghost predicate Run(ss: seq<System>, es: seq<Event>) {
    && |ss| == |es| + 1 && Init(ss[0])
    && forall k :: 0 <= k < |es| ==> Can(ss[k], es[k]) && Do(ss[k], es[k]) == ss[k + 1]
  }

  // ---------------------------------------------------------------------------------------------
  // Invariant
  // ---------------------------------------------------------------------------------------------

  ghost predicate At(s: System, t: Task, p: Place) {
    match p
    case InFlight => t in s.flight
    case InQueue(i) => 0 <= i < |s.ws| && t in s.ws[i].tasks
    case Stolen(i) => 0 <= i < |s.ws| && InHand(s.ws[i]) == Some(t)
    case OnFiber(i, f) => 0 <= i < |s.ws| && Carried(s.ws[i], f) == Some(t)
    case Completed => t in s.done
  }

  /** Every submitted task is in exactly one place. */
  ghost predicate Placed(s: System) {
    forall t, p :: At(s, t, p) <==> t in s.place && s.place[t] == p
  }

  /** No task is in a queue twice. */
  ghost predicate NoDups(ws: seq<Worker>) {
    forall i :: 0 <= i < |ws| ==> NoDup(ws[i].tasks)
  }

  /** Whatever is in the slots and counters, and whatever anybody has read of them, is in range. */
  ghost predicate HintsOk(h: Hints, count: int) {
    && |h.slots| == count && 0 <= h.spinIdx < U32 && 0 <= h.enqIdx < U32
    && (forall i :: 0 <= i < count ==> -1 <= h.slots[i] < count)
    && (forall i :: i in h.posts ==> 0 <= i < count && 0 <= h.posts[i] < count)
    && (forall t :: t in h.aim ==> AimOk(h.aim[t], count))
  }

  predicate AimOk(a: Aim, count: int) {
    match a
    case AtSlot(i) => 0 <= i < count
    case InTurn => count > 0
    case Target(i) => 0 <= i < count
  }

  ghost predicate Ranges(s: System) {
    && 0 <= s.count <= |s.ws| && HintsOk(s.hints, s.count)
    && (forall i :: 0 <= i < |s.ws| ==> (s.ws[i].mode.MultiThreaded? <==> i < s.count))
    && (s.flight != {} ==> s.count > 0)
  }

  ghost predicate WorkersOk(ws: seq<Worker>) {
    forall i :: 0 <= i < |ws| ==> Inv(ws[i]) && InOrder(ws[i])
  }

  /** A SameThread task is only ever in the queue it was put in or on a fiber of that worker. */
  ghost predicate AtHome(s: System) {
    forall t :: t in s.place && t.sameThread ==>
      && t in s.home
      && match s.place[t]
         case InFlight => false
         case InQueue(i) => i == s.home[t]
         case Stolen(_) => false
         case OnFiber(i, _) => i == s.home[t]
         case Completed => true
  }

  ghost predicate Asked(ph: Phase, i: int) {
    match ph
    case Serving => false
    case Stopping(left, asked) => i >= left || (asked && i == left - 1)
    case Destroyed => true
  }

  ghost predicate Joined(ph: Phase, i: int) {
    match ph
    case Serving => false
    case Stopping(left, _) => i >= left
    case Destroyed => true
  }

  ghost predicate Phases(s: System) {
    && (s.phase.Stopping? ==> 0 <= s.phase.left <= s.count && (s.phase.asked ==> 0 < s.phase.left))
    && (s.phase.Destroyed? ==> s.flight == {})
    && (forall i :: 0 <= i < |s.ws| && Joined(s.phase, i) ==> s.ws[i].pc.Done?)
    && (forall i :: 0 <= i < |s.ws| && i < s.count && s.ws[i].shutdown ==> Asked(s.phase, i))
    && (forall t :: t in s.place && t.action == SetShutdown ==>
          t.sameThread && t in s.home && Asked(s.phase, s.home[t]))
  }

  ghost predicate Good(s: System) {
    Ranges(s) && WorkersOk(s.ws) && Placed(s) && NoDups(s.ws) && AtHome(s) && Phases(s)
  }
}
