/** A run in which a task is lost: during destruction it is submitted by another task and put on a worker that has
    left already. */
module SystemLosses {
  import opened Wrappers
  import opened Timeouts
  import opened Workers
  import opened Systems

  ghost predicate Reachable(s: System) {
    exists ss: seq<System>, es: seq<Event> :: Run(ss, es) && ss[|es|] == s
  }

  lemma Follow(s: System, e: Event, u: System)
    requires Reachable(s) && Can(s, e) && Do(s, e) == u
    ensures Reachable(u)
  {
    hide Can, Do, Init;
    var ss: seq<System>, es: seq<Event> :| Run(ss, es) && ss[|es|] == s;
    assert Run(ss + [u], es + [e]);
  }

  // A worker whose main fiber is its only one
  function Plain(pc: Pc, tasks: seq<Task>, shutdown: bool, log: seq<Task>): Worker {
    Worker(MultiThreaded, pc, Fibers([], EMPTY, {}, map[0 := Running], map[], 0, 0), tasks, |tasks|, 0,
           pc.Begin? || pc.Fresh?, shutdown,
           if log == [] then 0 else 1, pc.Done?, log)
  }

  // One step of it
  ghost predicate Takes(w: Worker, st: Step, v: Worker) {
    Enabled(w, st) && Apply(w, st) == v
  }

  lemma FindsTask(t: Task, log: seq<Task>)
    ensures Takes(Plain(Begin, [t], false, log), BeginRun, Plain(Fresh, [t], false, log))
    ensures Takes(Plain(Fresh, [t], false, log), EnterRun, Plain(LoopTop, [t], false, log))
    ensures Takes(Plain(LoopTop, [t], false, log), TestLoop, Plain(WaitTop(FromLoop), [t], false, log))
    ensures Takes(Plain(WaitTop(FromLoop), [t], false, log), EnterWait, Plain(IdleLoop, [t], false, log))
  {}

  lemma TakesTask(t: Task, log: seq<Task>)
    ensures Takes(Plain(IdleLoop, [t], false, log), RunTask, Plain(InTask(Some(t)), [], false, log))
  {
    assert [t][1..] == [];
  }

  lemma FinishesTask(t: Task, tasks: seq<Task>, log: seq<Task>)
    ensures Takes(Plain(InTask(Some(t)), tasks, false, log), FinishTask,
                  Plain(IdleLoop, tasks, t.action == SetShutdown, log))
  {}

  lemma FindsNothing(log: seq<Task>)
    ensures Takes(Plain(IdleLoop, [], true, log), EndIdle, Plain(LoopTop, [], true, log))
    ensures Takes(Plain(LoopTop, [], true, log), TestLoop, Plain(LoopExit, [], true, log))
    ensures Takes(Plain(LoopExit, [], true, log), LeaveRun, Plain(Done, [], true, log))
  {}

  lemma ByWorker(s: System, i: int, st: Step, v: Worker)
    requires Reachable(s) && 0 <= i < |s.ws| && Takes(s.ws[i], st, v)
    requires !st.RunTask? && !st.FinishTask? && !st.KeepStolen?
    requires i !in s.hints.posts && (st.EnterWait? ==> s.count > 0 && s.ws[i].num > 0)
    ensures Reachable(Put(s, i, v))
  {
    hide Reachable, Apply, Enabled;
    Follow(s, Own(i, st), Put(s, i, v));
  }

  lemma ByRunning(s: System, i: int, t: Task, v: Worker)
    requires Reachable(s) && i !in s.hints.posts
    requires 0 <= i < |s.ws| && Takes(s.ws[i], RunTask, v) && s.ws[i].tasks == [t]
    ensures Reachable(Put(s, i, v).(place := s.place[t := OnFiber(i, s.ws[i].fs.current)]))
  {
    hide Reachable, Apply;
    Follow(s, Own(i, RunTask), Put(s, i, v).(place := s.place[t := OnFiber(i, s.ws[i].fs.current)]));
  }

  lemma ByFinishing(s: System, i: int, t: Task, v: Worker)
    requires Reachable(s) && i !in s.hints.posts
    requires 0 <= i < |s.ws| && Takes(s.ws[i], FinishTask, v) && s.ws[i].pc == InTask(Some(t))
    ensures Reachable(Put(s, i, v).(place := s.place[t := Completed], done := s.done + {t}))
  {
    hide Reachable, Apply;
    Follow(s, Own(i, FinishTask), Put(s, i, v).(place := s.place[t := Completed], done := s.done + {t}));
  }

  // It runs the task it found in its queue.
  lemma StartsTask(s: System, i: int, t: Task)
    requires Reachable(s) && 0 <= i < |s.ws| && s.count > 0 && i !in s.hints.posts
             && s.ws[i] == Plain(Begin, [t], false, [t])
    ensures Reachable(Put(s, i, Plain(InTask(Some(t)), [], false, [t])).(place := s.place[t := OnFiber(i, 0)]))
  {
    FindsTask(t, [t]);
    TakesTask(t, [t]);
    hide Reachable, Takes;
    var z := Put(s, i, Plain(Fresh, [t], false, [t]));
    var a := Put(s, i, Plain(LoopTop, [t], false, [t]));
    var b := Put(s, i, Plain(WaitTop(FromLoop), [t], false, [t]));
    var c := Put(s, i, Plain(IdleLoop, [t], false, [t]));
    var v := Plain(InTask(Some(t)), [], false, [t]);
    ByWorker(s, i, BeginRun, z.ws[i]);
    ByWorker(z, i, EnterRun, a.ws[i]);
    assert Put(z, i, a.ws[i]) == a;
    ByWorker(a, i, TestLoop, b.ws[i]);
    assert Put(a, i, b.ws[i]) == b;
    ByWorker(b, i, EnterWait, c.ws[i]);
    assert Put(b, i, c.ws[i]) == c;
    ByRunning(c, i, t, v);
    assert Put(c, i, v) == Put(s, i, v);
  }

  // It finishes a task and finds another one.
  lemma GoesOn(s: System, i: int, t: Task, x: Task, log: seq<Task>)
    requires Reachable(s) && i !in s.hints.posts
    requires 0 <= i < |s.ws| && s.ws[i] == Plain(InTask(Some(t)), [x], false, log) && t.action == Work
    ensures Reachable(Put(s, i, Plain(InTask(Some(x)), [], false, log)).(
                        place := s.place[t := Completed][x := OnFiber(i, 0)], done := s.done + {t}))
  {
    FinishesTask(t, [x], log);
    TakesTask(x, log);
    hide Reachable, Takes;
    var w, v := Plain(IdleLoop, [x], false, log), Plain(InTask(Some(x)), [], false, log);
    var a := Put(s, i, w).(place := s.place[t := Completed], done := s.done + {t});
    ByFinishing(s, i, t, w);
    ByRunning(a, i, x, v);
    assert Put(a, i, v).ws == s.ws[i := v];
  }

  // It finishes its stop task and leaves.
  lemma Leaves(s: System, i: int, x: Task, log: seq<Task>)
    requires Reachable(s) && i !in s.hints.posts && 0 <= i < |s.ws| && s.ws[i] == Plain(InTask(Some(x)), [], false, log)
             && x.action == SetShutdown
    ensures Reachable(Put(s, i, Plain(Done, [], true, log)).(place := s.place[x := Completed], done := s.done + {x}))
  {
    FinishesTask(x, [], log);
    FindsNothing(log);
    hide Reachable, Takes;
    var w, v := Plain(IdleLoop, [], true, log), Plain(Done, [], true, log);
    var a := Put(s, i, w).(place := s.place[x := Completed], done := s.done + {x});
    var b := Put(a, i, Plain(LoopTop, [], true, log));
    var c := Put(b, i, Plain(LoopExit, [], true, log));
    ByFinishing(s, i, x, w);
    ByWorker(a, i, EndIdle, b.ws[i]);
    ByWorker(b, i, TestLoop, c.ws[i]);
    ByWorker(c, i, LeaveRun, v);
    assert Put(c, i, v).ws == s.ws[i := v];
  }

  const EARLY := Task(0, false, Work)
  const LATE := Task(1, false, Work)
  const STOP0 := Task(2, true, SetShutdown)
  const STOP1 := Task(3, true, SetShutdown)

  // After so many rounds without a hint
  function NoHints(rounds: int): Hints {
    Hints([-1, -1], 0x800_0000 - rounds, rounds, map[], map[])
  }

  function Two(w0: Worker, w1: Worker, rounds: int, flight: set<Task>, done: set<Task>, phase: Phase,
               place: map<Task, Place>, home: map<Task, int>): System
  {
    System([w0, w1], 2, NoHints(rounds), flight, done, {}, phase, place, home)
  }

  const IDLE := Plain(Begin, [], false, [])
  const BUSY := Plain(InTask(Some(EARLY)), [], false, [EARLY])
  const GONE := Plain(Done, [], true, [STOP1])
  const KEEPS := Plain(Done, [LATE], true, [STOP1, LATE])

  lemma ByHint(s: System, st: HintStep, h: Hints)
    requires Reachable(s) && CanHint(s.hints, s.count, s.flight, st) && DoHint(s.hints, s.count, st) == h
    ensures Reachable(s.(hints := h))
  {
    hide Reachable, CanHint, DoHint;
    Follow(s, Hint(st), s.(hints := h));
  }

  // One round of the submission loop, which finds no hint: the next worker in turn takes the task.
  lemma Places(s: System, t: Task, i: int)
    requires Reachable(s) && s.count == 2 == |s.ws| && s.hints == NoHints(i)
    requires 0 <= i < 2 && t in s.flight && Unlocked(s.ws[i].pc)
    ensures Reachable(Put(s, i, PushTask(s.ws[i], t)).(
                        hints := NoHints(i + 1), flight := s.flight - {t}, place := s.place[t := InQueue(i)]))
  {
    hide Reachable, Unlocked, PushTask;
    var spin := 0x800_0000 - (i + 1);
    var a := Hints([-1, -1], spin, i, map[t := AtSlot(spin % 2)], map[]);
    var b := a.(aim := map[t := InTurn]);
    var c := Hints([-1, -1], spin, i + 1, map[t := Target(i)], map[]);
    Round(t, i, a, b, c);
    ByHint(s, AimSlot(t), a);
    ByHint(s.(hints := a), TakeHint(t), b);
    ByHint(s.(hints := b), TakeTurn(t), c);
    assert c.(aim := c.aim - {t}) == NoHints(i + 1);
    hide CanHint, DoHint;
    Follow(s.(hints := c), TryPlace(t, true), DoTryPlace(s.(hints := c), t, true));
  }

  // The counters are far from wrapping.
  lemma Round(t: Task, i: int, a: Hints, b: Hints, c: Hints)
    requires 0 <= i < 2 && a == Hints([-1, -1], 0x800_0000 - (i + 1), i, a.aim, map[])
    requires a.aim == map[t := AtSlot((0x800_0000 - (i + 1)) % 2)] && b == a.(aim := map[t := InTurn])
    requires c == b.(enqIdx := i + 1, aim := map[t := Target(i)])
    ensures CanHint(NoHints(i), 2, {t}, AimSlot(t)) && DoHint(NoHints(i), 2, AimSlot(t)) == a
    ensures CanHint(a, 2, {t}, TakeHint(t)) && DoHint(a, 2, TakeHint(t)) == b
    ensures CanHint(b, 2, {t}, TakeTurn(t)) && DoHint(b, 2, TakeTurn(t)) == c
  {
    var k := a.aim[t].i;
    assert a.slots[k := -1] == a.slots && a.slots[k] == -1;
  }

  // The destructor asks worker i to stop.
  lemma Asks(s: System, i: int, x: Task)
    requires Reachable(s) && s.phase == Stopping(i + 1, false) && 0 <= i < |s.ws| && Unlocked(s.ws[i].pc)
    requires Systems.Fresh(s, x) && x.action == SetShutdown && x.sameThread
    ensures Reachable(Put(s, i, PushTask(s.ws[i], x)).(
                        place := s.place[x := InQueue(i)], home := s.home[x := i], phase := Stopping(i + 1, true)))
  {
    hide Reachable, Unlocked, PushTask;
    Follow(s, AskStop(x), DoAskStop(s, x));
  }

  lemma PushPlain(pc: Pc, tasks: seq<Task>, shutdown: bool, log: seq<Task>, t: Task)
    requires log == [] <==> pc.Begin?
    ensures !pc.Fresh? ==> PushTask(Plain(pc, tasks, shutdown, log), t) == Plain(pc, tasks + [t], shutdown, log + [t])
  {}

  lemma SubmitsEarly()
    ensures Reachable(Two(IDLE, IDLE, 0, {EARLY}, {}, Serving, map[EARLY := InFlight], map[]))
  {
    hide Reachable, Run;
    var s := Two(IDLE, IDLE, 0, {}, {}, Serving, map[], map[]);
    Starts(s);
    Follow(s, Submit(EARLY, None), Two(IDLE, IDLE, 0, {EARLY}, {}, Serving, map[EARLY := InFlight], map[]));
  }

  lemma PlacesEarly()
    ensures Reachable(Two(Plain(Begin, [EARLY], false, [EARLY]), IDLE, 1, {}, {}, Serving, map[EARLY := InQueue(0)],
                          map[]))
  {
    hide Reachable, Can, Do, Run, PushTask;
    SubmitsEarly();
    var a := Two(IDLE, IDLE, 0, {EARLY}, {}, Serving, map[EARLY := InFlight], map[]);
    Places(a, EARLY, 0);
    var w := Plain(Begin, [EARLY], false, [EARLY]);
    PushPlain(Begin, [], false, [], EARLY);
    assert [] + [EARLY] == [EARLY];
    var b := Two(w, IDLE, 1, {}, {}, Serving, map[EARLY := InQueue(0)], map[]);
    assert Put(a, 0, w).(hints := NoHints(1), flight := {EARLY} - {EARLY},
                         place := a.place[EARLY := InQueue(0)]) == b;
  }

  // Worker 0 executes the early task.
  lemma Serves()
    ensures Reachable(Two(BUSY, IDLE, 1, {}, {}, Serving, map[EARLY := OnFiber(0, 0)], map[]))
  {
    hide Reachable, Can, Do, Run, PushTask;
    PlacesEarly();
    var b := Two(Plain(Begin, [EARLY], false, [EARLY]), IDLE, 1, {}, {}, Serving, map[EARLY := InQueue(0)], map[]);
    StartsTask(b, 0, EARLY);
    assert Put(b, 0, BUSY).(place := b.place[EARLY := OnFiber(0, 0)])
           == Two(BUSY, IDLE, 1, {}, {}, Serving, map[EARLY := OnFiber(0, 0)], map[]);
  }

  lemma Starts(s: System)
    requires Init(s)
    ensures Reachable(s)
  {
    var es: seq<Event> := [];
    assert Run([s], es) && [s][|es|] == s;
  }

  // The destructor begins and asks worker 1 to stop.
  lemma AsksOne()
    ensures Reachable(Two(BUSY, Plain(Begin, [STOP1], false, [STOP1]), 1, {}, {}, Stopping(2, true),
                          map[EARLY := OnFiber(0, 0), STOP1 := InQueue(1)], map[STOP1 := 1]))
  {
    hide Reachable;
    Serves();
    var s := Two(BUSY, IDLE, 1, {}, {}, Serving, map[EARLY := OnFiber(0, 0)], map[]);
    var a := s.(phase := Stopping(2, false));
    Follow(s, BeginDestroy, a);
    hide Can, Do, Run, PushTask;
    Asks(a, 1, STOP1);
    var w := Plain(Begin, [STOP1], false, [STOP1]);
    PushPlain(Begin, [], false, [], STOP1);
    assert [] + [STOP1] == [STOP1];
    assert Put(a, 1, w).(place := a.place[STOP1 := InQueue(1)], home := a.home[STOP1 := 1], phase := Stopping(2, true))
           == Two(BUSY, w, 1, {}, {}, Stopping(2, true), map[EARLY := OnFiber(0, 0), STOP1 := InQueue(1)],
                  map[STOP1 := 1]);
  }

  // Worker 1 leaves.
  lemma StopsOne()
    ensures Reachable(Two(BUSY, GONE, 1, {}, {STOP1}, Stopping(1, false),
                          map[EARLY := OnFiber(0, 0), STOP1 := Completed], map[STOP1 := 1]))
  {
    hide Reachable, Can, Do, Run;
    AsksOne();
    var home := map[STOP1 := 1];
    var b := Two(BUSY, Plain(Begin, [STOP1], false, [STOP1]), 1, {}, {}, Stopping(2, true),
                 map[EARLY := OnFiber(0, 0), STOP1 := InQueue(1)], home);
    StartsTask(b, 1, STOP1);
    var v := Plain(InTask(Some(STOP1)), [], false, [STOP1]);
    var c := Two(BUSY, v, 1, {}, {}, Stopping(2, true), map[EARLY := OnFiber(0, 0), STOP1 := OnFiber(1, 0)], home);
    assert Put(b, 1, v).(place := b.place[STOP1 := OnFiber(1, 0)]) == c;
    Leaves(c, 1, STOP1, [STOP1]);
    var d := Two(BUSY, GONE, 1, {}, {STOP1}, Stopping(2, true), map[EARLY := OnFiber(0, 0), STOP1 := Completed], home);
    assert Put(c, 1, GONE).(place := c.place[STOP1 := Completed], done := c.done + {STOP1}) == d;
    Joins(d);
  }

  lemma Joins(s: System)
    requires Reachable(s) && s.phase.Stopping? && s.phase.asked && 0 < s.phase.left <= |s.ws|
    requires s.ws[s.phase.left - 1].pc.Done?
    ensures Reachable(s.(phase := Stopping(s.phase.left - 1, false)))
  {
    hide Reachable;
    Follow(s, Join, s.(phase := Stopping(s.phase.left - 1, false)));
  }

  // The early task submits the late one.
  lemma SubmitsLate()
    ensures Reachable(Two(BUSY, GONE, 1, {LATE}, {STOP1}, Stopping(1, false),
                          map[EARLY := OnFiber(0, 0), STOP1 := Completed, LATE := InFlight], map[STOP1 := 1]))
  {
    hide Reachable;
    StopsOne();
    var s := Two(BUSY, GONE, 1, {}, {STOP1}, Stopping(1, false), map[EARLY := OnFiber(0, 0), STOP1 := Completed],
                 map[STOP1 := 1]);
    var a := Two(BUSY, GONE, 1, {LATE}, {STOP1}, Stopping(1, false),
                 map[EARLY := OnFiber(0, 0), STOP1 := Completed, LATE := InFlight], map[STOP1 := 1]);
    Follow(s, Submit(LATE, Some(0)), a);
  }

  // It is put on worker 1.
  lemma PutsLate()
    ensures Reachable(Two(BUSY, KEEPS, 2, {}, {STOP1}, Stopping(1, false), SPOTS, map[STOP1 := 1]))
  {
    hide Reachable, Can, Do, Run, PushTask;
    SubmitsLate();
    var a := Two(BUSY, GONE, 1, {LATE}, {STOP1}, Stopping(1, false),
                 map[EARLY := OnFiber(0, 0), STOP1 := Completed, LATE := InFlight], map[STOP1 := 1]);
    Places(a, LATE, 1);
    PushPlain(Done, [], true, [STOP1], LATE);
    assert [] + [LATE] == [LATE] && [STOP1] + [LATE] == [STOP1, LATE];
    assert Put(a, 1, KEEPS).(hints := NoHints(2), flight := {LATE} - {LATE},
                             place := a.place[LATE := InQueue(1)])
           == Two(BUSY, KEEPS, 2, {}, {STOP1}, Stopping(1, false), SPOTS, map[STOP1 := 1]);
  }

  const SPOTS := map[EARLY := OnFiber(0, 0), STOP1 := Completed, LATE := InQueue(1)]
  const HOMES := map[STOP1 := 1, STOP0 := 0]

  // Then worker 0 is asked to stop.
  lemma AsksZero()
    ensures Reachable(Two(Plain(InTask(Some(EARLY)), [STOP0], false, [EARLY, STOP0]), KEEPS, 2, {}, {STOP1},
                          Stopping(1, true), SPOTS[STOP0 := InQueue(0)], HOMES))
  {
    hide Reachable, Can, Do, Run, PushTask;
    PutsLate();
    var s := Two(BUSY, KEEPS, 2, {}, {STOP1}, Stopping(1, false), SPOTS, map[STOP1 := 1]);
    Asks(s, 0, STOP0);
    var w := Plain(InTask(Some(EARLY)), [STOP0], false, [EARLY, STOP0]);
    PushPlain(InTask(Some(EARLY)), [], false, [EARLY], STOP0);
    assert [] + [STOP0] == [STOP0] && [EARLY] + [STOP0] == [EARLY, STOP0];
    assert Put(s, 0, w).(place := s.place[STOP0 := InQueue(0)], home := s.home[STOP0 := 0],
                         phase := Stopping(1, true))
           == Two(w, KEEPS, 2, {}, {STOP1}, Stopping(1, true), SPOTS[STOP0 := InQueue(0)], HOMES);
  }

  // The early task ends.
  lemma AsksBoth()
    ensures Reachable(Two(Plain(InTask(Some(STOP0)), [], false, [EARLY, STOP0]), KEEPS, 2, {}, {STOP1, EARLY},
                          Stopping(1, true), SPOTS[EARLY := Completed][STOP0 := OnFiber(0, 0)], HOMES))
  {
    hide Reachable, Can, Do, Run, PushTask;
    AsksZero();
    var w := Plain(InTask(Some(EARLY)), [STOP0], false, [EARLY, STOP0]);
    var a := Two(w, KEEPS, 2, {}, {STOP1}, Stopping(1, true), SPOTS[STOP0 := InQueue(0)], HOMES);
    GoesOn(a, 0, EARLY, STOP0, [EARLY, STOP0]);
    var v := Plain(InTask(Some(STOP0)), [], false, [EARLY, STOP0]);
    assert SPOTS[STOP0 := InQueue(0)][EARLY := Completed][STOP0 := OnFiber(0, 0)]
           == SPOTS[EARLY := Completed][STOP0 := OnFiber(0, 0)];
    assert {STOP1} + {EARLY} == {STOP1, EARLY};
    assert Put(a, 0, v).(place := a.place[EARLY := Completed][STOP0 := OnFiber(0, 0)], done := a.done + {EARLY})
           == Two(v, KEEPS, 2, {}, {STOP1, EARLY}, Stopping(1, true),
                  SPOTS[EARLY := Completed][STOP0 := OnFiber(0, 0)], HOMES);
  }

  // Worker 0 leaves.
  lemma StopsBoth()
    ensures Reachable(Two(Plain(Done, [], true, [EARLY, STOP0]), KEEPS, 2, {}, {STOP1, EARLY, STOP0},
                          Stopping(0, false), SPOTS[EARLY := Completed][STOP0 := Completed], HOMES))
  {
    hide Reachable, Can, Do, Run;
    AsksBoth();
    var b := Two(Plain(InTask(Some(STOP0)), [], false, [EARLY, STOP0]), KEEPS, 2, {}, {STOP1, EARLY},
                 Stopping(1, true), SPOTS[EARLY := Completed][STOP0 := OnFiber(0, 0)], HOMES);
    Leaves(b, 0, STOP0, [EARLY, STOP0]);
    var w := Plain(Done, [], true, [EARLY, STOP0]);
    var c := Two(w, KEEPS, 2, {}, {STOP1, EARLY, STOP0}, Stopping(1, true),
                 SPOTS[EARLY := Completed][STOP0 := Completed], HOMES);
    assert Put(b, 0, w).(place := b.place[STOP0 := Completed], done := b.done + {STOP0}) == c;
    Joins(c);
  }

  /** The destructor returns, and the late task has not been started. */
  lemma LateTaskIsLost()
    ensures exists s :: Reachable(s) && s.phase.Destroyed? && LATE in s.place && LATE !in s.done
  {
    StopsBoth();
    var s := Two(Plain(Done, [], true, [EARLY, STOP0]), KEEPS, 2, {}, {STOP1, EARLY, STOP0}, Stopping(0, false),
                 SPOTS[EARLY := Completed][STOP0 := Completed], HOMES);
    hide Reachable;
    Follow(s, EndDestroy, s.(phase := Destroyed));
  }
}
