/** The thread pool of example/benchmark.cpp under any interleaving. A step is one critical section, the
    delivery of a notification, or a spurious wakeup. */
module Pools {
  import opened Wrappers
  import opened Collections

  datatype Thread = Testing | Asleep | Running(task: int) | Exited

  // A caller of waitUntilIdle()
  datatype Waiter = WaitTesting | WaitAsleep | Returned

  datatype Pool = Pool(
    queue: seq<int>,
    pending: int,
    shutdown: bool,
    owed: int,                    // calls of ready.notify_one() still to come
    allOwed: bool,                // a call of ready.notify_all() still to come
    threads: map<int, Thread>,
    waiters: map<int, Waiter>,
    enqueued: seq<int>,           // history: every task, in order,
    started: seq<int>,            // those taken from the queue, in order,
    done: set<int>)               // and those finished

  ghost predicate Init(p: Pool) {
    && p.queue == [] && p.pending == 0 && !p.shutdown && p.owed == 0 && !p.allOwed
    && (forall w :: w in p.threads ==> p.threads[w].Testing?) && p.waiters == map[]
    && p.enqueued == [] && p.started == [] && p.done == {}
  }

  datatype Step =
    | Enqueue(t: int, who: Option<int>)
    | NotifyOne(pick: int)
    | NotifyAll
    | Test(w: int)
    | Finish(w: int)
    | Spurious(w: int)
    | BeginDestroy
    | EnterWait(u: int)
    | TestWait(u: int)
    | SpuriousWait(u: int)

  function At(p: Pool, w: int): Thread {
    if w in p.threads then p.threads[w] else Exited
  }

  function Waits(p: Pool, u: int): Waiter {
    if u in p.waiters then p.waiters[u] else Returned
  }

  // Once the destructor runs, only tasks that are running may enqueue.
  ghost predicate Can(p: Pool, st: Step) {
    match st
    case Enqueue(t, who) => t !in p.enqueued && (if who.Some? then At(p, who.value).Running? else !p.shutdown)
    case NotifyOne(pick) => p.owed > 0 && ((exists w :: At(p, w).Asleep?) ==> At(p, pick).Asleep?)
    case NotifyAll => p.allOwed
    case Test(w) => At(p, w).Testing?
    case Finish(w) => At(p, w).Running?
    case Spurious(w) => At(p, w).Asleep?
    case BeginDestroy => !p.shutdown
    case EnterWait(u) => Waits(p, u).Returned?
    case TestWait(u) => Waits(p, u).WaitTesting?
    case SpuriousWait(u) => Waits(p, u).WaitAsleep?
  }

  function DoEnqueue(p: Pool, t: int): Pool {
    p.(queue := p.queue + [t], pending := p.pending + 1, owed := p.owed + 1, enqueued := p.enqueued + [t])
  }

  function Woken(threads: map<int, Thread>, pick: int): map<int, Thread> {
    if pick in threads && threads[pick].Asleep? then threads[pick := Testing] else threads
  }

  function AllWoken(threads: map<int, Thread>): map<int, Thread> {
    map w | w in threads :: if threads[w].Asleep? then Testing else threads[w]
  }

  // workerLoop() up to the task
  function DoTest(p: Pool, w: int): Pool {
    if p.queue != [] then
      p.(queue := p.queue[1..], started := p.started + [p.queue[0]], threads := p.threads[w := Running(p.queue[0])])
    else p.(threads := p.threads[w := if p.shutdown then Exited else Asleep])
  }

  // and after it
  function DoFinish(p: Pool, w: int): Pool
    requires At(p, w).Running?
  {
    p.(pending := p.pending - 1, threads := p.threads[w := Testing], done := p.done + {At(p, w).task},
       waiters := if p.pending == 1 then AllRoused(p.waiters) else p.waiters)
  }

  function AllRoused(waiters: map<int, Waiter>): map<int, Waiter> {
    map u | u in waiters :: if waiters[u].WaitAsleep? then WaitTesting else waiters[u]
  }

  function DoTestWait(p: Pool, u: int): Pool {
    p.(waiters := p.waiters[u := if p.pending == 0 then Returned else WaitAsleep])
  }

  ghost function Do(p: Pool, st: Step): Pool
    requires Can(p, st)
  {
    match st
    case Enqueue(t, _) => DoEnqueue(p, t)
    case NotifyOne(pick) => p.(owed := p.owed - 1, threads := Woken(p.threads, pick))
    case NotifyAll => p.(allOwed := false, threads := AllWoken(p.threads))
    case Test(w) => DoTest(p, w)
    case Finish(w) => DoFinish(p, w)
    case Spurious(w) => p.(threads := Woken(p.threads, w))
    case BeginDestroy => p.(shutdown := true, allOwed := true)
    case EnterWait(u) => p.(waiters := p.waiters[u := WaitTesting])
    case TestWait(u) => DoTestWait(p, u)
    case SpuriousWait(u) => p.(waiters := p.waiters[u := WaitTesting])
  }

  ghost predicate Run(ps: seq<Pool>, steps: seq<Step>) {
    && |ps| == |steps| + 1 && Init(ps[0])
    && forall k :: 0 <= k < |steps| ==> Can(ps[k], steps[k]) && Do(ps[k], steps[k]) == ps[k + 1]
  }

  // ---------------------------------------------------------------------------------------------
  // Invariant
  // ---------------------------------------------------------------------------------------------

  ghost function Testers(threads: map<int, Thread>): set<int> {
    set w | w in threads && threads[w].Testing?
  }

  ghost function Runners(threads: map<int, Thread>): set<int> {
    set w | w in threads && threads[w].Running?
  }

  /** Tasks start in the order in which they were enqueued; a started task runs on one thread or is done. */
  ghost predicate Tasks(p: Pool) {
    && p.enqueued == p.started + p.queue && NoDup(p.enqueued)
    && (forall t :: t in p.started <==> t in p.done || exists w :: At(p, w) == Running(t))
    && (forall w :: At(p, w).Running? ==> At(p, w).task !in p.done)
    && (forall w, v :: At(p, w).Running? && At(p, w) == At(p, v) ==> w == v)
  }

  /** pending counts the queued tasks and those in flight. */
  ghost predicate Counts(p: Pool) {
    p.pending == |p.queue| + |Runners(p.threads)|
  }

  /** While a thread sleeps, every queued task has a notification to come or a thread about to test; and after
      shutdown a notification of all is to come. */
  ghost predicate Wakeful(p: Pool) {
    && 0 <= p.owed
    && ((exists w :: At(p, w).Asleep?) ==> |p.queue| <= p.owed + |Testers(p.threads)|)
    && (p.shutdown && (exists w :: At(p, w).Asleep?) ==> p.allOwed)
    && (forall u :: Waits(p, u).WaitAsleep? ==> p.pending > 0)
  }

  // A thread only leaves after shutdown, and the last one leaves nothing behind.
  ghost predicate Draining(p: Pool) {
    forall w :: w in p.threads && p.threads[w].Exited? ==>
      p.shutdown && (p.queue == [] || exists v :: v in p.threads && !p.threads[v].Exited?)
  }

  ghost predicate Inv(p: Pool) {
    Tasks(p) && Counts(p) && Wakeful(p) && Draining(p)
  }

  // ---------------------------------------------------------------------------------------------
  // Steps
  // ---------------------------------------------------------------------------------------------

  lemma AnyOf(x: set<int>) returns (i: int)
    requires |x| > 0
    ensures i in x
  {
    assert (forall j :: j !in x) ==> x == {};
    i :| i in x;
  }

  lemma NoneOf(x: set<int>)
    requires forall i :: i !in x
    ensures |x| == 0
  {
    if |x| > 0 { var i := AnyOf(x); assert false; }
  }

  lemma Swap(threads: map<int, Thread>, w: int, t: Thread)
    requires w in threads
    ensures |Testers(threads[w := t])| == |Testers(threads)|
            + (if t.Testing? then 1 else 0) - (if threads[w].Testing? then 1 else 0)
    ensures |Runners(threads[w := t])| == |Runners(threads)|
            + (if t.Running? then 1 else 0) - (if threads[w].Running? then 1 else 0)
  {
    SameBut(Testers(threads), Testers(threads[w := t]), w);
    SameBut(Runners(threads), Runners(threads[w := t]), w);
  }

  lemma EnqueueInv(p: Pool, t: int, who: Option<int>)
    requires Inv(p) && Can(p, Enqueue(t, who))
    ensures Inv(DoEnqueue(p, t))
  {
    var u := DoEnqueue(p, t);
    assert u.enqueued == u.started + u.queue;
    assert forall w :: At(u, w) == At(p, w);
    assert forall x :: Waits(u, x) == Waits(p, x);
    assert who.Some? ==> who.value in p.threads && p.threads[who.value].Running?;
  }

  lemma WakeInv(p: Pool, u: Pool, pick: int)
    requires Inv(p) && u == p.(threads := Woken(p.threads, pick), owed := u.owed) && 0 <= u.owed
    requires u.owed == p.owed || (u.owed == p.owed - 1 && ((exists w :: At(p, w).Asleep?) ==> At(p, pick).Asleep?))
    ensures Inv(u)
  {
    if At(p, pick).Asleep? { Swap(p.threads, pick, Testing); }
    assert forall x :: Waits(u, x) == Waits(p, x);
    assert forall w :: At(u, w) == if w == pick && At(p, w).Asleep? then Testing else At(p, w);
    assert forall w :: At(u, w).Asleep? ==> At(p, w).Asleep?;
    assert forall w, t :: At(u, w) == Running(t) <==> At(p, w) == Running(t);
  }

  lemma NotifyAllInv(p: Pool)
    requires Inv(p)
    ensures Inv(p.(allOwed := false, threads := AllWoken(p.threads)))
  {
    var u := p.(allOwed := false, threads := AllWoken(p.threads));
    assert forall x :: Waits(u, x) == Waits(p, x);
    assert forall w :: At(u, w) == if At(p, w).Asleep? then Testing else At(p, w);
    assert forall w, t :: At(u, w) == Running(t) <==> At(p, w) == Running(t);
    assert Runners(u.threads) == Runners(p.threads);
    forall w | w in u.threads && u.threads[w].Exited?
      ensures p.queue == [] || exists v :: v in u.threads && !u.threads[v].Exited?
    {
      if p.queue != [] {
        var v :| v in p.threads && !p.threads[v].Exited?;
        assert v in u.threads && !u.threads[v].Exited?;
      }
    }
  }

  lemma TakeInv(p: Pool, w: int)
    requires Inv(p) && At(p, w).Testing? && p.queue != []
    ensures Inv(DoTest(p, w))
  {
    var u := DoTest(p, w);
    var t := p.queue[0];
    assert p.enqueued == u.started + u.queue;
    assert p.enqueued[|p.started|] == t;
    assert forall i :: 0 <= i < |p.started| ==> p.started[i] == p.enqueued[i];
    assert t !in p.started;
    Swap(p.threads, w, Running(t));
    assert forall v :: At(u, v) == if v == w then Running(t) else At(p, v);
    forall x ensures x in u.started <==> x in u.done || exists v :: At(u, v) == Running(x) {
      if x == t { assert At(u, w) == Running(t); }
      if v :| At(p, v) == Running(x) { assert At(u, v) == Running(x); }
    }
  }

  lemma RestInv(p: Pool, w: int)
    requires Inv(p) && At(p, w).Testing? && p.queue == []
    ensures Inv(DoTest(p, w))
  {
    var u := DoTest(p, w);
    Swap(p.threads, w, u.threads[w]);
    assert forall x :: Waits(u, x) == Waits(p, x);
    assert forall v, t :: At(u, v) == Running(t) <==> At(p, v) == Running(t);
    assert forall v :: v != w ==> At(u, v) == At(p, v);
  }

  lemma FinishInv(p: Pool, w: int)
    requires Inv(p) && At(p, w).Running?
    ensures Inv(DoFinish(p, w))
  {
    var u, t := DoFinish(p, w), At(p, w).task;
    Swap(p.threads, w, Testing);
    assert forall v :: At(u, v) == if v == w then Testing else At(p, v);
    forall x ensures x in u.started <==> x in u.done || exists v :: At(u, v) == Running(x) {
      if x != t { if v :| At(p, v) == Running(x) { assert At(u, v) == Running(x); } }
    }
  }

  lemma WaiterInv(p: Pool, waiters: map<int, Waiter>)
    requires Inv(p) && forall u :: u in waiters && waiters[u].WaitAsleep? ==> p.pending > 0
    ensures Inv(p.(waiters := waiters))
  {
    assert forall w :: At(p.(waiters := waiters), w) == At(p, w);
  }

  lemma DestroyInv(p: Pool)
    requires Inv(p)
    ensures Inv(p.(shutdown := true, allOwed := true))
  {
    assert forall w :: At(p.(shutdown := true, allOwed := true), w) == At(p, w);
    assert forall x :: Waits(p.(shutdown := true, allOwed := true), x) == Waits(p, x);
  }

  lemma StepInv(p: Pool, st: Step)
    requires Inv(p) && Can(p, st)
    ensures Inv(Do(p, st))
  {
    match st
    case Enqueue(t, who) => hide Inv; EnqueueInv(p, t, who);
    case NotifyOne(pick) => hide Inv; WakeInv(p, Do(p, st), pick);
    case NotifyAll => hide Inv; NotifyAllInv(p);
    case Test(w) => hide Inv; if p.queue != [] { TakeInv(p, w); } else { RestInv(p, w); }
    case Finish(w) => hide Inv; FinishInv(p, w);
    case Spurious(w) => assert p.owed >= 0; hide Inv; WakeInv(p, Do(p, st), w);
    case BeginDestroy => hide Inv; DestroyInv(p);
    case _ =>
      assert forall u :: u in p.waiters ==> p.waiters[u] == Waits(p, u);
      assert forall u :: u in Do(p, st).waiters && Do(p, st).waiters[u].WaitAsleep? ==> p.pending > 0;
      hide Inv;
      WaiterInv(p, Do(p, st).waiters);
  }

  lemma {:induction false} RunInv(ps: seq<Pool>, steps: seq<Step>, k: nat)
    requires Run(ps, steps) && k < |ps|
    ensures Inv(ps[k])
  {
    if k == 0 {
      NoneOf(Runners(ps[0].threads));
      assert forall u :: Waits(ps[0], u).Returned?;
    } else {
      hide Inv, Can, Do, Init;
      RunInv(ps, steps, k - 1);
      assert Can(ps[k - 1], steps[k - 1]) && Do(ps[k - 1], steps[k - 1]) == ps[k];
      StepInv(ps[k - 1], steps[k - 1]);
    }
  }

  // ---------------------------------------------------------------------------------------------
  // What callers rely on
  // ---------------------------------------------------------------------------------------------

  ghost predicate AllDone(p: Pool) {
    forall t :: t in p.enqueued ==> t in p.done
  }

  lemma IdleIff(p: Pool)
    requires Inv(p)
    ensures p.pending == 0 <==> AllDone(p)
  {
    if p.pending == 0 {
      forall w ensures !At(p, w).Running? { assert w !in Runners(p.threads); }
      assert p.enqueued == p.started;
    } else if p.queue != [] {
      assert p.queue[0] in p.enqueued;
      assert p.enqueued[|p.started|] == p.queue[0];
      assert forall i :: 0 <= i < |p.started| ==> p.started[i] == p.enqueued[i];
      assert p.queue[0] !in p.started;
    } else {
      var w := AnyOf(Runners(p.threads));
      assert At(p, w) == Running(p.threads[w].task);
      assert p.threads[w].task in p.enqueued;
    }
  }

  /** waitUntilIdle() returns only when every task enqueued so far has finished, and it does return then. */
  lemma WaitReturnsIff(ps: seq<Pool>, steps: seq<Step>, k: nat, u: int)
    requires Run(ps, steps) && k < |steps| && steps[k] == TestWait(u)
    ensures Waits(ps[k + 1], u).Returned? <==> AllDone(ps[k])
  {
    RunInv(ps, steps, k);
    assert Can(ps[k], steps[k]) && Do(ps[k], steps[k]) == ps[k + 1];
    hide Run;
    IdleIff(ps[k]);
  }

  // While a task is queued, some thread has not left.
  lemma Stayer(p: Pool) returns (w: int)
    requires Draining(p) && p.queue != [] && p.threads != map[]
    ensures w in p.threads && !p.threads[w].Exited?
  {
    w := AnyOf(p.threads.Keys);
    if p.threads[w].Exited? { w :| w in p.threads && !p.threads[w].Exited?; }
  }

  /** Nobody sleeps in waitUntilIdle() while everything is done; and while a task is queued, a thread is awake
      to take it or about to be notified. */
  lemma NobodyMissesOut(ps: seq<Pool>, steps: seq<Step>, k: nat)
    requires Run(ps, steps) && k < |ps|
    ensures AllDone(ps[k]) ==> forall u :: !Waits(ps[k], u).WaitAsleep?
    ensures ps[k].queue != [] && ps[k].threads != map[] ==>
              ps[k].owed > 0 || exists w :: At(ps[k], w).Testing? || At(ps[k], w).Running?
  {
    RunInv(ps, steps, k);
    hide Run;
    var p := ps[k];
    IdleIff(p);
    if p.queue != [] && p.threads != map[] && p.owed == 0 {
      var w := Stayer(p);
      if p.threads[w].Asleep? {
        assert At(p, w).Asleep?;
        var v := AnyOf(Testers(p.threads));
        assert At(p, v).Testing?;
      } else {
        assert At(p, w).Testing? || At(p, w).Running?;
      }
    }
  }

  /** When the destructor has joined its threads, of which there is one, every task has finished. */
  lemma DestructionDrains(ps: seq<Pool>, steps: seq<Step>, k: nat)
    requires Run(ps, steps) && k < |ps| && ps[k].threads != map[]
    requires forall w :: w in ps[k].threads ==> ps[k].threads[w].Exited?
    ensures ps[k].shutdown && AllDone(ps[k]) && ps[k].pending == 0
  {
    RunInv(ps, steps, k);
    hide Run;
    var p := ps[k];
    var w := AnyOf(p.threads.Keys);
    assert p.threads[w].Exited?;
    NoneOf(Runners(p.threads));
    IdleIff(p);
  }

  /** A pool without threads keeps its tasks for ever. */
  lemma NoThreadsNoWork(ps: seq<Pool>, steps: seq<Step>, k: nat)
    requires Run(ps, steps) && k < |ps| && ps[0].threads == map[]
    ensures ps[k].threads == map[] && ps[k].done == {} && ps[k].queue == ps[k].enqueued
  {
    if k > 0 {
      NoThreadsNoWork(ps, steps, k - 1);
      assert Can(ps[k - 1], steps[k - 1]) && Do(ps[k - 1], steps[k - 1]) == ps[k];
      hide Run;
    }
  }

  // ---------------------------------------------------------------------------------------------
  // The object
  // ---------------------------------------------------------------------------------------------

  /** PlainThreadPool: its three fields are changed in critical sections, which are the steps above. */
  class PlainThreadPool {
    var queue: seq<int>
    var pending: int
    var shutdown: bool

    // The object's part of a state
    ghost predicate Shows(p: Pool)
      reads this
    {
      p.queue == queue && p.pending == pending && p.shutdown == shutdown
    }

    constructor ()
      ensures forall p :: Init(p) ==> Shows(p)
      ensures queue == [] && pending == 0 && !shutdown
    {
      queue, pending, shutdown := [], 0, false;
    }

    method Enqueue(t: int, ghost p: Pool, ghost who: Option<int>)
      requires Shows(p) && Inv(p) && Can(p, Step.Enqueue(t, who))
      modifies this`queue, this`pending
      ensures Shows(Do(p, Step.Enqueue(t, who))) && Inv(Do(p, Step.Enqueue(t, who)))
      ensures queue == old(queue) + [t] && pending == old(pending) + 1
    {
      StepInv(p, Step.Enqueue(t, who));
      hide Inv;
      queue := queue + [t];
      pending := pending + 1;
    }

    /** The wait at the head of workerLoop(): None with leaves if the thread must go, without if it must sleep. */
    method Take(ghost p: Pool, ghost w: int) returns (task: Option<int>, leaves: bool)
      requires Shows(p) && Inv(p) && At(p, w).Testing?
      modifies this`queue
      ensures Shows(Do(p, Test(w))) && Inv(Do(p, Test(w)))
      ensures At(Do(p, Test(w)), w) == (if task.Some? then Running(task.value) else if leaves then Exited else Asleep)
      ensures task.Some? ==>
                && task.value !in p.done
                && (exists k :: 0 <= k < |p.enqueued| && k == |p.started| && p.enqueued[k] == task.value)
      ensures task == if old(queue) == [] then None else Some(old(queue)[0])
      ensures leaves <==> shutdown && old(queue) == []
      ensures queue == if old(queue) == [] then [] else old(queue)[1..]
    {
      StepInv(p, Test(w));
      if p.queue != [] {
        assert p.enqueued[|p.started|] == p.queue[0];
        assert At(Do(p, Test(w)), w) == Running(p.queue[0]);
      }
      hide Inv;
      leaves := shutdown && queue == [];
      if queue == [] { return None, leaves; }
      task := Some(queue[0]);
      queue := queue[1..];
    }

    method Finish(ghost p: Pool, ghost w: int) returns (drained: bool)
      requires Shows(p) && Inv(p) && At(p, w).Running?
      modifies this`pending
      ensures Shows(Do(p, Step.Finish(w))) && Inv(Do(p, Step.Finish(w)))
      ensures drained <==> AllDone(Do(p, Step.Finish(w)))
      ensures pending == old(pending) - 1 && (drained <==> pending == 0)
    {
      StepInv(p, Step.Finish(w));
      IdleIff(Do(p, Step.Finish(w)));
      hide Inv;
      pending := pending - 1;
      drained := pending == 0;
    }

    method BeginDestroy(ghost p: Pool)
      requires Shows(p) && Inv(p) && !p.shutdown
      modifies this`shutdown
      ensures Shows(Do(p, Step.BeginDestroy)) && Inv(Do(p, Step.BeginDestroy))
      ensures shutdown
    {
      StepInv(p, Step.BeginDestroy);
      hide Inv;
      shutdown := true;
    }
  }
}
