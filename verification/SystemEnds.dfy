/** What the destructor waits for. It stops the workers one after the other, so a task submitted meanwhile can be put
    in the queue of a worker that has left; unless somebody steals it there, nobody will start it. */
module SystemEnds {
  import opened Wrappers
  import opened Workers
  import opened WorkerTasks
  import opened Systems
  import opened SystemProofs
  import opened SystemRuns
  import opened SystemTheorems

  // ---------------------------------------------------------------------------------------------
  // A worker that has left
  // ---------------------------------------------------------------------------------------------

  /** A worker that has left takes no step in any run. A spinning worker can take the front task of its queue exactly if
      that may leave; so a task put there is not lost for good unless it or one before it must stay. */
  lemma LeftStealIff(ss: seq<System>, es: seq<Event>, k: nat, thief: int, i: int)
    requires Run(ss, es) && k < |ss| && 0 <= i < ss[k].count && i < |ss[k].ws| && ss[k].ws[i].pc.Done?
    requires 0 <= thief < ss[k].count && thief < |ss[k].ws| && ss[k].ws[thief].pc.Spin?
    ensures forall st :: !Can(ss[k], Own(i, st))
    ensures Can(ss[k], Steal(thief, i)) <==> ss[k].ws[i].tasks != [] && !ss[k].ws[i].tasks[0].sameThread
  {
    RunGood(ss, es, k);
    hide Run;
    DepartedCounts(ss[k], i);
    hide Good;
    forall st ensures !Can(ss[k], Own(i, st)) { NoOwnStep(ss[k], i, st); }
    StealsFront(ss[k], thief, i);
  }

  lemma DepartedCounts(s: System, i: int)
    requires Good(s) && 0 <= i < |s.ws| && s.ws[i].pc.Done?
    ensures s.count <= |s.ws| && s.ws[i].num == |s.ws[i].tasks|
  {
    assert Inv(s.ws[i]);
  }

  lemma NoOwnStep(s: System, i: int, st: Step)
    requires 0 <= i < |s.ws| && s.ws[i].pc.Done?
    ensures !Can(s, Own(i, st))
  {}

  lemma StealsFront(s: System, thief: int, i: int)
    requires 0 <= i < s.count <= |s.ws| && 0 <= thief < s.count && s.ws[thief].pc.Spin?
    requires s.ws[i].pc.Done? && s.ws[i].num == |s.ws[i].tasks|
    ensures Can(s, Steal(thief, i)) <==> s.ws[i].tasks != [] && !s.ws[i].tasks[0].sameThread
  {
    assert i % s.count == i;
  }

  lemma OwnStays(s: System, j: int, st: Step, i: int)
    requires Good(s) && Can(s, Own(j, st)) && 0 <= i < |s.ws| && s.ws[i].pc.Done?
    ensures var u := DoOwn(s, j, st); |u.ws| == |s.ws| && u.ws[i] == s.ws[i]
  {
    assert j != i;
    hide Good, Apply, Enabled;
  }

  lemma DoneStays(s: System, e: Event, i: int)
    requires Good(s) && Can(s, e) && 0 <= i < |s.ws| && s.ws[i].pc.Done?
    ensures i < |Do(s, e).ws| && Do(s, e).ws[i].pc.Done? && Do(s, e).ws[i].fs == s.ws[i].fs
  {
    if e.Own? {
      OwnStays(s, e.i, e.st, i);
    } else if e.Notify? {
      assert Inv(s.ws[i]);
      DoneIgnores(s.ws[i], e.f);
      hide Good, Inv, PushFiber;
    } else {
      hide Good;
      OthersStay(s, e, i);
    }
  }

  // The other events change at most its queue and the notifications owed.
  lemma OthersStay(s: System, e: Event, i: int)
    requires Can(s, e) && !e.Own? && !e.Notify? && 0 <= i < |s.ws|
    ensures i < |Do(s, e).ws|
    ensures s.ws[i].pc.Done? ==> Do(s, e).ws[i].pc.Done? && Do(s, e).ws[i].fs == s.ws[i].fs
  {
    hide StaysWithSubmitter, Stealable, Unlocked, DoOwn, Enabled;
  }

  // Its fibers are idle or running: there is nobody to notify.
  lemma DoneIgnores(w: Worker, f: int)
    ensures Inv(w) && w.pc.Done? && f in w.fs.tag && w.fs.tag[f] != Idle ==> PushFiber(w, f) == w
  {}

  /** A worker that has left has left for good, and its fibers are as it left them. */
  lemma {:induction false} LeftForGood(ss: seq<System>, es: seq<Event>, j: nat, k: nat, i: int)
    requires Run(ss, es) && j <= k < |ss| && 0 <= i < |ss[j].ws| && ss[j].ws[i].pc.Done?
    ensures i < |ss[k].ws| && ss[k].ws[i].pc.Done? && ss[k].ws[i].fs == ss[j].ws[i].fs
    decreases k
  {
    hide Good, Can, Do, Init;
    if j < k {
      LeftForGood(ss, es, j, k - 1, i);
      RunStep(ss, es, k - 1);
      DoneStays(ss[k - 1], es[k - 1], i);
    }
  }

  // ---------------------------------------------------------------------------------------------
  // How a task comes into a queue
  // ---------------------------------------------------------------------------------------------

  /** The event puts t in the queue of worker i. */
  ghost predicate Puts(s: System, e: Event, t: Task, i: int) {
    match e
    case Own(j, KeepStolen) => j == i && 0 <= i < |s.ws| && s.ws[i].pc.SpinStolen? && s.ws[i].pc.stolen == t
    case Submit(x, Some(b)) => x == t && b == i && StaysWithSubmitter(s, x)
    case TryPlace(x, true) => x == t && Aims(s, x, i)
    case AskStop(x) => x == t && s.phase.Stopping? && i == s.phase.left - 1
    case _ => false
  }

  ghost predicate Queued(s: System, t: Task, i: int) {
    t in s.place && s.place[t] == InQueue(i)
  }

  lemma OwnPut(s: System, j: int, st: Step, t: Task, i: int)
    requires Good(s) && Can(s, Own(j, st)) && !Queued(s, t, i) && Queued(DoOwn(s, j, st), t, i)
    ensures Puts(s, Own(j, st), t, i)
  {
    hide Good, Apply;
  }

  /** A task only comes into a queue by these events, and none of them lets its worker leave. */
  lemma PutOnly(s: System, e: Event, t: Task, i: int)
    requires Good(s) && Can(s, e) && !Queued(s, t, i) && Queued(Do(s, e), t, i)
    ensures Puts(s, e, t, i)
  {
    if e.Own? { OwnPut(s, e.i, e.st, t, i); } else { hide Good, DoOwn; }
  }

  lemma PutStays(s: System, e: Event, t: Task, i: int)
    requires Good(s) && Can(s, e) && Puts(s, e, t, i) && 0 <= i < |Do(s, e).ws| && Do(s, e).ws[i].pc.Done?
    ensures 0 <= i < |s.ws| && s.ws[i].pc.Done?
  {
    hide Good;
  }

  lemma OnlyLeaveRun(w: Worker, st: Step)
    requires Enabled(w, st) && Apply(w, st).pc.Done?
    ensures w.pc.LoopExit?
  {
    hide DueQueued, Switched, Created, Idled, SetAside, Resumed, SavedAt;
  }

  // A worker leaves with an empty queue.
  lemma LeavesEmpty(w: Worker, st: Step)
    requires Inv(w) && Enabled(w, st) && Apply(w, st).pc.Done?
    ensures w.tasks == []
  {
    OnlyLeaveRun(w, st);
    hide Partition, Apply, Enabled;
  }

  lemma LeftBefore(s: System, e: Event, t: Task, i: int)
    requires Good(s) && Can(s, e) && Queued(s, t, i) && Queued(Do(s, e), t, i)
    requires 0 <= i < |s.ws| && i < |Do(s, e).ws| && Do(s, e).ws[i].pc.Done?
    ensures s.ws[i].pc.Done?
  {
    QueuedIn(s, t, i);
    hide Good, Inv, Do, Can, Queued;
    match e
    case Own(j, st) => OwnLeft(s, j, st, i);
    case Notify(j, f) => NotifyLeft(s, j, f, i);
    case _ => OthersLeaveNot(s, e, i);
  }

  lemma OwnLeft(s: System, j: int, st: Step, i: int)
    requires Can(s, Own(j, st)) && 0 <= i < |s.ws| && Inv(s.ws[i]) && s.ws[i].tasks != []
    ensures Do(s, Own(j, st)).ws[i].pc.Done? ==> s.ws[i].pc.Done?
  {
    hide Inv, Apply, Enabled;
    if j == i && Apply(s.ws[i], st).pc.Done? { LeavesEmpty(s.ws[i], st); }
  }

  lemma NotifyLeft(s: System, j: int, f: int, i: int)
    requires Can(s, Notify(j, f)) && 0 <= i < |s.ws|
    ensures Do(s, Notify(j, f)).ws[i].pc == s.ws[i].pc
  {
    hide Notified;
  }

  lemma OthersLeaveNot(s: System, e: Event, i: int)
    requires Can(s, e) && !e.Own? && !e.Notify? && 0 <= i < |s.ws|
    ensures i < |Do(s, e).ws| && (Do(s, e).ws[i].pc.Done? ==> s.ws[i].pc.Done?)
  {
    hide StaysWithSubmitter, Stealable, Unlocked, DoOwn, Enabled;
  }

  lemma QueuedIn(s: System, t: Task, i: int)
    requires Good(s) && Queued(s, t, i)
    ensures 0 <= i < |s.ws| && t in s.ws[i].tasks && Inv(s.ws[i]) && t !in s.done
  {
    assert At(s, t, InQueue(i));
    assert !At(s, t, Completed);
  }

  lemma NowhereAtFirst(s: System, t: Task, i: int)
    ensures Init(s) ==> !Queued(s, t, i)
  {}

  /** A task in the queue of a worker that has left was put there after it had left, and has been there since. */
  lemma {:induction false} PutWhenLeft(ss: seq<System>, es: seq<Event>, k: nat, t: Task, i: int) returns (j: nat)
    requires Run(ss, es) && k < |ss| && Queued(ss[k], t, i) && 0 <= i < |ss[k].ws| && ss[k].ws[i].pc.Done?
    ensures j < k && j < |es| && Puts(ss[j], es[j], t, i) && 0 <= i < |ss[j].ws| && ss[j].ws[i].pc.Done?
    ensures forall m :: j < m <= k ==> Queued(ss[m], t, i)
  {
    NowhereAtFirst(ss[0], t, i);
    hide Good, Can, Do, Init, Puts, Queued;
    RunStep(ss, es, k - 1);
    var s, e := ss[k - 1], es[k - 1];
    if Queued(s, t, i) {
      QueuedIn(s, t, i);
      LeftBefore(s, e, t, i);
      j := PutWhenLeft(ss, es, k - 1, t, i);
    } else {
      PutOnly(s, e, t, i);
      PutStays(s, e, t, i);
      j := k - 1;
    }
  }

  // ---------------------------------------------------------------------------------------------
  // After the destructor
  // ---------------------------------------------------------------------------------------------

  lemma DoneCarriesNothing(w: Worker)
    requires Inv(w) && w.pc.Done?
    ensures InHand(w) == None && forall f :: Carried(w, f) == None
  {
    forall f ensures Carried(w, f) == None {
      assert f !in Suspended(w.fs.resume);
    }
  }

  /** When the destructor has returned every worker has left, and every submitted task is done or in the queue of one
      of them. */
  lemma DestroyedIsQuiet(s: System)
    requires Good(s) && s.phase.Destroyed?
    ensures forall i :: 0 <= i < |s.ws| ==> s.ws[i].pc.Done?
    ensures forall t :: t in s.place ==> (t !in s.done <==> exists i :: Queued(s, t, i))
  {
    forall i | 0 <= i < |s.ws|
      ensures s.ws[i].pc.Done? && InHand(s.ws[i]) == None && forall f :: Carried(s.ws[i], f) == None
    {
      assert Joined(s.phase, i);
      DoneCarriesNothing(s.ws[i]);
    }
    forall t | t in s.place ensures t !in s.done <==> exists i :: Queued(s, t, i) {
      assert At(s, t, s.place[t]);
      hide Inv, InOrder, InHand, Carried, AtHome;
      if i :| Queued(s, t, i) { QueuedIn(s, t, i); }
      if t !in s.done { assert Queued(s, t, s.place[t].at); }
    }
  }

  // The worker had left when the j-th event put t in its queue, where it still is after the k-th.
  ghost predicate Abandoned(ss: seq<System>, es: seq<Event>, j: nat, k: nat, t: Task, i: int)
    requires j < |es| < |ss| && k < |ss|
  {
    && Puts(ss[j], es[j], t, i) && 0 <= i < |ss[j].ws| && ss[j].ws[i].pc.Done?
    && forall m :: j < m <= k ==> Queued(ss[m], t, i)
  }

  // When the destructor has returned, a task that was accepted and is unfinished is in such a queue.
  lemma UnfinishedIsAbandoned(ss: seq<System>, es: seq<Event>, k: nat, t: Task) returns (j: nat, i: int)
    requires Run(ss, es) && k < |ss| && ss[k].phase.Destroyed? && t in ss[k].place && t !in ss[k].done
    ensures j < k && j < |es| < |ss| && Abandoned(ss, es, j, k, t, i)
  {
    RunGood(ss, es, k);
    assert |ss| == |es| + 1;
    hide Run, Good;
    DestroyedIsQuiet(ss[k]);
    hide Puts;
    i :| Queued(ss[k], t, i);
    QueuedIn(ss[k], t, i);
    j := PutWhenLeft(ss, es, k, t, i);
  }

  // ---------------------------------------------------------------------------------------------
  // Tasks accepted in time
  // ---------------------------------------------------------------------------------------------

  // Accepted, and its submission returned
  ghost predicate Settled(s: System, t: Task) {
    t in s.place && s.place[t] != InFlight
  }

  lemma {:induction false} StaysSettled(ss: seq<System>, es: seq<Event>, j: nat, k: nat, t: Task)
    requires Run(ss, es) && j <= k < |ss| && Settled(ss[j], t)
    ensures Settled(ss[k], t)
    decreases k
  {
    hide Good, Can, Do, Init;
    if j < k {
      StaysSettled(ss, es, j, k - 1, t);
      RunStep(ss, es, k - 1);
      EventMoves(ss[k - 1], es[k - 1], t);
    }
  }

  // Who is put on a worker that has left was not settled, and is then.
  lemma PutUnsettled(s: System, e: Event, t: Task, i: int)
    requires Good(s) && Can(s, e) && Puts(s, e, t, i) && 0 <= i < |s.ws| && s.ws[i].pc.Done?
    ensures !Settled(s, t) && Settled(Do(s, e), t)
    ensures i < s.count && !s.phase.Serving?
  {
    assert Inv(s.ws[i]);
    if e.TryPlace? { assert At(s, t, InFlight); }
    hide AtHome, Placed, NoDups;
    if i < s.count { assert s.ws[i].shutdown ==> Asked(s.phase, i); }
  }

  lemma {:induction false} ServedBefore(ss: seq<System>, es: seq<Event>, j: nat, k: nat)
    requires Run(ss, es) && j <= k < |ss| && ss[k].phase.Serving?
    ensures ss[j].phase.Serving?
    decreases k
  {
    hide Good, Can, Do, Init;
    if j < k {
      RunStep(ss, es, k - 1);
      PhaseOn(ss[k - 1], es[k - 1]);
      ServedBefore(ss, es, j, k - 1);
    }
  }

  lemma PhaseOn(s: System, e: Event)
    requires Can(s, e)
    ensures Do(s, e).phase.Serving? ==> s.phase.Serving?
  {
    hide Good;
  }

  /** If the destructor returns, every task whose submission had returned when it began has finished executing. */
  lemma DestructorWaitsForAll(ss: seq<System>, es: seq<Event>, b: nat, k: nat, t: Task)
    requires Run(ss, es) && b < k < |ss| && b < |es| && es[b].BeginDestroy? && ss[k].phase.Destroyed?
    requires Settled(ss[b], t)
    ensures t in ss[k].done
    ensures forall i :: 0 <= i < |ss[k].ws| ==> ss[k].ws[i].pc.Done?
  {
    RunStep(ss, es, b);
    RunGood(ss, es, k);
    assert ss[b].phase.Serving?;
    hide Run, Good, Can, Do;
    StaysSettled(ss, es, b, k, t);
    DestroyedIsQuiet(ss[k]);
    if t !in ss[k].done {
      var j, i := UnfinishedIsAbandoned(ss, es, k, t);
      RunStep(ss, es, j);
      PutUnsettled(ss[j], es[j], t, i);
      if j < b { ServedBefore(ss, es, j, b); } else { StaysSettled(ss, es, b, j, t); }
    }
  }

  /** So has every task that was put on a worker that had not left yet, whenever that was. */
  lemma PutInTime(ss: seq<System>, es: seq<Event>, j: nat, k: nat, t: Task, i: int)
    requires Run(ss, es) && j < k < |ss| && j < |es| && ss[k].phase.Destroyed?
    requires Puts(ss[j], es[j], t, i) && 0 <= i < |ss[j].ws| && !ss[j].ws[i].pc.Done?
    ensures t in ss[k].done
  {
    RunStep(ss, es, j);
    PutSettles(ss[j], es[j], t, i);
    hide Run, Good, Can, Do, Puts;
    StaysSettled(ss, es, j + 1, k, t);
    if t !in ss[k].done {
      var m, x := UnfinishedIsAbandoned(ss, es, k, t);
      RunStep(ss, es, m);
      PutUnsettled(ss[m], es[m], t, x);
      if j < m {
        StaysSettled(ss, es, j + 1, m, t);
      } else if m < j {
        assert Queued(ss[j], t, x);
        PutFromOutside(ss[j], es[j], t, i, x);
      }
    }
  }

  lemma PutSettles(s: System, e: Event, t: Task, i: int)
    requires Good(s) && Can(s, e) && Puts(s, e, t, i)
    ensures Settled(Do(s, e), t)
  {
    hide Good;
  }

  // Nothing is put in a queue that is in one already.
  lemma PutFromOutside(s: System, e: Event, t: Task, i: int, x: int)
    requires Good(s) && Can(s, e) && Puts(s, e, t, i)
    ensures !Queued(s, t, x)
  {
    if e.TryPlace? { assert At(s, t, InFlight); }
    if e.Own? { assert At(s, t, Stolen(i)); }
    hide AtHome, Phases, WorkersOk;
  }

  // ---------------------------------------------------------------------------------------------
  // Which tasks are finished
  // ---------------------------------------------------------------------------------------------

  /** The event puts t in the queue of a worker that has not left. */
  ghost predicate PutsInTime(s: System, e: Event, t: Task) {
    exists i :: Puts(s, e, t, i) && 0 <= i < |s.ws| && !s.ws[i].pc.Done?
  }

  // It has been started, or is in the queue of a worker that has not left.
  ghost predicate Live(s: System, t: Task) {
    && t in s.place
    && match s.place[t]
       case InQueue(i) => 0 <= i < |s.ws| && !s.ws[i].pc.Done?
       case OnFiber(_, _) => true
       case Completed => true
       case _ => false
  }

  // A fiber only gets a task from the queue of its worker, which has not left.
  lemma StartedWasLive(s: System, e: Event, t: Task)
    requires Good(s) && Can(s, e) && t in Do(s, e).place
    requires Do(s, e).place[t].OnFiber? || Do(s, e).place[t].Completed?
    ensures Live(s, t)
  {
    hide Good, DoOwn, Live;
    if e.Own? { OwnStarted(s, e.i, e.st, t); } else { OthersStartNone(s, e, t); }
  }

  lemma OthersStartNone(s: System, e: Event, t: Task)
    requires Can(s, e) && !e.Own? && t in Do(s, e).place
    requires Do(s, e).place[t].OnFiber? || Do(s, e).place[t].Completed?
    ensures Live(s, t)
  {
    hide DoOwn, Enabled, Stealable, Unlocked;
  }

  lemma OwnStarted(s: System, i: int, st: Step, t: Task)
    requires Good(s) && Can(s, Own(i, st)) && t in DoOwn(s, i, st).place
    requires DoOwn(s, i, st).place[t].OnFiber? || DoOwn(s, i, st).place[t].Completed?
    ensures Live(s, t)
  {
    hide Inv, InOrder, At, AtHome, Phases;
    match st
    case RunTask => RunTaskPlaced(s, i);
    case FinishTask => FinishTaskPlaced(s, i);
    case _ =>
  }

  lemma QueuedWasLive(s: System, e: Event, t: Task, i: int)
    requires Good(s) && Can(s, e) && Queued(Do(s, e), t, i) && 0 <= i < |Do(s, e).ws| && !Do(s, e).ws[i].pc.Done?
    ensures Live(s, t) || PutsInTime(s, e, t)
  {
    if Queued(s, t, i) {
      QueuedIn(s, t, i);
    } else {
      PutOnly(s, e, t, i);
      PutsOnWorker(s, e, t, i);
    }
    hide Good, Can, Do, Puts;
    if s.ws[i].pc.Done? { DoneStays(s, e, i); }
  }

  lemma PutsOnWorker(s: System, e: Event, t: Task, i: int)
    requires Can(s, e) && Puts(s, e, t, i)
    ensures 0 <= i < |s.ws|
  {}

  lemma LiveStep(s: System, e: Event, t: Task)
    requires Good(s) && Can(s, e) && Live(Do(s, e), t)
    ensures Live(s, t) || PutsInTime(s, e, t)
  {
    hide Good, Can, Do, PutsInTime;
    var p := Do(s, e).place[t];
    if p.InQueue? {
      assert Queued(Do(s, e), t, p.at);
      QueuedWasLive(s, e, t, p.at);
    } else {
      StartedWasLive(s, e, t);
    }
  }

  lemma StartsSo(ss: seq<System>, es: seq<Event>, t: Task)
    requires Run(ss, es)
    ensures |ss| == |es| + 1 && !Live(ss[0], t)
  {
    hide Can, Do;
  }

  lemma {:induction false} LiveWasPut(ss: seq<System>, es: seq<Event>, k: nat, t: Task) returns (j: nat)
    requires Run(ss, es) && k < |ss| && Live(ss[k], t)
    ensures j < k && j < |es| < |ss| && PutsInTime(ss[j], es[j], t)
  {
    StartsSo(ss, es, t);
    hide Run, Good, Can, Do, Live, PutsInTime;
    RunStep(ss, es, k - 1);
    LiveStep(ss[k - 1], es[k - 1], t);
    if PutsInTime(ss[k - 1], es[k - 1], t) { j := k - 1; } else { j := LiveWasPut(ss, es, k - 1, t); }
  }

  lemma DoneIsLive(s: System, t: Task)
    requires Good(s)
    ensures t in s.done ==> Live(s, t)
  {
    assert t in s.done ==> At(s, t, Completed);
  }

  /** The exact condition: when the destructor has returned, a task that was accepted is finished exactly if it has ever
      been put in the queue of a worker that had not left yet. */
  lemma FinishedIff(ss: seq<System>, es: seq<Event>, k: nat, t: Task)
    requires Run(ss, es) && k < |ss| && ss[k].phase.Destroyed? && t in ss[k].place
    ensures |ss| == |es| + 1
    ensures t in ss[k].done <==>
            exists j, i :: 0 <= j < k && Puts(ss[j], es[j], t, i) && 0 <= i < |ss[j].ws| && !ss[j].ws[i].pc.Done?
  {
    RunGood(ss, es, k);
    assert |ss| == |es| + 1;
    DoneIsLive(ss[k], t);
    hide Run, Good, Live, Puts;
    if t in ss[k].done {
      var j := LiveWasPut(ss, es, k, t);
    }
    if j, i :| 0 <= j < k && Puts(ss[j], es[j], t, i) && 0 <= i < |ss[j].ws| && !ss[j].ws[i].pc.Done? {
      PutInTime(ss, es, j, k, t, i);
    }
  }
}
