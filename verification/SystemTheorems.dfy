/** What holds in every run of a scheduler. */
module SystemTheorems {
  import opened Wrappers
  import opened Collections
  import opened Workers
  import opened WorkerTasks
  import opened Systems
  import opened SystemProofs
  import opened SystemRuns

  // ---------------------------------------------------------------------------------------------
  // The life of a task
  // ---------------------------------------------------------------------------------------------

  /** In flight or queued, then possibly stolen and queued again, then on one fiber of one worker, then
      completed. */
  predicate Next(p: Place, q: Place) {
    || p == q
    || (p.InFlight? && q.InQueue?)
    || (p.InQueue? && q.Stolen? && q.at != p.at)
    || (p.Stolen? && q == InQueue(p.at))
    || (p.InQueue? && q.OnFiber? && q.at == p.at)
    || (p.OnFiber? && q.Completed?)
  }

  lemma OwnMoves(s: System, i: int, st: Step, t: Task)
    requires Good(s) && Can(s, Own(i, st)) && t in s.place
    ensures t in DoOwn(s, i, st).place && Next(s.place[t], DoOwn(s, i, st).place[t])
    ensures DoOwn(s, i, st).home == s.home
  {
    hide Inv, InOrder, At, NoDup, AtHome, Phases;
    match st
    case RunTask => RunTaskPlaced(s, i);
    case FinishTask => FinishTaskPlaced(s, i);
    case KeepStolen => KeepStolenPlaced(s, i);
    case _ =>
  }

  lemma EventMoves(s: System, e: Event, t: Task)
    requires Good(s) && Can(s, e) && t in s.place
    ensures t in Do(s, e).place && Next(s.place[t], Do(s, e).place[t])
    ensures t in s.home ==> t in Do(s, e).home && Do(s, e).home[t] == s.home[t]
  {
    hide Inv, InOrder, At, NoDup, DoOwn, Enabled;
    match e
    case Own(i, st) => OwnMoves(s, i, st, t);
    case TryPlace(u, locks) => TryPlacePlaced(s, u, locks);
    case Steal(thief, from) => StealMoves(s, thief, from, t);
    case _ =>
  }

  lemma StealMoves(s: System, thief: int, from: int, t: Task)
    requires Good(s) && Can(s, Steal(thief, from)) && t in s.place
    ensures t in DoSteal(s, thief, from).place && Next(s.place[t], DoSteal(s, thief, from).place[t])
    ensures DoSteal(s, thief, from).home == s.home
  {
    hide Inv, InOrder, At, NoDup, AtHome, Phases;
    StealPlaced(s, thief, from);
  }

  lemma RunStep(ss: seq<System>, es: seq<Event>, k: nat)
    requires Run(ss, es) && k < |es|
    ensures Good(ss[k]) && Can(ss[k], es[k]) && Do(ss[k], es[k]) == ss[k + 1]
  {
    hide Good;
    RunGood(ss, es, k);
  }

  /** A task that was started stays on its fiber until it completes. */
  lemma {:induction false} StaysOnItsFiber(ss: seq<System>, es: seq<Event>, j: nat, k: nat, t: Task)
    requires Run(ss, es) && j <= k < |ss|
    requires t in ss[j].place && (ss[j].place[t].OnFiber? || ss[j].place[t].Completed?)
    ensures t in ss[k].place && (ss[k].place[t] == ss[j].place[t] || ss[k].place[t] == Completed)
    decreases k
  {
    hide Good, Can, Do, Init;
    if j < k {
      StaysOnItsFiber(ss, es, j, k - 1, t);
      RunStep(ss, es, k - 1);
      EventMoves(ss[k - 1], es[k - 1], t);
    }
  }

  ghost predicate Starts(s: System, e: Event, t: Task) {
    e.Own? && e.st.RunTask? && 0 <= e.i < |s.ws| && s.ws[e.i].tasks != [] && s.ws[e.i].tasks[0] == t
  }

  lemma StartMoves(s: System, e: Event, t: Task)
    requires Good(s) && Can(s, e) && Starts(s, e, t)
    ensures t in s.place && s.place[t] == InQueue(e.i)
    ensures t in Do(s, e).place && Do(s, e).place[t].OnFiber?
  {
    hide Inv, InOrder, At, NoDup, AtHome, Phases;
    RunTaskPlaced(s, e.i);
  }

  /** No task is started twice in a run, on whatever worker. */
  lemma NeverStartedTwice(ss: seq<System>, es: seq<Event>, j: nat, k: nat, t: Task)
    requires Run(ss, es) && j < k < |es|
    requires Starts(ss[j], es[j], t)
    ensures !Starts(ss[k], es[k], t)
  {
    hide Good, Can, Do, Init, Starts;
    RunStep(ss, es, j);
    StartMoves(ss[j], es[j], t);
    StaysOnItsFiber(ss, es, j + 1, k, t);
    RunStep(ss, es, k);
    if Starts(ss[k], es[k], t) { StartMoves(ss[k], es[k], t); }
  }

  lemma {:induction false} Remembered(ss: seq<System>, es: seq<Event>, j: nat, k: nat, t: Task)
    requires Run(ss, es) && j <= k < |ss| && t in ss[j].place
    ensures t in ss[k].place
    ensures t in ss[j].home ==> t in ss[k].home && ss[k].home[t] == ss[j].home[t]
    decreases k
  {
    hide Good, Can, Do, Init;
    if j < k {
      Remembered(ss, es, j, k - 1, t);
      RunStep(ss, es, k - 1);
      EventMoves(ss[k - 1], es[k - 1], t);
    }
  }

  /** Every submitted task is in exactly one place at every moment of a run, read off the queues, the hands of
      thieves, the fibers and the completed set. */
  lemma InExactlyOnePlace(ss: seq<System>, es: seq<Event>, j: nat, k: nat, t: Task)
    requires Run(ss, es) && j <= k < |ss| && t in ss[j].place
    ensures exists p :: At(ss[k], t, p) && forall q :: At(ss[k], t, q) ==> q == p
  {
    hide Inv, InOrder, At, NoDup, AtHome, Phases, Can, Do, Init;
    Remembered(ss, es, j, k, t);
    RunGood(ss, es, k);
    assert At(ss[k], t, ss[k].place[t]);
  }

  // ---------------------------------------------------------------------------------------------
  // Submission
  // ---------------------------------------------------------------------------------------------

  // The submission must stay with a submitter that has no worker.
  predicate Drops(s: System, e: Event, t: Task) {
    e == Submit(t, None) && (t.sameThread || s.count == 0)
  }

  lemma EventDrops(s: System, e: Event, t: Task)
    requires Can(s, e)
    ensures t in Do(s, e).dropped <==> t in s.dropped || Drops(s, e, t)
    ensures Drops(s, e, t) ==> t !in s.place && Do(s, e).place == s.place
  {
    hide Enabled, Stealable, Unlocked, CanHint, DoHint;
  }

  lemma OwnKnowsNoNew(s: System, i: int, st: Step, t: Task)
    requires Good(s) && Can(s, Own(i, st))
    ensures t in DoOwn(s, i, st).place ==> t in s.place
  {
    OwnKeepsTasks(s, i, st);
    hide Good, Can, DoOwn;
    var u := DoOwn(s, i, st);
    assert t in u.place <==> t in u.place.Keys;
  }

  // What an event brings into a first place is not dropped.
  lemma EventPlaces(s: System, e: Event, t: Task)
    requires Good(s) && Can(s, e) && t !in s.place && t in Do(s, e).place
    ensures t !in s.dropped && !Drops(s, e, t)
  {
    EventDrops(s, e, t);
    match e
    case Own(i, st) =>
      OwnKnowsNoNew(s, i, st, t);
      hide Good, Can, DoOwn;
    case TryPlace(u, locks) => TryPlacePlaced(s, u, locks); hide Good;
    case Steal(thief, from) => StealPlaced(s, thief, from); hide Good;
    case _ => hide Good, CanHint, DoHint;
  }

  ghost predicate EverDropped(ss: seq<System>, es: seq<Event>, k: nat, t: Task)
    requires k <= |es| <= |ss|
  {
    exists j :: 0 <= j < k && Drops(ss[j], es[j], t)
  }

  lemma DroppedLater(ss: seq<System>, es: seq<Event>, k: nat, t: Task)
    requires 0 < k <= |es| <= |ss|
    ensures EverDropped(ss, es, k, t) <==> EverDropped(ss, es, k - 1, t) || Drops(ss[k - 1], es[k - 1], t)
  {
    hide Drops;
  }

  ghost predicate DropState(ss: seq<System>, es: seq<Event>, k: nat, t: Task)
    requires k <= |es| < |ss|
  {
    && (t in ss[k].dropped <==> EverDropped(ss, es, k, t))
    && (t in ss[k].dropped ==> t !in ss[k].place)
  }

  lemma DropNext(ss: seq<System>, es: seq<Event>, k: nat, t: Task)
    requires 0 < k <= |es| < |ss| && DropState(ss, es, k - 1, t)
    requires Good(ss[k - 1]) && Can(ss[k - 1], es[k - 1]) && Do(ss[k - 1], es[k - 1]) == ss[k]
    ensures DropState(ss, es, k, t)
  {
    hide Good, Can, Do, Drops;
    DroppedLater(ss, es, k, t);
    hide EverDropped;
    DroppedNext(ss[k - 1], es[k - 1], t);
  }

  lemma {:induction false} DroppedUpTo(ss: seq<System>, es: seq<Event>, k: nat, t: Task)
    requires Run(ss, es) && k <= |es| < |ss|
    ensures DropState(ss, es, k, t)
  {
    hide Run, Init, Good, Can, Do, Drops, EverDropped, DropState;
    LengthOf(ss, es);
    if k == 0 {
      NothingDropped(ss, es, t);
    } else {
      RunStep(ss, es, k - 1);
      DroppedUpTo(ss, es, k - 1, t);
      DropNext(ss, es, k, t);
    }
  }

  lemma NothingDropped(ss: seq<System>, es: seq<Event>, t: Task)
    requires |es| < |ss| && ss[0].dropped == {}
    ensures DropState(ss, es, 0, t)
  {}

  /** In every run, a task has been dropped exactly if its submission had to stay with a submitter without a worker; and
      what has been dropped is nowhere, then and later. */
  lemma DroppedIff(ss: seq<System>, es: seq<Event>, k: nat, t: Task)
    requires Run(ss, es) && k <= |es| < |ss|
    ensures t in ss[k].dropped <==>
            exists j :: 0 <= j < k && es[j] == Submit(t, None) && (t.sameThread || ss[j].count == 0)
    ensures t in ss[k].dropped ==> t !in ss[k].place
  {
    hide Run;
    DroppedUpTo(ss, es, k, t);
    if j :| 0 <= j < k && Drops(ss[j], es[j], t) { assert es[j] == Submit(t, None); }
    if j :| 0 <= j < k && es[j] == Submit(t, None) && (t.sameThread || ss[j].count == 0) {
      assert Drops(ss[j], es[j], t);
    }
  }

  lemma DroppedNext(s: System, e: Event, t: Task)
    requires Good(s) && Can(s, e) && (t in s.dropped ==> t !in s.place)
    ensures t in Do(s, e).dropped <==> t in s.dropped || Drops(s, e, t)
    ensures t in Do(s, e).dropped ==> t !in Do(s, e).place
  {
    hide Good, Can, Do, Drops;
    EventDrops(s, e, t);
    if t !in s.place && t in Do(s, e).place { EventPlaces(s, e, t); }
  }

  lemma LengthOf(ss: seq<System>, es: seq<Event>)
    requires Run(ss, es)
    ensures |ss| == |es| + 1 && ss[0].dropped == {}
  {
    hide Can, Do;
  }

  /** However the counters wrap and whatever others do between the operations of a round, what has been read names an
      existing slot or worker. */
  lemma AimsInRange(ss: seq<System>, es: seq<Event>, k: nat)
    requires Run(ss, es) && k < |ss|
    ensures forall i :: i in ss[k].hints.posts ==> 0 <= ss[k].hints.posts[i] < |ss[k].hints.slots|
    ensures forall t :: t in ss[k].hints.aim ==>
              match ss[k].hints.aim[t]
              case AtSlot(i) => 0 <= i < |ss[k].hints.slots|
              case InTurn => ss[k].count > 0
              case Target(i) => 0 <= i < ss[k].count <= |ss[k].ws|
  {
    hide WorkersOk, Placed, NoDups, AtHome, Phases, Can, Do, Init;
    RunGood(ss, es, k);
  }

  /** A SameThread task never leaves the worker it was submitted on. */
  lemma SameThreadStays(ss: seq<System>, es: seq<Event>, j: nat, k: nat, t: Task, b: int)
    requires Run(ss, es) && j < k < |ss| && es[j] == Submit(t, Some(b)) && t.sameThread
    ensures t in ss[k].place
    ensures match ss[k].place[t]
            case InQueue(i) => i == b
            case OnFiber(i, _) => i == b
            case Completed => true
            case _ => false
  {
    hide WorkersOk, Placed, NoDups, Phases, Init;
    RunStep(ss, es, j);
    assert t in ss[j + 1].place && t in ss[j + 1].home && ss[j + 1].home[t] == b;
    hide Can, Do;
    Remembered(ss, es, j + 1, k, t);
    RunGood(ss, es, k);
  }

  // ---------------------------------------------------------------------------------------------
  // Workers
  // ---------------------------------------------------------------------------------------------

  /** No worker sleeps while something is queued, while it is time to stop, or, before its first task, while a fiber has
      a deadline, unless a notification is on its way; and `num` counts exactly what is queued. */
  lemma SleepersAreOwed(ss: seq<System>, es: seq<Event>, k: nat, i: int)
    requires Run(ss, es) && k < |ss| && 0 <= i < |ss[k].ws|
    ensures var w := ss[k].ws[i];
            && w.num == |w.tasks| + |w.fs.ready|
            && ((w.pc.Sleep? || w.pc.RunSleep?) && w.pc.asleep
                && (|| w.tasks != [] || w.fs.ready != []
                    || (w.pc.Sleep? && w.shutdown && w.blocked == 0)
                    || (w.pc.RunSleep? && (w.shutdown || w.fs.waiting.fibers != map[]))) ==>
                  w.pendingNotify > 0)
  {
    hide Partition, Placed, NoDups, AtHome, Phases, Init, Can, Do, InOrder;
    RunGood(ss, es, k);
  }

  /** When a worker with a thread of its own has shut down, everything put in its queue up to its stop task
      has left the queue, started or stolen. */
  lemma ShutdownComesLast(ss: seq<System>, es: seq<Event>, k: nat, i: int)
    requires Run(ss, es) && k < |ss| && 0 <= i < ss[k].count && i < |ss[k].ws| && ss[k].ws[i].shutdown
    ensures var w := ss[k].ws[i];
            exists n :: 0 <= n < |w.log| - |w.tasks| && w.log[n].action == SetShutdown
                && w.tasks == w.log[|w.log| - |w.tasks|..]
  {
    hide Inv, Placed, NoDups, AtHome, Phases, Init, Can, Do;
    RunGood(ss, es, k);
  }
}
