/** Waits over whole runs: deadlines are kept and met, and what a worker does when it has nothing to wait for. */
module SystemWaits {
  import opened Wrappers
  import opened Timeouts
  import opened Workers
  import opened WorkerProofs
  import opened Systems
  import opened SystemRuns
  import opened SystemTheorems

  // ---------------------------------------------------------------------------------------------
  // Deadlines
  // ---------------------------------------------------------------------------------------------

  // The deadlines of fibers that go on waiting are the same.
  ghost predicate SameDeadlines(p: Fibers, q: Fibers) {
    forall f :: f in p.waiting.fibers && f in q.waiting.fibers ==> q.waiting.fibers[f] == p.waiting.fibers[f]
  }

  lemma StepDeadlines(w: Worker, st: Step)
    requires Inv(w) && Enabled(w, st)
    ensures SameDeadlines(w.fs, Apply(w, st).fs)
  {
    hide Counters, Wakeful;
    match st
    case MoveTimeouts(now) => DueDeadlines(w, now);
    case SuspendTask(deadline) => SuspendDeadlines(w, deadline);
    case _ => OtherDeadlines(w, st);
  }

  lemma DueDeadlines(w: Worker, now: Time)
    requires Inv(w) && w.pc.MoveDue?
    ensures SameDeadlines(w.fs, DoMoveTimeouts(w, now).fs)
  {
    TagFacts(w);
    hide Inv;
    DrainedCorrect(w.fs.waiting, now);
    hide Due, Drained, Consistent;
  }

  lemma SuspendDeadlines(w: Worker, deadline: Option<Time>)
    requires Inv(w) && w.pc.InTask?
    ensures SameDeadlines(w.fs, DoSuspendTask(w, deadline).fs)
    ensures match deadline
            case Some(t) => DoSuspendTask(w, deadline).fs.waiting.fibers == w.fs.waiting.fibers[w.fs.current := t]
            case None => DoSuspendTask(w, deadline).fs.waiting == w.fs.waiting
  {
    TagFacts(w);
    hide Inv, Insert;
  }

  lemma OtherDeadlines(w: Worker, st: Step)
    requires Enabled(w, st) && !st.MoveTimeouts? && !st.SuspendTask?
    ensures Apply(w, st).fs.waiting == w.fs.waiting
  {}

  lemma PushDeadlines(w: Worker, f: int)
    requires f in w.fs.tag
    ensures SameDeadlines(w.fs, PushFiber(w, f).fs)
  {
    hide Remove;
  }

  lemma EventDeadlines(s: System, e: Event, i: int)
    requires Good(s) && Can(s, e) && 0 <= i < |s.ws|
    ensures i < |Do(s, e).ws| && SameDeadlines(s.ws[i].fs, Do(s, e).ws[i].fs)
  {
    hide Good, SameDeadlines, Can, Do;
    match e
    case Own(j, st) => OwnDeadlines(s, j, st, i);
    case Notify(j, f) => NotifyDeadlines(s, j, f, i);
    case _ => OthersKeepFibers(s, e, i); SameFibers(s.ws[i].fs);
  }

  lemma SameFibers(p: Fibers)
    ensures SameDeadlines(p, p)
  {}

  lemma OwnDeadlines(s: System, j: int, st: Step, i: int)
    requires Good(s) && Can(s, Own(j, st)) && 0 <= i < |s.ws|
    ensures var u := Do(s, Own(j, st)); i < |u.ws| && SameDeadlines(s.ws[i].fs, u.ws[i].fs)
  {
    assert Inv(s.ws[j]);
    StepDeadlines(s.ws[j], st);
    SameFibers(s.ws[i].fs);
    hide Good, Inv, Apply, Enabled, SameDeadlines;
  }

  lemma NotifyDeadlines(s: System, j: int, f: int, i: int)
    requires Can(s, Notify(j, f)) && 0 <= i < |s.ws|
    ensures var u := Do(s, Notify(j, f)); i < |u.ws| && SameDeadlines(s.ws[i].fs, u.ws[i].fs)
  {
    PushDeadlines(s.ws[j], f);
    SameFibers(s.ws[i].fs);
    hide PushFiber, SameDeadlines;
  }

  lemma OthersKeepFibers(s: System, e: Event, i: int)
    requires Can(s, e) && !e.Own? && !e.Notify? && 0 <= i < |s.ws|
    ensures i < |Do(s, e).ws| && Do(s, e).ws[i].fs == s.ws[i].fs
  {
    hide StaysWithSubmitter, Stealable, Unlocked, DoOwn, Enabled, CanHint, DoHint;
  }

  // The fiber waits on worker i, with a deadline.
  predicate WaitsTimed(s: System, i: int, f: int) {
    0 <= i < |s.ws| && f in s.ws[i].fs.waiting.fibers
  }

  lemma BeginsTimed(s: System, i: int, t: Time)
    requires Good(s) && Can(s, Own(i, SuspendTask(Some(t))))
    ensures var u, f := Do(s, Own(i, SuspendTask(Some(t)))), s.ws[i].fs.current;
            WaitsTimed(u, i, f) && u.ws[i].fs.waiting.fibers[f] == t
  {
    assert Inv(s.ws[i]);
    SuspendDeadlines(s.ws[i], Some(t));
    hide Good, Inv, DoSuspendTask;
  }

  /** As long as a fiber goes on waiting, its deadline is the one it was suspended with. */
  lemma {:induction false} DeadlineKept(ss: seq<System>, es: seq<Event>, j: nat, k: nat, i: int, f: int, t: Time)
    requires Run(ss, es) && j < k < |ss| && j < |es| && es[j] == Own(i, SuspendTask(Some(t)))
    requires 0 <= i < |ss[j].ws| && f == ss[j].ws[i].fs.current
    requires forall m :: j < m <= k ==> WaitsTimed(ss[m], i, f)
    ensures WaitsTimed(ss[k], i, f) && ss[k].ws[i].fs.waiting.fibers[f] == t
    decreases k
  {
    hide Good, Can, Do, Init, SameDeadlines;
    RunStep(ss, es, k - 1);
    if j == k - 1 {
      BeginsTimed(ss[j], i, t);
    } else {
      DeadlineKept(ss, es, j, k - 1, i, f, t);
      EventDeadlines(ss[k - 1], es[k - 1], i);
      Same(ss[k - 1].ws[i].fs, ss[k].ws[i].fs, f);
    }
  }

  lemma Same(p: Fibers, q: Fibers, f: int)
    requires SameDeadlines(p, q) && f in p.waiting.fibers && f in q.waiting.fibers
    ensures q.waiting.fibers[f] == p.waiting.fibers[f]
  {}

  /** A fiber that still waits since it was suspended with deadline t is put in the queue when its worker looks at the
      deadlines, exactly if t has passed; otherwise it goes on waiting until t. */
  lemma QueuedWhenDue(ss: seq<System>, es: seq<Event>, j: nat, k: nat, i: int, f: int, t: Time, now: Time)
    requires Run(ss, es) && j < k < |es| < |ss| && es[j] == Own(i, SuspendTask(Some(t)))
    requires 0 <= i < |ss[j].ws| && f == ss[j].ws[i].fs.current
    requires forall m :: j < m <= k ==> WaitsTimed(ss[m], i, f)
    requires es[k] == Own(i, MoveTimeouts(now))
    ensures f !in ss[k].ws[i].fs.ready
    ensures i < |ss[k + 1].ws| && (f in ss[k + 1].ws[i].fs.ready <==> t <= now)
    ensures t > now ==> WaitsTimed(ss[k + 1], i, f) && ss[k + 1].ws[i].fs.waiting.fibers[f] == t
  {
    DeadlineKept(ss, es, j, k, i, f, t);
    RunStep(ss, es, k);
    hide Run;
    assert Inv(ss[k].ws[i]);
    MoveQueues(ss[k].ws[i], now, f);
    hide Good, Inv, DoMoveTimeouts;
  }

  lemma MoveQueues(w: Worker, now: Time, f: int)
    requires Inv(w) && w.pc.MoveDue? && f in w.fs.waiting.fibers
    ensures f !in w.fs.ready
    ensures var u := DoMoveTimeouts(w, now).fs;
            && (f in u.ready <==> w.fs.waiting.fibers[f] <= now)
            && (w.fs.waiting.fibers[f] > now ==> f in u.waiting.fibers && u.waiting.fibers[f] == w.fs.waiting.fibers[f])
  {
    TagFacts(w);
    assert f !in w.fs.ready;
    hide Inv;
    DueCorrect(w.fs.waiting, now);
    DrainedCorrect(w.fs.waiting, now);
    hide Due, Drained, Consistent;
  }

  /** The sleep of waitForWork() ends with something queued, when it is time to stop, or at a deadline of a fiber. */
  lemma SleepEnds(w: Worker, expired: bool)
    requires Enabled(w, RecheckWait(expired))
    ensures Apply(w, RecheckWait(expired)).pc.MoveDue? <==>
            w.num > 0 || (w.shutdown && w.blocked == 0) || (expired && w.fs.waiting.fibers != map[])
  {}

  /** runUntilIdle() runs all ready fibers before it starts a task, and ends only with neither. */
  lemma IdleOrder(w: Worker, st: Step)
    requires w.pc.IdleLoop?
    ensures Enabled(w, st) <==>
            || (w.fs.ready != [] && st.RunReady?)
            || (w.fs.ready == [] && w.tasks != [] && st.RunTask?)
            || (w.fs.ready == [] && w.tasks == [] && st.EndIdle?)
  {}
}
