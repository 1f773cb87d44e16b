/** Every event of the system keeps every task in exactly one place, SameThread tasks at home, and the
    destructor's protocol; hence what holds over whole runs. */
module SystemProofs {
  import opened Wrappers
  import opened Collections
  import opened Workers
  import opened WorkerTasks
  import opened Systems

  // ---------------------------------------------------------------------------------------------
  // Moving one task
  // ---------------------------------------------------------------------------------------------

  lemma Relocated(s: System, u: System, t: Task, p: Place)
    requires Placed(s) && u.place == s.place[t := p]
    requires forall x, q :: At(u, x, q) <==> if x == t then q == p else At(s, x, q)
    ensures Placed(u)
  {
    hide At;
    forall x, q ensures At(u, x, q) <==> x in u.place && u.place[x] == q {
      assert At(s, x, q) <==> x in s.place && s.place[x] == q;
    }
  }

  lemma SameWorkerTasks(s: System, i: int, v: Worker)
    requires 0 <= i < |s.ws| && SameTasks(s.ws[i], v)
    ensures forall t, p :: At(Put(s, i, v), t, p) <==> At(s, t, p)
  {
    hide Carried, InHand;
    var u := Put(s, i, v);
    forall t, p ensures At(u, t, p) <==> At(s, t, p) {
      match p
      case InQueue(j) => assert 0 <= j < |s.ws| ==> u.ws[j].tasks == s.ws[j].tasks;
      case Stolen(j) => assert 0 <= j < |s.ws| ==> InHand(u.ws[j]) == InHand(s.ws[j]);
      case OnFiber(j, f) => assert 0 <= j < |s.ws| ==> Carried(u.ws[j], f) == Carried(s.ws[j], f);
      case _ =>
    }
  }

  lemma NoDupTail(q: seq<Task>)
    requires NoDup(q) && q != []
    ensures NoDup(q[1..]) && forall t :: t in q[1..] <==> t in q && t != q[0]
  {
    forall t ensures t in q[1..] <==> t in q && t != q[0] {
      if t in q[1..] {
        var k :| 0 <= k < |q| - 1 && q[1..][k] == t;
        assert q[k + 1] == t;
      }
    }
  }

  lemma NoDupPush(q: seq<Task>, t: Task)
    requires NoDup(q) && t !in q
    ensures NoDup(q + [t])
  {}

  // A task that was nowhere in the workers is put in queue i.
  lemma PushMoves(s: System, u: System, i: int, v: Worker, t: Task)
    requires Placed(s) && NoDups(s.ws) && 0 <= i < |s.ws|
    requires v.tasks == s.ws[i].tasks + [t] && InHand(v) == InHand(s.ws[i])
    requires forall f :: Carried(v, f) == Carried(s.ws[i], f)
    requires t in s.place ==> s.place[t] == InFlight
    requires u.ws == s.ws[i := v] && u.place == s.place[t := InQueue(i)]
    requires u.flight == s.flight - {t} && u.done == s.done
    ensures Placed(u) && NoDups(u.ws)
  {
    hide Carried, InHand;
    assert !At(s, t, InQueue(i));
    NoDupPush(s.ws[i].tasks, t);
    forall x, q ensures At(u, x, q) <==> if x == t then q == InQueue(i) else At(s, x, q) {
      assert x == t && q != InFlight ==> !At(s, x, q);
      match q
      case InQueue(j) => assert 0 <= j < |s.ws| && j != i ==> u.ws[j] == s.ws[j];
      case Stolen(j) => assert 0 <= j < |s.ws| ==> InHand(u.ws[j]) == InHand(s.ws[j]);
      case OnFiber(j, f) => assert 0 <= j < |s.ws| ==> Carried(u.ws[j], f) == Carried(s.ws[j], f);
      case _ =>
    }
    Relocated(s, u, t, InQueue(i));
  }

  // ---------------------------------------------------------------------------------------------
  // Conservation, event by event
  // ---------------------------------------------------------------------------------------------

  lemma RunTaskPlaced(s: System, i: int)
    requires Placed(s) && NoDups(s.ws) && 0 <= i < |s.ws| && Inv(s.ws[i]) && Enabled(s.ws[i], RunTask)
    ensures Placed(DoOwn(s, i, RunTask)) && NoDups(DoOwn(s, i, RunTask).ws)
    ensures s.ws[i].tasks[0] in s.place && s.place[s.ws[i].tasks[0]] == InQueue(i)
  {
    hide Inv, Carried, InHand;
    var w, u := s.ws[i], DoOwn(s, i, RunTask);
    var t, c := w.tasks[0], w.fs.current;
    RunTaskStarts(w);
    NoDupTail(w.tasks);
    assert At(s, t, InQueue(i));
    forall x, q ensures At(u, x, q) <==> if x == t then q == OnFiber(i, c) else At(s, x, q) {
      assert x == t && q != InQueue(i) ==> !At(s, x, q);
      assert q == OnFiber(i, c) ==> !At(s, x, q);
      match q
      case InQueue(j) => assert 0 <= j < |s.ws| && j != i ==> u.ws[j] == s.ws[j];
      case Stolen(j) => assert 0 <= j < |s.ws| ==> InHand(u.ws[j]) == InHand(s.ws[j]);
      case OnFiber(j, f) => assert 0 <= j < |s.ws| && (j != i || f != c) ==> Carried(u.ws[j], f) == Carried(s.ws[j], f);
      case _ =>
    }
    Relocated(s, u, t, OnFiber(i, c));
  }

  lemma FinishTaskPlaced(s: System, i: int)
    requires Placed(s) && NoDups(s.ws) && 0 <= i < |s.ws| && Inv(s.ws[i]) && Enabled(s.ws[i], FinishTask)
    ensures Placed(DoOwn(s, i, FinishTask)) && NoDups(DoOwn(s, i, FinishTask).ws)
    ensures var t := s.ws[i].pc.carry.value; t in s.place && s.place[t] == OnFiber(i, s.ws[i].fs.current)
  {
    hide Inv, Carried, InHand;
    var w, u := s.ws[i], DoOwn(s, i, FinishTask);
    var t, c := w.pc.carry.value, w.fs.current;
    FinishTaskFinishes(w);
    assert At(s, t, OnFiber(i, c));
    forall x, q ensures At(u, x, q) <==> if x == t then q == Completed else At(s, x, q) {
      assert x == t && q != OnFiber(i, c) ==> !At(s, x, q);
      match q
      case InQueue(j) => assert 0 <= j < |s.ws| ==> u.ws[j].tasks == s.ws[j].tasks;
      case Stolen(j) => assert 0 <= j < |s.ws| ==> InHand(u.ws[j]) == InHand(s.ws[j]);
      case OnFiber(j, f) =>
        assert 0 <= j < |s.ws| && (j != i || f != c) ==> Carried(u.ws[j], f) == Carried(s.ws[j], f);
        assert j == i && f == c ==> (At(s, x, q) <==> x == t);
      case _ =>
    }
    Relocated(s, u, t, Completed);
  }

  lemma KeepStolenPlaced(s: System, i: int)
    requires Placed(s) && NoDups(s.ws) && 0 <= i < |s.ws| && s.ws[i].pc.SpinStolen?
    ensures Placed(DoOwn(s, i, KeepStolen)) && NoDups(DoOwn(s, i, KeepStolen).ws)
    ensures s.ws[i].pc.stolen in s.place && s.place[s.ws[i].pc.stolen] == Stolen(i)
  {
    var w, u := s.ws[i], DoOwn(s, i, KeepStolen);
    var t := w.pc.stolen;
    assert At(s, t, Stolen(i));
    assert !At(s, t, InQueue(i));
    NoDupPush(w.tasks, t);
    assert InHand(u.ws[i]) == None && forall f :: Carried(u.ws[i], f) == Carried(w, f);
    hide Carried, InHand;
    forall x, q ensures At(u, x, q) <==> if x == t then q == InQueue(i) else At(s, x, q) {
      assert x == t && q != Stolen(i) ==> !At(s, x, q);
      assert x != t ==> !At(s, x, Stolen(i));
      match q
      case InQueue(j) => assert 0 <= j < |s.ws| && j != i ==> u.ws[j] == s.ws[j];
      case Stolen(j) => assert 0 <= j < |s.ws| && j != i ==> u.ws[j] == s.ws[j];
      case OnFiber(j, f) => assert 0 <= j < |s.ws| ==> Carried(u.ws[j], f) == Carried(s.ws[j], f);
      case _ =>
    }
    Relocated(s, u, t, InQueue(i));
  }

  lemma StealPlaced(s: System, thief: int, from: int)
    requires Placed(s) && NoDups(s.ws) && Can(s, Steal(thief, from))
    ensures Placed(DoSteal(s, thief, from)) && NoDups(DoSteal(s, thief, from).ws)
    ensures var v := from % s.count; s.ws[v].tasks[0] in s.place && s.place[s.ws[v].tasks[0]] == InQueue(v)
  {
    var u, v := DoSteal(s, thief, from), from % s.count;
    var t := s.ws[v].tasks[0];
    NoDupTail(s.ws[v].tasks);
    assert At(s, t, InQueue(v));
    assert forall j, f :: 0 <= j < |s.ws| ==> Carried(u.ws[j], f) == Carried(s.ws[j], f);
    assert forall j :: 0 <= j < |s.ws| && j != thief ==> InHand(u.ws[j]) == InHand(s.ws[j]);
    assert InHand(u.ws[thief]) == Some(t) && InHand(s.ws[thief]) == None;
    assert forall j :: 0 <= j < |s.ws| && j != v ==> u.ws[j].tasks == s.ws[j].tasks;
    hide Carried, InHand, Stealable;
    forall x, q ensures At(u, x, q) <==> if x == t then q == Stolen(thief) else At(s, x, q) {
      assert x == t && q != InQueue(v) ==> !At(s, x, q);
      match q
      case Stolen(j) => assert j == thief ==> !At(s, x, q);
      case _ =>
    }
    Relocated(s, u, t, Stolen(thief));
  }

  lemma OwnPlaced(s: System, i: int, st: Step)
    requires Placed(s) && NoDups(s.ws) && Can(s, Own(i, st)) && Inv(s.ws[i])
    ensures Placed(DoOwn(s, i, st)) && NoDups(DoOwn(s, i, st).ws)
  {
    hide Inv, At, NoDup;
    match st
    case RunTask => RunTaskPlaced(s, i);
    case FinishTask => FinishTaskPlaced(s, i);
    case KeepStolen => KeepStolenPlaced(s, i);
    case _ => OtherPlaced(s, i, st);
  }

  lemma OtherPlaced(s: System, i: int, st: Step)
    requires Placed(s) && NoDups(s.ws) && Can(s, Own(i, st)) && Inv(s.ws[i])
    requires !st.RunTask? && !st.FinishTask? && !st.KeepStolen?
    ensures Placed(DoOwn(s, i, st)) && NoDups(DoOwn(s, i, st).ws)
  {
    hide Inv, NoDup, Apply, Enabled, InHand, Carried;
    var u, v := DoOwn(s, i, st), Apply(s.ws[i], st);
    OtherStepsKeepTasks(s.ws[i], st);
    SameWorkerTasks(s, i, v);
    assert forall t, p :: At(u, t, p) <==> At(Put(s, i, v), t, p);
  }

  lemma BystanderPlaced(s: System, i: int, v: Worker)
    requires Placed(s) && NoDups(s.ws) && 0 <= i < |s.ws| && SameTasks(s.ws[i], v)
    ensures Placed(Put(s, i, v)) && NoDups(Put(s, i, v).ws)
  {
    hide NoDup, InHand, Carried;
    SameWorkerTasks(s, i, v);
  }

  lemma NotifySameTasks(w: Worker, f: int)
    requires f in w.fs.tag
    ensures SameTasks(w, PushFiber(w, f))
  {}

  lemma DeliverSameTasks(w: Worker)
    requires w.pendingNotify > 0
    ensures SameTasks(w, Deliver(w))
  {}

  lemma BindPlaced(s: System)
    requires Placed(s) && NoDups(s.ws)
    ensures Placed(s.(ws := s.ws + [Start(SingleThreaded)])) && NoDups(s.ws + [Start(SingleThreaded)])
  {
    var u := s.(ws := s.ws + [Start(SingleThreaded)]);
    assert InHand(u.ws[|s.ws|]) == None && forall f :: Carried(u.ws[|s.ws|], f) == None;
    hide InHand, Carried;
    forall t, p ensures At(u, t, p) <==> At(s, t, p) {
      match p
      case InQueue(j) => assert 0 <= j < |s.ws| ==> u.ws[j] == s.ws[j];
      case Stolen(j) => assert 0 <= j < |s.ws| ==> u.ws[j] == s.ws[j];
      case OnFiber(j, f) => assert 0 <= j < |s.ws| ==> u.ws[j] == s.ws[j];
      case _ =>
    }
  }
}
