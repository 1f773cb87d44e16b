/** What guides submission, over whole runs: each slot and worker follows from how often the counters were used, a hint
    is used once, the last worker that began to spin is tried first, and otherwise the workers take turns. */
module SystemHints {
  import opened Wrappers
  import opened Workers
  import opened Systems
  import opened SystemRuns
  import opened SystemTheorems

  // ---------------------------------------------------------------------------------------------
  // The operations
  // ---------------------------------------------------------------------------------------------

  /** A worker takes the number of a slot exactly when it begins to spin. */
  predicate Begins(s: System, e: Event) {
    match e
    case Own(i, EnterWait) => 0 <= i < |s.ws| && s.ws[i].num <= 0 && s.ws[i].mode.MultiThreaded?
    case _ => false
  }

  predicate TakesTurn(e: Event) {
    e.Hint? && e.h.TakeTurn?
  }

  lemma SpinBegins(s: System, i: int, st: Step)
    requires Can(s, Own(i, st)) && !s.ws[i].pc.Spin?
    ensures DoOwn(s, i, st).ws[i].pc.Spin? <==> Begins(s, Own(i, st))
  {
    EnterSpins(s.ws[i], st);
    hide Apply, Enabled;
  }

  lemma EnterSpins(w: Worker, st: Step)
    requires Enabled(w, st) && !w.pc.Spin?
    ensures Apply(w, st).pc.Spin? <==> st.EnterWait? && w.num <= 0 && w.mode.MultiThreaded?
  {
    hide DueQueued, Switched, Created, Idled, SetAside, Resumed, SavedAt;
  }

  lemma BeginsPosts(s: System, e: Event)
    requires Can(s, e)
    ensures Begins(s, e) ==>
              && Do(s, e).hints == s.hints.(spinIdx := (s.hints.spinIdx + 1) % U32,
                                            posts := s.hints.posts[e.i := s.hints.spinIdx % s.count])
    ensures !Begins(s, e) && !e.Hint? && !e.TryPlace? ==> Do(s, e).hints == s.hints
    ensures e.TryPlace? ==> Do(s, e).hints == s.hints.(aim := s.hints.aim - {e.t})
    ensures Do(s, e).count == s.count
  {
    hide Apply, Enabled, Stealable, Unlocked, CanHint, DoHint;
  }

  /** A submitter that finds a worker in its slot aims at that worker, and the slot is empty then; otherwise it is to
      take its turn. No other slot changes. */
  lemma HintTaken(h: Hints, count: int, t: Task)
    requires CanHint(h, count, {}, TakeHint(t))
    ensures var u, i := DoHint(h, count, TakeHint(t)), h.aim[t].i;
            && |u.slots| == |h.slots| && u.slots[i] == -1
            && (forall x :: 0 <= x < |h.slots| && x != i ==> u.slots[x] == h.slots[x])
            && t in u.aim && u.aim[t] == (if h.slots[i] >= 0 then Target(h.slots[i]) else InTurn)
            && u.spinIdx == h.spinIdx && u.enqIdx == h.enqIdx
  {}

  /** With nobody in between, the worker that began to spin last is the one that the next submission tries, however the
      counter wraps. */
  lemma LastSpinnerFirst(ss: seq<System>, es: seq<Event>, k: nat, i: int, t: Task)
    requires Run(ss, es) && k + 4 <= |es| && Begins(ss[k], Own(i, EnterWait)) && es[k] == Own(i, EnterWait)
    requires es[k + 1] == Hint(Post(i)) && es[k + 2] == Hint(AimSlot(t)) && es[k + 3] == Hint(TakeHint(t))
    ensures |ss| == |es| + 1 && t in ss[k + 4].hints.aim && ss[k + 4].hints.aim[t] == Target(i)
  {
    hide Run, Init, Good, Can, Do, Begins;
    LengthOf(ss, es);
    RunStep(ss, es, k);
    RunStep(ss, es, k + 1);
    RunStep(ss, es, k + 2);
    RunStep(ss, es, k + 3);
    FourEvents(ss[k], ss[k + 1], ss[k + 2], ss[k + 3], i, t);
  }

  lemma FourEvents(s: System, a: System, b: System, c: System, i: int, t: Task)
    requires Good(s) && Can(s, Own(i, EnterWait)) && Begins(s, Own(i, EnterWait)) && Do(s, Own(i, EnterWait)) == a
    requires Can(a, Hint(Post(i))) && Do(a, Hint(Post(i))) == b
    requires Can(b, Hint(AimSlot(t))) && Do(b, Hint(AimSlot(t))) == c && Can(c, Hint(TakeHint(t)))
    ensures var u := Do(c, Hint(TakeHint(t))); t in u.hints.aim && u.hints.aim[t] == Target(i)
  {
    BeginsPosts(s, Own(i, EnterWait));
    HintsInRange(s);
    BeginsInRange(s, i);
    BackToSlot(s.hints.spinIdx, s.count);
    HintIs(a, Post(i));
    HintIs(b, AimSlot(t));
    HintIs(c, TakeHint(t));
    hide Good, Can, Do, Begins;
  }

  lemma BeginsInRange(s: System, i: int)
    requires Good(s) && Begins(s, Own(i, EnterWait))
    ensures 0 <= i < s.count && s.hints.spinIdx >= 0
  {}

  lemma HintsInRange(s: System)
    requires Good(s)
    ensures HintsOk(s.hints, s.count) && (forall i :: i in s.hints.posts ==> 0 <= i < s.count)
    ensures forall i :: 0 <= i < |s.ws| && s.ws[i].mode.MultiThreaded? ==> 0 <= i < s.count
  {}

  lemma BackToSlot(spin: int, count: int)
    requires 0 <= spin < U32
    ensures ((spin + 1) % U32 - 1) % U32 == spin
  {}

  lemma HintIs(s: System, h: HintStep)
    requires Can(s, Hint(h))
    ensures CanHint(s.hints, s.count, s.flight, h) && Do(s, Hint(h)) == s.(hints := DoHint(s.hints, s.count, h))
  {}

  // ---------------------------------------------------------------------------------------------
  // A hint is used once
  // ---------------------------------------------------------------------------------------------

  // The event writes w into slot i.
  predicate Posts(s: System, e: Event, i: int, w: int) {
    e == Hint(Post(w)) && w in s.hints.posts && s.hints.posts[w] == i
  }

  lemma SlotChanges(s: System, e: Event, i: int)
    requires Good(s) && Can(s, e) && 0 <= i < |s.hints.slots|
    ensures var u := Do(s, e).hints;
            && |u.slots| == |s.hints.slots|
            && (u.slots[i] == s.hints.slots[i] || u.slots[i] == -1 || Posts(s, e, i, u.slots[i]))
  {
    if e.Hint? { HintIs(s, e.h); } else { BeginsPosts(s, e); }
    hide Good, Do, Can, Begins;
  }

  /** Whoever is found in a slot that was empty has begun to spin since, and written that slot. */
  lemma {:induction false} HintWasPosted(ss: seq<System>, es: seq<Event>, j: nat, k: nat, i: int) returns (m: nat)
    requires Run(ss, es) && j <= k < |ss| && 0 <= i < |ss[j].hints.slots| && ss[j].hints.slots[i] == -1
    requires i < |ss[k].hints.slots| && ss[k].hints.slots[i] != -1
    ensures j <= m < k && m < |es| && Posts(ss[m], es[m], i, ss[k].hints.slots[i])
    decreases k
  {
    hide Good, Can, Do, Init, Posts;
    RunStep(ss, es, k - 1);
    SlotsStay(ss, es, j, k - 1);
    SlotChanges(ss[k - 1], es[k - 1], i);
    if Posts(ss[k - 1], es[k - 1], i, ss[k].hints.slots[i]) { m := k - 1; }
    else { m := HintWasPosted(ss, es, j, k - 1, i); }
  }

  lemma {:induction false} SlotsStay(ss: seq<System>, es: seq<Event>, j: nat, k: nat)
    requires Run(ss, es) && j <= k < |ss|
    ensures |ss[k].hints.slots| == |ss[j].hints.slots|
    decreases k
  {
    hide Good, Can, Do, Init;
    if j < k {
      SlotsStay(ss, es, j, k - 1);
      RunStep(ss, es, k - 1);
      SameSlots(ss[k - 1], es[k - 1]);
    }
  }

  lemma SameSlots(s: System, e: Event)
    requires Can(s, e)
    ensures |Do(s, e).hints.slots| == |s.hints.slots|
  {
    if e.Hint? { HintIs(s, e.h); } else { BeginsPosts(s, e); }
    hide Can, Do, Begins;
  }

  /** Two submitters that find a worker in the same slot have found two different hints: between them one has been
      written there, and it is what the second one found. */
  lemma HintUsedOnce(ss: seq<System>, es: seq<Event>, j: nat, k: nat, x: Task, y: Task, i: int, w: int)
    requires Run(ss, es) && j < k < |es| && es[j] == Hint(TakeHint(x)) && es[k] == Hint(TakeHint(y))
    requires |ss| == |es| + 1 && x in ss[j].hints.aim && ss[j].hints.aim[x] == AtSlot(i)
    requires y in ss[k].hints.aim && ss[k].hints.aim[y] == AtSlot(i)
    requires y in ss[k + 1].hints.aim && ss[k + 1].hints.aim[y] == Target(w)
    ensures exists m :: j < m < k && Posts(ss[m], es[m], i, w)
  {
    RunStep(ss, es, j);
    RunStep(ss, es, k);
    HintIs(ss[j], TakeHint(x));
    HintIs(ss[k], TakeHint(y));
    hide Good, Can, Do, Init;
    assert 0 <= i < |ss[j].hints.slots| && 0 <= i < |ss[k].hints.slots|;
    assert ss[k].hints.slots[i] == w >= 0 && ss[j + 1].hints.slots[i] == -1;
    hide CanHint, DoHint, Posts;
    var m := HintWasPosted(ss, es, j + 1, k, i);
  }

  // ---------------------------------------------------------------------------------------------
  // Counting
  // ---------------------------------------------------------------------------------------------

  // How often workers have begun to spin, submitters have looked for a slot, and have taken their turn.
  ghost function Begun(ss: seq<System>, es: seq<Event>, k: nat): int
    requires k <= |es| <= |ss|
  {
    if k == 0 then 0 else Begun(ss, es, k - 1) + if Begins(ss[k - 1], es[k - 1]) then 1 else 0
  }

  function Aimed(es: seq<Event>, k: nat): int
    requires k <= |es|
  {
    if k == 0 then 0 else Aimed(es, k - 1) + if es[k - 1].Hint? && es[k - 1].h.AimSlot? then 1 else 0
  }

  function Turns(es: seq<Event>, k: nat): int
    requires k <= |es|
  {
    if k == 0 then 0 else Turns(es, k - 1) + if TakesTurn(es[k - 1]) then 1 else 0
  }

  lemma CounterStep(s: System, e: Event)
    requires Can(s, e)
    ensures Do(s, e).hints.spinIdx
            == (if Begins(s, e) then (s.hints.spinIdx + 1) % U32
                else if e.Hint? && e.h.AimSlot? then (s.hints.spinIdx - 1) % U32 else s.hints.spinIdx)
    ensures Do(s, e).hints.enqIdx == if TakesTurn(e) then (s.hints.enqIdx + 1) % U32 else s.hints.enqIdx
  {
    if e.Hint? { HintIs(s, e.h); } else { BeginsPosts(s, e); }
    hide Can, Do;
  }

  lemma Modulo(a: int, b: int)
    ensures (a % U32 + b) % U32 == (a + b) % U32
  {
    var q := a / U32;
    assert a % U32 + b == (a + b) - q * U32;
    Multiples(a + b, q);
  }

  lemma Multiples(x: int, q: int)
    ensures (x - q * U32) % U32 == x % U32
  {}

  /** Both counters follow from how often they were used, modulo 2^32. */
  lemma {:induction false} CountersAre(ss: seq<System>, es: seq<Event>, k: nat)
    requires Run(ss, es) && k <= |es| < |ss|
    ensures ss[k].hints.spinIdx == (0x800_0000 + Begun(ss, es, k) - Aimed(es, k)) % U32
    ensures ss[k].hints.enqIdx == Turns(es, k) % U32
  {
    hide Run, Init, Good, Can, Do, Begins, TakesTurn;
    if k == 0 {
      StartsEven(ss, es);
    } else {
      CountersAre(ss, es, k - 1);
      RunStep(ss, es, k - 1);
      CounterStep(ss[k - 1], es[k - 1]);
      BeginsNoHint(ss[k - 1], es[k - 1]);
      var a := 0x800_0000 + Begun(ss, es, k - 1) - Aimed(es, k - 1);
      Modulo(a, 1);
      Modulo(a, -1);
      Modulo(Turns(es, k - 1), 1);
    }
  }

  lemma BeginsNoHint(s: System, e: Event)
    ensures Begins(s, e) ==> !e.Hint?
  {}

  lemma StartsEven(ss: seq<System>, es: seq<Event>)
    requires Run(ss, es)
    ensures ss[0].hints.spinIdx == 0x800_0000 && ss[0].hints.enqIdx == 0
  {
    hide Can, Do;
  }

  /** The submitters that find no hint take the workers in turn: the n-th of them takes worker n modulo 2^32 modulo the
      number of workers. */
  lemma WorkersTakeTurns(ss: seq<System>, es: seq<Event>, k: nat, t: Task)
    requires Run(ss, es) && k < |es| < |ss| && es[k] == Hint(TakeTurn(t))
    ensures ss[k].count > 0 && t in ss[k + 1].hints.aim
    ensures ss[k + 1].hints.aim[t] == Target(Turns(es, k) % U32 % ss[k].count)
  {
    hide Run, Init, Good, Begun, Aimed, Turns;
    CountersAre(ss, es, k);
    RunStep(ss, es, k);
    hide Can, Do;
    HintIs(ss[k], TakeTurn(t));
  }

  /** The slot that a worker about to spin is to write, and the one that a submitter looks at. */
  lemma SlotsAre(ss: seq<System>, es: seq<Event>, k: nat)
    requires Run(ss, es) && k < |es| < |ss| && ss[k].count > 0
    ensures Begins(ss[k], es[k]) ==>
              && es[k].i in ss[k + 1].hints.posts
              && ss[k + 1].hints.posts[es[k].i]
                 == (0x800_0000 + Begun(ss, es, k) - Aimed(es, k)) % U32 % ss[k].count
    ensures es[k].Hint? && es[k].h.AimSlot? ==>
              && es[k].h.t in ss[k + 1].hints.aim
              && ss[k + 1].hints.aim[es[k].h.t]
                 == AtSlot((0x800_0000 + Begun(ss, es, k) - Aimed(es, k) - 1) % U32 % ss[k].count)
  {
    hide Run, Init, Good, Can, Do, Begins, Begun, Aimed, Turns;
    CountersAre(ss, es, k);
    RunStep(ss, es, k);
    SlotsFrom(ss[k], es[k], 0x800_0000 + Begun(ss, es, k) - Aimed(es, k));
  }

  lemma SlotsFrom(s: System, e: Event, n: int)
    requires Can(s, e) && s.count > 0 && s.hints.spinIdx == n % U32
    ensures Begins(s, e) ==>
              && e.i in Do(s, e).hints.posts && Do(s, e).hints.posts[e.i] == n % U32 % s.count
    ensures e.Hint? && e.h.AimSlot? ==>
              && e.h.t in Do(s, e).hints.aim && Do(s, e).hints.aim[e.h.t] == AtSlot((n - 1) % U32 % s.count)
  {
    if e.Hint? { HintIs(s, e.h); } else { BeginsPosts(s, e); }
    Modulo(n, -1);
    hide Can, Do;
  }
}
