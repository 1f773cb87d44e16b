/** The graph that Event::any() builds. In a program of manual events that are never cleared, once nobody is
    inside signal() or any(), an event is signalled exactly when it, or an event it was made from directly or
    indirectly, was signalled directly (include/hfts/event.hpp). */
module EventGraph {
  import opened Events
  import opened EventLocks
  import opened EventWakeups
  import opened EventWakeSteps
  import opened EventTheorems

  // ---------------------------------------------------------------------------------------------
  // Sources and dependents
  // ---------------------------------------------------------------------------------------------

  function SourcesOf(ev: seq<Prim>, m: int): seq<int> {
    if 0 <= m < |ev| then ev[m].sources else []
  }

  predicate Signalled(ev: seq<Prim>, e: int) {
    0 <= e < |ev| && ev[e].signalled
  }

  predicate StackSourced(ev: seq<Prim>, st: Stack) {
    st.Push? ==>
      && (st.top.ph.ALock? || st.top.ph.APush? ==> st.top.e in SourcesOf(ev, st.top.ph.new_))
      && StackSourced(ev, st.below)
  }

  predicate PcSourced(ev: seq<Prim>, p: Pc) {
    match p
    case Sig(st, ret) => StackSourced(ev, st) && (ret.ToAny? ==> forall x :: x in ret.rest ==>
                                                  x in SourcesOf(ev, ret.made))
    case AnyNext(m, rest) => forall x :: x in rest ==> x in SourcesOf(ev, m)
    case _ => true
  }

  /** Every edge leads from a source to the event made from it. */
  ghost predicate Sourced(s: State) {
    && (forall x, m {:trigger m in s.ev[x].deps} :: Known(s, x) && m in s.ev[x].deps ==>
        Known(s, m) && x in s.ev[m].sources)
    && (forall m, x {:trigger x in s.ev[m].sources} :: Known(s, m) && x in s.ev[m].sources ==> 0 <= x < m)
    && forall a :: PcSourced(s.ev, At(s, a))
  }

  predicate StackBuilds(st: Stack, x: int, m: int) {
    st.Push? && (st.top == Frame(x, ALock(m)) || st.top == Frame(x, APush(m)) || StackBuilds(st.below, x, m))
  }

  // The agent is inside any(), which has yet to add m to the dependents of x.
  predicate Building(p: Pc, x: int, m: int) {
    match p
    case Sig(st, ret) => StackBuilds(st, x, m) || (ret.ToAny? && ret.made == m && x in ret.rest)
    case AnyNext(made, rest) => made == m && x in rest
    case _ => false
  }

  /** Every source has its edge, or any() is still about to add it. */
  ghost predicate Built(s: State) {
    forall m, x :: Known(s, m) && x in s.ev[m].sources ==>
      Known(s, x) && (m in s.ev[x].deps || exists a :: Building(At(s, a), x, m))
  }

  // ---------------------------------------------------------------------------------------------
  // Signals that are still on their way
  // ---------------------------------------------------------------------------------------------

  // A frame will signal d; over is the event whose signal() it has called and not yet entered.
  predicate FrameCovers(ev: seq<Prim>, f: Frame, over: int, e: int, d: int) {
    && f.e == e && 0 <= e < |ev|
    && match f.ph
       case SCv => true
       case SNotify(_) => true
       case SCond => true
       case SDeps(i) => over == d || (exists j :: 0 <= i <= j < |ev[e].deps| && ev[e].deps[j] == d)
       case _ => false
  }

  function Entering(f: Frame): int {
    if f.ph.SLock? then f.e else -1
  }

  predicate Covers(ev: seq<Prim>, st: Stack, over: int, e: int, d: int) {
    st.Push? && (FrameCovers(ev, st.top, over, e, d) || Covers(ev, st.below, Entering(st.top), e, d))
  }

  // The agent has signalled e and will signal d on its behalf.
  predicate PcCovers(ev: seq<Prim>, p: Pc, e: int, d: int) {
    p.Sig? && Covers(ev, p.stack, -1, e, d)
  }

  /** A dependent of a signalled event is signalled, or about to be. */
  ghost predicate Closed(s: State) {
    forall e, d {:trigger d in s.ev[e].deps} :: Known(s, e) && s.ev[e].signalled && d in s.ev[e].deps && Known(s, d) ==>
      s.ev[d].signalled || exists a :: PcCovers(s.ev, At(s, a), e, d)
  }

  predicate AllLit(ev: seq<Prim>, st: Stack) {
    st.Push? ==> 0 <= st.top.e < |ev| && ev[st.top.e].signalled && AllLit(ev, st.below)
  }

  // Who calls signal() of a dependent is signalled itself; any() has signalled what it made of a signalled event.
  predicate PcLit(ev: seq<Prim>, p: Pc) {
    p.Sig? && p.stack.Push? ==>
      && AllLit(ev, p.stack.below)
      && (p.stack.top.ph.APush? && Signalled(ev, p.stack.top.e) ==> Signalled(ev, p.stack.top.ph.new_))
  }

  /** o is e or an event that e was made from, directly or indirectly. */
  ghost predicate Leads(ev: seq<Prim>, o: int, e: int)
    decreases e
  {
    0 <= e < |ev| && (o == e || exists x :: x in ev[e].sources && 0 <= x < e && Leads(ev, o, x))
  }

  /** Every signalled event goes back to a direct signal. */
  ghost predicate Traced(ev: seq<Prim>) {
    forall e :: 0 <= e < |ev| ==>
      && (ev[e].direct ==> ev[e].signalled)
      && (ev[e].signalled ==> 0 <= ev[e].origin < |ev| && ev[ev[e].origin].direct && Leads(ev, ev[e].origin, e))
  }

  ghost predicate NoAuto(s: State) {
    forall e :: Known(s, e) ==> !s.ev[e].kind.Auto?
  }

  ghost predicate Lit(s: State) {
    NoAuto(s) && Traced(s.ev) && Closed(s) && forall a :: PcLit(s.ev, At(s, a))
  }

  ghost predicate Graph(s: State) {
    Sourced(s) && Built(s) && Lit(s)
  }

  // ---------------------------------------------------------------------------------------------
  // Frames
  // ---------------------------------------------------------------------------------------------

  predicate Graphless(p: Pc) {
    !p.Sig? && !p.AnyNext?
  }

  // Agent a moves; others may be queued or awoken.
  ghost predicate Mover(s: State, u: State, a: int) {
    && u.monotone == s.monotone && u.worker == s.worker
    && forall b :: b != a ==> At(u, b) == At(s, b) || (Graphless(At(s, b)) && Graphless(At(u, b)))
  }

  predicate SameNode(p: Prim, q: Prim) {
    && q.kind == p.kind && q.signalled == p.signalled && q.deps == p.deps && q.direct == p.direct
    && q.origin == p.origin && q.sources == p.sources
  }

  ghost predicate SameGraph(ev: seq<Prim>, fv: seq<Prim>) {
    |fv| == |ev| && forall e :: 0 <= e < |ev| ==> SameNode(ev[e], fv[e])
  }

  ghost predicate SameSources(ev: seq<Prim>, fv: seq<Prim>) {
    |ev| <= |fv| && forall e :: 0 <= e < |ev| ==> fv[e].sources == ev[e].sources
  }

  // Events are only added, signalled, and given dependents.
  ghost predicate Brighter(ev: seq<Prim>, fv: seq<Prim>) {
    && |ev| <= |fv|
    && forall e :: 0 <= e < |ev| ==> (ev[e].signalled ==> fv[e].signalled) && ev[e].deps <= fv[e].deps
  }

  lemma {:induction false} StackSourcedKept(ev: seq<Prim>, fv: seq<Prim>, st: Stack)
    requires StackSourced(ev, st) && SameSources(ev, fv)
    ensures StackSourced(fv, st)
  {
    if st.Push? { StackSourcedKept(ev, fv, st.below); }
  }

  lemma SourcedKept(s: State, u: State, a: int)
    requires Sourced(s) && Mover(s, u, a) && SameSources(s.ev, u.ev) && PcSourced(u.ev, At(u, a))
    requires forall x, m {:trigger m in u.ev[x].deps} :: Known(u, x) && m in u.ev[x].deps ==>
               (Known(s, x) && m in s.ev[x].deps) || (Known(u, m) && x in u.ev[m].sources)
    requires forall m, x {:trigger x in u.ev[m].sources} :: |s.ev| <= m < |u.ev| && x in u.ev[m].sources ==> 0 <= x < m
    ensures Sourced(u)
  {
    forall b ensures PcSourced(u.ev, At(u, b)) {
      if b != a && At(s, b).Sig? { StackSourcedKept(s.ev, u.ev, At(s, b).stack); }
      assert PcSourced(s.ev, At(s, b));
    }
  }

  lemma BuiltKept(s: State, u: State, a: int)
    requires Built(s) && Mover(s, u, a) && SameSources(s.ev, u.ev) && Brighter(s.ev, u.ev)
    requires forall x, m :: Building(At(s, a), x, m) ==>
               Building(At(u, a), x, m) || (Known(u, x) && m in u.ev[x].deps)
    requires forall m, x :: |s.ev| <= m < |u.ev| && x in u.ev[m].sources ==> Known(u, x) && Building(At(u, a), x, m)
    ensures Built(u)
  {
    forall m, x | Known(u, m) && x in u.ev[m].sources
      ensures Known(u, x) && (m in u.ev[x].deps || exists b :: Building(At(u, b), x, m))
    {
      if m < |s.ev| && Known(s, x) && m !in s.ev[x].deps {
        var b :| Building(At(s, b), x, m);
        if b != a { assert Building(At(u, b), x, m); }
      }
    }
  }

  lemma {:induction false} CoversKept(ev: seq<Prim>, fv: seq<Prim>, st: Stack, over: int, e: int, d: int)
    requires Covers(ev, st, over, e, d) && Brighter(ev, fv)
    ensures Covers(fv, st, over, e, d)
  {
    if FrameCovers(ev, st.top, over, e, d) {
      assert forall j :: 0 <= j < |ev[e].deps| ==> fv[e].deps[j] == ev[e].deps[j];
    } else {
      CoversKept(ev, fv, st.below, Entering(st.top), e, d);
    }
  }

  lemma ClosedKept(s: State, u: State, a: int)
    requires Closed(s) && Mover(s, u, a) && Brighter(s.ev, u.ev)
    requires forall e, d {:trigger d in u.ev[e].deps} ::
               Known(u, e) && u.ev[e].signalled && d in u.ev[e].deps && Known(u, d) && !u.ev[d].signalled ==>
                 || PcCovers(u.ev, At(u, a), e, d)
                 || (Known(s, e) && s.ev[e].signalled && d in s.ev[e].deps && Known(s, d))
    requires forall e, d ::
               (Known(s, e) && d in s.ev[e].deps && PcCovers(s.ev, At(s, a), e, d) && Known(u, d)
                && !u.ev[d].signalled) ==>
               PcCovers(u.ev, At(u, a), e, d)
    ensures Closed(u)
  {
    hide Covers;
    forall e, d | Known(u, e) && u.ev[e].signalled && d in u.ev[e].deps && Known(u, d) && !u.ev[d].signalled
      ensures exists b :: PcCovers(u.ev, At(u, b), e, d)
    {
      if !PcCovers(u.ev, At(u, a), e, d) {
        var b :| PcCovers(s.ev, At(s, b), e, d);
        if b != a { CoversKept(s.ev, u.ev, At(s, b).stack, -1, e, d); }
        assert PcCovers(u.ev, At(u, b), e, d);
      }
    }
  }

  lemma {:induction false} AllLitKept(ev: seq<Prim>, fv: seq<Prim>, st: Stack)
    requires AllLit(ev, st) && Brighter(ev, fv)
    ensures AllLit(fv, st)
  {
    if st.Push? { AllLitKept(ev, fv, st.below); }
  }

  // An event is only signalled by who takes its free mutex.
  ghost predicate FreshlyLit(s: State, u: State)
    requires |s.ev| <= |u.ev|
  {
    forall e :: Known(s, e) && !s.ev[e].signalled && u.ev[e].signalled ==> Free(s, Ev(e))
  }

  lemma PcLitKept(s: State, u: State, b: int)
    requires LocksOk(s) && GoodPc(s, b) && PcLit(s.ev, At(s, b)) && Brighter(s.ev, u.ev) && FreshlyLit(s, u)
    ensures PcLit(u.ev, At(s, b))
  {
    var p := At(s, b);
    if p.Sig? && p.stack.Push? {
      AllLitKept(s.ev, u.ev, p.stack.below);
      if p.stack.top.ph.APush? { assert Holds(p, WorkOf(s, b), Ev(p.stack.top.e)); }
    }
  }

  lemma LitKept(s: State, u: State, a: int)
    requires Core(s) && Lit(s) && Mover(s, u, a) && Brighter(s.ev, u.ev) && FreshlyLit(s, u)
    requires NoAuto(u) && Traced(u.ev) && Closed(u) && PcLit(u.ev, At(u, a))
    ensures Lit(u)
  {
    assert forall b :: PcLit(s.ev, At(s, b)) && GoodPc(s, b);
    hide LocksOk, Shape, GoodPc, Traced, Closed;
    forall b ensures PcLit(u.ev, At(u, b)) {
      if b != a && At(u, b) == At(s, b) { hide PcLit; PcLitKept(s, u, b); }
    }
  }

  lemma {:induction false} LeadsKept(ev: seq<Prim>, fv: seq<Prim>, o: int, e: int)
    requires Leads(ev, o, e) && SameSources(ev, fv)
    ensures Leads(fv, o, e)
    decreases e
  {
    if o != e {
      var x :| x in ev[e].sources && 0 <= x < e && Leads(ev, o, x);
      LeadsKept(ev, fv, o, x);
    }
  }

  lemma TracedSame(ev: seq<Prim>, fv: seq<Prim>)
    requires Traced(ev) && SameGraph(ev, fv)
    ensures Traced(fv)
  {
    forall e | 0 <= e < |ev| && ev[e].signalled ensures Leads(fv, ev[e].origin, e) {
      LeadsKept(ev, fv, ev[e].origin, e);
    }
  }

  // A step that changes nothing in the graph.
  lemma MoveGraph(s: State, u: State, a: int)
    requires Core(s) && Graph(s) && Mover(s, u, a) && SameGraph(s.ev, u.ev)
    requires PcSourced(u.ev, At(u, a)) && PcLit(u.ev, At(u, a))
    requires forall x, m :: Building(At(s, a), x, m) ==> Building(At(u, a), x, m)
    requires forall e, d ::
               (Known(s, e) && d in s.ev[e].deps && PcCovers(s.ev, At(s, a), e, d) && Known(s, d)
                && !s.ev[d].signalled) ==>
               PcCovers(u.ev, At(u, a), e, d)
    ensures Graph(u)
  {
    TracedSame(s.ev, u.ev);
    assert Lit(s) && Sourced(s) && Built(s);
    LitParts(s);
    hide Core, Graph, Lit, Traced, PcSourced, PcLit, PcCovers, Building, Sourced, Built, Closed;
    SameGraphPlain(s, u);
    assert Sourced(u) by { SourcedKept(s, u, a); }
    assert Built(u) by { BuiltKept(s, u, a); }
    assert Closed(u) by { SameClosed(s, u, a); }
    LitKept(s, u, a);
    assert Graph(u) by { Whole(u); }
  }

  lemma LitParts(s: State)
    requires Lit(s)
    ensures NoAuto(s) && Traced(s.ev) && Closed(s)
  {}

  lemma Whole(s: State)
    requires Sourced(s) && Built(s) && Lit(s)
    ensures Graph(s)
  {}

  lemma SameGraphPlain(s: State, u: State)
    requires SameGraph(s.ev, u.ev) && NoAuto(s)
    ensures SameSources(s.ev, u.ev) && Brighter(s.ev, u.ev) && FreshlyLit(s, u) && NoAuto(u)
  {}

  lemma SameClosed(s: State, u: State, a: int)
    requires Closed(s) && Mover(s, u, a) && SameGraph(s.ev, u.ev)
    requires forall e, d ::
               (Known(s, e) && d in s.ev[e].deps && PcCovers(s.ev, At(s, a), e, d) && Known(s, d)
                && !s.ev[d].signalled) ==>
               PcCovers(u.ev, At(u, a), e, d)
    ensures Closed(u)
  {
    hide PcCovers, Closed;
    assert Brighter(s.ev, u.ev);
    ClosedKept(s, u, a);
  }

  // An agent that is not signalling moves.
  lemma BystanderGraph(s: State, u: State, a: int)
    requires Core(s) && Graph(s) && Mover(s, u, a) && SameGraph(s.ev, u.ev)
    requires Graphless(At(s, a))
    requires Graphless(At(u, a)) || exists e :: At(u, a) == Sig(Push(Frame(e, SLock), Nil), ToOut)
    ensures Graph(u)
  {
    assert StackSourced(u.ev, Nil) && AllLit(u.ev, Nil);
    hide Core, Graph;
    MoveGraph(s, u, a);
  }

  // ---------------------------------------------------------------------------------------------
  // Signalling
  // ---------------------------------------------------------------------------------------------

  lemma CoversOver(ev: seq<Prim>, st: Stack, over: int, e: int, d: int)
    requires Covers(ev, st, over, e, d)
    ensures Covers(ev, st, -1, e, d) || d == over
  {}

  // What a signaller's move keeps, given unchanged primitives.
  ghost predicate Carries(ev: seq<Prim>, p: Pc, q: Pc) {
    && PcSourced(ev, q) && PcLit(ev, q)
    && (forall x, m :: Building(p, x, m) ==> Building(q, x, m))
    && (forall e, d :: Pends(ev, p, e, d) ==> PcCovers(ev, q, e, d))
  }

  // The agent still has to signal d on behalf of e.
  ghost predicate Pends(ev: seq<Prim>, p: Pc, e: int, d: int) {
    0 <= e < |ev| && d in ev[e].deps && 0 <= d < |ev| && !ev[d].signalled && PcCovers(ev, p, e, d)
  }

  lemma CarriedGraph(s: State, u: State, a: int)
    requires Core(s) && Graph(s) && Mover(s, u, a) && u.ev == s.ev && Carries(s.ev, At(s, a), At(u, a))
    ensures Graph(u)
  {
    forall e, d | Known(s, e) && d in s.ev[e].deps && PcCovers(s.ev, At(s, a), e, d) && Known(s, d)
        && !s.ev[d].signalled
      ensures PcCovers(u.ev, At(u, a), e, d) { assert Pends(s.ev, At(s, a), e, d); }
    hide Core, Graph, PcCovers, PcSourced, PcLit, Building, Pends;
    MoveGraph(s, u, a);
  }

  // What is known of an agent.
  lemma GraphAt(s: State, a: int)
    requires Good(s) && Graph(s)
    ensures PcSourced(s.ev, At(s, a)) && PcLit(s.ev, At(s, a)) && Fact(s.ev, At(s, a)) && GoodPc(s, a)
            && Ordered(s.ev) && Core(s)
  {
    assert Shape(s) && Facts(s) && Sourced(s) && Lit(s);
    hide PcSourced, PcLit, Fact, GoodPc, LocksOk;
  }

  // The call of signal() at the top of the stack returns.
  lemma PopCarries(ev: seq<Prim>, f: Frame, below: Stack, ret: Return)
    requires Ordered(ev) && GoodStack(ev, Push(f, below), ret)
    requires PcSourced(ev, Sig(Push(f, below), ret)) && PcLit(ev, Sig(Push(f, below), ret))
    requires ev[f.e].kind.Group? || ev[f.e].signalled
    requires f.ph == SLock || f.ph == SDeps(|ev[f.e].deps|)
    ensures Carries(ev, Sig(Push(f, below), ret), Popped(below, ret))
  {
    var p, q := Sig(Push(f, below), ret), Popped(below, ret);
    forall x, m | Building(p, x, m) ensures Building(q, x, m) {
      assert StackBuilds(Push(f, below), x, m) == StackBuilds(below, x, m);
    }
    forall e, d | Pends(ev, p, e, d) ensures PcCovers(ev, q, e, d) {
      assert !ev[d].kind.Group?;
      CoversOver(ev, below, Entering(f), e, d);
    }
  }

  lemma PopGraph(s: State, u: State, a: int, f: Frame, below: Stack, ret: Return)
    requires Good(s) && Graph(s) && Mover(s, u, a) && u.ev == s.ev
    requires At(s, a) == Sig(Push(f, below), ret) && Known(s, f.e) && At(u, a) == Popped(below, ret)
    requires s.ev[f.e].kind.Group? || s.ev[f.e].signalled
    requires f.ph == SLock || f.ph == SDeps(|s.ev[f.e].deps|)
    ensures Graph(u)
  {
    GraphAt(s, a);
    hide Good, Core, Graph, Ordered, PcSourced, PcLit, Fact, Popped;
    PopCarries(s.ev, f, below, ret);
    hide Carries;
    CarriedGraph(s, u, a);
  }

  // The top frame goes on to its next phase; it had signalled none of its dependents.
  lemma AdvanceCarries(ev: seq<Prim>, e: int, ph: Phase, next: Phase, below: Stack, ret: Return)
    requires var p := Sig(Push(Frame(e, ph), below), ret); PcSourced(ev, p) && PcLit(ev, p)
    requires ph.SCv? || ph.SNotify? || ph.SCond?
    requires next.SNotify? || next.SCond? || next == SDeps(0)
    ensures Carries(ev, Sig(Push(Frame(e, ph), below), ret), Sig(Push(Frame(e, next), below), ret))
  {
    var p, q := Sig(Push(Frame(e, ph), below), ret), Sig(Push(Frame(e, next), below), ret);
    forall x, m | Building(p, x, m) ensures Building(q, x, m) {
      assert StackBuilds(p.stack, x, m) == StackBuilds(below, x, m)
             && StackBuilds(q.stack, x, m) == StackBuilds(below, x, m);
    }
    forall x, d | Pends(ev, p, x, d) ensures PcCovers(ev, q, x, d) {
      if x == e { assert FrameCovers(ev, Frame(e, next), -1, e, d); }
    }
  }

  lemma AdvanceGraph(s: State, u: State, a: int, e: int, ph: Phase, next: Phase, below: Stack, ret: Return)
    requires Good(s) && Graph(s) && Mover(s, u, a) && u.ev == s.ev && Known(s, e)
    requires At(s, a) == Sig(Push(Frame(e, ph), below), ret) && At(u, a) == Sig(Push(Frame(e, next), below), ret)
    requires ph.SCv? || ph.SNotify? || ph.SCond?
    requires next.SNotify? || next.SCond? || next == SDeps(0)
    ensures Graph(u)
  {
    GraphAt(s, a);
    hide Good, Core, Graph, Ordered, PcSourced, PcLit, Fact;
    AdvanceCarries(s.ev, e, ph, next, below, ret);
    hide Carries;
    CarriedGraph(s, u, a);
  }

  // signal() of the i-th dependent is called.
  lemma DescendCarries(ev: seq<Prim>, e: int, i: int, below: Stack, ret: Return)
    requires Ordered(ev) && 0 <= e < |ev| && 0 <= i < |ev[e].deps| && FrameFact(ev, Frame(e, SDeps(i)))
    requires var p := Sig(Push(Frame(e, SDeps(i)), below), ret); PcSourced(ev, p) && PcLit(ev, p)
    ensures Carries(ev, Sig(Push(Frame(e, SDeps(i)), below), ret),
                    Sig(Push(Frame(ev[e].deps[i], SLock), Push(Frame(e, SDeps(i + 1)), below)), ret))
  {
    var f, g, h := Frame(e, SDeps(i)), Frame(e, SDeps(i + 1)), Frame(ev[e].deps[i], SLock);
    var p, q := Sig(Push(f, below), ret), Sig(Push(h, Push(g, below)), ret);
    assert h.e in ev[e].deps;
    assert AllLit(ev, Push(g, below));
    assert StackSourced(ev, Push(g, below));
    forall x, m | Building(p, x, m) ensures Building(q, x, m) {
      assert StackBuilds(p.stack, x, m) == StackBuilds(below, x, m);
      assert StackBuilds(q.stack, x, m) == StackBuilds(Push(g, below), x, m) == StackBuilds(below, x, m);
    }
    forall x, d | Pends(ev, p, x, d) ensures PcCovers(ev, q, x, d) {
      assert FrameCovers(ev, f, -1, x, d) ==> FrameCovers(ev, g, h.e, x, d);
      assert Covers(ev, Push(g, below), h.e, x, d);
    }
  }

  lemma DescendGraph(s: State, u: State, a: int, e: int, i: int, below: Stack, ret: Return)
    requires Good(s) && Graph(s) && At(s, a) == Sig(Push(Frame(e, SDeps(i)), below), ret) && Known(s, e)
    requires 0 <= i < |s.ev[e].deps| && Mover(s, u, a) && u.ev == s.ev
    requires At(u, a) == Sig(Push(Frame(s.ev[e].deps[i], SLock), Push(Frame(e, SDeps(i + 1)), below)), ret)
    ensures Graph(u)
  {
    GraphAt(s, a);
    assert FrameFact(s.ev, Frame(e, SDeps(i)));
    hide Good, Core, Graph, Ordered, PcSourced, PcLit, Fact, GoodPc;
    DescendCarries(s.ev, e, i, below, ret);
    hide Carries;
    CarriedGraph(s, u, a);
  }

  lemma ReturnGraph(s: State, u: State, a: int, e: int, i: int, below: Stack, ret: Return)
    requires Good(s) && Graph(s) && At(s, a) == Sig(Push(Frame(e, SDeps(i)), below), ret) && Known(s, e)
    requires i >= |s.ev[e].deps| && Mover(s, u, a) && u.ev == s.ev && At(u, a) == Popped(below, ret)
    ensures Graph(u)
  {
    GraphAt(s, a);
    assert FrameFact(s.ev, Frame(e, SDeps(i))) && i <= |s.ev[e].deps|;
    hide Good, Core, Graph, Ordered, PcSourced, PcLit, Fact, GoodPc, Popped;
    PopGraph(s, u, a, Frame(e, SDeps(i)), below, ret);
  }

  lemma SigDepsGraph(s: State, a: int, e: int, i: int, below: Stack, ret: Return)
    requires Good(s) && Graph(s) && At(s, a) == Sig(Push(Frame(e, SDeps(i)), below), ret) && Known(s, e) && i >= 0
    ensures Graph(DoSigDeps(s, a, e, i, below, ret))
  {
    hide Good, Graph;
    var u := DoSigDeps(s, a, e, i, below, ret);
    if i < |s.ev[e].deps| { DescendGraph(s, u, a, e, i, below, ret); } else { ReturnGraph(s, u, a, e, i, below, ret); }
  }

  lemma AnyLockCarries(ev: seq<Prim>, e: int, m: int, ret: Return)
    requires 0 <= e < |ev| && PcSourced(ev, Sig(Push(Frame(e, ALock(m)), Nil), ret))
    ensures var p, st := Sig(Push(Frame(e, ALock(m)), Nil), ret), Push(Frame(e, APush(m)), Nil);
            Carries(ev, p, Sig(if ev[e].signalled then Push(Frame(m, SLock), st) else st, ret))
  {
    var p, st := Sig(Push(Frame(e, ALock(m)), Nil), ret), Push(Frame(e, APush(m)), Nil);
    var q := Sig(if ev[e].signalled then Push(Frame(m, SLock), st) else st, ret);
    assert StackSourced(ev, Nil) && StackSourced(ev, st);
    assert AllLit(ev, Nil) && (ev[e].signalled ==> AllLit(ev, st));
    forall x, n | Building(p, x, n) ensures Building(q, x, n) {
      assert StackBuilds(p.stack, x, n) == ((x, n) == (e, m)) by { assert !StackBuilds(Nil, x, n); }
      assert StackBuilds(st, e, m);
    }
    forall x, d ensures !Pends(ev, p, x, d) { LastFrame(ev, e, ALock(m), ret, x, d); }
  }

  // The frame of any() at the bottom of the stack covers nothing, and builds its own edge only.
  lemma LastFrame(ev: seq<Prim>, e: int, ph: Phase, ret: Return, x: int, d: int)
    requires ph.ALock? || ph.APush?
    ensures !PcCovers(ev, Sig(Push(Frame(e, ph), Nil), ret), x, d)
    ensures Building(Sig(Push(Frame(e, ph), Nil), ret), x, d) ==>
              (x, d) == (e, ph.new_) || Building(Popped(Nil, ret), x, d)
  {
    assert !Covers(ev, Nil, -1, x, d) && !StackBuilds(Nil, x, d);
  }

  lemma AnyLockGraph(s: State, a: int, e: int, m: int, below: Stack, ret: Return)
    requires Good(s) && Graph(s) && At(s, a) == Sig(Push(Frame(e, ALock(m)), below), ret) && Known(s, e)
    ensures Graph(DoAnyLock(s, a, e, m, below, ret))
  {
    GraphAt(s, a);
    var u := DoAnyLock(s, a, e, m, below, ret);
    assert below.Nil?;
    hide Good, Core, Graph, Ordered, PcSourced, PcLit, Fact, GoodPc;
    AnyLockCarries(s.ev, e, m, ret);
    hide Carries;
    CarriedGraph(s, u, a);
  }

  lemma AnyStepCarries(ev: seq<Prim>, m: int, rest: seq<int>)
    requires PcSourced(ev, AnyNext(m, rest))
    ensures Carries(ev, AnyNext(m, rest), if rest == [] then Out else Sig(Push(Frame(rest[0], ALock(m)), Nil),
            ToAny(m, rest[1..])))
  {
    if rest != [] {
      var p, st := AnyNext(m, rest), Push(Frame(rest[0], ALock(m)), Nil);
      var q := Sig(st, ToAny(m, rest[1..]));
      assert rest[0] in rest && forall x :: x in rest[1..] ==> x in rest;
      assert StackSourced(ev, Nil) && StackSourced(ev, st) && StackBuilds(st, rest[0], m) && AllLit(ev, Nil);
      forall x, n | Building(p, x, n) ensures Building(q, x, n) { assert x == rest[0] || x in rest[1..]; }
    }
  }

  lemma AnyStepGraph(s: State, a: int, m: int, rest: seq<int>)
    requires Good(s) && Graph(s) && At(s, a) == AnyNext(m, rest)
    ensures Graph(DoAnyStep(s, a, m, rest))
  {
    GraphAt(s, a);
    hide Good, Core, Graph, Ordered, PcSourced, PcLit, Fact, GoodPc;
    AnyStepCarries(s.ev, m, rest);
    hide Carries;
    CarriedGraph(s, DoAnyStep(s, a, m, rest), a);
  }

  // any() adds the edge.
  lemma AnyPushGraph(s: State, a: int, e: int, m: int, below: Stack, ret: Return)
    requires Good(s) && Graph(s) && At(s, a) == Sig(Push(Frame(e, APush(m)), below), ret) && Known(s, e)
    ensures Graph(DoAnyPush(s, a, e, m, below, ret))
  {
    GraphAt(s, a);
    var u := DoAnyPush(s, a, e, m, below, ret);
    hide Good, Graph, Core;
    LastSourced(s.ev, u.ev, e, m, below, ret);
    assert At(u, a) == Popped(below, ret) && Mover(s, u, a);
    forall x, d
      ensures !PcCovers(s.ev, At(s, a), x, d)
      ensures Building(At(s, a), x, d) ==> (x, d) == (e, m) || Building(At(u, a), x, d)
    {
      LastFrame(s.ev, e, APush(m), ret, x, d);
    }
    hide Fact, GoodPc, PcSourced, PcCovers, Building, Ordered, PcLit;
    EdgeGraph(s, u, a, e, m);
  }

  // The last frame of any(), about to add its edge
  lemma LastSourced(ev: seq<Prim>, fv: seq<Prim>, e: int, m: int, below: Stack, ret: Return)
    requires 0 <= e < |ev| && fv == ev[e := ev[e].(deps := ev[e].deps + [m])]
    requires var p := Sig(Push(Frame(e, APush(m)), below), ret); PcSourced(ev, p) && PcLit(ev, p)
    requires GoodStack(ev, Push(Frame(e, APush(m)), below), ret)
    ensures below.Nil? && 0 <= m < |ev| && e in ev[m].sources && ret.ToAny?
            && Popped(below, ret) == AnyNext(ret.made, ret.rest)
    ensures PcSourced(fv, Popped(below, ret)) && (Signalled(ev, e) ==> Signalled(ev, m))
  {
    assert forall x :: SourcesOf(fv, x) == SourcesOf(ev, x);
  }

  // A new edge from e to m
  ghost predicate AddsEdge(s: State, u: State, a: int, e: int, m: int) {
    && Mover(s, u, a) && Known(s, e) && Known(s, m) && e in s.ev[m].sources && At(u, a).AnyNext?
    && u.ev == s.ev[e := s.ev[e].(deps := s.ev[e].deps + [m])]
    && (Signalled(s.ev, e) ==> Signalled(s.ev, m))
  }

  lemma EdgePlain(s: State, u: State, a: int, e: int, m: int)
    requires AddsEdge(s, u, a, e, m) && NoAuto(s) && Traced(s.ev)
    ensures SameSources(s.ev, u.ev) && Brighter(s.ev, u.ev) && FreshlyLit(s, u) && NoAuto(u) && Mover(s, u, a)
    ensures Traced(u.ev) && PcLit(u.ev, At(u, a))
  {
    TracedKept(s.ev, u.ev);
  }

  lemma EdgeSources(s: State, u: State, a: int, e: int, m: int)
    requires AddsEdge(s, u, a, e, m) && Sourced(s) && Built(s) && PcSourced(u.ev, At(u, a))
    requires forall x, n :: Building(At(s, a), x, n) ==> (x, n) == (e, m) || Building(At(u, a), x, n)
    ensures Sourced(u) && Built(u)
  {
    assert forall d :: d in u.ev[e].deps <==> d in s.ev[e].deps || d == m;
    hide PcSourced, Building;
    SourcedKept(s, u, a);
    BuiltKept(s, u, a);
  }

  lemma EdgeClosed(s: State, u: State, a: int, e: int, m: int)
    requires AddsEdge(s, u, a, e, m) && Closed(s) && forall x, d :: !PcCovers(s.ev, At(s, a), x, d)
    ensures Closed(u)
  {
    assert forall d :: d in u.ev[e].deps <==> d in s.ev[e].deps || d == m;
    hide PcCovers, Closed;
    ClosedKept(s, u, a);
  }

  lemma EdgeGraph(s: State, u: State, a: int, e: int, m: int)
    requires Core(s) && Graph(s) && AddsEdge(s, u, a, e, m) && PcSourced(u.ev, At(u, a))
    requires forall x, n :: Building(At(s, a), x, n) ==> (x, n) == (e, m) || Building(At(u, a), x, n)
    requires forall x, d :: !PcCovers(s.ev, At(s, a), x, d)
    ensures Graph(u)
  {
    assert Sourced(s) && Built(s) && Lit(s);
    LitParts(s);
    hide Core, Graph, Lit, Sourced, Built, Closed, Traced, PcSourced, PcLit, PcCovers, Building, AddsEdge, NoAuto;
    EdgePlain(s, u, a, e, m);
    EdgeSources(s, u, a, e, m);
    EdgeClosed(s, u, a, e, m);
    LitKept(s, u, a);
    Whole(u);
  }

  // Growing and adding edges changes no trace.
  lemma TracedKept(ev: seq<Prim>, fv: seq<Prim>)
    requires Traced(ev) && SameSources(ev, fv)
    requires forall e :: 0 <= e < |ev| ==>
               fv[e].direct == ev[e].direct && fv[e].signalled == ev[e].signalled && fv[e].origin == ev[e].origin
    requires forall e :: |ev| <= e < |fv| ==> fv[e].direct == fv[e].signalled && fv[e].origin == e
    ensures Traced(fv)
  {
    forall e | 0 <= e < |fv| && fv[e].signalled
      ensures 0 <= fv[e].origin < |fv| && fv[fv[e].origin].direct && Leads(fv, fv[e].origin, e)
    {
      if e < |ev| { LeadsKept(ev, fv, ev[e].origin, e); }
    }
  }

  // ---------------------------------------------------------------------------------------------
  // Signalling an event
  // ---------------------------------------------------------------------------------------------

  // Who calls signal() of f.e is a source of f.e.
  lemma CallerIsSource(s: State, a: int, f: Frame, below: Stack, ret: Return)
    requires Good(s) && Graph(s) && At(s, a) == Sig(Push(f, below), ret) && f.ph == SLock && below.Push?
    ensures Known(s, f.e) && Known(s, below.top.e) && s.ev[below.top.e].signalled
    ensures below.top.e in s.ev[f.e].sources && 0 <= below.top.e < f.e
  {
    GraphAt(s, a);
    assert Sourced(s);
    var g := below.top;
    assert GoodFrame(s.ev, f) && Linked(s.ev, f, g) && StackSourced(s.ev, below) && AllLit(s.ev, below);
    assert g.ph.SDeps? ==> f.e in s.ev[g.e].deps;
    hide Good, Graph, Core;
  }

  // Event e is lit, directly or on behalf of one of its sources.
  lemma TracedLit(ev: seq<Prim>, e: int, q: Prim, from: int)
    requires Traced(ev) && 0 <= e < |ev| && !ev[e].signalled && q.signalled && q.sources == ev[e].sources
    requires (q.direct && q.origin == e)
             || (0 <= from < e && from in q.sources && ev[from].signalled && q.origin == ev[from].origin)
    ensures Traced(ev[e := q])
  {
    var fv := ev[e := q];
    assert SameSources(ev, fv);
    forall x | 0 <= x < |fv| && fv[x].signalled
      ensures 0 <= fv[x].origin < |fv| && fv[fv[x].origin].direct && Leads(fv, fv[x].origin, x)
    {
      hide Leads;
      if x != e {
        LeadsKept(ev, fv, ev[x].origin, x);
      } else if q.direct && q.origin == e {
        LeadsOn(fv, e, e, e);
      } else {
        LeadsKept(ev, fv, ev[from].origin, from);
        LeadsOn(fv, ev[from].origin, from, e);
      }
    }
  }

  lemma LeadsOn(ev: seq<Prim>, o: int, x: int, e: int)
    requires 0 <= e < |ev| && (o == e || (0 <= x < e && x in ev[e].sources && Leads(ev, o, x)))
    ensures Leads(ev, o, e)
  {}

  lemma SignalTraced(s: State, u: State, a: int, f: Frame, below: Stack, ret: Return)
    requires Good(s) && Graph(s) && At(s, a) == Sig(Push(f, below), ret) && f.ph == SLock && Known(s, f.e)
    requires !s.ev[f.e].kind.Group? && !s.ev[f.e].signalled && u == DoSigLock(s, a, f, below, ret)
    ensures Traced(u.ev)
  {
    if below.Push? { CallerIsSource(s, a, f, below, ret); }
    assert Traced(s.ev);
    hide Good, Graph, Traced;
    assert u.ev == s.ev[f.e := u.ev[f.e]];
    TracedLit(s.ev, f.e, u.ev[f.e], BelowEvent(below, f.e));
  }

  lemma SignalCarries(ev: seq<Prim>, fv: seq<Prim>, f: Frame, below: Stack, ret: Return, next: Phase)
    requires PcSourced(ev, Sig(Push(f, below), ret)) && PcLit(ev, Sig(Push(f, below), ret)) && f.ph == SLock
    requires SameSources(ev, fv) && Brighter(ev, fv) && Signalled(fv, f.e) && |fv| == |ev| && next in {SCv, SDeps(0)}
    ensures var p, q := Sig(Push(f, below), ret), Sig(Push(Frame(f.e, next), below), ret);
            && PcSourced(fv, q) && PcLit(fv, q)
            && (forall x, m :: Building(p, x, m) ==> Building(q, x, m))
            && (forall e, d :: PcCovers(ev, p, e, d) && d != f.e ==> PcCovers(fv, q, e, d))
            && (forall d :: d in fv[f.e].deps ==> PcCovers(fv, q, f.e, d))
  {
    var p, q := Sig(Push(f, below), ret), Sig(Push(Frame(f.e, next), below), ret);
    StackSourcedKept(ev, fv, below);
    AllLitKept(ev, fv, below);
    forall x, m | Building(p, x, m) ensures Building(q, x, m) {
      assert StackBuilds(p.stack, x, m) == StackBuilds(below, x, m) == StackBuilds(q.stack, x, m);
    }
    forall e, d | PcCovers(ev, p, e, d) && d != f.e ensures PcCovers(fv, q, e, d) {
      assert Covers(ev, below, f.e, e, d);
      CoversOver(ev, below, f.e, e, d);
      CoversKept(ev, fv, below, -1, e, d);
    }
    forall d | d in fv[f.e].deps ensures PcCovers(fv, q, f.e, d) {
      assert FrameCovers(fv, Frame(f.e, next), -1, f.e, d);
    }
  }

  lemma SignalGraph(s: State, a: int, f: Frame, below: Stack, ret: Return)
    requires Good(s) && Graph(s) && At(s, a) == Sig(Push(f, below), ret) && f.ph == SLock && Known(s, f.e)
             && Free(s, Ev(f.e))
    requires !s.ev[f.e].kind.Group? && !s.ev[f.e].signalled
    ensures Graph(DoSigLock(s, a, f, below, ret))
  {
    var u := DoSigLock(s, a, f, below, ret);
    GraphAt(s, a);
    SignalTraced(s, u, a, f, below, ret);
    assert Lit(s) && NoAuto(s);
    hide Good, Core, Graph, Traced, Fact, GoodPc, Ordered, PcSourced, PcLit, PcCovers, Building, Lit;
    assert Lights(s, u, a, f, below, ret, u.ev[f.e], At(u, a).stack.top.ph);
    hide Lights;
    LitGraph(s, u, a, f, below, ret, u.ev[f.e], At(u, a).stack.top.ph);
  }

  // One more event is lit, and its mutex taken.
  ghost predicate Lights(s: State, u: State, a: int, f: Frame, below: Stack, ret: Return, q: Prim, next: Phase) {
    && At(s, a) == Sig(Push(f, below), ret) && f.ph == SLock && Known(s, f.e) && next in {SCv, SDeps(0)}
    && u.ev == s.ev[f.e := q] && Mover(s, u, a) && At(u, a) == Sig(Push(Frame(f.e, next), below), ret)
    && q.signalled && q.kind == s.ev[f.e].kind && q.deps == s.ev[f.e].deps && q.sources == s.ev[f.e].sources
  }

  lemma LitGraph(s: State, u: State, a: int, f: Frame, below: Stack, ret: Return, q: Prim, next: Phase)
    requires Core(s) && Graph(s) && Lights(s, u, a, f, below, ret, q, next) && Free(s, Ev(f.e))
    requires PcSourced(s.ev, At(s, a)) && PcLit(s.ev, At(s, a)) && NoAuto(s) && Traced(u.ev)
    ensures Graph(u)
  {
    LightsPlain(s, u, a, f, below, ret, q, next);
    assert Lit(s) && Sourced(s) && Built(s) && Closed(s) && At(s, a) == Sig(Push(f, below), ret);
    hide Core, Graph, Lit, Traced, PcSourced, PcLit, PcCovers, Building, Sourced, Built, Closed, NoAuto, FreshlyLit,
         Lights, Mover, Brighter, SameSources;
    SignalCarries(s.ev, u.ev, f, below, ret, next);
    LitEdges(s, u, a, f, below, ret, q, next);
    LitClosed(s, u, a, f, below, ret, q, next);
    LitKept(s, u, a);
  }

  lemma LightsPlain(s: State, u: State, a: int, f: Frame, below: Stack, ret: Return, q: Prim, next: Phase)
    requires Lights(s, u, a, f, below, ret, q, next) && Free(s, Ev(f.e)) && NoAuto(s)
    ensures SameSources(s.ev, u.ev) && Brighter(s.ev, u.ev) && FreshlyLit(s, u) && NoAuto(u) && Mover(s, u, a)
    ensures |u.ev| == |s.ev| && Signalled(u.ev, f.e) && f.ph == SLock && next in {SCv, SDeps(0)}
    ensures At(s, a) == Sig(Push(f, below), ret) && At(u, a) == Sig(Push(Frame(f.e, next), below), ret)
  {
    assert forall d :: Known(s, d) && d != f.e ==> u.ev[d] == s.ev[d];
    hide At;
  }

  lemma LitEdges(s: State, u: State, a: int, f: Frame, below: Stack, ret: Return, q: Prim, next: Phase)
    requires Sourced(s) && Built(s) && Lights(s, u, a, f, below, ret, q, next) && PcSourced(u.ev, At(u, a))
    requires forall x, m :: Building(At(s, a), x, m) ==> Building(At(u, a), x, m)
    ensures Sourced(u) && Built(u)
  {
    assert forall d :: Known(s, d) ==> u.ev[d].deps == s.ev[d].deps && u.ev[d].sources == s.ev[d].sources;
    hide PcSourced, Building;
    SourcedKept(s, u, a);
    BuiltKept(s, u, a);
  }

  lemma LitClosed(s: State, u: State, a: int, f: Frame, below: Stack, ret: Return, q: Prim, next: Phase)
    requires Closed(s) && Lights(s, u, a, f, below, ret, q, next)
    requires forall e, d :: PcCovers(s.ev, At(s, a), e, d) && d != f.e ==> PcCovers(u.ev, At(u, a), e, d)
    requires forall d :: d in u.ev[f.e].deps ==> PcCovers(u.ev, At(u, a), f.e, d)
    ensures Closed(u)
  {
    assert forall d :: Known(s, d) && d != f.e ==> u.ev[d] == s.ev[d];
    hide PcCovers, Closed;
    ClosedKept(s, u, a);
  }

  // done() has brought a group to zero: nothing depends on a group.
  lemma GroupSignalGraph(s: State, u: State, a: int, f: Frame, below: Stack, ret: Return, next: Phase)
    requires Good(s) && Graph(s) && At(s, a) == Sig(Push(f, below), ret) && f.ph == SLock && Known(s, f.e)
    requires s.ev[f.e].kind.Group? && Mover(s, u, a) && u.ev == s.ev && next in {SCv, SDeps(0)}
    requires At(u, a) == Sig(Push(Frame(f.e, next), below), ret)
    ensures Graph(u)
  {
    GraphAt(s, a);
    hide Good, Core, Graph, Ordered, PcSourced, PcLit, Fact, GoodPc;
    GroupCarries(s.ev, f, below, ret, next);
    hide Carries;
    CarriedGraph(s, u, a);
  }

  lemma GroupCarries(ev: seq<Prim>, f: Frame, below: Stack, ret: Return, next: Phase)
    requires Ordered(ev) && 0 <= f.e < |ev| && ev[f.e].kind.Group? && f.ph == SLock && next in {SCv, SDeps(0)}
    requires PcSourced(ev, Sig(Push(f, below), ret)) && PcLit(ev, Sig(Push(f, below), ret))
    ensures Carries(ev, Sig(Push(f, below), ret), Sig(Push(Frame(f.e, next), below), ret))
  {
    var p, q := Sig(Push(f, below), ret), Sig(Push(Frame(f.e, next), below), ret);
    forall x, m | Building(p, x, m) ensures Building(q, x, m) {
      assert StackBuilds(p.stack, x, m) == StackBuilds(below, x, m) == StackBuilds(q.stack, x, m);
    }
    forall e, d | Pends(ev, p, e, d) ensures PcCovers(ev, q, e, d) {
      assert !ev[d].kind.Group? && Covers(ev, below, f.e, e, d);
      CoversOver(ev, below, f.e, e, d);
    }
  }

  lemma SigLockGraph(s: State, a: int, f: Frame, below: Stack, ret: Return)
    requires Good(s) && Graph(s) && At(s, a) == Sig(Push(f, below), ret) && f.ph == SLock && Known(s, f.e)
             && Free(s, Ev(f.e))
    ensures Graph(DoSigLock(s, a, f, below, ret))
  {
    hide Good, Graph;
    var u := DoSigLock(s, a, f, below, ret);
    if s.ev[f.e].kind.Group? {
      assert s.ev[f.e := s.ev[f.e]] == s.ev;
      GroupSignalGraph(s, u, a, f, below, ret, At(u, a).stack.top.ph);
    } else if s.ev[f.e].signalled { PopGraph(s, u, a, f, below, ret); }
    else { SignalGraph(s, a, f, below, ret); }
  }

  // ---------------------------------------------------------------------------------------------
  // All steps
  // ---------------------------------------------------------------------------------------------

  // A step of a waiter: flags and edges stay, there being no automatic events.
  lemma WaiterGraph(s: State, u: State, a: int, e: int, p: Prim)
    requires Good(s) && Graph(s) && Graphless(At(s, a)) && Graphless(At(u, a)) && OnlyAgent(s, u, a)
    requires Known(s, e) && u.ev == s.ev[e := p] && (s.ev[e].kind.Auto? || SameNode(s.ev[e], p))
    ensures Graph(u)
  {
    assert Core(s) && NoAuto(s);
    hide Good, Core, Graph;
    BystanderGraph(s, u, a);
  }

  // A step that touches no primitive.
  lemma PlainGraph(s: State, u: State, a: int, q: Pc)
    requires Good(s) && Graph(s) && Graphless(At(s, a)) && Graphless(q)
    requires u.ev == s.ev && u.pc == s.pc[a := q] && OnlyAgent(s, u, a)
    ensures Graph(u)
  {
    assert Core(s) by { GraphAt(s, a); }
    hide Good, Graph, Core;
    BystanderGraph(s, u, a);
  }

  lemma WaitLockGraph(s: State, a: int, e: int, t: bool)
    requires Good(s) && Graph(s) && At(s, a) == WLock(e, t) && Known(s, e)
    ensures Graph(DoWaitLock(s, a, e, t))
  {
    hide Good, Graph;
    var u := DoWaitLock(s, a, e, t);
    WaitLockTouches(s, a, e, t);
    assert Graphless(At(u, a)) && (s.ev[e].kind.Auto? || u.ev[e].signalled == s.ev[e].signalled);
    hide DoWaitLock, Graphless;
    WaiterGraph(s, u, a, e, u.ev[e]);
  }

  lemma EnlistGraph(s: State, a: int, e: int, t: bool)
    requires Good(s) && Graph(s) && At(s, a) == WEnlist(e, t) && Known(s, e)
    ensures Graph(DoEnlist(s, a, e, t))
  {
    hide Good, Graph;
    WaiterGraph(s, DoEnlist(s, a, e, t), a, e, s.ev[e].(waiting := [a] + s.ev[e].waiting));
  }

  lemma DelistGraph(s: State, a: int, e: int, ok: bool)
    requires Good(s) && Graph(s) && At(s, a) == WDelist(e, ok) && Known(s, e)
    ensures Graph(DoDelist(s, a, e, ok))
  {
    hide Good, Graph;
    WaiterGraph(s, DoDelist(s, a, e, ok), a, e, DoDelist(s, a, e, ok).ev[e]);
  }

  lemma ThreadTestGraph(s: State, a: int, e: int, t: bool, expired: bool)
    requires Good(s) && Graph(s) && At(s, a) == TCheck(e, t) && Known(s, e)
    ensures Graph(DoThreadTest(s, a, e, t, expired))
  {
    hide Good, Graph;
    var u := DoThreadTest(s, a, e, t, expired);
    if Pred(s.ev[e]) || expired { WaiterGraph(s, u, a, e, u.ev[e]); } else { PlainGraph(s, u, a, TCommit(e, t)); }
  }

  lemma FiberGraph(s: State, a: int, st: FiberStep)
    requires Good(s) && Graph(s) && CanFiber(s, a, st)
    ensures Graph(DoFiber(s, a, st))
  {
    hide Good, Graph, DoWaitLock, DoEnlist, DoDelist;
    var p := At(s, a);
    match st
    case WaitLock => WaitLockGraph(s, a, p.e, p.timed);
    case Enlist => EnlistGraph(s, a, p.e, p.timed);
    case Delist => DelistGraph(s, a, p.e, p.ok);
    case _ => FiberMoveGraph(s, a, st);
  }

  lemma FiberMoveGraph(s: State, a: int, st: FiberStep)
    requires Good(s) && Graph(s) && CanFiber(s, a, st) && !st.WaitLock? && !st.Enlist? && !st.Delist?
    ensures Graph(DoFiber(s, a, st))
  {
    hide Good, Graph;
    PlainGraph(s, DoFiber(s, a, st), a, DoFiber(s, a, st).pc[a]);
  }

  lemma ThreadGraph(s: State, a: int, st: ThreadStep)
    requires Good(s) && Graph(s) && CanThread(s, a, st)
    ensures Graph(DoThread(s, a, st))
  {
    hide Good, Graph;
    var p := At(s, a);
    if st.ThreadTest? { ThreadTestGraph(s, a, p.e, p.timed, st.expired); }
    else { PlainGraph(s, DoThread(s, a, st), a, DoThread(s, a, st).pc[a]); }
  }

  // The notifier goes on, and has stirred others.
  lemma StirGraph(s: State, u: State, a: int, e: int, ph: Phase, next: Phase, below: Stack, ret: Return)
    requires Good(s) && Graph(s) && Stirs(s, u, a) && Known(s, e)
    requires At(s, a) == Sig(Push(Frame(e, ph), below), ret) && At(u, a) == Sig(Push(Frame(e, next), below), ret)
    requires ph.SNotify? || ph.SCond?
    requires next.SNotify? || next.SCond? || next == SDeps(0)
    ensures Graph(u)
  {
    hide Good, Graph;
    assert Mover(s, u, a);
    AdvanceGraph(s, u, a, e, ph, next, below, ret);
  }

  lemma SigNotifyGraph(s: State, a: int, e: int, k: int, below: Stack, ret: Return)
    requires Good(s) && Graph(s) && At(s, a) == Sig(Push(Frame(e, SNotify(k)), below), ret) && Known(s, e)
    ensures Graph(DoSigNotify(s, a, e, k, below, ret))
  {
    hide Good, Graph, DoSigNotify, Stirs;
    NotifyStirs(s, a, e, k, below, ret);
    var u := DoSigNotify(s, a, e, k, below, ret);
    StirGraph(s, u, a, e, SNotify(k), At(u, a).stack.top.ph, below, ret);
  }

  lemma SigCondGraph(s: State, a: int, e: int, lucky: int, below: Stack, ret: Return)
    requires Good(s) && Graph(s) && At(s, a) == Sig(Push(Frame(e, SCond), below), ret) && Known(s, e)
    ensures Graph(DoSigCond(s, a, e, lucky, below, ret))
  {
    hide Good, Graph, DoSigCond, Stirs;
    CondStirs(s, a, e, lucky, below, ret);
    StirGraph(s, DoSigCond(s, a, e, lucky, below, ret), a, e, SCond, SDeps(0), below, ret);
  }

  lemma SigGraph(s: State, a: int, st: SigStep)
    requires Good(s) && Graph(s) && CanSig(s, a, st)
    ensures Graph(DoSig(s, a, st))
  {
    if st.AnyStep? {
      AnyStepGraph(s, a, At(s, a).made, At(s, a).rest);
    } else {
      var f, below, ret := At(s, a).stack.top, At(s, a).stack.below, At(s, a).ret;
      assert f == Frame(f.e, f.ph);
      hide Good, Graph;
      match st
      case SigLock => SigLockGraph(s, a, f, below, ret);
      case SigCv => AdvanceGraph(s, DoSigCv(s, a, f.e, below, ret), a, f.e, SCv, SNotify(0), below, ret);
      case SigNotify => SigNotifyGraph(s, a, f.e, f.ph.k, below, ret);
      case SigCond(lucky) => SigCondGraph(s, a, f.e, lucky, below, ret);
      case SigDeps => SigDepsGraph(s, a, f.e, f.ph.i, below, ret);
      case AnyLock => AnyLockGraph(s, a, f.e, f.ph.new_, below, ret);
      case AnyPush => AnyPushGraph(s, a, f.e, f.ph.new_, below, ret);
      case AnyStep =>
    }
  }

  // A new primitive has no edges yet.
  lemma NewGraph(s: State, u: State, a: int, p: Prim)
    requires Good(s) && Graph(s) && Mover(s, u, a) && At(s, a).Out? && u.ev == s.ev + [p]
    requires p.deps == [] && p.direct == p.signalled && p.origin == |s.ev| && !p.kind.Auto?
    requires forall x :: x in p.sources ==> Known(s, x)
    requires (At(u, a).Out? && p.sources == []) || At(u, a) == AnyNext(|s.ev|, p.sources)
    ensures Graph(u)
  {
    GraphAt(s, a);
    assert Lit(s) && Sourced(s) && Built(s) && NoAuto(s);
    var m := |s.ev|;
    assert forall d :: Known(s, d) ==> u.ev[d] == s.ev[d] && d != m;
    assert u.ev[m] == p;
    assert forall x, d :: !Building(At(s, a), x, d) && !PcCovers(s.ev, At(s, a), x, d);
    assert PcLit(u.ev, At(u, a)) && PcSourced(u.ev, At(u, a));
    assert forall x :: x in p.sources ==> Building(At(u, a), x, m);
    hide Good, Core, Graph, Fact, GoodPc, Traced, PcSourced, PcLit, PcCovers, Building;
    assert Traced(u.ev) by { TracedKept(s.ev, u.ev); }
    GrownGraph(s, u, a, p);
  }

  lemma GrownGraph(s: State, u: State, a: int, p: Prim)
    requires Core(s) && Sourced(s) && Built(s) && Lit(s) && Ordered(s.ev) && NoAuto(s) && Mover(s, u, a)
             && u.ev == s.ev + [p]
    requires Traced(u.ev) && p.deps == [] && !p.kind.Auto? && forall x :: x in p.sources ==> Known(s, x)
    requires forall x, d :: !Building(At(s, a), x, d) && !PcCovers(s.ev, At(s, a), x, d)
    requires PcLit(u.ev, At(u, a)) && PcSourced(u.ev, At(u, a))
    requires forall x :: x in p.sources ==> Building(At(u, a), x, |s.ev|)
    ensures Graph(u)
  {
    var m := |s.ev|;
    assert forall d :: Known(s, d) ==> u.ev[d] == s.ev[d];
    assert u.ev[m] == p && NoAuto(u) && Closed(s);
    hide Core, Traced, PcSourced, PcLit, PcCovers, Building;
    assert Sourced(u) by { hide Closed, Built, Ordered; SourcedKept(s, u, a); }
    assert Built(u) by { hide Closed, Sourced, Ordered; BuiltKept(s, u, a); }
    hide Sourced, Built;
    assert Closed(u) by { ClosedKept(s, u, a); }
    hide Closed, Ordered;
    LitKept(s, u, a);
  }

  // An idle agent enters an operation on e, or carries one out.
  lemma EnterGraph(s: State, u: State, a: int, e: int)
    requires Good(s) && Graph(s) && At(s, a).Out? && Known(s, e) && OnlyAgent(s, u, a) && |u.ev| == |s.ev|
    requires u.ev == s.ev || (u.ev == s.ev[e := u.ev[e]] && (s.ev[e].kind.Auto? || SameNode(s.ev[e], u.ev[e])))
    requires Graphless(At(u, a)) || At(u, a) == Sig(Push(Frame(e, SLock), Nil), ToOut)
    ensures Graph(u)
  {
    assert Core(s) && NoAuto(s);
    hide Good, Core, Graph;
    BystanderGraph(s, u, a);
  }

  lemma UserGraph(s: State, a: int, st: UserStep)
    requires Good(s) && Graph(s) && CanUser(s, a, st) && s.monotone
    ensures Graph(DoUser(s, a, st))
  {
    hide Good, Graph;
    if st.StartAny? { NewGraph(s, DoUser(s, a, st), a, DoUser(s, a, st).ev[|s.ev|]); }
    else { EnterGraph(s, DoUser(s, a, st), a, st.e); }
  }

  lemma NewPrimGraph(s: State, p: Prim)
    requires Good(s) && Graph(s) && NewOk(s, p, |s.ev|) && s.monotone
    ensures Graph(s.(ev := s.ev + [p]))
  {
    var idle := Stranger(s.pc.Keys);
    hide Good, Graph;
    NewGraph(s, s.(ev := s.ev + [p]), idle, p);
  }

  lemma Stranger(x: set<int>) returns (i: int)
    ensures i !in x
  {
    i := AboveAll(x);
  }

  lemma AboveAll(x: set<int>) returns (i: int)
    ensures forall j :: j in x ==> j < i
  {
    i := 0;
    if j :| j in x {
      i := AboveAll(x - {j});
      if i <= j { i := j + 1; }
      forall k | k in x ensures k < i { assert k == j || k in x - {j}; }
    }
  }

  lemma StepGraph(s: State, st: Step)
    requires Good(s) && Graph(s) && Can(s, st) && s.monotone
    ensures Graph(Do(s, st)) && Do(s, st).monotone
  {
    hide CanFiber, CanThread, CanSig, CanUser, Good, Graph, DoFiber, DoThread, DoSig, DoUser;
    StepKinds(s, st);
    match st
    case Fiber(a, f) => FiberGraph(s, a, f);
    case Thread(a, t) => ThreadGraph(s, a, t);
    case Signaller(a, g) => SigGraph(s, a, g);
    case User(a, o) => UserGraph(s, a, o);
    case NewPrim(p) => NewPrimGraph(s, p);
  }

  lemma InitGraph(s: State)
    requires Init(s)
    ensures Graph(s)
  {
    assert forall a :: At(s, a) == Out;
  }

  lemma {:induction false} RunGraph(ss: seq<State>, steps: seq<Step>, k: nat)
    requires Run(ss, steps) && k < |ss| && ss[0].monotone
    ensures Graph(ss[k]) && ss[k].monotone
  {
    hide Good, Graph, Can, Do, Init;
    if k == 0 {
      InitGraph(ss[0]);
    } else {
      RunGraph(ss, steps, k - 1);
      RunGood(ss, steps, k - 1);
      assert Can(ss[k - 1], steps[k - 1]) && Do(ss[k - 1], steps[k - 1]) == ss[k];
      StepGraph(ss[k - 1], steps[k - 1]);
    }
  }

  // ---------------------------------------------------------------------------------------------
  // Settled states
  // ---------------------------------------------------------------------------------------------

  // Nobody is inside signal() or any().
  ghost predicate Settled(s: State) {
    forall a :: Graphless(At(s, a))
  }

  lemma {:induction false} LightSpreads(s: State, o: int, e: int)
    requires Graph(s) && Settled(s) && Leads(s.ev, o, e) && Known(s, o) && s.ev[o].direct
    ensures s.ev[e].signalled
    decreases e
  {
    if o != e {
      var x :| x in s.ev[e].sources && 0 <= x < e && Leads(s.ev, o, x);
      LightSpreads(s, o, x);
      assert Built(s) && Closed(s);
      assert forall a :: !Building(At(s, a), x, e) && !PcCovers(s.ev, At(s, a), x, e);
    }
  }

  /** In a settled state an event is signalled exactly when it, or an event it was made from through any(),
      was signalled initially or by a direct call of signal(). */
  lemma SignalledIff(ss: seq<State>, steps: seq<Step>, k: nat, e: int)
    requires Run(ss, steps) && k < |ss| && ss[0].monotone && Settled(ss[k]) && Known(ss[k], e)
    ensures ss[k].ev[e].signalled <==> exists o :: Known(ss[k], o) && ss[k].ev[o].direct && Leads(ss[k].ev, o, e)
  {
    RunGraph(ss, steps, k);
    var s := ss[k];
    assert Traced(s.ev);
    hide Run, Settled, Graph;
    if o :| Known(s, o) && s.ev[o].direct && Leads(s.ev, o, e) { LightSpreads(s, o, e); }
  }

  // Nothing is pending on behalf of an event whose mutex is free.
  lemma NothingPending(s: State, e: int, d: int)
    requires Core(s) && Closed(s) && Free(s, Ev(e)) && Known(s, e) && Known(s, d) && s.ev[e].signalled
             && d in s.ev[e].deps
    ensures s.ev[d].signalled
  {
    if !s.ev[d].signalled {
      var a :| PcCovers(s.ev, At(s, a), e, d);
      CoverHolds(s.ev, At(s, a).stack, -1, e, d);
      assert Holds(At(s, a), WorkOf(s, a), Ev(e));
      assert false;
    }
  }

  lemma GraphParts(s: State)
    requires Graph(s)
    ensures Closed(s) && Traced(s.ev)
  {}

  /** In every state, also amid signals: a signalled event goes back to a direct signal, and each dependent of a
      signalled event whose mutex is free is signalled. */
  lemma SignalsSpread(ss: seq<State>, steps: seq<Step>, k: nat, e: int, d: int)
    requires Run(ss, steps) && k < |ss| && ss[0].monotone && Known(ss[k], e) && ss[k].ev[e].signalled
    ensures exists o :: Known(ss[k], o) && ss[k].ev[o].direct && Leads(ss[k].ev, o, e)
    ensures Known(ss[k], d) && d in ss[k].ev[e].deps && Free(ss[k], Ev(e)) ==> ss[k].ev[d].signalled
  {
    RunGraph(ss, steps, k);
    RunGood(ss, steps, k);
    var s := ss[k];
    GraphParts(s);
    assert Good(s) ==> Core(s);
    hide Run, Good, Graph, Core, Closed;
    if Known(s, d) && d in s.ev[e].deps && Free(s, Ev(e)) { NothingPending(s, e, d); }
    var o := s.ev[e].origin;
    assert Known(s, o) && s.ev[o].direct && Leads(s.ev, o, e);
  }

  // Who still has to signal for e holds its mutex.
  lemma {:induction false} CoverHolds(ev: seq<Prim>, st: Stack, over: int, e: int, d: int)
    requires Covers(ev, st, over, e, d)
    ensures StackHolds(st, Ev(e))
  {
    if !FrameCovers(ev, st.top, over, e, d) { CoverHolds(ev, st.below, Entering(st.top), e, d); }
  }

  function Depth(st: Stack): nat {
    if st.Push? then 1 + Depth(st.below) else 0
  }

  lemma {:induction false} DepthBelow(ev: seq<Prim>, st: Stack, ret: Return)
    requires Ordered(ev) && GoodStack(ev, st, ret)
    ensures Depth(st) <= st.top.e + 1 <= |ev|
  {
    if st.below.Push? {
      assert Linked(ev, st.top, st.below.top) && GoodFrame(ev, st.below.top);
      assert st.below.top.ph.SDeps? ==> st.top.e in ev[st.below.top.e].deps;
      DepthBelow(ev, st.below, ret);
    }
  }

  /** signal() recurses no deeper than there are events, and never enters an event whose mutex it holds. */
  lemma SignalNeverReenters(ss: seq<State>, steps: seq<Step>, k: nat, a: int)
    requires Run(ss, steps) && k < |ss| && At(ss[k], a).Sig?
    ensures Depth(At(ss[k], a).stack) <= |ss[k].ev|
    ensures var st := At(ss[k], a).stack;
            && st.Push?
            && (st.top.ph.SLock? || st.top.ph.ALock? ==>
                  Ev(st.top.e) !in ss[k].mx || ss[k].mx[Ev(st.top.e)] != a)
  {
    RunGood(ss, steps, k);
    var s, st, ret := ss[k], At(ss[k], a).stack, At(ss[k], a).ret;
    assert GoodPc(s, a) && Ordered(s.ev) && LocksOk(s);
    hide Run;
    DepthBelow(s.ev, st, ret);
    NotHeldBelow(s, a, st.top, st.below, ret, Ev(st.top.e));
    assert st.top.ph.SLock? || st.top.ph.ALock? ==> !Holds(At(s, a), WorkOf(s, a), Ev(st.top.e));
  }
}
