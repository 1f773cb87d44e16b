/** Events and the graph between them as one thread runs it: signal() in its own recursive form, and any()
    (include/hfts/event.hpp). Module EventGraph has the graph of Manual events under any interleaving. */
module EventObjects {
  import opened Collections

  datatype Mode = Auto | Manual

  // A call of notify_one() or notify_all() for the waiters of an event.
  datatype Notice = NotifyOne(e: int) | NotifyAll(e: int)

  // The dependents of event x are deps[x]; they are newer than x.
  ghost predicate Newer(deps: seq<seq<int>>) {
    forall x, d {:trigger d in deps[x]} :: 0 <= x < |deps| && d in deps[x] ==> x < d < |deps|
  }

  /** e is o or depends on it, directly or indirectly. */
  ghost predicate Reaches(deps: seq<seq<int>>, o: int, e: int)
    decreases e
  {
    0 <= e < |deps| && (o == e || exists x :: 0 <= x < e && e in deps[x] && Reaches(deps, o, x))
  }

  /** The same, along events none of which is signalled. */
  ghost predicate Spreads(deps: seq<seq<int>>, lit: seq<bool>, o: int, e: int)
    requires |lit| == |deps|
    decreases e
  {
    0 <= e < |deps| && !lit[e] && (o == e || exists x :: 0 <= x < e && e in deps[x] && Spreads(deps, lit, o, x))
  }

  // The dependents of a signalled event are signalled: nothing has been reset since.
  ghost predicate Settled(deps: seq<seq<int>>, lit: seq<bool>)
    requires |lit| == |deps| && Newer(deps)
  {
    forall x, d {:trigger d in deps[x]} :: 0 <= x < |deps| && lit[x] && d in deps[x] ==> lit[d]
  }

  // A path that goes on from a dependent of o, with more events signalled than there were.
  lemma {:induction false} SpreadsOn(deps: seq<seq<int>>, lit: seq<bool>, mid: seq<bool>, o: int, d: int, e: int)
    requires |lit| == |mid| == |deps| && Newer(deps) && 0 <= o < |deps| && !lit[o] && d in deps[o]
    requires Spreads(deps, mid, d, e) && forall x :: 0 <= x < |deps| && lit[x] ==> mid[x]
    ensures Spreads(deps, lit, o, e)
    decreases e
  {
    if d == e {
      assert Spreads(deps, lit, o, o);
    } else {
      var x :| 0 <= x < e && e in deps[x] && Spreads(deps, mid, d, x);
      SpreadsOn(deps, lit, mid, o, d, x);
    }
  }

  /** Where nothing has been reset, signalling e signals all that depends on e, and leaves things so. */
  lemma {:induction false} SpreadsWhenSettled(deps: seq<seq<int>>, lit: seq<bool>, o: int, e: int)
    requires |lit| == |deps| && Newer(deps) && Settled(deps, lit) && 0 <= e < |deps|
    ensures lit[e] || Spreads(deps, lit, o, e) <==> lit[e] || Reaches(deps, o, e)
    decreases e
  {
    forall x | 0 <= x < e && e in deps[x]
      ensures lit[x] || Spreads(deps, lit, o, x) <==> lit[x] || Reaches(deps, o, x)
    {
      SpreadsWhenSettled(deps, lit, o, x);
    }
    if Spreads(deps, lit, o, e) && o != e {
      var x :| 0 <= x < e && e in deps[x] && Spreads(deps, lit, o, x);
      assert lit[x] || Reaches(deps, o, x);
    }
  }

  // ---------------------------------------------------------------------------------------------
  // One call of Shared::signal()
  // ---------------------------------------------------------------------------------------------

  function NoticeOf(mode: Mode, e: int): Notice {
    if mode.Auto? then NotifyOne(e) else NotifyAll(e)
  }

  // x is one of the events lit between the two states.
  ghost predicate Wakes(modes: seq<Mode>, lit: seq<bool>, now: seq<bool>, x: int)
    requires |lit| == |now| == |modes|
  {
    0 <= x < |modes| && now[x] && !lit[x]
  }

  // Each event lit between the two states has been given its notice, once.
  ghost predicate Notified(modes: seq<Mode>, lit: seq<bool>, now: seq<bool>, news: seq<Notice>)
    requires |lit| == |now| == |modes|
  {
    && NoDup(news)
    && (forall x :: 0 <= x < |modes| ==> (NoticeOf(modes[x], x) in news <==> now[x] && !lit[x]))
    && (forall n :: n in news ==> 0 <= n.e < |modes| && n == NoticeOf(modes[n.e], n.e))
  }

  // The call for e has come from `lit` to `now`; e may still have dependents to signal.
  ghost predicate Under(deps: seq<seq<int>>, lit: seq<bool>, now: seq<bool>, e: int)
    requires |lit| == |now| == |deps| && Newer(deps)
  {
    && (forall x :: 0 <= x < |deps| && lit[x] ==> now[x])
    && (forall x :: 0 <= x < |deps| && now[x] && !lit[x] ==> Spreads(deps, lit, e, x))
    && (forall x, d {:trigger d in deps[x]} ::
          0 <= x < |deps| && now[x] && !lit[x] && x != e && d in deps[x] ==> now[d])
  }

  /** Exactly e and what it spreads to have been lit. */
  ghost predicate Lit(deps: seq<seq<int>>, lit: seq<bool>, now: seq<bool>, e: int)
    requires |lit| == |now| == |deps|
  {
    forall x :: 0 <= x < |deps| ==> (now[x] <==> lit[x] || Spreads(deps, lit, e, x))
  }

  // signal() of an event that is signalled already does nothing.
  lemma {:induction false} NoSpread(deps: seq<seq<int>>, lit: seq<bool>, e: int, x: int)
    requires |lit| == |deps| && Spreads(deps, lit, e, x) && 0 <= e < |deps|
    ensures !lit[e]
    decreases x
  {
    if x != e {
      var y :| 0 <= y < x && x in deps[y] && Spreads(deps, lit, e, y);
      NoSpread(deps, lit, e, y);
    }
  }

  // What a call has done before it comes to the dependents of e.
  lemma CallStarts(modes: seq<Mode>, deps: seq<seq<int>>, lit: seq<bool>, e: int)
    requires |lit| == |modes| == |deps| && Newer(deps) && 0 <= e < |deps|
    ensures lit[e] ==> Lit(deps, lit, lit, e) && Notified(modes, lit, lit, [])
    ensures !lit[e] ==> Under(deps, lit, lit[e := true], e)
    ensures !lit[e] ==> Notified(modes, lit, lit[e := true], [NoticeOf(modes[e], e)])
  {
    if lit[e] {
      forall x | 0 <= x < |deps| ensures !Spreads(deps, lit, e, x) {
        if Spreads(deps, lit, e, x) { NoSpread(deps, lit, e, x); }
      }
    } else {
      assert Spreads(deps, lit, e, e);
    }
  }

  lemma OneMore(deps: seq<seq<int>>, lit: seq<bool>, mid: seq<bool>, now: seq<bool>, e: int, d: int)
    requires |lit| == |mid| == |now| == |deps| && Newer(deps) && 0 <= e < |deps| && !lit[e]
    requires Under(deps, lit, mid, e) && Lit(deps, mid, now, d) && d in deps[e]
    ensures Under(deps, lit, now, e) && now[d]
    ensures forall x :: 0 <= x < |deps| ==> (lit[x] ==> mid[x]) && (mid[x] ==> now[x])
  {
    assert mid[d] || Spreads(deps, mid, d, d);
    forall x | 0 <= x < |deps| && now[x] && !mid[x] ensures Spreads(deps, lit, e, x) {
      SpreadsOn(deps, lit, mid, e, d, x);
    }
    forall x, y {:trigger y in deps[x]} | 0 <= x < |deps| && now[x] && !lit[x] && x != e && y in deps[x]
      ensures now[y]
    {
      if !mid[x] { assert mid[y] || Spreads(deps, mid, d, y); }
    }
  }

  lemma MoreNotices(modes: seq<Mode>, lit: seq<bool>, mid: seq<bool>, now: seq<bool>, a: seq<Notice>, b: seq<Notice>)
    requires |lit| == |mid| == |now| == |modes|
    requires Notified(modes, lit, mid, a) && Notified(modes, mid, now, b)
    requires forall x :: 0 <= x < |modes| ==> (lit[x] ==> mid[x]) && (mid[x] ==> now[x])
    ensures Notified(modes, lit, now, a + b)
  {
    forall n | n in a ensures n !in b {
      assert NoticeOf(modes[n.e], n.e) in a;
    }
    forall i, j | 0 <= i < j < |a + b| ensures (a + b)[i] != (a + b)[j] {
      if i < |a| <= j { assert a[i] in a && b[j - |a|] in b; }
    }
  }

  lemma {:induction false} AllLit(deps: seq<seq<int>>, lit: seq<bool>, now: seq<bool>, e: int, x: int)
    requires |lit| == |now| == |deps| && Newer(deps) && 0 <= e < |deps| && Under(deps, lit, now, e)
    requires now[e] && (forall d :: d in deps[e] ==> now[d]) && Spreads(deps, lit, e, x)
    ensures now[x]
    decreases x
  {
    if x != e {
      var y :| 0 <= y < x && x in deps[y] && Spreads(deps, lit, e, y);
      AllLit(deps, lit, now, e, y);
    }
  }

  lemma CallEnds(deps: seq<seq<int>>, lit: seq<bool>, now: seq<bool>, e: int)
    requires |lit| == |now| == |deps| && Newer(deps) && 0 <= e < |deps| && Under(deps, lit, now, e)
    requires now[e] && (forall d :: d in deps[e] ==> now[d])
    ensures Lit(deps, lit, now, e)
  {
    forall x | 0 <= x < |deps| && Spreads(deps, lit, e, x) ensures now[x] { AllLit(deps, lit, now, e, x); }
  }

  // ---------------------------------------------------------------------------------------------
  // The events of a program as a value
  // ---------------------------------------------------------------------------------------------

  datatype Table = Table(
    modes: seq<Mode>,
    deps: seq<seq<int>>,
    born: seq<bool>,              // history: those signalled from the start
    signalled: seq<bool>,
    notices: seq<Notice>,         // history: the notify calls made
    direct: set<int>)             // history: the events signalled from outside, or from the start

  ghost predicate Sound(t: Table) {
    |t.signalled| == |t.deps| == |t.modes| == |t.born| && Newer(t.deps)
  }

  ghost predicate FromDirect(t: Table, e: int) {
    exists o :: o in t.direct && Reaches(t.deps, o, e)
  }

  /** What holds as long as nothing is reset: an event is signalled exactly when it depends on one that was
      signalled directly, and its waiters have been notified exactly once unless it was created so. */
  ghost predicate Whole(t: Table) {
    && Sound(t) && Settled(t.deps, t.signalled) && (forall o :: o in t.direct ==> 0 <= o < |t.deps|)
    && (forall e :: 0 <= e < |t.deps| ==> (t.signalled[e] <==> FromDirect(t, e)))
    && Notified(t.modes, t.born, t.signalled, t.notices) && forall e :: 0 <= e < |t.born| && t.born[e] ==>
       t.signalled[e]
  }

  lemma CreateKeepsWhole(t: Table, mode: Mode, initial: bool)
    requires Whole(t)
    ensures Whole(Table(t.modes + [mode], t.deps + [[]], t.born + [initial], t.signalled + [initial], t.notices,
                        t.direct + (if initial then {|t.deps|} else {})))
  {
    var m, deps := |t.deps|, t.deps + [[]];
    var u := Table(t.modes + [mode], deps, t.born + [initial], t.signalled + [initial], t.notices,
                   t.direct + (if initial then {m} else {}));
    assert forall x :: 0 <= x < m ==> deps[x] == t.deps[x];
    forall e, o | 0 <= e < m ensures Reaches(deps, o, e) <==> Reaches(t.deps, o, e) { SamePast(t.deps, deps, o, e); }
    forall e | 0 <= e < m ensures !Reaches(deps, m, e) {
      if Reaches(deps, m, e) { ReachesForward(deps, m, e); }
    }
    assert forall o :: Reaches(deps, o, m) <==> o == m;
    forall e | 0 <= e < m ensures u.signalled[e] <==> FromDirect(u, e) {
      assert t.signalled[e] <==> FromDirect(t, e);
    }
    assert FromDirect(u, m) <==> initial;
    OneModeMore(t.modes, t.born, t.signalled, t.notices, mode, initial);
  }

  // The newest event m becomes a dependent of s, and is signalled if s is.
  lemma SourceKeepsWhole(t: Table, s: int, m: int, now: seq<bool>, news: seq<Notice>)
    requires Whole(t) && 0 <= s < m == |t.deps| - 1
    requires now == t.signalled[m := t.signalled[m] || t.signalled[s]] && Notified(t.modes, t.signalled, now, news)
    ensures Whole(t.(deps := t.deps[s := t.deps[s] + [m]], signalled := now, notices := t.notices + news))
  {
    var u := t.(deps := t.deps[s := t.deps[s] + [m]], signalled := now, notices := t.notices + news);
    EdgeReaches(t.deps, u.deps, s, m);
    MoreNotices(t.modes, t.born, t.signalled, now, t.notices, news);
    hide Reaches, Notified, NoticeOf;
    forall e | 0 <= e < |u.deps| ensures now[e] <==> FromDirect(u, e) {
      assert t.signalled[e] <==> FromDirect(t, e);
      assert t.signalled[s] <==> FromDirect(t, s);
    }
  }

  /** Where nothing has been reset, signalling e signals all that depends on it. */
  lemma SignalKeepsWhole(t: Table, e: int, now: seq<bool>, news: seq<Notice>)
    requires Whole(t) && 0 <= e < |t.deps| && |now| == |t.deps|
    requires Lit(t.deps, t.signalled, now, e) && Notified(t.modes, t.signalled, now, news)
    ensures Whole(t.(signalled := now, notices := t.notices + news, direct := t.direct + {e}))
    ensures forall x :: 0 <= x < |t.deps| ==> (now[x] <==> t.signalled[x] || Reaches(t.deps, e, x))
  {
    var u := t.(signalled := now, notices := t.notices + news, direct := t.direct + {e});
    StaysSettled(t.deps, t.signalled, now, e);
    MoreNotices(t.modes, t.born, t.signalled, now, t.notices, news);
    hide Reaches, Notified, NoticeOf;
    forall x | 0 <= x < |t.deps| ensures now[x] <==> FromDirect(u, x) {
      assert t.signalled[x] <==> FromDirect(t, x);
      assert FromDirect(u, x) <==> FromDirect(t, x) || Reaches(t.deps, e, x);
    }
  }

  // ---------------------------------------------------------------------------------------------
  // The same as an object
  // ---------------------------------------------------------------------------------------------

  class EventTable {
    var modes: seq<Mode>
    var signalled: seq<bool>
    var deps: seq<seq<int>>
    var notices: seq<Notice>      // history: the notify calls made
    ghost var direct: set<int>    // history: the events signalled from outside, or from the start
    ghost var born: seq<bool>     // history: those signalled from the start

    ghost predicate Valid()
      reads this
    {
      Sound(View())
    }

    ghost function View(): Table
      reads this
    {
      Table(modes, deps, born, signalled, notices, direct)
    }

    constructor ()
      ensures Valid() && Whole(View()) && deps == []
    {
      modes, signalled, deps, notices, direct, born := [], [], [], [], {}, [];
    }

    /** Shared::signal(): marks the event, notifies one waiter or all, and signals its dependents; it stops at
        events that are signalled already. */
    method SignalShared(e: int) returns (ghost news: seq<Notice>)
      requires Valid() && 0 <= e < |deps|
      modifies this`signalled, this`notices
      ensures Valid() && notices == old(notices) + news
      ensures Lit(deps, old(signalled), signalled, e) && Notified(modes, old(signalled), signalled, news)
      decreases |deps| - e
    {
      hide Spreads, Lit, Notified, Under, NoticeOf;
      ghost var lit := signalled;
      news := [];
      CallStarts(modes, deps, lit, e);
      if signalled[e] { return; }
      signalled := signalled[e := true];
      news := [NoticeOf(modes[e], e)];
      notices := notices + [NoticeOf(modes[e], e)];
      var i := 0;
      while i < |deps[e]|
        invariant 0 <= i <= |deps[e]| && Valid() && notices == old(notices) + news
        invariant Under(deps, lit, signalled, e) && Notified(modes, lit, signalled, news)
        invariant signalled[e] && forall d :: d in deps[e][..i] ==> e < d < |deps| && signalled[d]
      {
        var d := deps[e][i];
        assert d in deps[e];
        ghost var mid := signalled;
        ghost var more := SignalShared(d);
        OneMore(deps, lit, mid, signalled, e, d);
        MoreNotices(modes, lit, mid, signalled, news, more);
        news := news + more;
        assert deps[e][..i + 1] == deps[e][..i] + [d];
        i := i + 1;
      }
      assert deps[e][..i] == deps[e];
      CallEnds(deps, lit, signalled, e);
    }

    /** Event::signal() lights exactly the event and what depends on it along events not signalled, and notifies
        their waiters, one or all of them by mode. A direct dependent is signalled afterwards exactly if it was
        before or the event was not; so one that was reset alone is not signalled again. */
    method Signal(e: int) returns (ghost news: seq<Notice>)
      requires Valid() && 0 <= e < |deps|
      modifies this`signalled, this`notices, this`direct
      ensures Valid() && deps == old(deps) && modes == old(modes) && direct == old(direct) + {e}
      ensures Lit(deps, old(signalled), signalled, e)
      ensures notices == old(notices) + news && Notified(modes, old(signalled), signalled, news)
      ensures forall d :: d in deps[e] ==> (signalled[d] <==> old(signalled)[d] || !old(signalled)[e])
      ensures Whole(old(View())) ==>
                Whole(View()) && forall x :: 0 <= x < |deps| ==>
                    (signalled[x] <==> old(signalled)[x] || Reaches(deps, e, x))
      ensures forall x :: NotifyOne(x) in news <==> Wakes(modes, old(signalled), signalled, x) && modes[x].Auto?
      ensures forall x :: NotifyAll(x) in news <==> Wakes(modes, old(signalled), signalled, x) && modes[x].Manual?
      ensures signalled[e] && (old(signalled)[e] ==> news == [])
    {
      ghost var was, lit := View(), signalled;
      news := SignalShared(e);
      direct := direct + {e};
      NoticesAre(modes, deps, lit, signalled, news, e);
      hide Spreads, Lit, Notified, Under, NoticeOf, Wakes;
      forall d | d in deps[e] ensures signalled[d] <==> lit[d] || !lit[e] { Dependent(deps, lit, e, d); }
      if Whole(was) { SignalKeepsWhole(was, e, signalled, news); }
    }

    /** clear(), and what test() and a wait that returns do to an Auto event. Only this breaks Whole. */
    method Reset(e: int)
      requires Valid() && 0 <= e < |deps|
      modifies this`signalled
      ensures Valid() && signalled == old(signalled)[e := false]
    {
      signalled := signalled[e := false];
    }

    /** A new event, signalled from the start or not; nobody waits for it yet. */
    method Create(mode: Mode, initial: bool) returns (m: int)
      requires Valid()
      modifies this`deps, this`signalled, this`modes, this`born, this`direct
      ensures Valid() && m == |old(deps)| && deps == old(deps) + [[]] && modes == old(modes) + [mode]
      ensures signalled == old(signalled) + [initial] && notices == old(notices)
      ensures direct == old(direct) + (if initial then {m} else {})
      ensures Whole(old(View())) ==> Whole(View())
    {
      m := |deps|;
      ghost var was := View();
      deps, signalled, modes, born := deps + [[]], signalled + [initial], modes + [mode], born + [initial];
      if initial { direct := direct + {m}; }
      assert forall x :: 0 <= x < m ==> deps[x] == was.deps[x];
      if Whole(was) {
        CreateKeepsWhole(was, mode, initial);
        assert View().direct == was.direct + (if initial then {m} else {});
      }
    }

    // One round of any(): m, the newest event, is signalled if s is, and becomes a dependent of s.
    method AddSource(s: int, m: int)
      requires Valid() && 0 <= s < m == |deps| - 1
      modifies this`deps, this`signalled, this`notices
      ensures Valid() && direct == old(direct) && modes == old(modes)
      ensures deps == old(deps)[s := old(deps)[s] + [m]]
      ensures signalled == old(signalled)[m := old(signalled)[m] || old(signalled)[s]]
      ensures notices == old(notices)
              + (if old(signalled)[s] && !old(signalled)[m] then [NoticeOf(modes[m], m)] else [])
      ensures Whole(old(View())) ==> Whole(View())
    {
      ghost var was, lit := View(), signalled;
      ghost var news: seq<Notice> := [];
      if signalled[s] {
        news := SignalShared(m);
        forall x | 0 <= x < |deps| && Spreads(deps, lit, m, x) ensures x == m { NotBackwards(deps, lit, m, x); }
        assert Spreads(deps, lit, m, m) <==> !lit[m];
        OnlyNotice(modes, lit, signalled, news, m);
      }
      assert signalled == lit[m := lit[m] || lit[s]];
      deps := deps[s := deps[s] + [m]];
      if Whole(was) {
        assert Notified(modes, lit, signalled, news);
        SourceKeepsWhole(was, s, m, signalled, news);
      }
    }

    /** Event::any(): a new event that depends on the sources. It is signalled, and a notice given, exactly if one
        of them is signalled. */
    method Any(mode: Mode, sources: seq<int>) returns (m: int)
      requires Valid() && forall s :: s in sources ==> 0 <= s < |deps|
      modifies this`deps, this`signalled, this`modes, this`born, this`direct, this`notices
      ensures Valid() && m == |old(deps)| == |deps| - 1 && modes == old(modes) + [mode] && direct == old(direct)
      ensures signalled[..m] == old(signalled) && (signalled[m] <==> exists s :: s in sources && old(signalled)[s])
      ensures forall x :: 0 <= x < m ==> old(deps)[x] <= deps[x] && (m in deps[x] <==> x in sources)
      ensures notices == old(notices) + (if signalled[m] then [NoticeOf(mode, m)] else [])
      ensures Whole(old(View())) ==> Whole(View())
      ensures notices == old(notices) + if !signalled[m] then []
                                        else [if mode.Auto? then NotifyOne(m) else NotifyAll(m)]
    {
      ghost var before, lit := deps, signalled;
      m := Create(mode, false);
      var i := 0;
      while i < |sources|
        invariant 0 <= i <= |sources| && Valid() && m == |before| == |deps| - 1 && direct == old(direct)
        invariant modes == old(modes) + [mode] && (Whole(old(View())) ==> Whole(View()))
        invariant signalled[..m] == lit && (signalled[m] <==> exists s :: 0 <= s < m && s in sources[..i] && lit[s])
        invariant notices == old(notices) + (if signalled[m] then [NoticeOf(mode, m)] else [])
        invariant forall x :: 0 <= x < m ==> before[x] <= deps[x] && (m in deps[x] <==> x in sources[..i])
      {
        assert sources[..i + 1] == sources[..i] + [sources[i]] && sources[i] in sources;
        assert signalled[sources[i]] == signalled[..m][sources[i]];
        AddSource(sources[i], m);
        i := i + 1;
      }
      assert sources[..i] == sources;
    }
  }

  lemma OnlyNotice(modes: seq<Mode>, lit: seq<bool>, now: seq<bool>, news: seq<Notice>, m: int)
    requires |lit| == |now| == |modes| && 0 <= m < |modes| && Notified(modes, lit, now, news) && now[m]
    requires forall x :: 0 <= x < |modes| && now[x] && !lit[x] ==> x == m
    ensures news == if lit[m] then [] else [NoticeOf(modes[m], m)]
  {
    var n := NoticeOf(modes[m], m);
    forall x | x in news ensures x == n {
      assert NoticeOf(modes[x.e], x.e) in news;
    }
    AtMostOne(news, n);
  }

  lemma OneModeMore(modes: seq<Mode>, born: seq<bool>, lit: seq<bool>, notices: seq<Notice>, mode: Mode, initial: bool)
    requires |lit| == |born| == |modes| && Notified(modes, born, lit, notices)
    ensures Notified(modes + [mode], born + [initial], lit + [initial], notices)
  {
    var n := NoticeOf(mode, |modes|);
    assert n in notices ==> 0 <= n.e < |modes|;
  }

  // Who is notified, and how.
  lemma NoticesAre(modes: seq<Mode>, deps: seq<seq<int>>, lit: seq<bool>, now: seq<bool>, news: seq<Notice>, e: int)
    requires |lit| == |now| == |modes| == |deps| && Newer(deps) && 0 <= e < |modes|
    requires Lit(deps, lit, now, e) && Notified(modes, lit, now, news)
    ensures forall x :: NotifyOne(x) in news <==> Wakes(modes, lit, now, x) && modes[x].Auto?
    ensures forall x :: NotifyAll(x) in news <==> Wakes(modes, lit, now, x) && modes[x].Manual?
    ensures now[e] && (lit[e] ==> news == [])
  {
    assert Spreads(deps, lit, e, e) <==> !lit[e];
    forall x ensures NotifyOne(x) in news <==> Wakes(modes, lit, now, x) && modes[x].Auto? {
      if Wakes(modes, lit, now, x) { assert NoticeOf(modes[x], x) in news; }
    }
    forall x ensures NotifyAll(x) in news <==> Wakes(modes, lit, now, x) && modes[x].Manual? {
      if Wakes(modes, lit, now, x) { assert NoticeOf(modes[x], x) in news; }
    }
    if news != [] {
      var x := news[0].e;
      assert news[0] in news;
      assert Wakes(modes, lit, now, x) && Spreads(deps, lit, e, x);
      NoSpread(deps, lit, e, x);
    }
  }

  lemma {:induction false} ReachesForward(deps: seq<seq<int>>, o: int, e: int)
    requires Reaches(deps, o, e)
    ensures o <= e
    decreases e
  {
    if o != e {
      var x :| 0 <= x < e && e in deps[x] && Reaches(deps, o, x);
      ReachesForward(deps, o, x);
    }
  }

  lemma Dependent(deps: seq<seq<int>>, lit: seq<bool>, e: int, d: int)
    requires |lit| == |deps| && Newer(deps) && 0 <= e < |deps| && d in deps[e]
    ensures lit[d] || Spreads(deps, lit, e, d) <==> lit[d] || !lit[e]
  {
    assert Spreads(deps, lit, e, e) <==> !lit[e];
    if Spreads(deps, lit, e, d) { NoSpread(deps, lit, e, d); }
  }

  lemma StaysSettled(deps: seq<seq<int>>, lit: seq<bool>, now: seq<bool>, e: int)
    requires |lit| == |now| == |deps| && Newer(deps) && 0 <= e < |deps| && Settled(deps, lit) && Lit(deps, lit, now, e)
    ensures Settled(deps, now) && forall x :: 0 <= x < |deps| ==> (now[x] <==> lit[x] || Reaches(deps, e, x))
  {
    forall x | 0 <= x < |deps| ensures now[x] <==> lit[x] || Reaches(deps, e, x) {
      SpreadsWhenSettled(deps, lit, e, x);
    }
  }

  lemma {:induction false} NotBackwards(deps: seq<seq<int>>, lit: seq<bool>, o: int, e: int)
    requires |lit| == |deps| && Spreads(deps, lit, o, e)
    ensures o <= e
    decreases e
  {
    if o != e {
      var x :| 0 <= x < e && e in deps[x] && Spreads(deps, lit, o, x);
      NotBackwards(deps, lit, o, x);
    }
  }

  // A new edge from s to the newest event m
  lemma EdgeReaches(p: seq<seq<int>>, q: seq<seq<int>>, s: int, m: int)
    requires 0 <= s < m == |p| - 1 && q == p[s := p[s] + [m]]
    ensures forall o, e :: 0 <= e < m ==> (Reaches(q, o, e) <==> Reaches(p, o, e))
    ensures forall o :: Reaches(q, o, m) <==> Reaches(p, o, m) || Reaches(p, o, s)
  {
    forall o, e | 0 <= e < m ensures Reaches(q, o, e) <==> Reaches(p, o, e) { SamePast(p, q, o, e); }
    assert forall x :: 0 <= x < m ==> (m in q[x] <==> m in p[x] || x == s);
  }

  // Who e depends on is decided by the edges to e and older events.
  lemma {:induction false} SamePast(p: seq<seq<int>>, q: seq<seq<int>>, o: int, e: int)
    requires 0 <= e < |p| && e < |q|
    requires forall x, y {:trigger y in p[x]} {:trigger y in q[x]} :: 0 <= x < y <= e ==> (y in p[x] <==> y in q[x])
    ensures Reaches(p, o, e) <==> Reaches(q, o, e)
    decreases e
  {
    forall x | 0 <= x < e ensures Reaches(p, o, x) <==> Reaches(q, o, x) { SamePast(p, q, o, x); }
  }
}
