/** The index of fibers that wait with a deadline: `WaitingFibers` of include/hfts/waitingfiber.hpp.
    It is kept twice, as an ordered set of (time point, fiber) pairs and as a map from fiber to time point.
    An ordered set is modelled by the strictly increasing sequence of its elements; a fiber by its address. */
module Timeouts {
  import opened Wrappers

  type Time = int

  datatype Timeout = Timeout(timepoint: Time, fiber: int)

  // The order of the set: by time point, then by fiber address.
  predicate Less(a: Timeout, b: Timeout) {
    if a.timepoint != b.timepoint then a.timepoint < b.timepoint else a.fiber < b.fiber
  }

  ghost predicate Increasing(s: seq<Timeout>) {
    forall i, j :: 0 <= i < j < |s| ==> Less(s[i], s[j])
  }

  datatype Index = Index(timeouts: seq<Timeout>, fibers: map<int, Time>)

  const EMPTY := Index([], map[])

  /** The two halves are exact inverses of each other. */
  ghost predicate Consistent(ix: Index) {
    && Increasing(ix.timeouts)
    && (forall t :: t in ix.timeouts ==> t.fiber in ix.fibers && ix.fibers[t.fiber] == t.timepoint)
    && (forall f :: f in ix.fibers ==> Timeout(ix.fibers[f], f) in ix.timeouts)
  }

  // ---------------------------------------------------------------------------------------------
  // Ordered set
  // ---------------------------------------------------------------------------------------------

  function Insert(s: seq<Timeout>, t: Timeout): (r: seq<Timeout>)
    ensures forall x :: x in r <==> x in s || x == t
    ensures Increasing(s) ==> Increasing(r)
  {
    if s == [] then [t]
    else if t == s[0] then s
    else if Less(t, s[0]) then [t] + s
    else
      var rest := Insert(s[1..], t);
      assert forall x :: x in s <==> x == s[0] || x in s[1..];
      assert Increasing(s) ==> forall x :: x in rest ==> Less(s[0], x);
      [s[0]] + rest
  }

  function Remove(s: seq<Timeout>, t: Timeout): (r: seq<Timeout>)
    ensures Increasing(s) ==> Increasing(r) && (forall x :: x in r <==> x in s && x != t)
    ensures forall x :: x in r ==> x in s
    ensures t !in s ==> r == s
  {
    if s == [] then []
    else
      assert forall x :: x in s <==> x == s[0] || x in s[1..];
      if t == s[0] then s[1..]
      else
        var rest := Remove(s[1..], t);
        assert Increasing(s) ==> forall x :: x in rest ==> Less(s[0], x);
        [s[0]] + rest
  }

  lemma {:induction false} SameElements(s: seq<Timeout>, r: seq<Timeout>)
    requires Increasing(s) && Increasing(r)
    requires forall x :: x in s <==> x in r
    ensures s == r
  {
    assert s != [] ==> s[0] in s;
    assert r != [] ==> r[0] in r;
    if s != [] {
      assert s[0] == r[0];
      forall x ensures x in s[1..] <==> x in r[1..] {
        assert x in s <==> x == s[0] || x in s[1..];
        assert x in r <==> x == r[0] || x in r[1..];
      }
      SameElements(s[1..], r[1..]);
    }
  }

  // ---------------------------------------------------------------------------------------------
  // The operations as the source writes them
  // ---------------------------------------------------------------------------------------------

  // `emplace` on the map leaves an existing entry alone.
  function Add(ix: Index, t: Time, f: int): Index {
    Index(Insert(ix.timeouts, Timeout(t, f)), if f in ix.fibers then ix.fibers else ix.fibers[f := t])
  }

  // Undefined: the source dereferences `begin()` of an empty set.
  datatype Taken = Undefined | Taken(index: Index, fiber: Option<int>)

  function Take(ix: Index, now: Time): Taken {
    if |ix.fibers| == 0 then Taken(ix, None)
    else if ix.timeouts == [] then Undefined
    else if ix.timeouts[0].timepoint > now then Taken(ix, None)
    else Taken(ix.(fibers := ix.fibers - {ix.timeouts[0].fiber}), Some(ix.timeouts[0].fiber))
  }

  function Erase(ix: Index, f: int): Index {
    if f in ix.fibers then ix.(timeouts := Remove(ix.timeouts, Timeout(ix.fibers[f], f))) else ix
  }

  // The operations with the missing half of the removal put back.
  function TakeBoth(ix: Index, now: Time): (Index, Option<int>)
    requires Consistent(ix)
  {
    if ix.timeouts == [] || ix.timeouts[0].timepoint > now then (ix, None)
    else (Index(ix.timeouts[1..], ix.fibers - {ix.timeouts[0].fiber}), Some(ix.timeouts[0].fiber))
  }

  function EraseBoth(ix: Index, f: int): Index {
    if f in ix.fibers then Index(Remove(ix.timeouts, Timeout(ix.fibers[f], f)), ix.fibers - {f}) else ix
  }

  // ---------------------------------------------------------------------------------------------
  // When the written operations keep the two halves inverse
  // ---------------------------------------------------------------------------------------------

  /** Adding keeps the halves inverse exactly when the fiber is new or has that deadline already. */
  lemma AddConsistentIff(ix: Index, t: Time, f: int)
    requires Consistent(ix)
    ensures Consistent(Add(ix, t, f)) <==> (f in ix.fibers ==> ix.fibers[f] == t)
    ensures Add(ix, t, f).fibers == if f in ix.fibers then ix.fibers else ix.fibers[f := t]
    ensures forall x :: x in Add(ix, t, f).timeouts <==> x in ix.timeouts || x == Timeout(t, f)
  {
    var r := Add(ix, t, f);
    assert Timeout(t, f) in r.timeouts;
    if f in ix.fibers && ix.fibers[f] != t {
      assert !Consistent(r);
    }
  }

  /** `take` as written keeps the halves inverse exactly when it returns no fiber. */
  lemma TakeConsistentIff(ix: Index, now: Time)
    requires Consistent(ix)
    ensures Take(ix, now).Taken?
    ensures Consistent(Take(ix, now).index) <==> Take(ix, now).fiber == None
    ensures Take(ix, now).fiber == TakeBoth(ix, now).1
    ensures Take(ix, now).index.timeouts == ix.timeouts
    ensures Take(ix, now).index.fibers
            == if Take(ix, now).fiber.Some? then ix.fibers - {Take(ix, now).fiber.value} else ix.fibers
  {
    EmptyTogether(ix);
    if Take(ix, now).fiber.Some? {
      assert ix.timeouts[0] in Take(ix, now).index.timeouts;
    }
  }

  /** `erase` as written keeps the halves inverse exactly when the fiber has no deadline. */
  lemma EraseConsistentIff(ix: Index, f: int)
    requires Consistent(ix)
    ensures Consistent(Erase(ix, f)) <==> f !in ix.fibers
    ensures Erase(ix, f).fibers == ix.fibers
    ensures forall x :: x in Erase(ix, f).timeouts <==> x in ix.timeouts && x.fiber != f
  {
    if f in ix.fibers {
      assert f in Erase(ix, f).fibers;
      assert Timeout(ix.fibers[f], f) !in Erase(ix, f).timeouts;
    }
  }

  lemma EmptyTogether(ix: Index)
    requires Consistent(ix)
    ensures ix.timeouts == [] <==> |ix.fibers| == 0
  {
    if ix.timeouts != [] {
      assert ix.timeouts[0] in ix.timeouts;
      assert ix.timeouts[0].fiber in ix.fibers;
      assert ix.fibers != map[];
    } else {
      assert forall f :: f !in ix.fibers;
      assert ix.fibers == map[];
    }
  }

  /** With both halves removed, an erased fiber leaves no trace, and erasing undoes adding. */
  lemma EraseBothCorrect(ix: Index, f: int)
    requires Consistent(ix)
    ensures Consistent(EraseBoth(ix, f))
    ensures EraseBoth(ix, f).fibers == ix.fibers - {f}
  {
    if f !in ix.fibers {
      assert ix.fibers - {f} == ix.fibers;
    } else {
      var r := EraseBoth(ix, f);
      forall t | t in r.timeouts ensures t.fiber in r.fibers && r.fibers[t.fiber] == t.timepoint {
        assert t in ix.timeouts;
        assert t != Timeout(ix.fibers[f], f);
      }
    }
  }

  lemma EraseUndoesAdd(ix: Index, t: Time, f: int)
    requires Consistent(ix) && f !in ix.fibers
    ensures EraseBoth(Add(ix, t, f), f) == ix
  {
    var a := Add(ix, t, f);
    var r := EraseBoth(a, f);
    AddConsistentIff(ix, t, f);
    EraseBothCorrect(a, f);
    assert r.fibers == ix.fibers;
    forall x ensures x in r.timeouts <==> x in ix.timeouts {
      if x in ix.timeouts { assert x.fiber in ix.fibers; }
    }
    SameElements(r.timeouts, ix.timeouts);
  }

  lemma TakeBothCorrect(ix: Index, now: Time)
    requires Consistent(ix)
    ensures Consistent(TakeBoth(ix, now).0)
    ensures TakeBoth(ix, now).1 == None <==> forall f :: f in ix.fibers ==> ix.fibers[f] > now
    ensures TakeBoth(ix, now).1.Some? ==>
              var f := TakeBoth(ix, now).1.value;
              && f in ix.fibers && ix.fibers[f] <= now
              && TakeBoth(ix, now).0.fibers == ix.fibers - {f}
              && forall g :: g in ix.fibers && g != f ==>
                   ix.fibers[f] < ix.fibers[g] || (ix.fibers[f] == ix.fibers[g] && f < g)
  {
    EmptyTogether(ix);
    var (r, got) := TakeBoth(ix, now);
    if ix.timeouts != [] {
      assert ix.timeouts[0] in ix.timeouts;
      assert forall x :: x in ix.timeouts <==> x == ix.timeouts[0] || x in ix.timeouts[1..];
      forall f | f in ix.fibers
        ensures f == ix.timeouts[0].fiber || Less(ix.timeouts[0], Timeout(ix.fibers[f], f))
      {
        assert Timeout(ix.fibers[f], f) in ix.timeouts;
      }
      if got.Some? {
        forall t | t in r.timeouts ensures t.fiber in r.fibers && r.fibers[t.fiber] == t.timepoint {
          assert t in ix.timeouts;
          var k :| 0 <= k < |r.timeouts| && r.timeouts[k] == t;
          assert ix.timeouts[k + 1] == t;
          assert Less(ix.timeouts[0], t);
          assert ix.fibers[t.fiber] == t.timepoint;
        }
      }
    }
  }

  // ---------------------------------------------------------------------------------------------
  // enqueueFiberTimeouts (src/worker.cpp:305-311)
  // ---------------------------------------------------------------------------------------------

  /** The n-th fiber that the written loop `while (auto fiber = waiting.take(now))` takes;
      None once the loop has ended. */
  function WrittenRound(ix: Index, now: Time, n: nat): Option<int>
    decreases n
  {
    var t := Take(ix, now);
    if t.Undefined? || t.fiber == None then None
    else if n == 0 then t.fiber
    else WrittenRound(t.index, now, n - 1)
  }

  ghost predicate WrittenLoopEnds(ix: Index, now: Time) {
    exists n: nat :: WrittenRound(ix, now, n) == None
  }

  /** The written loop ends exactly when nothing is due or a single fiber waits. */
  lemma WrittenLoopEndsIff(ix: Index, now: Time)
    requires Consistent(ix)
    ensures WrittenLoopEnds(ix, now) <==> (forall f :: f in ix.fibers ==> ix.fibers[f] > now) || |ix.fibers| == 1
  {
    TakeConsistentIff(ix, now);
    TakeBothCorrect(ix, now);
    if TakeBoth(ix, now).1 == None {
      assert WrittenRound(ix, now, 0) == None;
    } else {
      var f := ix.timeouts[0].fiber;
      var r := Take(ix, now).index;
      assert ix.timeouts[0] in ix.timeouts;
      assert r.fibers.Keys == ix.fibers.Keys - {f};
      assert |r.fibers| == |r.fibers.Keys| == |ix.fibers.Keys| - 1;
      if |ix.fibers| == 1 {
        assert WrittenRound(ix, now, 1) == None;
      } else {
        forall n: nat ensures WrittenRound(ix, now, n) != None {
          if n > 0 { StuckRound(r, now, n - 1); }
        }
      }
    }
  }

  /** Once the first fiber has left the map but not the set, it is taken over and over. */
  lemma {:induction false} StuckRound(ix: Index, now: Time, n: nat)
    requires |ix.fibers| > 0 && ix.timeouts != [] && ix.timeouts[0].timepoint <= now
    requires ix.timeouts[0].fiber !in ix.fibers
    ensures WrittenRound(ix, now, n) == Some(ix.timeouts[0].fiber)
  {
    assert ix.fibers - {ix.timeouts[0].fiber} == ix.fibers;
    assert Take(ix, now).index == ix;
    if n > 0 { StuckRound(ix, now, n - 1); }
  }

  // The fibers due by `now`, in the order of the set.
  function Due(s: seq<Timeout>, now: Time): (r: seq<int>)
    ensures |r| <= |s|
    ensures forall i :: 0 <= i < |r| ==> r[i] == s[i].fiber && s[i].timepoint <= now
    ensures |r| < |s| ==> s[|r|].timepoint > now
  {
    if s == [] || s[0].timepoint > now then [] else [s[0].fiber] + Due(s[1..], now)
  }

  function Drained(ix: Index, now: Time): Index {
    var due := Due(ix.timeouts, now);
    Index(ix.timeouts[|due|..], ix.fibers - (set f | f in due))
  }

  /** A drain is one take after another. */
  lemma DrainStep(ix: Index, now: Time)
    requires Consistent(ix)
    ensures var (r, got) := TakeBoth(ix, now);
            match got
            case None => r == ix && Due(ix.timeouts, now) == [] && Drained(ix, now) == ix
            case Some(f) => Due(ix.timeouts, now) == [f] + Due(r.timeouts, now) && Drained(ix, now) == Drained(r, now)
  {
    var (r, got) := TakeBoth(ix, now);
    if got.Some? {
      var due, rest := Due(ix.timeouts, now), Due(r.timeouts, now);
      assert due == [got.value] + rest;
      WithoutAll(ix.fibers, got.value, rest);
      assert ix.timeouts[|due|..] == r.timeouts[|rest|..];
    } else {
      assert ix.fibers - (set f | f in Due(ix.timeouts, now)) == ix.fibers;
    }
  }

  lemma WithoutAll(m: map<int, Time>, f: int, rest: seq<int>)
    ensures m - (set g | g in [f] + rest) == (m - {f}) - (set g | g in rest)
  {
    assert (set g | g in [f] + rest) == {f} + (set g | g in rest);
  }

  // The due entries are the first ones of the set.
  lemma {:induction false} DueIsPrefix(s: seq<Timeout>, now: Time)
    requires Increasing(s)
    ensures forall k :: 0 <= k < |s| ==> (s[k].timepoint <= now <==> k < |Due(s, now)|)
  {
    if s != [] && s[0].timepoint <= now {
      DueIsPrefix(s[1..], now);
      forall k | 0 <= k < |s| ensures s[k].timepoint <= now <==> k < |Due(s, now)| {
        assert k > 0 ==> s[k] == s[1..][k - 1];
      }
    } else {
      forall k | 0 <= k < |s| ensures s[k].timepoint > now {
        assert k > 0 ==> Less(s[0], s[k]);
      }
    }
  }

  /** The drained fibers are exactly those due, in (time point, fiber) order. */
  lemma DueCorrect(ix: Index, now: Time)
    requires Consistent(ix)
    ensures forall f :: f in Due(ix.timeouts, now) <==> f in ix.fibers && ix.fibers[f] <= now
    ensures forall i :: 0 <= i < |Due(ix.timeouts, now)| ==>
              var f := Due(ix.timeouts, now)[i];
              f in ix.fibers && ix.timeouts[i] == Timeout(ix.fibers[f], f)
  {
    var due := Due(ix.timeouts, now);
    forall i | 0 <= i < |due|
      ensures due[i] in ix.fibers && ix.timeouts[i] == Timeout(ix.fibers[due[i]], due[i])
    {
      assert ix.timeouts[i] in ix.timeouts;
    }
    DueIsPrefix(ix.timeouts, now);
    forall f | f in ix.fibers && ix.fibers[f] <= now ensures f in due {
      var k :| 0 <= k < |ix.timeouts| && ix.timeouts[k] == Timeout(ix.fibers[f], f);
      assert due[k] == f;
    }
  }

  /** They come out by deadline, and by address where deadlines are equal. */
  lemma DueInOrder(ix: Index, now: Time, i: int, j: int)
    requires Consistent(ix) && 0 <= i < j < |Due(ix.timeouts, now)|
    ensures var f, g := Due(ix.timeouts, now)[i], Due(ix.timeouts, now)[j];
            && f in ix.fibers && g in ix.fibers
            && (ix.fibers[f] < ix.fibers[g] || (ix.fibers[f] == ix.fibers[g] && f < g))
  {
    DueCorrect(ix, now);
    assert Less(ix.timeouts[i], ix.timeouts[j]);
  }

  /** No fiber is drained twice. */
  lemma DueDistinct(ix: Index, now: Time)
    requires Consistent(ix)
    ensures forall i, j :: 0 <= i < j < |Due(ix.timeouts, now)| ==> Due(ix.timeouts, now)[i] != Due(ix.timeouts, now)[j]
  {
    DueCorrect(ix, now);
    var due := Due(ix.timeouts, now);
    forall i, j | 0 <= i < j < |due| ensures due[i] != due[j] {
      assert Less(ix.timeouts[i], ix.timeouts[j]);
    }
  }

  // What stays in the ordered set is exactly what is not due.
  lemma RestNotDue(s: seq<Timeout>, now: Time, t: Timeout)
    requires Increasing(s)
    ensures t in s[|Due(s, now)|..] <==> t in s && t.timepoint > now
  {
    var n := |Due(s, now)|;
    DueIsPrefix(s, now);
    if t in s && t.timepoint > now {
      var k :| 0 <= k < |s| && s[k] == t;
      assert s[n..][k - n] == t;
    }
    if t in s[n..] {
      var k :| 0 <= k < |s| - n && s[n..][k] == t;
      assert s[n + k] == t;
    }
  }

  /** What a drain leaves is consistent and holds exactly the fibers that are not due. */
  lemma DrainedCorrect(ix: Index, now: Time)
    requires Consistent(ix)
    ensures Consistent(Drained(ix, now))
    ensures forall f :: f in Drained(ix, now).fibers <==> f in ix.fibers && ix.fibers[f] > now
    ensures forall f :: f in Drained(ix, now).fibers ==> Drained(ix, now).fibers[f] == ix.fibers[f]
  {
    DueCorrect(ix, now);
    var r := Drained(ix, now);
    forall t ensures t in r.timeouts <==> t in ix.timeouts && t.timepoint > now {
      RestNotDue(ix.timeouts, now, t);
    }
    forall i, j | 0 <= i < j < |r.timeouts| ensures Less(r.timeouts[i], r.timeouts[j]) {
      var n := |Due(ix.timeouts, now)|;
      assert r.timeouts[i] == ix.timeouts[n + i] && r.timeouts[j] == ix.timeouts[n + j];
    }
  }

  /** `first()` is the least deadline of the index. */
  lemma FirstIsLeast(ix: Index)
    requires Consistent(ix) && ix.timeouts != []
    ensures exists f :: f in ix.fibers && ix.fibers[f] == ix.timeouts[0].timepoint
    ensures forall f :: f in ix.fibers ==> ix.timeouts[0].timepoint <= ix.fibers[f]
  {
    assert ix.timeouts[0] in ix.timeouts;
    forall f | f in ix.fibers ensures ix.timeouts[0].timepoint <= ix.fibers[f] {
      var k :| 0 <= k < |ix.timeouts| && ix.timeouts[k] == Timeout(ix.fibers[f], f);
      assert k == 0 || Less(ix.timeouts[0], ix.timeouts[k]);
    }
  }
}
