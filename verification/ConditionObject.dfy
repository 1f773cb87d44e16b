/** The mutable fields of one primitive: Event::Shared or WaitGroup::Data with its ConditionVariable. Each method is
    what one step of module Events does to them; every other primitive stays as it is in that step. */
module ConditionObjects {
  import opened Wrappers
  import opened Collections
  import opened Events
  import opened EventBooks
  import opened EventWakeups
  import opened EventWakeSteps

  class ConditionObject {
    const kind: Kind
    var signalled: bool                // of an Event
    var count: int                     // of a WaitGroup
    var waiting: seq<int>
    var waitingNum: int
    var waitingOnConditionNum: int

    ghost predicate Shows(s: State, e: int)
      reads this
    {
      && Known(s, e) && s.ev[e].kind == kind && s.ev[e].signalled == signalled && s.ev[e].count == count
      && s.ev[e].waiting == waiting && s.ev[e].waitingNum == waitingNum && s.ev[e].condNum == waitingOnConditionNum
    }

    // e has just been created.
    static predicate Starts(s: State, e: int, kind: Kind, initialState: bool, initialCount: int) {
      Known(s, e) && NewOk(s, s.ev[e], e) && s.ev[e].kind == kind && s.ev[e].signalled == initialState
          && s.ev[e].count == initialCount
    }

    constructor (kind_: Kind, initialState: bool, initialCount: int)
      ensures forall s, e :: Starts(s, e, kind_, initialState, initialCount) ==> Shows(s, e)
      ensures kind == kind_ && signalled == initialState && count == initialCount
      ensures waiting == [] && waitingNum == 0 && waitingOnConditionNum == 0
    {
      kind, signalled, count := kind_, initialState, initialCount;
      waiting, waitingNum, waitingOnConditionNum := [], 0, 0;
    }

    method Predicate() returns (b: bool)
      ensures forall s, e :: Shows(s, e) ==> (b <==> Pred(s.ev[e]))
      ensures b <==> (kind.Group? && count == 0) || (!kind.Group? && signalled)
    {
      b := if kind.Group? then count == 0 else signalled;
    }

    /** wait() with the mutex just taken: returns at once if the predicate holds, and then resets an automatic
        event; else the caller is counted. */
    method BeginWait(ghost s: State, ghost e: int, ghost a: int, onFiber: bool, timed: bool) returns (done: bool)
      requires Shows(s, e) && Good(s) && At(s, a) == WLock(e, timed) && Free(s, Ev(e)) && (onFiber <==> a in s.worker)
      modifies this`signalled, this`waitingNum, this`waitingOnConditionNum
      ensures Shows(DoWaitLock(s, a, e, timed), e)
      ensures done <==> Pred(s.ev[e])
      ensures done ==> At(DoWaitLock(s, a, e, timed), a).Out?
      ensures done <==> (kind.Group? && count == 0) || (!kind.Group? && old(signalled))
      ensures signalled == (old(signalled) && !(done && kind.Auto?))
      ensures waitingNum == old(waitingNum) + if done then 0 else 1
      ensures waitingOnConditionNum == old(waitingOnConditionNum) + if done || onFiber then 0 else 1
    {
      done := Predicate();
      if done {
        if kind.Auto? { signalled := false; }
        return;
      }
      waitingNum := waitingNum + 1;
      if !onFiber { waitingOnConditionNum := waitingOnConditionNum + 1; }
    }

    /** waiting.emplace_front(fiber) */
    method Enlist(ghost s: State, ghost e: int, a: int, ghost timed: bool)
      requires Shows(s, e) && Books(s) && At(s, a) == WEnlist(e, timed)
      modifies this`waiting
      ensures Shows(DoEnlist(s, a, e, timed), e) && NoDup(waiting) && a !in old(waiting)
      ensures waiting == [a] + old(waiting)
    {
      EnlistBooks(s, a, e, timed);
      waiting := [a] + waiting;
    }

    /** A fiber leaves the list, and the wait. */
    method Delist(ghost s: State, ghost e: int, a: int, ok: bool)
      requires Shows(s, e) && Books(s) && At(s, a) == WDelist(e, ok)
      modifies this`waiting, this`waitingNum, this`signalled
      ensures Shows(DoDelist(s, a, e, ok), e) && a in old(waiting)
      ensures forall x :: x in waiting <==> x in old(waiting) && x != a
      ensures waitingNum == old(waitingNum) - 1 && signalled == (old(signalled) && !(ok && kind.Auto?))
      ensures |waiting| == |old(waiting)| - 1
    {
      RemoveFirstExact(waiting, a);
      RemoveFirstLength(waiting, a);
      waiting := RemoveFirst(waiting, a);
      waitingNum := waitingNum - 1;
      if ok && kind.Auto? { signalled := false; }
    }

    /** A plain thread tests the predicate, and leaves if it holds or the deadline has passed. */
    method TestOnThread(ghost s: State, ghost e: int, a: int, ghost timed: bool, expired: bool) returns (leaves: bool)
      requires Shows(s, e) && At(s, a) == TCheck(e, timed)
      modifies this`signalled, this`waitingNum, this`waitingOnConditionNum
      ensures Shows(DoThreadTest(s, a, e, timed, expired), e)
      ensures leaves <==> Pred(s.ev[e]) || expired
      ensures leaves <==> expired || (kind.Group? && count == 0) || (!kind.Group? && old(signalled))
      ensures signalled == (old(signalled) && !kind.Auto?)
      ensures waitingNum == old(waitingNum) - if leaves then 1 else 0
      ensures waitingOnConditionNum == old(waitingOnConditionNum) - if leaves then 1 else 0
    {
      var b := Predicate();
      leaves := b || expired;
      if leaves {
        waitingNum, waitingOnConditionNum := waitingNum - 1, waitingOnConditionNum - 1;
        if b && kind.Auto? { signalled := false; }
      }
    }

    /** signal() with the mutex just taken, or done() at zero: is there anybody to notify? */
    method BeginSignal(ghost s: State, ghost e: int, ghost a: int, ghost f: Frame, ghost below: Stack,
                       ghost ret: Return)
      returns (notify: bool)
      requires Shows(s, e) && f == Frame(e, SLock) && At(s, a) == Sig(Push(f, below), ret) && Good(s) && Free(s, Ev(e))
      modifies this`signalled
      ensures Shows(DoSigLock(s, a, f, below, ret), e)
      ensures !notify && (kind.Group? || !old(signalled)) ==> forall x :: !Unaware(At(s, x), e, kind)
      ensures notify ==>
                var p := At(DoSigLock(s, a, f, below, ret), a); TopIs(p, e) && p.stack.top.ph.SCv?
      ensures signalled == (old(signalled) || !kind.Group?)
      ensures notify <==> waitingNum != 0 && (kind.Group? || !old(signalled))
    {
      forall x ensures waitingNum == 0 ==> !Unaware(At(s, x), e, kind) { NobodyUnaware(s, e, x); }
      SigLockFields(s, a, f, below, ret);
      hide DoSigLock, Unaware, Good;
      if !kind.Group? {
        if signalled { return false; }
        signalled := true;
      }
      notify := waitingNum != 0;
    }

    static lemma SigLockFields(s: State, a: int, f: Frame, below: Stack, ret: Return)
      requires Known(s, f.e)
      ensures var p, u := s.ev[f.e], DoSigLock(s, a, f, below, ret);
              && Known(u, f.e) && u.ev[f.e].signalled == (p.signalled || !p.kind.Group?)
              && u.ev[f.e].(signalled := p.signalled, direct := p.direct, origin := p.origin) == p
              && (p.waitingNum != 0 && (p.kind.Group? || !p.signalled) ==>
                    TopIs(At(u, a), f.e) && At(u, a).stack.top.ph.SCv?)
    {}

    /** The next waiter to notify: the first one for notify_one(), the k-th for notify_all(). */
    method NextTarget(ghost s: State, ghost e: int, k: nat) returns (target: Option<int>)
      requires Shows(s, e) && Books(s)
      ensures target.Some? <==> HasTarget(s.ev[e], k)
      ensures target.Some? ==> target.value == Target(s.ev[e], k) && Listed(At(s, target.value), e)
      ensures kind.Auto? ==> target == if waiting == [] then None else Some(waiting[0])
      ensures !kind.Auto? ==> target == if k < |waiting| then Some(waiting[k]) else None
    {
      target := if kind.Auto? then (if |waiting| > 0 then Some(waiting[0]) else None)
                else if k < |waiting| then Some(waiting[k]) else None;
      assert Lists(s);
    }

    /** done(): true for the call that brings the count to zero. */
    method Done(ghost s: State, ghost e: int, ghost a: int) returns (zero: bool)
      requires Shows(s, e) && kind.Group?
      modifies this`count
      ensures Shows(DoDone(s, a, e), e) && (zero <==> count == 0)
      ensures zero ==> At(DoDone(s, a, e), a) == Sig(Push(Frame(e, SLock), Nil), ToOut)
      ensures 0 < old(count) < U32 ==> count == old(count) - 1
      ensures old(count) == 0 ==> count == U32 - 1
    {
      count := (count - 1) % U32;
      zero := count == 0;
    }

    method Add(ghost s: State, ghost e: int, a: int, n: int)
      requires Shows(s, e) && CanUser(s, a, AddCount(e, n))
      modifies this`count
      ensures Shows(DoUser(s, a, AddCount(e, n)), e)
      ensures 0 <= old(count) < U32 ==> (count == 0 <==> old(count) + n == 0 || old(count) + n == U32)
      ensures 0 <= old(count) < U32 ==> count == if old(count) + n < U32 then old(count) + n else old(count) + n - U32
    {
      count := (count + n) % U32;
    }

    method Clear(ghost s: State, ghost e: int, ghost a: int)
      requires Shows(s, e) && CanUser(s, a, ClearEvent(e))
      modifies this`signalled
      ensures Shows(DoUser(s, a, ClearEvent(e)), e)
      ensures !signalled
    {
      signalled := false;
    }

    method Test(ghost s: State, ghost e: int, ghost a: int) returns (b: bool)
      requires Shows(s, e) && CanUser(s, a, TestEvent(e))
      modifies this`signalled
      ensures Shows(DoUser(s, a, TestEvent(e)), e) && (b <==> s.ev[e].signalled)
      ensures b == old(signalled) && signalled == (old(signalled) && !kind.Auto?)
    {
      b := signalled;
      if b && kind.Auto? { signalled := false; }
    }
  }
}
