/** The object of include/hfts/waitingfiber.hpp: both halves of the index as fields, changed in place. Take and
    Erase are the operations as written; TakeBoth and EraseBoth put the missing half of the removal back. */
module WaitingFiberObjects {
  import opened Wrappers
  import opened Timeouts

  class WaitingFibers {
    var timeouts: seq<Timeout>
    var fibers: map<int, Time>

    ghost function View(): Index
      reads this
    {
      Index(timeouts, fibers)
    }

    constructor ()
      ensures View() == EMPTY
    {
      timeouts, fibers := [], map[];
    }

    method Add(timeout: Time, fiber: int)
      modifies this
      ensures View() == Timeouts.Add(old(View()), timeout, fiber)
      ensures fibers == if fiber in old(fibers) then old(fibers) else old(fibers)[fiber := timeout]
      ensures forall x :: x in timeouts <==> x in old(timeouts) || x == Timeout(timeout, fiber)
      ensures Consistent(old(View())) && fiber !in old(fibers) ==> Consistent(View())
    {
      ghost var was := View();
      timeouts := Insert(timeouts, Timeout(timeout, fiber));
      if fiber !in fibers { fibers := fibers[fiber := timeout]; }
      if Consistent(was) { AddConsistentIff(was, timeout, fiber); }
    }

    /** Undefined in the source, and so excluded, with an entry of the map left and none of the set. */
    method Take(now: Time) returns (fiber: Option<int>)
      requires Timeouts.Take(View(), now).Taken?
      modifies this
      ensures Taken(View(), fiber) == Timeouts.Take(old(View()), now)
      ensures timeouts == old(timeouts)
      ensures fiber.Some? <==> old(fibers) != map[] && old(timeouts)[0].timepoint <= now
      ensures fiber.Some? ==> fiber.value == old(timeouts)[0].fiber && fibers == old(fibers) - {fiber.value}
      ensures fiber.None? ==> fibers == old(fibers)
      ensures Consistent(old(View())) ==> (Consistent(View()) <==> fiber == None)
    {
      ghost var was := View();
      if Consistent(was) { TakeConsistentIff(was, now); }
      if |fibers| == 0 { return None; }
      if timeouts[0].timepoint > now { return None; }
      fiber := Some(timeouts[0].fiber);
      fibers := fibers - {timeouts[0].fiber};
      assert View() == Timeouts.Take(was, now).index;
    }

    method Erase(fiber: int)
      modifies this
      ensures View() == Timeouts.Erase(old(View()), fiber)
      ensures fibers == old(fibers) && (fiber !in fibers ==> timeouts == old(timeouts))
      ensures Consistent(old(View())) ==> forall x :: x in timeouts <==> x in old(timeouts) && x.fiber != fiber
      ensures Consistent(old(View())) ==> (Consistent(View()) <==> fiber !in old(fibers))
    {
      if Consistent(View()) { EraseConsistentIff(View(), fiber); }
      if fiber in fibers {
        timeouts := Remove(timeouts, Timeout(fibers[fiber], fiber));
      }
    }

    method TakeBoth(now: Time) returns (fiber: Option<int>)
      requires Consistent(View())
      modifies this
      ensures (View(), fiber) == Timeouts.TakeBoth(old(View()), now) && Consistent(View())
      ensures fiber.None? <==> forall g :: g in old(fibers) ==> old(fibers)[g] > now
      ensures fiber.Some? ==>
                var f, was := fiber.value, old(fibers);
                && f in was && was[f] <= now && fibers == was - {f}
                && forall g :: g in was && g != f ==> was[f] < was[g] || (was[f] == was[g] && f < g)
      ensures fiber.Some? ==> |timeouts| < |old(timeouts)|
      ensures fiber.None? ==> View() == old(View())
    {
      TakeBothCorrect(View(), now);
      if timeouts == [] || timeouts[0].timepoint > now { return None; }
      fiber := Some(timeouts[0].fiber);
      fibers := fibers - {timeouts[0].fiber};
      timeouts := timeouts[1..];
    }

    method EraseBoth(fiber: int)
      requires Consistent(View())
      modifies this
      ensures View() == Timeouts.EraseBoth(old(View()), fiber) && Consistent(View()) && fibers == old(fibers) - {fiber}
    {
      EraseBothCorrect(View(), fiber);
      if fiber in fibers {
        timeouts := Remove(timeouts, Timeout(fibers[fiber], fiber));
        fibers := fibers - {fiber};
      }
    }

    /** The least deadline. */
    method First() returns (t: Time)
      requires Consistent(View()) && fibers != map[]
      ensures exists f :: f in fibers && fibers[f] == t
      ensures forall f :: f in fibers ==> t <= fibers[f]
    {
      EmptyTogether(View());
      FirstIsLeast(View());
      t := timeouts[0].timepoint;
    }

    method Contains(fiber: int) returns (b: bool)
      requires Consistent(View())
      ensures b <==> exists t :: Timeout(t, fiber) in timeouts
    {
      b := fiber in fibers;
      if b { assert Timeout(fibers[fiber], fiber) in timeouts; }
    }
  }
}
