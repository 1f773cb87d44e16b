/** The shared state of a scheduler that guides submission, changed in place: the slots of spinning workers and the
    two 32-bit counters, which wrap (include/hfts/scheduler.hpp, src/scheduler.cpp). */
module SchedulerObjects {
  import opened Wrappers
  import opened Workers
  import opened Systems

  class SchedulerObject {
    const count: nat
    const spinningWorkers: array<int>
    var nextSpinningWorkerIdx: int
    var nextEnqueueIndex: int

    ghost predicate Valid()
      reads this, spinningWorkers
    {
      && spinningWorkers.Length == count && 0 <= nextSpinningWorkerIdx < U32 && 0 <= nextEnqueueIndex < U32
      && forall i :: 0 <= i < count ==> -1 <= spinningWorkers[i] < count
    }

    // The object's part of the hints
    ghost predicate Shows(h: Hints)
      reads this, spinningWorkers
    {
      h.slots == spinningWorkers[..] && h.spinIdx == nextSpinningWorkerIdx && h.enqIdx == nextEnqueueIndex
    }

    constructor (threads: nat)
      ensures Valid() && count == threads && fresh(spinningWorkers)
      ensures forall i :: 0 <= i < threads ==> spinningWorkers[i] == -1
      ensures nextSpinningWorkerIdx == 0x800_0000 && nextEnqueueIndex == 0
    {
      count := threads;
      nextSpinningWorkerIdx, nextEnqueueIndex := 0x800_0000, 0;
      spinningWorkers := new int[threads](_ => -1);
    }

    // Between two atomic operations others do any of theirs: this is what they have made of the hints.
    method Others(h: Hints)
      requires Valid() && HintsOk(h, count)
      modifies this`nextSpinningWorkerIdx, this`nextEnqueueIndex, spinningWorkers
      ensures Valid() && Shows(h)
    {
      nextSpinningWorkerIdx, nextEnqueueIndex := h.spinIdx, h.enqIdx;
      forall i | 0 <= i < count { spinningWorkers[i] := h.slots[i]; }
      assert spinningWorkers[..] == h.slots;
    }

    // nextSpinningWorkerIdx++
    method NextSlot(workerId: int, ghost h: Hints) returns (idx: int)
      requires Valid() && Shows(h) && 0 <= workerId < count
      modifies this`nextSpinningWorkerIdx
      ensures Valid() && Shows(Entered(h, count, workerId)) && idx == h.spinIdx % count
      ensures nextSpinningWorkerIdx == (old(nextSpinningWorkerIdx) + 1) % U32
      ensures idx == old(nextSpinningWorkerIdx) % count
    {
      idx := nextSpinningWorkerIdx % count;
      nextSpinningWorkerIdx := (nextSpinningWorkerIdx + 1) % U32;
    }

    method PostAt(idx: int, workerId: int, ghost h: Hints)
      requires Valid() && Shows(h) && 0 <= workerId < count && 0 <= idx < count
      requires workerId in h.posts && h.posts[workerId] == idx
      modifies spinningWorkers
      ensures Valid() && Shows(DoHint(h, count, Post(workerId)))
      ensures spinningWorkers[..] == old(spinningWorkers[..])[idx := workerId]
    {
      spinningWorkers[idx] := workerId;
    }

    /** A worker about to spin leaves its number. Others act between its two operations; the slot is the one that the
        counter named before. */
    method OnBeginSpinning(workerId: int, ghost before: Hints, between: Hints)
      requires Valid() && Shows(before) && 0 <= workerId < count && HintsOk(between, count)
      requires workerId in between.posts && between.posts[workerId] == before.spinIdx % count
      modifies this`nextSpinningWorkerIdx, this`nextEnqueueIndex, spinningWorkers
      ensures Valid() && Shows(DoHint(between, count, Post(workerId)))
      ensures spinningWorkers[before.spinIdx % count] == workerId
      ensures spinningWorkers[..] == between.slots[before.spinIdx % count := workerId]
      ensures nextSpinningWorkerIdx == between.spinIdx && nextEnqueueIndex == between.enqIdx
    {
      var idx := NextSlot(workerId, before);
      Others(between);
      PostAt(idx, workerId, between);
    }

    // --nextSpinningWorkerIdx
    method PreviousSlot(ghost h: Hints, ghost t: Task) returns (i: int)
      requires Valid() && Shows(h) && 0 < count && t !in h.aim
      modifies this`nextSpinningWorkerIdx
      ensures Valid() && Shows(DoHint(h, count, AimSlot(t))) && i == SlotOf(h)
      ensures nextSpinningWorkerIdx == if old(nextSpinningWorkerIdx) == 0 then 0xFFFF_FFFF
                                       else old(nextSpinningWorkerIdx) - 1
      ensures i == nextSpinningWorkerIdx % count
    {
      nextSpinningWorkerIdx := (nextSpinningWorkerIdx - 1) % U32;
      i := nextSpinningWorkerIdx % count;
    }

    function SlotOf(h: Hints): (i: int)
      requires count > 0
      ensures 0 <= i < count
    {
      (h.spinIdx - 1) % U32 % count
    }

    method Exchange(i: int, ghost h: Hints, ghost t: Task) returns (idx: int)
      requires Valid() && Shows(h) && 0 <= i < count && t in h.aim && h.aim[t] == AtSlot(i)
      modifies spinningWorkers
      ensures Valid() && Shows(DoHint(h, count, TakeHint(t))) && idx == h.slots[i] && -1 <= idx < count
      ensures idx == old(spinningWorkers[i]) && spinningWorkers[..] == old(spinningWorkers[..])[i := -1]
    {
      idx := spinningWorkers[i];
      spinningWorkers[i] := -1;
    }

    // nextEnqueueIndex++
    method NextInTurn(ghost h: Hints, ghost t: Task) returns (idx: int)
      requires Valid() && Shows(h) && 0 < count && t in h.aim && h.aim[t] == InTurn
      modifies this`nextEnqueueIndex
      ensures Valid() && Shows(DoHint(h, count, TakeTurn(t))) && idx == h.enqIdx % count
      ensures idx == old(nextEnqueueIndex) % count && nextEnqueueIndex == (old(nextEnqueueIndex) + 1) % U32
    {
      idx := nextEnqueueIndex % count;
      nextEnqueueIndex := (nextEnqueueIndex + 1) % U32;
    }

    // What the others have made of the hints until each operation of a round; what the submitter of t has read is its
    // own.
    ghost predicate RoundOk(r: Round, t: Task)
      requires count > 0
    {
      && HintsOk(r.start, count) && HintsOk(r.atSlot, count) && HintsOk(r.inTurn, count)
      && t !in r.start.aim && t in r.atSlot.aim && r.atSlot.aim[t] == AtSlot(SlotOf(r.start))
      && t in r.inTurn.aim && r.inTurn.aim[t] == InTurn
    }

    lemma StartOk(r: Round, t: Task)
      requires count > 0 && RoundOk(r, t)
      ensures HintsOk(r.start, count) && |r.atSlot.slots| == count
    {}

    // The worker of a round: a spinning one if the slot names one, else the next in turn.
    function Picked(r: Round): int
      requires count > 0 && |r.atSlot.slots| == count
    {
      var idx := r.atSlot.slots[SlotOf(r.start)];
      if idx < 0 then r.inTurn.enqIdx % count else idx
    }

    // The last operation of a round
    ghost function AfterRound(r: Round, t: Task): Hints
      requires count > 0 && RoundOk(r, t)
    {
      if r.atSlot.slots[SlotOf(r.start)] < 0 then DoHint(r.inTurn, count, TakeTurn(t))
      else DoHint(r.atSlot, count, TakeHint(t))
    }

    /** One round of enqueue(): it names an existing worker, which is what its submitter then aims at. */
    method PickWorker(r: Round, ghost t: Task) returns (worker: int)
      requires Valid() && 0 < count && RoundOk(r, t) && Shows(r.start)
      modifies this`nextSpinningWorkerIdx, this`nextEnqueueIndex, spinningWorkers
      ensures Valid() && Shows(AfterRound(r, t))
      ensures worker == Picked(r) && 0 <= worker < count && AfterRound(r, t).aim[t] == Target(worker)
      ensures var i := (r.start.spinIdx - 1) % U32 % count;
              if r.atSlot.slots[i] >= 0 then
                && worker == r.atSlot.slots[i] && spinningWorkers[..] == r.atSlot.slots[i := -1]
                && nextSpinningWorkerIdx == r.atSlot.spinIdx && nextEnqueueIndex == r.atSlot.enqIdx
              else
                && worker == r.inTurn.enqIdx % count && spinningWorkers[..] == r.inTurn.slots
                && nextSpinningWorkerIdx == r.inTurn.spinIdx && nextEnqueueIndex == (r.inTurn.enqIdx + 1) % U32
    {
      var i := PreviousSlot(r.start, t);
      Others(r.atSlot);
      worker := Exchange(i, r.atSlot, t);
      if worker < 0 {
        Others(r.inTurn);
        worker := NextInTurn(r.inTurn, t);
      }
    }

    /** enqueue(): rounds, until one locks its worker. The outcomes of tryLock() are given, and so is what others have
        made of the hints until each operation. After so many failed rounds the task goes to the worker that the first
        successful one names; None if the given outcomes run out. */
    method Enqueue(rounds: seq<Round>, ghost t: Task, locks: seq<bool>) returns (worker: Option<int>, failed: nat)
      requires Valid() && 0 < count && |rounds| == |locks| && forall k :: 0 <= k < |rounds| ==> RoundOk(rounds[k], t)
      modifies this`nextSpinningWorkerIdx, this`nextEnqueueIndex, spinningWorkers
      ensures Valid() && failed <= |locks| && true !in locks[..failed] && (worker.None? <==> failed == |locks|)
      ensures worker.Some? ==>
                && locks[failed] && RoundOk(rounds[failed], t) && Shows(AfterRound(rounds[failed], t))
                && worker.value == Picked(rounds[failed]) && 0 <= worker.value < count
      ensures worker.Some? ==>
                var r := rounds[failed];
                var i := (r.start.spinIdx - 1) % U32 % count;
                worker.value == if r.atSlot.slots[i] >= 0 then r.atSlot.slots[i] else r.inTurn.enqIdx % count
    {
      worker, failed := None, 0;
      while failed < |locks|
        invariant 0 <= failed <= |locks| && Valid() && worker == None && true !in locks[..failed]
      {
        hide RoundOk, Picked, AfterRound, HintsOk, DoHint;
        StartOk(rounds[failed], t);
        Others(rounds[failed].start);
        var w := PickWorker(rounds[failed], t);
        if locks[failed] {
          worker := Some(w);
          return;
        }
        assert locks[..failed + 1] == locks[..failed] + [locks[failed]];
        failed := failed + 1;
      }
    }
  }

  // The hints when a round begins, when it looks at its slot, and when it takes the next worker in turn
  datatype Round = Round(start: Hints, atSlot: Hints, inTurn: Hints)
}
