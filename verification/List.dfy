/** The list of include/hfts/containers.hpp: entries on two doubly linked chains, the live ones and the spare
    ones, which the list keeps to avoid allocation. */
module Lists {
  import opened Wrappers
  import opened Collections

  // An element is constructed in the entry (Some), or the entry is raw storage (None).
  class Entry<T> {
    var data: Option<T>
    var next: Entry?<T>
    var prev: Entry?<T>

    constructor ()
      ensures data == None && next == null && prev == null
    {
      data, next, prev := None, null, null;
    }
  }

  function Nth<T>(q: seq<Entry<T>>, i: int): Entry?<T> {
    if 0 <= i < |q| then q[i] else null
  }

  /** From first on, the entries of q are doubly linked in that order. */
  ghost predicate Chain<T>(first: Entry?<T>, q: seq<Entry<T>>)
    reads q
  {
    && NoDup(q)
    && first == Nth(q, 0)
    && (forall i {:trigger q[i].prev} :: 0 <= i < |q| ==> q[i].prev == Nth(q, i - 1))
    && (forall i {:trigger q[i].next} :: 0 <= i < |q| ==> q[i].next == Nth(q, i + 1))
  }

  /** Takes the i-th entry out of a chain and returns where the chain starts now. */
  method Unlink<T>(entry: Entry<T>, first: Entry?<T>, ghost q: seq<Entry<T>>, ghost i: nat) returns (start: Entry?<T>)
    requires Chain(first, q) && i < |q| && q[i] == entry
    modifies q
    ensures Chain(start, Drop(q, i)) && entry.next == null && entry.prev == null && entry !in Drop(q, i)
    ensures forall j :: 0 <= j < |q| ==> q[j].data == old(q[j].data)
  {
    assert entry.prev == Nth(q, i - 1) && entry.next == Nth(q, i + 1);
    start := if first == entry then first.next else first;
    if entry.prev != null { entry.prev.next := entry.next; }
    if entry.next != null { entry.next.prev := entry.prev; }
    entry.prev := null;
    entry.next := null;
    DropAt(q, i);
    ghost var r := Drop(q, i);
    forall k | 0 <= k < |r| ensures r[k].prev == Nth(r, k - 1) && r[k].next == Nth(r, k + 1) {
      ghost var m := if k < i then k else k + 1;
      assert r[k] == q[m] && old(q[m].prev) == Nth(q, m - 1) && old(q[m].next) == Nth(q, m + 1);
    }
  }

  /** Puts an unlinked entry in front of a chain. */
  method Link<T>(entry: Entry<T>, first: Entry?<T>, ghost q: seq<Entry<T>>) returns (start: Entry<T>)
    requires Chain(first, q) && entry !in q && entry.next == null && entry.prev == null
    modifies q, entry
    ensures start == entry && Chain(start, [entry] + q) && entry.data == old(entry.data)
    ensures forall j :: 0 <= j < |q| ==> q[j].data == old(q[j].data)
  {
    assert q != [] ==> first in q && first == q[0];
    if first != null {
      entry.next := first;
      first.prev := entry;
    }
    start := entry;
    ghost var r := [entry] + q;
    assert forall k :: 0 < k < |r| ==> r[k] == q[k - 1];
  }

  /** Constructs an element in an entry; the links stay. */
  method Construct<T>(entry: Entry<T>, x: T, ghost first: Entry?<T>, ghost q: seq<Entry<T>>)
    requires Chain(first, q)
    modifies entry`data
    ensures Chain(first, q) && entry.data == Some(x)
  {
    entry.data := Some(x);
  }

  // A block of storage for so many entries, with the link that grow() puts behind them.
  class Allocation {
    const count: nat

    constructor (n: nat)
      ensures count == n
    {
      count := n;
    }
  }

  // The links are written once.
  datatype AllocationChain = End | Block(allocation: Allocation, next: AllocationChain)

  function Blocks(chain: AllocationChain): seq<Allocation> {
    if chain.End? then [] else [chain.allocation] + Blocks(chain.next)
  }

  function Total(chain: AllocationChain): nat {
    if chain.End? then 0 else chain.allocation.count + Total(chain.next)
  }

  class List<T> {
    var size: nat
    var capacity: nat
    var allocations: AllocationChain
    var head: Entry?<T>
    var free: Entry?<T>
    ghost var live: seq<Entry<T>>
    ghost var spare: seq<Entry<T>>
    ghost var contents: seq<T>
    ghost var blocks: seq<Allocation>

    /** The two chains are well formed, share no entry, and together are all entries ever allocated; exactly the
        live entries hold an element. No allocation is listed twice, and those listed have that many entries. */
    ghost predicate Valid()
      reads this, live, spare
    {
      Holds(capacity) && Owns(capacity)
    }

    ghost predicate Owns(n: int)
      reads this
    {
      blocks == Blocks(allocations) && NoDup(blocks) && n == Total(allocations)
    }

    // As Valid, with n entries allocated.
    ghost predicate Holds(n: int)
      reads this, live, spare
    {
      && Chain(head, live) && Chain(free, spare) && (forall e :: e in live ==> e !in spare)
      && |contents| == |live| && (forall i :: 0 <= i < |live| ==> live[i].data == Some(contents[i]))
      && (forall i :: 0 <= i < |spare| ==> spare[i].data.None?)
      && size == |live| && n == |live| + |spare|
    }

    constructor ()
      ensures Valid() && contents == [] && live == [] && spare == []
    {
      size, capacity, allocations, head, free := 0, 0, End, null, null;
      live, spare, contents, blocks := [], [], [], [];
    }

    // Allocates one entry and puts it in front of the spare chain.
    method AddSpare(ghost n: nat)
      requires Holds(n)
      modifies this`free, this`spare, spare
      ensures Holds(n + 1) && |spare| == old(|spare|) + 1 && fresh(spare[0]) && spare[1..] == old(spare)
    {
      hide Chain;
      var entry := new Entry<T>();
      free := Link(entry, free, spare);
      spare := [entry] + spare;
    }

    /** Allocates count entries and puts them in front of the spare chain, and the allocation in front of the others. */
    method Grow(count: nat)
      requires Valid()
      modifies this, spare
      ensures Valid() && live == old(live) && contents == old(contents) && capacity == old(capacity) + count
      ensures |spare| == old(|spare|) + count && spare[count..] == old(spare)
      ensures forall j :: 0 <= j < |spare| ==> fresh(spare[j]) || spare[j] in old(spare)
      ensures allocations.Block? && fresh(allocations.allocation) && allocations.next == old(allocations)
      ensures blocks == [allocations.allocation] + old(blocks)
    {
      hide Holds;
      var i := 0;
      while i < count
        invariant 0 <= i <= count && capacity == old(capacity) && Holds(capacity + i)
        invariant live == old(live) && contents == old(contents) && allocations == old(allocations)
                  && blocks == old(blocks)
        invariant |spare| == old(|spare|) + i && spare[i..] == old(spare)
        invariant forall j :: 0 <= j < |spare| ==> fresh(spare[j]) || spare[j] in old(spare)
      {
        ghost var before := spare;
        AddSpare(capacity + i);
        assert forall j :: 0 < j < |spare| ==> spare[j] == before[j - 1];
        assert spare[i + 1..] == before[i..];
        i := i + 1;
      }
      Register(count);
    }

    // Puts a new allocation in front of the others.
    method Register(count: nat)
      requires Holds(capacity + count) && Owns(capacity)
      modifies this`capacity, this`allocations, this`blocks
      ensures Valid() && capacity == old(capacity) + count
      ensures allocations.Block? && fresh(allocations.allocation) && allocations.next == old(allocations)
      ensures blocks == [allocations.allocation] + old(blocks)
    {
      var block := new Allocation(count);
      assert block !in blocks;
      allocations, blocks := Block(block, allocations), [block] + blocks;
      hide Holds;
      capacity := capacity + count;
    }

    // Takes the first spare entry off its chain.
    method TakeSpare() returns (it: Entry<T>)
      requires Valid() && spare != []
      modifies this`free, this`spare, spare
      ensures [it] + spare == old(spare) && Holds(capacity - 1) && Owns(capacity)
      ensures it !in live && it !in spare && it.next == null && it.prev == null
    {
      assert free == spare[0] && spare[0] in spare && NoDup(spare);
      ghost var before := spare;
      hide Chain, NoDup;
      it := free;
      free := Unlink(it, free, spare, 0);
      assert Drop(before, 0) == before[1..];
      spare := spare[1..];
    }

    // Puts an entry with a new element in front of the live ones.
    method PutLive(it: Entry<T>, x: T)
      requires Holds(capacity - 1) && Owns(capacity)
      requires it !in live && it !in spare && it.next == null && it.prev == null
      modifies this`head, this`live, this`contents, this`size, live, it
      ensures Valid() && live == [it] + old(live) && contents == [x] + old(contents)
    {
      hide Chain;
      head := Link(it, head, live);
      Construct(it, x, head, [it] + live);
      live, contents, size := [it] + live, [x] + contents, size + 1;
      assert forall j :: 0 < j < |live| ==> live[j] == old(live)[j - 1] && contents[j] == old(contents)[j - 1];
    }

    /** Constructs x in a spare entry, which becomes the first live one; every other live entry stays where it
        was, so iterators remain valid. */
    method EmplaceFront(x: T) returns (it: Entry<T>)
      requires Valid()
      modifies this, live, spare
      ensures Valid() && contents == [x] + old(contents) && live == [it] + old(live)
      ensures old(spare) == [] ==> capacity == old(capacity) + (if old(capacity) > 8 then old(capacity) else 8)
      ensures old(spare) != [] ==> capacity == old(capacity) && blocks == old(blocks) && [it] + spare == old(spare)
      ensures old(spare) == [] ==> |blocks| == |old(blocks)| + 1 && blocks[1..] == old(blocks)
    {
      assert spare == [] <==> free == null;
      if free == null {
        Grow(if capacity > 8 then capacity else 8);
      }
      it := TakeSpare();
      PutLive(it, x);
    }

    // Takes the i-th live entry off its chain and destroys its element.
    method Unhook(it: Entry<T>, ghost i: nat)
      requires Valid() && i < |live| && live[i] == it
      modifies this`head, live
      ensures Chain(head, Drop(live, i)) && it !in Drop(live, i) && it.next == null && it.prev == null
              && it.data == None
      ensures forall j :: 0 <= j < |live| && j != i ==> live[j].data == Some(contents[j])
    {
      assert it in live && forall j :: 0 <= j < |live| && j != i ==> live[j] != it;
      hide Chain, NoDup, Nth;
      head := Unlink(it, head, live, i);
      it.data := None;
    }

    static lemma Shifted(q: seq<Entry<T>>, c: seq<T>, i: nat)
      requires |q| == |c| && i < |q| && forall j :: 0 <= j < |q| && j != i ==> q[j].data == Some(c[j])
      ensures |Drop(q, i)| == |Drop(c, i)| == |q| - 1
      ensures forall k :: 0 <= k < |q| - 1 ==> Drop(q, i)[k].data == Some(Drop(c, i)[k])
      ensures forall e :: e in Drop(q, i) ==> e in q
    {
      DropAt(q, i);
      DropAt(c, i);
    }

    method TakeLive(it: Entry<T>, ghost i: nat)
      requires Valid() && i < |live| && live[i] == it
      modifies this`head, this`live, this`contents, this`size, live
      ensures live == Drop(old(live), i) && contents == Drop(old(contents), i) && Holds(capacity - 1) && Owns(capacity)
      ensures it !in live && it !in spare && it.next == null && it.prev == null && it.data == None
    {
      assert it in live;
      Unhook(it, i);
      hide Chain, Nth, Drop;
      Shifted(live, contents, i);
      live, contents, size := Drop(live, i), Drop(contents, i), size - 1;
    }

    // Puts a raw entry in front of the spare ones.
    method PutSpare(it: Entry<T>)
      requires Holds(capacity - 1) && Owns(capacity)
      requires it !in live && it !in spare && it.next == null && it.prev == null && it.data == None
      modifies this`free, this`spare, spare, it
      ensures Valid() && spare == [it] + old(spare)
    {
      hide Chain;
      free := Link(it, free, spare);
      spare := [it] + spare;
    }

    /** Destroys the element of a live entry, which becomes the first spare one; every other live entry stays
        where it was. */
    method Erase(it: Entry<T>, ghost i: nat)
      requires Valid() && i < |live| && live[i] == it
      modifies this, live, spare
      ensures Valid() && contents == Drop(old(contents), i) && live == Drop(old(live), i)
      ensures spare == [it] + old(spare) && capacity == old(capacity) && blocks == old(blocks)
    {
      TakeLive(it, i);
      PutSpare(it);
    }

    /** From begin() to end(): an iterator meets every element once, in order, and comes to an end. */
    method Elements() returns (r: seq<T>)
      requires Valid()
      ensures r == contents
    {
      var el := head;
      r := [];
      while el != null
        invariant |r| <= |live| && el == Nth(live, |r|) && r == contents[..|r|]
        decreases |live| - |r|
      {
        assert el == live[|r|] && el.next == Nth(live, |r| + 1);
        r := r + [el.data.value];
        el := el.next;
      }
    }

    /** ~list() destroys every element once, the spare entries holding none, and then frees every allocation once. */
    method Destroy() returns (ghost destroyed: nat, freed: seq<Allocation>)
      requires Valid()
      modifies live
      ensures destroyed == |old(contents)|
      ensures forall e :: e in live || e in spare ==> e.data.None?
      ensures freed == blocks && NoDup(freed)
    {
      destroyed := DestroyElements();
      var curr := allocations;
      freed := [];
      while curr.Block?
        invariant freed + Blocks(curr) == blocks
        decreases curr
      {
        freed := freed + [curr.allocation];
        curr := curr.next;
      }
    }

    method DestroyElements() returns (ghost destroyed: nat)
      requires Valid()
      modifies live
      ensures destroyed == |old(contents)|
      ensures forall e :: e in live || e in spare ==> e.data.None?
    {
      var el := head;
      destroyed := 0;
      while el != null
        invariant destroyed <= |live| && el == Nth(live, destroyed)
        invariant forall j :: 0 <= j < |live| ==>
                    live[j].next == Nth(live, j + 1) && live[j].data.Some? == (j >= destroyed)
        decreases |live| - destroyed
      {
        assert el == live[destroyed] && el.data.Some?;
        el.data := None;
        destroyed := destroyed + 1;
        el := el.next;
      }
    }
  }
}
