/** The vector of include/hfts/containers.hpp: its elements live in an inline buffer until there are too many,
    and then in a heap block that at least doubles. */
module Vectors {
  import opened Wrappers

  function Max(a: nat, b: nat): (m: nat)
    ensures m >= a && m >= b && (m == a || m == b)
  {
    if a < b then b else a
  }

  // A slot holds a constructed element (Some) or is raw storage (None).
  class Vector<T> {
    const buffer: array<Option<T>>
    var elements: array?<Option<T>>
    var count: nat
    var capacity: nat
    ghost var contents: seq<T>
    ghost var constructed: nat   // history: elements constructed,
    ghost var destroyed: nat     // destroyed,
    ghost var moves: nat         // and moved to a larger block
    ghost var peak: nat          // history: the largest size ever reserved

    /** The first count slots hold the contents, every other slot is raw, and the inline buffer is raw once there
        is a heap block. Every construction but those of the live elements has been matched by a destruction, and
        all moves so far fit the capacity, which is at most twice the largest size reserved. */
    ghost predicate Valid()
      reads this, buffer, if elements == null then {} else {elements}
    {
      && elements != null && elements.Length == capacity && count == |contents| <= capacity
      && (forall i :: 0 <= i < count ==> elements[i] == Some(contents[i]))
      && (forall i :: count <= i < capacity ==> elements[i].None?)
      && (elements != buffer ==> forall i :: 0 <= i < buffer.Length ==> buffer[i].None?)
      && (elements == buffer ==> moves == 0)
      && constructed == destroyed + count
      && moves <= capacity
      && capacity <= Max(buffer.Length, Max(2 * peak, 8))
    }

    constructor (base: nat)
      ensures Valid() && contents == [] && capacity == base && fresh(buffer) && elements == buffer
      ensures constructed == 0 && moves == 0 && peak == 0
    {
      var raw := new Option<T>[base](_ => None);
      buffer, elements := raw, raw;
      count, capacity, contents, constructed, destroyed, moves, peak := 0, base, [], 0, 0, 0, 0;
    }

    // Destroys every element; a heap block is given back and leaves no storage behind.
    method Free()
      requires elements != null && elements.Length == capacity && count <= capacity
      requires forall i :: 0 <= i < count ==> elements[i].Some?
      requires forall i :: count <= i < capacity ==> elements[i].None?
      modifies this`elements, this`destroyed, elements
      ensures forall i :: 0 <= i < old(elements).Length ==> old(elements)[i].None?
      ensures elements == (if old(elements) == buffer then old(elements) else null)
              && destroyed == old(destroyed) + count
    {
      var i := 0;
      while i < count
        invariant 0 <= i <= count && elements == old(elements) && destroyed == old(destroyed) + i
        invariant forall j :: 0 <= j < i || count <= j < capacity ==> elements[j].None?
        invariant forall j :: i <= j < count ==> elements[j].Some?
      {
        elements[i] := None;
        destroyed := destroyed + 1;
        i := i + 1;
      }
      if elements != buffer { elements := null; }
    }

    // Constructs every element anew in a larger block.
    method MoveInto(grown: array<Option<T>>)
      requires Valid() && capacity < grown.Length && grown != elements && grown != buffer
      requires forall i :: 0 <= i < grown.Length ==> grown[i].None?
      modifies this`constructed, this`moves, grown
      ensures forall i :: 0 <= i < count ==> grown[i] == Some(contents[i])
      ensures forall i :: count <= i < grown.Length ==> grown[i].None?
      ensures constructed == old(constructed) + count && moves == old(moves) + count
    {
      var i := 0;
      while i < count
        invariant 0 <= i <= count && constructed == old(constructed) + i && moves == old(moves) + i
        invariant forall j :: 0 <= j < i ==> grown[j] == Some(contents[j])
        invariant forall j :: i <= j < grown.Length ==> grown[j].None?
        invariant forall j :: 0 <= j < count ==> elements[j] == Some(contents[j])
      {
        grown[i] := elements[i];
        constructed, moves := constructed + 1, moves + 1;
        i := i + 1;
      }
    }

    /** Makes room for n elements, moving each to a larger block if need be. */
    method Reserve(n: nat)
      requires Valid()
      modifies this, buffer, elements
      ensures Valid() && contents == old(contents) && count == old(count)
      ensures capacity == if n > old(capacity) then Max(2 * n, 8) else old(capacity)
      ensures elements == old(elements) || fresh(elements)
      ensures moves == old(moves) + (if n > old(capacity) then count else 0)
      ensures constructed - old(constructed) == destroyed - old(destroyed) == moves - old(moves)
      ensures peak == Max(old(peak), n)
    {
      peak := Max(peak, n);
      if n > capacity {
        var wider := Max(n * 2, 8);
        var grown := new Option<T>[wider](_ => None);
        MoveInto(grown);
        Free();
        elements, capacity := grown, wider;
      }
    }

    // Constructs an element in the first raw slot.
    method Construct(x: T)
      requires Valid() && count < capacity
      modifies this`count, this`contents, this`constructed, elements
      ensures Valid() && contents == old(contents) + [x]
    {
      elements[count] := Some(x);
      constructed, contents := constructed + 1, contents + [x];
      count := count + 1;
    }

    method PushBack(x: T)
      requires Valid()
      modifies this, buffer, elements
      ensures Valid() && contents == old(contents) + [x]
      ensures elements == old(elements) || fresh(elements)
      ensures peak == Max(old(peak), old(count) + 1)
      ensures constructed - moves == old(constructed) - old(moves) + 1
    {
      Reserve(count + 1);
      Construct(x);
    }

    method PopBack()
      requires Valid() && count > 0
      modifies this`count, this`contents, this`destroyed, elements
      ensures Valid() && contents == old(contents)[..old(count) - 1]
    {
      count := count - 1;
      elements[count] := None;
      destroyed, contents := destroyed + 1, contents[..count];
    }

    /** Cuts the vector to n elements, or fills it up with the default one. */
    method Resize(n: nat, default_: T)
      requires Valid()
      modifies this, buffer, elements
      ensures Valid() && |contents| == n && (elements == old(elements) || fresh(elements))
      ensures contents == if n <= old(count) then old(contents)[..n]
                          else old(contents) + seq(n - old(count), _ => default_)
      ensures peak == Max(old(peak), n)
    {
      Reserve(n);
      var before := count;
      ghost var was, block := contents, elements;
      while count < n
        invariant Valid() && elements == block && before <= count && (count == before || count <= n) && n <= capacity
        invariant contents == was + seq(count - before, _ => default_) && peak == Max(old(peak), n)
        decreases n - count
      {
        Construct(default_);
      }
      while n < count
        invariant Valid() && elements == block && n <= count && (before <= n ==> count == n)
                  && (n < before ==> count <= before)
        invariant contents == (if n < before then was[..count] else was + seq(n - before, _ => default_))
                  && peak == Max(old(peak), n)
      {
        PopBack();
      }
    }

    method At(i: nat) returns (x: T)
      requires Valid() && i < count
      ensures x == contents[i]
    {
      x := elements[i].value;
    }
  }

  /** Appending to a fresh vector moves at most as many elements as the capacity, which stays below twice the
      number of appends (or the smallest block): the cost of an append is constant on average. */
  method AppendAll<T>(base: nat, xs: seq<T>) returns (v: Vector<T>)
    ensures fresh(v) && v.Valid() && v.contents == xs
    ensures v.moves <= v.capacity <= Max(base, Max(2 * |xs|, 8))
    ensures v.constructed == |xs| + v.moves && v.destroyed == v.moves
  {
    v := new Vector<T>(base);
    var i := 0;
    while i < |xs|
      invariant 0 <= i <= |xs| && fresh(v) && fresh(v.buffer) && v.Valid() && fresh(v.elements) && v.contents == xs[..i]
      invariant v.peak <= i && v.buffer.Length == base && v.constructed == i + v.moves
    {
      v.PushBack(xs[i]);
      i := i + 1;
    }
  }

  // ---------------------------------------------------------------------------------------------
  // Assignment as it is written
  // ---------------------------------------------------------------------------------------------

  datatype Storage = Inline | Heap | Null

  // What matters about a vector with an inline buffer for base elements: the first live slots are constructed.
  datatype Shape = Shape(base: nat, storage: Storage, count: nat, live: nat, capacity: nat)

  predicate Sound(v: Shape) {
    && !v.storage.Null? && v.live == v.count <= v.capacity
    && (v.storage.Inline? ==> v.capacity == v.base)
    && (v.storage.Heap? ==> v.base < v.capacity)
  }

  // None: an element is used that is not constructed, or there is no storage.
  function WrittenFree(v: Shape): Option<Shape> {
    if v.live < v.count || (v.storage.Null? && v.count > 0) then None
    else Some(v.(live := v.live - v.count, storage := if v.storage.Inline? then Inline else Null))
  }

  function WrittenReserve(v: Shape, n: nat): Option<Shape> {
    if n <= v.capacity then Some(v)
    else if v.live < v.count || (v.storage.Null? && v.count > 0) then None
    else match WrittenFree(v)
      case None => None
      case Some(u) => Some(u.(storage := Heap, live := v.count, capacity := Max(n * 2, 8)))
  }

  function WrittenFill(v: Shape, n: nat): Option<Shape> {
    if v.storage.Null? && n > 0 then None else Some(v.(count := n, live := n))
  }

  // operator= from a different vector of n elements
  function WrittenAssign(v: Shape, n: nat): Option<Shape> {
    match WrittenFree(v)
    case None => None
    case Some(u) =>
      match WrittenReserve(u, n)
      case None => None
      case Some(w) => WrittenFill(w, n)
  }

  /** Assignment frees the old elements but forgets neither their number nor the capacity of the block that is
      gone. It is sound exactly if everything fits the inline buffer, or the vector was empty and a new block is
      allocated. */
  lemma AssignSoundIff(v: Shape, n: nat)
    requires Sound(v)
    ensures WrittenAssign(v, n).Some? && Sound(WrittenAssign(v, n).value) <==>
            (v.storage.Inline? && n <= v.capacity) || (v.count == 0 && n > v.capacity)
    ensures WrittenAssign(v, n).Some? ==>
              var u := WrittenAssign(v, n).value;
              && u.count == n && u.live == n && u.base == v.base
              && u.capacity == (if n <= v.capacity then v.capacity else if n < 4 then 8 else 2 * n)
  {
    var u := WrittenFree(v).value;
    assert u.live == 0 && u.count == v.count;
    if n > v.capacity && v.count == 0 {
      assert WrittenReserve(u, n).value.capacity == Max(n * 2, 8);
    }
  }

  /** In particular assignment to a fresh vector is sound, and a vector in use that has outgrown its buffer must
      not be assigned to. */
  lemma AssignExamples(base: nat, n: nat)
    ensures var fresh_ := Shape(base, Inline, 0, 0, base);
            WrittenAssign(fresh_, n).Some? && Sound(WrittenAssign(fresh_, n).value)
                && WrittenAssign(fresh_, n).value.count == n
    ensures WrittenAssign(Shape(1, Heap, 2, 2, 8), 1) == None && WrittenAssign(Shape(1, Inline, 1, 1, 1), 2) == None
  {
    AssignSoundIff(Shape(base, Inline, 0, 0, base), n);
  }
}
