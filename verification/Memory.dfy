/** Allocation: alignment, the layouts of the default allocator, the requests that releases reconstruct, and the
    accounting of TrackedAllocator (include/hfts/memory.hpp, src/memory.cpp). Sizes and addresses are unsigned
    64-bit integers. */
module Memories {
  import opened Wrappers
  import opened Collections

  const U64: int := 0x1_0000_0000_0000_0000
  const WORD: int := 8

  function AlignUp(val: int, alignment: int): int
    requires alignment > 0
  {
    alignment * ((val + alignment - 1) % U64 / alignment)
  }

  lemma Multiple(k: int, s: int)
    requires s > 0
    ensures s * k % s == 0
  {
    var q := s * k / s;
    DivBounds(s * k, s);
    assert s * (q + 1) == s * q + s && s * (k + 1) == s * k + s;
    if q < k { Scale(s, q + 1, k); }
    if k < q { Scale(s, k + 1, q); }
  }

  /** alignUp() gives the least multiple from val on, exactly when its addition does not overflow. */
  lemma AlignUpIff(val: int, alignment: int)
    requires 0 <= val < U64 && 0 < alignment < U64
    ensures AlignUp(val, alignment) % alignment == 0
    ensures val <= AlignUp(val, alignment) <==> val + alignment - 1 < U64
    ensures val + alignment - 1 < U64 ==>
              forall k :: val <= alignment * k ==> AlignUp(val, alignment) <= alignment * k
    ensures val + alignment - 1 < U64 ==> AlignUp(val, alignment) < val + alignment
  {
    var x := (val + alignment - 1) % U64;
    Multiple(x / alignment, alignment);
    DivBounds(x, alignment);
    if val + alignment - 1 < U64 {
      forall k | val <= alignment * k ensures x / alignment <= k && AlignUp(val, alignment) <= alignment * k {
        LeastMultiple(x, alignment, k);
      }
    } else {
      assert x == val + alignment - 1 - U64;
    }
  }

  lemma LeastMultiple(x: int, s: int, k: int)
    requires s > 0 && x - s + 1 <= s * k
    ensures x / s <= k && s * (x / s) <= s * k
  {
    DivBounds(x, s);
    assert s * (k + 1) == s * k + s;
    if x / s > k { Scale(s, k + 1, x / s); }
    Scale(s, x / s, k);
  }

  lemma Scale(s: int, a: int, b: int)
    requires s > 0
    ensures a <= b ==> s * a <= s * b
  {}

  // ---------------------------------------------------------------------------------------------
  // A pointer in memory
  // ---------------------------------------------------------------------------------------------

  function Stored(bytes: map<int, int>, at: int, v: int, n: nat): map<int, int>
    decreases n
  {
    if n == 0 then bytes else Stored(bytes[at := v % 256], at + 1, v / 256, n - 1)
  }

  function Loaded(bytes: map<int, int>, at: int, n: nat): int
    decreases n
  {
    if n == 0 then 0 else (if at in bytes then bytes[at] else 0) + 256 * Loaded(bytes, at + 1, n - 1)
  }

  function Power(n: nat): int {
    if n == 0 then 1 else 256 * Power(n - 1)
  }

  ghost predicate Agree(p: map<int, int>, q: map<int, int>, low: int, high: int) {
    forall a :: low <= a < high ==> (a in p <==> a in q) && (a in p ==> p[a] == q[a])
  }

  // Nothing but the given stretch has been written.
  ghost predicate WrittenWithin(p: map<int, int>, q: map<int, int>, low: int, high: int) {
    forall a :: a < low || a >= high ==> (a in p <==> a in q) && (a in p ==> p[a] == q[a])
  }

  lemma {:induction false} StoredElsewhere(bytes: map<int, int>, at: int, v: int, n: nat, a: int)
    requires a < at || a >= at + n
    ensures a in Stored(bytes, at, v, n) <==> a in bytes
    ensures a in bytes ==> Stored(bytes, at, v, n)[a] == bytes[a]
    decreases n
  {
    if n > 0 { StoredElsewhere(bytes[at := v % 256], at + 1, v / 256, n - 1, a); }
  }

  lemma {:induction false} LoadStored(bytes: map<int, int>, at: int, v: int, n: nat, later: map<int, int>)
    requires 0 <= v < Power(n) && Agree(Stored(bytes, at, v, n), later, at, at + n)
    ensures Loaded(later, at, n) == v
    decreases n
  {
    if n > 0 {
      StoredElsewhere(bytes[at := v % 256], at + 1, v / 256, n - 1, at);
      LoadStored(bytes[at := v % 256], at + 1, v / 256, n - 1, later);
    }
  }

  // ---------------------------------------------------------------------------------------------
  // The default allocator
  // ---------------------------------------------------------------------------------------------

  datatype Usage = Undefined | Stack | Create | Vector | List | Stl

  datatype Request = Request(size: int, alignment: int, useGuards: bool, usage: Usage)

  predicate InRange(r: Request) {
    0 <= r.size < U64 && 0 <= r.alignment < U64
  }

  function AlignedSize(r: Request): int {
    (r.size + r.alignment + WORD) % U64
  }

  // Pages for the memory itself, without guards
  function PagesFor(size: int, page: int): int
    requires page > 0
  {
    (size + page - 1) % U64 / page
  }

  // What is asked of the system: bytes of malloc(), or pages.
  function RawSize(r: Request, page: int): int
    requires page > 0
  {
    if r.useGuards then (PagesFor(r.size, page) + 2) * page % U64
    else if r.alignment > 1 then AlignedSize(r) else r.size
  }

  // Where the memory begins that allocate() returns, given the raw block, and what it writes.
  function Placed(r: Request, page: int, base: int): int
    requires page > 0
  {
    if r.useGuards then base + page else if r.alignment > 1 then AlignUp(base, r.alignment) else base
  }

  function Written(r: Request, page: int, base: int, bytes: map<int, int>): map<int, int>
    requires page > 0
  {
    if !r.useGuards && r.alignment > 1 then Stored(bytes, Placed(r, page, base) + r.size, base, WORD) else bytes
  }

  // What free() gives back to the system.
  function FreedBase(r: Request, page: int, ptr: int, bytes: map<int, int>): int {
    if r.useGuards then ptr - page else if r.alignment > 1 then Loaded(bytes, ptr + r.size, WORD) else ptr
  }

  // The memory and what the allocator keeps beside it lie in the raw block, clear of the guards.
  predicate Inside(r: Request, page: int, base: int)
    requires page > 0
  {
    var ptr, raw := Placed(r, page, base), RawSize(r, page);
    if r.useGuards then base + page <= ptr && ptr + r.size <= base + raw - page
    else base <= ptr && ptr + r.size + (if r.alignment > 1 then WORD else 0) <= base + raw
  }

  // No size computation of the allocator overflows.
  predicate Fits(r: Request, page: int)
    requires page > 0
  {
    if r.useGuards then r.size + page - 1 < U64 && (PagesFor(r.size, page) + 2) * page < U64
    else r.alignment > 1 ==> r.size + r.alignment + WORD < U64
  }

  // The guards and q bytes of pages between them
  lemma GuardsInside(size: int, page: int, q: int, x: int, raw: int)
    requires 0 <= size < U64 && 0 < page < U64 && q <= x < q + page
    requires x == if size + page - 1 < U64 then size + page - 1 else size + page - 1 - U64
    requires q + 2 * page < U64 ==> raw == q + 2 * page
    requires q + 2 * page >= U64 ==> raw <= q + 2 * page - U64
    ensures size + 2 * page <= raw <==> size + page - 1 < U64 && q + 2 * page < U64
  {}

  lemma PageBytes(size: int, page: int)
    requires 0 <= size < U64 && 0 < page < U64
    ensures var x, q := (size + page - 1) % U64, page * PagesFor(size, page);
            && 0 <= q <= x < q + page && (PagesFor(size, page) + 2) * page == q + 2 * page
            && x == if size + page - 1 < U64 then size + page - 1 else size + page - 1 - U64
  {
    var x := (size + page - 1) % U64;
    DivBounds(x, page);
    if size + page - 1 >= U64 { assert x == size + page - 1 - U64; }
  }

  lemma PagesInside(r: Request, page: int, base: int)
    requires InRange(r) && 0 < page < U64 && r.useGuards
    ensures Inside(r, page, base) <==> Fits(r, page)
  {
    PageBytes(r.size, page);
    var q := page * PagesFor(r.size, page);
    Reduced(q + 2 * page);
    hide PagesFor;
    GuardsInside(r.size, page, q, (r.size + page - 1) % U64, RawSize(r, page));
  }

  lemma Reduced(v: int)
    requires v >= 0
    ensures v < U64 ==> v % U64 == v
    ensures v >= U64 ==> v % U64 <= v - U64
  {
    if v >= U64 { assert v % U64 == (v - U64) % U64; }
  }

  lemma BlockInside(r: Request, page: int, base: int)
    requires InRange(r) && 0 < page && 0 <= base && base + RawSize(r, page) <= U64 && !r.useGuards && r.alignment > 1
    ensures Inside(r, page, base) <==> Fits(r, page)
  {
    hide AlignUp;
    if r.size + r.alignment + WORD >= U64 {
      Unfit(r);
    } else {
      AlignUpIff(base, r.alignment);
    }
  }

  /** The layout lies inside the raw block exactly when no size computation overflows. */
  lemma InsideIff(r: Request, page: int, base: int)
    requires InRange(r) && 0 < page < U64 && 0 <= base && base + RawSize(r, page) <= U64
    ensures Inside(r, page, base) <==> Fits(r, page)
  {
    if r.useGuards { PagesInside(r, page, base); }
    else if r.alignment > 1 { hide Inside; BlockInside(r, page, base); }
  }

  lemma Unfit(r: Request)
    requires InRange(r) && r.size + r.alignment + WORD >= U64
    ensures AlignedSize(r) < r.size + WORD
  {
    var t := r.size + r.alignment + WORD;
    assert t % U64 == (t - U64) % U64;
    assert (t - U64) % U64 <= t - U64;
  }

  lemma PowerEight()
    ensures Power(8) == U64
  {
    assert Power(2) == 0x1_0000;
    assert Power(4) == 0x1_0000_0000;
    assert Power(6) == 0x1_0000_0000_0000;
  }

  /** Whatever the client writes into its memory, free() recovers the block that allocate() took, and the memory
      is aligned as asked. */
  lemma FreeRecoversBase(r: Request, page: int, base: int, bytes: map<int, int>, later: map<int, int>)
    requires InRange(r) && 0 < page < U64 && 0 <= base < U64 && base + RawSize(r, page) <= U64 && Fits(r, page)
    requires var ptr := Placed(r, page, base); WrittenWithin(Written(r, page, base, bytes), later, ptr, ptr + r.size)
    ensures FreedBase(r, page, Placed(r, page, base), later) == base
    ensures AlignedAsAsked(r, page, base)
  {
    hide RawSize, Fits, Placed, FreedBase, Written, WrittenWithin, AlignedAsAsked;
    PlacedAligned(r, page, base);
    BaseFreed(r, page, base, bytes, later);
  }

  lemma BaseFreed(r: Request, page: int, base: int, bytes: map<int, int>, later: map<int, int>)
    requires InRange(r) && 0 < page < U64 && 0 <= base < U64
    requires var ptr := Placed(r, page, base); WrittenWithin(Written(r, page, base, bytes), later, ptr, ptr + r.size)
    ensures FreedBase(r, page, Placed(r, page, base), later) == base
  {
    hide AlignUp, Loaded, Stored;
    if !r.useGuards && r.alignment > 1 {
      PointerSurvives(bytes, later, Placed(r, page, base), r.size, base);
    }
  }

  /** The memory is aligned; behind guards, if pages are and the raw block begins with one. */
  ghost predicate AlignedAsAsked(r: Request, page: int, base: int)
    requires page > 0
  {
    && (!r.useGuards && r.alignment > 1 ==> Placed(r, page, base) % r.alignment == 0)
    && (r.useGuards && r.alignment > 0 && base % page == 0 && page % r.alignment == 0 ==>
          Placed(r, page, base) % r.alignment == 0)
  }

  lemma PlacedAligned(r: Request, page: int, base: int)
    requires InRange(r) && 0 < page < U64 && 0 <= base < U64
    ensures AlignedAsAsked(r, page, base)
  {
    hide AlignUp;
    if r.useGuards {
      if r.alignment > 0 && base % page == 0 && page % r.alignment == 0 { PageAligned(base, page, r.alignment); }
    } else if r.alignment > 1 {
      AlignUpIff(base, r.alignment);
    }
  }

  // Pages are as aligned as their size.
  lemma PageAligned(base: int, page: int, alignment: int)
    requires page > 0 && alignment > 0 && base % page == 0 && page % alignment == 0
    ensures (base + page) % alignment == 0
  {
    var k, m := base / page, page / alignment;
    assert base == k * page && page == m * alignment;
    assert base + page == alignment * ((k + 1) * m) by {
      assert (k + 1) * page == k * page + page;
      assert (k + 1) * (m * alignment) == (k + 1) * m * alignment;
    }
    Multiple((k + 1) * m, alignment);
  }

  // The pointer behind the client's memory
  lemma PointerSurvives(bytes: map<int, int>, later: map<int, int>, ptr: int, size: int, base: int)
    requires 0 <= size && 0 <= base < U64
    requires WrittenWithin(Stored(bytes, ptr + size, base, WORD), later, ptr, ptr + size)
    ensures Loaded(later, ptr + size, WORD) == base
  {
    PowerEight();
    hide Power, Loaded, Stored;
    LoadStored(bytes, ptr + size, base, WORD, later);
  }

  // A stored pointer is read back, and nothing else has changed.
  lemma PointerStored(bytes: map<int, int>, at: int, v: int)
    requires 0 <= v < U64
    ensures var now := Stored(bytes, at, v, WORD);
            Loaded(now, at, WORD) == v && WrittenWithin(bytes, now, at, at + WORD)
  {
    PowerEight();
    hide Stored, Loaded;
    var now := Stored(bytes, at, v, WORD);
    LoadStored(bytes, at, v, WORD, now);
    forall a | a < at || a >= at + WORD ensures (a in bytes <==> a in now) && (a in bytes ==> bytes[a] == now[a]) {
      StoredElsewhere(bytes, at, v, WORD, a);
    }
  }

  /** Behind guards the memory begins with the second page; otherwise it begins with the block, or is aligned by
      hand, with the block's address behind it. */
  lemma PlacedIs(r: Request, page: int, base: int, bytes: map<int, int>)
    requires InRange(r) && 0 < page < U64 && 0 <= base < U64
    ensures r.useGuards ==> Placed(r, page, base) == base + page
    ensures !r.useGuards && r.alignment <= 1 ==> Placed(r, page, base) == base
    ensures r.useGuards || r.alignment <= 1 ==> Written(r, page, base, bytes) == bytes
    ensures !r.useGuards && r.alignment > 1 ==>
              var ptr, now := Placed(r, page, base), Written(r, page, base, bytes);
              && (base + r.alignment - 1 < U64 ==> base <= ptr < base + r.alignment && ptr % r.alignment == 0)
              && Loaded(now, ptr + r.size, WORD) == base
              && WrittenWithin(bytes, now, ptr + r.size, ptr + r.size + WORD)
  {
    hide AlignUp, Stored, Loaded, WrittenWithin;
    if !r.useGuards && r.alignment > 1 {
      AlignUpIff(base, r.alignment);
      PointerStored(bytes, AlignUp(base, r.alignment) + r.size, base);
    }
  }

  lemma PagesAsked(size: int, page: int)
    requires 0 <= size < U64 && 0 < page < U64 && size + page - 1 < U64
    ensures var raw := (PagesFor(size, page) + 2) * page; raw % page == 0 && size + 2 * page <= raw < size + 3 * page
  {
    hide PagesFor;
    PageBytes(size, page);
    WholePages(PagesFor(size, page) + 2, page);
  }

  lemma WholePages(n: int, page: int)
    requires page > 0
    ensures n * page % page == 0
  {
    Multiple(n, page);
    assert n * page == page * n;
  }

  /** What is asked of the system: the least number of pages that hold the memory and two more for the guards, the
      memory with room to align it and for a pointer, or the memory alone. */
  lemma RawSizeIs(r: Request, page: int)
    requires InRange(r) && 0 < page < U64 && Fits(r, page)
    ensures r.useGuards ==> RawSize(r, page) % page == 0 && r.size + 2 * page <= RawSize(r, page) < r.size + 3 * page
    ensures !r.useGuards ==> RawSize(r, page) == r.size + if r.alignment > 1 then r.alignment + WORD else 0
  {
    if r.useGuards {
      PagesAsked(r.size, page);
      hide PagesFor;
      Reduced((PagesFor(r.size, page) + 2) * page);
    }
  }

  /** DefaultAllocator on raw memory; `base` is what malloc() or the page mapping returns. */
  class RawMemory {
    var bytes: map<int, int>

    // memcpy() of a pointer to `at`
    method StorePointer(at: int, v: int)
      modifies this`bytes
      ensures bytes == Stored(old(bytes), at, v, WORD)
    {
      var i, rest := 0, v;
      while i < WORD
        invariant 0 <= i <= WORD && Stored(bytes, at + i, rest, WORD - i) == Stored(old(bytes), at, v, WORD)
      {
        bytes := bytes[at + i := rest % 256];
        rest := rest / 256;
        i := i + 1;
      }
    }

    method LoadPointer(at: int) returns (v: int)
      ensures v == Loaded(bytes, at, WORD)
    {
      v := 0;
      var i := WORD;
      while i > 0
        invariant 0 <= i <= WORD && v == Loaded(bytes, at + i, WORD - i)
      {
        i := i - 1;
        v := (if at + i in bytes then bytes[at + i] else 0) + 256 * v;
      }
    }

    method Allocate(r: Request, page: int, base: int) returns (ptr: int)
      requires InRange(r) && 0 < page < U64 && 0 <= base < U64 && base + RawSize(r, page) <= U64
      modifies this`bytes
      ensures ptr == Placed(r, page, base) && bytes == Written(r, page, base, old(bytes))
      ensures Inside(r, page, base) <==> Fits(r, page)
    {
      InsideIff(r, page, base);
      if r.useGuards {
        ptr := base + page;
      } else if r.alignment > 1 {
        ptr := AlignUp(base, r.alignment);
        StorePointer(ptr + r.size, base);
      } else {
        ptr := base;
      }
    }

    /** Given the same request, gives back the base that Allocate was given, if the client has written to its own
        memory only. */
    method Free(r: Request, page: int, ptr: int, ghost base: int, ghost before: map<int, int>) returns (freed: int)
      requires InRange(r) && 0 < page < U64 && 0 <= base < U64 && base + RawSize(r, page) <= U64 && Fits(r, page)
      requires ptr == Placed(r, page, base) && WrittenWithin(Written(r, page, base, before), bytes, ptr, ptr + r.size)
      ensures freed == base
    {
      hide AlignUp, Stored, Loaded, RawSize, Fits, Placed, Written, WrittenWithin;
      FreeRecoversBase(r, page, base, before, bytes);
      if r.useGuards {
        freed := ptr - page;
      } else if r.alignment > 1 {
        freed := LoadPointer(ptr + r.size);
      } else {
        freed := ptr;
      }
    }
  }

  // ---------------------------------------------------------------------------------------------
  // Requests and releases
  // ---------------------------------------------------------------------------------------------

  datatype Type = Type(size: int, alignment: int)

  // create(), make_unique_n() (and make_unique()), make_shared(), and StlAllocator
  datatype Route = ByCreate | ByUnique(n: int) | ByShared | ByStl(n: int)

  datatype Allocation = Allocation(ptr: int, request: Request)

  // None: make_unique_n(0) returns no object.
  function Asked(t: Type, route: Route): Option<Request> {
    match route
    case ByCreate => Some(Request(t.size, t.alignment, false, Create))
    case ByUnique(n) => if n == 0 then None else Some(Request(t.size * n % U64, t.alignment, false, Create))
    case ByShared => Some(Request(t.size, t.alignment, false, Create))
    case ByStl(n) => Some(Request(t.size * n % U64, t.alignment, false, Stl))
  }

  // Allocator::Deleter
  function ByDeleter(t: Type, count: int): Request {
    Request(t.size * count % U64, t.alignment, false, Create)
  }

  function GivenBack(t: Type, route: Route): Request {
    match route
    case ByCreate => Request(t.size, t.alignment, false, Create)
    case ByUnique(n) => ByDeleter(t, n)
    case ByShared => ByDeleter(t, 1)
    case ByStl(n) => Request(t.size * n % U64, t.alignment, false, Stl)
  }

  // How many objects a route allocates
  function Objects(route: Route): int {
    match route
    case ByUnique(n) => n
    case ByStl(n) => n
    case _ => 1
  }

  /** What is asked for has the alignment and the usage it should, and holds the objects exactly if the product of their
      number and size does not overflow. */
  lemma RoomIff(t: Type, route: Route)
    requires GoodRoute(t, route)
    ensures Asked(t, route) == None <==> route == ByUnique(0)
    ensures Asked(t, route).Some? ==>
              var r := Asked(t, route).value;
              && r.alignment == t.alignment && !r.useGuards && r.usage == (if route.ByStl? then Stl else Create)
              && (t.size * Objects(route) <= r.size <==> t.size * Objects(route) < U64)
              && (t.size * Objects(route) < U64 ==> r.size == t.size * Objects(route))
  {
    var n := Objects(route);
    MulMono(0, n, t.size);
    assert t.size * n == n * t.size;
    Reduced(t.size * n);
  }

  /** Every release hands back the very request of the allocation. */
  lemma ReleaseMatches(t: Type, route: Route)
    requires 0 <= t.size < U64
    ensures Asked(t, route) == (if route == ByUnique(0) then None else Some(GivenBack(t, route)))
  {}

  // An object or an array that its owner has not released
  datatype Handle = Handle(ptr: int, t: Type, route: Route)

  // The i-th handle is released; new ones come to the front.
  datatype Call = Acquire(t: Type, route: Route, ptr: int) | Release(i: nat)

  predicate GoodRoute(t: Type, route: Route) {
    && 0 <= t.size < U64 && 0 <= t.alignment < U64
    && (route.ByUnique? || route.ByStl? ==> 0 <= route.n < U64)
  }

  // The allocator returns memory that nobody has; who releases owns.
  predicate CanCall(hs: seq<Handle>, c: Call) {
    match c
    case Acquire(t, route, ptr) => GoodRoute(t, route) && forall i :: 0 <= i < |hs| ==> hs[i].ptr != ptr
    case Release(i) => i < |hs|
  }

  function After(hs: seq<Handle>, c: Call): seq<Handle>
    requires CanCall(hs, c)
  {
    match c
    case Acquire(t, route, ptr) => if Asked(t, route).None? then hs else [Handle(ptr, t, route)] + hs
    case Release(i) => Drop(hs, i)
  }

  // What a release hands to the allocator
  function Returned(h: Handle): Allocation {
    Allocation(h.ptr, GivenBack(h.t, h.route))
  }

  function AllReturned(hs: seq<Handle>): seq<Allocation> {
    seq(|hs|, i requires 0 <= i < |hs| => Returned(hs[i]))
  }

  // A run of calls, each possible after those before it.
  ghost predicate Calls(hss: seq<seq<Handle>>, calls: seq<Call>) {
    && |hss| == |calls| + 1 && hss[0] == []
    && forall k :: 0 <= k < |calls| ==> CanCall(hss[k], calls[k]) && hss[k + 1] == After(hss[k], calls[k])
  }

  // ---------------------------------------------------------------------------------------------
  // TrackedAllocator
  // ---------------------------------------------------------------------------------------------

  function Slot(u: Usage): nat {
    match u
    case Undefined => 0
    case Stack => 1
    case Create => 2
    case Vector => 3
    case List => 4
    case Stl => 5
  }

  function UsageOf(slot: nat): Usage
    requires slot < 6
  {
    [Undefined, Stack, Create, Vector, List, Stl][slot]
  }

  /** Every usage has an entry of its own, and there are no others. */
  lemma SlotIff(u: Usage, v: Usage, n: nat)
    ensures Slot(u) < 6 && (Slot(u) == Slot(v) <==> u == v)
    ensures n < 6 ==> (Slot(u) == n <==> u == UsageOf(n))
  {}

  // Number and bytes of the live allocations of one usage
  function CountOf(live: seq<Allocation>, u: Usage): int {
    if live == [] then 0 else CountOf(live[1..], u) + if live[0].request.usage == u then 1 else 0
  }

  function BytesOf(live: seq<Allocation>, u: Usage): int {
    if live == [] then 0
    else BytesOf(live[1..], u) + if live[0].request.usage == u then live[0].request.size else 0
  }

  function Usages(live: seq<Allocation>): seq<Usage> {
    seq(|live|, i requires 0 <= i < |live| => live[i].request.usage)
  }

  /** The count is how often the usage occurs among the live allocations. */
  lemma {:induction false} CountIs(live: seq<Allocation>, u: Usage)
    ensures CountOf(live, u) == multiset(Usages(live))[u]
  {
    if live != [] {
      CountIs(live[1..], u);
      assert Usages(live) == [live[0].request.usage] + Usages(live[1..]);
    } else {
      assert Usages(live) == [];
    }
  }

  lemma {:induction false} WithoutCounts(live: seq<Allocation>, i: nat, u: Usage)
    requires i < |live|
    ensures var s, r := live[i].request.usage, Drop(live, i);
            && CountOf(r, u) == CountOf(live, u) - (if s == u then 1 else 0)
            && BytesOf(r, u) == BytesOf(live, u) - (if s == u then live[i].request.size else 0)
  {
    var r := Drop(live, i);
    if i == 0 {
      assert r == live[1..];
    } else {
      assert r[0] == live[0] && r[1..] == Drop(live[1..], i - 1);
      WithoutCounts(live[1..], i - 1, u);
    }
  }

  lemma {:induction false} AddedCounts(live: seq<Allocation>, a: Allocation, u: Usage)
    ensures CountOf([a] + live, u) == CountOf(live, u) + if a.request.usage == u then 1 else 0
    ensures BytesOf([a] + live, u) == BytesOf(live, u) + if a.request.usage == u then a.request.size else 0
  {
    assert ([a] + live)[1..] == live;
  }

  // The sums over the first n usages
  function CountTo(live: seq<Allocation>, n: nat): int
    requires n <= 6
  {
    if n == 0 then 0 else CountTo(live, n - 1) + CountOf(live, UsageOf(n - 1))
  }

  function BytesTo(live: seq<Allocation>, n: nat): int
    requires n <= 6
  {
    if n == 0 then 0 else BytesTo(live, n - 1) + BytesOf(live, UsageOf(n - 1))
  }

  function AllBytes(live: seq<Allocation>): int {
    if live == [] then 0 else AllBytes(live[1..]) + live[0].request.size
  }

  lemma {:induction false} OneMore(live: seq<Allocation>, n: nat)
    requires live != [] && n <= 6
    ensures CountTo(live, n) == CountTo(live[1..], n) + if Slot(live[0].request.usage) < n then 1 else 0
    ensures BytesTo(live, n) == BytesTo(live[1..], n)
            + if Slot(live[0].request.usage) < n then live[0].request.size else 0
  {
    if n > 0 {
      OneMore(live, n - 1);
      SlotIff(live[0].request.usage, Undefined, n - 1);
      hide Slot, UsageOf;
    }
  }

  lemma {:induction false} NoneThere(n: nat)
    requires n <= 6
    ensures CountTo([], n) == 0 && BytesTo([], n) == 0
  {
    if n > 0 { NoneThere(n - 1); }
  }

  /** The usages together are all live allocations. */
  lemma {:induction false} UsagesAreAll(live: seq<Allocation>)
    ensures CountTo(live, 6) == |live| && BytesTo(live, 6) == AllBytes(live)
  {
    if live == [] {
      NoneThere(6);
    } else {
      UsagesAreAll(live[1..]);
      OneMore(live, 6);
      SlotIff(live[0].request.usage, Undefined, 0);
      hide Slot, UsageOf, CountTo, BytesTo;
    }
  }

  class TrackedAllocator {
    const counts: array<int>
    const bytes: array<int>
    ghost var live: seq<Allocation>    // the allocations made and not freed

    /** The statistics are those of the live allocations, usage by usage, to 64 bits. */
    ghost predicate Valid()
      reads this, counts, bytes
    {
      && counts != bytes && counts.Length == 6 && bytes.Length == 6
      && (forall u: Usage :: Slot(u) < 6 && counts[Slot(u)] == CountOf(live, u) % U64
                             && bytes[Slot(u)] == BytesOf(live, u) % U64)
      && (forall i, j :: 0 <= i < j < |live| ==> live[i].ptr != live[j].ptr)
    }

    constructor ()
      ensures Valid() && live == [] && fresh(counts) && fresh(bytes)
      ensures forall i :: 0 <= i < 6 ==> counts[i] == 0 && bytes[i] == 0
    {
      counts := new int[6](_ => 0);
      bytes := new int[6](_ => 0);
      live := [];
    }

    /** ptr is what the wrapped allocator returns. Only the entry of the usage asked for changes. */
    method Allocate(request: Request, ptr: int) returns (a: Allocation)
      requires Valid() && InRange(request) && forall x :: x in live ==> x.ptr != ptr
      modifies this`live, counts, bytes
      ensures Valid() && a == Allocation(ptr, request) && live == [a] + old(live)
      ensures forall u: Usage ::
                var c, b := old(counts[Slot(u)]), old(bytes[Slot(u)]);
                && counts[Slot(u)] == (if u == request.usage then (c + 1) % U64 else c)
                && bytes[Slot(u)] == (if u == request.usage then (b + request.size) % U64 else b)
    {
      a := Allocation(ptr, request);
      var s := Slot(request.usage);
      ghost var next := [a] + live;
      forall u: Usage
        ensures CountOf(next, u) == CountOf(live, u) + if u == request.usage then 1 else 0
        ensures BytesOf(next, u) == BytesOf(live, u) + if u == request.usage then request.size else 0
        ensures Slot(u) == s <==> u == request.usage
      {
        AddedCounts(live, a, u);
        SlotIff(u, request.usage, 0);
      }
      hide Slot, CountOf, BytesOf;
      Wraps(CountOf(live, request.usage), 1);
      Wraps(BytesOf(live, request.usage), request.size);
      counts[s] := (counts[s] + 1) % U64;
      bytes[s] := (bytes[s] + request.size) % U64;
      live := next;
    }

    /** The allocation has all fields equal to those returned by Allocate. Only the entry of its usage changes. */
    method Free(a: Allocation, ghost i: nat)
      requires Valid() && i < |live| && live[i] == a
      modifies this`live, counts, bytes
      ensures Valid() && live == Drop(old(live), i)
      ensures forall u: Usage ::
                var c, b := old(counts[Slot(u)]), old(bytes[Slot(u)]);
                && counts[Slot(u)] == (if u == a.request.usage then (c - 1) % U64 else c)
                && bytes[Slot(u)] == (if u == a.request.usage then (b - a.request.size) % U64 else b)
    {
      var s := Slot(a.request.usage);
      ghost var next := Drop(live, i);
      forall u: Usage
        ensures CountOf(next, u) == CountOf(live, u) - if u == a.request.usage then 1 else 0
        ensures BytesOf(next, u) == BytesOf(live, u) - if u == a.request.usage then a.request.size else 0
        ensures Slot(u) == s <==> u == a.request.usage
      {
        WithoutCounts(live, i, u);
        SlotIff(u, a.request.usage, 0);
      }
      DropAt(live, i);
      hide Slot, CountOf, BytesOf;
      Wraps(CountOf(live, a.request.usage), -1);
      Wraps(BytesOf(live, a.request.usage), -a.request.size);
      counts[s] := (counts[s] - 1) % U64;
      bytes[s] := (bytes[s] - a.request.size) % U64;
      live := next;
    }

    /** numAllocations() and bytesAllocated() */
    method Totals() returns (num: int, size: int)
      requires Valid()
      ensures num == |live| % U64 && size == AllBytes(live) % U64
    {
      num, size := 0, 0;
      var i := 0;
      while i < 6
        invariant 0 <= i <= 6
        invariant num == CountTo(live, i) % U64 && size == BytesTo(live, i) % U64
      {
        SlotIff(UsageOf(i), Undefined, i);
        AddWraps(CountTo(live, i), CountOf(live, UsageOf(i)));
        AddWraps(BytesTo(live, i), BytesOf(live, UsageOf(i)));
        num := (num + counts[i]) % U64;
        size := (size + bytes[i]) % U64;
        i := i + 1;
      }
      UsagesAreAll(live);
    }

    /** One call of create, destroy, a smart pointer or the STL adaptor: what is live stays what the owners' releases
        will hand back. */
    method Perform(c: Call, hs: seq<Handle>) returns (rest: seq<Handle>)
      requires Valid() && live == AllReturned(hs) && CanCall(hs, c)
      modifies this`live, counts, bytes
      ensures Valid() && rest == After(hs, c) && live == AllReturned(rest)
    {
      rest := hs;
      match c
      case Acquire(t, route, ptr) =>
        ReleaseMatches(t, route);
        var request := Asked(t, route);
        if request.Some? {
          var a := Allocate(request.value, ptr);
          rest := [Handle(ptr, t, route)] + hs;
        }
      case Release(i) =>
        Free(Returned(hs[i]), i);
        rest := Drop(hs, i);
    }

    /** Over any run of such calls the statistics are those of the objects not yet released. */
    method PerformAll(calls: seq<Call>, ghost hss: seq<seq<Handle>>) returns (hs: seq<Handle>)
      requires Valid() && live == [] && Calls(hss, calls)
      modifies this`live, counts, bytes
      ensures hs == hss[|calls|] && Valid() && live == AllReturned(hs)
    {
      hs := [];
      var k := 0;
      while k < |calls|
        invariant 0 <= k <= |calls| && hs == hss[k] && Valid() && live == AllReturned(hs)
      {
        hs := Perform(calls[k], hs);
        k := k + 1;
      }
    }
  }

  lemma AddWraps(x: int, y: int)
    ensures (x % U64 + y % U64) % U64 == (x + y) % U64
  {
    Wraps(y, x % U64);
    Wraps(x, y);
  }

  lemma Wraps(x: int, y: int)
    ensures (x % U64 + y) % U64 == (x + y) % U64
  {}
}
