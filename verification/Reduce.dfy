/** The parallel reduction of example/benchmark.cpp: the items are cut into chunks, each chunk is one task that
    writes its own partial sum, and the partial sums are added up once the wait group is at zero. */
module Reductions {
  import opened Collections
  import opened Xorshifts

  const U64: int := 0x1_0000_0000_0000_0000
  const U32: int := 0x1_0000_0000

  // Addition of unsigned 64-bit integers
  function Add64(a: int, b: int): (r: int)
    ensures 0 <= r < U64
  {
    (a + b) % U64
  }

  function Mixed(x: int): int
    requires 0 <= x < U64
  {
    Xorshift(x as bv64) as int
  }

  // doWork() after its first n rounds
  function Worked(seed: int, n: nat): int {
    if n == 0 then Add64(seed, 0x9e3779b97f4a7c15) else Mixed(Add64(Worked(seed, n - 1), n))
  }

  method DoWork(seed: int, rounds: nat) returns (value: int)
    ensures value == Worked(seed, rounds)
  {
    hide Mixed;
    value := Add64(seed, 0x9e3779b97f4a7c15);
    var i := 0;
    while i < rounds
      invariant 0 <= i <= rounds && value == Worked(seed, i)
    {
      value := Mixed(Add64(value, i + 1));
      i := i + 1;
    }
  }

  lemma MixedAt()
    ensures Mixed(0x9e3779b97f4a7c15) == 0xdc1b77ae0bf34dad && Mixed(0x9e3779b97f4a7c16) == 0xdc1b77aeca752d6e
    ensures Mixed(0x9e3779b97f4a7c17) == 0xdc1b77ae8af70d2f && Mixed(0xdc1b77ae8af70d31) == 0x44f06cb295518f6b
  {}

  /** What no round, one and two rounds make of some seeds */
  lemma WorkedAt()
    ensures Worked(1, 0) == 0x9e3779b97f4a7c16
    ensures Worked(0, 1) == 0xdc1b77aeca752d6e && Worked(U64 - 1, 1) == 0xdc1b77ae0bf34dad
    ensures Worked(1, 2) == 0x44f06cb295518f6b
  {
    MixedAt();
    hide Mixed;
    assert Worked(0, 0) == 0x9e3779b97f4a7c15 && Worked(U64 - 1, 0) == 0x9e3779b97f4a7c14;
    assert Worked(1, 1) == 0xdc1b77ae8af70d2f;
  }

  // What item i contributes
  function Item(i: nat, work: nat): int {
    Worked(Add64(i, 1), work)
  }

  /** The wrapping sum over the items from begin on and before end */
  function RangeSum(begin: nat, end: nat, work: nat): int
    decreases end
  {
    if end <= begin then 0 else Add64(RangeSum(begin, end - 1, work), Item(end - 1, work))
  }

  lemma SingleItem(i: nat, work: nat)
    ensures RangeSum(i, i + 1, work) == Worked((i + 1) % U64, work) % U64
  {
    hide Worked;
    assert RangeSum(i, i, work) == 0;
  }

  method ReduceRange(begin: nat, end: nat, work: nat) returns (acc: int)
    ensures acc == RangeSum(begin, end, work)
    ensures end <= begin ==> acc == 0
    ensures end == begin + 1 ==> acc == Worked(end % U64, work) % U64
  {
    SingleItem(begin, work);
    hide Worked, Add64;
    acc := 0;
    var i := begin;
    while i < end
      invariant begin <= i && (begin <= end ==> i <= end) && (begin > end ==> i == begin)
      invariant acc == RangeSum(begin, i, work)
    {
      var v := DoWork(Add64(i, 1), work);
      acc := Add64(acc, v);
      i := i + 1;
    }
  }

  function Sum(values: seq<int>): int {
    if values == [] then 0 else Add64(Sum(values[..|values| - 1]), values[|values| - 1])
  }

  method SumValues(values: array<int>) returns (sum: int)
    ensures sum == Sum(values[..])
  {
    hide Add64;
    sum := 0;
    var i := 0;
    while i < values.Length
      invariant 0 <= i <= values.Length && sum == Sum(values[..i])
    {
      assert values[..i + 1][..i] == values[..i];
      sum := Add64(sum, values[i]);
      i := i + 1;
    }
    assert values[..i] == values[..];
  }

  // ---------------------------------------------------------------------------------------------
  // Chunks
  // ---------------------------------------------------------------------------------------------

  // All arithmetic is that of unsigned 64-bit integers.
  function ChunkCount(items: int, size: int): int
    requires size > 0
  {
    (items + size - 1) % U64 / size
  }

  function Begin(c: int, size: int): (r: int)
    ensures r >= 0
  {
    c * size % U64
  }

  function End(c: int, size: int, items: int): (r: int)
    ensures items >= 0 ==> r >= 0
  {
    var e := (Begin(c, size) + size) % U64;
    if e < items then e else items
  }

  ghost predicate InChunk(i: int, c: int, items: int, size: int) {
    Begin(c, size) <= i < End(c, size, items)
  }

  ghost predicate Covered(i: int, items: int, size: int)
    requires size > 0
  {
    exists c :: 0 <= c < ChunkCount(items, size) && InChunk(i, c, items, size)
  }

  /** Every item is in exactly one chunk, and the chunks hold nothing else. */
  ghost predicate Partitioned(items: int, size: int)
    requires size > 0
  {
    && (forall i :: 0 <= i < items ==> Covered(i, items, size))
    && (forall i, c, d :: 0 <= c < d < ChunkCount(items, size) ==>
        !(InChunk(i, c, items, size) && InChunk(i, d, items, size)))
    && (forall i, c :: 0 <= c < ChunkCount(items, size) && InChunk(i, c, items, size) ==> 0 <= i < items)
  }

  // The count is the least one that covers all items.
  lemma Rounded(items: int, size: int)
    requires 0 <= items < U64 && 0 < size < U64 && items + size - 1 < U64
    ensures var n := ChunkCount(items, size); n >= 0 && items <= n * size < items + size
  {
    DivBounds(items + size - 1, size);
  }

  lemma Ends(c: int, size: int)
    ensures (c + 1) * size == c * size + size
  {}

  // Without overflow each chunk but the last is full, and they follow one another.
  lemma ChunkBounds(items: int, size: int, c: int)
    requires 0 <= items < U64 && 0 < size < U64 && items + size - 1 < U64 && 0 <= c < ChunkCount(items, size)
    ensures 0 <= Begin(c, size) == c * size < items
    ensures End(c, size, items) == (if (c + 1) * size < items then (c + 1) * size else items)
    ensures c == ChunkCount(items, size) - 1 <==> (c + 1) * size >= items
  {
    var n := ChunkCount(items, size);
    Rounded(items, size);
    hide ChunkCount;
    Ends(c, size);
    Ends(n - 1, size);
    MulMono(0, c, size);
    MulMono(c, n - 1, size);
    if c < n - 1 { MulMono(c + 1, n - 1, size); }
  }

  lemma InChunkOf(items: int, size: int, i: int, c: int)
    requires 0 <= i < items < U64 && 0 < size < U64 && items + size - 1 < U64
    requires 0 <= c && c * size <= i < c * size + size
    ensures c < ChunkCount(items, size) && InChunk(i, c, items, size)
  {
    var n := ChunkCount(items, size);
    Rounded(items, size);
    if c >= n { MulMono(n, c, size); }
    hide ChunkCount;
    Ends(c, size);
    ChunkBounds(items, size, c);
  }

  lemma InChunkAt(items: int, size: int, i: int)
    requires 0 <= i < items < U64 && 0 < size < U64 && items + size - 1 < U64
    ensures 0 <= i / size < ChunkCount(items, size) && InChunk(i, i / size, items, size)
  {
    hide ChunkCount, InChunk;
    Quotient(i, size);
    InChunkOf(items, size, i, i / size);
  }

  lemma Quotient(x: int, s: int)
    requires x >= 0 && s > 0
    ensures 0 <= x / s && x / s * s <= x < x / s * s + s
  {}

  lemma OnlyChunk(items: int, size: int, i: int, c: int)
    requires 0 <= items < U64 && 0 < size < U64 && items + size - 1 < U64
    requires 0 <= c < ChunkCount(items, size) && InChunk(i, c, items, size)
    ensures c == i / size && 0 <= i < items
  {
    ChunkBounds(items, size, c);
    MulMono(0, c, size);
    assert (c + 1) * size == c * size + size;
    QuotientIs(i, size, c);
  }

  lemma NoChunks(items: int, size: int)
    requires 0 <= items < U64 && 0 < size < U64 && items + size - 1 >= U64
    ensures ChunkCount(items, size) == 0
  {
    var left := items + size - 1 - U64;
    assert (items + size - 1) % U64 == left && 0 <= left < size;
  }

  /** The chunks partition the items exactly when the rounding-up division does not overflow; if it does, there
      is no chunk at all. */
  lemma PartitionedIff(items: int, size: int)
    requires 0 <= items < U64 && 0 < size < U64
    ensures Partitioned(items, size) <==> items + size - 1 < U64
    ensures items + size - 1 >= U64 ==> ChunkCount(items, size) == 0
  {
    if items + size - 1 < U64 {
      hide Begin, End, ChunkCount;
      forall i | 0 <= i < items ensures Covered(i, items, size) { InChunkAt(items, size, i); }
      forall i, c | 0 <= c < ChunkCount(items, size) && InChunk(i, c, items, size)
        ensures c == i / size && 0 <= i < items
      {
        OnlyChunk(items, size, i, c);
      }
    } else {
      assert items - U64 < 0;
      assert ChunkCount(items, size) == 0 by { NoChunks(items, size); }
      assert !Covered(items - 1, items, size);
    }
  }

  // ---------------------------------------------------------------------------------------------
  // The sum of the partial sums
  // ---------------------------------------------------------------------------------------------

  lemma {:induction false} SumSplits(a: nat, b: nat, c: nat, work: nat)
    requires a <= b <= c
    ensures RangeSum(a, c, work) == Add64(RangeSum(a, b, work), RangeSum(b, c, work))
    decreases c
  {
    hide Item, Add64;
    if b < c {
      SumSplits(a, b, c - 1, work);
      AddAssoc(RangeSum(a, b, work), RangeSum(b, c - 1, work), Item(c - 1, work));
    } else {
      SumInRange(a, b, work);
    }
  }

  lemma AddAssoc(x: int, y: int, z: int)
    ensures Add64(Add64(x, y), z) == Add64(x, Add64(y, z))
  {
    var p, q := (x + y) / U64, (y + z) / U64;
    assert Add64(x, y) == x + y - p * U64 && Add64(y, z) == y + z - q * U64;
    ModShift(x + y + z, p);
    ModShift(x + y + z, q);
  }

  lemma ModShift(v: int, k: int)
    ensures (v - k * U64) % U64 == v % U64
  {}

  lemma {:induction false} SumInRange(a: nat, b: nat, work: nat)
    ensures 0 <= RangeSum(a, b, work) < U64 && Add64(RangeSum(a, b, work), 0) == RangeSum(a, b, work)
  {
    hide Item;
  }

  function Partial(c: nat, items: int, size: int, work: nat): int
    requires items >= 0
  {
    RangeSum(Begin(c, size), End(c, size, items), work)
  }

  ghost function Partials(n: nat, items: nat, size: int, work: nat): seq<int> {
    seq(n, c requires 0 <= c => Partial(c, items, size, work))
  }

  lemma LastPartial(n: nat, items: nat, size: int, work: nat)
    requires n > 0
    ensures Sum(Partials(n, items, size, work))
            == Add64(Sum(Partials(n - 1, items, size, work)), Partial(n - 1, items, size, work))
  {
    hide Partial, Add64;
    var all := Partials(n, items, size, work);
    assert all[..n - 1] == Partials(n - 1, items, size, work);
  }

  lemma NoPartials(items: nat, size: int, work: nat)
    ensures Partials(0, items, size, work) == []
  {}

  lemma NextMultiple(n: nat, size: nat)
    requires n > 0
    ensures 0 <= (n - 1) * size && n * size == (n - 1) * size + size
  {
    MulMono(0, n - 1, size);
  }

  lemma {:induction false} PartialsSum(n: nat, items: nat, size: nat, work: nat)
    requires items < U64 && 0 < size < U64 && items + size - 1 < U64 && n <= ChunkCount(items, size)
    ensures n * size >= 0 && Sum(Partials(n, items, size, work))
            == RangeSum(0, if n * size < items then n * size else items, work)
  {
    hide Item, Add64, Partials, ChunkCount, Begin, End;
    if n > 0 {
      PartialsSum(n - 1, items, size, work);
      LastPartial(n, items, size, work);
      ChunkBounds(items, size, n - 1);
      NextMultiple(n, size);
      hide Sum, RangeSum;
      SumSplits(0, Begin(n - 1, size), End(n - 1, size, items), work);
    } else {
      NoPartials(items, size, work);
    }
  }

  /** All partial sums added up give the sequential checksum. */
  lemma ReductionKeepsMeaning(items: nat, size: nat, work: nat)
    requires items < U64 && 0 < size < U64 && items + size - 1 < U64
    ensures ChunkCount(items, size) >= 0
    ensures Sum(Partials(ChunkCount(items, size), items, size, work)) == RangeSum(0, items, work)
  {
    var n := ChunkCount(items, size);
    DivBounds(items + size - 1, size);
    assert n * size >= items;
    hide RangeSum, Sum, Partials;
    PartialsSum(n, items, size, work);
  }

  // ---------------------------------------------------------------------------------------------
  // Completion
  // ---------------------------------------------------------------------------------------------

  // The count of the wait group after k chunks are done; it starts with the chunk count cut to 32 bits.
  function CountAfter(chunks: int, k: int): int {
    (chunks % U32 - k) % U32
  }

  /** The wait may end after the first k chunks of the order in which they complete: the count is at zero then. */
  ghost predicate WaitEnds(n: int, order: seq<int>, k: int) {
    && 0 <= k <= |order| == n && NoDup(order) && CountAfter(n, k) == 0
    && forall c :: c in order <==> 0 <= c < n
  }

  ghost predicate AllDone(n: int, order: seq<int>, k: int)
    requires 0 <= k <= |order|
  {
    forall c :: 0 <= c < n ==> c in order[..k]
  }

  lemma CountAtZero(n: int, k: int)
    requires 0 <= k <= n
    ensures CountAfter(n, k) == 0 <==> (n - k) % U32 == 0
  {
    assert n % U32 - k == (n - k) - n / U32 * U32;
    assert (n - k - n / U32 * U32) % U32 == (n - k) % U32;
  }

  /** The wait ends with the last chunk, and never before, exactly when the chunk count fits 32 bits. */
  lemma WaitEndsLastIff(chunks: int)
    requires chunks >= 0
    ensures CountAfter(chunks, chunks) == 0
    ensures (forall k :: 0 <= k < chunks ==> CountAfter(chunks, k) != 0) <==> chunks < U32
  {
    CountAtZero(chunks, chunks);
    if chunks < U32 {
      forall k | 0 <= k < chunks ensures CountAfter(chunks, k) != 0 { CountAtZero(chunks, k); }
    } else {
      var k := chunks % U32;
      assert CountAfter(chunks, k) == 0 && k < chunks;
    }
  }

  // A chunk that completes later is not among those done.
  lemma LaterIsMissing(order: seq<int>, k: int)
    requires NoDup(order) && 0 <= k < |order|
    ensures order[k] !in order[..k]
  {}

  function Upto(n: nat): (r: seq<int>)
    ensures |r| == n && forall i :: 0 <= i < n ==> r[i] == i
  {
    if n == 0 then [] else Upto(n - 1) + [n - 1]
  }

  lemma UptoHas(n: nat)
    ensures forall c :: c in Upto(n) <==> 0 <= c < n
  {
    forall c | 0 <= c < n ensures c in Upto(n) { assert Upto(n)[c] == c; }
  }

  /** Whenever the wait ends all chunks are done, exactly when the chunk count fits 32 bits. */
  lemma AllDoneIff(n: nat)
    ensures (forall order, k :: WaitEnds(n, order, k) ==> AllDone(n, order, k)) <==> n < U32
  {
    WaitEndsLastIff(n);
    if n < U32 {
      forall order: seq<int>, k | WaitEnds(n, order, k) ensures AllDone(n, order, k) { assert order[..n] == order; }
    } else {
      var k :| 0 <= k < n && CountAfter(n, k) == 0;
      UptoHas(n);
      assert WaitEnds(n, Upto(n), k);
      LaterIsMissing(Upto(n), k);
      assert Upto(n)[k] == k;
      assert !AllDone(n, Upto(n), k);
    }
  }

  // The partial sums that the wait leaves, and those it has not waited for
  ghost function Left(n: nat, done: seq<int>, items: nat, size: int, work: nat): seq<int> {
    seq(n, c requires 0 <= c => if c in done then Partial(c, items, size, work) else 0)
  }

  ghost function Missed(n: nat, done: seq<int>, items: nat, size: int, work: nat): seq<int> {
    seq(n, c requires 0 <= c => if c in done then 0 else Partial(c, items, size, work))
  }

  lemma {:induction false} LeftAndMissed(n: nat, done: seq<int>, items: nat, size: int, work: nat)
    ensures Add64(Sum(Left(n, done, items, size, work)), Sum(Missed(n, done, items, size, work)))
            == Sum(Partials(n, items, size, work))
    ensures 0 <= Sum(Left(n, done, items, size, work)) < U64 && 0 <= Sum(Missed(n, done, items, size, work)) < U64
  {
    if n > 0 {
      LeftAndMissed(n - 1, done, items, size, work);
      var l, m, p := Left(n, done, items, size, work), Missed(n, done, items, size, work),
          Partials(n, items, size, work);
      assert l[..n - 1] == Left(n - 1, done, items, size, work);
      assert m[..n - 1] == Missed(n - 1, done, items, size, work);
      assert p[..n - 1] == Partials(n - 1, items, size, work);
      var a, b, x := Sum(l[..n - 1]), Sum(m[..n - 1]), Partial(n - 1, items, size, work);
      assert Sum(l) == Add64(a, l[n - 1]) && Sum(m) == Add64(b, m[n - 1]) && Sum(p) == Add64(Sum(p[..n - 1]), x);
      hide Partial, Sum, Left, Missed, Partials;
      AddEither(a, b, x);
    }
  }

  lemma AddEither(a: int, b: int, x: int)
    requires 0 <= a < U64 && 0 <= b < U64
    ensures Add64(Add64(a, x), Add64(b, 0)) == Add64(Add64(a, b), x) == Add64(Add64(a, 0), Add64(b, x))
  {
    assert Add64(a, 0) == a && Add64(b, 0) == b;
    AddAssoc(a, x, b);
    AddAssoc(a, b, x);
    assert Add64(x, b) == Add64(b, x);
  }

  /** What is found when the sums are added up: the first k chunks, for which the wait has waited, and some more that
      were written late but not too late. */
  ghost predicate Found(order: seq<int>, k: int, found: seq<int>)
    requires 0 <= k <= |order|
  {
    forall c :: c in order[..k] ==> c in found
  }

  /** The checksum is the sequential one exactly if what has been missed sums up to zero; nothing is missed if the chunk
      count fits 32 bits. */
  lemma ChecksumIff(items: nat, size: nat, work: nat, order: seq<int>, k: int, found: seq<int>)
    requires items < U64 && 0 < size < U64 && items + size - 1 < U64
    requires WaitEnds(ChunkCount(items, size), order, k) && Found(order, k, found)
    ensures var n := ChunkCount(items, size);
            && n >= 0
            && (Sum(Left(n, found, items, size, work)) == RangeSum(0, items, work)
                <==> Sum(Missed(n, found, items, size, work)) == 0)
            && (n < U32 ==> Sum(Left(n, found, items, size, work)) == RangeSum(0, items, work))
  {
    var n := ChunkCount(items, size);
    ReductionKeepsMeaning(items, size, work);
    AllDoneIff(n);
    if n < U32 { LeftIsAll(n, order, k, found, items, size, work); }
    hide RangeSum, Left, Missed, Partials, Sum, WaitEnds, ChunkCount, Add64;
    LeftAndMissed(n, found, items, size, work);
    ZeroMissed(Sum(Left(n, found, items, size, work)), Sum(Missed(n, found, items, size, work)));
  }

  lemma LeftIsAll(n: nat, order: seq<int>, k: int, found: seq<int>, items: nat, size: int, work: nat)
    requires 0 <= k <= |order| && AllDone(n, order, k) && Found(order, k, found)
    ensures Left(n, found, items, size, work) == Partials(n, items, size, work)
  {}

  lemma ZeroMissed(l: int, m: int)
    requires 0 <= l < U64 && 0 <= m < U64
    ensures l == Add64(l, m) <==> m == 0
  {}

  lemma HalfParity(h: nat)
    ensures (h / 2 % 2 + h % 2) % 2 == (h + 1) / 2 % 2
  {
    var q, r := h / 4, h % 4;
    assert h == 4 * q + r;
    assert h / 2 == 2 * q + r / 2 && h % 2 == r % 2 && (h + 1) / 2 == 2 * q + (r + 1) / 2;
    assert r == 0 || r == 1 || r == 2 || r == 3;
  }

  lemma ItemParity(h: nat)
    ensures Item(h, 0) % 2 == h % 2
  {
    ParityOfSum(h, 1);
    ParityOfSum(Add64(h, 1), 0x9e3779b97f4a7c15);
    assert Item(h, 0) == Add64(Add64(h, 1), 0x9e3779b97f4a7c15);
    hide Add64;
  }

  lemma {:induction false} PlainParity(n: nat)
    ensures RangeSum(0, n, 0) % 2 == n / 2 % 2
  {
    hide Item, Add64;
    if n > 0 {
      PlainParity(n - 1);
      ItemParity(n - 1);
      ParityOfSum(RangeSum(0, n - 1, 0), Item(n - 1, 0));
      HalfParity(n - 1);
    }
  }

  lemma ParityOfSum(a: int, b: int)
    ensures Add64(a, b) % 2 == (a + b) % 2
  {
    assert a + b == (a + b) / U64 * U64 + Add64(a, b);
  }

  lemma AddNothing(a: int)
    requires 0 <= a < U64
    ensures Add64(a, 0) == a == Add64(0, a)
  {}

  lemma {:induction false} OneLeft(n: nat, c: nat, items: nat, size: int, work: nat)
    requires 0 <= Partial(c, items, size, work) < U64
    ensures Sum(Left(n, [c], items, size, work)) == if c < n then Partial(c, items, size, work) else 0
  {
    hide Add64, Partial;
    AddNothing(Partial(c, items, size, work));
    AddNothing(0);
    if n > 0 {
      OneLeft(n - 1, c, items, size, work);
      var l := Left(n, [c], items, size, work);
      assert l[..n - 1] == Left(n - 1, [c], items, size, work);
      assert Sum(l) == Add64(Sum(l[..n - 1]), l[n - 1]);
      assert l[n - 1] == if c == n - 1 then Partial(c, items, size, work) else 0;
      hide Left, Sum;
    }
  }

  /** 2^32 + 1 chunks of one item: the wait can end after one of them, with a wrong checksum. */
  lemma EarlyChecksum()
    ensures var items := U32 + 1;
            exists order, k :: WaitEnds(ChunkCount(items, 1), order, k)
                               && Sum(Left(ChunkCount(items, 1), order[..k], items, 1, 0)) != RangeSum(0, items, 0)
  {
    var items := U32 + 1;
    assert ChunkCount(items, 1) == items;
    var rest := Upto(items);
    var order := [rest[1]] + [rest[0]] + rest[2..];
    assert rest[0] == 0 && rest[1] == 1;
    UptoHas(items);
    Swapped(rest, order);
    CountAtZero(items, 1);
    assert WaitEnds(items, order, 1);
    assert order[..1] == [1];
    OneItem(1, items);
    OneLeft(items, 1, items, 1, 0);
    PlainParity(items);
    hide Left, RangeSum, WaitEnds, Sum, Upto;
  }

  lemma Swapped(q: seq<int>, r: seq<int>)
    requires |q| >= 2 && r == [q[1]] + [q[0]] + q[2..] && NoDup(q)
    ensures NoDup(r) && |r| == |q| && forall c :: c in r <==> c in q
  {
    assert forall i :: 0 <= i < |r| ==> r[i] == q[if i == 0 then 1 else if i == 1 then 0 else i];
    assert forall i :: 0 <= i < |q| ==> q[i] == r[if i == 0 then 1 else if i == 1 then 0 else i];
  }

  lemma OneItem(c: nat, items: nat)
    requires c == 1 < items < U64
    ensures Partial(c, items, 1, 0) % 2 == 1 && 0 <= Partial(c, items, 1, 0) < U64
  {
    assert Begin(c, 1) == 1 && End(c, 1, items) == 2;
    assert RangeSum(1, 1, 0) == 0;
    assert Item(1, 0) == Add64(2, 0x9e3779b97f4a7c15);
    assert RangeSum(1, 2, 0) == Add64(0, Item(1, 0));
  }

  /** The chunks complete in some order, and the wait ends after the first k of them; the late ones are written before
      the sums are added up. The result is the sum of what is found then. If the chunk count fits 32 bits, it is the
      sequential checksum. */
  method RunParallelReduce(items: nat, size: nat, work: nat, order: seq<int>, k: nat, late: seq<int>)
      returns (checksum: int)
    requires items < U64 && 0 < size < U64 && WaitEnds(ChunkCount(items, size), order, k)
    requires forall c :: c in late ==> 0 <= c < ChunkCount(items, size)
    ensures checksum == Sum(Left(ChunkCount(items, size), order[..k] + late, items, size, work))
    ensures items + size - 1 < U64 ==>
              (checksum == RangeSum(0, items, work)
               <==> Sum(Missed(ChunkCount(items, size), order[..k] + late, items, size, work)) == 0)
    ensures items + size - 1 < U64 && ChunkCount(items, size) < U32 ==> checksum == RangeSum(0, items, work)
  {
    hide RangeSum, Sum;
    var n := (items + size - 1) % U64 / size;
    assert n == ChunkCount(items, size) >= 0;
    var count := n % U32;
    assert count == CountAfter(n, 0) by { ModTwice(n); }
    hide ChunkCount, CountAfter, Begin, End;
    var partials := new int[n](_ => 0);
    var i := 0;
    while i < k
      invariant 0 <= i <= k && count == CountAfter(n, i)
      invariant forall c :: 0 <= c < n ==>
                  partials[c] == if c in order[..i] then Partial(c, items, size, work) else 0
    {
      var c := order[i];
      assert c in order;
      assert order[..i + 1] == order[..i] + [c];
      partials[c] := ReduceRange(Begin(c, size), End(c, size, items), work);
      CountDown(n, i);
      count := (count - 1) % U32;
      i := i + 1;
    }
    assert count == 0;
    WriteLate(partials, order[..k], late, items, size, work);
    checksum := SumValues(partials);
    if items + size - 1 < U64 { ChecksumIff(items, size, work, order, k, order[..k] + late); }
  }

  // Chunks that complete after the wait
  method WriteLate(partials: array<int>, ghost done: seq<int>, late: seq<int>, items: nat, size: int, work: nat)
    requires items < U64 && 0 < size < U64
    requires forall c :: c in late ==> 0 <= c < partials.Length
    requires forall c :: 0 <= c < partials.Length ==>
               partials[c] == if c in done then Partial(c, items, size, work) else 0
    modifies partials
    ensures partials[..] == Left(partials.Length, done + late, items, size, work)
  {
    hide RangeSum, Begin, End;
    var i := 0;
    while i < |late|
      invariant 0 <= i <= |late|
      invariant forall c :: 0 <= c < partials.Length ==>
                  partials[c] == if c in done + late[..i] then Partial(c, items, size, work) else 0
    {
      var c := late[i];
      assert c in late;
      assert done + late[..i + 1] == done + late[..i] + [c];
      partials[c] := ReduceRange(Begin(c, size), End(c, size, items), work);
      i := i + 1;
    }
    assert late[..i] == late;
  }

  lemma ModTwice(n: int)
    ensures n % U32 % U32 == n % U32
  {}

  // done() takes the 32-bit count down by one.
  lemma CountDown(n: int, i: int)
    ensures CountAfter(n, i + 1) == (CountAfter(n, i) - 1) % U32
  {}

  method RunSequentialReduce(items: nat, work: nat) returns (checksum: int)
    ensures checksum == RangeSum(0, items, work)
  {
    checksum := ReduceRange(0, items, work);
  }
}
