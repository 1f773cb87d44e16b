/** Facts about sets, sequences and division that several modules use. */
module Collections {

  /** No element occurs twice. */
  ghost predicate NoDup<T>(q: seq<T>) {
    forall i, j :: 0 <= i < j < |q| ==> q[i] != q[j]
  }

  // q without its i-th element
  function Drop<T>(q: seq<T>, i: nat): seq<T>
    requires i < |q|
  {
    q[..i] + q[i + 1..]
  }

  // The places of the elements that remain.
  lemma AtMostOne<T>(s: seq<T>, x: T)
    requires NoDup(s)
    ensures (forall y :: y in s ==> y == x) ==> s == if x in s then [x] else []
  {
    if |s| > 1 { assert s[0] in s && s[1] in s && s[0] != s[1]; }
    if |s| == 1 { assert s[0] in s; assert s == [s[0]]; }
  }

  lemma DropAt<T>(q: seq<T>, i: nat)
    requires i < |q|
    ensures |Drop(q, i)| == |q| - 1
    ensures forall k :: 0 <= k < |q| - 1 ==> Drop(q, i)[k] == q[if k < i then k else k + 1]
    ensures forall x :: x in Drop(q, i) ==> x in q
    ensures NoDup(q) ==> NoDup(Drop(q, i)) && q[i] !in Drop(q, i)
  {}

  // The elements of a set, in some order
  lemma {:induction false} Listing<T>(x: set<T>) returns (q: seq<T>)
    ensures NoDup(q) && forall a :: a in q <==> a in x
  {
    q := [];
    if x != {} {
      var a :| a in x;
      var rest := Listing(x - {a});
      q := [a] + rest;
    }
  }

  lemma Without<T>(x: set<T>, a: T)
    ensures |x| == |x - {a}| + if a in x then 1 else 0
  {
    if a !in x { assert x - {a} == x; }
  }

  // Sets that agree but for w
  lemma SameBut<T>(x: set<T>, y: set<T>, w: T)
    requires forall v :: v != w ==> (v in x <==> v in y)
    ensures |x| - (if w in x then 1 else 0) == |y| - (if w in y then 1 else 0)
  {
    assert x - {w} == y - {w};
    Without(x, w);
    Without(y, w);
  }

  lemma DivBounds(x: int, s: int)
    requires s > 0
    ensures s * (x / s) <= x < s * (x / s) + s
  {}

  lemma MulMono(a: int, b: int, s: int)
    requires a <= b && s >= 0
    ensures a * s <= b * s
  {}

  lemma QuotientIs(x: int, s: int, q: int)
    requires s > 0 && q * s <= x < q * s + s
    ensures x / s == q
  {
    var d := x / s;
    DivBounds(x, s);
    assert (d + 1) * s == d * s + s && (q + 1) * s == q * s + s;
    if q < d { MulMono(q + 1, d, s); }
    if d < q { MulMono(d + 1, q, s); }
  }
}
