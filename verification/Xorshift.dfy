/** The 64-bit mixing function of example/benchmark.cpp. */
module Xorshifts {
  function Xor(x: bv64, y: bv64): bv64 { x ^ y }
  function Left13(x: bv64): bv64 { x << 13 }
  function Right7(x: bv64): bv64 { x >> 7 }
  function Left17(x: bv64): bv64 { x << 17 }

  function Xorshift(x: bv64): bv64 {
    var a := Xor(x, Left13(x));
    var b := Xor(a, Right7(a));
    Xor(b, Left17(b))
  }

  lemma XorAssoc(a: bv64, b: bv64, c: bv64)
    ensures Xor(Xor(a, b), c) == Xor(a, Xor(b, c))
  {}

  lemma XorComm(a: bv64, b: bv64)
    ensures Xor(a, b) == Xor(b, a)
  {}

  lemma XorSelf(a: bv64)
    ensures Xor(a, a) == 0
  {}

  lemma XorZero(a: bv64, b: bv64)
    ensures Xor(a, b) == 0 <==> a == b
  {
    XorSelf(a);
    if Xor(a, b) == 0 { SameBits(a, b); }
  }

  lemma SameBits(a: bv64, b: bv64)
    requires Xor(a, b) == 0
    ensures a == b
  {}

  lemma XorSwap(a: bv64, b: bv64, c: bv64, d: bv64)
    ensures Xor(Xor(a, b), Xor(c, d)) == Xor(Xor(a, c), Xor(b, d))
  {
    hide *;
    XorAssoc(a, b, Xor(c, d));
    XorAssoc(b, c, d);
    XorComm(b, c);
    XorAssoc(c, b, d);
    XorAssoc(a, c, Xor(b, d));
  }

  // Each shift passes through Xor, and moves no bit onto itself.
  lemma Shifts13(a: bv64, b: bv64)
    ensures Left13(Xor(a, b)) == Xor(Left13(a), Left13(b))
    ensures Xor(a, Left13(a)) == 0 ==> a == 0
  {}

  lemma Shifts7(a: bv64, b: bv64)
    ensures Right7(Xor(a, b)) == Xor(Right7(a), Right7(b))
    ensures Xor(a, Right7(a)) == 0 ==> a == 0
  {}

  lemma Shifts17(a: bv64, b: bv64)
    ensures Left17(Xor(a, b)) == Xor(Left17(a), Left17(b))
    ensures Xor(a, Left17(a)) == 0 ==> a == 0
  {}

  // So each of the three steps can be undone.
  lemma StepsOnce(x: bv64, y: bv64)
    ensures Xor(x, Left13(x)) == Xor(y, Left13(y)) ==> x == y
    ensures Xor(x, Right7(x)) == Xor(y, Right7(y)) ==> x == y
    ensures Xor(x, Left17(x)) == Xor(y, Left17(y)) ==> x == y
  {
    hide *;
    var d := Xor(x, y);
    XorZero(x, y);
    Shifts13(x, y);
    Shifts7(x, y);
    Shifts17(x, y);
    Shifts13(d, d);
    Shifts7(d, d);
    Shifts17(d, d);
    XorSwap(x, Left13(x), y, Left13(y));
    XorSwap(x, Right7(x), y, Right7(y));
    XorSwap(x, Left17(x), y, Left17(y));
    XorZero(Xor(x, Left13(x)), Xor(y, Left13(y)));
    XorZero(Xor(x, Right7(x)), Xor(y, Right7(y)));
    XorZero(Xor(x, Left17(x)), Xor(y, Left17(y)));
  }

  /** No two values are mixed to the same one, so nothing of a seed is lost in any number of rounds. */
  lemma XorshiftOnce(x: bv64, y: bv64)
    ensures Xorshift(x) == Xorshift(y) <==> x == y
  {
    hide Xor, Left13, Right7, Left17;
    var a, c := Xor(x, Left13(x)), Xor(y, Left13(y));
    StepsOnce(Xor(a, Right7(a)), Xor(c, Right7(c)));
    StepsOnce(a, c);
    StepsOnce(x, y);
  }

  /** The lowest and the highest bit, and one with bits all over */
  lemma XorshiftAt()
    ensures Xorshift(0) == 0 && Xorshift(1) == 0x40822041 && Xorshift(0x8000_0000_0000_0000) == 0x8100_0000_0000_0000
    ensures Xorshift(0x9e37_79b9_7f4a_7c16) == 0xdc1b_77ae_ca75_2d6e
  {}
}
