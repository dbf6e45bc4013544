/** 64-bit unsigned words as integers: wrapping arithmetic, XOR and right shift, with the laws the workload needs. */
module Words {

  const MODULUS: nat := 0x1_0000_0000_0000_0000

  type Word = x: int | 0 <= x < MODULUS witness 0

  function Add(a: Word, b: Word): Word { (a + b) % MODULUS }
  function Mul(a: Word, b: Word): Word { Wrap(a * b) }
  function Wrap(x: nat): Word { x % MODULUS }

  /** Bitwise exclusive or. */
  function Xor(a: nat, b: nat): nat
    decreases a + b
  {
    if a == 0 && b == 0 then 0 else 2 * Xor(a / 2, b / 2) + (a + b) % 2
  }

  /** Logical right shift: k halvings. */
  function ShiftRight(x: nat, k: nat): nat
    decreases k, x
  {
    if k == 0 then x else ShiftRight(x / 2, k - 1)
  }

  function Pow2(k: nat): nat { if k == 0 then 1 else 2 * Pow2(k - 1) }

  // ----- XOR -----

  lemma {:induction false} XorCommutes(a: nat, b: nat)
    ensures Xor(a, b) == Xor(b, a)
    decreases a + b
  {
    if a == 0 && b == 0 {
    } else {
      XorCommutes(a / 2, b / 2);
    }
  }

  lemma {:induction false} XorZero(a: nat)
    ensures Xor(a, 0) == a && Xor(0, a) == a
  {
    if a == 0 {
    } else {
      XorZero(a / 2);
    }
  }

  lemma {:induction false} XorSelf(a: nat)
    ensures Xor(a, a) == 0
  {
    if a == 0 {
    } else {
      XorSelf(a / 2);
    }
  }

  lemma XorHalves(a: nat, b: nat)
    ensures Xor(a, b) / 2 == Xor(a / 2, b / 2) && Xor(a, b) % 2 == (a + b) % 2
  {
  }

  lemma SameParts(x: nat, y: nat)
    requires x / 2 == y / 2 && x % 2 == y % 2
    ensures x == y
  {
  }

  lemma ParityAssociates(x: nat, a: nat, b: nat, c: nat, y: nat)
    requires x % 2 == (a + b) % 2 && y % 2 == (b + c) % 2
    ensures (x + c) % 2 == (a + y) % 2
  {
  }

  lemma {:induction false} XorAssociates(a: nat, b: nat, c: nat)
    ensures Xor(Xor(a, b), c) == Xor(a, Xor(b, c))
    decreases a + b + c
  {
    if a == 0 && b == 0 && c == 0 {
    } else {
      XorAssociates(a / 2, b / 2, c / 2);
      var x, y := Xor(a, b), Xor(b, c);
      XorHalves(a, b);
      XorHalves(b, c);
      XorHalves(x, c);
      XorHalves(a, y);
      ParityAssociates(x, a, b, c, y);
      SameParts(Xor(x, c), Xor(a, y));
    }
  }

  /** XOR with the same word twice is no change. */
  lemma XorCancels(a: nat, b: nat)
    ensures Xor(Xor(a, b), b) == a
  {
    XorAssociates(a, b, b);
    XorSelf(b);
    XorZero(a);
  }

  /** XOR changes nothing exactly when the other operand is zero. */
  lemma XorUnchanged(a: nat, b: nat)
    ensures Xor(a, b) == a <==> b == 0
  {
    XorZero(a);
    if Xor(a, b) == a {
      XorCommutes(a, b);
      XorCancels(b, a);
      XorSelf(a);
    }
  }

  lemma {:induction false} XorBelow(a: nat, b: nat, k: nat)
    requires a < Pow2(k) && b < Pow2(k)
    ensures Xor(a, b) < Pow2(k)
    decreases k
  {
    if k == 0 {
    } else {
      XorBelow(a / 2, b / 2, k - 1);
      XorHalves(a, b);
    }
  }

  lemma Pow2Byte(k: nat)
    ensures Pow2(k + 8) == 256 * Pow2(k)
  {
    assert Pow2(k + 2) == 2 * Pow2(k + 1) == 4 * Pow2(k);
    assert Pow2(k + 4) == 2 * Pow2(k + 3) == 4 * Pow2(k + 2);
    assert Pow2(k + 6) == 2 * Pow2(k + 5) == 4 * Pow2(k + 4);
    assert Pow2(k + 8) == 2 * Pow2(k + 7) == 4 * Pow2(k + 6);
  }

  lemma Pow64()
    ensures Pow2(64) == MODULUS
  {
    Pow2Byte(0);
    Pow2Byte(8);
    Pow2Byte(16);
    Pow2Byte(24);
    Pow2Byte(32);
    Pow2Byte(40);
    Pow2Byte(48);
    Pow2Byte(56);
  }

  lemma XorWord(a: Word, b: Word)
    ensures Xor(a, b) < MODULUS
  {
    Pow64();
    XorBelow(a, b, 64);
  }

  // ----- shifts -----

  lemma {:induction false} ShiftXor(a: nat, b: nat, k: nat)
    ensures ShiftRight(Xor(a, b), k) == Xor(ShiftRight(a, k), ShiftRight(b, k))
    decreases k
  {
    if k == 0 {
    } else {
      XorHalves(a, b);
      ShiftXor(a / 2, b / 2, k - 1);
    }
  }

  lemma {:induction false} ShiftAdds(x: nat, j: nat, k: nat)
    ensures ShiftRight(ShiftRight(x, j), k) == ShiftRight(x, j + k)
    decreases j
  {
    if j == 0 {
    } else {
      ShiftAdds(x / 2, j - 1, k);
    }
  }

  lemma {:induction false} ShiftOut(x: nat, k: nat)
    requires x < Pow2(k)
    ensures ShiftRight(x, k) == 0
    decreases k
  {
    if k == 0 {
    } else {
      ShiftOut(x / 2, k - 1);
    }
  }

  lemma {:induction false} ShiftBelow(x: nat, k: nat)
    ensures ShiftRight(x, k) <= x
    decreases k
  {
    if k == 0 {
    } else {
      ShiftBelow(x / 2, k - 1);
    }
  }

  lemma ShiftWordOut(x: Word, k: nat)
    requires k >= 64
    ensures ShiftRight(x, k) == 0
  {
    Pow64();
    ShiftOut(x, 64);
    ShiftAdds(x, 64, k - 64);
    ShiftBelow(0, k - 64);
  }

  lemma DoubledBounds(p: nat, y: nat, x: nat)
    requires p * y <= x / 2 < p * (y + 1)
    ensures (2 * p) * y <= x < (2 * p) * (y + 1)
  {
    assert (2 * p) * y == 2 * (p * y);
    assert (2 * p) * (y + 1) == 2 * (p * (y + 1));
  }

  /** A right shift by k is division by 2^k, rounded down. */
  lemma {:induction false} ShiftIsDivision(x: nat, k: nat)
    ensures Pow2(k) * ShiftRight(x, k) <= x < Pow2(k) * (ShiftRight(x, k) + 1)
    decreases k
  {
    if k == 0 {
    } else {
      ShiftIsDivision(x / 2, k - 1);
      DoubledBounds(Pow2(k - 1), ShiftRight(x / 2, k - 1), x);
    }
  }

  lemma FactorCancels(p: nat, x: int, y: int)
    requires p * x < p * y
    ensures x < y
  {
    assert y <= x ==> p * (x - y) >= 0;
  }

  lemma ShiftValue(x: nat, k: nat, p: nat, v: nat)
    requires p == Pow2(k) && p * v <= x < p * (v + 1)
    ensures ShiftRight(x, k) == v
  {
    ShiftIsDivision(x, k);
    FactorCancels(p, v, ShiftRight(x, k) + 1);
    FactorCancels(p, ShiftRight(x, k), v + 1);
  }

  // ----- products -----

  lemma {:induction false} WrapShift(x: nat, k: nat)
    ensures Wrap(x + k * MODULUS) == Wrap(x)
  {
    if k == 0 {
    } else {
      WrapShift(x, k - 1);
      assert x + k * MODULUS == x + (k - 1) * MODULUS + MODULUS;
    }
  }

  /** Wrapping early or late makes no difference to a product. */
  lemma WrapProduct(x: nat, d: nat)
    ensures Wrap(Wrap(x) * d) == Wrap(x * d)
  {
    var q := x / MODULUS;
    assert x == Wrap(x) + q * MODULUS;
    assert x * d == Wrap(x) * d + (q * d) * MODULUS;
    WrapShift(Wrap(x) * d, q * d);
  }

  /** Multiplying by a constant and then by its inverse modulo 2^64 is the identity. */
  lemma MulInverts(z: Word, c: Word, d: Word, q: nat)
    requires c * d == 1 + q * MODULUS
    ensures Mul(Mul(z, c), d) == z
  {
    WrapProduct(z * c, d);
    assert Mul(Mul(z, c), d) == Wrap(z * c * d);
    Regroup(z, c, d, q);
    WrapShift(z, z * q);
  }

  lemma Regroup(z: nat, c: nat, d: nat, q: nat)
    requires c * d == 1 + q * MODULUS
    ensures z * c * d == z + (z * q) * MODULUS
  {
    assert z * c * d == z * (c * d);
    assert z * (c * d) == z * (1 + q * MODULUS);
  }
}
