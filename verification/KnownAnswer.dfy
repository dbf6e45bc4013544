/** A known answer: the first output of splitmix64 from seed 0. It fixes the constants, the shifts and their order. */
module KnownAnswer {
  import opened Words
  import opened Workload

  // ----- XOR of given words, digit by digit -----

  /** f takes last bits i and j to k and leaves the others to itself. */
  ghost predicate Appends(f: (nat, nat) -> nat, a: nat, b: nat, i: nat, j: nat, k: nat)
  {
    f(2 * a + i, 2 * b + j) == 2 * f(a, b) + k
  }

  function Bit(b: bool): nat { if b then 1 else 0 }

  ghost predicate ComparesLastBits(f: (nat, nat) -> nat, a: nat, b: nat, i: bool, j: bool)
  {
    Appends(f, a, b, Bit(i), Bit(j), Bit(i != j))
  }

  /** f compares its operands bit by bit. */
  ghost predicate Bitwise(f: (nat, nat) -> nat)
  {
    f(0, 0) == 0 && forall a, b, i, j :: ComparesLastBits(f, a, b, i, j)
  }

  lemma Parts(a: nat, i: nat, b: nat, j: nat)
    requires i < 2 && j < 2
    ensures (2 * a + i) / 2 == a && (2 * a + i + (2 * b + j)) % 2 == (i + j) % 2
  {
  }

  lemma XorByParts(x: nat, y: nat, a: nat, b: nat, k: nat)
    requires x / 2 == a && y / 2 == b && (x + y) % 2 == k
    ensures Xor(x, y) == 2 * Xor(a, b) + k
  {
  }

  lemma XorAppends(a: nat, b: nat, i: nat, j: nat)
    requires i < 2 && j < 2
    ensures Appends(Xor, a, b, i, j, (i + j) % 2)
  {
    Parts(a, i, b, j);
    Parts(b, j, a, i);
    XorByParts(2 * a + i, 2 * b + j, a, b, (i + j) % 2);
  }

  lemma XorLastBits(a: nat, b: nat, i: bool, j: bool)
    ensures ComparesLastBits(Xor, a, b, i, j)
  {
    assert (Bit(i) + Bit(j)) % 2 == Bit(i != j);
    XorAppends(a, b, Bit(i), Bit(j));
  }

  lemma XorIsBitwise()
    ensures Bitwise(Xor)
  {
    forall a: nat, b: nat, i: bool, j: bool
      ensures ComparesLastBits(Xor, a, b, i, j)
    {
      XorLastBits(a, b, i, j);
    }
  }

  /** A hexadecimal digit by its bits. */
  datatype Digit = Digit(b3: bool, b2: bool, b1: bool, b0: bool)

  function Hex(d: nat): Digit
  {
    var r2 := if d >= 8 then d - 8 else d;
    var r1 := if r2 >= 4 then r2 - 4 else r2;
    Digit(d >= 8, r2 >= 4, r1 >= 2, r1 == 1 || r1 == 3)
  }

  function XorDigit(i: Digit, j: Digit): Digit { Digit(i.b3 != j.b3, i.b2 != j.b2, i.b1 != j.b1, i.b0 != j.b0) }

  lemma PairUp(f: (nat, nat) -> nat, a: nat, b: nat, i1: nat, j1: nat, k1: nat, i0: nat, j0: nat, k0: nat)
    requires Appends(f, a, b, i1, j1, k1) && Appends(f, 2 * a + i1, 2 * b + j1, i0, j0, k0)
    ensures f(4 * a + (2 * i1 + i0), 4 * b + (2 * j1 + j0)) == 4 * f(a, b) + (2 * k1 + k0)
  {
    assert 2 * (2 * a + i1) + i0 == 4 * a + (2 * i1 + i0) && 2 * (2 * b + j1) + j0 == 4 * b + (2 * j1 + j0);
  }

  /** f on operands with one more pair of bits. */
  lemma PairOfBits(f: (nat, nat) -> nat, a: nat, b: nat, i1: bool, j1: bool, i0: bool, j0: bool)
    requires Bitwise(f)
    ensures f(4 * a + (2 * Bit(i1) + Bit(i0)), 4 * b + (2 * Bit(j1) + Bit(j0)))
            == 4 * f(a, b) + (2 * Bit(i1 != j1) + Bit(i0 != j0))
  {
    assert ComparesLastBits(f, a, b, i1, j1);
    assert ComparesLastBits(f, 2 * a + Bit(i1), 2 * b + Bit(j1), i0, j0);
    PairUp(f, a, b, Bit(i1), Bit(j1), Bit(i1 != j1), Bit(i0), Bit(j0), Bit(i0 != j0));
  }

  lemma JoinPairs(f: (nat, nat) -> nat, a: nat, b: nat, i: nat, j: nat, k: nat, x: nat, y: nat, z: nat)
    requires f(4 * a + i, 4 * b + j) == 4 * f(a, b) + k
    requires f(4 * (4 * a + i) + x, 4 * (4 * b + j) + y) == 4 * f(4 * a + i, 4 * b + j) + z
    ensures f(16 * a + (4 * i + x), 16 * b + (4 * j + y)) == 16 * f(a, b) + (4 * k + z)
  {
    assert 4 * (4 * a + i) + x == 16 * a + (4 * i + x) && 4 * (4 * b + j) + y == 16 * b + (4 * j + y);
  }

  function Upper(d: Digit): nat { 2 * Bit(d.b3) + Bit(d.b2) }
  function Lower(d: Digit): nat { 2 * Bit(d.b1) + Bit(d.b0) }
  function Amount(d: Digit): nat { 4 * Upper(d) + Lower(d) }

  lemma HexAmount(d: nat)
    requires d < 16
    ensures Amount(Hex(d)) == d
  {
  }

  lemma FourUp(f: (nat, nat) -> nat, a: nat, b: nat, x: Digit, y: Digit)
    requires Bitwise(f)
    ensures f(16 * a + Amount(x), 16 * b + Amount(y)) == 16 * f(a, b) + Amount(XorDigit(x, y))
  {
    var d := XorDigit(x, y);
    PairOfBits(f, a, b, x.b3, y.b3, x.b2, y.b2);
    PairOfBits(f, 4 * a + Upper(x), 4 * b + Upper(y), x.b1, y.b1, x.b0, y.b0);
    JoinPairs(f, a, b, Upper(x), Upper(y), Upper(d), Lower(x), Lower(y), Lower(d));
  }

  lemma DigitUp(f: (nat, nat) -> nat, a: nat, b: nat, c: nat, i: nat, j: nat)
    requires Bitwise(f) && f(a, b) == c && i < 16 && j < 16
    ensures f(16 * a + i, 16 * b + j) == 16 * c + Amount(XorDigit(Hex(i), Hex(j)))
  {
    FourUp(f, a, b, Hex(i), Hex(j));
    HexAmount(i);
    HexAmount(j);
  }

  lemma FirstXorHigh(f: (nat, nat) -> nat)
    requires Bitwise(f)
    ensures f(0x9E3779B9, 0x2) == 0x9E3779BB
  {
    DigitUp(f, 0x0, 0x0, 0x0, 0x9, 0x0);
    DigitUp(f, 0x9, 0x0, 0x9, 0xE, 0x0);
    DigitUp(f, 0x9E, 0x0, 0x9E, 0x3, 0x0);
    DigitUp(f, 0x9E3, 0x0, 0x9E3, 0x7, 0x0);
    DigitUp(f, 0x9E37, 0x0, 0x9E37, 0x7, 0x0);
    DigitUp(f, 0x9E377, 0x0, 0x9E377, 0x9, 0x0);
    DigitUp(f, 0x9E3779, 0x0, 0x9E3779, 0xB, 0x0);
    DigitUp(f, 0x9E3779B, 0x0, 0x9E3779B, 0x9, 0x2);
  }

  lemma FirstXor(f: (nat, nat) -> nat)
    requires Bitwise(f)
    ensures f(0x9E37_79B9_7F4A_7C15, 0x2_78DD_E6E5) == 0x9E37_79BB_0797_9AF0
  {
    FirstXorHigh(f);
    DigitUp(f, 0x9E3779B9, 0x2, 0x9E3779BB, 0x7, 0x7);
    DigitUp(f, 0x9E3779B97, 0x27, 0x9E3779BB0, 0xF, 0x8);
    DigitUp(f, 0x9E3779B97F, 0x278, 0x9E3779BB07, 0x4, 0xD);
    DigitUp(f, 0x9E3779B97F4, 0x278D, 0x9E3779BB079, 0xA, 0xD);
    DigitUp(f, 0x9E3779B97F4A, 0x278DD, 0x9E3779BB0797, 0x7, 0xE);
    DigitUp(f, 0x9E3779B97F4A7, 0x278DDE, 0x9E3779BB07979, 0xC, 0x6);
    DigitUp(f, 0x9E3779B97F4A7C, 0x278DDE6, 0x9E3779BB07979A, 0x1, 0xE);
    DigitUp(f, 0x9E3779B97F4A7C1, 0x278DDE6E, 0x9E3779BB07979AF, 0x5, 0x5);
  }

  lemma SecondXorHigh(f: (nat, nat) -> nat)
    requires Bitwise(f)
    ensures f(0x6F68261B, 0xD) == 0x6F682616
  {
    DigitUp(f, 0x0, 0x0, 0x0, 0x6, 0x0);
    DigitUp(f, 0x6, 0x0, 0x6, 0xF, 0x0);
    DigitUp(f, 0x6F, 0x0, 0x6F, 0x6, 0x0);
    DigitUp(f, 0x6F6, 0x0, 0x6F6, 0x8, 0x0);
    DigitUp(f, 0x6F68, 0x0, 0x6F68, 0x2, 0x0);
    DigitUp(f, 0x6F682, 0x0, 0x6F682, 0x6, 0x0);
    DigitUp(f, 0x6F6826, 0x0, 0x6F6826, 0x1, 0x0);
    DigitUp(f, 0x6F68261, 0x0, 0x6F68261, 0xB, 0xD);
  }

  lemma SecondXor(f: (nat, nat) -> nat)
    requires Bitwise(f)
    ensures f(0x6F68_261B_57E7_A770, 0xD_ED04_C36A) == 0x6F68_2616_BAE3_641A
  {
    SecondXorHigh(f);
    DigitUp(f, 0x6F68261B, 0xD, 0x6F682616, 0x5, 0xE);
    DigitUp(f, 0x6F68261B5, 0xDE, 0x6F682616B, 0x7, 0xD);
    DigitUp(f, 0x6F68261B57, 0xDED, 0x6F682616BA, 0xE, 0x0);
    DigitUp(f, 0x6F68261B57E, 0xDED0, 0x6F682616BAE, 0x7, 0x4);
    DigitUp(f, 0x6F68261B57E7, 0xDED04, 0x6F682616BAE3, 0xA, 0xC);
    DigitUp(f, 0x6F68261B57E7A, 0xDED04C, 0x6F682616BAE36, 0x7, 0x3);
    DigitUp(f, 0x6F68261B57E7A7, 0xDED04C3, 0x6F682616BAE364, 0x7, 0x6);
    DigitUp(f, 0x6F68261B57E7A77, 0xDED04C36, 0x6F682616BAE3641, 0x0, 0xA);
  }

  lemma ThirdXorHigh(f: (nat, nat) -> nat)
    requires Bitwise(f)
    ensures f(0xE220A838, 0x1) == 0xE220A839
  {
    DigitUp(f, 0x0, 0x0, 0x0, 0xE, 0x0);
    DigitUp(f, 0xE, 0x0, 0xE, 0x2, 0x0);
    DigitUp(f, 0xE2, 0x0, 0xE2, 0x2, 0x0);
    DigitUp(f, 0xE22, 0x0, 0xE22, 0x0, 0x0);
    DigitUp(f, 0xE220, 0x0, 0xE220, 0xA, 0x0);
    DigitUp(f, 0xE220A, 0x0, 0xE220A, 0x8, 0x0);
    DigitUp(f, 0xE220A8, 0x0, 0xE220A8, 0x3, 0x0);
    DigitUp(f, 0xE220A83, 0x0, 0xE220A83, 0x8, 0x1);
  }

  lemma ThirdXor(f: (nat, nat) -> nat)
    requires Bitwise(f)
    ensures f(0xE220_A838_BF5C_9DDE, 0x1_C441_5071) == 0xE220_A839_7B1D_CDAF
  {
    ThirdXorHigh(f);
    DigitUp(f, 0xE220A838, 0x1, 0xE220A839, 0xB, 0xC);
    DigitUp(f, 0xE220A838B, 0x1C, 0xE220A8397, 0xF, 0x4);
    DigitUp(f, 0xE220A838BF, 0x1C4, 0xE220A8397B, 0x5, 0x4);
    DigitUp(f, 0xE220A838BF5, 0x1C44, 0xE220A8397B1, 0xC, 0x1);
    DigitUp(f, 0xE220A838BF5C, 0x1C441, 0xE220A8397B1D, 0x9, 0x5);
    DigitUp(f, 0xE220A838BF5C9, 0x1C4415, 0xE220A8397B1DC, 0xD, 0x0);
    DigitUp(f, 0xE220A838BF5C9D, 0x1C44150, 0xE220A8397B1DCD, 0xD, 0x7);
    DigitUp(f, 0xE220A838BF5C9DD, 0x1C441507, 0xE220A8397B1DCDA, 0xE, 0x1);
  }

  // ----- the three stages of the output function -----

  lemma Powers()
    ensures Pow2(27) == 0x800_0000 && Pow2(30) == 0x4000_0000 && Pow2(31) == 0x8000_0000
  {
    Pow2Byte(0);
    Pow2Byte(8);
    Pow2Byte(16);
    assert Pow2(26) == 2 * Pow2(25) && Pow2(25) == 2 * Pow2(24);
    assert Pow2(28) == 2 * Pow2(27) && Pow2(29) == 2 * Pow2(28);
  }

  lemma ShiftedXor(z: Word, k: nat, p: nat, shifted: nat, value: Word)
    requires p == Pow2(k) && p * shifted <= z < p * (shifted + 1) && Xor(z, shifted) == value
    ensures XorShift(z, k) == value
  {
    ShiftValue(z, k, p, shifted);
  }

  lemma FirstStage(z: Word)
    requires z == 0x9E37_79B9_7F4A_7C15
    ensures XorShift(z, 30) == 0x9E37_79BB_0797_9AF0
  {
    Powers();
    XorIsBitwise();
    FirstXor(Xor);
    ShiftedXor(z, 30, 0x40000000, 0x2_78DD_E6E5, 0x9E37_79BB_0797_9AF0);
  }

  lemma SecondStage(z: Word)
    requires z == 0x6F68_261B_57E7_A770
    ensures XorShift(z, 27) == 0x6F68_2616_BAE3_641A
  {
    Powers();
    XorIsBitwise();
    SecondXor(Xor);
    ShiftedXor(z, 27, 0x8000000, 0xD_ED04_C36A, 0x6F68_2616_BAE3_641A);
  }

  lemma ThirdStage(z: Word)
    requires z == 0xE220_A838_BF5C_9DDE
    ensures XorShift(z, 31) == 0xE220_A839_7B1D_CDAF
  {
    Powers();
    XorIsBitwise();
    ThirdXor(Xor);
    ShiftedXor(z, 31, 0x80000000, 0x1_C441_5071, 0xE220_A839_7B1D_CDAF);
  }

  lemma Products()
    ensures Mul(0x9E37_79BB_0797_9AF0, FACTOR1) == 0x6F68_261B_57E7_A770
    ensures Mul(0x6F68_2616_BAE3_641A, FACTOR2) == 0xE220_A838_BF5C_9DDE
  {
  }

  lemma FirstOutput(z: Word)
    requires z == GOLDEN
    ensures Mix(z) == 0xE220_A839_7B1D_CDAF
  {
    FirstStage(z);
    Products();
    SecondStage(0x6F68_261B_57E7_A770);
    ThirdStage(0xE220_A838_BF5C_9DDE);
  }

  lemma OneIteration(seed: Word, n: nat)
    requires seed == 0 && n == 1
    ensures Fold(seed, n) == 0xE220_A839_7B1D_CDAF
  {
    assert StateAfter(seed, 1) == GOLDEN;
    FirstOutput(StateAfter(seed, 1));
    assert FoldOf(Outputs(seed), 0) == 0;
    XorZero(Outputs(seed)(1));
  }

  /** From seed 0, one iteration contributes the first output of splitmix64. */
  lemma FirstOutputFromZero()
    ensures Fold(0, 1) == 0xE220_A839_7B1D_CDAF
  {
    OneIteration(0, 1);
  }
}
