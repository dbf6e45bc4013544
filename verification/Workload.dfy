/** The compute workload: a XOR fold of splitmix64 outputs. */
module Workload {
  import opened Words

  const GOLDEN: Word := 0x9E37_79B9_7F4A_7C15
  const FACTOR1: Word := 0xBF58_476D_1CE4_E5B9
  const FACTOR2: Word := 0x94D0_49BB_1331_11EB

  // Inverses of the three odd constants modulo 2^64, with the quotients that show it.
  const GOLDEN_INVERSE: Word := 0xF1DE_83E1_9937_733D
  const INVERSE1: Word := 0x96DE_1B17_3F11_9089
  const INVERSE2: Word := 0x3196_42B2_D24D_8EC3
  const GOLDEN_QUOTIENT: nat := 10771413168148108919
  const QUOTIENT1: nat := 8125545580553827436
  const QUOTIENT2: nat := 2077064247507883091

  // ----- the output function and its inverse -----

  /** z ^ (z >> k) */
  function XorShift(z: Word, k: nat): Word
  {
    ShiftBelow(z, k);
    XorWord(z, ShiftRight(z, k));
    Xor(z, ShiftRight(z, k))
  }

  /** y ^ (y >> k) ^ (y >> 2k), which undoes XorShift for shifts of at least a third of the word. */
  function UnXorShift(y: Word, k: nat): Word
  {
    ShiftBelow(y, 2 * k);
    XorWord(XorShift(y, k), ShiftRight(y, 2 * k));
    Xor(XorShift(y, k), ShiftRight(y, 2 * k))
  }

  lemma XorShiftInverts(z: Word, k: nat)
    requires 3 * k >= 64
    ensures UnXorShift(XorShift(z, k), k) == z
  {
    var b, c := ShiftRight(z, k), ShiftRight(z, 2 * k);
    var y := XorShift(z, k);
    ShiftXor(z, b, k);
    ShiftAdds(z, k, k);
    assert ShiftRight(y, k) == Xor(b, c);
    ShiftXor(z, b, 2 * k);
    ShiftAdds(z, k, 2 * k);
    ShiftWordOut(z, 3 * k);
    XorZero(c);
    assert ShiftRight(y, 2 * k) == c;
    XorAssociates(y, b, c);
    XorCancels(z, b);
    XorCancels(z, c);
  }

  lemma UnXorShiftInverts(y: Word, k: nat)
    requires 3 * k >= 64
    ensures XorShift(UnXorShift(y, k), k) == y
  {
    var b, c := ShiftRight(y, k), ShiftRight(y, 2 * k);
    var u := UnXorShift(y, k);
    XorAssociates(y, b, c);
    assert u == Xor(y, Xor(b, c));
    ShiftXor(y, Xor(b, c), k);
    ShiftXor(b, c, k);
    ShiftAdds(y, k, k);
    ShiftAdds(y, 2 * k, k);
    ShiftWordOut(y, 3 * k);
    XorZero(c);
    assert ShiftRight(u, k) == Xor(b, c);
    XorCancels(y, Xor(b, c));
  }

  function Mix(state: Word): Word
  {
    XorShift(Mul(XorShift(Mul(XorShift(state, 30), FACTOR1), 27), FACTOR2), 31)
  }

  function Unmix(output: Word): Word
  {
    UnXorShift(Mul(UnXorShift(Mul(UnXorShift(output, 31), INVERSE2), 27), INVERSE1), 30)
  }

  lemma UnmixMix(z: Word)
    ensures Unmix(Mix(z)) == z
  {
    var a := XorShift(z, 30);
    var b := XorShift(Mul(a, FACTOR1), 27);
    XorShiftInverts(Mul(b, FACTOR2), 31);
    MulInverts(b, FACTOR2, INVERSE2, QUOTIENT2);
    XorShiftInverts(Mul(a, FACTOR1), 27);
    MulInverts(a, FACTOR1, INVERSE1, QUOTIENT1);
    XorShiftInverts(z, 30);
  }

  lemma MixUnmix(y: Word)
    ensures Mix(Unmix(y)) == y
  {
    var a := UnXorShift(y, 31);
    var b := UnXorShift(Mul(a, INVERSE2), 27);
    UnXorShiftInverts(Mul(b, INVERSE1), 30);
    MulInverts(b, INVERSE1, FACTOR1, QUOTIENT1);
    UnXorShiftInverts(Mul(a, INVERSE2), 27);
    MulInverts(a, INVERSE2, FACTOR2, QUOTIENT2);
    UnXorShiftInverts(y, 31);
  }

  /** Mix is a bijection on 64-bit words. */
  lemma MixIsBijective(x: Word, y: Word)
    ensures Mix(x) == Mix(y) <==> x == y
    ensures Mix(Unmix(y)) == y
  {
    UnmixMix(x);
    UnmixMix(y);
    MixUnmix(y);
  }

  lemma XorShiftZero(z: Word, k: nat)
    requires z == 0
    ensures XorShift(z, k) == 0
  {
    ShiftBelow(z, k);
  }

  lemma MixZero(z: Word)
    requires z == 0
    ensures Mix(z) == 0
  {
    XorShiftZero(z, 30);
    XorShiftZero(z, 27);
    XorShiftZero(z, 31);
  }

  lemma MixZeroIff(z: Word)
    ensures Mix(z) == 0 <==> z == 0
  {
    MixZero(0);
    UnmixMix(0);
    UnmixMix(z);
  }

  // ----- the fold -----

  /** The generator state after i increments: seed + i * golden modulo 2^64. */
  function StateAfter(seed: Word, i: nat): Word { Wrap(seed + i * GOLDEN) }

  lemma StateAdvances(seed: Word, a: nat, b: nat)
    ensures StateAfter(StateAfter(seed, a), b) == StateAfter(seed, a + b)
  {
    var x := seed + a * GOLDEN;
    assert x == Wrap(x) + x / MODULUS * MODULUS;
    assert seed + (a + b) * GOLDEN == Wrap(x) + b * GOLDEN + x / MODULUS * MODULUS;
    WrapShift(Wrap(x) + b * GOLDEN, x / MODULUS);
  }

  /** The checksum with one more output XORed in. */
  function Absorb(sum: Word, output: Word): Word
  {
    XorWord(sum, output);
    Xor(sum, output)
  }

  /** The XOR of output(1), ..., output(n). */
  function FoldOf(output: nat -> Word, n: nat): Word
  {
    if n == 0 then 0 else Absorb(FoldOf(output, n - 1), output(n))
  }

  function Outputs(seed: Word): nat -> Word { (i: nat) => Mix(StateAfter(seed, i)) }

  /** The XOR of Mix(seed + i * golden) for i in 1..n. */
  function Fold(seed: Word, n: nat): Word { FoldOf(Outputs(seed), n) }

  lemma OutputsAdvance(seed: Word, a: nat, i: nat)
    ensures Outputs(StateAfter(seed, a))(i) == Outputs(seed)(a + i)
  {
    StateAdvances(seed, a, i);
  }

  lemma AbsorbInside(start: Word, sum: Word, output: Word)
    ensures Xor(start, sum) < MODULUS && Absorb(Xor(start, sum), output) == Xor(start, Absorb(sum, output))
  {
    XorWord(start, sum);
    XorAssociates(start, sum, output);
  }

  /** Folding a + b outputs is folding the first a and then the b that follow. */
  lemma {:induction false} FoldOfSplits(output: nat -> Word, a: nat, later: nat -> Word, b: nat)
    requires forall i: nat :: later(i) == output(a + i)
    ensures FoldOf(output, a + b) == Xor(FoldOf(output, a), FoldOf(later, b))
  {
    if b == 0 {
      XorZero(FoldOf(output, a));
    } else {
      FoldOfSplits(output, a, later, b - 1);
      AbsorbInside(FoldOf(output, a), FoldOf(later, b - 1), later(b));
    }
  }

  lemma StateStep(seed: Word, i: nat)
    ensures Add(StateAfter(seed, i), GOLDEN) == StateAfter(seed, i + 1)
  {
    StateAdvances(seed, i, 1);
  }

  class ComputeTask {
    const iterations: nat
    const seed: Word
    var checksum: Word

    constructor (iterations: nat, seed: Word)
      ensures this.iterations == iterations && this.seed == seed && checksum == 0
    {
      this.iterations := iterations;
      this.seed := seed;
      checksum := 0;
    }

    /** The loop over local variables that execute() runs between reading and writing the checksum. */
    static method Accumulate(iterations: nat, seed: Word, start: Word) returns (sum: Word)
      ensures sum == Xor(start, Fold(seed, iterations))
    {
      sum := start;
      XorZero(start);
      var state := seed;
      for i := 0 to iterations
        invariant state == StateAfter(seed, i)
        invariant sum == Xor(start, Fold(seed, i))
      {
        StateStep(seed, i);
        AbsorbInside(start, Fold(seed, i), Outputs(seed)(i + 1));
        state := Add(state, GOLDEN);
        sum := Absorb(sum, Mix(state));
      }
    }

    method Execute()
      modifies this
      ensures checksum == Xor(old(checksum), Fold(seed, iterations))
    {
      var sum := Accumulate(iterations, seed, checksum);
      checksum := sum;
    }

    /** An even number of executions restores the checksum; an odd number is worth one. */
    method ExecuteRepeatedly(times: nat)
      modifies this
      ensures checksum == if times % 2 == 0 then old(checksum) else Xor(old(checksum), Fold(seed, iterations))
    {
      ghost var start, work := checksum, Fold(seed, iterations);
      for done := 0 to times
        invariant checksum == ChecksumAfter(start, work, done)
      {
        Execute();
      }
      EvenExecutionsCancel(start, work, times / 2);
    }
  }

  /** The checksum after XORing in the same work the given number of times. */
  function ChecksumAfter(start: nat, work: nat, times: nat): nat
  {
    if times == 0 then start else Xor(ChecksumAfter(start, work, times - 1), work)
  }

  /** XORing in the same work an even number of times restores the checksum; an odd number is worth one. */
  lemma {:induction false} EvenExecutionsCancel(start: nat, work: nat, pairs: nat)
    ensures ChecksumAfter(start, work, 2 * pairs) == start
    ensures ChecksumAfter(start, work, 2 * pairs + 1) == Xor(start, work)
  {
    if pairs == 0 {
    } else {
      EvenExecutionsCancel(start, work, pairs - 1);
      XorCancels(start, work);
      assert 2 * pairs - 1 == 2 * (pairs - 1) + 1;
    }
  }

  /** a + b iterations are a from the seed followed by b from the advanced state. */
  lemma FoldSplits(seed: Word, a: nat, b: nat)
    ensures Fold(seed, a + b) == Xor(Fold(seed, a), Fold(StateAfter(seed, a), b))
  {
    forall i: nat
      ensures Outputs(StateAfter(seed, a))(i) == Outputs(seed)(a + i)
    {
      OutputsAdvance(seed, a, i);
    }
    FoldOfSplits(Outputs(seed), a, Outputs(StateAfter(seed, a)), b);
  }

  /** One more iteration leaves the checksum unchanged exactly when the advanced state is zero. */
  lemma IterationCountsUnlessZero(seed: Word, n: nat)
    ensures Fold(seed, n + 1) == Fold(seed, n) <==> StateAfter(seed, n + 1) == 0
  {
    MixZeroIff(StateAfter(seed, n + 1));
    XorUnchanged(Fold(seed, n), Outputs(seed)(n + 1));
  }

  lemma GoldenMultiples(e: nat)
    ensures Wrap(e * GOLDEN) == 0 <==> e % MODULUS == 0
  {
    WrapProduct(e * GOLDEN, GOLDEN_INVERSE);
    Regroup(e, GOLDEN, GOLDEN_INVERSE, GOLDEN_QUOTIENT);
    WrapShift(e, e * GOLDEN_QUOTIENT);
    WrapProduct(e, GOLDEN);
  }

  /** The state repeats exactly after a multiple of 2^64 increments, so at most one iteration in 2^64 is idle. */
  lemma StatesRepeatOnlyAfterFullPeriod(seed: Word, i: nat, j: nat)
    requires i <= j
    ensures StateAfter(seed, i) == StateAfter(seed, j) <==> (j - i) % MODULUS == 0
  {
    var x, e := seed + i * GOLDEN, j - i;
    assert seed + j * GOLDEN == x + e * GOLDEN;
    SameRemainder(x, e * GOLDEN);
    GoldenMultiples(e);
  }

  lemma SameRemainder(x: nat, y: nat)
    ensures Wrap(x) == Wrap(x + y) <==> Wrap(y) == 0
  {
  }
}
