/** Finite sums of a weight over a sequence; the counting invariants of the engine are sums over threads. */
module Sums {

  function Sum<T>(xs: seq<T>, f: T -> nat): nat { SumTo(xs, |xs|, f) }

  /** The sum over the first n elements. */
  function SumTo<T>(xs: seq<T>, n: nat, f: T -> nat): nat
    requires n <= |xs|
  {
    if n == 0 then 0 else SumTo(xs, n - 1, f) + f(xs[n - 1])
  }

  lemma {:induction false} SumToPrefix<T>(xs: seq<T>, ys: seq<T>, n: nat, f: T -> nat)
    requires n <= |xs| && n <= |ys|
    requires forall i | 0 <= i < n :: xs[i] == ys[i]
    ensures SumTo(xs, n, f) == SumTo(ys, n, f)
  {
    if n == 0 {
    } else {
      SumToPrefix(xs, ys, n - 1, f);
    }
  }

  lemma SumAppend<T>(xs: seq<T>, x: T, f: T -> nat)
    ensures Sum(xs + [x], f) == Sum(xs, f) + f(x)
  {
    SumToPrefix(xs, xs + [x], |xs|, f);
  }

  lemma {:induction false} SumConcat<T>(xs: seq<T>, ys: seq<T>, f: T -> nat)
    ensures Sum(xs + ys, f) == Sum(xs, f) + Sum(ys, f)
  {
    if ys == [] {
      assert xs + ys == xs;
    } else {
      var front, last := ys[..|ys| - 1], ys[|ys| - 1];
      SumConcat(xs, front, f);
      SumAppend(front, last, f);
      SumAppend(xs + front, last, f);
      assert front + [last] == ys && xs + front + [last] == xs + ys;
    }
  }

  lemma SumHead<T>(xs: seq<T>, f: T -> nat)
    requires xs != []
    ensures Sum(xs, f) == f(xs[0]) + Sum(xs[1..], f)
  {
    SumConcat([xs[0]], xs[1..], f);
    assert [xs[0]] + xs[1..] == xs;
    assert SumTo([xs[0]], 0, f) == 0;
  }

  lemma {:induction false} SumToUpdate<T>(xs: seq<T>, n: nat, i: nat, x: T, f: T -> nat)
    requires i < n <= |xs|
    ensures SumTo(xs[i := x], n, f) + f(xs[i]) == SumTo(xs, n, f) + f(x)
  {
    if i < n - 1 {
      SumToUpdate(xs, n - 1, i, x, f);
    } else {
      SumToPrefix(xs, xs[i := x], n - 1, f);
    }
  }

  lemma SumUpdate<T>(xs: seq<T>, i: nat, x: T, f: T -> nat)
    requires i < |xs|
    ensures Sum(xs[i := x], f) + f(xs[i]) == Sum(xs, f) + f(x)
  {
    SumToUpdate(xs, |xs|, i, x, f);
  }

  lemma {:induction false} SumToMember<T>(xs: seq<T>, n: nat, i: nat, f: T -> nat)
    requires i < n <= |xs|
    ensures f(xs[i]) <= SumTo(xs, n, f)
  {
    if i == n - 1 {
    } else {
      SumToMember(xs, n - 1, i, f);
    }
  }

  /** A member's weight is part of the sum. */
  lemma SumMember<T>(xs: seq<T>, i: nat, f: T -> nat)
    requires i < |xs|
    ensures f(xs[i]) <= Sum(xs, f)
  {
    SumToMember(xs, |xs|, i, f);
  }

  lemma {:induction false} SumTwoMembers<T>(xs: seq<T>, n: nat, i: nat, j: nat, f: T -> nat)
    requires i < j < n <= |xs|
    ensures f(xs[i]) + f(xs[j]) <= SumTo(xs, n, f)
  {
    if j < n - 1 {
      SumTwoMembers(xs, n - 1, i, j, f);
    } else {
      SumToMember(xs, n - 1, i, f);
    }
  }

  /** A positive sum has a positive member. */
  lemma {:induction false} SumWitness<T>(xs: seq<T>, n: nat, f: T -> nat) returns (i: nat)
    requires n <= |xs| && SumTo(xs, n, f) > 0
    ensures i < n && f(xs[i]) > 0
  {
    if f(xs[n - 1]) > 0 {
      i := n - 1;
    } else {
      i := SumWitness(xs, n - 1, f);
    }
  }

  lemma {:induction false} SumToLeq<S, T>(xs: seq<S>, ys: seq<T>, n: nat, f: S -> nat, g: T -> nat, c: nat)
    requires n <= |xs| && n <= |ys|
    requires forall i | 0 <= i < n :: f(xs[i]) <= g(ys[i]) + c
    ensures SumTo(xs, n, f) <= SumTo(ys, n, g) + c * n
  {
    if n == 0 {
    } else {
      SumToLeq(xs, ys, n - 1, f, g, c);
    }
  }

  /** Pointwise comparison of two equally long sequences, with a slack of c per element. */
  lemma SumLeq<S, T>(xs: seq<S>, ys: seq<T>, f: S -> nat, g: T -> nat, c: nat)
    requires |xs| == |ys|
    requires forall i | 0 <= i < |xs| :: f(xs[i]) <= g(ys[i]) + c
    ensures Sum(xs, f) <= Sum(ys, g) + c * |xs|
  {
    SumToLeq(xs, ys, |xs|, f, g, c);
  }

  lemma SumEqual<S, T>(xs: seq<S>, ys: seq<T>, f: S -> nat, g: T -> nat)
    requires |xs| == |ys|
    requires forall i | 0 <= i < |xs| :: f(xs[i]) == g(ys[i])
    ensures Sum(xs, f) == Sum(ys, g)
  {
    SumToLeq(xs, ys, |xs|, f, g, 0);
    SumToLeq(ys, xs, |xs|, g, f, 0);
  }

  lemma SumZero<T>(xs: seq<T>, f: T -> nat)
    requires forall i | 0 <= i < |xs| :: f(xs[i]) == 0
    ensures Sum(xs, f) == 0
  {
    SumOnes(xs, |xs|, f, 0);
  }

  /** The sum of a constant weight. */
  lemma {:induction false} SumOnes<T>(xs: seq<T>, n: nat, f: T -> nat, c: nat)
    requires n <= |xs|
    requires forall i | 0 <= i < n :: f(xs[i]) == c
    ensures SumTo(xs, n, f) == c * n
  {
    if n == 0 {
    } else {
      SumOnes(xs, n - 1, f, c);
    }
  }

  function Without<T>(xs: seq<T>, i: nat): seq<T>
    requires i < |xs|
  {
    xs[..i] + xs[i + 1..]
  }

  lemma BagWithout<T>(xs: seq<T>, i: nat)
    requires i < |xs|
    ensures multiset(Without(xs, i)) == multiset(xs) - multiset{xs[i]}
  {
    assert xs == xs[..i] + [xs[i]] + xs[i + 1..];
    assert multiset(xs) == multiset(xs[..i]) + multiset{xs[i]} + multiset(xs[i + 1..]);
  }

  lemma SumWithout<T>(xs: seq<T>, i: nat, f: T -> nat)
    requires i < |xs|
    ensures Sum(xs, f) == Sum(Without(xs, i), f) + f(xs[i])
  {
    SumConcat(xs[..i], xs[i..], f);
    SumHead(xs[i..], f);
    SumConcat(xs[..i], xs[i + 1..], f);
    assert xs == xs[..i] + xs[i..] && xs[i..][1..] == xs[i + 1..];
  }

  /** A sum does not depend on the order of its terms. */
  lemma {:induction false} SumPermutation<T>(xs: seq<T>, ys: seq<T>, f: T -> nat)
    requires multiset(xs) == multiset(ys)
    ensures Sum(xs, f) == Sum(ys, f)
    decreases |xs|
  {
    if xs == [] {
      assert |multiset(ys)| == 0;
    } else {
      assert xs[0] in multiset(ys);
      var j: nat :| j < |ys| && ys[j] == xs[0];
      BagWithout(xs, 0);
      BagWithout(ys, j);
      SumWithout(xs, 0, f);
      SumWithout(ys, j, f);
      SumPermutation(Without(xs, 0), Without(ys, j), f);
    }
  }
}
