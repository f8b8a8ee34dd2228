/**
 * Money arithmetic shared by every form: amounts are exact decimals (`real`),
 * rounding to the cent is one explicit function, and summation over record
 * lists is one generic fold.
 */
module Money {

  function Min(a: real, b: real): (r: real)
    ensures r <= a && r <= b
    ensures r == a || r == b
  {
    if b < a then b else a
  }

  function Max(a: real, b: real): (r: real)
    ensures r >= a && r >= b
    ensures r == a || r == b
  {
    if b > a then b else a
  }

  function Abs(x: real): (r: real)
    ensures r >= 0.0
    ensures r == x || r == -x
  {
    if x < 0.0 then -x else x
  }

  /** A whole number of cents. */
  predicate IsCents(x: real) {
    (x * 100.0).Floor as real == x * 100.0
  }

  /**
   * `round(x, 2)`: the nearest whole cent, a half cent rounding up.
   * The result is a whole number of cents within half a cent of `x`.
   */
  function RoundCents(x: real): (r: real)
    ensures x - 0.005 < r <= x + 0.005
    ensures IsCents(r)
  {
    var k := (x * 100.0 + 0.5).Floor;
    assert (k as real / 100.0) * 100.0 == k as real;
    k as real / 100.0
  }

  lemma RoundCentsMonotone(x: real, y: real)
    requires x <= y
    ensures RoundCents(x) <= RoundCents(y)
  {
    var kx := (x * 100.0 + 0.5).Floor;
    var ky := (y * 100.0 + 0.5).Floor;
    assert kx as real <= x * 100.0 + 0.5 <= y * 100.0 + 0.5 < ky as real + 1.0;
    assert kx <= ky;
  }

  /** An amount that is already a whole number of cents is left as it is. */
  lemma RoundCentsOfCents(x: real)
    requires IsCents(x)
    ensures RoundCents(x) == x
  {
    var n := (x * 100.0).Floor;
    assert (x * 100.0 + 0.5).Floor == n;
  }

  lemma RoundCentsNonNegative(x: real)
    requires x >= 0.0
    ensures RoundCents(x) >= 0.0
  {
    RoundCentsMonotone(0.0, x);
    RoundCentsOfCents(0.0);
  }

  lemma RoundCentsPositive(x: real)
    requires x >= 0.005
    ensures RoundCents(x) >= 0.01
  {
    RoundCentsMonotone(0.005, x);
    assert (0.005 * 100.0 + 0.5).Floor == 1;
  }

  /** Scaling by a non-negative factor keeps order. */
  lemma MulMonotone(a: real, b: real, c: real)
    requires a <= b && 0.0 <= c
    ensures a * c <= b * c
  {
    assert (b - a) * c >= 0.0;
  }

  /** Dividing by a positive amount keeps order. */
  lemma DivMonotone(a: real, b: real, c: real)
    requires a <= b && 0.0 < c
    ensures a / c <= b / c
  {
    assert b / c - a / c == (b - a) / c;
  }

  lemma Distribute(amount: real, ratio: real)
    ensures amount * (1.0 - ratio) == amount - amount * ratio
  {
  }

  /** Taking a fraction `ratio` in [0, 1] off a non-negative amount leaves between 0 and the amount. */
  lemma ReduceByFraction(amount: real, ratio: real)
    requires 0.0 <= amount && 0.0 <= ratio <= 1.0
    ensures amount * (1.0 - ratio) == amount - amount * ratio
    ensures 0.0 <= amount - amount * ratio <= amount
  {
    MulMonotone(ratio, 1.0, amount);
    MulMonotone(0.0, ratio, amount);
  }

  /** `rate` applied to `base` gives `amount`. */
  predicate IsRate(rate: real, amount: real, base: real)
  {
    rate * base == amount
  }

  /** `a / b` for a positive divisor: the rate that, applied to `b`, gives back `a`. */
  function Quotient(a: real, b: real): (q: real)
    requires b > 0.0
    ensures IsRate(q, a, b)
    ensures a >= 0.0 ==> q >= 0.0
  {
    a / b
  }

  /** The sum of `f` over a list, as a right fold; Python's `sum(f(x) for x in xs)`. */
  function SumBy<T>(xs: seq<T>, f: T -> real): real
  {
    if xs == [] then 0.0 else f(xs[0]) + SumBy(xs[1..], f)
  }

  lemma {:induction false} SumByAppend<T>(a: seq<T>, b: seq<T>, f: T -> real)
    ensures SumBy(a + b, f) == SumBy(a, f) + SumBy(b, f)
  {
    if a == [] {
      assert a + b == b;
    } else {
      assert (a + b)[1..] == a[1..] + b;
      SumByAppend(a[1..], b, f);
    }
  }

  /** Taking one record out of the list takes its amount out of the sum. */
  lemma SumByRemove<T>(b: seq<T>, j: nat, f: T -> real)
    requires j < |b|
    ensures SumBy(b, f) == f(b[j]) + SumBy(b[..j] + b[j + 1..], f)
  {
    assert b == (b[..j] + [b[j]]) + b[j + 1..];
    SumByAppend(b[..j] + [b[j]], b[j + 1..], f);
    SumByAppend(b[..j], [b[j]], f);
    SumByAppend(b[..j], b[j + 1..], f);
    assert SumBy([b[j]], f) == f(b[j]) by {
      assert [b[j]][1..] == [];
    }
  }

  lemma MultisetRemove<T>(b: seq<T>, j: nat)
    requires j < |b|
    ensures multiset(b[..j] + b[j + 1..]) == multiset(b) - multiset{b[j]}
  {
    assert b == b[..j] + [b[j]] + b[j + 1..];
  }

  /** The first record of a list is somewhere in any permutation of it, and the rests are permutations. */
  lemma PermutationHead<T>(a: seq<T>, b: seq<T>) returns (j: nat)
    requires a != [] && multiset(a) == multiset(b)
    ensures j < |b| && b[j] == a[0]
    ensures multiset(b[..j] + b[j + 1..]) == multiset(a[1..])
  {
    assert a == [a[0]] + a[1..];
    assert multiset(a) == multiset{a[0]} + multiset(a[1..]);
    assert a[0] in multiset(b);
    j :| 0 <= j < |b| && b[j] == a[0];
    MultisetRemove(b, j);
  }

  /** Summation does not depend on the order of the records. */
  lemma {:induction false} SumByPermutation<T>(a: seq<T>, b: seq<T>, f: T -> real)
    requires multiset(a) == multiset(b)
    ensures SumBy(a, f) == SumBy(b, f)
  {
    if a == [] {
      assert |b| == |multiset(b)| == 0;
    } else {
      var j := PermutationHead(a, b);
      SumByPermutation(a[1..], b[..j] + b[j + 1..], f);
      SumByRemove(b, j, f);
    }
  }

  /** Two lists whose amounts agree position by position have the same sum, whatever else the records hold. */
  lemma {:induction false} SumByCongruent<T, U>(a: seq<T>, f: T -> real, b: seq<U>, g: U -> real)
    requires |a| == |b|
    requires forall i | 0 <= i < |a| :: f(a[i]) == g(b[i])
    ensures SumBy(a, f) == SumBy(b, g)
  {
    if a != [] {
      assert forall i | 0 <= i < |a[1..]| :: a[1..][i] == a[i + 1] && b[1..][i] == b[i + 1];
      SumByCongruent(a[1..], f, b[1..], g);
    }
  }

  /** A sum of non-negative amounts is non-negative. */
  lemma {:induction false} SumByNonNegative<T>(a: seq<T>, f: T -> real)
    requires forall i | 0 <= i < |a| :: f(a[i]) >= 0.0
    ensures SumBy(a, f) >= 0.0
  {
    if a != [] {
      assert forall i | 0 <= i < |a[1..]| :: a[1..][i] == a[i + 1];
      SumByNonNegative(a[1..], f);
    }
  }
}
