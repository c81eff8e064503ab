/**
 * Real vectors and the few reductions the portfolio code uses on them
 * (torch.sum, element-wise differences, dot products, max |a-b|).
 * Exact reals stand in for the tensors' floats.
 */
module Vectors {

  type Vec = seq<real>
  type Matrix = seq<Vec>

  datatype Option<T> = None | Some(value: T)

  function Abs(x: real): (r: real)
    ensures r >= 0.0 && (r == x || r == -x)
  {
    if x < 0.0 then -x else x
  }

  function Max(a: real, b: real): real { if a < b then b else a }

  function Min(a: real, b: real): real { if a < b then a else b }

  // Scalar facts, each proved in a context of its own so that the
  // nonlinear step does not meet the sequence-level facts around its use.

  lemma ProductNonNegative(x: real, y: real)
    requires x >= 0.0 && y >= 0.0
    ensures x * y >= 0.0
  {
  }

  lemma ProductPositive(x: real, y: real)
    requires x > 0.0 && y > 0.0
    ensures x * y > 0.0
  {
  }

  lemma DistributeOnePlus(x: real, y: real, g: real, p: real, q: real)
    requires g == 1.0 + y && p == x * g && q == x + x * y
    ensures p == q
  {
  }

  lemma SwapLastFactors(x: real, y: real, z: real)
    ensures x * y * z == x * z * y
  {
  }

  lemma DivideIsInverse(x: real, s: real)
    requires s != 0.0
    ensures x / s == x * (1.0 / s)
  {
  }

  lemma MultiplyDivide(x: real, c: real)
    requires c != 0.0
    ensures (x * c) / c == x
  {
  }

  lemma MultiplyEqual(a: real, b: real, c: real)
    requires a == b
    ensures a * c == b * c
  {
  }

  lemma SelfQuotient(s: real)
    requires s != 0.0
    ensures s / s == 1.0
  {
  }

  lemma DistributeRight(a: real, b: real, c: real)
    ensures (a + b) * c == a * c + b * c
  {
  }

  lemma QuotientTimesDivisor(x: real, s: real)
    requires s != 0.0
    ensures (x / s) * s == x
  {
  }

  lemma FractionInUnitInterval(x: real, s: real)
    requires 0.0 <= x <= s && s > 0.0
    ensures 0.0 <= x / s <= 1.0
  {
  }

  lemma QuotientNonNegative(x: real, s: real)
    requires (x >= 0.0 && s > 0.0) || (x <= 0.0 && s < 0.0)
    ensures x / s >= 0.0
  {
  }

  /** Sum of the entries, taken from the left as torch.sum of a 1-d tensor. */
  function Sum(v: Vec): real
  {
    if |v| == 0 then 0.0 else Sum(v[..|v| - 1]) + v[|v| - 1]
  }

  function Zeros(n: nat): (z: Vec)
  {
    seq(n, _ => 0.0)
  }

  /** torch.ones(N) / N */
  function Uniform(n: nat): (u: Vec)
    requires n > 0
  {
    seq(n, _ => 1.0 / n as real)
  }

  function Sub(a: Vec, b: Vec): (d: Vec)
    requires |a| == |b|
  {
    seq(|a|, i requires 0 <= i < |a| => a[i] - b[i])
  }

  /** Element-wise |a_i - b_i|. */
  function AbsDiff(a: Vec, b: Vec): (d: Vec)
    requires |a| == |b|
  {
    seq(|a|, i requires 0 <= i < |a| => Abs(a[i] - b[i]))
  }

  function Add(a: Vec, b: Vec): (s: Vec)
    requires |a| == |b|
  {
    seq(|a|, i requires 0 <= i < |a| => a[i] + b[i])
  }

  /** 1 + r_i for every entry: the gross growth of each asset over a period. */
  function OnePlus(r: Vec): (g: Vec)
  {
    seq(|r|, i requires 0 <= i < |r| => 1.0 + r[i])
  }

  function Times(a: Vec, b: Vec): (p: Vec)
    requires |a| == |b|
  {
    seq(|a|, i requires 0 <= i < |a| => a[i] * b[i])
  }

  /** v * c for a scalar c. */
  function Scale(v: Vec, c: real): (s: Vec)
  {
    seq(|v|, i requires 0 <= i < |v| => v[i] * c)
  }

  /** v / s for a non-zero scalar s. */
  function DivideBy(v: Vec, s: real): (q: Vec)
    requires s != 0.0
  {
    seq(|v|, i requires 0 <= i < |v| => v[i] / s)
  }

  /** w @ x */
  function Dot(a: Vec, b: Vec): real
    requires |a| == |b|
  {
    Sum(Times(a, b))
  }

  /** torch.sum(torch.abs(a - b)) */
  function L1Distance(a: Vec, b: Vec): real
    requires |a| == |b|
  {
    Sum(AbsDiff(a, b))
  }

  /** torch.max(torch.abs(a - b)): the largest entry-wise distance. */
  function MaxAbsDiff(a: Vec, b: Vec): (m: real)
    requires |a| == |b| && |a| > 0
    ensures forall i :: 0 <= i < |a| ==> Abs(a[i] - b[i]) <= m
    ensures exists i :: 0 <= i < |a| && m == Abs(a[i] - b[i])
  {
    PrefixMaxAbsDiff(a, b, |a| - 1)
  }

  /** The largest |a_i - b_i| with i <= k. */
  function PrefixMaxAbsDiff(a: Vec, b: Vec, k: nat): (m: real)
    requires |a| == |b| && k < |a|
    ensures forall i :: 0 <= i <= k ==> Abs(a[i] - b[i]) <= m
    ensures exists i :: 0 <= i <= k && m == Abs(a[i] - b[i])
  {
    if k == 0 then Abs(a[0] - b[0])
    else Max(PrefixMaxAbsDiff(a, b, k - 1), Abs(a[k] - b[k]))
  }

  /** Number of entries strictly above eps (torch.sum(v > eps)). */
  function CountAbove(v: Vec, eps: real): (c: nat)
    ensures c <= |v|
  {
    if |v| == 0 then 0
    else CountAbove(v[..|v| - 1], eps) + (if v[|v| - 1] > eps then 1 else 0)
  }

  predicate AllNonNegative(v: Vec)
  {
    forall i :: 0 <= i < |v| ==> v[i] >= 0.0
  }

  predicate Rectangular(m: Matrix, n: nat)
  {
    forall t :: 0 <= t < |m| ==> |m[t]| == n
  }

  // ---------------------------------------------------------------------
  // Facts about Sum

  lemma SumPrefixStep(v: Vec, k: nat)
    requires k < |v|
    ensures Sum(v[..k + 1]) == Sum(v[..k]) + v[k]
  {
    assert v[..k + 1][..k] == v[..k];
  }

  lemma {:induction false} SumOfZeros(n: nat)
    ensures Sum(Zeros(n)) == 0.0
  {
    if n > 0 {
      assert Zeros(n)[..n - 1] == Zeros(n - 1);
      SumOfZeros(n - 1);
    }
  }

  lemma {:induction false} SumOfEqualEntries(v: Vec, c: real)
    requires forall i :: 0 <= i < |v| ==> v[i] == c
    ensures Sum(v) == |v| as real * c
  {
    if |v| > 0 {
      var k := |v| - 1;
      assert forall i :: 0 <= i < k ==> v[..k][i] == v[i];
      SumOfEqualEntries(v[..k], c);
      DistributeRight(k as real, 1.0, c);
    }
  }

  lemma {:induction false} SumOfConstant(n: nat, c: real)
    ensures Sum(seq(n, _ => c)) == n as real * c
  {
    if n > 0 {
      assert seq(n, _ => c)[..n - 1] == seq(n - 1, _ => c);
      SumOfConstant(n - 1, c);
    }
  }

  lemma SumOfUniform(n: nat)
    requires n > 0
    ensures Sum(Uniform(n)) == 1.0
  {
    SumOfConstant(n, 1.0 / n as real);
  }

  lemma {:induction false} SumScale(v: Vec, c: real)
    ensures Sum(Scale(v, c)) == Sum(v) * c
  {
    if |v| > 0 {
      var k := |v| - 1;
      forall i | 0 <= i < k
        ensures Scale(v, c)[..k][i] == Scale(v[..k], c)[i]
      {
        assert v[..k][i] == v[i];
      }
      assert Scale(v, c)[..k] == Scale(v[..k], c);
      SumScale(v[..k], c);
      DistributeRight(Sum(v[..k]), v[k], c);
    }
  }

  lemma SumDivideBy(v: Vec, s: real)
    requires s != 0.0
    ensures Sum(DivideBy(v, s)) == Sum(v) / s
  {
    forall i | 0 <= i < |v|
      ensures DivideBy(v, s)[i] == Scale(v, 1.0 / s)[i]
    {
      DivideByAt(v, s, i);
    }
    assert DivideBy(v, s) == Scale(v, 1.0 / s);
    SumScale(v, 1.0 / s);
  }

  /** Scaling by c and dividing back by c is the identity. */
  lemma ScaleDivideCancel(v: Vec, c: real)
    requires c != 0.0
    ensures DivideBy(Scale(v, c), c) == v
  {
    forall i | 0 <= i < |v|
      ensures DivideBy(Scale(v, c), c)[i] == v[i]
    {
      ScaleDivideAt(v, c, i);
    }
  }

  /** Dividing by the total gives shares that sum to 1. */
  lemma SumDividedBySelf(v: Vec)
    requires Sum(v) != 0.0
    ensures Sum(DivideBy(v, Sum(v))) == 1.0
  {
    SumDivideBy(v, Sum(v));
    SelfQuotient(Sum(v));
  }

  /** Dividing non-negative entries by their positive total gives non-negative shares summing to 1. */
  lemma Normalised(v: Vec)
    requires AllNonNegative(v) && Sum(v) > 0.0
    ensures AllNonNegative(DivideBy(v, Sum(v))) && Sum(DivideBy(v, Sum(v))) == 1.0
  {
    SumDividedBySelf(v);
    forall i | 0 <= i < |v|
      ensures DivideBy(v, Sum(v))[i] >= 0.0
    {
      DivideByAtNonNegative(v, Sum(v), i);
    }
  }

  lemma {:induction false} SumNonNegative(v: Vec)
    requires AllNonNegative(v)
    ensures Sum(v) >= 0.0
  {
    if |v| > 0 {
      SumNonNegative(v[..|v| - 1]);
    }
  }

  lemma {:induction false} SumNonPositive(v: Vec)
    requires forall i :: 0 <= i < |v| ==> v[i] <= 0.0
    ensures Sum(v) <= 0.0
  {
    if |v| > 0 {
      SumNonPositive(v[..|v| - 1]);
    }
  }

  lemma {:induction false} SumOfAllZero(v: Vec)
    requires forall i :: 0 <= i < |v| ==> v[i] == 0.0
    ensures Sum(v) == 0.0
  {
    if |v| > 0 {
      SumOfAllZero(v[..|v| - 1]);
    }
  }

  /** A sum of non-negative terms bounds each of its terms. */
  lemma {:induction false} SumBoundsTerm(v: Vec, i: nat)
    requires AllNonNegative(v) && i < |v|
    ensures v[i] <= Sum(v)
  {
    var k := |v| - 1;
    SumNonNegative(v[..k]);
    if i < k {
      SumBoundsTerm(v[..k], i);
    }
  }

  lemma {:induction false} SumAdd(a: Vec, b: Vec)
    requires |a| == |b|
    ensures Sum(Add(a, b)) == Sum(a) + Sum(b)
  {
    if |a| > 0 {
      var k := |a| - 1;
      assert Add(a, b)[..k] == Add(a[..k], b[..k]);
      SumAdd(a[..k], b[..k]);
    }
  }

  lemma {:induction false} SumMonotone(a: Vec, b: Vec)
    requires |a| == |b|
    requires forall i :: 0 <= i < |a| ==> a[i] <= b[i]
    ensures Sum(a) <= Sum(b)
  {
    if |a| > 0 {
      SumMonotone(a[..|a| - 1], b[..|b| - 1]);
    }
  }

  lemma L1DistanceSelf(a: Vec)
    ensures L1Distance(a, a) == 0.0
  {
    forall i | 0 <= i < |a|
      ensures AbsDiff(a, a)[i] == 0.0
    {
      assert AbsDiff(a, a)[i] == Abs(a[i] - a[i]);
    }
    SumOfAllZero(AbsDiff(a, a));
  }

  lemma L1DistanceNonNegative(a: Vec, b: Vec)
    requires |a| == |b|
    ensures L1Distance(a, b) >= 0.0
  {
    SumNonNegative(AbsDiff(a, b));
  }

  lemma L1DistanceSymmetric(a: Vec, b: Vec)
    requires |a| == |b|
    ensures L1Distance(a, b) == L1Distance(b, a)
  {
    forall i | 0 <= i < |a|
      ensures AbsDiff(a, b)[i] == AbsDiff(b, a)[i]
    {
      assert a[i] - b[i] == -(b[i] - a[i]);
    }
    assert AbsDiff(a, b) == AbsDiff(b, a);
  }

  /** Two weight vectors that are non-negative and sum to one are at L1 distance at most 2. */
  lemma L1DistanceOfSimplexPoints(a: Vec, b: Vec)
    requires |a| == |b|
    requires AllNonNegative(a) && AllNonNegative(b)
    ensures L1Distance(a, b) <= Sum(a) + Sum(b)
  {
    SumMonotone(AbsDiff(a, b), Add(a, b));
    SumAdd(a, b);
  }

  /** Weighted sum of positive factors with non-negative weights of positive total is positive. */
  lemma {:induction false} DotPositive(w: Vec, g: Vec)
    requires |w| == |g|
    requires AllNonNegative(w)
    requires forall i :: 0 <= i < |g| ==> g[i] > 0.0
    requires Sum(w) > 0.0
    ensures Dot(w, g) > 0.0
  {
    var k := |w| - 1;
    TimesPrefix(w, g, k);
    SumNonNegative(w[..k]);
    if Sum(w[..k]) > 0.0 {
      DotPositive(w[..k], g[..k]);
      TimesAtNonNegative(w, g, k);
    } else {
      assert w[k] > 0.0;
      TimesAtPositive(w, g, k);
      forall i | 0 <= i < k
        ensures Times(w[..k], g[..k])[i] >= 0.0
      {
        TimesAtNonNegative(w[..k], g[..k], i);
      }
      SumNonNegative(Times(w[..k], g[..k]));
    }
  }

  /** Sum_i w_i (1 + r_i) == Sum_i w_i + w . r */
  lemma DotOnePlus(w: Vec, r: Vec)
    requires |w| == |r|
    ensures Dot(w, OnePlus(r)) == Sum(w) + Dot(w, r)
  {
    forall i | 0 <= i < |w|
      ensures Times(w, OnePlus(r))[i] == Add(w, Times(w, r))[i]
    {
      TimesOnePlusAt(w, r, i);
    }
    assert Times(w, OnePlus(r)) == Add(w, Times(w, r));
    SumAdd(w, Times(w, r));
  }

  // Element steps, each in a context of its own.

  lemma TimesPrefix(a: Vec, b: Vec, k: nat)
    requires |a| == |b| && k <= |a|
    ensures Times(a, b)[..k] == Times(a[..k], b[..k])
  {
    forall i | 0 <= i < k
      ensures Times(a, b)[..k][i] == Times(a[..k], b[..k])[i]
    {
      assert a[..k][i] == a[i] && b[..k][i] == b[i];
    }
  }

  lemma TimesOnePlusAt(w: Vec, r: Vec, i: nat)
    requires |w| == |r| && i < |w|
    ensures Times(w, OnePlus(r))[i] == Add(w, Times(w, r))[i]
  {
    DistributeOnePlus(w[i], r[i], OnePlus(r)[i], Times(w, OnePlus(r))[i], Add(w, Times(w, r))[i]);
  }

  lemma TimesAtNonNegative(a: Vec, b: Vec, i: nat)
    requires |a| == |b| && i < |a| && a[i] >= 0.0 && b[i] >= 0.0
    ensures Times(a, b)[i] >= 0.0
  {
    ProductNonNegative(a[i], b[i]);
  }

  lemma TimesAtPositive(a: Vec, b: Vec, i: nat)
    requires |a| == |b| && i < |a| && a[i] > 0.0 && b[i] > 0.0
    ensures Times(a, b)[i] > 0.0
  {
    ProductPositive(a[i], b[i]);
  }

  lemma DivideByAt(v: Vec, s: real, i: nat)
    requires s != 0.0 && i < |v|
    ensures DivideBy(v, s)[i] == Scale(v, 1.0 / s)[i]
  {
    DivideIsInverse(v[i], s);
  }

  lemma ScaleDivideAt(v: Vec, c: real, i: nat)
    requires c != 0.0 && i < |v|
    ensures DivideBy(Scale(v, c), c)[i] == v[i]
  {
    MultiplyDivide(v[i], c);
  }

  lemma DivideByAtNonNegative(v: Vec, s: real, i: nat)
    requires i < |v| && ((v[i] >= 0.0 && s > 0.0) || (v[i] <= 0.0 && s < 0.0))
    ensures DivideBy(v, s)[i] >= 0.0
  {
    QuotientNonNegative(v[i], s);
  }
}
