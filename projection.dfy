/**
 * The feasibility step every optimizer runs before each loss evaluation and
 * once more on its result: weights.clamp_(min=lo, max=hi) followed by
 * weights.div_(weights.sum()). It rescales onto the hyperplane sum = 1 but
 * does not keep the box [lo, hi].
 */
module Projection {
  import opened Vectors

  /** torch.clamp on one entry: min(max(x, lo), hi), so hi wins when lo > hi. */
  function ClampValue(x: real, lo: real, hi: real): (y: real)
    ensures lo <= hi ==> lo <= y <= hi
    ensures lo <= x <= hi ==> y == x
    ensures lo > hi ==> y == hi
  {
    Min(Max(x, lo), hi)
  }

  function Clamp(v: Vec, lo: real, hi: real): (c: Vec)
    ensures |c| == |v|
    ensures lo <= hi ==> forall i :: 0 <= i < |c| ==> lo <= c[i] <= hi
    ensures forall i :: 0 <= i < |v| && lo <= v[i] <= hi ==> c[i] == v[i]
  {
    seq(|v|, i requires 0 <= i < |v| => ClampValue(v[i], lo, hi))
  }

  /** Clamp, then divide by the clamped sum, which must not be zero (0/0 is NaN). */
  function Projected(v: Vec, lo: real, hi: real): (w: Vec)
    requires Sum(Clamp(v, lo, hi)) != 0.0
    ensures |w| == |v|
    ensures Sum(w) == 1.0
    ensures lo >= 0.0 ==> AllNonNegative(w)
  {
    SumDividedBySelf(Clamp(v, lo, hi));
    RatiosNonNegative(Clamp(v, lo, hi), lo, hi);
    DivideBy(Clamp(v, lo, hi), Sum(Clamp(v, lo, hi)))
  }

  /** Entries of a lower bound lo >= 0 all share one sign, so dividing by their sum keeps them >= 0. */
  lemma RatiosNonNegative(c: Vec, lo: real, hi: real)
    requires forall i :: 0 <= i < |c| ==> c[i] == Min(Max(c[i], lo), hi)
    requires Sum(c) != 0.0
    ensures lo >= 0.0 ==> AllNonNegative(DivideBy(c, Sum(c)))
  {
    if lo >= 0.0 {
      if hi >= 0.0 {
        assert AllNonNegative(c);
        SumNonNegative(c);
      } else {
        assert forall i :: 0 <= i < |c| ==> c[i] <= 0.0;
        SumNonPositive(c);
      }
      forall i | 0 <= i < |c|
        ensures DivideBy(c, Sum(c))[i] >= 0.0
      {
        DivideByAtNonNegative(c, Sum(c), i);
      }
    }
  }

  /** The clamped sum of lo-bounded weights is positive once the bounds admit a positive entry. */
  lemma ClampedSumPositive(v: Vec, lo: real, hi: real)
    requires |v| > 0 && 0.0 < lo <= hi
    ensures Sum(Clamp(v, lo, hi)) > 0.0
  {
    var c := Clamp(v, lo, hi);
    assert AllNonNegative(c);
    SumBoundsTerm(c, 0);
  }

  /** A vector already inside the box and on the simplex is left unchanged. */
  lemma ProjectionFixesFeasible(w: Vec, lo: real, hi: real)
    requires forall i :: 0 <= i < |w| ==> lo <= w[i] <= hi
    requires Sum(w) == 1.0
    ensures Clamp(w, lo, hi) == w
    ensures Projected(w, lo, hi) == w
  {
    assert Clamp(w, lo, hi) == w;
    assert DivideBy(w, 1.0) == w;
  }

  /**
   * The division can leave the box: [0.5, 0.5] clamped to [0, 0.4] is
   * [0.4, 0.4], whose renormalisation is [0.5, 0.5] again, above hi = 0.4.
   */
  lemma ProjectionMayLeaveBounds()
    ensures Sum(Clamp([0.5, 0.5], 0.0, 0.4)) == 0.8
    ensures Projected([0.5, 0.5], 0.0, 0.4) == [0.5, 0.5]
    ensures Projected([0.5, 0.5], 0.0, 0.4)[0] > 0.4
  {
    var c := Clamp([0.5, 0.5], 0.0, 0.4);
    assert c == [0.4, 0.4];
    assert c[..1] == [0.4];
    assert DivideBy(c, 0.8) == [0.5, 0.5];
  }

  /**
   * The in-place form: clamp_ then div_ on a weight array. The array ends
   * up holding the projection of what it held.
   */
  method ProjectInPlace(w: array<real>, lo: real, hi: real)
    requires Sum(Clamp(w[..], lo, hi)) != 0.0
    modifies w
    ensures w[..] == Projected(old(w[..]), lo, hi)
  {
    ClampInPlace(w, lo, hi);
    var s := ArraySum(w);
    DivideInPlace(w, s);
  }

  /** weights.clamp_(min=lo, max=hi) */
  method ClampInPlace(w: array<real>, lo: real, hi: real)
    modifies w
    ensures w[..] == Clamp(old(w[..]), lo, hi)
  {
    ghost var v := w[..];
    var i := 0;
    while i < w.Length
      invariant 0 <= i <= w.Length
      invariant forall k :: 0 <= k < i ==> w[k] == ClampValue(v[k], lo, hi)
      invariant forall k :: i <= k < w.Length ==> w[k] == v[k]
    {
      w[i] := ClampValue(w[i], lo, hi);
      i := i + 1;
    }
    assert w[..] == Clamp(v, lo, hi);
  }

  /** weights.sum(), accumulated left to right. */
  method ArraySum(w: array<real>) returns (s: real)
    ensures s == Sum(w[..])
  {
    s := 0.0;
    var i := 0;
    while i < w.Length
      invariant 0 <= i <= w.Length
      invariant s == Sum(w[..i])
    {
      SumPrefixStep(w[..], i);
      assert w[..][..i] == w[..i] && w[..][..i + 1] == w[..i + 1];
      s := s + w[i];
      i := i + 1;
    }
    assert w[..w.Length] == w[..];
  }

  /** weights.div_(s) */
  method DivideInPlace(w: array<real>, s: real)
    requires s != 0.0
    modifies w
    ensures w[..] == DivideBy(old(w[..]), s)
  {
    ghost var c := w[..];
    var i := 0;
    while i < w.Length
      invariant 0 <= i <= w.Length
      invariant forall k :: 0 <= k < i ==> w[k] == c[k] / s
      invariant forall k :: i <= k < w.Length ==> w[k] == c[k]
    {
      w[i] := w[i] / s;
      i := i + 1;
    }
    assert w[..] == DivideBy(c, s);
  }
}
