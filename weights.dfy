/** Weight vectors of a morphable-model blend, as sequences of reals (the
    source's `double[]` contents), and the algebra the parameter object relies
    on: sums, convexity, per-entry interpolation and division by a total. */
module Weights {

  /** The sum of a weight vector, accumulated from index 0 upwards. */
  function Sum(s: seq<real>): real
    decreases |s|
  {
    if |s| == 0 then 0.0 else Sum(s[..|s| - 1]) + s[|s| - 1]
  }

  predicate NonNegative(s: seq<real>)
  {
    forall i :: 0 <= i < |s| ==> 0.0 <= s[i]
  }

  /** A convex weight vector: non-negative entries that sum to one. */
  predicate IsConvex(s: seq<real>)
  {
    NonNegative(s) && Sum(s) == 1.0
  }

  /** The identity blend: all weight on model 0. */
  function Identity(n: nat): seq<real>
  {
    seq(n, i => if i == 0 then 1.0 else 0.0)
  }

  /** One entry of `(1 - alpha) * u + alpha * v`. */
  function Lerp(a: real, b: real, alpha: real): real
  {
    (1.0 - alpha) * a + alpha * b
  }

  /** `(1 - alpha) * u + alpha * v`, entry by entry. */
  function Interpolate(u: seq<real>, v: seq<real>, alpha: real): (r: seq<real>)
    requires |u| == |v|
    ensures |r| == |u|
  {
    seq(|u|, i requires 0 <= i < |u| => Lerp(u[i], v[i], alpha))
  }

  /** Every entry of `s` divided by `d`. */
  function DividedBy(s: seq<real>, d: real): (r: seq<real>)
    requires d != 0.0
    ensures |r| == |s|
  {
    seq(|s|, i requires 0 <= i < |s| => s[i] / d)
  }

  /** `s` divided by its own total. */
  function Normalized(s: seq<real>): (r: seq<real>)
    requires Sum(s) != 0.0
    ensures |r| == |s|
  {
    DividedBy(s, Sum(s))
  }

  // ---------------------------------------------------------------------
  // Sums

  /** Extending a prefix by one entry adds that entry to the sum. */
  lemma SumPrefixStep(s: seq<real>, k: nat)
    requires k < |s|
    ensures Sum(s[..k + 1]) == Sum(s[..k]) + s[k]
  {
    assert s[..k + 1][..k] == s[..k];
  }

  /** The sum of a non-negative vector is non-negative and bounds each entry. */
  lemma {:induction false} SumDominatesEntries(s: seq<real>)
    requires NonNegative(s)
    ensures 0.0 <= Sum(s)
    ensures forall i :: 0 <= i < |s| ==> s[i] <= Sum(s)
  {
    if |s| > 0 {
      var n := |s| - 1;
      SumDominatesEntries(s[..n]);
      assert forall i :: 0 <= i < n ==> s[i] == s[..n][i];
    }
  }

  /** A non-negative vector with some positive entry has a positive sum. */
  lemma SumPositive(s: seq<real>, k: nat)
    requires NonNegative(s)
    requires k < |s| && 0.0 < s[k]
    ensures 0.0 < Sum(s)
  {
    SumDominatesEntries(s);
  }

  /** Every entry of a convex vector lies in [0, 1]. */
  lemma ConvexEntriesAtMostOne(s: seq<real>)
    requires IsConvex(s)
    ensures forall i :: 0 <= i < |s| ==> 0.0 <= s[i] <= 1.0
  {
    SumDominatesEntries(s);
  }

  // ---------------------------------------------------------------------
  // Identity

  /** The identity blend has weight 1 on model 0, 0 elsewhere, and is convex. */
  lemma {:induction false} IdentityIsConvex(n: nat)
    requires n >= 1
    ensures |Identity(n)| == n && Identity(n)[0] == 1.0
    ensures forall i :: 1 <= i < n ==> Identity(n)[i] == 0.0
    ensures IsConvex(Identity(n))
  {
    if n > 1 {
      IdentityIsConvex(n - 1);
      assert Identity(n)[..n - 1] == Identity(n - 1);
    } else {
      assert Identity(n)[..0] == [];
    }
  }

  // ---------------------------------------------------------------------
  // Interpolation

  /** Summing commutes with interpolation: the sum of the blend is the blend of the sums. */
  lemma {:induction false} SumInterpolate(u: seq<real>, v: seq<real>, alpha: real)
    requires |u| == |v|
    ensures Sum(Interpolate(u, v, alpha)) == (1.0 - alpha) * Sum(u) + alpha * Sum(v)
  {
    if |u| > 0 {
      var n := |u| - 1;
      SumInterpolate(u[..n], v[..n], alpha);
      assert Interpolate(u, v, alpha)[..n] == Interpolate(u[..n], v[..n], alpha);
    }
  }

  /** Interpolating two unit-sum vectors gives a unit-sum vector, for any alpha
      (extrapolation included). */
  lemma InterpolateKeepsUnitSum(u: seq<real>, v: seq<real>, alpha: real)
    requires |u| == |v|
    requires Sum(u) == 1.0 && Sum(v) == 1.0
    ensures Sum(Interpolate(u, v, alpha)) == 1.0
  {
    SumInterpolate(u, v, alpha);
  }

  lemma ProductNonNegative(x: real, y: real)
    requires 0.0 <= x && 0.0 <= y
    ensures 0.0 <= x * y
  {
  }

  /** For alpha in [0, 1] each entry of the blend lies between the two operands' entries. */
  lemma LerpBetween(a: real, b: real, alpha: real)
    requires 0.0 <= alpha <= 1.0
    ensures a <= b ==> a <= Lerp(a, b, alpha) <= b
    ensures b <= a ==> b <= Lerp(a, b, alpha) <= a
  {
    var lo, hi := if a <= b then a else b, if a <= b then b else a;
    ProductNonNegative(alpha, hi - lo);
    ProductNonNegative(1.0 - alpha, hi - lo);
    if a <= b {
      assert Lerp(a, b, alpha) - a == alpha * (b - a);
      assert b - Lerp(a, b, alpha) == (1.0 - alpha) * (b - a);
    } else {
      assert Lerp(a, b, alpha) - b == (1.0 - alpha) * (a - b);
      assert a - Lerp(a, b, alpha) == alpha * (a - b);
    }
  }

  /** A convex combination of two convex vectors is convex. */
  lemma InterpolateKeepsConvex(u: seq<real>, v: seq<real>, alpha: real)
    requires |u| == |v|
    requires IsConvex(u) && IsConvex(v)
    requires 0.0 <= alpha <= 1.0
    ensures IsConvex(Interpolate(u, v, alpha))
  {
    var r := Interpolate(u, v, alpha);
    forall i | 0 <= i < |r|
      ensures 0.0 <= r[i]
    {
      LerpBetween(u[i], v[i], alpha);
    }
    SumInterpolate(u, v, alpha);
  }

  /** alpha = 0 reproduces the first operand, alpha = 1 the second. */
  lemma InterpolateEndpoints(u: seq<real>, v: seq<real>)
    requires |u| == |v|
    ensures Interpolate(u, v, 0.0) == u
    ensures Interpolate(u, v, 1.0) == v
  {
    assert forall i :: 0 <= i < |u| ==> Interpolate(u, v, 0.0)[i] == u[i];
    assert forall i :: 0 <= i < |u| ==> Interpolate(u, v, 1.0)[i] == v[i];
  }

  // ---------------------------------------------------------------------
  // Normalisation

  /** Dividing every entry by `d` divides the sum by `d`. */
  lemma {:induction false} SumDividedBy(s: seq<real>, d: real)
    requires d != 0.0
    ensures Sum(DividedBy(s, d)) == Sum(s) / d
  {
    if |s| > 0 {
      var n := |s| - 1;
      SumDividedBy(s[..n], d);
      assert DividedBy(s, d)[..n] == DividedBy(s[..n], d);
      calc {
        Sum(DividedBy(s, d));
        Sum(DividedBy(s[..n], d)) + s[n] / d;
        Sum(s[..n]) / d + s[n] / d;
        (Sum(s[..n]) + s[n]) / d;
      }
    }
  }

  /** A vector divided by its own non-zero total sums to one. */
  lemma NormalizedSumsToOne(s: seq<real>)
    requires Sum(s) != 0.0
    ensures Sum(Normalized(s)) == 1.0
  {
    var total := Sum(s);
    SumDividedBy(s, total);
    assert total / total == 1.0;
  }

  /** Normalising a non-negative vector with a positive total gives a convex vector. */
  lemma NormalizedIsConvex(s: seq<real>)
    requires NonNegative(s) && 0.0 < Sum(s)
    ensures IsConvex(Normalized(s))
  {
    NormalizedSumsToOne(s);
    var r := Normalized(s);
    forall i | 0 <= i < |r|
      ensures 0.0 <= r[i]
    {
      assert r[i] == s[i] / Sum(s);
    }
  }
}
