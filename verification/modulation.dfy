/** The modulation functions of the three synapse models. Each connection
    class overrides one virtual `compute_modulation`; here the closed set of
    overrides is one tagged datatype with a single evaluation function. */
module Modulation {

  /** Default value of `alpha` given by the D1 and D2 constructors. */
  const DefaultAlpha: real := 1.0

  /** Base: the modulatory synapse, which returns the ratio unchanged.
      D1: the increasing variant with gain `alpha`.
      D2: the decreasing variant with gain `alpha`. */
  datatype ModulationFunction = Base | D1(alpha: real) | D2(alpha: real)
  {
    /** True for the two variants that carry an `alpha` parameter. */
    predicate HasAlpha() {
      D1? || D2?
    }
  }

  /** The multiplier the connection applies to its initial weight for a
      modulation ratio `m`. */
  function Eval(f: ModulationFunction, m: real): real {
    match f
    case Base => m
    case D1(alpha) => 1.0 + alpha * m
    case D2(alpha) => 1.0 - alpha * m
  }

  /** With equal gains the increasing and decreasing variants are mirror
      images about 1. */
  lemma IncreasePlusDecrease(alpha: real, m: real)
    ensures Eval(D1(alpha), m) + Eval(D2(alpha), m) == 2.0
  {
  }

  /** A zero ratio is neutral for both gain variants, whatever their gain,
      and maps to zero for the base variant. */
  lemma ZeroRatio(f: ModulationFunction)
    ensures f.HasAlpha() ==> Eval(f, 0.0) == 1.0
    ensures f.Base? ==> Eval(f, 0.0) == 0.0
  {
  }

  /** With a non-negative gain, D1 never decreases and D2 never increases
      as the ratio grows. */
  lemma Monotone(alpha: real, m1: real, m2: real)
    requires alpha >= 0.0
    requires m1 <= m2
    ensures Eval(D1(alpha), m1) <= Eval(D1(alpha), m2)
    ensures Eval(D2(alpha), m1) >= Eval(D2(alpha), m2)
  {
  }

  /** Scaling by a non-negative weight keeps that monotonicity. */
  lemma ScaledMonotone(w: real, f: ModulationFunction, m1: real, m2: real)
    requires w >= 0.0 && f.HasAlpha() && f.alpha >= 0.0 && m1 <= m2
    ensures f.D1? ==> w * Eval(f, m1) <= w * Eval(f, m2)
    ensures f.D2? ==> w * Eval(f, m1) >= w * Eval(f, m2)
  {
    var lo, hi := Eval(f, m1), Eval(f, m2);
    match f
    case D1(alpha) =>
      Monotone(alpha, m1, m2);
      assert w * hi - w * lo == w * (hi - lo);
    case D2(alpha) =>
      Monotone(alpha, m1, m2);
      assert w * lo - w * hi == w * (lo - hi);
  }

  /** No clamping: D2's multiplier is negative exactly when `alpha * m`
      exceeds 1, and D1's exceeds 2 exactly when `alpha * m` exceeds 1. */
  lemma Unclamped(alpha: real, m: real)
    ensures Eval(D2(alpha), m) < 0.0 <==> alpha * m > 1.0
    ensures Eval(D1(alpha), m) > 2.0 <==> alpha * m > 1.0
  {
    var p := alpha * m;
    assert Eval(D2(alpha), m) == 1.0 - p;
    assert Eval(D1(alpha), m) == 1.0 + p;
  }

  /** The same affinity after scaling by a weight `w`. */
  lemma ScaledAffine(w: real, f: ModulationFunction, m1: real, m2: real)
    ensures f.HasAlpha() ==> w * Eval(f, m1 + m2) == w * Eval(f, m1) + w * Eval(f, m2) - w
    ensures f.Base? ==> w * Eval(f, m1 + m2) == w * Eval(f, m1) + w * Eval(f, m2)
  {
    var e1, e2, e12 := Eval(f, m1), Eval(f, m2), Eval(f, m1 + m2);
    Affine(f, m1, m2);
    if f.HasAlpha() {
      assert w * e12 == w * (e1 + e2 - 1.0);
    } else {
      assert w * e12 == w * (e1 + e2);
    }
  }

  /** Both gain variants are affine in the ratio: the multiplier of a sum
      of ratios is the sum of the multipliers minus the neutral value 1,
      and the base variant is additive. */
  lemma Affine(f: ModulationFunction, m1: real, m2: real)
    ensures f.HasAlpha() ==> Eval(f, m1 + m2) == Eval(f, m1) + Eval(f, m2) - 1.0
    ensures f.Base? ==> Eval(f, m1 + m2) == Eval(f, m1) + Eval(f, m2)
  {
  }
}
