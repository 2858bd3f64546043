/** The scalar Kalman filter behind the published pose, and the yaw it is fed. */
module Kalman {
  import opened Options
  import opened Reals

  datatype Kf = Kf(x: real, p: real, q: real, r: real)

  ghost predicate NoiseOk(k: Kf) {
    k.q > 0.0 && k.r > 0.0 && k.p > 0.0
  }

  /** The gain's denominator vanishes: the division the source would raise on. */
  predicate Singular(k: Kf) {
    k.p + k.q + k.r == 0.0
  }

  function Gain(k: Kf): real
    requires !Singular(k)
  {
    (k.p + k.q) / (k.p + k.q + k.r)
  }

  function Reset(k: Kf, x0: real): Kf {
    k.(x := x0, p := 1.0)
  }

  function Step(k: Kf, z: real): Kf
    requires !Singular(k)
  {
    var g := Gain(k);
    k.(x := k.x + Times(g, z - k.x), p := Times(1.0 - g, k.p + k.q))
  }

  class KalmanScalar {
    var x: real
    var P: real
    const Q: real
    const R: real

    function View(): Kf
      reads this
    {
      Kf(x, P, Q, R)
    }

    constructor (processVar: real, measVar: real, x0: real)
      ensures View() == Reset(Kf(x0, 1.0, processVar, measVar), x0)
    {
      x, P, Q, R := x0, 1.0, processVar, measVar;
    }

    method ResetTo(x0: real)
      modifies this
      ensures View() == Reset(old(View()), x0)
    {
      x := x0;
      P := 1.0;
    }

    /** None stands for the ZeroDivisionError, raised after the variance has grown. */
    method Observe(z: real) returns (estimate: Option<real>)
      modifies this
      ensures Singular(old(View())) ==> estimate.None? && View() == old(View()).(p := old(P) + Q)
      ensures !Singular(old(View())) ==> estimate == Some(x) && View() == Step(old(View()), z)
    {
      P := P + Q;
      if P + R == 0.0 {
        return None;
      }
      var K := P / (P + R);
      x := x + K * (z - x);
      P := (1.0 - K) * P;
      estimate := Some(x);
    }
  }

  // ----- one step -----

  lemma TimesPositive(a: real, b: real)
    ensures a > 0.0 && b > 0.0 ==> Times(a, b) > 0.0
    ensures a >= 0.0 && b >= 0.0 ==> Times(a, b) >= 0.0
  {
  }

  lemma TimesLeft(k: real, a: real, b: real)
    ensures Times(k, a - b) == Times(k, a) - Times(k, b)
  {
  }

  /** k is the fraction p / (p + r). */
  lemma Fraction(p: real, r: real, k: real)
    requires p > 0.0 && r > 0.0 && k == p / (p + r)
    ensures 0.0 < k < 1.0 && Times(1.0 - k, p) == Times(k, r) && Times(k, p + r) == p
  {
    assert k * (p + r) == p;
    FractionSign(p, r, k);
    assert k * (p + r) == k * p + k * r;
    assert (1.0 - k) * p == p - k * p;
  }

  lemma FractionSign(p: real, r: real, k: real)
    requires p > 0.0 && r > 0.0 && k * (p + r) == p
    ensures 0.0 < k < 1.0
  {
    SignOfProduct(k, p + r);
  }

  lemma SignOfProduct(k: real, s: real)
    requires s > 0.0
    ensures k <= 0.0 ==> k * s <= 0.0
    ensures k >= 1.0 ==> k * s >= s
  {
    if k >= 1.0 {
      assert (k - 1.0) * s >= 0.0;
    }
  }

  /** After a step the variance lies strictly between zero and the measurement variance, and the gain in (0, 1). */
  lemma StepVariance(k: Kf, z: real)
    requires NoiseOk(k)
    ensures 0.0 < Gain(k) < 1.0 && 0.0 < Step(k, z).p < k.r && NoiseOk(Step(k, z))
    ensures Step(k, z).p == Times(Gain(k), k.r)
  {
    var g := Gain(k);
    Fraction(k.p + k.q, k.r, g);
    hide Times;
    TimesPositive(g, k.r);
    TimesPositive(1.0 - g, k.r);
    TimesLeft(k.r, 1.0, g);
    TimesFlip(k.r, 1.0 - g);
    TimesFlip(k.r, g);
    UnfoldTimes(k.r, 1.0);
  }

  lemma UnfoldTimes(a: real, b: real)
    ensures Times(a, b) == a * b
  {
  }

  /** The new estimate is the mean of the old one and the measurement, weighted by the other's variance, and the new
      variance is their product over their sum; the old variance counts with the process noise added. */
  lemma StepIsWeightedMean(k: Kf, z: real)
    requires NoiseOk(k)
    ensures var k', w := Step(k, z), k.p + k.q;
            Times(k'.x, w + k.r) == Times(k.x, k.r) + Times(z, w) && Times(k'.p, w + k.r) == Times(w, k.r) &&
            k'.q == k.q && k'.r == k.r
  {
    var w, g := k.p + k.q, Gain(k);
    Fraction(w, k.r, g);
    WeighedMean(k.x, z, g, w, k.r);
    WeighedVariance(g, w, k.r);
    StepVariance(k, z);
    hide Times;
  }

  lemma WeighedMean(x: real, z: real, g: real, w: real, r: real)
    requires Times(g, w + r) == w
    ensures Times(x + Times(g, z - x), w + r) == Times(x, r) + Times(z, w)
  {
    var s := w + r;
    assert Times(g, z - x) * s == (z - x) * Times(g, s);
    assert (x + Times(g, z - x)) * s == x * s + Times(g, z - x) * s;
    assert (z - x) * w == z * w - x * w;
    assert x * s == x * w + x * r;
  }

  lemma WeighedVariance(g: real, w: real, r: real)
    requires Times(g, w + r) == w
    ensures Times(Times(g, r), w + r) == Times(w, r)
  {
    assert (g * r) * (w + r) == r * (g * (w + r));
  }

  /** The estimate stays between the old estimate and the measurement. */
  lemma StepHull(k: Kf, z: real, low: real, high: real)
    requires NoiseOk(k) && low <= k.x <= high && low <= z <= high
    ensures low <= Step(k, z).x <= high
  {
    StepVariance(k, z);
    var g := Gain(k);
    Convex(g, k.x, z, low, high);
  }

  lemma Convex(g: real, x: real, z: real, low: real, high: real)
    requires 0.0 < g < 1.0 && low <= x <= high && low <= z <= high
    ensures low <= x + Times(g, z - x) <= high
  {
    Portion(g, z - x);
    Portion(g, x - z);
    TimesLeft(g, z, x);
    TimesLeft(g, x, z);
    hide Times;
  }

  lemma Portion(g: real, d: real)
    requires 0.0 < g < 1.0
    ensures d >= 0.0 ==> 0.0 <= Times(g, d) <= d
  {
    if d >= 0.0 {
      assert (1.0 - g) * d >= 0.0;
    }
  }

  // ----- runs of measurements -----

  function Filter(k: Kf, zs: seq<real>): Kf
    requires NoiseOk(k)
    ensures NoiseOk(Filter(k, zs)) && Filter(k, zs).q == k.q && Filter(k, zs).r == k.r
  {
    if zs == [] then k
    else
      var before := Filter(k, zs[..|zs| - 1]);
      StepVariance(before, zs[|zs| - 1]);
      Step(before, zs[|zs| - 1])
  }

  lemma {:induction false} FilterHull(k: Kf, zs: seq<real>, low: real, high: real)
    requires NoiseOk(k) && low <= k.x <= high && forall i :: 0 <= i < |zs| ==> low <= zs[i] <= high
    ensures low <= Filter(k, zs).x <= high
  {
    if zs != [] {
      var front := zs[..|zs| - 1];
      FilterHull(k, front, low, high);
      StepHull(Filter(k, front), zs[|zs| - 1], low, high);
    }
  }

  /** A larger prior variance gives a larger posterior variance. */
  lemma VarianceMonotone(a: Kf, b: Kf, y: real, z: real)
    requires NoiseOk(a) && NoiseOk(b) && a.q == b.q && a.r == b.r && a.p <= b.p
    ensures Step(a, y).p <= Step(b, z).p
  {
    var r, g, h := a.r, Gain(a), Gain(b);
    StepVariance(a, y);
    StepVariance(b, z);
    FractionMonotone(a.p + a.q, b.p + b.q, r, g, h);
    TimesPositive(h - g, r);
    TimesLeft(r, h, g);
    TimesFlip(r, h - g);
    TimesFlip(r, h);
    TimesFlip(r, g);
    hide Times;
  }

  lemma FractionMonotone(p: real, s: real, r: real, g: real, h: real)
    requires 0.0 < p <= s && r > 0.0 && g == p / (p + r) && h == s / (s + r)
    ensures g <= h
  {
    Fraction(p, r, g);
    Fraction(s, r, h);
    // (1 - g) * p == g * r and (1 - h) * s == h * r; were h < g, the left sides would be ordered the other way
    if h < g {
      Strict(1.0 - g, 1.0 - h, p, s);
      ScaleRight(h, g, r);
    }
  }

  lemma Strict(a: real, b: real, p: real, s: real)
    requires 0.0 < a < b && 0.0 < p <= s
    ensures Times(a, p) < Times(b, s)
  {
    ScaleRight(a, b, p);
    ScaleLeft(b, p, s);
    hide Times;
  }

  /** One step does not raise the variance exactly when r q <= p (p + q). */
  lemma StepShrinksIff(k: Kf, z: real)
    requires NoiseOk(k)
    ensures Step(k, z).p <= k.p <==> Times(k.r, k.q) <= Times(k.p, k.p + k.q)
  {
    var p1, g, r := k.p + k.q, Gain(k), k.r;
    var s := p1 + r;
    StepVariance(k, z);
    Fraction(p1, r, g);
    // g s == p1, so r g s == r p1
    Regroup(r, g, s, p1);
    Expand(k.p, k.q, r);
    ScaleIff(Times(g, r), k.p, s);
    hide Times;
  }

  lemma Regroup(r: real, g: real, s: real, p1: real)
    requires Times(g, s) == p1
    ensures Times(Times(g, r), s) == Times(r, p1)
  {
    assert (g * r) * s == r * (g * s);
  }

  lemma Expand(p: real, q: real, r: real)
    ensures Times(r, p + q) == Times(r, p) + Times(r, q)
    ensures Times(p, p + q + r) == Times(p, p + q) + Times(r, p)
  {
  }

  lemma ScaleIff(a: real, b: real, s: real)
    requires s > 0.0
    ensures a <= b <==> Times(a, s) <= Times(b, s)
  {
    if a < b {
      ScaleRight(a, b, s);
    } else if b < a {
      ScaleRight(b, a, s);
    }
  }

  /** From a reset the variance never rises, over any measurements, exactly when r q <= 1 + q. */
  lemma {:induction false} ResetShrinks(k: Kf, zs: seq<real>, z: real)
    requires NoiseOk(k) && k.p == 1.0 && Times(k.r, k.q) <= 1.0 + k.q
    ensures Step(Filter(k, zs), z).p <= Filter(k, zs).p
  {
    if zs == [] {
      StepShrinksIff(k, z);
      UnfoldTimes(1.0, 1.0 + k.q);
    } else {
      var front, y := zs[..|zs| - 1], zs[|zs| - 1];
      ResetShrinks(k, front, y);
      VarianceMonotone(Filter(k, zs), Filter(k, front), z, y);
    }
  }

  lemma NonIncreasingIff(k: Kf)
    requires NoiseOk(k) && k.p == 1.0
    ensures Times(k.r, k.q) <= 1.0 + k.q <==> forall zs, z :: Step(Filter(k, zs), z).p <= Filter(k, zs).p
  {
    if Times(k.r, k.q) <= 1.0 + k.q {
      forall zs, z ensures Step(Filter(k, zs), z).p <= Filter(k, zs).p {
        ResetShrinks(k, zs, z);
      }
    } else {
      StepShrinksIff(k, 0.0);
      UnfoldTimes(1.0, 1.0 + k.q);
      assert Filter(k, []) == k;
    }
  }

  // ----- yaw -----

  /** The yaw measurement moved next to the filter's angle; pi is any positive constant. */
  function WrapNear(measured: real, state: real, pi: real): real
    requires pi > 0.0
  {
    state + NormalizeAngle(measured - state, pi)
  }

  /** The yaw fed in is the measured yaw up to whole turns, and at most half a turn from the state. */
  lemma WrapNearMeaning(measured: real, state: real, pi: real)
    requires pi > 0.0
    ensures -pi <= WrapNear(measured, state, pi) - state < pi
    ensures exists n: int :: TurnsApart(WrapNear(measured, state, pi), measured, n, pi)
  {
    NormalizeMeaning(measured - state, pi);
    var n: int :| TurnsApart(NormalizeAngle(measured - state, pi), measured - state, n, pi);
    assert TurnsApart(WrapNear(measured, state, pi), measured, n, pi);
  }
}
