/** The sampled yaws and the scan turned by each of them. */
module Yaws {
  import opened Reals
  import opened Scoring

  /** The cosine and sine of an angle. */
  datatype Rotation = Rotation(c: real, s: real)

  /** pi and the map from an angle to its rotation. */
  datatype Trig = Trig(pi: real, turn: real -> Rotation)

  /** All that is used of cosine and sine: their values at 0 and -pi. */
  ghost predicate TrigOk(t: Trig) {
    t.pi > 0.0 && t.turn(0.0) == Rotation(1.0, 0.0) && t.turn(-t.pi) == Rotation(-1.0, 0.0)
  }

  function Ceil(r: real): int { -((-r).Floor) }

  function YawCount(angularResolution: real, pi: real): (n: nat)
    requires angularResolution > 0.0
    ensures n >= 1
  {
    var n := Ceil(2.0 * pi / angularResolution);
    if n < 1 then 1 else n
  }

  /** _yaw_samples: equally spaced, each moved into [-pi, pi). */
  function YawSamples(angularResolution: real, pi: real): (yaws: seq<real>)
    requires angularResolution > 0.0 && pi > 0.0
    ensures |yaws| >= 1 && forall k :: 0 <= k < |yaws| ==> -pi <= yaws[k] < pi
  {
    var n := YawCount(angularResolution, pi);
    var step := 2.0 * pi / n as real;
    seq(n, k requires 0 <= k < n => YawAt(k, step, pi))
  }

  function YawAt(k: nat, step: real, pi: real): (yaw: real)
    requires pi > 0.0
    ensures -pi <= yaw < pi
  {
    NormalizeMeaning(Times(k as real, step), pi);
    NormalizeAngle(Times(k as real, step), pi)
  }

  /** A full turn of resolution gives the yaw 0 alone, half a turn 0 and -pi. */
  lemma FewSamples(pi: real)
    requires pi > 0.0
    ensures YawSamples(2.0 * pi, pi) == [0.0] && YawSamples(pi, pi) == [0.0, -pi]
  {
    CeilRatio(1, 2.0 * pi);
    CeilRatio(2, pi);
    assert YawCount(2.0 * pi, pi) == 1 && YawCount(pi, pi) == 2;
    NormalizeUnique(0.0, pi, 0.0, 0);
    NormalizeUnique(pi, pi, -pi, 1);
    assert YawAt(0, 2.0 * pi / 1.0, pi) == 0.0 && YawAt(0, pi, pi) == 0.0 && YawAt(1, pi, pi) == -pi;
  }

  lemma CeilRatio(n: int, x: real)
    requires x > 0.0
    ensures Ceil(n as real * x / x) == n
  {
    assert n as real * x / x == n as real;
    assert -(n as real) == (-n) as real;
  }

  /** The yaw is the angle up to whole turns. */
  ghost predicate SameAngle(yaw: real, angle: real, pi: real) {
    exists m: int :: TurnsApart(yaw, angle, m, pi)
  }

  /** The samples are equally spaced over the turn, no farther apart than the resolution, and with one fewer they would
      be. */
  lemma YawSpacing(angularResolution: real, pi: real)
    requires angularResolution > 0.0 && pi > 0.0
    ensures var yaws, n := YawSamples(angularResolution, pi), |YawSamples(angularResolution, pi)|;
            var step := 2.0 * pi / n as real;
            Times(n as real, step) == 2.0 * pi && step <= angularResolution &&
            (n > 1 ==> Times((n - 1) as real, angularResolution) < 2.0 * pi) &&
            forall k :: 0 <= k < n ==> SameAngle(yaws[k], Times(k as real, step), pi)
  {
    SamplesSpaced(angularResolution, pi);
    CountMeaning(angularResolution, pi);
    hide YawSamples, SameAngle, Ceil;
    SpacingBounds(|YawSamples(angularResolution, pi)|, angularResolution, pi);
  }

  lemma SamplesSpaced(angularResolution: real, pi: real)
    requires angularResolution > 0.0 && pi > 0.0
    ensures var yaws := YawSamples(angularResolution, pi);
            forall k :: 0 <= k < |yaws| ==> SameAngle(yaws[k], Times(k as real, 2.0 * pi / |yaws| as real), pi)
  {
    var yaws := YawSamples(angularResolution, pi);
    var step := 2.0 * pi / |yaws| as real;
    forall k | 0 <= k < |yaws| ensures SameAngle(yaws[k], Times(k as real, step), pi) {
      SampleAngle(k, step, pi);
    }
    hide Times, SameAngle, NormalizeAngle;
  }

  lemma SampleAngle(k: nat, step: real, pi: real)
    requires pi > 0.0
    ensures SameAngle(YawAt(k, step, pi), Times(k as real, step), pi)
  {
    hide Times, NormalizeAngle, TurnsApart;
    NormalizeMeaning(Times(k as real, step), pi);
  }

  lemma SpacingBounds(n: nat, angularResolution: real, pi: real)
    requires angularResolution > 0.0 && pi > 0.0 && n >= 1
    requires var c := Ceil(2.0 * pi / angularResolution); n == if c < 1 then 1 else c
    ensures var step := 2.0 * pi / n as real;
            Times(n as real, step) == 2.0 * pi && step <= angularResolution &&
            (n > 1 ==> Times((n - 1) as real, angularResolution) < 2.0 * pi)
  {
    var step, x := 2.0 * pi / n as real, 2.0 * pi / angularResolution;
    Quotient(2.0 * pi, n as real);
    Quotient(2.0 * pi, angularResolution);
    CeilMeaning(x);
    hide Times, Ceil;
    TimesFlip(n as real, step);
    ScaleLeft(angularResolution, x, n as real);
    TimesFlip(angularResolution, x);
    TimesFlip(angularResolution, n as real);
    ByCount(n, step, angularResolution);
    if n > 1 {
      ScaleRight((n - 1) as real, x, angularResolution);
    }
  }

  lemma Quotient(a: real, b: real)
    requires b > 0.0
    ensures Times(a / b, b) == a
  {
  }

  lemma CountMeaning(angularResolution: real, pi: real)
    requires angularResolution > 0.0 && pi > 0.0
    ensures var n, x := |YawSamples(angularResolution, pi)|, 2.0 * pi / angularResolution;
            n >= 1 && n == if Ceil(x) < 1 then 1 else Ceil(x)
  {
    hide Ceil;
  }

  lemma CeilMeaning(x: real)
    ensures x <= Ceil(x) as real < x + 1.0
  {
  }

  lemma ByCount(n: nat, step: real, bound: real)
    requires n >= 1 && Times(n as real, step) <= Times(n as real, bound)
    ensures step <= bound
  {
    if bound < step {
      ScaleRight(bound, step, n as real);
      TimesFlip(bound, n as real);
      TimesFlip(step, n as real);
    }
    hide Times;
  }

  function Turned(p: Pt, r: Rotation): Pt {
    Pt(r.c * p.x - r.s * p.y, r.s * p.x + r.c * p.y)
  }

  function Dot(p: Pt, q: Pt): real { p.x * q.x + p.y * q.y }

  /** Positive when q lies counter-clockwise of p. */
  function CrossOf(p: Pt, q: Pt): real { p.x * q.y - p.y * q.x }

  /** q is p turned counter-clockwise by r: its projection on p and its offset to the left of p are r's cosine and
      sine times the length of p. */
  ghost predicate IsTurned(p: Pt, q: Pt, r: Rotation) {
    Dot(p, q) == r.c * Dot(p, p) && CrossOf(p, q) == r.s * Dot(p, p) && (p == Pt(0.0, 0.0) ==> q == p)
  }

  lemma TurnedIsTurned(p: Pt, r: Rotation)
    ensures IsTurned(p, Turned(p, r), r)
  {
    var q := Turned(p, r);
    assert p.x * q.x == r.c * (p.x * p.x) - r.s * (p.x * p.y);
    assert p.y * q.y == r.s * (p.x * p.y) + r.c * (p.y * p.y);
    assert p.x * q.y == r.s * (p.x * p.x) + r.c * (p.x * p.y);
    assert p.y * q.x == r.c * (p.x * p.y) - r.s * (p.y * p.y);
    assert r.c * Dot(p, p) == r.c * (p.x * p.x) + r.c * (p.y * p.y);
    assert r.s * Dot(p, p) == r.s * (p.x * p.x) + r.s * (p.y * p.y);
  }

  /** Row y of the table is the scan turned counter-clockwise by sample y. */
  ghost predicate IsTurnedScan(pts: seq<Pt>, turned: seq<Pt>, r: Rotation) {
    |turned| == |pts| && forall k :: 0 <= k < |pts| ==> IsTurned(pts[k], turned[k], r)
  }

  lemma RotatedIsTurned(pts: seq<Pt>, r: Rotation)
    ensures IsTurnedScan(pts, RotatedScan(pts, r), r)
  {
    hide IsTurned;
    forall k | 0 <= k < |pts| ensures IsTurned(pts[k], RotatedScan(pts, r)[k], r) {
      TurnedIsTurned(pts[k], r);
    }
  }

  lemma TableIsTurned(pts: seq<Pt>, angularResolution: real, t: Trig, y: nat)
    requires angularResolution > 0.0 && t.pi > 0.0 && y < |YawSamples(angularResolution, t.pi)|
    ensures IsTurnedScan(pts, ScanTable(pts, angularResolution, t)[y], t.turn(YawSamples(angularResolution, t.pi)[y]))
  {
    RotatedIsTurned(pts, t.turn(YawSamples(angularResolution, t.pi)[y]));
    hide IsTurnedScan;
  }

  function RotatedScan(pts: seq<Pt>, r: Rotation): (s: seq<Pt>)
    ensures |s| == |pts|
  {
    seq(|pts|, k requires 0 <= k < |pts| => Turned(pts[k], r))
  }

  /** The scan turned by every sampled yaw. */
  function ScanTable(pts: seq<Pt>, angularResolution: real, t: Trig): (table: seq<seq<Pt>>)
    requires angularResolution > 0.0 && t.pi > 0.0
    ensures |table| == |YawSamples(angularResolution, t.pi)|
    ensures forall k :: 0 <= k < |table| ==> |table[k]| == |pts|
  {
    var yaws := YawSamples(angularResolution, t.pi);
    seq(|yaws|, k requires 0 <= k < |yaws| => RotatedScan(pts, t.turn(yaws[k])))
  }

  function Opposite(p: Pt): Pt { Pt(-p.x, -p.y) }

  lemma TurnedPoint(p: Pt)
    ensures Turned(p, Rotation(1.0, 0.0)) == p && Turned(p, Rotation(-1.0, 0.0)) == Opposite(p)
  {
  }

  lemma OneYawTable(pts: seq<Pt>, t: Trig)
    requires TrigOk(t)
    ensures ScanTable(pts, 2.0 * t.pi, t) == [pts]
  {
    FewSamples(t.pi);
    var table := ScanTable(pts, 2.0 * t.pi, t);
    forall k | 0 <= k < |pts| ensures table[0][k] == pts[k] {
      TurnedPoint(pts[k]);
    }
    assert table[0] == pts;
  }

  /** With two yaws the second row is the scan turned about. */
  lemma TwoYawTable(pts: seq<Pt>, about: seq<Pt>, t: Trig)
    requires TrigOk(t) && |about| == |pts| && forall k :: 0 <= k < |pts| ==> about[k] == Opposite(pts[k])
    ensures ScanTable(pts, t.pi, t) == [pts, about]
  {
    FewSamples(t.pi);
    var table := ScanTable(pts, t.pi, t);
    forall k | 0 <= k < |pts| ensures table[0][k] == pts[k] && table[1][k] == about[k] {
      TurnedPoint(pts[k]);
    }
    assert table[0] == pts && table[1] == about;
  }
}
