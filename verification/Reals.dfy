/** Real arithmetic shared by the models. */
module Reals {
  import opened Arith

  function Abs(a: real): real { if a < 0.0 then -a else a }

  function Max(a: real, b: real): real { if a >= b then a else b }

  function Min(a: real, b: real): real { if a <= b then a else b }

  /** a * b, under a name a proof can keep folded. */
  function Times(a: real, b: real): real { a * b }

  lemma TimesFlip(a: real, b: real)
    ensures Times(a, b) == Times(b, a)
  {
  }

  lemma ScaleLeft(k: real, x: real, y: real)
    requires k >= 0.0 && x <= y
    ensures Times(k, x) <= Times(k, y)
  {
    assert k * (y - x) >= 0.0;
  }

  lemma ScaleRight(x: real, y: real, k: real)
    requires k > 0.0 && x < y
    ensures Times(x, k) < Times(y, k)
  {
    assert (y - x) * k > 0.0;
  }

  /** Python's modulo on reals, for a positive modulus. */
  function Mod(a: real, m: real): real
    requires m > 0.0
  {
    a - (a / m).Floor as real * m
  }

  lemma ModRange(a: real, m: real)
    requires m > 0.0
    ensures 0.0 <= Mod(a, m) < m
  {
    var t := a / m;
    var f := t - t.Floor as real;
    assert f * m == Mod(a, m) by {
      assert t * m == a;
    }
    assert 0.0 <= f < 1.0;
    assert f * m >= 0.0;
    assert (1.0 - f) * m > 0.0;
  }

  /** a and b differ by n whole turns. */
  predicate TurnsApart(a: real, b: real, n: int, pi: real) {
    a == b + n as real * (2.0 * pi)
  }

  /** The angle moved into [-pi, pi) by whole turns; pi is any positive constant. */
  function NormalizeAngle(a: real, pi: real): real
    requires pi > 0.0
  {
    Mod(a + pi, 2.0 * pi) - pi
  }

  lemma NormalizeMeaning(a: real, pi: real)
    requires pi > 0.0
    ensures -pi <= NormalizeAngle(a, pi) < pi
    ensures exists n: int :: TurnsApart(NormalizeAngle(a, pi), a, n, pi)
  {
    ModRange(a + pi, 2.0 * pi);
    var n := -((a + pi) / (2.0 * pi)).Floor;
    assert TurnsApart(NormalizeAngle(a, pi), a, n, pi);
  }

  /** A remainder in range, whole turns away, is the modulo. */
  lemma ModUnique(a: real, m: real, r: real, n: int)
    requires m > 0.0 && 0.0 <= r < m && a == r + Times(n as real, m)
    ensures Mod(a, m) == r
  {
    var t, nr := a / m, n as real;
    assert Times(t, m) == a;
    var d := t - nr;
    assert Times(d, m) == Times(t, m) - Times(nr, m);
    RealUnit(d, m, r);
    assert t.Floor == n;
  }

  /** Moving x into range gives v when v is in range and whole turns away. */
  lemma NormalizeUnique(x: real, pi: real, v: real, n: int)
    requires pi > 0.0 && -pi <= v < pi && TurnsApart(x, v, n, pi)
    ensures NormalizeAngle(x, pi) == v
  {
    ModUnique(x + pi, 2.0 * pi, v + pi, n);
  }
}
