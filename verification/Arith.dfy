/** Integer and real division facts the coarse-grid arithmetic rests on. */
module Arith {

  /** 1 << l */
  function Pow2(l: nat): (p: nat)
    ensures p >= 1
  {
    if l == 0 then 1 else 2 * Pow2(l - 1)
  }

  lemma {:induction false} Pow2Monotone(a: nat, b: nat)
    requires a <= b
    ensures Pow2(a) <= Pow2(b)
    decreases b
  {
    if a < b {
      Pow2Monotone(a, b - 1);
    }
  }

  lemma MulSign(d: int, f: int)
    requires f > 0
    ensures d >= 1 ==> d * f >= f
    ensures d <= -1 ==> d * f <= -f
  {
    if d >= 1 {
      assert (d - 1) * f >= 0;
    }
    if d <= -1 {
      assert (-d - 1) * f >= 0;
    }
  }

  lemma DivUnique(a: int, f: int, q: int, r: int)
    requires f > 0 && a == q * f + r && 0 <= r < f
    ensures a / f == q && a % f == r
  {
    var q0, r0 := a / f, a % f;
    assert a == f * q0 + r0;
    assert (q0 - q) * f == r - r0;
    MulSign(q0 - q, f);
  }

  lemma DivShift(a: int, k: int, f: int)
    requires f > 0
    ensures (k * f + a) / f == k + a / f
  {
    var q, r := a / f, a % f;
    assert k * f + a == (k + q) * f + r;
    DivUnique(k * f + a, f, k + q, r);
  }

  lemma DivTwice(a: int, f: int)
    requires f > 0
    ensures (a / f) / 2 == a / (2 * f)
  {
    var q, r := a / f, a % f;
    var h, b := q / 2, q % 2;
    assert a == h * (2 * f) + (b * f + r);
    assert b == 0 || b == 1;
    DivUnique(a, 2 * f, h, b * f + r);
  }

  lemma DivMonotone(a: int, b: int, f: int)
    requires f > 0 && a <= b
    ensures a / f <= b / f
  {
    if b / f < a / f {
      assert (a / f - b / f) * f == a - a % f - b + b % f;
      MulSign(a / f - b / f, f);
    }
  }

  /** A shift by less than one block lowers the block index by at most one. */
  lemma DivStep(a: int, d: int, f: int)
    requires f > 0 && 0 <= d < f
    ensures a / f - 1 <= (a - d) / f <= a / f
  {
    DivMonotone(a - d, a, f);
    DivMonotone(a - f, a - d, f);
    DivShift(a, -1, f);
  }

  lemma DivBounds(a: int, f: int, n: int)
    requires f > 0
    ensures a >= 0 <==> a / f >= 0
    ensures 0 <= a < n ==> a / f < (n + f - 1) / f
  {
    if a >= 0 {
      DivMonotone(0, a, f);
      DivUnique(0, f, 0, 0);
    } else {
      DivMonotone(a, -1, f);
      DivUnique(-1, f, -1, f - 1);
    }
    if 0 <= a < n {
      DivMonotone(a + f, n + f - 1, f);
      DivShift(a, 1, f);
    }
  }

  /** floor(r / f) == floor(floor(r) / f): why integer offsets are enough. */
  lemma FloorDiv(r: real, f: int)
    requires f > 0
    ensures (r / f as real).Floor == r.Floor / f
  {
    var q := r.Floor / f;
    assert q * f <= r.Floor < q * f + f by {
      assert r.Floor == f * q + r.Floor % f;
    }
    var x, qf, fr := r / f as real, q * f, f as real;
    assert x * fr == r;
    assert qf as real == q as real * fr;
    assert (qf + f) as real == qf as real + fr;
    var d := x - q as real;
    assert d * fr == r - qf as real;
    assert r < (r.Floor + 1) as real <= (qf + f) as real;
    RealUnit(d, fr, r - qf as real);
  }

  lemma RealUnit(d: real, f: real, p: real)
    requires f > 0.0 && p == d * f && 0.0 <= p < f
    ensures 0.0 <= d < 1.0
  {
    var e := d - 1.0;
    assert e * f == p - f;
  }
}
