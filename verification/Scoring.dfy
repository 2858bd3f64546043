/** Scan matching on grids: the point-by-point score, the merged-offset gather, and upper bounds. */
module Scoring {
  import opened Arith
  import opened Pyramid

  /** A scan point in cell units, already rotated by one sampled yaw. */
  datatype Pt = Pt(x: real, y: real)

  function CellOf(t: int, r: real, factor: int): int
    requires factor > 0
  {
    ((t as real + 0.5 + r) / factor as real).Floor
  }

  function Hit(grid: BoolGrid, p: Pt, tx: int, ty: int, factor: int): nat
    requires factor > 0
  {
    if grid.At(CellOf(ty, p.y, factor), CellOf(tx, p.x, factor)) then 1 else 0
  }

  /** The reference score: how many scan points land on a true cell, one point at a time. */
  function ScoreGrid(grid: BoolGrid, pts: seq<Pt>, tx: int, ty: int, factor: int): (hits: nat)
    requires factor > 0
    ensures hits <= |pts|
  {
    if pts == [] then 0
    else Hit(grid, pts[0], tx, ty, factor) + ScoreGrid(grid, pts[1..], tx, ty, factor)
  }

  /** Standing in the middle of pose cell (ty, tx), p falls on an occupied cell of side factor. */
  ghost predicate Lands(grid: BoolGrid, p: Pt, tx: int, ty: int, factor: int) {
    exists y, x :: grid.At(y, x) && InSpan(tx as real + 0.5 + p.x, x, factor) && InSpan(ty as real + 0.5 + p.y, y, factor)
  }

  /** r lies in span number k of length factor, its low end included. */
  predicate InSpan(r: real, k: int, factor: int) {
    (k * factor) as real <= r < ((k + 1) * factor) as real
  }

  lemma CellIff(t: int, r: real, factor: int, k: int)
    requires factor > 0
    ensures CellOf(t, r, factor) == k <==> InSpan(t as real + 0.5 + r, k, factor)
  {
    var u := t as real + 0.5 + r;
    FloorDiv(u, factor);
    DivIff(u.Floor, factor, k);
  }

  lemma DivIff(n: int, f: int, k: int)
    requires f > 0
    ensures n / f == k <==> k * f <= n < (k + 1) * f
  {
    MulSign(n / f - k, f);
    assert n == f * (n / f) + n % f;
  }

  lemma HitIff(grid: BoolGrid, p: Pt, tx: int, ty: int, factor: int)
    requires factor > 0
    ensures Hit(grid, p, tx, ty, factor) == 1 <==> Lands(grid, p, tx, ty, factor)
  {
    var y, x := CellOf(ty, p.y, factor), CellOf(tx, p.x, factor);
    CellIff(ty, p.y, factor, y);
    CellIff(tx, p.x, factor, x);
    if y', x' :| grid.At(y', x') && InSpan(tx as real + 0.5 + p.x, x', factor) &&
                 InSpan(ty as real + 0.5 + p.y, y', factor) {
      CellIff(ty, p.y, factor, y');
      CellIff(tx, p.x, factor, x');
    }
  }

  /** The scan points that land on occupied cells. */
  ghost function Landed(grid: BoolGrid, pts: seq<Pt>, tx: int, ty: int, factor: int): set<int> {
    set k | 0 <= k < |pts| && Lands(grid, pts[k], tx, ty, factor)
  }

  lemma {:induction false} ScoreLast(grid: BoolGrid, pts: seq<Pt>, p: Pt, tx: int, ty: int, factor: int)
    requires factor > 0
    ensures ScoreGrid(grid, pts + [p], tx, ty, factor) == ScoreGrid(grid, pts, tx, ty, factor) + Hit(grid, p, tx, ty, factor)
  {
    hide Hit;
    if pts == [] {
      assert pts + [p] == [p] && [p][1..] == [];
    } else {
      ScoreLast(grid, pts[1..], p, tx, ty, factor);
      assert (pts + [p])[1..] == pts[1..] + [p];
    }
  }

  /** The score counts them. */
  lemma {:induction false} ScoreMeaning(grid: BoolGrid, pts: seq<Pt>, tx: int, ty: int, factor: int)
    requires factor > 0
    ensures ScoreGrid(grid, pts, tx, ty, factor) == |Landed(grid, pts, tx, ty, factor)|
  {
    hide Lands;
    if pts != [] {
      var n := |pts| - 1;
      var front, p := pts[..n], pts[n];
      assert pts == front + [p];
      ScoreMeaning(grid, front, tx, ty, factor);
      ScoreLast(grid, front, p, tx, ty, factor);
      HitIff(grid, p, tx, ty, factor);
      var landed := Landed(grid, front, tx, ty, factor);
      assert Landed(grid, pts, tx, ty, factor) == if Lands(grid, p, tx, ty, factor) then landed + {n} else landed;
    }
  }

  /** One row of the merged offset table: a coarse cell and how many points fall in it. */
  datatype Entry = Entry(qy: int, qx: int, count: nat)

  function AddCell(es: seq<Entry>, qy: int, qx: int): (r: seq<Entry>)
    ensures |r| > 0
  {
    if es == [] then [Entry(qy, qx, 1)]
    else if es[0].qy == qy && es[0].qx == qx then [es[0].(count := es[0].count + 1)] + es[1..]
    else if qy < es[0].qy || (qy == es[0].qy && qx < es[0].qx) then [Entry(qy, qx, 1)] + es
    else [es[0]] + AddCell(es[1..], qy, qx)
  }

  /** Coarse cells of the scan at the origin, sorted, duplicates merged into counts. */
  function Offsets(pts: seq<Pt>, factor: int): (es: seq<Entry>)
    requires factor > 0
    ensures pts != [] ==> es != []
  {
    if pts == [] then []
    else AddCell(Offsets(pts[1..], factor),
                 ((0.5 + pts[0].y) / factor as real).Floor, ((0.5 + pts[0].x) / factor as real).Floor)
  }

  /** The direct gather at block (ky, kx). */
  function Gather(grid: BoolGrid, es: seq<Entry>, ky: int, kx: int): nat {
    if es == [] then 0
    else (if grid.At(ky + es[0].qy, kx + es[0].qx) then es[0].count else 0) + Gather(grid, es[1..], ky, kx)
  }

  lemma {:induction false} GatherAddCell(grid: BoolGrid, es: seq<Entry>, qy: int, qx: int, ky: int, kx: int)
    ensures Gather(grid, AddCell(es, qy, qx), ky, kx)
         == Gather(grid, es, ky, kx) + if grid.At(ky + qy, kx + qx) then 1 else 0
  {
    if es != [] {
      GatherAddCell(grid, es[1..], qy, qx, ky, kx);
      var r := AddCell(es, qy, qx);
      assert r[1..] == es[1..] || r[1..] == es || r[1..] == AddCell(es[1..], qy, qx);
    }
  }

  lemma CellSplits(k: int, r: real, f: int)
    requires f > 0
    ensures CellOf(k * f, r, f) == k + ((0.5 + r) / f as real).Floor
  {
    var n, kf := (0.5 + r).Floor, k * f;
    assert (kf as real + 0.5 + r).Floor == kf + n;
    FloorDiv(kf as real + 0.5 + r, f);
    FloorDiv(0.5 + r, f);
    DivShift(n, k, f);
  }

  /** Splitting the floor and merging duplicates does not change the score of an aligned node. */
  lemma {:induction false} FastScoringRefines(grid: BoolGrid, pts: seq<Pt>, ky: int, kx: int, f: int)
    requires f > 0
    ensures Gather(grid, Offsets(pts, f), ky, kx) == ScoreGrid(grid, pts, kx * f, ky * f, f)
    decreases |pts|
  {
    if pts != [] {
      FastScoringRefines(grid, pts[1..], ky, kx, f);
      CellSplits(ky, pts[0].y, f);
      CellSplits(kx, pts[0].x, f);
      GatherAddCell(grid, Offsets(pts[1..], f), ((0.5 + pts[0].y) / f as real).Floor,
                    ((0.5 + pts[0].x) / f as real).Floor, ky, kx);
    }
  }

  /** Level l of the upper-bound pyramid: level 0 is exact, the others are dilated. */
  function UpperLevel(occ: BoolGrid, depth: nat, l: nat): BoolGrid
    requires l < |PyramidOf(occ, depth)|
  {
    if l == 0 then occ else Dilate(PyramidOf(occ, depth)[l])
  }

  /** (y, x) is one of the poses below the node at (ty, tx) with step f. */
  predicate Below(f: int, ty: int, tx: int, y: int, x: int)
    requires f > 0
  {
    ty % f == 0 && tx % f == 0 && 0 <= ty <= y < ty + f && 0 <= tx <= x < tx + f
  }

  /** The level's bound is never under the exact score of an in-grid pose below the node. */
  ghost predicate Admissible(occ: BoolGrid, up: BoolGrid, f: int, pts: seq<Pt>)
    requires f > 0
  {
    forall ty, tx, y, x :: Below(f, ty, tx, y, x) && y < occ.h && x < occ.w ==>
      ScoreGrid(up, pts, tx, ty, f) >= ScoreGrid(occ, pts, x, y, 1)
  }

  /** Occupied cells keep clear of the low edges, unless on the last row or column. */
  ghost predicate MarginOk(occ: BoolGrid, f: int) {
    forall y, x :: occ.At(y, x) ==> (y >= f - 1 || y == occ.h - 1) && (x >= f - 1 || x == occ.w - 1)
  }

  lemma MarginMonotone(occ: BoolGrid, depth: nat, l: nat, top: nat)
    requires l <= top && MarginOk(occ, Pow2(top))
    ensures MarginOk(occ, Pow2(l))
  {
    Pow2Monotone(l, top);
  }

  lemma UnitCell(t: int, r: real)
    ensures CellOf(t, r, 1) == t + (0.5 + r).Floor
  {
    FloorDiv(t as real + 0.5 + r, 1);
    assert (t as real + 0.5 + r).Floor == t + (0.5 + r).Floor;
  }

  lemma CoarseCell(t: int, r: real, f: int)
    requires f > 0
    ensures CellOf(t, r, f) == (t + (0.5 + r).Floor) / f
  {
    FloorDiv(t as real + 0.5 + r, f);
    assert (t as real + 0.5 + r).Floor == t + (0.5 + r).Floor;
  }

  /** One axis: where the coarse cell of a node lies relative to the block of a cell hit below it. */
  lemma AxisBound(n: nat, f: int, t: int, v: int, r: real)
    requires f > 0 && 0 <= t <= v < t + f && v < n
    requires var c := CellOf(v, r, 1); 0 <= c < n && (c >= f - 1 || c == n - 1)
    ensures var c, k := CellOf(v, r, 1), CellOf(t, r, f);
            0 <= k < (n + f - 1) / f && c / f - 1 <= k <= c / f
  {
    var c := CellOf(v, r, 1);
    UnitCell(v, r);
    CoarseCell(t, r, f);
    DivStep(c, v - t, f);
    DivBounds(c - (v - t), f, n);
    DivBounds(c, f, n);
  }

  lemma PointBound(occ: BoolGrid, depth: nat, l: nat, p: Pt, ty: int, tx: int, y: int, x: int)
    requires l < |PyramidOf(occ, depth)| && MarginOk(occ, Pow2(l))
    requires Below(Pow2(l), ty, tx, y, x) && y < occ.h && x < occ.w
    ensures Hit(UpperLevel(occ, depth, l), p, tx, ty, Pow2(l)) >= Hit(occ, p, x, y, 1)
  {
    var f, cy, cx := Pow2(l), CellOf(y, p.y, 1), CellOf(x, p.x, 1);
    hide Dilate;
    hide CellOf;
    if occ.At(cy, cx) {
      if l == 0 {
        assert ty == y && tx == x;
      } else {
        AxisBound(occ.h, f, ty, y, p.y);
        AxisBound(occ.w, f, tx, x, p.x);
        UpperNear(occ, depth, l, cy, cx, CellOf(ty, p.y, f), CellOf(tx, p.x, f));
      }
    }
  }

  /** Above level 0, a block is true when it adjoins the block of an occupied cell. */
  lemma UpperNear(occ: BoolGrid, depth: nat, l: nat, y: int, x: int, ky: int, kx: int)
    requires 0 < l < |PyramidOf(occ, depth)| && occ.At(y, x)
    requires 0 <= ky < (occ.h + Pow2(l) - 1) / Pow2(l) && y / Pow2(l) - 1 <= ky <= y / Pow2(l)
    requires 0 <= kx < (occ.w + Pow2(l) - 1) / Pow2(l) && x / Pow2(l) - 1 <= kx <= x / Pow2(l)
    ensures UpperLevel(occ, depth, l).At(ky, kx)
  {
    var g := PyramidOf(occ, depth)[l];
    LevelDims(occ, depth, l);
    LevelMeaning(occ, depth, l);
    assert g.At(y / Pow2(l), x / Pow2(l));
    DilateMeaning(g);
    hide Dilate;
    assert NearOccupied(g, ky, kx);
  }

  lemma {:induction false} ScanBound(occ: BoolGrid, depth: nat, l: nat, pts: seq<Pt>, ty: int, tx: int, y: int, x: int)
    requires l < |PyramidOf(occ, depth)| && MarginOk(occ, Pow2(l))
    requires Below(Pow2(l), ty, tx, y, x) && y < occ.h && x < occ.w
    ensures ScoreGrid(UpperLevel(occ, depth, l), pts, tx, ty, Pow2(l)) >= ScoreGrid(occ, pts, x, y, 1)
    decreases |pts|
  {
    if pts != [] {
      ScanBound(occ, depth, l, pts[1..], ty, tx, y, x);
      PointBound(occ, depth, l, pts[0], ty, tx, y, x);
    }
  }

  /** A one-point scan that the bound misses when the margin is violated at (y, x). */
  lemma MissedPoint(occ: BoolGrid, up: BoolGrid, f: int, y: int, x: int) returns (p: Pt, py: int, px: int)
    requires f > 0 && occ.At(y, x)
    requires (y < f - 1 && y < occ.h - 1) || (x < f - 1 && x < occ.w - 1)
    ensures Below(f, 0, 0, py, px) && py < occ.h && px < occ.w
    ensures CellOf(py, p.y, 1) == y && CellOf(px, p.x, 1) == x
    ensures CellOf(0, p.y, f) < 0 || CellOf(0, p.x, f) < 0
    ensures Hit(occ, p, px, py, 1) == 1 && Hit(up, p, 0, 0, f) == 0
  {
    if x < f - 1 && x < occ.w - 1 {
      p, py, px := Pt(-1.0, y as real), 0, x + 1;
    } else {
      p, py, px := Pt(x as real, -1.0), y + 1, 0;
    }
    UnitCell(py, p.y);
    UnitCell(px, p.x);
    CoarseCell(0, p.y, f);
    CoarseCell(0, p.x, f);
    DivBounds(-1, f, 0);
    assert (0.5 + -1.0).Floor == -1;
    assert (0.5 + y as real).Floor == y && (0.5 + x as real).Floor == x;
  }

  /** The bounds of a level are admissible on every scan exactly when the margin is kept. */
  lemma AdmissibleIff(occ: BoolGrid, depth: nat, l: nat)
    requires l < |PyramidOf(occ, depth)|
    ensures MarginOk(occ, Pow2(l)) <==> forall pts :: Admissible(occ, UpperLevel(occ, depth, l), Pow2(l), pts)
  {
    var f, up := Pow2(l), UpperLevel(occ, depth, l);
    if MarginOk(occ, f) {
      forall pts, ty, tx, y, x | Below(f, ty, tx, y, x) && y < occ.h && x < occ.w
        ensures ScoreGrid(up, pts, tx, ty, f) >= ScoreGrid(occ, pts, x, y, 1)
      {
        ScanBound(occ, depth, l, pts, ty, tx, y, x);
      }
    } else {
      var y, x :| occ.At(y, x) && !((y >= f - 1 || y == occ.h - 1) && (x >= f - 1 || x == occ.w - 1));
      var p, py, px := MissedPoint(occ, up, f, y, x);
      assert ScoreGrid(up, [p], 0, 0, f) == 0 < ScoreGrid(occ, [p], px, py, 1);
      assert !Admissible(occ, up, f, [p]);
    }
  }
}
