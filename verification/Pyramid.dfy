/** Occupancy grids, their max-pooled pyramid and the dilated upper-bound pyramid. */
module Pyramid {
  import opened Arith

  /** A 2D boolean array of shape (h, w); rows are kept row-major. */
  datatype Grid = Grid(h: nat, w: nat, rows: seq<seq<bool>>) {
    ghost predicate Valid() {
      |rows| == h && forall y :: 0 <= y < h ==> |rows[y]| == w
    }

    /** The cell value, reading false outside the array. */
    predicate At(y: int, x: int) {
      0 <= y < |rows| && 0 <= x < |rows[y]| && rows[y][x]
    }
  }

  type BoolGrid = g: Grid | g.Valid() witness Grid(0, 0, [])

  function Tabulate(h: nat, w: nat, f: (int, int) -> bool): (g: BoolGrid)
    ensures g.h == h && g.w == w
    ensures forall y, x :: g.At(y, x) <==> 0 <= y < h && 0 <= x < w && f(y, x)
  {
    Grid(h, w, seq(h, y => seq(w, x => f(y, x))))
  }

  lemma GridsEqual(a: BoolGrid, b: BoolGrid)
    requires a.h == b.h && a.w == b.w
    requires forall y, x :: a.At(y, x) == b.At(y, x)
    ensures a == b
  {
    forall y | 0 <= y < a.h ensures a.rows[y] == b.rows[y] {
      forall x | 0 <= x < a.w ensures a.rows[y][x] == b.rows[y][x] {
        assert a.At(y, x) == b.At(y, x);
      }
    }
  }

  /** Pad to even size, then take the maximum over 2x2 tiles. */
  function MaxPool(g: BoolGrid): (r: BoolGrid)
    ensures r.h == (g.h + 1) / 2 && r.w == (g.w + 1) / 2
  {
    Tabulate((g.h + 1) / 2, (g.w + 1) / 2, (y, x) =>
      g.At(2 * y, 2 * x) || g.At(2 * y, 2 * x + 1) || g.At(2 * y + 1, 2 * x) || g.At(2 * y + 1, 2 * x + 1))
  }

  /** Whether an occupied cell lies in the 3x3 neighbourhood. */
  ghost predicate NearOccupied(g: BoolGrid, y: int, x: int) {
    exists y', x' :: g.At(y', x') && y - 1 <= y' <= y + 1 && x - 1 <= x' <= x + 1
  }

  ghost predicate IsDilation(g: BoolGrid, d: BoolGrid) {
    d.h == g.h && d.w == g.w &&
    forall y, x :: d.At(y, x) <==> 0 <= y < g.h && 0 <= x < g.w && NearOccupied(g, y, x)
  }

  /** The first n of the nine shifted views, taken row by row, or-ed together. */
  function DilateViews(g: BoolGrid, n: nat): (d: BoolGrid)
    ensures d.h == g.h && d.w == g.w
  {
    Tabulate(g.h, g.w, (y, x) => exists k: nat | k < n :: g.At(y + k / 3 - 1, x + k % 3 - 1))
  }

  function Dilate(g: BoolGrid): BoolGrid {
    DilateViews(g, 9)
  }

  lemma DilateMeaning(g: BoolGrid)
    ensures IsDilation(g, Dilate(g))
  {
    forall y, x | 0 <= y < g.h && 0 <= x < g.w ensures Dilate(g).At(y, x) <==> NearOccupied(g, y, x) {
      if NearOccupied(g, y, x) {
        var y', x' :| g.At(y', x') && y - 1 <= y' <= y + 1 && x - 1 <= x' <= x + 1;
        var k := 3 * (y' - y + 1) + (x' - x + 1);
        assert g.At(y + k / 3 - 1, x + k % 3 - 1);
      }
    }
  }

  method DilateOneCell(g: BoolGrid) returns (result: BoolGrid)
    ensures result == Dilate(g)
    ensures IsDilation(g, result)
  {
    hide IsDilation;
    result := Tabulate(g.h, g.w, (y, x) => false);
    GridsEqual(result, DilateViews(g, 0));
    hide DilateViews, Tabulate;
    for dy := 0 to 3
      invariant result == DilateViews(g, 3 * dy)
    {
      for dx := 0 to 3
        invariant result == DilateViews(g, 3 * dy + dx)
      {
        var before := result;
        result := Tabulate(g.h, g.w, (y, x) => before.At(y, x) || g.At(y + dy - 1, x + dx - 1));
        DilateNext(g, dy, dx, result);
      }
    }
    DilateMeaning(g);
  }

  lemma DilateNext(g: BoolGrid, dy: nat, dx: nat, r: BoolGrid)
    requires dx < 3 && r.h == g.h && r.w == g.w
    requires forall y, x :: r.At(y, x) <==>
      0 <= y < g.h && 0 <= x < g.w && (DilateViews(g, 3 * dy + dx).At(y, x) || g.At(y + dy - 1, x + dx - 1))
    ensures r == DilateViews(g, 3 * dy + dx + 1)
  {
    var n := 3 * dy + dx;
    assert n / 3 == dy && n % 3 == dx;
    forall y, x | 0 <= y < g.h && 0 <= x < g.w ensures r.At(y, x) == DilateViews(g, n + 1).At(y, x) {
      if k: nat :| k < n + 1 && g.At(y + k / 3 - 1, x + k % 3 - 1) {
        assert k == n || k < n;
      }
    }
    GridsEqual(r, DilateViews(g, n + 1));
  }

  predicate IsSingleCell(g: Grid) {
    g.h == 1 && g.w == 1
  }

  /** The grids from g upwards: at most n poolings, none past a single cell. */
  function PyramidOf(g: BoolGrid, n: nat): (levels: seq<BoolGrid>)
    ensures 1 <= |levels| <= n + 1 && levels[0] == g
    decreases n
  {
    if n == 0 || IsSingleCell(g) then [g] else [g] + PyramidOf(MaxPool(g), n - 1)
  }

  lemma {:induction false} PyramidStep(g: BoolGrid, n: nat, l: nat)
    requires 0 < l < |PyramidOf(g, n)|
    ensures PyramidOf(g, n)[l] == MaxPool(PyramidOf(g, n)[l - 1])
    decreases n
  {
    hide MaxPool;
    if l > 1 {
      PyramidStep(MaxPool(g), n - 1, l - 1);
    }
  }

  /** The pyramid ends at depth n or at the first level that is a single cell. */
  lemma {:induction false} PyramidHeight(g: BoolGrid, n: nat)
    ensures var levels := PyramidOf(g, n);
            (forall l :: 0 <= l < |levels| - 1 ==> !(levels[l].h == 1 && levels[l].w == 1)) &&
            (|levels| == n + 1 || (levels[|levels| - 1].h == 1 && levels[|levels| - 1].w == 1))
    decreases n
  {
    hide MaxPool;
    if n > 0 && !IsSingleCell(g) {
      PyramidHeight(MaxPool(g), n - 1);
    }
  }

  lemma PyramidGrows(g: BoolGrid, n: nat)
    ensures PyramidOf(g, n) == if n == 0 || IsSingleCell(g) then [g] else [g] + PyramidOf(MaxPool(g), n - 1)
  {
  }

  method BuildOccupancyPyramid(occupancy: BoolGrid, depth: nat) returns (levels: seq<BoolGrid>)
    ensures levels == PyramidOf(occupancy, depth)
  {
    hide PyramidOf, MaxPool;
    levels := [occupancy];
    var i := 0;
    while i < depth
      invariant 0 <= i <= depth && |levels| > 0
      invariant levels[..|levels| - 1] + PyramidOf(levels[|levels| - 1], depth - i) == PyramidOf(occupancy, depth)
    {
      var previous := levels[|levels| - 1];
      PyramidGrows(previous, depth - i);
      if IsSingleCell(previous) {
        break;
      }
      var next := MaxPool(previous);
      ghost var below := levels[..|levels| - 1];
      levels := levels + [next];
      assert levels[..|levels| - 1] + PyramidOf(next, depth - i - 1) == below + ([previous] + PyramidOf(next, depth - i - 1));
      i := i + 1;
    }
    PyramidGrows(levels[|levels| - 1], depth - i);
  }

  method BuildUpperBoundPyramid(levels: seq<BoolGrid>) returns (upper: seq<BoolGrid>)
    requires |levels| > 0
    ensures |upper| == |levels| && upper[0] == levels[0]
    ensures forall l :: 0 < l < |levels| ==> upper[l] == Dilate(levels[l])
    ensures forall l :: 0 < l < |levels| ==> IsDilation(levels[l], upper[l])
  {
    upper := [levels[0]];
    for i := 1 to |levels|
      invariant |upper| == i && upper[0] == levels[0]
      invariant forall l :: 0 < l < i ==> upper[l] == Dilate(levels[l])
      invariant forall l :: 0 < l < i ==> IsDilation(levels[l], upper[l])
    {
      var dilated := DilateOneCell(levels[i]);
      upper := upper + [dilated];
    }
  }

  lemma CeilTwice(n: nat, f: int)
    requires f > 0
    ensures ((n + f - 1) / f + 1) / 2 == (n + 2 * f - 1) / (2 * f)
  {
    DivShift(n + f - 1, 1, f);
    DivTwice(n + 2 * f - 1, f);
  }

  ghost predicate BlockOccupied(occ: BoolGrid, f: int, ky: int, kx: int)
    requires f > 0
  {
    exists y, x :: occ.At(y, x) && y / f == ky && x / f == kx
  }

  /** g holds one cell per f x f block, true exactly where the block is occupied. */
  ghost predicate Summarises(occ: BoolGrid, f: int, g: BoolGrid)
    requires f > 0
  {
    forall ky, kx :: g.At(ky, kx) <==> BlockOccupied(occ, f, ky, kx)
  }

  lemma PoolSummary(occ: BoolGrid, f: int, below: BoolGrid)
    requires f > 0 && Summarises(occ, f, below)
    ensures Summarises(occ, 2 * f, MaxPool(below))
  {
    forall ky, kx ensures MaxPool(below).At(ky, kx) <==> BlockOccupied(occ, 2 * f, ky, kx) {
      if MaxPool(below).At(ky, kx) {
        var a, b := PooledFrom(below, ky, kx);
        var y, x :| occ.At(y, x) && y / f == a && x / f == b;
        DivTwice(y, f);
        DivTwice(x, f);
        assert occ.At(y, x) && y / (2 * f) == ky && x / (2 * f) == kx;
      }
      if BlockOccupied(occ, 2 * f, ky, kx) {
        var y, x :| occ.At(y, x) && y / (2 * f) == ky && x / (2 * f) == kx;
        DivTwice(y, f);
        DivTwice(x, f);
        PooledInto(below, y / f, x / f);
      }
    }
  }

  lemma PooledFrom(g: BoolGrid, ky: int, kx: int) returns (a: int, b: int)
    requires MaxPool(g).At(ky, kx)
    ensures g.At(a, b) && a / 2 == ky && b / 2 == kx
  {
    a := if g.At(2 * ky, 2 * kx) || g.At(2 * ky, 2 * kx + 1) then 2 * ky else 2 * ky + 1;
    b := if g.At(a, 2 * kx) then 2 * kx else 2 * kx + 1;
  }

  lemma PooledInto(g: BoolGrid, a: int, b: int)
    requires g.At(a, b)
    ensures MaxPool(g).At(a / 2, b / 2)
  {
    assert a == 2 * (a / 2) || a == 2 * (a / 2) + 1;
    assert b == 2 * (b / 2) || b == 2 * (b / 2) + 1;
  }

  /** Level l is true exactly on the 2^l blocks that hold an occupied cell. */
  lemma {:induction false} LevelMeaning(occ: BoolGrid, depth: nat, l: nat)
    requires l < |PyramidOf(occ, depth)|
    ensures Summarises(occ, Pow2(l), PyramidOf(occ, depth)[l])
  {
    if l == 0 {
      forall ky, kx ensures occ.At(ky, kx) <==> BlockOccupied(occ, 1, ky, kx) {
        if occ.At(ky, kx) {
          assert ky / 1 == ky && kx / 1 == kx;
        }
      }
    } else {
      LevelMeaning(occ, depth, l - 1);
      var levels := PyramidOf(occ, depth);
      PyramidStep(occ, depth, l);
      PoolSummary(occ, Pow2(l - 1), levels[l - 1]);
    }
  }

  lemma {:induction false} LevelDims(occ: BoolGrid, depth: nat, l: nat)
    requires l < |PyramidOf(occ, depth)|
    ensures var g := PyramidOf(occ, depth)[l];
            g.h == (occ.h + Pow2(l) - 1) / Pow2(l) && g.w == (occ.w + Pow2(l) - 1) / Pow2(l)
  {
    if l > 0 {
      LevelDims(occ, depth, l - 1);
      PyramidStep(occ, depth, l);
      CeilTwice(occ.h, Pow2(l - 1));
      CeilTwice(occ.w, Pow2(l - 1));
    }
  }
}
