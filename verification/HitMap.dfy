/** Whole-level hit maps: the padded, flipped and sliced correlation, and the accumulated seed map. */
module HitMap {
  import opened Arith
  import opened Pyramid
  import opened Scoring

  type Plane = (int, int) -> int

  function RowSum(w: nat, f: Plane, p: int): int {
    if w == 0 then 0 else RowSum(w - 1, f, p) + f(p, w - 1)
  }

  /** The sum of f over 0 <= p < h, 0 <= q < w. */
  function Sum2(h: nat, w: nat, f: Plane): int {
    if h == 0 then 0 else Sum2(h - 1, w, f) + RowSum(w, f, h - 1)
  }

  ghost predicate SplitsInto(h: nat, w: nat, s: Plane, f: Plane, g: Plane) {
    forall p, q :: 0 <= p < h && 0 <= q < w ==> s(p, q) == f(p, q) + g(p, q)
  }

  lemma {:induction false} RowSumPlus(w: nat, s: Plane, f: Plane, g: Plane, p: int)
    requires forall q :: 0 <= q < w ==> s(p, q) == f(p, q) + g(p, q)
    ensures RowSum(w, s, p) == RowSum(w, f, p) + RowSum(w, g, p)
  {
    if w > 0 {
      RowSumPlus(w - 1, s, f, g, p);
    }
  }

  lemma {:induction false} Sum2Plus(h: nat, w: nat, s: Plane, f: Plane, g: Plane)
    requires SplitsInto(h, w, s, f, g)
    ensures Sum2(h, w, s) == Sum2(h, w, f) + Sum2(h, w, g)
  {
    if h > 0 {
      Sum2Plus(h - 1, w, s, f, g);
      RowSumPlus(w, s, f, g, h - 1);
    }
  }

  /** A row sum with at most one nonzero term. */
  lemma {:induction false} RowSumSingle(w: nat, f: Plane, p: int, k: int)
    requires forall q :: 0 <= q < w && q != k ==> f(p, q) == 0
    ensures RowSum(w, f, p) == if 0 <= k < w then f(p, k) else 0
  {
    if w > 0 {
      RowSumSingle(w - 1, f, p, k);
    }
  }

  lemma {:induction false} Sum2Single(h: nat, w: nat, f: Plane, p0: int, q0: int)
    requires forall p, q :: 0 <= p < h && 0 <= q < w && !(p == p0 && q == q0) ==> f(p, q) == 0
    ensures Sum2(h, w, f) == if 0 <= p0 < h && 0 <= q0 < w then f(p0, q0) else 0
  {
    if h > 0 {
      Sum2Single(h - 1, w, f, p0, q0);
      RowSumSingle(w, f, h - 1, if p0 == h - 1 then q0 else -1);
    }
  }

  function Least(s: seq<int>): (m: int)
    requires s != []
    ensures m in s && forall v :: v in s ==> m <= v
  {
    if |s| == 1 then s[0]
    else
      assert s == [s[0]] + s[1..];
      Min(s[0], Least(s[1..]))
  }

  function Greatest(s: seq<int>): (m: int)
    requires s != []
    ensures m in s && forall v :: v in s ==> v <= m
  {
    if |s| == 1 then s[0]
    else
      assert s == [s[0]] + s[1..];
      Max(s[0], Greatest(s[1..]))
  }

  function Rows(es: seq<Entry>): (s: seq<int>)
    ensures |s| == |es| && forall i :: 0 <= i < |es| ==> s[i] == es[i].qy
  {
    seq(|es|, i requires 0 <= i < |es| => es[i].qy)
  }

  function Cols(es: seq<Entry>): (s: seq<int>)
    ensures |s| == |es| && forall i :: 0 <= i < |es| ==> s[i] == es[i].qx
  {
    seq(|es|, i requires 0 <= i < |es| => es[i].qx)
  }

  lemma EntriesInRange(es: seq<Entry>)
    ensures forall e :: e in es ==> e.qy in Rows(es) && e.qx in Cols(es)
  {
    forall e | e in es ensures e.qy in Rows(es) && e.qx in Cols(es) {
      var i :| 0 <= i < |es| && es[i] == e;
      assert Rows(es)[i] == e.qy && Cols(es)[i] == e.qx;
    }
  }

  function Max(a: int, b: int): int { if a < b then b else a }

  function Min(a: int, b: int): int { if a < b then a else b }

  function Cell(grid: BoolGrid, y: int, x: int): nat {
    if grid.At(y, x) then 1 else 0
  }

  /** The total count of the entries sitting on one coarse cell. */
  function CountAt(es: seq<Entry>, qy: int, qx: int): nat {
    if es == [] then 0
    else (if es[0].qy == qy && es[0].qx == qx then es[0].count else 0) + CountAt(es[1..], qy, qx)
  }

  /** The index arithmetic of full_hit_map: kernel and padded extents of a level's offset table. */
  datatype Frame = Frame(qyMin: int, qxMin: int, kernelH: int, kernelW: int, paddedH: int, paddedW: int)

  ghost predicate Fits(f: Frame, es: seq<Entry>, nBlocksY: nat, nBlocksX: nat) {
    f.kernelH > 0 && f.kernelW > 0 && f.paddedH >= 0 && f.paddedW >= 0 &&
    f.paddedH == nBlocksY + f.kernelH - 1 && f.paddedW == nBlocksX + f.kernelW - 1 &&
    forall e :: e in es ==> 0 <= e.qy - f.qyMin < f.kernelH && 0 <= e.qx - f.qxMin < f.kernelW
  }

  function FrameOf(es: seq<Entry>, nBlocksY: nat, nBlocksX: nat): (f: Frame)
    requires es != [] && nBlocksY > 0 && nBlocksX > 0
    ensures Fits(f, es, nBlocksY, nBlocksX)
  {
    var qyMin, qxMin := Least(Rows(es)), Least(Cols(es));
    var kernelH, kernelW := Greatest(Rows(es)) - qyMin + 1, Greatest(Cols(es)) - qxMin + 1;
    assert forall e :: e in es ==> e.qy in Rows(es) && e.qx in Cols(es) by {
      EntriesInRange(es);
    }
    assert es[0] in es;
    Frame(qyMin, qxMin, kernelH, kernelW, nBlocksY + kernelH - 1, nBlocksX + kernelW - 1)
  }

  /** The slice of the grid copied into a zero array of the padded shape. */
  function Padded(grid: BoolGrid, f: Frame, nBlocksY: nat, nBlocksX: nat): Plane {
    var srcY0, srcX0 := Max(0, f.qyMin), Max(0, f.qxMin);
    var srcY1 := Min(grid.h, nBlocksY + f.qyMin + f.kernelH - 1);
    var srcX1 := Min(grid.w, nBlocksX + f.qxMin + f.kernelW - 1);
    (p, q) => if srcY0 - f.qyMin <= p < srcY1 - f.qyMin && srcX0 - f.qxMin <= q < srcX1 - f.qxMin
              then Cell(grid, p + f.qyMin, q + f.qxMin) else 0
  }

  /** The kernel of entry counts with both axes reversed, zero outside its shape. */
  function FlippedKernel(es: seq<Entry>, f: Frame): Plane {
    (a, b) => if 0 <= a < f.kernelH && 0 <= b < f.kernelW
              then CountAt(es, f.kernelH - 1 - a + f.qyMin, f.kernelW - 1 - b + f.qxMin) else 0
  }

  /** The summand, over the padded plane, of entry (i, j) of the inverse transform of a product of two spectra
      of shape (s0, s1): a circular convolution of zero-extended planes. */
  function CircularTerm(padded: Plane, kernel: Plane, s0: int, s1: int, i: int, j: int): Plane {
    (p, q) => padded(p, q) * if s0 > 0 && s1 > 0 then kernel((i - p) % s0, (j - q) % s1) else 0
  }

  /** Entry (ky, kx) of the sliced block map, for any transform shape no smaller than the linear one. */
  function SlicedAt(grid: BoolGrid, es: seq<Entry>, f: Frame, nBlocksY: nat, nBlocksX: nat,
                    slackY: nat, slackX: nat, ky: int, kx: int): int
    requires Fits(f, es, nBlocksY, nBlocksX)
  {
    Sum2(f.paddedH, f.paddedW,
         CircularTerm(Padded(grid, f, nBlocksY, nBlocksX), FlippedKernel(es, f),
                      f.paddedH + f.kernelH - 1 + slackY, f.paddedW + f.kernelW - 1 + slackX,
                      f.kernelH - 1 + ky, f.kernelW - 1 + kx))
  }

  lemma {:induction false} CountOutside(es: seq<Entry>, qy: int, qx: int)
    requires forall i :: 0 <= i < |es| ==> es[i].qy != qy || es[i].qx != qx
    ensures CountAt(es, qy, qx) == 0
  {
    if es != [] {
      CountOutside(es[1..], qy, qx);
    }
  }

  /** The plane g weighted by the entry counts shifted by (dy, dx). */
  function Weighted(g: Plane, es: seq<Entry>, dy: int, dx: int): Plane {
    (p, q) => g(p, q) * CountAt(es, p - dy, q - dx)
  }

  /** The plane's value under entry e is in range and is the grid cell e reads at block (ky, kx). */
  ghost predicate Reads(grid: BoolGrid, e: Entry, g: Plane, h: nat, w: nat, dy: int, dx: int, ky: int, kx: int) {
    0 <= e.qy + dy < h && 0 <= e.qx + dx < w &&
    g(e.qy + dy, e.qx + dx) == Cell(grid, ky + e.qy, kx + e.qx)
  }

  /** Correlating a plane with the entry counts is the count-weighted sum of its shifted values. */
  lemma {:induction false} CorrelationIsGather(grid: BoolGrid, es: seq<Entry>, g: Plane, h: nat, w: nat,
                                               dy: int, dx: int, ky: int, kx: int)
    requires forall e :: e in es ==> Reads(grid, e, g, h, w, dy, dx, ky, kx)
    ensures Sum2(h, w, Weighted(g, es, dy, dx)) == Gather(grid, es, ky, kx)
    decreases |es|
  {
    if es == [] {
      forall p, q ensures Weighted(g, es, dy, dx)(p, q) == 0 {
        Distribute(g(p, q), 0, 0);
      }
      Sum2Single(h, w, Weighted(g, es, dy, dx), -1, -1);
    } else {
      CorrelationIsGather(grid, es[1..], g, h, w, dy, dx, ky, kx);
      assert Reads(grid, es[0], g, h, w, dy, dx, ky, kx);
      FirstEntry(g, es, dy, dx, h, w);
    }
  }

  lemma FirstEntry(g: Plane, es: seq<Entry>, dy: int, dx: int, h: nat, w: nat)
    requires es != [] && 0 <= es[0].qy + dy < h && 0 <= es[0].qx + dx < w
    ensures Sum2(h, w, Weighted(g, es, dy, dx))
         == g(es[0].qy + dy, es[0].qx + dx) * es[0].count + Sum2(h, w, Weighted(g, es[1..], dy, dx))
  {
    var e := es[0];
    var one: Plane := (p, q) => if p == e.qy + dy && q == e.qx + dx then g(p, q) * e.count else 0;
    Sum2Single(h, w, one, e.qy + dy, e.qx + dx);
    PeelEntry(g, es, dy, dx, h, w, one);
    Sum2Plus(h, w, Weighted(g, es, dy, dx), one, Weighted(g, es[1..], dy, dx));
  }

  lemma PeelEntry(g: Plane, es: seq<Entry>, dy: int, dx: int, h: nat, w: nat, one: Plane)
    requires es != []
    requires forall p, q :: one(p, q) == if p == es[0].qy + dy && q == es[0].qx + dx then g(p, q) * es[0].count else 0
    ensures SplitsInto(h, w, Weighted(g, es, dy, dx), one, Weighted(g, es[1..], dy, dx))
  {
    forall p, q ensures Weighted(g, es, dy, dx)(p, q) == one(p, q) + Weighted(g, es[1..], dy, dx)(p, q) {
      var own := if es[0].qy == p - dy && es[0].qx == q - dx then es[0].count else 0;
      Distribute(g(p, q), own, CountAt(es[1..], p - dy, q - dx));
    }
  }

  lemma Distribute(a: int, b: int, c: int)
    ensures a * (b + c) == a * b + a * c
  {
  }

  /** On the sliced rows the circular index never wraps into the kernel. */
  lemma NoWrap(n: nat, kernelN: int, s: int, k: int, p: int)
    requires kernelN > 0 && 0 <= k < n && 0 <= p < n + kernelN - 1
    requires s >= n + 2 * (kernelN - 1)
    ensures s > 0
    ensures var d := kernelN - 1 + k - p;
            if 0 <= d then d % s == d else kernelN <= d % s
  {
    var d := kernelN - 1 + k - p;
    if d < 0 {
      DivUnique(d, s, -1, d + s);
    } else {
      DivUnique(d, s, 0, d);
    }
  }

  lemma KernelReads(es: seq<Entry>, f: Frame, n: nat, m: nat, a: int, b: int, qy: int, qx: int)
    requires Fits(f, es, n, m)
    requires var d := f.kernelH - 1 + f.qyMin - qy; if 0 <= d then a == d else f.kernelH <= a
    requires var d := f.kernelW - 1 + f.qxMin - qx; if 0 <= d then b == d else f.kernelW <= b
    ensures FlippedKernel(es, f)(a, b) == CountAt(es, qy, qx)
  {
    if !(0 <= a < f.kernelH && 0 <= b < f.kernelW) {
      CountOutside(es, qy, qx);
    }
  }

  lemma CircularIsWeighted(es: seq<Entry>, f: Frame, n: nat, m: nat, padded: Plane, s0: int, s1: int,
                           ky: int, kx: int, p: int, q: int)
    requires Fits(f, es, n, m) && 0 <= ky < n && 0 <= kx < m
    requires 0 <= p < f.paddedH && 0 <= q < f.paddedW
    requires s0 >= f.paddedH + f.kernelH - 1 && s1 >= f.paddedW + f.kernelW - 1
    ensures CircularTerm(padded, FlippedKernel(es, f), s0, s1, f.kernelH - 1 + ky, f.kernelW - 1 + kx)(p, q)
         == Weighted(padded, es, ky - f.qyMin, kx - f.qxMin)(p, q)
  {
    NoWrap(n, f.kernelH, s0, ky, p);
    NoWrap(m, f.kernelW, s1, kx, q);
    KernelReads(es, f, n, m, (f.kernelH - 1 + ky - p) % s0, (f.kernelW - 1 + kx - q) % s1,
                p - ky + f.qyMin, q - kx + f.qxMin);
  }

  /** The hot path equals the cold path: every block of the sliced map is the direct gather. */
  lemma SlicedIsGather(grid: BoolGrid, es: seq<Entry>, f: Frame, n: nat, m: nat,
                       slackY: nat, slackX: nat, ky: int, kx: int)
    requires Fits(f, es, n, m) && 0 <= ky < n && 0 <= kx < m
    ensures SlicedAt(grid, es, f, n, m, slackY, slackX, ky, kx) == Gather(grid, es, ky, kx)
  {
    var s0, s1 := f.paddedH + f.kernelH - 1 + slackY, f.paddedW + f.kernelW - 1 + slackX;
    var padded, dy, dx := Padded(grid, f, n, m), ky - f.qyMin, kx - f.qxMin;
    var term := CircularTerm(padded, FlippedKernel(es, f), s0, s1, f.kernelH - 1 + ky, f.kernelW - 1 + kx);
    var weighted := Weighted(padded, es, dy, dx);
    forall p, q | 0 <= p < f.paddedH && 0 <= q < f.paddedW ensures term(p, q) == weighted(p, q) {
      CircularIsWeighted(es, f, n, m, padded, s0, s1, ky, kx, p, q);
    }
    Sum2Agrees(f.paddedH, f.paddedW, term, weighted);
    CorrelationIsGather(grid, es, padded, f.paddedH, f.paddedW, dy, dx, ky, kx);
  }

  lemma {:induction false} Sum2Agrees(h: nat, w: nat, f: Plane, g: Plane)
    requires forall p, q :: 0 <= p < h && 0 <= q < w ==> f(p, q) == g(p, q)
    ensures Sum2(h, w, f) == Sum2(h, w, g)
  {
    if h > 0 {
      Sum2Agrees(h - 1, w, f, g);
      RowSumPlus(w, f, g, (p, q) => 0, h - 1);
      RowSumSingle(w, (p, q) => 0, h - 1, -1);
    }
  }

  type Table = seq<seq<int>>

  /** m is the table of direct gathers over an h x w range of blocks. */
  ghost predicate IsHitMap(m: Table, grid: BoolGrid, es: seq<Entry>, h: nat, w: nat) {
    |m| == h &&
    (forall y :: 0 <= y < h ==> |m[y]| == w) &&
    forall y, x :: 0 <= y < h && 0 <= x < w ==> m[y][x] == Gather(grid, es, y, x)
  }

  function SlicedMap(grid: BoolGrid, es: seq<Entry>, f: Frame, n: nat, m: nat, slackY: nat, slackX: nat): Table
    requires Fits(f, es, n, m)
  {
    seq(n, y => seq(m, x => SlicedAt(grid, es, f, n, m, slackY, slackX, y, x)))
  }

  lemma SlicedMapIsHitMap(grid: BoolGrid, es: seq<Entry>, f: Frame, n: nat, m: nat, slackY: nat, slackX: nat)
    requires Fits(f, es, n, m)
    ensures IsHitMap(SlicedMap(grid, es, f, n, m, slackY, slackX), grid, es, n, m)
  {
    var table := SlicedMap(grid, es, f, n, m, slackY, slackX);
    forall y, x | 0 <= y < n && 0 <= x < m ensures table[y][x] == Gather(grid, es, y, x) {
      SlicedIsGather(grid, es, f, n, m, slackY, slackX, y, x);
    }
  }

  /** full_hit_map, with the transform rounded back to exact integers. */
  function FullHitMap(grid: BoolGrid, es: seq<Entry>, nBlocksY: nat, nBlocksX: nat, slackY: nat, slackX: nat): (m: Table)
    requires es != [] && nBlocksY > 0 && nBlocksX > 0
    ensures IsHitMap(m, grid, es, nBlocksY, nBlocksX)
  {
    var f := FrameOf(es, nBlocksY, nBlocksX);
    SlicedMapIsHitMap(grid, es, f, nBlocksY, nBlocksX, slackY, slackX);
    SlicedMap(grid, es, f, nBlocksY, nBlocksX, slackY, slackX)
  }

  ghost predicate Shaped(m: Table, h: nat, w: nat) {
    |m| == h && forall y :: 0 <= y < h ==> |m[y]| == w
  }

  function ZeroPad(grid: BoolGrid, top: nat, left: nat, bottom: nat, right: nat): (m: Table)
    ensures Shaped(m, top + grid.h + bottom, left + grid.w + right)
    ensures forall y, x :: 0 <= y < |m| && 0 <= x < |m[y]| ==> m[y][x] == Cell(grid, y - top, x - left)
  {
    seq(top + grid.h + bottom, y => seq(left + grid.w + right, x => Cell(grid, y - top, x - left)))
  }

  /** before + count * padded[row : row + h, col : col + w] */
  function AddSlice(before: Table, count: nat, padded: Table, row: nat, col: nat, h: nat, w: nat): (m: Table)
    requires Shaped(before, h, w)
    requires row + h <= |padded| && forall y :: 0 <= y < |padded| ==> col + w <= |padded[y]|
    ensures Shaped(m, h, w)
    ensures forall y, x :: 0 <= y < h && 0 <= x < w ==> m[y][x] == before[y][x] + count * padded[row + y][col + x]
  {
    seq(h, y requires 0 <= y < h => seq(w, x requires 0 <= x < w => before[y][x] + count * padded[row + y][col + x]))
  }

  /** What m still lacks of the full gather is the gather of the remaining entries. */
  ghost predicate Accumulating(m: Table, grid: BoolGrid, es: seq<Entry>, rest: seq<Entry>, h: nat, w: nat) {
    Shaped(m, h, w) &&
    forall y, x :: 0 <= y < h && 0 <= x < w ==> m[y][x] + Gather(grid, rest, y, x) == Gather(grid, es, y, x)
  }

  lemma AccumulateOne(before: Table, m: Table, grid: BoolGrid, es: seq<Entry>, rest: seq<Entry>, h: nat, w: nat)
    requires rest != [] && Accumulating(before, grid, es, rest, h, w) && Shaped(m, h, w)
    requires forall y, x :: 0 <= y < h && 0 <= x < w ==>
      m[y][x] == before[y][x] + rest[0].count * Cell(grid, y + rest[0].qy, x + rest[0].qx)
    ensures Accumulating(m, grid, es, rest[1..], h, w)
  {
  }

  /** How far the top level must be padded for every shifted slice to stay inside. */
  datatype Pad = Pad(top: nat, left: nat, bottom: nat, right: nat)

  ghost predicate SliceInside(e: Entry, grid: BoolGrid, pad: Pad, h: nat, w: nat) {
    0 <= pad.top + e.qy && e.qy + h <= grid.h + pad.bottom &&
    0 <= pad.left + e.qx && e.qx + w <= grid.w + pad.right
  }

  function PadOf(es: seq<Entry>, grid: BoolGrid, h: nat, w: nat): (pad: Pad)
    requires es != []
    ensures forall e :: e in es ==> SliceInside(e, grid, pad, h, w)
  {
    EntriesInRange(es);
    hide Rows;
    hide Cols;
    hide Least;
    hide Greatest;
    Pad(Max(0, -Least(Rows(es))), Max(0, -Least(Cols(es))),
        Max(0, h - 1 + Greatest(Rows(es)) - (grid.h - 1)), Max(0, w - 1 + Greatest(Cols(es)) - (grid.w - 1)))
  }

  /** The seed map: count-weighted slices of the zero-padded top level, accumulated entry by entry. */
  method SeedHitMap(grid: BoolGrid, es: seq<Entry>, h: nat, w: nat) returns (hitMap: Table)
    requires es != []
    ensures IsHitMap(hitMap, grid, es, h, w)
  {
    var pad := PadOf(es, grid, h, w);
    hitMap := AccumulateSlices(grid, es, h, w, pad);
  }

  method AccumulateSlices(grid: BoolGrid, es: seq<Entry>, h: nat, w: nat, pad: Pad) returns (hitMap: Table)
    requires forall e :: e in es ==> SliceInside(e, grid, pad, h, w)
    ensures IsHitMap(hitMap, grid, es, h, w)
  {
    var padded := ZeroPad(grid, pad.top, pad.left, pad.bottom, pad.right);
    hitMap := seq(h, y => seq(w, x => 0));
    for i := 0 to |es|
      invariant Accumulating(hitMap, grid, es, es[i..], h, w)
    {
      assert SliceInside(es[i], grid, pad, h, w);
      var row, col := pad.top + es[i].qy, pad.left + es[i].qx;
      ghost var before := hitMap;
      hitMap := AddSlice(hitMap, es[i].count, padded, row, col, h, w);
      AccumulateOne(before, hitMap, grid, es, es[i..], h, w);
      assert es[i..][1..] == es[i + 1..];
    }
  }

  // ----- the merged offset table -----

  predicate CellFirst(y: int, x: int, e: Entry) {
    y < e.qy || (y == e.qy && x < e.qx)
  }

  /** Entries in row order, then column order, none twice and none empty. */
  predicate Merged(es: seq<Entry>) {
    es == [] || (es[0].count > 0 && (|es| > 1 ==> CellFirst(es[0].qy, es[0].qx, es[1])) && Merged(es[1..]))
  }

  lemma {:induction false} AddCellMerged(es: seq<Entry>, qy: int, qx: int)
    requires Merged(es)
    ensures var r := AddCell(es, qy, qx);
            Merged(r) && ((r[0].qy == qy && r[0].qx == qx) || (es != [] && r[0] == es[0]))
  {
    if es != [] {
      if es[0].qy == qy && es[0].qx == qx {
        assert ([es[0].(count := es[0].count + 1)] + es[1..])[1..] == es[1..];
      } else if CellFirst(qy, qx, es[0]) {
        assert ([Entry(qy, qx, 1)] + es)[1..] == es;
      } else {
        var rest := AddCell(es[1..], qy, qx);
        AddCellMerged(es[1..], qy, qx);
        assert ([es[0]] + rest)[1..] == rest;
      }
    }
  }

  /** So of any two entries the earlier one's cell comes first. */
  lemma {:induction false} MergedPairs(es: seq<Entry>, i: nat, j: nat)
    requires Merged(es) && i < j < |es|
    ensures CellFirst(es[i].qy, es[i].qx, es[j])
    decreases |es|
  {
    if i > 0 {
      MergedPairs(es[1..], i - 1, j - 1);
    } else if j > 1 {
      MergedPairs(es[1..], 0, j - 1);
    }
  }

  lemma {:induction false} AddCellCount(es: seq<Entry>, qy: int, qx: int, y: int, x: int)
    ensures CountAt(AddCell(es, qy, qx), y, x) == CountAt(es, y, x) + if y == qy && x == qx then 1 else 0
  {
    if es != [] {
      AddCellCount(es[1..], qy, qx, y, x);
      var r := AddCell(es, qy, qx);
      assert r[1..] == es[1..] || r[1..] == es || r[1..] == AddCell(es[1..], qy, qx);
    }
  }

  /** How many points fall in coarse cell (y, x) when the scan stands at the origin. */
  function PointsIn(pts: seq<Pt>, f: int, y: int, x: int): nat
    requires f > 0
  {
    if pts == [] then 0
    else PointsIn(pts[1..], f, y, x) +
         if CellOf(0, pts[0].y, f) == y && CellOf(0, pts[0].x, f) == x then 1 else 0
  }

  /** The offset table lists each coarse cell once, in order, with the number of points that fall in it. */
  lemma {:induction false} OffsetsMerged(pts: seq<Pt>, f: int, y: int, x: int)
    requires f > 0
    ensures Merged(Offsets(pts, f)) && CountAt(Offsets(pts, f), y, x) == PointsIn(pts, f, y, x)
  {
    hide AddCell, CountAt, Merged;
    if pts == [] {
      NoOffsets(y, x);
    } else {
      OffsetsMerged(pts[1..], f, y, x);
      AtOrigin(pts[0].y, f);
      AtOrigin(pts[0].x, f);
      AddCellMerged(Offsets(pts[1..], f), CellOf(0, pts[0].y, f), CellOf(0, pts[0].x, f));
      AddCellCount(Offsets(pts[1..], f), CellOf(0, pts[0].y, f), CellOf(0, pts[0].x, f), y, x);
    }
  }

  lemma NoOffsets(y: int, x: int)
    ensures Merged([]) && CountAt([], y, x) == 0
  {
  }

  lemma AtOrigin(r: real, f: int)
    requires f > 0
    ensures CellOf(0, r, f) == ((0.5 + r) / f as real).Floor
  {
  }
}
