/** FAST-LIO's sliding local-map cube and the boxes it has deleted. Three axes, each an interval. */
module LocalMap {
  import opened Reals

  const MOV_THRESHOLD := 1.5

  /** Three coordinates. */
  type Vec = v: seq<real> | |v| == 3 witness [0.0, 0.0, 0.0]

  datatype Box = Box(vmin: Vec, vmax: Vec)

  predicate Inside(b: Box, p: Vec) {
    forall i :: 0 <= i < 3 ==> b.vmin[i] <= p[i] <= b.vmax[i]
  }

  datatype Setup = Setup(cubeLen: real, detRange: real)

  ghost predicate SetupOk(c: Setup) {
    c.cubeLen > 0.0 && c.detRange > 0.0
  }

  function MoveDist(c: Setup): real {
    Max((c.cubeLen - 2.0 * MOV_THRESHOLD * c.detRange) * 0.5 * 0.9, c.detRange * (MOV_THRESHOLD - 1.0))
  }

  predicate NearLow(c: Setup, b: Box, p: Vec, i: int)
    requires 0 <= i < 3
  {
    Abs(p[i] - b.vmin[i]) <= MOV_THRESHOLD * c.detRange
  }

  predicate NearHigh(c: Setup, b: Box, p: Vec, i: int)
    requires 0 <= i < 3
  {
    Abs(p[i] - b.vmax[i]) <= MOV_THRESHOLD * c.detRange
  }

  /** How far axis i slides: down at the low edge, else up at the high edge. */
  function Shift(c: Setup, b: Box, p: Vec, i: int): real
    requires 0 <= i < 3
  {
    if NearLow(c, b, p, i) then -MoveDist(c) else if NearHigh(c, b, p, i) then MoveDist(c) else 0.0
  }

  function Slid(c: Setup, b: Box, p: Vec): Box {
    Box([b.vmin[0] + Shift(c, b, p, 0), b.vmin[1] + Shift(c, b, p, 1), b.vmin[2] + Shift(c, b, p, 2)],
        [b.vmax[0] + Shift(c, b, p, 0), b.vmax[1] + Shift(c, b, p, 1), b.vmax[2] + Shift(c, b, p, 2)])
  }

  /** The slab of the old cube left behind along axis i, if the axis slides. */
  function Slab(c: Setup, b: Box, p: Vec, i: int): seq<Box>
    requires 0 <= i < 3
  {
    if NearLow(c, b, p, i) then [b.(vmin := b.vmin[i := b.vmax[i] - MoveDist(c)])]
    else if NearHigh(c, b, p, i) then [b.(vmax := b.vmax[i := b.vmin[i] + MoveDist(c)])]
    else []
  }

  function Slabs(c: Setup, b: Box, p: Vec): seq<Box> {
    Slab(c, b, p, 0) + Slab(c, b, p, 1) + Slab(c, b, p, 2)
  }

  function Around(c: Setup, p: Vec): Box {
    Box([p[0] - c.cubeLen / 2.0, p[1] - c.cubeLen / 2.0, p[2] - c.cubeLen / 2.0],
        [p[0] + c.cubeLen / 2.0, p[1] + c.cubeLen / 2.0, p[2] + c.cubeLen / 2.0])
  }

  class Segmenter {
    const setup: Setup
    var localMap: Box
    var initialized: bool
    var cubNeedrm: seq<Box>

    constructor (c: Setup)
      ensures setup == c && !initialized && cubNeedrm == []
    {
      setup, initialized, cubNeedrm := c, false, [];
      localMap := Box([0.0, 0.0, 0.0], [0.0, 0.0, 0.0]);
    }

    method LasermapFovSegment(pos: Vec)
      modifies this
      ensures initialized
      ensures !old(initialized) ==> localMap == Around(setup, pos) && cubNeedrm == []
      ensures old(initialized) ==>
        localMap == Slid(setup, old(localMap), pos) && cubNeedrm == Slabs(setup, old(localMap), pos)
    {
      cubNeedrm := [];
      if !initialized {
        localMap := Around(setup, pos);
        initialized := true;
        return;
      }
      var distToMapEdge, needMove := EdgeDistances(pos);
      if !needMove {
        StaysPut(setup, localMap, pos);
        return;
      }
      Slide(pos, distToMapEdge);
    }

    method EdgeDistances(pos: Vec) returns (dist: seq<(real, real)>, needMove: bool)
      ensures |dist| == 3
      ensures forall j :: 0 <= j < 3 ==> dist[j] == (Abs(pos[j] - localMap.vmin[j]), Abs(pos[j] - localMap.vmax[j]))
      ensures needMove || forall j :: 0 <= j < 3 ==> !NearLow(setup, localMap, pos, j) && !NearHigh(setup, localMap, pos, j)
    {
      dist, needMove := [], false;
      for i := 0 to 3
        invariant |dist| == i
        invariant forall j :: 0 <= j < i ==> dist[j] == (Abs(pos[j] - localMap.vmin[j]), Abs(pos[j] - localMap.vmax[j]))
        invariant needMove || forall j :: 0 <= j < i ==> !NearLow(setup, localMap, pos, j) && !NearHigh(setup, localMap, pos, j)
      {
        dist := dist + [(Abs(pos[i] - localMap.vmin[i]), Abs(pos[i] - localMap.vmax[i]))];
        if dist[i].0 <= MOV_THRESHOLD * setup.detRange || dist[i].1 <= MOV_THRESHOLD * setup.detRange {
          needMove := true;
        }
      }
    }

    method Slide(pos: Vec, dist: seq<(real, real)>)
      requires |dist| == 3 && cubNeedrm == []
      requires forall j :: 0 <= j < 3 ==> dist[j] == (Abs(pos[j] - localMap.vmin[j]), Abs(pos[j] - localMap.vmax[j]))
      modifies this`localMap, this`cubNeedrm
      ensures localMap == Slid(setup, old(localMap), pos) && cubNeedrm == Slabs(setup, old(localMap), pos)
    {
      hide MoveDist, Abs, Slid, Slabs;
      var newMap, movDist := localMap, MoveDist(setup);
      for i := 0 to 3
        invariant newMap == SlidUpTo(setup, localMap, pos, i)
        invariant cubNeedrm == SlabsUpTo(setup, localMap, pos, i)
        modifies this`cubNeedrm
      {
        if dist[i].0 <= MOV_THRESHOLD * setup.detRange {
          newMap := Box(newMap.vmin[i := newMap.vmin[i] - movDist], newMap.vmax[i := newMap.vmax[i] - movDist]);
          cubNeedrm := cubNeedrm + [localMap.(vmin := localMap.vmin[i := localMap.vmax[i] - movDist])];
        } else if dist[i].1 <= MOV_THRESHOLD * setup.detRange {
          newMap := Box(newMap.vmin[i := newMap.vmin[i] + movDist], newMap.vmax[i := newMap.vmax[i] + movDist]);
          cubNeedrm := cubNeedrm + [localMap.(vmax := localMap.vmax[i := localMap.vmin[i] + movDist])];
        }
        assert newMap == SlidUpTo(setup, localMap, pos, i + 1);
      }
      SlabsUpToThree(setup, localMap, pos);
      SlidUpToThree(setup, localMap, pos);
      localMap := newMap;
    }
  }

  /** The cube with the first n axes slid. */
  function SlidUpTo(c: Setup, b: Box, p: Vec, n: nat): Box
    requires n <= 3
  {
    if n == 0 then b
    else
      var s, d := SlidUpTo(c, b, p, n - 1), Shift(c, b, p, n - 1);
      Box(s.vmin[n - 1 := s.vmin[n - 1] + d], s.vmax[n - 1 := s.vmax[n - 1] + d])
  }

  lemma SlidOne(c: Setup, b: Box, p: Vec, n: nat)
    requires n < 3
    ensures var s, r, d := SlidUpTo(c, b, p, n), SlidUpTo(c, b, p, n + 1), Shift(c, b, p, n);
            r.vmin == s.vmin[n := s.vmin[n] + d] && r.vmax == s.vmax[n := s.vmax[n] + d]
  {
  }

  lemma SlidUpToThree(c: Setup, b: Box, p: Vec)
    ensures SlidUpTo(c, b, p, 3) == Slid(c, b, p)
  {
    hide Shift;
    SlidOne(c, b, p, 0);
    SlidOne(c, b, p, 1);
    SlidOne(c, b, p, 2);
    assert SlidUpTo(c, b, p, 3).vmin == Slid(c, b, p).vmin && SlidUpTo(c, b, p, 3).vmax == Slid(c, b, p).vmax;
  }

  function SlabsUpTo(c: Setup, b: Box, p: Vec, n: nat): seq<Box>
    requires n <= 3
  {
    if n == 0 then [] else SlabsUpTo(c, b, p, n - 1) + Slab(c, b, p, n - 1)
  }

  lemma SlabsUpToThree(c: Setup, b: Box, p: Vec)
    ensures SlabsUpTo(c, b, p, 3) == Slabs(c, b, p)
  {
    assert SlabsUpTo(c, b, p, 1) == Slab(c, b, p, 0);
    assert SlabsUpTo(c, b, p, 2) == Slab(c, b, p, 0) + Slab(c, b, p, 1);
  }

  lemma StaysPut(c: Setup, b: Box, p: Vec)
    requires forall j :: 0 <= j < 3 ==> !NearLow(c, b, p, j) && !NearHigh(c, b, p, j)
    ensures Slid(c, b, p) == b && Slabs(c, b, p) == []
  {
    assert Slid(c, b, p).vmin == b.vmin && Slid(c, b, p).vmax == b.vmax;
  }

  // ----- one slide -----

  lemma SlabAt(c: Setup, b: Box, p: Vec, i: int)
    requires 0 <= i < 3
    ensures forall s :: s in Slab(c, b, p, i) ==> s in Slabs(c, b, p)
  {
  }

  lemma SlabAxis(c: Setup, b: Box, p: Vec, s: Box) returns (i: int)
    requires s in Slabs(c, b, p)
    ensures 0 <= i < 3 && Slab(c, b, p, i) == [s]
  {
    i := if s in Slab(c, b, p, 0) then 0 else if s in Slab(c, b, p, 1) then 1 else 2;
  }

  /** Every point of the old cube is in the new cube or in a deleted box. */
  lemma SlideCovers(c: Setup, b: Box, p: Vec, q: Vec)
    requires SetupOk(c) && Inside(b, q)
    ensures Inside(Slid(c, b, p), q) || exists s :: s in Slabs(c, b, p) && Inside(s, q)
  {
    if i :| 0 <= i < 3 && !(Slid(c, b, p).vmin[i] <= q[i] <= Slid(c, b, p).vmax[i]) {
      assert MoveDist(c) > 0.0;
      var s := Slab(c, b, p, i)[0];
      SlabAt(c, b, p, i);
      assert Inside(s, q);
    }
  }

  /** A deleted box meets the new cube only on a face of the new cube. */
  lemma SlabTouchesFace(c: Setup, b: Box, p: Vec, s: Box, q: Vec)
    requires s in Slabs(c, b, p) && Inside(s, q) && Inside(Slid(c, b, p), q)
    ensures exists i :: 0 <= i < 3 && (q[i] == Slid(c, b, p).vmin[i] || q[i] == Slid(c, b, p).vmax[i])
  {
    var i := SlabAxis(c, b, p, s);
    assert q[i] == Slid(c, b, p).vmin[i] || q[i] == Slid(c, b, p).vmax[i];
  }

  ghost predicate IsCube(c: Setup, b: Box) {
    forall i :: 0 <= i < 3 ==> b.vmax[i] - b.vmin[i] == c.cubeLen
  }

  lemma SlideKeepsCube(c: Setup, b: Box, p: Vec)
    requires IsCube(c, b)
    ensures IsCube(c, Slid(c, b, p))
  {
  }

  function Square(a: real): real { Times(a, a) }

  function DistanceSquared(p: Vec, q: Vec): real {
    Square(p[0] - q[0]) + Square(p[1] - q[1]) + Square(p[2] - q[2])
  }

  lemma SquareGrows(a: real, d: real)
    requires d >= 0.0 && Abs(a) >= d
    ensures Square(a) >= Square(d)
  {
    var m := Abs(a);
    assert Square(a) == m * m;
    assert m * m - d * d == (m - d) * (m + d);
    assert (m - d) * (m + d) >= 0.0;
  }

  /** No slide of the cube deletes a point nearer than the detection range to the LiDAR. */
  ghost predicate DeletesOnlyFar(c: Setup, b: Box, p: Vec) {
    forall s, q :: s in Slabs(c, b, p) && Inside(s, q) ==> DistanceSquared(p, q) >= Square(c.detRange)
  }

  lemma SlabFar(c: Setup, b: Box, p: Vec, s: Box, q: Vec)
    requires SetupOk(c) && IsCube(c, b) && c.cubeLen >= 3.0 * c.detRange
    requires s in Slabs(c, b, p) && Inside(s, q)
    ensures DistanceSquared(p, q) >= Square(c.detRange)
  {
    var i := SlabAxis(c, b, p, s);
    assert b.vmax[i] - b.vmin[i] == c.cubeLen;
    SquareGrows(p[i] - q[i], c.detRange);
    SquareGrows(p[0] - q[0], 0.0);
    SquareGrows(p[1] - q[1], 0.0);
    SquareGrows(p[2] - q[2], 0.0);
  }

  lemma ShortCubeDeletesNear(c: Setup, b: Box) returns (p: Vec)
    requires SetupOk(c) && IsCube(c, b) && c.cubeLen < 3.0 * c.detRange
    ensures !DeletesOnlyFar(c, b, p)
  {
    var reach := MOV_THRESHOLD * c.detRange;
    var x := if c.cubeLen <= reach then b.vmax[0] else b.vmin[0] + reach;
    p := [x, b.vmin[1], b.vmin[2]];
    assert NearLow(c, b, p, 0) && MoveDist(c) == 0.5 * c.detRange;
    var s := Slab(c, b, p, 0)[0];
    SlabAt(c, b, p, 0);
    var edge := if x > b.vmax[0] - MoveDist(c) then x else b.vmax[0] - MoveDist(c);
    var q := [edge, b.vmin[1], b.vmin[2]];
    assert b.vmax[0] - b.vmin[0] == c.cubeLen && b.vmax[1] - b.vmin[1] == c.cubeLen && b.vmax[2] - b.vmin[2] == c.cubeLen;
    assert Inside(s, q);
    assert DistanceSquared(p, q) == Square(edge - x) < Square(c.detRange) by {
      NearSquare(edge - x, c.detRange);
    }
  }

  lemma NearSquare(a: real, d: real)
    requires 0.0 <= a < d
    ensures Square(a) < Square(d)
  {
    hide Times;
    ScaleLeft(a, a, d);
    ScaleRight(a, d, d);
  }

  /** The map near the LiDAR is safe from every slide, wherever the LiDAR is, exactly when the cube side is at
      least three detection ranges. */
  lemma DeletesOnlyFarIff(c: Setup, b: Box)
    requires SetupOk(c) && IsCube(c, b)
    ensures c.cubeLen >= 3.0 * c.detRange <==> forall p: Vec :: DeletesOnlyFar(c, b, p)
  {
    if c.cubeLen >= 3.0 * c.detRange {
      forall p: Vec, s, q | s in Slabs(c, b, p) && Inside(s, q)
        ensures DistanceSquared(p, q) >= Square(c.detRange)
      {
        SlabFar(c, b, p, s, q);
      }
    } else {
      var p := ShortCubeDeletesNear(c, b);
    }
  }

  // ----- runs -----

  /** The cube after the LiDAR visited the given positions. */
  function CubeAfter(c: Setup, start: Vec, track: seq<Vec>): Box {
    if track == [] then Around(c, start) else Slid(c, CubeAfter(c, start, track[..|track| - 1]), track[|track| - 1])
  }

  function DeletedBy(c: Setup, start: Vec, track: seq<Vec>): seq<Box> {
    if track == [] then []
    else DeletedBy(c, start, track[..|track| - 1]) +
         Slabs(c, CubeAfter(c, start, track[..|track| - 1]), track[|track| - 1])
  }

  lemma {:induction false} RunKeepsCube(c: Setup, start: Vec, track: seq<Vec>)
    ensures IsCube(c, CubeAfter(c, start, track))
  {
    if track != [] {
      RunKeepsCube(c, start, track[..|track| - 1]);
      SlideKeepsCube(c, CubeAfter(c, start, track[..|track| - 1]), track[|track| - 1]);
    }
  }

  /** Nothing slips away: a point ever inside the cube is inside now, or some slide deleted a box holding it. */
  lemma {:induction false} PointsAccountedFor(c: Setup, start: Vec, track: seq<Vec>, n: nat, q: Vec)
    requires SetupOk(c) && n <= |track| && Inside(CubeAfter(c, start, track[..n]), q)
    ensures Inside(CubeAfter(c, start, track), q) || exists s :: s in DeletedBy(c, start, track) && Inside(s, q)
    decreases |track|
  {
    if n == |track| {
      assert track[..n] == track;
    } else {
      var front := track[..|track| - 1];
      assert front[..n] == track[..n];
      PointsAccountedFor(c, start, front, n, q);
      if Inside(CubeAfter(c, start, front), q) {
        SlideCovers(c, CubeAfter(c, start, front), track[|track| - 1], q);
      }
    }
  }

  /** A LiDAR that has not moved since the cube was laid around it is already within reach of every edge. */
  lemma ShortCubeDeletesAtOnce(c: Setup, p: Vec)
    requires SetupOk(c) && c.cubeLen < 3.0 * c.detRange
    ensures !DeletesOnlyFar(c, Around(c, p), p)
  {
    var b := Around(c, p);
    assert NearLow(c, b, p, 0) && MoveDist(c) == 0.5 * c.detRange;
    var s := Slab(c, b, p, 0)[0];
    SlabAt(c, b, p, 0);
    var x := if c.cubeLen <= c.detRange then p[0] else p[0] + c.cubeLen / 2.0 - 0.5 * c.detRange;
    var q := [x, p[1], p[2]];
    assert Inside(s, q);
    assert DistanceSquared(p, q) < Square(c.detRange) by {
      NearSquare(x - p[0], c.detRange);
      SquareMirror(p[0] - x);
    }
  }

  lemma SquareMirror(a: real)
    ensures Square(a) == Square(-a) && Square(0.0) == 0.0
  {
  }

  /** On the first tick after initialization, with the LiDAR standing still, points nearer than the detection range
      survive exactly when the cube side is at least three detection ranges. */
  lemma StationaryIff(c: Setup, p: Vec)
    requires SetupOk(c)
    ensures c.cubeLen >= 3.0 * c.detRange <==> DeletesOnlyFar(c, Around(c, p), p)
  {
    if c.cubeLen >= 3.0 * c.detRange {
      DeletesOnlyFarIff(c, Around(c, p));
    } else {
      ShortCubeDeletesAtOnce(c, p);
    }
  }

  /** No slide of any run deletes near the LiDAR, exactly when the cube is long enough; a shorter cube fails on the
      first tick wherever it starts. */
  lemma RunDeletesOnlyFarIff(c: Setup, start: Vec)
    requires SetupOk(c)
    ensures c.cubeLen >= 3.0 * c.detRange <==>
      forall track: seq<Vec>, p: Vec :: DeletesOnlyFar(c, CubeAfter(c, start, track), p)
  {
    if c.cubeLen >= 3.0 * c.detRange {
      forall track: seq<Vec>, p: Vec ensures DeletesOnlyFar(c, CubeAfter(c, start, track), p) {
        RunKeepsCube(c, start, track);
        DeletesOnlyFarIff(c, CubeAfter(c, start, track));
      }
    } else {
      StationaryIff(c, start);
      assert CubeAfter(c, start, []) == Around(c, start);
    }
  }

  // ----- when and how far the cube slides -----

  /** No axis slides exactly when every face is farther from the LiDAR than one and a half detection ranges. */
  lemma SlidesIff(c: Setup, b: Box, p: Vec)
    requires SetupOk(c)
    ensures (Slid(c, b, p) == b && Slabs(c, b, p) == []) <==>
      forall j :: 0 <= j < 3 ==>
        (p[j] - b.vmin[j] > 1.5 * c.detRange || b.vmin[j] - p[j] > 1.5 * c.detRange) &&
        (p[j] - b.vmax[j] > 1.5 * c.detRange || b.vmax[j] - p[j] > 1.5 * c.detRange)
  {
    if forall j :: 0 <= j < 3 ==> !NearLow(c, b, p, j) && !NearHigh(c, b, p, j) {
      StaysPut(c, b, p);
    } else {
      var j :| 0 <= j < 3 && (NearLow(c, b, p, j) || NearHigh(c, b, p, j));
      SlabAt(c, b, p, j);
      assert Slab(c, b, p, j)[0] in Slab(c, b, p, j);
    }
  }

  /** A near axis slides toward the LiDAR's side, the low side first, by nine twentieths of what the cube side has over
      three detection ranges, or by half a detection range if that is more. */
  lemma SlideAmount(c: Setup, b: Box, p: Vec, j: int)
    requires SetupOk(c) && 0 <= j < 3
    ensures var over, half := 9.0 * (c.cubeLen - 3.0 * c.detRange), 10.0 * c.detRange;
            var step := 20.0 * (Slid(c, b, p).vmin[j] - b.vmin[j]);
            Slid(c, b, p).vmax[j] - b.vmax[j] == Slid(c, b, p).vmin[j] - b.vmin[j] &&
            step == if NearLow(c, b, p, j) then -Max(over, half) else if NearHigh(c, b, p, j) then Max(over, half) else 0.0
  {
  }

  /** A single slide leaves every face out of reach. */
  ghost predicate SettlesAtOnce(c: Setup, b: Box, p: Vec) {
    Slid(c, Slid(c, b, p), p) == Slid(c, b, p) && Slabs(c, Slid(c, b, p), p) == []
  }

  lemma AxisSettles(c: Setup, b: Box, p: Vec, j: int)
    requires SetupOk(c) && IsCube(c, b) && 3.0 * c.cubeLen > 19.0 * c.detRange && 0 <= j < 3
    requires b.vmin[j] <= p[j] <= b.vmax[j]
    ensures !NearLow(c, Slid(c, b, p), p, j) && !NearHigh(c, Slid(c, b, p), p, j)
  {
    assert b.vmax[j] - b.vmin[j] == c.cubeLen;
    assert MoveDist(c) == 0.45 * (c.cubeLen - 3.0 * c.detRange);
  }

  /** From anywhere inside the cube one slide settles it, exactly when its side is more than nineteen thirds of the
      detection range. */
  lemma SettlesAtOnceIff(c: Setup, b: Box)
    requires SetupOk(c) && IsCube(c, b)
    ensures 3.0 * c.cubeLen > 19.0 * c.detRange <==> forall p: Vec :: Inside(b, p) ==> SettlesAtOnce(c, b, p)
  {
    if 3.0 * c.cubeLen > 19.0 * c.detRange {
      forall p: Vec | Inside(b, p) ensures SettlesAtOnce(c, b, p) {
        forall j | 0 <= j < 3 ensures !NearLow(c, Slid(c, b, p), p, j) && !NearHigh(c, Slid(c, b, p), p, j) {
          AxisSettles(c, b, p, j);
        }
        StaysPut(c, Slid(c, b, p), p);
      }
    } else {
      assert b.vmax[0] - b.vmin[0] == c.cubeLen && b.vmax[1] - b.vmin[1] == c.cubeLen && b.vmax[2] - b.vmin[2] == c.cubeLen;
      assert Inside(b, b.vmin);
      CornerSlidesAgain(c, b);
    }
  }

  lemma CornerSlidesAgain(c: Setup, b: Box)
    requires SetupOk(c) && IsCube(c, b) && 3.0 * c.cubeLen <= 19.0 * c.detRange
    ensures !SettlesAtOnce(c, b, b.vmin)
  {
    var p, s := b.vmin, Slid(c, b, b.vmin);
    assert NearLow(c, b, p, 0) && s.vmin[0] == p[0] - MoveDist(c);
    assert NearLow(c, s, p, 0);
    SlabAt(c, s, p, 0);
    assert Slab(c, s, p, 0)[0] in Slab(c, s, p, 0);
  }
}
