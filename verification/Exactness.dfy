/** Exactly when the search is exact: the low-side margin, for tables of points and for real scans alike. */
module Exactness {
  import opened Arith
  import opened Pyramid
  import opened Scoring
  import opened Yaws
  import opened Search
  import opened Optimality
  import opened Bbs
  import opened Traps
  import opened Counterexamples

  /** The search's input for one scan, in cell units, at the yaws of an angular resolution. */
  function RealInput(occ: BoolGrid, depth: nat, pts: seq<Pt>, angularResolution: real, t: Trig, k: nat, radius: int): Input
    requires angularResolution > 0.0 && t.pi > 0.0
  {
    Input(occ, depth, ScanTable(pts, angularResolution, t), k, radius)
  }

  /** The search instance of a real input: the map's cells, the sampled yaws, the levels of the pyramid, the settings,
      and for every pose the reference score of the turned scan. */
  lemma RealInstance(occ: BoolGrid, depth: nat, pts: seq<Pt>, angularResolution: real, t: Trig, k: nat, radius: int)
    requires angularResolution > 0.0 && t.pi > 0.0
    ensures var P := Instance(RealInput(occ, depth, pts, angularResolution, t, k, radius));
            P.h == occ.h && P.w == occ.w && P.yaws == |YawSamples(angularResolution, t.pi)| && P.k == k &&
            P.radius == radius && P.top + 1 == |PyramidOf(occ, depth)| &&
            forall p :: InGrid(P, p) ==>
              Exact(P, p) == ScoreGrid(occ, ScanTable(pts, angularResolution, t)[p.yaw], p.tx, p.ty, 1)
  {
    hide ScanTable, PyramidOf, ScoreGrid, Exact;
    var i := RealInput(occ, depth, pts, angularResolution, t, k, radius);
    InstanceParts(i);
    forall p | InGrid(Instance(i), p)
      ensures Exact(Instance(i), p) == ScoreGrid(occ, ScanTable(pts, angularResolution, t)[p.yaw], p.tx, p.ty, 1)
    {
      ExactIsScore(i, p);
    }
  }

  lemma TrapMisses(i: Input, trap: Trap)
    requires IsTrap(trap) && trap.P == Instance(i)
    ensures !ExactOn(i)
  {
    hide IsTopK, Result;
    TrapFails(trap);
    TrapSize(trap);
    InstanceParts(i);
  }

  lemma CoarseLevels(occ: BoolGrid, depth: nat, a: int)
    requires 0 <= a < Pow2(Top(occ, depth)) - 1
    ensures |PyramidOf(occ, depth)| > 1
  {
  }

  /** A map with an occupied cell off the margin along ax has a real scan that the search gets wrong. */
  lemma RealTrap(ax: Axis, occ: BoolGrid, depth: nat, t: Trig, a: int, c: int)
    returns (pts: seq<Pt>, angularResolution: real)
    requires TrigOk(t) && Occ(ax, occ, a, c) && a < Pow2(Top(occ, depth)) - 1 && a < Len(ax, occ) - 1
    ensures angularResolution > 0.0 && !ExactOn(RealInput(occ, depth, pts, angularResolution, t, 1, 0))
  {
    hide PyramidOf, ExactOn, IsTrap, ScanTable, Occ;
    OccInside(ax, occ, a, c);
    CoarseLevels(occ, depth, a);
    if a1, c1 :| Occ(ax, occ, a1, c1) && a1 >= 1 {
      var fa, fc := FirstOccupied(ax, occ, a, c);
      var la, lc := LastOccupied(ax, occ, a, c);
      pts, angularResolution := PinTrapReal(ax, occ, depth, t, Marks(a, c, a1, c1, fa, fc, la, lc));
    } else {
      FirstLine(ax, occ, a, c);
      if Len(ax, occ) == 2 {
        pts, angularResolution := EdgeScan(ax, false), t.pi;
        EdgeAbout(ax);
        TwoYawTable(pts, EdgeScan(ax, true), t);
        var i := RealInput(occ, depth, pts, angularResolution, t, 1, 0);
        EdgeIsTrap(ax, i, c);
        TrapMisses(i, EdgeTrap(ax, i, c));
      } else {
        pts, angularResolution := BackScan(ax), 2.0 * t.pi;
        OneYawTable(pts, t);
        var i := RealInput(occ, depth, pts, angularResolution, t, 1, 0);
        BackIsTrap(ax, i, c);
        TrapMisses(i, BackTrap(ax, i, c));
      }
    }
  }

  lemma FirstLine(ax: Axis, occ: BoolGrid, a: int, c: int)
    requires Occ(ax, occ, a, c) && forall a1, c1 :: Occ(ax, occ, a1, c1) ==> a1 < 1
    ensures a == 0 && FirstLineOnly(ax, occ, c)
  {
    forall a1, c1 | Occ(ax, occ, a1, c1) ensures a1 == 0 {
      OccInside(ax, occ, a1, c1);
    }
  }

  lemma EdgeAbout(ax: Axis)
    ensures |EdgeScan(ax, true)| == |EdgeScan(ax, false)|
    ensures forall k :: 0 <= k < |EdgeScan(ax, false)| ==> EdgeScan(ax, true)[k] == Opposite(EdgeScan(ax, false)[k])
  {
    assert -(0.0) == 0.0;
  }

  lemma PinTrapReal(ax: Axis, occ: BoolGrid, depth: nat, t: Trig, m: Marks)
    returns (pts: seq<Pt>, angularResolution: real)
    requires TrigOk(t) && |PyramidOf(occ, depth)| > 1
    requires MarksOk(ax, Input(occ, depth, [], 1, 0), m)
    ensures angularResolution > 0.0 && !ExactOn(RealInput(occ, depth, pts, angularResolution, t, 1, 0))
  {
    hide PyramidOf, ExactOn, IsTrap, ScanTable, Occ;
    pts, angularResolution := PinScan(ax, m, false), t.pi;
    TwoYawTable(pts, PinScan(ax, m, true), t);
    var i := RealInput(occ, depth, pts, angularResolution, t, 1, 0);
    PinIsTrap(ax, i, m);
    TrapMisses(i, PinTrap(ax, i, m));
  }

  /** The search ranks exactly, suppression off, if and only if the occupied cells keep the margin of the start
      level: for every scan, angular resolution and k, whatever cosine and sine are elsewhere than at 0 and -pi. */
  lemma SearchExactIff(occ: BoolGrid, depth: nat, t: Trig)
    requires TrigOk(t)
    ensures MarginOk(occ, Pow2(Top(occ, depth))) <==>
      forall pts: seq<Pt>, angularResolution: real, k: nat, radius: int ::
        angularResolution > 0.0 && k > 0 && radius <= 0 ==>
          ExactOn(RealInput(occ, depth, pts, angularResolution, t, k, radius))
  {
    hide ExactOn, ScanTable, PyramidOf;
    if MarginOk(occ, Pow2(Top(occ, depth))) {
      forall pts: seq<Pt>, angularResolution: real, k: nat, radius: int | angularResolution > 0.0 && k > 0 && radius <= 0
        ensures ExactOn(RealInput(occ, depth, pts, angularResolution, t, k, radius))
      {
        MarginMakesExact(RealInput(occ, depth, pts, angularResolution, t, k, radius));
      }
    } else {
      var pts, angularResolution := BrokenMargin(occ, depth, t);
    }
  }

  lemma BrokenMargin(occ: BoolGrid, depth: nat, t: Trig) returns (pts: seq<Pt>, angularResolution: real)
    requires TrigOk(t) && !MarginOk(occ, Pow2(Top(occ, depth)))
    ensures angularResolution > 0.0 && !ExactOn(RealInput(occ, depth, pts, angularResolution, t, 1, 0))
  {
    hide ExactOn, RealInput, PyramidOf;
    var f := Pow2(Top(occ, depth));
    var y, x :| occ.At(y, x) && !((y >= f - 1 || y == occ.h - 1) && (x >= f - 1 || x == occ.w - 1));
    if x < f - 1 && x != occ.w - 1 {
      pts, angularResolution := RealTrap(X, occ, depth, t, x, y);
    } else {
      pts, angularResolution := RealTrap(Y, occ, depth, t, y, x);
    }
  }

  /** The same over every table of rotated points, one list a yaw, rotations of one scan or not. */
  lemma TableExactIff(occ: BoolGrid, depth: nat, t: Trig)
    requires TrigOk(t)
    ensures MarginOk(occ, Pow2(Top(occ, depth))) <==>
      forall i: Input :: i.occ == occ && i.depth == depth && i.k > 0 && i.radius <= 0 ==> ExactOn(i)
  {
    hide ExactOn, ScanTable, PyramidOf;
    if MarginOk(occ, Pow2(Top(occ, depth))) {
      forall i: Input | i.occ == occ && i.depth == depth && i.k > 0 && i.radius <= 0 ensures ExactOn(i) {
        MarginMakesExact(i);
      }
    } else {
      var pts, angularResolution := BrokenMargin(occ, depth, t);
    }
  }

  /** The smallest case: a 1 x 3 map with its first cell occupied, one yaw, three points. The pose scoring 2 of 3 is
      missed, because both its points fall in coarse column -1 of its parent. */
  lemma UnrotatedMiss(i: Input)
    requires i.occ == Grid(1, 3, [[true, false, false]]) && i.depth == 1
    requires i.scan == [[Pt(-1.0, 0.0), Pt(-1.0, 0.0), Pt(-2.0, 0.0)]] && i.k == 1 && i.radius == 0
    ensures !ExactOn(i)
  {
    assert PyramidOf(i.occ, 1) == [i.occ] + PyramidOf(MaxPool(i.occ), 0);
    BackIsTrap(X, i, 0);
    TrapMisses(i, BackTrap(X, i, 0));
  }
}
