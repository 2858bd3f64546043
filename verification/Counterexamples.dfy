/** Necessity of the margin: every map that breaks it has a real scan whose best pose the search misses. */
module Counterexamples {
  import opened Arith
  import opened Pyramid
  import opened Scoring
  import opened Search
  import opened Frontier
  import opened Optimality
  import opened Bbs
  import opened Traps
  import opened Yaws

  // ----- one axis along which the margin is broken, and the axis across it -----

  datatype Axis = X | Y

  function PtOf(ax: Axis, a: real, c: real): Pt { if ax.X? then Pt(a, c) else Pt(c, a) }

  function PoseOf(ax: Axis, yaw: int, a: int, c: int): Pose { if ax.X? then Pose(yaw, c, a) else Pose(yaw, a, c) }

  function Along(ax: Axis, ty: int, tx: int): int { if ax.X? then tx else ty }

  function Across(ax: Axis, ty: int, tx: int): int { if ax.X? then ty else tx }

  predicate Occ(ax: Axis, g: BoolGrid, a: int, c: int) {
    if ax.X? then g.At(c, a) else g.At(a, c)
  }

  function Len(ax: Axis, g: BoolGrid): nat { if ax.X? then g.w else g.h }

  function Wid(ax: Axis, g: BoolGrid): nat { if ax.X? then g.h else g.w }

  /** The whole-cell offset of a rotated coordinate. */
  function Off(r: real): int { (0.5 + r).Floor }

  lemma OccInside(ax: Axis, g: BoolGrid, a: int, c: int)
    requires Occ(ax, g, a, c)
    ensures 0 <= a < Len(ax, g) && 0 <= c < Wid(ax, g)
  {
  }

  lemma HitAlong(ax: Axis, g: BoolGrid, ra: real, rc: real, ty: int, tx: int, f: int)
    requires f > 0
    ensures Hit(g, PtOf(ax, ra, rc), tx, ty, f)
         == One(Occ(ax, g, (Along(ax, ty, tx) + Off(ra)) / f, (Across(ax, ty, tx) + Off(rc)) / f))
  {
    var p := PtOf(ax, ra, rc);
    CoarseCell(ty, p.y, f);
    CoarseCell(tx, p.x, f);
    hide CellOf;
  }

  /** A cell near an occupied one's block is true on the level's grid. */
  lemma NearBlock(ax: Axis, occ: BoolGrid, depth: nat, l: nat, a: int, c: int, ka: int, kc: int)
    requires l < |PyramidOf(occ, depth)| && Occ(ax, occ, a, c)
    requires var f := Pow2(l); 0 <= ka && 0 <= kc && a / f - 1 <= ka <= a / f && c / f - 1 <= kc <= c / f
    requires l == 0 ==> ka == a && kc == c
    ensures Occ(ax, UpperLevel(occ, depth, l), ka, kc)
  {
    hide PyramidOf, Dilate, Pow2;
    OccInside(ax, occ, a, c);
    if l > 0 {
      var f := Pow2(l);
      DivBounds(a, f, Len(ax, occ));
      DivBounds(c, f, Wid(ax, occ));
      if ax.X? {
        UpperNear(occ, depth, l, c, a, kc, ka);
      } else {
        UpperNear(occ, depth, l, a, c, ka, kc);
      }
    }
  }

  /** A node sees the cell that an offset reaches from a pose below it, unless the offset leaves the low edge. */
  lemma SeesCell(ax: Axis, occ: BoolGrid, depth: nat, l: nat, na: int, nc: int, va: int, vc: int, oa: int, oc: int)
    requires l < |PyramidOf(occ, depth)| && Occ(ax, occ, va + oa, vc + oc)
    requires na <= va < na + Pow2(l) && nc <= vc < nc + Pow2(l) && na + oa >= 0 && nc + oc >= 0
    ensures Occ(ax, UpperLevel(occ, depth, l), (na + oa) / Pow2(l), (nc + oc) / Pow2(l))
  {
    hide PyramidOf, UpperLevel, Occ, Pow2;
    var f := Pow2(l);
    DivStep(va + oa, va - na, f);
    DivStep(vc + oc, vc - nc, f);
    DivBounds(na + oa, f, 0);
    DivBounds(nc + oc, f, 0);
    if l == 0 {
      UnitDiv(na + oa);
      UnitDiv(va + oa);
      UnitDiv(nc + oc);
      UnitDiv(vc + oc);
    }
    NearBlock(ax, occ, depth, l, va + oa, vc + oc, (na + oa) / f, (nc + oc) / f);
  }

  lemma UnitDiv(a: int)
    ensures Pow2(0) == 1 && a / 1 == a
  {
  }

  // ----- scores of short scans -----

  lemma ScoreCons(g: BoolGrid, s: seq<Pt>, p: Pt, rest: seq<Pt>, tx: int, ty: int, f: int)
    requires f > 0 && s == [p] + rest
    ensures ScoreGrid(g, s, tx, ty, f) == Hit(g, p, tx, ty, f) + ScoreGrid(g, rest, tx, ty, f)
  {
    assert s[0] == p && s[1..] == rest;
  }

  lemma ScoreThree(g: BoolGrid, a: Pt, b: Pt, tx: int, ty: int, f: int)
    requires f > 0
    ensures ScoreGrid(g, [a, a, b], tx, ty, f) == 2 * Hit(g, a, tx, ty, f) + Hit(g, b, tx, ty, f)
  {
    ScoreCons(g, [a, a, b], a, [a, b], tx, ty, f);
    ScoreCons(g, [a, b], a, [b], tx, ty, f);
    ScoreCons(g, [b], b, [], tx, ty, f);
  }

  lemma ScoreFive(g: BoolGrid, p: Pt, a: Pt, b: Pt, tx: int, ty: int, f: int)
    requires f > 0
    ensures ScoreGrid(g, [p, p, p, a, b], tx, ty, f)
         == 3 * Hit(g, p, tx, ty, f) + Hit(g, a, tx, ty, f) + Hit(g, b, tx, ty, f)
  {
    ScoreCons(g, [p, p, p, a, b], p, [p, p, a, b], tx, ty, f);
    ScoreCons(g, [p, p, a, b], p, [p, a, b], tx, ty, f);
    ScoreCons(g, [p, a, b], p, [a, b], tx, ty, f);
    ScoreCons(g, [a, b], a, [b], tx, ty, f);
    ScoreCons(g, [b], b, [], tx, ty, f);
  }

  /** Whether offset (oa, oc) hits, at a node of level l starting at (na, nc). */
  function Sees(i: Input, ax: Axis, l: nat, na: int, nc: int, oa: int, oc: int): nat {
    if l < |PyramidOf(i.occ, i.depth)|
    then One(Occ(ax, UpperLevel(i.occ, i.depth, l), (na + oa) / Pow2(l), (nc + oc) / Pow2(l)))
    else 0
  }

  lemma SeesExactly(i: Input, ax: Axis, a: int, c: int, oa: int, oc: int)
    ensures Sees(i, ax, 0, a, c, oa, oc) == One(Occ(ax, i.occ, a + oa, c + oc))
  {
    UnitDiv(a + oa);
    UnitDiv(c + oc);
  }

  /** The node of level 0 at a pose: its bound is the exact score. */
  function LeafOf(P: Problem, p: Pose): Node {
    Node(P.bound(0, p.yaw, p.ty, p.tx), 0, 0, p.ty, p.tx, p.yaw)
  }

  lemma LeafIsExact(i: Input, p: Pose)
    requires InGrid(Instance(i), p)
    ensures NodeOk(Instance(i), LeafOf(Instance(i), p)) && LeafOf(Instance(i), p).bound == Exact(Instance(i), p)
  {
    UnitDiv(p.ty);
    UnitDiv(p.tx);
  }

  lemma BoundThree(i: Input, ax: Axis, n: Node, ra: real, rc: real, qa: real, qc: real)
    requires NodeOk(Instance(i), n)
    requires i.scan[n.yaw] == [PtOf(ax, ra, rc), PtOf(ax, ra, rc), PtOf(ax, qa, qc)]
    ensures var na, nc := Along(ax, n.ty, n.tx), Across(ax, n.ty, n.tx);
            n.bound == 2 * Sees(i, ax, n.level, na, nc, Off(ra), Off(rc)) + Sees(i, ax, n.level, na, nc, Off(qa), Off(qc))
  {
    hide ScoreGrid, Hit, UpperLevel, PyramidOf, Occ, Off;
    var f, up := Pow2(n.level), UpperLevel(i.occ, i.depth, n.level);
    BoundIsScore(i, n.level, n.yaw, n.ty, n.tx);
    ScoreThree(up, PtOf(ax, ra, rc), PtOf(ax, qa, qc), n.tx, n.ty, f);
    HitAlong(ax, up, ra, rc, n.ty, n.tx, f);
    HitAlong(ax, up, qa, qc, n.ty, n.tx, f);
  }

  lemma ExactThree(i: Input, ax: Axis, p: Pose, ra: real, rc: real, qa: real, qc: real)
    requires InGrid(Instance(i), p)
    requires i.scan[p.yaw] == [PtOf(ax, ra, rc), PtOf(ax, ra, rc), PtOf(ax, qa, qc)]
    ensures var a, c := Along(ax, p.ty, p.tx), Across(ax, p.ty, p.tx);
            Exact(Instance(i), p) == 2 * One(Occ(ax, i.occ, a + Off(ra), c + Off(rc))) +
                                     One(Occ(ax, i.occ, a + Off(qa), c + Off(qc)))
  {
    hide Sees, Exact, Instance, NodeOk, Occ, Off;
    var a, c := Along(ax, p.ty, p.tx), Across(ax, p.ty, p.tx);
    LeafIsExact(i, p);
    BoundThree(i, ax, LeafOf(Instance(i), p), ra, rc, qa, qc);
    SeesExactly(i, ax, a, c, Off(ra), Off(rc));
    SeesExactly(i, ax, a, c, Off(qa), Off(qc));
  }

  /** Where a node that covers a pose starts, along either axis. */
  lemma StartsAt(P: Problem, ax: Axis, n: Node, p: Pose)
    requires NodeOk(P, n) && Covers(n, p)
    ensures var f, na, nc := Pow2(n.level), Along(ax, n.ty, n.tx), Across(ax, n.ty, n.tx);
            na % f == 0 && na >= 0 && na <= Along(ax, p.ty, p.tx) < na + f &&
            nc % f == 0 && nc >= 0 && nc <= Across(ax, p.ty, p.tx) < nc + f && n.yaw == p.yaw
  {
  }

  /** Every occupied cell lies in the first line along the axis, and there is one at c0. */
  ghost predicate FirstLineOnly(ax: Axis, occ: BoolGrid, c0: int) {
    Occ(ax, occ, 0, c0) && forall a, c :: Occ(ax, occ, a, c) ==> a == 0
  }

  ghost predicate SearchInput(i: Input) {
    i.k == 1 && i.radius <= 0 && |PyramidOf(i.occ, i.depth)| > 1
  }

  lemma InstanceParts(i: Input)
    ensures var P := Instance(i);
            P.h == i.occ.h && P.w == i.occ.w && P.yaws == |i.scan| && P.k == i.k && P.radius == i.radius &&
            P.top == Top(i.occ, i.depth)
  {
  }

  // ----- first line only, at least three lines: one yaw -----

  /** Twice one cell back and once two cells back. */
  function BackScan(ax: Axis): seq<Pt> {
    [PtOf(ax, -1.0, 0.0), PtOf(ax, -1.0, 0.0), PtOf(ax, -2.0, 0.0)]
  }

  ghost predicate BackInput(ax: Axis, i: Input, c0: int) {
    SearchInput(i) && FirstLineOnly(ax, i.occ, c0) && Len(ax, i.occ) >= 3 && i.scan == [BackScan(ax)]
  }

  function BackTrap(ax: Axis, i: Input, c0: int): Trap {
    Trap(Instance(i), (g: Pose) => Along(ax, g.ty, g.tx) == 1 && Occ(ax, i.occ, 0, Across(ax, g.ty, g.tx)),
         (g: Pose) => PoseOf(ax, 0, 2, Across(ax, g.ty, g.tx)), PoseOf(ax, 0, 1, c0), 1, 1)
  }

  lemma BackOffsets()
    ensures Off(-1.0) == -1 && Off(-2.0) == -2 && Off(0.0) == 0
  {
  }

  lemma BackExact(ax: Axis, i: Input, c0: int, p: Pose)
    requires BackInput(ax, i, c0) && InGrid(Instance(i), p)
    ensures var a, c := Along(ax, p.ty, p.tx), Across(ax, p.ty, p.tx);
            Exact(Instance(i), p) == if !Occ(ax, i.occ, 0, c) then 0 else if a == 1 then 2 else if a == 2 then 1 else 0
  {
    hide Occ, Exact, NodeBound, PyramidOf;
    BackOffsets();
    ExactThree(i, ax, p, -1.0, 0.0, -2.0, 0.0);
    hide Off;
  }

  lemma BackBound(ax: Axis, i: Input, c0: int, n: Node)
    requires BackInput(ax, i, c0) && NodeOk(Instance(i), n)
    ensures var na, nc := Along(ax, n.ty, n.tx), Across(ax, n.ty, n.tx);
            n.bound == 2 * Sees(i, ax, n.level, na, nc, -1, 0) + Sees(i, ax, n.level, na, nc, -2, 0)
  {
    hide Sees, NodeBound, Occ;
    BackOffsets();
    BoundThree(i, ax, n, -1.0, 0.0, -2.0, 0.0);
    hide Off;
  }

  lemma BackHides(ax: Axis, i: Input, c0: int, n: Node, g: Pose)
    requires BackInput(ax, i, c0) && NodeOk(Instance(i), n) && n.level == 1 && Covers(n, g) && Along(ax, g.ty, g.tx) == 1
    ensures n.bound == 0 && !Covers(n, PoseOf(ax, 0, 2, Across(ax, g.ty, g.tx)))
  {
    hide NodeBound, UpperLevel, PyramidOf;
    assert Pow2(1) == 2;
    StartsAt(Instance(i), ax, n, g);
    BackBound(ax, i, c0, n);
  }

  lemma BackOutbids(ax: Axis, i: Input, c0: int, n: Node, c: int)
    requires BackInput(ax, i, c0) && NodeOk(Instance(i), n) && Occ(ax, i.occ, 0, c)
    requires Covers(n, PoseOf(ax, 0, 2, c)) && !Covers(n, PoseOf(ax, 0, 1, c))
    ensures n.bound >= 1
  {
    hide NodeBound, UpperLevel, PyramidOf, Occ;
    var f, na, nc := Pow2(n.level), Along(ax, n.ty, n.tx), Across(ax, n.ty, n.tx);
    StartsAt(Instance(i), ax, n, PoseOf(ax, 0, 2, c));
    assert na == 2;
    BackBound(ax, i, c0, n);
    SeesCell(ax, i.occ, i.depth, n.level, na, nc, 2, c, -2, 0);
  }

  lemma BackIsTrap(ax: Axis, i: Input, c0: int)
    requires BackInput(ax, i, c0)
    ensures IsTrap(BackTrap(ax, i, c0))
  {
    hide NodeBound, UpperLevel, PyramidOf, Exact, Covers, NodeOk;
    var P, t := Instance(i), BackTrap(ax, i, c0);
    InstanceParts(i);
    OccInside(ax, i.occ, 0, c0);
    assert Goal(t, t.prize);
    BackExact(ax, i, c0, t.prize);
    forall p | InGrid(P, p) && !t.goal(p) ensures Exact(P, p) < Exact(P, t.prize) {
      BackExact(ax, i, c0, p);
    }
    forall n, g | NodeOk(P, n) && n.level == t.level && Goal(t, g) && Covers(n, g)
      ensures n.bound < t.floor && !Covers(n, t.decoy(g))
    {
      BackHides(ax, i, c0, n, g);
    }
    forall n, g | NodeOk(P, n) && Goal(t, g) && Covers(n, t.decoy(g)) && !Covers(n, g) ensures n.bound >= t.floor {
      assert g == PoseOf(ax, 0, 1, Across(ax, g.ty, g.tx));
      BackOutbids(ax, i, c0, n, Across(ax, g.ty, g.tx));
    }
  }

  // ----- first line only, two lines: yaws 0 and pi -----

  /** Twice one cell back, and a point on a cell edge: two cells forward, or turned about, one cell back. */
  function EdgeScan(ax: Axis, turned: bool): seq<Pt> {
    if turned then [PtOf(ax, 1.0, 0.0), PtOf(ax, 1.0, 0.0), PtOf(ax, -1.5, 0.0)]
    else [PtOf(ax, -1.0, 0.0), PtOf(ax, -1.0, 0.0), PtOf(ax, 1.5, 0.0)]
  }

  ghost predicate EdgeInput(ax: Axis, i: Input, c0: int) {
    SearchInput(i) && FirstLineOnly(ax, i.occ, c0) && Len(ax, i.occ) == 2 &&
    i.scan == [EdgeScan(ax, false), EdgeScan(ax, true)]
  }

  function EdgeTrap(ax: Axis, i: Input, c0: int): Trap {
    Trap(Instance(i),
         (g: Pose) => g.yaw == 0 && Along(ax, g.ty, g.tx) == 1 && Occ(ax, i.occ, 0, Across(ax, g.ty, g.tx)),
         (g: Pose) => PoseOf(ax, 1, 1, Across(ax, g.ty, g.tx)), PoseOf(ax, 0, 1, c0), 1, 1)
  }

  lemma EdgeOffsets()
    ensures Off(-1.0) == -1 && Off(1.0) == 1 && Off(1.5) == 2 && Off(-1.5) == -1 && Off(0.0) == 0
  {
  }

  lemma EdgeExact(ax: Axis, i: Input, c0: int, p: Pose)
    requires EdgeInput(ax, i, c0) && InGrid(Instance(i), p)
    ensures var a, c := Along(ax, p.ty, p.tx), Across(ax, p.ty, p.tx);
            Exact(Instance(i), p) == if !Occ(ax, i.occ, 0, c) || a != 1 then 0 else if p.yaw == 0 then 2 else 1
  {
    hide Occ, Exact, NodeBound, PyramidOf;
    EdgeOffsets();
    if p.yaw == 0 {
      ExactThree(i, ax, p, -1.0, 0.0, 1.5, 0.0);
    } else {
      ExactThree(i, ax, p, 1.0, 0.0, -1.5, 0.0);
    }
    hide Off;
  }

  lemma EdgeBound(ax: Axis, i: Input, c0: int, n: Node)
    requires EdgeInput(ax, i, c0) && NodeOk(Instance(i), n)
    ensures var na, nc := Along(ax, n.ty, n.tx), Across(ax, n.ty, n.tx);
            n.bound == if n.yaw == 0 then 2 * Sees(i, ax, n.level, na, nc, -1, 0) + Sees(i, ax, n.level, na, nc, 2, 0)
                       else 2 * Sees(i, ax, n.level, na, nc, 1, 0) + Sees(i, ax, n.level, na, nc, -1, 0)
  {
    hide Sees, NodeBound, Occ;
    EdgeOffsets();
    if n.yaw == 0 {
      BoundThree(i, ax, n, -1.0, 0.0, 1.5, 0.0);
    } else {
      BoundThree(i, ax, n, 1.0, 0.0, -1.5, 0.0);
    }
    hide Off;
  }

  lemma EdgeHides(ax: Axis, i: Input, c0: int, n: Node, g: Pose)
    requires EdgeInput(ax, i, c0) && NodeOk(Instance(i), n) && n.level == 1 && Covers(n, g)
    requires g.yaw == 0 && Along(ax, g.ty, g.tx) == 1
    ensures n.bound == 0
  {
    hide NodeBound, PyramidOf;
    assert Pow2(1) == 2;
    StartsAt(Instance(i), ax, n, g);
    EdgeBound(ax, i, c0, n);
    LevelDims(i.occ, i.depth, 1);
  }

  lemma EdgeOutbids(ax: Axis, i: Input, c0: int, n: Node, c: int)
    requires EdgeInput(ax, i, c0) && NodeOk(Instance(i), n) && Occ(ax, i.occ, 0, c) && Covers(n, PoseOf(ax, 1, 1, c))
    ensures n.bound >= 1
  {
    hide NodeBound, UpperLevel, PyramidOf, Occ;
    var f, na, nc := Pow2(n.level), Along(ax, n.ty, n.tx), Across(ax, n.ty, n.tx);
    StartsAt(Instance(i), ax, n, PoseOf(ax, 1, 1, c));
    EdgeBound(ax, i, c0, n);
    if n.level == 0 {
      UnitDiv(0);
      SeesCell(ax, i.occ, i.depth, 0, na, nc, 1, c, -1, 0);
    } else {
      assert f >= 2 && na == 0;
      DivUnique(1, f, 0, 1);
      DivUnique(0, f, 0, 0);
      SameBlock(nc, c, f);
      NearBlock(ax, i.occ, i.depth, n.level, 0, c, 0, nc / f);
    }
  }

  lemma SameBlock(start: int, v: int, f: int)
    requires f > 0 && start % f == 0 && start <= v < start + f
    ensures start / f == v / f
  {
    assert start == f * (start / f);
    DivUnique(v, f, start / f, v - start);
  }

  lemma EdgeIsTrap(ax: Axis, i: Input, c0: int)
    requires EdgeInput(ax, i, c0)
    ensures IsTrap(EdgeTrap(ax, i, c0))
  {
    hide NodeBound, UpperLevel, PyramidOf, Exact, NodeOk;
    var P, t := Instance(i), EdgeTrap(ax, i, c0);
    InstanceParts(i);
    OccInside(ax, i.occ, 0, c0);
    assert Goal(t, t.prize);
    EdgeExact(ax, i, c0, t.prize);
    forall p | InGrid(P, p) && !t.goal(p) ensures Exact(P, p) < Exact(P, t.prize) {
      EdgeExact(ax, i, c0, p);
    }
    forall n, g | NodeOk(P, n) && n.level == t.level && Goal(t, g) && Covers(n, g)
      ensures n.bound < t.floor && !Covers(n, t.decoy(g))
    {
      EdgeHides(ax, i, c0, n, g);
    }
    forall n, g | NodeOk(P, n) && Goal(t, g) && Covers(n, t.decoy(g)) && !Covers(n, g) ensures n.bound >= t.floor {
      EdgeOutbids(ax, i, c0, n, Across(ax, g.ty, g.tx));
    }
  }

  // ----- an occupied cell beyond the first line: yaws 0 and pi -----

  predicate CellBefore(a: int, c: int, a': int, c': int) {
    c < c' || (c == c' && a < a')
  }

  lemma FirstOccupied(ax: Axis, occ: BoolGrid, a0: int, c0: int) returns (a: int, c: int)
    requires Occ(ax, occ, a0, c0)
    ensures Occ(ax, occ, a, c) && forall u, v :: Occ(ax, occ, u, v) ==> !CellBefore(u, v, a, c)
    decreases c0, a0
  {
    a, c := a0, c0;
    OccInside(ax, occ, a, c);
    if u, v :| Occ(ax, occ, u, v) && CellBefore(u, v, a0, c0) {
      OccInside(ax, occ, u, v);
      a, c := FirstOccupied(ax, occ, u, v);
    }
  }

  lemma LastOccupied(ax: Axis, occ: BoolGrid, a0: int, c0: int) returns (a: int, c: int)
    requires Occ(ax, occ, a0, c0)
    ensures Occ(ax, occ, a, c) && forall u, v :: Occ(ax, occ, u, v) ==> !CellBefore(a, c, u, v)
    decreases Wid(ax, occ) - c0, Len(ax, occ) - a0
  {
    a, c := a0, c0;
    OccInside(ax, occ, a, c);
    if u, v :| Occ(ax, occ, u, v) && CellBefore(a0, c0, u, v) {
      OccInside(ax, occ, u, v);
      a, c := LastOccupied(ax, occ, u, v);
    }
  }

  /** The cell that breaks the margin, one beyond the first line, and the first and last occupied cells. */
  datatype Marks = Marks(a: int, c: int, a1: int, c1: int, fa: int, fc: int, la: int, lc: int)

  ghost predicate MarksOk(ax: Axis, i: Input, m: Marks) {
    var f := Pow2(Top(i.occ, i.depth));
    Occ(ax, i.occ, m.a, m.c) && m.a < f - 1 && m.a < Len(ax, i.occ) - 1 &&
    Occ(ax, i.occ, m.a1, m.c1) && m.a1 >= 1 &&
    Occ(ax, i.occ, m.fa, m.fc) && Occ(ax, i.occ, m.la, m.lc) &&
    forall u, v :: Occ(ax, i.occ, u, v) ==> !CellBefore(u, v, m.fa, m.fc) && !CellBefore(m.la, m.lc, u, v)
  }

  /** From the goal one line past the broken cell: three points one cell back, and one each on the first and the last
      occupied cell, the former on a cell edge so that the scan turned about fits nowhere. */
  function PinScan(ax: Axis, m: Marks, turned: bool): seq<Pt> {
    var p, a, b := PtOf(ax, -1.0, 0.0),
                   PtOf(ax, (m.fa - m.a - 1) as real - 0.5, (m.fc - m.c) as real),
                   PtOf(ax, (m.la - m.a - 1) as real, (m.lc - m.c) as real);
    if turned then [Opposite(p), Opposite(p), Opposite(p), Opposite(a), Opposite(b)] else [p, p, p, a, b]
  }

  ghost predicate PinInput(ax: Axis, i: Input, m: Marks) {
    SearchInput(i) && MarksOk(ax, i, m) && i.scan == [PinScan(ax, m, false), PinScan(ax, m, true)]
  }

  function PinTrap(ax: Axis, i: Input, m: Marks): Trap {
    Trap(Instance(i), (g: Pose) => g == PoseOf(ax, 0, m.a + 1, m.c), (g: Pose) => PoseOf(ax, 1, m.a1 - 1, m.c1),
         PoseOf(ax, 0, m.a + 1, m.c), Top(i.occ, i.depth), 3)
  }

  lemma WholeOffset(n: int)
    ensures Off(n as real) == n && Off(-(n as real)) == -n && Off(n as real - 0.5) == n && Off(-(n as real - 0.5)) == 1 - n
  {
    assert -(n as real) == (-n) as real && 0.5 - (n as real - 0.5) == (1 - n) as real;
  }

  /** The bound of a node in terms of the scan's offsets at its yaw. */
  lemma PinBound(ax: Axis, i: Input, m: Marks, n: Node)
    requires PinInput(ax, i, m) && NodeOk(Instance(i), n)
    ensures var na, nc := Along(ax, n.ty, n.tx), Across(ax, n.ty, n.tx);
            var fa, fc, la, lc := m.fa - m.a - 1, m.fc - m.c, m.la - m.a - 1, m.lc - m.c;
            n.bound == if n.yaw == 0
              then 3 * Sees(i, ax, n.level, na, nc, -1, 0) + Sees(i, ax, n.level, na, nc, fa, fc) +
                   Sees(i, ax, n.level, na, nc, la, lc)
              else 3 * Sees(i, ax, n.level, na, nc, 1, 0) + Sees(i, ax, n.level, na, nc, 1 - fa, -fc) +
                   Sees(i, ax, n.level, na, nc, -la, -lc)
  {
    hide NodeBound, UpperLevel, PyramidOf, Occ, Sees;
    var fa, fc, la, lc := m.fa - m.a - 1, m.fc - m.c, m.la - m.a - 1, m.lc - m.c;
    PinOffsets(fa, fc, la, lc);
    PinPoints(ax, m);
    hide Off, PinScan, PtOf;
    if n.yaw == 0 {
      BoundFive(i, ax, n, -1.0, 0.0, fa as real - 0.5, fc as real, la as real, lc as real);
    } else {
      BoundFive(i, ax, n, 1.0, 0.0, -(fa as real - 0.5), -(fc as real), -(la as real), -(lc as real));
    }
  }

  lemma PinOffsets(fa: int, fc: int, la: int, lc: int)
    ensures Off(-1.0) == -1 && Off(1.0) == 1 && Off(0.0) == 0 && Off(fc as real) == fc && Off(-(fc as real)) == -fc
    ensures Off(la as real) == la && Off(-(la as real)) == -la && Off(lc as real) == lc && Off(-(lc as real)) == -lc
    ensures Off(fa as real - 0.5) == fa && Off(-(fa as real - 0.5)) == 1 - fa
  {
    WholeOffset(fa);
    WholeOffset(fc);
    WholeOffset(la);
    WholeOffset(lc);
  }

  lemma PinPoints(ax: Axis, m: Marks)
    ensures var fa, fc, la, lc := m.fa - m.a - 1, m.fc - m.c, m.la - m.a - 1, m.lc - m.c;
            var p, a, b := PtOf(ax, -1.0, 0.0), PtOf(ax, fa as real - 0.5, fc as real), PtOf(ax, la as real, lc as real);
            PinScan(ax, m, false) == [p, p, p, a, b]
    ensures var fa, fc, la, lc := m.fa - m.a - 1, m.fc - m.c, m.la - m.a - 1, m.lc - m.c;
            var p, a, b := PtOf(ax, 1.0, 0.0), PtOf(ax, -(fa as real - 0.5), -(fc as real)),
                           PtOf(ax, -(la as real), -(lc as real));
            PinScan(ax, m, true) == [p, p, p, a, b]
  {
  }

  lemma BoundFive(i: Input, ax: Axis, n: Node, pa: real, pc: real, ra: real, rc: real, qa: real, qc: real)
    requires NodeOk(Instance(i), n)
    requires i.scan[n.yaw] == [PtOf(ax, pa, pc), PtOf(ax, pa, pc), PtOf(ax, pa, pc), PtOf(ax, ra, rc), PtOf(ax, qa, qc)]
    ensures var na, nc := Along(ax, n.ty, n.tx), Across(ax, n.ty, n.tx);
            n.bound == 3 * Sees(i, ax, n.level, na, nc, Off(pa), Off(pc)) + Sees(i, ax, n.level, na, nc, Off(ra), Off(rc)) +
                       Sees(i, ax, n.level, na, nc, Off(qa), Off(qc))
  {
    hide ScoreGrid, Hit, UpperLevel, PyramidOf, Occ, Off;
    var f, up := Pow2(n.level), UpperLevel(i.occ, i.depth, n.level);
    BoundIsScore(i, n.level, n.yaw, n.ty, n.tx);
    ScoreFive(up, PtOf(ax, pa, pc), PtOf(ax, ra, rc), PtOf(ax, qa, qc), n.tx, n.ty, f);
    HitAlong(ax, up, pa, pc, n.ty, n.tx, f);
    HitAlong(ax, up, ra, rc, n.ty, n.tx, f);
    HitAlong(ax, up, qa, qc, n.ty, n.tx, f);
  }

  /** The goal scores five; every other pose misses the pin at the first or at the last cell. */
  lemma PinExact(ax: Axis, i: Input, m: Marks, p: Pose)
    requires PinInput(ax, i, m) && InGrid(Instance(i), p)
    ensures if p == PoseOf(ax, 0, m.a + 1, m.c) then Exact(Instance(i), p) == 5 else Exact(Instance(i), p) <= 4
  {
    hide Sees, Exact, Occ, NodeBound, PyramidOf, NodeOk;
    var a, c := Along(ax, p.ty, p.tx), Across(ax, p.ty, p.tx);
    var fa, fc, la, lc := m.fa - m.a - 1, m.fc - m.c, m.la - m.a - 1, m.lc - m.c;
    LeafIsExact(i, p);
    PinBound(ax, i, m, LeafOf(Instance(i), p));
    if p.yaw == 0 {
      SeesExactly(i, ax, a, c, -1, 0);
      SeesExactly(i, ax, a, c, fa, fc);
      SeesExactly(i, ax, a, c, la, lc);
    } else {
      SeesExactly(i, ax, a, c, 1, 0);
      SeesExactly(i, ax, a, c, 1 - fa, -fc);
      SeesExactly(i, ax, a, c, -la, -lc);
      TurnedMisses(ax, i, m, a, c);
    }
  }

  /** Turned about, the pins at the first and the last cell cannot both land on occupied cells. */
  lemma TurnedMisses(ax: Axis, i: Input, m: Marks, a: int, c: int)
    requires MarksOk(ax, i, m)
    ensures !Occ(ax, i.occ, a + 1 - (m.fa - m.a - 1), c - (m.fc - m.c)) ||
            !Occ(ax, i.occ, a - (m.la - m.a - 1), c - (m.lc - m.c))
  {
    hide Occ;
    var u, v := a + 1 - (m.fa - m.a - 1), c - (m.fc - m.c);
    var u', v' := a - (m.la - m.a - 1), c - (m.lc - m.c);
    if Occ(ax, i.occ, u, v) && Occ(ax, i.occ, u', v') {
      assert !CellBefore(m.la, m.lc, u, v) && !CellBefore(u', v', m.fa, m.fc);
      assert v - v' == m.lc - m.fc && u - u' == m.la - m.fa + 1;
    }
  }

  lemma PinHides(ax: Axis, i: Input, m: Marks, n: Node)
    requires PinInput(ax, i, m) && NodeOk(Instance(i), n) && n.level == Top(i.occ, i.depth)
    requires Covers(n, PoseOf(ax, 0, m.a + 1, m.c))
    ensures n.bound <= 2
  {
    hide NodeBound, UpperLevel, PyramidOf;
    var f, na, nc := Pow2(n.level), Along(ax, n.ty, n.tx), Across(ax, n.ty, n.tx);
    StartsAt(Instance(i), ax, n, PoseOf(ax, 0, m.a + 1, m.c));
    OccInside(ax, i.occ, m.a, m.c);
    AlignedStart(na, m.a + 1, f);
    PinBound(ax, i, m, n);
    DivUnique(-1, f, -1, f - 1);
    assert Sees(i, ax, n.level, na, nc, -1, 0) == 0;
    hide Sees;
  }

  lemma AlignedStart(a: int, v: int, f: int)
    requires f > 0 && 0 <= a <= v < f && a % f == 0
    ensures a == 0
  {
    DivUnique(a, f, 0, a);
  }

  lemma PinOutbids(ax: Axis, i: Input, m: Marks, n: Node)
    requires PinInput(ax, i, m) && NodeOk(Instance(i), n) && Covers(n, PoseOf(ax, 1, m.a1 - 1, m.c1))
    ensures n.bound >= 3
  {
    hide NodeBound, UpperLevel, PyramidOf, Occ;
    var na, nc := Along(ax, n.ty, n.tx), Across(ax, n.ty, n.tx);
    StartsAt(Instance(i), ax, n, PoseOf(ax, 1, m.a1 - 1, m.c1));
    PinBound(ax, i, m, n);
    SeesCell(ax, i.occ, i.depth, n.level, na, nc, m.a1 - 1, m.c1, 1, 0);
  }

  lemma PinIsTrap(ax: Axis, i: Input, m: Marks)
    requires PinInput(ax, i, m)
    ensures IsTrap(PinTrap(ax, i, m))
  {
    hide NodeBound, UpperLevel, PyramidOf, Exact, NodeOk;
    var P, t := Instance(i), PinTrap(ax, i, m);
    InstanceParts(i);
    OccInside(ax, i.occ, m.a, m.c);
    OccInside(ax, i.occ, m.a1, m.c1);
    assert Goal(t, t.prize);
    PinExact(ax, i, m, t.prize);
    forall p | InGrid(P, p) && !t.goal(p) ensures Exact(P, p) < Exact(P, t.prize) {
      PinExact(ax, i, m, p);
    }
    forall n, g | NodeOk(P, n) && n.level == t.level && Goal(t, g) && Covers(n, g)
      ensures n.bound < t.floor && !Covers(n, t.decoy(g))
    {
      PinHides(ax, i, m, n);
    }
    forall n, g | NodeOk(P, n) && Goal(t, g) && Covers(n, t.decoy(g)) && !Covers(n, g) ensures n.bound >= t.floor {
      PinOutbids(ax, i, m, n);
    }
  }
}
