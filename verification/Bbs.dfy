/** The BBS_2D search as an instance of the best-first search, and exactly when it is exact. */
module Bbs {
  import opened Arith
  import opened Pyramid
  import opened Scoring
  import opened Search
  import opened Frontier
  import opened Optimality

  /** scan[yaw] is the scan rotated by sampled yaw number yaw, in cell units. */
  datatype Input = Input(occ: BoolGrid, depth: nat, scan: seq<seq<Pt>>, k: nat, radius: int)

  function Top(occ: BoolGrid, depth: nat): nat {
    |PyramidOf(occ, depth)| - 1
  }

  /** What gather_hits returns for a node, gathered directly. */
  function NodeBound(i: Input, level: nat, yaw: int, ty: int, tx: int): nat {
    if level < |PyramidOf(i.occ, i.depth)| && 0 <= yaw < |i.scan|
    then Gather(UpperLevel(i.occ, i.depth, level), Offsets(i.scan[yaw], Pow2(level)), ty / Pow2(level), tx / Pow2(level))
    else 0
  }

  function Instance(i: Input): Problem {
    Problem(i.occ.h, i.occ.w, |i.scan|, Top(i.occ, i.depth), i.k, i.radius,
            (level, yaw, ty, tx) => NodeBound(i, level, yaw, ty, tx))
  }

  /** On aligned nodes the bound is the reference score on the level's grid. */
  lemma BoundIsScore(i: Input, level: nat, yaw: int, ty: int, tx: int)
    requires level < |PyramidOf(i.occ, i.depth)| && 0 <= yaw < |i.scan|
    requires ty % Pow2(level) == 0 && tx % Pow2(level) == 0
    ensures NodeBound(i, level, yaw, ty, tx)
         == ScoreGrid(UpperLevel(i.occ, i.depth, level), i.scan[yaw], tx, ty, Pow2(level))
  {
    var f := Pow2(level);
    FastScoringRefines(UpperLevel(i.occ, i.depth, level), i.scan[yaw], ty / f, tx / f, f);
    assert ty == (ty / f) * f && tx == (tx / f) * f;
  }

  lemma ExactIsScore(i: Input, p: Pose)
    requires InGrid(Instance(i), p)
    ensures Exact(Instance(i), p) == ScoreGrid(i.occ, i.scan[p.yaw], p.tx, p.ty, 1)
  {
    assert p.ty % 1 == 0 && p.tx % 1 == 0;
    BoundIsScore(i, 0, p.yaw, p.ty, p.tx);
  }

  /** On every map, scan and setting, a returned candidate's hits are the reference score of its pose. */
  lemma CandidatesHonest(i: Input)
    requires i.k > 0
    ensures forall c :: c in Result(Instance(i)) ==>
      InGrid(Instance(i), c.pose) &&
      c.hits == ScoreGrid(i.occ, i.scan[c.pose.yaw], c.pose.tx, c.pose.ty, 1) <= |i.scan[c.pose.yaw]|
  {
    hide Result, ScoreGrid, NodeBound;
    ResultHonest(Instance(i));
    forall c | c in Result(Instance(i))
      ensures InGrid(Instance(i), c.pose) &&
              c.hits == ScoreGrid(i.occ, i.scan[c.pose.yaw], c.pose.tx, c.pose.ty, 1) <= |i.scan[c.pose.yaw]|
    {
      assert Honest(Instance(i), c);
      ExactIsScore(i, c.pose);
    }
  }

  lemma MarginAdmits(i: Input)
    requires MarginOk(i.occ, Pow2(Top(i.occ, i.depth)))
    ensures AdmissibleBounds(Instance(i))
  {
    var P := Instance(i);
    forall n, p | NodeOk(P, n) && InGrid(P, p) && Covers(n, p) ensures n.bound >= Exact(P, p) {
      MarginMonotone(i.occ, i.depth, n.level, P.top);
      ScanBound(i.occ, i.depth, n.level, i.scan[n.yaw], n.ty, n.tx, p.ty, p.tx);
      BoundIsScore(i, n.level, n.yaw, n.ty, n.tx);
      ExactIsScore(i, p);
    }
  }

  /** On a map with the margin, whatever the scan, the search returns the scores of an exhaustive ranking, each
      the reference score of its own pose on the map. */
  lemma MarginMakesExhaustive(i: Input, poses: seq<Pose>)
    requires MarginOk(i.occ, Pow2(Top(i.occ, i.depth))) && i.k > 0 && i.radius <= 0 && Enumerates(Instance(i), poses)
    ensures var fast, full := Result(Instance(i)), Exhaustive(Instance(i), poses);
            |fast| == |full| &&
            forall j :: 0 <= j < |fast| ==>
              InGrid(Instance(i), fast[j].pose) && fast[j].hits == full[j].hits &&
              fast[j].hits == ScoreGrid(i.occ, i.scan[fast[j].pose.yaw], fast[j].pose.tx, fast[j].pose.ty, 1)
  {
    hide Result, Exhaustive, MarginOk, Exact, Enumerates, AdmissibleBounds, ScoreGrid;
    var P, fast := Instance(i), Result(Instance(i));
    MarginAdmits(i);
    SearchIsExhaustive(P, poses);
    TopKResult(P);
    forall j | 0 <= j < |fast|
      ensures InGrid(P, fast[j].pose) &&
              fast[j].hits == ScoreGrid(i.occ, i.scan[fast[j].pose.yaw], fast[j].pose.tx, fast[j].pose.ty, 1)
    {
      assert fast[j] in fast;
      ExactIsScore(i, fast[j].pose);
    }
  }

  ghost predicate ExactOn(i: Input) {
    IsTopK(Instance(i), if i.k > 0 then Result(Instance(i)) else [])
  }

  /** With the margin the search ranks exactly, for every table of rotated points and every k, suppression off. */
  lemma MarginMakesExact(i: Input)
    requires MarginOk(i.occ, Pow2(Top(i.occ, i.depth))) && i.k > 0 && i.radius <= 0
    ensures ExactOn(i)
  {
    hide Result, MarginOk, AdmissibleBounds, IsTopK;
    MarginAdmits(i);
    TopKResult(Instance(i));
  }
}
