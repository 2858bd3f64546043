/** branch_and_bound_candidates as written: loops, an edited candidate list, and the adaptive hit-map cache. */
module BbsSearch {
  import opened Arith
  import opened Pyramid
  import opened Scoring
  import opened HitMap
  import opened Search
  import opened Frontier
  import opened Bbs
  import opened Yaws
  import opened Exactness
  import opened Reals

  datatype Error =
    | ResolutionNotPositive | AngularResolutionNotPositive | OccupancyNotTwoD | ScanNotPairs | NegativeDepth

  /** BbsGridCandidate. */
  datatype GridCandidate = GridCandidate(txCell: int, tyCell: int, yawIndex: int, yawRad: real, score: real,
                                         hitCount: nat, pointCount: nat)

  datatype Reply = Ok(candidates: seq<GridCandidate>) | Raised(error: Error)

  /** The array arguments: of the expected shape, or of some other. */
  datatype GridArray = TwoD(grid: BoolGrid) | OtherShape

  datatype ScanArray = Pairs(points: seq<Pt>) | OtherScan(size: nat)

  function Size(a: ScanArray): nat { if a.Pairs? then 2 * |a.points| else a.size }

  function Scaled(points: seq<Pt>, resolution: real): (s: seq<Pt>)
    requires resolution > 0.0
    ensures |s| == |points|
  {
    seq(|points|, k requires 0 <= k < |points| => Pt(points[k].x / resolution, points[k].y / resolution))
  }

  /** A cell of the scaled scan is resolution metres. */
  lemma ScaledMeaning(points: seq<Pt>, resolution: real, k: nat)
    requires resolution > 0.0 && k < |points|
    ensures var s := Scaled(points, resolution)[k];
            Times(s.x, resolution) == points[k].x && Times(s.y, resolution) == points[k].y
  {
  }

  type OffsetTables = seq<seq<seq<Entry>>>

  ghost predicate OffsetsOk(i: Input, tables: OffsetTables, levels: nat) {
    |tables| == |i.scan| &&
    (forall y :: 0 <= y < |tables| ==> |tables[y]| == levels) &&
    forall y, l :: 0 <= y < |tables| && 0 <= l < levels ==> tables[y][l] == Offsets(i.scan[y], Pow2(l))
  }

  lemma RotatedByAll(scan: seq<Pt>, yaws: seq<real>, t: Trig)
    ensures forall y :: 0 <= y < |yaws| ==>
      IsTurnedScan(scan, RotatedScan(scan, t.turn(yaws[y])), t.turn(yaws[y]))
  {
    hide IsTurnedScan, RotatedScan;
    forall y | 0 <= y < |yaws| ensures IsTurnedScan(scan, RotatedScan(scan, t.turn(yaws[y])), t.turn(yaws[y])) {
      RotatedIsTurned(scan, t.turn(yaws[y]));
    }
  }

  /** Turn the scan by each yaw, then merge its coarse offsets level by level. */
  method BuildOffsetCache(scan: seq<Pt>, yaws: seq<real>, t: Trig, levels: nat) returns (tables: OffsetTables)
    ensures |tables| == |yaws| && forall y :: 0 <= y < |yaws| ==> |tables[y]| == levels
    ensures forall y, l :: 0 <= y < |yaws| && 0 <= l < levels ==>
      tables[y][l] == Offsets(RotatedScan(scan, t.turn(yaws[y])), Pow2(l))
    ensures forall y :: 0 <= y < |yaws| ==>
      IsTurnedScan(scan, RotatedScan(scan, t.turn(yaws[y])), t.turn(yaws[y]))
  {
    hide Offsets, RotatedScan, Pow2, IsTurnedScan;
    RotatedByAll(scan, yaws, t);
    tables := [];
    for y := 0 to |yaws|
      invariant |tables| == y && forall v :: 0 <= v < y ==> |tables[v]| == levels
      invariant forall v, l :: 0 <= v < y && 0 <= l < levels ==>
        tables[v][l] == Offsets(RotatedScan(scan, t.turn(yaws[v])), Pow2(l))
    {
      var rotated := RotatedScan(scan, t.turn(yaws[y]));
      var perLevel: seq<seq<Entry>> := [];
      for l := 0 to levels
        invariant |perLevel| == l
        invariant forall m :: 0 <= m < l ==> perLevel[m] == Offsets(rotated, Pow2(m))
      {
        perLevel := perLevel + [Offsets(rotated, Pow2(l))];
      }
      tables := tables + [perLevel];
    }
  }

  /** The closure state of the search: precomputed offsets, call counts and whole-level hit maps. */
  class HitScorer {
    const input: Input
    const upper: seq<BoolGrid>
    const offsets: OffsetTables
    var hitMapCache: map<(int, nat), Table>
    var gatherCallCounts: map<(int, nat), nat>

    ghost predicate TablesOk() {
      |upper| == |PyramidOf(input.occ, input.depth)| &&
      (forall l :: 0 <= l < |upper| ==> upper[l] == UpperLevel(input.occ, input.depth, l)) &&
      OffsetsOk(input, offsets, |upper|) &&
      forall y :: 0 <= y < |input.scan| ==> input.scan[y] != []
    }

    ghost predicate CacheEntryOk(yaw: int, level: nat, m: Table)
      requires TablesOk()
    {
      0 <= yaw < |offsets| && level < |upper| &&
      IsHitMap(m, upper[level], offsets[yaw][level], Blocks(input.occ.h, Pow2(level)), Blocks(input.occ.w, Pow2(level)))
    }

    ghost predicate Valid()
      reads this
    {
      TablesOk() && forall key :: key in hitMapCache ==> CacheEntryOk(key.0, key.1, hitMapCache[key])
    }

    constructor (i: Input, levels: seq<BoolGrid>, tables: OffsetTables)
      requires |levels| == |PyramidOf(i.occ, i.depth)|
      requires forall l :: 0 <= l < |levels| ==> levels[l] == UpperLevel(i.occ, i.depth, l)
      requires OffsetsOk(i, tables, |levels|) && forall y :: 0 <= y < |i.scan| ==> i.scan[y] != []
      ensures Valid() && input == i && upper == levels && offsets == tables
      ensures hitMapCache == map[] && gatherCallCounts == map[]
    {
      input, upper, offsets := i, levels, tables;
      hitMapCache, gatherCallCounts := map[], map[];
    }

    lemma CachedValue(yaw: int, level: nat, ty: int, tx: int)
      requires Valid() && (yaw, level) in hitMapCache && 0 <= ty < input.occ.h && 0 <= tx < input.occ.w
      ensures var m := hitMapCache[(yaw, level)];
              0 <= ty / Pow2(level) < |m| && 0 <= tx / Pow2(level) < |m[ty / Pow2(level)]| &&
              m[ty / Pow2(level)][tx / Pow2(level)] == NodeBound(input, level, yaw, ty, tx)
    {
      assert CacheEntryOk(yaw, level, hitMapCache[(yaw, level)]);
      BlockInRange(ty, input.occ.h, Pow2(level));
      BlockInRange(tx, input.occ.w, Pow2(level));
    }

    /** Whether the pair is cold, turns hot on this call or is already cached, the answer is the direct gather. */
    method GatherHits(grid: BoolGrid, level: nat, yaw: int, tx: int, ty: int) returns (hits: int)
      requires Valid() && level < |upper| && grid == upper[level] && 0 <= yaw < |offsets|
      requires 0 <= ty < input.occ.h && 0 <= tx < input.occ.w
      modifies this
      ensures Valid() && hits == NodeBound(input, level, yaw, ty, tx)
    {
      hide Gather;
      hide UpperLevel;
      hide PyramidOf;
      var key := (yaw, level);
      if key in hitMapCache {
        CachedValue(yaw, level, ty, tx);
        return hitMapCache[key][ty / Pow2(level)][tx / Pow2(level)];
      }
      var es := offsets[yaw][level];
      var calls := (if key in gatherCallCounts then gatherCallCounts[key] else 0) + 1;
      gatherCallCounts := gatherCallCounts[key := calls];
      if calls > HitMap.Max(64, (grid.h * grid.w) / 256) {
        BlockInRange(ty, input.occ.h, Pow2(level));
        BlockInRange(tx, input.occ.w, Pow2(level));
        var nBlocksY, nBlocksX := Blocks(input.occ.h, Pow2(level)), Blocks(input.occ.w, Pow2(level));
        var slackY: nat, slackX: nat := *, *;  // next_fast_len rounds the transform shape up
        var full := FullHitMap(grid, es, nBlocksY, nBlocksX, slackY, slackX);
        hitMapCache := hitMapCache[key := full];
        return full[ty / Pow2(level)][tx / Pow2(level)];
      }
      hits := Gather(grid, es, ty / Pow2(level), tx / Pow2(level));
    }
  }

  /** Score every top-level block of every yaw from the accumulated seed map, and queue it. */
  method SeedQueue(scorer: HitScorer, start: nat) returns (heap: seq<Node>, sequence: nat)
    requires scorer.Valid() && start + 1 == |scorer.upper|
    ensures State(heap, sequence, []) == Init(Instance(scorer.input))
  {
    hide PyramidOf;
    hide UpperLevel;
    ghost var P := Instance(scorer.input);
    var step := Pow2(start);
    var rows, cols := Blocks(scorer.input.occ.h, step), Blocks(scorer.input.occ.w, step);
    heap, sequence := [], 0;
    for yaw := 0 to |scorer.offsets|
      invariant State(heap, sequence, []) == Seeded(P, yaw)
    {
      var hitMap := SeedHitMap(scorer.upper[start], scorer.offsets[yaw][start], rows, cols);
      ghost var before := State(heap, sequence, []);
      for row := 0 to rows
        invariant State(heap, sequence, []) == SeedYaw(P, before, yaw, row)
      {
        heap, sequence := QueueRow(scorer, start, yaw, row, cols, hitMap[row], heap, sequence);
      }
    }
  }

  method QueueRow(scorer: HitScorer, start: nat, yaw: nat, row: nat, cols: nat, hits: seq<int>, heap0: seq<Node>, sequence0: nat)
    returns (heap: seq<Node>, sequence: nat)
    requires scorer.Valid() && start + 1 == |scorer.upper| && yaw < |scorer.offsets| && |hits| == cols
    requires forall x :: 0 <= x < cols ==> hits[x] == Gather(scorer.upper[start], scorer.offsets[yaw][start], row, x)
    ensures State(heap, sequence, []) == SeedRow(Instance(scorer.input), State(heap0, sequence0, []), yaw, row, cols)
  {
    hide Gather, PyramidOf, UpperLevel, NodeBound, Push;
    ghost var P, before := Instance(scorer.input), State(heap0, sequence0, []);
    heap, sequence := heap0, sequence0;
    for col := 0 to cols
      invariant State(heap, sequence, []) == SeedRow(P, before, yaw, row, col)
    {
      SeedBound(scorer, start, yaw, row, col);
      ghost var st := State(heap, sequence, []);
      var tyCell, txCell := row * Pow2(start), col * Pow2(start);
      heap := Push(heap, Node(hits[col], sequence, start, tyCell, txCell, yaw));
      sequence := sequence + 1;
      assert State(heap, sequence, []) == SeedNode(P, st, yaw, row, col);
    }
  }

  lemma SeedBound(scorer: HitScorer, start: nat, yaw: int, row: nat, col: nat)
    requires scorer.TablesOk() && start + 1 == |scorer.upper| && 0 <= yaw < |scorer.offsets|
    ensures NodeBound(scorer.input, start, yaw, row * Pow2(start), col * Pow2(start))
         == Gather(scorer.upper[start], scorer.offsets[yaw][start], row, col)
  {
    DivUnique(row * Pow2(start), Pow2(start), row, 0);
    DivUnique(col * Pow2(start), Pow2(start), col, 0);
  }

  /** The suppression scan over the candidate list. */
  method AddCandidate(best: seq<Cand>, candidate: Cand, radius: int) returns (grown: seq<Cand>)
    ensures grown == if radius > 0 then Suppress(best, candidate, radius) else best + [candidate]
  {
    grown := best;
    if radius > 0 {
      var suppressed := false;
      var index := 0;
      while index < |best|
        invariant 0 <= index <= |best| && grown == best && !suppressed
        invariant Suppress(best, candidate, radius) == best[..index] + Suppress(best[index..], candidate, radius)
      {
        var existing := best[index];
        if Near(existing.pose, candidate.pose, radius) {
          if candidate.hits > existing.hits {
            grown := best[index := candidate];
          }
          suppressed := true;
          assert best[index..][1..] == best[index + 1..];
          assert best == best[..index] + [existing] + best[index + 1..];
          break;
        }
        assert best[index..][1..] == best[index + 1..];
        index := index + 1;
      }
      if !suppressed {
        grown := grown + [candidate];
      }
    } else {
      grown := grown + [candidate];
    }
  }

  lemma InstanceFields(i: Input)
    ensures var P := Instance(i);
            P.h == i.occ.h && P.w == i.occ.w && P.yaws == |i.scan| && P.k == i.k && P.radius == i.radius &&
            P.top == Top(i.occ, i.depth) &&
            forall level, yaw, ty, tx :: P.bound(level, yaw, ty, tx) == NodeBound(i, level, yaw, ty, tx)
  {
  }

  lemma RunUnfolds(P: Problem, st: State)
    requires P.k > 0
    ensures Done(P, st) ==> Run(P, st) == st.best
    ensures !Done(P, st) ==> Run(P, st) == Run(P, Step(P, st))
  {
  }

  /** Score a popped leaf and keep the candidate list sorted and capped. */
  method ScorePopped(scorer: HitScorer, node: Node, ghost st: State, best0: seq<Cand>) returns (best: seq<Cand>)
    requires scorer.Valid() && NodeOk(Instance(scorer.input), node) && node.level == 0 && best0 == st.best
    modifies scorer
    ensures scorer.Valid()
    ensures st.(best := best) == ScoreLeaf(Instance(scorer.input), st, node)
  {
    hide Sorted;
    hide Suppress;
    hide NodeBound;
    InstanceFields(scorer.input);
    var hitCount := scorer.GatherHits(scorer.upper[0], 0, node.yaw, node.tx, node.ty);
    best := AddCandidate(best0, Cand(hitCount, Pose(node.yaw, node.ty, node.tx)), scorer.input.radius);
    best := Sorted(best);
    if |best| > scorer.input.k {
      best := best[..scorer.input.k];
    }
  }

  /** The main loop: pop, stop, score a leaf or queue the children. */
  method BestFirst(scorer: HitScorer, start: nat) returns (best: seq<Cand>)
    requires scorer.Valid() && start + 1 == |scorer.upper| && scorer.input.k > 0
    modifies scorer
    ensures best == Result(Instance(scorer.input))
  {
    hide Instance;
    hide Run;
    hide Expand;
    hide ScoreLeaf;
    hide HeapWeight;
    hide Init;
    hide Push;
    hide NodeOk;
    hide SortedHeap;
    ghost var P := Instance(scorer.input);
    InstanceFields(scorer.input);
    var maxCandidates := scorer.input.k;
    var heap, sequence := SeedQueue(scorer, start);
    InitTiles(P);
    best := [];
    var kthScore: int := -1;  // stands for -inf: scores are never negative
    while heap != []
      invariant scorer.Valid()
      invariant HeapOk(P, State(heap, sequence, best))
      invariant Run(P, State(heap, sequence, best)) == Run(P, Init(P))
      invariant |best| >= maxCandidates ==> kthScore == best[|best| - 1].hits
      decreases HeapWeight(heap)
    {
      ghost var st := State(heap, sequence, best);
      var node := heap[0];
      PopOk(P, st);
      heap := heap[1..];
      if |best| >= maxCandidates && node.bound <= kthScore {
        RunUnfolds(P, st);
        break;
      }
      StepOk(P, st);
      StepDecreases(P, st);
      RunUnfolds(P, st);
      if node.level == 0 {
        best := ScorePopped(scorer, node, State(heap, sequence, best), best);
        if |best| >= maxCandidates {
          kthScore := best[|best| - 1].hits;
        }
        assert State(heap, sequence, best) == Step(P, st);
      } else {
        heap, sequence := QueueChildren(scorer, node, heap, sequence, best, kthScore);
        assert State(heap, sequence, best) == Step(P, st);
      }
    }
    RunUnfolds(P, State(heap, sequence, best));
    best := Sorted(best);
    if |best| > maxCandidates {
      best := best[..maxCandidates];
    }
  }

  /** Queue the in-range children that are not pruned: dy outer, dx inner. */
  method QueueChildren(scorer: HitScorer, node: Node, heap0: seq<Node>, sequence0: nat, best: seq<Cand>, kthScore: int)
    returns (heap: seq<Node>, sequence: nat)
    requires scorer.Valid() && NodeOk(Instance(scorer.input), node) && node.level > 0 && scorer.input.k > 0
    requires |best| >= scorer.input.k ==> kthScore == best[|best| - 1].hits
    modifies scorer
    ensures scorer.Valid()
    ensures State(heap, sequence, best) == Expand(Instance(scorer.input), State(heap0, sequence0, best), node, 4)
  {
    hide TryChild;
    hide Instance;
    hide NodeOk;
    ghost var P, popped := Instance(scorer.input), State(heap0, sequence0, best);
    InstanceFields(scorer.input);
    heap, sequence := heap0, sequence0;
    for dy := 0 to 2
      invariant scorer.Valid()
      invariant State(heap, sequence, best) == Expand(P, popped, node, 2 * dy)
    {
      for dx := 0 to 2
        invariant scorer.Valid()
        invariant State(heap, sequence, best) == Expand(P, popped, node, 2 * dy + dx)
      {
        heap, sequence := QueueChild(scorer, node, dy, dx, heap, sequence, best, kthScore);
      }
    }
  }

  method QueueChild(scorer: HitScorer, node: Node, dy: nat, dx: nat, heap0: seq<Node>, sequence0: nat, best: seq<Cand>, kthScore: int)
    returns (heap: seq<Node>, sequence: nat)
    requires scorer.Valid() && NodeOk(Instance(scorer.input), node) && node.level > 0 && scorer.input.k > 0
    requires dy < 2 && dx < 2 && (|best| >= scorer.input.k ==> kthScore == best[|best| - 1].hits)
    modifies scorer
    ensures scorer.Valid()
    ensures State(heap, sequence, best)
         == TryChild(Instance(scorer.input), State(heap0, sequence0, best), node, 2 * dy + dx)
  {
    hide Push;
    hide Instance;
    hide NodeBound;
    InstanceFields(scorer.input);
    heap, sequence := heap0, sequence0;
    var childLevel := node.level - 1;
    var childStep := Pow2(childLevel);
    var childTy := if dy == 0 then node.ty else node.ty + childStep;
    var childTx := if dx == 0 then node.tx else node.tx + childStep;
    assert (2 * dy + dx) / 2 == dy && (2 * dy + dx) % 2 == dx;
    if childTy < scorer.input.occ.h && childTx < scorer.input.occ.w {
      var childBound := scorer.GatherHits(scorer.upper[childLevel], childLevel, node.yaw, childTx, childTy);
      if !(|best| >= scorer.input.k && childBound < kthScore) {
        heap := Push(heap, Node(childBound, sequence, childLevel, childTy, childTx, node.yaw));
        sequence := sequence + 1;
      }
    }
  }

  /** The candidate as the program reports it. */
  function Report(c: Cand, yaws: seq<real>, points: nat): GridCandidate
    requires 0 <= c.pose.yaw < |yaws| && points > 0
  {
    GridCandidate(c.pose.tx, c.pose.ty, c.pose.yaw, yaws[c.pose.yaw], c.hits as real / points as real, c.hits, points)
  }

  ghost predicate Reports(candidates: seq<GridCandidate>, i: Input, yaws: seq<real>, points: nat)
    requires i.k > 0 && points > 0 && |yaws| == |i.scan|
  {
    var r := Result(Instance(i));
    |candidates| == |r| &&
    forall k :: 0 <= k < |r| ==> 0 <= r[k].pose.yaw < |yaws| && candidates[k] == Report(r[k], yaws, points)
  }

  lemma ReportScore(hits: nat, points: nat)
    requires hits <= points && points > 0
    ensures 0.0 <= hits as real / points as real <= 1.0
  {
    var n, q := points as real, hits as real / points as real;
    assert q * n == hits as real;
    if hits < points {
      RealUnit(q, n, hits as real);
    }
  }

  /** A reported score is the fraction of scan points that the pose lands on occupied cells. */
  lemma ReportedScores(i: Input, yaws: seq<real>, points: nat, candidates: seq<GridCandidate>, k: nat)
    requires i.k > 0 && points > 0 && |yaws| == |i.scan| && forall y :: 0 <= y < |i.scan| ==> |i.scan[y]| == points
    requires Reports(candidates, i, yaws, points) && k < |candidates|
    ensures var g := candidates[k];
            0 <= g.yawIndex < |i.scan| && 0 <= g.tyCell < i.occ.h && 0 <= g.txCell < i.occ.w &&
            g.yawRad == yaws[g.yawIndex] && g.pointCount == points &&
            g.hitCount == ScoreGrid(i.occ, i.scan[g.yawIndex], g.txCell, g.tyCell, 1) &&
            g.score == g.hitCount as real / points as real && 0.0 <= g.score <= 1.0
  {
    hide Result, ScoreGrid;
    CandidatesHonest(i);
    var r := Result(Instance(i));
    assert r[k] in r;
    InstanceFields(i);
    ReportScore(r[k].hits, points);
  }

  /** The hits are the points that land on occupied cells when the scan is turned counter-clockwise by the yaw reported. */
  ghost predicate HitsWhenTurned(g: GridCandidate, occ: BoolGrid, scan: seq<Pt>, t: Trig) {
    exists turned ::
      IsTurnedScan(scan, turned, t.turn(g.yawRad)) && g.hitCount == |Landed(occ, turned, g.txCell, g.tyCell, 1)|
  }

  lemma ReportedTurned(occ: BoolGrid, depth: nat, scan: seq<Pt>, angularResolution: real, t: Trig, k: nat, radius: int,
                       candidates: seq<GridCandidate>, j: nat)
    requires angularResolution > 0.0 && t.pi > 0.0 && k > 0 && scan != []
    requires Reports(candidates, RealInput(occ, depth, scan, angularResolution, t, k, radius),
                     YawSamples(angularResolution, t.pi), |scan|)
    requires j < |candidates|
    ensures HitsWhenTurned(candidates[j], occ, scan, t)
  {
    hide Reports, ScoreGrid, ScanTable, YawSamples, IsTurnedScan, Instance, Landed;
    var yaws := YawSamples(angularResolution, t.pi);
    ReportedScores(RealInput(occ, depth, scan, angularResolution, t, k, radius), yaws, |scan|, candidates, j);
    var y := candidates[j].yawIndex;
    TableIsTurned(scan, angularResolution, t, y);
    ScoreMeaning(occ, ScanTable(scan, angularResolution, t)[y], candidates[j].txCell, candidates[j].tyCell, 1);
    assert candidates[j].yawRad == yaws[y];
  }

  /** The entry point, over the rotations t gives. */
  method BranchAndBoundCandidates(occupancy: GridArray, scanXyM: ScanArray, resolution: real, angularResolution: real,
                                  pyramidDepth: int, maxCandidates: int, nmsRadius: int, t: Trig)
    returns (reply: Reply)
    requires t.pi > 0.0
    ensures maxCandidates <= 0 ==> reply == Ok([])
    ensures maxCandidates > 0 && resolution <= 0.0 ==> reply == Raised(ResolutionNotPositive)
    ensures maxCandidates > 0 && resolution > 0.0 && angularResolution <= 0.0 ==>
      reply == Raised(AngularResolutionNotPositive)
    ensures maxCandidates > 0 && resolution > 0.0 && angularResolution > 0.0 ==>
      if occupancy.OtherShape? then reply == Raised(OccupancyNotTwoD)
      else if Size(scanXyM) == 0 then reply == Ok([])
      else if scanXyM.OtherScan? then reply == Raised(ScanNotPairs)
      else if pyramidDepth < 0 then reply == Raised(NegativeDepth)
      else
        reply.Ok? &&
        var scan := Scaled(scanXyM.points, resolution);
        Reports(reply.candidates,
                RealInput(occupancy.grid, pyramidDepth, scan, angularResolution, t, maxCandidates, nmsRadius),
                YawSamples(angularResolution, t.pi), |scan|)
  {
    if maxCandidates <= 0 {
      return Ok([]);
    }
    if resolution <= 0.0 {
      return Raised(ResolutionNotPositive);
    }
    if angularResolution <= 0.0 {
      return Raised(AngularResolutionNotPositive);
    }
    if occupancy.OtherShape? {
      return Raised(OccupancyNotTwoD);
    }
    if Size(scanXyM) == 0 {
      return Ok([]);
    }
    if scanXyM.OtherScan? {
      return Raised(ScanNotPairs);
    }
    if pyramidDepth < 0 {
      return Raised(NegativeDepth);
    }
    var candidates := SearchScan(occupancy.grid, Scaled(scanXyM.points, resolution), angularResolution, pyramidDepth,
                                 maxCandidates, nmsRadius, t);
    reply := Ok(candidates);
  }

  /** The search proper, on a scan in cell units. */
  method SearchScan(occupancy: BoolGrid, scan: seq<Pt>, angularResolution: real, pyramidDepth: nat, maxCandidates: nat,
                    nmsRadius: int, t: Trig)
    returns (candidates: seq<GridCandidate>)
    requires t.pi > 0.0 && angularResolution > 0.0 && scan != [] && maxCandidates > 0
    ensures Reports(candidates, RealInput(occupancy, pyramidDepth, scan, angularResolution, t, maxCandidates, nmsRadius),
                    YawSamples(angularResolution, t.pi), |scan|)
  {
    hide PyramidOf, Dilate, Offsets, Result;
    var pyramid := BuildOccupancyPyramid(occupancy, pyramidDepth);
    var upper := BuildUpperBoundPyramid(pyramid);
    var yaws := YawSamples(angularResolution, t.pi);
    var tables := BuildOffsetCache(scan, yaws, t, |upper|);
    var input := RealInput(occupancy, pyramidDepth, scan, angularResolution, t, maxCandidates, nmsRadius);
    assert forall l :: 0 <= l < |upper| ==> upper[l] == UpperLevel(occupancy, pyramidDepth, l);
    var scorer := new HitScorer(input, upper, tables);
    var best := BestFirst(scorer, |upper| - 1);
    candidates := ReportAll(input, best, yaws, |scan|);
  }

  method ReportAll(ghost i: Input, best: seq<Cand>, yaws: seq<real>, points: nat) returns (candidates: seq<GridCandidate>)
    requires i.k > 0 && points > 0 && |yaws| == |i.scan| && best == Result(Instance(i))
    ensures Reports(candidates, i, yaws, points)
  {
    hide Result;
    CandidatesHonest(i);
    InstanceFields(i);
    candidates := [];
    for k := 0 to |best|
      invariant |candidates| == k
      invariant forall m :: 0 <= m < k ==> 0 <= best[m].pose.yaw < |yaws| && candidates[m] == Report(best[m], yaws, points)
    {
      assert best[k] in best;
      candidates := candidates + [Report(best[k], yaws, points)];
    }
  }
}
