/** What every step keeps, admissible bounds or not: a sorted, well-formed queue and an exact tiling. */
module Frontier {
  import opened Arith
  import opened Search

  lemma ModHalf(a: int, s: int)
    requires s > 0 && a % (2 * s) == 0
    ensures a % s == 0 && (a + s) % s == 0
  {
    var q := a / (2 * s);
    assert a == (2 * q) * s + 0;
    DivUnique(a, s, 2 * q, 0);
    assert a + s == (2 * q + 1) * s + 0;
    DivUnique(a + s, s, 2 * q + 1, 0);
  }

  lemma ChildOk(P: Problem, n: Node, i: nat, order: nat)
    requires NodeOk(P, n) && n.level > 0 && InsideGrid(P, Child(P, n, i, order))
    ensures NodeOk(P, Child(P, n, i, order))
  {
    ModHalf(n.ty, Pow2(n.level - 1));
    ModHalf(n.tx, Pow2(n.level - 1));
  }

  lemma PushOk(P: Problem, st: State, n: Node)
    requires HeapOk(P, st) && NodeOk(P, n) && n.order == st.next
    ensures HeapOk(P, PushNode(st, n))
  {
    PushSorted(st.heap, n);
    PushElements(st.heap, n);
  }

  lemma {:induction false} ExpandOk(P: Problem, st: State, n: Node, i: nat)
    requires P.k > 0 && HeapOk(P, st) && NodeOk(P, n) && n.level > 0
    ensures HeapOk(P, Expand(P, st, n, i))
  {
    if i > 0 {
      ExpandOk(P, st, n, i - 1);
      var before := Expand(P, st, n, i - 1);
      var c := Child(P, n, i - 1, before.next);
      if InsideGrid(P, c) {
        ChildOk(P, n, i - 1, before.next);
        PushOk(P, before, c);
      }
    }
  }

  lemma PopOk(P: Problem, st: State)
    requires HeapOk(P, st) && st.heap != []
    ensures HeapOk(P, st.(heap := st.heap[1..])) && NodeOk(P, st.heap[0])
    ensures forall m :: m in st.heap[1..] ==> m.bound <= st.heap[0].bound
  {
    var tail := st.heap[1..];
    forall m | m in tail ensures m.bound <= st.heap[0].bound {
      var j :| 0 <= j < |tail| && tail[j] == m;
      assert Before(st.heap[0], st.heap[j + 1]);
    }
  }

  lemma StepOk(P: Problem, st: State)
    requires P.k > 0 && HeapOk(P, st) && !Done(P, st)
    ensures HeapOk(P, Step(P, st))
  {
    PopOk(P, st);
    if st.heap[0].level > 0 {
      ExpandOk(P, st.(heap := st.heap[1..]), st.heap[0], 4);
    }
  }

  // ----- tiling -----

  function ChildCover(P: Problem, n: Node, i: nat, p: Pose): nat
    requires n.level > 0
  {
    if i == 0 then 0 else ChildCover(P, n, i - 1, p) + One(Covers(Child(P, n, i - 1, 0), p))
  }

  lemma ChildrenTileParent(P: Problem, n: Node, p: Pose)
    requires n.level > 0
    ensures ChildCover(P, n, 4, p) == One(Covers(n, p))
  {
    assert ChildCover(P, n, 1, p) == One(Covers(Child(P, n, 0, 0), p));
    assert ChildCover(P, n, 2, p) == ChildCover(P, n, 1, p) + One(Covers(Child(P, n, 1, 0), p));
    assert ChildCover(P, n, 3, p) == ChildCover(P, n, 2, p) + One(Covers(Child(P, n, 2, 0), p));
    assert ChildCover(P, n, 4, p) == ChildCover(P, n, 3, p) + One(Covers(Child(P, n, 3, 0), p));
  }

  lemma TryChildCover(P: Problem, st: State, n: Node, i: nat, pruned: seq<Node>, p: Pose)
    requires P.k > 0 && n.level > 0 && InGrid(P, p)
    ensures Cover(TryChild(P, st, n, i).heap, p) + Cover(pruned + PrunedChild(P, st, n, i), p)
         == Cover(st.heap, p) + Cover(pruned, p) + One(Covers(Child(P, n, i, 0), p))
  {
    var c := Child(P, n, i, st.next);
    PushCover(st.heap, c, p);
    AppendCover(pruned, c, p);
    assert pruned + [] == pruned;
  }

  lemma ExpandCoverNext(P: Problem, st: State, n: Node, i: nat, p: Pose)
    requires P.k > 0 && n.level > 0 && i > 0 && InGrid(P, p)
    ensures Cover(Expand(P, st, n, i).heap, p) + Cover(PrunedAmong(P, st, n, i), p)
         == Cover(Expand(P, st, n, i - 1).heap, p) + Cover(PrunedAmong(P, st, n, i - 1), p)
          + One(Covers(Child(P, n, i - 1, 0), p))
  {
    TryChildCover(P, Expand(P, st, n, i - 1), n, i - 1, PrunedAmong(P, st, n, i - 1), p);
  }

  /** The first i children divide among the queue and the pruned subtrees. */
  lemma {:induction false} ExpandCover(P: Problem, st: State, n: Node, i: nat, p: Pose)
    requires P.k > 0 && n.level > 0 && InGrid(P, p)
    ensures Cover(Expand(P, st, n, i).heap, p) + Cover(PrunedAmong(P, st, n, i), p)
         == Cover(st.heap, p) + ChildCover(P, n, i, p)
  {
    hide TryChild;
    hide PrunedChild;
    hide Covers;
    if i == 0 {
      assert Cover(PrunedAmong(P, st, n, 0), p) == 0;
    } else {
      ExpandCover(P, st, n, i - 1, p);
      ExpandCoverNext(P, st, n, i, p);
      assert ChildCover(P, n, i, p) == ChildCover(P, n, i - 1, p) + One(Covers(Child(P, n, i - 1, 0), p));
    }
  }

  lemma LeafCoversItself(n: Node, p: Pose)
    requires n.level == 0
    ensures Covers(n, p) <==> p == LeafPose(n)
  {
  }

  /** A pop keeps the tiling: the popped block moves to the scored poses, the queue and the pruned subtrees. */
  lemma StepTiles(P: Problem, st: State, scored: seq<Pose>, pruned: seq<Node>)
    requires P.k > 0 && !Done(P, st) && Tiles(P, st, scored, pruned)
    ensures Tiles(P, Step(P, st), scored + StepScored(P, st), pruned + StepPruned(P, st))
  {
    var n, popped := st.heap[0], st.(heap := st.heap[1..]);
    forall p | InGrid(P, p)
      ensures Cover(Step(P, st).heap, p) + multiset(scored + StepScored(P, st))[p]
            + Cover(pruned + StepPruned(P, st), p) == 1
    {
      assert Cover(st.heap, p) == One(Covers(n, p)) + Cover(popped.heap, p);
      ConcatCover(pruned, StepPruned(P, st), p);
      if n.level == 0 {
        LeafCoversItself(n, p);
      } else {
        ExpandCover(P, popped, n, 4, p);
        ChildrenTileParent(P, n, p);
      }
    }
  }

  // ----- the seeds -----

  /** The pose's block comes before block (ky, kx) of the yaw in seeding order. */
  predicate Visited(P: Problem, yaw: int, ky: int, kx: int, p: Pose) {
    var step := Pow2(P.top);
    p.yaw < yaw || (p.yaw == yaw && (p.ty / step < ky || (p.ty / step == ky && p.tx / step < kx)))
  }

  ghost predicate SeededUpTo(P: Problem, st: State, yaw: int, ky: int, kx: int) {
    HeapOk(P, st) && st.best == [] &&
    forall p :: InGrid(P, p) ==> Cover(st.heap, p) == One(Visited(P, yaw, ky, kx, p))
  }

  lemma BlockOf(v: int, k: int, step: int)
    requires step > 0
    ensures k * step <= v < k * step + step <==> v / step == k
  {
    if k * step <= v < k * step + step {
      DivUnique(v, step, k, v - k * step);
    }
    assert v == step * (v / step) + v % step;
  }

  lemma SeedOne(P: Problem, st: State, yaw: int, ky: nat, kx: nat)
    requires SeededUpTo(P, st, yaw, ky, kx) && 0 <= yaw < P.yaws
    requires ky < Blocks(P.h, Pow2(P.top)) && kx < Blocks(P.w, Pow2(P.top))
    ensures SeededUpTo(P, SeedNode(P, st, yaw, ky, kx), yaw, ky, kx + 1)
  {
    var step := Pow2(P.top);
    var n := Node(P.bound(P.top, yaw, ky * step, kx * step), st.next, P.top, ky * step, kx * step, yaw);
    BlockStart(P.h, ky, step);
    BlockStart(P.w, kx, step);
    PushOk(P, st, n);
    forall p | InGrid(P, p)
      ensures Cover(SeedNode(P, st, yaw, ky, kx).heap, p) == One(Visited(P, yaw, ky, kx + 1, p))
    {
      PushCover(st.heap, n, p);
      BlockOf(p.ty, ky, step);
      BlockOf(p.tx, kx, step);
    }
  }

  /** A block index below ceil(n / step) starts inside the axis, on a multiple of the step. */
  lemma BlockStart(n: nat, k: nat, step: int)
    requires step > 0 && k < Blocks(n, step)
    ensures 0 <= k * step < n && (k * step) % step == 0
  {
    var q := Blocks(n, step);
    assert (n + step - 1) == step * q + (n + step - 1) % step;
    MulSign(q - k, step);
    assert (q - k) * step == q * step - k * step;
    DivUnique(k * step, step, k, 0);
  }

  lemma {:induction false} SeedRowCovers(P: Problem, st: State, yaw: int, ky: nat, n: nat)
    requires SeededUpTo(P, st, yaw, ky, 0) && 0 <= yaw < P.yaws
    requires ky < Blocks(P.h, Pow2(P.top)) && n <= Blocks(P.w, Pow2(P.top))
    ensures SeededUpTo(P, SeedRow(P, st, yaw, ky, n), yaw, ky, n)
  {
    hide SeedNode;
    hide SeededUpTo;
    if n > 0 {
      SeedRowCovers(P, st, yaw, ky, n - 1);
      SeedOne(P, SeedRow(P, st, yaw, ky, n - 1), yaw, ky, n - 1);
    }
  }

  lemma BlockInRange(v: int, n: int, step: int)
    requires step > 0 && 0 <= v < n
    ensures 0 <= v / step < Blocks(n, step)
  {
    DivBounds(v, step, n);
  }

  lemma NextRow(P: Problem, st: State, yaw: int, ky: nat)
    requires SeededUpTo(P, st, yaw, ky, Blocks(P.w, Pow2(P.top)))
    ensures SeededUpTo(P, st, yaw, ky + 1, 0)
  {
    forall p | InGrid(P, p)
      ensures Visited(P, yaw, ky, Blocks(P.w, Pow2(P.top)), p) == Visited(P, yaw, ky + 1, 0, p)
    {
      BlockInRange(p.tx, P.w, Pow2(P.top));
    }
  }

  lemma {:induction false} SeedYawCovers(P: Problem, st: State, yaw: int, n: nat)
    requires SeededUpTo(P, st, yaw, 0, 0) && 0 <= yaw < P.yaws && n <= Blocks(P.h, Pow2(P.top))
    ensures SeededUpTo(P, SeedYaw(P, st, yaw, n), yaw, n, 0)
  {
    hide SeedRow;
    hide SeededUpTo;
    if n > 0 {
      SeedYawCovers(P, st, yaw, n - 1);
      SeedRowCovers(P, SeedYaw(P, st, yaw, n - 1), yaw, n - 1, Blocks(P.w, Pow2(P.top)));
      NextRow(P, SeedYaw(P, st, yaw, n), yaw, n - 1);
    }
  }

  lemma NextYaw(P: Problem, st: State, yaw: int)
    requires SeededUpTo(P, st, yaw, Blocks(P.h, Pow2(P.top)), 0)
    ensures SeededUpTo(P, st, yaw + 1, 0, 0)
  {
    forall p | InGrid(P, p)
      ensures Visited(P, yaw, Blocks(P.h, Pow2(P.top)), 0, p) == Visited(P, yaw + 1, 0, 0, p)
    {
      BlockInRange(p.ty, P.h, Pow2(P.top));
      BlockInRange(p.tx, P.w, Pow2(P.top));
    }
  }

  lemma {:induction false} SeededCovers(P: Problem, n: nat)
    requires n <= P.yaws
    ensures SeededUpTo(P, Seeded(P, n), n, 0, 0)
  {
    if n > 0 {
      SeededCovers(P, n - 1);
      SeedYawCovers(P, Seeded(P, n - 1), n - 1, Blocks(P.h, Pow2(P.top)));
      NextYaw(P, Seeded(P, n), n - 1);
    } else {
      forall p | InGrid(P, p) ensures !Visited(P, 0, 0, 0, p) {
        BlockInRange(p.ty, P.h, Pow2(P.top));
        BlockInRange(p.tx, P.w, Pow2(P.top));
      }
    }
  }

  lemma InitTiles(P: Problem)
    ensures HeapOk(P, Init(P)) && Tiles(P, Init(P), [], []) && Init(P).best == []
  {
    SeededCovers(P, P.yaws);
    forall p | InGrid(P, p) ensures Cover(Init(P).heap, p) + multiset([])[p] + Cover([], p) == 1 {
      assert Visited(P, P.yaws, 0, 0, p);
    }
  }

  // ----- whole runs -----

  /** The state after n pops; it stays put once the loop is over. */
  function After(P: Problem, n: nat): State
    requires P.k > 0
  {
    if n == 0 then Init(P)
    else var st := After(P, n - 1); if Done(P, st) then st else Step(P, st)
  }

  function ScoredBy(P: Problem, n: nat): seq<Pose>
    requires P.k > 0
  {
    if n == 0 then []
    else var st := After(P, n - 1); ScoredBy(P, n - 1) + if Done(P, st) then [] else StepScored(P, st)
  }

  function PrunedBy(P: Problem, n: nat): seq<Node>
    requires P.k > 0
  {
    if n == 0 then []
    else var st := After(P, n - 1); PrunedBy(P, n - 1) + if Done(P, st) then [] else StepPruned(P, st)
  }

  /** In every reachable state each pose is in exactly one place: an open node, the scored leaves, or a
      pruned subtree; so open blocks are disjoint and no leaf is scored twice. */
  lemma {:induction false} FrontierTiles(P: Problem, n: nat)
    requires P.k > 0
    ensures HeapOk(P, After(P, n)) && Tiles(P, After(P, n), ScoredBy(P, n), PrunedBy(P, n))
  {
    hide Tiles, HeapOk, Init, Step, StepScored, StepPruned, Done;
    InitTiles(P);
    if n > 0 {
      FrontierTiles(P, n - 1);
      var st := After(P, n - 1);
      if Done(P, st) {
        assert ScoredBy(P, n) == ScoredBy(P, n - 1) && PrunedBy(P, n) == PrunedBy(P, n - 1);
      } else {
        StepOk(P, st);
        StepTiles(P, st, ScoredBy(P, n - 1), PrunedBy(P, n - 1));
      }
    }
  }

  /** The loop ends within as many pops as the seeds' summed subtree sizes. */
  lemma {:induction false} RunEnds(P: Problem, n: nat)
    requires P.k > 0
    ensures Done(P, After(P, n)) || HeapWeight(After(P, n).heap) + n <= HeapWeight(Init(P).heap)
  {
    if n > 0 {
      RunEnds(P, n - 1);
      var st := After(P, n - 1);
      if !Done(P, st) {
        StepDecreases(P, st);
      }
    }
  }

  /** The run's answer is the candidate list of the state where the loop stops. */
  lemma {:induction false} RunIsAfter(P: Problem, n: nat)
    requires P.k > 0
    ensures Run(P, Init(P)) == Run(P, After(P, n))
  {
    if n > 0 {
      RunIsAfter(P, n - 1);
    }
  }

  // ----- every candidate is honest -----

  /** An in-grid pose with the score the level-0 grid gives it. */
  ghost predicate Honest(P: Problem, c: Cand) {
    InGrid(P, c.pose) && c.hits == P.bound(0, c.pose.yaw, c.pose.ty, c.pose.tx)
  }

  lemma {:induction false} InsertElements(s: seq<Cand>, c: Cand)
    ensures forall x :: x in Insert(s, c) ==> x == c || x in s
  {
    if s != [] && !Ranks(c, s[0]) {
      InsertElements(s[1..], c);
      assert s == [s[0]] + s[1..];
    }
  }

  lemma {:induction false} SortedElements(s: seq<Cand>)
    ensures forall x :: x in Sorted(s) ==> x in s
  {
    if s != [] {
      SortedElements(s[..|s| - 1]);
      InsertElements(Sorted(s[..|s| - 1]), s[|s| - 1]);
    }
  }

  lemma {:induction false} SuppressElements(best: seq<Cand>, c: Cand, radius: int)
    ensures forall x :: x in Suppress(best, c, radius) ==> x == c || x in best
  {
    if best != [] {
      SuppressElements(best[1..], c, radius);
      assert best == [best[0]] + best[1..];
    }
  }

  lemma AddElements(P: Problem, best: seq<Cand>, c: Cand)
    ensures forall x :: x in Add(P, best, c) ==> x == c || x in best
  {
    var raw := if P.radius > 0 then Suppress(best, c, P.radius) else best + [c];
    SuppressElements(best, c, P.radius);
    SortedElements(raw);
    assert forall x :: x in Add(P, best, c) ==> x in Sorted(raw);
  }

  lemma StepHonest(P: Problem, st: State)
    requires P.k > 0 && HeapOk(P, st) && !Done(P, st) && forall c :: c in st.best ==> Honest(P, c)
    ensures forall c :: c in Step(P, st).best ==> Honest(P, c)
  {
    hide Add;
    PopOk(P, st);
    var n := st.heap[0];
    if n.level == 0 {
      AddElements(P, st.best, Cand(P.bound(0, n.yaw, n.ty, n.tx), LeafPose(n)));
    }
  }

  lemma {:induction false} RunHonest(P: Problem, st: State)
    requires P.k > 0 && HeapOk(P, st) && forall c :: c in st.best ==> Honest(P, c)
    ensures forall c :: c in Run(P, st) ==> Honest(P, c)
    decreases HeapWeight(st.heap)
  {
    hide Step, HeapOk, Honest;
    if !Done(P, st) {
      StepHonest(P, st);
      StepOk(P, st);
      StepDecreases(P, st);
      RunHonest(P, Step(P, st));
    }
  }

  /** Whatever the bounds, with suppression on or off: at most k candidates, each in the grid with its own score. */
  lemma ResultHonest(P: Problem)
    requires P.k > 0
    ensures |Result(P)| <= P.k && forall c :: c in Result(P) ==> Honest(P, c)
  {
    hide Run, Init, Honest, HeapOk;
    InitTiles(P);
    RunHonest(P, Init(P));
    SortedElements(Run(P, Init(P)));
  }
}
