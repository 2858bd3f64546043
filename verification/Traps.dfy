/** How an inadmissible bound loses the best pose: traps, and why no run escapes one. */
module Traps {
  import opened Arith
  import opened Search
  import opened Frontier
  import opened Optimality

  /** Goals hide below nodes of the given level bounded under floor, while each goal's decoy stays below nodes
      bounded at floor or more, except where one node holds both. */
  datatype Trap = Trap(P: Problem, goal: Pose -> bool, decoy: Pose -> Pose, prize: Pose, level: nat, floor: nat)

  ghost predicate Goal(t: Trap, g: Pose) {
    InGrid(t.P, g) && t.goal(g)
  }

  /** The prize is a goal, and whatever is no goal scores less. */
  ghost predicate OnlyGoalsWin(t: Trap) {
    Goal(t, t.prize) && forall p :: InGrid(t.P, p) && !t.goal(p) ==> Exact(t.P, p) < Exact(t.P, t.prize)
  }

  ghost predicate Hides(t: Trap) {
    forall n, g :: NodeOk(t.P, n) && n.level == t.level && Goal(t, g) && Covers(n, g) ==>
      n.bound < t.floor && !Covers(n, t.decoy(g))
  }

  ghost predicate Outbids(t: Trap) {
    (forall g :: Goal(t, g) ==> InGrid(t.P, t.decoy(g))) &&
    forall n, g :: NodeOk(t.P, n) && Goal(t, g) && Covers(n, t.decoy(g)) && !Covers(n, g) ==> n.bound >= t.floor
  }

  ghost predicate IsTrap(t: Trap) {
    t.P.k == 1 && t.P.radius <= 0 && t.level <= t.P.top && OnlyGoalsWin(t) && Hides(t) && Outbids(t)
  }

  // ----- what a trapped run keeps -----

  ghost predicate Open(heap: seq<Node>, p: Pose) {
    exists n :: n in heap && Covers(n, p)
  }

  ghost predicate Above(t: Trap, heap: seq<Node>) {
    forall n, g :: n in heap && Goal(t, g) && Covers(n, g) ==> n.level >= t.level
  }

  ghost predicate Beaten(t: Trap, st: State) {
    st.best != [] && Kth(st) >= t.floor
  }

  ghost predicate Outbid(t: Trap, st: State, g: Pose) {
    Beaten(t, st) || !Open(st.heap, g) || Open(st.heap, t.decoy(g))
  }

  ghost predicate AllOutbid(t: Trap, st: State) {
    forall g :: Goal(t, g) ==> Outbid(t, st, g)
  }

  ghost predicate Misses(t: Trap, best: seq<Cand>) {
    |best| <= 1 &&
    forall c :: c in best ==> !t.goal(c.pose) && InGrid(t.P, c.pose) && c.hits == Exact(t.P, c.pose)
  }

  ghost predicate Trapped(t: Trap, st: State, scored: seq<Pose>, pruned: seq<Node>) {
    HeapOk(t.P, st) && Tiles(t.P, st, scored, pruned) && Above(t, st.heap) && Misses(t, st.best) && AllOutbid(t, st)
  }

  /** A pose is below one queued node at most. */
  lemma OpenOnce(P: Problem, st: State, scored: seq<Pose>, pruned: seq<Node>, m: Node, g: Pose)
    requires Tiles(P, st, scored, pruned) && InGrid(P, g) && st.heap != []
    requires Covers(st.heap[0], g) && m in st.heap[1..]
    ensures !Covers(m, g)
  {
    CoverWitness(st.heap[1..], g);
    assert Cover(st.heap, g) == One(Covers(st.heap[0], g)) + Cover(st.heap[1..], g);
  }

  /** The head of a live queue holds a goal only above the hiding level. */
  lemma HeadAbove(t: Trap, st: State, scored: seq<Pose>, pruned: seq<Node>, g: Pose)
    requires IsTrap(t) && Trapped(t, st, scored, pruned) && !Done(t.P, st) && Goal(t, g) && Covers(st.heap[0], g)
    ensures st.heap[0].level > t.level
  {
    hide Tiles, Covers, NodeOk, SortedHeap;
    var n := st.heap[0];
    PopOk(t.P, st);
    if n.level == t.level {
      assert n in st.heap && Open(st.heap, g) && !Beaten(t, st);
      assert Outbid(t, st, g);
      var m :| m in st.heap && Covers(m, t.decoy(g));
      assert st.heap == [n] + st.heap[1..];
      OpenOnce(t.P, st, scored, pruned, m, g);
    }
  }

  lemma AddToOne(P: Problem, best: seq<Cand>, c: Cand)
    requires P.k == 1 && P.radius <= 0 && |best| <= 1
    ensures var r := Add(P, best, c);
            |r| == 1 && r[0].hits >= c.hits && (best != [] ==> r[0].hits >= best[0].hits) &&
            (r[0] == c || (best != [] && r[0] == best[0]))
  {
    SortedIsIdentity(best);
    assert (best + [c])[..|best|] == best;
    assert Sorted(best + [c]) == Insert(best, c);
  }

  lemma TailOpen(heap: seq<Node>, p: Pose)
    requires heap != []
    ensures Open(heap, p) <==> Covers(heap[0], p) || Open(heap[1..], p)
  {
    hide Covers;
    assert heap == [heap[0]] + heap[1..];
    if Open(heap[1..], p) {
      var n :| n in heap[1..] && Covers(n, p);
      assert n in heap;
    }
  }

  /** Scoring the head keeps every goal outbid: if it was a decoy, its score now is the one to beat. */
  lemma LeafOutbids(t: Trap, st: State, best: seq<Cand>)
    requires IsTrap(t) && st.heap != [] && NodeOk(t.P, st.heap[0]) && AllOutbid(t, st)
    requires forall g :: Goal(t, g) ==> !Covers(st.heap[0], g)
    requires |best| == 1 && best[0].hits >= st.heap[0].bound && (st.best != [] ==> best[0].hits >= Kth(st))
    ensures AllOutbid(t, st.(heap := st.heap[1..], best := best))
  {
    hide Covers, NodeOk, Open;
    var n, st' := st.heap[0], st.(heap := st.heap[1..], best := best);
    forall g | Goal(t, g) ensures Outbid(t, st', g) {
      assert Outbid(t, st, g);
      TailOpen(st.heap, g);
      TailOpen(st.heap, t.decoy(g));
    }
  }

  lemma TrappedLeaf(t: Trap, st: State, scored: seq<Pose>, pruned: seq<Node>)
    requires IsTrap(t) && Trapped(t, st, scored, pruned) && !Done(t.P, st) && st.heap[0].level == 0
    ensures Trapped(t, Step(t.P, st), scored + StepScored(t.P, st), pruned + StepPruned(t.P, st))
  {
    hide Tiles, HeapOk, AllOutbid, StepScored, StepPruned, IsTrap;
    TrapSize(t);
    var n, best := st.heap[0], Step(t.P, st).best;
    StepOk(t.P, st);
    StepTiles(t.P, st, scored, pruned);
    PopOk(t.P, st);
    forall g | Goal(t, g) ensures !Covers(n, g) {
      if Covers(n, g) {
        HeadAbove(t, st, scored, pruned, g);
      }
    }
    LeafMisses(t, st, n);
    LeafOutbids(t, st, best);
    assert forall m :: m in st.heap[1..] ==> m in st.heap;
    assert Step(t.P, st) == st.(heap := st.heap[1..], best := best);
    hide Step, Covers;
  }

  lemma LeafMisses(t: Trap, st: State, n: Node)
    requires IsTrap(t) && st.heap != [] && n == st.heap[0] && n.level == 0 && NodeOk(t.P, n) && !Done(t.P, st)
    requires Misses(t, st.best) && forall g :: Goal(t, g) ==> !Covers(n, g)
    ensures var best := Step(t.P, st).best;
            Misses(t, best) && |best| == 1 && best[0].hits >= n.bound && (st.best != [] ==> best[0].hits >= Kth(st))
  {
    hide Add, Hides, Outbids, OnlyGoalsWin;
    LeafCoversItself(n, LeafPose(n));
    AddToOne(t.P, st.best, Cand(n.bound, LeafPose(n)));
    assert Pow2(0) == 1;
  }

  // ----- expanding -----

  lemma {:induction false} ExpandRetains(P: Problem, st: State, n: Node, i: nat, m: Node)
    requires P.k > 0 && n.level > 0 && m in st.heap
    ensures m in Expand(P, st, n, i).heap
  {
    if i > 0 {
      ExpandRetains(P, st, n, i - 1, m);
      var before := Expand(P, st, n, i - 1);
      PushElements(before.heap, Child(P, n, i - 1, before.next));
    }
  }

  lemma {:induction false} ExpandLevels(P: Problem, st: State, n: Node, i: nat)
    requires P.k > 0 && n.level > 0
    ensures forall m :: m in Expand(P, st, n, i).heap ==> m in st.heap || (Within(m, n) && m.level == n.level - 1)
  {
    hide Within, Covers;
    if i > 0 {
      ExpandLevels(P, st, n, i - 1);
      var before := Expand(P, st, n, i - 1);
      var c := Child(P, n, i - 1, before.next);
      ChildWithin(P, n, i - 1, before.next);
      PushElements(before.heap, c);
    }
  }

  lemma {:induction false} PrunedElements(P: Problem, st: State, n: Node, i: nat)
    requires P.k > 0 && n.level > 0 && NodeOk(P, n)
    ensures forall m :: m in PrunedAmong(P, st, n, i) ==> NodeOk(P, m) && Prunes(P, st, m.bound)
  {
    hide NodeOk, Expand, Child;
    if i > 0 {
      PrunedElements(P, st, n, i - 1);
      var before := Expand(P, st, n, i - 1);
      if InsideGrid(P, Child(P, n, i - 1, before.next)) {
        ChildOk(P, n, i - 1, before.next);
      }
    }
  }

  /** After an expansion a pose below the popped node is below a child, queued or pruned. */
  lemma ChildOpenOrPruned(P: Problem, popped: State, n: Node, p: Pose)
    requires P.k > 0 && n.level > 0 && InGrid(P, p) && Covers(n, p)
    ensures Open(Expand(P, popped, n, 4).heap, p) || exists m :: m in PrunedAmong(P, popped, n, 4) && Covers(m, p)
  {
    hide Covers, Expand, PrunedAmong;
    ExpandCover(P, popped, n, 4, p);
    ChildrenTileParent(P, n, p);
    CoverWitness(Expand(P, popped, n, 4).heap, p);
    CoverWitness(PrunedAmong(P, popped, n, 4), p);
  }

  /** A pose in a pruned subtree is below no queued node. */
  lemma PrunedNotOpen(P: Problem, st: State, scored: seq<Pose>, pruned: seq<Node>, m: Node, p: Pose)
    requires Tiles(P, st, scored, pruned) && InGrid(P, p) && m in pruned && Covers(m, p)
    ensures !Open(st.heap, p)
  {
    hide Covers;
    CoverWitness(st.heap, p);
    CoverWitness(pruned, p);
    assert Cover(st.heap, p) + multiset(scored)[p] + Cover(pruned, p) == 1;
  }

  lemma ExpandOutbids(t: Trap, st: State, scored: seq<Pose>, pruned: seq<Node>, g: Pose)
    requires IsTrap(t) && st.heap != [] && st.heap[0].level > 0 && NodeOk(t.P, st.heap[0]) && Goal(t, g)
    requires Outbid(t, st, g)
    requires var popped, n := st.(heap := st.heap[1..]), st.heap[0];
             Tiles(t.P, Expand(t.P, popped, n, 4), scored, pruned + PrunedAmong(t.P, popped, n, 4))
    ensures Outbid(t, Expand(t.P, st.(heap := st.heap[1..]), st.heap[0], 4), g)
  {
    hide Covers, NodeOk, Tiles, Expand, PrunedAmong;
    var P, n, popped := t.P, st.heap[0], st.(heap := st.heap[1..]);
    var st', cut := Expand(P, popped, n, 4), PrunedAmong(P, popped, n, 4);
    if !Beaten(t, st) {
      TailOpen(st.heap, g);
      if !Open(st.heap, g) {
        StillClosed(P, popped, n, g);
      } else {
        var d := t.decoy(g);
        TailOpen(st.heap, d);
        if Open(popped.heap, d) {
          var m :| m in popped.heap && Covers(m, d);
          ExpandRetains(P, popped, n, 4, m);
        } else {
          ChildOpenOrPruned(P, popped, n, d);
          if !Open(st'.heap, d) {
            var m :| m in cut && Covers(m, d);
            PrunedElements(P, popped, n, 4);
            if Covers(m, g) {
              assert m in pruned + cut;
              PrunedNotOpen(P, st', scored, pruned + cut, m, g);
            }
          }
        }
      }
    }
  }

  lemma StillClosed(P: Problem, popped: State, n: Node, g: Pose)
    requires P.k > 0 && n.level > 0 && !Covers(n, g) && !Open(popped.heap, g)
    ensures !Open(Expand(P, popped, n, 4).heap, g)
  {
    hide Covers, Expand;
    ExpandLevels(P, popped, n, 4);
    forall m | m in Expand(P, popped, n, 4).heap ensures !Covers(m, g) {
      if m !in popped.heap {
        assert Within(m, n);
      }
    }
  }

  lemma TrappedExpand(t: Trap, st: State, scored: seq<Pose>, pruned: seq<Node>)
    requires IsTrap(t) && Trapped(t, st, scored, pruned) && !Done(t.P, st) && st.heap[0].level > 0
    ensures Trapped(t, Step(t.P, st), scored + StepScored(t.P, st), pruned + StepPruned(t.P, st))
  {
    hide Tiles, HeapOk, IsTrap, Expand, PrunedAmong, Covers, Outbid;
    var P, n, popped := t.P, st.heap[0], st.(heap := st.heap[1..]);
    TrapSize(t);
    StepOk(P, st);
    StepTiles(P, st, scored, pruned);
    PopOk(P, st);
    ExpandLevels(P, popped, n, 4);
    var st' := Step(P, st);
    assert st' == Expand(P, popped, n, 4) && StepPruned(P, st) == PrunedAmong(P, popped, n, 4);
    forall m, g | m in st'.heap && Goal(t, g) && Covers(m, g) ensures m.level >= t.level {
      if m in popped.heap {
        assert m in st.heap;
      } else {
        assert Within(m, n);
        HeadAbove(t, st, scored, pruned, g);
      }
    }
    forall g | Goal(t, g) ensures Outbid(t, st', g) {
      assert scored + StepScored(P, st) == scored + [];
      ExpandOutbids(t, st, scored + StepScored(P, st), pruned, g);
    }
  }

  lemma TrapSize(t: Trap)
    requires IsTrap(t)
    ensures t.P.k == 1
  {
  }

  lemma {:induction false} TrappedRun(t: Trap, st: State, scored: seq<Pose>, pruned: seq<Node>)
    requires IsTrap(t) && Trapped(t, st, scored, pruned)
    ensures Misses(t, Run(t.P, st))
    decreases HeapWeight(st.heap)
  {
    hide Trapped, IsTrap, Misses, Step, HeapWeight;
    TrapSize(t);
    TrappedMisses(t, st, scored, pruned);
    if !Done(t.P, st) {
      if st.heap[0].level == 0 {
        TrappedLeaf(t, st, scored, pruned);
      } else {
        TrappedExpand(t, st, scored, pruned);
      }
      StepDecreases(t.P, st);
      TrappedRun(t, Step(t.P, st), scored + StepScored(t.P, st), pruned + StepPruned(t.P, st));
    }
  }

  lemma TrappedMisses(t: Trap, st: State, scored: seq<Pose>, pruned: seq<Node>)
    requires Trapped(t, st, scored, pruned)
    ensures Misses(t, st.best)
  {
  }

  // ----- the start -----

  lemma {:induction false} SeedRowTop(P: Problem, st: State, yaw: int, ky: int, n: nat)
    requires forall m :: m in st.heap ==> m.level == P.top
    ensures forall m :: m in SeedRow(P, st, yaw, ky, n).heap ==> m.level == P.top
  {
    if n > 0 {
      SeedRowTop(P, st, yaw, ky, n - 1);
      var before, step := SeedRow(P, st, yaw, ky, n - 1), Pow2(P.top);
      PushElements(before.heap, Node(P.bound(P.top, yaw, ky * step, (n - 1) * step), before.next, P.top,
                                     ky * step, (n - 1) * step, yaw));
    }
  }

  lemma {:induction false} SeedYawTop(P: Problem, st: State, yaw: int, n: nat)
    requires forall m :: m in st.heap ==> m.level == P.top
    ensures forall m :: m in SeedYaw(P, st, yaw, n).heap ==> m.level == P.top
  {
    if n > 0 {
      SeedYawTop(P, st, yaw, n - 1);
      SeedRowTop(P, SeedYaw(P, st, yaw, n - 1), yaw, n - 1, Blocks(P.w, Pow2(P.top)));
    }
  }

  lemma {:induction false} SeedsAreTop(P: Problem, n: nat)
    ensures forall m :: m in Seeded(P, n).heap ==> m.level == P.top
  {
    if n > 0 {
      SeedsAreTop(P, n - 1);
      SeedYawTop(P, Seeded(P, n - 1), n - 1, Blocks(P.h, Pow2(P.top)));
    }
  }

  lemma SeedsOpen(P: Problem, p: Pose)
    requires InGrid(P, p)
    ensures Open(Init(P).heap, p)
  {
    hide Covers, Init;
    InitTiles(P);
    CoverWitness(Init(P).heap, p);
    assert Cover([], p) == 0 && multiset([])[p] == 0;
    assert Cover(Init(P).heap, p) + multiset([])[p] + Cover([], p) == 1;
  }

  lemma InitTrapped(t: Trap)
    requires IsTrap(t)
    ensures Trapped(t, Init(t.P), [], [])
  {
    hide Covers, Tiles, HeapOk, Hides, OnlyGoalsWin;
    var P := t.P;
    InitTiles(P);
    SeedsAreTop(P, P.yaws);
    forall g | Goal(t, g) ensures Outbid(t, Init(P), g) {
      SeedsOpen(P, t.decoy(g));
    }
  }

  /** No trapped search returns a best pose. */
  lemma TrapFails(t: Trap)
    requires IsTrap(t)
    ensures !IsTopK(t.P, Result(t.P))
  {
    InitTrapped(t);
    TrappedRun(t, Init(t.P), [], []);
    hide Run, Init, Hides, Outbids;
    var r := Run(t.P, Init(t.P));
    SortedIsIdentity(r);
    assert !Listed(r, t.prize);
  }
}
