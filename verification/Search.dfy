/** The best-first search as a state machine over any bound table, and what every run keeps. */
module Search {
  import opened Arith

  /** bound(level, yaw, ty, tx) is the hit count the search reads for a node; level 0 is exact. */
  datatype Problem = Problem(h: nat, w: nat, yaws: nat, top: nat, k: nat, radius: int,
                             bound: (nat, int, int, int) -> nat)

  datatype Pose = Pose(yaw: int, ty: int, tx: int)

  /** A heap entry; order is the push sequence number that breaks ties. */
  datatype Node = Node(bound: nat, order: nat, level: nat, ty: int, tx: int, yaw: int)

  datatype Cand = Cand(hits: nat, pose: Pose)

  datatype State = State(heap: seq<Node>, next: nat, best: seq<Cand>)

  // ----- the queue: heapq with unique keys pops in sorted key order -----

  predicate Before(a: Node, b: Node) {
    a.bound > b.bound || (a.bound == b.bound && a.order < b.order)
  }

  function Push(heap: seq<Node>, n: Node): (r: seq<Node>)
    ensures |r| == |heap| + 1
  {
    if heap == [] then [n]
    else if Before(n, heap[0]) then [n] + heap
    else [heap[0]] + Push(heap[1..], n)
  }

  ghost predicate SortedHeap(heap: seq<Node>) {
    forall i, j :: 0 <= i < j < |heap| ==> Before(heap[i], heap[j])
  }

  lemma {:induction false} PushElements(heap: seq<Node>, n: Node)
    ensures forall m :: m in Push(heap, n) <==> m == n || m in heap
  {
    if heap != [] && !Before(n, heap[0]) {
      PushElements(heap[1..], n);
      assert heap == [heap[0]] + heap[1..];
    }
  }

  lemma {:induction false} PushSorted(heap: seq<Node>, n: Node)
    requires SortedHeap(heap) && forall m :: m in heap ==> m.order < n.order
    ensures SortedHeap(Push(heap, n))
  {
    if heap != [] && !Before(n, heap[0]) {
      PushSorted(heap[1..], n);
      PushElements(heap[1..], n);
      var r := Push(heap[1..], n);
      forall j | 0 <= j < |r| ensures Before(heap[0], r[j]) {
        assert r[j] in r;
      }
    }
  }

  // ----- the candidate list -----

  /** The order of _candidate_sort_key: score descending, then yaw, ty, tx. */
  predicate Ranks(a: Cand, b: Cand) {
    a.hits > b.hits || (a.hits == b.hits && PoseBefore(a.pose, b.pose))
  }

  predicate PoseBefore(p: Pose, q: Pose) {
    p.yaw < q.yaw || (p.yaw == q.yaw && (p.ty < q.ty || (p.ty == q.ty && p.tx < q.tx)))
  }

  /** Stable insertion: c goes before the first candidate it strictly outranks. */
  function Insert(s: seq<Cand>, c: Cand): (r: seq<Cand>)
    ensures |r| == |s| + 1
  {
    if s == [] then [c]
    else if Ranks(c, s[0]) then [c] + s
    else [s[0]] + Insert(s[1..], c)
  }

  /** list.sort by the candidate key. */
  function Sorted(s: seq<Cand>): (r: seq<Cand>)
    ensures |r| == |s|
  {
    if s == [] then [] else Insert(Sorted(s[..|s| - 1]), s[|s| - 1])
  }

  ghost predicate Ranked(s: seq<Cand>) {
    forall i, j :: 0 <= i < j < |s| ==> Ranks(s[i], s[j])
  }

  lemma {:induction false} InsertLast(s: seq<Cand>, c: Cand)
    requires Ranked(s + [c])
    ensures Insert(s, c) == s + [c]
  {
    if s != [] {
      assert Ranks((s + [c])[0], (s + [c])[|s|]);
      assert (s + [c])[1..] == s[1..] + [c];
      InsertLast(s[1..], c);
    }
  }

  lemma {:induction false} SortedIsIdentity(s: seq<Cand>)
    requires Ranked(s)
    ensures Sorted(s) == s
  {
    if s != [] {
      assert s == s[..|s| - 1] + [s[|s| - 1]];
      SortedIsIdentity(s[..|s| - 1]);
      InsertLast(s[..|s| - 1], s[|s| - 1]);
    }
  }

  lemma {:induction false} InsertRanked(s: seq<Cand>, c: Cand)
    requires Ranked(s) && forall x :: x in s ==> x.pose != c.pose
    ensures Ranked(Insert(s, c))
    ensures forall x :: x in Insert(s, c) <==> x == c || x in s
  {
    if s != [] && !Ranks(c, s[0]) {
      InsertRanked(s[1..], c);
      var r := Insert(s[1..], c);
      assert s == [s[0]] + s[1..];
      forall j | 0 <= j < |r| ensures Ranks(s[0], r[j]) {
        assert r[j] in r;
      }
    }
  }

  predicate Near(a: Pose, b: Pose, radius: int) {
    -radius <= a.tx - b.tx <= radius && -radius <= a.ty - b.ty <= radius
  }

  /** The suppression scan: the first candidate in range absorbs c, or c is appended. */
  function Suppress(best: seq<Cand>, c: Cand, radius: int): seq<Cand> {
    if best == [] then [c]
    else if Near(best[0].pose, c.pose, radius) then (if c.hits > best[0].hits then [c] + best[1..] else best)
    else [best[0]] + Suppress(best[1..], c, radius)
  }

  // ----- the steps -----

  predicate Full(P: Problem, st: State) {
    |st.best| >= P.k
  }

  function Kth(st: State): nat
    requires st.best != []
  {
    st.best[|st.best| - 1].hits
  }

  /** The loop is over: nothing queued, or the best queued bound cannot beat the k-th candidate. */
  predicate Done(P: Problem, st: State)
    requires P.k > 0
  {
    st.heap == [] || (Full(P, st) && st.heap[0].bound <= Kth(st))
  }

  function Add(P: Problem, best: seq<Cand>, c: Cand): (r: seq<Cand>)
    ensures |r| <= |best| + 1
  {
    var grown := Sorted(if P.radius > 0 then Suppress(best, c, P.radius) else best + [c]);
    SuppressSize(best, c, P.radius);
    if |grown| > P.k then grown[..P.k] else grown
  }

  lemma {:induction false} SuppressSize(best: seq<Cand>, c: Cand, radius: int)
    ensures |best| <= |Suppress(best, c, radius)| <= |best| + 1
  {
    if best != [] {
      SuppressSize(best[1..], c, radius);
    }
  }

  function LeafPose(n: Node): Pose {
    Pose(n.yaw, n.ty, n.tx)
  }

  function ScoreLeaf(P: Problem, st: State, n: Node): State {
    st.(best := Add(P, st.best, Cand(P.bound(0, n.yaw, n.ty, n.tx), LeafPose(n))))
  }

  /** Child i of n, in visiting order: dy outer, dx inner. */
  function Child(P: Problem, n: Node, i: nat, order: nat): Node
    requires n.level > 0
  {
    var l, step := n.level - 1, Pow2(n.level - 1);
    var ty := if i / 2 == 0 then n.ty else n.ty + step;
    var tx := if i % 2 == 0 then n.tx else n.tx + step;
    Node(P.bound(l, n.yaw, ty, tx), order, l, ty, tx, n.yaw)
  }

  predicate InsideGrid(P: Problem, n: Node) {
    n.ty < P.h && n.tx < P.w
  }

  predicate Prunes(P: Problem, st: State, bound: nat)
    requires P.k > 0
  {
    Full(P, st) && bound < Kth(st)
  }

  function PushNode(st: State, n: Node): State {
    st.(heap := Push(st.heap, n), next := st.next + 1)
  }

  function TryChild(P: Problem, st: State, n: Node, i: nat): (r: State)
    requires n.level > 0 && P.k > 0
    ensures r.best == st.best
  {
    var c := Child(P, n, i, st.next);
    if !InsideGrid(P, c) || Prunes(P, st, c.bound) then st else PushNode(st, c)
  }

  function Expand(P: Problem, st: State, n: Node, i: nat): (r: State)
    requires n.level > 0 && P.k > 0
    ensures r.best == st.best
  {
    if i == 0 then st else TryChild(P, Expand(P, st, n, i - 1), n, i - 1)
  }

  function Step(P: Problem, st: State): State
    requires P.k > 0 && !Done(P, st)
  {
    var n, popped := st.heap[0], st.(heap := st.heap[1..]);
    if n.level == 0 then ScoreLeaf(P, popped, n) else Expand(P, popped, n, 4)
  }

  // ----- seeding -----

  function Blocks(n: nat, step: int): nat
    requires step > 0
  {
    (n + step - 1) / step
  }

  function SeedNode(P: Problem, st: State, yaw: int, ky: int, kx: int): State {
    var step := Pow2(P.top);
    PushNode(st, Node(P.bound(P.top, yaw, ky * step, kx * step), st.next, P.top, ky * step, kx * step, yaw))
  }

  function SeedRow(P: Problem, st: State, yaw: int, ky: int, n: nat): State {
    if n == 0 then st else SeedNode(P, SeedRow(P, st, yaw, ky, n - 1), yaw, ky, n - 1)
  }

  function SeedYaw(P: Problem, st: State, yaw: int, n: nat): State {
    if n == 0 then st else SeedRow(P, SeedYaw(P, st, yaw, n - 1), yaw, n - 1, Blocks(P.w, Pow2(P.top)))
  }

  function Seeded(P: Problem, n: nat): State {
    if n == 0 then State([], 0, []) else SeedYaw(P, Seeded(P, n - 1), n - 1, Blocks(P.h, Pow2(P.top)))
  }

  function Init(P: Problem): State {
    Seeded(P, P.yaws)
  }

  // ----- termination: the summed subtree sizes of the open nodes -----

  function Weight(l: nat): nat {
    if l == 0 then 1 else 1 + 4 * Weight(l - 1)
  }

  function HeapWeight(heap: seq<Node>): nat {
    if heap == [] then 0 else Weight(heap[0].level) + HeapWeight(heap[1..])
  }

  lemma {:induction false} PushWeight(heap: seq<Node>, n: Node)
    ensures HeapWeight(Push(heap, n)) == HeapWeight(heap) + Weight(n.level)
  {
    if heap != [] && !Before(n, heap[0]) {
      PushWeight(heap[1..], n);
    }
  }

  lemma TryChildWeight(P: Problem, st: State, n: Node, i: nat)
    requires n.level > 0 && P.k > 0
    ensures HeapWeight(TryChild(P, st, n, i).heap) <= HeapWeight(st.heap) + Weight(n.level - 1)
  {
    PushWeight(st.heap, Child(P, n, i, st.next));
  }

  lemma {:induction false} ExpandWeight(P: Problem, st: State, n: Node, i: nat, w: nat)
    requires n.level > 0 && P.k > 0 && w == Weight(n.level - 1)
    ensures HeapWeight(Expand(P, st, n, i).heap) <= HeapWeight(st.heap) + i * w
  {
    hide TryChild, HeapWeight, Weight;
    if i > 0 {
      ExpandWeight(P, st, n, i - 1, w);
      TryChildWeight(P, Expand(P, st, n, i - 1), n, i - 1);
      assert i * w == (i - 1) * w + w;
    }
  }

  /** Every pop strictly lowers the summed subtree sizes of the open nodes. */
  lemma StepDecreases(P: Problem, st: State)
    requires P.k > 0 && !Done(P, st)
    ensures HeapWeight(Step(P, st).heap) < HeapWeight(st.heap)
  {
    var n := st.heap[0];
    if n.level > 0 {
      ExpandWeight(P, st.(heap := st.heap[1..]), n, 4, Weight(n.level - 1));
    }
  }

  function Run(P: Problem, st: State): seq<Cand>
    requires P.k > 0
    decreases HeapWeight(st.heap)
  {
    if Done(P, st) then st.best
    else
      StepDecreases(P, st);
      Run(P, Step(P, st))
  }

  function Result(P: Problem): seq<Cand>
    requires P.k > 0
  {
    var best := Sorted(Run(P, Init(P)));
    if |best| > P.k then best[..P.k] else best
  }

  // ----- the frontier: open nodes, scored leaves and pruned subtrees tile the pose grid -----

  ghost predicate InGrid(P: Problem, p: Pose) {
    0 <= p.yaw < P.yaws && 0 <= p.ty < P.h && 0 <= p.tx < P.w
  }

  predicate Covers(n: Node, p: Pose) {
    n.yaw == p.yaw && n.ty <= p.ty < n.ty + Pow2(n.level) && n.tx <= p.tx < n.tx + Pow2(n.level)
  }

  ghost predicate NodeOk(P: Problem, n: Node) {
    0 <= n.yaw < P.yaws && n.level <= P.top &&
    0 <= n.ty < P.h && n.ty % Pow2(n.level) == 0 &&
    0 <= n.tx < P.w && n.tx % Pow2(n.level) == 0 &&
    n.bound == P.bound(n.level, n.yaw, n.ty, n.tx)
  }

  function One(b: bool): nat { if b then 1 else 0 }

  /** How many of the nodes cover p. */
  function Cover(nodes: seq<Node>, p: Pose): nat {
    if nodes == [] then 0 else One(Covers(nodes[0], p)) + Cover(nodes[1..], p)
  }

  ghost predicate HeapOk(P: Problem, st: State) {
    SortedHeap(st.heap) && forall n :: n in st.heap ==> NodeOk(P, n) && n.order < st.next
  }

  ghost predicate Tiles(P: Problem, st: State, scored: seq<Pose>, pruned: seq<Node>) {
    forall p :: InGrid(P, p) ==> Cover(st.heap, p) + multiset(scored)[p] + Cover(pruned, p) == 1
  }

  function StepScored(P: Problem, st: State): seq<Pose>
    requires P.k > 0 && !Done(P, st)
  {
    if st.heap[0].level == 0 then [LeafPose(st.heap[0])] else []
  }

  /** The one node a visited child may add to the pruned subtrees. */
  function PrunedChild(P: Problem, st: State, n: Node, i: nat): seq<Node>
    requires n.level > 0 && P.k > 0
  {
    var c := Child(P, n, i, st.next);
    if InsideGrid(P, c) && Prunes(P, st, c.bound) then [c] else []
  }

  function PrunedAmong(P: Problem, st: State, n: Node, i: nat): seq<Node>
    requires n.level > 0 && P.k > 0
  {
    if i == 0 then []
    else PrunedAmong(P, st, n, i - 1) + PrunedChild(P, Expand(P, st, n, i - 1), n, i - 1)
  }

  function StepPruned(P: Problem, st: State): seq<Node>
    requires P.k > 0 && !Done(P, st)
  {
    var n := st.heap[0];
    if n.level == 0 then [] else PrunedAmong(P, st.(heap := st.heap[1..]), n, 4)
  }

  lemma {:induction false} PushCover(heap: seq<Node>, n: Node, p: Pose)
    ensures Cover(Push(heap, n), p) == Cover(heap, p) + One(Covers(n, p))
  {
    if heap != [] && !Before(n, heap[0]) {
      PushCover(heap[1..], n, p);
    }
  }

  lemma {:induction false} AppendCover(nodes: seq<Node>, n: Node, p: Pose)
    ensures Cover(nodes + [n], p) == Cover(nodes, p) + One(Covers(n, p))
  {
    if nodes != [] {
      AppendCover(nodes[1..], n, p);
      assert (nodes + [n])[1..] == nodes[1..] + [n];
    }
  }

  lemma {:induction false} ConcatCover(a: seq<Node>, b: seq<Node>, p: Pose)
    ensures Cover(a + b, p) == Cover(a, p) + Cover(b, p)
  {
    if a != [] {
      ConcatCover(a[1..], b, p);
      assert (a + b)[1..] == a[1..] + b;
    } else {
      assert a + b == b;
    }
  }

  /** Some node of the list covers p. */
  lemma {:induction false} CoverWitness(nodes: seq<Node>, p: Pose)
    ensures Cover(nodes, p) > 0 <==> exists n :: n in nodes && Covers(n, p)
  {
    if nodes != [] {
      CoverWitness(nodes[1..], p);
      assert nodes == [nodes[0]] + nodes[1..];
    }
  }
}
