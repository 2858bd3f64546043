/** With admissible bounds the best-first search returns what an exhaustive ranking would. */
module Optimality {
  import opened Arith
  import opened Search
  import opened Frontier

  function Exact(P: Problem, p: Pose): nat {
    P.bound(0, p.yaw, p.ty, p.tx)
  }

  ghost predicate AdmissibleBounds(P: Problem) {
    forall n, p :: NodeOk(P, n) && InGrid(P, p) && Covers(n, p) ==> n.bound >= Exact(P, p)
  }

  /** c stands for q: it is q itself or, under suppression, a neighbour scoring at least as high. */
  ghost predicate Represents(P: Problem, c: Cand, q: Pose) {
    if P.radius > 0 then Near(c.pose, q, P.radius) && c.hits >= Exact(P, q) else c.pose == q
  }

  ghost predicate Represented(P: Problem, best: seq<Cand>, q: Pose) {
    exists c :: c in best && Represents(P, c, q)
  }

  ghost predicate Separated(best: seq<Cand>, radius: int) {
    forall a, b :: a in best && b in best && a != b ==> !Near(a.pose, b.pose, radius)
  }

  /** Ranked distinct in-grid poses with their exact scores, at most k of them. */
  ghost predicate Kept(P: Problem, best: seq<Cand>) {
    Ranked(best) && |best| <= P.k &&
    (forall c :: c in best ==> InGrid(P, c.pose) && c.hits == Exact(P, c.pose)) &&
    (P.radius > 0 ==> Separated(best, P.radius))
  }

  ghost predicate Ordered(P: Problem, heap: seq<Node>, scored: seq<Pose>) {
    forall q, n, p :: q in scored && n in heap && InGrid(P, p) && Covers(n, p) ==> Exact(P, q) >= Exact(P, p)
  }

  ghost predicate ScoredOk(P: Problem, best: seq<Cand>, scored: seq<Pose>) {
    (forall c :: c in best ==> c.pose in scored) &&
    (forall q :: q in scored ==> InGrid(P, q)) &&
    forall q {:trigger Represented(P, best, q)} :: q in scored ==> Represented(P, best, q)
  }

  ghost predicate Inv(P: Problem, st: State, scored: seq<Pose>) {
    HeapOk(P, st) && Tiles(P, st, scored, []) && Kept(P, st.best) && ScoredOk(P, st.best, scored) &&
    Ordered(P, st.heap, scored) &&
    (Full(P, st) && P.k > 0 ==> forall n :: n in st.heap ==> n.bound <= Kth(st))
  }

  // ----- adding a scored leaf -----

  lemma {:induction false} SuppressCases(best: seq<Cand>, c: Cand, radius: int)
    requires forall x :: x in best ==> c.hits <= x.hits
    ensures (exists x :: x in best && Near(x.pose, c.pose, radius)) ==> Suppress(best, c, radius) == best
    ensures !(exists x :: x in best && Near(x.pose, c.pose, radius)) ==> Suppress(best, c, radius) == best + [c]
  {
    if best != [] {
      assert best == [best[0]] + best[1..];
      SuppressCases(best[1..], c, radius);
      if !Near(best[0].pose, c.pose, radius) {
        assert (exists x :: x in best && Near(x.pose, c.pose, radius))
          <==> (exists x :: x in best[1..] && Near(x.pose, c.pose, radius));
        assert [best[0]] + (best[1..] + [c]) == best + [c];
      } else {
        assert best[0] in best;
      }
    }
  }

  lemma SortAppend(best: seq<Cand>, c: Cand)
    requires Ranked(best)
    ensures Sorted(best + [c]) == Insert(best, c)
  {
    assert (best + [c])[..|best|] == best;
    SortedIsIdentity(best);
  }

  ghost predicate InRange(P: Problem, best: seq<Cand>, p: Pose) {
    P.radius > 0 && exists x :: x in best && Near(x.pose, p, P.radius)
  }

  /** A leaf scoring no more than any kept candidate is absorbed or inserted; nothing is replaced or cut. */
  lemma AddWorst(P: Problem, best: seq<Cand>, c: Cand)
    requires P.k > 0 && |best| < P.k && Ranked(best)
    requires forall x :: x in best ==> c.hits <= x.hits
    ensures Add(P, best, c) == if InRange(P, best, c.pose) then best else Insert(best, c)
  {
    SuppressCases(best, c, P.radius);
    SortAppend(best, c);
    SortedIsIdentity(best);
  }

  lemma NearSymmetric(a: Pose, b: Pose, radius: int)
    ensures Near(a, b, radius) == Near(b, a, radius)
  {
  }

  ghost predicate CanAdd(P: Problem, best: seq<Cand>, c: Cand, scored: seq<Pose>) {
    P.k > 0 && |best| < P.k && Kept(P, best) && ScoredOk(P, best, scored) &&
    InGrid(P, c.pose) && c.hits == Exact(P, c.pose) && c.pose !in scored &&
    forall x :: x in best ==> c.hits <= x.hits
  }

  lemma StillRepresented(P: Problem, best: seq<Cand>, grown: seq<Cand>, scored: seq<Pose>)
    requires forall x :: x in best ==> x in grown
    requires ScoredOk(P, best, scored)
    ensures forall q :: q in scored ==> Represented(P, grown, q)
  {
    forall q | q in scored ensures Represented(P, grown, q) {
      assert Represented(P, best, q);
      var x :| x in best && Represents(P, x, q);
      assert x in grown;
    }
  }

  lemma InsertSeparated(P: Problem, best: seq<Cand>, grown: seq<Cand>, c: Cand)
    requires P.radius > 0 && Separated(best, P.radius) && !InRange(P, best, c.pose)
    requires forall x :: x in grown <==> x == c || x in best
    ensures Separated(grown, P.radius)
  {
    forall a, b | a in grown && b in grown && a != b ensures !Near(a.pose, b.pose, P.radius) {
      NearSymmetric(a.pose, b.pose, P.radius);
    }
  }

  lemma InsertKeeps(P: Problem, best: seq<Cand>, c: Cand, scored: seq<Pose>)
    requires CanAdd(P, best, c, scored) && !InRange(P, best, c.pose)
    ensures var grown := Insert(best, c);
            Kept(P, grown) && ScoredOk(P, grown, scored + [c.pose]) && c.hits <= grown[|grown| - 1].hits
  {
    var grown := Insert(best, c);
    InsertRanked(best, c);
    StillRepresented(P, best, grown, scored);
    assert Represented(P, grown, c.pose) by {
      assert c in grown && Represents(P, c, c.pose);
    }
    if P.radius > 0 {
      InsertSeparated(P, best, grown, c);
    }
    assert grown[|grown| - 1] in grown;
  }

  lemma AbsorbKeeps(P: Problem, best: seq<Cand>, q: Pose, scored: seq<Pose>)
    requires ScoredOk(P, best, scored) && InGrid(P, q) && InRange(P, best, q)
    requires forall x :: x in best ==> Exact(P, q) <= x.hits
    ensures ScoredOk(P, best, scored + [q])
  {
    var x :| x in best && Near(x.pose, q, P.radius);
    assert Represents(P, x, q);
    assert Represented(P, best, q);
  }

  lemma AddKeeps(P: Problem, best: seq<Cand>, c: Cand, scored: seq<Pose>, grown: seq<Cand>)
    requires CanAdd(P, best, c, scored)
    requires grown == if InRange(P, best, c.pose) then best else Insert(best, c)
    ensures Kept(P, grown) && ScoredOk(P, grown, scored + [c.pose])
    ensures |grown| >= P.k ==> c.hits <= grown[|grown| - 1].hits
  {
    if InRange(P, best, c.pose) {
      AbsorbKeeps(P, best, c.pose, scored);
    } else {
      InsertKeeps(P, best, c, scored);
    }
  }

  lemma ScoredOnce(P: Problem, st: State, scored: seq<Pose>, n: Node, p: Pose)
    requires Tiles(P, st, scored, []) && n in st.heap && Covers(n, p) && InGrid(P, p)
    ensures p !in scored
  {
    CoverWitness(st.heap, p);
  }

  lemma LeafOrdered(P: Problem, heap: seq<Node>, scored: seq<Pose>, q: Pose, top: nat)
    requires AdmissibleBounds(P) && Ordered(P, heap, scored) && Exact(P, q) == top
    requires forall m :: m in heap ==> NodeOk(P, m) && m.bound <= top
    ensures Ordered(P, heap, scored + [q])
  {
    forall r, m, p | r in scored + [q] && m in heap && InGrid(P, p) && Covers(m, p)
      ensures Exact(P, r) >= Exact(P, p)
    {
      if r !in scored {
        assert m.bound >= Exact(P, p);
      }
    }
  }

  lemma LeafIsNext(P: Problem, st: State, scored: seq<Pose>)
    requires P.k > 0 && Inv(P, st, scored) && !Done(P, st) && st.heap[0].level == 0
    ensures var q := LeafPose(st.heap[0]);
            CanAdd(P, st.best, Cand(Exact(P, q), q), scored) && st.heap[0].bound == Exact(P, q)
  {
    var n, q := st.heap[0], LeafPose(st.heap[0]);
    PopOk(P, st);
    LeafCoversItself(n, q);
    ScoredOnce(P, st, scored, n, q);
    assert InGrid(P, q);
    forall x | x in st.best ensures Exact(P, q) <= x.hits {
      assert x.pose in scored && n in st.heap;
    }
  }

  lemma TailOrdered(P: Problem, heap: seq<Node>, scored: seq<Pose>)
    requires heap != [] && Ordered(P, heap, scored)
    ensures Ordered(P, heap[1..], scored)
  {
  }

  lemma LeafAdds(P: Problem, st: State, scored: seq<Pose>)
    requires P.k > 0 && Inv(P, st, scored) && !Done(P, st) && st.heap[0].level == 0
    ensures var q, best := LeafPose(st.heap[0]), Step(P, st).best;
            Kept(P, best) && ScoredOk(P, best, scored + [q]) &&
            (|best| >= P.k ==> st.heap[0].bound <= best[|best| - 1].hits)
  {
    var q := LeafPose(st.heap[0]);
    var c := Cand(Exact(P, q), q);
    LeafIsNext(P, st, scored);
    AddWorst(P, st.best, c);
    AddKeeps(P, st.best, c, scored, Add(P, st.best, c));
  }

  lemma LeafKeepsInv(P: Problem, st: State, scored: seq<Pose>)
    requires P.k > 0 && AdmissibleBounds(P) && Inv(P, st, scored) && !Done(P, st) && st.heap[0].level == 0
    ensures Inv(P, Step(P, st), scored + StepScored(P, st))
  {
    var q := LeafPose(st.heap[0]);
    PopOk(P, st);
    StepOk(P, st);
    StepTiles(P, st, scored, []);
    LeafIsNext(P, st, scored);
    LeafAdds(P, st, scored);
    TailOrdered(P, st.heap, scored);
    LeafOrdered(P, st.heap[1..], scored, q, st.heap[0].bound);
    assert scored + StepScored(P, st) == scored + [q];
  }

  // ----- expanding a node -----

  ghost predicate Within(m: Node, n: Node) {
    forall p :: Covers(m, p) ==> Covers(n, p)
  }

  lemma ChildWithin(P: Problem, n: Node, i: nat, order: nat)
    requires n.level > 0
    ensures Within(Child(P, n, i, order), n)
  {
  }

  lemma {:induction false} ExpandElements(P: Problem, st: State, n: Node, i: nat)
    requires P.k > 0 && n.level > 0
    ensures forall m :: m in Expand(P, st, n, i).heap ==> m in st.heap || Within(m, n)
  {
    if i > 0 {
      ExpandElements(P, st, n, i - 1);
      var before := Expand(P, st, n, i - 1);
      var c := Child(P, n, i - 1, before.next);
      PushElements(before.heap, c);
      ChildWithin(P, n, i - 1, before.next);
    }
  }

  lemma {:induction false} NothingPruned(P: Problem, st: State, n: Node, i: nat)
    requires P.k > 0 && n.level > 0 && !Full(P, st)
    ensures PrunedAmong(P, st, n, i) == []
  {
    if i > 0 {
      NothingPruned(P, st, n, i - 1);
      assert !Full(P, Expand(P, st, n, i - 1));
      assert PrunedChild(P, Expand(P, st, n, i - 1), n, i - 1) == [];
    }
  }

  lemma ExpandOrdered(P: Problem, heap: seq<Node>, heap': seq<Node>, scored: seq<Pose>)
    requires heap != [] && Ordered(P, heap, scored)
    requires forall m :: m in heap' ==> m in heap[1..] || Within(m, heap[0])
    ensures Ordered(P, heap', scored)
  {
    forall q, m, p | q in scored && m in heap' && InGrid(P, p) && Covers(m, p)
      ensures Exact(P, q) >= Exact(P, p)
    {
      if m !in heap[1..] {
        assert Covers(heap[0], p) && heap[0] in heap;
      }
    }
  }

  lemma HeadOk(P: Problem, st: State)
    requires HeapOk(P, st) && st.heap != []
    ensures NodeOk(P, st.heap[0])
  {
  }

  lemma ExpandKeepsInv(P: Problem, st: State, scored: seq<Pose>)
    requires P.k > 0 && Inv(P, st, scored) && !Done(P, st) && st.heap[0].level > 0
    ensures Inv(P, Step(P, st), scored + StepScored(P, st)) && StepPruned(P, st) == []
  {
    hide Tiles, HeapOk, Ordered, Within, Expand, PrunedAmong, Kept, ScoredOk;
    var n, popped := st.heap[0], st.(heap := st.heap[1..]);
    assert !Full(P, st) by {
      assert st.heap[0] in st.heap;
    }
    HeadOk(P, st);
    StepOk(P, st);
    NothingPruned(P, popped, n, 4);
    StepTiles(P, st, scored, []);
    ExpandElements(P, popped, n, 4);
    ExpandOrdered(P, st.heap, Step(P, st).heap, scored);
    assert [] + StepPruned(P, st) == [] && scored + StepScored(P, st) == scored;
  }

  // ----- the outcome -----

  ghost predicate Outcome(P: Problem, best: seq<Cand>) {
    Kept(P, best) &&
    forall p :: InGrid(P, p) ==>
      Represented(P, best, p) || (|best| == P.k && P.k > 0 && Exact(P, p) <= best[P.k - 1].hits)
  }

  lemma LeftOver(P: Problem, st: State, scored: seq<Pose>, p: Pose)
    requires P.k > 0 && AdmissibleBounds(P) && Inv(P, st, scored) && Done(P, st) && InGrid(P, p) && p !in scored
    ensures |st.best| == P.k && Exact(P, p) <= Kth(st)
  {
    CoverWitness(st.heap, p);
    var n :| n in st.heap && Covers(n, p);
    PopOk(P, st);
    assert st.heap == [st.heap[0]] + st.heap[1..];
    assert NodeOk(P, n) && n.bound <= st.heap[0].bound;
  }

  lemma DoneOutcome(P: Problem, st: State, scored: seq<Pose>)
    requires P.k > 0 && AdmissibleBounds(P) && Inv(P, st, scored) && Done(P, st)
    ensures Outcome(P, st.best)
  {
    forall p | InGrid(P, p) && p !in scored ensures |st.best| == P.k && Exact(P, p) <= st.best[P.k - 1].hits {
      LeftOver(P, st, scored, p);
    }
  }

  lemma {:induction false} RunOutcome(P: Problem, st: State, scored: seq<Pose>)
    requires P.k > 0 && AdmissibleBounds(P) && Inv(P, st, scored)
    ensures Outcome(P, Run(P, st))
    decreases HeapWeight(st.heap)
  {
    if Done(P, st) {
      DoneOutcome(P, st, scored);
    } else {
      StepKeepsInv(P, st, scored);
      StepDecreases(P, st);
      RunOutcome(P, Step(P, st), scored + StepScored(P, st));
    }
  }

  lemma InitInv(P: Problem)
    requires P.k > 0
    ensures Inv(P, Init(P), [])
  {
    hide Init;
    InitTiles(P);
  }

  lemma ResultOutcome(P: Problem)
    requires P.k > 0 && AdmissibleBounds(P)
    ensures Outcome(P, Result(P)) && Result(P) == Run(P, Init(P))
  {
    InitInv(P);
    RunOutcome(P, Init(P), []);
    SortedIsIdentity(Run(P, Init(P)));
  }

  // ----- suppression off: the k best poses -----

  ghost predicate Listed(s: seq<Cand>, p: Pose) {
    exists c :: c in s && c.pose == p
  }

  /** The in-grid poses, each at most once, with exact scores in rank order, and only lower scores left out. */
  ghost predicate IsTopK(P: Problem, s: seq<Cand>) {
    Ranked(s) && |s| <= P.k &&
    (forall c :: c in s ==> InGrid(P, c.pose) && c.hits == Exact(P, c.pose)) &&
    forall p :: InGrid(P, p) && !Listed(s, p) ==> |s| == P.k && P.k > 0 && Exact(P, p) <= s[P.k - 1].hits
  }

  function PoseSet(s: seq<Cand>): set<Pose> {
    if s == [] then {} else PoseSet(s[..|s| - 1]) + {s[|s| - 1].pose}
  }

  lemma {:induction false} PoseSetMembers(s: seq<Cand>, p: Pose)
    ensures p in PoseSet(s) <==> Listed(s, p)
  {
    if s != [] {
      PoseSetMembers(s[..|s| - 1], p);
      assert s == s[..|s| - 1] + [s[|s| - 1]];
      assert s[|s| - 1] in s;
    }
  }

  lemma {:induction false} RankedDistinct(P: Problem, s: seq<Cand>)
    requires Ranked(s) && forall c :: c in s ==> c.hits == Exact(P, c.pose)
    ensures |PoseSet(s)| == |s|
  {
    if s != [] {
      var front, c := s[..|s| - 1], s[|s| - 1];
      RankedDistinct(P, front);
      PoseSetMembers(front, c.pose);
      assert forall i :: 0 <= i < |front| ==> front[i].pose != c.pose by {
        forall i | 0 <= i < |front| ensures front[i].pose != c.pose {
          assert s[i] in s && c in s && Ranks(s[i], s[|s| - 1]);
        }
      }
    }
  }

  lemma RankedHits(s: seq<Cand>, i: nat, j: nat)
    requires Ranked(s) && i < |s| && j < |s|
    ensures i <= j ==> s[i].hits >= s[j].hits
  {
  }

  lemma TopKResult(P: Problem)
    requires P.k > 0 && P.radius <= 0 && AdmissibleBounds(P)
    ensures IsTopK(P, Result(P))
  {
    ResultOutcome(P);
    forall p | InGrid(P, p) && Represented(P, Result(P), p) ensures Listed(Result(P), p) {
      var c :| c in Result(P) && Represents(P, c, p);
      assert c in Result(P) && c.pose == p;
    }
  }

  /** min(k, number of poses) candidates come back. */
  lemma TopKCount(P: Problem, s: seq<Cand>, all: set<Pose>)
    requires IsTopK(P, s) && forall p :: p in all <==> InGrid(P, p)
    ensures |s| == if P.k <= |all| then P.k else |all|
  {
    RankedDistinct(P, s);
    forall p ensures p in PoseSet(s) <==> Listed(s, p) {
      PoseSetMembers(s, p);
    }
    SubsetSize(PoseSet(s), all);
    if |s| < P.k {
      assert PoseSet(s) == all;
    }
  }

  lemma SubsetSize<T>(a: set<T>, b: set<T>)
    requires a <= b
    ensures |a| <= |b|
  {
    assert b == a + (b - a);
  }

  /** Whatever outranks position i is listed before it. */
  lemma Outranking(P: Problem, s: seq<Cand>, i: nat, p: Pose)
    requires IsTopK(P, s) && i < |s| && InGrid(P, p) && Exact(P, p) > s[i].hits
    ensures p in PoseSet(s[..i])
  {
    RankedHits(s, i, |s| - 1);
    assert Listed(s, p);
    var c :| c in s && c.pose == p;
    var j :| 0 <= j < |s| && s[j] == c;
    RankedHits(s, i, j);
    assert s[..i][j] == c;
    PoseSetMembers(s[..i], p);
  }

  lemma TopKDominates(P: Problem, a: seq<Cand>, b: seq<Cand>, i: nat)
    requires IsTopK(P, a) && IsTopK(P, b) && i < |a| && i < |b|
    ensures a[i].hits <= b[i].hits
  {
    if a[i].hits > b[i].hits {
      var front := a[..i + 1];
      RankedDistinct(P, front);
      RankedDistinct(P, b[..i]);
      forall p | p in PoseSet(front) ensures p in PoseSet(b[..i]) {
        PoseSetMembers(front, p);
        var c :| c in front && c.pose == p;
        var j :| 0 <= j < |front| && front[j] == c;
        assert c == a[j] && c in a;
        RankedHits(a, j, i);
        Outranking(P, b, i, p);
      }
      SubsetSize(PoseSet(front), PoseSet(b[..i]));
    }
  }

  /** Being a top-k list fixes the length and the score at every rank. */
  lemma TopKUnique(P: Problem, a: seq<Cand>, b: seq<Cand>, all: set<Pose>)
    requires IsTopK(P, a) && IsTopK(P, b) && forall p :: p in all <==> InGrid(P, p)
    ensures |a| == |b| && forall i :: 0 <= i < |a| ==> a[i].hits == b[i].hits
  {
    TopKCount(P, a, all);
    TopKCount(P, b, all);
    forall i | 0 <= i < |a| ensures a[i].hits == b[i].hits {
      TopKDominates(P, a, b, i);
      TopKDominates(P, b, a, i);
    }
  }

  // ----- the exhaustive reference -----

  function ScoreAll(P: Problem, poses: seq<Pose>): (s: seq<Cand>)
    ensures |s| == |poses| && forall i :: 0 <= i < |s| ==> s[i] == Cand(Exact(P, poses[i]), poses[i])
  {
    seq(|poses|, i requires 0 <= i < |poses| => Cand(Exact(P, poses[i]), poses[i]))
  }

  /** Score every pose, sort, keep the first k. */
  function Exhaustive(P: Problem, poses: seq<Pose>): seq<Cand> {
    var s := Sorted(ScoreAll(P, poses));
    if |s| > P.k then s[..P.k] else s
  }

  ghost predicate Enumerates(P: Problem, poses: seq<Pose>) {
    (forall i, j :: 0 <= i < j < |poses| ==> poses[i] != poses[j]) &&
    forall p :: InGrid(P, p) <==> p in poses
  }

  lemma {:induction false} SortDistinct(s: seq<Cand>)
    requires forall i, j :: 0 <= i < j < |s| ==> s[i].pose != s[j].pose
    ensures Ranked(Sorted(s)) && forall x :: x in Sorted(s) <==> x in s
  {
    hide Ranked, Ranks, Insert;
    NothingRanked();
    if s != [] {
      var front, c := s[..|s| - 1], s[|s| - 1];
      SortDistinct(front);
      LastIsNew(s);
      InsertRanked(Sorted(front), c);
    }
  }

  lemma NothingRanked()
    ensures Ranked([])
  {
  }

  lemma LastIsNew(s: seq<Cand>)
    requires s != [] && forall i, j :: 0 <= i < j < |s| ==> s[i].pose != s[j].pose
    ensures var front, c := s[..|s| - 1], s[|s| - 1];
            (forall x :: x in front ==> x.pose != c.pose) && forall x :: x in s <==> x in front || x == c
  {
    var front, c := s[..|s| - 1], s[|s| - 1];
    forall x | x in front ensures x.pose != c.pose {
      var i :| 0 <= i < |front| && front[i] == x;
      assert s[i] == x;
    }
    assert s == front + [c];
  }

  lemma ExhaustiveIsTopK(P: Problem, poses: seq<Pose>)
    requires P.k > 0 && Enumerates(P, poses)
    ensures IsTopK(P, Exhaustive(P, poses))
  {
    var s := ScoreAll(P, poses);
    SortDistinct(s);
    var r, e := Sorted(s), Exhaustive(P, poses);
    assert forall c :: c in e ==> c in r;
    forall p | InGrid(P, p) ensures Listed(e, p) || (|e| == P.k && Exact(P, p) <= e[P.k - 1].hits) {
      var i :| 0 <= i < |poses| && poses[i] == p;
      assert s[i] in r;
      var j :| 0 <= j < |r| && r[j] == s[i];
      if j < |e| {
        assert e[j] in e && e[j].pose == p;
      } else {
        RankedHits(r, P.k - 1, j);
      }
    }
  }

  /** Fast search equals exhaustive search: same length, same score at every rank. */
  lemma SearchIsExhaustive(P: Problem, poses: seq<Pose>)
    requires P.k > 0 && P.radius <= 0 && AdmissibleBounds(P) && Enumerates(P, poses)
    ensures var fast, full := Result(P), Exhaustive(P, poses);
            |fast| == |full| && forall i :: 0 <= i < |fast| ==> fast[i].hits == full[i].hits
  {
    TopKResult(P);
    ExhaustiveIsTopK(P, poses);
    TopKUnique(P, Result(P), Exhaustive(P, poses), set p | p in poses);
  }

  // ----- suppression on -----

  /** With suppression: returned poses are pairwise apart, and a pose above the last returned score, or any pose
      when fewer than k come back, lies in range of a returned pose scoring at least as high. */
  lemma SuppressedResult(P: Problem, p: Pose)
    requires P.k > 0 && P.radius > 0 && AdmissibleBounds(P)
    ensures var r := Result(P);
            Ranked(r) && |r| <= P.k && Separated(r, P.radius) &&
            (forall c :: c in r ==> InGrid(P, c.pose) && c.hits == Exact(P, c.pose)) &&
            (InGrid(P, p) && (|r| == P.k ==> Exact(P, p) > r[P.k - 1].hits) ==>
              exists c :: c in r && Near(c.pose, p, P.radius) && c.hits >= Exact(P, p))
  {
    hide Result;
    hide Run;
    hide AdmissibleBounds;
    ResultOutcome(P);
    if InGrid(P, p) && Represented(P, Result(P), p) {
      var c :| c in Result(P) && Represents(P, c, p);
      assert c in Result(P) && Near(c.pose, p, P.radius) && c.hits >= Exact(P, p);
    }
  }

  // ----- what never happens under admissible bounds -----

  ghost predicate NonIncreasing(P: Problem, poses: seq<Pose>) {
    forall i, j :: 0 <= i < j < |poses| ==> Exact(P, poses[i]) >= Exact(P, poses[j])
  }

  lemma NextInOrder(P: Problem, st: State, scored: seq<Pose>)
    requires P.k > 0 && Inv(P, st, scored) && !Done(P, st) && NonIncreasing(P, scored)
    ensures NonIncreasing(P, scored + StepScored(P, st))
  {
    if st.heap[0].level == 0 {
      var n, q := st.heap[0], LeafPose(st.heap[0]);
      PopOk(P, st);
      LeafCoversItself(n, q);
      forall i | 0 <= i < |scored| ensures Exact(P, scored[i]) >= Exact(P, q) {
        assert scored[i] in scored && n in st.heap && InGrid(P, q);
      }
    }
  }

  lemma LogsNext(P: Problem, n: nat)
    requires P.k > 0 && n > 0
    ensures var st := After(P, n - 1);
            if Done(P, st)
            then After(P, n) == st && ScoredBy(P, n) == ScoredBy(P, n - 1) && PrunedBy(P, n) == PrunedBy(P, n - 1)
            else After(P, n) == Step(P, st) && ScoredBy(P, n) == ScoredBy(P, n - 1) + StepScored(P, st) &&
                 PrunedBy(P, n) == PrunedBy(P, n - 1) + StepPruned(P, st)
  {
    hide Step;
    hide StepScored;
    hide StepPruned;
    hide Done;
  }

  ghost predicate InOrder(P: Problem, n: nat)
    requires P.k > 0
  {
    Inv(P, After(P, n), ScoredBy(P, n)) && NonIncreasing(P, ScoredBy(P, n)) && PrunedBy(P, n) == []
  }

  lemma InOrderNext(P: Problem, n: nat)
    requires P.k > 0 && AdmissibleBounds(P) && n > 0 && InOrder(P, n - 1)
    ensures InOrder(P, n)
  {
    hide *;
    InOrderParts(P, n - 1);
    LogsNext(P, n);
    var st, scored := After(P, n - 1), ScoredBy(P, n - 1);
    if !Done(P, st) {
      NextInOrder(P, st, scored);
      StepKeepsInv(P, st, scored);
    }
    InOrderParts(P, n);
  }

  lemma InOrderStart(P: Problem)
    requires P.k > 0
    ensures InOrder(P, 0)
  {
    InitInv(P);
    hide Init;
    hide Inv;
  }

  lemma InOrderParts(P: Problem, n: nat)
    requires P.k > 0
    ensures InOrder(P, n) <==>
      Inv(P, After(P, n), ScoredBy(P, n)) && NonIncreasing(P, ScoredBy(P, n)) && PrunedBy(P, n) == []
  {
  }

  /** In every reachable state: leaves have come out in non-increasing score, and no child was ever pruned. */
  lemma {:induction false} LeavesInOrder(P: Problem, n: nat)
    requires P.k > 0 && AdmissibleBounds(P)
    ensures InOrder(P, n)
  {
    hide InOrder;
    if n == 0 {
      InOrderStart(P);
    } else {
      LeavesInOrder(P, n - 1);
      InOrderNext(P, n);
    }
  }

  lemma StepKeepsInv(P: Problem, st: State, scored: seq<Pose>)
    requires P.k > 0 && AdmissibleBounds(P) && Inv(P, st, scored) && !Done(P, st)
    ensures Inv(P, Step(P, st), scored + StepScored(P, st)) && StepPruned(P, st) == []
  {
    if st.heap[0].level == 0 {
      LeafKeepsInv(P, st, scored);
    } else {
      ExpandKeepsInv(P, st, scored);
    }
    hide Inv;
    hide Step;
  }

  /** No scored leaf ever replaces a kept candidate or pushes one out: it is absorbed or inserted. */
  lemma NothingReplaced(P: Problem, n: nat)
    requires P.k > 0 && AdmissibleBounds(P) && !Done(P, After(P, n)) && After(P, n).heap[0].level == 0
    ensures var st := After(P, n);
            var c := Cand(Exact(P, LeafPose(st.heap[0])), LeafPose(st.heap[0]));
            Step(P, st).best == if InRange(P, st.best, c.pose) then st.best else Insert(st.best, c)
  {
    LeavesInOrder(P, n);
    var st := After(P, n);
    LeafIsNext(P, st, ScoredBy(P, n));
    AddWorst(P, st.best, Cand(Exact(P, LeafPose(st.heap[0])), LeafPose(st.heap[0])));
  }
}
