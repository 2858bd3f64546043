/** The search's choices, bounds admissible or not: what it pops, queues, cuts and keeps, and how it breaks ties. */
module Policy {
  import opened Arith
  import opened Search
  import opened Frontier
  import opened Optimality

  // ----- ties among candidates -----

  /** The position of a pose when yaws, rows and columns are counted through. */
  function CellNumber(P: Problem, p: Pose): int { (p.yaw * P.h + p.ty) * P.w + p.tx }

  /** Equal scores rank in counting order: by yaw, then row, then column. */
  lemma TiesInCountingOrder(P: Problem, a: Cand, b: Cand)
    requires InGrid(P, a.pose) && InGrid(P, b.pose)
    ensures Ranks(a, b) <==> a.hits > b.hits || (a.hits == b.hits && CellNumber(P, a.pose) < CellNumber(P, b.pose))
  {
    var p, q := a.pose, b.pose;
    CountBefore(P.h, p.yaw, p.ty, q.yaw, q.ty);
    CountBefore(P.w, p.yaw * P.h + p.ty, p.tx, q.yaw * P.h + q.ty, q.tx);
  }

  /** Counting by rows of n: an earlier row, or the same row and an earlier column. */
  lemma CountBefore(n: int, i: int, j: int, i': int, j': int)
    requires 0 <= j < n && 0 <= j' < n
    ensures i * n + j < i' * n + j' <==> i < i' || (i == i' && j < j')
    ensures i * n + j == i' * n + j' <==> i == i' && j == j'
  {
    MulSign(i' - i, n);
    assert (i' - i) * n == i' * n - i * n;
  }

  lemma RanksTransitive(a: Cand, b: Cand, c: Cand)
    requires Ranks(a, b) && Ranks(b, c)
    ensures Ranks(a, c)
  {
  }

  // ----- the queue -----

  /** The popped node has the greatest bound, and among equals the smallest sequence number. */
  lemma PopsFirst(P: Problem, st: State, m: Node)
    requires HeapOk(P, st) && m in st.heap && m != st.heap[0]
    ensures m.bound < st.heap[0].bound || (m.bound == st.heap[0].bound && st.heap[0].order < m.order)
  {
    var j :| 0 <= j < |st.heap| && st.heap[j] == m;
  }

  /** The sequence number grows with every push. */
  lemma PushNumbers(st: State, n: Node)
    ensures PushNode(st, n).next == st.next + 1 && |PushNode(st, n).heap| == |st.heap| + 1
  {
  }

  /** Children are visited row by row. */
  lemma ChildPlaces(P: Problem, n: Node, order: nat)
    requires n.level > 0
    ensures var s := Pow2(n.level - 1);
            forall i: nat, c :: i < 4 && c == Child(P, n, i, order) ==>
              c.ty == n.ty + s * (if i < 2 then 0 else 1) && c.tx == n.tx + s * (if i == 0 || i == 2 then 0 else 1) &&
              c.level == n.level - 1 && c.yaw == n.yaw && c.order == order &&
              c.bound == P.bound(c.level, c.yaw, c.ty, c.tx)
  {
  }

  /** A seed with its sequence number. */
  function SeedAt(P: Problem, yaw: int, ky: int, kx: int, order: nat): Node {
    var step := Pow2(P.top);
    Node(P.bound(P.top, yaw, ky * step, kx * step), order, P.top, ky * step, kx * step, yaw)
  }

  lemma {:induction false} SeedRowGrows(P: Problem, st: State, yaw: int, ky: int, n: nat, m: Node)
    ensures SeedRow(P, st, yaw, ky, n).next == st.next + n
    ensures m in st.heap ==> m in SeedRow(P, st, yaw, ky, n).heap
  {
    if n > 0 {
      SeedRowGrows(P, st, yaw, ky, n - 1, m);
      var before := SeedRow(P, st, yaw, ky, n - 1);
      PushElements(before.heap, SeedAt(P, yaw, ky, n - 1, before.next));
    }
  }

  lemma {:induction false} SeedRowOrder(P: Problem, st: State, yaw: int, ky: int, n: nat, kx: nat)
    requires kx < n
    ensures SeedAt(P, yaw, ky, kx, st.next + kx) in SeedRow(P, st, yaw, ky, n).heap
  {
    var before := SeedRow(P, st, yaw, ky, n - 1);
    PushElements(before.heap, SeedAt(P, yaw, ky, n - 1, before.next));
    if kx < n - 1 {
      SeedRowOrder(P, st, yaw, ky, n - 1, kx);
    } else {
      SeedRowGrows(P, st, yaw, ky, n - 1, SeedAt(P, yaw, ky, kx, 0));
    }
  }

  function BlockRow(P: Problem): nat { var w := Blocks(P.w, Pow2(P.top)); if w < 0 then 0 else w }

  function BlockCol(P: Problem): nat { var h := Blocks(P.h, Pow2(P.top)); if h < 0 then 0 else h }

  lemma {:induction false} SeedYawGrows(P: Problem, st: State, yaw: int, n: nat, m: Node)
    ensures SeedYaw(P, st, yaw, n).next == st.next + n * BlockRow(P)
    ensures m in st.heap ==> m in SeedYaw(P, st, yaw, n).heap
  {
    hide SeedRow, Pow2;
    if n > 0 {
      SeedYawGrows(P, st, yaw, n - 1, m);
      SeedRowGrows(P, SeedYaw(P, st, yaw, n - 1), yaw, n - 1, BlockRow(P), m);
      assert n * BlockRow(P) == (n - 1) * BlockRow(P) + BlockRow(P);
    }
  }

  lemma {:induction false} SeedYawOrder(P: Problem, st: State, yaw: int, n: nat, ky: nat, kx: nat)
    requires ky < n && kx < BlockRow(P)
    ensures SeedAt(P, yaw, ky, kx, st.next + ky * BlockRow(P) + kx) in SeedYaw(P, st, yaw, n).heap
  {
    hide SeedRow, SeedAt, Pow2;
    var before := SeedYaw(P, st, yaw, n - 1);
    if ky < n - 1 {
      SeedYawOrder(P, st, yaw, n - 1, ky, kx);
      SeedRowGrows(P, before, yaw, n - 1, BlockRow(P), SeedAt(P, yaw, ky, kx, st.next + ky * BlockRow(P) + kx));
    } else {
      SeedYawGrows(P, st, yaw, n - 1, SeedAt(P, yaw, ky, kx, 0));
      SeedRowOrder(P, before, yaw, n - 1, BlockRow(P), kx);
    }
  }

  /** How many seeds one yaw has. */
  function YawSeeds(P: Problem): nat { CountThrough(BlockCol(P), BlockRow(P)) }

  lemma {:induction false} SeededCount(P: Problem, n: nat)
    ensures Seeded(P, n).next == n * YawSeeds(P)
  {
    hide SeedYaw, YawSeeds, Blocks;
    if n > 0 {
      SeededCount(P, n - 1);
      OneYawMore(P, Seeded(P, n - 1), n - 1, SeedAt(P, 0, 0, 0, 0));
      assert n * YawSeeds(P) == (n - 1) * YawSeeds(P) + YawSeeds(P);
    }
  }

  lemma OneYawMore(P: Problem, st: State, yaw: int, m: Node)
    ensures var w := SeedYaw(P, st, yaw, Blocks(P.h, Pow2(P.top)));
            Blocks(P.h, Pow2(P.top)) >= 0 && w.next == st.next + YawSeeds(P) && (m in st.heap ==> m in w.heap)
  {
    hide SeedYaw, Pow2;
    SeedYawGrows(P, st, yaw, BlockCol(P), m);
  }

  /** The place of a seed when all are counted through by yaw, block row and block column. */
  function SeedNumber(P: Problem, yaw: nat, ky: nat, kx: nat): nat {
    CountThrough(yaw, YawSeeds(P)) + CountThrough(ky, BlockRow(P)) + kx
  }

  function CountThrough(n: nat, each: nat): nat { n * each }

  lemma LastYawSeed(P: Problem, n: nat, ky: nat, kx: nat)
    requires n > 0 && ky < BlockCol(P) && kx < BlockRow(P)
    ensures SeedAt(P, n - 1, ky, kx, SeedNumber(P, n - 1, ky, kx)) in Seeded(P, n).heap
  {
    hide SeedYaw, SeedAt, YawSeeds, Pow2, Blocks;
    SeededCount(P, n - 1);
    SeedYawOrder(P, Seeded(P, n - 1), n - 1, BlockCol(P), ky, kx);
  }

  /** Seeds are numbered through by yaw, block row and block column. */
  lemma {:induction false} SeedOrder(P: Problem, n: nat, yaw: nat, ky: nat, kx: nat)
    requires yaw < n && ky < BlockCol(P) && kx < BlockRow(P)
    ensures SeedAt(P, yaw, ky, kx, SeedNumber(P, yaw, ky, kx)) in Seeded(P, n).heap
  {
    hide SeedYaw, SeedAt, SeedNumber, YawSeeds, BlockRow, BlockCol, Blocks, Pow2;
    if yaw < n - 1 {
      SeedOrder(P, n - 1, yaw, ky, kx);
      OneYawMore(P, Seeded(P, n - 1), n - 1, SeedAt(P, yaw, ky, kx, SeedNumber(P, yaw, ky, kx)));
    } else {
      LastYawSeed(P, n, ky, kx);
    }
  }

  // ----- what an expansion queues and cuts -----

  /** A child in the grid is left out exactly when the list is full and its bound is below the last kept score. */
  lemma ChildQueuedIff(P: Problem, st: State, n: Node, i: nat)
    requires P.k > 0 && n.level > 0 && i < 4
    ensures var c := Child(P, n, i, st.next);
            var r := TryChild(P, st, n, i);
            if c.ty < P.h && c.tx < P.w && (|st.best| < P.k || c.bound >= st.best[|st.best| - 1].hits)
            then r == PushNode(st, c) else r == st
  {
    hide Push, Child;
  }

  /** Whatever has been cut had a bound strictly below the last kept score. */
  lemma {:induction false} CutBelow(P: Problem, st: State, n: Node, i: nat)
    requires P.k > 0 && n.level > 0
    ensures forall m :: m in PrunedAmong(P, st, n, i) ==> |st.best| >= P.k && m.bound < st.best[|st.best| - 1].hits
  {
    hide Child, TryChild;
    if i > 0 {
      CutBelow(P, st, n, i - 1);
      BestStays(P, st, n, i - 1);
    }
  }

  lemma BestStays(P: Problem, st: State, n: Node, i: nat)
    requires P.k > 0 && n.level > 0
    ensures Expand(P, st, n, i).best == st.best
  {
  }

  // ----- what the list keeps -----

  function CandOf(P: Problem, q: Pose): Cand { Cand(P.bound(0, q.yaw, q.ty, q.tx), q) }

  ghost predicate KeptOrOutranked(P: Problem, best: seq<Cand>, q: Pose) {
    CandOf(P, q) in best || (|best| == P.k && forall x :: x in best ==> Ranks(x, CandOf(P, q)))
  }

  /** best is the k first of the scored poses in rank order. */
  ghost predicate FirstOf(P: Problem, best: seq<Cand>, scored: seq<Pose>) {
    Ranked(best) && |best| <= P.k && (forall x :: x in best ==> x.pose in scored && x == CandOf(P, x.pose)) &&
    forall q {:trigger KeptOrOutranked(P, best, q)} :: q in scored ==> KeptOrOutranked(P, best, q)
  }

  lemma AddFirst(P: Problem, best: seq<Cand>, scored: seq<Pose>, q: Pose)
    requires P.k > 0 && P.radius <= 0 && FirstOf(P, best, scored) && q !in scored
    ensures FirstOf(P, Add(P, best, CandOf(P, q)), scored + [q])
  {
    hide Ranks;
    var c := CandOf(P, q);
    var grown, kept := Insert(best, c), Add(P, best, c);
    SortAppend(best, c);
    InsertRanked(best, c);
    assert kept == if |grown| > P.k then grown[..P.k] else grown;
    CutRanked(P, grown, kept);
    forall p | p in scored + [q] ensures KeptOrOutranked(P, kept, p) {
      if CandOf(P, p) in grown {
        CutOutranks(P, grown, kept, CandOf(P, p));
      } else {
        assert KeptOrOutranked(P, best, p);
        GrownOutranks(P, best, c, grown, kept, CandOf(P, p));
      }
    }
  }

  lemma CutRanked(P: Problem, grown: seq<Cand>, kept: seq<Cand>)
    requires Ranked(grown) && kept == if |grown| > P.k then grown[..P.k] else grown
    ensures Ranked(kept) && |kept| <= P.k && forall x :: x in kept ==> x in grown
  {
    hide Ranks;
  }

  lemma CutOutranks(P: Problem, grown: seq<Cand>, kept: seq<Cand>, d: Cand)
    requires Ranked(grown) && kept == (if |grown| > P.k then grown[..P.k] else grown) && d in grown
    ensures d in kept || (|kept| == P.k && forall x :: x in kept ==> Ranks(x, d))
  {
    hide Ranks;
    var j :| 0 <= j < |grown| && grown[j] == d;
    if j < |kept| {
      assert kept[j] == d;
    }
  }

  /** Left out before and still: whatever entered ranks before what it pushed out. */
  lemma GrownOutranks(P: Problem, best: seq<Cand>, c: Cand, grown: seq<Cand>, kept: seq<Cand>, d: Cand)
    requires Ranked(grown) && (forall x :: x in grown <==> x == c || x in best) && |grown| == |best| + 1
    requires |best| == P.k && P.k > 0 && kept == grown[..P.k] && forall x :: x in best ==> Ranks(x, d)
    ensures |kept| == P.k && forall x :: x in kept ==> Ranks(x, d)
  {
    hide Ranks;
    var out := grown[P.k];
    forall x | x in kept ensures Ranks(x, d) {
      if x !in best {
        var j :| 0 <= j < |kept| && kept[j] == x;
        assert grown[j] == c && Ranks(grown[j], grown[P.k]);
        OutIsOld(best, c, grown, j, P.k);
        RanksTransitive(x, out, d);
      }
    }
  }

  lemma OutIsOld(best: seq<Cand>, c: Cand, grown: seq<Cand>, j: nat, k: nat)
    requires Ranked(grown) && j < k < |grown| && grown[j] == c && forall x :: x in grown <==> x == c || x in best
    ensures grown[k] in best
  {
    assert Ranks(grown[j], grown[k]);
    assert grown[k] in grown;
  }

  /** The last kept score never falls once the list is full. */
  lemma LastKeptGrows(P: Problem, best: seq<Cand>, scored: seq<Pose>, c: Cand)
    requires P.k > 0 && P.radius <= 0 && FirstOf(P, best, scored) && c.pose !in scored && |best| == P.k
    ensures var kept := Add(P, best, c); |kept| == P.k && kept[P.k - 1].hits >= best[P.k - 1].hits
  {
    hide KeptOrOutranked;
    var grown := Insert(best, c);
    SortAppend(best, c);
    InsertRanked(best, c);
    var last, out := grown[P.k - 1], grown[P.k];
    assert Ranks(last, out) && last in grown && out in grown;
    LastIsLeast(best);
    if last == c {
      OutIsOld(best, c, grown, P.k - 1, P.k);
    }
  }

  lemma LastIsLeast(best: seq<Cand>)
    requires Ranked(best) && best != []
    ensures forall x :: x in best ==> x.hits >= best[|best| - 1].hits
  {
    forall x | x in best ensures x.hits >= best[|best| - 1].hits {
      var i :| 0 <= i < |best| && best[i] == x;
      RankedHits(best, i, |best| - 1);
    }
  }

  ghost predicate CutsBelow(P: Problem, best: seq<Cand>, pruned: seq<Node>) {
    forall m :: m in pruned ==> |best| == P.k && P.k > 0 && m.bound < best[P.k - 1].hits
  }

  ghost predicate Lawful(P: Problem, st: State, scored: seq<Pose>, pruned: seq<Node>) {
    HeapOk(P, st) && Tiles(P, st, scored, pruned) && FirstOf(P, st.best, scored) && CutsBelow(P, st.best, pruned)
  }

  lemma LeafLawful(P: Problem, st: State, scored: seq<Pose>, pruned: seq<Node>)
    requires P.k > 0 && P.radius <= 0 && Lawful(P, st, scored, pruned) && !Done(P, st) && st.heap[0].level == 0
    ensures Lawful(P, Step(P, st), scored + StepScored(P, st), pruned + StepPruned(P, st))
  {
    hide Tiles, HeapOk, FirstOf, Add;
    var n := st.heap[0];
    var q := LeafPose(n);
    StepOk(P, st);
    StepTiles(P, st, scored, pruned);
    PopOk(P, st);
    NotYetScored(P, st, scored, pruned, n);
    AddFirst(P, st.best, scored, q);
    assert Step(P, st).best == Add(P, st.best, CandOf(P, q));
    assert pruned + [] == pruned;
    if |st.best| == P.k {
      LastKeptGrows(P, st.best, scored, CandOf(P, q));
    }
  }

  lemma NotYetScored(P: Problem, st: State, scored: seq<Pose>, pruned: seq<Node>, n: Node)
    requires Tiles(P, st, scored, pruned) && HeapOk(P, st) && n in st.heap && n.level == 0
    ensures LeafPose(n) !in scored
  {
    LeafCoversItself(n, LeafPose(n));
    CoverWitness(st.heap, LeafPose(n));
  }

  lemma ExpandLawful(P: Problem, st: State, scored: seq<Pose>, pruned: seq<Node>)
    requires P.k > 0 && P.radius <= 0 && Lawful(P, st, scored, pruned) && !Done(P, st) && st.heap[0].level > 0
    ensures Lawful(P, Step(P, st), scored + StepScored(P, st), pruned + StepPruned(P, st))
  {
    hide Tiles, HeapOk, PrunedAmong, Expand;
    var n, popped := st.heap[0], st.(heap := st.heap[1..]);
    StepOk(P, st);
    StepTiles(P, st, scored, pruned);
    CutBelow(P, popped, n, 4);
    assert scored + [] == scored;
    hide FirstOf;
  }

  lemma {:induction false} RunLawful(P: Problem, n: nat)
    requires P.k > 0 && P.radius <= 0
    ensures Lawful(P, After(P, n), ScoredBy(P, n), PrunedBy(P, n))
  {
    hide Step, StepScored, StepPruned, Init, Lawful;
    if n == 0 {
      StartLawful(P);
    } else {
      RunLawful(P, n - 1);
      LogsNext(P, n);
      var st := After(P, n - 1);
      if !Done(P, st) {
        if st.heap[0].level == 0 {
          LeafLawful(P, st, ScoredBy(P, n - 1), PrunedBy(P, n - 1));
        } else {
          ExpandLawful(P, st, ScoredBy(P, n - 1), PrunedBy(P, n - 1));
        }
      }
    }
  }

  lemma StartLawful(P: Problem)
    requires P.k > 0
    ensures Lawful(P, After(P, 0), ScoredBy(P, 0), PrunedBy(P, 0))
  {
    hide Init;
    InitTiles(P);
  }

  /** p lies below m, and m could not beat the last of k returned candidates: it was cut strictly below its score, or
      left queued with no more. */
  ghost predicate Forgone(P: Problem, r: seq<Cand>, cut: seq<Node>, left: seq<Node>, p: Pose) {
    |r| == P.k && P.k > 0 &&
    exists m :: Covers(m, p) &&
      ((m in cut && m.bound < r[P.k - 1].hits) || (m in left && m.bound <= r[P.k - 1].hits))
  }

  /** Whatever the bounds, suppression off: when the loop stops, the result is the k first of the poses it scored, and
      every other pose lies below a node whose bound could not beat the last of them. */
  lemma AnyBounds(P: Problem, n: nat, p: Pose)
    requires P.k > 0 && P.radius <= 0 && Done(P, After(P, n)) && InGrid(P, p)
    ensures FirstOf(P, Result(P), ScoredBy(P, n))
    ensures p in ScoredBy(P, n) || Forgone(P, Result(P), PrunedBy(P, n), After(P, n).heap, p)
  {
    hide After, ScoredBy, PrunedBy, Init, FirstOf, Covers, HeapOk;
    RunLawful(P, n);
    RunIsAfter(P, n);
    var st := After(P, n);
    ResultIsBest(P, st, ScoredBy(P, n));
    if p !in ScoredBy(P, n) {
      CoverWitness(st.heap, p);
      CoverWitness(PrunedBy(P, n), p);
      assert Cover(st.heap, p) + multiset(ScoredBy(P, n))[p] + Cover(PrunedBy(P, n), p) == 1;
      if m :| m in st.heap && Covers(m, p) {
        LeftBelow(P, st, m);
      }
    }
  }

  lemma LeftBelow(P: Problem, st: State, m: Node)
    requires P.k > 0 && HeapOk(P, st) && Done(P, st) && m in st.heap
    ensures |st.best| >= P.k && m.bound <= st.best[|st.best| - 1].hits
  {
    if m != st.heap[0] {
      PopsFirst(P, st, m);
    }
  }

  lemma ResultIsBest(P: Problem, st: State, scored: seq<Pose>)
    requires P.k > 0 && Run(P, Init(P)) == Run(P, st) && Done(P, st) && FirstOf(P, st.best, scored)
    ensures Result(P) == st.best && |st.best| <= P.k
  {
    hide Init;
    SortedIsIdentity(st.best);
  }

  /** The loop goes on while the head could still beat the last kept score. */
  lemma StopsIff(P: Problem, st: State)
    requires P.k > 0
    ensures Done(P, st) <==>
      st.heap == [] || (|st.best| >= P.k && st.heap[0].bound <= st.best[|st.best| - 1].hits)
  {
  }

  // ----- suppression, one candidate at a time -----

  /** In range on both axes, the radius included. */
  predicate WithinRadius(a: Pose, b: Pose, radius: int) {
    var dx, dy := if a.tx < b.tx then b.tx - a.tx else a.tx - b.tx, if a.ty < b.ty then b.ty - a.ty else a.ty - b.ty;
    dx <= radius && dy <= radius
  }

  ghost predicate FirstInRange(best: seq<Cand>, c: Cand, radius: int, j: int) {
    0 <= j < |best| && WithinRadius(best[j].pose, c.pose, radius) &&
    forall i :: 0 <= i < j ==> !WithinRadius(best[i].pose, c.pose, radius)
  }

  /** The new candidate is appended when no kept one is in range; otherwise only the first in range can change, and it
      does, to the new one, exactly when the new one scores more. */
  lemma {:induction false} SuppressMeaning(best: seq<Cand>, c: Cand, radius: int)
    ensures var r := Suppress(best, c, radius);
            if forall i :: 0 <= i < |best| ==> !WithinRadius(best[i].pose, c.pose, radius) then r == best + [c]
            else exists j :: FirstInRange(best, c, radius, j) && r == if c.hits > best[j].hits then best[j := c] else best
  {
    if best != [] {
      if WithinRadius(best[0].pose, c.pose, radius) {
        assert FirstInRange(best, c, radius, 0);
        assert best[0 := c] == [c] + best[1..];
      } else {
        SuppressMeaning(best[1..], c, radius);
        assert best == [best[0]] + best[1..];
        if j :| FirstInRange(best[1..], c, radius, j) &&
                Suppress(best[1..], c, radius) == (if c.hits > best[1..][j].hits then best[1..][j := c] else best[1..]) {
          assert FirstInRange(best, c, radius, j + 1);
          assert best[j + 1 := c] == [best[0]] + best[1..][j := c];
        }
      }
    }
  }

  /** Suppressed results in terms of the cells themselves: any two returned poses are more than the radius apart on
      some axis, and a pose above the last returned score is within it on both of a returned pose scoring no less. */
  lemma SuppressedCells(P: Problem, p: Pose, a: Cand, b: Cand)
    requires P.k > 0 && P.radius > 0 && AdmissibleBounds(P)
    ensures a in Result(P) && b in Result(P) && a != b ==> !WithinRadius(a.pose, b.pose, P.radius)
    ensures InGrid(P, p) && (|Result(P)| == P.k ==> Exact(P, p) > Result(P)[P.k - 1].hits) ==>
      exists c :: c in Result(P) && WithinRadius(c.pose, p, P.radius) && c.hits >= Exact(P, p)
  {
    hide Result, AdmissibleBounds, Exact;
    SuppressedResult(P, p);
  }
}
