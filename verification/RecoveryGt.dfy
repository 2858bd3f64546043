/** The ground-truth recovery verdict: stamp matching, loss detection and recovered-window segmentation. */
module RecoveryGt {
  import opened Options
  import opened Reals

  datatype Point = Point(stamp: real, x: real, y: real)

  datatype Sample = Sample(stamp: real, error: Option<real>)

  datatype Window = Window(start: real, end: real)

  function Duration(w: Window): real { w.end - w.start }

  // ----- nearest ground truth -----

  ghost predicate Sorted(stamps: seq<real>) {
    forall i, j :: 0 <= i < j < |stamps| ==> stamps[i] <= stamps[j]
  }

  /** bisect.bisect_left on a sorted list. */
  function BisectLeft(stamps: seq<real>, stamp: real): (n: nat)
    ensures n <= |stamps|
    ensures forall i :: 0 <= i < n ==> stamps[i] < stamp
    ensures n < |stamps| ==> stamps[n] >= stamp
  {
    if stamps == [] || stamps[0] >= stamp then 0
    else
      var m := BisectLeft(stamps[1..], stamp);
      assert forall i :: 1 <= i < m + 1 ==> stamps[i] == stamps[1..][i - 1];
      m + 1
  }

  ghost predicate Nearest(stamps: seq<real>, stamp: real, i: nat) {
    i < |stamps| && forall j :: 0 <= j < |stamps| ==> Abs(stamps[i] - stamp) <= Abs(stamps[j] - stamp)
  }

  /** A global nearest neighbour within the tolerance, the later stamp on a tie; none only if none is that near. */
  method NearestGtIndex(stamps: seq<real>, stamp: real, maxDelta: real) returns (r: Option<nat>)
    requires Sorted(stamps)
    ensures r.Some? ==> Nearest(stamps, stamp, r.value) && Abs(stamps[r.value] - stamp) <= maxDelta
    ensures r.Some? ==> forall j :: 0 <= j < |stamps| && Abs(stamps[j] - stamp) == Abs(stamps[r.value] - stamp) ==>
      stamps[j] <= stamps[r.value]
    ensures r.None? <==> forall j :: 0 <= j < |stamps| ==> Abs(stamps[j] - stamp) > maxDelta
  {
    if stamps == [] {
      return None;
    }
    var index := BisectLeft(stamps, stamp);
    var candidates: seq<nat> := [];
    if index < |stamps| {
      candidates := candidates + [index];
    }
    if index > 0 {
      candidates := candidates + [index - 1];
    }
    var best, bestDelta := FirstClosest(stamps, stamp, candidates);
    NeighboursNearest(stamps, stamp, index, candidates, best);
    if bestDelta > maxDelta {
      return None;
    }
    r := Some(best);
  }

  /** The first candidate of least distance. */
  method FirstClosest(stamps: seq<real>, stamp: real, candidates: seq<nat>) returns (best: nat, bestDelta: real)
    requires candidates != [] && forall m :: 0 <= m < |candidates| ==> candidates[m] < |stamps|
    ensures best in candidates && bestDelta == Abs(stamps[best] - stamp)
    ensures forall m :: 0 <= m < |candidates| ==> bestDelta <= Abs(stamps[candidates[m]] - stamp)
    ensures best == candidates[0] || bestDelta < Abs(stamps[candidates[0]] - stamp)
  {
    best, bestDelta := candidates[0], Abs(stamps[candidates[0]] - stamp);
    for k := 1 to |candidates|
      invariant best in candidates && bestDelta == Abs(stamps[best] - stamp)
      invariant forall m :: 0 <= m < k ==> bestDelta <= Abs(stamps[candidates[m]] - stamp)
      invariant best == candidates[0] || bestDelta < Abs(stamps[candidates[0]] - stamp)
    {
      var delta := Abs(stamps[candidates[k]] - stamp);
      if delta < bestDelta {
        best, bestDelta := candidates[k], delta;
      }
    }
  }

  /** The closer of the two neighbours of the insertion point is nearest overall. */
  lemma NeighboursNearest(stamps: seq<real>, stamp: real, index: nat, candidates: seq<nat>, best: nat)
    requires Sorted(stamps) && stamps != [] && index == BisectLeft(stamps, stamp) && best in candidates
    requires candidates == (if index < |stamps| then [index] else []) + (if index > 0 then [index - 1] else [])
    requires forall m :: 0 <= m < |candidates| ==> Abs(stamps[best] - stamp) <= Abs(stamps[candidates[m]] - stamp)
    requires best == candidates[0] || Abs(stamps[best] - stamp) < Abs(stamps[candidates[0]] - stamp)
    ensures Nearest(stamps, stamp, best)
    ensures forall j :: 0 <= j < |stamps| && Abs(stamps[j] - stamp) == Abs(stamps[best] - stamp) ==> stamps[j] <= stamps[best]
  {
    forall j | 0 <= j < |stamps| ensures Abs(stamps[best] - stamp) <= Abs(stamps[j] - stamp) {
      if j < index {
        assert index - 1 in candidates && (j == index - 1 || stamps[j] <= stamps[index - 1]);
      } else {
        assert index in candidates && (j == index || stamps[index] <= stamps[j]);
      }
    }
  }

  function Stamps(points: seq<Point>): (s: seq<real>)
    ensures |s| == |points| && forall i :: 0 <= i < |s| ==> s[i] == points[i].stamp
  {
    seq(|points|, i requires 0 <= i < |points| => points[i].stamp)
  }

  /** The sample is matched to a nearest truth within tolerance, or unmatched because there is none. */
  ghost predicate Matched(s: Sample, pose: Point, truth: seq<Point>, maxDelta: real, distance: (Point, Point) -> real) {
    s.stamp == pose.stamp &&
    if s.error.Some?
    then exists i: nat :: Nearest(Stamps(truth), pose.stamp, i) && Abs(truth[i].stamp - pose.stamp) <= maxDelta &&
           s.error.value == distance(pose, truth[i])
    else forall j :: 0 <= j < |truth| ==> Abs(truth[j].stamp - pose.stamp) > maxDelta
  }

  method ComputePoseErrors(poses: seq<Point>, truth: seq<Point>, maxDelta: real, distance: (Point, Point) -> real)
    returns (errors: seq<Sample>)
    requires Sorted(Stamps(truth))
    ensures |errors| == |poses| && forall k :: 0 <= k < |poses| ==> Matched(errors[k], poses[k], truth, maxDelta, distance)
  {
    var stamps := Stamps(truth);
    errors := [];
    for k := 0 to |poses|
      invariant |errors| == k
      invariant forall m :: 0 <= m < k ==> Matched(errors[m], poses[m], truth, maxDelta, distance)
    {
      var index := NearestGtIndex(stamps, poses[k].stamp, maxDelta);
      var s := Sample(poses[k].stamp, if index.None? then None else Some(distance(poses[k], truth[index.value])));
      assert Matched(s, poses[k], truth, maxDelta, distance) by {
        if index.None? {
          forall j | 0 <= j < |truth| ensures Abs(truth[j].stamp - poses[k].stamp) > maxDelta {
            assert stamps[j] == truth[j].stamp;
          }
        }
      }
      errors := errors + [s];
    }
  }

  // ----- loss -----

  predicate Lost(s: Sample, threshold: real) {
    s.error.Some? && s.error.value > threshold
  }

  ghost predicate FirstLossAt(errors: seq<Sample>, threshold: real, k: int) {
    0 <= k < |errors| && Lost(errors[k], threshold) && forall m :: 0 <= m < k ==> !Lost(errors[m], threshold)
  }

  method FindFirstLossSec(errors: seq<Sample>, threshold: real) returns (first: Option<real>)
    ensures first.None? <==> forall k :: 0 <= k < |errors| ==> !Lost(errors[k], threshold)
    ensures first.Some? ==> exists k :: FirstLossAt(errors, threshold, k) && first.value == errors[k].stamp
  {
    for k := 0 to |errors|
      invariant forall m :: 0 <= m < k ==> !Lost(errors[m], threshold)
    {
      if errors[k].error.Some? && errors[k].error.value > threshold {
        assert FirstLossAt(errors, threshold, k);
        return Some(errors[k].stamp);
      }
    }
    first := None;
  }

  ghost predicate InOrder(at: seq<int>) {
    forall k, m :: 0 <= k < m < |at| ==> at[k] < at[m]
  }

  /** Every listed position is one of a sample not before the loss. */
  ghost predicate OnlyFrom(errors: seq<Sample>, firstLoss: real, at: seq<int>) {
    forall k :: 0 <= k < |at| ==> 0 <= at[k] < |errors| && errors[at[k]].stamp >= firstLoss
  }

  /** Every sample not before the loss has its position listed. */
  ghost predicate AllFrom(errors: seq<Sample>, firstLoss: real, at: seq<int>) {
    forall i :: 0 <= i < |errors| && errors[i].stamp >= firstLoss ==> i in at
  }

  /** The positions from the loss on: exactly those whose stamp is not before it, each once, in order. */
  ghost predicate PositionsFrom(errors: seq<Sample>, firstLoss: real, at: seq<int>) {
    InOrder(at) && OnlyFrom(errors, firstLoss, at) && AllFrom(errors, firstLoss, at)
  }

  function Positions(errors: seq<Sample>, firstLoss: real): (at: seq<int>)
    ensures PositionsFrom(errors, firstLoss, at)
  {
    if errors == [] then []
    else
      var n := |errors| - 1;
      var at := Positions(errors[..n], firstLoss);
      OneMorePosition(errors, firstLoss, at);
      if errors[n].stamp >= firstLoss then at + [n] else at
  }

  lemma OneMorePosition(errors: seq<Sample>, firstLoss: real, at: seq<int>)
    requires errors != [] && PositionsFrom(errors[..|errors| - 1], firstLoss, at)
    ensures var n := |errors| - 1;
            PositionsFrom(errors, firstLoss, if errors[n].stamp >= firstLoss then at + [n] else at)
  {
    hide InOrder, OnlyFrom, AllFrom;
    OnlyMore(errors, firstLoss, at);
    AllMore(errors, firstLoss, at);
    OrderMore(at, |errors| - 1, errors[..|errors| - 1], firstLoss);
  }

  lemma OnlyMore(errors: seq<Sample>, firstLoss: real, at: seq<int>)
    requires errors != [] && OnlyFrom(errors[..|errors| - 1], firstLoss, at)
    ensures var n := |errors| - 1;
            OnlyFrom(errors, firstLoss, if errors[n].stamp >= firstLoss then at + [n] else at)
  {
  }

  lemma AllMore(errors: seq<Sample>, firstLoss: real, at: seq<int>)
    requires errors != [] && AllFrom(errors[..|errors| - 1], firstLoss, at)
    ensures var n := |errors| - 1;
            AllFrom(errors, firstLoss, if errors[n].stamp >= firstLoss then at + [n] else at)
  {
    var n, front := |errors| - 1, errors[..|errors| - 1];
    var more := if errors[n].stamp >= firstLoss then at + [n] else at;
    forall i | 0 <= i < |errors| && errors[i].stamp >= firstLoss ensures i in more {
      if i < n {
        assert front[i].stamp >= firstLoss;
      } else {
        assert more[|at|] == n;
      }
    }
  }

  lemma OrderMore(at: seq<int>, n: int, front: seq<Sample>, firstLoss: real)
    requires InOrder(at) && OnlyFrom(front, firstLoss, at) && n == |front|
    ensures InOrder(at + [n])
  {
  }

  /** s holds the samples at those positions. */
  ghost predicate Picks(errors: seq<Sample>, at: seq<int>, s: seq<Sample>) {
    |s| == |at| && forall k :: 0 <= k < |s| ==> 0 <= at[k] < |errors| && s[k] == errors[at[k]]
  }

  function AfterLoss(errors: seq<Sample>, firstLoss: real): (s: seq<Sample>)
    ensures Picks(errors, Positions(errors, firstLoss), s)
  {
    var at := Positions(errors, firstLoss);
    seq(|at|, k requires 0 <= k < |at| => errors[at[k]])
  }

  // ----- recovered windows -----

  datatype Limits = Limits(recovered: real, minWindow: real, maxGap: real)

  /** At or below the threshold, and within the gap limit of its predecessor. */
  predicate Good(s: seq<Sample>, c: Limits, i: int)
    requires 0 <= i < |s|
  {
    s[i].error.Some? && s[i].error.value <= c.recovered && (i == 0 || s[i].stamp - s[i - 1].stamp <= c.maxGap)
  }

  ghost predicate AllGood(s: seq<Sample>, c: Limits, i: int, j: int) {
    0 <= i <= j < |s| && forall k :: i <= k <= j ==> Good(s, c, k)
  }

  /** A run of good samples that cannot be extended on either side. */
  ghost predicate MaximalRun(s: seq<Sample>, c: Limits, i: int, j: int) {
    AllGood(s, c, i, j) && (i == 0 || !Good(s, c, i - 1)) && (j == |s| - 1 || !Good(s, c, j + 1))
  }

  ghost predicate Qualifies(s: seq<Sample>, c: Limits, i: int, j: int) {
    MaximalRun(s, c, i, j) && s[j].stamp - s[i].stamp >= c.minWindow
  }

  datatype Span = Span(i: int, j: int)

  /** windows lists, in order, exactly the qualifying runs that end before position n. */
  ghost predicate Lists(s: seq<Sample>, c: Limits, windows: seq<Window>, runs: seq<Span>, n: int) {
    |windows| == |runs| &&
    (forall k :: 0 <= k < |runs| ==>
      Qualifies(s, c, runs[k].i, runs[k].j) && runs[k].j < n &&
      windows[k] == Window(s[runs[k].i].stamp, s[runs[k].j].stamp)) &&
    (forall k, m :: 0 <= k < m < |runs| ==> runs[k].j < runs[m].i) &&
    forall i, j :: Qualifies(s, c, i, j) && j < n ==> Span(i, j) in runs
  }

  /** windows are precisely the qualifying runs that end before position n, in order. */
  ghost predicate WindowsOf(s: seq<Sample>, c: Limits, windows: seq<Window>, n: int) {
    exists runs: seq<Span> :: Lists(s, c, windows, runs, n)
  }

  lemma {:induction false} ListsOnce(s: seq<Sample>, c: Limits, v: seq<Window>, w: seq<Window>,
                                     runs: seq<Span>, others: seq<Span>, n: int)
    requires Lists(s, c, v, runs, n) && Lists(s, c, w, others, n)
    ensures v == w
    decreases |runs|
  {
    if runs != [] {
      SomeRun(s, c, v, w, runs, others, n);
    }
    if others != [] {
      SomeRun(s, c, w, v, others, runs, n);
      var a, b := runs[|runs| - 1], others[|others| - 1];
      assert a in others && b in runs;
      assert a == b;
      DropLast(s, c, v, runs, n);
      DropLast(s, c, w, others, n);
      ListsOnce(s, c, v[..|v| - 1], w[..|w| - 1], runs[..|runs| - 1], others[..|others| - 1], a.j);
      assert v == v[..|v| - 1] + [v[|v| - 1]] && w == w[..|w| - 1] + [w[|w| - 1]];
    }
  }

  lemma SomeRun(s: seq<Sample>, c: Limits, v: seq<Window>, w: seq<Window>, runs: seq<Span>, others: seq<Span>, n: int)
    requires Lists(s, c, v, runs, n) && Lists(s, c, w, others, n) && runs != []
    ensures others != []
  {
    assert runs[0] in others;
  }

  lemma DropLast(s: seq<Sample>, c: Limits, windows: seq<Window>, runs: seq<Span>, n: int)
    requires Lists(s, c, windows, runs, n) && runs != []
    ensures Lists(s, c, windows[..|windows| - 1], runs[..|runs| - 1], runs[|runs| - 1].j)
  {
    var front, last := runs[..|runs| - 1], runs[|runs| - 1];
    forall i, j | Qualifies(s, c, i, j) && j < last.j ensures Span(i, j) in front {
      var k :| 0 <= k < |runs| && runs[k] == Span(i, j);
      assert front[k] == Span(i, j);
    }
  }

  /** The declarative meaning fixes the list of windows. */
  lemma WindowsUnique(s: seq<Sample>, c: Limits, v: seq<Window>, w: seq<Window>, n: int)
    requires WindowsOf(s, c, v, n) && WindowsOf(s, c, w, n)
    ensures v == w
  {
    var runs: seq<Span> :| Lists(s, c, v, runs, n);
    var others: seq<Span> :| Lists(s, c, w, others, n);
    ListsOnce(s, c, v, w, runs, others, n);
  }

  lemma RunsMeet(s: seq<Sample>, c: Limits, i: int, j: int, i': int, j': int)
    requires MaximalRun(s, c, i, j) && MaximalRun(s, c, i', j') && i <= j' && i' <= j
    ensures i == i' && j == j'
  {
    hide Good;
  }

  /** Closing the run i..n-1 keeps the windows exact up to n. */
  lemma CloseKeeps(s: seq<Sample>, c: Limits, windows: seq<Window>, i: int, n: int)
    requires WindowsOf(s, c, windows, i) && MaximalRun(s, c, i, n - 1)
    ensures WindowsOf(s, c, if s[n - 1].stamp - s[i].stamp >= c.minWindow
                            then windows + [Window(s[i].stamp, s[n - 1].stamp)] else windows, n)
  {
    OnlyRun(s, c, i, n);
    var runs: seq<Span> :| Lists(s, c, windows, runs, i);
    if s[n - 1].stamp - s[i].stamp >= c.minWindow {
      ListsMore(s, c, windows, runs, i, n);
    } else {
      hide MaximalRun;
      assert Lists(s, c, windows, runs, n);
    }
  }

  /** No other maximal run reaches into a closed one. */
  lemma OnlyRun(s: seq<Sample>, c: Limits, i: int, n: int)
    requires MaximalRun(s, c, i, n - 1)
    ensures forall a, b :: Qualifies(s, c, a, b) && i <= b < n ==> a == i && b == n - 1
  {
    hide Good;
    forall a, b | Qualifies(s, c, a, b) && i <= b < n ensures a == i && b == n - 1 {
      RunsMeet(s, c, a, b, i, n - 1);
    }
  }

  lemma ListsMore(s: seq<Sample>, c: Limits, windows: seq<Window>, runs: seq<Span>, i: int, n: int)
    requires 0 <= i < n <= |s| && Lists(s, c, windows, runs, i) && Qualifies(s, c, i, n - 1)
    requires forall a, b :: Qualifies(s, c, a, b) && i <= b < n ==> a == i && b == n - 1
    ensures Lists(s, c, windows + [Window(s[i].stamp, s[n - 1].stamp)], runs + [Span(i, n - 1)], n)
  {
    hide Qualifies;
    var more := runs + [Span(i, n - 1)];
    forall a, b | Qualifies(s, c, a, b) && b < n ensures Span(a, b) in more {
      if b >= i {
        assert more[|runs|] == Span(a, b);
      } else {
        assert Span(a, b) in runs;
      }
    }
  }

  /** Past a sample that is not good, nothing new can have ended. */
  lemma SkipKeeps(s: seq<Sample>, c: Limits, windows: seq<Window>, n: int)
    requires WindowsOf(s, c, windows, n) && 0 <= n < |s| && !Good(s, c, n)
    ensures WindowsOf(s, c, windows, n + 1)
  {
    var runs: seq<Span> :| Lists(s, c, windows, runs, n);
    assert Lists(s, c, windows, runs, n + 1);
  }

  lemma NoneYet(s: seq<Sample>, c: Limits)
    ensures WindowsOf(s, c, [], 0)
  {
    assert Lists(s, c, [], [], 0);
  }

  /** The returned windows are precisely the maximal good runs lasting at least the minimum, in order, disjoint. */
  method FindQualifyingRecoveredWindows(errors: seq<Sample>, firstLoss: real, c: Limits)
    returns (windows: seq<Window>)
    ensures var s := AfterLoss(errors, firstLoss); WindowsOf(s, c, windows, |s|)
  {
    var afterLoss := AfterLoss(errors, firstLoss);
    windows := [];
    hide WindowsOf, AfterLoss, Picks, Positions, PositionsFrom;
    NoneYet(afterLoss, c);
    var windowStart: Option<real> := None;
    var prevStamp: Option<real> := None;
    ghost var open := 0;
    for n := 0 to |afterLoss|
      invariant prevStamp == if n == 0 then None else Some(afterLoss[n - 1].stamp)
      invariant windowStart.None? ==> WindowsOf(afterLoss, c, windows, n) && (n == 0 || !Good(afterLoss, c, n - 1))
      invariant windowStart.Some? ==>
        WindowsOf(afterLoss, c, windows, open) && AllGood(afterLoss, c, open, n - 1) &&
        (open == 0 || !Good(afterLoss, c, open - 1)) && windowStart.value == afterLoss[open].stamp
    {
      var sample := afterLoss[n];
      var gapOk := prevStamp.None? || sample.stamp - prevStamp.value <= c.maxGap;
      var recoveredOk := sample.error.Some? && sample.error.value <= c.recovered;
      if recoveredOk && gapOk {
        if windowStart.None? {
          windowStart := Some(sample.stamp);
          open := n;
        }
      } else {
        assert !Good(afterLoss, c, n);
        windows := CloseWindow(afterLoss, c, windows, windowStart, prevStamp, open, n);
        SkipKeeps(afterLoss, c, windows, n);
        windowStart := None;
      }
      prevStamp := Some(sample.stamp);
    }
    windows := CloseWindow(afterLoss, c, windows, windowStart, prevStamp, open, |afterLoss|);
  }

  method CloseWindow(s: seq<Sample>, c: Limits, windows: seq<Window>, windowStart: Option<real>, endStamp: Option<real>,
                     ghost open: int, ghost n: int)
    returns (windows': seq<Window>)
    requires windowStart.None? ==> WindowsOf(s, c, windows, n)
    requires windowStart.Some? ==>
      WindowsOf(s, c, windows, open) && MaximalRun(s, c, open, n - 1) &&
      windowStart.value == s[open].stamp && endStamp == Some(s[n - 1].stamp)
    ensures WindowsOf(s, c, windows', n)
  {
    windows' := windows;
    if windowStart.None? || endStamp.None? {
      return;
    }
    CloseKeeps(s, c, windows, open, n);
    if endStamp.value - windowStart.value >= c.minWindow {
      windows' := windows + [Window(windowStart.value, endStamp.value)];
    }
  }

  // ----- the verdict -----

  datatype Verdict = NeverLost | RecoveredTrue | RecoveredFalse

  datatype Summary = Summary(verdict: Verdict, firstLoss: Option<real>, firstLossRelative: Option<real>,
                             windowCount: nat, longest: real, lastError: Option<real>, maxAfterLoss: Option<real>,
                             endsRecovered: bool, lastWindowEndGap: Option<real>, buckets: seq<nat>)

  datatype Reply = Raised | Ok(summary: Summary)

  ghost predicate LastMatched(errors: seq<Sample>, k: int) {
    0 <= k < |errors| && errors[k].error.Some? && forall m :: k < m < |errors| ==> errors[m].error.None?
  }

  ghost predicate RecoveredAt(errors: seq<Sample>, windows: seq<Window>, c: Limits, k: int)
    requires 0 <= k < |errors| && errors[k].error.Some?
  {
    errors[k].error.value <= c.recovered ||
    (windows != [] && errors[k].stamp - windows[|windows| - 1].end <= c.maxGap)
  }

  /** The trace ends recovered: its last matched error is low, or it is close behind the last window. */
  ghost predicate EndsRecovered(errors: seq<Sample>, windows: seq<Window>, c: Limits) {
    exists k :: LastMatched(errors, k) && RecoveredAt(errors, windows, c, k)
  }

  ghost predicate SomeQualifies(s: seq<Sample>, c: Limits) {
    exists i, j :: Qualifies(s, c, i, j)
  }

  /** The greatest duration among the windows, zero when there are none. */
  ghost predicate IsLongest(windows: seq<Window>, longest: real) {
    (forall w :: w in windows ==> Duration(w) <= longest) &&
    if windows == [] then longest == 0.0 else exists w :: w in windows && longest == Duration(w)
  }

  /** The greatest error of the matched samples, none when nothing is matched. */
  ghost predicate IsGreatest(s: seq<Sample>, greatest: Option<real>) {
    match greatest
    case None => forall k :: 0 <= k < |s| ==> s[k].error.None?
    case Some(e) =>
      (exists k :: 0 <= k < |s| && s[k].error == Some(e)) &&
      forall k :: 0 <= k < |s| && s[k].error.Some? ==> s[k].error.value <= e
  }

  const BUCKETS := 6

  /** lt_1m, 1_to_3m, 3_to_5m, 5_to_10m, gt_10m, no_gt_match. */
  function BucketOf(s: Sample): (b: nat)
    ensures b < BUCKETS && (b == 5 <==> s.error.None?)
  {
    if s.error.None? then 5
    else if s.error.value < 1.0 then 0
    else if s.error.value < 3.0 then 1
    else if s.error.value < 5.0 then 2
    else if s.error.value < 10.0 then 3
    else 4
  }

  /** How many samples fall in bucket b. */
  function InBucket(s: seq<Sample>, b: nat): nat {
    if s == [] then 0 else InBucket(s[..|s| - 1], b) + if BucketOf(s[|s| - 1]) == b then 1 else 0
  }

  /** Every sample is counted in exactly one bucket. */
  lemma {:induction false} BucketsPartition(s: seq<Sample>)
    ensures InBucket(s, 0) + InBucket(s, 1) + InBucket(s, 2) + InBucket(s, 3) + InBucket(s, 4) + InBucket(s, 5) == |s|
  {
    if s != [] {
      BucketsPartition(s[..|s| - 1]);
      hide BucketOf;
    }
  }

  method BucketErrors(errors: seq<Sample>) returns (buckets: seq<nat>)
    ensures |buckets| == BUCKETS && forall b :: 0 <= b < BUCKETS ==> buckets[b] == InBucket(errors, b)
  {
    buckets := [0, 0, 0, 0, 0, 0];
    for k := 0 to |errors|
      invariant |buckets| == BUCKETS && forall b :: 0 <= b < BUCKETS ==> buckets[b] == InBucket(errors[..k], b)
    {
      assert errors[..k + 1][..k] == errors[..k];
      var b := BucketOf(errors[k]);
      buckets := buckets[b := buckets[b] + 1];
    }
    assert errors[..|errors|] == errors;
  }

  method GreatestError(s: seq<Sample>) returns (greatest: Option<real>)
    ensures IsGreatest(s, greatest)
  {
    greatest := None;
    for k := 0 to |s|
      invariant IsGreatest(s[..k], greatest)
    {
      assert s[..k + 1] == s[..k] + [s[k]];
      GreatestNext(s[..k], greatest, s[k]);
      if s[k].error.Some? && (greatest.None? || s[k].error.value > greatest.value) {
        greatest := s[k].error;
      }
    }
    assert s[..|s|] == s;
  }

  lemma GreatestNext(s: seq<Sample>, greatest: Option<real>, next: Sample)
    requires IsGreatest(s, greatest)
    ensures IsGreatest(s + [next],
              if next.error.Some? && (greatest.None? || next.error.value > greatest.value) then next.error else greatest)
  {
    var all := s + [next];
    assert all[|s|] == next;
    if greatest.Some? {
      var k :| 0 <= k < |s| && s[k].error == greatest;
      assert all[k].error == greatest;
    }
  }

  /** What a summary of a trace that was lost says, field by field. */
  ghost predicate Summarises(r: Summary, errors: seq<Sample>, windows: seq<Window>, c: Limits, lossThreshold: real) {
    r.firstLoss.Some? &&
    (exists k :: FirstLossAt(errors, lossThreshold, k) && r.firstLoss.value == errors[k].stamp) &&
    WindowsOf(AfterLoss(errors, r.firstLoss.value), c, windows, |AfterLoss(errors, r.firstLoss.value)|) &&
    r.windowCount == |windows| && IsLongest(windows, r.longest) &&
    IsGreatest(AfterLoss(errors, r.firstLoss.value), r.maxAfterLoss) &&
    (r.endsRecovered <==> EndsRecovered(errors, windows, c)) &&
    (r.verdict.RecoveredTrue? <==> SomeQualifies(AfterLoss(errors, r.firstLoss.value), c) && r.endsRecovered) &&
    (r.verdict.RecoveredFalse? <==> !r.verdict.RecoveredTrue?)
  }

  /** The fields every summary has. */
  ghost predicate Reports(r: Summary, errors: seq<Sample>, windows: seq<Window>) {
    (if r.lastError.Some? then exists k :: LastMatched(errors, k) && r.lastError == errors[k].error
     else forall k :: !LastMatched(errors, k)) &&
    (r.firstLossRelative ==
      if r.firstLoss.Some? && errors != [] then Some(r.firstLoss.value - errors[0].stamp) else None) &&
    |r.buckets| == BUCKETS && (forall b :: 0 <= b < BUCKETS ==> r.buckets[b] == InBucket(errors, b)) &&
    (if r.lastWindowEndGap.Some?
     then windows != [] &&
          exists k :: LastMatched(errors, k) && r.lastWindowEndGap.value == errors[k].stamp - windows[|windows| - 1].end
     else windows == [] || forall k :: !LastMatched(errors, k))
  }

  ghost predicate IsNeverLost(r: Summary) {
    r.verdict.NeverLost? && r.firstLoss.None? && r.windowCount == 0 && r.longest == 0.0 && r.maxAfterLoss.None? &&
    r.endsRecovered
  }

  method SummarizeRecoveryPoseGt(poses: seq<Point>, truth: seq<Point>, lossThreshold: real, c: Limits, maxDelta: real,
                                 distance: (Point, Point) -> real)
    returns (reply: Reply, ghost errors: seq<Sample>, ghost windows: seq<Window>)
    requires Sorted(Stamps(truth))
    ensures reply.Raised? <==> poses == [] || truth == []
    ensures reply.Ok? ==>
      |errors| == |poses| &&
      (forall k :: 0 <= k < |poses| ==> Matched(errors[k], poses[k], truth, maxDelta, distance)) &&
      Reports(reply.summary, errors, windows)
    ensures reply.Ok? && (forall k :: 0 <= k < |errors| ==> !Lost(errors[k], lossThreshold)) ==>
      IsNeverLost(reply.summary)
    ensures reply.Ok? && !(forall k :: 0 <= k < |errors| ==> !Lost(errors[k], lossThreshold)) ==>
      Summarises(reply.summary, errors, windows, c, lossThreshold)
  {
    hide Matched, AfterLoss, FirstLossAt, InBucket, Summarises;
    errors, windows := [], [];
    if poses == [] || truth == [] {
      return Raised, errors, windows;
    }
    var samples := ComputePoseErrors(poses, truth, maxDelta, distance);
    errors := samples;
    var firstLoss := FindFirstLossSec(samples, lossThreshold);
    var lastMatched := FindLastMatched(samples);
    var lastError := if lastMatched.Some? then samples[lastMatched.value].error else None;
    var buckets := BucketErrors(samples);
    if firstLoss.None? {
      reply := Ok(Summary(NeverLost, None, None, 0, 0.0, lastError, None, true, None, buckets));
      return;
    }
    var summary;
    summary, windows := SummarizeLost(samples, firstLoss.value, c, lossThreshold, lastMatched, lastError, buckets);
    reply := Ok(summary);
  }

  /** The summary of a trace lost at firstLoss. */
  method SummarizeLost(errors: seq<Sample>, firstLoss: real, c: Limits, ghost lossThreshold: real,
                       lastMatched: Option<nat>, lastError: Option<real>, buckets: seq<nat>)
    returns (summary: Summary, ghost windows: seq<Window>)
    requires errors != [] && exists k :: FirstLossAt(errors, lossThreshold, k) && firstLoss == errors[k].stamp
    requires if lastMatched.Some? then LastMatched(errors, lastMatched.value) else forall k :: !LastMatched(errors, k)
    requires lastError == if lastMatched.Some? then errors[lastMatched.value].error else None
    requires |buckets| == BUCKETS && forall b :: 0 <= b < BUCKETS ==> buckets[b] == InBucket(errors, b)
    ensures summary.firstLoss == Some(firstLoss) && !summary.verdict.NeverLost?
    ensures summary.verdict.RecoveredTrue? <==> SomeQualifies(AfterLoss(errors, firstLoss), c) && summary.endsRecovered
    ensures Summarises(summary, errors, windows, c, lossThreshold) && Reports(summary, errors, windows)
  {
    hide IsLongest, IsGreatest, WindowsOf, EndsRecovered, SomeQualifies, AfterLoss, FirstLossAt, InBucket,
         Picks, PositionsFrom;
    var found := FindQualifyingRecoveredWindows(errors, firstLoss, c);
    windows := found;
    var afterLoss := AfterLoss(errors, firstLoss);
    var maxAfterLoss := GreatestError(afterLoss);
    var longest := LongestWindow(found);
    var endsRecovered, lastWindowEndGap := FinalState(errors, found, c, lastMatched);
    NonEmptyIff(afterLoss, c, found);
    var verdict := if found != [] && endsRecovered then RecoveredTrue else RecoveredFalse;
    summary := Summary(verdict, Some(firstLoss), Some(firstLoss - errors[0].stamp), |found|, longest, lastError,
                       maxAfterLoss, endsRecovered, lastWindowEndGap, buckets);
  }

  /** Whether the trace ends recovered, and how long after the last window its last matched sample is. */
  method FinalState(errors: seq<Sample>, windows: seq<Window>, c: Limits, lastMatched: Option<nat>)
    returns (endsRecovered: bool, gap: Option<real>)
    requires if lastMatched.Some? then LastMatched(errors, lastMatched.value) else forall k :: !LastMatched(errors, k)
    ensures endsRecovered <==> EndsRecovered(errors, windows, c)
    ensures if gap.Some?
            then windows != [] &&
                 exists k :: LastMatched(errors, k) && gap.value == errors[k].stamp - windows[|windows| - 1].end
            else windows == [] || forall k :: !LastMatched(errors, k)
  {
    endsRecovered, gap := false, None;
    if lastMatched.None? {
      return;
    }
    var last := errors[lastMatched.value];
    endsRecovered := last.error.value <= c.recovered;
    if windows != [] {
      gap := Some(last.stamp - windows[|windows| - 1].end);
      if gap.value <= c.maxGap {
        endsRecovered := true;
      }
    }
    EndsAtLast(errors, windows, c, lastMatched.value);
  }

  lemma EndsAtLast(errors: seq<Sample>, windows: seq<Window>, c: Limits, k: nat)
    requires LastMatched(errors, k)
    ensures EndsRecovered(errors, windows, c) <==> RecoveredAt(errors, windows, c, k)
  {
    hide RecoveredAt;
    forall m | LastMatched(errors, m) ensures m == k {
      OneLast(errors, k, m);
    }
  }

  lemma OneLast(errors: seq<Sample>, k: int, m: int)
    requires LastMatched(errors, k) && LastMatched(errors, m)
    ensures k == m
  {
  }

  /** There is a window exactly when some run qualifies. */
  lemma NonEmptyIff(s: seq<Sample>, c: Limits, windows: seq<Window>)
    requires WindowsOf(s, c, windows, |s|)
    ensures windows != [] <==> SomeQualifies(s, c)
  {
    var runs: seq<Span> :| Lists(s, c, windows, runs, |s|);
    if windows != [] {
      assert Qualifies(s, c, runs[0].i, runs[0].j);
    }
    if SomeQualifies(s, c) {
      var i, j :| Qualifies(s, c, i, j);
      InSamples(s, c, i, j);
      assert Span(i, j) in runs;
    }
  }

  lemma InSamples(s: seq<Sample>, c: Limits, i: int, j: int)
    requires Qualifies(s, c, i, j)
    ensures 0 <= i <= j < |s|
  {
  }

  method FindLastMatched(errors: seq<Sample>) returns (last: Option<nat>)
    ensures if last.Some? then LastMatched(errors, last.value) else forall k :: !LastMatched(errors, k)
  {
    last := None;
    var k := |errors|;
    while k > 0
      invariant 0 <= k <= |errors| && forall m :: k <= m < |errors| ==> errors[m].error.None?
    {
      k := k - 1;
      if errors[k].error.Some? {
        return Some(k);
      }
    }
  }

  method LongestWindow(windows: seq<Window>) returns (longest: real)
    ensures IsLongest(windows, longest)
  {
    if windows == [] {
      return 0.0;
    }
    longest := Duration(windows[0]);
    for n := 1 to |windows|
      invariant IsLongest(windows[..n], longest)
    {
      if Duration(windows[n]) > longest {
        longest := Duration(windows[n]);
      }
      assert windows[..n + 1] == windows[..n] + [windows[n]];
    }
    assert windows[..|windows|] == windows;
  }

  // ----- the verdict in the samples' own terms -----

  predicate Inside(errors: seq<Sample>, at: seq<int>) {
    forall m :: 0 <= m < |at| ==> 0 <= at[m] < |errors|
  }

  /** The k-th position from the loss on is matched, low, and close behind the position before it. */
  predicate LowAt(errors: seq<Sample>, at: seq<int>, c: Limits, k: int)
    requires Inside(errors, at) && 0 <= k < |at|
  {
    errors[at[k]].error.Some? && errors[at[k]].error.value <= c.recovered &&
    (k == 0 || errors[at[k]].stamp <= errors[at[k - 1]].stamp + c.maxGap)
  }

  /** Positions i to j are all low, their neighbours are not, and they last at least the minimum. */
  ghost predicate LowRun(errors: seq<Sample>, at: seq<int>, c: Limits, i: int, j: int)
    requires Inside(errors, at)
  {
    0 <= i <= j < |at| && (forall k :: i <= k <= j ==> LowAt(errors, at, c, k)) &&
    (i > 0 ==> !LowAt(errors, at, c, i - 1)) && (j + 1 < |at| ==> !LowAt(errors, at, c, j + 1)) &&
    errors[at[j]].stamp >= errors[at[i]].stamp + c.minWindow
  }

  lemma LowAtIff(errors: seq<Sample>, at: seq<int>, s: seq<Sample>, c: Limits, k: int)
    requires Picks(errors, at, s) && 0 <= k < |at|
    ensures LowAt(errors, at, c, k) <==> Good(s, c, k)
  {
  }

  lemma LowRunIff(errors: seq<Sample>, at: seq<int>, s: seq<Sample>, c: Limits, i: int, j: int)
    requires Picks(errors, at, s)
    ensures LowRun(errors, at, c, i, j) <==> Qualifies(s, c, i, j)
  {
    forall k | 0 <= k < |at| ensures LowAt(errors, at, c, k) <==> Good(s, c, k) {
      LowAtIff(errors, at, s, c, k);
    }
    hide LowAt, Good;
  }

  lemma WindowEnds(errors: seq<Sample>, at: seq<int>, s: seq<Sample>, c: Limits, windows: seq<Window>, runs: seq<Span>, k: int)
    requires Picks(errors, at, s) && Lists(s, c, windows, runs, |s|) && 0 <= k < |runs|
    ensures LowRun(errors, at, c, runs[k].i, runs[k].j)
    ensures windows[k] == Window(errors[at[runs[k].i]].stamp, errors[at[runs[k].j]].stamp)
  {
    LowRunIff(errors, at, s, c, runs[k].i, runs[k].j);
    InSamples(s, c, runs[k].i, runs[k].j);
    hide LowRun, Qualifies;
  }

  lemma AllListed(errors: seq<Sample>, at: seq<int>, s: seq<Sample>, c: Limits, windows: seq<Window>, runs: seq<Span>, i: int, j: int)
    requires Picks(errors, at, s) && Lists(s, c, windows, runs, |s|) && LowRun(errors, at, c, i, j)
    ensures Span(i, j) in runs
  {
    LowRunIff(errors, at, s, c, i, j);
    InSamples(s, c, i, j);
    hide LowRun, Qualifies;
  }

  /** Window k spans the low run runs[k]. */
  ghost predicate SpansRun(errors: seq<Sample>, at: seq<int>, c: Limits, w: Window, run: Span)
    requires Inside(errors, at)
  {
    LowRun(errors, at, c, run.i, run.j) && w == Window(errors[at[run.i]].stamp, errors[at[run.j]].stamp)
  }

  /** The windows are exactly the low runs, in order. */
  ghost predicate ListsLow(errors: seq<Sample>, at: seq<int>, c: Limits, windows: seq<Window>, runs: seq<Span>)
    requires Inside(errors, at)
  {
    |runs| == |windows| && (forall k :: 0 <= k < |runs| ==> SpansRun(errors, at, c, windows[k], runs[k])) &&
    (forall k, m :: 0 <= k < m < |runs| ==> runs[k].j < runs[m].i) &&
    forall i, j :: LowRun(errors, at, c, i, j) ==> Span(i, j) in runs
  }

  lemma ListsAreLow(errors: seq<Sample>, at: seq<int>, s: seq<Sample>, c: Limits, windows: seq<Window>, runs: seq<Span>)
    requires Picks(errors, at, s) && Inside(errors, at) && Lists(s, c, windows, runs, |s|)
    ensures ListsLow(errors, at, c, windows, runs)
  {
    hide LowRun, Qualifies, Picks;
    forall k | 0 <= k < |runs| ensures SpansRun(errors, at, c, windows[k], runs[k]) {
      WindowEnds(errors, at, s, c, windows, runs, k);
    }
    forall i, j | LowRun(errors, at, c, i, j) ensures Span(i, j) in runs {
      AllListed(errors, at, s, c, windows, runs, i, j);
    }
    hide SpansRun;
  }

  /** Sample k is matched above the threshold, and no matched sample before it is. */
  ghost predicate FirstAbove(errors: seq<Sample>, threshold: real, k: int) {
    0 <= k < |errors| && errors[k].error.Some? && errors[k].error.value > threshold &&
    forall m :: 0 <= m < k && errors[m].error.Some? ==> errors[m].error.value <= threshold
  }

  /** Sample k is the last matched one, and is low or at most the gap limit after the end of the last window. */
  ghost predicate LastIsFine(errors: seq<Sample>, windows: seq<Window>, c: Limits, k: int) {
    0 <= k < |errors| && errors[k].error.Some? && (forall m :: k < m < |errors| ==> errors[m].error.None?) &&
    (errors[k].error.value <= c.recovered ||
     (windows != [] && errors[k].stamp <= windows[|windows| - 1].end + c.maxGap))
  }

  /** Where a trace is lost and whether it ends recovered; a trace with no error above the threshold was never lost. */
  lemma VerdictInSamples(r: Summary, errors: seq<Sample>, windows: seq<Window>, c: Limits, lossThreshold: real)
    requires Summarises(r, errors, windows, c, lossThreshold)
    ensures exists k :: FirstAbove(errors, lossThreshold, k) && r.firstLoss == Some(errors[k].stamp)
    ensures r.endsRecovered <==> exists k :: LastIsFine(errors, windows, c, k)
    ensures forall w :: w in windows ==> w.end - w.start <= r.longest
    ensures if windows == [] then r.longest == 0.0 else exists w :: w in windows && w.end - w.start == r.longest
  {
    hide WindowsOf, IsGreatest, SomeQualifies, AfterLoss;
    var k :| FirstLossAt(errors, lossThreshold, k) && r.firstLoss.value == errors[k].stamp;
    FirstIsAbove(errors, lossThreshold, k);
    if windows != [] {
      var w :| w in windows && r.longest == Duration(w);
      assert w.end - w.start == r.longest;
    }
    forall m ensures LastIsFine(errors, windows, c, m) <==> LastMatched(errors, m) && RecoveredAt(errors, windows, c, m) {
    }
    hide LastIsFine, LastMatched, RecoveredAt, FirstAbove, FirstLossAt;
  }

  lemma FirstIsAbove(errors: seq<Sample>, threshold: real, k: int)
    requires FirstLossAt(errors, threshold, k)
    ensures FirstAbove(errors, threshold, k)
  {
    forall m | 0 <= m < k && errors[m].error.Some? ensures errors[m].error.value <= threshold {
      assert !Lost(errors[m], threshold);
    }
  }

  /** The verdict never_lost is given exactly when no matched error is above the threshold. */
  lemma LostMeaning(errors: seq<Sample>, threshold: real)
    ensures (forall k :: 0 <= k < |errors| ==> !Lost(errors[k], threshold)) <==>
      forall k :: 0 <= k < |errors| && errors[k].error.Some? ==> errors[k].error.value <= threshold
  {
    if forall k :: 0 <= k < |errors| ==> !Lost(errors[k], threshold) {
      forall k | 0 <= k < |errors| && errors[k].error.Some? ensures errors[k].error.value <= threshold {
        assert !Lost(errors[k], threshold);
      }
    }
  }

  /** The windows of a lost trace are exactly the low runs among the samples from the first loss on, in order; the
      verdict is recovered exactly when there is one and the last matched sample is low or close behind the last. */
  lemma SummaryInSamples(r: Summary, errors: seq<Sample>, windows: seq<Window>, c: Limits, lossThreshold: real)
    returns (at: seq<int>, runs: seq<Span>)
    requires Summarises(r, errors, windows, c, lossThreshold)
    ensures r.firstLoss.Some? && PositionsFrom(errors, r.firstLoss.value, at) && Inside(errors, at)
    ensures |windows| == r.windowCount && ListsLow(errors, at, c, windows, runs)
    ensures r.verdict.RecoveredTrue? <==> windows != [] && r.endsRecovered
  {
    hide ListsLow, Lists, AfterLoss, Positions, PositionsFrom, Picks, Inside, IsLongest, IsGreatest, EndsRecovered,
         FirstLossAt, SomeQualifies, WindowsOf;
    var s := AfterLoss(errors, r.firstLoss.value);
    at := Positions(errors, r.firstLoss.value);
    PicksInside(errors, at, s);
    runs := ListOf(s, c, windows);
    NonEmptyIff(s, c, windows);
    ListsAreLow(errors, at, s, c, windows, runs);
  }

  /** Sample k is matched and not before the loss. */
  predicate MatchedFrom(errors: seq<Sample>, firstLoss: real, k: int) {
    0 <= k < |errors| && errors[k].stamp >= firstLoss && errors[k].error.Some?
  }

  /** The greatest error reported is that of a matched sample from the first loss on, and none of them has more. */
  lemma GreatestInSamples(r: Summary, errors: seq<Sample>, windows: seq<Window>, c: Limits, lossThreshold: real)
    requires Summarises(r, errors, windows, c, lossThreshold)
    ensures r.maxAfterLoss.Some? &&
            exists k :: MatchedFrom(errors, r.firstLoss.value, k) && errors[k].error == r.maxAfterLoss
    ensures forall k :: MatchedFrom(errors, r.firstLoss.value, k) ==> errors[k].error.value <= r.maxAfterLoss.value
  {
    hide AfterLoss, Positions, InOrder, WindowsOf, IsLongest, EndsRecovered, SomeQualifies;
    var first := r.firstLoss.value;
    var at, s := Positions(errors, first), AfterLoss(errors, first);
    assert Picks(errors, at, s) && PositionsFrom(errors, first, at);
    forall k | MatchedFrom(errors, first, k) ensures exists m :: 0 <= m < |s| && s[m] == errors[k] {
      assert k in at;
      var m :| 0 <= m < |at| && at[m] == k;
      assert s[m] == errors[k];
    }
    var k :| FirstLossAt(errors, lossThreshold, k) && first == errors[k].stamp;
    assert MatchedFrom(errors, first, k);
    var m :| 0 <= m < |s| && s[m].error == r.maxAfterLoss;
    assert MatchedFrom(errors, first, at[m]);
  }

  lemma PicksInside(errors: seq<Sample>, at: seq<int>, s: seq<Sample>)
    requires Picks(errors, at, s)
    ensures Inside(errors, at)
  {
  }

  lemma ListOf(s: seq<Sample>, c: Limits, windows: seq<Window>) returns (runs: seq<Span>)
    requires WindowsOf(s, c, windows, |s|)
    ensures Lists(s, c, windows, runs, |s|)
  {
    hide Lists;
    runs :| Lists(s, c, windows, runs, |s|);
  }

  /** How many samples are matched with an error below the limit. */
  function CountBelow(s: seq<Sample>, limit: real): nat {
    if s == [] then 0
    else CountBelow(s[..|s| - 1], limit) +
         if s[|s| - 1].error.Some? && s[|s| - 1].error.value < limit then 1 else 0
  }

  /** The buckets count the errors between 0, 1, 3, 5 and 10 metres. */
  lemma {:induction false} BucketLimits(s: seq<Sample>)
    ensures InBucket(s, 0) == CountBelow(s, 1.0)
    ensures InBucket(s, 0) + InBucket(s, 1) == CountBelow(s, 3.0)
    ensures InBucket(s, 0) + InBucket(s, 1) + InBucket(s, 2) == CountBelow(s, 5.0)
    ensures InBucket(s, 0) + InBucket(s, 1) + InBucket(s, 2) + InBucket(s, 3) == CountBelow(s, 10.0)
  {
    if s != [] {
      BucketLimits(s[..|s| - 1]);
    }
  }
}
