/** What the packaging decides, told by stamps and frames alone: when a cloud is accepted, when and for how long a scan
    is opened, and when a package goes out. */
module LioLaws {
  import opened Reals
  import opened LioBuffers
  import opened LioRuns

  // ----- which clouds are accepted -----

  /** A cloud is accepted exactly when it is the first or its stamp is at most five seconds past the last accepted one
      and not before it; otherwise nothing changes. */
  lemma AcceptedIff(p: Params, cs: seq<Callback>, now: real, points: nat, lastCurvature: real)
    ensures var r, r' := Exec(p, cs), Step(p, Exec(p, cs), Cloud(now, points, lastCurvature));
            if r.stamps == [] || r.stamps[|r.stamps| - 1] <= now <= r.stamps[|r.stamps| - 1] + 5.0
            then r'.stamps == r.stamps + [now] && r'.frames == r.frames + [Frame(|r.frames|, points, lastCurvature)]
            else r' == r
  {
    hide OnCloud, Exec;
    RunKeeps(p, cs);
    var r, c := Exec(p, cs), Cloud(now, points, lastCurvature);
    CloudShape(p, r, c);
    if Glitch(r.s, now) {
      DropsNothing(p, r, c);
    }
  }

  lemma DropsNothing(p: Params, r: Run, c: Callback)
    requires c.Cloud? && Glitch(r.s, c.now)
    ensures Step(p, r, c) == r
  {
  }

  // ----- the two clocks -----

  /** An accepted cloud sets the clock offset exactly when synchronisation is on, none is set, samples wait and the last
      of them is over a second away; the sample then lands a tenth of a second after the cloud. */
  lemma ClockSetIff(p: Params, r: Run, now: real, points: nat, lastCurvature: real)
    requires !Glitch(r.s, now)
    ensures var s, s' := r.s, Step(p, r, Cloud(now, points, lastCurvature)).s;
            if p.timeSync && !s.offsetSet && s.imuBuffer != [] && (now - s.lastImu > 1.0 || s.lastImu - now > 1.0)
            then s'.offsetSet && s.lastImu + s'.offset == now + 0.1
            else s'.offsetSet == s.offsetSet && s'.offset == s.offset
  {
    hide Newest;
  }

  /** No other callback touches the offset, and once set it stays. */
  lemma ClockKept(p: Params, r: Run, c: Callback)
    requires !c.Cloud? || r.s.offsetSet
    ensures Step(p, r, c).s.offset == r.s.offset && Step(p, r, c).s.offsetSet == r.s.offsetSet
  {
    hide Newest, BatchSize, NextMean, SpanAccepted;
  }

  /** The stamp a sample is kept with: moved onto the LiDAR clock by the offset when that is more than a tenth of a
      second, else by the fixed delay. */
  lemma SampleStamp(p: Params, r: Run, stamp: real)
    ensures var r' := Step(p, r, ImuMsg(stamp));
            r'.imus[..|r.imus|] == r.imus && |r'.imus| == |r.imus| + 1 && r'.s.lastImu == r'.imus[|r.imus|].stamp &&
            var t := r'.imus[|r.imus|].stamp;
            if p.timeSync && (r.s.offset > 0.1 || r.s.offset < -0.1) then t - r.s.offset == stamp
            else t + p.lidarToImu == stamp
  {
    hide Newest;
  }

  /** The last received stamp is that of the last sample. */
  lemma {:induction false} LastReceived(p: Params, cs: seq<Callback>)
    ensures var r := Exec(p, cs); r.s.lastImu == if r.imus == [] then -1.0 else r.imus[|r.imus| - 1].stamp
  {
    if cs != [] {
      LastReceived(p, cs[..|cs| - 1]);
      LastKept(p, Exec(p, cs[..|cs| - 1]), cs[|cs| - 1]);
    }
  }

  lemma LastKept(p: Params, r: Run, c: Callback)
    requires r.s.lastImu == if r.imus == [] then -1.0 else r.imus[|r.imus| - 1].stamp
    ensures var r' := Step(p, r, c); r'.s.lastImu == if r'.imus == [] then -1.0 else r'.imus[|r'.imus| - 1].stamp
  {
    hide Newest, BatchSize, NextMean, SpanAccepted, SelfSyncs, ImuStamp;
  }

  // ----- the span of a scan -----

  /** Nothing is missing to work on a scan. */
  predicate Ready(s: Lio) {
    s.lidarBuffer != [] && s.timeBuffer != [] && s.imuBuffer != []
  }

  /** Opening a scan: it starts at the front stamp and lasts as long as its last point says, if it has two points and
      that is at least half the mean so far and at most a second; then it enters the mean. Otherwise it lasts the mean. */
  lemma OpeningLaw(p: Params, r: Run)
    requires Ready(r.s) && !r.s.pushed
    ensures var s, s' := r.s, Step(p, r, Sync).s;
            var f, mean, ms := s.lidarBuffer[0], s.meanScan, s.lidarBuffer[0].lastCurvature;
            s'.held == f && s'.begTime == s.timeBuffer[0] &&
            if f.points >= 2 && 2.0 * ms >= 1000.0 * mean && ms <= 1000.0 then
              1000.0 * (s'.endTime - s'.begTime) == ms && s'.scanNum == s.scanNum + 1 &&
              Times(s'.meanScan, s'.scanNum as real) == Times(mean, s.scanNum as real) + (s'.endTime - s'.begTime)
            else
              s'.endTime - s'.begTime == mean && s'.scanNum == s.scanNum && s'.meanScan == mean
  {
    hide BatchSize, NextMean;
    var s, f := r.s, r.s.lidarBuffer[0];
    var span := f.lastCurvature / 1000.0;
    assert SpanAccepted(s.meanScan, f) <==> f.points >= 2 && 2.0 * f.lastCurvature >= 1000.0 * s.meanScan && f.lastCurvature <= 1000.0;
    NextMeanTimes(s.meanScan, span, s.scanNum + 1);
    MoreTimes(s.meanScan, s.scanNum);
    hide Times;
  }

  lemma MoreTimes(mean: real, n: nat)
    ensures Times(mean, (n + 1) as real) == Times(mean, n as real) + mean
  {
  }

  /** An open scan keeps its frame and its times until it goes out. */
  lemma OpenStays(p: Params, r: Run, c: Callback)
    requires r.s.pushed
    ensures var s, s' := r.s, Step(p, r, c).s;
            s'.held == s.held && s'.begTime == s.begTime && s'.endTime == s.endTime && s'.meanScan == s.meanScan &&
            s'.scanNum == s.scanNum
  {
    hide Newest, BatchSize, SelfSyncs, ImuStamp;
  }

  // ----- when a package goes out -----

  /** A sync delivers exactly when nothing is missing and the last received stamp has reached the end of the scan;
      otherwise it only leaves the scan open. */
  lemma DeliversIff(p: Params, r: Run)
    ensures var s, r' := r.s, Step(p, r, Sync);
            if Ready(s) && s.lastImu >= r'.s.endTime then
              |r'.packages| == |r.packages| + 1 && r'.packages[..|r.packages|] == r.packages && !r'.s.pushed &&
              var g := r'.packages[|r.packages|];
              g.lidar == r'.s.held && g.begTime == r'.s.begTime && g.endTime == r'.s.endTime &&
              s.imuBuffer == g.imu + r'.s.imuBuffer && r'.s.lidarBuffer == s.lidarBuffer[1..] &&
              r'.s.timeBuffer == s.timeBuffer[1..]
            else
              r'.packages == r.packages && r'.s.lidarBuffer == s.lidarBuffer && r'.s.timeBuffer == s.timeBuffer &&
              r'.s.imuBuffer == s.imuBuffer && (r'.s.pushed <==> s.pushed || Ready(s))
  {
    hide BatchSize, NextMean, SpanAccepted;
    assert r.packages + [] == r.packages;
  }

  lemma OthersDeliverNothing(p: Params, r: Run, c: Callback)
    requires !c.Sync?
    ensures Step(p, r, c).packages == r.packages
  {
  }

  /** When the package went out a stamp at or past its end had been received, after all of its samples. */
  ghost predicate Heard(r: Run, g: Package, m: int) {
    0 <= m < |r.imus| && r.imus[m].stamp >= g.endTime && forall i :: 0 <= i < |g.imu| ==> g.imu[i].id <= m
  }

  ghost predicate AllHeard(r: Run) {
    forall k :: 0 <= k < |r.packages| ==> WasHeard(r, r.packages[k])
  }

  ghost predicate WasHeard(r: Run, g: Package) {
    exists m :: Heard(r, g, m)
  }

  lemma HeardGrows(p: Params, r: Run, c: Callback, g: Package, m: int)
    requires Heard(r, g, m)
    ensures Heard(Step(p, r, c), g, m)
  {
    hide OnSync, OnCloud, OnImu, Deliver;
  }

  ghost predicate LastIs(r: Run) {
    r.s.lastImu == if r.imus == [] then -1.0 else r.imus[|r.imus| - 1].stamp
  }

  lemma StepHeard(p: Params, r: Run, c: Callback)
    requires ImuInv(r) && LastIs(r) && AllHeard(r)
    ensures AllHeard(Step(p, r, c))
  {
    hide Step, ImuInv, LastIs, Ready;
    var r' := Step(p, r, c);
    if c.Sync? {
      DeliversIff(p, r);
    } else {
      OthersDeliverNothing(p, r, c);
    }
    forall k | 0 <= k < |r'.packages| ensures WasHeard(r', r'.packages[k]) {
      if k < |r.packages| {
        assert r'.packages[k] == r.packages[k] && WasHeard(r, r.packages[k]);
        var m :| Heard(r, r.packages[k], m);
        HeardGrows(p, r, c, r.packages[k], m);
      } else {
        NewlyHeard(p, r, r'.packages[k]);
      }
    }
  }

  /** Over every order of callbacks no package goes out before the IMU data has reached its end. */
  lemma {:induction false} PackagesWait(p: Params, cs: seq<Callback>)
    ensures AllHeard(Exec(p, cs))
  {
    hide AllHeard, Step;
    if cs == [] {
      NothingHeard(p);
    } else {
      var front := cs[..|cs| - 1];
      PackagesWait(p, front);
      RunKeeps(p, front);
      LastReceived(p, front);
      StepHeard(p, Exec(p, front), cs[|cs| - 1]);
    }
  }

  lemma NothingHeard(p: Params)
    ensures AllHeard(Exec(p, []))
  {
  }

  lemma NewlyHeard(p: Params, r: Run, g: Package)
    requires ImuInv(r) && Ready(r.s) && LastIs(r)
    requires var r' := Step(p, r, Sync);
             r.s.lastImu >= r'.s.endTime && |r'.packages| == |r.packages| + 1 && g == r'.packages[|r.packages|]
    ensures Heard(Step(p, r, Sync), g, |r.imus| - 1)
  {
    hide OnSync, Deliver, Suffix, Sorted;
    DeliversIff(p, r);
    assert Delivers(r.s) && g == Deliver(r.s).1;
    BatchFromLog(r);
    SameLog(p, r);
    BufferNeedsLog(r);
  }

  lemma SameLog(p: Params, r: Run)
    ensures Step(p, r, Sync).imus == r.imus && Step(p, r, Sync).s.imus == r.s.imus
  {
    hide BatchSize, NextMean, SpanAccepted;
  }

  lemma BufferNeedsLog(r: Run)
    requires ImuInv(r) && r.s.imuBuffer != []
    ensures r.imus != []
  {
  }

  // ----- what comes after a package -----

  /** No received stamp from position from on goes backward. */
  ghost predicate Forward(imus: seq<Imu>, from: int) {
    forall i :: 0 < i < |imus| && from <= i ==> imus[i - 1].stamp <= imus[i].stamp
  }

  lemma {:induction false} ForwardChain(imus: seq<Imu>, from: nat, i: nat)
    requires Forward(imus, from) && 0 < from <= i + 1 && i < |imus|
    ensures imus[from - 1].stamp <= imus[i].stamp
    decreases i
  {
    if i > from - 1 {
      ForwardChain(imus, from, i - 1);
    }
  }

  /** Since the state r1 the log has only grown, and later packages hold only samples that had not left the buffer. */
  ghost predicate Since(r1: Run, r: Run) {
    |r1.imus| <= |r.imus| && r.imus[..|r1.imus|] == r1.imus && ImuGone(r1) <= ImuGone(r) &&
    |r1.packages| <= |r.packages| && r.packages[..|r1.packages|] == r1.packages &&
    forall k, i :: |r1.packages| <= k < |r.packages| && 0 <= i < |r.packages[k].imu| ==>
      ImuGone(r1) <= r.packages[k].imu[i].id < |r.imus| && r.imus[r.packages[k].imu[i].id] == r.packages[k].imu[i]
  }

  lemma StepSince(p: Params, r1: Run, r: Run, c: Callback)
    requires ImuInv(r) && Since(r1, r)
    ensures Since(r1, Step(p, r, c))
  {
    if c.Sync? {
      SyncSince(p, r1, r);
    } else {
      OtherSince(p, r1, r, c);
    }
  }

  lemma OtherSince(p: Params, r1: Run, r: Run, c: Callback)
    requires ImuInv(r) && Since(r1, r) && !c.Sync?
    ensures Since(r1, Step(p, r, c))
  {
    hide OnSync, Deliver, Newest, ImuStamp, SelfSyncs, Sorted, Suffix, ImuIds;
    StepImu(p, r, c);
    GoneGrows(p, r, c);
  }

  lemma GoneGrows(p: Params, r: Run, c: Callback)
    requires !c.Sync?
    ensures ImuGone(r) <= ImuGone(Step(p, r, c)) && Step(p, r, c).packages == r.packages
    ensures |r.imus| <= |Step(p, r, c).imus| && Step(p, r, c).imus[..|r.imus|] == r.imus
  {
    hide OnSync, Deliver, ImuStamp, SelfSyncs;
  }

  lemma SyncSince(p: Params, r1: Run, r: Run)
    requires ImuInv(r) && Since(r1, r)
    ensures Since(r1, Step(p, r, Sync))
  {
    hide OnSync, Deliver, Sorted, Suffix, ImuIds, Step;
    DeliversIff(p, r);
    SameLog(p, r);
    var r' := Step(p, r, Sync);
    if |r'.packages| > |r.packages| {
      FreshBatch(p, r, r'.packages[|r.packages|]);
      assert forall k :: 0 <= k < |r.packages| ==> r'.packages[k] == r.packages[k];
    }
  }

  lemma FreshBatch(p: Params, r: Run, g: Package)
    requires ImuInv(r) && Step(p, r, Sync).packages == r.packages + [g]
    ensures forall i :: 0 <= i < |g.imu| ==> ImuGone(r) <= g.imu[i].id < |r.imus| && r.imus[g.imu[i].id] == g.imu[i]
  {
    hide OnSync, Deliver, Suffix, Sorted;
    DeliveredOne(p, r);
    assert (r.packages + [g])[|r.packages|] == g;
    BatchFromLog(r);
  }

  lemma DeliveredOne(p: Params, r: Run)
    ensures |Step(p, r, Sync).packages| == |r.packages| + One(Delivers(r.s))
    ensures Delivers(r.s) ==> Step(p, r, Sync).packages[|r.packages|] == Deliver(r.s).1
  {
    hide OnSync, Deliver;
  }

  function One(b: bool): nat { if b then 1 else 0 }

  lemma ExecAppend(p: Params, cs: seq<Callback>, c: Callback)
    ensures Exec(p, cs + [c]) == Step(p, Exec(p, cs), c)
  {
    assert (cs + [c])[..|cs|] == cs;
  }

  lemma {:induction false} RunSince(p: Params, cs: seq<Callback>, more: seq<Callback>)
    ensures Since(Exec(p, cs), Exec(p, cs + more))
  {
    hide Exec, Step;
    if more == [] {
      assert cs + more == cs;
      SinceItself(Exec(p, cs));
    } else {
      var front := more[..|more| - 1];
      RunSince(p, cs, front);
      assert cs + more == (cs + front) + [more[|more| - 1]];
      ExecAppend(p, cs + front, more[|more| - 1]);
      RunKeeps(p, cs + front);
      hide Since, ImuInv;
      StepSince(p, Exec(p, cs), Exec(p, cs + front), more[|more| - 1]);
    }
  }

  lemma SinceItself(r: Run)
    ensures Since(r, r)
  {
  }

  /** After a package, and unless a backward stamp arrives, every sample of a later package, and every sample still to
      be delivered, is at or past its end: the scans split the samples where they end. */
  lemma LaterSamples(p: Params, cs: seq<Callback>, more: seq<Callback>, k: nat, i: nat)
    requires var r, r1 := Exec(p, cs), Exec(p, cs + [Sync]); |r1.packages| == |r.packages| + 1
    requires Forward(Exec(p, cs + [Sync] + more).imus, |Exec(p, cs).imus|)
    ensures var r, r2 := Exec(p, cs), Exec(p, cs + [Sync] + more);
            |r.packages| < |r2.packages| &&
            var g := r2.packages[|r.packages|];
            (|r.packages| < k < |r2.packages| && i < |r2.packages[k].imu| ==> r2.packages[k].imu[i].stamp >= g.endTime) &&
            (i < |r2.s.imuBuffer| ==> r2.s.imuBuffer[i].stamp >= g.endTime)
  {
    hide Exec, Step;
    var r, r1, r2 := Exec(p, cs), Exec(p, cs + [Sync]), Exec(p, cs + [Sync] + more);
    ExecAppend(p, cs, Sync);
    RunKeeps(p, cs);
    RunKeeps(p, cs + [Sync]);
    RunKeeps(p, cs + [Sync] + more);
    LastReceived(p, cs);
    RunSince(p, cs + [Sync], more);
    DeliversIff(p, r);
    SameLog(p, r);
    hide Sorted, Suffix, ImuIds, ImuOrder, ImuInv, OrderInv, LidarInv, ScanInv, PackagesOk;
    var g := r1.packages[|r.packages|];
    assert r2.packages[|r.packages|] == g;
    if |r.packages| < k < |r2.packages| && i < |r2.packages[k].imu| {
      NotBefore(p, r, r1, r2, r2.packages[k].imu[i].id);
    }
    if i < |r2.s.imuBuffer| {
      SuffixIs(r2, i);
      NotBefore(p, r, r1, r2, ImuGone(r2) + i);
    }
  }

  lemma SuffixIs(r: Run, i: nat)
    requires ImuInv(r) && i < |r.s.imuBuffer|
    ensures 0 <= ImuGone(r) && r.s.imuBuffer[i] == r.imus[ImuGone(r) + i]
  {
    SuffixAt(r.imus, r.s.imuBuffer, i);
  }

  /** A sample that had not left the buffer when the package went out, or came later, is at or past the package's end. */
  lemma NotBefore(p: Params, r: Run, r1: Run, r2: Run, n: int)
    requires ImuInv(r) && ImuInv(r1) && LastIs(r) && r1 == Step(p, r, Sync) && r1.imus == r.imus
    requires Ready(r.s) && r.s.lastImu >= r1.s.endTime && |r1.packages| == |r.packages| + 1
    requires |r.imus| <= |r2.imus| && r2.imus[..|r.imus|] == r.imus && Forward(r2.imus, |r.imus|)
    requires ImuGone(r1) <= n < |r2.imus| && 0 <= n
    ensures r2.imus[n].stamp >= r1.packages[|r.packages|].endTime
  {
    hide Step, Sorted, Suffix, ImuIds, ImuOrder;
    BufferNeedsLog(r);
    DeliversIff(p, r);
    if n >= |r.imus| {
      ForwardChain(r2.imus, |r.imus|, n);
      assert r2.imus[|r.imus| - 1] == r.imus[|r.imus| - 1];
    } else {
      var j := n - ImuGone(r1);
      assert r2.imus[n] == r.imus[n];
      SuffixIs(r1, j);
      LeftAtEnd(p, r, j);
    }
  }

  lemma LeftAtEnd(p: Params, r: Run, j: nat)
    requires ImuInv(r) && |Step(p, r, Sync).packages| == |r.packages| + 1
    requires j < |Step(p, r, Sync).s.imuBuffer|
    ensures Step(p, r, Sync).s.imuBuffer[j].stamp >= Step(p, r, Sync).packages[|r.packages|].endTime
  {
    hide Sorted, Suffix, ImuIds, OpenScan, BatchSize, Deliver;
    DeliveredOne(p, r);
    BatchSplits(r);
  }

  // ----- exactly which samples -----

  /** How many samples at the front are before the end. */
  function Before(imu: seq<Imu>, end: real): (n: nat)
    ensures n <= |imu| && (forall i :: 0 <= i < n ==> imu[i].stamp < end) && (n < |imu| ==> imu[n].stamp >= end)
  {
    if imu == [] || imu[0].stamp >= end then 0
    else
      var n := Before(imu[1..], end);
      assert forall i :: 1 <= i < n + 1 ==> imu[i] == imu[1..][i - 1];
      n + 1
  }

  /** The samples before the end go with the scan, and one exactly at the end joins them; with none before the end
      none goes. */
  lemma BatchExact(imu: seq<Imu>, end: real)
    requires imu != []
    ensures var n := Before(imu, end);
            BatchSize(imu, end) == if n > 0 && n < |imu| && imu[n].stamp == end then n + 1 else n
  {
    if imu[0].stamp < end {
      TakenExact(imu, imu[0].stamp, end);
    }
  }

  lemma {:induction false} TakenExact(imu: seq<Imu>, t: real, end: real)
    requires t < end
    ensures var n := Before(imu, end); Taken(imu, t, end) == if n < |imu| && imu[n].stamp == end then n + 1 else n
    decreases |imu|
  {
    if imu != [] {
      if imu[0].stamp < end {
        TakenExact(imu[1..], imu[0].stamp, end);
      } else if imu[0].stamp == end {
        assert Taken(imu[1..], end, end) == 0;
      }
    }
  }
}
