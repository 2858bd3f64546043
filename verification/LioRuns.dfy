/** What every order of LiDAR, IMU and packaging callbacks keeps. */
module LioRuns {
  import opened LioBuffers
  import opened Reals

  datatype Callback = Cloud(now: real, points: nat, lastCurvature: real) | ImuMsg(stamp: real) | Sync

  /** A run: the globals, and logs of what was accepted, delivered, evicted by a cap and cleared by a backward stamp. */
  datatype Run = Run(s: Lio, frames: seq<Frame>, stamps: seq<real>, imus: seq<Imu>,
                     packages: seq<Package>, evicted: nat, spans: seq<real>, imuEvicted: nat, imuCleared: nat)

  function Start(): Run {
    Run(Initial(), [], [], [], [], 0, [], 0, 0)
  }

  function Step(p: Params, r: Run, c: Callback): Run {
    match c
    case Cloud(now, points, lastCurvature) =>
      var s' := OnCloud(p, r.s, now, points, lastCurvature);
      if Glitch(r.s, now) then r.(s := s')
      else r.(s := s', frames := r.frames + [Frame(r.s.frames, points, lastCurvature)], stamps := r.stamps + [now],
              evicted := r.evicted + if |r.s.lidarBuffer| + 1 > LIDAR_CAP then 1 else 0)
    case ImuMsg(stamp) =>
      var cleared := if ImuStamp(p, r.s, stamp) < r.s.lastImu then |r.s.imuBuffer| else 0;
      r.(s := OnImu(p, r.s, stamp), imus := r.imus + [Imu(r.s.imus, ImuStamp(p, r.s, stamp))],
         imuCleared := r.imuCleared + cleared,
         imuEvicted := r.imuEvicted + if |r.s.imuBuffer| - cleared + 1 > IMU_CAP then 1 else 0)
    case Sync =>
      r.(s := OnSync(r.s),
         packages := r.packages + if Delivers(r.s) then [Deliver(r.s).1] else [],
         spans := r.spans + if CanOpen(r.s) && !r.s.pushed && SpanAccepted(r.s.meanScan, r.s.lidarBuffer[0])
                            then [r.s.lidarBuffer[0].lastCurvature / 1000.0] else [])
  }

  function Exec(p: Params, cs: seq<Callback>): Run {
    if cs == [] then Start() else Step(p, Exec(p, cs[..|cs| - 1]), cs[|cs| - 1])
  }

  // ----- buffers as log suffixes -----

  ghost predicate Suffix<T>(log: seq<T>, buffer: seq<T>) {
    |buffer| <= |log| && buffer == log[|log| - |buffer|..]
  }

  lemma SuffixPush<T>(log: seq<T>, buffer: seq<T>, x: T, cap: nat)
    requires Suffix(log, buffer)
    ensures Suffix(log + [x], Newest(buffer + [x], cap)) && Suffix(log + [x], [x])
  {
    var n := Newest(buffer + [x], cap);
    assert n == (log + [x])[|log| + 1 - |n|..];
  }

  lemma SuffixPop<T>(log: seq<T>, buffer: seq<T>, n: nat)
    requires Suffix(log, buffer) && n <= |buffer|
    ensures Suffix(log, buffer[n..])
  {
    assert buffer[n..] == log[|log| - |buffer| + n..];
  }

  lemma SuffixAt<T>(log: seq<T>, buffer: seq<T>, k: nat)
    requires Suffix(log, buffer) && k < |buffer|
    ensures buffer[k] == log[|log| - |buffer| + k]
  {
  }

  // ----- LiDAR side -----

  /** How many accepted frames have left the buffer. */
  function Gone(r: Run): int { |r.frames| - |r.s.lidarBuffer| }

  ghost predicate StampsClose(stamps: seq<real>) {
    forall i :: 0 < i < |stamps| ==> stamps[i - 1] <= stamps[i] <= stamps[i - 1] + MAX_FORWARD_JUMP
  }

  ghost predicate LidarSizes(r: Run) {
    |r.s.lidarBuffer| == |r.s.timeBuffer| <= LIDAR_CAP && |r.frames| == |r.stamps| == r.s.frames &&
    Gone(r) == r.evicted + |r.packages|
  }

  ghost predicate LidarLog(r: Run) {
    Suffix(r.frames, r.s.lidarBuffer) && Suffix(r.stamps, r.s.timeBuffer) && FrameIds(r.frames) &&
    StampsClose(r.stamps) && (r.s.isFirstLidar <==> r.stamps == []) &&
    (r.stamps != [] ==> r.s.lastLidar == r.stamps[|r.stamps| - 1])
  }

  ghost predicate LidarInv(r: Run) {
    LidarSizes(r) && LidarLog(r)
  }

  /** What packaging does to the buffers, whichever branch it takes. */
  lemma SyncBuffers(s: Lio)
    ensures var s' := OnSync(s);
            s'.frames == s.frames && s'.imus == s.imus && s'.lastLidar == s.lastLidar &&
            s'.isFirstLidar == s.isFirstLidar && s'.lastImu == s.lastImu
    ensures Delivers(s) ==>
      var s', g := OnSync(s), Deliver(s).1;
      s'.lidarBuffer == s.lidarBuffer[1..] && s'.timeBuffer == s.timeBuffer[1..] && !s'.pushed &&
      s.imuBuffer == g.imu + s'.imuBuffer
    ensures !Delivers(s) ==>
      var s' := OnSync(s);
      s'.lidarBuffer == s.lidarBuffer && s'.timeBuffer == s.timeBuffer && s'.imuBuffer == s.imuBuffer
  {
    hide BatchSize;
  }

  lemma StampsAppend(stamps: seq<real>, now: real)
    requires StampsClose(stamps)
    requires stamps != [] ==> stamps[|stamps| - 1] <= now <= stamps[|stamps| - 1] + MAX_FORWARD_JUMP
    ensures StampsClose(stamps + [now])
  {
  }

  ghost predicate FrameIds(frames: seq<Frame>) {
    forall i :: 0 <= i < |frames| ==> frames[i].id == i
  }

  lemma FrameIdsAppend(frames: seq<Frame>, f: Frame)
    requires FrameIds(frames) && f.id == |frames|
    ensures FrameIds(frames + [f])
  {
  }

  lemma CloudSizes(p: Params, r: Run, c: Callback)
    requires LidarSizes(r) && c.Cloud?
    ensures LidarSizes(Step(p, r, c))
  {
    hide OnSync;
    hide OnImu;
    hide Deliver;
    hide SelfSyncs;
    hide Newest;
  }

  lemma CloudLog(p: Params, r: Run, c: Callback)
    requires LidarSizes(r) && LidarLog(r) && c.Cloud?
    ensures LidarLog(Step(p, r, c))
  {
    hide Step, OnCloud, Newest, Suffix, FrameIds, StampsClose;
    CloudShape(p, r, c);
    if !Glitch(r.s, c.now) {
      var f := Frame(r.s.frames, c.points, c.lastCurvature);
      StampsAppend(r.stamps, c.now);
      FrameIdsAppend(r.frames, f);
      SuffixPush(r.frames, r.s.lidarBuffer, f, LIDAR_CAP);
      SuffixPush(r.stamps, r.s.timeBuffer, c.now, LIDAR_CAP);
    }
  }

  /** What a cloud does to the LiDAR buffers and the log of accepted frames. */
  lemma CloudShape(p: Params, r: Run, c: Callback)
    requires c.Cloud?
    ensures var r' := Step(p, r, c);
            if Glitch(r.s, c.now) then
              r'.s == r.s && r'.frames == r.frames && r'.stamps == r.stamps
            else
              var f := Frame(r.s.frames, c.points, c.lastCurvature);
              r'.frames == r.frames + [f] && r'.stamps == r.stamps + [c.now] &&
              r'.s.lidarBuffer == Newest(r.s.lidarBuffer + [f], LIDAR_CAP) &&
              r'.s.timeBuffer == Newest(r.s.timeBuffer + [c.now], LIDAR_CAP) &&
              !r'.s.isFirstLidar && r'.s.lastLidar == c.now
  {
    hide Newest, SelfSyncs, Glitch;
  }

  lemma SyncLidar(p: Params, r: Run)
    requires LidarInv(r)
    ensures LidarInv(Step(p, r, Sync))
  {
    hide OnSync;
    hide Deliver;
    hide StampsClose;
    SyncBuffers(r.s);
    if Delivers(r.s) {
      SuffixPop(r.frames, r.s.lidarBuffer, 1);
      SuffixPop(r.stamps, r.s.timeBuffer, 1);
    }
    hide Suffix;
  }

  lemma StepLidar(p: Params, r: Run, c: Callback)
    requires LidarInv(r)
    ensures LidarInv(Step(p, r, c))
  {
    hide Step, LidarSizes, LidarLog;
    match c {
      case Cloud(_, _, _) => CloudSizes(p, r, c); CloudLog(p, r, c);
      case ImuMsg(_) => ImuLeavesLidar(p, r, c);
      case Sync => SyncLidar(p, r);
    }
  }

  lemma ImuLeavesLidar(p: Params, r: Run, c: Callback)
    requires LidarInv(r) && c.ImuMsg?
    ensures LidarInv(Step(p, r, c))
  {
    hide OnSync, OnCloud, Newest, ImuStamp, Suffix, FrameIds, StampsClose;
  }

  /** Delivered frames are accepted frames, in arrival order, none twice, and all left the buffer or are held. */
  ghost predicate OrderInv(r: Run) {
    (forall k :: 0 <= k < |r.packages| ==> FromLog(r, r.packages[k].lidar, r.packages[k].begTime)) &&
    (forall k, m :: 0 <= k < m < |r.packages| ==> r.packages[k].lidar.id < r.packages[m].lidar.id) &&
    (forall k :: 0 <= k < |r.packages| ==> r.packages[k].lidar.id < if r.s.pushed then r.s.held.id else Gone(r)) &&
    (r.s.pushed ==> FromLog(r, r.s.held, r.s.begTime) && r.s.held.id <= Gone(r))
  }

  ghost predicate FromLog(r: Run, f: Frame, beg: real) {
    f.id < |r.frames| && f.id < |r.stamps| && r.frames[f.id] == f && r.stamps[f.id] == beg
  }

  lemma LogGrows(p: Params, r: Run, c: Callback, f: Frame, beg: real)
    requires FromLog(r, f, beg)
    ensures FromLog(Step(p, r, c), f, beg)
  {
    hide OnSync;
    hide OnCloud;
    hide OnImu;
    hide Deliver;
  }

  /** The scan packaging works on: the one already open, or the front frame. */
  lemma OpenScanFromLog(r: Run)
    requires LidarInv(r) && OrderInv(r) && CanOpen(r.s)
    ensures var o := Opened(r.s);
            o.pushed && FromLog(r, o.held, o.begTime) && o.held.id <= Gone(r) &&
            (forall k :: 0 <= k < |r.packages| ==> r.packages[k].lidar.id < o.held.id) &&
            (r.s.pushed || o.held.id == Gone(r))
  {
    if !r.s.pushed {
      SuffixAt(r.frames, r.s.lidarBuffer, 0);
      SuffixAt(r.stamps, r.s.timeBuffer, 0);
    }
  }

  lemma SyncOrder(p: Params, r: Run)
    requires LidarInv(r) && OrderInv(r)
    ensures OrderInv(Step(p, r, Sync))
  {
    hide Step, OnSync, Deliver, Delivers, Opened, LidarInv, Gone;
    SyncShape(p, r);
    if CanOpen(r.s) {
      OpenScanFromLog(r);
    }
  }

  /** What packaging does to the log, the open scan and the count of frames gone. */
  lemma SyncShape(p: Params, r: Run)
    requires LidarInv(r)
    ensures Step(p, r, Sync).frames == r.frames && Step(p, r, Sync).stamps == r.stamps
    ensures !CanOpen(r.s) ==>
      var r' := Step(p, r, Sync); r'.s == r.s && r'.packages == r.packages && Gone(r') == Gone(r)
    ensures CanOpen(r.s) ==>
      var r', o := Step(p, r, Sync), Opened(r.s);
      if Delivers(r.s) then
        r'.packages == r.packages + [Deliver(r.s).1] && !r'.s.pushed && Gone(r') == Gone(r) + 1 &&
        Deliver(r.s).1.lidar == o.held && Deliver(r.s).1.begTime == o.begTime
      else
        r'.packages == r.packages && r'.s.pushed == o.pushed && r'.s.held == o.held && r'.s.begTime == o.begTime &&
        Gone(r') == Gone(r)
  {
    hide BatchSize, OpenScan, LidarLog;
    if CanOpen(r.s) {
      SyncBuffers(r.s);
    }
    assert r.packages + [] == r.packages;
  }

  lemma StepOrder(p: Params, r: Run, c: Callback)
    requires LidarInv(r) && OrderInv(r)
    ensures OrderInv(Step(p, r, c))
  {
    hide OnSync;
    hide Deliver;
    hide Newest;
    hide Suffix;
    hide StampsClose;
    hide SelfSyncs;
    hide ImuStamp;
    if c.Sync? {
      SyncOrder(p, r);
    } else {
      StepLidar(p, r, c);
      hide FromLog;
      forall f, beg | FromLog(r, f, beg) ensures FromLog(Step(p, r, c), f, beg) {
        LogGrows(p, r, c, f, beg);
      }
    }
  }

  /** Without an eviction the k-th package carries the k-th accepted frame. */
  ghost predicate LosslessInv(r: Run) {
    r.evicted == 0 ==>
      (forall k :: 0 <= k < |r.packages| ==> r.packages[k].lidar.id == k) &&
      (r.s.pushed ==> r.s.held.id == Gone(r))
  }

  lemma SyncLossless(p: Params, r: Run)
    requires LidarInv(r) && OrderInv(r) && LosslessInv(r)
    ensures LosslessInv(Step(p, r, Sync))
  {
    hide BatchSize, SpanAccepted, Suffix, StampsClose, FrameIds;
    SyncLidar(p, r);
    hide LidarLog;
    if CanOpen(r.s) {
      OpenScanFromLog(r);
      hide OpenScan, FromLog, OrderInv;
    }
  }

  lemma StepLossless(p: Params, r: Run, c: Callback)
    requires LidarInv(r) && OrderInv(r) && LosslessInv(r)
    ensures LosslessInv(Step(p, r, c))
  {
    hide OnSync, Deliver, OpenScan, Newest, SelfSyncs, ImuStamp, LidarLog, OrderInv;
    if c.Sync? {
      SyncLossless(p, r);
      hide LosslessInv;
    } else {
      StepLidar(p, r, c);
    }
  }

  // ----- IMU side -----

  function ImuGone(r: Run): int { |r.imus| - |r.s.imuBuffer| }

  ghost predicate Sorted(imu: seq<Imu>) {
    forall i, j :: 0 <= i < j < |imu| ==> imu[i].stamp <= imu[j].stamp
  }

  ghost predicate ImuSizes(r: Run) {
    |r.s.imuBuffer| <= IMU_CAP && |r.imus| == r.s.imus
  }

  ghost predicate ImuLog(r: Run) {
    Suffix(r.imus, r.s.imuBuffer) && ImuIds(r.imus)
  }

  /** The buffer is in stamp order and ends at the last stamp received. */
  ghost predicate ImuOrder(s: Lio) {
    Sorted(s.imuBuffer) && (s.imuBuffer != [] ==> s.imuBuffer[|s.imuBuffer| - 1].stamp == s.lastImu)
  }

  ghost predicate ImuInv(r: Run) {
    ImuSizes(r) && ImuLog(r) && ImuOrder(r.s)
  }

  lemma MsgOrder(p: Params, s: Lio, stamp: real)
    requires ImuOrder(s)
    ensures ImuOrder(OnImu(p, s, stamp))
  {
    hide ImuStamp;
    var t := ImuStamp(p, s, stamp);
    var kept := if t < s.lastImu then [] else s.imuBuffer;
    AppendSorted(kept, Imu(s.imus, t));
    NewestSorted(kept + [Imu(s.imus, t)]);
    NewestLast(kept + [Imu(s.imus, t)]);
    hide Newest;
    hide Sorted;
  }

  lemma MsgLog(p: Params, r: Run, c: Callback)
    requires ImuSizes(r) && ImuLog(r) && c.ImuMsg?
    ensures ImuSizes(Step(p, r, c)) && ImuLog(Step(p, r, c))
  {
    hide OnSync;
    hide OnCloud;
    hide Deliver;
    hide ImuStamp;
    hide ImuIds;
    hide Suffix;
    var m := Imu(r.s.imus, ImuStamp(p, r.s, c.stamp));
    SuffixPush(r.imus, r.s.imuBuffer, m, IMU_CAP);
    ImuIdsAppend(r.imus, m);
    NewestLast([m]);
    assert [] + [m] == [m];
    hide Newest;
  }

  ghost predicate ImuIds(imus: seq<Imu>) {
    forall i :: 0 <= i < |imus| ==> imus[i].id == i
  }

  lemma ImuIdsAppend(imus: seq<Imu>, m: Imu)
    requires ImuIds(imus) && m.id == |imus|
    ensures ImuIds(imus + [m])
  {
  }

  lemma NewestLast(imu: seq<Imu>)
    requires imu != []
    ensures var n := Newest(imu, IMU_CAP); n != [] && n[|n| - 1] == imu[|imu| - 1] && (|imu| == 1 ==> n == imu)
  {
  }

  lemma SyncImu(p: Params, r: Run)
    requires ImuInv(r)
    ensures ImuInv(Step(p, r, Sync))
  {
    hide OnSync, Deliver, Sorted, Suffix, ImuIds;
    SyncBuffers(r.s);
    if Delivers(r.s) {
      var n := |Deliver(r.s).1.imu|;
      SuffixPop(r.imus, r.s.imuBuffer, n);
      SortedRest(r.s.imuBuffer, n);
      assert OnSync(r.s).imuBuffer == r.s.imuBuffer[n..];
    }
  }

  lemma SortedRest(imu: seq<Imu>, n: nat)
    requires Sorted(imu) && n <= |imu|
    ensures Sorted(imu[n..]) && (n < |imu| ==> imu[n..][|imu| - n - 1] == imu[|imu| - 1])
  {
  }

  lemma StepImu(p: Params, r: Run, c: Callback)
    requires ImuInv(r)
    ensures ImuInv(Step(p, r, c))
  {
    hide OnSync;
    hide Deliver;
    hide Newest;
    match c {
      case Cloud(_, _, _) =>
      case ImuMsg(_) => MsgOrder(p, r.s, c.stamp); MsgLog(p, r, c);
      case Sync => SyncImu(p, r);
    }
  }

  lemma AppendSorted(kept: seq<Imu>, m: Imu)
    requires Sorted(kept) && (kept != [] ==> kept[|kept| - 1].stamp <= m.stamp)
    ensures Sorted(kept + [m])
  {
    forall i, j | 0 <= i < j < |kept| + 1 ensures (kept + [m])[i].stamp <= (kept + [m])[j].stamp {
      if j == |kept| && i < |kept| - 1 {
        assert kept[i].stamp <= kept[|kept| - 1].stamp;
      }
    }
  }

  lemma NewestSorted(imu: seq<Imu>)
    requires Sorted(imu)
    ensures Sorted(Newest(imu, IMU_CAP))
  {
  }

  /** The samples delivered so far, package after package. */
  function Delivered(packages: seq<Package>): seq<Imu> {
    if packages == [] then [] else Delivered(packages[..|packages| - 1]) + packages[|packages| - 1].imu
  }

  ghost predicate DeliveredInv(r: Run) {
    var d := Delivered(r.packages);
    (forall k :: 0 <= k < |d| ==> d[k].id < ImuGone(r) && d[k].id < |r.imus| && r.imus[d[k].id] == d[k]) &&
    forall k, m :: 0 <= k < m < |d| ==> d[k].id < d[m].id
  }

  lemma BatchFromLog(r: Run)
    requires ImuInv(r) && Delivers(r.s)
    ensures var batch := Deliver(r.s).1.imu;
            ImuGone(r) + |batch| <= |r.imus| &&
            forall k :: 0 <= k < |batch| ==> batch[k] == r.imus[ImuGone(r) + k] && batch[k].id == ImuGone(r) + k
  {
    hide Deliver;
    hide OnSync;
    SyncBuffers(r.s);
    var batch := Deliver(r.s).1.imu;
    forall k | 0 <= k < |batch| ensures batch[k] == r.imus[ImuGone(r) + k] {
      assert batch[k] == r.s.imuBuffer[k];
      SuffixAt(r.imus, r.s.imuBuffer, k);
    }
  }

  lemma AppendDelivered(packages: seq<Package>, g: Package)
    ensures Delivered(packages + [g]) == Delivered(packages) + g.imu
  {
    assert (packages + [g])[..|packages|] == packages;
  }

  lemma SyncDelivered(p: Params, r: Run)
    requires ImuInv(r) && DeliveredInv(r) && Delivers(r.s)
    ensures DeliveredInv(Step(p, r, Sync))
  {
    hide Deliver;
    hide OnSync;
    hide Delivered;
    SyncBuffers(r.s);
    BatchFromLog(r);
    AppendDelivered(r.packages, Deliver(r.s).1);
  }

  lemma StepDelivered(p: Params, r: Run, c: Callback)
    requires ImuInv(r) && DeliveredInv(r)
    ensures DeliveredInv(Step(p, r, c))
  {
    hide Deliver;
    hide OnSync;
    hide Delivered;
    hide Delivers;
    hide Newest;
    if c.Sync? && Delivers(r.s) {
      SyncDelivered(p, r);
    } else {
      SyncBuffers(r.s);
      assert Step(p, r, c).packages == r.packages;
    }
  }

  /** Every received sample is delivered, buffered, evicted or cleared. */
  ghost predicate ImuCount(r: Run) {
    |Delivered(r.packages)| + |r.s.imuBuffer| + r.imuEvicted + r.imuCleared == |r.imus|
  }

  lemma StepImuCount(p: Params, r: Run, c: Callback)
    requires ImuSizes(r) && ImuCount(r)
    ensures ImuCount(Step(p, r, c))
  {
    hide Deliver, OnSync, Delivered, Newest, ImuStamp, SelfSyncs;
    SyncBuffers(r.s);
    if c.Sync? && Delivers(r.s) {
      AppendDelivered(r.packages, Deliver(r.s).1);
    }
    assert r.packages + [] == r.packages;
  }

  /** A batch is the buffer's prefix up to the scan end: nothing later goes in, nothing earlier stays. */
  lemma {:induction false} TakenSplits(imu: seq<Imu>, t: real, end: real)
    requires Sorted(imu) && (forall i :: 0 <= i < |imu| ==> t <= imu[i].stamp)
    ensures var n := Taken(imu, t, end);
            (forall i :: 0 <= i < n ==> imu[i].stamp <= end) &&
            (forall i :: n <= i < |imu| ==> imu[i].stamp >= end)
    decreases |imu|
  {
    if imu != [] && t < end && imu[0].stamp <= end {
      var rest := imu[1..];
      forall i | 0 <= i < |rest| ensures imu[0].stamp <= rest[i].stamp {
        assert rest[i] == imu[i + 1];
      }
      TakenSplits(rest, imu[0].stamp, end);
      var n := Taken(rest, imu[0].stamp, end);
      forall i | 0 <= i < n + 1 ensures imu[i].stamp <= end {
        assert i > 0 ==> imu[i] == rest[i - 1];
      }
      forall i | n + 1 <= i < |imu| ensures imu[i].stamp >= end {
        assert imu[i] == rest[i - 1];
      }
    }
  }

  // ----- scan times -----

  function SumOf(spans: seq<real>): real {
    if spans == [] then 0.0 else SumOf(spans[..|spans| - 1]) + spans[|spans| - 1]
  }

  ghost predicate ScanInv(r: Run) {
    var s := r.s;
    s.scanNum == |r.spans| && (forall k :: 0 <= k < |r.spans| ==> 0.0 <= r.spans[k] <= 1.0) &&
    0.0 <= s.meanScan <= 1.0 && s.meanScan * |r.spans| as real == SumOf(r.spans) &&
    (r.spans == [] ==> s.meanScan == 0.0) &&
    (s.pushed ==> s.begTime <= s.endTime <= s.begTime + 1.0)
  }

  lemma MeanStep(mean: real, span: real, n: nat, sum: real)
    requires 0.0 <= mean <= 1.0 && 0.0 <= span <= 1.0 && mean * n as real == sum
    ensures var m := NextMean(mean, span, n + 1);
            0.0 <= m <= 1.0 && m * (n + 1) as real == sum + span
  {
    var d, m := (n + 1) as real, NextMean(mean, span, n + 1);
    NextMeanTimes(mean, span, n + 1);
    hide NextMean;
    assert Times(m, d) == Times(mean, n as real) + span by {
      assert Times(mean, d) == Times(mean, n as real) + mean;
    }
    TimesFraction(mean, n as real);
    assert m * d == Times(m, d);
    hide Times;
    WithinUnit(m, d);
  }

  lemma NextMeanTimes(mean: real, span: real, count: nat)
    requires count > 0
    ensures Times(NextMean(mean, span, count), count as real) == Times(mean, count as real) + span - mean
  {
    var d := count as real;
    var q := (span - mean) / d;
    assert q * d == span - mean;
  }

  lemma TimesFraction(mean: real, n: real)
    requires 0.0 <= mean <= 1.0 && n >= 0.0
    ensures 0.0 <= Times(mean, n) <= n
  {
    assert Times(1.0 - mean, n) == n - Times(mean, n);
  }

  lemma WithinUnit(m: real, d: real)
    requires d > 0.0 && 0.0 <= Times(m, d) <= d
    ensures 0.0 <= m <= 1.0
  {
    assert Times(m - 1.0, d) == Times(m, d) - d;
  }

  lemma OpenKeepsScan(r: Run, f: Frame)
    requires ScanInv(r) && CanOpen(r.s) && !r.s.pushed && f == r.s.lidarBuffer[0]
    ensures var o, spans := OpenScan(r.s), r.spans + if SpanAccepted(r.s.meanScan, f) then [f.lastCurvature / 1000.0] else [];
            ScanInv(r.(s := o, spans := spans))
  {
    hide SumOf;
    if SpanAccepted(r.s.meanScan, f) {
      var span := f.lastCurvature / 1000.0;
      MeanStep(r.s.meanScan, span, |r.spans|, SumOf(r.spans));
      SumAppend(r.spans, span);
    } else {
      assert r.spans + [] == r.spans;
    }
  }

  lemma SumAppend(spans: seq<real>, span: real)
    ensures SumOf(spans + [span]) == SumOf(spans) + span
  {
    assert (spans + [span])[..|spans|] == spans;
  }

  lemma StepScan(p: Params, r: Run, c: Callback)
    requires ScanInv(r)
    ensures ScanInv(Step(p, r, c))
  {
    hide SumOf;
    hide OpenScan;
    hide BatchSize;
    hide Newest;
    hide SpanAccepted;
    if c.Sync? && CanOpen(r.s) && !r.s.pushed {
      OpenKeepsScan(r, r.s.lidarBuffer[0]);
    } else {
      assert Step(p, r, c).spans == r.spans;
    }
  }

  /** Every package's scan is at most one second long, and its samples are not later than its end. */
  ghost predicate PackagesOk(r: Run) {
    forall k :: 0 <= k < |r.packages| ==>
      var g := r.packages[k];
      g.begTime <= g.endTime <= g.begTime + 1.0 && forall i :: 0 <= i < |g.imu| ==> g.imu[i].stamp <= g.endTime
  }

  /** What a delivery cuts the IMU buffer into. */
  lemma DeliverParts(s: Lio)
    requires CanOpen(s)
    ensures var n := BatchSize(s.imuBuffer, Opened(s).endTime);
            Deliver(s).0.imuBuffer == s.imuBuffer[n..] && Deliver(s).1.imu == s.imuBuffer[..n] &&
            Deliver(s).1.endTime == Opened(s).endTime
  {
    hide BatchSize;
  }

  /** A delivered batch against the buffer it came from. */
  lemma BatchSplits(r: Run)
    requires ImuInv(r) && CanOpen(r.s)
    ensures var (s', g) := Deliver(r.s);
            r.s.imuBuffer == g.imu + s'.imuBuffer &&
            (forall i :: 0 <= i < |g.imu| ==> g.imu[i].stamp <= g.endTime) &&
            (forall i :: 0 <= i < |s'.imuBuffer| ==> s'.imuBuffer[i].stamp >= g.endTime)
  {
    hide Deliver, Opened, Taken, Suffix, ImuIds;
    DeliverParts(r.s);
    var end, imu := Opened(r.s).endTime, r.s.imuBuffer;
    assert forall i :: 0 <= i < |imu| ==> imu[0].stamp <= imu[i].stamp;
    TakenSplits(imu, imu[0].stamp, end);
    var n := BatchSize(imu, end);
    hide Sorted, BatchSize;
    assert imu == imu[..n] + imu[n..];
  }

  lemma StepPackages(p: Params, r: Run, c: Callback)
    requires ImuInv(r) && ScanInv(r) && PackagesOk(r)
    ensures PackagesOk(Step(p, r, c))
  {
    hide OnSync, Deliver, ImuInv, ScanInv, OnCloud, OnImu, Opened;
    if c.Sync? && Delivers(r.s) {
      BatchSplits(r);
      OpenedSpan(r);
    } else {
      assert r.packages + [] == r.packages;
    }
  }

  lemma OpenedSpan(r: Run)
    requires ScanInv(r) && CanOpen(r.s)
    ensures var g := Deliver(r.s).1; g.begTime <= g.endTime <= g.begTime + 1.0
  {
    hide BatchSize, NextMean, SumOf;
  }

  // ----- whole runs -----

  lemma {:induction false} RunKeeps(p: Params, cs: seq<Callback>)
    ensures var r := Exec(p, cs);
            LidarInv(r) && OrderInv(r) && LosslessInv(r) && ImuInv(r) && DeliveredInv(r) && ImuCount(r) && ScanInv(r) &&
            PackagesOk(r)
  {
    if cs != [] {
      RunKeeps(p, cs[..|cs| - 1]);
      var r, c := Exec(p, cs[..|cs| - 1]), cs[|cs| - 1];
      StepLidar(p, r, c);
      StepOrder(p, r, c);
      StepLossless(p, r, c);
      StepImu(p, r, c);
      StepDelivered(p, r, c);
      StepImuCount(p, r, c);
      StepScan(p, r, c);
      StepPackages(p, r, c);
    }
  }

  /** The two LiDAR buffers stay level and capped, their stamps in order and close; the IMU buffer is sorted. */
  lemma BuffersInStep(p: Params, cs: seq<Callback>)
    ensures var s := Exec(p, cs).s;
            |s.lidarBuffer| == |s.timeBuffer| <= LIDAR_CAP && StampsClose(s.timeBuffer) &&
            |s.imuBuffer| <= IMU_CAP && Sorted(s.imuBuffer)
  {
    RunKeeps(p, cs);
    var r := Exec(p, cs);
    forall i | 0 < i < |r.s.timeBuffer|
      ensures r.s.timeBuffer[i - 1] <= r.s.timeBuffer[i] <= r.s.timeBuffer[i - 1] + MAX_FORWARD_JUMP
    {
      SuffixAt(r.stamps, r.s.timeBuffer, i - 1);
      SuffixAt(r.stamps, r.s.timeBuffer, i);
    }
  }

  /** Accepted frames are conserved, and delivered at most once, in arrival order, with their own stamps. */
  lemma FramesDelivered(p: Params, cs: seq<Callback>)
    ensures var r := Exec(p, cs);
            |r.frames| == |r.s.lidarBuffer| + |r.packages| + r.evicted &&
            (forall k :: 0 <= k < |r.packages| ==> FromLog(r, r.packages[k].lidar, r.packages[k].begTime)) &&
            (forall k, m :: 0 <= k < m < |r.packages| ==> r.packages[k].lidar.id < r.packages[m].lidar.id)
  {
    RunKeeps(p, cs);
  }

  /** The packages are exactly the frames that left the buffer, in order, if and only if the cap never evicted. */
  lemma NothingLostIff(p: Params, cs: seq<Callback>)
    ensures var r := Exec(p, cs);
            r.evicted == 0 <==>
              (|r.packages| == Gone(r) && forall k :: 0 <= k < |r.packages| ==> r.packages[k].lidar == r.frames[k])
  {
    RunKeeps(p, cs);
    var r := Exec(p, cs);
    if r.evicted == 0 {
      forall k | 0 <= k < |r.packages| ensures r.packages[k].lidar == r.frames[k] {
        assert FromLog(r, r.packages[k].lidar, r.packages[k].begTime);
      }
    }
  }

  /** Each IMU sample is delivered at most once, in arrival order, across packages. */
  lemma SamplesDelivered(p: Params, cs: seq<Callback>)
    ensures var r := Exec(p, cs);
            var d := Delivered(r.packages);
            (forall k :: 0 <= k < |d| ==> d[k].id < |r.imus| && r.imus[d[k].id] == d[k]) &&
            forall k, m :: 0 <= k < m < |d| ==> d[k].id < d[m].id
  {
    RunKeeps(p, cs);
  }

  /** Received samples are conserved, and the delivered batches followed by the buffer are all of them, in order,
      if and only if the cap never evicted and no backward stamp cleared any. */
  lemma SamplesConserved(p: Params, cs: seq<Callback>)
    ensures var r := Exec(p, cs);
            |r.imus| == |Delivered(r.packages)| + |r.s.imuBuffer| + r.imuEvicted + r.imuCleared &&
            (r.imuEvicted == 0 && r.imuCleared == 0 <==> Delivered(r.packages) + r.s.imuBuffer == r.imus)
  {
    hide Delivered;
    RunKeeps(p, cs);
    var r := Exec(p, cs);
    if r.imuEvicted == 0 && r.imuCleared == 0 {
      DeliveredIsPrefix(r);
    }
  }

  lemma DeliveredIsPrefix(r: Run)
    requires ImuInv(r) && DeliveredInv(r) && |Delivered(r.packages)| == ImuGone(r)
    ensures Delivered(r.packages) + r.s.imuBuffer == r.imus
  {
    hide Delivered, ImuOrder;
    var d := Delivered(r.packages);
    forall k | 0 <= k < |d| ensures d[k] == r.imus[k] {
      IncreasingRoom(d, k + 1, ImuGone(r));
      IncreasingCeiling(d, k, ImuGone(r));
    }
    assert d == r.imus[..|d|];
  }

  lemma {:induction false} IncreasingCeiling(d: seq<Imu>, k: nat, bound: nat)
    requires k < |d| && forall i, j :: 0 <= i < j < |d| ==> d[i].id < d[j].id
    requires forall i :: 0 <= i < |d| ==> d[i].id < bound
    ensures d[k].id + (|d| - k) <= bound
    decreases |d| - k
  {
    if k < |d| - 1 {
      IncreasingCeiling(d, k + 1, bound);
    }
  }

  lemma {:induction false} IncreasingRoom(d: seq<Imu>, n: nat, bound: nat)
    requires n <= |d| && forall k, m :: 0 <= k < m < |d| ==> d[k].id < d[m].id
    requires forall k :: 0 <= k < |d| ==> d[k].id < bound
    ensures n <= bound && (n > 0 ==> n - 1 <= d[n - 1].id)
  {
    if n > 0 {
      IncreasingRoom(d, n - 1, bound);
      assert n > 1 ==> d[n - 2].id < d[n - 1].id;
      assert d[n - 1].id < bound;
    }
  }

  /** In a reachable state, what a delivery takes is the buffer's prefix up to the scan end. */
  lemma BatchIsPrefix(p: Params, cs: seq<Callback>)
    requires CanOpen(Exec(p, cs).s)
    ensures var s := Exec(p, cs).s;
            var (s', g) := Deliver(s);
            s.imuBuffer == g.imu + s'.imuBuffer &&
            (forall i :: 0 <= i < |g.imu| ==> g.imu[i].stamp <= g.endTime) &&
            (forall i :: 0 <= i < |s'.imuBuffer| ==> s'.imuBuffer[i].stamp >= g.endTime)
  {
    RunKeeps(p, cs);
    BatchSplits(Exec(p, cs));
  }

  /** The running mean is the exact average of the accepted spans, and no package lasts more than a second. */
  lemma StallGuard(p: Params, cs: seq<Callback>)
    ensures var r := Exec(p, cs);
            r.s.scanNum == |r.spans| && 0.0 <= r.s.meanScan <= 1.0 &&
            r.s.meanScan * |r.spans| as real == SumOf(r.spans) && (r.spans == [] ==> r.s.meanScan == 0.0) &&
            forall k :: 0 <= k < |r.packages| ==>
              r.packages[k].begTime <= r.packages[k].endTime <= r.packages[k].begTime + 1.0
  {
    RunKeeps(p, cs);
  }
}
