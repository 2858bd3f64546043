/** FAST-LIO's sensor buffers: the LiDAR and IMU callbacks and the packaging of one scan with its IMU batch. */
module LioBuffers {
  import opened Reals

  const LIDAR_CAP := 100
  const IMU_CAP := 2000
  const MAX_FORWARD_JUMP := 5.0

  /** A preprocessed cloud: arrival number, size and the time offset of its last point, in milliseconds. */
  datatype Frame = Frame(id: nat, points: nat, lastCurvature: real)

  datatype Imu = Imu(id: nat, stamp: real)

  /** MeasureGroup, as handed to the filter. */
  datatype Package = Package(lidar: Frame, begTime: real, endTime: real, imu: seq<Imu>)

  datatype Params = Params(timeSync: bool, lidarToImu: real)

  datatype Lio = Lio(
    lidarBuffer: seq<Frame>, timeBuffer: seq<real>, imuBuffer: seq<Imu>,
    lastLidar: real, lastImu: real, isFirstLidar: bool,
    offsetSet: bool, offset: real,                       // timediff_set_flg, timediff_lidar_wrt_imu
    pushed: bool, held: Frame, begTime: real, endTime: real,  // lidar_pushed and the open MeasureGroup
    meanScan: real, scanNum: nat,
    frames: nat, imus: nat)                              // arrivals accepted so far

  const NO_FRAME := Frame(0, 0, 0.0)

  function Initial(): Lio {
    Lio([], [], [], 0.0, -1.0, true, false, 0.0, false, NO_FRAME, 0.0, 0.0, 0.0, 0, 0, 0)
  }

  // ----- the callbacks, as functions -----

  /** The cap loop: oldest first until at most cap are left. */
  function Newest<T>(s: seq<T>, cap: nat): (r: seq<T>)
    ensures |r| == if |s| > cap then cap else |s|
  {
    if |s| > cap then s[|s| - cap..] else s
  }

  /** Backward or absurdly forward stamps are dropped without touching the state. */
  predicate Glitch(s: Lio, now: real) {
    !s.isFirstLidar && (now < s.lastLidar || now > s.lastLidar + MAX_FORWARD_JUMP)
  }

  predicate SelfSyncs(p: Params, offsetSet: bool, lastImu: real, imu: seq<Imu>, now: real) {
    p.timeSync && !offsetSet && Abs(now - lastImu) > 1.0 && imu != []
  }

  function OnCloud(p: Params, s: Lio, now: real, points: nat, lastCurvature: real): Lio {
    if Glitch(s, now) then s
    else
      var sync := SelfSyncs(p, s.offsetSet, s.lastImu, s.imuBuffer, now);
      s.(isFirstLidar := false, frames := s.frames + 1, lastLidar := now,
         lidarBuffer := Newest(s.lidarBuffer + [Frame(s.frames, points, lastCurvature)], LIDAR_CAP),
         timeBuffer := Newest(s.timeBuffer + [now], LIDAR_CAP),
         offsetSet := s.offsetSet || sync,
         offset := if sync then now + 0.1 - s.lastImu else s.offset)
  }

  function ImuStamp(p: Params, s: Lio, stamp: real): real {
    if Abs(s.offset) > 0.1 && p.timeSync then s.offset + stamp else stamp - p.lidarToImu
  }

  function OnImu(p: Params, s: Lio, stamp: real): Lio {
    var t := ImuStamp(p, s, stamp);
    var kept := if t < s.lastImu then [] else s.imuBuffer;
    s.(imus := s.imus + 1, lastImu := t, imuBuffer := Newest(kept + [Imu(s.imus, t)], IMU_CAP))
  }

  /** The scan span is believed only between half the running mean and one second. */
  predicate SpanAccepted(meanScan: real, f: Frame) {
    f.points > 1 && f.lastCurvature / 1000.0 >= 0.5 * meanScan && f.lastCurvature / 1000.0 <= 1.0
  }

  /** The running mean over count spans, the last of them span. */
  function NextMean(mean: real, span: real, count: nat): real
    requires count > 0
  {
    mean + (span - mean) / count as real
  }

  function OpenScan(s: Lio): Lio
    requires s.lidarBuffer != [] && s.timeBuffer != []
  {
    var f, beg, span := s.lidarBuffer[0], s.timeBuffer[0], s.lidarBuffer[0].lastCurvature / 1000.0;
    var scan := s.(pushed := true, held := f, begTime := beg);
    if SpanAccepted(s.meanScan, f) then
      scan.(scanNum := s.scanNum + 1, endTime := beg + span,
              meanScan := NextMean(s.meanScan, span, s.scanNum + 1))
    else scan.(endTime := beg + s.meanScan)
  }

  /** The IMU loop: how many samples it pops when the last stamp read is t. */
  function Taken(imu: seq<Imu>, t: real, end: real): (n: nat)
    ensures n <= |imu|
  {
    if imu == [] || t >= end || imu[0].stamp > end then 0
    else 1 + Taken(imu[1..], imu[0].stamp, end)
  }

  lemma TakenUnfolds(imu: seq<Imu>, t: real, end: real)
    ensures Taken(imu, t, end) ==
      if imu == [] || t >= end || imu[0].stamp > end then 0 else 1 + Taken(imu[1..], imu[0].stamp, end)
  {
  }

  /** How many samples the scan ending at end takes from the front of the buffer. */
  function BatchSize(imu: seq<Imu>, end: real): (n: nat)
    requires imu != []
    ensures n <= |imu|
  {
    Taken(imu, imu[0].stamp, end)
  }

  predicate CanOpen(s: Lio) {
    s.lidarBuffer != [] && s.timeBuffer != [] && s.imuBuffer != []
  }

  function Opened(s: Lio): Lio
    requires CanOpen(s)
  {
    if s.pushed then s else OpenScan(s)
  }

  predicate Delivers(s: Lio) {
    CanOpen(s) && Opened(s).lastImu >= Opened(s).endTime
  }

  function Deliver(s: Lio): (Lio, Package)
    requires CanOpen(s)
  {
    var o := Opened(s);
    var n := BatchSize(o.imuBuffer, o.endTime);
    (o.(imuBuffer := o.imuBuffer[n..], lidarBuffer := o.lidarBuffer[1..], timeBuffer := o.timeBuffer[1..], pushed := false),
     Package(o.held, o.begTime, o.endTime, o.imuBuffer[..n]))
  }

  function OnSync(s: Lio): Lio {
    if !CanOpen(s) then s else if Delivers(s) then Deliver(s).0 else Opened(s)
  }

  // ----- the globals, updated in place -----

  class Mapper {
    const params: Params
    var lidarBuffer: seq<Frame>
    var timeBuffer: seq<real>
    var imuBuffer: seq<Imu>
    var lastTimestampLidar: real
    var lastTimestampImu: real
    var isFirstLidar: bool
    var timediffSet: bool
    var timediff: real
    var lidarPushed: bool
    var measLidar: Frame
    var measBegTime: real
    var lidarEndTime: real
    var lidarMeanScantime: real
    var scanNum: nat
    var frames: nat
    var imus: nat

    function View(): Lio
      reads this
    {
      Lio(lidarBuffer, timeBuffer, imuBuffer, lastTimestampLidar, lastTimestampImu, isFirstLidar, timediffSet, timediff,
          lidarPushed, measLidar, measBegTime, lidarEndTime, lidarMeanScantime, scanNum, frames, imus)
    }

    constructor (p: Params)
      ensures View() == Initial() && params == p
    {
      params := p;
      lidarBuffer, timeBuffer, imuBuffer := [], [], [];
      lastTimestampLidar, lastTimestampImu, isFirstLidar := 0.0, -1.0, true;
      timediffSet, timediff, lidarPushed := false, 0.0, false;
      measLidar, measBegTime, lidarEndTime := NO_FRAME, 0.0, 0.0;
      lidarMeanScantime, scanNum, frames, imus := 0.0, 0, 0, 0;
    }

    method StandardPclCbk(curTime: real, points: nat, lastCurvature: real)
      requires |lidarBuffer| == |timeBuffer|
      modifies this`isFirstLidar, this`lidarBuffer, this`timeBuffer, this`frames, this`lastTimestampLidar,
               this`timediffSet, this`timediff
      ensures View() == OnCloud(params, old(View()), curTime, points, lastCurvature)
    {
      hide Newest, SelfSyncs, Abs;
      if !isFirstLidar && (curTime < lastTimestampLidar || curTime > lastTimestampLidar + MAX_FORWARD_JUMP) {
        return;
      }
      AcceptCloud(curTime, points, lastCurvature);
    }

    /** What the callback does with a stamp that is not a glitch. */
    method AcceptCloud(curTime: real, points: nat, lastCurvature: real)
      requires |lidarBuffer| == |timeBuffer|
      modifies this`isFirstLidar, this`lidarBuffer, this`timeBuffer, this`frames, this`lastTimestampLidar,
               this`timediffSet, this`timediff
      ensures !isFirstLidar && frames == old(frames) + 1 && lastTimestampLidar == curTime
      ensures lidarBuffer == Newest(old(lidarBuffer) + [Frame(old(frames), points, lastCurvature)], LIDAR_CAP)
      ensures timeBuffer == Newest(old(timeBuffer) + [curTime], LIDAR_CAP)
      ensures var sync := SelfSyncs(params, old(timediffSet), lastTimestampImu, imuBuffer, curTime);
              timediffSet == (old(timediffSet) || sync) &&
              timediff == if sync then curTime + 0.1 - lastTimestampImu else old(timediff)
    {
      hide Newest, SelfSyncs, Abs;
      if isFirstLidar {
        isFirstLidar := false;
      }
      lidarBuffer, timeBuffer := lidarBuffer + [Frame(frames, points, lastCurvature)], timeBuffer + [curTime];
      frames, lastTimestampLidar := frames + 1, curTime;
      CapLidarBuffers();
      SelfSync();
    }

    method SelfSync()
      modifies this`timediffSet, this`timediff
      ensures var sync := SelfSyncs(params, old(timediffSet), lastTimestampImu, imuBuffer, lastTimestampLidar);
              timediffSet == (old(timediffSet) || sync) &&
              timediff == if sync then lastTimestampLidar + 0.1 - lastTimestampImu else old(timediff)
    {
      if params.timeSync && !timediffSet && Abs(lastTimestampLidar - lastTimestampImu) > 1.0 && imuBuffer != [] {
        timediffSet := true;
        timediff := lastTimestampLidar + 0.1 - lastTimestampImu;
      }
    }

    method CapLidarBuffers()
      requires |lidarBuffer| == |timeBuffer|
      modifies this`lidarBuffer, this`timeBuffer
      ensures lidarBuffer == Newest(old(lidarBuffer), LIDAR_CAP) && timeBuffer == Newest(old(timeBuffer), LIDAR_CAP)
    {
      while |lidarBuffer| > LIDAR_CAP
        invariant |lidarBuffer| == |timeBuffer|
        invariant Newest(lidarBuffer, LIDAR_CAP) == Newest(old(lidarBuffer), LIDAR_CAP)
        invariant Newest(timeBuffer, LIDAR_CAP) == Newest(old(timeBuffer), LIDAR_CAP)
      {
        lidarBuffer := lidarBuffer[1..];
        timeBuffer := timeBuffer[1..];
      }
    }

    method ImuCbk(stamp: real)
      modifies this
      ensures View() == OnImu(params, old(View()), stamp)
    {
      hide Newest, Abs;
      var timestamp := stamp - params.lidarToImu;
      if Abs(timediff) > 0.1 && params.timeSync {
        timestamp := timediff + stamp;
      }
      if timestamp < lastTimestampImu {
        imuBuffer := [];
      }
      imuBuffer := imuBuffer + [Imu(imus, timestamp)];
      imus, lastTimestampImu := imus + 1, timestamp;
      CapImuBuffer();
    }

    method CapImuBuffer()
      modifies this`imuBuffer
      ensures imuBuffer == Newest(old(imuBuffer), IMU_CAP)
    {
      while |imuBuffer| > IMU_CAP
        invariant Newest(imuBuffer, IMU_CAP) == Newest(old(imuBuffer), IMU_CAP)
      {
        imuBuffer := imuBuffer[1..];
      }
    }

    method SyncPackages() returns (ready: bool, meas: Package)
      requires |lidarBuffer| == |timeBuffer|
      modifies this
      ensures View() == OnSync(old(View()))
      ensures ready == Delivers(old(View()))
      ensures ready ==> meas == Deliver(old(View())).1
    {
      hide BatchSize, OpenScan;
      meas := Package(measLidar, measBegTime, lidarEndTime, []);
      if lidarBuffer == [] || imuBuffer == [] {
        return false, meas;
      }
      PushScan();
      if lastTimestampImu < lidarEndTime {
        return false, meas;
      }
      meas := TakePackage();
      ready := true;
    }

    /** Open the front frame unless a scan is already open. */
    method PushScan()
      requires lidarBuffer != [] && timeBuffer != []
      modifies this`measLidar, this`measBegTime, this`lidarEndTime, this`lidarPushed, this`scanNum, this`lidarMeanScantime
      ensures View() == if old(lidarPushed) then old(View()) else OpenScan(old(View()))
    {
      hide NextMean, SpanAccepted;
      if !lidarPushed {
        OpenLidarScan();
      }
    }

    /** The open scan with the samples up to its end, taken off the buffers. */
    method TakePackage() returns (meas: Package)
      requires lidarBuffer != [] && timeBuffer != [] && imuBuffer != []
      modifies this`lidarBuffer, this`timeBuffer, this`imuBuffer, this`lidarPushed
      ensures var n := BatchSize(old(imuBuffer), lidarEndTime);
              meas == Package(measLidar, measBegTime, lidarEndTime, old(imuBuffer)[..n]) && imuBuffer == old(imuBuffer)[n..]
      ensures lidarBuffer == old(lidarBuffer)[1..] && timeBuffer == old(timeBuffer)[1..] && !lidarPushed
    {
      hide BatchSize;
      var batch := PopImuBatch();
      meas := Package(measLidar, measBegTime, lidarEndTime, batch);
      lidarBuffer, timeBuffer := lidarBuffer[1..], timeBuffer[1..];
      lidarPushed := false;
    }

    /** Take the front frame and settle the scan's end time, guarding against implausible spans. */
    method OpenLidarScan()
      requires lidarBuffer != [] && timeBuffer != []
      modifies this`measLidar, this`measBegTime, this`lidarEndTime, this`lidarPushed, this`scanNum, this`lidarMeanScantime
      ensures lidarPushed && measLidar == lidarBuffer[0] && measBegTime == timeBuffer[0]
      ensures var span := measLidar.lastCurvature / 1000.0;
              if SpanAccepted(old(lidarMeanScantime), measLidar) then
                scanNum == old(scanNum) + 1 && lidarEndTime == measBegTime + span &&
                lidarMeanScantime == NextMean(old(lidarMeanScantime), span, scanNum)
              else
                scanNum == old(scanNum) && lidarEndTime == measBegTime + lidarMeanScantime &&
                lidarMeanScantime == old(lidarMeanScantime)
    {
      hide NextMean;
      measLidar, measBegTime := lidarBuffer[0], timeBuffer[0];
      var span := measLidar.lastCurvature / 1000.0;
      if measLidar.points <= 1 {
        lidarEndTime := measBegTime + lidarMeanScantime;
      } else if span < 0.5 * lidarMeanScantime {
        lidarEndTime := measBegTime + lidarMeanScantime;
      } else if span > 1.0 {
        lidarEndTime := measBegTime + lidarMeanScantime;
      } else {
        scanNum := scanNum + 1;
        lidarEndTime := measBegTime + span;
        lidarMeanScantime := NextMean(lidarMeanScantime, span, scanNum);
      }
      lidarPushed := true;
    }

    method PopImuBatch() returns (batch: seq<Imu>)
      requires imuBuffer != []
      modifies this`imuBuffer
      ensures var n := BatchSize(old(imuBuffer), lidarEndTime);
              batch == old(imuBuffer)[..n] && imuBuffer == old(imuBuffer)[n..]
    {
      hide Taken;
      ghost var all, size := imuBuffer, BatchSize(imuBuffer, lidarEndTime);
      var imuTime := imuBuffer[0].stamp;
      batch := [];
      while imuBuffer != [] && imuTime < lidarEndTime
        invariant |batch| <= |all| && batch == all[..|batch|] && imuBuffer == all[|batch|..]
        invariant |batch| + Taken(imuBuffer, imuTime, lidarEndTime) == size
        decreases |imuBuffer|
      {
        TakenUnfolds(imuBuffer, imuTime, lidarEndTime);
        imuTime := imuBuffer[0].stamp;
        if imuTime > lidarEndTime {
          break;
        }
        batch := batch + [imuBuffer[0]];
        imuBuffer := imuBuffer[1..];
      }
      TakenUnfolds(imuBuffer, imuTime, lidarEndTime);
    }
  }
}
