/** The localizer's first lock, tracking gate, relocalization and freeze, over arbitrary registration results. */
module Localizer {
  import opened Kalman
  import opened Options
  import opened Reals

  datatype Xy = Xy(x: real, y: real)

  /** The parts of map -> world the gate and the filters read. */
  datatype Tf = Tf(x: real, y: real, z: real, yaw: real)

  function At(t: Tf): Xy { Xy(t.x, t.y) }

  /** A registration result, with the attitude read off its rotation in degrees. */
  datatype Match = Match(tf: Tf, fitness: real, rmse: real, roll: real, pitch: real)

  datatype Config = Config(
    minFitness: real, minFitnessReloc: real, maxRmse: real, confidence: real, maxTilt: real,
    maxDpose: real, maxInitDist: real, maxRecoveryDrift: real,
    driftRate: real, speedGain: real, period: real, jumpMargin: real,
    relocalizeAfter: int, settleAfterLock: nat, freezeAfterInit: bool,
    useKalman: bool, alpha: real, slerp: (real, real, real) -> real,
    hint: Xy, pi: real, dist: (Xy, Xy) -> real)

  ghost predicate Metric(d: (Xy, Xy) -> real) {
    (forall a, b :: d(a, b) >= 0.0) && (forall a :: d(a, a) == 0.0) &&
    forall a, b, c {:trigger d(a, b), d(b, c)} :: d(a, c) <= d(a, b) + d(b, c)
  }

  datatype Filters = Filters(x: Kf, y: Kf, z: Kf, yaw: Kf)

  ghost predicate FiltersOk(f: Filters) {
    NoiseOk(f.x) && NoiseOk(f.y) && NoiseOk(f.z) && NoiseOk(f.yaw)
  }

  datatype Loc = Loc(cam: Tf, published: Tf, initialized: bool, lost: int, settle: nat, floorZ: real, filters: Filters)

  /** What one timer tick sees: whether the gravity transform and a large enough cloud are there, the tracking match,
      the prior pose's own fitness, the robot's speed, the global match and the scan's floor height. */
  datatype Tick = Tick(ready: bool, track: Match, priorFitness: real, speed: real, global: Match, floorZ: real)

  function OnFloor(t: Tf, floorZ: real): Tf { t.(z := -floorZ) }

  predicate Level(c: Config, m: Match) {
    m.roll <= c.maxTilt && m.pitch <= c.maxTilt
  }

  function Seed(f: Filters, t: Tf): Filters {
    Filters(Reset(f.x, t.x), Reset(f.y, t.y), Reset(f.z, t.z), Reset(f.yaw, t.yaw))
  }

  function Smooth(c: Config, f: Filters, t: Tf): Filters
    requires FiltersOk(f) && c.pi > 0.0
  {
    Filters(Step(f.x, t.x), Step(f.y, t.y), Step(f.z, t.z), Step(f.yaw, WrapNear(t.yaw, f.yaw.x, c.pi)))
  }

  function Estimate(f: Filters): Tf {
    Tf(f.x.x, f.y.x, f.z.x, f.yaw.x)
  }

  /** The fallback without filters: x and y blended, z taken over, the attitude interpolated. */
  function Blend(c: Config, before: Tf, t: Tf): Tf {
    Tf(Times(c.alpha, t.x) + Times(1.0 - c.alpha, before.x), Times(c.alpha, t.y) + Times(1.0 - c.alpha, before.y), t.z,
       c.slerp(before.yaw, t.yaw, c.alpha))
  }

  /** _smooth_tf: the filters' new state and the pose to publish. */
  function SmoothTo(c: Config, f: Filters, published: Tf, t: Tf): (Filters, Tf)
    requires FiltersOk(f) && c.pi > 0.0
  {
    if c.useKalman then var g := Smooth(c, f, t); (g, Estimate(g)) else (f, Blend(c, published, t))
  }

  // ----- the first lock -----

  predicate Locks(c: Config, m: Match) {
    m.fitness >= c.minFitnessReloc && Level(c, m) && c.dist(At(m.tf), c.hint) <= c.maxInitDist
  }

  function FirstLocalize(c: Config, s: Loc, t: Tick): Loc {
    var m, pub := t.global, OnFloor(t.global.tf, t.floorZ);
    if Locks(c, m)
    then s.(floorZ := t.floorZ, cam := m.tf, filters := Seed(s.filters, pub), published := pub, initialized := true,
            settle := c.settleAfterLock)
    else s.(floorZ := t.floorZ, published := pub)
  }

  // ----- tracking -----

  function DriftBudget(c: Config, t: Tick): real {
    (c.driftRate + t.speed * c.speedGain) * c.period
  }

  function Budget(c: Config, s: Loc, t: Tick): real {
    if s.settle > 0 then c.maxDpose else DriftBudget(c, t)
  }

  function Moved(c: Config, s: Loc, t: Tick): real {
    c.dist(At(t.track.tf), At(s.cam))
  }

  predicate Accepts(c: Config, s: Loc, t: Tick) {
    var m, dxy := t.track, Moved(c, s, t);
    m.fitness >= c.minFitness && m.rmse <= c.maxRmse && dxy <= c.maxDpose &&
    (dxy <= Budget(c, s, t) || m.fitness >= t.priorFitness + c.jumpMargin) && Level(c, m)
  }

  predicate Relocalizes(c: Config, s: Loc, t: Tick) {
    !Accepts(c, s, t) && s.lost + 1 >= c.relocalizeAfter &&
    t.global.fitness >= c.minFitnessReloc && t.global.rmse <= c.maxRmse && Level(c, t.global) &&
    c.dist(At(t.global.tf), At(s.cam)) <= c.maxRecoveryDrift
  }

  function Track(c: Config, s: Loc, t: Tick): Loc
    requires FiltersOk(s.filters) && c.pi > 0.0
  {
    var settle := if s.settle > 0 then s.settle - 1 else 0;
    if Accepts(c, s, t) then
      var (f, pub) := if t.track.fitness >= c.confidence
                      then SmoothTo(c, s.filters, s.published, OnFloor(t.track.tf, s.floorZ))
                      else (s.filters, s.published);
      s.(settle := settle, cam := t.track.tf, lost := 0, filters := f, published := pub)
    else if Relocalizes(c, s, t) then
      var pub := OnFloor(t.global.tf, s.floorZ);
      s.(settle := c.settleAfterLock, cam := t.global.tf, lost := 0, filters := Seed(s.filters, pub), published := pub)
    else
      s.(settle := settle, lost := s.lost + 1)
  }

  function Localize(c: Config, s: Loc, t: Tick): Loc
    requires FiltersOk(s.filters) && c.pi > 0.0
  {
    if c.freezeAfterInit && s.initialized then s
    else if !t.ready then s
    else if !s.initialized then FirstLocalize(c, s, t)
    else Track(c, s, t)
  }

  // ----- the node -----

  class LocalizerNode {
    const config: Config
    const kfX: KalmanScalar
    const kfY: KalmanScalar
    const kfZ: KalmanScalar
    const kfYaw: KalmanScalar
    var tMapCam: Tf
    var tPublished: Tf
    var initialized: bool
    var lostCount: int
    var settleTicks: nat
    var floorZWorld: real

    function View(): Loc
      reads this, kfX, kfY, kfZ, kfYaw
    {
      Loc(tMapCam, tPublished, initialized, lostCount, settleTicks, floorZWorld,
          Filters(kfX.View(), kfY.View(), kfZ.View(), kfYaw.View()))
    }

    ghost predicate Distinct() {
      kfX != kfY && kfX != kfZ && kfX != kfYaw && kfY != kfZ && kfY != kfYaw && kfZ != kfYaw
    }

    constructor (c: Config, initialPose: Tf, processVar: real, measVar: real)
      ensures Distinct() && config == c && fresh(kfX) && fresh(kfY) && fresh(kfZ) && fresh(kfYaw)
      ensures var blank := Kf(0.0, 1.0, processVar, measVar);
              View() == Loc(initialPose, initialPose, false, 0, 0, 0.0,
                            Seed(Filters(blank, blank, blank, blank), initialPose))
    {
      config, tMapCam, tPublished := c, initialPose, initialPose;
      initialized, lostCount, settleTicks, floorZWorld := false, 0, 0, 0.0;
      kfX := new KalmanScalar(processVar, measVar, initialPose.x);
      kfY := new KalmanScalar(processVar, measVar, initialPose.y);
      kfZ := new KalmanScalar(processVar, measVar, initialPose.z);
      kfYaw := new KalmanScalar(processVar, measVar, initialPose.yaw);
    }

    method SeedKalmans(t: Tf)
      requires Distinct()
      modifies kfX, kfY, kfZ, kfYaw
      ensures View() == old(View()).(filters := Seed(old(View()).filters, t))
    {
      kfX.ResetTo(t.x);
      kfY.ResetTo(t.y);
      kfZ.ResetTo(t.z);
      kfYaw.ResetTo(t.yaw);
    }

    method SmoothTf(t: Tf) returns (smoothed: Tf)
      requires Distinct() && FiltersOk(View().filters) && config.pi > 0.0
      modifies kfX, kfY, kfZ, kfYaw
      ensures var (f, pose) := SmoothTo(config, old(View()).filters, tPublished, t);
              View() == old(View()).(filters := f) && smoothed == pose
    {
      if !config.useKalman {
        var alpha := config.alpha;
        var x := Times(alpha, t.x) + Times(1.0 - alpha, tPublished.x);
        var y := Times(alpha, t.y) + Times(1.0 - alpha, tPublished.y);
        return Tf(x, y, t.z, config.slerp(tPublished.yaw, t.yaw, alpha));
      }
      var delta := Mod(t.yaw - kfYaw.x + config.pi, 2.0 * config.pi) - config.pi;
      var wrapped := kfYaw.x + delta;
      var x := kfX.Observe(t.x);
      var y := kfY.Observe(t.y);
      var z := kfZ.Observe(t.z);
      var yaw := kfYaw.Observe(wrapped);
      smoothed := Tf(x.value, y.value, z.value, yaw.value);
    }

    method FirstLocalizeScan(t: Tick)
      requires Distinct() && !initialized
      modifies this, kfX, kfY, kfZ, kfYaw
      ensures View() == FirstLocalize(config, old(View()), t)
    {
      floorZWorld := t.floorZ;
      var m := t.global;
      var pub := OnFloor(m.tf, floorZWorld);
      var distFromHint := config.dist(At(m.tf), config.hint);
      if m.fitness >= config.minFitnessReloc && Level(config, m) && distFromHint <= config.maxInitDist {
        tMapCam := m.tf;
        SeedKalmans(pub);
        tPublished := pub;
        initialized := true;
        settleTicks := config.settleAfterLock;
      } else {
        tPublished := pub;
      }
    }

    method TrackScan(t: Tick)
      requires Distinct() && FiltersOk(View().filters) && config.pi > 0.0
      modifies this, kfX, kfY, kfZ, kfYaw
      ensures View() == Track(config, old(View()), t)
    {
      hide SmoothTo, Seed;
      var m := t.track;
      var pub := OnFloor(m.tf, floorZWorld);
      var dxy := config.dist(At(m.tf), At(tMapCam));
      var driftBudget := (config.driftRate + t.speed * config.speedGain) * config.period;
      var effectiveBudget := driftBudget;
      if settleTicks > 0 {
        settleTicks := settleTicks - 1;
        effectiveBudget := config.maxDpose;
      }
      var withinDrift := dxy <= effectiveBudget;
      var justified := false;
      if !withinDrift && dxy <= config.maxDpose {
        justified := m.fitness >= t.priorFitness + config.jumpMargin;
      }
      var accept := m.fitness >= config.minFitness && m.rmse <= config.maxRmse && dxy <= config.maxDpose &&
                    (withinDrift || justified) && Level(config, m);
      if accept {
        tMapCam := m.tf;
        if m.fitness >= config.confidence {
          tPublished := SmoothTf(pub);
        }
        lostCount := 0;
      } else {
        lostCount := lostCount + 1;
        if lostCount >= config.relocalizeAfter {
          var g := t.global;
          var drift := config.dist(At(g.tf), At(tMapCam));
          if g.fitness >= config.minFitnessReloc && g.rmse <= config.maxRmse && Level(config, g) &&
             drift <= config.maxRecoveryDrift {
            tMapCam := g.tf;
            var gPub := OnFloor(g.tf, floorZWorld);
            SeedKalmans(gPub);
            tPublished := gPub;
            lostCount := 0;
            settleTicks := config.settleAfterLock;
          }
        }
      }
    }

    method LocalizeTick(t: Tick)
      requires Distinct() && FiltersOk(View().filters) && config.pi > 0.0
      modifies this, kfX, kfY, kfZ, kfYaw
      ensures View() == Localize(config, old(View()), t)
    {
      if config.freezeAfterInit && initialized {
        return;
      }
      if !t.ready {
        return;
      }
      if !initialized {
        FirstLocalizeScan(t);
      } else {
        TrackScan(t);
      }
    }
  }

  // ----- runs -----

  /** Filter noise and the constant standing for pi are positive; distances are a metric. */
  ghost predicate SetupOk(c: Config, s: Loc) {
    c.pi > 0.0 && FiltersOk(s.filters) && Metric(c.dist)
  }

  lemma TickKeepsFilters(c: Config, s: Loc, t: Tick)
    requires FiltersOk(s.filters) && c.pi > 0.0
    ensures FiltersOk(Localize(c, s, t).filters)
  {
    var pub, f := OnFloor(t.track.tf, s.floorZ), s.filters;
    StepVariance(f.x, pub.x);
    StepVariance(f.y, pub.y);
    StepVariance(f.z, pub.z);
    StepVariance(f.yaw, WrapNear(pub.yaw, f.yaw.x, c.pi));
  }

  function After(c: Config, s: Loc, ts: seq<Tick>): (r: Loc)
    requires FiltersOk(s.filters) && c.pi > 0.0
    ensures FiltersOk(r.filters)
  {
    if ts == [] then s
    else
      var before := After(c, s, ts[..|ts| - 1]);
      TickKeepsFilters(c, before, ts[|ts| - 1]);
      Localize(c, before, ts[|ts| - 1])
  }

  /** The account of a run: accepted steady drift allowances, loose moves, and relocalizations. */
  datatype Account = Account(steady: real, settleTicks: nat, jumps: nat, relocalizations: nat)

  predicate Tracks(c: Config, s: Loc) {
    s.initialized && !c.freezeAfterInit
  }

  function Charge(c: Config, s: Loc, t: Tick, a: Account): Account {
    if !Tracks(c, s) || !t.ready then a
    else
      var a' := if s.settle > 0 then a.(settleTicks := a.settleTicks + 1) else a;
      if Accepts(c, s, t) && s.settle == 0 then
        if Moved(c, s, t) <= DriftBudget(c, t) then a'.(steady := a.steady + DriftBudget(c, t))
        else a'.(jumps := a.jumps + 1)
      else if Relocalizes(c, s, t) then a'.(relocalizations := a.relocalizations + 1)
      else a'
  }

  function Ledger(c: Config, s: Loc, ts: seq<Tick>): Account
    requires FiltersOk(s.filters) && c.pi > 0.0
  {
    if ts == [] then Account(0.0, 0, 0, 0)
    else Charge(c, After(c, s, ts[..|ts| - 1]), ts[|ts| - 1], Ledger(c, s, ts[..|ts| - 1]))
  }

  function Allowance(c: Config, a: Account): real {
    a.steady + Times((a.settleTicks + a.jumps) as real, c.maxDpose) + Times(a.relocalizations as real, c.maxRecoveryDrift)
  }

  lemma TimesMore(n: nat, k: real)
    ensures Times((n + 1) as real, k) == Times(n as real, k) + k
  {
  }

  /** One tracking tick moves the map pose by no more than it adds to the allowance. */
  lemma TickWithinAllowance(c: Config, s: Loc, t: Tick, a: Account)
    requires SetupOk(c, s) && s.initialized && c.maxDpose >= 0.0
    ensures var s' := Localize(c, s, t);
            s'.initialized && c.dist(At(s'.cam), At(s.cam)) <= Allowance(c, Charge(c, s, t, a)) - Allowance(c, a)
  {
    TimesMore(a.settleTicks + a.jumps, c.maxDpose);
    TimesMore(a.settleTicks + a.jumps + 1, c.maxDpose);
    TimesMore(a.relocalizations, c.maxRecoveryDrift);
    assert c.dist(At(t.global.tf), At(s.cam)) >= 0.0;
    hide Times;
    hide Smooth;
  }

  /** The length of the way the map pose goes, tick by tick. */
  function Path(c: Config, s: Loc, ts: seq<Tick>): real
    requires FiltersOk(s.filters) && c.pi > 0.0
  {
    if ts == [] then 0.0
    else Path(c, s, ts[..|ts| - 1]) + c.dist(At(After(c, s, ts).cam), At(After(c, s, ts[..|ts| - 1]).cam))
  }

  /** After a lock the way of the map pose, back and forth included, is at most the drift budgets of the steady
      ticks, plus the per-tick ceiling for each settle tick and each justified jump, plus the recovery bound for
      each relocalization. */
  lemma {:induction false} PathBound(c: Config, s: Loc, ts: seq<Tick>)
    requires SetupOk(c, s) && s.initialized && c.maxDpose >= 0.0
    ensures After(c, s, ts).initialized
    ensures Path(c, s, ts) <= Allowance(c, Ledger(c, s, ts))
  {
    if ts == [] {
      assert Times(0.0, c.maxDpose) == 0.0 && Times(0.0, c.maxRecoveryDrift) == 0.0;
    } else {
      var front := ts[..|ts| - 1];
      PathBound(c, s, front);
      TickWithinAllowance(c, After(c, s, front), ts[|ts| - 1], Ledger(c, s, front));
    }
  }

  /** The way is at least as long as the distance from where it started. */
  lemma {:induction false} PathCoversDistance(c: Config, s: Loc, ts: seq<Tick>)
    requires SetupOk(c, s)
    ensures c.dist(At(After(c, s, ts).cam), At(s.cam)) <= Path(c, s, ts)
  {
    if ts != [] {
      var front := ts[..|ts| - 1];
      PathCoversDistance(c, s, front);
      var a, b, d := At(After(c, s, ts).cam), At(After(c, s, front).cam), At(s.cam);
      assert c.dist(a, d) <= c.dist(a, b) + c.dist(b, d);
    }
  }

  /** So the map pose is never farther than that from where it was locked. */
  lemma DriftBound(c: Config, s: Loc, ts: seq<Tick>)
    requires SetupOk(c, s) && s.initialized && c.maxDpose >= 0.0
    ensures After(c, s, ts).initialized
    ensures c.dist(At(After(c, s, ts).cam), At(s.cam)) <= Allowance(c, Ledger(c, s, ts))
  {
    PathBound(c, s, ts);
    PathCoversDistance(c, s, ts);
  }

  /** Settle ticks are paid for by locks: at most the grace period each. */
  lemma {:induction false} SettleTicksBounded(c: Config, s: Loc, ts: seq<Tick>)
    requires SetupOk(c, s) && s.initialized
    ensures After(c, s, ts).initialized
    ensures var a := Ledger(c, s, ts);
            a.settleTicks + After(c, s, ts).settle <= s.settle + a.relocalizations * c.settleAfterLock
  {
    if ts != [] {
      var front, t := ts[..|ts| - 1], ts[|ts| - 1];
      SettleTicksBounded(c, s, front);
      var a := Ledger(c, s, front);
      assert (a.relocalizations + 1) * c.settleAfterLock == a.relocalizations * c.settleAfterLock + c.settleAfterLock;
      hide Smooth;
    }
  }

  /** The tick that locks puts the map pose within the hint bound and starts the grace period. */
  lemma FirstLockNearHint(c: Config, s: Loc, t: Tick)
    requires SetupOk(c, s) && !s.initialized && Localize(c, s, t).initialized
    ensures var s' := Localize(c, s, t);
            c.dist(At(s'.cam), c.hint) <= c.maxInitDist && s'.settle == c.settleAfterLock &&
            s'.published == Estimate(s'.filters)
  {
  }

  /** From the first lock on, the distance to the hint is bounded by the hint bound and the run's account. */
  lemma HintBound(c: Config, s: Loc, t: Tick, ts: seq<Tick>)
    requires SetupOk(c, s) && !s.initialized && Localize(c, s, t).initialized && c.maxDpose >= 0.0
    ensures FiltersOk(Localize(c, s, t).filters)
    ensures var locked := Localize(c, s, t);
            var a := Ledger(c, locked, ts);
            c.dist(At(After(c, locked, ts).cam), c.hint) <= c.maxInitDist + Allowance(c, a) &&
            a.settleTicks <= c.settleAfterLock * (1 + a.relocalizations)
  {
    FirstLockNearHint(c, s, t);
    TickKeepsFilters(c, s, t);
    var locked := Localize(c, s, t);
    DriftBound(c, locked, ts);
    SettleTicksBounded(c, locked, ts);
    var a, n := Ledger(c, locked, ts), c.settleAfterLock;
    assert n * (1 + a.relocalizations) == n + a.relocalizations * n;
    assert c.dist(At(After(c, locked, ts).cam), c.hint)
      <= c.dist(At(After(c, locked, ts).cam), At(locked.cam)) + c.dist(At(locked.cam), c.hint);
  }

  /** A frozen localizer never changes again. */
  lemma {:induction false} FrozenForever(c: Config, s: Loc, ts: seq<Tick>)
    requires SetupOk(c, s) && s.initialized && c.freezeAfterInit
    ensures After(c, s, ts) == s
  {
    if ts != [] {
      FrozenForever(c, s, ts[..|ts| - 1]);
    }
  }

  /** While tracking with the filters on, the published pose is their estimate. */
  lemma {:induction false} PublishedIsEstimate(c: Config, s: Loc, ts: seq<Tick>)
    requires SetupOk(c, s) && c.useKalman && s.initialized && s.published == Estimate(s.filters)
    ensures var r := After(c, s, ts); r.initialized && r.published == Estimate(r.filters)
  {
    if ts != [] {
      PublishedIsEstimate(c, s, ts[..|ts| - 1]);
      hide Smooth;
    }
  }

  ghost predicate MatchesWithin(ts: seq<Tick>, low: Xy, high: Xy) {
    forall i :: 0 <= i < |ts| ==>
      low.x <= ts[i].track.tf.x <= high.x && low.y <= ts[i].track.tf.y <= high.y &&
      low.x <= ts[i].global.tf.x <= high.x && low.y <= ts[i].global.tf.y <= high.y
  }

  ghost predicate EstimateWithin(f: Filters, low: Xy, high: Xy) {
    low.x <= f.x.x <= high.x && low.y <= f.y.x <= high.y
  }

  ghost predicate PoseWithin(t: Tf, low: Xy, high: Xy) {
    low.x <= t.x <= high.x && low.y <= t.y <= high.y
  }

  lemma BlendWithin(c: Config, before: Tf, t: Tf, low: Xy, high: Xy)
    requires 0.0 <= c.alpha <= 1.0 && PoseWithin(before, low, high) && PoseWithin(t, low, high)
    ensures PoseWithin(Blend(c, before, t), low, high)
  {
    Between(c.alpha, before.x, t.x, low.x, high.x);
    Between(c.alpha, before.y, t.y, low.y, high.y);
    hide Times;
  }

  lemma Between(g: real, x: real, z: real, low: real, high: real)
    requires 0.0 <= g <= 1.0 && low <= x <= high && low <= z <= high
    ensures low <= Times(g, z) + Times(1.0 - g, x) <= high
  {
    ScaleLeft(g, low, z);
    ScaleLeft(g, z, high);
    ScaleLeft(1.0 - g, low, x);
    ScaleLeft(1.0 - g, x, high);
    assert Times(g, low) + Times(1.0 - g, low) == low;
    assert Times(g, high) + Times(1.0 - g, high) == high;
    hide Times;
  }

  lemma SmoothWithin(c: Config, f: Filters, published: Tf, t: Tf, low: Xy, high: Xy)
    requires FiltersOk(f) && c.pi > 0.0 && (c.useKalman || 0.0 <= c.alpha <= 1.0)
    requires EstimateWithin(f, low, high) && PoseWithin(published, low, high) && PoseWithin(t, low, high)
    ensures var (g, pose) := SmoothTo(c, f, published, t);
            EstimateWithin(g, low, high) && PoseWithin(pose, low, high)
  {
    if c.useKalman {
      StepHull(f.x, t.x, low.x, high.x);
      StepHull(f.y, t.y, low.y, high.y);
    } else {
      BlendWithin(c, published, t, low, high);
    }
    hide Step, Blend;
  }

  /** With the filters on or off, the published position never leaves a box that holds its seed and every
      registration result. */
  lemma {:induction false} PublishedInHull(c: Config, s: Loc, ts: seq<Tick>, low: Xy, high: Xy)
    requires SetupOk(c, s) && s.initialized && (c.useKalman || 0.0 <= c.alpha <= 1.0)
    requires EstimateWithin(s.filters, low, high) && PoseWithin(s.published, low, high) && MatchesWithin(ts, low, high)
    ensures var r := After(c, s, ts);
            r.initialized && EstimateWithin(r.filters, low, high) && PoseWithin(r.published, low, high)
  {
    if ts != [] {
      var front, t := ts[..|ts| - 1], ts[|ts| - 1];
      assert MatchesWithin(front, low, high);
      PublishedInHull(c, s, front, low, high);
      var before := After(c, s, front);
      SmoothWithin(c, before.filters, before.published, OnFloor(t.track.tf, before.floorZ), low, high);
      hide SmoothTo;
    }
  }
}
