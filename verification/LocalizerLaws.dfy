/** The localizer's decisions, told by the tick's and the configuration's own fields. */
module LocalizerLaws {
  import opened Reals
  import opened Kalman
  import opened Localizer

  /** One tick of a localizer that is tracking: a track match good enough on every count is taken; failing that, after
      enough losses, a global match good enough is; failing both the pose is held and one more loss is counted. */
  lemma TrackLaw(c: Config, s: Loc, t: Tick)
    requires FiltersOk(s.filters) && c.pi > 0.0 && s.initialized && !c.freezeAfterInit && t.ready
    ensures var s', m, g := Localize(c, s, t), t.track, t.global;
            var moved, allowed := c.dist(At(m.tf), At(s.cam)), (c.driftRate + t.speed * c.speedGain) * c.period;
            if m.fitness >= c.minFitness && m.rmse <= c.maxRmse && m.roll <= c.maxTilt && m.pitch <= c.maxTilt &&
               moved <= c.maxDpose && (s.settle > 0 || moved <= allowed || m.fitness - t.priorFitness >= c.jumpMargin)
            then s'.cam == m.tf && s'.lost == 0 && s'.settle == DropOne(s.settle)
            else if s.lost + 1 >= c.relocalizeAfter && g.fitness >= c.minFitnessReloc && g.rmse <= c.maxRmse &&
                    g.roll <= c.maxTilt && g.pitch <= c.maxTilt && c.dist(At(g.tf), At(s.cam)) <= c.maxRecoveryDrift
            then s'.cam == g.tf && s'.lost == 0 && s'.settle == c.settleAfterLock &&
                 s'.published == Tf(g.tf.x, g.tf.y, -s.floorZ, g.tf.yaw) && Restarted(s.filters, s'.filters, s'.published)
            else s' == s.(lost := s.lost + 1, settle := DropOne(s.settle))
    ensures Localize(c, s, t).initialized && Localize(c, s, t).floorZ == s.floorZ
  {
    hide SmoothTo;
  }

  /** Every filter restarts at its own coordinate of the pose with unit variance. */
  predicate Restarted(f: Filters, f': Filters, t: Tf) {
    f'.x == Kf(t.x, 1.0, f.x.q, f.x.r) && f'.y == Kf(t.y, 1.0, f.y.q, f.y.r) && f'.z == Kf(t.z, 1.0, f.z.q, f.z.r) &&
    f'.yaw == Kf(t.yaw, 1.0, f.yaw.q, f.yaw.r)
  }

  function DropOne(n: nat): nat { if n > 0 then n - 1 else 0 }

  /** The first lock: a global match good enough, level and near the hint; either way the match is published. */
  lemma FirstLockLaw(c: Config, s: Loc, t: Tick)
    requires FiltersOk(s.filters) && c.pi > 0.0 && !s.initialized && t.ready
    ensures var s', g := Localize(c, s, t), t.global;
            s'.floorZ == t.floorZ && s'.published == Tf(g.tf.x, g.tf.y, -t.floorZ, g.tf.yaw) && s'.lost == s.lost &&
            if g.fitness >= c.minFitnessReloc && g.roll <= c.maxTilt && g.pitch <= c.maxTilt &&
               c.dist(At(g.tf), c.hint) <= c.maxInitDist
            then s'.initialized && s'.cam == g.tf && s'.settle == c.settleAfterLock &&
                 Restarted(s.filters, s'.filters, s'.published)
            else !s'.initialized && s'.cam == s.cam && s'.settle == s.settle && s'.filters == s.filters
  {
  }

  /** A tick without a gravity transform or a large enough cloud, and a frozen localizer, change nothing. */
  lemma IdleLaw(c: Config, s: Loc, t: Tick)
    requires FiltersOk(s.filters) && c.pi > 0.0 && (!t.ready || (c.freezeAfterInit && s.initialized))
    ensures Localize(c, s, t) == s
  {
  }

  /** Good enough to be taken, whatever the state: the thresholds that do not depend on where the pose was. */
  predicate Sound(c: Config, t: Tick, tf: Tf) {
    t.ready &&
    ((t.track.tf == tf && t.track.fitness >= c.minFitness && t.track.rmse <= c.maxRmse &&
      t.track.roll <= c.maxTilt && t.track.pitch <= c.maxTilt) ||
     (t.global.tf == tf && t.global.fitness >= c.minFitnessReloc && t.global.rmse <= c.maxRmse &&
      t.global.roll <= c.maxTilt && t.global.pitch <= c.maxTilt))
  }

  ghost predicate FromSoundMatch(c: Config, ts: seq<Tick>, tf: Tf) {
    exists i :: 0 <= i < |ts| && Sound(c, ts[i], tf)
  }

  /** Over any run the map pose is the one it started from, or that of a registration result that met its fitness,
      error and tilt thresholds. */
  lemma {:induction false} MapPoseIsSound(c: Config, s: Loc, ts: seq<Tick>)
    requires SetupOk(c, s) && s.initialized
    ensures After(c, s, ts).initialized
    ensures After(c, s, ts).cam == s.cam || FromSoundMatch(c, ts, After(c, s, ts).cam)
  {
    if ts != [] {
      var front, t := ts[..|ts| - 1], ts[|ts| - 1];
      MapPoseIsSound(c, s, front);
      var before := After(c, s, front);
      if t.ready && !c.freezeAfterInit {
        TrackLaw(c, before, t);
      } else {
        IdleLaw(c, before, t);
      }
      SoundGrows(c, front, t, before.cam);
      assert ts == front + [t];
      assert ts[|ts| - 1] == t;
    }
  }

  lemma SoundGrows(c: Config, front: seq<Tick>, t: Tick, tf: Tf)
    ensures FromSoundMatch(c, front, tf) ==> FromSoundMatch(c, front + [t], tf)
  {
    if i :| 0 <= i < |front| && Sound(c, front[i], tf) {
      assert Sound(c, (front + [t])[i], tf);
    }
  }

  /** Whether a tick's matches all miss a threshold that does not depend on the state. */
  predicate Hopeless(c: Config, t: Tick) {
    !Sound(c, t, t.track.tf) && !Sound(c, t, t.global.tf)
  }

  /** Through a run of hopeless ticks the pose is held, and every one of them that saw a cloud counts as a loss. */
  lemma {:induction false} HopelessRun(c: Config, s: Loc, ts: seq<Tick>)
    requires SetupOk(c, s) && s.initialized && !c.freezeAfterInit
    requires forall i :: 0 <= i < |ts| ==> ts[i].ready && Hopeless(c, ts[i])
    ensures var r := After(c, s, ts);
            r.initialized && r.cam == s.cam && r.published == s.published && r.filters == s.filters && r.lost == s.lost + |ts|
  {
    if ts != [] {
      var front, t := ts[..|ts| - 1], ts[|ts| - 1];
      assert forall i :: 0 <= i < |front| ==> front[i] == ts[i];
      HopelessRun(c, s, front);
      TrackLaw(c, After(c, s, front), t);
    }
  }

  // ----- what is published -----

  /** b is the mean of the filter's estimate and the measurement z, weighted by each other's variance. */
  ghost predicate Weighs(f: Kf, z: real, b: real) {
    Times(b, f.p + f.q + f.r) == Times(f.x, f.r) + Times(z, f.p + f.q)
  }

  lemma StepWeighs(f: Kf, z: real)
    requires NoiseOk(f)
    ensures Weighs(f, z, Step(f, z).x)
  {
    StepIsWeightedMean(f, z);
    hide Times, Step;
  }

  /** With the filters on, a confident match moves each published coordinate to the weighted mean of its own filter and
      its own measurement; the yaw measured is the match's up to whole turns. */
  lemma ConfidentLaw(c: Config, s: Loc, t: Tick) returns (yaw: real)
    requires FiltersOk(s.filters) && c.pi > 0.0 && s.initialized && !c.freezeAfterInit && t.ready
    requires Accepts(c, s, t) && t.track.fitness >= c.confidence && c.useKalman
    ensures var f, p, m := s.filters, Localize(c, s, t).published, t.track.tf;
            Weighs(f.x, m.x, p.x) && Weighs(f.y, m.y, p.y) && Weighs(f.z, -s.floorZ, p.z) && Weighs(f.yaw, yaw, p.yaw) &&
            -c.pi <= yaw - f.yaw.x < c.pi && exists n: int :: TurnsApart(yaw, m.yaw, n, c.pi)
  {
    hide Weighs, Step, WrapNear, Accepts, TurnsApart;
    var f, m := s.filters, OnFloor(t.track.tf, s.floorZ);
    yaw := WrapNear(m.yaw, f.yaw.x, c.pi);
    WrapNearMeaning(m.yaw, f.yaw.x, c.pi);
    StepWeighs(f.x, m.x);
    StepWeighs(f.y, m.y);
    StepWeighs(f.z, m.z);
    StepWeighs(f.yaw, yaw);
  }

  /** Without the filters x and y go the share alpha of the way to the match. */
  lemma BlendLaw(c: Config, s: Loc, t: Tick)
    requires FiltersOk(s.filters) && c.pi > 0.0 && s.initialized && !c.freezeAfterInit && t.ready
    requires Accepts(c, s, t) && t.track.fitness >= c.confidence && !c.useKalman
    ensures var q, p, m := s.published, Localize(c, s, t).published, t.track.tf;
            p.x - q.x == Times(c.alpha, m.x - q.x) && p.y - q.y == Times(c.alpha, m.y - q.y) && p.z == -s.floorZ &&
            p.yaw == c.slerp(q.yaw, m.yaw, c.alpha) && Localize(c, s, t).filters == s.filters
  {
    ShareOfWay(c.alpha, s.published.x, t.track.tf.x);
    ShareOfWay(c.alpha, s.published.y, t.track.tf.y);
    hide Times;
  }

  lemma ShareOfWay(a: real, x: real, z: real)
    ensures Times(a, z) + Times(1.0 - a, x) - x == Times(a, z - x)
  {
  }

  /** A taken match below the confidence threshold moves the map pose but nothing that is published. */
  lemma UnconfidentLaw(c: Config, s: Loc, t: Tick)
    requires FiltersOk(s.filters) && c.pi > 0.0 && s.initialized && !c.freezeAfterInit && t.ready
    requires Accepts(c, s, t) && t.track.fitness < c.confidence
    ensures Localize(c, s, t).published == s.published && Localize(c, s, t).filters == s.filters
  {
    hide SmoothTo;
  }

  ghost predicate OnItsFloor(s: Loc) {
    s.published.z == -s.floorZ && s.filters.z.x == -s.floorZ
  }

  /** From the first lock on the published height is the floor's, whatever the matches say. */
  lemma {:induction false} PublishedOnFloor(c: Config, s: Loc, ts: seq<Tick>)
    requires SetupOk(c, s) && s.initialized && OnItsFloor(s)
    ensures var r := After(c, s, ts); r.initialized && r.floorZ == s.floorZ && OnItsFloor(r)
  {
    if ts != [] {
      PublishedOnFloor(c, s, ts[..|ts| - 1]);
      FloorStep(c, After(c, s, ts[..|ts| - 1]), ts[|ts| - 1]);
    }
  }

  lemma FloorStep(c: Config, s: Loc, t: Tick)
    requires FiltersOk(s.filters) && c.pi > 0.0 && s.initialized && OnItsFloor(s)
    ensures var r := Localize(c, s, t); r.initialized && r.floorZ == s.floorZ && OnItsFloor(r)
  {
    StepHull(s.filters.z, -s.floorZ, -s.floorZ, -s.floorZ);
    hide Step, Accepts, Relocalizes;
  }

  /** The first lock starts there. */
  lemma LockOnFloor(c: Config, s: Loc, t: Tick)
    requires FiltersOk(s.filters) && c.pi > 0.0 && !s.initialized && Localize(c, s, t).initialized
    ensures OnItsFloor(Localize(c, s, t))
  {
  }
}
