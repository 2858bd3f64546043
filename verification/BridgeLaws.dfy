/** Where a control tick moves the robot, and exactly when it may: told by the history of callbacks alone. */
module BridgeLaws {
  import opened Options
  import opened Reals
  import opened Bridge

  /** When the last tick ran, or the start. */
  function LastTickAt(start: real, h: seq<Event>): real {
    if h == [] then start else if h[|h| - 1].Ticked? then h[|h| - 1].at else LastTickAt(start, h[..|h| - 1])
  }

  lemma {:induction false} TickTime(start: real, h: seq<Event>)
    ensures Replay(start, h).lastTick == LastTickAt(start, h)
  {
    if h != [] {
      TickTime(start, h[..|h| - 1]);
    }
  }

  /** The history ends in at most one armed stretch. */
  lemma ArmedOnce(h: seq<Event>, a: int, b: int)
    requires ArmedSince(h, a) && ArmedSince(h, b)
    ensures a == b
  {
    if a < b {
      NoneArmedBefore(h, a, b);
    } else if b < a {
      NoneArmedBefore(h, b, a);
    }
  }

  lemma NoneArmedBefore(h: seq<Event>, a: int, b: int)
    requires ArmedSince(h, a) && ArmedSince(h, b)
    ensures a >= b
  {
    if a < b {
      var t := LastTickBefore(h, a, b);
    }
  }

  lemma LastTickBefore(h: seq<Event>, a: int, b: int) returns (t: int)
    requires 0 <= a < b <= |h| && h[a].Ticked?
    ensures a <= t < b && h[t].Ticked? && forall j :: t < j < b ==> h[j].Cmd?
    decreases b - a
  {
    if h[b - 1].Ticked? {
      t := b - 1;
    } else {
      t := LastTickBefore(h, a, b - 1);
    }
  }

  lemma {:induction false} ArmedFromIs(h: seq<Event>, a: int)
    requires ArmedSince(h, a)
    ensures ArmedFrom(h) == a
  {
    ArmedFromMeaning(h);
    if ArmedFrom(h) >= 0 {
      ArmedOnce(h, ArmedFrom(h), a);
    } else {
      var t := LastTickBefore(h, a, |h|);
    }
  }

  lemma LastCmdIs(h: seq<Event>, c: int)
    requires 0 <= c < |h| && h[c].Cmd? && forall j :: c < j < |h| ==> h[j].Ticked?
    ensures LastCmd(h) == c
  {
  }

  /** Before a tick the bridge knows what it knew after the callbacks before it; the tick itself moves the robot exactly
      when it is justified. */
  lemma EnabledIff(start: real, h: seq<Event>)
    requires h != [] && h[|h| - 1].Ticked?
    ensures var s, e := Replay(start, h[..|h| - 1]), h[|h| - 1];
            Enabled(Rearm(s, e.at, e.armed), e.at) <==> Justified(h)
  {
    var s, e, s' := Replay(start, h[..|h| - 1]), h[|h| - 1], Replay(start, h);
    ReplayTracks(start, h);
    ArmedFromMeaning(h);
    assert s'.armedSince == Rearm(s, e.at, e.armed).armedSince && s'.wasArmed == e.armed;
    assert s'.latest == Rearm(s, e.at, e.armed).latest && s'.latestTime == s.latestTime;
    if Enabled(Rearm(s, e.at, e.armed), e.at) {
      assert ArmedSince(h, ArmedFrom(h)) && h[LastCmd(h)].Cmd?;
    }
    if Justified(h) {
      var a, c :| ArmedSince(h, a) && e.at - h[a].at >= ARM_SETTLE_S && a < c < |h| && h[c].Cmd? &&
        e.at - h[c].at <= CMD_TIMEOUT_S && forall j :: c < j < |h| ==> h[j].Ticked?;
      ArmedFromIs(h, a);
      LastCmdIs(h, c);
      assert e.armed;
    }
  }

  /** The commanded speed is asked for as far as the limits allow, and a non-finite one not at all. */
  function Asked(v: Value, low: real, high: real): real {
    if v.NonFinite? then 0.0 else if v.v < low then low else if v.v > high then high else v.v
  }

  lemma AskedIsTarget(msg: Twist)
    ensures TargetVx(msg) == Asked(msg.x, 0.0, 0.20) && TargetWz(msg) == Asked(msg.wz, -0.20, 0.20)
  {
  }

  /** after is the point nearest to target within step of before. */
  predicate Approaches(before: real, after: real, target: real, step: real) {
    (if before <= target then before <= after <= target else target <= after <= before) &&
    Abs(target - after) == Max(0.0, Abs(target - before) - step)
  }

  lemma ClampApproaches(before: real, target: real, step: real)
    requires step >= 0.0
    ensures Approaches(before, FiniteClamp(Finite(target), before - step, before + step), target, step)
  {
  }

  /** A justified tick brings each output nearer to what the latest Twist asks of it, forward speed from linear x and
      turning from angular z, by at most its rate times the time since the last tick, that time cut at a quarter of a
      second; any other tick outputs zero. */
  lemma TickLaw(start: real, h: seq<Event>)
    requires h != [] && h[|h| - 1].Ticked? && LastTickAt(start, h[..|h| - 1]) <= h[|h| - 1].at
    ensures var s, s' := Replay(start, h[..|h| - 1]), Replay(start, h);
            var elapsed := h[|h| - 1].at - LastTickAt(start, h[..|h| - 1]);
            if Justified(h) then
              var msg, dt := h[LastCmd(h)].msg, if elapsed < 0.25 then elapsed else 0.25;
              Approaches(s.lastVx, s'.lastVx, Asked(msg.x, 0.0, 0.20), 0.10 * dt) &&
              Approaches(s.lastWz, s'.lastWz, Asked(msg.wz, -0.20, 0.20), 0.20 * dt)
            else s'.lastVx == 0.0 && s'.lastWz == 0.0
  {
    hide Justified, Approaches, FiniteClamp, Asked, ArmedFrom, LastCmd, Abs;
    var s, e := Replay(start, h[..|h| - 1]), h[|h| - 1];
    EnabledIff(start, h);
    TickTime(start, h[..|h| - 1]);
    ReplayTracks(start, h);
    var r, dt := Rearm(s, e.at, e.armed), TickDt(s, e.at);
    if Enabled(r, e.at) {
      LatestIs(start, h);
      AskedIsTarget(r.latest.value);
      ClampApproaches(s.lastVx, TargetVx(r.latest.value), MAX_DVX_PER_S * dt);
      ClampApproaches(s.lastWz, TargetWz(r.latest.value), MAX_DWZ_PER_S * dt);
    }
  }

  lemma LatestIs(start: real, h: seq<Event>)
    requires h != [] && h[|h| - 1].Ticked?
    requires var s, e := Replay(start, h[..|h| - 1]), h[|h| - 1]; Enabled(Rearm(s, e.at, e.armed), e.at)
    ensures var s, e := Replay(start, h[..|h| - 1]), h[|h| - 1];
            0 <= LastCmd(h) && Rearm(s, e.at, e.armed).latest == Some(h[LastCmd(h)].msg)
  {
    ReplayTracks(start, h);
    assert Replay(start, h).latest == Rearm(Replay(start, h[..|h| - 1]), h[|h| - 1].at, h[|h| - 1].armed).latest;
  }

  /** A Twist by itself moves nothing. */
  lemma CmdLaw(start: real, h: seq<Event>)
    requires h != [] && h[|h| - 1].Cmd?
    ensures var s, s' := Replay(start, h[..|h| - 1]), Replay(start, h); s'.lastVx == s.lastVx && s'.lastWz == s.lastWz
  {
  }
}
