/** The ROS side of the motion gateway: the command callback and the control tick. */
module Bridge {
  import opened Options
  import opened Reals

  const CMD_TIMEOUT_S := 0.30
  const MAX_VX := 0.20
  const MAX_WZ := 0.20
  const MAX_DVX_PER_S := 0.10
  const MAX_DWZ_PER_S := 0.20
  const FIRST_MOTION_S := 3.0
  const FIRST_MAX_VX := 0.20
  const FIRST_MAX_WZ := 0.20
  const ARM_SETTLE_S := 1.0

  /** A float field of a message: a real number, or an infinity or NaN. */
  datatype Value = Finite(v: real) | NonFinite

  /** linear.x and angular.z of a Twist. */
  datatype Twist = Twist(x: Value, wz: Value)

  function FiniteClamp(value: Value, low: real, high: real): (r: real)
    ensures value.NonFinite? ==> r == 0.0
    ensures value.Finite? && low <= high ==> low <= r <= high
    ensures value.Finite? && low <= value.v <= high ==> r == value.v
  {
    if value.NonFinite? then 0.0 else Max(low, Min(high, value.v))
  }

  datatype Bridge = Bridge(latest: Option<Twist>, latestTime: real, wasArmed: bool, armedSince: real,
                           motionSince: Option<real>, lastVx: real, lastWz: real, lastTick: real)

  function Initial(start: real): Bridge {
    Bridge(None, 0.0, false, 0.0, None, 0.0, 0.0, start)
  }

  function OnCmd(s: Bridge, now: real, msg: Twist): Bridge {
    s.(latest := Some(msg), latestTime := now)
  }

  /** The arm-file transition at the head of a tick. */
  function Rearm(s: Bridge, now: real, armed: bool): Bridge {
    (if armed && !s.wasArmed then s.(armedSince := now, motionSince := None, latest := None) else s).(wasArmed := armed)
  }

  /** Armed for the settle time, with a fresh command. Read after Rearm. */
  predicate Enabled(s: Bridge, now: real) {
    s.wasArmed && now - s.armedSince >= ARM_SETTLE_S && s.latest.Some? && now - s.latestTime <= CMD_TIMEOUT_S
  }

  function TargetVx(msg: Twist): real { FiniteClamp(msg.x, 0.0, MAX_VX) }

  function TargetWz(msg: Twist): real { FiniteClamp(msg.wz, -MAX_WZ, MAX_WZ) }

  predicate Moving(msg: Twist) {
    Abs(TargetVx(msg)) > 0.0001 || Abs(TargetWz(msg)) > 0.0001
  }

  function MotionSince(s: Bridge, now: real): Option<real> {
    if !Enabled(s, now) || !Moving(s.latest.value) then None
    else if s.motionSince.None? then Some(now)
    else s.motionSince
  }

  function TickDt(s: Bridge, now: real): real {
    Max(0.0, Min(0.25, now - s.lastTick))
  }

  function Tick(s: Bridge, now: real, armed: bool): Bridge {
    var dt, r := TickDt(s, now), Rearm(s, now, armed);
    if Enabled(r, now) then
      var dv, dw := MAX_DVX_PER_S * dt, MAX_DWZ_PER_S * dt;
      r.(lastTick := now, motionSince := MotionSince(r, now),
         lastVx := FiniteClamp(Finite(TargetVx(r.latest.value)), s.lastVx - dv, s.lastVx + dv),
         lastWz := FiniteClamp(Finite(TargetWz(r.latest.value)), s.lastWz - dw, s.lastWz + dw))
    else
      r.(lastTick := now, motionSince := None, lastVx := 0.0, lastWz := 0.0)
  }

  /** The node object, mutated field by field. */
  class BridgeNode {
    var latest: Option<Twist>
    var latestTime: real
    var wasArmed: bool
    var armedSince: real
    var motionSince: Option<real>
    var lastVx: real
    var lastWz: real
    var lastTick: real

    function View(): Bridge
      reads this
    {
      Bridge(latest, latestTime, wasArmed, armedSince, motionSince, lastVx, lastWz, lastTick)
    }

    constructor (now: real)
      ensures View() == Initial(now)
    {
      latest, latestTime, wasArmed, armedSince := None, 0.0, false, 0.0;
      motionSince, lastVx, lastWz, lastTick := None, 0.0, 0.0, now;
    }

    method HandleCmd(msg: Twist, now: real)
      modifies this
      ensures View() == OnCmd(old(View()), now, msg)
    {
      latest := Some(msg);
      latestTime := now;
    }

    method HandleTick(now: real, armed: bool) returns (vx: real, wz: real)
      modifies this
      ensures View() == Tick(old(View()), now, armed)
      ensures vx == lastVx && wz == lastWz
    {
      var dt := Max(0.0, Min(0.25, now - lastTick));
      lastTick := now;
      if armed && !wasArmed {
        armedSince := now;
        motionSince := None;
        latest := None;
      }
      wasArmed := armed;
      var recent := latest.Some? && now - latestTime <= CMD_TIMEOUT_S;
      var enabled := armed && now - armedSince >= ARM_SETTLE_S && recent;
      var targetVx, targetWz := 0.0, 0.0;
      if enabled {
        targetVx := FiniteClamp(latest.value.x, 0.0, MAX_VX);
        targetWz := FiniteClamp(latest.value.wz, -MAX_WZ, MAX_WZ);
        var moving := Abs(targetVx) > 0.0001 || Abs(targetWz) > 0.0001;
        if moving && motionSince.None? {
          motionSince := Some(now);
        }
        if !moving {
          motionSince := None;
        }
        if motionSince.Some? && now - motionSince.value < FIRST_MOTION_S {
          targetVx := Min(targetVx, FIRST_MAX_VX);
          targetWz := FiniteClamp(Finite(targetWz), -FIRST_MAX_WZ, FIRST_MAX_WZ);
        }
      } else {
        motionSince := None;
      }
      if enabled {
        var dv, dw := MAX_DVX_PER_S * dt, MAX_DWZ_PER_S * dt;
        vx := FiniteClamp(Finite(targetVx), lastVx - dv, lastVx + dv);
        wz := FiniteClamp(Finite(targetWz), lastWz - dw, lastWz + dw);
      } else {
        vx, wz := 0.0, 0.0;
      }
      lastVx, lastWz := vx, wz;
    }
  }

  // ----- histories -----

  datatype Event = Cmd(at: real, msg: Twist) | Ticked(at: real, armed: bool)

  function Apply(s: Bridge, e: Event): Bridge {
    match e
    case Cmd(at, msg) => OnCmd(s, at, msg)
    case Ticked(at, armed) => Tick(s, at, armed)
  }

  /** The bridge after the callbacks of h, in order. */
  function Replay(start: real, h: seq<Event>): Bridge {
    if h == [] then Initial(start) else Apply(Replay(start, h[..|h| - 1]), h[|h| - 1])
  }

  /** The arming tick of the armed stretch h ends in, or -1. */
  function ArmedFrom(h: seq<Event>): (a: int)
    ensures -1 <= a < |h|
  {
    if h == [] then -1
    else
      var front, e := ArmedFrom(h[..|h| - 1]), h[|h| - 1];
      if e.Cmd? then front
      else if !e.armed then -1
      else if front >= 0 then front
      else |h| - 1
  }

  function LastCmd(h: seq<Event>): (c: int)
    ensures -1 <= c < |h|
    ensures c >= 0 ==> h[c].Cmd?
    ensures forall j :: c < j < |h| ==> h[j].Ticked?
  {
    if h == [] then -1 else if h[|h| - 1].Cmd? then |h| - 1 else LastCmd(h[..|h| - 1])
  }

  /** The arm file was seen at tick a and every tick since, and not at the tick before a. */
  ghost predicate ArmedSince(h: seq<Event>, a: int) {
    0 <= a < |h| && h[a].Ticked? &&
    (forall j :: a <= j < |h| && h[j].Ticked? ==> h[j].armed) &&
    forall b :: 0 <= b < a && h[b].Ticked? && (forall j :: b < j < a ==> h[j].Cmd?) ==> !h[b].armed
  }

  ghost predicate NoTickArmed(h: seq<Event>) {
    forall b :: 0 <= b < |h| && h[b].Ticked? && (forall j :: b < j < |h| ==> h[j].Cmd?) ==> !h[b].armed
  }

  lemma {:induction false} ArmedFromMeaning(h: seq<Event>)
    ensures if ArmedFrom(h) >= 0 then ArmedSince(h, ArmedFrom(h)) else NoTickArmed(h)
  {
    if h != [] {
      var front, e := h[..|h| - 1], h[|h| - 1];
      ArmedFromMeaning(front);
      assert forall j :: 0 <= j < |front| ==> h[j] == front[j];
    }
  }

  /** The fields are the declarative readings of the history. */
  ghost predicate Tracks(start: real, h: seq<Event>, s: Bridge) {
    var a, c := ArmedFrom(h), LastCmd(h);
    (s.wasArmed <==> a >= 0) &&
    (s.wasArmed ==> s.armedSince == h[a].at) &&
    (s.wasArmed ==> (s.latest.Some? <==> c > a)) &&
    (s.wasArmed && s.latest.Some? ==> s.latest.value == h[c].msg && s.latestTime == h[c].at) &&
    0.0 <= s.lastVx <= MAX_VX && -MAX_WZ <= s.lastWz <= MAX_WZ
  }

  lemma ClampBetween(target: real, last: real, d: real, low: real, high: real)
    requires d >= 0.0 && low <= target <= high && low <= last <= high
    ensures low <= FiniteClamp(Finite(target), last - d, last + d) <= high
  {
  }

  lemma {:induction false} ReplayTracks(start: real, h: seq<Event>)
    ensures Tracks(start, h, Replay(start, h))
  {
    if h != [] {
      var front, e := h[..|h| - 1], h[|h| - 1];
      ReplayTracks(start, front);
      var s := Replay(start, front);
      if e.Ticked? {
        var r, dt := Rearm(s, e.at, e.armed), TickDt(s, e.at);
        if Enabled(r, e.at) {
          ClampBetween(TargetVx(r.latest.value), s.lastVx, MAX_DVX_PER_S * dt, 0.0, MAX_VX);
          ClampBetween(TargetWz(r.latest.value), s.lastWz, MAX_DWZ_PER_S * dt, -MAX_WZ, MAX_WZ);
        }
      }
    }
  }

  /** Why a tick at the end of h may move the robot. */
  ghost predicate Justified(h: seq<Event>) {
    h != [] && h[|h| - 1].Ticked? &&
    var now := h[|h| - 1].at;
    exists a, c :: ArmedSince(h, a) && now - h[a].at >= ARM_SETTLE_S &&
      a < c < |h| && h[c].Cmd? && now - h[c].at <= CMD_TIMEOUT_S && forall j :: c < j < |h| ==> h[j].Ticked?
  }

  /** A nonzero command comes only from an armed, settled tick with a fresh post-arming Twist. */
  lemma NonzeroIsJustified(start: real, h: seq<Event>)
    requires h != [] && h[|h| - 1].Ticked?
    requires var s := Replay(start, h); s.lastVx != 0.0 || s.lastWz != 0.0
    ensures Justified(h)
  {
    ReplayTracks(start, h);
    ArmedFromMeaning(h);
    var a, c := ArmedFrom(h), LastCmd(h);
    var s := Replay(start, h);
    assert s.wasArmed && s.latest.Some?;
    assert ArmedSince(h, a) && h[c].Cmd?;
  }

  // ----- the ramp -----

  ghost predicate ClockOk(start: real, h: seq<Event>) {
    (forall i :: 0 <= i < |h| ==> start <= h[i].at) &&
    forall i, j :: 0 <= i < j < |h| ==> h[i].at <= h[j].at
  }

  /** When the tick outputs were last zero in vx (or the start). */
  function VxZeroAt(start: real, h: seq<Event>): real {
    if h == [] then start
    else if h[|h| - 1].Ticked? && Replay(start, h).lastVx == 0.0 then h[|h| - 1].at
    else VxZeroAt(start, h[..|h| - 1])
  }

  function WzZeroAt(start: real, h: seq<Event>): real {
    if h == [] then start
    else if h[|h| - 1].Ticked? && Replay(start, h).lastWz == 0.0 then h[|h| - 1].at
    else WzZeroAt(start, h[..|h| - 1])
  }

  /** One tick moves each output by at most its slew limit, or stops it. */
  lemma SlewBound(s: Bridge, now: real, armed: bool)
    requires 0.0 <= s.lastVx <= MAX_VX && -MAX_WZ <= s.lastWz <= MAX_WZ
    ensures var s', dt := Tick(s, now, armed), TickDt(s, now);
            if Enabled(Rearm(s, now, armed), now)
            then Abs(s'.lastVx - s.lastVx) <= MAX_DVX_PER_S * dt && Abs(s'.lastWz - s.lastWz) <= MAX_DWZ_PER_S * dt
            else s'.lastVx == 0.0 && s'.lastWz == 0.0
  {
    assert TickDt(s, now) >= 0.0;
  }

  /** Speed is bounded by the ramp since the last zero output. */
  lemma {:induction false} RampBound(start: real, h: seq<Event>)
    requires ClockOk(start, h)
    ensures var s := Replay(start, h);
            start <= s.lastTick && (h != [] ==> s.lastTick <= h[|h| - 1].at) &&
            s.lastVx <= MAX_DVX_PER_S * (s.lastTick - VxZeroAt(start, h)) &&
            Abs(s.lastWz) <= MAX_DWZ_PER_S * (s.lastTick - WzZeroAt(start, h))
  {
    if h != [] {
      var front, e := h[..|h| - 1], h[|h| - 1];
      RampBound(start, front);
      ReplayTracks(start, front);
      var s := Replay(start, front);
      if e.Ticked? {
        SlewBound(s, e.at, e.armed);
        assert s.lastTick <= e.at by {
          if front != [] {
            assert h[|front| - 1].at <= h[|h| - 1].at;
          } else {
            assert start <= h[0].at;
          }
        }
        assert TickDt(s, e.at) <= e.at - s.lastTick;
      }
    }
  }

  /** From rest, full forward speed takes at least two seconds. */
  lemma FullSpeedTakesTwoSeconds(start: real, h: seq<Event>)
    requires ClockOk(start, h) && Replay(start, h).lastVx >= MAX_VX
    ensures Replay(start, h).lastTick - VxZeroAt(start, h) >= 2.0
  {
    RampBound(start, h);
  }
}
