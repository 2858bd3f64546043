/** Which clicks the relay rejects and which overrides it ignores, told by what it sent, what succeeded and when. */
module RelayLaws {
  import opened Options
  import opened GoalRelay

  /** The clicks sent and when, the stamps of what was sent or spun, the stamps that succeeded, and the start of the
      grace period, if one was started since the last false override. */
  datatype Log = Log(sends: seq<(Click, real)>, stamps: seq<real>, won: seq<real>, grace: Option<real>)

  /** The click a sending callback sends. */
  function Sending(w: World, e: Event, now: real): Click
    requires CanHappen(w, e) && Sends(w, e, now)
  {
    if e.Clicked? then Click(w.received, e.pose.value, e.stamp) else w.s.pending.value
  }

  function Last(stamps: seq<real>, none: real): real {
    if stamps == [] then none else stamps[|stamps| - 1]
  }

  /** Sending, an acceptance, feedback and asking for a spin start the grace period. */
  predicate StartsGrace(w: World, e: Event, now: real) {
    Sends(w, e, now) ||
    match e
    case GoalResponse(accepted) => accepted
    case SpinResponse(accepted, _) => accepted
    case Feedback => true
    case Result(outcome, spins) => outcome.Succeeded? && w.s.activePose.Some? && spins
    case _ => false
  }

  function Note(w: World, e: Event, now: real, l: Log): Log
    requires CanHappen(w, e)
  {
    Log(l.sends + if Sends(w, e, now) then [(Sending(w, e, now), now)] else [],
        l.stamps + (if Sends(w, e, now) then [Sending(w, e, now).stamp] else []) +
                   (if e.SpinResponse? && e.accepted then [w.spinResponses[e.index]] else []),
        l.won + (if e.Result? && e.outcome.Succeeded? then [Last(l.stamps, 0.0)] else []),
        if StartsGrace(w, e, now) then Some(now) else if e.CancelNavigation? && !e.data then None else l.grace)
  }

  ghost function LogAfter(w: World, es: seq<(Event, real)>, l: Log): Log
    requires IsRun(w, es)
    decreases |es|
  {
    if es == [] then l else LogAfter(React(w, es[0].0, es[0].1), es[1..], Note(w, es[0].0, es[0].1, l))
  }

  const NOTHING := Log([], [], [], None)

  /** The relay's fields are the readings of the log. */
  ghost predicate Remembers(s: Relay, l: Log) {
    (if l.sends == [] then s.lastSentPose.None? && s.lastSentTime == 0.0
     else var (c, at) := l.sends[|l.sends| - 1]; s.lastSentPose == Some(c.pose) && s.lastSentTime == at) &&
    s.activeStamp == Last(l.stamps, 0.0) && s.lastSucceededStamp == Last(l.won, -1.0) &&
    s.cancelIgnoreUntil == if l.grace.Some? then l.grace.value + 5.0 else 0.0
  }

  lemma StepRemembers(w: World, e: Event, now: real, l: Log)
    requires CanHappen(w, e) && Remembers(w.s, l)
    ensures Remembers(React(w, e, now).s, Note(w, e, now, l))
  {
    hide Judge, Waiting;
  }

  lemma {:induction false} RunRemembers(w: World, es: seq<(Event, real)>, l: Log)
    requires IsRun(w, es) && Remembers(w.s, l)
    ensures Remembers(After(w, es).s, LogAfter(w, es, l))
    decreases |es|
  {
    hide React, Note, Remembers;
    if es != [] {
      StepRemembers(w, es[0].0, es[0].1, l);
      RunRemembers(React(w, es[0].0, es[0].1), es[1..], Note(w, es[0].0, es[0].1, l));
    }
  }

  /** Less than five centimetres apart on both axes. */
  predicate Close(a: Pose, b: Pose) {
    -0.05 < a.x - b.x < 0.05 && -0.05 < a.y - b.y < 0.05
  }

  /** The pose the relay holds a handle for. */
  function Holding(s: Relay): Option<Pose> {
    if s.activeGoal then s.activePose else if s.activeSpin then s.spinPose else None
  }

  /** Over every run: a click is rejected exactly when its stamp is set and over fifteen seconds old, or it has no map
      pose, or its stamp is set and was the last to succeed, or the last click sent was close and under five seconds
      ago, or a close goal or spin is held. A click not rejected waits exactly when a handle is held. */
  lemma RejectedIff(es: seq<(Event, real)>, pose: Option<Pose>, stamp: real, now: real)
    requires IsRun(Begin(), es)
    ensures var w, l := After(Begin(), es), LogAfter(Begin(), es, NOTHING);
            var w' := OnClick(w, pose, stamp, now);
            var n := |l.sends|;
            if (stamp > 0.0 && now > stamp + 15.0) || pose.None? ||
               (stamp > 0.0 && l.won != [] && stamp == l.won[|l.won| - 1]) ||
               (n > 0 && now < l.sends[n - 1].1 + 5.0 && Close(pose.value, l.sends[n - 1].0.pose)) ||
               (Holding(w.s).Some? && Close(pose.value, Holding(w.s).value))
            then w'.rejected == w.rejected + [w.received] && w'.s == w.s
            else if w.s.activeGoal || w.s.activeSpin
            then w'.s == w.s.(pending := Some(Click(w.received, pose.value, stamp))) && w'.sent == w.sent
            else w'.sent == w.sent + [w.received] && w'.goalResponses == w.goalResponses + 1
  {
    hide IsRun, After, LogAfter;
    RunRemembers(Begin(), es, NOTHING);
    RejectedBy(After(Begin(), es), LogAfter(Begin(), es, NOTHING), pose, stamp, now);
  }

  lemma RejectedBy(w: World, l: Log, pose: Option<Pose>, stamp: real, now: real)
    requires Remembers(w.s, l)
    ensures var w' := OnClick(w, pose, stamp, now);
            var n := |l.sends|;
            if (stamp > 0.0 && now > stamp + 15.0) || pose.None? ||
               (stamp > 0.0 && l.won != [] && stamp == l.won[|l.won| - 1]) ||
               (n > 0 && now < l.sends[n - 1].1 + 5.0 && Close(pose.value, l.sends[n - 1].0.pose)) ||
               (Holding(w.s).Some? && Close(pose.value, Holding(w.s).value))
            then w'.rejected == w.rejected + [w.received] && w'.s == w.s
            else if w.s.activeGoal || w.s.activeSpin
            then w'.s == w.s.(pending := Some(Click(w.received, pose.value, stamp))) && w'.sent == w.sent
            else w'.sent == w.sent + [w.received] && w'.goalResponses == w.goalResponses + 1
  {
    hide Waiting;
  }

  /** Over every run: an override drops the goal, the spin and the waiting click exactly when it is true and no grace
      period started in the last five seconds; a false one ends the grace period. */
  lemma OverrideIff(es: seq<(Event, real)>, now: real)
    requires IsRun(Begin(), es) && now >= 0.0
    ensures var w, l := After(Begin(), es), LogAfter(Begin(), es, NOTHING);
            var s' := React(w, CancelNavigation(true), now).s;
            if l.grace.Some? && now < l.grace.value + 5.0 then s' == w.s
            else !s'.activeGoal && !s'.activeSpin && s'.pending.None? &&
                 (w.s.activeGoal ==> s'.activePose.None?) && (w.s.activeSpin ==> s'.spinPose.None?)
    ensures var w := After(Begin(), es);
            React(w, CancelNavigation(false), now).s == w.s.(cancelIgnoreUntil := 0.0)
  {
    hide IsRun, After, LogAfter;
    RunRemembers(Begin(), es, NOTHING);
    OverrideBy(After(Begin(), es), LogAfter(Begin(), es, NOTHING), now);
  }

  lemma OverrideBy(w: World, l: Log, now: real)
    requires Remembers(w.s, l) && now >= 0.0
    ensures var s' := React(w, CancelNavigation(true), now).s;
            if l.grace.Some? && now < l.grace.value + 5.0 then s' == w.s
            else !s'.activeGoal && !s'.activeSpin && s'.pending.None? &&
                 (w.s.activeGoal ==> s'.activePose.None?) && (w.s.activeSpin ==> s'.spinPose.None?)
    ensures React(w, CancelNavigation(false), now).s == w.s.(cancelIgnoreUntil := 0.0)
  {
    hide Waiting;
  }

  /** Which handle is held: an acceptance takes one, a result, a failed request and a cancel-done let it go. */
  lemma HandleLaw(w: World, e: Event, now: real)
    requires CanHappen(w, e) && !e.CancelNavigation?
    ensures var s, s' := w.s, React(w, e, now).s;
            (s'.activeGoal <==> (e.GoalResponse? && e.accepted) || (s.activeGoal && !e.CancelDone? && !e.Result?)) &&
            (s'.activeSpin <==>
              (e.SpinResponse? && e.accepted) || (s.activeSpin && !e.SpinCancelDone? && !e.SpinResult?)) &&
            (Sends(w, e, now) ==> s'.activePose == Some(Sending(w, e, now).pose)) &&
            (e.Result? && e.outcome.Succeeded? && e.spins && s.activePose.Some? ==>
              s'.spinPose == s.activePose && React(w, e, now).spinResponses == w.spinResponses + [s.activeStamp])
  {
    hide Judge, Waiting;
  }
}
