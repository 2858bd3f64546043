/** The goal relay: clicks in, navigation goals out, one pending slot, callbacks in any order. */
module GoalRelay {
  import opened Options
  import opened Reals

  const GOAL_DEDUP_S := 5.0
  const GOAL_FRESH_S := 15.0
  const CANCEL_GRACE_S := 5.0
  const SAME_GOAL_TOL := 0.05

  datatype Pose = Pose(x: real, y: real)

  predicate SameGoal(a: Pose, b: Pose) {
    Abs(a.x - b.x) < SAME_GOAL_TOL && Abs(a.y - b.y) < SAME_GOAL_TOL
  }

  /** A click as queued or sent: its arrival number, map pose and source stamp. */
  datatype Click = Click(id: nat, pose: Pose, stamp: real)

  datatype Relay = Relay(
    activeGoal: bool, activePose: Option<Pose>,           // _active_goal, _active_goal_pose
    activeSpin: bool, spinPose: Option<Pose>,             // _active_spin, _active_spin_goal_pose
    pending: Option<Click>,
    lastSentPose: Option<Pose>, lastSentTime: real, cancelIgnoreUntil: real,
    activeStamp: real, lastSucceededStamp: real)

  function Initial(): Relay {
    Relay(false, None, false, None, None, None, 0.0, 0.0, 0.0, -1.0)
  }

  /** What a click leads to. */
  datatype Verdict = Rejected | Queued | SentNow

  predicate Stale(stamp: real, now: real) {
    stamp > 0.0 && now - stamp > GOAL_FRESH_S
  }

  predicate Busy(s: Relay) {
    s.activeGoal || s.activeSpin
  }

  function BusyPose(s: Relay): Option<Pose> {
    if s.activeGoal then s.activePose else s.spinPose
  }

  /** pose is the click in the map frame, or None when the transform lookup fails. */
  function Judge(s: Relay, pose: Option<Pose>, stamp: real, now: real): Verdict {
    if Stale(stamp, now) || pose.None? then Rejected
    else if stamp > 0.0 && stamp == s.lastSucceededStamp then Rejected
    else if s.lastSentPose.Some? && now - s.lastSentTime < GOAL_DEDUP_S && SameGoal(pose.value, s.lastSentPose.value) then Rejected
    else if Busy(s) then
      if BusyPose(s).Some? && SameGoal(pose.value, BusyPose(s).value) then Rejected else Queued
    else SentNow
  }

  function Send(s: Relay, c: Click, now: real): Relay {
    s.(activePose := Some(c.pose), activeStamp := c.stamp, lastSentPose := Some(c.pose), lastSentTime := now,
       cancelIgnoreUntil := now + CANCEL_GRACE_S)
  }

  /** Empty the pending slot and send what was in it. */
  function SendPending(s: Relay, now: real): Relay {
    var free := s.(pending := None);
    if s.pending.None? then free else Send(free, s.pending.value, now)
  }

  function OnGoal(s: Relay, id: nat, pose: Option<Pose>, stamp: real, now: real): Relay {
    match Judge(s, pose, stamp, now)
    case Rejected => s
    case Queued => s.(pending := Some(Click(id, pose.value, stamp)))
    case SentNow => Send(s, Click(id, pose.value, stamp), now)
  }

  function OnCancelDone(s: Relay, now: real): Relay {
    SendPending(s.(activeGoal := false, activePose := None), now)
  }

  function OnSpinCancelDone(s: Relay, now: real): Relay {
    SendPending(s.(activeSpin := false, spinPose := None), now)
  }

  /** Does the override act, or is it a false signal or inside the grace period? */
  predicate Overrides(s: Relay, data: bool, now: real) {
    data && now >= s.cancelIgnoreUntil
  }

  function OnCancelNavigation(s: Relay, data: bool, now: real): Relay {
    if !data then s.(cancelIgnoreUntil := 0.0)
    else if !Overrides(s, data, now) then s
    else
      var g := if s.activeGoal then s.(activeGoal := false, activePose := None) else s;
      (if g.activeSpin then g.(activeSpin := false, spinPose := None) else g).(pending := None)
  }

  function OnGoalResponse(s: Relay, accepted: bool, now: real): Relay {
    if accepted then s.(activeGoal := true, cancelIgnoreUntil := now + CANCEL_GRACE_S) else s
  }

  datatype Outcome = Failed | Succeeded | Finished

  /** spins: the heading check asks for, and finds, a final spin. */
  function OnResult(s: Relay, outcome: Outcome, spins: bool, now: real): Relay {
    var done := s.(activeGoal := false, activePose := None);
    if !outcome.Succeeded? then done
    else
      var won := done.(lastSucceededStamp := s.activeStamp);
      if s.activePose.Some? && spins
      then won.(spinPose := s.activePose, cancelIgnoreUntil := now + CANCEL_GRACE_S)
      else won
  }

  function OnSpinResponse(s: Relay, accepted: bool, stamp: real, now: real): Relay {
    if accepted then s.(activeSpin := true, activeStamp := stamp, cancelIgnoreUntil := now + CANCEL_GRACE_S)
    else s.(spinPose := None)
  }

  function OnSpinResult(s: Relay, outcome: Outcome, now: real): Relay {
    var done := s.(activeSpin := false, spinPose := None);
    if outcome.Failed? then done else SendPending(done, now)
  }

  function OnFeedback(s: Relay, now: real): Relay {
    s.(cancelIgnoreUntil := now + CANCEL_GRACE_S)
  }

  // ----- the node -----

  /** What a callback asks the outside for. */
  datatype Request = Navigate(click: Click) | CancelGoal | CancelSpin | DropGoal | DropSpin | Spin(stamp: real)

  class GoalToNav {
    var activeGoal: bool
    var activePose: Option<Pose>
    var activeSpin: bool
    var spinPose: Option<Pose>
    var pending: Option<Click>
    var lastSentPose: Option<Pose>
    var lastSentTime: real
    var cancelIgnoreUntil: real
    var activeStamp: real
    var lastSucceededStamp: real

    function View(): Relay
      reads this
    {
      Relay(activeGoal, activePose, activeSpin, spinPose, pending, lastSentPose, lastSentTime, cancelIgnoreUntil,
            activeStamp, lastSucceededStamp)
    }

    constructor ()
      ensures View() == Initial()
    {
      activeGoal, activePose, activeSpin, spinPose, pending := false, None, false, None, None;
      lastSentPose, lastSentTime, cancelIgnoreUntil, activeStamp, lastSucceededStamp := None, 0.0, 0.0, 0.0, -1.0;
    }

    method SendGoal(c: Click, now: real) returns (r: Request)
      modifies this
      ensures View() == Send(old(View()), c, now) && r == Navigate(c)
    {
      activePose := Some(c.pose);
      activeStamp := c.stamp;
      lastSentPose := Some(c.pose);
      lastSentTime := now;
      cancelIgnoreUntil := now + CANCEL_GRACE_S;
      r := Navigate(c);
    }

    method TakePending(now: real) returns (r: seq<Request>)
      modifies this
      ensures View() == SendPending(old(View()), now)
      ensures r == if old(pending).Some? then [Navigate(old(pending).value)] else []
    {
      var waiting := pending;
      pending := None;
      r := [];
      if waiting.Some? {
        var sent := SendGoal(waiting.value, now);
        r := [sent];
      }
    }

    method HandleGoal(id: nat, pose: Option<Pose>, stamp: real, now: real) returns (r: seq<Request>)
      modifies this
      ensures View() == OnGoal(old(View()), id, pose, stamp, now)
      ensures r == match Judge(old(View()), pose, stamp, now)
                   case Rejected => []
                   case Queued => [if old(activeGoal) then CancelGoal else CancelSpin]
                   case SentNow => [Navigate(Click(id, pose.value, stamp))]
    {
      r := [];
      if Stale(stamp, now) {
        return;
      }
      if pose.None? {
        return;
      }
      if stamp > 0.0 && stamp == lastSucceededStamp {
        return;
      }
      if lastSentPose.Some? && now - lastSentTime < GOAL_DEDUP_S && SameGoal(pose.value, lastSentPose.value) {
        return;
      }
      if activeGoal || activeSpin {
        var current := if activeGoal then activePose else spinPose;
        if current.Some? && SameGoal(pose.value, current.value) {
          return;
        }
        pending := Some(Click(id, pose.value, stamp));
        if activeGoal {
          return [CancelGoal];
        }
        return [CancelSpin];
      }
      var sent := SendGoal(Click(id, pose.value, stamp), now);
      r := [sent];
    }

    method HandleCancelDone(now: real) returns (r: seq<Request>)
      modifies this
      ensures View() == OnCancelDone(old(View()), now)
      ensures r == if old(pending).Some? then [Navigate(old(pending).value)] else []
    {
      activeGoal, activePose := false, None;
      r := TakePending(now);
    }

    method HandleSpinCancelDone(now: real) returns (r: seq<Request>)
      modifies this
      ensures View() == OnSpinCancelDone(old(View()), now)
      ensures r == if old(pending).Some? then [Navigate(old(pending).value)] else []
    {
      activeSpin, spinPose := false, None;
      r := TakePending(now);
    }

    method HandleCancelNavigation(data: bool, now: real) returns (r: seq<Request>)
      modifies this
      ensures View() == OnCancelNavigation(old(View()), data, now)
      ensures r == if !Overrides(old(View()), data, now) then []
                   else (if old(activeGoal) then [DropGoal] else []) + (if old(activeSpin) then [DropSpin] else [])
    {
      r := [];
      if !data {
        cancelIgnoreUntil := 0.0;
        return;
      }
      if now < cancelIgnoreUntil {
        return;
      }
      pending := None;
      if activeGoal {
        r := [DropGoal];
        activeGoal, activePose := false, None;
      }
      if activeSpin {
        r := r + [DropSpin];
        activeSpin, spinPose := false, None;
      }
    }

    method HandleGoalResponse(accepted: bool, now: real)
      modifies this
      ensures View() == OnGoalResponse(old(View()), accepted, now)
    {
      if accepted {
        activeGoal := true;
        cancelIgnoreUntil := now + CANCEL_GRACE_S;
      }
    }

    method HandleResult(outcome: Outcome, spins: bool, now: real) returns (r: seq<Request>)
      modifies this
      ensures View() == OnResult(old(View()), outcome, spins, now)
      ensures r == if outcome.Succeeded? && old(activePose).Some? && spins then [Spin(old(activeStamp))] else []
    {
      var finishedPose, finishedStamp := activePose, activeStamp;
      activeGoal, activePose := false, None;
      r := [];
      if outcome.Succeeded? {
        lastSucceededStamp := finishedStamp;
        if finishedPose.Some? && spins {
          spinPose := finishedPose;
          cancelIgnoreUntil := now + CANCEL_GRACE_S;
          r := [Spin(finishedStamp)];
        }
      }
    }

    method HandleSpinResponse(accepted: bool, stamp: real, now: real)
      modifies this
      ensures View() == OnSpinResponse(old(View()), accepted, stamp, now)
    {
      if !accepted {
        spinPose := None;
        return;
      }
      activeSpin := true;
      activeStamp := stamp;
      cancelIgnoreUntil := now + CANCEL_GRACE_S;
    }

    method HandleSpinResult(outcome: Outcome, now: real) returns (r: seq<Request>)
      modifies this
      ensures View() == OnSpinResult(old(View()), outcome, now)
      ensures r == if !outcome.Failed? && old(pending).Some? then [Navigate(old(pending).value)] else []
    {
      activeSpin, spinPose := false, None;
      r := [];
      if !outcome.Failed? {
        r := TakePending(now);
      }
    }
  }

  // ----- the relay among its outstanding callbacks -----

  /** Everything the outside may still call back about, and the fate of every click so far. */
  datatype World = World(
    s: Relay,
    cancelDones: nat, spinCancelDones: nat, goalResponses: nat, results: nat, spinResponses: seq<real>, spinResults: nat,
    received: nat, rejected: seq<nat>, sent: seq<nat>, superseded: seq<nat>, cancelled: seq<nat>)

  function Begin(): World {
    World(Initial(), 0, 0, 0, 0, [], 0, 0, [], [], [], [])
  }

  datatype Event =
    | Clicked(pose: Option<Pose>, stamp: real)
    | CancelDone | SpinCancelDone
    | CancelNavigation(data: bool)
    | GoalResponse(accepted: bool)
    | Result(outcome: Outcome, spins: bool)
    | SpinResponse(accepted: bool, index: nat)  // which of the outstanding spin requests is answered
    | SpinResult(outcome: Outcome)
    | Feedback

  predicate CanHappen(w: World, e: Event) {
    match e
    case Clicked(_, _) => true
    case CancelDone => w.cancelDones > 0
    case SpinCancelDone => w.spinCancelDones > 0
    case CancelNavigation(_) => true
    case GoalResponse(_) => w.goalResponses > 0
    case Result(_, _) => w.results > 0
    case SpinResponse(_, index) => index < |w.spinResponses|
    case SpinResult(_) => w.spinResults > 0
    case Feedback => true
  }

  /** The click waiting in the slot. */
  function Waiting(s: Relay): seq<nat> {
    if s.pending.Some? then [s.pending.value.id] else []
  }

  /** The pending click, if any, goes out as a navigation request. */
  function Flush(w: World, s': Relay): World {
    w.(s := s', sent := w.sent + Waiting(w.s), goalResponses := w.goalResponses + |Waiting(w.s)|)
  }

  function OnClick(w: World, pose: Option<Pose>, stamp: real, now: real): World {
    var s' := OnGoal(w.s, w.received, pose, stamp, now);
    var seen := w.(s := s', received := w.received + 1);
    match Judge(w.s, pose, stamp, now)
    case Rejected => seen.(rejected := w.rejected + [w.received])
    case Queued =>
      var over := seen.(superseded := w.superseded + Waiting(w.s));
      if w.s.activeGoal then over.(cancelDones := w.cancelDones + 1) else over.(spinCancelDones := w.spinCancelDones + 1)
    case SentNow => seen.(sent := w.sent + [w.received], goalResponses := w.goalResponses + 1)
  }

  function React(w: World, e: Event, now: real): World
    requires CanHappen(w, e)
  {
    match e
    case Clicked(pose, stamp) => OnClick(w, pose, stamp, now)
    case CancelDone => Flush(w, OnCancelDone(w.s, now)).(cancelDones := w.cancelDones - 1)
    case SpinCancelDone => Flush(w, OnSpinCancelDone(w.s, now)).(spinCancelDones := w.spinCancelDones - 1)
    case CancelNavigation(data) =>
      w.(s := OnCancelNavigation(w.s, data, now),
         cancelled := w.cancelled + if Overrides(w.s, data, now) then Waiting(w.s) else [])
    case GoalResponse(accepted) =>
      w.(s := OnGoalResponse(w.s, accepted, now), goalResponses := w.goalResponses - 1,
         results := w.results + if accepted then 1 else 0)
    case Result(outcome, spins) =>
      w.(s := OnResult(w.s, outcome, spins, now), results := w.results - 1,
         spinResponses := w.spinResponses + if outcome.Succeeded? && w.s.activePose.Some? && spins then [w.s.activeStamp] else [])
    case SpinResponse(accepted, index) =>
      w.(s := OnSpinResponse(w.s, accepted, w.spinResponses[index], now),
         spinResponses := w.spinResponses[..index] + w.spinResponses[index + 1..],
         spinResults := w.spinResults + if accepted then 1 else 0)
    case SpinResult(outcome) =>
      (if outcome.Failed? then w.(s := OnSpinResult(w.s, outcome, now)) else Flush(w, OnSpinResult(w.s, outcome, now)))
        .(spinResults := w.spinResults - 1)
    case Feedback => w.(s := OnFeedback(w.s, now))
  }

  /** Every click's number, once per fate it met. */
  function Fates(w: World): multiset<nat> {
    multiset(w.rejected) + multiset(w.sent) + multiset(w.superseded) + multiset(w.cancelled) + multiset(Waiting(w.s))
  }

  ghost predicate Inv(w: World) {
    (forall id: nat :: Fates(w)[id] == if id < w.received then 1 else 0) &&
    (w.s.pending.Some? ==> w.cancelDones + w.spinCancelDones > 0)
  }

  lemma Appended(s: seq<nat>, t: seq<nat>)
    ensures multiset(s + t) == multiset(s) + multiset(t)
  {
  }

  lemma FlushFates(w: World, s': Relay)
    requires s'.pending.None?
    ensures Fates(Flush(w, s')) == Fates(w)
  {
    Appended(w.sent, Waiting(w.s));
  }

  lemma QueuedFates(w: World, w': World)
    requires w' == w.(s := w'.s, received := w'.received, superseded := w.superseded + Waiting(w.s),
                      cancelDones := w'.cancelDones, spinCancelDones := w'.spinCancelDones)
    requires Waiting(w'.s) == [w.received]
    ensures Fates(w') == Fates(w) + multiset{w.received}
  {
    hide Waiting;
    Appended(w.superseded, Waiting(w.s));
  }

  lemma ClickFates(w: World, pose: Option<Pose>, stamp: real, now: real)
    ensures Fates(OnClick(w, pose, stamp, now)) == Fates(w) + multiset{w.received}
  {
    hide Judge;
    var w' := OnClick(w, pose, stamp, now);
    match Judge(w.s, pose, stamp, now) {
      case Rejected =>
        Appended(w.rejected, [w.received]);
      case Queued =>
        QueuedFates(w, w');
      case SentNow =>
        Appended(w.sent, [w.received]);
    }
  }

  lemma OverrideFates(w: World, data: bool, now: real)
    ensures Fates(React(w, CancelNavigation(data), now)) == Fates(w)
  {
    var w' := React(w, CancelNavigation(data), now);
    if Overrides(w.s, data, now) {
      Appended(w.cancelled, Waiting(w.s));
      assert Waiting(w'.s) == [];
    } else {
      assert w'.cancelled == w.cancelled && Waiting(w'.s) == Waiting(w.s);
    }
    hide Waiting, React, Overrides, OnCancelNavigation;
  }

  /** A callback that leaves the slot and the logs alone. */
  lemma QuietFates(w: World, w': World)
    requires w'.s.pending == w.s.pending && w'.rejected == w.rejected && w'.sent == w.sent
    requires w'.superseded == w.superseded && w'.cancelled == w.cancelled
    ensures Fates(w') == Fates(w)
  {
  }

  /** A click adds its own number to the fates; every other callback only moves numbers between them. */
  lemma ReactFates(w: World, e: Event, now: real)
    requires CanHappen(w, e)
    ensures Fates(React(w, e, now)) == Fates(w) + if e.Clicked? then multiset{w.received} else multiset{}
  {
    hide Judge, Fates, Waiting, OnGoal;
    match e {
      case Clicked(pose, stamp) => ClickFates(w, pose, stamp, now);
      case CancelDone =>
        FlushFates(w, OnCancelDone(w.s, now));
        QuietFates(Flush(w, OnCancelDone(w.s, now)), React(w, e, now));
      case SpinCancelDone =>
        FlushFates(w, OnSpinCancelDone(w.s, now));
        QuietFates(Flush(w, OnSpinCancelDone(w.s, now)), React(w, e, now));
      case CancelNavigation(data) => OverrideFates(w, data, now);
      case SpinResult(outcome) =>
        if outcome.Failed? {
          QuietFates(w, React(w, e, now));
        } else {
          FlushFates(w, OnSpinResult(w.s, outcome, now));
          QuietFates(Flush(w, OnSpinResult(w.s, outcome, now)), React(w, e, now));
        }
      case _ => QuietFates(w, React(w, e, now));
    }
  }

  lemma ReactPending(w: World, e: Event, now: real)
    requires CanHappen(w, e) && (w.s.pending.Some? ==> w.cancelDones + w.spinCancelDones > 0)
    ensures var w' := React(w, e, now);
            (w'.s.pending.Some? ==> w'.cancelDones + w'.spinCancelDones > 0) &&
            w'.received == w.received + if e.Clicked? then 1 else 0
  {
    hide Judge;
    hide Waiting;
  }

  lemma ReactKeepsInv(w: World, e: Event, now: real)
    requires Inv(w) && CanHappen(w, e)
    ensures Inv(React(w, e, now))
  {
    hide React;
    hide Fates;
    ReactFates(w, e, now);
    ReactPending(w, e, now);
  }

  ghost predicate IsRun(w: World, es: seq<(Event, real)>)
    decreases |es|
  {
    es == [] || (CanHappen(w, es[0].0) && IsRun(React(w, es[0].0, es[0].1), es[1..]))
  }

  ghost function After(w: World, es: seq<(Event, real)>): World
    requires IsRun(w, es)
    decreases |es|
  {
    if es == [] then w else After(React(w, es[0].0, es[0].1), es[1..])
  }

  lemma {:induction false} RunKeepsInv(w: World, es: seq<(Event, real)>)
    requires Inv(w) && IsRun(w, es)
    ensures Inv(After(w, es))
    decreases |es|
  {
    if es != [] {
      ReactKeepsInv(w, es[0].0, es[0].1);
      RunKeepsInv(React(w, es[0].0, es[0].1), es[1..]);
    }
  }

  /** Over every callback order each click has exactly one fate, and a waiting click always has an outstanding
      cancel-done callback. */
  lemma EveryClickAccountedFor(es: seq<(Event, real)>)
    requires IsRun(Begin(), es)
    ensures var w := After(Begin(), es);
            w.received == |w.rejected| + |w.sent| + |w.superseded| + |w.cancelled| + |Waiting(w.s)| &&
            (forall id: nat :: id < w.received ==> Fates(w)[id] == 1) &&
            (forall i, j :: 0 <= i < j < |w.sent| ==> w.sent[i] != w.sent[j]) &&
            (w.s.pending.Some? ==> w.cancelDones + w.spinCancelDones > 0)
  {
    RunKeepsInv(Begin(), es);
    var w := After(Begin(), es);
    CountTo(Fates(w), w.received);
    forall i, j | 0 <= i < j < |w.sent| ensures w.sent[i] != w.sent[j] {
      TwiceCounted(w.sent, i, j);
      assert multiset(w.sent)[w.sent[i]] <= Fates(w)[w.sent[i]] <= 1;
    }
  }

  lemma TwiceCounted(s: seq<nat>, i: nat, j: nat)
    requires i < j < |s|
    ensures s[i] == s[j] ==> multiset(s)[s[i]] >= 2
  {
    assert s == s[..j] + s[j..];
    assert s[..j][i] == s[i] && s[j..][0] == s[j];
  }

  /** A multiset holding each number below n once and nothing else has n elements. */
  lemma {:induction false} CountTo(m: multiset<nat>, n: nat)
    requires forall id: nat :: m[id] == if id < n then 1 else 0
    ensures |m| == n
  {
    if n == 0 {
      assert m == multiset{};
    } else {
      var top: nat := n - 1;
      var rest := m - multiset{top};
      CountTo(rest, n - 1);
      assert m == rest + multiset{top};
    }
  }

  /** No click is stranded: whichever outstanding cancel-done arrives next sends the waiting click. */
  lemma CancelDoneSends(w: World, e: Event, now: real)
    requires w.s.pending.Some? && CanHappen(w, e) && (e.CancelDone? || e.SpinCancelDone?)
    ensures var w' := React(w, e, now);
            w'.s.pending.None? && w'.sent == w.sent + [w.s.pending.value.id] &&
            w'.s.activePose == Some(w.s.pending.value.pose)
  {
  }

  // ----- when at most one goal is out -----

  /** The callback sends a navigation request: a click let through, or one that empties an occupied slot. */
  predicate Sends(w: World, e: Event, now: real) {
    match e
    case Clicked(pose, stamp) => Judge(w.s, pose, stamp, now).SentNow?
    case CancelDone => w.s.pending.Some?
    case SpinCancelDone => w.s.pending.Some?
    case SpinResult(outcome) => !outcome.Failed? && w.s.pending.Some?
    case _ => false
  }

  /** Navigation requests the server has not answered, and goals it accepted but has not finished. */
  function Out(w: World): nat {
    w.goalResponses + w.results
  }

  function One(b: bool): nat { if b then 1 else 0 }

  /** Requests grow by one exactly when a callback sends; a response settles one, and acceptance turns it into a
      running goal that only its result ends. */
  lemma StepCounts(w: World, e: Event, now: real)
    requires CanHappen(w, e)
    ensures var w' := React(w, e, now);
            w'.goalResponses + One(e.GoalResponse?) == w.goalResponses + One(Sends(w, e, now)) &&
            w'.results + One(e.Result?) == w.results + One(e.GoalResponse? && e.accepted)
    ensures Sends(w, e, now) ==> !e.GoalResponse? && !e.Result?
  {
    hide Judge, OnGoal, OnResult, OnSpinResult, OnSpinResponse, OnCancelDone, OnSpinCancelDone, OnCancelNavigation;
  }

  /** Every state of the run has at most one unanswered request. */
  ghost predicate OneUnanswered(w: World, es: seq<(Event, real)>)
    requires IsRun(w, es)
    decreases |es|
  {
    w.goalResponses <= 1 && (es != [] ==> OneUnanswered(React(w, es[0].0, es[0].1), es[1..]))
  }

  /** Every sending callback of the run finds no unanswered request. */
  ghost predicate SendsWhenAnswered(w: World, es: seq<(Event, real)>)
    requires IsRun(w, es)
    decreases |es|
  {
    es != [] ==>
      (Sends(w, es[0].0, es[0].1) ==> w.goalResponses == 0) &&
      SendsWhenAnswered(React(w, es[0].0, es[0].1), es[1..])
  }

  /** Every state of the run has at most one goal out, unanswered or running. */
  ghost predicate OneOut(w: World, es: seq<(Event, real)>)
    requires IsRun(w, es)
    decreases |es|
  {
    Out(w) <= 1 && (es != [] ==> OneOut(React(w, es[0].0, es[0].1), es[1..]))
  }

  /** Every sending callback of the run finds no goal out. */
  ghost predicate SendsWhenClear(w: World, es: seq<(Event, real)>)
    requires IsRun(w, es)
    decreases |es|
  {
    es != [] ==>
      (Sends(w, es[0].0, es[0].1) ==> Out(w) == 0) && SendsWhenClear(React(w, es[0].0, es[0].1), es[1..])
  }

  lemma {:induction false} UnansweredIff(w: World, es: seq<(Event, real)>)
    requires IsRun(w, es) && w.goalResponses <= 1
    ensures OneUnanswered(w, es) <==> SendsWhenAnswered(w, es)
    decreases |es|
  {
    hide React, Sends;
    if es != [] {
      var w' := React(w, es[0].0, es[0].1);
      StepCounts(w, es[0].0, es[0].1);
      if w'.goalResponses <= 1 {
        UnansweredIff(w', es[1..]);
      } else {
        assert !OneUnanswered(w', es[1..]);
      }
    }
  }

  lemma {:induction false} OutIff(w: World, es: seq<(Event, real)>)
    requires IsRun(w, es) && Out(w) <= 1
    ensures OneOut(w, es) <==> SendsWhenClear(w, es)
    decreases |es|
  {
    hide React, Sends;
    if es != [] {
      var w' := React(w, es[0].0, es[0].1);
      StepCounts(w, es[0].0, es[0].1);
      if Out(w') <= 1 {
        OutIff(w', es[1..]);
      } else {
        assert !OneOut(w', es[1..]);
      }
    }
  }

  /** Exactly when the relay has a single goal, over every run: no two requests unanswered at once if and only if
      each is sent when none is unanswered, and no two goals out at once if and only if each is sent when none is out. */
  lemma SingleGoalIff(es: seq<(Event, real)>)
    requires IsRun(Begin(), es)
    ensures OneUnanswered(Begin(), es) <==> SendsWhenAnswered(Begin(), es)
    ensures OneOut(Begin(), es) <==> SendsWhenClear(Begin(), es)
  {
    UnansweredIff(Begin(), es);
    OutIff(Begin(), es);
  }

  /** What the guard of a click leaves open: a click that is not rejected is sent exactly when no accepted handle
      is held, whatever is still unanswered. */
  lemma ClickSendsIff(w: World, pose: Option<Pose>, stamp: real, now: real)
    requires !Judge(w.s, pose, stamp, now).Rejected?
    ensures Sends(w, Clicked(pose, stamp), now) <==> !Busy(w.s)
    ensures OnClick(w, pose, stamp, now).goalResponses == w.goalResponses + One(!Busy(w.s))
  {
  }

  /** Every click of the run is made while no goal is out and no click is waiting. */
  ghost predicate PatientClicks(w: World, es: seq<(Event, real)>)
    requires IsRun(w, es)
    decreases |es|
  {
    es != [] ==>
      (es[0].0.Clicked? ==> Out(w) == 0 && w.s.pending.None?) && PatientClicks(React(w, es[0].0, es[0].1), es[1..])
  }

  lemma PatientStep(w: World, e: Event, now: real)
    requires CanHappen(w, e) && Out(w) <= 1 && (w.s.pending.Some? ==> Out(w) == 0)
    requires e.Clicked? ==> Out(w) == 0 && w.s.pending.None?
    ensures var w' := React(w, e, now); Out(w') <= 1 && (w'.s.pending.Some? ==> Out(w') == 0)
  {
    hide Judge, Waiting, Sends, React;
    StepCounts(w, e, now);
    SendEmpties(w, e, now);
  }

  /** A sending callback of a patient run leaves the slot empty; without one the slot fills only by a click. */
  lemma SendEmpties(w: World, e: Event, now: real)
    requires CanHappen(w, e)
    ensures Sends(w, e, now) && (e.Clicked? ==> w.s.pending.None?) ==> React(w, e, now).s.pending.None?
    ensures Sends(w, e, now) && !e.Clicked? ==> w.s.pending.Some?
    ensures React(w, e, now).s.pending.Some? && !e.Clicked? ==> w.s.pending.Some?
  {
    hide Judge, Waiting;
  }

  /** Clicking only while no goal is out and no click is waiting keeps the single goal, whatever the callbacks do. */
  lemma {:induction false} PatienceKeepsOne(w: World, es: seq<(Event, real)>)
    requires IsRun(w, es) && PatientClicks(w, es) && Out(w) <= 1 && (w.s.pending.Some? ==> Out(w) == 0)
    ensures OneOut(w, es)
    decreases |es|
  {
    hide React;
    if es != [] {
      PatientStep(w, es[0].0, es[0].1);
      PatienceKeepsOne(React(w, es[0].0, es[0].1), es[1..]);
    }
  }

  // ----- the ways it fails -----

  lemma {:induction false} Extend(w: World, es: seq<(Event, real)>, e: (Event, real))
    requires IsRun(w, es) && CanHappen(After(w, es), e.0)
    ensures IsRun(w, es + [e]) && After(w, es + [e]) == React(After(w, es), e.0, e.1)
    ensures SendsWhenAnswered(w, es) && (Sends(After(w, es), e.0, e.1) ==> After(w, es).goalResponses == 0) ==>
      SendsWhenAnswered(w, es + [e])
    decreases |es|
  {
    hide React, Sends;
    if es == [] {
      assert [e][1..] == [] && es + [e] == [e];
    } else {
      Extend(React(w, es[0].0, es[0].1), es[1..], e);
      assert (es + [e])[1..] == es[1..] + [e];
    }
  }

  function ClickAt(x: real): Event { Clicked(Some(Pose(x, 0.0)), 0.0) }

  /** Two clicks before the first response: two unanswered requests. */
  lemma TwoUnanswered() returns (es: seq<(Event, real)>)
    ensures IsRun(Begin(), es) && After(Begin(), es).goalResponses == 2 && After(Begin(), es).results == 0
  {
    hide IsRun, After, SendsWhenAnswered;
    Nothing(Begin());
    es := [];
    Extend(Begin(), es, (ClickAt(0.0), 1.0));
    es := es + [(ClickAt(0.0), 1.0)];
    Extend(Begin(), es, (ClickAt(1.0), 2.0));
    es := es + [(ClickAt(1.0), 2.0)];
  }

  lemma Nothing(w: World)
    ensures IsRun(w, []) && After(w, []) == w && SendsWhenAnswered(w, [])
  {
  }

  /** Both accepted: two goals running, and the relay holds only the second handle. */
  lemma TwoRunning() returns (es: seq<(Event, real)>)
    ensures IsRun(Begin(), es) && After(Begin(), es).results == 2 && After(Begin(), es).s.activeGoal
  {
    hide IsRun, After, SendsWhenAnswered;
    es := TwoUnanswered();
    Extend(Begin(), es, (GoalResponse(true), 3.0));
    es := es + [(GoalResponse(true), 3.0)];
    Extend(Begin(), es, (GoalResponse(true), 4.0));
    es := es + [(GoalResponse(true), 4.0)];
  }

  // The worlds of a goal accepted, a second click queued behind its cancel, and the first goal's result.

  function Relay1(): Relay {
    Relay(false, Some(Pose(0.0, 0.0)), false, None, None, Some(Pose(0.0, 0.0)), 1.0, 6.0, 0.0, -1.0)
  }

  function World1(): World {
    Begin().(s := Relay1(), received := 1, sent := [0], goalResponses := 1)
  }

  function World2(): World {
    World1().(s := Relay1().(activeGoal := true, cancelIgnoreUntil := 7.0), goalResponses := 0, results := 1)
  }

  function World3(): World {
    World2().(s := World2().s.(pending := Some(Click(1, Pose(1.0, 0.0), 0.0))), received := 2, cancelDones := 1)
  }

  function World4(): World {
    World3().(s := World3().s.(activeGoal := false, activePose := None), results := 0)
  }

  lemma ReachWorld1()
    ensures React(Begin(), ClickAt(0.0), 1.0) == World1()
  {
    assert Judge(Initial(), Some(Pose(0.0, 0.0)), 0.0, 1.0) == SentNow;
    assert [] + [0] == [0];
  }

  lemma ReachWorld2()
    ensures React(World1(), GoalResponse(true), 2.0) == World2()
  {
  }

  lemma ReachWorld3()
    ensures React(World2(), ClickAt(1.0), 3.0) == World3() && !Sends(World2(), ClickAt(1.0), 3.0)
  {
    assert Judge(World2().s, Some(Pose(1.0, 0.0)), 0.0, 3.0) == Queued;
  }

  lemma ReachWorld4()
    ensures React(World3(), Result(Finished, false), 4.0) == World4()
  {
  }

  lemma QueuedThenFinished() returns (es: seq<(Event, real)>)
    ensures IsRun(Begin(), es) && SendsWhenAnswered(Begin(), es) && After(Begin(), es) == World4()
  {
    hide IsRun, After, SendsWhenAnswered, React, World1, World2, World3, World4;
    hide Judge;
    Nothing(Begin());
    es := [];
    ReachWorld1();
    Extend(Begin(), es, (ClickAt(0.0), 1.0));
    es := es + [(ClickAt(0.0), 1.0)];
    CanReach();
    ReachWorld2();
    Extend(Begin(), es, (GoalResponse(true), 2.0));
    es := es + [(GoalResponse(true), 2.0)];
    ReachWorld3();
    Extend(Begin(), es, (ClickAt(1.0), 3.0));
    es := es + [(ClickAt(1.0), 3.0)];
    ReachWorld4();
    Extend(Begin(), es, (Result(Finished, false), 4.0));
    es := es + [(Result(Finished, false), 4.0)];
  }

  lemma CanReach()
    ensures CanHappen(World1(), GoalResponse(true)) && CanHappen(World3(), Result(Finished, false))
  {
  }

  function World5(): World {
    World4().(s := World5Relay(), received := 3, sent := [0, 2], goalResponses := 1)
  }

  function World5Relay(): Relay {
    Relay(false, Some(Pose(2.0, 0.0)), false, None, Some(Click(1, Pose(1.0, 0.0), 0.0)), Some(Pose(2.0, 0.0)), 5.0, 10.0,
          0.0, -1.0)
  }

  lemma ReachWorld5()
    ensures React(World4(), ClickAt(2.0), 5.0) == World5()
    ensures World4().goalResponses == 0 && CanHappen(World5(), CancelDone)
  {
    assert Judge(World4().s, Some(Pose(2.0, 0.0)), 0.0, 5.0) == SentNow;
    assert [0] + [2] == [0, 2];
  }

  lemma FlushWorld5()
    requires CanHappen(World5(), CancelDone)
    ensures React(World5(), CancelDone, 6.0).goalResponses == 2
  {
  }

  /** The other route: a click is sent after that result, then the late cancel-done sends the queued one. Every
      click of the run finds nothing unanswered. */
  lemma LateCancelDone() returns (es: seq<(Event, real)>, front: seq<(Event, real)>)
    ensures es == front + [(CancelDone, 6.0)] && IsRun(Begin(), es) && IsRun(Begin(), front)
    ensures SendsWhenAnswered(Begin(), front) && After(Begin(), es).goalResponses == 2
  {
    hide IsRun, After, SendsWhenAnswered, React, World4, World5, Judge;
    front := QueuedThenFinished();
    ReachWorld5();
    Extend(Begin(), front, (ClickAt(2.0), 5.0));
    front := front + [(ClickAt(2.0), 5.0)];
    FlushWorld5();
    Extend(Begin(), front, (CancelDone, 6.0));
    es := front + [(CancelDone, 6.0)];
  }
}
