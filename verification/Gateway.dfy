/** The tick process and the SDK worker around one bounded queue, interleaved at single gets and puts. */
module Gateway {
  import opened Bridge
  import opened Options

  const MAXSIZE := 2

  /** A queued command: its pair, the index of its tick in the history, and its emission number. */
  datatype Item = Item(vx: real, wz: real, tick: int, no: nat)

  datatype Producer = Idle | Draining(item: Item, last: bool) | Putting(item: Item, last: bool) | Closed

  /** Testing the stop event, blocked in get, emptying the queue, about to call SetVelocity, or done. */
  datatype Worker = Testing | Blocked | Collecting(hand: Item) | Holding(hand: Item) | TimedOut | Stopped

  /** One SetVelocity call; source is the item it came from, if any. */
  datatype Sent = Sent(vx: real, vy: real, wz: real, source: Option<Item>)

  /** A multiprocessing queue is a buffer in the producing process, emptied by a feeder thread, and a pipe. The last
      three fields log what was fed to the pipe, drained from it by the producer, and taken from it by the worker. */
  datatype Sys = Sys(start: real, history: seq<Event>, producer: Producer, buffer: seq<Item>, pipe: seq<Item>,
                     worker: Worker, emitted: seq<Item>, sent: seq<Sent>, refused: nat, stop: bool,
                     fed: seq<Item>, drained: seq<Item>, taken: seq<Item>)

  datatype Action =
    | Receive(at: real, msg: Twist)     // on_cmd
    | RunTick(at: real, armed: bool)    // tick, up to its call of _put_latest
    | Shutdown                          // the final zero of main
    | DrainOne | DrainEnd | Put         // _put_latest: get_nowait, queue.Empty, put_nowait
    | Feed                              // the feeder thread moves one item to the pipe
    | EnterGet                          // the worker finds the stop event clear
    | GetFirst | GetTimeout             // its blocking get
    | CollectOne | CollectEnd           // its get_nowait loop
    | Send(expired: bool)               // the watchdog test and SetVelocity
    | SendZero | Quit                   // a timed-out round, and the stop event
    | Fail                              // an exception: the worker's finally clause

  function Begin(start: real): Sys {
    Sys(start, [], Idle, [], [], Testing, [], [], 0, false, [], [], [])
  }

  /** A blocked get holds the read lock, so the producer's get_nowait reports empty whatever the pipe holds; a
      draining producer may do the same to the worker. */
  predicate CanDo(s: Sys, a: Action) {
    match a
    case Receive(_, _) => s.producer.Idle?
    case RunTick(_, _) => s.producer.Idle?
    case Shutdown => s.producer.Idle?
    case DrainOne => s.producer.Draining? && s.pipe != [] && !s.worker.Blocked?
    case DrainEnd => s.producer.Draining? && (s.pipe == [] || s.worker.Blocked?)
    case Put => s.producer.Putting?
    case Feed => s.buffer != []
    case EnterGet => s.worker.Testing? && !s.stop
    case GetFirst => s.worker.Blocked? && s.pipe != []
    case GetTimeout => s.worker.Blocked? && s.pipe == []
    case CollectOne => s.worker.Collecting? && s.pipe != []
    case CollectEnd => s.worker.Collecting? && (s.pipe == [] || s.producer.Draining?)
    case Send(_) => s.worker.Holding?
    case SendZero => s.worker.TimedOut?
    case Quit => s.worker.Testing? && s.stop
    case Fail => !s.worker.Stopped?
  }

  /** What goes on without the producer's own thread: the worker, and the feeder. */
  predicate IsSilent(a: Action) {
    !a.Receive? && !a.RunTick? && !a.Shutdown? && !a.DrainOne? && !a.DrainEnd? && !a.Put?
  }

  const ZERO := Sent(0.0, 0.0, 0.0, None)

  /** Put but not yet taken out. */
  function Unread(s: Sys): seq<Item> {
    s.pipe + s.buffer
  }

  function Do(s: Sys, a: Action): Sys
    requires CanDo(s, a)
  {
    match a
    case Receive(at, msg) => s.(history := s.history + [Cmd(at, msg)])
    case RunTick(at, armed) =>
      var h := s.history + [Ticked(at, armed)];
      var b := Replay(s.start, h);
      s.(history := h, producer := Draining(Item(b.lastVx, b.lastWz, |h| - 1, |s.emitted|), false))
    case Shutdown => s.(producer := Draining(Item(0.0, 0.0, -1, |s.emitted|), true))
    case DrainOne => s.(pipe := s.pipe[1..], drained := s.drained + [s.pipe[0]])
    case DrainEnd => s.(producer := Putting(s.producer.item, s.producer.last))
    case Put =>
      var done := if s.producer.last then Closed else Idle;
      var s' := s.(producer := done, emitted := s.emitted + [s.producer.item], stop := s.stop || s.producer.last);
      if |Unread(s)| < MAXSIZE then s'.(buffer := s.buffer + [s.producer.item]) else s'.(refused := s.refused + 1)
    case Feed => s.(pipe := s.pipe + [s.buffer[0]], buffer := s.buffer[1..], fed := s.fed + [s.buffer[0]])
    case EnterGet => s.(worker := Blocked)
    case GetFirst => s.(worker := Collecting(s.pipe[0]), pipe := s.pipe[1..], taken := s.taken + [s.pipe[0]])
    case GetTimeout => s.(worker := TimedOut)
    case CollectOne => s.(worker := Collecting(s.pipe[0]), pipe := s.pipe[1..], taken := s.taken + [s.pipe[0]])
    case CollectEnd => s.(worker := Holding(s.worker.hand))
    case Send(expired) =>
      var hand := s.worker.hand;
      s.(worker := Testing,
         sent := s.sent + [if expired then ZERO else Sent(hand.vx, 0.0, hand.wz, Some(hand))])
    case SendZero => s.(worker := Testing, sent := s.sent + [ZERO])
    case Quit => s.(worker := Stopped, sent := s.sent + Zeros(5))
    case Fail => s.(worker := Stopped, sent := s.sent + Zeros(5))
  }

  function Zeros(n: nat): seq<Sent> {
    if n == 0 then [] else Zeros(n - 1) + [ZERO]
  }

  // ----- the queue as the producer alone sees it, with nothing left in the feeder -----

  class CommandQueue {
    var items: seq<Item>

    constructor ()
      ensures items == []
    {
      items := [];
    }

    method GetNowait() returns (item: Option<Item>)
      modifies this
      ensures item == if old(items) == [] then None else Some(old(items)[0])
      ensures items == if old(items) == [] then [] else old(items)[1..]
    {
      if items == [] {
        return None;
      }
      item := Some(items[0]);
      items := items[1..];
    }

    method PutNowait(item: Item) returns (ok: bool)
      modifies this
      ensures ok == (|old(items)| < MAXSIZE)
      ensures items == if ok then old(items) + [item] else old(items)
    {
      ok := |items| < MAXSIZE;
      if ok {
        items := items + [item];
      }
    }

    /** Whatever was queued, only the newest command is left. */
    method PutLatest(item: Item)
      modifies this
      ensures items == [item]
    {
      while true
        decreases |items|
      {
        var got := GetNowait();
        if got.None? {
          break;
        }
      }
      var _ := PutNowait(item);
    }
  }

  // ----- invariants of every interleaving -----

  /** The item carries the output of its tick, or the final zero. */
  ghost predicate Genuine(s: Sys, i: Item) {
    if i.tick < 0 then i.vx == 0.0 && i.wz == 0.0
    else i.tick < |s.history| && s.history[i.tick].Ticked? &&
         var b := Replay(s.start, s.history[..i.tick + 1]); i.vx == b.lastVx && i.wz == b.lastWz
  }

  function Hand(w: Worker): seq<Item> {
    if w.Collecting? || w.Holding? then [w.hand] else []
  }

  function InFlight(s: Sys): seq<Item> {
    Hand(s.worker) + Unread(s)
  }

  function SourceOf(e: Sent): seq<Item> {
    if e.source.Some? then [e.source.value] else []
  }

  function Sources(sent: seq<Sent>): seq<Item> {
    if sent == [] then [] else Sources(sent[..|sent| - 1]) + SourceOf(sent[|sent| - 1])
  }

  /** The commands already used, in order, then the one in hand, then the queue. */
  function Trail(s: Sys): seq<Item> {
    Sources(s.sent) + InFlight(s)
  }

  ghost predicate Increasing(items: seq<Item>) {
    forall i, j :: 0 <= i < j < |items| ==> items[i].no < items[j].no
  }

  ghost predicate Emitted(s: Sys, i: Item) {
    i.no < |s.emitted| && s.emitted[i.no] == i
  }

  ghost predicate SentOk(s: Sys) {
    forall k :: 0 <= k < |s.sent| ==>
      var e := s.sent[k];
      e.vy == 0.0 &&
      if e.source.Some? then e.vx == e.source.value.vx && e.wz == e.source.value.wz else e.vx == 0.0 && e.wz == 0.0
  }

  ghost predicate Inv(s: Sys) {
    |Unread(s)| <= MAXSIZE &&
    (s.producer.Draining? || s.producer.Putting? ==>
      Genuine(s, s.producer.item) && s.producer.item.no == |s.emitted|) &&
    (forall i :: i in s.emitted ==> Genuine(s, i)) &&
    (forall i :: i in Trail(s) ==> Emitted(s, i)) && Increasing(Trail(s)) && SentOk(s)
  }

  lemma GenuineGrows(s: Sys, s': Sys, i: Item)
    requires Genuine(s, i) && s.start == s'.start && s.history <= s'.history
    ensures Genuine(s', i)
  {
    if i.tick >= 0 {
      assert s'.history[..i.tick + 1] == s.history[..i.tick + 1];
    }
  }

  lemma StepGenuine(s: Sys, a: Action)
    requires Inv(s) && CanDo(s, a)
    ensures var s' := Do(s, a);
            (s'.producer.Draining? || s'.producer.Putting? ==>
              Genuine(s', s'.producer.item) && s'.producer.item.no == |s'.emitted|) &&
            forall i :: i in s'.emitted ==> Genuine(s', i)
  {
    var s' := Do(s, a);
    forall i | Genuine(s, i) ensures Genuine(s', i) {
      GenuineGrows(s, s', i);
    }
    if a.RunTick? {
      assert s'.history[..|s'.history|] == s'.history;
    }
  }

  ghost predicate DropsAtMostOne(before: seq<Item>, after: seq<Item>) {
    after == before || exists k :: 0 <= k < |before| && after == before[..k] + before[k + 1..]
  }

  lemma SourcesAppend(sent: seq<Sent>, e: Sent)
    ensures Sources(sent + [e]) == Sources(sent) + SourceOf(e)
  {
    assert (sent + [e])[..|sent|] == sent;
  }

  lemma DropAt(front: seq<Item>, dropped: Item, back: seq<Item>)
    ensures DropsAtMostOne(front + [dropped] + back, front + back)
  {
    var all, k := front + [dropped] + back, |front|;
    assert all[..k] == front && all[k + 1..] == back;
  }

  lemma SameTrail(t: seq<Item>)
    ensures DropsAtMostOne(t, t)
  {
  }

  lemma SendTrail(s: Sys, a: Action)
    requires CanDo(s, a) && a.Send?
    ensures DropsAtMostOne(Trail(s), Trail(Do(s, a)))
  {
    hide Sources, DropsAtMostOne, Unread;
    var hand, used, rest := s.worker.hand, Sources(s.sent), Unread(s);
    SourcesAppend(s.sent, if a.expired then ZERO else Sent(hand.vx, 0.0, hand.wz, Some(hand)));
    SameUnread(s, a);
    assert Trail(s) == used + [hand] + rest;
    if a.expired {
      DropAt(used, hand, rest);
      assert Trail(Do(s, a)) == used + rest;
    } else {
      assert Trail(Do(s, a)) == used + [hand] + rest;
      SameTrail(Trail(s));
    }
  }

  /** These actions leave buffer and pipe alone. */
  lemma SameUnread(s: Sys, a: Action)
    requires CanDo(s, a) && (a.Send? || a.SendZero? || a.Quit? || a.Fail? || a.CollectEnd?)
    ensures Unread(Do(s, a)) == Unread(s)
  {
  }

  lemma ZeroTrail(s: Sys, a: Action)
    requires CanDo(s, a) && a.SendZero?
    ensures Trail(Do(s, a)) == Trail(s)
  {
    hide Sources;
    SourcesAppend(s.sent, ZERO);
  }

  lemma StopTrail(s: Sys, a: Action)
    requires CanDo(s, a) && (a.Quit? || a.Fail?)
    ensures DropsAtMostOne(Trail(s), Trail(Do(s, a)))
  {
    hide Sources, DropsAtMostOne, Unread, Zeros;
    var used, rest := Sources(s.sent), Unread(s);
    ZerosHaveNoSource(s.sent, 5);
    SameUnread(s, a);
    assert Trail(Do(s, a)) == used + rest;
    if s.worker.Collecting? || s.worker.Holding? {
      DropAt(used, s.worker.hand, rest);
      assert Trail(s) == used + [s.worker.hand] + rest;
    } else {
      assert Trail(s) == used + rest;
      SameTrail(Trail(s));
    }
  }

  lemma DrainTrail(s: Sys, a: Action)
    requires CanDo(s, a) && a.DrainOne?
    ensures DropsAtMostOne(Trail(s), Trail(Do(s, a)))
  {
    hide Sources, DropsAtMostOne, Hand;
    var front, back := Sources(s.sent) + Hand(s.worker), s.pipe[1..] + s.buffer;
    DropAt(front, s.pipe[0], back);
    assert Unread(s) == [s.pipe[0]] + back;
    assert Trail(s) == front + [s.pipe[0]] + back;
    assert Trail(Do(s, a)) == front + back;
  }

  lemma CollectTrail(s: Sys, a: Action)
    requires CanDo(s, a) && a.CollectOne?
    ensures DropsAtMostOne(Trail(s), Trail(Do(s, a)))
  {
    hide Sources, DropsAtMostOne, Unread, Do;
    var used, rest := Sources(s.sent), Unread(s);
    DropAt(used, s.worker.hand, rest);
    CollectMoves(s, a);
    assert Trail(s) == used + [s.worker.hand] + rest;
  }

  /** The hand is let go for the next item of the pipe. */
  lemma CollectMoves(s: Sys, a: Action)
    requires CanDo(s, a) && a.CollectOne?
    ensures Trail(Do(s, a)) == Sources(s.sent) + Unread(s)
  {
    hide Sources, Replay, Zeros;
    assert InFlight(Do(s, a)) == Unread(s);
  }

  /** Taking the first item in hand, and feeding the pipe, only move items along. */
  lemma MoveTrail(s: Sys, a: Action)
    requires CanDo(s, a) && (a.GetFirst? || a.CollectEnd? || a.Feed?)
    ensures Trail(Do(s, a)) == Trail(s)
  {
    hide Sources;
    assert InFlight(Do(s, a)) == InFlight(s);
  }

  lemma StillTrail(s: Sys, a: Action)
    requires CanDo(s, a)
    requires a.Receive? || a.RunTick? || a.Shutdown? || a.DrainEnd? || a.EnterGet? || a.GetTimeout?
    ensures Trail(Do(s, a)) == Trail(s)
  {
    hide Sources, Replay;
  }

  lemma StepTrail(s: Sys, a: Action)
    requires CanDo(s, a) && !a.Put?
    ensures DropsAtMostOne(Trail(s), Trail(Do(s, a)))
  {
    SameTrail(Trail(s));
    match a {
      case Send(_) => SendTrail(s, a);
      case SendZero => ZeroTrail(s, a);
      case Quit => StopTrail(s, a);
      case Fail => StopTrail(s, a);
      case DrainOne => DrainTrail(s, a);
      case CollectOne => CollectTrail(s, a);
      case GetFirst => MoveTrail(s, a);
      case CollectEnd => MoveTrail(s, a);
      case Feed => MoveTrail(s, a);
      case _ => StillTrail(s, a);
    }
    hide Trail, DropsAtMostOne, Do;
  }

  lemma {:induction false} ZerosHaveNoSource(sent: seq<Sent>, n: nat)
    ensures Sources(sent + Zeros(n)) == Sources(sent)
  {
    if n == 0 {
      assert sent + Zeros(0) == sent;
    } else {
      ZerosHaveNoSource(sent, n - 1);
      assert (sent + Zeros(n))[..|sent + Zeros(n)| - 1] == sent + Zeros(n - 1);
    }
  }

  lemma PutTrail(s: Sys, a: Action)
    requires Inv(s) && CanDo(s, a) && a.Put?
    ensures Trail(Do(s, a)) == Trail(s) + if |Unread(s)| < MAXSIZE then [s.producer.item] else []
    ensures forall i :: i in Trail(Do(s, a)) ==> Emitted(Do(s, a), i)
    ensures Increasing(Trail(Do(s, a)))
  {
    hide Sources, Genuine, SentOk;
    forall i | i in Trail(s) ensures Emitted(Do(s, a), i) {
      assert Emitted(s, i);
    }
    forall j | 0 <= j < |Trail(s)| ensures Trail(s)[j].no < |s.emitted| {
      assert Trail(s)[j] in Trail(s);
    }
  }

  lemma DropKeepsOrder(before: seq<Item>, after: seq<Item>)
    requires DropsAtMostOne(before, after) && Increasing(before)
    ensures Increasing(after) && forall i :: i in after ==> i in before
  {
  }

  lemma OtherTrail(s: Sys, a: Action)
    requires Inv(s) && CanDo(s, a) && !a.Put?
    ensures forall i :: i in Trail(Do(s, a)) ==> Emitted(Do(s, a), i)
    ensures Increasing(Trail(Do(s, a)))
  {
    hide Trail, DropsAtMostOne, Increasing, Genuine, SentOk;
    StepTrail(s, a);
    DropKeepsOrder(Trail(s), Trail(Do(s, a)));
    assert Do(s, a).emitted == s.emitted;
  }

  lemma StepSent(s: Sys, a: Action)
    requires SentOk(s) && CanDo(s, a)
    ensures SentOk(Do(s, a))
  {
    hide Replay, Unread, Zeros;
    ZerosAre(5);
  }

  lemma {:induction false} ZerosAre(n: nat)
    ensures |Zeros(n)| == n && forall k :: 0 <= k < n ==> Zeros(n)[k] == ZERO
  {
    if n > 0 {
      ZerosAre(n - 1);
    }
  }

  lemma StepKeepsInv(s: Sys, a: Action)
    requires Inv(s) && CanDo(s, a)
    ensures Inv(Do(s, a))
  {
    StepGenuine(s, a);
    StepSent(s, a);
    if a.Put? {
      PutTrail(s, a);
    } else {
      OtherTrail(s, a);
    }
  }

  // ----- whole runs -----

  ghost predicate IsRun(s: Sys, actions: seq<Action>)
    decreases |actions|
  {
    actions == [] || (CanDo(s, actions[0]) && IsRun(Do(s, actions[0]), actions[1..]))
  }

  ghost function After(s: Sys, actions: seq<Action>): Sys
    requires IsRun(s, actions)
    decreases |actions|
  {
    if actions == [] then s else After(Do(s, actions[0]), actions[1..])
  }

  lemma {:induction false} RunKeepsInv(s: Sys, actions: seq<Action>)
    requires Inv(s) && IsRun(s, actions)
    ensures Inv(After(s, actions))
    decreases |actions|
  {
    if actions != [] {
      StepKeepsInv(s, actions[0]);
      RunKeepsInv(Do(s, actions[0]), actions[1..]);
    }
  }

  /** e carries the output of the tick at position n of the history, and that tick was justified. */
  ghost predicate FromTick(s: Sys, n: int, e: Sent) {
    0 <= n < |s.history| && Justified(s.history[..n + 1]) &&
    var b := Replay(s.start, s.history[..n + 1]); e.vx == b.lastVx && e.wz == b.lastWz
  }

  /** A nonzero genuine item is in range and comes from a justified tick. */
  lemma ItemFromTick(s: Sys, i: Item, e: Sent)
    requires Genuine(s, i) && e.vx == i.vx && e.wz == i.wz && (e.vx != 0.0 || e.wz != 0.0)
    ensures 0.0 <= e.vx <= MAX_VX && -MAX_WZ <= e.wz <= MAX_WZ && FromTick(s, i.tick, e)
  {
    hide Replay, Justified;
    var h := s.history[..i.tick + 1];
    ReplayTracks(s.start, h);
    assert h[|h| - 1] == s.history[i.tick];
    NonzeroIsJustified(s.start, h);
  }

  lemma SentSource(s: Sys, k: nat)
    requires Inv(s) && k < |s.sent| && (s.sent[k].vx != 0.0 || s.sent[k].wz != 0.0)
    ensures s.sent[k].vy == 0.0 && s.sent[k].source.Some?
    ensures var i := s.sent[k].source.value; Genuine(s, i) && s.sent[k].vx == i.vx && s.sent[k].wz == i.wz
  {
    hide Sources, Genuine, Increasing;
    var i := s.sent[k].source.value;
    SourceListed(s.sent, k);
    assert i in Trail(s);
    assert Emitted(s, i) && i in s.emitted;
  }

  /** End to end, over every interleaving: a nonzero SetVelocity is in range, never sideways, and carries the
      output of a tick that was armed, settled and freshly commanded. */
  lemma EndToEndSafety(start: real, actions: seq<Action>, k: nat)
    requires IsRun(Begin(start), actions)
    requires var s := After(Begin(start), actions); k < |s.sent| && (s.sent[k].vx != 0.0 || s.sent[k].wz != 0.0)
    ensures var s := After(Begin(start), actions);
            var e := s.sent[k];
            0.0 <= e.vx <= MAX_VX && e.vy == 0.0 && -MAX_WZ <= e.wz <= MAX_WZ &&
            exists n :: FromTick(s, n, e)
  {
    hide After, IsRun, FromTick, Genuine;
    BeginInv(start);
    RunKeepsInv(Begin(start), actions);
    var s := After(Begin(start), actions);
    SentSource(s, k);
    hide Inv;
    ItemFromTick(s, s.sent[k].source.value, s.sent[k]);
  }

  lemma BeginInv(start: real)
    ensures Inv(Begin(start))
  {
  }

  lemma {:induction false} SourceListed(sent: seq<Sent>, k: nat)
    requires k < |sent| && sent[k].source.Some?
    ensures sent[k].source.value in Sources(sent)
  {
    if k < |sent| - 1 {
      SourceListed(sent[..|sent| - 1], k);
    }
  }

  /** The worker's commands are a subsequence of the emitted ones, in emission order, and never more than the queue's
      bound wait unread. */
  lemma LatestValueQueue(start: real, actions: seq<Action>)
    requires IsRun(Begin(start), actions)
    ensures var s := After(Begin(start), actions);
            var used := Sources(s.sent);
            |Unread(s)| <= MAXSIZE &&
            (forall j :: 0 <= j < |used| ==> used[j].no < |s.emitted| && s.emitted[used[j].no] == used[j]) &&
            forall i, j :: 0 <= i < j < |used| ==> used[i].no < used[j].no
  {
    BeginInv(start);
    RunKeepsInv(Begin(start), actions);
    UsedInOrder(After(Begin(start), actions));
    hide After, IsRun;
  }

  lemma UsedInOrder(s: Sys)
    requires Inv(s)
    ensures var used := Sources(s.sent);
            (forall j :: 0 <= j < |used| ==> used[j].no < |s.emitted| && s.emitted[used[j].no] == used[j]) &&
            forall i, j :: 0 <= i < j < |used| ==> used[i].no < used[j].no
  {
    hide Sources, Genuine, SentOk;
    var used, all := Sources(s.sent), Trail(s);
    forall j | 0 <= j < |used| ensures Emitted(s, used[j]) && all[j] == used[j] {
      assert all[j] in all;
    }
  }

  // ----- the newest command -----

  /** The command in hand is the last one taken off the pipe. */
  ghost predicate HandIsLast(s: Sys) {
    s.worker.Collecting? || s.worker.Holding? ==> s.taken != [] && s.taken[|s.taken| - 1] == s.worker.hand
  }

  /** Everything fed is still in the pipe, or was taken or drained. */
  ghost predicate FedSomewhere(s: Sys) {
    forall i :: i in s.fed <==> i in s.pipe || i in s.taken || i in s.drained
  }

  /** Below a bound: what was fed, then what waits in the buffer, then what is emitted next. */
  ghost predicate InFeedOrder(s: Sys) {
    Increasing(s.fed + s.buffer) && forall i :: i in s.fed + s.buffer ==> i.no < |s.emitted|
  }

  /** What was taken comes before what the pipe holds. */
  ghost predicate InTakeOrder(s: Sys) {
    Increasing(s.taken + s.pipe) && Increasing(s.drained + s.pipe)
  }

  /** The producer drained it for a newer command, emitted since or about to be. */
  ghost predicate Overtaken(s: Sys, i: Item) {
    (exists e :: e in s.emitted && e.no > i.no) ||
    ((s.producer.Draining? || s.producer.Putting?) && s.producer.item.no > i.no)
  }

  ghost predicate DrainedForNewer(s: Sys) {
    forall d :: d in s.drained ==> Overtaken(s, d)
  }

  ghost predicate NewestInv(s: Sys) {
    HandIsLast(s) && FedSomewhere(s) && InFeedOrder(s) && InTakeOrder(s) && DrainedForNewer(s) &&
    (s.producer.Draining? || s.producer.Putting? ==> s.producer.item.no == |s.emitted|)
  }

  lemma HandStep(s: Sys, a: Action)
    requires CanDo(s, a) && HandIsLast(s)
    ensures HandIsLast(Do(s, a))
  {
    hide Replay, Zeros;
  }

  lemma FedStep(s: Sys, a: Action)
    requires CanDo(s, a) && FedSomewhere(s)
    ensures FedSomewhere(Do(s, a))
  {
    hide Replay, Zeros;
    var s' := Do(s, a);
    if a.DrainOne? || a.GetFirst? || a.CollectOne? {
      assert s.pipe == [s.pipe[0]] + s.pipe[1..];
    }
    forall i ensures i in s'.fed <==> i in s'.pipe || i in s'.taken || i in s'.drained {
      assert i in s.fed <==> i in s.pipe || i in s.taken || i in s.drained;
    }
  }

  lemma FeedOrderStep(s: Sys, a: Action)
    requires CanDo(s, a) && NewestInv(s)
    ensures InFeedOrder(Do(s, a))
  {
    hide Replay, Zeros, HandIsLast, FedSomewhere, InTakeOrder;
    var s' := Do(s, a);
    if a.Feed? {
      assert s'.fed + s'.buffer == s.fed + s.buffer;
    } else if a.Put? && |Unread(s)| < MAXSIZE {
      assert s'.fed + s'.buffer == (s.fed + s.buffer) + [s.producer.item];
    } else {
      assert s'.fed + s'.buffer == s.fed + s.buffer;
    }
  }

  lemma Shortened(front: seq<Item>, x: Item, back: seq<Item>)
    requires Increasing(front + [x] + back)
    ensures Increasing(front + back)
  {
    DropAt(front, x, back);
    DropKeepsOrder(front + [x] + back, front + back);
  }

  lemma TakeOrderStep(s: Sys, a: Action)
    requires CanDo(s, a) && NewestInv(s)
    ensures InTakeOrder(Do(s, a))
  {
    hide Replay, Zeros, HandIsLast, Increasing;
    var s' := Do(s, a);
    if a.DrainOne? || a.GetFirst? || a.CollectOne? {
      var x, rest := s.pipe[0], s.pipe[1..];
      assert s.taken + s.pipe == s.taken + [x] + rest && s.drained + s.pipe == s.drained + [x] + rest;
      Shortened(s.taken, x, rest);
      Shortened(s.drained, x, rest);
    } else if a.Feed? {
      var x := s.buffer[0];
      FedComesAfter(s, x);
      assert s.taken + (s.pipe + [x]) == s.taken + s.pipe + [x];
      assert s.drained + (s.pipe + [x]) == s.drained + s.pipe + [x];
      AppendIncreasing(s.taken + s.pipe, x);
      AppendIncreasing(s.drained + s.pipe, x);
    }
  }

  lemma AppendIncreasing(items: seq<Item>, x: Item)
    requires Increasing(items) && forall i :: i in items ==> i.no < x.no
    ensures Increasing(items + [x])
  {
    forall j | 0 <= j < |items| ensures items[j].no < x.no {
      assert items[j] in items;
    }
  }

  lemma FedComesAfter(s: Sys, x: Item)
    requires NewestInv(s) && s.buffer != [] && x == s.buffer[0]
    ensures forall i :: i in s.taken + s.pipe || i in s.drained + s.pipe ==> i.no < x.no
  {
    hide HandIsLast, InTakeOrder;
    forall i | i in s.taken + s.pipe || i in s.drained + s.pipe ensures i.no < x.no {
      assert i in s.fed;
      var k :| 0 <= k < |s.fed| && s.fed[k] == i;
      assert (s.fed + s.buffer)[k] == i && (s.fed + s.buffer)[|s.fed|] == x;
    }
  }

  lemma OvertakenStays(s: Sys, a: Action, d: Item)
    requires CanDo(s, a) && Overtaken(s, d)
    ensures Overtaken(Do(s, a), d)
  {
    hide Replay, Zeros;
    var s' := Do(s, a);
    if e :| e in s.emitted && e.no > d.no {
      assert e in s'.emitted;
    } else if a.Put? {
      assert s.producer.item in s'.emitted;
    }
  }

  lemma OvertakenStep(s: Sys, a: Action)
    requires CanDo(s, a) && NewestInv(s)
    ensures DrainedForNewer(Do(s, a))
  {
    hide Replay, Zeros, HandIsLast, InTakeOrder, Increasing, Overtaken;
    forall d | d in Do(s, a).drained ensures Overtaken(Do(s, a), d) {
      if d in s.drained {
        OvertakenStays(s, a, d);
      } else {
        NewlyOvertaken(s);
      }
    }
  }

  lemma NewlyOvertaken(s: Sys)
    requires CanDo(s, DrainOne) && NewestInv(s)
    ensures Overtaken(Do(s, DrainOne), s.pipe[0])
  {
    hide HandIsLast, InTakeOrder, Increasing, Replay;
    assert s.pipe[0] in s.fed && s.pipe[0] in s.fed + s.buffer;
  }

  lemma NewestStep(s: Sys, a: Action)
    requires CanDo(s, a) && NewestInv(s)
    ensures NewestInv(Do(s, a))
  {
    HandStep(s, a);
    FedStep(s, a);
    FeedOrderStep(s, a);
    TakeOrderStep(s, a);
    OvertakenStep(s, a);
    hide HandIsLast, FedSomewhere, InFeedOrder, InTakeOrder, DrainedForNewer, Replay, Zeros;
  }

  lemma {:induction false} RunNewest(s: Sys, actions: seq<Action>)
    requires NewestInv(s) && IsRun(s, actions)
    ensures NewestInv(After(s, actions))
    decreases |actions|
  {
    hide Do, NewestInv;
    if actions != [] {
      NewestStep(s, actions[0]);
      RunNewest(Do(s, actions[0]), actions[1..]);
    }
  }

  lemma BeginNewest(start: real)
    ensures NewestInv(Begin(start))
  {
  }

  /** Over every interleaving: the command in hand is the newest the worker ever took off the pipe, and a send that has
      not expired carries it. */
  lemma WorkerUsesNewest(start: real, actions: seq<Action>)
    requires IsRun(Begin(start), actions)
    requires var s := After(Begin(start), actions); s.worker.Collecting? || s.worker.Holding?
    ensures var s := After(Begin(start), actions);
            s.worker.hand in s.taken && (forall i :: i in s.taken ==> i.no <= s.worker.hand.no) &&
            (s.worker.Holding? ==>
              Do(s, Send(false)).sent == s.sent + [Sent(s.worker.hand.vx, 0.0, s.worker.hand.wz, Some(s.worker.hand))])
  {
    hide IsRun, After, Do;
    BeginNewest(start);
    RunNewest(Begin(start), actions);
    var s := After(Begin(start), actions);
    LastIsNewest(s);
    if s.worker.Holding? {
      SendShape(s);
    }
  }

  lemma SendShape(s: Sys)
    requires s.worker.Holding?
    ensures Do(s, Send(false)).sent == s.sent + [Sent(s.worker.hand.vx, 0.0, s.worker.hand.wz, Some(s.worker.hand))]
    ensures Do(s, Send(true)).sent == s.sent + [Sent(0.0, 0.0, 0.0, None)]
  {
  }

  lemma LastIsNewest(s: Sys)
    requires NewestInv(s) && (s.worker.Collecting? || s.worker.Holding?)
    ensures s.worker.hand in s.taken && forall i :: i in s.taken ==> i.no <= s.worker.hand.no
  {
    hide FedSomewhere, InFeedOrder;
    var n := |s.taken| - 1;
    forall i | i in s.taken ensures i.no <= s.worker.hand.no {
      var k :| 0 <= k < |s.taken| && s.taken[k] == i;
      assert (s.taken + s.pipe)[k] == i && (s.taken + s.pipe)[n] == s.worker.hand;
    }
  }

  /** When the worker finds the pipe empty, anything newer that had reached the pipe was drained by the producer, which
      has emitted, or is about to emit, something newer still. */
  lemma EmptyPipeNewest(start: real, actions: seq<Action>, i: Item)
    requires IsRun(Begin(start), actions)
    requires var s := After(Begin(start), actions);
             (s.worker.Collecting? || s.worker.Holding?) && s.pipe == [] && i in s.fed && i.no > s.worker.hand.no
    ensures var s := After(Begin(start), actions); i in s.drained && Overtaken(s, i)
  {
    hide IsRun, After;
    BeginNewest(start);
    RunNewest(Begin(start), actions);
    LastIsNewest(After(Begin(start), actions));
  }

  /** The hand of a worker that found the pipe empty is the newest command fed, exactly when nothing newer was drained. */
  lemma NewestFedIff(start: real, actions: seq<Action>)
    requires IsRun(Begin(start), actions)
    requires var s := After(Begin(start), actions); (s.worker.Collecting? || s.worker.Holding?) && s.pipe == []
    ensures var s := After(Begin(start), actions);
            (forall i :: i in s.fed ==> i.no <= s.worker.hand.no) <==>
            forall d :: d in s.drained ==> d.no <= s.worker.hand.no
  {
    hide IsRun, After;
    var s := After(Begin(start), actions);
    BeginNewest(start);
    RunNewest(Begin(start), actions);
    forall i | i in s.fed && i.no > s.worker.hand.no ensures i in s.drained {
      EmptyPipeNewest(start, actions, i);
    }
  }

  /** Only a draining producer drains, and it holds a newer command than anything it drains. */
  lemma DrainedIsOlder(start: real, actions: seq<Action>)
    requires IsRun(Begin(start), actions) && CanDo(After(Begin(start), actions), DrainOne)
    ensures var s := After(Begin(start), actions);
            Do(s, DrainOne).drained == s.drained + [s.pipe[0]] && s.pipe[0].no < s.producer.item.no
  {
    hide IsRun, After;
    BeginNewest(start);
    RunNewest(Begin(start), actions);
    var s := After(Begin(start), actions);
    assert s.pipe[0] in s.fed && s.pipe[0] in s.fed + s.buffer;
  }

  // ----- the end -----

  lemma StopStep(s: Sys, a: Action)
    requires CanDo(s, a) && (s.producer.Closed? <==> s.stop) && (s.producer.Idle? ==> !s.stop)
    ensures var s' := Do(s, a); s'.producer.Closed? <==> s'.stop
  {
    hide Replay, Zeros;
  }

  lemma {:induction false} StopsWhenClosed(s: Sys, actions: seq<Action>)
    requires IsRun(s, actions) && (s.producer.Closed? <==> s.stop)
    ensures var s' := After(s, actions); s'.producer.Closed? <==> s'.stop
    decreases |actions|
  {
    hide Do;
    if actions != [] {
      StopStep(s, actions[0]);
      StopsWhenClosed(Do(s, actions[0]), actions[1..]);
    }
  }

  /** Once the final zero is put the stop event is set; the worker then enters no further get, and it ends, stopped or
      failed, with five zero calls. */
  lemma ShutdownLaw(start: real, actions: seq<Action>)
    requires IsRun(Begin(start), actions)
    ensures var s := After(Begin(start), actions);
            (s.producer.Closed? <==> s.stop) && (s.stop ==> !CanDo(s, EnterGet)) &&
            (s.stop && s.worker.Testing? ==> CanDo(s, Quit)) &&
            forall a :: CanDo(s, a) && (a.Quit? || a.Fail?) ==>
              Do(s, a).worker.Stopped? && |Do(s, a).sent| == |s.sent| + 5 && Do(s, a).sent[..|s.sent|] == s.sent &&
              forall k :: |s.sent| <= k < |s.sent| + 5 ==> Do(s, a).sent[k] == Sent(0.0, 0.0, 0.0, None)
  {
    hide IsRun, After, Zeros;
    StopsWhenClosed(Begin(start), actions);
    ZerosAre(5);
    hide Replay;
  }

  // ----- refused puts -----

  /** Every put of the run finds room: fewer items unread than the queue's bound. */
  ghost predicate FindsRoom(s: Sys, actions: seq<Action>)
    requires IsRun(s, actions)
    decreases |actions|
  {
    actions != [] ==>
      (actions[0].Put? ==> |Unread(s)| < MAXSIZE) && FindsRoom(Do(s, actions[0]), actions[1..])
  }

  lemma StepRefused(s: Sys, a: Action)
    requires CanDo(s, a)
    ensures Do(s, a).refused == s.refused + if a.Put? && |Unread(s)| >= MAXSIZE then 1 else 0
  {
    hide Replay;
  }

  lemma {:induction false} RefusedIff(s: Sys, actions: seq<Action>)
    requires IsRun(s, actions)
    ensures s.refused <= After(s, actions).refused
    ensures After(s, actions).refused == s.refused <==> FindsRoom(s, actions)
    decreases |actions|
  {
    hide Do, Unread;
    if actions != [] {
      StepRefused(s, actions[0]);
      RefusedIff(Do(s, actions[0]), actions[1..]);
    }
  }

  /** A prompt run: the feeder has passed on the last command before the next tick, and no drain is cut short by the
      worker's lock. */
  ghost predicate Prompt(s: Sys, actions: seq<Action>)
    requires IsRun(s, actions)
    decreases |actions|
  {
    actions != [] ==>
      (actions[0].RunTick? || actions[0].Shutdown? ==> s.buffer == []) &&
      (actions[0].DrainEnd? ==> s.pipe == []) &&
      Prompt(Do(s, actions[0]), actions[1..])
  }

  ghost predicate OneUnread(s: Sys) {
    |Unread(s)| <= 1 && (s.producer.Draining? ==> s.buffer == []) && (s.producer.Putting? ==> Unread(s) == [])
  }

  lemma PromptStep(s: Sys, a: Action)
    requires CanDo(s, a) && OneUnread(s)
    requires (a.RunTick? || a.Shutdown? ==> s.buffer == []) && (a.DrainEnd? ==> s.pipe == [])
    ensures OneUnread(Do(s, a)) && Do(s, a).refused == s.refused
  {
    hide Replay, Zeros;
  }

  /** In a prompt run no put is refused and at most one command waits. */
  lemma {:induction false} PromptRun(s: Sys, actions: seq<Action>)
    requires IsRun(s, actions) && Prompt(s, actions) && OneUnread(s)
    ensures OneUnread(After(s, actions)) && After(s, actions).refused == s.refused
    decreases |actions|
  {
    hide Do;
    if actions != [] {
      PromptStep(s, actions[0]);
      PromptRun(Do(s, actions[0]), actions[1..]);
    }
  }

  lemma {:induction false} Joined(s: Sys, front: seq<Action>, back: seq<Action>)
    requires IsRun(s, front) && IsRun(After(s, front), back)
    ensures IsRun(s, front + back) && After(s, front + back) == After(After(s, front), back)
    decreases |front|
  {
    hide Do;
    if front == [] {
      assert front + back == back;
    } else {
      Joined(Do(s, front[0]), front[1..], back);
      assert (front + back)[1..] == front[1..] + back;
    }
  }

  /** One disarmed tick whose command stays in the buffer, while the worker stands still. */
  lemma StuckTick(s: Sys) returns (actions: seq<Action>)
    requires s.producer.Idle? && s.pipe == [] && |s.buffer| <= MAXSIZE
    ensures IsRun(s, actions)
    ensures var s' := After(s, actions);
            s'.producer.Idle? && s'.pipe == [] &&
            if |s.buffer| < MAXSIZE then |s'.buffer| == |s.buffer| + 1 && s'.refused == s.refused
            else |s'.buffer| == MAXSIZE && s'.refused == s.refused + 1
  {
    hide Replay;
    actions := [RunTick(s.start, false), DrainEnd, Put];
    var s1 := Do(s, actions[0]);
    var s2 := Do(s1, actions[1]);
    assert actions[1..] == [DrainEnd, Put] && [DrainEnd, Put][1..] == [Put] && [Put][1..] == [];
    assert IsRun(s2, [Put]) && After(s2, [Put]) == Do(s2, Put);
    assert IsRun(s1, [DrainEnd, Put]) && After(s1, [DrainEnd, Put]) == Do(s2, Put);
  }

  /** When the feeder lags two ticks behind, the third put is refused. */
  lemma LaggingFeederRefuses(start: real) returns (actions: seq<Action>)
    ensures IsRun(Begin(start), actions) && After(Begin(start), actions).refused == 1
  {
    hide IsRun, After;
    var a := StuckTick(Begin(start));
    var s1 := After(Begin(start), a);
    var b := StuckTick(s1);
    var s2 := After(s1, b);
    var c := StuckTick(s2);
    Joined(Begin(start), a, b);
    Joined(Begin(start), a + b, c);
    actions := a + b + c;
  }

  lemma OneAction(s: Sys, a: Action)
    requires CanDo(s, a)
    ensures IsRun(s, [a]) && After(s, [a]) == Do(s, a)
  {
    assert [a][1..] == [];
  }

  lemma Extended(start: real, actions: seq<Action>, a: Action)
    requires IsRun(Begin(start), actions) && CanDo(After(Begin(start), actions), a)
    ensures IsRun(Begin(start), actions + [a])
    ensures After(Begin(start), actions + [a]) == Do(After(Begin(start), actions), a)
  {
    hide IsRun, After, CanDo, Do;
    OneAction(After(Begin(start), actions), a);
    Joined(Begin(start), actions, [a]);
  }

  /** A disarmed tick finds the pipe empty, and its command is fed. */
  lemma FedTick(start: real, before: seq<Action>) returns (actions: seq<Action>)
    requires IsRun(Begin(start), before)
    requires var s := After(Begin(start), before); s.producer.Idle? && s.pipe == [] && s.buffer == []
    ensures IsRun(Begin(start), actions)
    ensures var s, s' := After(Begin(start), before), After(Begin(start), actions);
            s'.producer.Idle? && s'.buffer == [] && s'.worker == s.worker && s'.stop == s.stop &&
            |s'.emitted| == |s.emitted| + 1 &&
            |s'.pipe| == 1 && s'.pipe[0].no == |s.emitted| && s'.fed == s.fed + s'.pipe && s'.drained == s.drained
  {
    hide IsRun, After, Replay;
    actions := before + [RunTick(start, false)];
    Extended(start, before, RunTick(start, false));
    Extended(start, actions, DrainEnd);
    actions := actions + [DrainEnd];
    Extended(start, actions, Put);
    actions := actions + [Put];
    Extended(start, actions, Feed);
    actions := actions + [Feed];
  }

  /** The worker has taken the only command. */
  lemma OneTaken(start: real) returns (actions: seq<Action>)
    ensures IsRun(Begin(start), actions)
    ensures var s := After(Begin(start), actions);
            s.producer.Idle? && s.buffer == [] && s.pipe == [] && s.worker.Collecting? && s.worker.hand.no < |s.emitted|
  {
    hide IsRun, After, Replay;
    BeginRun(start);
    actions := FedTick(start, []);
    Extended(start, actions, EnterGet);
    actions := actions + [EnterGet];
    Extended(start, actions, GetFirst);
    actions := actions + [GetFirst];
  }

  /** The producer drains the pipe for a command that stays in its buffer, and the worker finds the pipe empty. */
  lemma LastDrained(start: real, before: seq<Action>) returns (actions: seq<Action>)
    requires IsRun(Begin(start), before)
    requires var s := After(Begin(start), before);
             s.producer.Idle? && s.buffer == [] && |s.pipe| == 1 && s.worker.Collecting?
    ensures IsRun(Begin(start), actions)
    ensures var s, s' := After(Begin(start), before), After(Begin(start), actions);
            s'.producer.Idle? && s'.pipe == [] && s'.worker == Holding(s.worker.hand) && s'.fed == s.fed
  {
    hide IsRun, After, Replay;
    Extended(start, before, RunTick(start, false));
    actions := before + [RunTick(start, false)];
    Extended(start, actions, DrainOne);
    actions := actions + [DrainOne];
    Extended(start, actions, DrainEnd);
    actions := actions + [DrainEnd];
    Extended(start, actions, Put);
    actions := actions + [Put];
    Extended(start, actions, CollectEnd);
    actions := actions + [CollectEnd];
  }

  /** A drain that has just ended may leave the worker with an older command than one that had reached the pipe: the
      worker takes a command, the next is fed and drained before it looks again, and the one after is not yet fed. */
  lemma DrainBeatsWorker(start: real) returns (actions: seq<Action>)
    ensures IsRun(Begin(start), actions)
    ensures var s := After(Begin(start), actions);
            s.worker.Holding? && s.pipe == [] && s.producer.Idle? && exists i :: i in s.fed && i.no > s.worker.hand.no
  {
    hide IsRun, After;
    actions := OneTaken(start);
    actions := FedTick(start, actions);
    var newer := After(Begin(start), actions).pipe[0];
    actions := LastDrained(start, actions);
    assert newer in After(Begin(start), actions).fed;
  }

  lemma BeginRun(start: real)
    ensures IsRun(Begin(start), []) && After(Begin(start), []) == Begin(start)
  {
  }

  // ----- silence -----

  function Nonzero(sent: seq<Sent>): nat {
    if sent == [] then 0
    else Nonzero(sent[..|sent| - 1]) + if sent[|sent| - 1].vx != 0.0 || sent[|sent| - 1].wz != 0.0 then 1 else 0
  }

  /** How many commands the worker can still use without the producer. */
  function Left(s: Sys): nat {
    |InFlight(s)|
  }

  lemma {:induction false} ZerosAreZero(sent: seq<Sent>, n: nat)
    ensures Nonzero(sent + Zeros(n)) == Nonzero(sent)
  {
    if n == 0 {
      assert sent + Zeros(0) == sent;
    } else {
      ZerosAreZero(sent, n - 1);
      assert (sent + Zeros(n))[..|sent + Zeros(n)| - 1] == sent + Zeros(n - 1);
    }
  }

  lemma OneMore(sent: seq<Sent>, e: Sent)
    ensures Nonzero(sent + [e]) == Nonzero(sent) + if e.vx != 0.0 || e.wz != 0.0 then 1 else 0
  {
    assert (sent + [e])[..|sent|] == sent;
  }

  lemma SilentStep(s: Sys, a: Action)
    requires CanDo(s, a) && IsSilent(a)
    ensures Nonzero(Do(s, a).sent) + Left(Do(s, a)) <= Nonzero(s.sent) + Left(s)
  {
    hide Nonzero, Zeros;
    match a {
      case Send(expired) =>
        OneMore(s.sent, if expired then ZERO else Sent(s.worker.hand.vx, 0.0, s.worker.hand.wz, Some(s.worker.hand)));
      case SendZero => OneMore(s.sent, ZERO);
      case Quit => ZerosAreZero(s.sent, 5);
      case Fail => ZerosAreZero(s.sent, 5);
      case _ =>
    }
  }

  /** Without the producer, what the worker can still send nonzero is what is in flight. */
  lemma {:induction false} SilentRun(s: Sys, actions: seq<Action>)
    requires IsRun(s, actions) && forall a :: a in actions ==> IsSilent(a)
    ensures Nonzero(After(s, actions).sent) + Left(After(s, actions)) <= Nonzero(s.sent) + Left(s)
    decreases |actions|
  {
    hide Do, Nonzero, Left;
    if actions != [] {
      SilentStep(s, actions[0]);
      SilentRun(Do(s, actions[0]), actions[1..]);
    }
  }

  /** Once the producer falls silent the worker makes at most three more nonzero SetVelocity calls: one in hand and
      two unread. */
  lemma SilenceStops(start: real, actions: seq<Action>, silent: seq<Action>)
    requires IsRun(Begin(start), actions)
    requires IsRun(After(Begin(start), actions), silent) && forall a :: a in silent ==> IsSilent(a)
    ensures Nonzero(After(After(Begin(start), actions), silent).sent)
         <= Nonzero(After(Begin(start), actions).sent) + 3
  {
    hide IsRun, After, Nonzero, Sources;
    BeginInv(start);
    RunKeepsInv(Begin(start), actions);
    SilentRun(After(Begin(start), actions), silent);
  }

  /** After a prompt run, at most two more. */
  lemma PromptSilenceStops(start: real, actions: seq<Action>, silent: seq<Action>)
    requires IsRun(Begin(start), actions) && Prompt(Begin(start), actions)
    requires IsRun(After(Begin(start), actions), silent) && forall a :: a in silent ==> IsSilent(a)
    ensures After(Begin(start), actions).refused == 0
    ensures Nonzero(After(After(Begin(start), actions), silent).sent)
         <= Nonzero(After(Begin(start), actions).sent) + 2
  {
    hide IsRun, After, Nonzero, Prompt;
    PromptRun(Begin(start), actions);
    SilentRun(After(Begin(start), actions), silent);
  }
}
