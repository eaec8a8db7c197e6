/** The goroutines of the relay over every execution: how a connection comes and goes, when it has to
    wait and for whom, and that the dispatcher alone can end its waiting. */
module RelayProgress {
  import opened AudioBuffer
  import Sequences
  import opened Voice
  import opened Hub
  import opened Wrappers
  import opened Relay
  import opened RelaySteps
  import opened RelayConnections
  import RelayInvariant
  import RelaySafety
  import RelayQueues
  import RelaySends

  // ---- From the handshake to the end ----

  /** c's handshake: for this room, by this user, who is called "anonymous" without an id. */
  predicate Handshake(step: Step, c: ConnId, user: UserId, room: RoomId) {
    && step.Connect? && step.c == c && step.room == room && room != ""
    && user == if step.user == "" then "anonymous" else step.user
  }

  ghost predicate ShookHands(ss: seq<State>, steps: seq<Step>, n: nat, c: ConnId, user: UserId, room: RoomId)
    requires n <= |steps|
  {
    exists i {:trigger Handshake(steps[i], c, user, room)} :: 0 <= i < n && Handshake(steps[i], c, user, room)
  }

  ghost predicate Introduced(ss: seq<State>, steps: seq<Step>, n: nat, c: ConnId)
    requires n <= |steps| < |ss|
  {
    c in ss[n].conns ==>
      exists room {:trigger ShookHands(ss, steps, n, c, ss[n].conns[c].user, room)} ::
        && ShookHands(ss, steps, n, c, ss[n].conns[c].user, room)
        && (BeforeReading(ss[n].conns[c].pc) ==> ss[n].conns[c].pc.room == room)
  }

  lemma IntroducedNext(ss: seq<State>, steps: seq<Step>, n: nat, c: ConnId)
    requires Execution(ss, steps) && n < |steps| && Introduced(ss, steps, n, c)
    ensures Introduced(ss, steps, n + 1, c)
  {
    StepTaken(ss, steps, n);
    StepFlows(ss[n], steps[n], ss[n + 1], c);
    if c in ss[n + 1].conns {
      var user := ss[n + 1].conns[c].user;
      if c in ss[n].conns {
        var room :| && ShookHands(ss, steps, n, c, user, room)
                    && (BeforeReading(ss[n].conns[c].pc) ==> ss[n].conns[c].pc.room == room);
        assert ShookHands(ss, steps, n + 1, c, user, room);
      } else {
        assert Handshake(steps[n], c, user, steps[n].room);
        assert ShookHands(ss, steps, n + 1, c, user, steps[n].room);
      }
    }
  }

  /** Every connection comes from a handshake, bears the name given there, and first enters the room
      named there. */
  lemma ComesFromHandshake(ss: seq<State>, steps: seq<Step>, n: nat, c: ConnId)
    requires Execution(ss, steps) && n <= |steps|
    ensures Introduced(ss, steps, n, c)
  {
    for k := 0 to n
      invariant Introduced(ss, steps, k, c)
    {
      IntroducedNext(ss, steps, k, c);
    }
  }

  predicate PastHandshake(s: State, c: ConnId) {
    c in s.conns && !BeforeReading(s.conns[c].pc)
  }

  predicate FirstJoined(steps: seq<Step>, n: nat, c: ConnId)
    requires n <= |steps|
  {
    exists i :: 0 <= i < n && steps[i] == InRoom(c, FirstJoin)
  }

  /** A connection takes no message before it has entered the room of its handshake. */
  lemma ReadsAfterJoining(ss: seq<State>, steps: seq<Step>, n: nat, c: ConnId)
    requires Execution(ss, steps) && n <= |steps| && PastHandshake(ss[n], c)
    ensures FirstJoined(steps, n, c)
  {
    for k := 0 to n
      invariant PastHandshake(ss[k], c) ==> FirstJoined(steps, k, c)
    {
      StepTaken(ss, steps, k);
      StepFlows(ss[k], steps[k], ss[k + 1], c);
      assert steps[k] == InRoom(c, FirstJoin) || FirstJoined(steps, k, c) ==> FirstJoined(steps, k + 1, c);
    }
  }

  // ---- The exit actions ----

  ghost predicate Visited(steps: seq<Step>, i: nat, n: nat, c: ConnId, room: RoomId)
    requires n <= |steps|
  {
    exists j {:trigger Visits(steps[j], c, room)} :: i < j < n && Visits(steps[j], c, room)
  }

  /** c read its rooms in step i, and has visited since all of them but these. */
  ghost predicate ReleasedBut(ss: seq<State>, steps: seq<Step>, i: nat, n: nat, c: ConnId, todo: set<RoomId>)
    requires n <= |steps| < |ss|
  {
    && i < n && steps[i] == Leaving(c, ReadRooms) && c in ss[i].hub.conns
    && forall room {:trigger Visited(steps, i, n, c, room)} ::
         room in ss[i].hub.conns[c].rooms ==> room in todo || Visited(steps, i, n, c, room)
  }

  ghost predicate Released(ss: seq<State>, steps: seq<Step>, n: nat, c: ConnId, todo: set<RoomId>)
    requires n <= |steps| < |ss|
  {
    exists i :: 0 <= i < n && ReleasedBut(ss, steps, i, n, c, todo)
  }

  ghost predicate OnItsWay(ss: seq<State>, steps: seq<Step>, n: nat, c: ConnId)
    requires n <= |steps| < |ss|
  {
    c in ss[n].conns ==>
      var pc := ss[n].conns[c].pc;
      && (pc.Releasing? ==> Released(ss, steps, n, c, pc.rooms))
      && (pc.Done? ==> Released(ss, steps, n, c, {}))
  }

  lemma ReleasedLater(ss: seq<State>, steps: seq<Step>, n: nat, c: ConnId, todo: set<RoomId>, todo': set<RoomId>)
    requires n < |steps| < |ss| && Released(ss, steps, n, c, todo)
    requires forall room :: room in todo - todo' ==> Visits(steps[n], c, room)
    ensures Released(ss, steps, n + 1, c, todo')
  {
    var i :| 0 <= i < n && ReleasedBut(ss, steps, i, n, c, todo);
    forall room | room in ss[i].hub.conns[c].rooms && room !in todo' ensures Visited(steps, i, n + 1, c, room) {
      if Visited(steps, i, n, c, room) {
        var j :| i < j < n && Visits(steps[j], c, room);
        assert Visits(steps[j], c, room);
      } else {
        assert room in todo - todo' && Visits(steps[n], c, room);
      }
    }
    assert ReleasedBut(ss, steps, i, n + 1, c, todo');
  }

  lemma OnItsWayNext(ss: seq<State>, steps: seq<Step>, n: nat, c: ConnId)
    requires Execution(ss, steps) && n < |steps| && OnItsWay(ss, steps, n, c)
    ensures OnItsWay(ss, steps, n + 1, c)
  {
    StepTaken(ss, steps, n);
    StepFlows(ss[n], steps[n], ss[n + 1], c);
    if c in ss[n + 1].conns && c in ss[n].conns {
      var pc, pc' := ss[n].conns[c].pc, ss[n + 1].conns[c].pc;
      if pc'.Releasing? && !pc.Releasing? {
        assert ReleasedBut(ss, steps, n, n + 1, c, pc'.rooms);
      } else if pc'.Releasing? {
        ReleasedLater(ss, steps, n, c, pc.rooms, pc'.rooms);
      } else if pc'.Done? {
        ReleasedLater(ss, steps, n, c, {}, {});
      }
    }
  }

  /** No connection reaches the hub's unregistration with a room left to give up: when it waits for
      it, and when it has been received, it has read its rooms and then visited every one. */
  lemma ReleasesEveryRoom(ss: seq<State>, steps: seq<Step>, n: nat, c: ConnId)
    requires Execution(ss, steps) && n <= |steps| && c in ss[n].conns
    requires ss[n].conns[c].pc == Releasing({}) || ss[n].conns[c].pc.Done?
    ensures Released(ss, steps, n, c, {})
  {
    for k := 0 to n
      invariant OnItsWay(ss, steps, k, c)
    {
      OnItsWayNext(ss, steps, k, c);
    }
  }

  // ---- Waiting ----

  /** The steps that the goroutine of c takes. */
  predicate OwnStep(step: Step, c: ConnId) {
    match step
    case InRoom(d, _) => d == c
    case Speaking(d, _) => d == c
    case Catching(d, _) => d == c
    case Leaving(d, _) => d == c
    case ByHub(ReceiveRegister(d)) => d == c
    case ByHub(ReceiveUnregister(d)) => d == c
    case _ => false
  }

  /** The steps that the dispatcher takes without anybody else. */
  predicate HubsOwn(step: Step) {
    step.ByHub? && !step.event.ReceiveRegister? && !step.event.ReceiveUnregister?
  }

  /** c has to wait: for the dispatcher to be idle, to be done with its fan-out, or to make space. */
  predicate Waits(s: State, c: ConnId)
    requires c in s.conns
  {
    match s.conns[c].pc
    case Registering(_) => !s.hubPc.Idle?
    case Releasing(rooms) => rooms == {} && !s.hubPc.Idle?
    case Joining(_) => s.hubPc.FanningOut?
    case Enqueueing(_) => |s.broadcast| >= CAPACITY
    case _ => false
  }

  ghost predicate CanGoOn(s: State, c: ConnId) {
    exists step :: OwnStep(step, c) && Enabled(s, step)
  }

  /** The dispatcher can take a step of its own. */
  ghost predicate HubCanGoOn(s: State) {
    exists step :: HubsOwn(step) && Enabled(s, step)
  }

  lemma GoesOn(s: State, c: ConnId)
    requires !s.panicked && Known(s, c) && !s.conns[c].pc.Done? && !Waits(s, c)
    ensures CanGoOn(s, c)
  {
    var step :=
      match s.conns[c].pc
      case Registering(_) => ByHub(ReceiveRegister(c))
      case Joining(_) => InRoom(c, FirstJoin)
      case Reading => Leaving(c, Hangup)
      case Numbering(_, _) => Speaking(c, Number("", 0, 0))
      case Enqueueing(_) => Speaking(c, SpeakAction.Enqueue)
      case Snapshotting(_, _) => Catching(c, Snapshot)
      case Replaying(_, _) => Catching(c, PushReplay)
      case Exiting => Leaving(c, ReadRooms)
      case Releasing(rooms) =>
        if rooms == {} then ByHub(ReceiveUnregister(c))
        else var room :| room in rooms; Leaving(c, ReleaseRoom(room, 0))
      case Done => DrainOne(c);
    assert OwnStep(step, c) && Enabled(s, step);
  }

  lemma WaitingCannotGoOn(s: State, c: ConnId, step: Step)
    requires c in s.conns && Waits(s, c) && OwnStep(step, c)
    ensures !Enabled(s, step)
  {
  }

  ghost predicate OnlyHub(steps: seq<Step>) {
    forall i: nat {:trigger StepAt(steps, i)} :: i < |steps| ==> HubsOwn(StepAt(steps, i))
  }

  /** How far the dispatcher is from being idle. */
  function Phase(hubPc: HubPc): nat {
    match hubPc
    case Dispatching(_) => 2
    case FanningOut(_, _) => 1
    case _ => 0
  }

  function Todo(hubPc: HubPc): set<ConnId> {
    if hubPc.FanningOut? then hubPc.todo else {}
  }

  lemma HubGoesOn(s: State) returns (e: HubEvent)
    requires RelayInvariant.Indexed(s) && !s.panicked && (!s.hubPc.Idle? || s.broadcast != [])
    ensures HubsOwn(ByHub(e)) && Enabled(s, ByHub(e))
  {
    e :=
      match s.hubPc
      case Idle => Dispatch
      case Adding(_) => FinishRegister
      case Removing(_) => FinishUnregister
      case Dispatching(_) => BeginFanOut
      case FanningOut(_, todo) => if todo == {} then FinishFanOut else var c :| c in todo; DeliverTo(c);
  }

  /** s1 is nearer than s to an idle dispatcher and an empty broadcast channel. */
  predicate Nearer(s: State, s1: State) {
    || |s1.broadcast| < |s.broadcast|
    || (s1.broadcast == s.broadcast && s1.hubPc.Idle? && !s.hubPc.Idle?)
    || (s1.broadcast == s.broadcast && s1.hubPc.FanningOut?
        && (s.hubPc.Dispatching? || (s.hubPc.FanningOut? && s1.hubPc.todo < s.hubPc.todo)))
  }

  lemma HubComesNearer(s: State, e: HubEvent)
    requires HubReady(s, e) && HubsOwn(ByHub(e)) && !HubStep(s, e).panicked
    ensures Nearer(s, HubStep(s, e))
  {
  }

  lemma HubOnce(s: State, now: int) returns (s': State, ss: seq<State>, steps: seq<Step>)
    requires RelayInvariant.Indexed(s) && !s.panicked && (!s.hubPc.Idle? || s.broadcast != [])
    ensures Leads(s, s', now, ss, steps) && OnlyHub(steps)
    ensures s'.panicked || (RelayInvariant.Indexed(s') && s'.conns.Keys == s.conns.Keys && Nearer(s, s'))
  {
    var e := HubGoesOn(s);
    s' := HubStep(s, e);
    ss, steps := [s, s'], [ByHub(e)];
    if !s'.panicked {
      RelayInvariant.HubStepKeepsIndexed(s, e);
      HubFrame(s, e);
      HubComesNearer(s, e);
    }
  }

  /** From any reachable state the dispatcher, by steps of its own, comes to a state in which c need
      not wait, or to a panic. */
  lemma {:induction false} WaitingEnds(s: State, c: ConnId, now: int)
    returns (s': State, ss: seq<State>, steps: seq<Step>)
    requires RelayInvariant.Indexed(s) && !s.panicked && c in s.conns
    ensures Leads(s, s', now, ss, steps) && OnlyHub(steps)
    ensures s'.panicked || (c in s'.conns && !Waits(s', c))
    decreases |s.broadcast|, !s.hubPc.Idle?, Phase(s.hubPc), Todo(s.hubPc)
  {
    s', ss, steps := s, [s], [];
    if Waits(s, c) {
      s', ss, steps := HubOnce(s, now);
      if !s'.panicked {
        var s1, ss2, steps2 := s', [], [];
        s', ss2, steps2 := WaitingEnds(s1, c, now);
        InstantJoins(ss, steps, ss2, steps2, s, s1, s', now);
        OnlyHubJoins(steps, steps2);
        ss, steps := ss + ss2[1..], steps + steps2;
      }
    }
  }

  lemma OnlyHubJoins(steps: seq<Step>, steps': seq<Step>)
    requires OnlyHub(steps) && OnlyHub(steps')
    ensures OnlyHub(steps + steps')
  {
    forall i: nat | i < |steps + steps'| ensures HubsOwn(StepAt(steps + steps', i)) {
      if i < |steps| {
        assert StepAt(steps, i) == StepAt(steps + steps', i);
      } else {
        assert StepAt(steps', i - |steps|) == StepAt(steps + steps', i);
      }
    }
  }

  /** Nobody is stuck: in every reachable state, unless the program has panicked, a connection that
      is served either can go on by itself or waits for the dispatcher, never both, and then the
      dispatcher can go on without anybody else. */
  lemma NobodyIsStuck(ss: seq<State>, steps: seq<Step>, n: nat, c: ConnId)
    requires Execution(ss, steps) && n <= |steps| && !ss[n].panicked && Serving(ss[n], c)
    ensures CanGoOn(ss[n], c) <==> !Waits(ss[n], c)
    ensures Waits(ss[n], c) ==> HubCanGoOn(ss[n])
  {
    RelaySafety.AlwaysSound(ss, steps, n);
    if Waits(ss[n], c) {
      var _ := HubGoesOn(ss[n]);
      forall step | OwnStep(step, c) ensures !Enabled(ss[n], step) {
        WaitingCannotGoOn(ss[n], c, step);
      }
    } else {
      GoesOn(ss[n], c);
    }
  }

  /** A connection in its read loop takes any message at any time, except that joining and leaving
      wait for a fan-out to end. */
  lemma ReaderTakesAnyMessage(s: State, c: ConnId, room: RoomId, audio: Bytes, decodes: bool, since: int, now: int)
    requires !s.panicked && Known(s, c) && s.conns[c].pc.Reading?
    ensures Enabled(s, Speaking(c, SpeakPtt(room, audio, decodes, now)))
    ensures Enabled(s, Speaking(c, SpeakOpen(room, audio, now)))
    ensures Enabled(s, Catching(c, AskReplay(room, since)))
    ensures Enabled(s, InRoom(c, Join(room))) <==> !s.hubPc.FanningOut?
    ensures Enabled(s, InRoom(c, Leave(room))) <==> !s.hubPc.FanningOut?
  {
  }

  /** The write pump can always catch up: from any state, by its own steps, it comes to a state in
      which everything that was ever put into c's channel has been written. */
  lemma {:induction false} WritesEverything(s: State, c: ConnId, now: int)
    returns (s': State, ss: seq<State>, steps: seq<Step>)
    requires !s.panicked && Known(s, c)
    ensures Leads(s, s', now, ss, steps)
    ensures forall i :: 0 <= i < |steps| ==> steps[i] == DrainOne(c)
    ensures c in s'.hub.conns && s'.hub.conns[c].send == []
    ensures Written(s', c) == s.hub.conns[c].received
    decreases |s.hub.conns[c].send|
  {
    s', ss, steps := s, [s], [];
    if s.hub.conns[c].send != [] {
      var s1 := s.(hub := Drain(s.hub, c));
      assert Next(s, DrainOne(c)) == Some(s1);
      var ss2, steps2;
      s', ss2, steps2 := WritesEverything(s1, c, now);
      InstantJoins([s, s1], [DrainOne(c)], ss2, steps2, s, s1, s', now);
      ss, steps := [s, s1] + ss2[1..], [DrainOne(c)] + steps2;
    }
  }

  /** A window that holds anything can be swept at any time, which leaves nothing in it that is as old
      as maxDuration. */
  lemma SweepsForget(s: State, room: RoomId, now: int) returns (s': State)
    requires !s.panicked && BufferAt(s, room).msgs != []
    ensures Next(s, Sweep(room, now)) == Some(s')
    ensures forall m :: m in BufferAt(s', room).msgs ==> now - m.timestamp < DEFAULT_BUFFER_CONFIG.maxDuration
  {
    s' := DoSweep(s, room, now);
    var msgs, young := BufferAt(s, room).msgs, YoungerThan(now - DEFAULT_BUFFER_CONFIG.maxDuration);
    forall m | m in BufferAt(s', room).msgs ensures now - m.timestamp < DEFAULT_BUFFER_CONFIG.maxDuration {
      TrimSubset(Sequences.Filter(msgs, young), DEFAULT_BUFFER_CONFIG.maxSizeBytes, m);
      Sequences.FilterMember(msgs, young, m);
    }
  }

  // ---- Bounds and panics ----

  predicate Bounded(s: State) {
    && |s.broadcast| <= CAPACITY
    && forall c :: c in s.hub.conns ==> |s.hub.conns[c].send| <= CAPACITY
  }

  lemma BroadcastStaysBounded(s: State, step: Step, s': State)
    requires Next(s, step) == Some(s')
    ensures |s'.broadcast| <= |s.broadcast| || |s'.broadcast| <= CAPACITY
  {
    match step
    case Speaking(c, a) => if !a.Enqueue? { RelayQueues.TalkTouchesNoQueue(s, c, a); }
    case Catching(c, a) => RelayQueues.CatchKeepsQueue(s, c, a);
    case Leaving(c, a) => RelayQueues.ExitKeepsQueue(s, c, a);
    case _ =>
  }

  /** No channel ever holds more than its capacity. */
  lemma ChannelsBounded(ss: seq<State>, steps: seq<Step>, n: nat)
    requires Execution(ss, steps) && n <= |steps|
    ensures Bounded(ss[n])
  {
    for k := 0 to n
      invariant Bounded(ss[k])
    {
      StepTaken(ss, steps, k);
      BroadcastStaysBounded(ss[k], steps[k], ss[k + 1]);
      var hub := ss[k + 1].hub;
      forall c | c in hub.conns ensures |hub.conns[c].send| <= CAPACITY {
        RelaySends.SendsAt(ss, steps, k, c);
      }
    }
  }

  /** The hub uses a closed channel: it sends to it, or it closes it again. */
  predicate UsesClosed(s: State, step: Step) {
    || (step.ByHub? && step.event.DeliverTo? && Closed(s, step.event.c))
    || (step == ByHub(FinishUnregister) && s.hubPc.Removing? && s.hubPc.c in s.hub.clients && Closed(s, s.hubPc.c))
  }

  lemma HubPanics(s: State, e: HubEvent)
    requires HubReady(s, e) && !s.panicked
    ensures HubStep(s, e).panicked <==> UsesClosed(s, ByHub(e))
  {
  }

  /** The program panics exactly when the hub uses a closed channel; it then takes no more steps. */
  lemma PanicsExactly(ss: seq<State>, steps: seq<Step>, i: nat)
    requires Execution(ss, steps) && i < |steps|
    ensures !ss[i].panicked
    ensures ss[i + 1].panicked <==> UsesClosed(ss[i], steps[i])
  {
    StepTaken(ss, steps, i);
    if RelayInvariant.TouchesNoRoom(steps[i]) {
      RelayInvariant.StepTouchesNoRoom(ss[i], steps[i], ss[i + 1]);
    } else if steps[i].ByHub? {
      HubPanics(ss[i], steps[i].event);
    }
  }
}
