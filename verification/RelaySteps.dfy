/** What one step of the relay does to each fact of its state.  A fact is a switch: some steps turn it
    on, some turn it off, and every other step leaves it alone.  Here are the steps for the lock of a
    room, the membership of a room, the own list of a connection, the registration of a connection
    and the closing of its channel; and what one step does to the packets that a connection has been
    sent, to those that it has written to its socket, and to the place where its goroutine is. */
module RelaySteps {
  import opened Sequences
  import opened Voice
  import opened Hub
  import opened Wrappers
  import opened Relay
  import opened RelayConnections
  import opened RelayInvariant
  import RelayHolders
  import AudioBuffer

  // ---- The lock ----

  /** A push-to-talk packet of a connection of this user is accepted in this room. */
  predicate Takes(s: State, step: Step, user: UserId, room: RoomId) {
    && step.Speaking? && step.speech.SpeakPtt? && step.speech.room == room
    && step.c in s.conns && s.conns[step.c].user == user && CanTransmit(s.voice, user, room)
  }

  /** A connection of this user sends something else in this room, or visits it on its way out. */
  predicate GivesUp(s: State, step: Step, user: UserId, room: RoomId) {
    || (step.Speaking? && step.speech.SpeakOpen? && step.speech.room == room
        && step.c in s.conns && s.conns[step.c].user == user)
    || (step.Leaving? && step.exit.ReleaseRoom? && step.exit.room == room
        && step.c in s.conns && s.conns[step.c].user == user)
  }

  lemma LockStep(s: State, step: Step, s': State, user: UserId, room: RoomId)
    requires Next(s, step) == Some(s')
    ensures Holds(s'.voice, user, room)
            == (Takes(s, step, user, room) || (Holds(s.voice, user, room) && !GivesUp(s, step, user, room)))
  {
    if !RelayHolders.ActsIn(s, step, user, room) {
      RelayHolders.OthersKeepLock(s, step, s', user, room);
    }
  }

  // ---- Rooms ----

  /** A join_room message, or the join of the handshake. */
  predicate Enters(s: State, step: Step, c: ConnId, room: RoomId) {
    || step == InRoom(c, Join(room))
    || (step == InRoom(c, FirstJoin) && c in s.conns && s.conns[c].pc == Joining(room))
  }

  predicate Leaves(step: Step, c: ConnId, room: RoomId) {
    step == InRoom(c, Leave(room))
  }

  /** The hub processes the unregistration of c. */
  predicate Unregisters(s: State, step: Step, c: ConnId) {
    && step == ByHub(FinishUnregister) && s.hubPc == Removing(c)
    && c in s.hub.clients && c in s.hub.conns && !s.hub.conns[c].closed
  }

  /** A packet for this room meets c's channel full. */
  predicate Overflows(s: State, step: Step, c: ConnId, room: RoomId) {
    && step == ByHub(DeliverTo(c)) && s.hubPc.FanningOut? && s.hubPc.live.room == room
    && c in s.hub.conns && Full(s.hub, c) && !s.hub.conns[c].closed
  }

  predicate Lists(s: State, c: ConnId, room: RoomId) {
    c in s.hub.conns && room in s.hub.conns[c].rooms
  }

  predicate Closed(s: State, c: ConnId) {
    c in s.hub.conns && s.hub.conns[c].closed
  }

  predicate Registers(s: State, step: Step, c: ConnId) {
    step == ByHub(FinishRegister) && s.hubPc == Adding(c)
  }

  predicate OverflowsSomewhere(s: State, step: Step, c: ConnId) {
    s.hubPc.FanningOut? && Overflows(s, step, c, s.hubPc.live.room)
  }

  predicate Drops(s: State, step: Step, c: ConnId, room: RoomId) {
    Leaves(step, c, room) || Unregisters(s, step, c) || Overflows(s, step, c, room)
  }

  ghost predicate RoomFacts(s: State, step: Step, s': State, c: ConnId, room: RoomId) {
    && (c in Members(s'.hub, room))
       == (Enters(s, step, c, room) || (c in Members(s.hub, room) && !Drops(s, step, c, room)))
    && Lists(s', c, room) == (Enters(s, step, c, room) || (Lists(s, c, room) && !Leaves(step, c, room)))
  }

  ghost predicate ClientFacts(s: State, step: Step, s': State, c: ConnId) {
    && (c in s'.hub.clients) == (Registers(s, step, c) || (c in s.hub.clients && !Unregisters(s, step, c)))
    && Closed(s', c) == (Unregisters(s, step, c) || OverflowsSomewhere(s, step, c) || Closed(s, c))
  }

  /** What one step does to everything the hub knows of c and this room. */
  ghost predicate HubFacts(s: State, step: Step, s': State, c: ConnId, room: RoomId) {
    RoomFacts(s, step, s', c, room) && ClientFacts(s, step, s', c)
  }

  lemma SameFacts(s: State, step: Step, s': State, c: ConnId, room: RoomId)
    requires SameRooms(s.hub, s'.hub) && TouchesNoRoom(step)
    ensures HubFacts(s, step, s', c, room)
  {
    SameIndexes(s.hub, s'.hub);
  }

  lemma UntouchedFacts(s: State, step: Step, s': State, c: ConnId, room: RoomId)
    requires Next(s, step) == Some(s') && TouchesNoRoom(step)
    ensures HubFacts(s, step, s', c, room)
  {
    StepTouchesNoRoom(s, step, s');
    SameFacts(s, step, s', c, room);
  }

  lemma ConnectFacts(s: State, d: ConnId, user: UserId, r: RoomId, c: ConnId, room: RoomId)
    requires Sound(s) && d !in s.conns
    ensures HubFacts(s, Connect(d, user, r), DoConnect(s, d, user, r), c, room)
  {
    AddConnKeepsIndexes(s.hub, d);
  }

  lemma ChangeFacts(s: State, d: ConnId, a: RoomAction, c: ConnId, room: RoomId)
    requires Sound(s) && Known(s, d) && CanChange(s, d, a)
    ensures HubFacts(s, InRoom(d, a), Change(s, d, a), c, room)
  {
    match a
    case FirstJoin => JoinKeepsIndexes(s.hub, d, s.conns[d].pc.room);
    case Join(r) => JoinKeepsIndexes(s.hub, d, r);
    case Leave(r) => LeaveKeepsIndexes(s.hub, d, r);
  }

  lemma UnregisterRoomFacts(s: State, c: ConnId, room: RoomId)
    requires Sound(s) && HubReady(s, FinishUnregister)
    ensures RoomFacts(s, ByHub(FinishUnregister), HubStep(s, FinishUnregister), c, room)
  {
    if s.hubPc.c in s.hub.clients {
      UnregisterLeavesEveryRoom(s.hub, s.hubPc.c);
      Hub.UnregisterSendsNothing(s.hub, s.hubPc.c);
    }
  }

  lemma UnregisterClientFacts(s: State, c: ConnId)
    requires HubReady(s, FinishUnregister)
    ensures ClientFacts(s, ByHub(FinishUnregister), HubStep(s, FinishUnregister), c)
  {
  }

  lemma DeliverRoomFacts(s: State, d: ConnId, c: ConnId, room: RoomId)
    requires Sound(s) && HubReady(s, DeliverTo(d))
    ensures RoomFacts(s, ByHub(DeliverTo(d)), HubStep(s, DeliverTo(d)), c, room)
  {
    DeliverKeepsIndexes(s.hub, d, s.hubPc.live);
    DeliverKeepsLists(s.hub, d, s.hubPc.live);
  }

  lemma DeliverKeepsLists(h: HubState, c: ConnId, live: Live)
    requires c in h.conns
    ensures var h' := Deliver(h, c, live);
            && h'.conns.Keys == h.conns.Keys
            && (forall d :: d in h.conns ==> h'.conns[d].rooms == h.conns[d].rooms)
            && (Full(h, c) ==> c !in Members(h', live.room))
  {
  }

  lemma DeliverClientFacts(s: State, d: ConnId, c: ConnId)
    requires HubReady(s, DeliverTo(d))
    ensures ClientFacts(s, ByHub(DeliverTo(d)), HubStep(s, DeliverTo(d)), c)
  {
  }

  lemma OtherHubFacts(s: State, e: HubEvent, c: ConnId, room: RoomId)
    requires Sound(s) && HubReady(s, e) && !e.FinishUnregister? && !e.DeliverTo?
    ensures HubFacts(s, ByHub(e), HubStep(s, e), c, room)
  {
    if e.FinishRegister? {
      RegisterKeepsIndexes(s.hub, s.hubPc.c);
    }
  }

  lemma StepFacts(s: State, step: Step, s': State, c: ConnId, room: RoomId)
    requires Next(s, step) == Some(s') && Sound(s)
    ensures HubFacts(s, step, s', c, room)
  {
    if TouchesNoRoom(step) {
      UntouchedFacts(s, step, s', c, room);
    } else {
      match step
      case Connect(d, user, r) => ConnectFacts(s, d, user, r, c, room);
      case InRoom(d, a) => ChangeFacts(s, d, a, c, room);
      case ByHub(DeliverTo(d)) => DeliverRoomFacts(s, d, c, room); DeliverClientFacts(s, d, c);
      case ByHub(FinishUnregister) => UnregisterRoomFacts(s, c, room); UnregisterClientFacts(s, c);
      case ByHub(e) => OtherHubFacts(s, e, c, room);
    }
  }

  // ---- Send channels ----

  /** The packet that this step puts into c's send channel, if any: the hub's, or the replay's. */
  function SentTo(s: State, step: Step, c: ConnId): seq<Packet> {
    if c !in s.hub.conns || s.hub.conns[c].closed || Full(s.hub, c) then []
    else if step == ByHub(DeliverTo(c)) && s.hubPc.FanningOut? then [LivePacket(s.hubPc.live)]
    else if step == Catching(c, PushReplay) && c in s.conns && s.conns[c].pc.Replaying? then
      [if s.conns[c].pc.rest == [] then ReplayEnd else ReplayPacket(s.conns[c].pc.rest[0])]
    else []
  }

  /** Everything that was put into c's channel and is no longer in it. */
  function Written(s: State, c: ConnId): seq<Packet>
    requires c in s.hub.conns && |s.hub.conns[c].send| <= |s.hub.conns[c].received|
  {
    var q := s.hub.conns[c];
    q.received[..|q.received| - |q.send|]
  }

  /** What is in c's channel is the end of what was put into it. */
  predicate QueueIsTail(s: State, c: ConnId) {
    c in s.hub.conns ==>
      var q := s.hub.conns[c];
      |q.send| <= |q.received| && q.send == q.received[|q.received| - |q.send|..]
  }

  ghost predicate SendFacts(s: State, step: Step, s': State, c: ConnId) {
    if c !in s.hub.conns then
      c in s'.hub.conns ==> s'.hub.conns[c].send == [] && s'.hub.conns[c].received == []
    else
      && c in s'.hub.conns
      && s'.hub.conns[c].received == s.hub.conns[c].received + SentTo(s, step, c)
      && s'.hub.conns[c].send
         == (if step == DrainOne(c) && s.hub.conns[c].send != [] then s.hub.conns[c].send[1..] else s.hub.conns[c].send)
            + SentTo(s, step, c)
  }

  lemma ChangeSends(s: State, d: ConnId, a: RoomAction, c: ConnId)
    requires Known(s, d) && CanChange(s, d, a)
    ensures SendFacts(s, InRoom(d, a), Change(s, d, a), c)
  {
  }

  lemma CatchSends(s: State, d: ConnId, a: ReplayAction, c: ConnId)
    requires Known(s, d) && CanCatch(s, d, a)
    ensures SendFacts(s, Catching(d, a), Catch(s, d, a), c)
  {
  }

  lemma UnregisterSends(s: State, c: ConnId)
    requires HubReady(s, FinishUnregister)
    ensures SendFacts(s, ByHub(FinishUnregister), HubStep(s, FinishUnregister), c)
  {
  }

  lemma DeliverSends(s: State, d: ConnId, c: ConnId)
    requires HubReady(s, DeliverTo(d))
    ensures SendFacts(s, ByHub(DeliverTo(d)), HubStep(s, DeliverTo(d)), c)
  {
  }

  lemma HubSends(s: State, e: HubEvent, c: ConnId)
    requires HubReady(s, e)
    ensures SendFacts(s, ByHub(e), HubStep(s, e), c)
  {
    match e
    case FinishUnregister => UnregisterSends(s, c);
    case DeliverTo(d) => DeliverSends(s, d, c);
    case _ =>
  }

  lemma SpeakSends(s: State, d: ConnId, a: SpeakAction, c: ConnId)
    requires Known(s, d) && CanSpeak(s, d, a)
    ensures SendFacts(s, Speaking(d, a), Speak(s, d, a), c)
  {
  }

  lemma ConnectSends(s: State, d: ConnId, user: UserId, room: RoomId, c: ConnId)
    requires d !in s.conns && s.conns.Keys == s.hub.conns.Keys
    ensures SendFacts(s, Connect(d, user, room), DoConnect(s, d, user, room), c)
  {
  }

  lemma LeavingSends(s: State, d: ConnId, a: ExitAction, c: ConnId)
    requires Known(s, d) && CanExit(s, d, a)
    ensures SendFacts(s, Leaving(d, a), Exit(s, d, a), c)
  {
  }

  lemma StepSends(s: State, step: Step, s': State, c: ConnId)
    requires Next(s, step) == Some(s') && s.conns.Keys == s.hub.conns.Keys
    ensures SendFacts(s, step, s', c)
  {
    match step
    case InRoom(d, a) => ChangeSends(s, d, a, c);
    case Speaking(d, a) => SpeakSends(s, d, a, c);
    case Catching(d, a) => CatchSends(s, d, a, c);
    case ByHub(e) => HubSends(s, e, c);
    case Connect(d, user, room) => ConnectSends(s, d, user, room, c);
    case Leaving(d, a) => LeavingSends(s, d, a, c);
    case _ =>
  }

  // ---- The dispatcher ----

  /** While it fans out, only its own deliveries change what is left to do. */
  ghost predicate FanningFacts(s: State, step: Step, s': State) {
    s.hubPc.FanningOut? && step != ByHub(FinishFanOut) && !s'.panicked ==>
      s'.hubPc == FanningOut(s.hubPc.live, s.hubPc.todo - Visited(step))
  }

  function Visited(step: Step): set<ConnId> {
    if step.ByHub? && step.event.DeliverTo? then {step.event.c} else {}
  }

  lemma CatchKeepsDispatcher(s: State, c: ConnId, a: ReplayAction)
    requires Known(s, c) && CanCatch(s, c, a)
    ensures Catch(s, c, a).hubPc == s.hubPc
  {
  }

  lemma ExitKeepsDispatcher(s: State, c: ConnId, a: ExitAction)
    requires Known(s, c) && CanExit(s, c, a)
    ensures Exit(s, c, a).hubPc == s.hubPc
  {
  }

  lemma SpeakKeepsDispatcher(s: State, c: ConnId, a: SpeakAction)
    requires Known(s, c) && CanSpeak(s, c, a)
    ensures Speak(s, c, a).hubPc == s.hubPc
  {
  }

  lemma StepFans(s: State, step: Step, s': State)
    requires Next(s, step) == Some(s')
    ensures FanningFacts(s, step, s')
  {
    match step
    case Speaking(c, a) => SpeakKeepsDispatcher(s, c, a);
    case Catching(c, a) => CatchKeepsDispatcher(s, c, a);
    case Leaving(c, a) => ExitKeepsDispatcher(s, c, a);
    case _ =>
  }

  // ---- Replays ----

  predicate Asks(s: State, step: Step, c: ConnId, room: RoomId, since: int) {
    step == Catching(c, AskReplay(room, since)) && Lists(s, c, room)
  }

  /** c comes to take a snapshot only by asking, and to replay only by its snapshot. */
  ghost predicate ReplayFacts(s: State, step: Step, s': State, c: ConnId) {
    c in s'.conns ==>
      var pc' := s'.conns[c].pc;
      && (pc'.Snapshotting? ==> (c in s.conns && s.conns[c].pc == pc') || Asks(s, step, c, pc'.room, pc'.since))
      && (pc'.Replaying? ==>
            && c in s.conns
            && var pc := s.conns[c].pc;
               || pc == pc'
               || (pc.Snapshotting? && pc'.room == pc.room
                   && pc'.rest == AudioBuffer.Unplayed(BufferAt(s, pc.room).msgs, pc.since))
               || (pc.Replaying? && pc'.room == pc.room && pc.rest != [] && pc'.rest == pc.rest[1..]))
  }

  lemma CatchReplays(s: State, d: ConnId, a: ReplayAction, c: ConnId)
    requires Known(s, d) && CanCatch(s, d, a)
    ensures ReplayFacts(s, Catching(d, a), Catch(s, d, a), c)
  {
  }

  lemma SpeakReplaysNothing(s: State, d: ConnId, a: SpeakAction, c: ConnId)
    requires Known(s, d) && CanSpeak(s, d, a)
    ensures ReplayFacts(s, Speaking(d, a), Speak(s, d, a), c)
  {
  }

  lemma HubReplaysNothing(s: State, e: HubEvent, c: ConnId)
    requires HubReady(s, e)
    ensures ReplayFacts(s, ByHub(e), HubStep(s, e), c)
  {
  }

  lemma StepReplays(s: State, step: Step, s': State, c: ConnId)
    requires Next(s, step) == Some(s')
    ensures ReplayFacts(s, step, s', c)
  {
    match step
    case Speaking(d, a) => SpeakReplaysNothing(s, d, a, c);
    case Catching(d, a) => CatchReplays(s, d, a, c);
    case ByHub(e) => HubReplaysNothing(s, e, c);
    case _ =>
  }

  // ---- Where the goroutine of a connection is ----

  predicate BeforeReading(pc: Pc) {
    pc.Registering? || pc.Joining?
  }

  /** c visits this room on its way out. */
  predicate Visits(step: Step, c: ConnId, room: RoomId) {
    step.Leaving? && step.c == c && step.exit.ReleaseRoom? && step.exit.room == room
  }

  /** How c comes into being, how it gets past its handshake, and how it leaves. */
  ghost predicate FlowFacts(s: State, step: Step, s': State, c: ConnId) {
    c in s'.conns ==>
      var Conn(user', pc') := s'.conns[c];
      if c !in s.conns then
        step.Connect? && step.c == c && pc' == Registering(step.room)
        && user' == if step.user == "" then "anonymous" else step.user
      else
        var Conn(user, pc) := s.conns[c];
        && user' == user
        && (pc'.Registering? ==> pc' == pc)
        && (pc'.Joining? ==> pc' == pc || pc == Registering(pc'.room))
        && (BeforeReading(pc) && !BeforeReading(pc') ==> step == InRoom(c, FirstJoin))
        && (pc'.Releasing? ==>
              || pc' == pc
              || (step == Leaving(c, ReadRooms) && c in s.hub.conns && pc'.rooms == s.hub.conns[c].rooms)
              || (pc.Releasing? && pc'.rooms < pc.rooms
                  && forall room :: room in pc.rooms - pc'.rooms ==> Visits(step, c, room)))
        && (pc'.Done? ==> pc.Done? || pc == Releasing({}))
  }

  lemma CatchFlows(s: State, d: ConnId, a: ReplayAction, c: ConnId)
    requires Known(s, d) && CanCatch(s, d, a)
    ensures FlowFacts(s, Catching(d, a), Catch(s, d, a), c)
  {
  }

  lemma SpeakFlows(s: State, d: ConnId, a: SpeakAction, c: ConnId)
    requires Known(s, d) && CanSpeak(s, d, a)
    ensures FlowFacts(s, Speaking(d, a), Speak(s, d, a), c)
  {
  }

  lemma ExitFlows(s: State, d: ConnId, a: ExitAction, c: ConnId)
    requires Known(s, d) && CanExit(s, d, a)
    ensures FlowFacts(s, Leaving(d, a), Exit(s, d, a), c)
  {
  }

  lemma HubFlows(s: State, e: HubEvent, c: ConnId)
    requires HubReady(s, e)
    ensures FlowFacts(s, ByHub(e), HubStep(s, e), c)
  {
  }

  lemma StepFlows(s: State, step: Step, s': State, c: ConnId)
    requires Next(s, step) == Some(s')
    ensures FlowFacts(s, step, s', c)
  {
    match step
    case Speaking(d, a) => SpeakFlows(s, d, a, c);
    case Catching(d, a) => CatchFlows(s, d, a, c);
    case Leaving(d, a) => ExitFlows(s, d, a, c);
    case ByHub(e) => HubFlows(s, e, c);
    case _ =>
  }
}
