/** The push-to-talk relay as a step relation.  Every connection runs its own read loop and write
    pump, and one dispatcher runs the hub.  A step is one mutex-protected section or one channel
    operation; between any two steps of one goroutine the others may take any number of steps. */
module Relay {
  import opened AudioBuffer
  import opened Voice
  import opened Hub
  import opened Wrappers

  /** Where the goroutine that serves a connection is. */
  datatype Pc =
    | Registering(room: RoomId)                              // about to send itself to h.register
    | Joining(room: RoomId)                                  // about to join the room of its URL
    | Reading                                                // in the read loop
    | Numbering(room: RoomId, audio: Bytes)                  // lock granted, chunk not yet numbered
    | Enqueueing(live: Live)                                 // about to send to h.broadcast
    | Snapshotting(room: RoomId, since: int)                 // membership checked, buffer not yet read
    | Replaying(room: RoomId, rest: seq<Message>)            // sending the snapshot, then the terminator
    | Exiting                                                // the read loop has ended
    | Releasing(rooms: set<RoomId>)                          // giving up the lock, room by room
    | Done                                                   // has sent itself to h.unregister

  datatype Conn = Conn(user: UserId, pc: Pc)

  /** Where the dispatcher is; FanningOut holds the read lock until `todo` is empty. */
  datatype HubPc =
    | Idle
    | Adding(c: ConnId)
    | Removing(c: ConnId)
    | Dispatching(live: Live)
    | FanningOut(live: Live, todo: set<ConnId>)

  /** A numbered chunk: as it is relayed, and as it is stored for replay. */
  datatype Numbered = Numbered(live: Live, stored: Message)

  /** The last four fields only record the past: every chunk numbered, every packet that entered
      the broadcast channel, whether a delivery ever met a full channel, whether a goroutine ever
      panicked (which ends the program). */
  datatype State = State(
    voice: Channels, buffers: map<RoomId, Buffer>, hub: HubState, hubPc: HubPc, broadcast: seq<Live>,
    conns: map<ConnId, Conn>,
    numbered: seq<Numbered>, enqueued: seq<Live>, overflowed: bool, panicked: bool)

  const INITIAL := State(map[], map[], EMPTY_HUB, Idle, [], map[], [], [], false, false)

  /** join_room and leave_room messages, and the join of the handshake. */
  datatype RoomAction = FirstJoin | Join(room: RoomId) | Leave(room: RoomId)

  /** What an audio message does, in order: the lock, the number, the broadcast. */
  datatype SpeakAction =
    | SpeakPtt(room: RoomId, audio: Bytes, decodes: bool, now: int)
    | SpeakOpen(room: RoomId, audio: Bytes, now: int)
    | Number(id: string, timestamp: int, now: int)
    | Enqueue

  /** What a request_replay message does: the membership check, the snapshot, one send at a time. */
  datatype ReplayAction = AskReplay(room: RoomId, since: int) | Snapshot | PushReplay

  /** The end of the read loop, and releaseVoice. */
  datatype ExitAction = Hangup | ReadRooms | ReleaseRoom(room: RoomId, now: int)

  /** The dispatcher.  It receives a registration or an unregistration from the connection c. */
  datatype HubEvent =
    | ReceiveRegister(c: ConnId) | FinishRegister
    | ReceiveUnregister(c: ConnId) | FinishUnregister
    | Dispatch | BeginFanOut | DeliverTo(c: ConnId) | FinishFanOut

  datatype Step =
    | Connect(c: ConnId, user: UserId, room: RoomId)
    | InRoom(c: ConnId, change: RoomAction)
    | Speaking(c: ConnId, speech: SpeakAction)
    | Catching(c: ConnId, replay: ReplayAction)
    | Leaving(c: ConnId, exit: ExitAction)
    | ByHub(event: HubEvent)
    | DrainOne(c: ConnId)
    | Sweep(room: RoomId, now: int)

  function BufferAt(s: State, room: RoomId): Buffer {
    if room in s.buffers then s.buffers[room] else EMPTY_BUFFER
  }

  predicate Known(s: State, c: ConnId) {
    c in s.conns && c in s.hub.conns
  }

  function SetPc(s: State, c: ConnId, pc: Pc): State
    requires c in s.conns
  {
    s.(conns := s.conns[c := s.conns[c].(pc := pc)])
  }

  predicate CanChange(s: State, c: ConnId, a: RoomAction)
    requires Known(s, c)
  {
    && !s.hubPc.FanningOut?
    && match a
       case FirstJoin => s.conns[c].pc.Joining?
       case _ => s.conns[c].pc.Reading?
  }

  function Change(s: State, c: ConnId, a: RoomAction): State
    requires Known(s, c) && CanChange(s, c, a)
  {
    match a
    case FirstJoin => SetPc(s, c, Reading).(hub := JoinRoom(s.hub, c, s.conns[c].pc.room))
    case Join(room) => s.(hub := JoinRoom(s.hub, c, room))
    case Leave(room) => s.(hub := LeaveRoom(s.hub, c, room))
  }

  /** A push-to-talk packet: a busy room drops it; otherwise it goes on to be numbered, unless its
      audio does not decode to a non-empty chunk. */
  function DoSpeakPtt(s: State, c: ConnId, room: RoomId, audio: Bytes, decodes: bool, now: int): State
    requires c in s.conns
  {
    var user := s.conns[c].user;
    var (voice, r) := Start(s.voice, user, room, now);
    if r != Ok then s
    else SetPc(s, c, if decodes && audio != [] then Numbering(room, audio)
                     else Enqueueing(Live(room, c, user, audio, true, 0, 0))).(voice := voice)
  }

  function NumberedBy(s: State, c: ConnId, id: string, timestamp: int): Numbered
    requires c in s.conns && s.conns[c].pc.Numbering?
  {
    var Conn(user, Numbering(room, audio)) := s.conns[c];
    var sequence := BufferAt(s, room).last + 1;
    Numbered(Live(room, c, user, audio, true, sequence, timestamp),
             Message(id, room, user, audio, sequence, timestamp, false))
  }

  function DoNumber(s: State, c: ConnId, id: string, timestamp: int, now: int): State
    requires c in s.conns && s.conns[c].pc.Numbering?
  {
    var Conn(user, Numbering(room, audio)) := s.conns[c];
    var n := NumberedBy(s, c, id, timestamp);
    SetPc(s, c, Enqueueing(n.live)).(
      buffers := s.buffers[room := AudioBuffer.Do(DEFAULT_BUFFER_CONFIG, BufferAt(s, room),
                                                  Added(id, room, user, audio, timestamp, now))],
      numbered := s.numbered + [n])
  }

  function SnapshotOf(s: State, c: ConnId): seq<Message>
    requires c in s.conns && s.conns[c].pc.Snapshotting?
  {
    Unplayed(BufferAt(s, s.conns[c].pc.room).msgs, s.conns[c].pc.since)
  }

  predicate CanSpeak(s: State, c: ConnId, a: SpeakAction)
    requires Known(s, c)
  {
    match a
    case SpeakPtt(_, _, _, _) => s.conns[c].pc.Reading?
    case SpeakOpen(_, _, _) => s.conns[c].pc.Reading?
    case Number(_, _, _) => s.conns[c].pc.Numbering?
    case Enqueue => s.conns[c].pc.Enqueueing? && |s.broadcast| < CAPACITY
  }

  function Speak(s: State, c: ConnId, a: SpeakAction): State
    requires Known(s, c) && CanSpeak(s, c, a)
  {
    match a
    case SpeakPtt(room, audio, decodes, now) => DoSpeakPtt(s, c, room, audio, decodes, now)
    case SpeakOpen(room, audio, now) =>
      var user := s.conns[c].user;
      SetPc(s, c, Enqueueing(Live(room, c, user, audio, false, 0, 0))).(voice := Stop(s.voice, user, room, now).0)
    case Number(id, timestamp, now) => DoNumber(s, c, id, timestamp, now)
    case Enqueue =>
      var live := s.conns[c].pc.live;
      SetPc(s, c, Reading).(broadcast := s.broadcast + [live], enqueued := s.enqueued + [live])
  }

  predicate CanCatch(s: State, c: ConnId, a: ReplayAction)
    requires Known(s, c)
  {
    match a
    case AskReplay(_, _) => s.conns[c].pc.Reading?
    case Snapshot => s.conns[c].pc.Snapshotting?
    case PushReplay => s.conns[c].pc.Replaying?
  }

  function Catch(s: State, c: ConnId, a: ReplayAction): State
    requires Known(s, c) && CanCatch(s, c, a)
  {
    match a
    case AskReplay(room, since) =>
      if room in s.hub.conns[c].rooms then SetPc(s, c, Snapshotting(room, since)) else s
    case Snapshot =>
      var msgs := SnapshotOf(s, c);
      SetPc(s, c, if msgs == [] then Reading else Replaying(s.conns[c].pc.room, msgs))
    case PushReplay =>
      var rest := s.conns[c].pc.rest;
      var (hub, ok) := SafeSend(s.hub, c, if rest == [] then ReplayEnd else ReplayPacket(rest[0]));
      SetPc(s, c, if !ok || rest == [] then Reading else Replaying(s.conns[c].pc.room, rest[1..])).(hub := hub)
  }

  predicate CanExit(s: State, c: ConnId, a: ExitAction)
    requires Known(s, c)
  {
    match a
    case Hangup => s.conns[c].pc.Reading?
    case ReadRooms => s.conns[c].pc.Exiting?
    case ReleaseRoom(room, _) => s.conns[c].pc.Releasing? && room in s.conns[c].pc.rooms
  }

  function Exit(s: State, c: ConnId, a: ExitAction): State
    requires Known(s, c) && CanExit(s, c, a)
  {
    match a
    case Hangup => SetPc(s, c, Exiting)
    case ReadRooms => SetPc(s, c, Releasing(s.hub.conns[c].rooms))
    case ReleaseRoom(room, now) =>
      SetPc(s, c, Releasing(s.conns[c].pc.rooms - {room})).(voice := Stop(s.voice, s.conns[c].user, room, now).0)
  }

  predicate HubReady(s: State, e: HubEvent) {
    match e
    case ReceiveRegister(c) => Known(s, c) && s.conns[c].pc.Registering? && s.hubPc.Idle?
    case FinishRegister => s.hubPc.Adding?
    case ReceiveUnregister(c) => Known(s, c) && s.conns[c].pc == Releasing({}) && s.hubPc.Idle?
    case FinishUnregister => s.hubPc.Removing? && Known(s, s.hubPc.c)
    case Dispatch => s.hubPc.Idle? && s.broadcast != []
    case BeginFanOut => s.hubPc.Dispatching?
    case DeliverTo(c) => s.hubPc.FanningOut? && c in s.hubPc.todo && Known(s, c)
    case FinishFanOut => s.hubPc.FanningOut? && s.hubPc.todo == {}
  }

  function HubStep(s: State, e: HubEvent): State
    requires HubReady(s, e)
  {
    match e
    case ReceiveRegister(c) => SetPc(s, c, Joining(s.conns[c].pc.room)).(hubPc := Adding(c))
    case FinishRegister => s.(hub := Register(s.hub, s.hubPc.c), hubPc := Idle)
    case ReceiveUnregister(c) => SetPc(s, c, Done).(hubPc := Removing(c))
    case FinishUnregister =>
      if UnregisterPanics(s.hub, s.hubPc.c) then s.(panicked := true)
      else s.(hub := Unregister(s.hub, s.hubPc.c), hubPc := Idle)
    case Dispatch => s.(hubPc := Dispatching(s.broadcast[0]), broadcast := s.broadcast[1..])
    case BeginFanOut =>
      s.(hubPc := FanningOut(s.hubPc.live, Members(s.hub, s.hubPc.live.room) - {s.hubPc.live.sender}))
    case DeliverTo(c) =>
      if DeliverPanics(s.hub, c) then s.(panicked := true)
      else s.(hub := Deliver(s.hub, c, s.hubPc.live), hubPc := FanningOut(s.hubPc.live, s.hubPc.todo - {c}),
              overflowed := s.overflowed || Full(s.hub, c))
    case FinishFanOut => s.(hubPc := Idle)
  }

  /** The handshake: an unidentified user is called "anonymous", and a room is required. */
  function DoConnect(s: State, c: ConnId, user: UserId, room: RoomId): State {
    s.(conns := s.conns[c := Conn(if user == "" then "anonymous" else user, Registering(room))],
       hub := AddConn(s.hub, c))
  }

  function DoSweep(s: State, room: RoomId, now: int): State {
    s.(buffers := s.buffers[room := AudioBuffer.Do(DEFAULT_BUFFER_CONFIG, BufferAt(s, room), Swept(now))])
  }

  predicate Enabled(s: State, step: Step) {
    && !s.panicked
    && match step
       case Connect(c, _, room) => c !in s.conns && room != ""
       case InRoom(c, a) => Known(s, c) && CanChange(s, c, a)
       case Speaking(c, a) => Known(s, c) && CanSpeak(s, c, a)
       case Catching(c, a) => Known(s, c) && CanCatch(s, c, a)
       case Leaving(c, a) => Known(s, c) && CanExit(s, c, a)
       case ByHub(e) => HubReady(s, e)
       case DrainOne(c) => Known(s, c)
       case Sweep(room, _) => room in s.buffers
  }

  function Apply(s: State, step: Step): State
    requires Enabled(s, step)
  {
    match step
    case Connect(c, user, room) => DoConnect(s, c, user, room)
    case InRoom(c, a) => Change(s, c, a)
    case Speaking(c, a) => Speak(s, c, a)
    case Catching(c, a) => Catch(s, c, a)
    case Leaving(c, a) => Exit(s, c, a)
    case ByHub(e) => HubStep(s, e)
    case DrainOne(c) => s.(hub := Drain(s.hub, c))
    case Sweep(room, now) => DoSweep(s, room, now)
  }

  // ---- Executions ----

  /** The outcome of a step, if it can be taken. */
  function Next(s: State, step: Step): Option<State> {
    if Enabled(s, step) then Some(Apply(s, step)) else None
  }

  /** The i-th step, by a name on which the quantifier in Execution can hang. */
  function StepAt(steps: seq<Step>, i: nat): Step
    requires i < |steps|
  {
    steps[i]
  }

  /** ss[i] is the state before steps[i]. */
  ghost predicate Path(ss: seq<State>, steps: seq<Step>) {
    && |ss| == |steps| + 1
    && forall i: nat {:trigger StepAt(steps, i)} :: i < |steps| ==> Next(ss[i], StepAt(steps, i)) == Some(ss[i + 1])
  }

  ghost predicate Execution(ss: seq<State>, steps: seq<Step>) {
    Path(ss, steps) && ss[0] == INITIAL
  }

  lemma StepTaken(ss: seq<State>, steps: seq<Step>, i: nat)
    requires Path(ss, steps) && i < |steps|
    ensures Next(ss[i], steps[i]) == Some(ss[i + 1])
  {
    assert StepAt(steps, i) == steps[i];
  }

  // ---- Time ----

  /** The clock readings of a step: none, or the first and the last of them. */
  datatype Reading = NoReading | Read(first: int, last: int)

  function ReadingOf(step: Step): Reading {
    match step
    case Speaking(_, SpeakPtt(_, _, _, now)) => Read(now, now)
    case Speaking(_, SpeakOpen(_, _, now)) => Read(now, now)
    case Speaking(_, Number(_, timestamp, now)) => Read(timestamp, now)
    case Leaving(_, ReleaseRoom(_, now)) => Read(now, now)
    case Sweep(_, now) => Read(now, now)
    case _ => NoReading
  }

  function ClockAfter(now: int, step: Step): int {
    match ReadingOf(step)
    case NoReading => now
    case Read(_, last) => last
  }

  /** The clock does not run backwards in this step. */
  predicate StepInTime(now: int, step: Step) {
    match ReadingOf(step)
    case NoReading => true
    case Read(first, last) => now <= first <= last
  }

  /** The latest reading after n steps of a path that begins at instant `start`. */
  function ClockAt(start: int, steps: seq<Step>, n: nat): int
    requires n <= |steps|
  {
    if n == 0 then start else ClockAfter(ClockAt(start, steps, n - 1), steps[n - 1])
  }

  ghost predicate InTime(start: int, steps: seq<Step>) {
    forall i: nat {:trigger StepAt(steps, i)} :: i < |steps| ==> StepInTime(ClockAt(start, steps, i), StepAt(steps, i))
  }

  lemma StepIsInTime(start: int, steps: seq<Step>, i: nat)
    requires InTime(start, steps) && i < |steps|
    ensures StepInTime(ClockAt(start, steps, i), steps[i])
  {
    assert StepAt(steps, i) == steps[i];
  }

  // ---- Connections ----

  /** The serving goroutine has not yet handed its connection back to the hub. */
  predicate Serving(s: State, c: ConnId) {
    c in s.conns && !s.conns[c].pc.Done?
  }

  /** No user has two connections at once. */
  ghost predicate OneConnectionPerUser(s: State) {
    forall c, d :: Serving(s, c) && Serving(s, d) && c != d ==> s.conns[c].user != s.conns[d].user
  }
}
