/** Executions from the initial state that reach what the theorems exclude or require: two
    connections of one user that break the order, a speaker who leaves a room locked, a slow listener
    that ends the program, and a member that is replayed what it asks for. */
module RelayScenarios {
  import opened AudioBuffer
  import opened Voice
  import opened Hub
  import opened Relay
  import opened RelayConnections
  import RelayQueues
  import RelayExclusion
  import RelayInvariant
  import Sequences

  // ---- A connection arrives ----

  /** s with one more connection, registered, in its room and in its read loop. */
  function Arrived(s: State, c: ConnId, user: UserId, room: RoomId): State {
    s.(conns := s.conns[c := Conn(user, Reading)],
       hub := JoinRoom(Register(AddConn(s.hub, c), c), c, room),
       hubPc := Idle)
  }

  lemma Arrives(s: State, c: ConnId, user: UserId, room: RoomId, now: int) returns (ss: seq<State>, steps: seq<Step>)
    requires !s.panicked && c !in s.conns && s.hubPc.Idle? && user != "" && room != ""
    ensures Leads(s, Arrived(s, c, user, room), now, ss, steps)
  {
    var s1 := DoConnect(s, c, user, room);
    var s2 := HubStep(s1, ReceiveRegister(c));
    var s3 := HubStep(s2, FinishRegister);
    var s4 := Change(s3, c, FirstJoin);
    var ss1, steps1 := TwoSteps(s, Connect(c, user, room), s1, ByHub(ReceiveRegister(c)), s2, now);
    var ss2, steps2 := TwoSteps(s2, ByHub(FinishRegister), s3, InRoom(c, FirstJoin), s4, now);
    InstantJoins(ss1, steps1, ss2, steps2, s, s2, s4, now);
    ss, steps := ss1 + ss2[1..], steps1 + steps2;
    var s' := Arrived(s, c, user, room);
    assert s4.conns == s'.conns;
    assert s4.hub.conns == s'.hub.conns && s4.hub.rooms == s'.hub.rooms;
  }

  /** Two connections in one room. */
  lemma BothArrive(c: ConnId, user: UserId, d: ConnId, user': UserId, room: RoomId, now: int)
    returns (s: State, ss: seq<State>, steps: seq<Step>)
    requires c != d && user != "" && user' != "" && room != ""
    ensures s == Arrived(Arrived(INITIAL, c, user, room), d, user', room)
    ensures Leads(INITIAL, s, now, ss, steps)
  {
    var s1 := Arrived(INITIAL, c, user, room);
    s := Arrived(s1, d, user', room);
    var ss1, steps1 := Arrives(INITIAL, c, user, room, now);
    var ss2, steps2 := Arrives(s1, d, user', room, now);
    InstantJoins(ss1, steps1, ss2, steps2, INITIAL, s1, s, now);
    ss, steps := ss1 + ss2[1..], steps1 + steps2;
  }

  // ---- Two connections of one user ----

  /** The program can reach a state from which two connections of one user break mutual exclusion
      and the order of the numbers. */
  lemma OrderBreaks(user: UserId, room: RoomId, now: int)
    returns (s: State, ss: seq<State>, steps: seq<Step>)
    requires user != "" && room != ""
    ensures Execution(ss, steps) && InTime(now, steps) && s == ss[|steps|]
    ensures !s.panicked && RelayExclusion.AllReading(s) && RelayQueues.EnqueuedInOrder(s)
    ensures !RelayExclusion.AlwaysAlone(s, now) && !RelayExclusion.AlwaysInOrderFrom(s, now)
  {
    s, ss, steps := BothArrive(0, user, 1, user, room, now);
    InstantInTime(now, steps);
    assert Serving(s, 0) && Serving(s, 1);
    RelayExclusion.MutualExclusionExactly(s, now);
    RelayExclusion.OrderExactly(s, now);
  }

  // ---- A connection ends ----

  lemma StopsReading(s: State, c: ConnId, now: int) returns (s': State, ss: seq<State>, steps: seq<Step>)
    requires !s.panicked && Known(s, c) && s.conns[c].pc.Reading?
    ensures Leads(s, s', now, ss, steps) && NoConnect(steps) && c in s.conns
    ensures s' == SetPc(s, c, Releasing(s.hub.conns[c].rooms))
  {
    var s1 := Exit(s, c, Hangup);
    s' := Exit(s1, c, ReadRooms);
    ss, steps := TwoSteps(s, Leaving(c, Hangup), s1, Leaving(c, ReadRooms), s', now);
  }

  /** The exit actions run to the end; rooms outside client.rooms keep their lock. */
  lemma {:induction false} ReleasesAll(s: State, c: ConnId, now: int)
    returns (s': State, ss: seq<State>, steps: seq<Step>)
    requires !s.panicked && Known(s, c) && s.conns[c].pc.Releasing?
    ensures Leads(s, s', now, ss, steps) && NoConnect(steps)
    ensures s'.hub == s.hub && s'.hubPc == s.hubPc && !s'.panicked && Known(s', c)
    ensures s'.conns == s.conns[c := s.conns[c].(pc := Releasing({}))]
    ensures forall user, room :: room !in s.conns[c].pc.rooms ==>
              Holds(s'.voice, user, room) == Holds(s.voice, user, room)
    decreases s.conns[c].pc.rooms
  {
    if room :| room in s.conns[c].pc.rooms {
      var s1 := Exit(s, c, ReleaseRoom(room, now));
      var ss1, steps1 := OneStep(s, Leaving(c, ReleaseRoom(room, now)), s1, now);
      var ss2, steps2;
      s', ss2, steps2 := ReleasesAll(s1, c, now);
      InstantJoins(ss1, steps1, ss2, steps2, s, s1, s', now);
      ss, steps := ss1 + ss2[1..], steps1 + steps2;
    } else {
      s', ss, steps := s, [s], [];
      assert s.conns[c].pc.rooms == {};
      assert s.conns[c] == s.conns[c].(pc := Releasing({}));
    }
  }

  lemma HangsUp(s: State, c: ConnId, now: int) returns (s': State, ss: seq<State>, steps: seq<Step>)
    requires !s.panicked && Known(s, c) && s.conns[c].pc.Reading?
    ensures Leads(s, s', now, ss, steps) && NoConnect(steps)
    ensures s'.hub == s.hub && s'.hubPc == s.hubPc && !s'.panicked && Known(s', c)
    ensures s'.conns == s.conns[c := s.conns[c].(pc := Releasing({}))]
    ensures forall user, room :: room !in s.hub.conns[c].rooms ==>
              Holds(s'.voice, user, room) == Holds(s.voice, user, room)
  {
    var s1, ss1, steps1 := StopsReading(s, c, now);
    var ss2, steps2;
    s', ss2, steps2 := ReleasesAll(s1, c, now);
    InstantJoins(ss1, steps1, ss2, steps2, s, s1, s', now);
    ss, steps := ss1 + ss2[1..], steps1 + steps2;
  }

  // ---- A speaker who never joined ----

  /** A connection takes the lock of a room it is not in. */
  lemma SpeaksElsewhere(s: State, c: ConnId, room: RoomId, now: int)
    returns (s': State, ss: seq<State>, steps: seq<Step>)
    requires !s.panicked && Known(s, c) && s.conns[c].pc.Reading?
    requires CanTransmit(s.voice, s.conns[c].user, room) && |s.broadcast| < CAPACITY
    ensures Leads(s, s', now, ss, steps) && NoConnect(steps)
    ensures s'.conns == s.conns && s'.hub == s.hub && !s'.panicked && Holds(s'.voice, s.conns[c].user, room)
  {
    var say := SpeakPtt(room, [0], false, now);
    var s1 := Speak(s, c, say);
    s' := Speak(s1, c, SpeakAction.Enqueue);
    ss, steps := TwoSteps(s, Speaking(c, say), s1, Speaking(c, SpeakAction.Enqueue), s', now);
    assert s'.conns == s.conns;
  }

  /** The program can reach a state in which a user has gone, with all exit actions run, and still
      holds a room that it spoke in and never joined. */
  lemma LockLeaks(user: UserId, joined: RoomId, room: RoomId, now: int)
    returns (s: State, ss: seq<State>, steps: seq<Step>)
    requires user != "" && joined != "" && room != joined
    ensures Execution(ss, steps) && InTime(now, steps) && s == ss[|steps|]
    ensures s.conns == map[0 := Conn(user, Releasing({}))] && Holds(s.voice, user, room)
  {
    var s1, s2, ss2, steps2, ss3, steps3;
    s1 := Arrived(INITIAL, 0, user, joined);
    ss, steps := Arrives(INITIAL, 0, user, joined, now);
    s2, ss2, steps2 := SpeaksElsewhere(s1, 0, room, now);
    s, ss3, steps3 := HangsUp(s2, 0, now);
    InstantJoins(ss, steps, ss2, steps2, INITIAL, s1, s2, now);
    ss, steps := ss + ss2[1..], steps + steps2;
    InstantJoins(ss, steps, ss3, steps3, INITIAL, s2, s, now);
    ss, steps := ss + ss3[1..], steps + steps3;
    InstantInTime(now, steps);
  }

  // ---- A listener that never drains its channel ----

  const SPEAKER: ConnId := 0
  const LISTENER: ConnId := 1

  /** A speaker and a listener in one room; n packets wait in the listener's channel. */
  predicate Listening(s: State, room: RoomId, n: nat) {
    && !s.panicked && Known(s, SPEAKER) && Known(s, LISTENER)
    && s.conns[LISTENER].pc.Reading?
    && LISTENER in s.hub.clients && Members(s.hub, room) == {SPEAKER, LISTENER}
    && !s.hub.conns[LISTENER].closed
    && |s.hub.conns[LISTENER].send| == n
  }

  /** Nothing is on its way. */
  predicate Quiet(s: State, room: RoomId, n: nat) {
    Listening(s, room, n) && s.conns[SPEAKER].pc.Reading? && s.hubPc.Idle? && s.broadcast == []
  }

  /** The dispatcher is about to deliver to the listener, and only to it. */
  predicate Delivering(s: State, room: RoomId, n: nat) {
    && Listening(s, room, n) && s.conns[SPEAKER].pc.Reading? && s.broadcast == []
    && s.hubPc.FanningOut? && s.hubPc.todo == {LISTENER} && s.hubPc.live.room == room
  }

  /** The packet is in the broadcast channel. */
  predicate Said(s: State, room: RoomId, n: nat) {
    && Listening(s, room, n) && s.conns[SPEAKER].pc.Reading? && s.hubPc.Idle?
    && |s.broadcast| == 1 && s.broadcast[0].room == room && s.broadcast[0].sender == SPEAKER
  }

  lemma SpeakerSpeaks(s: State, room: RoomId, n: nat, now: int)
    returns (s': State, ss: seq<State>, steps: seq<Step>)
    requires Quiet(s, room, n)
    ensures Leads(s, s', now, ss, steps) && Said(s', room, n)
  {
    var say := SpeakOpen(room, [0], now);
    var s1 := Speak(s, SPEAKER, say);
    s' := Speak(s1, SPEAKER, SpeakAction.Enqueue);
    ss, steps := TwoSteps(s, Speaking(SPEAKER, say), s1, Speaking(SPEAKER, SpeakAction.Enqueue), s', now);
  }

  lemma HubTakes(s: State, room: RoomId, n: nat, now: int)
    returns (s': State, ss: seq<State>, steps: seq<Step>)
    requires Said(s, room, n)
    ensures Leads(s, s', now, ss, steps) && Delivering(s', room, n)
  {
    var s1 := HubStep(s, Dispatch);
    s' := HubStep(s1, BeginFanOut);
    ss, steps := TwoSteps(s, ByHub(Dispatch), s1, ByHub(BeginFanOut), s', now);
  }

  /** The speaker says something, and the dispatcher takes it. */
  lemma SaysSomething(s: State, room: RoomId, n: nat, now: int)
    returns (s': State, ss: seq<State>, steps: seq<Step>)
    requires Quiet(s, room, n)
    ensures Leads(s, s', now, ss, steps) && Delivering(s', room, n)
  {
    var s1, ss1, steps1 := SpeakerSpeaks(s, room, n, now);
    var ss2, steps2;
    s', ss2, steps2 := HubTakes(s1, room, n, now);
    InstantJoins(ss1, steps1, ss2, steps2, s, s1, s', now);
    ss, steps := ss1 + ss2[1..], steps1 + steps2;
  }

  /** One packet more. */
  lemma OneMore(s: State, room: RoomId, n: nat, now: int) returns (s': State, ss: seq<State>, steps: seq<Step>)
    requires Quiet(s, room, n) && n < CAPACITY
    ensures Leads(s, s', now, ss, steps) && Quiet(s', room, n + 1)
  {
    var s1, ss1, steps1 := SaysSomething(s, room, n, now);
    var s2 := HubStep(s1, DeliverTo(LISTENER));
    s' := HubStep(s2, FinishFanOut);
    var ss2, steps2 := TwoSteps(s1, ByHub(DeliverTo(LISTENER)), s2, ByHub(FinishFanOut), s', now);
    InstantJoins(ss1, steps1, ss2, steps2, s, s1, s', now);
    ss, steps := ss1 + ss2[1..], steps1 + steps2;
  }

  lemma {:induction false} Flood(s: State, room: RoomId, n: nat, now: int)
    returns (s': State, ss: seq<State>, steps: seq<Step>)
    requires Quiet(s, room, 0) && n <= CAPACITY
    ensures Leads(s, s', now, ss, steps) && Quiet(s', room, n)
  {
    if n == 0 {
      s', ss, steps := s, [s], [];
    } else {
      var s1, ss1, steps1 := Flood(s, room, n - 1, now);
      var ss2, steps2;
      s', ss2, steps2 := OneMore(s1, room, n - 1, now);
      InstantJoins(ss1, steps1, ss2, steps2, s, s1, s', now);
      ss, steps := ss1 + ss2[1..], steps1 + steps2;
    }
  }

  /** With a full channel the next packet closes it, and its owner stays registered. */
  lemma Overflows(s: State, room: RoomId, now: int) returns (s': State, ss: seq<State>, steps: seq<Step>)
    requires Quiet(s, room, CAPACITY)
    ensures Leads(s, s', now, ss, steps) && RelayInvariant.Doomed(s', LISTENER)
    ensures !s'.panicked && s'.hubPc.Idle? && Known(s', LISTENER)
    ensures s'.conns[LISTENER].pc.Reading?
  {
    var s1, ss1, steps1 := SaysSomething(s, room, CAPACITY, now);
    var s2 := HubStep(s1, DeliverTo(LISTENER));
    s' := HubStep(s2, FinishFanOut);
    var ss2, steps2 := TwoSteps(s1, ByHub(DeliverTo(LISTENER)), s2, ByHub(FinishFanOut), s', now);
    InstantJoins(ss1, steps1, ss2, steps2, s, s1, s', now);
    ss, steps := ss1 + ss2[1..], steps1 + steps2;
  }

  /** When it has hung up, the hub closes the channel again. */
  lemma Unregisters(s: State, now: int) returns (s': State, ss: seq<State>, steps: seq<Step>)
    requires RelayInvariant.Doomed(s, LISTENER) && !s.panicked && s.hubPc.Idle? && Known(s, LISTENER)
    requires s.conns[LISTENER].pc == Releasing({})
    ensures Leads(s, s', now, ss, steps) && s'.panicked
  {
    var s1 := HubStep(s, ReceiveUnregister(LISTENER));
    s' := HubStep(s1, FinishUnregister);
    ss, steps := TwoSteps(s, ByHub(ReceiveUnregister(LISTENER)), s1, ByHub(FinishUnregister), s', now);
  }

  /** One listener that never drains ends the program: some execution overflows its channel, and
      panics when it disconnects. */
  lemma SlowListenerEndsTheProgram(room: RoomId, now: int) returns (ss: seq<State>, steps: seq<Step>)
    requires room != ""
    ensures Execution(ss, steps) && InTime(now, steps) && ss[|steps|].panicked
  {
    var s1, s2, s3, s4, s5, ss1, steps1, ss2, steps2, ss3, steps3, ss4, steps4, ss5, steps5;
    s1, ss1, steps1 := BothArrive(SPEAKER, "speaker", LISTENER, "listener", room, now);
    s2, ss2, steps2 := Flood(s1, room, CAPACITY, now);
    s3, ss3, steps3 := Overflows(s2, room, now);
    s4, ss4, steps4 := HangsUp(s3, LISTENER, now);
    s5, ss5, steps5 := Unregisters(s4, now);
    InstantJoins(ss1, steps1, ss2, steps2, INITIAL, s1, s2, now);
    ss, steps := ss1 + ss2[1..], steps1 + steps2;
    InstantJoins(ss, steps, ss3, steps3, INITIAL, s2, s3, now);
    ss, steps := ss + ss3[1..], steps + steps3;
    InstantJoins(ss, steps, ss4, steps4, INITIAL, s3, s4, now);
    ss, steps := ss + ss4[1..], steps + steps4;
    InstantJoins(ss, steps, ss5, steps5, INITIAL, s4, s5, now);
    ss, steps := ss + ss5[1..], steps + steps5;
    InstantInTime(now, steps);
  }

  // ---- A member that asks for a replay ----

  /** The first chunk of a room, by this user. */
  function FirstChunk(id: string, user: UserId, room: RoomId, audio: Bytes, now: int): Message {
    Message(id, room, user, audio, 1, now, false)
  }

  lemma OneIsKept(m: Message)
    ensures Clean(DEFAULT_BUFFER_CONFIG, [m], m.timestamp) == [m]
    ensures m.sequence > 0 && !m.isReplayed ==> Unplayed([m], 0) == [m]
  {
    Sequences.FilterSuffix([m], YoungerThan(m.timestamp - DEFAULT_BUFFER_CONFIG.maxDuration), 0);
    if m.sequence > 0 && !m.isReplayed {
      Sequences.FilterSuffix([m], Wanted(0), 0);
    }
  }

  /** A connection speaks into a room in which nothing was said before. */
  lemma SpeaksFirst(s: State, c: ConnId, room: RoomId, audio: Bytes, id: string, now: int)
    returns (s': State, ss: seq<State>, steps: seq<Step>)
    requires !s.panicked && Known(s, c) && s.conns[c].pc.Reading?
    requires room !in s.voice && room !in s.buffers && |s.broadcast| < CAPACITY && audio != []
    ensures Leads(s, s', now, ss, steps) && !s'.panicked && s'.conns == s.conns && s'.hub == s.hub
    ensures BufferAt(s', room).msgs == [FirstChunk(id, s.conns[c].user, room, audio, now)]
  {
    var say, number := SpeakPtt(room, audio, true, now), Number(id, now, now);
    var s1 := Speak(s, c, say);
    var s2 := DoNumber(s1, c, id, now, now);
    s' := Speak(s2, c, SpeakAction.Enqueue);
    var m := FirstChunk(id, s.conns[c].user, room, audio, now);
    OneIsKept(m);
    assert BufferAt(s1, room).msgs + [m] == [m];
    var ss1, steps1 := TwoSteps(s, Speaking(c, say), s1, Speaking(c, number), s2, now);
    var ss2, steps2 := OneStep(s2, Speaking(c, SpeakAction.Enqueue), s', now);
    InstantJoins(ss1, steps1, ss2, steps2, s, s2, s', now);
    ss, steps := ss1 + ss2[1..], steps1 + steps2;
    assert s'.conns == s.conns;
  }

  lemma GetsIt(s: State, c: ConnId, room: RoomId, m: Message, now: int)
    returns (s': State, ss: seq<State>, steps: seq<Step>)
    requires !s.panicked && Known(s, c) && s.conns[c].pc == Replaying(room, [m])
    requires !s.hub.conns[c].closed && s.hub.conns[c].send == [] && s.hub.conns[c].received == []
    ensures Leads(s, s', now, ss, steps)
    ensures Known(s', c) && s'.conns[c].pc == Reading && s'.hub.conns[c].received == [ReplayPacket(m), ReplayEnd]
  {
    var s1 := Catch(s, c, PushReplay);
    s' := Catch(s1, c, PushReplay);
    ss, steps := TwoSteps(s, Catching(c, PushReplay), s1, Catching(c, PushReplay), s', now);
  }

  /** A connection asks for everything, in a room that it lists and in which one chunk is stored. */
  lemma AsksAndGets(s: State, c: ConnId, room: RoomId, m: Message, now: int)
    returns (s': State, ss: seq<State>, steps: seq<Step>)
    requires !s.panicked && Known(s, c) && s.conns[c].pc.Reading? && room in s.hub.conns[c].rooms
    requires !s.hub.conns[c].closed && s.hub.conns[c].send == [] && s.hub.conns[c].received == []
    requires BufferAt(s, room).msgs == [m] && m.sequence > 0 && !m.isReplayed
    ensures Leads(s, s', now, ss, steps)
    ensures Known(s', c) && s'.conns[c].pc == Reading && s'.hub.conns[c].received == [ReplayPacket(m), ReplayEnd]
  {
    var s1 := Catch(s, c, AskReplay(room, 0));
    OneIsKept(m);
    var s2 := Catch(s1, c, Snapshot);
    var ss1, steps1 := TwoSteps(s, Catching(c, AskReplay(room, 0)), s1, Catching(c, Snapshot), s2, now);
    var ss2, steps2;
    s', ss2, steps2 := GetsIt(s2, c, room, m, now);
    InstantJoins(ss1, steps1, ss2, steps2, s, s2, s', now);
    ss, steps := ss1 + ss2[1..], steps1 + steps2;
  }

  /** The program can reach a state in which a member of a room, having asked for what was said in it
      before, has received it, as it was said, and then the terminator. */
  lemma MemberIsReplayed(user: UserId, listener: UserId, room: RoomId, audio: Bytes, id: string, now: int)
    returns (ss: seq<State>, steps: seq<Step>)
    requires user != "" && listener != "" && room != "" && audio != []
    ensures Execution(ss, steps) && InTime(now, steps)
    ensures var s := ss[|steps|];
            && Known(s, LISTENER) && s.conns[LISTENER] == Conn(listener, Reading)
            && s.hub.conns[LISTENER].received
               == [ReplayPacket(Message(id, room, user, audio, 1, now, false)), ReplayEnd]
  {
    var s1, s2, s3, ss1, steps1, ss2, steps2, ss3, steps3;
    s1, ss1, steps1 := BothArrive(SPEAKER, user, LISTENER, listener, room, now);
    s2, ss2, steps2 := SpeaksFirst(s1, SPEAKER, room, audio, id, now);
    s3, ss3, steps3 := AsksAndGets(s2, LISTENER, room, FirstChunk(id, user, room, audio, now), now);
    InstantJoins(ss1, steps1, ss2, steps2, INITIAL, s1, s2, now);
    ss, steps := ss1 + ss2[1..], steps1 + steps2;
    InstantJoins(ss, steps, ss3, steps3, INITIAL, s2, s3, now);
    StillConnected(ss3, steps3, 0, |steps3|, LISTENER);
    ss, steps := ss + ss3[1..], steps + steps3;
    InstantInTime(now, steps);
  }
}
