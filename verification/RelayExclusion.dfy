/** Exactly when the lock separates speakers and keeps their numbers in order: from a state in which
    every connection is in its read loop, whatever happens, if and only if no user has two. */
module RelayExclusion {
  import opened AudioBuffer
  import opened Voice
  import opened Hub
  import opened Wrappers
  import opened Relay
  import opened RelayConnections
  import opened RelayOrder
  import opened RelayQueues

  ghost predicate AllReading(s: State) {
    forall c :: Serving(s, c) ==> Known(s, c) && s.conns[c].pc.Reading?
  }

  /** A continuation of s from instant `now` on, by the connections that s has. */
  ghost predicate Continues(s: State, now: int, ss: seq<State>, steps: seq<Step>) {
    Path(ss, steps) && ss[0] == s && NoConnect(steps) && InTime(now, steps)
  }

  /** No two connections are transmitting in one room. */
  ghost predicate Alone(s: State) {
    forall c, d, room {:trigger Transmitting(s.conns[c].pc, room), Transmitting(s.conns[d].pc, room)} ::
      c in s.conns && d in s.conns && Transmitting(s.conns[c].pc, room) && Transmitting(s.conns[d].pc, room) ==> c == d
  }

  ghost predicate AlwaysAlone(s: State, now: int) {
    forall ss: seq<State>, steps: seq<Step> :: Continues(s, now, ss, steps) ==> Alone(ss[|steps|])
  }

  ghost predicate AllInOrder(s: State) {
    forall room :: InOrder(s.enqueued, room)
  }

  ghost predicate AlwaysInOrderFrom(s: State, now: int) {
    forall ss: seq<State>, steps: seq<Step> :: Continues(s, now, ss, steps) ==> AllInOrder(ss[|steps|])
  }

  // ---- One connection per user suffices ----

  lemma OneConnectionStays(s: State, s': State)
    requires OneConnectionPerUser(s) && SameConnections(s, s')
    ensures OneConnectionPerUser(s')
  {
    forall c, d | Serving(s', c) && Serving(s', d) && c != d ensures s'.conns[c].user != s'.conns[d].user {
      assert Serving(s, c) && Serving(s, d);
    }
  }

  lemma NextKeepsLock(ss: seq<State>, steps: seq<Step>, n: nat)
    requires Path(ss, steps) && NoConnect(steps) && n < |steps|
    requires OneConnectionPerUser(ss[n]) && LockHeld(ss[n])
    ensures OneConnectionPerUser(ss[n + 1]) && LockHeld(ss[n + 1])
    ensures EnqueuedInOrder(ss[n]) ==> EnqueuedInOrder(ss[n + 1])
  {
    assert StepAt(steps, n) == steps[n];
    StepTaken(ss, steps, n);
    StepFrame(ss[n], steps[n], ss[n + 1]);
    OneConnectionStays(ss[n], ss[n + 1]);
    StepKeepsLock(ss[n], steps[n], ss[n + 1]);
    if EnqueuedInOrder(ss[n]) {
      StepKeepsOrder(ss[n], steps[n], ss[n + 1]);
    }
  }

  lemma {:induction false} LockKeptAlong(ss: seq<State>, steps: seq<Step>, n: nat)
    requires Path(ss, steps) && NoConnect(steps) && n <= |steps|
    requires OneConnectionPerUser(ss[0]) && LockHeld(ss[0])
    ensures OneConnectionPerUser(ss[n]) && LockHeld(ss[n])
    ensures EnqueuedInOrder(ss[0]) ==> EnqueuedInOrder(ss[n])
  {
    if n > 0 {
      LockKeptAlong(ss, steps, n - 1);
      NextKeepsLock(ss, steps, n - 1);
    }
  }

  lemma ReadersHoldNothing(s: State)
    requires AllReading(s)
    ensures LockHeld(s)
  {
    forall c, room | c in s.conns ensures !Transmitting(s.conns[c].pc, room) {
      assert !s.conns[c].pc.Done? ==> Serving(s, c);
    }
  }

  lemma HoldersAreAlone(s: State)
    requires LockHeld(s) && OneConnectionPerUser(s)
    ensures Alone(s)
  {
    forall c, d, room | c in s.conns && d in s.conns
                        && Transmitting(s.conns[c].pc, room) && Transmitting(s.conns[d].pc, room)
      ensures c == d
    {
      NoOtherTransmitter(s, c, room);
    }
  }

  // ---- Two connections of one user ----

  /** Both connections are accepted by the lock, one after the other. */
  lemma BothSpeak(s: State, c: ConnId, d: ConnId, room: RoomId, audio: Bytes, t1: int, t2: int)
    returns (s1: State, s2: State)
    requires !s.panicked && Known(s, c) && Known(s, d) && c != d
    requires s.conns[c].pc.Reading? && s.conns[d].pc.Reading? && s.conns[c].user == s.conns[d].user
    requires CanTransmit(s.voice, s.conns[c].user, room) && audio != []
    ensures Next(s, Speaking(c, SpeakPtt(room, audio, true, t1))) == Some(s1)
    ensures Next(s1, Speaking(d, SpeakPtt(room, audio, true, t2))) == Some(s2)
    ensures !s2.panicked && Known(s2, c) && Known(s2, d) && s2.broadcast == s.broadcast
    ensures s2.conns[c].pc == s2.conns[d].pc == Numbering(room, audio) && BufferAt(s2, room) == BufferAt(s, room)
  {
    s1 := Speak(s, c, SpeakPtt(room, audio, true, t1));
    s2 := Speak(s1, d, SpeakPtt(room, audio, true, t2));
  }

  lemma BothNumber(s: State, c: ConnId, d: ConnId, room: RoomId, audio: Bytes, t1: int, t2: int)
    returns (s1: State, s2: State)
    requires !s.panicked && Known(s, c) && Known(s, d) && c != d
    requires s.conns[c].pc == s.conns[d].pc == Numbering(room, audio)
    ensures Next(s, Speaking(c, Number("", t1, t1))) == Some(s1)
    ensures Next(s1, Speaking(d, Number("", t2, t2))) == Some(s2)
    ensures !s2.panicked && Known(s2, c) && Known(s2, d) && s2.broadcast == s.broadcast
    ensures s2.conns[c].pc.Enqueueing? && s2.conns[d].pc.Enqueueing?
    ensures s2.conns[c].pc.live.room == s2.conns[d].pc.live.room == room
    ensures s2.conns[c].pc.live.sequence == BufferAt(s, room).last + 1
    ensures s2.conns[d].pc.live.sequence == BufferAt(s, room).last + 2
  {
    s1 := Speak(s, c, Number("", t1, t1));
    assert BufferAt(s1, room).last == BufferAt(s, room).last + 1;
    s2 := Speak(s1, d, Number("", t2, t2));
  }

  /** The one that was numbered later is the first to enqueue. */
  lemma BothEnqueue(s: State, c: ConnId, d: ConnId, room: RoomId) returns (s1: State, s2: State)
    requires !s.panicked && Known(s, c) && Known(s, d) && c != d && |s.broadcast| + 2 <= CAPACITY
    requires s.conns[c].pc.Enqueueing? && s.conns[d].pc.Enqueueing?
    requires NumberedIn(s.conns[c].pc.live, room) && NumberedIn(s.conns[d].pc.live, room)
    requires s.conns[c].pc.live.sequence < s.conns[d].pc.live.sequence
    ensures Next(s, Speaking(d, SpeakAction.Enqueue)) == Some(s1)
    ensures Next(s1, Speaking(c, SpeakAction.Enqueue)) == Some(s2)
    ensures !InOrder(s2.enqueued, room)
  {
    s1 := Speak(s, d, SpeakAction.Enqueue);
    s2 := Speak(s1, c, SpeakAction.Enqueue);
    var n := |s.enqueued|;
    assert s2.enqueued[n] == s.conns[d].pc.live && s2.enqueued[n + 1] == s.conns[c].pc.live;
  }

  /** The lock does not separate two connections of one user: both can be transmitting at once. */
  lemma TwoConnectionsTransmit(s: State, c: ConnId, d: ConnId, room: RoomId, now: int)
    returns (ss: seq<State>, steps: seq<Step>)
    requires !s.panicked && Known(s, c) && Known(s, d) && c != d
    requires s.conns[c].pc.Reading? && s.conns[d].pc.Reading? && s.conns[c].user == s.conns[d].user
    requires CanTransmit(s.voice, s.conns[c].user, room)
    ensures Continues(s, now, ss, steps) && !Alone(ss[|steps|])
  {
    var s1, s2 := BothSpeak(s, c, d, room, [0], now, now);
    var speak := SpeakPtt(room, [0], true, now);
    ss, steps := TwoSteps(s, Speaking(c, speak), s1, Speaking(d, speak), s2, now);
    InstantInTime(now, steps);
    assert Transmitting(s2.conns[c].pc, room) && Transmitting(s2.conns[d].pc, room);
  }

  /** Both then take a number, and neither has been broadcast yet. */
  lemma TwoConnectionsNumber(s: State, c: ConnId, d: ConnId, room: RoomId, now: int)
    returns (s': State, ss: seq<State>, steps: seq<Step>)
    requires !s.panicked && Known(s, c) && Known(s, d) && c != d
    requires s.conns[c].pc.Reading? && s.conns[d].pc.Reading? && s.conns[c].user == s.conns[d].user
    requires CanTransmit(s.voice, s.conns[c].user, room) && BufferAt(s, room).last >= 0
    ensures Leads(s, s', now, ss, steps) && NoConnect(steps)
    ensures !s'.panicked && Known(s', c) && Known(s', d) && s'.broadcast == s.broadcast
    ensures s'.conns[c].pc.Enqueueing? && s'.conns[d].pc.Enqueueing?
    ensures NumberedIn(s'.conns[c].pc.live, room) && NumberedIn(s'.conns[d].pc.live, room)
    ensures s'.conns[c].pc.live.sequence < s'.conns[d].pc.live.sequence
  {
    var s1, s2 := BothSpeak(s, c, d, room, [0], now, now);
    var s3, s4 := BothNumber(s2, c, d, room, [0], now, now);
    var speak, number := SpeakPtt(room, [0], true, now), Number("", now, now);
    var ss1, steps1 := TwoSteps(s, Speaking(c, speak), s1, Speaking(d, speak), s2, now);
    var ss2, steps2 := TwoSteps(s2, Speaking(c, number), s3, Speaking(d, number), s4, now);
    InstantJoins(ss1, steps1, ss2, steps2, s, s2, s4, now);
    s', ss, steps := s4, ss1 + ss2[1..], steps1 + steps2;
  }

  /** And their numbers can enter the broadcast channel out of order. */
  lemma TwoConnectionsBreakOrder(s: State, c: ConnId, d: ConnId, room: RoomId, now: int)
    returns (ss: seq<State>, steps: seq<Step>)
    requires !s.panicked && Known(s, c) && Known(s, d) && c != d
    requires s.conns[c].pc.Reading? && s.conns[d].pc.Reading? && s.conns[c].user == s.conns[d].user
    requires CanTransmit(s.voice, s.conns[c].user, room)
    requires |s.broadcast| + 2 <= CAPACITY && BufferAt(s, room).last >= 0
    ensures Continues(s, now, ss, steps) && !InOrder(ss[|steps|].enqueued, room)
  {
    var s1, ss1, steps1 := TwoConnectionsNumber(s, c, d, room, now);
    var s2, s3 := BothEnqueue(s1, c, d, room);
    var ss2, steps2 := TwoSteps(s1, Speaking(d, SpeakAction.Enqueue), s2, Speaking(c, SpeakAction.Enqueue), s3, now);
    InstantJoins(ss1, steps1, ss2, steps2, s, s1, s3, now);
    ss, steps := ss1 + ss2[1..], steps1 + steps2;
    InstantInTime(now, steps);
  }

  lemma {:induction false} LongestRoom(rooms: set<RoomId>) returns (n: nat)
    ensures forall room :: room in rooms ==> |room| <= n
  {
    n := 0;
    if room :| room in rooms {
      n := LongestRoom(rooms - {room});
      n := if |room| > n then |room| else n;
    }
  }

  /** There is always a room that nobody has spoken in. */
  lemma FreshRoom(rooms: set<RoomId>) returns (room: RoomId)
    ensures room !in rooms && room != ""
  {
    var n := LongestRoom(rooms);
    room := seq(n + 1, _ => 'r');
  }

  // ---- The exact conditions ----

  /** Mutual exclusion, exactly: from a state in which every connection is in its read loop, no
      continuation has two transmitters in a room if and only if no user has two connections. */
  lemma MutualExclusionExactly(s: State, now: int)
    requires !s.panicked && AllReading(s)
    ensures AlwaysAlone(s, now) <==> OneConnectionPerUser(s)
  {
    if OneConnectionPerUser(s) {
      ReadersHoldNothing(s);
      forall ss: seq<State>, steps: seq<Step> | Continues(s, now, ss, steps) ensures Alone(ss[|steps|]) {
        LockKeptAlong(ss, steps, |steps|);
        HoldersAreAlone(ss[|steps|]);
      }
    } else {
      var c, d :| Serving(s, c) && Serving(s, d) && c != d && s.conns[c].user == s.conns[d].user;
      var room := FreshRoom(s.voice.Keys);
      var ss, steps := TwoConnectionsTransmit(s, c, d, room, now);
    }
  }

  /** Order, exactly: from such a state, with everything so far in order and space for two packets,
      the numbers of every room enter the broadcast channel in order in every continuation if and
      only if no user has two connections. */
  lemma OrderExactly(s: State, now: int)
    requires !s.panicked && AllReading(s) && EnqueuedInOrder(s) && |s.broadcast| + 2 <= CAPACITY
    ensures AlwaysInOrderFrom(s, now) <==> OneConnectionPerUser(s)
  {
    if OneConnectionPerUser(s) {
      ReadersHoldNothing(s);
      forall ss: seq<State>, steps: seq<Step> | Continues(s, now, ss, steps) ensures AllInOrder(ss[|steps|]) {
        LockKeptAlong(ss, steps, |steps|);
      }
    } else {
      var c, d :| Serving(s, c) && Serving(s, d) && c != d && s.conns[c].user == s.conns[d].user;
      var room := FreshRoom(s.voice.Keys);
      var ss, steps := TwoConnectionsBreakOrder(s, c, d, room, now);
    }
  }
}
