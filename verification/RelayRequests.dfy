/** Who gets a replay, and what of: over every execution of the relay, exactly the connections that
    list the room when they ask, and only what was numbered there above the number they named. */
module RelayRequests {
  import opened AudioBuffer
  import opened Sequences
  import opened Voice
  import opened Hub
  import opened Wrappers
  import opened Relay
  import opened RelayConnections
  import opened RelaySteps
  import RelayWindows
  import RelayReplay
  import RelaySends

  /** A request is granted if and only if the connection lists the room at that moment; a request
      that is not granted changes nothing at all. */
  lemma GrantedExactly(ss: seq<State>, steps: seq<Step>, i: nat, c: ConnId, room: RoomId, since: int)
    requires Execution(ss, steps) && i < |steps| && steps[i] == Catching(c, AskReplay(room, since))
    ensures c in ss[i].hub.conns && c in ss[i + 1].conns
    ensures ss[i + 1].conns[c].pc == Snapshotting(room, since) <==> room in ss[i].hub.conns[c].rooms
    ensures room !in ss[i].hub.conns[c].rooms ==> ss[i + 1] == ss[i]
  {
    StepTaken(ss, steps, i);
  }

  // ---- What is in the windows ----

  predicate WasNumbered(s: State, m: Message) {
    exists k :: 0 <= k < |s.numbered| && s.numbered[k].stored == m
  }

  ghost predicate WindowsNumbered(s: State) {
    forall room, m {:trigger m in BufferAt(s, room).msgs} ::
      m in BufferAt(s, room).msgs ==> m.channelId == room && WasNumbered(s, m)
  }

  lemma NumberedRemains(s: State, step: Step, s': State, m: Message)
    requires Next(s, step) == Some(s') && WasNumbered(s, m)
    ensures WasNumbered(s', m)
  {
    RelayReplay.NumberedGrows(s, step, s');
    var k :| 0 <= k < |s.numbered| && s.numbered[k].stored == m;
    assert |s'.numbered| > |s.numbered| ==> s'.numbered[..|s.numbered|][k] == s'.numbered[k];
    assert s'.numbered[k].stored == m;
  }

  lemma WindowsNumberedNext(s: State, step: Step, s': State)
    requires Next(s, step) == Some(s') && WindowsNumbered(s)
    ensures WindowsNumbered(s')
  {
    forall room, m | m in BufferAt(s', room).msgs ensures m.channelId == room && WasNumbered(s', m) {
      RelayWindows.StepOnBuffer(s, step, s', room);
      var ops := RelayWindows.OpOf(s, step, room);
      if ops != [] {
        WindowGains(DEFAULT_BUFFER_CONFIG, BufferAt(s, room), ops[0], m);
      }
      if m in BufferAt(s, room).msgs {
        NumberedRemains(s, step, s', m);
      } else {
        NewIsNumbered(s, step, s', room, m);
      }
    }
  }

  lemma NewIsNumbered(s: State, step: Step, s': State, room: RoomId, m: Message)
    requires Next(s, step) == Some(s') && IsNumber(step)
    requires var ops := RelayWindows.OpOf(s, step, room);
             ops != [] && ops[0].Added? && m == NewMessage(ops[0], BufferAt(s, room).last + 1)
    ensures m.channelId == room && WasNumbered(s', m)
  {
    assert s' == DoNumber(s, step.c, step.speech.id, step.speech.timestamp, step.speech.now);
    assert s'.numbered[|s.numbered|].stored == m;
  }

  /** Every window holds only what was numbered in its own room. */
  lemma WindowsAlwaysNumbered(ss: seq<State>, steps: seq<Step>, n: nat)
    requires Execution(ss, steps) && n <= |steps|
    ensures WindowsNumbered(ss[n])
  {
    for k := 0 to n
      invariant WindowsNumbered(ss[k])
    {
      StepTaken(ss, steps, k);
      WindowsNumberedNext(ss[k], steps[k], ss[k + 1]);
    }
  }

  // ---- What is replayed ----

  /** c asks for the messages of this room above some number below this one, and lists the room. */
  predicate AsksFor(s: State, step: Step, c: ConnId, m: Message) {
    && step.Catching? && step.replay.AskReplay? && step.replay.since < m.sequence
    && Asks(s, step, c, m.channelId, step.replay.since)
  }

  ghost predicate AskedBefore(ss: seq<State>, steps: seq<Step>, n: nat, c: ConnId, room: RoomId, since: int)
    requires n <= |steps| <= |ss|
  {
    exists i {:trigger Asks(ss[i], steps[i], c, room, since)} :: 0 <= i < n && Asks(ss[i], steps[i], c, room, since)
  }

  /** The message was numbered, and c asked for it while it listed the message's room. */
  ghost predicate Requested(ss: seq<State>, steps: seq<Step>, n: nat, c: ConnId, m: Message)
    requires n <= |steps| < |ss|
  {
    && WasNumbered(ss[n], m)
    && exists i {:trigger AsksFor(ss[i], steps[i], c, m)} :: 0 <= i < n && AsksFor(ss[i], steps[i], c, m)
  }

  ghost predicate AllRequested(ss: seq<State>, steps: seq<Step>, n: nat, c: ConnId, msgs: seq<Message>)
    requires n <= |steps| < |ss|
  {
    forall m :: m in msgs ==> Requested(ss, steps, n, c, m)
  }

  ghost predicate SentRequested(ss: seq<State>, steps: seq<Step>, n: nat, c: ConnId)
    requires n <= |steps| < |ss|
  {
    c in ss[n].hub.conns ==>
      forall m :: ReplayPacket(m) in ss[n].hub.conns[c].received ==> Requested(ss, steps, n, c, m)
  }

  ghost predicate RequestsKept(ss: seq<State>, steps: seq<Step>, n: nat, c: ConnId)
    requires n <= |steps| < |ss|
  {
    && SentRequested(ss, steps, n, c)
    && (c in ss[n].conns ==>
          var pc := ss[n].conns[c].pc;
          && (pc.Snapshotting? ==> AskedBefore(ss, steps, n, c, pc.room, pc.since))
          && (pc.Replaying? ==> AllRequested(ss, steps, n, c, pc.rest)))
  }

  lemma RequestedLater(ss: seq<State>, steps: seq<Step>, n: nat, c: ConnId, m: Message)
    requires Execution(ss, steps) && n < |steps| && Requested(ss, steps, n, c, m)
    ensures Requested(ss, steps, n + 1, c, m)
  {
    StepTaken(ss, steps, n);
    NumberedRemains(ss[n], steps[n], ss[n + 1], m);
  }

  lemma SnapshotRequested(ss: seq<State>, steps: seq<Step>, n: nat, c: ConnId, room: RoomId, since: int, m: Message)
    requires Execution(ss, steps) && n <= |steps| && AskedBefore(ss, steps, n, c, room, since)
    requires m in Unplayed(BufferAt(ss[n], room).msgs, since)
    ensures Requested(ss, steps, n, c, m)
  {
    WindowsAlwaysNumbered(ss, steps, n);
    FilterMember(BufferAt(ss[n], room).msgs, Wanted(since), m);
    assert m in BufferAt(ss[n], room).msgs;
    var i :| 0 <= i < n && Asks(ss[i], steps[i], c, room, since);
    assert AsksFor(ss[i], steps[i], c, m);
  }

  lemma ReplayingNext(ss: seq<State>, steps: seq<Step>, n: nat, c: ConnId)
    requires Execution(ss, steps) && n < |steps| && RequestsKept(ss, steps, n, c)
    requires c in ss[n + 1].conns && ss[n + 1].conns[c].pc.Replaying?
    ensures AllRequested(ss, steps, n + 1, c, ss[n + 1].conns[c].pc.rest)
  {
    StepTaken(ss, steps, n);
    StepReplays(ss[n], steps[n], ss[n + 1], c);
    var pc, rest' := ss[n].conns[c].pc, ss[n + 1].conns[c].pc.rest;
    forall m | m in rest' ensures Requested(ss, steps, n + 1, c, m) {
      if pc.Snapshotting? {
        SnapshotRequested(ss, steps, n, c, pc.room, pc.since, m);
      } else {
        assert m in pc.rest;
      }
      RequestedLater(ss, steps, n, c, m);
    }
  }

  lemma SentNext(ss: seq<State>, steps: seq<Step>, n: nat, c: ConnId)
    requires Execution(ss, steps) && n < |steps| && RequestsKept(ss, steps, n, c)
    ensures SentRequested(ss, steps, n + 1, c)
  {
    RelaySends.SendsAt(ss, steps, n, c);
    if c in ss[n + 1].hub.conns {
      forall m | ReplayPacket(m) in ss[n + 1].hub.conns[c].received ensures Requested(ss, steps, n + 1, c, m) {
        if ReplayPacket(m) !in ss[n].hub.conns[c].received {
          assert ReplayPacket(m) in SentTo(ss[n], steps[n], c);
          assert m in ss[n].conns[c].pc.rest;
        }
        RequestedLater(ss, steps, n, c, m);
      }
    }
  }

  lemma RequestsKeptNext(ss: seq<State>, steps: seq<Step>, n: nat, c: ConnId)
    requires Execution(ss, steps) && n < |steps| && RequestsKept(ss, steps, n, c)
    ensures RequestsKept(ss, steps, n + 1, c)
  {
    SentNext(ss, steps, n, c);
    StepTaken(ss, steps, n);
    StepReplays(ss[n], steps[n], ss[n + 1], c);
    if c in ss[n + 1].conns && ss[n + 1].conns[c].pc.Replaying? {
      ReplayingNext(ss, steps, n, c);
    } else if c in ss[n + 1].conns && ss[n + 1].conns[c].pc.Snapshotting? {
      var Snapshotting(room, since) := ss[n + 1].conns[c].pc;
      assert AskedBefore(ss, steps, n + 1, c, room, since)
        <==> AskedBefore(ss, steps, n, c, room, since) || Asks(ss[n], steps[n], c, room, since);
    }
  }

  /** Nobody is replayed what it did not ask for: in every reachable state, every message that any
      connection was ever sent from a replay was numbered in its room, and the connection had asked
      for the messages of that room above a smaller number, at a moment when it listed the room. */
  lemma ReplayedWasRequested(ss: seq<State>, steps: seq<Step>, n: nat, c: ConnId, m: Message)
    requires Execution(ss, steps) && n <= |steps| && c in ss[n].hub.conns
    requires ReplayPacket(m) in ss[n].hub.conns[c].received
    ensures Requested(ss, steps, n, c, m)
  {
    for k := 0 to n
      invariant RequestsKept(ss, steps, k, c)
    {
      RequestsKeptNext(ss, steps, k, c);
    }
  }
}
