/** What every step keeps of the lock, of the broadcast channel and of the send channels, while no user
    has two connections.  A connection that transmits push-to-talk holds the lock, so that between
    taking a number and enqueueing the packet nobody else in the room does either; a number that has
    been taken follows everything that was enqueued before; the broadcast channel is the end of what
    was enqueued, and the dispatcher is busy with the packet before it; and each connection was sent
    only what the dispatcher has taken, in the order of the numbers.  Of these the part about the
    broadcast channel needs no hypothesis about users. */
module RelayQueues {
  import opened Voice
  import opened Hub
  import opened Wrappers
  import opened Relay
  import opened RelayConnections

  // ---- The lock ----

  /** Between an accepted StartTransmission for `room` and the end of the BroadcastToRoom. */
  predicate Transmitting(pc: Pc, room: RoomId) {
    || (pc.Numbering? && pc.room == room)
    || (pc.Enqueueing? && pc.live.isPtt && pc.live.room == room)
  }

  ghost predicate LockHeld(s: State) {
    forall c, room {:trigger Transmitting(s.conns[c].pc, room)} ::
      c in s.conns && Transmitting(s.conns[c].pc, room) ==> Holds(s.voice, s.conns[c].user, room)
  }

  lemma SpeakKeepsLock(s: State, c: ConnId, a: SpeakAction)
    requires Known(s, c) && CanSpeak(s, c, a) && LockHeld(s) && OneConnectionPerUser(s)
    ensures LockHeld(Speak(s, c, a))
  {
    var s' := Speak(s, c, a);
    forall d, room | d in s'.conns && Transmitting(s'.conns[d].pc, room)
      ensures Holds(s'.voice, s'.conns[d].user, room)
    {
      if d != c {
        assert Transmitting(s.conns[d].pc, room) && Serving(s, d) && Serving(s, c);
      } else if a.Enqueue? || a.Number? {
        assert Transmitting(s.conns[c].pc, room);
      }
    }
  }

  lemma ExitKeepsLock(s: State, c: ConnId, a: ExitAction)
    requires Known(s, c) && CanExit(s, c, a) && LockHeld(s) && OneConnectionPerUser(s)
    ensures LockHeld(Exit(s, c, a))
  {
    var s' := Exit(s, c, a);
    forall d, room | d in s'.conns && Transmitting(s'.conns[d].pc, room)
      ensures Holds(s'.voice, s'.conns[d].user, room)
    {
      assert Transmitting(s.conns[d].pc, room) && Serving(s, d) && Serving(s, c);
    }
  }

  lemma OthersKeepLock(s: State, step: Step, s': State)
    requires Next(s, step) == Some(s') && LockHeld(s) && !step.Speaking? && !step.Leaving?
    ensures LockHeld(s')
  {
    StepFrame(s, step, s');
    forall d, room | d in s'.conns && Transmitting(s'.conns[d].pc, room)
      ensures Holds(s'.voice, s'.conns[d].user, room)
    {
      assert NobodySpeaks(s, s') ==> s'.conns[d] == s.conns[d];
      assert Transmitting(s.conns[d].pc, room);
    }
  }

  lemma StepKeepsLock(s: State, step: Step, s': State)
    requires Next(s, step) == Some(s') && LockHeld(s) && OneConnectionPerUser(s)
    ensures LockHeld(s')
  {
    match step
    case Speaking(c, a) => SpeakKeepsLock(s, c, a);
    case Leaving(c, a) => ExitKeepsLock(s, c, a);
    case _ => OthersKeepLock(s, step, s');
  }

  lemma NoOtherTransmitter(s: State, c: ConnId, room: RoomId)
    requires LockHeld(s) && OneConnectionPerUser(s) && c in s.conns && Transmitting(s.conns[c].pc, room)
    ensures forall d {:trigger Transmitting(s.conns[d].pc, room)} ::
              d in s.conns && d != c ==> !Transmitting(s.conns[d].pc, room)
  {
    assert Serving(s, c);
    forall d | d in s.conns && Transmitting(s.conns[d].pc, room) ensures d == c {
      assert Serving(s, d);
    }
  }

  // ---- Order in the broadcast channel ----

  predicate NumberedIn(live: Live, room: RoomId) {
    live.room == room && live.sequence > 0
  }

  ghost predicate InOrder(q: seq<Live>, room: RoomId) {
    forall i, j :: 0 <= i < j < |q| && NumberedIn(q[i], room) && NumberedIn(q[j], room) ==>
      q[i].sequence < q[j].sequence
  }

  /** `live` would be next in its room after everything in q. */
  ghost predicate Follows(live: Live, q: seq<Live>) {
    live.sequence > 0 ==>
      forall i {:trigger q[i]} :: 0 <= i < |q| && NumberedIn(q[i], live.room) ==> q[i].sequence < live.sequence
  }

  ghost predicate Counted(s: State, live: Live) {
    live.sequence <= BufferAt(s, live.room).last
  }

  ghost predicate PendingOk(s: State, c: ConnId, live: Live) {
    && live.sender == c
    && (live.sequence > 0 ==> live.isPtt)
    && Counted(s, live)
    && Follows(live, s.enqueued)
  }

  ghost predicate EnqueuedInOrder(s: State) {
    && (forall room :: BufferAt(s, room).last >= 0)
    && (forall room :: InOrder(s.enqueued, room))
    && (forall i :: 0 <= i < |s.enqueued| ==> Counted(s, s.enqueued[i]))
    && (forall c :: c in s.conns && s.conns[c].pc.Enqueueing? ==> PendingOk(s, c, s.conns[c].pc.live))
  }

  /** Numbering: nobody else in the room holds a number that has not been enqueued, so the new
      number follows everything that has been. */
  lemma NumberKeepsOrder(s: State, c: ConnId, a: SpeakAction)
    requires Known(s, c) && a.Number? && CanSpeak(s, c, a)
    requires EnqueuedInOrder(s) && LockHeld(s) && OneConnectionPerUser(s)
    ensures EnqueuedInOrder(Speak(s, c, a))
  {
    var s', room := Speak(s, c, a), s.conns[c].pc.room;
    assert forall r :: BufferAt(s', r).last == BufferAt(s, r).last + if r == room then 1 else 0;
    NumberFollows(s, room);
    forall d | d in s'.conns && s'.conns[d].pc.Enqueueing? ensures PendingOk(s', d, s'.conns[d].pc.live) {
      assert d != c ==> PendingOk(s, d, s.conns[d].pc.live);
    }
    forall i | 0 <= i < |s'.enqueued| ensures Counted(s', s'.enqueued[i]) {
      assert Counted(s, s.enqueued[i]);
    }
  }

  lemma NumberFollows(s: State, room: RoomId)
    requires EnqueuedInOrder(s)
    ensures forall i {:trigger s.enqueued[i]} :: 0 <= i < |s.enqueued| && NumberedIn(s.enqueued[i], room) ==>
              s.enqueued[i].sequence < BufferAt(s, room).last + 1
  {
    forall i | 0 <= i < |s.enqueued| && NumberedIn(s.enqueued[i], room)
      ensures s.enqueued[i].sequence < BufferAt(s, room).last + 1
    {
      assert Counted(s, s.enqueued[i]);
    }
  }

  lemma EnqueueKeepsOrder(s: State, c: ConnId)
    requires Known(s, c) && CanSpeak(s, c, SpeakAction.Enqueue)
    requires EnqueuedInOrder(s) && LockHeld(s) && OneConnectionPerUser(s)
    ensures EnqueuedInOrder(Speak(s, c, SpeakAction.Enqueue))
  {
    var s', live := Speak(s, c, SpeakAction.Enqueue), s.conns[c].pc.live;
    assert PendingOk(s, c, live);
    if live.isPtt {
      NoOtherTransmitter(s, c, live.room);
    }
    forall d | d in s'.conns && s'.conns[d].pc.Enqueueing? ensures PendingOk(s', d, s'.conns[d].pc.live) {
      var other := s.conns[d].pc.live;
      assert PendingOk(s, d, other);
      assert Transmitting(s.conns[d].pc, live.room) <==> other.isPtt && other.room == live.room;
    }
    forall room ensures InOrder(s'.enqueued, room) {
      assert InOrder(s.enqueued, room) && Follows(live, s.enqueued);
    }
    assert forall r :: BufferAt(s', r) == BufferAt(s, r);
    forall i | 0 <= i < |s'.enqueued| ensures Counted(s', s'.enqueued[i]) {
      if i < |s.enqueued| {
        assert Counted(s, s.enqueued[i]);
      }
    }
  }

  lemma TalkKeepsOrder(s: State, c: ConnId, a: SpeakAction)
    requires Known(s, c) && CanSpeak(s, c, a) && (a.SpeakPtt? || a.SpeakOpen?) && EnqueuedInOrder(s)
    ensures EnqueuedInOrder(Speak(s, c, a))
  {
    var s' := Speak(s, c, a);
    assert forall r :: BufferAt(s', r) == BufferAt(s, r);
    forall i | 0 <= i < |s'.enqueued| ensures Counted(s', s'.enqueued[i]) {
      assert Counted(s, s.enqueued[i]);
    }
    forall d | d in s'.conns && s'.conns[d].pc.Enqueueing? ensures PendingOk(s', d, s'.conns[d].pc.live) {
      assert d != c ==> PendingOk(s, d, s.conns[d].pc.live);
    }
  }

  lemma SilenceKeepsOrder(s: State, s': State)
    requires EnqueuedInOrder(s) && s'.enqueued == s.enqueued && NobodySpeaks(s, s')
    requires forall room :: BufferAt(s', room).last == BufferAt(s, room).last
    ensures EnqueuedInOrder(s')
  {
    forall d | d in s'.conns && s'.conns[d].pc.Enqueueing? ensures PendingOk(s', d, s'.conns[d].pc.live) {
      assert PendingOk(s, d, s.conns[d].pc.live);
    }
    forall i | 0 <= i < |s'.enqueued| ensures Counted(s', s'.enqueued[i]) {
      assert Counted(s, s.enqueued[i]);
    }
  }

  lemma StepKeepsOrder(s: State, step: Step, s': State)
    requires Next(s, step) == Some(s') && EnqueuedInOrder(s) && LockHeld(s) && OneConnectionPerUser(s)
    ensures EnqueuedInOrder(s')
  {
    if step.Speaking? {
      match step.speech
      case Number(_, _, _) => NumberKeepsOrder(s, step.c, step.speech);
      case Enqueue => EnqueueKeepsOrder(s, step.c);
      case _ => TalkKeepsOrder(s, step.c, step.speech);
    } else {
      StepFrame(s, step, s');
      SilenceKeepsOrder(s, s');
    }
  }

  // ---- Order in every send channel ----

  /** How many packets the dispatcher has taken off the broadcast channel. */
  function Taken(s: State): int {
    |s.enqueued| - |s.broadcast|
  }

  ghost predicate QueueIsSuffix(s: State) {
    && Taken(s) >= 0
    && s.broadcast == s.enqueued[Taken(s)..]
    && (s.hubPc.Dispatching? || s.hubPc.FanningOut? ==> Taken(s) > 0 && s.enqueued[Taken(s) - 1] == s.hubPc.live)
  }

  /** The packets that c may have been sent already: those taken, except one still due to it. */
  function Reached(s: State, c: ConnId): int {
    Taken(s) - if s.hubPc.Dispatching? || (s.hubPc.FanningOut? && c in s.hubPc.todo) then 1 else 0
  }

  ghost predicate ReceivedFrom(s: State, received: seq<Packet>, reached: int) {
    && 0 <= reached <= |s.enqueued|
    && (forall i :: 0 <= i < |received| && received[i].LivePacket? ==> received[i].live in s.enqueued[..reached])
    && (forall i, j, room :: 0 <= i < j < |received| && received[i].LivePacket? && received[j].LivePacket?
                             && NumberedIn(received[i].live, room) && NumberedIn(received[j].live, room)
                             ==> received[i].live.sequence < received[j].live.sequence)
  }

  ghost predicate ReceivedInOrder(s: State) {
    forall c :: c in s.hub.conns ==> ReceivedFrom(s, s.hub.conns[c].received, Reached(s, c))
  }

  lemma ReceivedLater(s: State, s': State, received: seq<Packet>, reached: int, reached': int)
    requires ReceivedFrom(s, received, reached) && reached <= reached' <= |s'.enqueued|
    requires |s.enqueued| <= |s'.enqueued| && s'.enqueued[..|s.enqueued|] == s.enqueued
    ensures ReceivedFrom(s', received, reached')
  {
    forall i | 0 <= i < |received| && received[i].LivePacket? ensures received[i].live in s'.enqueued[..reached'] {
      var k :| 0 <= k < reached && s.enqueued[..reached][k] == received[i].live;
      assert s'.enqueued[..|s.enqueued|][k] == s'.enqueued[..reached'][k];
    }
  }

  lemma DeliverKeepsReceived(s: State, c: ConnId)
    requires HubReady(s, DeliverTo(c)) && QueueIsSuffix(s) && ReceivedInOrder(s) && EnqueuedInOrder(s)
    ensures ReceivedInOrder(HubStep(s, DeliverTo(c)))
  {
    var s', t := HubStep(s, DeliverTo(c)), Taken(s);
    forall d | d in s'.hub.conns ensures ReceivedFrom(s', s'.hub.conns[d].received, Reached(s', d)) {
      ReceivedLater(s, s', s.hub.conns[d].received, Reached(s, d), Reached(s', d));
      if d == c && !DeliverPanics(s.hub, c) && !Full(s.hub, c) {
        NextInOrder(s, s.hub.conns[c].received);
      }
    }
  }

  lemma NextInOrder(s: State, received: seq<Packet>)
    requires QueueIsSuffix(s) && EnqueuedInOrder(s) && s.hubPc.FanningOut?
    requires ReceivedFrom(s, received, Taken(s) - 1)
    ensures ReceivedFrom(s, received + [LivePacket(s.hubPc.live)], Taken(s))
  {
    var t, live := Taken(s), s.hubPc.live;
    ReceivedLater(s, s, received, t - 1, t);
    assert s.enqueued[..t][t - 1] == live;
    forall i, room | 0 <= i < |received| && received[i].LivePacket?
                     && NumberedIn(received[i].live, room) && NumberedIn(live, room)
      ensures received[i].live.sequence < live.sequence
    {
      var k :| 0 <= k < t - 1 && s.enqueued[..t - 1][k] == received[i].live;
      assert InOrder(s.enqueued, room) && s.enqueued[k] == received[i].live && s.enqueued[t - 1] == live;
    }
  }

  lemma PushKeepsReceived(s: State, c: ConnId)
    requires Known(s, c) && CanCatch(s, c, PushReplay) && ReceivedInOrder(s)
    ensures ReceivedInOrder(Catch(s, c, PushReplay))
  {
    var s' := Catch(s, c, PushReplay);
    forall d | d in s'.hub.conns ensures ReceivedFrom(s', s'.hub.conns[d].received, Reached(s', d)) {
      assert ReceivedFrom(s, s.hub.conns[d].received, Reached(s, d));
    }
  }

  /** Nobody is sent anything; what is in the broadcast channel only moves on. */
  ghost predicate NothingSent(s: State, s': State) {
    && |s.enqueued| <= |s'.enqueued| && s'.enqueued[..|s.enqueued|] == s.enqueued
    && (forall c :: c in s'.hub.conns ==>
          (c in s.hub.conns && s'.hub.conns[c].received == s.hub.conns[c].received) || s'.hub.conns[c].received == [])
    && (forall c :: 0 <= Reached(s, c) <= Reached(s', c) <= |s'.enqueued|)
  }

  lemma NothingSentKeepsReceived(s: State, s': State)
    requires ReceivedInOrder(s) && NothingSent(s, s')
    ensures ReceivedInOrder(s')
  {
    forall d | d in s'.hub.conns ensures ReceivedFrom(s', s'.hub.conns[d].received, Reached(s', d)) {
      if s'.hub.conns[d].received != [] {
        ReceivedLater(s, s', s.hub.conns[d].received, Reached(s, d), Reached(s', d));
      }
    }
  }

  lemma RegisterSendsNothing(s: State, e: HubEvent)
    requires HubReady(s, e) && QueueIsSuffix(s) && (e.ReceiveRegister? || e.FinishRegister?)
    ensures QueueIsSuffix(HubStep(s, e)) && NothingSent(s, HubStep(s, e))
  {
  }

  lemma ReceiveUnregisterSendsNothing(s: State, c: ConnId)
    requires HubReady(s, ReceiveUnregister(c)) && QueueIsSuffix(s)
    ensures QueueIsSuffix(HubStep(s, ReceiveUnregister(c))) && NothingSent(s, HubStep(s, ReceiveUnregister(c)))
  {
  }

  lemma FinishUnregisterTouchesNoQueue(s: State)
    requires HubReady(s, FinishUnregister)
    ensures var s' := HubStep(s, FinishUnregister);
            && s'.enqueued == s.enqueued && s'.broadcast == s.broadcast
            && (s'.hubPc == s.hubPc || s'.hubPc.Idle?)
            && s'.hub.conns.Keys == s.hub.conns.Keys
            && forall c :: c in s.hub.conns ==> s'.hub.conns[c].received == s.hub.conns[c].received
  {
    Hub.UnregisterSendsNothing(s.hub, s.hubPc.c);
  }

  lemma FinishUnregisterSendsNothing(s: State)
    requires HubReady(s, FinishUnregister) && QueueIsSuffix(s)
    ensures QueueIsSuffix(HubStep(s, FinishUnregister)) && NothingSent(s, HubStep(s, FinishUnregister))
  {
    FinishUnregisterTouchesNoQueue(s);
  }

  lemma DispatchSendsNothing(s: State)
    requires HubReady(s, Dispatch) && QueueIsSuffix(s)
    ensures QueueIsSuffix(HubStep(s, Dispatch)) && NothingSent(s, HubStep(s, Dispatch))
  {
    assert s.broadcast[0] == s.enqueued[Taken(s)];
  }

  lemma FanOutEndsSendNothing(s: State, e: HubEvent)
    requires HubReady(s, e) && QueueIsSuffix(s) && (e.BeginFanOut? || e.FinishFanOut?)
    ensures QueueIsSuffix(HubStep(s, e)) && NothingSent(s, HubStep(s, e))
  {
  }

  lemma HubStepSendsNothing(s: State, e: HubEvent)
    requires HubReady(s, e) && QueueIsSuffix(s) && !e.DeliverTo?
    ensures QueueIsSuffix(HubStep(s, e)) && NothingSent(s, HubStep(s, e))
  {
    match e
    case ReceiveRegister(_) => RegisterSendsNothing(s, e);
    case FinishRegister => RegisterSendsNothing(s, e);
    case ReceiveUnregister(c) => ReceiveUnregisterSendsNothing(s, c);
    case FinishUnregister => FinishUnregisterSendsNothing(s);
    case Dispatch => DispatchSendsNothing(s);
    case _ => FanOutEndsSendNothing(s, e);
  }

  lemma DeliverKeepsQueue(s: State, c: ConnId)
    requires HubReady(s, DeliverTo(c)) && QueueIsSuffix(s)
    ensures QueueIsSuffix(HubStep(s, DeliverTo(c)))
  {
  }

  /** The broadcast channel and the dispatcher are as they were. */
  ghost predicate QueueUntouched(s: State, s': State) {
    s'.enqueued == s.enqueued && s'.broadcast == s.broadcast && s'.hubPc == s.hubPc
  }

  lemma TalkTouchesNoQueue(s: State, c: ConnId, a: SpeakAction)
    requires Known(s, c) && CanSpeak(s, c, a) && !a.Enqueue?
    ensures QueueUntouched(s, Speak(s, c, a)) && Speak(s, c, a).hub == s.hub
  {
  }

  lemma SpeakKeepsQueue(s: State, c: ConnId, a: SpeakAction)
    requires Known(s, c) && CanSpeak(s, c, a) && QueueIsSuffix(s)
    ensures QueueIsSuffix(Speak(s, c, a)) && NothingSent(s, Speak(s, c, a))
  {
    if a.Enqueue? {
      EnqueueKeepsQueue(s, c);
    } else {
      TalkTouchesNoQueue(s, c, a);
    }
  }

  lemma EnqueueKeepsQueue(s: State, c: ConnId)
    requires Known(s, c) && CanSpeak(s, c, SpeakAction.Enqueue) && QueueIsSuffix(s)
    ensures var s' := Speak(s, c, SpeakAction.Enqueue);
            QueueIsSuffix(s') && NothingSent(s, s')
  {
  }

  lemma CatchKeepsQueue(s: State, c: ConnId, a: ReplayAction)
    requires Known(s, c) && CanCatch(s, c, a)
    ensures QueueUntouched(s, Catch(s, c, a))
    ensures !a.PushReplay? ==> Catch(s, c, a).hub == s.hub
  {
  }

  lemma ChangeKeepsQueue(s: State, c: ConnId, a: RoomAction)
    requires Known(s, c) && CanChange(s, c, a)
    ensures var s' := Change(s, c, a);
            && QueueUntouched(s, s') && s'.hub.conns.Keys == s.hub.conns.Keys
            && forall d :: d in s.hub.conns ==> s'.hub.conns[d].received == s.hub.conns[d].received
  {
  }

  predicate IsPush(step: Step) {
    step.Catching? && step.replay.PushReplay?
  }

  lemma ExitKeepsQueue(s: State, c: ConnId, a: ExitAction)
    requires Known(s, c) && CanExit(s, c, a)
    ensures QueueUntouched(s, Exit(s, c, a)) && Exit(s, c, a).hub == s.hub
  {
  }

  /** The broadcast channel is as it was, and nobody has been sent anything. */
  ghost predicate NobodySent(s: State, s': State) {
    && QueueUntouched(s, s')
    && forall c :: c in s'.hub.conns ==>
         || (c in s.hub.conns && s'.hub.conns[c].received == s.hub.conns[c].received)
         || s'.hub.conns[c].received == []
  }

  lemma OthersSendNothing(s: State, step: Step, s': State)
    requires Next(s, step) == Some(s') && !step.Speaking? && !step.ByHub? && !IsPush(step)
    ensures NobodySent(s, s')
  {
    match step
    case InRoom(c, a) => ChangeKeepsQueue(s, c, a);
    case Catching(c, a) => CatchKeepsQueue(s, c, a);
    case Leaving(c, a) => ExitKeepsQueue(s, c, a);
    case _ =>
  }

  lemma OthersKeepQueue(s: State, step: Step, s': State)
    requires Next(s, step) == Some(s') && QueueIsSuffix(s) && !step.Speaking? && !step.ByHub?
    ensures QueueUntouched(s, s')
    ensures !IsPush(step) ==> NothingSent(s, s')
  {
    if IsPush(step) {
      CatchKeepsQueue(s, step.c, step.replay);
    } else {
      OthersSendNothing(s, step, s');
    }
  }

  lemma StepKeepsReceived(s: State, step: Step, s': State)
    requires Next(s, step) == Some(s') && QueueIsSuffix(s) && ReceivedInOrder(s) && EnqueuedInOrder(s)
    ensures QueueIsSuffix(s') && ReceivedInOrder(s')
  {
    if step.Speaking? {
      SpeakKeepsQueue(s, step.c, step.speech);
      NothingSentKeepsReceived(s, s');
    } else if step.ByHub? {
      if step.event.DeliverTo? {
        DeliverKeepsQueue(s, step.event.c);
        DeliverKeepsReceived(s, step.event.c);
      } else {
        HubStepSendsNothing(s, step.event);
        NothingSentKeepsReceived(s, s');
      }
    } else {
      OthersKeepQueue(s, step, s');
      if IsPush(step) {
        PushKeepsReceived(s, step.c);
      } else {
        NothingSentKeepsReceived(s, s');
      }
    }
  }
}
