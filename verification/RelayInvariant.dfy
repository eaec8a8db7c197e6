/** What every step of the relay keeps of the hub.  In every reachable state a room lists only
    connections whose own list names it, the dispatcher removes only connections whose goroutine has
    finished, and every connection that has been handed to the hub is registered; as long as no
    delivery has met a full channel, the two room indexes agree for every registered connection, no
    stored room is empty and no channel is closed before its owner has left; and a channel that was
    closed while its owner is registered stays so. */
module RelayInvariant {
  import opened Voice
  import opened Hub
  import opened Wrappers
  import opened Relay

  /** Holds in every reachable state, also after deliveries have met full channels. */
  ghost predicate Indexed(s: State) {
    && s.conns.Keys == s.hub.conns.Keys
    && s.hub.clients <= s.conns.Keys
    && (s.hubPc.Adding? ==> s.hubPc.c in s.conns && !s.conns[s.hubPc.c].pc.Done?)
    && (s.hubPc.Removing? ==> s.hubPc.c in s.conns)
    && (s.hubPc.FanningOut? ==> s.hubPc.todo <= Members(s.hub, s.hubPc.live.room))
    && IndexIncluded(s.hub)
  }

  /** A closed channel belongs to a connection that has left for good. */
  ghost predicate Gone(s: State, c: ConnId) {
    c in s.conns && s.conns[c].pc.Done? && c !in s.hub.clients && forall room :: c !in Members(s.hub, room)
  }

  /** Holds as long as no delivery has met a full channel. */
  ghost predicate Orderly(s: State) {
    && !s.panicked
    && NoEmptyRoom(s.hub)
    && forall c {:trigger IndexAgrees(s.hub, c)} {:trigger Gone(s, c)} ::
         c in s.hub.conns ==> if s.hub.conns[c].closed then Gone(s, c) else IndexAgrees(s.hub, c)
  }

  /** What the steps of a serving goroutine that touch no room leave alone. */
  ghost predicate RoomsUntouched(s: State, s': State, c: ConnId) {
    && s'.hubPc == s.hubPc && s'.overflowed == s.overflowed && s'.panicked == s.panicked
    && SameRooms(s.hub, s'.hub)
    && s'.conns.Keys == s.conns.Keys
    && (c in s.conns ==> if s.conns[c].pc.Done? then s'.conns[c] == s.conns[c] else !s'.conns[c].pc.Done?)
    && forall d :: d in s.conns && d != c ==> s'.conns[d] == s.conns[d]
  }

  lemma SpeakTouchesNoRoom(s: State, c: ConnId, a: SpeakAction)
    requires Known(s, c) && CanSpeak(s, c, a)
    ensures RoomsUntouched(s, Speak(s, c, a), c)
  {
  }

  lemma PushTouchesNoRoom(s: State, c: ConnId)
    requires Known(s, c) && CanCatch(s, c, PushReplay)
    ensures RoomsUntouched(s, Catch(s, c, PushReplay), c)
  {
    var rest := s.conns[c].pc.rest;
    SendsKeepRooms(s.hub, c, if rest == [] then ReplayEnd else ReplayPacket(rest[0]));
  }

  lemma CatchTouchesNoRoom(s: State, c: ConnId, a: ReplayAction)
    requires Known(s, c) && CanCatch(s, c, a)
    ensures RoomsUntouched(s, Catch(s, c, a), c)
  {
    if a.PushReplay? {
      PushTouchesNoRoom(s, c);
    }
  }

  lemma ExitTouchesNoRoom(s: State, c: ConnId, a: ExitAction)
    requires Known(s, c) && CanExit(s, c, a)
    ensures RoomsUntouched(s, Exit(s, c, a), c)
  {
  }

  predicate TouchesNoRoom(step: Step) {
    step.Speaking? || step.Catching? || step.Leaving? || step.DrainOne? || step.Sweep?
  }

  function Actor(step: Step): ConnId {
    if step.Sweep? || step.ByHub? then 0 else step.c
  }

  lemma StepTouchesNoRoom(s: State, step: Step, s': State)
    requires Next(s, step) == Some(s') && TouchesNoRoom(step)
    ensures RoomsUntouched(s, s', Actor(step))
  {
    match step
    case Speaking(c, a) => SpeakTouchesNoRoom(s, c, a);
    case Catching(c, a) => CatchTouchesNoRoom(s, c, a);
    case Leaving(c, a) => ExitTouchesNoRoom(s, c, a);
    case DrainOne(c) => SendsKeepRooms(s.hub, c, ReplayEnd);
    case Sweep(_, _) =>
  }

  // ---- One-way inclusion ----

  lemma UntouchedKeepsIndexed(s: State, s': State, c: ConnId)
    requires Indexed(s) && RoomsUntouched(s, s', c)
    ensures Indexed(s')
  {
    SameIndexes(s.hub, s'.hub);
  }

  lemma ChangeKeepsIndexed(s: State, c: ConnId, a: RoomAction)
    requires Known(s, c) && CanChange(s, c, a) && Indexed(s)
    ensures Indexed(Change(s, c, a))
  {
    match a
    case FirstJoin => JoinKeepsIndexes(s.hub, c, s.conns[c].pc.room);
    case Join(room) => JoinKeepsIndexes(s.hub, c, room);
    case Leave(room) => LeaveKeepsIndexes(s.hub, c, room);
  }

  lemma UnregisterKeepsIndexed(s: State)
    requires HubReady(s, FinishUnregister) && Indexed(s)
    ensures Indexed(HubStep(s, FinishUnregister))
  {
    if s.hubPc.c in s.hub.clients {
      UnregisterLeavesEveryRoom(s.hub, s.hubPc.c);
    }
  }

  lemma DeliverKeepsIndexed(s: State, c: ConnId)
    requires HubReady(s, DeliverTo(c)) && Indexed(s)
    ensures Indexed(HubStep(s, DeliverTo(c)))
  {
    DeliverKeepsIndexes(s.hub, c, s.hubPc.live);
  }

  lemma HubStepKeepsIndexed(s: State, e: HubEvent)
    requires HubReady(s, e) && Indexed(s)
    ensures Indexed(HubStep(s, e))
  {
    match e
    case FinishRegister => RegisterKeepsIndexes(s.hub, s.hubPc.c);
    case FinishUnregister => UnregisterKeepsIndexed(s);
    case DeliverTo(c) => DeliverKeepsIndexed(s, c);
    case _ =>
  }

  lemma StepKeepsIndexed(s: State, step: Step, s': State)
    requires Next(s, step) == Some(s') && Indexed(s)
    ensures Indexed(s')
  {
    if TouchesNoRoom(step) {
      StepTouchesNoRoom(s, step, s');
      UntouchedKeepsIndexed(s, s', Actor(step));
    } else {
      match step
      case Connect(c, _, _) => AddConnKeepsIndexes(s.hub, c);
      case InRoom(c, a) => ChangeKeepsIndexed(s, c, a);
      case ByHub(e) => HubStepKeepsIndexed(s, e);
    }
  }

  // ---- Agreement, and the absence of panics ----

  lemma UntouchedKeepsOrderly(s: State, s': State, c: ConnId)
    requires Indexed(s) && Orderly(s) && RoomsUntouched(s, s', c)
    ensures Orderly(s')
  {
    SameIndexes(s.hub, s'.hub);
    forall d | d in s'.hub.conns ensures if s'.hub.conns[d].closed then Gone(s', d) else IndexAgrees(s'.hub, d) {
      assert if s.hub.conns[d].closed then Gone(s, d) else IndexAgrees(s.hub, d);
    }
  }

  lemma ChangeKeepsOrderly(s: State, c: ConnId, a: RoomAction)
    requires Known(s, c) && CanChange(s, c, a) && Indexed(s) && Orderly(s)
    ensures Orderly(Change(s, c, a))
  {
    var s' := Change(s, c, a);
    match a {
      case FirstJoin => JoinKeepsIndexes(s.hub, c, s.conns[c].pc.room);
      case Join(room) => JoinKeepsIndexes(s.hub, c, room);
      case Leave(room) => LeaveKeepsIndexes(s.hub, c, room);
    }
    forall d | d in s'.hub.conns ensures if s'.hub.conns[d].closed then Gone(s', d) else IndexAgrees(s'.hub, d) {
      assert if s.hub.conns[d].closed then Gone(s, d) else IndexAgrees(s.hub, d);
    }
  }

  lemma ConnectKeepsOrderly(s: State, c: ConnId, user: UserId, room: RoomId)
    requires c !in s.conns && Indexed(s) && Orderly(s)
    ensures Orderly(DoConnect(s, c, user, room))
  {
    var s' := DoConnect(s, c, user, room);
    AddConnKeepsIndexes(s.hub, c);
    forall d | d in s'.hub.conns ensures if s'.hub.conns[d].closed then Gone(s', d) else IndexAgrees(s'.hub, d) {
      if d != c {
        assert if s.hub.conns[d].closed then Gone(s, d) else IndexAgrees(s.hub, d);
      }
    }
  }

  lemma RegisterKeepsOrderly(s: State)
    requires HubReady(s, FinishRegister) && Indexed(s) && Orderly(s)
    ensures Orderly(HubStep(s, FinishRegister))
  {
    var s' := HubStep(s, FinishRegister);
    RegisterKeepsIndexes(s.hub, s.hubPc.c);
    forall d | d in s'.hub.conns ensures if s'.hub.conns[d].closed then Gone(s', d) else IndexAgrees(s'.hub, d) {
      assert if s.hub.conns[d].closed then Gone(s, d) else IndexAgrees(s.hub, d);
    }
  }

  lemma UnregisterKeepsOrderly(s: State)
    requires HubReady(s, FinishUnregister) && Indexed(s) && Orderly(s) && s.conns[s.hubPc.c].pc.Done?
    ensures Orderly(HubStep(s, FinishUnregister))
  {
    var s', c := HubStep(s, FinishUnregister), s.hubPc.c;
    assert s.hub.conns[c].closed ==> Gone(s, c);
    if c in s.hub.clients {
      UnregisterLeavesEveryRoom(s.hub, c);
      assert Gone(s', c);
    }
    forall d | d in s'.hub.conns ensures if s'.hub.conns[d].closed then Gone(s', d) else IndexAgrees(s'.hub, d) {
      assert if s.hub.conns[d].closed then Gone(s, d) else IndexAgrees(s.hub, d);
    }
  }

  lemma DeliverKeepsOrderly(s: State, c: ConnId)
    requires HubReady(s, DeliverTo(c)) && Indexed(s) && Orderly(s) && !Full(s.hub, c)
    ensures Orderly(HubStep(s, DeliverTo(c)))
  {
    var s' := HubStep(s, DeliverTo(c));
    DeliverKeepsIndexes(s.hub, c, s.hubPc.live);
    assert s.hub.conns[c].closed ==> Gone(s, c);
    forall d | d in s'.hub.conns ensures if s'.hub.conns[d].closed then Gone(s', d) else IndexAgrees(s'.hub, d) {
      assert if s.hub.conns[d].closed then Gone(s, d) else IndexAgrees(s.hub, d);
    }
  }

  lemma OtherHubStepsKeepOrderly(s: State, e: HubEvent)
    requires HubReady(s, e) && Indexed(s) && Orderly(s)
    requires !e.FinishRegister? && !e.FinishUnregister? && !e.DeliverTo?
    ensures Orderly(HubStep(s, e))
  {
    var s' := HubStep(s, e);
    forall d | d in s'.hub.conns ensures if s'.hub.conns[d].closed then Gone(s', d) else IndexAgrees(s'.hub, d) {
      assert if s.hub.conns[d].closed then Gone(s, d) else IndexAgrees(s.hub, d);
    }
  }

  /** The dispatcher only removes connections whose goroutine has finished. */
  ghost predicate RemovingDone(s: State) {
    s.hubPc.Removing? ==> s.hubPc.c in s.conns && s.conns[s.hubPc.c].pc.Done?
  }

  lemma HubStepKeepsRemovingDone(s: State, e: HubEvent)
    requires HubReady(s, e) && RemovingDone(s)
    ensures RemovingDone(HubStep(s, e)) && (s.overflowed ==> HubStep(s, e).overflowed)
  {
  }

  lemma StepKeepsRemovingDone(s: State, step: Step, s': State)
    requires Next(s, step) == Some(s') && RemovingDone(s)
    ensures RemovingDone(s') && (s.overflowed ==> s'.overflowed)
  {
    if TouchesNoRoom(step) {
      StepTouchesNoRoom(s, step, s');
    } else if step.ByHub? {
      HubStepKeepsRemovingDone(s, step.event);
    }
  }

  lemma HubStepKeepsOrderly(s: State, e: HubEvent)
    requires HubReady(s, e) && Indexed(s) && Orderly(s) && RemovingDone(s)
    requires e.DeliverTo? ==> !s.hub.conns[e.c].closed && !Full(s.hub, e.c)
    ensures Orderly(HubStep(s, e))
  {
    match e
    case FinishRegister => RegisterKeepsOrderly(s);
    case FinishUnregister => UnregisterKeepsOrderly(s);
    case DeliverTo(c) => DeliverKeepsOrderly(s, c);
    case _ => OtherHubStepsKeepOrderly(s, e);
  }

  lemma StepKeepsOrderly(s: State, step: Step, s': State)
    requires Next(s, step) == Some(s') && Indexed(s) && Orderly(s) && RemovingDone(s)
    requires !s'.overflowed
    ensures Orderly(s')
  {
    if TouchesNoRoom(step) {
      StepTouchesNoRoom(s, step, s');
      UntouchedKeepsOrderly(s, s', Actor(step));
    } else {
      match step
      case Connect(c, user, room) => ConnectKeepsOrderly(s, c, user, room);
      case InRoom(c, a) => ChangeKeepsOrderly(s, c, a);
      case ByHub(e) =>
        if e.DeliverTo? {
          assert s.hub.conns[e.c].closed ==> Gone(s, e.c);
        }
        HubStepKeepsOrderly(s, e);
    }
  }

  // ---- Who is registered ----

  predicate Listed(s: State, c: ConnId) {
    c in s.hub.clients || s.hubPc == Adding(c)
  }

  /** Every connection that has been handed to the hub and not handed back is registered or about to
      be, and so is every member of a room. */
  ghost predicate Enlisted(s: State) {
    && (forall c {:trigger Listed(s, c)} ::
          c in s.conns && !s.conns[c].pc.Registering? && !s.conns[c].pc.Done? ==> Listed(s, c))
    && (forall c, room {:trigger c in Members(s.hub, room)} :: c in Members(s.hub, room) ==> Listed(s, c))
  }

  lemma UntouchedKeepsEnlisted(s: State, step: Step, s': State)
    requires Next(s, step) == Some(s') && TouchesNoRoom(step) && Enlisted(s)
    ensures Enlisted(s')
  {
    StepTouchesNoRoom(s, step, s');
    SameIndexes(s.hub, s'.hub);
    forall c | c in s'.conns && !s'.conns[c].pc.Registering? && !s'.conns[c].pc.Done? ensures Listed(s', c) {
      assert Listed(s, c);
    }
  }

  lemma ChangeKeepsEnlisted(s: State, c: ConnId, a: RoomAction)
    requires Known(s, c) && CanChange(s, c, a) && Indexed(s) && Enlisted(s)
    ensures Enlisted(Change(s, c, a))
  {
    var s' := Change(s, c, a);
    assert Listed(s, c);
    match a {
      case FirstJoin => JoinKeepsIndexes(s.hub, c, s.conns[c].pc.room);
      case Join(room) => JoinKeepsIndexes(s.hub, c, room);
      case Leave(room) => LeaveKeepsIndexes(s.hub, c, room);
    }
    forall d | d in s'.conns && !s'.conns[d].pc.Registering? && !s'.conns[d].pc.Done? ensures Listed(s', d) {
      assert Listed(s, d);
    }
    forall d, room | d in Members(s'.hub, room) ensures Listed(s', d) {
      assert d == c || d in Members(s.hub, room);
      assert Listed(s, d);
    }
  }

  lemma UnregisterKeepsEnlisted(s: State)
    requires HubReady(s, FinishUnregister) && Indexed(s) && RemovingDone(s) && Enlisted(s)
    ensures Enlisted(HubStep(s, FinishUnregister))
  {
    var s', c := HubStep(s, FinishUnregister), s.hubPc.c;
    if c in s.hub.clients {
      UnregisterLeavesEveryRoom(s.hub, c);
    }
    forall d, room | d in Members(s'.hub, room) ensures Listed(s', d) {
      assert d in Members(s.hub, room);
      assert Listed(s, d);
    }
    forall d | d in s'.conns && !s'.conns[d].pc.Registering? && !s'.conns[d].pc.Done? ensures Listed(s', d) {
      assert Listed(s, d);
    }
  }

  lemma DeliverKeepsEnlisted(s: State, c: ConnId)
    requires HubReady(s, DeliverTo(c)) && Indexed(s) && Enlisted(s)
    ensures Enlisted(HubStep(s, DeliverTo(c)))
  {
    var s' := HubStep(s, DeliverTo(c));
    DeliverKeepsIndexes(s.hub, c, s.hubPc.live);
    forall d, room | d in Members(s'.hub, room) ensures Listed(s', d) {
      assert d in Members(s.hub, room);
      assert Listed(s, d);
    }
    forall d | d in s'.conns && !s'.conns[d].pc.Registering? && !s'.conns[d].pc.Done? ensures Listed(s', d) {
      assert Listed(s, d);
    }
  }

  lemma OtherHubStepsKeepEnlisted(s: State, e: HubEvent)
    requires HubReady(s, e) && Enlisted(s) && !e.FinishUnregister? && !e.DeliverTo?
    ensures Enlisted(HubStep(s, e))
  {
    var s' := HubStep(s, e);
    forall d, room | d in Members(s'.hub, room) ensures Listed(s', d) {
      assert d in Members(s.hub, room);
      assert Listed(s, d);
    }
    forall d | d in s'.conns && !s'.conns[d].pc.Registering? && !s'.conns[d].pc.Done? ensures Listed(s', d) {
      assert e != ReceiveRegister(d) ==> Listed(s, d);
    }
  }

  lemma ConnectKeepsEnlisted(s: State, c: ConnId, user: UserId, room: RoomId)
    requires c !in s.conns && Indexed(s) && Enlisted(s)
    ensures Enlisted(DoConnect(s, c, user, room))
  {
    var s' := DoConnect(s, c, user, room);
    AddConnKeepsIndexes(s.hub, c);
    forall d | d in s'.conns && !s'.conns[d].pc.Registering? && !s'.conns[d].pc.Done? ensures Listed(s', d) {
      assert Listed(s, d);
    }
    forall d, r | d in Members(s'.hub, r) ensures Listed(s', d) {
      assert d in Members(s.hub, r);
      assert Listed(s, d);
    }
  }

  lemma StepKeepsEnlisted(s: State, step: Step, s': State)
    requires Next(s, step) == Some(s') && Indexed(s) && RemovingDone(s) && Enlisted(s)
    ensures Enlisted(s')
  {
    if TouchesNoRoom(step) {
      UntouchedKeepsEnlisted(s, step, s');
    } else {
      match step
      case Connect(c, user, room) => ConnectKeepsEnlisted(s, c, user, room);
      case InRoom(c, a) => ChangeKeepsEnlisted(s, c, a);
      case ByHub(DeliverTo(c)) => DeliverKeepsEnlisted(s, c);
      case ByHub(FinishUnregister) => UnregisterKeepsEnlisted(s);
      case ByHub(e) => OtherHubStepsKeepEnlisted(s, e);
    }
  }

  ghost predicate Sound(s: State) {
    Indexed(s) && RemovingDone(s) && Enlisted(s) && (!s.overflowed ==> Orderly(s))
  }

  lemma StepKeepsSound(s: State, step: Step, s': State)
    requires Next(s, step) == Some(s') && Sound(s)
    ensures Sound(s')
  {
    StepKeepsIndexed(s, step, s');
    StepKeepsRemovingDone(s, step, s');
    StepKeepsEnlisted(s, step, s');
    if !s'.overflowed {
      StepKeepsOrderly(s, step, s');
    }
  }

  // ---- After an overflow ----

  /** The connection's channel is closed while it is still registered. */
  predicate Doomed(s: State, c: ConnId) {
    c in s.hub.clients && c in s.hub.conns && s.hub.conns[c].closed
  }

  /** A delivery that meets a full channel closes it and leaves its owner registered. */
  lemma OverflowDooms(s: State, c: ConnId)
    requires HubReady(s, DeliverTo(c)) && Indexed(s) && Enlisted(s) && Full(s.hub, c) && !s.hub.conns[c].closed
    ensures Doomed(HubStep(s, DeliverTo(c)), c)
  {
    assert c in Members(s.hub, s.hubPc.live.room);
    assert Listed(s, c);
  }

  lemma HubStepKeepsDoomed(s: State, e: HubEvent, c: ConnId)
    requires HubReady(s, e) && Doomed(s, c)
    ensures Doomed(HubStep(s, e), c) && (e.FinishUnregister? && s.hubPc.c == c ==> HubStep(s, e).panicked)
  {
  }

  lemma StepKeepsDoomed(s: State, step: Step, s': State, c: ConnId)
    requires Next(s, step) == Some(s') && Indexed(s) && Doomed(s, c)
    ensures Doomed(s', c) && (step == ByHub(FinishUnregister) && s.hubPc.c == c ==> s'.panicked)
  {
    if TouchesNoRoom(step) {
      StepTouchesNoRoom(s, step, s');
    } else if step.ByHub? {
      HubStepKeepsDoomed(s, step.event, c);
    }
  }
}
