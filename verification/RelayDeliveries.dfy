/** What every step of the relay does to the way of one chunk to one listener, and to the replay of one
    connection.  A chunk that has been numbered is in the hands of its goroutine, in the broadcast
    channel, with the dispatcher, in the unfinished replay, or it has arrived; a step that does not
    meet the listener's channel full or closed moves it on or leaves it, and never loses it.  And the
    replayed packets that a connection has been sent grow by nothing but its own sends, of which each
    puts the next message of its snapshot, or the terminator, into the channel, or is refused and
    ends the replay. */
module RelayDeliveries {
  import opened Sequences
  import opened AudioBuffer
  import opened Hub
  import opened Wrappers
  import opened Relay
  import opened RelayConnections

  /** The chunk has been put into c's send channel, from the live feed or from a replay. */
  predicate Got(s: State, c: ConnId, n: Numbered) {
    c in s.hub.conns
    && (LivePacket(n.live) in s.hub.conns[c].received || ReplayPacket(n.stored) in s.hub.conns[c].received)
  }

  /** The chunk is on its way to c: in c's unfinished replay, with the dispatcher, in the broadcast
      channel, or in the hands of the goroutine that numbered it. */
  predicate InFlight(s: State, c: ConnId, n: Numbered) {
    || (c in s.conns && s.conns[c].pc.Replaying? && n.stored in s.conns[c].pc.rest)
    || s.hubPc == Dispatching(n.live)
    || (s.hubPc.FanningOut? && s.hubPc.live == n.live && c in s.hubPc.todo)
    || n.live in s.broadcast
    || (n.live.sender in s.conns && s.conns[n.live.sender].pc == Enqueueing(n.live))
  }

  /** This step meets c's send channel full or closed. */
  predicate Drops(s: State, step: Step, c: ConnId) {
    && (step == ByHub(DeliverTo(c)) || step == Catching(c, PushReplay))
    && c in s.hub.conns && (s.hub.conns[c].closed || Full(s.hub, c))
  }

  predicate Covered(s: State, c: ConnId, n: Numbered) {
    Got(s, c, n) || InFlight(s, c, n)
  }

  lemma SpeakKeepsCovered(s: State, d: ConnId, a: SpeakAction, c: ConnId, n: Numbered)
    requires Known(s, d) && CanSpeak(s, d, a) && Covered(s, c, n) && n.live.sender != c
    ensures Covered(Speak(s, d, a), c, n)
  {
  }

  lemma CatchKeepsCovered(s: State, d: ConnId, a: ReplayAction, c: ConnId, n: Numbered)
    requires Known(s, d) && CanCatch(s, d, a) && Covered(s, c, n) && n.live.sender != c
    requires !Drops(s, Catching(d, a), c)
    ensures Covered(Catch(s, d, a), c, n)
  {
    if d == c && a.PushReplay? {
      var rest := s.conns[c].pc.rest;
      assert n.stored in rest ==> n.stored == rest[0] || n.stored in rest[1..];
    }
  }

  lemma DispatchKeepsCovered(s: State, e: HubEvent, c: ConnId, n: Numbered)
    requires HubReady(s, e) && Covered(s, c, n) && n.live.sender != c && (e.Dispatch? || e.BeginFanOut?)
    requires c in Members(s.hub, n.live.room)
    ensures Covered(HubStep(s, e), c, n)
  {
    if e.Dispatch? {
      assert n.live in s.broadcast ==> n.live == s.broadcast[0] || n.live in s.broadcast[1..];
    }
  }

  lemma DeliverKeepsCovered(s: State, d: ConnId, c: ConnId, n: Numbered)
    requires HubReady(s, DeliverTo(d)) && Covered(s, c, n) && !Drops(s, ByHub(DeliverTo(d)), c)
    ensures Covered(HubStep(s, DeliverTo(d)), c, n)
  {
  }

  lemma HubStepKeepsCovered(s: State, e: HubEvent, c: ConnId, n: Numbered)
    requires HubReady(s, e) && Covered(s, c, n) && n.live.sender != c
    requires c in Members(s.hub, n.live.room) && !Drops(s, ByHub(e), c)
    ensures Covered(HubStep(s, e), c, n)
  {
    match e
    case Dispatch => DispatchKeepsCovered(s, e, c, n);
    case BeginFanOut => DispatchKeepsCovered(s, e, c, n);
    case DeliverTo(d) => DeliverKeepsCovered(s, d, c, n);
    case _ =>
  }

  lemma ChangeKeepsCovered(s: State, d: ConnId, a: RoomAction, c: ConnId, n: Numbered)
    requires Known(s, d) && CanChange(s, d, a) && Covered(s, c, n)
    ensures Covered(Change(s, d, a), c, n)
  {
  }

  lemma ExitKeepsCovered(s: State, d: ConnId, a: ExitAction, c: ConnId, n: Numbered)
    requires Known(s, d) && CanExit(s, d, a) && Covered(s, c, n)
    ensures Covered(Exit(s, d, a), c, n)
  {
  }

  lemma StepKeepsCovered(s: State, step: Step, s': State, c: ConnId, n: Numbered)
    requires Next(s, step) == Some(s') && Covered(s, c, n) && n.live.sender != c
    requires c in s.conns && c in Members(s.hub, n.live.room) && !Drops(s, step, c)
    ensures Covered(s', c, n)
  {
    match step
    case InRoom(d, a) => ChangeKeepsCovered(s, d, a, c, n);
    case Speaking(d, a) => SpeakKeepsCovered(s, d, a, c, n);
    case Catching(d, a) => CatchKeepsCovered(s, d, a, c, n);
    case Leaving(d, a) => ExitKeepsCovered(s, d, a, c, n);
    case ByHub(e) => HubStepKeepsCovered(s, e, c, n);
    case _ =>
  }

  // ---- What one replay sends ----

  function IsReplay(): Packet -> bool {
    (p: Packet) => !p.LivePacket?
  }

  /** The replayed packets that c has been sent, with the live ones in between left out. */
  function Replayed(s: State, c: ConnId): seq<Packet>
    requires c in s.hub.conns
  {
    Filter(s.hub.conns[c].received, IsReplay())
  }

  function Packets(msgs: seq<Message>): seq<Packet> {
    seq(|msgs|, i requires 0 <= i < |msgs| => ReplayPacket(msgs[i]))
  }

  /** The step neither touches c's send channel nor its replay. */
  predicate Undisturbed(s: State, s': State, c: ConnId)
    requires Known(s, c)
  {
    && Known(s', c) && s'.hub.conns[c].received == s.hub.conns[c].received
    && (s.conns[c].pc.Replaying? ==> s'.conns[c].pc == s.conns[c].pc)
  }

  lemma OthersCatch(s: State, d: ConnId, a: ReplayAction, c: ConnId)
    requires Known(s, d) && CanCatch(s, d, a) && Known(s, c) && (d != c || !a.PushReplay?)
    ensures Undisturbed(s, Catch(s, d, a), c)
  {
  }

  lemma OthersDelivered(s: State, d: ConnId, c: ConnId)
    requires HubReady(s, DeliverTo(d)) && Known(s, c) && d != c
    ensures Undisturbed(s, HubStep(s, DeliverTo(d)), c)
  {
  }

  lemma OthersUnregistered(s: State, c: ConnId)
    requires HubReady(s, FinishUnregister) && Known(s, c)
    ensures Undisturbed(s, HubStep(s, FinishUnregister), c)
  {
    UnregisterSendsNothing(s.hub, s.hubPc.c);
  }

  lemma OthersByHub(s: State, e: HubEvent, c: ConnId)
    requires HubReady(s, e) && Known(s, c) && e != DeliverTo(c)
    ensures Undisturbed(s, HubStep(s, e), c)
  {
    match e
    case DeliverTo(d) => OthersDelivered(s, d, c);
    case FinishUnregister => OthersUnregistered(s, c);
    case _ =>
  }

  lemma OthersSpeak(s: State, d: ConnId, a: SpeakAction, c: ConnId)
    requires Known(s, d) && CanSpeak(s, d, a) && Known(s, c)
    ensures Undisturbed(s, Speak(s, d, a), c)
  {
  }

  lemma OthersChange(s: State, d: ConnId, a: RoomAction, c: ConnId)
    requires Known(s, d) && CanChange(s, d, a) && Known(s, c)
    ensures Undisturbed(s, Change(s, d, a), c)
  {
  }

  lemma OthersUndisturbed(s: State, step: Step, s': State, c: ConnId)
    requires Next(s, step) == Some(s') && Known(s, c)
    requires step != Catching(c, PushReplay) && step != ByHub(DeliverTo(c))
    ensures Undisturbed(s, s', c)
  {
    match step
    case InRoom(d, a) => OthersChange(s, d, a, c);
    case Speaking(d, a) => OthersSpeak(s, d, a, c);
    case Catching(d, a) => OthersCatch(s, d, a, c);
    case ByHub(e) => OthersByHub(s, e, c);
    case _ =>
  }

  /** A live packet is left out of the replayed ones. */
  lemma LiveIsNotReplayed(s: State, c: ConnId)
    requires HubReady(s, DeliverTo(c))
    ensures var s' := HubStep(s, DeliverTo(c));
            Known(s', c) && s'.conns == s.conns && Replayed(s', c) == Replayed(s, c)
  {
    FilterAppend(s.hub.conns[c].received, [LivePacket(s.hubPc.live)], IsReplay());
  }

  lemma StepKeepsReplayed(s: State, step: Step, s': State, c: ConnId)
    requires Next(s, step) == Some(s') && Known(s, c) && step != Catching(c, PushReplay)
    ensures Known(s', c) && Replayed(s', c) == Replayed(s, c)
    ensures s.conns[c].pc.Replaying? ==> s'.conns[c].pc == s.conns[c].pc
  {
    if step == ByHub(DeliverTo(c)) {
      LiveIsNotReplayed(s, c);
    } else {
      OthersUndisturbed(s, step, s', c);
    }
  }

  lemma PushReplays(s: State, c: ConnId)
    requires Known(s, c) && CanCatch(s, c, PushReplay)
    ensures var s', rest := Catch(s, c, PushReplay), s.conns[c].pc.rest;
            && Known(s', c)
            && if Drops(s, Catching(c, PushReplay), c) then
                 Replayed(s', c) == Replayed(s, c) && s'.conns[c].pc == Reading
               else if rest == [] then
                 Replayed(s', c) == Replayed(s, c) + [ReplayEnd] && s'.conns[c].pc == Reading
               else
                 Replayed(s', c) == Replayed(s, c) + [ReplayPacket(rest[0])]
                 && s'.conns[c].pc == Replaying(s.conns[c].pc.room, rest[1..])
  {
    var rest := s.conns[c].pc.rest;
    FilterAppend(s.hub.conns[c].received, [if rest == [] then ReplayEnd else ReplayPacket(rest[0])], IsReplay());
  }

  /** A step that does not end the replay either leaves it alone or sends its next message. */
  lemma ReplayAdvances(s: State, step: Step, s': State, c: ConnId)
    requires Next(s, step) == Some(s') && Known(s, c) && s.conns[c].pc.Replaying?
    requires c in s'.conns && s'.conns[c].pc.Replaying?
    ensures var rest, rest' := s.conns[c].pc.rest, s'.conns[c].pc.rest;
            && Known(s', c)
            && (|| (rest' == rest && Replayed(s', c) == Replayed(s, c))
                || (rest != [] && rest' == rest[1..] && Replayed(s', c) == Replayed(s, c) + [ReplayPacket(rest[0])]))
  {
    if step == Catching(c, PushReplay) {
      PushReplays(s, c);
    } else {
      StepKeepsReplayed(s, step, s', c);
    }
  }
}
