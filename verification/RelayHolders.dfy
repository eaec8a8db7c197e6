/** What every step keeps of the lock and of those who hold it.  Under the discipline that nobody speaks
    where it has not joined and nobody leaves a room while speaking in it, each busy room has a
    connection that lists it and has yet to release it, and every step keeps that.  Without any
    discipline, the steps of others leave a user's lock alone, and while a connection runs its exit
    actions each of its own releases frees exactly the room that it visits, whatever happens
    elsewhere. */
module RelayHolders {
  import opened Voice
  import opened Hub
  import opened Relay
  import opened RelayConnections
  import opened Wrappers
  import RelayInvariant

  /** Push-to-talk only in a room that was joined and not left, and no leaving while speaking. */
  predicate Disciplined(s: State, step: Step) {
    match step
    case Speaking(c, SpeakPtt(room, _, _, _)) => c in s.hub.conns && room in s.hub.conns[c].rooms
    case InRoom(c, Leave(room)) => c in s.conns && !Holds(s.voice, s.conns[c].user, room)
    case _ => true
  }

  /** The connection that will free the room: releaseVoice has yet to visit it. */
  predicate Holder(s: State, c: ConnId, room: RoomId) {
    && Known(s, c) && !s.conns[c].pc.Done?
    && Holds(s.voice, s.conns[c].user, room)
    && room in s.hub.conns[c].rooms
    && (s.conns[c].pc.Releasing? ==> room in s.conns[c].pc.rooms)
  }

  ghost predicate EveryLockHasHolder(s: State) {
    forall room {:trigger IsChannelBusy(s.voice, room)} ::
      IsChannelBusy(s.voice, room) ==> exists c :: Holder(s, c, room)
  }

  lemma SpeakKeepsHolders(s: State, d: ConnId, a: SpeakAction)
    requires Known(s, d) && CanSpeak(s, d, a) && EveryLockHasHolder(s) && Disciplined(s, Speaking(d, a))
    ensures EveryLockHasHolder(Speak(s, d, a))
  {
    var s' := Speak(s, d, a);
    forall room | IsChannelBusy(s'.voice, room) ensures exists c :: Holder(s', c, room) {
      if a.SpeakPtt? && a.room == room && Start(s.voice, s.conns[d].user, room, a.now).1 == Ok {
        assert Holder(s', d, room);
      } else {
        assert IsChannelBusy(s.voice, room);
        var c :| Holder(s, c, room);
        assert Holder(s', c, room);
      }
    }
  }

  lemma ChangeKeepsHolders(s: State, d: ConnId, a: RoomAction)
    requires Known(s, d) && CanChange(s, d, a) && EveryLockHasHolder(s) && Disciplined(s, InRoom(d, a))
    ensures EveryLockHasHolder(Change(s, d, a))
  {
    var s' := Change(s, d, a);
    forall room | IsChannelBusy(s'.voice, room) ensures exists c :: Holder(s', c, room) {
      assert IsChannelBusy(s.voice, room);
      var c :| Holder(s, c, room);
      assert Holder(s', c, room);
    }
  }

  lemma ExitKeepsHolders(s: State, d: ConnId, a: ExitAction)
    requires Known(s, d) && CanExit(s, d, a) && EveryLockHasHolder(s)
    ensures EveryLockHasHolder(Exit(s, d, a))
  {
    var s' := Exit(s, d, a);
    forall room | IsChannelBusy(s'.voice, room) ensures exists c :: Holder(s', c, room) {
      assert IsChannelBusy(s.voice, room);
      var c :| Holder(s, c, room);
      assert Holder(s', c, room);
    }
  }

  /** Same lock table, same client.rooms, and nobody starts or finishes releasing. */
  ghost predicate HoldersUntouched(s: State, s': State) {
    && s'.voice == s.voice
    && forall c :: Known(s, c) && !(s.conns[c].pc.Releasing? && s.conns[c].pc.rooms == {}) ==>
         && Known(s', c)
         && s'.conns[c].user == s.conns[c].user && s'.hub.conns[c].rooms == s.hub.conns[c].rooms
         && (s'.conns[c].pc.Done? ==> s.conns[c].pc.Done?)
         && (s'.conns[c].pc.Releasing? ==> s'.conns[c].pc == s.conns[c].pc)
  }

  lemma UntouchedKeepsHolders(s: State, s': State)
    requires EveryLockHasHolder(s) && HoldersUntouched(s, s')
    ensures EveryLockHasHolder(s')
  {
    forall room | IsChannelBusy(s'.voice, room) ensures exists c :: Holder(s', c, room) {
      assert IsChannelBusy(s.voice, room);
      var c :| Holder(s, c, room);
      assert Holder(s', c, room);
    }
  }

  lemma CatchNeitherSpeaksNorReleases(s: State, d: ConnId, a: ReplayAction)
    requires Known(s, d) && CanCatch(s, d, a)
    ensures var s' := Catch(s, d, a);
            && s'.voice == s.voice && d in s'.conns && s'.conns[d].user == s.conns[d].user
            && !s'.conns[d].pc.Releasing? && !s'.conns[d].pc.Done?
  {
  }

  lemma CatchTouchesNoHolder(s: State, d: ConnId, a: ReplayAction)
    requires Known(s, d) && CanCatch(s, d, a)
    ensures HoldersUntouched(s, Catch(s, d, a))
  {
    CatchNeitherSpeaksNorReleases(s, d, a);
    RelayInvariant.CatchTouchesNoRoom(s, d, a);
  }

  lemma UnregisterTouchesNoHolder(s: State)
    requires HubReady(s, FinishUnregister)
    ensures HoldersUntouched(s, HubStep(s, FinishUnregister))
  {
  }

  lemma DeliverTouchesNoHolder(s: State, c: ConnId)
    requires HubReady(s, DeliverTo(c))
    ensures HoldersUntouched(s, HubStep(s, DeliverTo(c)))
  {
  }

  lemma HubStepTouchesNoHolder(s: State, e: HubEvent)
    requires HubReady(s, e)
    ensures HoldersUntouched(s, HubStep(s, e))
  {
    match e
    case FinishUnregister => UnregisterTouchesNoHolder(s);
    case DeliverTo(c) => DeliverTouchesNoHolder(s, c);
    case _ =>
  }

  lemma StepKeepsHolders(s: State, step: Step, s': State)
    requires Next(s, step) == Some(s') && EveryLockHasHolder(s) && Disciplined(s, step)
    ensures EveryLockHasHolder(s')
  {
    match step
    case Speaking(d, a) => SpeakKeepsHolders(s, d, a);
    case InRoom(d, a) => ChangeKeepsHolders(s, d, a);
    case Leaving(d, a) => ExitKeepsHolders(s, d, a);
    case Catching(d, a) => CatchTouchesNoHolder(s, d, a); UntouchedKeepsHolders(s, s');
    case ByHub(e) => HubStepTouchesNoHolder(s, e); UntouchedKeepsHolders(s, s');
    case _ => UntouchedKeepsHolders(s, s');
  }

  // ---- Without the discipline ----

  /** A step with which a connection of this user takes or gives up the lock of this room. */
  predicate ActsIn(s: State, step: Step, user: UserId, room: RoomId) {
    match step
    case Speaking(d, SpeakPtt(r, _, _, _)) => r == room && d in s.conns && s.conns[d].user == user
    case Speaking(d, SpeakOpen(r, _, _)) => r == room && d in s.conns && s.conns[d].user == user
    case Leaving(d, ReleaseRoom(r, _)) => r == room && d in s.conns && s.conns[d].user == user
    case _ => false
  }

  lemma SpeakKeepsOthersLock(s: State, d: ConnId, a: SpeakAction, user: UserId, room: RoomId)
    requires Known(s, d) && CanSpeak(s, d, a) && !ActsIn(s, Speaking(d, a), user, room)
    ensures Holds(Speak(s, d, a).voice, user, room) == Holds(s.voice, user, room)
  {
  }

  /** Nobody else can take a lock away or give it up. */
  lemma OthersKeepLock(s: State, step: Step, s': State, user: UserId, room: RoomId)
    requires Next(s, step) == Some(s') && !ActsIn(s, step, user, room)
    ensures Holds(s'.voice, user, room) == Holds(s.voice, user, room)
  {
    StepFrame(s, step, s');
    if step.Speaking? {
      SpeakKeepsOthersLock(s, step.c, step.speech, user, room);
    }
  }

  /** The user of c has no other connection. */
  ghost predicate OnlyConnection(s: State, c: ConnId)
    requires c in s.conns
  {
    forall d :: Serving(s, d) && d != c ==> s.conns[d].user != s.conns[c].user
  }

  lemma ChangeElsewhere(s: State, d: ConnId, a: RoomAction, c: ConnId)
    requires Known(s, d) && CanChange(s, d, a) && c in s.conns && s.conns[c].pc.Releasing?
    ensures c in Change(s, d, a).conns && Change(s, d, a).conns[c] == s.conns[c]
  {
  }

  lemma SpeakElsewhere(s: State, d: ConnId, a: SpeakAction, c: ConnId)
    requires Known(s, d) && CanSpeak(s, d, a) && c in s.conns && s.conns[c].pc.Releasing?
    ensures c in Speak(s, d, a).conns && Speak(s, d, a).conns[c] == s.conns[c]
  {
  }

  lemma ExitElsewhere(s: State, d: ConnId, a: ExitAction, c: ConnId)
    requires Known(s, d) && CanExit(s, d, a) && c in s.conns && d != c
    ensures c in Exit(s, d, a).conns && Exit(s, d, a).conns[c] == s.conns[c]
  {
  }

  lemma CatchElsewhere(s: State, d: ConnId, a: ReplayAction, c: ConnId)
    requires Known(s, d) && CanCatch(s, d, a) && c in s.conns && s.conns[c].pc.Releasing?
    ensures c in Catch(s, d, a).conns && Catch(s, d, a).conns[c] == s.conns[c]
  {
  }

  lemma HubStepElsewhere(s: State, e: HubEvent, c: ConnId)
    requires HubReady(s, e) && c in s.conns && s.conns[c].pc.Releasing?
    ensures c in HubStep(s, e).conns
    ensures HubStep(s, e).conns[c] == s.conns[c] || HubStep(s, e).conns[c].pc.Done?
  {
  }

  lemma ReleasingUntouched(s: State, step: Step, s': State, c: ConnId)
    requires Next(s, step) == Some(s') && c in s.conns && s.conns[c].pc.Releasing?
    requires c in s'.conns && s'.conns[c].pc.Releasing? && !(step.Leaving? && step.c == c)
    ensures s'.conns[c] == s.conns[c]
  {
    match step
    case InRoom(d, a) => ChangeElsewhere(s, d, a, c);
    case Speaking(d, a) => SpeakElsewhere(s, d, a, c);
    case Leaving(d, a) => ExitElsewhere(s, d, a, c);
    case Catching(d, a) => CatchElsewhere(s, d, a, c);
    case ByHub(e) => HubStepElsewhere(s, e, c);
    case _ =>
  }

  lemma ReleaseStep(s: State, step: Step, s': State, c: ConnId, room: RoomId)
    requires Next(s, step) == Some(s') && c in s.conns && OnlyConnection(s, c)
    requires s.conns[c].pc.Releasing? && c in s'.conns && s'.conns[c].pc.Releasing?
    ensures var user, todo, todo' := s.conns[c].user, s.conns[c].pc.rooms, s'.conns[c].pc.rooms;
            && s'.conns[c].user == user
            && if room in todo && room !in todo' then !Holds(s'.voice, user, room)
               else (room in todo <==> room in todo') && Holds(s'.voice, user, room) == Holds(s.voice, user, room)
  {
    ConnectionStays(s, step, s', c);
    if !(step.Leaving? && step.c == c) {
      ReleasingUntouched(s, step, s', c);
      assert Serving(s, c);
      assert forall d :: d in s.conns && d != c && !s.conns[d].pc.Done? ==> Serving(s, d);
      OthersKeepLock(s, step, s', s.conns[c].user, room);
    }
  }
}
