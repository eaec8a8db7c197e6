/** A disconnect frees the channel: the speaker lock over every execution of the relay in which
    connections speak only in rooms they are in. */
module RelayRelease {
  import opened Voice
  import opened Hub
  import opened Relay
  import opened RelayConnections
  import opened Wrappers
  import opened RelayHolders

  lemma {:induction false} LocksAlwaysHaveHolders(ss: seq<State>, steps: seq<Step>, n: nat)
    requires Execution(ss, steps) && n <= |steps|
    requires forall i :: 0 <= i < n ==> Disciplined(ss[i], steps[i])
    ensures EveryLockHasHolder(ss[n])
  {
    if n > 0 {
      LocksAlwaysHaveHolders(ss, steps, n - 1);
      StepTaken(ss, steps, n - 1);
      StepKeepsHolders(ss[n - 1], steps[n - 1], ss[n]);
    }
  }

  /** Every room whose speaker is the user of a connection lies in that connection's client.rooms,
      as long as the user has no other connection. */
  lemma SpokenRoomsAreListed(ss: seq<State>, steps: seq<Step>, n: nat, c: ConnId, room: RoomId)
    requires Execution(ss, steps) && n <= |steps| && OneConnectionPerUser(ss[n])
    requires forall i :: 0 <= i < n ==> Disciplined(ss[i], steps[i])
    requires Serving(ss[n], c) && Holds(ss[n].voice, ss[n].conns[c].user, room)
    ensures c in ss[n].hub.conns && room in ss[n].hub.conns[c].rooms
  {
    LocksAlwaysHaveHolders(ss, steps, n);
    assert IsChannelBusy(ss[n].voice, room);
    var d :| Holder(ss[n], d, room);
    assert Serving(ss[n], d);
  }

  /** Disconnect frees the channel.  Once every connection of a user has run its exit actions, the
      user holds no room; anybody can start in any room, unless somebody else who is still
      connected has taken it meanwhile. */
  lemma DisconnectFrees(ss: seq<State>, steps: seq<Step>, n: nat, user: UserId, room: RoomId, other: UserId, now: int)
    requires Execution(ss, steps) && n <= |steps|
    requires forall i :: 0 <= i < n ==> Disciplined(ss[i], steps[i])
    requires forall c :: Serving(ss[n], c) ==> ss[n].conns[c].user != user
    ensures !Holds(ss[n].voice, user, room)
    ensures Start(ss[n].voice, other, room, now).1 == Ok
            || exists d :: Serving(ss[n], d) && ss[n].conns[d].user != user
                           && Holds(ss[n].voice, ss[n].conns[d].user, room)
  {
    LocksAlwaysHaveHolders(ss, steps, n);
    if IsChannelBusy(ss[n].voice, room) {
      var d :| Holder(ss[n], d, room);
      assert Serving(ss[n], d);
    }
  }

  // ---- Without the discipline ----

  /** A lock that was left behind is never given back.  Whatever happens, until a connection of that
      user acts in the room, the room stays busy and turns everybody else away. */
  lemma {:induction false} LeakIsForever(ss: seq<State>, steps: seq<Step>, i: nat, n: nat, user: UserId, room: RoomId)
    requires Path(ss, steps) && i <= n <= |steps| && Holds(ss[i].voice, user, room)
    requires forall j :: i <= j < n ==> !ActsIn(ss[j], steps[j], user, room)
    ensures Holds(ss[n].voice, user, room)
    ensures forall other, now :: other != user ==> Start(ss[n].voice, other, room, now) == (ss[n].voice, ErrChannelBusy)
    decreases n
  {
    if i < n {
      LeakIsForever(ss, steps, i, n - 1, user, room);
      StepTaken(ss, steps, n - 1);
      OthersKeepLock(ss[n - 1], steps[n - 1], ss[n], user, room);
    }
  }

  /** The exit actions of c have begun: what is left of them. */
  ghost predicate Exits(ss: seq<State>, steps: seq<Step>, i: nat, n: nat, c: ConnId) {
    && Path(ss, steps) && i < n <= |steps| && steps[i] == Leaving(c, ReadRooms)
    && Known(ss[i], c) && ss[i].conns[c].pc.Exiting?
    && (forall j :: i < j <= n ==> c in ss[j].conns && ss[j].conns[c].pc.Releasing?)
  }

  /** Of the rooms that c's user held in ss[i], it has given up those that were listed and are no
      longer to do. */
  ghost predicate Released(ss: seq<State>, i: nat, n: nat, c: ConnId, room: RoomId)
    requires i < n < |ss| && Known(ss[i], c) && c in ss[n].conns && ss[n].conns[c].pc.Releasing?
  {
    var user, listed := ss[i].conns[c].user, ss[i].hub.conns[c].rooms;
    && ss[n].conns[c].user == user && (room in ss[n].conns[c].pc.rooms ==> room in listed)
    && (Holds(ss[n].voice, user, room)
        <==> Holds(ss[i].voice, user, room) && (room !in listed || room in ss[n].conns[c].pc.rooms))
  }

  lemma {:induction false} ReleasedSoFar(ss: seq<State>, steps: seq<Step>, i: nat, n: nat, c: ConnId, room: RoomId)
    requires Exits(ss, steps, i, n, c)
    requires forall j :: i <= j < n ==> OnlyConnection(ss[j], c)
    ensures Released(ss, i, n, c, room)
    decreases n
  {
    if n == i + 1 {
      FirstReleased(ss, steps, i, c, room);
    } else {
      ReleasedSoFar(ss, steps, i, n - 1, c, room);
      NextReleased(ss, steps, i, n - 1, c, room);
    }
  }

  lemma FirstReleased(ss: seq<State>, steps: seq<Step>, i: nat, c: ConnId, room: RoomId)
    requires Exits(ss, steps, i, i + 1, c)
    ensures Released(ss, i, i + 1, c, room)
  {
    StepTaken(ss, steps, i);
    assert ss[i + 1] == SetPc(ss[i], c, Releasing(ss[i].hub.conns[c].rooms));
  }

  lemma NextReleased(ss: seq<State>, steps: seq<Step>, i: nat, n: nat, c: ConnId, room: RoomId)
    requires Exits(ss, steps, i, n + 1, c) && i < n && OnlyConnection(ss[n], c)
    requires Released(ss, i, n, c, room)
    ensures Released(ss, i, n + 1, c, room)
  {
    StepTaken(ss, steps, n);
    ReleaseStep(ss[n], steps[n], ss[n + 1], c, room);
  }

  /** What the disconnect frees, exactly, in every interleaving with other users, however many
      connections those have: when the exit actions are through, the user holds a room if and only if
      it held it when they began and the room was not in client.rooms. */
  lemma ReleaseExactly(ss: seq<State>, steps: seq<Step>, i: nat, n: nat, c: ConnId, room: RoomId)
    requires Exits(ss, steps, i, n, c) && ss[n].conns[c].pc == Releasing({})
    requires forall j :: i <= j < n ==> OnlyConnection(ss[j], c)
    ensures var user := ss[i].conns[c].user;
            Holds(ss[n].voice, user, room)
            <==> Holds(ss[i].voice, user, room) && room !in ss[i].hub.conns[c].rooms
  {
    ReleasedSoFar(ss, steps, i, n, c, room);
  }
}
