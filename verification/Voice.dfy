/** The push-to-talk lock: at most one speaker per room. */
module Voice {
  type UserId = string
  type RoomId = string

  datatype ChannelState = ChannelState(currentSpeaker: UserId, isTransmitting: bool, lastActivity: int)

  datatype VoiceResult = Ok | ErrChannelBusy | ErrChannelNotFound | ErrNotSpeaker

  type Channels = map<RoomId, ChannelState>

  // ---- The operations on the channel map ----

  function Start(m: Channels, user: UserId, room: RoomId, now: int): (Channels, VoiceResult) {
    if room in m && m[room].isTransmitting && m[room].currentSpeaker != user then (m, ErrChannelBusy)
    else (m[room := ChannelState(user, true, now)], Ok)
  }

  function Stop(m: Channels, user: UserId, room: RoomId, now: int): (Channels, VoiceResult) {
    if room !in m then (m, ErrChannelNotFound)
    else if m[room].currentSpeaker != user then (m, ErrNotSpeaker)
    else (m[room := ChannelState("", false, now)], Ok)
  }

  predicate Stale(c: ChannelState, timeout: int, now: int) {
    now - c.lastActivity > timeout
  }

  function CleanupInactive(m: Channels, timeout: int, now: int): Channels {
    map room | room in m && !Stale(m[room], timeout, now) :: m[room]
  }

  // ---- What callers can observe ----

  predicate IsChannelBusy(m: Channels, room: RoomId) {
    room in m && m[room].isTransmitting
  }

  function GetCurrentSpeaker(m: Channels, room: RoomId): UserId {
    if room in m then m[room].currentSpeaker else ""
  }

  predicate CanTransmit(m: Channels, user: UserId, room: RoomId) {
    room !in m || !m[room].isTransmitting || m[room].currentSpeaker == user
  }

  /** `user` holds the lock of `room`. */
  predicate Holds(m: Channels, user: UserId, room: RoomId) {
    room in m && m[room].isTransmitting && m[room].currentSpeaker == user
  }

  /** The speaker field is empty exactly while nobody transmits. */
  ghost predicate Consistent(m: Channels) {
    forall room :: room in m ==> (m[room].isTransmitting <==> m[room].currentSpeaker != "")
  }

  // ---- Runs ----

  datatype Op =
    | StartOp(user: UserId, room: RoomId, now: int)
    | StopOp(user: UserId, room: RoomId, now: int)
    | CleanupOp(timeout: int, now: int)

  function Do(m: Channels, op: Op): (Channels, VoiceResult) {
    match op
    case StartOp(user, room, now) => Start(m, user, room, now)
    case StopOp(user, room, now) => Stop(m, user, room, now)
    case CleanupOp(timeout, now) => (CleanupInactive(m, timeout, now), Ok)
  }

  /** The lock table after the first n operations. */
  function After(ops: seq<Op>, n: nat): Channels
    requires n <= |ops|
  {
    if n == 0 then map[] else Do(After(ops, n - 1), ops[n - 1]).0
  }

  function Answer(ops: seq<Op>, i: nat): VoiceResult
    requires i < |ops|
  {
    Do(After(ops, i), ops[i]).1
  }

  ghost predicate Timely(ops: seq<Op>) {
    forall i, j :: 0 <= i <= j < |ops| ==> ops[i].now <= ops[j].now
  }

  ghost predicate Identified(ops: seq<Op>) {
    forall i :: 0 <= i < |ops| && !ops[i].CleanupOp? ==> ops[i].user != ""
  }

  /** With non-empty user IDs the table stays consistent. */
  lemma {:induction false} RunConsistent(ops: seq<Op>, n: nat)
    requires n <= |ops| && Identified(ops)
    ensures Consistent(After(ops, n))
  {
    if n > 0 {
      RunConsistent(ops, n - 1);
    }
  }

  /** A Stop frees the room exactly when the caller is the recorded speaker. */
  lemma StopFreesTheRoom(m: Channels, user: UserId, room: RoomId, now: int)
    requires Consistent(m) && user != ""
    ensures var (m', r) := Stop(m, user, room, now);
            && (r == Ok <==> Holds(m, user, room))
            && (r == Ok ==> !IsChannelBusy(m', room) && forall v :: CanTransmit(m', v, room))
            && (r != Ok ==> m' == m)
            && forall u, other :: other != room ==> Holds(m', u, other) == Holds(m, u, other)
  {
  }

  // ---- Hand-over ----

  /** Operation k frees `room` from `user`: a successful Stop by that user, or a cleanup that finds
      the room idle for longer than its timeout, more than that after instant `since`. */
  predicate Releases(ops: seq<Op>, k: nat, user: UserId, room: RoomId, since: int)
    requires k < |ops|
  {
    || (ops[k].StopOp? && ops[k].user == user && ops[k].room == room && Answer(ops, k) == Ok)
    || (ops[k].CleanupOp? && ops[k].now - since > ops[k].timeout
        && room in After(ops, k) && Stale(After(ops, k)[room], ops[k].timeout, ops[k].now))
  }

  /** Until it is released, an accepted Start keeps the room. */
  lemma {:induction false} KeptUntilReleased(ops: seq<Op>, i: nat, n: nat)
    requires Timely(ops) && i < n <= |ops|
    requires ops[i].StartOp? && Answer(ops, i) == Ok
    requires forall k :: i < k < n ==> !Releases(ops, k, ops[i].user, ops[i].room, ops[i].now)
    ensures Holds(After(ops, n), ops[i].user, ops[i].room)
    ensures After(ops, n)[ops[i].room].lastActivity >= ops[i].now
  {
    if n > i + 1 {
      KeptUntilReleased(ops, i, n - 1);
      assert !Releases(ops, n - 1, ops[i].user, ops[i].room, ops[i].now);
    }
  }

  /** Hand-over safety: between accepted Starts of two different users in one room, the first
      stopped, or a cleanup found the room idle for longer than its timeout. */
  lemma HandOver(ops: seq<Op>, i: nat, j: nat)
    requires Timely(ops) && i < j < |ops|
    requires ops[i].StartOp? && ops[j].StartOp? && ops[i].room == ops[j].room && ops[i].user != ops[j].user
    requires Answer(ops, i) == Ok && Answer(ops, j) == Ok
    ensures exists k :: i < k < j && Releases(ops, k, ops[i].user, ops[i].room, ops[i].now)
  {
    if forall k :: i < k < j ==> !Releases(ops, k, ops[i].user, ops[i].room, ops[i].now) {
      KeptUntilReleased(ops, i, j);
    }
  }

  // ---- Forgetting idle rooms ----

  /** Entries of m that are missing from m' are idle; the others are the same. */
  ghost predicate Forgets(m: Channels, m': Channels) {
    && m'.Keys <= m.Keys
    && forall room :: room in m ==> if room in m' then m'[room] == m[room] else !m[room].isTransmitting
  }

  /** No query tells the two tables apart. */
  predicate SameView(m: Channels, m': Channels, user: UserId, room: RoomId) {
    && CanTransmit(m, user, room) == CanTransmit(m', user, room)
    && IsChannelBusy(m, room) == IsChannelBusy(m', room)
    && GetCurrentSpeaker(m, room) == GetCurrentSpeaker(m', room)
  }

  /** The answers agree, except that a Stop in a forgotten room says "not found". */
  predicate SameAnswer(r: VoiceResult, r': VoiceResult) {
    r == r' || (r == ErrNotSpeaker && r' == ErrChannelNotFound)
  }

  function AfterFrom(m: Channels, ops: seq<Op>): Channels
    decreases |ops|
  {
    if ops == [] then m else AfterFrom(Do(m, ops[0]).0, ops[1..])
  }

  function AnswersFrom(m: Channels, ops: seq<Op>): seq<VoiceResult>
    decreases |ops|
  {
    if ops == [] then [] else [Do(m, ops[0]).1] + AnswersFrom(Do(m, ops[0]).0, ops[1..])
  }

  /** Forgetting idle rooms is invisible for ever: every later operation, of any user in any room,
      gets the same answer, and every query agrees at the end of every continuation. */
  lemma {:induction false} ForgettingIsInvisible(m: Channels, m': Channels, ops: seq<Op>)
    requires Consistent(m) && Forgets(m, m') && Identified(ops)
    ensures var a, a' := AnswersFrom(m, ops), AnswersFrom(m', ops);
            |a| == |a'| == |ops| && forall i :: 0 <= i < |ops| ==> SameAnswer(a[i], a'[i])
    ensures forall user, room :: SameView(AfterFrom(m, ops), AfterFrom(m', ops), user, room)
    decreases |ops|
  {
    if ops != [] {
      ForgettingOneStep(m, m', ops[0]);
      ForgettingIsInvisible(Do(m, ops[0]).0, Do(m', ops[0]).0, ops[1..]);
    }
  }

  lemma ForgettingOneStep(m: Channels, m': Channels, op: Op)
    requires Consistent(m) && Forgets(m, m') && (!op.CleanupOp? ==> op.user != "")
    ensures SameAnswer(Do(m, op).1, Do(m', op).1)
    ensures Consistent(Do(m, op).0) && Forgets(Do(m, op).0, Do(m', op).0)
  {
  }

  /** A cleanup forgets only idle rooms exactly when every room that somebody holds has been active
      within the timeout; then, and only then, nobody can tell that it ran. */
  lemma CleanupInvisibleExactly(m: Channels, timeout: int, now: int)
    requires Consistent(m)
    ensures var m' := CleanupInactive(m, timeout, now);
            (forall user, room :: SameView(m, m', user, room))
            <==> forall room :: room in m && m[room].isTransmitting ==> !Stale(m[room], timeout, now)
    ensures (forall room :: room in m && m[room].isTransmitting ==> !Stale(m[room], timeout, now))
            <==> Forgets(m, CleanupInactive(m, timeout, now))
  {
    var m' := CleanupInactive(m, timeout, now);
    if room :| room in m && m[room].isTransmitting && Stale(m[room], timeout, now) {
      assert !SameView(m, m', "", room);
    }
  }

  // ---- Releasing every room of a disconnecting user ----

  /** StopTransmission in each of the given rooms. */
  function ReleaseAll(m: Channels, user: UserId, rooms: seq<RoomId>, now: int): Channels {
    if rooms == [] then m else Stop(ReleaseAll(m, user, rooms[..|rooms| - 1], now), user, rooms[|rooms| - 1], now).0
  }

  /** Afterwards the user holds just the rooms that were not in the list; nobody else lost one. */
  lemma {:induction false} ReleaseAllEffect(m: Channels, user: UserId, rooms: seq<RoomId>, now: int)
    requires Consistent(m) && user != ""
    ensures var m' := ReleaseAll(m, user, rooms, now);
            && Consistent(m')
            && (forall room :: Holds(m', user, room) <==> Holds(m, user, room) && room !in rooms)
            && (forall room, other :: other != user ==> Holds(m', other, room) == Holds(m, other, room))
  {
    if rooms != [] {
      var before, last := rooms[..|rooms| - 1], rooms[|rooms| - 1];
      ReleaseAllEffect(m, user, before, now);
      assert forall room :: room in rooms <==> room in before || room == last;
    }
  }

  /** Disconnect frees the user's rooms if and only if each room the user holds is in the list, and
      then anybody can start in each room that was held. */
  lemma ReleaseFreesExactly(m: Channels, user: UserId, rooms: seq<RoomId>, now: int)
    requires Consistent(m) && user != ""
    ensures var m' := ReleaseAll(m, user, rooms, now);
            && ((forall room :: !Holds(m', user, room)) <==> (forall room :: Holds(m, user, room) ==> room in rooms))
            && (forall other, room, later :: Holds(m, user, room) && room in rooms ==>
                  Start(m', other, room, later).1 == Ok)
  {
    ReleaseAllEffect(m, user, rooms, now);
    var m' := ReleaseAll(m, user, rooms, now);
    forall other, room, later | Holds(m, user, room) && room in rooms ensures Start(m', other, room, later).1 == Ok {
      if !CanTransmit(m', other, room) {
        assert Holds(m', m'[room].currentSpeaker, room);
      }
    }
  }
}
