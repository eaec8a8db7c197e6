/** The relay's room index and per-connection send queues.  Each function is one critical section
    of the hub, or one operation on a send channel. */
module Hub {
  import Sequences
  import opened AudioBuffer
  import opened Voice

  type ConnId = nat

  /** The capacity of a send channel and of the broadcast channel. */
  const CAPACITY := 256

  /** An audio packet on its way to a room; sequence 0 means that it was not numbered. */
  datatype Live = Live(room: RoomId, sender: ConnId, userId: UserId, audio: Bytes, isPtt: bool,
                       sequence: int, timestamp: int)

  /** What a connection is sent.  ReplayEnd is the terminator that closes a replayed segment. */
  datatype Packet = LivePacket(live: Live) | ReplayPacket(message: Message) | ReplayEnd

  /** One connection as the hub sees it: client.rooms, the send channel, and (for the statement of
      properties) everything ever put into that channel. */
  datatype ClientState = ClientState(rooms: set<RoomId>, send: seq<Packet>, closed: bool, received: seq<Packet>)

  const NEW_CLIENT := ClientState({}, [], false, [])

  datatype HubState = HubState(clients: set<ConnId>, rooms: map<RoomId, set<ConnId>>, conns: map<ConnId, ClientState>)

  const EMPTY_HUB := HubState({}, map[], map[])

  function Members(h: HubState, room: RoomId): set<ConnId> {
    if room in h.rooms then h.rooms[room] else {}
  }

  // ---- Critical sections ----

  function Register(h: HubState, c: ConnId): HubState {
    h.(clients := h.clients + {c})
  }

  function JoinRoom(h: HubState, c: ConnId, room: RoomId): HubState
    requires c in h.conns
  {
    h.(rooms := h.rooms[room := Members(h, room) + {c}],
       conns := h.conns[c := h.conns[c].(rooms := h.conns[c].rooms + {room})])
  }

  /** Takes c out of one room; a room that nobody is left in disappears. */
  function DropMember(rooms: map<RoomId, set<ConnId>>, room: RoomId, c: ConnId): map<RoomId, set<ConnId>> {
    if room !in rooms then rooms
    else if rooms[room] - {c} == {} then rooms - {room}
    else rooms[room := rooms[room] - {c}]
  }

  function LeaveRoom(h: HubState, c: ConnId, room: RoomId): HubState
    requires c in h.conns
  {
    h.(rooms := DropMember(h.rooms, room, c),
       conns := h.conns[c := h.conns[c].(rooms := h.conns[c].rooms - {room})])
  }

  function DropFrom(rooms: map<RoomId, set<ConnId>>, joined: set<RoomId>, c: ConnId): map<RoomId, set<ConnId>> {
    map room | room in rooms && (room in joined ==> rooms[room] - {c} != {})
      :: if room in joined then rooms[room] - {c} else rooms[room]
  }

  /** Closing a channel that is already closed panics: see UnregisterPanics. */
  function Unregister(h: HubState, c: ConnId): HubState
    requires c in h.clients ==> c in h.conns
  {
    if c !in h.clients then h
    else HubState(h.clients - {c}, DropFrom(h.rooms, h.conns[c].rooms, c), h.conns[c := h.conns[c].(closed := true)])
  }

  predicate UnregisterPanics(h: HubState, c: ConnId) {
    c in h.clients && c in h.conns && h.conns[c].closed
  }

  // ---- Send channels ----

  predicate Full(h: HubState, c: ConnId)
    requires c in h.conns
  {
    |h.conns[c].send| >= CAPACITY
  }

  function Push(h: HubState, c: ConnId, p: Packet): HubState
    requires c in h.conns
  {
    var q := h.conns[c];
    h.(conns := h.conns[c := q.(send := q.send + [p], received := q.received + [p])])
  }

  /** The write pump takes the oldest packet off the channel. */
  function Drain(h: HubState, c: ConnId): HubState
    requires c in h.conns
  {
    var q := h.conns[c];
    if q.send == [] then h else h.(conns := h.conns[c := q.(send := q.send[1..])])
  }

  /** The hub's own send to one member: a full channel is closed, and its owner leaves this one
      room; client.rooms, h.clients and the other rooms keep it.  Sending on a closed channel
      panics: see DeliverPanics. */
  function Deliver(h: HubState, c: ConnId, live: Live): HubState
    requires c in h.conns
  {
    if !Full(h, c) then Push(h, c, LivePacket(live))
    else h.(rooms := if live.room in h.rooms then h.rooms[live.room := h.rooms[live.room] - {c}] else h.rooms,
            conns := h.conns[c := h.conns[c].(closed := true)])
  }

  predicate DeliverPanics(h: HubState, c: ConnId)
    requires c in h.conns
  {
    h.conns[c].closed
  }

  /** safeSend neither blocks nor panics; it reports whether the packet went in. */
  function SafeSend(h: HubState, c: ConnId, p: Packet): (HubState, bool)
    requires c in h.conns
  {
    if h.conns[c].closed || Full(h, c) then (h, false) else (Push(h, c, p), true)
  }

  // ---- The two indexes ----

  /** A room lists only connections whose own list names that room. */
  ghost predicate IndexIncluded(h: HubState) {
    forall room, c {:trigger c in Members(h, room)} ::
      c in Members(h, room) ==> c in h.conns && room in h.conns[c].rooms
  }

  /** The two indexes agree for this connection. */
  ghost predicate IndexAgrees(h: HubState, c: ConnId) {
    c in h.conns && forall room {:trigger c in Members(h, room)} {:trigger room in h.conns[c].rooms} ::
      c in Members(h, room) <==> room in h.conns[c].rooms
  }

  ghost predicate NoEmptyRoom(h: HubState) {
    forall room :: room in h.rooms ==> h.rooms[room] != {}
  }

  /** Same rooms and client.rooms, hence the same indexes; only send channels may differ. */
  ghost predicate SameRooms(h: HubState, h': HubState) {
    && h'.rooms == h.rooms && h'.clients == h.clients && h'.conns.Keys == h.conns.Keys
    && forall c :: c in h.conns ==> h'.conns[c].rooms == h.conns[c].rooms && h'.conns[c].closed == h.conns[c].closed
  }

  lemma SendsKeepRooms(h: HubState, c: ConnId, p: Packet)
    requires c in h.conns
    ensures SameRooms(h, SafeSend(h, c, p).0) && SameRooms(h, Drain(h, c))
  {
  }

  lemma SameIndexes(h: HubState, h': HubState)
    requires SameRooms(h, h')
    ensures forall room :: Members(h', room) == Members(h, room)
    ensures IndexIncluded(h) <==> IndexIncluded(h')
    ensures NoEmptyRoom(h) <==> NoEmptyRoom(h')
    ensures forall c :: IndexAgrees(h', c) <==> IndexAgrees(h, c)
  {
    assert forall room :: Members(h', room) == Members(h, room);
    forall c ensures IndexAgrees(h', c) <==> IndexAgrees(h, c) {
    }
  }

  /** A connection nobody has heard of appears, in no room. */
  function AddConn(h: HubState, c: ConnId): HubState {
    h.(conns := h.conns[c := NEW_CLIENT])
  }

  lemma AddConnKeepsIndexes(h: HubState, c: ConnId)
    requires c !in h.conns && IndexIncluded(h)
    ensures var h' := AddConn(h, c);
            && IndexIncluded(h') && IndexAgrees(h', c)
            && (forall room :: Members(h', room) == Members(h, room))
            && forall d :: d != c && IndexAgrees(h, d) ==> IndexAgrees(h', d)
  {
    var h' := AddConn(h, c);
    assert forall room :: Members(h', room) == Members(h, room);
    forall d | d != c && IndexAgrees(h, d) ensures IndexAgrees(h', d) {
    }
  }

  lemma RegisterKeepsIndexes(h: HubState, c: ConnId)
    ensures var h' := Register(h, c);
            && (IndexIncluded(h) ==> IndexIncluded(h'))
            && (forall room :: Members(h', room) == Members(h, room))
            && forall d :: IndexAgrees(h, d) ==> IndexAgrees(h', d)
  {
    var h' := Register(h, c);
    assert forall room :: Members(h', room) == Members(h, room);
    forall d | IndexAgrees(h, d) ensures IndexAgrees(h', d) {
    }
  }

  lemma JoinKeepsIndexes(h: HubState, c: ConnId, room: RoomId)
    requires c in h.conns && IndexIncluded(h)
    ensures var h' := JoinRoom(h, c, room);
            && IndexIncluded(h')
            && (NoEmptyRoom(h) ==> NoEmptyRoom(h'))
            && c in Members(h', room)
            && (forall d :: IndexAgrees(h, d) ==> IndexAgrees(h', d))
            && (forall r, d :: r != room || d != c ==> (d in Members(h', r) <==> d in Members(h, r)))
  {
    var h' := JoinRoom(h, c, room);
    assert forall r :: Members(h', r) == if r == room then Members(h, r) + {c} else Members(h, r);
    forall d | IndexAgrees(h, d) ensures IndexAgrees(h', d) {
    }
  }

  lemma DropMemberEffect(rooms: map<RoomId, set<ConnId>>, room: RoomId, c: ConnId, r: RoomId)
    ensures var rooms' := DropMember(rooms, room, c);
            (if r in rooms' then rooms'[r] else {})
              == (if r in rooms then rooms[r] else {}) - (if r == room then {c} else {})
  {
  }

  lemma LeaveKeepsIndexes(h: HubState, c: ConnId, room: RoomId)
    requires c in h.conns && IndexIncluded(h)
    ensures var h' := LeaveRoom(h, c, room);
            && IndexIncluded(h')
            && (NoEmptyRoom(h) ==> NoEmptyRoom(h'))
            && c !in Members(h', room)
            && (forall d :: IndexAgrees(h, d) ==> IndexAgrees(h', d))
            && (forall r, d :: r != room || d != c ==> (d in Members(h', r) <==> d in Members(h, r)))
  {
    var h' := LeaveRoom(h, c, room);
    forall r ensures Members(h', r) == Members(h, r) - (if r == room then {c} else {}) {
      DropMemberEffect(h.rooms, room, c, r);
    }
    forall d | IndexAgrees(h, d) ensures IndexAgrees(h', d) {
    }
  }

  /** Because rooms list only connections that name them, unregistering takes the connection out of
      every room, and touches nobody else's membership. */
  lemma UnregisterLeavesEveryRoom(h: HubState, c: ConnId)
    requires c in h.clients && c in h.conns && IndexIncluded(h)
    ensures var h' := Unregister(h, c);
            && IndexIncluded(h')
            && (NoEmptyRoom(h) ==> NoEmptyRoom(h'))
            && (forall room :: c !in Members(h', room))
            && (forall d :: d != c && IndexAgrees(h, d) ==> IndexAgrees(h', d))
            && (forall room, d :: d != c ==> (d in Members(h', room) <==> d in Members(h, room)))
  {
    var h' := Unregister(h, c);
    forall room ensures Members(h', room) == Members(h, room) - {c} {
      assert c in Members(h, room) ==> room in h.conns[c].rooms;
    }
    forall d | d != c && IndexAgrees(h, d) ensures IndexAgrees(h', d) {
    }
  }

  lemma UnregisterSendsNothing(h: HubState, c: ConnId)
    requires c in h.clients ==> c in h.conns
    ensures var h' := Unregister(h, c);
            && h'.conns.Keys == h.conns.Keys
            && forall d :: d in h.conns ==>
                 h'.conns[d].received == h.conns[d].received && h'.conns[d].rooms == h.conns[d].rooms
  {
  }

  /** Delivery keeps the indexes unless it meets a full channel; then it always breaks the agreement
      for that connection, and the one-way inclusion survives. */
  lemma DeliverKeepsIndexes(h: HubState, c: ConnId, live: Live)
    requires c in Members(h, live.room) && IndexIncluded(h)
    ensures var h' := Deliver(h, c, live);
            && IndexIncluded(h')
            && (IndexAgrees(h, c) ==> (IndexAgrees(h', c) <==> !Full(h, c)))
            && (forall d :: d != c && IndexAgrees(h, d) ==> IndexAgrees(h', d))
            && (!Full(h, c) && NoEmptyRoom(h) ==> NoEmptyRoom(h'))
            && (forall room, d :: room != live.room || d != c ==> (d in Members(h', room) <==> d in Members(h, room)))
  {
    var h' := Deliver(h, c, live);
    assert c in h.conns && live.room in h.conns[c].rooms;
    assert forall r :: Members(h', r) == if r == live.room && Full(h, c) then Members(h, r) - {c} else Members(h, r);
    assert forall d :: d in h.conns ==> d in h'.conns && h'.conns[d].rooms == h.conns[d].rooms;
    assert Full(h, c) ==> c !in Members(h', live.room);
    forall d | d != c && IndexAgrees(h, d) ensures IndexAgrees(h', d) {
    }
  }

  // ---- A whole fan-out ----

  /** The outcome of delivering to every connection in `targets`: those with space have received
      the packet, those whose channel was full are closed and out of this one room. */
  function FanOut(h: HubState, live: Live, targets: set<ConnId>): HubState {
    HubState(h.clients,
             if live.room in h.rooms
             then h.rooms[live.room := set c | c in h.rooms[live.room] && !(c in targets && c in h.conns && Full(h, c))]
             else h.rooms,
             map c | c in h.conns ::
               if c !in targets then h.conns[c]
               else if Full(h, c) then h.conns[c].(closed := true)
               else h.conns[c].(send := h.conns[c].send + [LivePacket(live)],
                                received := h.conns[c].received + [LivePacket(live)]))
  }

  /** Delivering to one more target. */
  lemma FanOutOneMore(h: HubState, live: Live, targets: set<ConnId>, c: ConnId)
    requires c in h.conns && c !in targets
    ensures c in FanOut(h, live, targets).conns
    ensures Deliver(FanOut(h, live, targets), c, live) == FanOut(h, live, targets + {c})
    ensures DeliverPanics(FanOut(h, live, targets), c) <==> DeliverPanics(h, c)
  {
    var before, after := FanOut(h, live, targets), FanOut(h, live, targets + {c});
    assert Full(before, c) == Full(h, c);
    assert Deliver(before, c, live).conns == after.conns;
    if live.room in h.rooms {
      assert Deliver(before, c, live).rooms[live.room] == after.rooms[live.room];
    }
    assert Deliver(before, c, live).rooms == after.rooms;
  }

  lemma FanOutNone(h: HubState, live: Live)
    ensures FanOut(h, live, {}) == h
  {
    assert FanOut(h, live, {}).conns == h.conns;
    if live.room in h.rooms {
      assert FanOut(h, live, {}).rooms[live.room] == h.rooms[live.room];
    }
    assert FanOut(h, live, {}).rooms == h.rooms;
  }

  function Elements(order: seq<ConnId>): set<ConnId> {
    set c | c in order
  }

  /** One delivery after another, the last connection of `order` first. */
  function Deliveries(h: HubState, live: Live, order: seq<ConnId>): HubState
    requires Elements(order) <= h.conns.Keys
    ensures Deliveries(h, live, order).conns.Keys == h.conns.Keys
  {
    if order == [] then h else Deliver(Deliveries(h, live, order[1..]), order[0], live)
  }

  /** The order in which a fan-out visits the members does not matter. */
  lemma {:induction false} FanOutInAnyOrder(h: HubState, live: Live, order: seq<ConnId>)
    requires Elements(order) <= h.conns.Keys && Sequences.Distinct(order)
    ensures Deliveries(h, live, order) == FanOut(h, live, Elements(order))
  {
    if order == [] {
      assert Elements(order) == {};
      FanOutNone(h, live);
    } else {
      FanOutInAnyOrder(h, live, order[1..]);
      FanOutOneMore(h, live, Elements(order[1..]), order[0]);
      assert Elements(order) == Elements(order[1..]) + {order[0]};
    }
  }
}
