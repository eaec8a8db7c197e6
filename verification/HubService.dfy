/** The hub as the dispatcher and the connections' goroutines see it: one object, updated in place.
    Each method is proved equal to the critical section of module Hub that the relay's steps use. */
module HubService {
  import opened H = Hub
  import opened Voice

  class Hub {
    var clients: set<ConnId>
    var rooms: map<RoomId, set<ConnId>>
    var conns: map<ConnId, ClientState>  // each connection's room list and send channel
    var broadcast: seq<Live>

    function View(): HubState
      reads this
    {
      HubState(clients, rooms, conns)
    }

    constructor ()
      ensures View() == EMPTY_HUB && broadcast == []
    {
      clients, rooms, conns, broadcast := {}, map[], map[], [];
    }

    method HandleRegister(client: ConnId)
      modifies this`clients
      ensures View() == Register(old(View()), client)
    {
      clients := clients + {client};
    }

    /** Closes the channel and walks the connection's own room list.  The second close of a channel
        panics, before any room is touched. */
    method HandleUnregister(client: ConnId) returns (panicked: bool)
      requires client in clients ==> client in conns
      modifies this`clients, this`rooms, this`conns
      ensures panicked <==> UnregisterPanics(old(View()), client)
      ensures !panicked ==> View() == Unregister(old(View()), client)
    {
      if client !in clients {
        return false;
      }
      clients := clients - {client};
      if conns[client].closed {
        return true;
      }
      conns := conns[client := conns[client].(closed := true)];
      var todo := conns[client].rooms;
      while todo != {}
        invariant clients == old(clients) - {client}
        invariant conns == old(conns)[client := old(conns)[client].(closed := true)]
        invariant todo <= old(conns)[client].rooms
        invariant rooms == DropFrom(old(rooms), old(conns)[client].rooms - todo, client)
        decreases todo
      {
        var room :| room in todo;
        DropOneMore(old(rooms), old(conns)[client].rooms - todo, client, room);
        if room in rooms {
          rooms := rooms[room := rooms[room] - {client}];
          if rooms[room] == {} {
            rooms := rooms - {room};
          }
        }
        assert old(conns)[client].rooms - (todo - {room}) == old(conns)[client].rooms - todo + {room};
        todo := todo - {room};
      }
      assert old(conns)[client].rooms - todo == old(conns)[client].rooms;
      return false;
    }

    static lemma DropOneMore(rooms: map<RoomId, set<ConnId>>, done: set<RoomId>, c: ConnId, room: RoomId)
      requires room !in done
      ensures DropFrom(rooms, done + {room}, c) == DropMember(DropFrom(rooms, done, c), room, c)
    {
    }

    /** The hub's fan-out.  It panics exactly when some member it must send to has a closed channel;
        otherwise every member but the sender has received the packet, except those whose channel
        was full, which are closed and out of this room. */
    method HandleBroadcast(message: Live) returns (panicked: bool)
      requires forall c :: c in Members(View(), message.room) ==> c in conns
      modifies this`rooms, this`conns
      ensures panicked <==>
                exists c :: c in Members(old(View()), message.room) - {message.sender} && old(conns)[c].closed
      ensures !panicked ==>
                View() == FanOut(old(View()), message, Members(old(View()), message.room) - {message.sender})
    {
      ghost var h := View();
      FanOutNone(h, message);
      if message.room !in rooms {
        return false;
      }
      var todo := rooms[message.room];
      ghost var done: set<ConnId> := {};
      while todo != {}
        invariant todo <= Members(h, message.room) && done == Members(h, message.room) - todo - {message.sender}
        invariant View() == FanOut(h, message, done)
        invariant forall c :: c in done ==> !h.conns[c].closed
        decreases todo
      {
        var client :| client in todo;
        todo := todo - {client};
        if client != message.sender {
          FanOutOneMore(h, message, done, client);
          done := done + {client};
          if conns[client].closed {
            return true;
          }
          if |conns[client].send| < CAPACITY {
            var q := conns[client];
            conns := conns[client := q.(send := q.send + [LivePacket(message)],
                                        received := q.received + [LivePacket(message)])];
          } else {
            conns := conns[client := conns[client].(closed := true)];
            rooms := rooms[message.room := rooms[message.room] - {client}];
          }
        }
      }
      assert done == Members(h, message.room) - {message.sender};
      return false;
    }

    method JoinRoom(client: ConnId, room: RoomId)
      requires client in conns
      modifies this`rooms, this`conns
      ensures View() == H.JoinRoom(old(View()), client, room)
    {
      if room !in rooms {
        rooms := rooms[room := {}];
      }
      rooms := rooms[room := rooms[room] + {client}];
      conns := conns[client := conns[client].(rooms := conns[client].rooms + {room})];
    }

    method LeaveRoom(client: ConnId, room: RoomId)
      requires client in conns
      modifies this`rooms, this`conns
      ensures View() == H.LeaveRoom(old(View()), client, room)
    {
      if room in rooms {
        rooms := rooms[room := rooms[room] - {client}];
        if rooms[room] == {} {
          rooms := rooms - {room};
        }
      }
      conns := conns[client := conns[client].(rooms := conns[client].rooms - {room})];
    }

    /** Sending to the broadcast channel blocks while it is full. */
    method BroadcastToRoom(message: Live)
      requires |broadcast| < CAPACITY
      modifies this`broadcast
      ensures broadcast == old(broadcast) + [message]
    {
      broadcast := broadcast + [message];
    }

    /** Never blocks and never panics. */
    method SafeSend(client: ConnId, p: Packet) returns (ok: bool)
      requires client in conns
      modifies this`conns
      ensures (View(), ok) == H.SafeSend(old(View()), client, p)
    {
      if conns[client].closed || |conns[client].send| >= CAPACITY {
        return false;
      }
      var q := conns[client];
      conns := conns[client := q.(send := q.send + [p], received := q.received + [p])];
      return true;
    }
  }
}
