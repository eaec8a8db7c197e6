/** One connection's message handler run without interruption: the same critical sections that the
    relay's steps take one by one, in the order in which the handler takes them. */
module Client {
  import opened AudioBuffer
  import opened Voice
  import opened H = Hub
  import B = AudioBufferService
  import V = VoiceService
  import HubService

  class Client {
    const hub: HubService.Hub
    const voiceGuard: V.VoiceService
    const buffer: B.AudioBufferService
    const id: ConnId
    const userId: UserId

    ghost predicate Valid()
      reads this, hub, voiceGuard, buffer, voiceGuard.clock, buffer.clock
    {
      && id in hub.conns && userId != ""
      && voiceGuard.clock == buffer.clock
      && voiceGuard.Valid() && buffer.Valid()
    }

    constructor (hub: HubService.Hub, voiceGuard: V.VoiceService, buffer: B.AudioBufferService,
                 id: ConnId, userId: UserId)
      requires id in hub.conns && userId != "" && voiceGuard.clock == buffer.clock
      requires voiceGuard.Valid() && buffer.Valid()
      ensures Valid() && this.hub == hub && this.voiceGuard == voiceGuard && this.buffer == buffer
      ensures this.id == id && this.userId == userId
    {
      this.hub, this.voiceGuard, this.buffer, this.id, this.userId := hub, voiceGuard, buffer, id, userId;
    }

    /** An "audio" message.  Push-to-talk takes the lock or is dropped; anything else gives the lock
        up if this user had it.  Only push-to-talk audio that decodes to a non-empty chunk is
        numbered and stored, under the next number of its room; then the packet is broadcast with
        that number.  A dropped packet changes neither the lock, nor the buffer, nor the channel. */
    method HandleAudio(room: RoomId, audio: Bytes, decodes: bool, isPtt: bool, messageId: string)
      returns (relayed: bool)
      requires Valid() && |hub.broadcast| < CAPACITY
      modifies hub`broadcast, voiceGuard, buffer, buffer.clock
      ensures Valid()
      ensures relayed <==> !isPtt || CanTransmit(old(voiceGuard.channels), userId, room)
      ensures !relayed ==> voiceGuard.channels == old(voiceGuard.channels) && hub.broadcast == old(hub.broadcast)
      ensures relayed && isPtt ==> Holds(voiceGuard.channels, userId, room)
      ensures relayed && !isPtt ==> !Holds(voiceGuard.channels, userId, room)
      ensures relayed ==> exists t ::
                && old(buffer.clock.now) <= t <= buffer.clock.now
                && voiceGuard.channels == LockAfter(old(voiceGuard.channels), userId, room, isPtt, t)
      ensures relayed ==> exists sequence, timestamp ::
                && hub.broadcast == old(hub.broadcast) + [Live(room, id, userId, audio, isPtt, sequence, timestamp)]
                && (if isPtt && decodes && audio != []
                    then sequence == old(buffer.Room(room)).last + 1
                         && buffer.history == old(buffer.history)[room := old(buffer.History(room)) +
                              [Added(messageId, room, userId, audio, timestamp, buffer.clock.now)]]
                    else sequence == 0 && buffer.history == old(buffer.history))
      ensures !relayed ==> buffer.history == old(buffer.history)
    {
      ghost var locked := voiceGuard.channels;
      if isPtt {
        var err := voiceGuard.StartTransmission(userId, room);
        buffer.Wait(old(buffer.clock.now));
        if err != Ok {
          return false;
        }
      } else {
        var _ := voiceGuard.StopTransmission(userId, room);
        buffer.Wait(old(buffer.clock.now));
      }
      assert voiceGuard.channels == LockAfter(locked, userId, room, isPtt, buffer.clock.now);
      var sequence, timestamp := 0, 0;
      if isPtt && decodes && audio != [] {
        var m := buffer.AddMessage(room, userId, audio, messageId);
        sequence, timestamp := m.sequence, m.timestamp;
      }
      hub.BroadcastToRoom(Live(room, id, userId, audio, isPtt, sequence, timestamp));
      return true;
    }

    /** Replays the room to this connection only.  Outside the room, or with nothing to replay,
        nothing is sent; otherwise the channel receives everything unplayed above `sinceSequence` in
        order and one terminator, cut off where the channel is full or closed. */
    method SendReplay(room: RoomId, sinceSequence: int)
      requires id in hub.conns
      modifies hub`conns
      ensures var msgs := Unplayed(buffer.Room(room).msgs, sinceSequence);
              var before := old(hub.conns)[id];
              if room !in before.rooms || msgs == [] then hub.conns == old(hub.conns)
              else hub.conns == old(hub.conns)[id := Pushed(before, Fitting(Segment(msgs), before))]
    {
      if room !in hub.conns[id].rooms {
        return;
      }
      var msgs := buffer.GetMessages(room, sinceSequence);
      ghost var before, packets := hub.conns[id], Segment(msgs);
      assert Pushed(before, packets[..0]) == before;
      var i := 0;
      while i < |msgs|
        invariant 0 <= i <= |msgs|
        invariant hub.conns == old(hub.conns)[id := Pushed(before, packets[..i])]
        invariant i > 0 ==> !before.closed && |before.send| + i <= CAPACITY
      {
        var ok := hub.SafeSend(id, ReplayPacket(msgs[i]));
        PushedNext(before, packets, i);
        if !ok {
          return;
        }
        i := i + 1;
      }
      if |msgs| == 0 {
        return;
      }
      var _ := hub.SafeSend(id, ReplayEnd);
      PushedNext(before, packets, i);
    }

    /** releaseVoice: a StopTransmission in every room of the connection's list. */
    method ReleaseVoice()
      requires Valid() && Consistent(voiceGuard.channels)
      modifies voiceGuard, voiceGuard.clock
      ensures Valid() && Consistent(voiceGuard.channels)
      ensures forall room :: Holds(voiceGuard.channels, userId, room)
                        <==> Holds(old(voiceGuard.channels), userId, room) && room !in hub.conns[id].rooms
      ensures forall other, room :: other != userId ==>
                Holds(voiceGuard.channels, other, room) == Holds(old(voiceGuard.channels), other, room)
    {
      var todo := hub.conns[id].rooms;
      while todo != {}
        invariant todo <= hub.conns[id].rooms
        invariant Valid() && Consistent(voiceGuard.channels)
        invariant forall room :: Holds(voiceGuard.channels, userId, room)
                        <==> Holds(old(voiceGuard.channels), userId, room) && room !in hub.conns[id].rooms - todo
        invariant forall other, room :: other != userId ==>
                    Holds(voiceGuard.channels, other, room) == Holds(old(voiceGuard.channels), other, room)
        decreases todo
      {
        var room :| room in todo;
        ghost var channels, start := voiceGuard.channels, buffer.clock.now;
        var _ := voiceGuard.StopTransmission(userId, room);
        StopFreesTheRoom(channels, userId, room, voiceGuard.clock.now);
        buffer.Wait(start);
        todo := todo - {room};
      }
    }
  }

  /** What an audio message that is relayed does to the lock table. */
  function LockAfter(m: Channels, user: UserId, room: RoomId, isPtt: bool, now: int): Channels {
    if isPtt then Start(m, user, room, now).0 else Stop(m, user, room, now).0
  }

  /** A replayed segment on the wire: the messages, then the terminator. */
  function Segment(msgs: seq<Message>): seq<Packet> {
    seq(|msgs| + 1, i requires 0 <= i <= |msgs| => if i < |msgs| then ReplayPacket(msgs[i]) else ReplayEnd)
  }

  /** The packets for which the channel has space: none once it is closed. */
  function Fitting(packets: seq<Packet>, q: ClientState): seq<Packet> {
    if q.closed || |q.send| >= CAPACITY then []
    else if |q.send| + |packets| <= CAPACITY then packets
    else packets[..CAPACITY - |q.send|]
  }

  function Pushed(q: ClientState, packets: seq<Packet>): ClientState {
    q.(send := q.send + packets, received := q.received + packets)
  }

  /** What the (n+1)-st safeSend of a segment does, after n have succeeded. */
  lemma PushedNext(q: ClientState, packets: seq<Packet>, n: nat)
    requires n < |packets| && (n > 0 ==> !q.closed && |q.send| + n <= CAPACITY)
    ensures Pushed(Pushed(q, packets[..n]), [packets[n]]) == Pushed(q, packets[..n + 1])
    ensures q.closed || |q.send| + n >= CAPACITY ==> Fitting(packets, q) == packets[..n]
    ensures !(q.closed || |q.send| + n >= CAPACITY) && n + 1 == |packets| ==> Fitting(packets, q) == packets[..n + 1]
  {
    assert packets[..n + 1] == packets[..n] + [packets[n]];
  }
}
