/** The service object around the lock table, with the history of every operation so far. */
module VoiceService {
  import opened Clock
  import opened Voice

  class VoiceService {
    const clock: Clock
    var channels: Channels
    ghost var history: seq<Op>

    /** The table is the result of the recorded run, so every theorem about runs applies to it. */
    ghost predicate Valid()
      reads this, clock
    {
      && channels == After(history, |history|)
      && Timely(history)
      && forall i :: 0 <= i < |history| ==> history[i].now <= clock.now
    }

    constructor (clock: Clock)
      ensures Valid() && channels == map[] && history == [] && this.clock == clock
    {
      this.clock := clock;
      channels, history := map[], [];
    }

    method StartTransmission(userID: UserId, channelID: RoomId) returns (err: VoiceResult)
      requires Valid()
      modifies this, clock
      ensures Valid() && clock.now >= old(clock.now)
      ensures history == old(history) + [StartOp(userID, channelID, clock.now)]
      ensures (channels, err) == Start(old(channels), userID, channelID, clock.now)
    {
      var channel := if channelID in channels then channels[channelID] else ChannelState("", false, 0);
      var now := clock.Now();
      Recorded(history, StartOp(userID, channelID, now));
      history := history + [StartOp(userID, channelID, now)];
      if channel.isTransmitting && channel.currentSpeaker != userID {
        return ErrChannelBusy;
      }
      channel := channel.(currentSpeaker := userID, isTransmitting := true, lastActivity := now);
      channels := channels[channelID := channel];
      return Ok;
    }

    method StopTransmission(userID: UserId, channelID: RoomId) returns (err: VoiceResult)
      requires Valid()
      modifies this, clock
      ensures Valid() && clock.now >= old(clock.now)
      ensures history == old(history) + [StopOp(userID, channelID, clock.now)]
      ensures (channels, err) == Stop(old(channels), userID, channelID, clock.now)
    {
      var now := clock.Now();
      Recorded(history, StopOp(userID, channelID, now));
      history := history + [StopOp(userID, channelID, now)];
      if channelID !in channels {
        return ErrChannelNotFound;
      }
      var channel := channels[channelID];
      if channel.currentSpeaker != userID {
        return ErrNotSpeaker;
      }
      channel := channel.(currentSpeaker := "", isTransmitting := false, lastActivity := now);
      channels := channels[channelID := channel];
      return Ok;
    }

    method CleanupInactiveChannels(timeout: int)
      requires Valid()
      modifies this, clock
      ensures Valid() && clock.now >= old(clock.now)
      ensures history == old(history) + [CleanupOp(timeout, clock.now)]
      ensures channels == CleanupInactive(old(channels), timeout, clock.now)
    {
      var now := clock.Now();
      Recorded(history, CleanupOp(timeout, now));
      history := history + [CleanupOp(timeout, now)];
      var todo := channels.Keys;
      while todo != {}
        invariant clock.now == now && history == old(history) + [CleanupOp(timeout, now)]
        invariant todo <= channels.Keys <= old(channels).Keys
        invariant forall room :: room in channels ==> channels[room] == old(channels)[room]
        invariant forall room :: room in old(channels) && room !in todo ==>
                    (room in channels <==> !Stale(old(channels)[room], timeout, now))
        decreases todo
      {
        var channelID :| channelID in todo;
        if now - channels[channelID].lastActivity > timeout {
          channels := channels - {channelID};
        }
        todo := todo - {channelID};
      }
    }

    /** Extending the record does not change what it says about its beginning. */
    static lemma Recorded(before: seq<Op>, op: Op)
      ensures After(before + [op], |before| + 1) == Do(After(before, |before|), op).0
    {
      Prefix(before, [op], |before|);
    }

    static lemma {:induction false} Prefix(a: seq<Op>, b: seq<Op>, n: nat)
      requires n <= |a|
      ensures After(a + b, n) == After(a, n)
    {
      if n > 0 {
        Prefix(a, b, n - 1);
      }
    }
  }
}
