/** The store in RAM: a map of channels and a map of member lists, changed together. */
module MemoryStore {
  import opened Membership
  import opened Wrappers

  datatype Channel = Channel(
    id: ChannelId, name: string, latitude: real, longitude: real, maxUsers: int,
    userCount: int, isAvailable: bool, distance: real, createdBy: UserId, updatedAt: int)

  /** A channel as it is handed out: its count is always the current one. */
  function Counted(ch: Channel, members: seq<UserId>): Channel {
    ch.(userCount := |members|, isAvailable := |members| < ch.maxUsers)
  }

  /** Every channel once, with its current count, in any order. */
  ghost predicate Lists(channels: map<ChannelId, Channel>, users: map<ChannelId, seq<UserId>>, listed: seq<Channel>) {
    && channels.Keys == users.Keys
    && (forall c :: c in channels ==> Counted(channels[c], users[c]) in listed)
    && (forall k :: 0 <= k < |listed| ==> IsListed(channels, users, listed[k]))
    && (forall j, k :: 0 <= j < k < |listed| ==> listed[j].id != listed[k].id)
  }

  ghost predicate IsListed(channels: map<ChannelId, Channel>, users: map<ChannelId, seq<UserId>>, ch: Channel) {
    ch.id in channels && ch.id in users && ch == Counted(channels[ch.id], users[ch.id])
  }

  class MemoryChannelStore {
    var channels: map<ChannelId, Channel>
    var channelUsers: map<ChannelId, seq<UserId>>

    ghost predicate Valid()
      reads this
    {
      && channels.Keys == channelUsers.Keys
      && (forall c :: c in channels ==> channels[c].id == c)
      && Sound(Directory())
    }

    ghost function Directory(): Directory
      reads this
      requires channels.Keys == channelUsers.Keys
    {
      map c | c in channels :: Room(channels[c].maxUsers, channelUsers[c])
    }

    constructor ()
      ensures Valid() && Directory() == map[]
    {
      channels, channelUsers := map[], map[];
    }

    /** An id that is taken is overwritten, members and all. */
    method Create(ch: Channel)
      requires Valid()
      modifies this
      ensures Valid() && channels == old(channels)[ch.id := ch]
      ensures channelUsers == old(channelUsers)[ch.id := [ch.createdBy]]
      ensures Directory() == Created(old(Directory()), ch.id, ch.createdBy, ch.maxUsers)
    {
      CreateKeepsSound(Directory(), ch.id, ch.createdBy, ch.maxUsers);
      ghost var d := Directory();
      channels := channels[ch.id := ch];
      channelUsers := channelUsers[ch.id := [ch.createdBy]];
      assert Directory() == Created(d, ch.id, ch.createdBy, ch.maxUsers);
    }

    method GetByID(id: ChannelId) returns (r: Option<Channel>)
      requires Valid()
      ensures r == if id in channels then Some(Counted(channels[id], channelUsers[id])) else None
      ensures r.Some? ==>
                && r.value.userCount == |channelUsers[id]|
                && (r.value.isAvailable <==> |channelUsers[id]| < channels[id].maxUsers)
                && r.value == channels[id].(userCount := r.value.userCount, isAvailable := r.value.isAvailable)
    {
      if id !in channels {
        return None;
      }
      return Some(Counted(channels[id], channelUsers[id]));
    }

    method AddMember(channel: ChannelId, user: UserId, now: int) returns (r: Outcome)
      requires Valid()
      modifies this
      ensures Valid()
      ensures r == AddOutcome(old(Directory()), channel, user)
      ensures Directory() == Added(old(Directory()), channel, user)
      ensures r == Success ==> channel in old(channels) && channel in channelUsers
      ensures r == Success ==>
                channels == old(channels)[channel :=
                  Counted(old(channels)[channel], channelUsers[channel]).(updatedAt := now)]
      ensures r == Success ==>
                && channels[channel].userCount == |channelUsers[channel]|
                && (channels[channel].isAvailable <==> |channelUsers[channel]| < channels[channel].maxUsers)
      ensures r != Success ==> channels == old(channels)
    {
      ghost var d := Directory();
      AddKeepsSound(d, channel, user);
      if channel !in channels {
        return Failure(ErrChannelNotFound);
      }
      var users := channelUsers[channel];
      for i := 0 to |users|
        invariant user !in users[..i]
      {
        if users[i] == user {
          return Failure(ErrUserAlreadyInChannel);
        }
      }
      assert users[..|users|] == users;
      if |users| >= channels[channel].maxUsers {
        return Failure(ErrChannelFull);
      }
      SetMembers(channel, users + [user], now);
      assert Directory() == Added(d, channel, user);
      return Success;
    }

    /** The last four statements of AddMember and RemoveMember. */
    method SetMembers(channel: ChannelId, users: seq<UserId>, now: int)
      requires channels.Keys == channelUsers.Keys && channel in channels
      modifies this
      ensures channelUsers == old(channelUsers)[channel := users]
      ensures channels == old(channels)[channel := Counted(old(channels)[channel], users).(updatedAt := now)]
      ensures channels.Keys == channelUsers.Keys
    {
      channelUsers := channelUsers[channel := users];
      var ch := channels[channel];
      ch := ch.(userCount := |users|, isAvailable := |users| < ch.maxUsers, updatedAt := now);
      channels := channels[channel := ch];
    }

    method RemoveMember(channel: ChannelId, user: UserId, now: int) returns (r: Outcome)
      requires Valid()
      modifies this
      ensures Valid()
      ensures r == RemoveOutcome(old(Directory()), channel, user)
      ensures Directory() == Removed(old(Directory()), channel, user)
      ensures r == Success ==> channel in old(channels) && channel in channelUsers
      ensures r == Success ==>
                channels == old(channels)[channel :=
                  Counted(old(channels)[channel], channelUsers[channel]).(updatedAt := now)]
      ensures r == Success ==>
                && channels[channel].userCount == |channelUsers[channel]|
                && (channels[channel].isAvailable <==> |channelUsers[channel]| < channels[channel].maxUsers)
      ensures r != Success ==> channels == old(channels)
    {
      ghost var d := Directory();
      RemoveKeepsSound(d, channel, user);
      if channel !in channels {
        return Failure(ErrChannelNotFound);
      }
      var users := channelUsers[channel];
      for i := 0 to |users|
        invariant user !in users[..i]
      {
        if users[i] == user {
          WithoutAt(users, user, i);
          SetMembers(channel, users[..i] + users[i + 1..], now);
          assert Directory() == Removed(d, channel, user);
          return Success;
        }
      }
      assert users[..|users|] == users;
      return Failure(ErrUserNotInChannel);
    }

    method IsMember(channel: ChannelId, user: UserId) returns (r: Option<bool>)
      requires Valid()
      ensures r == if channel in channels then Some(user in channelUsers[channel]) else None
    {
      if channel !in channels {
        return None;
      }
      var users := channelUsers[channel];
      for i := 0 to |users|
        invariant user !in users[..i]
      {
        if users[i] == user {
          return Some(true);
        }
      }
      assert users[..|users|] == users;
      return Some(false);
    }

    /** The order is the map's, which is no order. */
    method ListNearby() returns (result: seq<Channel>)
      requires Valid()
      ensures Lists(channels, channelUsers, result)
      ensures forall k :: 0 <= k < |result| ==>
                var ch := result[k];
                && ch.id in channels && ch.userCount == |channelUsers[ch.id]|
                && (ch.isAvailable <==> ch.userCount < channels[ch.id].maxUsers)
    {
      result := [];
      var todo := channels.Keys;
      while todo != {}
        invariant todo <= channels.Keys
        invariant forall c :: c in channels.Keys - todo ==> Counted(channels[c], channelUsers[c]) in result
        invariant forall k :: 0 <= k < |result| ==> result[k].id !in todo && IsListed(channels, channelUsers, result[k])
        invariant forall j, k :: 0 <= j < k < |result| ==> result[j].id != result[k].id
        decreases todo
      {
        var c :| c in todo;
        todo := todo - {c};
        ghost var before := result;
        result := result + [Counted(channels[c], channelUsers[c])];
        assert forall x :: x in before ==> x in result;
        assert Counted(channels[c], channelUsers[c]) == result[|before|];
      }
    }
  }

  lemma {:induction false} WithoutAt(users: seq<UserId>, user: UserId, i: nat)
    requires i < |users| && users[i] == user && user !in users[..i]
    ensures user in users && Without(users, user) == users[..i] + users[i + 1..]
  {
    if i > 0 {
      assert users[0] in users[..i];
      assert forall x :: x in users[1..][..i - 1] ==> x in users[..i];
      WithoutAt(users[1..], user, i - 1);
    }
  }
}
