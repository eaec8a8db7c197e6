/** What channel membership promises, whichever store keeps it: nobody is in a channel twice, and
    joins never take a channel past its limit. */
module Membership {
  import opened Sequences

  type UserId = string
  type ChannelId = string

  datatype Error = ErrChannelNotFound | ErrChannelFull | ErrUserAlreadyInChannel | ErrUserNotInChannel
  datatype Outcome = Success | Failure(error: Error)

  /** The members in order of joining. */
  datatype Room = Room(maxUsers: int, members: seq<UserId>)
  type Directory = map<ChannelId, Room>

  function AddOutcome(d: Directory, channel: ChannelId, user: UserId): Outcome {
    if channel !in d then Failure(ErrChannelNotFound)
    else if user in d[channel].members then Failure(ErrUserAlreadyInChannel)
    else if |d[channel].members| >= d[channel].maxUsers then Failure(ErrChannelFull)
    else Success
  }

  function Added(d: Directory, channel: ChannelId, user: UserId): Directory {
    if AddOutcome(d, channel, user) != Success then d
    else d[channel := d[channel].(members := d[channel].members + [user])]
  }

  function RemoveOutcome(d: Directory, channel: ChannelId, user: UserId): Outcome {
    if channel !in d then Failure(ErrChannelNotFound)
    else if user !in d[channel].members then Failure(ErrUserNotInChannel)
    else Success
  }

  /** Without the first occurrence of x. */
  function Without<T(==)>(s: seq<T>, x: T): seq<T> {
    if s == [] then []
    else if s[0] == x then s[1..]
    else [s[0]] + Without(s[1..], x)
  }

  function Removed(d: Directory, channel: ChannelId, user: UserId): Directory {
    if RemoveOutcome(d, channel, user) != Success then d
    else d[channel := d[channel].(members := Without(d[channel].members, user))]
  }

  /** A channel begins with its creator in it. */
  function Created(d: Directory, channel: ChannelId, creator: UserId, maxUsers: int): Directory {
    d[channel := Room(maxUsers, [creator])]
  }

  /** A deleted user is in no channel. */
  function WithoutUser(d: Directory, user: UserId): Directory {
    map c | c in d :: d[c].(members := Without(d[c].members, user))
  }

  // ---- What is kept ----

  /** The creator is let in whatever the limit, so a limit below one is exceeded by one member. */
  predicate RoomSound(r: Room) {
    && Distinct(r.members)
    && |r.members| <= if r.maxUsers < 1 then 1 else r.maxUsers
  }

  predicate Sound(d: Directory) {
    forall c :: c in d ==> RoomSound(d[c])
  }

  /** Removing takes exactly the one member away, and keeps the others distinct. */
  lemma {:induction false} WithoutExactly<T>(s: seq<T>, x: T)
    ensures |Without(s, x)| == |s| - (if x in s then 1 else 0)
    ensures Distinct(s) ==> Distinct(Without(s, x)) && x !in Without(s, x)
    ensures forall y :: y != x ==> (y in Without(s, x) <==> y in s)
  {
    if s != [] {
      WithoutExactly(s[1..], x);
    }
  }

  lemma {:induction false} WithoutLast<T>(s: seq<T>, x: T)
    requires x !in s
    ensures Without(s + [x], x) == s
  {
    if s == [] {
      assert s + [x] == [x];
    } else {
      WithoutLast(s[1..], x);
      assert (s + [x])[0] == s[0] && (s + [x])[1..] == s[1..] + [x];
    }
  }

  lemma AddKeepsSound(d: Directory, channel: ChannelId, user: UserId)
    requires Sound(d)
    ensures Sound(Added(d, channel, user))
  {
    if channel in d {
      DistinctAppend(d[channel].members, user);
    }
  }

  lemma RemoveKeepsSound(d: Directory, channel: ChannelId, user: UserId)
    requires Sound(d)
    ensures var d' := Removed(d, channel, user);
            && Sound(d')
            && d'.Keys == d.Keys
            && (channel in d ==> user !in d'[channel].members && d'[channel].maxUsers == d[channel].maxUsers)
            && (forall c, u :: c in d && (c != channel || u != user) ==> (u in d'[c].members <==> u in d[c].members))
  {
    if channel in d {
      WithoutExactly(d[channel].members, user);
    }
  }

  lemma CreateKeepsSound(d: Directory, channel: ChannelId, creator: UserId, maxUsers: int)
    requires Sound(d)
    ensures Sound(Created(d, channel, creator, maxUsers))
  {
    DistinctAppend([], creator);
    assert [] + [creator] == [creator];
  }

  /** Leaving undoes joining. */
  lemma RemoveUndoesAdd(d: Directory, channel: ChannelId, user: UserId)
    requires AddOutcome(d, channel, user) == Success
    ensures RemoveOutcome(Added(d, channel, user), channel, user) == Success
    ensures Removed(Added(d, channel, user), channel, user) == d
  {
    WithoutLast(d[channel].members, user);
    assert Removed(Added(d, channel, user), channel, user)[channel] == d[channel];
  }
}
