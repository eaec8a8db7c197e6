/** The PostgreSQL store, one call at a time: what the caller of a store gets when nothing runs in
    between and the database does not fail. */
module ChannelRepository {
  import opened Membership
  import opened MembershipRows

  /** A database error that a caller can cause: the row would refer to a user who does not exist. */
  datatype Answer = Answered(outcome: Outcome) | ForeignKeyViolation

  /** What AddMember answers.  The foreign key is checked after the channel and before the count. */
  function AddAnswer(users: set<UserId>, d: Directory, channel: ChannelId, user: UserId): Answer {
    if channel in d && user !in users then ForeignKeyViolation else Answered(AddOutcome(d, channel, user))
  }

  /** The membership after AddMember. */
  function AddedBy(users: set<UserId>, d: Directory, channel: ChannelId, user: UserId): Directory {
    if user !in users then d else Added(d, channel, user)
  }

  class PGChannelStore {
    var users: set<UserId>
    var limits: map<ChannelId, int>         // channels: id and max_users
    var createdBy: map<ChannelId, UserId>   // channels: created_by, where it is not NULL
    var updatedAt: map<ChannelId, int>      // channels: updated_at
    var rows: seq<Row>                      // user_channels

    ghost predicate Valid()
      reads this
    {
      TablesSound(limits, rows) && ForeignKeysSound(users, limits, createdBy, rows) && updatedAt.Keys == limits.Keys
    }

    ghost function Directory(): Directory
      reads this
    {
      DirectoryOf(limits, rows)
    }

    constructor ()
      ensures Valid() && Directory() == map[] && users == {}
    {
      users, limits, createdBy, updatedAt, rows := {}, map[], map[], map[], [];
    }

    method RegisterUser(user: UserId)
      requires Valid()
      modifies this`users
      ensures Valid() && users == old(users) + {user}
    {
      users := users + {user};
    }

    /** DELETE FROM users, with what it reaches in the other tables. */
    method DeleteUser(user: UserId)
      requires Valid()
      modifies this`users, this`createdBy, this`rows
      ensures Valid() && users == old(users) - {user} && createdBy == ForgetCreator(old(createdBy), user)
      ensures Directory() == WithoutUser(old(Directory()), user)
    {
      DeletedUser(limits, rows, user);
      DeleteUserKeepsTables(limits, rows, user);
      KeptRows(rows, (r: Row) => r.user != user);
      users := users - {user};
      createdBy := ForgetCreator(createdBy, user);
      rows := DeleteUserRows(rows, user);
    }

    /** An id that is taken violates the primary key, a creator who does not exist a foreign key. */
    method Create(channel: ChannelId, creator: UserId, maxUsers: int, now: int) returns (ok: bool)
      requires Valid()
      modifies this
      ensures Valid() && users == old(users) && (ok <==> channel !in old(limits) && creator in users)
      ensures Directory() == if ok then Created(old(Directory()), channel, creator, maxUsers) else old(Directory())
      ensures createdBy == if ok then old(createdBy)[channel := creator] else old(createdBy)
      ensures updatedAt == if ok then old(updatedAt)[channel := now] else old(updatedAt)
    {
      if channel in limits || creator !in users {
        return false;
      }
      CreatedRows(limits, rows, Row(creator, channel), maxUsers);
      CreateKeepsTables(limits, rows, Row(creator, channel), maxUsers);
      limits := limits[channel := maxUsers];
      createdBy := createdBy[channel := creator];
      updatedAt := updatedAt[channel := now];
      rows := rows + [Row(creator, channel)];
      return true;
    }

    /** Inserts first, counts the rows with the new one among them, and takes it back if there are
        too many; for a user who exists the outcome is as if it had looked before adding. */
    method AddMember(channel: ChannelId, user: UserId, now: int) returns (r: Answer)
      requires Valid()
      modifies this
      ensures Valid() && users == old(users) && limits == old(limits) && createdBy == old(createdBy)
      ensures r == AddAnswer(users, old(Directory()), channel, user)
      ensures Directory() == AddedBy(users, old(Directory()), channel, user)
      ensures updatedAt == if r == Answered(Success) then old(updatedAt)[channel := now] else old(updatedAt)
    {
      if channel !in limits {
        return Answered(Failure(ErrChannelNotFound));
      }
      var maxUsers := limits[channel];
      var row := Row(user, channel);
      MembersHas(rows, user, channel);
      if row in rows {
        return Answered(Failure(ErrUserAlreadyInChannel));
      }
      if user !in users {
        return ForeignKeyViolation;
      }
      var begun := rows;
      rows := rows + [row];
      var count := CountRows(channel);
      MembersAppend(begun, row, channel);
      if count > maxUsers {
        rows := begun;
        return Answered(Failure(ErrChannelFull));
      }
      AddedRows(limits, begun, row);
      InsertKeepsTables(limits, begun, row);
      updatedAt := updatedAt[channel := now];
      return Answered(Success);
    }

    /** SELECT COUNT(*) over the membership rows of one channel. */
    method CountRows(channel: ChannelId) returns (count: nat)
      ensures count == |Members(rows, channel)|
    {
      count := 0;
      for i := 0 to |rows|
        invariant count == |Members(rows[..i], channel)|
      {
        assert rows[..i + 1] == rows[..i] + [rows[i]];
        MembersAppend(rows[..i], rows[i], channel);
        if rows[i].channel == channel {
          count := count + 1;
        }
      }
      assert rows[..|rows|] == rows;
    }

    method RemoveMember(channel: ChannelId, user: UserId, now: int) returns (r: Outcome)
      requires Valid()
      modifies this
      ensures Valid() && users == old(users) && limits == old(limits) && createdBy == old(createdBy)
      ensures r == RemoveOutcome(old(Directory()), channel, user)
      ensures Directory() == Removed(old(Directory()), channel, user)
      ensures updatedAt == if r == Success then old(updatedAt)[channel := now] else old(updatedAt)
    {
      var row := Row(user, channel);
      MembersHas(rows, user, channel);
      if row !in rows {
        DeleteNothing(rows, row);
        return Failure(if channel in limits then ErrUserNotInChannel else ErrChannelNotFound);
      }
      DeletedRows(limits, rows, row);
      DeleteRowKeepsTables(limits, rows, row);
      KeptRows(rows, (r: Row) => r != row);
      rows := DeleteRow(rows, row);
      updatedAt := updatedAt[channel := now];
      return Success;
    }
  }
}
