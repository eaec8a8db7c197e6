/** The two tables behind channel membership: the limit of each channel, and one row per membership
    in order of insertion; and what each change of the rows does to the members of every channel. */
module MembershipRows {
  import opened Membership
  import opened Sequences

  datatype Row = Row(user: UserId, channel: ChannelId)

  function Members(rows: seq<Row>, channel: ChannelId): seq<UserId> {
    if rows == [] then []
    else if rows[0].channel == channel then [rows[0].user] + Members(rows[1..], channel)
    else Members(rows[1..], channel)
  }

  function DirectoryOf(limits: map<ChannelId, int>, rows: seq<Row>): Directory {
    map c | c in limits :: Room(limits[c], Members(rows, c))
  }

  /** DELETE with the key of one row. */
  function DeleteRow(rows: seq<Row>, row: Row): seq<Row> {
    Filter(rows, (r: Row) => r != row)
  }

  /** ON DELETE CASCADE, from channels and from users. */
  function DeleteChannelRows(rows: seq<Row>, channel: ChannelId): seq<Row> {
    Filter(rows, (r: Row) => r.channel != channel)
  }

  function DeleteUserRows(rows: seq<Row>, user: UserId): seq<Row> {
    Filter(rows, (r: Row) => r.user != user)
  }

  lemma {:induction false} MembersAppend(rows: seq<Row>, row: Row, channel: ChannelId)
    ensures Members(rows + [row], channel)
            == if row.channel == channel then Members(rows, channel) + [row.user] else Members(rows, channel)
  {
    var all := rows + [row];
    if rows == [] {
      assert all[1..] == [];
    } else {
      assert all[0] == rows[0] && all[1..] == rows[1..] + [row];
      MembersAppend(rows[1..], row, channel);
      if row.channel == channel && rows[0].channel == channel {
        var first, rest := [rows[0].user], Members(rows[1..], channel);
        assert (first + rest) + [row.user] == first + (rest + [row.user]);
      }
    }
  }

  lemma {:induction false} MembersHas(rows: seq<Row>, user: UserId, channel: ChannelId)
    ensures user in Members(rows, channel) <==> Row(user, channel) in rows
  {
    if rows != [] {
      MembersHas(rows[1..], user, channel);
      assert Row(user, channel) in rows <==> Row(user, channel) == rows[0] || Row(user, channel) in rows[1..];
    }
  }

  /** The unique index over (user, channel) makes every channel's members distinct. */
  lemma {:induction false} MembersDistinct(rows: seq<Row>, channel: ChannelId)
    requires Distinct(rows)
    ensures Distinct(Members(rows, channel))
  {
    if rows != [] {
      MembersDistinct(rows[1..], channel);
      MembersHas(rows[1..], rows[0].user, channel);
      var rest := Members(rows[1..], channel);
      assert rows[0].channel == channel ==> Row(rows[0].user, channel) == rows[0];
      assert ([rows[0].user] + rest)[1..] == rest;
    }
  }

  lemma {:induction false} MembersAbsent(rows: seq<Row>, channel: ChannelId)
    requires forall r :: r in rows ==> r.channel != channel
    ensures Members(rows, channel) == []
  {
    if rows != [] {
      assert rows[0] in rows;
      MembersAbsent(rows[1..], channel);
    }
  }

  /** Deleting a row takes exactly one member out of exactly one channel. */
  lemma {:induction false} DeleteRowMembers(rows: seq<Row>, row: Row, channel: ChannelId)
    requires Distinct(rows)
    ensures Members(DeleteRow(rows, row), channel)
            == if row.channel == channel then Without(Members(rows, channel), row.user) else Members(rows, channel)
  {
    if rows != [] {
      DeleteRowMembers(rows[1..], row, channel);
      var first, rest, gone := rows[0], Members(rows[1..], channel), DeleteRow(rows[1..], row);
      assert ([first.user] + rest)[1..] == rest;
      if first == row {
        DeleteNothing(rows[1..], row);
      } else {
        assert ([first] + gone)[0] == first && ([first] + gone)[1..] == gone;
        assert DeleteRow(rows, row) == [first] + gone;
      }
    }
  }

  lemma DeleteNothing(rows: seq<Row>, row: Row)
    requires row !in rows
    ensures DeleteRow(rows, row) == rows
  {
    FilterSuffix(rows, (r: Row) => r != row, 0);
  }

  lemma DeleteOnly(row: Row)
    ensures DeleteRow([row], row) == []
  {
    FilterSuffix([row], (r: Row) => r != row, 1);
  }

  lemma {:induction false} DeleteChannelMembers(rows: seq<Row>, channel: ChannelId, other: ChannelId)
    ensures Members(DeleteChannelRows(rows, channel), other) == if other == channel then [] else Members(rows, other)
  {
    if rows != [] {
      DeleteChannelMembers(rows[1..], channel, other);
      var rest := DeleteChannelRows(rows[1..], channel);
      assert ([rows[0]] + rest)[1..] == rest;
    }
  }

  /** Deleting a user's rows takes that user out of the channel, and nobody else. */
  lemma {:induction false} DeleteUserExactly(rows: seq<Row>, user: UserId, channel: ChannelId)
    requires Distinct(rows)
    ensures Members(DeleteUserRows(rows, user), channel) == Without(Members(rows, channel), user)
  {
    if rows != [] {
      DeleteUserExactly(rows[1..], user, channel);
      var first, rest, gone := rows[0], Members(rows[1..], channel), DeleteUserRows(rows[1..], user);
      assert ([first.user] + rest)[1..] == rest;
      if first.user == user {
        if first.channel == channel {
          MembersHas(rows[1..], user, channel);
          assert first == Row(user, channel);
          WithoutAbsent(rest, user);
        }
      } else {
        assert ([first] + gone)[0] == first && ([first] + gone)[1..] == gone;
        assert DeleteUserRows(rows, user) == [first] + gone;
      }
    }
  }

  lemma {:induction false} WithoutAbsent(s: seq<UserId>, x: UserId)
    requires x !in s
    ensures Without(s, x) == s
  {
    if s != [] {
      WithoutAbsent(s[1..], x);
      assert s == [s[0]] + s[1..];
    }
  }

  lemma {:induction false} DeleteUserMembers(rows: seq<Row>, user: UserId, channel: ChannelId)
    ensures |Members(DeleteUserRows(rows, user), channel)| <= |Members(rows, channel)|
  {
    if rows != [] {
      DeleteUserMembers(rows[1..], user, channel);
      var rest := DeleteUserRows(rows[1..], user);
      assert ([rows[0]] + rest)[1..] == rest;
    }
  }

  // ---- The constraints of the tables ----

  /** The constraints of the committed tables: unique rows, of existing channels, within the limit. */
  ghost predicate TablesSound(limits: map<ChannelId, int>, rows: seq<Row>) {
    && Distinct(rows)
    && (forall r :: r in rows ==> r.channel in limits)
    && Sound(DirectoryOf(limits, rows))
  }

  // ---- Every change of the tables keeps their constraints ----

  /** The foreign keys: user_channels refers to users and channels, created_by to users.  A channel
      whose created_by is NULL is missing from `createdBy`. */
  ghost predicate ForeignKeysSound(users: set<UserId>, limits: map<ChannelId, int>, createdBy: map<ChannelId, UserId>,
                                   rows: seq<Row>) {
    && (forall r :: r in rows ==> r.user in users && r.channel in limits)
    && createdBy.Keys <= limits.Keys
    && (forall c :: c in createdBy ==> createdBy[c] in users)
  }

  /** ON DELETE SET NULL, from users to channels. */
  function ForgetCreator(createdBy: map<ChannelId, UserId>, user: UserId): map<ChannelId, UserId> {
    map c | c in createdBy && createdBy[c] != user :: createdBy[c]
  }

  lemma InsertKeepsTables(limits: map<ChannelId, int>, rows: seq<Row>, row: Row)
    requires TablesSound(limits, rows) && row !in rows
    requires row.channel in limits && |Members(rows, row.channel)| < limits[row.channel]
    ensures TablesSound(limits, rows + [row])
  {
    DistinctAppend(rows, row);
    forall c | c in limits ensures RoomSound(Room(limits[c], Members(rows + [row], c))) {
      MembersAppend(rows, row, c);
      MembersDistinct(rows + [row], c);
      assert RoomSound(DirectoryOf(limits, rows)[c]);
    }
  }

  lemma CreatedRows(limits: map<ChannelId, int>, rows: seq<Row>, row: Row, maxUsers: int)
    requires TablesSound(limits, rows) && row.channel !in limits
    ensures row !in rows
    ensures DirectoryOf(limits[row.channel := maxUsers], rows + [row])
            == Created(DirectoryOf(limits, rows), row.channel, row.user, maxUsers)
  {
    forall c | c in limits || c == row.channel
      ensures Members(rows + [row], c) == if c == row.channel then [row.user] else Members(rows, c)
    {
      MembersAppend(rows, row, c);
      MembersAbsent(rows, row.channel);
    }
  }

  lemma CreateKeepsTables(limits: map<ChannelId, int>, rows: seq<Row>, row: Row, maxUsers: int)
    requires TablesSound(limits, rows) && row.channel !in limits
    ensures TablesSound(limits[row.channel := maxUsers], rows + [row])
  {
    CreatedRows(limits, rows, row, maxUsers);
    DistinctAppend(rows, row);
    CreateKeepsSound(DirectoryOf(limits, rows), row.channel, row.user, maxUsers);
  }

  lemma DeletedRows(limits: map<ChannelId, int>, rows: seq<Row>, row: Row)
    requires TablesSound(limits, rows) && row in rows
    ensures DirectoryOf(limits, DeleteRow(rows, row)) == Removed(DirectoryOf(limits, rows), row.channel, row.user)
  {
    MembersHas(rows, row.user, row.channel);
    forall c | c in limits
      ensures Members(DeleteRow(rows, row), c)
              == if c == row.channel then Without(Members(rows, c), row.user) else Members(rows, c)
    {
      DeleteRowMembers(rows, row, c);
    }
  }

  lemma DeleteRowKeepsTables(limits: map<ChannelId, int>, rows: seq<Row>, row: Row)
    requires TablesSound(limits, rows) && row in rows
    ensures TablesSound(limits, DeleteRow(rows, row))
  {
    KeptRows(rows, (r: Row) => r != row);
    DeletedRows(limits, rows, row);
    RemoveKeepsSound(DirectoryOf(limits, rows), row.channel, row.user);
  }

  lemma KeptRows(rows: seq<Row>, p: Row -> bool)
    requires Distinct(rows)
    ensures Distinct(Filter(rows, p)) && forall r :: r in Filter(rows, p) <==> r in rows && p(r)
  {
    FilterDistinct(rows, p);
    forall r ensures r in Filter(rows, p) <==> r in rows && p(r) {
      FilterMember(rows, p, r);
    }
  }

  lemma DeleteChannelKeepsTables(limits: map<ChannelId, int>, rows: seq<Row>, channel: ChannelId)
    requires TablesSound(limits, rows)
    ensures TablesSound(limits - {channel}, DeleteChannelRows(rows, channel))
  {
    KeptRows(rows, (r: Row) => r.channel != channel);
    forall c | c in limits && c != channel
      ensures RoomSound(Room(limits[c], Members(DeleteChannelRows(rows, channel), c)))
    {
      DeleteChannelMembers(rows, channel, c);
      assert RoomSound(DirectoryOf(limits, rows)[c]);
    }
  }

  lemma DeleteUserKeepsTables(limits: map<ChannelId, int>, rows: seq<Row>, user: UserId)
    requires TablesSound(limits, rows)
    ensures TablesSound(limits, DeleteUserRows(rows, user))
  {
    KeptRows(rows, (r: Row) => r.user != user);
    forall c | c in limits ensures RoomSound(Room(limits[c], Members(DeleteUserRows(rows, user), c))) {
      DeleteUserMembers(rows, user, c);
      MembersDistinct(DeleteUserRows(rows, user), c);
      assert RoomSound(DirectoryOf(limits, rows)[c]);
    }
  }

  lemma DeletedUser(limits: map<ChannelId, int>, rows: seq<Row>, user: UserId)
    requires TablesSound(limits, rows)
    ensures DirectoryOf(limits, DeleteUserRows(rows, user)) == WithoutUser(DirectoryOf(limits, rows), user)
  {
    forall c | c in limits ensures Members(DeleteUserRows(rows, user), c) == Without(Members(rows, c), user) {
      DeleteUserExactly(rows, user, c);
    }
  }

  lemma AddedMembers(limits: map<ChannelId, int>, rows: seq<Row>, row: Row)
    ensures forall c :: c in limits ==>
              Members(rows + [row], c) == if c == row.channel then Members(rows, c) + [row.user] else Members(rows, c)
  {
    forall c | c in limits
      ensures Members(rows + [row], c) == if c == row.channel then Members(rows, c) + [row.user] else Members(rows, c)
    {
      MembersAppend(rows, row, c);
    }
  }

  lemma AddedRows(limits: map<ChannelId, int>, rows: seq<Row>, row: Row)
    requires row !in rows && row.channel in limits && |Members(rows, row.channel)| < limits[row.channel]
    ensures AddOutcome(DirectoryOf(limits, rows), row.channel, row.user) == Success
    ensures DirectoryOf(limits, rows + [row]) == Added(DirectoryOf(limits, rows), row.channel, row.user)
  {
    var d := DirectoryOf(limits, rows);
    MembersHas(rows, row.user, row.channel);
    assert AddOutcome(d, row.channel, row.user) == Success;
    AddedMembers(limits, rows, row);
  }

  lemma {:induction false} FewerMembers(rows: seq<Row>, p: Row -> bool, channel: ChannelId)
    ensures |Members(Filter(rows, p), channel)| <= |Members(rows, channel)|
  {
    if rows != [] {
      FewerMembers(rows[1..], p, channel);
      var rest := Filter(rows[1..], p);
      assert ([rows[0]] + rest)[1..] == rest;
    }
  }
}
