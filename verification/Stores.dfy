/** The two stores side by side: exactly when they answer alike, so that what holds of the service
    over one holds over the other. */
module Stores {
  import opened Membership
  import opened ChannelRepository
  import opened MemoryStore

  datatype Call =
    | Add(channel: ChannelId, user: UserId, now: int)
    | Remove(channel: ChannelId, user: UserId, now: int)

  // ---- What each store answers ----

  function OutcomeOf(d: Directory, call: Call): Outcome {
    match call
    case Add(channel, user, _) => AddOutcome(d, channel, user)
    case Remove(channel, user, _) => RemoveOutcome(d, channel, user)
  }

  function AfterCall(d: Directory, call: Call): Directory {
    match call
    case Add(channel, user, _) => Added(d, channel, user)
    case Remove(channel, user, _) => Removed(d, channel, user)
  }

  /** The memory store knows no users. */
  function AfterCalls(d: Directory, calls: seq<Call>): Directory {
    if calls == [] then d else AfterCall(AfterCalls(d, calls[..|calls| - 1]), calls[|calls| - 1])
  }

  function Outcomes(d: Directory, calls: seq<Call>): seq<Outcome> {
    if calls == [] then []
    else
      var n := |calls| - 1;
      Outcomes(d, calls[..n]) + [OutcomeOf(AfterCalls(d, calls[..n]), calls[n])]
  }

  function PGAnswer(users: set<UserId>, d: Directory, call: Call): Answer {
    match call
    case Add(channel, user, _) => AddAnswer(users, d, channel, user)
    case Remove(channel, user, _) => Answered(RemoveOutcome(d, channel, user))
  }

  function PGAfter(users: set<UserId>, d: Directory, call: Call): Directory {
    match call
    case Add(channel, user, _) => AddedBy(users, d, channel, user)
    case Remove(channel, user, _) => Removed(d, channel, user)
  }

  function PGAfterCalls(users: set<UserId>, d: Directory, calls: seq<Call>): Directory {
    if calls == [] then d else PGAfter(users, PGAfterCalls(users, d, calls[..|calls| - 1]), calls[|calls| - 1])
  }

  function PGAnswers(users: set<UserId>, d: Directory, calls: seq<Call>): seq<Answer> {
    if calls == [] then []
    else
      var n := |calls| - 1;
      PGAnswers(users, d, calls[..n]) + [PGAnswer(users, PGAfterCalls(users, d, calls[..n]), calls[n])]
  }

  // ---- When they agree ----

  predicate Agree(fromPg: seq<Answer>, fromMemory: seq<Outcome>) {
    |fromPg| == |fromMemory| && forall i :: 0 <= i < |fromPg| ==> fromPg[i] == Answered(fromMemory[i])
  }

  /** Whoever is to join a channel that exists is a user who exists. */
  predicate UsersExist(users: set<UserId>, d: Directory, calls: seq<Call>) {
    forall i :: 0 <= i < |calls| && calls[i].Add? && calls[i].channel in d ==> calls[i].user in users
  }

  /** From the same membership, all answers to any sequence of joins and leaves agree if and only if
      whoever is to join a channel that exists is a user who exists; then the membership agrees too. */
  lemma {:induction false} AgreeExactly(users: set<UserId>, d: Directory, calls: seq<Call>)
    ensures Agree(PGAnswers(users, d, calls), Outcomes(d, calls)) <==> UsersExist(users, d, calls)
    ensures UsersExist(users, d, calls) ==> PGAfterCalls(users, d, calls) == AfterCalls(d, calls)
    ensures |PGAnswers(users, d, calls)| == |Outcomes(d, calls)| == |calls|
    ensures AfterCalls(d, calls).Keys == d.Keys
  {
    if calls != [] {
      var n := |calls| - 1;
      AgreeExactly(users, d, calls[..n]);
      var a, b := PGAnswers(users, d, calls), Outcomes(d, calls);
      var a', b' := PGAnswers(users, d, calls[..n]), Outcomes(d, calls[..n]);
      assert a[..n] == a' && b[..n] == b';
      assert Agree(a, b) <==> Agree(a', b') && a[n] == Answered(b[n]);
      assert UsersExist(users, d, calls) <==>
             UsersExist(users, d, calls[..n])
             && (calls[n].Add? && calls[n].channel in d ==> calls[n].user in users);
    }
  }

  /** Both stores, run on the same calls, although one looks before it adds and the other inserts,
      counts and takes back. */
  method RunBoth(pg: PGChannelStore, memory: MemoryChannelStore, calls: seq<Call>)
    returns (fromPg: seq<Answer>, fromMemory: seq<Outcome>)
    requires pg.Valid() && memory.Valid() && pg.Directory() == memory.Directory()
    modifies pg, memory
    ensures pg.Valid() && memory.Valid() && pg.users == old(pg.users)
    ensures fromPg == PGAnswers(pg.users, old(pg.Directory()), calls)
    ensures fromMemory == Outcomes(old(pg.Directory()), calls)
    ensures Agree(fromPg, fromMemory) <==> UsersExist(pg.users, old(pg.Directory()), calls)
    ensures Agree(fromPg, fromMemory) ==>
              pg.Directory() == memory.Directory() == AfterCalls(old(pg.Directory()), calls)
  {
    ghost var d := pg.Directory();
    AgreeExactly(pg.users, d, calls);
    fromPg, fromMemory := [], [];
    for i := 0 to |calls|
      invariant pg.Valid() && memory.Valid() && pg.users == old(pg.users)
      invariant fromPg == PGAnswers(pg.users, d, calls[..i]) && pg.Directory() == PGAfterCalls(pg.users, d, calls[..i])
      invariant fromMemory == Outcomes(d, calls[..i]) && memory.Directory() == AfterCalls(d, calls[..i])
    {
      assert calls[..i + 1][..i] == calls[..i];
      var a, b := RunCall(pg, memory, calls[i]);
      fromPg, fromMemory := fromPg + [a], fromMemory + [b];
    }
    assert calls[..|calls|] == calls;
  }

  method RunCall(pg: PGChannelStore, memory: MemoryChannelStore, call: Call) returns (a: Answer, b: Outcome)
    requires pg.Valid() && memory.Valid()
    modifies pg, memory
    ensures pg.Valid() && memory.Valid() && pg.users == old(pg.users)
    ensures a == PGAnswer(pg.users, old(pg.Directory()), call)
    ensures pg.Directory() == PGAfter(pg.users, old(pg.Directory()), call)
    ensures b == OutcomeOf(old(memory.Directory()), call)
    ensures memory.Directory() == AfterCall(old(memory.Directory()), call)
  {
    match call {
      case Add(channel, user, now) =>
        a := pg.AddMember(channel, user, now);
        b := memory.AddMember(channel, user, now);
      case Remove(channel, user, now) =>
        var r := pg.RemoveMember(channel, user, now);
        a := Answered(r);
        b := memory.RemoveMember(channel, user, now);
    }
  }

  /** A deleted account whose access token is still good asks to join a channel: PostgreSQL refuses it,
      full channel or not, and the memory store lets it in while there is room. */
  method DeletedUserJoins(creator: UserId, user: UserId, channel: ChannelId, maxUsers: int, now: int)
    returns (a: Answer, b: Outcome)
    requires user != creator
    ensures a == ForeignKeyViolation
    ensures b == if maxUsers > 1 then Success else Failure(ErrChannelFull)
  {
    a := DeletedUserJoinsPG(creator, user, channel, maxUsers, now);
    b := StrangerJoinsMemory(creator, user, channel, maxUsers, now);
  }

  method DeletedUserJoinsPG(creator: UserId, user: UserId, channel: ChannelId, maxUsers: int, now: int)
    returns (a: Answer)
    requires user != creator
    ensures a == ForeignKeyViolation
  {
    var pg := new PGChannelStore();
    pg.RegisterUser(creator);
    pg.RegisterUser(user);
    var created := pg.Create(channel, creator, maxUsers, now);
    pg.DeleteUser(user);
    a := pg.AddMember(channel, user, now);
  }

  method StrangerJoinsMemory(creator: UserId, user: UserId, channel: ChannelId, maxUsers: int, now: int)
    returns (b: Outcome)
    requires user != creator
    ensures b == if maxUsers > 1 then Success else Failure(ErrChannelFull)
  {
    var memory := new MemoryChannelStore();
    memory.Create(Channel(channel, "", 0.0, 0.0, maxUsers, 1, 1 < maxUsers, 0.0, creator, now));
    b := memory.AddMember(channel, user, now);
  }
}
