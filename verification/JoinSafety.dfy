/** What every interleaving of the calls guarantees, and what each call's answer means. */
module JoinSafety {
  import opened Membership
  import opened MembershipRows
  import opened Sequences
  import opened Wrappers
  import opened JoinTransactions
  import opened JoinInvariant

  // ---- Main results ----

  /** In every interleaving the committed membership has no duplicates and never exceeds a limit of at
      least one, and no row of any table refers to a user or a channel that does not exist. */
  lemma NeverOversubscribed(ss: seq<State>, steps: seq<Step>, i: nat, channel: ChannelId)
    requires Execution(ss, steps) && i <= |steps|
    ensures Distinct(ss[i].rows) && ReferencesSound(ss[i])
    ensures forall r :: r in ss[i].rows ==> r.channel in ss[i].limits
    ensures channel in ss[i].limits ==>
              var members, limit := Members(ss[i].rows, channel), ss[i].limits[channel];
              Distinct(members) && |members| <= if limit < 1 then 1 else limit
  {
    AlwaysInvariant(ss, steps, i);
    if channel in ss[i].limits {
      assert RoomSound(Committed(ss[i])[channel]);
    }
  }

  /** Joins are atomic.  Whatever runs in between, the statement that decides a join answers as the
      sequential specification does at that moment and changes the membership as it does; until
      then, and when the user turns out not to exist, it changes nothing that anybody else sees. */
  lemma JoinsAreAtomic(ss: seq<State>, steps: seq<Step>, i: nat, t: TxId)
    requires Execution(ss, steps) && i < |steps| && steps[i].Run? && steps[i].t == t
    requires t in ss[i].txs && ss[i].txs[t].Join?
    ensures t in ss[i + 1].txs
    ensures var Join(channel, user, _) := ss[i].txs[t];
            var d, d' := Committed(ss[i]), Committed(ss[i + 1]);
            match ss[i + 1].txs[t]
            case Finished(Answered(outcome)) => outcome == AddOutcome(d, channel, user) && d' == Added(d, channel, user)
            case Finished(_) => user !in ss[i].users && d' == d
            case _ => d' == d
  {
    AlwaysInvariant(ss, steps, i);
    StepTaken(ss, steps, i);
    JoinDecides(ss[i], t);
  }

  lemma JoinDecides(s: State, t: TxId)
    requires Invariant(s) && t in s.txs && s.txs[t].Join?
    ensures var s' := RunJoin(s, t, s.txs[t]);
            var Join(channel, user, _) := s.txs[t];
            var d, d' := Committed(s), Committed(s');
            match s'.txs[t]
            case Finished(Answered(outcome)) => outcome == AddOutcome(d, channel, user) && d' == Added(d, channel, user)
            case Finished(_) => user !in s.users && d' == d
            case _ => d' == d
  {
    var Join(channel, user, pc) := s.txs[t];
    assert TxSound(s, s.txs[t]);
    if pc.Touched? {
      assert NamesUser(s.txs[t], user);
      AddedRows(s.limits, s.rows, Row(user, channel));
    } else {
      MembersHas(s.rows, user, channel);
      MembersAppend(s.rows, Row(user, channel), channel);
    }
  }

  /** So are creations and deletions, and the DELETE that RemoveMember begins with: the statement that
      commits changes the membership as the specification does, every other one changes nothing. */
  lemma OtherCallsAreAtomic(ss: seq<State>, steps: seq<Step>, i: nat, t: TxId)
    requires Execution(ss, steps) && i < |steps| && steps[i].Run? && steps[i].t == t
    requires t in ss[i].txs && !ss[i].txs[t].Join?
    ensures t in ss[i + 1].txs
    ensures var d, d' := Committed(ss[i]), Committed(ss[i + 1]);
            match ss[i].txs[t]
            case Create(channel, creator, maxUsers, _) =>
              if ss[i + 1].txs[t] == Finished(Answered(Success)) then
                channel !in d && d' == Created(d, channel, creator, maxUsers)
              else d' == d
            case Remove(channel, user, pc) =>
              d' == if pc.Sent? then Removed(d, channel, user) else d
            case Drop(target, _) =>
              if ss[i + 1].txs[t] == Finished(Deleted) then d' == DirectoryWithout(d, target) else d' == d
            case _ => true
  {
    AlwaysInvariant(ss, steps, i);
    StepTaken(ss, steps, i);
    var s, tx := ss[i], ss[i].txs[t];
    assert TxSound(s, tx);
    match tx
    case Create(channel, creator, maxUsers, CreatorInserted) =>
      CreatedRows(s.limits, s.rows, Row(creator, channel), maxUsers);
    case Remove(channel, user, Sent) =>
      MembersHas(s.rows, user, channel);
      if Row(user, channel) in s.rows {
        DeletedRows(s.limits, s.rows, Row(user, channel));
      }
    case Drop(target, _) => DirectoryOfWithout(s, target);
    case _ =>
  }

  /** What RemoveMember answers, exactly.  Its DELETE finds the row if and only if the specification
      succeeds at that moment.  The error it picks afterwards, in a statement of its own, is the
      specification's at that later moment if and only if the user is not a member again by then. */
  lemma RemovalsAnswerExactly(ss: seq<State>, steps: seq<Step>, i: nat, t: TxId)
    requires Execution(ss, steps) && i < |steps| && steps[i].Run? && steps[i].t == t
    requires t in ss[i].txs && ss[i].txs[t].Remove?
    ensures t in ss[i + 1].txs
    ensures var Remove(channel, user, pc) := ss[i].txs[t];
            var d, tx' := Committed(ss[i]), ss[i + 1].txs[t];
            match pc
            case Sent =>
              tx' == Remove(channel, user,
                            if RemoveOutcome(d, channel, user) == Success then RowDeleted else NothingDeleted)
            case RowDeleted => tx' == Finished(Answered(Success))
            case NothingDeleted =>
              tx' == Finished(Answered(RemoveOutcome(d, channel, user)))
              <==> !(channel in d && user in d[channel].members)
  {
    AlwaysInvariant(ss, steps, i);
    StepTaken(ss, steps, i);
    MembersHas(ss[i].rows, ss[i].txs[t].user, ss[i].txs[t].channel);
  }

  /** A deleted channel is gone; a deleted user is in no channel. */
  function DirectoryWithout(d: Directory, target: Target): Directory {
    match target
    case OfUser(user) => WithoutUser(d, user)
    case OfChannel(channel) => d - {channel}
  }

  lemma DirectoryOfWithout(s: State, target: Target)
    requires TablesSound(s.limits, s.rows)
    ensures Committed(WithoutTarget(s, target)) == DirectoryWithout(Committed(s), target)
  {
    match target
    case OfUser(user) => DeletedUser(s.limits, s.rows, user);
    case OfChannel(channel) =>
      forall c | c in s.limits && c != channel
        ensures Members(DeleteChannelRows(s.rows, channel), c) == Members(s.rows, c)
      {
        DeleteChannelMembers(s.rows, channel, c);
      }
  }

  /** A deletion commits only when it holds every row that it removes or changes. */
  lemma DeletionsHoldWhatTheyChange(ss: seq<State>, steps: seq<Step>, i: nat, t: TxId)
    requires Execution(ss, steps) && i < |steps| && steps[i].Run? && steps[i].t == t
    requires t in ss[i].txs && ss[i].txs[t].Drop? && t in ss[i + 1].txs && ss[i + 1].txs[t] == Finished(Deleted)
    ensures Holds(ss[i].txs[t], MainLock(ss[i].txs[t].target))
    ensures forall l :: l in Reached(ss[i], ss[i].txs[t].target) ==> Holds(ss[i].txs[t], l)
  {
    AlwaysInvariant(ss, steps, i);
    StepTaken(ss, steps, i);
    assert TxSound(ss[i], ss[i].txs[t]);
  }

  /** The committed rows that are gone or changed between s and s'. */
  predicate Changes(s: State, s': State, lock: Lock) {
    match lock
    case UserLock(user) => user in s.users && user !in s'.users
    case ChannelLock(c) =>
      c in s.limits
      && (c !in s'.limits || s'.limits[c] != s.limits[c]
          || (c in s.createdBy && (c !in s'.createdBy || s'.createdBy[c] != s.createdBy[c])))
    case RowLock(row) => row in s.rows && row !in s'.rows
  }

  lemma DropChanges(s: State, target: Target, l: Lock)
    requires ReferencesSound(s) && Changes(s, WithoutTarget(s, target), l)
    ensures l == MainLock(target) || l in Reached(s, target)
  {
    if l.RowLock? {
      match target
      case OfUser(user) => FilterMember(s.rows, (r: Row) => r.user != user, l.row);
      case OfChannel(channel) => FilterMember(s.rows, (r: Row) => r.channel != channel, l.row);
    }
  }

  lemma RemoveChanges(s: State, t: TxId, l: Lock)
    requires t in s.txs && s.txs[t].Remove? && Changes(s, RunRemove(s, t, s.txs[t]), l)
    ensures s.txs[t].removePc.Sent? && l == RowLock(Row(s.txs[t].user, s.txs[t].channel))
    ensures l.row in s.rows
  {
    if l.RowLock? {
      FilterMember(s.rows, (r: Row) => r != Row(s.txs[t].user, s.txs[t].channel), l.row);
    }
  }

  lemma CreateChangesNothing(s: State, t: TxId, l: Lock)
    requires Invariant(s) && t in s.txs && (s.txs[t].Create? || s.txs[t].Join?)
    ensures !Changes(s, if s.txs[t].Create? then RunCreate(s, t, s.txs[t]) else RunJoin(s, t, s.txs[t]), l)
  {
    assert TxSound(s, s.txs[t]);
  }

  /** No statement deletes or changes a committed row that another transaction holds. */
  lemma ChangesOnlyFreeRows(ss: seq<State>, steps: seq<Step>, i: nat, t: TxId, u: TxId, l: Lock)
    requires Execution(ss, steps) && i < |steps| && steps[i].Run? && steps[i].t == t
    requires Changes(ss[i], ss[i + 1], l) && u in ss[i].txs && u != t
    ensures !Holds(ss[i].txs[u], l)
  {
    AlwaysInvariant(ss, steps, i);
    StepTaken(ss, steps, i);
    var s, tx := ss[i], ss[i].txs[t];
    assert TxSound(s, tx) && Compatible(tx, s.txs[u]);
    match tx
    case Remove(_, _, _) =>
      RemoveChanges(s, t, l);
      NotBlocking(s, t, u);
    case Drop(target, Cascading(_, _)) =>
      DropChanges(s, target, l);
    case Drop(_, Requested) =>
    case _ => CreateChangesNothing(s, t, l);
  }

  /** No statement overtakes another transaction: it does not lock, change or refer to a row that the
      other holds, create a channel that the other is creating or deleting, or delete a user whom the
      other's foreign key names. */
  lemma NoStatementOvertakes(ss: seq<State>, steps: seq<Step>, i: nat, t: TxId, u: TxId)
    requires Execution(ss, steps) && i < |steps| && steps[i].Run? && steps[i].t == t
    requires t in ss[i].txs && u in ss[i].txs && u != t
    ensures var s, other := ss[i], ss[i].txs[u];
            match ss[i].txs[t]
            case Join(channel, _, Begun) => !Holds(other, ChannelLock(channel))
            case Join(channel, user, Locked(_)) =>
              !Holds(other, if Row(user, channel) in s.rows then RowLock(Row(user, channel))
                                             else UserLock(user))
            case Create(channel, _, _, Opened) =>
              !CreatesRow(other, channel) && !(other.Drop? && Holds(other, ChannelLock(channel)))
            case Create(_, creator, _, KeyTaken) => !Holds(other, UserLock(creator))
            case Remove(channel, user, Sent) =>
              Row(user, channel) in s.rows ==> !Holds(other, RowLock(Row(user, channel)))
            case Remove(channel, _, RowDeleted) => !Holds(other, ChannelLock(channel))
            case Drop(target, Requested) =>
              !Holds(other, MainLock(target)) && (target.OfUser? ==> !NamesUser(other, target.user))
            case Drop(target, Cascading(todo, _)) =>
              todo != [] && todo[0] in Reached(s, target) ==> !Holds(other, todo[0])
            case _ => true
  {
    StepTaken(ss, steps, i);
    NotBlocking(ss[i], t, u);
  }

  // ---- The limit ----

  ghost predicate WithinLimits(s: State) {
    forall c :: c in s.limits ==> |Members(s.rows, c)| <= s.limits[c]
  }

  /** Every channel is created with the same limit, as the service does. */
  ghost predicate CreatedWith(steps: seq<Step>, limit: int) {
    forall i :: 0 <= i < |steps| ==> steps[i].Begin? && steps[i].call.Create? ==> steps[i].call.maxUsers == limit
  }

  ghost predicate HasLimit(s: State, limit: int) {
    && (forall c :: c in s.limits ==> s.limits[c] == limit)
    && (forall t :: t in s.txs && s.txs[t].Create? ==> s.txs[t].maxUsers == limit)
  }

  lemma StatementKeepsLimit(s: State, t: TxId, scan: seq<Lock>, limit: int)
    requires Active(s, t) && HasLimit(s, limit)
    ensures HasLimit(Statement(s, t, s.txs[t], scan), limit)
  {
  }

  lemma {:induction false} AlwaysHasLimit(ss: seq<State>, steps: seq<Step>, i: nat, limit: int)
    requires Execution(ss, steps) && CreatedWith(steps, limit) && i <= |steps|
    ensures HasLimit(ss[i], limit)
  {
    if i > 0 {
      AlwaysHasLimit(ss, steps, i - 1, limit);
      StepTaken(ss, steps, i - 1);
      if steps[i - 1].Run? {
        StatementKeepsLimit(ss[i - 1], steps[i - 1].t, steps[i - 1].scan, limit);
      }
    }
  }

  ghost predicate SafeLimit(limit: int) {
    forall ss: seq<State>, steps: seq<Step> ::
      Execution(ss, steps) && CreatedWith(steps, limit) ==> WithinLimits(ss[|steps|])
  }

  /** No interleaving takes a channel past the limit it was created with, if and only if that limit
      has room for the creator. */
  lemma LimitIsKeptExactly(limit: int)
    ensures SafeLimit(limit) <==> limit >= 1
  {
    if limit >= 1 {
      forall ss: seq<State>, steps: seq<Step> | Execution(ss, steps) && CreatedWith(steps, limit)
        ensures WithinLimits(ss[|steps|])
      {
        AlwaysHasLimit(ss, steps, |steps|, limit);
        forall c | c in ss[|steps|].limits ensures |Members(ss[|steps|].rows, c)| <= ss[|steps|].limits[c] {
          NeverOversubscribed(ss, steps, |steps|, c);
        }
      }
    } else {
      CreatorExceeds(limit);
    }
  }

  lemma CreatorExceeds(limit: int)
    requires limit < 1
    ensures !SafeLimit(limit)
  {
    var s, ss, steps := ChannelCreated("u", "c", limit);
    assert Members(s.rows, "c") == ["u"] + Members([], "c");
    assert !WithinLimits(ss[|steps|]);
  }

  /** The state after a user has registered and created a channel. */
  lemma ChannelCreated(user: UserId, channel: ChannelId, limit: int)
    returns (s: State, ss: seq<State>, steps: seq<Step>)
    ensures Execution(ss, steps) && ss[|steps|] == s && CreatedWith(steps, limit)
    ensures s == State({user}, map[channel := limit], map[channel := user], [Row(user, channel)],
                       map[0 := Finished(Answered(Success))])
  {
    var call := Create(channel, user, limit, Opened);
    var s1 := INITIAL.(users := {user});
    var s2 := Set(s1, 0, call);
    var s3, s4 := CreateStarts(s2, 0);
    var s5;
    s5, s := CreateEnds(s4, 0);
    assert INITIAL.users + {user} == {user};
    ss := [INITIAL, s1, s2, s3, s4, s5, s];
    steps := [Register(user), Begin(0, call), Run(0, []), Run(0, []), Run(0, []), Run(0, [])];
  }

  predicate OnlyCreate(s: State, t: TxId, pc: CreatePc) {
    s.txs.Keys == {t} && s.txs[t].Create? && s.txs[t].createPc == pc
  }

  lemma CreateStarts(s: State, t: TxId) returns (s1: State, s2: State)
    requires OnlyCreate(s, t, Opened) && s.txs[t].channel !in s.limits && s.txs[t].creator in s.users
    ensures Next(s, Run(t, [])) == Some(s1) && Next(s1, Run(t, [])) == Some(s2)
    ensures s2 == Set(s, t, s.txs[t].(createPc := ChannelInserted))
  {
    s1 := RunCreate(s, t, s.txs[t]);
    s2 := RunCreate(s1, t, s1.txs[t]);
    Alone(s, t);
    Alone(s1, t);
  }

  lemma CreateEnds(s: State, t: TxId) returns (s1: State, s2: State)
    requires OnlyCreate(s, t, ChannelInserted) && Row(s.txs[t].creator, s.txs[t].channel) !in s.rows
    ensures Next(s, Run(t, [])) == Some(s1) && Next(s1, Run(t, [])) == Some(s2)
    ensures var Create(channel, creator, maxUsers, _) := s.txs[t];
            s2 == Finish(s, t, Success).(limits := s.limits[channel := maxUsers],
                                         createdBy := s.createdBy[channel := creator],
                                         rows := s.rows + [Row(creator, channel)])
  {
    s1 := RunCreate(s, t, s.txs[t]);
    s2 := RunCreate(s1, t, s1.txs[t]);
    Alone(s, t);
    Alone(s1, t);
  }

  /** A call alone waits for nobody. */
  lemma Alone(s: State, t: TxId)
    requires t in s.txs && forall u :: Active(s, u) ==> u == t
    ensures !Blocked(s, t)
  {
    forall u | u in s.txs ensures !Waits(s, t, u) {
      assert Active(s, u) || s.txs[u].Finished?;
    }
  }
}
