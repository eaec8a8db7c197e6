/** The committed tables, read off the answers that the calls were given: in every interleaving, who
    is a user, which channels there are, who created them and who is in them, exactly. */
module JoinTables {
  import opened Membership
  import opened MembershipRows
  import opened Sequences
  import opened Wrappers
  import opened JoinTransactions
  import opened JoinInvariant

  // ---- What the answers say ----

  /** A step with the states around it. */
  datatype Moment = Moment(s: State, step: Step, s': State)

  function At(ss: seq<State>, steps: seq<Step>, k: nat): Moment
    requires k < |steps| < |ss|
  {
    Moment(ss[k], steps[k], ss[k + 1])
  }

  /** Where the call that this step runs was before it. */
  function Before(m: Moment): Option<Tx> {
    if m.step.Run? && m.step.t in m.s.txs then Some(m.s.txs[m.step.t]) else None
  }

  predicate Answers(m: Moment, answer: Answer) {
    m.step.Run? && m.step.t in m.s'.txs && m.s'.txs[m.step.t] == Finished(answer)
  }

  predicate Registers(m: Moment, user: UserId) {
    m.step == Register(user)
  }

  predicate UserDeleted(m: Moment, user: UserId) {
    match Before(m)
    case Some(Drop(OfUser(u), _)) => u == user && Answers(m, Deleted)
    case _ => false
  }

  predicate ChannelDeleted(m: Moment, channel: ChannelId) {
    match Before(m)
    case Some(Drop(OfChannel(c), _)) => c == channel && Answers(m, Deleted)
    case _ => false
  }

  predicate CreatedBy(m: Moment, channel: ChannelId, creator: UserId) {
    match Before(m)
    case Some(Create(c, u, _, _)) => c == channel && u == creator && Answers(m, Answered(Success))
    case _ => false
  }

  predicate CreatedWith(m: Moment, channel: ChannelId, limit: int) {
    match Before(m)
    case Some(Create(c, _, maxUsers, _)) => c == channel && maxUsers == limit && Answers(m, Answered(Success))
    case _ => false
  }

  predicate Joined(m: Moment, channel: ChannelId, user: UserId) {
    match Before(m)
    case Some(Join(c, u, _)) => c == channel && u == user && Answers(m, Answered(Success))
    case _ => false
  }

  /** The DELETE of a removal finds the row. */
  predicate RowRemoved(m: Moment, channel: ChannelId, user: UserId) {
    && Before(m) == Some(Remove(channel, user, Sent))
    && m.step.t in m.s'.txs && m.s'.txs[m.step.t] == Remove(channel, user, RowDeleted)
  }

  predicate Enters(m: Moment, channel: ChannelId, user: UserId) {
    Joined(m, channel, user) || CreatedBy(m, channel, user)
  }

  predicate Leaves(m: Moment, channel: ChannelId, user: UserId) {
    RowRemoved(m, channel, user) || ChannelDeleted(m, channel) || UserDeleted(m, user)
  }

  /** The channel loses its creator: it goes, or the user does. */
  predicate CreatorGoes(m: Moment, channel: ChannelId, user: UserId) {
    ChannelDeleted(m, channel) || UserDeleted(m, user)
  }

  // ---- One step ----

  predicate HasLimit(s: State, channel: ChannelId, limit: int) {
    channel in s.limits && s.limits[channel] == limit
  }

  predicate HasCreator(s: State, channel: ChannelId, user: UserId) {
    channel in s.createdBy && s.createdBy[channel] == user
  }

  ghost predicate TableFacts(m: Moment, channel: ChannelId, user: UserId, limit: int) {
    && (user in m.s'.users) == (Registers(m, user) || (user in m.s.users && !UserDeleted(m, user)))
    && HasLimit(m.s', channel, limit)
       == (CreatedWith(m, channel, limit) || (HasLimit(m.s, channel, limit) && !ChannelDeleted(m, channel)))
    && HasCreator(m.s', channel, user)
       == (CreatedBy(m, channel, user) || (HasCreator(m.s, channel, user) && !CreatorGoes(m, channel, user)))
    && (Row(user, channel) in m.s'.rows)
       == (Enters(m, channel, user) || (Row(user, channel) in m.s.rows && !Leaves(m, channel, user)))
  }

  lemma JoinTable(s: State, t: TxId, scan: seq<Lock>, channel: ChannelId, user: UserId, limit: int)
    requires t in s.txs && s.txs[t].Join?
    ensures TableFacts(Moment(s, Run(t, scan), RunJoin(s, t, s.txs[t])), channel, user, limit)
  {
  }

  lemma CreateTable(s: State, t: TxId, scan: seq<Lock>, channel: ChannelId, user: UserId, limit: int)
    requires Invariant(s) && t in s.txs && s.txs[t].Create?
    ensures TableFacts(Moment(s, Run(t, scan), RunCreate(s, t, s.txs[t])), channel, user, limit)
  {
    assert TxSound(s, s.txs[t]);
  }

  lemma RemoveTable(s: State, t: TxId, scan: seq<Lock>, channel: ChannelId, user: UserId, limit: int)
    requires t in s.txs && s.txs[t].Remove?
    ensures TableFacts(Moment(s, Run(t, scan), RunRemove(s, t, s.txs[t])), channel, user, limit)
  {
    var row := Row(s.txs[t].user, s.txs[t].channel);
    FilterMember(s.rows, (r: Row) => r != row, Row(user, channel));
  }

  lemma DropTable(s: State, t: TxId, scan: seq<Lock>, channel: ChannelId, user: UserId, limit: int)
    requires t in s.txs && s.txs[t].Drop?
    ensures TableFacts(Moment(s, Run(t, scan), RunDrop(s, t, s.txs[t], scan)), channel, user, limit)
  {
    match s.txs[t].target
    case OfUser(u) => FilterMember(s.rows, (r: Row) => r.user != u, Row(user, channel));
    case OfChannel(c) => FilterMember(s.rows, (r: Row) => r.channel != c, Row(user, channel));
  }

  lemma StepTable(s: State, step: Step, s': State, channel: ChannelId, user: UserId, limit: int)
    requires Invariant(s) && Next(s, step) == Some(s')
    ensures TableFacts(Moment(s, step, s'), channel, user, limit)
  {
    if step.Run? {
      match s.txs[step.t]
      case Join(_, _, _) => JoinTable(s, step.t, step.scan, channel, user, limit);
      case Create(_, _, _, _) => CreateTable(s, step.t, step.scan, channel, user, limit);
      case Remove(_, _, _) => RemoveTable(s, step.t, step.scan, channel, user, limit);
      case Drop(_, _) => DropTable(s, step.t, step.scan, channel, user, limit);
    }
  }

  lemma TableAt(ss: seq<State>, steps: seq<Step>, k: nat, channel: ChannelId, user: UserId, limit: int)
    requires Execution(ss, steps) && k < |steps|
    ensures TableFacts(At(ss, steps, k), channel, user, limit)
  {
    AlwaysInvariant(ss, steps, k);
    StepTaken(ss, steps, k);
    StepTable(ss[k], steps[k], ss[k + 1], channel, user, limit);
  }

  /** One statement: only a deletion answered with success changes the users, by exactly the one it
      names; and a channel loses its creator only with that user or with the channel. */
  lemma StatementChanges(ss: seq<State>, steps: seq<Step>, i: nat, t: TxId)
    requires Execution(ss, steps) && i < |steps| && steps[i].Run? && steps[i].t == t
    ensures t in ss[i].txs && t in ss[i + 1].txs
    ensures var s, s', tx, tx' := ss[i], ss[i + 1], ss[i].txs[t], ss[i + 1].txs[t];
            && s'.users == (if tx.Drop? && tx.target.OfUser? && tx' == Finished(Deleted)
                            then s.users - {tx.target.user} else s.users)
            && forall c :: c in s.createdBy && (c !in s'.createdBy || s'.createdBy[c] != s.createdBy[c]) ==>
                 tx.Drop? && tx' == Finished(Deleted)
                 && (tx.target == OfChannel(c) || tx.target == OfUser(s.createdBy[c]))
  {
    StepTaken(ss, steps, i);
    var s, s' := ss[i], ss[i + 1];
    forall u ensures u in s'.users <==> u in s.users && !UserDeleted(At(ss, steps, i), u) {
      TableAt(ss, steps, i, "", u, 0);
    }
    forall c | c in s.createdBy && (c !in s'.createdBy || s'.createdBy[c] != s.createdBy[c])
      ensures CreatorGoes(At(ss, steps, i), c, s.createdBy[c])
    {
      TableAt(ss, steps, i, c, s.createdBy[c], 0);
      assert HasCreator(s, c, s.createdBy[c]) && !HasCreator(s', c, s.createdBy[c]);
    }
  }

  // ---- Every run ----

  /** The users, exactly: a user exists if and only if it has registered, and no deletion of it has been
      answered with success since. */
  lemma UsersExactly(ss: seq<State>, steps: seq<Step>, n: nat, user: UserId)
    requires Execution(ss, steps) && n <= |steps|
    ensures user in ss[n].users <==>
            exists i {:trigger Registers(At(ss, steps, i), user)} ::
              && 0 <= i < n && Registers(At(ss, steps, i), user)
              && forall j {:trigger UserDeleted(At(ss, steps, j), user)} ::
                   i < j < n ==> !UserDeleted(At(ss, steps, j), user)
  {
    var N := |steps|;
    var on := seq(N + 1, k requires 0 <= k <= N => user in ss[k].users);
    var sets := seq(N, k requires 0 <= k < N => Registers(At(ss, steps, k), user));
    var clears := seq(N, k requires 0 <= k < N => UserDeleted(At(ss, steps, k), user));
    forall k | 0 <= k < N ensures on[k + 1] == (sets[k] || (on[k] && !clears[k])) {
      TableAt(ss, steps, k, "", user, 0);
    }
    SwitchExactly(on, sets, clears, n);
    assert forall j :: 0 <= j < N ==> sets[j] == Registers(At(ss, steps, j), user);
    assert forall j :: 0 <= j < N ==> clears[j] == UserDeleted(At(ss, steps, j), user);
  }

  /** The channels, exactly: a channel exists with this limit if and only if its creation with it
      succeeded, and it has not been deleted since. */
  lemma LimitsExactly(ss: seq<State>, steps: seq<Step>, n: nat, channel: ChannelId, limit: int)
    requires Execution(ss, steps) && n <= |steps|
    ensures HasLimit(ss[n], channel, limit) <==>
            exists i {:trigger CreatedWith(At(ss, steps, i), channel, limit)} ::
              && 0 <= i < n && CreatedWith(At(ss, steps, i), channel, limit)
              && forall j {:trigger ChannelDeleted(At(ss, steps, j), channel)} ::
                   i < j < n ==> !ChannelDeleted(At(ss, steps, j), channel)
  {
    var N := |steps|;
    var on := seq(N + 1, k requires 0 <= k <= N => HasLimit(ss[k], channel, limit));
    var sets := seq(N, k requires 0 <= k < N => CreatedWith(At(ss, steps, k), channel, limit));
    var clears := seq(N, k requires 0 <= k < N => ChannelDeleted(At(ss, steps, k), channel));
    forall k | 0 <= k < N ensures on[k + 1] == (sets[k] || (on[k] && !clears[k])) {
      TableAt(ss, steps, k, channel, "", limit);
    }
    SwitchExactly(on, sets, clears, n);
    assert forall j :: 0 <= j < N ==> sets[j] == CreatedWith(At(ss, steps, j), channel, limit);
    assert forall j :: 0 <= j < N ==> clears[j] == ChannelDeleted(At(ss, steps, j), channel);
  }

  /** Who created a channel, exactly: recorded from its creation until the channel or the user goes. */
  lemma CreatorsExactly(ss: seq<State>, steps: seq<Step>, n: nat, channel: ChannelId, user: UserId)
    requires Execution(ss, steps) && n <= |steps|
    ensures HasCreator(ss[n], channel, user) <==>
            exists i {:trigger CreatedBy(At(ss, steps, i), channel, user)} ::
              && 0 <= i < n && CreatedBy(At(ss, steps, i), channel, user)
              && forall j {:trigger CreatorGoes(At(ss, steps, j), channel, user)} ::
                   i < j < n ==> !CreatorGoes(At(ss, steps, j), channel, user)
  {
    var N := |steps|;
    var on := seq(N + 1, k requires 0 <= k <= N => HasCreator(ss[k], channel, user));
    var sets := seq(N, k requires 0 <= k < N => CreatedBy(At(ss, steps, k), channel, user));
    var clears := seq(N, k requires 0 <= k < N => CreatorGoes(At(ss, steps, k), channel, user));
    forall k | 0 <= k < N ensures on[k + 1] == (sets[k] || (on[k] && !clears[k])) {
      TableAt(ss, steps, k, channel, user, 0);
    }
    SwitchExactly(on, sets, clears, n);
    assert forall j :: 0 <= j < N ==> sets[j] == CreatedBy(At(ss, steps, j), channel, user);
    assert forall j :: 0 <= j < N ==> clears[j] == CreatorGoes(At(ss, steps, j), channel, user);
  }

  /** Who is in a channel, exactly: those whose join or creation succeeded, and who have not been
      removed since, by a removal that found them, or with the channel, or with the user. */
  lemma RowsExactly(ss: seq<State>, steps: seq<Step>, n: nat, channel: ChannelId, user: UserId)
    requires Execution(ss, steps) && n <= |steps|
    ensures Row(user, channel) in ss[n].rows <==>
            exists i {:trigger Enters(At(ss, steps, i), channel, user)} ::
              && 0 <= i < n && Enters(At(ss, steps, i), channel, user)
              && forall j {:trigger Leaves(At(ss, steps, j), channel, user)} ::
                   i < j < n ==> !Leaves(At(ss, steps, j), channel, user)
  {
    var N := |steps|;
    var on := seq(N + 1, k requires 0 <= k <= N => Row(user, channel) in ss[k].rows);
    var sets := seq(N, k requires 0 <= k < N => Enters(At(ss, steps, k), channel, user));
    var clears := seq(N, k requires 0 <= k < N => Leaves(At(ss, steps, k), channel, user));
    forall k | 0 <= k < N ensures on[k + 1] == (sets[k] || (on[k] && !clears[k])) {
      TableAt(ss, steps, k, channel, user, 0);
    }
    SwitchExactly(on, sets, clears, n);
    assert forall j :: 0 <= j < N ==> sets[j] == Enters(At(ss, steps, j), channel, user);
    assert forall j :: 0 <= j < N ==> clears[j] == Leaves(At(ss, steps, j), channel, user);
  }

  // ---- Deletions ----

  /** What a deletion answers, exactly: its first statement says that there is nothing if and only if
      what it names does not exist, and when it reports success, that has gone. */
  lemma DeletionsAnswerExactly(ss: seq<State>, steps: seq<Step>, i: nat, t: TxId)
    requires Execution(ss, steps) && i < |steps| && steps[i].Run? && steps[i].t == t
    requires t in ss[i].txs && ss[i].txs[t].Drop?
    ensures t in ss[i + 1].txs
    ensures ss[i + 1].txs[t] == Finished(NothingThere) <==>
            ss[i].txs[t].dropPc.Requested? && match ss[i].txs[t].target
                                              case OfUser(user) => user !in ss[i].users
                                              case OfChannel(channel) => channel !in ss[i].limits
    ensures ss[i + 1].txs[t] == Finished(Deleted) ==>
              match ss[i].txs[t].target
              case OfUser(user) => user in ss[i].users && user !in ss[i + 1].users
              case OfChannel(channel) => channel in ss[i].limits && channel !in ss[i + 1].limits
  {
    AlwaysInvariant(ss, steps, i);
    StepTaken(ss, steps, i);
    assert TxSound(ss[i], ss[i].txs[t]);
  }

  /** A deleted user is nobody: after a deletion was answered with success, and until the user
      registers again, no join and no creation in the user's name succeeds. */
  lemma DeletedUserIsRefused(ss: seq<State>, steps: seq<Step>, i: nat, n: nat, channel: ChannelId, user: UserId)
    requires Execution(ss, steps) && i < n < |steps| && UserDeleted(At(ss, steps, i), user)
    requires forall j :: i < j < n ==> !Registers(At(ss, steps, j), user)
    ensures user !in ss[n].users
    ensures !Joined(At(ss, steps, n), channel, user)
    ensures !CreatedBy(At(ss, steps, n), channel, user)
  {
    UsersExactly(ss, steps, n, user);
    AlwaysInvariant(ss, steps, n);
    StepTaken(ss, steps, n);
    if steps[n].Run? {
      assert TxSound(ss[n], ss[n].txs[steps[n].t]);
    }
  }
}
