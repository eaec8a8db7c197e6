/** What the calls keep in every interleaving.  A transaction takes only what nobody else holds, so no
    two hold the same row, create the same channel, or delete a user whom the other's foreign key
    names; because of what it holds, each may rely on what it has read; and so every statement that
    commits keeps the constraints of the three tables.  The statements that change no table come
    first, then the four kinds of commit, and last what one statement leaves waiting. */
module JoinInvariant {
  import opened Membership
  import opened MembershipRows
  import opened Sequences
  import opened Wrappers
  import opened JoinTransactions

  // ---- The invariant ----

  /** The foreign keys of the committed tables. */
  ghost predicate ReferencesSound(s: State) {
    ForeignKeysSound(s.users, s.limits, s.createdBy, s.rows)
  }

  /** What a transaction in progress knows about the committed tables, because of what it holds. */
  ghost predicate TxSound(s: State, tx: Tx) {
    match tx
    case Join(channel, user, pc) =>
      && (!pc.Begun? ==> channel in s.limits)
      && (pc.Locked? || pc.Inserted? ==> s.limits[channel] == pc.maxUsers)
      && (NamesUser(tx, user) ==> Row(user, channel) !in s.rows && user in s.users)
      && (pc.Counted? || pc.Touched? ==> |Members(s.rows, channel)| < s.limits[channel])
    case Create(channel, creator, _, pc) =>
      (pc.Opened? || channel !in s.limits) && (NamesUser(tx, creator) ==> creator in s.users)
    case Drop(target, Cascading(todo, held)) =>
      && Exists(s, target) && held <= Reached(s, target)
      && forall l :: l in Reached(s, target) ==> l in held || l in todo
    case _ => true
  }

  /** No two transactions hold the same row or create the same channel, and nobody deletes a user
      whom a checked foreign key names. */
  ghost predicate Compatible(a: Tx, b: Tx) {
    && (forall l :: !(Holds(a, l) && Holds(b, l)))
    && (forall c :: !(CreatesRow(a, c) && CreatesRow(b, c)))
    && (forall u :: !(Holds(a, UserLock(u)) && NamesUser(b, u)) && !(Holds(b, UserLock(u)) && NamesUser(a, u)))
  }

  ghost predicate Exclusive(s: State) {
    forall t, u {:trigger Compatible(s.txs[t], s.txs[u])} ::
      t in s.txs && u in s.txs && t != u ==> Compatible(s.txs[t], s.txs[u])
  }

  ghost predicate AllSound(s: State) {
    forall t {:trigger s.txs[t]} :: t in s.txs ==> TxSound(s, s.txs[t])
  }

  ghost predicate Invariant(s: State) {
    TablesSound(s.limits, s.rows) && ReferencesSound(s) && Exclusive(s) && AllSound(s)
  }

  // ---- What a transaction takes, nobody else holds ----

  /** tx' takes nothing that `other` holds. */
  lemma TakesFree(s: State, t: TxId, tx: Tx, other: Tx, scan: seq<Lock>)
    requires !tx.Finished? && Compatible(tx, other) && !Blocks(s, other, tx)
    requires TxSound(s, tx) && TxSound(s, other)
    ensures Compatible(Statement(s, t, tx, scan).txs[t], other)
  {
    match tx
    case Join(_, _, _) => JoinTakesFree(s, t, tx, other);
    case Create(_, _, _, _) => CreateTakesFree(s, t, tx, other);
    case Remove(_, _, _) =>
    case Drop(_, _) => DropTakesFree(s, t, tx, other, scan);
  }

  lemma JoinMovesOn(tx: Tx, tx': Tx, other: Tx)
    requires tx.Join? && Compatible(tx, other)
    requires tx'.Finished? || (tx'.Join? && tx'.channel == tx.channel && tx'.user == tx.user && !tx'.joinPc.Begun?)
    requires tx.joinPc.Begun? ==> !Holds(other, ChannelLock(tx.channel)) && !NamesUser(tx', tx.user)
    requires NamesUser(tx', tx.user) && !NamesUser(tx, tx.user) ==> !Holds(other, UserLock(tx.user))
    ensures Compatible(tx', other)
  {
    assert forall l :: Holds(tx', l) ==> l == ChannelLock(tx.channel);
    assert !tx.joinPc.Begun? ==> Holds(tx, ChannelLock(tx.channel));
  }

  lemma JoinTakesFree(s: State, t: TxId, tx: Tx, other: Tx)
    requires tx.Join? && Compatible(tx, other) && !Blocks(s, other, tx)
    ensures Compatible(RunJoin(s, t, tx).txs[t], other)
  {
    JoinMovesOn(tx, RunJoin(s, t, tx).txs[t], other);
  }

  lemma CreateMovesOn(tx: Tx, tx': Tx, other: Tx)
    requires tx.Create? && Compatible(tx, other)
    requires tx'.Finished? || (tx'.Create? && tx'.channel == tx.channel && tx'.creator == tx.creator)
    requires tx.createPc.Opened? ==> !CreatesRow(other, tx.channel)
    requires NamesUser(tx', tx.creator) && !NamesUser(tx, tx.creator) ==> !Holds(other, UserLock(tx.creator))
    ensures Compatible(tx', other)
  {
    assert forall l :: !Holds(tx', l);
    assert !tx.createPc.Opened? ==> CreatesRow(tx, tx.channel);
  }

  lemma CreateTakesFree(s: State, t: TxId, tx: Tx, other: Tx)
    requires tx.Create? && Compatible(tx, other) && !Blocks(s, other, tx)
    ensures Compatible(RunCreate(s, t, tx).txs[t], other)
  {
    CreateMovesOn(tx, RunCreate(s, t, tx).txs[t], other);
  }

  lemma DropTakesFree(s: State, t: TxId, tx: Tx, other: Tx, scan: seq<Lock>)
    requires tx.Drop? && Compatible(tx, other) && !Blocks(s, other, tx)
    requires TxSound(s, tx) && TxSound(s, other)
    ensures Compatible(RunDrop(s, t, tx, scan).txs[t], other)
  {
  }

  lemma SetKeepsExclusive(s: State, t: TxId, tx: Tx)
    requires Exclusive(s)
    requires forall u :: u in s.txs && u != t ==> Compatible(tx, s.txs[u])
    ensures Exclusive(Set(s, t, tx))
  {
    var s' := Set(s, t, tx);
    forall a, b | a in s'.txs && b in s'.txs && a != b ensures Compatible(s'.txs[a], s'.txs[b]) {
      if a != t && b != t {
        assert Compatible(s.txs[a], s.txs[b]);
      }
    }
  }

  lemma NotBlocking(s: State, t: TxId, u: TxId)
    requires !Blocked(s, t) && t in s.txs && u in s.txs && u != t
    ensures !Blocks(s, s.txs[u], s.txs[t])
  {
    assert !Waits(s, t, u);
  }

  lemma RunKeepsExclusive(s: State, t: TxId, scan: seq<Lock>)
    requires Exclusive(s) && AllSound(s) && Active(s, t) && !Blocked(s, t)
    ensures Exclusive(Set(s, t, Statement(s, t, s.txs[t], scan).txs[t]))
  {
    forall u | u in s.txs && u != t ensures Compatible(Statement(s, t, s.txs[t], scan).txs[t], s.txs[u]) {
      assert Compatible(s.txs[t], s.txs[u]);
      NotBlocking(s, t, u);
      TakesFree(s, t, s.txs[t], s.txs[u], scan);
    }
  }

  // ---- Statements that change no committed table ----

  lemma SetKeepsInvariant(s: State, t: TxId, tx: Tx)
    requires Invariant(s) && TxSound(s, tx) && Exclusive(Set(s, t, tx))
    ensures Invariant(Set(s, t, tx))
  {
    var s' := Set(s, t, tx);
    forall u | u in s'.txs ensures TxSound(s', s'.txs[u]) {
      assert u != t ==> TxSound(s, s.txs[u]);
    }
  }

  /** A call that begins, or is cut off, holds nothing. */
  predicate HoldsNothing(tx: Tx) {
    tx.Finished? || IsCall(tx)
  }

  lemma IdleKeepsInvariant(s: State, t: TxId, tx: Tx)
    requires Invariant(s) && HoldsNothing(tx)
    ensures Invariant(Set(s, t, tx))
  {
    forall u | u in s.txs && u != t ensures Compatible(tx, s.txs[u]) {
      assert forall l :: !Holds(tx, l);
    }
    SetKeepsExclusive(s, t, tx);
    SetKeepsInvariant(s, t, tx);
  }

  /** The statement only moves its own transaction on. */
  predicate TouchesNoTable(s: State, tx: Tx) {
    match tx
    case Join(_, _, pc) => !pc.Touched?
    case Create(_, _, _, pc) => !pc.CreatorInserted?
    case Remove(channel, user, pc) => !pc.Sent? || Row(user, channel) !in s.rows
    case Drop(_, pc) => pc.Requested? || pc.todo != []
    case Finished(_) => true
  }

  lemma JoinStaysSound(s: State, t: TxId, tx: Tx)
    requires tx.Join? && TouchesNoTable(s, tx) && TxSound(s, tx)
    ensures var s' := RunJoin(s, t, tx);
            s' == Set(s, t, s'.txs[t]) && TxSound(s, s'.txs[t])
  {
    MembersAppend(s.rows, Row(tx.user, tx.channel), tx.channel);
  }

  lemma DropStaysSound(s: State, t: TxId, tx: Tx, scan: seq<Lock>)
    requires tx.Drop? && TouchesNoTable(s, tx) && TxSound(s, tx) && Scans(s, tx, scan)
    ensures var s' := RunDrop(s, t, tx, scan);
            s' == Set(s, t, s'.txs[t]) && TxSound(s, s'.txs[t])
  {
    if tx.dropPc.Requested? {
      assert forall l :: l in Reached(s, tx.target) ==> l in set x | x in scan;
    }
  }

  lemma RunStaysSound(s: State, t: TxId, tx: Tx, scan: seq<Lock>)
    requires !tx.Finished? && TouchesNoTable(s, tx) && TxSound(s, tx) && Scans(s, tx, scan)
    ensures var s' := Statement(s, t, tx, scan);
            s' == Set(s, t, s'.txs[t]) && TxSound(s, s'.txs[t])
  {
    match tx
    case Join(_, _, _) => JoinStaysSound(s, t, tx);
    case Drop(_, _) => DropStaysSound(s, t, tx, scan);
    case _ =>
  }

  // ---- Statements that change the committed tables ----

  /** The others are sound with the new tables. */
  ghost predicate OthersSound(s: State, s': State, t: TxId) {
    forall u {:trigger s.txs[u]} :: u in s.txs && u != t ==> TxSound(s', s.txs[u])
  }

  lemma CommitKeepsInvariant(s: State, t: TxId, s': State)
    requires Invariant(s) && Active(s, t) && t in s'.txs && s'.txs == s.txs[t := s'.txs[t]]
    requires HoldsNothing(s'.txs[t]) || s'.txs[t].Remove?
    requires TablesSound(s'.limits, s'.rows) && ReferencesSound(s') && OthersSound(s, s', t)
    ensures Invariant(s')
  {
    forall u | u in s.txs && u != t ensures Compatible(s'.txs[t], s.txs[u]) {
      assert forall l :: !Holds(s'.txs[t], l);
    }
    SetKeepsExclusive(s, t, s'.txs[t]);
    assert Exclusive(Set(s, t, s'.txs[t])) ==> Exclusive(s');
    forall u | u in s'.txs ensures TxSound(s', s'.txs[u]) {
      if u != t {
        assert s'.txs[u] == s.txs[u];
      }
    }
  }

  lemma JoinCommits(s: State, t: TxId, u: TxId)
    requires Invariant(s) && t in s.txs && s.txs[t].Join? && s.txs[t].joinPc.Touched? && u in s.txs && u != t
    ensures TxSound(RunJoin(s, t, s.txs[t]), s.txs[u])
  {
    var Join(channel, user, _) := s.txs[t];
    var row, other := Row(user, channel), s.txs[u];
    assert TxSound(s, s.txs[t]) && TxSound(s, other) && Compatible(s.txs[t], other);
    assert Holds(s.txs[t], ChannelLock(channel)) && NamesUser(s.txs[t], user);
    if other.Join? {
      MembersAppend(s.rows, row, other.channel);
      assert !other.joinPc.Begun? ==> Holds(other, ChannelLock(other.channel));
    } else if other.Drop? && other.dropPc.Cascading? {
      assert Holds(other, MainLock(other.target));
      assert Reached(RunJoin(s, t, s.txs[t]), other.target) == Reached(s, other.target);
    }
  }

  lemma CreateCommits(s: State, t: TxId, u: TxId)
    requires Invariant(s) && t in s.txs && s.txs[t].Create? && s.txs[t].createPc.CreatorInserted?
    requires u in s.txs && u != t
    ensures TxSound(RunCreate(s, t, s.txs[t]), s.txs[u])
  {
    var Create(channel, creator, _, _) := s.txs[t];
    var other := s.txs[u];
    assert TxSound(s, s.txs[t]) && TxSound(s, other) && Compatible(s.txs[t], other);
    assert CreatesRow(s.txs[t], channel) && NamesUser(s.txs[t], creator);
    if other.Join? {
      MembersAppend(s.rows, Row(creator, channel), other.channel);
    } else if other.Create? {
      assert !other.createPc.Opened? ==> CreatesRow(other, other.channel);
    } else if other.Drop? && other.dropPc.Cascading? {
      assert Holds(other, MainLock(other.target));
      assert Reached(RunCreate(s, t, s.txs[t]), other.target) == Reached(s, other.target);
    }
  }

  /** Fewer rows leave everybody sound who holds none of those that go. */
  lemma RowsGo(s: State, p: Row -> bool, other: Tx)
    requires TxSound(s, other)
    requires forall r :: r in s.rows && !p(r) ==> !Holds(other, RowLock(r))
    ensures TxSound(s.(rows := Filter(s.rows, p)), other)
  {
    var s' := s.(rows := Filter(s.rows, p));
    forall r ensures r in s'.rows <==> r in s.rows && p(r) {
      FilterMember(s.rows, p, r);
    }
    if other.Join? {
      FewerMembers(s.rows, p, other.channel);
    } else if other.Drop? && other.dropPc.Cascading? {
      forall l | l in other.dropPc.held ensures l in Reached(s', other.target) {
        assert Holds(other, l) && l in Reached(s, other.target);
      }
    }
  }

  lemma RemoveDeletes(s: State, t: TxId, u: TxId)
    requires Invariant(s) && t in s.txs && s.txs[t].Remove? && s.txs[t].removePc.Sent? && !Blocked(s, t)
    requires Row(s.txs[t].user, s.txs[t].channel) in s.rows && u in s.txs && u != t
    ensures TxSound(RunRemove(s, t, s.txs[t]), s.txs[u])
  {
    var row := Row(s.txs[t].user, s.txs[t].channel);
    assert TxSound(s, s.txs[u]);
    NotBlocking(s, t, u);
    RowsGo(s, (r: Row) => r != row, s.txs[u]);
  }

  lemma DropCommits(s: State, t: TxId, u: TxId)
    requires Invariant(s) && t in s.txs && s.txs[t].Drop? && s.txs[t].dropPc.Cascading? && s.txs[t].dropPc.todo == []
    requires u in s.txs && u != t
    ensures TxSound(WithoutTarget(s, s.txs[t].target), s.txs[u])
  {
    var tx, other := s.txs[t], s.txs[u];
    var target := tx.target;
    assert TxSound(s, tx) && TxSound(s, other) && Compatible(tx, other);
    assert Holds(tx, MainLock(target));
    forall l | l in Reached(s, target) ensures !Holds(other, l) {
      assert Holds(tx, l);
    }
    match target
    case OfUser(user) => UserGoes(s, user, other);
    case OfChannel(channel) => ChannelGoes(s, channel, other);
  }

  lemma UserGoes(s: State, user: UserId, other: Tx)
    requires TxSound(s, other) && !Holds(other, UserLock(user)) && !NamesUser(other, user)
    requires forall l :: l in Reached(s, OfUser(user)) ==> !Holds(other, l)
    ensures TxSound(WithoutTarget(s, OfUser(user)), other)
  {
    forall r | r in s.rows && r.user == user ensures !Holds(other, RowLock(r)) {
      assert RowLock(r) in Reached(s, OfUser(user));
    }
    RowsGo(s, (r: Row) => r.user != user, other);
    var s1, s' := s.(rows := DeleteUserRows(s.rows, user)), WithoutTarget(s, OfUser(user));
    if other.Drop? && other.dropPc.Cascading? {
      assert Holds(other, MainLock(other.target));
      assert Reached(s', other.target) == Reached(s1, other.target);
    }
  }

  lemma ChannelGoes(s: State, channel: ChannelId, other: Tx)
    requires TxSound(s, other) && !Holds(other, ChannelLock(channel))
    requires forall l :: l in Reached(s, OfChannel(channel)) ==> !Holds(other, l)
    ensures TxSound(WithoutTarget(s, OfChannel(channel)), other)
  {
    forall r | r in s.rows && r.channel == channel ensures !Holds(other, RowLock(r)) {
      assert RowLock(r) in Reached(s, OfChannel(channel));
    }
    RowsGo(s, (r: Row) => r.channel != channel, other);
    var s1, s' := s.(rows := DeleteChannelRows(s.rows, channel)), WithoutTarget(s, OfChannel(channel));
    if other.Join? {
      assert !other.joinPc.Begun? ==> Holds(other, ChannelLock(other.channel));
    } else if other.Drop? && other.dropPc.Cascading? {
      assert Holds(other, MainLock(other.target));
      assert Reached(s', other.target) == Reached(s1, other.target) - {ChannelLock(channel)};
    }
  }

  // ---- Every step keeps the invariant ----

  lemma JoinCommitKeepsInvariant(s: State, t: TxId)
    requires Invariant(s) && t in s.txs && s.txs[t].Join? && s.txs[t].joinPc.Touched?
    ensures Invariant(RunJoin(s, t, s.txs[t]))
  {
    var tx := s.txs[t];
    assert TxSound(s, tx) && NamesUser(tx, tx.user);
    InsertKeepsTables(s.limits, s.rows, Row(tx.user, tx.channel));
    forall u | u in s.txs && u != t ensures TxSound(RunJoin(s, t, tx), s.txs[u]) {
      JoinCommits(s, t, u);
    }
    CommitKeepsInvariant(s, t, RunJoin(s, t, tx));
  }

  lemma CreateCommitKeepsInvariant(s: State, t: TxId)
    requires Invariant(s) && t in s.txs && s.txs[t].Create? && s.txs[t].createPc.CreatorInserted?
    ensures Invariant(RunCreate(s, t, s.txs[t]))
  {
    var tx := s.txs[t];
    assert TxSound(s, tx) && NamesUser(tx, tx.creator);
    CreateKeepsTables(s.limits, s.rows, Row(tx.creator, tx.channel), tx.maxUsers);
    forall u | u in s.txs && u != t ensures TxSound(RunCreate(s, t, tx), s.txs[u]) {
      CreateCommits(s, t, u);
    }
    CommitKeepsInvariant(s, t, RunCreate(s, t, tx));
  }

  lemma RemoveKeepsInvariant(s: State, t: TxId)
    requires Invariant(s) && t in s.txs && s.txs[t].Remove? && s.txs[t].removePc.Sent? && !Blocked(s, t)
    requires Row(s.txs[t].user, s.txs[t].channel) in s.rows
    ensures Invariant(RunRemove(s, t, s.txs[t]))
  {
    var tx := s.txs[t];
    var row := Row(tx.user, tx.channel);
    DeleteRowKeepsTables(s.limits, s.rows, row);
    KeptRows(s.rows, (r: Row) => r != row);
    forall u | u in s.txs && u != t ensures TxSound(RunRemove(s, t, tx), s.txs[u]) {
      RemoveDeletes(s, t, u);
    }
    CommitKeepsInvariant(s, t, RunRemove(s, t, tx));
  }

  lemma WithoutTargetKeepsTables(s: State, target: Target)
    requires TablesSound(s.limits, s.rows) && ReferencesSound(s)
    ensures var s' := WithoutTarget(s, target);
            TablesSound(s'.limits, s'.rows) && ReferencesSound(s')
  {
    match target
    case OfUser(user) =>
      DeleteUserKeepsTables(s.limits, s.rows, user);
      KeptRows(s.rows, (r: Row) => r.user != user);
    case OfChannel(channel) =>
      DeleteChannelKeepsTables(s.limits, s.rows, channel);
      KeptRows(s.rows, (r: Row) => r.channel != channel);
  }

  lemma DropCommitKeepsInvariant(s: State, t: TxId, scan: seq<Lock>)
    requires Invariant(s) && t in s.txs && s.txs[t].Drop? && s.txs[t].dropPc.Cascading? && s.txs[t].dropPc.todo == []
    ensures Invariant(RunDrop(s, t, s.txs[t], scan))
  {
    var tx := s.txs[t];
    WithoutTargetKeepsTables(s, tx.target);
    forall u | u in s.txs && u != t ensures TxSound(RunDrop(s, t, tx, scan), s.txs[u]) {
      DropCommits(s, t, u);
    }
    CommitKeepsInvariant(s, t, RunDrop(s, t, tx, scan));
  }

  lemma RunKeepsInvariant(s: State, t: TxId, scan: seq<Lock>)
    requires Invariant(s) && Active(s, t) && !Blocked(s, t) && Scans(s, s.txs[t], scan)
    ensures Invariant(Statement(s, t, s.txs[t], scan))
  {
    var tx := s.txs[t];
    if TouchesNoTable(s, tx) {
      assert TxSound(s, tx);
      RunStaysSound(s, t, tx, scan);
      RunKeepsExclusive(s, t, scan);
      SetKeepsInvariant(s, t, Statement(s, t, tx, scan).txs[t]);
    } else {
      match tx
      case Join(_, _, _) => JoinCommitKeepsInvariant(s, t);
      case Create(_, _, _, _) => CreateCommitKeepsInvariant(s, t);
      case Remove(_, _, _) => RemoveKeepsInvariant(s, t);
      case Drop(_, _) => DropCommitKeepsInvariant(s, t, scan);
    }
  }

  lemma RegisterKeepsInvariant(s: State, user: UserId)
    requires Invariant(s)
    ensures Invariant(s.(users := s.users + {user}))
  {
    var s' := s.(users := s.users + {user});
    forall t | t in s'.txs ensures TxSound(s', s'.txs[t]) {
      assert TxSound(s, s.txs[t]);
      if s.txs[t].Drop? {
        assert Reached(s', s.txs[t].target) == Reached(s, s.txs[t].target);
      }
    }
    forall t, u | t in s'.txs && u in s'.txs && t != u ensures Compatible(s'.txs[t], s'.txs[u]) {
      assert Compatible(s.txs[t], s.txs[u]);
    }
  }

  lemma StepKeepsInvariant(s: State, step: Step, s': State)
    requires Invariant(s) && Next(s, step) == Some(s')
    ensures Invariant(s')
  {
    match step
    case Register(user) => RegisterKeepsInvariant(s, user);
    case Begin(t, call) => IdleKeepsInvariant(s, t, call);
    case Run(t, scan) => RunKeepsInvariant(s, t, scan);
    case Abort(t) => IdleKeepsInvariant(s, t, Finished(Aborted));
  }

  lemma {:induction false} AlwaysInvariant(ss: seq<State>, steps: seq<Step>, i: nat)
    requires Execution(ss, steps) && i <= |steps|
    ensures Invariant(ss[i])
  {
    if i > 0 {
      AlwaysInvariant(ss, steps, i - 1);
      StepTaken(ss, steps, i - 1);
      StepKeepsInvariant(ss[i - 1], steps[i - 1], ss[i]);
    }
  }

  // ---- What one statement leaves waiting ----

  /** A join that holds its channel and has yet to insert its row. */
  predicate LockedJoin(s: State, t: TxId) {
    t in s.txs && s.txs[t].Join? && s.txs[t].joinPc.Locked?
  }

  /** A membership row appears only when the join or the creation that inserted it commits. */
  lemma RowAppears(s: State, x: TxId, scan: seq<Lock>, row: Row)
    requires Active(s, x) && row !in s.rows && row in Statement(s, x, s.txs[x], scan).rows
    ensures Uncommitted(s.txs[x]) == Some(row)
  {
    var tx := s.txs[x];
    match tx
    case Join(_, _, _) =>
    case Create(_, _, _, _) =>
    case Remove(channel, user, _) => FilterKeeps(s.rows, (r: Row) => r != Row(user, channel), row);
    case Drop(OfUser(user), _) => FilterKeeps(s.rows, (r: Row) => r.user != user, row);
    case Drop(OfChannel(channel), _) => FilterKeeps(s.rows, (r: Row) => r.channel != channel, row);
  }

  lemma FilterKeeps(rows: seq<Row>, p: Row -> bool, row: Row)
    ensures row in Filter(rows, p) ==> row in rows
  {
    FilterMember(rows, p, row);
  }

  /** A channel's creator changes only when the channel or the creator is deleted. */
  lemma CreatorStays(s: State, x: TxId, scan: seq<Lock>, c: ChannelId)
    requires Invariant(s) && Active(s, x) && c in s.createdBy
    requires !Holds(s.txs[x], ChannelLock(c)) && !Holds(s.txs[x], UserLock(s.createdBy[c]))
    ensures var s' := Statement(s, x, s.txs[x], scan);
            c in s'.createdBy && s'.createdBy[c] == s.createdBy[c]
  {
    assert TxSound(s, s.txs[x]);
    if s.txs[x].Drop? && s.txs[x].dropPc.Cascading? {
      assert Holds(s.txs[x], MainLock(s.txs[x].target));
    }
  }

  lemma HeldRowStays(s: State, u: TxId, row: Row)
    requires Invariant(s) && u in s.txs && Holds(s.txs[u], RowLock(row))
    ensures row in s.rows
  {
    assert TxSound(s, s.txs[u]);
  }

  /** The call x has run one statement, from s to s'. */
  ghost predicate Ran(s: State, x: TxId, scan: seq<Lock>, s': State) {
    && Active(s, x) && s' == Statement(s, x, s.txs[x], scan) && x in s'.txs && s'.txs == s.txs[x := s'.txs[x]]
    && Invariant(s) && Invariant(s')
  }

  lemma JoinStillWaits(s: State, x: TxId, scan: seq<Lock>, s': State, t: TxId, u: TxId)
    requires Ran(s, x, scan, s') && x != t && x != u && LockedJoin(s, t) && Waits(s, t, u)
    ensures Waits(s', t, u)
  {
    var row := Row(s.txs[t].user, s.txs[t].channel);
    assert TxSound(s, s.txs[t]) && TxSound(s, s.txs[x]) && Compatible(s.txs[t], s.txs[x]);
    assert Holds(s.txs[t], ChannelLock(row.channel));
    if row !in s.rows && row in s'.rows {
      RowAppears(s, x, scan, row);
    }
    if row in s.rows && Holds(s.txs[u], RowLock(row)) {
      HeldRowStays(s', u, row);
    }
  }

  lemma DropStillWaits(s: State, x: TxId, scan: seq<Lock>, s': State, t: TxId, u: TxId)
    requires Ran(s, x, scan, s') && x != t && x != u && Waits(s, t, u)
    requires s.txs[t].Drop? && s.txs[t].dropPc.Cascading?
    ensures Waits(s', t, u)
  {
    var lock := s.txs[t].dropPc.todo[0];
    assert Compatible(s.txs[t], s.txs[x]) && Compatible(s.txs[u], s.txs[x]);
    assert Holds(s.txs[t], MainLock(s.txs[t].target));
    match lock
    case RowLock(row) => HeldRowStays(s', u, row);
    case ChannelLock(c) => CreatorStays(s, x, scan, c);
    case UserLock(_) =>
  }

  /** Nobody else can end a wait. */
  lemma StillWaits(s: State, x: TxId, scan: seq<Lock>, s': State, t: TxId, u: TxId)
    requires Ran(s, x, scan, s') && x != t && x != u && Waits(s, t, u)
    ensures Waits(s', t, u)
  {
    if LockedJoin(s, t) {
      JoinStillWaits(s, x, scan, s', t, u);
    } else if s.txs[t].Drop? && s.txs[t].dropPc.Cascading? {
      DropStillWaits(s, x, scan, s', t, u);
    } else if s.txs[t].Remove? && s.txs[t].removePc.Sent? {
      HeldRowStays(s', u, Row(s.txs[t].user, s.txs[t].channel));
    }
  }

  lemma CreateMovesOne(s: State, x: TxId, tx: Tx)
    requires tx.Create?
    ensures x in RunCreate(s, x, tx).txs && RunCreate(s, x, tx).txs == s.txs[x := RunCreate(s, x, tx).txs[x]]
  {
  }

  lemma JoinMovesOne(s: State, x: TxId, tx: Tx)
    requires tx.Join?
    ensures x in RunJoin(s, x, tx).txs && RunJoin(s, x, tx).txs == s.txs[x := RunJoin(s, x, tx).txs[x]]
  {
  }

  lemma RemoveMovesOne(s: State, x: TxId, tx: Tx)
    requires tx.Remove?
    ensures x in RunRemove(s, x, tx).txs && RunRemove(s, x, tx).txs == s.txs[x := RunRemove(s, x, tx).txs[x]]
  {
  }

  lemma DropMovesOne(s: State, x: TxId, tx: Tx, scan: seq<Lock>)
    requires tx.Drop?
    ensures x in RunDrop(s, x, tx, scan).txs
    ensures RunDrop(s, x, tx, scan).txs == s.txs[x := RunDrop(s, x, tx, scan).txs[x]]
  {
  }

  lemma RunRan(s: State, x: TxId, scan: seq<Lock>, s': State)
    requires Invariant(s) && Next(s, Run(x, scan)) == Some(s')
    ensures Ran(s, x, scan, s')
  {
    StepKeepsInvariant(s, Run(x, scan), s');
    match s.txs[x]
    case Join(_, _, _) => JoinMovesOne(s, x, s.txs[x]);
    case Create(_, _, _, _) => CreateMovesOne(s, x, s.txs[x]);
    case Remove(_, _, _) => RemoveMovesOne(s, x, s.txs[x]);
    case Drop(_, _) => DropMovesOne(s, x, s.txs[x], scan);
  }
}
