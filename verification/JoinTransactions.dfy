/** Joins, creations, removals and deletions as PostgreSQL runs them at READ COMMITTED: any number of
    calls, interleaved statement by statement.  A statement sees the committed rows and its own
    transaction's; it waits for rows that another transaction holds. */
module JoinTransactions {
  import opened Membership
  import opened MembershipRows
  import opened Wrappers

  type TxId = nat

  /** What a transaction can hold for itself: a row of users, channels or user_channels. */
  datatype Lock = UserLock(user: UserId) | ChannelLock(channel: ChannelId) | RowLock(row: Row)

  /** How far AddMember has come.  From Locked on it holds the channel's row (SELECT FOR UPDATE), from
      Inserted on it owns a row nobody else sees. */
  datatype JoinPc = Begun | Locked(maxUsers: int) | Inserted(maxUsers: int) | Counted | Touched

  /** How far Create has come: with its key in the index, with its creator checked, with its member. */
  datatype CreatePc = Opened | KeyTaken | ChannelInserted | CreatorInserted
  datatype RemovePc = Sent | NothingDeleted | RowDeleted

  /** What a DELETE names, and how far its cascade has come: the rows it has yet to reach, and the
      rows it has deleted or set to NULL without committing. */
  datatype Target = OfUser(user: UserId) | OfChannel(channel: ChannelId)
  datatype DropPc = Requested | Cascading(todo: seq<Lock>, held: set<Lock>)

  datatype Answer = Answered(outcome: Outcome) | Deleted | NothingThere | Aborted

  datatype Tx =
    | Join(channel: ChannelId, user: UserId, joinPc: JoinPc)
    | Create(channel: ChannelId, creator: UserId, maxUsers: int, createPc: CreatePc)
    | Remove(channel: ChannelId, user: UserId, removePc: RemovePc)
    | Drop(target: Target, dropPc: DropPc)
    | Finished(answer: Answer)

  /** The committed tables, and the calls so far.  A channel whose created_by is NULL is missing from
      `createdBy`. */
  datatype State = State(
    users: set<UserId>, limits: map<ChannelId, int>, createdBy: map<ChannelId, UserId>, rows: seq<Row>,
    txs: map<TxId, Tx>)

  const INITIAL := State({}, map[], map[], [], map[])

  function Committed(s: State): Directory {
    DirectoryOf(s.limits, s.rows)
  }

  // ---- What transactions hold ----

  function MainLock(target: Target): Lock {
    match target
    case OfUser(user) => UserLock(user)
    case OfChannel(channel) => ChannelLock(channel)
  }

  predicate Holds(tx: Tx, lock: Lock) {
    match tx
    case Join(channel, _, pc) => !pc.Begun? && lock == ChannelLock(channel)
    case Drop(target, Cascading(_, held)) => lock == MainLock(target) || lock in held
    case _ => false
  }

  /** The membership row that the transaction has inserted and not committed. */
  function Uncommitted(tx: Tx): Option<Row> {
    match tx
    case Join(channel, user, pc) => if pc.Begun? || pc.Locked? then None else Some(Row(user, channel))
    case Create(channel, creator, _, CreatorInserted) => Some(Row(creator, channel))
    case _ => None
  }

  /** The transaction has inserted the channel's row and not committed. */
  predicate CreatesRow(tx: Tx, channel: ChannelId) {
    tx.Create? && tx.channel == channel && !tx.createPc.Opened?
  }

  /** The transaction has changed or deleted the channel's row and not committed. */
  predicate ChangesRow(tx: Tx, channel: ChannelId) {
    || (tx.Drop? && Holds(tx, ChannelLock(channel)))
    || (tx.Join? && tx.channel == channel && tx.joinPc.Touched?)
  }

  /** A foreign key that the transaction has checked keeps the user it names from being deleted. */
  predicate NamesUser(tx: Tx, user: UserId) {
    match tx
    case Join(_, u, pc) => u == user && !pc.Begun? && !pc.Locked?
    case Create(_, creator, _, pc) => creator == user && (pc.ChannelInserted? || pc.CreatorInserted?)
    case _ => false
  }

  /** The rows that a DELETE reaches: ON DELETE CASCADE from users and from channels to user_channels,
      ON DELETE SET NULL from users to channels. */
  function Reached(s: State, target: Target): set<Lock> {
    match target
    case OfUser(user) =>
      (set r | r in s.rows && r.user == user :: RowLock(r))
      + (set c | c in s.createdBy && s.createdBy[c] == user :: ChannelLock(c))
    case OfChannel(channel) => set r | r in s.rows && r.channel == channel :: RowLock(r)
  }

  // ---- Waiting ----

  /** The next statement of tx cannot run while `other` is where it is. */
  predicate Blocks(s: State, other: Tx, tx: Tx) {
    match tx
    case Join(channel, user, Begun) => Holds(other, ChannelLock(channel))
    case Join(channel, user, Locked(_)) =>
      var row := Row(user, channel);
      Uncommitted(other) == Some(row) || Holds(other, if row in s.rows then RowLock(row) else UserLock(user))
    case Create(channel, _, _, Opened) => CreatesRow(other, channel) || ChangesRow(other, channel)
    case Create(_, creator, _, KeyTaken) => Holds(other, UserLock(creator))
    case Create(channel, creator, _, ChannelInserted) => Uncommitted(other) == Some(Row(creator, channel))
    case Remove(channel, user, Sent) => Row(user, channel) in s.rows && Holds(other, RowLock(Row(user, channel)))
    case Remove(channel, _, RowDeleted) => Holds(other, ChannelLock(channel))
    case Drop(OfUser(user), Requested) => Holds(other, UserLock(user)) || NamesUser(other, user)
    case Drop(OfChannel(channel), Requested) => Holds(other, ChannelLock(channel))
    case Drop(target, Cascading(todo, _)) => todo != [] && todo[0] in Reached(s, target) && Holds(other, todo[0])
    case _ => false
  }

  predicate Active(s: State, t: TxId) {
    t in s.txs && !s.txs[t].Finished?
  }

  predicate Waits(s: State, t: TxId, u: TxId) {
    t in s.txs && u in s.txs && t != u && Blocks(s, s.txs[u], s.txs[t])
  }

  predicate Blocked(s: State, t: TxId) {
    exists u | u in s.txs :: Waits(s, t, u)
  }

  // ---- Statements ----

  function Set(s: State, t: TxId, tx: Tx): State {
    s.(txs := s.txs[t := tx])
  }

  function Finish(s: State, t: TxId, outcome: Outcome): State {
    Set(s, t, Finished(Answered(outcome)))
  }

  /** The count sees the transaction's own row; a foreign key that finds no user is an error. */
  function RunJoin(s: State, t: TxId, tx: Tx): State
    requires tx.Join?
  {
    var Join(channel, user, pc) := tx;
    var row := Row(user, channel);
    match pc
    case Begun =>
      if channel !in s.limits then Finish(s, t, Failure(ErrChannelNotFound))
      else Set(s, t, Join(channel, user, Locked(s.limits[channel])))
    case Locked(maxUsers) =>
      if row in s.rows then Finish(s, t, Failure(ErrUserAlreadyInChannel))
      else if user !in s.users then Set(s, t, Finished(Aborted))
      else Set(s, t, Join(channel, user, Inserted(maxUsers)))
    case Inserted(maxUsers) =>
      if |Members(s.rows + [row], channel)| > maxUsers then Finish(s, t, Failure(ErrChannelFull))
      else Set(s, t, Join(channel, user, Counted))
    case Counted => Set(s, t, Join(channel, user, Touched))
    case Touched => Finish(s, t, Success).(rows := s.rows + [row])
  }

  /** A key that is taken, and a creator who does not exist, are errors. */
  function RunCreate(s: State, t: TxId, tx: Tx): State
    requires tx.Create?
  {
    var Create(channel, creator, maxUsers, pc) := tx;
    match pc
    case Opened => Set(s, t, if channel in s.limits then Finished(Aborted) else tx.(createPc := KeyTaken))
    case KeyTaken => Set(s, t, if creator !in s.users then Finished(Aborted) else tx.(createPc := ChannelInserted))
    case ChannelInserted =>
      Set(s, t, if Row(creator, channel) in s.rows then Finished(Aborted) else tx.(createPc := CreatorInserted))
    case CreatorInserted =>
      Finish(s, t, Success).(limits := s.limits[channel := maxUsers], createdBy := s.createdBy[channel := creator],
                             rows := s.rows + [Row(creator, channel)])
  }

  /** RemoveMember has no transaction: each of its statements commits by itself. */
  function RunRemove(s: State, t: TxId, tx: Tx): State
    requires tx.Remove?
  {
    var Remove(channel, user, pc) := tx;
    var row := Row(user, channel);
    match pc
    case Sent =>
      if row in s.rows then Set(s, t, tx.(removePc := RowDeleted)).(rows := DeleteRow(s.rows, row))
      else Set(s, t, tx.(removePc := NothingDeleted))
    case NothingDeleted =>
      Finish(s, t, Failure(if channel in s.limits then ErrUserNotInChannel else ErrChannelNotFound))
    case RowDeleted => Finish(s, t, Success)
  }

  predicate Exists(s: State, target: Target) {
    match target
    case OfUser(user) => user in s.users
    case OfChannel(channel) => channel in s.limits
  }

  /** The tables without the target and with the cascade carried out. */
  function WithoutTarget(s: State, target: Target): State {
    match target
    case OfUser(user) =>
      s.(users := s.users - {user}, rows := DeleteUserRows(s.rows, user),
         createdBy := ForgetCreator(s.createdBy, user))
    case OfChannel(channel) =>
      s.(limits := s.limits - {channel}, createdBy := s.createdBy - {channel},
         rows := DeleteChannelRows(s.rows, channel))
  }

  /** A DELETE takes the row it names, then the rows it reaches one by one, in the order `scan` in
      which it finds them; a row that has gone meanwhile is skipped. */
  function RunDrop(s: State, t: TxId, tx: Tx, scan: seq<Lock>): State
    requires tx.Drop?
  {
    match tx.dropPc
    case Requested =>
      Set(s, t, if Exists(s, tx.target) then tx.(dropPc := Cascading(scan, {})) else Finished(NothingThere))
    case Cascading(todo, held) =>
      if todo == [] then Set(WithoutTarget(s, tx.target), t, Finished(Deleted))
      else Set(s, t, tx.(dropPc := Cascading(todo[1..],
                                             if todo[0] in Reached(s, tx.target) then held + {todo[0]} else held)))
  }

  predicate Scans(s: State, tx: Tx, scan: seq<Lock>) {
    tx.Drop? && tx.dropPc.Requested? ==> (set l | l in scan) == Reached(s, tx.target)
  }

  function Statement(s: State, t: TxId, tx: Tx, scan: seq<Lock>): State
    requires !tx.Finished?
  {
    match tx
    case Join(_, _, _) => RunJoin(s, t, tx)
    case Create(_, _, _, _) => RunCreate(s, t, tx)
    case Remove(_, _, _) => RunRemove(s, t, tx)
    case Drop(_, _) => RunDrop(s, t, tx, scan)
  }

  function Advance(s: State, t: TxId, scan: seq<Lock>): Option<State> {
    if Active(s, t) && !Blocked(s, t) && Scans(s, s.txs[t], scan) then Some(Statement(s, t, s.txs[t], scan)) else None
  }

  // ---- Steps ----

  /** A user registers; a call begins, runs one statement, or is cut off by an error, a crash or the
      deadlock detector at any point. */
  datatype Step =
    | Register(user: UserId)
    | Begin(t: TxId, call: Tx)
    | Run(t: TxId, scan: seq<Lock>)
    | Abort(t: TxId)

  predicate IsCall(tx: Tx) {
    match tx
    case Join(_, _, pc) => pc.Begun?
    case Create(_, _, _, pc) => pc.Opened?
    case Remove(_, _, pc) => pc.Sent?
    case Drop(_, pc) => pc.Requested?
    case Finished(_) => false
  }

  function Next(s: State, step: Step): Option<State> {
    match step
    case Register(user) => Some(s.(users := s.users + {user}))
    case Begin(t, call) => if t !in s.txs && IsCall(call) then Some(Set(s, t, call)) else None
    case Run(t, scan) => Advance(s, t, scan)
    case Abort(t) => if Active(s, t) then Some(Set(s, t, Finished(Aborted))) else None
  }

  function StepAt(steps: seq<Step>, i: nat): Step
    requires i < |steps|
  {
    steps[i]
  }

  ghost predicate Path(ss: seq<State>, steps: seq<Step>) {
    && |ss| == |steps| + 1
    && forall i: nat {:trigger StepAt(steps, i)} :: i < |steps| ==> Next(ss[i], StepAt(steps, i)) == Some(ss[i + 1])
  }

  ghost predicate Execution(ss: seq<State>, steps: seq<Step>) {
    Path(ss, steps) && ss[0] == INITIAL
  }

  lemma StepTaken(ss: seq<State>, steps: seq<Step>, i: nat)
    requires Path(ss, steps) && i < |steps|
    ensures Next(ss[i], steps[i]) == Some(ss[i + 1])
  {
    assert StepAt(steps, i) == steps[i];
  }

  lemma Extend(ss: seq<State>, steps: seq<Step>, step: Step, s': State)
    requires Execution(ss, steps) && Next(ss[|steps|], step) == Some(s')
    ensures Execution(ss + [s'], steps + [step]) && (ss + [s'])[|steps + [step]|] == s'
  {
    forall i: nat | i < |steps + [step]|
      ensures Next((ss + [s'])[i], StepAt(steps + [step], i)) == Some((ss + [s'])[i + 1])
    {
      if i < |steps| {
        assert StepAt(steps, i) == StepAt(steps + [step], i);
      }
    }
  }
}
