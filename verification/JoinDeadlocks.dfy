/** Who waits for whom, and exactly when calls wait for each other for ever. */
module JoinDeadlocks {
  import opened Membership
  import opened MembershipRows
  import opened Wrappers
  import opened JoinTransactions
  import opened JoinInvariant
  import opened JoinSafety

  // ---- Running and waiting ----

  ghost predicate CanRun(s: State, t: TxId) {
    exists scan :: Advance(s, t, scan).Some?
  }

  lemma {:induction false} Enumerate(locks: set<Lock>) returns (scan: seq<Lock>)
    ensures (set l | l in scan) == locks
  {
    scan := [];
    if lock :| lock in locks {
      var rest := Enumerate(locks - {lock});
      scan := [lock] + rest;
      assert (set l | l in scan) == {lock} + set l | l in rest;
    } else {
      assert locks == {};
    }
  }

  /** A call in progress either runs its next statement or waits for another call in progress. */
  lemma RunsOrWaits(s: State, t: TxId)
    requires Active(s, t)
    ensures CanRun(s, t) <==> forall u :: !Waits(s, t, u)
  {
    if forall u :: !Waits(s, t, u) {
      var scan := [];
      if s.txs[t].Drop? {
        scan := Enumerate(Reached(s, s.txs[t].target));
      }
      assert Advance(s, t, scan).Some?;
    }
  }

  lemma WaitsForActive(s: State, t: TxId, u: TxId)
    requires Waits(s, t, u)
    ensures Active(s, t) && Active(s, u)
  {
  }

  /** A set of calls each of which waits for one of the set. */
  ghost predicate Deadlock(s: State, calls: set<TxId>) {
    calls != {} && forall t {:trigger WaitsIn(s, calls, t)} :: t in calls ==> WaitsIn(s, calls, t)
  }

  ghost predicate WaitsIn(s: State, calls: set<TxId>, t: TxId) {
    exists u :: u in calls && Waits(s, t, u)
  }

  // ---- Who can be waited for and wait ----

  predicate UserDeletion(s: State, t: TxId) {
    t in s.txs && s.txs[t].Drop? && s.txs[t].target.OfUser? && s.txs[t].dropPc.Cascading?
  }

  predicate ChannelDeletion(s: State, t: TxId) {
    t in s.txs && s.txs[t].Drop? && s.txs[t].target.OfChannel? && s.txs[t].dropPc.Cascading?
  }

  predicate StartedCreation(s: State, t: TxId) {
    t in s.txs && s.txs[t].Create? && s.txs[t].createPc.KeyTaken?
  }

  /** What is waited for and waits itself is of one of these four kinds. */
  lemma KindOfWaiter(s: State, t: TxId, u: TxId, v: TxId)
    requires Invariant(s) && Waits(s, t, u) && Waits(s, u, v)
    ensures LockedJoin(s, u) || StartedCreation(s, u) || UserDeletion(s, u) || ChannelDeletion(s, u)
  {
    assert TxSound(s, s.txs[u]) && TxSound(s, s.txs[v]) && Compatible(s.txs[u], s.txs[v]);
    if s.txs[u].Create? && s.txs[u].createPc.ChannelInserted? {
      assert CreatesRow(s.txs[u], s.txs[u].channel);
    }
  }

  /** A join waits for the deletion of its user, and so does a creation. */
  lemma JoinWaitsForDeletion(s: State, t: TxId, u: TxId)
    requires Invariant(s) && (LockedJoin(s, t) || StartedCreation(s, t)) && Waits(s, t, u)
    ensures UserDeletion(s, u)
    ensures s.txs[u].target.user == if s.txs[t].Join? then s.txs[t].user else s.txs[t].creator
  {
    var a, b := s.txs[t], s.txs[u];
    assert TxSound(s, a) && TxSound(s, b) && Compatible(a, b);
    if LockedJoin(s, t) {
      assert Holds(a, ChannelLock(a.channel));
      if b.Drop? && b.dropPc.Cascading? {
        assert Holds(b, MainLock(b.target));
      }
    }
  }

  /** A channel's deletion waits for the deletion of one of its members. */
  lemma ChannelWaitsForUser(s: State, t: TxId, u: TxId)
    requires Invariant(s) && ChannelDeletion(s, t) && Waits(s, t, u)
    ensures UserDeletion(s, u)
  {
    var a, b := s.txs[t], s.txs[u];
    assert TxSound(s, a) && TxSound(s, b) && Compatible(a, b);
    assert Holds(a, MainLock(a.target));
    if b.Drop? && b.dropPc.Cascading? {
      assert Holds(b, MainLock(b.target));
    }
  }

  /** A user's deletion waits, besides calls that need not wait, for a join or for a channel's deletion. */
  lemma UserWaitsForChannel(s: State, t: TxId, u: TxId, v: TxId)
    requires Invariant(s) && UserDeletion(s, t) && Waits(s, t, u) && Waits(s, u, v)
    ensures LockedJoin(s, u) || ChannelDeletion(s, u)
  {
    var a, b := s.txs[t], s.txs[u];
    assert TxSound(s, a) && TxSound(s, b) && Compatible(a, b);
    assert Holds(a, MainLock(a.target));
    KindOfWaiter(s, t, u, v);
    if UserDeletion(s, u) {
      assert Holds(b, MainLock(b.target));
    }
  }

  // ---- Knots ----

  /** The deletion d of a user waits for h, which waits for the deletion e of a user: h is a join by
      e's user that holds the channel, or a channel's deletion. */
  ghost predicate Through(s: State, d: TxId, h: TxId, e: TxId) {
    && UserDeletion(s, d) && Waits(s, d, h) && Waits(s, h, e) && UserDeletion(s, e)
    && (ChannelDeletion(s, h) || (LockedJoin(s, h) && s.txs[h].user == s.txs[e].target.user))
  }

  /** A set of deletions of users each of which waits, through one call, for one of the set. */
  ghost predicate Knot(s: State, deletions: set<TxId>) {
    deletions != {} && forall d {:trigger Leads(s, deletions, d)} :: d in deletions ==> Leads(s, deletions, d)
  }

  ghost predicate Leads(s: State, deletions: set<TxId>, d: TxId) {
    exists h, e :: e in deletions && Through(s, d, h, e)
  }

  lemma KnotIsDeadlock(s: State, deletions: set<TxId>) returns (calls: set<TxId>)
    requires Knot(s, deletions)
    ensures deletions <= calls && Deadlock(s, calls)
  {
    calls := deletions + set h | h in s.txs && exists d, e :: d in deletions && e in deletions && Through(s, d, h, e);
    forall t | t in calls ensures WaitsIn(s, calls, t) {
      if t in deletions {
        assert Leads(s, deletions, t);
        var h, e :| e in deletions && Through(s, t, h, e);
        assert h in calls && Waits(s, t, h);
      } else {
        var d, e :| d in deletions && e in deletions && Through(s, d, t, e);
        assert e in calls && Waits(s, t, e);
      }
    }
  }

  lemma WaitsInside(s: State, calls: set<TxId>, t: TxId) returns (u: TxId)
    requires Deadlock(s, calls) && t in calls
    ensures u in calls && Waits(s, t, u)
  {
    assert WaitsIn(s, calls, t);
    u :| u in calls && Waits(s, t, u);
  }

  lemma DeletionAhead(s: State, calls: set<TxId>, t: TxId) returns (d: TxId)
    requires Invariant(s) && Deadlock(s, calls) && t in calls
    ensures d in calls && UserDeletion(s, d)
  {
    var u := WaitsInside(s, calls, t);
    var v := WaitsInside(s, calls, u);
    KindOfWaiter(s, t, u, v);
    d := u;
    if ChannelDeletion(s, u) {
      ChannelWaitsForUser(s, u, v);
      d := v;
    } else if !UserDeletion(s, u) {
      JoinWaitsForDeletion(s, u, v);
      d := v;
    }
  }

  lemma NextDeletion(s: State, calls: set<TxId>, d: TxId) returns (h: TxId, e: TxId)
    requires Invariant(s) && Deadlock(s, calls) && d in calls && UserDeletion(s, d)
    ensures h in calls && e in calls && Through(s, d, h, e)
  {
    h := WaitsInside(s, calls, d);
    e := WaitsInside(s, calls, h);
    UserWaitsForChannel(s, d, h, e);
    if LockedJoin(s, h) {
      JoinWaitsForDeletion(s, h, e);
    } else {
      ChannelWaitsForUser(s, h, e);
    }
  }

  /** Every deadlock is a knot of user deletions, with the calls that wait for it. */
  lemma DeadlockHasKnot(s: State, calls: set<TxId>) returns (deletions: set<TxId>)
    requires Invariant(s) && Deadlock(s, calls)
    ensures deletions <= calls && Knot(s, deletions)
  {
    deletions := set d | d in calls && UserDeletion(s, d);
    var t :| t in calls;
    var first := DeletionAhead(s, calls, t);
    assert first in deletions;
    forall d | d in deletions ensures Leads(s, deletions, d) {
      var h, e := NextDeletion(s, calls, d);
    }
  }

  // ---- Main results ----

  /** Deadlocks, exactly: in every reachable state some calls wait for each other if and only if some
      deletions of users do, each through a join or a channel's deletion. */
  lemma DeadlockExactly(ss: seq<State>, steps: seq<Step>, i: nat)
    requires Execution(ss, steps) && i <= |steps|
    ensures (exists calls :: Deadlock(ss[i], calls)) <==> exists deletions :: Knot(ss[i], deletions)
  {
    AlwaysInvariant(ss, steps, i);
    if calls :| Deadlock(ss[i], calls) {
      var deletions := DeadlockHasKnot(ss[i], calls);
    }
    if deletions :| Knot(ss[i], deletions) {
      var calls := KnotIsDeadlock(ss[i], deletions);
    }
  }

  /** Progress: while any call is in progress, some call can run its next statement, unless
      deletions of users are knotted. */
  lemma ProgressUnlessKnotted(ss: seq<State>, steps: seq<Step>, i: nat, t: TxId)
    requires Execution(ss, steps) && i <= |steps| && Active(ss[i], t)
    ensures (exists u :: Active(ss[i], u) && CanRun(ss[i], u)) || exists deletions :: Knot(ss[i], deletions)
  {
    AlwaysInvariant(ss, steps, i);
    var s := ss[i];
    if forall u :: Active(s, u) ==> !CanRun(s, u) {
      var calls := set u | u in s.txs && Active(s, u);
      assert t in calls;
      forall u | u in calls ensures WaitsIn(s, calls, u) {
        RunsOrWaits(s, u);
        var v :| Waits(s, u, v);
        WaitsForActive(s, u, v);
      }
      var deletions := DeadlockHasKnot(s, calls);
    }
  }

  /** Some call can run if and only if some call in progress is not caught in a deadlock. */
  lemma ProgressExactly(ss: seq<State>, steps: seq<Step>, i: nat)
    requires Execution(ss, steps) && i <= |steps|
    ensures (exists t :: Active(ss[i], t) && CanRun(ss[i], t))
            <==> exists t :: Active(ss[i], t) && forall calls :: Deadlock(ss[i], calls) ==> t !in calls
  {
    var s := ss[i];
    if t :| Active(s, t) && CanRun(s, t) {
      forall calls | Deadlock(s, calls) ensures t !in calls {
        RunnableIsFree(s, calls, t);
      }
    }
    if forall t :: Active(s, t) ==> !CanRun(s, t) {
      AllWaiting(s);
    }
  }

  lemma RunnableIsFree(s: State, calls: set<TxId>, t: TxId)
    requires Active(s, t) && CanRun(s, t) && Deadlock(s, calls)
    ensures t !in calls
  {
    RunsOrWaits(s, t);
    if t in calls {
      var u := WaitsInside(s, calls, t);
    }
  }

  lemma AllWaiting(s: State)
    requires forall t :: Active(s, t) ==> !CanRun(s, t)
    ensures forall t :: Active(s, t) ==> exists calls :: Deadlock(s, calls) && t in calls
  {
    var calls := set u | u in s.txs && Active(s, u);
    forall u | u in calls ensures WaitsIn(s, calls, u) {
      RunsOrWaits(s, u);
      var v :| Waits(s, u, v);
      WaitsForActive(s, u, v);
    }
    forall t | Active(s, t) ensures exists calls :: Deadlock(s, calls) && t in calls {
      assert t in calls;
      assert Deadlock(s, calls);
    }
  }

  // ---- A deadlock lasts ----

  lemma DeadlockStays(s: State, step: Step, s': State, calls: set<TxId>)
    requires Invariant(s) && Next(s, step) == Some(s') && Deadlock(s, calls)
    requires step.Abort? ==> step.t !in calls
    ensures Deadlock(s', calls)
    ensures step.Run? ==> step.t !in calls
  {
    if step.Run? {
      RunRan(s, step.t, step.scan, s');
      assert CanRun(s, step.t);
      RunnableIsFree(s, calls, step.t);
    }
    forall t | t in calls ensures WaitsIn(s', calls, t) {
      var u := WaitsInside(s, calls, t);
      var _ := WaitsInside(s, calls, u);
      if step.Run? {
        StillWaits(s, step.t, step.scan, s', t, u);
      }
      assert Waits(s', t, u);
    }
  }

  /** Cutting off a call is always possible, changes no table, and ends every wait for it. */
  lemma CutOffFrees(s: State, t: TxId) returns (s': State)
    requires Active(s, t)
    ensures Next(s, Abort(t)) == Some(s') && !Active(s', t)
    ensures s'.users == s.users && s'.limits == s.limits && s'.createdBy == s.createdBy && s'.rows == s.rows
    ensures forall u :: !Waits(s', u, t)
    ensures forall u, v :: u != t && v != t ==> (Waits(s', u, v) <==> Waits(s, u, v))
  {
    s' := Set(s, t, Finished(Aborted));
  }

  /** A deadlock ends only when one of its calls is cut off: until then none of them ever runs. */
  lemma {:induction false} DeadlockIsForever(ss: seq<State>, steps: seq<Step>, i: nat, n: nat, calls: set<TxId>)
    requires Execution(ss, steps) && i <= n <= |steps| && Deadlock(ss[i], calls)
    requires forall j :: i <= j < n && steps[j].Abort? ==> steps[j].t !in calls
    ensures Deadlock(ss[n], calls)
    ensures forall j :: i <= j < n && steps[j].Run? ==> steps[j].t !in calls
    decreases n
  {
    if i < n {
      DeadlockIsForever(ss, steps, i, n - 1, calls);
      AlwaysInvariant(ss, steps, n - 1);
      StepTaken(ss, steps, n - 1);
      DeadlockStays(ss[n - 1], steps[n - 1], ss[n], calls);
    }
  }

  // ---- One deletion ----

  /** While one user is being deleted, exactly: calls are deadlocked if and only if that deletion
      waits for a channel that the user created, whose lock is held by a join of the same user or by
      the channel's own deletion, which in turn waits for the deletion of the user. */
  lemma OneDeletionExactly(ss: seq<State>, steps: seq<Step>, i: nat, d: TxId)
    requires Execution(ss, steps) && i <= |steps| && UserDeletion(ss[i], d)
    requires forall e :: UserDeletion(ss[i], e) ==> e == d
    ensures (exists calls :: Deadlock(ss[i], calls)) <==> exists h :: OwnChannel(ss[i], d, h)
  {
    DeadlockExactly(ss, steps, i);
    AlwaysInvariant(ss, steps, i);
    var s := ss[i];
    if deletions :| Knot(s, deletions) {
      var e :| e in deletions;
      assert Leads(s, deletions, e);
      var h, f :| f in deletions && Through(s, e, h, f);
      assert e == f == d;
      ThroughOwnChannel(s, d, h);
    }
    if h :| OwnChannel(s, d, h) {
      assert Through(s, d, h, d);
      assert Leads(s, {d}, d);
      assert Knot(s, {d});
    }
  }

  ghost predicate OwnChannel(s: State, d: TxId, h: TxId) {
    && UserDeletion(s, d) && Waits(s, d, h) && Waits(s, h, d)
    && var user := s.txs[d].target.user;
       if LockedJoin(s, h) then
         s.txs[h].user == user && s.txs[h].channel in s.createdBy && s.createdBy[s.txs[h].channel] == user
       else
         && ChannelDeletion(s, h)
         && var channel := s.txs[h].target.channel;
            channel in s.createdBy && s.createdBy[channel] == user
  }

  lemma ThroughOwnChannel(s: State, d: TxId, h: TxId)
    requires Invariant(s) && Through(s, d, h, d)
    ensures OwnChannel(s, d, h)
  {
    var a, b := s.txs[d], s.txs[h];
    assert TxSound(s, a) && TxSound(s, b) && Compatible(a, b);
    assert Holds(a, MainLock(a.target));
    if ChannelDeletion(s, h) {
      assert Holds(b, MainLock(b.target));
    }
  }

  // ---- A deadlock that can be reached ----

  /** Every call in progress waits. */
  ghost predicate Stuck(s: State) {
    (exists t :: Active(s, t)) && forall t :: Active(s, t) ==> !CanRun(s, t)
  }

  /** Nobody but these two is in progress. */
  ghost predicate Only(s: State, j: TxId, d: TxId) {
    forall t :: Active(s, t) ==> t == j || t == d
  }

  lemma OthersFinished(s: State, s': State, j: TxId, d: TxId)
    requires Only(s, j, d) && s'.txs.Keys <= s.txs.Keys + {j, d}
    requires forall t :: t in s.txs && t != j && t != d ==> t in s'.txs && s'.txs[t] == s.txs[t]
    ensures Only(s', j, d)
  {
    forall t | Active(s', t) ensures t == j || t == d {
      assert t != j && t != d && Active(s', t) ==> Active(s, t);
    }
  }

  /** A user who has created a channel and left it joins it again. */
  lemma OwnerJoins(s: State, user: UserId, channel: ChannelId, j: TxId) returns (s1: State, s2: State)
    requires Only(s, j, j) && j !in s.txs && channel in s.limits
    ensures Next(s, Begin(j, Join(channel, user, Begun))) == Some(s1)
    ensures Next(s1, Run(j, [])) == Some(s2)
    ensures s2 == Set(s, j, Join(channel, user, Locked(s.limits[channel]))) && Only(s2, j, j)
  {
    s1 := Set(s, j, Join(channel, user, Begun));
    s2 := RunJoin(s1, j, s1.txs[j]);
    OthersFinished(s, s1, j, j);
    OthersFinished(s, s2, j, j);
    Alone(s1, j);
  }

  /** Meanwhile the user is deleted. */
  lemma OwnerIsDeleted(s: State, user: UserId, channel: ChannelId, j: TxId, d: TxId) returns (s1: State, s2: State)
    requires Only(s, j, d) && LockedJoin(s, j) && s.txs[j].user == user && s.txs[j].channel == channel && d !in s.txs
    requires user in s.users && s.rows == [] && s.createdBy == map[channel := user]
    ensures Next(s, Begin(d, Drop(OfUser(user), Requested))) == Some(s1)
    ensures Next(s1, Run(d, [ChannelLock(channel)])) == Some(s2)
    ensures s2 == Set(s, d, Drop(OfUser(user), Cascading([ChannelLock(channel)], {}))) && Only(s2, j, d)
  {
    s1 := Set(s, d, Drop(OfUser(user), Requested));
    s2 := RunDrop(s1, d, s1.txs[d], [ChannelLock(channel)]);
    OthersFinished(s, s1, j, d);
    OthersFinished(s, s2, j, d);
    assert Reached(s1, OfUser(user)) == {ChannelLock(channel)};
    assert forall l :: l in [ChannelLock(channel)] <==> l == ChannelLock(channel);
    assert !Blocks(s1, s1.txs[j], s1.txs[d]);
    assert forall u :: u in s1.txs && u != d && u != j ==> !Active(s1, u);
  }

  lemma OwnerIsStuck(s: State, user: UserId, channel: ChannelId, j: TxId, d: TxId)
    requires Only(s, j, d) && LockedJoin(s, j) && s.txs[j].user == user && s.txs[j].channel == channel
    requires d in s.txs && s.txs[d] == Drop(OfUser(user), Cascading([ChannelLock(channel)], {}))
    requires s.rows == [] && s.createdBy == map[channel := user]
    ensures OwnChannel(s, d, j) && Stuck(s)
  {
    assert ChannelLock(channel) in Reached(s, OfUser(user));
    assert Waits(s, d, j) && Waits(s, j, d);
    assert Active(s, j);
    forall t | Active(s, t) ensures !CanRun(s, t) {
      RunsOrWaits(s, t);
    }
  }

  lemma CreatorLeaves(s: State, user: UserId, channel: ChannelId, r: TxId)
    returns (s1: State, s2: State, s3: State)
    requires Only(s, r, r) && r !in s.txs && s.rows == [Row(user, channel)]
    ensures Next(s, Begin(r, Remove(channel, user, Sent))) == Some(s1)
    ensures Next(s1, Run(r, [])) == Some(s2) && Next(s2, Run(r, [])) == Some(s3)
    ensures s3 == Finish(s, r, Success).(rows := [])
  {
    s1 := Set(s, r, Remove(channel, user, Sent));
    s2 := RunRemove(s1, r, s1.txs[r]);
    s3 := RunRemove(s2, r, s2.txs[r]);
    OthersFinished(s, s1, r, r);
    OthersFinished(s, s2, r, r);
    Alone(s1, r);
    Alone(s2, r);
    DeleteOnly(Row(user, channel));
  }

  /** The program can reach a state in which no call can run: a user creates a channel, leaves it and
      joins it again; the join has locked the channel when the user's deletion begins. */
  lemma OwnerDeadlocks(user: UserId, channel: ChannelId, limit: int) returns (ss: seq<State>, steps: seq<Step>)
    ensures Execution(ss, steps) && OwnChannel(ss[|steps|], 3, 2) && Stuck(ss[|steps|])
  {
    var s, s1, s2, s3, s4, s5, s6, s7;
    s, ss, steps := ChannelCreated(user, channel, limit);
    s1, s2, s3 := CreatorLeaves(s, user, channel, 1);
    s4, s5 := OwnerJoins(s3, user, channel, 2);
    s6, s7 := OwnerIsDeleted(s5, user, channel, 2, 3);
    OwnerIsStuck(s7, user, channel, 2, 3);
    ss, steps := More(ss, steps, Begin(1, Remove(channel, user, Sent)), s1);
    ss, steps := More(ss, steps, Run(1, []), s2);
    ss, steps := More(ss, steps, Run(1, []), s3);
    ss, steps := More(ss, steps, Begin(2, Join(channel, user, Begun)), s4);
    ss, steps := More(ss, steps, Run(2, []), s5);
    ss, steps := More(ss, steps, Begin(3, Drop(OfUser(user), Requested)), s6);
    ss, steps := More(ss, steps, Run(3, [ChannelLock(channel)]), s7);
  }

  lemma More(ss: seq<State>, steps: seq<Step>, step: Step, s': State) returns (ss': seq<State>, steps': seq<Step>)
    requires Execution(ss, steps) && Next(ss[|steps|], step) == Some(s')
    ensures Execution(ss', steps') && ss'[|steps'|] == s'
  {
    ss', steps' := ss + [s'], steps + [step];
    Extend(ss, steps, step, s');
  }
}
