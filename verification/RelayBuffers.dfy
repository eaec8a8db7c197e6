/** The replay windows over every execution of the relay: each is the outcome of its room's own
    operations, so what is proved of runs of one buffer holds of the relay. */
module RelayBuffers {
  import opened AudioBuffer
  import Voice
  import opened Hub
  import opened Wrappers
  import opened Relay
  import opened RelayConnections
  import opened RelayWindows
  import RelayReplay
  import RelayDeliveries

  // ---- The windows ----

  /** In every reachable state the window of a room is the outcome of that room's operations. */
  lemma BufferIsRun(ss: seq<State>, steps: seq<Step>, n: nat, room: Voice.RoomId)
    requires Execution(ss, steps) && n <= |steps|
    ensures WindowIs(ss[n], room, RoomOps(ss, steps, n, room))
  {
    NoOpsYet(room);
    for k := 0 to n
      invariant WindowIs(ss[k], room, RoomOps(ss, steps, k, room))
    {
      NextWindow(ss, steps, k, room);
    }
  }

  /** The counter of a room counts its log. */
  lemma CounterIsLength(ss: seq<State>, steps: seq<Step>, start: int, n: nat, room: Voice.RoomId)
    requires Execution(ss, steps) && InTime(start, steps) && n <= |steps|
    ensures BufferAt(ss[n], room).last == |Log(RoomOps(ss, steps, n, room))|
  {
    BufferIsRun(ss, steps, n, room);
    RoomOpsTimely(ss, steps, start, n, room);
    HistoryIndependence(DEFAULT_BUFFER_CONFIG, RoomOps(ss, steps, n, room), ClockAt(start, steps, n));
  }

  /** What has been stored for the room is the log of its operations. */
  ghost predicate LogAgrees(s: State, room: Voice.RoomId, ops: seq<Op>) {
    StoredIn(s.numbered, room) == Log(ops)
  }

  lemma LogAgreesAtStart(room: Voice.RoomId)
    ensures LogAgrees(INITIAL, room, [])
  {
  }

  lemma LogAgreesNext(ss: seq<State>, steps: seq<Step>, start: int, n: nat, room: Voice.RoomId)
    requires Execution(ss, steps) && InTime(start, steps) && n < |steps|
    requires LogAgrees(ss[n], room, RoomOps(ss, steps, n, room))
    ensures LogAgrees(ss[n + 1], room, RoomOps(ss, steps, n + 1, room))
  {
    CounterIsLength(ss, steps, start, n, room);
    StoredNext(ss, steps, n, room, RoomOps(ss, steps, n, room));
  }

  lemma StoredIsLog(ss: seq<State>, steps: seq<Step>, start: int, n: nat, room: Voice.RoomId)
    requires Execution(ss, steps) && InTime(start, steps) && n <= |steps|
    ensures LogAgrees(ss[n], room, RoomOps(ss, steps, n, room))
  {
    LogAgreesAtStart(room);
    for k := 0 to n
      invariant LogAgrees(ss[k], room, RoomOps(ss, steps, k, room))
    {
      LogAgreesNext(ss, steps, start, k, room);
    }
  }

  // ---- Results ----

  /** In every reachable state the window of a room is the longest suffix, of everything numbered in
      that room, that fitted at the latest eviction; its numbers are consecutive and end at the
      counter, which counts everything numbered in the room. */
  lemma WindowOfRelay(ss: seq<State>, steps: seq<Step>, start: int, n: nat, room: Voice.RoomId)
    requires Execution(ss, steps) && InTime(start, steps) && n <= |steps|
    ensures var b, stored := BufferAt(ss[n], room), StoredIn(ss[n].numbered, room);
            && b.msgs == Retained(DEFAULT_BUFFER_CONFIG, stored, LastCleaned(RoomOps(ss, steps, n, room)))
            && b.last == |stored| && |b.msgs| <= b.last
            && forall i :: 0 <= i < |b.msgs| ==> b.msgs[i].sequence == b.last - |b.msgs| + 1 + i
  {
    var ops, until := RoomOps(ss, steps, n, room), ClockAt(start, steps, n);
    BufferIsRun(ss, steps, n, room);
    RoomOpsTimely(ss, steps, start, n, room);
    StoredIsLog(ss, steps, start, n, room);
    HistoryIndependence(DEFAULT_BUFFER_CONFIG, ops, until);
    Contiguity(DEFAULT_BUFFER_CONFIG, ops, until);
  }

  /** The operations `done` are the beginning of `ops`, and the others start at `now` or later. */
  ghost predicate DoneBy(now: int, done: seq<Op>, ops: seq<Op>) {
    done <= ops && forall k :: |done| <= k < |ops| ==> !ops[k].Marked? && now <= StartsAt(ops[k], 0)
  }

  lemma DoneByNext(s: State, step: Step, room: Voice.RoomId, now: int, clock: int, done: seq<Op>, ops: seq<Op>)
    requires DoneBy(now, done, ops) && now <= clock && StepInTime(clock, step)
    ensures DoneBy(now, done, ops + OpOf(s, step, room)) && clock <= ClockAfter(clock, step)
  {
    var more := OpOf(s, step, room);
    assert more != [] ==> !more[0].Marked? && clock <= StartsAt(more[0], 0);
  }

  lemma {:induction false} RoomOpsAfter(ss: seq<State>, steps: seq<Step>, start: int, n: nat, m: nat,
                                        room: Voice.RoomId)
    requires |ss| == |steps| + 1 && InTime(start, steps) && n <= m <= |steps|
    ensures ClockAt(start, steps, n) <= ClockAt(start, steps, m)
    ensures DoneBy(ClockAt(start, steps, n), RoomOps(ss, steps, n, room), RoomOps(ss, steps, m, room))
    decreases m
  {
    if n < m {
      RoomOpsAfter(ss, steps, start, n, m - 1, room);
      StepIsInTime(start, steps, m - 1);
      DoneByNext(ss[m - 1], steps[m - 1], room, ClockAt(start, steps, n), ClockAt(start, steps, m - 1),
                 RoomOps(ss, steps, n, room), RoomOps(ss, steps, m - 1, room));
    }
  }

  /** The room is swept at least every cleanupInterval, from an instant that is not later than its
      first chunk until `until`. */
  ghost predicate SweptInTime(ops: seq<Op>, since: int, until: int) {
    && SweptEvery(ops, since, DEFAULT_BUFFER_CONFIG.cleanupInterval, until)
    && forall k :: 0 <= k < |ops| && ops[k].Added? ==> since <= ops[k].timestamp
  }

  /** At instant t no message is older than maxDuration plus cleanupInterval. */
  predicate NoneOlder(msgs: seq<Message>, t: int) {
    forall m :: m in msgs ==>
      t - m.timestamp < DEFAULT_BUFFER_CONFIG.maxDuration + DEFAULT_BUFFER_CONFIG.cleanupInterval
  }

  lemma RetentionSoFar(done: seq<Op>, ops: seq<Op>, since: int, t: int, until: int)
    requires Timely(done, t) && Timely(ops, until) && t <= until && DoneBy(t, done, ops)
    requires SweptInTime(ops, since, until)
    ensures NoneOlder(Run(DEFAULT_BUFFER_CONFIG, done).msgs, t)
  {
    assert ops[..|done|] == done;
    forall k | |done| <= k < |ops| ensures t <= StartsAt(ops[k], until) {
      assert !ops[k].Marked?;
    }
    TimedRetention(DEFAULT_BUFFER_CONFIG, ops, since, until, |done|, t);
  }

  /** Timed retention in the relay: if a room is swept in time, then in every state, also while it is
      idle, no chunk in its window is older than maxDuration plus cleanupInterval. */
  lemma RetentionInRelay(ss: seq<State>, steps: seq<Step>, start: int, n: nat, room: Voice.RoomId, since: int)
    requires Execution(ss, steps) && InTime(start, steps) && n <= |steps|
    requires SweptInTime(RoomOps(ss, steps, |steps|, room), since, ClockAt(start, steps, |steps|))
    ensures NoneOlder(BufferAt(ss[n], room).msgs, ClockAt(start, steps, n))
  {
    RoomOpsAfter(ss, steps, start, n, |steps|, room);
    RoomOpsTimely(ss, steps, start, n, room);
    RoomOpsTimely(ss, steps, start, |steps|, room);
    BufferIsRun(ss, steps, n, room);
    RetentionSoFar(RoomOps(ss, steps, n, room), RoomOps(ss, steps, |steps|, room), since,
                   ClockAt(start, steps, n), ClockAt(start, steps, |steps|));
  }

  /** Nothing was evicted above `since`. */
  predicate Reaches(b: Buffer, since: int) {
    |b.msgs| == b.last || since >= b.last - |b.msgs|
  }

  /** Nothing in the relay marks a message as replayed. */
  lemma {:induction false} NothingMarked(ss: seq<State>, steps: seq<Step>, n: nat, room: Voice.RoomId, m: nat)
    requires Execution(ss, steps) && n <= |steps| && m <= |ss[n].numbered|
    ensures forall msg :: msg in StoredIn(ss[n].numbered[..m], room) ==> !msg.isReplayed
  {
    if m > 0 {
      NothingMarked(ss, steps, n, room, m - 1);
      RelayReplay.AlwaysStoredAsRelayed(ss, steps, n, m - 1);
      assert ss[n].numbered[..m][..m - 1] == ss[n].numbered[..m - 1];
    }
  }

  /** Exact replay in the relay: a snapshot is everything ever numbered in its room above `since`,
      in order and without a hole, if and only if nothing above `since` has been evicted. */
  lemma SnapshotExactly(ss: seq<State>, steps: seq<Step>, start: int, i: nat, c: ConnId)
    requires Execution(ss, steps) && InTime(start, steps) && i < |steps|
    requires RelayReplay.Snapshots(ss[i], steps[i], c)
    ensures var Snapshotting(room, since) := ss[i].conns[c].pc;
            SnapshotOf(ss[i], c) == NumberedAfter(StoredIn(ss[i].numbered, room), since)
            <==> Reaches(BufferAt(ss[i], room), since)
  {
    var Snapshotting(room, since) := ss[i].conns[c].pc;
    var ops, until := RoomOps(ss, steps, i, room), ClockAt(start, steps, i);
    BufferIsRun(ss, steps, i, room);
    RoomOpsTimely(ss, steps, start, i, room);
    StoredIsLog(ss, steps, start, i, room);
    ExactReplay(DEFAULT_BUFFER_CONFIG, ops, until, since);
    NothingMarked(ss, steps, i, room, |ss[i].numbered|);
    assert ss[i].numbered[..|ss[i].numbered|] == ss[i].numbered;
    var _ := WindowIsSuffix(DEFAULT_BUFFER_CONFIG, ops, until);
  }

  /** No gap for a listener that asks from within the window: from its snapshot on, as long as it
      stays and no send to it is dropped, every chunk that others have numbered or will number in the
      room above `since` has reached its send channel or is on its way to it. */
  lemma NoGapWithinWindow(ss: seq<State>, steps: seq<Step>, start: int, i: nat, n: nat, c: ConnId, k: nat)
    requires Execution(ss, steps) && InTime(start, steps) && i < n <= |steps|
    requires RelayReplay.Snapshots(ss[i], steps[i], c)
    requires Reaches(BufferAt(ss[i], ss[i].conns[c].pc.room), ss[i].conns[c].pc.since)
    requires forall j :: i <= j < n ==> c in Members(ss[j].hub, ss[i].conns[c].pc.room)
    requires forall j :: i < j < n ==> !RelayDeliveries.Drops(ss[j], steps[j], c)
    requires k < |ss[n].numbered|
    ensures var Snapshotting(room, since) := ss[i].conns[c].pc;
            var item := ss[n].numbered[k];
            item.live.room == room && item.live.sender != c && item.live.sequence > since ==>
              RelayDeliveries.Covered(ss[n], c, item)
  {
    var Snapshotting(room, since) := ss[i].conns[c].pc;
    var item := ss[n].numbered[k];
    if item.live.room == room && item.live.sender != c && item.live.sequence > since {
      if k < |ss[i].numbered| {
        NumberedStays(ss, steps, i, n, k);
        Retains(ss, steps, start, i, c, k);
      }
      RelayReplay.NoGap(ss, steps, i, n, c, k);
    }
  }

  /** A window that reaches back to `since` still holds everything numbered above it. */
  lemma Retains(ss: seq<State>, steps: seq<Step>, start: int, i: nat, c: ConnId, k: nat)
    requires Execution(ss, steps) && InTime(start, steps) && i < |steps|
    requires RelayReplay.Snapshots(ss[i], steps[i], c) && k < |ss[i].numbered|
    requires var Snapshotting(room, since) := ss[i].conns[c].pc;
             && Reaches(BufferAt(ss[i], room), since)
             && ss[i].numbered[k].live.room == room && ss[i].numbered[k].live.sequence > since
    ensures ss[i].numbered[k].stored in BufferAt(ss[i], ss[i].conns[c].pc.room).msgs
  {
    var room, item := ss[i].conns[c].pc.room, ss[i].numbered[k];
    var ops, until := RoomOps(ss, steps, i, room), ClockAt(start, steps, i);
    BufferIsRun(ss, steps, i, room);
    RoomOpsTimely(ss, steps, start, i, room);
    StoredIsLog(ss, steps, start, i, room);
    StoredInHas(ss[i].numbered, room, k);
    RelayReplay.AlwaysStoredAsRelayed(ss, steps, i, k);
    var evicted := WindowIsSuffix(DEFAULT_BUFFER_CONFIG, ops, until);
    InSuffix(Log(ops), evicted, item.stored);
  }

  lemma InSuffix(log: seq<Message>, evicted: nat, m: Message)
    requires NumberedFromOne(log) && evicted <= |log| && m in log && m.sequence > evicted
    ensures m in log[evicted..]
  {
    var j :| 0 <= j < |log| && log[j] == m;
    assert log[evicted..][j - evicted] == m;
  }

  lemma {:induction false} NumberedStays(ss: seq<State>, steps: seq<Step>, i: nat, n: nat, k: nat)
    requires Path(ss, steps) && i <= n <= |steps| && k < |ss[i].numbered|
    ensures k < |ss[n].numbered| && ss[n].numbered[k] == ss[i].numbered[k]
    decreases n
  {
    if i < n {
      NumberedStays(ss, steps, i, n - 1, k);
      StepTaken(ss, steps, n - 1);
      RelayReplay.NumberedGrows(ss[n - 1], steps[n - 1], ss[n]);
      assert |ss[n].numbered| > |ss[n - 1].numbered| ==>
          ss[n].numbered[..|ss[n - 1].numbered|][k] == ss[n].numbered[k];
    }
  }
}
