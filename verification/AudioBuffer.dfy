/** The replay window of one room.  Chunks are evicted incrementally, on every insertion and sweep;
    what is kept is the longest suffix of the room's whole history that is young and small enough. */
module AudioBuffer {
  import opened Sequences

  type Bytes = seq<bv8>

  const SECOND := 1_000_000_000
  const MINUTE := 60 * SECOND

  datatype BufferConfig = BufferConfig(maxDuration: int, maxSizeBytes: int, cleanupInterval: int)

  const DEFAULT_BUFFER_CONFIG := BufferConfig(30 * SECOND, 10 * 1024 * 1024, 5 * MINUTE)

  datatype Message = Message(id: string, channelId: string, userId: string, audioData: Bytes,
                             sequence: int, timestamp: int, isReplayed: bool)

  // ---- The specification: the longest suffix within the limits ----

  function Size(msgs: seq<Message>): nat {
    if msgs == [] then 0 else |msgs[0].audioData| + Size(msgs[1..])
  }

  /** Every message is younger than maxDuration at time t. */
  predicate AllYoung(cfg: BufferConfig, msgs: seq<Message>, t: int) {
    forall i :: 0 <= i < |msgs| ==> msgs[i].timestamp > t - cfg.maxDuration
  }

  /** Both limits hold at time t; a single message may exceed the size limit. */
  predicate Fits(cfg: BufferConfig, msgs: seq<Message>, t: int) {
    AllYoung(cfg, msgs, t) && (Size(msgs) <= cfg.maxSizeBytes || |msgs| <= 1)
  }

  function Retained(cfg: BufferConfig, log: seq<Message>, t: int): seq<Message> {
    if log == [] || Fits(cfg, log, t) then log else Retained(cfg, log[1..], t)
  }

  /** Retained really is the longest suffix that fits: it is a suffix, it fits, and no longer
      suffix fits. */
  lemma {:induction false} RetainedIsLongestFit(cfg: BufferConfig, log: seq<Message>, t: int)
    ensures var kept := Retained(cfg, log, t);
            && |kept| <= |log| && kept == log[|log| - |kept|..]
            && Fits(cfg, kept, t)
            && forall k :: 0 <= k < |log| - |kept| ==> !Fits(cfg, log[k..], t)
  {
    if log != [] && !Fits(cfg, log, t) {
      RetainedIsLongestFit(cfg, log[1..], t);
      var kept := Retained(cfg, log, t);
      forall k | 0 <= k < |log| - |kept| ensures !Fits(cfg, log[k..], t) {
        if k == 0 {
          assert log[0..] == log;
        } else {
          assert log[k..] == log[1..][k - 1..];
        }
      }
    }
  }

  lemma {:induction false} SizeAppend(a: seq<Message>, b: seq<Message>)
    ensures Size(a + b) == Size(a) + Size(b)
  {
    if a == [] {
      assert a + b == b;
    } else {
      SizeAppend(a[1..], b);
      assert (a + b)[1..] == a[1..] + b;
    }
  }

  /** Evicting early loses nothing: cleaning at t0, then appending, then cleaning at a later t,
      keeps what cleaning the whole log once at t would keep. */
  lemma {:induction false} RetainedIncrementally(cfg: BufferConfig, log: seq<Message>, t0: int,
                                                 more: seq<Message>, t: int)
    requires log == [] || t0 <= t
    ensures Retained(cfg, Retained(cfg, log, t0) + more, t) == Retained(cfg, log + more, t)
  {
    if log != [] && !Fits(cfg, log, t0) {
      RetainedIncrementally(cfg, log[1..], t0, more, t);
      SizeAppend(log, more);
      if !AllYoung(cfg, log, t0) {
        var i :| 0 <= i < |log| && log[i].timestamp <= t0 - cfg.maxDuration;
        assert (log + more)[i].timestamp <= t - cfg.maxDuration;
      }
      assert !Fits(cfg, log + more, t);
      assert (log + more)[1..] == log[1..] + more;
    }
  }

  // ---- What the code computes: an age filter, then dropping from the front ----

  function YoungerThan(cutoff: int): Message -> bool {
    (m: Message) => m.timestamp > cutoff
  }

  function Trim(msgs: seq<Message>, maxSizeBytes: int): seq<Message> {
    if Size(msgs) > maxSizeBytes && |msgs| > 1 then Trim(msgs[1..], maxSizeBytes) else msgs
  }

  function Clean(cfg: BufferConfig, msgs: seq<Message>, now: int): seq<Message> {
    Trim(Filter(msgs, YoungerThan(now - cfg.maxDuration)), cfg.maxSizeBytes)
  }

  predicate Ordered(msgs: seq<Message>) {
    forall i, j :: 0 <= i < j < |msgs| ==> msgs[i].timestamp <= msgs[j].timestamp
  }

  lemma {:induction false} TrimIsRetained(cfg: BufferConfig, msgs: seq<Message>, now: int)
    requires AllYoung(cfg, msgs, now)
    ensures Trim(msgs, cfg.maxSizeBytes) == Retained(cfg, msgs, now)
  {
    if Size(msgs) > cfg.maxSizeBytes && |msgs| > 1 {
      TrimIsRetained(cfg, msgs[1..], now);
    }
  }

  /** On messages in timestamp order the two passes compute the longest suffix that fits. */
  lemma {:induction false} CleanIsRetained(cfg: BufferConfig, msgs: seq<Message>, now: int)
    requires Ordered(msgs)
    ensures Clean(cfg, msgs, now) == Retained(cfg, msgs, now)
  {
    if msgs != [] {
      if msgs[0].timestamp > now - cfg.maxDuration {
        FilterSuffix(msgs, YoungerThan(now - cfg.maxDuration), 0);
        TrimIsRetained(cfg, msgs, now);
      } else {
        assert !AllYoung(cfg, msgs, now);
        CleanIsRetained(cfg, msgs[1..], now);
      }
    }
  }

  // ---- One room's buffer, and every run of operations on it ----

  /** What the service holds for one room: the retained messages and the latest number. */
  datatype Buffer = Buffer(msgs: seq<Message>, last: int)

  const EMPTY_BUFFER := Buffer([], 0)

  /** An operation on one room.  AddMessage reads the clock twice, for the timestamp and again for
      the cutoff of the eviction that follows. */
  datatype Op =
    | Added(id: string, channelId: string, userId: string, audioData: Bytes, timestamp: int, now: int)
    | Swept(now: int)
    | Marked(ids: set<string>)

  function NewMessage(op: Op, sequence: int): Message
    requires op.Added?
  {
    Message(op.id, op.channelId, op.userId, op.audioData, sequence, op.timestamp, false)
  }

  function Mark(msgs: seq<Message>, ids: set<string>): seq<Message> {
    seq(|msgs|, i requires 0 <= i < |msgs| =>
      if msgs[i].id in ids then msgs[i].(isReplayed := true) else msgs[i])
  }

  function Do(cfg: BufferConfig, b: Buffer, op: Op): Buffer {
    match op
    case Added(_, _, _, _, _, now) => Buffer(Clean(cfg, b.msgs + [NewMessage(op, b.last + 1)], now), b.last + 1)
    case Swept(now) => b.(msgs := Clean(cfg, b.msgs, now))
    case Marked(ids) => b.(msgs := Mark(b.msgs, ids))
  }

  function Run(cfg: BufferConfig, ops: seq<Op>): Buffer {
    if ops == [] then EMPTY_BUFFER
    else Do(cfg, Run(cfg, ops[..|ops| - 1]), ops[|ops| - 1])
  }

  /** The history from scratch: every message ever added, nothing ever evicted. */
  function Log(ops: seq<Op>): seq<Message> {
    if ops == [] then []
    else
      var log := Log(ops[..|ops| - 1]);
      var op := ops[|ops| - 1];
      match op
      case Added(_, _, _, _, _, _) => log + [NewMessage(op, |log| + 1)]
      case Swept(_) => log
      case Marked(ids) => Mark(log, ids)
  }

  /** The clock readings of the run never decrease and do not exceed `until`. */
  predicate Timely(ops: seq<Op>, until: int) {
    if ops == [] then true
    else
      var before := ops[..|ops| - 1];
      match ops[|ops| - 1]
      case Added(_, _, _, _, ts, now) => ts <= now <= until && Timely(before, ts)
      case Swept(now) => now <= until && Timely(before, now)
      case Marked(_) => Timely(before, until)
  }

  /** The time of the latest eviction of the run. */
  function LastCleaned(ops: seq<Op>): int {
    if ops == [] then 0
    else
      match ops[|ops| - 1]
      case Added(_, _, _, _, _, now) => now
      case Swept(now) => now
      case Marked(_) => LastCleaned(ops[..|ops| - 1])
  }

  lemma {:induction false} TrimSubset(msgs: seq<Message>, maxSizeBytes: int, m: Message)
    requires m in Trim(msgs, maxSizeBytes)
    ensures m in msgs
  {
    if Size(msgs) > maxSizeBytes && |msgs| > 1 {
      TrimSubset(msgs[1..], maxSizeBytes, m);
    }
  }

  /** An operation of the relay adds at most its own message to the window. */
  lemma WindowGains(cfg: BufferConfig, b: Buffer, op: Op, m: Message)
    requires !op.Marked? && m in Do(cfg, b, op).msgs
    ensures m in b.msgs || (op.Added? && m == NewMessage(op, b.last + 1))
  {
    var msgs := if op.Added? then b.msgs + [NewMessage(op, b.last + 1)] else b.msgs;
    var young := YoungerThan(op.now - cfg.maxDuration);
    TrimSubset(Filter(msgs, young), cfg.maxSizeBytes, m);
    FilterMember(msgs, young, m);
  }

  lemma {:induction false} TimelyLater(ops: seq<Op>, t: int, until: int)
    requires Timely(ops, t) && t <= until
    ensures Timely(ops, until)
  {
    if ops != [] && ops[|ops| - 1].Marked? {
      TimelyLater(ops[..|ops| - 1], t, until);
    }
  }

  /** The log is in timestamp order, and is numbered 1, 2, 3, ... */
  lemma {:induction false} LogNumberedInOrder(ops: seq<Op>, until: int)
    requires Timely(ops, until)
    ensures var log := Log(ops);
            && Ordered(log)
            && (forall i :: 0 <= i < |log| ==> log[i].timestamp <= until && log[i].sequence == i + 1)
            && (log != [] ==> LastCleaned(ops) <= until)
  {
    if ops != [] {
      var before := ops[..|ops| - 1];
      match ops[|ops| - 1]
      case Added(_, _, _, _, ts, now) => LogNumberedInOrder(before, ts);
      case Swept(now) => LogNumberedInOrder(before, now);
      case Marked(_) => LogNumberedInOrder(before, until);
    }
  }

  lemma {:induction false} MarkedRetained(cfg: BufferConfig, log: seq<Message>, ids: set<string>, t: int)
    ensures Retained(cfg, Mark(log, ids), t) == Mark(Retained(cfg, log, t), ids)
  {
    MarkedSize(log, ids);
    if log != [] && !Fits(cfg, log, t) {
      if !AllYoung(cfg, log, t) {
        var i :| 0 <= i < |log| && log[i].timestamp <= t - cfg.maxDuration;
        assert Mark(log, ids)[i].timestamp <= t - cfg.maxDuration;
      }
      assert Mark(log, ids)[1..] == Mark(log[1..], ids);
      MarkedRetained(cfg, log[1..], ids, t);
    }
  }

  lemma {:induction false} MarkedSize(log: seq<Message>, ids: set<string>)
    ensures Size(Mark(log, ids)) == Size(log)
  {
    if log != [] {
      MarkedSize(log[1..], ids);
      assert Mark(log, ids)[1..] == Mark(log[1..], ids);
    }
  }

  /** History independence.  After any run with a non-decreasing clock, the incrementally evicted
      buffer is the longest suffix of the whole log that was within the limits at the latest
      eviction, and the counter is the length of the log. */
  lemma {:induction false} HistoryIndependence(cfg: BufferConfig, ops: seq<Op>, until: int)
    requires Timely(ops, until)
    ensures Run(cfg, ops).msgs == Retained(cfg, Log(ops), LastCleaned(ops))
    ensures Run(cfg, ops).last == |Log(ops)|
  {
    if ops != [] {
      var before, op := ops[..|ops| - 1], ops[|ops| - 1];
      var b := Run(cfg, before);
      assert Run(cfg, ops) == Do(cfg, b, op);
      match op
      case Added(_, _, _, _, ts, now) =>
        HistoryIndependence(cfg, before, ts);
        EvictionStep(cfg, before, ts, [NewMessage(op, b.last + 1)], now);
      case Swept(now) =>
        HistoryIndependence(cfg, before, now);
        EvictionStep(cfg, before, now, [], now);
        assert b.msgs + [] == b.msgs && Log(before) + [] == Log(before);
      case Marked(ids) =>
        HistoryIndependence(cfg, before, until);
        MarkedRetained(cfg, Log(before), ids, LastCleaned(before));
    }
  }

  lemma EvictionStep(cfg: BufferConfig, ops: seq<Op>, until: int, more: seq<Message>, now: int)
    requires Timely(ops, until) && until <= now && |more| <= 1
    requires forall m :: m in more ==> m.timestamp == until
    requires Run(cfg, ops).msgs == Retained(cfg, Log(ops), LastCleaned(ops))
    ensures Clean(cfg, Run(cfg, ops).msgs + more, now) == Retained(cfg, Log(ops) + more, now)
  {
    var log, kept := Log(ops), Run(cfg, ops).msgs;
    LogNumberedInOrder(ops, until);
    RetainedIsLongestFit(cfg, log, LastCleaned(ops));
    CleanIsRetained(cfg, kept + more, now);
    RetainedIncrementally(cfg, log, LastCleaned(ops), more, now);
  }

  /** Contiguity: the retained numbers are consecutive and end at the counter. */
  lemma Contiguity(cfg: BufferConfig, ops: seq<Op>, until: int)
    requires Timely(ops, until)
    ensures var b := Run(cfg, ops);
            && |b.msgs| <= b.last
            && forall i :: 0 <= i < |b.msgs| ==> b.msgs[i].sequence == b.last - |b.msgs| + 1 + i
  {
    HistoryIndependence(cfg, ops, until);
    LogNumberedInOrder(ops, until);
    RetainedIsLongestFit(cfg, Log(ops), LastCleaned(ops));
  }

  // ---- Replay ----

  function Wanted(since: int): Message -> bool {
    (m: Message) => m.sequence > since && !m.isReplayed
  }

  function Unplayed(msgs: seq<Message>, since: int): seq<Message> {
    Filter(msgs, Wanted(since))
  }

  /** Every message ever added with a number above `since`. */
  function NumberedAfter(log: seq<Message>, since: int): seq<Message> {
    log[if since < 0 then 0 else if since > |log| then |log| else since..]
  }

  predicate NumberedFromOne(log: seq<Message>) {
    forall i :: 0 <= i < |log| ==> log[i].sequence == i + 1
  }

  /** Nothing that is retained above `since` has been marked as replayed. */
  predicate NoneMarked(msgs: seq<Message>, since: int) {
    forall m :: m in msgs && m.sequence > since ==> !m.isReplayed
  }

  /** What the replay of a contiguous window yields, for any log numbered 1, 2, 3, ... */
  lemma ReplayOfSuffix(log: seq<Message>, evicted: nat, since: int)
    requires evicted <= |log| && NumberedFromOne(log)
    requires evicted == 0 || since >= evicted
    requires NoneMarked(log[evicted..], since)
    ensures Unplayed(log[evicted..], since) == NumberedAfter(log, since)
  {
    var skip := (if since < 0 then 0 else if since > |log| then |log| else since) - evicted;
    FilterSuffix(log[evicted..], Wanted(since), skip);
    assert log[evicted..][skip..] == log[evicted + skip..];
  }

  /** A request that reaches back before the window misses the latest evicted message. */
  lemma ReplayMissesEvicted(log: seq<Message>, evicted: nat, since: int)
    requires 0 < evicted <= |log| && since < evicted && NumberedFromOne(log)
    ensures Unplayed(log[evicted..], since) != NumberedAfter(log, since)
  {
    var missed := log[evicted - 1];
    FilterMember(log[evicted..], Wanted(since), missed);
    assert missed == NumberedAfter(log, since)[evicted - 1 - if since < 0 then 0 else since];
    assert missed !in log[evicted..];
  }

  /** A message marked as replayed is not replayed again. */
  lemma ReplaySkipsMarked(log: seq<Message>, evicted: nat, since: int, m: Message)
    requires evicted <= |log| && NumberedFromOne(log)
    requires m in log[evicted..] && m.sequence > since && m.isReplayed
    ensures Unplayed(log[evicted..], since) != NumberedAfter(log, since)
  {
    FilterMember(log[evicted..], Wanted(since), m);
    var i :| evicted <= i < |log| && log[i] == m;
    assert m == NumberedAfter(log, since)[i - if since < 0 then 0 else since];
  }

  lemma ReplayOfWindow(log: seq<Message>, evicted: nat, since: int)
    requires evicted <= |log| && NumberedFromOne(log)
    ensures Unplayed(log[evicted..], since) == NumberedAfter(log, since)
            <==> (evicted == 0 || since >= evicted) && NoneMarked(log[evicted..], since)
  {
    if evicted > 0 && since < evicted {
      ReplayMissesEvicted(log, evicted, since);
    } else if m :| m in log[evicted..] && m.sequence > since && m.isReplayed {
      ReplaySkipsMarked(log, evicted, since, m);
    } else {
      ReplayOfSuffix(log, evicted, since);
    }
  }

  /** After any run the window is the end of the log. */
  lemma WindowIsSuffix(cfg: BufferConfig, ops: seq<Op>, until: int) returns (evicted: nat)
    requires Timely(ops, until)
    ensures var b, log := Run(cfg, ops), Log(ops);
            && evicted <= |log| && b.msgs == log[evicted..] && |b.msgs| == |log| - evicted
            && b.last == |log| && NumberedFromOne(log)
  {
    HistoryIndependence(cfg, ops, until);
    LogNumberedInOrder(ops, until);
    RetainedIsLongestFit(cfg, Log(ops), LastCleaned(ops));
    evicted := |Log(ops)| - |Run(cfg, ops).msgs|;
  }

  /** Exact replay.  A client that asks for everything after `since` gets every message that was
      ever numbered above it, in order and without a hole, if and only if it asks for nothing that
      was evicted and nothing it asks for has been marked as replayed. */
  lemma ExactReplay(cfg: BufferConfig, ops: seq<Op>, until: int, since: int)
    requires Timely(ops, until)
    ensures var b := Run(cfg, ops);
            Unplayed(b.msgs, since) == NumberedAfter(Log(ops), since)
            <==> (|b.msgs| == b.last || since >= b.last - |b.msgs|) && NoneMarked(b.msgs, since)
  {
    var evicted := WindowIsSuffix(cfg, ops, until);
    ReplayOfWindow(Log(ops), evicted, since);
  }

  // ---- How long a message can outlive its maxDuration ----

  /** CleanupAllChannels reaches the room at least every `interval`: from `since` to the first
      sweep, between sweeps, and from the last sweep to `now`. */
  predicate SweptEvery(ops: seq<Op>, since: int, interval: int, now: int) {
    if ops == [] then now - since <= interval
    else if ops[0].Swept? then ops[0].now - since <= interval && SweptEvery(ops[1..], ops[0].now, interval, now)
    else SweptEvery(ops[1..], since, interval, now)
  }

  /** The clock reading with which an operation begins, when it reads the clock. */
  function StartsAt(op: Op, otherwise: int): int {
    match op
    case Added(_, _, _, _, ts, _) => ts
    case Swept(now) => now
    case Marked(_) => otherwise
  }

  lemma {:induction false} TimelySplit(ops: seq<Op>, i: nat, until: int)
    requires Timely(ops, until) && i < |ops|
    ensures Timely(ops[..i], StartsAt(ops[i], until))
    ensures StartsAt(ops[i], until) <= until
    ensures Timely(ops[..i + 1], until)
  {
    var n := |ops| - 1;
    if i == n {
      assert ops[..n + 1] == ops;
    } else {
      var bound := StartsAt(ops[n], until);
      TimelySplit(ops[..n], i, bound);
      assert ops[..n][..i] == ops[..i] && ops[..n][..i + 1] == ops[..i + 1];
      if ops[i].Marked? {
        TimelyLater(ops[..i], bound, until);
      }
      TimelyLater(ops[..i + 1], bound, until);
    }
  }

  /** A sweep that is due comes no later than any later observation. */
  lemma {:induction false} NextSweepBounds(ops: seq<Op>, since: int, interval: int, until: int, t: int)
    requires SweptEvery(ops, since, interval, until) && t <= until
    requires forall k :: 0 <= k < |ops| && ops[k].Swept? ==> t <= ops[k].now
    ensures t - since <= interval
  {
    if ops != [] && !ops[0].Swept? {
      NextSweepBounds(ops[1..], since, interval, until, t);
    }
  }

  /** The latest sweep among the first i operations, or `since` when there is none. */
  function LastSweep(ops: seq<Op>, since: int): int {
    if ops == [] then since
    else if ops[|ops| - 1].Swept? then ops[|ops| - 1].now
    else LastSweep(ops[..|ops| - 1], since)
  }

  lemma {:induction false} SweptAfterPrefix(ops: seq<Op>, i: nat, since: int, interval: int, now: int)
    requires i <= |ops| && SweptEvery(ops, since, interval, now)
    ensures SweptEvery(ops[i..], LastSweep(ops[..i], since), interval, now)
  {
    if i == 0 {
      assert ops[0..] == ops;
    } else {
      SweptAfterPrefix(ops, i - 1, since, interval, now);
      assert ops[i - 1..][0] == ops[i - 1] && ops[i - 1..][1..] == ops[i..];
      assert ops[..i][..i - 1] == ops[..i - 1];
    }
  }

  lemma {:induction false} CleanedSinceSweep(ops: seq<Op>, since: int, until: int)
    requires Timely(ops, until) && Log(ops) != []
    requires forall k :: 0 <= k < |ops| && ops[k].Added? ==> since <= ops[k].timestamp
    ensures LastSweep(ops, since) <= LastCleaned(ops)
  {
    var n := |ops| - 1;
    match ops[n]
    case Added(_, _, _, _, ts, now) => SweepsBefore(ops[..n], since, ts);
    case Swept(_) =>
    case Marked(_) => CleanedSinceSweep(ops[..n], since, until);
  }

  lemma {:induction false} SweepsBefore(ops: seq<Op>, since: int, until: int)
    requires Timely(ops, until) && since <= until
    ensures LastSweep(ops, since) <= until
  {
    if ops != [] && !ops[|ops| - 1].Swept? {
      var n := |ops| - 1;
      if ops[n].Added? {
        TimelyLater(ops[..n], ops[n].timestamp, until);
      }
      SweepsBefore(ops[..n], since, until);
    }
  }

  /** Timed retention.  If the room is swept at least every cleanupInterval, then at every point
      of the run, also while the room is idle, no retained message is older than maxDuration plus
      cleanupInterval.  `i` operations have happened at time `t`. */
  lemma TimedRetention(cfg: BufferConfig, ops: seq<Op>, since: int, until: int, i: nat, t: int)
    requires Timely(ops, until) && SweptEvery(ops, since, cfg.cleanupInterval, until)
    requires forall k :: 0 <= k < |ops| && ops[k].Added? ==> since <= ops[k].timestamp
    requires i <= |ops| && Timely(ops[..i], t) && t <= until
    requires forall k :: i <= k < |ops| ==> t <= StartsAt(ops[k], until)
    ensures forall m :: m in Run(cfg, ops[..i]).msgs ==> t - m.timestamp < cfg.maxDuration + cfg.cleanupInterval
  {
    var done := ops[..i];
    HistoryIndependence(cfg, done, t);
    RetainedIsLongestFit(cfg, Log(done), LastCleaned(done));
    if Log(done) != [] {
      SweptAfterPrefix(ops, i, since, cfg.cleanupInterval, until);
      NextSweepBounds(ops[i..], LastSweep(done, since), cfg.cleanupInterval, until, t);
      CleanedSinceSweep(done, since, t);
    }
  }
}
