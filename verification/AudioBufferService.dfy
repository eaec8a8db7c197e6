/** The service that owns every room's replay window.  Its two maps are updated in place; a ghost
    history of the operations on each room ties them to AudioBuffer.Run, so every theorem about
    runs holds of every state that the service can reach. */
module AudioBufferService {
  import opened Clock
  import opened AudioBuffer
  import opened Sequences
  import opened Wrappers

  function BufferOf(buffers: map<string, seq<Message>>, sequenceMap: map<string, int>, ch: string): Buffer {
    Buffer(if ch in buffers then buffers[ch] else [], if ch in sequenceMap then sequenceMap[ch] else 0)
  }

  function HistoryOf(history: map<string, seq<Op>>, ch: string): seq<Op> {
    if ch in history then history[ch] else []
  }

  /** Each room's buffer is the result of its recorded run, whose times lie in the past. */
  ghost predicate Recorded(cfg: BufferConfig, buffers: map<string, seq<Message>>, sequenceMap: map<string, int>,
                           history: map<string, seq<Op>>, now: int) {
    && buffers.Keys == sequenceMap.Keys == history.Keys
    && forall ch {:trigger BufferOf(buffers, sequenceMap, ch)} :: ch in history ==>
         BufferOf(buffers, sequenceMap, ch) == Run(cfg, history[ch]) && Timely(history[ch], now)
  }

  /** Recording a longer run of one room leaves every other room's record as it was. */
  lemma RecordRoom(cfg: BufferConfig, buffers: map<string, seq<Message>>, sequenceMap: map<string, int>,
                   history: map<string, seq<Op>>, now: int, ch: string, ops: seq<Op>, b: Buffer, later: int)
    requires Recorded(cfg, buffers, sequenceMap, history, now) && now <= later
    requires b == Run(cfg, ops) && Timely(ops, later)
    ensures Recorded(cfg, buffers[ch := b.msgs], sequenceMap[ch := b.last], history[ch := ops], later)
  {
    forall c | c in history && c != ch
      ensures BufferOf(buffers[ch := b.msgs], sequenceMap[ch := b.last], c) == Run(cfg, history[c])
      ensures Timely(history[c], later)
    {
      assert BufferOf(buffers, sequenceMap, c) == Run(cfg, history[c]);
      TimelyLater(history[c], now, later);
    }
    assert BufferOf(buffers[ch := b.msgs], sequenceMap[ch := b.last], ch) == b;
  }

  /** The record stays valid as time goes by. */
  lemma RecordedLater(cfg: BufferConfig, buffers: map<string, seq<Message>>, sequenceMap: map<string, int>,
                      history: map<string, seq<Op>>, now: int, later: int)
    requires Recorded(cfg, buffers, sequenceMap, history, now) && now <= later
    ensures Recorded(cfg, buffers, sequenceMap, history, later)
  {
    forall ch | ch in history ensures Timely(history[ch], later) {
      assert BufferOf(buffers, sequenceMap, ch) == Run(cfg, history[ch]);
      TimelyLater(history[ch], now, later);
    }
  }

  lemma ExtendRun(cfg: BufferConfig, ops: seq<Op>, now: int, op: Op, later: int)
    requires Timely(ops, now) && now <= later
    requires op.Added? ==> now <= op.timestamp <= op.now <= later
    requires op.Swept? ==> now <= op.now <= later
    ensures Timely(ops + [op], later)
    ensures Run(cfg, ops + [op]) == Do(cfg, Run(cfg, ops), op)
    ensures Log(ops + [op]) == if op.Added? then Log(ops) + [NewMessage(op, |Log(ops)| + 1)]
                               else if op.Marked? then Mark(Log(ops), op.ids) else Log(ops)
  {
    assert (ops + [op])[..|ops|] == ops;
    TimelyLater(ops, now, if op.Marked? then later else StartsAt(op, now));
  }

  /** One more operation on one room keeps the record. */
  lemma RecordOp(cfg: BufferConfig, buffers: map<string, seq<Message>>, sequenceMap: map<string, int>,
                 history: map<string, seq<Op>>, now: int, ch: string, op: Op, b: Buffer, later: int)
    requires Recorded(cfg, buffers, sequenceMap, history, now) && now <= later
    requires op.Added? ==> now <= op.timestamp <= op.now <= later
    requires !op.Added? ==> ch in history && (op.Swept? ==> now <= op.now <= later)
    requires b == Do(cfg, BufferOf(buffers, sequenceMap, ch), op)
    ensures var ops := HistoryOf(history, ch) + [op];
            && (op.Added? ==>
                  Recorded(cfg, buffers[ch := b.msgs], sequenceMap[ch := b.last], history[ch := ops], later))
            && (!op.Added? ==> Recorded(cfg, buffers[ch := b.msgs], sequenceMap, history[ch := ops], later))
  {
    var ops := HistoryOf(history, ch);
    ExtendRun(cfg, ops, now, op, later);
    RecordRoom(cfg, buffers, sequenceMap, history, now, ch, ops + [op], b, later);
    assert !op.Added? ==> sequenceMap[ch := b.last] == sequenceMap;
  }

  lemma RecordAdded(cfg: BufferConfig, buffers: map<string, seq<Message>>, sequenceMap: map<string, int>,
                    history: map<string, seq<Op>>, now: int, message: Message, kept: seq<Message>, later: int)
    requires Recorded(cfg, buffers, sequenceMap, history, now) && now <= message.timestamp <= later
    requires message.sequence == BufferOf(buffers, sequenceMap, message.channelId).last + 1 && !message.isReplayed
    requires kept == Clean(cfg, BufferOf(buffers, sequenceMap, message.channelId).msgs + [message], later)
    ensures var ch, ops := message.channelId, HistoryOf(history, message.channelId);
            var op := Added(message.id, ch, message.userId, message.audioData, message.timestamp, later);
            Recorded(cfg, buffers[ch := kept], sequenceMap[ch := message.sequence], history[ch := ops + [op]], later)
  {
    var ch, ops := message.channelId, HistoryOf(history, message.channelId);
    var op := Added(message.id, ch, message.userId, message.audioData, message.timestamp, later);
    ExtendRun(cfg, ops, now, op, later);
    RecordRoom(cfg, buffers, sequenceMap, history, now, ch, ops + [op], Buffer(kept, message.sequence), later);
  }

  /** `after` is `before` with one sweep at a time in [t0, t1]. */
  ghost predicate SweptOnce(before: seq<Op>, after: seq<Op>, t0: int, t1: int) {
    exists t :: t0 <= t <= t1 && after == before + [Swept(t)]
  }

  class AudioBufferService {
    const config: BufferConfig
    const clock: Clock
    var buffers: map<string, seq<Message>>
    var sequenceMap: map<string, int>
    ghost var history: map<string, seq<Op>>

    ghost predicate Valid()
      reads this, clock
    {
      Recorded(config, buffers, sequenceMap, history, clock.now)
    }

    /** A room nobody has spoken in reads as an empty buffer with number 0. */
    ghost function Room(channelId: string): Buffer
      reads this
    {
      BufferOf(buffers, sequenceMap, channelId)
    }

    ghost function History(channelId: string): seq<Op>
      reads this
    {
      HistoryOf(history, channelId)
    }

    constructor (config: Option<BufferConfig>, clock: Clock)
      ensures Valid() && history == map[] && this.clock == clock
      ensures this.config == if config.None? then DEFAULT_BUFFER_CONFIG else config.value
    {
      this.config := if config.None? then DEFAULT_BUFFER_CONFIG else config.value;
      this.clock := clock;
      buffers, sequenceMap, history := map[], map[], map[];
    }

    /** The service stays valid while others read the clock. */
    lemma Wait(since: int)
      requires Recorded(config, buffers, sequenceMap, history, since) && since <= clock.now
      ensures Valid()
    {
      RecordedLater(config, buffers, sequenceMap, history, since, clock.now);
    }

    /** Numbers and stores one chunk, then evicts.  The room's history grows by exactly this
        operation; no other room changes. */
    method AddMessage(channelId: string, userId: string, audioData: Bytes, id: string) returns (message: Message)
      requires Valid()
      modifies this, clock
      ensures Valid() && clock.now >= old(clock.now)
      ensures old(clock.now) <= message.timestamp <= clock.now
      ensures message
              == Message(id, channelId, userId, audioData, old(Room(channelId)).last + 1, message.timestamp, false)
      ensures history == old(history)[channelId :=
                old(History(channelId)) + [Added(id, channelId, userId, audioData, message.timestamp, clock.now)]]
    {
      var sequence := (if channelId in sequenceMap then sequenceMap[channelId] else 0) + 1;
      sequenceMap := sequenceMap[channelId := sequence];
      var now := clock.Now();
      message := Message(id, channelId, userId, audioData, sequence, now, false);
      buffers := buffers[channelId := (if channelId in buffers then buffers[channelId] else []) + [message]];
      CleanupOldMessages(channelId);
      ghost var kept := buffers[channelId];
      assert buffers == old(buffers)[channelId := kept];
      RecordAdded(config, old(buffers), old(sequenceMap), history, old(clock.now), message, kept, clock.now);
      ghost var op := Added(id, channelId, userId, audioData, now, clock.now);
      history := history[channelId := History(channelId) + [op]];
    }

    /** The age filter, then the size check on what is left. */
    method CleanupOldMessages(channelId: string)
      requires channelId in buffers
      modifies this`buffers, clock
      ensures clock.now >= old(clock.now)
      ensures buffers == old(buffers)[channelId := Clean(config, old(buffers)[channelId], clock.now)]
    {
      var messages := buffers[channelId];
      var now := clock.Now();
      var cutoff := now - config.maxDuration;
      var cleaned := [];
      var i := 0;
      while i < |messages|
        invariant 0 <= i <= |messages|
        invariant cleaned == Filter(messages[..i], YoungerThan(cutoff))
        modifies {}
      {
        if messages[i].timestamp > cutoff {
          cleaned := cleaned + [messages[i]];
        }
        FilterNext(messages, i, YoungerThan(cutoff));
        i := i + 1;
      }
      assert messages[..i] == messages;
      buffers := buffers[channelId := cleaned];
      var totalSize := TotalSize(cleaned);
      if totalSize > config.maxSizeBytes {
        CleanupBySize(channelId);
      }
    }

    method TotalSize(messages: seq<Message>) returns (totalSize: int)
      ensures totalSize == Size(messages)
    {
      totalSize := 0;
      var i := 0;
      while i < |messages|
        invariant 0 <= i <= |messages| && totalSize == Size(messages[..i])
      {
        totalSize := totalSize + |messages[i].audioData|;
        SizeAppend(messages[..i], [messages[i]]);
        assert messages[..i + 1] == messages[..i] + [messages[i]];
        i := i + 1;
      }
      assert messages[..i] == messages;
    }

    method CleanupBySize(channelId: string)
      requires channelId in buffers
      modifies this`buffers
      ensures buffers == old(buffers)[channelId := Trim(old(buffers)[channelId], config.maxSizeBytes)]
    {
      var messages := buffers[channelId];
      if |messages| == 0 {
        return;
      }
      var totalSize := TotalSize(messages);
      while totalSize > config.maxSizeBytes && |messages| > 1
        invariant totalSize == Size(messages)
        invariant Trim(messages, config.maxSizeBytes) == Trim(buffers[channelId], config.maxSizeBytes)
        decreases |messages|
      {
        totalSize := totalSize - |messages[0].audioData|;
        messages := messages[1..];
      }
      buffers := buffers[channelId := messages];
    }

    /** Everything retained with a larger number that nobody marked, in order. */
    method GetMessages(channelId: string, sinceSequence: int) returns (result: seq<Message>)
      ensures result == Unplayed(Room(channelId).msgs, sinceSequence)
    {
      var messages := if channelId in buffers then buffers[channelId] else [];
      result := [];
      var i := 0;
      while i < |messages|
        invariant 0 <= i <= |messages|
        invariant result == Unplayed(messages[..i], sinceSequence)
      {
        if messages[i].sequence > sinceSequence && !messages[i].isReplayed {
          result := result + [messages[i]];
        }
        FilterNext(messages, i, Wanted(sinceSequence));
        i := i + 1;
      }
      assert messages[..i] == messages;
    }

    /** Marks the retained messages with the given identifiers; nothing else changes. */
    method MarkAsReplayed(channelId: string, messageIds: seq<string>)
      requires Valid()
      modifies this
      ensures Valid()
      ensures history == if channelId in old(history)
                         then old(history)[channelId := old(history)[channelId] + [Marked(set id | id in messageIds)]]
                         else old(history)
    {
      if channelId !in buffers {
        return;
      }
      var idSet := set id | id in messageIds;
      var messages := MarkMatching(buffers[channelId], idSet);
      RecordOp(config, buffers, sequenceMap, history, clock.now, channelId, Marked(idSet),
               Buffer(messages, sequenceMap[channelId]), clock.now);
      buffers := buffers[channelId := messages];
      history := history[channelId := history[channelId] + [Marked(idSet)]];
    }

    /** The loop of MarkAsReplayed. */
    method MarkMatching(messages: seq<Message>, idSet: set<string>) returns (marked: seq<Message>)
      ensures marked == Mark(messages, idSet)
    {
      marked := messages;
      var i := 0;
      while i < |messages|
        invariant 0 <= i <= |messages| == |marked|
        invariant forall k :: 0 <= k < i ==> marked[k] == Mark(messages, idSet)[k]
        invariant forall k :: i <= k < |messages| ==> marked[k] == messages[k]
      {
        if marked[i].id in idSet {
          marked := marked[i := marked[i].(isReplayed := true)];
        }
        i := i + 1;
      }
    }

    /** One step of the sweep over all rooms. */
    method SweepRoom(channelId: string)
      requires Valid() && channelId in history
      modifies this`buffers, this`history, clock
      ensures Valid() && clock.now >= old(clock.now)
      ensures history == old(history)[channelId := old(history)[channelId] + [Swept(clock.now)]]
    {
      ghost var start := clock.now;
      CleanupOldMessages(channelId);
      ghost var ops := history[channelId] + [Swept(clock.now)];
      RecordOp(config, old(buffers), sequenceMap, history, start, channelId, Swept(clock.now),
               Room(channelId), clock.now);
      history := history[channelId := ops];
    }

    /** Evicts in every room.  Each room's history grows by one sweep whose time lies between the
        start and the end of the call. */
    method CleanupAllChannels()
      requires Valid()
      modifies this`buffers, this`history, clock
      ensures Valid() && clock.now >= old(clock.now)
      ensures history.Keys == old(history.Keys)
      ensures forall ch :: ch in history ==> SweptOnce(old(history)[ch], history[ch], old(clock.now), clock.now)
    {
      var todo := buffers.Keys;
      while todo != {}
        invariant Valid() && clock.now >= old(clock.now)
        invariant todo <= history.Keys == old(history.Keys)
        invariant forall ch :: ch in todo ==> history[ch] == old(history)[ch]
        invariant forall ch :: ch in history && ch !in todo ==>
                    SweptOnce(old(history)[ch], history[ch], old(clock.now), clock.now)
        decreases todo
      {
        var ch :| ch in todo;
        SweepRoom(ch);
        assert SweptOnce(old(history)[ch], history[ch], old(clock.now), clock.now);
        todo := todo - {ch};
      }
    }

    /** Forgets the room, including its numbering. */
    method ClearChannel(channelId: string)
      requires Valid()
      modifies this
      ensures Valid() && history == old(history) - {channelId}
      ensures Room(channelId) == EMPTY_BUFFER
    {
      assert forall ch :: ch in history ==> BufferOf(buffers, sequenceMap, ch) == Run(config, history[ch]);
      buffers := buffers - {channelId};
      sequenceMap := sequenceMap - {channelId};
      history := history - {channelId};
    }
  }
}
