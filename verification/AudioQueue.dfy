/** The listener's playback queue: first in, first out, with a byte cap that drops the oldest
    entries but never the newest, and end-of-segment sentinels that carry no audio. */
module AudioQueue {
  import opened Wrappers

  type Bytes = seq<bv8>

  /** 30 seconds of 16-bit mono audio at 16 kHz. */
  const DEFAULT_MAX_BYTES := 960_000

  datatype Chunk = Chunk(data: Bytes, senderId: Option<string>, timestamp: int, isEndOfSegment: bool)

  function Size(chunks: seq<Chunk>): nat {
    if chunks == [] then 0 else |chunks[0].data| + Size(chunks[1..])
  }

  function AudioCount(chunks: seq<Chunk>): nat {
    if chunks == [] then 0 else (if chunks[0].isEndOfSegment then 0 else 1) + AudioCount(chunks[1..])
  }

  lemma {:induction false} SizeAppend(a: seq<Chunk>, b: seq<Chunk>)
    ensures Size(a + b) == Size(a) + Size(b) && AudioCount(a + b) == AudioCount(a) + AudioCount(b)
  {
    if a == [] {
      assert a + b == b;
    } else {
      SizeAppend(a[1..], b);
      assert (a + b)[0] == a[0] && (a + b)[1..] == a[1..] + b;
    }
  }

  // ---- The cap ----

  predicate Fits(maxBytes: int, chunks: seq<Chunk>) {
    Size(chunks) <= maxBytes || |chunks| <= 1
  }

  /** What is left after dropping from the front. */
  function Capped(maxBytes: int, chunks: seq<Chunk>): (kept: seq<Chunk>)
    ensures |kept| <= |chunks|
  {
    if Fits(maxBytes, chunks) then chunks else Capped(maxBytes, chunks[1..])
  }

  /** The cap drops no more than it must: the remainder fits, and no longer suffix does. */
  lemma {:induction false} CappedIsLongestFit(maxBytes: int, chunks: seq<Chunk>)
    ensures var kept := Capped(maxBytes, chunks);
            && kept == chunks[|chunks| - |kept|..]
            && Fits(maxBytes, kept) && (chunks != [] ==> kept != [])
            && forall k :: 0 <= k < |chunks| - |kept| ==> !Fits(maxBytes, chunks[k..])
  {
    if !Fits(maxBytes, chunks) {
      CappedIsLongestFit(maxBytes, chunks[1..]);
      var kept := Capped(maxBytes, chunks);
      forall k | 0 <= k < |chunks| - |kept| ensures !Fits(maxBytes, chunks[k..]) {
        assert chunks[k..] == if k == 0 then chunks else chunks[1..][k - 1..];
      }
    }
  }

  // ---- Runs since the last clear ----

  datatype Op =
    | EnqueueOp(data: Bytes, senderId: Option<string>, timestamp: int)
    | EndOp(senderId: Option<string>, timestamp: int)
    | TickOp

  datatype Queue = Queue(chunks: seq<Chunk>, totalBytes: int)

  function NewChunk(op: Op): Chunk
    requires !op.TickOp?
  {
    match op
    case EnqueueOp(data, sender, ts) => Chunk(data, sender, ts, false)
    case EndOp(sender, ts) => Chunk([], sender, ts, true)
  }

  /** An empty audio chunk is ignored. */
  predicate Accepts(op: Op) {
    op.EndOp? || (op.EnqueueOp? && op.data != [])
  }

  function Do(maxBytes: int, q: Queue, op: Op): Queue {
    if op.TickOp? then
      if q.chunks == [] then q
      else Queue(q.chunks[1..], if q.chunks[0].isEndOfSegment then q.totalBytes else q.totalBytes - |q.chunks[0].data|)
    else if !Accepts(op) then q
    else if op.EndOp? then q.(chunks := q.chunks + [NewChunk(op)])
    else
      var all := q.chunks + [NewChunk(op)];
      var kept := Capped(maxBytes, all);
      Queue(kept, q.totalBytes + |op.data| - Size(all[..|all| - |kept|]))
  }

  function Run(maxBytes: int, ops: seq<Op>): Queue {
    if ops == [] then Queue([], 0) else Do(maxBytes, Run(maxBytes, ops[..|ops| - 1]), ops[|ops| - 1])
  }

  function Arrival(op: Op): seq<Chunk> {
    if Accepts(op) then [NewChunk(op)] else []
  }

  /** What one operation takes off the queue to play it. */
  function Taken(q: Queue, op: Op): seq<Chunk> {
    if op.TickOp? && q.chunks != [] then [q.chunks[0]] else []
  }

  /** What the ticks have taken off the queue, oldest first. */
  function Played(maxBytes: int, ops: seq<Op>): seq<Chunk> {
    if ops == [] then []
    else Played(maxBytes, ops[..|ops| - 1]) + Taken(Run(maxBytes, ops[..|ops| - 1]), ops[|ops| - 1])
  }

  /** Everything accepted, in order of arrival. */
  function Arrived(ops: seq<Op>): seq<Chunk> {
    if ops == [] then [] else Arrived(ops[..|ops| - 1]) + Arrival(ops[|ops| - 1])
  }

  datatype Fate = Emitted | Dropped

  /** What one operation decides about the oldest entries. */
  function Decided(maxBytes: int, q: Queue, op: Op): seq<Fate> {
    if op.TickOp? then seq(|Taken(q, op)|, _ => Emitted)
    else if op.EnqueueOp? && op.data != [] then
      seq(|q.chunks| + 1 - |Capped(maxBytes, q.chunks + [NewChunk(op)])|, _ => Dropped)
    else []
  }

  /** The fates of the oldest arrivals, in order of arrival; the others are still queued. */
  function Fates(maxBytes: int, ops: seq<Op>): seq<Fate> {
    if ops == [] then []
    else Fates(maxBytes, ops[..|ops| - 1]) + Decided(maxBytes, Run(maxBytes, ops[..|ops| - 1]), ops[|ops| - 1])
  }

  /** The chunks whose fate is `fate`, in order of arrival. */
  function WithFate(arrived: seq<Chunk>, fates: seq<Fate>, fate: Fate): seq<Chunk>
    requires |fates| <= |arrived|
  {
    if fates == [] then []
    else
      var n := |fates| - 1;
      WithFate(arrived, fates[..n], fate) + (if fates[n] == fate then [arrived[n]] else [])
  }

  lemma {:induction false} WithFateMoreArrivals(arrived: seq<Chunk>, more: seq<Chunk>, fates: seq<Fate>, fate: Fate)
    requires |fates| <= |arrived|
    ensures WithFate(arrived + more, fates, fate) == WithFate(arrived, fates, fate)
  {
    if fates != [] {
      WithFateMoreArrivals(arrived, more, fates[..|fates| - 1], fate);
    }
  }

  lemma {:induction false} WithFateSplit(all: seq<Chunk>, f: seq<Fate>, g: seq<Fate>, fate: Fate)
    requires |f| + |g| <= |all|
    ensures WithFate(all, f + g, fate) == WithFate(all, f, fate) + WithFate(all[|f|..], g, fate)
  {
    if g == [] {
      assert f + g == f;
    } else {
      var n := |g| - 1;
      WithFateSplit(all, f, g[..n], fate);
      assert (f + g)[..|f| + n] == f + g[..n];
    }
  }

  lemma {:induction false} NoneWithFate(all: seq<Chunk>, n: nat)
    requires n <= |all|
    ensures WithFate(all, seq(n, _ => Dropped), Emitted) == []
  {
    if n > 0 {
      NoneWithFate(all, n - 1);
      assert seq(n, _ => Dropped)[..n - 1] == seq(n - 1, _ => Dropped);
    }
  }

  /** One operation appends its arrival, and removes from the front what it decides about. */
  lemma DoDecides(maxBytes: int, q: Queue, op: Op)
    ensures var all, decided := q.chunks + Arrival(op), Decided(maxBytes, q, op);
            && |decided| <= |all|
            && Do(maxBytes, q, op).chunks == all[|decided|..]
            && WithFate(all, decided, Emitted) == Taken(q, op)
  {
    if op.EnqueueOp? {
      CappedIsLongestFit(maxBytes, q.chunks + [NewChunk(op)]);
    }
    if !op.TickOp? {
      NoneWithFate(q.chunks + Arrival(op), |Decided(maxBytes, q, op)|);
    }
  }

  /** Conservation and order.  Every accepted chunk is emitted, dropped or queued, exactly once: the
      queue is the arrivals without a fate, which are the newest; what was emitted is exactly the
      arrivals whose fate is Emitted, in order of arrival. */
  lemma {:induction false} Conservation(maxBytes: int, ops: seq<Op>)
    ensures var arrived, fates := Arrived(ops), Fates(maxBytes, ops);
            && |fates| <= |arrived|
            && Run(maxBytes, ops).chunks == arrived[|fates|..]
            && Played(maxBytes, ops) == WithFate(arrived, fates, Emitted)
  {
    if ops != [] {
      var before, op := ops[..|ops| - 1], ops[|ops| - 1];
      Conservation(maxBytes, before);
      ConservedByOne(maxBytes, Run(maxBytes, before), op, Arrived(before), Fates(maxBytes, before));
    }
  }

  lemma ConservedByOne(maxBytes: int, q: Queue, op: Op, arrived: seq<Chunk>, fates: seq<Fate>)
    requires |fates| <= |arrived| && q.chunks == arrived[|fates|..]
    ensures var all, decided := arrived + Arrival(op), Decided(maxBytes, q, op);
            && |fates + decided| <= |all|
            && Do(maxBytes, q, op).chunks == all[|fates + decided|..]
            && WithFate(all, fates + decided, Emitted) == WithFate(arrived, fates, Emitted) + Taken(q, op)
  {
    var all, decided := arrived + Arrival(op), Decided(maxBytes, q, op);
    DoDecides(maxBytes, q, op);
    assert all[|fates|..] == q.chunks + Arrival(op);
    assert all[|fates|..][|decided|..] == all[|fates| + |decided|..];
    WithFateSplit(all, fates, decided, Emitted);
    WithFateMoreArrivals(arrived, Arrival(op), fates, Emitted);
  }

  // ---- Byte accounting ----

  ghost predicate WellMade(chunks: seq<Chunk>) {
    forall i :: 0 <= i < |chunks| ==> (chunks[i].isEndOfSegment <==> chunks[i].data == [])
  }

  /** The total exceeds the cap only while exactly one audio chunk is queued. */
  ghost predicate WithinCap(maxBytes: int, q: Queue) {
    q.totalBytes > maxBytes ==> AudioCount(q.chunks) == 1
  }

  lemma {:induction false} NoAudioNoBytes(chunks: seq<Chunk>)
    requires WellMade(chunks) && AudioCount(chunks) == 0
    ensures Size(chunks) == 0
  {
    if chunks != [] {
      NoAudioNoBytes(chunks[1..]);
    }
  }

  lemma CappedAccounts(maxBytes: int, all: seq<Chunk>)
    requires WellMade(all) && all != [] && !all[|all| - 1].isEndOfSegment
    ensures var kept := Capped(maxBytes, all);
            && WellMade(kept) && Size(all) - Size(all[..|all| - |kept|]) == Size(kept)
            && (Size(kept) > maxBytes ==> AudioCount(kept) == 1)
  {
    var gone := |all| - |Capped(maxBytes, all)|;
    CappedIsLongestFit(maxBytes, all);
    SizeAppend(all[..gone], all[gone..]);
    assert all == all[..gone] + all[gone..];
  }

  lemma EnqueueAccounts(maxBytes: int, q: Queue, op: Op)
    requires op.EnqueueOp? && op.data != [] && WellMade(q.chunks) && q.totalBytes == Size(q.chunks)
    ensures var q' := Do(maxBytes, q, op);
            && WellMade(q'.chunks) && q'.totalBytes == Size(q'.chunks) && WithinCap(maxBytes, q')
  {
    SizeAppend(q.chunks, [NewChunk(op)]);
    CappedAccounts(maxBytes, q.chunks + [NewChunk(op)]);
  }

  lemma OtherOpsAccount(maxBytes: int, q: Queue, op: Op)
    requires !op.EnqueueOp? && WellMade(q.chunks) && q.totalBytes == Size(q.chunks)
    ensures var q' := Do(maxBytes, q, op);
            && WellMade(q'.chunks) && q'.totalBytes == Size(q'.chunks)
            && (maxBytes >= 0 && WithinCap(maxBytes, q) ==> WithinCap(maxBytes, q'))
  {
    if op.EndOp? {
      SizeAppend(q.chunks, [NewChunk(op)]);
    } else if q.chunks != [] && AudioCount(q.chunks[1..]) == 0 {
      NoAudioNoBytes(q.chunks[1..]);
    }
  }

  /** The running total is always the number of bytes queued. */
  lemma {:induction false} TotalIsSize(maxBytes: int, ops: seq<Op>)
    ensures var q := Run(maxBytes, ops);
            && WellMade(q.chunks) && q.totalBytes == Size(q.chunks)
            && (maxBytes >= 0 ==> WithinCap(maxBytes, q))
  {
    if ops != [] {
      var before, op := ops[..|ops| - 1], ops[|ops| - 1];
      TotalIsSize(maxBytes, before);
      if op.EnqueueOp? && op.data != [] {
        EnqueueAccounts(maxBytes, Run(maxBytes, before), op);
      } else if !op.EnqueueOp? {
        OtherOpsAccount(maxBytes, Run(maxBytes, before), op);
      }
    }
  }

  /** The cap is kept, with the one exception it announces, after every run if and only if the
      configured maximum is not negative. */
  lemma CapKeptExactly(maxBytes: int)
    ensures (forall ops :: WithinCap(maxBytes, Run(maxBytes, ops))) <==> maxBytes >= 0
  {
    if maxBytes >= 0 {
      forall ops ensures WithinCap(maxBytes, Run(maxBytes, ops)) {
        TotalIsSize(maxBytes, ops);
      }
    } else {
      assert !WithinCap(maxBytes, Run(maxBytes, []));
    }
  }

  // ---- The queue object ----

  datatype Event = Audio(data: Bytes) | EndOfSegment

  /** What the two output streams carry for the chunks taken off the queue. */
  function Events(played: seq<Chunk>): seq<Event> {
    seq(|played|, i requires 0 <= i < |played| =>
      if played[i].isEndOfSegment then EndOfSegment else Audio(played[i].data))
  }

  /** The fields are the outcome of a run, and the streams carry what it played. */
  ghost predicate Outcome(maxBytes: int, q: Queue, history: seq<Op>, outputBefore: seq<Event>, output: seq<Event>) {
    && q == Run(maxBytes, history)
    && output == outputBefore + Events(Played(maxBytes, history))
  }

  lemma Extend(maxBytes: int, q: Queue, history: seq<Op>, outputBefore: seq<Event>, output: seq<Event>, op: Op)
    requires Outcome(maxBytes, q, history, outputBefore, output)
    ensures Outcome(maxBytes, Do(maxBytes, q, op), history + [op], outputBefore, output + Events(Taken(q, op)))
  {
    assert (history + [op])[..|history|] == history;
    var played, taken := Played(maxBytes, history), Taken(q, op);
    assert Events(played + taken) == Events(played) + Events(taken);
  }

  class AudioQueue {
    const maxBytes: int
    var queue: seq<Chunk>
    var totalBytes: int
    var isPlaying: bool
    var playTimer: bool             // the periodic timer is running
    var playingStream: seq<bool>
    var output: seq<Event>          // audioStream and endOfSegmentStream
    ghost var history: seq<Op>      // since the last clear
    ghost var outputBefore: seq<Event>

    /** The fields are the outcome of the run since the last clear, so every theorem about runs
        applies to them. */
    ghost predicate Valid()
      reads this
    {
      && Outcome(maxBytes, Queue(queue, totalBytes), history, outputBefore, output)
      && isPlaying == playTimer
    }

    constructor (maxBytes: int := DEFAULT_MAX_BYTES)
      ensures Valid() && this.maxBytes == maxBytes && history == [] && output == [] && !isPlaying
    {
      this.maxBytes := maxBytes;
      queue, totalBytes, isPlaying, playTimer := [], 0, false, false;
      playingStream, output, history, outputBefore := [], [], [], [];
    }

    method Enqueue(audioData: Bytes, senderId: Option<string>, timestamp: int)
      requires Valid()
      modifies this`queue, this`totalBytes, this`history
      ensures Valid() && history == old(history) + [EnqueueOp(audioData, senderId, timestamp)]
    {
      ghost var q, op := Queue(queue, totalBytes), EnqueueOp(audioData, senderId, timestamp);
      TotalIsSize(maxBytes, history);
      Extend(maxBytes, q, history, outputBefore, output, op);
      history := history + [op];
      if |audioData| > 0 {
        EnqueueAccounts(maxBytes, q, op);
        AppendAndDrop(Chunk(audioData, senderId, timestamp, false));
      }
    }

    /** The body of enqueue: the chunk is added and counted, then the oldest entries go until the
        rest fits; the newest one never goes. */
    method AppendAndDrop(chunk: Chunk)
      requires totalBytes == Size(queue) && WellMade(queue)
      requires !chunk.isEndOfSegment && chunk.data != []
      modifies this`queue, this`totalBytes
      ensures queue == Capped(maxBytes, old(queue) + [chunk]) && totalBytes == Size(queue)
    {
      SizeAppend(queue, [chunk]);
      queue := queue + [chunk];
      totalBytes := totalBytes + |chunk.data|;
      ghost var all := queue;
      while totalBytes > maxBytes && |queue| > 1
        invariant totalBytes == Size(queue) && WellMade(queue)
        invariant Capped(maxBytes, queue) == Capped(maxBytes, all)
        decreases |queue|
      {
        var dropped := queue[0];
        queue := queue[1..];
        if !dropped.isEndOfSegment {
          totalBytes := totalBytes - |dropped.data|;
        }
      }
    }

    method EnqueueEndOfSegment(senderId: Option<string>, timestamp: int)
      requires Valid()
      modifies this`queue, this`history
      ensures Valid() && history == old(history) + [EndOp(senderId, timestamp)]
    {
      Extend(maxBytes, Queue(queue, totalBytes), history, outputBefore, output, EndOp(senderId, timestamp));
      history := history + [EndOp(senderId, timestamp)];
      queue := queue + [Chunk([], senderId, timestamp, true)];
    }

    /** Starting twice is starting once. */
    method StartPlayback()
      requires Valid()
      modifies this`isPlaying, this`playTimer, this`playingStream
      ensures Valid() && isPlaying
      ensures playingStream == old(playingStream) + if old(isPlaying) then [] else [true]
    {
      if isPlaying {
        return;
      }
      isPlaying := true;
      playingStream := playingStream + [true];
      playTimer := true;
    }

    method StopPlayback()
      requires Valid()
      modifies this`isPlaying, this`playTimer, this`playingStream
      ensures Valid() && !isPlaying && playingStream == old(playingStream) + [false]
    {
      isPlaying := false;
      playingStream := playingStream + [false];
      playTimer := false;
    }

    /** Forgets everything queued; what was already emitted stays emitted. */
    method Clear()
      requires Valid()
      modifies this
      ensures Valid() && history == [] && queue == [] && totalBytes == 0 && !isPlaying
      ensures output == old(output) && outputBefore == output
    {
      queue := [];
      totalBytes := 0;
      history, outputBefore := [], output;
      StopPlayback();
    }

    /** A tick of the timer: emits the oldest entry, or stops when there is none. */
    method ProcessNextChunk()
      requires Valid()
      modifies this
      ensures Valid() && history == old(history) + [TickOp] && outputBefore == old(outputBefore)
      ensures if old(queue) == [] then output == old(output) && !isPlaying
              else queue == old(queue)[1..] && isPlaying == old(isPlaying)
                   && output == old(output)
                        + [if old(queue)[0].isEndOfSegment then EndOfSegment else Audio(old(queue)[0].data)]
    {
      Extend(maxBytes, Queue(queue, totalBytes), history, outputBefore, output, TickOp);
      history := history + [TickOp];
      if |queue| == 0 {
        StopPlayback();
        return;
      }
      var chunk := queue[0];
      queue := queue[1..];
      if chunk.isEndOfSegment {
        output := output + [EndOfSegment];
        return;
      }
      totalBytes := totalBytes - |chunk.data|;
      output := output + [Audio(chunk.data)];
    }
  }
}
