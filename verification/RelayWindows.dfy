/** The operations of the relay on the window of one room, step by step.  A step that numbers a chunk
    adds it to the window of its room, a sweep evicts from the window of the room that it visits, and
    no other step touches a window; so the window after a step is the outcome of at most one operation
    on the window before it, in the order of the clock, and what has been stored for the room grows
    by exactly the chunk that the operation adds, under the next number.  Whatever holds of every run
    of one buffer can thus be carried over to the relay. */
module RelayWindows {
  import opened AudioBuffer
  import Voice
  import opened Hub
  import opened Wrappers
  import opened Relay
  import opened RelayConnections

  // ---- The operations of one room ----

  /** What a step does to the window of `room`. */
  function OpOf(s: State, step: Step, room: Voice.RoomId): seq<Op> {
    match step
    case Speaking(c, Number(id, timestamp, now)) =>
      if c in s.conns && s.conns[c].pc.Numbering? && s.conns[c].pc.room == room
      then [Added(id, room, s.conns[c].user, s.conns[c].pc.audio, timestamp, now)]
      else []
    case Sweep(r, now) => if r == room then [Swept(now)] else []
    case _ => []
  }

  function RoomOps(ss: seq<State>, steps: seq<Step>, n: nat, room: Voice.RoomId): seq<Op>
    requires |ss| == |steps| + 1 && n <= |steps|
  {
    if n == 0 then [] else RoomOps(ss, steps, n - 1, room) + OpOf(ss[n - 1], steps[n - 1], room)
  }

  /** What a step does to the window of a room, in terms of the buffer operations. */
  function Outcome(b: Buffer, ops: seq<Op>): Buffer
    requires |ops| <= 1
  {
    if ops == [] then b else Do(DEFAULT_BUFFER_CONFIG, b, ops[0])
  }

  lemma StepOnBuffer(s: State, step: Step, s': State, room: Voice.RoomId)
    requires Next(s, step) == Some(s')
    ensures BufferAt(s', room) == Outcome(BufferAt(s, room), OpOf(s, step, room))
  {
    if IsNumber(step) {
      assert s' == DoNumber(s, step.c, step.speech.id, step.speech.timestamp, step.speech.now);
    } else if step.Sweep? {
      assert s' == DoSweep(s, step.room, step.now);
    } else {
      StepFrame(s, step, s');
    }
  }

  lemma {:induction false} RunNext(ops: seq<Op>, more: seq<Op>)
    requires |more| <= 1
    ensures Run(DEFAULT_BUFFER_CONFIG, ops + more) == Outcome(Run(DEFAULT_BUFFER_CONFIG, ops), more)
  {
    if more == [] {
      assert ops + more == ops;
    } else {
      assert (ops + more)[..|ops|] == ops;
    }
  }

  ghost predicate WindowIs(s: State, room: Voice.RoomId, ops: seq<Op>) {
    BufferAt(s, room) == Run(DEFAULT_BUFFER_CONFIG, ops)
  }

  lemma NextWindow(ss: seq<State>, steps: seq<Step>, n: nat, room: Voice.RoomId)
    requires Path(ss, steps) && n < |steps| && WindowIs(ss[n], room, RoomOps(ss, steps, n, room))
    ensures WindowIs(ss[n + 1], room, RoomOps(ss, steps, n + 1, room))
  {
    StepTaken(ss, steps, n);
    StepOnBuffer(ss[n], steps[n], ss[n + 1], room);
    RunNext(RoomOps(ss, steps, n, room), OpOf(ss[n], steps[n], room));
  }

  lemma NoOpsYet(room: Voice.RoomId)
    ensures WindowIs(INITIAL, room, [])
  {
  }

  lemma {:induction false} OpInTime(s: State, step: Step, room: Voice.RoomId, ops: seq<Op>, now: int)
    requires Timely(ops, now) && StepInTime(now, step)
    ensures Timely(ops + OpOf(s, step, room), ClockAfter(now, step))
  {
    var more := OpOf(s, step, room);
    if more == [] {
      assert ops + more == ops;
      TimelyLater(ops, now, ClockAfter(now, step));
    } else {
      assert (ops + more)[..|ops|] == ops;
      TimelyLater(ops, now, ReadingOf(step).first);
    }
  }

  /** When the clock never runs backwards, it does not in any room. */
  lemma {:induction false} RoomOpsTimely(ss: seq<State>, steps: seq<Step>, start: int, n: nat, room: Voice.RoomId)
    requires |ss| == |steps| + 1 && InTime(start, steps) && n <= |steps|
    ensures Timely(RoomOps(ss, steps, n, room), ClockAt(start, steps, n))
  {
    if n > 0 {
      RoomOpsTimely(ss, steps, start, n - 1, room);
      StepIsInTime(start, steps, n - 1);
      OpInTime(ss[n - 1], steps[n - 1], room, RoomOps(ss, steps, n - 1, room), ClockAt(start, steps, n - 1));
    }
  }

  // ---- The log of a room is what was numbered in it ----

  /** What has been numbered in `room`, as stored, in order. */
  function StoredIn(numbered: seq<Numbered>, room: Voice.RoomId): seq<Message> {
    if numbered == [] then []
    else
      var last := numbered[|numbered| - 1];
      StoredIn(numbered[..|numbered| - 1], room) + if last.live.room == room then [last.stored] else []
  }

  lemma {:induction false} StoredInHas(numbered: seq<Numbered>, room: Voice.RoomId, k: nat)
    requires k < |numbered| && numbered[k].live.room == room
    ensures numbered[k].stored in StoredIn(numbered, room)
  {
    if k < |numbered| - 1 {
      StoredInHas(numbered[..|numbered| - 1], room, k);
    }
  }

  lemma {:induction false} LogNext(ops: seq<Op>, op: Op)
    requires !op.Marked?
    ensures Log(ops + [op]) == if op.Added? then Log(ops) + [NewMessage(op, |Log(ops)| + 1)] else Log(ops)
  {
    assert (ops + [op])[..|ops|] == ops;
  }

  lemma NumberStores(s: State, c: ConnId, id: string, timestamp: int, now: int, room: Voice.RoomId)
    requires c in s.conns && s.conns[c].pc.Numbering?
    ensures var more := OpOf(s, Speaking(c, Number(id, timestamp, now)), room);
            StoredIn(DoNumber(s, c, id, timestamp, now).numbered, room)
            == StoredIn(s.numbered, room)
               + if more == [] then [] else [NewMessage(more[0], BufferAt(s, room).last + 1)]
  {
    assert DoNumber(s, c, id, timestamp, now).numbered[..|s.numbered|] == s.numbered;
  }

  lemma StoredNext(ss: seq<State>, steps: seq<Step>, n: nat, room: Voice.RoomId, ops: seq<Op>)
    requires Path(ss, steps) && n < |steps|
    requires StoredIn(ss[n].numbered, room) == Log(ops) && BufferAt(ss[n], room).last == |Log(ops)|
    ensures StoredIn(ss[n + 1].numbered, room) == Log(ops + OpOf(ss[n], steps[n], room))
  {
    var s, step := ss[n], steps[n];
    if OpOf(s, step, room) == [] {
      assert ops + [] == ops;
    } else {
      LogNext(ops, OpOf(s, step, room)[0]);
    }
    StepTaken(ss, steps, n);
    if IsNumber(step) {
      NumberStores(s, step.c, step.speech.id, step.speech.timestamp, step.speech.now, room);
    } else {
      StepFrame(s, step, ss[n + 1]);
    }
  }
}
