/** What each connection is sent, and what its write pump writes to the socket. */
module RelaySends {
  import opened Sequences
  import opened Voice
  import opened Hub
  import opened Wrappers
  import opened Relay
  import opened RelaySteps
  import RelayOrder
  import RelayQueues
  import RelaySafety

  lemma SendsAt(ss: seq<State>, steps: seq<Step>, k: nat, c: ConnId)
    requires Execution(ss, steps) && k < |steps|
    ensures SendFacts(ss[k], steps[k], ss[k + 1], c)
  {
    RelaySafety.AlwaysSound(ss, steps, k);
    StepTaken(ss, steps, k);
    StepSends(ss[k], steps[k], ss[k + 1], c);
  }

  lemma TailStays(s: State, step: Step, s': State, c: ConnId)
    requires c in s.hub.conns && SendFacts(s, step, s', c) && QueueIsTail(s, c)
    ensures QueueIsTail(s', c)
    ensures Written(s', c) == Written(s, c)
            + if step == DrainOne(c) && s.hub.conns[c].send != [] then [s.hub.conns[c].send[0]] else []
  {
  }

  /** The write pump, in every reachable state: what waits in a send channel is the end of what was
      ever put into it, so what has been written to the socket is the rest, its beginning. */
  lemma WrittenIsBeginning(ss: seq<State>, steps: seq<Step>, n: nat, c: ConnId)
    requires Execution(ss, steps) && n <= |steps|
    ensures QueueIsTail(ss[n], c)
    ensures c in ss[n].hub.conns ==> ss[n].hub.conns[c].received == Written(ss[n], c) + ss[n].hub.conns[c].send
  {
    for k := 0 to n
      invariant QueueIsTail(ss[k], c)
    {
      SendsAt(ss, steps, k, c);
      if c in ss[k].hub.conns {
        TailStays(ss[k], steps[k], ss[k + 1], c);
      }
    }
  }

  /** What was written grows only at its end: by the oldest packet not yet written when the write
      pump finds one, and by nothing in every other step. */
  lemma WritesOldest(ss: seq<State>, steps: seq<Step>, i: nat, c: ConnId)
    requires Execution(ss, steps) && i < |steps| && c in ss[i].hub.conns
    ensures QueueIsTail(ss[i], c) && c in ss[i + 1].hub.conns && QueueIsTail(ss[i + 1], c)
    ensures var written, received := Written(ss[i], c), ss[i].hub.conns[c].received;
            Written(ss[i + 1], c) == written
              + if steps[i] == DrainOne(c) && written != received then [received[|written|]] else []
  {
    WrittenIsBeginning(ss, steps, i, c);
    SendsAt(ss, steps, i, c);
    TailStays(ss[i], steps[i], ss[i + 1], c);
  }

  /** Hence the socket too is written with strictly increasing numbers, room by room. */
  lemma WrittenInOrder(ss: seq<State>, steps: seq<Step>, n: nat, c: ConnId, room: RoomId)
    requires Execution(ss, steps) && n <= |steps| && c in ss[n].hub.conns
    requires forall i :: 0 <= i < n ==> OneConnectionPerUser(ss[i])
    ensures QueueIsTail(ss[n], c)
    ensures var w := Written(ss[n], c);
            forall i, j :: 0 <= i < j < |w| && w[i].LivePacket? && w[j].LivePacket?
                           && RelayQueues.NumberedIn(w[i].live, room) && RelayQueues.NumberedIn(w[j].live, room) ==>
              w[i].live.sequence < w[j].live.sequence
  {
    WrittenIsBeginning(ss, steps, n, c);
    RelayOrder.OrderAtEveryListener(ss, steps, n, room);
  }

  // ---- The broadcast channel ----

  lemma SuffixStays(s: State, step: Step, s': State)
    requires Next(s, step) == Some(s') && RelayQueues.QueueIsSuffix(s)
    ensures RelayQueues.QueueIsSuffix(s')
  {
    match step
    case Speaking(c, a) => RelayQueues.SpeakKeepsQueue(s, c, a);
    case ByHub(DeliverTo(c)) => RelayQueues.DeliverKeepsQueue(s, c);
    case ByHub(e) => RelayQueues.HubStepSendsNothing(s, e);
    case _ => RelayQueues.OthersKeepQueue(s, step, s');
  }

  /** The dispatcher takes packets in the order in which they entered the broadcast channel, each
      once: what is in the channel is the end of what entered it, and what the dispatcher is busy
      with is the one before. */
  lemma TakenInOrder(ss: seq<State>, steps: seq<Step>, n: nat)
    requires Execution(ss, steps) && n <= |steps|
    ensures var s := ss[n];
            var taken := |s.enqueued| - |s.broadcast|;
            && taken >= 0 && s.broadcast == s.enqueued[taken..]
            && (s.hubPc.Dispatching? || s.hubPc.FanningOut? ==> taken > 0 && s.hubPc.live == s.enqueued[taken - 1])
  {
    for k := 0 to n
      invariant RelayQueues.QueueIsSuffix(ss[k])
    {
      StepTaken(ss, steps, k);
      SuffixStays(ss[k], steps[k], ss[k + 1]);
    }
  }

  // ---- A whole fan-out ----

  function IsLive(): Packet -> bool {
    (p: Packet) => p.LivePacket?
  }

  /** The live packets that c has been sent, with the replayed ones in between left out. */
  function Heard(s: State, c: ConnId): seq<Packet>
    requires c in s.hub.conns
  {
    Filter(s.hub.conns[c].received, IsLive())
  }

  lemma HeardNext(s: State, step: Step, s': State, c: ConnId)
    requires c in s.hub.conns && SendFacts(s, step, s', c)
    ensures Heard(s', c) == Heard(s, c)
            + if step == ByHub(DeliverTo(c)) then SentTo(s, step, c) else []
  {
    FilterAppend(s.hub.conns[c].received, SentTo(s, step, c), IsLive());
  }

  /** A delivery to c meets its channel full. */
  predicate Misses(s: State, step: Step, c: ConnId) {
    step == ByHub(DeliverTo(c)) && c in s.hub.conns && Full(s.hub, c)
  }

  ghost predicate Missed(ss: seq<State>, steps: seq<Step>, i: nat, n: nat, c: ConnId)
    requires n <= |steps| <= |ss|
  {
    exists k {:trigger Misses(ss[k], steps[k], c)} :: i < k < n && Misses(ss[k], steps[k], c)
  }

  /** The fan-out that began at step i is under way: c has heard its packet if it was to, and its
      turn has come, and its channel was not full then. */
  ghost predicate FanningSince(ss: seq<State>, steps: seq<Step>, i: nat, n: nat, c: ConnId)
    requires i < n <= |steps| < |ss|
  {
    && ss[i].hubPc.Dispatching? && ss[n].hubPc.FanningOut? && ss[n].hubPc.live == ss[i].hubPc.live
    && c in ss[i].hub.conns && c in ss[n].hub.conns
    && var live := ss[i].hubPc.live;
       var targets := Members(ss[i].hub, live.room) - {live.sender};
       && ss[n].hubPc.todo <= targets
       && (c in ss[n].hubPc.todo ==> !Missed(ss, steps, i, n, c))
       && Heard(ss[n], c) == Heard(ss[i], c)
            + if c in targets && c !in ss[n].hubPc.todo && !Missed(ss, steps, i, n, c) then [LivePacket(live)] else []
  }

  lemma FanningStarts(ss: seq<State>, steps: seq<Step>, i: nat, c: ConnId)
    requires Execution(ss, steps) && i < |steps| && steps[i] == ByHub(BeginFanOut) && c in ss[i].hub.conns
    ensures FanningSince(ss, steps, i, i + 1, c)
  {
    StepTaken(ss, steps, i);
  }

  lemma FanningGoesOn(ss: seq<State>, steps: seq<Step>, i: nat, n: nat, c: ConnId)
    requires Execution(ss, steps) && i < n < |steps| && FanningSince(ss, steps, i, n, c)
    requires steps[n] != ByHub(FinishFanOut) && !ss[n + 1].panicked
    ensures FanningSince(ss, steps, i, n + 1, c)
  {
    SendsAt(ss, steps, n, c);
    HeardNext(ss[n], steps[n], ss[n + 1], c);
    StepTaken(ss, steps, n);
    StepFans(ss[n], steps[n], ss[n + 1]);
    assert Missed(ss, steps, i, n + 1, c) <==> Missed(ss, steps, i, n, c) || Misses(ss[n], steps[n], c);
  }

  /** A fan-out, exactly: from its beginning to its end, whatever else happens meanwhile, the live
      packets of a connection grow by the packet if and only if it was in the room at the beginning,
      is not the sender, and its channel was not full when its turn came; otherwise they stay. */
  lemma FanOutExactly(ss: seq<State>, steps: seq<Step>, i: nat, n: nat, c: ConnId)
    requires Execution(ss, steps) && i < n < |steps| && c in ss[i].hub.conns
    requires steps[i] == ByHub(BeginFanOut) && steps[n] == ByHub(FinishFanOut)
    requires forall k :: i < k < n ==> steps[k] != ByHub(FinishFanOut)
    ensures ss[i].hubPc.Dispatching? && c in ss[n + 1].hub.conns
    ensures var live := ss[i].hubPc.live;
            Heard(ss[n + 1], c) == Heard(ss[i], c)
              + if c in Members(ss[i].hub, live.room) && c != live.sender && !Missed(ss, steps, i, n, c)
                then [LivePacket(live)] else []
  {
    FanningStarts(ss, steps, i, c);
    for k := i + 1 to n
      invariant FanningSince(ss, steps, i, k, c)
    {
      StepTaken(ss, steps, k + 1);
      FanningGoesOn(ss, steps, i, k, c);
    }
    StepTaken(ss, steps, n);
    SendsAt(ss, steps, n, c);
    HeardNext(ss[n], steps[n], ss[n + 1], c);
  }

  /** Outside fan-outs nothing is heard: the live packets of a connection grow only in the delivery
      of a fan-out to it. */
  lemma HeardOnlyInFanOut(ss: seq<State>, steps: seq<Step>, i: nat, c: ConnId)
    requires Execution(ss, steps) && i < |steps| && c in ss[i].hub.conns
    ensures c in ss[i + 1].hub.conns
    ensures Heard(ss[i + 1], c) == Heard(ss[i], c) || (steps[i] == ByHub(DeliverTo(c)) && ss[i].hubPc.FanningOut?)
  {
    SendsAt(ss, steps, i, c);
    HeardNext(ss[i], steps[i], ss[i + 1], c);
  }
}
