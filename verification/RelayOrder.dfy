/** One speaker at a time, and numbered audio in order at every listener, over every execution in
    which no user has two connections at once. */
module RelayOrder {
  import opened Voice
  import opened Hub
  import opened Wrappers
  import opened Relay
  import opened RelayConnections
  import opened RelayQueues

  // ---- Mutual exclusion ----

  lemma {:induction false} LockAlwaysHeld(ss: seq<State>, steps: seq<Step>, n: nat)
    requires Execution(ss, steps) && n <= |steps|
    requires forall i :: 0 <= i < n ==> OneConnectionPerUser(ss[i])
    ensures LockHeld(ss[n])
  {
    if n > 0 {
      LockAlwaysHeld(ss, steps, n - 1);
      StepTaken(ss, steps, n - 1);
      StepKeepsLock(ss[n - 1], steps[n - 1], ss[n]);
    }
  }

  /** Mutual exclusion at step granularity: at most one connection is transmitting in a room, and
      its user is the recorded speaker. */
  lemma MutualExclusion(ss: seq<State>, steps: seq<Step>, n: nat, c: ConnId, d: ConnId, room: RoomId)
    requires Execution(ss, steps) && n <= |steps|
    requires forall i :: 0 <= i <= n ==> OneConnectionPerUser(ss[i])
    requires c in ss[n].conns && Transmitting(ss[n].conns[c].pc, room)
    ensures GetCurrentSpeaker(ss[n].voice, room) == ss[n].conns[c].user && IsChannelBusy(ss[n].voice, room)
    ensures d in ss[n].conns && Transmitting(ss[n].conns[d].pc, room) ==> d == c
  {
    LockAlwaysHeld(ss, steps, n);
    assert Serving(ss[n], c);
    assert d in ss[n].conns && Transmitting(ss[n].conns[d].pc, room) ==> Serving(ss[n], d);
  }

  // ---- Order ----

  lemma StepKeepsAll(s: State, step: Step, s': State)
    requires Next(s, step) == Some(s') && LockHeld(s) && OneConnectionPerUser(s)
    requires EnqueuedInOrder(s) && QueueIsSuffix(s) && ReceivedInOrder(s)
    ensures EnqueuedInOrder(s') && QueueIsSuffix(s') && ReceivedInOrder(s')
  {
    StepKeepsOrder(s, step, s');
    StepKeepsReceived(s, step, s');
  }

  lemma {:induction false} AlwaysInOrder(ss: seq<State>, steps: seq<Step>, n: nat)
    requires Execution(ss, steps) && n <= |steps|
    requires forall i :: 0 <= i < n ==> OneConnectionPerUser(ss[i])
    ensures EnqueuedInOrder(ss[n]) && QueueIsSuffix(ss[n]) && ReceivedInOrder(ss[n])
  {
    if n > 0 {
      AlwaysInOrder(ss, steps, n - 1);
      LockAlwaysHeld(ss, steps, n - 1);
      StepTaken(ss, steps, n - 1);
      StepKeepsAll(ss[n - 1], steps[n - 1], ss[n]);
    }
  }

  /** Order at every listener, over the whole run: the numbered packets of a room enter the
      broadcast channel, and then each member's send channel, with strictly increasing numbers. */
  lemma OrderAtEveryListener(ss: seq<State>, steps: seq<Step>, n: nat, room: RoomId)
    requires Execution(ss, steps) && n <= |steps|
    requires forall i :: 0 <= i < n ==> OneConnectionPerUser(ss[i])
    ensures InOrder(ss[n].enqueued, room)
    ensures forall c, i, j :: c in ss[n].hub.conns && 0 <= i < j < |ss[n].hub.conns[c].received| ==>
              var r := ss[n].hub.conns[c].received;
              r[i].LivePacket? && r[j].LivePacket? && NumberedIn(r[i].live, room) && NumberedIn(r[j].live, room) ==>
                r[i].live.sequence < r[j].live.sequence
  {
    AlwaysInOrder(ss, steps, n);
    forall c | c in ss[n].hub.conns
      ensures ReceivedFrom(ss[n], ss[n].hub.conns[c].received, Reached(ss[n], c))
    {
    }
  }
}
