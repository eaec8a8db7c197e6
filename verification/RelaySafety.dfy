/** The hub over every execution of the relay: its two indexes, when its goroutines can panic, and
    where an overflow leads. */
module RelaySafety {
  import opened Voice
  import opened Hub
  import opened Wrappers
  import opened Relay
  import opened RelayInvariant

  lemma {:induction false} AlwaysSound(ss: seq<State>, steps: seq<Step>, n: nat)
    requires Execution(ss, steps) && n <= |steps|
    ensures Sound(ss[n])
  {
    if n > 0 {
      AlwaysSound(ss, steps, n - 1);
      StepTaken(ss, steps, n - 1);
      StepKeepsSound(ss[n - 1], steps[n - 1], ss[n]);
    }
  }

  /** One-way inclusion, always: in every reachable state a room lists only connections that name
      it, even after deliveries have met full channels; so unregistering a registered connection
      takes it out of every room. */
  lemma IndexAlwaysIncluded(ss: seq<State>, steps: seq<Step>, n: nat, c: ConnId, room: RoomId)
    requires Execution(ss, steps) && n <= |steps|
    ensures var h := ss[n].hub;
            && (c in Members(h, room) ==> c in h.conns && room in h.conns[c].rooms)
            && (c in h.clients ==> c in h.conns && c !in Members(Unregister(h, c), room))
  {
    AlwaysSound(ss, steps, n);
    var h := ss[n].hub;
    if c in h.clients {
      UnregisterLeavesEveryRoom(h, c);
    }
  }

  /** Without an overflow the two indexes agree for every registered connection, no stored room is
      empty, and nothing ever panics: no channel is closed twice or used after it was closed. */
  lemma OrderlyWithoutOverflow(ss: seq<State>, steps: seq<Step>, n: nat)
    requires Execution(ss, steps) && n <= |steps| && !ss[n].overflowed
    ensures !ss[n].panicked && NoEmptyRoom(ss[n].hub)
    ensures forall c :: c in ss[n].hub.clients ==> IndexAgrees(ss[n].hub, c) && !ss[n].hub.conns[c].closed
  {
    AlwaysSound(ss, steps, n);
    forall c | c in ss[n].hub.clients ensures IndexAgrees(ss[n].hub, c) && !ss[n].hub.conns[c].closed {
      assert if ss[n].hub.conns[c].closed then Gone(ss[n], c) else IndexAgrees(ss[n].hub, c);
    }
  }

  // ---- After an overflow ----

  ghost predicate SomeDoomed(s: State) {
    exists c :: Doomed(s, c)
  }

  lemma OverflowStep(s: State, step: Step, s': State)
    requires Next(s, step) == Some(s') && Sound(s) && s'.overflowed && !s.overflowed
    ensures SomeDoomed(s')
  {
    if TouchesNoRoom(step) {
      StepTouchesNoRoom(s, step, s');
    } else {
      assert step.ByHub? && step.event.DeliverTo?;
      OverflowDooms(s, step.event.c);
    }
  }

  lemma NextSomeDoomed(ss: seq<State>, steps: seq<Step>, n: nat)
    requires Execution(ss, steps) && n < |steps| && ss[n + 1].overflowed
    requires ss[n].overflowed ==> SomeDoomed(ss[n])
    ensures SomeDoomed(ss[n + 1])
  {
    if ss[n].overflowed {
      var c :| Doomed(ss[n], c);
      NextKeepsDoomed(ss, steps, n, c);
    } else {
      AlwaysSound(ss, steps, n);
      StepTaken(ss, steps, n);
      OverflowStep(ss[n], steps[n], ss[n + 1]);
    }
  }

  /** An overflow always dooms: in every reachable state some delivery has met a full channel if and
      only if some registered connection's channel is closed. */
  lemma {:induction false} OverflowExactly(ss: seq<State>, steps: seq<Step>, n: nat)
    requires Execution(ss, steps) && n <= |steps|
    ensures ss[n].overflowed <==> SomeDoomed(ss[n])
  {
    if !ss[n].overflowed {
      OrderlyWithoutOverflow(ss, steps, n);
    } else if n > 0 {
      OverflowExactly(ss, steps, n - 1);
      NextSomeDoomed(ss, steps, n - 1);
    }
  }

  lemma NextKeepsDoomed(ss: seq<State>, steps: seq<Step>, n: nat, c: ConnId)
    requires Execution(ss, steps) && n < |steps| && Doomed(ss[n], c)
    ensures Doomed(ss[n + 1], c)
    ensures steps[n] == ByHub(FinishUnregister) && ss[n].hubPc == Removing(c) ==> ss[n + 1].panicked
  {
    AlwaysSound(ss, steps, n);
    StepTaken(ss, steps, n);
    StepKeepsDoomed(ss[n], steps[n], ss[n + 1], c);
  }

  /** An overflow is never repaired: whatever happens afterwards, the connection stays registered
      with a closed channel. */
  lemma {:induction false} OverflowIsForever(ss: seq<State>, steps: seq<Step>, i: nat, n: nat, c: ConnId)
    requires Execution(ss, steps) && i <= n <= |steps| && Doomed(ss[i], c)
    ensures Doomed(ss[n], c)
    decreases n
  {
    if i < n {
      OverflowIsForever(ss, steps, i, n - 1, c);
      NextKeepsDoomed(ss, steps, n - 1, c);
    }
  }

  /** So the program panics when the hub processes its unregistration, if it has not panicked
      before. */
  lemma DoomedUnregisterPanics(ss: seq<State>, steps: seq<Step>, i: nat, n: nat, c: ConnId)
    requires Execution(ss, steps) && i <= n < |steps| && Doomed(ss[i], c)
    requires steps[n] == ByHub(FinishUnregister) && ss[n].hubPc == Removing(c)
    ensures ss[n + 1].panicked
  {
    OverflowIsForever(ss, steps, i, n, c);
    NextKeepsDoomed(ss, steps, n, c);
  }
}
