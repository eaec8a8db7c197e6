/** The state of the relay, read off the steps that led to it: who holds a room, who is in it, who is
    registered and whose channel is closed, exactly. */
module RelayFacts {
  import opened Sequences
  import opened Voice
  import opened Hub
  import opened Wrappers
  import opened Relay
  import opened RelaySteps
  import RelaySafety

  /** The lock, exactly: a user holds a room if and only if some connection of the user was accepted
      in it and none has since sent anything but push-to-talk there or visited it on its way out. */
  lemma HoldsExactly(ss: seq<State>, steps: seq<Step>, n: nat, user: UserId, room: RoomId)
    requires Execution(ss, steps) && n <= |steps|
    ensures Holds(ss[n].voice, user, room) <==>
            exists i {:trigger Takes(ss[i], steps[i], user, room)} ::
              && 0 <= i < n && Takes(ss[i], steps[i], user, room)
              && forall j {:trigger GivesUp(ss[j], steps[j], user, room)} ::
                   i < j < n ==> !GivesUp(ss[j], steps[j], user, room)
  {
    var N := |steps|;
    var on := seq(N + 1, k requires 0 <= k <= N => Holds(ss[k].voice, user, room));
    var sets := seq(N, k requires 0 <= k < N => Takes(ss[k], steps[k], user, room));
    var clears := seq(N, k requires 0 <= k < N => GivesUp(ss[k], steps[k], user, room));
    forall k | 0 <= k < N ensures on[k + 1] == (sets[k] || (on[k] && !clears[k])) {
      StepTaken(ss, steps, k);
      LockStep(ss[k], steps[k], ss[k + 1], user, room);
    }
    SwitchExactly(on, sets, clears, n);
    assert forall j :: 0 <= j < N ==> sets[j] == Takes(ss[j], steps[j], user, room);
    assert forall j :: 0 <= j < N ==> clears[j] == GivesUp(ss[j], steps[j], user, room);
  }

  lemma FactsAt(ss: seq<State>, steps: seq<Step>, k: nat, c: ConnId, room: RoomId)
    requires Execution(ss, steps) && k < |steps|
    ensures HubFacts(ss[k], steps[k], ss[k + 1], c, room)
  {
    RelaySafety.AlwaysSound(ss, steps, k);
    StepTaken(ss, steps, k);
    StepFacts(ss[k], steps[k], ss[k + 1], c, room);
  }

  /** Membership, exactly: a connection is in a room if and only if it has entered it, and has since
      neither left it, nor been unregistered, nor met a packet for that room with a full channel. */
  lemma MembersExactly(ss: seq<State>, steps: seq<Step>, n: nat, c: ConnId, room: RoomId)
    requires Execution(ss, steps) && n <= |steps|
    ensures c in Members(ss[n].hub, room) <==>
            exists i {:trigger Enters(ss[i], steps[i], c, room)} ::
              && 0 <= i < n && Enters(ss[i], steps[i], c, room)
              && forall j {:trigger Drops(ss[j], steps[j], c, room)} :: i < j < n ==> !Drops(ss[j], steps[j], c, room)
  {
    var N := |steps|;
    var on := seq(N + 1, k requires 0 <= k <= N => c in Members(ss[k].hub, room));
    var sets := seq(N, k requires 0 <= k < N => Enters(ss[k], steps[k], c, room));
    var clears := seq(N, k requires 0 <= k < N => Drops(ss[k], steps[k], c, room));
    forall k | 0 <= k < N ensures on[k + 1] == (sets[k] || (on[k] && !clears[k])) {
      FactsAt(ss, steps, k, c, room);
    }
    SwitchExactly(on, sets, clears, n);
    assert forall j :: 0 <= j < N ==> sets[j] == Enters(ss[j], steps[j], c, room);
    assert forall j :: 0 <= j < N ==> clears[j] == Drops(ss[j], steps[j], c, room);
  }

  /** The connection's own list, exactly: it names the rooms that were entered and not left. */
  lemma ListExactly(ss: seq<State>, steps: seq<Step>, n: nat, c: ConnId, room: RoomId)
    requires Execution(ss, steps) && n <= |steps|
    ensures Lists(ss[n], c, room) <==>
            exists i {:trigger Enters(ss[i], steps[i], c, room)} ::
              && 0 <= i < n && Enters(ss[i], steps[i], c, room)
              && forall j {:trigger Leaves(steps[j], c, room)} :: i < j < n ==> !Leaves(steps[j], c, room)
  {
    var N := |steps|;
    var on := seq(N + 1, k requires 0 <= k <= N => Lists(ss[k], c, room));
    var sets := seq(N, k requires 0 <= k < N => Enters(ss[k], steps[k], c, room));
    var clears := seq(N, k requires 0 <= k < N => Leaves(steps[k], c, room));
    forall k | 0 <= k < N ensures on[k + 1] == (sets[k] || (on[k] && !clears[k])) {
      FactsAt(ss, steps, k, c, room);
    }
    SwitchExactly(on, sets, clears, n);
    assert forall j :: 0 <= j < N ==> sets[j] == Enters(ss[j], steps[j], c, room);
    assert forall j :: 0 <= j < N ==> clears[j] == Leaves(steps[j], c, room);
  }

  /** Registration, exactly: from the hub's registration to its unregistration. */
  lemma RegisteredExactly(ss: seq<State>, steps: seq<Step>, n: nat, c: ConnId)
    requires Execution(ss, steps) && n <= |steps|
    ensures c in ss[n].hub.clients <==>
            exists i {:trigger Registers(ss[i], steps[i], c)} ::
              && 0 <= i < n && Registers(ss[i], steps[i], c)
              && forall j {:trigger Unregisters(ss[j], steps[j], c)} :: i < j < n ==> !Unregisters(ss[j], steps[j], c)
  {
    var N := |steps|;
    var on := seq(N + 1, k requires 0 <= k <= N => c in ss[k].hub.clients);
    var sets := seq(N, k requires 0 <= k < N => Registers(ss[k], steps[k], c));
    var clears := seq(N, k requires 0 <= k < N => Unregisters(ss[k], steps[k], c));
    forall k | 0 <= k < N ensures on[k + 1] == (sets[k] || (on[k] && !clears[k])) {
      FactsAt(ss, steps, k, c, "");
    }
    SwitchExactly(on, sets, clears, n);
    assert forall j :: 0 <= j < N ==> sets[j] == Registers(ss[j], steps[j], c);
    assert forall j :: 0 <= j < N ==> clears[j] == Unregisters(ss[j], steps[j], c);
  }

  /** A channel is closed if and only if its owner has been unregistered or it has overflowed. */
  lemma ClosedExactly(ss: seq<State>, steps: seq<Step>, n: nat, c: ConnId)
    requires Execution(ss, steps) && n <= |steps|
    ensures Closed(ss[n], c) <==>
            exists i {:trigger Closes(ss[i], steps[i], c)} :: 0 <= i < n && Closes(ss[i], steps[i], c)
  {
    var N := |steps|;
    var on := seq(N + 1, k requires 0 <= k <= N => Closed(ss[k], c));
    var sets := seq(N, k requires 0 <= k < N => Closes(ss[k], steps[k], c));
    var clears := seq(N, _ => false);
    forall k | 0 <= k < N ensures on[k + 1] == (sets[k] || (on[k] && !clears[k])) {
      FactsAt(ss, steps, k, c, "");
    }
    SwitchExactly(on, sets, clears, n);
    assert forall j :: 0 <= j < N ==> sets[j] == Closes(ss[j], steps[j], c);
  }

  predicate Closes(s: State, step: Step, c: ConnId) {
    Unregisters(s, step, c) || OverflowsSomewhere(s, step, c)
  }
}
