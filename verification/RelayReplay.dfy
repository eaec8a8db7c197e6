/** Replay and the live feed together, over every execution of the relay: a listener that joined
    before it asked for a replay misses nothing, and what a replay sends is its snapshot. */
module RelayReplay {
  import opened Sequences
  import opened AudioBuffer
  import opened Hub
  import opened Wrappers
  import opened Relay
  import opened RelayConnections
  import opened RelayDeliveries

  /** Numbering only appends, and a numbered chunk is stored as it is relayed. */
  ghost predicate StoredAsRelayed(n: Numbered) {
    && n.stored.channelId == n.live.room && n.stored.userId == n.live.userId && n.stored.audioData == n.live.audio
    && n.stored.sequence == n.live.sequence && n.stored.timestamp == n.live.timestamp
    && n.live.isPtt && !n.stored.isReplayed
  }

  lemma NumberedGrows(s: State, step: Step, s': State)
    requires Next(s, step) == Some(s')
    ensures if step.Speaking? && step.speech.Number? then
              && |s'.numbered| == |s.numbered| + 1 && s'.numbered[..|s.numbered|] == s.numbered
              && StoredAsRelayed(s'.numbered[|s.numbered|])
              && s'.numbered[|s.numbered|].live.sender == step.c
              && s'.conns[step.c].pc == Enqueueing(s'.numbered[|s.numbered|].live)
            else s'.numbered == s.numbered
  {
    if step.Speaking? && step.speech.Number? {
        assert s' == DoNumber(s, step.c, step.speech.id, step.speech.timestamp, step.speech.now);
    } else {
      StepFrame(s, step, s');
    }
  }

  lemma {:induction false} AlwaysStoredAsRelayed(ss: seq<State>, steps: seq<Step>, n: nat, k: nat)
    requires Execution(ss, steps) && n <= |steps| && k < |ss[n].numbered|
    ensures StoredAsRelayed(ss[n].numbered[k])
  {
    if n > 0 {
      StepTaken(ss, steps, n - 1);
      NumberedGrows(ss[n - 1], steps[n - 1], ss[n]);
      if k < |ss[n - 1].numbered| {
        AlwaysStoredAsRelayed(ss, steps, n - 1, k);
        assert ss[n].numbered[..|ss[n - 1].numbered|][k] == ss[n].numbered[k];
      }
    }
  }

  /** What c asked for in the snapshot of step i: a chunk of that room, from another connection,
      above `since`, and not already evicted when the snapshot was taken. */
  ghost predicate Owed(before: State, c: ConnId, k: nat, n: Numbered)
    requires c in before.conns && before.conns[c].pc.Snapshotting?
  {
    var Snapshotting(room, since) := before.conns[c].pc;
    && n.live.room == room && n.live.sender != c && n.live.sequence > since
    && (k >= |before.numbered| || n.stored in BufferAt(before, room).msgs)
  }

  /** In this step c takes the snapshot of the replay it asked for. */
  predicate Snapshots(s: State, step: Step, c: ConnId) {
    step == Catching(c, Snapshot) && Known(s, c) && s.conns[c].pc.Snapshotting?
  }

  /** No gap between replay and live.  If c is in the room when it takes its snapshot (step i) and
      stays there, and no send to c meets a full channel, then at every later point every chunk it
      is owed has reached its send channel or is on its way to it; chunks numbered before the
      snapshot and chunks numbered after it alike. */
  lemma {:induction false} NoGap(ss: seq<State>, steps: seq<Step>, i: nat, n: nat, c: ConnId, k: nat)
    requires Execution(ss, steps) && i < n <= |steps|
    requires Snapshots(ss[i], steps[i], c)
    requires forall j :: i <= j < n ==> c in Members(ss[j].hub, ss[i].conns[c].pc.room)
    requires forall j :: i < j < n ==> !Drops(ss[j], steps[j], c)
    requires k < |ss[n].numbered|
    ensures Owed(ss[i], c, k, ss[n].numbered[k]) ==> Covered(ss[n], c, ss[n].numbered[k])
    decreases n
  {
    var item := ss[n].numbered[k];
    if Owed(ss[i], c, k, item) {
      AlwaysStoredAsRelayed(ss, steps, n, k);
      if n == i + 1 {
        StepTaken(ss, steps, i);
        SnapshotCovers(ss[i], c, ss[n], k, item);
      } else {
        StillConnected(ss, steps, i, n - 1, c);
        if k < |ss[n - 1].numbered| {
          NoGap(ss, steps, i, n - 1, c, k);
        }
        StepTaken(ss, steps, n - 1);
        NextCovers(ss[n - 1], steps[n - 1], ss[n], c, k);
      }
    }
  }

  /** A chunk that is numbered is on its way; a chunk that was covered stays covered. */
  lemma NextCovers(s: State, step: Step, s': State, c: ConnId, k: nat)
    requires Next(s, step) == Some(s') && k < |s'.numbered|
    requires var n := s'.numbered[k];
             c in s.conns && n.live.sender != c && c in Members(s.hub, n.live.room) && !Drops(s, step, c)
    ensures k < |s.numbered| ==> s'.numbered[k] == s.numbered[k]
    ensures k < |s.numbered| && Covered(s, c, s.numbered[k]) ==> Covered(s', c, s.numbered[k])
    ensures k >= |s.numbered| ==> Covered(s', c, s'.numbered[k])
  {
    NumberedGrows(s, step, s');
    if k < |s.numbered| {
      assert s'.numbered[..|s.numbered|][k] == s.numbered[k];
      if Covered(s, c, s.numbered[k]) {
        StepKeepsCovered(s, step, s', c, s.numbered[k]);
      }
    }
  }

  lemma SnapshotCovers(s: State, c: ConnId, s': State, k: nat, item: Numbered)
    requires Next(s, Catching(c, Snapshot)) == Some(s') && StoredAsRelayed(item)
    requires k < |s'.numbered| && Owed(s, c, k, item)
    ensures Covered(s', c, item)
  {
    var Snapshotting(room, since) := s.conns[c].pc;
    FilterMember(BufferAt(s, room).msgs, Wanted(since), item.stored);
    StepFrame(s, Catching(c, Snapshot), s');
  }

  /** Once nothing is on its way any more, c has been sent every chunk it is owed. */
  lemma NothingMissed(ss: seq<State>, steps: seq<Step>, i: nat, n: nat, c: ConnId, k: nat)
    requires Execution(ss, steps) && i < n <= |steps|
    requires Snapshots(ss[i], steps[i], c)
    requires forall j :: i <= j < n ==> c in Members(ss[j].hub, ss[i].conns[c].pc.room)
    requires forall j :: i < j < n ==> !Drops(ss[j], steps[j], c)
    requires k < |ss[n].numbered|
    requires ss[n].hubPc.Idle? && ss[n].broadcast == []
    requires forall d :: d in ss[n].conns ==>
               !ss[n].conns[d].pc.Enqueueing? && (d == c ==> !ss[n].conns[d].pc.Replaying?)
    ensures Owed(ss[i], c, k, ss[n].numbered[k]) ==> Got(ss[n], c, ss[n].numbered[k])
  {
    NoGap(ss, steps, i, n, c, k);
  }

  // ---- What one replay sends ----

  lemma SentPrefixGrows(base: seq<Packet>, msgs: seq<Message>, done: nat)
    requires done < |msgs|
    ensures base + Packets(msgs[..done]) + [ReplayPacket(msgs[done])] == base + Packets(msgs[..done + 1])
    ensures msgs[done..][0] == msgs[done] && msgs[done..][1..] == msgs[done + 1..]
  {
    assert Packets(msgs[..done + 1]) == Packets(msgs[..done]) + [ReplayPacket(msgs[done])];
  }

  /** A replay begins if and only if there is something to send; an empty snapshot ends the request
      without a word, not even the terminator. */
  lemma ReplayBeginsExactly(ss: seq<State>, steps: seq<Step>, i: nat, c: ConnId)
    requires Execution(ss, steps) && i < |steps| && Snapshots(ss[i], steps[i], c)
    ensures c in ss[i + 1].conns && ss[i + 1].hub == ss[i].hub
    ensures SnapshotOf(ss[i], c) != [] ==> ss[i + 1].conns[c].pc.Replaying?
    ensures SnapshotOf(ss[i], c) == [] ==> ss[i + 1].conns[c].pc.Reading?
  {
    StepTaken(ss, steps, i);
  }

  /** While a replay runs, whatever the other goroutines do, c has been sent exactly the part of
      its snapshot that is no longer pending, in order. */
  lemma {:induction false} ReplayProgress(ss: seq<State>, steps: seq<Step>, i: nat, n: nat, c: ConnId)
    requires Execution(ss, steps) && i < n <= |steps| && Snapshots(ss[i], steps[i], c)
    requires forall j :: i < j <= n ==> c in ss[j].conns && ss[j].conns[c].pc.Replaying?
    ensures var msgs, rest := SnapshotOf(ss[i], c), ss[n].conns[c].pc.rest;
            && Known(ss[i], c) && Known(ss[n], c)
            && |rest| <= |msgs| && rest == msgs[|msgs| - |rest|..]
            && Replayed(ss[n], c) == Replayed(ss[i], c) + Packets(msgs[..|msgs| - |rest|])
    decreases n
  {
    if n == i + 1 {
      StepTaken(ss, steps, i);
      assert Packets([]) == [];
      assert Replayed(ss[i], c) + [] == Replayed(ss[i], c);
    } else {
      ReplayProgress(ss, steps, i, n - 1, c);
      var msgs, rest := SnapshotOf(ss[i], c), ss[n - 1].conns[c].pc.rest;
      StepTaken(ss, steps, n - 1);
      ReplayAdvances(ss[n - 1], steps[n - 1], ss[n], c);
      if rest != [] {
        SentPrefixGrows(Replayed(ss[i], c), msgs, |msgs| - |rest|);
      }
    }
  }

  /** When it ends, c has been sent its whole snapshot followed by one terminator, unless a send met
      a full or closed channel; then it has been sent a prefix of the snapshot and no terminator. */
  lemma ReplayExact(ss: seq<State>, steps: seq<Step>, i: nat, n: nat, c: ConnId)
    requires Execution(ss, steps) && i < n < |steps| && Snapshots(ss[i], steps[i], c)
    requires forall j :: i < j <= n ==> c in ss[j].conns && ss[j].conns[c].pc.Replaying?
    requires c in ss[n + 1].conns && !ss[n + 1].conns[c].pc.Replaying?
    ensures var msgs := SnapshotOf(ss[i], c);
            && Known(ss[i], c) && Known(ss[n + 1], c)
            && if Drops(ss[n], steps[n], c) then
                 exists sent ::
                   && 0 <= sent <= |msgs|
                   && Replayed(ss[n + 1], c) == Replayed(ss[i], c) + Packets(msgs[..sent])
               else Replayed(ss[n + 1], c) == Replayed(ss[i], c) + Packets(msgs) + [ReplayEnd]
  {
    ReplayProgress(ss, steps, i, n, c);
    var msgs, rest := SnapshotOf(ss[i], c), ss[n].conns[c].pc.rest;
    StepTaken(ss, steps, n);
    if steps[n] != Catching(c, PushReplay) {
      StepKeepsReplayed(ss[n], steps[n], ss[n + 1], c);
    } else {
      PushReplays(ss[n], c);
      assert msgs[..|msgs|] == msgs;
    }
  }
}
