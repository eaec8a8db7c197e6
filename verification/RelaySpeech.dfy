/** From what users say to what enters the broadcast channel: every accepted packet, once, in the
    order in which its connection sent it, under the right name and number. */
module RelaySpeech {
  import opened AudioBuffer
  import opened Voice
  import opened Hub
  import opened Wrappers
  import opened Relay
  import opened RelayConnections
  import RelayWindows
  import RelayReplay

  /** A packet as its sender knows it: whether it is push-to-talk, and whether it is to be numbered. */
  datatype Utterance = Utterance(room: RoomId, audio: Bytes, isPtt: bool, numbered: bool)

  /** What this step of c adds to what was said.  A push-to-talk packet is accepted if and only if
      its user may transmit in the room then; it is numbered if its audio decodes to a non-empty
      chunk.  Any other packet is accepted as it is. */
  function SaidBy(s: State, step: Step, c: ConnId): seq<Utterance> {
    if !step.Speaking? || step.c != c || c !in s.conns then []
    else match step.speech
         case SpeakPtt(room, audio, decodes, _) =>
           if CanTransmit(s.voice, s.conns[c].user, room)
           then [Utterance(room, audio, true, decodes && audio != [])] else []
         case SpeakOpen(room, audio, _) => [Utterance(room, audio, false, false)]
         case _ => []
  }

  function Said(ss: seq<State>, steps: seq<Step>, n: nat, c: ConnId): seq<Utterance>
    requires |ss| == |steps| + 1 && n <= |steps|
  {
    if n == 0 then [] else Said(ss, steps, n - 1, c) + SaidBy(ss[n - 1], steps[n - 1], c)
  }

  function UtteranceOf(live: Live): Utterance {
    Utterance(live.room, live.audio, live.isPtt, live.sequence > 0)
  }

  /** c's packets among those that have entered the broadcast channel. */
  function EnqueuedBy(enqueued: seq<Live>, c: ConnId): seq<Utterance> {
    if enqueued == [] then []
    else
      var last := enqueued[|enqueued| - 1];
      EnqueuedBy(enqueued[..|enqueued| - 1], c) + if last.sender == c then [UtteranceOf(last)] else []
  }

  /** What c's goroutine still has in hand. */
  function InHand(s: State, c: ConnId): seq<Utterance> {
    if c !in s.conns then []
    else match s.conns[c].pc
         case Numbering(room, audio) => [Utterance(room, audio, true, true)]
         case Enqueueing(live) => [UtteranceOf(live)]
         case _ => []
  }

  /** A packet carries the name of its sender's user; a numbered one is a chunk that was stored, and
      an unnumbered one has no time. */
  predicate Signed(s: State, live: Live) {
    && live.sender in s.conns && live.userId == s.conns[live.sender].user
    && if live.sequence > 0 then exists k :: 0 <= k < |s.numbered| && s.numbered[k].live == live
       else live.sequence == 0 && live.timestamp == 0
  }

  ghost predicate EverySigned(s: State) {
    && (forall c :: c in s.conns && s.conns[c].pc.Enqueueing? ==>
          s.conns[c].pc.live.sender == c && Signed(s, s.conns[c].pc.live))
    && (forall i :: 0 <= i < |s.enqueued| ==> Signed(s, s.enqueued[i]))
    && (forall k :: 0 <= k < |s.numbered| ==> s.numbered[k].live.sequence > 0)
    && (forall room :: BufferAt(s, room).last >= 0)
  }

  lemma SignedStays(s: State, step: Step, s': State, live: Live)
    requires Next(s, step) == Some(s') && Signed(s, live)
    ensures Signed(s', live)
  {
    ConnectionStays(s, step, s', live.sender);
    RelayReplay.NumberedGrows(s, step, s');
    if live.sequence > 0 {
      var k :| 0 <= k < |s.numbered| && s.numbered[k].live == live;
      assert |s'.numbered| > |s.numbered| ==> s'.numbered[..|s.numbered|][k] == s'.numbered[k];
      assert s'.numbered[k].live == live;
    }
  }

  /** Counters never go back. */
  lemma CountersStay(s: State, step: Step, s': State, room: RoomId)
    requires Next(s, step) == Some(s')
    ensures BufferAt(s', room).last >= BufferAt(s, room).last
  {
    RelayWindows.StepOnBuffer(s, step, s', room);
  }

  lemma SpeakKeepsSigned(s: State, c: ConnId, a: SpeakAction, s': State)
    requires Next(s, Speaking(c, a)) == Some(s') && EverySigned(s)
    ensures EverySigned(s')
  {
    var step := Speaking(c, a);
    forall room ensures BufferAt(s', room).last >= 0 {
      CountersStay(s, step, s', room);
    }
    RelayReplay.NumberedGrows(s, step, s');
    forall k | 0 <= k < |s'.numbered| ensures s'.numbered[k].live.sequence > 0 {
      if k < |s.numbered| {
        assert a.Number? ==> s'.numbered[..|s.numbered|][k] == s.numbered[k];
      }
    }
    forall d | d in s'.conns && s'.conns[d].pc.Enqueueing?
      ensures s'.conns[d].pc.live.sender == d && Signed(s', s'.conns[d].pc.live)
    {
      if d != c {
        SignedStays(s, step, s', s.conns[d].pc.live);
      }
    }
    forall i | 0 <= i < |s'.enqueued| ensures Signed(s', s'.enqueued[i]) {
      SignedStays(s, step, s', if i < |s.enqueued| then s.enqueued[i] else s.conns[c].pc.live);
    }
  }

  lemma OthersKeepSigned(s: State, step: Step, s': State)
    requires Next(s, step) == Some(s') && EverySigned(s) && !step.Speaking?
    ensures EverySigned(s')
  {
    StepFrame(s, step, s');
    forall room ensures BufferAt(s', room).last >= 0 {
      CountersStay(s, step, s', room);
    }
    forall d | d in s'.conns && s'.conns[d].pc.Enqueueing?
      ensures s'.conns[d].pc.live.sender == d && Signed(s', s'.conns[d].pc.live)
    {
      SignedStays(s, step, s', s.conns[d].pc.live);
    }
    forall i | 0 <= i < |s'.enqueued| ensures Signed(s', s'.enqueued[i]) {
      SignedStays(s, step, s', s.enqueued[i]);
    }
  }

  /** In every reachable state, every packet that has entered the broadcast channel or is about to
      is signed by its sender; a numbered one is exactly a chunk that was stored. */
  lemma AlwaysSigned(ss: seq<State>, steps: seq<Step>, n: nat)
    requires Execution(ss, steps) && n <= |steps|
    ensures EverySigned(ss[n])
  {
    for k := 0 to n
      invariant EverySigned(ss[k])
    {
      StepTaken(ss, steps, k);
      if steps[k].Speaking? {
        SpeakKeepsSigned(ss[k], steps[k].c, steps[k].speech, ss[k + 1]);
      } else {
        OthersKeepSigned(ss[k], steps[k], ss[k + 1]);
      }
    }
  }

  // ---- Said and enqueued ----

  ghost predicate AllEnqueued(s: State, c: ConnId, said: seq<Utterance>) {
    said == EnqueuedBy(s.enqueued, c) + InHand(s, c)
  }

  lemma TalkInHand(s: State, d: ConnId, a: SpeakAction, c: ConnId)
    requires Known(s, d) && CanSpeak(s, d, a) && !a.Enqueue?
    requires forall room :: BufferAt(s, room).last >= 0
    ensures InHand(Speak(s, d, a), c) == InHand(s, c) + SaidBy(s, Speaking(d, a), c)
    ensures Speak(s, d, a).enqueued == s.enqueued
  {
  }

  lemma EnqueueInHand(s: State, d: ConnId, c: ConnId)
    requires Known(s, d) && CanSpeak(s, d, SpeakAction.Enqueue) && s.conns[d].pc.live.sender == d
    ensures var s' := Speak(s, d, SpeakAction.Enqueue);
            EnqueuedBy(s'.enqueued, c) + InHand(s', c) == EnqueuedBy(s.enqueued, c) + InHand(s, c)
    ensures SaidBy(s, Speaking(d, SpeakAction.Enqueue), c) == []
  {
    assert Speak(s, d, SpeakAction.Enqueue).enqueued[..|s.enqueued|] == s.enqueued;
  }

  lemma SpeakEnqueues(s: State, d: ConnId, a: SpeakAction, c: ConnId, said: seq<Utterance>)
    requires Known(s, d) && CanSpeak(s, d, a) && EverySigned(s) && AllEnqueued(s, c, said)
    ensures AllEnqueued(Speak(s, d, a), c, said + SaidBy(s, Speaking(d, a), c))
  {
    if a.Enqueue? {
      EnqueueInHand(s, d, c);
    } else {
      TalkInHand(s, d, a, c);
    }
  }

  lemma OthersEnqueueNothing(s: State, step: Step, s': State, c: ConnId)
    requires Next(s, step) == Some(s') && !step.Speaking?
    ensures s'.enqueued == s.enqueued && InHand(s', c) == InHand(s, c)
  {
    StepFrame(s, step, s');
    if Busy(s, c) {
      OthersKeepBusy(s, step, s', c);
    }
  }

  lemma NothingSaidYet(c: ConnId)
    ensures AllEnqueued(INITIAL, c, [])
  {
  }

  lemma AllEnqueuedNext(ss: seq<State>, steps: seq<Step>, k: nat, c: ConnId)
    requires Execution(ss, steps) && k < |steps| && AllEnqueued(ss[k], c, Said(ss, steps, k, c))
    ensures AllEnqueued(ss[k + 1], c, Said(ss, steps, k + 1, c))
  {
    AlwaysSigned(ss, steps, k);
    StepTaken(ss, steps, k);
    if steps[k].Speaking? {
      SpeakEnqueues(ss[k], steps[k].c, steps[k].speech, c, Said(ss, steps, k, c));
    } else {
      OthersEnqueueNothing(ss[k], steps[k], ss[k + 1], c);
    }
  }

  /** Nothing that was accepted is lost, doubled, altered or overtaken on its way to the broadcast
      channel: in every reachable state, what a connection has said is what it has enqueued, in
      order, and then the packet that it has in hand, if any. */
  lemma SaidIsEnqueued(ss: seq<State>, steps: seq<Step>, n: nat, c: ConnId)
    requires Execution(ss, steps) && n <= |steps|
    ensures Said(ss, steps, n, c) == EnqueuedBy(ss[n].enqueued, c) + InHand(ss[n], c)
  {
    NothingSaidYet(c);
    for k := 0 to n
      invariant AllEnqueued(ss[k], c, Said(ss, steps, k, c))
    {
      AllEnqueuedNext(ss, steps, k, c);
    }
  }

  /** A push-to-talk packet in a room that another user holds changes nothing at all, and any
      other push-to-talk packet makes its user the holder. */
  lemma RefusedExactly(ss: seq<State>, steps: seq<Step>, i: nat, c: ConnId, room: RoomId, audio: Bytes,
                       decodes: bool, now: int)
    requires Execution(ss, steps) && i < |steps| && steps[i] == Speaking(c, SpeakPtt(room, audio, decodes, now))
    ensures c in ss[i].conns
    ensures ss[i + 1] == ss[i] <==> !CanTransmit(ss[i].voice, ss[i].conns[c].user, room)
    ensures CanTransmit(ss[i].voice, ss[i].conns[c].user, room) ==> Holds(ss[i + 1].voice, ss[i].conns[c].user, room)
  {
    StepTaken(ss, steps, i);
  }
}
