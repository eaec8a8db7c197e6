/** What every step of the relay leaves alone, and executions put together step by step: connections
    stay, with their users; nobody speaks, numbers, stores or enqueues anything in the steps of any
    other kind; only speaking and leaving touch the lock; and paths that take no time can be joined
    end to end, which is how executions that reach a given state are built. */
module RelayConnections {
  import opened Hub
  import opened Wrappers
  import opened Relay

  // ---- Connections stay, with their users ----

  /** The same connections, of the same users, of which the finished ones stay finished. */
  ghost predicate SameConnections(s: State, s': State) {
    && s'.conns.Keys == s.conns.Keys
    && forall c :: c in s.conns ==>
         s'.conns[c].user == s.conns[c].user && (s.conns[c].pc.Done? ==> s'.conns[c].pc.Done?)
  }

  /** Nobody takes the lock or a number. */
  ghost predicate NobodySpeaks(s: State, s': State) {
    forall c :: c in s'.conns && (s'.conns[c].pc.Numbering? || s'.conns[c].pc.Enqueueing?) ==>
      c in s.conns && s'.conns[c] == s.conns[c]
  }

  /** Nothing is said, numbered, stored or enqueued. */
  ghost predicate NothingSaid(s: State, s': State) {
    && s'.buffers == s.buffers && s'.numbered == s.numbered && s'.enqueued == s.enqueued
    && NobodySpeaks(s, s')
  }

  predicate IsNumber(step: Step) {
    step.Speaking? && step.speech.Number?
  }

  lemma SpeakFrame(s: State, c: ConnId, a: SpeakAction)
    requires Known(s, c) && CanSpeak(s, c, a)
    ensures var s' := Speak(s, c, a);
            && SameConnections(s, s')
            && (!a.Number? ==> s'.buffers == s.buffers && s'.numbered == s.numbered)
  {
  }

  /** Besides saying nothing, the step takes or gives up no lock. */
  ghost predicate Silent(s: State, s': State) {
    SameConnections(s, s') && s'.voice == s.voice && NothingSaid(s, s')
  }

  lemma PushFrame(s: State, c: ConnId)
    requires Known(s, c) && CanCatch(s, c, PushReplay)
    ensures Silent(s, Catch(s, c, PushReplay))
  {
  }

  lemma CatchFrame(s: State, c: ConnId, a: ReplayAction)
    requires Known(s, c) && CanCatch(s, c, a)
    ensures Silent(s, Catch(s, c, a))
  {
    if a.PushReplay? {
      PushFrame(s, c);
    }
  }

  lemma ChangeFrame(s: State, c: ConnId, a: RoomAction)
    requires Known(s, c) && CanChange(s, c, a)
    ensures Silent(s, Change(s, c, a))
  {
  }

  lemma ExitFrame(s: State, c: ConnId, a: ExitAction)
    requires Known(s, c) && CanExit(s, c, a)
    ensures var s' := Exit(s, c, a);
            SameConnections(s, s') && NothingSaid(s, s')
  {
  }

  lemma ReceiveFrame(s: State, e: HubEvent)
    requires HubReady(s, e) && (e.ReceiveRegister? || e.ReceiveUnregister?)
    ensures Silent(s, HubStep(s, e))
  {
  }

  lemma RegisterFrame(s: State)
    requires HubReady(s, FinishRegister)
    ensures Silent(s, HubStep(s, FinishRegister))
  {
  }

  lemma UnregisterFrame(s: State)
    requires HubReady(s, FinishUnregister)
    ensures Silent(s, HubStep(s, FinishUnregister))
  {
  }

  lemma DeliverFrame(s: State, c: ConnId)
    requires HubReady(s, DeliverTo(c))
    ensures Silent(s, HubStep(s, DeliverTo(c)))
  {
  }

  lemma HubFrame(s: State, e: HubEvent)
    requires HubReady(s, e)
    ensures Silent(s, HubStep(s, e))
  {
    match e
    case ReceiveRegister(_) => ReceiveFrame(s, e);
    case ReceiveUnregister(_) => ReceiveFrame(s, e);
    case FinishRegister => RegisterFrame(s);
    case FinishUnregister => UnregisterFrame(s);
    case DeliverTo(c) => DeliverFrame(s, c);
    case _ =>
  }

  /** What the steps of each kind leave alone. */
  lemma StepFrame(s: State, step: Step, s': State)
    requires Next(s, step) == Some(s')
    ensures !step.Connect? ==> SameConnections(s, s')
    ensures !step.Speaking? && !step.Leaving? ==> s'.voice == s.voice
    ensures !step.Speaking? && !step.Sweep? ==> NothingSaid(s, s')
    ensures !IsNumber(step) ==> s'.numbered == s.numbered && (!step.Sweep? ==> s'.buffers == s.buffers)
  {
    match step
    case InRoom(c, a) => ChangeFrame(s, c, a);
    case Speaking(c, a) => SpeakFrame(s, c, a);
    case Catching(c, a) => CatchFrame(s, c, a);
    case Leaving(c, a) => ExitFrame(s, c, a);
    case ByHub(e) => HubFrame(s, e);
    case _ =>
  }

  /** A connection never disappears and never changes its user; a finished one stays finished. */
  lemma ConnectionStays(s: State, step: Step, s': State, c: ConnId)
    requires Next(s, step) == Some(s') && c in s.conns
    ensures c in s'.conns && s'.conns[c].user == s.conns[c].user
    ensures s.conns[c].pc.Done? ==> s'.conns[c].pc.Done?
  {
    StepFrame(s, step, s');
  }

  lemma {:induction false} StillConnected(ss: seq<State>, steps: seq<Step>, i: nat, n: nat, c: ConnId)
    requires Path(ss, steps) && i <= n <= |steps| && c in ss[i].conns
    ensures c in ss[n].conns && ss[n].conns[c].user == ss[i].conns[c].user
    ensures ss[i].conns[c].pc.Done? ==> ss[n].conns[c].pc.Done?
    decreases n
  {
    if i < n {
      StillConnected(ss, steps, i, n - 1, c);
      StepTaken(ss, steps, n - 1);
      ConnectionStays(ss[n - 1], steps[n - 1], ss[n], c);
    }
  }

  /** c is about to number or to enqueue something. */
  predicate Busy(s: State, c: ConnId) {
    c in s.conns && (s.conns[c].pc.Numbering? || s.conns[c].pc.Enqueueing?)
  }

  lemma CatchKeepsBusy(s: State, d: ConnId, a: ReplayAction, c: ConnId)
    requires Known(s, d) && CanCatch(s, d, a) && Busy(s, c)
    ensures c in Catch(s, d, a).conns && Catch(s, d, a).conns[c] == s.conns[c]
  {
  }

  lemma HubKeepsBusy(s: State, e: HubEvent, c: ConnId)
    requires HubReady(s, e) && Busy(s, c)
    ensures c in HubStep(s, e).conns && HubStep(s, e).conns[c] == s.conns[c]
  {
  }

  lemma OthersKeepBusy(s: State, step: Step, s': State, c: ConnId)
    requires Next(s, step) == Some(s') && !step.Speaking? && Busy(s, c)
    ensures c in s'.conns && s'.conns[c] == s.conns[c]
  {
    match step
    case Catching(d, a) => CatchKeepsBusy(s, d, a, c);
    case ByHub(e) => HubKeepsBusy(s, e, c);
    case _ =>
  }

  // ---- Putting paths together ----

  ghost predicate NoConnect(steps: seq<Step>) {
    forall i: nat {:trigger StepAt(steps, i)} :: i < |steps| ==> !StepAt(steps, i).Connect?
  }

  /** Every clock reading is `now`. */
  ghost predicate AtInstant(now: int, steps: seq<Step>) {
    forall i: nat {:trigger StepAt(steps, i)} :: i < |steps| ==>
      ReadingOf(StepAt(steps, i)) == NoReading || ReadingOf(StepAt(steps, i)) == Read(now, now)
  }

  /** A path from s to s' that takes no time. */
  ghost predicate Leads(s: State, s': State, now: int, ss: seq<State>, steps: seq<Step>) {
    Path(ss, steps) && ss[0] == s && ss[|steps|] == s' && AtInstant(now, steps)
  }

  lemma {:induction false} InstantClock(now: int, steps: seq<Step>, n: nat)
    requires AtInstant(now, steps) && n <= |steps|
    ensures ClockAt(now, steps, n) == now
  {
    if n > 0 {
      InstantClock(now, steps, n - 1);
      assert StepAt(steps, n - 1) == steps[n - 1];
    }
  }

  lemma InstantInTime(now: int, steps: seq<Step>)
    requires AtInstant(now, steps)
    ensures InTime(now, steps)
  {
    forall i: nat | i < |steps| ensures StepInTime(ClockAt(now, steps, i), StepAt(steps, i)) {
      InstantClock(now, steps, i);
    }
  }

  lemma OneStep(s: State, a: Step, s1: State, now: int) returns (ss: seq<State>, steps: seq<Step>)
    requires Next(s, a) == Some(s1)
    requires ReadingOf(a) == NoReading || ReadingOf(a) == Read(now, now)
    ensures Leads(s, s1, now, ss, steps) && (!a.Connect? ==> NoConnect(steps))
  {
    ss, steps := [s, s1], [a];
  }

  lemma InstantJoins(ss: seq<State>, steps: seq<Step>, ss': seq<State>, steps': seq<Step>,
                     s: State, s1: State, s2: State, now: int)
    requires Leads(s, s1, now, ss, steps) && Leads(s1, s2, now, ss', steps')
    ensures Leads(s, s2, now, ss + ss'[1..], steps + steps')
    ensures NoConnect(steps) && NoConnect(steps') ==> NoConnect(steps + steps')
  {
    Join(ss, steps, ss', steps');
    forall i: nat | i < |steps + steps'|
      ensures StepAt(steps + steps', i) == if i < |steps| then StepAt(steps, i) else StepAt(steps', i - |steps|)
    {
    }
  }

  lemma TwoSteps(s: State, a: Step, s1: State, b: Step, s2: State, now: int)
    returns (ss: seq<State>, steps: seq<Step>)
    requires Next(s, a) == Some(s1) && Next(s1, b) == Some(s2)
    requires ReadingOf(a) == NoReading || ReadingOf(a) == Read(now, now)
    requires ReadingOf(b) == NoReading || ReadingOf(b) == Read(now, now)
    ensures Leads(s, s2, now, ss, steps) && (!a.Connect? && !b.Connect? ==> NoConnect(steps))
  {
    var ss1, steps1 := OneStep(s, a, s1, now);
    var ss2, steps2 := OneStep(s1, b, s2, now);
    InstantJoins(ss1, steps1, ss2, steps2, s, s1, s2, now);
    ss, steps := ss1 + ss2[1..], steps1 + steps2;
  }

  lemma Join(ss: seq<State>, steps: seq<Step>, ss': seq<State>, steps': seq<Step>)
    requires Path(ss, steps) && Path(ss', steps') && ss[|steps|] == ss'[0]
    ensures Path(ss + ss'[1..], steps + steps')
    ensures (ss + ss'[1..])[|steps + steps'|] == ss'[|steps'|]
  {
    forall i: nat | i < |steps + steps'|
      ensures Next((ss + ss'[1..])[i], StepAt(steps + steps', i)) == Some((ss + ss'[1..])[i + 1])
    {
      if i < |steps| {
        assert StepAt(steps, i) == StepAt(steps + steps', i);
      } else {
        assert StepAt(steps', i - |steps|) == StepAt(steps + steps', i);
      }
    }
  }
}
