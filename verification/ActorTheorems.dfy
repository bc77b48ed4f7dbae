/** Receive accounting over whole runs of the actor. */
module ActorTheorems {
  import opened Results
  import opened Wire
  import Session
  import Sched = Scheduler
  import opened Actor
  import opened ActorOutbound
  import opened ActorRuns
  import opened ActorReceive
  import opened ActorAccounting

  lemma NextBooks(a: State, e: Event)
    requires Inv(a) && Books(a) && EventOk(e) && Next(a, e).Some?
    ensures Books(Next(a, e).value)
  {
    match e
    case Command_(generation, token, call) =>
      if !a.awaitingRestart { CommandSettled(a, token, call); }
    case Inbound(frame, reading) => InboundSettled(a, frame, reading);
    case Dequeue(written) =>
      if !a.awaitingRestart { DequeueSettled(a, written); }
  }

  lemma StepBooks(a: State, e: Event, b: State)
    requires Inv(a) && Books(a) && Step(a, e, b)
    ensures Books(b)
  {
    NextBooks(a, e);
  }

  lemma StartBooks(states: seq<State>, events: seq<Event>)
    requires IsRun(states, events)
    ensures Books(states[0])
  {
    var state, restartable :| Renewed(state) && states[0] == Start(state, restartable);
    RenewedBalances(states[0]);
  }

  ghost predicate Sound(a: State) { Inv(a) && Books(a) }

  lemma StepSound(a: State, e: Event, b: State)
    requires Sound(a) && Step(a, e, b)
    ensures Sound(b)
  {
    StepInv(a, e, b);
    StepBooks(a, e, b);
  }

  lemma StartSound(states: seq<State>, events: seq<Event>)
    requires IsRun(states, events)
    ensures Sound(states[0])
  {
    RunInv(states, events, 0);
    StartBooks(states, events);
  }

  lemma {:induction false} RunSound(states: seq<State>, events: seq<Event>, n: nat)
    requires IsRun(states, events) && n < |states|
    ensures Sound(states[n])
  {
    if n == 0 {
      StartSound(states, events);
    } else {
      RunSound(states, events, n - 1);
      assert Step(states[n - 1], events[n - 1], states[n]);
      StepSound(states[n - 1], events[n - 1], states[n]);
    }
  }

  lemma RunBooks(states: seq<State>, events: seq<Event>, n: nat)
    requires IsRun(states, events) && n < |states|
    ensures Inv(states[n]) && Books(states[n])
  {
    RunSound(states, events, n);
  }

  /** Connection credit, unread DATA and DATA dropped with retired streams make up the advertised
      window, in every state of every run. */
  lemma ConnectionBalances(states: seq<State>, events: seq<Event>, n: nat)
    requires IsRun(states, events) && n < |states| && !states[n].awaitingRestart
    ensures var a := states[n];
      a.core.state.conn.receiveCredit + Unread(a.streams) + a.dropped == a.core.state.conn.receiveLimit
  {
    RunBooks(states, events, n);
  }

  /** An accepted stream is known to the actor, and its unread DATA plus its wire credit stay
      within its receive window. */
  lemma StreamWithinWindow(states: seq<State>, events: seq<Event>, n: nat, id: u32)
    requires IsRun(states, events) && n < |states| && !states[n].awaitingRestart
    requires id in states[n].core.state.streams && states[n].core.state.streams[id].phase == Session.Accepted
    ensures id in states[n].streams
    ensures var e, x := states[n].streams[id], states[n].core.state.streams[id];
      e.inboxBytes == DataBytes(e.inbox) && DataBytes(e.inbox) + x.receiveCredit <= e.receiveWindow <= x.receiveLimit
  {
    RunBooks(states, events, n);
    NoDebt(states[n].core.state, states[n].streams, states[n].dropped, 0, id);
    assert BookAt(states[n].core.state.streams[id], states[n].streams, id, 0);
  }

  // ---------------------------------------------------------------- returning credit

  /** A counter that has run out of numbers. */
  predicate Exhausted(core: Core, id: u32) { core.NextSequence(id) == U32_MAX }

  lemma CreditAccepted(core: Core, id: u32, delta: u32)
    requires core.sched.Shaped() && Agrees(core, id) && !Exhausted(core, id)
    requires core.state.conn.OnlineOrGoing() && 0 < delta <= core.state.config.limits.maxWindow
    requires id == 0 ==> core.state.conn.receiveCredit + delta <= core.state.conn.receiveLimit
    requires id != 0 ==> id in core.state.streams && core.state.streams[id].phase == Session.Accepted
                         && core.state.streams[id].receiveCredit + delta <= core.state.streams[id].receiveLimit
    ensures core.QueueCredit(id, delta).Ok? || core.QueueCredit(id, delta) == Err(QueueFull)
  {
  }

  lemma CreditLeavesConnection(core: Core, id: u32, delta: u32, core': Core)
    requires Sched.Valid(core.sched) && QueueOk(core) && core.QueueCredit(id, delta) == Ok(core') && id != 0
    ensures core'.state.conn == core.state.conn && core'.state.config == core.state.config
    ensures core'.NextSequence(0) == core.NextSequence(0) && (Agrees(core, 0) ==> Agrees(core', 0))
    ensures Sched.Valid(core'.sched)
  {
    var item := EmitSpec(core, NewHeader(Credit, id, 0).(creditDelta := delta), [], Sched.Control, Session.NoContext,
      core');
    ProcessApplies(core.state, Session.Outbound, item.frame.header, Session.NoContext, core'.state);
  }

  /** Returning the credit of a frame in hand cannot overflow a window: it fails only for want
      of sequence numbers or of room in the scheduler. */
  lemma RestoreFailsOnlyWhenFull(a: State, frame: Frame)
    requires Inv(a) && !a.awaitingRestart && InHand(a, frame)
    ensures var r := a.core.RestoreConsumed(frame);
      r.Ok? || r.error == QueueFull || Exhausted(a.core, 0) || Exhausted(a.core, frame.header.streamId)
  {
    var core, id, n := a.core, frame.header.streamId, frame.header.payloadLength;
    if Carried(frame) != 0 && !Exhausted(core, 0) && !Exhausted(core, id) {
      assert Agrees(core, 0) && Agrees(core, id);
      var stream := core.state.Stream(id);
      if !frame.header.EndStream() && stream.Some? && stream.value.phase == Session.Accepted {
        assert BookAt(core.state.streams[id], a.streams, id, n);
        CreditAccepted(core, id, n);
        if core.QueueCredit(id, n).Ok? {
          CreditLeavesConnection(core, id, n, core.QueueCredit(id, n).value);
          CreditAccepted(core.QueueCredit(id, n).value, 0, n);
        }
      } else {
        CreditAccepted(core, 0, n);
      }
    }
  }

  // ---------------------------------------------------------------- deliveries

  /** A DATA, CLOSE or RESET frame that the validator of a running actor accepts. */
  ghost predicate Arrives(states: seq<State>, events: seq<Event>, n: nat, frame: Frame) {
    && IsRun(states, events) && n < |states| && !states[n].awaitingRestart
    && frame.header.payloadLength == |frame.payload|
    && (frame.header.command == Data || TerminalFrame(frame))
    && states[n].core.state.Process(Session.Inbound, frame.header, Session.NoContext).Ok?
  }

  /** The actor after the validator's step. */
  function Admit(a: State, frame: Frame): State
    requires a.core.state.Process(Session.Inbound, frame.header, Session.NoContext).Ok?
  {
    a.(core := a.core.(state := a.core.state.Process(Session.Inbound, frame.header, Session.NoContext).value))
  }

  lemma AdmitInv(a: State, frame: Frame)
    requires Inv(a) && a.core.state.Process(Session.Inbound, frame.header, Session.NoContext).Ok?
    ensures Inv(Admit(a, frame))
  {
    ProcessKeepsSequences(a.core.state, Session.Inbound, frame.header, Session.NoContext);
    StateKeeps(a.core, Admit(a, frame).core.state);
    Reassemble(a, Admit(a, frame).core, a.streams);
  }

  /** Only a RESET can be accepted for a stream without an inbox, save for discarded DATA. */
  lemma AdmitInHand(a: State, frame: Frame)
    requires Sched.Valid(a.core.sched) && Balanced(a) && frame.header.payloadLength == |frame.payload|
    requires frame.header.command == Data || TerminalFrame(frame)
    requires a.core.state.Process(Session.Inbound, frame.header, Session.NoContext).Ok?
    ensures InHand(Admit(a, frame), frame) && frame.header.streamId in a.core.state.streams
    ensures frame.header.command == Command.Reset || Late(a, frame) || frame.header.streamId in a.streams
  {
    var id, s := frame.header.streamId, Admit(a, frame).core.state;
    ProcessApplies(a.core.state, Session.Inbound, frame.header, Session.NoContext, s);
    if frame.header.command == Data { DataSettled(a, frame, s); } else { QuietSettled(a, frame, s); }
    NoDebt(a.core.state, a.streams, a.dropped, 0, id);
    assert BookAt(a.core.state.streams[id], a.streams, id, 0);
  }

  lemma ArrivesInHand(states: seq<State>, events: seq<Event>, n: nat, frame: Frame)
    requires Arrives(states, events, n, frame)
    ensures Inv(Admit(states[n], frame)) && InHand(Admit(states[n], frame), frame)
    ensures frame.header.streamId in states[n].core.state.streams
    ensures frame.header.command == Command.Reset || Late(states[n], frame)
          || frame.header.streamId in states[n].streams
  {
    RunBooks(states, events, n);
    AdmitInv(states[n], frame);
    AdmitInHand(states[n], frame);
  }

  lemma HandledAsAdmitted(a: State, frame: Frame, reading: Reading)
    requires a.core.sched.Shaped() && !a.awaitingRestart && (frame.header.command == Data || TerminalFrame(frame))
    requires a.core.state.Process(Session.Inbound, frame.header, Session.NoContext).Ok?
    ensures !Late(a, frame) ==> HandleInbound(a, frame, reading) == Deliver(Admit(a, frame), frame)
    ensures Late(a, frame) ==>
      var r := Admit(a, frame).core.RestoreConsumed(frame);
      HandleInbound(a, frame, reading) ==
        if r.Ok? then Calm(Admit(a, frame).(core := r.value)) else Break(Admit(a, frame), r.error)
  {
  }

  /** Accepted DATA is never refused for want of room: without a waiting receiver it is stored
      behind what is unread, and no step fails. */
  lemma AcceptedDataFits(states: seq<State>, events: seq<Event>, n: nat, frame: Frame, reading: Reading)
    requires Arrives(states, events, n, frame) && frame.header.command == Data && !Late(states[n], frame)
    ensures frame.header.streamId in states[n].streams && states[n].core.sched.Shaped()
    ensures states[n].streams[frame.header.streamId].receiver.None? ==>
      var t := HandleInbound(states[n], frame, reading);
      && t.failure.None? && frame.header.streamId in t.a.streams
      && t.a.streams[frame.header.streamId].inbox == states[n].streams[frame.header.streamId].inbox + [frame]
  {
    var a := states[n];
    ArrivesInHand(states, events, n, frame);
    HandledAsAdmitted(a, frame, reading);
    ProcessData(a.core.state, frame.header, Admit(a, frame).core.state);
    StoreBooks(Admit(a, frame).core.state, a.streams, a.dropped, frame);
  }

  lemma RestoreErrors(core: Core, frame: Frame)
    requires core.sched.Shaped() && core.RestoreConsumed(frame).Err?
    ensures core.RestoreConsumed(frame).error == Protocol || core.RestoreConsumed(frame).error == QueueFull
  {
  }

  lemma DeliverUnknown(a: State, frame: Frame)
    requires a.core.sched.Shaped()
    ensures Deliver(a, frame).failure == Some(UnknownStream(frame.header.streamId)) <==>
      frame.header.streamId !in a.streams
  {
    var id := frame.header.streamId;
    if id in a.streams && a.streams[id].receiver.Some? && a.core.RestoreConsumed(frame).Err? {
      RestoreErrors(a.core, frame);
    }
  }

  /** A frame for a stream the actor has forgotten ends the session exactly when it is a RESET. */
  lemma UnknownStreamIffLateReset(states: seq<State>, events: seq<Event>, n: nat, frame: Frame, reading: Reading)
    requires Arrives(states, events, n, frame)
    ensures states[n].core.sched.Shaped()
    ensures HandleInbound(states[n], frame, reading).failure == Some(UnknownStream(frame.header.streamId))
       <==> frame.header.command == Command.Reset && frame.header.streamId !in states[n].streams
  {
    ArrivesInHand(states, events, n, frame);
    HandledAsAdmitted(states[n], frame, reading);
    var b := Admit(states[n], frame);
    DeliverUnknown(b, frame);
    if b.core.RestoreConsumed(frame).Err? { RestoreErrors(b.core, frame); }
  }

  /** CLOSE and RESET have no credit of their own: they overrun the inbox exactly when their
      payload does not fit beside what is unread. */
  lemma InboxFullIffTerminalPayload(states: seq<State>, events: seq<Event>, n: nat, frame: Frame, reading: Reading)
    requires Arrives(states, events, n, frame) && !Late(states[n], frame)
    requires frame.header.streamId in states[n].streams && states[n].streams[frame.header.streamId].receiver.None?
    ensures states[n].core.sched.Shaped()
    ensures var e := states[n].streams[frame.header.streamId];
      HandleInbound(states[n], frame, reading).failure == Some(QueueFull)
      <==> TerminalFrame(frame) && e.inboxBytes + |frame.payload| > e.receiveWindow
  {
    ArrivesInHand(states, events, n, frame);
    HandledAsAdmitted(states[n], frame, reading);
    if frame.header.command == Data { AcceptedDataFits(states, events, n, frame, reading); }
  }

  /** DATA handed straight to a receiver, or discarded on a finished stream, fails only when its
      credit cannot be queued. */
  lemma DataFailsOnlyWhenFull(states: seq<State>, events: seq<Event>, n: nat, frame: Frame, reading: Reading)
    requires Arrives(states, events, n, frame) && frame.header.command == Data
    ensures states[n].core.sched.Shaped()
    ensures var t := HandleInbound(states[n], frame, reading);
      || t.failure.None? || t.failure == Some(QueueFull)
      || Exhausted(states[n].core, 0) || Exhausted(states[n].core, frame.header.streamId)
  {
    var a, id := states[n], frame.header.streamId;
    ArrivesInHand(states, events, n, frame);
    HandledAsAdmitted(a, frame, reading);
    var b := Admit(a, frame);
    RestoreFailsOnlyWhenFull(b, frame);
    if !Late(a, frame) {
      AcceptedDataFits(states, events, n, frame, reading);
    }
  }

  /** Reading an unread frame fails only when its credit cannot be queued. */
  lemma ReceiveFailsOnlyWhenFull(states: seq<State>, events: seq<Event>, n: nat, id: u32, w: Waiter)
    requires IsRun(states, events) && n < |states| && !states[n].awaitingRestart
    requires id in states[n].streams && states[n].streams[id].receiver.None?
    ensures states[n].core.sched.Shaped()
    ensures var t := ReceiveOrWait(states[n], id, w);
      || t.failure.None? || t.failure == Some(QueueFull)
      || Exhausted(states[n].core, 0) || Exhausted(states[n].core, id)
  {
    var a := states[n];
    RunBooks(states, events, n);
    if a.streams[id].inbox != [] {
      var b := a.(streams := a.streams[id := a.streams[id].Popped()]);
      assert EntryOk(id, a.streams[id]);
      SetStreams(a, id, a.streams[id].Popped());
      PopBooks(a.core.state, a.streams, a.dropped, id);
      RestoreFailsOnlyWhenFull(b, a.streams[id].inbox[0]);
    }
  }
}
