/** Sends that wait for credit, over whole runs: in every state each of them lacks it. */
module ActorWaiting {
  import opened Results
  import opened Wire
  import Session
  import Sched = Scheduler
  import opened Actor
  import opened ActorOutbound
  import opened ActorRuns
  import opened ActorReceive
  import opened ActorTheorems
  import opened ActorInbox
  import opened ActorDelivery

  // ---------------------------------------------------------------- sends that wait

  predicate Pending(a: State, id: u32) { id in a.streams && a.streams[id].pendingSend.Some? }

  /** A send that waits lacks stream or connection credit. */
  ghost predicate Starved(a: State, id: u32) {
    Pending(a, id) ==> !a.core.HasSendCredit(id, |a.streams[id].pendingSend.value.payload|)
  }

  /** Nobody sends on a stream whose peer has not answered yet. */
  predicate Unanswered(s: Session.State, id: u32) {
    id in s.streams && s.streams[id].phase == Session.Opening && s.streams[id].initiatedByLocal
  }

  ghost predicate Patient(a: State, id: u32) {
    (id in a.streams ==> id in a.core.state.streams) && (Unanswered(a.core.state, id) ==> !Pending(a, id))
  }

  /** No send credit was gained, and the stream did not begin to wait for its answer. */
  ghost predicate Poorer(s: Session.State, t: Session.State, id: u32) {
    && t.conn.sendCredit <= s.conn.sendCredit && SameAnswer(s, t, id)
    && (id in s.streams ==> t.streams[id].sendCredit <= s.streams[id].sendCredit)
  }

  ghost predicate SameAnswer(s: Session.State, t: Session.State, id: u32) {
    id in s.streams ==> id in t.streams && (Unanswered(t, id) ==> Unanswered(s, id))
  }

  lemma ProcessPoorer(s: Session.State, dir: Session.Direction, h: Header, context: Session.FrameContext,
                      t: Session.State, id: u32)
    requires s.Process(dir, h, context) == Ok(t)
    requires dir == Session.Inbound ==> h.command != Credit && h.command != Command.Accept && s.conn.OnlineOrGoing()
    ensures Poorer(s, t, id)
  {
    ProcessApplies(s, dir, h, context, t);
    if h.streamId != 0 && h.command != Command.Open { StreamPoorer(s.streams[h.streamId], dir, h, context, s.conn); }
  }

  lemma StreamPoorer(x: Session.Stream, dir: Session.Direction, h: Header, context: Session.FrameContext,
                     connection: Session.Connection)
    requires x.Apply(dir, h, context, connection).Ok?
    requires dir == Session.Inbound ==> h.command != Credit && h.command != Command.Accept
    ensures var y := x.Apply(dir, h, context, connection).value;
      && y.sendCredit <= x.sendCredit && y.initiatedByLocal == x.initiatedByLocal
      && (y.phase == Session.Opening ==> x.phase == Session.Opening)
  {
  }

  lemma EmitPoorer(core: Core, h: Header, payload: seq<byte>, class_: Sched.TrafficClass, context: Session.FrameContext,
                   id: u32)
    requires core.sched.Shaped() && core.Emit(h, payload, class_, context).Ok?
    ensures Poorer(core.state, core.Emit(h, payload, class_, context).value.state, id)
  {
    var header := h.(sequence := core.NextSequence(h.streamId), payloadLength := |payload|);
    ProcessPoorer(core.state, Session.Outbound, header, context,
                  core.Emit(h, payload, class_, context).value.state, id);
  }

  lemma QueuePoorer(core: Core, command: Command, home: u32, payload: seq<byte>, end: bool, class_: Sched.TrafficClass,
                    context: Session.FrameContext, id: u32)
    requires core.sched.Shaped() && core.QueueFrame(command, home, payload, end, class_, context).Ok?
    ensures Poorer(core.state, core.QueueFrame(command, home, payload, end, class_, context).value.state, id)
  {
    EmitPoorer(core, NewHeader(command, home, 0).(flags := if end then 1 else 0), payload,
               if Sched.ForCommand(command) == Sched.Control then Sched.Control else class_, context, id);
  }

  lemma CreditPoorer(core: Core, home: u32, delta: u32, id: u32)
    requires core.sched.Shaped() && core.QueueCredit(home, delta).Ok?
    ensures Poorer(core.state, core.QueueCredit(home, delta).value.state, id)
  {
    EmitPoorer(core, NewHeader(Credit, home, 0).(creditDelta := delta), [], Sched.Control, Session.NoContext, id);
  }

  lemma RestorePoorer(core: Core, frame: Frame, id: u32)
    requires core.sched.Shaped() && core.RestoreConsumed(frame).Ok?
    ensures Poorer(core.state, core.RestoreConsumed(frame).value.state, id)
  {
    var h := frame.header;
    if h.command == Data && h.payloadLength != 0 {
      var useful := !h.EndStream() && core.state.Stream(h.streamId).Some?
                    && core.state.Stream(h.streamId).value.phase == Session.Accepted;
      var first := if useful then core.QueueCredit(h.streamId, h.payloadLength) else Ok(core);
      if useful { CreditPoorer(core, h.streamId, h.payloadLength, id); }
      CreditPoorer(first.value, 0, h.payloadLength, id);
    }
  }

  /** Streams keep or lose what waits on them. */
  ghost predicate SamePending(a: State, b: State, id: u32) {
    id in b.streams ==> id in a.streams && b.streams[id].pendingSend == a.streams[id].pendingSend
  }

  ghost predicate Waits(a: State, id: u32) { Starved(a, id) && Patient(a, id) }

  lemma StillWaits(a: State, b: State, id: u32)
    requires Patient(a, id) && SamePending(a, b, id) && Poorer(a.core.state, b.core.state, id)
    ensures Patient(b, id)
    ensures Starved(a, id) ==> Starved(b, id)
  {
  }

  // ---------------------------------------------------------------- handlers

  lemma HandOverWaits(a: State, b: State, home: u32, frame: Frame, w: Waiter, id: u32)
    requires a.core.sched.Shaped() && Waits(a, id) && SamePending(a, b, id) && b.core == a.core
    ensures var t := HandOver(b, home, frame, w); t.failure.None? ==> Waits(t.a, id)
  {
    var t := HandOver(b, home, frame, w);
    if t.failure.None? {
      RestorePoorer(a.core, frame, id);
      StillWaits(a, t.a, id);
    }
  }

  lemma ReceiveWaits(a: State, home: u32, w: Waiter, id: u32)
    requires a.core.sched.Shaped() && Waits(a, id) && home in a.streams
    ensures var t := ReceiveOrWait(a, home, w); t.failure.None? ==> Waits(t.a, id)
  {
    var entry := a.streams[home];
    if entry.receiver.None? && entry.inbox != [] {
      HandOverWaits(a, a.(streams := a.streams[home := entry.Popped()]), home, entry.inbox[0], w, id);
    }
  }

  lemma DeliverWaits(a: State, frame: Frame, id: u32)
    requires a.core.sched.Shaped() && Waits(a, id)
    ensures var t := Deliver(a, frame); t.failure.None? ==> Waits(t.a, id)
  {
    var home := frame.header.streamId;
    if home in a.streams && a.streams[home].receiver.Some? {
      var entry := a.streams[home];
      var b := a.(streams := a.streams[home := entry.(receiver := None)]);
      HandOverWaits(a, b, home, frame, entry.receiver.value, id);
    }
  }

  /** The send on `home` leaves; nothing else gains. */
  lemma SendNowWaits(a: State, b: State, home: u32, class_: Sched.TrafficClass, payload: seq<byte>, end: bool,
                     w: Waiter, id: u32)
    requires a.core.sched.Shaped() && Patient(a, id) && b.core == a.core
    requires SamePending(a, b, id) || (id in b.streams && b.streams[id].pendingSend.None? && id in a.streams)
    ensures var t := SendNow(b, home, class_, payload, end, w);
      t.failure.None? ==> Patient(t.a, id) && (Starved(a, id) || !Pending(b, id) ==> Starved(t.a, id))
  {
    var t := SendNow(b, home, class_, payload, end, w);
    if t.failure.None? {
      QueuePoorer(a.core, Data, home, payload, end, class_, Session.NoContext, id);
      if SamePending(a, b, id) { StillWaits(a, t.a, id); }
    }
  }

  lemma SendWaits(a: State, home: u32, payload: seq<byte>, end: bool, w: Waiter, id: u32)
    requires a.core.sched.Shaped() && Waits(a, id) && home in a.streams && !Unanswered(a.core.state, home)
    ensures var t := SendOrWait(a, home, payload, end, w); t.failure.None? ==> Waits(t.a, id)
  {
    if a.core.HasSendCredit(home, |payload|) {
      SendNowWaits(a, a, home, a.streams[home].class_, payload, end, w, id);
    }
  }

  lemma OpenWaits(a: State, token: nat, payload: seq<byte>, window: u32, class_: Sched.TrafficClass, id: u32)
    requires a.core.sched.Shaped() && Waits(a, id)
    ensures var t := OpenStream(a, token, payload, window, class_); t.failure.None? ==> Waits(t.a, id)
  {
    var t := OpenStream(a, token, payload, window, class_);
    if t.failure.None? {
      var (s, home) := a.core.state.AllocateStreamId().value;
      var core := a.core.(state := s);
      QueuePoorer(core, Command.Open, home, payload, false, class_, Session.NoContext, id);
      if id == home { OpenKnown(core, home, payload, class_); }
      else { StillWaits(a, t.a, id); }
    }
  }

  lemma OpenKnown(core: Core, home: u32, payload: seq<byte>, class_: Sched.TrafficClass)
    requires core.sched.Shaped()
    requires core.QueueFrame(Command.Open, home, payload, false, class_, Session.NoContext).Ok?
    ensures home in core.QueueFrame(Command.Open, home, payload, false, class_, Session.NoContext).value.state.streams
  {
  }

  lemma StreamCommandWaits(a: State, token: nat, call: Call, id: u32)
    requires a.core.sched.Shaped() && Waits(a, id) && (call.Accept? || call.Reject? || call.Close? || call.Reset?)
    ensures var t := HandleCommand(a, token, call); t.failure.None? ==> Waits(t.a, id)
  {
    var t := HandleCommand(a, token, call);
    if t.failure.None? && call.id in a.streams {
      match call
      case Accept(home, payload, window, class_) =>
        QueuePoorer(a.core, Command.Accept, home, payload, false, Sched.Control,
                    Session.FrameContext(None, Some(window)), id);
      case Reject(home, payload) =>
        QueuePoorer(a.core, Command.Reject, home, payload, false, Sched.Control, Session.NoContext, id);
      case Close(home) =>
        QueuePoorer(a.core, Command.Close, home, [], false, Sched.Control, Session.NoContext, id);
      case Reset(home, payload) =>
        QueuePoorer(a.core, Command.Reset, home, payload, false, Sched.Control, Session.NoContext, id);
      StillWaits(a, t.a, id);
    }
  }

  lemma ControlWaits(a: State, token: nat, call: Call, id: u32)
    requires a.core.sched.Shaped() && Waits(a, id) && (call.GoAway? || call.Ping?)
    ensures var t := HandleCommand(a, token, call); t.failure.None? ==> Waits(t.a, id)
  {
    var t := HandleCommand(a, token, call);
    if t.failure.None? {
      if call.Ping? {
        QueuePoorer(a.core, Command.Ping, 0, call.payload, false, Sched.Control, Session.NoContext, id);
      } else if a.pendingGoAway.None? {
        QueuePoorer(a.core, Command.GoAway, 0, [], false, Sched.Control, Session.NoContext, id);
      }
      StillWaits(a, t.a, id);
    }
  }

  lemma CommandWaits(a: State, token: nat, call: Call, id: u32)
    requires a.core.sched.Shaped() && Waits(a, id) && (call.SendData? ==> !Unanswered(a.core.state, call.id))
    ensures var t := HandleCommand(a, token, call); t.failure.None? ==> Waits(t.a, id)
  {
    match call
    case Open(payload, window, class_) => OpenWaits(a, token, payload, window, class_, id);
    case SendData(home, payload, end) =>
      if home in a.streams { SendWaits(a, home, payload, end, Waiter(token, ToSend(home, payload, end)), id); }
    case Receive(home) => if home in a.streams { ReceiveWaits(a, home, Waiter(token, ToReceive(home)), id); }
    case CancelReceive(_) =>
    case GoAway => ControlWaits(a, token, call, id);
    case Ping(_) => ControlWaits(a, token, call, id);
    case _ => StreamCommandWaits(a, token, call, id);
  }

  // ---------------------------------------------------------------- flushing

  /** A flushed stream has no send waiting, or not the credit for it. */
  lemma FlushWaits(a: State, home: u32, id: u32)
    requires a.core.sched.Shaped() && Patient(a, id)
    ensures var t := FlushPending(a, home);
      t.failure.None? ==> Patient(t.a, id) && (Starved(a, id) || id == home ==> Starved(t.a, id))
  {
    if Pending(a, home) {
      var entry := a.streams[home];
      var p := entry.pendingSend.value;
      var b := a.(streams := a.streams[home := entry.(pendingSend := None)]);
      SendNowWaits(a, b, home, entry.class_, p.payload, p.end, p.waiter, id);
    }
  }

  lemma {:induction false} FlushAllWaits(a: State, ids: seq<u32>, id: u32)
    requires a.core.sched.Shaped() && Patient(a, id)
    ensures var t := FlushAll(a, ids);
      t.failure.None? ==> Patient(t.a, id) && (Starved(a, id) || id in ids ==> Starved(t.a, id))
    decreases |ids|
  {
    if ids != [] {
      var first := FlushPending(a, ids[0]);
      FlushWaits(a, ids[0], id);
      if first.failure.None? { FlushAllWaits(first.a, ids[1..], id); }
    }
  }

  // ---------------------------------------------------------------- inbound frames

  /** Credit for one stream helps no other; credit for the connection changes no stream. */
  lemma CreditTaken(s: Session.State, h: Header, context: Session.FrameContext, t: Session.State, id: u32)
    requires s.Process(Session.Inbound, h, context) == Ok(t) && h.command == Credit
    ensures SameAnswer(s, t, id)
    ensures h.streamId != 0 && h.streamId != id ==> Poorer(s, t, id)
  {
    ProcessApplies(s, Session.Inbound, h, context, t);
  }

  /** ACCEPT answers a stream that was waiting for it. */
  lemma AcceptTaken(s: Session.State, h: Header, context: Session.FrameContext, t: Session.State, id: u32)
    requires s.Process(Session.Inbound, h, context) == Ok(t) && h.command == Command.Accept
    ensures Unanswered(s, h.streamId) && h.streamId in t.streams && !Unanswered(t, h.streamId)
    ensures h.streamId != id ==> Poorer(s, t, id)
  {
    ProcessApplies(s, Session.Inbound, h, context, t);
  }

  lemma GrantWaits(a: State, frame: Frame, reading: Reading, s: Session.State, id: u32)
    requires a.core.sched.Shaped() && Waits(a, id) && frame.header.command == Credit
    requires a.core.state.Process(Session.Inbound, frame.header, Session.NoContext) == Ok(s)
    requires Pending(a, id) ==> id in reading.ids
    ensures var t := Dispatch(a.(core := a.core.(state := s)), frame, reading, false);
      t.failure.None? ==> Waits(t.a, id)
  {
    var b := a.(core := a.core.(state := s));
    var home := frame.header.streamId;
    CreditTaken(a.core.state, frame.header, Session.NoContext, s, id);
    assert Patient(b, id) && (home != 0 && home != id ==> Starved(b, id));
    if home == 0 { FlushAllWaits(b, reading.ids, id); } else { FlushWaits(b, home, id); }
  }

  lemma AnswerWaits(a: State, frame: Frame, reading: Reading, context: Session.FrameContext, s: Session.State,
                    id: u32)
    requires a.core.sched.Shaped() && Waits(a, id) && frame.header.command == Command.Accept
    requires a.core.state.Process(Session.Inbound, frame.header, context) == Ok(s)
    ensures var t := Dispatch(a.(core := a.core.(state := s)), frame, reading, false);
      t.failure.None? ==> Waits(t.a, id)
  {
    var b := a.(core := a.core.(state := s));
    var home := frame.header.streamId;
    var t := CompleteOpen(b, home);
    AcceptedWaits(a, b, frame, context, s, id);
    if t.failure.None? {
      CreditPoorer(b.core, home, b.streams[home].receiveWindow, id);
      StillWaits(b, t.a, id);
    }
  }

  lemma AcceptedWaits(a: State, b: State, frame: Frame, context: Session.FrameContext, s: Session.State, id: u32)
    requires Waits(a, id) && frame.header.command == Command.Accept && b == a.(core := a.core.(state := s))
    requires a.core.state.Process(Session.Inbound, frame.header, context) == Ok(s)
    ensures Waits(b, id)
  {
    AcceptTaken(a.core.state, frame.header, context, s, id);
    if id != frame.header.streamId { StillWaits(a, b, id); }
  }

  lemma PlainWaits(b: State, frame: Frame, reading: Reading, late: bool, id: u32)
    requires b.core.sched.Shaped() && Waits(b, id)
    requires late || (!frame.header.command.Credit? && !frame.header.command.Accept? && !frame.header.command.Open?)
    ensures var t := Dispatch(b, frame, reading, late); t.failure.None? && !t.a.awaitingRestart ==> Waits(t.a, id)
  {
    var t := Dispatch(b, frame, reading, late);
    if late {
      if t.failure.None? { RestorePoorer(b.core, frame, id); StillWaits(b, t.a, id); }
    } else {
      match frame.header.command
      case Data => DeliverWaits(b, frame, id);
      case Close => DeliverWaits(b, frame, id);
      case Reset => DeliverWaits(b, frame, id);
      case Ping =>
        if t.failure.None? {
          QueuePoorer(b.core, Command.Pong, 0, frame.payload, false, Sched.Control, Session.NoContext, id);
          StillWaits(b, t.a, id);
        }
      case GoAway => if t.failure.None? { LeavingMode(b); }
      case _ =>
    }
  }

  lemma NewcomerWaits(a: State, frame: Frame, reading: Reading, s: Session.State, id: u32)
    requires a.core.sched.Shaped() && Waits(a, id) && frame.header.command == Command.Open
    requires a.core.state.Process(Session.Inbound, frame.header, Session.NoContext) == Ok(s)
    requires a.core.state.conn.OnlineOrGoing()
    ensures var t := Dispatch(a.(core := a.core.(state := s)), frame, reading, false);
      t.failure.None? ==> Waits(t.a, id)
  {
    var b := a.(core := a.core.(state := s));
    var t := Dispatch(b, frame, reading, false);
    ProcessPoorer(a.core.state, Session.Inbound, frame.header, Session.NoContext, s, id);
    ProcessApplies(a.core.state, Session.Inbound, frame.header, Session.NoContext, s);
    if t.failure.None? && id != frame.header.streamId { StillWaits(a, t.a, id); }
  }

  lemma TakenWaits(a: State, frame: Frame, reading: Reading, context: Session.FrameContext, s: Session.State,
                   late: bool, id: u32)
    requires a.core.sched.Shaped() && Waits(a, id) && (Pending(a, id) ==> id in reading.ids)
    requires a.core.state.Process(Session.Inbound, frame.header, context) == Ok(s) && a.core.state.conn.OnlineOrGoing()
    requires !frame.header.command.Accept? ==> context == Session.NoContext
    requires late ==> frame.header.command == Data
    ensures var t := Dispatch(a.(core := a.core.(state := s)), frame, reading, late);
      t.failure.None? && !t.a.awaitingRestart ==> Waits(t.a, id)
  {
    match frame.header.command
    case Credit => GrantWaits(a, frame, reading, s, id);
    case Accept => AnswerWaits(a, frame, reading, context, s, id);
    case Open => NewcomerWaits(a, frame, reading, s, id);
    case _ =>
      PoorerWaits(a, frame, context, s, id);
      PlainWaits(a.(core := a.core.(state := s)), frame, reading, late, id);
  }

  lemma PoorerWaits(a: State, frame: Frame, context: Session.FrameContext, s: Session.State, id: u32)
    requires Waits(a, id) && a.core.state.conn.OnlineOrGoing()
    requires !frame.header.command.Credit? && !frame.header.command.Accept?
    requires a.core.state.Process(Session.Inbound, frame.header, context) == Ok(s)
    ensures Waits(a.(core := a.core.(state := s)), id)
  {
    ProcessPoorer(a.core.state, Session.Inbound, frame.header, context, s, id);
    StillWaits(a, a.(core := a.core.(state := s)), id);
  }

  lemma InboundWaits(a: State, frame: Frame, reading: Reading, id: u32)
    requires a.core.sched.Shaped() && Balanced(a) && !a.awaitingRestart && Waits(a, id)
    requires !Restarts(a, Inbound(frame, reading)) && (Pending(a, id) ==> id in reading.ids)
    ensures var t := HandleInbound(a, frame, reading);
      t.failure.None? && !t.a.awaitingRestart ==> Waits(t.a, id)
  {
    var h := frame.header;
    var context := if h.command == Command.Accept then Session.FrameContext(None, reading.acceptWindow)
                   else Session.NoContext;
    var processed := a.core.state.Process(Session.Inbound, h, context);
    if processed.Ok? { TakenWaits(a, frame, reading, context, processed.value, Late(a, frame), id); }
  }

  lemma DequeueWaits(a: State, written: bool, id: u32)
    requires a.core.sched.Shaped() && Waits(a, id)
    ensures var t := HandleDequeue(a, written); t.failure.None? ==> Waits(t.a, id)
  {
    var t := HandleDequeue(a, written);
    if t.failure.None? { StillWaits(a, t.a, id); }
  }

  // ---------------------------------------------------------------- whole runs

  /** What callers and loop see to: nobody sends before a stream is answered, and connection credit is
      offered to every stream that waits. */
  ghost predicate Prompt(a: State, e: Event) {
    && (e.Command_? && e.call.SendData? ==> !Unanswered(a.core.state, e.call.id))
    && (e.Inbound? ==> forall id :: Pending(a, id) ==> id in e.reading.ids)
  }

  ghost predicate AllPrompt(states: seq<State>, events: seq<Event>, n: nat) {
    n <= |events| <= |states| && forall i :: 0 <= i < n ==> Prompt(states[i], events[i])
  }

  lemma StepWaits(a: State, e: Event, b: State, id: u32)
    requires Sane(a) && Step(a, e, b) && Prompt(a, e) && Waits(a, id)
    ensures Waits(b, id)
  {
    StepIdle(a, e, b);
    if !b.awaitingRestart && !Restarts(a, e) {
      match e
      case Command_(generation, token, call) =>
        if generation == a.generation { CommandWaits(a, token, call, id); }
      case Inbound(frame, reading) => InboundWaits(a, frame, reading, id);
      case Dequeue(written) => DequeueWaits(a, written, id);
    }
  }

  ghost predicate Steady(a: State, id: u32) { Sane(a) && Waits(a, id) }

  lemma StepSteady(a: State, e: Event, b: State, id: u32)
    requires Steady(a, id) && Step(a, e, b) && Prompt(a, e)
    ensures Steady(b, id)
  {
    StepSane(a, e, b);
    StepWaits(a, e, b, id);
  }

  lemma {:induction false} RunWaits(states: seq<State>, events: seq<Event>, n: nat, id: u32)
    requires IsRun(states, events) && n < |states| && AllPrompt(states, events, n)
    ensures Steady(states[n], id)
  {
    if n == 0 {
      RunSane(states, events, 0);
    } else {
      RunWaits(states, events, n - 1, id);
      assert Step(states[n - 1], events[n - 1], states[n]);
      assert Prompt(states[n - 1], events[n - 1]);
      StepSteady(states[n - 1], events[n - 1], states[n], id);
    }
  }

  /** In every state of every such run, a send that still waits lacks the credit of its stream or of
      the connection: none is overlooked when credit comes. */
  lemma WaitingLacksCredit(states: seq<State>, events: seq<Event>, n: nat, id: u32)
    requires IsRun(states, events) && n < |states| && AllPrompt(states, events, n) && Pending(states[n], id)
    ensures !states[n].core.HasSendCredit(id, |states[n].streams[id].pendingSend.value.payload|)
  {
    RunWaits(states, events, n, id);
  }

  /** A send made before the peer has answered is overlooked by the answer: the ACCEPT brings its
      credit and leaves it waiting. */
  lemma EarlySendOverlooked(a: State, frame: Frame, reading: Reading)
    requires a.core.sched.Shaped() && frame.header.command == Command.Accept && Pending(a, frame.header.streamId)
    requires reading.acceptWindow.Some? && !a.awaitingRestart
    requires |a.streams[frame.header.streamId].pendingSend.value.payload| <= reading.acceptWindow.value
    requires |a.streams[frame.header.streamId].pendingSend.value.payload| <= a.core.state.conn.sendCredit
    requires HandleInbound(a, frame, reading).failure.None?
    ensures var id, t := frame.header.streamId, HandleInbound(a, frame, reading);
      Pending(t.a, id) && t.a.core.HasSendCredit(id, |t.a.streams[id].pendingSend.value.payload|)
  {
    var id, context := frame.header.streamId, Session.FrameContext(None, reading.acceptWindow);
    var s := a.core.state.Process(Session.Inbound, frame.header, context).value;
    AnswerBringsCredit(a.core.state, frame.header, context, s);
    var b := a.(core := a.core.(state := s));
    GrantKeepsCredit(b.core, id, b.streams[id].receiveWindow);
  }

  lemma AnswerBringsCredit(s: Session.State, h: Header, context: Session.FrameContext, t: Session.State)
    requires s.Process(Session.Inbound, h, context) == Ok(t) && h.command == Command.Accept
    ensures context.streamWindow.Some? && h.streamId in t.streams && t.conn.sendCredit == s.conn.sendCredit
    ensures t.streams[h.streamId].sendCredit == context.streamWindow.value
  {
    ProcessApplies(s, Session.Inbound, h, context, t);
  }

  lemma GrantKeepsCredit(core: Core, home: u32, delta: u32)
    requires core.sched.Shaped() && core.QueueCredit(home, delta).Ok? && home in core.state.streams
    ensures var s := core.QueueCredit(home, delta).value.state;
      && home in s.streams && s.streams[home].sendCredit == core.state.streams[home].sendCredit
      && s.conn.sendCredit == core.state.conn.sendCredit
  {
  }
}
