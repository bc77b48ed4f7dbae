/** Receive credit of a stream over whole runs: until the peer ends it, what is unread and what the peer
    may still send make up the stream's window exactly. */
module ActorCredit {
  import opened Results
  import opened Wire
  import Session
  import Sched = Scheduler
  import opened Actor
  import opened ActorOutbound
  import opened ActorRuns
  import opened ActorReceive
  import opened ActorTheorems
  import opened ActorInbox
  import opened ActorDelivery

  // ---------------------------------------------------------------- the claim

  /** The peer may still send on the stream. */
  predicate Flowing(s: Session.State, id: u32) {
    id in s.streams && s.streams[id].phase == Session.Accepted && !s.streams[id].peerEnd
  }

  /** Unread and creditable bytes make up the window, and no frame in the inbox ends the stream. */
  ghost predicate Even(a: State, id: u32) {
    id in a.streams && Flowing(a.core.state, id) ==>
      && DataBytes(a.streams[id].inbox) + a.core.state.streams[id].receiveCredit == a.streams[id].receiveWindow
      && NoEnd(a.streams[id].inbox)
  }

  predicate NoEnd(inbox: seq<Frame>) { forall k :: 0 <= k < |inbox| ==> !inbox[k].header.EndStream() }

  /** The stream flows no more than before, with the same credit. */
  ghost predicate Level(s: Session.State, t: Session.State, id: u32) {
    Flowing(t, id) ==> Flowing(s, id) && t.streams[id].receiveCredit == s.streams[id].receiveCredit
  }

  /** The same entry, or none. */
  ghost predicate SameWindow(a: State, b: State, id: u32) {
    id in b.streams ==> id in a.streams && b.streams[id].inbox == a.streams[id].inbox
                        && b.streams[id].receiveWindow == a.streams[id].receiveWindow
  }

  lemma StillEven(a: State, b: State, id: u32)
    requires Even(a, id) && SameWindow(a, b, id) && Level(a.core.state, b.core.state, id)
    ensures Even(b, id)
  {
  }

  // ---------------------------------------------------------------- the validator

  lemma ProcessLevel(s: Session.State, dir: Session.Direction, h: Header, context: Session.FrameContext,
                     t: Session.State, id: u32)
    requires s.Process(dir, h, context) == Ok(t)
    requires h.streamId == id ==> !h.command.Accept? && !(h.command.Credit? && dir == Session.Outbound)
                                  && !(h.command.Data? && dir == Session.Inbound)
    ensures Level(s, t, id)
  {
    ProcessApplies(s, dir, h, context, t);
    if h.streamId != 0 && h.command != Command.Open && h.streamId == id {
      StreamLevel(s.streams[id], dir, h, context, s.conn);
    }
  }

  lemma StreamLevel(x: Session.Stream, dir: Session.Direction, h: Header, context: Session.FrameContext,
                    connection: Session.Connection)
    requires x.Apply(dir, h, context, connection).Ok? && !h.command.Accept?
    requires !(h.command.Credit? && dir == Session.Outbound) && !(h.command.Data? && dir == Session.Inbound)
    ensures var y := x.Apply(dir, h, context, connection).value;
      y.phase == Session.Accepted && !y.peerEnd ==>
        x.phase == Session.Accepted && !x.peerEnd && y.receiveCredit == x.receiveCredit
  {
  }

  lemma EmitLevel(core: Core, h: Header, payload: seq<byte>, class_: Sched.TrafficClass, context: Session.FrameContext,
                  id: u32)
    requires core.sched.Shaped() && core.Emit(h, payload, class_, context).Ok?
    requires h.streamId == id ==> !h.command.Accept? && !h.command.Credit?
    ensures Level(core.state, core.Emit(h, payload, class_, context).value.state, id)
  {
    var header := h.(sequence := core.NextSequence(h.streamId), payloadLength := |payload|);
    ProcessLevel(core.state, Session.Outbound, header, context, core.Emit(h, payload, class_, context).value.state, id);
  }

  lemma QueueLevel(core: Core, command: Command, home: u32, payload: seq<byte>, end: bool, class_: Sched.TrafficClass,
                   context: Session.FrameContext, id: u32)
    requires core.sched.Shaped() && core.QueueFrame(command, home, payload, end, class_, context).Ok?
    requires home == id ==> !command.Accept? && !command.Credit?
    ensures Level(core.state, core.QueueFrame(command, home, payload, end, class_, context).value.state, id)
  {
    EmitLevel(core, NewHeader(command, home, 0).(flags := if end then 1 else 0), payload,
              if Sched.ForCommand(command) == Sched.Control then Sched.Control else class_, context, id);
  }

  /** Credit given back to a stream that flows. */
  ghost predicate Raised(s: Session.State, t: Session.State, id: u32, delta: nat) {
    Flowing(t, id) ==> Flowing(s, id) && t.streams[id].receiveCredit == s.streams[id].receiveCredit + delta
  }

  lemma CreditRaises(core: Core, home: u32, delta: u32, id: u32)
    requires core.sched.Shaped() && core.QueueCredit(home, delta).Ok?
    ensures Raised(core.state, core.QueueCredit(home, delta).value.state, id,
                   if home == id && id != 0 then delta else 0)
  {
    var h := NewHeader(Credit, home, 0).(creditDelta := delta);
    var core' := core.QueueCredit(home, delta).value;
    if home != id {
      EmitLevel(core, h, [], Sched.Control, Session.NoContext, id);
    } else {
      var header := h.(sequence := core.NextSequence(home), payloadLength := 0);
      ProcessCredit(core.state, header, core'.state);
      GrantKeepsPhase(core.state, header, core'.state);
    }
  }

  lemma GrantKeepsPhase(s: Session.State, h: Header, t: Session.State)
    requires s.Process(Session.Outbound, h, Session.NoContext) == Ok(t) && h.command.Credit?
    ensures Flowing(t, h.streamId) ==> Flowing(s, h.streamId)
    ensures h.streamId == 0 ==> t.streams == s.streams
  {
    ProcessApplies(s, Session.Outbound, h, Session.NoContext, t);
  }

  /** Consumed DATA goes back to its stream in full, unless it ended it. */
  lemma RestoreRaises(core: Core, frame: Frame, id: u32)
    requires core.sched.Shaped() && core.RestoreConsumed(frame).Ok? && 0 !in core.state.streams
    ensures var back := if frame.header.streamId == id && !frame.header.EndStream() then Carried(frame) else 0;
      Raised(core.state, core.RestoreConsumed(frame).value.state, id, back)
  {
    var h := frame.header;
    if Carried(frame) != 0 {
      var useful := !h.EndStream() && core.state.Stream(h.streamId).Some?
                    && core.state.Stream(h.streamId).value.phase == Session.Accepted;
      var first := if useful then core.QueueCredit(h.streamId, h.payloadLength) else Ok(core);
      if useful { CreditRaises(core, h.streamId, h.payloadLength, id); }
      CreditRaises(first.value, 0, h.payloadLength, id);
    }
  }

  // ---------------------------------------------------------------- handing over and storing

  /** The window is even but for a frame that is neither unread nor given back yet. */
  ghost predicate Owed(a: State, id: u32, frame: Frame) {
    id in a.streams && Flowing(a.core.state, id) ==>
      && !frame.header.EndStream() && NoEnd(a.streams[id].inbox)
      && DataBytes(a.streams[id].inbox) + a.core.state.streams[id].receiveCredit + Carried(frame)
         == a.streams[id].receiveWindow
  }

  lemma HandOverEven(a: State, home: u32, frame: Frame, w: Waiter, id: u32)
    requires a.core.sched.Shaped() && frame.header.streamId == home && 0 !in a.core.state.streams
    requires if id == home then Owed(a, id, frame) else Even(a, id)
    ensures var t := HandOver(a, home, frame, w); t.failure.None? ==> Even(t.a, id)
  {
    var t := HandOver(a, home, frame, w);
    if t.failure.None? {
      RestoreRaises(a.core, frame, id);
      HandedEntry(a, home, frame, w, id);
    }
  }

  lemma HandedEntry(a: State, home: u32, frame: Frame, w: Waiter, id: u32)
    requires a.core.sched.Shaped() && HandOver(a, home, frame, w).failure.None?
    ensures var t := HandOver(a, home, frame, w);
      && a.core.RestoreConsumed(frame).Ok? && t.a.core == a.core.RestoreConsumed(frame).value
      && (id in t.a.streams ==> id in a.streams && t.a.streams[id] == a.streams[id])
  {
  }

  lemma ReceiveEven(a: State, home: u32, w: Waiter, id: u32)
    requires Balanced(a) && a.core.sched.Shaped() && home in a.streams && Even(a, id)
    ensures var t := ReceiveOrWait(a, home, w); t.failure.None? ==> Even(t.a, id)
  {
    var entry := a.streams[home];
    if entry.receiver.None? && entry.inbox != [] {
      assert BookAt(a.core.state.streams[home], a.streams, home, 0);
      var b := a.(streams := a.streams[home := entry.Popped()]);
      HandOverEven(b, home, entry.inbox[0], w, id);
    }
  }

  lemma DeliverEven(a: State, frame: Frame, id: u32)
    requires a.core.sched.Shaped() && 0 !in a.core.state.streams
    requires if id == frame.header.streamId then Owed(a, id, frame) else Even(a, id)
    ensures var t := Deliver(a, frame); t.failure.None? ==> Even(t.a, id)
  {
    var home := frame.header.streamId;
    var t := Deliver(a, frame);
    if t.failure.None? {
      var entry := a.streams[home];
      if entry.receiver.Some? {
        var b := a.(streams := a.streams[home := entry.(receiver := None)]);
        HandOverEven(b, home, frame, entry.receiver.value, id);
      } else {
        DataBytesAppend(entry.inbox, frame);
      }
    }
  }

  // ---------------------------------------------------------------- commands

  lemma SendNowEven(a: State, b: State, home: u32, class_: Sched.TrafficClass, payload: seq<byte>, end: bool,
                    w: Waiter, id: u32)
    requires a.core.sched.Shaped() && Even(a, id) && SameWindow(a, b, id) && b.core == a.core
    ensures var t := SendNow(b, home, class_, payload, end, w);
      t.failure.None? ==> Even(t.a, id) && SameWindow(a, t.a, id)
  {
    var t := SendNow(b, home, class_, payload, end, w);
    if t.failure.None? {
      QueueLevel(a.core, Data, home, payload, end, class_, Session.NoContext, id);
      StillEven(a, t.a, id);
    }
  }

  lemma OpenEven(a: State, token: nat, payload: seq<byte>, window: u32, class_: Sched.TrafficClass, id: u32)
    requires a.core.sched.Shaped() && Even(a, id) && Balanced(a)
    ensures var t := OpenStream(a, token, payload, window, class_); t.failure.None? ==> Even(t.a, id)
  {
    var t := OpenStream(a, token, payload, window, class_);
    if t.failure.None? {
      var (s, home) := a.core.state.AllocateStreamId().value;
      var core := a.core.(state := s);
      QueueLevel(core, Command.Open, home, payload, false, class_, Session.NoContext, id);
      OpenedHome(core, home, payload, class_);
      QueueGrows(core, Command.Open, home, payload, false, class_, Session.NoContext);
      if id != home { StillEven(a, t.a, id); }
    }
  }

  /** ACCEPT from us: the whole window is credit. */
  lemma AcceptEven(a: State, token: nat, call: Call, id: u32)
    requires a.core.sched.Shaped() && Even(a, id) && Balanced(a) && call.Accept? && call.id in a.streams
    ensures var t := HandleCommand(a, token, call); t.failure.None? ==> Even(t.a, id)
  {
    var t := HandleCommand(a, token, call);
    var context := Session.FrameContext(None, Some(call.receiveWindow));
    if t.failure.None? {
      if id == call.id {
        assert BookAt(a.core.state.streams[id], a.streams, id, 0);
        AcceptSent(a.core, id, call.payload, context);
      } else {
        QueueLevel(a.core, Command.Accept, call.id, call.payload, false, Sched.Control, context, id);
        StillEven(a, t.a, id);
      }
    }
  }

  lemma AcceptSent(core: Core, id: u32, payload: seq<byte>, context: Session.FrameContext)
    requires core.sched.Shaped() && core.QueueFrame(Command.Accept, id, payload, false, Sched.Control, context).Ok?
    ensures context.streamWindow.Some? && id in core.state.streams && core.state.streams[id].phase == Session.Opening
    ensures var s := core.QueueFrame(Command.Accept, id, payload, false, Sched.Control, context).value.state;
      id in s.streams && s.streams[id].receiveCredit == context.streamWindow.value
  {
    var h := NewHeader(Command.Accept, id, core.NextSequence(id)).(flags := 0, payloadLength := |payload|);
    ProcessAccept(core.state, Session.Outbound, h, context,
                  core.QueueFrame(Command.Accept, id, payload, false, Sched.Control, context).value.state);
  }

  lemma StreamCommandEven(a: State, token: nat, call: Call, id: u32)
    requires a.core.sched.Shaped() && Even(a, id) && (call.Reject? || call.Close? || call.Reset?)
    ensures var t := HandleCommand(a, token, call); t.failure.None? ==> Even(t.a, id)
  {
    var t := HandleCommand(a, token, call);
    if t.failure.None? && call.id in a.streams {
      match call
      case Reject(home, payload) =>
        QueueLevel(a.core, Command.Reject, home, payload, false, Sched.Control, Session.NoContext, id);
      case Close(home) =>
        QueueLevel(a.core, Command.Close, home, [], false, Sched.Control, Session.NoContext, id);
      case Reset(home, payload) =>
        QueueLevel(a.core, Command.Reset, home, payload, false, Sched.Control, Session.NoContext, id);
      StillEven(a, t.a, id);
    }
  }

  lemma LeaveEven(a: State, w: Waiter, id: u32)
    requires a.core.sched.Shaped() && Even(a, id)
    ensures LeaveSession(a, w).failure.None? ==> Even(LeaveSession(a, w).a, id)
  {
    var t := LeaveSession(a, w);
    if t.failure.None? && a.pendingGoAway.None? {
      QueueLevel(a.core, Command.GoAway, 0, [], false, Sched.Control, Session.NoContext, id);
      StillEven(a, t.a, id);
    }
  }

  lemma PingEven(a: State, w: Waiter, payload: seq<byte>, id: u32)
    requires a.core.sched.Shaped() && Even(a, id)
    ensures PingPeer(a, w, payload).failure.None? ==> Even(PingPeer(a, w, payload).a, id)
  {
    var t := PingPeer(a, w, payload);
    if t.failure.None? {
      QueueLevel(a.core, Command.Ping, 0, payload, false, Sched.Control, Session.NoContext, id);
      StillEven(a, t.a, id);
    }
  }

  lemma SendEven(a: State, home: u32, payload: seq<byte>, end: bool, w: Waiter, id: u32)
    requires a.core.sched.Shaped() && Even(a, id) && home in a.streams
    ensures var t := SendOrWait(a, home, payload, end, w); t.failure.None? ==> Even(t.a, id)
  {
    if a.core.HasSendCredit(home, |payload|) {
      SendNowEven(a, a, home, a.streams[home].class_, payload, end, w, id);
    }
  }

  lemma CommandEven(a: State, token: nat, call: Call, id: u32)
    requires a.core.sched.Shaped() && Balanced(a) && Even(a, id)
    ensures var t := HandleCommand(a, token, call); t.failure.None? ==> Even(t.a, id)
  {
    match call
    case Open(payload, window, class_) => OpenEven(a, token, payload, window, class_, id);
    case Accept(home, _, _, _) => if home in a.streams { AcceptEven(a, token, call, id); }
    case SendData(home, payload, end) =>
      if home in a.streams { SendEven(a, home, payload, end, Waiter(token, ToSend(home, payload, end)), id); }
    case Receive(home) => if home in a.streams { ReceiveEven(a, home, Waiter(token, ToReceive(home)), id); }
    case CancelReceive(_) =>
    case GoAway => LeaveEven(a, Waiter(token, ToGoAway), id);
    case Ping(payload) => PingEven(a, Waiter(token, ToPing), payload, id);
    case _ => StreamCommandEven(a, token, call, id);
  }

  // ---------------------------------------------------------------- inbound frames

  lemma DataFlows(s: Session.State, h: Header, t: Session.State)
    requires s.Process(Session.Inbound, h, Session.NoContext) == Ok(t) && h.command.Data?
    ensures Flowing(t, h.streamId) ==> Flowing(s, h.streamId) && !h.EndStream()
  {
    ProcessApplies(s, Session.Inbound, h, Session.NoContext, t);
  }

  lemma InputOwed(a: State, frame: Frame, s: Session.State, id: u32)
    requires a.core.state.Process(Session.Inbound, frame.header, Session.NoContext) == Ok(s) && Even(a, id)
    requires frame.header.command == Data || TerminalFrame(frame)
    ensures var b := a.(core := a.core.(state := s));
      if id == frame.header.streamId then Owed(b, id, frame) else Even(b, id)
  {
    var b := a.(core := a.core.(state := s));
    var h := frame.header;
    if id != h.streamId {
      ProcessLevel(a.core.state, Session.Inbound, h, Session.NoContext, s, id);
      StillEven(a, b, id);
    } else if h.command == Data {
      ProcessData(a.core.state, h, s);
      DataFlows(a.core.state, h, s);
    } else {
      InputEnds(a.core.state, h, s);
    }
  }

  lemma InputEnds(s: Session.State, h: Header, t: Session.State)
    requires s.Process(Session.Inbound, h, Session.NoContext) == Ok(t) && (h.command.Close? || h.command.Reset?)
    ensures !Flowing(t, h.streamId)
  {
    ProcessApplies(s, Session.Inbound, h, Session.NoContext, t);
  }

  /** An accepted stream of ours: its window is granted at once. */
  lemma AnswerEven(a: State, frame: Frame, reading: Reading, context: Session.FrameContext, s: Session.State, id: u32)
    requires a.core.sched.Shaped() && Balanced(a) && Even(a, id) && frame.header.command == Command.Accept
    requires a.core.state.Process(Session.Inbound, frame.header, context) == Ok(s)
    ensures var t := Dispatch(a.(core := a.core.(state := s)), frame, reading, false);
      t.failure.None? ==> Even(t.a, id)
  {
    var b, home := a.(core := a.core.(state := s)), frame.header.streamId;
    var t := Dispatch(b, frame, reading, false);
    if t.failure.None? {
      CreditRaises(b.core, home, b.streams[home].receiveWindow, id);
      ProcessAccept(a.core.state, Session.Inbound, frame.header, context, s);
      if id == home {
        assert BookAt(a.core.state.streams[id], a.streams, id, 0);
      } else {
        ProcessLevel(a.core.state, Session.Inbound, frame.header, context, s, id);
        StillEven(a, t.a, id);
      }
    }
  }

  lemma FlushEven(a: State, home: u32, id: u32)
    requires a.core.sched.Shaped() && Even(a, id)
    ensures FlushPending(a, home).failure.None? ==> Even(FlushPending(a, home).a, id)
  {
    if home in a.streams && a.streams[home].pendingSend.Some? {
      var entry := a.streams[home];
      var p := entry.pendingSend.value;
      var b := a.(streams := a.streams[home := entry.(pendingSend := None)]);
      SendNowEven(a, b, home, entry.class_, p.payload, p.end, p.waiter, id);
    }
  }

  lemma {:induction false} FlushAllEven(a: State, ids: seq<u32>, id: u32)
    requires a.core.sched.Shaped() && Even(a, id)
    ensures FlushAll(a, ids).failure.None? ==> Even(FlushAll(a, ids).a, id)
    decreases |ids|
  {
    if ids != [] {
      FlushEven(a, ids[0], id);
      if FlushPending(a, ids[0]).failure.None? { FlushAllEven(FlushPending(a, ids[0]).a, ids[1..], id); }
    }
  }

  /** Everything but input, ACCEPT and OPEN. */
  lemma PlainEven(b: State, frame: Frame, reading: Reading, id: u32)
    requires b.core.sched.Shaped() && Even(b, id) && frame.header.command != Data && !TerminalFrame(frame)
    requires !frame.header.command.Accept? && !frame.header.command.Open?
    ensures var t := Dispatch(b, frame, reading, false); t.failure.None? && !t.a.awaitingRestart ==> Even(t.a, id)
  {
    var t := Dispatch(b, frame, reading, false);
    if t.failure.None? {
      match frame.header.command
      case Credit =>
        if frame.header.streamId == 0 { FlushAllEven(b, reading.ids, id); }
        else { FlushEven(b, frame.header.streamId, id); }
      case Ping =>
        QueueLevel(b.core, Command.Pong, 0, frame.payload, false, Sched.Control, Session.NoContext, id);
        StillEven(b, t.a, id);
      case GoAway => LeavingMode(b);
      case _ =>
    }
  }

  lemma LateEven(b: State, frame: Frame, reading: Reading, id: u32)
    requires b.core.sched.Shaped() && 0 !in b.core.state.streams
    requires if id == frame.header.streamId then !Flowing(b.core.state, id) else Even(b, id)
    ensures var t := Dispatch(b, frame, reading, true); t.failure.None? ==> Even(t.a, id)
  {
    var t := Dispatch(b, frame, reading, true);
    if t.failure.None? { RestoreRaises(b.core, frame, id); }
  }

  lemma KeepsNoZero(s: Session.State, h: Header, context: Session.FrameContext, t: Session.State)
    requires s.Process(Session.Inbound, h, context) == Ok(t) && 0 !in s.streams
    ensures 0 !in t.streams
  {
    ProcessApplies(s, Session.Inbound, h, context, t);
  }

  lemma InputEven(a: State, frame: Frame, reading: Reading, s: Session.State, late: bool, id: u32)
    requires a.core.sched.Shaped() && Balanced(a) && Even(a, id) && (late <==> Late(a, frame))
    requires frame.header.command == Data || TerminalFrame(frame)
    requires a.core.state.Process(Session.Inbound, frame.header, Session.NoContext) == Ok(s)
    ensures var t := Dispatch(a.(core := a.core.(state := s)), frame, reading, late);
      t.failure.None? ==> Even(t.a, id)
  {
    var b := a.(core := a.core.(state := s));
    KeepsNoZero(a.core.state, frame.header, Session.NoContext, s);
    InputOwed(a, frame, s, id);
    if late {
      DataFlows(a.core.state, frame.header, s);
      LateEven(b, frame, reading, id);
    } else {
      DeliverEven(b, frame, id);
    }
  }

  lemma NewcomerEven(a: State, frame: Frame, reading: Reading, s: Session.State, id: u32)
    requires a.core.sched.Shaped() && Even(a, id) && frame.header.command == Command.Open
    requires a.core.state.Process(Session.Inbound, frame.header, Session.NoContext) == Ok(s)
    ensures var t := Dispatch(a.(core := a.core.(state := s)), frame, reading, false);
      t.failure.None? ==> Even(t.a, id)
  {
    ProcessOpen(a.core.state, Session.Inbound, frame.header, Session.NoContext, s);
  }

  lemma TakenEven(a: State, frame: Frame, reading: Reading, context: Session.FrameContext, s: Session.State,
                  late: bool, id: u32)
    requires a.core.sched.Shaped() && Balanced(a) && Even(a, id) && (late <==> Late(a, frame))
    requires a.core.state.Process(Session.Inbound, frame.header, context) == Ok(s)
    requires !frame.header.command.Accept? ==> context == Session.NoContext
    ensures var t := Dispatch(a.(core := a.core.(state := s)), frame, reading, late);
      t.failure.None? && !t.a.awaitingRestart ==> Even(t.a, id)
  {
    match frame.header.command
    case Data => InputEven(a, frame, reading, s, late, id);
    case Close => InputEven(a, frame, reading, s, late, id);
    case Reset => InputEven(a, frame, reading, s, late, id);
    case Accept => AnswerEven(a, frame, reading, context, s, id);
    case Open => NewcomerEven(a, frame, reading, s, id);
    case _ =>
      LeveledEven(a, frame, context, s, id);
      PlainEven(a.(core := a.core.(state := s)), frame, reading, id);
  }

  lemma LeveledEven(a: State, frame: Frame, context: Session.FrameContext, s: Session.State, id: u32)
    requires Even(a, id) && a.core.state.Process(Session.Inbound, frame.header, context) == Ok(s)
    requires !frame.header.command.Accept? && !frame.header.command.Data?
    ensures Even(a.(core := a.core.(state := s)), id)
  {
    ProcessLevel(a.core.state, Session.Inbound, frame.header, context, s, id);
    StillEven(a, a.(core := a.core.(state := s)), id);
  }

  lemma InboundEven(a: State, frame: Frame, reading: Reading, id: u32)
    requires a.core.sched.Shaped() && Balanced(a) && !a.awaitingRestart && Even(a, id)
    requires !Restarts(a, Inbound(frame, reading))
    ensures var t := HandleInbound(a, frame, reading);
      t.failure.None? && !t.a.awaitingRestart ==> Even(t.a, id)
  {
    var h := frame.header;
    var context := if h.command == Command.Accept then Session.FrameContext(None, reading.acceptWindow)
                   else Session.NoContext;
    var processed := a.core.state.Process(Session.Inbound, h, context);
    if processed.Ok? { TakenEven(a, frame, reading, context, processed.value, Late(a, frame), id); }
  }

  lemma DequeueEven(a: State, written: bool, id: u32)
    requires a.core.sched.Shaped() && Even(a, id)
    ensures var t := HandleDequeue(a, written); t.failure.None? ==> Even(t.a, id)
  {
    var t := HandleDequeue(a, written);
    if t.failure.None? {
      DequeueSame(a, written, id);
      StillEven(a, t.a, id);
    }
  }

  lemma DequeueSame(a: State, written: bool, id: u32)
    requires a.core.sched.Shaped()
    ensures var t := HandleDequeue(a, written); t.a.core.state == a.core.state && SameWindow(a, t.a, id)
  {
    var (sched, out) := a.core.sched.Dequeue();
    var b := a.(core := a.core.(sched := sched));
    if out.Some? && written { WroteSame(b, out.value, id); }
  }

  lemma WroteSame(b: State, out: Sched.Item, id: u32)
    ensures Wrote(b, out).a.core == b.core && SameWindow(b, Wrote(b, out).a, id)
  {
  }

  // ---------------------------------------------------------------- whole runs

  lemma StepEven(a: State, e: Event, b: State, id: u32)
    requires Sane(a) && Step(a, e, b) && Even(a, id)
    ensures Even(b, id)
  {
    StepIdle(a, e, b);
    if !b.awaitingRestart && !Restarts(a, e) {
      match e
      case Command_(generation, token, call) => if generation == a.generation { CommandEven(a, token, call, id); }
      case Inbound(frame, reading) => InboundEven(a, frame, reading, id);
      case Dequeue(written) => DequeueEven(a, written, id);
    }
  }

  ghost predicate SaneEven(a: State, id: u32) { Sane(a) && Even(a, id) }

  lemma StepSaneEven(a: State, e: Event, b: State, id: u32)
    requires SaneEven(a, id) && Step(a, e, b)
    ensures SaneEven(b, id)
  {
    StepSane(a, e, b);
    StepEven(a, e, b, id);
  }

  lemma {:induction false} RunEven(states: seq<State>, events: seq<Event>, n: nat, id: u32)
    requires IsRun(states, events) && n < |states|
    ensures SaneEven(states[n], id)
  {
    if n == 0 {
      RunSane(states, events, 0);
    } else {
      RunEven(states, events, n - 1, id);
      assert Step(states[n - 1], events[n - 1], states[n]);
      StepSaneEven(states[n - 1], events[n - 1], states[n], id);
    }
  }

  /** In every state of every run, on an accepted stream that the peer has not ended: unread bytes and
      receive credit make up exactly the window that was advertised. Nothing the receivers consume is
      kept from the peer. */
  lemma WindowIsWhole(states: seq<State>, events: seq<Event>, n: nat, id: u32)
    requires IsRun(states, events) && n < |states| && id in states[n].streams && Flowing(states[n].core.state, id)
    ensures DataBytes(states[n].streams[id].inbox) + states[n].core.state.streams[id].receiveCredit
      == states[n].streams[id].receiveWindow
  {
    RunEven(states, events, n, id);
  }
}
