/** Every event of the actor keeps the receive books, and what that promises. */
module ActorAccounting {
  import opened Results
  import opened Wire
  import Session
  import Sched = Scheduler
  import opened Actor
  import opened ActorOutbound
  import opened ActorRuns
  import opened ActorReceive

  ghost predicate Settled(t: Turn) { t.failure.None? ==> Books(t.a) }

  // ---------------------------------------------------------------- frames that leave the books alone

  lemma QueueQuiet(core: Core, command: Command, id: u32, payload: seq<byte>, end: bool, class_: Sched.TrafficClass,
                   core': Core, streams: map<u32, StreamEntry>, dropped: nat)
    requires Sched.Valid(core.sched) && QueueOk(core) && Owing(core.state, streams, dropped, 0, 0)
    requires command.Reject? || command.Close? || command.Reset? || command.Ping? || command.Pong? || command.GoAway?
          || command.Data?
    requires core.QueueFrame(command, id, payload, end, class_, Session.NoContext) == Ok(core')
    ensures Owing(core'.state, streams, dropped, 0, 0) && QueueOk(core')
  {
    var h := EmitQueue(core, NewHeader(command, id, 0).(flags := if end then 1 else 0), payload,
                       if Sched.ForCommand(command) == Sched.Control then Sched.Control else class_,
                       Session.NoContext, core');
    ProcessQuiet(core.state, Session.Outbound, h, Session.NoContext, core'.state);
    QuietOwing(core.state, core'.state, streams, dropped, 0, 0);
  }

  lemma QueueAndTellSettled(a: State, w: Waiter, command: Command, id: u32, payload: seq<byte>)
    requires Sched.Valid(a.core.sched) && Balanced(a)
    requires command.Reject? || command.Close? || command.Reset?
    ensures Settled(QueueAndTell(a, w,
      a.core.QueueFrame(command, id, payload, false, Sched.Control, Session.NoContext)))
  {
    var r := a.core.QueueFrame(command, id, payload, false, Sched.Control, Session.NoContext);
    if r.Ok? { QueueQuiet(a.core, command, id, payload, false, Sched.Control, r.value, a.streams, a.dropped); }
  }

  lemma ControlSettled(a: State, command: Command, payload: seq<byte>)
    requires Sched.Valid(a.core.sched) && Balanced(a) && (command.Ping? || command.Pong? || command.GoAway?)
    ensures var r := a.core.QueueFrame(command, 0, payload, false, Sched.Control, Session.NoContext);
      r.Ok? ==> Balanced(a.(core := r.value))
  {
    var r := a.core.QueueFrame(command, 0, payload, false, Sched.Control, Session.NoContext);
    if r.Ok? { QueueQuiet(a.core, command, 0, payload, false, Sched.Control, r.value, a.streams, a.dropped); }
  }

  /** Entries that differ only in who waits. */
  predicate Alike(e: StreamEntry, f: StreamEntry) {
    f.inbox == e.inbox && f.inboxBytes == e.inboxBytes && f.receiveWindow == e.receiveWindow
  }

  lemma WaiterChange(s: Session.State, streams: map<u32, StreamEntry>, dropped: nat, id: u32, entry: StreamEntry)
    requires Owing(s, streams, dropped, 0, 0) && id in streams && Alike(streams[id], entry)
    ensures Owing(s, streams[id := entry], dropped, 0, 0)
  {
    UnreadUpdate(streams, id, entry);
    NoDebt(s, streams, dropped, 0, id);
    assert BookAt(s.streams[id], streams, id, 0);
    SetBook(s, s, streams, streams[id := entry], dropped, dropped, id, 0, 0);
    NoDebt(s, streams[id := entry], dropped, id, 0);
  }

  // ---------------------------------------------------------------- sending

  lemma SendNowSettled(a: State, id: u32, class_: Sched.TrafficClass, payload: seq<byte>, end: bool, w: Waiter)
    requires Sched.Valid(a.core.sched) && Balanced(a)
    ensures var t := SendNow(a, id, class_, payload, end, w); t.failure.None? ==> Balanced(t.a)
  {
    var r := a.core.QueueFrame(Data, id, payload, end, class_, Session.NoContext);
    if r.Ok? { QueueQuiet(a.core, Data, id, payload, end, class_, r.value, a.streams, a.dropped); }
  }

  lemma SendOrWaitSettled(a: State, id: u32, payload: seq<byte>, end: bool, w: Waiter)
    requires Sched.Valid(a.core.sched) && Balanced(a) && id in a.streams
    ensures Settled(SendOrWait(a, id, payload, end, w))
  {
    var entry := a.streams[id];
    if a.core.HasSendCredit(id, |payload|) {
      SendNowSettled(a, id, entry.class_, payload, end, w);
    } else {
      WaiterChange(a.core.state, a.streams, a.dropped, id, entry.(pendingSend := Some(PendingSend(payload, end, w))));
    }
  }

  /** A flush either leaves the actor as it was or sends what waited. */
  lemma FlushIsSend(a: State, id: u32, b: State)
    requires a.core.sched.Shaped() && id in a.streams && a.streams[id].pendingSend.Some?
    requires b == a.(streams := a.streams[id := a.streams[id].(pendingSend := None)])
    ensures var t, pending := FlushPending(a, id), a.streams[id].pendingSend.value;
      t.failure.None? ==>
        t.a == a || t == SendNow(b, id, a.streams[id].class_, pending.payload, pending.end, pending.waiter)
  {
  }

  lemma FlushPendingSettled(a: State, id: u32)
    requires Sched.Valid(a.core.sched) && Balanced(a)
    ensures var t := FlushPending(a, id); t.failure.None? ==> Balanced(t.a)
  {
    if id in a.streams && a.streams[id].pendingSend.Some? {
      var entry := a.streams[id];
      var pending := entry.pendingSend.value;
      var b := a.(streams := a.streams[id := entry.(pendingSend := None)]);
      WaiterChange(a.core.state, a.streams, a.dropped, id, entry.(pendingSend := None));
      assert Balanced(b);
      FlushIsSend(a, id, b);
      SendNowSettled(b, id, entry.class_, pending.payload, pending.end, pending.waiter);
    }
  }

  lemma {:induction false} FlushAllSettled(a: State, ids: seq<u32>)
    requires Inv(a) && Balanced(a)
    ensures var t := FlushAll(a, ids); t.failure.None? ==> Balanced(t.a)
    decreases |ids|
  {
    if ids != [] {
      FlushPendingSettled(a, ids[0]);
      FlushPendingGood(a, ids[0]);
      var first := FlushPending(a, ids[0]);
      if first.failure.None? { FlushAllSettled(first.a, ids[1..]); }
    }
  }

  // ---------------------------------------------------------------- opening

  lemma OpenBooks(s: Session.State, t: Session.State, dir: Session.Direction, h: Header, streams: map<u32, StreamEntry>,
                  dropped: nat, entry: StreamEntry)
    requires Owing(s, streams, dropped, 0, 0) && h.command.Open? && entry.inbox == [] && entry.inboxBytes == 0
    requires s.Process(dir, h, Session.NoContext) == Ok(t)
    ensures Owing(t, streams[h.streamId := entry], dropped, 0, 0)
  {
    var id := h.streamId;
    ProcessOpen(s, dir, h, Session.NoContext, t);
    ProcessApplies(s, dir, h, Session.NoContext, t);
    UnreadUpdate(streams, id, entry);
    NoDebt(s, streams, dropped, 0, id);
    SetBook(s, t, streams, streams[id := entry], dropped, dropped, id, 0, 0);
    NoDebt(t, streams[id := entry], dropped, id, 0);
  }

  lemma OpenSettled(a: State, token: nat, payload: seq<byte>, receiveWindow: u32, class_: Sched.TrafficClass)
    requires Sched.Valid(a.core.sched) && Balanced(a)
    ensures Settled(HandleCommand(a, token, Call.Open(payload, receiveWindow, class_)))
  {
    var granted := a.core.state.AllocateStreamId();
    if granted.Ok? {
      var (s, id) := granted.value;
      var core := a.core.(state := s);
      var r := core.QueueFrame(Command.Open, id, payload, false, class_, Session.NoContext);
      if r.Ok? {
        Renumbered(a, s);
        var h := EmitQueue(core, NewHeader(Command.Open, id, 0).(flags := 0), payload,
                           if Sched.ForCommand(Command.Open) == Sched.Control then Sched.Control else class_,
                           Session.NoContext, r.value);
        OpenBooks(s, r.value.state, Session.Outbound, h, a.streams, a.dropped,
                  NewEntry(class_, receiveWindow).(opener := Some(Waiter(token, ToOpen))));
      }
    }
  }

  lemma Renumbered(a: State, s: Session.State)
    requires Balanced(a) && s == a.core.state.(nextLocalStreamId := s.nextLocalStreamId)
    ensures Owing(s, a.streams, a.dropped, 0, 0) && QueueOk(a.core.(state := s))
  {
    forall k | k in s.streams
      ensures BookAt(s.streams[k], a.streams, k, 0)
    {
      assert BookAt(a.core.state.streams[k], a.streams, k, if k == 0 then 0 else 0);
    }
    forall id: u32
      ensures QueueAt(a.core.(state := s), id)
    {
      assert QueueAt(a.core, id);
    }
  }

  /** Accepting gives the peer the whole window at once. */
  lemma AcceptBooks(s: Session.State, t: Session.State, h: Header, window: u32, streams: map<u32, StreamEntry>,
                    dropped: nat, class_: Sched.TrafficClass)
    requires Owing(s, streams, dropped, 0, 0) && h.command.Accept? && h.streamId in streams
    requires s.Process(Session.Outbound, h, Session.FrameContext(None, Some(window))) == Ok(t)
    ensures Owing(t, streams[h.streamId := streams[h.streamId].(class_ := class_, receiveWindow := window)], dropped,
      0, 0)
  {
    var id := h.streamId;
    var entry := streams[id].(class_ := class_, receiveWindow := window);
    ProcessAccept(s, Session.Outbound, h, Session.FrameContext(None, Some(window)), t);
    UnreadUpdate(streams, id, entry);
    NoDebt(s, streams, dropped, 0, id);
    assert BookAt(s.streams[id], streams, id, 0);
    SetBook(s, t, streams, streams[id := entry], dropped, dropped, id, 0, 0);
    NoDebt(t, streams[id := entry], dropped, id, 0);
  }

  lemma AcceptSettled(a: State, token: nat, id: u32, payload: seq<byte>, receiveWindow: u32, class_: Sched.TrafficClass)
    requires Sched.Valid(a.core.sched) && Balanced(a)
    ensures Settled(HandleCommand(a, token, Call.Accept(id, payload, receiveWindow, class_)))
  {
    var context := Session.FrameContext(None, Some(receiveWindow));
    var r := a.core.QueueFrame(Command.Accept, id, payload, false, Sched.Control, context);
    if id in a.streams && r.Ok? {
      var h := EmitQueue(a.core, NewHeader(Command.Accept, id, 0).(flags := 0), payload, Sched.Control, context,
        r.value);
      AcceptBooks(a.core.state, r.value.state, h, receiveWindow, a.streams, a.dropped, class_);
    }
  }

  /** The peer's ACCEPT, followed by the credit that opens this end's own window. */
  lemma AcceptedBooks(s: Session.State, m: Session.State, t: Session.State, h: Header, g: Header,
                      context: Session.FrameContext,
                      streams: map<u32, StreamEntry>, dropped: nat)
    requires Owing(s, streams, dropped, 0, 0) && h.command.Accept? && h.streamId in streams
    requires s.Process(Session.Inbound, h, context) == Ok(m)
    requires g.command.Credit? && g.streamId == h.streamId && g.creditDelta == streams[h.streamId].receiveWindow
    requires m.Process(Session.Outbound, g, Session.NoContext) == Ok(t)
    ensures Owing(t, streams[h.streamId := streams[h.streamId].(opener := None)], dropped, 0, 0)
  {
    var id := h.streamId;
    var entry := streams[id].(opener := None);
    ProcessAccept(s, Session.Inbound, h, context, m);
    ProcessCredit(m, g, t);
    UnreadUpdate(streams, id, entry);
    NoDebt(s, streams, dropped, 0, id);
    assert BookAt(s.streams[id], streams, id, 0);
    SetBook(s, t, streams, streams[id := entry], dropped, dropped, id, 0, 0);
    NoDebt(t, streams[id := entry], dropped, id, 0);
  }

  // ---------------------------------------------------------------- receiving

  /** Dropping a finished stream books its unread bytes as dropped. */
  lemma RetireBooks(s: Session.State, streams: map<u32, StreamEntry>, dropped: nat, id: u32)
    requires Owing(s, streams, dropped, 0, 0) && id in streams && id in s.streams && Finished(s.streams[id])
    ensures Owing(s, streams - {id}, dropped + DataBytes(streams[id].inbox), 0, 0)
  {
    UnreadRemove(streams, id);
    NoDebt(s, streams, dropped, 0, id);
    SetBook(s, s, streams, streams - {id}, dropped, dropped + DataBytes(streams[id].inbox), id, 0, 0);
    NoDebt(s, streams - {id}, dropped + DataBytes(streams[id].inbox), id, 0);
  }

  lemma RetireSettled(a: State, id: u32, error: Error)
    requires Balanced(a) && Over(a.core.state, id)
    ensures Balanced(Retire(a, id, error).a)
  {
    if id in a.streams { RetireBooks(a.core.state, a.streams, a.dropped, id); }
  }

  /** A frame in hand, taken from the books of its stream. */
  ghost predicate InHand(a: State, frame: Frame) {
    && Owing(a.core.state, a.streams, a.dropped, frame.header.streamId, Carried(frame)) && QueueOk(a.core)
    && (TerminalFrame(frame) ==> Over(a.core.state, frame.header.streamId))
  }

  lemma HandOverSettled(a: State, frame: Frame, w: Waiter)
    requires Sched.Valid(a.core.sched) && InHand(a, frame)
    ensures var t := HandOver(a, frame.header.streamId, frame, w); t.failure.None? ==> Balanced(t.a)
  {
    var r := a.core.RestoreConsumed(frame);
    if r.Ok? {
      RestoreBooks(a.core, frame, r.value, a.streams, a.dropped);
      NoDebt(r.value.state, a.streams, a.dropped, frame.header.streamId, 0);
      if TerminalFrame(frame) { RetireSettled(a.(core := r.value), frame.header.streamId, Disconnected); }
    }
  }

  lemma PopBooks(s: Session.State, streams: map<u32, StreamEntry>, dropped: nat, id: u32)
    requires Owing(s, streams, dropped, 0, 0) && id in streams && streams[id].inbox != []
    ensures Owing(s, streams[id := streams[id].Popped()], dropped, id, Carried(streams[id].inbox[0]))
    ensures streams[id].inbox[0].header.streamId == id && (TerminalFrame(streams[id].inbox[0]) ==> Over(s, id))
  {
    var e := streams[id];
    UnreadUpdate(streams, id, e.Popped());
    NoDebt(s, streams, dropped, 0, id);
    assert BookAt(s.streams[id], streams, id, 0);
    SetBook(s, s, streams, streams[id := e.Popped()], dropped, dropped, id, 0, Carried(e.inbox[0]));
  }

  lemma ReceiveSettled(a: State, id: u32, w: Waiter)
    requires Sched.Valid(a.core.sched) && Balanced(a) && id in a.streams
    ensures Settled(ReceiveOrWait(a, id, w))
  {
    var entry := a.streams[id];
    if entry.receiver.None? {
      if entry.inbox == [] {
        WaiterChange(a.core.state, a.streams, a.dropped, id, entry.(receiver := Some(w)));
      } else {
        PopBooks(a.core.state, a.streams, a.dropped, id);
        HandOverSettled(a.(streams := a.streams[id := entry.Popped()]), entry.inbox[0], w);
      }
    }
  }

  /** An unread frame goes into the inbox; DATA that the validator accepted always fits. */
  lemma StoreBooks(s: Session.State, streams: map<u32, StreamEntry>, dropped: nat, frame: Frame)
    requires var id := frame.header.streamId;
      && Owing(s, streams, dropped, id, Carried(frame)) && id in streams
      && frame.header.payloadLength == |frame.payload|
      && (if frame.header.command == Data then s.streams[id].phase == Session.Accepted else Over(s, id))
    ensures var id := frame.header.streamId;
      var e := streams[id];
      var bytes := e.inboxBytes + |frame.payload|;
      && Owing(s, streams[id := e.(inboxBytes := bytes, inbox := e.inbox + [frame])], dropped, 0, 0)
      && (frame.header.command == Data ==> bytes <= e.receiveWindow)
  {
    var id := frame.header.streamId;
    var e := streams[id];
    var f := e.(inboxBytes := e.inboxBytes + |frame.payload|, inbox := e.inbox + [frame]);
    DataBytesAppend(e.inbox, frame);
    UnreadUpdate(streams, id, f);
    assert BookAt(s.streams[id], streams, id, Carried(frame));
    SetBook(s, s, streams, streams[id := f], dropped, dropped, id, Carried(frame), 0);
    NoDebt(s, streams[id := f], dropped, id, 0);
  }

  lemma UnhookReceiver(s: Session.State, streams: map<u32, StreamEntry>, dropped: nat, id: u32, owed: nat)
    requires Owing(s, streams, dropped, id, owed) && id in streams
    ensures Owing(s, streams[id := streams[id].(receiver := None)], dropped, id, owed)
  {
    var entry := streams[id].(receiver := None);
    UnreadUpdate(streams, id, entry);
    assert BookAt(s.streams[id], streams, id, owed);
    SetBook(s, s, streams, streams[id := entry], dropped, dropped, id, owed, owed);
  }

  lemma DeliverToReceiver(a: State, frame: Frame)
    requires Sched.Valid(a.core.sched) && InHand(a, frame)
    requires frame.header.streamId in a.streams && a.streams[frame.header.streamId].receiver.Some?
    ensures var t := Deliver(a, frame); t.failure.None? ==> Balanced(t.a)
  {
    var id := frame.header.streamId;
    var entry := a.streams[id];
    UnhookReceiver(a.core.state, a.streams, a.dropped, id, Carried(frame));
    HandOverSettled(a.(streams := a.streams[id := entry.(receiver := None)]), frame, entry.receiver.value);
  }

  lemma DeliverStores(a: State, frame: Frame)
    requires a.core.sched.Shaped() && frame.header.streamId in a.streams
    requires a.streams[frame.header.streamId].receiver.None?
    ensures var t, id := Deliver(a, frame), frame.header.streamId;
      var e := a.streams[id];
      var f := e.(inboxBytes := e.inboxBytes + |frame.payload|, inbox := e.inbox + [frame]);
      t.failure.None? ==> t.a == a.(streams := a.streams[id := f])
  {
  }

  lemma DeliverStored(a: State, frame: Frame)
    requires Sched.Valid(a.core.sched) && InHand(a, frame) && frame.header.payloadLength == |frame.payload|
    requires var id := frame.header.streamId;
      && id in a.streams && a.streams[id].receiver.None?
      && (frame.header.command == Data ==>
            id in a.core.state.streams && a.core.state.streams[id].phase == Session.Accepted)
      && (frame.header.command == Data || TerminalFrame(frame))
    ensures var t := Deliver(a, frame); t.failure.None? ==> Balanced(t.a)
  {
    DeliverStores(a, frame);
    StoreBooks(a.core.state, a.streams, a.dropped, frame);
  }

  lemma DeliverSettled(a: State, frame: Frame)
    requires Sched.Valid(a.core.sched) && InHand(a, frame) && frame.header.payloadLength == |frame.payload|
    requires frame.header.command == Data ==>
      && frame.header.streamId in a.core.state.streams
      && a.core.state.streams[frame.header.streamId].phase == Session.Accepted
    requires frame.header.command == Data || TerminalFrame(frame)
    ensures var t := Deliver(a, frame); t.failure.None? ==> Balanced(t.a)
  {
    var id := frame.header.streamId;
    if id in a.streams {
      if a.streams[id].receiver.Some? {
        DeliverToReceiver(a, frame);
      } else {
        DeliverStored(a, frame);
      }
    }
  }

  // ---------------------------------------------------------------- inbound frames

  lemma InboundQueue(core: Core, h: Header, context: Session.FrameContext, s: Session.State)
    requires QueueOk(core) && core.state.Process(Session.Inbound, h, context) == Ok(s)
    ensures QueueOk(core.(state := s))
  {
    forall id: u32
      ensures QueueAt(core.(state := s), id)
    {
      assert QueueAt(core, id);
      if Over(core.state, id) { ProcessOver(core.state, Session.Inbound, h, context, s, id); }
    }
  }

  lemma DataSettled(a: State, frame: Frame, s: Session.State)
    requires Sched.Valid(a.core.sched) && Balanced(a) && frame.header.payloadLength == |frame.payload|
    requires frame.header.command == Data
    requires a.core.state.Process(Session.Inbound, frame.header, Session.NoContext) == Ok(s)
    ensures frame.header.streamId in a.core.state.streams && frame.header.streamId in s.streams
    ensures s.streams[frame.header.streamId].phase == a.core.state.streams[frame.header.streamId].phase
    ensures InHand(a.(core := a.core.(state := s)), frame)
  {
    InboundQueue(a.core, frame.header, Session.NoContext, s);
    ProcessData(a.core.state, frame.header, s);
    DataTaken(a.core.state, s, a.streams, a.dropped, frame.header);
  }

  lemma QuietSettled(a: State, frame: Frame, s: Session.State)
    requires Balanced(a) && a.core.state.Process(Session.Inbound, frame.header, Session.NoContext) == Ok(s)
    requires var c := frame.header.command;
      c.Reject? || c.Close? || c.Reset? || c.Ping? || c.Pong? || c.GoAway? || c.Credit?
    ensures Balanced(a.(core := a.core.(state := s)))
    ensures TerminalFrame(frame) ==> InHand(a.(core := a.core.(state := s)), frame)
  {
    InboundQueue(a.core, frame.header, Session.NoContext, s);
    ProcessQuiet(a.core.state, Session.Inbound, frame.header, Session.NoContext, s);
    QuietOwing(a.core.state, s, a.streams, a.dropped, 0, 0);
    NoDebt(s, a.streams, a.dropped, 0, frame.header.streamId);
  }

  lemma RejectSettled(a: State, id: u32)
    requires Balanced(a) && id in a.core.state.streams && a.core.state.streams[id].phase == Session.Rejected
    ensures Balanced(a.(streams := a.streams - {id}))
  {
    if id in a.streams {
      NoDebt(a.core.state, a.streams, a.dropped, 0, id);
      assert BookAt(a.core.state.streams[id], a.streams, id, 0);
      RetireBooks(a.core.state, a.streams, a.dropped, id);
    } else {
      assert a.streams - {id} == a.streams;
    }
  }

  lemma ProcessReject(s: Session.State, h: Header, context: Session.FrameContext, t: Session.State)
    requires s.Process(Session.Inbound, h, context) == Ok(t) && h.command.Reject?
    ensures h.streamId in t.streams && t.streams[h.streamId].phase == Session.Rejected
  {
    ProcessApplies(s, Session.Inbound, h, context, t);
  }

  lemma CompleteOpenSettled(a: State, frame: Frame, context: Session.FrameContext, s: Session.State)
    requires Sched.Valid(a.core.sched) && Balanced(a) && frame.header.command.Accept?
    requires a.core.state.Process(Session.Inbound, frame.header, context) == Ok(s)
    ensures Settled(CompleteOpen(a.(core := a.core.(state := s)), frame.header.streamId))
  {
    var id := frame.header.streamId;
    var core := a.core.(state := s);
    InboundQueue(a.core, frame.header, context, s);
    if id in a.streams {
      var r := core.QueueCredit(id, a.streams[id].receiveWindow);
      if r.Ok? {
        var g := CreditQueued(core, id, a.streams[id].receiveWindow, r.value);
        AcceptedBooks(a.core.state, s, r.value.state, frame.header, g, context, a.streams, a.dropped);
      }
    }
  }

  lemma LateSettled(a: State, frame: Frame)
    requires Sched.Valid(a.core.sched) && InHand(a, frame)
    ensures var r := a.core.RestoreConsumed(frame); r.Ok? ==> Balanced(a.(core := r.value))
  {
    var r := a.core.RestoreConsumed(frame);
    if r.Ok? {
      RestoreBooks(a.core, frame, r.value, a.streams, a.dropped);
      NoDebt(r.value.state, a.streams, a.dropped, frame.header.streamId, 0);
    }
  }

  lemma OpenedByPeer(a: State, frame: Frame, s: Session.State)
    requires Balanced(a) && frame.header.command.Open?
    requires a.core.state.Process(Session.Inbound, frame.header, Session.NoContext) == Ok(s)
    ensures Balanced(a.(core := a.core.(state := s),
      streams := a.streams[frame.header.streamId := NewEntry(Sched.Bulk, 0)]))
  {
    InboundQueue(a.core, frame.header, Session.NoContext, s);
    OpenBooks(a.core.state, s, Session.Inbound, frame.header, a.streams, a.dropped, NewEntry(Sched.Bulk, 0));
  }

  /** What follows a frame's acceptance by the validator, for the frames that touch the books. */
  lemma DispatchBooks(a: State, frame: Frame, reading: Reading, s: Session.State)
    requires Inv(a) && Balanced(a) && frame.header.payloadLength == |frame.payload|
    requires a.core.state.Process(Session.Inbound, frame.header, Session.NoContext) == Ok(s)
    requires var c := frame.header.command; c.Data? || c.Close? || c.Reset? || c.Open? || c.Reject?
    ensures Settled(Dispatch(a.(core := a.core.(state := s)), frame, reading, Late(a, frame)))
  {
    var b := a.(core := a.core.(state := s));
    match frame.header.command
    case Data =>
      DataSettled(a, frame, s);
      if Late(a, frame) {
        LateSettled(b, frame);
      } else {
        ProcessData(a.core.state, frame.header, s);
        DeliverSettled(b, frame);
      }
    case Open => OpenedByPeer(a, frame, s);
    case Reject =>
      QuietSettled(a, frame, s);
      ProcessReject(a.core.state, frame.header, Session.NoContext, s);
      RejectSettled(b, frame.header.streamId);
    case _ =>
      QuietSettled(a, frame, s);
      DeliverSettled(b, frame);
  }

  lemma DispatchControl(a: State, frame: Frame, reading: Reading, s: Session.State)
    requires Inv(a) && Balanced(a)
    requires a.core.state.Process(Session.Inbound, frame.header, Session.NoContext) == Ok(s)
    requires var c := frame.header.command; !(c.Data? || c.Close? || c.Reset? || c.Open? || c.Reject? || c.Accept?)
    ensures Settled(Dispatch(a.(core := a.core.(state := s)), frame, reading, false))
  {
    match frame.header.command
    case Credit => DispatchCredit(a, frame, reading, s);
    case Ping => DispatchPing(a, frame, reading, s);
    case Pong => QuietSettled(a, frame, s);
    case _ =>
  }

  lemma CreditReady(a: State, frame: Frame, s: Session.State)
    requires Inv(a) && Balanced(a) && frame.header.command == Credit
    requires a.core.state.Process(Session.Inbound, frame.header, Session.NoContext) == Ok(s)
    ensures Inv(a.(core := a.core.(state := s))) && Balanced(a.(core := a.core.(state := s)))
  {
    var b := a.(core := a.core.(state := s));
    ProcessKeepsSequences(a.core.state, Session.Inbound, frame.header, Session.NoContext);
    StateKeeps(a.core, s);
    Reassemble(a, b.core, a.streams);
    QuietSettled(a, frame, s);
  }

  lemma DispatchCredit(a: State, frame: Frame, reading: Reading, s: Session.State)
    requires Inv(a) && Balanced(a) && frame.header.command == Credit
    requires a.core.state.Process(Session.Inbound, frame.header, Session.NoContext) == Ok(s)
    ensures Settled(Dispatch(a.(core := a.core.(state := s)), frame, reading, false))
  {
    var b := a.(core := a.core.(state := s));
    CreditReady(a, frame, s);
    CreditFlushes(b, frame, reading);
  }

  lemma CreditFlushes(b: State, frame: Frame, reading: Reading)
    requires Inv(b) && Balanced(b) && frame.header.command == Credit
    ensures Settled(Dispatch(b, frame, reading, false))
  {
    if frame.header.streamId == 0 {
      FlushAllSettled(b, reading.ids);
    } else {
      FlushPendingSettled(b, frame.header.streamId);
    }
  }

  lemma DispatchPing(a: State, frame: Frame, reading: Reading, s: Session.State)
    requires Inv(a) && Balanced(a) && frame.header.command == Command.Ping
    requires a.core.state.Process(Session.Inbound, frame.header, Session.NoContext) == Ok(s)
    ensures Settled(Dispatch(a.(core := a.core.(state := s)), frame, reading, false))
  {
    QuietSettled(a, frame, s);
    ControlSettled(a.(core := a.core.(state := s)), Command.Pong, frame.payload);
  }

  function Late(a: State, frame: Frame): bool {
    && frame.header.command == Data && a.core.state.Stream(frame.header.streamId).Some?
    && a.core.state.Stream(frame.header.streamId).value.phase.Terminal()
  }

  lemma RenewedBalances(a: State)
    requires Renewed(a.core.state) && a.streams == map[] && a.dropped == 0
    requires a.core.sched == Sched.New(MAX_SCHEDULED_BYTES)
    ensures Balanced(a)
  {
    Sched.NewValid(MAX_SCHEDULED_BYTES);
    forall id: u32
      ensures QueueAt(a.core, id)
    {
      assert Sched.StreamOk(a.core.sched, id) && Sched.Pending(a.core.sched, id) == [];
    }
  }

  lemma InboundSettled(a: State, frame: Frame, reading: Reading)
    requires Inv(a) && Books(a) && EventOk(Inbound(frame, reading))
    ensures Settled(HandleInbound(a, frame, reading))
  {
    var h := frame.header;
    if h.command == Hello && h.streamId == 0 && a.restartable {
      if reading.restarted.Some? && reading.helloWritten { RenewedBalances(RestartSession(a, reading).a); }
    } else if h.command != Hello && !a.awaitingRestart {
      var context := if h.command == Command.Accept then Session.FrameContext(None, reading.acceptWindow)
                     else Session.NoContext;
      var processed := a.core.state.Process(Session.Inbound, h, context);
      if processed.Ok? {
        var c := h.command;
        if c.Accept? {
          CompleteOpenSettled(a, frame, context, processed.value);
        } else if c.Data? || c.Close? || c.Reset? || c.Open? || c.Reject? {
          DispatchBooks(a, frame, reading, processed.value);
        } else {
          DispatchControl(a, frame, reading, processed.value);
        }
      }
    }
  }

  // ---------------------------------------------------------------- dequeues, commands, runs

  lemma ShrinkQueue(core: Core, t: Sched.State, out: Option<Sched.Item>)
    requires Sched.Valid(core.sched) && QueueOk(core) && Sched.Emits(core.sched, out, t)
    ensures QueueOk(core.(sched := t))
    ensures out.Some? && TerminalFrame(out.value.frame) ==> Over(core.state, out.value.StreamId())
  {
    forall id: u32
      ensures QueueAt(core.(sched := t), id)
    {
      assert QueueAt(core, id) && Sched.StreamOk(t, id);
      assert Sched.Pending(core.sched, id) ==
        (if out.Some? then Sched.Tail(out.value, id) else []) + Sched.Pending(t, id);
    }
    if out.Some? {
      var id := out.value.StreamId();
      assert QueueAt(core, id);
      assert Sched.Pending(core.sched, id)[0] == out.value;
    }
  }

  lemma DequeueSettled(a: State, written: bool)
    requires Sched.Valid(a.core.sched) && Balanced(a)
    ensures var t := HandleDequeue(a, written); t.failure.None? ==> Balanced(t.a)
  {
    Sched.DequeueSpec(a.core.sched);
    var (sched, out) := a.core.sched.Dequeue();
    ShrinkQueue(a.core, sched, out);
    if out.Some? && written && TerminalFrame(out.value.frame) {
      var id := out.value.StreamId();
      if id in a.streams { RetireBooks(a.core.state, a.streams, a.dropped, id); }
    }
  }

  /** CLOSE, RESET and REJECT, queued at once. */
  lemma TellSettled(a: State, token: nat, call: Call)
    requires Sched.Valid(a.core.sched) && Balanced(a) && (call.Reject? || call.Close? || call.Reset?)
    ensures Settled(HandleCommand(a, token, call))
  {
    match call
    case Reject(id, payload) => QueueAndTellSettled(a, Waiter(token, ToReject), Command.Reject, id, payload);
    case Close(id) => QueueAndTellSettled(a, Waiter(token, ToClose), Command.Close, id, []);
    case Reset(id, payload) => QueueAndTellSettled(a, Waiter(token, ToReset), Command.Reset, id, payload);
  }

  lemma CancelSettled(a: State, token: nat, id: u32)
    requires Sched.Valid(a.core.sched) && Balanced(a)
    ensures Settled(HandleCommand(a, token, Call.CancelReceive(id)))
  {
    if id in a.streams { WaiterChange(a.core.state, a.streams, a.dropped, id, a.streams[id].(receiver := None)); }
  }

  /** What passes through the inbox and the outbox of a stream. */
  lemma TransferSettled(a: State, token: nat, call: Call)
    requires Sched.Valid(a.core.sched) && Balanced(a) && (call.SendData? || call.Receive?)
    ensures Settled(HandleCommand(a, token, call))
  {
    match call
    case SendData(id, payload, end) =>
      if id in a.streams { SendOrWaitSettled(a, id, payload, end, Waiter(token, ToSend(id, payload, end))); }
    case Receive(id) => if id in a.streams { ReceiveSettled(a, id, Waiter(token, ToReceive(id))); }
  }

  lemma LeaveSessionSettled(a: State, w: Waiter)
    requires Sched.Valid(a.core.sched) && Balanced(a)
    ensures Settled(LeaveSession(a, w))
  {
    ControlSettled(a, Command.GoAway, []);
  }

  lemma PingPeerSettled(a: State, w: Waiter, payload: seq<byte>)
    requires Sched.Valid(a.core.sched) && Balanced(a)
    ensures Settled(PingPeer(a, w, payload))
  {
    ControlSettled(a, Command.Ping, payload);
  }

  lemma CommandSettled(a: State, token: nat, call: Call)
    requires Sched.Valid(a.core.sched) && Balanced(a)
    ensures Settled(HandleCommand(a, token, call))
  {
    match call
    case Open(payload, receiveWindow, class_) => OpenSettled(a, token, payload, receiveWindow, class_);
    case Accept(id, payload, receiveWindow, class_) => AcceptSettled(a, token, id, payload, receiveWindow, class_);
    case SendData(_, _, _) => TransferSettled(a, token, call);
    case Receive(_) => TransferSettled(a, token, call);
    case CancelReceive(id) => CancelSettled(a, token, id);
    case GoAway => LeaveSessionSettled(a, Waiter(token, ToGoAway));
    case Ping(payload) => PingPeerSettled(a, Waiter(token, ToPing), payload);
    case _ => TellSettled(a, token, call);
  }
}
