/** The outbound side of the connection actor in every run: its sequence numbers are the
    validator's, what reaches the sink is consecutive per stream, and a send is confirmed
    only by the write of its own frame. */
module ActorOutbound {
  import opened Results
  import opened Wire
  import Session
  import Sched = Scheduler
  import opened Actor

  // ---------------------------------------------------------------- invariant

  /** Frames of a stream since the scheduler was last replaced: written, then still queued. */
  ghost function Track(sched: Sched.State, sent: seq<Sched.Item>, id: u32): seq<Sched.Item>
    requires Sched.StreamOk(sched, id)
  {
    Sched.Filter(sent, id) + Sched.Pending(sched, id)
  }

  /** Consecutive sequence numbers that end just before `next`. */
  predicate Consecutive(items: seq<Sched.Item>, next: u32) {
    |items| <= next && forall k :: 0 <= k < |items| ==> items[k].frame.header.sequence == next - |items| + k
  }

  ghost predicate TrackOk(core: Core, sent: seq<Sched.Item>, id: u32) {
    Sched.StreamOk(core.sched, id) && Consecutive(Track(core.sched, sent, id), core.NextSequence(id))
  }

  /** The actor's counters are what the validator expects next. */
  ghost predicate Agrees(core: Core, id: u32) {
    core.NextSequence(id) == Session.Expected(core.state.outbound, id)
  }

  ghost predicate CoreOk(core: Core, sent: seq<Sched.Item>, awaiting: bool) {
    && Sched.Valid(core.sched)
    && (forall id: u32 :: TrackOk(core, sent, id))
    && (!awaiting ==> forall id: u32 :: Agrees(core, id))
  }

  /** The queued frame a write waiter waits for. */
  ghost predicate Awaits(item: Sched.Item, key: (u32, u32), w: Waiter) {
    && item.frame.header.sequence == key.1 && item.frame.header.command == Data && w.ask.ToSend?
    && w.ask.id == key.0 && item.frame.payload == w.ask.payload && item.frame.header.EndStream() == w.ask.end
  }

  ghost predicate WaiterOk(sched: Sched.State, key: (u32, u32), w: Waiter) {
    Sched.StreamOk(sched, key.0) && exists item :: item in Sched.Pending(sched, key.0) && Awaits(item, key, w)
  }

  ghost predicate EntryOk(id: u32, entry: StreamEntry) {
    && (entry.pendingSend.Some? ==>
          var p := entry.pendingSend.value; p.waiter.ask == ToSend(id, p.payload, p.end))
    && (entry.receiver.Some? ==> entry.receiver.value.ask == ToReceive(id))
    && (entry.opener.Some? ==> entry.opener.value.ask == ToOpen)
  }

  ghost predicate EntriesOk(streams: map<u32, StreamEntry>) {
    forall id :: id in streams ==> EntryOk(id, streams[id])
  }

  ghost predicate WaitersOk(sched: Sched.State, waiters: map<(u32, u32), Waiter>) {
    forall key :: key in waiters ==> WaiterOk(sched, key, waiters[key])
  }

  ghost predicate OutOk(core: Core, sent: seq<Sched.Item>, waiters: map<(u32, u32), Waiter>, awaiting: bool) {
    CoreOk(core, sent, awaiting) && WaitersOk(core.sched, waiters)
  }

  ghost predicate GoAwayOk(a: State) { a.pendingGoAway.Some? ==> a.pendingGoAway.value.ask == ToGoAway }

  ghost predicate Inv(a: State) {
    && OutOk(a.core, a.sent, a.writeWaiters, a.awaitingRestart)
    && EntriesOk(a.streams)
    && GoAwayOk(a)
  }

  // ---------------------------------------------------------------- queueing one frame

  /** `core'` is `core` with one more frame, numbered, at the back of its stream. */
  ghost predicate Emitted(core: Core, core': Core, item: Sched.Item) {
    && Sched.Valid(core.sched) && Sched.Valid(core'.sched)
    && item.frame.header.sequence == core.NextSequence(item.StreamId()) < U32_MAX
    && (forall id: u32 :: core'.NextSequence(id) == core.NextSequence(id) + (if id == item.StreamId() then 1 else 0))
    && (forall id: u32 :: Sched.Pending(core'.sched, id) == Sched.Pending(core.sched, id) + Sched.Tail(item, id))
    && (forall id: u32 :: Agrees(core, id) ==> Agrees(core', id))
  }

  lemma ProcessKeepsSequences(s: Session.State, dir: Session.Direction, h: Header, context: Session.FrameContext)
    requires s.Process(dir, h, context).Ok?
    ensures var s' := s.Process(dir, h, context).value;
      && (dir == Session.Inbound ==> s'.outbound == s.outbound)
      && (dir == Session.Outbound ==>
            && h.sequence == Session.Expected(s.outbound, h.streamId)
            && (h.sequence < U32_MAX ==> s'.outbound == s.outbound[h.streamId := h.sequence + 1]))
  {
    var s1 := s.Apply(dir, h, context).value;
    assert s1.outbound == s.outbound && s1.inbound == s.inbound;
  }

  lemma EmitSpec(core: Core, h: Header, payload: seq<byte>, class_: Sched.TrafficClass, context: Session.FrameContext,
                 core': Core)
    returns (item: Sched.Item)
    requires Sched.Valid(core.sched) && core.Emit(h, payload, class_, context) == Ok(core')
    ensures Emitted(core, core', item)
    ensures |payload| <= U32_MAX && item.frame ==
      Frame(h.(sequence := core.NextSequence(h.streamId), payloadLength := |payload|), payload)
  {
    var header := h.(sequence := core.NextSequence(h.streamId), payloadLength := |payload|);
    item := Sched.Item(class_, Frame(header, payload));
    Sched.EnqueueSpec(core.sched, item);
    ProcessKeepsSequences(core.state, Session.Outbound, header, context);
  }

  lemma EmittedTrack(core: Core, core': Core, item: Sched.Item, sent: seq<Sched.Item>, id: u32)
    requires Emitted(core, core', item) && TrackOk(core, sent, id)
    ensures TrackOk(core', sent, id)
  {
    assert Sched.StreamOk(core'.sched, id);
    assert Sched.Pending(core'.sched, id) == Sched.Pending(core.sched, id) + Sched.Tail(item, id);
    OneMore(Sched.Filter(sent, id), Sched.Pending(core.sched, id), Sched.Tail(item, id));
    MoreConsecutive(Track(core.sched, sent, id), core.NextSequence(id), item, Sched.Tail(item, id),
                    core'.NextSequence(id));
  }

  lemma OneMore(a: seq<Sched.Item>, b: seq<Sched.Item>, c: seq<Sched.Item>)
    ensures a + (b + c) == (a + b) + c
  {
  }

  lemma MoreConsecutive(items: seq<Sched.Item>, next: u32, item: Sched.Item, tail: seq<Sched.Item>, next': u32)
    requires Consecutive(items, next) && next' == next + |tail|
    requires tail == [] || (tail == [item] && item.frame.header.sequence == next)
    ensures Consecutive(items + tail, next')
  {
  }

  lemma EmittedWaiter(core: Core, core': Core, item: Sched.Item, key: (u32, u32), w: Waiter)
    requires Emitted(core, core', item) && WaiterOk(core.sched, key, w)
    ensures WaiterOk(core'.sched, key, w)
  {
    var i :| i in Sched.Pending(core.sched, key.0) && Awaits(i, key, w);
    assert Sched.StreamOk(core'.sched, key.0);
    assert i in Sched.Pending(core'.sched, key.0);
  }

  lemma EmittedKeeps(core: Core, core': Core, item: Sched.Item, sent: seq<Sched.Item>,
                     waiters: map<(u32, u32), Waiter>, awaiting: bool)
    requires OutOk(core, sent, waiters, awaiting) && Emitted(core, core', item)
    ensures OutOk(core', sent, waiters, awaiting)
  {
    forall id: u32
      ensures TrackOk(core', sent, id)
    {
      EmittedTrack(core, core', item, sent, id);
    }
    forall key | key in waiters
      ensures WaiterOk(core'.sched, key, waiters[key])
    {
      EmittedWaiter(core, core', item, key, waiters[key]);
    }
  }

  /** Any chain of queued frames keeps the invariant of the outbound path. */
  ghost predicate Keeps(core: Core, core': Core) {
    forall sent, waiters, awaiting :: OutOk(core, sent, waiters, awaiting) ==> OutOk(core', sent, waiters, awaiting)
  }

  lemma EmitKeeps(core: Core, h: Header, payload: seq<byte>, class_: Sched.TrafficClass, context: Session.FrameContext)
    requires Sched.Valid(core.sched) && core.Emit(h, payload, class_, context).Ok?
    ensures Keeps(core, core.Emit(h, payload, class_, context).value)
  {
    var core' := core.Emit(h, payload, class_, context).value;
    var item := EmitSpec(core, h, payload, class_, context, core');
    forall sent, waiters, awaiting | OutOk(core, sent, waiters, awaiting)
      ensures OutOk(core', sent, waiters, awaiting)
    {
      EmittedKeeps(core, core', item, sent, waiters, awaiting);
    }
  }

  lemma QueueFrameKeeps(core: Core, command: Command, id: u32, payload: seq<byte>, end: bool,
                        class_: Sched.TrafficClass,
                        context: Session.FrameContext)
    requires Sched.Valid(core.sched) && core.QueueFrame(command, id, payload, end, class_, context).Ok?
    ensures Keeps(core, core.QueueFrame(command, id, payload, end, class_, context).value)
  {
    EmitKeeps(core, NewHeader(command, id, 0).(flags := if end then 1 else 0), payload,
              if Sched.ForCommand(command) == Sched.Control then Sched.Control else class_, context);
  }

  lemma QueueCreditKeeps(core: Core, id: u32, delta: u32)
    requires Sched.Valid(core.sched) && core.QueueCredit(id, delta).Ok?
    ensures Keeps(core, core.QueueCredit(id, delta).value) && Sched.Valid(core.QueueCredit(id, delta).value.sched)
  {
    EmitKeeps(core, NewHeader(Credit, id, 0).(creditDelta := delta), [], Sched.Control, Session.NoContext);
    var item := EmitSpec(core, NewHeader(Credit, id, 0).(creditDelta := delta), [], Sched.Control, Session.NoContext,
                         core.QueueCredit(id, delta).value);
  }

  lemma KeepsTwice(a: Core, b: Core, c: Core)
    requires Keeps(a, b) && Keeps(b, c)
    ensures Keeps(a, c)
  {
    forall sent, waiters, awaiting | OutOk(a, sent, waiters, awaiting)
      ensures OutOk(c, sent, waiters, awaiting)
    {
      assert OutOk(b, sent, waiters, awaiting);
    }
  }

  lemma TwoCreditsKeep(core: Core, id: u32, delta: u32)
    requires Sched.Valid(core.sched) && core.QueueCredit(id, delta).Ok?
    requires core.QueueCredit(id, delta).value.QueueCredit(0, delta).Ok?
    ensures Keeps(core, core.QueueCredit(id, delta).value.QueueCredit(0, delta).value)
  {
    var middle := core.QueueCredit(id, delta).value;
    QueueCreditKeeps(core, id, delta);
    QueueCreditKeeps(middle, 0, delta);
    KeepsTwice(core, middle, middle.QueueCredit(0, delta).value);
  }

  lemma RestoreKeeps(core: Core, frame: Frame)
    requires Sched.Valid(core.sched) && core.RestoreConsumed(frame).Ok?
    ensures Keeps(core, core.RestoreConsumed(frame).value)
  {
    var h := frame.header;
    if h.command == Data && h.payloadLength != 0 {
      if !h.EndStream() && core.state.Stream(h.streamId).Some?
         && core.state.Stream(h.streamId).value.phase == Session.Accepted {
        TwoCreditsKeep(core, h.streamId, h.payloadLength);
      } else {
        QueueCreditKeeps(core, 0, h.payloadLength);
      }
    }
  }

  /** A change of the validator that leaves its outbound sequences alone. */
  lemma StateKeeps(core: Core, s: Session.State)
    requires s.outbound == core.state.outbound
    ensures Keeps(core, core.(state := s))
  {
    var core' := core.(state := s);
    forall sent, waiters, awaiting | OutOk(core, sent, waiters, awaiting)
      ensures OutOk(core', sent, waiters, awaiting)
    {
      forall id: u32
        ensures TrackOk(core', sent, id) && (!awaiting ==> Agrees(core', id))
      {
        assert TrackOk(core, sent, id);
        assert !awaiting ==> Agrees(core, id);
        assert core'.NextSequence(id) == core.NextSequence(id);
      }
    }
  }

  // ---------------------------------------------------------------- handlers

  /** No reply tells a sender that its data was written. */
  ghost predicate NoConfirm(replies: seq<Reply>) {
    forall r :: r in replies && r.to.ask.ToSend? ==> r.answer.Refused?
  }

  ghost predicate Good(t: Turn) {
    (t.failure.None? ==> Inv(t.a)) && GoAwayOk(t.a) && NoConfirm(t.replies)
  }

  /** New core and streams under an otherwise unchanged actor. */
  lemma Reassemble(a: State, core': Core, streams': map<u32, StreamEntry>)
    requires Inv(a) && Keeps(a.core, core') && EntriesOk(streams')
    ensures Inv(a.(core := core', streams := streams'))
  {
  }

  lemma SetEntry(streams: map<u32, StreamEntry>, id: u32, entry: StreamEntry)
    requires EntriesOk(streams) && EntryOk(id, entry)
    ensures EntriesOk(streams[id := entry]) && EntriesOk(streams - {id})
  {
  }

  lemma SetStreams(a: State, id: u32, entry: StreamEntry)
    requires Inv(a) && EntryOk(id, entry)
    ensures Inv(a.(streams := a.streams[id := entry]))
  {
    SetEntry(a.streams, id, entry);
  }

  lemma NewWaiter(core: Core, core': Core, id: u32, class_: Sched.TrafficClass, payload: seq<byte>, end: bool,
                  w: Waiter)
    requires Sched.Valid(core.sched) && w.ask == ToSend(id, payload, end)
    requires core.QueueFrame(Data, id, payload, end, class_, Session.NoContext) == Ok(core')
    ensures WaiterOk(core'.sched, (id, core.NextSequence(id)), w)
  {
    var item := EmitSpec(core, NewHeader(Data, id, 0).(flags := if end then 1 else 0), payload,
                         if Sched.ForCommand(Data) == Sched.Control then Sched.Control else class_,
                         Session.NoContext, core');
    assert Sched.StreamOk(core'.sched, id);
    assert item in Sched.Pending(core'.sched, id);
    assert Awaits(item, (id, core.NextSequence(id)), w);
  }

  lemma AddWaiter(core: Core, sent: seq<Sched.Item>, waiters: map<(u32, u32), Waiter>, awaiting: bool,
                  key: (u32, u32), w: Waiter)
    requires OutOk(core, sent, waiters, awaiting) && WaiterOk(core.sched, key, w)
    ensures OutOk(core, sent, waiters[key := w], awaiting)
  {
  }

  lemma SendNowGood(a: State, id: u32, class_: Sched.TrafficClass, payload: seq<byte>, end: bool, w: Waiter)
    requires Inv(a) && w.ask == ToSend(id, payload, end)
    ensures Good(SendNow(a, id, class_, payload, end, w))
  {
    var r := a.core.QueueFrame(Data, id, payload, end, class_, Session.NoContext);
    if r.Ok? {
      QueueFrameKeeps(a.core, Data, id, payload, end, class_, Session.NoContext);
      NewWaiter(a.core, r.value, id, class_, payload, end, w);
      assert OutOk(r.value, a.sent, a.writeWaiters, a.awaitingRestart);
      AddWaiter(r.value, a.sent, a.writeWaiters, a.awaitingRestart, (id, a.core.NextSequence(id)), w);
    }
  }

  lemma SendOrWaitGood(a: State, id: u32, payload: seq<byte>, end: bool, w: Waiter)
    requires Inv(a) && id in a.streams && w.ask == ToSend(id, payload, end)
    ensures Good(SendOrWait(a, id, payload, end, w))
  {
    var entry := a.streams[id];
    SendNowGood(a, id, entry.class_, payload, end, w);
    SetStreams(a, id, entry.(pendingSend := Some(PendingSend(payload, end, w))));
  }

  lemma FlushPendingGood(a: State, id: u32)
    requires Inv(a)
    ensures Good(FlushPending(a, id))
  {
    if id in a.streams && a.streams[id].pendingSend.Some? {
      var entry := a.streams[id];
      var pending := entry.pendingSend.value;
      assert EntryOk(id, entry);
      SetStreams(a, id, entry.(pendingSend := None));
      var b := a.(streams := a.streams[id := entry.(pendingSend := None)]);
      SendNowGood(b, id, entry.class_, pending.payload, pending.end, pending.waiter);
    }
  }

  lemma {:induction false} FlushAllGood(a: State, ids: seq<u32>)
    requires Inv(a)
    ensures Good(FlushAll(a, ids))
    decreases |ids|
  {
    if ids != [] {
      FlushPendingGood(a, ids[0]);
      var first := FlushPending(a, ids[0]);
      if first.failure.None? { FlushAllGood(first.a, ids[1..]); }
    }
  }

  lemma RetireGood(a: State, id: u32, error: Error)
    requires Inv(a)
    ensures Good(Retire(a, id, error)) && Retire(a, id, error).failure.None?
  {
    FewerWaiters(a.core, a.sent, a.writeWaiters, a.awaitingRestart, id);
    if id in a.streams {
      SetEntry(a.streams, id, a.streams[id]);
      OnlyRefusals(a.streams[id], error);
    }
  }

  lemma FewerWaiters(core: Core, sent: seq<Sched.Item>, waiters: map<(u32, u32), Waiter>, awaiting: bool, id: u32)
    requires OutOk(core, sent, waiters, awaiting)
    ensures OutOk(core, sent, map key | key in waiters && key.0 != id :: waiters[key], awaiting)
  {
  }

  lemma OnlyRefusals(entry: StreamEntry, error: Error)
    ensures NoConfirm(EntryRefusals(entry, error))
  {
  }

  lemma HandOverGood(a: State, id: u32, frame: Frame, w: Waiter)
    requires Inv(a) && w.ask == ToReceive(id)
    ensures Good(HandOver(a, id, frame, w))
  {
    var r := a.core.RestoreConsumed(frame);
    if r.Ok? {
      RestoreKeeps(a.core, frame);
      Reassemble(a, r.value, a.streams);
      RetireGood(a.(core := r.value), id, Disconnected);
    }
  }

  lemma ReceiveGood(a: State, id: u32, w: Waiter)
    requires Inv(a) && id in a.streams && w.ask == ToReceive(id)
    ensures Good(ReceiveOrWait(a, id, w))
  {
    var entry := a.streams[id];
    assert EntryOk(id, entry);
    if entry.receiver.None? {
      if entry.inbox == [] {
        SetStreams(a, id, entry.(receiver := Some(w)));
      } else {
        var entry' := entry.Popped();
        SetStreams(a, id, entry');
        HandOverGood(a.(streams := a.streams[id := entry']), id, entry.inbox[0], w);
      }
    }
  }

  lemma DeliverGood(a: State, frame: Frame)
    requires Inv(a)
    ensures Good(Deliver(a, frame))
  {
    var id := frame.header.streamId;
    if id in a.streams {
      var entry := a.streams[id];
      assert EntryOk(id, entry);
      if entry.receiver.Some? {
        SetStreams(a, id, entry.(receiver := None));
        HandOverGood(a.(streams := a.streams[id := entry.(receiver := None)]), id, frame, entry.receiver.value);
      } else {
        SetStreams(a, id, entry.(inboxBytes := entry.inboxBytes + |frame.payload|, inbox := entry.inbox + [frame]));
      }
    }
  }

  lemma QueueAndTellGood(a: State, w: Waiter, command: Command, id: u32, payload: seq<byte>,
                         context: Session.FrameContext)
    requires Inv(a) && !w.ask.ToSend?
    ensures Good(QueueAndTell(a, w, a.core.QueueFrame(command, id, payload, false, Sched.Control, context)))
  {
    var r := a.core.QueueFrame(command, id, payload, false, Sched.Control, context);
    if r.Ok? {
      QueueFrameKeeps(a.core, command, id, payload, false, Sched.Control, context);
      Reassemble(a, r.value, a.streams);
    }
  }

  lemma OpenGood(a: State, token: nat, payload: seq<byte>, receiveWindow: u32, class_: Sched.TrafficClass)
    requires Inv(a)
    ensures Good(HandleCommand(a, token, Call.Open(payload, receiveWindow, class_)))
  {
    var granted := a.core.state.AllocateStreamId();
    if granted.Ok? {
      var (s, id) := granted.value;
      var entry := NewEntry(class_, receiveWindow).(opener := Some(Waiter(token, ToOpen)));
      var core := a.core.(state := s);
      StateKeeps(a.core, s);
      var r := core.QueueFrame(Command.Open, id, payload, false, class_, Session.NoContext);
      if r.Ok? {
        QueueFrameKeeps(core, Command.Open, id, payload, false, class_, Session.NoContext);
        KeepsTwice(a.core, core, r.value);
        SetEntry(a.streams, id, entry);
        Reassemble(a, r.value, a.streams[id := entry]);
      }
    }
  }

  lemma AcceptGood(a: State, token: nat, id: u32, payload: seq<byte>, receiveWindow: u32, class_: Sched.TrafficClass)
    requires Inv(a)
    ensures Good(HandleCommand(a, token, Call.Accept(id, payload, receiveWindow, class_)))
  {
    if id in a.streams {
      var entry := a.streams[id].(class_ := class_, receiveWindow := receiveWindow);
      assert EntryOk(id, a.streams[id]);
      SetStreams(a, id, entry);
      QueueAndTellGood(a.(streams := a.streams[id := entry]), Waiter(token, ToAccept), Command.Accept, id, payload,
                       Session.FrameContext(None, Some(receiveWindow)));
    }
  }

  lemma TellGood(a: State, token: nat, call: Call)
    requires Inv(a) && (call.Reject? || call.Close? || call.Reset?)
    ensures Good(HandleCommand(a, token, call))
  {
    match call
    case Reject(id, payload) =>
      QueueAndTellGood(a, Waiter(token, ToReject), Command.Reject, id, payload, Session.NoContext);
    case Close(id) => QueueAndTellGood(a, Waiter(token, ToClose), Command.Close, id, [], Session.NoContext);
    case Reset(id, payload) =>
      QueueAndTellGood(a, Waiter(token, ToReset), Command.Reset, id, payload, Session.NoContext);
  }

  lemma CancelGood(a: State, token: nat, id: u32)
    requires Inv(a)
    ensures Good(HandleCommand(a, token, Call.CancelReceive(id)))
  {
    if id in a.streams {
      assert EntryOk(id, a.streams[id]);
      SetStreams(a, id, a.streams[id].(receiver := None));
    }
  }

  lemma CommandGood(a: State, token: nat, call: Call)
    requires Inv(a)
    ensures Good(HandleCommand(a, token, call))
  {
    match call
    case Open(payload, receiveWindow, class_) => OpenGood(a, token, payload, receiveWindow, class_);
    case Accept(id, payload, receiveWindow, class_) => AcceptGood(a, token, id, payload, receiveWindow, class_);
    case SendData(id, payload, end) =>
      if id in a.streams { SendOrWaitGood(a, id, payload, end, Waiter(token, ToSend(id, payload, end))); }
    case Receive(id) => if id in a.streams { ReceiveGood(a, id, Waiter(token, ToReceive(id))); }
    case CancelReceive(id) => CancelGood(a, token, id);
    case GoAway => ControlGood(a, Command.GoAway, []);
    case Ping(payload) => ControlGood(a, Command.Ping, payload);
    case _ => TellGood(a, token, call);
  }

  lemma ControlGood(a: State, command: Command, payload: seq<byte>)
    requires Inv(a)
    ensures var r := a.core.QueueFrame(command, 0, payload, false, Sched.Control, Session.NoContext);
      r.Ok? ==> Inv(a.(core := r.value))
  {
    var r := a.core.QueueFrame(command, 0, payload, false, Sched.Control, Session.NoContext);
    if r.Ok? {
      QueueFrameKeeps(a.core, command, 0, payload, false, Sched.Control, Session.NoContext);
      Reassemble(a, r.value, a.streams);
    }
  }
}
