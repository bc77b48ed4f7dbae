/** The actor as it runs: one owner of the fields, changed in place, answering callers as it goes.
    Each method does what its function in `Actor` says. When queueing a frame fails half-way the
    sequence number and the validator have already moved on; the failure ends or restarts the
    session, so the functions do not follow those fields, and the contracts leave them open. */
module ActorLoops {
  import opened Results
  import opened Wire
  import Session
  import Sched = Scheduler
  import Actor
  import opened Parts = Actor
  import ActorRuns

  lemma AddReplies(start: seq<Reply>, first: seq<Reply>, second: seq<Reply>, middle: seq<Reply>, end: seq<Reply>)
    requires middle == start + first && end == middle + second
    ensures end == start + (first + second)
  {
  }

  class ActorLoop {
    var session: Session.State
    var sequences: map<u32, u32>
    var controlSequence: u32
    var scheduler: Sched.State
    var streams: map<u32, StreamEntry>
    var writeWaiters: map<(u32, u32), Waiter>
    var pendingGoAway: Option<Waiter>
    const restartable: bool
    var awaitingRestart: bool
    var generation: nat
    /** Answers sent to callers. */
    var replies: seq<Reply>
    ghost var sent: seq<Sched.Item>
    ghost var dropped: nat

    constructor (negotiated: Session.State, canRestart: bool)
      ensures View() == Actor.Start(negotiated, canRestart) && replies == []
    {
      session, sequences, controlSequence, scheduler := negotiated, map[], 1, Sched.New(MAX_SCHEDULED_BYTES);
      streams, writeWaiters, pendingGoAway := map[], map[], None;
      restartable, awaitingRestart, generation := canRestart, false, 0;
      replies, sent, dropped := [], [], 0;
    }

    ghost function Outbound(): Core
      reads this
    {
      Core(session, sequences, controlSequence, scheduler)
    }

    ghost function View(): State
      reads this
    {
      State(Outbound(), streams, writeWaiters, pendingGoAway, restartable, awaitingRestart, generation, sent, dropped)
    }

    /** The fields, the answers and the failure are those of `turn`. */
    ghost predicate Did(turn: Parts.Turn, before: seq<Reply>, failure: Option<Error>)
      reads this
    {
      && View() == turn.a.(core := Outbound()) && replies == before + turn.replies && failure == turn.failure
      && (failure.None? ==> Outbound() == turn.a.core)
    }

    /** A frame was queued as `r` says, or the failure of `r` was met. */
    ghost predicate Queued(r: Result<Core, Error>, failure: Option<Error>)
      reads this
    {
      if r.Ok? then failure.None? && Outbound() == r.value else failure == Some(r.error)
    }

    method Answer(w: Waiter, answer: Parts.Answer)
      modifies this`replies
      ensures replies == old(replies) + [Reply(w, answer)]
    {
      replies := replies + [Reply(w, answer)];
    }

    method Refuse(w: Option<Waiter>, error: Error)
      modifies this`replies
      ensures replies == old(replies) + Refusals(w, error)
    {
      if w.Some? { Answer(w.value, Refused(error)); }
    }

    // -------------------------------------------------------------- the outbound path

    method TakeSequence(id: u32) returns (r: Result<u32, Error>)
      modifies this`sequences, this`controlSequence
      ensures r.Ok? <==> old(Outbound()).TakeSequence(id).Ok?
      ensures r.Ok? ==>
        r.value == old(Outbound()).NextSequence(id) && Outbound() == old(Outbound()).TakeSequence(id).value
      ensures r.Err? ==> r.error == Protocol
    {
      var current := if id == 0 then controlSequence else Session.Expected(sequences, id);
      if current == U32_MAX { return Err(Protocol); }
      if id == 0 { controlSequence := current + 1; } else { sequences := sequences[id := current + 1]; }
      r := Ok(current);
    }

    method Emit(h: Header, payload: seq<byte>, class_: Sched.TrafficClass, context: Session.FrameContext)
      returns (failure: Option<Error>)
      requires scheduler.Shaped()
      modifies this`sequences, this`controlSequence, this`session, this`scheduler
      ensures Queued(old(Outbound()).Emit(h, payload, class_, context), failure)
    {
      var sequence := TakeSequence(h.streamId);
      if sequence.Err? { return Some(sequence.error); }
      if |payload| > U32_MAX { return Some(Protocol); }
      var header := h.(sequence := sequence.value, payloadLength := |payload|);
      var processed := session.Process(Session.Outbound, header, context);
      if processed.Err? { return Some(Protocol); }
      session := processed.value;
      var queued := scheduler.Enqueue(Sched.Item(class_, Frame(header, payload)));
      if queued.Err? { return Some(QueueFull); }
      scheduler := queued.value;
      failure := None;
    }

    method QueueCredit(id: u32, delta: u32) returns (failure: Option<Error>)
      requires scheduler.Shaped()
      modifies this`sequences, this`controlSequence, this`session, this`scheduler
      ensures Queued(old(Outbound()).QueueCredit(id, delta), failure)
    {
      failure := Emit(NewHeader(Credit, id, 0).(creditDelta := delta), [], Sched.Control, Session.NoContext);
    }

    method QueueFrame(command: Command, id: u32, payload: seq<byte>, end: bool, class_: Sched.TrafficClass,
                      context: Session.FrameContext) returns (failure: Option<Error>)
      requires scheduler.Shaped()
      modifies this`sequences, this`controlSequence, this`session, this`scheduler
      ensures Queued(old(Outbound()).QueueFrame(command, id, payload, end, class_, context), failure)
    {
      var actual := if Sched.ForCommand(command) == Sched.Control then Sched.Control else class_;
      failure := Emit(NewHeader(command, id, 0).(flags := if end then 1 else 0), payload, actual, context);
    }

    method RestoreConsumedCredit(frame: Frame) returns (failure: Option<Error>)
      requires scheduler.Shaped()
      modifies this`sequences, this`controlSequence, this`session, this`scheduler
      ensures Queued(old(Outbound()).RestoreConsumed(frame), failure)
    {
      var h := frame.header;
      if h.command != Data || h.payloadLength == 0 { return None; }
      if !h.EndStream() && session.Stream(h.streamId).Some?
         && session.Stream(h.streamId).value.phase == Session.Accepted {
        failure := QueueCredit(h.streamId, h.payloadLength);
        if failure.Some? { return; }
      }
      failure := QueueCredit(0, h.payloadLength);
    }

    // -------------------------------------------------------------- sending

    method SendNow(id: u32, class_: Sched.TrafficClass, payload: seq<byte>, end: bool, w: Waiter)
      returns (failure: Option<Error>)
      requires scheduler.Shaped()
      modifies this
      ensures Did(Actor.SendNow(old(View()), id, class_, payload, end, w), old(replies), failure)
    {
      var sequence := if id == 0 then controlSequence else Session.Expected(sequences, id);
      failure := QueueFrame(Data, id, payload, end, class_, Session.NoContext);
      if failure.None? {
        writeWaiters := writeWaiters[(id, sequence) := w];
      } else {
        Answer(w, Refused(failure.value));
      }
    }

    method SendOrWait(id: u32, payload: seq<byte>, end: bool, w: Waiter) returns (failure: Option<Error>)
      requires scheduler.Shaped() && id in streams
      modifies this
      ensures Did(Actor.SendOrWait(old(View()), id, payload, end, w), old(replies), failure)
    {
      var entry := streams[id];
      if entry.pendingSend.Some? || exists key :: key in writeWaiters.Keys && key.0 == id {
        Answer(w, Refused(SendPending(id)));
        return Some(SendPending(id));
      }
      if |payload| > U32_MAX { return Some(Protocol); }
      var stream := session.Stream(id);
      if stream.Some? && stream.value.sendCredit >= |payload| && session.conn.sendCredit >= |payload| {
        failure := SendNow(id, entry.class_, payload, end, w);
      } else {
        streams := streams[id := entry.(pendingSend := Some(PendingSend(payload, end, w)))];
        failure := None;
      }
    }

    method FlushPending(id: u32) returns (failure: Option<Error>)
      requires scheduler.Shaped()
      modifies this
      ensures Did(Actor.FlushPending(old(View()), id), old(replies), failure)
    {
      if id !in streams || streams[id].pendingSend.None? { return None; }
      var entry := streams[id];
      var pending := entry.pendingSend.value;
      streams := streams[id := entry.(pendingSend := None)];
      if |pending.payload| > U32_MAX { return Some(Protocol); }
      if !(session.Stream(id).Some? && session.Stream(id).value.sendCredit >= |pending.payload|
           && session.conn.sendCredit >= |pending.payload|) {
        streams := streams[id := entry];
        assert streams == old(streams);
        return None;
      }
      failure := SendNow(id, entry.class_, pending.payload, pending.end, pending.waiter);
    }

    /** Connection credit releases what it can, stream by stream. */
    method FlushAll(ids: seq<u32>) returns (failure: Option<Error>)
      requires scheduler.Shaped()
      modifies this
      ensures Did(Actor.FlushAll(old(View()), ids), old(replies), failure)
      decreases |ids|
    {
      if |ids| == 0 { return None; }
      failure := FlushPending(ids[0]);
      if failure.Some? { return; }
      failure := FlushAll(ids[1..]);
    }

    // -------------------------------------------------------------- receiving

    method RetireStream(id: u32, error: Error)
      modifies this`streams, this`writeWaiters, this`replies, this`dropped
      ensures Did(Actor.Retire(old(View()), id, error), old(replies), None)
    {
      writeWaiters := map key | key in writeWaiters && key.0 != id :: writeWaiters[key];
      if id in streams {
        var entry := streams[id];
        streams := streams - {id};
        dropped := dropped + DataBytes(entry.inbox);
        RefuseAll(entry, error);
      }
    }

    method RefuseAll(entry: StreamEntry, error: Error)
      modifies this`replies
      ensures replies == old(replies) + EntryRefusals(entry, error)
    {
      ghost var a, b := Refusals(entry.opener, error), Refusals(entry.receiver, error);
      Refuse(entry.opener, error);
      Refuse(entry.receiver, error);
      assert replies == old(replies) + (a + b);
      Refuse(if entry.pendingSend.Some? then Some(entry.pendingSend.value.waiter) else None, error);
    }

    method HandOver(id: u32, frame: Frame, w: Waiter) returns (failure: Option<Error>)
      requires scheduler.Shaped()
      modifies this
      ensures Did(Actor.HandOver(old(View()), id, frame, w), old(replies), failure)
    {
      failure := RestoreConsumedCredit(frame);
      if failure.Some? { return; }
      Answer(w, Got(frame));
      if TerminalFrame(frame) {
        ghost var b, told := View(), replies;
        RetireStream(id, Disconnected);
        AddReplies(old(replies), [Reply(w, Got(frame))], Actor.Retire(b, id, Disconnected).replies, told, replies);
      }
    }

    method ReceiveOrWait(id: u32, w: Waiter) returns (failure: Option<Error>)
      requires scheduler.Shaped() && id in streams
      modifies this
      ensures Did(Actor.ReceiveOrWait(old(View()), id, w), old(replies), failure)
    {
      var entry := streams[id];
      if entry.receiver.Some? {
        Answer(w, Refused(ReceivePending(id)));
        return Some(ReceivePending(id));
      }
      if entry.inbox == [] {
        streams := streams[id := entry.(receiver := Some(w))];
        return None;
      }
      streams := streams[id := entry.Popped()];
      failure := HandOver(id, entry.inbox[0], w);
    }

    method Deliver(frame: Frame) returns (failure: Option<Error>)
      requires scheduler.Shaped()
      modifies this
      ensures Did(Actor.Deliver(old(View()), frame), old(replies), failure)
    {
      var id := frame.header.streamId;
      if id !in streams { return Some(UnknownStream(id)); }
      var entry := streams[id];
      if entry.receiver.Some? {
        streams := streams[id := entry.(receiver := None)];
        failure := HandOver(id, frame, entry.receiver.value);
        return;
      }
      var bytes := entry.inboxBytes + |frame.payload|;
      if bytes > entry.receiveWindow {
        streams := streams[id := entry.(inboxBytes := bytes)];
        return Some(QueueFull);
      }
      streams := streams[id := entry.(inboxBytes := bytes, inbox := entry.inbox + [frame])];
      failure := None;
    }

    // -------------------------------------------------------------- commands

    /** A command answered at once with whatever queueing its frame gives. */
    method QueueAndTell(w: Waiter, command: Command, id: u32, payload: seq<byte>, context: Session.FrameContext)
      returns (failure: Option<Error>)
      requires scheduler.Shaped()
      modifies this
      ensures Did(Actor.QueueAndTell(old(View()), w,
                    old(Outbound()).QueueFrame(command, id, payload, false, Sched.Control,
                      context)), old(replies), failure)
    {
      failure := QueueFrame(command, id, payload, false, Sched.Control, context);
      Answer(w, if failure.None? then Done else Refused(failure.value));
    }

    method OpenStream(token: nat, payload: seq<byte>, receiveWindow: u32, class_: Sched.TrafficClass)
      returns (failure: Option<Error>)
      requires scheduler.Shaped()
      modifies this
      ensures Did(Actor.OpenStream(old(View()), token, payload, receiveWindow, class_), old(replies), failure)
    {
      var granted := session.AllocateStreamId();
      if granted.Err? { return Some(Protocol); }
      var (s, id) := granted.value;
      session := s;
      streams := streams[id := NewEntry(class_, receiveWindow).(opener := Some(Waiter(token, ToOpen)))];
      failure := QueueFrame(Command.Open, id, payload, false, class_, Session.NoContext);
    }

    method CancelReceive(token: nat, id: u32)
      requires scheduler.Shaped() && id in streams
      modifies this`streams, this`replies
      ensures Did(Actor.HandleCommand(old(View()), token, Call.CancelReceive(id)), old(replies), None)
    {
      var entry := streams[id];
      streams := streams[id := entry.(receiver := None)];
      Refuse(entry.receiver, Disconnected);
      Answer(Waiter(token, ToCancel), Done);
    }

    /** Commands for a stream the actor does not know are refused without further effect. */
    method HandleStreamCommand(token: nat, call: Call, id: u32) returns (failure: Option<Error>)
      requires scheduler.Shaped() && id in streams
      requires !call.Open? && !call.GoAway? && !call.Ping? && call.id == id
      modifies this
      ensures Did(Actor.HandleCommand(old(View()), token, call), old(replies), failure)
    {
      match call
      case Accept(_, payload, receiveWindow, class_) =>
        streams := streams[id := streams[id].(class_ := class_, receiveWindow := receiveWindow)];
        failure := QueueAndTell(Waiter(token, ToAccept), Command.Accept, id, payload,
                                Session.FrameContext(None, Some(receiveWindow)));
      case Reject(_, payload) =>
        failure := QueueAndTell(Waiter(token, ToReject), Command.Reject, id, payload, Session.NoContext);
      case SendData(_, payload, end) =>
        failure := SendOrWait(id, payload, end, Waiter(token, ToSend(id, payload, end)));
      case Receive(_) => failure := ReceiveOrWait(id, Waiter(token, ToReceive(id)));
      case Close(_) => failure := QueueAndTell(Waiter(token, ToClose), Command.Close, id, [], Session.NoContext);
      case Reset(_, payload) =>
        failure := QueueAndTell(Waiter(token, ToReset), Command.Reset, id, payload, Session.NoContext);
      case CancelReceive(_) =>
        CancelReceive(token, id);
        failure := None;
    }

    method LeaveSession(w: Waiter) returns (failure: Option<Error>)
      requires scheduler.Shaped()
      modifies this
      ensures Did(Actor.LeaveSession(old(View()), w), old(replies), failure)
    {
      if pendingGoAway.Some? {
        Answer(w, Refused(QueueFull));
        return None;
      }
      failure := QueueFrame(Command.GoAway, 0, [], false, Sched.Control, Session.NoContext);
      if failure.None? { pendingGoAway := Some(w); }
    }

    method PingPeer(w: Waiter, payload: seq<byte>) returns (failure: Option<Error>)
      requires scheduler.Shaped()
      modifies this
      ensures Did(Actor.PingPeer(old(View()), w, payload), old(replies), failure)
    {
      failure := QueueFrame(Command.Ping, 0, payload, false, Sched.Control, Session.NoContext);
      if failure.Some? { Answer(w, Refused(failure.value)); }
    }

    method HandleCommand(token: nat, call: Call) returns (failure: Option<Error>)
      requires scheduler.Shaped()
      modifies this
      ensures Did(Actor.HandleCommand(old(View()), token, call), old(replies), failure)
    {
      match call
      case Open(payload, receiveWindow, class_) => failure := OpenStream(token, payload, receiveWindow, class_);
      case GoAway => failure := LeaveSession(Waiter(token, ToGoAway));
      case Ping(payload) => failure := PingPeer(Waiter(token, ToPing), payload);
      case _ =>
        if call.id in streams {
          failure := HandleStreamCommand(token, call, call.id);
        } else {
          Answer(Waiter(token, call.Asks()), Refused(Disconnected));
          failure := None;
        }
    }

    // -------------------------------------------------------------- inbound frames

    method CompleteOpen(id: u32) returns (failure: Option<Error>)
      requires scheduler.Shaped()
      modifies this
      ensures Did(Actor.CompleteOpen(old(View()), id), old(replies), failure)
    {
      if id !in streams { return Some(UnknownStream(id)); }
      failure := QueueCredit(id, streams[id].receiveWindow);
      if failure.Some? { return; }
      var entry := streams[id];
      streams := streams[id := entry.(opener := None)];
      if entry.opener.Some? { Answer(entry.opener.value, Opened(id)); }
    }

    method FailStreams()
      modifies this
      ensures View() == Actor.FailStreams(old(View())) && replies == old(replies)
    {
      streams, sequences, writeWaiters := map[], map[], map[];
      controlSequence := 1;
      scheduler := Sched.New(MAX_SCHEDULED_BYTES);
      sent, dropped := [], 0;
    }

    method PeerLeaves() returns (failure: Option<Error>)
      requires scheduler.Shaped()
      modifies this
      ensures Did(Actor.PeerLeaves(old(View())), old(replies), failure)
    {
      if pendingGoAway.Some? {
        Answer(pendingGoAway.value, Done);
        pendingGoAway := None;
        return Some(Disconnected);
      }
      if restartable {
        var control := controlSequence;
        FailStreams();
        controlSequence := control;
        awaitingRestart := true;
        failure := QueueFrame(Command.GoAway, 0, [], false, Sched.Control, Session.NoContext);
        return;
      }
      failure := Some(Disconnected);
    }

    method RestartSession(reading: Reading) returns (failure: Option<Error>)
      modifies this
      ensures Did(Actor.RestartSession(old(View()), reading), old(replies), failure)
    {
      if reading.restarted.None? { return Some(Disconnected); }
      generation := generation + 1;
      FailStreams();
      session := reading.restarted.value;
      awaitingRestart := !reading.helloWritten;
      failure := None;
    }

    method DispatchLate(frame: Frame, reading: Reading) returns (failure: Option<Error>)
      requires scheduler.Shaped()
      modifies this
      ensures Did(Actor.Dispatch(old(View()), frame, reading, true), old(replies), failure)
    {
      failure := RestoreConsumedCredit(frame);
    }

    method AcceptIncomingOpen(frame: Frame, reading: Reading) returns (failure: Option<Error>)
      requires scheduler.Shaped() && frame.header.command == Command.Open
      modifies this`streams
      ensures Did(Actor.Dispatch(old(View()), frame, reading, false), old(replies), failure)
    {
      if !reading.serviceOk { return Some(InvalidService); }
      streams := streams[frame.header.streamId := NewEntry(Sched.Bulk, 0)];
      failure := if reading.listening then None else Some(Disconnected);
    }

    method RejectOpen(frame: Frame, reading: Reading)
      requires scheduler.Shaped() && frame.header.command == Command.Reject
      modifies this`streams, this`replies
      ensures Did(Actor.Dispatch(old(View()), frame, reading, false), old(replies), None)
    {
      var id := frame.header.streamId;
      if id in streams {
        var entry := streams[id];
        Refuse(entry.opener, Rejected);
        streams := streams - {id};
        RefuseAll(entry.(opener := None), Disconnected);
      }
    }

    method Dispatch(frame: Frame, reading: Reading) returns (failure: Option<Error>)
      requires scheduler.Shaped()
      modifies this
      ensures Did(Actor.Dispatch(old(View()), frame, reading, false), old(replies), failure)
    {
      var id := frame.header.streamId;
      match frame.header.command
      case Open => failure := AcceptIncomingOpen(frame, reading);
      case Accept => failure := CompleteOpen(id);
      case Reject => RejectOpen(frame, reading); failure := None;
      case Credit => if id == 0 { failure := FlushAll(reading.ids); } else { failure := FlushPending(id); }
      case Data => failure := Deliver(frame);
      case Close => failure := Deliver(frame);
      case Reset => failure := Deliver(frame);
      case Ping => failure := QueueFrame(Command.Pong, 0, frame.payload, false, Sched.Control, Session.NoContext);
      case Pong => failure := None;
      case GoAway => failure := PeerLeaves();
      case _ => failure := Some(Disconnected);
    }

    method HandleInbound(frame: Frame, reading: Reading) returns (failure: Option<Error>)
      requires scheduler.Shaped()
      modifies this
      ensures Did(Actor.HandleInbound(old(View()), frame, reading), old(replies), failure)
    {
      var h := frame.header;
      var hello := h.command == Hello && h.streamId == 0;
      if hello && restartable {
        failure := RestartSession(reading);
        return;
      }
      if !hello && awaitingRestart { return None; }
      var stream := session.Stream(h.streamId);
      var late := h.command == Data && stream.Some? && stream.value.phase.Terminal();
      if h.command == Command.Accept && reading.acceptWindow.None? { return Some(InvalidService); }
      var context := if h.command == Command.Accept then Session.FrameContext(None, reading.acceptWindow)
        else Session.NoContext;
      var processed := session.Process(Session.Inbound, h, context);
      if processed.Err? { return Some(Protocol); }
      session := processed.value;
      if late { failure := DispatchLate(frame, reading); } else { failure := Dispatch(frame, reading); }
    }

    // -------------------------------------------------------------- writing

    method Wrote(item: Sched.Item)
      modifies this`sent, this`writeWaiters, this`streams, this`replies, this`dropped
      ensures Did(Actor.Wrote(old(View()), item), old(replies), None)
    {
      var key := (item.frame.header.streamId, item.frame.header.sequence);
      ghost var told := if key in writeWaiters then [Reply(writeWaiters[key], Done)] else [];
      sent := sent + [item];
      if key in writeWaiters { Answer(writeWaiters[key], Done); }
      writeWaiters := map k | k in writeWaiters && k != key :: writeWaiters[k];
      ghost var b := View();
      assert replies == old(replies) + told;
      assert b == old(View()).(sent := sent, writeWaiters := writeWaiters);
      if TerminalFrame(item.frame) {
        ghost var before := replies;
        RetireStream(key.0, Disconnected);
        AddReplies(old(replies), told, Actor.Retire(b, key.0, Disconnected).replies, before, replies);
      }
    }

    /** Writes the scheduler's next frame; `written` says whether the sink took it. */
    method HandleDequeue(written: bool) returns (failure: Option<Error>)
      requires scheduler.Shaped()
      modifies this
      ensures Did(Actor.HandleDequeue(old(View()), written), old(replies), failure)
    {
      var (next, out) := scheduler.Dequeue();
      scheduler := next;
      if out.None? { return None; }
      if !written { return Some(Transport); }
      Wrote(out.value);
      failure := None;
    }

    // -------------------------------------------------------------- the loop

    /** One event, before its error handling. */
    method HandleEvent(e: Event) returns (failure: Option<Error>)
      requires scheduler.Shaped()
      modifies this
      ensures Did(Actor.Handle(old(View()), e), old(replies), failure)
    {
      match e
      case Command_(asked, token, call) =>
        if awaitingRestart || asked != generation { return None; }
        failure := HandleCommand(token, call);
      case Inbound(frame, reading) => failure := HandleInbound(frame, reading);
      case Dequeue(written) => failure := HandleDequeue(written);
    }

    /** One turn of the loop: a failure starts over when it can, and ends the actor otherwise. So
        the views an actor passes through form a run. */
    method RunOnce(e: Event) returns (alive: bool)
      requires scheduler.Shaped() && ActorRuns.EventOk(e)
      modifies this
      ensures alive <==> Actor.Next(old(View()), e).Some?
      ensures alive ==> ActorRuns.Step(old(View()), e, View())
    {
      var failure := HandleEvent(e);
      if failure.None? { return true; }
      if !restartable { return false; }
      FailStreams();
      awaitingRestart := true;
      alive := true;
    }
  }
}
