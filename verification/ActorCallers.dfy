/** Everyone who calls the actor: each caller is answered or still waits, and what an answer means. */
module ActorCallers {
  import opened Results
  import opened Wire
  import Session
  import Sched = Scheduler
  import opened Actor
  import opened ActorOutbound
  import opened ActorRuns
  import opened ActorReceive
  import opened ActorTheorems
  import opened ActorInbox
  import opened ActorDelivery

  // ---------------------------------------------------------------- who waits

  predicate InEntry(entry: StreamEntry, w: Waiter) {
    || entry.opener == Some(w) || entry.receiver == Some(w)
    || (entry.pendingSend.Some? && entry.pendingSend.value.waiter == w)
  }

  ghost predicate OnStream(streams: map<u32, StreamEntry>, w: Waiter) {
    exists id :: id in streams && InEntry(streams[id], w)
  }

  ghost predicate OnWrite(waiters: map<(u32, u32), Waiter>, w: Waiter) {
    exists key :: key in waiters && waiters[key] == w
  }

  /** The caller is on the actor's books. */
  ghost predicate Held(a: State, w: Waiter) {
    OnStream(a.streams, w) || OnWrite(a.writeWaiters, w) || a.pendingGoAway == Some(w)
  }

  ghost predicate Told(replies: seq<Reply>, w: Waiter) { exists answer :: Reply(w, answer) in replies }

  /** The caller waited for the write of a frame on a stream that has been finished. */
  ghost predicate Finished(a: State, b: State, w: Waiter) {
    exists key :: key in a.writeWaiters && a.writeWaiters[key] == w && key.0 !in b.streams
  }

  /** A caller that was waiting is answered, or still waits, or its stream is over. */
  ghost predicate Minded(a: State, t: Turn, w: Waiter) {
    Held(a, w) ==> Held(t.a, w) || Told(t.replies, w) || Finished(a, t.a, w)
  }

  lemma SameHeld(a: State, t: Turn, w: Waiter)
    requires t.a.streams == a.streams && t.a.writeWaiters == a.writeWaiters && t.a.pendingGoAway == a.pendingGoAway
    ensures Minded(a, t, w)
  {
  }

  /** One entry is replaced; who was in it and is not now has been told. */
  lemma EntryReplaced(a: State, t: Turn, id: u32, entry: StreamEntry, w: Waiter)
    requires id in a.streams && t.a.streams == a.streams[id := entry] && t.a.writeWaiters == a.writeWaiters
    requires t.a.pendingGoAway == a.pendingGoAway
    requires InEntry(a.streams[id], w) ==> InEntry(entry, w) || Told(t.replies, w)
    ensures Minded(a, t, w)
  {
    if OnStream(a.streams, w) {
      var home :| home in a.streams && InEntry(a.streams[home], w);
      if home != id { assert home in t.a.streams && InEntry(t.a.streams[home], w); }
      else if InEntry(entry, w) { assert id in t.a.streams && InEntry(t.a.streams[id], w); }
    }
  }

  lemma EntryRemoved(a: State, t: Turn, id: u32, w: Waiter)
    requires t.a.streams == a.streams - {id} && t.a.pendingGoAway == a.pendingGoAway
    requires t.a.writeWaiters == map key | key in a.writeWaiters && key.0 != id :: a.writeWaiters[key]
    requires id in a.streams && InEntry(a.streams[id], w) ==> Told(t.replies, w)
    ensures Minded(a, t, w)
  {
    if OnStream(a.streams, w) {
      var home :| home in a.streams && InEntry(a.streams[home], w);
      if home != id { assert home in t.a.streams && InEntry(t.a.streams[home], w); }
    }
    if OnWrite(a.writeWaiters, w) {
      var key :| key in a.writeWaiters && a.writeWaiters[key] == w;
      if key.0 != id { assert key in t.a.writeWaiters && t.a.writeWaiters[key] == w; }
    }
  }

  lemma RefusedAll(entry: StreamEntry, error: Error, w: Waiter)
    requires InEntry(entry, w)
    ensures Told(EntryRefusals(entry, error), w)
  {
    assert Reply(w, Answer.Refused(error)) in EntryRefusals(entry, error);
  }

  lemma ToldMore(p: seq<Reply>, q: seq<Reply>, w: Waiter)
    requires Told(p, w) || Told(q, w)
    ensures Told(p + q, w)
  {
    if Told(p, w) {
      var answer :| Reply(w, answer) in p;
      assert Reply(w, answer) in p + q;
    } else {
      var answer :| Reply(w, answer) in q;
      assert Reply(w, answer) in p + q;
    }
  }

  // ---------------------------------------------------------------- handlers

  lemma RetireMinds(a: State, id: u32, error: Error, w: Waiter)
    ensures Minded(a, Retire(a, id, error), w)
  {
    var t := Retire(a, id, error);
    if id in a.streams && InEntry(a.streams[id], w) { RefusedAll(a.streams[id], error, w); }
    if id !in a.streams { assert t.a.streams == a.streams - {id}; }
    EntryRemoved(a, t, id, w);
  }

  /** A turn made of a change, replies, and another turn. */
  lemma MindedChain(a: State, b: State, first: seq<Reply>, rest: Turn, t: Turn, w: Waiter)
    requires Minded(b, rest, w) && t.a == rest.a && t.replies == first + rest.replies
    requires b.writeWaiters == a.writeWaiters
    requires Held(a, w) ==> Held(b, w) || Told(first, w)
    ensures Minded(a, t, w)
  {
    if Held(a, w) && !Held(b, w) { ToldMore(first, rest.replies, w); }
    if Held(b, w) && Told(rest.replies, w) { ToldMore(first, rest.replies, w); }
  }

  lemma HandOverMinds(a: State, id: u32, frame: Frame, receiver: Waiter, w: Waiter)
    requires a.core.sched.Shaped() && HandOver(a, id, frame, receiver).failure.None?
    ensures Minded(a, HandOver(a, id, frame, receiver), w) && Told(HandOver(a, id, frame, receiver).replies, receiver)
  {
    var t := HandOver(a, id, frame, receiver);
    var b := a.(core := a.core.RestoreConsumed(frame).value);
    var got := [Reply(receiver, Got(frame))];
    assert got[0] in got;
    assert Held(a, w) ==> Held(b, w);
    if TerminalFrame(frame) {
      var retired := Retire(b, id, Disconnected);
      RetireMinds(b, id, Disconnected, w);
      MindedChain(a, b, got, retired, t, w);
      ToldMore(got, retired.replies, receiver);
    } else {
      SameHeld(a, t, w);
    }
  }

  /** Handing a frame over after an entry lost at most the receiver it goes to. */
  lemma HandOverFrom(a: State, b: State, id: u32, frame: Frame, receiver: Waiter, w: Waiter)
    requires a.core.sched.Shaped() && id in a.streams && b == a.(streams := b.streams)
    requires b.streams.Keys == a.streams.Keys && HandOver(b, id, frame, receiver).failure.None?
    requires forall k :: k in a.streams && k != id ==> b.streams[k] == a.streams[k]
    requires InEntry(a.streams[id], w) ==> InEntry(b.streams[id], w) || w == receiver
    ensures Minded(a, HandOver(b, id, frame, receiver), w)
  {
    HandOverMinds(b, id, frame, receiver, w);
    if OnStream(a.streams, w) {
      var home :| home in a.streams && InEntry(a.streams[home], w);
      assert home != id ==> home in b.streams && InEntry(b.streams[home], w);
      assert home == id && InEntry(b.streams[id], w) ==> OnStream(b.streams, w);
    }
  }

  lemma ReceiveMinds(a: State, id: u32, caller: Waiter, w: Waiter)
    requires a.core.sched.Shaped() && id in a.streams && ReceiveOrWait(a, id, caller).failure.None?
    ensures Minded(a, ReceiveOrWait(a, id, caller), w)
    ensures var t := ReceiveOrWait(a, id, caller); Held(t.a, caller) || Told(t.replies, caller)
  {
    var entry := a.streams[id];
    var t := ReceiveOrWait(a, id, caller);
    if entry.inbox == [] {
      var waiting := entry.(receiver := Some(caller));
      EntryReplaced(a, t, id, waiting, w);
      assert id in t.a.streams && InEntry(t.a.streams[id], caller);
    } else {
      var b := a.(streams := a.streams[id := entry.Popped()]);
      HandOverFrom(a, b, id, entry.inbox[0], caller, w);
      HandOverMinds(b, id, entry.inbox[0], caller, w);
    }
  }

  lemma DeliverMinds(a: State, frame: Frame, w: Waiter)
    requires a.core.sched.Shaped() && Deliver(a, frame).failure.None?
    ensures Minded(a, Deliver(a, frame), w)
  {
    var id := frame.header.streamId;
    var t := Deliver(a, frame);
    var entry := a.streams[id];
    if entry.receiver.Some? {
      var b := a.(streams := a.streams[id := entry.(receiver := None)]);
      HandOverFrom(a, b, id, frame, entry.receiver.value, w);
    } else {
      EntryReplaced(a, t, id, t.a.streams[id], w);
    }
  }

  // ---------------------------------------------------------------- sending

  /** The number a frame is given is not one somebody waits for. */
  lemma FreshKey(a: State, id: u32)
    requires Inv(a)
    ensures (id, a.core.NextSequence(id)) !in a.writeWaiters
  {
    var key := (id, a.core.NextSequence(id));
    if key in a.writeWaiters {
      assert WaiterOk(a.core.sched, key, a.writeWaiters[key]) && TrackOk(a.core, a.sent, id);
      var item :| item in Sched.Pending(a.core.sched, id) && Awaits(item, key, a.writeWaiters[key]);
      PendingBelow(a.core, a.sent, id, item);
    }
  }

  lemma PendingBelow(core: Core, sent: seq<Sched.Item>, id: u32, item: Sched.Item)
    requires TrackOk(core, sent, id) && item in Sched.Pending(core.sched, id)
    ensures item.frame.header.sequence < core.NextSequence(id)
  {
    var pending, written := Sched.Pending(core.sched, id), Sched.Filter(sent, id);
    var i :| 0 <= i < |pending| && pending[i] == item;
    assert Track(core.sched, sent, id)[|written| + i] == item;
  }

  /** Nobody is forgotten. */
  ghost predicate KeepsAll(a: State, b: State, w: Waiter) { Held(a, w) ==> Held(b, w) }

  /** The sender now waits for the write. */
  lemma SendNowKeeps(a: State, b: State, id: u32, class_: Sched.TrafficClass, payload: seq<byte>, end: bool,
                     sender: Waiter, w: Waiter)
    requires Inv(a) && b == a.(streams := b.streams) && SendNow(b, id, class_, payload, end, sender).failure.None?
    requires OnStream(a.streams, w) ==> OnStream(b.streams, w) || w == sender
    ensures KeepsAll(a, SendNow(b, id, class_, payload, end, sender).a, w)
    ensures Held(SendNow(b, id, class_, payload, end, sender).a, sender)
  {
    FreshKey(a, id);
    WaiterAdded(a.writeWaiters, (id, a.core.NextSequence(id)), sender, w);
  }

  lemma WaiterAdded(waiters: map<(u32, u32), Waiter>, new_: (u32, u32), sender: Waiter, w: Waiter)
    requires new_ !in waiters
    ensures OnWrite(waiters[new_ := sender], sender)
    ensures OnWrite(waiters, w) ==> OnWrite(waiters[new_ := sender], w)
  {
    var more := waiters[new_ := sender];
    assert new_ in more && more[new_] == sender;
    if OnWrite(waiters, w) {
      var key :| key in waiters && waiters[key] == w;
      assert key in more && more[key] == w;
    }
  }

  lemma SendMinds(a: State, id: u32, payload: seq<byte>, end: bool, sender: Waiter, w: Waiter)
    requires Inv(a) && id in a.streams && SendOrWait(a, id, payload, end, sender).failure.None?
    ensures Minded(a, SendOrWait(a, id, payload, end, sender), w)
    ensures Held(SendOrWait(a, id, payload, end, sender).a, sender)
  {
    var t := SendOrWait(a, id, payload, end, sender);
    if a.core.HasSendCredit(id, |payload|) {
      SendNowKeeps(a, a, id, a.streams[id].class_, payload, end, sender, w);
    } else {
      EntryReplaced(a, t, id, t.a.streams[id], w);
      assert id in t.a.streams && InEntry(t.a.streams[id], sender);
    }
  }

  lemma FlushMinds(a: State, id: u32, w: Waiter)
    requires Inv(a) && FlushPending(a, id).failure.None?
    ensures KeepsAll(a, FlushPending(a, id).a, w)
  {
    if id in a.streams && a.streams[id].pendingSend.Some? {
      var entry := a.streams[id];
      var p := entry.pendingSend.value;
      if a.core.HasSendCredit(id, |p.payload|) {
        var b := a.(streams := a.streams[id := entry.(pendingSend := None)]);
        FlushedEntry(a.streams, id, w);
        SendNowKeeps(a, b, id, entry.class_, p.payload, p.end, p.waiter, w);
      }
    }
  }

  lemma FlushedEntry(streams: map<u32, StreamEntry>, id: u32, w: Waiter)
    requires id in streams && streams[id].pendingSend.Some?
    ensures OnStream(streams, w) ==>
      OnStream(streams[id := streams[id].(pendingSend := None)], w) || w == streams[id].pendingSend.value.waiter
  {
    if OnStream(streams, w) {
      var home :| home in streams && InEntry(streams[home], w);
      var after := streams[id := streams[id].(pendingSend := None)];
      assert home in after;
      assert InEntry(after[home], w) || (home == id && w == streams[id].pendingSend.value.waiter);
    }
  }

  lemma {:induction false} FlushAllMinds(a: State, ids: seq<u32>, w: Waiter)
    requires Inv(a) && FlushAll(a, ids).failure.None?
    ensures KeepsAll(a, FlushAll(a, ids).a, w)
    decreases |ids|
  {
    if ids != [] {
      FlushMinds(a, ids[0], w);
      FlushPendingGood(a, ids[0]);
      FlushAllMinds(FlushPending(a, ids[0]).a, ids[1..], w);
    }
  }

  // ---------------------------------------------------------------- commands

  /** A new entry forgets nobody. */
  lemma EntryAdded(a: State, t: Turn, id: u32, w: Waiter)
    requires id !in a.streams && id in t.a.streams && t.a.streams == a.streams[id := t.a.streams[id]]
    requires t.a.writeWaiters == a.writeWaiters && t.a.pendingGoAway == a.pendingGoAway
    ensures Minded(a, t, w)
  {
    if OnStream(a.streams, w) {
      var home :| home in a.streams && InEntry(a.streams[home], w);
      assert home in t.a.streams && InEntry(t.a.streams[home], w);
    }
  }

  lemma OpenMinds(a: State, token: nat, payload: seq<byte>, window: u32, class_: Sched.TrafficClass, w: Waiter)
    requires Inv(a) && Balanced(a) && OpenStream(a, token, payload, window, class_).failure.None?
    ensures Minded(a, OpenStream(a, token, payload, window, class_), w)
    ensures Held(OpenStream(a, token, payload, window, class_).a, Waiter(token, ToOpen))
  {
    var t := OpenStream(a, token, payload, window, class_);
    var (s, id) := a.core.state.AllocateStreamId().value;
    var core := a.core.(state := s);
    OpenedHome(core, id, payload, class_);
    QueueGrows(core, Command.Open, id, payload, false, class_, Session.NoContext);
    EntryAdded(a, t, id, w);
    assert id in t.a.streams && InEntry(t.a.streams[id], Waiter(token, ToOpen));
  }

  lemma StreamCommandMinds(a: State, token: nat, call: Call, w: Waiter)
    requires Inv(a) && (call.Accept? || call.Reject? || call.Close? || call.Reset?)
    requires HandleCommand(a, token, call).failure.None?
    ensures var t := HandleCommand(a, token, call);
      && Minded(a, t, w)
      && t.replies == [Reply(Waiter(token, call.Asks()), if call.id in a.streams then Done
                                                         else Answer.Refused(Disconnected))]
  {
    var t := HandleCommand(a, token, call);
    if call.id in a.streams {
      QueuedFor(a, token, call);
      if call.Accept? { AcceptKeepsWaiters(a, t, call, w); } else { SameHeld(a, t, w); }
    } else {
      SameHeld(a, t, w);
    }
  }

  lemma AcceptKeepsWaiters(a: State, t: Turn, call: Call, w: Waiter)
    requires call.Accept? && call.id in a.streams && t.a.writeWaiters == a.writeWaiters
    requires t.a.streams == a.streams[call.id := a.streams[call.id].(class_ := call.class_,
                                                                     receiveWindow := call.receiveWindow)]
    requires t.a.pendingGoAway == a.pendingGoAway
    ensures Minded(a, t, w)
  {
    EntryReplaced(a, t, call.id, t.a.streams[call.id], w);
  }

  lemma CancelMinds(a: State, token: nat, id: u32, w: Waiter)
    requires Inv(a)
    ensures var t := HandleCommand(a, token, Call.CancelReceive(id));
      Minded(a, t, w) && Told(t.replies, Waiter(token, ToCancel))
  {
    var t := HandleCommand(a, token, Call.CancelReceive(id));
    if id in a.streams {
      var entry, done := a.streams[id], [Reply(Waiter(token, ToCancel), Done)];
      var refusals := Refusals(entry.receiver, Disconnected);
      assert done[0] in done;
      ToldMore(refusals, done, Waiter(token, ToCancel));
      if entry.receiver == Some(w) {
        assert refusals[0] in refusals && refusals[0] == Reply(w, Answer.Refused(Disconnected));
        ToldMore(refusals, done, w);
      }
      EntryReplaced(a, t, id, entry.(receiver := None), w);
    } else {
      assert t.replies[0] in t.replies;
      SameHeld(a, t, w);
    }
  }

  lemma LeaveMinds(a: State, caller: Waiter, w: Waiter)
    requires Inv(a) && LeaveSession(a, caller).failure.None?
    ensures var t := LeaveSession(a, caller); Minded(a, t, w) && (Held(t.a, caller) || Told(t.replies, caller))
  {
    var t := LeaveSession(a, caller);
    if a.pendingGoAway.Some? {
      assert t.replies[0] in t.replies;
      SameHeld(a, t, w);
    }
  }

  lemma PingMinds(a: State, caller: Waiter, payload: seq<byte>, w: Waiter)
    requires Inv(a) && PingPeer(a, caller, payload).failure.None?
    ensures Minded(a, PingPeer(a, caller, payload), w)
  {
    SameHeld(a, PingPeer(a, caller, payload), w);
  }

  /** After a command the caller is answered or waits, and so is everyone who waited before. */
  lemma CommandMinds(a: State, token: nat, call: Call, w: Waiter)
    requires Inv(a) && Balanced(a) && HandleCommand(a, token, call).failure.None?
    ensures var t, caller := HandleCommand(a, token, call), Waiter(token, call.Asks());
      Minded(a, t, w) && (call.Ping? || Held(t.a, caller) || Told(t.replies, caller))
  {
    var t, caller := HandleCommand(a, token, call), Waiter(token, call.Asks());
    match call
    case Open(payload, window, class_) => OpenMinds(a, token, payload, window, class_, w);
    case SendData(id, payload, end) =>
      if id in a.streams { SendMinds(a, id, payload, end, caller, w); }
      else { RefusedCaller(a, t, caller, w); }
    case Receive(id) =>
      if id in a.streams { ReceiveMinds(a, id, caller, w); }
      else { RefusedCaller(a, t, caller, w); }
    case CancelReceive(id) => CancelMinds(a, token, id, w);
    case GoAway => LeaveMinds(a, caller, w);
    case Ping(payload) => PingMinds(a, caller, payload, w);
    case _ =>
      StreamCommandMinds(a, token, call, w);
      assert t.replies[0] in t.replies;
  }

  lemma RefusedCaller(a: State, t: Turn, caller: Waiter, w: Waiter)
    requires t == Tell(a, caller, Answer.Refused(Disconnected))
    ensures Minded(a, t, w) && Told(t.replies, caller)
  {
    SameHeld(a, t, w);
    assert t.replies[0] in t.replies;
  }

  // ---------------------------------------------------------------- inbound frames and writes

  /** An accepted stream: its opener is told which it is. */
  lemma CompleteMinds(a: State, id: u32, w: Waiter)
    requires a.core.sched.Shaped() && CompleteOpen(a, id).failure.None?
    ensures Minded(a, CompleteOpen(a, id), w)
    ensures a.streams[id].opener.Some? ==>
      CompleteOpen(a, id).replies == [Reply(a.streams[id].opener.value, Opened(id))]
  {
    var t, entry := CompleteOpen(a, id), a.streams[id];
    if entry.opener == Some(w) { assert t.replies[0] in t.replies; }
    EntryReplaced(a, t, id, entry.(opener := None), w);
  }

  lemma RejectMinds(a: State, frame: Frame, reading: Reading, w: Waiter)
    requires a.core.sched.Shaped() && frame.header.command == Command.Reject
    ensures Minded(a, Dispatch(a, frame, reading, false), w)
  {
    var t, id := Dispatch(a, frame, reading, false), frame.header.streamId;
    if id in a.streams {
      var entry := a.streams[id];
      var opener, others := Refusals(entry.opener, Rejected), EntryRefusals(entry.(opener := None), Disconnected);
      if InEntry(entry, w) {
        if entry.opener == Some(w) { assert opener[0] in opener && opener[0] == Reply(w, Answer.Refused(Rejected)); }
        else { RefusedAll(entry.(opener := None), Disconnected, w); }
        ToldMore(opener, others, w);
      }
      EntryGone(a, t, id, w);
    } else {
      SameHeld(a, t, w);
    }
  }

  lemma EntryGone(a: State, t: Turn, id: u32, w: Waiter)
    requires t.a.streams == a.streams - {id} && t.a.pendingGoAway == a.pendingGoAway
    requires t.a.writeWaiters == a.writeWaiters
    requires id in a.streams && InEntry(a.streams[id], w) ==> Told(t.replies, w)
    ensures Minded(a, t, w)
  {
    if OnStream(a.streams, w) {
      var home :| home in a.streams && InEntry(a.streams[home], w);
      if home != id { assert home in t.a.streams && InEntry(t.a.streams[home], w); }
    }
  }

  lemma DispatchMinds(a: State, frame: Frame, reading: Reading, late: bool, w: Waiter)
    requires Inv(a) && (late || frame.header.command != Command.Open)
    requires var t := Dispatch(a, frame, reading, late); t.failure.None? && !t.a.awaitingRestart
    ensures Minded(a, Dispatch(a, frame, reading, late), w)
  {
    var t, id := Dispatch(a, frame, reading, late), frame.header.streamId;
    if late {
      SameHeld(a, t, w);
    } else {
      match frame.header.command
      case Accept => CompleteMinds(a, id, w);
      case Reject => RejectMinds(a, frame, reading, w);
      case Credit => if id == 0 { FlushAllMinds(a, reading.ids, w); } else { FlushMinds(a, id, w); }
      case Data => DeliverMinds(a, frame, w);
      case Close => DeliverMinds(a, frame, w);
      case Reset => DeliverMinds(a, frame, w);
      case GoAway => LeavingMode(a);
      case _ =>
    }
  }

  lemma TakenMinds(a: State, frame: Frame, reading: Reading, context: Session.FrameContext, s: Session.State,
                   late: bool, w: Waiter)
    requires Inv(a) && Balanced(a) && a.core.state.Process(Session.Inbound, frame.header, context) == Ok(s)
    requires late ==> frame.header.command == Data
    requires var t := Dispatch(a.(core := a.core.(state := s)), frame, reading, late);
      t.failure.None? && !t.a.awaitingRestart
    ensures Minded(a, Dispatch(a.(core := a.core.(state := s)), frame, reading, late), w)
  {
    var b := a.(core := a.core.(state := s));
    var t := Dispatch(b, frame, reading, late);
    if frame.header.command == Command.Open {
      ProcessGrows(a.core.state, Session.Inbound, frame.header, context);
      OpenNotZero(a.core.state, frame.header, context);
      EntryAdded(a, t, frame.header.streamId, w);
    } else {
      ProcessKeepsSequences(a.core.state, Session.Inbound, frame.header, context);
      StateKeeps(a.core, s);
      Reassemble(a, b.core, a.streams);
      DispatchMinds(b, frame, reading, late, w);
      assert Held(a, w) <==> Held(b, w);
    }
  }

  lemma OpenNotZero(s: Session.State, h: Header, context: Session.FrameContext)
    requires s.Process(Session.Inbound, h, context).Ok? && h.command == Command.Open
    ensures h.streamId != 0
  {
  }

  lemma InboundMinds(a: State, frame: Frame, reading: Reading, w: Waiter)
    requires Inv(a) && Balanced(a) && !a.awaitingRestart && !Restarts(a, Inbound(frame, reading))
    requires var t := HandleInbound(a, frame, reading); t.failure.None? && !t.a.awaitingRestart
    ensures Minded(a, HandleInbound(a, frame, reading), w)
  {
    var h := frame.header;
    var context := if h.command == Command.Accept then Session.FrameContext(None, reading.acceptWindow)
                   else Session.NoContext;
    var processed := a.core.state.Process(Session.Inbound, h, context);
    TakenMinds(a, frame, reading, context, processed.value, Late(a, frame), w);
  }

  /** The sender of a written frame is told. */
  lemma WroteMinds(a: State, b: State, out: Sched.Item, w: Waiter)
    requires b == a.(core := b.core)
    ensures Minded(a, Wrote(b, out), w)
    ensures var key := (out.StreamId(), out.frame.header.sequence);
      key in a.writeWaiters ==> Reply(a.writeWaiters[key], Done) in Wrote(b, out).replies
  {
    var t, key := Wrote(b, out), (out.StreamId(), out.frame.header.sequence);
    var c := b.(sent := a.sent + [out], writeWaiters := map k | k in a.writeWaiters && k != key :: a.writeWaiters[k]);
    var told := if key in a.writeWaiters then [Reply(a.writeWaiters[key], Done)] else [];
    if key in a.writeWaiters { assert told[0] in told; }
    assert Held(a, w) ==> Held(c, w) || Told(told, w) by {
      if OnWrite(a.writeWaiters, w) {
        var k :| k in a.writeWaiters && a.writeWaiters[k] == w;
        if k != key { assert k in c.writeWaiters && c.writeWaiters[k] == w; }
      }
    }
    if TerminalFrame(out.frame) {
      var retired := Retire(c, key.0, Disconnected);
      RetireMinds(c, key.0, Disconnected, w);
      if Told(told, w) || Told(retired.replies, w) { ToldMore(told, retired.replies, w); }
    }
  }

  lemma DequeueMinds(a: State, written: bool, w: Waiter)
    requires a.core.sched.Shaped() && HandleDequeue(a, written).failure.None?
    ensures Minded(a, HandleDequeue(a, written), w)
  {
    var (sched, out) := a.core.sched.Dequeue();
    var b := a.(core := a.core.(sched := sched));
    if out.Some? { WroteMinds(a, b, out.value, w); } else { SameHeld(a, HandleDequeue(a, written), w); }
  }

  // ---------------------------------------------------------------- whole runs

  /** Who an event comes from, if it is a command of this session. */
  function Caller(a: State, e: Event): Option<Waiter> {
    if e.Command_? && e.generation == a.generation then Some(Waiter(e.token, e.call.Asks())) else None
  }

  lemma EventMinds(a: State, e: Event, w: Waiter)
    requires Inv(a) && Balanced(a) && !a.awaitingRestart && !Restarts(a, e)
    requires Handle(a, e).failure.None? && !Handle(a, e).a.awaitingRestart
    ensures var t := Handle(a, e);
      && Minded(a, t, w)
      && (Caller(a, e) == Some(w) && !e.call.Ping? ==> Held(t.a, w) || Told(t.replies, w))
  {
    match e
    case Command_(generation, token, call) =>
      if generation == a.generation { CommandMinds(a, token, call, w); } else { SameHeld(a, Handle(a, e), w); }
    case Inbound(frame, reading) => InboundMinds(a, frame, reading, w);
    case Dequeue(written) => DequeueMinds(a, written, w);
  }

  lemma StepMinds(a: State, e: Event, b: State, w: Waiter)
    requires Sane(a) && Step(a, e, b) && !b.awaitingRestart && !Restarts(a, e)
    ensures var t := Handle(a, e);
      && t.a == b && Minded(a, t, w)
      && (Caller(a, e) == Some(w) && !e.call.Ping? ==> Held(b, w) || Told(t.replies, w))
  {
    StepIdle(a, e, b);
    EventMinds(a, e, w);
  }

  /** In every step of every run within a session: whoever makes a call other than a ping is answered by
      it or waits; and whoever was waiting is answered by the step, or still waits, or waited for the
      write of a frame whose stream has been finished. */
  lemma NobodyIsForgotten(states: seq<State>, events: seq<Event>, n: nat, w: Waiter)
    requires IsRun(states, events) && n < |events| && !states[n + 1].awaitingRestart
    requires !Restarts(states[n], events[n])
    ensures states[n].core.sched.Shaped()
    ensures var a, e, b, t := states[n], events[n], states[n + 1], Handle(states[n], events[n]);
      && (Held(a, w) ==> Held(b, w) || Told(t.replies, w) || Finished(a, b, w))
      && (Caller(a, e) == Some(w) && !e.call.Ping? ==> Held(b, w) || Told(t.replies, w))
  {
    RunSane(states, events, n);
    var k := n + 1;
    assert Step(states[n], events[n], states[k]);
    StepMinds(states[n], events[n], states[k], w);
  }
}
