/** The receiving side of the actor over whole runs: what each stream took in is what its receivers
    got, in order, and every receiver is answered once. */
module ActorInbox {
  import opened Results
  import opened Wire
  import Session
  import Sched = Scheduler
  import opened Actor
  import opened ActorOutbound
  import opened ActorRuns
  import opened ActorReceive
  import opened ActorTheorems

  // ---------------------------------------------------------------- what is observed

  /** The frames a list of replies gives to receivers of a stream, in order. */
  function Handed(replies: seq<Reply>, id: u32): seq<Frame> {
    if replies == [] then [] else HandedOne(replies[0], id) + Handed(replies[1..], id)
  }

  function HandedOne(r: Reply, id: u32): seq<Frame> {
    if r.to.ask == ToReceive(id) && r.answer.Got? then [r.answer.frame] else []
  }

  /** The receivers of a stream that are answered at all, in order. */
  function Answered(replies: seq<Reply>, id: u32): seq<nat> {
    if replies == [] then [] else AnsweredOne(replies[0], id) + Answered(replies[1..], id)
  }

  function AnsweredOne(r: Reply, id: u32): seq<nat> { if r.to.ask == ToReceive(id) then [r.to.token] else [] }

  /** Input to a stream that is already finished. */
  predicate Late(a: State, frame: Frame) {
    && frame.header.command == Data && frame.header.streamId in a.core.state.streams
    && a.core.state.streams[frame.header.streamId].phase.Terminal()
  }

  /** The frame of an event that a receiver of the stream is to get. */
  function Heard(a: State, e: Event, id: u32): seq<Frame> {
    if e.Inbound? && e.frame.header.streamId == id && !Late(a, e.frame)
       && (e.frame.header.command == Data || TerminalFrame(e.frame)) then [e.frame] else []
  }

  /** The receiver that an event brings. */
  function Asked(a: State, e: Event, id: u32): seq<nat> {
    if e.Command_? && e.generation == a.generation && e.call == Call.Receive(id) then [e.token] else []
  }

  function Inbox(a: State, id: u32): seq<Frame> { if id in a.streams then a.streams[id].inbox else [] }

  function Waiting(a: State, id: u32): seq<nat> {
    if id in a.streams && a.streams[id].receiver.Some? then [a.streams[id].receiver.value.token] else []
  }

  // ---------------------------------------------------------------- one turn

  /** Nobody waits while there is something to read. */
  ghost predicate TidyAt(streams: map<u32, StreamEntry>, id: u32) {
    id in streams && streams[id].receiver.Some? ==> streams[id].inbox == []
  }

  ghost predicate Tidy(streams: map<u32, StreamEntry>) { forall id: u32 :: TidyAt(streams, id) }

  /** What a turn does to a stream that takes in `heard` while the receivers `asked` come. */
  ghost predicate Flows(a: State, t: Turn, heard: seq<Frame>, asked: seq<nat>, id: u32) {
    && Handed(t.replies, id) <= Inbox(a, id) + heard
    && (id in t.a.streams ==> Handed(t.replies, id) + Inbox(t.a, id) == Inbox(a, id) + heard)
    && (id !in a.streams ==> heard == [])
    && Waiting(a, id) + asked == Answered(t.replies, id) + Waiting(t.a, id)
    && (id in t.a.streams && id !in a.streams ==> id !in a.core.state.streams)
    && TidyAt(t.a.streams, id) && Grows(a.core, t.a.core)
  }

  /** The validator forgets no stream. */
  ghost predicate Grows(c: Core, d: Core) { c.state.streams.Keys <= d.state.streams.Keys }

  lemma {:induction false} FramesConcat(p: seq<Reply>, q: seq<Reply>, id: u32)
    ensures Handed(p + q, id) == Handed(p, id) + Handed(q, id)
  {
    if p == [] {
      assert p + q == q;
    } else {
      assert (p + q)[1..] == p[1..] + q;
      FramesConcat(p[1..], q, id);
      Joined(HandedOne(p[0], id), Handed(p[1..], id), Handed(q, id));
    }
  }

  lemma {:induction false} TokensConcat(p: seq<Reply>, q: seq<Reply>, id: u32)
    ensures Answered(p + q, id) == Answered(p, id) + Answered(q, id)
  {
    if p == [] {
      assert p + q == q;
    } else {
      assert (p + q)[1..] == p[1..] + q;
      TokensConcat(p[1..], q, id);
      Joined(AnsweredOne(p[0], id), Answered(p[1..], id), Answered(q, id));
    }
  }

  lemma Joined<T>(a: seq<T>, b: seq<T>, c: seq<T>)
    ensures a + (b + c) == (a + b) + c
  {
  }

  lemma HandedConcat(p: seq<Reply>, q: seq<Reply>, id: u32)
    ensures Handed(p + q, id) == Handed(p, id) + Handed(q, id)
    ensures Answered(p + q, id) == Answered(p, id) + Answered(q, id)
  {
    FramesConcat(p, q, id);
    TokensConcat(p, q, id);
  }

  lemma OneReply(r: Reply, id: u32)
    ensures Handed([r], id) == HandedOne(r, id) && Answered([r], id) == AnsweredOne(r, id)
  {
    assert [r][1..] == [];
  }

  lemma Refused(w: Option<Waiter>, error: Error, id: u32)
    ensures Handed(Refusals(w, error), id) == []
    ensures Answered(Refusals(w, error), id) ==
      if w.Some? && w.value.ask == ToReceive(id) then [w.value.token] else []
  {
    if w.Some? { OneReply(Reply(w.value, Answer.Refused(error)), id); }
  }

  lemma EntryRefused(home: u32, entry: StreamEntry, error: Error, id: u32)
    requires EntryOk(home, entry)
    ensures Handed(EntryRefusals(entry, error), id) == []
    ensures Answered(EntryRefusals(entry, error), id) ==
      if home == id && entry.receiver.Some? then [entry.receiver.value.token] else []
  {
    var sender := if entry.pendingSend.Some? then Some(entry.pendingSend.value.waiter) else None;
    var opener, receiver := Refusals(entry.opener, error), Refusals(entry.receiver, error);
    Refused(entry.opener, error, id);
    Refused(entry.receiver, error, id);
    Refused(sender, error, id);
    HandedThree(opener, receiver, Refusals(sender, error), id);
    OnlyMiddle(Handed(opener, id), Handed(receiver, id), Handed(Refusals(sender, error), id));
    OnlyMiddle(Answered(opener, id), Answered(receiver, id), Answered(Refusals(sender, error), id));
  }

  lemma OnlyMiddle<T>(a: seq<T>, b: seq<T>, c: seq<T>)
    requires |a| == 0 && |c| == 0
    ensures a + b + c == b
  {
  }

  lemma HandedThree(p: seq<Reply>, q: seq<Reply>, r: seq<Reply>, id: u32)
    ensures Handed(p + q + r, id) == Handed(p, id) + Handed(q, id) + Handed(r, id)
    ensures Answered(p + q + r, id) == Answered(p, id) + Answered(q, id) + Answered(r, id)
  {
    HandedConcat(p, q, id);
    HandedConcat(p + q, r, id);
  }

  // ---------------------------------------------------------------- the validator only grows

  lemma ProcessGrows(s: Session.State, dir: Session.Direction, h: Header, context: Session.FrameContext)
    requires s.Process(dir, h, context).Ok?
    ensures s.streams.Keys <= s.Process(dir, h, context).value.streams.Keys
    ensures h.command == Command.Open && h.streamId != 0 ==> h.streamId !in s.streams
  {
  }

  lemma EmitGrows(core: Core, h: Header, payload: seq<byte>, class_: Sched.TrafficClass, context: Session.FrameContext)
    requires core.sched.Shaped() && core.Emit(h, payload, class_, context).Ok?
    ensures Grows(core, core.Emit(h, payload, class_, context).value)
  {
    var header := h.(sequence := core.NextSequence(h.streamId), payloadLength := |payload|);
    ProcessGrows(core.state, Session.Outbound, header, context);
  }

  lemma QueueGrows(core: Core, command: Command, id: u32, payload: seq<byte>, end: bool, class_: Sched.TrafficClass,
                   context: Session.FrameContext)
    requires core.sched.Shaped() && core.QueueFrame(command, id, payload, end, class_, context).Ok?
    ensures Grows(core, core.QueueFrame(command, id, payload, end, class_, context).value)
    ensures command == Command.Open && id != 0 ==> id !in core.state.streams
  {
    var h := NewHeader(command, id, 0).(flags := if end then 1 else 0);
    EmitGrows(core, h, payload, if Sched.ForCommand(command) == Sched.Control then Sched.Control else class_, context);
    var header := h.(sequence := core.NextSequence(id), payloadLength := |payload|);
    ProcessGrows(core.state, Session.Outbound, header, context);
  }

  lemma CreditGrows(core: Core, id: u32, delta: u32)
    requires core.sched.Shaped() && core.QueueCredit(id, delta).Ok?
    ensures Grows(core, core.QueueCredit(id, delta).value)
  {
    EmitGrows(core, NewHeader(Credit, id, 0).(creditDelta := delta), [], Sched.Control, Session.NoContext);
  }

  lemma RestoreGrows(core: Core, frame: Frame)
    requires core.sched.Shaped() && core.RestoreConsumed(frame).Ok?
    ensures Grows(core, core.RestoreConsumed(frame).value)
  {
    var h := frame.header;
    if h.command == Data && h.payloadLength != 0 {
      var useful := !h.EndStream() && core.state.Stream(h.streamId).Some?
                    && core.state.Stream(h.streamId).value.phase == Session.Accepted;
      var first := if useful then core.QueueCredit(h.streamId, h.payloadLength) else Ok(core);
      if useful { CreditGrows(core, h.streamId, h.payloadLength); }
      CreditGrows(first.value, 0, h.payloadLength);
    }
  }

  // ---------------------------------------------------------------- turns that leave inboxes alone

  ghost predicate SameInbox(a: State, b: State, id: u32) {
    && (id in b.streams <==> id in a.streams)
    && (id in a.streams ==>
          b.streams[id].inbox == a.streams[id].inbox && b.streams[id].receiver == a.streams[id].receiver)
  }

  lemma Undisturbed(a: State, t: Turn, id: u32)
    requires Tidy(a.streams) && SameInbox(a, t.a, id) && Grows(a.core, t.a.core)
    requires Handed(t.replies, id) == [] && Answered(t.replies, id) == []
    ensures Flows(a, t, [], [], id)
  {
    assert TidyAt(a.streams, id);
    var none: seq<Frame> := [];
    assert Inbox(a, id) + none == Inbox(a, id) && none + Inbox(t.a, id) == Inbox(t.a, id);
    var nobody: seq<nat> := [];
    assert Waiting(a, id) + nobody == Waiting(a, id) && nobody + Waiting(t.a, id) == Waiting(t.a, id);
  }

  lemma ToldOther(a: State, t: Turn, r: Reply, id: u32)
    requires Tidy(a.streams) && SameInbox(a, t.a, id) && Grows(a.core, t.a.core)
    requires t.replies == [r] && !r.to.ask.ToReceive?
    ensures Flows(a, t, [], [], id)
  {
    OneReply(r, id);
    Undisturbed(a, t, id);
  }

  // ---------------------------------------------------------------- handing over

  /** Retiring a stream refuses its receiver; other streams see nothing of it. */
  lemma RetireFlows(a: State, home: u32, error: Error, id: u32)
    requires EntriesOk(a.streams) && Tidy(a.streams)
    ensures Flows(a, Retire(a, home, error), [], [], id)
  {
    var t := Retire(a, home, error);
    assert TidyAt(a.streams, id);
    var none: seq<Frame> := [];
    assert Inbox(a, id) + none == Inbox(a, id);
    if home in a.streams {
      EntryRefused(home, a.streams[home], error, id);
      if id == home {
        var nobody: seq<nat> := [];
        assert Waiting(a, id) + nobody == Waiting(a, id) && Answered(t.replies, id) + nobody == Answered(t.replies, id);
      } else {
        Undisturbed(a, t, id);
      }
    } else {
      Undisturbed(a, t, id);
    }
  }

  /** The receiver gets the frame, whatever happens to the stream next. */
  lemma HandOverFlows(a: State, home: u32, frame: Frame, w: Waiter, id: u32)
    requires EntriesOk(a.streams) && Tidy(a.streams) && a.core.sched.Shaped() && w.ask == ToReceive(home)
    requires home in a.streams && a.streams[home].receiver.None?
    ensures var t := HandOver(a, home, frame, w);
      t.failure.None? ==>
        if id != home then Flows(a, t, [], [], id)
        else
          && Handed(t.replies, id) == [frame] && Answered(t.replies, id) == [w.token] && Waiting(t.a, id) == []
          && TidyAt(t.a.streams, id) && Grows(a.core, t.a.core)
          && (id in t.a.streams ==> t.a.streams[id] == a.streams[id])
  {
    var t := HandOver(a, home, frame, w);
    if t.failure.None? {
      RestoreGrows(a.core, frame);
      var b := a.(core := a.core.RestoreConsumed(frame).value);
      var got := [Reply(w, Got(frame))];
      OneReply(got[0], id);
      assert TidyAt(a.streams, id);
      if TerminalFrame(frame) {
        var retired := Retire(b, home, Disconnected);
        RetireFlows(b, home, Disconnected, id);
        EntryRefused(home, a.streams[home], Disconnected, id);
        HandedConcat(got, retired.replies, id);
      }
      if id != home { Undisturbed(a, t, id); }
    }
  }

  lemma ReceiveFlows(a: State, home: u32, w: Waiter, id: u32)
    requires Inv(a) && Tidy(a.streams) && home in a.streams && w.ask == ToReceive(home)
    ensures var t := ReceiveOrWait(a, home, w);
      t.failure.None? ==> Flows(a, t, [], if id == home then [w.token] else [], id)
  {
    var entry := a.streams[home];
    var t := ReceiveOrWait(a, home, w);
    assert EntryOk(home, entry) && TidyAt(a.streams, id);
    if t.failure.None? {
      if entry.inbox == [] {
        if id == home { WaitsNow(a, t, w, id); } else { Undisturbed(a, t, id); }
      } else {
        var b := a.(streams := a.streams[home := entry.Popped()]);
        SetEntry(a.streams, home, entry.Popped());
        TidySet(a.streams, home, entry.Popped());
        HandOverFlows(b, home, entry.inbox[0], w, id);
        if id == home { TakesOldest(a, t, entry.inbox[0], w, id); } else { Elsewhere(a, b, t, id); }
      }
    }
  }

  lemma TidySet(streams: map<u32, StreamEntry>, home: u32, entry: StreamEntry)
    requires Tidy(streams) && entry.receiver.None?
    ensures Tidy(streams[home := entry])
  {
    var more := streams[home := entry];
    forall k: u32
      ensures TidyAt(more, k)
    {
      assert TidyAt(streams, k);
    }
  }

  /** A change to another stream comes first. */
  lemma Elsewhere(a: State, b: State, t: Turn, id: u32)
    requires Flows(b, t, [], [], id) && SameInbox(a, b, id) && b.core == a.core
    ensures Flows(a, t, [], [], id)
  {
  }

  lemma WaitsNow(a: State, t: Turn, w: Waiter, id: u32)
    requires id in a.streams && a.streams[id].receiver.None? && a.streams[id].inbox == []
    requires t == Calm(a.(streams := a.streams[id := a.streams[id].(receiver := Some(w))]))
    ensures Flows(a, t, [], [w.token], id)
  {
  }

  lemma TakesOldest(a: State, t: Turn, frame: Frame, w: Waiter, id: u32)
    requires id in a.streams && a.streams[id].inbox != [] && frame == a.streams[id].inbox[0]
    requires a.streams[id].receiver.None? && Grows(a.core, t.a.core) && TidyAt(t.a.streams, id)
    requires Handed(t.replies, id) == [frame] && Answered(t.replies, id) == [w.token] && Waiting(t.a, id) == []
    requires id in t.a.streams ==> t.a.streams[id] == a.streams[id].Popped()
    ensures Flows(a, t, [], [w.token], id)
  {
    var inbox := a.streams[id].inbox;
    var none: seq<Frame> := [];
    assert inbox == [frame] + inbox[1..] && inbox + none == inbox;
    assert [frame] <= inbox;
  }

  lemma DeliverFlows(a: State, frame: Frame, id: u32)
    requires Inv(a) && Tidy(a.streams)
    ensures var t := Deliver(a, frame);
      t.failure.None? ==> Flows(a, t, if id == frame.header.streamId then [frame] else [], [], id)
  {
    var home := frame.header.streamId;
    var t := Deliver(a, frame);
    if t.failure.None? {
      var entry := a.streams[home];
      assert EntryOk(home, entry) && TidyAt(a.streams, home) && TidyAt(a.streams, id);
      if entry.receiver.Some? {
        var b := a.(streams := a.streams[home := entry.(receiver := None)]);
        SetEntry(a.streams, home, entry.(receiver := None));
        TidySet(a.streams, home, entry.(receiver := None));
        HandOverFlows(b, home, frame, entry.receiver.value, id);
        if id == home { GoesStraight(a, t, frame, entry.receiver.value, id); } else { Elsewhere(a, b, t, id); }
      } else if id == home {
        Stored(a, t, frame, id);
      } else {
        Undisturbed(a, t, id);
      }
    }
  }

  lemma GoesStraight(a: State, t: Turn, frame: Frame, w: Waiter, id: u32)
    requires id in a.streams && a.streams[id].inbox == [] && a.streams[id].receiver == Some(w)
    requires Grows(a.core, t.a.core) && TidyAt(t.a.streams, id)
    requires Handed(t.replies, id) == [frame] && Answered(t.replies, id) == [w.token] && Waiting(t.a, id) == []
    requires id in t.a.streams ==> t.a.streams[id] == a.streams[id].(receiver := None)
    ensures Flows(a, t, [frame], [], id)
  {
    var none: seq<Frame> := [];
    assert none + [frame] == [frame] && [frame] + none == [frame];
  }

  lemma Stored(a: State, t: Turn, frame: Frame, id: u32)
    requires id in a.streams && a.streams[id].receiver.None? && t.replies == [] && t.a.core == a.core
    requires id in t.a.streams && t.a.streams[id].inbox == a.streams[id].inbox + [frame]
    requires t.a.streams[id].receiver.None?
    ensures Flows(a, t, [frame], [], id)
  {
    var none: seq<Frame> := [];
    assert none + (a.streams[id].inbox + [frame]) == a.streams[id].inbox + [frame];
  }

  lemma CancelFlows(a: State, token: nat, home: u32, id: u32)
    requires Inv(a) && Tidy(a.streams)
    ensures Flows(a, HandleCommand(a, token, Call.CancelReceive(home)), [], [], id)
  {
    var t := HandleCommand(a, token, Call.CancelReceive(home));
    var done := Reply(Waiter(token, ToCancel), Done);
    OneReply(done, id);
    if home in a.streams {
      var entry := a.streams[home];
      assert EntryOk(home, entry) && TidyAt(a.streams, id);
      Refused(entry.receiver, Disconnected, id);
      HandedConcat(Refusals(entry.receiver, Disconnected), [done], id);
      if id == home { Cancelled(a, t, id); } else { Undisturbed(a, t, id); }
    } else {
      OneReply(Reply(Waiter(token, ToCancel), Answer.Refused(Disconnected)), id);
      Undisturbed(a, t, id);
    }
  }

  lemma Cancelled(a: State, t: Turn, id: u32)
    requires id in a.streams && id in t.a.streams && t.a.core == a.core
    requires t.a.streams[id] == a.streams[id].(receiver := None)
    requires Handed(t.replies, id) == [] && Answered(t.replies, id) == Waiting(a, id)
    ensures Flows(a, t, [], [], id)
  {
    var none: seq<Frame> := [];
    var nobody: seq<nat> := [];
    assert Inbox(a, id) + none == Inbox(a, id) && none + Inbox(t.a, id) == Inbox(t.a, id);
    assert Waiting(a, id) + nobody == Waiting(a, id);
  }

  // ---------------------------------------------------------------- other commands

  lemma TellFlows(a: State, b: State, w: Waiter, r: Result<Core, Error>, id: u32)
    requires Tidy(a.streams) && SameInbox(a, b, id) && b.core == a.core && !w.ask.ToReceive?
    requires r.Ok? ==> Grows(a.core, r.value)
    ensures QueueAndTell(b, w, r).failure.None? ==> Flows(a, QueueAndTell(b, w, r), [], [], id)
  {
    if r.Ok? { ToldOther(a, QueueAndTell(b, w, r), Reply(w, Done), id); }
  }

  lemma OpenFlows(a: State, token: nat, payload: seq<byte>, window: u32, class_: Sched.TrafficClass, id: u32)
    requires Inv(a) && Balanced(a) && Tidy(a.streams)
    ensures var t := OpenStream(a, token, payload, window, class_); t.failure.None? ==> Flows(a, t, [], [], id)
  {
    var t := OpenStream(a, token, payload, window, class_);
    if t.failure.None? {
      var (s, home) := a.core.state.AllocateStreamId().value;
      var core := a.core.(state := s);
      QueueGrows(core, Command.Open, home, payload, false, class_, Session.NoContext);
      OpenedHome(core, home, payload, class_);
      if id == home { NewInbox(a, t, id); } else { Undisturbed(a, t, id); }
    }
  }

  lemma OpenedHome(core: Core, home: u32, payload: seq<byte>, class_: Sched.TrafficClass)
    requires core.sched.Shaped()
    requires core.QueueFrame(Command.Open, home, payload, false, class_, Session.NoContext).Ok?
    ensures home != 0
  {
  }

  lemma NewInbox(a: State, t: Turn, id: u32)
    requires id !in a.streams && id !in a.core.state.streams && Grows(a.core, t.a.core)
    requires id in t.a.streams && t.a.streams[id].inbox == [] && t.a.streams[id].receiver.None? && t.replies == []
    ensures Flows(a, t, [], [], id)
  {
  }

  lemma SendNowFlows(a: State, b: State, home: u32, class_: Sched.TrafficClass, payload: seq<byte>, end: bool,
                     w: Waiter, id: u32)
    requires Tidy(a.streams) && SameInbox(a, b, id) && b.core == a.core && a.core.sched.Shaped()
    ensures var t := SendNow(b, home, class_, payload, end, w);
      t.failure.None? ==> Flows(a, t, [], [], id) && t.replies == [] && SameInbox(a, t.a, id)
  {
    var t := SendNow(b, home, class_, payload, end, w);
    if t.failure.None? {
      QueueGrows(a.core, Data, home, payload, end, class_, Session.NoContext);
      Undisturbed(a, t, id);
    }
  }

  lemma SendFlows(a: State, home: u32, payload: seq<byte>, end: bool, w: Waiter, id: u32)
    requires Inv(a) && Tidy(a.streams) && home in a.streams
    ensures var t := SendOrWait(a, home, payload, end, w); t.failure.None? ==> Flows(a, t, [], [], id)
  {
    var t := SendOrWait(a, home, payload, end, w);
    if t.failure.None? {
      if a.core.HasSendCredit(home, |payload|) {
        SendNowFlows(a, a, home, a.streams[home].class_, payload, end, w, id);
      } else {
        Undisturbed(a, t, id);
      }
    }
  }

  /** ACCEPT, REJECT, CLOSE and RESET: a frame queued and the caller told. */
  lemma StreamCommandFlows(a: State, token: nat, call: Call, id: u32)
    requires Inv(a) && Tidy(a.streams) && (call.Accept? || call.Reject? || call.Close? || call.Reset?)
    ensures var t := HandleCommand(a, token, call); t.failure.None? ==> Flows(a, t, [], [], id)
  {
    var home, w := call.id, Waiter(token, call.Asks());
    var t := HandleCommand(a, token, call);
    if home !in a.streams {
      ToldOther(a, t, Reply(w, Answer.Refused(Disconnected)), id);
    } else {
      QueuedFor(a, token, call);
      if Queueing(a, call).Ok? { QueueingGrows(a, call); }
      TellFlows(a, Prepared(a, call), w, Queueing(a, call), id);
    }
  }

  /** What queueing the frame of such a command gives. */
  function Queueing(a: State, call: Call): Result<Core, Error>
    requires a.core.sched.Shaped() && (call.Accept? || call.Reject? || call.Close? || call.Reset?)
  {
    match call
    case Accept(home, payload, window, _) =>
      a.core.QueueFrame(Command.Accept, home, payload, false, Sched.Control, Session.FrameContext(None, Some(window)))
    case Reject(home, payload) =>
      a.core.QueueFrame(Command.Reject, home, payload, false, Sched.Control, Session.NoContext)
    case Close(home) => a.core.QueueFrame(Command.Close, home, [], false, Sched.Control, Session.NoContext)
    case Reset(home, payload) =>
      a.core.QueueFrame(Command.Reset, home, payload, false, Sched.Control, Session.NoContext)
  }

  lemma QueueingGrows(a: State, call: Call)
    requires a.core.sched.Shaped() && (call.Accept? || call.Reject? || call.Close? || call.Reset?)
    requires Queueing(a, call).Ok?
    ensures Grows(a.core, Queueing(a, call).value)
  {
    match call
    case Accept(home, payload, window, _) =>
      QueueGrows(a.core, Command.Accept, home, payload, false, Sched.Control,
                 Session.FrameContext(None, Some(window)));
    case Reject(home, payload) =>
      QueueGrows(a.core, Command.Reject, home, payload, false, Sched.Control, Session.NoContext);
    case Close(home) =>
      QueueGrows(a.core, Command.Close, home, [], false, Sched.Control, Session.NoContext);
    case Reset(home, payload) =>
      QueueGrows(a.core, Command.Reset, home, payload, false, Sched.Control, Session.NoContext);
  }

  /** ACCEPT also sets class and window of the entry. */
  function Prepared(a: State, call: Call): State {
    if call.Accept? && call.id in a.streams then
      var entry := a.streams[call.id].(class_ := call.class_, receiveWindow := call.receiveWindow);
      a.(streams := a.streams[call.id := entry])
    else a
  }

  lemma QueuedFor(a: State, token: nat, call: Call)
    requires a.core.sched.Shaped() && (call.Accept? || call.Reject? || call.Close? || call.Reset?)
    requires call.id in a.streams
    ensures HandleCommand(a, token, call) ==
      QueueAndTell(Prepared(a, call), Waiter(token, call.Asks()), Queueing(a, call))
  {
  }

  lemma ControlFlows(a: State, token: nat, call: Call, id: u32)
    requires Inv(a) && Tidy(a.streams) && (call.GoAway? || call.Ping?)
    ensures var t := HandleCommand(a, token, call); t.failure.None? ==> Flows(a, t, [], [], id)
  {
    var t := HandleCommand(a, token, call);
    if t.failure.None? {
      var w := Waiter(token, call.Asks());
      if call.Ping? {
        QueueGrows(a.core, Command.Ping, 0, call.payload, false, Sched.Control, Session.NoContext);
        Undisturbed(a, t, id);
      } else if a.pendingGoAway.Some? {
        ToldOther(a, t, Reply(w, Answer.Refused(QueueFull)), id);
      } else {
        QueueGrows(a.core, Command.GoAway, 0, [], false, Sched.Control, Session.NoContext);
        Undisturbed(a, t, id);
      }
    }
  }

  lemma CommandFlows(a: State, token: nat, call: Call, id: u32)
    requires Inv(a) && Balanced(a) && Tidy(a.streams)
    ensures var t := HandleCommand(a, token, call);
      t.failure.None? ==> Flows(a, t, [], if call == Call.Receive(id) then [token] else [], id)
  {
    var t := HandleCommand(a, token, call);
    match call
    case Open(payload, window, class_) => OpenFlows(a, token, payload, window, class_, id);
    case SendData(home, payload, end) =>
      var w := Waiter(token, ToSend(home, payload, end));
      if home in a.streams { SendFlows(a, home, payload, end, w, id); }
      else { ToldOther(a, t, Reply(w, Answer.Refused(Disconnected)), id); }
    case Receive(home) =>
      var w := Waiter(token, ToReceive(home));
      if home in a.streams { ReceiveFlows(a, home, w, id); } else { NobodyThere(a, t, w, home, id); }
    case CancelReceive(home) => CancelFlows(a, token, home, id);
    case GoAway => ControlFlows(a, token, call, id);
    case Ping(_) => ControlFlows(a, token, call, id);
    case _ => StreamCommandFlows(a, token, call, id);
  }

  lemma NobodyThere(a: State, t: Turn, w: Waiter, home: u32, id: u32)
    requires Tidy(a.streams) && home !in a.streams && w.ask == ToReceive(home)
    requires t == Tell(a, w, Answer.Refused(Disconnected))
    ensures Flows(a, t, [], if id == home then [w.token] else [], id)
  {
    OneReply(t.replies[0], id);
    if id != home { Undisturbed(a, t, id); }
  }

  // ---------------------------------------------------------------- inbound frames

  lemma {:induction false} FlushAllFlows(a: State, ids: seq<u32>, id: u32)
    requires Inv(a) && Tidy(a.streams)
    ensures var t := FlushAll(a, ids);
      t.failure.None? ==> t.replies == [] && SameInbox(a, t.a, id) && Grows(a.core, t.a.core)
    decreases |ids|
  {
    if ids != [] {
      var first := FlushPending(a, ids[0]);
      FlushFlows(a, ids[0], id);
      FlushPendingGood(a, ids[0]);
      if first.failure.None? {
        FlushKeepsTidy(a, ids[0]);
        FlushAllFlows(first.a, ids[1..], id);
      }
    }
  }

  lemma FlushFlows(a: State, home: u32, id: u32)
    requires Inv(a) && Tidy(a.streams)
    ensures var t := FlushPending(a, home);
      t.failure.None? ==> t.replies == [] && SameInbox(a, t.a, id) && Grows(a.core, t.a.core)
  {
    var t := FlushPending(a, home);
    if t.failure.None? && home in a.streams && a.streams[home].pendingSend.Some? {
      var entry := a.streams[home];
      var pending := entry.pendingSend.value;
      if a.core.HasSendCredit(home, |pending.payload|) {
        var b := a.(streams := a.streams[home := entry.(pendingSend := None)]);
        SendNowFlows(a, b, home, entry.class_, pending.payload, pending.end, pending.waiter, id);
      }
    }
  }

  lemma FlushKeepsTidy(a: State, home: u32)
    requires Inv(a) && Tidy(a.streams) && FlushPending(a, home).failure.None?
    ensures Tidy(FlushPending(a, home).a.streams)
  {
    var b := FlushPending(a, home).a;
    forall k: u32
      ensures TidyAt(b.streams, k)
    {
      assert TidyAt(a.streams, k);
      FlushFlows(a, home, k);
    }
  }

  lemma CompleteFlows(a: State, home: u32, id: u32)
    requires Inv(a) && Tidy(a.streams)
    ensures var t := CompleteOpen(a, home); t.failure.None? ==> Flows(a, t, [], [], id)
  {
    var t := CompleteOpen(a, home);
    if t.failure.None? {
      var entry := a.streams[home];
      assert EntryOk(home, entry);
      CreditGrows(a.core, home, entry.receiveWindow);
      if entry.opener.Some? { OneReply(t.replies[0], id); }
      Undisturbed(a, t, id);
    }
  }

  /** What a frame brings to a stream. */
  function Brings(frame: Frame, late: bool, id: u32): seq<Frame> {
    var input := frame.header.command == Data || TerminalFrame(frame);
    if frame.header.streamId == id && !late && input then [frame] else []
  }

  /** Whatever the frame does, the stream takes in what it brings. */
  ghost predicate Passes(a: State, frame: Frame, reading: Reading, late: bool, id: u32)
    requires a.core.sched.Shaped()
  {
    var t := Dispatch(a, frame, reading, late);
    t.failure.None? && !t.a.awaitingRestart ==> Flows(a, t, Brings(frame, late, id), [], id)
  }

  lemma RejectFlows(a: State, frame: Frame, reading: Reading, id: u32)
    requires Inv(a) && Tidy(a.streams) && frame.header.command == Command.Reject
    ensures Passes(a, frame, reading, false, id)
  {
    var home := frame.header.streamId;
    var t := Dispatch(a, frame, reading, false);
    if home in a.streams {
      var entry := a.streams[home];
      assert EntryOk(home, entry) && TidyAt(a.streams, id);
      Refused(entry.opener, Rejected, id);
      EntryRefused(home, entry.(opener := None), Disconnected, id);
      HandedConcat(Refusals(entry.opener, Rejected), EntryRefusals(entry.(opener := None), Disconnected), id);
      if id == home { Forgotten(a, t, id); } else { Undisturbed(a, t, id); }
    } else {
      Undisturbed(a, t, id);
    }
  }

  lemma Forgotten(a: State, t: Turn, id: u32)
    requires id !in t.a.streams && t.a.core == a.core
    requires Handed(t.replies, id) == [] && Answered(t.replies, id) == Waiting(a, id)
    ensures Flows(a, t, [], [], id)
  {
    var nobody: seq<nat> := [];
    assert Waiting(a, id) + nobody == Waiting(a, id);
  }

  lemma PongFlows(a: State, frame: Frame, reading: Reading, id: u32)
    requires Inv(a) && Tidy(a.streams) && frame.header.command == Command.Ping
    ensures Passes(a, frame, reading, false, id)
  {
    var t := Dispatch(a, frame, reading, false);
    if t.failure.None? {
      QueueGrows(a.core, Command.Pong, 0, frame.payload, false, Sched.Control, Session.NoContext);
      Undisturbed(a, t, id);
    }
  }

  lemma LateFlows(a: State, frame: Frame, reading: Reading, id: u32)
    requires Inv(a) && Tidy(a.streams)
    ensures Passes(a, frame, reading, true, id)
  {
    var t := Dispatch(a, frame, reading, true);
    if t.failure.None? {
      RestoreGrows(a.core, frame);
      Undisturbed(a, t, id);
    }
  }

  lemma CreditFlows(a: State, frame: Frame, reading: Reading, id: u32)
    requires Inv(a) && Tidy(a.streams) && frame.header.command == Credit
    ensures Passes(a, frame, reading, false, id)
  {
    var t := Dispatch(a, frame, reading, false);
    var home := frame.header.streamId;
    if home == 0 { FlushAllFlows(a, reading.ids, id); } else { FlushFlows(a, home, id); }
    if t.failure.None? { Undisturbed(a, t, id); }
  }

  lemma DispatchFlows(a: State, frame: Frame, reading: Reading, late: bool, id: u32)
    requires Inv(a) && Tidy(a.streams) && frame.header.command != Command.Open
    ensures Passes(a, frame, reading, late, id)
  {
    if late {
      LateFlows(a, frame, reading, id);
    } else {
      match frame.header.command
      case Accept => AnswerFlows(a, frame, reading, id);
      case Reject => RejectFlows(a, frame, reading, id);
      case Credit => CreditFlows(a, frame, reading, id);
      case Data => InputFlows(a, frame, reading, id);
      case Close => InputFlows(a, frame, reading, id);
      case Reset => InputFlows(a, frame, reading, id);
      case Ping => PongFlows(a, frame, reading, id);
      case Pong => Undisturbed(a, Calm(a), id);
      case _ => EndingFlows(a, frame, reading, id);
    }
  }

  lemma EndingFlows(a: State, frame: Frame, reading: Reading, id: u32)
    requires a.core.sched.Shaped()
    requires var c := frame.header.command; c.GoAway? || c.Error? || c.Hello? || c.PairingFinish?
    ensures Passes(a, frame, reading, false, id)
  {
  }

  lemma AnswerFlows(a: State, frame: Frame, reading: Reading, id: u32)
    requires Inv(a) && Tidy(a.streams) && frame.header.command == Command.Accept
    ensures Passes(a, frame, reading, false, id)
  {
    CompleteFlows(a, frame.header.streamId, id);
  }

  lemma InputFlows(a: State, frame: Frame, reading: Reading, id: u32)
    requires Inv(a) && Tidy(a.streams) && (frame.header.command == Data || TerminalFrame(frame))
    ensures Passes(a, frame, reading, false, id)
  {
    assert Dispatch(a, frame, reading, false) == Deliver(a, frame);
    DeliverFlows(a, frame, id);
  }

  lemma Chained(a: State, b: State, t: Turn, heard: seq<Frame>, asked: seq<nat>, id: u32)
    requires Flows(b, t, heard, asked, id) && b.streams == a.streams && Grows(a.core, b.core)
    ensures Flows(a, t, heard, asked, id)
  {
  }

  lemma StateTaken(a: State, frame: Frame, context: Session.FrameContext, s: Session.State)
    requires Inv(a) && a.core.state.Process(Session.Inbound, frame.header, context) == Ok(s)
    ensures var b := a.(core := a.core.(state := s)); Inv(b) && Grows(a.core, b.core)
  {
    ProcessKeepsSequences(a.core.state, Session.Inbound, frame.header, context);
    StateKeeps(a.core, s);
    Reassemble(a, a.core.(state := s), a.streams);
    ProcessGrows(a.core.state, Session.Inbound, frame.header, context);
  }

  /** A frame the validator took, short of a restart. */
  lemma TakenFlows(a: State, frame: Frame, reading: Reading, context: Session.FrameContext, s: Session.State,
                   late: bool, id: u32)
    requires Inv(a) && Balanced(a) && Tidy(a.streams) && (late ==> frame.header.command == Data)
    requires a.core.state.Process(Session.Inbound, frame.header, context) == Ok(s)
    ensures var t := Dispatch(a.(core := a.core.(state := s)), frame, reading, late);
      t.failure.None? && !t.a.awaitingRestart ==> Flows(a, t, Brings(frame, late, id), [], id)
  {
    var b := a.(core := a.core.(state := s));
    var t := Dispatch(b, frame, reading, late);
    if frame.header.command == Command.Open {
      OpenedFlows(a, frame, reading, context, s, id);
    } else {
      StateTaken(a, frame, context, s);
      DispatchFlows(b, frame, reading, late, id);
      if t.failure.None? && !t.a.awaitingRestart { Chained(a, b, t, Brings(frame, late, id), [], id); }
    }
  }

  lemma OpenedFlows(a: State, frame: Frame, reading: Reading, context: Session.FrameContext, s: Session.State, id: u32)
    requires Inv(a) && Balanced(a) && Tidy(a.streams) && frame.header.command == Command.Open
    requires a.core.state.Process(Session.Inbound, frame.header, context) == Ok(s)
    ensures var t := Dispatch(a.(core := a.core.(state := s)), frame, reading, false);
      t.failure.None? ==> Flows(a, t, [], [], id)
  {
    var t := Dispatch(a.(core := a.core.(state := s)), frame, reading, false);
    ProcessGrows(a.core.state, Session.Inbound, frame.header, context);
    if t.failure.None? {
      if id == frame.header.streamId { NewInbox(a, t, id); } else { Undisturbed(a, t, id); }
    }
  }
}
