/** The connection actor as a step machine: commands, inbound frames and dequeues change one
    owned state. Threads, channels and time are gone; what a caller would be told is a reply. */
module Actor {
  import opened Results
  import opened Wire
  import Session
  import Sched = Scheduler

  datatype Error =
    | Disconnected | Rejected | Protocol | InvalidService | UnknownStream(id: u32)
    | ReceivePending(id: u32) | SendPending(id: u32) | QueueFull | Transport

  /** Who waits for an answer, and what it asked for. */
  datatype Ask = ToOpen | ToAccept | ToReject | ToSend(id: u32, payload: seq<byte>, end: bool)
               | ToReceive(id: u32) | ToClose | ToReset | ToCancel | ToGoAway | ToPing
  datatype Waiter = Waiter(token: nat, ask: Ask)

  datatype Answer = Done | Opened(id: u32) | Got(frame: Frame) | Refused(error: Error)
  datatype Reply = Reply(to: Waiter, answer: Answer)

  datatype PendingSend = PendingSend(payload: seq<byte>, end: bool, waiter: Waiter)

  datatype StreamEntry = StreamEntry(
    class_: Sched.TrafficClass, receiveWindow: u32, inbox: seq<Frame>, inboxBytes: nat,
    receiver: Option<Waiter>, opener: Option<Waiter>, pendingSend: Option<PendingSend>)
  {
    /** The entry without its oldest unread frame; the byte count saturates at zero. */
    function Popped(): StreamEntry
      requires inbox != []
    {
      var n := |inbox[0].payload|;
      this.(inbox := inbox[1..], inboxBytes := if inboxBytes >= n then inboxBytes - n else 0)
    }
  }

  function NewEntry(class_: Sched.TrafficClass, receiveWindow: u32): StreamEntry {
    StreamEntry(class_, receiveWindow, [], 0, None, None, None)
  }

  const MAX_SCHEDULED_BYTES: nat := 16 * 1024 * 1024

  // ---------------------------------------------------------------- the outbound path

  /** Session validator, sequence counters and scheduler: all that sending a frame touches. */
  datatype Core = Core(state: Session.State, sequences: map<u32, u32>, controlSequence: u32, sched: Sched.State) {
    function NextSequence(id: u32): u32 {
      if id == 0 then controlSequence else Session.Expected(sequences, id)
    }

    function TakeSequence(id: u32): Result<Core, Error> {
      if NextSequence(id) == U32_MAX then Err(Protocol)
      else if id == 0 then Ok(this.(controlSequence := controlSequence + 1))
      else Ok(this.(sequences := sequences[id := NextSequence(id) + 1]))
    }

    /** Numbers a frame, has the validator accept it, and queues it. */
    function Emit(h: Header, payload: seq<byte>, class_: Sched.TrafficClass, context: Session.FrameContext)
      : (r: Result<Core, Error>)
      requires sched.Shaped()
      ensures r.Ok? ==> r.value.sched.Shaped()
    {
      var taken :- TakeSequence(h.streamId);
      if |payload| > U32_MAX then Err(Protocol)
      else
        var header := h.(sequence := NextSequence(h.streamId), payloadLength := |payload|);
        var processed := state.Process(Session.Outbound, header, context);
        if processed.Err? then Err(Protocol)
        else
          var queued := sched.Enqueue(Sched.Item(class_, Frame(header, payload)));
          if queued.Err? then Err(QueueFull)
          else Ok(taken.(state := processed.value, sched := queued.value))
    }

    function QueueFrame(command: Command, id: u32, payload: seq<byte>, end: bool, class_: Sched.TrafficClass,
                        context: Session.FrameContext): (r: Result<Core, Error>)
      requires sched.Shaped()
      ensures r.Ok? ==> r.value.sched.Shaped()
    {
      Emit(NewHeader(command, id, 0).(flags := if end then 1 else 0), payload,
           if Sched.ForCommand(command) == Sched.Control then Sched.Control else class_, context)
    }

    function QueueCredit(id: u32, delta: u32): (r: Result<Core, Error>)
      requires sched.Shaped()
      ensures r.Ok? ==> r.value.sched.Shaped()
    {
      Emit(NewHeader(Credit, id, 0).(creditDelta := delta), [], Sched.Control, Session.NoContext)
    }

    predicate HasSendCredit(id: u32, needed: nat) {
      state.Stream(id).Some? && state.Stream(id).value.sendCredit >= needed && state.conn.sendCredit >= needed
    }

    /** Consumed DATA gives back connection credit, and stream credit while that is of use. */
    function RestoreConsumed(frame: Frame): (r: Result<Core, Error>)
      requires sched.Shaped()
      ensures r.Ok? ==> r.value.sched.Shaped()
    {
      var h := frame.header;
      if h.command != Data || h.payloadLength == 0 then Ok(this)
      else
        var useful := !h.EndStream() && state.Stream(h.streamId).Some?
                      && state.Stream(h.streamId).value.phase == Session.Accepted;
        var first := if useful then QueueCredit(h.streamId, h.payloadLength) else Ok(this);
        if first.Err? then first
        else first.value.QueueCredit(0, h.payloadLength)
    }
  }

  // ---------------------------------------------------------------- the actor

  /** `sent` and `dropped` are for the record: frames written since the scheduler was last
      replaced, and DATA bytes thrown away unread with a retired stream. */
  datatype State = State(
    core: Core, streams: map<u32, StreamEntry>, writeWaiters: map<(u32, u32), Waiter>,
    pendingGoAway: Option<Waiter>, restartable: bool, awaitingRestart: bool, generation: nat,
    sent: seq<Sched.Item>, dropped: nat)

  /** A handled event: the new state, the replies, and the error that ends the session. */
  datatype Turn = Turn(a: State, replies: seq<Reply>, failure: Option<Error>)

  function Calm(a: State): Turn { Turn(a, [], None) }
  function Tell(a: State, to: Waiter, answer: Answer): Turn { Turn(a, [Reply(to, answer)], None) }
  function Break(a: State, error: Error): Turn { Turn(a, [], Some(error)) }
  function TellBreak(a: State, to: Waiter, error: Error): Turn {
    Turn(a, [Reply(to, Refused(error))], Some(error))
  }

  datatype Call =
    | Open(payload: seq<byte>, receiveWindow: u32, class_: Sched.TrafficClass)
    | Accept(id: u32, payload: seq<byte>, receiveWindow: u32, class_: Sched.TrafficClass)
    | Reject(id: u32, payload: seq<byte>)
    | SendData(id: u32, payload: seq<byte>, end: bool)
    | Receive(id: u32)
    | Close(id: u32)
    | Reset(id: u32, payload: seq<byte>)
    | CancelReceive(id: u32)
    | GoAway
    | Ping(payload: seq<byte>)
  {
    /** What the caller of a stream command waits for. */
    function Asks(): Ask {
      match this
      case Accept(_, _, _, _) => ToAccept
      case Reject(_, _) => ToReject
      case SendData(id, payload, end) => ToSend(id, payload, end)
      case Receive(id) => ToReceive(id)
      case Close(_) => ToClose
      case Reset(_, _) => ToReset
      case CancelReceive(_) => ToCancel
      case Open(_, _, _) => ToOpen
      case GoAway => ToGoAway
      case Ping(_) => ToPing
    }
  }

  /** A command answered at once with whatever queueing its frame gives. */
  function QueueAndTell(a: State, w: Waiter, r: Result<Core, Error>): Turn {
    if r.Ok? then Tell(a.(core := r.value), w, Done) else TellBreak(a, w, r.error)
  }

  function OpenStream(a: State, token: nat, payload: seq<byte>, receiveWindow: u32, class_: Sched.TrafficClass): Turn
    requires a.core.sched.Shaped()
  {
    var granted := a.core.state.AllocateStreamId();
    if granted.Err? then Break(a, Protocol)
    else
      var (s, id) := granted.value;
      var entry := NewEntry(class_, receiveWindow).(opener := Some(Waiter(token, ToOpen)));
      var core := a.core.(state := s);
      var r := core.QueueFrame(Command.Open, id, payload, false, class_, Session.NoContext);
      var b := a.(core := core, streams := a.streams[id := entry]);
      if r.Ok? then Calm(b.(core := r.value)) else Break(b, r.error)
  }

  /** Announces the end of the session; the caller waits for the peer to do the same. */
  function LeaveSession(a: State, w: Waiter): Turn
    requires a.core.sched.Shaped()
  {
    if a.pendingGoAway.Some? then Tell(a, w, Refused(QueueFull))
    else
      var r := a.core.QueueFrame(Command.GoAway, 0, [], false, Sched.Control, Session.NoContext);
      if r.Ok? then Calm(a.(core := r.value, pendingGoAway := Some(w))) else Break(a, r.error)
  }

  function PingPeer(a: State, w: Waiter, payload: seq<byte>): Turn
    requires a.core.sched.Shaped()
  {
    var r := a.core.QueueFrame(Command.Ping, 0, payload, false, Sched.Control, Session.NoContext);
    if r.Ok? then Calm(a.(core := r.value)) else TellBreak(a, w, r.error)
  }

  function HandleCommand(a: State, token: nat, call: Call): Turn
    requires a.core.sched.Shaped()
  {
    match call
    case Open(payload, receiveWindow, class_) =>
      OpenStream(a, token, payload, receiveWindow, class_)
    case Accept(id, payload, receiveWindow, class_) =>
      var w := Waiter(token, ToAccept);
      if id !in a.streams then Tell(a, w, Refused(Disconnected))
      else
        var entry := a.streams[id].(class_ := class_, receiveWindow := receiveWindow);
        QueueAndTell(a.(streams := a.streams[id := entry]), w,
                     a.core.QueueFrame(Command.Accept, id, payload, false, Sched.Control,
                                       Session.FrameContext(None, Some(receiveWindow))))
    case Reject(id, payload) =>
      var w := Waiter(token, ToReject);
      if id !in a.streams then Tell(a, w, Refused(Disconnected))
      else QueueAndTell(a, w, a.core.QueueFrame(Command.Reject, id, payload, false, Sched.Control, Session.NoContext))
    case SendData(id, payload, end) =>
      var w := Waiter(token, ToSend(id, payload, end));
      if id !in a.streams then Tell(a, w, Refused(Disconnected)) else SendOrWait(a, id, payload, end, w)
    case Receive(id) =>
      var w := Waiter(token, ToReceive(id));
      if id !in a.streams then Tell(a, w, Refused(Disconnected)) else ReceiveOrWait(a, id, w)
    case Close(id) =>
      var w := Waiter(token, ToClose);
      if id !in a.streams then Tell(a, w, Refused(Disconnected))
      else QueueAndTell(a, w, a.core.QueueFrame(Command.Close, id, [], false, Sched.Control, Session.NoContext))
    case Reset(id, payload) =>
      var w := Waiter(token, ToReset);
      if id !in a.streams then Tell(a, w, Refused(Disconnected))
      else QueueAndTell(a, w, a.core.QueueFrame(Command.Reset, id, payload, false, Sched.Control, Session.NoContext))
    case CancelReceive(id) =>
      var w := Waiter(token, ToCancel);
      if id !in a.streams then Tell(a, w, Refused(Disconnected))
      else
        var entry := a.streams[id];
        Turn(a.(streams := a.streams[id := entry.(receiver := None)]),
             Refusals(entry.receiver, Disconnected) + [Reply(w, Done)], None)
    case GoAway => LeaveSession(a, Waiter(token, ToGoAway))
    case Ping(payload) => PingPeer(a, Waiter(token, ToPing), payload)
  }

  function Refusals(w: Option<Waiter>, error: Error): seq<Reply> {
    if w.Some? then [Reply(w.value, Refused(error))] else []
  }

  /** Whether a send on the stream still waits for its frame to be written. */
  predicate WriteWaiting(a: State, id: u32) {
    exists key :: key in a.writeWaiters.Keys && key.0 == id
  }

  function SendOrWait(a: State, id: u32, payload: seq<byte>, end: bool, w: Waiter): Turn
    requires a.core.sched.Shaped() && id in a.streams
  {
    var entry := a.streams[id];
    if entry.pendingSend.Some? || WriteWaiting(a, id) then TellBreak(a, w, SendPending(id))
    else if |payload| > U32_MAX then Break(a, Protocol)
    else if a.core.HasSendCredit(id, |payload|) then SendNow(a, id, entry.class_, payload, end, w)
    else Calm(a.(streams := a.streams[id := entry.(pendingSend := Some(PendingSend(payload, end, w)))]))
  }

  /** Queues a DATA frame whose sender is answered once it has been written. */
  function SendNow(a: State, id: u32, class_: Sched.TrafficClass, payload: seq<byte>, end: bool, w: Waiter): (t: Turn)
    requires a.core.sched.Shaped()
    ensures t.a.core.sched.Shaped()
  {
    var sequence := a.core.NextSequence(id);
    var r := a.core.QueueFrame(Data, id, payload, end, class_, Session.NoContext);
    if r.Ok? then Calm(a.(core := r.value, writeWaiters := a.writeWaiters[(id, sequence) := w]))
    else TellBreak(a, w, r.error)
  }

  function FlushPending(a: State, id: u32): (t: Turn)
    requires a.core.sched.Shaped()
    ensures t.a.core.sched.Shaped()
  {
    if id !in a.streams || a.streams[id].pendingSend.None? then Calm(a)
    else
      var entry := a.streams[id];
      var pending := entry.pendingSend.value;
      var b := a.(streams := a.streams[id := entry.(pendingSend := None)]);
      if |pending.payload| > U32_MAX then Break(b, Protocol)
      else if !a.core.HasSendCredit(id, |pending.payload|) then Calm(a)
      else SendNow(b, id, entry.class_, pending.payload, pending.end, pending.waiter)
  }

  /** Connection credit may release a send on any stream; `ids` is the order they are tried in. */
  function FlushAll(a: State, ids: seq<u32>): Turn
    requires a.core.sched.Shaped()
    decreases |ids|
  {
    if ids == [] then Calm(a)
    else
      var first := FlushPending(a, ids[0]);
      if first.failure.Some? then first
      else
        var rest := FlushAll(first.a, ids[1..]);
        rest.(replies := first.replies + rest.replies)
  }

  predicate TerminalFrame(frame: Frame) {
    frame.header.command == Command.Close || frame.header.command == Command.Reset
  }

  function ReceiveOrWait(a: State, id: u32, w: Waiter): Turn
    requires a.core.sched.Shaped() && id in a.streams
  {
    var entry := a.streams[id];
    if entry.receiver.Some? then TellBreak(a, w, ReceivePending(id))
    else if entry.inbox == [] then Calm(a.(streams := a.streams[id := entry.(receiver := Some(w))]))
    else HandOver(a.(streams := a.streams[id := entry.Popped()]), id, entry.inbox[0], w)
  }

  /** Gives a frame to a waiting receiver, returns its credit, and ends the stream after CLOSE or RESET. */
  function HandOver(a: State, id: u32, frame: Frame, w: Waiter): Turn
    requires a.core.sched.Shaped()
  {
    var r := a.core.RestoreConsumed(frame);
    if r.Err? then Break(a, r.error)
    else
      var b := a.(core := r.value);
      var got := [Reply(w, Got(frame))];
      if TerminalFrame(frame) then
        var retired := Retire(b, id, Disconnected);
        Turn(retired.a, got + retired.replies, None)
      else Turn(b, got, None)
  }

  function Deliver(a: State, frame: Frame): Turn
    requires a.core.sched.Shaped()
  {
    var id := frame.header.streamId;
    if id !in a.streams then Break(a, UnknownStream(id))
    else
      var entry := a.streams[id];
      if entry.receiver.Some? then
        HandOver(a.(streams := a.streams[id := entry.(receiver := None)]), id, frame, entry.receiver.value)
      else
        var bytes := entry.inboxBytes + |frame.payload|;
        var b := a.(streams := a.streams[id := entry.(inboxBytes := bytes)]);
        if bytes > entry.receiveWindow then Break(b, QueueFull)
        else Calm(a.(streams := a.streams[id := entry.(inboxBytes := bytes, inbox := entry.inbox + [frame])]))
  }

  function DataBytes(inbox: seq<Frame>): nat {
    if inbox == [] then 0
    else (if inbox[0].header.command == Data then inbox[0].header.payloadLength else 0) + DataBytes(inbox[1..])
  }

  /** Everyone who waits on a stream is told the error. */
  function EntryRefusals(entry: StreamEntry, error: Error): seq<Reply> {
    Refusals(entry.opener, error) + Refusals(entry.receiver, error)
    + Refusals(if entry.pendingSend.Some? then Some(entry.pendingSend.value.waiter) else None, error)
  }

  /** Forgets a stream: everyone waiting on it is refused, and what nobody read is dropped. */
  function Retire(a: State, id: u32, error: Error): Turn {
    var b := a.(writeWaiters := map key | key in a.writeWaiters && key.0 != id :: a.writeWaiters[key]);
    if id !in a.streams then Turn(b, [], None)
    else
      var entry := a.streams[id];
      Turn(b.(streams := a.streams - {id}, dropped := a.dropped + DataBytes(entry.inbox)),
        EntryRefusals(entry, error), None)
  }

  /** What the decoder says about a frame's payload, and the order streams are flushed in. */
  datatype Reading = Reading(acceptWindow: Option<u32>, serviceOk: bool, listening: bool, ids: seq<u32>,
                             restarted: Option<Session.State>, helloWritten: bool)

  function HandleInbound(a: State, frame: Frame, reading: Reading): Turn
    requires a.core.sched.Shaped()
  {
    var h := frame.header;
    if h.command == Hello && h.streamId == 0 && a.restartable then RestartSession(a, reading)
    else if !(h.command == Hello && h.streamId == 0) && a.awaitingRestart then Calm(a)
    else
      var late := h.command == Data && a.core.state.Stream(h.streamId).Some?
                  && a.core.state.Stream(h.streamId).value.phase.Terminal();
      if h.command == Command.Accept && reading.acceptWindow.None? then Break(a, InvalidService)
      else
        var context := if h.command == Command.Accept then Session.FrameContext(None, reading.acceptWindow)
                       else Session.NoContext;
        var processed := a.core.state.Process(Session.Inbound, h, context);
        if processed.Err? then Break(a, Protocol)
        else Dispatch(a.(core := a.core.(state := processed.value)), frame, reading, late)
  }

  /** The part of an inbound frame that follows its acceptance by the validator. */
  function Dispatch(a: State, frame: Frame, reading: Reading, late: bool): Turn
    requires a.core.sched.Shaped()
  {
    var h := frame.header;
    if late then
      var r := a.core.RestoreConsumed(frame);
      if r.Ok? then Calm(a.(core := r.value)) else Break(a, r.error)
    else match h.command
      case Open =>
        if !reading.serviceOk then Break(a, InvalidService)
        else
          var b := a.(streams := a.streams[h.streamId := NewEntry(Sched.Bulk, 0)]);
          if reading.listening then Calm(b) else Break(b, Disconnected)
      case Accept => CompleteOpen(a, h.streamId)
      case Reject =>
        if h.streamId !in a.streams then Calm(a)
        else
          var entry := a.streams[h.streamId];
          Turn(a.(streams := a.streams - {h.streamId}),
               Refusals(entry.opener, Rejected) + EntryRefusals(entry.(opener := None), Disconnected), None)
      case Credit => if h.streamId == 0 then FlushAll(a, reading.ids) else FlushPending(a, h.streamId)
      case Data => Deliver(a, frame)
      case Close => Deliver(a, frame)
      case Reset => Deliver(a, frame)
      case Ping =>
        var r := a.core.QueueFrame(Command.Pong, 0, frame.payload, false, Sched.Control, Session.NoContext);
        if r.Ok? then Calm(a.(core := r.value)) else Break(a, r.error)
      case Pong => Calm(a)
      case GoAway => PeerLeaves(a)
      case _ => Break(a, Disconnected)
  }

  function CompleteOpen(a: State, id: u32): Turn
    requires a.core.sched.Shaped()
  {
    if id !in a.streams then Break(a, UnknownStream(id))
    else
      var entry := a.streams[id];
      var r := a.core.QueueCredit(id, entry.receiveWindow);
      if r.Err? then Break(a, r.error)
      else
        Turn(a.(core := r.value, streams := a.streams[id := entry.(opener := None)]),
             if entry.opener.Some? then [Reply(entry.opener.value, Opened(id))] else [], None)
  }

  function PeerLeaves(a: State): Turn
    requires a.core.sched.Shaped()
  {
    if a.pendingGoAway.Some? then
      Turn(a.(pendingGoAway := None), [Reply(a.pendingGoAway.value, Done)], Some(Disconnected))
    else if a.restartable then
      var b := FailStreams(a).(awaitingRestart := true);
      var c := b.(core := b.core.(controlSequence := a.core.controlSequence));
      var r := c.core.QueueFrame(Command.GoAway, 0, [], false, Sched.Control, Session.NoContext);
      if r.Ok? then Calm(c.(core := r.value)) else Break(c, r.error)
    else Break(a, Disconnected)
  }

  /** Drops every stream, counter and queued frame. The refusals it sends are not modelled. */
  function FailStreams(a: State): State {
    a.(core := Core(a.core.state, map[], 1, Sched.New(MAX_SCHEDULED_BYTES)),
       streams := map[], writeWaiters := map[], sent := [], dropped := 0)
  }

  function RestartSession(a: State, reading: Reading): Turn {
    if reading.restarted.None? then Break(a, Disconnected)
    else
      var b := FailStreams(a).(generation := a.generation + 1, awaitingRestart := !reading.helloWritten);
      Calm(b.(core := b.core.(state := reading.restarted.value)))
  }

  // ---------------------------------------------------------------- events

  datatype Event =
    | Command_(generation: nat, token: nat, call: Call)
    | Inbound(frame: Frame, reading: Reading)
    | Dequeue(written: bool)

  /** One turn of the actor's loop, before its error handling. */
  function Handle(a: State, e: Event): Turn
    requires a.core.sched.Shaped()
  {
    match e
    case Command_(generation, token, call) =>
      if a.awaitingRestart || generation != a.generation then Calm(a) else HandleCommand(a, token, call)
    case Inbound(frame, reading) => HandleInbound(a, frame, reading)
    case Dequeue(written) => HandleDequeue(a, written)
  }

  /** Writes the scheduler's next frame, answers its sender, and retires a finished stream. */
  function HandleDequeue(a: State, written: bool): Turn
    requires a.core.sched.Shaped()
  {
    var (sched, out) := a.core.sched.Dequeue();
    var b := a.(core := a.core.(sched := sched));
    if out.None? then Calm(b)
    else if !written then Break(b, Transport)
    else Wrote(b, out.value)
  }

  function Wrote(a: State, item: Sched.Item): Turn {
    var key := (item.frame.header.streamId, item.frame.header.sequence);
    var b := a.(sent := a.sent + [item],
                writeWaiters := map k | k in a.writeWaiters && k != key :: a.writeWaiters[k]);
    var told := if key in a.writeWaiters then [Reply(a.writeWaiters[key], Done)] else [];
    if TerminalFrame(item.frame) then
      var retired := Retire(b, key.0, Disconnected);
      Turn(retired.a, told + retired.replies, None)
    else Turn(b, told, None)
  }

  /** The state the loop goes on with: a failure starts over when it can, and ends otherwise. */
  function Next(a: State, e: Event): Option<State>
    requires a.core.sched.Shaped()
  {
    var turn := Handle(a, e);
    if turn.failure.None? then Some(turn.a)
    else if turn.a.restartable then Some(FailStreams(turn.a).(awaitingRestart := true))
    else None
  }

  function Start(state: Session.State, restartable: bool): State {
    State(Core(state, map[], 1, Sched.New(MAX_SCHEDULED_BYTES)), map[], map[], None, restartable, false, 0, [], 0)
  }
}
