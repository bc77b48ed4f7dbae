/** Which frame each event sends, and what the answers that say so mean. */
module ActorFrames {
  import opened Results
  import opened Wire
  import Session
  import Sched = Scheduler
  import opened Actor
  import opened ActorOutbound
  import opened ActorRuns
  import opened ActorReceive
  import opened ActorTheorems
  import opened ActorInbox
  import opened ActorDelivery

  // ---------------------------------------------------------------- one frame is queued

  /** The frame in question, whatever else its header says. */
  predicate Carries(item: Sched.Item, command: Command, id: u32, payload: seq<byte>, credit: u32) {
    && item.frame.header.command == command && item.StreamId() == id && item.frame.payload == payload
    && item.frame.header.creditDelta == credit && !item.frame.header.EndStream()
  }

  ghost predicate Appends(s: Sched.State, t: Sched.State, item: Sched.Item, id: u32) {
    && Sched.StreamOk(s, id) && Sched.StreamOk(t, id)
    && Sched.Pending(t, id) == Sched.Pending(s, id) + Sched.Tail(item, id)
  }

  /** One frame more is queued, last on its stream, with the stream's next number. */
  ghost predicate Sends(a: State, b: State, command: Command, id: u32, payload: seq<byte>, credit: u32) {
    exists item ::
      && Carries(item, command, id, payload, credit)
      && item.frame.header.sequence == a.core.NextSequence(id)
      && forall k: u32 :: Appends(a.core.sched, b.core.sched, item, k)
  }

  lemma EmitSends(core: Core, h: Header, payload: seq<byte>, class_: Sched.TrafficClass, context: Session.FrameContext,
                  a: State, b: State)
    requires Sched.Valid(core.sched) && core.Emit(h, payload, class_, context).Ok? && !h.EndStream()
    requires core.sched == a.core.sched && b.core.sched == core.Emit(h, payload, class_, context).value.sched
    requires core.NextSequence(h.streamId) == a.core.NextSequence(h.streamId)
    ensures Sends(a, b, h.command, h.streamId, payload, h.creditDelta)
  {
    var core' := core.Emit(h, payload, class_, context).value;
    var item := EmitSpec(core, h, payload, class_, context, core');
    assert Carries(item, h.command, h.streamId, payload, h.creditDelta);
    forall k: u32
      ensures Appends(a.core.sched, b.core.sched, item, k)
    {
      assert Sched.StreamOk(core.sched, k) && Sched.StreamOk(core'.sched, k);
    }
  }

  lemma QueueSends(core: Core, command: Command, id: u32, payload: seq<byte>, class_: Sched.TrafficClass,
                   context: Session.FrameContext, a: State, b: State)
    requires Sched.Valid(core.sched) && core.QueueFrame(command, id, payload, false, class_, context).Ok?
    requires core.sched == a.core.sched && core.NextSequence(id) == a.core.NextSequence(id)
    requires b.core.sched == core.QueueFrame(command, id, payload, false, class_, context).value.sched
    ensures Sends(a, b, command, id, payload, 0)
  {
    EmitSends(core, NewHeader(command, id, 0).(flags := 0), payload,
              if Sched.ForCommand(command) == Sched.Control then Sched.Control else class_, context, a, b);
  }

  // ---------------------------------------------------------------- commands

  /** The command a caller of the actor has sent to the peer, and on which stream. */
  function Means(a: State, call: Call): Option<(Command, u32, seq<byte>)> {
    match call
    case Open(payload, _, _) =>
      var granted := a.core.state.AllocateStreamId();
      if granted.Ok? then Some((Command.Open, granted.value.1, payload)) else None
    case Accept(id, payload, _, _) => if id in a.streams then Some((Command.Accept, id, payload)) else None
    case Reject(id, payload) => if id in a.streams then Some((Command.Reject, id, payload)) else None
    case Close(id) => if id in a.streams then Some((Command.Close, id, [])) else None
    case Reset(id, payload) => if id in a.streams then Some((Command.Reset, id, payload)) else None
    case GoAway => if a.pendingGoAway.None? then Some((Command.GoAway, 0, [])) else None
    case Ping(payload) => Some((Command.Ping, 0, payload))
    case _ => None
  }

  lemma OpenSends(a: State, token: nat, payload: seq<byte>, window: u32, class_: Sched.TrafficClass)
    requires Inv(a) && OpenStream(a, token, payload, window, class_).failure.None?
    ensures a.core.state.AllocateStreamId().Ok?
    ensures Sends(a, OpenStream(a, token, payload, window, class_).a, Command.Open,
                  a.core.state.AllocateStreamId().value.1, payload, 0)
  {
    var (s, id) := a.core.state.AllocateStreamId().value;
    QueueSends(a.core.(state := s), Command.Open, id, payload, class_, Session.NoContext, a,
               OpenStream(a, token, payload, window, class_).a);
  }

  lemma StreamCommandSends(a: State, token: nat, call: Call)
    requires Inv(a) && (call.Accept? || call.Reject? || call.Close? || call.Reset?) && call.id in a.streams
    requires HandleCommand(a, token, call).failure.None?
    ensures var m := Means(a, call).value; Sends(a, HandleCommand(a, token, call).a, m.0, m.1, m.2, 0)
  {
    var b := HandleCommand(a, token, call).a;
    match call
    case Accept(id, payload, window, _) =>
      QueueSends(a.core, Command.Accept, id, payload, Sched.Control, Session.FrameContext(None, Some(window)), a, b);
    case Reject(id, payload) =>
      QueueSends(a.core, Command.Reject, id, payload, Sched.Control, Session.NoContext, a, b);
    case Close(id) => QueueSends(a.core, Command.Close, id, [], Sched.Control, Session.NoContext, a, b);
    case Reset(id, payload) =>
      QueueSends(a.core, Command.Reset, id, payload, Sched.Control, Session.NoContext, a, b);
  }

  lemma CommandSends(a: State, token: nat, call: Call)
    requires Inv(a) && HandleCommand(a, token, call).failure.None? && Means(a, call).Some?
    ensures var m := Means(a, call).value; Sends(a, HandleCommand(a, token, call).a, m.0, m.1, m.2, 0)
  {
    var b := HandleCommand(a, token, call).a;
    match call
    case Open(payload, window, class_) => OpenSends(a, token, payload, window, class_);
    case GoAway => QueueSends(a.core, Command.GoAway, 0, [], Sched.Control, Session.NoContext, a, b);
    case Ping(payload) => QueueSends(a.core, Command.Ping, 0, payload, Sched.Control, Session.NoContext, a, b);
    case _ => StreamCommandSends(a, token, call);
  }

  /** In every run, a command that does not fail sends the frame it stands for, once, last on its stream:
      OPEN on the id that is allocated, ACCEPT, REJECT, CLOSE and RESET on a known stream, GOAWAY and
      PING on the connection, each with its payload. */
  lemma CommandsAreSent(states: seq<State>, events: seq<Event>, n: nat, token: nat, call: Call)
    requires IsRun(states, events) && n < |states| && states[n].core.sched.Shaped()
    requires HandleCommand(states[n], token, call).failure.None? && Means(states[n], call).Some?
    ensures var m := Means(states[n], call).value;
      Sends(states[n], HandleCommand(states[n], token, call).a, m.0, m.1, m.2, 0)
  {
    RunInv(states, events, n);
    CommandSends(states[n], token, call);
  }

  // ---------------------------------------------------------------- inbound frames

  lemma StateReplaced(a: State, frame: Frame, context: Session.FrameContext, s: Session.State)
    requires Inv(a) && a.core.state.Process(Session.Inbound, frame.header, context) == Ok(s)
    ensures Inv(a.(core := a.core.(state := s)))
  {
    ProcessKeepsSequences(a.core.state, Session.Inbound, frame.header, context);
    StateKeeps(a.core, s);
    Reassemble(a, a.core.(state := s), a.streams);
  }

  /** What the actor makes of a PING, an ACCEPT, an OPEN or a GOAWAY that its validator has taken. */
  ghost predicate Responds(a: State, t: Turn, frame: Frame, reading: Reading) {
    var id := frame.header.streamId;
    match frame.header.command
    case Ping => t.failure.None? ==> t.replies == [] && Sends(a, t.a, Pong, 0, frame.payload, 0)
    case Accept =>
      t.failure.None? ==>
        && id in a.streams && Sends(a, t.a, Credit, id, [], a.streams[id].receiveWindow)
        && t.replies == (if a.streams[id].opener.Some? then [Reply(a.streams[id].opener.value, Opened(id))] else [])
    case Open =>
      && (t.failure.None? <==> reading.serviceOk && reading.listening)
      && (t.failure.None? ==> t.replies == [] && t.a.streams == a.streams[id := NewEntry(Sched.Bulk, 0)])
    case GoAway =>
      if a.pendingGoAway.Some? then
        t.replies == [Reply(a.pendingGoAway.value, Done)] && t.failure == Some(Disconnected)
      else
        && t.replies == [] && (!a.restartable ==> t.failure == Some(Disconnected))
        && (t.failure.None? ==> t.a.awaitingRestart && t.a.streams == map[])
    case _ => true
  }

  lemma PingResponds(a: State, b: State, frame: Frame, reading: Reading)
    requires Inv(b) && b == a.(core := a.core.(state := b.core.state)) && frame.header.command == Command.Ping
    ensures Responds(a, Dispatch(b, frame, reading, false), frame, reading)
  {
    var t := Dispatch(b, frame, reading, false);
    if t.failure.None? {
      QueueSends(b.core, Pong, 0, frame.payload, Sched.Control, Session.NoContext, a, t.a);
    }
  }

  lemma AcceptResponds(a: State, b: State, frame: Frame, reading: Reading)
    requires Inv(b) && b == a.(core := a.core.(state := b.core.state)) && frame.header.command == Command.Accept
    ensures Responds(a, Dispatch(b, frame, reading, false), frame, reading)
  {
    var t, id := Dispatch(b, frame, reading, false), frame.header.streamId;
    if t.failure.None? {
      EmitSends(b.core, NewHeader(Credit, id, 0).(creditDelta := a.streams[id].receiveWindow), [], Sched.Control,
                Session.NoContext, a, t.a);
    }
  }

  lemma TakenResponds(a: State, frame: Frame, reading: Reading, context: Session.FrameContext, s: Session.State)
    requires Inv(a) && a.core.state.Process(Session.Inbound, frame.header, context) == Ok(s)
    ensures Responds(a, Dispatch(a.(core := a.core.(state := s)), frame, reading, false), frame, reading)
  {
    var b := a.(core := a.core.(state := s));
    StateReplaced(a, frame, context, s);
    match frame.header.command
    case Ping => PingResponds(a, b, frame, reading);
    case Accept => AcceptResponds(a, b, frame, reading);
    case _ =>
  }

  /** The validator takes the frame. */
  predicate Taken(a: State, frame: Frame, reading: Reading) {
    var accepting := frame.header.command == Command.Accept;
    var context := if accepting then Session.FrameContext(None, reading.acceptWindow) else Session.NoContext;
    (accepting ==> reading.acceptWindow.Some?) && a.core.state.Process(Session.Inbound, frame.header, context).Ok?
  }

  /** In every run, for every such frame that the validator takes within a session: PING is answered by
      PONG with its payload; ACCEPT grants the stream's receive window and tells the opener its id;
      OPEN is entered if its service can be read and somebody listens, and else ends the session; and
      GOAWAY answers whoever said it first, and ends the session unless it can start over. */
  lemma FramesAreAnswered(states: seq<State>, events: seq<Event>, n: nat, frame: Frame, reading: Reading)
    requires IsRun(states, events) && n < |states| && !states[n].awaitingRestart && states[n].core.sched.Shaped()
    requires frame.header.command != Hello && frame.header.command != Data && Taken(states[n], frame, reading)
    ensures Responds(states[n], HandleInbound(states[n], frame, reading), frame, reading)
  {
    RunInv(states, events, n);
    var context := if frame.header.command == Command.Accept then Session.FrameContext(None, reading.acceptWindow)
                   else Session.NoContext;
    var s := states[n].core.state.Process(Session.Inbound, frame.header, context).value;
    TakenResponds(states[n], frame, reading, context, s);
  }
}
