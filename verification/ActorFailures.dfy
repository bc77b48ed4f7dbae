/** Runs in which the actor, following its own rules, fails on a frame its validator accepts, or
    drops bytes it never gives back. */
module ActorFailures {
  import opened Results
  import opened Wire
  import Session
  import Sched = Scheduler
  import SchedulerFairness
  import SchedulerRuns
  import opened Actor
  import opened ActorRuns
  import opened ActorTheorems

  const WINDOW: u32 := 10

  /** A device's session right after the HELLOs, with room for the frames below. */
  ghost predicate Ready(s: Session.State) {
    && Renewed(s) && s.config.role == Session.Device
    && (forall id: u32 :: id != 0 ==> Session.Expected(s.inbound, id) == 0)
    && s.config.limits.maxPayload > WINDOW && s.config.limits.maxWindow >= WINDOW && s.conn.receiveCredit >= WINDOW
  }

  /** Two HELLOs make one. */
  lemma ReadySession(limits: DecodeLimits) returns (s: Session.State)
    requires limits.maxPayload > WINDOW && limits.maxWindow >= WINDOW
    ensures Ready(s)
    ensures var hello, context := NewHeader(Hello, 0, 0), Session.FrameContext(Some(WINDOW), None);
      var sent := Session.New(Session.Config(Session.Device, false, limits)).Process(Session.Outbound, hello, context);
      sent.Ok? && sent.value.Process(Session.Inbound, hello, context) == Ok(s)
  {
    var hello, context := NewHeader(Hello, 0, 0), Session.FrameContext(Some(WINDOW), None);
    var sent := Session.New(Session.Config(Session.Device, false, limits)).Process(Session.Outbound, hello, context);
    s := sent.value.Process(Session.Inbound, hello, context).value;
  }

  // ---------------------------------------------------------------- building runs

  lemma Begin(s: Session.State) returns (states: seq<State>, events: seq<Event>)
    requires Renewed(s)
    ensures IsRun(states, events) && states[|events|] == Start(s, false)
  {
    states, events := [Start(s, false)], [];
    assert Renewed(s) && states[0] == Start(s, false);
  }

  lemma Extend(states: seq<State>, events: seq<Event>, e: Event, b: State) returns (more: seq<State>, then_: seq<Event>)
    requires IsRun(states, events) && Step(states[|events|], e, b)
    ensures IsRun(more, then_) && more[|then_|] == b
  {
    more, then_ := states + [b], events + [e];
    forall j, k | 0 <= j < |then_| && k == j + 1
      ensures Step(more[j], then_[j], more[k])
    {
      ExtendedStep(states, events, e, b, more, then_, j, k);
    }
    assert more[0] == states[0];
  }

  lemma ExtendedStep(states: seq<State>, events: seq<Event>, e: Event, b: State, more: seq<State>, then_: seq<Event>,
                     j: nat, k: nat)
    requires IsRun(states, events) && Step(states[|events|], e, b) && j < |then_| && k == j + 1
    requires more == states + [b] && then_ == events + [e]
    ensures Step(more[j], then_[j], more[k])
  {
    if j < |events| {
      OldStep(states, events, j, k);
      assert more[j] == states[j] && then_[j] == events[j] && more[k] == states[k];
    } else {
      assert more[j] == states[|events|] && then_[j] == e && more[k] == b;
    }
  }

  lemma OldStep(states: seq<State>, events: seq<Event>, j: nat, k: nat)
    requires IsRun(states, events) && j < |events| && k == j + 1
    ensures Step(states[j], events[j], states[k])
  {
  }

  /** An event handled without failure. */
  lemma Advance(states: seq<State>, events: seq<Event>, e: Event, b: State)
    returns (more: seq<State>, then_: seq<Event>)
    requires IsRun(states, events) && EventOk(e) && states[|events|].core.sched.Shaped()
    requires Handle(states[|events|], e).failure.None? && Handle(states[|events|], e).a == b
    ensures IsRun(more, then_) && more[|then_|] == b
  {
    more, then_ := Extend(states, events, e, b);
  }

  /** A header without flags or credit. */
  ghost predicate Plain(h: Header, command: Command, id: u32, sequence: u32, n: nat) {
    && h.command == command && h.streamId == id && h.sequence == sequence && h.payloadLength == n
    && h.major == PROTOCOL_MAJOR && h.flags == 0 && h.creditDelta == 0 && h.reserved == 0
  }

  /** A frame from the peer with `n` bytes of payload. */
  ghost predicate Sent(f: Frame, command: Command, id: u32, sequence: u32, n: nat) {
    Plain(f.header, command, id, sequence, n) && |f.payload| == n
  }

  lemma MakeFrame(command: Command, id: u32, sequence: u32, n: nat) returns (f: Frame)
    requires n <= WINDOW + 1
    ensures Sent(f, command, id, sequence, n)
  {
    f := Frame(NewHeader(command, id, sequence).(payloadLength := n), seq(n, _ => 0));
  }

  const PLAIN := Reading(None, true, true, [], None, false)

  /** A plain stream frame within the limits is taken once its number and its effect are right. */
  lemma Processed(dir: Session.Direction, s: Session.State, h: Header, context: Session.FrameContext,
                  command: Command, id: u32, sequence: u32, n: nat)
    requires Plain(h, command, id, sequence, n) && id != 0 && command.AllowsNonzeroStream() && command != Credit
    requires n <= s.config.limits.maxPayload && s.config.ValidateContext(h, context).Pass?
    requires s.conn.phase != Session.Closed
    requires Session.Expected(s.Sequences(dir), id) == sequence < U32_MAX && s.Apply(dir, h, context).Ok?
    ensures s.Process(dir, h, context) == Ok(s.Apply(dir, h, context).value.AdvanceSequence(dir, h))
  {
    assert h.Validate(s.config.limits).Pass?;
  }

  /** Our own frame is numbered, taken and queued. */
  lemma Queued(core: Core, command: Command, id: u32, payload: seq<byte>, context: Session.FrameContext,
               s: Session.State,
               h: Header, items: seq<Sched.Item>) returns (item: Sched.Item)
    requires Queue(core.sched, id, items) && |items| < 10 && |payload| == 0 && id != 0
    requires Sched.ForCommand(command) == Sched.Control
    requires core.NextSequence(id) < U32_MAX && Plain(h, command, id, core.NextSequence(id), 0)
    requires h.minor == PROTOCOL_MINOR
    requires core.state.Process(Session.Outbound, h, context) == Ok(s)
    ensures item.frame == Frame(h, payload)
    ensures var r := core.QueueFrame(command, id, payload, false, Sched.Control, context);
      && r.Ok? && r.value.state == s && r.value.sequences == core.sequences[id := core.NextSequence(id) + 1]
      && Queue(r.value.sched, id, items + [item])
  {
    item := Sched.Item(Sched.Control, Frame(h, payload));
    OneMoreQueued(core.sched, id, items, item);
    assert h == NewHeader(command, id, 0).(sequence := core.NextSequence(id), payloadLength := |payload|);
  }

  /** The peer has opened stream `id` and been accepted with the window; nothing has been written. */
  ghost predicate Serving(a: State, s: Session.State, id: u32) {
    && Ready(s) && id % 2 == 1 && !a.awaitingRestart && a.generation == 0 && a.dropped == 0 && !a.restartable
    && a.streams.Keys == {id} && a.streams[id] == NewEntry(Sched.Bulk, WINDOW) && a.writeWaiters.Keys == {}
    && a.core.state.config == s.config && a.core.state.conn == s.conn
    && a.core.state.Stream(id) == Some(Session.OpeningStream(false).Accept(Session.Outbound, WINDOW))
    && Session.Expected(a.core.state.inbound, id) == 1 && Session.Expected(a.core.state.outbound, id) == 1
    && a.core.NextSequence(id) == 1
    && OneQueued(a.core.sched, id)
  }

  ghost predicate OneQueued(sched: Sched.State, id: u32) {
    exists item :: Queue(sched, id, [item]) && item.frame.header.command == Command.Accept
  }

  /** These frames of one stream wait, all short, and no others. */
  ghost predicate Queue(sched: Sched.State, id: u32, items: seq<Sched.Item>) {
    && Sched.Valid(sched) && sched.maxQueuedBytes == MAX_SCHEDULED_BYTES && sched.queuedBytes == 40 * |items|
    && (forall other: u32 :: Sched.Pending(sched, other) == if other == id then items else [])
    && forall k :: 0 <= k < |items| ==> items[k].StreamId() == id && items[k].Cost() == 40
  }

  lemma NothingQueued(id: u32)
    ensures Queue(Sched.New(MAX_SCHEDULED_BYTES), id, [])
  {
    Sched.NewValid(MAX_SCHEDULED_BYTES);
  }

  lemma OneMoreQueued(sched: Sched.State, id: u32, items: seq<Sched.Item>, item: Sched.Item)
    requires Queue(sched, id, items) && |items| < 10 && item.StreamId() == id && |item.frame.payload| == 0
    ensures sched.Enqueue(item).Ok? && Queue(sched.Enqueue(item).value, id, items + [item])
  {
    Sched.EnqueueSpec(sched, item);
    var t := sched.Enqueue(item).value;
    forall other: u32
      ensures Sched.Pending(t, other) == if other == id then items + [item] else []
    {
      assert Sched.Pending(t, other) == Sched.Pending(sched, other) + Sched.Tail(item, other);
    }
  }

  lemma OneLessQueued(sched: Sched.State, id: u32, items: seq<Sched.Item>)
    requires Queue(sched, id, items) && 0 < |items| < 10
    ensures var (t, out) := sched.Dequeue(); out == Some(items[0]) && Queue(t, id, items[1..])
  {
    var (t, out) := sched.Dequeue();
    Sched.DequeueSpec(sched);
    SchedulerFairness.LittleQueuedLeaves(sched);
    SchedulerRuns.DequeueBytes(sched);
    var mine := out.value.StreamId();
    assert Sched.Pending(sched, mine) == Sched.Tail(out.value, mine) + Sched.Pending(t, mine);
    forall other: u32
      ensures Sched.Pending(t, other) == if other == id then items[1..] else []
    {
      assert Sched.Pending(sched, other) == Sched.Tail(out.value, other) + Sched.Pending(t, other);
    }
  }

  // ---------------------------------------------------------------- a stream is accepted

  lemma PeerOpens(s: Session.State, h: Header, id: u32)
    requires Ready(s) && id % 2 == 1 && Plain(h, Command.Open, id, 0, 0)
    ensures var r := s.Process(Session.Inbound, h, Session.NoContext);
      && r.Ok? && r.value.config == s.config && r.value.conn == s.conn && r.value.outbound == s.outbound
      && r.value.Stream(id) == Some(Session.OpeningStream(false)) && Session.Expected(r.value.inbound, id) == 1
  {
    assert Session.Expected(s.inbound, id) == 0;
    Processed(Session.Inbound, s, h, Session.NoContext, Command.Open, id, 0, 0);
  }

  lemma WeAccept(s: Session.State, h: Header, id: u32, context: Session.FrameContext)
    requires Plain(h, Command.Accept, id, 0, 0) && id != 0 && context == Session.FrameContext(None, Some(WINDOW))
    requires s.Stream(id) == Some(Session.OpeningStream(false)) && Session.Expected(s.outbound, id) == 0
    requires s.conn.phase == Session.Online && s.config.limits.maxWindow >= WINDOW
    ensures var r := s.Process(Session.Outbound, h, context);
      && r.Ok? && r.value.config == s.config && r.value.conn == s.conn && r.value.inbound == s.inbound
      && r.value.Stream(id) == Some(Session.OpeningStream(false).Accept(Session.Outbound, WINDOW))
      && Session.Expected(r.value.outbound, id) == 1
  {
    Processed(Session.Outbound, s, h, context, Command.Accept, id, 0, 0);
  }

  /** The peer has opened stream `id`. */
  ghost predicate Asked(a: State, s: Session.State, id: u32) {
    && Ready(s) && id % 2 == 1 && !a.awaitingRestart && a.generation == 0 && a.dropped == 0 && !a.restartable
    && a.streams.Keys == {id} && a.streams[id] == NewEntry(Sched.Bulk, 0) && a.writeWaiters.Keys == {}
    && a.core.state.config == s.config && a.core.state.conn == s.conn && a.core.state.outbound == s.outbound
    && a.core.state.Stream(id) == Some(Session.OpeningStream(false))
    && Session.Expected(a.core.state.inbound, id) == 1 && a.core.NextSequence(id) == 0
    && Queue(a.core.sched, id, [])
  }

  lemma Ask(s: Session.State, f: Frame, id: u32)
    requires Ready(s) && id % 2 == 1 && Sent(f, Command.Open, id, 0, 0)
    ensures Start(s, false).core.sched.Shaped()
    ensures var t := Handle(Start(s, false), Inbound(f, PLAIN)); t.failure.None? && Asked(t.a, s, id)
  {
    NothingQueued(id);
    PeerOpens(s, f.header, id);
  }

  lemma Accept(a: State, s: Session.State, id: u32, none: seq<byte>)
    requires Asked(a, s, id) && |none| == 0
    ensures var t := Handle(a, Command_(0, 0, Call.Accept(id, none, WINDOW, Sched.Bulk)));
      t.failure.None? && Serving(t.a, s, id)
  {
    var context := Session.FrameContext(None, Some(WINDOW));
    var h := NewHeader(Command.Accept, id, 0);
    assert Session.Expected(s.outbound, id) == 0;
    WeAccept(a.core.state, h, id, context);
    var after := a.core.state.Process(Session.Outbound, h, context).value;
    var item := Queued(a.core, Command.Accept, id, none, context, after, h, []);
    assert [] + [item] == [item];
    var r := a.core.QueueFrame(Command.Accept, id, none, false, Sched.Control, context);
    assert Queue(r.value.sched, id, [item]);
  }

  /** Stream `id` is opened by the peer and accepted. */
  lemma Serve(s: Session.State, id: u32) returns (states: seq<State>, events: seq<Event>)
    requires Ready(s) && id % 2 == 1
    ensures IsRun(states, events) && Serving(states[|events|], s, id)
  {
    states, events := Begin(s);
    var f := MakeFrame(Command.Open, id, 0, 0);
    Ask(s, f, id);
    var b := Handle(Start(s, false), Inbound(f, PLAIN)).a;
    states, events := Advance(states, events, Inbound(f, PLAIN), b);
    Accept(b, s, id, f.payload);
    var call := Call.Accept(id, f.payload, WINDOW, Sched.Bulk);
    states, events := Advance(states, events, Command_(0, 0, call), Handle(b, Command_(0, 0, call)).a);
  }

  // ---------------------------------------------------------------- a late RESET

  lemma PeerResets(s: Session.State, h: Header, id: u32, sequence: u32, n: nat)
    requires Plain(h, Command.Reset, id, sequence, n) && id != 0 && n <= s.config.limits.maxPayload
    requires s.Stream(id).Some? && (s.Stream(id).value.phase == Session.Accepted || s.Stream(id).value.phase.Terminal())
    requires Session.Expected(s.inbound, id) == sequence < U32_MAX && s.conn.phase == Session.Online
    ensures var r := s.Process(Session.Inbound, h, Session.NoContext);
      && r.Ok? && r.value.config == s.config && r.value.conn == s.conn
      && r.value.Stream(id).Some? && r.value.Stream(id).value.phase.Terminal()
      && Session.Expected(r.value.inbound, id) == sequence + 1
  {
    Processed(Session.Inbound, s, h, Session.NoContext, Command.Reset, id, sequence, n);
  }

  /** The stream was reset by the peer and forgotten. */
  ghost predicate Forgotten(a: State, s: Session.State, id: u32) {
    && Ready(s) && id != 0 && !a.awaitingRestart && id !in a.streams && a.core.sched.Shaped()
    && a.core.state.config == s.config && a.core.state.conn == s.conn
    && a.core.state.Stream(id).Some? && a.core.state.Stream(id).value.phase.Terminal()
    && Session.Expected(a.core.state.inbound, id) == 2
  }

  lemma ResetRead(a: State, s: Session.State, id: u32, f: Frame)
    requires Serving(a, s, id) && Sent(f, Command.Reset, id, 1, 0)
    ensures var waiting := Handle(a, Command_(0, 1, Call.Receive(id)));
      && waiting.failure.None? && waiting.a.core.sched.Shaped()
      && var t := Handle(waiting.a, Inbound(f, PLAIN));
      t.failure.None? && Forgotten(t.a, s, id)
  {
    PeerResets(a.core.state, f.header, id, 1, 0);
    var waiting := Handle(a, Command_(0, 1, Call.Receive(id))).a;
    assert waiting.streams[id].receiver.Some?;
  }

  /** A receiver waits, the peer resets the stream, and resets it again: the validator takes the
      second RESET, the actor fails on it. */
  lemma LateResetFails(s: Session.State, id: u32) returns (states: seq<State>, events: seq<Event>, f: Frame)
    requires Ready(s) && id % 2 == 1
    ensures Arrives(states, events, |events|, f) && f.header.streamId == id && states[|events|].core.sched.Shaped()
    ensures HandleInbound(states[|events|], f, PLAIN).failure == Some(UnknownStream(id))
  {
    states, events := Serve(s, id);
    var a := states[|events|];
    var first := MakeFrame(Command.Reset, id, 1, 0);
    ResetRead(a, s, id, first);
    var b := Handle(a, Command_(0, 1, Call.Receive(id))).a;
    states, events := Advance(states, events, Command_(0, 1, Call.Receive(id)), b);
    var c := Handle(b, Inbound(first, PLAIN)).a;
    states, events := Advance(states, events, Inbound(first, PLAIN), c);
    f := MakeFrame(Command.Reset, id, 2, 0);
    PeerResets(c.core.state, f.header, id, 2, 0);
    UnknownStreamIffLateReset(states, events, |events|, f, PLAIN);
  }

  // ---------------------------------------------------------------- a RESET with a long reason

  /** A RESET whose reason is longer than the window is taken by the validator and does not fit the
      inbox. */
  lemma LongReasonFails(s: Session.State, id: u32) returns (states: seq<State>, events: seq<Event>, f: Frame)
    requires Ready(s) && id % 2 == 1
    ensures Arrives(states, events, |events|, f) && f.header.streamId == id && states[|events|].core.sched.Shaped()
    ensures HandleInbound(states[|events|], f, PLAIN).failure == Some(QueueFull)
  {
    states, events := Serve(s, id);
    var a := states[|events|];
    f := MakeFrame(Command.Reset, id, 1, WINDOW + 1);
    PeerResets(a.core.state, f.header, id, 1, WINDOW + 1);
    InboxFullIffTerminalPayload(states, events, |events|, f, PLAIN);
  }

  // ---------------------------------------------------------------- dropped bytes

  lemma PeerSends(s: Session.State, h: Header, id: u32, n: nat)
    requires Plain(h, Data, id, 1, n) && id != 0 && n <= s.config.limits.maxPayload
    requires s.Stream(id).Some? && s.Stream(id).value.phase == Session.Accepted && !s.Stream(id).value.peerEnd
    requires n <= s.Stream(id).value.receiveCredit && n <= s.conn.receiveCredit
    requires Session.Expected(s.inbound, id) == 1 && s.conn.phase == Session.Online
    ensures var r := s.Process(Session.Inbound, h, Session.NoContext);
      && r.Ok? && r.value.config == s.config && r.value.conn.phase == Session.Online && r.value.outbound == s.outbound
      && r.value.Stream(id).Some? && r.value.Stream(id).value.phase == Session.Accepted
  {
    Processed(Session.Inbound, s, h, Session.NoContext, Data, id, 1, n);
  }

  lemma WeReset(s: Session.State, h: Header, id: u32)
    requires Plain(h, Command.Reset, id, 1, 0) && id != 0
    requires s.Stream(id).Some? && s.Stream(id).value.phase == Session.Accepted
    requires Session.Expected(s.outbound, id) == 1 && s.conn.phase == Session.Online
    ensures s.Process(Session.Outbound, h, Session.NoContext).Ok?
  {
    Processed(Session.Outbound, s, h, Session.NoContext, Command.Reset, id, 1, 0);
  }

  /** DATA lies unread; behind ACCEPT a RESET may wait to be written. */
  ghost predicate Unread(a: State, id: u32, n: nat, items: seq<Sched.Item>) {
    && id != 0 && !a.awaitingRestart && a.generation == 0 && a.dropped == 0 && !a.restartable
    && id in a.streams && DataBytes(a.streams[id].inbox) == n && Queue(a.core.sched, id, items)
  }

  lemma DataStored(a: State, s: Session.State, id: u32, f: Frame, items: seq<Sched.Item>)
    requires Serving(a, s, id) && Sent(f, Data, id, 1, WINDOW) && Queue(a.core.sched, id, items)
    ensures var t := Handle(a, Inbound(f, PLAIN));
      && t.failure.None? && Unread(t.a, id, WINDOW, items) && t.a.core.NextSequence(id) == 1
      && t.a.core.state.Stream(id).Some? && t.a.core.state.Stream(id).value.phase == Session.Accepted
      && t.a.core.state.conn.phase == Session.Online && Session.Expected(t.a.core.state.outbound, id) == 1
  {
    PeerSends(a.core.state, f.header, id, WINDOW);
    var one := [f];
    assert one[1..] == [];
    assert DataBytes(one) == WINDOW + DataBytes(one[1..]);
    assert a.streams[id].inbox + [f] == one;
  }

  lemma ResetQueued(a: State, id: u32, none: seq<byte>, items: seq<Sched.Item>) returns (item: Sched.Item)
    requires Unread(a, id, WINDOW, items) && |items| < 5 && |none| == 0 && a.core.NextSequence(id) == 1
    requires a.core.state.Stream(id).Some? && a.core.state.Stream(id).value.phase == Session.Accepted
    requires a.core.state.conn.phase == Session.Online && Session.Expected(a.core.state.outbound, id) == 1
    ensures var t := Handle(a, Command_(0, 1, Call.Reset(id, none)));
      t.failure.None? && Unread(t.a, id, WINDOW, items + [item]) && TerminalFrame(item.frame)
  {
    var h := NewHeader(Command.Reset, id, 1);
    WeReset(a.core.state, h, id);
    var after := a.core.state.Process(Session.Outbound, h, Session.NoContext).value;
    item := Queued(a.core, Command.Reset, id, none, Session.NoContext, after, h, items);
  }

  lemma WriteFirst(a: State, id: u32, items: seq<Sched.Item>)
    requires Unread(a, id, WINDOW, items) && 0 < |items| < 10
    ensures var t := Handle(a, Dequeue(true));
      && t.failure.None?
      && (if TerminalFrame(items[0].frame) then t.a.dropped == WINDOW && !t.a.awaitingRestart
        else Unread(t.a, id, WINDOW, items[1..]))
  {
    OneLessQueued(a.core.sched, id, items);
  }

  lemma WriteBoth(states: seq<State>, events: seq<Event>, id: u32, accepted: Sched.Item, reset: Sched.Item)
    returns (more: seq<State>, then_: seq<Event>)
    requires IsRun(states, events) && Unread(states[|events|], id, WINDOW, [accepted, reset])
    requires accepted.frame.header.command == Command.Accept && TerminalFrame(reset.frame)
    ensures IsRun(more, then_) && !more[|then_|].awaitingRestart && more[|then_|].dropped == WINDOW
  {
    var c, items := states[|events|], [accepted, reset];
    WriteFirst(c, id, items);
    var d := Handle(c, Dequeue(true)).a;
    more, then_ := Advance(states, events, Dequeue(true), d);
    assert items[1..] == [reset];
    WriteFirst(d, id, [reset]);
    more, then_ := Advance(more, then_, Dequeue(true), Handle(d, Dequeue(true)).a);
  }

  /** Unread DATA, with what our next frame on the stream depends on. */
  ghost predicate Holding(a: State, id: u32, items: seq<Sched.Item>) {
    && Unread(a, id, WINDOW, items) && a.core.NextSequence(id) == 1
    && a.core.state.Stream(id).Some? && a.core.state.Stream(id).value.phase == Session.Accepted
    && a.core.state.conn.phase == Session.Online && Session.Expected(a.core.state.outbound, id) == 1
  }

  lemma StoreStep(states: seq<State>, events: seq<Event>, s: Session.State, id: u32, accepted: Sched.Item)
    returns (more: seq<State>, then_: seq<Event>)
    requires IsRun(states, events) && Serving(states[|events|], s, id)
    requires Queue(states[|events|].core.sched, id, [accepted])
    ensures IsRun(more, then_) && Holding(more[|then_|], id, [accepted])
  {
    var a := states[|events|];
    var f := MakeFrame(Data, id, 1, WINDOW);
    DataStored(a, s, id, f, [accepted]);
    more, then_ := Advance(states, events, Inbound(f, PLAIN), Handle(a, Inbound(f, PLAIN)).a);
  }

  lemma ResetStep(states: seq<State>, events: seq<Event>, id: u32, none: seq<byte>, accepted: Sched.Item)
    returns (more: seq<State>, then_: seq<Event>, reset: Sched.Item)
    requires IsRun(states, events) && Holding(states[|events|], id, [accepted]) && |none| == 0
    ensures IsRun(more, then_) && Unread(more[|then_|], id, WINDOW, [accepted, reset]) && TerminalFrame(reset.frame)
  {
    var b, e := states[|events|], Command_(0, 1, Call.Reset(id, none));
    reset := ResetQueued(b, id, none, [accepted]);
    assert [accepted] + [reset] == [accepted, reset];
    more, then_ := Advance(states, events, e, Handle(b, e).a);
  }

  /** Unread DATA on a stream we reset is dropped once the RESET is written, and its connection
      credit is never given back. */
  lemma ResetDropsUnread(s: Session.State, id: u32) returns (states: seq<State>, events: seq<Event>)
    requires Ready(s) && id % 2 == 1
    ensures IsRun(states, events) && !states[|events|].awaitingRestart && states[|events|].dropped == WINDOW
  {
    states, events := Serve(s, id);
    var sched := states[|events|].core.sched;
    var accepted :| Queue(sched, id, [accepted]) && accepted.frame.header.command == Command.Accept;
    states, events := StoreStep(states, events, s, id, accepted);
    var reset: Sched.Item;
    states, events, reset := ResetStep(states, events, id, [], accepted);
    states, events := WriteBoth(states, events, id, accepted, reset);
  }
}
