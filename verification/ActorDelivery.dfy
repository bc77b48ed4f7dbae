/** Receiving over whole runs: per stream, what was taken in is what receivers got, then what was
    thrown away with the stream or is still unread; and receivers are answered once, in order. */
module ActorDelivery {
  import opened Results
  import opened Wire
  import Session
  import Sched = Scheduler
  import opened Actor
  import opened ActorOutbound
  import opened ActorRuns
  import opened ActorReceive
  import opened ActorTheorems
  import opened ActorInbox

  // ---------------------------------------------------------------- sessions within a run

  ghost predicate SameMode(a: State, b: State) {
    b.awaitingRestart == a.awaitingRestart && b.restartable == a.restartable
  }

  /** A HELLO that starts the next session. */
  predicate Restarts(a: State, e: Event) {
    e.Inbound? && e.frame.header.command == Hello && e.frame.header.streamId == 0 && a.restartable
  }

  /** Between sessions there are no streams, and there will be a next one. */
  ghost predicate Idle(a: State) { a.awaitingRestart ==> a.restartable && a.streams == map[] }

  lemma CommandMode(a: State, token: nat, call: Call)
    requires a.core.sched.Shaped()
    ensures SameMode(a, HandleCommand(a, token, call).a)
  {
    match call
    case SendData(id, payload, end) =>
      if id in a.streams { SendMode(a, id, payload, end, Waiter(token, ToSend(id, payload, end))); }
    case Receive(id) => if id in a.streams { ReceiveMode(a, id, Waiter(token, ToReceive(id))); }
    case _ =>
  }

  lemma SendMode(a: State, id: u32, payload: seq<byte>, end: bool, w: Waiter)
    requires a.core.sched.Shaped() && id in a.streams
    ensures SameMode(a, SendOrWait(a, id, payload, end, w).a)
  {
  }

  lemma ReceiveMode(a: State, id: u32, w: Waiter)
    requires a.core.sched.Shaped() && id in a.streams
    ensures SameMode(a, ReceiveOrWait(a, id, w).a)
  {
  }

  lemma {:induction false} FlushAllMode(a: State, ids: seq<u32>)
    requires a.core.sched.Shaped()
    ensures SameMode(a, FlushAll(a, ids).a)
    decreases |ids|
  {
    if ids != [] && FlushPending(a, ids[0]).failure.None? { FlushAllMode(FlushPending(a, ids[0]).a, ids[1..]); }
  }

  lemma DispatchMode(a: State, frame: Frame, reading: Reading, late: bool)
    requires a.core.sched.Shaped() && (frame.header.command != Command.GoAway || late)
    ensures SameMode(a, Dispatch(a, frame, reading, late).a)
  {
    if !late {
      match frame.header.command
      case Credit => if frame.header.streamId == 0 { FlushAllMode(a, reading.ids); }
      case Data => DeliverMode(a, frame);
      case Close => DeliverMode(a, frame);
      case Reset => DeliverMode(a, frame);
      case _ =>
    }
  }

  lemma DeliverMode(a: State, frame: Frame)
    requires a.core.sched.Shaped()
    ensures SameMode(a, Deliver(a, frame).a)
  {
  }

  lemma LeavingMode(a: State)
    requires a.core.sched.Shaped()
    ensures var t := PeerLeaves(a); t.failure.None? ==> t.a.awaitingRestart && t.a.restartable && t.a.streams == map[]
  {
  }

  lemma InboundMode(a: State, frame: Frame, reading: Reading)
    requires a.core.sched.Shaped() && !a.awaitingRestart && !Restarts(a, Inbound(frame, reading))
    ensures var t := HandleInbound(a, frame, reading);
      t.failure.None? ==> SameMode(a, t.a) || (t.a.awaitingRestart && t.a.restartable && t.a.streams == map[])
  {
    var h := frame.header;
    var context := if h.command == Command.Accept then Session.FrameContext(None, reading.acceptWindow)
                   else Session.NoContext;
    var processed := a.core.state.Process(Session.Inbound, h, context);
    if processed.Ok? {
      var b := a.(core := a.core.(state := processed.value));
      if h.command == Command.GoAway { LeavingMode(b); } else { DispatchMode(b, frame, reading, Late(a, frame)); }
    }
  }

  lemma DequeueMode(a: State, written: bool)
    requires a.core.sched.Shaped()
    ensures var t := HandleDequeue(a, written); SameMode(a, t.a) && (a.streams == map[] ==> t.a.streams == map[])
  {
  }

  /** A session goes on, or the actor is between sessions, or a HELLO has started the next. */
  lemma StepIdle(a: State, e: Event, b: State)
    requires Step(a, e, b) && Idle(a)
    ensures Idle(b)
    ensures a.awaitingRestart && !b.awaitingRestart ==> Restarts(a, e)
    ensures Restarts(a, e) && !b.awaitingRestart ==> b.streams == map[]
    ensures !b.awaitingRestart ==> Handle(a, e).failure.None? && b == Handle(a, e).a
  {
    match e
    case Command_(_, token, call) => CommandMode(a, token, call);
    case Inbound(frame, reading) =>
      if !Restarts(a, e) && !a.awaitingRestart { InboundMode(a, frame, reading); }
    case Dequeue(written) => DequeueMode(a, written);
  }

  // ---------------------------------------------------------------- one event of a session

  lemma InboundFlows(a: State, frame: Frame, reading: Reading, id: u32)
    requires Inv(a) && Balanced(a) && Tidy(a.streams) && !a.awaitingRestart
    requires !Restarts(a, Inbound(frame, reading))
    ensures var t := HandleInbound(a, frame, reading);
      t.failure.None? && !t.a.awaitingRestart ==> Flows(a, t, Heard(a, Inbound(frame, reading), id), [], id)
  {
    var h := frame.header;
    var context := if h.command == Command.Accept then Session.FrameContext(None, reading.acceptWindow)
                   else Session.NoContext;
    var processed := a.core.state.Process(Session.Inbound, h, context);
    if processed.Ok? { TakenFlows(a, frame, reading, context, processed.value, Late(a, frame), id); }
  }

  lemma WroteFlows(a: State, b: State, out: Sched.Item, id: u32)
    requires Inv(a) && Tidy(a.streams) && b == a.(core := a.core.(sched := b.core.sched))
    ensures Flows(a, Wrote(b, out), [], [], id)
  {
    var t := Wrote(b, out);
    var key := (out.frame.header.streamId, out.frame.header.sequence);
    var c := b.(sent := a.sent + [out], writeWaiters := map k | k in a.writeWaiters && k != key :: a.writeWaiters[k]);
    var told := if key in a.writeWaiters then [Reply(a.writeWaiters[key], Done)] else [];
    if key in a.writeWaiters {
      assert WaiterOk(a.core.sched, key, a.writeWaiters[key]);
      OneReply(told[0], id);
    }
    if TerminalFrame(out.frame) {
      var retired := Retire(c, key.0, Disconnected);
      RetireFlows(c, key.0, Disconnected, id);
      ToldFirst(c, told, retired, t, id);
      Chained(a, c, t, [], [], id);
    } else {
      Undisturbed(a, t, id);
    }
  }

  lemma ToldFirst(a: State, told: seq<Reply>, rest: Turn, t: Turn, id: u32)
    requires Flows(a, rest, [], [], id) && Handed(told, id) == [] && Answered(told, id) == []
    requires t.a == rest.a && t.replies == told + rest.replies
    ensures Flows(a, t, [], [], id)
  {
    HandedConcat(told, rest.replies, id);
    assert Handed(t.replies, id) == Handed(rest.replies, id);
    assert Answered(t.replies, id) == Answered(rest.replies, id);
  }

  lemma DequeueFlows(a: State, written: bool, id: u32)
    requires Inv(a) && Tidy(a.streams)
    ensures var t := HandleDequeue(a, written); t.failure.None? ==> Flows(a, t, [], [], id)
  {
    var t := HandleDequeue(a, written);
    var (sched, out) := a.core.sched.Dequeue();
    var b := a.(core := a.core.(sched := sched));
    if out.None? { Undisturbed(a, t, id); } else if written { WroteFlows(a, b, out.value, id); }
  }

  lemma EventFlows(a: State, e: Event, id: u32)
    requires Inv(a) && Balanced(a) && Tidy(a.streams) && !a.awaitingRestart && !Restarts(a, e)
    requires Handle(a, e).failure.None? && !Handle(a, e).a.awaitingRestart
    ensures Flows(a, Handle(a, e), Heard(a, e, id), Asked(a, e, id), id)
  {
    match e
    case Command_(generation, token, call) =>
      if generation == a.generation { CommandFlows(a, token, call, id); } else { Undisturbed(a, Handle(a, e), id); }
    case Inbound(frame, reading) => InboundFlows(a, frame, reading, id);
    case Dequeue(written) => DequeueFlows(a, written, id);
  }

  // ---------------------------------------------------------------- whole runs

  /** What a run did to one stream since its session began. */
  datatype Record = Record(heard: seq<Frame>, handed: seq<Frame>, lost: seq<Frame>, asked: seq<nat>,
                           answered: seq<nat>)

  const BLANK := Record([], [], [], [], [])

  /** What nobody had read when the turn forgot the stream. */
  ghost function Lost(a: State, t: Turn, heard: seq<Frame>, id: u32): seq<Frame> {
    if id in t.a.streams || |Handed(t.replies, id)| > |Inbox(a, id) + heard| then []
    else (Inbox(a, id) + heard)[|Handed(t.replies, id)|..]
  }

  ghost function Extended(r: Record, a: State, e: Event, t: Turn, id: u32): Record {
    Record(r.heard + Heard(a, e, id), r.handed + Handed(t.replies, id), r.lost + Lost(a, t, Heard(a, e, id), id),
           r.asked + Asked(a, e, id), r.answered + Answered(t.replies, id))
  }

  /** No session is in progress before the event, or none after it, or it starts another. */
  ghost predicate Begins(states: seq<State>, events: seq<Event>, n: nat)
    requires n < |states| == |events| + 1
  {
    n == 0 || states[n].awaitingRestart || Restarts(states[n - 1], events[n - 1])
  }

  ghost function History(states: seq<State>, events: seq<Event>, n: nat, id: u32): Record
    requires IsRun(states, events) && n < |states|
  {
    if Begins(states, events, n) then BLANK
    else
      assert Step(states[n - 1], events[n - 1], states[n]);
      Extended(History(states, events, n - 1, id), states[n - 1], events[n - 1],
               Handle(states[n - 1], events[n - 1]), id)
  }

  ghost predicate Delivered(r: Record, a: State, id: u32) {
    && r.heard == r.handed + r.lost + Inbox(a, id)
    && (r.lost != [] ==> id !in a.streams && id in a.core.state.streams)
    && r.asked == r.answered + Waiting(a, id)
  }

  /** What a turn hands over, loses and leaves is what there was and came. */
  lemma LostSplits(a: State, t: Turn, heard: seq<Frame>, asked: seq<nat>, id: u32)
    requires Flows(a, t, heard, asked, id)
    ensures Inbox(a, id) + heard == Handed(t.replies, id) + Lost(a, t, heard, id) + Inbox(t.a, id)
    ensures id in t.a.streams ==> Lost(a, t, heard, id) == []
    ensures id !in a.streams ==> heard == [] && Handed(t.replies, id) == [] && Lost(a, t, heard, id) == []
  {
    var all, handed := Inbox(a, id) + heard, Handed(t.replies, id);
    if id in t.a.streams { NothingLost(all, handed, Inbox(t.a, id), []); } else { RestLost(all, handed, []); }
  }

  lemma NothingLost(all: seq<Frame>, handed: seq<Frame>, left: seq<Frame>, none: seq<Frame>)
    requires handed + left == all && |none| == 0
    ensures all == handed + none + left
  {
  }

  lemma RestLost(all: seq<Frame>, handed: seq<Frame>, none: seq<Frame>)
    requires handed <= all && |none| == 0
    ensures all == handed + all[|handed|..] + none
  {
  }

  /** The stream was there. */
  lemma FramesHome(given: seq<Frame>, was: seq<Frame>, inbox: seq<Frame>, heard: seq<Frame>, handed: seq<Frame>,
                   lost: seq<Frame>, left: seq<Frame>)
    requires inbox + heard == handed + lost + left && |was| == 0
    ensures (given + was + inbox) + heard == (given + handed) + (was + lost) + left
  {
    assert given + was + inbox + heard == given + (inbox + heard);
    assert given + (handed + lost + left) == (given + handed) + (was + lost) + left;
  }

  /** It was not. */
  lemma FramesGone(given: seq<Frame>, was: seq<Frame>, none: seq<Frame>, left: seq<Frame>)
    requires |none| == 0 && |left| == 0
    ensures (given + was + none) + none == (given + none) + (was + none) + left
  {
  }

  lemma TokensChain(asked: seq<nat>, answered: seq<nat>, waiting: seq<nat>, more: seq<nat>, told: seq<nat>,
                    left: seq<nat>)
    requires asked == answered + waiting && waiting + more == told + left
    ensures asked + more == (answered + told) + left
  {
    assert (answered + waiting) + more == answered + (waiting + more);
    assert answered + (told + left) == (answered + told) + left;
  }

  lemma ExtendDelivered(r: Record, a: State, e: Event, t: Turn, id: u32)
    requires Delivered(r, a, id) && Flows(a, t, Heard(a, e, id), Asked(a, e, id), id)
    requires a.streams.Keys <= a.core.state.streams.Keys
    ensures Delivered(Extended(r, a, e, t, id), t.a, id)
  {
    var heard, handed := Heard(a, e, id), Handed(t.replies, id);
    var lost := Lost(a, t, heard, id);
    LostSplits(a, t, heard, Asked(a, e, id), id);
    if id in a.streams {
      FramesHome(r.handed, r.lost, Inbox(a, id), heard, handed, lost, Inbox(t.a, id));
    } else {
      FramesGone(r.handed, r.lost, heard, Inbox(t.a, id));
    }
    TokensChain(r.asked, r.answered, Waiting(a, id), Asked(a, e, id), Answered(t.replies, id), Waiting(t.a, id));
  }

  /** What the states of a run keep. */
  ghost predicate Sane(a: State) { Sound(a) && Idle(a) && (a.awaitingRestart || Tidy(a.streams)) }

  lemma StepTidy(a: State, e: Event, b: State)
    requires Sane(a) && Step(a, e, b) && !b.awaitingRestart && !Restarts(a, e)
    ensures Tidy(b.streams)
  {
    StepIdle(a, e, b);
    forall id: u32
      ensures TidyAt(b.streams, id)
    {
      EventFlows(a, e, id);
    }
  }

  lemma StepSane(a: State, e: Event, b: State)
    requires Sane(a) && Step(a, e, b)
    ensures Sane(b)
  {
    StepSound(a, e, b);
    StepIdle(a, e, b);
    if !b.awaitingRestart && !Restarts(a, e) { StepTidy(a, e, b); }
  }

  lemma {:induction false} RunSane(states: seq<State>, events: seq<Event>, n: nat)
    requires IsRun(states, events) && n < |states|
    ensures Sane(states[n])
  {
    if n == 0 {
      RunSound(states, events, 0);
    } else {
      RunSane(states, events, n - 1);
      assert Step(states[n - 1], events[n - 1], states[n]);
      StepSane(states[n - 1], events[n - 1], states[n]);
    }
  }

  lemma StepDelivered(a: State, e: Event, b: State, r: Record, id: u32)
    requires Sane(a) && Step(a, e, b) && !b.awaitingRestart && !Restarts(a, e) && Delivered(r, a, id)
    ensures Delivered(Extended(r, a, e, Handle(a, e), id), b, id)
  {
    StepIdle(a, e, b);
    EventFlows(a, e, id);
    ExtendDelivered(r, a, e, Handle(a, e), id);
  }

  lemma BlankDelivered(a: State, id: u32)
    requires a.streams == map[]
    ensures Delivered(BLANK, a, id)
  {
  }

  lemma Continues(a: State, e: Event, b: State)
    requires Sane(a) && Step(a, e, b) && !b.awaitingRestart
    ensures if Restarts(a, e) then b.streams == map[] else !a.awaitingRestart
  {
    StepIdle(a, e, b);
  }

  /** In every state of every run, for every stream of the session in progress: the frames taken in
      are, in order, those that receivers got, then what was thrown away with the stream, or what
      is still unread; and the receivers that came were answered in the order they came, each once,
      but for one that still waits. */
  lemma {:induction false} ReceivedInOrder(states: seq<State>, events: seq<Event>, n: nat, id: u32)
    requires IsRun(states, events) && n < |states| && !states[n].awaitingRestart
    ensures Delivered(History(states, events, n, id), states[n], id)
  {
    if n == 0 {
      BlankDelivered(states[0], id);
    } else {
      var a, e, b := states[n - 1], events[n - 1], states[n];
      RunSane(states, events, n - 1);
      assert Step(a, e, b);
      Continues(a, e, b);
      if Restarts(a, e) {
        BlankDelivered(b, id);
      } else {
        ReceivedInOrder(states, events, n - 1, id);
        StepDelivered(a, e, b, History(states, events, n - 1, id), id);
      }
    }
  }
}
