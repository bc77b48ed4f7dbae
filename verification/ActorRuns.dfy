/** Whole runs of the actor: the outbound invariant holds after every event, and what it says
    about sequence numbers, written frames and confirmed sends. */
module ActorRuns {
  import opened Results
  import opened Wire
  import Session
  import Sched = Scheduler
  import opened Actor
  import opened ActorOutbound

  // ---------------------------------------------------------------- inbound frames

  lemma CompleteOpenGood(a: State, id: u32)
    requires Inv(a)
    ensures Good(CompleteOpen(a, id))
  {
    if id in a.streams {
      var entry := a.streams[id];
      assert EntryOk(id, entry);
      var r := a.core.QueueCredit(id, entry.receiveWindow);
      if r.Ok? {
        QueueCreditKeeps(a.core, id, entry.receiveWindow);
        SetEntry(a.streams, id, entry.(opener := None));
        Reassemble(a, r.value, a.streams[id := entry.(opener := None)]);
      }
    }
  }

  /** A fresh scheduler holds nothing, so any counters fit it. */
  lemma FreshOk(core: Core, awaiting: bool)
    requires core.sched == Sched.New(MAX_SCHEDULED_BYTES)
    requires !awaiting ==> forall id: u32 :: Agrees(core, id)
    ensures OutOk(core, [], map[], awaiting)
  {
    Sched.NewValid(MAX_SCHEDULED_BYTES);
    forall id: u32
      ensures TrackOk(core, [], id)
    {
      assert Sched.StreamOk(core.sched, id);
      assert Sched.Pending(core.sched, id) == [];
    }
  }

  lemma PeerLeavesGood(a: State)
    requires Inv(a)
    ensures Good(PeerLeaves(a))
  {
    if a.pendingGoAway.None? && a.restartable {
      var b := FailStreams(a).(awaitingRestart := true);
      var c := b.(core := b.core.(controlSequence := a.core.controlSequence));
      FreshOk(c.core, true);
      ControlGood(c, Command.GoAway, []);
    }
  }

  /** The validator of a session whose HELLO exchange just completed. */
  ghost predicate Renewed(s: Session.State) {
    && (forall id: u32 :: Session.Expected(s.outbound, id) == if id == 0 then 1 else 0)
    && s.conn.phase == Session.Online && s.streams == map[]
    && s.conn.receiveCredit == s.conn.receiveLimit <= s.config.limits.maxWindow
  }

  ghost predicate EventOk(e: Event) {
    e.Inbound? ==>
      && e.frame.header.payloadLength == |e.frame.payload|
      && (e.reading.restarted.Some? ==> Renewed(e.reading.restarted.value))
  }

  lemma RestartGood(a: State, reading: Reading)
    requires Inv(a) && (reading.restarted.Some? ==> Renewed(reading.restarted.value))
    ensures Good(RestartSession(a, reading))
  {
    if reading.restarted.Some? {
      var c := RestartSession(a, reading).a;
      forall id: u32
        ensures Agrees(c.core, id)
      {
        assert Session.Expected(reading.restarted.value.outbound, id) == if id == 0 then 1 else 0;
      }
      FreshOk(c.core, !reading.helloWritten);
    }
  }

  lemma DispatchGood(a: State, frame: Frame, reading: Reading, late: bool)
    requires Inv(a)
    ensures Good(Dispatch(a, frame, reading, late))
  {
    var h := frame.header;
    if late {
      if a.core.RestoreConsumed(frame).Ok? {
        RestoreKeeps(a.core, frame);
        Reassemble(a, a.core.RestoreConsumed(frame).value, a.streams);
      }
    } else {
      match h.command
      case Open => SetEntry(a.streams, h.streamId, NewEntry(Sched.Bulk, 0));
      case Accept => CompleteOpenGood(a, h.streamId);
      case Reject => if h.streamId in a.streams { assert EntryOk(h.streamId, a.streams[h.streamId]); }
      case Credit => if h.streamId == 0 { FlushAllGood(a, reading.ids); } else { FlushPendingGood(a, h.streamId); }
      case Data => DeliverGood(a, frame);
      case Close => DeliverGood(a, frame);
      case Reset => DeliverGood(a, frame);
      case Ping => ControlGood(a, Command.Pong, frame.payload);
      case GoAway => PeerLeavesGood(a);
      case _ =>
    }
  }

  lemma InboundGood(a: State, frame: Frame, reading: Reading)
    requires Inv(a) && EventOk(Inbound(frame, reading))
    ensures Good(HandleInbound(a, frame, reading))
  {
    RestartGood(a, reading);
    var h := frame.header;
    var context := if h.command == Command.Accept then Session.FrameContext(None, reading.acceptWindow)
                   else Session.NoContext;
    var processed := a.core.state.Process(Session.Inbound, h, context);
    if processed.Ok? {
      ProcessKeepsSequences(a.core.state, Session.Inbound, h, context);
      StateKeeps(a.core, processed.value);
      Reassemble(a, a.core.(state := processed.value), a.streams);
      var late := h.command == Data && a.core.state.Stream(h.streamId).Some?
                  && a.core.state.Stream(h.streamId).value.phase.Terminal();
      DispatchGood(a.(core := a.core.(state := processed.value)), frame, reading, late);
    }
  }

  // ---------------------------------------------------------------- writing a frame

  lemma WrittenTrack(core: Core, t: Sched.State, out: Sched.Item, sent: seq<Sched.Item>, id: u32)
    requires Sched.Valid(core.sched) && Sched.Emits(core.sched, Some(out), t) && TrackOk(core, sent, id)
    ensures TrackOk(core.(sched := t), sent + [out], id)
  {
    Sched.FilterConcat(sent, [out], id);
    assert Sched.Filter([out], id) == Sched.Tail(out, id);
    assert Sched.StreamOk(t, id);
    assert Sched.Pending(core.sched, id) == Sched.Tail(out, id) + Sched.Pending(t, id);
    Regroup(Sched.Filter(sent, id), Sched.Tail(out, id), Sched.Pending(t, id));
    assert Track(t, sent + [out], id) == Track(core.sched, sent, id);
  }

  lemma Regroup(a: seq<Sched.Item>, b: seq<Sched.Item>, c: seq<Sched.Item>)
    ensures (a + b) + c == a + (b + c)
  {
  }

  lemma WrittenWaiter(s: Sched.State, t: Sched.State, out: Sched.Item, key: (u32, u32), w: Waiter)
    requires Sched.Valid(s) && Sched.Emits(s, Some(out), t) && WaiterOk(s, key, w)
    requires key != (out.StreamId(), out.frame.header.sequence)
    ensures WaiterOk(t, key, w)
  {
    var item :| item in Sched.Pending(s, key.0) && Awaits(item, key, w);
    assert Sched.Pending(s, key.0) == Sched.Tail(out, key.0) + Sched.Pending(t, key.0);
    assert Sched.StreamOk(t, key.0);
    assert item in Sched.Pending(t, key.0);
  }

  lemma WrittenOk(core: Core, t: Sched.State, out: Sched.Item, sent: seq<Sched.Item>,
                  waiters: map<(u32, u32), Waiter>, waiters': map<(u32, u32), Waiter>, awaiting: bool)
    requires OutOk(core, sent, waiters, awaiting) && Sched.Emits(core.sched, Some(out), t)
    requires waiters' == map k | k in waiters && k != (out.StreamId(), out.frame.header.sequence) :: waiters[k]
    ensures OutOk(core.(sched := t), sent + [out], waiters', awaiting)
  {
    forall id: u32
      ensures TrackOk(core.(sched := t), sent + [out], id) && (!awaiting ==> Agrees(core.(sched := t), id))
    {
      assert TrackOk(core, sent, id) && (!awaiting ==> Agrees(core, id));
      WrittenTrack(core, t, out, sent, id);
    }
    forall key | key in waiters'
      ensures WaiterOk(t, key, waiters'[key])
    {
      assert WaiterOk(core.sched, key, waiters[key]);
      WrittenWaiter(core.sched, t, out, key, waiters[key]);
    }
  }

  /** Numbers on a stream do not repeat, so the frame under a waiter's number is its own. */
  lemma WaiterMeetsItsFrame(core: Core, sent: seq<Sched.Item>, t: Sched.State, out: Sched.Item, w: Waiter)
    requires Sched.Valid(core.sched) && Sched.Emits(core.sched, Some(out), t)
    requires TrackOk(core, sent, out.StreamId())
    requires WaiterOk(core.sched, (out.StreamId(), out.frame.header.sequence), w)
    ensures Awaits(out, (out.StreamId(), out.frame.header.sequence), w)
  {
    var id := out.StreamId();
    var key := (id, out.frame.header.sequence);
    var pending := Sched.Pending(core.sched, id);
    var item :| item in pending && Awaits(item, key, w);
    var i :| 0 <= i < |pending| && pending[i] == item;
    var written := Sched.Filter(sent, id);
    assert pending[0] == out;
    assert Track(core.sched, sent, id)[|written|] == out;
    assert Track(core.sched, sent, id)[|written| + i] == item;
  }

  /** What a sender may read from being answered: its own frame is the last one written. */
  ghost predicate Confirms(a: State, b: State, r: Reply) {
    && r.to.ask.ToSend?
    && exists out :: b.sent == a.sent + [out] && out.StreamId() == r.to.ask.id
                     && Awaits(out, (r.to.ask.id, out.frame.header.sequence), r.to)
  }

  ghost predicate OnlyConfirms(a: State, t: Turn) {
    forall r :: r in t.replies && r.to.ask.ToSend? && !r.answer.Refused? ==> Confirms(a, t.a, r)
  }

  lemma WroteTells(a: State, b: State, out: Sched.Item)
    requires Inv(a) && b.sent == a.sent && b.writeWaiters == a.writeWaiters && b.streams == a.streams
    requires Sched.Emits(a.core.sched, Some(out), b.core.sched)
    ensures OnlyConfirms(a, Wrote(b, out))
  {
    var key := (out.StreamId(), out.frame.header.sequence);
    var t := Wrote(b, out);
    if key in a.writeWaiters {
      assert WaiterOk(a.core.sched, key, a.writeWaiters[key]);
      assert TrackOk(a.core, a.sent, key.0);
      WaiterMeetsItsFrame(a.core, a.sent, b.core.sched, out, a.writeWaiters[key]);
    }
    forall r | r in t.replies && r.to.ask.ToSend? && !r.answer.Refused?
      ensures Confirms(a, t.a, r)
    {
      assert key in a.writeWaiters && r == Reply(a.writeWaiters[key], Done);
      assert t.a.sent == a.sent + [out];
    }
  }

  lemma WroteInv(a: State, b: State, out: Sched.Item)
    requires Inv(a) && b == a.(core := a.core.(sched := b.core.sched))
    requires Sched.Emits(a.core.sched, Some(out), b.core.sched)
    ensures Inv(Wrote(b, out).a) && Wrote(b, out).failure.None?
  {
    var key := (out.StreamId(), out.frame.header.sequence);
    var waiters := map k | k in a.writeWaiters && k != key :: a.writeWaiters[k];
    WrittenOk(a.core, b.core.sched, out, a.sent, a.writeWaiters, waiters, a.awaitingRestart);
    RetireGood(b.(sent := a.sent + [out], writeWaiters := waiters), key.0, Disconnected);
  }

  lemma DequeueGood(a: State, written: bool)
    requires Inv(a)
    ensures var t := HandleDequeue(a, written);
      && (t.failure.None? ==> Inv(t.a)) && GoAwayOk(t.a) && OnlyConfirms(a, t) && (!written ==> NoConfirm(t.replies))
  {
    Sched.DequeueSpec(a.core.sched);
    var (sched, out) := a.core.sched.Dequeue();
    var b := a.(core := a.core.(sched := sched));
    if out.None? {
      IdleOk(a.core, sched, a.sent, a.writeWaiters, a.awaitingRestart);
    } else if written {
      WroteInv(a, b, out.value);
      WroteTells(a, b, out.value);
    }
  }

  /** Dequeuing nothing moves only deficits and cursor. */
  lemma IdleOk(core: Core, t: Sched.State, sent: seq<Sched.Item>, waiters: map<(u32, u32), Waiter>, awaiting: bool)
    requires OutOk(core, sent, waiters, awaiting) && Sched.Emits(core.sched, None, t)
    ensures OutOk(core.(sched := t), sent, waiters, awaiting)
  {
    forall id: u32
      ensures TrackOk(core.(sched := t), sent, id) && (!awaiting ==> Agrees(core.(sched := t), id))
    {
      assert TrackOk(core, sent, id) && (!awaiting ==> Agrees(core, id));
      assert Sched.StreamOk(t, id) && Sched.Pending(t, id) == Sched.Pending(core.sched, id);
    }
    forall key | key in waiters
      ensures WaiterOk(t, key, waiters[key])
    {
      assert WaiterOk(core.sched, key, waiters[key]);
      assert Sched.StreamOk(t, key.0) && Sched.Pending(t, key.0) == Sched.Pending(core.sched, key.0);
    }
  }

  // ---------------------------------------------------------------- runs

  /** One event. After a failure the validator, which a restart replaces, may be anything. */
  ghost predicate Step(a: State, e: Event, b: State) {
    && EventOk(e) && a.core.sched.Shaped() && Next(a, e).Some?
    && var c := Next(a, e).value;
    b == c || (Handle(a, e).failure.Some? && b == c.(core := c.core.(state := b.core.state)))
  }

  lemma StepInv(a: State, e: Event, b: State)
    requires Inv(a) && Step(a, e, b)
    ensures Inv(b)
  {
    NextInv(a, e);
    if Handle(a, e).failure.Some? {
      HandleGood(a, e);
      FreshOk(b.core, true);
    }
  }

  ghost predicate IsRun(states: seq<State>, events: seq<Event>) {
    && |states| == |events| + 1
    && (exists state, restartable :: Renewed(state) && states[0] == Start(state, restartable))
    && forall j, k :: 0 <= j < |events| && k == j + 1 ==> Step(states[j], events[j], states[k])
  }

  lemma HandleGood(a: State, e: Event)
    requires Inv(a) && EventOk(e)
    ensures var t := Handle(a, e);
      && (t.failure.None? ==> Inv(t.a)) && GoAwayOk(t.a) && OnlyConfirms(a, t)
      && (e != Dequeue(true) ==> NoConfirm(t.replies))
  {
    match e
    case Command_(generation, token, call) => CommandGood(a, token, call);
    case Inbound(frame, reading) => InboundGood(a, frame, reading);
    case Dequeue(written) => DequeueGood(a, written);
  }

  lemma NextInv(a: State, e: Event)
    requires Inv(a) && EventOk(e) && Next(a, e).Some?
    ensures Inv(Next(a, e).value)
  {
    HandleGood(a, e);
    var turn := Handle(a, e);
    if turn.failure.Some? {
      FreshOk(FailStreams(turn.a).core, true);
    }
  }

  lemma StartInv(state: Session.State, restartable: bool)
    requires Renewed(state)
    ensures Inv(Start(state, restartable))
  {
    var core := Start(state, restartable).core;
    forall id: u32
      ensures Agrees(core, id)
    {
      assert Session.Expected(state.outbound, id) == if id == 0 then 1 else 0;
    }
    FreshOk(core, false);
  }

  lemma {:induction false} RunInv(states: seq<State>, events: seq<Event>, n: nat)
    requires IsRun(states, events) && n < |states|
    ensures Inv(states[n])
  {
    if n == 0 {
      var state, restartable :| Renewed(state) && states[0] == Start(state, restartable);
      StartInv(state, restartable);
    } else {
      RunInv(states, events, n - 1);
      assert Step(states[n - 1], events[n - 1], states[n]);
      StepInv(states[n - 1], events[n - 1], states[n]);
    }
  }

  // ---------------------------------------------------------------- what every run promises

  /** Between restarts, the number the actor gives its next frame is the number its own
      validator demands, on every stream. */
  lemma CountersAgree(states: seq<State>, events: seq<Event>, n: nat, id: u32)
    requires IsRun(states, events) && n < |states| && !states[n].awaitingRestart
    ensures states[n].core.NextSequence(id) == Session.Expected(states[n].core.state.outbound, id)
  {
    RunInv(states, events, n);
    assert Agrees(states[n].core, id);
  }

  /** Since the scheduler was last replaced, the frames written on a stream carry consecutive
      numbers, without repeat or gap, and those still queued continue them up to the counter. */
  lemma WrittenInSequence(states: seq<State>, events: seq<Event>, n: nat, id: u32)
    requires IsRun(states, events) && n < |states|
    ensures Sched.StreamOk(states[n].core.sched, id)
    ensures var written := Sched.Filter(states[n].sent, id);
      var queued := Sched.Pending(states[n].core.sched, id);
      Consecutive(written + queued, states[n].core.NextSequence(id))
  {
    RunInv(states, events, n);
    assert TrackOk(states[n].core, states[n].sent, id);
  }

  /** A send is confirmed only by the event that writes its own DATA frame: same stream, same
      payload, same end flag. Any other answer to a sender is a refusal. */
  lemma ConfirmedMeansWritten(states: seq<State>, events: seq<Event>, n: nat, r: Reply)
    requires IsRun(states, events) && n < |events| && states[n].core.sched.Shaped()
    requires r in Handle(states[n], events[n]).replies && r.to.ask.ToSend? && !r.answer.Refused?
    ensures events[n] == Dequeue(true) && Confirms(states[n], states[n + 1], r)
  {
    RunInv(states, events, n);
    var k := n + 1;
    assert Step(states[n], events[n], states[k]);
    ConfirmingStep(states[n], events[n], states[k], r);
  }

  lemma ConfirmingStep(a: State, e: Event, b: State, r: Reply)
    requires Inv(a) && Step(a, e, b) && r in Handle(a, e).replies && r.to.ask.ToSend? && !r.answer.Refused?
    ensures e == Dequeue(true) && Confirms(a, b, r)
  {
    HandleGood(a, e);
  }

  /** No confirmation is lost: while a sender waits, its frame is still queued under its number. */
  lemma WaitersAreQueued(states: seq<State>, events: seq<Event>, n: nat, key: (u32, u32))
    requires IsRun(states, events) && n < |states| && key in states[n].writeWaiters
    ensures Sched.StreamOk(states[n].core.sched, key.0)
    ensures exists item :: item in Sched.Pending(states[n].core.sched, key.0)
                           && Awaits(item, key, states[n].writeWaiters[key])
  {
    RunInv(states, events, n);
    assert WaiterOk(states[n].core.sched, key, states[n].writeWaiters[key]);
  }
}
