/** Receive accounting in every run of the actor: unread DATA and wire credit share one window
    per stream and one per connection, so accepted DATA always finds room and returning its
    credit never overflows. */
module ActorReceive {
  import opened Results
  import opened Wire
  import Session
  import Sched = Scheduler
  import opened Actor
  import opened ActorOutbound
  import opened ActorRuns

  // ---------------------------------------------------------------- unread bytes

  ghost function Sum(ids: set<u32>, streams: map<u32, StreamEntry>): nat
    requires ids <= streams.Keys
  {
    if ids == {} then 0
    else
      var id :| id in ids;
      DataBytes(streams[id].inbox) + Sum(ids - {id}, streams)
  }

  /** Unread DATA bytes over all inboxes. */
  ghost function Unread(streams: map<u32, StreamEntry>): nat { Sum(streams.Keys, streams) }

  lemma {:induction false} SumRemove(ids: set<u32>, streams: map<u32, StreamEntry>, id: u32)
    requires ids <= streams.Keys && id in ids
    ensures Sum(ids, streams) == DataBytes(streams[id].inbox) + Sum(ids - {id}, streams)
  {
    var first :| first in ids && Sum(ids, streams) == DataBytes(streams[first].inbox) + Sum(ids - {first}, streams);
    if first != id {
      SumRemove(ids - {first}, streams, id);
      SumRemove(ids - {id}, streams, first);
      assert ids - {first} - {id} == ids - {id} - {first};
    }
  }

  lemma {:induction false} SumSame(ids: set<u32>, streams: map<u32, StreamEntry>, streams': map<u32, StreamEntry>)
    requires ids <= streams.Keys && ids <= streams'.Keys
    requires forall k :: k in ids ==> streams'[k] == streams[k]
    ensures Sum(ids, streams') == Sum(ids, streams)
  {
    if ids != {} {
      var id :| id in ids;
      SumRemove(ids, streams, id);
      SumRemove(ids, streams', id);
      SumSame(ids - {id}, streams, streams');
    }
  }

  lemma UnreadRemove(streams: map<u32, StreamEntry>, id: u32)
    requires id in streams
    ensures Unread(streams) == DataBytes(streams[id].inbox) + Unread(streams - {id})
  {
    SumRemove(streams.Keys, streams, id);
    assert (streams - {id}).Keys == streams.Keys - {id};
    SumSame(streams.Keys - {id}, streams, streams - {id});
  }

  lemma UnreadUpdate(streams: map<u32, StreamEntry>, id: u32, entry: StreamEntry)
    ensures Unread(streams[id := entry]) ==
      Unread(streams) - (if id in streams then DataBytes(streams[id].inbox) else 0) + DataBytes(entry.inbox)
  {
    UnreadRemove(streams[id := entry], id);
    if id in streams {
      UnreadRemove(streams, id);
      assert streams[id := entry] - {id} == streams - {id};
    } else {
      assert streams[id := entry] - {id} == streams;
    }
  }

  lemma {:induction false} DataBytesAppend(inbox: seq<Frame>, frame: Frame)
    ensures DataBytes(inbox + [frame]) == DataBytes(inbox) + Carried(frame)
  {
    if inbox == [] {
      assert [] + [frame] == [frame];
    } else {
      assert (inbox + [frame])[1..] == inbox[1..] + [frame];
      DataBytesAppend(inbox[1..], frame);
    }
  }

  /** DATA bytes a frame carries. */
  function Carried(frame: Frame): nat { if frame.header.command == Data then frame.header.payloadLength else 0 }

  // ---------------------------------------------------------------- the books

  predicate OnlyData(inbox: seq<Frame>) {
    forall k :: 0 <= k < |inbox| ==>
      inbox[k].header.command == Data && inbox[k].header.payloadLength == |inbox[k].payload|
  }

  predicate Homed(inbox: seq<Frame>, id: u32) { forall k :: 0 <= k < |inbox| ==> inbox[k].header.streamId == id }

  /** A stream and its inbox, with `owed` bytes taken in but neither unread nor credited back. */
  ghost predicate StreamBook(x: Session.Stream, e: StreamEntry, owed: nat) {
    match x.phase
    case Opening => e.inbox == [] && e.inboxBytes == 0 && x.receiveCredit == 0
    case Rejected => e.inbox == []
    case Accepted =>
      && OnlyData(e.inbox) && e.inboxBytes == DataBytes(e.inbox)
      && DataBytes(e.inbox) + x.receiveCredit + owed <= e.receiveWindow <= x.receiveLimit
    case _ => true
  }

  ghost predicate Finished(x: Session.Stream) { x.phase.Terminal() || x.phase == Session.Rejected }

  ghost predicate BookAt(x: Session.Stream, streams: map<u32, StreamEntry>, id: u32, owed: nat) {
    if id in streams then Homed(streams[id].inbox, id) && StreamBook(x, streams[id], owed) else Finished(x)
  }

  /** Stream `id` owes `owed` bytes, and the connection owes as many. */
  ghost predicate Owing(s: Session.State, streams: map<u32, StreamEntry>, dropped: nat, id: u32, owed: nat) {
    && s.conn.OnlineOrGoing() && s.conn.receiveLimit <= s.config.limits.maxWindow
    && streams.Keys <= s.streams.Keys && 0 !in s.streams
    && (forall k :: k in s.streams ==> BookAt(s.streams[k], streams, k, if k == id then owed else 0))
    && s.conn.receiveCredit + Unread(streams) + dropped + owed == s.conn.receiveLimit
  }

  ghost predicate Over(s: Session.State, id: u32) { id in s.streams && s.streams[id].phase.Terminal() }

  ghost predicate QueueAt(core: Core, id: u32) {
    Sched.StreamOk(core.sched, id) &&
    forall item :: item in Sched.Pending(core.sched, id) && TerminalFrame(item.frame) ==> Over(core.state, id)
  }

  /** A queued CLOSE or RESET belongs to a stream the validator already calls finished. */
  ghost predicate QueueOk(core: Core) { forall id: u32 :: QueueAt(core, id) }

  ghost predicate Balanced(a: State) { Owing(a.core.state, a.streams, a.dropped, 0, 0) && QueueOk(a.core) }

  ghost predicate Books(a: State) { a.awaitingRestart || Balanced(a) }

  // ---------------------------------------------------------------- the validator's steps

  /** A stream step that asks nothing of the inbox. */
  ghost predicate Onward(x: Session.Stream, y: Session.Stream) {
    || (y.phase == x.phase && y.receiveCredit == x.receiveCredit && y.receiveLimit == x.receiveLimit)
    || (x.phase == Session.Accepted && y.phase.Terminal())
    || (x.phase == Session.Opening && y.phase == Session.Rejected)
  }

  ghost predicate SameConnection(s: Session.State, t: Session.State) {
    && t.config == s.config && t.conn.receiveCredit == s.conn.receiveCredit
    && t.conn.receiveLimit == s.conn.receiveLimit
    && (s.conn.OnlineOrGoing() ==> t.conn.OnlineOrGoing())
  }

  ghost predicate Quiet(s: Session.State, t: Session.State) {
    && SameConnection(s, t) && t.streams.Keys == s.streams.Keys
    && forall k :: k in s.streams ==> Onward(s.streams[k], t.streams[k])
  }

  lemma QuietOwing(s: Session.State, t: Session.State, streams: map<u32, StreamEntry>, dropped: nat, id: u32, owed: nat)
    requires Owing(s, streams, dropped, id, owed) && Quiet(s, t)
    ensures Owing(t, streams, dropped, id, owed)
  {
    forall k | k in t.streams
      ensures BookAt(t.streams[k], streams, k, if k == id then owed else 0)
    {
      assert BookAt(s.streams[k], streams, k, if k == id then owed else 0);
      assert Onward(s.streams[k], t.streams[k]);
    }
  }

  lemma ProcessApplies(s: Session.State, dir: Session.Direction, h: Header, context: Session.FrameContext,
                       t: Session.State)
    requires s.Process(dir, h, context) == Ok(t)
    ensures s.Apply(dir, h, context).Ok? && h.Validate(s.config.limits).Pass?
    ensures var u := s.Apply(dir, h, context).value;
      t.config == u.config && t.conn == u.conn && t.streams == u.streams
  {
  }

  lemma ProcessQuiet(s: Session.State, dir: Session.Direction, h: Header, context: Session.FrameContext,
                     t: Session.State)
    requires s.Process(dir, h, context) == Ok(t) && s.conn.OnlineOrGoing()
    requires h.command.Reject? || h.command.Close? || h.command.Reset? || h.command.Ping? || h.command.Pong?
          || h.command.GoAway?
          || (h.command.Data? && dir == Session.Outbound) || (h.command.Credit? && dir == Session.Inbound)
    ensures Quiet(s, t)
    ensures h.command.Close? || h.command.Reset? ==> Over(t, h.streamId)
  {
    ProcessApplies(s, dir, h, context, t);
    var u := s.Apply(dir, h, context).value;
    if h.streamId == 0 {
      assert u.streams == s.streams;
    } else {
      StreamQuiet(s.streams[h.streamId], dir, h, context, s.conn);
      assert u.streams == s.streams[h.streamId := u.streams[h.streamId]];
    }
  }

  lemma StreamQuiet(x: Session.Stream, dir: Session.Direction, h: Header, context: Session.FrameContext,
                    c: Session.Connection)
    requires x.Apply(dir, h, context, c).Ok?
    requires h.command.Reject? || h.command.Close? || h.command.Reset?
          || (h.command.Data? && dir == Session.Outbound) || (h.command.Credit? && dir == Session.Inbound)
    ensures Onward(x, x.Apply(dir, h, context, c).value)
    ensures h.command.Close? || h.command.Reset? ==> x.Apply(dir, h, context, c).value.phase.Terminal()
  {
  }

  lemma ProcessOpen(s: Session.State, dir: Session.Direction, h: Header, context: Session.FrameContext,
                    t: Session.State)
    requires s.Process(dir, h, context) == Ok(t) && h.command.Open?
    ensures t.conn == s.conn && t.config == s.config && h.streamId !in s.streams
    ensures t.streams == s.streams[h.streamId := Session.OpeningStream(dir == Session.Outbound)]
  {
    ProcessApplies(s, dir, h, context, t);
  }

  lemma ProcessAccept(s: Session.State, dir: Session.Direction, h: Header, context: Session.FrameContext,
                      t: Session.State)
    requires s.Process(dir, h, context) == Ok(t) && h.command.Accept?
    ensures t.conn == s.conn && t.config == s.config && context.streamWindow.Some?
    ensures h.streamId in s.streams && s.streams[h.streamId].phase == Session.Opening
    ensures t.streams == s.streams[h.streamId := s.streams[h.streamId].Accept(dir, context.streamWindow.value)]
  {
    ProcessApplies(s, dir, h, context, t);
  }

  /** Outbound CREDIT hands receive credit back, to a stream or to the connection. */
  lemma ProcessCredit(s: Session.State, h: Header, t: Session.State)
    requires s.Process(Session.Outbound, h, Session.NoContext) == Ok(t) && h.command.Credit?
    ensures t.config == s.config && (s.conn.OnlineOrGoing() ==> t.conn.OnlineOrGoing())
    ensures t.conn.receiveLimit == s.conn.receiveLimit
    ensures t.conn.receiveCredit == s.conn.receiveCredit + if h.streamId == 0 then h.creditDelta else 0
    ensures h.streamId == 0 ==> t.streams == s.streams
    ensures h.streamId != 0 ==> h.streamId in s.streams && t.streams == s.streams[h.streamId := t.streams[h.streamId]]
    ensures h.streamId != 0 && s.streams[h.streamId].phase == Session.Accepted ==>
      var x, y := s.streams[h.streamId], t.streams[h.streamId];
      y == x.(receiveCredit := y.receiveCredit) && y.receiveCredit == x.receiveCredit + h.creditDelta <= x.receiveLimit
  {
    ProcessApplies(s, Session.Outbound, h, Session.NoContext, t);
  }

  /** Inbound DATA takes receive credit from its stream and from the connection. */
  lemma ProcessData(s: Session.State, h: Header, t: Session.State)
    requires s.Process(Session.Inbound, h, Session.NoContext) == Ok(t) && h.command.Data?
    ensures t.config == s.config && (s.conn.OnlineOrGoing() ==> t.conn.OnlineOrGoing())
    ensures t.conn.receiveLimit == s.conn.receiveLimit && s.conn.receiveCredit == t.conn.receiveCredit + h.payloadLength
    ensures h.streamId in s.streams && t.streams == s.streams[h.streamId := t.streams[h.streamId]]
    ensures var x, y := s.streams[h.streamId], t.streams[h.streamId];
      && y.phase == x.phase && (x.phase == Session.Accepted || x.phase.Terminal())
      && y.receiveLimit == x.receiveLimit && x.receiveCredit == y.receiveCredit + h.payloadLength
  {
    ProcessApplies(s, Session.Inbound, h, Session.NoContext, t);
  }

  // ---------------------------------------------------------------- the books under each step

  lemma SetBook(s: Session.State, t: Session.State, streams: map<u32, StreamEntry>, streams': map<u32, StreamEntry>,
                dropped: nat, dropped': nat, id: u32, owed: nat, owed': nat)
    requires Owing(s, streams, dropped, id, owed)
    requires t.config == s.config && t.conn.OnlineOrGoing() && t.conn.receiveLimit == s.conn.receiveLimit
    requires 0 !in t.streams
    requires forall k :: k != id ==> (k in t.streams <==> k in s.streams) && (k in streams' <==> k in streams)
    requires forall k :: k != id && k in s.streams ==> t.streams[k] == s.streams[k]
    requires forall k :: k != id && k in streams ==> streams'[k] == streams[k]
    requires id in t.streams ==> BookAt(t.streams[id], streams', id, owed')
    requires id in streams' ==> id in t.streams
    requires t.conn.receiveCredit + Unread(streams') + dropped' + owed'
          == s.conn.receiveCredit + Unread(streams) + dropped + owed
    ensures Owing(t, streams', dropped', id, owed')
  {
    forall k | k in t.streams
      ensures BookAt(t.streams[k], streams', k, if k == id then owed' else 0)
    {
      if k != id { assert BookAt(s.streams[k], streams, k, 0); }
    }
  }

  /** Which stream the debt is booked on does not matter once it is paid. */
  lemma NoDebt(s: Session.State, streams: map<u32, StreamEntry>, dropped: nat, id: u32, other: u32)
    requires Owing(s, streams, dropped, id, 0)
    ensures Owing(s, streams, dropped, other, 0)
  {
    forall k | k in s.streams
      ensures BookAt(s.streams[k], streams, k, if k == other then 0 else 0)
    {
      assert BookAt(s.streams[k], streams, k, if k == id then 0 else 0);
    }
  }

  lemma DataTaken(s: Session.State, t: Session.State, streams: map<u32, StreamEntry>, dropped: nat, h: Header)
    requires Owing(s, streams, dropped, 0, 0) && h.command.Data?
    requires s.Process(Session.Inbound, h, Session.NoContext) == Ok(t)
    ensures Owing(t, streams, dropped, h.streamId, h.payloadLength)
  {
    ProcessData(s, h, t);
    NoDebt(s, streams, dropped, 0, h.streamId);
    assert BookAt(s.streams[h.streamId], streams, h.streamId, 0);
    SetBook(s, t, streams, streams, dropped, dropped, h.streamId, 0, h.payloadLength);
  }

  // ---------------------------------------------------------------- queueing and the books

  lemma ProcessOver(s: Session.State, dir: Session.Direction, h: Header, context: Session.FrameContext,
                    t: Session.State, id: u32)
    requires s.Process(dir, h, context) == Ok(t) && Over(s, id)
    ensures Over(t, id)
  {
    ProcessApplies(s, dir, h, context, t);
  }

  lemma EmitQueue(core: Core, h: Header, payload: seq<byte>, class_: Sched.TrafficClass,
                  context: Session.FrameContext, core': Core)
    returns (header: Header)
    requires Sched.Valid(core.sched) && core.Emit(h, payload, class_, context) == Ok(core') && QueueOk(core)
    ensures |payload| <= U32_MAX && header == h.(sequence := core.NextSequence(h.streamId), payloadLength := |payload|)
    ensures core.state.Process(Session.Outbound, header, context) == Ok(core'.state)
    ensures Sched.Valid(core'.sched) && QueueOk(core')
  {
    var item := EmitSpec(core, h, payload, class_, context, core');
    header := item.frame.header;
    forall id: u32
      ensures QueueAt(core', id)
    {
      assert QueueAt(core, id) && Sched.StreamOk(core'.sched, id);
      forall queued | queued in Sched.Pending(core'.sched, id) && TerminalFrame(queued.frame)
        ensures Over(core'.state, id)
      {
        if queued in Sched.Pending(core.sched, id) {
          ProcessOver(core.state, Session.Outbound, header, context, core'.state, id);
        } else {
          EndsStream(core.state, header, context, core'.state);
        }
      }
    }
  }

  lemma EndsStream(s: Session.State, h: Header, context: Session.FrameContext, t: Session.State)
    requires s.Process(Session.Outbound, h, context) == Ok(t)
    ensures h.command.Close? || h.command.Reset? ==> Over(t, h.streamId)
  {
    ProcessApplies(s, Session.Outbound, h, context, t);
  }

  lemma CreditQueued(core: Core, id: u32, delta: u32, core': Core) returns (h: Header)
    requires Sched.Valid(core.sched) && QueueOk(core) && core.QueueCredit(id, delta) == Ok(core')
    ensures Sched.Valid(core'.sched) && QueueOk(core')
    ensures h.command.Credit? && h.streamId == id && h.creditDelta == delta
    ensures core.state.Process(Session.Outbound, h, Session.NoContext) == Ok(core'.state)
  {
    h := EmitQueue(core, NewHeader(Credit, id, 0).(creditDelta := delta), [], Sched.Control, Session.NoContext, core');
  }

  /** Connection credit alone pays a debt whose stream has no use for credit any more. */
  lemma PayConnection(s: Session.State, t: Session.State, h: Header, streams: map<u32, StreamEntry>, dropped: nat,
                      id: u32)
    requires Owing(s, streams, dropped, id, h.creditDelta) && h.command.Credit? && h.streamId == 0
    requires s.Process(Session.Outbound, h, Session.NoContext) == Ok(t)
    ensures Owing(t, streams, dropped, id, 0)
  {
    ProcessCredit(s, h, t);
    if id in s.streams { assert BookAt(s.streams[id], streams, id, h.creditDelta); }
    SetBook(s, t, streams, streams, dropped, dropped, id, h.creditDelta, 0);
  }

  lemma PayBoth(s: Session.State, m: Session.State, t: Session.State, h: Header, g: Header,
                streams: map<u32, StreamEntry>, dropped: nat, id: u32)
    requires Owing(s, streams, dropped, id, h.creditDelta) && id in s.streams && s.streams[id].phase == Session.Accepted
    requires h.command.Credit? && h.streamId == id != 0 && s.Process(Session.Outbound, h, Session.NoContext) == Ok(m)
    requires g.command.Credit? && g.streamId == 0 && m.Process(Session.Outbound, g, Session.NoContext) == Ok(t)
    requires g.creditDelta == h.creditDelta
    ensures Owing(t, streams, dropped, id, 0)
  {
    ProcessCredit(s, h, m);
    ProcessCredit(m, g, t);
    assert BookAt(s.streams[id], streams, id, h.creditDelta);
    SetBook(s, t, streams, streams, dropped, dropped, id, h.creditDelta, 0);
  }

  lemma RestoreBooks(core: Core, frame: Frame, core': Core, streams: map<u32, StreamEntry>, dropped: nat)
    requires Sched.Valid(core.sched) && QueueOk(core) && core.RestoreConsumed(frame) == Ok(core')
    requires Owing(core.state, streams, dropped, frame.header.streamId, Carried(frame))
    ensures Owing(core'.state, streams, dropped, frame.header.streamId, 0) && QueueOk(core')
  {
    var h := frame.header;
    if Carried(frame) != 0 {
      if !h.EndStream() && core.state.Stream(h.streamId).Some?
         && core.state.Stream(h.streamId).value.phase == Session.Accepted {
        var middle := core.QueueCredit(h.streamId, h.payloadLength).value;
        var first := CreditQueued(core, h.streamId, h.payloadLength, middle);
        var second := CreditQueued(middle, 0, h.payloadLength, core');
        PayBoth(core.state, middle.state, core'.state, first, second, streams, dropped, h.streamId);
      } else {
        var only := CreditQueued(core, 0, h.payloadLength, core');
        PayConnection(core.state, core'.state, only, streams, dropped, h.streamId);
      }
    }
  }
}
