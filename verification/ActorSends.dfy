/** The sending side of the actor over whole runs: when a send goes out, when it fails, and when it
    waits. */
module ActorSends {
  import opened Results
  import opened Wire
  import Session
  import SessionRules
  import Sched = Scheduler
  import opened Actor
  import opened ActorOutbound
  import opened ActorRuns
  import opened ActorReceive
  import opened ActorTheorems

  // ---------------------------------------------------------------- queueing DATA

  /** The validator's side of the stream still takes DATA. */
  ghost predicate Writable(core: Core, id: u32) {
    && id != 0 && id in core.state.streams && core.state.conn.phase != Session.Closed
    && core.state.streams[id].phase == Session.Accepted && !core.state.streams[id].localEnd
  }

  /** A payload the peer allows and a number to give it. */
  ghost predicate Sendable(core: Core, id: u32, payload: seq<byte>) {
    |payload| <= core.state.config.limits.maxPayload && core.NextSequence(id) < U32_MAX
  }

  ghost predicate Fits(core: Core, payload: seq<byte>) {
    core.sched.queuedBytes + HEADER_LEN + |payload| <= core.sched.maxQueuedBytes
  }

  /** The frame a send becomes. */
  function DataItem(core: Core, id: u32, class_: Sched.TrafficClass, payload: seq<byte>, end: bool): Sched.Item
    requires |payload| <= U32_MAX
  {
    var h := NewHeader(Data, id, core.NextSequence(id)).(flags := if end then 1 else 0, payloadLength := |payload|);
    Sched.Item(class_, Frame(h, payload))
  }

  /** The stream's frames are those it had, and this one. */
  ghost predicate Newest(s: Sched.State, t: Sched.State, id: u32, item: Sched.Item) {
    && Sched.StreamOk(s, id) && Sched.StreamOk(t, id)
    && Sched.Pending(t, id) == Sched.Pending(s, id) + [item]
  }

  /** With credit on an open, unended stream, DATA is queued unless it is too long, the numbers are
      used up, or the queue is full; then it is the stream's newest frame. */
  lemma DataQueuedIff(core: Core, id: u32, class_: Sched.TrafficClass, payload: seq<byte>, end: bool)
    requires Sched.Valid(core.sched) && Agrees(core, id) && Writable(core, id) && core.HasSendCredit(id, |payload|)
    ensures var r := core.QueueFrame(Data, id, payload, end, class_, Session.NoContext);
      && (r.Ok? <==> Sendable(core, id, payload) && Fits(core, payload))
      && (r.Err? ==> r.error == if Sendable(core, id, payload) then QueueFull else Protocol)
      && (r.Ok? ==> Newest(core.sched, r.value.sched, id, DataItem(core, id, class_, payload, end)))
  {
    var item := DataItem(core, id, class_, payload, end);
    SessionRules.DataSentIff(core.state, id, core.NextSequence(id), |payload|, end);
    Sched.EnqueueSpec(core.sched, item);
    assert item.Cost() == HEADER_LEN + |payload|;
    var r := core.QueueFrame(Data, id, payload, end, class_, Session.NoContext);
    assert r.Ok? ==> Sched.StreamOk(r.value.sched, id);
  }

  // ---------------------------------------------------------------- a send, in any state of a run

  /** A send that may start: nothing of the stream is waiting, and the stream takes DATA. */
  ghost predicate May(a: State, id: u32) {
    && !a.awaitingRestart && id in a.streams && a.streams[id].pendingSend.None? && !WriteWaiting(a, id)
    && id in a.core.state.streams && a.core.state.streams[id].phase == Session.Accepted
    && !a.core.state.streams[id].localEnd
  }

  lemma MayWrite(a: State, id: u32)
    requires Sound(a) && May(a, id)
    ensures Writable(a.core, id) && Sched.Valid(a.core.sched) && Agrees(a.core, id)
  {
  }

  /** In every state of every run, a send on an accepted stream that has not ended, with nothing
      waiting on it: without credit it waits and nothing else changes; with credit it is queued,
      last on its stream, and its sender waits for the write, and it fails only because the payload
      exceeds the peer's limit, the numbers are used up, or the queue is full. */
  lemma SendOutcome(states: seq<State>, events: seq<Event>, n: nat, token: nat, id: u32, payload: seq<byte>, end: bool)
    requires IsRun(states, events) && n < |states| && May(states[n], id) && |payload| <= U32_MAX
    ensures states[n].core.sched.Shaped()
    ensures Outcome(states[n], Waiter(token, ToSend(id, payload, end)),
                    HandleCommand(states[n], token, Call.SendData(id, payload, end)), id, payload, end)
  {
    RunSound(states, events, n);
    SendSpec(states[n], token, id, payload, end);
  }

  lemma SendSpec(a: State, token: nat, id: u32, payload: seq<byte>, end: bool)
    requires Sound(a) && May(a, id) && |payload| <= U32_MAX
    ensures Outcome(a, Waiter(token, ToSend(id, payload, end)),
                    HandleCommand(a, token, Call.SendData(id, payload, end)), id, payload, end)
  {
    MayWrite(a, id);
    if a.core.HasSendCredit(id, |payload|) {
      DataQueuedIff(a.core, id, a.streams[id].class_, payload, end);
    }
  }

  ghost predicate Outcome(a: State, w: Waiter, t: Turn, id: u32, payload: seq<byte>, end: bool)
    requires May(a, id) && |payload| <= U32_MAX
  {
    if !a.core.HasSendCredit(id, |payload|) then
      t == Calm(a.(streams := a.streams[id := a.streams[id].(pendingSend := Some(PendingSend(payload, end, w)))]))
    else
      && (t.failure.None? <==> Sendable(a.core, id, payload) && Fits(a.core, payload))
      && (t.failure.Some? ==> t.failure == Some(if Sendable(a.core, id, payload) then QueueFull else Protocol)
                              && t.replies == [Reply(w, Refused(t.failure.value))])
      && (t.failure.None? ==> Queued(a, t, id, payload, end, w))
  }

  ghost predicate Queued(a: State, t: Turn, id: u32, payload: seq<byte>, end: bool, w: Waiter)
    requires id in a.streams && |payload| <= U32_MAX
  {
    && t.replies == [] && t.a.streams == a.streams
    && t.a.writeWaiters == a.writeWaiters[(id, a.core.NextSequence(id)) := w]
    && Newest(a.core.sched, t.a.core.sched, id, DataItem(a.core, id, a.streams[id].class_, payload, end))
  }
}
