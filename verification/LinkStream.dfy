/** What both ends of one stream, and the frames in flight on it, keep in common. */
module LinkStream {
  import opened Results
  import opened Wire
  import opened Session
  import opened Link

  /** Effect of a non-OPEN frame on the stream it names, and what the stream itself demands. */
  ghost predicate StreamStep(dir: Direction, x: Stream, m: Msg, x': Stream) {
    match m.h.command
    case Accept =>
      && x.phase == Opening && (dir == Outbound) == !x.initiatedByLocal && m.context.streamWindow.Some?
      && x' == x.Accept(dir, m.context.streamWindow.value)
    case Reject =>
      x.phase == Opening && (dir == Outbound) == !x.initiatedByLocal && x' == x.(phase := Rejected)
    case Credit =>
      if x.phase.Terminal() then x' == x
      else if dir == Inbound then
        && x.phase == Accepted && x.sendCredit + m.h.creditDelta <= x.sendLimit
        && x' == x.(sendCredit := x.sendCredit + m.h.creditDelta)
      else
        && x.phase == Accepted && x.receiveCredit + m.h.creditDelta <= x.receiveLimit
        && x' == x.(receiveCredit := x.receiveCredit + m.h.creditDelta)
    case Reset =>
      if x.phase.Terminal() then x' == x else x.phase == Accepted && x' == x.(phase := StreamReset)
    case Data =>
      if dir == Inbound && x.phase.Terminal() then
        m.h.payloadLength <= x.receiveCredit && x' == x.(receiveCredit := x.receiveCredit - m.h.payloadLength)
      else if dir == Inbound then
        && x.phase == Accepted && !x.peerEnd && m.h.payloadLength <= x.receiveCredit
        && x' == x.(receiveCredit := x.receiveCredit - m.h.payloadLength, peerEnd := m.h.EndStream())
      else
        && x.phase == Accepted && !x.localEnd && m.h.payloadLength <= x.sendCredit
        && x' == x.(sendCredit := x.sendCredit - m.h.payloadLength, localEnd := m.h.EndStream())
    case Close =>
      && x.phase == Accepted && (dir == Outbound) == !x.initiatedByLocal
      && x' == x.(localEnd := true, peerEnd := true, phase := StreamClosed)
    case _ => false
  }

  lemma ApplyIsStep(dir: Direction, x: Stream, m: Msg, connection: Connection, x': Stream)
    requires x.Apply(dir, m.h, m.context, connection) == Ok(x')
    ensures StreamStep(dir, x, m, x')
  {
  }

  predicate Established(x: Stream) { x.phase == Accepted || x.phase.Terminal() }

  /** Credit granted by `y` that `x` will still take up. A finished `x` ignores it. */
  function Usable(x: Stream, yx: seq<Msg>): nat {
    if x.phase.Terminal() then 0 else StreamGrants(yx)
  }

  /** Data flow from `x` to `y`: `xy` are the frames on the stream from `x` to `y`, `yx` the reverse. */
  ghost predicate Flow(x: Stream, y: Stream, xy: seq<Msg>, yx: seq<Msg>) {
    && StreamLanguage(xy)
    && (x.phase == Accepted ==> !HasTerminal(xy))
    && (x.phase.Terminal() && y.phase == Accepted ==> HasTerminal(xy))
    && y.receiveCredit <= y.receiveLimit == x.sendLimit
    && y.receiveCredit >= x.sendCredit + DataBytes(xy) + Usable(x, yx)
    && (x.phase == Accepted && y.phase == Accepted ==>
          y.receiveCredit == x.sendCredit + DataBytes(xy) + StreamGrants(yx))
    && (y.phase == Accepted ==>
          NoDataAfterEnd(y.peerEnd, xy) && (EndAfter(y.peerEnd, xy) ==> x.localEnd || x.phase.Terminal()))
  }

  /** Only the responder closes, once, and before any reset of its own. */
  ghost predicate Closing(i: Stream, r: Stream, ir: seq<Msg>, ri: seq<Msg>, initiatorReset: bool) {
    && !HasClose(ir)
    && (HasTerminal(ir) ==> initiatorReset)
    && (i.phase == StreamClosed ==> r.phase == StreamClosed)
    && (HasClose(ri) ==> r.phase == StreamClosed && i.phase != StreamClosed)
    && (i.phase == StreamReset && HasClose(ri) ==> initiatorReset)
  }

  ghost predicate Live(i: Stream, r: Stream, ir: seq<Msg>, ri: seq<Msg>, initiatorReset: bool) {
    && i.initiatedByLocal && !r.initiatedByLocal
    && Established(i) && Established(r)
    && Flow(i, r, ir, ri) && Flow(r, i, ri, ir)
    && Closing(i, r, ir, ri, initiatorReset)
  }

  /** The invariant of a stream seen by its initiator as `i` and by its responder as `r`. */
  ghost predicate Paired(i: Option<Stream>, r: Option<Stream>, ir: seq<Msg>, ri: seq<Msg>, initiatorReset: bool) {
    match (i, r)
    case (None, None) => ir == [] && ri == []
    case (None, Some(_)) => false
    case (Some(i), None) =>
      i == OpeningStream(true) && |ir| == 1 && ir[0].h.command.Open? && ri == []
    case (Some(i), Some(r)) =>
      match r.phase
      case Opening => i == OpeningStream(true) && r == OpeningStream(false) && ir == [] && ri == []
      case Rejected =>
        && ir == [] && i.initiatedByLocal
        && if ri == [] then i.phase == Rejected
           else i == OpeningStream(true) && |ri| == 1 && ri[0].h.command.Reject?
      case _ =>
        if i.phase == Opening then
          && i == OpeningStream(true) && ir == [] && |ri| > 0
          && ri[0].h.command.Accept? && ri[0].context.streamWindow.Some?
          && Live(i.Accept(Inbound, ri[0].context.streamWindow.value), r, [], ri[1..], initiatorReset)
        else Live(i, r, ir, ri, initiatorReset)
  }

  // ---------------------------------------------------------------- one flow, one frame

  lemma FlowSend(x: Stream, y: Stream, xy: seq<Msg>, yx: seq<Msg>, m: Msg, x': Stream)
    requires Established(x) && Established(y) && StreamStep(Outbound, x, m, x')
    requires Flow(x, y, xy, yx)
    ensures Flow(x', y, xy + [m], yx)
  {
    LanguageAppend(xy, m);
    SumsAppend(xy, m);
    EndAppend(y.peerEnd, xy, m);
    assert m in xy + [m];
    assert forall k :: k in xy + [m] <==> k in xy || k == m;
  }

  lemma FlowSendBack(x: Stream, y: Stream, xy: seq<Msg>, yx: seq<Msg>, m: Msg, y': Stream)
    requires Established(x) && Established(y) && StreamStep(Outbound, y, m, y')
    requires Flow(x, y, xy, yx) && Flow(y, x, yx, xy)
    ensures Flow(x, y', xy, yx + [m])
  {
    SumsAppend(yx, m);
  }

  lemma FlowReceive(x: Stream, y: Stream, xy: seq<Msg>, yx: seq<Msg>, y': Stream)
    requires Established(x) && Established(y) && xy != [] && StreamStep(Inbound, y, xy[0], y')
    requires Flow(x, y, xy, yx)
    ensures Flow(x, y', xy[1..], yx)
  {
    assert xy == [xy[0]] + xy[1..];
    if IsTerminal(xy[0]) { LateIsLanguage(xy[1..]); }
  }

  lemma FlowReceiveBack(x: Stream, y: Stream, xy: seq<Msg>, yx: seq<Msg>, x': Stream)
    requires Established(x) && Established(y) && yx != [] && StreamStep(Inbound, x, yx[0], x')
    requires Flow(x, y, xy, yx) && Flow(y, x, yx, xy)
    ensures Flow(x', y, xy, yx[1..])
  {
    assert yx == [yx[0]] + yx[1..];
    if IsTerminal(yx[0]) {
      assert HasTerminal(yx);
      assert y.phase != Accepted;
    }
  }

  lemma {:induction false} LateIsLanguage(c: seq<Msg>)
    requires LateLanguage(c)
    ensures StreamLanguage(c)
  {
    if c != [] { LateIsLanguage(c[1..]); }
  }

  // ---------------------------------------------------------------- the pair, one frame

  lemma LiveInitiatorSends(i: Stream, r: Stream, ir: seq<Msg>, ri: seq<Msg>, reset: bool, m: Msg, i': Stream)
    requires Live(i, r, ir, ri, reset) && StreamStep(Outbound, i, m, i')
    ensures Live(i', r, ir + [m], ri, reset || m.h.command.Reset?)
  {
    FlowSend(i, r, ir, ri, m, i');
    FlowSendBack(r, i, ri, ir, m, i');
    assert forall k :: k in ir + [m] <==> k in ir || k == m;
  }

  lemma LiveResponderSends(i: Stream, r: Stream, ir: seq<Msg>, ri: seq<Msg>, reset: bool, m: Msg, r': Stream)
    requires Live(i, r, ir, ri, reset) && StreamStep(Outbound, r, m, r')
    ensures Live(i, r', ir, ri + [m], reset)
  {
    FlowSend(r, i, ri, ir, m, r');
    FlowSendBack(i, r, ir, ri, m, r');
    assert forall k :: k in ri + [m] <==> k in ri || k == m;
  }

  lemma LiveResponderReceives(i: Stream, r: Stream, ir: seq<Msg>, ri: seq<Msg>, reset: bool, r': Stream)
    requires Live(i, r, ir, ri, reset) && ir != [] && StreamStep(Inbound, r, ir[0], r')
    ensures Live(i, r', ir[1..], ri, reset)
  {
    FlowReceive(i, r, ir, ri, r');
    FlowReceiveBack(r, i, ri, ir, r');
    assert ir == [ir[0]] + ir[1..];
  }

  lemma LiveInitiatorReceives(i: Stream, r: Stream, ir: seq<Msg>, ri: seq<Msg>, reset: bool, i': Stream)
    requires Live(i, r, ir, ri, reset) && ri != [] && StreamStep(Inbound, i, ri[0], i')
    ensures Live(i', r, ir, ri[1..], reset)
  {
    FlowReceive(r, i, ri, ir, i');
    FlowReceiveBack(i, r, ir, ri, i');
    assert ri == [ri[0]] + ri[1..];
  }

  lemma PairedInitiatorSends(i: Stream, r: Option<Stream>, ir: seq<Msg>, ri: seq<Msg>, reset: bool, m: Msg, i': Stream)
    requires Paired(Some(i), r, ir, ri, reset) && StreamStep(Outbound, i, m, i')
    ensures Paired(Some(i'), r, ir + [m], ri, reset || m.h.command.Reset?)
  {
    if r.Some? && Established(r.value) && i.phase != Opening {
      LiveInitiatorSends(i, r.value, ir, ri, reset, m, i');
    }
  }

  lemma PairedResponderSends(i: Option<Stream>, r: Stream, ir: seq<Msg>, ri: seq<Msg>, reset: bool, m: Msg, r': Stream)
    requires Paired(i, Some(r), ir, ri, reset) && StreamStep(Outbound, r, m, r')
    ensures Paired(i, Some(r'), ir, ri + [m], reset)
  {
    if Established(r) {
      if i.value.phase == Opening { AcceptedResponderSends(i.value, r, ir, ri, reset, m, r'); }
      else { LiveResponderSends(i.value, r, ir, ri, reset, m, r'); }
    } else {
      AnsweringResponderSends(i, r, ir, ri, reset, m, r');
    }
  }

  /** The acceptance is still on its way. */
  lemma AcceptedResponderSends(i: Stream, r: Stream, ir: seq<Msg>, ri: seq<Msg>, reset: bool, m: Msg, r': Stream)
    requires Paired(Some(i), Some(r), ir, ri, reset) && StreamStep(Outbound, r, m, r')
    requires Established(r) && i.phase == Opening
    ensures Paired(Some(i), Some(r'), ir, ri + [m], reset)
  {
    LiveResponderSends(i.Accept(Inbound, ri[0].context.streamWindow.value), r, [], ri[1..], reset, m, r');
    assert (ri + [m])[1..] == ri[1..] + [m];
  }

  /** The answer itself. */
  lemma AnsweringResponderSends(i: Option<Stream>, r: Stream, ir: seq<Msg>, ri: seq<Msg>, reset: bool, m: Msg,
                                r': Stream)
    requires Paired(i, Some(r), ir, ri, reset) && StreamStep(Outbound, r, m, r') && !Established(r)
    ensures Paired(i, Some(r'), ir, ri + [m], reset)
  {
    assert r.phase == Opening && ir == [] && ri == [] && ri + [m] == [m];
    if m.h.command.Accept? {
      FreshLive(m.context.streamWindow.value, ir, ri, reset);
      assert [m][1..] == ri;
    }
  }

  lemma FreshLive(window: u32, ir: seq<Msg>, ri: seq<Msg>, reset: bool)
    requires |ir| == 0 && |ri| == 0
    ensures var i, r := OpeningStream(true).Accept(Inbound, window), OpeningStream(false).Accept(Outbound, window);
      Live(i, r, ir, ri, reset)
  {
  }

  lemma PairedResponderReceives(i: Option<Stream>, r: Stream, ir: seq<Msg>, ri: seq<Msg>, reset: bool, r': Stream)
    requires Paired(i, Some(r), ir, ri, reset) && ir != [] && StreamStep(Inbound, r, ir[0], r')
    ensures Paired(i, Some(r'), ir[1..], ri, reset)
  {
    LiveResponderReceives(i.value, r, ir, ri, reset, r');
  }

  lemma PairedInitiatorReceives(i: Stream, r: Option<Stream>, ir: seq<Msg>, ri: seq<Msg>, reset: bool, i': Stream)
    requires Paired(Some(i), r, ir, ri, reset) && ri != [] && StreamStep(Inbound, i, ri[0], i')
    ensures Paired(Some(i'), r, ir, ri[1..], reset)
  {
    if r.Some? && Established(r.value) && i.phase != Opening {
      LiveInitiatorReceives(i, r.value, ir, ri, reset, i');
    }
  }

  // ---------------------------------------------------------------- what the receiver accepts

  /** The stream itself has no objection to the inbound frame `m`. */
  ghost predicate Ready(y: Stream, m: Msg) {
    match m.h.command
    case Accept => y.phase == Opening && y.initiatedByLocal && m.context.streamWindow.Some?
    case Reject => y.phase == Opening && y.initiatedByLocal
    case Credit => y.phase.Terminal() || (y.phase == Accepted && y.sendCredit + m.h.creditDelta <= y.sendLimit)
    case Reset => Established(y)
    case Data => Established(y) && m.h.payloadLength <= y.receiveCredit && (y.phase == Accepted ==> !y.peerEnd)
    case Close => y.phase == Accepted && y.initiatedByLocal
    case _ => false
  }

  lemma ReadyApplies(y: Stream, m: Msg, connection: Connection)
    requires m.h.command.Data? ==> m.h.payloadLength <= connection.receiveCredit
    ensures Ready(y, m) <==> y.Apply(Inbound, m.h, m.context, connection).Ok?
  {
  }

  lemma FlowReady(x: Stream, y: Stream, xy: seq<Msg>, yx: seq<Msg>)
    requires Established(x) && Established(y) && xy != []
    requires Flow(x, y, xy, yx) && Flow(y, x, yx, xy)
    requires !xy[0].h.command.Close?
    ensures Ready(y, xy[0])
  {
    assert xy == [xy[0]] + xy[1..];
  }

  lemma ResponderReady(i: Option<Stream>, r: Option<Stream>, ir: seq<Msg>, ri: seq<Msg>, reset: bool)
    requires Paired(i, r, ir, ri, reset) && ir != []
    ensures if ir[0].h.command.Open? then r.None? else r.Some? && Ready(r.value, ir[0])
  {
    if r.Some? {
      assert !ir[0].h.command.Close?;
      FlowReady(i.value, r.value, ir, ri);
    }
  }

  lemma InitiatorReady(i: Option<Stream>, r: Option<Stream>, ir: seq<Msg>, ri: seq<Msg>, reset: bool)
    requires Paired(i, r, ir, ri, reset) && ri != []
    ensures i.Some? && !ri[0].h.command.Open?
    ensures Ready(i.value, ri[0]) <==> !(ri[0].h.command.Close? && i.value.phase == StreamReset)
    ensures ri[0].h.command.Close? && i.value.phase == StreamReset ==> reset
  {
    if Established(r.value) && i.value.phase != Opening {
      if ri[0].h.command.Close? {
        assert HasClose(ri);
      } else {
        FlowReady(r.value, i.value, ri, ir);
      }
    }
  }
}
