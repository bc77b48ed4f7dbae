/** What the two ends of the connection, apart from its streams, keep in common. */
module LinkConnection {
  import opened Results
  import opened Wire
  import opened Session
  import opened Link

  predicate Handshaken(x: Connection) { x.localHello && x.peerHello }

  ghost predicate Handshake(x: Connection) {
    && (Handshaken(x) ==> x.phase != HelloExchange)
    && (x.OnlineOrGoing() ==> Handshaken(x))
    && (!x.localHello ==> x.receiveCredit == 0)
    && (!x.peerHello ==> x.sendCredit == 0)
  }

  /** At most one HELLO is in flight, it leads the channel, and nothing but HELLO and
      ERROR is sent before both HELLOs have been seen. */
  ghost predicate Hellos(x: Connection, y: Connection, xy: seq<Msg>) {
    && (y.peerHello ==> x.localHello && y.sendLimit == x.receiveLimit)
    && (x.localHello && !y.peerHello ==>
          xy != [] && xy[0].h.command.Hello? && xy[0].context.connectionWindow == Some(x.receiveLimit))
    && (forall k :: 0 <= k < |xy| && xy[k].h.command.Hello? ==> k == 0 && x.localHello && !y.peerHello)
    && (forall k :: 0 <= k < |xy| && !Handshaken(x) ==> xy[k].h.command.Hello? || xy[k].h.command.Error?)
  }

  /** Conservation of connection credit for the data sent by `x`. */
  ghost predicate Conserved(x: Connection, y: Connection, xy: seq<Msg>, yx: seq<Msg>) {
    && y.receiveCredit == x.sendCredit + DataBytes(xy) + ConnectionGrants(yx)
    && y.receiveCredit <= y.receiveLimit
  }

  predicate Leaving(x: Connection) { x.phase == GoingAway || x.phase == Closed }

  ghost predicate Said(c: seq<Msg>, command: Command) { exists m :: m in c && m.h.command == command }

  /** How ERROR and GOAWAY order the traffic from `x` to `y`, and who caused `y` to stop. */
  ghost predicate Shutdown(x: Connection, y: Connection, xy: seq<Msg>, ySent: seq<Msg>) {
    && (forall k :: 0 <= k < |xy| && xy[k].h.command.Error? ==> k == |xy| - 1 && x.phase == Closed)
    && (forall k :: 0 <= k < |xy| && xy[k].h.command.GoAway? ==> Leaving(x))
    && (forall j, k :: 0 <= j < k < |xy| && xy[j].h.command.GoAway? ==> !xy[k].h.command.Open?)
    && (y.phase == Closed ==> Said(ySent, Command.Error) || (xy == [] && x.phase == Closed))
    && (y.phase == GoingAway ==> Said(ySent, Command.GoAway) || (!Said(xy, Command.Open) && Leaving(x)))
  }

  ghost predicate Sequenced(x: State, y: State, xy: seq<Msg>) {
    forall id: u32 :: Numbered(Expected(y.inbound, id), OnStream(xy, id), Expected(x.outbound, id))
  }

  ghost predicate Legal(config: Config, m: Msg) {
    m.h.Validate(config.limits).Pass? && config.ValidateContext(m.h, m.context).Pass?
  }

  ghost predicate AllLegal(config: Config, c: seq<Msg>) {
    forall m :: m in c ==> Legal(config, m) && !m.h.command.PairingFinish?
  }

  /** Everything the direction from `x` to `y` keeps, `xy` in flight one way and `yx` the other. */
  ghost predicate Half(x: State, y: State, xy: seq<Msg>, yx: seq<Msg>, ySent: seq<Msg>) {
    && Handshake(x.conn)
    && (!Handshaken(x.conn) ==> x.streams == map[])
    && Hellos(x.conn, y.conn, xy)
    && Conserved(x.conn, y.conn, xy, yx)
    && Shutdown(x.conn, y.conn, xy, ySent)
    && Sequenced(x, y, xy)
    && AllLegal(y.config, xy)
  }

  // ---------------------------------------------------------------- effect of one frame

  /** Sequence numbers: the frame carries the expected one and moves it on, saturating. */
  ghost predicate Counts(dir: Direction, s: State, m: Msg, s': State) {
    && m.h.sequence == Expected(s.Sequences(dir), m.h.streamId)
    && (m.h.sequence == U32_MAX ==> m.h.command.Reset?)
    && s'.Sequences(dir) ==
       (if m.h.sequence == U32_MAX then s.Sequences(dir) else s.Sequences(dir)[m.h.streamId := m.h.sequence + 1])
    && (if dir == Inbound then s'.outbound == s.outbound else s'.inbound == s.inbound)
  }

  /** HELLO flags and session phase. */
  ghost predicate Phases(dir: Direction, c: Connection, m: Msg, c': Connection) {
    && c.phase != Closed
    && match m.h.command
       case Hello =>
         && c.phase == HelloExchange
         && (if dir == Outbound then !c.localHello && c'.localHello && c'.peerHello == c.peerHello
             else !c.peerHello && c'.peerHello && c'.localHello == c.localHello)
         && c'.phase == (if Handshaken(c') then Online else HelloExchange)
       case Error => SameHellos(c, c') && c'.phase == Closed
       case GoAway => SameHellos(c, c') && c.OnlineOrGoing() && c'.phase == GoingAway
       case Open => SameHellos(c, c') && c.phase == Online && c'.phase == Online
       case _ =>
         && SameHellos(c, c') && c'.phase == c.phase
         && (m.h.streamId == 0 ==> c.OnlineOrGoing())
  }

  ghost predicate SameHellos(c: Connection, c': Connection) {
    c'.localHello == c.localHello && c'.peerHello == c.peerHello
  }

  /** The four connection credit fields. */
  ghost predicate Accounts(dir: Direction, c: Connection, m: Msg, c': Connection) {
    if m.h.command.Hello? then
      && m.context.connectionWindow.Some?
      && var w := m.context.connectionWindow.value;
      if dir == Outbound then
        && c'.receiveCredit == w && c'.receiveLimit == w
        && c'.sendCredit == c.sendCredit && c'.sendLimit == c.sendLimit
      else
        && c'.sendCredit == w && c'.sendLimit == w
        && c'.receiveCredit == c.receiveCredit && c'.receiveLimit == c.receiveLimit
    else
      && c'.sendLimit == c.sendLimit && c'.receiveLimit == c.receiveLimit
      && if dir == Outbound then
        && c'.sendCredit == c.sendCredit - Bytes(m)
        && c'.receiveCredit == c.receiveCredit + ConnectionGrant(m)
        && (ConnectionGrant(m) > 0 ==> c'.receiveCredit <= c.receiveLimit)
      else
        && c'.receiveCredit == c.receiveCredit - Bytes(m)
        && c'.sendCredit == c.sendCredit + ConnectionGrant(m)
  }

  /** Everything a processed frame does outside the stream it names. */
  ghost predicate Effect(dir: Direction, s: State, m: Msg, s': State) {
    && s'.config == s.config && Legal(s.config, m) && !m.h.command.PairingFinish?
    && Counts(dir, s, m, s')
    && Phases(dir, s.conn, m, s'.conn)
    && Accounts(dir, s.conn, m, s'.conn)
    && (m.h.streamId == 0 ==> s'.streams == s.streams)
    && (m.h.streamId == 0 || m.h.command.Open? || m.h.streamId in s.streams)
  }

  lemma ControlEffect(dir: Direction, c: Connection, m: Msg, c': Connection)
    requires c.ApplyControl(dir, m.h, m.context, false) == Ok(c')
    requires m.h.streamId == 0 && c.phase != Closed
    ensures Phases(dir, c, m, c') && Accounts(dir, c, m, c') && !m.h.command.PairingFinish?
  {
    match m.h.command
    case Hello => HelloEffect(dir, c, m, c');
    case Credit => GrantEffect(dir, c, m, c');
    case _ =>
  }

  lemma HelloEffect(dir: Direction, c: Connection, m: Msg, c': Connection)
    requires c.ApplyHello(dir, m.context) == Ok(c') && m.h.command.Hello? && c.phase != Closed
    ensures Phases(dir, c, m, c') && Accounts(dir, c, m, c')
  {
  }

  lemma GrantEffect(dir: Direction, c: Connection, m: Msg, c': Connection)
    requires c.ApplyCredit(dir, m.h) == Ok(c') && m.h.command.Credit? && m.h.streamId == 0 && c.phase != Closed
    ensures Phases(dir, c, m, c') && Accounts(dir, c, m, c')
  {
  }

  lemma StreamEffect(dir: Direction, s: State, m: Msg, x: Stream)
    requires s.conn.phase != Closed && m.h.streamId != 0 && !m.h.command.Open?
    requires x.Apply(dir, m.h, m.context, s.conn).Ok?
    ensures Phases(dir, s.conn, m, s.Charge(dir, m.h)) && Accounts(dir, s.conn, m, s.Charge(dir, m.h))
    ensures !m.h.command.PairingFinish?
  {
  }

  lemma ApplyEffect(dir: Direction, s: State, m: Msg, s': State)
    requires !s.config.pairing && s.Apply(dir, m.h, m.context) == Ok(s') && s.conn.phase != Closed
    ensures Phases(dir, s.conn, m, s'.conn) && Accounts(dir, s.conn, m, s'.conn)
    ensures s'.config == s.config && s'.inbound == s.inbound && s'.outbound == s.outbound
    ensures m.h.streamId == 0 ==> s'.streams == s.streams
    ensures m.h.streamId == 0 || m.h.command.Open? || m.h.streamId in s.streams
    ensures !m.h.command.PairingFinish?
  {
    if m.h.streamId == 0 {
      ControlEffect(dir, s.conn, m, s'.conn);
    } else if !m.h.command.Open? {
      StreamEffect(dir, s, m, s.streams[m.h.streamId]);
    }
  }

  lemma ProcessIsApply(dir: Direction, s: State, m: Msg)
    ensures s.Process(dir, m.h, m.context).Ok? <==>
      && Legal(s.config, m) && s.conn.phase != Closed
      && s.ValidateSequence(dir, m.h).Pass? && s.Apply(dir, m.h, m.context).Ok?
    ensures s.Process(dir, m.h, m.context).Ok? ==>
      s.Process(dir, m.h, m.context).value == s.Apply(dir, m.h, m.context).value.AdvanceSequence(dir, m.h)
  {
  }

  lemma ProcessEffect(dir: Direction, s: State, m: Msg, s': State)
    requires !s.config.pairing && s.Process(dir, m.h, m.context) == Ok(s')
    ensures Effect(dir, s, m, s')
  {
    ProcessIsApply(dir, s, m);
    ApplyEffect(dir, s, m, s.Apply(dir, m.h, m.context).value);
  }

  // ---------------------------------------------------------------- sending

  predicate Opens(c: seq<Msg>) { c != [] && (c[0].h.command.Hello? || c[0].h.command.Error?) }

  /** An end that has not said HELLO and is not closed has nothing in flight. */
  lemma SilentBeforeHello(x: Connection, y: Connection, xy: seq<Msg>, ySent: seq<Msg>)
    requires Hellos(x, y, xy) && Shutdown(x, y, xy, ySent) && !x.localHello && x.phase != Closed
    ensures xy == []
  {
    assert xy != [] ==> Opens(xy);
  }

  lemma SendHandshake(x: Connection, y: Connection, xy: seq<Msg>, yx: seq<Msg>, ySent: seq<Msg>, m: Msg, x': Connection)
    requires Phases(Outbound, x, m, x') && Accounts(Outbound, x, m, x') && Shutdown(x, y, xy, ySent)
    requires m.h.command.Hello? || m.h.command.Error? || Handshaken(x)
    requires Handshake(x) && Hellos(x, y, xy) && Hellos(y, x, yx)
    ensures Handshake(x') && Hellos(x', y, xy + [m]) && Hellos(y, x', yx)
  {
    if m.h.command.Hello? {
      SilentBeforeHello(x, y, xy, ySent);
    }
  }

  lemma SendConserved(x: Connection, y: Connection, xy: seq<Msg>, yx: seq<Msg>, m: Msg, x': Connection)
    requires Phases(Outbound, x, m, x') && Accounts(Outbound, x, m, x') && Handshake(x)
    requires Conserved(x, y, xy, yx) && Conserved(y, x, yx, xy)
    ensures Conserved(x', y, xy + [m], yx) && Conserved(y, x', yx, xy + [m])
  {
    SumsAppend(xy, m);
  }

  lemma SendShutdown(x: Connection, y: Connection, xy: seq<Msg>, yx: seq<Msg>, xSent: seq<Msg>, ySent: seq<Msg>,
                     m: Msg, x': Connection)
    requires Phases(Outbound, x, m, x')
    requires Shutdown(x, y, xy, ySent) && Shutdown(y, x, yx, xSent)
    ensures Shutdown(x', y, xy + [m], ySent) && Shutdown(y, x', yx, xSent + [m])
  {
    assert m in xSent + [m];
    assert forall k :: k in xSent ==> k in xSent + [m];
    assert forall k :: k in xy + [m] <==> k in xy || k == m;
  }

  lemma SendSequenced(x: State, y: State, xy: seq<Msg>, yx: seq<Msg>, m: Msg, x': State)
    requires Counts(Outbound, x, m, x')
    requires Sequenced(x, y, xy) && Sequenced(y, x, yx)
    ensures Sequenced(x', y, xy + [m]) && Sequenced(y, x', yx)
  {
    forall id: u32
      ensures Numbered(Expected(y.inbound, id), OnStream(xy + [m], id), Expected(x'.outbound, id))
    {
      OnStreamAppend(xy, m, id);
      if id == m.h.streamId {
        NumberedAppend(Expected(y.inbound, id), OnStream(xy, id), Expected(x.outbound, id), m);
      } else {
        assert OnStream(xy + [m], id) == OnStream(xy, id);
      }
    }
  }

  /** Legality depends on the limits only, which both ends share. */
  lemma SendLegal(x: Config, y: Config, xy: seq<Msg>, m: Msg)
    requires x.limits == y.limits && Legal(x, m) && !m.h.command.PairingFinish? && AllLegal(y, xy)
    ensures AllLegal(y, xy + [m])
  {
  }

  lemma SendHalves(x: State, y: State, xy: seq<Msg>, yx: seq<Msg>, xSent: seq<Msg>, ySent: seq<Msg>, m: Msg, x': State)
    requires Regular(x, y) && Effect(Outbound, x, m, x')
    requires Half(x, y, xy, yx, ySent) && Half(y, x, yx, xy, xSent)
    ensures Regular(x', y) && Half(x', y, xy + [m], yx, ySent) && Half(y, x', yx, xy + [m], xSent + [m])
  {
    SendHandshake(x.conn, y.conn, xy, yx, ySent, m, x'.conn);
    SendConserved(x.conn, y.conn, xy, yx, m, x'.conn);
    SendShutdown(x.conn, y.conn, xy, yx, xSent, ySent, m, x'.conn);
    SendSequenced(x, y, xy, yx, m, x');
    SendLegal(x.config, y.config, xy, m);
  }

  // ---------------------------------------------------------------- receiving

  lemma ReceiveHandshake(x: Connection, y: Connection, xy: seq<Msg>, yx: seq<Msg>, y': Connection)
    requires xy != [] && Phases(Inbound, y, xy[0], y') && Accounts(Inbound, y, xy[0], y')
    requires Handshake(y) && Hellos(x, y, xy) && Hellos(y, x, yx)
    ensures Handshake(y') && Hellos(x, y', xy[1..]) && Hellos(y', x, yx)
  {
  }

  lemma ReceiveConserved(x: Connection, y: Connection, xy: seq<Msg>, yx: seq<Msg>, y': Connection)
    requires xy != [] && Phases(Inbound, y, xy[0], y') && Accounts(Inbound, y, xy[0], y')
    requires Handshake(y)
    requires Conserved(x, y, xy, yx) && Conserved(y, x, yx, xy)
    ensures Conserved(x, y', xy[1..], yx) && Conserved(y', x, yx, xy[1..])
  {
  }

  lemma ReceiveShutdown(x: Connection, y: Connection, xy: seq<Msg>, yx: seq<Msg>, xSent: seq<Msg>, ySent: seq<Msg>,
                        y': Connection)
    requires xy != [] && Phases(Inbound, y, xy[0], y')
    requires Shutdown(x, y, xy, ySent) && Shutdown(y, x, yx, xSent)
    ensures Shutdown(x, y', xy[1..], ySent) && Shutdown(y', x, yx, xSent)
  {
    assert xy == [xy[0]] + xy[1..];
  }

  lemma ReceiveSequenced(x: State, y: State, xy: seq<Msg>, yx: seq<Msg>, y': State)
    requires xy != [] && Counts(Inbound, y, xy[0], y')
    requires Sequenced(x, y, xy) && Sequenced(y, x, yx)
    ensures Sequenced(x, y', xy[1..]) && Sequenced(y', x, yx)
  {
    var m := xy[0];
    forall id: u32
      ensures Numbered(Expected(y'.inbound, id), OnStream(xy[1..], id), Expected(x.outbound, id))
    {
      assert Numbered(Expected(y.inbound, id), OnStream(xy, id), Expected(x.outbound, id));
      if id == m.h.streamId {
        assert OnStream(xy, id) == [m] + OnStream(xy[1..], id);
        assert OnStream(xy, id)[1..] == OnStream(xy[1..], id);
        assert Expected(y'.inbound, id) == NextSequence(m.h.sequence);
      } else {
        assert OnStream(xy, id) == OnStream(xy[1..], id);
      }
    }
  }

  lemma ReceiveHalves(x: State, y: State, xy: seq<Msg>, yx: seq<Msg>, xSent: seq<Msg>, ySent: seq<Msg>, y': State)
    requires Regular(x, y) && xy != [] && Effect(Inbound, y, xy[0], y')
    requires Half(x, y, xy, yx, ySent) && Half(y, x, yx, xy, xSent)
    ensures Regular(x, y') && Half(x, y', xy[1..], yx, ySent) && Half(y', x, yx, xy[1..], xSent)
  {
    ReceiveHandshake(x.conn, y.conn, xy, yx, y'.conn);
    ReceiveConserved(x.conn, y.conn, xy, yx, y'.conn);
    ReceiveShutdown(x.conn, y.conn, xy, yx, xSent, ySent, y'.conn);
    ReceiveSequenced(x, y, xy, yx, y');
    assert forall m :: m in xy[1..] ==> m in xy;
  }
}
