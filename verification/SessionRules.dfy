/** Which frames a session accepts, in either direction, stated by header, window metadata, phase,
    numbers, parity and credit alone. */
module SessionRules {
  import opened Results
  import opened Wire
  import opened Session

  // ---------------------------------------------------------------- headers

  const CONTROL_COMMANDS: set<Command> := {Hello, PairingFinish, Credit, Ping, Pong, GoAway, Command.Error}
  const STREAM_COMMANDS: set<Command> :=
    {Command.Open, Command.Accept, Command.Reject, Data, Credit, Command.Close, Command.Reset}

  /** The headers of protocol version 1: no reserved bit, END_STREAM on DATA only, a credit on
      CREDIT only, and a stream id where the command belongs to a stream. */
  ghost predicate WellFormed(h: Header, limits: DecodeLimits) {
    && h.major == PROTOCOL_MAJOR && h.reserved == 0 && h.payloadLength <= limits.maxPayload
    && (exists optional :: 0 <= optional < 0x1_0000 && Flags(h, optional))
    && (if h.command == Credit then h.payloadLength == 0 && 1 <= h.creditDelta <= limits.maxWindow
        else h.creditDelta == 0)
    && h.command in (if h.streamId == 0 then CONTROL_COMMANDS else STREAM_COMMANDS)
  }

  /** Bit 0 is set on DATA at most; the other flags are above bit 15. */
  predicate Flags(h: Header, optional: nat) {
    h.flags == optional * 0x1_0000 || (h.command == Data && h.flags == optional * 0x1_0000 + 1)
  }

  lemma FlagWord(h: Header)
    ensures (exists optional :: 0 <= optional < 0x1_0000 && Flags(h, optional)) <==>
      h.UnknownCritical() == 0 && (h.EndStream() ==> h.command == Data)
  {
    var high, low := h.flags / 0x1_0000, h.flags % 0x1_0000;
    LowBits(high, low);
    if h.UnknownCritical() == 0 && (h.EndStream() ==> h.command == Data) {
      assert Flags(h, high);
    }
    if optional :| 0 <= optional < 0x1_0000 && Flags(h, optional) {
      LowBits(optional, 0);
      LowBits(optional, 1);
    }
  }

  lemma LowBits(high: nat, low: nat)
    requires low < 0x1_0000
    ensures (high * 0x1_0000 + low) % 0x1_0000 == low && (high * 0x1_0000 + low) % 2 == low % 2
  {
    Remainder(high * 0x1_0000 + low, 0x1_0000, high, low);
    Remainder(low, 2, low / 2, low % 2);
    Remainder(high * 0x1_0000 + low, 2, high * 0x8000 + low / 2, low % 2);
  }

  lemma Remainder(x: nat, d: nat, q: nat, r: nat)
    requires d > 0 && x == d * q + r && r < d
    ensures x % d == r
  {
    var p := x / d;
    assert x == d * p + x % d;
    if p > q { Scaled(d, q + 1, p); }
    if p < q { Scaled(d, p + 1, q); }
  }

  lemma Scaled(d: nat, a: nat, b: nat)
    requires a <= b
    ensures d * a <= d * b
  {
  }

  /** The stateless check passes exactly the well-formed headers. */
  lemma PassesIffWellFormed(h: Header, limits: DecodeLimits)
    ensures h.Validate(limits).Pass? <==> WellFormed(h, limits)
  {
    FlagWord(h);
  }

  // ---------------------------------------------------------------- windows and numbers

  predicate WindowOk(window: Option<u32>, maximum: u32) { window.Some? ==> 1 <= window.value <= maximum }

  /** HELLO comes with a connection window, ACCEPT with a stream window, nothing else with either. */
  predicate WindowsOk(h: Header, context: FrameContext, maximum: u32) {
    && (context.connectionWindow.Some? <==> h.command == Hello) && WindowOk(context.connectionWindow, maximum)
    && (context.streamWindow.Some? <==> h.command == Command.Accept) && WindowOk(context.streamWindow, maximum)
  }

  lemma ContextIffWindows(config: Config, h: Header, context: FrameContext)
    ensures config.ValidateContext(h, context).Pass? <==> WindowsOk(h, context, config.limits.maxWindow)
  {
  }

  /** The expected number; the last one is for RESET only. */
  predicate Numbered(s: State, dir: Direction, h: Header) {
    h.sequence == Expected(s.Sequences(dir), h.streamId) && (h.sequence < U32_MAX || h.command == Command.Reset)
  }

  // ---------------------------------------------------------------- what each command needs

  /** Only the end that was asked answers or closes. */
  predicate Answers(x: Stream, dir: Direction) { if dir == Outbound then !x.initiatedByLocal else x.initiatedByLocal }

  /** Connection level. `mine` is what this direction of the session already did. */
  predicate ControlAllowed(c: Connection, pairing: bool, dir: Direction, h: Header) {
    match h.command
    case Hello => c.phase == HelloExchange && !(if dir == Outbound then c.localHello else c.peerHello)
    case PairingFinish =>
      pairing && c.phase == HelloExchange && !(if dir == Outbound then c.localPairingFinish else c.peerPairingFinish)
    case Credit =>
      && (c.phase == Online || c.phase == GoingAway)
      && if dir == Outbound then c.receiveCredit + h.creditDelta <= c.receiveLimit
         else c.sendCredit + h.creditDelta <= c.sendLimit
    case Error => true
    case _ => c.phase == Online || c.phase == GoingAway
  }

  /** OPEN: online, an id of the opener's parity, never used before. */
  predicate OpenAllowed(s: State, dir: Direction, id: u32) {
    && s.conn.phase == Online && id !in s.streams
    && (id % 2 == 1 <==> (dir == Outbound <==> s.config.role == Host))
  }

  /** DATA: within both credits; sent only while the stream is accepted and not ended, received
      also once it is finished. */
  predicate DataAllowed(x: Stream, c: Connection, dir: Direction, length: u32) {
    if dir == Outbound then
      x.phase == Accepted && !x.localEnd && length <= x.sendCredit && length <= c.sendCredit
    else
      && ((x.phase == Accepted && !x.peerEnd) || x.phase == StreamClosed || x.phase == StreamReset)
      && length <= x.receiveCredit && length <= c.receiveCredit
  }

  predicate StreamAllowed(x: Stream, c: Connection, dir: Direction, h: Header) {
    match h.command
    case Accept => x.phase == Opening && Answers(x, dir)
    case Reject => x.phase == Opening && Answers(x, dir)
    case Data => DataAllowed(x, c, dir, h.payloadLength)
    case Credit =>
      || x.phase == StreamClosed || x.phase == StreamReset
      || (x.phase == Accepted && if dir == Outbound then x.receiveCredit + h.creditDelta <= x.receiveLimit
                                 else x.sendCredit + h.creditDelta <= x.sendLimit)
    case Reset => x.phase == Accepted || x.phase == StreamClosed || x.phase == StreamReset
    case Close => x.phase == Accepted && Answers(x, dir)
    case _ => false
  }

  predicate Allowed(s: State, dir: Direction, h: Header) {
    if h.streamId == 0 then ControlAllowed(s.conn, s.config.pairing, dir, h)
    else if h.command == Command.Open then OpenAllowed(s, dir, h.streamId)
    else h.streamId in s.streams && StreamAllowed(s.streams[h.streamId], s.conn, dir, h)
  }

  lemma ControlIffAllowed(c: Connection, pairing: bool, dir: Direction, h: Header, context: FrameContext, maximum: u32)
    requires h.command in CONTROL_COMMANDS && WindowsOk(h, context, maximum)
    ensures c.ApplyControl(dir, h, context, pairing).Ok? <==> ControlAllowed(c, pairing, dir, h)
  {
  }

  lemma StreamIffAllowed(x: Stream, c: Connection, dir: Direction, h: Header, context: FrameContext, maximum: u32)
    requires h.command in STREAM_COMMANDS && h.command != Command.Open && WindowsOk(h, context, maximum)
    ensures x.Apply(dir, h, context, c).Ok? <==> StreamAllowed(x, c, dir, h)
  {
  }

  lemma ApplyIffAllowed(s: State, dir: Direction, h: Header, context: FrameContext)
    requires WellFormed(h, s.config.limits) && WindowsOk(h, context, s.config.limits.maxWindow)
    ensures s.Apply(dir, h, context).Ok? <==> Allowed(s, dir, h)
  {
    if h.streamId == 0 {
      ControlIffAllowed(s.conn, s.config.pairing, dir, h, context, s.config.limits.maxWindow);
    } else if h.command != Command.Open && h.streamId in s.streams {
      StreamIffAllowed(s.streams[h.streamId], s.conn, dir, h, context, s.config.limits.maxWindow);
    }
  }

  /** A frame, sent or received, is accepted if and only if the session is not closed, header and
      windows are right, the number is the expected one, and the command is allowed. */
  lemma AcceptedIff(s: State, dir: Direction, h: Header, context: FrameContext)
    ensures s.Process(dir, h, context).Ok? <==>
      && s.conn.phase != Closed && WellFormed(h, s.config.limits)
      && WindowsOk(h, context, s.config.limits.maxWindow) && Numbered(s, dir, h) && Allowed(s, dir, h)
  {
    PassesIffWellFormed(h, s.config.limits);
    ContextIffWindows(s.config, h, context);
    if WellFormed(h, s.config.limits) && WindowsOk(h, context, s.config.limits.maxWindow) {
      ApplyIffAllowed(s, dir, h, context);
    }
  }

  /** DATA to be sent: accepted exactly when the session is open, the number is right, the stream is
      accepted and not ended, and the length is within payload limit and both credits. */
  lemma DataSentIff(s: State, id: u32, sequence: u32, length: u32, end: bool)
    requires id != 0
    ensures var h := NewHeader(Data, id, sequence).(flags := if end then 1 else 0, payloadLength := length);
      s.Process(Outbound, h, NoContext).Ok? <==>
      && s.conn.phase != Closed && length <= s.config.limits.maxPayload
      && sequence == Expected(s.outbound, id) && sequence < U32_MAX
      && id in s.streams && s.streams[id].phase == Accepted && !s.streams[id].localEnd
      && length <= s.streams[id].sendCredit && length <= s.conn.sendCredit
  {
    var h := NewHeader(Data, id, sequence).(flags := if end then 1 else 0, payloadLength := length);
    assert Flags(h, 0);
    AcceptedIff(s, Outbound, h, NoContext);
  }

  /** The reason given when it is not: the stream, its end, its credit, or that of the connection. */
  lemma DataRefusedFor(s: State, id: u32, length: u32, end: bool)
    requires id in s.streams && id != 0 && s.conn.phase != Closed && length <= s.config.limits.maxPayload
    requires Expected(s.outbound, id) < U32_MAX
    ensures var x, c := s.streams[id], s.conn.sendCredit;
      var h := NewHeader(Data, id, Expected(s.outbound, id)).(flags := if end then 1 else 0, payloadLength := length);
      var r := s.Process(Outbound, h, NoContext);
      && (r == Err(StreamNotAccepted(id)) <==> x.phase != Accepted)
      && (r == Err(DataAfterEnd(id)) <==> x.phase == Accepted && x.localEnd)
      && (r == Err(SendCreditExceeded(id, length, x.sendCredit)) <==>
            x.phase == Accepted && !x.localEnd && length > x.sendCredit)
      && (r == Err(ConnectionSendCreditExceeded(length, c)) <==>
            x.phase == Accepted && !x.localEnd && c < length <= x.sendCredit)
  {
    var h := NewHeader(Data, id, Expected(s.outbound, id)).(flags := if end then 1 else 0, payloadLength := length);
    assert Flags(h, 0);
    AcceptedIff(s, Outbound, h, NoContext);
    PassesIffWellFormed(h, s.config.limits);
  }
}
