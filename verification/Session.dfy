/** The session validator of one KBP endpoint, as a value and its transition function. */
module Session {
  import opened Results
  import opened Wire

  datatype Role = Host | Device {
    predicate LocalStreamsAreOdd() { Host? }
    function Peer(): Role { if Host? then Device else Host }
  }

  datatype Direction = Inbound | Outbound

  datatype Phase = HelloExchange | Online | GoingAway | Closed

  datatype StreamPhase = Opening | Accepted | Rejected | StreamClosed | StreamReset {
    /** CLOSE or RESET has completed the stream. */
    predicate Terminal() { StreamClosed? || StreamReset? }
  }

  datatype FrameContext = FrameContext(connectionWindow: Option<u32>, streamWindow: Option<u32>)

  const NoContext := FrameContext(None, None)

  datatype ProtocolError =
    | WireFault(wire: WireError)
    | UnexpectedCommand(phase: Phase, command: Command, streamId: u32)
    | SequenceMismatch(streamId: u32, expected: u32, actual: u32)
    | SequenceExhausted(streamId: u32)
    | WrongStreamParity(streamId: u32, expectedOdd: bool)
    | StreamAlreadyUsed(streamId: u32)
    | UnknownStream(streamId: u32)
    | StreamNotOpening(streamId: u32)
    | StreamNotAccepted(streamId: u32)
    | WrongOpeningResponder(streamId: u32)
    | CloseByInitiator(streamId: u32)
    | DataAfterEnd(streamId: u32)
    | SendCreditExceeded(streamId: u32, needed: u32, available: u32)
    | ReceiveCreditExceeded(streamId: u32, needed: u32, available: u32)
    | ConnectionSendCreditExceeded(needed: u32, available: u32)
    | ConnectionReceiveCreditExceeded(needed: u32, available: u32)
    | CreditOverflow(streamId: u32, current: u32, delta: u32, maximum: u32)
    | MissingConnectionWindow
    | MissingStreamWindow(streamId: u32)
    | UnexpectedConnectionWindow(command: Command)
    | UnexpectedStreamWindow(command: Command)
    | InvalidWindow(window: u32, maximum: u32)
    | PairingFinishOnRegularSession
    | DuplicateHello
    | DuplicatePairingFinish
    | StreamIdExhausted

  /** `checked_add` bounded by the advertised window. */
  function CheckedCredit(streamId: u32, current: u32, delta: u32, maximum: u32): Result<u32, ProtocolError> {
    if current + delta <= maximum then Ok(current + delta)
    else Err(CreditOverflow(streamId, current, delta, maximum))
  }

  /** `checked_add(2)`. */
  function NextStreamId(id: u32): Option<u32> {
    if id + 2 <= U32_MAX then Some(id + 2) else None
  }

  function Expected(sequences: map<u32, u32>, streamId: u32): u32 {
    if streamId in sequences then sequences[streamId] else 0
  }

  /** The session-wide part of the state: phase, HELLO flags and connection credit. */
  datatype Connection = Connection(
    phase: Phase, localHello: bool, peerHello: bool, localPairingFinish: bool, peerPairingFinish: bool,
    sendCredit: u32, sendLimit: u32, receiveCredit: u32, receiveLimit: u32)
  {
    predicate OnlineOrGoing() { phase == Online || phase == GoingAway }

    function Unexpected(h: Header): ProtocolError {
      UnexpectedCommand(phase, h.command, h.streamId)
    }

    function ApplyHello(dir: Direction, context: FrameContext): Result<Connection, ProtocolError> {
      if phase != HelloExchange then Err(DuplicateHello)
      else if context.connectionWindow.None? then Err(MissingConnectionWindow)
      else if (if dir == Outbound then localHello else peerHello) then Err(DuplicateHello)
      else
        var window := context.connectionWindow.value;
        var c := if dir == Outbound
                 then this.(localHello := true, receiveCredit := window, receiveLimit := window)
                 else this.(peerHello := true, sendCredit := window, sendLimit := window);
        Ok(if c.localHello && c.peerHello then c.(phase := Online) else c)
    }

    function ApplyPairingFinish(dir: Direction, pairing: bool): Result<Connection, ProtocolError> {
      if !pairing then Err(PairingFinishOnRegularSession)
      else if phase != HelloExchange then Err(DuplicatePairingFinish)
      else if (if dir == Outbound then localPairingFinish else peerPairingFinish) then Err(DuplicatePairingFinish)
      else Ok(if dir == Outbound then this.(localPairingFinish := true) else this.(peerPairingFinish := true))
    }

    function ApplyCredit(dir: Direction, h: Header): Result<Connection, ProtocolError> {
      if !OnlineOrGoing() then Err(Unexpected(h))
      else if dir == Inbound then
        var credit :- CheckedCredit(0, sendCredit, h.creditDelta, sendLimit);
        Ok(this.(sendCredit := credit))
      else
        var credit :- CheckedCredit(0, receiveCredit, h.creditDelta, receiveLimit);
        Ok(this.(receiveCredit := credit))
    }

    function ApplyControl(dir: Direction, h: Header, context: FrameContext, pairing: bool)
      : Result<Connection, ProtocolError>
    {
      match h.command
      case Hello => ApplyHello(dir, context)
      case PairingFinish => ApplyPairingFinish(dir, pairing)
      case Credit => ApplyCredit(dir, h)
      case Ping => if OnlineOrGoing() then Ok(this) else Err(Unexpected(h))
      case Pong => if OnlineOrGoing() then Ok(this) else Err(Unexpected(h))
      case GoAway => if OnlineOrGoing() then Ok(this.(phase := GoingAway)) else Err(Unexpected(h))
      case Error => Ok(this.(phase := Closed))
      case _ => Err(Unexpected(h))
    }
  }

  datatype Stream = Stream(
    phase: StreamPhase, initiatedByLocal: bool, localEnd: bool, peerEnd: bool,
    sendCredit: u32, sendLimit: u32, receiveCredit: u32, receiveLimit: u32)
  {
    function ApplyOpenResponse(dir: Direction, h: Header, context: FrameContext): Result<Stream, ProtocolError> {
      if phase != Opening then Err(StreamNotOpening(h.streamId))
      else if (dir == Outbound) != !initiatedByLocal then Err(WrongOpeningResponder(h.streamId))
      else if h.command == Command.Reject then Ok(this.(phase := Rejected))
      else if context.streamWindow.None? then Err(MissingStreamWindow(h.streamId))
      else Ok(Accept(dir, context.streamWindow.value))
    }

    /** ACCEPT grants its window to the initiator: to the local one when it comes from the peer. */
    function Accept(dir: Direction, window: u32): Stream {
      var accepted := this.(phase := Accepted, sendLimit := window, receiveLimit := window);
      if dir == Inbound then accepted.(sendCredit := window) else accepted.(receiveCredit := window)
    }

    function ApplyCredit(dir: Direction, h: Header): Result<Stream, ProtocolError> {
      // Late credit for a finished stream is harmless and ignored.
      if phase.Terminal() then Ok(this)
      else if phase != Accepted then Err(StreamNotAccepted(h.streamId))
      else if dir == Inbound then
        var credit :- CheckedCredit(h.streamId, sendCredit, h.creditDelta, sendLimit);
        Ok(this.(sendCredit := credit))
      else
        var credit :- CheckedCredit(h.streamId, receiveCredit, h.creditDelta, receiveLimit);
        Ok(this.(receiveCredit := credit))
    }

    function ApplyReset(h: Header): Result<Stream, ProtocolError> {
      // A late duplicate reset is idempotent.
      if phase.Terminal() then Ok(this)
      else if phase != Accepted then Err(StreamNotAccepted(h.streamId))
      else Ok(this.(phase := StreamReset))
    }

    function ApplyClose(dir: Direction, h: Header): Result<Stream, ProtocolError> {
      if phase != Accepted then Err(StreamNotAccepted(h.streamId))
      else if (dir == Outbound) != !initiatedByLocal then Err(CloseByInitiator(h.streamId))
      else Ok(this.(localEnd := true, peerEnd := true, phase := StreamClosed))
    }

    /** DATA, against this stream's credit and the credit left on the connection. */
    function ApplyData(dir: Direction, h: Header, connectionCredit: u32): Result<Stream, ProtocolError> {
      var length := h.payloadLength;
      if dir == Outbound then
        if phase != Accepted then Err(StreamNotAccepted(h.streamId))
        else if localEnd then Err(DataAfterEnd(h.streamId))
        else if length > sendCredit then Err(SendCreditExceeded(h.streamId, length, sendCredit))
        else if length > connectionCredit then Err(ConnectionSendCreditExceeded(length, connectionCredit))
        else Ok(this.(sendCredit := sendCredit - length, localEnd := h.EndStream()))
      else
        // In-flight input to a finished stream is charged but not delivered.
        var discarded := phase.Terminal();
        if !discarded && phase != Accepted then Err(StreamNotAccepted(h.streamId))
        else if !discarded && peerEnd then Err(DataAfterEnd(h.streamId))
        else if length > receiveCredit then Err(ReceiveCreditExceeded(h.streamId, length, receiveCredit))
        else if length > connectionCredit then Err(ConnectionReceiveCreditExceeded(length, connectionCredit))
        else Ok(this.(receiveCredit := receiveCredit - length, peerEnd := if discarded then peerEnd else h.EndStream()))
    }

    /** The stream's own part of any frame but OPEN. */
    function Apply(dir: Direction, h: Header, context: FrameContext, connection: Connection)
      : Result<Stream, ProtocolError>
    {
      match h.command
      case Accept => ApplyOpenResponse(dir, h, context)
      case Reject => ApplyOpenResponse(dir, h, context)
      case Credit => ApplyCredit(dir, h)
      case Reset => ApplyReset(h)
      case Data => ApplyData(dir, h, if dir == Outbound then connection.sendCredit else connection.receiveCredit)
      case Close => ApplyClose(dir, h)
      case _ => Err(connection.Unexpected(h))
    }
  }

  function OpeningStream(initiatedByLocal: bool): Stream {
    Stream(Opening, initiatedByLocal, false, false, 0, 0, 0, 0)
  }

  datatype Config = Config(role: Role, pairing: bool, limits: DecodeLimits) {
    function ValidateWindow(window: u32): Check<ProtocolError> {
      if window == 0 || window > limits.maxWindow then Fail(InvalidWindow(window, limits.maxWindow)) else Pass
    }

    function ValidateContext(h: Header, context: FrameContext): Check<ProtocolError> {
      match h.command
      case Hello =>
        if context.streamWindow.Some? then Fail(UnexpectedStreamWindow(h.command))
        else if context.connectionWindow.None? then Fail(MissingConnectionWindow)
        else ValidateWindow(context.connectionWindow.value)
      case Accept =>
        if context.connectionWindow.Some? then Fail(UnexpectedConnectionWindow(h.command))
        else if context.streamWindow.None? then Fail(MissingStreamWindow(h.streamId))
        else ValidateWindow(context.streamWindow.value)
      case _ =>
        if context.connectionWindow.Some? then Fail(UnexpectedConnectionWindow(h.command))
        else if context.streamWindow.Some? then Fail(UnexpectedStreamWindow(h.command))
        else Pass
    }
  }

  datatype State = State(
    config: Config, conn: Connection, nextLocalStreamId: Option<u32>,
    inbound: map<u32, u32>, outbound: map<u32, u32>, streams: map<u32, Stream>)
  {
    function Sequences(dir: Direction): map<u32, u32> {
      if dir == Inbound then inbound else outbound
    }

    function Stream(id: u32): Option<Stream> {
      if id in streams then Some(streams[id]) else None
    }

    function ValidateSequence(dir: Direction, h: Header): Check<ProtocolError> {
      var expected := Expected(Sequences(dir), h.streamId);
      if h.sequence != expected then Fail(SequenceMismatch(h.streamId, expected, h.sequence))
      else if h.sequence == U32_MAX && h.command != Command.Reset then Fail(SequenceExhausted(h.streamId))
      else Pass
    }

    function AdvanceSequence(dir: Direction, h: Header): State {
      if h.sequence == U32_MAX then this
      else if dir == Inbound then this.(inbound := inbound[h.streamId := h.sequence + 1])
      else this.(outbound := outbound[h.streamId := h.sequence + 1])
    }

    function ApplyControl(dir: Direction, h: Header, context: FrameContext): Result<State, ProtocolError> {
      var c :- conn.ApplyControl(dir, h, context, config.pairing);
      Ok(this.(conn := c))
    }

    function ApplyOpen(dir: Direction, h: Header): Result<State, ProtocolError> {
      var expectedOdd := (dir == Outbound) == config.role.LocalStreamsAreOdd();
      if conn.phase != Online then Err(conn.Unexpected(h))
      else if (h.streamId % 2 == 1) != expectedOdd then Err(WrongStreamParity(h.streamId, expectedOdd))
      else if h.streamId in streams then Err(StreamAlreadyUsed(h.streamId))
      else
        var s := this.(streams := streams[h.streamId := OpeningStream(dir == Outbound)]);
        Ok(if dir == Outbound && nextLocalStreamId.Some? && h.streamId >= nextLocalStreamId.value
           then s.(nextLocalStreamId := NextStreamId(h.streamId)) else s)
    }

    function ApplyStream(dir: Direction, h: Header, context: FrameContext): Result<State, ProtocolError> {
      if h.streamId !in streams then Err(UnknownStream(h.streamId))
      else
        var stream :- streams[h.streamId].Apply(dir, h, context, conn);
        Ok(this.(streams := streams[h.streamId := stream], conn := Charge(dir, h)))
    }

    /** Connection credit left after a frame whose DATA bytes the stream accepted. */
    function Charge(dir: Direction, h: Header): Connection {
      if h.command != Command.Data then conn
      else if dir == Outbound then
        if h.payloadLength <= conn.sendCredit then conn.(sendCredit := conn.sendCredit - h.payloadLength) else conn
      else
        if h.payloadLength <= conn.receiveCredit then conn.(receiveCredit := conn.receiveCredit - h.payloadLength)
          else conn
    }

    /** The effect of a frame that passed the stateless and sequence checks. */
    function Apply(dir: Direction, h: Header, context: FrameContext): Result<State, ProtocolError> {
      if h.streamId == 0 then ApplyControl(dir, h, context)
      else if h.command == Command.Open then ApplyOpen(dir, h)
      else ApplyStream(dir, h, context)
    }

    /** The complete transition: header rules, window metadata, closed sessions,
        sequence numbers, and only then the command's own effect. */
    function Process(dir: Direction, h: Header, context: FrameContext): Result<State, ProtocolError> {
      var wire := h.Validate(config.limits);
      if wire.Fail? then Err(WireFault(wire.error))
      else
        :- config.ValidateContext(h, context);
        if conn.phase == Closed then Err(conn.Unexpected(h))
        else
          :- ValidateSequence(dir, h);
          var s :- Apply(dir, h, context);
          Ok(s.AdvanceSequence(dir, h))
    }

    function AllocateStreamId(): Result<(State, u32), ProtocolError> {
      if nextLocalStreamId.None? then Err(StreamIdExhausted)
      else Ok((this.(nextLocalStreamId := NextStreamId(nextLocalStreamId.value)), nextLocalStreamId.value))
    }
  }

  function New(config: Config): State {
    State(config, Connection(HelloExchange, false, false, false, false, 0, 0, 0, 0),
          Some(if config.role.LocalStreamsAreOdd() then 1 else 2), map[], map[], map[])
  }
}
