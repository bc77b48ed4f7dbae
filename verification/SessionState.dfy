/** The session validator as the mutable object an endpoint holds. Every method is proved
    against the transition function of module Session; a refused frame changes nothing. */
module SessionStates {
  import opened Results
  import opened Wire
  import opened Session

  class SessionState {
    const config: Config
    var phase: Phase
    var localHello: bool
    var peerHello: bool
    var localPairingFinish: bool
    var peerPairingFinish: bool
    var nextLocalStreamId: Option<u32>
    var inboundSequences: map<u32, u32>
    var outboundSequences: map<u32, u32>
    var streams: map<u32, Stream>
    var connectionSendCredit: u32
    var connectionSendLimit: u32
    var connectionReceiveCredit: u32
    var connectionReceiveLimit: u32

    function Conn(): Connection
      reads this
    {
      Connection(phase, localHello, peerHello, localPairingFinish, peerPairingFinish,
                 connectionSendCredit, connectionSendLimit, connectionReceiveCredit, connectionReceiveLimit)
    }

    /** The abstract state. */
    function Model(): State
      reads this
    {
      State(config, Conn(), nextLocalStreamId, inboundSequences, outboundSequences, streams)
    }

    constructor (config: Config)
      ensures Model() == New(config)
    {
      this.config := config;
      phase := HelloExchange;
      localHello, peerHello, localPairingFinish, peerPairingFinish := false, false, false, false;
      nextLocalStreamId := Some(if config.role.LocalStreamsAreOdd() then 1 else 2);
      inboundSequences, outboundSequences, streams := map[], map[], map[];
      connectionSendCredit, connectionSendLimit := 0, 0;
      connectionReceiveCredit, connectionReceiveLimit := 0, 0;
    }

    method AllocateStreamId() returns (r: Result<u32, ProtocolError>)
      modifies this
      ensures match old(Model()).AllocateStreamId()
        case Ok(p) => r == Ok(p.1) && Model() == p.0
        case Err(e) => r == Err(e) && Model() == old(Model())
    {
      if nextLocalStreamId.None? { return Err(StreamIdExhausted); }
      var id := nextLocalStreamId.value;
      nextLocalStreamId := NextStreamId(id);
      r := Ok(id);
    }

    method ProcessInbound(h: Header, context: FrameContext) returns (r: Check<ProtocolError>)
      modifies this
      ensures match old(Model()).Process(Inbound, h, context)
        case Ok(s) => r == Pass && Model() == s
        case Err(e) => r == Fail(e) && Model() == old(Model())
    {
      r := Process(Inbound, h, context);
    }

    method ProcessOutbound(h: Header, context: FrameContext) returns (r: Check<ProtocolError>)
      modifies this
      ensures match old(Model()).Process(Outbound, h, context)
        case Ok(s) => r == Pass && Model() == s
        case Err(e) => r == Fail(e) && Model() == old(Model())
    {
      r := Process(Outbound, h, context);
    }

    method Process(dir: Direction, h: Header, context: FrameContext) returns (r: Check<ProtocolError>)
      modifies this
      ensures match old(Model()).Process(dir, h, context)
        case Ok(s) => r == Pass && Model() == s
        case Err(e) => r == Fail(e) && Model() == old(Model())
    {
      var wire := h.Validate(config.limits);
      if wire.Fail? { return Fail(WireFault(wire.error)); }
      r := config.ValidateContext(h, context);
      if r.Fail? { return; }
      if phase == Closed { return Fail(Conn().Unexpected(h)); }
      r := Model().ValidateSequence(dir, h);
      if r.Fail? { return; }
      if h.streamId == 0 {
        r := ApplyControl(dir, h, context);
      } else if h.command == Command.Open {
        r := ApplyOpen(dir, h);
      } else {
        r := ApplyStream(dir, h, context);
      }
      if r.Fail? { return; }
      AdvanceSequence(dir, h);
    }

    method AdvanceSequence(dir: Direction, h: Header)
      modifies this
      ensures Model() == old(Model()).AdvanceSequence(dir, h)
    {
      if h.sequence == U32_MAX { return; }
      if dir == Inbound {
        inboundSequences := inboundSequences[h.streamId := h.sequence + 1];
      } else {
        outboundSequences := outboundSequences[h.streamId := h.sequence + 1];
      }
    }

    method ApplyControl(dir: Direction, h: Header, context: FrameContext) returns (r: Check<ProtocolError>)
      modifies this
      ensures match old(Model()).ApplyControl(dir, h, context)
        case Ok(s) => r == Pass && Model() == s
        case Err(e) => r == Fail(e) && Model() == old(Model())
    {
      match h.command
      case Hello =>
        r := ApplyHello(dir, context);
      case PairingFinish =>
        r := ApplyPairingFinish(dir);
      case Credit =>
        r := ApplyConnectionCredit(dir, h);
      case Ping =>
        r := if phase == Online || phase == GoingAway then Pass else Fail(Conn().Unexpected(h));
      case Pong =>
        r := if phase == Online || phase == GoingAway then Pass else Fail(Conn().Unexpected(h));
      case GoAway =>
        if phase != Online && phase != GoingAway { return Fail(Conn().Unexpected(h)); }
        phase := GoingAway;
        r := Pass;
      case Error =>
        phase := Closed;
        r := Pass;
      case _ =>
        r := Fail(Conn().Unexpected(h));
    }

    method ApplyConnectionCredit(dir: Direction, h: Header) returns (r: Check<ProtocolError>)
      modifies this`connectionSendCredit, this`connectionReceiveCredit
      ensures match old(Conn()).ApplyCredit(dir, h)
        case Ok(c) => r == Pass && Conn() == c
        case Err(e) => r == Fail(e) && Conn() == old(Conn())
    {
      if phase != Online && phase != GoingAway { return Fail(Conn().Unexpected(h)); }
      if dir == Inbound {
        var credit := CheckedCredit(0, connectionSendCredit, h.creditDelta, connectionSendLimit);
        if credit.Err? { return Fail(credit.error); }
        connectionSendCredit := credit.value;
      } else {
        var credit := CheckedCredit(0, connectionReceiveCredit, h.creditDelta, connectionReceiveLimit);
        if credit.Err? { return Fail(credit.error); }
        connectionReceiveCredit := credit.value;
      }
      r := Pass;
    }

    method ApplyHello(dir: Direction, context: FrameContext) returns (r: Check<ProtocolError>)
      modifies this`phase, this`localHello, this`peerHello, this`connectionSendCredit, this`connectionSendLimit,
        this`connectionReceiveCredit, this`connectionReceiveLimit
      ensures match old(Conn()).ApplyHello(dir, context)
        case Ok(c) => r == Pass && Conn() == c
        case Err(e) => r == Fail(e) && Conn() == old(Conn())
    {
      if phase != HelloExchange { return Fail(DuplicateHello); }
      if context.connectionWindow.None? { return Fail(MissingConnectionWindow); }
      var window := context.connectionWindow.value;
      if dir == Outbound {
        if localHello { return Fail(DuplicateHello); }
        localHello := true;
        connectionReceiveCredit := window;
        connectionReceiveLimit := window;
      } else {
        if peerHello { return Fail(DuplicateHello); }
        peerHello := true;
        connectionSendCredit := window;
        connectionSendLimit := window;
      }
      if localHello && peerHello {
        phase := Online;
      }
      r := Pass;
    }

    method ApplyPairingFinish(dir: Direction) returns (r: Check<ProtocolError>)
      modifies this`localPairingFinish, this`peerPairingFinish
      ensures match old(Conn()).ApplyPairingFinish(dir, config.pairing)
        case Ok(c) => r == Pass && Conn() == c
        case Err(e) => r == Fail(e) && Conn() == old(Conn())
    {
      if !config.pairing { return Fail(PairingFinishOnRegularSession); }
      if phase != HelloExchange { return Fail(DuplicatePairingFinish); }
      if dir == Outbound {
        if localPairingFinish { return Fail(DuplicatePairingFinish); }
        localPairingFinish := true;
      } else {
        if peerPairingFinish { return Fail(DuplicatePairingFinish); }
        peerPairingFinish := true;
      }
      r := Pass;
    }

    method ApplyOpen(dir: Direction, h: Header) returns (r: Check<ProtocolError>)
      modifies this`streams, this`nextLocalStreamId
      ensures match old(Model()).ApplyOpen(dir, h)
        case Ok(s) => r == Pass && Model() == s
        case Err(e) => r == Fail(e) && Model() == old(Model())
    {
      if phase != Online { return Fail(Conn().Unexpected(h)); }
      var expectedOdd := if dir == Outbound then config.role.LocalStreamsAreOdd()
        else !config.role.LocalStreamsAreOdd();
      if (h.streamId % 2 == 1) != expectedOdd { return Fail(WrongStreamParity(h.streamId, expectedOdd)); }
      if h.streamId in streams { return Fail(StreamAlreadyUsed(h.streamId)); }
      streams := streams[h.streamId := OpeningStream(dir == Outbound)];
      if dir == Outbound && nextLocalStreamId.Some? && h.streamId >= nextLocalStreamId.value {
        nextLocalStreamId := NextStreamId(h.streamId);
      }
      r := Pass;
    }

    method ApplyStream(dir: Direction, h: Header, context: FrameContext) returns (r: Check<ProtocolError>)
      modifies this`streams, this`connectionSendCredit, this`connectionReceiveCredit
      ensures match old(Model()).ApplyStream(dir, h, context)
        case Ok(s) => r == Pass && Model() == s
        case Err(e) => r == Fail(e) && Model() == old(Model())
    {
      if h.streamId !in streams { return Fail(UnknownStream(h.streamId)); }
      var current := streams[h.streamId].phase;
      if h.command == Command.Accept || h.command == Command.Reject {
        if current != Opening { return Fail(StreamNotOpening(h.streamId)); }
        r := ApplyOpenResponse(dir, h, context);
      } else if h.command == Command.Data {
        if dir == Inbound && current.Terminal() {
          r := ApplyDiscardedInboundData(h);
        } else {
          if current != Accepted { return Fail(StreamNotAccepted(h.streamId)); }
          r := ApplyData(dir, h);
        }
      } else {
        r := ApplyQuiet(dir, h, current);
      }
    }

    /** CREDIT, RESET and CLOSE: the frames that move no connection credit. */
    method ApplyQuiet(dir: Direction, h: Header, current: StreamPhase) returns (r: Check<ProtocolError>)
      requires h.streamId in streams && current == streams[h.streamId].phase
      requires !h.command.Accept? && !h.command.Reject? && !h.command.Data?
      modifies this`streams
      ensures match old(streams[h.streamId]).Apply(dir, h, NoContext, Conn())
        case Ok(x) => r == Pass && streams == old(streams)[h.streamId := x]
        case Err(e) => r == Fail(e) && streams == old(streams)
    {
      if (h.command == Command.Credit || h.command == Command.Reset) && current.Terminal() {
        assert streams == streams[h.streamId := streams[h.streamId]];
        return Pass;
      }
      match h.command
      case Credit =>
        if current != Accepted { return Fail(StreamNotAccepted(h.streamId)); }
        r := ApplyStreamCredit(dir, h);
      case Reset =>
        if current != Accepted { return Fail(StreamNotAccepted(h.streamId)); }
        streams := streams[h.streamId := streams[h.streamId].(phase := StreamReset)];
        r := Pass;
      case Close =>
        if current != Accepted { return Fail(StreamNotAccepted(h.streamId)); }
        r := ApplyClose(dir, h);
      case _ =>
        r := Fail(Conn().Unexpected(h));
    }

    method ApplyOpenResponse(dir: Direction, h: Header, context: FrameContext) returns (r: Check<ProtocolError>)
      requires h.streamId in streams && streams[h.streamId].phase == Opening
      requires h.command.Accept? || h.command.Reject?
      modifies this`streams
      ensures match old(streams[h.streamId]).ApplyOpenResponse(dir, h, context)
        case Ok(x) => r == Pass && streams == old(streams)[h.streamId := x]
        case Err(e) => r == Fail(e) && streams == old(streams)
    {
      var stream := streams[h.streamId];
      var responderIsLocal := !stream.initiatedByLocal;
      if (dir == Outbound) != responderIsLocal { return Fail(WrongOpeningResponder(h.streamId)); }
      if h.command == Command.Reject {
        streams := streams[h.streamId := stream.(phase := Rejected)];
        return Pass;
      }
      if context.streamWindow.None? { return Fail(MissingStreamWindow(h.streamId)); }
      var window := context.streamWindow.value;
      stream := stream.(phase := Accepted, sendLimit := window, receiveLimit := window);
      if dir == Inbound {
        stream := stream.(sendCredit := window);
      } else {
        stream := stream.(receiveCredit := window);
      }
      streams := streams[h.streamId := stream];
      r := Pass;
    }

    method ApplyData(dir: Direction, h: Header) returns (r: Check<ProtocolError>)
      requires h.streamId in streams && streams[h.streamId].phase == Accepted && h.command.Data?
      modifies this`streams, this`connectionSendCredit, this`connectionReceiveCredit
      ensures match old(Model()).ApplyStream(dir, h, NoContext)
        case Ok(s) => r == Pass && Model() == s
        case Err(e) => r == Fail(e) && Model() == old(Model())
    {
      var length := h.payloadLength;
      var stream := streams[h.streamId];
      if dir == Outbound {
        if stream.localEnd { return Fail(DataAfterEnd(h.streamId)); }
        if length > stream.sendCredit { return Fail(SendCreditExceeded(h.streamId, length, stream.sendCredit)); }
        if length > connectionSendCredit { return Fail(ConnectionSendCreditExceeded(length, connectionSendCredit)); }
        stream := stream.(sendCredit := stream.sendCredit - length);
        connectionSendCredit := connectionSendCredit - length;
        if h.EndStream() { stream := stream.(localEnd := true); }
      } else {
        if stream.peerEnd { return Fail(DataAfterEnd(h.streamId)); }
        if length > stream.receiveCredit { return Fail(ReceiveCreditExceeded(h.streamId, length,
          stream.receiveCredit)); }
        if length > connectionReceiveCredit {
          return Fail(ConnectionReceiveCreditExceeded(length, connectionReceiveCredit));
        }
        stream := stream.(receiveCredit := stream.receiveCredit - length);
        connectionReceiveCredit := connectionReceiveCredit - length;
        if h.EndStream() { stream := stream.(peerEnd := true); }
      }
      streams := streams[h.streamId := stream];
      r := Pass;
    }

    method ApplyDiscardedInboundData(h: Header) returns (r: Check<ProtocolError>)
      requires h.streamId in streams && streams[h.streamId].phase.Terminal() && h.command.Data?
      modifies this`streams, this`connectionReceiveCredit
      ensures match old(Model()).ApplyStream(Inbound, h, NoContext)
        case Ok(s) => r == Pass && Model() == s
        case Err(e) => r == Fail(e) && Model() == old(Model())
    {
      var length := h.payloadLength;
      var stream := streams[h.streamId];
      if length > stream.receiveCredit { return Fail(ReceiveCreditExceeded(h.streamId, length, stream.receiveCredit)); }
      if length > connectionReceiveCredit {
        return Fail(ConnectionReceiveCreditExceeded(length, connectionReceiveCredit));
      }
      streams := streams[h.streamId := stream.(receiveCredit := stream.receiveCredit - length)];
      connectionReceiveCredit := connectionReceiveCredit - length;
      r := Pass;
    }

    method ApplyStreamCredit(dir: Direction, h: Header) returns (r: Check<ProtocolError>)
      requires h.streamId in streams && streams[h.streamId].phase == Accepted
      modifies this`streams
      ensures match old(streams[h.streamId]).ApplyCredit(dir, h)
        case Ok(x) => r == Pass && streams == old(streams)[h.streamId := x]
        case Err(e) => r == Fail(e) && streams == old(streams)
    {
      var stream := streams[h.streamId];
      if dir == Inbound {
        var credit := CheckedCredit(h.streamId, stream.sendCredit, h.creditDelta, stream.sendLimit);
        if credit.Err? { return Fail(credit.error); }
        streams := streams[h.streamId := stream.(sendCredit := credit.value)];
      } else {
        var credit := CheckedCredit(h.streamId, stream.receiveCredit, h.creditDelta, stream.receiveLimit);
        if credit.Err? { return Fail(credit.error); }
        streams := streams[h.streamId := stream.(receiveCredit := credit.value)];
      }
      r := Pass;
    }

    method ApplyClose(dir: Direction, h: Header) returns (r: Check<ProtocolError>)
      requires h.streamId in streams && streams[h.streamId].phase == Accepted
      modifies this`streams
      ensures match old(streams[h.streamId]).ApplyClose(dir, h)
        case Ok(x) => r == Pass && streams == old(streams)[h.streamId := x]
        case Err(e) => r == Fail(e) && streams == old(streams)
    {
      var stream := streams[h.streamId];
      var responderIsLocal := !stream.initiatedByLocal;
      if (dir == Outbound) != responderIsLocal { return Fail(CloseByInitiator(h.streamId)); }
      streams := streams[h.streamId := stream.(localEnd := true, peerEnd := true, phase := StreamClosed)];
      r := Pass;
    }
  }
}
