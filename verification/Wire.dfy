/** Shared result types: a computation with a value, and a check without one. */
module Results {
  datatype Option<+T> = None | Some(value: T)

  datatype Result<+T, +E> = Ok(value: T) | Err(error: E) {
    predicate IsFailure() { Err? }
    function PropagateFailure<U>(): Result<U, E> requires Err? { Err(error) }
    function Extract(): T requires Ok? { value }
  }

  datatype Check<+E> = Pass | Fail(error: E) {
    predicate IsFailure() { Fail? }
    function PropagateFailure<U>(): Result<U, E> requires Fail? { Err(error) }
  }
}

/** The logical KBP v1 frame header and its stateless rules. */
module Wire {
  import opened Results

  type byte = x: int | 0 <= x < 0x100
  type u16 = x: int | 0 <= x < 0x1_0000
  type u32 = x: int | 0 <= x < 0x1_0000_0000

  const U32_MAX: u32 := 0xffff_ffff
  const PROTOCOL_MAJOR: u16 := 1
  const PROTOCOL_MINOR: u16 := 0

  datatype Command =
    | Hello | PairingFinish | Open | Accept | Reject | Data | Credit
    | Close | Reset | Ping | Pong | GoAway | Error
  {
    predicate AllowsStreamZero() {
      Hello? || PairingFinish? || Credit? || Ping? || Pong? || GoAway? || Error?
    }

    predicate AllowsNonzeroStream() {
      Open? || Accept? || Reject? || Data? || Credit? || Close? || Reset?
    }
  }

  datatype DecodeLimits = DecodeLimits(maxPayload: u32, maxWindow: u32)

  datatype WireError =
    | HeaderTooShort(actual: nat)
    | FrameLengthMismatch(expectedLength: nat, actualLength: nat)
    | InvalidMagic
    | InvalidHeaderSize(size: u16)
    | UnsupportedMajor(major: u16)
    | UnknownCommand(number: u16)
    | HeaderCrcMismatch
    | PayloadTooLarge(length: u32, maximum: u32)
    | CreditTooLarge(delta: u32, maximum: u32)
    | CreditPayloadNotEmpty(length: u32)
    | InvalidCreditDelta(delta: u32)
    | UnexpectedCreditDelta(command: Command, delta: u32)
    | UnknownCriticalFlags(flags: u32)
    | EndStreamOnNonData(command: Command)
    | InvalidStreamForCommand(command: Command, streamId: u32)
    | ReservedNotZero(value: u32)
    | PayloadLengthOverflow(payloadSize: nat)

  datatype Header = Header(
    major: u16, minor: u16, command: Command, flags: u32, streamId: u32,
    sequence: u32, payloadLength: u32, creditDelta: u32, reserved: u32)
  {
    /** FLAG_END_STREAM is bit 0 of the flag word. */
    predicate EndStream() { flags % 2 == 1 }

    /** The low sixteen flag bits other than END_STREAM. */
    function UnknownCritical(): u32 { flags % 0x1_0000 - flags % 2 }

    function Validate(limits: DecodeLimits): Check<WireError> {
      if major != PROTOCOL_MAJOR then Fail(UnsupportedMajor(major))
      else if payloadLength > limits.maxPayload then
        Fail(PayloadTooLarge(payloadLength, limits.maxPayload))
      else if reserved != 0 then Fail(ReservedNotZero(reserved))
      else if UnknownCritical() != 0 then Fail(UnknownCriticalFlags(UnknownCritical()))
      else if EndStream() && command != Data then Fail(EndStreamOnNonData(command))
      else if command == Credit && payloadLength != 0 then Fail(CreditPayloadNotEmpty(payloadLength))
      else if command == Credit && creditDelta == 0 then Fail(InvalidCreditDelta(0))
      else if command == Credit && creditDelta > limits.maxWindow then
        Fail(CreditTooLarge(creditDelta, limits.maxWindow))
      else if command != Credit && creditDelta != 0 then
        Fail(UnexpectedCreditDelta(command, creditDelta))
      else if !(if streamId == 0 then command.AllowsStreamZero() else command.AllowsNonzeroStream()) then
        Fail(InvalidStreamForCommand(command, streamId))
      else Pass
    }
  }

  const HEADER_LEN: nat := 40

  /** The four letters every frame starts with. */
  const MAGIC: seq<byte> := [0x4b, 0x42, 0x50, 0x31]

  datatype Frame = Frame(header: Header, payload: seq<byte>)

  /** A header with every optional field zero. */
  function NewHeader(command: Command, streamId: u32, sequence: u32): Header {
    Header(PROTOCOL_MAJOR, PROTOCOL_MINOR, command, 0, streamId, sequence, 0, 0, 0)
  }
}
