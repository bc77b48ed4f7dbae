/** The 40-byte frame header on the wire, and whole frames. */
module FrameCodec {
  import opened Results
  import opened Wire
  import opened Crc

  function Number(c: Command): (n: u16)
    ensures 1 <= n <= 13
  {
    match c
    case Hello => 1 case PairingFinish => 2 case Open => 3 case Accept => 4 case Reject => 5
    case Data => 6 case Credit => 7 case Close => 8 case Reset => 9 case Ping => 10
    case Pong => 11 case GoAway => 12 case Error => 13
  }

  function CommandOf(n: u16): Option<Command> {
    match n
    case 1 => Some(Hello) case 2 => Some(PairingFinish) case 3 => Some(Open) case 4 => Some(Accept)
    case 5 => Some(Reject) case 6 => Some(Data) case 7 => Some(Credit) case 8 => Some(Close)
    case 9 => Some(Reset) case 10 => Some(Ping) case 11 => Some(Pong) case 12 => Some(GoAway)
    case 13 => Some(Command.Error) case _ => None
  }

  function Put16(v: u16): (s: seq<byte>) ensures |s| == 2 { [v % 256, v / 256] }
  function Put32(v: u32): (s: seq<byte>) ensures |s| == 4 { Put16(v % 0x1_0000) + Put16(v / 0x1_0000) }
  function Get16(s: seq<byte>, at: nat): u16 requires at + 2 <= |s| { s[at] as int + 256 * (s[at + 1] as int) }
  function Get32(s: seq<byte>, at: nat): u32 requires at + 4 <= |s| { Get16(s, at) + 0x1_0000 * Get16(s, at + 2) }

  /** The fields before the checksum. */
  function Front(h: Header): (s: seq<byte>)
    ensures |s| == 32
  {
    MAGIC + Put16(h.major) + Put16(h.minor) + Put16(40) + Put16(Number(h.command)) + Put32(h.flags) + Put32(h.streamId)
    + Put32(h.sequence) + Put32(h.payloadLength) + Put32(h.creditDelta)
  }

  function Encode(h: Header, limits: DecodeLimits): Result<seq<byte>, WireError> {
    var checked := h.Validate(limits);
    if checked.Fail? then Err(checked.error)
    else Ok(Front(h) + Put32(Crc32c(Front(h) + Put32(0) + Put32(h.reserved))) + Put32(h.reserved))
  }

  /** The first forty bytes with the checksum field cleared. */
  function Cleared(bytes: seq<byte>): (s: seq<byte>)
    requires |bytes| >= HEADER_LEN
    ensures |s| == HEADER_LEN
  {
    bytes[..32] + [0, 0, 0, 0] + bytes[36..40]
  }

  function Fields(bytes: seq<byte>, command: Command): Header
    requires |bytes| >= HEADER_LEN
  {
    Header(Get16(bytes, 4), Get16(bytes, 6), command, Get32(bytes, 12), Get32(bytes, 16), Get32(bytes, 20),
           Get32(bytes, 24), Get32(bytes, 28), Get32(bytes, 36))
  }

  function Decode(bytes: seq<byte>, limits: DecodeLimits): Result<Header, WireError> {
    if |bytes| < HEADER_LEN then Err(HeaderTooShort(|bytes|))
    else if bytes[..4] != MAGIC then Err(InvalidMagic)
    else if Get16(bytes, 8) != HEADER_LEN then Err(InvalidHeaderSize(Get16(bytes, 8)))
    else if Get32(bytes, 32) != Crc32c(Cleared(bytes)) then Err(HeaderCrcMismatch)
    else
      var command := CommandOf(Get16(bytes, 10));
      if command.None? then Err(UnknownCommand(Get16(bytes, 10)))
      else
        var header := Fields(bytes, command.value);
        :- header.Validate(limits);
        Ok(header)
  }

  // ---------------------------------------------------------------- numbers

  lemma PutGet16(v: u16, s: seq<byte>, at: nat)
    requires at + 2 <= |s| && s[at..at + 2] == Put16(v)
    ensures Get16(s, at) == v
  {
    assert s[at] == s[at..at + 2][0] && s[at + 1] == s[at..at + 2][1];
  }

  lemma PutGet32(v: u32, s: seq<byte>, at: nat)
    requires at + 4 <= |s| && s[at..at + 4] == Put32(v)
    ensures Get32(s, at) == v
  {
    assert s[at..at + 2] == s[at..at + 4][..2] && s[at + 2..at + 4] == s[at..at + 4][2..];
    PutGet16(v % 0x1_0000, s, at);
    PutGet16(v / 0x1_0000, s, at + 2);
  }

  lemma GetPut16(s: seq<byte>, at: nat)
    requires at + 2 <= |s|
    ensures Put16(Get16(s, at)) == s[at..at + 2]
  {
  }

  lemma GetPut32(s: seq<byte>, at: nat)
    requires at + 4 <= |s|
    ensures Put32(Get32(s, at)) == s[at..at + 4]
  {
    var low: int, high: int := Get16(s, at), Get16(s, at + 2);
    assert (low + 0x1_0000 * high) % 0x1_0000 == low && (low + 0x1_0000 * high) / 0x1_0000 == high;
    GetPut16(s, at);
    GetPut16(s, at + 2);
    assert s[at..at + 4] == s[at..at + 2] + s[at + 2..at + 4];
  }

  lemma CommandNumbers(c: Command, n: u16)
    ensures CommandOf(Number(c)) == Some(c) && (CommandOf(n).Some? ==> Number(CommandOf(n).value) == n)
  {
  }

  // ---------------------------------------------------------------- layout

  /** Where each field stands. */
  predicate Laid(s: seq<byte>, h: Header)
    requires |s| >= 32
  {
    && s[..4] == MAGIC && s[4..6] == Put16(h.major) && s[6..8] == Put16(h.minor) && s[8..10] == Put16(40)
    && s[10..12] == Put16(Number(h.command)) && s[12..16] == Put32(h.flags) && s[16..20] == Put32(h.streamId)
    && s[20..24] == Put32(h.sequence) && s[24..28] == Put32(h.payloadLength) && s[28..32] == Put32(h.creditDelta)
  }

  lemma FrontLaid(h: Header)
    ensures Laid(Front(h), h)
  {
  }

  lemma LaidFront(s: seq<byte>, h: Header)
    requires |s| == 32 && Laid(s, h)
    ensures s == Front(h)
  {
    assert s == s[..4] + s[4..6] + s[6..8] + s[8..10] + s[10..12] + s[12..16] + s[16..20] + s[20..24] + s[24..28]
      + s[28..32];
  }

  // ---------------------------------------------------------------- inverse to each other

  lemma LaidFields(bytes: seq<byte>, h: Header)
    requires |bytes| >= HEADER_LEN && Laid(bytes, h) && bytes[36..40] == Put32(h.reserved)
    ensures Get16(bytes, 8) == HEADER_LEN && CommandOf(Get16(bytes, 10)) == Some(h.command)
    ensures Fields(bytes, h.command) == h
  {
    PutGet16(h.major, bytes, 4);
    PutGet16(h.minor, bytes, 6);
    PutGet16(40, bytes, 8);
    PutGet16(Number(h.command), bytes, 10);
    CommandNumbers(h.command, 1);
    PutGet32(h.flags, bytes, 12);
    PutGet32(h.streamId, bytes, 16);
    PutGet32(h.sequence, bytes, 20);
    PutGet32(h.payloadLength, bytes, 24);
    PutGet32(h.creditDelta, bytes, 28);
    PutGet32(h.reserved, bytes, 36);
  }

  lemma FieldsLaid(bytes: seq<byte>, command: Command)
    requires |bytes| >= HEADER_LEN && bytes[..4] == MAGIC && Get16(bytes, 8) == HEADER_LEN
    requires Get16(bytes, 10) == Number(command)
    ensures Laid(bytes, Fields(bytes, command)) && bytes[36..40] == Put32(Fields(bytes, command).reserved)
  {
    GetPut16(bytes, 4);
    GetPut16(bytes, 6);
    GetPut16(bytes, 8);
    GetPut16(bytes, 10);
    GetPut32(bytes, 12);
    GetPut32(bytes, 16);
    GetPut32(bytes, 20);
    GetPut32(bytes, 24);
    GetPut32(bytes, 28);
    GetPut32(bytes, 36);
  }

  lemma LaidMore(s: seq<byte>, t: seq<byte>, h: Header)
    requires |s| >= 32 && |t| >= 32 && s[..32] == t[..32] && Laid(s, h)
    ensures Laid(t, h)
  {
    assert s[..4] == s[..32][..4] && t[..4] == t[..32][..4];
    assert s[4..6] == s[..32][4..6] && t[4..6] == t[..32][4..6];
    assert s[6..8] == s[..32][6..8] && t[6..8] == t[..32][6..8];
    assert s[8..10] == s[..32][8..10] && t[8..10] == t[..32][8..10];
    assert s[10..12] == s[..32][10..12] && t[10..12] == t[..32][10..12];
    assert s[12..16] == s[..32][12..16] && t[12..16] == t[..32][12..16];
    assert s[16..20] == s[..32][16..20] && t[16..20] == t[..32][16..20];
    assert s[20..24] == s[..32][20..24] && t[20..24] == t[..32][20..24];
    assert s[24..28] == s[..32][24..28] && t[24..28] == t[..32][24..28];
    assert s[28..32] == s[..32][28..32] && t[28..32] == t[..32][28..32];
  }

  lemma Slices(front: seq<byte>, crc: seq<byte>, end: seq<byte>, rest: seq<byte>, bytes: seq<byte>)
    requires |front| == 32 && |crc| == 4 && |end| == 4 && bytes == front + crc + end + rest
    ensures bytes[..32] == front && bytes[32..36] == crc && bytes[36..40] == end && bytes[40..] == rest
    ensures bytes[..40] == front + crc + end && Cleared(bytes) == front + [0, 0, 0, 0] + end
  {
  }

  /** Whatever follows it, an encoded header decodes to itself. */
  lemma EncodedDecodes(h: Header, limits: DecodeLimits, rest: seq<byte>)
    requires h.Validate(limits).Pass?
    ensures Encode(h, limits).Ok? && |Encode(h, limits).value| == HEADER_LEN
    ensures Decode(Encode(h, limits).value + rest, limits) == Ok(h)
  {
    var front, end := Front(h), Put32(h.reserved);
    var crc := Crc32c(front + [0, 0, 0, 0] + end);
    var bytes := Encode(h, limits).value + rest;
    assert Put32(0) == [0, 0, 0, 0];
    Slices(front, Put32(crc), end, rest, bytes);
    FrontLaid(h);
    LaidMore(front, bytes, h);
    LaidFields(bytes, h);
    PutGet32(crc, bytes, 32);
  }

  lemma DecodedFront(bytes: seq<byte>, limits: DecodeLimits, h: Header)
    requires Decode(bytes, limits) == Ok(h)
    ensures h.Validate(limits).Pass? && Front(h) == bytes[..32] && Put32(h.reserved) == bytes[36..40]
  {
    CommandNumbers(h.command, Get16(bytes, 10));
    FieldsLaid(bytes, h.command);
    LaidMore(bytes, bytes[..32], h);
    LaidFront(bytes[..32], h);
  }

  /** Accepted bytes are the encoding of the header they decode to. */
  lemma DecodedEncodes(bytes: seq<byte>, limits: DecodeLimits, h: Header)
    requires Decode(bytes, limits) == Ok(h)
    ensures Encode(h, limits) == Ok(bytes[..HEADER_LEN])
  {
    DecodedFront(bytes, limits, h);
    DecodedChecksum(bytes, limits);
    assert Put32(0) == [0, 0, 0, 0];
  }

  lemma DecodedChecksum(bytes: seq<byte>, limits: DecodeLimits)
    requires Decode(bytes, limits).Ok?
    ensures bytes[..40] == bytes[..32] + Put32(Crc32c(bytes[..32] + [0, 0, 0, 0] + bytes[36..40])) + bytes[36..40]
  {
    GetPut32(bytes, 32);
    assert bytes[..40] == bytes[..32] + bytes[32..36] + bytes[36..40];
  }

  // ---------------------------------------------------------------- the buffer

  method Write16(a: array<byte>, at: nat, v: u16)
    requires at + 2 <= a.Length
    modifies a
    ensures a[..at + 2] == old(a[..at]) + Put16(v) && a[at + 2..] == old(a[at + 2..])
    ensures forall k :: at + 2 <= k < a.Length ==> a[k] == old(a[k])
  {
    a[at] := v % 256;
    a[at + 1] := v / 256;
  }

  method Write32(a: array<byte>, at: nat, v: u32)
    requires at + 4 <= a.Length
    modifies a
    ensures a[..at + 4] == old(a[..at]) + Put32(v) && a[at + 4..] == old(a[at + 4..])
    ensures forall k :: at + 4 <= k < a.Length ==> a[k] == old(a[k])
  {
    Write16(a, at, v % 0x1_0000);
    Write16(a, at + 2, v / 0x1_0000);
  }

  method WriteFront(h: Header, a: array<byte>)
    requires a.Length == HEADER_LEN
    modifies a
    ensures a[..32] == Front(h)
  {
    a[0], a[1], a[2], a[3] := MAGIC[0], MAGIC[1], MAGIC[2], MAGIC[3];
    assert a[..4] == MAGIC;
    Write16(a, 4, h.major);
    Write16(a, 6, h.minor);
    Write16(a, 8, HEADER_LEN);
    Write16(a, 10, Number(h.command));
    Write32(a, 12, h.flags);
    Write32(a, 16, h.streamId);
    Write32(a, 20, h.sequence);
    Write32(a, 24, h.payloadLength);
    Write32(a, 28, h.creditDelta);
  }

  /** The header is laid out in a buffer, the checksum last, over a cleared field. */
  method EncodeHeader(h: Header, limits: DecodeLimits) returns (r: Result<seq<byte>, WireError>)
    ensures r == Encode(h, limits)
  {
    var valid := h.Validate(limits);
    if valid.Fail? { return Err(valid.error); }
    var a := new byte[HEADER_LEN];
    WriteFront(h, a);
    Write32(a, 32, 0);
    Write32(a, 36, h.reserved);
    assert a[..] == a[..40] == Front(h) + Put32(0) + Put32(h.reserved);
    var checksum := ComputeCrc32c(a[..]);
    assert a[36..] == a[..][36..] == Put32(h.reserved);
    assert a[..32] == a[..][..32] == Front(h);
    Write32(a, 32, checksum);
    assert a[..] == a[..36] + a[36..];
    r := Ok(a[..]);
  }

  // ---------------------------------------------------------------- corruption

  /** The bytes agree except, perhaps, in four consecutive places outside the checksum field. */
  predicate Corrupted(bytes: seq<byte>, other: seq<byte>, at: nat) {
    && |other| == |bytes| >= HEADER_LEN && at + 4 <= HEADER_LEN
    && forall k :: 0 <= k < |bytes| && !(at <= k < at + 4 && !(32 <= k < 36)) ==> other[k] == bytes[k]
  }

  lemma ClearedDiffer(bytes: seq<byte>, other: seq<byte>, at: nat)
    requires Corrupted(bytes, other, at)
    ensures var x, y := Cleared(bytes), Cleared(other);
      && x[..at] == y[..at] && x[at + 4..] == y[at + 4..] && (x == y ==> other == bytes)
      && Get32(other, 32) == Get32(bytes, 32)
  {
    var x, y := Cleared(bytes), Cleared(other);
    assert forall k :: 0 <= k < 40 && !(32 <= k < 36) ==> x[k] == bytes[k] && y[k] == other[k];
    assert forall k :: 32 <= k < 36 ==> x[k] == 0 && y[k] == 0;
    if x == y {
      forall k | 0 <= k < |bytes|
        ensures other[k] == bytes[k]
      {
        if k < 40 && !(32 <= k < 36) { assert x[k] == y[k]; }
      }
    }
  }

  /** No accepted header stays accepted after a change confined to four consecutive bytes outside
      its checksum. */
  lemma CorruptionIsNoticed(bytes: seq<byte>, other: seq<byte>, at: nat, limits: DecodeLimits)
    requires Decode(bytes, limits).Ok? && Corrupted(bytes, other, at) && other != bytes
    ensures Decode(other, limits).Err?
  {
    ClearedDiffer(bytes, other, at);
    if Crc32c(Cleared(bytes)) == Crc32c(Cleared(other)) {
      ValueInjective(Checksum(Cleared(bytes)), Checksum(Cleared(other)));
      NoticesBurst(Cleared(bytes), Cleared(other), at);
    }
  }

  // ---------------------------------------------------------------- frames

  function EncodeFrame(f: Frame, limits: DecodeLimits): Result<seq<byte>, WireError> {
    if |f.payload| > U32_MAX then Err(PayloadLengthOverflow(|f.payload|))
    else if |f.payload| != f.header.payloadLength then
      Err(FrameLengthMismatch(HEADER_LEN + f.header.payloadLength, HEADER_LEN + |f.payload|))
    else
      var header :- Encode(f.header, limits);
      Ok(header + f.payload)
  }

  function DecodeFrame(bytes: seq<byte>, limits: DecodeLimits): Result<Frame, WireError> {
    var header :- Decode(bytes, limits);
    if |bytes| != HEADER_LEN + header.payloadLength then
      Err(FrameLengthMismatch(HEADER_LEN + header.payloadLength, |bytes|))
    else Ok(Frame(header, bytes[HEADER_LEN..]))
  }

  /** A frame is encoded exactly when its bytes decode to it. */
  lemma FramesRoundTrip(f: Frame, bytes: seq<byte>, limits: DecodeLimits)
    ensures EncodeFrame(f, limits) == Ok(bytes) <==> DecodeFrame(bytes, limits) == Ok(f)
  {
    if EncodeFrame(f, limits) == Ok(bytes) {
      EncodedDecodes(f.header, limits, f.payload);
      assert bytes[HEADER_LEN..] == f.payload;
    }
    if DecodeFrame(bytes, limits) == Ok(f) {
      DecodedEncodes(bytes, limits, f.header);
      assert bytes == bytes[..HEADER_LEN] + bytes[HEADER_LEN..];
    }
  }
}
