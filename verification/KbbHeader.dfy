/** The fixed header of a bundle file: canonical section offsets, and nothing left unsaid. */
module KbbHeader {
  import opened Results
  import opened Wire
  import opened Crc
  import opened FrameCodec

  const KBB_MAGIC: seq<byte> := [0x4b, 0x42, 0x42, 0x31, 0x0d, 0x0a, 0x1a, 0x0a]
  const HEADER_SIZE: nat := 128
  const U64_MAX: nat := 0xffff_ffff_ffff_ffff
  const MAX_ENVELOPE_LENGTH: nat := 16 * 1024 * 1024
  const MAX_SIGNATURE_LENGTH: nat := 1024 * 1024
  const MAX_PAYLOAD_LENGTH: nat := 8 * 1024 * 1024 * 1024

  type u64 = x: int | 0 <= x < 0x1_0000_0000_0000_0000

  datatype Code = BadHeader | Bounds | BadBlock | BadTree

  datatype Sections = Sections(
    envelopeLength: u64, signatureOffset: u64, signatureLength: u64, payloadOffset: u64, payloadLength: u64,
      root: seq<byte>)

  function Put64(v: u64): (s: seq<byte>) ensures |s| == 8 { Put32(v % 0x1_0000_0000) + Put32(v / 0x1_0000_0000) }
  function Get64(s: seq<byte>, at: nat): u64 requires at + 8 <= |s| {
    Get32(s, at) as int + 0x1_0000_0000 * (Get32(s, at + 4) as int)
  }

  function Zeros(n: nat): (s: seq<byte>) ensures |s| == n { seq(n, _ => 0) }

  function RoundUp(v: nat): (r: nat)
    ensures v <= r < v + 8 && r % 8 == 0
  {
    v + 7 - (v + 7) % 8
  }

  /** Rounding to eight bytes, refused where it would leave 64 bits. */
  function Align8(v: nat): Result<nat, Code> { if v + 7 > U64_MAX then Err(Bounds) else Ok(RoundUp(v)) }

  function Front(h: Sections): (s: seq<byte>)
    requires |h.root| == 32
    ensures |s| == 96
  {
    KBB_MAGIC + Put16(1) + Put16(0) + Put16(128) + Put16(0) + Put64(128) + Put64(h.envelopeLength)
      + Put64(h.signatureOffset)
    + Put64(h.signatureLength) + Put64(h.payloadOffset) + Put64(h.payloadLength) + h.root
  }

  function EncodeSections(h: Sections): (s: seq<byte>)
    requires |h.root| == 32
    ensures |s| == HEADER_SIZE
  {
    Front(h) + Put32(Crc32c(Front(h) + Zeros(32))) + Zeros(28)
  }

  predicate Supported(bytes: seq<byte>)
    requires |bytes| == HEADER_SIZE
  {
    && bytes[..8] == KBB_MAGIC && Get16(bytes, 8) == 1 && Get16(bytes, 10) == 0 && Get16(bytes, 12) == 128
    && Get16(bytes, 14) == 0 && Get64(bytes, 16) == 128 && bytes[100..] == Zeros(28)
  }

  function ReadSections(bytes: seq<byte>): (h: Sections)
    requires |bytes| == HEADER_SIZE
    ensures |h.root| == 32
  {
    Sections(Get64(bytes, 24), Get64(bytes, 32), Get64(bytes, 40), Get64(bytes, 48), Get64(bytes, 56), bytes[64..96])
  }

  function CheckSections(h: Sections, fileLength: nat): Check<Code> {
    if !(1 <= h.envelopeLength <= MAX_ENVELOPE_LENGTH && 1 <= h.signatureLength <= MAX_SIGNATURE_LENGTH
         && h.payloadLength <= MAX_PAYLOAD_LENGTH) then Fail(Bounds)
    else
      var signature := Align8(HEADER_SIZE + h.envelopeLength);
      if signature.Err? || h.signatureOffset + h.signatureLength > U64_MAX then Fail(Bounds)
      else
        var payload := Align8(h.signatureOffset + h.signatureLength);
        if payload.Err? || h.payloadOffset + h.payloadLength > U64_MAX then Fail(Bounds)
        else if h.signatureOffset != signature.value || h.payloadOffset != payload.value
                || fileLength != h.payloadOffset + h.payloadLength then Fail(BadHeader)
        else Pass
  }

  function DecodeSections(bytes: seq<byte>, fileLength: nat): Result<Sections, Code>
    requires |bytes| == HEADER_SIZE
  {
    if !Supported(bytes) then Err(BadHeader)
    else
      var h := ReadSections(bytes);
      :- CheckSections(h, fileLength);
      if Crc32c(bytes[..96] + Zeros(4) + bytes[100..]) != Get32(bytes, 96) then Err(BadHeader) else Ok(h)
  }

  /** The header a file of these section lengths must have. */
  predicate Canonical(h: Sections, fileLength: nat) {
    && |h.root| == 32
    && 1 <= h.envelopeLength <= MAX_ENVELOPE_LENGTH && 1 <= h.signatureLength <= MAX_SIGNATURE_LENGTH
    && h.payloadLength <= MAX_PAYLOAD_LENGTH
    && h.signatureOffset == RoundUp(HEADER_SIZE + h.envelopeLength)
    && h.payloadOffset == RoundUp(h.signatureOffset + h.signatureLength)
    && fileLength == h.payloadOffset + h.payloadLength
  }

  // ---------------------------------------------------------------- inverse to each other

  lemma PutGet64(v: u64, s: seq<byte>, at: nat)
    requires at + 8 <= |s| && s[at..at + 8] == Put64(v)
    ensures Get64(s, at) == v
  {
    assert s[at..at + 4] == s[at..at + 8][..4] && s[at + 4..at + 8] == s[at..at + 8][4..];
    PutGet32(v % 0x1_0000_0000, s, at);
    PutGet32(v / 0x1_0000_0000, s, at + 4);
  }

  lemma GetPut64(s: seq<byte>, at: nat)
    requires at + 8 <= |s|
    ensures Put64(Get64(s, at)) == s[at..at + 8]
  {
    var low: int, high: int := Get32(s, at), Get32(s, at + 4);
    assert (low + 0x1_0000_0000 * high) % 0x1_0000_0000 == low && (low + 0x1_0000_0000 * high) / 0x1_0000_0000 == high;
    GetPut32(s, at);
    GetPut32(s, at + 4);
    assert s[at..at + 8] == s[at..at + 4] + s[at + 4..at + 8];
  }

  /** Where each field stands. */
  predicate Placed(s: seq<byte>, h: Sections)
    requires |s| >= 96
  {
    && s[..8] == KBB_MAGIC && s[8..10] == Put16(1) && s[10..12] == Put16(0) && s[12..14] == Put16(128)
    && s[14..16] == Put16(0)
    && s[16..24] == Put64(128) && s[24..32] == Put64(h.envelopeLength) && s[32..40] == Put64(h.signatureOffset)
    && s[40..48] == Put64(h.signatureLength) && s[48..56] == Put64(h.payloadOffset)
    && s[56..64] == Put64(h.payloadLength)
    && s[64..96] == h.root
  }

  lemma FrontPlaced(h: Sections)
    requires |h.root| == 32
    ensures Placed(Front(h), h)
  {
    var a := KBB_MAGIC + Put16(1) + Put16(0) + Put16(128) + Put16(0) + Put64(128);
    var b := a + Put64(h.envelopeLength) + Put64(h.signatureOffset) + Put64(h.signatureLength);
    var c := b + Put64(h.payloadOffset) + Put64(h.payloadLength) + h.root;
    assert c == Front(h) && c[..48] == b && b[..24] == a;
    assert a[..8] == KBB_MAGIC && a[8..10] == Put16(1) && a[10..12] == Put16(0) && a[12..14] == Put16(128);
    assert a[14..16] == Put16(0) && a[16..24] == Put64(128);
    assert b[24..32] == Put64(h.envelopeLength) && b[32..40] == Put64(h.signatureOffset);
    assert b[40..48] == Put64(h.signatureLength);
    assert c[48..56] == Put64(h.payloadOffset) && c[56..64] == Put64(h.payloadLength) && c[64..96] == h.root;
    assert c[..24] == a && c[24..48] == b[24..48];
    PlacedFromParts(c, h, a, b);
  }

  lemma PlacedFromParts(c: seq<byte>, h: Sections, a: seq<byte>, b: seq<byte>)
    requires |c| == 96 && |a| == 24 && |b| == 48 && c[..24] == a && c[..48] == b
    requires a[..8] == KBB_MAGIC && a[8..10] == Put16(1) && a[10..12] == Put16(0) && a[12..14] == Put16(128)
    requires a[14..16] == Put16(0) && a[16..24] == Put64(128)
    requires b[24..32] == Put64(h.envelopeLength) && b[32..40] == Put64(h.signatureOffset)
    requires b[40..48] == Put64(h.signatureLength)
    requires c[48..56] == Put64(h.payloadOffset) && c[56..64] == Put64(h.payloadLength) && c[64..96] == h.root
    ensures Placed(c, h)
  {
    assert c[..8] == a[..8] && c[8..10] == a[8..10] && c[10..12] == a[10..12] && c[12..14] == a[12..14];
    assert c[14..16] == a[14..16] && c[16..24] == a[16..24];
    assert c[24..32] == b[24..32] && c[32..40] == b[32..40] && c[40..48] == b[40..48];
  }

  lemma PlacedFront(s: seq<byte>, h: Sections)
    requires |s| == 96 && |h.root| == 32 && Placed(s, h)
    ensures s == Front(h)
  {
    assert s == s[..8] + s[8..10] + s[10..12] + s[12..14] + s[14..16] + s[16..24] + s[24..32] + s[32..40] + s[40..48]
             + s[48..56] + s[56..64] + s[64..96];
  }

  lemma PlacedWithin(s: seq<byte>, t: seq<byte>, h: Sections)
    requires |s| == 96 && |t| >= 96 && t[..96] == s
    ensures Placed(s, h) <==> Placed(t, h)
  {
    assert t[..8] == s[..8] && t[8..10] == s[8..10] && t[10..12] == s[10..12] && t[12..14] == s[12..14];
    assert t[14..16] == s[14..16];
    assert t[16..24] == s[16..24] && t[24..32] == s[24..32] && t[32..40] == s[32..40] && t[40..48] == s[40..48];
    assert t[48..56] == s[48..56] && t[56..64] == s[56..64] && t[64..96] == s[64..96];
  }

  /** The fields that were written are read. */
  lemma PlacedReads(bytes: seq<byte>, h: Sections)
    requires |bytes| == HEADER_SIZE && |h.root| == 32 && Placed(bytes, h) && bytes[100..] == Zeros(28)
    ensures Supported(bytes) && ReadSections(bytes) == h
  {
    PutGet16(1, bytes, 8);
    PutGet16(0, bytes, 10);
    PutGet16(128, bytes, 12);
    PutGet16(0, bytes, 14);
    PutGet64(128, bytes, 16);
    PutGet64(h.envelopeLength, bytes, 24);
    PutGet64(h.signatureOffset, bytes, 32);
    PutGet64(h.signatureLength, bytes, 40);
    PutGet64(h.payloadOffset, bytes, 48);
    PutGet64(h.payloadLength, bytes, 56);
  }

  /** The fields that are read were written. */
  lemma ReadsPlaced(bytes: seq<byte>)
    requires |bytes| == HEADER_SIZE && Supported(bytes)
    ensures Placed(bytes, ReadSections(bytes))
  {
    GetPut16(bytes, 8);
    GetPut16(bytes, 10);
    GetPut16(bytes, 12);
    GetPut16(bytes, 14);
    GetPut64(bytes, 16);
    GetPut64(bytes, 24);
    GetPut64(bytes, 32);
    GetPut64(bytes, 40);
    GetPut64(bytes, 48);
    GetPut64(bytes, 56);
  }

  lemma CheckedIsCanonical(h: Sections, fileLength: nat)
    requires |h.root| == 32
    ensures CheckSections(h, fileLength).Pass? <==> Canonical(h, fileLength)
  {
  }

  lemma HeaderSlices(front: seq<byte>, crc: seq<byte>, bytes: seq<byte>)
    requires |front| == 96 && |crc| == 4 && bytes == front + crc + Zeros(28)
    ensures |bytes| == HEADER_SIZE && bytes[..96] == front && bytes[96..100] == crc && bytes[100..] == Zeros(28)
    ensures bytes[..96] + Zeros(4) + bytes[100..] == front + Zeros(32)
  {
    assert Zeros(4) + Zeros(28) == Zeros(32);
  }

  /** Any sections with a 32-byte root read back from their encoding, and its checksum holds. */
  lemma EncodedReads(h: Sections, bytes: seq<byte>)
    requires |h.root| == 32 && bytes == EncodeSections(h)
    ensures Supported(bytes) && ReadSections(bytes) == h
    ensures Crc32c(bytes[..96] + Zeros(4) + bytes[100..]) == Get32(bytes, 96)
  {
    var front := Front(h);
    var crc := Crc32c(front + Zeros(32));
    HeaderSlices(front, Put32(crc), bytes);
    FrontPlaced(h);
    PlacedWithin(front, bytes, h);
    PlacedReads(bytes, h);
    PutGet32(crc, bytes, 96);
  }

  /** A canonical header decodes to itself. */
  lemma EncodedSectionsDecode(h: Sections, fileLength: nat)
    requires Canonical(h, fileLength)
    ensures DecodeSections(EncodeSections(h), fileLength) == Ok(h)
  {
    EncodedReads(h, EncodeSections(h));
    CheckedIsCanonical(h, fileLength);
  }

  lemma ReadEncodes(bytes: seq<byte>, h: Sections)
    requires |bytes| == HEADER_SIZE && Supported(bytes) && h == ReadSections(bytes)
    requires Crc32c(bytes[..96] + Zeros(4) + bytes[100..]) == Get32(bytes, 96)
    ensures EncodeSections(h) == bytes
  {
    ReadsPlaced(bytes);
    PlacedWithin(bytes[..96], bytes, h);
    PlacedFront(bytes[..96], h);
    GetPut32(bytes, 96);
    HeaderParts(bytes);
  }

  /** An accepted header is canonical, and its 128 bytes are the encoding of what it says. */
  lemma DecodedSectionsEncode(bytes: seq<byte>, fileLength: nat, h: Sections)
    requires |bytes| == HEADER_SIZE && DecodeSections(bytes, fileLength) == Ok(h)
    ensures Canonical(h, fileLength) && EncodeSections(h) == bytes
  {
    CheckedIsCanonical(h, fileLength);
    ReadEncodes(bytes, h);
  }

  lemma HeaderParts(bytes: seq<byte>)
    requires |bytes| == HEADER_SIZE && bytes[100..] == Zeros(28)
    ensures bytes == bytes[..96] + bytes[96..100] + Zeros(28)
    ensures bytes[..96] + Zeros(4) + bytes[100..] == bytes[..96] + Zeros(32)
  {
    assert Zeros(4) + Zeros(28) == Zeros(32);
  }

  // ---------------------------------------------------------------- the buffer

  method Write64(a: array<byte>, at: nat, v: u64)
    requires at + 8 <= a.Length
    modifies a
    ensures a[..at + 8] == old(a[..at]) + Put64(v)
    ensures forall k :: at + 8 <= k < a.Length ==> a[k] == old(a[k])
  {
    Write32(a, at, v % 0x1_0000_0000);
    Write32(a, at + 4, v / 0x1_0000_0000);
  }

  method WriteBytes(a: array<byte>, at: nat, bytes: seq<byte>)
    requires at + |bytes| <= a.Length
    modifies a
    ensures a[..at + |bytes|] == old(a[..at]) + bytes
    ensures forall k :: at + |bytes| <= k < a.Length ==> a[k] == old(a[k])
  {
    forall i | 0 <= i < |bytes| {
      a[at + i] := bytes[i];
    }
  }

  ghost predicate ClearFrom(a: array<byte>, n: nat)
    reads a
  {
    forall k :: n <= k < a.Length ==> a[k] == 0
  }

  /** The part all headers share, in a zeroed buffer: the flags stay as they are. */
  method WriteFixed(a: array<byte>)
    requires a.Length == HEADER_SIZE && ClearFrom(a, 0)
    modifies a
    ensures a[..24] == KBB_MAGIC + Put16(1) + Put16(0) + Put16(128) + Put16(0) + Put64(128) && ClearFrom(a, 24)
  {
    WriteBytes(a, 0, KBB_MAGIC);
    Write16(a, 8, 1);
    Write16(a, 10, 0);
    Write16(a, 12, 128);
    assert a[..16] == a[..14] + Put16(0);
    Write64(a, 16, 128);
  }

  method WriteSections(h: Sections, a: array<byte>)
    requires a.Length == HEADER_SIZE && |h.root| == 32 && ClearFrom(a, 0)
    modifies a
    ensures a[..96] == Front(h) && ClearFrom(a, 96)
  {
    WriteFixed(a);
    Write64(a, 24, h.envelopeLength);
    Write64(a, 32, h.signatureOffset);
    Write64(a, 40, h.signatureLength);
    Write64(a, 48, h.payloadOffset);
    Write64(a, 56, h.payloadLength);
    WriteBytes(a, 64, h.root);
  }

  /** The buffer a header is encoded in, its checksum last. */
  method EncodeHeader(h: Sections) returns (bytes: seq<byte>)
    requires |h.root| == 32
    ensures bytes == EncodeSections(h)
  {
    var a := new byte[HEADER_SIZE](_ => 0);
    WriteSections(h, a);
    assert a[..] == a[..96] + Zeros(32);
    var crc := ComputeCrc32c(a[..]);
    Write32(a, 96, crc);
    assert a[100..] == Zeros(28);
    bytes := a[..];
  }
}
