/** Whole bundle files: fixed chunking, the builder's buffers, and acceptance of the layout. */
module KbbFile {
  import opened Results
  import opened Wire
  import opened KbbHeader
  import opened KbbLayout
  import TreePaths

  // ---------------------------------------------------------------- chunks of a file

  function Chunks(bytes: seq<byte>): seq<seq<byte>>
    decreases |bytes|
  {
    if bytes == [] then []
    else if |bytes| <= BLOCK_SIZE then [bytes]
    else [bytes[..BLOCK_SIZE]] + Chunks(bytes[BLOCK_SIZE..])
  }

  function Joined(parts: seq<seq<byte>>): seq<byte> { if parts == [] then [] else parts[0] + Joined(parts[1..]) }

  function Sum(sizes: seq<nat>): nat { if sizes == [] then 0 else sizes[0] + Sum(sizes[1..]) }

  function Sizes(parts: seq<seq<byte>>): (sizes: seq<nat>)
    ensures |sizes| == |parts|
  {
    seq(|parts|, i requires 0 <= i < |parts| => |parts[i]|)
  }

  /** All chunks but the last are full, and the last is not empty. */
  predicate Fixed(sizes: seq<nat>) {
    forall i :: 0 <= i < |sizes| ==> 0 < sizes[i] <= BLOCK_SIZE && (i + 1 != |sizes| ==> sizes[i] == BLOCK_SIZE)
  }

  /** What the verifier demands of the references of a file of `size` bytes. */
  predicate ChunkRule(sizes: seq<nat>, size: nat) {
    (size == 0 ==> sizes == []) && (size > 0 ==> sizes != []) && Fixed(sizes) && Sum(sizes) == size
  }

  lemma {:induction false} ChunksObey(bytes: seq<byte>)
    ensures ChunkRule(Sizes(Chunks(bytes)), |bytes|) && Joined(Chunks(bytes)) == bytes
    decreases |bytes|
  {
    var sizes := Sizes(Chunks(bytes));
    if bytes == [] {
    } else if |bytes| <= BLOCK_SIZE {
      assert Chunks(bytes)[1..] == [] && sizes[1..] == [];
      assert Joined(Chunks(bytes)) == bytes + Joined(Chunks(bytes)[1..]);
    } else {
      var rest := Chunks(bytes[BLOCK_SIZE..]);
      ChunksObey(bytes[BLOCK_SIZE..]);
      assert Chunks(bytes)[1..] == rest && sizes[1..] == Sizes(rest);
      forall i | 0 <= i < |sizes|
        ensures 0 < sizes[i] <= BLOCK_SIZE && (i + 1 != |sizes| ==> sizes[i] == BLOCK_SIZE)
      {
        if i > 0 { assert sizes[i] == Sizes(rest)[i - 1]; }
      }
    }
  }

  /** The rule leaves no choice: the size of a file fixes the sizes of its chunks. */
  lemma {:induction false} ChunkRuleDecides(a: seq<nat>, b: seq<nat>)
    requires Fixed(a) && Fixed(b) && Sum(a) == Sum(b)
    ensures a == b
  {
    if a != [] && b != [] {
      FirstChunk(a);
      FirstChunk(b);
      TailFixed(a);
      TailFixed(b);
      ChunkRuleDecides(a[1..], b[1..]);
      assert a == [a[0]] + a[1..] && b == [b[0]] + b[1..];
    }
  }

  lemma TailFixed(a: seq<nat>)
    requires a != [] && Fixed(a)
    ensures Fixed(a[1..])
  {
    var t := a[1..];
    forall i | 0 <= i < |t|
      ensures 0 < t[i] <= BLOCK_SIZE && (i + 1 != |t| ==> t[i] == BLOCK_SIZE)
    {
      assert t[i] == a[i + 1];
    }
  }

  lemma FirstChunk(a: seq<nat>)
    requires a != [] && Fixed(a)
    ensures a[0] == if Sum(a) >= BLOCK_SIZE then BLOCK_SIZE else Sum(a)
  {
    if |a| == 1 {
      assert a[1..] == [];
    }
  }

  /** Checks the references of one regular file with a running sum. */
  method ValidateChunks(sizes: seq<u64>, size: u64) returns (r: Result<(), Code>)
    ensures r.Ok? <==> ChunkRule(sizes, size)
  {
    if size == 0 && sizes != [] { return Err(BadTree); }
    if size != 0 && sizes == [] { return Err(BadTree); }
    var sum: u64, i := 0, 0;
    assert sizes[0..] == sizes;
    while i < |sizes|
      invariant i <= |sizes| && sum + Sum(sizes[i..]) == Sum(sizes)
      invariant forall k :: 0 <= k < i ==> 0 < sizes[k] <= BLOCK_SIZE && (k + 1 != |sizes| ==> sizes[k] == BLOCK_SIZE)
    {
      if sizes[i] == 0 || sizes[i] > BLOCK_SIZE || (i + 1 != |sizes| && sizes[i] != BLOCK_SIZE) { return Err(BadTree); }
      assert sizes[i..][1..] == sizes[i + 1..];
      if sum + sizes[i] > U64_MAX { return Err(Bounds); }
      sum, i := sum + sizes[i], i + 1;
    }
    r := if sum == size then Ok(()) else Err(BadTree);
  }

  /** An entry of the tree as the envelope spells it. */
  datatype FileEntry = FileEntry(
    kind: TreePaths.Kind, mode: Option<nat>, size: Option<u64>, digest: Option<Digest>,
    refs: Option<seq<(Digest, u64)>>, target: Option<seq<byte>>)

  function RawSizes(refs: seq<(Digest, u64)>): (sizes: seq<u64>)
    ensures |sizes| == |refs|
  {
    seq(|refs|, i requires 0 <= i < |refs| => refs[i].1)
  }

  /** Each kind has its own fields and no others; the chunks of a regular file obey the rule. */
  ghost predicate EntryOk(e: FileEntry, hash: Hash, valid: seq<byte> -> bool) {
    match e.kind
    case Directory => e == FileEntry(e.kind, Some(0), None, None, None, None)
    case Link => e.target.Some? && valid(e.target.value) && e == FileEntry(e.kind, None, None, None, None, e.target)
    case Regular =>
      && (e.mode == Some(0) || e.mode == Some(1)) && e.size.Some? && e.digest.Some? && e.refs.Some? && e.target.None?
      && ChunkRule(RawSizes(e.refs.value), e.size.value) && (e.size.value == 0 ==> e.digest.value == hash([]))
  }

  method ValidateFileEntry(e: FileEntry, hash: Hash, valid: seq<byte> -> bool) returns (r: Result<(), Code>)
    ensures r.Ok? <==> EntryOk(e, hash, valid)
  {
    match e.kind
    case Directory =>
      if e.mode != Some(0) || e.size.Some? || e.digest.Some? || e.refs.Some? || e.target.Some? { return Err(BadTree); }
      r := Ok(());
    case Regular =>
      if !(e.mode == Some(0) || e.mode == Some(1)) || e.size.None? || e.digest.None? || e.refs.None? || e.target.Some? {
        return Err(BadTree);
      }
      if e.size.value == 0 && e.digest.value != hash([]) { return Err(BadTree); }
      r := ValidateChunks(RawSizes(e.refs.value), e.size.value);
    case Link =>
      if e.mode.Some? || e.size.Some? || e.digest.Some? || e.refs.Some? || e.target.None? { return Err(BadTree); }
      if !valid(e.target.value) { return Err(BadTree); }
      r := Ok(());
  }

  // ---------------------------------------------------------------- the builder's buffers

  predicate StartsAt(stored: seq<seq<byte>>, k: nat, offset: nat) {
    k <= |stored| && offset == RoundUp(|Grow(stored, k)|)
  }

  /** Lays the stored blocks out one after the other, noting where each starts. */
  method LayOut(stored: seq<seq<byte>>) returns (payload: seq<byte>, offsets: seq<nat>)
    ensures payload == PayloadOf(stored) && |offsets| == |stored|
    ensures forall k :: 0 <= k < |stored| ==> StartsAt(stored, k, offsets[k])
  {
    payload, offsets := [], [];
    var i := 0;
    while i < |stored|
      invariant i <= |stored| && payload == Grow(stored, i) && |offsets| == i
      invariant forall k :: 0 <= k < i ==> StartsAt(stored, k, offsets[k])
    {
      payload := Pad(payload);
      offsets := offsets + [|payload|];
      payload := payload + stored[i];
      i := i + 1;
    }
    payload := Pad(payload);
  }

  /** Looks for a non-zero byte, a buffer at a time. */
  method CheckZeroRange(file: seq<byte>, start: nat, end: nat) returns (ok: bool)
    requires end <= |file|
    ensures ok <==> ZeroRange(file, start, end)
  {
    if end < start { return false; }
    var at := start;
    while at < end
      invariant start <= at <= end && forall k :: start <= k < at ==> file[k] == 0
    {
      var stop := if at + 4096 <= end then at + 4096 else end;
      var i := at;
      while i < stop
        invariant at <= i <= stop && forall k :: start <= k < i ==> file[k] == 0
      {
        if file[i] != 0 { return false; }
        i := i + 1;
      }
      at := stop;
    }
    ok := true;
  }

  // ---------------------------------------------------------------- whole files

  /** What the envelope says about blocks, and how content is hashed: both are given. */
  type Table = seq<byte> -> seq<Descriptor>
  type Hash = seq<byte> -> seq<byte>

  function Envelope(file: seq<byte>, h: Sections): seq<byte>
    requires HEADER_SIZE + h.envelopeLength <= |file|
  {
    file[HEADER_SIZE..HEADER_SIZE + h.envelopeLength]
  }

  /** Everything the verifier checks about the position of bytes. */
  ghost predicate Accepted(file: seq<byte>, table: Table, hash: Hash) {
    && |file| >= HEADER_SIZE && DecodeSections(file[..HEADER_SIZE], |file|).Ok?
    && var h := DecodeSections(file[..HEADER_SIZE], |file|).value;
    && HEADER_SIZE + h.envelopeLength <= h.signatureOffset <= h.payloadOffset <= |file|
    && hash(Envelope(file, h)) == h.root
    && ZeroRange(file, HEADER_SIZE + h.envelopeLength, h.signatureOffset)
    && ZeroRange(file, h.signatureOffset + h.signatureLength, h.payloadOffset)
    && Packed(table(Envelope(file, h)), h.payloadLength) && GapsClear(file[h.payloadOffset..], table(Envelope(file, h)))
  }

  function HeaderFor(envelope: seq<byte>, signatures: seq<byte>, payload: seq<byte>, root: seq<byte>): (h: Sections)
    requires |envelope| <= MAX_ENVELOPE_LENGTH && |signatures| <= MAX_SIGNATURE_LENGTH
    requires |payload| <= MAX_PAYLOAD_LENGTH
    requires |root| == 32
    ensures |h.root| == 32
  {
    var at := RoundUp(HEADER_SIZE + |envelope|);
    Sections(|envelope|, at, |signatures|, RoundUp(at + |signatures|), |payload|, root)
  }

  predicate Fits(envelope: seq<byte>, signatures: seq<byte>, payload: seq<byte>, root: seq<byte>) {
    && 1 <= |envelope| <= MAX_ENVELOPE_LENGTH && 1 <= |signatures| <= MAX_SIGNATURE_LENGTH
    && |payload| <= MAX_PAYLOAD_LENGTH && |root| == 32
  }

  /** The file of an envelope, its signatures and its stored blocks. */
  function Assemble(envelope: seq<byte>, signatures: seq<byte>, stored: seq<seq<byte>>, root: seq<byte>): seq<byte>
    requires Fits(envelope, signatures, PayloadOf(stored), root)
  {
    Pad(Pad(EncodeSections(HeaderFor(envelope, signatures, PayloadOf(stored), root)) + envelope) + signatures)
      + PayloadOf(stored)
  }

  lemma HeaderIsForced(h: Sections, fileLength: nat, envelope: seq<byte>, signatures: seq<byte>, payload: seq<byte>)
    requires Canonical(h, fileLength) && |envelope| == h.envelopeLength && |signatures| == h.signatureLength
    requires |payload| == h.payloadLength
    ensures Fits(envelope, signatures, payload, h.root) && HeaderFor(envelope, signatures, payload, h.root) == h
  {
  }

  lemma TwoPads(file: seq<byte>, head: seq<byte>, envelope: seq<byte>, signatures: seq<byte>, a: nat, b: nat, c: nat,
                d: nat)
    requires a <= b <= c <= d <= |file| && head + envelope == file[..a] && signatures == file[b..c]
    requires b == RoundUp(a) && d == RoundUp(c) && ZeroRange(file, a, b) && ZeroRange(file, c, d)
    ensures Pad(Pad(head + envelope) + signatures) == file[..d]
  {
    PadTo(head + envelope, file, a, b);
    assert file[..b] + file[b..c] == file[..c];
    PadTo(file[..c], file, c, d);
  }

  /** The parts in place are the parts assembled. */
  lemma Tiles(file: seq<byte>, h: Sections, envelope: seq<byte>, signatures: seq<byte>, stored: seq<seq<byte>>)
    requires Canonical(h, |file|) && file[..HEADER_SIZE] == EncodeSections(h)
    requires envelope == Envelope(file, h)
    requires signatures == file[h.signatureOffset..h.signatureOffset + h.signatureLength]
    requires ZeroRange(file, HEADER_SIZE + h.envelopeLength, h.signatureOffset)
    requires ZeroRange(file, h.signatureOffset + h.signatureLength, h.payloadOffset)
    requires file[h.payloadOffset..] == PayloadOf(stored)
    ensures Fits(envelope, signatures, PayloadOf(stored), h.root)
    ensures file == Assemble(envelope, signatures, stored, h.root)
  {
    var head := file[..HEADER_SIZE];
    HeaderIsForced(h, |file|, envelope, signatures, PayloadOf(stored));
    assert head + envelope == file[..HEADER_SIZE + h.envelopeLength];
    TwoPads(file, head, envelope, signatures, HEADER_SIZE + h.envelopeLength, h.signatureOffset,
            h.signatureOffset + h.signatureLength, h.payloadOffset);
    assert file == file[..h.payloadOffset] + file[h.payloadOffset..];
  }

  /** An accepted file is tiled by header, envelope, signatures, stored blocks and zero padding:
      it is the file assembled from those parts, so they determine every byte of it. */
  lemma AcceptedIsAssembled(file: seq<byte>, table: Table, hash: Hash, h: Sections)
    requires Accepted(file, table, hash) && DecodeSections(file[..HEADER_SIZE], |file|) == Ok(h)
    ensures h.signatureOffset + h.signatureLength <= h.payloadOffset <= |file|
    ensures var envelope, signatures := Envelope(file, h),
      file[h.signatureOffset..h.signatureOffset + h.signatureLength];
      var payload := file[h.payloadOffset..];
      && Inside(table(envelope), |payload|) && hash(envelope) == h.root
      && var stored := Stored(payload, table(envelope));
      && Fits(envelope, signatures, PayloadOf(stored), h.root)
      && file == Assemble(envelope, signatures, stored, h.root)
  {
    DecodedSectionsEncode(file[..HEADER_SIZE], |file|, h);
    var envelope := Envelope(file, h);
    var payload := file[h.payloadOffset..];
    PayloadTiles(payload, table(envelope));
    Tiles(file, h, envelope, file[h.signatureOffset..h.signatureOffset + h.signatureLength],
      Stored(payload, table(envelope)));
  }

  lemma PadPrefix(s: seq<byte>, rest: seq<byte>, file: seq<byte>)
    requires file == Pad(s) + rest
    ensures |Pad(s)| == RoundUp(|s|) && file[..|s|] == s && ZeroRange(file, |s|, RoundUp(|s|))
    ensures file[RoundUp(|s|)..] == rest
  {
  }

  /** Where the parts of an assembled file come to stand. */
  lemma Stands(head: seq<byte>, envelope: seq<byte>, signatures: seq<byte>, payload: seq<byte>, file: seq<byte>,
               a: nat, b: nat)
    requires file == Pad(Pad(head + envelope) + signatures) + payload
    requires a == RoundUp(|head| + |envelope|) && b == RoundUp(a + |signatures|)
    ensures |file| == b + |payload| && |head| + |envelope| <= a <= a + |signatures| <= b
    ensures file[..|head|] == head && file[|head|..|head| + |envelope|] == envelope && file[b..] == payload
    ensures ZeroRange(file, |head| + |envelope|, a) && ZeroRange(file, a + |signatures|, b)
  {
    var front := Pad(head + envelope);
    PadPrefix(front + signatures, payload, file);
    var rest := signatures + Zeros(b - (a + |signatures|)) + payload;
    assert file == front + rest;
    PadPrefix(head + envelope, rest, file);
    assert file[..|head|] == (head + envelope)[..|head|];
    assert file[|head|..|head| + |envelope|] == (head + envelope)[|head|..];
  }

  /** What the builder assembles is accepted, for every envelope whose table describes the blocks. */
  lemma AssembledIsAccepted(envelope: seq<byte>, signatures: seq<byte>, stored: seq<seq<byte>>, table: Table,
                            hash: Hash, file: seq<byte>)
    requires Fits(envelope, signatures, PayloadOf(stored), hash(envelope)) && Describes(table(envelope), stored)
    requires file == Assemble(envelope, signatures, stored, hash(envelope))
    ensures Accepted(file, table, hash)
  {
    var payload := PayloadOf(stored);
    var h := HeaderFor(envelope, signatures, payload, hash(envelope));
    BuiltPayloadPasses(table(envelope), stored, payload);
    HeaderForIsCanonical(envelope, signatures, payload, hash(envelope), h.payloadOffset + |payload|);
    AssembledReads(h, envelope, signatures, payload, file);
    PartsAccepted(file, table, hash, h, envelope, payload);
  }

  lemma AssembledReads(h: Sections, envelope: seq<byte>, signatures: seq<byte>, payload: seq<byte>, file: seq<byte>)
    requires Canonical(h, h.payloadOffset + |payload|) && |envelope| == h.envelopeLength
    requires |signatures| == h.signatureLength
    requires file == Pad(Pad(EncodeSections(h) + envelope) + signatures) + payload
    ensures |file| >= HEADER_SIZE && DecodeSections(file[..HEADER_SIZE], |file|) == Ok(h)
    ensures HEADER_SIZE + h.envelopeLength <= h.signatureOffset <= h.payloadOffset <= |file|
    ensures Envelope(file, h) == envelope && file[h.payloadOffset..] == payload
    ensures ZeroRange(file, HEADER_SIZE + h.envelopeLength, h.signatureOffset)
    ensures ZeroRange(file, h.signatureOffset + h.signatureLength, h.payloadOffset)
  {
    EncodedSectionsDecode(h, h.payloadOffset + |payload|);
    HeadStands(h, EncodeSections(h), envelope, signatures, payload, file);
  }

  lemma HeadStands(h: Sections, head: seq<byte>, envelope: seq<byte>, signatures: seq<byte>, payload: seq<byte>,
                   file: seq<byte>)
    requires Canonical(h, h.payloadOffset + |payload|) && |envelope| == h.envelopeLength
    requires |signatures| == h.signatureLength
    requires |head| == HEADER_SIZE && file == Pad(Pad(head + envelope) + signatures) + payload
    ensures |file| == h.payloadOffset + |payload| && |file| >= HEADER_SIZE && file[..HEADER_SIZE] == head
    ensures HEADER_SIZE + h.envelopeLength <= h.signatureOffset <= h.payloadOffset <= |file|
    ensures Envelope(file, h) == envelope && file[h.payloadOffset..] == payload
    ensures ZeroRange(file, HEADER_SIZE + h.envelopeLength, h.signatureOffset)
    ensures ZeroRange(file, h.signatureOffset + h.signatureLength, h.payloadOffset)
  {
    Stands(head, envelope, signatures, payload, file, h.signatureOffset, h.payloadOffset);
  }

  lemma HeaderForIsCanonical(envelope: seq<byte>, signatures: seq<byte>, payload: seq<byte>, root: seq<byte>,
                             length: nat)
    requires Fits(envelope, signatures, payload, root)
    requires length == HeaderFor(envelope, signatures, payload, root).payloadOffset + |payload|
    ensures Canonical(HeaderFor(envelope, signatures, payload, root), length)
  {
  }

  lemma PartsAccepted(file: seq<byte>, table: Table, hash: Hash, h: Sections, envelope: seq<byte>, payload: seq<byte>)
    requires |file| >= HEADER_SIZE && DecodeSections(file[..HEADER_SIZE], |file|) == Ok(h)
    requires HEADER_SIZE + h.envelopeLength <= h.signatureOffset <= h.payloadOffset <= |file|
    requires Envelope(file, h) == envelope && hash(envelope) == h.root && file[h.payloadOffset..] == payload
    requires ZeroRange(file, HEADER_SIZE + h.envelopeLength, h.signatureOffset)
    requires ZeroRange(file, h.signatureOffset + h.signatureLength, h.payloadOffset)
    requires Packed(table(envelope), h.payloadLength) && GapsClear(payload, table(envelope))
    ensures Accepted(file, table, hash)
  {
  }

  /** Two accepted files with the same envelope, signatures and stored blocks are the same file. */
  lemma PartsDetermineFile(file: seq<byte>, other: seq<byte>, table: Table, hash: Hash, h: Sections, g: Sections)
    requires Accepted(file, table, hash) && DecodeSections(file[..HEADER_SIZE], |file|) == Ok(h)
    requires Accepted(other, table, hash) && DecodeSections(other[..HEADER_SIZE], |other|) == Ok(g)
    requires Envelope(file, h) == Envelope(other, g)
    requires h.signatureOffset + h.signatureLength <= |file| && g.signatureOffset + g.signatureLength <= |other|
    requires file[h.signatureOffset..h.signatureOffset + h.signatureLength]
          == other[g.signatureOffset..g.signatureOffset + g.signatureLength]
    requires Inside(table(Envelope(file, h)), |file| - h.payloadOffset)
    requires Inside(table(Envelope(other, g)), |other| - g.payloadOffset)
    requires Stored(file[h.payloadOffset..], table(Envelope(file, h))) ==
      Stored(other[g.payloadOffset..], table(Envelope(other, g)))
    ensures file == other
  {
    AcceptedIsAssembled(file, table, hash, h);
    AcceptedIsAssembled(other, table, hash, g);
  }
}
