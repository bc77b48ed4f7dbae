/** Whole bundles: the verifier as it reads a file, and the file the builder writes. */
module KbbBundle {
  import opened Results
  import opened Wire
  import opened KbbHeader
  import opened KbbLayout
  import opened KbbFile
  import opened KbbContent
  import opened KbbBuilder

  /** What an envelope says about blocks and files; its encoding is given. */
  datatype Contents = Contents(blocks: seq<Descriptor>, files: seq<FileRecord>)
  type Reading = seq<byte> -> Contents

  ghost predicate ContentsOk(c: Contents, payload: seq<byte>, hash: Hash, unzip: Unzip) {
    TableOk(c.blocks, Referenced(c.files), |payload|) && Verified(payload, c.blocks, c.files, hash, unzip)
  }

  /** A bundle the verifier accepts, as far as blocks and files go. */
  ghost predicate BundleOk(file: seq<byte>, reading: Reading, hash: Hash, unzip: Unzip) {
    && |file| >= HEADER_SIZE && DecodeSections(file[..HEADER_SIZE], |file|).Ok?
    && var h := DecodeSections(file[..HEADER_SIZE], |file|).value;
    && HEADER_SIZE + h.envelopeLength <= h.signatureOffset <= h.payloadOffset <= |file|
    && hash(Envelope(file, h)) == h.root
    && ZeroRange(file, HEADER_SIZE + h.envelopeLength, h.signatureOffset)
    && ZeroRange(file, h.signatureOffset + h.signatureLength, h.payloadOffset)
    && ContentsOk(reading(Envelope(file, h)), file[h.payloadOffset..], hash, unzip)
  }

  lemma ReferencesResolve(c: Contents, payloadLength: nat, i: nat)
    requires TableOk(c.blocks, Referenced(c.files), payloadLength) && i < |c.files|
    ensures Resolves(c.blocks, c.files[i].refs)
  {
    forall k | 0 <= k < |c.files[i].refs|
      ensures Find(c.blocks, c.files[i].refs[k]).Some?
    {
      assert c.files[i].refs[k] in Referenced(c.files);
      FindSpec(c.blocks, c.files[i].refs[k]);
    }
  }

  method VerifyContents(c: Contents, payload: seq<byte>, hash: Hash, unzip: Unzip) returns (ok: bool)
    ensures ok <==> ContentsOk(c, payload, hash, unzip)
  {
    var blocks := ValidateBlocks(c.blocks, Referenced(c.files), |payload|);
    if blocks.Err? { return false; }
    forall i | 0 <= i < |c.files| ensures Resolves(c.blocks, c.files[i].refs) { ReferencesResolve(c, |payload|, i); }
    ok := VerifyPayload(payload, c.blocks, c.files, hash, unzip);
  }

  /** Header, envelope digest and padding, then what the envelope says. */
  method VerifyBundle(file: seq<byte>, reading: Reading, hash: Hash, unzip: Unzip) returns (ok: bool)
    ensures ok <==> BundleOk(file, reading, hash, unzip)
  {
    if |file| < HEADER_SIZE { return false; }
    var header := DecodeSections(file[..HEADER_SIZE], |file|);
    if header.Err? { return false; }
    var h := header.value;
    DecodedSectionsEncode(file[..HEADER_SIZE], |file|, h);
    if hash(Envelope(file, h)) != h.root { return false; }
    var clear := CheckZeroRange(file, HEADER_SIZE + h.envelopeLength, h.signatureOffset);
    if !clear { return false; }
    clear := CheckZeroRange(file, h.signatureOffset + h.signatureLength, h.payloadOffset);
    if !clear { return false; }
    ok := VerifyContents(reading(Envelope(file, h)), file[h.payloadOffset..], hash, unzip);
  }

  /** What the verifier accepts is accepted for its layout, so its parts determine every byte. */
  lemma BundleIsAccepted(file: seq<byte>, reading: Reading, hash: Hash, unzip: Unzip)
    requires BundleOk(file, reading, hash, unzip)
    ensures Accepted(file, envelope => reading(envelope).blocks, hash)
  {
    var h := DecodeSections(file[..HEADER_SIZE], |file|).value;
    DecodedSectionsEncode(file[..HEADER_SIZE], |file|, h);
  }

  // ---------------------------------------------------------------- building

  /** The encodings the builder is given: envelopes read back, digests have 32 bytes. */
  ghost predicate Given(encode: Contents -> seq<byte>, reading: Reading, hash: Hash) {
    (forall c :: reading(encode(c)) == c) && forall bytes :: |hash(bytes)| == 32
  }

  /** Header, envelope, signatures and payload, each padded to its place. */
  function Assembled(envelope: seq<byte>, signatures: seq<byte>, payload: seq<byte>, root: seq<byte>): seq<byte>
    requires KbbFile.Fits(envelope, signatures, payload, root)
  {
    Pad(Pad(EncodeSections(HeaderFor(envelope, signatures, payload, root)) + envelope) + signatures) + payload
  }

  lemma AssembledBundleOk(c: Contents, payload: seq<byte>, envelope: seq<byte>, signatures: seq<byte>, reading: Reading,
                          hash: Hash, unzip: Unzip, file: seq<byte>)
    requires KbbFile.Fits(envelope, signatures, payload, hash(envelope)) && reading(envelope) == c
    requires ContentsOk(c, payload, hash, unzip) && file == Assembled(envelope, signatures, payload, hash(envelope))
    ensures BundleOk(file, reading, hash, unzip)
  {
    var h := HeaderFor(envelope, signatures, payload, hash(envelope));
    HeaderForIsCanonical(envelope, signatures, payload, hash(envelope), h.payloadOffset + |payload|);
    AssembledReads(h, envelope, signatures, payload, file);
  }

  /** What a finished bundle promises: the verifier accepts it, and every file reads back from it. */
  ghost predicate Ships(file: seq<byte>, files: seq<seq<byte>>, reading: Reading, hash: Hash, unzip: Unzip) {
    && BundleOk(file, reading, hash, unzip)
    && var h := DecodeSections(file[..HEADER_SIZE], |file|).value;
    var c := reading(Envelope(file, h));
    && |c.files| == |files|
    && forall i :: 0 <= i < |files| ==> Delivers(file[h.payloadOffset..], c.blocks, files[i], c.files[i], hash, unzip)
  }

  lemma AssembledShips(b: Bundle, files: seq<seq<byte>>, envelope: seq<byte>, signatures: seq<byte>, reading: Reading,
                       hash: Hash, unzip: Unzip, file: seq<byte>)
    requires Whole(b, files, hash, unzip) && |b.table| <= MAX_BLOCKS
    requires reading(envelope) == Contents(b.table, b.records)
    requires KbbFile.Fits(envelope, signatures, b.payload, hash(envelope))
    requires file == Assembled(envelope, signatures, b.payload, hash(envelope))
    ensures Ships(file, files, reading, hash, unzip)
  {
    AssembledBundleOk(Contents(b.table, b.records), b.payload, envelope, signatures, reading, hash, unzip, file);
    var h := HeaderFor(envelope, signatures, b.payload, hash(envelope));
    HeaderForIsCanonical(envelope, signatures, b.payload, hash(envelope), h.payloadOffset + |b.payload|);
    AssembledReads(h, envelope, signatures, b.payload, file);
  }

  /** Too many blocks, or a section outside its limits. */
  predicate Oversized(b: Bundle, encode: Contents -> seq<byte>, sign: seq<byte> -> seq<byte>, hash: Hash) {
    var envelope := encode(Contents(b.table, b.records));
    |b.table| > MAX_BLOCKS || !KbbFile.Fits(envelope, sign(hash(envelope)), b.payload, hash(envelope))
  }

  function Finished(b: Bundle, encode: Contents -> seq<byte>, sign: seq<byte> -> seq<byte>, hash: Hash): seq<byte>
    requires !Oversized(b, encode, sign, hash)
  {
    var envelope := encode(Contents(b.table, b.records));
    Assembled(envelope, sign(hash(envelope)), b.payload, hash(envelope))
  }

  /** Builds a bundle. It fails exactly when two different chunks hash alike, there are too many
      blocks, or a section is outside its limits; otherwise the verifier accepts the file and every
      input file reads back from it. `b` is what the file is made of. */
  method BuildBundle(files: seq<seq<byte>>, hash: Hash, zip: Zip, ghost unzip: Unzip, encode: Contents -> seq<byte>,
                     sign: seq<byte> -> seq<byte>, ghost reading: Reading)
    returns (r: Result<seq<byte>, Code>, b: Bundle)
    requires Faithful(zip, unzip) && Given(encode, reading, hash)
    ensures r.Ok? ==> Ships(r.value, files, reading, hash, unzip)
    ensures r == Err(BadBlock) <==> Clash(AllChunks(files), hash)
    ensures !Clash(AllChunks(files), hash) ==>
              Whole(b, files, hash, unzip) && r == if Oversized(b, encode, sign, hash) then Err(Bounds)
                                                   else Ok(Finished(b, encode, sign, hash))
  {
    b := Bundle([], [], []);
    var built := Build(files, hash, zip, unzip);
    if built.Err? { return Err(BadBlock), b; }
    b := built.value;
    var envelope := encode(Contents(b.table, b.records));
    var root := hash(envelope);
    var signatures := sign(root);
    if |b.table| > MAX_BLOCKS || !KbbFile.Fits(envelope, signatures, b.payload, root) { return Err(Bounds), b; }
    var file := Assembled(envelope, signatures, b.payload, root);
    AssembledShips(b, files, envelope, signatures, reading, hash, unzip, file);
    r := Ok(file);
  }
}
