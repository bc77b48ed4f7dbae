/** The content of a bundle's payload: stored blocks, and the files referring to them. */
module KbbContent {
  import opened Results
  import opened Wire
  import opened KbbHeader
  import opened KbbLayout
  import opened KbbFile

  /** Decompression of one whole frame that declares this raw size; zstd is given. */
  type Unzip = (seq<byte>, nat) -> Option<seq<byte>>

  /** What the tree says about a regular file. */
  datatype FileRecord = FileRecord(refs: seq<Key>, digest: Digest)

  function ReadRawBlock(payload: seq<byte>, d: Descriptor, hash: Hash, unzip: Unzip): Result<seq<byte>, Code>
    requires d.offset + d.storedSize <= |payload|
  {
    var stored := payload[d.offset..d.offset + d.storedSize];
    if hash(stored) != d.storedDigest then Err(BadBlock)
    else if d.codec == 0 then Ok(stored)
    else
      var raw := unzip(stored, d.rawSize);
      if raw.None? then Err(BadBlock) else Ok(raw.value)
  }

  /** The block reads as content with the digest it is known by. */
  predicate Genuine(payload: seq<byte>, d: Descriptor, hash: Hash, unzip: Unzip) {
    && d.offset + d.storedSize <= |payload|
    && var raw := ReadRawBlock(payload, d, hash, unzip);
    raw.Ok? && hash(raw.value) == d.digest
  }

  /** The descriptor under a key; a later one replaces an earlier one. */
  function Find(blocks: seq<Descriptor>, key: Key): Option<Descriptor> {
    if blocks == [] then None
    else if blocks[|blocks| - 1].Key() == key then Some(blocks[|blocks| - 1])
    else Find(blocks[..|blocks| - 1], key)
  }

  lemma {:induction false} FindSpec(blocks: seq<Descriptor>, key: Key)
    ensures Find(blocks, key).Some? <==> exists k :: 0 <= k < |blocks| && blocks[k].Key() == key
    ensures Find(blocks, key).Some? ==> Find(blocks, key).value in blocks && Find(blocks, key).value.Key() == key
  {
    if blocks != [] {
      var shorter := blocks[..|blocks| - 1];
      FindSpec(shorter, key);
      if exists k :: 0 <= k < |blocks| && blocks[k].Key() == key {
        var k :| 0 <= k < |blocks| && blocks[k].Key() == key;
        assert k < |shorter| ==> shorter[k].Key() == key;
      }
      if exists k :: 0 <= k < |shorter| && shorter[k].Key() == key {
        var k :| 0 <= k < |shorter| && shorter[k].Key() == key;
        assert blocks[k].Key() == key;
      }
    }
  }

  /** In an ordered table a key names one descriptor. */
  lemma FindOrdered(blocks: seq<Descriptor>, k: nat)
    requires Ordered(blocks) && k < |blocks|
    ensures Find(blocks, blocks[k].Key()) == Some(blocks[k])
  {
    var key := blocks[k].Key();
    FindSpec(blocks, key);
    var j :| 0 <= j < |blocks| && blocks[j] == Find(blocks, key).value;
    KeyOrder(key, key, key);
  }

  /** The content a list of references stands for. */
  function ReadFile(payload: seq<byte>, blocks: seq<Descriptor>, refs: seq<Key>, hash: Hash,
                    unzip: Unzip): Option<seq<byte>> {
    if refs == [] then Some([])
    else
      var d := Find(blocks, refs[|refs| - 1]);
      var before := ReadFile(payload, blocks, refs[..|refs| - 1], hash, unzip);
      if before.None? || d.None? || d.value.offset + d.value.storedSize > |payload| then None
      else
        var raw := ReadRawBlock(payload, d.value, hash, unzip);
        if raw.Err? then None else Some(before.value + raw.value)
  }

  predicate FileGenuine(payload: seq<byte>, blocks: seq<Descriptor>, f: FileRecord, hash: Hash, unzip: Unzip) {
    var content := ReadFile(payload, blocks, f.refs, hash, unzip);
    content.Some? && hash(content.value) == f.digest
  }

  /** Everything the verifier checks about the payload. */
  ghost predicate Verified(payload: seq<byte>, blocks: seq<Descriptor>, files: seq<FileRecord>, hash: Hash,
                           unzip: Unzip) {
    && GapsClear(payload, blocks)
    && (forall k :: 0 <= k < |blocks| ==> Genuine(payload, blocks[k], hash, unzip))
    && (forall i :: 0 <= i < |files| ==> FileGenuine(payload, blocks, files[i], hash, unzip))
  }

  /** Padding and blocks in one pass. */
  method VerifyBlocks(payload: seq<byte>, blocks: seq<Descriptor>, hash: Hash, unzip: Unzip) returns (ok: bool)
    requires Packed(blocks, |payload|)
    ensures ok <==>
      GapsClear(payload, blocks) && forall k :: 0 <= k < |blocks| ==> Genuine(payload, blocks[k], hash, unzip)
  {
    BlocksInside(blocks, |payload|);
    var previous, i := 0, 0;
    while i < |blocks|
      invariant i <= |blocks| && previous == End(blocks, i)
      invariant forall k :: 0 <= k < i ==> GapClear(payload, blocks, k)
      invariant forall k :: 0 <= k < i ==> Genuine(payload, blocks[k], hash, unzip)
    {
      assert PackedAt(blocks, i);
      var clear := CheckZeroRange(payload, previous, blocks[i].offset);
      if !clear {
        assert !GapClear(payload, blocks, i);
        return false;
      }
      var raw := ReadRawBlock(payload, blocks[i], hash, unzip);
      if raw.Err? || hash(raw.value) != blocks[i].digest { return false; }
      previous := blocks[i].offset + blocks[i].storedSize;
      i := i + 1;
    }
    ok := CheckZeroRange(payload, previous, |payload|);
  }

  ghost predicate Resolves(blocks: seq<Descriptor>, refs: seq<Key>) {
    forall k :: 0 <= k < |refs| ==> Find(blocks, refs[k]).Some?
  }

  /** Reads the blocks of a file in order, feeding them to the hasher. */
  method VerifyFile(payload: seq<byte>, blocks: seq<Descriptor>, f: FileRecord, hash: Hash, unzip: Unzip)
    returns (ok: bool)
    requires Packed(blocks, |payload|) && Resolves(blocks, f.refs)
    ensures ok <==> FileGenuine(payload, blocks, f, hash, unzip)
  {
    BlocksInside(blocks, |payload|);
    var fed, i := [], 0;
    while i < |f.refs|
      invariant i <= |f.refs| && ReadFile(payload, blocks, f.refs[..i], hash, unzip) == Some(fed)
    {
      FindSpec(blocks, f.refs[i]);
      var d := Find(blocks, f.refs[i]).value;
      assert f.refs[..i + 1][..i] == f.refs[..i];
      var raw := ReadRawBlock(payload, d, hash, unzip);
      if raw.Err? {
        PartUnread(payload, blocks, f.refs, hash, unzip, i + 1);
        return false;
      }
      fed := fed + raw.value;
      i := i + 1;
    }
    assert f.refs[..i] == f.refs;
    ok := hash(fed) == f.digest;
  }

  lemma {:induction false} PartUnread(payload: seq<byte>, blocks: seq<Descriptor>, refs: seq<Key>, hash: Hash,
                                      unzip: Unzip, n: nat)
    requires n <= |refs| && ReadFile(payload, blocks, refs[..n], hash, unzip).None?
    ensures ReadFile(payload, blocks, refs, hash, unzip).None?
    decreases |refs| - n
  {
    if n == |refs| {
      assert refs[..n] == refs;
    } else {
      assert refs[..n + 1][..n] == refs[..n];
      PartUnread(payload, blocks, refs, hash, unzip, n + 1);
    }
  }

  /** The payload is checked once its table has been. */
  method VerifyPayload(payload: seq<byte>, blocks: seq<Descriptor>, files: seq<FileRecord>, hash: Hash, unzip: Unzip)
    returns (ok: bool)
    requires Packed(blocks, |payload|) && forall i :: 0 <= i < |files| ==> Resolves(blocks, files[i].refs)
    ensures ok <==> Verified(payload, blocks, files, hash, unzip)
  {
    ok := VerifyBlocks(payload, blocks, hash, unzip);
    var i := 0;
    while ok && i < |files|
      invariant i <= |files| && (ok ==> forall k :: 0 <= k < i ==> FileGenuine(payload, blocks, files[k], hash, unzip))
      invariant !ok ==> !Verified(payload, blocks, files, hash, unzip)
      invariant ok ==>
        GapsClear(payload, blocks) && forall k :: 0 <= k < |blocks| ==> Genuine(payload, blocks[k], hash, unzip)
    {
      ok := VerifyFile(payload, blocks, files[i], hash, unzip);
      i := i + 1;
    }
  }
}
