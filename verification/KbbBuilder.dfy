/** The builder: files are cut into chunks, equal chunks are stored once, and what is laid out
    passes the verifier and reads back as the files it was built from. */
module KbbBuilder {
  import opened Results
  import opened Wire
  import opened KbbHeader
  import opened KbbLayout
  import opened KbbFile
  import opened KbbContent
  import CborLemmas

  /** Compression when the configuration asks for it; zstd is given. */
  type Zip = Option<seq<byte> -> seq<byte>>

  datatype Block = Block(raw: seq<byte>, stored: seq<byte>, codec: nat)

  function KeyOf(hash: Hash, raw: seq<byte>): Key { (hash(raw), |raw|) }

  /** Compressed only where that saves at least a twentieth. */
  function StoreBlock(raw: seq<byte>, zip: Zip): Block {
    if zip.Some? && |zip.value(raw)| * 100 <= |raw| * 95 then Block(raw, zip.value(raw), 1) else Block(raw, raw, 0)
  }

  // ---------------------------------------------------------------- collecting blocks

  ghost function Elements(parts: seq<seq<byte>>): set<seq<byte>> { set raw | raw in parts }

  ghost function AllChunks(files: seq<seq<byte>>): set<seq<byte>> {
    if files == [] then {} else AllChunks(files[..|files| - 1]) + Elements(Chunks(files[|files| - 1]))
  }

  /** Two different chunks that hash alike. */
  ghost predicate Clash(raws: set<seq<byte>>, hash: Hash) {
    exists a, b :: a in raws && b in raws && a != b && KeyOf(hash, a) == KeyOf(hash, b)
  }

  ghost predicate Kept(blocks: map<Key, Block>, raw: seq<byte>, hash: Hash) {
    KeyOf(hash, raw) in blocks && blocks[KeyOf(hash, raw)].raw == raw
  }

  /** One block for each of these chunks, under its key, and no other. */
  ghost predicate Holds(blocks: map<Key, Block>, raws: set<seq<byte>>, hash: Hash, zip: Zip) {
    && (forall key :: key in blocks ==>
          && blocks[key].raw in raws && KeyOf(hash, blocks[key].raw) == key
          && blocks[key] == StoreBlock(blocks[key].raw, zip))
    && (forall raw :: raw in raws ==> Kept(blocks, raw, hash))
  }

  lemma HeldApart(blocks: map<Key, Block>, raws: set<seq<byte>>, hash: Hash, zip: Zip)
    requires Holds(blocks, raws, hash, zip)
    ensures !Clash(raws, hash)
  {
    forall a, b | a in raws && b in raws && KeyOf(hash, a) == KeyOf(hash, b)
      ensures a == b
    {
      assert Kept(blocks, a, hash) && Kept(blocks, b, hash);
    }
  }

  function Refs(hash: Hash, parts: seq<seq<byte>>): (refs: seq<Key>)
    ensures |refs| == |parts|
  {
    seq(|parts|, i requires 0 <= i < |parts| => KeyOf(hash, parts[i]))
  }

  lemma ClashGrows(raws: set<seq<byte>>, more: set<seq<byte>>, hash: Hash)
    requires Clash(raws, hash) && raws <= more
    ensures Clash(more, hash)
  {
    var a, b :| a in raws && b in raws && a != b && KeyOf(hash, a) == KeyOf(hash, b);
    assert a in more && b in more;
  }

  /** A chunk already there is stored once; another with its key stops the build. */
  method AddChunk(blocks: map<Key, Block>, raw: seq<byte>, hash: Hash, zip: Zip, ghost raws: set<seq<byte>>)
    returns (r: Result<map<Key, Block>, Code>)
    requires Holds(blocks, raws, hash, zip)
    ensures r.Ok? <==> !Clash(raws + {raw}, hash)
    ensures r.Ok? ==> Holds(r.value, raws + {raw}, hash, zip)
  {
    var key := KeyOf(hash, raw);
    if key in blocks {
      if blocks[key].raw != raw {
        ghost var other := blocks[key].raw;
        assert other in raws + {raw} && raw in raws + {raw};
        return Err(BadBlock);
      }
      r := Ok(blocks);
    } else {
      r := Ok(blocks[key := StoreBlock(raw, zip)]);
      forall other | other in raws ensures Kept(r.value, other, hash) { assert Kept(blocks, other, hash); }
    }
    HeldApart(r.value, raws + {raw}, hash, zip);
  }

  lemma OneMore(hash: Hash, parts: seq<seq<byte>>, i: nat)
    requires i < |parts|
    ensures Elements(parts[..i + 1]) == Elements(parts[..i]) + {parts[i]} <= Elements(parts)
    ensures Refs(hash, parts[..i + 1]) == Refs(hash, parts[..i]) + [KeyOf(hash, parts[i])]
  {
    assert parts[..i + 1] == parts[..i] + [parts[i]];
  }

  /** Adds the chunks of one file. */
  method AddFile(blocks: map<Key, Block>, bytes: seq<byte>, hash: Hash, zip: Zip, ghost raws: set<seq<byte>>)
    returns (r: Result<(map<Key, Block>, seq<Key>), Code>)
    requires Holds(blocks, raws, hash, zip)
    ensures r.Ok? <==> !Clash(raws + Elements(Chunks(bytes)), hash)
    ensures r.Ok? ==>
      Holds(r.value.0, raws + Elements(Chunks(bytes)), hash, zip) && r.value.1 == Refs(hash, Chunks(bytes))
  {
    var parts := Chunks(bytes);
    var held, refs, i := blocks, [], 0;
    ghost var all, seen := raws + Elements(parts), raws;
    while i < |parts|
      invariant i <= |parts| && refs == Refs(hash, parts[..i])
      invariant Holds(held, seen, hash, zip) && seen == raws + Elements(parts[..i])
    {
      var added := AddChunk(held, parts[i], hash, zip, seen);
      OneMore(hash, parts, i);
      seen := seen + {parts[i]};
      if added.Err? {
        ClashGrows(seen, all, hash);
        return Err(added.error);
      }
      held, refs, i := added.value, refs + [KeyOf(hash, parts[i])], i + 1;
    }
    assert parts[..i] == parts;
    HeldApart(held, all, hash, zip);
    r := Ok((held, refs));
  }

  lemma {:induction false} FewerChunks(files: seq<seq<byte>>, n: nat)
    requires n <= |files|
    ensures AllChunks(files[..n]) <= AllChunks(files)
  {
    if n == |files| {
      assert files[..n] == files;
    } else {
      var shorter := files[..|files| - 1];
      FewerChunks(shorter, n);
      assert shorter[..n] == files[..n];
    }
  }

  /** Every regular file in turn. Fails exactly when two different chunks hash alike. */
  method CollectBlocks(files: seq<seq<byte>>, hash: Hash, zip: Zip)
    returns (r: Result<(map<Key, Block>, seq<seq<Key>>), Code>)
    ensures r.Ok? <==> !Clash(AllChunks(files), hash)
    ensures r.Ok? ==> Holds(r.value.0, AllChunks(files), hash, zip) && |r.value.1| == |files|
    ensures r.Ok? ==> forall i :: 0 <= i < |files| ==> r.value.1[i] == Refs(hash, Chunks(files[i]))
  {
    var held: map<Key, Block>, refs, i := map[], [], 0;
    while i < |files|
      invariant i <= |files| && |refs| == i && Holds(held, AllChunks(files[..i]), hash, zip)
      invariant forall k :: 0 <= k < i ==> refs[k] == Refs(hash, Chunks(files[k]))
    {
      var added := AddFile(held, files[i], hash, zip, AllChunks(files[..i]));
      assert files[..i + 1][..i] == files[..i];
      if added.Err? {
        FewerChunks(files, i + 1);
        ClashGrows(AllChunks(files[..i + 1]), AllChunks(files), hash);
        return Err(added.error);
      }
      held, refs, i := added.value.0, refs + [added.value.1], i + 1;
    }
    assert files[..i] == files;
    HeldApart(held, AllChunks(files), hash, zip);
    r := Ok((held, refs));
  }

  lemma {:induction false} ChunkOf(files: seq<seq<byte>>, raw: seq<byte>)
    ensures raw in AllChunks(files) <==> exists i :: 0 <= i < |files| && raw in Chunks(files[i])
  {
    if files != [] {
      var n := |files| - 1;
      var shorter := files[..n];
      ChunkOf(shorter, raw);
      assert forall i :: 0 <= i < n ==> shorter[i] == files[i];
      if exists i :: 0 <= i < |files| && raw in Chunks(files[i]) {
        var i :| 0 <= i < |files| && raw in Chunks(files[i]);
        assert i < n ==> raw in Chunks(shorter[i]);
      }
    }
  }

  lemma ChunkSize(files: seq<seq<byte>>, raw: seq<byte>)
    requires raw in AllChunks(files)
    ensures 1 <= |raw| <= BLOCK_SIZE
  {
    ChunkOf(files, raw);
    var i :| 0 <= i < |files| && raw in Chunks(files[i]);
    var j :| 0 <= j < |Chunks(files[i])| && Chunks(files[i])[j] == raw;
    ChunksObey(files[i]);
    assert Sizes(Chunks(files[i]))[j] == |raw|;
  }

  // ---------------------------------------------------------------- the sorted map

  ghost predicate Increasing(order: seq<Key>) { forall i, j :: 0 <= i < j < |order| ==> KeyBefore(order[i], order[j]) }

  /** These keys, each once, in increasing order. */
  ghost predicate Lines(order: seq<Key>, keys: set<Key>) {
    Increasing(order) && forall key :: key in keys <==> key in order
  }

  lemma KeyTotal(a: Key, b: Key)
    ensures a == b || KeyBefore(a, b) || KeyBefore(b, a)
  {
    CborLemmas.LexicalOrder(a.0, b.0, a.0);
  }

  ghost predicate Least(keys: set<Key>, key: Key) {
    key in keys && forall other :: other in keys && other != key ==> KeyBefore(key, other)
  }

  lemma {:induction false} HasLeast(keys: set<Key>)
    requires keys != {}
    ensures exists key :: Least(keys, key)
    decreases |keys|
  {
    var key :| key in keys;
    var rest := keys - {key};
    if rest == {} {
      assert keys == {key};
      assert Least(keys, key);
    } else {
      HasLeast(rest);
      var low :| Least(rest, low);
      KeyTotal(key, low);
      var least := if KeyBefore(key, low) then key else low;
      forall other | other in keys && other != least
        ensures KeyBefore(least, other)
      {
        KeyOrder(key, low, other);
      }
      assert Least(keys, least);
    }
  }

  /** The order in which a sorted map is iterated. */
  method SortedKeys(keys: set<Key>) returns (order: seq<Key>)
    ensures Lines(order, keys)
  {
    order := [];
    var left := keys;
    while left != {}
      invariant left <= keys && Increasing(order) && forall key :: key in keys <==> key in order || key in left
      invariant forall k, key :: 0 <= k < |order| && key in left ==> KeyBefore(order[k], key)
      decreases |left|
    {
      HasLeast(left);
      var key :| key in left && forall other :: other in left && other != key ==> KeyBefore(key, other);
      order, left := order + [key], left - {key};
    }
  }

  // ---------------------------------------------------------------- payload and table

  predicate Within(order: seq<Key>, held: map<Key, Block>) { forall k :: 0 <= k < |order| ==> order[k] in held }

  function StoredOf(order: seq<Key>, held: map<Key, Block>): (stored: seq<seq<byte>>)
    requires Within(order, held)
    ensures |stored| == |order|
  {
    seq(|order|, k requires 0 <= k < |order| => held[order[k]].stored)
  }

  function DescriptorAt(key: Key, b: Block, offset: nat, hash: Hash): Descriptor {
    Descriptor(key.0, key.1, b.codec, |b.stored|, hash(b.stored), offset)
  }

  /** The table of what `order` lays out. */
  ghost predicate TableOf(table: seq<Descriptor>, order: seq<Key>, held: map<Key, Block>, hash: Hash)
    requires Within(order, held)
  {
    |table| == |order| && forall k :: 0 <= k < |order| ==> EntryOf(table, order, held, hash, k)
  }

  ghost predicate EntryOf(table: seq<Descriptor>, order: seq<Key>, held: map<Key, Block>, hash: Hash, k: nat)
    requires Within(order, held)
  {
    && k < |order| && k < |table| && StartsAt(StoredOf(order, held), k, table[k].offset)
    && table[k] == DescriptorAt(order[k], held[order[k]], table[k].offset, hash)
  }

  method BuildPayload(held: map<Key, Block>, hash: Hash)
    returns (payload: seq<byte>, table: seq<Descriptor>, ghost order: seq<Key>)
    ensures Lines(order, held.Keys) && Within(order, held)
    ensures payload == PayloadOf(StoredOf(order, held)) && TableOf(table, order, held, hash)
  {
    var keys := SortedKeys(held.Keys);
    order := keys;
    var offsets;
    payload, offsets := LayOut(StoredOf(keys, held));
    table := seq(|keys|, k requires 0 <= k < |keys| && |offsets| == |keys| && Within(keys, held) =>
      DescriptorAt(keys[k], held[keys[k]], offsets[k], hash));
  }

  // ---------------------------------------------------------------- what was built passes

  ghost predicate Faithful(zip: Zip, unzip: Unzip) {
    zip.Some? ==> forall raw :: zip.value(raw) != [] && unzip(zip.value(raw), |raw|) == Some(raw)
  }

  /** A block of at least one and at most 65,536 bytes gives a descriptor the verifier allows. */
  lemma StoredConsistent(raw: seq<byte>, hash: Hash, zip: Zip, unzip: Unzip, offset: nat)
    requires Faithful(zip, unzip) && 1 <= |raw| <= BLOCK_SIZE
    ensures DescriptorAt(KeyOf(hash, raw), StoreBlock(raw, zip), offset, hash).Consistent()
  {
  }

  lemma BuiltDescribes(table: seq<Descriptor>, order: seq<Key>, held: map<Key, Block>, hash: Hash)
    requires Within(order, held) && TableOf(table, order, held, hash)
    ensures Describes(table, StoredOf(order, held))
  {
    forall k | 0 <= k < |table|
      ensures DescribesAt(table, StoredOf(order, held), k)
    {
      assert EntryOf(table, order, held, hash, k);
    }
  }

  lemma BuiltOrdered(table: seq<Descriptor>, order: seq<Key>, held: map<Key, Block>, hash: Hash)
    requires Within(order, held) && Lines(order, held.Keys) && TableOf(table, order, held, hash)
    ensures Ordered(table) && Lists(table, held.Keys) && forall k :: 0 <= k < |table| ==> table[k].Key() == order[k]
  {
    assert forall k :: 0 <= k < |table| && EntryOf(table, order, held, hash, k) ==> table[k].Key() == order[k];
    forall key | key in held
      ensures exists k :: 0 <= k < |table| && table[k].Key() == key
    {
      var k :| 0 <= k < |order| && order[k] == key;
      assert table[k].Key() == key;
    }
  }

  /** The whole table is one the verifier accepts. */
  lemma BuiltTableOk(files: seq<seq<byte>>, table: seq<Descriptor>, order: seq<Key>, held: map<Key, Block>,
                     hash: Hash, zip: Zip,
                     unzip: Unzip, payload: seq<byte>)
    requires Within(order, held) && Lines(order, held.Keys) && TableOf(table, order, held, hash)
    requires Holds(held, AllChunks(files), hash, zip) && Faithful(zip, unzip)
    requires payload == PayloadOf(StoredOf(order, held))
    ensures |table| <= MAX_BLOCKS ==> TableOk(table, held.Keys, |payload|)
    ensures Packed(table, |payload|) && Ordered(table) && Lists(table, held.Keys) && GapsClear(payload, table)
    ensures Inside(table, |payload|) && Stored(payload, table) == StoredOf(order, held)
  {
    BuiltDescribes(table, order, held, hash);
    BuiltOrdered(table, order, held, hash);
    BuiltPayloadPasses(table, StoredOf(order, held), payload);
    forall k | 0 <= k < |table|
      ensures table[k].Consistent()
    {
      var raw := held[order[k]].raw;
      assert EntryOf(table, order, held, hash, k);
      ChunkSize(files, raw);
      StoredConsistent(raw, hash, zip, unzip, table[k].offset);
    }
  }

  /** A laid-out payload, its table in order, and the stored bytes where the table says. */
  ghost predicate Laid(payload: seq<byte>, table: seq<Descriptor>, order: seq<Key>, held: map<Key, Block>, hash: Hash) {
    && Within(order, held) && Lines(order, held.Keys) && TableOf(table, order, held, hash) && Ordered(table)
    && forall k :: 0 <= k < |table| ==> SitsAt(payload, table, order, held, k)
  }

  predicate SitsAt(payload: seq<byte>, table: seq<Descriptor>, order: seq<Key>, held: map<Key, Block>, k: nat) {
    k < |table| && k < |order| && order[k] in held && Sits(payload, table[k], held[order[k]].stored)
  }

  predicate Sits(payload: seq<byte>, d: Descriptor, stored: seq<byte>) {
    d.offset + d.storedSize <= |payload| && payload[d.offset..d.offset + d.storedSize] == stored
  }

  lemma BuiltLaid(payload: seq<byte>, table: seq<Descriptor>, order: seq<Key>, held: map<Key, Block>, hash: Hash)
    requires Within(order, held) && Lines(order, held.Keys) && TableOf(table, order, held, hash) && Ordered(table)
    requires Inside(table, |payload|) && Stored(payload, table) == StoredOf(order, held)
    ensures Laid(payload, table, order, held, hash)
  {
    forall k | 0 <= k < |table|
      ensures SitsAt(payload, table, order, held, k)
    {
      assert Stored(payload, table)[k] == StoredOf(order, held)[k];
    }
  }

  lemma SittingReads(payload: seq<byte>, d: Descriptor, raw: seq<byte>, hash: Hash, zip: Zip, unzip: Unzip)
    requires d == DescriptorAt(KeyOf(hash, raw), StoreBlock(raw, zip), d.offset, hash)
    requires Faithful(zip, unzip) && Sits(payload, d, StoreBlock(raw, zip).stored)
    ensures ReadRawBlock(payload, d, hash, unzip) == Ok(raw) && Genuine(payload, d, hash, unzip)
  {
  }

  /** A block reads back as the chunk it was made from. */
  lemma BlockReads(payload: seq<byte>, table: seq<Descriptor>, order: seq<Key>, held: map<Key, Block>,
                   raws: set<seq<byte>>,
                   hash: Hash, zip: Zip, unzip: Unzip, k: nat)
    requires Laid(payload, table, order, held, hash) && k < |table|
    requires Holds(held, raws, hash, zip) && Faithful(zip, unzip)
    ensures Genuine(payload, table[k], hash, unzip)
    ensures ReadRawBlock(payload, table[k], hash, unzip) == Ok(held[order[k]].raw)
  {
    assert SitsAt(payload, table, order, held, k) && EntryOf(table, order, held, hash, k);
    SittingReads(payload, table[k], held[order[k]].raw, hash, zip, unzip);
  }

  lemma {:induction false} JoinedSnoc(parts: seq<seq<byte>>)
    requires parts != []
    ensures Joined(parts) == Joined(parts[..|parts| - 1]) + parts[|parts| - 1]
  {
    if |parts| > 1 {
      var shorter := parts[..|parts| - 1];
      JoinedSnoc(parts[1..]);
      assert parts[1..][..|parts| - 2] == shorter[1..];
    }
  }

  ghost predicate Reads(payload: seq<byte>, table: seq<Descriptor>, raw: seq<byte>, hash: Hash, unzip: Unzip) {
    && var d := Find(table, KeyOf(hash, raw));
    && d.Some? && d.value.offset + d.value.storedSize <= |payload|
    && ReadRawBlock(payload, d.value, hash, unzip) == Ok(raw)
  }

  /** References to chunks that read back read back as the file. */
  lemma {:induction false} PartsRead(payload: seq<byte>, table: seq<Descriptor>, parts: seq<seq<byte>>, hash: Hash,
                                     unzip: Unzip)
    requires forall j :: 0 <= j < |parts| ==> Reads(payload, table, parts[j], hash, unzip)
    ensures ReadFile(payload, table, Refs(hash, parts), hash, unzip) == Some(Joined(parts))
  {
    if parts != [] {
      var n := |parts| - 1;
      PartsRead(payload, table, parts[..n], hash, unzip);
      assert Refs(hash, parts)[..n] == Refs(hash, parts[..n]);
      assert Reads(payload, table, parts[n], hash, unzip);
      JoinedSnoc(parts);
    }
  }

  lemma ChunkReads(payload: seq<byte>, table: seq<Descriptor>, order: seq<Key>, held: map<Key, Block>,
                   raws: set<seq<byte>>,
                   hash: Hash, zip: Zip, unzip: Unzip, raw: seq<byte>)
    requires Laid(payload, table, order, held, hash) && Holds(held, raws, hash, zip) && Faithful(zip, unzip)
    requires raw in raws
    ensures Reads(payload, table, raw, hash, unzip)
  {
    assert Kept(held, raw, hash);
    var k :| 0 <= k < |order| && order[k] == KeyOf(hash, raw);
    BuiltOrdered(table, order, held, hash);
    FindOrdered(table, k);
    BlockReads(payload, table, order, held, raws, hash, zip, unzip, k);
  }

  datatype Bundle = Bundle(payload: seq<byte>, table: seq<Descriptor>, records: seq<FileRecord>)

  function RefSizes(refs: seq<Key>): seq<nat> { seq(|refs|, j requires 0 <= j < |refs| => refs[j].1) }

  function Referenced(records: seq<FileRecord>): set<Key> {
    set i, j | 0 <= i < |records| && 0 <= j < |records[i].refs| :: records[i].refs[j]
  }

  /** What is promised of a file: the verifier's chunk rule, and its content back. */
  ghost predicate Delivers(payload: seq<byte>, table: seq<Descriptor>, bytes: seq<byte>, f: FileRecord, hash: Hash,
                           unzip: Unzip) {
    && ChunkRule(RefSizes(f.refs), |bytes|) && Resolves(table, f.refs)
    && ReadFile(payload, table, f.refs, hash, unzip) == Some(bytes) && f.digest == hash(bytes)
  }

  /** The file `bytes`, cut into `parts`, is recorded by the keys of its parts. */
  ghost predicate Records(f: FileRecord, bytes: seq<byte>, parts: seq<seq<byte>>, hash: Hash) {
    f == FileRecord(Refs(hash, parts), hash(bytes)) && parts == Chunks(bytes)
  }

  lemma PartsResolve(payload: seq<byte>, table: seq<Descriptor>, parts: seq<seq<byte>>, hash: Hash, unzip: Unzip)
    requires forall j :: 0 <= j < |parts| ==> Reads(payload, table, parts[j], hash, unzip)
    ensures Resolves(table, Refs(hash, parts))
  {
    forall j | 0 <= j < |parts|
      ensures Find(table, Refs(hash, parts)[j]).Some?
    {
      assert Reads(payload, table, parts[j], hash, unzip);
    }
  }

  lemma PartsDeliver(payload: seq<byte>, table: seq<Descriptor>, bytes: seq<byte>, parts: seq<seq<byte>>, f: FileRecord,
                     hash: Hash, unzip: Unzip)
    requires Records(f, bytes, parts, hash) && forall j :: 0 <= j < |parts| ==>
      Reads(payload, table, parts[j], hash, unzip)
    ensures Delivers(payload, table, bytes, f, hash, unzip)
  {
    PartsResolve(payload, table, parts, hash, unzip);
    PartsRead(payload, table, parts, hash, unzip);
    ChunksObey(bytes);
    assert RefSizes(f.refs) == Sizes(parts);
  }

  lemma FileDelivered(payload: seq<byte>, table: seq<Descriptor>, order: seq<Key>, held: map<Key, Block>,
                      files: seq<seq<byte>>, i: nat, parts: seq<seq<byte>>, f: FileRecord, hash: Hash, zip: Zip,
                        unzip: Unzip)
    requires Laid(payload, table, order, held, hash) && Holds(held, AllChunks(files), hash, zip) && Faithful(zip, unzip)
    requires i < |files| && Records(f, files[i], parts, hash)
    ensures Delivers(payload, table, files[i], f, hash, unzip)
  {
    forall j | 0 <= j < |parts|
      ensures Reads(payload, table, parts[j], hash, unzip)
    {
      ChunkOf(files, parts[j]);
      ChunkReads(payload, table, order, held, AllChunks(files), hash, zip, unzip, parts[j]);
    }
    PartsDeliver(payload, table, files[i], parts, f, hash, unzip);
  }

  lemma ReferencedIsHeld(files: seq<seq<byte>>, records: seq<FileRecord>, held: map<Key, Block>, hash: Hash, zip: Zip)
    requires Holds(held, AllChunks(files), hash, zip) && |records| == |files|
    requires forall i :: 0 <= i < |files| ==> records[i].refs == Refs(hash, Chunks(files[i]))
    ensures Referenced(records) == held.Keys
  {
    forall key | key in Referenced(records)
      ensures key in held
    {
      var i, j :| 0 <= i < |records| && 0 <= j < |records[i].refs| && records[i].refs[j] == key;
      PartHeld(files, i, j, Chunks(files[i]), held, hash, zip);
    }
    forall key | key in held
      ensures key in Referenced(records)
    {
      var i, j := HeldPart(files, held, hash, zip, key);
      assert records[i].refs[j] == key;
    }
  }

  lemma PartHeld(files: seq<seq<byte>>, i: nat, j: nat, parts: seq<seq<byte>>, held: map<Key, Block>, hash: Hash,
                 zip: Zip)
    requires Holds(held, AllChunks(files), hash, zip) && i < |files| && parts == Chunks(files[i]) && j < |parts|
    ensures KeyOf(hash, parts[j]) in held
  {
    ChunkOf(files, parts[j]);
    assert Kept(held, parts[j], hash);
  }

  lemma HeldPart(files: seq<seq<byte>>, held: map<Key, Block>, hash: Hash, zip: Zip, key: Key) returns (i: nat, j: nat)
    requires Holds(held, AllChunks(files), hash, zip) && key in held
    ensures i < |files| && j < |Refs(hash, Chunks(files[i]))| && Refs(hash, Chunks(files[i]))[j] == key
  {
    ChunkOf(files, held[key].raw);
    i :| 0 <= i < |files| && held[key].raw in Chunks(files[i]);
    j :| 0 <= j < |Chunks(files[i])| && Chunks(files[i])[j] == held[key].raw;
  }

  ghost predicate Tabled(b: Bundle) { |b.table| <= MAX_BLOCKS ==> TableOk(b.table, Referenced(b.records), |b.payload|) }

  ghost predicate DeliversAll(b: Bundle, files: seq<seq<byte>>, hash: Hash, unzip: Unzip) {
    && |b.records| == |files|
    && forall i :: 0 <= i < |files| ==> Delivers(b.payload, b.table, files[i], b.records[i], hash, unzip)
  }

  /** Everything the verifier checks about blocks, up to the limit on their number, and every file back. */
  ghost predicate Whole(b: Bundle, files: seq<seq<byte>>, hash: Hash, unzip: Unzip) {
    Tabled(b) && Verified(b.payload, b.table, b.records, hash, unzip) && DeliversAll(b, files, hash, unzip)
  }

  lemma AllGenuine(payload: seq<byte>, table: seq<Descriptor>, order: seq<Key>, held: map<Key, Block>,
                   raws: set<seq<byte>>,
                   hash: Hash, zip: Zip, unzip: Unzip)
    requires Laid(payload, table, order, held, hash) && Holds(held, raws, hash, zip) && Faithful(zip, unzip)
    ensures forall k :: 0 <= k < |table| ==> Genuine(payload, table[k], hash, unzip)
  {
    forall k | 0 <= k < |table|
      ensures Genuine(payload, table[k], hash, unzip)
    {
      BlockReads(payload, table, order, held, raws, hash, zip, unzip, k);
    }
  }

  ghost predicate RecordsAll(records: seq<FileRecord>, files: seq<seq<byte>>, hash: Hash) {
    |records| == |files| && forall i :: 0 <= i < |files| ==> Records(records[i], files[i], Chunks(files[i]), hash)
  }

  lemma AllDelivered(b: Bundle, order: seq<Key>, held: map<Key, Block>, files: seq<seq<byte>>, hash: Hash, zip: Zip,
                     unzip: Unzip)
    requires Laid(b.payload, b.table, order, held, hash) && Holds(held, AllChunks(files), hash, zip)
    requires Faithful(zip, unzip)
    requires RecordsAll(b.records, files, hash)
    ensures DeliversAll(b, files, hash, unzip)
  {
    forall i | 0 <= i < |files|
      ensures Delivers(b.payload, b.table, files[i], b.records[i], hash, unzip)
    {
      FileDelivered(b.payload, b.table, order, held, files, i, Chunks(files[i]), b.records[i], hash, zip, unzip);
    }
  }

  lemma DeliveredGenuine(b: Bundle, files: seq<seq<byte>>, hash: Hash, unzip: Unzip)
    requires DeliversAll(b, files, hash, unzip)
    ensures forall i :: 0 <= i < |b.records| ==> FileGenuine(b.payload, b.table, b.records[i], hash, unzip)
  {
    forall i | 0 <= i < |b.records|
      ensures FileGenuine(b.payload, b.table, b.records[i], hash, unzip)
    {
      assert Delivers(b.payload, b.table, files[i], b.records[i], hash, unzip);
    }
  }

  /** The bundle laid out from the blocks held for these files. */
  ghost predicate Built(b: Bundle, order: seq<Key>, held: map<Key, Block>, files: seq<seq<byte>>, hash: Hash,
                        zip: Zip) {
    && Within(order, held) && Lines(order, held.Keys) && TableOf(b.table, order, held, hash)
    && Holds(held, AllChunks(files), hash, zip) && b.payload == PayloadOf(StoredOf(order, held))
    && RecordsAll(b.records, files, hash)
  }

  lemma BuiltTabled(b: Bundle, order: seq<Key>, held: map<Key, Block>, files: seq<seq<byte>>, hash: Hash, zip: Zip,
                    unzip: Unzip)
    requires Built(b, order, held, files, hash, zip) && Faithful(zip, unzip)
    ensures Tabled(b) && GapsClear(b.payload, b.table) && Laid(b.payload, b.table, order, held, hash)
  {
    BuiltTableOk(files, b.table, order, held, hash, zip, unzip, b.payload);
    BuiltLaid(b.payload, b.table, order, held, hash);
    RecordsHeld(files, b.records, held, hash, zip);
  }

  lemma BuiltWhole(b: Bundle, order: seq<Key>, held: map<Key, Block>, files: seq<seq<byte>>, hash: Hash, zip: Zip,
                   unzip: Unzip)
    requires Built(b, order, held, files, hash, zip) && Faithful(zip, unzip)
    ensures Whole(b, files, hash, unzip)
  {
    BuiltTabled(b, order, held, files, hash, zip, unzip);
    AllGenuine(b.payload, b.table, order, held, AllChunks(files), hash, zip, unzip);
    AllDelivered(b, order, held, files, hash, zip, unzip);
    DeliveredGenuine(b, files, hash, unzip);
  }

  lemma RecordsHeld(files: seq<seq<byte>>, records: seq<FileRecord>, held: map<Key, Block>, hash: Hash, zip: Zip)
    requires Holds(held, AllChunks(files), hash, zip) && RecordsAll(records, files, hash)
    ensures Referenced(records) == held.Keys
  {
    forall i | 0 <= i < |files|
      ensures records[i].refs == Refs(hash, Chunks(files[i]))
    {
      assert Records(records[i], files[i], Chunks(files[i]), hash);
    }
    ReferencedIsHeld(files, records, held, hash, zip);
  }

  function RecordsOf(refs: seq<seq<Key>>, files: seq<seq<byte>>, hash: Hash): seq<FileRecord>
    requires |refs| == |files|
  {
    seq(|files|, i requires 0 <= i < |files| => FileRecord(refs[i], hash(files[i])))
  }

  lemma RecordsOfAll(refs: seq<seq<Key>>, files: seq<seq<byte>>, hash: Hash)
    requires |refs| == |files| && forall i :: 0 <= i < |files| ==> refs[i] == Refs(hash, Chunks(files[i]))
    ensures RecordsAll(RecordsOf(refs, files, hash), files, hash)
  {
  }

  /** Builds payload, table and file records; fails exactly when two different chunks hash alike. */
  method Build(files: seq<seq<byte>>, hash: Hash, zip: Zip, ghost unzip: Unzip) returns (r: Result<Bundle, Code>)
    requires Faithful(zip, unzip)
    ensures r.Ok? <==> !Clash(AllChunks(files), hash)
    ensures r.Ok? ==> Whole(r.value, files, hash, unzip)
  {
    var collected := CollectBlocks(files, hash, zip);
    if collected.Err? { return Err(collected.error); }
    var held, refs := collected.value.0, collected.value.1;
    RecordsOfAll(refs, files, hash);
    var payload, table, order := BuildPayload(held, hash);
    var b := Bundle(payload, table, RecordsOf(refs, files, hash));
    BuiltWhole(b, order, held, files, hash, zip, unzip);
    r := Ok(b);
  }
}
