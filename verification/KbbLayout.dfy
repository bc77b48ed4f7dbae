/** The layout of a bundle file: chunks, block table, payload, sections. What the verifier accepts
    and what the builder writes are the same bytes. */
module KbbLayout {
  import opened Results
  import opened Wire
  import opened KbbHeader
  import Cbor
  import CborLemmas

  const BLOCK_SIZE: nat := 65_536
  const MAX_BLOCKS: nat := 65_535

  type Digest = seq<byte>
  type Key = (Digest, nat)

  datatype Descriptor = Descriptor(digest: Digest, rawSize: nat, codec: nat, storedSize: nat, storedDigest: Digest,
    offset: nat) {
    function Key(): Key { (digest, rawSize) }

    predicate Consistent() {
      && 1 <= rawSize <= BLOCK_SIZE && 1 <= storedSize <= BLOCK_SIZE && codec <= 1
      && (codec == 0 ==> storedSize == rawSize && storedDigest == digest)
      && (codec == 1 ==> storedSize < rawSize)
    }
  }

  predicate KeyBefore(a: Key, b: Key) { Cbor.Lexical(a.0, b.0) || (a.0 == b.0 && a.1 < b.1) }

  // ---------------------------------------------------------------- the block table

  /** Where the stored bytes of the first `k` blocks end. */
  function End(blocks: seq<Descriptor>, k: nat): nat
    requires k <= |blocks|
  {
    if k == 0 then 0 else blocks[k - 1].offset + blocks[k - 1].storedSize
  }

  /** Block `k` starts at the next multiple of eight. */
  predicate PackedAt(blocks: seq<Descriptor>, k: nat) { k < |blocks| && blocks[k].offset == RoundUp(End(blocks, k)) }

  /** Every block does, and the payload ends at one. */
  ghost predicate Packed(blocks: seq<Descriptor>, payloadLength: nat) {
    PackedTo(blocks, |blocks|) && payloadLength == RoundUp(End(blocks, |blocks|))
  }

  ghost predicate PackedTo(blocks: seq<Descriptor>, n: nat) { forall k :: 0 <= k < n ==> PackedAt(blocks, k) }

  ghost predicate ConsistentTo(blocks: seq<Descriptor>, n: nat) {
    n <= |blocks| && forall k :: 0 <= k < n ==> blocks[k].Consistent()
  }

  ghost predicate Ordered(blocks: seq<Descriptor>) {
    forall i, j :: 0 <= i < j < |blocks| ==> KeyBefore(blocks[i].Key(), blocks[j].Key())
  }

  ghost predicate Lists(blocks: seq<Descriptor>, referenced: set<Key>) {
    forall key :: key in referenced <==> exists k :: 0 <= k < |blocks| && blocks[k].Key() == key
  }

  ghost predicate TableOk(blocks: seq<Descriptor>, referenced: set<Key>, payloadLength: nat) {
    && |blocks| <= MAX_BLOCKS && Ordered(blocks) && Packed(blocks, payloadLength) && Lists(blocks, referenced)
    && ConsistentTo(blocks, |blocks|)
  }

  lemma KeyOrder(a: Key, b: Key, c: Key)
    ensures !KeyBefore(a, a) && (KeyBefore(a, b) && KeyBefore(b, c) ==> KeyBefore(a, c))
  {
    CborLemmas.LexicalOrder(a.0, b.0, c.0);
    CborLemmas.LexicalOrder(a.0, a.0, a.0);
  }

  lemma {:induction false} AdjacentOrdered(blocks: seq<Descriptor>, i: nat, j: nat)
    requires i < j < |blocks| && forall k :: 0 < k <= j ==> KeyBefore(blocks[k - 1].Key(), blocks[k].Key())
    ensures KeyBefore(blocks[i].Key(), blocks[j].Key())
  {
    if i < j - 1 {
      AdjacentOrdered(blocks, i, j - 1);
      KeyOrder(blocks[i].Key(), blocks[j - 1].Key(), blocks[j].Key());
    }
  }

  lemma BoundStep(end: nat, offset: nat, size: nat, k: nat)
    requires end <= k * 65_544 && offset < end + 8 && size <= BLOCK_SIZE
    ensures offset + size <= (k + 1) * 65_544
  {
  }

  lemma {:induction false} EndBound(blocks: seq<Descriptor>, k: nat)
    requires k <= |blocks| && PackedTo(blocks, k) && ConsistentTo(blocks, k)
    ensures End(blocks, k) <= k * 65_544
  {
    if k > 0 {
      EndBound(blocks, k - 1);
      assert PackedAt(blocks, k - 1);
      BoundStep(End(blocks, k - 1), blocks[k - 1].offset, blocks[k - 1].storedSize, k - 1);
    }
  }

  ghost predicate Adjacent(blocks: seq<Descriptor>, n: nat) {
    n <= |blocks| && forall k :: 0 < k < n ==> KeyBefore(blocks[k - 1].Key(), blocks[k].Key())
  }

  /** What remains to be compared once every descriptor has been passed. */
  lemma FinishTable(blocks: seq<Descriptor>, keys: set<Key>, referenced: set<Key>, payloadLength: nat)
    requires |blocks| <= MAX_BLOCKS && PackedTo(blocks, |blocks|) && ConsistentTo(blocks, |blocks|)
    requires Adjacent(blocks, |blocks|) && Lists(blocks, keys)
    ensures TableOk(blocks, referenced, payloadLength) <==>
      payloadLength == RoundUp(End(blocks, |blocks|)) && keys == referenced
  {
    forall a, b | 0 <= a < b < |blocks|
      ensures KeyBefore(blocks[a].Key(), blocks[b].Key())
    {
      AdjacentOrdered(blocks, a, b);
    }
    if Lists(blocks, referenced) { ListsUnique(blocks, keys, referenced); }
  }

  /** What descriptor `i` must satisfy after those before it. */
  ghost predicate Continues(blocks: seq<Descriptor>, i: nat) {
    && i < |blocks| && PackedAt(blocks, i) && blocks[i].Consistent()
    && (i > 0 ==> KeyBefore(blocks[i - 1].Key(), blocks[i].Key()))
  }

  lemma TableContinues(blocks: seq<Descriptor>, i: nat, referenced: set<Key>, payloadLength: nat)
    requires i < |blocks| && TableOk(blocks, referenced, payloadLength)
    ensures Continues(blocks, i)
  {
  }

  /** One pass over the table with a running offset decides it. */
  method ValidateBlocks(blocks: seq<Descriptor>, referenced: set<Key>, payloadLength: nat) returns (r: Result<(), Code>)
    ensures r.Ok? <==> TableOk(blocks, referenced, payloadLength)
  {
    if |blocks| > MAX_BLOCKS { return Err(Bounds); }
    var expected, keys: set<Key>, i := 0, {}, 0;
    while i < |blocks|
      invariant i <= |blocks| && expected == End(blocks, i)
      invariant PackedTo(blocks, i) && ConsistentTo(blocks, i) && Adjacent(blocks, i) && Lists(blocks[..i], keys)
    {
      var d := blocks[i];
      if TableOk(blocks, referenced, payloadLength) { TableContinues(blocks, i, referenced, payloadLength); }
      EndBound(blocks, i);
      if i > 0 && !KeyBefore(blocks[i - 1].Key(), d.Key()) { return Err(BadBlock); }
      if !d.Consistent() { return Err(BadBlock); }
      var aligned := Align8(expected);
      if aligned.Err? { return Err(Bounds); }
      if d.offset != aligned.value { return Err(BadBlock); }
      expected := d.offset + d.storedSize;
      ListsNext(blocks, i, keys);
      keys := keys + {d.Key()};
      assert PackedAt(blocks, i);
      i := i + 1;
    }
    EndBound(blocks, i);
    assert blocks[..i] == blocks;
    FinishTable(blocks, keys, referenced, payloadLength);
    var total := Align8(expected);
    if total.Err? { return Err(Bounds); }
    if payloadLength != total.value { return Err(BadBlock); }
    if keys != referenced { return Err(BadBlock); }
    r := Ok(());
  }

  lemma ListsNext(blocks: seq<Descriptor>, i: nat, keys: set<Key>)
    requires i < |blocks| && Lists(blocks[..i], keys)
    ensures Lists(blocks[..i + 1], keys + {blocks[i].Key()})
  {
    var more := blocks[..i + 1];
    assert forall k :: 0 <= k < i ==> more[k] == blocks[..i][k];
    assert more[i] == blocks[i];
    forall key
      ensures key in keys + {blocks[i].Key()} <==> exists k :: 0 <= k <= i && more[k].Key() == key
    {
      if key in keys {
        var k :| 0 <= k < i && blocks[..i][k].Key() == key;
        assert more[k].Key() == key;
      }
    }
  }

  lemma ListsUnique(blocks: seq<Descriptor>, a: set<Key>, b: set<Key>)
    requires Lists(blocks, a) && Lists(blocks, b)
    ensures a == b
  {
    forall key
      ensures key in a <==> key in b
    {
      assert key in a <==> exists k :: 0 <= k < |blocks| && blocks[k].Key() == key;
    }
  }

  // ---------------------------------------------------------------- the payload

  ghost predicate ZeroRange(s: seq<byte>, from: nat, to: nat) {
    from <= to <= |s| && forall k :: from <= k < to ==> s[k] == 0
  }

  function Pad(s: seq<byte>): seq<byte> { s + Zeros(RoundUp(|s|) - |s|) }

  /** The first `k` blocks laid out one after the other, each padded up to its start. */
  function Grow(stored: seq<seq<byte>>, k: nat): seq<byte>
    requires k <= |stored|
  {
    if k == 0 then [] else Pad(Grow(stored, k - 1)) + stored[k - 1]
  }

  function PayloadOf(stored: seq<seq<byte>>): seq<byte> { Pad(Grow(stored, |stored|)) }

  predicate Inside(blocks: seq<Descriptor>, payloadLength: nat) {
    forall k :: 0 <= k < |blocks| ==> blocks[k].offset + blocks[k].storedSize <= payloadLength
  }

  /** The stored bytes a table points at. */
  function Stored(payload: seq<byte>, blocks: seq<Descriptor>): (stored: seq<seq<byte>>)
    requires Inside(blocks, |payload|)
    ensures |stored| == |blocks|
  {
    seq(|blocks|, k requires 0 <= k < |blocks| => payload[blocks[k].offset..blocks[k].offset + blocks[k].storedSize])
  }

  /** Nothing but zeros between blocks and after the last. */
  ghost predicate GapsClear(payload: seq<byte>, blocks: seq<Descriptor>) {
    && (forall k :: 0 <= k < |blocks| ==> GapClear(payload, blocks, k))
    && ZeroRange(payload, End(blocks, |blocks|), |payload|)
  }

  ghost predicate GapClear(payload: seq<byte>, blocks: seq<Descriptor>, k: nat) {
    k < |blocks| && ZeroRange(payload, End(blocks, k), blocks[k].offset)
  }

  lemma {:induction false} EndsRise(blocks: seq<Descriptor>, payloadLength: nat, k: nat)
    requires Packed(blocks, payloadLength) && k <= |blocks|
    ensures End(blocks, k) <= End(blocks, |blocks|) <= payloadLength
    decreases |blocks| - k
  {
    if k < |blocks| {
      EndsRise(blocks, payloadLength, k + 1);
      assert PackedAt(blocks, k);
    }
  }

  lemma BlocksInside(blocks: seq<Descriptor>, payloadLength: nat)
    requires Packed(blocks, payloadLength)
    ensures Inside(blocks, payloadLength)
  {
    forall k | 0 <= k < |blocks|
      ensures blocks[k].offset + blocks[k].storedSize <= payloadLength
    {
      EndsRise(blocks, payloadLength, k + 1);
    }
  }

  lemma PadTo(s: seq<byte>, payload: seq<byte>, end: nat, offset: nat)
    requires end <= offset <= |payload| && s == payload[..end] && offset == RoundUp(end)
    requires ZeroRange(payload, end, offset)
    ensures Pad(s) == payload[..offset]
  {
  }

  /** With clear gaps, the payload grows block by block. */
  lemma {:induction false} GrowsAlong(payload: seq<byte>, blocks: seq<Descriptor>, stored: seq<seq<byte>>, k: nat)
    requires Packed(blocks, |payload|) && GapsClear(payload, blocks) && k <= |blocks|
    requires Inside(blocks, |payload|)
    requires stored == Stored(payload, blocks)
    ensures End(blocks, k) <= |payload| && Grow(stored, k) == payload[..End(blocks, k)]
  {
    if k > 0 {
      var d := blocks[k - 1];
      GrowsAlong(payload, blocks, stored, k - 1);
      assert PackedAt(blocks, k - 1) && GapClear(payload, blocks, k - 1);
      PadTo(Grow(stored, k - 1), payload, End(blocks, k - 1), d.offset);
      assert payload[..d.offset] + payload[d.offset..d.offset + d.storedSize] == payload[..d.offset + d.storedSize];
    }
  }

  /** An accepted payload holds its stored blocks and padding, and nothing else. */
  lemma PayloadTiles(payload: seq<byte>, blocks: seq<Descriptor>)
    requires Packed(blocks, |payload|) && GapsClear(payload, blocks)
    ensures Inside(blocks, |payload|)
    ensures payload == PayloadOf(Stored(payload, blocks))
  {
    BlocksInside(blocks, |payload|);
    var stored := Stored(payload, blocks);
    GrowsAlong(payload, blocks, stored, |blocks|);
    PadTo(Grow(stored, |blocks|), payload, End(blocks, |blocks|), |payload|);
    assert payload[..|payload|] == payload;
  }

  // ---------------------------------------------------------------- the builder's payload

  /** The table describes `stored`: sizes and offsets of the blocks as laid out. */
  ghost predicate Describes(blocks: seq<Descriptor>, stored: seq<seq<byte>>) {
    |blocks| == |stored| && forall k :: 0 <= k < |blocks| ==> DescribesAt(blocks, stored, k)
  }

  ghost predicate DescribesAt(blocks: seq<Descriptor>, stored: seq<seq<byte>>, k: nat) {
    && k < |blocks| && k < |stored| && blocks[k].storedSize == |stored[k]|
    && blocks[k].offset == RoundUp(|Grow(stored, k)|)
  }

  lemma GrowEnds(blocks: seq<Descriptor>, stored: seq<seq<byte>>, k: nat)
    requires Describes(blocks, stored) && k <= |blocks|
    ensures |Grow(stored, k)| == End(blocks, k)
  {
    if k > 0 { assert DescribesAt(blocks, stored, k - 1); }
  }

  lemma {:induction false} GrowPrefix(stored: seq<seq<byte>>, i: nat, k: nat)
    requires i <= k <= |stored|
    ensures Grow(stored, i) <= Grow(stored, k) && (i < k ==> Pad(Grow(stored, i)) + stored[i] <= Grow(stored, k))
    decreases k - i
  {
    if i < k {
      GrowPrefix(stored, i + 1, k);
      assert Grow(stored, i + 1) == Pad(Grow(stored, i)) + stored[i];
    }
  }

  lemma PrefixPlace(s: seq<byte>, t: seq<byte>, u: seq<byte>)
    requires Pad(s) + t <= u
    ensures var from := RoundUp(|s|); from + |t| <= |u| && u[from..from + |t|] == t && ZeroRange(u, |s|, from)
  {
    var p := Pad(s) + t;
    assert forall k :: 0 <= k < |p| ==> u[k] == p[k];
  }

  lemma BuiltTable(blocks: seq<Descriptor>, stored: seq<seq<byte>>, payload: seq<byte>)
    requires Describes(blocks, stored) && payload == PayloadOf(stored)
    ensures Packed(blocks, |payload|) && GapsClear(payload, blocks) && Inside(blocks, |payload|)
  {
    GrowEnds(blocks, stored, |blocks|);
    assert Grow(stored, |stored|) <= payload;
    forall k | 0 <= k < |blocks|
      ensures PackedAt(blocks, k) && GapClear(payload, blocks, k)
    {
      BuiltBlock(blocks, stored, k, payload);
    }
    forall k | 0 <= k < |blocks|
      ensures blocks[k].offset + blocks[k].storedSize <= |payload|
    {
      BuiltBlock(blocks, stored, k, payload);
    }
  }

  /** What the builder lays out passes the verifier's offset, length and padding rules, and the
      blocks read back from it are the ones put in. */
  lemma BuiltPayloadPasses(blocks: seq<Descriptor>, stored: seq<seq<byte>>, payload: seq<byte>)
    requires Describes(blocks, stored) && payload == PayloadOf(stored)
    ensures Packed(blocks, |payload|) && GapsClear(payload, blocks) && Inside(blocks, |payload|)
    ensures Stored(payload, blocks) == stored
  {
    BuiltTable(blocks, stored, payload);
    assert Grow(stored, |stored|) <= payload;
    forall k | 0 <= k < |blocks|
      ensures Stored(payload, blocks)[k] == stored[k]
    {
      BuiltBlock(blocks, stored, k, payload);
    }
  }

  lemma BuiltBlock(blocks: seq<Descriptor>, stored: seq<seq<byte>>, k: nat, payload: seq<byte>)
    requires Describes(blocks, stored) && k < |blocks| && Grow(stored, |stored|) <= payload
    ensures PackedAt(blocks, k) && GapClear(payload, blocks, k) && blocks[k].offset + blocks[k].storedSize <= |payload|
    ensures payload[blocks[k].offset..blocks[k].offset + blocks[k].storedSize] == stored[k]
  {
    GrowEnds(blocks, stored, k);
    assert DescribesAt(blocks, stored, k);
    GrowPrefix(stored, k, |stored|);
    PrefixPlace(Grow(stored, k), stored[k], payload);
  }
}
