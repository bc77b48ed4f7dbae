/** Encoder and scanner are inverse to each other: what is written scans back to itself, and what
    scans in key order is what the encoder writes. */
module CborTheorems {
  import opened Results
  import opened Wire
  import opened Cbor
  import opened CborLemmas

  // ---------------------------------------------------------------- flat views

  function EncodeAll(items: seq<Value>): seq<byte> {
    if items == [] then [] else Encode(items[0]) + EncodeAll(items[1..])
  }

  function Tallest(items: seq<Value>): nat {
    if items == [] then 0
    else if Height(items[0]) >= Tallest(items[1..]) then Height(items[0]) else Tallest(items[1..])
  }

  lemma {:induction false} ConcatEncodings(items: seq<Value>, parts: seq<seq<byte>>)
    requires |parts| == |items| && forall i :: 0 <= i < |items| ==> parts[i] == Encode(items[i])
    ensures Concat(parts) == EncodeAll(items)
  {
    if items != [] { ConcatEncodings(items[1..], parts[1..]); }
  }

  lemma {:induction false} LargestHeights(items: seq<Value>, heights: seq<nat>)
    requires |heights| == |items| && forall i :: 0 <= i < |items| ==> heights[i] == Height(items[i])
    ensures Largest(heights) == Tallest(items)
  {
    if items != [] { LargestHeights(items[1..], heights[1..]); }
  }

  /** Keys and values of a map, alternating. */
  function Flat(entries: seq<Entry>): (items: seq<Value>)
    ensures |items| == 2 * |entries|
  {
    seq(2 * |entries|,
      i requires 0 <= i < 2 * |entries| => if i % 2 == 0 then entries[i / 2].key else entries[i / 2].value)
  }

  lemma PairFlat(entries: seq<Entry>)
    ensures Pair(Flat(entries)) == entries
  {
  }

  lemma FlatPair(items: seq<Value>)
    requires |items| % 2 == 0
    ensures Flat(Pair(items)) == items
  {
    forall i | 0 <= i < |items|
      ensures Flat(Pair(items))[i] == items[i]
    {
      assert i == 2 * (i / 2) + i % 2;
    }
  }

  lemma EncodeArray(items: seq<Value>)
    ensures Encode(Array(items)) == Head(4, |items|) + EncodeAll(items)
  {
    ConcatEncodings(items, seq(|items|, i requires 0 <= i < |items| => Encode(items[i])));
  }

  function Parts(entries: seq<Entry>): (parts: seq<Keyed<seq<byte>>>)
    ensures |parts| == |entries|
  {
    seq(|entries|, i requires 0 <= i < |entries| => Keyed(Encode(entries[i].key), Encode(entries[i].value)))
  }

  lemma EncodeMap(entries: seq<Entry>)
    ensures Encode(Map(entries)) == Head(5, |entries|) + Concat(Pieces(Sort(Parts(entries))))
  {
    assert seq(|entries|, i requires 0 <= i < |entries| => Keyed(Encode(entries[i].key), Encode(entries[i].value)))
        == Parts(entries);
  }

  lemma {:induction false} ConcatPairs(entries: seq<Entry>)
    ensures Concat(Pieces(Parts(entries))) == EncodeAll(Flat(entries))
  {
    if entries != [] {
      ConcatPairs(entries[1..]);
      var flat, pieces := Flat(entries), Pieces(Parts(entries));
      assert pieces[1..] == Pieces(Parts(entries[1..]));
      assert flat[2..] == Flat(entries[1..]);
      EncodeTwo(flat, flat[2..], entries[0].key, entries[0].value);
    }
  }

  lemma EncodeTwo(items: seq<Value>, rest: seq<Value>, first: Value, second: Value)
    requires |items| >= 2 && items[0] == first && items[1] == second && rest == items[2..]
    ensures EncodeAll(items) == (Encode(first) + Encode(second)) + EncodeAll(rest)
  {
    assert items[1..][0] == second && items[1..][1..] == rest;
    Grouped(Encode(first), Encode(second), EncodeAll(rest));
  }

  lemma Grouped(a: seq<byte>, b: seq<byte>, c: seq<byte>)
    ensures a + (b + c) == (a + b) + c
  {
  }

  lemma EncodeOrderedMap(entries: seq<Entry>)
    requires Rising(Keys(entries))
    ensures Encode(Map(entries)) == Head(5, |entries|) + EncodeAll(Flat(entries))
  {
    EncodeMap(entries);
    assert KeysOf(Parts(entries)) == Keys(entries);
    SortRising(Parts(entries));
    ConcatPairs(entries);
  }

  lemma HeightArray(items: seq<Value>)
    ensures Height(Array(items)) == 1 + Tallest(items)
  {
    LargestHeights(items, seq(|items|, i requires 0 <= i < |items| => Height(items[i])));
  }

  lemma HeightMap(entries: seq<Entry>)
    ensures Height(Map(entries)) == 1 + Tallest(Flat(entries))
  {
    LargestHeights(Flat(entries), seq(2 * |entries|, i requires 0 <= i < 2 * |entries| =>
        if i % 2 == 0 then Height(entries[i / 2].key) else Height(entries[i / 2].value)));
  }

  // ---------------------------------------------------------------- written items read back

  /** A value the encoder writes without having to reorder anything. */
  predicate Plain(v: Value) { Fits(v) && Ordered(v) && Proper(v) }

  predicate AllPlain(items: seq<Value>) { forall i :: 0 <= i < |items| ==> Plain(items[i]) }

  lemma FlatPlain(entries: seq<Entry>)
    requires Plain(Map(entries))
    ensures AllPlain(Flat(entries))
  {
  }

  lemma NodeOfHead(major: nat, n: nat, input: seq<byte>, offset: nat)
    requires major < 6 && n <= U64_MAX && At(input, offset, Head(major, n))
    ensures offset < |input| && input[offset] / 32 == major
    ensures NodeAt(input, offset) == NodeOf(input, input[offset], n, offset + |Head(major, n)|)
  {
    HeadDecodes(major, n, input, offset);
  }

  lemma NodeOfString(text: bool, b: seq<byte>, head: seq<byte>, input: seq<byte>, offset: nat)
    requires |input| <= U64_MAX && (text ==> Utf8(b)) && head == Head(if text then 3 else 2, |b|)
    requires At(input, offset, head + b)
    ensures NodeAt(input, offset) == Ok(Leaf(if text then Text(b) else Bytes(b), offset + |head| + |b|))
  {
    AtSplit(input, offset, head, b);
    NodeOfHead(if text then 3 else 2, |b|, input, offset);
    StringNode(text, b, input, input[offset], offset + |head|);
  }

  lemma StringNode(text: bool, b: seq<byte>, input: seq<byte>, initial: byte, position: nat)
    requires |input| <= U64_MAX && (text ==> Utf8(b)) && initial / 32 == (if text then 3 else 2)
    requires At(input, position, b)
    ensures NodeOf(input, initial, |b|, position) == Ok(Leaf(if text then Text(b) else Bytes(b), position + |b|))
  {
    AtSlice(input, position, b);
  }

  lemma NodeOfSimple(v: Value, input: seq<byte>, offset: nat)
    requires (v.Null? || v.Bool?) && At(input, offset, Encode(v))
    ensures NodeAt(input, offset) == Ok(Leaf(v, offset + 1)) && |Encode(v)| == 1
  {
    assert input[offset] == Encode(v)[0];
  }

  lemma NodeOfInteger(number: int, input: seq<byte>, offset: nat)
    requires -1 - U64_MAX <= number <= U64_MAX && At(input, offset, Encode(Integer(number)))
    ensures NodeAt(input, offset) == Ok(Leaf(Integer(number), offset + |Encode(Integer(number))|))
  {
    if number >= 0 { NodeOfHead(0, number, input, offset); } else { NodeOfHead(1, -1 - number, input, offset); }
  }

  lemma NodeOfScalar(v: Value, bytes: seq<byte>, input: seq<byte>, offset: nat)
    requires Plain(v) && bytes == Encode(v) && At(input, offset, bytes) && |input| <= U64_MAX && !v.Array? && !v.Map?
    ensures NodeAt(input, offset) == Ok(Leaf(v, offset + |bytes|))
  {
    match v
    case Integer(n) => NodeOfInteger(n, input, offset);
    case Bytes(b) => NodeOfBytes(b, bytes, input, offset);
    case Text(t) => NodeOfText(t, bytes, input, offset);
    case Null => NodeOfSimple(v, input, offset);
    case Bool(_) => NodeOfSimple(v, input, offset);
  }

  lemma NodeOfBytes(b: seq<byte>, bytes: seq<byte>, input: seq<byte>, offset: nat)
    requires bytes == Encode(Bytes(b)) && At(input, offset, bytes) && |input| <= U64_MAX
    ensures NodeAt(input, offset) == Ok(Leaf(Bytes(b), offset + |bytes|))
  {
    NodeOfString(false, b, Head(2, |b|), input, offset);
  }

  lemma NodeOfText(t: seq<byte>, bytes: seq<byte>, input: seq<byte>, offset: nat)
    requires bytes == Encode(Text(t)) && At(input, offset, bytes) && |input| <= U64_MAX && Utf8(t)
    ensures NodeAt(input, offset) == Ok(Leaf(Text(t), offset + |bytes|))
  {
    NodeOfString(true, t, Head(3, |t|), input, offset);
  }

  /** A container's head leads to its body. */
  lemma NodeOfContainer(major: nat, n: nat, input: seq<byte>, offset: nat)
    requires (major == 4 || major == 5) && n <= U64_MAX && At(input, offset, Head(major, n))
    ensures NodeAt(input, offset) == Ok(Container(major, n, offset + |Head(major, n)|))
  {
    NodeOfHead(major, n, input, offset);
  }

  // ---------------------------------------------------------------- from nodes to values

  function Container(major: nat, n: nat, start: nat): Node { if major == 4 then List(n, start) else Dict(n, start) }

  /** Wherever `bytes` stand, there is node `found`, shifted to that place. */
  ghost predicate SeesHead(node: Nodes, input: seq<byte>, head: seq<byte>, major: nat, n: nat) {
    forall offset: nat {:trigger At(input, offset, head)} :: At(input, offset, head) ==>
      node(offset) == Ok(Container(major, n, offset + |head|))
  }

  /** Every container head the encoder writes is seen for what it is. */
  ghost predicate SeesHeads(node: Nodes, input: seq<byte>) {
    forall major, n :: (major == 4 || major == 5) && 0 <= n <= U64_MAX ==>
      SeesHead(node, input, Head(major, n), major, n)
  }

  ghost predicate SeesScalar(node: Nodes, input: seq<byte>, bytes: seq<byte>, v: Value) {
    forall offset: nat {:trigger At(input, offset, bytes)} :: At(input, offset, bytes) ==>
      node(offset) == Ok(Leaf(v, offset + |bytes|))
  }

  ghost predicate SeesScalars(node: Nodes, input: seq<byte>) {
    forall v :: Plain(v) && !v.Array? && !v.Map? ==> SeesScalar(node, input, Encode(v), v)
  }

  lemma SeesNodes(input: seq<byte>)
    requires |input| <= U64_MAX
    ensures SeesHeads(NodesOf(input), input)
  {
    forall major, n | (major == 4 || major == 5) && 0 <= n <= U64_MAX
      ensures SeesHead(NodesOf(input), input, Head(major, n), major, n)
    {
      forall offset: nat | At(input, offset, Head(major, n))
        ensures NodesOf(input)(offset) == Ok(Container(major, n, offset + |Head(major, n)|))
      {
        NodeOfContainer(major, n, input, offset);
      }
    }
  }

  lemma SeesLeaves(input: seq<byte>)
    requires |input| <= U64_MAX
    ensures SeesScalars(NodesOf(input), input)
  {
    forall v | Plain(v) && !v.Array? && !v.Map?
      ensures SeesScalar(NodesOf(input), input, Encode(v), v)
    {
      SeesLeaf(v, Encode(v), input);
    }
  }

  lemma SeesLeaf(v: Value, bytes: seq<byte>, input: seq<byte>)
    requires Plain(v) && !v.Array? && !v.Map? && bytes == Encode(v) && |input| <= U64_MAX
    ensures SeesScalar(NodesOf(input), input, bytes, v)
  {
    forall offset: nat | At(input, offset, bytes)
      ensures NodesOf(input)(offset) == Ok(Leaf(v, offset + |bytes|))
    {
      NodeOfScalar(v, bytes, input, offset);
    }
  }

  /** What reading a value of height `h` that ends at `end` must give. */
  function Outcome<T>(v: T, h: nat, end: nat, room: nat): Result<(T, nat), ErrorCode> {
    if h <= room then Ok((v, end)) else Err(CanonicalCbor)
  }

  lemma ManyStep(node: Nodes, position: nat, room: nat, items: seq<Value>, next: nat, h: nat, end: nat)
    requires |items| > 0 && Read(node, position, room) == Outcome(items[0], Height(items[0]), next, room)
    requires ReadMany(node, next, room, |items| - 1) == Outcome(items[1..], h, end, room)
    ensures ReadMany(node, position, room, |items|) ==
      Outcome(items, if Height(items[0]) >= h then Height(items[0]) else h, end, room)
  {
    assert items == [items[0]] + items[1..];
  }

  /** Wherever `bytes` stand, they read as `v`, unless its height `h` is too much. */
  ghost predicate ReadsBack(node: Nodes, input: seq<byte>, v: Value, bytes: seq<byte>, h: nat, room: nat) {
    forall offset: nat {:trigger At(input, offset, bytes)} :: At(input, offset, bytes) ==>
      Read(node, offset, room) == Outcome(v, h, offset + |bytes|, room)
  }

  ghost predicate AllReadBack(node: Nodes, input: seq<byte>, items: seq<Value>, room: nat) {
    forall i :: 0 <= i < |items| ==> ReadsBack(node, input, items[i], Encode(items[i]), Height(items[i]), room)
  }

  lemma {:induction false} ManyBack(node: Nodes, input: seq<byte>, items: seq<Value>, bytes: seq<byte>, position: nat,
                                    room: nat)
    requires AllReadBack(node, input, items, room) && bytes == EncodeAll(items) && At(input, position, bytes)
    ensures ReadMany(node, position, room, |items|) == Outcome(items, Tallest(items), position + |bytes|, room)
    decreases |items|
  {
    if |items| > 0 {
      var head, body := Encode(items[0]), EncodeAll(items[1..]);
      AtSplit(input, position, head, body);
      assert ReadsBack(node, input, items[0], head, Height(items[0]), room);
      ManyBack(node, input, items[1..], body, position + |head|, room);
      ManyStep(node, position, room, items, position + |head|, Tallest(items[1..]), position + |bytes|);
    }
  }

  function Built(major: nat, items: seq<Value>): Value { if major == 4 then Array(items) else Map(Pair(items)) }

  lemma ContainerStep(node: Nodes, major: nat, n: nat, items: seq<Value>, offset: nat, start: nat, h: nat, end: nat,
                      room: nat)
    requires (major == 4 && |items| == n) || (major == 5 && |items| == 2 * n)
    requires room > 0 && node(offset) == Ok(Container(major, n, start))
    requires ReadMany(node, start, room - 1, |items|) == Outcome(items, h, end, room - 1)
    ensures Read(node, offset, room) == Outcome(Built(major, items), 1 + h, end, room)
  {
  }

  ghost predicate ManyReadBack(node: Nodes, input: seq<byte>, items: seq<Value>, body: seq<byte>, h: nat, room: nat) {
    forall start: nat {:trigger At(input, start, body)} ::
      At(input, start, body) ==> ReadMany(node, start, room, |items|) == Outcome(items, h, start + |body|, room)
  }

  lemma PartsBack(node: Nodes, input: seq<byte>, items: seq<Value>, room: nat)
    requires AllReadBack(node, input, items, room)
    ensures ManyReadBack(node, input, items, EncodeAll(items), Tallest(items), room)
  {
    forall start: nat | At(input, start, EncodeAll(items))
      ensures ReadMany(node, start, room, |items|) == Outcome(items, Tallest(items), start + |EncodeAll(items)|, room)
    {
      ManyBack(node, input, items, EncodeAll(items), start, room);
    }
  }

  /** A container whose parts read back reads back. */
  lemma WholeBack(node: Nodes, input: seq<byte>, major: nat, n: nat, items: seq<Value>, head: seq<byte>,
                  body: seq<byte>, h: nat, room: nat)
    requires (major == 4 && |items| == n) || (major == 5 && |items| == 2 * n)
    requires room > 0 && ManyReadBack(node, input, items, body, h, room - 1) && SeesHead(node, input, head, major, n)
    ensures ReadsBack(node, input, Built(major, items), head + body, 1 + h, room)
  {
    forall offset: nat | At(input, offset, head + body)
      ensures Read(node, offset, room) == Outcome(Built(major, items), 1 + h, offset + |head + body|, room)
    {
      AtSplit(input, offset, head, body);
      ContainerStep(node, major, n, items, offset, offset + |head|, h, offset + |head| + |body|, room);
    }
  }

  lemma BuiltBack(node: Nodes, input: seq<byte>, major: nat, n: nat, items: seq<Value>, head: seq<byte>,
                  bytes: seq<byte>,
                  h: nat, room: nat)
    requires (major == 4 && |items| == n) || (major == 5 && |items| == 2 * n)
    requires room > 0 && AllReadBack(node, input, items, room - 1) && SeesHead(node, input, head, major, n)
    requires bytes == head + EncodeAll(items) && h == 1 + Tallest(items)
    ensures ReadsBack(node, input, Built(major, items), bytes, h, room)
  {
    BodyBack(node, input, major, n, items, head, EncodeAll(items), Tallest(items), bytes, h, room);
  }

  lemma BodyBack(node: Nodes, input: seq<byte>, major: nat, n: nat, items: seq<Value>, head: seq<byte>,
                 body: seq<byte>, tallest: nat, bytes: seq<byte>, h: nat, room: nat)
    requires (major == 4 && |items| == n) || (major == 5 && |items| == 2 * n)
    requires body == EncodeAll(items) && tallest == Tallest(items) && bytes == head + body && h == 1 + tallest
    requires room > 0 && AllReadBack(node, input, items, room - 1) && SeesHead(node, input, head, major, n)
    ensures ReadsBack(node, input, Built(major, items), bytes, h, room)
  {
    PartsBack(node, input, items, room - 1);
    PutTogether(node, input, major, n, items, head, body, tallest, bytes, h, room);
  }

  lemma PutTogether(node: Nodes, input: seq<byte>, major: nat, n: nat, items: seq<Value>, head: seq<byte>,
                    body: seq<byte>, tallest: nat, bytes: seq<byte>, h: nat, room: nat)
    requires (major == 4 && |items| == n) || (major == 5 && |items| == 2 * n)
    requires room > 0 && ManyReadBack(node, input, items, body, tallest, room - 1)
    requires SeesHead(node, input, head, major, n) && bytes == head + body && h == 1 + tallest
    ensures ReadsBack(node, input, Built(major, items), bytes, h, room)
  {
    WholeBack(node, input, major, n, items, head, body, tallest, room);
  }

  lemma ArrayShape(items: seq<Value>)
    ensures Encode(Array(items)) == Head(4, |items|) + EncodeAll(items) && Height(Array(items)) == 1 + Tallest(items)
    ensures Built(4, items) == Array(items)
  {
    EncodeArray(items);
    HeightArray(items);
  }

  lemma MapShape(entries: seq<Entry>, flat: seq<Value>)
    requires flat == Flat(entries) && Rising(Keys(entries))
    ensures Encode(Map(entries)) == Head(5, |entries|) + EncodeAll(flat) && Height(Map(entries)) == 1 + Tallest(flat)
    ensures Built(5, flat) == Map(entries)
  {
    EncodeOrderedMap(entries);
    HeightMap(entries);
    PairFlat(entries);
  }

  lemma ScalarBack(node: Nodes, input: seq<byte>, v: Value, room: nat)
    requires Plain(v) && SeesScalars(node, input) && !v.Array? && !v.Map? && room > 0
    ensures ReadsBack(node, input, v, Encode(v), 1, room)
  {
    assert SeesScalar(node, input, Encode(v), v);
  }

  lemma NothingBack(node: Nodes, input: seq<byte>, v: Value, bytes: seq<byte>, h: nat)
    requires h > 0
    ensures ReadsBack(node, input, v, bytes, h, 0)
  {
  }

  function Children(v: Value): seq<Value> {
    if v.Array? then v.items else if v.Map? then Flat(v.entries) else []
  }

  lemma ChildrenPlain(v: Value)
    requires Plain(v)
    ensures AllPlain(Children(v))
  {
    if v.Map? { FlatPlain(v.entries); }
  }

  lemma ContainerBack(node: Nodes, input: seq<byte>, v: Value, room: nat)
    requires Plain(v) && SeesHeads(node, input) && SeesScalars(node, input)
    requires room > 0 && AllReadBack(node, input, Children(v), room - 1)
    ensures ReadsBack(node, input, v, Encode(v), Height(v), room)
  {
    if v.Array? {
      ArrayShape(v.items);
      assert SeesHead(node, input, Head(4, |v.items|), 4, |v.items|);
      BuiltBack(node, input, 4, |v.items|, v.items, Head(4, |v.items|), Encode(v), Height(v), room);
    } else if v.Map? {
      MapShape(v.entries, Flat(v.entries));
      assert SeesHead(node, input, Head(5, |v.entries|), 5, |v.entries|);
      BuiltBack(node, input, 5, |v.entries|, Flat(v.entries), Head(5, |v.entries|), Encode(v), Height(v), room);
    } else {
      ScalarBack(node, input, v, room);
    }
  }

  /** What the encoder writes reads back as the value, and too tall a value is refused. */
  lemma {:induction false} EncodedReadsBack(node: Nodes, input: seq<byte>, v: Value, room: nat)
    requires Plain(v) && SeesHeads(node, input) && SeesScalars(node, input)
    ensures ReadsBack(node, input, v, Encode(v), Height(v), room)
    decreases room
  {
    if room == 0 {
      NothingBack(node, input, v, Encode(v), Height(v));
    } else {
      ChildrenPlain(v);
      var parts := Children(v);
      forall i | 0 <= i < |parts|
        ensures ReadsBack(node, input, parts[i], Encode(parts[i]), Height(parts[i]), room - 1)
      {
        EncodedReadsBack(node, input, parts[i], room - 1);
      }
      ContainerBack(node, input, v, room);
    }
  }
}
