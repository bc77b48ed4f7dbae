/** Whatever the scanner accepts denotes a value the encoder takes; and when its map keys rise,
    the bytes are exactly that value's encoding. */
module CborInverse {
  import opened Results
  import opened Wire
  import opened Cbor
  import opened CborLemmas
  import opened CborTheorems

  /** The scanner's verdict is the reader's, without the value. */
  lemma {:induction false} ScanIsRead(input: seq<byte>, offset: nat, room: nat)
    ensures var r := Read(NodesOf(input), offset, room);
      Scan(input, offset, room) == if r.Ok? then Ok(r.value.1) else Err(r.error)
    decreases room, 0, 0
  {
    var found := NodeAt(input, offset);
    if room > 0 && found.Ok? {
      match found.value
      case Leaf(_, _) =>
      case List(count, start) => ScanManyIsReadMany(input, start, room - 1, count);
      case Dict(count, start) => ScanManyIsReadMany(input, start, room - 1, 2 * count);
    }
  }

  lemma {:induction false} ScanManyIsReadMany(input: seq<byte>, position: nat, room: nat, count: nat)
    ensures var r := ReadMany(NodesOf(input), position, room, count);
      ScanMany(input, position, room, count) == if r.Ok? then Ok(r.value.1) else Err(r.error)
    decreases room, 1, count
  {
    if count > 0 {
      ScanIsRead(input, position, room);
      var first := Read(NodesOf(input), position, room);
      if first.Ok? { ScanManyIsReadMany(input, first.value.1, room, count - 1); }
    }
  }

  // ---------------------------------------------------------------- from bytes to values

  /** `v` accounts for the bytes from `offset` to `end`, provided its maps are in key order. */
  ghost predicate Accounts(input: seq<byte>, v: Value, bytes: seq<byte>, offset: nat, end: nat) {
    Fits(v) && end <= |input| && (Ordered(v) ==> Proper(v) && At(input, offset, bytes) && end == offset + |bytes|)
  }

  ghost predicate AllFit(items: seq<Value>) { forall i :: 0 <= i < |items| ==> Fits(items[i]) }
  ghost predicate AllOrdered(items: seq<Value>) { forall i :: 0 <= i < |items| ==> Ordered(items[i]) }
  ghost predicate AllProper(items: seq<Value>) { forall i :: 0 <= i < |items| ==> Proper(items[i]) }

  ghost predicate AllAccount(input: seq<byte>, items: seq<Value>, bytes: seq<byte>, position: nat, end: nat) {
    && AllFit(items) && end <= |input|
    && (AllOrdered(items) ==> AllProper(items) && At(input, position, bytes) && end == position + |bytes|)
  }

  /** Nodes tell the truth about the bytes they stand for. */
  ghost predicate True(input: seq<byte>, offset: nat, found: Node) {
    match found
    case Leaf(v, end) => Height(v) == 1 && Accounts(input, v, Encode(v), offset, end)
    case List(n, start) => TrueHead(input, offset, 4, n, start)
    case Dict(n, start) => TrueHead(input, offset, 5, n, start)
  }

  ghost predicate TrueHead(input: seq<byte>, offset: nat, major: nat, n: nat, start: nat)
    requires major < 8
  {
    n <= U64_MAX && At(input, offset, Head(major, n)) && start == offset + |Head(major, n)|
  }

  ghost predicate TrueNodes(node: Nodes, input: seq<byte>) {
    forall offset: nat :: node(offset).Ok? ==> True(input, offset, node(offset).value)
  }

  lemma NumberIsTrue(input: seq<byte>, offset: nat, initial: byte, n: nat, head: seq<byte>)
    requires initial / 32 < 2 && n <= U64_MAX && head == Head(initial / 32, n) && At(input, offset, head)
    ensures var r := NodeOf(input, initial, n, offset + |head|); r.Ok? && True(input, offset, r.value)
  {
  }

  lemma StringIsTrue(input: seq<byte>, offset: nat, initial: byte, n: nat, head: seq<byte>)
    requires 2 <= initial / 32 < 4 && n <= U64_MAX && head == Head(initial / 32, n) && At(input, offset, head)
    ensures var r := NodeOf(input, initial, n, offset + |head|); r.Ok? ==> True(input, offset, r.value)
  {
    var start := offset + |head|;
    if ScanString(input, start, n, initial / 32 == 3).Ok? {
      AtSplit(input, offset, head, input[start..start + n]);
    }
  }

  lemma SimpleIsTrue(input: seq<byte>, offset: nat, initial: byte, position: nat)
    requires initial / 32 == 7 && offset < |input| && input[offset] == initial
    requires (initial % 32 < 24 ==> position == offset + 1)
    ensures var r := NodeOf(input, initial, initial % 32, position); r.Ok? ==> True(input, offset, r.value)
  {
  }

  lemma HeadIsTrue(input: seq<byte>, offset: nat, initial: byte, n: nat, head: seq<byte>)
    requires 4 <= initial / 32 < 7 && n <= U64_MAX && head == Head(initial / 32, n) && At(input, offset, head)
    ensures var r := NodeOf(input, initial, n, offset + |head|); r.Ok? ==> True(input, offset, r.value)
  {
  }

  lemma NodeIsTrue(input: seq<byte>, offset: nat)
    ensures NodeAt(input, offset).Ok? ==> True(input, offset, NodeAt(input, offset).value)
  {
    if NodeAt(input, offset).Ok? {
      HeadOnly(input, offset);
      var initial := input[offset];
      var (n, width) := DecodeArgument(input, offset + 1, initial % 32).value;
      var head := Head(initial / 32, n);
      assert NodeAt(input, offset) == NodeOf(input, initial, n, offset + |head|);
      if initial / 32 < 2 { NumberIsTrue(input, offset, initial, n, head); }
      else if initial / 32 < 4 { StringIsTrue(input, offset, initial, n, head); }
      else if initial / 32 < 7 { HeadIsTrue(input, offset, initial, n, head); }
      else { SimpleIsTrue(input, offset, initial, offset + |head|); }
    }
  }

  lemma NodesAreTrue(input: seq<byte>)
    ensures TrueNodes(NodesOf(input), input)
  {
    forall offset: nat | NodesOf(input)(offset).Ok?
      ensures True(input, offset, NodesOf(input)(offset).value)
    {
      NodeIsTrue(input, offset);
    }
  }

  // ---------------------------------------------------------------- assembling

  lemma JoinAccounts(input: seq<byte>, items: seq<Value>, first: seq<byte>, rest: seq<byte>, position: nat, next: nat,
                     end: nat)
    requires |items| > 0 && Accounts(input, items[0], first, position, next)
    requires AllAccount(input, items[1..], rest, next, end)
    ensures AllAccount(input, items, first + rest, position, end)
  {
    var tail := items[1..];
    assert forall i :: 1 <= i < |items| ==> items[i] == tail[i - 1];
    AtSplit(input, position, first, rest);
  }

  lemma WrapAccounts(input: seq<byte>, v: Value, head: seq<byte>, body: seq<byte>, offset: nat, end: nat)
    requires Fits(v) && At(input, offset, head) && end <= |input|
    requires Ordered(v) ==> Proper(v) && At(input, offset + |head|, body) && end == offset + |head| + |body|
    ensures Accounts(input, v, head + body, offset, end)
  {
    AtSplit(input, offset, head, body);
  }

  lemma ListFits(items: seq<Value>)
    requires AllFit(items) && |items| <= U64_MAX
    ensures Fits(Array(items)) && (Ordered(Array(items)) ==> AllOrdered(items))
    ensures AllProper(items) ==> Proper(Array(items))
  {
  }

  lemma ListAccounts(input: seq<byte>, items: seq<Value>, head: seq<byte>, body: seq<byte>, offset: nat, end: nat)
    requires AllAccount(input, items, body, offset + |head|, end) && |items| <= U64_MAX && At(input, offset, head)
    ensures Accounts(input, Array(items), head + body, offset, end)
  {
    ListFits(items);
    WrapAccounts(input, Array(items), head, body, offset, end);
  }

  lemma RisingDistinct(keys: seq<seq<byte>>)
    requires Rising(keys)
    ensures Distinct(keys)
  {
    forall i, j | 0 <= i < j < |keys|
      ensures keys[i] != keys[j]
    {
      KeyOrder(keys[i], keys[j], keys[i]);
    }
  }

  lemma PairFits(entries: seq<Entry>)
    requires AllFit(Flat(entries)) && |entries| <= U64_MAX
    ensures Fits(Map(entries))
  {
    forall i | 0 <= i < |entries|
      ensures Fits(entries[i].key) && Fits(entries[i].value)
    {
      assert Flat(entries)[2 * i] == entries[i].key && Flat(entries)[2 * i + 1] == entries[i].value;
    }
  }

  lemma PairOrdered(entries: seq<Entry>)
    requires Ordered(Map(entries))
    ensures AllOrdered(Flat(entries)) && Rising(Keys(entries))
  {
    forall i | 0 <= i < |Flat(entries)|
      ensures Ordered(Flat(entries)[i])
    {
      assert Ordered(entries[i / 2].key) && Ordered(entries[i / 2].value);
    }
  }

  lemma PairProper(entries: seq<Entry>)
    requires AllProper(Flat(entries)) && Distinct(Keys(entries))
    ensures Proper(Map(entries))
  {
    forall i | 0 <= i < |entries|
      ensures Proper(entries[i].key) && Proper(entries[i].value)
    {
      assert Flat(entries)[2 * i] == entries[i].key && Flat(entries)[2 * i + 1] == entries[i].value;
    }
  }

  lemma DictAccounts(input: seq<byte>, entries: seq<Entry>, flat: seq<Value>, offset: nat, start: nat, end: nat)
    requires flat == Flat(entries) && AllAccount(input, flat, EncodeAll(flat), start, end)
    requires TrueHead(input, offset, 5, |entries|, start)
    ensures Accounts(input, Map(entries), Encode(Map(entries)), offset, end)
  {
    PairFits(entries);
    if Ordered(Map(entries)) {
      PairOrdered(entries);
      RisingDistinct(Keys(entries));
      PairProper(entries);
      WrapAccounts(input, Map(entries), Head(5, |entries|), EncodeAll(flat), offset, end);
      EncodeOrderedMap(entries);
    }
  }

  // ---------------------------------------------------------------- every accepted item

  ghost predicate Yields(input: seq<byte>, offset: nat, room: nat, r: Result<(Value, nat), ErrorCode>) {
    r.Ok? ==> Height(r.value.0) <= room && Accounts(input, r.value.0, Encode(r.value.0), offset, r.value.1)
  }

  ghost predicate ManyYield(input: seq<byte>, position: nat, room: nat, r: Result<(seq<Value>, nat), ErrorCode>) {
    r.Ok? ==> Tallest(r.value.0) <= room && AllAccount(input, r.value.0, EncodeAll(r.value.0), position, r.value.1)
  }

  lemma ListYields(input: seq<byte>, offset: nat, room: nat, start: nat, items: seq<Value>, end: nat)
    requires TrueHead(input, offset, 4, |items|, start) && room > 0
    requires ManyYield(input, start, room - 1, Ok((items, end)))
    ensures Yields(input, offset, room, Ok((Array(items), end)))
  {
    ListAccounts(input, items, Head(4, |items|), EncodeAll(items), offset, end);
    ArrayShape(items);
  }

  lemma DictYields(input: seq<byte>, offset: nat, room: nat, start: nat, items: seq<Value>, n: nat, end: nat)
    requires TrueHead(input, offset, 5, n, start) && room > 0 && |items| == 2 * n
    requires ManyYield(input, start, room - 1, Ok((items, end)))
    ensures Yields(input, offset, room, Ok((Map(Pair(items)), end)))
  {
    FlatPair(items);
    DictAccounts(input, Pair(items), items, offset, start, end);
    HeightMap(Pair(items));
  }

  lemma MoreYield(input: seq<byte>, position: nat, room: nat, first: Value, next: nat, rest: seq<Value>, end: nat)
    requires Yields(input, position, room, Ok((first, next))) && ManyYield(input, next, room, Ok((rest, end)))
    ensures ManyYield(input, position, room, Ok(([first] + rest, end)))
  {
    var items := [first] + rest;
    assert items[1..] == rest;
    JoinAccounts(input, items, Encode(first), EncodeAll(rest), position, next, end);
  }

  lemma {:induction false} ReadYields(node: Nodes, input: seq<byte>, offset: nat, room: nat)
    requires TrueNodes(node, input)
    ensures Yields(input, offset, room, Read(node, offset, room))
    decreases room, 0, 0
  {
    if room > 0 && node(offset).Ok? {
      assert True(input, offset, node(offset).value);
      match node(offset).value
      case Leaf(_, _) =>
      case List(count, start) =>
        ReadManyYield(node, input, start, room - 1, count);
        var r := ReadMany(node, start, room - 1, count);
        if r.Ok? { ListYields(input, offset, room, start, r.value.0, r.value.1); }
      case Dict(count, start) =>
        ReadManyYield(node, input, start, room - 1, 2 * count);
        var r := ReadMany(node, start, room - 1, 2 * count);
        if r.Ok? { DictYields(input, offset, room, start, r.value.0, count, r.value.1); }
    }
  }

  lemma {:induction false} ReadManyYield(node: Nodes, input: seq<byte>, position: nat, room: nat, count: nat)
    requires TrueNodes(node, input) && position <= |input|
    ensures ManyYield(input, position, room, ReadMany(node, position, room, count))
    decreases room, 1, count
  {
    if count > 0 {
      ReadYields(node, input, position, room);
      var first := Read(node, position, room);
      if first.Ok? {
        ReadManyYield(node, input, first.value.1, room, count - 1);
        var rest := ReadMany(node, first.value.1, room, count - 1);
        if rest.Ok? { MoreYield(input, position, room, first.value.0, first.value.1, rest.value.0, rest.value.1); }
      }
    }
  }
}
