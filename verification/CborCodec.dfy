/** The encoder and the scanner as they run: an output buffer that grows and a position that advances. */
module CborCodec {
  import opened Results
  import opened Wire
  import opened Cbor
  import opened CborLemmas
  import opened CborTheorems
  import opened CborCanonical

  lemma {:induction false} EncodeAllSnoc(items: seq<Value>, v: Value)
    ensures EncodeAll(items + [v]) == EncodeAll(items) + Encode(v)
  {
    if items == [] {
      assert items + [v] == [v] && [v][1..] == [];
    } else {
      assert (items + [v])[1..] == items[1..] + [v];
      EncodeAllSnoc(items[1..], v);
    }
  }

  lemma {:induction false} ConcatSnoc(parts: seq<seq<byte>>, part: seq<byte>)
    ensures Concat(parts + [part]) == Concat(parts) + part
  {
    if parts == [] {
      assert parts + [part] == [part] && [part][1..] == [];
    } else {
      assert (parts + [part])[1..] == parts[1..] + [part];
      ConcatSnoc(parts[1..], part);
    }
  }

  /** What the encoder leaves in its buffer. */
  ghost predicate Wrote(v: Value, output: seq<byte>, r: Result<seq<byte>, ErrorCode>) {
    (r.Ok? <==> Fits(v)) && (r.Ok? ==> r.value == output + Encode(v))
  }

  method EncodeArgument(major: nat, argument: nat, output: seq<byte>) returns (written: seq<byte>)
    requires major < 8
    ensures written == output + Head(major, argument)
  {
    var prefix := major * 32;
    if argument <= 23 {
      written := output + [prefix + argument];
    } else if argument <= 0xff {
      written := output + [prefix + 24] + BigEndian(argument, 1);
    } else if argument <= 0xffff {
      written := output + [prefix + 25] + BigEndian(argument, 2);
    } else if argument <= 0xffff_ffff {
      written := output + [prefix + 26] + BigEndian(argument, 4);
    } else {
      written := output + [prefix + 27] + BigEndian(argument, 8);
    }
  }

  method EncodeValue(value: Value, output: seq<byte>) returns (r: Result<seq<byte>, ErrorCode>)
    ensures Wrote(value, output, r)
    decreases value, 2
  {
    match value
    case Null => r := Ok(output + [0xf6]);
    case Bool(flag) => r := Ok(output + [if flag then 0xf5 else 0xf4]);
    case Integer(n) =>
      if n >= 0 {
        if n > U64_MAX { return Err(Schema); }
        var written := EncodeArgument(0, n, output);
        r := Ok(written);
      } else {
        if -1 - n > U64_MAX { return Err(Schema); }
        var written := EncodeArgument(1, -1 - n, output);
        r := Ok(written);
      }
    case Bytes(b) => r := EncodeString(2, b, output);
    case Text(t) => r := EncodeString(3, t, output);
    case Array(items) =>
      r := EncodeArrayItems(value, items, output);
      EncodeArray(items);
    case Map(entries) =>
      r := EncodeMapEntries(value, entries, output);
      EncodeMap(entries);
    case Tag => r := Err(Schema);
    case Float => r := Err(Schema);
  }

  method EncodeString(major: nat, b: seq<byte>, output: seq<byte>) returns (r: Result<seq<byte>, ErrorCode>)
    requires major < 8
    ensures r.Ok? <==> |b| <= U64_MAX
    ensures r.Ok? ==> r.value == output + (Head(major, |b|) + b)
  {
    if |b| > U64_MAX { return Err(Bounds); }
    var written := EncodeArgument(major, |b|, output);
    r := Ok(written + b);
    assert written + b == output + (Head(major, |b|) + b);
  }

  method EncodeArrayItems(ghost value: Value, items: seq<Value>, output: seq<byte>)
    returns (r: Result<seq<byte>, ErrorCode>)
    requires value == Array(items)
    ensures r.Ok? <==> |items| <= U64_MAX && forall k :: 0 <= k < |items| ==> Fits(items[k])
    ensures r.Ok? ==> r.value == output + (Head(4, |items|) + EncodeAll(items))
    decreases value, 1
  {
    if |items| > U64_MAX { return Err(Bounds); }
    var written := EncodeArgument(4, |items|, output);
    ghost var start := written;
    var i := 0;
    while i < |items|
      invariant 0 <= i <= |items|
      invariant forall k :: 0 <= k < i ==> Fits(items[k])
      invariant written == start + EncodeAll(items[..i])
    {
      var next := EncodeValue(items[i], written);
      if next.Err? { return Err(next.error); }
      assert items[..i + 1] == items[..i] + [items[i]];
      EncodeAllSnoc(items[..i], items[i]);
      written := next.value;
      i := i + 1;
    }
    assert items[..i] == items;
    r := Ok(written);
    Associate(output, Head(4, |items|), EncodeAll(items));
  }

  lemma Associate(a: seq<byte>, b: seq<byte>, c: seq<byte>)
    ensures a + b + c == a + (b + c)
  {
  }

  /** A value under the bytes of its key. */
  function KeyedValues(entries: seq<Entry>): (xs: seq<Keyed<Value>>)
    ensures |xs| == |entries|
  {
    seq(|entries|, i requires 0 <= i < |entries| => Keyed(Encode(entries[i].key), entries[i].value))
  }

  lemma SortedPieces(entries: seq<Entry>, sorted: seq<Keyed<Value>>, pieces: seq<seq<byte>>)
    requires sorted == Sort(KeyedValues(entries)) && pieces == Pieces(Sort(Parts(entries)))
    ensures |sorted| == |pieces| == |entries|
    ensures forall k :: 0 <= k < |sorted| ==> pieces[k] == sorted[k].key + Encode(sorted[k].item)
    ensures forall k :: 0 <= k < |sorted| ==> sorted[k] in KeyedValues(entries)
  {
    var f := (v: Value) => Encode(v);
    assert MapItems(f, KeyedValues(entries)) == Parts(entries);
    SortMaps(f, KeyedValues(entries));
    SortedFrom(KeyedValues(entries), sorted);
  }

  lemma SortedFrom(keyed: seq<Keyed<Value>>, sorted: seq<Keyed<Value>>)
    requires sorted == Sort(keyed)
    ensures |sorted| == |keyed| && forall k :: 0 <= k < |sorted| ==> sorted[k] in keyed
  {
    SortSorted(keyed);
    assert |multiset(sorted)| == |multiset(keyed)|;
    forall k | 0 <= k < |sorted|
      ensures sorted[k] in keyed
    {
      assert sorted[k] in multiset(keyed);
    }
  }

  method EncodeKeys(ghost value: Value, entries: seq<Entry>) returns (r: Result<seq<Keyed<Value>>, ErrorCode>)
    requires value == Map(entries)
    ensures r.Ok? <==> forall k :: 0 <= k < |entries| ==> Fits(entries[k].key)
    ensures r.Ok? ==> r.value == KeyedValues(entries)
    decreases value, 0
  {
    var keyed := [];
    var i := 0;
    while i < |entries|
      invariant 0 <= i <= |entries| && |keyed| == i
      invariant forall k :: 0 <= k < i ==> Fits(entries[k].key)
      invariant forall k :: 0 <= k < i ==> keyed[k] == Keyed(Encode(entries[k].key), entries[k].value)
    {
      var key := EncodeValue(entries[i].key, []);
      if key.Err? { return Err(key.error); }
      keyed := keyed + [Keyed(key.value, entries[i].value)];
      i := i + 1;
    }
    r := Ok(keyed);
  }

  method EncodeMapEntries(ghost value: Value, entries: seq<Entry>, output: seq<byte>)
    returns (r: Result<seq<byte>, ErrorCode>)
    requires value == Map(entries)
    ensures r.Ok? <==>
      |entries| <= U64_MAX && forall k :: 0 <= k < |entries| ==> Fits(entries[k].key) && Fits(entries[k].value)
    ensures r.Ok? ==> r.value == output + (Head(5, |entries|) + Concat(Pieces(Sort(Parts(entries)))))
    decreases value, 1
  {
    var keyed := EncodeKeys(value, entries);
    if keyed.Err? { return Err(keyed.error); }
    var sorted := Sort(keyed.value);
    if |entries| > U64_MAX { return Err(Bounds); }
    ghost var pieces := Pieces(Sort(Parts(entries)));
    SortedPieces(entries, sorted, pieces);
    var written := EncodeArgument(5, |entries|, output);
    ghost var origin := Origins(entries, sorted);
    r := EncodeSorted(value, entries, sorted, origin, pieces, written);
    if r.Ok? {
      AllValuesFit(entries, sorted);
      Associate(output, Head(5, |entries|), Concat(pieces));
    } else if forall k :: 0 <= k < |entries| ==> Fits(entries[k].value) {
      ValuesFit(entries, sorted);
    }
  }

  lemma Origins(entries: seq<Entry>, sorted: seq<Keyed<Value>>) returns (origin: seq<nat>)
    requires forall k :: 0 <= k < |sorted| ==> sorted[k] in KeyedValues(entries)
    ensures |origin| == |sorted|
    ensures forall k :: 0 <= k < |sorted| ==> origin[k] < |entries| && sorted[k].item == entries[origin[k]].value
  {
    origin := [];
    while |origin| < |sorted|
      invariant |origin| <= |sorted|
      invariant forall k :: 0 <= k < |origin| ==> origin[k] < |entries| && sorted[k].item == entries[origin[k]].value
    {
      var j :| 0 <= j < |entries| && KeyedValues(entries)[j] == sorted[|origin|];
      origin := origin + [j];
    }
  }

  method EncodeSorted(ghost value: Value, ghost entries: seq<Entry>, sorted: seq<Keyed<Value>>, ghost origin: seq<nat>,
                      ghost pieces: seq<seq<byte>>, output: seq<byte>)
    returns (r: Result<seq<byte>, ErrorCode>)
    requires value == Map(entries) && |sorted| == |pieces| == |origin|
    requires forall k :: 0 <= k < |sorted| ==> pieces[k] == sorted[k].key + Encode(sorted[k].item)
    requires forall k :: 0 <= k < |sorted| ==> origin[k] < |entries| && sorted[k].item == entries[origin[k]].value
    ensures r.Ok? <==> forall k :: 0 <= k < |sorted| ==> Fits(sorted[k].item)
    ensures r.Ok? ==> r.value == output + Concat(pieces)
    decreases value, 0
  {
    var written, i := output, 0;
    while i < |sorted|
      invariant 0 <= i <= |sorted|
      invariant forall k :: 0 <= k < i ==> Fits(sorted[k].item)
      invariant written == output + Concat(pieces[..i])
    {
      assert sorted[i].item == entries[origin[i]].value;
      var next := EncodeValue(sorted[i].item, written + sorted[i].key);
      if next.Err? { return Err(next.error); }
      PieceWritten(output, pieces, i, written, sorted[i].key, Encode(sorted[i].item));
      written := next.value;
      i := i + 1;
    }
    assert pieces[..i] == pieces;
    r := Ok(written);
  }

  lemma PieceWritten(output: seq<byte>, pieces: seq<seq<byte>>, i: nat, written: seq<byte>, key: seq<byte>,
                     item: seq<byte>)
    requires i < |pieces| && pieces[i] == key + item && written == output + Concat(pieces[..i])
    ensures (written + key) + item == output + Concat(pieces[..i + 1])
  {
    assert pieces[..i + 1] == pieces[..i] + [pieces[i]];
    ConcatSnoc(pieces[..i], pieces[i]);
    assert (written + key) + item == output + (Concat(pieces[..i]) + (key + item));
  }

  lemma ValuesFit(entries: seq<Entry>, sorted: seq<Keyed<Value>>)
    requires sorted == Sort(KeyedValues(entries)) && forall k :: 0 <= k < |entries| ==> Fits(entries[k].value)
    ensures forall k :: 0 <= k < |sorted| ==> Fits(sorted[k].item)
  {
    SortSorted(KeyedValues(entries));
    forall k | 0 <= k < |sorted|
      ensures Fits(sorted[k].item)
    {
      assert sorted[k] in multiset(KeyedValues(entries));
      var j :| 0 <= j < |entries| && KeyedValues(entries)[j] == sorted[k];
    }
  }

  lemma AllValuesFit(entries: seq<Entry>, sorted: seq<Keyed<Value>>)
    requires sorted == Sort(KeyedValues(entries)) && forall k :: 0 <= k < |sorted| ==> Fits(sorted[k].item)
    ensures forall k :: 0 <= k < |entries| ==> Fits(entries[k].value)
  {
    SortSorted(KeyedValues(entries));
    forall k | 0 <= k < |entries|
      ensures Fits(entries[k].value)
    {
      assert KeyedValues(entries)[k] in multiset(sorted);
      var j :| 0 <= j < |sorted| && sorted[j] == KeyedValues(entries)[k];
    }
  }

  // ---------------------------------------------------------------- scanning

  function Room(depth: nat): nat { if depth >= MAX_DEPTH then 0 else MAX_DEPTH - depth }

  method ScanItem(input: seq<byte>, offset: nat, depth: nat) returns (r: Result<nat, ErrorCode>)
    ensures r == Scan(input, offset, Room(depth))
    decreases Room(depth), 0
  {
    if depth >= MAX_DEPTH { return Err(CanonicalCbor); }
    if offset >= |input| { return Err(CanonicalCbor); }
    var initial := input[offset];
    var head := DecodeArgument(input, offset + 1, initial % 32);
    if head.Err? { return Err(head.error); }
    var (argument, width) := head.value;
    var position := offset + 1 + width;
    match initial / 32
    case 0 => r := Ok(position);
    case 1 => r := Ok(position);
    case 2 => r := ScanString(input, position, argument, false);
    case 3 => r := ScanString(input, position, argument, true);
    case 4 => r := ScanItems(input, position, depth, argument);
    case 5 => r := ScanPairs(input, position, depth, argument);
    case 6 => r := Err(CanonicalCbor);
    case _ => r := if 0xf4 <= initial <= 0xf6 then Ok(position) else Err(CanonicalCbor);
  }

  method ScanItems(input: seq<byte>, start: nat, depth: nat, count: nat) returns (r: Result<nat, ErrorCode>)
    requires depth < MAX_DEPTH
    ensures r == ScanMany(input, start, Room(depth + 1), count)
    decreases Room(depth + 1), 1
  {
    var room := Room(depth + 1);
    var position, i := start, 0;
    while i < count
      invariant 0 <= i <= count
      invariant ScanMany(input, position, room, count - i) == ScanMany(input, start, room, count)
    {
      var next := ScanItem(input, position, depth + 1);
      if next.Err? { return Err(next.error); }
      position := next.value;
      i := i + 1;
    }
    r := Ok(position);
  }

  method ScanPairs(input: seq<byte>, start: nat, depth: nat, count: nat) returns (r: Result<nat, ErrorCode>)
    requires depth < MAX_DEPTH
    ensures r == ScanMany(input, start, Room(depth + 1), 2 * count)
    decreases Room(depth + 1), 1
  {
    var room := Room(depth + 1);
    var position, i := start, 0;
    while i < count
      invariant 0 <= i <= count
      invariant ScanMany(input, position, room, 2 * (count - i)) == ScanMany(input, start, room, 2 * count)
    {
      var key := ScanItem(input, position, depth + 1);
      if key.Err? { return Err(key.error); }
      var value := ScanItem(input, key.value, depth + 1);
      assert ScanMany(input, key.value, room, 2 * (count - i) - 1) == ScanMany(input, start, room, 2 * count);
      if value.Err? { return Err(value.error); }
      position := value.value;
      i := i + 1;
    }
    r := Ok(position);
  }
}
