/** The deterministic CBOR of KBB manifests: encoder, scanner, and the value a scanned item denotes. */
module Cbor {
  import opened Results
  import opened Wire

  datatype ErrorCode = Schema | Bounds | CanonicalCbor

  /** A CBOR value; a map is the sequence of its entries in iteration order. */
  datatype Value =
    | Null | Bool(flag: bool) | Integer(number: int) | Bytes(bytes: seq<byte>) | Text(text: seq<byte>)
    | Array(items: seq<Value>) | Map(entries: seq<Entry>) | Tag | Float
  datatype Entry = Entry(key: Value, value: Value)

  const U64_MAX: nat := 0xffff_ffff_ffff_ffff
  const MAX_DEPTH: nat := 32

  // ---------------------------------------------------------------- bytes

  predicate Continues(s: seq<byte>, k: nat) { k < |s| && 0x80 <= s[k] < 0xc0 }

  /** Length of the UTF-8 sequence at `k`, zero when there is none; section 4 of RFC 3629. */
  function Utf8Step(s: seq<byte>, k: nat): nat
    requires k < |s|
  {
    var b := s[k];
    if b < 0x80 then 1
    else if !Continues(s, k + 1) then 0
    else
      var c := s[k + 1];
      if 0xc2 <= b < 0xe0 then 2
      else if !Continues(s, k + 2) then 0
      else if 0xe0 <= b < 0xf0 && (b == 0xe0 ==> c >= 0xa0) && (b == 0xed ==> c < 0xa0) then 3
      else if 0xf0 <= b < 0xf5 && (b == 0xf0 ==> c >= 0x90) && (b == 0xf4 ==> c < 0x90) && Continues(s, k + 3) then 4
      else 0
  }

  predicate Utf8From(s: seq<byte>, k: nat)
    decreases |s| - k
  {
    k == |s| || (k < |s| && Utf8Step(s, k) > 0 && Utf8From(s, k + Utf8Step(s, k)))
  }

  predicate Utf8(s: seq<byte>) { Utf8From(s, 0) }

  function BigEndian(n: nat, width: nat): (s: seq<byte>)
    ensures |s| == width
  {
    if width == 0 then [] else BigEndian(n / 256, width - 1) + [n % 256]
  }

  function FromBigEndian(s: seq<byte>, from: nat, width: nat): nat
    requires from + width <= |s|
  {
    if width == 0 then 0 else FromBigEndian(s, from, width - 1) * 256 + s[from + width - 1]
  }

  function Concat(parts: seq<seq<byte>>): seq<byte> {
    if parts == [] then [] else parts[0] + Concat(parts[1..])
  }

  // ---------------------------------------------------------------- key order

  predicate Lexical(a: seq<byte>, b: seq<byte>) {
    b != [] && (a == [] || a[0] < b[0] || (a[0] == b[0] && Lexical(a[1..], b[1..])))
  }

  /** Length first, then bytewise; section 4.2.3 of RFC 8949. */
  predicate KeyLess(a: seq<byte>, b: seq<byte>) {
    |a| < |b| || (|a| == |b| && Lexical(a, b))
  }

  datatype Keyed<T> = Keyed(key: seq<byte>, item: T)

  function Insert<T>(x: Keyed<T>, xs: seq<Keyed<T>>): seq<Keyed<T>> {
    if xs == [] || !KeyLess(xs[0].key, x.key) then [x] + xs else [xs[0]] + Insert(x, xs[1..])
  }

  /** The stable sort by key. */
  function Sort<T>(xs: seq<Keyed<T>>): seq<Keyed<T>> {
    if xs == [] then [] else Insert(xs[0], Sort(xs[1..]))
  }

  function Bodies<T>(xs: seq<Keyed<T>>): (ys: seq<T>)
    ensures |ys| == |xs|
  {
    seq(|xs|, i requires 0 <= i < |xs| => xs[i].item)
  }

  // ---------------------------------------------------------------- encoding

  /** Initial byte and shortest argument. */
  function Head(major: nat, n: nat): (s: seq<byte>)
    requires major < 8
    ensures s != []
  {
    if n < 24 then [major * 32 + n]
    else if n <= 0xff then [major * 32 + 24] + BigEndian(n, 1)
    else if n <= 0xffff then [major * 32 + 25] + BigEndian(n, 2)
    else if n <= 0xffff_ffff then [major * 32 + 26] + BigEndian(n, 4)
    else [major * 32 + 27] + BigEndian(n, 8)
  }

  /** The bytes of a value; meaningful when the encoder takes the value. */
  function Encode(v: Value): seq<byte> {
    match v
    case Null => [0xf6]
    case Bool(flag) => if flag then [0xf5] else [0xf4]
    case Integer(n) => if n >= 0 then Head(0, n) else Head(1, -1 - n)
    case Bytes(b) => Head(2, |b|) + b
    case Text(t) => Head(3, |t|) + t
    case Array(items) => Head(4, |items|) + Concat(seq(|items|, i requires 0 <= i < |items| => Encode(items[i])))
    case Map(entries) =>
      Head(5, |entries|) + Concat(Pieces(Sort(seq(|entries|, i requires 0 <= i < |entries| =>
        Keyed(Encode(entries[i].key), Encode(entries[i].value))))))
    case Tag => []
    case Float => []
  }

  function Pieces(xs: seq<Keyed<seq<byte>>>): (ys: seq<seq<byte>>)
    ensures |ys| == |xs|
  {
    seq(|xs|, i requires 0 <= i < |xs| => xs[i].key + xs[i].item)
  }

  /** What the encoder takes: no tags or floats, integers and lengths within 64 bits. */
  predicate Fits(v: Value) {
    match v
    case Null => true
    case Bool(_) => true
    case Integer(n) => -1 - U64_MAX <= n <= U64_MAX
    case Bytes(b) => |b| <= U64_MAX
    case Text(t) => |t| <= U64_MAX
    case Array(items) => |items| <= U64_MAX && forall i :: 0 <= i < |items| ==> Fits(items[i])
    case Map(entries) => |entries| <= U64_MAX
      && forall i :: 0 <= i < |entries| ==> Fits(entries[i].key) && Fits(entries[i].value)
    case Tag => false
    case Float => false
  }

  // ---------------------------------------------------------------- scanning

  function DecodeArgument(input: seq<byte>, offset: nat, additional: nat): Result<(nat, nat), ErrorCode> {
    if additional <= 23 then Ok((additional, 0))
    else if additional == 24 then Wide(input, offset, 1, 24)
    else if additional == 25 then Wide(input, offset, 2, 0x100)
    else if additional == 26 then Wide(input, offset, 4, 0x1_0000)
    else if additional == 27 then Wide(input, offset, 8, 0x1_0000_0000)
    else Err(CanonicalCbor)
  }

  /** An argument of `width` bytes, refused when a shorter form could hold it. */
  function Wide(input: seq<byte>, offset: nat, width: nat, least: nat): Result<(nat, nat), ErrorCode> {
    if offset + width > |input| then Err(CanonicalCbor)
    else
      var value := FromBigEndian(input, offset, width);
      if value < least then Err(CanonicalCbor) else Ok((value, width))
  }

  /** End of the item at `offset`, with `room` nesting levels left. */
  function Scan(input: seq<byte>, offset: nat, room: nat): Result<nat, ErrorCode>
    decreases room, 0, 0
  {
    if room == 0 || offset >= |input| then Err(CanonicalCbor)
    else
      var initial := input[offset];
      var (argument, width) :- DecodeArgument(input, offset + 1, initial % 32);
      var position := offset + 1 + width;
      match initial / 32
      case 0 => Ok(position)
      case 1 => Ok(position)
      case 2 => ScanString(input, position, argument, false)
      case 3 => ScanString(input, position, argument, true)
      case 4 => ScanMany(input, position, room - 1, argument)
      case 5 => ScanMany(input, position, room - 1, 2 * argument)
      case 6 => Err(CanonicalCbor)
      case _ => if 0xf4 <= initial <= 0xf6 then Ok(position) else Err(CanonicalCbor)
  }

  function ScanString(input: seq<byte>, position: nat, length: nat, text: bool): (r: Result<nat, ErrorCode>)
    ensures r.Ok? ==> r.value == position + length <= |input|
  {
    if position + length > U64_MAX then Err(Bounds)
    else if position + length > |input| then Err(CanonicalCbor)
    else if text && !Utf8(input[position..position + length]) then Err(CanonicalCbor)
    else Ok(position + length)
  }

  function ScanMany(input: seq<byte>, position: nat, room: nat, count: nat): Result<nat, ErrorCode>
    decreases room, 1, count
  {
    if count == 0 then Ok(position)
    else
      var next :- Scan(input, position, room);
      ScanMany(input, next, room, count - 1)
  }

  // ---------------------------------------------------------------- the value of an item

  /** An item's head: a whole scalar and its end, or what a container holds and where it starts. */
  datatype Node = Leaf(value: Value, end: nat) | List(count: nat, start: nat) | Dict(count: nat, start: nat)

  function NodeAt(input: seq<byte>, offset: nat): Result<Node, ErrorCode> {
    if offset >= |input| then Err(CanonicalCbor)
    else
      var initial := input[offset];
      var (argument, width) :- DecodeArgument(input, offset + 1, initial % 32);
      NodeOf(input, initial, argument, offset + 1 + width)
  }

  function NodeOf(input: seq<byte>, initial: byte, argument: nat, position: nat): Result<Node, ErrorCode> {
    match initial / 32
    case 0 => Ok(Leaf(Integer(argument), position))
    case 1 => Ok(Leaf(Integer(-1 - argument), position))
    case 2 =>
      var end :- ScanString(input, position, argument, false);
      Ok(Leaf(Bytes(input[position..end]), end))
    case 3 =>
      var end :- ScanString(input, position, argument, true);
      Ok(Leaf(Text(input[position..end]), end))
    case 4 => Ok(List(argument, position))
    case 5 => Ok(Dict(argument, position))
    case 6 => Err(CanonicalCbor)
    case _ =>
      if initial == 0xf4 then Ok(Leaf(Bool(false), position))
      else if initial == 0xf5 then Ok(Leaf(Bool(true), position))
      else if initial == 0xf6 then Ok(Leaf(Null, position))
      else Err(CanonicalCbor)
  }

  type Nodes = nat -> Result<Node, ErrorCode>

  function NodesOf(input: seq<byte>): Nodes { (offset: nat) => NodeAt(input, offset) }

  /** What the item at `offset` denotes, and where it ends. */
  function Read(node: Nodes, offset: nat, room: nat): Result<(Value, nat), ErrorCode>
    decreases room, 0, 0
  {
    if room == 0 then Err(CanonicalCbor)
    else
      var found :- node(offset);
      match found
      case Leaf(v, end) => Ok((v, end))
      case List(count, start) =>
        var (items, end) :- ReadMany(node, start, room - 1, count);
        Ok((Array(items), end))
      case Dict(count, start) =>
        var (items, end) :- ReadMany(node, start, room - 1, 2 * count);
        Ok((Map(Pair(items)), end))
  }

  function ReadMany(node: Nodes, position: nat, room: nat, count: nat): (r: Result<(seq<Value>, nat), ErrorCode>)
    ensures r.Ok? ==> |r.value.0| == count
    decreases room, 1, count
  {
    if count == 0 then Ok(([], position))
    else
      var (first, next) :- Read(node, position, room);
      var (rest, end) :- ReadMany(node, next, room, count - 1);
      Ok(([first] + rest, end))
  }

  /** Keys and values alternate. */
  function Pair(items: seq<Value>): (entries: seq<Entry>)
    ensures |entries| == |items| / 2
  {
    seq(|items| / 2, i requires 0 <= i < |items| / 2 => Entry(items[2 * i], items[2 * i + 1]))
  }

  // ---------------------------------------------------------------- properties of values

  function Largest(heights: seq<nat>): nat {
    if heights == [] then 0
    else if heights[0] >= Largest(heights[1..]) then heights[0] else Largest(heights[1..])
  }

  /** Nesting levels of a value; a scalar has one. */
  function Height(v: Value): (h: nat)
    ensures h > 0
  {
    match v
    case Array(items) => 1 + Largest(seq(|items|, i requires 0 <= i < |items| => Height(items[i])))
    case Map(entries) => 1 + Largest(seq(2 * |entries|, i requires 0 <= i < 2 * |entries| =>
        if i % 2 == 0 then Height(entries[i / 2].key) else Height(entries[i / 2].value)))
    case _ => 1
  }

  predicate Rising(keys: seq<seq<byte>>) {
    forall i, j :: 0 <= i < j < |keys| ==> KeyLess(keys[i], keys[j])
  }

  function Keys(entries: seq<Entry>): (keys: seq<seq<byte>>)
    ensures |keys| == |entries|
  {
    seq(|entries|, i requires 0 <= i < |entries| => Encode(entries[i].key))
  }

  /** Every map lists its entries in strictly rising key order. */
  predicate Ordered(v: Value) {
    match v
    case Array(items) => forall i :: 0 <= i < |items| ==> Ordered(items[i])
    case Map(entries) => Rising(Keys(entries))
      && forall i :: 0 <= i < |entries| ==> Ordered(entries[i].key) && Ordered(entries[i].value)
    case _ => true
  }

  /** What the types of the source guarantee: text is UTF-8 and no map holds a key twice. */
  predicate Proper(v: Value) {
    match v
    case Text(t) => Utf8(t)
    case Array(items) => forall i :: 0 <= i < |items| ==> Proper(items[i])
    case Map(entries) => Distinct(Keys(entries))
      && forall i :: 0 <= i < |entries| ==> Proper(entries[i].key) && Proper(entries[i].value)
    case _ => true
  }

  predicate Distinct(keys: seq<seq<byte>>) {
    forall i, j :: 0 <= i < j < |keys| ==> keys[i] != keys[j]
  }

  /** The value with the entries of every map in key order. */
  function Norm(v: Value): Value {
    match v
    case Array(items) => Array(seq(|items|, i requires 0 <= i < |items| => Norm(items[i])))
    case Map(entries) => Map(Bodies(Sort(seq(|entries|, i requires 0 <= i < |entries| =>
        Keyed(Encode(entries[i].key), Entry(Norm(entries[i].key), Norm(entries[i].value)))))))
    case _ => v
  }
}
