/** The encoding is canonical: it depends on the value alone, tells values apart, and is the only
    form the scanner accepts with rising map keys. */
module CborCanonical {
  import opened Results
  import opened Wire
  import opened Cbor
  import opened CborLemmas
  import opened CborTheorems
  import opened CborInverse

  // ---------------------------------------------------------------- sorting by key

  lemma {:induction false} SortDistinct<T>(xs: seq<Keyed<T>>)
    requires Distinct(KeysOf(xs))
    ensures Rising(KeysOf(Sort(xs)))
  {
    if xs != [] {
      assert forall i :: 0 <= i < |xs| - 1 ==> KeysOf(xs[1..])[i] == KeysOf(xs)[i + 1];
      SortDistinct(xs[1..]);
      SortSorted(xs[1..]);
      forall y | y in Sort(xs[1..])
        ensures y.key != xs[0].key
      {
        assert y in multiset(xs[1..]);
        var i :| 0 <= i < |xs| - 1 && xs[1..][i] == y;
        assert KeysOf(xs)[0] != KeysOf(xs)[i + 1];
      }
      InsertRising(xs[0], Sort(xs[1..]));
    }
  }

  lemma {:induction false} InsertRising<T>(x: Keyed<T>, xs: seq<Keyed<T>>)
    requires Rising(KeysOf(xs)) && forall y :: y in xs ==> y.key != x.key
    ensures Rising(KeysOf(Insert(x, xs)))
  {
    if xs == [] {
    } else if !KeyLess(xs[0].key, x.key) {
      KeyOrder(x.key, xs[0].key, x.key);
      var ys := [x] + xs;
      forall j | 1 <= j < |ys|
        ensures KeyLess(x.key, ys[j].key)
      {
        if j > 1 {
          assert KeyLess(KeysOf(xs)[0], KeysOf(xs)[j - 1]);
          KeyOrder(x.key, xs[0].key, ys[j].key);
        }
      }
      forall i, j | 0 <= i < j < |ys|
        ensures KeyLess(KeysOf(ys)[i], KeysOf(ys)[j])
      {
        if i > 0 { assert KeyLess(KeysOf(xs)[i - 1], KeysOf(xs)[j - 1]); }
      }
    } else {
      var tail := xs[1..];
      assert forall i :: 0 <= i < |tail| ==> KeysOf(tail)[i] == KeysOf(xs)[i + 1];
      InsertRising(x, tail);
      InsertMembers(x, tail);
      var rest := Insert(x, tail);
      var ys := [xs[0]] + rest;
      forall j | 0 <= j < |rest|
        ensures KeyLess(xs[0].key, rest[j].key)
      {
        if rest[j] in tail {
          var k :| 0 <= k < |tail| && tail[k] == rest[j];
          assert KeyLess(KeysOf(xs)[0], KeysOf(xs)[k + 1]);
        }
      }
      forall i, j | 0 <= i < j < |ys|
        ensures KeyLess(KeysOf(ys)[i], KeysOf(ys)[j])
      {
        if i > 0 { assert KeyLess(KeysOf(rest)[i - 1], KeysOf(rest)[j - 1]); }
      }
    }
  }

  lemma {:induction false} InsertMembers<T>(x: Keyed<T>, xs: seq<Keyed<T>>)
    ensures forall y :: y in Insert(x, xs) ==> y == x || y in xs
  {
    if xs != [] && KeyLess(xs[0].key, x.key) { InsertMembers(x, xs[1..]); }
  }

  lemma TailRising<T>(xs: seq<Keyed<T>>)
    requires xs != [] && Rising(KeysOf(xs))
    ensures Rising(KeysOf(xs[1..]))
  {
    assert forall i :: 0 <= i < |xs| - 1 ==> KeysOf(xs[1..])[i] == KeysOf(xs)[i + 1];
  }

  /** Strictly rising sequences with the same elements are the same. */
  lemma {:induction false} RisingUnique<T>(xs: seq<Keyed<T>>, ys: seq<Keyed<T>>)
    requires Rising(KeysOf(xs)) && Rising(KeysOf(ys)) && multiset(xs) == multiset(ys)
    ensures xs == ys
  {
    if xs == [] {
      assert |multiset(ys)| == 0;
    } else {
      assert |multiset(xs)| == |multiset(ys)|;
      FirstIsLeast(xs, ys);
      assert xs == [xs[0]] + xs[1..] && ys == [ys[0]] + ys[1..];
      assert multiset(xs[1..]) == multiset(xs) - multiset{xs[0]};
      assert multiset(ys[1..]) == multiset(ys) - multiset{ys[0]};
      TailRising(xs);
      TailRising(ys);
      RisingUnique(xs[1..], ys[1..]);
    }
  }

  lemma FirstIsLeast<T>(xs: seq<Keyed<T>>, ys: seq<Keyed<T>>)
    requires Rising(KeysOf(xs)) && Rising(KeysOf(ys)) && multiset(xs) == multiset(ys) && |xs| > 0 && |ys| > 0
    ensures xs[0] == ys[0]
  {
    assert xs[0] in multiset(ys) && ys[0] in multiset(xs);
    var i :| 0 <= i < |ys| && ys[i] == xs[0];
    var j :| 0 <= j < |xs| && xs[j] == ys[0];
    if i > 0 && j > 0 {
      assert KeyLess(KeysOf(ys)[0], KeysOf(ys)[i]) && KeyLess(KeysOf(xs)[0], KeysOf(xs)[j]);
      KeyOrder(xs[0].key, ys[0].key, xs[0].key);
    }
  }

  function MapItems<T, U>(f: T -> U, xs: seq<Keyed<T>>): (ys: seq<Keyed<U>>)
    ensures |ys| == |xs|
  {
    seq(|xs|, i requires 0 <= i < |xs| => Keyed(xs[i].key, f(xs[i].item)))
  }

  lemma {:induction false} InsertMaps<T, U>(f: T -> U, x: Keyed<T>, xs: seq<Keyed<T>>)
    ensures MapItems(f, Insert(x, xs)) == Insert(Keyed(x.key, f(x.item)), MapItems(f, xs))
  {
    if xs != [] && KeyLess(xs[0].key, x.key) {
      InsertMaps(f, x, xs[1..]);
      assert MapItems(f, xs)[1..] == MapItems(f, xs[1..]);
    }
  }

  lemma {:induction false} SortMaps<T, U>(f: T -> U, xs: seq<Keyed<T>>)
    ensures MapItems(f, Sort(xs)) == Sort(MapItems(f, xs))
  {
    if xs != [] {
      SortMaps(f, xs[1..]);
      InsertMaps(f, xs[0], Sort(xs[1..]));
      assert MapItems(f, xs)[1..] == MapItems(f, xs[1..]);
    }
  }

  // ---------------------------------------------------------------- normal forms

  lemma {:induction false} EncodeAllSame(xs: seq<Value>, ys: seq<Value>)
    requires |xs| == |ys| && forall i :: 0 <= i < |xs| ==> Encode(xs[i]) == Encode(ys[i])
    ensures EncodeAll(xs) == EncodeAll(ys)
  {
    if xs != [] { EncodeAllSame(xs[1..], ys[1..]); }
  }

  ghost predicate Within(items: seq<Value>, h: nat) { forall i :: 0 <= i < |items| ==> Height(items[i]) <= h }

  lemma {:induction false} TallestBounds(items: seq<Value>, h: nat)
    ensures Tallest(items) <= h <==> Within(items, h)
  {
    if items != [] {
      TallestBounds(items[1..], h);
      assert Within(items, h) ==> Within(items[1..], h);
      if Within(items[1..], h) && Height(items[0]) <= h {
        assert forall i :: 1 <= i < |items| ==> items[i] == items[1..][i - 1];
      }
    }
  }

  /** Each height in `xs` occurs in `ys`. */
  ghost predicate HeightsIn(xs: seq<Value>, ys: seq<Value>) {
    forall i :: 0 <= i < |xs| ==> HasHeight(ys, Height(xs[i]))
  }

  ghost predicate HasHeight(ys: seq<Value>, h: nat) { exists j :: 0 <= j < |ys| && Height(ys[j]) == h }

  lemma TallestAtMost(xs: seq<Value>, ys: seq<Value>)
    requires HeightsIn(xs, ys)
    ensures Tallest(xs) <= Tallest(ys)
  {
    var h := Tallest(ys);
    TallestBounds(ys, h);
    TallestBounds(xs, h);
    forall i | 0 <= i < |xs|
      ensures Height(xs[i]) <= h
    {
      assert HasHeight(ys, Height(xs[i]));
    }
  }

  /** Normalising a value keeps its bytes and height and puts its maps in order. */
  ghost predicate Kept(v: Value) {
    Encode(Norm(v)) == Encode(v) && Plain(Norm(v)) && Height(Norm(v)) == Height(v)
  }

  lemma SameParts(items: seq<Value>, ns: seq<Value>)
    requires |ns| == |items| && forall i :: 0 <= i < |items| ==> Kept(items[i]) && ns[i] == Norm(items[i])
    ensures EncodeAll(ns) == EncodeAll(items) && Tallest(ns) == Tallest(items) && AllPlain(ns)
  {
    EncodeAllSame(ns, items);
    forall i | 0 <= i < |items|
      ensures HasHeight(items, Height(ns[i])) && HasHeight(ns, Height(items[i]))
    {
      assert Height(ns[i]) == Height(items[i]);
    }
    TallestAtMost(ns, items);
    TallestAtMost(items, ns);
  }

  lemma PlainArray(items: seq<Value>)
    requires AllPlain(items) && |items| <= U64_MAX
    ensures Plain(Array(items))
  {
  }

  lemma NormArray(items: seq<Value>) returns (ns: seq<Value>)
    ensures Norm(Array(items)) == Array(ns) && |ns| == |items| && forall i :: 0 <= i < |items| ==>
      ns[i] == Norm(items[i])
  {
    ns := Norm(Array(items)).items;
  }

  lemma ArrayKept(items: seq<Value>)
    requires |items| <= U64_MAX && forall i :: 0 <= i < |items| ==> Kept(items[i])
    ensures Kept(Array(items))
  {
    var ns := NormArray(items);
    SameParts(items, ns);
    PlainArray(ns);
    ArrayShape(ns);
    ArrayShape(items);
  }

  function NormParts(entries: seq<Entry>): (xs: seq<Keyed<Entry>>)
    ensures |xs| == |entries|
  {
    seq(|entries|, i requires 0 <= i < |entries| =>
      Keyed(Encode(entries[i].key), Entry(Norm(entries[i].key), Norm(entries[i].value))))
  }

  lemma NormMap(entries: seq<Entry>)
    ensures Norm(Map(entries)) == Map(Bodies(Sort(NormParts(entries))))
  {
    assert seq(|entries|, i requires 0 <= i < |entries| =>
        Keyed(Encode(entries[i].key), Entry(Norm(entries[i].key), Norm(entries[i].value)))) == NormParts(entries);
  }

  ghost predicate AllKept(entries: seq<Entry>) {
    forall i :: 0 <= i < |entries| ==> Kept(entries[i].key) && Kept(entries[i].value)
  }

  /** A sorted part is a part: its key is the encoding of its entry's key. */
  lemma SortedParts(entries: seq<Entry>, sorted: seq<Keyed<Entry>>, k: nat) returns (j: nat)
    requires AllKept(entries) && sorted == Sort(NormParts(entries)) && k < |sorted|
    ensures |sorted| == |entries| && j < |entries|
    ensures sorted[k].item == Entry(Norm(entries[j].key), Norm(entries[j].value))
    ensures sorted[k].key == Encode(sorted[k].item.key) && Plain(sorted[k].item.key) && Plain(sorted[k].item.value)
  {
    var xs := NormParts(entries);
    SortSorted(xs);
    assert sorted[k] in multiset(xs);
    j :| 0 <= j < |xs| && xs[j] == sorted[k];
    assert Kept(entries[j].key) && Kept(entries[j].value);
  }

  lemma SortedKeys(entries: seq<Entry>, sorted: seq<Keyed<Entry>>, es: seq<Entry>)
    requires AllKept(entries) && sorted == Sort(NormParts(entries)) && es == Bodies(sorted) && Distinct(Keys(entries))
    ensures |es| == |entries| && Keys(es) == KeysOf(sorted) && Rising(Keys(es))
    ensures forall k :: 0 <= k < |es| ==> Plain(es[k].key) && Plain(es[k].value)
  {
    SortSorted(NormParts(entries));
    forall k | 0 <= k < |es|
      ensures Keys(es)[k] == KeysOf(sorted)[k] && Plain(es[k].key) && Plain(es[k].value)
    {
      var j := SortedParts(entries, sorted, k);
    }
    assert KeysOf(NormParts(entries)) == Keys(entries);
    SortDistinct(NormParts(entries));
  }

  lemma SortedBytes(entries: seq<Entry>, sorted: seq<Keyed<Entry>>, es: seq<Entry>)
    requires AllKept(entries) && sorted == Sort(NormParts(entries)) && es == Bodies(sorted) && Distinct(Keys(entries))
    ensures Sort(Parts(es)) == Sort(Parts(entries))
  {
    var f := (e: Entry) => Encode(e.value);
    assert forall i :: 0 <= i < |entries| ==> Kept(entries[i].value);
    assert MapItems(f, NormParts(entries)) == Parts(entries);
    SortMaps(f, NormParts(entries));
    SortedKeys(entries, sorted, es);
    forall k | 0 <= k < |es|
      ensures MapItems(f, sorted)[k] == Parts(es)[k]
    {
      assert Keys(es)[k] == KeysOf(sorted)[k];
    }
    assert MapItems(f, sorted) == Parts(es);
    assert KeysOf(Parts(es)) == Keys(es);
    SortRising(Parts(es));
  }

  lemma PlainMap(es: seq<Entry>)
    requires |es| <= U64_MAX && Rising(Keys(es)) && forall k :: 0 <= k < |es| ==> Plain(es[k].key) && Plain(es[k].value)
    ensures Plain(Map(es))
  {
    RisingDistinct(Keys(es));
  }

  ghost predicate SameHeight(a: Entry, b: Entry) {
    Height(a.key) == Height(b.key) && Height(a.value) == Height(b.value)
  }

  ghost predicate Matched(a: Entry, ys: seq<Entry>) { exists j :: 0 <= j < |ys| && SameHeight(a, ys[j]) }

  /** The same heights in another order: none is gained. */
  lemma SameHeights(xs: seq<Entry>, ys: seq<Entry>)
    requires forall k :: 0 <= k < |xs| ==> Matched(xs[k], ys)
    ensures Tallest(Flat(xs)) <= Tallest(Flat(ys))
  {
    var fx, fy := Flat(xs), Flat(ys);
    forall i | 0 <= i < |fx|
      ensures HasHeight(fy, Height(fx[i]))
    {
      assert Matched(xs[i / 2], ys);
      MatchedHeights(xs[i / 2], ys);
    }
    TallestAtMost(fx, fy);
  }

  lemma MatchedHeights(a: Entry, ys: seq<Entry>)
    requires Matched(a, ys)
    ensures HasHeight(Flat(ys), Height(a.key)) && HasHeight(Flat(ys), Height(a.value))
  {
    var j :| 0 <= j < |ys| && SameHeight(a, ys[j]);
    assert Flat(ys)[2 * j] == ys[j].key && Flat(ys)[2 * j + 1] == ys[j].value;
  }

  lemma NormHeights(entries: seq<Entry>, j: nat)
    requires AllKept(entries) && j < |entries|
    ensures SameHeight(NormParts(entries)[j].item, entries[j]) && SameHeight(entries[j], NormParts(entries)[j].item)
  {
    assert Kept(entries[j].key) && Kept(entries[j].value);
  }

  lemma SortedHeights(entries: seq<Entry>, xs: seq<Keyed<Entry>>, es: seq<Entry>)
    requires AllKept(entries) && xs == NormParts(entries) && es == Bodies(Sort(xs))
    ensures Tallest(Flat(es)) == Tallest(Flat(entries))
  {
    var sorted := Sort(xs);
    SortSorted(xs);
    forall k | 0 <= k < |es|
      ensures Matched(es[k], entries) && Matched(entries[k], es)
    {
      assert sorted[k] in multiset(xs);
      var j :| 0 <= j < |xs| && xs[j] == sorted[k];
      NormHeights(entries, j);
      assert xs[k] in multiset(sorted);
      var i :| 0 <= i < |sorted| && sorted[i] == xs[k];
      NormHeights(entries, k);
      assert SameHeight(entries[k], es[i]);
    }
    SameHeights(es, entries);
    SameHeights(entries, es);
  }

  lemma MapKept(entries: seq<Entry>)
    requires |entries| <= U64_MAX && AllKept(entries) && Distinct(Keys(entries))
    ensures Kept(Map(entries))
  {
    var sorted := Sort(NormParts(entries));
    var es := Bodies(sorted);
    NormMap(entries);
    SortedKeys(entries, sorted, es);
    SortedBytes(entries, sorted, es);
    SortedHeights(entries, NormParts(entries), es);
    PlainMap(es);
    EncodeMap(es);
    EncodeMap(entries);
    HeightMap(es);
    HeightMap(entries);
  }

  lemma {:induction false} NormKept(v: Value)
    requires Fits(v) && Proper(v)
    ensures Kept(v)
    decreases v
  {
    match v
    case Array(items) =>
      forall i | 0 <= i < |items|
        ensures Kept(items[i])
      {
        NormKept(items[i]);
      }
      ArrayKept(items);
    case Map(entries) =>
      forall i | 0 <= i < |entries|
        ensures Kept(entries[i].key) && Kept(entries[i].value)
      {
        NormKept(entries[i].key);
        NormKept(entries[i].value);
      }
      MapKept(entries);
    case _ =>
  }

  // ---------------------------------------------------------------- theorems

  /** A value of the source's types that the encoder takes. */
  predicate Encodable(v: Value) { Fits(v) && Proper(v) }

  lemma PlainReads(node: Nodes, w: Value, bytes: seq<byte>, h: nat, input: seq<byte>, offset: nat, room: nat)
    requires Plain(w) && bytes == Encode(w) && h == Height(w) && At(input, offset, bytes)
    requires SeesHeads(node, input) && SeesScalars(node, input)
    ensures Read(node, offset, room) == Outcome(w, h, offset + |bytes|, room)
  {
    EncodedReadsBack(node, input, w, room);
  }

  lemma KeptReads(node: Nodes, w: Value, bytes: seq<byte>, h: nat, v: Value, input: seq<byte>, offset: nat, room: nat)
    requires Kept(v) && w == Norm(v) && bytes == Encode(v) && h == Height(v) && At(input, offset, bytes)
    requires SeesHeads(node, input) && SeesScalars(node, input)
    ensures Read(node, offset, room) == Outcome(w, h, offset + |bytes|, room)
  {
    PlainReads(node, w, bytes, h, input, offset, room);
  }

  lemma InputReads(v: Value, w: Value, bytes: seq<byte>, h: nat, input: seq<byte>, offset: nat, room: nat)
    requires Kept(v) && w == Norm(v) && bytes == Encode(v) && h == Height(v)
    requires At(input, offset, bytes) && |input| <= U64_MAX
    ensures Read(NodesOf(input), offset, room) == Outcome(w, h, offset + |bytes|, room)
  {
    SeesNodes(input);
    SeesLeaves(input);
    KeptReads(NodesOf(input), w, bytes, h, v, input, offset, room);
  }

  lemma ReadsNorm(v: Value, input: seq<byte>, offset: nat, room: nat)
    requires Encodable(v) && At(input, offset, Encode(v)) && |input| <= U64_MAX
    ensures Read(NodesOf(input), offset, room) == Outcome(Norm(v), Height(v), offset + |Encode(v)|, room)
  {
    NormKept(v);
    InputReads(v, Norm(v), Encode(v), Height(v), input, offset, room);
  }

  /** The scanner, put on an encoding inside any input, consumes exactly the encoding when the
      nesting fits the depth left, and refuses it otherwise. */
  lemma ScansOwnEncoding(v: Value, input: seq<byte>, offset: nat, room: nat)
    requires Encodable(v) && At(input, offset, Encode(v)) && |input| <= U64_MAX
    ensures Scan(input, offset, room) == if Height(v) <= room then Ok(offset + |Encode(v)|) else Err(CanonicalCbor)
  {
    ReadsNorm(v, input, offset, room);
    ScanIsRead(input, offset, room);
  }

  /** A reading of `k` bytes that gives `n`, nested `h` deep. */
  predicate ReadAs(input: seq<byte>, offset: nat, room: nat, n: Value, h: nat, k: nat) {
    h <= room && Read(NodesOf(input), offset, room) == Outcome(n, h, offset + k, room)
  }

  lemma OneReading(input: seq<byte>, offset: nat, room: nat, n: Value, h: nat, k: nat, m: Value, g: nat, j: nat)
    requires ReadAs(input, offset, room, n, h, k) && ReadAs(input, offset, room, m, g, j)
    ensures n == m && k == j
  {
  }

  lemma EncodingReadAs(v: Value, input: seq<byte>, offset: nat, room: nat, n: Value, h: nat, k: nat)
    requires Encodable(v) && At(input, offset, Encode(v)) && h <= room && |input| <= U64_MAX
    requires n == Norm(v) && h == Height(v) && k == |Encode(v)|
    ensures ReadAs(input, offset, room, n, h, k)
  {
    ReadsNorm(v, input, offset, room);
  }

  lemma TwoReadings(v: Value, w: Value, input: seq<byte>, offset: nat, room: nat)
    requires Encodable(v) && At(input, offset, Encode(v)) && Height(v) <= room
    requires Encodable(w) && At(input, offset, Encode(w)) && Height(w) <= room && |input| <= U64_MAX
    ensures Norm(v) == Norm(w) && |Encode(v)| == |Encode(w)|
  {
    EncodingReadAs(v, input, offset, room, Norm(v), Height(v), |Encode(v)|);
    EncodingReadAs(w, input, offset, room, Norm(w), Height(w), |Encode(w)|);
    OneReading(input, offset, room, Norm(v), Height(v), |Encode(v)|, Norm(w), Height(w), |Encode(w)|);
  }

  lemma PrefixAt(s: seq<byte>, t: seq<byte>)
    requires s <= t
    ensures At(t, 0, s) && (|s| == |t| ==> s == t)
  {
  }

  /** No encoding is a proper prefix of another, and equal encodings mean equal values up to the
      order of map entries. */
  lemma PrefixFree(v: Value, w: Value)
    requires Encodable(v) && Encodable(w) && |Encode(w)| <= U64_MAX && Encode(v) <= Encode(w)
    ensures Norm(v) == Norm(w) && Encode(v) == Encode(w)
  {
    PrefixAt(Encode(v), Encode(w));
    PrefixAt(Encode(w), Encode(w));
    TwoReadings(v, w, Encode(w), 0, Height(v) + Height(w));
  }

  lemma EncodingDecidesValue(v: Value, w: Value)
    requires Encodable(v) && Encodable(w) && |Encode(w)| <= U64_MAX
    ensures Encode(v) == Encode(w) <==> Norm(v) == Norm(w)
  {
    if Encode(v) == Encode(w) { PrefixFree(v, w); }
    NormKept(v);
    NormKept(w);
  }

  lemma Without<T>(ys: seq<T>, j: nat)
    requires j < |ys|
    ensures multiset(ys) == multiset(ys[..j] + ys[j + 1..]) + multiset{ys[j]}
  {
    assert ys == ys[..j] + [ys[j]] + ys[j + 1..];
  }

  lemma Cancel<T>(a: multiset<T>, b: multiset<T>, e: T)
    requires a + multiset{e} == b + multiset{e}
    ensures a == b
  {
    assert a == a + multiset{e} - multiset{e} && b == b + multiset{e} - multiset{e};
  }

  lemma PartsWithout(ys: seq<Entry>, j: nat)
    requires j < |ys|
    ensures multiset(Parts(ys)) ==
      multiset(Parts(Drop(ys, j))) + multiset{Keyed(Encode(ys[j].key), Encode(ys[j].value))}
  {
    Without(Parts(ys), j);
    assert Parts(Drop(ys, j)) == Drop(Parts(ys), j);
  }

  function Drop<T>(ys: seq<T>, j: nat): seq<T>
    requires j < |ys|
  {
    ys[..j] + ys[j + 1..]
  }

  lemma DropFirst<T>(xs: seq<T>, ys: seq<T>) returns (j: nat)
    requires |xs| > 0 && multiset(xs) == multiset(ys)
    ensures j < |ys| && ys[j] == xs[0] && multiset(Drop(xs, 0)) == multiset(Drop(ys, j))
  {
    assert xs[0] in multiset(ys);
    j :| 0 <= j < |ys| && ys[j] == xs[0];
    Without(xs, 0);
    Without(ys, j);
    Cancel(multiset(Drop(xs, 0)), multiset(Drop(ys, j)), xs[0]);
  }

  lemma {:induction false} PartsPermute(xs: seq<Entry>, ys: seq<Entry>)
    requires multiset(xs) == multiset(ys)
    ensures multiset(Parts(xs)) == multiset(Parts(ys))
    decreases |xs|
  {
    if |xs| == 0 {
      assert |ys| == |multiset(ys)|;
    } else {
      var j := DropFirst(xs, ys);
      PartsWithout(xs, 0);
      PartsWithout(ys, j);
      PartsPermute(Drop(xs, 0), Drop(ys, j));
    }
  }

  /** The order in which a map is iterated leaves no trace in its encoding. */
  lemma OrderIsForgotten(xs: seq<Entry>, ys: seq<Entry>)
    requires multiset(xs) == multiset(ys) && Distinct(Keys(xs)) && Distinct(Keys(ys))
    ensures Encode(Map(xs)) == Encode(Map(ys))
  {
    PartsPermute(xs, ys);
    assert KeysOf(Parts(xs)) == Keys(xs) && KeysOf(Parts(ys)) == Keys(ys);
    SortDistinct(Parts(xs));
    SortDistinct(Parts(ys));
    SortSorted(Parts(xs));
    SortSorted(Parts(ys));
    RisingUnique(Sort(Parts(xs)), Sort(Parts(ys)));
    EncodeMap(xs);
    EncodeMap(ys);
    assert |multiset(xs)| == |xs| && |multiset(ys)| == |ys|;
  }

  /** Whatever the scanner accepts denotes a value; if its map keys rise strictly, the accepted
      bytes are the encoding of that value. */
  lemma AcceptedIsEncoding(input: seq<byte>, offset: nat, room: nat)
    requires Scan(input, offset, room).Ok?
    ensures Read(NodesOf(input), offset, room).Ok?
    ensures var (v, end) := Read(NodesOf(input), offset, room).value;
      && Scan(input, offset, room) == Ok(end) && Fits(v) && Height(v) <= room
      && (Ordered(v) ==> Encodable(v) && At(input, offset, Encode(v)) && end == offset + |Encode(v)|)
  {
    ScanIsRead(input, offset, room);
    NodesAreTrue(input);
    ReadYields(NodesOf(input), input, offset, room);
  }

  ghost predicate IsEncoding(input: seq<byte>, room: nat, v: Value) {
    Encodable(v) && Height(v) <= room && Encode(v) == input
  }

  /** The map keys of the item the input denotes rise strictly, at every level. */
  predicate KeysRise(input: seq<byte>, offset: nat, room: nat) {
    Read(NodesOf(input), offset, room).Ok? && Ordered(Read(NodesOf(input), offset, room).value.0)
  }

  lemma EncodingScansInOrder(input: seq<byte>, offset: nat, room: nat, v: Value)
    requires IsEncoding(input, room, v) && |input| <= U64_MAX && offset == 0
    ensures Scan(input, offset, room) == Ok(|input|) && KeysRise(input, offset, room)
  {
    ScansOwnEncoding(v, input, offset, room);
    ReadsNorm(v, input, offset, room);
    NormKept(v);
  }

  lemma ScannedInOrderIsEncoding(input: seq<byte>, offset: nat, room: nat)
    requires Scan(input, offset, room) == Ok(|input|) && KeysRise(input, offset, room) && offset == 0
    ensures IsEncoding(input, room, Read(NodesOf(input), offset, room).value.0)
  {
    AcceptedIsEncoding(input, offset, room);
    AtSlice(input, offset, Encode(Read(NodesOf(input), offset, room).value.0));
  }

  /** The canonical inputs, exactly: those the scanner consumes whole and whose maps list their
      keys in strictly rising order. The scanner starts with `room == MAX_DEPTH`. */
  lemma CanonicalIffScannedInOrder(input: seq<byte>, room: nat)
    requires |input| <= U64_MAX
    ensures (exists v :: IsEncoding(input, room, v)) <==>
      Scan(input, 0, room) == Ok(|input|) && KeysRise(input, 0, room)
  {
    if v :| IsEncoding(input, room, v) {
      EncodingScansInOrder(input, 0, room, v);
    } else if Scan(input, 0, room) == Ok(|input|) && KeysRise(input, 0, room) {
      ScannedInOrderIsEncoding(input, 0, room);
    }
  }
}
