/** Building blocks for the CBOR theorems: arguments, key order, sorting, and flat views of values. */
module CborLemmas {
  import opened Results
  import opened Wire
  import opened Cbor

  // ---------------------------------------------------------------- arguments

  function Pow256(k: nat): (n: nat)
    ensures n > 0
  {
    if k == 0 then 1 else 256 * Pow256(k - 1)
  }

  lemma {:induction false} BigEndianValue(n: nat, width: nat, s: seq<byte>, from: nat)
    requires n < Pow256(width) && At(s, from, BigEndian(n, width))
    ensures FromBigEndian(s, from, width) == n
  {
    if width > 0 {
      var front := BigEndian(n / 256, width - 1);
      assert BigEndian(n, width) == front + [n % 256];
      AtSplit(s, from, front, [n % 256]);
      BigEndianValue(n / 256, width - 1, s, from);
      assert s[from + (width - 1)] == [n % 256][0];
    }
  }

  lemma {:induction false} ValueBigEndian(s: seq<byte>, from: nat, width: nat)
    requires from + width <= |s|
    ensures FromBigEndian(s, from, width) < Pow256(width)
    ensures At(s, from, BigEndian(FromBigEndian(s, from, width), width))
  {
    if width > 0 {
      ValueBigEndian(s, from, width - 1);
      var n := FromBigEndian(s, from, width);
      var last := s[from + width - 1];
      assert n / 256 == FromBigEndian(s, from, width - 1) && n % 256 == last;
      assert BigEndian(n, width) == BigEndian(n / 256, width - 1) + [last];
      AtSplit(s, from, BigEndian(n / 256, width - 1), [last]);
    }
  }

  lemma Powers()
    ensures Pow256(1) == 0x100 && Pow256(2) == 0x1_0000 && Pow256(4) == 0x1_0000_0000 && Pow256(8) == U64_MAX + 1
  {
    assert Pow256(2) == 0x1_0000 && Pow256(3) == 0x100_0000;
    assert Pow256(4) == 0x1_0000_0000 && Pow256(5) == 0x100_0000_0000 && Pow256(6) == 0x1_0000_0000_0000;
  }

  /** `s` stands in the input at `offset`. */
  predicate At(input: seq<byte>, offset: nat, s: seq<byte>) {
    offset + |s| <= |input| && forall k :: 0 <= k < |s| ==> input[offset + k] == s[k]
  }

  lemma AtSplit(input: seq<byte>, offset: nat, s: seq<byte>, t: seq<byte>)
    ensures At(input, offset, s + t) <==> At(input, offset, s) && At(input, offset + |s|, t)
  {
    if At(input, offset, s + t) {
      forall k | 0 <= k < |s|
        ensures input[offset + k] == s[k]
      {
        assert (s + t)[k] == s[k];
      }
      forall k | 0 <= k < |t|
        ensures input[offset + |s| + k] == t[k]
      {
        assert (s + t)[|s| + k] == t[k];
      }
    }
  }

  lemma AtSlice(input: seq<byte>, offset: nat, s: seq<byte>)
    requires At(input, offset, s)
    ensures input[offset..offset + |s|] == s
  {
  }

  /** Reading back the head that was written. */
  lemma HeadDecodes(major: nat, n: nat, input: seq<byte>, offset: nat)
    requires major < 8 && n <= U64_MAX && At(input, offset, Head(major, n))
    ensures input[offset] / 32 == major
    ensures DecodeArgument(input, offset + 1, input[offset] % 32) == Ok((n, |Head(major, n)| - 1))
  {
    var head := Head(major, n);
    assert input[offset] == head[0];
    Powers();
    var width := |head| - 1;
    if n >= 24 {
      AtSplit(input, offset, [head[0]], BigEndian(n, width));
      assert head == [head[0]] + BigEndian(n, width);
      BigEndianValue(n, width, input, offset + 1);
    }
  }

  lemma WideHead(major: nat, n: nat, code: nat, width: nat, least: nat)
    requires major < 8 && least <= n < Pow256(width)
    requires (code, width, least) in {(24, 1, 24), (25, 2, 0x100), (26, 4, 0x1_0000), (27, 8, 0x1_0000_0000)}
    ensures n <= U64_MAX && Head(major, n) == [major * 32 + code] + BigEndian(n, width)
  {
    Powers();
  }

  /** An accepted argument is the one the encoder writes. */
  lemma HeadOnly(input: seq<byte>, offset: nat)
    requires offset < |input| && DecodeArgument(input, offset + 1, input[offset] % 32).Ok?
    ensures var (n, width) := DecodeArgument(input, offset + 1, input[offset] % 32).value;
      n <= U64_MAX && |Head(input[offset] / 32, n)| == 1 + width && At(input, offset, Head(input[offset] / 32, n))
  {
    var code := input[offset] % 32;
    var (n, width) := DecodeArgument(input, offset + 1, code).value;
    if code > 23 {
      ValueBigEndian(input, offset + 1, width);
      WideHead(input[offset] / 32, n, code, width,
               if code == 24 then 24 else if code == 25 then 0x100 else if code == 26 then 0x1_0000 else 0x1_0000_0000);
      AtSplit(input, offset, [input[offset]], BigEndian(n, width));
    }
  }

  // ---------------------------------------------------------------- key order

  lemma {:induction false} LexicalOrder(a: seq<byte>, b: seq<byte>, c: seq<byte>)
    ensures !Lexical(a, a) && (Lexical(a, b) && Lexical(b, c) ==> Lexical(a, c))
    ensures a != b ==> Lexical(a, b) || Lexical(b, a)
  {
    if a != [] {
      LexicalOrder(a[1..], if b == [] then b else b[1..], if c == [] then c else c[1..]);
      if b != [] && a[0] == b[0] { assert a == [a[0]] + a[1..] && b == [b[0]] + b[1..]; }
    }
  }

  lemma KeyOrder(a: seq<byte>, b: seq<byte>, c: seq<byte>)
    ensures !KeyLess(a, a) && (KeyLess(a, b) && KeyLess(b, c) ==> KeyLess(a, c))
    ensures a != b ==> KeyLess(a, b) || KeyLess(b, a)
    ensures !(KeyLess(a, b) && KeyLess(b, a))
  {
    LexicalOrder(a, b, c);
    LexicalOrder(a, b, a);
  }

  function KeysOf<T>(xs: seq<Keyed<T>>): (keys: seq<seq<byte>>)
    ensures |keys| == |xs|
  {
    seq(|xs|, i requires 0 <= i < |xs| => xs[i].key)
  }

  /** Not falling: what a sort by key gives. */
  predicate Sorted<T>(xs: seq<Keyed<T>>) {
    forall i, j :: 0 <= i < j < |xs| ==> !KeyLess(xs[j].key, xs[i].key)
  }

  lemma {:induction false} InsertSorted<T>(x: Keyed<T>, xs: seq<Keyed<T>>)
    requires Sorted(xs)
    ensures Sorted(Insert(x, xs)) && multiset(Insert(x, xs)) == multiset(xs) + multiset{x}
    ensures |Insert(x, xs)| == |xs| + 1
  {
    if xs == [] {
    } else if !KeyLess(xs[0].key, x.key) {
      forall j | 0 <= j < |xs|
        ensures !KeyLess(xs[j].key, x.key)
      {
        KeyOrder(xs[0].key, xs[j].key, x.key);
        KeyOrder(xs[j].key, x.key, xs[0].key);
      }
    } else {
      InsertSorted(x, xs[1..]);
      var rest := Insert(x, xs[1..]);
      assert xs == [xs[0]] + xs[1..];
      forall j | 0 <= j < |rest|
        ensures !KeyLess(rest[j].key, xs[0].key)
      {
        assert rest[j] in multiset(rest);
        KeyOrder(xs[0].key, x.key, xs[0].key);
      }
    }
  }

  lemma {:induction false} SortSorted<T>(xs: seq<Keyed<T>>)
    ensures Sorted(Sort(xs)) && multiset(Sort(xs)) == multiset(xs) && |Sort(xs)| == |xs|
  {
    if xs != [] {
      SortSorted(xs[1..]);
      InsertSorted(xs[0], Sort(xs[1..]));
      assert xs == [xs[0]] + xs[1..];
    }
  }

  lemma {:induction false} SortRising<T>(xs: seq<Keyed<T>>)
    requires Rising(KeysOf(xs))
    ensures Sort(xs) == xs
  {
    if xs != [] {
      forall i, j | 0 <= i < j < |xs| - 1
        ensures KeyLess(KeysOf(xs[1..])[i], KeysOf(xs[1..])[j])
      {
        assert KeyLess(KeysOf(xs)[i + 1], KeysOf(xs)[j + 1]);
      }
      SortRising(xs[1..]);
      if |xs| > 1 {
        assert KeyLess(KeysOf(xs)[0], KeysOf(xs)[1]);
        KeyOrder(xs[0].key, xs[1].key, xs[0].key);
      }
    }
  }
}
