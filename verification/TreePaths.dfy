/** The checks on a bundle's tree: declared parents, and symbolic links that end inside it. */
module TreePaths {
  import opened Results
  import opened Wire
  import Cbor
  import CborLemmas

  type Path = seq<byte>
  const SLASH: byte := 0x2f
  const DOT: Path := [0x2e]
  const DOTDOT: Path := [0x2e, 0x2e]

  datatype Kind = Directory | Regular | Link
  datatype Entry = Entry(path: Path, kind: Kind, target: Option<Path>)
  datatype ErrorCode = BadPath | BadTree

  predicate Before(a: Path, b: Path) { Cbor.Lexical(a, b) }

  function Lower(b: byte): byte { if 0x41 <= b <= 0x5a then b + 0x20 else b }
  function Folded(p: Path): (q: Path) ensures |q| == |p| { seq(|p|, i requires 0 <= i < |p| => Lower(p[i])) }

  /** The position of the last slash. */
  function LastSlash(p: Path): (i: Option<nat>)
    ensures i.Some? ==> i.value < |p| && p[i.value] == SLASH && forall k :: i.value < k < |p| ==> p[k] != SLASH
    ensures i.None? ==> forall k :: 0 <= k < |p| ==> p[k] != SLASH
  {
    if p == [] then None
    else if p[|p| - 1] == SLASH then Some(|p| - 1)
    else LastSlash(p[..|p| - 1])
  }

  /** The path up to its last slash. */
  function Parent(p: Path): Option<Path> {
    var i := LastSlash(p);
    if i.None? then None else Some(p[..i.value])
  }

  // ---------------------------------------------------------------- what an accepted tree is

  ghost predicate Declared(entries: seq<Entry>, p: Path) {
    exists d :: 0 <= d < |entries| && entries[d].path == p && entries[d].kind == Directory
  }

  /** Every proper ancestor of `p`, cut at any slash, is a declared directory. */
  ghost predicate Rooted(entries: seq<Entry>, p: Path) {
    forall i :: 0 <= i < |p| && p[i] == SLASH ==> Declared(entries, p[..i])
  }

  ghost predicate Sorted(entries: seq<Entry>) {
    forall i, j :: 0 <= i < j < |entries| ==> Before(entries[i].path, entries[j].path)
  }

  ghost predicate Unfolded(entries: seq<Entry>) {
    forall i, j :: 0 <= i < j < |entries| ==> Folded(entries[i].path) != Folded(entries[j].path)
  }

  ghost predicate AllValid(entries: seq<Entry>, valid: Path -> bool) {
    forall i :: 0 <= i < |entries| ==> valid(entries[i].path)
  }

  /** An acceptable tree, without reference to how it is checked. */
  ghost predicate Tree(entries: seq<Entry>, valid: Path -> bool) {
    && AllValid(entries, valid) && Sorted(entries) && Unfolded(entries)
    && forall i :: 0 <= i < |entries| ==> Rooted(entries, entries[i].path)
  }

  /** What one pass can see: the direct parent, among the entries before. */
  ghost predicate Parented(entries: seq<Entry>, i: nat)
    requires i < |entries|
  {
    Parent(entries[i].path).Some? ==> Declared(entries[..i], Parent(entries[i].path).value)
  }

  ghost predicate Checked(entries: seq<Entry>, valid: Path -> bool) {
    && AllValid(entries, valid) && Sorted(entries) && Unfolded(entries)
    && forall i :: 0 <= i < |entries| ==> Parented(entries, i)
  }

  lemma {:induction false} PrefixBefore(p: Path, n: nat)
    requires n < |p|
    ensures Before(p[..n], p)
  {
    if n > 0 {
      PrefixBefore(p[1..], n - 1);
      assert p[..n][1..] == p[1..][..n - 1];
    }
  }

  lemma NotBoth(a: Path, b: Path)
    ensures !(Before(a, b) && Before(b, a)) && !Before(a, a)
  {
    CborLemmas.LexicalOrder(a, b, a);
  }

  /** In byte order a parent precedes its children. */
  lemma DeclaredEarlier(entries: seq<Entry>, i: nat, n: nat)
    requires Sorted(entries) && i < |entries| && n < |entries[i].path| && Declared(entries, entries[i].path[..n])
    ensures Declared(entries[..i], entries[i].path[..n])
  {
    var p := entries[i].path;
    var d :| 0 <= d < |entries| && entries[d].path == p[..n] && entries[d].kind == Directory;
    PrefixBefore(p, n);
    NotBoth(p[..n], p);
    assert d < i;
    assert entries[..i][d] == entries[d];
  }

  lemma {:induction false} AncestorsDeclared(entries: seq<Entry>, i: nat)
    requires Sorted(entries) && i < |entries| && forall k :: 0 <= k < |entries| ==> Parented(entries, k)
    ensures Rooted(entries, entries[i].path)
  {
    var p := entries[i].path;
    forall c | 0 <= c < |p| && p[c] == SLASH
      ensures Declared(entries, p[..c])
    {
      var last := LastSlash(p).value;
      assert Parented(entries, i);
      var d :| 0 <= d < i && entries[..i][d].path == p[..last] && entries[..i][d].kind == Directory;
      assert entries[d] == entries[..i][d];
      if c < last {
        AncestorsDeclared(entries, d);
        assert p[..last][c] == SLASH && p[..last][..c] == p[..c];
      }
    }
  }

  /** Checking direct parents in order is checking all ancestors. */
  lemma CheckedIsTree(entries: seq<Entry>, valid: Path -> bool)
    ensures Checked(entries, valid) <==> Tree(entries, valid)
  {
    if Checked(entries, valid) {
      forall i | 0 <= i < |entries| ensures Rooted(entries, entries[i].path) { AncestorsDeclared(entries, i); }
    }
    if Tree(entries, valid) {
      forall i | 0 <= i < |entries|
        ensures Parented(entries, i)
      {
        assert Rooted(entries, entries[i].path);
        if Parent(entries[i].path).Some? { DeclaredEarlier(entries, i, LastSlash(entries[i].path).value); }
      }
    }
  }

  // ---------------------------------------------------------------- the pass over the entries

  lemma PrefixChecked(entries: seq<Entry>, n: nat, valid: Path -> bool)
    requires n <= |entries| && Checked(entries, valid)
    ensures Checked(entries[..n], valid)
  {
    forall i | 0 <= i < n
      ensures Parented(entries[..n], i)
    {
      assert Parented(entries, i) && entries[..n][..i] == entries[..i];
    }
  }

  /** What entry `i` must satisfy on top of the entries before it. */
  ghost predicate Follows(entries: seq<Entry>, i: nat, valid: Path -> bool)
    requires i < |entries|
  {
    && valid(entries[i].path) && (i > 0 ==> Before(entries[i - 1].path, entries[i].path))
    && (forall k :: 0 <= k < i ==> Folded(entries[k].path) != Folded(entries[i].path))
    && Parented(entries, i)
  }

  lemma ExtendChecked(entries: seq<Entry>, i: nat, valid: Path -> bool)
    requires i < |entries| && Checked(entries[..i], valid)
    ensures Checked(entries[..i + 1], valid) <==> Follows(entries, i, valid)
  {
    var front, more := entries[..i], entries[..i + 1];
    assert more == front + [entries[i]];
    assert more[..i] == front;
    if Checked(more, valid) {
      assert Parented(more, i);
      if i > 0 { assert Before(more[i - 1].path, more[i].path); }
      forall k | 0 <= k < i ensures Folded(entries[k].path) != Folded(entries[i].path) {
        assert Folded(more[k].path) != Folded(more[i].path);
      }
    }
    if Follows(entries, i, valid) {
      forall k | 0 <= k < i
        ensures Before(more[k].path, more[i].path) && Parented(more, k)
      {
        assert Parented(front, k) && more[..k] == front[..k];
        if k < i - 1 {
          assert Before(front[k].path, front[i - 1].path);
          CborLemmas.LexicalOrder(front[k].path, front[i - 1].path, more[i].path);
        }
      }
    }
  }

  /** The names and kinds seen so far. */
  ghost predicate Recorded(entries: seq<Entry>, i: nat, folded: set<Path>, types: map<Path, Kind>)
    requires i <= |entries|
  {
    && (forall q :: q in folded <==> exists k :: 0 <= k < i && Folded(entries[k].path) == q)
    && (forall q :: q in types <==> exists k :: 0 <= k < i && entries[k].path == q)
    && (forall k :: 0 <= k < i ==> types[entries[k].path] == entries[k].kind)
  }

  lemma RecordNext(entries: seq<Entry>, i: nat, folded: set<Path>, types: map<Path, Kind>)
    requires i < |entries| && Recorded(entries, i, folded, types) && Folded(entries[i].path) !in folded
    ensures Recorded(entries, i + 1, folded + {Folded(entries[i].path)}, types[entries[i].path := entries[i].kind])
  {
    forall k | 0 <= k < i
      ensures entries[k].path != entries[i].path
    {
      assert Folded(entries[k].path) in folded;
    }
  }

  lemma ParentSeen(entries: seq<Entry>, i: nat, p: Path, folded: set<Path>, types: map<Path, Kind>)
    requires i <= |entries| && Recorded(entries, i, folded, types)
    ensures Declared(entries[..i], p) <==> p in types && types[p] == Directory
  {
    if p in types {
      var k :| 0 <= k < i && entries[k].path == p;
      assert entries[..i][k] == entries[k];
    }
  }

  lemma FoldSeen(entries: seq<Entry>, i: nat, folded: set<Path>, types: map<Path, Kind>)
    requires i < |entries| && Recorded(entries, i, folded, types)
    ensures Folded(entries[i].path) in folded <==>
      !(forall k :: 0 <= k < i ==> Folded(entries[k].path) != Folded(entries[i].path))
  {
  }

  method ValidateTreePaths(entries: seq<Entry>, valid: Path -> bool) returns (r: Result<(), ErrorCode>)
    ensures r.Ok? <==> Tree(entries, valid)
  {
    CheckedIsTree(entries, valid);
    var folded: set<Path>, types: map<Path, Kind> := {}, map[];
    var i := 0;
    while i < |entries|
      invariant i <= |entries| && Checked(entries[..i], valid) && Recorded(entries, i, folded, types)
    {
      var entry := entries[i];
      ExtendChecked(entries, i, valid);
      if Checked(entries, valid) { PrefixChecked(entries, i + 1, valid); }
      FoldSeen(entries, i, folded, types);
      if !valid(entry.path) { return Err(BadPath); }
      if i > 0 && !Before(entries[i - 1].path, entry.path) { return Err(BadPath); }
      if Folded(entry.path) in folded { return Err(BadPath); }
      var parent := Parent(entry.path);
      if parent.Some? {
        ParentSeen(entries, i, parent.value, folded, types);
        if parent.value !in types || types[parent.value] != Directory { return Err(BadPath); }
      }
      RecordNext(entries, i, folded, types);
      folded := folded + {Folded(entry.path)};
      types := types[entry.path := entry.kind];
      i := i + 1;
    }
    assert entries[..i] == entries;
    r := Ok(());
  }

  // ---------------------------------------------------------------- resolving a link

  function Split(p: Path): (parts: seq<Path>)
    ensures |parts| > 0
  {
    if p == [] then [[]]
    else
      var rest := Split(p[1..]);
      if p[0] == SLASH then [[]] + rest else [[p[0]] + rest[0]] + rest[1..]
  }

  function Join(parts: seq<Path>): Path {
    if parts == [] then [] else if |parts| == 1 then parts[0] else parts[0] + [SLASH] + Join(parts[1..])
  }

  /** Splitting loses nothing. */
  lemma {:induction false} JoinSplit(p: Path)
    ensures Join(Split(p)) == p
  {
    if p != [] {
      JoinSplit(p[1..]);
      var rest := Split(p[1..]);
      if p[0] == SLASH {
        assert ([[]] + rest)[1..] == rest;
      } else {
        assert ([[p[0]] + rest[0]] + rest[1..])[1..] == rest[1..];
      }
    }
  }

  /** The directory stack after following the components, unless it is popped empty. */
  function Walk(parts: seq<Path>, components: seq<Path>): Option<seq<Path>>
    decreases |components|
  {
    if components == [] then Some(parts)
    else if components[0] == DOT then Walk(parts, components[1..])
    else if components[0] == DOTDOT then
      if parts == [] then None else Walk(parts[..|parts| - 1], components[1..])
    else Walk(parts + [components[0]], components[1..])
  }

  function Resolve(link: Path, target: Path): Option<Path> {
    var start := Split(link);
    var parts := Walk(start[..|start| - 1], Split(target));
    if parts.None? || parts.value == [] then None else Some(Join(parts.value))
  }

  /** Levels below the root after each component. */
  function Level(start: int, components: seq<Path>): int {
    if components == [] then start
    else
      var last := components[|components| - 1];
      Level(start, components[..|components| - 1]) + if last == DOT then 0 else if last == DOTDOT then -1 else 1
  }

  /** No step climbs above the root. */
  ghost predicate StaysBelow(start: int, components: seq<Path>) {
    forall k :: 0 <= k <= |components| ==> Level(start, components[..k]) >= 0
  }

  lemma StaysShift(start: int, components: seq<Path>, next: int)
    requires components != [] && start >= 0
    requires next == start + if components[0] == DOT then 0 else if components[0] == DOTDOT then -1 else 1
    ensures StaysBelow(start, components) <==> StaysBelow(next, components[1..])
  {
    var rest := components[1..];
    forall k | 1 <= k <= |components|
      ensures Level(start, components[..k]) == Level(next, rest[..k - 1])
    {
      LevelsShift(start, components[..k]);
      assert components[..k][1..] == rest[..k - 1];
    }
    if StaysBelow(start, components) {
      forall k | 0 <= k <= |rest|
        ensures Level(next, rest[..k]) >= 0
      {
        assert Level(start, components[..k + 1]) >= 0;
      }
    }
    if StaysBelow(next, rest) {
      forall k | 0 <= k <= |components|
        ensures Level(start, components[..k]) >= 0
      {
        if k > 0 { assert Level(next, rest[..k - 1]) >= 0; } else { assert components[..0] == []; }
      }
    }
  }

  /** A target resolves exactly when no step of it climbs above the root. */
  lemma {:induction false} WalkStaysBelow(parts: seq<Path>, components: seq<Path>)
    ensures Walk(parts, components).Some? <==> StaysBelow(|parts|, components)
    ensures Walk(parts, components).Some? ==> |Walk(parts, components).value| == Level(|parts|, components)
    decreases |components|
  {
    if components == [] {
      assert components[..0] == components;
    } else {
      var rest := components[1..];
      var next: int := |parts| + if components[0] == DOT then 0 else if components[0] == DOTDOT then -1 else 1;
      LevelsShift(|parts|, components);
      StaysShift(|parts|, components, next);
      if next >= 0 {
        WalkStaysBelow(if components[0] == DOT then parts else if components[0] == DOTDOT then parts[..|parts| - 1]
                       else parts + [components[0]], rest);
      } else {
        assert Level(next, rest[..0]) == next;
      }
    }
  }

  lemma {:induction false} LevelsShift(start: int, components: seq<Path>)
    requires components != []
    ensures Level(start, components) ==
      Level(start + if components[0] == DOT then 0 else if components[0] == DOTDOT then -1 else 1, components[1..])
    decreases |components|
  {
    var n := |components| - 1;
    if n > 0 {
      LevelsShift(start, components[..n]);
      assert components[1..][..n - 1] == components[..n][1..];
    } else {
      assert components[..0] == [];
    }
  }
}
