/** Links followed one component at a time, as a file system does, against the lexical chains that
    the verifier checks. */
module TreeWalk {
  import opened Results
  import opened Wire
  import opened TreePaths
  import opened TreeLinks
  import CborLemmas

  // ---------------------------------------------------------------- components

  predicate Plain(c: Path) { forall k :: 0 <= k < |c| ==> c[k] != SLASH }

  predicate AllPlain(parts: seq<Path>) { forall k :: 0 <= k < |parts| ==> Plain(parts[k]) }

  lemma {:induction false} SplitIsPlain(p: Path)
    ensures AllPlain(Split(p))
  {
    if p != [] { SplitIsPlain(p[1..]); }
  }

  /** A first component, whatever follows its slash. */
  lemma {:induction false} SplitFirst(c: Path, rest: Path)
    requires Plain(c)
    ensures Split(c) == [c] && Split(c + [SLASH] + rest) == [c] + Split(rest)
  {
    var p := c + [SLASH] + rest;
    if c == [] {
      assert p[1..] == rest;
    } else {
      SplitFirst(c[1..], rest);
      assert p[1..] == c[1..] + [SLASH] + rest;
      assert [c[0]] + c[1..] == c;
    }
  }

  lemma {:induction false} SplitJoin(parts: seq<Path>)
    requires parts != [] && AllPlain(parts)
    ensures Split(Join(parts)) == parts
  {
    if |parts| == 1 {
      SplitFirst(parts[0], []);
    } else {
      SplitJoin(parts[1..]);
      SplitFirst(parts[0], Join(parts[1..]));
    }
  }

  /** The first components of a path are the path cut at a slash. */
  lemma {:induction false} SplitCut(p: Path, k: nat) returns (i: nat)
    requires 1 <= k < |Split(p)|
    ensures i < |p| && p[i] == SLASH && Join(Split(p)[..k]) == p[..i]
  {
    var rest := Split(p[1..]);
    if p[0] == SLASH {
      if k == 1 {
        i := 0;
      } else {
        i := SplitCut(p[1..], k - 1);
        i := i + 1;
        assert Split(p)[..k][1..] == rest[..k - 1];
      }
    } else {
      i := SplitCut(p[1..], k);
      i := i + 1;
      assert Split(p)[..k] == [[p[0]] + rest[0]] + rest[..k][1..];
      assert p[..i] == [p[0]] + p[1..][..i - 1];
    }
  }

  // ---------------------------------------------------------------- following by component

  /** How following a path by component ends: at an entry, at a name that is not there, at a file
      with components left, at a link too many, or above the root. */
  datatype Way = Arrived(parts: seq<Path>) | Missing | NotDirectory | TooManyLinks | Outside

  /** Where following the components from a directory leads, every link on the way being followed in
      its turn. `links` bounds how many. */
  function Descend(entries: seq<Entry>, parts: seq<Path>, components: seq<Path>, links: nat): Way
    decreases links, |components|
  {
    if components == [] then Arrived(parts)
    else
      var c, rest := components[0], components[1..];
      if c == DOT then Descend(entries, parts, rest, links)
      else if c == DOTDOT then
        if parts == [] then Outside else Descend(entries, parts[..|parts| - 1], rest, links)
      else
        var e := Lookup(entries, Join(parts + [c]));
        if e.None? then Missing
        else match e.value.kind
          case Directory => Descend(entries, parts + [c], rest, links)
          case Regular => if rest == [] then Arrived(parts + [c]) else NotDirectory
          case Link =>
            if e.value.target.None? then Missing
            else if links == 0 then TooManyLinks
            else Descend(entries, parts, Split(e.value.target.value) + rest, links - 1)
  }

  predicate IsDir(entries: seq<Entry>, parts: seq<Path>) {
    Lookup(entries, Join(parts)).Some? && Lookup(entries, Join(parts)).value.kind == Directory
  }

  ghost predicate Dirs(entries: seq<Entry>, parts: seq<Path>) {
    forall k :: 1 <= k <= |parts| ==> IsDir(entries, parts[..k])
  }

  /** Whatever the components pass through before the last is a declared directory. */
  predicate Straight(entries: seq<Entry>, parts: seq<Path>, components: seq<Path>)
    decreases |components|
  {
    if components == [] then true
    else
      var c, rest := components[0], components[1..];
      if c == DOT then Straight(entries, parts, rest)
      else if c == DOTDOT then parts != [] && Straight(entries, parts[..|parts| - 1], rest)
      else (rest == [] || IsDir(entries, parts + [c])) && Straight(entries, parts + [c], rest)
  }

  /** What is left to do once the components have been walked to `q`. */
  function Arrive(entries: seq<Entry>, q: seq<Path>, f: Entry, links: nat): Way
    requires q != []
  {
    if f.kind != Link then Arrived(q)
    else if f.target.None? then Missing
    else if links == 0 then TooManyLinks
    else Descend(entries, q[..|q| - 1], Split(f.target.value), links - 1)
  }

  lemma PushedDirs(entries: seq<Entry>, parts: seq<Path>, c: Path)
    requires Dirs(entries, parts) && IsDir(entries, parts + [c])
    ensures Dirs(entries, parts + [c])
  {
    forall k | 1 <= k <= |parts| + 1
      ensures IsDir(entries, (parts + [c])[..k])
    {
      if k <= |parts| { assert (parts + [c])[..k] == parts[..k]; } else { assert (parts + [c])[..k] == parts + [c]; }
    }
  }

  lemma PoppedDirs(entries: seq<Entry>, parts: seq<Path>)
    requires Dirs(entries, parts) && parts != []
    ensures Dirs(entries, parts[..|parts| - 1])
  {
    var front := parts[..|parts| - 1];
    forall k | 1 <= k <= |front|
      ensures IsDir(entries, front[..k])
    {
      assert front[..k] == parts[..k];
    }
  }

  /** Along a straight way, stepping through the file system and walking the text agree. */
  lemma {:induction false} StraightAgrees(entries: seq<Entry>, parts: seq<Path>, components: seq<Path>, links: nat,
                                          q: seq<Path>, f: Entry)
    requires Dirs(entries, parts) && Straight(entries, parts, components)
    requires Walk(parts, components) == Some(q) && q != [] && Lookup(entries, Join(q)) == Some(f)
    ensures Descend(entries, parts, components, links) == Arrive(entries, q, f, links)
    decreases |components|
  {
    if components == [] {
      assert parts[..|parts|] == parts;
      assert IsDir(entries, parts[..|parts|]);
    } else {
      var c, rest := components[0], components[1..];
      if c == DOT {
        StraightAgrees(entries, parts, rest, links, q, f);
      } else if c == DOTDOT {
        PoppedDirs(entries, parts);
        StraightAgrees(entries, parts[..|parts| - 1], rest, links, q, f);
      } else if rest != [] {
        PushedDirs(entries, parts, c);
        StraightAgrees(entries, parts + [c], rest, links, q, f);
      } else {
        assert q == parts + [c] && q[..|q| - 1] == parts;
        if f.kind == Link && f.target.Some? { assert Split(f.target.value) + rest == Split(f.target.value); }
      }
    }
  }

  /** The way is straight exactly when it can be followed by component without meeting a link: then
      it ends where the text says, at something that is there and is no link. */
  lemma {:induction false} StraightIffNoLinkMet(entries: seq<Entry>, parts: seq<Path>, components: seq<Path>,
                                                q: seq<Path>)
    requires Dirs(entries, parts)
    ensures Descend(entries, parts, components, 0) == Arrived(q) <==>
      && Straight(entries, parts, components) && Walk(parts, components) == Some(q)
      && (q == [] || (Lookup(entries, Join(q)).Some? && Lookup(entries, Join(q)).value.kind != Link))
    decreases |components|
  {
    if components == [] {
      assert parts[..|parts|] == parts;
      if parts != [] { assert IsDir(entries, parts[..|parts|]); }
    } else {
      var c, rest := components[0], components[1..];
      if c == DOT {
        StraightIffNoLinkMet(entries, parts, rest, q);
      } else if c == DOTDOT {
        if parts != [] {
          PoppedDirs(entries, parts);
          StraightIffNoLinkMet(entries, parts[..|parts| - 1], rest, q);
        }
      } else if IsDir(entries, parts + [c]) {
        PushedDirs(entries, parts, c);
        StraightIffNoLinkMet(entries, parts + [c], rest, q);
      }
    }
  }

  // ---------------------------------------------------------------- whole chains

  function Home(p: Path): seq<Path> { var parts := Split(p); parts[..|parts| - 1] }

  lemma DeclaredIsDir(entries: seq<Entry>, parts: seq<Path>)
    requires DistinctPaths(entries) && Declared(entries, Join(parts))
    ensures IsDir(entries, parts)
  {
    var d :| 0 <= d < |entries| && entries[d].path == Join(parts) && entries[d].kind == Directory;
    LookupThere(entries, d);
  }

  lemma {:induction false} LookupThere(entries: seq<Entry>, d: nat)
    requires DistinctPaths(entries) && d < |entries|
    ensures Lookup(entries, entries[d].path) == Some(entries[d])
  {
    var n := |entries| - 1;
    if d < n {
      var shorter := entries[..n];
      assert DistinctPaths(shorter);
      LookupThere(shorter, d);
    }
  }

  /** An entry of a tree lies in directories. */
  lemma HomeIsDirs(entries: seq<Entry>, p: Path)
    requires DistinctPaths(entries) && Rooted(entries, p)
    ensures Dirs(entries, Home(p))
  {
    var home := Home(p);
    forall k | 1 <= k <= |home|
      ensures IsDir(entries, home[..k])
    {
      var i := SplitCut(p, k);
      assert home[..k] == Split(p)[..k];
      DeclaredIsDir(entries, home[..k]);
    }
  }

  /** The entry a lexical chain ends at. */
  function ChainEnd(entries: seq<Entry>, e: Entry, hops: nat, valid: Path -> bool): Entry
    requires Reaches(entries, e, hops, valid)
    decreases hops
  {
    if e.kind != Link then e else ChainEnd(entries, Hop(entries, e, valid).value, hops - 1, valid)
  }

  /** Every link of the chain goes a straight way. */
  predicate StraightChain(entries: seq<Entry>, e: Entry, hops: nat, valid: Path -> bool)
    requires Reaches(entries, e, hops, valid)
    decreases hops
  {
    e.kind == Link ==>
      && Straight(entries, Home(e.path), Split(e.target.value))
      && StraightChain(entries, Hop(entries, e, valid).value, hops - 1, valid)
  }

  lemma WalkIsPlain(parts: seq<Path>, components: seq<Path>)
    requires AllPlain(parts) && AllPlain(components) && Walk(parts, components).Some?
    ensures AllPlain(Walk(parts, components).value)
    decreases |components|
  {
    if components != [] {
      var c, rest := components[0], components[1..];
      WalkIsPlain(if c == DOT then parts else if c == DOTDOT then parts[..|parts| - 1] else parts + [c], rest);
    }
  }

  /** One link: its target is walked to `q`, which spells the path of the entry it hops to. */
  lemma HopWalks(entries: seq<Entry>, e: Entry, valid: Path -> bool) returns (q: seq<Path>)
    requires Hop(entries, e, valid).Some?
    ensures q != [] && Walk(Home(e.path), Split(e.target.value)) == Some(q)
    ensures var f := Hop(entries, e, valid).value;
      f in entries && Lookup(entries, Join(q)) == Some(f) && f.path == Join(q) && Split(f.path) == q
  {
    q := Walk(Home(e.path), Split(e.target.value)).value;
    SplitIsPlain(e.path);
    SplitIsPlain(e.target.value);
    WalkIsPlain(Home(e.path), Split(e.target.value));
    SplitJoin(q);
    LookupFinds(entries, Join(q));
  }

  /** Entries with paths of their own, each lying in directories. */
  ghost predicate Grounded(entries: seq<Entry>) {
    DistinctPaths(entries) && forall e :: e in entries ==> Rooted(entries, e.path)
  }

  lemma TreeIsGrounded(entries: seq<Entry>, path: Path -> bool)
    requires Tree(entries, path)
    ensures Grounded(entries)
  {
    SortedDistinct(entries);
    forall e | e in entries
      ensures Rooted(entries, e.path)
    {
      var i :| 0 <= i < |entries| && entries[i] == e;
    }
  }

  /** One straight link, followed by component, arrives where its text says. */
  lemma OneLinkAgrees(entries: seq<Entry>, e: Entry, f: Entry, links: nat, valid: Path -> bool)
    requires Grounded(entries) && e in entries && Hop(entries, e, valid) == Some(f)
    requires Straight(entries, Home(e.path), Split(e.target.value))
    ensures f in entries
    ensures Descend(entries, Home(e.path), Split(e.target.value), links) == Arrive(entries, Split(f.path), f, links)
  {
    var q := HopWalks(entries, e, valid);
    HomeIsDirs(entries, e.path);
    StraightAgrees(entries, Home(e.path), Split(e.target.value), links, q, f);
  }

  /** What the chain of a link comes down to after its first hop. */
  lemma ChainStep(entries: seq<Entry>, e: Entry, f: Entry, hops: nat, valid: Path -> bool)
    requires Reaches(entries, e, hops, valid) && StraightChain(entries, e, hops, valid) && e.kind == Link
    requires Hop(entries, e, valid) == Some(f)
    ensures hops > 0 && Reaches(entries, f, hops - 1, valid) && StraightChain(entries, f, hops - 1, valid)
    ensures Straight(entries, Home(e.path), Split(e.target.value))
    ensures ChainEnd(entries, e, hops, valid) == ChainEnd(entries, f, hops - 1, valid)
    ensures f.kind != Link ==> ChainEnd(entries, f, hops - 1, valid) == f
  {
  }

  /** In an accepted tree, a link whose chain goes straight leads, component by component, to the
      very entry its lexical chain ends at. */
  lemma {:induction false} StraightLinkAgrees(entries: seq<Entry>, e: Entry, hops: nat, valid: Path -> bool, end: Entry)
    requires Grounded(entries) && e in entries && e.kind == Link && hops > 0
    requires Reaches(entries, e, hops, valid) && StraightChain(entries, e, hops, valid)
    requires end == ChainEnd(entries, e, hops, valid)
    ensures Descend(entries, Home(e.path), Split(e.target.value), hops - 1) == Arrived(Split(end.path))
    decreases hops
  {
    var f := Hop(entries, e, valid).value;
    ChainStep(entries, e, f, hops, valid);
    OneLinkAgrees(entries, e, f, hops - 1, valid);
    if f.kind == Link { StraightLinkAgrees(entries, f, hops - 1, valid, end); }
  }

  /** For every link the verifier accepts. */
  lemma AcceptedLinksAgree(entries: seq<Entry>, path: Path -> bool, target: Path -> bool, i: nat)
    requires Tree(entries, path) && LinksEnd(entries, target) && i < |entries| && entries[i].kind == Link
    requires StraightChain(entries, entries[i], MAX_HOPS, target)
    ensures Descend(entries, Home(entries[i].path), Split(entries[i].target.value), MAX_HOPS - 1) ==
      Arrived(Split(ChainEnd(entries, entries[i], MAX_HOPS, target).path))
  {
    TreeIsGrounded(entries, path);
    StraightLinkAgrees(entries, entries[i], MAX_HOPS, target, ChainEnd(entries, entries[i], MAX_HOPS, target));
  }

  // ---------------------------------------------------------------- below the root

  predicate NoUps(components: seq<Path>) { forall k :: 0 <= k < |components| ==> components[k] != DOTDOT }

  /** Whatever steps up there are come before the first name. */
  predicate UpsFirst(components: seq<Path>) {
    if components == [] then true
    else if components[0] == DOT || components[0] == DOTDOT then UpsFirst(components[1..])
    else NoUps(components[1..])
  }

  /** At most `depth` of them. */
  predicate Within(components: seq<Path>, depth: nat) {
    if components == [] then true
    else if components[0] == DOT then Within(components[1..], depth)
    else if components[0] == DOTDOT then depth > 0 && Within(components[1..], depth - 1)
    else NoUps(components[1..])
  }

  lemma {:induction false} NoUpsWithin(components: seq<Path>, depth: nat)
    requires NoUps(components)
    ensures Within(components, depth)
  {
    if components != [] { NoUpsWithin(components[1..], depth); }
  }

  lemma {:induction false} WithinConcat(components: seq<Path>, rest: seq<Path>, depth: nat)
    requires Within(components, depth) && NoUps(rest)
    ensures Within(components + rest, depth)
  {
    if components == [] {
      assert components + rest == rest;
      NoUpsWithin(rest, depth);
    } else {
      var all, c := components + rest, components[0];
      assert all[1..] == components[1..] + rest;
      if c == DOT {
        WithinConcat(components[1..], rest, depth);
      } else if c == DOTDOT {
        WithinConcat(components[1..], rest, depth - 1);
      }
    }
  }

  /** Where the text stays below the root and goes up first, it goes up no further than it is deep. */
  lemma {:induction false} WalkIsWithin(parts: seq<Path>, components: seq<Path>)
    requires UpsFirst(components) && Walk(parts, components).Some?
    ensures Within(components, |parts|)
    decreases |components|
  {
    if components != [] {
      var c, rest := components[0], components[1..];
      if c == DOT {
        WalkIsWithin(parts, rest);
      } else if c == DOTDOT {
        WalkIsWithin(parts[..|parts| - 1], rest);
      }
    }
  }

  /** Every link, from where it lies. */
  ghost predicate AllWithin(entries: seq<Entry>) {
    forall e :: e in entries && e.kind == Link && e.target.Some? ==> LinkWithin(e)
  }

  predicate LinkWithin(e: Entry)
    requires e.target.Some?
  {
    Within(Split(e.target.value), |Home(e.path)|)
  }

  /** The link met under a name lies in the directory reached. */
  lemma MetLinkWithin(entries: seq<Entry>, parts: seq<Path>, c: Path, e: Entry)
    requires AllWithin(entries) && AllPlain(parts) && Plain(c)
    requires Lookup(entries, Join(parts + [c])) == Some(e) && e.kind == Link && e.target.Some?
    ensures Within(Split(e.target.value), |parts|)
  {
    LookupFinds(entries, Join(parts + [c]));
    SplitJoin(parts + [c]);
    assert LinkWithin(e);
  }

  /** If no link goes up further than it is deep, or after a name, following never leaves the root. */
  lemma {:induction false} DescendStaysInside(entries: seq<Entry>, parts: seq<Path>, components: seq<Path>, links: nat)
    requires AllWithin(entries) && AllPlain(parts) && AllPlain(components) && Within(components, |parts|)
    ensures Descend(entries, parts, components, links) != Outside
    decreases links, |components|
  {
    if components != [] {
      var c, rest := components[0], components[1..];
      if c == DOT {
        DescendStaysInside(entries, parts, rest, links);
      } else if c == DOTDOT {
        DescendStaysInside(entries, parts[..|parts| - 1], rest, links);
      } else {
        var e := Lookup(entries, Join(parts + [c]));
        if e.Some? && e.value.kind == Directory {
          NoUpsWithin(rest, |parts| + 1);
          DescendStaysInside(entries, parts + [c], rest, links);
        } else if e.Some? && e.value.kind == Link && e.value.target.Some? && links > 0 {
          MetLinkWithin(entries, parts, c, e.value);
          WithinConcat(Split(e.value.target.value), rest, |parts|);
          SplitIsPlain(e.value.target.value);
          DescendStaysInside(entries, parts, Split(e.value.target.value) + rest, links - 1);
        }
      }
    }
  }

  ghost predicate AllUpsFirst(entries: seq<Entry>) {
    forall e :: e in entries && e.kind == Link && e.target.Some? ==> UpsFirst(Split(e.target.value))
  }

  lemma AcceptedAllWithin(entries: seq<Entry>, target: Path -> bool)
    requires LinksEnd(entries, target) && AllUpsFirst(entries)
    ensures AllWithin(entries)
  {
    forall e | e in entries && e.kind == Link && e.target.Some?
      ensures LinkWithin(e)
    {
      var i :| 0 <= i < |entries| && entries[i] == e;
      assert Reaches(entries, entries[i], MAX_HOPS, target);
      var q := HopWalks(entries, e, target);
      WalkIsWithin(Home(e.path), Split(e.target.value));
    }
  }

  /** In an accepted tree whose links all go up before they go down, no link leads out of the tree,
      through however many others it is followed. */
  lemma AcceptedLinksStayInside(entries: seq<Entry>, target: Path -> bool, i: nat, links: nat)
    requires LinksEnd(entries, target) && AllUpsFirst(entries)
    requires i < |entries| && entries[i].kind == Link && entries[i].target.Some?
    ensures Descend(entries, Home(entries[i].path), Split(entries[i].target.value), links) != Outside
  {
    var e := entries[i];
    AcceptedAllWithin(entries, target);
    assert LinkWithin(e);
    SplitIsPlain(e.path);
    SplitIsPlain(e.target.value);
    DescendStaysInside(entries, Home(e.path), Split(e.target.value), links);
  }

  // ---------------------------------------------------------------- where they part

  const NAME_A: Path := [0x61]
  const NAME_B: Path := [0x62]
  const NAME_C: Path := [0x63]
  const NAME_L: Path := [0x6c]
  const NAME_M: Path := [0x6d]
  const NAME_X: Path := [0x78]

  /** Two directories with a link from one into the other, and a link that goes through it and back. */
  function Crossed(): seq<Entry> {
    [Entry(NAME_A, Directory, None),
     Entry(NAME_A + [SLASH] + NAME_L, Link, Some(DOTDOT + [SLASH] + NAME_B + [SLASH] + NAME_C)),
     Entry(NAME_A + [SLASH] + NAME_M, Link, Some(NAME_L + [SLASH] + DOTDOT + [SLASH] + NAME_X)),
     Entry(NAME_A + [SLASH] + NAME_X, Regular, None),
     Entry(NAME_B, Directory, None),
     Entry(NAME_B + [SLASH] + NAME_C, Directory, None)]
  }

  lemma SplitTwo(x: Path, y: Path)
    requires Plain(x) && Plain(y)
    ensures Split(x + [SLASH] + y) == [x, y]
  {
    SplitFirst(x, y);
    SplitFirst(y, []);
  }

  lemma SplitThree(x: Path, y: Path, z: Path)
    requires Plain(x) && Plain(y) && Plain(z)
    ensures Split(x + [SLASH] + y + [SLASH] + z) == [x, y, z]
  {
    SplitTwo(y, z);
    SplitFirst(x, y + [SLASH] + z);
    assert x + [SLASH] + y + [SLASH] + z == x + [SLASH] + (y + [SLASH] + z);
  }

  lemma CrossedSplits()
    ensures Split(NAME_A + [SLASH] + NAME_M) == [NAME_A, NAME_M]
    ensures Split(NAME_A + [SLASH] + NAME_L) == [NAME_A, NAME_L]
    ensures Split(DOTDOT + [SLASH] + NAME_B + [SLASH] + NAME_C) == [DOTDOT, NAME_B, NAME_C]
    ensures Split(NAME_L + [SLASH] + DOTDOT + [SLASH] + NAME_X) == [NAME_L, DOTDOT, NAME_X]
  {
    SplitTwo(NAME_A, NAME_M);
    SplitTwo(NAME_A, NAME_L);
    SplitThree(DOTDOT, NAME_B, NAME_C);
    SplitThree(NAME_L, DOTDOT, NAME_X);
  }

  /** Paths that share a first component are ordered by what follows it. */
  lemma SameFirst(x: byte, p: Path, q: Path)
    requires Before(p, q)
    ensures Before([x] + p, [x] + q)
  {
    assert ([x] + p)[1..] == p && ([x] + q)[1..] == q;
  }

  lemma SiblingsBefore(a: byte, x: byte, y: byte)
    requires x < y
    ensures Before([a] + [SLASH] + [x], [a] + [SLASH] + [y]) && Before([a], [a] + [SLASH] + [x])
  {
    SameFirst(SLASH, [x], [y]);
    SameFirst(a, [SLASH] + [x], [SLASH] + [y]);
    assert [a] + [SLASH] + [x] == [a] + ([SLASH] + [x]) && [a] + [SLASH] + [y] == [a] + ([SLASH] + [y]);
    assert ([a] + [SLASH] + [x])[..1] == [a];
    PrefixBefore([a] + [SLASH] + [x], 1);
  }

  lemma {:induction false} RisingIsSorted(entries: seq<Entry>, i: nat, j: nat)
    requires i < j < |entries| && forall k :: 0 <= k < |entries| - 1 ==> Rises(entries, k)
    ensures Before(entries[i].path, entries[j].path)
  {
    assert Rises(entries, j - 1);
    if i < j - 1 {
      RisingIsSorted(entries, i, j - 1);
      CborLemmas.LexicalOrder(entries[i].path, entries[j - 1].path, entries[j].path);
    }
  }

  ghost predicate Rises(entries: seq<Entry>, k: nat) {
    k + 1 < |entries| && Before(entries[k].path, entries[k + 1].path)
  }

  lemma CrossedRises()
    ensures Sorted(Crossed())
  {
    var es := Crossed();
    SiblingsBefore(0x61, 0x6c, 0x6d);
    SiblingsBefore(0x61, 0x6d, 0x78);
    SiblingsBefore(0x62, 0x63, 0x64);
    assert Rises(es, 0) && Rises(es, 1) && Rises(es, 2) && Rises(es, 3) && Rises(es, 4);
    forall i, j | 0 <= i < j < |es|
      ensures Before(es[i].path, es[j].path)
    {
      RisingIsSorted(es, i, j);
    }
  }

  lemma CrossedIsTree()
    ensures Sorted(Crossed()) && forall i :: 0 <= i < 6 ==> Rooted(Crossed(), Crossed()[i].path)
  {
    var es := Crossed();
    CrossedRises();
    assert Declared(es, NAME_A) by { assert es[0].path == NAME_A; }
    assert Declared(es, NAME_B) by { assert es[4].path == NAME_B; }
    forall i | 0 <= i < 6
      ensures Rooted(es, es[i].path)
    {
      forall k | 0 <= k < |es[i].path| && es[i].path[k] == SLASH
        ensures Declared(es, es[i].path[..k])
      {
        assert k == 1;
        assert es[i].path[..1] == NAME_A || es[i].path[..1] == NAME_B;
      }
    }
  }

  lemma FoldsToItself(p: Path)
    requires forall k :: 0 <= k < |p| ==> p[k] == SLASH || 0x61 <= p[k]
    ensures Folded(p) == p
  {
  }

  lemma CrossedAccepted(any: Path -> bool)
    requires forall p :: any(p)
    ensures Tree(Crossed(), any)
  {
    var es := Crossed();
    CrossedIsTree();
    forall i, j | 0 <= i < j < |es|
      ensures Folded(es[i].path) != Folded(es[j].path)
    {
      FoldsToItself(es[i].path);
      FoldsToItself(es[j].path);
      NotBoth(es[i].path, es[j].path);
    }
  }

  /** The stacks the witness goes through, as paths. */
  lemma CrossedJoins()
    ensures Join([NAME_B, NAME_C]) == NAME_B + [SLASH] + NAME_C && Join([NAME_A, NAME_X]) == NAME_A + [SLASH] + NAME_X
    ensures Join([NAME_A, NAME_L]) == NAME_A + [SLASH] + NAME_L && Join([NAME_B, NAME_X]) == NAME_B + [SLASH] + NAME_X
    ensures Join([NAME_B]) == NAME_B
  {
  }

  lemma WalkInto(parts: seq<Path>, c: Path, components: seq<Path>, rest: seq<Path>)
    requires c != DOT && c != DOTDOT && components == [c] + rest
    ensures Walk(parts, components) == Walk(parts + [c], rest)
  {
    assert components[1..] == rest;
  }

  lemma WalkUp(parts: seq<Path>, components: seq<Path>, rest: seq<Path>)
    requires parts != [] && components == [DOTDOT] + rest
    ensures Walk(parts, components) == Walk(parts[..|parts| - 1], rest)
  {
    assert components[1..] == rest && components[0] == DOTDOT;
  }

  lemma WalkAcross(m: Path, n: Path, x: Path, none: seq<Path>)
    requires n != DOT && n != DOTDOT && x != DOT && x != DOTDOT && |none| == 0
    ensures Walk([m], [DOTDOT, n, x]) == Some([n, x])
  {
    WalkUp([m], [DOTDOT, n, x], [n, x]);
    assert [m][..0] == none;
    WalkInto(none, n, [n, x], [x]);
    assert none + [n] == [n];
    WalkInto([n], x, [x], none);
    assert [n] + [x] == [n, x];
  }

  lemma WalkBack(m: Path, n: Path, x: Path, none: seq<Path>)
    requires n != DOT && n != DOTDOT && x != DOT && x != DOTDOT && |none| == 0
    ensures Walk([m], [n, DOTDOT, x]) == Some([m, x])
  {
    WalkInto([m], n, [n, DOTDOT, x], [DOTDOT, x]);
    assert [m] + [n] == [m, n];
    WalkUp([m, n], [DOTDOT, x], [x]);
    assert [m, n][..1] == [m];
    WalkInto([m], x, [x], none);
    assert [m] + [x] == [m, x];
  }

  /** A link whose walk is known hops to the entry there. */
  lemma Hops(es: seq<Entry>, e: Entry, d: nat, q: seq<Path>, any: Path -> bool)
    requires DistinctPaths(es) && d < |es| && e.target.Some? && any(e.target.value) && q != []
    requires Walk(Home(e.path), Split(e.target.value)) == Some(q) && Join(q) == es[d].path && es[d].kind != Link
    ensures Reaches(es, e, MAX_HOPS, any)
  {
    LookupThere(es, d);
    assert Hop(es, e, any) == Some(es[d]);
    assert Reaches(es, es[d], MAX_HOPS - 1, any);
  }

  lemma FirstLinkEnds(es: seq<Entry>, e: Entry, any: Path -> bool)
    requires es == Crossed() && DistinctPaths(es) && e == es[1] && any(e.target.value)
    ensures Reaches(es, e, MAX_HOPS, any)
  {
    var none: seq<Path> := [];
    CrossedSplits();
    CrossedJoins();
    WalkAcross(NAME_A, NAME_B, NAME_C, none);
    assert Home(e.path) == [NAME_A];
    Hops(es, e, 5, [NAME_B, NAME_C], any);
  }

  lemma SecondLinkEnds(es: seq<Entry>, e: Entry, any: Path -> bool)
    requires es == Crossed() && DistinctPaths(es) && e == es[2] && any(e.target.value)
    ensures Reaches(es, e, MAX_HOPS, any)
  {
    var none: seq<Path> := [];
    CrossedSplits();
    CrossedJoins();
    WalkBack(NAME_A, NAME_L, NAME_X, none);
    assert Home(e.path) == [NAME_A];
    Hops(es, e, 3, [NAME_A, NAME_X], any);
  }

  lemma CrossedLinksEnd(any: Path -> bool)
    requires DistinctPaths(Crossed()) && forall p :: any(p)
    ensures LinksEnd(Crossed(), any)
  {
    var es := Crossed();
    forall i | 0 <= i < |es| && es[i].kind == Link
      ensures Reaches(es, es[i], MAX_HOPS, any)
    {
      assert i == 1 || i == 2;
      if i == 1 { FirstLinkEnds(es, es[i], any); } else { SecondLinkEnds(es, es[i], any); }
    }
  }

  // Descend, one component at a time.

  lemma StepLink(es: seq<Entry>, parts: seq<Path>, c: Path, d: nat, rest: seq<Path>, components: seq<Path>, links: nat)
    requires DistinctPaths(es) && d < |es| && es[d].path == Join(parts + [c]) && es[d].kind == Link
    requires es[d].target.Some?
    requires c != DOT && c != DOTDOT && components == [c] + rest && links > 0
    ensures Descend(es, parts, components, links) == Descend(es, parts, Split(es[d].target.value) + rest, links - 1)
  {
    LookupThere(es, d);
    assert components[1..] == rest;
  }

  lemma StepDown(es: seq<Entry>, parts: seq<Path>, c: Path, d: nat, rest: seq<Path>, components: seq<Path>, links: nat)
    requires DistinctPaths(es) && d < |es| && es[d].path == Join(parts + [c]) && es[d].kind == Directory
    requires c != DOT && c != DOTDOT && components == [c] + rest
    ensures Descend(es, parts, components, links) == Descend(es, parts + [c], rest, links)
  {
    LookupThere(es, d);
    assert components[1..] == rest;
  }

  lemma StepUp(es: seq<Entry>, parts: seq<Path>, rest: seq<Path>, components: seq<Path>, links: nat)
    requires parts != [] && components == [DOTDOT] + rest
    ensures Descend(es, parts, components, links) == Descend(es, parts[..|parts| - 1], rest, links)
  {
    assert components[1..] == rest;
  }

  lemma StepNowhere(es: seq<Entry>, parts: seq<Path>, c: Path, components: seq<Path>, links: nat)
    requires c != DOT && c != DOTDOT && components != [] && components[0] == c
    requires forall i :: 0 <= i < |es| ==> es[i].path != Join(parts + [c])
    ensures Descend(es, parts, components, links) == Missing
  {
    LookupFinds(es, Join(parts + [c]));
  }

  /** From `b/c`, up and to a name that is not there. */
  lemma CrossedEndsNowhere(es: seq<Entry>, none: seq<Path>, links: nat)
    requires es == Crossed() && DistinctPaths(es) && |none| == 0
    ensures Descend(es, [NAME_A], [DOTDOT, NAME_B, NAME_C] + [DOTDOT, NAME_X], links) == Missing
  {
    CrossedJoins();
    var all := [DOTDOT, NAME_B, NAME_C] + [DOTDOT, NAME_X];
    StepUp(es, [NAME_A], all[1..], all, links);
    assert [NAME_A][..0] == none && all[1..] == [NAME_B] + all[2..] && none + [NAME_B] == [NAME_B];
    StepDown(es, none, NAME_B, 4, all[2..], all[1..], links);
    assert all[2..] == [NAME_C] + all[3..] && [NAME_B] + [NAME_C] == [NAME_B, NAME_C];
    StepDown(es, [NAME_B], NAME_C, 5, all[3..], all[2..], links);
    assert all[3..] == [DOTDOT] + all[4..] && [NAME_B, NAME_C][..1] == [NAME_B];
    StepUp(es, [NAME_B, NAME_C], all[4..], all[3..], links);
    assert [NAME_B] + [NAME_X] == [NAME_B, NAME_X];
    forall i | 0 <= i < |es|
      ensures es[i].path != NAME_B + [SLASH] + NAME_X
    {
      assert es[i].path[0] == 0x61 || |es[i].path| == 1 || es[i].path[2] == 0x63;
    }
    StepNowhere(es, [NAME_B], NAME_X, all[4..], links);
  }

  lemma SecondLinkLost(es: seq<Entry>, e: Entry, links: nat)
    requires es == Crossed() && DistinctPaths(es) && e == es[2]
    ensures e.kind == Link
    ensures Descend(es, Home(e.path), Split(e.target.value), links) == if links == 0 then TooManyLinks else Missing
  {
    var none: seq<Path> := [];
    CrossedSplits();
    CrossedJoins();
    assert Home(e.path) == [NAME_A] && [NAME_A] + [NAME_L] == [NAME_A, NAME_L];
    var way := [NAME_L, DOTDOT, NAME_X];
    if links == 0 {
      LookupThere(es, 1);
    } else {
      assert way == [NAME_L] + [DOTDOT, NAME_X];
      StepLink(es, [NAME_A], NAME_L, 1, [DOTDOT, NAME_X], way, links);
      CrossedEndsNowhere(es, none, links - 1);
    }
  }

  /** Off the straight way the two can part: this tree is accepted, the lexical chain of its second
      link ends at a file, and followed by component the link leads to a name that is not there. */
  lemma WaysPart(any: Path -> bool, links: nat)
    requires forall p :: any(p)
    ensures Tree(Crossed(), any) && LinksEnd(Crossed(), any)
    ensures var e := Crossed()[2];
      && e.kind == Link
      && Descend(Crossed(), Home(e.path), Split(e.target.value), links) == if links == 0 then TooManyLinks else Missing
  {
    CrossedAccepted(any);
    SortedDistinct(Crossed());
    CrossedLinksEnd(any);
    SecondLinkLost(Crossed(), Crossed()[2], links);
  }
}
