/** Symbolic links of a bundle: each must lead to a real entry of the tree in few hops. */
module TreeLinks {
  import opened Results
  import opened Wire
  import opened TreePaths

  const MAX_HOPS: nat := 16

  /** The entry under a path; a later one replaces an earlier one. */
  function Lookup(entries: seq<Entry>, p: Path): Option<Entry> {
    if entries == [] then None
    else if entries[|entries| - 1].path == p then Some(entries[|entries| - 1])
    else Lookup(entries[..|entries| - 1], p)
  }

  /** One hop of a link, when its target is well-formed, stays below the root and exists. */
  function Hop(entries: seq<Entry>, e: Entry, valid: Path -> bool): Option<Entry> {
    if e.target.None? || !valid(e.target.value) then None
    else
      var p := Resolve(e.path, e.target.value);
      if p.None? then None else Lookup(entries, p.value)
  }

  /** Something other than a link is reached in at most `hops` hops. */
  predicate Reaches(entries: seq<Entry>, e: Entry, hops: nat, valid: Path -> bool)
    decreases hops
  {
    e.kind != Link || (hops > 0 && Hop(entries, e, valid).Some? && Reaches(entries, Hop(entries, e, valid).value,
      hops - 1, valid))
  }

  ghost predicate LinksEnd(entries: seq<Entry>, valid: Path -> bool) {
    forall i :: 0 <= i < |entries| && entries[i].kind == Link ==> Reaches(entries, entries[i], MAX_HOPS, valid)
  }

  ghost predicate DistinctPaths(entries: seq<Entry>) {
    forall i, j :: 0 <= i < j < |entries| ==> entries[i].path != entries[j].path
  }

  lemma SortedDistinct(entries: seq<Entry>)
    requires Sorted(entries)
    ensures DistinctPaths(entries)
  {
    forall i, j | 0 <= i < j < |entries|
      ensures entries[i].path != entries[j].path
    {
      NotBoth(entries[i].path, entries[j].path);
    }
  }

  lemma {:induction false} LookupFinds(entries: seq<Entry>, p: Path)
    ensures Lookup(entries, p).Some? ==> Lookup(entries, p).value in entries && Lookup(entries, p).value.path == p
  {
    if entries != [] && entries[|entries| - 1].path != p { LookupFinds(entries[..|entries| - 1], p); }
  }

  /** In a tree, entries with the same path are the same entry. */
  lemma SamePath(entries: seq<Entry>, e: Entry, f: Entry)
    requires DistinctPaths(entries) && e in entries && f in entries && e.path == f.path
    ensures e == f
  {
    var i :| 0 <= i < |entries| && entries[i] == e;
    var j :| 0 <= j < |entries| && entries[j] == f;
    assert i < j || i == j || j < i;
  }

  // ---------------------------------------------------------------- chains

  /** The links followed so far, from the first to the current entry. */
  ghost predicate Trail(entries: seq<Entry>, trail: seq<Entry>, valid: Path -> bool) {
    && trail != [] && trail[0] in entries
    && forall i, k :: 0 <= i < |trail| - 1 && k == i + 1 ==> Leads(entries, trail[i], trail[k], valid)
  }

  /** A link and the entry it leads to. */
  predicate Leads(entries: seq<Entry>, e: Entry, f: Entry, valid: Path -> bool) {
    e.kind == Link && Hop(entries, e, valid) == Some(f) && f in entries
  }

  lemma {:induction false} TrailReaches(entries: seq<Entry>, trail: seq<Entry>, hops: nat, valid: Path -> bool, n: nat)
    requires Trail(entries, trail, valid) && n < |trail| && n <= hops
    ensures Reaches(entries, trail[0], hops, valid) <==> Reaches(entries, trail[n], hops - n, valid)
  {
    if n > 0 {
      TrailReaches(entries, trail, hops, valid, n - 1);
      assert Leads(entries, trail[n - 1], trail[n], valid);
    }
  }

  /** A chain that comes back to where it was never leaves the links. */
  lemma {:induction false} LoopNeverReaches(entries: seq<Entry>, trail: seq<Entry>,
                                            valid: Path -> bool, m: nat, j: nat, hops: nat)
    requires Trail(entries, trail, valid) && m <= j < |trail| - 1 && trail[|trail| - 1] == trail[m]
    ensures !Reaches(entries, trail[j], hops, valid)
    decreases hops
  {
    var next := j + 1;
    assert Leads(entries, trail[j], trail[next], valid);
    if hops > 0 {
      if next == |trail| - 1 {
        LoopNeverReaches(entries, trail, valid, m, m, hops - 1);
      } else {
        LoopNeverReaches(entries, trail, valid, m, next, hops - 1);
      }
    }
  }

  /** Paths of all but the last entry of the trail. */
  ghost predicate Seen(trail: seq<Entry>, seen: set<Path>) {
    trail != [] && forall p :: p in seen <==> Passed(trail, p)
  }

  ghost predicate Passed(trail: seq<Entry>, p: Path) { exists i :: 0 <= i < |trail| - 1 && trail[i].path == p }

  lemma RevisitFails(entries: seq<Entry>, trail: seq<Entry>, seen: set<Path>, valid: Path -> bool, hops: nat)
    requires Trail(entries, trail, valid) && Seen(trail, seen) && DistinctPaths(entries)
    requires trail[|trail| - 1].path in seen
    ensures !Reaches(entries, trail[|trail| - 1], hops, valid)
  {
    assert Passed(trail, trail[|trail| - 1].path);
    var m :| 0 <= m < |trail| - 1 && trail[m].path == trail[|trail| - 1].path;
    InTree(entries, trail, valid, m);
    InTree(entries, trail, valid, |trail| - 1);
    SamePath(entries, trail[m], trail[|trail| - 1]);
    LoopNeverReaches(entries, trail, valid, m, m, hops);
  }

  lemma InTree(entries: seq<Entry>, trail: seq<Entry>, valid: Path -> bool, i: nat)
    requires Trail(entries, trail, valid) && i < |trail|
    ensures trail[i] in entries
  {
    if i > 0 {
      var j := i - 1;
      assert Leads(entries, trail[j], trail[i], valid);
    }
  }

  lemma ExtendTrail(entries: seq<Entry>, trail: seq<Entry>, next: Entry, seen: set<Path>, valid: Path -> bool)
    requires Trail(entries, trail, valid) && Seen(trail, seen)
    requires trail[|trail| - 1].kind == Link && Hop(entries, trail[|trail| - 1], valid) == Some(next)
    ensures Trail(entries, trail + [next], valid) && Seen(trail + [next], seen + {trail[|trail| - 1].path})
  {
    var e := trail[|trail| - 1];
    LookupFinds(entries, Resolve(e.path, e.target.value).value);
    var more := trail + [next];
    assert Leads(entries, e, next, valid);
    forall i, k | 0 <= i < |more| - 1 && k == i + 1
      ensures Leads(entries, more[i], more[k], valid)
    {
      if k < |trail| { assert Leads(entries, trail[i], trail[k], valid); }
    }
    SeenNext(trail, next, seen);
  }

  lemma SeenNext(trail: seq<Entry>, next: Entry, seen: set<Path>)
    requires Seen(trail, seen)
    ensures Seen(trail + [next], seen + {trail[|trail| - 1].path})
  {
    var more := trail + [next];
    forall p
      ensures p in seen + {trail[|trail| - 1].path} <==> Passed(more, p)
    {
      if p in seen {
        assert Passed(trail, p);
        var i :| 0 <= i < |trail| - 1 && trail[i].path == p;
        assert more[i].path == p;
      }
      if p == trail[|trail| - 1].path { assert more[|trail| - 1].path == p; }
    }
  }

  // ---------------------------------------------------------------- the check

  /** Pops and pushes one component at a time. */
  method ResolveTarget(link: Path, target: Path) returns (r: Option<Path>)
    ensures r == Resolve(link, target)
  {
    var parts := Split(link);
    parts := parts[..|parts| - 1];
    var components := Split(target);
    ghost var start := parts;
    var i := 0;
    while i < |components|
      invariant i <= |components| && Walk(start, components) == Walk(parts, components[i..])
    {
      var component := components[i];
      assert components[i..][0] == component && components[i..][1..] == components[i + 1..];
      if component == DOT {
      } else if component == DOTDOT {
        if parts == [] { return None; }
        parts := parts[..|parts| - 1];
      } else {
        parts := parts + [component];
      }
      i := i + 1;
    }
    if parts == [] { return None; }
    r := Some(Join(parts));
  }

  /** Follows one link, remembering where it has been. */
  method FollowLink(entries: seq<Entry>, entry: Entry, valid: Path -> bool) returns (r: Result<(), ErrorCode>)
    requires DistinctPaths(entries) && entry in entries
    ensures r.Ok? <==> Reaches(entries, entry, MAX_HOPS, valid)
  {
    var current, seen, hops := entry, {}, 0;
    ghost var trail := [entry];
    while current.kind == Link
      invariant hops <= MAX_HOPS && |trail| == hops + 1 && trail[0] == entry && trail[hops] == current
      invariant Trail(entries, trail, valid) && Seen(trail, seen)
      decreases MAX_HOPS - hops
    {
      TrailReaches(entries, trail, MAX_HOPS, valid, hops);
      if current.path in seen {
        RevisitFails(entries, trail, seen, valid, MAX_HOPS - hops);
        return Err(BadPath);
      }
      if hops + 1 > MAX_HOPS { return Err(BadPath); }
      if current.target.None? { return Err(BadTree); }
      if !valid(current.target.value) { return Err(BadPath); }
      var resolved := ResolveTarget(current.path, current.target.value);
      if resolved.None? { return Err(BadPath); }
      var next := Lookup(entries, resolved.value);
      if next.None? { return Err(BadPath); }
      ExtendTrail(entries, trail, next.value, seen, valid);
      trail := trail + [next.value];
      seen := seen + {current.path};
      current := next.value;
      hops := hops + 1;
    }
    TrailReaches(entries, trail, MAX_HOPS, valid, hops);
    r := Ok(());
  }

  /** Succeeds exactly when every link's lexical chain stays below the root, inside the tree, and
      reaches something other than a link within sixteen hops. */
  method ValidateSymlinks(entries: seq<Entry>, valid: Path -> bool) returns (r: Result<(), ErrorCode>)
    requires DistinctPaths(entries)
    ensures r.Ok? <==> LinksEnd(entries, valid)
  {
    var i := 0;
    while i < |entries|
      invariant i <= |entries|
      invariant forall k :: 0 <= k < i && entries[k].kind == Link ==> Reaches(entries, entries[k], MAX_HOPS, valid)
    {
      if entries[i].kind == Link {
        var followed := FollowLink(entries, entries[i], valid);
        if followed.Err? { return followed; }
      }
      i := i + 1;
    }
    r := Ok(());
  }

  /** The two checks of a tree in the verifier's order, the first giving the second what it needs. */
  method ValidateTree(entries: seq<Entry>, path: Path -> bool, target: Path -> bool) returns (r: Result<(), ErrorCode>)
    ensures r.Ok? <==> Tree(entries, path) && LinksEnd(entries, target)
  {
    r := ValidateTreePaths(entries, path);
    if r.Ok? {
      SortedDistinct(entries);
      r := ValidateSymlinks(entries, target);
    }
  }
}
