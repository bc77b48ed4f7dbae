/** A resumable upload: staging file, running hash, metadata, and the replacement of the target.
    Every operation is the list of disks it leaves behind, one per write, so that a kill can cut
    it anywhere. */
module SyncPush {
  import opened Results
  import opened Wire

  type Id = nat
  type Name = seq<byte>
  type Digest = seq<byte>
  /** The content hash; any function will do. */
  type Hash = seq<byte> -> Digest

  const U64_MAX: nat := 0xffff_ffff_ffff_ffff
  const CHECKPOINT_INTERVAL: nat := 256 * 1024 * 1024

  type u64 = x: int | 0 <= x < 0x1_0000_0000_0000_0000

  function Min(a: nat, b: nat): nat { if a <= b then a else b }

  datatype Fault = TransferNotFound | MetadataMismatch | InvalidState | SizeOverflow | ChecksumMismatch | Io

  datatype Meta = Meta(path: Name, total: u64, digest: Digest, next: nat, complete: bool) {
    predicate Declares(path: Name, total: u64, digest: Digest) {
      this.path == path && this.total == total && this.digest == digest
    }
  }

  /** Staging files and metadata by transfer, and the files that are visible to others. */
  datatype Store = Store(parts: map<Id, seq<byte>>, metas: map<Id, Meta>, targets: map<Name, seq<byte>>) {
    function WithMeta(id: Id, meta: Meta): Store { this.(metas := metas[id := meta]) }
    function WithPart(id: Id, part: seq<byte>): Store { this.(parts := parts[id := part]) }

    /** The staging file takes the place of the target. */
    function Renamed(id: Id, path: Name): Store {
      if id in parts then this.(targets := targets[path := parts[id]], parts := parts - {id}) else this
    }
  }

  /** An open transfer. `hashed` is what its hasher has been fed; a completed one has no file. */
  datatype Push = Push(id: Id, meta: Meta, open: bool, hashed: seq<byte>, nextCheckpoint: nat)

  datatype World = World(store: Store, push: Option<Push>)

  /** The disk after each write, and the answer. */
  datatype Outcome<T> = Outcome(writes: seq<Store>, result: Result<T, Fault>)

  /** The disk once `k` of the writes have been made. */
  function After(s: Store, writes: seq<Store>, k: nat): Store {
    if k == 0 || writes == [] then s else if k <= |writes| then writes[k - 1] else writes[|writes| - 1]
  }

  function Last(s: Store, writes: seq<Store>): Store { After(s, writes, |writes|) }

  // ---------------------------------------------------------------- operations

  /** Opens the staging file of a transfer that is not complete, where it ends. */
  function Reopen(s: Store, id: Id, meta: Meta): Outcome<Push> {
    if id !in s.parts then Outcome([], Err(Io))
    else if |s.parts[id]| > meta.total then Outcome([], Err(InvalidState))
    else
      var offset := |s.parts[id]|;
      var meta' := meta.(next := offset);
      var checkpoint := Min(Min(offset + CHECKPOINT_INTERVAL, U64_MAX), meta.total);
      Outcome([s.WithMeta(id, meta')], Ok(Push(id, meta', true, s.parts[id], checkpoint)))
  }

  /** Starts a transfer under a new id, or picks one up where its staging file ends. */
  function Begin(s: Store, resume: Option<Id>, unused: Id, path: Name, total: u64, digest: Digest): Outcome<Push> {
    if resume.Some? then
      var id := resume.value;
      if id !in s.metas then Outcome([], Err(TransferNotFound))
      else if !s.metas[id].Declares(path, total, digest) then Outcome([], Err(MetadataMismatch))
      else if s.metas[id].complete then Outcome([], Ok(Push(id, s.metas[id], false, [], U64_MAX)))
      else Reopen(s, id, s.metas[id])
    else
      var meta := Meta(path, total, digest, 0, false);
      var created := s.WithPart(unused, []);
      var recorded := created.WithMeta(unused, meta);
      var ready := Reopen(recorded, unused, meta);
      Outcome([created, recorded] + ready.writes, ready.result)
  }

  /** The staging file after each further byte. */
  function Grown(s: Store, id: Id, data: seq<byte>): (writes: seq<Store>)
    requires id in s.parts
    ensures |writes| == |data|
  {
    seq(|data|, i requires 0 <= i < |data| => s.WithPart(id, s.parts[id] + data[..i + 1]))
  }

  function WriteChunk(s: Store, p: Push, data: seq<byte>): Outcome<Push> {
    var end := p.meta.next + |data|;
    if end > U64_MAX then Outcome([], Err(SizeOverflow))
    else if end > p.meta.total || !p.open then Outcome([], Err(InvalidState))
    else if p.id !in s.parts then Outcome([], Err(Io))
    else
      var written := Grown(s, p.id, data);
      var q := p.(meta := p.meta.(next := end), hashed := p.hashed + data);
      if end >= p.nextCheckpoint && end < p.meta.total then
        Outcome(written + [Last(s, written).WithMeta(p.id, q.meta)],
                Ok(q.(nextCheckpoint := Min(end + CHECKPOINT_INTERVAL, U64_MAX))))
      else Outcome(written, Ok(q))
  }

  function Checkpoint(s: Store, p: Push): (writes: seq<Store>) { if p.open then [s.WithMeta(p.id, p.meta)] else [] }

  /** A file set to a length: shortening keeps its start, lengthening fills it with zeros. */
  function SetLength(part: seq<byte>, n: nat): (cut: seq<byte>)
    ensures |cut| == n && (n <= |part| ==> cut == part[..n])
  {
    if n <= |part| then part[..n] else part + seq(n - |part|, _ => 0)
  }

  /** The staging file is cut, then the metadata follows. */
  function Cut(s: Store, id: Id, meta: Meta, n: nat): (writes: seq<Store>)
    requires id in s.parts
  {
    var cut := s.WithPart(id, SetLength(s.parts[id], n));
    [cut, cut.WithMeta(id, meta.(next := n))]
  }

  /** Gives up the transfer for now, keeping only what is known to be good. */
  function RollbackForResume(s: Store, p: Push, offset: nat): Outcome<()> {
    if offset > p.meta.next then Outcome([], Err(InvalidState))
    else if !p.open then Outcome([], Err(InvalidState))
    else if p.id !in s.parts then Outcome([], Err(Io))
    else Outcome(Cut(s, p.id, p.meta, offset), Ok(()))
  }

  /** Ends the transfer: the staging file becomes the target only if size and hash are right. The
      rename comes first, the record of it second. */
  function Finish(s: Store, p: Push, hash: Hash): Outcome<()> {
    if p.meta.complete then Outcome([], Ok(()))
    else if p.meta.next != p.meta.total then Outcome(Checkpoint(s, p), Err(InvalidState))
    else if !p.open then Outcome([], Err(InvalidState))
    else if p.id !in s.parts then Outcome([], Err(Io))
    else if hash(p.hashed) != p.meta.digest then Outcome(Cut(s, p.id, p.meta, 0), Err(ChecksumMismatch))
    else
      var renamed := s.Renamed(p.id, p.meta.path);
      Outcome([renamed, renamed.WithMeta(p.id, p.meta.(complete := true))], Ok(()))
  }

  // ---------------------------------------------------------------- runs

  datatype Op =
    | Start(resume: Option<Id>, id: Id, path: Name, total: u64, digest: Digest)
    | Write(data: seq<byte>) | Save | Roll(offset: nat) | End

  /** An operation, one cut off by a kill after `k` of its writes, the loss of the connection and
      its handle, or a loss of power after which the staging files hold anything. */
  datatype Event = Do(op: Op) | Kill(op: Op, k: nat) | Lost | Crash(parts: map<Id, seq<byte>>)

  /** The writes of an operation, and the handle it leaves. */
  function Effect(w: World, op: Op, hash: Hash): (seq<Store>, Option<Push>) {
    match op
    case Start(resume, id, path, total, digest) =>
      var o := Begin(w.store, resume, id, path, total, digest);
      (o.writes, if o.result.Ok? then Some(o.result.value) else None)
    case Write(data) =>
      if w.push.None? then ([], None)
      else
        var o := WriteChunk(w.store, w.push.value, data);
        (o.writes, if o.result.Ok? then Some(o.result.value) else w.push)
    case Save => if w.push.None? then ([], None) else (Checkpoint(w.store, w.push.value), w.push)
    case Roll(offset) =>
      if w.push.None? then ([], None) else (RollbackForResume(w.store, w.push.value, offset).writes, None)
    case End => if w.push.None? then ([], None) else (Finish(w.store, w.push.value, hash).writes, None)
  }

  function Next(w: World, e: Event, hash: Hash): World {
    match e
    case Do(op) => var (writes, push) := Effect(w, op, hash); World(Last(w.store, writes), push)
    case Kill(op, k) => World(After(w.store, Effect(w, op, hash).0, k), None)
    case Lost => w.(push := None)
    case Crash(parts) => World(w.store.(parts := parts), None)
  }

  ghost predicate IsRun(ws: seq<World>, es: seq<Event>, hash: Hash) {
    && |ws| == |es| + 1 && ws[0].push.None?
    && forall i, j :: 0 <= i < |es| && j == i + 1 ==> ws[j] == Next(ws[i], es[i], hash)
  }

  /** The hasher has seen exactly the staging file, which ends at the next offset. */
  ghost predicate Good(w: World) {
    w.push.Some? ==>
      var p := w.push.value;
      if p.open then
        && p.id in w.store.parts && p.hashed == w.store.parts[p.id] && p.meta.next == |p.hashed| <= p.meta.total
        && !p.meta.complete
      else p.meta.complete
  }

  lemma BeginGood(s: Store, resume: Option<Id>, unused: Id, path: Name, total: u64, digest: Digest)
    requires Begin(s, resume, unused, path, total, digest).result.Ok?
    ensures var o := Begin(s, resume, unused, path, total, digest);
      Good(World(Last(s, o.writes), Some(o.result.value))) && o.result.value.meta.Declares(path, total, digest)
  {
  }

  /** All bytes written: the staging file has grown by the data. */
  lemma GrownLast(s: Store, id: Id, data: seq<byte>)
    requires id in s.parts
    ensures Last(s, Grown(s, id, data)) == s.WithPart(id, s.parts[id] + data)
  {
    if data == [] {
      assert s.parts[id] + data == s.parts[id];
    } else {
      assert data[..|data|] == data;
    }
  }

  lemma WriteGood(w: World, data: seq<byte>)
    requires Good(w) && w.push.Some? && WriteChunk(w.store, w.push.value, data).result.Ok?
    ensures var o := WriteChunk(w.store, w.push.value, data); Good(World(Last(w.store, o.writes), Some(o.result.value)))
  {
    GrownLast(w.store, w.push.value.id, data);
  }

  lemma NextGood(w: World, e: Event, hash: Hash)
    requires Good(w)
    ensures Good(Next(w, e, hash))
  {
    if e.Do? && e.op.Start? {
      var o := Begin(w.store, e.op.resume, e.op.id, e.op.path, e.op.total, e.op.digest);
      if o.result.Ok? { BeginGood(w.store, e.op.resume, e.op.id, e.op.path, e.op.total, e.op.digest); }
    }
    if e.Do? && e.op.Write? && w.push.Some? && WriteChunk(w.store, w.push.value, e.op.data).result.Ok? {
      WriteGood(w, e.op.data);
    }
  }

  /** In every state of every run, with kills between any two writes, losses, crashes and
      resumptions, the hasher of the open transfer has been fed exactly the staging file up to the
      next offset. */
  lemma {:induction false} HasherFollowsFile(ws: seq<World>, es: seq<Event>, hash: Hash, n: nat)
    requires IsRun(ws, es, hash) && n < |ws|
    ensures Good(ws[n])
  {
    if n > 0 {
      HasherFollowsFile(ws, es, hash, n - 1);
      NextGood(ws[n - 1], es[n - 1], hash);
    }
  }

  /** The open transfer is whole and has the declared hash: its `End` renames. */
  predicate Finishing(w: World, hash: Hash) {
    && w.push.Some? && w.push.value.open && w.push.value.id in w.store.parts
    && w.push.value.meta.next == w.push.value.meta.total && !w.push.value.meta.complete
    && hash(w.push.value.hashed) == w.push.value.meta.digest
  }

  ghost predicate SameTargets(s: Store, writes: seq<Store>) {
    forall i :: 0 <= i < |writes| ==> writes[i].targets == s.targets
  }

  lemma AfterTargets(s: Store, writes: seq<Store>, k: nat)
    requires SameTargets(s, writes)
    ensures After(s, writes, k).targets == s.targets
  {
  }

  /** Only a rename touches the targets. */
  lemma QuietTargets(w: World, op: Op, hash: Hash)
    requires op != End || !Finishing(w, hash)
    ensures SameTargets(w.store, Effect(w, op, hash).0)
  {
    if op.Write? && w.push.Some? { WriteTargets(w.store, w.push.value, op.data); }
  }

  lemma WriteTargets(s: Store, p: Push, data: seq<byte>)
    ensures SameTargets(s, WriteChunk(s, p, data).writes)
  {
    if p.id in s.parts { GrownLast(s, p.id, data); }
  }

  lemma TargetsKept(w: World, op: Op, hash: Hash, k: nat)
    requires After(w.store, Effect(w, op, hash).0, k).targets != w.store.targets
    ensures op == End && Finishing(w, hash) && k > 0
    ensures var p := w.push.value;
      After(w.store, Effect(w, op, hash).0, k).targets == w.store.targets[p.meta.path := w.store.parts[p.id]]
  {
    if op != End || !Finishing(w, hash) {
      QuietTargets(w, op, hash);
      AfterTargets(w.store, Effect(w, op, hash).0, k);
    }
  }

  /** No write of any operation changes a visible file, cut off or not, but the rename of an `End`
      whose staging file has the declared size and hash; that file then holds the staging bytes, and
      no other changes. */
  lemma TargetsChangeOnlyWhenVerified(ws: seq<World>, es: seq<Event>, hash: Hash, n: nat)
    requires IsRun(ws, es, hash) && n < |es| && ws[n + 1].store.targets != ws[n].store.targets
    ensures es[n] == Do(End) || (es[n].Kill? && es[n].op == End && es[n].k > 0)
    ensures ws[n].push.Some? && ws[n].push.value.id in ws[n].store.parts
    ensures var p := ws[n].push.value;
      var content := ws[n].store.parts[p.id];
      && ws[n + 1].store.targets == ws[n].store.targets[p.meta.path := content]
      && |content| == p.meta.total && hash(content) == p.meta.digest
  {
    HasherFollowsFile(ws, es, hash, n);
    var k := n + 1;
    assert ws[k] == Next(ws[n], es[n], hash);
    if es[n].Do? {
      TargetsKept(ws[n], es[n].op, hash, |Effect(ws[n], es[n].op, hash).0|);
    } else {
      assert es[n].Kill?;
      TargetsKept(ws[n], es[n].op, hash, es[n].k);
    }
  }

  /** What an open transfer will verify is what its last `Start` declared. */
  lemma {:induction false} TransferKeepsDeclaration(ws: seq<World>, es: seq<Event>, hash: Hash, i: nat, n: nat)
    requires IsRun(ws, es, hash) && i < n < |ws| && es[i].Do? && es[i].op.Start? && ws[n].push.Some?
    requires forall k :: i < k < n ==> !(es[k].Do? && es[k].op.Start?)
    ensures ws[n].push.value.meta.Declares(es[i].op.path, es[i].op.total, es[i].op.digest)
  {
    var before := n - 1;
    assert ws[n] == Next(ws[before], es[before], hash);
    if n > i + 1 { TransferKeepsDeclaration(ws, es, hash, i, n - 1); }
  }
}
