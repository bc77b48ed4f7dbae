/** What a kill leaves of an upload: which transfers can be picked up again, and what a sender that
    keeps trying achieves. */
module SyncResume {
  import opened Results
  import opened Wire
  import opened SyncPush

  // ---------------------------------------------------------------- one transfer

  /** The transfer is on record, and opening it with what it declared succeeds. */
  predicate Resumable(s: Store, id: Id) {
    id in s.metas && var m := s.metas[id]; Begin(s, Some(id), id, m.path, m.total, m.digest).result.Ok?
  }

  /** On record as unfinished, with its staging file gone. */
  predicate Stuck(s: Store, id: Id) { id in s.metas && !s.metas[id].complete && id !in s.parts }

  /** A staging file is never longer than the transfer. */
  predicate Fits(s: Store, id: Id) {
    id in s.metas && !s.metas[id].complete && id in s.parts ==> |s.parts[id]| <= s.metas[id].total
  }

  lemma ResumableUnlessStuck(s: Store, id: Id)
    requires Fits(s, id)
    ensures Resumable(s, id) <==> id in s.metas && !Stuck(s, id)
  {
  }

  /** The open handle and the record on disk speak of the same transfer. */
  ghost predicate Linked(w: World) {
    w.push.Some? && w.push.value.open ==>
      var p := w.push.value;
      && p.id in w.store.metas && !w.store.metas[p.id].complete
      && w.store.metas[p.id].Declares(p.meta.path, p.meta.total, p.meta.digest)
  }

  ghost predicate SoundAt(w: World, id: Id) { Good(w) && Linked(w) && Fits(w.store, id) }

  /** A new transfer gets an unused id. */
  predicate FreshOp(w: World, op: Op) { op.Start? && op.resume.None? ==> op.id !in w.store.metas }

  /** A loss of power may shorten and garble staging files, but neither loses nor lengthens one. */
  ghost predicate Ordinary(w: World, e: Event) {
    match e
    case Do(op) => FreshOp(w, op)
    case Kill(op, _) => FreshOp(w, op)
    case Lost => true
    case Crash(parts) =>
      parts.Keys == w.store.parts.Keys && forall id :: id in parts ==> |parts[id]| <= |w.store.parts[id]|
  }

  /** The kill came between the rename and the record of it. */
  predicate CutFinish(w: World, e: Event, hash: Hash, id: Id) {
    e.Kill? && e.op == End && e.k == 1 && Finishing(w, hash) && w.push.value.id == id
  }

  // ---------------------------------------------------------------- each write

  /** A write that neither strands a transfer nor frees it. */
  predicate Kept(s: Store, t: Store, id: Id) {
    (id in s.metas ==> id in t.metas) && (Stuck(t, id) <==> Stuck(s, id)) && Fits(t, id)
  }

  ghost predicate KeptAll(s: Store, writes: seq<Store>, id: Id) {
    forall i :: 0 <= i < |writes| ==> Kept(s, writes[i], id)
  }

  lemma WriteKept(w: World, data: seq<byte>, id: Id)
    requires SoundAt(w, id) && w.push.Some?
    ensures KeptAll(w.store, WriteChunk(w.store, w.push.value, data).writes, id)
  {
    var p := w.push.value;
    if p.id in w.store.parts { GrownLast(w.store, p.id, data); }
  }

  lemma BeginKept(w: World, resume: Option<Id>, unused: Id, path: Name, total: u64, digest: Digest, id: Id)
    requires SoundAt(w, id) && (resume.None? ==> unused !in w.store.metas)
    ensures KeptAll(w.store, Begin(w.store, resume, unused, path, total, digest).writes, id)
  {
  }

  lemma QuietKept(w: World, op: Op, hash: Hash, id: Id)
    requires SoundAt(w, id) && FreshOp(w, op) && (op != End || !Finishing(w, hash))
    ensures KeptAll(w.store, Effect(w, op, hash).0, id)
  {
    if op.Start? {
      BeginKept(w, op.resume, op.id, op.path, op.total, op.digest, id);
    } else if op.Write? && w.push.Some? {
      WriteKept(w, op.data, id);
    }
  }

  /** Of the two writes of a finish only the first strands its transfer. */
  lemma FinishingWrites(w: World, hash: Hash, id: Id)
    requires SoundAt(w, id) && Finishing(w, hash)
    ensures var writes := Effect(w, End, hash).0;
      && |writes| == 2 && Kept(w.store, writes[1], id)
      && (if id == w.push.value.id then Stuck(writes[0], id) else Kept(w.store, writes[0], id))
  {
  }

  lemma CutKept(w: World, op: Op, hash: Hash, k: nat, id: Id)
    requires SoundAt(w, id) && FreshOp(w, op) && !CutFinish(w, Kill(op, k), hash, id)
    ensures Kept(w.store, After(w.store, Effect(w, op, hash).0, k), id)
  {
    if op == End && Finishing(w, hash) {
      FinishingWrites(w, hash, id);
    } else {
      QuietKept(w, op, hash, id);
    }
  }

  lemma DoLinked(w: World, op: Op, hash: Hash, id: Id)
    requires SoundAt(w, id)
    ensures Good(Next(w, Do(op), hash)) && Linked(Next(w, Do(op), hash))
  {
    NextGood(w, Do(op), hash);
    if op.Write? && w.push.Some? && w.push.value.id in w.store.parts { GrownLast(w.store, w.push.value.id, op.data); }
  }

  /** Every event keeps the books; only a cut finish strands a transfer, and nothing frees one. */
  lemma StepKept(w: World, e: Event, hash: Hash, id: Id)
    requires SoundAt(w, id) && Ordinary(w, e)
    ensures SoundAt(Next(w, e, hash), id) && (id in w.store.metas ==> id in Next(w, e, hash).store.metas)
    ensures Stuck(Next(w, e, hash).store, id) <==> Stuck(w.store, id) || CutFinish(w, e, hash, id)
  {
    match e
    case Do(op) =>
      if op == End && Finishing(w, hash) { FinishingWrites(w, hash, id); }
      CutKept(w, op, hash, |Effect(w, op, hash).0|, id);
      DoLinked(w, op, hash, id);
    case Kill(op, k) =>
      if CutFinish(w, e, hash, id) { FinishingWrites(w, hash, id); } else { CutKept(w, op, hash, k, id); }
    case Lost =>
    case Crash(parts) =>
  }

  // ---------------------------------------------------------------- over every run

  ghost predicate Ordinarily(ws: seq<World>, es: seq<Event>, n: nat) {
    n <= |es| <= |ws| && forall i :: 0 <= i < n ==> Ordinary(ws[i], es[i])
  }

  ghost predicate WasCut(ws: seq<World>, es: seq<Event>, hash: Hash, id: Id, n: nat) {
    n <= |es| <= |ws| && exists i :: 0 <= i < n && CutFinish(ws[i], es[i], hash, id)
  }

  lemma {:induction false} RunKept(ws: seq<World>, es: seq<Event>, hash: Hash, id: Id, n: nat)
    requires IsRun(ws, es, hash) && Ordinarily(ws, es, n) && Fits(ws[0].store, id) && !Stuck(ws[0].store, id)
    ensures SoundAt(ws[n], id) && (Stuck(ws[n].store, id) <==> WasCut(ws, es, hash, id, n))
  {
    if n > 0 {
      var m := n - 1;
      RunKept(ws, es, hash, id, m);
      StepKept(ws[m], es[m], hash, id);
      assert ws[n] == Next(ws[m], es[m], hash);
      if WasCut(ws, es, hash, id, n) {
        var i :| 0 <= i < n && CutFinish(ws[i], es[i], hash, id);
        assert i < m ==> WasCut(ws, es, hash, id, m);
      }
      if CutFinish(ws[m], es[m], hash, id) { assert WasCut(ws, es, hash, id, n); }
    }
  }

  /** Over every run, with kills between any two writes: a transfer on record can be resumed if and
      only if no kill ever came between the rename of its finish and the record of it. */
  lemma ResumableIffFinishNotCut(ws: seq<World>, es: seq<Event>, hash: Hash, id: Id, n: nat)
    requires IsRun(ws, es, hash) && Ordinarily(ws, es, n) && Fits(ws[0].store, id) && !Stuck(ws[0].store, id)
    requires id in ws[n].store.metas
    ensures Resumable(ws[n].store, id) <==> !WasCut(ws, es, hash, id, n)
  {
    RunKept(ws, es, hash, id, n);
    ResumableUnlessStuck(ws[n].store, id);
  }

  /** Such a kill is possible in any transfer: the target then holds the content, and every attempt
      to resume fails. */
  lemma CutFinishStrands(path: Name, content: seq<byte>, hash: Hash) returns (ws: seq<World>, es: seq<Event>)
    requires |content| <= U64_MAX
    ensures IsRun(ws, es, hash) && |es| == 3 && Ordinarily(ws, es, 3)
    ensures ws[0] == World(Store(map[], map[], map[]), None)
    ensures CutFinish(ws[2], es[2], hash, 0)
    ensures var s := ws[3].store;
      && path in s.targets && s.targets[path] == content
      && Begin(s, Some(0), 0, path, |content|, hash(content)) == Outcome([], Err(Io))
  {
    var empty := World(Store(map[], map[], map[]), None);
    es := [Do(Start(None, 0, path, |content|, hash(content))), Do(Write(content)), Kill(End, 1)];
    var started := Next(empty, es[0], hash);
    var written := Next(started, es[1], hash);
    GrownLast(started.store, 0, content);
    assert [] + content == content;
    ws := [empty, started, written, Next(written, es[2], hash)];
  }

  // ---------------------------------------------------------------- an honest sender

  predicate HonestOp(w: World, op: Op, id: Id, content: seq<byte>) {
    match op
    case Start(resume, _, _, _, _) => resume == Some(id)
    case Write(data) => w.push.Some? ==> data <= content[Min(w.push.value.meta.next, |content|)..]
    case _ => true
  }

  /** The event is one a sender of `content` makes: it continues where the transfer stands, and a
      loss of power leaves some start of what it sent. */
  predicate Honest(w: World, e: Event, id: Id, content: seq<byte>) {
    match e
    case Do(op) => HonestOp(w, op, id, content)
    case Kill(op, _) => HonestOp(w, op, id, content)
    case Lost => true
    case Crash(parts) => (id in parts <==> id in w.store.parts) && (id in parts ==> parts[id] <= content)
  }

  predicate Delivered(s: Store, path: Name, content: seq<byte>) { path in s.targets && s.targets[path] == content }

  /** The staging file of `id` holds a start of the content its record describes; once it is gone
      the target holds the content. */
  predicate StoreOnTrack(s: Store, id: Id, path: Name, content: seq<byte>, hash: Hash) {
    && |content| <= U64_MAX && id in s.metas && s.metas[id].Declares(path, |content|, hash(content))
    && (if !s.metas[id].complete && id in s.parts then s.parts[id] <= content else Delivered(s, path, content))
  }

  predicate OnTrack(w: World, id: Id, path: Name, content: seq<byte>, hash: Hash) {
    && StoreOnTrack(w.store, id, path, content, hash)
    && (w.push.Some? ==>
          && w.push.value.id == id && w.push.value.meta.Declares(path, |content|, hash(content))
          && (w.push.value.open <==> !w.store.metas[id].complete && id in w.store.parts))
  }

  ghost predicate AllOnTrack(writes: seq<Store>, id: Id, path: Name, content: seq<byte>, hash: Hash) {
    forall i :: 0 <= i < |writes| ==> StoreOnTrack(writes[i], id, path, content, hash)
  }

  lemma HonestWrite(w: World, data: seq<byte>, id: Id, path: Name, content: seq<byte>, hash: Hash)
    requires Good(w) && OnTrack(w, id, path, content, hash) && HonestOp(w, Write(data), id, content)
    ensures AllOnTrack(Effect(w, Write(data), hash).0, id, path, content, hash)
    ensures OnTrack(Next(w, Do(Write(data)), hash), id, path, content, hash)
  {
    if w.push.Some? && w.push.value.open {
      var part := w.store.parts[id];
      GrownLast(w.store, id, data);
      forall i | 0 <= i <= |data|
        ensures part + data[..i] <= content
      {
        assert data <= content[|part|..];
      }
      assert data[..|data|] == data;
    }
  }

  /** With the whole content staged the hash is right. */
  lemma HonestHash(w: World, id: Id, path: Name, content: seq<byte>, hash: Hash)
    requires Good(w) && OnTrack(w, id, path, content, hash) && w.push.Some? && w.push.value.open
    requires w.push.value.meta.next == w.push.value.meta.total
    ensures w.push.value.hashed == content && w.store.parts[id] == content && Finishing(w, hash)
  {
  }

  lemma HonestEnd(w: World, id: Id, path: Name, content: seq<byte>, hash: Hash)
    requires Good(w) && OnTrack(w, id, path, content, hash)
    ensures AllOnTrack(Effect(w, End, hash).0, id, path, content, hash)
  {
    if w.push.Some? && w.push.value.open && w.push.value.meta.next == w.push.value.meta.total {
      HonestHash(w, id, path, content, hash);
    }
  }

  lemma HonestEffect(w: World, op: Op, id: Id, path: Name, content: seq<byte>, hash: Hash)
    requires Good(w) && OnTrack(w, id, path, content, hash) && HonestOp(w, op, id, content)
    ensures AllOnTrack(Effect(w, op, hash).0, id, path, content, hash)
    ensures OnTrack(Next(w, Do(op), hash), id, path, content, hash)
  {
    match op
    case Write(data) => HonestWrite(w, data, id, path, content, hash);
    case End => HonestEnd(w, id, path, content, hash);
    case _ =>
  }

  lemma HonestStep(w: World, e: Event, id: Id, path: Name, content: seq<byte>, hash: Hash)
    requires Good(w) && OnTrack(w, id, path, content, hash) && Honest(w, e, id, content)
    ensures OnTrack(Next(w, e, hash), id, path, content, hash)
  {
    if e.Do? || e.Kill? { HonestEffect(w, e.op, id, path, content, hash); }
  }

  /** A new transfer is on track as soon as it has been recorded. */
  lemma NewTransferOnTrack(w: World, id: Id, path: Name, content: seq<byte>, hash: Hash, k: nat)
    requires |content| <= U64_MAX && k >= 2
    ensures var start := Start(None, id, path, |content|, hash(content));
      && OnTrack(Next(w, Do(start), hash), id, path, content, hash)
      && OnTrack(Next(w, Kill(start, k), hash), id, path, content, hash)
  {
  }

  /** Whatever interrupts an honest sender, its transfer stays on track. */
  lemma {:induction false} HonestRunStaysOnTrack(ws: seq<World>, es: seq<Event>, hash: Hash, id: Id, path: Name,
                                                 content: seq<byte>, i: nat, n: nat)
    requires IsRun(ws, es, hash) && i <= n < |ws| && OnTrack(ws[i], id, path, content, hash)
    requires forall k :: i <= k < n ==> Honest(ws[k], es[k], id, content)
    ensures OnTrack(ws[n], id, path, content, hash)
  {
    if n > i {
      HonestRunStaysOnTrack(ws, es, hash, id, path, content, i, n - 1);
      HasherFollowsFile(ws, es, hash, n - 1);
      HonestStep(ws[n - 1], es[n - 1], id, path, content, hash);
    }
  }

  /** An honest sender is never refused its hash: once it has sent everything and ends the transfer,
      the target holds the content. */
  lemma HonestEndSucceeds(w: World, id: Id, path: Name, content: seq<byte>, hash: Hash)
    requires Good(w) && OnTrack(w, id, path, content, hash) && w.push.Some?
    requires w.push.value.open ==> w.push.value.meta.next == |content|
    ensures Finish(w.store, w.push.value, hash).result.Ok?
    ensures Delivered(Last(w.store, Finish(w.store, w.push.value, hash).writes), path, content)
  {
    if w.push.value.open { HonestHash(w, id, path, content, hash); }
  }

  /** From any point on track, one undisturbed attempt is enough: resume, send the rest, finish. A
      transfer whose finish was cut is refused, but there the target already holds the content. */
  lemma HonestCompletes(w: World, id: Id, path: Name, content: seq<byte>, hash: Hash)
    requires Good(w) && OnTrack(w, id, path, content, hash)
    ensures Resumable(w.store, id) <==> !Stuck(w.store, id)
    ensures Stuck(w.store, id) ==> Delivered(w.store, path, content)
    ensures !Stuck(w.store, id) ==>
      var w1 := Next(w, Do(Start(Some(id), id, path, |content|, hash(content))), hash);
      && w1.push.Some?
      && var rest := if w1.push.value.open then content[Min(w1.push.value.meta.next, |content|)..] else [];
      var w3 := Next(Next(w1, Do(Write(rest)), hash), Do(End), hash);
      Delivered(w3.store, path, content) && id in w3.store.metas && w3.store.metas[id].complete
  {
    ResumableUnlessStuck(w.store, id);
    if !Stuck(w.store, id) {
      var start := Start(Some(id), id, path, |content|, hash(content));
      var w1 := Next(w, Do(start), hash);
      NextGood(w, Do(start), hash);
      HonestStep(w, Do(start), id, path, content, hash);
      var rest := if w1.push.value.open then content[Min(w1.push.value.meta.next, |content|)..] else [];
      RestCompletes(w1, rest, id, path, content, hash);
    }
  }

  lemma RestCompletes(w: World, rest: seq<byte>, id: Id, path: Name, content: seq<byte>, hash: Hash)
    requires Good(w) && OnTrack(w, id, path, content, hash) && w.push.Some?
    requires rest == if w.push.value.open then content[Min(w.push.value.meta.next, |content|)..] else []
    requires !w.push.value.open ==> w.store.metas[id].complete
    ensures var w3 := Next(Next(w, Do(Write(rest)), hash), Do(End), hash);
      Delivered(w3.store, path, content) && id in w3.store.metas && w3.store.metas[id].complete
  {
    var w2 := Next(w, Do(Write(rest)), hash);
    NextGood(w, Do(Write(rest)), hash);
    HonestStep(w, Do(Write(rest)), id, path, content, hash);
    if w.push.value.open {
      GrownLast(w.store, id, rest);
      HonestHash(w2, id, path, content, hash);
    }
    HonestEndSucceeds(w2, id, path, content, hash);
  }
}
