/** What each operation of a transfer answers and leaves behind, and how far its record may lag. */
module SyncOutcomes {
  import opened Results
  import opened Wire
  import opened SyncPush

  // ---------------------------------------------------------------- single operations

  /** A chunk is taken if and only if the transfer is open, its staging file is there and the chunk ends
      within the declared size. The file and the hasher then have the chunk at their end, and the
      offset is past it; otherwise nothing has changed. */
  lemma WriteOutcome(s: Store, p: Push, data: seq<byte>)
    ensures var o := WriteChunk(s, p, data);
      && (o.result.Ok? <==> p.open && p.id in s.parts && p.meta.next + |data| <= p.meta.total)
      && (o.result.Err? ==> o.writes == [])
      && (o.result.Ok? ==>
            var s', q := Last(s, o.writes), o.result.value;
            && p.id in s'.parts && s'.parts[p.id] == s.parts[p.id] + data && q.hashed == p.hashed + data
            && q.meta == p.meta.(next := p.meta.next + |data|) && q.id == p.id && q.open
            && s'.targets == s.targets && s'.parts - {p.id} == s.parts - {p.id}
            && s'.metas - {p.id} == s.metas - {p.id})
  {
    if WriteChunk(s, p, data).result.Ok? {
      GrownLast(s, p.id, data);
      var written := Grown(s, p.id, data);
      assert Last(s, written + [Last(s, written).WithMeta(p.id, p.meta)]) == Last(s, written).WithMeta(p.id, p.meta);
    }
  }

  /** What a finish makes of a transfer whose hasher follows its file: done, if it was done before or size
      and hash are right; refused as unfinished, with its offset recorded; or emptied, if the hash is
      wrong. What is done has the file in its place, and nothing else has changed. */
  lemma FinishOutcome(s: Store, p: Push, hash: Hash)
    requires Good(World(s, Some(p)))
    ensures var o, s' := Finish(s, p, hash), Last(s, Finish(s, p, hash).writes);
      if p.meta.complete then o == Outcome([], Ok(()))
      else if p.meta.next != p.meta.total then
        o.result == Err(InvalidState) && s' == s.WithMeta(p.id, p.meta)
      else if hash(p.hashed) != p.meta.digest then
        && o.result == Err(ChecksumMismatch)
        && s' == s.WithPart(p.id, []).WithMeta(p.id, p.meta.(next := 0))
      else
        && o.result == Ok(()) && p.id !in s'.parts && s'.parts == s.parts - {p.id}
        && s'.targets == s.targets[p.meta.path := p.hashed]
        && s'.metas == s.metas[p.id := p.meta.(complete := true)]
  {
  }

  /** Giving up a transfer for now succeeds exactly up to where it got; the file and its record then end
      there, with the content they had. */
  lemma RollOutcome(s: Store, p: Push, offset: nat)
    requires Good(World(s, Some(p)))
    ensures var o, s' := RollbackForResume(s, p, offset), Last(s, RollbackForResume(s, p, offset).writes);
      && (o.result.Ok? <==> p.open && offset <= p.meta.next)
      && (o.result.Err? ==> o.writes == [])
      && (o.result.Ok? ==> s' == s.WithPart(p.id, p.hashed[..offset]).WithMeta(p.id, p.meta.(next := offset)))
  {
  }

  /** A transfer starts afresh under a new id; or it is picked up, exactly if it is on record with the same
      path, size and hash, where its file ends, unless it is complete. */
  lemma BeginOutcome(s: Store, resume: Option<Id>, unused: Id, path: Name, total: u64, digest: Digest)
    ensures var o := Begin(s, resume, unused, path, total, digest);
      var s' := Last(s, o.writes);
      if resume.None? then
        && o.result.Ok? && o.result.value.id == unused && o.result.value.open && o.result.value.hashed == []
        && s' == s.WithPart(unused, []).WithMeta(unused, Meta(path, total, digest, 0, false))
      else
        var id := resume.value;
        var known := id in s.metas && s.metas[id].Declares(path, total, digest);
        && (o.result == Err(TransferNotFound) <==> id !in s.metas)
        && (o.result == Err(MetadataMismatch) <==> id in s.metas && !known)
        && (known && s.metas[id].complete ==> o.writes == [] && o.result.Ok? && !o.result.value.open)
        && (known && !s.metas[id].complete ==>
              && (o.result.Ok? <==> id in s.parts && |s.parts[id]| <= total)
              && (o.result.Ok? ==> o.result.value.hashed == s.parts[id] && o.result.value.open
                                   && s' == s.WithMeta(id, s.metas[id].(next := |s.parts[id]|)))
              && (o.result.Err? ==> o.writes == []))
  {
    if resume.None? {
      var created := s.WithPart(unused, []);
      var meta := Meta(path, total, digest, 0, false);
      assert created.WithMeta(unused, meta).WithMeta(unused, meta) == created.WithMeta(unused, meta);
    }
  }

  // ---------------------------------------------------------------- the record keeps up

  /** The record of the open transfer is behind it by less than the interval, or all has been sent. */
  ghost predicate KeepsUp(w: World) {
    w.push.Some? && w.push.value.open ==>
      var p := w.push.value;
      && p.id in w.store.metas && w.store.metas[p.id].next <= p.meta.next
      && (p.meta.next < w.store.metas[p.id].next + CHECKPOINT_INTERVAL || p.meta.next == p.meta.total)
      && (p.meta.next < p.nextCheckpoint || p.meta.next == p.meta.total)
      && p.nextCheckpoint <= w.store.metas[p.id].next + CHECKPOINT_INTERVAL
  }

  lemma WriteKeepsUp(w: World, data: seq<byte>)
    requires KeepsUp(w) && w.push.Some? && WriteChunk(w.store, w.push.value, data).result.Ok?
    ensures var o := WriteChunk(w.store, w.push.value, data);
      KeepsUp(World(Last(w.store, o.writes), Some(o.result.value)))
  {
    var s, p := w.store, w.push.value;
    var written := Grown(s, p.id, data);
    GrownLast(s, p.id, data);
    var o := WriteChunk(s, p, data);
    if |o.writes| > |written| {
      assert Last(s, o.writes) == Last(s, written).WithMeta(p.id, o.result.value.meta);
    }
  }

  lemma BeginKeepsUp(s: Store, resume: Option<Id>, unused: Id, path: Name, total: u64, digest: Digest)
    requires Begin(s, resume, unused, path, total, digest).result.Ok?
    ensures var o := Begin(s, resume, unused, path, total, digest);
      KeepsUp(World(Last(s, o.writes), Some(o.result.value)))
  {
  }

  lemma NextKeepsUp(w: World, e: Event, hash: Hash)
    requires KeepsUp(w)
    ensures KeepsUp(Next(w, e, hash))
  {
    if e.Do? && e.op.Start? {
      var o := Begin(w.store, e.op.resume, e.op.id, e.op.path, e.op.total, e.op.digest);
      if o.result.Ok? { BeginKeepsUp(w.store, e.op.resume, e.op.id, e.op.path, e.op.total, e.op.digest); }
    }
    if e.Do? && e.op.Write? && w.push.Some? && WriteChunk(w.store, w.push.value, e.op.data).result.Ok? {
      WriteKeepsUp(w, e.op.data);
    }
  }

  /** In every run, with kills, losses and crashes: the record of the open transfer never falls behind it
      by a whole checkpoint interval while there is more to send. */
  lemma {:induction false} RecordKeepsUp(ws: seq<World>, es: seq<Event>, hash: Hash, n: nat)
    requires IsRun(ws, es, hash) && n < |ws|
    ensures KeepsUp(ws[n])
  {
    if n > 0 {
      RecordKeepsUp(ws, es, hash, n - 1);
      NextKeepsUp(ws[n - 1], es[n - 1], hash);
    }
  }
}
