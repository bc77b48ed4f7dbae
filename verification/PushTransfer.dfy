/** The upload as it runs: a store on disk and a transfer object that holds its open file. Each
    method does what its function in `SyncPush` says. */
module PushTransfers {
  import opened Results
  import opened Wire
  import opened SyncPush

  const BUFFER: nat := 64 * 1024

  /** Reads a staging file from its start, a buffer at a time, feeding a new hasher. */
  method HashPrefix(file: seq<byte>, length: nat) returns (r: Result<seq<byte>, Fault>)
    ensures length <= |file| ==> r == Ok(file[..length])
    ensures length > |file| ==> r == Err(InvalidState)
  {
    var hashed, remaining := [], length;
    while remaining != 0
      invariant 0 <= remaining && remaining + |hashed| == length && |hashed| <= |file| && hashed == file[..|hashed|]
    {
      var at := |hashed|;
      var limit := Min(remaining, BUFFER);
      var read := file[at..Min(at + limit, |file|)];
      if read == [] { return Err(InvalidState); }
      hashed := hashed + read;
      remaining := remaining - |read|;
    }
    r := Ok(hashed);
  }

  class SyncStore {
    var files: Store
    /** Every disk there has been, one per write. */
    ghost var history: seq<Store>

    constructor (start: Store)
      ensures files == start && history == []
    {
      files, history := start, [];
    }

    /** What an operation leaves behind. */
    twostate predicate Wrote(writes: seq<Store>)
      reads this
    {
      files == Last(old(files), writes) && history == old(history) + writes
    }

    /** A metadata file is written aside and renamed: one write. */
    method WriteMetadata(id: Id, meta: Meta)
      modifies this
      ensures files == old(files).WithMeta(id, meta) && history == old(history) + [files]
    {
      files := files.WithMeta(id, meta);
      history := history + [files];
    }

    /** The staging file of a transfer gets new content in one write. */
    method SetPart(id: Id, part: seq<byte>)
      modifies this
      ensures files == old(files).WithPart(id, part) && history == old(history) + [files]
    {
      files := files.WithPart(id, part);
      history := history + [files];
    }

    /** The staging file grows, byte by byte as far as a kill can see. */
    method AppendPart(id: Id, data: seq<byte>)
      requires id in files.parts
      modifies this
      ensures files == old(files).WithPart(id, old(files).parts[id] + data) && id in files.parts
      ensures history == old(history) + Grown(old(files), id, data)
      ensures files == Last(old(files), Grown(old(files), id, data))
    {
      GrownLast(files, id, data);
      history := history + Grown(files, id, data);
      files := files.WithPart(id, files.parts[id] + data);
    }

    method CommitTarget(id: Id, path: Name)
      modifies this
      ensures files == old(files).Renamed(id, path) && history == old(history) + [files]
    {
      files := files.Renamed(id, path);
      history := history + [files];
    }

    method BeginPush(resume: Option<Id>, unused: Id, path: Name, total: u64, digest: Digest)
      returns (r: Result<PushTransfer, Fault>)
      modifies this
      ensures var o := Begin(old(files), resume, unused, path, total, digest);
        && Wrote(o.writes) && (r.Ok? <==> o.result.Ok?) && (r.Err? ==> r.error == o.result.error)
        && (r.Ok? ==> fresh(r.value) && r.value.store == this && r.value.push == o.result.value)
    {
      var id := if resume.Some? then resume.value else unused;
      var meta := Meta(path, total, digest, 0, false);
      if resume.Some? {
        if id !in files.metas { return Err(TransferNotFound); }
        if !files.metas[id].Declares(path, total, digest) { return Err(MetadataMismatch); }
        meta := files.metas[id];
      } else {
        SetPart(id, []);
        WriteMetadata(id, meta);
      }
      if meta.complete {
        var done := new PushTransfer(this, Push(id, meta, false, [], U64_MAX));
        return Ok(done);
      }
      if id !in files.parts { return Err(Io); }
      var actual := |files.parts[id]|;
      if actual > total { return Err(InvalidState); }
      meta := meta.(next := actual);
      var hasher := HashPrefix(files.parts[id], actual);
      assert files.parts[id][..actual] == files.parts[id];
      WriteMetadata(id, meta);
      var next := Min(Min(actual + CHECKPOINT_INTERVAL, U64_MAX), total);
      var transfer := new PushTransfer(this, Push(id, meta, true, hasher.value, next));
      r := Ok(transfer);
    }
  }

  class PushTransfer {
    const store: SyncStore
    var push: Push

    constructor (s: SyncStore, p: Push)
      ensures store == s && push == p
    {
      store, push := s, p;
    }

    /** The staging file is there while the transfer is open. */
    ghost predicate Staged()
      reads this, store
    {
      push.open ==> push.id in store.files.parts
    }

    method WriteChunk(data: seq<byte>) returns (r: Result<(), Fault>)
      requires Staged()
      modifies this, store
      ensures Staged()
      ensures var o := SyncPush.WriteChunk(old(store.files), old(push), data);
        && store.Wrote(o.writes) && (r.Ok? <==> o.result.Ok?) && (r.Err? ==> r.error == o.result.error)
        && push == if r.Ok? then o.result.value else old(push)
    {
      var end := push.meta.next + |data|;
      if end > U64_MAX { return Err(SizeOverflow); }
      if end > push.meta.total || !push.open { return Err(InvalidState); }
      store.AppendPart(push.id, data);
      push := push.(meta := push.meta.(next := end));
      if end >= push.nextCheckpoint && end < push.meta.total {
        Checkpoint();
        push := push.(nextCheckpoint := Min(end + CHECKPOINT_INTERVAL, U64_MAX));
      }
      push := push.(hashed := push.hashed + data);
      r := Ok(());
    }

    method Checkpoint()
      modifies store
      ensures store.Wrote(SyncPush.Checkpoint(old(store.files), push))
    {
      if push.open { store.WriteMetadata(push.id, push.meta); }
    }

    method RollbackForResume(offset: nat) returns (r: Result<(), Fault>)
      requires Staged()
      modifies this, store
      ensures var o := SyncPush.RollbackForResume(old(store.files), old(push), offset);
        store.Wrote(o.writes) && (r.Ok? <==> o.result.Ok?) && (r.Err? ==> r.error == o.result.error)
    {
      if offset > push.meta.next { return Err(InvalidState); }
      if !push.open { return Err(InvalidState); }
      store.SetPart(push.id, SetLength(store.files.parts[push.id], offset));
      push := push.(meta := push.meta.(next := offset));
      store.WriteMetadata(push.id, push.meta);
      r := Ok(());
    }

    method Finish(hash: Hash) returns (r: Result<(), Fault>)
      requires Staged()
      modifies this, store
      ensures var o := SyncPush.Finish(old(store.files), old(push), hash);
        store.Wrote(o.writes) && (r.Ok? <==> o.result.Ok?) && (r.Err? ==> r.error == o.result.error)
    {
      var digest := hash(push.hashed);
      if push.meta.complete { return Ok(()); }
      if push.meta.next != push.meta.total {
        Checkpoint();
        return Err(InvalidState);
      }
      if !push.open { return Err(InvalidState); }
      if digest != push.meta.digest {
        store.SetPart(push.id, SetLength(store.files.parts[push.id], 0));
        push := push.(meta := push.meta.(next := 0));
        store.WriteMetadata(push.id, push.meta);
        return Err(ChecksumMismatch);
      }
      store.CommitTarget(push.id, push.meta.path);
      push := push.(meta := push.meta.(complete := true));
      store.WriteMetadata(push.id, push.meta);
      r := Ok(());
    }
  }
}
