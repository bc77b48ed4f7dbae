/** What each operation of the activation store answers, when, and what it leaves on disk. */
module InstallOutcomes {
  import opened Results
  import opened Install
  import opened InstallSafety
  import opened InstallRecovery

  /** Nothing but the transaction is changed. */
  ghost predicate OnlyTx(d: Disk, d': Disk, tx: TxId) {
    d'.active == d.active && d'.generations == d.generations && d'.transactions - {tx} == d.transactions - {tx}
  }

  // ---------------------------------------------------------------- staging

  /** The transaction already holds this very generation, staged or durable. */
  ghost predicate Repeats(d: Disk, t: Tx, g: Generation) {
    && t.journal.Some? && t.journal.value.generation == g.id && t.journal.value.base == g.previous
    && (t.staged == Holds(g) || (t.staged == Absent && d.Load(g.id) == Ok(g)))
  }

  /** Staging succeeds if and only if the id is well-formed, the pointer is what the generation
      replaces, and the transaction is new with a new generation, or repeats what it holds. It then
      holds document and journal, and nothing else has changed; a repetition or refusal writes
      nothing. */
  lemma StageOutcome(d: Disk, tx: TxId, g: Generation)
    ensures var o := Stage(d, tx, g);
      && (o.result.Ok? <==>
            && ValidTxId(tx) && d.active == g.previous
            && if tx in d.transactions then Repeats(d, d.transactions[tx], g) else g.id !in d.generations)
      && (o.result.Err? || tx in d.transactions ==> o.writes == [])
      && (o.result.Ok? && tx !in d.transactions ==>
            var d' := End(d, o.writes);
            && OnlyTx(d, d', tx) && tx in d'.transactions
            && d'.transactions[tx] == Tx(Holds(g), Some(Journal(g.id, g.previous, StagedPhase))))
  {
  }

  // ---------------------------------------------------------------- committing

  /** The generation is durable and no staged copy contradicts it, or its staged copy can become it. */
  ghost predicate Settleable(d: Disk, t: Tx, j: Journal) {
    if j.generation in d.generations then
      && d.generations[j.generation].id == j.generation
      && (t.staged == Absent || (t.staged.Holds? && !Disagrees(t.staged.generation, d.generations[j.generation], j)))
    else t.staged.Holds? && t.staged.generation.id == j.generation && t.staged.generation.previous == j.base
  }

  ghost predicate Committable(d: Disk, tx: TxId) {
    && ValidTxId(tx) && tx in d.transactions && Unfinished(d.transactions[tx])
    && Settleable(d, d.transactions[tx], d.transactions[tx].journal.value)
  }

  /** A commit answers that it was done before exactly for a committed journal; that it is done, or was
      active already, exactly if the generation can be made durable and the pointer is its base, or
      itself; and that there is a conflict if the pointer is neither. */
  lemma CommitOutcomes(d: Disk, tx: TxId)
    ensures var r := Commit(d, tx).result;
      && (r == Ok(AlreadyCommitted) <==> ValidTxId(tx) && tx in d.transactions && Settled(d.transactions[tx]))
      && (r == Ok(AlreadyActive) <==>
            Committable(d, tx) && d.active == Some(d.transactions[tx].journal.value.generation))
      && (r == Ok(CommitDone) <==>
            && Committable(d, tx) && d.active == d.transactions[tx].journal.value.base
            && d.active != Some(d.transactions[tx].journal.value.generation))
      && (Committable(d, tx) && r.Err? ==> r.error == Conflict)
  {
    if Committable(d, tx) { CommitParts(d, tx); }
  }

  lemma CommitParts(d: Disk, tx: TxId)
    requires Committable(d, tx)
    ensures var j := d.transactions[tx].journal.value;
      var durable := MakeDurable(d, tx, j);
      var e := End(d, durable.writes);
      && durable.result.Ok? && tx in e.transactions && e.transactions[tx] == Tx(Absent, Some(j)) && e.active == d.active
      && e.transactions - {tx} == d.transactions - {tx}
      && j.generation in e.generations && e.generations - {j.generation} == d.generations - {j.generation}
      && Commit(d, tx) == Outcome(durable.writes + Publish(e, tx, j).writes, Publish(e, tx, j).result)
  {
  }

  /** What a commit leaves: on success the generation is active and durable, and the
      journal says committed; on a late conflict the generation is durable and the pointer is as it
      was; otherwise nothing has changed. Other transactions and generations never change. */
  lemma CommitLeaves(d: Disk, tx: TxId)
    ensures var o := Commit(d, tx);
      var d' := End(d, o.writes);
      if !Committable(d, tx) then o.writes == []
      else
        var j := d.transactions[tx].journal.value;
        && d'.active == (if o.result.Ok? then Some(j.generation) else d.active)
        && j.generation in d'.generations && d'.generations - {j.generation} == d.generations - {j.generation}
        && d'.transactions - {tx} == d.transactions - {tx} && tx in d'.transactions
        && d'.transactions[tx] ==
           Tx(Absent, Some(j.(phase := if o.result.Ok? then Committed else GenerationDurable)))
  {
    if Committable(d, tx) {
      var j := d.transactions[tx].journal.value;
      CommitParts(d, tx);
      var e := End(d, MakeDurable(d, tx, j).writes);
      var published := Publish(e, tx, j);
      assert End(d, MakeDurable(d, tx, j).writes + published.writes) == End(e, published.writes);
      PublishLeaves(e, tx, j);
    }
  }

  lemma PublishLeaves(e: Disk, tx: TxId, j: Journal)
    requires tx in e.transactions && e.transactions[tx] == Tx(Absent, Some(j))
    ensures var o := Publish(e, tx, j);
      var d' := End(e, o.writes);
      && |o.writes| > 0 && d'.active == (if o.result.Ok? then Some(j.generation) else e.active)
      && d'.generations == e.generations && d'.transactions - {tx} == e.transactions - {tx} && tx in d'.transactions
      && d'.transactions[tx] == Tx(Absent, Some(j.(phase := if o.result.Ok? then Committed else GenerationDurable)))
  {
  }

  // ---------------------------------------------------------------- recovering one transaction

  /** What each report of recovery stands for. */
  ghost predicate Reports(d: Disk, t: Tx, action: Action) {
    var open := Unfinished(t);
    var durable := open && t.journal.value.generation in d.generations;
    match action
    case WasCommitted => Settled(t)
    case RemovedOrphan => t.journal.None? || (open && !durable && t.staged == Absent)
    case AbortedStaging => open && !durable && t.staged != Absent
    case RecordedCommit => durable && d.active == Some(t.journal.value.generation)
    case CompletedCommit =>
      durable && d.active == t.journal.value.base && d.active != Some(t.journal.value.generation)
    case DiscardedConflict =>
      durable && d.active != t.journal.value.base && d.active != Some(t.journal.value.generation)
  }

  /** The transaction is gone after it was removed, aborted or discarded; otherwise it is committed, and
      what was staged of one committed before is cleared away. */
  ghost predicate Leaves(t: Tx, action: Action, d': Disk, tx: TxId) {
    if action.RemovedOrphan? || action.AbortedStaging? || action.DiscardedConflict? then tx !in d'.transactions
    else
      && tx in d'.transactions && Settled(d'.transactions[tx])
      && d'.transactions[tx].staged == (if action.WasCommitted? then Absent else t.staged)
  }

  /** On every disk that can come about, recovery of a transaction that is not blocked reports exactly
      what was the matter with it, and leaves it accordingly. */
  lemma RecoveredAsReported(book: Book, d: Disk, e: Entry, action: Action)
    requires Inv(book, d) && e.tx in d.transactions && !Blocked(d, d.transactions[e.tx])
    ensures var o := RecoverTx(d, e);
      && (o.result == Ok(action) <==> Reports(d, d.transactions[e.tx], action))
      && (o.result == Ok(action) ==> Leaves(d.transactions[e.tx], action, End(d, o.writes), e.tx))
  {
    assert TxOk(book, d, d.transactions[e.tx]);
    RemoveTxGood(book, d, e.tx, e.journalFirst);
  }
}
