/** A blocked transaction stays blocked whatever is done afterwards, and only a crash makes one. */
module InstallBlocked {
  import opened Results
  import opened Install
  import opened InstallSafety
  import opened InstallRecovery

  ghost predicate Stuck(d: Disk, tx: TxId) { tx in d.transactions && Blocked(d, d.transactions[tx]) }

  ghost predicate Same(d: Disk, d': Disk, tx: TxId) {
    tx in d.transactions && tx in d'.transactions && d'.transactions[tx] == d.transactions[tx]
  }

  /** No write touches the transaction. */
  ghost predicate Untouched(d: Disk, writes: seq<Disk>, tx: TxId) {
    forall k :: 0 <= k <= |writes| ==> Same(d, At(d, writes, k), tx)
  }

  lemma UntouchedConcat(d: Disk, a: seq<Disk>, b: seq<Disk>, tx: TxId)
    requires Untouched(d, a, tx) && Untouched(End(d, a), b, tx)
    ensures Untouched(d, a + b, tx)
  {
    forall k | 0 <= k <= |a + b|
      ensures Same(d, At(d, a + b, k), tx)
    {
      AtConcat(d, a, b, k);
      assert Same(d, At(d, a, |a|), tx);
    }
  }

  lemma StillStuck(d: Disk, d': Disk, tx: TxId)
    requires Stuck(d, tx) && Same(d, d', tx) && Grows(d, d')
    ensures Stuck(d', tx)
  {
  }

  lemma CommitLeaves(d: Disk, other: TxId, tx: TxId)
    requires Stuck(d, tx)
    ensures Untouched(d, Commit(d, other).writes, tx)
  {
    var writes := Commit(d, other).writes;
    if other != tx && |writes| > 0 {
      forall k | 0 <= k <= |writes|
        ensures Same(d, At(d, writes, k), tx)
      {
        CommitMid(d, other, k);
      }
    }
  }

  lemma OthersLeft(d: Disk, tx: TxId, other: TxId, states: seq<Tx>)
    requires tx in d.transactions && tx != other
    ensures Untouched(d, OnDisk(d, other, states), tx)
    ensures Untouched(d, OnDisk(d, other, states) + [d.WithoutTx(other)], tx)
  {
  }

  lemma RecoverTxLeaves(book: Book, d: Disk, e: Entry, tx: TxId)
    requires Inv(book, d) && Stuck(d, tx) && e.tx in d.transactions
    ensures Untouched(d, RecoverTx(d, e).writes, tx)
    ensures e.tx == tx ==> RecoverTx(d, e) == Stop(Io)
  {
    var t := d.transactions[e.tx];
    assert TxOk(book, d, t);
    if e.tx != tx {
      OthersLeft(d, tx, e.tx, StripStaged(t));
      OthersLeft(d, tx, e.tx, StripTx(t, e.journalFirst));
    }
  }

  /** A pass leaves the transaction alone, and fails if it comes to it. */
  lemma {:induction false} RecoverLeaves(book: Book, d: Disk, listing: seq<Entry>, tx: TxId, o: Outcome<seq<Action>>)
    requires Inv(book, d) && Stuck(d, tx) && o == Recover(d, listing)
    ensures Untouched(d, o.writes, tx)
    ensures Listed(listing, tx) ==> o.result.Err?
    decreases |listing|
  {
    if |listing| > 0 && listing[0].tx in d.transactions {
      var first := RecoverTx(d, listing[0]);
      var d1 := End(d, first.writes);
      RecoverTxLeaves(book, d, listing[0], tx);
      if first.result.Ok? {
        RecoverTxGood(book, d, listing[0]);
        GoodPrefix(book, d, first.writes, |first.writes|);
        assert Same(d, At(d, first.writes, |first.writes|), tx);
        StillStuck(d, d1, tx);
        var rest := Recover(d1, listing[1..]);
        RecoverLeaves(book, d1, listing[1..], tx, rest);
        UntouchedConcat(d, first.writes, rest.writes, tx);
        LaterListed(listing, tx);
      }
    }
  }

  lemma LaterListed(listing: seq<Entry>, tx: TxId)
    requires |listing| > 0
    ensures Listed(listing, tx) ==> listing[0].tx == tx || Listed(listing[1..], tx)
  {
    if Listed(listing, tx) {
      var k :| 0 <= k < |listing| && listing[k].tx == tx;
      assert k > 0 ==> listing[1..][k - 1] == listing[k];
    }
  }

  lemma WritesLeave(book: Book, d: Disk, op: Op, tx: TxId)
    requires Inv(book, d) && Stuck(d, tx)
    ensures Untouched(d, Writes(d, op), tx)
  {
    match op
    case DoStage(_, _) =>
    case DoCommit(other) => CommitLeaves(d, other, tx);
    case DoRecover(listing) => RecoverLeaves(book, d, listing, tx, Recover(d, listing));
    case DoActivate(_, _) =>
  }

  /** No operation, finished or cut short, unblocks a transaction or changes it at all. */
  lemma StepStaysStuck(book: Book, d: Disk, d': Disk, tx: TxId)
    requires Inv(book, d) && Step(book, d, d') && Stuck(d, tx)
    ensures Stuck(d', tx) && Same(d, d', tx)
  {
    StepKeeps(book, d, d');
    var op: Op, k: nat :| k <= |Writes(d, op)| && d' == At(d, Writes(d, op), k)
                          && (op.DoStage? ==> op.g == book(op.g.id));
    WritesLeave(book, d, op, tx);
    assert Same(d, At(d, Writes(d, op), k), tx);
    StillStuck(d, d', tx);
  }

  ghost predicate Kept(d: Disk, d': Disk, tx: TxId) { Stuck(d, tx) ==> Stuck(d', tx) && Same(d, d', tx) }

  ghost predicate Keeping(run: seq<Disk>, tx: TxId) {
    forall j, k :: 0 <= j < |run| - 1 && k == j + 1 ==> Kept(run[j], run[k], tx)
  }

  lemma RunKept(book: Book, run: seq<Disk>, n: nat, tx: TxId)
    requires IsRun(book, run) && n + 1 < |run|
    ensures Kept(run[n], run[n + 1], tx)
  {
    RunKeeps(book, run, n);
    if Stuck(run[n], tx) { StepStaysStuck(book, run[n], run[n + 1], tx); }
  }

  lemma {:induction false} KeepingKeeps(run: seq<Disk>, i: nat, n: nat, tx: TxId)
    requires Keeping(run, tx) && i <= n < |run|
    ensures Kept(run[i], run[n], tx)
    decreases n
  {
    if i < n { KeepingKeeps(run, i, n - 1, tx); }
  }

  lemma StaysStuck(book: Book, run: seq<Disk>, i: nat, n: nat, tx: TxId)
    requires IsRun(book, run) && i <= n < |run| && Stuck(run[i], tx)
    ensures Stuck(run[n], tx) && Same(run[i], run[n], tx)
  {
    forall j, k | 0 <= j < |run| - 1 && k == j + 1
      ensures Kept(run[j], run[k], tx)
    {
      RunKept(book, run, j, tx);
    }
    KeepingKeeps(run, i, n, tx);
  }

  lemma StuckCommit(d: Disk, tx: TxId)
    requires Stuck(d, tx)
    ensures Commit(d, tx).result.Err?
  {
  }

  /** Once blocked, always blocked: in every run the transaction stays as it is, and from then on
      every recovery pass that lists it fails, and so does committing it. */
  lemma BlockedForGood(book: Book, run: seq<Disk>, i: nat, n: nat, tx: TxId, listing: seq<Entry>)
    requires IsRun(book, run) && i <= n < |run| && Stuck(run[i], tx) && Listed(listing, tx)
    ensures Stuck(run[n], tx) && Same(run[i], run[n], tx)
    ensures Recover(run[n], listing).result.Err? && Commit(run[n], tx).result.Err?
  {
    StaysStuck(book, run, i, n, tx);
    RunKeeps(book, run, n);
    StuckFails(book, run[n], listing, tx);
  }

  lemma StuckFails(book: Book, d: Disk, listing: seq<Entry>, tx: TxId)
    requires Inv(book, d) && Stuck(d, tx) && Listed(listing, tx)
    ensures Recover(d, listing).result.Err? && Commit(d, tx).result.Err?
  {
    var o := Recover(d, listing);
    RecoverLeaves(book, d, listing, tx, o);
    StuckCommit(d, tx);
  }

  // ---------------------------------------------------------------- without crashes

  /** No staged directory is without its document. */
  ghost predicate NoneEmptied(d: Disk) {
    forall tx :: tx in d.transactions ==> !d.transactions[tx].staged.Emptied?
  }

  lemma CommitRefills(d: Disk, tx: TxId)
    requires NoneEmptied(d)
    ensures NoneEmptied(End(d, Commit(d, tx).writes))
  {
    if |Commit(d, tx).writes| > 0 {
      var j := d.transactions[tx].journal.value;
      var durable := MakeDurable(d, tx, j);
      DurableKeepsJournal(d, tx, j);
      var e := End(d, durable.writes);
      assert NoneEmptied(e);
    }
  }

  lemma RecoverTxRefills(d: Disk, e: Entry)
    requires NoneEmptied(d) && e.tx in d.transactions
    ensures NoneEmptied(End(d, RecoverTx(d, e).writes))
  {
  }

  lemma {:induction false} RecoverRefills(d: Disk, listing: seq<Entry>)
    requires NoneEmptied(d)
    ensures NoneEmptied(End(d, Recover(d, listing).writes))
    decreases |listing|
  {
    if |listing| > 0 && listing[0].tx in d.transactions {
      var first := RecoverTx(d, listing[0]);
      RecoverTxRefills(d, listing[0]);
      if first.result.Ok? {
        var d1 := End(d, first.writes);
        RecoverRefills(d1, listing[1..]);
        var rest := Recover(d1, listing[1..]);
        assert End(d, first.writes + rest.writes) == End(d1, rest.writes);
      }
    }
  }

  /** The operation runs to its end. */
  ghost predicate WholeStep(d: Disk, d': Disk) {
    exists op: Op :: d' == End(d, Writes(d, op))
  }

  ghost predicate WholeSteps(run: seq<Disk>) {
    forall j, k :: 0 <= j < |run| - 1 && k == j + 1 ==> WholeStep(run[j], run[k])
  }

  lemma WholeStepRefills(d: Disk, d': Disk)
    requires NoneEmptied(d) && WholeStep(d, d')
    ensures NoneEmptied(d')
  {
    var op: Op :| d' == End(d, Writes(d, op));
    match op
    case DoStage(_, _) =>
    case DoCommit(tx) => CommitRefills(d, tx);
    case DoRecover(listing) => RecoverRefills(d, listing);
    case DoActivate(_, _) =>
  }

  /** Only a crash blocks: in a run whose operations all end, recovery never fails. */
  lemma WholeRunsRecover(book: Book, run: seq<Disk>, n: nat, listing: seq<Entry>)
    requires IsRun(book, run) && WholeSteps(run) && n < |run| && Lists(run[n], listing)
    ensures Recover(run[n], listing).result.Ok?
  {
    WholeRunRefills(run, n);
    RunKeeps(book, run, n);
    RecoverySettles(book, run[n], listing);
  }

  lemma {:induction false} WholeRunRefills(run: seq<Disk>, n: nat)
    requires n < |run| && Fresh(run[0]) && WholeSteps(run)
    ensures NoneEmptied(run[n])
  {
    if n > 0 {
      WholeRunRefills(run, n - 1);
      assert WholeStep(run[n - 1], run[n]);
      WholeStepRefills(run[n - 1], run[n]);
    }
  }
}
