/** The activation store as an object over its disk. Every durable write goes through one
    method, which also records it in the ghost history the contracts speak about. */
module InstallStores {
  import opened Results
  import opened Install

  class InstallStore {
    var active: Option<Id>
    var generations: map<Id, Generation>
    var transactions: map<TxId, Tx>
    /** Every disk content this object has been through, by durable write. */
    ghost var history: seq<Disk>

    function Contents(): Disk
      reads this
    {
      Disk(active, generations, transactions)
    }

    constructor (d: Disk)
      ensures Contents() == d && history == []
    {
      active, generations, transactions := d.active, d.generations, d.transactions;
      history := [];
    }

    method WriteActivePointer(id: Id)
      modifies this
      ensures Contents() == old(Contents()).(active := Some(id))
      ensures history == old(history) + [Contents()]
    {
      active := Some(id);
      history := history + [Contents()];
    }

    /** A write below one transaction directory; `start` is the disk before the first of them. */
    method WriteTransaction(tx: TxId, t: Tx, ghost start: Disk)
      requires Contents() == start || (tx in transactions && Contents() == start.WithTx(tx, transactions[tx]))
      modifies this
      ensures Contents() == start.WithTx(tx, t)
      ensures history == old(history) + [Contents()]
    {
      assert transactions[tx := t] == start.transactions[tx := t];
      transactions := transactions[tx := t];
      history := history + [Contents()];
    }

    method WritePhase(tx: TxId, phase: TxPhase)
      requires tx in transactions && transactions[tx].journal.Some?
      modifies this
      ensures Contents() == old(Contents()).WithPhase(tx, phase)
      ensures history == old(history) + [Contents()]
    {
      WriteTransaction(tx, transactions[tx].(journal := Some(transactions[tx].journal.value.(phase := phase))),
        Contents());
    }

    /** Removes what the staged directory holds and then the directory. */
    method RemoveStagedEntries(tx: TxId, ghost start: Disk)
      requires tx in transactions && Contents() == start.WithTx(tx, transactions[tx])
      modifies this
      ensures tx in transactions && transactions[tx] == old(transactions[tx]).(staged := Absent)
      ensures Contents() == start.WithTx(tx, transactions[tx])
      ensures history == old(history) + OnDisk(start, tx, StripStaged(old(transactions[tx])))
    {
      ghost var before := history;
      var t := transactions[tx];
      if t.staged.Holds? { WriteTransaction(tx, t.(staged := Emptied), start); }
      if !t.staged.Absent? { WriteTransaction(tx, t.(staged := Absent), start); }
      assert history == before + OnDisk(start, tx, StripStaged(t));
    }

    method RemoveJournal(tx: TxId, ghost start: Disk)
      requires tx in transactions && Contents() == start.WithTx(tx, transactions[tx])
      modifies this
      ensures tx in transactions && transactions[tx] == old(transactions[tx]).(journal := None)
      ensures Contents() == start.WithTx(tx, transactions[tx])
      ensures history == old(history) + OnDisk(start, tx, StripJournal(old(transactions[tx])))
    {
      ghost var before := history;
      var t := transactions[tx];
      if t.journal.Some? { WriteTransaction(tx, t.(journal := None), start); }
      assert history == before + OnDisk(start, tx, StripJournal(t));
    }

    method RemoveStagedTree(tx: TxId)
      requires tx in transactions
      modifies this
      ensures history == old(history) + RemoveStaged(old(Contents()), tx)
      ensures Contents() == End(old(Contents()), RemoveStaged(old(Contents()), tx))
    {
      ghost var d := Contents();
      SameTx(d, tx);
      RemoveStagedEntries(tx, d);
    }

    method RemoveTransactionTree(tx: TxId, journalFirst: bool)
      requires tx in transactions
      modifies this
      ensures history == old(history) + RemoveTx(old(Contents()), tx, journalFirst)
      ensures Contents() == old(Contents()).WithoutTx(tx)
    {
      ghost var d, before, t := Contents(), history, transactions[tx];
      SameTx(d, tx);
      if journalFirst {
        RemoveJournal(tx, d);
        RemoveStagedEntries(tx, d);
        OnDiskConcat(d, tx, StripJournal(t), StripStaged(t.(journal := None)));
      } else {
        RemoveStagedEntries(tx, d);
        RemoveJournal(tx, d);
        OnDiskConcat(d, tx, StripStaged(t), StripJournal(t.(staged := Absent)));
      }
      assert history == before + OnDisk(d, tx, StripTx(t, journalFirst));
      transactions := transactions - {tx};
      assert transactions == d.transactions - {tx};
      history := history + [Contents()];
      assert history == before + (OnDisk(d, tx, StripTx(t, journalFirst)) + [Contents()]);
    }

    method StageGeneration(tx: TxId, g: Generation) returns (r: Result<(), ErrorCode>)
      modifies this
      ensures var o := Stage(old(Contents()), tx, g);
        && r == o.result && history == old(history) + o.writes && Contents() == End(old(Contents()), o.writes)
    {
      ghost var d, before := Contents(), history;
      if !ValidTxId(tx) { return Err(Path); }
      if active != g.previous { return Err(Conflict); }
      if tx in transactions {
        return StagedAgain(Contents(), transactions[tx], g);
      }
      if g.id in generations { return Err(Conflict); }
      WriteTransaction(tx, Tx(Absent, None), d);
      WriteTransaction(tx, Tx(Emptied, None), d);
      WriteTransaction(tx, Tx(Holds(g), None), d);
      WriteTransaction(tx, Tx(Holds(g), Some(Journal(g.id, g.previous, StagedPhase))), d);
      assert history == before + OnDisk(d, tx, StageStates(g));
      r := Ok(());
    }

    /** The first half of a commit, up to the durable generation. */
    method SettleGeneration(tx: TxId, j: Journal) returns (r: Result<(), ErrorCode>)
      requires tx in transactions
      modifies this
      ensures var o := MakeDurable(old(Contents()), tx, j);
        && r == o.result && history == old(history) + o.writes && Contents() == End(old(Contents()), o.writes)
    {
      var staged := transactions[tx].staged;
      if j.generation in generations {
        var durable := Contents().Load(j.generation);
        if durable.Err? { return Err(durable.error); }
        if staged.Emptied? { return Err(Io); }
        if staged.Holds? {
          if Disagrees(staged.generation, durable.value, j) { return Err(Conflict); }
          RemoveStagedTree(tx);
        }
      } else {
        if staged.Absent? { return Err(Recovery); }
        if staged.Emptied? { return Err(Io); }
        var g := staged.generation;
        if g.id != j.generation || g.previous != j.base { return Err(Recovery); }
        generations := generations[j.generation := g];
        transactions := transactions[tx := transactions[tx].(staged := Absent)];
        history := history + [Contents()];
      }
      r := Ok(());
    }

    method CommitGeneration(tx: TxId) returns (r: Result<CommitOutcome, ErrorCode>)
      modifies this
      ensures var o := Commit(old(Contents()), tx);
        && r == o.result && history == old(history) + o.writes && Contents() == End(old(Contents()), o.writes)
    {
      ghost var d, before := Contents(), history;
      if !ValidTxId(tx) { return Err(Path); }
      if tx !in transactions || transactions[tx].journal.None? { return Err(Io); }
      var j := transactions[tx].journal.value;
      if j.phase == Committed { return Ok(AlreadyCommitted); }
      var settled := SettleGeneration(tx, j);
      if settled.Err? { return Err(settled.error); }
      DurableKeepsJournal(d, tx, j);
      ghost var e, middle := Contents(), history;
      WritePhase(tx, GenerationDurable);
      if active == Some(j.generation) {
        WritePhase(tx, Committed);
        r := Ok(AlreadyActive);
      } else if active != j.base {
        r := Err(Conflict);
      } else {
        WriteActivePointer(j.generation);
        WritePhase(tx, Committed);
        r := Ok(CommitDone);
      }
      assert history == middle + Publish(e, tx, j).writes;
    }

    /** The body of the recovery loop. */
    method RecoverTransaction(entry: Entry) returns (r: Result<Action, ErrorCode>)
      requires entry.tx in transactions
      modifies this
      ensures var o := RecoverTx(old(Contents()), entry);
        && r == o.result && history == old(history) + o.writes && Contents() == End(old(Contents()), o.writes)
    {
      var tx := entry.tx;
      var t := transactions[tx];
      if t.journal.None? {
        RemoveTransactionTree(tx, entry.journalFirst);
        return Ok(RemovedOrphan);
      }
      var j := t.journal.value;
      if j.phase == Committed {
        RemoveStagedTree(tx);
        return Ok(WasCommitted);
      }
      if j.generation !in generations {
        RemoveTransactionTree(tx, entry.journalFirst);
        return Ok(if t.staged.Absent? then RemovedOrphan else AbortedStaging);
      }
      var durable := Contents().Load(j.generation);
      if durable.Err? { return Err(durable.error); }
      if t.staged.Emptied? { return Err(Io); }
      if t.staged.Holds? && Disagrees(t.staged.generation, durable.value, j) { return Err(Recovery); }
      if active == Some(j.generation) {
        WritePhase(tx, Committed);
        r := Ok(RecordedCommit);
      } else if active == j.base {
        WriteActivePointer(j.generation);
        WritePhase(tx, Committed);
        r := Ok(CompletedCommit);
      } else {
        RemoveTransactionTree(tx, entry.journalFirst);
        r := Ok(DiscardedConflict);
      }
    }

    /** The loop over the listing. `ds` and `outs` record the disks passed and what each
        transaction's recovery did. */
    method RecoverEach(listing: seq<Entry>)
      returns (r: Result<seq<Action>, ErrorCode>, ghost ds: seq<Disk>, ghost outs: seq<Outcome<Action>>)
      modifies this
      ensures Chain(ds, listing, outs) && ds[0] == old(Contents()) && Contents() == ds[|outs|]
      ensures history == old(history) + AllWrites(outs) && Verdict(ds, listing, outs, r)
    {
      var actions: seq<Action> := [];
      var k := 0;
      ds, outs := [Contents()], [];
      while k < |listing|
        invariant 0 <= k <= |listing| && |outs| == k
        invariant Chain(ds, listing, outs) && ds[0] == old(Contents()) && Contents() == ds[k]
        invariant history == old(history) + AllWrites(outs) && AllOk(outs) && actions == AllActions(outs)
      {
        if listing[k].tx !in transactions { return Err(Io), ds, outs; }
        ghost var o := RecoverTx(Contents(), listing[k]);
        var one := RecoverTransaction(listing[k]);
        ChainSnoc(ds, listing, outs, o, Contents());
        OutsSnoc(outs, o, outs + [o]);
        OkSnoc(outs, o, outs + [o]);
        AppendTwice(old(history), AllWrites(outs), o.writes);
        ds, outs := ds + [Contents()], outs + [o];
        if one.Err? { return Err(one.error), ds, outs; }
        actions := actions + [one.value];
        k := k + 1;
      }
      r := Ok(actions);
    }

    method RecoverAll(listing: seq<Entry>) returns (r: Result<seq<Action>, ErrorCode>)
      modifies this
      ensures var o := Recover(old(Contents()), listing);
        && r == o.result && history == old(history) + o.writes && Contents() == End(old(Contents()), o.writes)
    {
      ghost var ds, outs;
      r, ds, outs := RecoverEach(listing);
      ChainIsRecover(ds, listing, outs, r);
    }

    method ActivateExisting(target: Id, expected: Id) returns (r: Result<(), ErrorCode>)
      modifies this
      ensures var o := Activate(old(Contents()), target, expected);
        && r == o.result && history == old(history) + o.writes && Contents() == End(old(Contents()), o.writes)
    {
      var loaded := Contents().Load(target);
      if loaded.Err? { return Err(loaded.error); }
      if active != Some(expected) { return Err(Conflict); }
      WriteActivePointer(target);
      r := Ok(());
    }
  }

  lemma SameTx(d: Disk, tx: TxId)
    requires tx in d.transactions
    ensures d == d.WithTx(tx, d.transactions[tx])
  {
    assert d.transactions == d.transactions[tx := d.transactions[tx]];
  }

  lemma OnDiskConcat(d: Disk, tx: TxId, a: seq<Tx>, b: seq<Tx>)
    ensures OnDisk(d, tx, a + b) == OnDisk(d, tx, a) + OnDisk(d, tx, b)
  {
  }

  /** An outcome preceded by writes and actions already made. */
  function Resume(done: seq<Disk>, actions: seq<Action>, rest: Outcome<seq<Action>>): Outcome<seq<Action>> {
    Outcome(done + rest.writes, if rest.result.Ok? then Ok(actions + rest.result.value) else rest.result)
  }

  // -------------------------------------------------------------- a pass, step by step

  /** Recovering one transaction leads from one disk to the next. */
  ghost predicate Went(d: Disk, e: Entry, o: Outcome<Action>, next: Disk) {
    e.tx in d.transactions && o == RecoverTx(d, e) && next == End(d, o.writes)
  }

  ghost predicate Chain(ds: seq<Disk>, listing: seq<Entry>, outs: seq<Outcome<Action>>) {
    && |ds| == |outs| + 1 && |outs| <= |listing|
    && forall i, j :: 0 <= i < |outs| && j == i + 1 ==> Went(ds[i], listing[i], outs[i], ds[j])
  }

  function AllWrites(outs: seq<Outcome<Action>>): seq<Disk> {
    if |outs| == 0 then [] else AllWrites(outs[..|outs| - 1]) + outs[|outs| - 1].writes
  }

  ghost predicate AllOk(outs: seq<Outcome<Action>>) { forall i :: 0 <= i < |outs| ==> outs[i].result.Ok? }

  function AllActions(outs: seq<Outcome<Action>>): seq<Action> {
    if |outs| == 0 then []
    else AllActions(outs[..|outs| - 1]) + if outs[|outs| - 1].result.Ok? then [outs[|outs| - 1].result.value] else []
  }

  /** How the pass ends: at the end of the listing, at a failure, or at a transaction that is gone. */
  ghost predicate Verdict(ds: seq<Disk>, listing: seq<Entry>, outs: seq<Outcome<Action>>,
                          r: Result<seq<Action>, ErrorCode>)
    requires |ds| == |outs| + 1 && |outs| <= |listing|
  {
    var n := |outs|;
    || (r == Ok(AllActions(outs)) && AllOk(outs) && n == |listing|)
    || (r == Err(Io) && AllOk(outs) && n < |listing| && listing[n].tx !in ds[n].transactions)
    || (n > 0 && AllOk(outs[..n - 1]) && outs[n - 1].result.Err? && r == Err(outs[n - 1].result.error))
  }

  lemma ChainSnoc(ds: seq<Disk>, listing: seq<Entry>, outs: seq<Outcome<Action>>, o: Outcome<Action>, next: Disk)
    requires Chain(ds, listing, outs) && |outs| < |listing| && Went(ds[|outs|], listing[|outs|], o, next)
    ensures Chain(ds + [next], listing, outs + [o])
  {
    var n, es, more := |outs|, ds + [next], outs + [o];
    assert es[n] == ds[n] && es[n + 1] == next && more[n] == o;
    forall i, j | 0 <= i < n && j == i + 1
      ensures Went(es[i], listing[i], more[i], es[j])
    {
      assert es[i] == ds[i] && es[j] == ds[j] && more[i] == outs[i];
    }
  }

  lemma OutsSnoc(outs: seq<Outcome<Action>>, o: Outcome<Action>, more: seq<Outcome<Action>>)
    requires more == outs + [o]
    ensures AllWrites(more) == AllWrites(outs) + o.writes
    ensures o.result.Ok? ==> AllActions(more) == AllActions(outs) + [o.result.value]
  {
    assert more[..|more| - 1] == outs && more[|more| - 1] == o;
  }

  lemma OkSnoc(outs: seq<Outcome<Action>>, o: Outcome<Action>, more: seq<Outcome<Action>>)
    requires more == outs + [o] && AllOk(outs)
    ensures AllOk(more[..|outs|]) && (o.result.Ok? ==> AllOk(more))
  {
  }

  lemma AppendTwice(a: seq<Disk>, b: seq<Disk>, c: seq<Disk>)
    ensures (a + b) + c == a + (b + c)
  {
  }

  /** The pass so far, followed by a pass over the rest of the listing, is the whole pass. */
  lemma {:induction false} ChainResumes(ds: seq<Disk>, listing: seq<Entry>, outs: seq<Outcome<Action>>, k: nat)
    requires Chain(ds, listing, outs) && k <= |outs| && AllOk(outs[..k])
    ensures Recover(ds[0], listing) == Resume(AllWrites(outs[..k]), AllActions(outs[..k]), Recover(ds[k], listing[k..]))
    ensures ds[k] == End(ds[0], AllWrites(outs[..k]))
  {
    if k == 0 {
      assert listing[0..] == listing;
      ResumeNothing(AllWrites(outs[..k]), AllActions(outs[..k]), Recover(ds[0], listing));
    } else {
      var i := k - 1;
      assert outs[..k][..i] == outs[..i];
      assert AllOk(outs[..i]) && outs[..k][i] == outs[i];
      ChainResumes(ds, listing, outs, i);
      assert Went(ds[i], listing[i], outs[i], ds[k]);
      RecoverUnfold(ds[i], listing, i, AllWrites(outs[..i]), AllActions(outs[..i]));
      EndConcat(ds[0], AllWrites(outs[..i]), outs[i].writes);
    }
  }

  lemma ChainIsRecover(ds: seq<Disk>, listing: seq<Entry>, outs: seq<Outcome<Action>>,
                       r: Result<seq<Action>, ErrorCode>)
    requires Chain(ds, listing, outs) && Verdict(ds, listing, outs, r)
    ensures Recover(ds[0], listing) == Outcome(AllWrites(outs), r) && ds[|outs|] == End(ds[0], AllWrites(outs))
  {
    var n := |outs|;
    assert outs[..n] == outs;
    if AllOk(outs) {
      ChainResumes(ds, listing, outs, n);
      if n == |listing| { ResumeEnd(AllWrites(outs), AllActions(outs)); }
      else { assert AllWrites(outs) + [] == AllWrites(outs); }
    } else {
      var i := n - 1;
      ChainResumes(ds, listing, outs, i);
      assert Went(ds[i], listing[i], outs[i], ds[n]);
      RecoverUnfold(ds[i], listing, i, AllWrites(outs[..i]), AllActions(outs[..i]));
      EndConcat(ds[0], AllWrites(outs[..i]), outs[i].writes);
    }
  }

  lemma ResumeNothing(done: seq<Disk>, actions: seq<Action>, rest: Outcome<seq<Action>>)
    requires |done| == 0 && |actions| == 0
    ensures Resume(done, actions, rest) == rest
  {
    assert done + rest.writes == rest.writes;
    if rest.result.Ok? { assert actions + rest.result.value == rest.result.value; }
  }

  lemma ResumeEnd(done: seq<Disk>, actions: seq<Action>)
    ensures Resume(done, actions, Outcome([], Ok([]))) == Outcome(done, Ok(actions))
  {
    assert done + [] == done && actions + [] == actions;
  }

  lemma EndConcat(d: Disk, a: seq<Disk>, b: seq<Disk>)
    ensures End(d, a + b) == End(End(d, a), b)
  {
  }

  lemma RecoverUnfold(d: Disk, listing: seq<Entry>, k: nat, done: seq<Disk>, actions: seq<Action>)
    requires k < |listing| && listing[k].tx in d.transactions
    ensures var o := RecoverTx(d, listing[k]);
      Resume(done, actions, Recover(d, listing[k..])) ==
        if o.result.Err? then Outcome(done + o.writes, Err(o.result.error))
        else Resume(done + o.writes, actions + [o.result.value], Recover(End(d, o.writes), listing[k + 1..]))
  {
    var rest := listing[k..];
    assert rest[0] == listing[k] && rest[1..] == listing[k + 1..];
    var o := RecoverTx(d, listing[k]);
    if o.result.Ok? {
      var later := Recover(End(d, o.writes), listing[k + 1..]);
      assert done + (o.writes + later.writes) == (done + o.writes) + later.writes;
      if later.result.Ok? {
        assert actions + ([o.result.value] + later.result.value) == (actions + [o.result.value]) + later.result.value;
      }
    }
  }
}
