/** What one pass of recovery does to any reachable disk, and after a crash in particular. */
module InstallRecovery {
  import opened Results
  import opened Install
  import opened InstallSafety

  predicate Unfinished(t: Tx) { t.journal.Some? && t.journal.value.phase != Committed }

  predicate Settled(t: Tx) { t.journal.Some? && t.journal.value.phase == Committed }

  ghost predicate AllSettled(d: Disk) {
    forall tx :: tx in d.transactions ==> Settled(d.transactions[tx])
  }

  /** The one disk state recovery cannot read: an unfinished transaction whose generation is
      durable while its staged directory has lost its document but not yet itself. */
  predicate Blocked(d: Disk, t: Tx) {
    Unfinished(t) && t.journal.value.generation in d.generations && t.staged.Emptied?
  }

  /** The pointer once a transaction has been dealt with. */
  function PointerAfter(d: Disk, t: Tx): Option<Id> {
    if Unfinished(t) && t.journal.value.generation in d.generations && d.active == t.journal.value.base
    then Some(t.journal.value.generation) else d.active
  }

  ghost predicate OthersKept(d: Disk, d': Disk, tx: TxId) {
    && d'.generations == d.generations
    && forall other :: other != tx ==>
         (other in d'.transactions <==> other in d.transactions)
         && (other in d.transactions ==> d'.transactions[other] == d.transactions[other])
  }

  lemma RecoverTxSpec(book: Book, d: Disk, e: Entry)
    requires Inv(book, d) && e.tx in d.transactions
    ensures var o := RecoverTx(d, e);
      var d' := End(d, o.writes);
      && (o.result.Ok? <==> !Blocked(d, d.transactions[e.tx]))
      && OthersKept(d, d', e.tx)
      && (o.result.Err? ==> d' == d)
      && (o.result.Ok? ==>
            && (e.tx in d'.transactions ==> Settled(d'.transactions[e.tx]))
            && d'.active == PointerAfter(d, d.transactions[e.tx]))
  {
    var t := d.transactions[e.tx];
    assert TxOk(book, d, t);
    RemoveTxGood(book, d, e.tx, e.journalFirst);
  }

  ghost predicate Present(d: Disk, listing: seq<Entry>) {
    forall k :: 0 <= k < |listing| ==> listing[k].tx in d.transactions
  }

  ghost predicate Readable(d: Disk, listing: seq<Entry>)
    requires Present(d, listing)
  {
    forall k :: 0 <= k < |listing| ==> !Blocked(d, d.transactions[listing[k].tx])
  }

  ghost predicate Listed(listing: seq<Entry>, tx: TxId) {
    exists k :: 0 <= k < |listing| && listing[k].tx == tx
  }

  /** The rest of a listing is untouched by its first entry. */
  lemma TailPresent(d: Disk, d': Disk, listing: seq<Entry>)
    requires listing != [] && Distinct(listing) && Present(d, listing) && OthersKept(d, d', listing[0].tx)
    ensures Distinct(listing[1..]) && Present(d', listing[1..])
    ensures Readable(d', listing[1..]) <==>
      forall k :: 1 <= k < |listing| ==> !Blocked(d, d.transactions[listing[k].tx])
    ensures !Listed(listing[1..], listing[0].tx)
    ensures forall tx :: Listed(listing, tx) <==> tx == listing[0].tx || Listed(listing[1..], tx)
  {
    var rest := listing[1..];
    forall k | 0 <= k < |rest|
      ensures rest[k].tx in d'.transactions && d'.transactions[rest[k].tx] == d.transactions[rest[k].tx]
    {
      assert rest[k] == listing[k + 1];
    }
    if Readable(d', rest) {
      forall k | 1 <= k < |listing|
        ensures !Blocked(d, d.transactions[listing[k].tx])
      {
        assert rest[k - 1] == listing[k];
      }
    }
    forall tx
      ensures Listed(listing, tx) <==> tx == listing[0].tx || Listed(rest, tx)
    {
      if Listed(listing, tx) {
        var k :| 0 <= k < |listing| && listing[k].tx == tx;
        assert k > 0 ==> rest[k - 1].tx == tx;
      }
      if Listed(rest, tx) {
        var k :| 0 <= k < |rest| && rest[k].tx == tx;
        assert listing[k + 1].tx == tx;
      }
    }
  }

  /** Everything on the listing ends settled or gone; nothing else changes. */
  ghost predicate Cleared(d: Disk, d': Disk, listing: seq<Entry>) {
    && d'.generations == d.generations
    && (forall tx :: Listed(listing, tx) && tx in d'.transactions ==> Settled(d'.transactions[tx]))
    && (forall tx :: !Listed(listing, tx) ==>
          (tx in d'.transactions <==> tx in d.transactions)
          && (tx in d.transactions ==> d'.transactions[tx] == d.transactions[tx]))
  }

  lemma {:induction false} RecoverSpec(book: Book, d: Disk, listing: seq<Entry>, o: Outcome<seq<Action>>)
    requires Inv(book, d) && Distinct(listing) && Present(d, listing) && o == Recover(d, listing)
    ensures o.result.Ok? <==> Readable(d, listing)
    ensures o.result.Ok? ==> Cleared(d, End(d, o.writes), listing)
    decreases |listing|
  {
    if |listing| > 0 {
      var first := RecoverTx(d, listing[0]);
      var d1 := End(d, first.writes);
      RecoverTxSpec(book, d, listing[0]);
      TailPresent(d, d1, listing);
      if first.result.Ok? {
        RecoverTxGood(book, d, listing[0]);
        GoodEnd(book, d, first.writes);
        var rest := Recover(d1, listing[1..]);
        RecoverSpec(book, d1, listing[1..], rest);
        RecoverGood(book, d1, listing[1..]);
        GoodConcat(book, d, first.writes, rest.writes);
        if rest.result.Ok? {
          ClearedChain(d, d1, End(d1, rest.writes), listing);
        }
      }
    }
  }

  lemma ClearedChain(d: Disk, d1: Disk, d2: Disk, listing: seq<Entry>)
    requires listing != [] && Distinct(listing) && Present(d, listing) && OthersKept(d, d1, listing[0].tx)
    requires listing[0].tx in d1.transactions ==> Settled(d1.transactions[listing[0].tx])
    requires Cleared(d1, d2, listing[1..])
    ensures Cleared(d, d2, listing)
  {
    TailPresent(d, d1, listing);
  }

  lemma ListsPresent(d: Disk, listing: seq<Entry>)
    requires Lists(d, listing)
    ensures Present(d, listing) && Distinct(listing)
    ensures forall tx :: Listed(listing, tx) <==> tx in d.transactions
  {
  }

  /** Recovery of any reachable disk succeeds exactly when no transaction is blocked, and then
      every surviving journal is committed, whatever the order of the listing. */
  lemma RecoverySettles(book: Book, d: Disk, listing: seq<Entry>)
    requires Inv(book, d) && Lists(d, listing)
    ensures var o := Recover(d, listing);
      && (o.result.Ok? <==> forall tx :: tx in d.transactions ==> !Blocked(d, d.transactions[tx]))
      && (o.result.Ok? ==> AllSettled(End(d, o.writes)))
  {
    ListsPresent(d, listing);
    RecoverSpec(book, d, listing, Recover(d, listing));
    if Readable(d, listing) {
      forall tx | tx in d.transactions
        ensures !Blocked(d, d.transactions[tx])
      {
        var k :| 0 <= k < |listing| && listing[k].tx == tx;
      }
    }
  }

  // ---------------------------------------------------------------- a further pass

  lemma SettledTx(book: Book, d: Disk, e: Entry)
    requires Inv(book, d) && e.tx in d.transactions && Settled(d.transactions[e.tx])
    ensures var o := RecoverTx(d, e);
      && o.result.Ok? && OthersKept(d, End(d, o.writes), e.tx)
      && e.tx in End(d, o.writes).transactions
      && End(d, o.writes).transactions[e.tx].journal == d.transactions[e.tx].journal
      && forall k :: 0 <= k <= |o.writes| ==> At(d, o.writes, k).active == d.active
  {
    RecoverTxSpec(book, d, e);
  }

  lemma AtConcat(d: Disk, a: seq<Disk>, b: seq<Disk>, k: nat)
    requires k <= |a + b|
    ensures At(d, a + b, k) == if k <= |a| then At(d, a, k) else At(End(d, a), b, k - |a|)
  {
  }

  lemma {:induction false} SettledRecover(book: Book, d: Disk, listing: seq<Entry>, o: Outcome<seq<Action>>)
    requires Inv(book, d) && AllSettled(d) && o == Recover(d, listing)
    ensures forall k :: 0 <= k <= |o.writes| ==> At(d, o.writes, k).active == d.active
    decreases |listing|
  {
    if |listing| > 0 && listing[0].tx in d.transactions {
      var first := RecoverTx(d, listing[0]);
      var d1 := End(d, first.writes);
      SettledTx(book, d, listing[0]);
      RecoverTxGood(book, d, listing[0]);
      GoodEnd(book, d, first.writes);
      assert d1.active == At(d, first.writes, |first.writes|).active;
      var rest := Recover(d1, listing[1..]);
      SettledRecover(book, d1, listing[1..], rest);
      forall k | 0 <= k <= |o.writes|
        ensures At(d, o.writes, k).active == d.active
      {
        AtConcat(d, first.writes, rest.writes, k);
      }
    }
  }

  /** After one successful pass a further pass, cut short or not, never moves the pointer. */
  lemma SecondPassIsQuiet(book: Book, d: Disk, listing: seq<Entry>, again: seq<Entry>, k: nat)
    requires Inv(book, d) && Lists(d, listing) && Recover(d, listing).result.Ok?
    requires k <= |Recover(End(d, Recover(d, listing).writes), again).writes|
    ensures var d1 := End(d, Recover(d, listing).writes);
      At(d1, Recover(d1, again).writes, k).active == d1.active
  {
    RecoverySettles(book, d, listing);
    RecoverGood(book, d, listing);
    GoodEnd(book, d, Recover(d, listing).writes);
    var d1 := End(d, Recover(d, listing).writes);
    SettledRecover(book, d1, again, Recover(d1, again));
  }

  // ---------------------------------------------------------------- one transaction in progress

  /** Every transaction but `tx` is settled. */
  ghost predicate OnlyOpen(d: Disk, tx: TxId) {
    forall other :: other in d.transactions && other != tx ==> Settled(d.transactions[other])
  }

  lemma {:induction false} PointerWithoutTx(book: Book, d: Disk, listing: seq<Entry>, tx: TxId, o: Outcome<seq<Action>>)
    requires Inv(book, d) && OnlyOpen(d, tx) && !Listed(listing, tx) && o == Recover(d, listing)
    ensures End(d, o.writes).active == d.active
    decreases |listing|
  {
    if |listing| > 0 && listing[0].tx in d.transactions {
      assert Listed(listing, listing[0].tx);
      var first := RecoverTx(d, listing[0]);
      var d1 := End(d, first.writes);
      RecoverTxSpec(book, d, listing[0]);
      RecoverTxGood(book, d, listing[0]);
      GoodEnd(book, d, first.writes);
      assert forall k :: 0 <= k < |listing[1..]| ==> listing[1..][k] == listing[k + 1];
      var rest := Recover(d1, listing[1..]);
      PointerWithoutTx(book, d1, listing[1..], tx, rest);
      RecoverGood(book, d1, listing[1..]);
      GoodConcat(book, d, first.writes, rest.writes);
    }
  }

  lemma {:induction false} PointerWithTx(book: Book, d: Disk, listing: seq<Entry>, tx: TxId, o: Outcome<seq<Action>>)
    requires Inv(book, d) && OnlyOpen(d, tx) && Distinct(listing) && Present(d, listing) && Listed(listing, tx)
    requires o == Recover(d, listing) && o.result.Ok?
    ensures tx in d.transactions && End(d, o.writes).active == PointerAfter(d, d.transactions[tx])
    decreases |listing|
  {
    var first := RecoverTx(d, listing[0]);
    var d1 := End(d, first.writes);
    RecoverTxSpec(book, d, listing[0]);
    RecoverTxGood(book, d, listing[0]);
    GoodEnd(book, d, first.writes);
    TailPresent(d, d1, listing);
    var rest := Recover(d1, listing[1..]);
    RecoverGood(book, d1, listing[1..]);
    GoodConcat(book, d, first.writes, rest.writes);
    if listing[0].tx == tx {
      PointerWithoutTx(book, d1, listing[1..], tx, rest);
    } else {
      PointerWithTx(book, d1, listing[1..], tx, rest);
    }
  }

  /** With one transaction open, recovery ends at its generation if that is durable and the
      pointer is still the transaction's base, and otherwise leaves the pointer alone. */
  lemma RecoveryPointer(book: Book, d: Disk, listing: seq<Entry>, tx: TxId)
    requires Inv(book, d) && Lists(d, listing) && OnlyOpen(d, tx) && Recover(d, listing).result.Ok?
    ensures End(d, Recover(d, listing).writes).active ==
      if tx in d.transactions then PointerAfter(d, d.transactions[tx]) else d.active
  {
    ListsPresent(d, listing);
    if tx in d.transactions {
      PointerWithTx(book, d, listing, tx, Recover(d, listing));
    } else {
      PointerWithoutTx(book, d, listing, tx, Recover(d, listing));
    }
  }

  // ---------------------------------------------------------------- crash, then recover

  /** A disk somewhere in the middle of staging `tx`. */
  lemma StageMid(d: Disk, tx: TxId, g: Generation, k: nat)
    requires AllSettled(d) && tx !in d.transactions && k <= |Stage(d, tx, g).writes|
    ensures var m := At(d, Stage(d, tx, g).writes, k);
      && OnlyOpen(m, tx) && m.generations == d.generations && m.active == d.active
      && (tx in m.transactions ==>
            && !Settled(m.transactions[tx])
            && (Unfinished(m.transactions[tx]) ==> m.transactions[tx].journal.value.generation !in d.generations))
  {
  }

  /** A crash anywhere in staging: recovery succeeds, drops the transaction and leaves the
      pointer and every durable generation alone. */
  lemma CrashedStaging(book: Book, d: Disk, tx: TxId, g: Generation, k: nat, listing: seq<Entry>)
    requires Inv(book, d) && AllSettled(d) && tx !in d.transactions && g == book(g.id)
    requires k <= |Stage(d, tx, g).writes| && Lists(At(d, Stage(d, tx, g).writes, k), listing)
    ensures var crashed := At(d, Stage(d, tx, g).writes, k);
      var o := Recover(crashed, listing);
      && o.result.Ok? && AllSettled(End(crashed, o.writes)) && tx !in End(crashed, o.writes).transactions
      && End(crashed, o.writes).active == d.active && End(crashed, o.writes).generations == d.generations
  {
    var crashed := At(d, Stage(d, tx, g).writes, k);
    StageMid(d, tx, g, k);
    StageGood(book, d, tx, g);
    GoodPrefix(book, d, Stage(d, tx, g).writes, k);
    RecoverySettles(book, crashed, listing);
    RecoveryPointer(book, crashed, listing, tx);
    ListsPresent(crashed, listing);
    RecoverSpec(book, crashed, listing, Recover(crashed, listing));
    RecoverDrops(book, crashed, listing, tx, Recover(crashed, listing));
  }

  /** An unfinished or journal-less transaction whose generation is not durable is removed. */
  lemma {:induction false} RecoverDrops(book: Book, d: Disk, listing: seq<Entry>, tx: TxId, o: Outcome<seq<Action>>)
    requires Inv(book, d) && Distinct(listing) && Present(d, listing) && o == Recover(d, listing) && o.result.Ok?
    requires tx in d.transactions ==>
      && Listed(listing, tx) && !Settled(d.transactions[tx])
      && (Unfinished(d.transactions[tx]) ==> d.transactions[tx].journal.value.generation !in d.generations)
    ensures tx !in End(d, o.writes).transactions
    decreases |listing|
  {
    if |listing| > 0 {
      var first := RecoverTx(d, listing[0]);
      var d1 := End(d, first.writes);
      RecoverTxSpec(book, d, listing[0]);
      RecoverTxGood(book, d, listing[0]);
      RemoveTxGood(book, d, listing[0].tx, listing[0].journalFirst);
      GoodEnd(book, d, first.writes);
      TailPresent(d, d1, listing);
      var rest := Recover(d1, listing[1..]);
      RecoverGood(book, d1, listing[1..]);
      GoodConcat(book, d, first.writes, rest.writes);
      RecoverDrops(book, d1, listing[1..], tx, rest);
    }
  }

  /** A disk somewhere in the middle of committing `tx`, which began on disk `d`. */
  ghost predicate MidCommit(d: Disk, m: Disk, tx: TxId, j: Journal) {
    && tx in d.transactions && tx in m.transactions && m.transactions[tx].journal.Some?
    && m.transactions[tx].journal.value.generation == j.generation && m.transactions[tx].journal.value.base == j.base
    && (forall other :: other != tx ==>
          (other in m.transactions <==> other in d.transactions)
          && (other in d.transactions ==> m.transactions[other] == d.transactions[other]))
    && (j.generation in d.generations ==> j.generation in m.generations)
    && (m.active == d.active || (m.active == Some(j.generation) && d.active == j.base && j.generation in m.generations))
    && (Settled(m.transactions[tx]) ==> m.active == Some(j.generation))
    && (m.transactions[tx].staged.Emptied? ==> j.generation in d.generations || d.transactions[tx].staged.Emptied?)
  }

  lemma DurableMid(d: Disk, tx: TxId, k: nat)
    requires tx in d.transactions && Unfinished(d.transactions[tx])
    requires k <= |MakeDurable(d, tx, d.transactions[tx].journal.value).writes|
    ensures var j := d.transactions[tx].journal.value;
      var o := MakeDurable(d, tx, j);
      && MidCommit(d, At(d, o.writes, k), tx, j)
      && At(d, o.writes, k).active == d.active && At(d, o.writes, k).transactions[tx].journal == Some(j)
      && (o.result.Ok? && k == |o.writes| ==>
            At(d, o.writes, k).transactions[tx].staged.Absent? && j.generation in At(d, o.writes, k).generations)
  {
  }

  lemma PublishMid(d: Disk, e: Disk, tx: TxId, j: Journal, k: nat)
    requires tx in d.transactions && MidCommit(d, e, tx, j) && e.active == d.active
    requires e.transactions[tx].journal == Some(j) && j.phase != Committed
    requires e.transactions[tx].staged.Absent? && j.generation in e.generations
    requires k <= |Publish(e, tx, j).writes|
    ensures MidCommit(d, At(e, Publish(e, tx, j).writes, k), tx, j)
  {
  }

  lemma CommitMid(d: Disk, tx: TxId, k: nat)
    requires tx in d.transactions && Unfinished(d.transactions[tx]) && k <= |Commit(d, tx).writes|
    ensures MidCommit(d, At(d, Commit(d, tx).writes, k), tx, d.transactions[tx].journal.value)
  {
    var j := d.transactions[tx].journal.value;
    var durable := MakeDurable(d, tx, j);
    DurableMid(d, tx, 0);
    if ValidTxId(tx) {
      if durable.result.Err? {
        DurableMid(d, tx, k);
      } else {
        DurableKeepsJournal(d, tx, j);
        DurableMid(d, tx, |durable.writes|);
        var e := End(d, durable.writes);
        var published := Publish(e, tx, j);
        AtConcat(d, durable.writes, published.writes, k);
        if k <= |durable.writes| {
          DurableMid(d, tx, k);
        } else {
          PublishMid(d, e, tx, j, k - |durable.writes|);
        }
      }
    }
  }

  /** A crash anywhere in committing `tx`. Recovery can be refused only where the generation
      was already durable under another transaction; otherwise it succeeds. Its outcome is the
      new generation exactly when the rename had happened and the pointer had been the base. */
  lemma CrashedCommit(book: Book, d: Disk, tx: TxId, k: nat, listing: seq<Entry>)
    requires Inv(book, d) && OnlyOpen(d, tx) && tx in d.transactions && Unfinished(d.transactions[tx])
    requires k <= |Commit(d, tx).writes| && Lists(At(d, Commit(d, tx).writes, k), listing)
    ensures var j := d.transactions[tx].journal.value;
      var crashed := At(d, Commit(d, tx).writes, k);
      var o := Recover(crashed, listing);
      && (o.result.Ok? <==> !Blocked(crashed, crashed.transactions[tx]))
      && (j.generation !in d.generations && !d.transactions[tx].staged.Emptied? ==> o.result.Ok?)
      && (o.result.Ok? ==>
            && AllSettled(End(crashed, o.writes))
            && End(crashed, o.writes).active ==
               if j.generation in crashed.generations && d.active == j.base then Some(j.generation) else d.active)
  {
    var crashed := At(d, Commit(d, tx).writes, k);
    CommitMid(d, tx, k);
    CommitGood(book, d, tx);
    GoodPrefix(book, d, Commit(d, tx).writes, k);
    RecoverySettles(book, crashed, listing);
    if Recover(crashed, listing).result.Ok? { RecoveryPointer(book, crashed, listing, tx); }
  }

  // ---------------------------------------------------------------- the blocked state is real

  function Name(c: char): TxId { [c] }

  /** Two transactions staging the same generation, the first committed, the second cut short
      while it clears its own staged copy: recovery then fails, and goes on failing. */
  lemma BlockedIsReachable(g: Generation)
    requires g.previous == None
    ensures var a, b := Name('a'), Name('b');
      var d0 := Disk(None, map[], map[]);
      var d1 := End(d0, Stage(d0, a, g).writes);
      var d2 := End(d1, Stage(d1, b, g).writes);
      var d3 := End(d2, Commit(d2, a).writes);
      && |Commit(d3, b).writes| > 0
      && var crashed := At(d3, Commit(d3, b).writes, 1);
      && b in crashed.transactions && Blocked(crashed, crashed.transactions[b])
      && RecoverTx(crashed, Entry(b, true)) == Stop(Io)
  {
    var a, b := Name('a'), Name('b');
    assert ValidTxId(a) && ValidTxId(b) && a != b;
    var d0 := Disk(None, map[], map[]);
    var d1 := End(d0, Stage(d0, a, g).writes);
    var staged := Tx(Holds(g), Some(Journal(g.id, None, StagedPhase)));
    assert d1 == Disk(None, map[], map[a := staged]);
    var d2 := End(d1, Stage(d1, b, g).writes);
    assert d2 == d1.WithTx(b, staged);
    var r := Renamed(d2, a, g);
    var d3 := End(d2, Commit(d2, a).writes);
    assert d3.generations == map[g.id := g] && d3.transactions[b] == staged && d3.active == Some(g.id);
    var j := staged.journal.value;
    assert MakeDurable(d3, b, j).writes == RemoveStaged(d3, b);
    assert Commit(d3, b).writes[0] == d3.WithTx(b, staged.(staged := Emptied));
  }
}
