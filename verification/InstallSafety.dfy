/** Safety of the activation store over every run of stage, commit, recover and activate,
    each of them cut short after any number of its durable writes. */
module InstallSafety {
  import opened Results
  import opened Install

  /** Generation ids determine content: `book` is what each id stands for. */
  type Book = Id -> Generation

  ghost predicate BookOk(book: Book) { forall id: Id :: book(id).id == id }

  ghost predicate Durable(d: Disk, id: Option<Id>) { id.Some? ==> id.value in d.generations }

  ghost predicate GenerationsOk(book: Book, d: Disk) {
    forall id :: id in d.generations ==> d.generations[id] == book(id) && Durable(d, book(id).previous)
  }

  ghost predicate TxOk(book: Book, d: Disk, t: Tx) {
    && (t.staged.Holds? ==> t.staged.generation == book(t.staged.generation.id)
                            && Durable(d, t.staged.generation.previous))
    && (t.journal.Some? ==>
          var j := t.journal.value;
          && j.base == book(j.generation).previous && Durable(d, j.base)
          && (t.staged.Holds? ==> t.staged.generation.id == j.generation)
          && (j.phase == Committed ==> j.generation in d.generations))
  }

  /** What every reachable disk satisfies. */
  ghost predicate Inv(book: Book, d: Disk) {
    && BookOk(book)
    && Durable(d, d.active)
    && GenerationsOk(book, d)
    && forall tx :: tx in d.transactions ==> TxOk(book, d, d.transactions[tx])
  }

  ghost predicate Grows(d: Disk, d': Disk) {
    forall id :: id in d.generations ==> id in d'.generations && d'.generations[id] == d.generations[id]
  }

  /** A pointer move by commit or recovery: forward, from G to a generation that replaces G. */
  ghost predicate Replaces(d: Disk, d': Disk) {
    d'.active != d.active ==>
      && d'.active.Some? && d'.active.value in d'.generations
      && d'.generations[d'.active.value].previous == d.active
  }

  ghost predicate GoodWrite(book: Book, d: Disk, d': Disk) {
    Inv(book, d') && Grows(d, d') && Replaces(d, d')
  }

  function At(d: Disk, writes: seq<Disk>, k: nat): Disk
    requires k <= |writes|
  {
    if k == 0 then d else writes[k - 1]
  }

  ghost predicate GoodTrace(book: Book, d: Disk, writes: seq<Disk>) {
    forall j, k :: 0 <= j < |writes| && k == j + 1 ==> GoodWrite(book, At(d, writes, j), At(d, writes, k))
  }

  lemma GoodConcat(book: Book, d: Disk, first: seq<Disk>, second: seq<Disk>)
    requires GoodTrace(book, d, first) && GoodTrace(book, End(d, first), second)
    ensures GoodTrace(book, d, first + second)
    ensures End(d, first + second) == End(End(d, first), second)
  {
    var all := first + second;
    forall j, k | 0 <= j < |all| && k == j + 1
      ensures GoodWrite(book, At(d, all, j), At(d, all, k))
    {
      if j < |first| {
        assert At(d, all, j) == At(d, first, j) && At(d, all, k) == At(d, first, k);
      } else {
        var i := j - |first|;
        assert At(d, all, j) == At(End(d, first), second, i);
        assert At(d, all, k) == At(End(d, first), second, i + 1);
      }
    }
  }

  lemma GoodEnd(book: Book, d: Disk, writes: seq<Disk>)
    requires Inv(book, d) && GoodTrace(book, d, writes)
    ensures Inv(book, End(d, writes))
  {
    if |writes| > 0 {
      assert GoodWrite(book, At(d, writes, |writes| - 1), At(d, writes, |writes|));
    }
  }

  // ---------------------------------------------------------------- single writes

  lemma TxWrite(book: Book, d: Disk, d': Disk, tx: TxId, t: Tx)
    requires Inv(book, d) && TxOk(book, d, t) && d' == d.WithTx(tx, t)
    ensures GoodWrite(book, d, d')
  {
  }

  lemma TxWrites(book: Book, d: Disk, tx: TxId, states: seq<Tx>)
    requires Inv(book, d) && forall k :: 0 <= k < |states| ==> TxOk(book, d, states[k])
    ensures GoodTrace(book, d, OnDisk(d, tx, states))
  {
    var writes := OnDisk(d, tx, states);
    forall j, k | 0 <= j < |writes| && k == j + 1
      ensures GoodWrite(book, At(d, writes, j), At(d, writes, k))
    {
      TxWrite(book, d, writes[j], tx, states[j]);
    }
  }

  lemma StripOk(book: Book, d: Disk, t: Tx, journalFirst: bool)
    requires TxOk(book, d, t)
    ensures forall k :: 0 <= k < |StripTx(t, journalFirst)| ==> TxOk(book, d, StripTx(t, journalFirst)[k])
    ensures forall k :: 0 <= k < |StripStaged(t)| ==> TxOk(book, d, StripStaged(t)[k])
  {
  }

  lemma RemoveStagedGood(book: Book, d: Disk, tx: TxId)
    requires Inv(book, d) && tx in d.transactions
    ensures GoodTrace(book, d, RemoveStaged(d, tx))
  {
    StripOk(book, d, d.transactions[tx], true);
    TxWrites(book, d, tx, StripStaged(d.transactions[tx]));
  }

  lemma RemoveTxGood(book: Book, d: Disk, tx: TxId, journalFirst: bool)
    requires Inv(book, d) && tx in d.transactions
    ensures GoodTrace(book, d, RemoveTx(d, tx, journalFirst))
    ensures End(d, RemoveTx(d, tx, journalFirst)) == d.WithoutTx(tx)
  {
    var states := StripTx(d.transactions[tx], journalFirst);
    StripOk(book, d, d.transactions[tx], journalFirst);
    TxWrites(book, d, tx, states);
    var writes := OnDisk(d, tx, states);
    var last := End(d, writes);
    assert last.active == d.active && last.generations == d.generations;
    assert GoodTrace(book, last, [d.WithoutTx(tx)]) by {
      assert GoodWrite(book, last, d.WithoutTx(tx));
    }
    GoodConcat(book, d, writes, [d.WithoutTx(tx)]);
  }

  // ---------------------------------------------------------------- operations

  lemma StageGood(book: Book, d: Disk, tx: TxId, g: Generation)
    requires Inv(book, d) && g == book(g.id)
    ensures GoodTrace(book, d, Stage(d, tx, g).writes)
  {
    if |Stage(d, tx, g).writes| > 0 {
      StageStatesOk(book, d, g);
      TxWrites(book, d, tx, StageStates(g));
    }
  }

  lemma StageStatesOk(book: Book, d: Disk, g: Generation)
    requires Inv(book, d) && g == book(g.id) && g.previous == d.active
    ensures forall k :: 0 <= k < |StageStates(g)| ==> TxOk(book, d, StageStates(g)[k])
  {
  }

  lemma MakeDurableGood(book: Book, d: Disk, tx: TxId)
    requires Inv(book, d) && tx in d.transactions && d.transactions[tx].journal.Some?
    ensures var o := MakeDurable(d, tx, d.transactions[tx].journal.value);
      && GoodTrace(book, d, o.writes)
      && (o.result.Ok? ==> d.transactions[tx].journal.value.generation in End(d, o.writes).generations)
  {
    var j := d.transactions[tx].journal.value;
    var o := MakeDurable(d, tx, j);
    if j.generation in d.generations {
      RemoveStagedGood(book, d, tx);
    } else if |o.writes| > 0 {
      RenameGood(book, d, tx);
    }
  }

  lemma RenameGood(book: Book, d: Disk, tx: TxId)
    requires Inv(book, d) && tx in d.transactions && d.transactions[tx].journal.Some?
    requires d.transactions[tx].staged.Holds?
    requires d.transactions[tx].staged.generation.id !in d.generations
    ensures GoodWrite(book, d, Renamed(d, tx, d.transactions[tx].staged.generation))
  {
    var d' := Renamed(d, tx, d.transactions[tx].staged.generation);
    forall other | other in d'.transactions
      ensures TxOk(book, d', d'.transactions[other])
    {
      assert TxOk(book, d, d.transactions[other]);
    }
  }

  lemma PhaseGood(book: Book, d: Disk, tx: TxId, phase: TxPhase)
    requires Inv(book, d) && tx in d.transactions && d.transactions[tx].journal.Some?
    requires d.transactions[tx].journal.value.generation in d.generations
    ensures GoodWrite(book, d, d.WithPhase(tx, phase))
  {
    var t := d.transactions[tx].(journal := Some(d.transactions[tx].journal.value.(phase := phase)));
    assert TxOk(book, d, d.transactions[tx]);
    TxWrite(book, d, d.WithPhase(tx, phase), tx, t);
  }

  lemma PointGood(book: Book, d: Disk, tx: TxId)
    requires Inv(book, d) && tx in d.transactions && d.transactions[tx].journal.Some?
    requires d.transactions[tx].journal.value.generation in d.generations
    requires d.active == d.transactions[tx].journal.value.base
    ensures GoodWrite(book, d, d.(active := Some(d.transactions[tx].journal.value.generation)))
  {
    var d' := d.(active := Some(d.transactions[tx].journal.value.generation));
    assert TxOk(book, d, d.transactions[tx]);
    forall other | other in d'.transactions
      ensures TxOk(book, d', d'.transactions[other])
    {
      assert TxOk(book, d, d.transactions[other]);
    }
  }

  lemma PublishGood(book: Book, d: Disk, tx: TxId)
    requires Inv(book, d) && tx in d.transactions && d.transactions[tx].journal.Some?
    requires d.transactions[tx].journal.value.generation in d.generations
    ensures GoodTrace(book, d, Publish(d, tx, d.transactions[tx].journal.value).writes)
  {
    var j := d.transactions[tx].journal.value;
    PhaseGood(book, d, tx, GenerationDurable);
    var d1 := d.WithPhase(tx, GenerationDurable);
    if d1.active == Some(j.generation) {
      PhaseGood(book, d1, tx, Committed);
    } else if d1.active == j.base {
      PointGood(book, d1, tx);
      PhaseGood(book, d1.(active := Some(j.generation)), tx, Committed);
    }
  }

  lemma CommitGood(book: Book, d: Disk, tx: TxId)
    requires Inv(book, d)
    ensures GoodTrace(book, d, Commit(d, tx).writes)
  {
    if ValidTxId(tx) && tx in d.transactions && d.transactions[tx].journal.Some? {
      var j := d.transactions[tx].journal.value;
      var durable := MakeDurable(d, tx, j);
      MakeDurableGood(book, d, tx);
      if j.phase != Committed && durable.result.Ok? {
        DurableKeepsJournal(d, tx, j);
        var e := End(d, durable.writes);
        GoodEnd(book, d, durable.writes);
        PublishGood(book, e, tx);
        GoodConcat(book, d, durable.writes, Publish(e, tx, j).writes);
      }
    }
  }

  lemma RecoverTxGood(book: Book, d: Disk, e: Entry)
    requires Inv(book, d) && e.tx in d.transactions
    ensures GoodTrace(book, d, RecoverTx(d, e).writes)
  {
    var t := d.transactions[e.tx];
    RemoveTxGood(book, d, e.tx, e.journalFirst);
    RemoveStagedGood(book, d, e.tx);
    if t.journal.Some? && t.journal.value.generation in d.generations {
      var j := t.journal.value;
      if d.active == Some(j.generation) {
        PhaseGood(book, d, e.tx, Committed);
      } else if d.active == j.base {
        PointGood(book, d, e.tx);
        PhaseGood(book, d.(active := Some(j.generation)), e.tx, Committed);
      }
    }
  }

  lemma {:induction false} RecoverGood(book: Book, d: Disk, listing: seq<Entry>)
    requires Inv(book, d)
    ensures GoodTrace(book, d, Recover(d, listing).writes)
    decreases |listing|
  {
    if listing != [] && listing[0].tx in d.transactions {
      var first := RecoverTx(d, listing[0]);
      RecoverTxGood(book, d, listing[0]);
      if first.result.Ok? {
        GoodEnd(book, d, first.writes);
        RecoverGood(book, End(d, first.writes), listing[1..]);
        GoodConcat(book, d, first.writes, Recover(End(d, first.writes), listing[1..]).writes);
      }
    }
  }

  // ---------------------------------------------------------------- runs

  datatype Op = DoStage(tx: TxId, g: Generation) | DoCommit(tx: TxId) | DoRecover(listing: seq<Entry>)
              | DoActivate(target: Id, expected: Id)

  function Writes(d: Disk, op: Op): seq<Disk> {
    match op
    case DoStage(tx, g) => Stage(d, tx, g).writes
    case DoCommit(tx) => Commit(d, tx).writes
    case DoRecover(listing) => Recover(d, listing).writes
    case DoActivate(target, expected) => Activate(d, target, expected).writes
  }

  /** The operation runs and stops, finished or crashed, after some of its writes. */
  ghost predicate Step(book: Book, d: Disk, d': Disk) {
    exists op: Op, k: nat ::
      && k <= |Writes(d, op)| && d' == At(d, Writes(d, op), k)
      && (op.DoStage? ==> op.g == book(op.g.id))
  }

  ghost predicate Fresh(d: Disk) { d == Disk(None, map[], map[]) }

  ghost predicate IsRun(book: Book, run: seq<Disk>) {
    && |run| > 0 && BookOk(book) && Fresh(run[0])
    && forall j, k :: 0 <= j < |run| - 1 && k == j + 1 ==> Step(book, run[j], run[k])
  }

  lemma {:induction false} GoodPrefix(book: Book, d: Disk, writes: seq<Disk>, k: nat)
    requires Inv(book, d) && GoodTrace(book, d, writes) && k <= |writes|
    ensures Inv(book, At(d, writes, k)) && Grows(d, At(d, writes, k))
  {
    if k > 0 {
      GoodPrefix(book, d, writes, k - 1);
      assert GoodWrite(book, At(d, writes, k - 1), At(d, writes, k));
    }
  }

  lemma ActivateKeeps(book: Book, d: Disk, target: Id, expected: Id, k: nat)
    requires Inv(book, d) && k <= |Activate(d, target, expected).writes|
    ensures var d' := At(d, Activate(d, target, expected).writes, k); Inv(book, d') && Grows(d, d')
  {
    var d' := At(d, Activate(d, target, expected).writes, k);
    forall tx | tx in d'.transactions
      ensures TxOk(book, d', d'.transactions[tx])
    {
      assert TxOk(book, d, d.transactions[tx]);
    }
  }

  lemma StepKeeps(book: Book, d: Disk, d': Disk)
    requires Inv(book, d) && Step(book, d, d')
    ensures Inv(book, d') && Grows(d, d')
  {
    var op: Op, k: nat :| k <= |Writes(d, op)| && d' == At(d, Writes(d, op), k)
                          && (op.DoStage? ==> op.g == book(op.g.id));
    match op
    case DoStage(tx, g) =>
      StageGood(book, d, tx, g);
      GoodPrefix(book, d, Writes(d, op), k);
    case DoCommit(tx) =>
      CommitGood(book, d, tx);
      GoodPrefix(book, d, Writes(d, op), k);
    case DoRecover(listing) =>
      RecoverGood(book, d, listing);
      GoodPrefix(book, d, Writes(d, op), k);
    case DoActivate(target, expected) =>
      ActivateKeeps(book, d, target, expected, k);
  }

  lemma {:induction false} RunKeeps(book: Book, run: seq<Disk>, n: nat)
    requires IsRun(book, run) && n < |run|
    ensures Inv(book, run[n])
  {
    if n > 0 {
      RunKeeps(book, run, n - 1);
      StepKeeps(book, run[n - 1], run[n]);
    }
  }

  lemma RunGrows(book: Book, run: seq<Disk>, n: nat)
    requires IsRun(book, run) && n + 1 < |run|
    ensures Grows(run[n], run[n + 1])
  {
    RunKeeps(book, run, n);
    StepKeeps(book, run[n], run[n + 1]);
  }

  lemma GrowsTransitive(a: Disk, b: Disk, c: Disk)
    requires Grows(a, b) && Grows(b, c)
    ensures Grows(a, c)
  {
  }

  ghost predicate Growing(run: seq<Disk>) {
    forall j, k :: 0 <= j < |run| - 1 && k == j + 1 ==> Grows(run[j], run[k])
  }

  lemma {:induction false} GrowingGrows(run: seq<Disk>, i: nat, n: nat)
    requires Growing(run) && i <= n < |run|
    ensures Grows(run[i], run[n])
    decreases n
  {
    if i < n {
      GrowingGrows(run, i, n - 1);
      GrowsTransitive(run[i], run[n - 1], run[n]);
    }
  }

  /** In every run, crashes included, a durable generation is never rewritten or removed. */
  lemma WriteOnce(book: Book, run: seq<Disk>, i: nat, n: nat)
    requires IsRun(book, run) && i <= n < |run|
    ensures Grows(run[i], run[n])
  {
    forall j, k | 0 <= j < |run| - 1 && k == j + 1
      ensures Grows(run[j], run[k])
    {
      RunGrows(book, run, j);
    }
    GrowingGrows(run, i, n);
  }

  /** In every run the active pointer names a durable generation, that generation and the one
      before it can be loaded, and so a rollback target is always found when there is one. */
  lemma PointerAlwaysDurable(book: Book, run: seq<Disk>, n: nat)
    requires IsRun(book, run) && n < |run|
    ensures var d := run[n];
      && (d.active.Some? ==> d.Load(d.active.value) == Ok(book(d.active.value)))
      && SelectRollback(d).Ok?
      && (SelectRollback(d).value.Some? <==> d.active.Some? && book(d.active.value).previous.Some?)
  {
    RunKeeps(book, run, n);
  }

  /** In every run, each single pointer write made by commit or recovery, even by one that is cut
      short right after it, goes from G to a generation whose recorded predecessor is G. */
  lemma MovesReplace(book: Book, run: seq<Disk>, n: nat, op: Op, k: nat)
    requires IsRun(book, run) && n < |run| && (op.DoCommit? || op.DoRecover?) && k < |Writes(run[n], op)|
    ensures Replaces(At(run[n], Writes(run[n], op), k), At(run[n], Writes(run[n], op), k + 1))
  {
    RunKeeps(book, run, n);
    var d := run[n];
    if op.DoCommit? { CommitGood(book, d, op.tx); } else { RecoverGood(book, d, op.listing); }
    assert GoodWrite(book, At(d, Writes(d, op), k), At(d, Writes(d, op), k + 1));
  }
}
