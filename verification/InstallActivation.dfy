/** What an explicit activation does, and every way the active pointer ever moves. */
module InstallActivation {
  import opened Results
  import opened Install
  import opened InstallSafety

  /** An activation of a durable generation, asked for while the expected one is active. */
  ghost predicate May(d: Disk, target: Id, expected: Id) { target in d.generations && d.active == Some(expected) }

  /** Generation `target` is active; nothing else changed. */
  ghost predicate Repointed(d: Disk, d': Disk, target: Id) {
    d'.active == Some(target) && d'.generations == d.generations && d'.transactions == d.transactions
  }

  /** In every run: an activation succeeds if and only if its target is durable and the pointer is
      the expected one. Then one write has made the target active and changed nothing else;
      otherwise nothing was written. */
  lemma ActivationSpec(book: Book, run: seq<Disk>, n: nat, target: Id, expected: Id)
    requires IsRun(book, run) && n < |run|
    ensures var d, o := run[n], Activate(run[n], target, expected);
      && (o.result.Ok? <==> May(d, target, expected))
      && (o.result.Ok? ==> |o.writes| == 1 && Repointed(d, o.writes[0], target))
      && (o.result.Err? ==> o.writes == [])
  {
    RunKeeps(book, run, n);
  }

  /** The pointer goes from what an activation expected to its target. */
  ghost predicate Switched(d: Disk, d': Disk, op: Op) {
    op.DoActivate? && d.active == Some(op.expected) && Repointed(d, d', op.target) && op.target in d.generations
  }

  /** The pointer goes to a generation that records the old one as its predecessor. */
  ghost predicate Replaced(d: Disk, d': Disk, op: Op) {
    (op.DoCommit? || op.DoRecover?) && Replaces(d, d')
  }

  lemma StageNeverPoints(d: Disk, tx: TxId, g: Generation, k: nat)
    requires k <= |Stage(d, tx, g).writes|
    ensures At(d, Stage(d, tx, g).writes, k).active == d.active
  {
  }

  /** Over every run, each single write that moves the pointer, in an operation that ends or is cut
      short, is a replacement by a commit or recovery, or an activation from its expected
      generation to its target. Staging never moves it. */
  lemma EveryMove(book: Book, run: seq<Disk>, n: nat, op: Op, k: nat)
    requires IsRun(book, run) && n < |run| && k < |Writes(run[n], op)|
    ensures var d, d' := At(run[n], Writes(run[n], op), k), At(run[n], Writes(run[n], op), k + 1);
      d'.active != d.active ==> Replaced(d, d', op) || Switched(d, d', op)
  {
    match op
    case DoStage(tx, g) =>
      StageNeverPoints(run[n], tx, g, k);
      StageNeverPoints(run[n], tx, g, k + 1);
    case DoCommit(_) => MovesReplace(book, run, n, op, k);
    case DoRecover(_) => MovesReplace(book, run, n, op, k);
    case DoActivate(target, expected) => ActivationSpec(book, run, n, target, expected);
  }

  /** In every run, activating what a rollback selects, against the generation that is active,
      succeeds and leaves exactly the recorded predecessor active. */
  lemma RollbackActivates(book: Book, run: seq<Disk>, n: nat)
    requires IsRun(book, run) && n < |run| && SelectRollback(run[n]) != Ok(None)
    ensures var d := run[n];
      && d.active.Some? && book(d.active.value).previous.Some?
      && SelectRollback(d) == Ok(Some(book(book(d.active.value).previous.value)))
      && var g := SelectRollback(d).value.value;
      && Activate(d, g.id, d.active.value).result.Ok?
      && var d' := End(d, Activate(d, g.id, d.active.value).writes);
      && Repointed(d, d', g.id) && d'.active == book(d.active.value).previous
      && d'.Load(g.id) == Ok(g)
  {
    RunKeeps(book, run, n);
    PointerAlwaysDurable(book, run, n);
  }
}
