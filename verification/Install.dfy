/** The activation store: journal, staged directory, durable generations and active pointer.
    An operation is the sequence of disk contents its durable writes go through, so that a
    crash is any prefix of it. */
module Install {
  import opened Results

  type Id = nat
  type TxId = string

  datatype ErrorCode = Io | Path | Activation | Conflict | Recovery

  /** An activation document: its identity, what it replaces, and the rest of it. */
  datatype Generation = Generation(id: Id, previous: Option<Id>, body: nat)

  /** The `staged-generation` directory: missing, without its document, or complete. */
  datatype Staged = Absent | Emptied | Holds(generation: Generation)

  datatype TxPhase = StagedPhase | GenerationDurable | Committed

  datatype Journal = Journal(generation: Id, base: Option<Id>, phase: TxPhase)

  datatype Tx = Tx(staged: Staged, journal: Option<Journal>)

  datatype Disk = Disk(active: Option<Id>, generations: map<Id, Generation>, transactions: map<TxId, Tx>) {
    function WithTx(tx: TxId, t: Tx): Disk { this.(transactions := transactions[tx := t]) }

    function WithoutTx(tx: TxId): Disk { this.(transactions := transactions - {tx}) }

    function WithPhase(tx: TxId, phase: TxPhase): Disk
      requires tx in transactions && transactions[tx].journal.Some?
    {
      WithTx(tx, transactions[tx].(journal := Some(transactions[tx].journal.value.(phase := phase))))
    }

    function Load(id: Id): Result<Generation, ErrorCode> {
      if id !in generations then Err(Io)
      else if generations[id].id != id then Err(Activation)
      else Ok(generations[id])
    }
  }

  datatype Outcome<T> = Outcome(writes: seq<Disk>, result: Result<T, ErrorCode>)

  function Stop<T>(error: ErrorCode): Outcome<T> { Outcome([], Err(error)) }

  /** The disk after the writes. */
  function End(d: Disk, writes: seq<Disk>): Disk {
    if |writes| == 0 then d else writes[|writes| - 1]
  }

  predicate ValidTxId(tx: TxId) {
    0 < |tx| <= 64 && forall k :: 0 <= k < |tx| ==> IdChar(tx[k])
  }

  predicate IdChar(c: char) {
    'a' <= c <= 'z' || 'A' <= c <= 'Z' || '0' <= c <= '9' || c == '-' || c == '_'
  }

  // ---------------------------------------------------------------- staging

  function StagedAgain(d: Disk, t: Tx, g: Generation): Result<(), ErrorCode> {
    if t.journal.None? then Err(Io)
    else if t.journal.value.generation != g.id || t.journal.value.base != g.previous then Err(Conflict)
    else
      var existing :- match t.staged
        case Absent => d.Load(g.id)
        case Emptied => Err(Io)
        case Holds(x) => Ok(x);
      if existing != g then Err(Conflict) else Ok(())
  }

  function Stage(d: Disk, tx: TxId, g: Generation): Outcome<()> {
    if !ValidTxId(tx) then Stop(Path)
    else if d.active != g.previous then Stop(Conflict)
    else if tx in d.transactions then Outcome([], StagedAgain(d, d.transactions[tx], g))
    else if g.id in d.generations then Stop(Conflict)
    else
      Outcome(OnDisk(d, tx, StageStates(g)), Ok(()))
  }

  /** Directory, staged directory, document, journal. */
  function StageStates(g: Generation): seq<Tx> {
    [Tx(Absent, None), Tx(Emptied, None), Tx(Holds(g), None),
     Tx(Holds(g), Some(Journal(g.id, g.previous, StagedPhase)))]
  }

  function OnDisk(d: Disk, tx: TxId, states: seq<Tx>): (writes: seq<Disk>)
    ensures |writes| == |states|
    ensures forall k :: 0 <= k < |states| ==> writes[k] == d.WithTx(tx, states[k])
  {
    seq(|states|, k requires 0 <= k < |states| => d.WithTx(tx, states[k]))
  }

  // ---------------------------------------------------------------- removal, entry by entry

  /** What is left of a transaction directory while its staged directory is removed. */
  function StripStaged(t: Tx): seq<Tx> {
    match t.staged
    case Absent => []
    case Emptied => [t.(staged := Absent)]
    case Holds(_) => [t.(staged := Emptied), t.(staged := Absent)]
  }

  function StripJournal(t: Tx): seq<Tx> {
    if t.journal.Some? then [t.(journal := None)] else []
  }

  /** The directory listing decides which entry goes first. */
  function StripTx(t: Tx, journalFirst: bool): seq<Tx> {
    if journalFirst then StripJournal(t) + StripStaged(t.(journal := None))
    else StripStaged(t) + StripJournal(t.(staged := Absent))
  }

  function RemoveStaged(d: Disk, tx: TxId): seq<Disk>
    requires tx in d.transactions
  {
    OnDisk(d, tx, StripStaged(d.transactions[tx]))
  }

  function RemoveTx(d: Disk, tx: TxId, journalFirst: bool): seq<Disk>
    requires tx in d.transactions
  {
    OnDisk(d, tx, StripTx(d.transactions[tx], journalFirst)) + [d.WithoutTx(tx)]
  }

  // ---------------------------------------------------------------- commit

  datatype CommitOutcome = CommitDone | AlreadyActive | AlreadyCommitted

  /** A staged document must be the durable one and match its journal. */
  predicate Disagrees(x: Generation, durable: Generation, j: Journal) {
    x != durable || x.id != j.generation || x.previous != j.base
  }

  /** First part: the generation becomes durable, by rename unless it already is. */
  function MakeDurable(d: Disk, tx: TxId, j: Journal): Outcome<()>
    requires tx in d.transactions
  {
    var t := d.transactions[tx];
    if j.generation in d.generations then
      var durable := d.Load(j.generation);
      if durable.Err? then Stop(durable.error)
      else match t.staged
        case Absent => Outcome([], Ok(()))
        case Emptied => Stop(Io)
        case Holds(x) =>
          if Disagrees(x, durable.value, j) then Stop(Conflict) else Outcome(RemoveStaged(d, tx), Ok(()))
    else match t.staged
      case Absent => Stop(Recovery)
      case Emptied => Stop(Io)
      case Holds(x) =>
        if x.id != j.generation || x.previous != j.base then Stop(Recovery)
        else Outcome([Renamed(d, tx, x)], Ok(()))
  }

  function Renamed(d: Disk, tx: TxId, x: Generation): Disk
    requires tx in d.transactions
  {
    d.(generations := d.generations[x.id := x]).WithTx(tx, d.transactions[tx].(staged := Absent))
  }

  /** Second part: journal, pointer, journal. */
  function Publish(d: Disk, tx: TxId, j: Journal): Outcome<CommitOutcome>
    requires tx in d.transactions && d.transactions[tx].journal.Some?
  {
    var d1 := d.WithPhase(tx, GenerationDurable);
    if d1.active == Some(j.generation) then Outcome([d1, d1.WithPhase(tx, Committed)], Ok(AlreadyActive))
    else if d1.active != j.base then Outcome([d1], Err(Conflict))
    else
      var d2 := d1.(active := Some(j.generation));
      Outcome([d1, d2, d2.WithPhase(tx, Committed)], Ok(CommitDone))
  }

  function Commit(d: Disk, tx: TxId): Outcome<CommitOutcome> {
    if !ValidTxId(tx) then Stop(Path)
    else if tx !in d.transactions || d.transactions[tx].journal.None? then Stop(Io)
    else
      var j := d.transactions[tx].journal.value;
      if j.phase == Committed then Outcome([], Ok(AlreadyCommitted))
      else
        var durable := MakeDurable(d, tx, j);
        if durable.result.Err? then Outcome(durable.writes, Err(durable.result.error))
        else
          DurableKeepsJournal(d, tx, j);
          var published := Publish(End(d, durable.writes), tx, j);
          Outcome(durable.writes + published.writes, published.result)
  }

  lemma DurableKeepsJournal(d: Disk, tx: TxId, j: Journal)
    requires tx in d.transactions
    ensures var e := End(d, MakeDurable(d, tx, j).writes);
      && tx in e.transactions && e.transactions[tx].journal == d.transactions[tx].journal
      && e.active == d.active
  {
  }

  // ---------------------------------------------------------------- recovery

  datatype Action = RemovedOrphan | AbortedStaging | CompletedCommit | RecordedCommit | WasCommitted | DiscardedConflict

  /** A directory entry of the transactions store, and which of its entries is listed first. */
  datatype Entry = Entry(tx: TxId, journalFirst: bool)

  function RecoverTx(d: Disk, e: Entry): Outcome<Action>
    requires e.tx in d.transactions
  {
    var t := d.transactions[e.tx];
    if t.journal.None? then Outcome(RemoveTx(d, e.tx, e.journalFirst), Ok(RemovedOrphan))
    else
      var j := t.journal.value;
      if j.phase == Committed then Outcome(RemoveStaged(d, e.tx), Ok(WasCommitted))
      else if j.generation !in d.generations then
        Outcome(RemoveTx(d, e.tx, e.journalFirst), Ok(if t.staged == Absent then RemovedOrphan else AbortedStaging))
      else
        var durable := d.Load(j.generation);
        if durable.Err? then Stop(durable.error)
        else if t.staged.Emptied? then Stop(Io)
        else if t.staged.Holds? && Disagrees(t.staged.generation, durable.value, j) then Stop(Recovery)
        else if d.active == Some(j.generation) then Outcome([d.WithPhase(e.tx, Committed)], Ok(RecordedCommit))
        else if d.active == j.base then
          var d1 := d.(active := Some(j.generation));
          Outcome([d1, d1.WithPhase(e.tx, Committed)], Ok(CompletedCommit))
        else Outcome(RemoveTx(d, e.tx, e.journalFirst), Ok(DiscardedConflict))
  }

  /** One pass over a listing; the first failure ends it. */
  function Recover(d: Disk, listing: seq<Entry>): Outcome<seq<Action>>
    decreases |listing|
  {
    if listing == [] then Outcome([], Ok([]))
    else if listing[0].tx !in d.transactions then Stop(Io)
    else
      var first := RecoverTx(d, listing[0]);
      if first.result.Err? then Outcome(first.writes, Err(first.result.error))
      else
        var rest := Recover(End(d, first.writes), listing[1..]);
        Outcome(first.writes + rest.writes,
                if rest.result.Ok? then Ok([first.result.value] + rest.result.value) else rest.result)
  }

  /** The listing names every transaction once. */
  ghost predicate Lists(d: Disk, listing: seq<Entry>) {
    && (forall tx :: tx in d.transactions <==> exists k :: 0 <= k < |listing| && listing[k].tx == tx)
    && Distinct(listing)
  }

  ghost predicate Distinct(listing: seq<Entry>) {
    forall j, k :: 0 <= j < k < |listing| ==> listing[j].tx != listing[k].tx
  }

  // ---------------------------------------------------------------- explicit activation

  function Activate(d: Disk, target: Id, expected: Id): Outcome<()> {
    var loaded := d.Load(target);
    if loaded.Err? then Stop(loaded.error)
    else if d.active != Some(expected) then Stop(Conflict)
    else Outcome([d.(active := Some(target))], Ok(()))
  }

  /** What a rollback would return to. */
  function SelectRollback(d: Disk): Result<Option<Generation>, ErrorCode> {
    if d.active.None? then Ok(None)
    else
      var current :- d.Load(d.active.value);
      if current.previous.None? then Ok(None)
      else
        var previous :- d.Load(current.previous.value);
        Ok(Some(previous))
  }
}
