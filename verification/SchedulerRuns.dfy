/** The scheduler over any interleaving of enqueue and dequeue: order, conservation,
    fairness between classes, and the service a class can draw. */
module SchedulerRuns {
  import opened Results
  import opened Wire
  import opened Scheduler
  import opened SchedulerFairness

  datatype Op = Put(item: Item) | Get

  /** State, frames accepted and frames sent after a sequence of calls. */
  datatype Outcome = Outcome(s: State, accepted: seq<Item>, sent: seq<Item>)

  function Do(s: State, op: Op): (o: Outcome)
    requires s.Shaped()
    ensures o.s.Shaped()
  {
    match op
    case Put(item) =>
      var r := s.Enqueue(item);
      if r.Ok? then Outcome(r.value, [item], []) else Outcome(s, [], [])
    case Get =>
      var (t, out) := s.Dequeue();
      Outcome(t, [], if out.Some? then [out.value] else [])
  }

  function Exec(s: State, ops: seq<Op>): (o: Outcome)
    requires s.Shaped()
    ensures o.s.Shaped()
    decreases |ops|
  {
    if ops == [] then Outcome(s, [], [])
    else
      var first := Do(s, ops[0]);
      var rest := Exec(first.s, ops[1..]);
      Outcome(rest.s, first.accepted + rest.accepted, first.sent + rest.sent)
  }

  // ---------------------------------------------------------------- order and conservation

  /** Per stream, what was pending and then accepted is what was sent and then still pends. */
  ghost predicate Fifo(s: State, o: Outcome, id: u32)
    requires Valid(s) && Valid(o.s)
  {
    Pending(s, id) + Filter(o.accepted, id) == Filter(o.sent, id) + Pending(o.s, id)
  }

  lemma FilterOne(item: Item, id: u32)
    ensures Filter([item], id) == Tail(item, id)
  {
    assert [item][1..] == [];
  }

  lemma GetFifo(s: State, id: u32)
    requires Valid(s)
    ensures var o := Do(s, Get);
      && Valid(o.s) && o.s.maxQueuedBytes == s.maxQueuedBytes && Fifo(s, o, id)
      && s.queuedBytes == o.s.queuedBytes + Bytes(o.sent)
  {
    DequeueSpec(s);
    DequeueBytes(s);
    var (t, out) := s.Dequeue();
    assert Pending(s, id) + [] == Pending(s, id);
    if out.Some? {
      FilterOne(out.value, id);
      assert [out.value][1..] == [];
    }
  }

  lemma DoFifo(s: State, op: Op, id: u32)
    requires Valid(s)
    ensures Valid(Do(s, op).s) && Do(s, op).s.maxQueuedBytes == s.maxQueuedBytes && Fifo(s, Do(s, op), id)
    ensures s.queuedBytes + Bytes(Do(s, op).accepted) == Do(s, op).s.queuedBytes + Bytes(Do(s, op).sent)
  {
    match op
    case Put(item) =>
      EnqueueSpec(s, item);
      FilterOne(item, id);
      assert [item][1..] == [];
    case Get =>
      GetFifo(s, id);
  }

  lemma DoValid(s: State, op: Op)
    requires Valid(s)
    ensures Valid(Do(s, op).s)
  {
    DoFifo(s, op, 0);
  }

  lemma VisitBytes(s: State)
    requires Valid(s)
    ensures var (t, out) := s.Visit();
      s.queuedBytes == t.queuedBytes + (if out.Some? then out.value.Cost() else 0)
  {
    VisitSpec(s);
    var position := s.Position(s.cursor, s.queues[s.cursor]);
    if s.Visit().1.Some? {
      var q := s.queues[s.cursor];
      SplitAt(q, position.value, 0);
      TotalBytesUpdate(s.queues, s.cursor, q[..position.value] + q[position.value + 1..]);
    }
  }

  lemma {:induction false} SearchBytes(s: State, n: nat)
    requires Valid(s)
    ensures var (t, out) := s.Search(n);
      s.queuedBytes == t.queuedBytes + (if out.Some? then out.value.Cost() else 0)
    decreases n
  {
    if n > 0 {
      var (t, out) := s.Visit();
      VisitSpec(s);
      VisitBytes(s);
      SearchStep(s, t, out, n - 1);
      if out.None? { SearchBytes(t, n - 1); }
    }
  }

  lemma DequeueBytes(s: State)
    requires Valid(s)
    ensures var (t, out) := s.Dequeue();
      s.queuedBytes == t.queuedBytes + (if out.Some? then out.value.Cost() else 0)
  {
    SearchBytes(s, s.Attempts());
  }

  lemma FifoChain(a: seq<Item>, b: seq<Item>, c: seq<Item>, x: seq<Item>, y: seq<Item>, p: seq<Item>, q: seq<Item>)
    requires a + x == y + b && b + p == q + c
    ensures a + (x + p) == (y + q) + c
  {
    assert a + (x + p) == (a + x) + p;
    assert (y + b) + p == y + (b + p);
    assert y + (q + c) == (y + q) + c;
  }

  /** Over any interleaving, each stream's frames leave in the order they were accepted, none
      is lost or duplicated, the byte counter tells the truth and the bound is kept. */
  lemma {:induction false} ExecFifo(s: State, ops: seq<Op>, id: u32)
    requires Valid(s)
    ensures var o := Exec(s, ops);
      && Valid(o.s) && o.s.maxQueuedBytes == s.maxQueuedBytes && Fifo(s, o, id)
      && s.queuedBytes + Bytes(o.accepted) == o.s.queuedBytes + Bytes(o.sent)
    decreases |ops|
  {
    if ops == [] {
      assert Pending(s, id) + [] == [] + Pending(s, id);
    } else {
      var first := Do(s, ops[0]);
      var rest := Exec(first.s, ops[1..]);
      DoFifo(s, ops[0], id);
      ExecFifo(first.s, ops[1..], id);
      FilterConcat(first.accepted, rest.accepted, id);
      FilterConcat(first.sent, rest.sent, id);
      BytesConcat(first.accepted, rest.accepted);
      BytesConcat(first.sent, rest.sent);
      FifoChain(Pending(s, id), Pending(first.s, id), Pending(rest.s, id),
                Filter(first.accepted, id), Filter(first.sent, id), Filter(rest.accepted, id), Filter(rest.sent, id));
    }
  }

  // ---------------------------------------------------------------- fairness

  /** `q * k`, by addition. */
  function Times(q: nat, k: nat): nat { if k == 0 then 0 else q + Times(q, k - 1) }

  lemma {:induction false} TimesIsProduct(q: nat, k: nat)
    ensures Times(q, k) == q * k
  {
    if k > 0 { TimesIsProduct(q, k - 1); }
  }

  lemma {:induction false} TimesAdd(q: nat, j: nat, k: nat)
    ensures Times(q, j + k) == Times(q, j) + Times(q, k)
  {
    if j > 0 { TimesAdd(q, j - 1, k); }
  }

  predicate Small(s: State, c: nat, most: nat)
    requires s.Shaped() && c < CLASS_COUNT
  {
    forall k :: 0 <= k < |s.queues[c]| ==> s.queues[c][k].Cost() <= most
  }

  /** Turns until class `c` has its turn. */
  function Wait(cursor: nat, c: nat): nat
    requires cursor < CLASS_COUNT && c < CLASS_COUNT
  {
    if cursor <= c then c - cursor else c + CLASS_COUNT - cursor
  }

  /** Class `c` can afford any of its frames after `rounds` more turns of its own. */
  predicate Due(s: State, c: nat, most: nat, rounds: nat)
    requires s.Shaped() && c < CLASS_COUNT
  {
    HasEligible(s, c) && Small(s, c, most) && rounds > 0 && s.deficits[c] + Times(Quantum(c), rounds) >= most
  }

  function TurnsLeft(s: State, c: nat, rounds: nat): int
    requires s.Shaped() && c < CLASS_COUNT
  {
    Wait(s.cursor, c) + CLASS_COUNT * rounds - 4
  }

  /** A frame stays eligible until it leaves: only its own class can move its stream on. */
  lemma EligibleStays(s: State, t: State, out: Option<Item>, c: nat)
    requires Valid(s) && s.Visit() == (t, out) && c < CLASS_COUNT
    requires HasEligible(s, c) && (out.Some? ==> s.cursor != c)
    ensures t.queues[c] == s.queues[c] && HasEligible(t, c)
  {
    var p := s.Position(c, s.queues[c]).value;
    var id := s.queues[c][p].StreamId();
    assert s.Eligible(c, s.queues[c][p]);
    if out.Some? {
      var gone := s.queues[s.cursor][s.Position(s.cursor, s.queues[s.cursor]).value];
      assert s.Eligible(s.cursor, gone);
      assert gone.StreamId() != id;
    }
    assert t.Classes(id) == s.Classes(id);
    assert t.Eligible(c, t.queues[c][p]);
  }

  lemma VisitClass(s: State)
    requires Valid(s) && s.Visit().1.Some?
    ensures s.Visit().1.value.class_.Index() == s.cursor
  {
  }

  lemma VisitDeficit(s: State, t: State, c: nat, most: nat, rounds: nat)
    requires s.Shaped() && s.Visit() == (t, None) && c == s.cursor && Due(s, c, most, rounds)
    ensures t.deficits[c] == s.deficits[c] + Quantum(c) && rounds > 1
  {
    CostBounded(s.queues[c][s.Position(c, s.queues[c]).value]);
  }

  lemma VisitDue(s: State, t: State, out: Option<Item>, c: nat, most: nat, rounds: nat) returns (left: nat)
    requires Valid(s) && s.Visit() == (t, out) && c < CLASS_COUNT && Due(s, c, most, rounds)
    requires out.Some? ==> out.value.class_.Index() != c
    ensures Due(t, c, most, left) && TurnsLeft(t, c, left) == TurnsLeft(s, c, rounds) - 1
  {
    if out.Some? { VisitClass(s); }
    EligibleStays(s, t, out, c);
    if s.cursor == c {
      VisitDeficit(s, t, c, most, rounds);
      left := rounds - 1;
    } else {
      left := rounds;
    }
  }

  lemma {:induction false} SearchDue(s: State, n: nat, end: State, found: Option<Item>, c: nat, most: nat, rounds: nat)
    returns (left: nat)
    requires Valid(s) && s.Search(n) == (end, found) && c < CLASS_COUNT && Due(s, c, most, rounds)
    requires found.Some? ==> found.value.class_.Index() != c
    ensures Due(end, c, most, left)
    ensures TurnsLeft(end, c, left) <= TurnsLeft(s, c, rounds) - (if found.Some? then 1 else 0)
    decreases n
  {
    if n == 0 {
      left := rounds;
    } else {
      var (t, out) := s.Visit();
      SearchStep(s, t, out, n - 1);
      VisitSpec(s);
      left := VisitDue(s, t, out, c, most, rounds);
      if out.None? {
        left := SearchDue(t, n - 1, end, found, c, most, left);
      }
    }
  }

  lemma PutDue(s: State, item: Item, c: nat, most: nat, rounds: nat)
    requires s.Shaped() && c < CLASS_COUNT && Due(s, c, most, rounds)
    requires item.class_.Index() == c ==> item.Cost() <= most
    requires s.Enqueue(item).Ok?
    ensures Due(s.Enqueue(item).value, c, most, rounds)
  {
    var t := s.Enqueue(item).value;
    var p := s.Position(c, s.queues[c]).value;
    assert s.Eligible(c, s.queues[c][p]);
    assert t.queues[c][p] == s.queues[c][p];
    assert t.Eligible(c, t.queues[c][p]);
  }

  lemma DoDue(s: State, op: Op, c: nat, most: nat, rounds: nat) returns (left: nat)
    requires Valid(s) && c < CLASS_COUNT && Due(s, c, most, rounds)
    requires op.Put? && op.item.class_.Index() == c ==> op.item.Cost() <= most
    requires forall item :: item in Do(s, op).sent ==> item.class_.Index() != c
    ensures Due(Do(s, op).s, c, most, left)
    ensures TurnsLeft(Do(s, op).s, c, left) <= TurnsLeft(s, c, rounds) - |Do(s, op).sent|
  {
    left := rounds;
    match op
    case Put(item) =>
      if s.Enqueue(item).Ok? { PutDue(s, item, c, most, rounds); }
    case Get =>
      var (t, out) := s.Dequeue();
      if out.Some? { assert out.value in Do(s, op).sent; }
      if s.queuedBytes != 0 { left := SearchDue(s, s.Attempts(), t, out, c, most, rounds); }
  }

  lemma {:induction false} ExecDue(s: State, ops: seq<Op>, c: nat, most: nat, rounds: nat)
    requires Valid(s) && c < CLASS_COUNT && Due(s, c, most, rounds)
    requires forall op :: op in ops && op.Put? && op.item.class_.Index() == c ==> op.item.Cost() <= most
    requires forall item :: item in Exec(s, ops).sent ==> item.class_.Index() != c
    ensures |Exec(s, ops).sent| < TurnsLeft(s, c, rounds)
    decreases |ops|
  {
    if ops != [] {
      var first := Do(s, ops[0]);
      assert ops[0] in ops;
      assert forall item :: item in first.sent ==> item in Exec(s, ops).sent;
      assert forall item :: item in Exec(first.s, ops[1..]).sent ==> item in Exec(s, ops).sent;
      var left := DoDue(s, ops[0], c, most, rounds);
      DoValid(s, ops[0]);
      ExecDue(first.s, ops[1..], c, most, left);
    }
  }

  /** No starvation: whatever else is queued or sent, a class with an eligible frame, whose
      frames cost at most `rounds` quanta, sends one among any five times `rounds` frames. */
  lemma NoStarvation(s: State, ops: seq<Op>, c: nat, most: nat, rounds: nat)
    requires Valid(s) && c < CLASS_COUNT && HasEligible(s, c) && Small(s, c, most)
    requires forall op :: op in ops && op.Put? && op.item.class_.Index() == c ==> op.item.Cost() <= most
    requires rounds > 0 && most <= Quantum(c) * rounds
    requires |Exec(s, ops).sent| >= CLASS_COUNT * rounds
    ensures exists item :: item in Exec(s, ops).sent && item.class_.Index() == c
  {
    if forall item :: item in Exec(s, ops).sent ==> item.class_.Index() != c {
      TimesIsProduct(Quantum(c), rounds);
      ExecDue(s, ops, c, most, rounds);
      assert false;
    }
  }

  // ---------------------------------------------------------------- service bound

  /** Turns class `c` takes in one search. */
  function SearchTurns(s: State, n: nat, c: nat): nat
    requires s.Shaped()
    decreases n
  {
    if n == 0 then 0
    else (if s.cursor == c then 1 else 0) + if s.Visit().1.Some? then 0 else SearchTurns(s.Visit().0, n - 1, c)
  }

  function OpTurns(s: State, op: Op, c: nat): nat
    requires s.Shaped()
  {
    if op.Get? && s.queuedBytes != 0 then SearchTurns(s, s.Attempts(), c) else 0
  }

  function ExecTurns(s: State, ops: seq<Op>, c: nat): nat
    requires s.Shaped()
    decreases |ops|
  {
    if ops == [] then 0 else OpTurns(s, ops[0], c) + ExecTurns(Do(s, ops[0]).s, ops[1..], c)
  }

  function ClassBytes(sent: seq<Item>, c: nat): nat {
    if sent == [] then 0 else (if sent[0].class_.Index() == c then sent[0].Cost() else 0) + ClassBytes(sent[1..], c)
  }

  lemma {:induction false} ClassBytesConcat(a: seq<Item>, b: seq<Item>, c: nat)
    ensures ClassBytes(a + b, c) == ClassBytes(a, c) + ClassBytes(b, c)
  {
    if a == [] {
      assert a + b == b;
    } else {
      assert (a + b)[1..] == a[1..] + b;
      ClassBytesConcat(a[1..], b, c);
    }
  }

  function SpentBy(out: Option<Item>, c: nat): nat {
    if out.Some? && out.value.class_.Index() == c then out.value.Cost() else 0
  }

  lemma VisitService(s: State, t: State, out: Option<Item>, c: nat)
    requires Valid(s) && s.Visit() == (t, out) && c < CLASS_COUNT
    ensures SpentBy(out, c) + t.deficits[c] <= s.deficits[c] + (if s.cursor == c then Quantum(c) else 0)
  {
    if out.Some? { VisitClass(s); }
  }

  lemma {:induction false} SearchService(s: State, n: nat, end: State, found: Option<Item>, c: nat)
    requires Valid(s) && s.Search(n) == (end, found) && c < CLASS_COUNT
    ensures SpentBy(found, c) + end.deficits[c] <= s.deficits[c] + Times(Quantum(c), SearchTurns(s, n, c))
    decreases n
  {
    if n > 0 {
      var (t, out) := s.Visit();
      SearchStep(s, t, out, n - 1);
      VisitSpec(s);
      VisitService(s, t, out, c);
      if out.None? {
        SearchService(t, n - 1, end, found, c);
      }
    }
  }

  lemma DoService(s: State, op: Op, c: nat)
    requires Valid(s) && c < CLASS_COUNT
    ensures Served(s, Do(s, op), OpTurns(s, op, c), c)
  {
    if op.Get? && s.queuedBytes != 0 {
      var (t, out) := s.Search(s.Attempts());
      SearchService(s, s.Attempts(), t, out, c);
      if out.Some? { assert [out.value][1..] == []; }
    }
  }

  /** The class spent at most its deficit and a quantum for each of its turns. */
  ghost predicate Served(s: State, o: Outcome, turns: nat, c: nat)
    requires s.Shaped() && o.s.Shaped() && c < CLASS_COUNT
  {
    ClassBytes(o.sent, c) + o.s.deficits[c] <= s.deficits[c] + Times(Quantum(c), turns)
  }

  lemma ServedChain(s: State, first: Outcome, rest: Outcome, o: Outcome, j: nat, k: nat, turns: nat, c: nat)
    requires s.Shaped() && first.s.Shaped() && rest.s.Shaped() && c < CLASS_COUNT
    requires Served(s, first, j, c) && Served(first.s, rest, k, c)
    requires o.sent == first.sent + rest.sent && o.s == rest.s && turns == j + k
    ensures Served(s, o, turns, c)
  {
    ClassBytesConcat(first.sent, rest.sent, c);
    TimesAdd(Quantum(c), j, k);
  }

  lemma ExecNothing(s: State, ops: seq<Op>, c: nat)
    requires s.Shaped() && |ops| == 0 && c < CLASS_COUNT
    ensures Served(s, Exec(s, ops), ExecTurns(s, ops, c), c)
  {
  }

  lemma ExecStep(s: State, ops: seq<Op>, c: nat)
    requires s.Shaped() && ops != []
    ensures var first := Do(s, ops[0]);
      var rest := Exec(first.s, ops[1..]);
      && Exec(s, ops) == Outcome(rest.s, first.accepted + rest.accepted, first.sent + rest.sent)
      && ExecTurns(s, ops, c) == OpTurns(s, ops[0], c) + ExecTurns(first.s, ops[1..], c)
  {
  }

  /** One operation and the rest of a run, put together. */
  lemma ExecSplit(s: State, ops: seq<Op>, o: Outcome, turns: nat, c: nat)
    returns (first: Outcome, rest: Outcome, j: nat, k: nat)
    requires Valid(s) && c < CLASS_COUNT && o == Exec(s, ops) && turns == ExecTurns(s, ops, c) && |ops| > 0
    ensures Valid(first.s) && rest == Exec(first.s, ops[1..]) && k == ExecTurns(first.s, ops[1..], c)
    ensures Served(s, first, j, c) && turns == j + k && o.sent == first.sent + rest.sent && o.s == rest.s
  {
    first, j := Do(s, ops[0]), OpTurns(s, ops[0], c);
    ExecStep(s, ops, c);
    DoValid(s, ops[0]);
    DoService(s, ops[0], c);
    rest, k := Exec(first.s, ops[1..]), ExecTurns(first.s, ops[1..], c);
  }

  lemma {:induction false} ExecService(s: State, ops: seq<Op>, o: Outcome, turns: nat, c: nat)
    requires Valid(s) && c < CLASS_COUNT && o == Exec(s, ops) && turns == ExecTurns(s, ops, c)
    ensures Served(s, o, turns, c)
    decreases |ops|
  {
    if |ops| == 0 {
      ExecNothing(s, ops, c);
    } else {
      var first, rest, j, k := ExecSplit(s, ops, o, turns, c);
      ExecService(first.s, ops[1..], rest, k, c);
      ServedChain(s, first, rest, o, j, k, turns, c);
    }
  }

  /** A class never sends more than its saved deficit and one quantum per turn it was given. */
  lemma ServiceBound(s: State, ops: seq<Op>, c: nat)
    requires Valid(s) && c < CLASS_COUNT
    ensures ClassBytes(Exec(s, ops).sent, c) + Exec(s, ops).s.deficits[c]
      <= s.deficits[c] + Quantum(c) * ExecTurns(s, ops, c)
  {
    ExecService(s, ops, Exec(s, ops), ExecTurns(s, ops, c), c);
    TimesIsProduct(Quantum(c), ExecTurns(s, ops, c));
  }
}
