/** Credit does not outlive an idle turn: what a class sends is paid for since it last had nothing to
    send at its turn, and what it saves up is bounded. */
module SchedulerForfeit {
  import opened Results
  import opened Wire
  import opened Scheduler
  import opened SchedulerFairness
  import opened SchedulerRuns

  // ---------------------------------------------------------------- since the last idle turn

  /** Nothing of the class may leave: no queued frame of it is the oldest of its stream. */
  predicate NothingToSend(s: State, c: nat)
    requires s.Shaped() && c < CLASS_COUNT
  {
    forall k :: 0 <= k < |s.queues[c]| ==> !s.Eligible(c, s.queues[c][k])
  }

  /** Of a class since its last turn with nothing to send: bytes sent, turns taken, those among them at
      which it had not saved enough for its next frame, and the deficit it had at the beginning,
      none after such a turn. */
  datatype Meter = Meter(bytes: nat, turns: nat, short: nat, saved: nat)

  const ZERO := Meter(0, 0, 0, 0)

  function MeterTurn(m: Meter, s: State, out: Option<Item>, c: nat): Meter
    requires s.Shaped() && c < CLASS_COUNT
  {
    if s.cursor != c then m
    else if NothingToSend(s, c) then ZERO
    else
      m.(bytes := m.bytes + SpentBy(out, c), turns := m.turns + 1,
         short := m.short + if s.deficits[c] < NextCost(s, c) then 1 else 0)
  }

  function MeterSearch(m: Meter, s: State, n: nat, c: nat): Meter
    requires s.Shaped() && c < CLASS_COUNT
    decreases n
  {
    if n == 0 then m
    else
      var (t, out) := s.Visit();
      var m' := MeterTurn(m, s, out, c);
      if out.Some? then m' else MeterSearch(m', t, n - 1, c)
  }

  function MeterOp(m: Meter, s: State, op: Op, c: nat): Meter
    requires s.Shaped() && c < CLASS_COUNT
  {
    if op.Get? && s.queuedBytes != 0 then MeterSearch(m, s, s.Attempts(), c) else m
  }

  function MeterRun(m: Meter, s: State, ops: seq<Op>, c: nat): Meter
    requires s.Shaped() && c < CLASS_COUNT
    decreases |ops|
  {
    if ops == [] then m else MeterRun(MeterOp(m, s, ops[0], c), Do(s, ops[0]).s, ops[1..], c)
  }

  /** Sent and saved are what there was and a quantum for each turn that fell short. */
  ghost predicate Paid(m: Meter, s: State, c: nat)
    requires s.Shaped() && c < CLASS_COUNT
  {
    m.bytes + s.deficits[c] == m.saved + Times(Quantum(c), m.short) && m.short <= m.turns
  }

  /** A scheduler whose bound leaves room for a quantum, so that no deficit saturates. */
  ghost predicate Roomy(s: State) { Valid(s) && s.maxQueuedBytes + Quantum(0) <= WORD_MAX }

  /** A class with nothing to send at its turn loses what it saved. */
  lemma IdleForfeits(s: State)
    requires s.Shaped()
    ensures NothingToSend(s, s.cursor) ==> s.Visit().1.None? && s.Visit().0.deficits[s.cursor] == 0
  {
  }

  lemma CostWithinBound(s: State)
    requires Valid(s) && HasEligible(s, s.cursor)
    ensures NextCost(s, s.cursor) <= s.maxQueuedBytes
  {
    var c := s.cursor;
    var q, p := s.queues[c], s.Position(c, s.queues[c]).value;
    SplitAt(q, p, 0);
    TotalBytesUpdate(s.queues, c, q[..p] + q[p + 1..]);
  }

  lemma TurnPaid(m: Meter, s: State, t: State, out: Option<Item>, c: nat)
    requires Roomy(s) && s.Visit() == (t, out) && c < CLASS_COUNT && Paid(m, s, c)
    ensures Paid(MeterTurn(m, s, out, c), t, c)
  {
    IdleForfeits(s);
    if s.cursor == c && HasEligible(s, c) {
      CostWithinBound(s);
      if out.Some? { VisitClass(s); }
    }
  }

  lemma VisitRoomy(s: State)
    requires Roomy(s)
    ensures Roomy(s.Visit().0)
  {
    VisitSpec(s);
  }

  lemma {:induction false} SearchPaid(m: Meter, s: State, n: nat, end: State, found: Option<Item>, c: nat)
    requires Roomy(s) && c < CLASS_COUNT && Paid(m, s, c) && s.Search(n) == (end, found)
    ensures Paid(MeterSearch(m, s, n, c), end, c) && Roomy(end)
    decreases n
  {
    if n > 0 {
      var (t, out) := s.Visit();
      SearchStep(s, t, out, n - 1);
      VisitRoomy(s);
      TurnPaid(m, s, t, out, c);
      if out.None? { SearchPaid(MeterTurn(m, s, out, c), t, n - 1, end, found, c); }
    }
  }

  lemma OpPaid(m: Meter, s: State, op: Op, c: nat)
    requires Roomy(s) && c < CLASS_COUNT && Paid(m, s, c)
    ensures Paid(MeterOp(m, s, op, c), Do(s, op).s, c) && Roomy(Do(s, op).s)
  {
    if op.Put? {
      EnqueueSpec(s, op.item);
    } else if s.queuedBytes != 0 {
      var (t, out) := s.Search(s.Attempts());
      SearchPaid(m, s, s.Attempts(), t, out, c);
    }
  }

  lemma {:induction false} RunPaid(m: Meter, s: State, ops: seq<Op>, c: nat, o: Outcome)
    requires Roomy(s) && c < CLASS_COUNT && Paid(m, s, c) && o == Exec(s, ops)
    ensures Paid(MeterRun(m, s, ops, c), o.s, c)
    decreases |ops|
  {
    if |ops| > 0 {
      var first := Do(s, ops[0]);
      OpPaid(m, s, ops[0], c);
      RunPaid(MeterOp(m, s, ops[0], c), first.s, ops[1..], c, Exec(first.s, ops[1..]));
    }
  }

  lemma {:induction false} SearchForgets(m: Meter, s: State, n: nat, c: nat)
    requires s.Shaped() && c < CLASS_COUNT
    ensures MeterSearch(m, s, n, c).saved <= m.saved
    decreases n
  {
    if n > 0 {
      var (t, out) := s.Visit();
      if out.None? { SearchForgets(MeterTurn(m, s, out, c), t, n - 1, c); }
    }
  }

  lemma {:induction false} RunForgets(m: Meter, s: State, ops: seq<Op>, c: nat)
    requires s.Shaped() && c < CLASS_COUNT
    ensures MeterRun(m, s, ops, c).saved <= m.saved
    decreases |ops|
  {
    if |ops| > 0 {
      if ops[0].Get? && s.queuedBytes != 0 { SearchForgets(m, s, s.Attempts(), c); }
      RunForgets(MeterOp(m, s, ops[0], c), Do(s, ops[0]).s, ops[1..], c);
    }
  }

  /** Over every run of a scheduler, from its creation: what a class has sent since it last had nothing
      to send at its turn, and what it has saved, come to exactly a quantum for each of its turns
      since then that found too little saved. Credit from before does not count. */
  lemma NoCreditFromBeforeIdling(maxQueuedBytes: nat, ops: seq<Op>, c: nat)
    requires maxQueuedBytes + Quantum(0) <= WORD_MAX && c < CLASS_COUNT
    ensures var s := New(maxQueuedBytes);
      var m := MeterRun(ZERO, s, ops, c);
      m.bytes + Exec(s, ops).s.deficits[c] == Quantum(c) * m.short && m.short <= m.turns
  {
    var s := New(maxQueuedBytes);
    NewValid(maxQueuedBytes);
    RunPaid(ZERO, s, ops, c, Exec(s, ops));
    RunForgets(ZERO, s, ops, c);
    TimesIsProduct(Quantum(c), MeterRun(ZERO, s, ops, c).short);
  }

  // ---------------------------------------------------------------- the meter reads what was sent

  /** The meter has gone on by so much. */
  predicate Reads(m: Meter, m': Meter, bytes: nat, turns: nat) {
    m'.bytes == m.bytes + bytes && m'.turns == m.turns + turns && m'.saved == m.saved
  }

  /** As long as the class always has something to send, the meter reads all bytes and all turns. */
  lemma {:induction false} SearchMetered(m: Meter, s: State, n: nat, end: State, found: Option<Item>, c: nat)
    requires Valid(s) && c < CLASS_COUNT && s.Search(n) == (end, found)
    ensures Reads(m, MeterSearch(m, s, n, c), SpentBy(found, c), SearchTurns(s, n, c)) || IdlesIn(s, n, c)
    decreases n
  {
    if n > 0 {
      var (t, out) := s.Visit();
      SearchStep(s, t, out, n - 1);
      VisitSpec(s);
      if out.Some? { VisitClass(s); }
      else { SearchMetered(MeterTurn(m, s, out, c), t, n - 1, end, found, c); }
    }
  }

  /** Some turn of the class in the search finds it with nothing to send. */
  predicate IdlesIn(s: State, n: nat, c: nat)
    requires s.Shaped() && c < CLASS_COUNT
    decreases n
  {
    n > 0 && ((s.cursor == c && NothingToSend(s, c)) || (s.Visit().1.None? && IdlesIn(s.Visit().0, n - 1, c)))
  }

  predicate IdlesRun(s: State, ops: seq<Op>, c: nat)
    requires s.Shaped() && c < CLASS_COUNT
    decreases |ops|
  {
    && ops != []
    && ((ops[0].Get? && s.queuedBytes != 0 && IdlesIn(s, s.Attempts(), c)) || IdlesRun(Do(s, ops[0]).s, ops[1..], c))
  }

  lemma OpMetered(m: Meter, s: State, op: Op, c: nat)
    requires Valid(s) && c < CLASS_COUNT
    ensures Reads(m, MeterOp(m, s, op, c), ClassBytes(Do(s, op).sent, c), OpTurns(s, op, c))
      || (op.Get? && s.queuedBytes != 0 && IdlesIn(s, s.Attempts(), c))
  {
    if op.Get? && s.queuedBytes != 0 {
      var (t, out) := s.Search(s.Attempts());
      SearchMetered(m, s, s.Attempts(), t, out, c);
      if out.Some? { assert [out.value][1..] == []; }
    }
  }

  /** Over a run without an idle turn of the class, the meter reads all it sent and all its turns. */
  lemma {:induction false} RunMetered(m: Meter, s: State, ops: seq<Op>, c: nat, o: Outcome, turns: nat)
    requires Valid(s) && c < CLASS_COUNT && !IdlesRun(s, ops, c) && o == Exec(s, ops) && turns == ExecTurns(s, ops, c)
    ensures Reads(m, MeterRun(m, s, ops, c), ClassBytes(o.sent, c), turns)
    decreases |ops|
  {
    if |ops| > 0 {
      var first, j := Do(s, ops[0]), OpTurns(s, ops[0], c);
      var rest, k := Exec(first.s, ops[1..]), ExecTurns(first.s, ops[1..], c);
      ExecStep(s, ops, c);
      DoValid(s, ops[0]);
      OpMetered(m, s, ops[0], c);
      RunMetered(MeterOp(m, s, ops[0], c), first.s, ops[1..], c, rest, k);
      ClassBytesConcat(first.sent, rest.sent, c);
    }
  }

  // ---------------------------------------------------------------- what is saved up

  function Max(a: nat, b: nat): nat { if a >= b then a else b }

  /** No frame of the class costs more than `most`, and less than that or a quantum is saved. */
  ghost predicate Modest(s: State, c: nat, most: nat)
    requires s.Shaped() && c < CLASS_COUNT
  {
    Small(s, c, most) && s.deficits[c] < Max(most, Quantum(c))
  }

  lemma VisitModest(s: State, t: State, out: Option<Item>, c: nat, most: nat)
    requires s.Shaped() && s.Visit() == (t, out) && c < CLASS_COUNT && Modest(s, c, most)
    ensures Modest(t, c, most)
  {
    var p := s.Position(s.cursor, s.queues[s.cursor]);
    if s.cursor == c && p.Some? {
      var q := s.queues[c];
      assert q[p.value].Cost() <= most;
      if out.Some? {
        assert forall k :: 0 <= k < |t.queues[c]| ==> t.queues[c][k] == if k < p.value then q[k] else q[k + 1];
      }
    }
  }

  lemma {:induction false} SearchModest(s: State, n: nat, end: State, found: Option<Item>, c: nat, most: nat)
    requires s.Shaped() && s.Search(n) == (end, found) && c < CLASS_COUNT && Modest(s, c, most)
    ensures Modest(end, c, most)
    decreases n
  {
    if n > 0 {
      var (t, out) := s.Visit();
      SearchStep(s, t, out, n - 1);
      VisitModest(s, t, out, c, most);
      if out.None? { SearchModest(t, n - 1, end, found, c, most); }
    }
  }

  lemma OpModest(s: State, op: Op, c: nat, most: nat)
    requires s.Shaped() && c < CLASS_COUNT && Modest(s, c, most)
    requires op.Put? && op.item.class_.Index() == c ==> op.item.Cost() <= most
    ensures Modest(Do(s, op).s, c, most)
  {
    if op.Get? && s.queuedBytes != 0 {
      var (t, out) := s.Search(s.Attempts());
      SearchModest(s, s.Attempts(), t, out, c, most);
    }
  }

  lemma {:induction false} RunModest(s: State, ops: seq<Op>, c: nat, most: nat, o: Outcome)
    requires s.Shaped() && c < CLASS_COUNT && Modest(s, c, most) && o == Exec(s, ops)
    requires forall op :: op in ops && op.Put? && op.item.class_.Index() == c ==> op.item.Cost() <= most
    ensures Modest(o.s, c, most)
    decreases |ops|
  {
    if |ops| > 0 {
      assert ops[0] in ops;
      OpModest(s, ops[0], c, most);
      RunModest(Do(s, ops[0]).s, ops[1..], c, most, Exec(Do(s, ops[0]).s, ops[1..]));
    }
  }

  /** Over every run of a scheduler, from its creation: a class never saves as much as its largest
      frame costs, or as a quantum if that is more. */
  lemma SavingsAreBounded(maxQueuedBytes: nat, ops: seq<Op>, c: nat, most: nat)
    requires c < CLASS_COUNT
    requires forall op :: op in ops && op.Put? && op.item.class_.Index() == c ==> op.item.Cost() <= most
    ensures Exec(New(maxQueuedBytes), ops).s.deficits[c] < Max(most, Quantum(c))
  {
    RunModest(New(maxQueuedBytes), ops, c, most, Exec(New(maxQueuedBytes), ops));
  }
}
