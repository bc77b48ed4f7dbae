/** Progress and fairness of the frame scheduler over any interleaving of operations. */
module SchedulerFairness {
  import opened Results
  import opened Wire
  import opened Scheduler

  predicate HasEligible(s: State, c: nat)
    requires s.Shaped() && c < CLASS_COUNT
  {
    s.Position(c, s.queues[c]).Some?
  }

  /** Cost of the frame class `c` would send next. */
  function NextCost(s: State, c: nat): nat
    requires s.Shaped() && c < CLASS_COUNT && HasEligible(s, c)
  {
    s.queues[c][s.Position(c, s.queues[c]).value].Cost()
  }

  // ---------------------------------------------------------------- something can always leave

  lemma {:induction false} SomeQueueNonempty(queues: seq<seq<Item>>) returns (c: nat)
    requires TotalBytes(queues) > 0
    ensures c < |queues| && queues[c] != []
  {
    if queues[0] != [] {
      c := 0;
    } else {
      c := SomeQueueNonempty(queues[1..]);
      c := c + 1;
    }
  }

  /** A scheduler that holds anything has an eligible frame. */
  lemma NonemptyHasEligible(s: State) returns (c: nat)
    requires Valid(s) && s.queuedBytes > 0
    ensures c < CLASS_COUNT && HasEligible(s, c)
  {
    var d := SomeQueueNonempty(s.queues);
    var id := s.queues[d][0].StreamId();
    FilterElements(s.queues[d], id);
    var lanes := Lanes(s.queues, id);
    assert StreamOk(s, id);
    assert s.queues[d][0] in lanes[d];
    c := s.Classes(id)[0];
    FilterElements(s.queues[c], id);
    var item := lanes[c][0];
    assert item in lanes[c];
    var k :| 0 <= k < |s.queues[c]| && s.queues[c][k] == item;
    assert s.Eligible(c, s.queues[c][k]);
  }

  // ---------------------------------------------------------------- when dequeue finds nothing

  /** How often class `c` has its turn in the next `n` turns. */
  function Turns(cursor: nat, n: nat, c: nat): nat
    requires cursor < CLASS_COUNT
    decreases n
  {
    if n == 0 then 0 else (if cursor == c then 1 else 0) + Turns(Next(cursor), n - 1, c)
  }

  lemma TurnsStep(cursor: nat, n: nat, c: nat)
    requires cursor < CLASS_COUNT
    ensures Turns(cursor, n + 1, c) == (if cursor == c then 1 else 0) + Turns(Next(cursor), n, c)
  {
  }

  lemma TurnsRound(cursor: nat, n: nat, c: nat)
    requires cursor < CLASS_COUNT && c < CLASS_COUNT
    ensures Turns(cursor, n + 5, c) == 1 + Turns(cursor, n, c)
  {
    var d := Next(cursor);
    var e := Next(d);
    var f := Next(e);
    var g := Next(f);
    TurnsStep(cursor, n + 4, c);
    TurnsStep(d, n + 3, c);
    TurnsStep(e, n + 2, c);
    TurnsStep(f, n + 1, c);
    TurnsStep(g, n, c);
  }

  lemma {:induction false} TurnsPerRound(cursor: nat, rounds: nat, c: nat)
    requires cursor < CLASS_COUNT && c < CLASS_COUNT
    ensures Turns(cursor, CLASS_COUNT * rounds, c) == rounds
    decreases rounds
  {
    if rounds > 0 {
      TurnsPerRound(cursor, rounds - 1, c);
      TurnsRound(cursor, CLASS_COUNT * (rounds - 1), c);
    }
  }

  /** Class `c` cannot afford its next frame within `turns` turns of its own. */
  predicate OutOfReach(s: State, c: nat, turns: nat)
    requires s.Shaped() && c < CLASS_COUNT
  {
    HasEligible(s, c) && turns > 0 ==> s.deficits[c] + turns * Quantum(c) < NextCost(s, c)
  }

  lemma SamePositions(s: State, t: State, c: nat, q: seq<Item>)
    requires t.streamClasses == s.streamClasses
    ensures t.Position(c, q) == s.Position(c, q)
  {
  }

  lemma CostBounded(item: Item)
    ensures item.Cost() <= WORD_MAX
  {
  }

  /** A turn without a frame leaves every class as far from its goal as before. */
  lemma IdleTurn(s: State, turns: nat, c: nat)
    requires s.Shaped() && c < CLASS_COUNT && s.Visit().1.None?
    requires s.cursor == c ==> turns > 0
    ensures var t := s.Visit().0;
      && t.queues == s.queues && t.streamClasses == s.streamClasses && t.cursor == Next(s.cursor)
      && (OutOfReach(s, c, turns) <==> OutOfReach(t, c, if s.cursor == c then turns - 1 else turns))
  {
    var t := s.Visit().0;
    SamePositions(s, t, c, s.queues[c]);
    if s.cursor == c && HasEligible(s, c) {
      CostBounded(s.queues[c][s.Position(c, s.queues[c]).value]);
      var q := Quantum(c);
      assert turns * q == (turns - 1) * q + q;
      assert t.deficits[c] == s.deficits[c] + q < NextCost(s, c);
    }
  }

  /** Class `c` emits nothing in the next `n` turns of the search. */
  predicate Stuck(s: State, n: nat, c: nat)
    requires s.Shaped() && c < CLASS_COUNT
  {
    OutOfReach(s, c, Turns(s.cursor, n, c))
  }

  ghost predicate AllStuck(s: State, n: nat)
    requires s.Shaped()
  {
    forall c :: 0 <= c < CLASS_COUNT ==> Stuck(s, n, c)
  }

  lemma NoTurns(s: State)
    requires s.Shaped()
    ensures AllStuck(s, 0)
  {
  }

  lemma EmittingTurn(s: State, n: nat)
    requires s.Shaped() && s.Visit().1.Some? && n > 0
    ensures !AllStuck(s, n)
  {
    var q, turns := Quantum(s.cursor), Turns(s.cursor, n, s.cursor);
    assert turns * q >= q by { assert turns * q == (turns - 1) * q + q; }
    assert !Stuck(s, n, s.cursor);
  }

  lemma IdleTurns(s: State, t: State, n: nat, later: nat)
    requires s.Shaped() && s.Visit() == (t, None) && n == later + 1
    ensures AllStuck(s, n) <==> AllStuck(t, later)
  {
    forall c | 0 <= c < CLASS_COUNT
      ensures Stuck(s, n, c) <==> Stuck(t, later, c)
    {
      IdleTurn(s, Turns(s.cursor, n, c), c);
    }
    if AllStuck(s, n) {
      forall c | 0 <= c < CLASS_COUNT ensures Stuck(t, later, c) { assert Stuck(s, n, c); }
    }
    if AllStuck(t, later) {
      forall c | 0 <= c < CLASS_COUNT ensures Stuck(s, n, c) { assert Stuck(t, later, c); }
    }
  }

  lemma SearchStep(s: State, t: State, out: Option<Item>, n: nat)
    requires s.Shaped() && s.Visit() == (t, out)
    ensures s.Search(n + 1) == if out.Some? then (t, out) else t.Search(n)
  {
  }

  lemma {:induction false} SearchNoneIff(s: State, n: nat, end: State, found: Option<Item>)
    requires s.Shaped() && s.Search(n) == (end, found)
    ensures found.None? <==> AllStuck(s, n)
    decreases n
  {
    if n == 0 {
      NoTurns(s);
    } else {
      var (t, out) := s.Visit();
      SearchStep(s, t, out, n - 1);
      if out.Some? {
        EmittingTurn(s, n);
      } else {
        IdleTurns(s, t, n, n - 1);
        SearchNoneIff(t, n - 1, end, found);
      }
    }
  }

  /** Dequeue on a non-empty scheduler comes back empty-handed exactly when, for every class
      with an eligible frame, that frame costs more than the saved deficit and 512 quanta. */
  lemma DequeueNoneIff(s: State)
    requires Valid(s) && s.queuedBytes > 0
    ensures s.Dequeue().1.None? <==>
      forall c :: 0 <= c < CLASS_COUNT && HasEligible(s, c) ==> NextCost(s, c) > s.deficits[c] + 512 * Quantum(c)
  {
    var (t, out) := s.Search(s.Attempts());
    SearchNoneIff(s, s.Attempts(), t, out);
    forall c | 0 <= c < CLASS_COUNT
      ensures Stuck(s, s.Attempts(), c) <==>
        (HasEligible(s, c) ==> NextCost(s, c) > s.deficits[c] + 512 * Quantum(c))
    {
      TurnsPerRound(s.cursor, 512, c);
    }
  }

  /** With no more than 512 bulk quanta queued in all, something always leaves. */
  lemma LittleQueuedLeaves(s: State)
    requires Valid(s) && 0 < s.queuedBytes <= 512 * 4_096
    ensures s.Dequeue().1.Some?
  {
    DequeueNoneIff(s);
    var c := NonemptyHasEligible(s);
    var q, p := s.queues[c], s.Position(c, s.queues[c]).value;
    SplitAt(q, p, 0);
    TotalBytesUpdate(s.queues, c, q[..p] + q[p + 1..]);
    assert NextCost(s, c) <= s.queuedBytes;
  }

  /** It does come back empty-handed: one bulk frame of more than 512 bulk quanta suffices. */
  lemma DequeueCanStall(item: Item, max: nat)
    requires item.class_.Bulk? && 512 * 4_096 < HEADER_LEN + |item.frame.payload| <= max <= WORD_MAX
    ensures var r := New(max).Enqueue(item);
      r.Ok? && Valid(r.value) && r.value.queuedBytes > 0 && r.value.Dequeue().1.None?
  {
    NewValid(max);
    EnqueueSpec(New(max), item);
    var s := New(max).Enqueue(item).value;
    assert s.queues[4] == [] + [item];
    DequeueNoneIff(s);
  }
}
