/** The deficit-round-robin frame scheduler, as a value and its operations. */
module Scheduler {
  import opened Results
  import opened Wire

  const CLASS_COUNT: nat := 5
  /** The largest machine word; the additions below saturate at it. */
  const WORD_MAX: nat := 0xffff_ffff_ffff_ffff

  datatype TrafficClass = Control | Interactive | Events | Forwarding | Bulk {
    function Index(): (i: nat)
      ensures i < CLASS_COUNT
    {
      match this
      case Control => 0
      case Interactive => 1
      case Events => 2
      case Forwarding => 3
      case Bulk => 4
    }
  }

  function ForCommand(command: Command): TrafficClass {
    if command.Open? || command.Data? then Bulk else Control
  }

  function Quantum(index: nat): nat
    requires index < CLASS_COUNT
  {
    [65_536, 32_768, 16_384, 8_192, 4_096][index]
  }

  /** The class after `c` in round-robin order. */
  function Next(c: nat): (d: nat)
    requires c < CLASS_COUNT
    ensures d < CLASS_COUNT
  {
    if c == CLASS_COUNT - 1 then 0 else c + 1
  }

  function SaturatingAdd(a: nat, b: nat): nat { if a + b <= WORD_MAX then a + b else WORD_MAX }

  datatype Item = Item(class_: TrafficClass, frame: Frame) {
    function Cost(): (n: nat)
      ensures n > 0
    {
      SaturatingAdd(HEADER_LEN, |frame.payload|)
    }

    function StreamId(): u32 { frame.header.streamId }
  }

  datatype State = State(
    queues: seq<seq<Item>>, streamClasses: map<u32, seq<nat>>, deficits: seq<nat>,
    cursor: nat, queuedBytes: nat, maxQueuedBytes: nat)
  {
    predicate Shaped() {
      |queues| == CLASS_COUNT && |deficits| == CLASS_COUNT && cursor < CLASS_COUNT
    }

    /** Classes of the stream's queued frames, oldest first. */
    function Classes(id: u32): seq<nat> {
      if id in streamClasses then streamClasses[id] else []
    }

    /** Only the oldest frame of a stream may leave: its class must head the stream's list. */
    predicate Eligible(index: nat, item: Item) {
      var classes := Classes(item.StreamId());
      classes != [] && classes[0] == index
    }

    function Advance(): (t: State)
      requires cursor < CLASS_COUNT
      ensures t.cursor == Next(cursor)
    {
      this.(cursor := (cursor + 1) % CLASS_COUNT)
    }

    function Enqueue(item: Item): (r: Result<State, ()>)
      requires Shaped()
      ensures r.Ok? ==> r.value.Shaped()
    {
      var next := queuedBytes + item.Cost();
      if next > WORD_MAX || next > maxQueuedBytes then Err(())
      else
        var c := item.class_.Index();
        Ok(this.(queues := queues[c := queues[c] + [item]],
                 streamClasses := streamClasses[item.StreamId() := Classes(item.StreamId()) + [c]],
                 queuedBytes := next))
    }

    /** Position of the first eligible frame of a queue. */
    function Position(index: nat, q: seq<Item>): (p: Option<nat>)
      ensures p.Some? ==> p.value < |q| && Eligible(index, q[p.value])
      ensures p.Some? ==> forall k :: 0 <= k < p.value ==> !Eligible(index, q[k])
      ensures p.None? ==> forall k :: 0 <= k < |q| ==> !Eligible(index, q[k])
    {
      if q == [] then None
      else if Eligible(index, q[0]) then Some(0)
      else
        var rest := Position(index, q[1..]);
        if rest.None? then None else Some(rest.value + 1)
    }

    function Remove(index: nat, position: nat): State
      requires Shaped() && index < CLASS_COUNT && position < |queues[index]|
    {
      var item := queues[index][position];
      var classes := Classes(item.StreamId());
      this.(queues := queues[index := queues[index][..position] + queues[index][position + 1..]],
            streamClasses := if |classes| <= 1 then streamClasses - {item.StreamId()}
                             else streamClasses[item.StreamId() := classes[1..]],
            queuedBytes := if queuedBytes >= item.Cost() then queuedBytes - item.Cost() else 0)
    }

    /** One turn of the search loop: the class at the cursor emits, saves up, or forfeits. */
    function Visit(): (r: (State, Option<Item>))
      requires Shaped()
      ensures r.0.Shaped()
    {
      var position := Position(cursor, queues[cursor]);
      if position.None? then (this.(deficits := deficits[cursor := 0]).Advance(), None)
      else
        var item := queues[cursor][position.value];
        var deficit := Charged(cursor, item);
        if deficit < item.Cost() then (this.(deficits := deficits[cursor := deficit]).Advance(), None)
        else
          (this.(deficits := deficits[cursor := deficit - item.Cost()]).Remove(cursor, position.value).Advance(),
           Some(item))
    }

    /** The class deficit once a frame has been considered. */
    function Charged(index: nat, item: Item): nat
      requires Shaped() && index < CLASS_COUNT
    {
      if deficits[index] < item.Cost() then SaturatingAdd(deficits[index], Quantum(index)) else deficits[index]
    }

    /** At most `attempts` turns, stopping at the first frame. */
    function Search(attempts: nat): (r: (State, Option<Item>))
      requires Shaped()
      ensures r.0.Shaped()
      decreases attempts
    {
      if attempts == 0 then (this, None)
      else
        var r := Visit();
        if r.1.Some? then r else r.0.Search(attempts - 1)
    }

    /** Enough turns for every class to save up 512 quanta. */
    function Attempts(): (n: nat)
      requires Shaped()
      ensures n == CLASS_COUNT * 512
    {
      |queues| * 512
    }

    function Dequeue(): (r: (State, Option<Item>))
      requires Shaped()
      ensures r.0.Shaped()
    {
      if queuedBytes == 0 then (this, None) else Search(Attempts())
    }
  }

  function New(maxQueuedBytes: nat): State {
    State([[], [], [], [], []], map[], [0, 0, 0, 0, 0], 0, 0, maxQueuedBytes)
  }

  // ---------------------------------------------------------------- abstraction

  function Filter(q: seq<Item>, id: u32): seq<Item> {
    if q == [] then [] else (if q[0].StreamId() == id then [q[0]] else []) + Filter(q[1..], id)
  }

  /** The frames of one stream in each of the class queues. */
  function Lanes(queues: seq<seq<Item>>, id: u32): (lanes: seq<seq<Item>>)
    ensures |lanes| == |queues|
    ensures forall c :: 0 <= c < |queues| ==> lanes[c] == Filter(queues[c], id)
  {
    seq(|queues|, c requires 0 <= c < |queues| => Filter(queues[c], id))
  }

  /** `classes` names, oldest first, the lane each frame waits in. */
  predicate Consistent(classes: seq<nat>, lanes: seq<seq<Item>>)
    decreases |classes|
  {
    if classes == [] then forall c :: 0 <= c < |lanes| ==> lanes[c] == []
    else
      && classes[0] < |lanes| && lanes[classes[0]] != []
      && Consistent(classes[1..], lanes[classes[0] := lanes[classes[0]][1..]])
  }

  /** The stream's frames in the order they were queued. */
  function Merge(classes: seq<nat>, lanes: seq<seq<Item>>): seq<Item>
    requires Consistent(classes, lanes)
    decreases |classes|
  {
    if classes == [] then []
    else [lanes[classes[0]][0]] + Merge(classes[1..], lanes[classes[0] := lanes[classes[0]][1..]])
  }

  function Bytes(q: seq<Item>): nat {
    if q == [] then 0 else q[0].Cost() + Bytes(q[1..])
  }

  function TotalBytes(queues: seq<seq<Item>>): nat {
    if queues == [] then 0 else Bytes(queues[0]) + TotalBytes(queues[1..])
  }

  /** The class list of a stream accounts for every one of its queued frames. */
  ghost predicate StreamOk(s: State, id: u32) {
    Consistent(s.Classes(id), Lanes(s.queues, id))
  }

  ghost predicate Valid(s: State) {
    && s.Shaped()
    && (forall id: u32 :: StreamOk(s, id))
    && (forall c, k :: 0 <= c < CLASS_COUNT && 0 <= k < |s.queues[c]| ==> s.queues[c][k].class_.Index() == c)
    && s.queuedBytes == TotalBytes(s.queues)
    && s.queuedBytes <= s.maxQueuedBytes <= WORD_MAX
  }

  /** The abstract contents: every stream is a FIFO. */
  ghost function Pending(s: State, id: u32): seq<Item>
    requires StreamOk(s, id)
  {
    Merge(s.Classes(id), Lanes(s.queues, id))
  }

  // ---------------------------------------------------------------- lemmas on queues

  lemma {:induction false} FilterConcat(q: seq<Item>, r: seq<Item>, id: u32)
    ensures Filter(q + r, id) == Filter(q, id) + Filter(r, id)
  {
    if q == [] {
      assert q + r == r;
    } else {
      assert (q + r)[1..] == q[1..] + r;
      FilterConcat(q[1..], r, id);
      var head := if q[0].StreamId() == id then [q[0]] else [];
      assert head + (Filter(q[1..], id) + Filter(r, id)) == (head + Filter(q[1..], id)) + Filter(r, id);
    }
  }

  lemma {:induction false} FilterNone(q: seq<Item>, id: u32)
    requires forall k :: 0 <= k < |q| ==> q[k].StreamId() != id
    ensures Filter(q, id) == []
  {
    if q != [] { FilterNone(q[1..], id); }
  }

  lemma {:induction false} FilterElements(q: seq<Item>, id: u32)
    ensures forall item :: item in Filter(q, id) <==> item in q && item.StreamId() == id
  {
    if q != [] {
      assert q == [q[0]] + q[1..];
      FilterElements(q[1..], id);
    }
  }

  lemma {:induction false} BytesConcat(q: seq<Item>, r: seq<Item>)
    ensures Bytes(q + r) == Bytes(q) + Bytes(r)
  {
    if q == [] {
      assert q + r == r;
    } else {
      assert (q + r)[1..] == q[1..] + r;
      BytesConcat(q[1..], r);
    }
  }

  lemma {:induction false} TotalBytesUpdate(queues: seq<seq<Item>>, c: nat, q: seq<Item>)
    requires c < |queues|
    ensures TotalBytes(queues[c := q]) + Bytes(queues[c]) == TotalBytes(queues) + Bytes(q)
  {
    if c == 0 {
      assert queues[0 := q][1..] == queues[1..];
    } else {
      assert queues[c := q][1..] == queues[1..][c - 1 := q];
      TotalBytesUpdate(queues[1..], c - 1, q);
    }
  }

  lemma {:induction false} MergeAppend(classes: seq<nat>, lanes: seq<seq<Item>>, c: nat, item: Item)
    requires Consistent(classes, lanes) && c < |lanes|
    ensures Consistent(classes + [c], lanes[c := lanes[c] + [item]])
    ensures Merge(classes + [c], lanes[c := lanes[c] + [item]]) == Merge(classes, lanes) + [item]
    decreases |classes|
  {
    var longer := lanes[c := lanes[c] + [item]];
    if classes == [] {
      assert [c][1..] == [];
      assert longer[c][1..] == lanes[c];
      assert longer[c := longer[c][1..]] == lanes;
    } else {
      var k := classes[0];
      var rest := lanes[k := lanes[k][1..]];
      MergeAppend(classes[1..], rest, c, item);
      assert (classes + [c])[1..] == classes[1..] + [c];
      assert k == c ==> longer[k][1..] == rest[c] + [item];
      assert longer[k := longer[k][1..]] == rest[c := rest[c] + [item]];
    }
  }

  /** The frame, if it is one of the stream's. */
  function Tail(item: Item, id: u32): seq<Item> { if item.StreamId() == id then [item] else [] }

  // ---------------------------------------------------------------- enqueue

  lemma EnqueueLanes(queues: seq<seq<Item>>, item: Item, id: u32)
    requires item.class_.Index() < |queues|
    ensures var c := item.class_.Index();
      Lanes(queues[c := queues[c] + [item]], id) ==
      if id == item.StreamId() then Lanes(queues, id)[c := Lanes(queues, id)[c] + [item]] else Lanes(queues, id)
  {
    var c := item.class_.Index();
    FilterConcat(queues[c], [item], id);
    assert [item][1..] == [];
    assert Filter([item], id) == Tail(item, id);
    var more := Lanes(queues[c := queues[c] + [item]], id);
    assert id != item.StreamId() ==> more[c] == Lanes(queues, id)[c];
  }

  /** Enqueue puts the frame at the back of its stream and touches no other; it refuses
      exactly the frames that would exceed the byte bound. */
  lemma EnqueueSpec(s: State, item: Item)
    requires Valid(s)
    ensures s.Enqueue(item).Ok? <==> s.queuedBytes + item.Cost() <= s.maxQueuedBytes
    ensures s.Enqueue(item).Ok? ==> Valid(s.Enqueue(item).value)
    ensures s.Enqueue(item).Ok? ==>
      forall id: u32 :: Pending(s.Enqueue(item).value, id) == Pending(s, id) + Tail(item, id)
  {
    if s.Enqueue(item).Ok? {
      var t := s.Enqueue(item).value;
      var c := item.class_.Index();
      BytesConcat(s.queues[c], [item]);
      assert [item][1..] == [];
      TotalBytesUpdate(s.queues, c, s.queues[c] + [item]);
      forall id: u32
        ensures StreamOk(t, id) && Pending(t, id) == Pending(s, id) + Tail(item, id)
      {
        assert StreamOk(s, id);
        EnqueueLanes(s.queues, item, id);
        if id == item.StreamId() {
          MergeAppend(s.Classes(id), Lanes(s.queues, id), c, item);
        }
      }
    }
  }

  // ---------------------------------------------------------------- dequeue

  lemma SplitAt(q: seq<Item>, p: nat, id: u32)
    requires p < |q|
    ensures Filter(q, id) == Filter(q[..p], id) + (Tail(q[p], id) + Filter(q[p + 1..], id))
    ensures Filter(q[..p] + q[p + 1..], id) == Filter(q[..p], id) + Filter(q[p + 1..], id)
    ensures Bytes(q) == q[p].Cost() + Bytes(q[..p] + q[p + 1..])
  {
    var one, rest := [q[p]], q[p + 1..];
    assert q == q[..p] + (one + rest);
    assert one[1..] == [] && (one + rest)[1..] == rest;
    FilterConcat(q[..p], one + rest, id);
    FilterConcat(q[..p], rest, id);
    BytesConcat(q[..p], one + rest);
    BytesConcat(q[..p], rest);
  }

  /** The first eligible frame is the first of its stream in its queue. */
  lemma NoneBefore(s: State, index: nat, q: seq<Item>, p: nat)
    requires s.Position(index, q) == Some(p)
    ensures Filter(q[..p], q[p].StreamId()) == []
  {
    forall k | 0 <= k < p
      ensures q[k].StreamId() != q[p].StreamId()
    {
      assert !s.Eligible(index, q[k]);
    }
    FilterNone(q[..p], q[p].StreamId());
  }

  lemma RemoveFilter(s: State, index: nat, q: seq<Item>, p: nat, id: u32)
    requires s.Position(index, q) == Some(p)
    ensures Filter(q, id) == Tail(q[p], id) + Filter(q[..p] + q[p + 1..], id)
  {
    SplitAt(q, p, id);
    if id == q[p].StreamId() { NoneBefore(s, index, q, p); }
  }

  lemma SameStream(s: State, t: State, id: u32)
    requires StreamOk(s, id) && t.Classes(id) == s.Classes(id) && Lanes(t.queues, id) == Lanes(s.queues, id)
    ensures StreamOk(t, id) && Pending(t, id) == Pending(s, id)
  {
  }

  /** The stream that loses its oldest frame. */
  lemma RemoveOwn(s: State, p: nat, t: State, id: u32)
    requires Valid(s) && s.Position(s.cursor, s.queues[s.cursor]) == Some(p) && t == s.Remove(s.cursor, p)
    requires id == s.queues[s.cursor][p].StreamId()
    ensures StreamOk(t, id) && Pending(s, id) == [s.queues[s.cursor][p]] + Pending(t, id)
  {
    var c := s.cursor;
    RemoveFilter(s, c, s.queues[c], p, id);
    var lanes, after := Lanes(s.queues, id), Lanes(t.queues, id);
    assert StreamOk(s, id);
    assert lanes[c][1..] == after[c];
    assert after == lanes[c := lanes[c][1..]];
    assert t.Classes(id) == s.Classes(id)[1..];
  }

  lemma RemoveOther(s: State, p: nat, t: State, id: u32)
    requires Valid(s) && s.Position(s.cursor, s.queues[s.cursor]) == Some(p) && t == s.Remove(s.cursor, p)
    requires id != s.queues[s.cursor][p].StreamId()
    ensures StreamOk(t, id) && Pending(s, id) == Pending(t, id)
  {
    assert Lanes(t.queues, id) == Lanes(s.queues, id) by {
      RemoveFilter(s, s.cursor, s.queues[s.cursor], p, id);
      assert Lanes(s.queues, id)[s.cursor] == Lanes(t.queues, id)[s.cursor];
    }
    assert t.Classes(id) == s.Classes(id);
    SameStream(s, t, id);
  }

  lemma RemoveStream(s: State, p: nat, id: u32)
    requires Valid(s) && s.Position(s.cursor, s.queues[s.cursor]) == Some(p)
    ensures var t := s.Remove(s.cursor, p);
      StreamOk(t, id) && Pending(s, id) == Tail(s.queues[s.cursor][p], id) + Pending(t, id)
  {
    var t := s.Remove(s.cursor, p);
    if id == s.queues[s.cursor][p].StreamId() {
      RemoveOwn(s, p, t, id);
    } else {
      RemoveOther(s, p, t, id);
    }
  }

  lemma RemoveClasses(s: State, p: nat)
    requires Valid(s) && p < |s.queues[s.cursor]|
    ensures var t := s.Remove(s.cursor, p);
      forall c, k :: 0 <= c < CLASS_COUNT && 0 <= k < |t.queues[c]| ==> t.queues[c][k].class_.Index() == c
  {
    var q := s.queues[s.cursor];
    var shorter := q[..p] + q[p + 1..];
    forall k | 0 <= k < |shorter|
      ensures shorter[k].class_.Index() == s.cursor
    {
      assert shorter[k] == if k < p then q[k] else q[k + 1];
    }
  }

  /** `t` holds what `s` held, less the frame `out`, which was the oldest of its stream. */
  ghost predicate Emits(s: State, out: Option<Item>, t: State)
    requires Valid(s)
  {
    && Valid(t) && t.maxQueuedBytes == s.maxQueuedBytes
    && (out.None? ==> t.queues == s.queues && t.streamClasses == s.streamClasses)
    && forall id: u32 :: Pending(s, id) == (if out.Some? then Tail(out.value, id) else []) + Pending(t, id)
  }

  lemma RemoveSpec(s: State, p: nat)
    requires Valid(s) && s.Position(s.cursor, s.queues[s.cursor]) == Some(p)
    ensures Emits(s, Some(s.queues[s.cursor][p]), s.Remove(s.cursor, p))
  {
    var q := s.queues[s.cursor];
    SplitAt(q, p, 0);
    TotalBytesUpdate(s.queues, s.cursor, q[..p] + q[p + 1..]);
    RemoveClasses(s, p);
    forall id: u32 { RemoveStream(s, p, id); }
  }

  /** Changes to deficits and cursor leave the contents alone. */
  lemma SameContents(s: State, t: State)
    requires Valid(s) && t.Shaped()
    requires t == s.(deficits := t.deficits, cursor := t.cursor)
    ensures Valid(t) && forall id: u32 :: Pending(t, id) == Pending(s, id)
  {
    forall id: u32
      ensures StreamOk(t, id) && Pending(t, id) == Pending(s, id)
    {
      assert StreamOk(s, id) && t.Classes(id) == s.Classes(id);
    }
  }

  /** One turn emits the oldest frame of some stream, or changes no contents. */
  lemma VisitSpec(s: State)
    requires Valid(s)
    ensures var (t, out) := s.Visit(); Emits(s, out, t)
  {
    var position := s.Position(s.cursor, s.queues[s.cursor]);
    var (t, out) := s.Visit();
    if out.Some? {
      var r := s.Remove(s.cursor, position.value);
      RemoveSpec(s, position.value);
      assert t == r.(deficits := t.deficits, cursor := t.cursor);
      SameContents(r, t);
    } else {
      SameContents(s, t);
    }
  }

  lemma EmitsAfterIdle(s: State, t: State, out: Option<Item>, u: State)
    requires Valid(s) && Emits(s, None, t) && Emits(t, out, u)
    ensures Emits(s, out, u)
  {
    forall id: u32
      ensures Pending(s, id) == (if out.Some? then Tail(out.value, id) else []) + Pending(u, id)
    {
      assert Pending(s, id) == [] + Pending(t, id);
    }
  }

  lemma {:induction false} SearchSpec(s: State, attempts: nat)
    requires Valid(s)
    ensures var (t, out) := s.Search(attempts); Emits(s, out, t)
    decreases attempts
  {
    if attempts > 0 {
      VisitSpec(s);
      var (t, out) := s.Visit();
      if out.None? {
        SearchSpec(t, attempts - 1);
        var (u, later) := t.Search(attempts - 1);
        EmitsAfterIdle(s, t, later, u);
      }
    }
  }

  /** Dequeue takes the oldest frame of one stream, and nothing else. */
  lemma DequeueSpec(s: State)
    requires Valid(s)
    ensures var (t, out) := s.Dequeue(); Emits(s, out, t)
  {
    SearchSpec(s, s.Attempts());
  }

  lemma NewValid(maxQueuedBytes: nat)
    requires maxQueuedBytes <= WORD_MAX
    ensures Valid(New(maxQueuedBytes))
  {
    var s := New(maxQueuedBytes);
    forall id: u32
      ensures StreamOk(s, id)
    {
      assert s.Classes(id) == [];
    }
    assert TotalBytes(s.queues) == 0 by { EmptyBytes(s.queues); }
  }

  lemma {:induction false} EmptyBytes(queues: seq<seq<Item>>)
    requires forall c :: 0 <= c < |queues| ==> queues[c] == []
    ensures TotalBytes(queues) == 0
  {
    if queues != [] { EmptyBytes(queues[1..]); }
  }
}
