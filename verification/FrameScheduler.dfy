/** The scheduler as the mutable object the connection owns, with its bounded search loop. */
module FrameSchedulers {
  import opened Results
  import opened Wire
  import opened Scheduler
  import opened SchedulerFairness

  class FrameScheduler {
    var queues: seq<seq<Item>>
    var streamClasses: map<u32, seq<nat>>
    var deficits: seq<nat>
    var cursor: nat
    var queuedBytes: nat
    const maxQueuedBytes: nat

    function Model(): State
      reads this
    {
      State(queues, streamClasses, deficits, cursor, queuedBytes, maxQueuedBytes)
    }

    constructor (maxQueuedBytes: nat)
      requires maxQueuedBytes <= WORD_MAX
      ensures Model() == New(maxQueuedBytes) && Valid(Model())
    {
      this.maxQueuedBytes := maxQueuedBytes;
      queues, streamClasses, deficits := [[], [], [], [], []], map[], [0, 0, 0, 0, 0];
      cursor, queuedBytes := 0, 0;
      new;
      NewValid(maxQueuedBytes);
    }

    method Enqueue(item: Item) returns (r: Check<()>)
      requires Valid(Model())
      modifies this
      ensures match old(Model()).Enqueue(item)
        case Ok(s) => r == Pass && Model() == s
        case Err(_) => r == Fail(()) && Model() == old(Model())
      ensures Valid(Model())
    {
      EnqueueSpec(Model(), item);
      var next := queuedBytes + item.Cost();
      if next > WORD_MAX { return Fail(()); }
      if next > maxQueuedBytes { return Fail(()); }
      var c := item.class_.Index();
      var classes := if item.StreamId() in streamClasses then streamClasses[item.StreamId()] else [];
      streamClasses := streamClasses[item.StreamId() := classes + [c]];
      queues := queues[c := queues[c] + [item]];
      queuedBytes := next;
      r := Pass;
    }

    /** The first frame of a queue whose class heads its stream's list. */
    method FindEligible(index: nat) returns (position: Option<nat>)
      requires Model().Shaped() && index < CLASS_COUNT
      ensures position == Model().Position(index, queues[index])
    {
      var q := queues[index];
      var k := 0;
      while k < |q|
        invariant k <= |q|
        invariant forall j :: 0 <= j < k ==> !Model().Eligible(index, q[j])
      {
        var id := q[k].StreamId();
        if id in streamClasses && streamClasses[id] != [] && streamClasses[id][0] == index {
          return Some(k);
        }
        k := k + 1;
      }
      position := None;
    }

    method Advance()
      requires cursor < CLASS_COUNT
      modifies this`cursor
      ensures Model() == old(Model()).Advance()
    {
      cursor := (cursor + 1) % CLASS_COUNT;
    }

    /** One turn of the loop in Dequeue. */
    method Visit() returns (out: Option<Item>)
      requires Valid(Model())
      modifies this
      ensures (Model(), out) == old(Model()).Visit()
    {
      ghost var before := Model();
      VisitFits(before);
      var index := cursor;
      var position := FindEligible(index);
      if position.None? {
        deficits := deficits[index := 0];
        Advance();
        return None;
      }
      var item := queues[index][position.value];
      var cost := item.Cost();
      if deficits[index] < cost {
        deficits := deficits[index := SaturatingAdd(deficits[index], Quantum(index))];
      }
      if deficits[index] < cost {
        Advance();
        return None;
      }
      deficits := deficits[index := deficits[index] - cost];
      queues := queues[index := queues[index][..position.value] + queues[index][position.value + 1..]];
      var classes := streamClasses[item.StreamId()][1..];
      if classes == [] {
        streamClasses := streamClasses - {item.StreamId()};
      } else {
        streamClasses := streamClasses[item.StreamId() := classes];
      }
      queuedBytes := queuedBytes - cost;
      Advance();
      assert deficits == before.deficits[index := before.Charged(index, item) - cost];
      out := Some(item);
    }

    method Dequeue() returns (out: Option<Item>)
      requires Valid(Model())
      modifies this
      ensures (Model(), out) == old(Model()).Dequeue()
      ensures Emits(old(Model()), out, Model())
    {
      ghost var before := Model();
      DequeueSpec(before);
      if queuedBytes == 0 { return None; }
      ghost var result := before.Search(before.Attempts());
      var left: nat := CLASS_COUNT * 512;
      while left > 0
        invariant Valid(Model())
        invariant Model().Search(left) == result
      {
        ghost var s := Model();
        VisitSpec(s);
        out := Visit();
        left := left - 1;
        SearchStep(s, Model(), out, left);
        if out.Some? { return; }
      }
      out := None;
    }
  }

  /** The byte counter covers every queued frame, so removing one never underflows. */
  lemma VisitFits(s: State)
    requires Valid(s)
    ensures var p := s.Position(s.cursor, s.queues[s.cursor]);
      p.Some? ==>
        var item := s.queues[s.cursor][p.value];
        item.Cost() <= s.queuedBytes && item.StreamId() in s.streamClasses && s.streamClasses[item.StreamId()] != []
  {
    var p := s.Position(s.cursor, s.queues[s.cursor]);
    if p.Some? {
      var q := s.queues[s.cursor];
      SplitAt(q, p.value, 0);
      TotalBytesUpdate(s.queues, s.cursor, q[..p.value] + q[p.value + 1..]);
    }
  }
}
