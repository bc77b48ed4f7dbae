/** One endpoint's validator over any sequence of frames and allocations: greetings happen once, and the
    ids it hands out are new and without gaps. */
module SessionRuns {
  import opened Results
  import opened Wire
  import opened Session
  import opened SessionRules

  datatype Act = Carry(dir: Direction, h: Header, context: FrameContext) | Allocate

  /** The act is accepted and leads from `s` to `t`. */
  predicate Step(s: State, act: Act, t: State) {
    match act
    case Carry(dir, h, context) => s.Process(dir, h, context) == Ok(t)
    case Allocate => s.AllocateStreamId().Ok? && s.AllocateStreamId().value.0 == t
  }

  ghost predicate IsRun(config: Config, states: seq<State>, acts: seq<Act>) {
    && |states| == |acts| + 1 && states[0] == New(config)
    && forall i, k :: 0 <= i < |acts| && k == i + 1 ==> Step(states[i], acts[i], states[k])
  }

  // ---------------------------------------------------------------- greetings

  /** What can be said once in each direction. */
  predicate Greets(act: Act, dir: Direction, command: Command) {
    act.Carry? && act.dir == dir && act.h.command == command
  }

  /** It has been said, or it is too late to say it. */
  predicate Greeted(c: Connection, dir: Direction, command: Command) {
    || c.phase != HelloExchange
    || (if command == Hello then if dir == Outbound then c.localHello else c.peerHello
        else if dir == Outbound then c.localPairingFinish else c.peerPairingFinish)
  }

  lemma ControlGreets(c: Connection, d: Connection, dir: Direction, h: Header, context: FrameContext, pairing: bool,
                      way: Direction, command: Command)
    requires c.ApplyControl(dir, h, context, pairing) == Ok(d) && (command == Hello || command == PairingFinish)
    ensures Greeted(c, way, command) ==> Greeted(d, way, command)
    ensures dir == way && h.command == command ==> !Greeted(c, way, command) && Greeted(d, way, command)
  {
  }

  lemma ProcessSplits(s: State, dir: Direction, h: Header, context: FrameContext, t: State)
    requires s.Process(dir, h, context) == Ok(t)
    ensures WellFormed(h, s.config.limits) && t.config == s.config
    ensures s.Apply(dir, h, context).Ok?
    ensures var u := s.Apply(dir, h, context).value;
      t.conn == u.conn && t.streams == u.streams && t.nextLocalStreamId == u.nextLocalStreamId
  {
    AcceptedIff(s, dir, h, context);
  }

  lemma StepGreets(s: State, act: Act, t: State, dir: Direction, command: Command)
    requires Step(s, act, t) && (command == Hello || command == PairingFinish)
    ensures Greeted(s.conn, dir, command) ==> Greeted(t.conn, dir, command)
    ensures Greets(act, dir, command) ==> !Greeted(s.conn, dir, command) && Greeted(t.conn, dir, command)
  {
    if act.Carry? {
      ProcessSplits(s, act.dir, act.h, act.context, t);
      if act.h.streamId == 0 {
        ControlGreets(s.conn, t.conn, act.dir, act.h, act.context, s.config.pairing, dir, command);
      }
    }
  }

  lemma {:induction false} StaysGreeted(config: Config, states: seq<State>, acts: seq<Act>, i: nat, n: nat,
                                        dir: Direction, command: Command)
    requires IsRun(config, states, acts) && i < n <= |acts| && Greets(acts[i], dir, command)
    requires command == Hello || command == PairingFinish
    ensures Greeted(states[n].conn, dir, command)
    decreases n
  {
    assert Step(states[n - 1], acts[n - 1], states[n]);
    StepGreets(states[n - 1], acts[n - 1], states[n], dir, command);
    if i < n - 1 { StaysGreeted(config, states, acts, i, n - 1, dir, command); }
  }

  /** In every run, HELLO and PAIRING_FINISH are each accepted at most once in each direction. */
  lemma GreetsOnce(config: Config, states: seq<State>, acts: seq<Act>, i: nat, n: nat, dir: Direction, command: Command)
    requires IsRun(config, states, acts) && i < n < |acts| && Greets(acts[i], dir, command)
    requires command == Hello || command == PairingFinish
    ensures !Greets(acts[n], dir, command)
  {
    StaysGreeted(config, states, acts, i, n, dir, command);
    assert Step(states[n], acts[n], states[n + 1]);
    StepGreets(states[n], acts[n], states[n + 1], dir, command);
  }

  // ---------------------------------------------------------------- stream ids

  function FirstId(role: Role): u32 { if role == Host then 1 else 2 }

  predicate Own(role: Role, id: u32) { id != 0 && id % 2 == FirstId(role) % 2 }

  /** The next id is one of ours, and above every one of ours in use. */
  ghost predicate NextIsNew(s: State) {
    && 0 !in s.streams
    && (s.nextLocalStreamId.Some? ==>
          && Own(s.config.role, s.nextLocalStreamId.value)
          && forall id: u32 :: id in s.streams && Own(s.config.role, id) ==> id < s.nextLocalStreamId.value)
  }

  /** OPEN with an id of our own moves the next id past it; nothing else moves it. */
  lemma CarryNext(s: State, act: Act, t: State)
    requires act.Carry? && Step(s, act, t)
    ensures s.streams.Keys <= t.streams.Keys && t.config == s.config && (0 !in s.streams ==> 0 !in t.streams)
    ensures var opens := act.h.command == Command.Open;
      && (forall id: u32 :: id in t.streams && id !in s.streams ==> opens && id == act.h.streamId)
      && (opens ==> (Own(s.config.role, act.h.streamId) <==> act.dir == Outbound))
      && (if opens && act.dir == Outbound && s.nextLocalStreamId.Some? && act.h.streamId >= s.nextLocalStreamId.value
          then t.nextLocalStreamId == NextStreamId(act.h.streamId)
          else t.nextLocalStreamId == s.nextLocalStreamId)
  {
    ProcessSplits(s, act.dir, act.h, act.context, t);
    AcceptedIff(s, act.dir, act.h, act.context);
  }

  lemma StepNext(s: State, act: Act, t: State)
    requires Step(s, act, t) && NextIsNew(s)
    ensures NextIsNew(t) && t.config == s.config
  {
    if act.Carry? { CarryNext(s, act, t); }
  }

  lemma {:induction false} RunNext(config: Config, states: seq<State>, acts: seq<Act>, n: nat)
    requires IsRun(config, states, acts) && n < |states|
    ensures NextIsNew(states[n]) && states[n].config == config
  {
    if n > 0 {
      RunNext(config, states, acts, n - 1);
      assert Step(states[n - 1], acts[n - 1], states[n]);
      StepNext(states[n - 1], acts[n - 1], states[n]);
    }
  }

  /** In every run, an id that is handed out can be opened: it is of our own parity and unused. */
  lemma AllocatedOpens(config: Config, states: seq<State>, acts: seq<Act>, n: nat)
    requires IsRun(config, states, acts) && n < |states| && states[n].AllocateStreamId().Ok?
    ensures var (t, id) := states[n].AllocateStreamId().value;
      id != 0 && (t.conn.phase == Online ==> OpenAllowed(t, Outbound, id))
  {
    RunNext(config, states, acts, n);
  }

  function Allocations(acts: seq<Act>, n: nat): nat
    requires n <= |acts|
  {
    if n == 0 then 0 else Allocations(acts, n - 1) + if acts[n - 1].Allocate? then 1 else 0
  }

  /** The id after `k` were handed out. */
  function Nth(role: Role, k: nat): Option<u32> {
    if FirstId(role) + 2 * k <= U32_MAX then Some(FirstId(role) + 2 * k) else None
  }

  /** No stream is opened but with an id that was handed out. */
  ghost predicate OpensAllocated(states: seq<State>, acts: seq<Act>, n: nat) {
    n <= |acts| <= |states| && forall i :: 0 <= i < n ==> Orderly(states[i], acts[i])
  }

  predicate Orderly(s: State, act: Act) {
    act.Carry? && act.dir == Outbound && act.h.command == Command.Open && s.nextLocalStreamId.Some?
    ==> act.h.streamId < s.nextLocalStreamId.value
  }

  /** Ids are handed out in order without gaps: 1, 3, 5 and on to the host, 2, 4, 6 to the device, until
      they are used up. */
  lemma {:induction false} AllocatedInOrder(config: Config, states: seq<State>, acts: seq<Act>, n: nat)
    requires IsRun(config, states, acts) && OpensAllocated(states, acts, n)
    ensures states[n].nextLocalStreamId == Nth(config.role, Allocations(acts, n))
  {
    if n > 0 {
      AllocatedInOrder(config, states, acts, n - 1);
      assert Step(states[n - 1], acts[n - 1], states[n]) && Orderly(states[n - 1], acts[n - 1]);
      NthStep(states[n - 1], acts[n - 1], states[n], config.role, Allocations(acts, n - 1));
    }
  }

  lemma NthStep(s: State, act: Act, t: State, role: Role, k: nat)
    requires Step(s, act, t) && Orderly(s, act) && s.nextLocalStreamId == Nth(role, k)
    ensures t.nextLocalStreamId == Nth(role, if act.Allocate? then k + 1 else k)
  {
    if act.Carry? { CarryNext(s, act, t); }
  }
}
