/** Each of the three races does happen: a concrete run for each. */
module LinkRaces {
  import opened Results
  import opened Wire
  import opened Session
  import opened Link
  import opened LinkStream
  import opened LinkConnection
  import opened LinkInvariant
  import opened LinkTheorems

  /** A frame without payload, flags or credit, carrying the window its command needs. */
  ghost predicate Plain(m: Msg, command: Command, id: u32, sequence: u32) {
    && m.h.command == command && m.h.streamId == id && m.h.sequence == sequence
    && m.h.major == PROTOCOL_MAJOR && m.h.flags == 0 && m.h.payloadLength == 0 && m.h.creditDelta == 0
    && m.h.reserved == 0
    && m.context.connectionWindow == (if command.Hello? then Some(10) else None)
    && m.context.streamWindow == (if command.Accept? then Some(10) else None)
  }

  lemma MakePlain(command: Command, id: u32, sequence: u32) returns (m: Msg)
    ensures Plain(m, command, id, sequence)
  {
    m := Msg(NewHeader(command, id, sequence),
             FrameContext(if command.Hello? then Some(10) else None, if command.Accept? then Some(10) else None));
  }

  ghost predicate Moved(dir: Direction, s: State, m: Msg, s': State) {
    && s'.config == s.config
    && Counts(dir, s, m, s') && Phases(dir, s.conn, m, s'.conn) && Table(dir, s, m, s')
    && (m.h.streamId == 0 ==> s'.streams == s.streams)
  }

  lemma PlainProcessed(s: State, m: Msg, command: Command, id: u32, sequence: u32)
    requires Plain(m, command, id, sequence) && command != Credit && sequence < U32_MAX
    requires if id == 0 then command.AllowsStreamZero() else command.AllowsNonzeroStream()
    requires s.config.limits.maxWindow >= 10 && s.conn.phase != Closed && !s.config.pairing
    requires Expected(s.outbound, id) == sequence && s.Apply(Outbound, m.h, m.context).Ok?
    ensures var r := s.Process(Outbound, m.h, m.context);
      r.Ok? && Moved(Outbound, s, m, r.value)
  {
    assert m.h.Validate(s.config.limits).Pass?;
    ProcessIsApply(Outbound, s, m);
    var s' := s.Process(Outbound, m.h, m.context).value;
    ProcessEffect(Outbound, s, m, s');
    ProcessTable(Outbound, s, m, s');
  }

  // ---------------------------------------------------------------- growing a run

  lemma Extend(run: seq<Net>, net: Net) returns (longer: seq<Net>)
    requires IsRun(run) && Step(run[|run| - 1], net)
    ensures IsRun(longer) && longer[|longer| - 1] == net
  {
    longer := run + [net];
    assert longer[..|longer| - 1] == run;
  }

  function Flip(net: Net): Net { Net(net.b, net.a, net.ba, net.ab) }

  function Oriented(net: Net, a: bool): Net { if a then net else Flip(net) }

  /** The endpoint named by `a` sends a plain frame. */
  lemma Send(run: seq<Net>, a: bool, command: Command, id: u32, sequence: u32) returns (longer: seq<Net>)
    requires IsRun(run) && command != Credit && sequence < U32_MAX
    requires if id == 0 then command.AllowsStreamZero() else command.AllowsNonzeroStream()
    requires var s := Oriented(run[|run| - 1], a).a.s;
      && s.config.limits.maxWindow >= 10 && s.conn.phase != Closed && !s.config.pairing
      && Expected(s.outbound, id) == sequence
      && forall m :: Plain(m, command, id, sequence) ==> s.Apply(Outbound, m.h, m.context).Ok?
    ensures IsRun(longer)
    ensures var net, next := Oriented(run[|run| - 1], a), Oriented(longer[|longer| - 1], a);
      && next.b == net.b && next.ba == net.ba && |next.ab| == |net.ab| + 1 && next.ab[..|net.ab|] == net.ab
      && var m := next.ab[|net.ab|];
      Plain(m, command, id, sequence) && Moved(Outbound, net.a.s, m, next.a.s)
  {
    var net := Oriented(run[|run| - 1], a);
    var m := MakePlain(command, id, sequence);
    PlainProcessed(net.a.s, m, command, id, sequence);
    var x' := Node(net.a.s.Process(Outbound, m.h, m.context).value, net.a.sent + [m]);
    assert Sends(net.a, m, x');
    var next := net.(a := x', ab := net.ab + [m]);
    longer := Extend(run, Oriented(next, a));
  }

  /** The endpoint named by `a` receives the next frame, which is not a race. */
  lemma Receive(run: seq<Net>, a: bool) returns (longer: seq<Net>)
    requires IsRun(run)
    requires var net := Oriented(run[|run| - 1], a); net.ba != [] && !Race(net.a.s, net.ba[0])
    ensures IsRun(longer)
    ensures var net, next := Oriented(run[|run| - 1], a), Oriented(longer[|longer| - 1], a);
      && next.b == net.b && next.ab == net.ab && next.ba == net.ba[1..]
      && Moved(Inbound, net.a.s, net.ba[0], next.a.s)
  {
    RejectionsAreRaces(run);
    RunInv(run);
    var net := Oriented(run[|run| - 1], a);
    var m := net.ba[0];
    var s' := net.a.s.Process(Inbound, m.h, m.context).value;
    ProcessEffect(Inbound, net.a.s, m, s');
    ProcessTable(Inbound, net.a.s, m, s');
    var next := net.(a := Node(s', net.a.sent), ba := net.ba[1..]);
    assert Receives(net.a, m, next.a);
    longer := Extend(run, Oriented(next, a));
  }

  lemma Begin(limits: DecodeLimits) returns (run: seq<Net>)
    ensures IsRun(run)
    ensures var net := run[|run| - 1];
      Init(net) && net.a.s.config == Config(Host, false, limits) && net.b.s.config == Config(Device, false, limits)
  {
    run := [Net(Node(New(Config(Host, false, limits)), []), Node(New(Config(Device, false, limits)), []), [], [])];
  }

  // ---------------------------------------------------------------- the witnesses

  lemma ErrorRace(limits: DecodeLimits) returns (run: seq<Net>)
    requires limits.maxWindow >= 10
    ensures IsRun(run)
    ensures var net := run[|run| - 1];
      net.ab != [] && net.ab[0].h.command.Hello? && net.b.s.conn.phase == Closed && Race(net.b.s, net.ab[0])
  {
    run := Begin(limits);
    run := Send(run, false, Error, 0, 0);
    run := Send(run, true, Hello, 0, 0);
  }

  ghost predicate Idle(s: State, role: Role, limits: DecodeLimits) {
    && s.config == Config(role, false, limits) && s.conn.phase == Online
    && s.inbound == map[0 := 1] && s.outbound == map[0 := 1] && s.streams == map[]
  }

  /** Its own HELLO is out, the peer's is not in yet. */
  ghost predicate Greeting(s: State, role: Role, limits: DecodeLimits) {
    && s.config == Config(role, false, limits) && s.conn.phase == HelloExchange && s.conn.localHello
    && !s.conn.peerHello
    && s.inbound == map[] && s.outbound == map[0 := 1] && s.streams == map[]
  }

  lemma BothHello(limits: DecodeLimits) returns (run: seq<Net>)
    requires limits.maxWindow >= 10
    ensures IsRun(run)
    ensures var net := run[|run| - 1];
      && Greeting(net.a.s, Host, limits) && Greeting(net.b.s, Device, limits)
      && |net.ab| == 1 && |net.ba| == 1 && Plain(net.ab[0], Hello, 0, 0) && Plain(net.ba[0], Hello, 0, 0)
  {
    run := Begin(limits);
    run := Send(run, true, Hello, 0, 0);
    run := Send(run, false, Hello, 0, 0);
  }

  lemma Greet(limits: DecodeLimits) returns (run: seq<Net>)
    requires limits.maxWindow >= 10
    ensures IsRun(run)
    ensures var net := run[|run| - 1];
      Idle(net.a.s, Host, limits) && Idle(net.b.s, Device, limits) && net.ab == [] && net.ba == []
  {
    run := BothHello(limits);
    run := Receive(run, true);
    assert Idle(run[|run| - 1].a.s, Host, limits);
    run := Receive(run, false);
  }

  lemma GoAwayRace(limits: DecodeLimits) returns (run: seq<Net>)
    requires limits.maxWindow >= 10
    ensures IsRun(run)
    ensures var net := run[|run| - 1];
      net.ab != [] && net.ab[0].h.command.Open? && net.b.s.conn.phase == GoingAway && Race(net.b.s, net.ab[0])
  {
    run := Greet(limits);
    run := Send(run, false, GoAway, 0, 1);
    run := Send(run, true, Open, 1, 0);
  }

  /** Stream 1, opened by the host and seen by the device. */
  lemma Offer(limits: DecodeLimits) returns (run: seq<Net>)
    requires limits.maxWindow >= 10
    ensures IsRun(run)
    ensures var net := run[|run| - 1];
      && net.a.s.config == Config(Host, false, limits) && net.b.s.config == Config(Device, false, limits)
      && net.a.s.conn.phase == Online && net.b.s.conn.phase == Online
      && Expected(net.a.s.outbound, 1) == 1 && Expected(net.b.s.outbound, 1) == 0
      && net.a.s.Stream(1) == Some(OpeningStream(true)) && net.b.s.Stream(1) == Some(OpeningStream(false))
      && net.ab == [] && net.ba == []
  {
    run := Greet(limits);
    run := Send(run, true, Open, 1, 0);
    run := Receive(run, false);
  }

  /** Stream 1, opened by the host and accepted by the device, with nothing in flight. */
  lemma Establish(limits: DecodeLimits) returns (run: seq<Net>)
    requires limits.maxWindow >= 10
    ensures IsRun(run)
    ensures var net := run[|run| - 1];
      && net.a.s.config == Config(Host, false, limits) && net.b.s.config == Config(Device, false, limits)
      && net.a.s.conn.phase == Online && net.b.s.conn.phase == Online
      && Expected(net.a.s.outbound, 1) == 1 && Expected(net.b.s.outbound, 1) == 1
      && net.a.s.Stream(1).Some? && net.a.s.Stream(1).value.phase == Accepted
      && net.a.s.Stream(1).value.initiatedByLocal
      && net.b.s.Stream(1).Some? && net.b.s.Stream(1).value.phase == Accepted
      && !net.b.s.Stream(1).value.initiatedByLocal
      && net.ab == [] && net.ba == []
  {
    run := Offer(limits);
    run := Send(run, false, Accept, 1, 0);
    run := Receive(run, true);
  }

  lemma CloseRace(limits: DecodeLimits) returns (run: seq<Net>)
    requires limits.maxWindow >= 10
    ensures IsRun(run)
    ensures var net := run[|run| - 1];
      && net.ba != [] && net.ba[0].h.command.Close? && net.a.s.conn.phase == Online
      && net.a.s.Stream(1).Some? && net.a.s.Stream(1).value.phase == StreamReset && Race(net.a.s, net.ba[0])
  {
    run := Establish(limits);
    run := Send(run, true, Command.Reset, 1, 1);
    run := Send(run, false, Close, 1, 1);
  }
}
