/** Two session validators of opposite role joined by two FIFO channels. Each endpoint
    sends only frames its own validator accepts. */
module Link {
  import opened Results
  import opened Wire
  import opened Session

  /** A frame in flight: its header and the window decoded from its payload. */
  datatype Msg = Msg(h: Header, context: FrameContext)

  /** An endpoint and everything it ever sent. */
  datatype Node = Node(s: State, sent: seq<Msg>)

  /** Two endpoints; `ab` is in flight from `a` to `b`, `ba` the other way. */
  datatype Net = Net(a: Node, b: Node, ab: seq<Msg>, ba: seq<Msg>)

  ghost predicate Fresh(x: Node) { x.s == New(x.s.config) && |x.sent| == 0 }

  /** Opposite roles, equal limits, no pairing. */
  ghost predicate Regular(x: State, y: State) {
    && x.config.role == y.config.role.Peer() && x.config.limits == y.config.limits
    && !x.config.pairing && !y.config.pairing
  }

  ghost predicate Init(net: Net) {
    Fresh(net.a) && Fresh(net.b) && Regular(net.a.s, net.b.s) && |net.ab| == 0 && |net.ba| == 0
  }

  ghost predicate Sends(x: Node, m: Msg, x': Node) {
    x.s.Process(Outbound, m.h, m.context) == Ok(x'.s) && x'.sent == x.sent + [m]
  }

  ghost predicate Receives(x: Node, m: Msg, x': Node) {
    x.s.Process(Inbound, m.h, m.context) == Ok(x'.s) && x'.sent == x.sent
  }

  ghost predicate Allocates(x: Node, x': Node) {
    x.s.AllocateStreamId().Ok? && x' == x.(s := x.s.AllocateStreamId().value.0)
  }

  /** One step of `x`, whose output channel is `xy` and whose input channel is `yx`. */
  ghost predicate Acts(x: Node, xy: seq<Msg>, yx: seq<Msg>, x': Node, xy': seq<Msg>, yx': seq<Msg>) {
    || (exists m :: Sends(x, m, x') && xy' == xy + [m] && yx' == yx)
    || (yx != [] && Receives(x, yx[0], x') && xy' == xy && yx' == yx[1..])
    || (Allocates(x, x') && xy' == xy && yx' == yx)
  }

  ghost predicate Step(net: Net, next: Net) {
    || (net.b == next.b && Acts(net.a, net.ab, net.ba, next.a, next.ab, next.ba))
    || (net.a == next.a && Acts(net.b, net.ba, net.ab, next.b, next.ba, next.ab))
  }

  /** A finite run: it starts fresh and every further state is one step from the one before. */
  ghost predicate IsRun(run: seq<Net>) {
    && |run| > 0
    && Init(run[0])
    && forall j, k :: 0 <= j < k < |run| && k == j + 1 ==> Step(run[j], run[k])
  }

  // ---------------------------------------------------------------- channel measures

  function OnStream(c: seq<Msg>, id: u32): seq<Msg> {
    if c == [] then [] else
    (if c[0].h.streamId == id then [c[0]] else []) + OnStream(c[1..], id)
  }

  lemma {:induction false} OnStreamAppend(c: seq<Msg>, m: Msg, id: u32)
    ensures OnStream(c + [m], id) == OnStream(c, id) + (if m.h.streamId == id then [m] else [])
  {
    if c == [] {
      assert [m][1..] == [];
    } else {
      var head := if c[0].h.streamId == id then [c[0]] else [];
      var last := if m.h.streamId == id then [m] else [];
      assert (c + [m])[1..] == c[1..] + [m];
      OnStreamAppend(c[1..], m, id);
      assert head + (OnStream(c[1..], id) + last) == (head + OnStream(c[1..], id)) + last;
    }
  }

  lemma {:induction false} OnStreamElements(c: seq<Msg>, id: u32)
    ensures forall m :: m in OnStream(c, id) <==> m in c && m.h.streamId == id
  {
    if c != [] {
      assert c == [c[0]] + c[1..];
      OnStreamElements(c[1..], id);
    }
  }

  function Bytes(m: Msg): nat { if m.h.command.Data? then m.h.payloadLength else 0 }

  function Delta(m: Msg): nat { if m.h.command.Credit? then m.h.creditDelta else 0 }

  /** DATA bytes in a channel, over all its streams. */
  function DataBytes(c: seq<Msg>): nat {
    if c == [] then 0 else Bytes(c[0]) + DataBytes(c[1..])
  }

  /** Connection credit a frame hands to its receiver. */
  function ConnectionGrant(m: Msg): nat {
    if m.h.command.Hello? && m.context.connectionWindow.Some? then m.context.connectionWindow.value
    else if m.h.streamId == 0 then Delta(m) else 0
  }

  function ConnectionGrants(c: seq<Msg>): nat {
    if c == [] then 0 else ConnectionGrant(c[0]) + ConnectionGrants(c[1..])
  }

  predicate IsTerminal(m: Msg) { m.h.command.Close? || m.h.command.Reset? }

  predicate HasTerminal(c: seq<Msg>) { exists m :: m in c && IsTerminal(m) }

  /** Credit of the CREDIT frames ahead of the first CLOSE or RESET. */
  function StreamGrants(c: seq<Msg>): nat {
    if c == [] || IsTerminal(c[0]) then 0 else Delta(c[0]) + StreamGrants(c[1..])
  }

  lemma {:induction false} SumsAppend(c: seq<Msg>, m: Msg)
    ensures DataBytes(c + [m]) == DataBytes(c) + Bytes(m)
    ensures ConnectionGrants(c + [m]) == ConnectionGrants(c) + ConnectionGrant(m)
    ensures StreamGrants(c + [m]) == StreamGrants(c) + (if HasTerminal(c) || IsTerminal(m) then 0 else Delta(m))
  {
    if c == [] {
      assert [m][1..] == [];
    } else {
      assert (c + [m])[1..] == c[1..] + [m];
      assert c == [c[0]] + c[1..];
      SumsAppend(c[1..], m);
    }
  }

  /** Sequence numbers saturate at U32_MAX, where only RESET is still legal. */
  function NextSequence(n: u32): u32 { if n == U32_MAX then n else n + 1 }

  predicate Numbered(first: u32, c: seq<Msg>, next: u32)
    decreases |c|
  {
    if c == [] then first == next
    else
      && c[0].h.sequence == first
      && (first == U32_MAX ==> c[0].h.command.Reset?)
      && Numbered(NextSequence(first), c[1..], next)
  }

  lemma {:induction false} NumberedAppend(first: u32, c: seq<Msg>, next: u32, m: Msg)
    requires Numbered(first, c, next)
    requires m.h.sequence == next && (next == U32_MAX ==> m.h.command.Reset?)
    ensures Numbered(first, c + [m], NextSequence(next))
    decreases |c|
  {
    if c == [] {
      assert [m][1..] == [];
    } else {
      assert (c + [m])[1..] == c[1..] + [m];
      NumberedAppend(NextSequence(first), c[1..], next, m);
    }
  }

  /** Whether END_STREAM has been seen once `c` has been consumed. */
  predicate EndAfter(seen: bool, c: seq<Msg>)
    decreases |c|
  {
    if c == [] then seen else EndAfter(seen || (c[0].h.command.Data? && c[0].h.EndStream()), c[1..])
  }

  predicate NoDataAfterEnd(seen: bool, c: seq<Msg>)
    decreases |c|
  {
    c == [] ||
    (&& (c[0].h.command.Data? ==> !seen)
     && NoDataAfterEnd(seen || (c[0].h.command.Data? && c[0].h.EndStream()), c[1..]))
  }

  lemma {:induction false} EndAppend(seen: bool, c: seq<Msg>, m: Msg)
    ensures EndAfter(seen, c + [m]) == (EndAfter(seen, c) || (m.h.command.Data? && m.h.EndStream()))
    ensures NoDataAfterEnd(seen, c) && (m.h.command.Data? ==> !EndAfter(seen, c)) ==> NoDataAfterEnd(seen, c + [m])
    decreases |c|
  {
    if c == [] {
      assert [m][1..] == [];
    } else {
      assert (c + [m])[1..] == c[1..] + [m];
      EndAppend(seen || (c[0].h.command.Data? && c[0].h.EndStream()), c[1..], m);
    }
  }

  /** The traffic of an accepted stream: DATA and CREDIT, then at most one CLOSE or a
      RESET, then only the late CREDIT and RESET frames the validator still lets out. */
  predicate StreamLanguage(c: seq<Msg>) {
    c == [] ||
    if IsTerminal(c[0]) then LateLanguage(c[1..])
    else (c[0].h.command.Data? || c[0].h.command.Credit?) && StreamLanguage(c[1..])
  }

  predicate LateLanguage(c: seq<Msg>) {
    forall m :: m in c ==> m.h.command.Credit? || m.h.command.Reset?
  }

  lemma {:induction false} LanguageAppend(c: seq<Msg>, m: Msg)
    requires StreamLanguage(c)
    requires m.h.command.Credit? || m.h.command.Reset? || (!HasTerminal(c) && (m.h.command.Data? || m.h.command.Close?))
    ensures StreamLanguage(c + [m])
  {
    if c == [] {
      assert [m][1..] == [];
    } else {
      assert (c + [m])[1..] == c[1..] + [m];
      assert c == [c[0]] + c[1..];
      if !IsTerminal(c[0]) { LanguageAppend(c[1..], m); }
    }
  }

  predicate HasClose(c: seq<Msg>) { exists m :: m in c && m.h.command.Close? }
}
