/** The invariant of the two-endpoint system over every run, and what follows from it. */
module LinkTheorems {
  import opened Results
  import opened Wire
  import opened Session
  import opened Link
  import opened LinkStream
  import opened LinkConnection
  import opened LinkInvariant

  // ---------------------------------------------------------------- the touched stream

  /** Effect of a processed frame on the stream table. */
  ghost predicate Table(dir: Direction, s: State, m: Msg, s': State) {
    && (forall id: u32 :: id != m.h.streamId ==> s'.Stream(id) == s.Stream(id))
    && (m.h.streamId != 0 ==>
          && s'.Stream(m.h.streamId).Some?
          && if m.h.command.Open? then
               && s.Stream(m.h.streamId).None?
               && s'.Stream(m.h.streamId) == Some(OpeningStream(dir == Outbound))
               && (Owns(s, m.h.streamId) <==> dir == Outbound)
             else
               && s.Stream(m.h.streamId).Some?
               && StreamStep(dir, s.Stream(m.h.streamId).value, m, s'.Stream(m.h.streamId).value))
  }

  lemma ProcessTable(dir: Direction, s: State, m: Msg, s': State)
    requires s.Process(dir, m.h, m.context) == Ok(s')
    ensures Table(dir, s, m, s')
  {
    ProcessIsApply(dir, s, m);
    if m.h.streamId != 0 && !m.h.command.Open? {
      var x' := s.streams[m.h.streamId].Apply(dir, m.h, m.context, s.conn).value;
      ApplyIsStep(dir, s.streams[m.h.streamId], m, s.conn, x');
    }
  }

  lemma SaidResetAppend(c: seq<Msg>, m: Msg, id: u32)
    ensures SaidReset(c + [m], id) <==> SaidReset(c, id) || (m.h.command.Reset? && m.h.streamId == id)
  {
    assert forall k :: k in c + [m] <==> k in c || k == m;
  }

  lemma InitiatorSends(i: State, r: State, ir: seq<Msg>, ri: seq<Msg>, iSent: seq<Msg>, m: Msg, i': State)
    requires AllPaired(i, r, ir, ri, iSent) && Table(Outbound, i, m, i') && i'.config == i.config
    ensures AllPaired(i', r, ir + [m], ri, iSent + [m])
  {
    forall id: u32 | id != 0 && Owns(i', id)
      ensures PairedAt(i', r, ir + [m], ri, iSent + [m], id)
    {
      assert PairedAt(i, r, ir, ri, iSent, id);
      OnStreamAppend(ir, m, id);
      SaidResetAppend(iSent, m, id);
      if m.h.streamId == id {
        if m.h.command.Open? {
          assert OnStream(ir + [m], id) == [m];
        } else {
          PairedInitiatorSends(i.Stream(id).value, r.Stream(id), OnStream(ir, id), OnStream(ri, id),
                               SaidReset(iSent, id), m, i'.Stream(id).value);
        }
      } else {
        assert OnStream(ir + [m], id) == OnStream(ir, id);
      }
    }
  }

  lemma ResponderSends(i: State, r: State, ir: seq<Msg>, ri: seq<Msg>, iSent: seq<Msg>, m: Msg, r': State)
    requires AllPaired(i, r, ir, ri, iSent) && Table(Outbound, r, m, r') && Regular(i, r)
    ensures AllPaired(i, r', ir, ri + [m], iSent)
  {
    forall id: u32 | id != 0 && Owns(i, id)
      ensures PairedAt(i, r', ir, ri + [m], iSent, id)
    {
      assert PairedAt(i, r, ir, ri, iSent, id);
      OnStreamAppend(ri, m, id);
      if m.h.streamId == id {
        PairedResponderSends(i.Stream(id), r.Stream(id).value, OnStream(ir, id), OnStream(ri, id),
                             SaidReset(iSent, id), m, r'.Stream(id).value);
      } else {
        assert OnStream(ri + [m], id) == OnStream(ri, id);
      }
    }
  }

  lemma OnStreamHead(c: seq<Msg>, id: u32)
    requires c != []
    ensures c[0].h.streamId == id ==>
      OnStream(c, id) != [] && OnStream(c, id)[0] == c[0] && OnStream(c, id)[1..] == OnStream(c[1..], id)
    ensures c[0].h.streamId != id ==> OnStream(c, id) == OnStream(c[1..], id)
  {
  }

  lemma ResponderReceives(i: State, r: State, ir: seq<Msg>, ri: seq<Msg>, iSent: seq<Msg>, r': State)
    requires ir != [] && AllPaired(i, r, ir, ri, iSent) && Table(Inbound, r, ir[0], r')
    ensures AllPaired(i, r', ir[1..], ri, iSent)
  {
    forall id: u32 | id != 0 && Owns(i, id)
      ensures PairedAt(i, r', ir[1..], ri, iSent, id)
    {
      assert PairedAt(i, r, ir, ri, iSent, id);
      OnStreamHead(ir, id);
      if ir[0].h.streamId == id && !ir[0].h.command.Open? {
        PairedResponderReceives(i.Stream(id), r.Stream(id).value, OnStream(ir, id), OnStream(ri, id),
                                SaidReset(iSent, id), r'.Stream(id).value);
      }
    }
  }

  lemma InitiatorReceives(i: State, r: State, ir: seq<Msg>, ri: seq<Msg>, iSent: seq<Msg>, i': State)
    requires ri != [] && AllPaired(i, r, ir, ri, iSent) && Table(Inbound, i, ri[0], i') && i'.config == i.config
    ensures AllPaired(i', r, ir, ri[1..], iSent)
  {
    forall id: u32 | id != 0 && Owns(i', id)
      ensures PairedAt(i', r, ir, ri[1..], iSent, id)
    {
      assert PairedAt(i, r, ir, ri, iSent, id);
      OnStreamHead(ri, id);
      if ri[0].h.streamId == id {
        PairedInitiatorReceives(i.Stream(id).value, r.Stream(id), OnStream(ir, id), OnStream(ri, id),
                                SaidReset(iSent, id), i'.Stream(id).value);
      }
    }
  }

  // ---------------------------------------------------------------- preservation

  lemma SendKeepsInv(x: Node, y: Node, xy: seq<Msg>, yx: seq<Msg>, m: Msg, x': Node)
    requires Inv(x, y, xy, yx) && Sends(x, m, x')
    ensures Inv(x', y, xy + [m], yx)
  {
    ProcessEffect(Outbound, x.s, m, x'.s);
    ProcessTable(Outbound, x.s, m, x'.s);
    SendHalves(x.s, y.s, xy, yx, x.sent, y.sent, m, x'.s);
    InitiatorSends(x.s, y.s, xy, yx, x.sent, m, x'.s);
    ResponderSends(y.s, x.s, yx, xy, y.sent, m, x'.s);
  }

  lemma ReceiveKeepsInv(x: Node, y: Node, xy: seq<Msg>, yx: seq<Msg>, x': Node)
    requires Inv(x, y, xy, yx) && yx != [] && Receives(x, yx[0], x')
    ensures Inv(x', y, xy, yx[1..])
  {
    ProcessEffect(Inbound, x.s, yx[0], x'.s);
    ProcessTable(Inbound, x.s, yx[0], x'.s);
    ReceiveHalves(y.s, x.s, yx, xy, y.sent, x.sent, x'.s);
    ResponderReceives(y.s, x.s, yx, xy, y.sent, x'.s);
    InitiatorReceives(x.s, y.s, xy, yx, x.sent, x'.s);
  }

  lemma AllocateKeepsInv(x: Node, y: Node, xy: seq<Msg>, yx: seq<Msg>, x': Node)
    requires Inv(x, y, xy, yx) && Allocates(x, x')
    ensures Inv(x', y, xy, yx)
  {
    forall id: u32 | id != 0 && Owns(x'.s, id)
      ensures PairedAt(x'.s, y.s, xy, yx, x.sent, id)
    {
      assert PairedAt(x.s, y.s, xy, yx, x.sent, id);
    }
    forall id: u32 | id != 0 && Owns(y.s, id)
      ensures PairedAt(y.s, x'.s, yx, xy, y.sent, id)
    {
      assert PairedAt(y.s, x.s, yx, xy, y.sent, id);
    }
  }

  lemma ActKeepsInv(x: Node, y: Node, xy: seq<Msg>, yx: seq<Msg>, x': Node, xy': seq<Msg>, yx': seq<Msg>)
    requires Inv(x, y, xy, yx) && Acts(x, xy, yx, x', xy', yx')
    ensures Inv(x', y, xy', yx')
  {
    if m :| Sends(x, m, x') && xy' == xy + [m] && yx' == yx {
      SendKeepsInv(x, y, xy, yx, m, x');
    } else if Allocates(x, x') && xy' == xy && yx' == yx {
      AllocateKeepsInv(x, y, xy, yx, x');
    } else {
      ReceiveKeepsInv(x, y, xy, yx, x');
    }
  }

  lemma InitHalf(x: Node, y: Node, c: seq<Msg>)
    requires Fresh(x) && Fresh(y) && |c| == 0
    ensures Half(x.s, y.s, c, c, y.sent)
  {
  }

  lemma InitPaired(x: Node, y: Node, c: seq<Msg>, id: u32)
    requires Fresh(x) && Fresh(y) && |c| == 0
    ensures PairedAt(x.s, y.s, c, c, x.sent, id)
  {
  }

  lemma InitJoined(x: Node, y: Node, c: seq<Msg>)
    requires Fresh(x) && Fresh(y) && |c| == 0
    ensures Joined(x, y, c, c)
  {
    InitHalf(x, y, c);
    forall id: u32 | id != 0 && Owns(x.s, id)
      ensures PairedAt(x.s, y.s, c, c, x.sent, id)
    {
      InitPaired(x, y, c, id);
    }
  }

  /** Every state of every run satisfies the invariant. */
  lemma {:induction false} RunInv(run: seq<Net>)
    requires IsRun(run)
    ensures var net := run[|run| - 1]; Inv(net.a, net.b, net.ab, net.ba)
  {
    var next := run[|run| - 1];
    if |run| == 1 {
      InitJoined(next.a, next.b, next.ab);
      InitJoined(next.b, next.a, next.ab);
    } else {
      var before := run[..|run| - 1];
      RunInv(before);
      var net := run[|run| - 2];
      assert before[|before| - 1] == net;
      if net.b == next.b && Acts(net.a, net.ab, net.ba, next.a, next.ab, next.ba) {
        ActKeepsInv(net.a, net.b, net.ab, net.ba, next.a, next.ab, next.ba);
      } else {
        ActKeepsInv(net.b, net.a, net.ba, net.ab, next.b, next.ba, next.ab);
      }
    }
  }

  // ---------------------------------------------------------------- the races

  /** The three crossings in which the receiver refuses a frame its peer was right to send. */
  ghost predicate Race(y: State, m: Msg) {
    || y.conn.phase == Closed
    || (m.h.command.Open? && y.conn.phase == GoingAway)
    || (m.h.command.Close? && y.Stream(m.h.streamId).Some? && y.Stream(m.h.streamId).value.phase == StreamReset)
  }

  /** What the receiver reports for each of them. */
  function RaceError(y: State, m: Msg): ProtocolError {
    if y.conn.phase == Closed || m.h.command.Open? then UnexpectedCommand(y.conn.phase, m.h.command, m.h.streamId)
    else StreamNotAccepted(m.h.streamId)
  }

  /** Each crossing was caused by the receiver's own earlier ERROR, GOAWAY or RESET. */
  ghost predicate SelfInflicted(y: Node, m: Msg) {
    && (y.s.conn.phase == Closed ==> Said(y.sent, Command.Error))
    && (m.h.command.Open? && y.s.conn.phase == GoingAway ==> Said(y.sent, Command.GoAway))
    && (y.s.conn.phase != Closed && m.h.command.Close? && Race(y.s, m) ==> SaidReset(y.sent, m.h.streamId))
  }

  lemma ControlAccepted(x: State, y: State, xy: seq<Msg>, yx: seq<Msg>, xSent: seq<Msg>, ySent: seq<Msg>)
    requires Regular(x, y) && xy != [] && y.conn.phase != Closed && xy[0].h.streamId == 0
    requires Half(x, y, xy, yx, ySent) && Half(y, x, yx, xy, xSent)
    ensures y.Apply(Inbound, xy[0].h, xy[0].context).Ok?
  {
    var m := xy[0];
    assert m in xy && Legal(y.config, m);
    if m.h.command.Hello? {
      assert !y.conn.peerHello;
    } else if !m.h.command.Error? {
      assert Handshaken(x.conn) && Handshaken(y.conn);
    }
  }

  lemma OpenAccepted(x: State, y: State, xy: seq<Msg>, yx: seq<Msg>, xSent: seq<Msg>, ySent: seq<Msg>)
    requires Regular(x, y) && xy != [] && y.conn.phase != Closed && xy[0].h.streamId != 0 && xy[0].h.command.Open?
    requires Half(x, y, xy, yx, ySent) && Half(y, x, yx, xy, xSent)
    requires AllPaired(x, y, xy, yx, xSent) && AllPaired(y, x, yx, xy, ySent)
    ensures y.ApplyOpen(Inbound, xy[0].h).Ok? <==> y.conn.phase == Online
    ensures y.conn.phase != Online ==> y.conn.phase == GoingAway && Said(ySent, Command.GoAway)
  {
    var m := xy[0];
    var id := m.h.streamId;
    assert Handshaken(x.conn) && Handshaken(y.conn);
    OnStreamHead(xy, id);
    if Owns(x, id) {
      assert PairedAt(x, y, xy, yx, xSent, id);
      ResponderReady(x.Stream(id), y.Stream(id), OnStream(xy, id), OnStream(yx, id), SaidReset(xSent, id));
    } else {
      assert Owns(y, id) && PairedAt(y, x, yx, xy, ySent, id);
      InitiatorReady(y.Stream(id), x.Stream(id), OnStream(yx, id), OnStream(xy, id), SaidReset(ySent, id));
    }
    assert m in xy;
  }

  lemma StreamAccepted(x: State, y: State, xy: seq<Msg>, yx: seq<Msg>, xSent: seq<Msg>, ySent: seq<Msg>)
    requires Regular(x, y) && xy != [] && y.conn.phase != Closed && xy[0].h.streamId != 0 && !xy[0].h.command.Open?
    requires Conserved(x.conn, y.conn, xy, yx)
    requires AllPaired(x, y, xy, yx, xSent) && AllPaired(y, x, yx, xy, ySent)
    ensures y.ApplyStream(Inbound, xy[0].h, xy[0].context).Ok? <==> !Race(y, xy[0])
    ensures Race(y, xy[0]) ==> SaidReset(ySent, xy[0].h.streamId)
    ensures Race(y, xy[0]) ==>
      y.ApplyStream(Inbound, xy[0].h, xy[0].context) == Err(StreamNotAccepted(xy[0].h.streamId))
  {
    var m := xy[0];
    var id := m.h.streamId;
    OnStreamHead(xy, id);
    if Owns(x, id) {
      assert PairedAt(x, y, xy, yx, xSent, id);
      ResponderReady(x.Stream(id), y.Stream(id), OnStream(xy, id), OnStream(yx, id), SaidReset(xSent, id));
      ReadyApplies(y.streams[id], m, y.conn);
    } else {
      assert Owns(y, id) && PairedAt(y, x, yx, xy, ySent, id);
      InitiatorReady(y.Stream(id), x.Stream(id), OnStream(yx, id), OnStream(xy, id), SaidReset(ySent, id));
      ReadyApplies(y.streams[id], m, y.conn);
    }
  }

  lemma HeadInSequence(x: State, y: State, xy: seq<Msg>)
    requires xy != [] && Sequenced(x, y, xy)
    ensures y.ValidateSequence(Inbound, xy[0].h).Pass?
  {
    var id := xy[0].h.streamId;
    OnStreamHead(xy, id);
    assert Numbered(Expected(y.inbound, id), OnStream(xy, id), Expected(x.outbound, id));
  }

  /** The frame at the head of a channel is refused exactly in a race. */
  lemma HeadRejectedIffRace(x: Node, y: Node, xy: seq<Msg>, yx: seq<Msg>)
    requires Inv(x, y, xy, yx) && xy != []
    ensures y.s.Process(Inbound, xy[0].h, xy[0].context).Err? <==> Race(y.s, xy[0])
    ensures Race(y.s, xy[0]) ==>
      y.s.Process(Inbound, xy[0].h, xy[0].context) == Err(RaceError(y.s, xy[0])) && SelfInflicted(y, xy[0])
  {
    var m := xy[0];
    assert m in xy && Legal(y.s.config, m);
    HeadInSequence(x.s, y.s, xy);
    ProcessIsApply(Inbound, y.s, m);
    if y.s.conn.phase != Closed {
      if m.h.streamId == 0 {
        ControlAccepted(x.s, y.s, xy, yx, x.sent, y.sent);
      } else if m.h.command.Open? {
        OpenAccepted(x.s, y.s, xy, yx, x.sent, y.sent);
      } else {
        StreamAccepted(x.s, y.s, xy, yx, x.sent, y.sent);
      }
    }
  }

  // ---------------------------------------------------------------- over every run

  /** In every run, the next frame of either channel is refused exactly in one of the three
      races, with the error of that race, and the receiver's own frame caused it. */
  lemma RejectionsAreRaces(run: seq<Net>)
    requires IsRun(run)
    ensures var net := run[|run| - 1];
      && (net.ab != [] ==>
            && (net.b.s.Process(Inbound, net.ab[0].h, net.ab[0].context).Err? <==> Race(net.b.s, net.ab[0]))
            && (Race(net.b.s, net.ab[0]) ==>
                  && net.b.s.Process(Inbound, net.ab[0].h, net.ab[0].context) == Err(RaceError(net.b.s, net.ab[0]))
                  && SelfInflicted(net.b, net.ab[0])))
      && (net.ba != [] ==>
            && (net.a.s.Process(Inbound, net.ba[0].h, net.ba[0].context).Err? <==> Race(net.a.s, net.ba[0]))
            && (Race(net.a.s, net.ba[0]) ==>
                  && net.a.s.Process(Inbound, net.ba[0].h, net.ba[0].context) == Err(RaceError(net.a.s, net.ba[0]))
                  && SelfInflicted(net.a, net.ba[0])))
  {
    RunInv(run);
    var net := run[|run| - 1];
    if net.ab != [] { HeadRejectedIffRace(net.a, net.b, net.ab, net.ba); }
    if net.ba != [] { HeadRejectedIffRace(net.b, net.a, net.ba, net.ab); }
  }

  /** An endpoint that never sent ERROR, GOAWAY or RESET accepts everything its peer sends. */
  lemma QuietEndpointNeverRejects(run: seq<Net>)
    requires IsRun(run)
    ensures var net := run[|run| - 1];
      net.ab != [] && (forall m :: m in net.b.sent ==>
        !m.h.command.Error? && !m.h.command.GoAway? && !m.h.command.Reset?)
      ==> net.b.s.Process(Inbound, net.ab[0].h, net.ab[0].context).Ok?
    ensures var net := run[|run| - 1];
      net.ba != [] && (forall m :: m in net.a.sent ==>
        !m.h.command.Error? && !m.h.command.GoAway? && !m.h.command.Reset?)
      ==> net.a.s.Process(Inbound, net.ba[0].h, net.ba[0].context).Ok?
  {
    RejectionsAreRaces(run);
  }

  /** Credit of one stream for the data its end `x` sends to its end `y`. */
  ghost predicate StreamConserved(x: State, y: State, xy: seq<Msg>, yx: seq<Msg>, id: u32) {
    x.Stream(id).Some? && y.Stream(id).Some? ==>
      var s, t := x.Stream(id).value, y.Stream(id).value;
      var sending, granting := OnStream(xy, id), OnStream(yx, id);
      && (s.phase == Accepted && t.phase == Accepted ==>
            t.receiveCredit == s.sendCredit + DataBytes(sending) + StreamGrants(granting))
      && (Established(s) && Established(t) ==> t.receiveCredit >= s.sendCredit + DataBytes(sending))
  }

  lemma InvStreamConserved(x: Node, y: Node, xy: seq<Msg>, yx: seq<Msg>, id: u32)
    requires Inv(x, y, xy, yx) && id != 0
    ensures StreamConserved(x.s, y.s, xy, yx, id)
  {
    if Owns(x.s, id) {
      assert PairedAt(x.s, y.s, xy, yx, x.sent, id);
      PairedConserved(x.s, y.s, xy, yx, x.sent, id);
    } else {
      assert Owns(y.s, id) && PairedAt(y.s, x.s, yx, xy, y.sent, id);
      PairedConserved(y.s, x.s, yx, xy, y.sent, id);
    }
  }

  lemma PairedConserved(i: State, r: State, ir: seq<Msg>, ri: seq<Msg>, iSent: seq<Msg>, id: u32)
    requires PairedAt(i, r, ir, ri, iSent, id) && Owns(i, id)
    ensures StreamConserved(i, r, ir, ri, id) && StreamConserved(r, i, ri, ir, id)
  {
  }

  /** Credit is conserved in every run: what a receiver still allows is what its peer still
      holds plus the data and the grants in flight. A finished stream may keep more, never less. */
  lemma CreditIsConserved(run: seq<Net>)
    requires IsRun(run)
    ensures var net := run[|run| - 1];
      && net.b.s.conn.receiveCredit == net.a.s.conn.sendCredit + DataBytes(net.ab) + ConnectionGrants(net.ba)
      && net.a.s.conn.receiveCredit == net.b.s.conn.sendCredit + DataBytes(net.ba) + ConnectionGrants(net.ab)
      && forall id: u32 :: id != 0 ==>
           StreamConserved(net.a.s, net.b.s, net.ab, net.ba, id) && StreamConserved(net.b.s, net.a.s, net.ba, net.ab,
             id)
  {
    RunInv(run);
    var net := run[|run| - 1];
    forall id: u32 | id != 0
      ensures StreamConserved(net.a.s, net.b.s, net.ab, net.ba, id)
      ensures StreamConserved(net.b.s, net.a.s, net.ba, net.ab, id)
    {
      InvStreamConserved(net.a, net.b, net.ab, net.ba, id);
      InvStreamConserved(net.b, net.a, net.ba, net.ab, id);
    }
  }
}
