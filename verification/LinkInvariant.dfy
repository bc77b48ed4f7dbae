/** The invariant of the two-endpoint system. */
module LinkInvariant {
  import opened Results
  import opened Wire
  import opened Session
  import opened Link
  import opened LinkStream
  import opened LinkConnection

  /** Whether `x` is the endpoint that may open stream `id`. */
  predicate Owns(x: State, id: u32) {
    (id % 2 == 1) == x.config.role.LocalStreamsAreOdd()
  }

  ghost predicate SaidReset(c: seq<Msg>, id: u32) {
    exists m :: m in c && m.h.command.Reset? && m.h.streamId == id
  }

  /** The stream invariant of `id`, with `i` its initiator and `r` its responder. */
  ghost predicate PairedAt(i: State, r: State, ir: seq<Msg>, ri: seq<Msg>, iSent: seq<Msg>, id: u32) {
    Paired(i.Stream(id), r.Stream(id), OnStream(ir, id), OnStream(ri, id), SaidReset(iSent, id))
  }

  ghost predicate AllPaired(i: State, r: State, ir: seq<Msg>, ri: seq<Msg>, iSent: seq<Msg>) {
    forall id: u32 :: id != 0 && Owns(i, id) ==> PairedAt(i, r, ir, ri, iSent, id)
  }

  /** The direction from `x` to `y` and the streams `x` opens. */
  ghost predicate Joined(x: Node, y: Node, xy: seq<Msg>, yx: seq<Msg>) {
    Half(x.s, y.s, xy, yx, y.sent) && AllPaired(x.s, y.s, xy, yx, x.sent)
  }

  ghost predicate Inv(x: Node, y: Node, xy: seq<Msg>, yx: seq<Msg>) {
    Regular(x.s, y.s) && Joined(x, y, xy, yx) && Joined(y, x, yx, xy)
  }
}
