/** The reader that finds the next frame boundary after an aborted transfer. */
module Resync {
  import opened Results
  import opened Wire

  const MAX_RESYNCHRONIZE_BYTES: nat := 16 * 1024 * 1024

  datatype Failure = UnexpectedEof | InvalidData

  /** The magic stands at `p`. */
  predicate Occurs(s: seq<byte>, p: nat) { p + 4 <= |s| && forall k :: 0 <= k < 4 ==> s[p + k] == MAGIC[k] }

  ghost predicate First(s: seq<byte>, p: nat) { Occurs(s, p) && forall q :: 0 <= q < p ==> !Occurs(s, q) }

  ghost predicate Absent(s: seq<byte>) { forall q: nat :: !Occurs(s, q) }

  /** The last `m` bytes of `s` begin the magic. */
  predicate Pending(s: seq<byte>, m: nat) {
    m <= |s| && m <= 4 && forall k :: 0 <= k < m ==> s[|s| - m + k] == MAGIC[k]
  }

  /** `m` is the longest such ending, and the magic is not complete anywhere. */
  ghost predicate Matched(s: seq<byte>, m: nat) {
    m < 4 && Pending(s, m) && Absent(s) && forall n :: m < n <= 4 ==> !Pending(s, n)
  }

  lemma PendingGrows(s: seq<byte>, b: byte, n: nat)
    requires n < 4
    ensures Pending(s + [b], n + 1) <==> Pending(s, n) && b == MAGIC[n]
  {
    var t := s + [b];
    if Pending(t, n + 1) {
      assert t[|t| - (n + 1) + n] == MAGIC[n];
      forall k | 0 <= k < n
        ensures s[|s| - n + k] == MAGIC[k]
      {
        assert t[|t| - (n + 1) + k] == MAGIC[k];
      }
    }
  }

  lemma OccursAtEnd(s: seq<byte>, b: byte, q: nat)
    requires Occurs(s + [b], q)
    ensures Occurs(s, q) || (q + 4 == |s| + 1 && Pending(s + [b], 4))
  {
    var t := s + [b];
    forall k | 0 <= k < 4
      ensures t[q + k] == MAGIC[k] && (q + 4 <= |s| ==> s[q + k] == MAGIC[k])
    {
    }
    if q + 4 > |s| {
      forall k | 0 <= k < 4
        ensures t[|t| - 4 + k] == MAGIC[k]
      {
        assert t[q + k] == MAGIC[k];
      }
    }
  }

  /** No proper ending of a started magic starts it again: its letters are distinct. */
  lemma NoOverlap(s: seq<byte>, m: nat, n: nat)
    requires Pending(s, m) && 0 < n < m
    ensures !Pending(s, n)
  {
    assert s[|s| - m + (m - n)] == MAGIC[m - n] != MAGIC[0];
    assert s[|s| - n + 0] != MAGIC[0];
  }

  /** One byte of the scan, when it does not complete the magic. */
  lemma MatchStep(s: seq<byte>, m: nat, b: byte, m': nat)
    requires Matched(s, m)
    requires m' == if b == MAGIC[m] then m + 1 else if b == MAGIC[0] then 1 else 0
    ensures m' < 4 ==> Matched(s + [b], m')
    ensures m' == 4 ==> First(s + [b], |s| - 3) && |s| >= 3
  {
    var t := s + [b];
    forall n | m' < n <= 4
      ensures !Pending(t, n)
    {
      PendingGrows(s, b, n - 1);
      if 0 < n - 1 < m { NoOverlap(s, m, n - 1); }
    }
    if m' > 0 { PendingGrows(s, b, m' - 1); }
    forall q: nat | Occurs(t, q)
      ensures m' == 4 && q == |s| - 3
    {
      OccursAtEnd(s, b, q);
    }
    if m' == 4 {
      assert forall k :: 0 <= k < 4 ==> t[|t| - 4 + k] == MAGIC[k];
      assert Occurs(t, |s| - 3);
    }
  }

  /** What a scan of `stream` bounded by `limit` must report, and what it must leave to be read.
      The three answers exclude each other, so each is given exactly when it applies. */
  ghost predicate Answers(r: Result<(), Failure>, stream: seq<byte>, limit: nat, readable: seq<byte>) {
    match r
    case Ok(_) => exists p: nat :: First(stream, p) && p + 4 <= limit && readable == stream[p..]
    case Err(UnexpectedEof) => Absent(stream) && |stream| < limit
    case Err(InvalidData) => |stream| >= limit && Absent(stream[..limit]) && readable == stream[limit..]
  }

  /** Only one answer is right. */
  lemma AnswersAreExclusive(r: Result<(), Failure>, q: Result<(), Failure>, stream: seq<byte>, limit: nat,
                            x: seq<byte>, y: seq<byte>)
    requires Answers(r, stream, limit, x) && Answers(q, stream, limit, y)
    ensures (r.Ok? <==> q.Ok?) && (r.Err? ==> r == q) && (r != Err(UnexpectedEof) ==> x == y)
  {
    if r.Ok? && q.Ok? {
      var p: nat :| First(stream, p) && x == stream[p..];
      var o: nat :| First(stream, o) && y == stream[o..];
      assert p == o;
    } else if r.Ok? {
      var p: nat :| First(stream, p) && p + 4 <= limit;
      assert |stream| >= limit ==> Occurs(stream[..limit], p);
    } else if q.Ok? {
      var o: nat :| First(stream, o) && o + 4 <= limit;
      assert |stream| >= limit ==> Occurs(stream[..limit], o);
    }
  }

  // ---------------------------------------------------------------- the reader

  /** A buffered source. What `fill_buf` returns is any non-empty start of what is left. */
  class Source {
    var rest: seq<byte>

    constructor (bytes: seq<byte>)
      ensures rest == bytes
    {
      rest := bytes;
    }

    method FillBuf() returns (available: seq<byte>)
      ensures available <= rest && (available == [] <==> rest == [])
    {
      if rest == [] { return []; }
      var n :| 0 < n <= |rest|;
      available := rest[..n];
    }

    method Consume(amount: nat)
      requires amount <= |rest|
      modifies this
      ensures rest == old(rest)[amount..]
    {
      rest := rest[amount..];
    }

    method Read(size: nat) returns (bytes: seq<byte>)
      modifies this
      ensures |bytes| <= size && old(rest) == bytes + rest && (bytes == [] <==> size == 0 || old(rest) == [])
    {
      if size == 0 || rest == [] { return []; }
      var n :| 0 < n <= |rest| && n <= size;
      bytes := rest[..n];
      rest := rest[n..];
    }
  }

  class ResynchronizingReader {
    const inner: Source
    var magicOffset: nat

    constructor (source: Source)
      ensures inner == source && magicOffset == |MAGIC|
    {
      inner := source;
      magicOffset := |MAGIC|;
    }

    /** What reading on would give: what is left of a found magic, then the source. */
    ghost function Readable(): seq<byte>
      requires magicOffset <= |MAGIC|
      reads this, inner
    {
      MAGIC[magicOffset..] + inner.rest
    }

    /** Scans one buffer, and stops behind the magic. */
    method ScanBuffer(available: seq<byte>, start: nat, ghost before: seq<byte>) returns (consumed: nat, matched: nat)
      requires Matched(before, start)
      ensures consumed <= |available| && (matched < 4 ==> consumed == |available|) && (available != [] ==> consumed > 0)
      ensures matched < 4 ==> Matched(before + available, matched)
      ensures matched >= 4 ==> |before + available[..consumed]| >= 4
      ensures matched >= 4 ==> First(before + available[..consumed], |before + available[..consumed]| - 4)
    {
      consumed, matched := 0, start;
      assert before + available[..0] == before;
      while consumed < |available|
        invariant consumed <= |available| && Matched(before + available[..consumed], matched)
        decreases |available| - consumed
      {
        var b := available[consumed];
        ghost var seen := before + available[..consumed];
        var next := if b == MAGIC[matched] then matched + 1 else if b == MAGIC[0] then 1 else 0;
        MatchStep(seen, matched, b, next);
        assert seen + [b] == before + available[..consumed + 1];
        consumed := consumed + 1;
        matched := next;
        if matched == 4 { return; }
      }
      assert available[..consumed] == available;
    }

    /** Takes one buffer from the source, no more than `limit` bytes of it; none at end of input. */
    method ScanOnce(matched: nat, limit: nat, ghost before: seq<byte>) returns (consumed: nat, now: nat)
      requires limit > 0 && Matched(before, matched)
      modifies inner
      ensures consumed <= limit && consumed <= |old(inner.rest)| && inner.rest == old(inner.rest)[consumed..]
      ensures consumed == 0 ==> old(inner.rest) == []
      ensures now < 4 ==> Matched(before + old(inner.rest)[..consumed], now)
      ensures now >= 4 ==>
        |before| + consumed >= 4 && First(before + old(inner.rest)[..consumed], |before| + consumed - 4)
    {
      var available := inner.FillBuf();
      if available == [] {
        assert before + inner.rest[..0] == before;
        return 0, matched;
      }
      var chunk := available[..if |available| <= limit then |available| else limit];
      assert chunk <= inner.rest;
      consumed, now := ScanBuffer(chunk, matched, before);
      assert chunk[..consumed] == inner.rest[..consumed];
      assert now < 4 ==> chunk == inner.rest[..consumed];
      inner.Consume(consumed);
    }

    /** Success means the first magic of the stream was found within the limit, nothing but what
        precedes it was dropped, and reading goes on with it. The limit error means that no magic
        lies wholly in the bytes scanned, end of input that the whole stream holds none. */
    method ResynchronizeWithin(limit: nat) returns (r: Result<(), Failure>)
      modifies this, inner
      ensures magicOffset <= |MAGIC|
      ensures Answers(r, old(inner.rest), limit, Readable())
    {
      magicOffset := |MAGIC|;
      var matched, scanned := 0, 0;
      ghost var stream := inner.rest;
      while scanned < limit
        invariant magicOffset == |MAGIC| && scanned <= limit && scanned <= |stream|
        invariant inner.rest == stream[scanned..] && Matched(stream[..scanned], matched)
        decreases limit - scanned
      {
        var consumed, now := ScanOnce(matched, limit - scanned, stream[..scanned]);
        if consumed == 0 {
          EndAnswer(stream, scanned, matched, limit, Readable());
          return Err(UnexpectedEof);
        }
        Continues(stream, scanned, consumed);
        scanned := scanned + consumed;
        if now >= 4 {
          magicOffset := 0;
          FoundAnswer(stream, scanned, limit);
          return Ok(());
        }
        matched := now;
      }
      LimitAnswer(stream, limit, matched);
      r := Err(InvalidData);
    }

    method Resynchronize() returns (r: Result<(), Failure>)
      modifies this, inner
      ensures magicOffset <= |MAGIC| && Answers(r, old(inner.rest), MAX_RESYNCHRONIZE_BYTES, Readable())
    {
      r := ResynchronizeWithin(MAX_RESYNCHRONIZE_BYTES);
    }

    /** Reading never skips, repeats or reorders. */
    method Read(size: nat) returns (bytes: seq<byte>)
      requires magicOffset <= |MAGIC|
      modifies this, inner
      ensures magicOffset <= |MAGIC| && |bytes| <= size && old(Readable()) == bytes + Readable()
      ensures bytes == [] <==> size == 0 || old(Readable()) == []
    {
      if size == 0 { return []; }
      if magicOffset < |MAGIC| {
        var length := if size <= |MAGIC| - magicOffset then size else |MAGIC| - magicOffset;
        MagicContinues(magicOffset, length, inner.rest);
        bytes := MAGIC[magicOffset..magicOffset + length];
        magicOffset := magicOffset + length;
        return;
      }
      bytes := inner.Read(size);
    }
  }

  lemma MagicContinues(from: nat, n: nat, rest: seq<byte>)
    requires from + n <= |MAGIC|
    ensures MAGIC[from..] + rest == MAGIC[from..from + n] + (MAGIC[from + n..] + rest)
  {
    var s: seq<byte> := MAGIC;
    assert s[from..] == s[from..from + n] + s[from + n..];
  }

  lemma Continues(stream: seq<byte>, scanned: nat, n: nat)
    requires scanned + n <= |stream|
    ensures stream[..scanned] + stream[scanned..][..n] == stream[..scanned + n]
    ensures stream[scanned..][n..] == stream[scanned + n..]
  {
  }

  lemma EndAnswer(stream: seq<byte>, scanned: nat, matched: nat, limit: nat, readable: seq<byte>)
    requires scanned <= |stream| && stream[scanned..] == [] && Matched(stream[..scanned], matched) && scanned < limit
    ensures Answers(Err(UnexpectedEof), stream, limit, readable)
  {
    assert stream[..scanned] == stream;
  }

  lemma LimitAnswer(stream: seq<byte>, limit: nat, matched: nat)
    requires limit <= |stream| && Matched(stream[..limit], matched)
    ensures Answers(Err(InvalidData), stream, limit, MAGIC[4..] + stream[limit..])
  {
    assert MAGIC[4..] + stream[limit..] == stream[limit..];
  }

  lemma FoundAnswer(stream: seq<byte>, n: nat, limit: nat)
    requires 4 <= n <= |stream| && n <= limit && First(stream[..n], n - 4)
    ensures Answers(Ok(()), stream, limit, MAGIC[0..] + stream[n..])
  {
    FirstInWhole(stream, n);
    assert MAGIC[0..] + stream[n..] == stream[n - 4..];
  }

  lemma FirstInWhole(stream: seq<byte>, n: nat)
    requires 4 <= n <= |stream| && First(stream[..n], n - 4)
    ensures First(stream, n - 4) && stream[n - 4..] == MAGIC + stream[n..]
  {
    forall q | 0 <= q < n - 4
      ensures !Occurs(stream, q)
    {
      assert !Occurs(stream[..n], q);
    }
    assert Occurs(stream[..n], n - 4);
  }
}
