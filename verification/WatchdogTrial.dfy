/** When the watchdog calls a child healthy for the first time, and when it gives it up before that,
    whatever the clock does. */
module WatchdogTrial {
  import opened Results
  import opened Launcher
  import opened Watchdog

  // ---------------------------------------------------------------- times and heartbeats

  /** Poll `i` finds a heartbeat of this child. */
  predicate Found(beats: seq<Option<Beat>>, instance: nat, i: nat) {
    i < |beats| && beats[i].Some? && beats[i].value.instance == instance
  }

  predicate NoneFound(beats: seq<Option<Beat>>, instance: nat, from: nat, to: nat) {
    forall k :: from <= k < to ==> !Found(beats, instance, k)
  }

  /** The clock fell at poll `b`, or it is the first, and has not fallen since. */
  ghost predicate Stretch(times: seq<nat>, b: nat, n: nat) {
    && b <= n < |times| && (b > 0 ==> times[b] < times[b - 1])
    && forall i, k :: b <= i < n && k == i + 1 ==> times[i] <= times[k]
  }

  /** The first heartbeat found since poll `b`. */
  predicate First(beats: seq<Option<Beat>>, instance: nat, b: nat, j: nat) {
    b <= j && Found(beats, instance, j) && NoneFound(beats, instance, b, j)
  }

  /** The last one found before poll `n`. */
  predicate Last(beats: seq<Option<Beat>>, instance: nat, b: nat, l: nat, n: nat) {
    b <= l < n && Found(beats, instance, l) && NoneFound(beats, instance, l + 1, n)
  }

  /** A heartbeat that differs from the one found before it since poll `b`. */
  ghost predicate New(beats: seq<Option<Beat>>, instance: nat, b: nat, n: nat) {
    && Found(beats, instance, n)
    && forall l: nat :: Last(beats, instance, b, l, n) ==> beats[l].value.timestamp != beats[n].value.timestamp
  }

  ghost predicate NoneNew(beats: seq<Option<Beat>>, instance: nat, b: nat, from: nat, to: nat) {
    forall k: nat :: from <= k < to ==> !New(beats, instance, b, k)
  }

  /** When the child, or its new trial after a fall of the clock, began. */
  function Origin(c: Child, times: seq<nat>, b: nat): nat
    requires b < |times|
  {
    if b == 0 && c.started <= times[0] then c.started else times[b]
  }

  lemma StretchUnique(times: seq<nat>, b: nat, d: nat, n: nat)
    requires Stretch(times, b, n) && Stretch(times, d, n)
    ensures b == d
  {
  }

  lemma {:induction false} StretchRises(times: seq<nat>, b: nat, j: nat, n: nat)
    requires Stretch(times, b, n) && b <= j <= n
    ensures times[j] <= times[n]
    decreases n - j
  {
    if j < n {
      var k := j + 1;
      assert times[j] <= times[k];
      StretchRises(times, b, k, n);
    }
  }

  // ---------------------------------------------------------------- what the child remembers

  /** A child as it is started. */
  predicate JustStarted(c: Child) {
    !c.healthy && c.lastPoll == c.started && c.lastBeat.None? && c.firstBeat.None? && c.lastValid.None?
  }

  /** Since poll `b`: the first heartbeat at poll `j`, the last found at `l`, the last new one at `v`. */
  datatype Marks = Marks(b: nat, j: nat, l: nat, v: nat)

  ghost predicate Silence(c: Child, beats: seq<Option<Beat>>, b: nat, n: nat) {
    NoneFound(beats, c.instance, b, n) && c.firstBeat.None? && c.lastBeat.None? && c.lastValid.None?
  }

  ghost predicate Heard(c: Child, times: seq<nat>, beats: seq<Option<Beat>>, m: Marks, n: nat) {
    && First(beats, c.instance, m.b, m.j) && m.j < n <= |times| && n <= |beats| && c.firstBeat == Some(times[m.j])
    && Last(beats, c.instance, m.b, m.l, n) && c.lastBeat == Some(beats[m.l].value.timestamp)
    && m.b <= m.v < n && New(beats, c.instance, m.b, m.v) && NoneNew(beats, c.instance, m.b, m.v + 1, n)
    && c.lastValid == Some(times[m.v])
  }

  /** What an unconfirmed child remembers of the polls before `to`, the last clock seen being that of
      poll `n`. */
  ghost predicate Remembers(first: Child, c: Child, times: seq<nat>, beats: seq<Option<Beat>>, m: Marks, n: nat,
                            to: nat) {
    && Stretch(times, m.b, n) && |beats| == |times| && m.b <= to <= n + 1
    && c.lastPoll == times[n] && c.instance == first.instance && !c.healthy && c.started == Origin(first, times, m.b)
    && (Silence(c, beats, m.b, to) || Heard(c, times, beats, m, to))
  }

  /** The child once a poll has looked at the clock. */
  function Clocked(c: Child, now: nat): Child {
    if now >= c.lastPoll then c.(lastPoll := now)
    else c.(lastPoll := now, started := now, lastBeat := None, firstBeat := None, lastValid := None)
  }

  /** The child once the poll has taken in a new heartbeat. */
  function Beaten(d: Child, now: nat, timestamp: nat): Child {
    d.(lastBeat := Some(timestamp), lastValid := Some(now),
       firstBeat := if d.firstBeat.Some? then d.firstBeat else Some(now))
  }

  /** A poll of a child not yet healthy. */
  lemma PollSplits(c: Child, manifest: Manifest, now: nat, beat: Option<Beat>)
    requires !c.healthy
    ensures var d, v := Clocked(c, now), Poll(c, manifest, now, beat);
      if Advances(d, beat) then
        var e := Beaten(d, now, beat.value.timestamp);
        var ripe := Minus(now, e.firstBeat.value) >= manifest.healthyAfter;
        v.Alive? && v.confirm == ripe && v.child == e.(healthy := ripe)
      else
        if Late(d, manifest, now) then v.TimedOut? else v.Alive? && !v.confirm && v.child == d
  {
  }

  // ---------------------------------------------------------------- one poll

  lemma NextStretch(times: seq<nat>, b: nat, n: nat)
    requires 0 < n < |times| && Stretch(times, b, n - 1)
    ensures Stretch(times, if times[n] < times[n - 1] then n else b, n)
  {
    if times[n] >= times[n - 1] {
      forall i, k | b <= i < n && k == i + 1
        ensures times[i] <= times[k]
      {
        if k < n { assert times[i] <= times[k]; }
      }
    }
  }

  /** Looking at the clock, poll `n` keeps what it remembers or, when the clock fell, forgets it. */
  lemma ClockSeen(first: Child, c: Child, times: seq<nat>, beats: seq<Option<Beat>>, m: Marks, n: nat)
    returns (m': Marks)
    requires n < |times| == |beats|
    requires if n == 0 then c == first && JustStarted(c) else Remembers(first, c, times, beats, m, n - 1, n)
    ensures Remembers(first, Clocked(c, times[n]), times, beats, m', n, n)
  {
    if n == 0 {
      m' := Marks(0, 0, 0, 0);
    } else {
      NextStretch(times, m.b, n);
      m' := if times[n] < times[n - 1] then Marks(n, 0, 0, 0) else m;
    }
  }

  /** The poll sees a new heartbeat exactly if there is one. */
  lemma SeenIffNew(first: Child, d: Child, times: seq<nat>, beats: seq<Option<Beat>>, m: Marks, n: nat)
    requires Remembers(first, d, times, beats, m, n, n)
    ensures Advances(d, beats[n]) <==> New(beats, d.instance, m.b, n)
  {
    if Heard(d, times, beats, m, n) {
      assert Last(beats, d.instance, m.b, m.l, n);
      forall l: nat | Last(beats, d.instance, m.b, l, n)
        ensures l == m.l
      {
        LastUnique(beats, d.instance, m.b, l, m.l, n);
      }
    }
  }

  lemma LastUnique(beats: seq<Option<Beat>>, instance: nat, b: nat, l: nat, k: nat, n: nat)
    requires Last(beats, instance, b, l, n) && Last(beats, instance, b, k, n)
    ensures l == k
  {
  }

  /** Taking in a new heartbeat. */
  lemma BeatRemembered(first: Child, d: Child, times: seq<nat>, beats: seq<Option<Beat>>, m: Marks, n: nat)
    returns (m': Marks)
    requires Remembers(first, d, times, beats, m, n, n) && New(beats, d.instance, m.b, n)
    ensures m'.b == m.b && First(beats, d.instance, m.b, m'.j) && m'.j <= n
    ensures var e := Beaten(d, times[n], beats[n].value.timestamp);
      e.firstBeat == Some(times[m'.j]) && Remembers(first, e, times, beats, m', n, n + 1)
  {
    m' := Marks(m.b, if d.firstBeat.None? then n else m.j, n, n);
    var e := Beaten(d, times[n], beats[n].value.timestamp);
    assert Heard(e, times, beats, m', n + 1);
  }

  /** Finding none, or the same as before. */
  lemma NothingNew(first: Child, d: Child, times: seq<nat>, beats: seq<Option<Beat>>, m: Marks, n: nat)
    returns (m': Marks)
    requires Remembers(first, d, times, beats, m, n, n) && !New(beats, d.instance, m.b, n)
    ensures m'.b == m.b && Remembers(first, d, times, beats, m', n, n + 1)
  {
    m' := if Found(beats, d.instance, n) then m.(l := n) else m;
    if Heard(d, times, beats, m, n) {
      if Found(beats, d.instance, n) { SameAgain(d, beats, m, n); }
      assert Heard(d, times, beats, m', n + 1);
    } else {
      assert Silence(d, beats, m.b, n);
    }
  }

  lemma SameAgain(d: Child, beats: seq<Option<Beat>>, m: Marks, n: nat)
    requires Found(beats, d.instance, n) && !New(beats, d.instance, m.b, n)
    requires Last(beats, d.instance, m.b, m.l, n)
    ensures beats[m.l].value.timestamp == beats[n].value.timestamp
  {
    var l: nat :| Last(beats, d.instance, m.b, l, n) && beats[l].value.timestamp == beats[n].value.timestamp;
    LastUnique(beats, d.instance, m.b, l, m.l, n);
  }

  // ---------------------------------------------------------------- whole trials

  /** A trial begins when the launcher starts the child. */
  lemma StartsTrial(m: Machine, env: Env)
    requires m.running.None? && Start(m, env).m.running.Some?
    ensures var c := Start(m, env).m.running.value;
      JustStarted(c) && c.slot == m.disk.current && c.started == env.now && c.instance == env.instance
  {
  }

  lemma StaysHealthy(c: Child, now: nat, beat: Option<Beat>, manifest: Manifest, d: Child)
    requires Survives(c, now, beat, manifest, d) && c.healthy
    ensures d.healthy
  {
  }

  /** One poll that the child survives unconfirmed. */
  lemma PollRemembered(first: Child, c: Child, times: seq<nat>, beats: seq<Option<Beat>>, manifest: Manifest, m: Marks,
                       n: nat, e: Child)
    returns (m': Marks)
    requires n < |times| == |beats| && !c.healthy
    requires if n == 0 then c == first && JustStarted(c) else Remembers(first, c, times, beats, m, n - 1, n)
    requires Survives(c, times[n], beats[n], manifest, e) && !e.healthy
    ensures Remembers(first, e, times, beats, m', n, n + 1)
  {
    var d := Clocked(c, times[n]);
    m' := ClockSeen(first, c, times, beats, m, n);
    PollSplits(c, manifest, times[n], beats[n]);
    SeenIffNew(first, d, times, beats, m', n);
    if Advances(d, beats[n]) {
      m' := BeatRemembered(first, d, times, beats, m', n);
    } else {
      m' := NothingNew(first, d, times, beats, m', n);
    }
  }

  lemma {:induction false} TrialRemembers(cs: seq<Child>, times: seq<nat>, beats: seq<Option<Beat>>, manifest: Manifest,
                                          n: nat)
    returns (m: Marks)
    requires Polled(cs, times, beats, manifest) && JustStarted(cs[0]) && n < |cs| && !cs[n].healthy
    ensures n > 0 ==> Remembers(cs[0], cs[n], times, beats, m, n - 1, n)
  {
    m := Marks(0, 0, 0, 0);
    if n > 0 {
      assert Survives(cs[n - 1], times[n - 1], beats[n - 1], manifest, cs[n]);
      if cs[n - 1].healthy { StaysHealthy(cs[n - 1], times[n - 1], beats[n - 1], manifest, cs[n]); }
      m := TrialRemembers(cs, times, beats, manifest, n - 1);
      m := PollRemembered(cs[0], cs[n - 1], times, beats, manifest, m, n - 1, cs[n]);
    }
  }

  /** The child at poll `n`, its clock already looked at. */
  lemma TrialAt(cs: seq<Child>, times: seq<nat>, beats: seq<Option<Beat>>, manifest: Manifest, n: nat)
    returns (d: Child, m: Marks)
    requires Polled(cs, times, beats, manifest) && JustStarted(cs[0]) && n < |cs| && !cs[n].healthy
    ensures d == Clocked(cs[n], times[n]) && Remembers(cs[0], d, times, beats, m, n, n)
    ensures Advances(d, beats[n]) <==> New(beats, cs[0].instance, m.b, n)
  {
    d := Clocked(cs[n], times[n]);
    m := TrialRemembers(cs, times, beats, manifest, n);
    m := ClockSeen(cs[0], cs[n], times, beats, m, n);
    SeenIffNew(cs[0], d, times, beats, m, n);
  }

  /** At poll `n` there is a new heartbeat, at least `healthyAfter` after the first since the clock last
      fell. */
  ghost predicate Proven(times: seq<nat>, beats: seq<Option<Beat>>, instance: nat, manifest: Manifest, b: nat, j: nat,
                         n: nat) {
    && Stretch(times, b, n) && First(beats, instance, b, j) && j <= n && New(beats, instance, b, n)
    && times[n] >= times[j] + manifest.healthyAfter
  }

  ghost predicate ProvenAt(times: seq<nat>, beats: seq<Option<Beat>>, instance: nat, manifest: Manifest, n: nat) {
    exists b: nat, j: nat :: Proven(times, beats, instance, manifest, b, j, n)
  }

  lemma FirstUnique(beats: seq<Option<Beat>>, instance: nat, b: nat, j: nat, k: nat)
    requires First(beats, instance, b, j) && First(beats, instance, b, k)
    ensures j == k
  {
  }

  /** For any clock, falls included, and any heartbeats: a child becomes healthy, and is confirmed,
      exactly at a poll that finds a new heartbeat at least `healthyAfter` after the first one found
      since the clock last fell. */
  lemma ConfirmedIffProven(cs: seq<Child>, times: seq<nat>, beats: seq<Option<Beat>>, manifest: Manifest, n: nat)
    requires Polled(cs, times, beats, manifest) && JustStarted(cs[0]) && n < |cs| && !cs[n].healthy
    ensures var v := Poll(cs[n], manifest, times[n], beats[n]);
      && (v.Alive? && v.confirm <==> ProvenAt(times, beats, cs[0].instance, manifest, n))
      && (v.Alive? ==> (v.child.healthy <==> v.confirm))
  {
    var d, m := TrialAt(cs, times, beats, manifest, n);
    var instance := cs[0].instance;
    PollSplits(cs[n], manifest, times[n], beats[n]);
    if New(beats, instance, m.b, n) {
      var m' := BeatRemembered(cs[0], d, times, beats, m, n);
      RipeIff(times, beats, instance, manifest, m.b, m'.j, n);
    } else {
      NotProven(times, beats, instance, manifest, m.b, n);
    }
  }

  lemma NotProven(times: seq<nat>, beats: seq<Option<Beat>>, instance: nat, manifest: Manifest, b: nat, n: nat)
    requires Stretch(times, b, n) && !New(beats, instance, b, n)
    ensures !ProvenAt(times, beats, instance, manifest, n)
  {
    forall d: nat | Stretch(times, d, n)
      ensures d == b
    {
      StretchUnique(times, b, d, n);
    }
  }

  lemma RipeIff(times: seq<nat>, beats: seq<Option<Beat>>, instance: nat, manifest: Manifest, b: nat, j: nat, n: nat)
    requires Stretch(times, b, n) && First(beats, instance, b, j) && j <= n && New(beats, instance, b, n)
    ensures Minus(times[n], times[j]) >= manifest.healthyAfter <==> ProvenAt(times, beats, instance, manifest, n)
  {
    StretchRises(times, b, j, n);
    if Minus(times[n], times[j]) >= manifest.healthyAfter {
      assert Proven(times, beats, instance, manifest, b, j, n);
    }
    if ProvenAt(times, beats, instance, manifest, n) {
      var d: nat, k: nat :| Proven(times, beats, instance, manifest, d, k, n);
      StretchUnique(times, b, d, n);
      FirstUnique(beats, instance, b, j, k);
    }
  }

  // ---------------------------------------------------------------- giving up

  /** Poll `v` found the last new heartbeat before poll `n`, and that is more than the timeout ago. */
  ghost predicate Overdue(times: seq<nat>, beats: seq<Option<Beat>>, instance: nat, manifest: Manifest, b: nat, v: nat,
                          n: nat)
    requires n < |times|
  {
    && b <= v < n && New(beats, instance, b, v) && NoneNew(beats, instance, b, v + 1, n)
    && times[n] > times[v] + manifest.heartbeatTimeout
  }

  /** No new heartbeat at poll `n`: none since the trial began, `startupTimeout` ago or more; or the last
      one is overdue. */
  ghost predicate Hopeless(first: Child, times: seq<nat>, beats: seq<Option<Beat>>, manifest: Manifest, b: nat,
                           n: nat) {
    && Stretch(times, b, n) && !New(beats, first.instance, b, n)
    && if NoneFound(beats, first.instance, b, n)
       then times[n] >= Origin(first, times, b) + manifest.startupTimeout
       else exists v: nat :: Overdue(times, beats, first.instance, manifest, b, v, n)
  }

  lemma OriginBefore(first: Child, times: seq<nat>, b: nat, n: nat)
    requires Stretch(times, b, n)
    ensures Origin(first, times, b) <= times[n]
  {
    StretchRises(times, b, b, n);
  }

  lemma LateIffHopeless(first: Child, d: Child, times: seq<nat>, beats: seq<Option<Beat>>, manifest: Manifest, m: Marks,
                        n: nat)
    requires Remembers(first, d, times, beats, m, n, n) && !New(beats, first.instance, m.b, n)
    ensures Late(d, manifest, times[n]) <==> Hopeless(first, times, beats, manifest, m.b, n)
  {
    var instance := first.instance;
    OriginBefore(first, times, m.b, n);
    if Heard(d, times, beats, m, n) {
      assert Found(beats, instance, m.j) && m.b <= m.j < n;
      StretchRises(times, m.b, m.v, n);
      if Late(d, manifest, times[n]) { assert Overdue(times, beats, instance, manifest, m.b, m.v, n); }
      if v: nat :| Overdue(times, beats, instance, manifest, m.b, v, n) {
        assert v == m.v by {
          assert v < m.v ==> !New(beats, instance, m.b, m.v);
          assert m.v < v ==> !New(beats, instance, m.b, v);
        }
      }
    }
  }

  /** For any clock and any heartbeats: a child not yet healthy is killed exactly at a poll without a new
      heartbeat when either none was found since it was started, or since the clock last fell, and
      that is at least `startupTimeout` ago, or the last new one is more than the heartbeat timeout
      ago. */
  lemma KilledIffHopeless(cs: seq<Child>, times: seq<nat>, beats: seq<Option<Beat>>, manifest: Manifest, n: nat)
    requires Polled(cs, times, beats, manifest) && JustStarted(cs[0]) && n < |cs| && !cs[n].healthy
    ensures Poll(cs[n], manifest, times[n], beats[n]).TimedOut? <==>
      exists b: nat :: Hopeless(cs[0], times, beats, manifest, b, n)
  {
    var d, m := TrialAt(cs, times, beats, manifest, n);
    PollSplits(cs[n], manifest, times[n], beats[n]);
    if !New(beats, cs[0].instance, m.b, n) {
      LateIffHopeless(cs[0], d, times, beats, manifest, m, n);
    }
    if b: nat :| Hopeless(cs[0], times, beats, manifest, b, n) {
      StretchUnique(times, b, m.b, n);
    }
  }
}
