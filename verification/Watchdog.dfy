/** When the watchdog kills a healthy child, whatever the clock does. */
module Watchdog {
  import opened Results
  import opened Launcher

  /** Poll `i` found clock `times[i]` and heartbeat `beats[i]`; `cs[i]` is the child before it. */
  ghost predicate Polled(cs: seq<Child>, times: seq<nat>, beats: seq<Option<Beat>>, manifest: Manifest) {
    && |cs| > 0 && |times| == |beats| == |cs|
    && !cs[0].healthy
    && forall i, k :: 0 <= i < |cs| - 1 && k == i + 1 ==> Survives(cs[i], times[i], beats[i], manifest, cs[k])
  }

  predicate Survives(c: Child, now: nat, beat: Option<Beat>, manifest: Manifest, d: Child) {
    Poll(c, manifest, now, beat).Alive? && Poll(c, manifest, now, beat).child == d
  }

  /** Between two polls the clock went forward by no more than the timeout, and the second found
      no new heartbeat. */
  predicate Idle(c: Child, before: nat, now: nat, beat: Option<Beat>, manifest: Manifest) {
    before <= now <= before + manifest.heartbeatTimeout && !Advances(c, beat)
  }

  /** From poll `j` to poll `n` nothing but silence. */
  ghost predicate Silent(cs: seq<Child>, times: seq<nat>, beats: seq<Option<Beat>>, manifest: Manifest, j: nat, n: nat)
    requires n < |cs| == |times| == |beats|
  {
    j <= n && forall i, k :: j <= i < n && k == i + 1 ==> Idle(cs[k], times[i], times[k], beats[k], manifest)
  }

  /** A healthy child was last given a full window at some poll, and has been silent since. */
  ghost predicate Covered(cs: seq<Child>, times: seq<nat>, beats: seq<Option<Beat>>, manifest: Manifest, n: nat, j: nat)
    requires 0 < n < |cs| == |times| == |beats|
  {
    j < n && cs[n].lastValid == Some(times[j]) && Silent(cs, times, beats, manifest, j, n - 1)
  }

  lemma {:induction false} LastPoll(cs: seq<Child>, times: seq<nat>, beats: seq<Option<Beat>>, manifest: Manifest,
                                    n: nat)
    requires Polled(cs, times, beats, manifest) && 0 < n < |cs|
    ensures cs[n].lastPoll == times[n - 1]
  {
    assert Survives(cs[n - 1], times[n - 1], beats[n - 1], manifest, cs[n]);
  }

  lemma {:induction false} HealthyIsCovered(cs: seq<Child>, times: seq<nat>, beats: seq<Option<Beat>>,
                                            manifest: Manifest, n: nat)
    returns (j: nat)
    requires Polled(cs, times, beats, manifest) && n < |cs| && cs[n].healthy
    ensures n > 0 && Covered(cs, times, beats, manifest, n, j)
  {
    if n == 0 {
      assert false;
    } else {
      assert Survives(cs[n - 1], times[n - 1], beats[n - 1], manifest, cs[n]);
      if cs[n].lastValid == Some(times[n - 1]) {
        j := n - 1;
      } else {
        assert cs[n - 1].healthy;
        j := HealthyIsCovered(cs, times, beats, manifest, n - 1);
        LastPoll(cs, times, beats, manifest, n - 1);
        assert Idle(cs[n - 1], times[n - 2], times[n - 1], beats[n - 1], manifest);
      }
    }
  }

  lemma {:induction false} SilentRises(cs: seq<Child>, times: seq<nat>, beats: seq<Option<Beat>>, manifest: Manifest,
                                       j: nat, k: nat, n: nat)
    requires n < |cs| == |times| == |beats| && j <= k <= n && Silent(cs, times, beats, manifest, j, n)
    ensures times[j] <= times[k]
  {
    if j < k {
      SilentRises(cs, times, beats, manifest, j, k - 1, n);
      assert Idle(cs[k], times[k - 1], times[k], beats[k], manifest);
    }
  }

  /** Poll `n` ends a silence, unbroken since poll `j`, that is longer than the timeout. */
  ghost predicate Overdue(cs: seq<Child>, times: seq<nat>, beats: seq<Option<Beat>>, manifest: Manifest, j: nat, n: nat)
    requires n < |cs| == |times| == |beats|
  {
    j < n && Silent(cs, times, beats, manifest, j, n) && times[n] > times[j] + manifest.heartbeatTimeout
  }

  /** During a silence the window is not renewed. */
  lemma {:induction false} SilenceKeepsWindow(cs: seq<Child>, times: seq<nat>, beats: seq<Option<Beat>>,
                                              manifest: Manifest, j: nat, k: nat, n: nat)
    requires Polled(cs, times, beats, manifest) && j < k <= n < |cs| && cs[n].healthy
    requires Silent(cs, times, beats, manifest, j, n)
    ensures cs[k].healthy && cs[k].lastValid == cs[n].lastValid
    decreases n - k
  {
    if k < n {
      var next := k + 1;
      SilenceKeepsWindow(cs, times, beats, manifest, j, next, n);
      LastPoll(cs, times, beats, manifest, k);
      assert Survives(cs[k], times[k], beats[k], manifest, cs[next]);
      assert Idle(cs[k], times[k - 1], times[k], beats[k], manifest);
    }
  }

  lemma KilledWhenOverdue(cs: seq<Child>, times: seq<nat>, beats: seq<Option<Beat>>, manifest: Manifest, n: nat, j: nat)
    requires Polled(cs, times, beats, manifest) && n < |cs| && cs[n].healthy
    requires Overdue(cs, times, beats, manifest, j, n)
    ensures Poll(cs[n], manifest, times[n], beats[n]).TimedOut?
  {
    SilenceKeepsWindow(cs, times, beats, manifest, j, j + 1, n);
    var i := HealthyIsCovered(cs, times, beats, manifest, j + 1);
    SilentRises(cs, times, beats, manifest, i, j, j);
    LastPoll(cs, times, beats, manifest, n);
    assert Idle(cs[n], times[n - 1], times[n], beats[n], manifest);
  }

  lemma OverdueWhenKilled(cs: seq<Child>, times: seq<nat>, beats: seq<Option<Beat>>, manifest: Manifest, n: nat)
    returns (j: nat)
    requires Polled(cs, times, beats, manifest) && n < |cs| && cs[n].healthy
    requires Poll(cs[n], manifest, times[n], beats[n]).TimedOut?
    ensures Overdue(cs, times, beats, manifest, j, n)
  {
    j := HealthyIsCovered(cs, times, beats, manifest, n);
    LastPoll(cs, times, beats, manifest, n);
    assert Idle(cs[n], times[n - 1], times[n], beats[n], manifest);
  }

  /** For any clock, jumps included: a healthy child is killed for heartbeat loss exactly at the
      end of an unbroken run of polls, the clock not falling and no gap above the timeout, that
      spans more than the timeout without a new heartbeat. */
  lemma KilledIffOverdue(cs: seq<Child>, times: seq<nat>, beats: seq<Option<Beat>>, manifest: Manifest, n: nat)
    requires Polled(cs, times, beats, manifest) && n < |cs| && cs[n].healthy
    ensures Poll(cs[n], manifest, times[n], beats[n]).TimedOut? <==>
      exists j :: Overdue(cs, times, beats, manifest, j, n)
  {
    if Poll(cs[n], manifest, times[n], beats[n]).TimedOut? {
      var j := OverdueWhenKilled(cs, times, beats, manifest, n);
    } else if j :| Overdue(cs, times, beats, manifest, j, n) {
      KilledWhenOverdue(cs, times, beats, manifest, n, j);
    }
  }
}
