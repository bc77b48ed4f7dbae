/** What the launcher answers and when: backing off, starting, switching, and the updater's rollback. */
module LauncherOutcomes {
  import opened Results
  import opened Launcher
  import opened LauncherTheorems

  // ---------------------------------------------------------------- backing off

  lemma {:induction false} DoubledGrows(i: nat, j: nat)
    requires i <= j
    ensures Doubled(i) <= Doubled(j)
  {
    if i < j { DoubledGrows(i, j - 1); }
  }

  lemma Scaled(a: nat, b: nat, c: nat)
    requires b <= c
    ensures a * b <= a * c
  {
  }

  /** The delay starts at the manifest's first value, doubles with each further failure until it reaches
      the largest, and never falls again. */
  lemma BackoffDoubles(manifest: Manifest, crashes: nat)
    requires manifest.Valid() && crashes >= 1
    ensures Backoff(manifest, 1) == manifest.backoffInitial
    ensures manifest.backoffInitial <= Backoff(manifest, crashes) <= manifest.backoffMax
    ensures crashes < 32 ==> Backoff(manifest, crashes + 1) == Min(2 * Backoff(manifest, crashes), manifest.backoffMax)
    ensures crashes >= 32 ==> Backoff(manifest, crashes) == Backoff(manifest, 32)
  {
    BackoffIs(manifest, 1, 0);
    BackoffIs(manifest, crashes, Min(crashes - 1, 31));
    if crashes < 32 {
      BackoffIs(manifest, crashes + 1, crashes);
      NextDelay(manifest.backoffInitial, crashes - 1);
      CappedDouble(Delay(manifest.backoffInitial, crashes - 1), manifest.backoffMax);
    } else {
      BackoffIs(manifest, 32, 31);
    }
  }

  function Delay(first: nat, k: nat): nat { first * Doubled(k) }

  lemma BackoffIs(manifest: Manifest, crashes: nat, k: nat)
    requires manifest.Valid() && crashes >= 1 && k == Min(crashes - 1, 31)
    ensures Backoff(manifest, crashes) == Min(Delay(manifest.backoffInitial, k), manifest.backoffMax)
    ensures manifest.backoffInitial <= Delay(manifest.backoffInitial, k)
    ensures k == 0 ==> Delay(manifest.backoffInitial, k) == manifest.backoffInitial
  {
    DoubledGrows(0, k);
    Scaled(manifest.backoffInitial, 1, Doubled(k));
  }

  lemma NextDelay(first: nat, k: nat)
    ensures Delay(first, k + 1) == 2 * Delay(first, k)
  {
    assert Doubled(k + 1) == 2 * Doubled(k);
  }

  lemma CappedDouble(x: nat, most: nat)
    ensures Min(2 * x, most) == Min(2 * Min(x, most), most)
  {
  }

  /** A failure that neither halts nor rolls back: until its delay is over no step starts the slot, and
      the first step after it does, if the slot can be started. */
  lemma WaitsOutBackoff(m: Machine, slot: Slot, manifest: Manifest, now: nat, env: Env, until: nat)
    requires m.running.None? && m.disk.current == slot && !m.state.halted && !env.disabled
    requires RecordFailure(m, slot, manifest, now).result == Ok(BackingOff(slot, until))
    ensures until == Min(now + Backoff(manifest, Min(m.state.crashes + 1, U32_MAX)), U64_MAX)
    ensures var n := RecordFailure(m, slot, manifest, now).m;
      && (env.now < until ==> Step(n, env) == Turn([], n, Ok(BackingOff(slot, until))))
      && (env.now >= until && n.disk.Valid(slot) ==>
            Step(n, env).result == Ok(Started(slot)) && Step(n, env).m.running.Some?
            && Step(n, env).m.running.value.slot == slot)
  {
  }

  /** After a rollback the previous slot is started by the next step, if it can be. */
  lemma RestoredStarts(m: Machine, pending: Pending, now: nat, env: Env)
    requires m.running.None? && !env.disabled && env.now >= now && m.disk.Valid(pending.previous)
    ensures var t := Step(Rollback(m, pending, now).m, env);
      && t.writes == [] && t.result == Ok(Started(pending.previous))
      && t.m.running.Some? && t.m.running.value.slot == pending.previous
  {
  }

  /** A disabled step stops the child, starts nothing and writes nothing. */
  lemma DisabledStops(m: Machine, env: Env)
    requires env.disabled
    ensures Step(m, env) == Turn([], m.(running := None), Ok(Disabled))
  {
  }

  /** An enabled step ends with a child running exactly if it says so: started, running or healthy, of
      the current slot; and it calls a child healthy exactly once it has been. */
  lemma AnswerMatchesChild(m: Machine, env: Env)
    requires !env.disabled && Step(m, env).result.Ok?
    ensures var t, answer := Step(m, env), Step(m, env).result.value;
      && (t.m.running.Some? <==> answer.Started? || answer.Running? || answer.Healthy?)
      && (t.m.running.Some? ==> answer.slot == t.m.running.value.slot == m.disk.current == t.m.disk.current)
      && (t.m.running.Some? ==> (answer.Healthy? <==> t.m.running.value.healthy))
  {
    var r := Refresh(m).1;
    if r.running.Some? { RunningAnswer(r.(running := None), r.running.value, env); }
  }

  lemma RunningAnswer(m: Machine, c: Child, env: Env)
    requires m.running.None? && StepRunning(m, c, env).result.Ok?
    ensures var t, answer := StepRunning(m, c, env), StepRunning(m, c, env).result.value;
      && (t.m.running.Some? <==> answer.Started? || answer.Running? || answer.Healthy?)
      && (t.m.running.Some? ==> answer.slot == t.m.running.value.slot == c.slot && t.m.disk.current == m.disk.current)
      && (t.m.running.Some? ==> (answer.Healthy? <==> t.m.running.value.healthy))
  {
    if c.slot in m.disk.manifests { PollAnswer(c, m.disk.manifests[c.slot], env.now, env.beat); }
  }

  lemma PollAnswer(c: Child, manifest: Manifest, now: nat, beat: Option<Beat>)
    ensures var v := Poll(c, manifest, now, beat);
      v.Alive? ==>
        && v.child.slot == c.slot && (v.confirm <==> v.child.healthy && !c.healthy)
        && v.outcome == if v.child.healthy then Healthy(c.slot) else Running(c.slot)
  {
  }

  // ---------------------------------------------------------------- switching

  /** A request succeeds if and only if its target is current, or already being switched to, or nothing
      is pending and the target can be started. Only in the last case does anything change: the
      target is current and pending, with a clean record. */
  lemma RequestOutcome(m: Machine, target: Slot)
    requires Coherent(m.disk)
    ensures var t, d, p := RequestSlot(m, target), m.disk, m.disk.pending;
      var begins := d.current != target && p.None? && d.Valid(target);
      && (t.result.Ok? <==> d.current == target || (p.Some? && p.value.target == target) || begins)
      && (begins ==>
            && t.m.disk ==
               d.(current := target, pending := Some(Pending(d.current, target)), saved := Some(Fresh(target)))
            && t.m.state == Fresh(target) && After(d, t.writes, |t.writes|) == t.m.disk)
      && (!begins ==> t.writes == [] && t.m == m)
  {
  }

  /** The updater rolls back if and only if no daemon runs, no switch is pending, and a slot is on record
      that is current already or can be started. Then that slot is current, and record and candidate
      are gone; otherwise nothing has changed. */
  lemma RollbackOutcome(d: Disk, slot: Slot)
    ensures var (writes, r) := RollbackDaemon(d);
      && (r == Ok(slot) <==>
            !d.daemon && d.pending.None? && d.previous == Some(slot) && (slot == d.current || d.Valid(slot)))
      && (r == Ok(slot) ==>
            After(d, writes, |writes|) == d.(current := slot, next := None, previous := None))
      && (r.Err? ==> writes == [])
  {
  }
}
