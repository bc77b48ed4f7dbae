/** What the launcher guarantees when it is killed between writes, when a slot keeps failing, and
    when the clock or the heartbeat cannot be trusted. */
module LauncherTheorems {
  import opened Results
  import opened Launcher

  // ---------------------------------------------------------------- killed and reopened

  /** The disk after the first `k` writes of an operation. */
  function After(d: Disk, writes: seq<Disk>, k: nat): Disk
    requires k <= |writes|
  {
    if k == 0 then d else writes[k - 1]
  }

  /** A pending switch changes slots. */
  predicate Coherent(d: Disk) { d.pending.Some? ==> d.pending.value.previous != d.pending.value.target }

  /** The watchdog state the first enabled step goes on with. */
  function Working(m: Machine): Watch { Refresh(m).1.state }

  lemma OpensCoherent(d: Disk)
    requires Coherent(d)
    ensures Open(d).Ok? && Coherent(Open(d).value.1.disk)
    ensures d.pending.Some? ==> Open(d).value.1.disk == d.(current := d.pending.value.target)
    ensures d.pending.None? ==> Open(d).value.1.disk == d
  {
  }

  /** No write of any operation leaves a disk that cannot be opened. */
  lemma WritesStayCoherent(m: Machine, env: Env, target: Slot, k: nat)
    requires Coherent(m.disk)
    ensures k < |Step(m, env).writes| ==> Coherent(Step(m, env).writes[k])
    ensures k < |RequestSlot(m, target).writes| ==> Coherent(RequestSlot(m, target).writes[k])
    ensures k < |RollbackDaemon(m.disk).0| ==> Coherent(RollbackDaemon(m.disk).0[k])
  {
    StepStaysCoherent(m, env, k);
    RequestStaysCoherent(m, target, k);
  }

  ghost predicate AllCoherent(writes: seq<Disk>) { forall i :: 0 <= i < |writes| ==> Coherent(writes[i]) }

  lemma FailureStaysCoherent(m: Machine, slot: Slot, manifest: Manifest, now: nat)
    requires Coherent(m.disk)
    ensures AllCoherent(RecordFailure(m, slot, manifest, now).writes) && AllCoherent(ConfirmHealthy(m, slot).writes)
  {
  }

  lemma RunningStaysCoherent(m: Machine, c: Child, env: Env)
    requires Coherent(m.disk) && m.running.None?
    ensures AllCoherent(StepRunning(m, c, env).writes)
  {
    if c.slot in m.disk.manifests { FailureStaysCoherent(m, c.slot, m.disk.manifests[c.slot], env.now); }
  }

  lemma StartStaysCoherent(m: Machine, env: Env)
    requires Coherent(m.disk) && m.running.None?
    ensures AllCoherent(Start(m, env).writes)
  {
  }

  lemma StepStaysCoherent(m: Machine, env: Env, k: nat)
    requires Coherent(m.disk)
    ensures k < |Step(m, env).writes| ==> Coherent(Step(m, env).writes[k])
  {
    var (writes, r) := Refresh(m);
    assert AllCoherent(writes) && Coherent(r.disk);
    if r.running.Some? {
      RunningStaysCoherent(r.(running := None), r.running.value, env);
    } else {
      StartStaysCoherent(r, env);
    }
  }

  lemma RequestStaysCoherent(m: Machine, target: Slot, k: nat)
    requires Coherent(m.disk)
    ensures k < |RequestSlot(m, target).writes| ==> Coherent(RequestSlot(m, target).writes[k])
  {
  }

  /** A saved state that a kill in the middle of a switch to `target` cannot confuse. */
  predicate Clean(saved: Option<Watch>, target: Slot) {
    saved.None? || saved.value.slot != target || saved.value == Fresh(target)
  }

  /** Killed anywhere inside a switch and reopened, the launcher either has not begun it or
      resumes it; it resumes with a clean crash record from every point exactly when the state
      on file did not already speak of the target. */
  lemma SwitchSurvivesKill(m: Machine, target: Slot, k: nat)
    requires m.disk.pending.None? && m.disk.current != target && m.disk.Valid(target) && k <= 3
    ensures |RequestSlot(m, target).writes| == 3
    ensures var d := After(m.disk, RequestSlot(m, target).writes, k);
      && Open(d).Ok?
      && var n := Open(d).value.1;
      && (k == 0 ==> n.disk == m.disk)
      && (k >= 1 ==> n.disk.current == target && n.disk.pending == Some(Pending(m.disk.current, target)))
      && (k >= 1 ==> (Working(n) == Fresh(target) <==> k == 3 || Clean(m.disk.saved, target)))
  {
  }

  /** Outside that condition the switch can hang: a halted record of the target, left on file,
      survives the kill, and the watchdog neither starts the target nor rolls back. */
  lemma StaleRecordBlocksSwitch(m: Machine, target: Slot, k: nat, env: Env)
    requires m.disk.pending.None? && m.disk.current != target && m.disk.Valid(target) && 1 <= k <= 2
    requires m.disk.saved.Some? && m.disk.saved.value.slot == target && m.disk.saved.value.halted && !env.disabled
    ensures var n := Open(After(m.disk, RequestSlot(m, target).writes, k)).value.1;
      Step(n, env) == Turn([], n, Ok(Halted(target, m.disk.saved.value.crashes)))
  {
  }

  predicate Untroubled(watch: Watch) { watch.crashes == 0 && !watch.halted }

  /** Killed anywhere inside a rollback and reopened, the launcher is back where it was, with the
      crash count kept, or has the previous slot current; its record is then clean unless the kill
      came before the last write and the file still held an older record of that slot. */
  lemma RollbackSurvivesKill(m: Machine, pending: Pending, now: nat, k: nat)
    requires m.disk.pending == Some(pending) && pending.previous != pending.target && m.disk.current == pending.target
    requires k <= 3
    ensures var d, saved := After(m.disk, Rollback(m, pending, now).writes, k), m.disk.saved;
      && Open(d).Ok?
      && var n := Open(d).value.1;
      && (k <= 1 ==> n.disk == m.disk)
      && (k >= 2 ==> n.disk.current == pending.previous && n.disk.pending.None? && Working(n).slot == pending.previous)
      && (k >= 2 ==> (Untroubled(Working(n)) <==>
            k == 3 || saved.None? || saved.value.slot != pending.previous || Untroubled(saved.value)))
  {
  }

  /** An interrupted rollback of a failing slot is repeated by the slot's next failure. */
  lemma NextFailureRollsBackAgain(m: Machine, pending: Pending, manifest: Manifest, now: nat, k: nat, later: nat)
    requires m.disk.pending == Some(pending) && pending.previous != pending.target && m.disk.current == pending.target
    requires m.disk.saved == Some(m.state) && m.state.slot == pending.target && k <= 1
    requires RecordFailure(m, pending.target, manifest, now).result == Ok(RolledBack(pending.target, pending.previous))
    ensures var n := Open(After(m.disk, RecordFailure(m, pending.target, manifest, now).writes, k)).value.1;
      && n.state == m.state
      && RecordFailure(n, pending.target, manifest, later).result == Ok(RolledBack(pending.target, pending.previous))
  {
  }

  // ---------------------------------------------------------------- a failing slot

  /** The step will find its child dead or silent for too long. */
  predicate Fails(m: Machine, env: Env) {
    && !env.disabled && Refresh(m).1.running.Some? && Refresh(m).1.running.value.slot in m.disk.manifests
    && var c := Refresh(m).1.running.value;
       (env.exited || Poll(c, m.disk.manifests[c.slot], env.now, env.beat).TimedOut?)
  }

  /** The step will call its child healthy for the first time. */
  predicate Confirms(m: Machine, env: Env) {
    && !env.disabled && Refresh(m).1.running.Some? && Refresh(m).1.running.value.slot in m.disk.manifests && !env.exited
    && var c := Refresh(m).1.running.value;
       var v := Poll(c, m.disk.manifests[c.slot], env.now, env.beat);
       v.Alive? && v.confirm
  }

  /** `slot` is on trial and has failed `f` times. */
  predicate Trial(m: Machine, slot: Slot, p: Option<Pending>, manifest: Manifest, f: nat) {
    && m.state.slot == slot && m.state.crashes == f && !m.state.halted
    && m.disk.current == slot && m.disk.pending == p && m.disk.Valid(slot) && m.disk.manifests[slot] == manifest
    && (m.running.Some? ==> m.running.value.slot == slot)
  }

  /** The last allowed failure ends the trial. */
  predicate Ends(outcome: Outcome, slot: Slot, p: Option<Pending>, crashes: nat) {
    outcome == if p.Some? then RolledBack(slot, p.value.previous) else Halted(slot, crashes)
  }

  lemma TrialStep(m: Machine, env: Env, slot: Slot, p: Option<Pending>, manifest: Manifest, f: nat)
    requires Trial(m, slot, p, manifest, f) && manifest.Valid() && f < manifest.maxCrashes && !Confirms(m, env)
    requires p.Some? ==> p.value.target == slot && p.value.previous != slot
    ensures Step(m, env).result.Ok?
    ensures !Fails(m, env) ==> Trial(Step(m, env).m, slot, p, manifest, f)
    ensures !Fails(m, env) ==> !Step(m, env).result.value.RolledBack? && !Step(m, env).result.value.Halted?
    ensures Fails(m, env) && f + 1 < manifest.maxCrashes ==> Trial(Step(m, env).m, slot, p, manifest, f + 1)
    ensures Fails(m, env) && f + 1 < manifest.maxCrashes ==> Step(m, env).result.value.BackingOff?
    ensures Fails(m, env) && f + 1 == manifest.maxCrashes ==> Ends(Step(m, env).result.value, slot, p, f + 1)
  {
  }

  ghost predicate IsRun(ms: seq<Machine>, envs: seq<Env>) {
    |ms| == |envs| + 1 && forall i, j :: 0 <= i < |envs| && j == i + 1 ==> ms[j] == Step(ms[i], envs[i]).m
  }

  function Failures(ms: seq<Machine>, envs: seq<Env>, n: nat): nat
    requires |ms| == |envs| + 1 && n <= |envs|
  {
    if n == 0 then 0 else Failures(ms, envs, n - 1) + if Fails(ms[n - 1], envs[n - 1]) then 1 else 0
  }

  lemma {:induction false} TrialRun(ms: seq<Machine>, envs: seq<Env>, n: nat, slot: Slot, p: Option<Pending>,
                                    manifest: Manifest)
    requires IsRun(ms, envs) && n <= |envs| && Trial(ms[0], slot, p, manifest, 0) && manifest.Valid()
    requires p.Some? ==> p.value.target == slot && p.value.previous != slot
    requires forall i :: 0 <= i < n ==> !Confirms(ms[i], envs[i])
    requires Failures(ms, envs, n) < manifest.maxCrashes
    ensures Trial(ms[n], slot, p, manifest, Failures(ms, envs, n))
  {
    if n > 0 {
      TrialRun(ms, envs, n - 1, slot, p, manifest);
      TrialStep(ms[n - 1], envs[n - 1], slot, p, manifest, Failures(ms, envs, n - 1));
    }
  }

  /** In every run that starts a slot with a clean record and never confirms it, the failure that
      uses up `maxCrashes` rolls a pending switch back and halts anything else. */
  lemma FailuresEndTrial(ms: seq<Machine>, envs: seq<Env>, n: nat, slot: Slot, p: Option<Pending>, manifest: Manifest)
    requires IsRun(ms, envs) && n < |envs| && Trial(ms[0], slot, p, manifest, 0) && manifest.Valid()
    requires p.Some? ==> p.value.target == slot && p.value.previous != slot
    requires forall i :: 0 <= i <= n ==> !Confirms(ms[i], envs[i])
    requires Failures(ms, envs, n) == manifest.maxCrashes - 1 && Fails(ms[n], envs[n])
    ensures Step(ms[n], envs[n]).result.Ok? && Ends(Step(ms[n], envs[n]).result.value, slot, p, manifest.maxCrashes)
    ensures p.Some? ==> ms[n + 1].disk.current == p.value.previous && ms[n + 1].disk.pending.None?
    ensures p.None? ==>
      ms[n + 1].disk.current == slot && ms[n + 1].disk.saved == Some(ms[n + 1].state) && ms[n + 1].state.halted
  {
    TrialRun(ms, envs, n, slot, p, manifest);
    TrialStep(ms[n], envs[n], slot, p, manifest, manifest.maxCrashes - 1);
    assert ms[n + 1] == Step(ms[n], envs[n]).m;
  }

  // ---------------------------------------------------------------- the updater's rollback

  /** A sequence of rollbacks, each cut off after the given number of writes. */
  function CutRollbacks(d: Disk, cuts: seq<nat>): Disk
    decreases |cuts|
  {
    if cuts == [] then d
    else
      var writes := RollbackDaemon(d).0;
      CutRollbacks(After(d, writes, if cuts[0] <= |writes| then cuts[0] else |writes|), cuts[1..])
  }

  /** However often the updater's rollback is interrupted and rerun, the pointer is the old slot
      or the recorded previous one, and once it is the previous one it stays; a run that
      completes leaves it there and consumes the record and any staged candidate. */
  lemma {:induction false} RollbackNeverTogglesForward(d: Disk, cuts: seq<nat>)
    requires d.previous.Some?
    ensures var e := CutRollbacks(d, cuts);
      && (e.current == d.current || e.current == d.previous.value)
      && (d.current == d.previous.value ==> e.current == d.current)
      && (e.previous == d.previous || (e.previous.None? && e.current == d.previous.value && e.next.None?))
    decreases |cuts|
  {
    if cuts != [] {
      var writes := RollbackDaemon(d).0;
      var c := After(d, writes, if cuts[0] <= |writes| then cuts[0] else |writes|);
      if c.previous.Some? {
        RollbackNeverTogglesForward(c, cuts[1..]);
      } else {
        NothingToRollBack(c, cuts[1..]);
      }
    }
  }

  lemma {:induction false} NothingToRollBack(d: Disk, cuts: seq<nat>)
    requires d.previous.None?
    ensures CutRollbacks(d, cuts) == d
    decreases |cuts|
  {
    if cuts != [] { NothingToRollBack(d, cuts[1..]); }
  }
}
