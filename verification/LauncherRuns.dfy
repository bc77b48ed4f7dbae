/** Whole lives of a launcher: it is booted, steps, is asked to switch, is killed after any write,
    and the updater runs beside it. */
module LauncherRuns {
  import opened Results
  import opened Launcher
  import opened LauncherTheorems

  datatype World = Off(d: Disk) | On(m: Machine) {
    function Files(): Disk { if Off? then d else m.disk }
  }

  datatype Op = DoStep(env: Env) | DoRequest(target: Slot) | DoRestore | DoStage(bytes: Image, matches: bool)

  /** `Cut` kills the launcher after `k` writes of what it is doing. */
  datatype Event = Boot | Run(op: Op) | Cut(op: Op, k: nat)

  /** The writes of an operation, and where it ends when nobody interrupts it. */
  function Effect(w: World, op: Op): (seq<Disk>, World) {
    match op
    case DoStep(env) => if w.Off? then ([], w) else var t := Step(w.m, env); (t.writes, On(t.m))
    case DoRequest(target) => if w.Off? then ([], w) else var t := RequestSlot(w.m, target); (t.writes, On(t.m))
    case DoRestore => var writes := RollbackDaemon(w.Files()).0; (writes, Updated(w, writes))
    case DoStage(bytes, matches) => var writes := StageDaemon(w.Files(), bytes, matches).0; (writes, Updated(w, writes))
  }

  /** The updater works on the files beside a launcher that may be up. */
  function Updated(w: World, writes: seq<Disk>): World {
    var d := After(w.Files(), writes, |writes|);
    if w.Off? then Off(d) else On(w.m.(disk := d))
  }

  function Next(w: World, e: Event): World {
    match e
    case Boot => var r := Open(w.Files()); if r.Ok? then On(r.value.1) else Off(w.Files())
    case Run(op) => Effect(w, op).1
    case Cut(op, k) => var writes := Effect(w, op).0; Off(After(w.Files(), writes, Min(k, |writes|)))
  }

  ghost predicate IsLife(ws: seq<World>, es: seq<Event>) {
    |ws| == |es| + 1 && forall i, j :: 0 <= i < |es| && j == i + 1 ==> ws[j] == Next(ws[i], es[i])
  }

  // ---------------------------------------------------------------- memory and file agree

  /** The saved state is the one in memory, or there is none and memory holds a clean one. */
  predicate InStep(w: World) {
    && Coherent(w.Files())
    && (w.On? ==> w.m.disk.saved == Some(w.m.state) || (w.m.disk.saved.None? && w.m.state == Fresh(w.m.state.slot)))
  }

  lemma RunningInStep(m: Machine, c: Child, env: Env)
    requires InStep(On(m)) && m.running.None?
    ensures InStep(On(StepRunning(m, c, env).m))
  {
  }

  lemma StartInStep(m: Machine, env: Env)
    requires InStep(On(m)) && m.running.None?
    ensures InStep(On(Start(m, env).m))
  {
  }

  lemma StepInStep(m: Machine, env: Env)
    requires InStep(On(m))
    ensures InStep(On(Step(m, env).m))
  {
    var r := Refresh(m).1;
    assert InStep(On(r));
    if r.running.Some? { RunningInStep(r.(running := None), r.running.value, env); } else { StartInStep(r, env); }
  }

  lemma EffectCoherent(w: World, op: Op, k: nat)
    requires InStep(w)
    ensures k <= |Effect(w, op).0| ==> Coherent(After(w.Files(), Effect(w, op).0, k))
  {
    if 0 < k {
      match op
      case DoStep(env) => if w.On? { StepStaysCoherent(w.m, env, k - 1); }
      case DoRequest(target) => if w.On? { RequestStaysCoherent(w.m, target, k - 1); }
      case DoRestore =>
      case DoStage(_, _) =>
    }
  }

  lemma NextInStep(w: World, e: Event)
    requires InStep(w)
    ensures InStep(Next(w, e))
  {
    match e
    case Boot => OpensCoherent(w.Files());
    case Run(op) =>
      if op.DoStep? && w.On? { StepInStep(w.m, op.env); }
      if op.DoRestore? || op.DoStage? { EffectCoherent(w, op, |Effect(w, op).0|); }
    case Cut(op, k) => EffectCoherent(w, op, Min(k, |Effect(w, op).0|));
  }

  /** In every state of every life the saved state is the one in memory. */
  lemma {:induction false} LifeInStep(ws: seq<World>, es: seq<Event>, n: nat)
    requires IsLife(ws, es) && n < |ws| && InStep(ws[0])
    ensures InStep(ws[n])
  {
    if n > 0 {
      LifeInStep(ws, es, n - 1);
      NextInStep(ws[n - 1], es[n - 1]);
      assert ws[n] == Next(ws[n - 1], es[n - 1]);
    }
  }

  // ---------------------------------------------------------------- a switch on trial

  /** What a state record says of a slot: `f` failures, none if it speaks of another. */
  predicate Counts(watch: Watch, slot: Slot, f: nat) {
    if watch.slot == slot then watch.crashes == f && !watch.halted else f == 0
  }

  predicate Recorded(saved: Option<Watch>, slot: Slot, f: nat) {
    if saved.Some? then Counts(saved.value, slot, f) else f == 0
  }

  /** `limit` bounds the failures the target's manifest allows. */
  predicate Switching(d: Disk, p: Pending, limit: nat, f: nat) {
    && p.previous != p.target && d.pending == Some(p) && (d.current == p.target || d.current == p.previous)
    && d.Valid(p.target) && d.manifests[p.target].maxCrashes <= limit && Recorded(d.saved, p.target, f)
  }

  /** The target of the pending switch has failed `f` times, whether or not the launcher is up. */
  predicate OnTrial(w: World, p: Pending, limit: nat, f: nat) {
    && InStep(w) && Switching(w.Files(), p, limit, f)
    && (w.On? ==>
          && w.m.disk.current == p.target && Counts(w.m.state, p.target, f)
          && (w.m.running.Some? ==> if w.m.running.value.slot == p.target then w.m.state.slot == p.target else f == 0))
  }

  /** The switch has been undone. */
  predicate Restored(w: World, p: Pending) { w.Files().pending.None? && w.Files().current == p.previous }

  predicate Confirming(w: World, e: Event) {
    && w.On?
    && ((e.Run? && e.op.DoStep? && Confirms(w.m, e.op.env)) || (e.Cut? && e.op.DoStep? && Confirms(w.m, e.op.env)))
  }

  /** A step that ends with a failure of its child on record. */
  predicate Failing(w: World, e: Event) { w.On? && e.Run? && e.op.DoStep? && Fails(w.m, e.op.env) }

  /** How many writes of a staging the event makes. */
  function Landed(w: World, e: Event): nat {
    if e.Boot? || !e.op.DoStage? then 0
    else
      var writes := Effect(w, e.op).0;
      if e.Run? then |writes| else Min(e.k, |writes|)
  }

  /** At least `k` writes of a staging land, and it is `slot` they replace: two reach the
      executable, three the manifest. */
  predicate Lands(w: World, e: Event, slot: Slot, k: nat) {
    k <= Landed(w, e) && w.Files().current.Other() == slot
  }

  /** A staging that replaces the target's own manifest keeps to the limit. */
  predicate Tame(w: World, e: Event, p: Pending, limit: nat) {
    Lands(w, e, p.target, 3) ==> PRODUCTION.maxCrashes <= limit
  }

  /** The trial goes on with one of these counts, or the switch has been undone. */
  ghost predicate GoesOn(w: World, p: Pending, limit: nat, low: nat, high: nat) {
    Restored(w, p) || exists f :: low <= f <= high && f < limit && OnTrial(w, p, limit, f)
  }

  lemma StepOnTrial(m: Machine, env: Env, p: Pending, limit: nat, f: nat)
    requires OnTrial(On(m), p, limit, f) && limit <= U32_MAX && f < limit && !Confirms(m, env)
    ensures var t := Step(m, env);
      if !Fails(m, env) then OnTrial(On(t.m), p, limit, f)
      else if f + 1 < m.disk.manifests[p.target].maxCrashes then OnTrial(On(t.m), p, limit, f + 1)
      else t.result == Ok(RolledBack(p.target, p.previous)) && Restored(On(t.m), p)
  {
  }

  /** Every disk a step writes is one of the trial, or one where the switch has been undone. */
  lemma CutStepOnTrial(m: Machine, env: Env, p: Pending, limit: nat, f: nat, k: nat)
    requires OnTrial(On(m), p, limit, f) && limit <= U32_MAX && f < limit && !Confirms(m, env)
    requires k < |Step(m, env).writes|
    ensures var d := Step(m, env).writes[k];
      || Restored(Off(d), p) || OnTrial(Off(d), p, limit, f)
      || (f + 1 < limit && OnTrial(Off(d), p, limit, f + 1))
  {
  }

  lemma BootOnTrial(w: World, p: Pending, limit: nat, f: nat)
    requires OnTrial(w, p, limit, f)
    ensures OnTrial(Next(w, Boot), p, limit, f)
  {
  }

  /** Neither another request nor the updater's rollback touches a pending switch. */
  lemma OthersOnTrial(w: World, e: Event, p: Pending, limit: nat, f: nat)
    requires OnTrial(w, p, limit, f) && !e.Boot? && (e.op.DoRequest? || e.op.DoRestore?)
    ensures Effect(w, e.op).0 == [] && OnTrial(Next(w, e), p, limit, f)
  {
  }

  lemma StageOnTrial(w: World, e: Event, p: Pending, limit: nat, f: nat)
    requires OnTrial(w, p, limit, f) && !e.Boot? && e.op.DoStage? && Tame(w, e, p, limit)
    ensures OnTrial(Next(w, e), p, limit, f)
  {
  }

  /** Every event of a life, short of a confirmation, keeps the count of failures or raises it by
      one; a step that fails is counted, and at the limit undoes the switch. */
  lemma TrialGoesOn(w: World, e: Event, p: Pending, limit: nat, f: nat)
    requires OnTrial(w, p, limit, f) && limit <= U32_MAX && f < limit && !Confirming(w, e) && Tame(w, e, p, limit)
    ensures GoesOn(Next(w, e), p, limit, if Failing(w, e) then f + 1 else f, f + 1)
  {
    if e.Boot? {
      BootOnTrial(w, p, limit, f);
    } else if e.op.DoStage? {
      StageOnTrial(w, e, p, limit, f);
    } else if !e.op.DoStep? {
      OthersOnTrial(w, e, p, limit, f);
    } else if w.On? {
      if e.Run? {
        StepOnTrial(w.m, e.op.env, p, limit, f);
      } else {
        var n := Min(e.k, |Step(w.m, e.op.env).writes|);
        if n > 0 {
          CutStepOnTrial(w.m, e.op.env, p, limit, f, n - 1);
        } else {
          assert OnTrial(Off(w.m.disk), p, limit, f);
        }
      }
    }
  }

  // ---------------------------------------------------------------- a whole trial

  /** Failures seen by steps that were not cut off. */
  function Failures(ws: seq<World>, es: seq<Event>, n: nat): nat
    requires n <= |es| <= |ws|
  {
    if n == 0 then 0 else Failures(ws, es, n - 1) + if Failing(ws[n - 1], es[n - 1]) then 1 else 0
  }

  ghost predicate Unconfirmed(ws: seq<World>, es: seq<Event>, n: nat) {
    n <= |es| <= |ws| && forall i :: 0 <= i < n ==> !Confirming(ws[i], es[i])
  }

  ghost predicate AllTame(ws: seq<World>, es: seq<Event>, n: nat, p: Pending, limit: nat) {
    n <= |es| <= |ws| && forall i :: 0 <= i < n ==> Tame(ws[i], es[i], p, limit)
  }

  ghost predicate RestoredBy(ws: seq<World>, p: Pending, n: nat) {
    exists i :: 0 <= i <= n && i < |ws| && Restored(ws[i], p)
  }

  /** Kills lose no failure that a step has seen through: until the switch is undone, the count on
      record is at least the number of such failures, and below the limit. */
  lemma {:induction false} CountSurvivesKills(ws: seq<World>, es: seq<Event>, n: nat, p: Pending, limit: nat)
    requires IsLife(ws, es) && Unconfirmed(ws, es, n) && AllTame(ws, es, n, p, limit)
    requires OnTrial(ws[0], p, limit, 0) && 0 < limit <= U32_MAX
    ensures RestoredBy(ws, p, n) || exists f :: Failures(ws, es, n) <= f < limit && OnTrial(ws[n], p, limit, f)
  {
    if n == 0 {
      assert OnTrial(ws[n], p, limit, 0);
    } else {
      var m := n - 1;
      CountSurvivesKills(ws, es, m, p, limit);
      if !RestoredBy(ws, p, m) {
        var f :| Failures(ws, es, m) <= f < limit && OnTrial(ws[m], p, limit, f);
        TrialGoesOn(ws[m], es[m], p, limit, f);
        assert ws[n] == Next(ws[m], es[m]);
      }
    }
  }

  /** A slot that keeps failing and is never confirmed is given up: once as many steps have seen it
      fail as its manifest allows, with kills, reboots, requests, rollbacks and stagings by the
      updater anywhere in between, the switch has been undone. */
  lemma FailingSwitchIsUndone(ws: seq<World>, es: seq<Event>, n: nat, p: Pending, limit: nat)
    requires IsLife(ws, es) && Unconfirmed(ws, es, n) && AllTame(ws, es, n, p, limit)
    requires OnTrial(ws[0], p, limit, 0) && 0 < limit <= U32_MAX && Failures(ws, es, n) >= limit
    ensures RestoredBy(ws, p, n)
  {
    CountSurvivesKills(ws, es, n, p, limit);
  }

  /** A request, complete or cut off once it has begun, puts its target on trial: with a clean
      count, or with the one an older record of the target still holds. */
  lemma RequestBeginsTrial(m: Machine, target: Slot, k: nat, f: nat)
    requires InStep(On(m)) && m.disk.pending.None? && m.disk.current != target && m.disk.Valid(target)
    requires Recorded(m.disk.saved, target, f) && k >= 1
    ensures var p, limit := Pending(m.disk.current, target), m.disk.manifests[target].maxCrashes;
      && OnTrial(Next(On(m), Cut(DoRequest(target), k)), p, limit, if k >= 3 then 0 else f)
      && OnTrial(Next(On(m), Run(DoRequest(target))), p, limit, 0)
  {
  }

  // ---------------------------------------------------------------- a stale record

  const SHIPPED: Image := [0x7f]

  function Installed(manifest: Manifest): Disk {
    Disk(A, None, None, None, None, false, map[A := manifest, B := manifest], map[A := SHIPPED, B := SHIPPED])
  }

  function Quiet(now: nat): Env { Env(false, now, false, None, 0, 0) }
  function Beating(now: nat, timestamp: nat): Env { Env(false, now, false, Some(Beat(0, timestamp)), 0, 0) }
  function Dead(now: nat): Env { Env(false, now, true, None, 0, 0) }

  lemma Follow(ws: seq<World>, es: seq<Event>, e: Event, w: World) returns (more: seq<World>, then_: seq<Event>)
    requires IsLife(ws, es) && w == Next(ws[|es|], e)
    ensures IsLife(more, then_) && more[|then_|] == w && more[0] == ws[0] && |then_| == |es| + 1
  {
    more, then_ := ws + [w], es + [e];
  }

  /** B is running, one heartbeat in. */
  lemma FirstBeat(manifest: Manifest, d: Disk, w: World)
    requires manifest.Valid() && w == On(Machine(Installed(manifest), Fresh(A), None))
    requires d == Installed(manifest).(current := B, pending := Some(Pending(A, B)), saved := Some(Fresh(B)))
    ensures var requested := Next(w, Run(DoRequest(B)));
      var started := Next(requested, Run(DoStep(Quiet(0))));
      var beating := Next(started, Run(DoStep(Beating(1, 1))));
      beating == On(Machine(d, Fresh(B), Some(Child(0, B, 0, 1, 0, Some(1), Some(1), Some(1), false))))
  {
  }

  /** The next heartbeat confirms it. */
  lemma Confirmed(manifest: Manifest, d: Disk, w: World)
    requires manifest.Valid() && d.manifests == Installed(manifest).manifests && d.current == B
    requires d.pending == Some(Pending(A, B))
    requires w == On(Machine(d, Fresh(B), Some(Child(0, B, 0, 1, 0, Some(1), Some(1), Some(1), false))))
    ensures var confirmed := Next(w, Run(DoStep(Beating(1 + manifest.healthyAfter, 2))));
      && confirmed.On? && confirmed.m.running.Some? && confirmed.m.running.value.slot == B
      && confirmed.m.state == Fresh(B)
      && confirmed.m.disk == d.(saved := Some(Fresh(B)), previous := Some(A), pending := None)
  {
  }

  /** Then it dies, halts, and the updater moves the pointer back. */
  lemma HaltedAndRestored(manifest: Manifest, w: World, now: nat)
    requires manifest.maxCrashes == 1 && w.On? && w.m.running.Some? && w.m.running.value.slot == B
    requires w.m.state == Fresh(B)
    requires w.m.disk == Installed(manifest).(current := B, saved := Some(Fresh(B)), previous := Some(A))
    ensures var halted := Next(w, Run(DoStep(Dead(now))));
      && halted == On(Machine(w.m.disk.(saved := Some(Watch(B, 1, 0, true))), Watch(B, 1, 0, true), None))
      && Next(halted, Run(DoRestore)) ==
         On(Machine(Installed(manifest).(saved := Some(Watch(B, 1, 0, true))), Watch(B, 1, 0, true), None))
  {
  }

  /** Such a record comes about from a fresh installation: slot B is taken over and confirmed, dies and
      halts, the updater moves the pointer back to A, and a new switch to B is killed before its
      state is written. Rebooted, the launcher neither starts B nor rolls back. */
  lemma StaleRecordIsReachable(manifest: Manifest, env: Env) returns (ws: seq<World>, es: seq<Event>)
    requires manifest.Valid() && manifest.maxCrashes == 1 && !env.disabled
    ensures IsLife(ws, es) && ws[0] == Off(Installed(manifest)) && ws[|es|].On?
    ensures ws[|es|].m.disk.pending == Some(Pending(A, B)) && Step(ws[|es|].m, env).result == Ok(Halted(B, 1))
    ensures Step(ws[|es|].m, env).m == ws[|es|].m
  {
    var later := 1 + manifest.healthyAfter;
    ws, es := [Off(Installed(manifest))], [];
    var w := On(Machine(Installed(manifest), Fresh(A), None));
    ws, es := Follow(ws, es, Boot, w);
    var d := Installed(manifest).(current := B, pending := Some(Pending(A, B)), saved := Some(Fresh(B)));
    FirstBeat(manifest, d, w);
    ws, es := Follow(ws, es, Run(DoRequest(B)), Next(w, Run(DoRequest(B))));
    ws, es := Follow(ws, es, Run(DoStep(Quiet(0))), Next(ws[|es|], Run(DoStep(Quiet(0)))));
    ws, es := Follow(ws, es, Run(DoStep(Beating(1, 1))), Next(ws[|es|], Run(DoStep(Beating(1, 1)))));
    Confirmed(manifest, d, ws[|es|]);
    ws, es := Follow(ws, es, Run(DoStep(Beating(later, 2))), Next(ws[|es|], Run(DoStep(Beating(later, 2)))));
    HaltedAndRestored(manifest, ws[|es|], later);
    ws, es := Follow(ws, es, Run(DoStep(Dead(later))), Next(ws[|es|], Run(DoStep(Dead(later)))));
    ws, es := Follow(ws, es, Run(DoRestore), Next(ws[|es|], Run(DoRestore)));
    ws, es := StaleSwitch(manifest, ws, es, env);
  }

  lemma StaleSwitch(manifest: Manifest, ws: seq<World>, es: seq<Event>, env: Env)
    returns (more: seq<World>, then_: seq<Event>)
    requires manifest.Valid() && !env.disabled && IsLife(ws, es)
    requires ws[|es|] ==
      On(Machine(Installed(manifest).(saved := Some(Watch(B, 1, 0, true))), Watch(B, 1, 0, true), None))
    ensures IsLife(more, then_) && more[0] == ws[0] && more[|then_|].On?
    ensures var m := more[|then_|].m;
      m.disk.pending == Some(Pending(A, B)) && Step(m, env).result == Ok(Halted(B, 1)) && Step(m, env).m == m
  {
    var d := Installed(manifest).(saved := Some(Watch(B, 1, 0, true)), current := B, pending := Some(Pending(A, B)));
    more, then_ := Follow(ws, es, Cut(DoRequest(B), 2), Off(d));
    more, then_ := Follow(more, then_, Boot, On(Machine(d, Watch(B, 1, 0, true), None)));
  }
}
