/** What a slot holds over whole lives in which the updater stages new programs, and so what a
    rollback goes back to. */
module LauncherStaging {
  import opened Results
  import opened Launcher
  import opened LauncherTheorems
  import opened LauncherRuns

  /** The executable and the manifest of a slot. */
  datatype Content = Content(program: Option<Image>, manifest: Option<Manifest>)

  function Holds(w: World, slot: Slot): Content {
    var d := w.Files();
    Content(if slot in d.programs then Some(d.programs[slot]) else None,
            if slot in d.manifests then Some(d.manifests[slot]) else None)
  }

  ghost predicate SameSlots(d: Disk, d': Disk) { d'.programs == d.programs && d'.manifests == d.manifests }

  ghost predicate AllSameSlots(d: Disk, writes: seq<Disk>) {
    forall i :: 0 <= i < |writes| ==> SameSlots(d, writes[i])
  }

  lemma FailureSameSlots(m: Machine, slot: Slot, manifest: Manifest, now: nat)
    ensures var t := RecordFailure(m, slot, manifest, now);
      AllSameSlots(m.disk, t.writes) && SameSlots(m.disk, t.m.disk)
    ensures var t := ConfirmHealthy(m, slot);
      AllSameSlots(m.disk, t.writes) && SameSlots(m.disk, t.m.disk)
  {
  }

  lemma RunningSameSlots(m: Machine, c: Child, env: Env)
    requires m.running.None?
    ensures AllSameSlots(m.disk, StepRunning(m, c, env).writes) && SameSlots(m.disk, StepRunning(m, c, env).m.disk)
  {
    if c.slot in m.disk.manifests { FailureSameSlots(m, c.slot, m.disk.manifests[c.slot], env.now); }
  }

  lemma StartSameSlots(m: Machine, env: Env)
    requires m.running.None?
    ensures AllSameSlots(m.disk, Start(m, env).writes) && SameSlots(m.disk, Start(m, env).m.disk)
  {
  }

  lemma StepSameSlots(m: Machine, env: Env)
    ensures AllSameSlots(m.disk, Step(m, env).writes) && SameSlots(m.disk, Step(m, env).m.disk)
  {
    var r := Refresh(m).1;
    if r.running.Some? { RunningSameSlots(r.(running := None), r.running.value, env); } else { StartSameSlots(r, env); }
  }

  lemma EffectSameSlots(w: World, op: Op)
    requires !op.DoStage?
    ensures AllSameSlots(w.Files(), Effect(w, op).0) && SameSlots(w.Files(), Effect(w, op).1.Files())
  {
    if w.On? {
      match op
      case DoStep(env) => StepSameSlots(w.m, env);
      case DoRequest(target) => RequestSameSlots(w.m, target);
      case DoRestore => RestoreSameSlots(w.m.disk);
    } else {
      RestoreSameSlots(w.d);
    }
  }

  lemma RequestSameSlots(m: Machine, target: Slot)
    ensures AllSameSlots(m.disk, RequestSlot(m, target).writes) && SameSlots(m.disk, RequestSlot(m, target).m.disk)
  {
  }

  lemma RestoreSameSlots(d: Disk)
    ensures AllSameSlots(d, RollbackDaemon(d).0)
  {
  }

  lemma OtherHolds(w: World, e: Event, slot: Slot)
    requires e.Boot? || !e.op.DoStage?
    ensures Holds(Next(w, e), slot) == Holds(w, slot)
  {
    if !e.Boot? { EffectSameSlots(w, e.op); }
  }

  function Replaced(c: Content, bytes: Image, landed: nat): Content {
    Content(if landed >= 2 then Some(bytes) else c.program, if landed >= 3 then Some(PRODUCTION) else c.manifest)
  }

  lemma StagedDisk(d: Disk, bytes: Image, matches: bool, k: nat, slot: Slot)
    requires k <= |StageDaemon(d, bytes, matches).0|
    ensures var e := Off(After(d, StageDaemon(d, bytes, matches).0, k));
      Holds(e, slot) == if slot == d.current.Other() then Replaced(Holds(Off(d), slot), bytes, k)
                        else Holds(Off(d), slot)
  {
  }

  /** Nothing but a staging changes what a slot holds, and a staging changes the slot that is not
      current, executable first. */
  lemma EventHolds(w: World, e: Event, slot: Slot)
    ensures Holds(Next(w, e), slot).program ==
      if Lands(w, e, slot, 2) then Some(e.op.bytes) else Holds(w, slot).program
    ensures Holds(Next(w, e), slot).manifest ==
      if Lands(w, e, slot, 3) then Some(PRODUCTION) else Holds(w, slot).manifest
  {
    if e.Boot? || !e.op.DoStage? {
      OtherHolds(w, e, slot);
    } else {
      StagedDisk(w.Files(), e.op.bytes, e.op.matches, Landed(w, e), slot);
    }
  }

  /** Staging succeeds exactly for a program that passes its checks. The slot that is not current then
      holds it under the production manifest and is the candidate, the rollback record is gone, and
      nothing else has changed; otherwise nothing has. */
  lemma StagingOutcome(d: Disk, bytes: Image, matches: bool)
    ensures var (writes, r) := StageDaemon(d, bytes, matches);
      var e, slot := After(d, writes, |writes|), d.current.Other();
      && (r.Ok? <==> Stageable(bytes, matches)) && (r.Ok? ==> r.value == slot != d.current)
      && (r.Ok? ==>
            && Holds(Off(e), slot) == Content(Some(bytes), Some(PRODUCTION)) && e.next == Some(slot)
            && Holds(Off(e), d.current) == Holds(Off(d), d.current) && e.previous.None?
            && e.current == d.current && e.pending == d.pending && e.saved == d.saved && e.daemon == d.daemon)
      && (r.Err? ==> writes == [])
  {
    StagedDisk(d, bytes, matches, |StageDaemon(d, bytes, matches).0|, d.current);
  }

  // ---------------------------------------------------------------- whole lives

  /** The program last staged over a slot between two points of a life. */
  function LastStaged(ws: seq<World>, es: seq<Event>, i: nat, n: nat, slot: Slot): Option<Image>
    requires i <= n <= |es| <= |ws|
    decreases n
  {
    if i == n then None
    else if Lands(ws[n - 1], es[n - 1], slot, 2) then Some(es[n - 1].op.bytes)
    else LastStaged(ws, es, i, n - 1, slot)
  }

  /** In every life a slot holds the program last staged over it; as long as none is, it holds
      exactly what it held. */
  lemma {:induction false} LifeHolds(ws: seq<World>, es: seq<Event>, i: nat, n: nat, slot: Slot)
    requires IsLife(ws, es) && i <= n <= |es|
    ensures var staged := LastStaged(ws, es, i, n, slot);
      && Holds(ws[n], slot).program == (if staged.Some? then staged else Holds(ws[i], slot).program)
      && (staged.None? ==> Holds(ws[n], slot) == Holds(ws[i], slot))
    decreases n
  {
    if i < n {
      LifeHolds(ws, es, i, n - 1, slot);
      EventHolds(ws[n - 1], es[n - 1], slot);
      assert ws[n] == Next(ws[n - 1], es[n - 1]);
    }
  }

  // ---------------------------------------------------------------- the recorded slot

  ghost predicate RecordedFrom(ws: seq<World>, i: nat, n: nat, slot: Slot) {
    n < |ws| && forall k :: i <= k <= n ==> ws[k].Files().previous == Some(slot)
  }

  lemma StagingForgets(w: World, e: Event, slot: Slot)
    requires w.Files().previous == Some(slot) && Next(w, e).Files().previous == Some(slot)
    ensures Landed(w, e) == 0
  {
  }

  ghost predicate Untouched(ws: seq<World>, i: nat, n: nat, slot: Slot) {
    n < |ws| && forall j, k :: i <= j < n && k == j + 1 ==> Holds(ws[k], slot) == Holds(ws[j], slot)
  }

  lemma {:induction false} UntouchedSame(ws: seq<World>, i: nat, n: nat, slot: Slot)
    requires i <= n && Untouched(ws, i, n, slot)
    ensures Holds(ws[n], slot) == Holds(ws[i], slot)
    decreases n
  {
    if i < n { UntouchedSame(ws, i, n - 1, slot); }
  }

  /** While a slot is on record as the one to go back to, it is never touched. */
  lemma RecordedSlotIsIntact(ws: seq<World>, es: seq<Event>, i: nat, n: nat, slot: Slot)
    requires IsLife(ws, es) && i <= n && RecordedFrom(ws, i, n, slot)
    ensures Holds(ws[n], slot) == Holds(ws[i], slot)
  {
    forall j, k | i <= j < n && k == j + 1
      ensures Holds(ws[k], slot) == Holds(ws[j], slot)
    {
      RecordedNext(ws, es, i, j, n, slot);
    }
    UntouchedSame(ws, i, n, slot);
  }

  lemma RecordedNext(ws: seq<World>, es: seq<Event>, i: nat, j: nat, n: nat, slot: Slot)
    requires IsLife(ws, es) && i <= j < n && RecordedFrom(ws, i, n, slot)
    ensures Holds(ws[j + 1], slot) == Holds(ws[j], slot)
  {
    var w, next := ws[j], ws[j + 1];
    assert w.Files().previous == Some(slot) && next.Files().previous == Some(slot);
    RecordedStep(w, es[j], slot, next);
  }

  lemma RecordedStep(w: World, e: Event, slot: Slot, next: World)
    requires next == Next(w, e) && w.Files().previous == Some(slot) && next.Files().previous == Some(slot)
    ensures Holds(next, slot) == Holds(w, slot)
  {
    StagingForgets(w, e, slot);
    EventHolds(w, e, slot);
  }

  // ---------------------------------------------------------------- the slot behind a switch on trial

  /** During a trial a staging replaces the slot to go back to exactly if the switch has moved the
      pointer, as it has whenever the launcher is up. The record of the switch stays. */
  lemma StagingDuringTrial(w: World, e: Event, p: Pending, limit: nat, f: nat)
    requires OnTrial(w, p, limit, f) && Landed(w, e) >= 2 && Tame(w, e, p, limit)
    ensures OnTrial(Next(w, e), p, limit, f)
    ensures Holds(Next(w, e), p.previous).program ==
      if w.Files().current == p.target then Some(e.op.bytes) else Holds(w, p.previous).program
    ensures w.On? ==> w.Files().current == p.target
  {
    StageOnTrial(w, e, p, limit, f);
    EventHolds(w, e, p.previous);
  }

  /** What undoing a switch leads to. The slot that was current when the trial began is current
      again; the program in it is the one it had then if and only if no staging since has put
      another over it, and without a staging its manifest is the old one too. */
  lemma UndoneSwitchRuns(ws: seq<World>, es: seq<Event>, n: nat, p: Pending)
    requires IsLife(ws, es) && n <= |es| && Restored(ws[n], p)
    ensures var staged, slot := LastStaged(ws, es, 0, n, p.previous), ws[n].Files().current;
      && (Holds(ws[n], slot).program == Holds(ws[0], p.previous).program <==>
            staged.None? || staged == Holds(ws[0], p.previous).program)
      && (staged.None? ==> Holds(ws[n], slot) == Holds(ws[0], p.previous))
  {
    LifeHolds(ws, es, 0, n, p.previous);
  }

  /** What the updater's rollback of a confirmed switch leads to, however long after: the record of
      the switch protects the slot from the moment of confirmation, not from the beginning of the
      trial. */
  lemma RollbackRuns(ws: seq<World>, es: seq<Event>, i: nat, n: nat, slot: Slot)
    requires IsLife(ws, es) && i <= n <= |es| && RecordedFrom(ws, i, n, slot)
    requires RollbackDaemon(ws[n].Files()).1.Ok?
    ensures var staged, after := LastStaged(ws, es, 0, i, slot), Next(ws[n], Run(DoRestore));
      && RollbackDaemon(ws[n].Files()).1 == Ok(slot) && after.Files().current == slot
      && (Holds(after, slot).program == Holds(ws[0], slot).program <==>
            staged.None? || staged == Holds(ws[0], slot).program)
      && (staged.None? ==> Holds(after, slot) == Holds(ws[0], slot))
  {
    LifeHolds(ws, es, 0, i, slot);
    RecordedSlotIsIntact(ws, es, i, n, slot);
    EventHolds(ws[n], Run(DoRestore), slot);
  }

  /** So a staging while a switch is on trial defeats its rollback: the failure that uses up the
      limit goes back to the slot, and the slot holds the staged program. */
  lemma StagedOverIsRestored(m: Machine, bytes: Image, env: Env, p: Pending, limit: nat, f: nat)
    requires OnTrial(On(m), p, limit, f) && limit <= U32_MAX && f < limit && Stageable(bytes, true)
    requires !Confirms(m, env) && Fails(m, env) && m.running.Some? && m.running.value.slot == p.target
    requires f + 1 >= m.disk.manifests[p.target].maxCrashes
    ensures var staged := Next(On(m), Run(DoStage(bytes, true)));
      var undone := Next(staged, Run(DoStep(env)));
      && Restored(undone, p) && Holds(undone, p.previous) == Content(Some(bytes), Some(PRODUCTION))
  {
    var e := Run(DoStage(bytes, true));
    var staged := Next(On(m), e);
    StageOnTrial(On(m), e, p, limit, f);
    assert staged.On? && staged.m.running == m.running && staged.m.state == m.state;
    StepOnTrial(staged.m, env, p, limit, f);
    EventHolds(On(m), e, p.previous);
    EventHolds(staged, Run(DoStep(env)), p.previous);
  }
}
