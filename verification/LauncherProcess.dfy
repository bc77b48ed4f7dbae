/** The launcher as a process: fields changed in place, files written one at a time. Each method
    makes exactly the writes of its function in `Launcher`, in that order. */
module LauncherProcesses {
  import opened Results
  import opened Launcher

  class LauncherProcess {
    var disk: Disk
    var state: Watch
    var running: Option<Child>
    /** Every disk written so far. */
    ghost var log: seq<Disk>

    ghost function View(): Machine
      reads this
    {
      Machine(disk, state, running)
    }

    /** The process did what the function says; `before` is the log it started with. */
    ghost predicate Did<T>(turn: Turn<T>, before: seq<Disk>, result: Result<T, Fault>)
      reads this
    {
      View() == turn.m && log == before + turn.writes && result == turn.result
    }

    constructor (start: Machine)
      ensures View() == start && log == []
    {
      disk, state, running, log := start.disk, start.state, start.running, [];
    }

    /** Finishes a pending switch whose pointer was not moved, then loads the saved state. */
    static method OpenAt(d: Disk) returns (r: Result<LauncherProcess, Fault>)
      ensures r.Ok? <==> Open(d).Ok?
      ensures r.Err? ==> r.error == Open(d).error
      ensures r.Ok? ==> fresh(r.value) && r.value.View() == Open(d).value.1 && r.value.log == Open(d).value.0
    {
      var p := new LauncherProcess(Machine(d, Fresh(d.current), None));
      var pending := ReadPending(d);
      if pending.Err? { return Err(pending.error); }
      if pending.value.Some? {
        if d.current == pending.value.value.previous {
          p.Write(d.(current := pending.value.value.target));
        } else if d.current != pending.value.value.target {
          return Err(InvalidState);
        }
      }
      p.state := if p.disk.saved.Some? then p.disk.saved.value else Fresh(p.disk.current);
      r := Ok(p);
    }

    /** One atomic file replacement or removal. */
    method Write(d: Disk)
      modifies this`disk, this`log
      ensures disk == d && log == old(log) + [d]
    {
      disk := d;
      log := log + [d];
    }

    method WriteState()
      modifies this`disk, this`log
      ensures disk == old(disk).(saved := Some(state)) && log == old(log) + [disk]
    {
      Write(disk.(saved := Some(state)));
    }

    method RequestSlot(target: Slot) returns (r: Result<(), Fault>)
      modifies this
      ensures Did(Launcher.RequestSlot(old(View()), target), old(log), r)
    {
      var current := disk.current;
      if current == target { return Ok(()); }
      var pending := ReadPending(disk);
      if pending.Err? { return Err(pending.error); }
      if pending.value.Some? {
        return if pending.value.value.target == target then Ok(()) else Err(InvalidState);
      }
      if !disk.Valid(target) { return Err(InvalidManifest); }
      Write(disk.(pending := Some(Pending(current, target))));
      Write(disk.(current := target));
      state := Fresh(target);
      WriteState();
      r := Ok(());
    }

    method Rollback(pending: Pending, now: nat) returns (r: Result<Outcome, Fault>)
      modifies this
      ensures Did(Launcher.Rollback(old(View()), pending, now), old(log), r)
    {
      Write(disk.(current := pending.previous));
      Write(disk.(pending := None));
      state := Watch(pending.previous, 0, now, false);
      WriteState();
      r := Ok(RolledBack(pending.target, pending.previous));
    }

    method RecordFailure(slot: Slot, manifest: Manifest, now: nat) returns (r: Result<Outcome, Fault>)
      modifies this
      ensures Did(Launcher.RecordFailure(old(View()), slot, manifest, now), old(log), r)
    {
      state := state.(slot := slot, crashes := Min(state.crashes + 1, U32_MAX));
      var pending := ReadPending(disk);
      if pending.Err? { return Err(pending.error); }
      if pending.value.Some? && pending.value.value.target == slot && state.crashes >= manifest.maxCrashes {
        r := Rollback(pending.value.value, now);
        return;
      }
      if state.crashes >= manifest.maxCrashes {
        state := state.(halted := true);
        WriteState();
        return Ok(Halted(state.slot, state.crashes));
      }
      state := state.(nextStart := Min(now + Backoff(manifest, state.crashes), U64_MAX));
      WriteState();
      r := Ok(BackingOff(state.slot, state.nextStart));
    }

    method ConfirmHealthy(slot: Slot) returns (r: Result<(), Fault>)
      modifies this
      ensures Did(Launcher.ConfirmHealthy(old(View()), slot), old(log), r)
    {
      state := Fresh(slot);
      WriteState();
      var pending := ReadPending(disk);
      if pending.Err? { return Err(pending.error); }
      if pending.value.Some? && pending.value.value.target == slot {
        Write(disk.(previous := Some(pending.value.value.previous)));
        Write(disk.(pending := None));
      }
      r := Ok(());
    }

    method StepRunning(c: Child, env: Env) returns (r: Result<Outcome, Fault>)
      requires running.None?
      modifies this
      ensures Did(Launcher.StepRunning(old(View()), c, env), old(log), r)
    {
      if c.slot !in disk.manifests { return Err(InvalidManifest); }
      var manifest := disk.manifests[c.slot];
      if env.exited {
        r := RecordFailure(c.slot, manifest, env.now);
        return;
      }
      match Poll(c, manifest, env.now, env.beat)
      case TimedOut => r := RecordFailure(c.slot, manifest, env.now);
      case Alive(child, confirm, outcome) =>
        if confirm {
          var confirmed := ConfirmHealthy(c.slot);
          if confirmed.Err? { return Err(confirmed.error); }
        }
        running := Some(child);
        r := Ok(outcome);
    }

    method Start(env: Env) returns (r: Result<Outcome, Fault>)
      requires running.None?
      modifies this
      ensures Did(Launcher.Start(old(View()), env), old(log), r)
    {
      var active := disk.current;
      if state.halted { return Ok(Halted(state.slot, state.crashes)); }
      if env.now < state.nextStart { return Ok(BackingOff(state.slot, state.nextStart)); }
      if !disk.Valid(active) {
        var pending := ReadPending(disk);
        if pending.Err? { return Err(pending.error); }
        if pending.value.Some? && pending.value.value.target == active {
          r := Rollback(pending.value.value, env.now);
          return;
        }
        return Err(InvalidManifest);
      }
      running := Some(Child(env.id, active, env.now, env.now, env.instance, None, None, None, false));
      r := Ok(Started(active));
    }

    method DropStale()
      modifies this
      ensures View() == Refresh(old(View())).1 && log == old(log) + Refresh(old(View())).0
    {
      var active := disk.current;
      if running.Some? && running.value.slot != active {
        running := None;
        state := Fresh(active);
        WriteState();
      }
      if state.slot != active && running.None? {
        state := Fresh(active);
        WriteState();
      }
    }

    method Step(env: Env) returns (r: Result<Outcome, Fault>)
      modifies this
      ensures Did(Launcher.Step(old(View()), env), old(log), r)
    {
      if env.disabled {
        running := None;
        return Ok(Disabled);
      }
      DropStale();
      if running.Some? {
        var c := running.value;
        running := None;
        r := StepRunning(c, env);
      } else {
        r := Start(env);
      }
    }
  }
}
