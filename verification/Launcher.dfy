/** The A/B launcher: its files, its watchdog, and every write it makes on the way. */
module Launcher {
  import opened Results
  import Wire

  datatype Slot = A | B {
    function Other(): Slot { if this == A then B else A }
  }

  datatype Pending = Pending(previous: Slot, target: Slot)

  /** What the watchdog remembers of a slot; the file holds the same. */
  datatype Watch = Watch(slot: Slot, crashes: nat, nextStart: nat, halted: bool)

  function Fresh(slot: Slot): Watch { Watch(slot, 0, 0, false) }

  datatype Manifest = Manifest(
    startupTimeout: nat, heartbeatTimeout: nat, healthyAfter: nat, maxCrashes: nat, backoffInitial: nat,
      backoffMax: nat)
  {
    predicate Valid() {
      && 0 < startupTimeout <= 10_000 && 0 < heartbeatTimeout <= 300_000
      && heartbeatTimeout <= healthyAfter <= 600_000 && 0 < maxCrashes <= 16
      && 0 < backoffInitial <= backoffMax <= 300_000
    }
  }

  /** The bytes of an executable. */
  type Image = seq<Wire.byte>

  /** The launcher's files. `manifests` holds the slots whose manifest parses, `programs` those
      with an executable. */
  datatype Disk = Disk(
    current: Slot, pending: Option<Pending>, previous: Option<Slot>, next: Option<Slot>, saved: Option<Watch>,
    daemon: bool, manifests: map<Slot, Manifest>, programs: map<Slot, Image>)
  {
    predicate Valid(slot: Slot) { slot in manifests && slot in programs }
  }

  datatype Fault = InvalidState | InvalidManifest

  datatype Beat = Beat(instance: nat, timestamp: nat)

  datatype Child = Child(
    id: nat, slot: Slot, started: nat, lastPoll: nat, instance: nat, lastBeat: Option<nat>,
    firstBeat: Option<nat>, lastValid: Option<nat>, healthy: bool)

  datatype Outcome =
    | Started(slot: Slot) | Running(slot: Slot) | Healthy(slot: Slot) | BackingOff(slot: Slot, until: nat)
    | RolledBack(failed: Slot, restored: Slot) | Disabled | Halted(slot: Slot, crashes: nat)

  datatype Machine = Machine(disk: Disk, state: Watch, running: Option<Child>)

  /** Every disk an operation leaves behind, in order, and where it ends. */
  datatype Turn<T> = Turn(writes: seq<Disk>, m: Machine, result: Result<T, Fault>)

  const U32_MAX: nat := 0xffff_ffff
  const U64_MAX: nat := 0xffff_ffff_ffff_ffff

  function Min(a: nat, b: nat): nat { if a <= b then a else b }
  function Minus(a: nat, b: nat): nat { if a >= b then a - b else 0 }
  function Doubled(n: nat): (m: nat) ensures m > 0 { if n == 0 then 1 else 2 * Doubled(n - 1) }

  /** A pending file that changes no slot does not parse. */
  function ReadPending(d: Disk): Result<Option<Pending>, Fault> {
    if d.pending.Some? && d.pending.value.previous == d.pending.value.target then Err(InvalidState) else Ok(d.pending)
  }

  // ---------------------------------------------------------------- opening and switching

  /** Completes a switch whose pointer was not moved yet, then loads the watchdog's state. */
  function Open(d: Disk): Result<(seq<Disk>, Machine), Fault> {
    var pending :- ReadPending(d);
    var e := if pending.Some? && d.current == pending.value.previous then d.(current := pending.value.target) else d;
    if pending.Some? && d.current != pending.value.previous && d.current != pending.value.target then Err(InvalidState)
    else
      Ok((if e == d then [] else [e],
          Machine(e, if e.saved.Some? then e.saved.value else Fresh(e.current), None)))
  }

  function RequestSlot(m: Machine, target: Slot): Turn<()> {
    var pending := ReadPending(m.disk);
    if m.disk.current == target then Turn([], m, Ok(()))
    else if pending.Err? then Turn([], m, Err(pending.error))
    else if pending.value.Some? then
      Turn([], m, if pending.value.value.target == target then Ok(()) else Err(InvalidState))
    else if !m.disk.Valid(target) then Turn([], m, Err(InvalidManifest))
    else
      var d1 := m.disk.(pending := Some(Pending(m.disk.current, target)));
      var d2 := d1.(current := target);
      var d3 := d2.(saved := Some(Fresh(target)));
      Turn([d1, d2, d3], m.(disk := d3, state := Fresh(target)), Ok(()))
  }

  /** Back to the previous slot: pointer first, then the pending file, then the state. */
  function Rollback(m: Machine, pending: Pending, now: nat): Turn<Outcome> {
    var restored := Watch(pending.previous, 0, now, false);
    var d1 := m.disk.(current := pending.previous);
    var d2 := d1.(pending := None);
    var d3 := d2.(saved := Some(restored));
    Turn([d1, d2, d3], m.(disk := d3, state := restored), Ok(RolledBack(pending.target, pending.previous)))
  }

  /** Delay before the next start: doubled with every failure, within bounds. */
  function Backoff(manifest: Manifest, crashes: nat): nat {
    Min(Min(manifest.backoffInitial * Doubled(Min(Minus(crashes, 1), 31)), U64_MAX), manifest.backoffMax)
  }

  function RecordFailure(m: Machine, slot: Slot, manifest: Manifest, now: nat): Turn<Outcome> {
    var crashes := Min(m.state.crashes + 1, U32_MAX);
    var state := m.state.(slot := slot, crashes := crashes);
    var pending := ReadPending(m.disk);
    if pending.Err? then Turn([], m.(state := state), Err(pending.error))
    else if pending.value.Some? && pending.value.value.target == slot && crashes >= manifest.maxCrashes then
      Rollback(m.(state := state), pending.value.value, now)
    else
      var halted := crashes >= manifest.maxCrashes;
      var until := Min(now + Backoff(manifest, crashes), U64_MAX);
      var state' := if halted then state.(halted := true) else state.(nextStart := until);
      var d := m.disk.(saved := Some(state'));
      Turn([d], m.(disk := d, state := state'), Ok(if halted then Halted(slot, crashes) else BackingOff(slot, until)))
  }

  /** A healthy slot loses its crash count, and a pending switch to it becomes final. */
  function ConfirmHealthy(m: Machine, slot: Slot): Turn<()> {
    var d1 := m.disk.(saved := Some(Fresh(slot)));
    var pending := ReadPending(m.disk);
    if pending.Err? then Turn([d1], m.(disk := d1, state := Fresh(slot)), Err(pending.error))
    else if pending.value.Some? && pending.value.value.target == slot then
      var d2 := d1.(previous := Some(pending.value.value.previous));
      var d3 := d2.(pending := None);
      Turn([d1, d2, d3], m.(disk := d3, state := Fresh(slot)), Ok(()))
    else Turn([d1], m.(disk := d1, state := Fresh(slot)), Ok(()))
  }

  // ---------------------------------------------------------------- the watchdog

  datatype Verdict = Alive(child: Child, confirm: bool, outcome: Outcome) | TimedOut

  /** One poll of a running child: clock first, then heartbeat. */
  function Poll(c: Child, manifest: Manifest, now: nat, beat: Option<Beat>): Verdict {
    var jump := now < c.lastPoll || (c.healthy && Minus(now, c.lastPoll) > manifest.heartbeatTimeout);
    var polled := c.(lastPoll := now);
    var d := if !jump then polled
             else if c.healthy then polled.(lastValid := Some(now))
             else polled.(started := now, lastBeat := None, firstBeat := None, lastValid := None);
    if Advances(d, beat) then
      var first := if d.firstBeat.Some? then d.firstBeat.value else now;
      var e := d.(lastBeat := Some(beat.value.timestamp), lastValid := Some(now), firstBeat := Some(first));
      if Minus(now, first) >= manifest.healthyAfter then Alive(e.(healthy := true), !c.healthy, Healthy(c.slot))
      else Alive(e, false, if c.healthy then Healthy(c.slot) else Running(c.slot))
    else if Late(d, manifest, now) then TimedOut
    else Alive(d, false, if c.healthy then Healthy(c.slot) else Running(c.slot))
  }

  /** A heartbeat of this child that was not seen before. */
  predicate Advances(c: Child, beat: Option<Beat>) {
    beat.Some? && beat.value.instance == c.instance && c.lastBeat != Some(beat.value.timestamp)
  }

  predicate Late(c: Child, manifest: Manifest, now: nat) {
    if c.lastValid.Some? then Minus(now, c.lastValid.value) > manifest.heartbeatTimeout
    else Minus(now, c.started) >= manifest.startupTimeout
  }

  /** What a step finds outside: the disable flag, the clock, the child, and names for a new one. */
  datatype Env = Env(disabled: bool, now: nat, exited: bool, beat: Option<Beat>, id: nat, instance: nat)

  function StepRunning(m: Machine, c: Child, env: Env): Turn<Outcome>
    requires m.running.None?
  {
    if c.slot !in m.disk.manifests then Turn([], m, Err(InvalidManifest))
    else
      var manifest := m.disk.manifests[c.slot];
      if env.exited then RecordFailure(m, c.slot, manifest, env.now)
      else
        match Poll(c, manifest, env.now, env.beat)
        case TimedOut => RecordFailure(m, c.slot, manifest, env.now)
        case Alive(child, confirm, outcome) =>
          if confirm then
            var confirmed := ConfirmHealthy(m, c.slot);
            if confirmed.result.Err? then Turn(confirmed.writes, confirmed.m, Err(confirmed.result.error))
            else Turn(confirmed.writes, confirmed.m.(running := Some(child)), Ok(outcome))
          else Turn([], m.(running := Some(child)), Ok(outcome))
  }

  /** Forgets a state that belongs to another slot than the active one. */
  function Refresh(m: Machine): (seq<Disk>, Machine) {
    var stale := m.running.Some? && m.running.value.slot != m.disk.current;
    if stale || (m.state.slot != m.disk.current && m.running.None?) then
      var d := m.disk.(saved := Some(Fresh(m.disk.current)));
      ([d], Machine(d, Fresh(m.disk.current), None))
    else ([], m)
  }

  function Start(m: Machine, env: Env): Turn<Outcome>
    requires m.running.None?
  {
    var active := m.disk.current;
    if m.state.halted then Turn([], m, Ok(Halted(m.state.slot, m.state.crashes)))
    else if env.now < m.state.nextStart then Turn([], m, Ok(BackingOff(m.state.slot, m.state.nextStart)))
    else if !m.disk.Valid(active) then
      var pending := ReadPending(m.disk);
      if pending.Err? then Turn([], m, Err(pending.error))
      else if pending.value.Some? && pending.value.value.target == active then Rollback(m, pending.value.value, env.now)
      else Turn([], m, Err(InvalidManifest))
    else
      var child := Child(env.id, active, env.now, env.now, env.instance, None, None, None, false);
      Turn([], m.(running := Some(child)), Ok(Started(active)))
  }

  function Step(m: Machine, env: Env): Turn<Outcome> {
    if env.disabled then Turn([], m.(running := None), Ok(Disabled))
    else
      var (writes, r) := Refresh(m);
      var turn := if r.running.Some? then StepRunning(r.(running := None), r.running.value, env) else Start(r, env);
      turn.(writes := writes + turn.writes)
  }

  // ---------------------------------------------------------------- the updater

  /** Restores the slot that was current before the last confirmed switch. */
  function RollbackDaemon(d: Disk): (seq<Disk>, Result<Slot, Fault>) {
    if d.daemon || d.pending.Some? || d.previous.None? then ([], Err(InvalidState))
    else
      var previous := d.previous.value;
      if previous != d.current && !d.Valid(previous) then ([], Err(InvalidManifest))
      else
        var d1 := d.(current := previous);
        var d2 := d1.(next := None);
        var d3 := d2.(previous := None);
        ((if previous != d.current then [d1] else []) + [d2, d3], Ok(previous))
  }

  const MAX_DAEMON_SIZE: nat := 32 * 1024 * 1024

  const PRODUCTION: Manifest := Manifest(10_000, 10_000, 10_000, 3, 100, 1_000)

  /** An ELF32 little-endian ARM binary. */
  predicate ArmElf(bytes: Image) {
    && |bytes| >= 20 && bytes[..4] == [0x7f, 0x45, 0x4c, 0x46] && bytes[4] == 1 && bytes[5] == 1
    && bytes[18] == 40 && bytes[19] == 0
  }

  /** `matches`: the digest of the bytes is the expected one. */
  predicate Stageable(bytes: Image, matches: bool) {
    0 < |bytes| <= MAX_DAEMON_SIZE && ArmElf(bytes) && matches
  }

  /** Replaces the slot that is not current: the rollback record goes first, then executable,
      manifest and the pointer to the candidate are written. */
  function StageDaemon(d: Disk, bytes: Image, matches: bool): (seq<Disk>, Result<Slot, Fault>) {
    if !Stageable(bytes, matches) then ([], Err(InvalidState))
    else
      var slot := d.current.Other();
      var d1 := d.(previous := None);
      var d2 := d1.(programs := d1.programs[slot := bytes]);
      var d3 := d2.(manifests := d2.manifests[slot := PRODUCTION]);
      var d4 := d3.(next := Some(slot));
      ([d1, d2, d3, d4], Ok(slot))
  }
}
