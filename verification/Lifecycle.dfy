/** The whole lifecycle protocol as one transition system: requests, probes, drains,
  * operator commands, reloads, kills, power losses and restarts (src/control.rs over
  * src/backend.rs, src/backend_state.rs, src/runtime.rs and src/routing.rs).
  *
  * A step is a section of code under one mutex, or a few of them taken together: a permit
  * and its lease, what a dropped request gives back, a stage of a reload.  A run is any
  * interleaving.
  */
module Lifecycle {
  import opened Wrappers
  import opened Backend
  import opened BackendState
  import opened Runtime
  import opened Telemetry
  import opened Routing
  import opened BackendView
  import C = Circuit
  import S = Scrapes

  /** A process is down, has its configuration but not yet its stored modes, or serves. */
  datatype Process = Down | Configured | Serving

  /** Who holds the lifecycle lock, and how far the command is.  `writing` means that the
    * overlay may be on its way to the disk. */
  datatype Command =
    | Idle
    | On(id: BackendId, role: Role, writing: bool)
    | Reloading(config: RuntimeConfig, stage: Stage, added: set<BackendId>)
    | Resuming

  /** `synced` and `shaken` are history: the backends fenced by the last contents known to
    * be on the disk, and those of which an activation has since failed, or was killed,
    * after its rename of the overlay file. */
  datatype World = World(
    process: Process, published: Runtime.Published, slots: map<BackendId, Slot>, live: map<BackendId, Live>,
    cells: map<BackendId, Cell>, store: Store, command: Command, clock: nat,
    synced: set<BackendId>, shaken: set<BackendId>)

  const NO_CELL := Cell(map[], None, [], map[], None)

  function CellOf(w: World, id: BackendId): Cell {
    if id in w.cells then w.cells[id] else NO_CELL
  }

  function InstanceOf(p: Runtime.Published, id: BackendId): Option<Instance> {
    if p.config.Find(id).Some? && id in p.generations then Some(Instance(p.config.Find(id).value, p.generations[id])) else None
  }

  function Instances(p: Runtime.Published): map<BackendId, Instance> {
    map id | id in p.generations && p.config.Find(id).Some? :: InstanceOf(p, id).value
  }

  function RoleOf(c: Command, id: BackendId): Role {
    match c
    case On(i, role, _) => if i == id then role else NoRole
    case Reloading(config, stage, added) => Moving(stage, config.Find(id), id in added)
    case _ => NoRole
  }

  /** Everything about one backend. */
  function Look(w: World, id: BackendId): View {
    View(id, Lookup(w.slots, id), InstanceOf(w.published, id), Lookup(w.live, id), CellOf(w, id),
         ModeOf(w.store.overlay, id), RoleOf(w.command, id), w.published.nextGeneration)
  }

  /** Write back the slot, live state and cell of one backend. */
  function Put(w: World, v: View): World {
    w.(slots := if v.slot.Some? then w.slots[v.id := v.slot.value] else w.slots,
       live := if v.live.Some? then w.live[v.id := v.live.value] else w.live - {v.id},
       cells := w.cells[v.id := v.cell],
       clock := w.clock + 1)
  }

  function EnsureAll(w: World): World {
    w.(live := Ensured(w.live, Instances(w.published)), cells := map id | id in w.cells :: EnsuredCell(w, id))
  }

  /** A live state that starts over has accepted nothing yet. */
  function EnsuredCell(w: World, id: BackendId): Cell {
    if Look(w, id).LiveIsCurrent() then CellOf(w, id) else CellOf(w, id).(accepted := [])
  }

  /** What a power loss may leave in the overlay file. */
  function CrashDisk(w: World): set<Contents> { w.store.file.possible + Halfway(w) }

  /** What the next process may read if this one is killed. */
  function KillDisk(w: World): set<Contents> { {w.store.file.visible} + Halfway(w) }

  /** The write under way may have renamed its file into place. */
  function Halfway(w: World): set<Contents> {
    if w.command.On? && w.command.writing then Unfinished(w.store.overlay, w.command.id, w.command.role) else {}
  }

  /** The fence is synced, and no later activation has put it in doubt. */
  predicate IsFirm(w: World, id: BackendId) { id in w.synced && id !in w.shaken }

  function Unfinished(o: Overlay, id: BackendId, role: Role): set<Contents> {
    if Target(role).Some? && ValidOverlay(WithMode(o, id, Target(role).value)) then {Written(WithMode(o, id, Target(role).value))}
    else {}
  }

  // ---- Steps ----

  datatype Action =
    | Refresh
    | Route(id: BackendId, f: FlightId, now: nat)
    | Respond(id: BackendId, f: FlightId, how: Settlement, now: nat)
    | Finish(id: BackendId, f: FlightId, how: Settlement, now: nat)
    | SendScrape(id: BackendId, generation: nat, now: nat)
    | ReceiveScrape(id: BackendId, reply: Option<Metrics>)
    | ProbeReadiness(id: BackendId, generation: nat, readiness: Readiness, settings: Settings)
    | Drain(id: BackendId)
    | Disable(id: BackendId, force: bool)
    | Activate(id: BackendId, now: nat, settings: Settings)
    | ConfirmDrain(id: BackendId, op: OpId, now: nat, settings: Settings)
    | SaveEnds(outcome: Outcome)
    | ReopenGate
    | Proceed(op: OpId)
    | TickDrain(id: BackendId, op: OpId)
    | Reload(config: RuntimeConfig)
    | ContinueReload
    | ResumeDrain(id: BackendId, op: OpId)
    | EndResume
    | Kill(contents: Contents)
    | LosePower(contents: Contents)
    | Boot(config: RuntimeConfig)
    | Serve

  predicate InFlight(w: World, id: BackendId, f: FlightId) { f in CellOf(w, id).flights }

  predicate MaySettle(w: World, id: BackendId, f: FlightId, how: Settlement) {
    InFlight(w, id, f) && CanSettle(CellOf(w, id).flights[f].ticket, how)
  }

  predicate Enabled(w: World, a: Action) {
    match a
    case Kill(contents) => w.process != Down && contents in KillDisk(w)
    case LosePower(contents) => contents in CrashDisk(w)
    case Boot(config) => w.process == Down && config.Valid()
    case Serve => w.process == Configured && Loadable(w.store.file.visible)
    case _ => w.process == Serving && ServingEnabled(w, a)
  }

  predicate ServingEnabled(w: World, a: Action) {
    match a
    case Refresh => true
    case Route(id, f, _) => !InFlight(w, id, f)
    case Respond(id, f, how, _) =>
      (how == Fail || how == Ignore || how == Pass) && MaySettle(w, id, f, how)
    case Finish(id, f, how, _) => how != Pass && MaySettle(w, id, f, how)
    case SendScrape(id, _, _) => CellOf(w, id).outstanding.None?
    case ReceiveScrape(id, _) => CellOf(w, id).outstanding.Some?
    case ProbeReadiness(_, _, _, _) => true
    case Drain(_) => w.command == Idle
    case Disable(_, _) => w.command == Idle
    case Activate(_, _, _) => w.command == Idle
    case ConfirmDrain(_, _, _, _) => w.command == Idle
    case SaveEnds(_) => w.command.On? && w.command.writing && Target(w.command.role).Some?
    case ReopenGate => w.command.On? && !w.command.writing && w.command.role.Closing?
    case Proceed(op) => w.command.On? && !w.command.writing && Proceeds(w.command.role) && op !in CellOf(w, w.command.id).ops
    case TickDrain(id, op) =>
      op in CellOf(w, id).ops && CellOf(w, id).ops[op].phase == Underway && !Holding(RoleOf(w.command, id), op)
    case Reload(config) => w.command == Idle && config.Valid()
    case ContinueReload => w.command.Reloading?
    case ResumeDrain(id, op) => w.command == Resuming && op !in CellOf(w, id).ops
    case EndResume => w.command == Resuming
    case _ => false
  }

  predicate Proceeds(role: Role) {
    role.Drained? || role.DisableSaved? || role.ActivateSaved? || role.ConfirmSaved? || role.Completing?
  }

  /** The task of this drain operation holds the lock itself. */
  predicate Holding(role: Role, op: OpId) {
    role == Confirming(op) || role == ConfirmSaved(op) || role == Completing(op)
  }

  function Tock(w: World): World { w.(clock := w.clock + 1) }

  /** A backend's status exists while it is registered and configured. */
  predicate HasStatus(v: View) { v.IsRegistered() && v.LiveIsCurrent() }

  function DoRoute(w: World, id: BackendId, f: FlightId, now: nat): World { Put(w, TakeRoute(Look(w, id), f, now)) }

  function DoRespond(w: World, id: BackendId, f: FlightId, how: Settlement, now: nat): World
    requires InFlight(w, id, f) && CanSettle(CellOf(w, id).flights[f].ticket, how)
  {
    Put(w, Settle(Look(w, id), f, how, now))
  }

  function DoSend(w: World, id: BackendId, generation: nat, now: nat): World {
    var u := EnsureAll(w);
    Put(u, BeginScrape(Look(u, id), generation, now, w.clock))
  }

  function DoProbe(w: World, id: BackendId, generation: nat, readiness: Readiness, settings: Settings): World {
    var u := EnsureAll(w);
    Put(u, Probe(Look(u, id), generation, readiness, settings))
  }

  function DoFinish(w: World, id: BackendId, f: FlightId, how: Settlement, now: nat): World
    requires InFlight(w, id, f) && CanSettle(CellOf(w, id).flights[f].ticket, how)
  {
    Put(w, EndFlight(Settle(Look(w, id), f, how, now), f))
  }

  function DoDrain(w: World, id: BackendId): World {
    var v := Look(w, id);
    if !v.IsRegistered() then Tock(w)
    else
      var u := CloseGate(v, w.clock);
      Put(w, u).(command := On(id, u.role, u.role.Closing?))
  }

  function DoDisable(w: World, id: BackendId, force: bool): World {
    var u := EnsureAll(w);
    var v := Look(u, id);
    if !HasStatus(v) then Tock(u)
    else if v.slot.value.mode == Disabled then Tock(u)
    else if !force && v.slot.value.leases != {} then Tock(u)
    else Tock(u).(command := On(id, Disabling(Quiet(v)), true))
  }

  function DoActivate(w: World, id: BackendId, now: nat, settings: Settings): World {
    var u := EnsureAll(w);
    var v := Look(u, id);
    if !HasStatus(v) || v.slot.value.mode != Disabled then Tock(u)
    else if v.live.value.readiness != Ready || TelemetryAt(v.live.value, now, settings) != Fresh then Tock(u)
    else Put(u, StartActivate(v)).(command := On(id, Activating, true))
  }

  function DoConfirm(w: World, id: BackendId, op: OpId, now: nat, settings: Settings): World {
    var u := EnsureAll(w);
    var v := Look(u, id);
    if !Confirms(v, op, now, settings) then Tock(u) else Put(u, Confirm(v, op)).(command := On(id, Confirming(op), true))
  }

  function DoSaveEnds(w: World, outcome: Outcome): World
    requires w.command.On? && Target(w.command.role).Some?
  {
    var v := Look(w, w.command.id);
    var (store, ok) := StoreMode(w.store, v.id, Target(w.command.role).value, outcome);
    if ok then Put(w, Saved(v)).(
        store := store, synced := store.overlay.Keys, shaken := {}, command := On(v.id, Saved(v).role, false))
    else
      Put(w, SaveFailed(v)).(
        store := store,
        shaken := if w.command.role.Activating? && outcome == Unsynced then w.shaken + {v.id} else w.shaken,
        command := if w.command.role.Closing? then On(v.id, w.command.role, false) else Idle)
  }

  function DoReopenGate(w: World): World
    requires w.command.On? && w.command.role.Closing?
  {
    var v := Look(w, w.command.id);
    if v.slot.None? then w else Put(w, RollBack(v, w.clock)).(command := Idle)
  }

  function DoProceed(w: World, op: OpId): World
    requires w.command.On? && Proceeds(w.command.role)
  {
    var u := if w.command.role.Drained? then EnsureAll(w) else w;
    var v := Look(u, w.command.id);
    if v.slot.None? then w
    else
      match v.role
      case Drained(_) => Put(u, FinishDrain(v, op)).(command := Idle)
      case DisableSaved(_) => Put(u, ApplyDisable(v, w.clock)).(command := Idle)
      case ActivateSaved => Put(u, ApplyActivate(v, w.clock)).(command := Idle)
      case ConfirmSaved(o) => Put(u, ApplyConfirm(v, w.clock)).(command := On(v.id, Completing(o), false))
      case Completing(o) => if o in v.cell.ops then Put(u, Complete(v)).(command := Idle) else w
      case _ => w
  }

  function DoTick(w: World, id: BackendId, op: OpId): World
    requires op in CellOf(w, id).ops
  {
    var u := EnsureAll(w);
    if op in CellOf(u, id).ops then Put(u, Tick(Look(u, id), op)) else w
  }

  function DoReload(w: World, config: RuntimeConfig): World {
    if FirstBlocked(w.published.config.backends, config, w.slots).Some? then Tock(w)
    else Tock(w).(command := Reloading(config, Checked, {}))
  }

  function Restamped(w: World, slots: map<BackendId, Slot>): map<BackendId, Cell> {
    map id | id in w.cells.Keys + slots.Keys ::
      if id in slots then Stamped(Look(w, id), slots[id], w.clock).cell else w.cells[id]
  }

  function DoContinueReload(w: World): World
    requires w.command.Reloading? && w.command.config.Valid()
  {
    var config := w.command.config;
    match w.command.stage
    case Checked =>
      Tock(w).(slots := ReconcileAll(w.slots, Wanted(config)),
               command := Reloading(config, Registered, NewIds(w.slots, Wanted(config))))
    case Registered =>
      var entered := ModesApplied(w.slots, w.store.overlay, w.command.added);
      var slots := ModesApplied(entered, w.store.overlay, Fenced(entered, w.store.overlay));
      Tock(w).(slots := slots, cells := Restamped(w, slots), command := Reloading(config, Restored, {}))
    case Restored =>
      Tock(w).(published := NextPublished(w.published, config), command := Resuming)
  }

  function DoResumeDrain(w: World, id: BackendId, op: OpId): World {
    var u := EnsureAll(w);
    var v := Look(u, id);
    if HasStatus(v) && v.slot.value.mode == Draining then Put(u, EnsureOp(v, op)) else Tock(u)
  }

  /** A process that ends loses everything but the overlay file. */
  function Halted(w: World, file: File): World {
    World(Down, NOTHING_PUBLISHED, map[], map[], map[], Store(map[], file), Idle, w.clock + 1, w.synced, w.shaken)
  }

  /** A killed process may leave a rename which was not synced: the next one reads it,
    * but the disk may still hold any of the earlier contents. */
  function DoKill(w: World, contents: Contents): World {
    Halted(w, File(contents, w.store.file.possible + {contents})).(
      shaken := if w.command.On? && w.command.role.Activating? && contents in Halfway(w) then w.shaken + {w.command.id} else w.shaken)
  }

  /** A power loss leaves one of the possible contents, and that is then on the disk. */
  function DoLosePower(w: World, contents: Contents): World {
    Halted(w, SyncedFile(contents)).(synced := FencedBy(contents), shaken := {})
  }

  function FencedBy(c: Contents): set<BackendId> { if Loadable(c) then Loaded(c).Keys else {} }

  function DoBoot(w: World, config: RuntimeConfig): World
    requires config.Valid()
  {
    var t := FromConfig(config);
    Tock(w).(process := Configured, published := t.published, slots := t.slots)
  }

  /** Restore the stored modes and only then start serving. */
  function DoServe(w: World): World
    requires Loadable(w.store.file.visible)
  {
    var o := Loaded(w.store.file.visible);
    var slots := RestoreModes(Topology(w.published, w.slots), o).slots;
    Tock(w).(process := Serving, slots := slots, cells := Restamped(w, slots), store := Started(w.store.file),
             live := Ensured(map[], Instances(w.published)), command := Resuming)
  }

  function DoReceive(w: World, id: BackendId, reply: Option<Metrics>): World {
    var u := EnsureAll(w);
    if Look(u, id).cell.outstanding.Some? then Put(u, FinishScrape(Look(u, id), reply)) else w
  }

  predicate IsCommand(a: Action) {
    a.Drain? || a.Disable? || a.Activate? || a.ConfirmDrain? || a.SaveEnds? || a.ReopenGate? || a.Proceed? || a.TickDrain?
    || a.Reload? || a.ContinueReload? || a.ResumeDrain? || a.EndResume?
  }

  /** An action whose own guard fails changes nothing; `Enabled` rules those out. */
  function StepTraffic(w: World, a: Action): World {
    match a
    case Refresh => Tock(EnsureAll(w))
    case Route(id, f, now) => DoRoute(w, id, f, now)
    case Respond(id, f, how, now) => if MaySettle(w, id, f, how) then DoRespond(w, id, f, how, now) else w
    case Finish(id, f, how, now) => if MaySettle(w, id, f, how) then DoFinish(w, id, f, how, now) else w
    case SendScrape(id, generation, now) => DoSend(w, id, generation, now)
    case ReceiveScrape(id, reply) => DoReceive(w, id, reply)
    case ProbeReadiness(id, generation, readiness, settings) => DoProbe(w, id, generation, readiness, settings)
    case _ => w
  }

  function StepCommand(w: World, a: Action): World {
    match a
    case Drain(id) => DoDrain(w, id)
    case Disable(id, force) => DoDisable(w, id, force)
    case Activate(id, now, settings) => DoActivate(w, id, now, settings)
    case ConfirmDrain(id, op, now, settings) => DoConfirm(w, id, op, now, settings)
    case SaveEnds(outcome) => if w.command.On? && Target(w.command.role).Some? then DoSaveEnds(w, outcome) else w
    case ReopenGate => if w.command.On? && w.command.role.Closing? then DoReopenGate(w) else w
    case Proceed(op) => if w.command.On? && Proceeds(w.command.role) then DoProceed(w, op) else w
    case TickDrain(id, op) => if op in CellOf(w, id).ops then DoTick(w, id, op) else w
    case Reload(config) => DoReload(w, config)
    case ContinueReload => if w.command.Reloading? && w.command.config.Valid() then DoContinueReload(w) else w
    case ResumeDrain(id, op) => DoResumeDrain(w, id, op)
    case EndResume => Tock(w).(command := Idle)
    case _ => w
  }

  /** Candidates were validated when they were read. */
  predicate ReloadIsValid(w: World) { w.command.Reloading? ==> w.command.config.Valid() }

  function Step(w: World, a: Action): World {
    match a
    case Kill(contents) => DoKill(w, contents)
    case LosePower(contents) => DoLosePower(w, contents)
    case Boot(config) => if config.Valid() then DoBoot(w, config) else w
    case Serve => if Loadable(w.store.file.visible) then DoServe(w) else w
    case _ => if IsCommand(a) then StepCommand(w, a) else StepTraffic(w, a)
  }
}
