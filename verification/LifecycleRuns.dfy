/** Runs of the whole system in which a drain's certificate or an answered fence does not
  * hold what it seems to promise.
  */
module LifecycleRuns {
  import opened Wrappers
  import opened Backend
  import opened BackendState
  import opened Runtime
  import opened Telemetry
  import opened Routing
  import opened BackendView
  import opened Lifecycle
  import opened LifecycleSafety
  import opened LifecycleDurability
  import S = Scrapes

  const SETTINGS := Settings(1_000, 0.5, 1, 1)

  /** A serving world in which one backend looks like this. */
  predicate Shows(w: World, v: View, command: Command) {
    w.process == Serving && w.command == command && w.store.Valid() && Look(w, v.id) == v
  }

  predicate Reached(contents: Contents, actions: seq<Action>, w: World, v: View, command: Command) {
    Run(contents, actions) == Some(w) && Shows(w, v, command)
  }

  // ---- One step at a time ----

  lemma ShowPut(u: World, v: View, w: World, command: Command)
    requires u.process == Serving && Fits(u, v) && w.store.Valid()
    requires w == Put(u, v).(store := w.store, command := command, synced := w.synced, shaken := w.shaken)
    requires v.stored == ModeOf(w.store.overlay, v.id) && v.role == RoleOf(command, v.id)
    ensures Shows(w, v, command)
  {
    PutLooks(u, v, w, v.id);
  }

  lemma ShowEnsured(w: World, v: View, command: Command)
    requires Shows(w, v, command) && v.LiveIsCurrent()
    ensures Shows(EnsureAll(w), v, command)
  {
    EnsureLooks(w, v.id);
  }

  lemma DrainShows(w: World, v: View)
    requires Shows(w, v, Idle) && v.IsRegistered()
    ensures var closed := CloseGate(v, w.clock);
            Shows(DoDrain(w, v.id), closed, On(v.id, closed.role, closed.role.Closing?))
    ensures DoDrain(w, v.id).clock == w.clock + 1 && SameDisk(w, DoDrain(w, v.id))
  {
    var closed := CloseGate(v, w.clock);
    ShowPut(w, closed, DoDrain(w, v.id), On(v.id, closed.role, closed.role.Closing?));
  }

  lemma DisableShows(w: World, v: View, force: bool)
    requires Shows(w, v, Idle) && v.role == NoRole && HasStatus(v) && !v.InMode(Disabled) && (force || !v.Leased())
    ensures var role := Disabling(Quiet(v));
            Shows(DoDisable(w, v.id, force), v.(role := role), On(v.id, role, true))
    ensures DoDisable(w, v.id, force).clock == w.clock + 1 && SameDisk(w, DoDisable(w, v.id, force))
  {
    ShowEnsured(w, v, Idle);
  }

  lemma ActivateShows(w: World, v: View, now: nat)
    requires Shows(w, v, Idle) && v.role == NoRole && HasStatus(v) && v.InMode(Disabled)
    requires v.live.value.readiness == Ready && TelemetryAt(v.live.value, now, SETTINGS) == Fresh
    ensures Shows(DoActivate(w, v.id, now, SETTINGS), v.(role := Activating), On(v.id, Activating, true))
    ensures DoActivate(w, v.id, now, SETTINGS).clock == w.clock + 1 && SameDisk(w, DoActivate(w, v.id, now, SETTINGS))
  {
    ShowEnsured(w, v, Idle);
    ShowPut(EnsureAll(w), StartActivate(v), DoActivate(w, v.id, now, SETTINGS), On(v.id, Activating, true));
  }

  lemma SavesWell(s: Store, id: BackendId, mode: Mode)
    requires s.Valid() && id.name != ""
    ensures var (t, ok) := StoreMode(s, id, mode, Synced);
            ok && t.Valid() && ModeOf(t.overlay, id) == mode
  {
    StepStoreValid(s, Save(id, mode, Synced));
  }

  lemma SaveShows(w: World, v: View)
    requires Shows(w, v, On(v.id, v.role, true)) && Target(v.role).Some? && v.id.name != ""
    ensures Shows(DoSaveEnds(w, Synced), Saved(v), On(v.id, Saved(v).role, false))
    ensures DoSaveEnds(w, Synced).clock == w.clock + 1
  {
    SavesWell(w.store, v.id, Target(v.role).value);
    SaveBecomes(w, v, Synced, DoSaveEnds(w, Synced));
    ShowPut(w, Saved(v), DoSaveEnds(w, Synced), On(v.id, Saved(v).role, false));
  }

  lemma DrainedShows(w: World, v: View, op: OpId)
    requires Shows(w, v, On(v.id, v.role, false)) && v.role.Drained? && HasStatus(v)
    ensures Shows(DoProceed(w, op), FinishDrain(v, op), Idle)
    ensures DoProceed(w, op).clock == w.clock + 1
  {
    ShowEnsured(w, v, On(v.id, v.role, false));
    DrainEndsAs(w, op);
    ShowPut(EnsureAll(w), FinishDrain(v, op), DoProceed(w, op), Idle);
  }

  lemma DisabledShows(w: World, v: View, op: OpId)
    requires Shows(w, v, On(v.id, v.role, false)) && v.role.DisableSaved? && v.IsRegistered()
    ensures Shows(DoProceed(w, op), ApplyDisable(v, w.clock), Idle)
    ensures DoProceed(w, op).clock == w.clock + 1
  {
    ShowPut(w, ApplyDisable(v, w.clock), DoProceed(w, op), Idle);
  }

  lemma ActivatedShows(w: World, v: View, op: OpId)
    requires Shows(w, v, On(v.id, ActivateSaved, false)) && v.IsRegistered()
    ensures Shows(DoProceed(w, op), ApplyActivate(v, w.clock), Idle)
    ensures DoProceed(w, op).clock == w.clock + 1
  {
    ShowPut(w, ApplyActivate(v, w.clock), DoProceed(w, op), Idle);
  }

  lemma ProbeShows(w: World, v: View)
    requires Shows(w, v, Idle) && HasStatus(v)
    ensures var probed := Probe(v, v.live.value.generation, Ready, SETTINGS);
            Shows(DoProbe(w, v.id, v.live.value.generation, Ready, SETTINGS), probed, Idle)
    ensures DoProbe(w, v.id, v.live.value.generation, Ready, SETTINGS).clock == w.clock + 1
  {
    var generation := v.live.value.generation;
    ShowEnsured(w, v, Idle);
    ShowPut(EnsureAll(w), Probe(v, generation, Ready, SETTINGS), DoProbe(w, v.id, generation, Ready, SETTINGS), Idle);
  }

  lemma SendShows(w: World, v: View, now: nat)
    requires Shows(w, v, Idle) && HasStatus(v)
    ensures var sent := BeginScrape(v, v.live.value.generation, now, w.clock);
            Shows(DoSend(w, v.id, v.live.value.generation, now), sent, Idle)
    ensures DoSend(w, v.id, v.live.value.generation, now).clock == w.clock + 1
  {
    var generation := v.live.value.generation;
    ShowEnsured(w, v, Idle);
    ShowPut(EnsureAll(w), BeginScrape(v, generation, now, w.clock), DoSend(w, v.id, generation, now), Idle);
  }

  lemma ReceiveShows(w: World, v: View, reply: Option<Metrics>)
    requires Shows(w, v, Idle) && HasStatus(v) && v.cell.outstanding.Some?
    ensures Shows(DoReceive(w, v.id, reply), FinishScrape(v, reply), Idle)
    ensures DoReceive(w, v.id, reply).clock == w.clock + 1
  {
    ShowEnsured(w, v, Idle);
    ShowPut(EnsureAll(w), FinishScrape(v, reply), DoReceive(w, v.id, reply), Idle);
  }

  /** A failed activation leaves the backend disabled in memory and its fence in doubt. */
  lemma UnsavedShows(w: World, v: View)
    requires Shows(w, v, On(v.id, Activating, true)) && v.role == Activating && v.id.name != ""
    ensures Shows(DoSaveEnds(w, Unsynced), v.(role := NoRole), Idle) && v.id in DoSaveEnds(w, Unsynced).shaken
  {
    StepStoreValid(w.store, Save(v.id, Active, Unsynced));
    ShowPut(w, SaveFailed(v), DoSaveEnds(w, Unsynced), Idle);
  }

  // ---- A command at a time ----

  lemma RunStartDrain(contents: Contents, actions: seq<Action>, w: World, v: View) returns (x: World)
    requires Reached(contents, actions, w, v, Idle) && v.IsRegistered()
    ensures var closed := CloseGate(v, w.clock);
            Reached(contents, actions + [Drain(v.id)], x, closed, On(v.id, closed.role, closed.role.Closing?))
    ensures x.clock == w.clock + 1 && SameHistory(w, x)
  {
    DrainShows(w, v);
    x := DoDrain(w, v.id);
    RunTo(contents, actions, Drain(v.id), w, x);
  }

  lemma RunDrain(contents: Contents, actions: seq<Action>, w: World, v: View, op: OpId) returns (x: World)
    requires Reached(contents, actions, w, v, Idle) && HasStatus(v) && !v.InMode(Draining) && v.id.name != "" && op !in v.cell.ops
    ensures Reached(contents, actions + [Drain(v.id), SaveEnds(Synced), Proceed(op)], x, FinishDrain(Saved(CloseGate(v, w.clock)), op), Idle)
    ensures x.clock == w.clock + 3
  {
    var closed := RunStartDrain(contents, actions, w, v);
    x := RunWrite(contents, actions + [Drain(v.id)], closed, CloseGate(v, w.clock), op);
    assert actions + [Drain(v.id), SaveEnds(Synced), Proceed(op)] == actions + [Drain(v.id)] + [SaveEnds(Synced), Proceed(op)];
  }

  /** What the last step of a command makes of its backend. */
  function Ended(v: View, op: OpId, clock: nat): View
    requires v.slot.Some?
  {
    match v.role
    case Drained(_) => FinishDrain(v, op)
    case DisableSaved(_) => ApplyDisable(v, clock)
    case ActivateSaved => ApplyActivate(v, clock)
    case _ => v
  }

  lemma EndShows(w: World, v: View, op: OpId)
    requires Shows(w, v, On(v.id, v.role, false)) && HasStatus(v)
    requires v.role.Drained? || v.role.DisableSaved? || v.role.ActivateSaved?
    ensures Shows(DoProceed(w, op), Ended(v, op, w.clock), Idle) && DoProceed(w, op).clock == w.clock + 1
  {
    match v.role
    case Drained(_) => DrainedShows(w, v, op);
    case DisableSaved(_) => DisabledShows(w, v, op);
    case ActivateSaved => ActivatedShows(w, v, op);
  }

  lemma RunEnd(contents: Contents, actions: seq<Action>, w: World, v: View, op: OpId) returns (x: World)
    requires Reached(contents, actions, w, v, On(v.id, v.role, false)) && HasStatus(v) && op !in v.cell.ops
    requires v.role.Drained? || v.role.DisableSaved? || v.role.ActivateSaved?
    ensures Reached(contents, actions + [Proceed(op)], x, Ended(v, op, w.clock), Idle) && x.clock == w.clock + 1
  {
    EndShows(w, v, op);
    x := DoProceed(w, op);
    RunProceed(contents, actions, w, op);
  }

  lemma RunSaved(contents: Contents, actions: seq<Action>, w: World, v: View) returns (x: World)
    requires Reached(contents, actions, w, v, On(v.id, v.role, true)) && HasStatus(v) && v.id.name != ""
    requires v.role.Closing? || v.role.Disabling? || v.role.Activating?
    ensures Reached(contents, actions + [SaveEnds(Synced)], x, Saved(v), On(v.id, Saved(v).role, false)) && x.clock == w.clock + 1
    ensures Saved(v).id == v.id && Saved(v).cell == v.cell && HasStatus(Saved(v))
    ensures Saved(v).role.Drained? || Saved(v).role.DisableSaved? || Saved(v).role.ActivateSaved?
  {
    SaveShows(w, v);
    x := DoSaveEnds(w, Synced);
    RunSave(contents, actions, w, Synced);
  }

  /** A command writes and ends. */
  lemma RunWrite(contents: Contents, actions: seq<Action>, w: World, v: View, op: OpId) returns (x: World)
    requires Reached(contents, actions, w, v, On(v.id, v.role, true)) && HasStatus(v) && v.id.name != "" && op !in v.cell.ops
    requires v.role.Closing? || v.role.Disabling? || v.role.Activating?
    ensures Reached(contents, actions + [SaveEnds(Synced), Proceed(op)], x, Ended(Saved(v), op, w.clock + 1), Idle)
    ensures x.clock == w.clock + 2
  {
    var saved := RunSaved(contents, actions, w, v);
    x := RunEnd(contents, actions + [SaveEnds(Synced)], saved, Saved(v), op);
    assert actions + [SaveEnds(Synced), Proceed(op)] == actions + [SaveEnds(Synced)] + [Proceed(op)];
  }

  lemma RunStartDisable(contents: Contents, actions: seq<Action>, w: World, v: View, force: bool) returns (x: World)
    requires Reached(contents, actions, w, v, Idle) && v.role == NoRole && HasStatus(v) && !v.InMode(Disabled) && (force || !v.Leased())
    ensures var role := Disabling(Quiet(v));
            Reached(contents, actions + [Disable(v.id, force)], x, v.(role := role), On(v.id, role, true))
    ensures x.clock == w.clock + 1 && SameHistory(w, x)
  {
    DisableShows(w, v, force);
    x := DoDisable(w, v.id, force);
    RunTo(contents, actions, Disable(v.id, force), w, x);
  }

  /** A backend that has been disabled. */
  function AfterDisable(v: View, clock: nat): View
    requires v.slot.Some?
  {
    ApplyDisable(Saved(v.(role := Disabling(Quiet(v)))), clock)
  }

  lemma RunDisable(contents: Contents, actions: seq<Action>, w: World, v: View, force: bool, op: OpId) returns (x: World)
    requires Reached(contents, actions, w, v, Idle) && v.role == NoRole && HasStatus(v) && !v.InMode(Disabled) && (force || !v.Leased())
    requires v.id.name != "" && op !in v.cell.ops
    ensures Reached(contents, actions + [Disable(v.id, force), SaveEnds(Synced), Proceed(op)], x, AfterDisable(v, w.clock + 2), Idle)
    ensures x.clock == w.clock + 3
  {
    var disable := [Disable(v.id, force)];
    var started := RunStartDisable(contents, actions, w, v, force);
    x := RunWrite(contents, actions + disable, started, v.(role := Disabling(Quiet(v))), op);
    assert actions + [Disable(v.id, force), SaveEnds(Synced), Proceed(op)] == actions + disable + [SaveEnds(Synced), Proceed(op)];
  }

  lemma RunStartActivate(contents: Contents, actions: seq<Action>, w: World, v: View) returns (x: World)
    requires Reached(contents, actions, w, v, Idle) && v.role == NoRole && HasStatus(v) && v.InMode(Disabled)
    requires v.live.value.readiness == Ready && TelemetryAt(v.live.value, 0, SETTINGS) == Fresh
    ensures Reached(contents, actions + [Activate(v.id, 0, SETTINGS)], x, v.(role := Activating), On(v.id, Activating, true))
    ensures x.clock == w.clock + 1
  {
    ActivateShows(w, v, 0);
    x := DoActivate(w, v.id, 0, SETTINGS);
    RunTo(contents, actions, Activate(v.id, 0, SETTINGS), w, x);
  }

  lemma RunActivate(contents: Contents, actions: seq<Action>, w: World, v: View, op: OpId) returns (x: World)
    requires Reached(contents, actions, w, v, Idle) && v.role == NoRole && HasStatus(v) && v.InMode(Disabled)
    requires v.live.value.readiness == Ready && TelemetryAt(v.live.value, 0, SETTINGS) == Fresh
    requires v.id.name != "" && op !in v.cell.ops
    ensures Reached(contents, actions + [Activate(v.id, 0, SETTINGS), SaveEnds(Synced), Proceed(op)], x,
                    ApplyActivate(Saved(v.(role := Activating)), w.clock + 2), Idle)
    ensures x.clock == w.clock + 3
  {
    var activate := [Activate(v.id, 0, SETTINGS)];
    var started := RunStartActivate(contents, actions, w, v);
    x := RunWrite(contents, actions + activate, started, v.(role := Activating), op);
    assert actions + [Activate(v.id, 0, SETTINGS), SaveEnds(Synced), Proceed(op)] == actions + activate + [SaveEnds(Synced), Proceed(op)];
  }

  lemma RunProbe(contents: Contents, actions: seq<Action>, w: World, v: View) returns (x: World)
    requires Reached(contents, actions, w, v, Idle) && HasStatus(v)
    ensures var generation := v.live.value.generation;
            Reached(contents, actions + [ProbeReadiness(v.id, generation, Ready, SETTINGS)], x, Probe(v, generation, Ready, SETTINGS), Idle)
    ensures x.clock == w.clock + 1
  {
    var generation := v.live.value.generation;
    ProbeShows(w, v);
    x := DoProbe(w, v.id, generation, Ready, SETTINGS);
    RunTo(contents, actions, ProbeReadiness(v.id, generation, Ready, SETTINGS), w, x);
  }

  /** One scrape, from sending to its reply. */
  function Scraped(v: View, reply: Metrics, clock: nat): View
    requires HasStatus(v)
  {
    var sent := BeginScrape(v, v.live.value.generation, 0, clock);
    if sent.cell.outstanding.Some? then FinishScrape(sent, Some(reply)) else sent
  }

  lemma RunSend(contents: Contents, actions: seq<Action>, w: World, v: View) returns (x: World)
    requires Reached(contents, actions, w, v, Idle) && HasStatus(v) && v.cell.outstanding.None?
    ensures var generation := v.live.value.generation;
            Reached(contents, actions + [SendScrape(v.id, generation, 0)], x, BeginScrape(v, generation, 0, w.clock), Idle)
    ensures x.clock == w.clock + 1
  {
    SendShows(w, v, 0);
    x := DoSend(w, v.id, v.live.value.generation, 0);
    RunTo(contents, actions, SendScrape(v.id, v.live.value.generation, 0), w, x);
  }

  lemma RunReceive(contents: Contents, actions: seq<Action>, w: World, v: View, reply: Metrics) returns (x: World)
    requires Reached(contents, actions, w, v, Idle) && HasStatus(v) && v.cell.outstanding.Some?
    ensures Reached(contents, actions + [ReceiveScrape(v.id, Some(reply))], x, FinishScrape(v, Some(reply)), Idle)
    ensures x.clock == w.clock + 1
  {
    ReceiveShows(w, v, Some(reply));
    x := DoReceive(w, v.id, Some(reply));
    RunTo(contents, actions, ReceiveScrape(v.id, Some(reply)), w, x);
  }

  lemma RunScrape(contents: Contents, actions: seq<Action>, w: World, v: View, reply: Metrics) returns (x: World)
    requires Reached(contents, actions, w, v, Idle) && HasStatus(v) && v.cell.outstanding.None?
    ensures Reached(contents, actions + [SendScrape(v.id, v.live.value.generation, 0), ReceiveScrape(v.id, Some(reply))], x,
                    Scraped(v, reply, w.clock), Idle)
    ensures x.clock == w.clock + 2
  {
    var send, receive := SendScrape(v.id, v.live.value.generation, 0), ReceiveScrape(v.id, Some(reply));
    var sent := RunSend(contents, actions, w, v);
    x := RunReceive(contents, actions + [send], sent, BeginScrape(v, v.live.value.generation, 0, w.clock), reply);
    assert actions + [send, receive] == actions + [send] + [receive];
  }

  // ---- The start ----

  /** A backend that has just been started in its stored mode. */
  function StartView(b: BackendConfig, generation: nat, next: nat, stored: Mode, clock: nat): View {
    var base := SetMode(NewSlot(SpecOf(b), Disabled), Active);
    var slot := if stored == Active then base else SetMode(base, stored);
    View(b.id, Some(slot), Some(Instance(b, generation)), Some(NewLive(generation)),
         NO_CELL.(fence := if stored == Draining then Some(Fence(slot.modeEpoch, 0, clock, 0)) else None), stored, NoRole, next)
  }

  function Only(b: BackendConfig): RuntimeConfig { RuntimeConfig([b]) }

  lemma OnlyFinds(b: BackendConfig)
    ensures Only(b).Valid() && Only(b).Find(b.id) == Some(b) && b.id in IdsOf(Only(b).backends)
  {
    FindExactly(Only(b).backends, b.id);
  }

  /** Started with one backend. */
  function StartedWith(w: World, b: BackendConfig): World
    requires Only(b).Valid() && Loadable(w.store.file.visible)
  {
    Tock(DoServe(DoBoot(w, Only(b)))).(command := Idle)
  }

  lemma Booting(w: World, b: BackendConfig)
    requires w.live == map[] && w.cells == map[]
    ensures Only(b).Valid()
    ensures var booted := DoBoot(w, Only(b));
            && Booted(booted, b.id) && b.id in booted.slots && booted.live == map[] && booted.cells == map[]
            && InstanceOf(booted.published, b.id).Some? && InstanceOf(booted.published, b.id).value.config == b
  {
    OnlyFinds(b);
    BootedFrom(w, Only(b), b.id);
    BootedIn(w, Only(b), b.id);
  }

  lemma StartShows(w: World, b: BackendConfig) returns (v: View)
    requires w.live == map[] && w.cells == map[] && w.command == Idle && w.store.Valid()
    ensures Only(b).Valid() && Loadable(w.store.file.visible)
    ensures var stored := ModeOf(Loaded(w.store.file.visible), b.id);
            v == StartView(b, v.live.GetOr(NewLive(0)).generation, v.next, stored, w.clock + 1)
    ensures Shows(StartedWith(w, b), v, Idle) && StartedWith(w, b).clock == w.clock + 3
    ensures SameHistory(w, StartedWith(w, b)) && StartedWith(w, b).store.overlay == Loaded(w.store.file.visible)
  {
    assert w.store.file.visible in w.store.file.possible;
    Booting(w, b);
    var booted := DoBoot(w, Only(b));
    ServeLooks(booted, b.id);
    v := Look(DoServe(booted), b.id);
    assert Look(StartedWith(w, b), b.id) == v;
  }

  lemma RunEndResume(contents: Contents, actions: seq<Action>, w: World)
    requires Run(contents, actions) == Some(w) && w.process == Serving && w.command == Resuming
    ensures Run(contents, actions + [EndResume]) == Some(Tock(w).(command := Idle))
  {
    RunTo(contents, actions, EndResume, w, Tock(w).(command := Idle));
  }

  lemma RunStarted(contents: Contents, actions: seq<Action>, w: World, b: BackendConfig)
    requires Run(contents, actions) == Some(w) && w.process == Down && w.command == Idle
    requires Only(b).Valid() && Loadable(w.store.file.visible)
    ensures Run(contents, actions + [Boot(Only(b)), Serve, EndResume]) == Some(StartedWith(w, b))
  {
    var start := [Boot(Only(b)), Serve];
    RunStart(contents, actions, w, Only(b));
    RunEndResume(contents, actions + start, DoServe(DoBoot(w, Only(b))));
    assert actions + [Boot(Only(b)), Serve, EndResume] == actions + start + [EndResume];
  }

  lemma RunOnly(contents: Contents, actions: seq<Action>, w: World, b: BackendConfig) returns (v: View)
    requires Run(contents, actions) == Some(w) && w.process == Down && w.live == map[] && w.cells == map[] && w.command == Idle && w.store.Valid()
    ensures Only(b).Valid() && Loadable(w.store.file.visible)
    ensures Reached(contents, actions + [Boot(Only(b)), Serve, EndResume], StartedWith(w, b), v, Idle)
    ensures v == StartView(b, v.live.GetOr(NewLive(0)).generation, v.next, ModeOf(Loaded(w.store.file.visible), b.id), w.clock + 1)
    ensures SameHistory(w, StartedWith(w, b)) && StartedWith(w, b).clock == w.clock + 3
  {
    v := StartShows(w, b);
    RunStarted(contents, actions, w, b);
  }

  // ---- What the commands make of a backend ----

  /** A backend without requests, in this mode since this epoch. */
  datatype Sketch = Sketch(b: BackendConfig, next: nat, mode: Mode, epoch: nat, live: Live, accepted: seq<S.Accepted>,
                           ops: map<OpId, DrainOp>, fence: Option<Fence>)
  {
    function Show(): View {
      View(b.id, Some(Slot(SpecOf(b), true, mode, epoch, epoch, 0, 0, 0, {})), Some(Instance(b, live.generation)), Some(live),
           Cell(map[], None, accepted, ops, fence), mode, NoRole, next)
    }

    /** A drain starts an operation, or joins the one under way. */
    function Drained(clock: nat, op: OpId): Sketch {
      this.(mode := Draining, epoch := epoch + 1, fence := Some(Fence(epoch + 1, 0, clock, live.scrapesStarted)),
            ops := if exists o <- ops :: ops[o].phase == Underway then ops
                   else ops[op := DrainOp(live.scrapesStarted, Underway, epoch + 1, None)])
    }

    function Moved(to: Mode): Sketch { this.(mode := to, epoch := epoch + 1) }

    function Probed(): Sketch { this.(live := ReadinessSucceeded(live, SETTINGS)) }

    function Observed(reply: Metrics, clock: nat): Sketch {
      var sent := S.Sent(Scrape(live.scrapesStarted + 1, 0, 0), 0, clock);
      this.(live := S.Finished(ScrapeBegun(live), sent, Some(reply)), accepted := accepted + [S.Accepted(sent, Some(reply))])
    }
  }

  function NewSketch(b: BackendConfig, next: nat, generation: nat): Sketch {
    Sketch(b, next, Active, 1, NewLive(generation), [], map[], None)
  }

  lemma StartMakes(b: BackendConfig, generation: nat, next: nat, clock: nat)
    ensures StartView(b, generation, next, Active, clock) == NewSketch(b, next, generation).Show()
    ensures StartView(b, generation, next, Disabled, clock) == NewSketch(b, next, generation).Moved(Disabled).Show()
    ensures StartView(b, generation, next, Draining, clock)
         == NewSketch(b, next, generation).Moved(Draining).(fence := Some(Fence(2, 0, clock, 0))).Show()
  {
  }

  lemma DrainMakes(k: Sketch, clock: nat, op: OpId)
    requires k.mode == Active
    ensures FinishDrain(Saved(CloseGate(k.Show(), clock)), op) == k.Drained(clock, op).Show()
  {
  }

  lemma DisableMakes(k: Sketch, clock: nat)
    requires k.mode == Draining
    ensures AfterDisable(k.Show(), clock) == k.Moved(Disabled).Show()
  {
  }

  lemma ActivateMakes(k: Sketch, clock: nat)
    requires k.mode == Disabled
    ensures ApplyActivate(Saved(k.Show().(role := Activating)), clock) == k.Moved(Active).Show()
  {
  }

  lemma ScrapeMakes(k: Sketch, reply: Metrics, clock: nat)
    requires k.live.lastCompleted <= k.live.scrapesStarted
    ensures Scraped(k.Show(), reply, clock) == k.Observed(reply, clock).Show()
  {
  }

  // ---- Runs by sketches ----

  predicate Unforced(actions: seq<Action>) { forall a <- actions :: a.Disable? ==> !a.force }

  /** How far a run has come. */
  datatype Stop = Stop(actions: seq<Action>, world: World, sketch: Sketch)
  {
    predicate Ok() {
      && Reached(Missing, actions, world, sketch.Show(), Idle) && sketch.b.id.name != ""
      && Unforced(actions)
    }
  }

  lemma FirstStart(b: BackendConfig) returns (w: World, generation: nat, next: nat)
    requires b.id.name != ""
    ensures Reached(Missing, [Boot(Only(b)), Serve, EndResume], w, NewSketch(b, next, generation).Show(), Idle)
    ensures w.clock == 3 && w.synced == {}
  {
    var v := RunOnly(Missing, [], Initial(Missing), b);
    generation, next := v.live.GetOr(NewLive(0)).generation, v.next;
    StartMakes(b, generation, next, 1);
    w := StartedWith(Initial(Missing), b);
    assert [] + [Boot(Only(b)), Serve, EndResume] == [Boot(Only(b)), Serve, EndResume];
  }

  lemma Begin(b: BackendConfig) returns (s: Stop, generation: nat)
    requires b.id.name != ""
    ensures s.Ok() && s.world.clock == 3 && s.sketch == NewSketch(b, s.sketch.next, generation) && s.world.synced == {}
  {
    var w, next;
    w, generation, next := FirstStart(b);
    s := Stop([Boot(Only(b)), Serve, EndResume], w, NewSketch(b, next, generation));
  }

  lemma ThenDrain(s: Stop, op: OpId) returns (t: Stop)
    requires s.Ok() && s.sketch.mode == Active && op !in s.sketch.ops
    ensures t.Ok() && t.sketch == s.sketch.Drained(s.world.clock, op) && t.world.clock == s.world.clock + 3
  {
    var k := s.sketch;
    var x := RunDrain(Missing, s.actions, s.world, k.Show(), op);
    DrainMakes(k, s.world.clock, op);
    t := Stop(s.actions + [Drain(k.b.id), SaveEnds(Synced), Proceed(op)], x, k.Drained(s.world.clock, op));
  }

  lemma ThenDisable(s: Stop, op: OpId) returns (t: Stop)
    requires s.Ok() && s.sketch.mode == Draining && op !in s.sketch.ops
    ensures t.Ok() && t.sketch == s.sketch.Moved(Disabled) && t.world.clock == s.world.clock + 3
  {
    var k := s.sketch;
    var x := RunDisable(Missing, s.actions, s.world, k.Show(), false, op);
    DisableMakes(k, s.world.clock + 2);
    t := Stop(s.actions + [Disable(k.b.id, false), SaveEnds(Synced), Proceed(op)], x, k.Moved(Disabled));
  }

  lemma ThenActivate(s: Stop, op: OpId) returns (t: Stop)
    requires s.Ok() && s.sketch.mode == Disabled && op !in s.sketch.ops
    requires s.sketch.live.readiness == Ready && TelemetryAt(s.sketch.live, 0, SETTINGS) == Fresh
    ensures t.Ok() && t.sketch == s.sketch.Moved(Active) && t.world.clock == s.world.clock + 3
  {
    var k := s.sketch;
    var x := RunActivate(Missing, s.actions, s.world, k.Show(), op);
    ActivateMakes(k, s.world.clock + 2);
    t := Stop(s.actions + [Activate(k.b.id, 0, SETTINGS), SaveEnds(Synced), Proceed(op)], x, k.Moved(Active));
  }

  lemma ThenProbe(s: Stop) returns (t: Stop)
    requires s.Ok()
    ensures t.Ok() && t.sketch == s.sketch.Probed() && t.world.clock == s.world.clock + 1
  {
    var k := s.sketch;
    var x := RunProbe(Missing, s.actions, s.world, k.Show());
    t := Stop(s.actions + [ProbeReadiness(k.b.id, k.live.generation, Ready, SETTINGS)], x, k.Probed());
  }

  lemma ThenScrape(s: Stop, reply: Metrics) returns (t: Stop)
    requires s.Ok() && s.sketch.live.lastCompleted <= s.sketch.live.scrapesStarted
    ensures t.Ok() && t.sketch == s.sketch.Observed(reply, s.world.clock) && t.world.clock == s.world.clock + 2
  {
    var k := s.sketch;
    var x := RunScrape(Missing, s.actions, s.world, k.Show(), reply);
    ScrapeMakes(k, reply, s.world.clock);
    t := Stop(s.actions + [SendScrape(k.b.id, k.live.generation, 0), ReceiveScrape(k.b.id, Some(reply))], x, k.Observed(reply, s.world.clock));
  }

  // ---- A certificate without a fence ----

  /** Started, drained, disabled before the drain's task looks, and ready. */
  lemma DisabledWhileDraining(b: BackendConfig) returns (s: Stop, generation: nat)
    requires b.id.name != ""
    ensures s.Ok() && s.world.clock == 10
    ensures s.sketch == Sketch(b, s.sketch.next, Disabled, 3, ReadinessSucceeded(NewLive(generation), SETTINGS), [],
                               map[0 := DrainOp(0, Underway, 2, None)], Some(Fence(2, 0, 3, 0)))
  {
    s, generation := Begin(b);
    s := ThenDrain(s, 0);
    s := ThenDisable(s, 1);
    s := ThenProbe(s);
  }

  /** Scraped twice while it is idle and disabled, and activated again. */
  lemma ScrapedWhileDisabled(b: BackendConfig, idle: Metrics) returns (s: Stop)
    requires b.id.name != "" && EngineIdle(idle)
    ensures s.Ok() && s.world.clock == 17 && s.sketch.b == b && s.sketch.mode == Active && s.sketch.epoch == 4
    ensures s.sketch.live.circuit == Routing.Closed
    ensures s.sketch.ops == map[0 := DrainOp(0, Underway, 2, None)]
    ensures s.sketch.live.observation == Some(Observation(idle, 0, 0, 2)) && s.sketch.live.idleStreak == 2
    ensures |s.sketch.accepted| == 2 && forall a <- s.sketch.accepted :: a.sent.at < 17
  {
    var generation;
    s, generation := DisabledWhileDraining(b);
    s := ThenScrape(s, idle);
    s := ThenScrape(s, idle);
    s := ThenActivate(s, 1);
  }

  /** Drained once more, it joins the operation of the first drain, whose scrape count is
    * older than the new fence: the idle test passes at once, on two scrapes which both
    * began before that fence.  So a certificate speaks only for an operation whose slot
    * kept its epoch. */
  lemma StaleOperationConfirms(b: BackendConfig, idle: Metrics) returns (actions: seq<Action>)
    requires b.id.name != "" && EngineIdle(idle)
    ensures Run(Missing, actions).Some?
    ensures var w := Run(Missing, actions).value;
            var v := Look(w, b.id);
            && Enabled(w, ConfirmDrain(b.id, 0, 0, SETTINGS)) && Confirms(v, 0, 0, SETTINGS)
            && v.cell.ops.Keys == {0} && v.cell.ops[0].epoch != v.slot.value.modeEpoch
            && v.cell.fence.Some? && v.cell.fence.value.epoch == v.slot.value.modeEpoch
            && |v.cell.accepted| == 2 && forall a <- v.cell.accepted :: a.sent.at < v.cell.fence.value.at
  {
    var s := ScrapedWhileDisabled(b, idle);
    assert s.sketch.ops[0].phase == Underway;
    s := ThenDrain(s, 1);
    actions := s.actions;
  }

  // ---- A completion with a request in flight ----

  lemma RunRoute(contents: Contents, actions: seq<Action>, w: World, v: View, command: Command, f: FlightId) returns (x: World)
    requires Reached(contents, actions, w, v, command) && ReloadIsValid(w) && f !in v.cell.flights
    ensures Reached(contents, actions + [Route(v.id, f, 0)], x, TakeRoute(v, f, 0), command)
  {
    x := DoRoute(w, v.id, f, 0);
    ShowPut(w, TakeRoute(v, f, 0), x, command);
    RunTo(contents, actions, Route(v.id, f, 0), w, x);
  }

  /** The next round of the drain's task reports completion, and a request still runs. */
  predicate ReportsBusy(actions: seq<Action>, id: BackendId) {
    var after := Run(Missing, actions + [TickDrain(id, 0)]);
    && after.Some? && 0 in CellOf(after.value, id).ops && CellOf(after.value, id).ops[0].phase == CompleteDisabled
    && id in after.value.slots && after.value.slots[id].leases != {}
  }

  /** A backend with a request on it, under a drain that nothing has ended yet. */
  predicate Busy(v: View, mode: Mode) {
    HasStatus(v) && v.role == NoRole && v.InMode(mode) && v.slot.value.leases != {}
    && 1 !in v.cell.ops && 0 in v.cell.ops && v.cell.ops[0].phase == Underway
  }

  lemma RoutedIsLeased(k: Sketch, role: Role)
    requires k.mode == Active && k.live.circuit == Closed
    ensures var v := TakeRoute(k.Show().(role := role), 0, 0);
            HasStatus(v) && v.role == role && v.InMode(Active) && v.slot.value.leases != {} && v.cell.ops == k.ops && v.id == k.b.id
  {
    assert LeaseKey(0, 0) in TakeRoute(k.Show().(role := role), 0, 0).slot.value.leases;
  }

  lemma DrainedIsBusy(v: View, clock: nat)
    requires HasStatus(v) && v.role == NoRole && v.InMode(Active) && v.slot.value.leases != {} && v.cell.ops == map[]
    ensures Busy(FinishDrain(Saved(CloseGate(v, clock)), 0), Draining)
  {
  }

  lemma DisabledIsBusy(v: View, clock: nat)
    requires Busy(v, Draining)
    ensures Busy(AfterDisable(v, clock), Disabled)
  {
  }

  /** A drain reports completion, and that its backend is safe to stop, while a request
    * still runs on it: the backend was disabled by force and the drain's task finds it
    * disabled.  Only a completion by the idle path certifies that nothing runs. */
  lemma ForcedDisableReportsBusy(b: BackendConfig) returns (actions: seq<Action>)
    requires b.id.name != ""
    ensures ReportsBusy(actions, b.id)
  {
    var s, generation := Begin(b);
    RoutedIsLeased(s.sketch, NoRole);
    assert s.sketch.Show().(role := NoRole) == s.sketch.Show();
    var v := TakeRoute(s.sketch.Show(), 0, 0);
    var w := RunRoute(Missing, s.actions, s.world, s.sketch.Show(), Idle, 0);
    actions := s.actions + [Route(b.id, 0, 0)];
    DrainedIsBusy(v, w.clock);
    var x := RunDrain(Missing, actions, w, v, 0);
    actions, v := actions + [Drain(b.id), SaveEnds(Synced), Proceed(0)], FinishDrain(Saved(CloseGate(v, w.clock)), 0);
    actions := DisableBusy(actions, x, v);
  }

  /** No force is needed.  A disable of an active backend looks at the requests before it
    * writes and closes the gate afterwards; one that is routed meanwhile runs on. */
  lemma UnforcedDisableReportsBusy(b: BackendConfig, idle: Metrics) returns (actions: seq<Action>)
    requires b.id.name != "" && EngineIdle(idle)
    ensures Unforced(actions)
    ensures ReportsBusy(actions, b.id)
  {
    var s := ScrapedWhileDisabled(b, idle);
    var begun, x, routed := RoutedWhileWriting(s);
    actions := RunSurvivor(begun, x, routed);
  }

  lemma RunSurvivor(begun: seq<Action>, w: World, v: View) returns (actions: seq<Action>)
    requires Reached(Missing, begun, w, v, On(v.id, v.role, true)) && Survivor(v) && v.id.name != "" && Unforced(begun)
    ensures Unforced(actions)
    ensures ReportsBusy(actions, v.id)
  {
    var y := RunWrite(Missing, begun, w, v, 1);
    actions := begun + [SaveEnds(Synced), Proceed(1)];
    SurvivorIsBusy(v, w.clock + 1);
    RunTickBusy(actions, y, Ended(Saved(v), 1, w.clock + 1));
  }

  /** A request runs on a backend that is being disabled under a drain's operation. */
  predicate Survivor(v: View) {
    HasStatus(v) && v.role == Disabling(false) && v.slot.value.leases != {}
    && 1 !in v.cell.ops && 0 in v.cell.ops && v.cell.ops[0].phase == Underway
  }

  lemma RoutedWhileWriting(s: Stop) returns (actions: seq<Action>, x: World, routed: View)
    requires s.Ok() && s.sketch.mode == Active && s.sketch.live.circuit == Routing.Closed
    ensures Reached(Missing, actions, x, routed, On(s.sketch.b.id, Disabling(false), true)) && Unforced(actions)
    ensures HasStatus(routed) && routed.role == Disabling(false) && routed.slot.value.leases != {}
    ensures routed.cell.ops == s.sketch.ops && routed.id == s.sketch.b.id
  {
    var v, id := s.sketch.Show(), s.sketch.b.id;
    var w := RunStartDisable(Missing, s.actions, s.world, v, false);
    RoutedIsLeased(s.sketch, Disabling(false));
    routed := TakeRoute(v.(role := Disabling(false)), 0, 0);
    actions := s.actions + [Disable(id, false)] + [Route(id, 0, 0)];
    x := RunRoute(Missing, s.actions + [Disable(id, false)], w, v.(role := Disabling(false)), On(id, Disabling(false), true), 0);
  }

  lemma SurvivorIsBusy(v: View, clock: nat)
    requires Survivor(v)
    ensures Busy(Ended(Saved(v), 1, clock), Disabled)
  {
  }

  lemma DisableBusy(actions: seq<Action>, w: World, v: View) returns (all: seq<Action>)
    requires Reached(Missing, actions, w, v, Idle) && Busy(v, Draining) && v.id.name != ""
    ensures ReportsBusy(all, v.id)
  {
    DisabledIsBusy(v, w.clock + 2);
    var x := RunDisable(Missing, actions, w, v, true, 1);
    all := actions + [Disable(v.id, true), SaveEnds(Synced), Proceed(1)];
    RunTickBusy(all, x, AfterDisable(v, w.clock + 2));
  }

  lemma RunTickBusy(actions: seq<Action>, w: World, v: View)
    requires Reached(Missing, actions, w, v, Idle) && Busy(v, Disabled)
    ensures ReportsBusy(actions, v.id)
  {
    TickBusy(w, v);
    RunTo(Missing, actions, TickDrain(v.id, 0), w, DoTick(w, v.id, 0));
  }

  lemma TickBusy(w: World, v: View)
    requires Shows(w, v, Idle) && Busy(v, Disabled)
    ensures Enabled(w, TickDrain(v.id, 0)) && ReloadIsValid(w)
    ensures var x := DoTick(w, v.id, 0);
            && 0 in CellOf(x, v.id).ops && CellOf(x, v.id).ops[0].phase == CompleteDisabled
            && v.id in x.slots && x.slots[v.id].leases != {}
  {
    assert CellOf(w, v.id) == v.cell;
    ShowEnsured(w, v, Idle);
    ShowPut(EnsureAll(w), Tick(v, 0), DoTick(w, v.id, 0), Idle);
    var x := DoTick(w, v.id, 0);
    assert Look(x, v.id) == Tick(v, 0);
    assert CellOf(x, v.id) == Look(x, v.id).cell && Lookup(x.slots, v.id) == Look(x, v.id).slot;
  }

  // ---- Answers that do not last ----

  /** A step that answers without writing says of an infirm fence what does not last. */
  lemma InfirmAnswer(actions: seq<Action>, w: World, a: Action, id: BackendId)
    requires Run(Missing, actions) == Some(w) && Enabled(w, a) && ReloadIsValid(w) && Answers(w, a, id)
    requires !IsFirm(w, id)
    ensures Run(Missing, actions + [a]).Some? && !StaysClosed(Missing, actions + [a], id)
  {
    StepIsCommand(w, a);
    CommandHistory(w, a);
    RunTo(Missing, actions, a, w, StepCommand(w, a));
    AnswersExactly(Missing, actions, a, id);
  }

  lemma FoundDisabledAnswers(w: World, v: View, a: Action)
    requires Shows(w, v, Idle) && HasStatus(v) && v.InMode(Disabled)
    requires a == Disable(v.id, false) || (a.TickDrain? && a.id == v.id && a.op in v.cell.ops && v.cell.ops[a.op].phase == Underway)
    ensures Enabled(w, a) && ReloadIsValid(w) && Answers(w, a, v.id)
  {
    ShowEnsured(w, v, Idle);
  }

  lemma RunUnsaved(contents: Contents, actions: seq<Action>, w: World, v: View) returns (x: World)
    requires Reached(contents, actions, w, v, On(v.id, Activating, true)) && v.role == Activating && v.id.name != ""
    ensures Reached(contents, actions + [SaveEnds(Unsynced)], x, v.(role := NoRole), Idle) && v.id in x.shaken
  {
    UnsavedShows(w, v);
    x := DoSaveEnds(w, Unsynced);
    RunSave(contents, actions, w, Unsynced);
  }

  /** Disabled while a drain is under way, and an activation failed after its rename: a
    * further disable and the drain's task both find the backend disabled and say so, but
    * a power loss may bring it back active. */
  lemma FailedActivationUndoes(b: BackendConfig, idle: Metrics) returns (actions: seq<Action>)
    requires b.id.name != "" && EngineIdle(idle)
    ensures Run(Missing, actions).Some? && b.id in Run(Missing, actions).value.shaken
    ensures forall a | a == Disable(b.id, false) || a == TickDrain(b.id, 0) ::
              && Answers(Run(Missing, actions).value, a, b.id)
              && Run(Missing, actions + [a]).Some? && !StaysClosed(Missing, actions + [a], b.id)
  {
    var s := ReadyWhileDisabled(b, idle);
    var v := s.sketch.Show();
    var w := RunUnsynced(s.actions, s.world, v);
    actions := s.actions + [Activate(b.id, 0, SETTINGS), SaveEnds(Unsynced)];
    InfirmBoth(actions, w, v, 0);
  }

  lemma ReadyWhileDisabled(b: BackendConfig, idle: Metrics) returns (s: Stop)
    requires b.id.name != "" && EngineIdle(idle)
    ensures s.Ok() && s.sketch.b == b && s.sketch.mode == Disabled && s.sketch.ops == map[0 := DrainOp(0, Underway, 2, None)]
    ensures s.sketch.live.readiness == Ready && TelemetryAt(s.sketch.live, 0, SETTINGS) == Fresh
  {
    var generation;
    s, generation := DisabledWhileDraining(b);
    s := ThenScrape(s, idle);
  }

  /** An activation whose write fails after its rename. */
  lemma RunUnsynced(actions: seq<Action>, w: World, v: View) returns (x: World)
    requires Reached(Missing, actions, w, v, Idle) && v.role == NoRole && HasStatus(v) && v.InMode(Disabled) && v.id.name != ""
    requires v.live.value.readiness == Ready && TelemetryAt(v.live.value, 0, SETTINGS) == Fresh
    ensures Reached(Missing, actions + [Activate(v.id, 0, SETTINGS), SaveEnds(Unsynced)], x, v, Idle) && v.id in x.shaken
  {
    var activate := [Activate(v.id, 0, SETTINGS)];
    var started := RunStartActivate(Missing, actions, w, v);
    x := RunUnsaved(Missing, actions + activate, started, v.(role := Activating));
    assert v.(role := Activating).(role := NoRole) == v;
    assert actions + [Activate(v.id, 0, SETTINGS), SaveEnds(Unsynced)] == actions + activate + [SaveEnds(Unsynced)];
  }

  lemma InfirmBoth(actions: seq<Action>, w: World, v: View, op: OpId)
    requires Reached(Missing, actions, w, v, Idle) && HasStatus(v) && v.InMode(Disabled) && !IsFirm(w, v.id)
    requires op in v.cell.ops && v.cell.ops[op].phase == Underway
    ensures forall a | a == Disable(v.id, false) || a == TickDrain(v.id, op) ::
              Answers(w, a, v.id) && Run(Missing, actions + [a]).Some? && !StaysClosed(Missing, actions + [a], v.id)
  {
    forall a | a == Disable(v.id, false) || a == TickDrain(v.id, op)
      ensures Answers(w, a, v.id) && Run(Missing, actions + [a]).Some? && !StaysClosed(Missing, actions + [a], v.id)
    {
      FoundDisabledAnswers(w, v, a);
      InfirmAnswer(actions, w, a, v.id);
    }
  }

  /** What a process leaves that is killed between the rename and the sync of a fence. */
  function LeftBehind(w: World): Contents
    requires w.command.On? && Target(w.command.role).Some?
  {
    Written(WithMode(w.store.overlay, w.command.id, Target(w.command.role).value))
  }

  lemma KillLeaves(w: World, v: View)
    requires Shows(w, v, On(v.id, v.role, true)) && (v.role.Closing? || v.role.Disabling?) && v.id.name != ""
    ensures var left := LeftBehind(w);
            && left in KillDisk(w) && Loadable(left) && ModeOf(Loaded(left), v.id) == Target(v.role).value
            && DoKill(w, left).store.Valid() && SameHistory(w, DoKill(w, left))
  {
    var left := LeftBehind(w);
    assert left in Halfway(w);
  }

  lemma RunKill(actions: seq<Action>, w: World, v: View) returns (x: World)
    requires Reached(Missing, actions, w, v, On(v.id, v.role, true)) && (v.role.Closing? || v.role.Disabling?) && v.id.name != ""
    ensures var left := LeftBehind(w);
            && Run(Missing, actions + [Kill(left)]) == Some(x) && x.process == Down && x.live == map[] && x.cells == map[]
            && x.command == Idle && x.store.Valid() && SameHistory(w, x) && x.store.file.visible == left
            && Loadable(left) && ModeOf(Loaded(left), v.id) == Target(v.role).value
  {
    KillLeaves(w, v);
    x := DoKill(w, LeftBehind(w));
    RunTo(Missing, actions, Kill(LeftBehind(w)), w, x);
  }

  lemma StartComesUp(b: BackendConfig, generation: nat, next: nat, stored: Mode, clock: nat)
    ensures CameUp(StartView(b, generation, next, stored, clock), b.id, stored)
  {
  }

  predicate CameUp(v: View, id: BackendId, mode: Mode) {
    v.id == id && HasStatus(v) && v.role == NoRole && v.cell.ops == map[] && v.InMode(mode)
  }

  lemma RunAgain(actions: seq<Action>, dead: World, b: BackendConfig, mode: Mode) returns (x: World, y: View)
    requires Run(Missing, actions) == Some(dead) && dead.process == Down && dead.live == map[] && dead.cells == map[] && dead.command == Idle
    requires dead.store.Valid() && Loadable(dead.store.file.visible) && ModeOf(Loaded(dead.store.file.visible), b.id) == mode
    requires b.id !in dead.synced
    ensures Reached(Missing, actions + [Boot(Only(b)), Serve, EndResume], x, y, Idle) && b.id !in x.synced && CameUp(y, b.id, mode)
  {
    y := RunOnly(Missing, actions, dead, b);
    x := StartedWith(dead, b);
    StartComesUp(b, y.live.GetOr(NewLive(0)).generation, y.next, mode, dead.clock + 1);
  }

  /** Killed there and started again. */
  lemma RunKilled(actions: seq<Action>, w: World, v: View, b: BackendConfig) returns (x: World, y: View)
    requires Reached(Missing, actions, w, v, On(b.id, v.role, true)) && v.id == b.id && b.id.name != ""
    requires (v.role.Closing? || v.role.Disabling?) && b.id !in w.synced
    ensures Reached(Missing, actions + [Kill(LeftBehind(w)), Boot(Only(b)), Serve, EndResume], x, y, Idle)
    ensures b.id !in x.synced && CameUp(y, b.id, Target(v.role).value)
  {
    var kill := [Kill(LeftBehind(w))];
    var dead := RunKill(actions, w, v);
    x, y := RunAgain(actions + kill, dead, b, Target(v.role).value);
    assert actions + [Kill(LeftBehind(w)), Boot(Only(b)), Serve, EndResume] == actions + kill + [Boot(Only(b)), Serve, EndResume];
  }

  /** A disable is killed between rename and sync.  The next process reads the fence, and a
    * further disable answers "already disabled"; a power loss may undo it. */
  lemma KilledDisableUndone(b: BackendConfig) returns (actions: seq<Action>)
    requires b.id.name != ""
    ensures var a := Disable(b.id, false);
            && Run(Missing, actions).Some? && Answers(Run(Missing, actions).value, a, b.id)
            && Run(Missing, actions + [a]).Some? && !StaysClosed(Missing, actions + [a], b.id)
  {
    var s, generation := Begin(b);
    var v := s.sketch.Show();
    var writing := RunStartDisable(Missing, s.actions, s.world, v, false);
    var x, y := RunKilled(s.actions + [Disable(b.id, false)], writing, v.(role := Disabling(Quiet(v))), b);
    actions := s.actions + [Disable(b.id, false)] + [Kill(LeftBehind(writing)), Boot(Only(b)), Serve, EndResume];
    FoundDisabledAnswers(x, y, Disable(b.id, false));
    InfirmAnswer(actions, x, Disable(b.id, false), b.id);
  }

  /** So with a drain: the next one joins it without writing. */
  lemma KilledDrainUndone(b: BackendConfig) returns (actions: seq<Action>)
    requires b.id.name != ""
    ensures var a := Proceed(0);
            && Run(Missing, actions).Some? && Run(Missing, actions).value.command == On(b.id, Role.Drained(false), false)
            && Answers(Run(Missing, actions).value, a, b.id)
            && Run(Missing, actions + [a]).Some? && !StaysClosed(Missing, actions + [a], b.id)
  {
    var s, generation := Begin(b);
    var v := s.sketch.Show();
    var writing := RunStartDrain(Missing, s.actions, s.world, v);
    var x, y := RunKilled(s.actions + [Drain(b.id)], writing, CloseGate(v, s.world.clock), b);
    var again := s.actions + [Drain(b.id)] + [Kill(LeftBehind(writing)), Boot(Only(b)), Serve, EndResume];
    actions := again + [Drain(b.id)];
    var joined := RunStartDrain(Missing, again, x, y);
    JoinedAnswers(joined, CloseGate(y, x.clock));
    InfirmAnswer(actions, joined, Proceed(0), b.id);
  }

  lemma JoinedAnswers(w: World, v: View)
    requires Shows(w, v, On(v.id, Role.Drained(false), false)) && v.cell.ops == map[]
    ensures Enabled(w, Proceed(0)) && ReloadIsValid(w) && Answers(w, Proceed(0), v.id)
  {
    assert CellOf(w, v.id) == v.cell;
  }
}
