/** What every run of the lifecycle protocol keeps, and what it promises. */
module LifecycleSafety {
  import opened Wrappers
  import opened Backend
  import opened BackendState
  import opened Runtime
  import opened Telemetry
  import opened Routing
  import opened BackendView
  import opened Lifecycle
  import C = Circuit
  import S = Scrapes

  // ---- Looking at one backend at a time ----

  lemma InstanceLookup(p: Runtime.Published, id: BackendId)
    ensures Lookup(Instances(p), id) == InstanceOf(p, id)
  {
  }

  lemma EnsureLooks(w: World, id: BackendId)
    ensures Look(EnsureAll(w), id) == Ensure(Look(w, id))
  {
    InstanceLookup(w.published, id);
  }

  /** `v` may be written back in place of the backend it was read from. */
  predicate Fits(w: World, v: View) {
    && v.instance == InstanceOf(w.published, v.id) && v.next == w.published.nextGeneration
    && (v.id in w.slots ==> v.slot.Some?)
  }

  lemma PutLooks(w: World, v: View, w': World, id: BackendId)
    requires Fits(w, v) && w' == Put(w, v).(store := w'.store, command := w'.command, synced := w'.synced, shaken := w'.shaken)
    ensures id == v.id ==> Look(w', id) == v.(stored := ModeOf(w'.store.overlay, id), role := RoleOf(w'.command, id))
    ensures id != v.id ==> Look(w', id) == Look(w, id).(stored := ModeOf(w'.store.overlay, id), role := RoleOf(w'.command, id))
  {
  }

  /** Every backend is in order. */
  ghost predicate ViewsInv(w: World) {
    forall id :: ViewInv(Look(w, id), w.clock)
  }

  /** The command has written its fence to the file itself. */
  predicate Wrote(role: Role) { role == Drained(true) || role.DisableSaved? || role.ConfirmSaved? || role.Completing? }

  /** The lock's holder does one thing at a time. */
  predicate CommandInv(w: World) {
    match w.command
    case On(id, role, writing) =>
      !role.Moving? && role != NoRole && (writing ==> Target(role).Some?) && (role.Activating? ==> writing)
      && (Wrote(role) ==> IsFirm(w, id))
    case Reloading(config, _, _) => config.Valid()
    case _ => true
  }

  /** After the start, before the stored modes are restored, every configured backend
    * is active. */
  predicate Booted(w: World, id: BackendId) {
    var instance := InstanceOf(w.published, id);
    if id in w.slots then
      && instance.Some? && instance.value.config.id == id && instance.value.generation < w.published.nextGeneration
      && w.slots[id] == SetMode(NewSlot(SpecOf(instance.value.config), Disabled), Active)
    else instance.None?
  }

  ghost predicate ProcessInv(w: World) {
    match w.process
    case Down => Unstarted(w)
    case Configured => Unstarted(w) && PublishedOk(w.published) && forall id :: Booted(w, id)
    case Serving => PublishedOk(w.published) && ViewsInv(w) && CommandInv(w)
  }

  predicate Unstarted(w: World) { w.live == map[] && w.cells == map[] && w.command == Idle }

  /** Everything the disk may hold fences a backend exactly if its fence is firm; and then
    * so does the overlay in memory. */
  predicate DiskExact(w: World, id: BackendId) {
    && ((forall c <- w.store.file.possible :: FencedIn(c, id)) <==> IsFirm(w, id))
    && (w.process == Serving && IsFirm(w, id) ==> id in w.store.overlay)
  }

  ghost predicate DiskInv(w: World) { w.store.Valid() && forall id :: DiskExact(w, id) }

  ghost predicate Inv(w: World) { ProcessInv(w) && DiskInv(w) }

  // ---- Steps and the backends they do not touch ----

  lemma PutKeeps(w: World, v: View, w': World)
    requires ViewsInv(w) && Fits(w, v) && w' == Put(w, v).(store := w'.store, command := w'.command, synced := w'.synced, shaken := w'.shaken)
    requires forall id :: id != v.id ==>
               ModeOf(w'.store.overlay, id) == ModeOf(w.store.overlay, id) && RoleOf(w'.command, id) == RoleOf(w.command, id)
    requires ViewInv(v.(stored := ModeOf(w'.store.overlay, v.id), role := RoleOf(w'.command, v.id)), w'.clock)
    ensures ViewsInv(w')
  {
    forall id ensures ViewInv(Look(w', id), w'.clock) {
      PutLooks(w, v, w', id);
      if id != v.id {
        ClockKeeps(Look(w, id), w.clock, w'.clock);
      }
    }
  }

  lemma EnsureViews(w: World)
    requires ViewsInv(w)
    ensures ViewsInv(EnsureAll(w)) && ViewsInv(Tock(EnsureAll(w)))
  {
    forall id ensures ViewInv(Look(EnsureAll(w), id), w.clock) && ViewInv(Look(Tock(EnsureAll(w)), id), w.clock + 1) {
      EnsureLooks(w, id);
      EnsureKeeps(Look(w, id), w.clock);
      ClockKeeps(Look(EnsureAll(w), id), w.clock, w.clock + 1);
      assert Look(Tock(EnsureAll(w)), id) == Look(EnsureAll(w), id);
    }
  }

  lemma TockViews(w: World)
    requires ViewsInv(w)
    ensures ViewsInv(Tock(w))
  {
    forall id ensures ViewInv(Look(Tock(w), id), w.clock + 1) {
      ClockKeeps(Look(w, id), w.clock, w.clock + 1);
      assert Look(Tock(w), id) == Look(w, id);
    }
  }

  // ---- Requests and probes ----

  /** A step at one backend that no command is about. */
  lemma PutView(w: World, v: View)
    requires ViewsInv(w) && Fits(w, v) && ViewInv(v, w.clock + 1)
    requires v.stored == ModeOf(w.store.overlay, v.id) && v.role == RoleOf(w.command, v.id)
    ensures ViewsInv(Put(w, v))
  {
    assert v.(stored := ModeOf(w.store.overlay, v.id), role := RoleOf(w.command, v.id)) == v;
    PutKeeps(w, v, Put(w, v));
  }

  lemma RouteViews(w: World, id: BackendId, f: FlightId, now: nat)
    requires ViewsInv(w) && !InFlight(w, id, f)
    ensures ViewsInv(DoRoute(w, id, f, now))
  {
    var v := Look(w, id);
    assert ViewInv(v, w.clock);
    TakeKeeps(v, f, now, w.clock);
    ClockKeeps(TakeRoute(v, f, now), w.clock, w.clock + 1);
    PutView(w, TakeRoute(v, f, now));
  }

  lemma RespondViews(w: World, id: BackendId, f: FlightId, how: Settlement, now: nat)
    requires ViewsInv(w) && InFlight(w, id, f) && CanSettle(CellOf(w, id).flights[f].ticket, how)
    ensures ViewsInv(DoRespond(w, id, f, how, now))
  {
    var v := Look(w, id);
    assert ViewInv(v, w.clock);
    SettleKeeps(v, f, how, now, w.clock);
    ClockKeeps(Settle(v, f, how, now), w.clock, w.clock + 1);
    PutView(w, Settle(v, f, how, now));
  }

  lemma FinishViews(w: World, id: BackendId, f: FlightId, how: Settlement, now: nat)
    requires ViewsInv(w) && InFlight(w, id, f) && how != Pass && CanSettle(CellOf(w, id).flights[f].ticket, how)
    ensures ViewsInv(DoFinish(w, id, f, how, now))
  {
    var v := Look(w, id);
    assert ViewInv(v, w.clock);
    SettleKeeps(v, f, how, now, w.clock);
    var u := Settle(v, f, how, now);
    EndFlightKeeps(u, f, w.clock);
    ClockKeeps(EndFlight(u, f), w.clock, w.clock + 1);
    PutView(w, EndFlight(u, f));
  }

  lemma SendViews(w: World, id: BackendId, generation: nat, now: nat)
    requires ViewsInv(w) && CellOf(w, id).outstanding.None?
    ensures ViewsInv(DoSend(w, id, generation, now))
  {
    EnsureViews(w);
    EnsureLooks(w, id);
    SendAt(EnsureAll(w), id, generation, now);
  }

  lemma SendAt(u: World, id: BackendId, generation: nat, now: nat)
    requires ViewsInv(u) && Look(u, id).cell.outstanding.None?
    ensures ViewsInv(Put(u, BeginScrape(Look(u, id), generation, now, u.clock)))
  {
    var v := Look(u, id);
    assert ViewInv(v, u.clock);
    BeginScrapeKeeps(v, generation, now, u.clock);
    PutView(u, BeginScrape(v, generation, now, u.clock));
  }

  lemma ReceiveViews(w: World, id: BackendId, reply: Option<Metrics>)
    requires ViewsInv(w) && CellOf(w, id).outstanding.Some?
    ensures ViewsInv(DoReceive(w, id, reply))
  {
    EnsureViews(w);
    EnsureLooks(w, id);
    ReceiveAt(EnsureAll(w), id, reply);
  }

  lemma ReceiveAt(u: World, id: BackendId, reply: Option<Metrics>)
    requires ViewsInv(u) && Look(u, id).cell.outstanding.Some?
    ensures ViewsInv(Put(u, FinishScrape(Look(u, id), reply)))
  {
    var v := Look(u, id);
    assert ViewInv(v, u.clock);
    FinishScrapeKeeps(v, reply, u.clock);
    PutView(u, FinishScrape(v, reply));
  }

  lemma ReadinessViews(w: World, id: BackendId, generation: nat, readiness: Readiness, settings: Settings)
    requires ViewsInv(w)
    ensures ViewsInv(DoProbe(w, id, generation, readiness, settings))
  {
    EnsureViews(w);
    ReadinessAt(EnsureAll(w), id, generation, readiness, settings);
  }

  lemma ReadinessAt(u: World, id: BackendId, generation: nat, readiness: Readiness, settings: Settings)
    requires ViewsInv(u)
    ensures ViewsInv(Put(u, Probe(Look(u, id), generation, readiness, settings)))
  {
    var v := Look(u, id);
    assert ViewInv(v, u.clock);
    ProbeKeeps(v, generation, readiness, settings, u.clock);
    PutView(u, Probe(v, generation, readiness, settings));
  }

  // ---- Commands ----

  /** A command step at its own backend: the new view already carries its role. */
  lemma CommandViews(w: World, v: View, w': World)
    requires ViewsInv(w) && Fits(w, v) && ViewInv(v, w.clock + 1)
    requires w' == Put(w, v).(store := w'.store, command := w'.command, synced := w'.synced, shaken := w'.shaken)
    requires v.role == RoleOf(w'.command, v.id) && v.stored == ModeOf(w'.store.overlay, v.id)
    requires forall id :: id != v.id ==>
               ModeOf(w'.store.overlay, id) == ModeOf(w.store.overlay, id) && RoleOf(w'.command, id) == RoleOf(w.command, id)
    ensures ViewsInv(w')
  {
    assert v.(stored := ModeOf(w'.store.overlay, v.id), role := RoleOf(w'.command, v.id)) == v;
    PutKeeps(w, v, w');
  }

  lemma DrainViews(w: World, id: BackendId)
    requires ViewsInv(w) && w.command == Idle
    ensures ViewsInv(DoDrain(w, id)) && CommandInv(DoDrain(w, id))
  {
    var v := Look(w, id);
    assert ViewInv(v, w.clock);
    if v.IsRegistered() {
      CloseGateKeeps(v, w.clock);
      CommandViews(w, CloseGate(v, w.clock), DoDrain(w, id));
    } else {
      TockViews(w);
    }
  }

  lemma DisablingViews(u: World, id: BackendId, w': World)
    requires ViewsInv(u) && u.command == Idle && Look(u, id).IsRegistered()
    requires w' == Tock(u).(command := On(id, Disabling(Quiet(Look(u, id))), true))
    ensures ViewsInv(w')
  {
    forall i ensures ViewInv(Look(w', i), w'.clock) {
      var v := Look(u, i);
      assert ViewInv(v, u.clock);
      ClockKeeps(v, u.clock, u.clock + 1);
      if i == id {
        SameData(v, v.stored, Disabling(Quiet(v)), u.clock + 1);
        assert Look(w', i) == v.(stored := v.stored, role := Disabling(Quiet(v)));
      } else {
        assert Look(w', i) == v;
      }
    }
  }

  lemma DisableViews(w: World, id: BackendId, force: bool)
    requires ViewsInv(w) && w.command == Idle
    ensures ViewsInv(DoDisable(w, id, force)) && CommandInv(DoDisable(w, id, force))
  {
    EnsureViews(w);
    var u := EnsureAll(w);
    var v := Look(u, id);
    if HasStatus(v) && v.slot.value.mode != Disabled && (force || v.slot.value.leases == {}) {
      DisablingViews(u, id, DoDisable(w, id, force));
    }
  }

  lemma StartActivateNext(v: View, clock: nat)
    requires ViewInv(v, clock) && v.role == NoRole && v.IsRegistered() && v.InMode(Disabled)
    ensures ViewInv(StartActivate(v), clock + 1)
  {
    StartActivateKeeps(v, clock);
    ClockKeeps(StartActivate(v), clock, clock + 1);
  }

  lemma ActivateViews(w: World, id: BackendId, now: nat, settings: Settings)
    requires ViewsInv(w) && w.command == Idle
    ensures ViewsInv(DoActivate(w, id, now, settings)) && CommandInv(DoActivate(w, id, now, settings))
  {
    EnsureViews(w);
    var u := EnsureAll(w);
    var v := Look(u, id);
    assert ViewInv(v, u.clock);
    if HasStatus(v) && v.slot.value.mode == Disabled && v.live.value.readiness == Ready
       && TelemetryAt(v.live.value, now, settings) == Fresh {
      StartActivateNext(v, u.clock);
      CommandViews(u, StartActivate(v), DoActivate(w, id, now, settings));
    }
  }

  lemma ConfirmViews(w: World, id: BackendId, op: OpId, now: nat, settings: Settings)
    requires ViewsInv(w) && w.command == Idle
    ensures ViewsInv(DoConfirm(w, id, op, now, settings)) && CommandInv(DoConfirm(w, id, op, now, settings))
  {
    EnsureViews(w);
    var u := EnsureAll(w);
    var v := Look(u, id);
    assert ViewInv(v, u.clock);
    if Confirms(v, op, now, settings) {
      ConfirmKeeps(v, op, now, settings, u.clock);
      var c := Confirm(v, op).(role := Confirming(op));
      ClockKeeps(c, u.clock, u.clock + 1);
      CommandViews(u, c, DoConfirm(w, id, op, now, settings));
    }
  }

  lemma SaveBecomes(w: World, v: View, outcome: Outcome, x: World)
    requires w.command.On? && w.command.id == v.id && Look(w, v.id) == v && Target(v.role).Some? && x == DoSaveEnds(w, outcome)
    requires StoreMode(w.store, v.id, Target(v.role).value, outcome).1
    ensures x == Put(w, Saved(v)).(store := x.store, synced := x.synced, shaken := x.shaken, command := On(v.id, Saved(v).role, false))
    ensures x.store == StoreMode(w.store, v.id, Target(v.role).value, outcome).0 && x.synced == x.store.overlay.Keys && x.shaken == {}
  {
  }

  lemma SavedCommand(w: World, outcome: Outcome)
    requires CommandInv(w) && w.command.On? && Target(w.command.role).Some?
    requires StoreMode(w.store, w.command.id, Target(w.command.role).value, outcome).1
    ensures CommandInv(DoSaveEnds(w, outcome))
  {
    SaveBecomes(w, Look(w, w.command.id), outcome, DoSaveEnds(w, outcome));
  }

  lemma SavedHere(w: World)
    requires ViewsInv(w) && w.command.On? && Target(w.command.role).Some?
    ensures ViewInv(Saved(Look(w, w.command.id)), w.clock + 1)
  {
    var v := Look(w, w.command.id);
    assert ViewInv(v, w.clock);
    SavedKeeps(v, w.clock);
    ClockKeeps(Saved(v), w.clock, w.clock + 1);
  }

  lemma SavedElsewhere(w: World, outcome: Outcome)
    requires w.command.On? && Target(w.command.role).Some?
    requires StoreMode(w.store, w.command.id, Target(w.command.role).value, outcome).1
    ensures var v, x := Saved(Look(w, w.command.id)), DoSaveEnds(w, outcome);
            && x == Put(w, v).(store := x.store, command := x.command, synced := x.synced, shaken := x.shaken)
            && v.role == RoleOf(x.command, v.id) && v.stored == ModeOf(x.store.overlay, v.id)
            && forall id :: id != v.id ==>
                 ModeOf(x.store.overlay, id) == ModeOf(w.store.overlay, id) && RoleOf(x.command, id) == RoleOf(w.command, id)
  {
    SaveBecomes(w, Look(w, w.command.id), outcome, DoSaveEnds(w, outcome));
  }

  lemma SavedViews(w: World, outcome: Outcome)
    requires ViewsInv(w) && CommandInv(w) && w.command.On? && Target(w.command.role).Some?
    requires StoreMode(w.store, w.command.id, Target(w.command.role).value, outcome).1
    ensures ViewsInv(DoSaveEnds(w, outcome)) && CommandInv(DoSaveEnds(w, outcome))
  {
    var v := Look(w, w.command.id);
    SavedHere(w);
    SavedElsewhere(w, outcome);
    SavedCommand(w, outcome);
    CommandViews(w, Saved(v), DoSaveEnds(w, outcome));
  }

  lemma UnsavedViews(w: World, outcome: Outcome)
    requires ViewsInv(w) && CommandInv(w) && w.command.On? && Target(w.command.role).Some?
    requires !StoreMode(w.store, w.command.id, Target(w.command.role).value, outcome).1
    ensures ViewsInv(DoSaveEnds(w, outcome)) && CommandInv(DoSaveEnds(w, outcome))
  {
    var v := Look(w, w.command.id);
    assert ViewInv(v, w.clock);
    SaveFailedKeeps(v, w.clock);
    ClockKeeps(SaveFailed(v), w.clock, w.clock + 1);
    CommandViews(w, SaveFailed(v), DoSaveEnds(w, outcome));
  }

  lemma SaveViews(w: World, outcome: Outcome)
    requires ViewsInv(w) && CommandInv(w) && w.command.On? && Target(w.command.role).Some?
    ensures ViewsInv(DoSaveEnds(w, outcome)) && CommandInv(DoSaveEnds(w, outcome))
  {
    if StoreMode(w.store, w.command.id, Target(w.command.role).value, outcome).1 {
      SavedViews(w, outcome);
    } else {
      UnsavedViews(w, outcome);
    }
  }

  lemma ReopenViews(w: World)
    requires ViewsInv(w) && w.command.On? && w.command.role.Closing?
    ensures ViewsInv(DoReopenGate(w)) && DoReopenGate(w).command == Idle
  {
    var v := Look(w, w.command.id);
    assert ViewInv(v, w.clock);
    RollBackKeeps(v, w.clock);
    CommandViews(w, RollBack(v, w.clock), DoReopenGate(w));
  }

  /** The last step of a command at its own backend. */
  lemma EndedViews(u: World, v: View, w': World)
    requires ViewsInv(u) && u.command.On? && v.id == u.command.id && Fits(u, v) && ViewInv(v, u.clock + 1)
    requires v.role == NoRole && v.stored == ModeOf(u.store.overlay, v.id) && w' == Put(u, v).(command := Idle)
    ensures ViewsInv(w') && CommandInv(w')
  {
    CommandViews(u, v, w');
  }

  lemma DrainEndsAs(w: World, op: OpId)
    requires w.command.On? && w.command.role.Drained? && Look(w, w.command.id).slot.Some?
    ensures DoProceed(w, op) == Put(EnsureAll(w), FinishDrain(Look(EnsureAll(w), w.command.id), op)).(command := Idle)
  {
  }

  lemma ProceedDrained(w: World, op: OpId)
    requires ViewsInv(w) && w.command.On? && w.command.role.Drained?
    ensures ViewsInv(DoProceed(w, op)) && CommandInv(DoProceed(w, op))
  {
    EnsureViews(w);
    var u := EnsureAll(w);
    var v := Look(u, w.command.id);
    assert ViewInv(v, u.clock);
    FinishDrainKeeps(v, op, u.clock);
    ClockKeeps(FinishDrain(v, op), u.clock, u.clock + 1);
    DrainEndsAs(w, op);
    EndedViews(u, FinishDrain(v, op), DoProceed(w, op));
  }

  lemma ProceedMode(w: World, op: OpId)
    requires ViewsInv(w) && w.command.On? && (w.command.role.DisableSaved? || w.command.role.ActivateSaved?)
    ensures ViewsInv(DoProceed(w, op)) && CommandInv(DoProceed(w, op))
  {
    var v := Look(w, w.command.id);
    assert ViewInv(v, w.clock);
    if v.role.DisableSaved? {
      ApplyDisableKeeps(v, w.clock);
      EndedViews(w, ApplyDisable(v, w.clock), DoProceed(w, op));
    } else {
      ApplyActivateKeeps(v, w.clock);
      EndedViews(w, ApplyActivate(v, w.clock), DoProceed(w, op));
    }
  }

  lemma ProceedConfirmed(w: World, op: OpId)
    requires ViewsInv(w) && CommandInv(w) && w.command.On? && w.command.role.ConfirmSaved?
    ensures ViewsInv(DoProceed(w, op)) && CommandInv(DoProceed(w, op))
  {
    var v := Look(w, w.command.id);
    assert ViewInv(v, w.clock);
    ApplyConfirmKeeps(v, w.clock);
    CommandViews(w, ApplyConfirm(v, w.clock), DoProceed(w, op));
  }

  lemma ProceedComplete(w: World, op: OpId)
    requires ViewsInv(w) && w.command.On? && w.command.role.Completing?
    ensures ViewsInv(DoProceed(w, op)) && CommandInv(DoProceed(w, op))
  {
    var v := Look(w, w.command.id);
    assert ViewInv(v, w.clock);
    CompleteKeeps(v, w.clock);
    ClockKeeps(Complete(v), w.clock, w.clock + 1);
    EndedViews(w, Complete(v), DoProceed(w, op));
  }

  lemma ProceedViews(w: World, op: OpId)
    requires ViewsInv(w) && CommandInv(w) && w.command.On? && Proceeds(w.command.role)
    ensures ViewsInv(DoProceed(w, op)) && CommandInv(DoProceed(w, op))
  {
    if w.command.role.Drained? {
      ProceedDrained(w, op);
    } else if w.command.role.DisableSaved? || w.command.role.ActivateSaved? {
      ProceedMode(w, op);
    } else if w.command.role.ConfirmSaved? {
      ProceedConfirmed(w, op);
    } else {
      ProceedComplete(w, op);
    }
  }

  lemma TickViews(w: World, id: BackendId, op: OpId)
    requires ViewsInv(w) && op in CellOf(w, id).ops && CellOf(w, id).ops[op].phase == Underway
    ensures ViewsInv(DoTick(w, id, op))
  {
    EnsureViews(w);
    EnsureLooks(w, id);
    var v := Look(EnsureAll(w), id);
    assert ViewInv(v, w.clock);
    TickKeeps(v, op, w.clock);
    ClockKeeps(Tick(v, op), w.clock, w.clock + 1);
    PutView(EnsureAll(w), Tick(v, op));
  }

  lemma ResumeViews(w: World, id: BackendId, op: OpId)
    requires ViewsInv(w) && w.command == Resuming
    ensures ViewsInv(DoResumeDrain(w, id, op))
  {
    EnsureViews(w);
    var u := EnsureAll(w);
    if HasStatus(Look(u, id)) && Look(u, id).slot.value.mode == Draining {
      ResumeAt(u, id, op);
    }
  }

  lemma ResumeAt(u: World, id: BackendId, op: OpId)
    requires ViewsInv(u) && u.command == Resuming && HasStatus(Look(u, id)) && Look(u, id).InMode(Draining)
    ensures ViewsInv(Put(u, EnsureOp(Look(u, id), op)))
  {
    var v := Look(u, id);
    assert ViewInv(v, u.clock);
    EnsureOpKeeps(v, op, u.clock);
    ClockKeeps(EnsureOp(v, op), u.clock, u.clock + 1);
    PutView(u, EnsureOp(v, op));
  }

  lemma EndResumeViews(w: World)
    requires ViewsInv(w) && w.command == Resuming
    ensures ViewsInv(Tock(w).(command := Idle))
  {
    forall id ensures ViewInv(Look(Tock(w).(command := Idle), id), w.clock + 1) {
      ClockKeeps(Look(w, id), w.clock, w.clock + 1);
      assert Look(Tock(w).(command := Idle), id) == Look(w, id);
    }
  }

  // ---- Reloads ----

  lemma FindHasId(config: RuntimeConfig, id: BackendId)
    ensures config.Find(id).Some? ==> config.Find(id).value in config.backends && config.Find(id).value.id == id
  {
    FindExactly(config.backends, id);
  }

  lemma WantedLookup(config: RuntimeConfig, id: BackendId)
    requires config.Valid()
    ensures Lookup(Wanted(config), id) == if config.Find(id).Some? then Some(SpecOf(config.Find(id).value)) else None
  {
    WantedIds(config);
    FindExactly(config.backends, id);
  }

  lemma QuiescentIfChanged(w: World, config: RuntimeConfig, id: BackendId)
    requires ViewInv(Look(w, id), w.clock) && RoleOf(w.command, id) == NoRole
    requires FirstBlocked(w.published.config.backends, config, w.slots).None?
    ensures var (v, target) := (Look(w, id), config.Find(id));
            v.instance.Some? && (target.None? || target.value.endpoints != v.instance.value.config.endpoints) ==>
              v.InMode(Disabled) && v.slot.value.leases == {}
  {
    BlockedExactly(w.published.config.backends, config, w.slots);
    FindHasId(w.published.config, id);
    if Look(w, id).instance.Some? {
      var b := w.published.config.Find(id).value;
      assert b in w.published.config.backends && ChangeOf(b, config).Some? ==> Quiescent(w.slots, b.id);
    }
  }

  lemma ReloadViews(w: World, config: RuntimeConfig)
    requires ViewsInv(w) && w.command == Idle && config.Valid()
    ensures ViewsInv(DoReload(w, config)) && CommandInv(DoReload(w, config))
  {
    TockViews(w);
    if FirstBlocked(w.published.config.backends, config, w.slots).None? {
      var w' := DoReload(w, config);
      forall id ensures ViewInv(Look(w', id), w'.clock) {
        QuiescentIfChanged(w, config, id);
        var v := Look(w, id);
        CheckedKeeps(v, config.Find(id), w.clock);
        ClockKeeps(CheckedFor(v, config.Find(id)), w.clock, w.clock + 1);
        assert Look(w', id) == CheckedFor(v, config.Find(id));
      }
    }
  }

  lemma ReconcileLooks(w: World, id: BackendId)
    requires w.command.Reloading? && w.command.config.Valid() && w.command.stage == Checked
    ensures Look(DoContinueReload(w), id) == ReconciledAs(Look(w, id))
  {
    WantedLookup(w.command.config, id);
  }

  lemma ReconcileViews(w: World)
    requires ViewsInv(w) && w.command.Reloading? && w.command.config.Valid() && w.command.stage == Checked
    ensures ViewsInv(DoContinueReload(w))
  {
    forall id ensures ViewInv(Look(DoContinueReload(w), id), w.clock + 1) {
      ReconcileLooks(w, id);
      FindHasId(w.command.config, id);
      ReconciledKeeps(Look(w, id), w.clock);
      ClockKeeps(ReconciledAs(Look(w, id)), w.clock, w.clock + 1);
    }
  }

  /** Restoring every mode at once restores the mode of each backend. */
  lemma ModesSlot(w: World, id: BackendId)
    requires w.command.Reloading? && w.command.config.Valid() && w.command.stage == Registered && ValidOverlay(w.store.overlay)
    ensures Lookup(DoContinueReload(w).slots, id) == ModeRestored(Look(w, id), w.clock).slot
  {
  }

  lemma ModesLooks(w: World, id: BackendId)
    requires w.command.Reloading? && w.command.config.Valid() && w.command.stage == Registered && ValidOverlay(w.store.overlay)
    ensures Look(DoContinueReload(w), id) == ModeRestored(Look(w, id), w.clock)
  {
    ModesSlot(w, id);
    var v, w' := Look(w, id), DoContinueReload(w);
    assert CellOf(w', id) == (if id in w'.slots then Stamped(v, w'.slots[id], w.clock).cell else CellOf(w, id));
  }

  lemma ModesView(w: World, id: BackendId)
    requires ViewInv(Look(w, id), w.clock) && ValidOverlay(w.store.overlay)
    requires w.command.Reloading? && w.command.config.Valid() && w.command.stage == Registered
    ensures ViewInv(Look(DoContinueReload(w), id), w.clock + 1)
  {
    ModesLooks(w, id);
    ModeRestoredKeeps(Look(w, id), w.clock);
  }

  lemma ModesViews(w: World)
    requires ViewsInv(w) && w.command.Reloading? && w.command.config.Valid() && w.command.stage == Registered
    requires ValidOverlay(w.store.overlay)
    ensures ViewsInv(DoContinueReload(w))
  {
    assert DoContinueReload(w).clock == w.clock + 1;
    forall id ensures ViewInv(Look(DoContinueReload(w), id), w.clock + 1) {
      ModesView(w, id);
    }
  }

  lemma PublishLooks(w: World, id: BackendId)
    requires w.command.Reloading? && w.command.config.Valid() && w.command.stage == Restored && PublishedOk(w.published)
    ensures var q := NextPublished(w.published, w.command.config);
            && PublishedOk(q) && w.published.nextGeneration <= q.nextGeneration
            && (w.command.config.Find(id).Some? ==> id in q.generations)
            && Look(DoContinueReload(w), id)
               == PublishedAs(Look(w, id), if id in q.generations then q.generations[id] else 0, q.nextGeneration)
  {
    ApplyGenerations(w.published, w.command.config);
    FindExactly(w.command.config.backends, id);
  }

  lemma PublishView(w: World, id: BackendId)
    requires ViewInv(Look(w, id), w.clock) && PublishedOk(w.published)
    requires w.command.Reloading? && w.command.config.Valid() && w.command.stage == Restored
    ensures ViewInv(Look(DoContinueReload(w), id), w.clock)
  {
    PublishLooks(w, id);
    ApplyGenerations(w.published, w.command.config);
    var q := NextPublished(w.published, w.command.config);
    PublishedKeeps(Look(w, id), if id in q.generations then q.generations[id] else 0, q.nextGeneration, w.clock);
  }

  lemma PublishViews(w: World)
    requires ViewsInv(w) && PublishedOk(w.published)
    requires w.command.Reloading? && w.command.config.Valid() && w.command.stage == Restored
    ensures ViewsInv(DoContinueReload(w)) && PublishedOk(DoContinueReload(w).published)
  {
    ApplyGenerations(w.published, w.command.config);
    forall id ensures ViewInv(Look(DoContinueReload(w), id), w.clock + 1) {
      PublishView(w, id);
      ClockKeeps(Look(DoContinueReload(w), id), w.clock, w.clock + 1);
    }
  }

  /** The three steps of a reload, undisturbed, are one application of the candidate. */
  lemma ReloadIsApply(w: World, config: RuntimeConfig)
    requires config.Valid() && w.command == Idle
    requires Apply(Topology(w.published, w.slots), config, w.store.overlay).Ok?
    ensures DoReload(w, config).command.Reloading? && DoReload(w, config).command.config.Valid()
    ensures var u := DoContinueReload(DoReload(w, config));
            var x := DoContinueReload(DoContinueReload(u));
            Topology(x.published, x.slots) == Apply(Topology(w.published, w.slots), config, w.store.overlay).value
  {
  }

  // ---- Restarts ----

  lemma FreshView(v: View, slot: Slot, spec: Spec, clock: nat)
    requires v.cell == NO_CELL && v.live.None? && v.role == NoRole
    requires v.instance.Some? && v.instance.value.generation < v.next && spec == SpecOf(v.instance.value.config) && spec.id == v.id
    requires slot == SetMode(NewSlot(spec, Disabled), Active)
    requires v.slot == Some(if v.stored != Active then SetMode(slot, v.stored) else slot)
    ensures var w := Stamped(v.(slot := Some(slot)), v.slot.value, clock);
            ViewInv(Ensure(v.(cell := w.cell)), clock + 1)
  {
    var u := Ensure(v.(cell := Stamped(v.(slot := Some(slot)), v.slot.value, clock).cell));
    NoTickets(u.live.value);
    S.NewMeter(v.instance.value.generation, 0);
    assert u.Sent() == {};
  }

  lemma AbsentView(v: View, clock: nat)
    requires v.cell == NO_CELL && v.live.None? && v.role == NoRole && v.instance.None? && v.slot.None?
    ensures ViewInv(v, clock)
  {
  }

  /** What a backend looks like once its stored mode is restored. */
  function RestoredSlot(w: World, o: Overlay, id: BackendId): Option<Slot> {
    if id !in w.slots then None else if id in o then Some(SetMode(w.slots[id], o[id])) else Some(w.slots[id])
  }

  lemma ServedSlot(w: World, id: BackendId)
    requires Booted(w, id) && Loadable(w.store.file.visible)
    ensures Lookup(DoServe(w).slots, id) == RestoredSlot(w, Loaded(w.store.file.visible), id)
  {
  }

  lemma ServeLooks(w: World, id: BackendId)
    requires Booted(w, id) && w.live == map[] && Loadable(w.store.file.visible)
    ensures var o := Loaded(w.store.file.visible);
            var slot := RestoredSlot(w, o, id);
            var cell := if slot.Some? then Stamped(Look(w, id), slot.value, w.clock).cell else CellOf(w, id);
            Look(DoServe(w), id) == Ensure(View(id, slot, InstanceOf(w.published, id), None, cell.(accepted := []), ModeOf(o, id), NoRole,
                                                w.published.nextGeneration)).(cell := cell)
  {
    InstanceLookup(w.published, id);
  }

  lemma ServeView(w: World, id: BackendId)
    requires Booted(w, id) && w.live == map[] && w.cells == map[] && Loadable(w.store.file.visible)
    ensures ViewInv(Look(DoServe(w), id), w.clock + 1)
  {
    ServeLooks(w, id);
    var o := Loaded(w.store.file.visible);
    var slot := RestoredSlot(w, o, id);
    var v := View(id, slot, InstanceOf(w.published, id), None, NO_CELL, ModeOf(o, id), NoRole, w.published.nextGeneration);
    if id in w.slots {
      FreshView(v, w.slots[id], SpecOf(v.instance.value.config), w.clock);
    } else {
      AbsentView(v, w.clock + 1);
    }
  }

  lemma ServeViews(w: World)
    requires ProcessInv(w) && w.process == Configured && Loadable(w.store.file.visible)
    ensures ProcessInv(DoServe(w))
  {
    var w' := DoServe(w);
    assert w'.published == w.published && w'.command == Resuming && w'.process == Serving && w'.clock == w.clock + 1;
    ServeEach(w);
  }

  lemma ServeEach(w: World)
    requires w.live == map[] && w.cells == map[] && (forall id :: Booted(w, id)) && Loadable(w.store.file.visible)
    ensures forall id :: ViewInv(Look(DoServe(w), id), w.clock + 1)
  {
    forall id ensures ViewInv(Look(DoServe(w), id), w.clock + 1) {
      assert Booted(w, id);
      ServeView(w, id);
    }
  }

  lemma BootedFrom(w: World, config: RuntimeConfig, id: BackendId)
    requires config.Valid()
    ensures PublishedOk(DoBoot(w, config).published) && Booted(DoBoot(w, config), id)
  {
    StartupOk(config);
    WantedIds(config);
    WantedLookup(config, id);
    FindHasId(config, id);
    FindExactly(config.backends, id);
  }

  lemma BootProcess(w: World, config: RuntimeConfig)
    requires ProcessInv(w) && w.process == Down && config.Valid()
    ensures ProcessInv(DoBoot(w, config))
  {
    var w' := DoBoot(w, config);
    forall id ensures Booted(w', id) && PublishedOk(w'.published) {
      BootedFrom(w, config, id);
    }
    BootedFrom(w, config, BackendId(""));
  }

  // ---- The disk ----

  predicate SameDisk(w: World, w': World) {
    w'.process == w.process && w'.store == w.store && w'.synced == w.synced && w'.shaken == w.shaken
  }

  lemma DiskUntouched(w: World, w': World)
    requires DiskInv(w) && SameDisk(w, w')
    ensures DiskInv(w')
  {
    forall id ensures DiskExact(w', id) {
      assert DiskExact(w, id);
    }
  }

  lemma SaveDisk(w: World, outcome: Outcome)
    requires DiskInv(w) && w.process == Serving && w.command.On? && Target(w.command.role).Some?
    ensures DiskInv(DoSaveEnds(w, outcome))
  {
    var (i, mode) := (w.command.id, Target(w.command.role).value);
    StepStoreValid(w.store, Save(i, mode, outcome));
    forall id ensures DiskExact(DoSaveEnds(w, outcome), id) {
      assert DiskExact(w, id);
      SaveFirm(w.store, i, mode, outcome, id, IsFirm(w, id));
    }
  }

  /** A process killed between rename and sync leaves what a write without sync leaves. */
  lemma HalfwaySaved(w: World, contents: Contents)
    requires w.command.On? && contents in Halfway(w)
    ensures Target(w.command.role).Some?
    ensures DoKill(w, contents).store.file == StoreMode(w.store, w.command.id, Target(w.command.role).value, Unsynced).0.file
  {
  }

  lemma KillExact(w: World, contents: Contents, id: BackendId)
    requires Inv(w) && contents in KillDisk(w)
    ensures DiskExact(DoKill(w, contents), id)
  {
    assert DiskExact(w, id);
    if contents in Halfway(w) {
      HalfwaySaved(w, contents);
      SaveFirm(w.store, w.command.id, Target(w.command.role).value, Unsynced, id, IsFirm(w, id));
    } else {
      assert w.store.file.possible + {contents} == w.store.file.possible;
    }
  }

  lemma HalfwayLoads(w: World, contents: Contents)
    requires w.store.Valid() && (contents in KillDisk(w) || contents in CrashDisk(w))
    ensures Loadable(contents)
  {
  }

  lemma KillInv(w: World, contents: Contents)
    requires Inv(w) && contents in KillDisk(w)
    ensures Inv(DoKill(w, contents))
  {
    HalfwayLoads(w, contents);
    forall id ensures DiskExact(DoKill(w, contents), id) {
      KillExact(w, contents, id);
    }
  }

  lemma LosePowerInv(w: World, contents: Contents)
    requires Inv(w) && contents in CrashDisk(w)
    ensures Inv(DoLosePower(w, contents))
  {
    HalfwayLoads(w, contents);
    var w' := DoLosePower(w, contents);
    forall id ensures DiskExact(w', id) {
      assert contents in w'.store.file.possible;
    }
  }

  lemma ServeInv(w: World)
    requires Inv(w) && Enabled(w, Serve)
    ensures Inv(DoServe(w))
  {
    ServeViews(w);
    forall id ensures DiskExact(DoServe(w), id) {
      assert DiskExact(w, id) && w.store.file.visible in w.store.file.possible;
    }
  }

  lemma BootInv(w: World, config: RuntimeConfig)
    requires Inv(w) && Enabled(w, Boot(config))
    ensures Inv(DoBoot(w, config))
  {
    BootProcess(w, config);
    forall id ensures DiskExact(DoBoot(w, config), id) {
      assert DiskExact(w, id);
    }
  }

  // ---- Every step keeps the invariant ----

  ghost predicate ServingInv(w: World) {
    w.process == Serving && PublishedOk(w.published) && ViewsInv(w) && CommandInv(w) && DiskInv(w)
  }

  /** A step which neither commands nor publishes. */
  predicate SameFrame(w: World, w': World) {
    SameDisk(w, w') && w'.published == w.published && w'.command == w.command
  }

  lemma FrameInv(w: World, w': World)
    requires ServingInv(w) && SameFrame(w, w') && ViewsInv(w')
    ensures ServingInv(w')
  {
    DiskUntouched(w, w');
  }

  /** A step of a command that leaves the file alone. */
  lemma CommandFrame(w: World, w': World)
    requires ServingInv(w) && SameDisk(w, w') && PublishedOk(w'.published) && ViewsInv(w') && CommandInv(w')
    ensures ServingInv(w')
  {
    DiskUntouched(w, w');
  }

  lemma RouteInv(w: World, id: BackendId, f: FlightId, now: nat)
    requires ServingInv(w) && !InFlight(w, id, f)
    ensures ServingInv(DoRoute(w, id, f, now))
  {
    RouteViews(w, id, f, now);
    FrameInv(w, DoRoute(w, id, f, now));
  }

  lemma RespondInv(w: World, id: BackendId, f: FlightId, how: Settlement, now: nat)
    requires ServingInv(w) && InFlight(w, id, f) && CanSettle(CellOf(w, id).flights[f].ticket, how)
    ensures ServingInv(DoRespond(w, id, f, how, now))
  {
    RespondViews(w, id, f, how, now);
    FrameInv(w, DoRespond(w, id, f, how, now));
  }

  lemma FinishInv(w: World, id: BackendId, f: FlightId, how: Settlement, now: nat)
    requires ServingInv(w) && InFlight(w, id, f) && how != Pass && CanSettle(CellOf(w, id).flights[f].ticket, how)
    ensures ServingInv(DoFinish(w, id, f, how, now))
  {
    FinishViews(w, id, f, how, now);
    FrameInv(w, DoFinish(w, id, f, how, now));
  }

  lemma RefreshInv(w: World)
    requires ServingInv(w)
    ensures ServingInv(Tock(EnsureAll(w)))
  {
    EnsureViews(w);
    FrameInv(w, Tock(EnsureAll(w)));
  }

  lemma SendInv(w: World, id: BackendId, generation: nat, now: nat)
    requires ServingInv(w) && CellOf(w, id).outstanding.None?
    ensures ServingInv(DoSend(w, id, generation, now))
  {
    SendViews(w, id, generation, now);
    FrameInv(w, DoSend(w, id, generation, now));
  }

  lemma ReceiveInv(w: World, id: BackendId, reply: Option<Metrics>)
    requires ServingInv(w) && CellOf(w, id).outstanding.Some?
    ensures ServingInv(DoReceive(w, id, reply))
  {
    ReceiveViews(w, id, reply);
    FrameInv(w, DoReceive(w, id, reply));
  }

  lemma ReadinessInv(w: World, id: BackendId, generation: nat, readiness: Readiness, settings: Settings)
    requires ServingInv(w)
    ensures ServingInv(DoProbe(w, id, generation, readiness, settings))
  {
    ReadinessViews(w, id, generation, readiness, settings);
    FrameInv(w, DoProbe(w, id, generation, readiness, settings));
  }

  lemma TickInv(w: World, id: BackendId, op: OpId)
    requires ServingInv(w) && op in CellOf(w, id).ops && CellOf(w, id).ops[op].phase == Underway
    ensures ServingInv(DoTick(w, id, op))
  {
    TickViews(w, id, op);
    FrameInv(w, DoTick(w, id, op));
  }

  lemma ResumeInv(w: World, id: BackendId, op: OpId)
    requires ServingInv(w) && w.command == Resuming
    ensures ServingInv(DoResumeDrain(w, id, op))
  {
    ResumeViews(w, id, op);
    FrameInv(w, DoResumeDrain(w, id, op));
  }

  lemma EndResumeInv(w: World)
    requires ServingInv(w) && w.command == Resuming
    ensures ServingInv(Tock(w).(command := Idle))
  {
    EndResumeViews(w);
    CommandFrame(w, Tock(w).(command := Idle));
  }

  lemma DrainInv(w: World, id: BackendId)
    requires ServingInv(w) && w.command == Idle
    ensures ServingInv(DoDrain(w, id))
  {
    DrainViews(w, id);
    CommandFrame(w, DoDrain(w, id));
  }

  lemma DisableInv(w: World, id: BackendId, force: bool)
    requires ServingInv(w) && w.command == Idle
    ensures ServingInv(DoDisable(w, id, force))
  {
    DisableViews(w, id, force);
    CommandFrame(w, DoDisable(w, id, force));
  }

  lemma ActivateInv(w: World, id: BackendId, now: nat, settings: Settings)
    requires ServingInv(w) && w.command == Idle
    ensures ServingInv(DoActivate(w, id, now, settings))
  {
    ActivateViews(w, id, now, settings);
    CommandFrame(w, DoActivate(w, id, now, settings));
  }

  lemma ConfirmInv(w: World, id: BackendId, op: OpId, now: nat, settings: Settings)
    requires ServingInv(w) && w.command == Idle
    ensures ServingInv(DoConfirm(w, id, op, now, settings))
  {
    ConfirmViews(w, id, op, now, settings);
    CommandFrame(w, DoConfirm(w, id, op, now, settings));
  }

  lemma ReopenInv(w: World)
    requires ServingInv(w) && Enabled(w, ReopenGate)
    ensures ServingInv(DoReopenGate(w))
  {
    ReopenViews(w);
    CommandFrame(w, DoReopenGate(w));
  }

  lemma ProceedInv(w: World, op: OpId)
    requires ServingInv(w) && w.command.On? && !w.command.writing && Proceeds(w.command.role)
    ensures ServingInv(DoProceed(w, op))
  {
    ProceedViews(w, op);
    ProceedServes(w, op);
    CommandFrame(w, DoProceed(w, op));
  }

  lemma ProceedServes(w: World, op: OpId)
    requires w.command.On? && Proceeds(w.command.role)
    ensures SameDisk(w, DoProceed(w, op)) && DoProceed(w, op).published == w.published
  {
  }

  lemma SaveInv(w: World, outcome: Outcome)
    requires ServingInv(w) && Enabled(w, SaveEnds(outcome))
    ensures ServingInv(DoSaveEnds(w, outcome))
  {
    SaveViews(w, outcome);
    SaveDisk(w, outcome);
  }

  lemma ReloadInv(w: World, config: RuntimeConfig)
    requires ServingInv(w) && w.command == Idle && config.Valid()
    ensures ServingInv(DoReload(w, config))
  {
    ReloadViews(w, config);
    CommandFrame(w, DoReload(w, config));
  }

  lemma ContinueInv(w: World)
    requires ServingInv(w) && w.command.Reloading?
    ensures ServingInv(DoContinueReload(w))
  {
    match w.command.stage {
      case Checked => ReconcileViews(w);
      case Registered => ModesViews(w);
      case Restored => PublishViews(w);
    }
    CommandFrame(w, DoContinueReload(w));
  }

  lemma StepKeeps(w: World, a: Action)
    requires Inv(w) && Enabled(w, a) && ReloadIsValid(w)
    ensures Inv(Step(w, a))
  {
    if Halts(a) {
      HaltInv(w, a);
    } else {
      ServingStepInv(w, a);
    }
  }

  /** Not a step of a serving process. */
  predicate Halts(a: Action) { a.Kill? || a.LosePower? || a.Boot? || a.Serve? }

  lemma HaltInv(w: World, a: Action)
    requires Inv(w) && Enabled(w, a) && ReloadIsValid(w) && Halts(a)
    ensures Inv(Step(w, a))
  {
    match a
    case Kill(contents) => KillInv(w, contents);
    case LosePower(contents) => LosePowerInv(w, contents);
    case Boot(config) => BootInv(w, config);
    case Serve => ServeInv(w);
  }

  lemma ServingStepInv(w: World, a: Action)
    requires Inv(w) && Enabled(w, a) && ReloadIsValid(w) && !Halts(a)
    ensures Inv(Step(w, a))
  {
    ServingStep(w, a);
  }

  lemma ServingStep(w: World, a: Action)
    requires ServingInv(w) && ServingEnabled(w, a)
    ensures ServingInv(if IsCommand(a) then StepCommand(w, a) else StepTraffic(w, a))
  {
    if IsCommand(a) {
      CommandStep(w, a);
    } else {
      TrafficStep(w, a);
    }
  }

  lemma TrafficStep(w: World, a: Action)
    requires ServingInv(w) && ServingEnabled(w, a)
    ensures ServingInv(StepTraffic(w, a))
  {
    match a
    case Refresh => RefreshInv(w);
    case Route(id, f, now) => RouteInv(w, id, f, now);
    case Respond(id, f, how, now) => RespondInv(w, id, f, how, now);
    case Finish(id, f, how, now) => FinishInv(w, id, f, how, now);
    case SendScrape(id, generation, now) => SendInv(w, id, generation, now);
    case ReceiveScrape(id, reply) => ReceiveInv(w, id, reply);
    case ProbeReadiness(id, generation, readiness, settings) => ReadinessInv(w, id, generation, readiness, settings);
    case _ =>
  }

  lemma CommandStep(w: World, a: Action)
    requires ServingInv(w) && ServingEnabled(w, a) && IsCommand(a)
    ensures ServingInv(StepCommand(w, a))
  {
    match a
    case Drain(id) => DrainInv(w, id);
    case Disable(id, force) => DisableInv(w, id, force);
    case Activate(id, now, settings) => ActivateInv(w, id, now, settings);
    case ConfirmDrain(id, op, now, settings) => ConfirmInv(w, id, op, now, settings);
    case SaveEnds(outcome) => SaveInv(w, outcome);
    case ReopenGate => ReopenInv(w);
    case Proceed(op) => ProceedInv(w, op);
    case TickDrain(id, op) => TickInv(w, id, op);
    case Reload(config) => ReloadInv(w, config);
    case ContinueReload => ContinueInv(w);
    case ResumeDrain(id, op) => ResumeInv(w, id, op);
    case EndResume => EndResumeInv(w);
  }

  // ---- Runs ----

  /** The first start finds some readable overlay file, or none. */
  function Initial(contents: Contents): World {
    World(Down, NOTHING_PUBLISHED, map[], map[], map[], Store(map[], SyncedFile(contents)), Idle, 0, FencedBy(contents), {})
  }

  function Run(contents: Contents, actions: seq<Action>): Option<World> {
    if actions == [] then Some(Initial(contents))
    else
      var before := Run(contents, actions[..|actions| - 1]);
      var a := actions[|actions| - 1];
      if before.Some? && Enabled(before.value, a) && ReloadIsValid(before.value) then Some(Step(before.value, a)) else None
  }

  lemma InitialInv(contents: Contents)
    requires Loadable(contents)
    ensures Inv(Initial(contents))
  {
    forall id ensures DiskExact(Initial(contents), id) {
      assert contents in Initial(contents).store.file.possible;
    }
  }

  lemma {:induction false} InvAlways(contents: Contents, actions: seq<Action>)
    requires Loadable(contents) && Run(contents, actions).Some?
    ensures Inv(Run(contents, actions).value)
    decreases |actions|
  {
    if actions == [] {
      InitialInv(contents);
    } else {
      InvAlways(contents, actions[..|actions| - 1]);
      StepKeeps(Run(contents, actions[..|actions| - 1]).value, actions[|actions| - 1]);
    }
  }

  /** One more step of a run. */
  lemma RunTo(contents: Contents, actions: seq<Action>, a: Action, w: World, w': World)
    requires Run(contents, actions) == Some(w) && Enabled(w, a) && ReloadIsValid(w) && w' == Step(w, a)
    ensures Run(contents, actions + [a]) == Some(w')
  {
    assert (actions + [a])[..|actions + [a]| - 1] == actions;
  }

  lemma RunSave(contents: Contents, actions: seq<Action>, w: World, outcome: Outcome)
    requires Run(contents, actions) == Some(w) && w.process == Serving && w.command.On? && w.command.writing && Target(w.command.role).Some?
    ensures Run(contents, actions + [SaveEnds(outcome)]) == Some(DoSaveEnds(w, outcome))
  {
    RunTo(contents, actions, SaveEnds(outcome), w, DoSaveEnds(w, outcome));
  }

  lemma RunProceed(contents: Contents, actions: seq<Action>, w: World, op: OpId)
    requires Run(contents, actions) == Some(w) && w.process == Serving && w.command.On? && !w.command.writing
    requires Proceeds(w.command.role) && op !in CellOf(w, w.command.id).ops
    ensures Run(contents, actions + [Proceed(op)]) == Some(DoProceed(w, op))
  {
    RunTo(contents, actions, Proceed(op), w, DoProceed(w, op));
  }

  // ---- Main results ----

  /** In the numbers the engine reported: no running and no waiting sequence in the last
    * two results and in the observation the test looked at. */
  predicate NothingRuns(e: Evidence)
    requires |e.accepted| >= 2
  {
    var (last, previous) := (e.accepted[|e.accepted| - 1].reply, e.accepted[|e.accepted| - 2].reply);
    && last.Some? && last.value.running == 0 && last.value.waiting == 0
    && previous.Some? && previous.value.running == 0 && previous.value.waiting == 0
    && e.live.observation.Some? && e.live.observation.value.metrics.running == 0 && e.live.observation.value.metrics.waiting == 0
  }

  lemma CertifiedRunsNothing(e: Evidence)
    requires Certified(e)
    ensures NothingRuns(e)
  {
  }

  /** What every drain that reports idle completion certifies: no lease was held, none had
    * been granted since the fence, and the last two accepted scrapes found the engine
    * idle.  Both began after the fence if and only if the live state had two idle samples
    * since the scrape count at the fence; an operation whose slot has kept its epoch always
    * has them.  And there is still no lease when the completion is published. */
  lemma DrainCertified(contents: Contents, actions: seq<Action>, id: BackendId, op: OpId)
    requires Loadable(contents) && Run(contents, actions).Some?
    requires op in CellOf(Run(contents, actions).value, id).ops
    ensures var w := Run(contents, actions).value;
            var o := CellOf(w, id).ops[op];
            && (o.phase == CompleteIdle ==>
                  && o.evidence.Some? && Certified(o.evidence.value)
                  && NothingRuns(o.evidence.value)
                  && (AfterFence(o.evidence.value) <==> S.IdleSamples(o.evidence.value.live, o.evidence.value.fence.scrapes) >= 2)
                  && (o.evidence.value.epoch == o.epoch ==> AfterFence(o.evidence.value)))
            && (w.command == On(id, Completing(op), false) ==>
                  && id in w.slots && w.slots[id].mode == Disabled && w.slots[id].leases == {}
                  && o.evidence.Some? && w.slots[id].totalAcquired == o.evidence.value.acquired)
  {
    InvAlways(contents, actions);
    var w := Run(contents, actions).value;
    OnlyServingHasWork(w, id);
    var v := Look(w, id);
    assert ViewInv(v, w.clock);
    assert OpInv(v, v.cell.ops[op]);
    if v.cell.ops[op].phase == CompleteIdle {
      CertifiedRunsNothing(v.cell.ops[op].evidence.value);
    }
  }

  /** Which operation a drain gets that has closed the gate: exactly one is under way then,
    * and it is of the epoch of this drain if and only if none was under way before. */
  lemma DrainOwnsOperation(contents: Contents, actions: seq<Action>, id: BackendId, op: OpId)
    requires Loadable(contents) && Run(contents, actions).Some?
    requires var w := Run(contents, actions).value; w.command == On(id, Drained(true), false) && op !in CellOf(w, id).ops
    ensures var w := Run(contents, actions).value;
            id in w.slots && OwnOperation(CellOf(w, id).ops, CellOf(DoProceed(w, op), id).ops, w.slots[id].modeEpoch)
  {
    InvAlways(contents, actions);
    var w := Run(contents, actions).value;
    assert ViewInv(Look(w, id), w.clock);
    DrainOwns(w, id, op);
  }

  /** Exactly one operation is under way, of this epoch exactly if none was before. */
  predicate OwnOperation(before: map<OpId, DrainOp>, after: map<OpId, DrainOp>, epoch: nat) {
    && OneUnderway(after) && (exists o <- after :: after[o].phase == Underway)
    && forall o <- after :: after[o].phase == Underway ==>
         (after[o].epoch == epoch <==> forall p <- before :: before[p].phase != Underway)
  }

  lemma DrainOwns(w: World, id: BackendId, op: OpId)
    requires w.command == On(id, Drained(true), false) && op !in CellOf(w, id).ops && id in w.slots
    requires OneUnderway(CellOf(w, id).ops) && forall o <- CellOf(w, id).ops :: CellOf(w, id).ops[o].epoch < w.slots[id].modeEpoch
    ensures OwnOperation(CellOf(w, id).ops, CellOf(DoProceed(w, op), id).ops, w.slots[id].modeEpoch)
  {
    EnsureLooks(w, id);
    FinishOwns(Look(EnsureAll(w), id), op);
    DrainEndCell(w, id, op);
  }

  lemma DrainEndCell(w: World, id: BackendId, op: OpId)
    requires w.command == On(id, Drained(true), false) && Look(w, id).slot.Some?
    ensures CellOf(DoProceed(w, op), id) == FinishDrain(Look(EnsureAll(w), id), op).cell
  {
    DrainEndsAs(w, op);
  }

  lemma FinishOwns(v: View, op: OpId)
    requires v.slot.Some? && v == Ensure(v) && OneUnderway(v.cell.ops) && op !in v.cell.ops
    requires forall o <- v.cell.ops :: v.cell.ops[o].epoch < v.slot.value.modeEpoch
    ensures OwnOperation(v.cell.ops, FinishDrain(v, op).cell.ops, v.slot.value.modeEpoch)
  {
    var after := FinishDrain(v, op).cell.ops;
    if !(exists o <- v.cell.ops :: v.cell.ops[o].phase == Underway) {
      assert after[op].phase == Underway;
    }
  }

  /** Operations and requests exist only in a serving process. */
  lemma OnlyServingHasWork(w: World, id: BackendId)
    requires ProcessInv(w) && (CellOf(w, id).ops != map[] || CellOf(w, id).flights != map[])
    ensures w.process == Serving
  {
  }

  /** Whenever the lifecycle lock is free, every registered slot is in the mode the
    * overlay stores for it, a missing entry meaning active. */
  lemma ModesAgree(contents: Contents, actions: seq<Action>, id: BackendId)
    requires Loadable(contents) && Run(contents, actions).Some?
    requires var w := Run(contents, actions).value; w.process == Serving && w.command == Idle
    ensures var w := Run(contents, actions).value;
            id in w.slots && w.slots[id].registered ==> w.slots[id].mode == ModeOf(w.store.overlay, id)
  {
    InvAlways(contents, actions);
    var w := Run(contents, actions).value;
    assert ViewInv(Look(w, id), w.clock);
  }

  /** From its routing to its end a request's backend keeps endpoints and generation, and
    * the live state that hears its outcome is the one that issued its permit. */
  lemma RequestsIsolated(contents: Contents, actions: seq<Action>, id: BackendId, f: FlightId)
    requires Loadable(contents) && Run(contents, actions).Some?
    requires f in CellOf(Run(contents, actions).value, id).flights
    ensures var w := Run(contents, actions).value;
            var (flight, instance) := (CellOf(w, id).flights[f], InstanceOf(w.published, id));
            && id in w.slots && w.slots[id].registered && flight.lease.key in w.slots[id].leases
            && id in w.live && w.live[id].generation == flight.generation
            && instance.Some? && instance.value.generation == flight.generation
            && flight.endpoints == Some(instance.value.config.endpoints)
            && flight.lease.spec.endpoint == instance.value.config.endpoints.url
  {
    InvAlways(contents, actions);
    var w := Run(contents, actions).value;
    OnlyServingHasWork(w, id);
    assert ViewInv(Look(w, id), w.clock);
  }

  /** Every lease a slot counts belongs to exactly one request under way. */
  lemma LeasesAreRequests(contents: Contents, actions: seq<Action>, id: BackendId)
    requires Loadable(contents) && Run(contents, actions).Some?
    requires Run(contents, actions).value.process == Serving && id in Run(contents, actions).value.slots
    ensures var w := Run(contents, actions).value;
            LeasesMatch(w.slots[id].leases, CellOf(w, id).flights)
  {
    InvAlways(contents, actions);
    var w := Run(contents, actions).value;
    assert ViewInv(Look(w, id), w.clock);
  }

  /** In the whole system, too, a half-open circuit has one trial, and permits and
    * observers of the current epoch exist only while it is closed. */
  lemma TrialsAreSingle(contents: Contents, actions: seq<Action>, id: BackendId)
    requires Loadable(contents) && Run(contents, actions).Some?
    requires Run(contents, actions).value.process == Serving && id in Run(contents, actions).value.live
    ensures var w := Run(contents, actions).value;
            C.TicketsInv(w.live[id], Tickets(CellOf(w, id).flights))
  {
    InvAlways(contents, actions);
    var w := Run(contents, actions).value;
    assert ViewInv(Look(w, id), w.clock);
  }

  /** In the whole system, too, the load of a backend is never understated: its stored
    * observation is the latest accepted reply, and the sequences counted against it are
    * at least the leases granted since that scrape was sent. */
  lemma LoadIsConservative(contents: Contents, actions: seq<Action>, id: BackendId)
    requires Loadable(contents) && Run(contents, actions).Some?
    requires var w := Run(contents, actions).value;
             w.process == Serving && id in w.live && id in w.slots && w.live[id].observation.Some?
    ensures var w := Run(contents, actions).value;
            var (o, last) := (w.live[id].observation.value, S.LastReply(CellOf(w, id).accepted));
            && last.Some? && last.value in CellOf(w, id).accepted && S.Increasing(CellOf(w, id).accepted)
            && o.serial == last.value.Serial() <= w.live[id].lastCompleted <= w.live[id].scrapesStarted
            && NewSequences(w.slots[id], o) >= w.slots[id].totalAcquired - last.value.sent.issued
  {
    InvAlways(contents, actions);
    var w := Run(contents, actions).value;
    assert ViewInv(Look(w, id), w.clock);
    S.LastReplyIn(CellOf(w, id).accepted);
  }
}
