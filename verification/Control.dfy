/** The commands of the control plane (src/control.rs) over the objects they change.
  * Each runs under the lifecycle lock; undisturbed by requests and probes, it is the
  * sequence of its steps in the transition system of `Lifecycle`.
  */
module Control {
  import opened Wrappers
  import opened Backend
  import opened BackendState
  import opened Runtime
  import opened Telemetry
  import opened Routing
  import opened BackendView
  import opened Lifecycle
  import opened LifecycleSafety
  import S = Scrapes

  datatype ControlError = NotFound | Conflict | Internal

  datatype Operation = Operation(backend: BackendId, startedScrapes: nat, phase: Phase)

  /** What the control plane's objects hold beside the operations. */
  datatype Plane = Plane(published: Runtime.Published, slots: map<BackendId, Slot>, live: map<BackendId, Live>, store: Store)
  {
    function Refreshed(): Plane { this.(live := Ensured(live, Instances(published))) }

    predicate Registered(id: BackendId) { id in slots && slots[id].registered }

    /** The status of a backend exists while it is registered and configured. */
    predicate HasStatus(id: BackendId) {
      Registered(id) && InstanceOf(published, id).Some? && id in live && live[id].generation == InstanceOf(published, id).value.generation
    }

    /** The lifecycle lock is free: every registered slot is in its stored mode. */
    ghost predicate Agrees() {
      forall id <- slots :: slots[id].registered ==> slots[id].mode == ModeOf(store.overlay, id)
    }
  }

  /** A drain closes the gate first and then writes the fence; if that fails the gate is
    * put back as it was. */
  function DrainPlane(p: Plane, id: BackendId, outcome: Outcome): (Plane, bool)
    requires id in p.slots
  {
    var before, closed := p.slots[id].mode, SetMode(p.slots[id], Draining);
    if before == Draining then (p, true)
    else
      var (store, ok) := StoreMode(p.store, id, Draining, outcome);
      if ok then (p.(slots := p.slots[id := closed], store := store), true)
      else (p.(slots := p.slots[id := SetMode(closed, before)], store := store), false)
  }

  /** The other commands write first and then change the gate. */
  function WritePlane(p: Plane, id: BackendId, mode: Mode, outcome: Outcome): (Plane, bool)
    requires id in p.slots
  {
    var (store, ok) := StoreMode(p.store, id, mode, outcome);
    if ok then (p.(slots := p.slots[id := SetMode(p.slots[id], mode)], store := store), true)
    else (p.(store := store), false)
  }

  predicate MayActivate(p: Plane, id: BackendId, now: nat, settings: Settings) {
    p.HasStatus(id) && p.slots[id].mode == Disabled && p.live[id].readiness == Ready && TelemetryAt(p.live[id], now, settings) == Fresh
  }

  /** The idle-path test of a drain. */
  predicate IdleAfter(p: Plane, id: BackendId, started: nat, now: nat, settings: Settings) {
    && p.HasStatus(id) && p.slots[id].mode == Draining && p.slots[id].leases == {}
    && TelemetryAt(p.live[id], now, settings) == Fresh && EngineIdle(p.live[id].observation.value.metrics)
    && S.IdleSamples(p.live[id], started) >= 2
  }

  /** The same in the numbers the proxy holds: no request, no running or waiting sequence in
    * a fresh observation, and two idle results in a row since the operation started. */
  predicate NothingLeft(p: Plane, id: BackendId, started: nat, now: nat, settings: Settings) {
    && p.HasStatus(id) && p.slots[id].mode == Draining && p.slots[id].leases == {}
    && var l := p.live[id];
       && l.observation.Some? && now <= l.observation.value.observedAt + settings.staleAfter
       && l.observation.value.metrics.running == 0 && l.observation.value.metrics.waiting == 0
       && l.idleStreak >= 2 && l.observation.value.serial >= started + 2
  }

  lemma IdleMeans(p: Plane, id: BackendId, started: nat, now: nat, settings: Settings)
    ensures IdleAfter(p, id, started, now, settings) <==> NothingLeft(p, id, started, now, settings)
  {
  }

  predicate UnderWay(operations: map<OpId, Operation>, id: BackendId) {
    exists o <- operations :: operations[o].backend == id && operations[o].phase == Underway
  }

  /** Join the operation under way for this backend, or start one. */
  function DrainOperations(operations: map<OpId, Operation>, p: Plane, id: BackendId, newOp: OpId): map<OpId, Operation> {
    if UnderWay(operations, id) then operations
    else operations[newOp := Operation(id, if p.HasStatus(id) then p.live[id].scrapesStarted else 0, Underway)]
  }

  predicate Extends(before: map<OpId, Operation>, after: map<OpId, Operation>) {
    forall o <- before :: o in after && after[o] == before[o]
  }

  lemma UnderWayStays(before: map<OpId, Operation>, after: map<OpId, Operation>)
    requires Extends(before, after)
    ensures forall id :: UnderWay(before, id) ==> UnderWay(after, id)
  {
    forall id | UnderWay(before, id) ensures UnderWay(after, id) {
      var o :| o in before && before[o].backend == id && before[o].phase == Underway;
      assert after[o] == before[o];
    }
  }

  /** Every backend done has an operation under way, and the names of the others are free. */
  ghost predicate Resumed(operations: map<OpId, Operation>, newOps: map<BackendId, OpId>, all: set<BackendId>, todo: set<BackendId>) {
    && (forall id <- all - todo :: UnderWay(operations, id))
    && (forall id <- todo :: id in newOps && newOps[id] !in operations)
  }

  lemma ResumeOne(before: map<OpId, Operation>, p: Plane, newOps: map<BackendId, OpId>, all: set<BackendId>, todo: set<BackendId>,
                  id: BackendId, after: map<OpId, Operation>)
    requires Resumed(before, newOps, all, todo) && id in todo
    requires forall i, j | i in newOps && j in newOps && i != j :: newOps[i] != newOps[j]
    requires after == DrainOperations(before, p, id, newOps[id])
    ensures Resumed(after, newOps, all, todo - {id}) && Extends(before, after)
  {
    assert Extends(before, after);
    UnderWayStays(before, after);
    if !UnderWay(before, id) {
      assert after[newOps[id]].backend == id;
    }
    assert UnderWay(after, id);
  }

  /** The phase after one round of a drain's task. */
  function Verdict(p: Plane, o: Operation, now: nat, settings: Settings, outcome: Outcome): Phase {
    if ObservedPhase(p, o.backend) != Underway then ObservedPhase(p, o.backend)
    else if !IdleAfter(p, o.backend, o.startedScrapes, now, settings) then Underway
    else if WritePlane(p, o.backend, Disabled, outcome).1 then CompleteIdle
    else Failed
  }

  function ObservedPhase(p: Plane, id: BackendId): Phase {
    if !p.HasStatus(id) then Failed
    else if p.slots[id].mode == Disabled then CompleteDisabled
    else if p.slots[id].mode == Active then Cancelled
    else Underway
  }

  /** The verdict in plain terms: idle completion exactly if nothing is left and the fence is
    * written, and otherwise what the mode says. */
  lemma VerdictMeans(p: Plane, o: Operation, now: nat, settings: Settings, outcome: Outcome)
    ensures var (status, left) := (p.HasStatus(o.backend), !NothingLeft(p, o.backend, o.startedScrapes, now, settings));
            var (ok, phase) := (!left && StoreMode(p.store, o.backend, Disabled, outcome).1, Verdict(p, o, now, settings, outcome));
            && (phase == CompleteIdle <==> ok)
            && (phase == Underway <==> status && p.slots[o.backend].mode == Draining && left)
            && (phase == CompleteDisabled <==> status && p.slots[o.backend].mode == Disabled)
            && (phase == Cancelled <==> status && p.slots[o.backend].mode == Active)
            && (phase == Failed <==> !status || (!left && !ok))
  {
    IdleMeans(p, o.backend, o.startedScrapes, now, settings);
  }

  lemma RefreshTwice(p: Plane)
    ensures p.Refreshed().Refreshed() == p.Refreshed()
  {
  }

  class ControlState {
    const runtime: RuntimeState
    const routing: RoutingState
    const store: BackendStateStore
    var operations: map<OpId, Operation>

    ghost predicate Valid()
      reads runtime, runtime.registry
    {
      runtime.Valid()
    }

    ghost function View(): Plane
      reads runtime, runtime.registry, runtime.registry.slots.Values, routing, store
    {
      Plane(runtime.PublishedView(), runtime.registry.View(), routing.backends, store.View())
    }

    constructor (runtime: RuntimeState, routing: RoutingState, store: BackendStateStore)
      ensures this.runtime == runtime && this.routing == routing && this.store == store && operations == map[]
    {
      this.runtime, this.routing, this.store, operations := runtime, routing, store, map[];
    }

    method Refresh()
      modifies routing`backends
      ensures View() == old(View()).Refreshed()
    {
      routing.EnsureBackends(Instances(runtime.PublishedView()));
    }

    /** Join the operation under way for this backend, or start one. */
    method EnsureDrainOperation(id: BackendId, newOp: OpId) returns (op: OpId)
      requires Valid() && newOp !in operations
      modifies this, routing`backends
      ensures op in operations && operations[op].backend == id && operations[op].phase == Underway
      ensures operations == DrainOperations(old(operations), old(View()).Refreshed(), id, newOp)
      ensures View() == if op == newOp then old(View()).Refreshed() else old(View())
      ensures op == newOp <==> !UnderWay(old(operations), id)
    {
      if exists o <- operations :: operations[o].backend == id && operations[o].phase == Underway {
        op :| op in operations && operations[op].backend == id && operations[op].phase == Underway;
        return;
      }
      Refresh();
      var status := Status(id);
      operations := operations[newOp := Operation(id, if status.Some? then status.value.scrapesStarted else 0, Underway)];
      op := newOp;
    }

    method BeginDrain(id: BackendId, newOp: OpId, outcome: Outcome) returns (r: Result<OpId, ControlError>)
      requires Valid() && newOp !in operations
      modifies this, routing`backends, store, runtime.registry.slots.Values
      ensures Valid()
      ensures !old(View()).Registered(id) ==> r == Err(NotFound) && View() == old(View()) && operations == old(operations)
      ensures old(View()).Registered(id) ==>
                var (after, ok) := DrainPlane(old(View()), id, outcome);
                && (r.Ok? <==> ok) && View().slots == after.slots && View().store == after.store
                && (r.Ok? ==> r.value in operations && operations[r.value].backend == id && operations[r.value].phase == Underway
                              && operations == DrainOperations(old(operations), after.Refreshed(), id, newOp))
                && (r.Err? ==> r.error == Internal && operations == old(operations) && View() == after)
    {
      var found := runtime.registry.Get(id);
      if found.None? {
        return Err(NotFound);
      }
      if runtime.registry.slots[id].mode != Draining {
        var ok := CloseAndWrite(id, outcome);
        if !ok {
          return Err(Internal);
        }
      }
      var op := EnsureDrainOperation(id, newOp);
      r := Ok(op);
    }

    /** Close the gate, then write the fence. */
    method CloseAndWrite(id: BackendId, outcome: Outcome) returns (ok: bool)
      requires Valid() && id in runtime.registry.slots && runtime.registry.slots[id].mode != Draining
      modifies store, runtime.registry.slots[id]
      ensures Valid() && (store.View(), ok) == StoreMode(old(store.View()), id, Draining, outcome)
      ensures var slots := old(runtime.registry.View());
              var closed := SetMode(slots[id], Draining);
              runtime.registry.View() == slots[id := if ok then closed else SetMode(closed, slots[id].mode)]
    {
      var before := runtime.registry.slots[id].mode;
      ghost var slots := runtime.registry.View();
      runtime.ApplyMode(id, Draining);
      UpdateTwice(slots, id, SetMode(slots[id], Draining), SetMode(SetMode(slots[id], Draining), before));
      ok := WriteFence(id, before, outcome);
    }

    /** The gate is closed: write the fence, or reopen the gate. */
    method WriteFence(id: BackendId, before: Mode, outcome: Outcome) returns (ok: bool)
      requires Valid() && id in runtime.registry.slots
      modifies store, runtime.registry.slots[id]
      ensures Valid() && (store.View(), ok) == StoreMode(old(store.View()), id, Draining, outcome)
      ensures runtime.registry.View() == if ok then old(runtime.registry.View())
                                         else old(runtime.registry.View())[id := SetMode(old(runtime.registry.View())[id], before)]
    {
      ok := store.SetStoredMode(id, Draining, outcome);
      if !ok {
        runtime.ApplyMode(id, before);
      }
    }

    method Activate(id: BackendId, now: nat, settings: Settings, outcome: Outcome) returns (r: Result<Mode, ControlError>)
      requires Valid()
      modifies routing`backends, store, runtime.registry.slots.Values
      ensures Valid()
      ensures var p := old(View()).Refreshed();
              && (!p.HasStatus(id) ==> r == Err(NotFound) && View() == p)
              && (p.HasStatus(id) && p.slots[id].mode == Active ==> r == Ok(Active) && View() == p)
              && (p.HasStatus(id) && p.slots[id].mode != Active && !MayActivate(p, id, now, settings) ==> r == Err(Conflict) && View() == p)
              && (MayActivate(p, id, now, settings) ==>
                    View() == WritePlane(p, id, Active, outcome).0
                    && r == if WritePlane(p, id, Active, outcome).1 then Ok(Active) else Err(Internal))
      ensures var p := old(View()).Refreshed();
              p.HasStatus(id) && p.slots[id].mode == Disabled ==>
                var l := p.live[id];
                r == Err(Conflict) <==>
                  l.readiness != Ready || l.observation.None? || now > l.observation.value.observedAt + settings.staleAfter
    {
      Refresh();
      var status := Status(id);
      if status.None? {
        return Err(NotFound);
      }
      var slot := runtime.registry.slots[id];
      match slot.mode {
        case Active => return Ok(Active);
        case Draining => return Err(Conflict);
        case Disabled =>
      }
      if status.value.readiness != Ready {
        return Err(Conflict);
      }
      if TelemetryAt(status.value, now, settings) != Fresh {
        return Err(Conflict);
      }
      r := WriteThenSet(id, Active, outcome);
    }

    /** The live state behind a backend's status. */
    method Status(id: BackendId) returns (status: Option<Live>)
      ensures status == if View().HasStatus(id) then Some(View().live[id]) else None
      ensures status.Some? ==> id in runtime.registry.slots
    {
      var slot := runtime.registry.Get(id);
      var instance := InstanceOf(runtime.PublishedView(), id);
      if slot.Some? && instance.Some? && id in routing.backends && routing.backends[id].generation == instance.value.generation {
        return Some(routing.backends[id]);
      }
      status := None;
    }

    method WriteThenSet(id: BackendId, mode: Mode, outcome: Outcome) returns (r: Result<Mode, ControlError>)
      requires Valid() && id in runtime.registry.slots
      modifies store, runtime.registry.slots[id]
      ensures Valid() && View() == WritePlane(old(View()), id, mode, outcome).0
      ensures r == if WritePlane(old(View()), id, mode, outcome).1 then Ok(mode) else Err(Internal)
    {
      var ok := store.SetStoredMode(id, mode, outcome);
      if !ok {
        return Err(Internal);
      }
      runtime.ApplyMode(id, mode);
      r := Ok(mode);
    }

    method Disable(id: BackendId, force: bool, outcome: Outcome) returns (r: Result<Mode, ControlError>)
      requires Valid()
      modifies routing`backends, store, runtime.registry.slots.Values
      ensures Valid()
      ensures var p := old(View()).Refreshed();
              && (!p.HasStatus(id) ==> r == Err(NotFound) && View() == p)
              && (p.HasStatus(id) && p.slots[id].mode == Disabled ==> r == Ok(Disabled) && View() == p)
              && (p.HasStatus(id) && p.slots[id].mode != Disabled && !force && p.slots[id].leases != {} ==> r == Err(Conflict) && View() == p)
              && (p.HasStatus(id) && p.slots[id].mode != Disabled && (force || p.slots[id].leases == {}) ==>
                    View() == WritePlane(p, id, Disabled, outcome).0
                    && r == if WritePlane(p, id, Disabled, outcome).1 then Ok(Disabled) else Err(Internal))
    {
      Refresh();
      var status := Status(id);
      if status.None? {
        return Err(NotFound);
      }
      var slot := runtime.registry.slots[id];
      if slot.mode == Disabled {
        return Ok(Disabled);
      }
      if !force && slot.leases != {} {
        return Err(Conflict);
      }
      r := WriteThenSet(id, Disabled, outcome);
    }

    /** The end of an idle drain, under the lock: test again, write, close, report. */
    method ConfirmDrain(op: OpId, now: nat, settings: Settings, outcome: Outcome) returns (done: bool)
      requires Valid() && op in operations && operations[op].phase == Underway
      modifies this, routing`backends, store, runtime.registry.slots.Values
      ensures Valid()
      ensures var p := old(View()).Refreshed();
              var id := old(operations)[op].backend;
              && (done <==> IdleAfter(p, id, old(operations)[op].startedScrapes, now, settings))
              && (done <==> NothingLeft(p, id, old(operations)[op].startedScrapes, now, settings))
              && (!done ==> View() == p && operations == old(operations))
              && (done ==>
                    && View() == WritePlane(p, id, Disabled, outcome).0
                    && operations == old(operations)[op := old(operations)[op].(phase :=
                         if WritePlane(p, id, Disabled, outcome).1 then CompleteIdle else Failed)])
    {
      Refresh();
      var id := operations[op].backend;
      done := TestIdle(id, operations[op].startedScrapes, now, settings);
      IdleMeans(View(), id, operations[op].startedScrapes, now, settings);
      if done {
        CompleteDrain(op, outcome);
      }
    }

    /** Write, close, report. */
    method CompleteDrain(op: OpId, outcome: Outcome)
      requires Valid() && op in operations && operations[op].backend in runtime.registry.slots
      modifies this`operations, store, runtime.registry.slots.Values
      ensures Valid()
      ensures var (q, ok) := WritePlane(old(View()), old(operations)[op].backend, Disabled, outcome);
              View() == q && operations == old(operations)[op := old(operations)[op].(phase := if ok then CompleteIdle else Failed)]
    {
      var r := WriteThenSet(operations[op].backend, Disabled, outcome);
      operations := operations[op := operations[op].(phase := if r.Ok? then CompleteIdle else Failed)];
    }

    /** One round of a drain's task: the backend is gone, no longer draining, idle, or the
      * drain goes on. */
    method DriveDrain(op: OpId, now: nat, settings: Settings, outcome: Outcome)
      requires Valid() && op in operations && operations[op].phase == Underway
      modifies this, routing`backends, store, runtime.registry.slots.Values
      ensures Valid()
      ensures operations == old(operations)[op := old(operations)[op].(phase :=
                Verdict(old(View()).Refreshed(), old(operations)[op], now, settings, outcome))]
      ensures var (p, o) := (old(View()).Refreshed(), old(operations)[op]);
              View() == if IdleAfter(p, o.backend, o.startedScrapes, now, settings) then WritePlane(p, o.backend, Disabled, outcome).0 else p
    {
      Refresh();
      RefreshTwice(old(View()));
      var phase := Observe(operations[op].backend);
      if phase != Underway {
        EndOperation(op, phase);
      } else {
        SameUpdate(operations, op);
        var _ := ConfirmDrain(op, now, settings, outcome);
      }
    }

    /** What the status alone says of a drain. */
    method Observe(id: BackendId) returns (phase: Phase)
      ensures phase == ObservedPhase(View(), id)
    {
      var status := Status(id);
      if status.None? {
        return Failed;
      }
      match runtime.registry.slots[id].mode {
        case Disabled => phase := CompleteDisabled;
        case Active => phase := Cancelled;
        case Draining => phase := Underway;
      }
    }

    method EndOperation(op: OpId, phase: Phase)
      requires op in operations
      modifies this`operations
      ensures operations == old(operations)[op := old(operations)[op].(phase := phase)]
    {
      operations := operations[op := operations[op].(phase := phase)];
    }

    /** Every registered backend that drains has an operation under way. */
    method ResumePersistedDrains(newOps: map<BackendId, OpId>)
      requires Valid() && runtime.registry.slots.Keys <= newOps.Keys
      requires forall i <- newOps :: newOps[i] !in operations
      requires forall i, j | i in newOps && j in newOps && i != j :: newOps[i] != newOps[j]
      modifies this, routing`backends
      ensures View().slots == old(View()).slots
      ensures forall id <- View().slots :: View().slots[id].registered && View().slots[id].mode == Draining ==> UnderWay(operations, id)
      ensures Extends(old(operations), operations)
    {
      var todo := set id | id in runtime.registry.slots && runtime.registry.slots[id].registered && runtime.registry.slots[id].mode == Draining;
      ghost var all := todo;
      while todo != {}
        invariant todo <= all && Resumed(operations, newOps, all, todo)
        invariant Extends(old(operations), operations)
        invariant View().slots == old(View()).slots
        decreases |todo|
      {
        var id :| id in todo;
        ghost var (before, plane) := (operations, View().Refreshed());
        var _ := EnsureDrainOperation(id, newOps[id]);
        ResumeOne(before, plane, newOps, all, todo, id, operations);
        todo := todo - {id};
      }
    }

    method TestIdle(id: BackendId, started: nat, now: nat, settings: Settings) returns (idle: bool)
      ensures idle <==> IdleAfter(View(), id, started, now, settings)
    {
      var status := Status(id);
      if status.None? {
        return false;
      }
      var slot := runtime.registry.slots[id];
      if slot.mode != Draining || slot.leases != {} || TelemetryAt(status.value, now, settings) != Fresh {
        return false;
      }
      idle := EngineIdle(status.value.observation.value.metrics) && S.IdleSamples(status.value, started) >= 2;
    }
  }

  // ---- What the commands keep ----

  lemma DrainAgrees(p: Plane, id: BackendId, outcome: Outcome)
    requires p.Agrees() && p.Registered(id)
    ensures DrainPlane(p, id, outcome).0.Agrees()
    ensures var (q, ok) := DrainPlane(p, id, outcome);
            && (ok ==> q.slots[id].mode == Draining && ModeOf(q.store.overlay, id) == Draining)
            && (!ok ==> q.slots[id].mode == p.slots[id].mode && q.store.overlay == p.store.overlay && q.slots[id].leases == p.slots[id].leases)
  {
  }

  lemma WriteAgrees(p: Plane, id: BackendId, mode: Mode, outcome: Outcome)
    requires p.Agrees() && p.Registered(id)
    ensures WritePlane(p, id, mode, outcome).0.Agrees()
    ensures var (q, ok) := WritePlane(p, id, mode, outcome);
            && (ok ==> q.slots[id].mode == mode && ModeOf(q.store.overlay, id) == mode)
            && (!ok ==> q.slots == p.slots && q.store.overlay == p.store.overlay)
  {
  }

  // ---- A command is its steps, undisturbed ----

  function PlaneOf(w: World): Plane { Plane(w.published, w.slots, w.live, w.store) }

  function DrainSteps(w: World, id: BackendId, outcome: Outcome, op: OpId): World {
    var closed := DoDrain(w, id);
    if !closed.command.On? then closed
    else if closed.command.role.Drained? then DoProceed(closed, op)
    else if Target(closed.command.role).None? then closed
    else
      var saved := DoSaveEnds(closed, outcome);
      if !saved.command.On? then saved
      else if saved.command.role.Closing? then DoReopenGate(saved)
      else if Proceeds(saved.command.role) then DoProceed(saved, op)
      else saved
  }

  function WriteSteps(started: World, outcome: Outcome): World {
    if !started.command.On? || Target(started.command.role).None? then started
    else
      var saved := DoSaveEnds(started, outcome);
      if saved.command.On? && Proceeds(saved.command.role) then DoProceed(saved, 0) else saved
  }

  lemma UpdateTwice<K, V>(m: map<K, V>, k: K, v: V, w: V)
    ensures m[k := v][k := w] == m[k := w] && m[k := v][k] == v
  {
  }

  lemma SameUpdate<K, V>(m: map<K, V>, k: K)
    requires k in m
    ensures m[k := m[k]] == m
  {
  }

  /** The end of a write, for a command which then changes the mode. */
  lemma SaveIsWrite(started: World, id: BackendId, role: Role, outcome: Outcome)
    requires started.command == On(id, role, true) && (role.Disabling? || role == Activating) && id in started.slots && id in started.live
    ensures var mode := Target(role).value;
            var (store, ok) := StoreMode(started.store, id, mode, outcome);
            var saved := DoSaveEnds(started, outcome);
            && PlaneOf(saved) == PlaneOf(started).(store := store)
            && saved.command == if ok then On(id, if role.Disabling? then DisableSaved(role.quiet) else ActivateSaved, false) else Idle
  {
    SameUpdate(started.slots, id);
    SameUpdate(started.live, id);
  }

  lemma ProceedIsMode(saved: World, id: BackendId, mode: Mode)
    requires id in saved.slots && id in saved.live
    requires (mode == Disabled && saved.command.On? && saved.command.id == id && saved.command.role.DisableSaved?) || (mode == Active && saved.command == On(id, ActivateSaved, false))
    ensures PlaneOf(DoProceed(saved, 0)) == PlaneOf(saved).(slots := saved.slots[id := SetMode(saved.slots[id], mode)])
  {
    SameUpdate(saved.live, id);
  }

  /** Undisturbed, the steps of a disable have the effect of the command ... */
  lemma DisableIsSteps(w: World, id: BackendId, force: bool, outcome: Outcome)
    requires w.command == Lifecycle.Idle && PlaneOf(EnsureAll(w)).HasStatus(id)
    requires w.slots[id].mode != Disabled && (force || w.slots[id].leases == {})
    ensures PlaneOf(WriteSteps(DoDisable(w, id, force), outcome)) == WritePlane(PlaneOf(EnsureAll(w)), id, Disabled, outcome).0
  {
    var started := DoDisable(w, id, force);
    var role := Disabling(Quiet(Look(EnsureAll(w), id)));
    assert started.command == On(id, role, true) && PlaneOf(started) == PlaneOf(EnsureAll(w));
    SaveIsWrite(started, id, role, outcome);
    if StoreMode(started.store, id, Disabled, outcome).1 {
      ProceedIsMode(DoSaveEnds(started, outcome), id, Disabled);
    }
  }

  /** ... so have those of an activation ... */
  lemma ActivateIsSteps(w: World, id: BackendId, now: nat, settings: Settings, outcome: Outcome)
    requires w.command == Lifecycle.Idle && MayActivate(PlaneOf(EnsureAll(w)), id, now, settings)
    ensures PlaneOf(WriteSteps(DoActivate(w, id, now, settings), outcome)) == WritePlane(PlaneOf(EnsureAll(w)), id, Active, outcome).0
  {
    ActivationStarts(w, id, now, settings);
    var started := DoActivate(w, id, now, settings);
    SaveIsWrite(started, id, Activating, outcome);
    if StoreMode(started.store, id, Active, outcome).1 {
      ProceedIsMode(DoSaveEnds(started, outcome), id, Active);
    }
  }

  lemma ActivationStarts(w: World, id: BackendId, now: nat, settings: Settings)
    requires w.command == Lifecycle.Idle && MayActivate(PlaneOf(EnsureAll(w)), id, now, settings)
    ensures DoActivate(w, id, now, settings).command == On(id, Activating, true)
    ensures PlaneOf(DoActivate(w, id, now, settings)) == PlaneOf(EnsureAll(w))
  {
    var u := EnsureAll(w);
    SameUpdate(u.slots, id);
    SameUpdate(u.live, id);
  }

  /** The operations of one backend, as the control plane and the transition system keep them. */
  predicate Mirrors(operations: map<OpId, Operation>, id: BackendId, ops: map<OpId, DrainOp>) {
    && (forall o <- ops :: o in operations && operations[o] == Operation(id, ops[o].startedScrapes, ops[o].phase))
    && (forall o <- operations :: operations[o].backend == id ==> o in ops)
  }

  /** ... and those of a drain, on the slots, the store and the operation it starts or joins. */
  lemma DrainIsSteps(w: World, id: BackendId, outcome: Outcome, op: OpId, operations: map<OpId, Operation>)
    requires w.command == Lifecycle.Idle && PlaneOf(w).Registered(id)
    requires Mirrors(operations, id, CellOf(w, id).ops) && op !in operations
    ensures var (x, (q, ok)) := (DrainSteps(w, id, outcome, op), DrainPlane(PlaneOf(w), id, outcome));
            && x.slots == q.slots && x.store == q.store && x.command == Lifecycle.Idle
            && Mirrors(if ok then DrainOperations(operations, q.Refreshed(), id, op) else operations, id, CellOf(x, id).ops)
  {
    if w.slots[id].mode == Draining {
      DrainAgain(w, id, outcome, op);
      AgainMirrors(w, id, outcome, op, operations);
    } else {
      DrainAnew(w, id, outcome, op);
      AnewMirrors(w, id, outcome, op, operations);
    }
  }

  lemma AgainMirrors(w: World, id: BackendId, outcome: Outcome, op: OpId, operations: map<OpId, Operation>)
    requires w.command == Lifecycle.Idle && PlaneOf(w).Registered(id) && w.slots[id].mode == Draining
    requires Mirrors(operations, id, CellOf(w, id).ops) && op !in operations
    ensures var x := DrainSteps(w, id, outcome, op);
            && x.command == Lifecycle.Idle
            && Mirrors(DrainOperations(operations, PlaneOf(w).Refreshed(), id, op), id, CellOf(x, id).ops)
  {
    DrainCloses(w, id);
    ClosedAgain(w, id);
    ProceedMirrors(DoDrain(w, id), id, op, operations);
  }

  lemma ClosedAgain(w: World, id: BackendId)
    requires PlaneOf(w).Registered(id) && w.slots[id].mode == Draining
    ensures PlaneOf(DoDrain(w, id)) == PlaneOf(w).(live := DoDrain(w, id).live)
    ensures DoDrain(w, id).live == w.live && CellOf(DoDrain(w, id), id).ops == CellOf(w, id).ops
  {
    SameUpdate(w.slots, id);
    if id in w.live {
      SameUpdate(w.live, id);
    }
  }

  /** The operation is started or joined alike. */
  lemma ProceedMirrors(w: World, id: BackendId, op: OpId, operations: map<OpId, Operation>)
    requires w.command.On? && w.command.id == id && w.command.role.Drained? && PlaneOf(w).Registered(id)
    requires Mirrors(operations, id, CellOf(w, id).ops) && op !in operations
    ensures Mirrors(DrainOperations(operations, PlaneOf(w).Refreshed(), id, op), id, CellOf(DoProceed(w, op), id).ops)
    ensures DoProceed(w, op).command == Lifecycle.Idle
  {
    DrainEndsAs(w, op);
    EnsureLooks(w, id);
    var ops := CellOf(w, id).ops;
    UnderWayMirrors(operations, id, ops);
    var v := Look(EnsureAll(w), id);
    assert v.cell.ops == ops;
    assert CellOf(DoProceed(w, op), id) == EnsureOp(v, op).cell;
    EnsureOpMirrors(operations, PlaneOf(w).Refreshed(), v, op);
  }

  lemma UnderWayMirrors(operations: map<OpId, Operation>, id: BackendId, ops: map<OpId, DrainOp>)
    requires Mirrors(operations, id, ops)
    ensures UnderWay(operations, id) <==> exists o <- ops :: ops[o].phase == Underway
  {
    if UnderWay(operations, id) {
      var o :| o in operations && operations[o].backend == id && operations[o].phase == Underway;
      assert o in ops && ops[o].phase == Underway;
    }
    if exists o <- ops :: ops[o].phase == Underway {
      var o :| o in ops && ops[o].phase == Underway;
      assert operations[o].backend == id && operations[o].phase == Underway;
    }
  }

  lemma EnsureOpMirrors(operations: map<OpId, Operation>, p: Plane, v: View, op: OpId)
    requires Mirrors(operations, v.id, v.cell.ops) && op !in operations && v.IsRegistered()
    requires v == Ensure(v) && (p.HasStatus(v.id) <==> HasStatus(v)) && (HasStatus(v) ==> p.live[v.id] == v.live.value)
    ensures Mirrors(DrainOperations(operations, p, v.id, op), v.id, EnsureOp(v, op).cell.ops)
  {
    UnderWayMirrors(operations, v.id, v.cell.ops);
  }

  lemma AnewMirrors(w: World, id: BackendId, outcome: Outcome, op: OpId, operations: map<OpId, Operation>)
    requires w.command == Lifecycle.Idle && PlaneOf(w).Registered(id) && w.slots[id].mode != Draining
    requires Mirrors(operations, id, CellOf(w, id).ops) && op !in operations
    ensures var (x, (q, ok)) := (DrainSteps(w, id, outcome, op), DrainPlane(PlaneOf(w), id, outcome));
            && x.command == Lifecycle.Idle
            && Mirrors(if ok then DrainOperations(operations, q.Refreshed(), id, op) else operations, id, CellOf(x, id).ops)
  {
    DrainCloses(w, id);
    var closed, before := DoDrain(w, id), w.slots[id].mode;
    ClosingSaved(closed, id, before, outcome);
    var saved := DoSaveEnds(closed, outcome);
    ClosedOps(w, id);
    SavedOps(closed, id, before, outcome);
    if saved.command.role.Drained? {
      ProceedMirrors(saved, id, op, operations);
    } else {
      ReopenedOps(saved, id);
    }
  }

  lemma ClosedOps(w: World, id: BackendId)
    requires PlaneOf(w).Registered(id)
    ensures var closed := DoDrain(w, id);
            closed.live == w.live && closed.published == w.published && CellOf(closed, id).ops == CellOf(w, id).ops
  {
  }

  lemma SavedOps(w: World, id: BackendId, before: Mode, outcome: Outcome)
    requires w.command == On(id, Closing(before), true)
    ensures var saved := DoSaveEnds(w, outcome);
            saved.live == w.live && saved.published == w.published && CellOf(saved, id).ops == CellOf(w, id).ops
  {
  }

  lemma ReopenedOps(w: World, id: BackendId)
    requires w.command.On? && w.command.id == id && w.command.role.Closing? && id in w.slots
    ensures CellOf(DoReopenGate(w), id).ops == CellOf(w, id).ops && DoReopenGate(w).command == Lifecycle.Idle
  {
  }

  lemma DrainAgain(w: World, id: BackendId, outcome: Outcome, op: OpId)
    requires w.command == Lifecycle.Idle && PlaneOf(w).Registered(id) && w.slots[id].mode == Draining
    ensures DrainSteps(w, id, outcome, op).slots == w.slots && DrainSteps(w, id, outcome, op).store == w.store
  {
    DrainCloses(w, id);
    SameUpdate(w.slots, id);
    DrainProceeds(DoDrain(w, id), id, op);
  }

  lemma DrainAnew(w: World, id: BackendId, outcome: Outcome, op: OpId)
    requires w.command == Lifecycle.Idle && PlaneOf(w).Registered(id) && w.slots[id].mode != Draining
    ensures DrainSteps(w, id, outcome, op).slots == DrainPlane(PlaneOf(w), id, outcome).0.slots
    ensures DrainSteps(w, id, outcome, op).store == DrainPlane(PlaneOf(w), id, outcome).0.store
  {
    DrainCloses(w, id);
    ClosedIsWritten(DoDrain(w, id), id, w.slots[id].mode, outcome, op);
  }

  lemma ClosedIsWritten(closed: World, id: BackendId, before: Mode, outcome: Outcome, op: OpId)
    requires closed.command == On(id, Closing(before), true) && id in closed.slots
    ensures var (store, ok) := StoreMode(closed.store, id, Draining, outcome);
            var saved := DoSaveEnds(closed, outcome);
            && (ok ==> saved.command == On(id, Role.Drained(true), false) && DoProceed(saved, op).slots == closed.slots && DoProceed(saved, op).store == store)
            && (!ok ==> saved.command == On(id, Closing(before), false)
                        && DoReopenGate(saved).slots == closed.slots[id := SetMode(closed.slots[id], before)] && DoReopenGate(saved).store == store)
  {
    ClosingSaved(closed, id, before, outcome);
    var saved := DoSaveEnds(closed, outcome);
    if saved.command.role.Drained? {
      DrainProceeds(saved, id, op);
    } else {
      ClosingReopens(saved, id, before);
    }
  }

  lemma DrainCloses(w: World, id: BackendId)
    requires PlaneOf(w).Registered(id)
    ensures var closed := DoDrain(w, id);
            && closed.store == w.store && closed.slots == w.slots[id := SetMode(w.slots[id], Draining)]
            && closed.command == if w.slots[id].mode == Draining then On(id, Role.Drained(false), false) else On(id, Closing(w.slots[id].mode), true)
  {
  }

  lemma DrainProceeds(w: World, id: BackendId, op: OpId)
    requires w.command.On? && w.command.id == id && w.command.role.Drained? && id in w.slots
    ensures DoProceed(w, op).slots == w.slots && DoProceed(w, op).store == w.store
  {
    SameUpdate(w.slots, id);
  }

  lemma ClosingSaved(w: World, id: BackendId, before: Mode, outcome: Outcome)
    requires w.command == On(id, Closing(before), true) && id in w.slots
    ensures var (store, ok) := StoreMode(w.store, id, Draining, outcome);
            var saved := DoSaveEnds(w, outcome);
            && saved.store == store && saved.slots == w.slots
            && saved.command == (if ok then On(id, Role.Drained(true), false) else On(id, Closing(before), false))
  {
    SameUpdate(w.slots, id);
  }

  lemma ClosingReopens(w: World, id: BackendId, before: Mode)
    requires w.command == On(id, Closing(before), false) && id in w.slots
    ensures DoReopenGate(w).slots == w.slots[id := SetMode(w.slots[id], before)] && DoReopenGate(w).store == w.store
  {
  }

  // ---- The confirmation of a drain ----

  function ConfirmRest(started: World, outcome: Outcome): World {
    if !started.command.On? || Target(started.command.role).None? then started
    else
      var saved := DoSaveEnds(started, outcome);
      if !saved.command.On? || !saved.command.role.ConfirmSaved? then saved
      else
        var applied := DoProceed(saved, 0);
        if applied.command.On? && applied.command.role.Completing? then DoProceed(applied, 0) else applied
  }

  function ConfirmSteps(w: World, id: BackendId, op: OpId, now: nat, settings: Settings, outcome: Outcome): World {
    ConfirmRest(DoConfirm(w, id, op, now, settings), outcome)
  }

  /** The test of the method is the test of the step. */
  lemma ConfirmTests(w: World, id: BackendId, op: OpId, now: nat, settings: Settings)
    requires op in CellOf(w, id).ops && CellOf(w, id).ops[op].phase == Underway
    ensures IdleAfter(PlaneOf(EnsureAll(w)), id, CellOf(w, id).ops[op].startedScrapes, now, settings)
       <==> Confirms(Look(EnsureAll(w), id), op, now, settings)
  {
    EnsureLooks(w, id);
  }

  lemma ConfirmStarts(w: World, id: BackendId, op: OpId, now: nat, settings: Settings)
    requires Confirms(Look(EnsureAll(w), id), op, now, settings)
    ensures var started := DoConfirm(w, id, op, now, settings);
            && started.command == On(id, Confirming(op), true) && PlaneOf(started) == PlaneOf(EnsureAll(w))
            && id in started.slots && id in started.live && SameOps(CellOf(w, id).ops, CellOf(started, id).ops)
  {
    EnsureLooks(w, id);
    var u := EnsureAll(w);
    SameUpdate(u.slots, id);
    SameUpdate(u.live, id);
  }

  /** The evidence a confirmation notes down is history. */
  predicate SameOps(before: map<OpId, DrainOp>, after: map<OpId, DrainOp>) {
    && after.Keys == before.Keys
    && forall o <- before :: after[o].startedScrapes == before[o].startedScrapes && after[o].phase == before[o].phase
  }

  lemma ConfirmSaves(w: World, id: BackendId, op: OpId, outcome: Outcome)
    requires w.command == On(id, Confirming(op), true) && id in w.slots && id in w.live && op in CellOf(w, id).ops
    ensures var (store, ok) := StoreMode(w.store, id, Disabled, outcome);
            var (saved, ops) := (DoSaveEnds(w, outcome), CellOf(w, id).ops);
            && PlaneOf(saved) == PlaneOf(w).(store := store)
            && saved.command == (if ok then On(id, ConfirmSaved(op), false) else Lifecycle.Idle)
            && CellOf(saved, id).ops == if ok then ops else ops[op := ops[op].(phase := Failed)]
  {
    SameUpdate(w.slots, id);
    SameUpdate(w.live, id);
  }

  lemma ConfirmApplies(w: World, id: BackendId, op: OpId)
    requires w.command == On(id, ConfirmSaved(op), false) && id in w.slots && id in w.live
    ensures var applied := DoProceed(w, 0);
            && PlaneOf(applied) == PlaneOf(w).(slots := w.slots[id := SetMode(w.slots[id], Disabled)])
            && applied.command == On(id, Completing(op), false) && CellOf(applied, id).ops == CellOf(w, id).ops
  {
    SameUpdate(w.live, id);
  }

  lemma ConfirmCompletes(w: World, id: BackendId, op: OpId)
    requires w.command == On(id, Completing(op), false) && id in w.slots && id in w.live && op in CellOf(w, id).ops
    ensures var (done, ops) := (DoProceed(w, 0), CellOf(w, id).ops);
            && PlaneOf(done) == PlaneOf(w) && done.command == Lifecycle.Idle
            && CellOf(done, id).ops == ops[op := ops[op].(phase := CompleteIdle)]
  {
    SameUpdate(w.slots, id);
    SameUpdate(w.live, id);
  }

  lemma SameOpsMirror(operations: map<OpId, Operation>, id: BackendId, before: map<OpId, DrainOp>, after: map<OpId, DrainOp>)
    requires Mirrors(operations, id, before) && SameOps(before, after)
    ensures Mirrors(operations, id, after)
  {
  }

  lemma PhaseMirrors(operations: map<OpId, Operation>, id: BackendId, ops: map<OpId, DrainOp>, op: OpId, phase: Phase)
    requires Mirrors(operations, id, ops) && op in ops
    ensures Mirrors(operations[op := operations[op].(phase := phase)], id, ops[op := ops[op].(phase := phase)])
  {
  }

  /** What the method makes of the plane and of the operation. */
  predicate Concluded(x: World, p: Plane, id: BackendId, op: OpId, outcome: Outcome, operations: map<OpId, Operation>)
    requires id in p.slots && op in operations
  {
    var (q, ok) := WritePlane(p, id, Disabled, outcome);
    && PlaneOf(x) == q && x.command == Lifecycle.Idle
    && Mirrors(operations[op := operations[op].(phase := if ok then CompleteIdle else Failed)], id, CellOf(x, id).ops)
  }

  lemma ConfirmEnds(w: World, p: Plane, id: BackendId, op: OpId, outcome: Outcome, operations: map<OpId, Operation>)
    requires w.command == On(id, Confirming(op), true) && id in w.slots && id in w.live && p == PlaneOf(w)
    requires Mirrors(operations, id, CellOf(w, id).ops) && op in CellOf(w, id).ops
    ensures Concluded(ConfirmRest(w, outcome), p, id, op, outcome, operations)
  {
    ConfirmSaves(w, id, op, outcome);
    var saved, ops := DoSaveEnds(w, outcome), CellOf(w, id).ops;
    if saved.command.On? {
      ConfirmApplies(saved, id, op);
      ConfirmCompletes(DoProceed(saved, 0), id, op);
      PhaseMirrors(operations, id, ops, op, CompleteIdle);
    } else {
      PhaseMirrors(operations, id, ops, op, Failed);
    }
  }

  /** Undisturbed, the steps of a confirmation have the effect of the method. */
  lemma ConfirmIsSteps(w: World, id: BackendId, op: OpId, now: nat, settings: Settings, outcome: Outcome, operations: map<OpId, Operation>)
    requires w.command == Lifecycle.Idle && Mirrors(operations, id, CellOf(w, id).ops)
    requires op in CellOf(w, id).ops && CellOf(w, id).ops[op].phase == Underway
    requires IdleAfter(PlaneOf(EnsureAll(w)), id, operations[op].startedScrapes, now, settings)
    ensures Concluded(ConfirmSteps(w, id, op, now, settings, outcome), PlaneOf(EnsureAll(w)), id, op, outcome, operations)
  {
    ConfirmTests(w, id, op, now, settings);
    ConfirmStarts(w, id, op, now, settings);
    var started := DoConfirm(w, id, op, now, settings);
    SameOpsMirror(operations, id, CellOf(w, id).ops, CellOf(started, id).ops);
    ConfirmEnds(started, PlaneOf(EnsureAll(w)), id, op, outcome, operations);
  }

  /** So every drain which the method confirms carries the certificate, whichever drain
    * started its operation. */
  lemma ConfirmationCertified(contents: Contents, actions: seq<Action>, id: BackendId, op: OpId, now: nat, settings: Settings)
    requires Loadable(contents) && Run(contents, actions).Some?
    requires var w := Run(contents, actions).value;
             && w.process == Serving && w.command == Lifecycle.Idle && op in CellOf(w, id).ops && CellOf(w, id).ops[op].phase == Underway
             && IdleAfter(PlaneOf(EnsureAll(w)), id, CellOf(w, id).ops[op].startedScrapes, now, settings)
    ensures var x := DoConfirm(Run(contents, actions).value, id, op, now, settings);
            && x.command == On(id, Confirming(op), true) && op in CellOf(x, id).ops
            && id in x.slots && id in EnsureAll(Run(contents, actions).value).live
            && var (o, live) := (CellOf(x, id).ops[op], EnsureAll(Run(contents, actions).value).live[id]);
               && o.evidence.Some? && Certified(o.evidence.value)
               && (AfterFence(o.evidence.value) <==> S.IdleSamples(live, o.evidence.value.fence.scrapes) >= 2)
               && (o.epoch == x.slots[id].modeEpoch ==> AfterFence(o.evidence.value))
  {
    InvAlways(contents, actions);
    var w := Run(contents, actions).value;
    ConfirmTests(w, id, op, now, settings);
    EnsureViews(w);
    var v := Look(EnsureAll(w), id);
    assert ViewInv(v, w.clock);
    ConfirmCertifies(v, op, now, settings, w.clock);
    assert CellOf(DoConfirm(w, id, op, now, settings), id) == Confirm(v, op).cell;
  }
}
