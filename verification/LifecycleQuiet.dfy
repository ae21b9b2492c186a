/** When no request can run on a backend any more: what an operator may conclude about the
  * work in flight from each answer that a backend is fenced.
  */
module LifecycleQuiet {
  import opened Wrappers
  import opened Backend
  import opened BackendState
  import opened Runtime
  import opened Telemetry
  import opened Routing
  import opened BackendView
  import opened Lifecycle
  import opened LifecycleSafety
  import opened LifecycleDurability

  /** No request runs on the backend. */
  predicate Unused(w: World, id: BackendId) { CellOf(w, id).flights == map[] }

  // ---- Every step keeps a secure backend unused ----

  lemma UnusedPut(w: World, v: View, w': World, id: BackendId)
    requires Unused(w, id) && w'.cells == Put(w, v).cells && (v.id == id ==> v.cell.flights == map[])
    ensures Unused(w', id)
  {
  }

  lemma UnusedEnsure(w: World, id: BackendId)
    requires Unused(w, id)
    ensures Unused(EnsureAll(w), id)
  {
  }

  /** A closed gate grants no lease. */
  lemma RouteUnused(w: World, i: BackendId, f: FlightId, now: nat, id: BackendId)
    requires Unused(w, id) && LifecycleDurability.Closed(w, id)
    ensures Unused(DoRoute(w, i, f, now), id)
  {
    UnusedPut(w, TakeRoute(Look(w, i), f, now), DoRoute(w, i, f, now), id);
  }

  lemma RequestUnused(w: World, a: Action, id: BackendId)
    requires ServingEnabled(w, a) && Unused(w, id) && (a.Respond? || a.Finish?)
    ensures Unused(StepTraffic(w, a), id)
  {
    var v := Look(w, a.id);
    match a
    case Respond(i, f, how, now) => UnusedPut(w, Settle(v, f, how, now), StepTraffic(w, a), id);
    case Finish(i, f, how, now) => UnusedPut(w, EndFlight(Settle(v, f, how, now), f), StepTraffic(w, a), id);
  }

  lemma SendUnused(w: World, i: BackendId, generation: nat, now: nat, id: BackendId)
    requires Unused(w, id)
    ensures Unused(DoSend(w, i, generation, now), id)
  {
    UnusedEnsure(w, id);
    var u := EnsureAll(w);
    UnusedPut(u, BeginScrape(Look(u, i), generation, now, w.clock), DoSend(w, i, generation, now), id);
  }

  lemma ReceiveUnused(w: World, i: BackendId, reply: Option<Metrics>, id: BackendId)
    requires Unused(w, id)
    ensures Unused(DoReceive(w, i, reply), id)
  {
    UnusedEnsure(w, id);
    var u := EnsureAll(w);
    if Look(u, i).cell.outstanding.Some? {
      UnusedPut(u, FinishScrape(Look(u, i), reply), DoReceive(w, i, reply), id);
    }
  }

  lemma ProbeUnused(w: World, i: BackendId, generation: nat, readiness: Readiness, settings: Settings, id: BackendId)
    requires Unused(w, id)
    ensures Unused(DoProbe(w, i, generation, readiness, settings), id)
  {
    UnusedEnsure(w, id);
    var u := EnsureAll(w);
    UnusedPut(u, Probe(Look(u, i), generation, readiness, settings), DoProbe(w, i, generation, readiness, settings), id);
  }

  lemma TickFlights(v: View, op: OpId)
    requires op in v.cell.ops
    ensures Tick(v, op).cell.flights == v.cell.flights && Tick(v, op).id == v.id
  {
  }

  lemma TickUnused(w: World, i: BackendId, op: OpId, id: BackendId)
    requires Unused(w, id) && op in CellOf(w, i).ops
    ensures Unused(DoTick(w, i, op), id)
  {
    UnusedEnsure(w, id);
    var u := EnsureAll(w);
    if op in CellOf(u, i).ops {
      TickFlights(Look(u, i), op);
      UnusedPut(u, Tick(Look(u, i), op), DoTick(w, i, op), id);
    }
  }

  lemma ResumeUnused(w: World, i: BackendId, op: OpId, id: BackendId)
    requires Unused(w, id)
    ensures Unused(DoResumeDrain(w, i, op), id)
  {
    UnusedEnsure(w, id);
    var u := EnsureAll(w);
    if HasStatus(Look(u, i)) && Look(u, i).slot.value.mode == Draining {
      UnusedPut(u, EnsureOp(Look(u, i), op), DoResumeDrain(w, i, op), id);
    }
  }

  lemma DrainUnused(w: World, i: BackendId, id: BackendId)
    requires Unused(w, id)
    ensures Unused(DoDrain(w, i), id)
  {
    if Look(w, i).IsRegistered() {
      UnusedPut(w, CloseGate(Look(w, i), w.clock), DoDrain(w, i), id);
    }
  }

  lemma DisableUnused(w: World, i: BackendId, force: bool, id: BackendId)
    requires Unused(w, id)
    ensures Unused(DoDisable(w, i, force), id)
  {
    UnusedEnsure(w, id);
    assert DoDisable(w, i, force).cells == EnsureAll(w).cells;
  }

  lemma ActivateUnused(w: World, i: BackendId, now: nat, settings: Settings, id: BackendId)
    requires Unused(w, id)
    ensures Unused(DoActivate(w, i, now, settings), id)
  {
    UnusedEnsure(w, id);
    var u := EnsureAll(w);
    UnusedPut(u, StartActivate(Look(u, i)), Put(u, StartActivate(Look(u, i))), id);
  }

  lemma ConfirmUnused(w: World, i: BackendId, op: OpId, now: nat, settings: Settings, id: BackendId)
    requires Unused(w, id)
    ensures Unused(DoConfirm(w, i, op, now, settings), id)
  {
    UnusedEnsure(w, id);
    var u := EnsureAll(w);
    if Confirms(Look(u, i), op, now, settings) {
      UnusedPut(u, Confirm(Look(u, i), op), DoConfirm(w, i, op, now, settings), id);
    }
  }

  lemma SaveUnused(w: World, outcome: Outcome, id: BackendId)
    requires Unused(w, id) && w.command.On? && Target(w.command.role).Some?
    ensures Unused(DoSaveEnds(w, outcome), id)
  {
    var v := Look(w, w.command.id);
    if StoreMode(w.store, v.id, Target(w.command.role).value, outcome).1 {
      UnusedPut(w, Saved(v), DoSaveEnds(w, outcome), id);
    } else {
      UnusedPut(w, SaveFailed(v), DoSaveEnds(w, outcome), id);
    }
  }

  lemma ReopenUnused(w: World, id: BackendId)
    requires Unused(w, id) && w.command.On? && w.command.role.Closing?
    ensures Unused(DoReopenGate(w), id)
  {
    var v := Look(w, w.command.id);
    if v.slot.Some? {
      UnusedPut(w, RollBack(v, w.clock), DoReopenGate(w), id);
    }
  }

  lemma ProceedUnused(w: World, op: OpId, id: BackendId)
    requires Unused(w, id) && w.command.On? && Proceeds(w.command.role)
    ensures Unused(DoProceed(w, op), id)
  {
    var v := Look(w, w.command.id);
    if v.slot.Some? {
      match v.role
      case Drained(_) => DrainedUnused(w, op, id);
      case DisableSaved(_) => UnusedPut(w, ApplyDisable(v, w.clock), DoProceed(w, op), id);
      case ActivateSaved => UnusedPut(w, ApplyActivate(v, w.clock), DoProceed(w, op), id);
      case ConfirmSaved(_) => UnusedPut(w, ApplyConfirm(v, w.clock), DoProceed(w, op), id);
      case Completing(o) =>
        if o in v.cell.ops {
          UnusedPut(w, Complete(v), DoProceed(w, op), id);
        }
      case _ =>
    }
  }

  lemma DrainedUnused(w: World, op: OpId, id: BackendId)
    requires Unused(w, id) && w.command.On? && w.command.role.Drained? && w.command.id in w.slots
    ensures Unused(DoProceed(w, op), id)
  {
    UnusedEnsure(w, id);
    DrainEndsAs(w, op);
    var u := EnsureAll(w);
    UnusedPut(u, FinishDrain(Look(u, w.command.id), op), DoProceed(w, op), id);
  }

  lemma ReloadUnused(w: World, id: BackendId)
    requires Unused(w, id) && w.command.Reloading? && w.command.config.Valid()
    ensures Unused(DoContinueReload(w), id)
  {
  }

  lemma TrafficUnused(w: World, a: Action, id: BackendId)
    requires ServingEnabled(w, a) && !IsCommand(a) && Unused(w, id) && LifecycleDurability.Closed(w, id)
    ensures Unused(StepTraffic(w, a), id)
  {
    match a
    case Refresh => UnusedEnsure(w, id);
    case Route(i, f, now) => RouteUnused(w, i, f, now, id);
    case SendScrape(i, generation, now) => SendUnused(w, i, generation, now, id);
    case ReceiveScrape(i, reply) => ReceiveUnused(w, i, reply, id);
    case ProbeReadiness(i, generation, readiness, settings) => ProbeUnused(w, i, generation, readiness, settings, id);
    case _ => RequestUnused(w, a, id);
  }

  lemma StartUnused(w: World, a: Action, id: BackendId)
    requires Unused(w, id) && (a.Drain? || a.Disable? || a.Activate? || a.ConfirmDrain? || a.Reload?)
    ensures Unused(StepCommand(w, a), id)
  {
    match a
    case Drain(i) => DrainUnused(w, i, id);
    case Disable(i, force) => DisableUnused(w, i, force, id);
    case Activate(i, now, settings) => ActivateUnused(w, i, now, settings, id);
    case ConfirmDrain(i, op, now, settings) => ConfirmUnused(w, i, op, now, settings, id);
    case Reload(_) =>
  }

  lemma FurtherUnused(w: World, a: Action, id: BackendId)
    requires ServingEnabled(w, a) && ReloadIsValid(w) && Unused(w, id)
    requires a.SaveEnds? || a.ReopenGate? || a.Proceed? || a.ContinueReload?
    ensures Unused(StepCommand(w, a), id)
  {
    match a
    case SaveEnds(outcome) => SaveUnused(w, outcome, id);
    case ReopenGate => ReopenUnused(w, id);
    case Proceed(op) => ProceedUnused(w, op, id);
    case ContinueReload => ReloadUnused(w, id);
  }

  lemma CommandUnused(w: World, a: Action, id: BackendId)
    requires ServingEnabled(w, a) && ReloadIsValid(w) && IsCommand(a) && Unused(w, id)
    ensures Unused(StepCommand(w, a), id)
  {
    if a.SaveEnds? || a.ReopenGate? || a.Proceed? || a.ContinueReload? {
      FurtherUnused(w, a, id);
    } else if a.TickDrain? {
      TickUnused(w, a.id, a.op, id);
    } else if a.ResumeDrain? {
      ResumeUnused(w, a.id, a.op, id);
    } else if !a.EndResume? {
      StartUnused(w, a, id);
    }
  }

  lemma HaltUnused(w: World, a: Action, id: BackendId)
    requires Inv(w) && Enabled(w, a) && Halts(a)
    ensures Unused(Step(w, a), id)
  {
  }

  lemma UnusedStays(w: World, a: Action, id: BackendId)
    requires Inv(w) && Enabled(w, a) && ReloadIsValid(w) && Secure(w, id) && Unused(w, id)
    ensures Unused(Step(w, a), id)
  {
    if Halts(a) {
      HaltUnused(w, a, id);
    } else if IsCommand(a) {
      CommandUnused(w, a, id);
    } else {
      TrafficUnused(w, a, id);
    }
  }

  // ---- Main results ----

  /** Without an activation of the backend, no continuation of the run has a request on it. */
  ghost predicate StaysUnused(contents: Contents, actions: seq<Action>, id: BackendId) {
    forall more: seq<Action> | NoActivation(more, id) && Run(contents, actions + more).Some? ::
      Unused(Run(contents, actions + more).value, id)
  }

  lemma {:induction false} UnusedAlways(contents: Contents, actions: seq<Action>, more: seq<Action>, id: BackendId)
    requires Loadable(contents) && Run(contents, actions).Some? && Run(contents, actions + more).Some?
    requires Secure(Run(contents, actions).value, id) && Unused(Run(contents, actions).value, id) && NoActivation(more, id)
    ensures Unused(Run(contents, actions + more).value, id)
    decreases |more|
  {
    if more == [] {
      assert actions + more == actions;
    } else {
      var front, a := more[..|more| - 1], more[|more| - 1];
      assert (actions + more)[..|actions + more| - 1] == actions + front;
      UnusedAlways(contents, actions, front, id);
      SecureAlways(contents, actions, front, id);
      InvAlways(contents, actions + front);
      UnusedStays(Run(contents, actions + front).value, a, id);
    }
  }

  /** Exactly when the work on a backend is over.  While the gate is closed in memory: no
    * request runs in any continuation without an activation of the backend if and only if
    * none runs now, the fence is firm and no activation is under way already. */
  lemma UnusedExactly(contents: Contents, actions: seq<Action>, id: BackendId)
    requires Loadable(contents) && Run(contents, actions).Some?
    requires var w := Run(contents, actions).value; w.process == Serving ==> LifecycleDurability.Closed(w, id)
    ensures var w := Run(contents, actions).value;
            StaysUnused(contents, actions, id) <==> Unused(w, id) && IsFirm(w, id) && !ActivationUnderWay(w, id)
  {
    var w := Run(contents, actions).value;
    if IsFirm(w, id) && !ActivationUnderWay(w, id) {
      if Unused(w, id) {
        forall more: seq<Action> | NoActivation(more, id) && Run(contents, actions + more).Some?
          ensures Unused(Run(contents, actions + more).value, id)
        {
          UnusedAlways(contents, actions, more, id);
        }
      } else {
        assert actions + [] == actions && NoActivation([], id);
      }
    } else {
      var more := Readmits(contents, actions, id);
      assert NoActivation(more, id) && Run(contents, actions + more).Some?;
    }
  }

  /** Otherwise a request gets in: the activation under way saves its mode, or the power
    * fails and the disk holds no fence, and the next process routes a request. */
  lemma Readmits(contents: Contents, actions: seq<Action>, id: BackendId) returns (more: seq<Action>)
    requires Loadable(contents) && Run(contents, actions).Some?
    requires var w := Run(contents, actions).value; !IsFirm(w, id) || ActivationUnderWay(w, id)
    ensures NoActivation(more, id) && Run(contents, actions + more).Some?
    ensures !Unused(Run(contents, actions + more).value, id)
  {
    if IsFirm(Run(contents, actions).value, id) {
      more := ActivationReadmits(contents, actions, id);
    } else {
      more := UnfirmReadmits(contents, actions, id);
    }
  }

  lemma Joined(actions: seq<Action>, first: seq<Action>, rest: seq<Action>, id: BackendId)
    requires NoActivation(first, id) && NoActivation(rest, id)
    ensures NoActivation(first + rest, id) && actions + (first + rest) == actions + first + rest
  {
  }

  lemma ActivationReadmits(contents: Contents, actions: seq<Action>, id: BackendId) returns (more: seq<Action>)
    requires Loadable(contents) && Run(contents, actions).Some? && ActivationUnderWay(Run(contents, actions).value, id)
    ensures NoActivation(more, id) && Run(contents, actions + more).Some?
    ensures !Unused(Run(contents, actions + more).value, id)
  {
    RunUnfirms(contents, actions, id);
    var rest := UnfirmReadmits(contents, actions + [SaveEnds(Synced)], id);
    more := [SaveEnds(Synced)] + rest;
    Joined(actions, [SaveEnds(Synced)], rest, id);
  }

  lemma RunUnfirms(contents: Contents, actions: seq<Action>, id: BackendId)
    requires Loadable(contents) && Run(contents, actions).Some? && ActivationUnderWay(Run(contents, actions).value, id)
    ensures var after := Run(contents, actions + [SaveEnds(Synced)]);
            after.Some? && !IsFirm(after.value, id)
  {
    InvAlways(contents, actions);
    var w := Run(contents, actions).value;
    RunSave(contents, actions, w, Synced);
    ActivationUnfirms(w, id);
  }

  lemma ActivationUnfirms(w: World, id: BackendId)
    requires w.store.Valid() && ActivationUnderWay(w, id)
    ensures !IsFirm(DoSaveEnds(w, Synced), id)
  {
  }

  lemma UnfirmReadmits(contents: Contents, actions: seq<Action>, id: BackendId) returns (more: seq<Action>)
    requires Loadable(contents) && Run(contents, actions).Some? && !IsFirm(Run(contents, actions).value, id)
    ensures NoActivation(more, id) && Run(contents, actions + more).Some?
    ensures !Unused(Run(contents, actions + more).value, id)
  {
    var restart, x := UnfirmAdmits(contents, actions, id);
    RunRoute(contents, actions + restart, x, id);
    more := restart + [Route(id, 0, 0)];
    Joined(actions, restart, [Route(id, 0, 0)], id);
  }

  /** A request could be routed to it. */
  predicate Admits(w: World, id: BackendId) {
    var v := Look(w, id);
    && w.process == Serving && ReloadIsValid(w)
    && v.slot.Some? && v.slot.value.registered && v.slot.value.mode == Active
    && v.live.Some? && v.live.value.circuit == Routing.Closed && v.cell.flights == map[]
  }

  lemma UnfencedLeft(contents: Contents, actions: seq<Action>, id: BackendId) returns (left: Contents)
    requires Loadable(contents) && Run(contents, actions).Some? && !IsFirm(Run(contents, actions).value, id)
    ensures var w := Run(contents, actions).value;
            left in CrashDisk(w) && Loadable(left) && !FencedIn(left, id) && ReloadIsValid(w)
  {
    InvAlways(contents, actions);
    var w := Run(contents, actions).value;
    assert DiskExact(w, id);
    left :| left in w.store.file.possible && !FencedIn(left, id);
  }

  lemma OnlyAdmits(config: RuntimeConfig, id: BackendId)
    requires |config.backends| == 1 && config.backends[0].id == id
    ensures config.Valid() && id in IdsOf(config.backends)
  {
    assert config.backends[0] in config.backends;
  }

  lemma UnfirmAdmits(contents: Contents, actions: seq<Action>, id: BackendId) returns (restart: seq<Action>, x: World)
    requires Loadable(contents) && Run(contents, actions).Some? && !IsFirm(Run(contents, actions).value, id)
    ensures NoActivation(restart, id) && Run(contents, actions + restart) == Some(x) && Admits(x, id)
  {
    var w := Run(contents, actions).value;
    var left := UnfencedLeft(contents, actions, id);
    var config := RuntimeConfig([BackendConfig(id, Endpoints("", "", ""), None)]);
    restart := [LosePower(left), Boot(config), Serve];
    OnlyAdmits(config, id);
    RunRestart(contents, actions, w, left, config);
    RestartAdmits(w, left, config, id);
    x := Restarted(w, left, config);
  }

  /** Its live state is new and its circuit closed, and no request is left over. */
  lemma RestartAdmits(w: World, left: Contents, config: RuntimeConfig, id: BackendId)
    requires Loadable(left) && !FencedIn(left, id) && config.Valid() && id in IdsOf(config.backends)
    ensures Admits(Restarted(w, left, config), id)
  {
    var down := DoLosePower(w, left);
    BootedFrom(down, config, id);
    BootedIn(down, config, id);
    ServeLooks(DoBoot(down, config), id);
  }

  lemma RunRoute(contents: Contents, actions: seq<Action>, w: World, id: BackendId)
    requires Run(contents, actions) == Some(w) && Admits(w, id)
    ensures Run(contents, actions + [Route(id, 0, 0)]).Some? && !Unused(Run(contents, actions + [Route(id, 0, 0)]).value, id)
  {
    var x := DoRoute(w, id, 0, 0);
    RunTo(contents, actions, Route(id, 0, 0), w, x);
    assert 0 in TakeRoute(Look(w, id), 0, 0).cell.flights;
    assert CellOf(x, id) == TakeRoute(Look(w, id), 0, 0).cell;
  }

  // ---- What each answer says of the work in flight ----

  predicate Leaseless(w: World, id: BackendId) { id in w.slots ==> w.slots[id].leases == {} }

  lemma LeaselessIsUnused(w: World, id: BackendId)
    requires ServingInv(w)
    ensures Leaseless(w, id) <==> Unused(w, id)
  {
    var v := Look(w, id);
    assert ViewInv(v, w.clock);
    if f :| f in v.cell.flights {
      assert v.cell.flights[f].lease.key in v.slot.value.leases;
    }
    if v.slot.Some? && v.slot.value.leases != {} {
      var key :| key in v.slot.value.leases;
    }
  }

  /** The idle completion of a drain, and a disable that found the gate closed and no
    * request running. */
  predicate QuietAnswer(role: Role) { role.Completing? || role == DisableSaved(true) }

  lemma QuietIsLeaseless(w: World, op: OpId, id: BackendId)
    requires ControlInv(Look(w, id)) && w.command.On? && w.command.id == id && QuietAnswer(w.command.role)
    ensures Leaseless(DoProceed(w, op), id)
  {
  }

  /** No answer that a backend is fenced says by itself that its work is over.  No request
    * runs in any continuation without an activation if and only if the slot has no lease
    * when the answer is given, the fence is firm and no activation is under way.  It always
    * holds after the idle completion of a drain and after a disable that was quiet. */
  lemma AnswersUnusedExactly(contents: Contents, actions: seq<Action>, a: Action, id: BackendId)
    requires Loadable(contents) && Run(contents, actions).Some? && Run(contents, actions + [a]).Some?
    requires Answers(Run(contents, actions).value, a, id)
    ensures var (w, w') := (Run(contents, actions).value, Run(contents, actions + [a]).value);
            && (StaysUnused(contents, actions + [a], id) <==>
                  Leaseless(w', id) && IsFirm(w', id) && !ActivationUnderWay(w', id))
            && (a.Proceed? && QuietAnswer(w.command.role) ==> StaysUnused(contents, actions + [a], id))
  {
    AnswersExactly(contents, actions, a, id);
    InvAlways(contents, actions);
    InvAlways(contents, actions + [a]);
    var w, w' := Run(contents, actions).value, Run(contents, actions + [a]).value;
    UnusedExactly(contents, actions + [a], id);
    LeaselessIsUnused(w', id);
    assert (actions + [a])[..|actions + [a]| - 1] == actions;
    if a.Proceed? && QuietAnswer(w.command.role) {
      assert ViewInv(Look(w, id), w.clock);
      QuietIsLeaseless(w, a.op, id);
      StepIsCommand(w, a);
    }
  }

  /** Without force a draining backend is disabled quietly or not at all. */
  lemma DrainingDisableIsQuiet(w: World, id: BackendId, outcome: Outcome)
    requires w.command == Idle && HasStatus(Look(EnsureAll(w), id)) && Look(w, id).InMode(Draining)
    ensures var started := DoDisable(w, id, false);
            if !Leaseless(w, id) then started.command == Idle && started.slots == w.slots && started.store == w.store
            else started.command == On(id, Disabling(true), true)
                 && (DoSaveEnds(started, outcome).command == On(id, DisableSaved(true), false)
                     || DoSaveEnds(started, outcome).command == Idle)
  {
  }
}
