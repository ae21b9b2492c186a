/** How long a fence lasts: what an operator may rely on after a command or a drain has
  * answered, through reloads, failed writes, kills, power losses and restarts.
  */
module LifecycleDurability {
  import opened Wrappers
  import opened Backend
  import opened BackendState
  import opened Runtime
  import opened Telemetry
  import opened Routing
  import opened BackendView
  import opened Lifecycle
  import opened LifecycleSafety

  /** The gate is not open. */
  predicate Closed(w: World, id: BackendId) {
    id in w.slots && w.slots[id].registered ==> w.slots[id].mode != Active
  }

  predicate ActivationUnderWay(w: World, id: BackendId) {
    w.command.On? && w.command.id == id && w.command.role.Activating?
  }

  /** The fence is firm, nobody is taking it back, and the gate is closed. */
  predicate Secure(w: World, id: BackendId) {
    IsFirm(w, id) && !ActivationUnderWay(w, id) && (w.process == Serving ==> Closed(w, id))
  }

  // ---- What the disk may hold ----

  /** In every reachable state: nothing a power loss may leave lacks the fence if and only
    * if it is firm and no activation of the backend is writing. */
  lemma DiskExactly(contents: Contents, actions: seq<Action>, id: BackendId)
    requires Loadable(contents) && Run(contents, actions).Some?
    ensures var w := Run(contents, actions).value;
            (forall c <- CrashDisk(w) :: FencedIn(c, id)) <==> IsFirm(w, id) && !ActivationUnderWay(w, id)
  {
    InvAlways(contents, actions);
    HalfwayFences(Run(contents, actions).value, id);
  }

  lemma HalfwayFences(w: World, id: BackendId)
    requires Inv(w)
    ensures (forall c <- CrashDisk(w) :: FencedIn(c, id)) <==> IsFirm(w, id) && !ActivationUnderWay(w, id)
  {
    assert DiskExact(w, id) && w.store.file.possible <= CrashDisk(w);
    if w.command.On? && w.command.writing {
      HalfwayIs(w);
      assert Halfway(w) <= CrashDisk(w);
    }
  }

  lemma HalfwayIs(w: World)
    requires Inv(w) && w.command.On? && w.command.writing
    ensures Target(w.command.role).Some?
    ensures var next := WithMode(w.store.overlay, w.command.id, Target(w.command.role).value);
            && Halfway(w) == (if ValidOverlay(next) then {Written(next)} else {})
            && (Target(w.command.role) == Some(Active) ==> ValidOverlay(next))
  {
  }

  // ---- A secure fence stays secure ----

  predicate SameHistory(w: World, w': World) { w'.synced == w.synced && w'.shaken == w.shaken }

  lemma RequestHistory(w: World, a: Action)
    requires ServingEnabled(w, a) && (a.Route? || a.Respond? || a.Finish?)
    ensures SameHistory(w, StepTraffic(w, a))
  {
  }

  lemma ProbeHistory(w: World, a: Action)
    requires a.Refresh? || a.SendScrape? || a.ReceiveScrape? || a.ProbeReadiness?
    ensures SameHistory(w, StepTraffic(w, a))
  {
  }

  lemma TaskHistory(w: World, a: Action)
    requires a.TickDrain? || a.ResumeDrain? || a.EndResume? || a.ReopenGate?
    ensures SameHistory(w, StepCommand(w, a))
  {
  }

  lemma StartHistory(w: World, a: Action)
    requires a.Drain? || a.Disable? || a.Activate? || a.ConfirmDrain?
    ensures SameHistory(w, StepCommand(w, a))
  {
  }

  lemma ReloadHistory(w: World, a: Action)
    requires a.Reload? || a.ContinueReload?
    ensures SameHistory(w, StepCommand(w, a))
  {
  }

  lemma CommandHistory(w: World, a: Action)
    requires IsCommand(a) && !a.SaveEnds?
    ensures SameHistory(w, StepCommand(w, a))
  {
    if a.TickDrain? || a.ResumeDrain? || a.EndResume? || a.ReopenGate? {
      TaskHistory(w, a);
    } else if a.Drain? || a.Disable? || a.Activate? || a.ConfirmDrain? {
      StartHistory(w, a);
    } else if a.Proceed? {
      if w.command.On? && Proceeds(w.command.role) {
        ProceedServes(w, a.op);
      }
    } else {
      ReloadHistory(w, a);
    }
  }

  lemma TrafficHistory(w: World, a: Action)
    requires ServingEnabled(w, a) && !IsCommand(a)
    ensures SameHistory(w, StepTraffic(w, a))
  {
    if a.Route? || a.Respond? || a.Finish? {
      RequestHistory(w, a);
    } else {
      ProbeHistory(w, a);
    }
  }

  lemma SavedFirm(w: World, outcome: Outcome, id: BackendId)
    requires Inv(w) && Enabled(w, SaveEnds(outcome)) && IsFirm(w, id) && !ActivationUnderWay(w, id)
    ensures IsFirm(DoSaveEnds(w, outcome), id)
  {
    assert DiskExact(w, id);
    OverlayKept(w, outcome, id);
  }

  lemma OverlayKept(w: World, outcome: Outcome, id: BackendId)
    requires w.command.On? && Target(w.command.role).Some? && id in w.store.overlay && !ActivationUnderWay(w, id)
    ensures id in StoreMode(w.store, w.command.id, Target(w.command.role).value, outcome).0.overlay
  {
  }

  lemma LostFirm(w: World, left: Contents, id: BackendId)
    requires Inv(w) && left in CrashDisk(w) && IsFirm(w, id) && !ActivationUnderWay(w, id)
    ensures IsFirm(DoLosePower(w, left), id)
  {
    HalfwayFences(w, id);
  }

  lemma HaltedFirm(w: World, a: Action, id: BackendId)
    requires Inv(w) && Enabled(w, a) && ReloadIsValid(w) && Halts(a) && IsFirm(w, id) && !ActivationUnderWay(w, id)
    ensures IsFirm(Step(w, a), id)
  {
    if a.LosePower? {
      LostFirm(w, a.contents, id);
    }
  }

  lemma ServingFirm(w: World, a: Action, id: BackendId)
    requires Inv(w) && Enabled(w, a) && ReloadIsValid(w) && !Halts(a) && IsFirm(w, id) && !ActivationUnderWay(w, id)
    ensures IsFirm(Step(w, a), id)
  {
    if a.SaveEnds? {
      SavedFirm(w, a.outcome, id);
    } else if IsCommand(a) {
      CommandHistory(w, a);
    } else {
      TrafficHistory(w, a);
    }
  }

  lemma FirmKept(w: World, a: Action, id: BackendId)
    requires Inv(w) && Enabled(w, a) && ReloadIsValid(w) && IsFirm(w, id) && !ActivationUnderWay(w, id)
    ensures IsFirm(Step(w, a), id)
  {
    if Halts(a) {
      HaltedFirm(w, a, id);
    } else {
      ServingFirm(w, a, id);
    }
  }

  lemma CommandNotActivated(w: World, a: Action, id: BackendId)
    requires IsCommand(a) && !ActivationUnderWay(w, id) && !(a.Activate? && a.id == id)
    ensures !ActivationUnderWay(StepCommand(w, a), id)
  {
  }

  lemma TrafficNotActivated(w: World, a: Action, id: BackendId)
    requires ServingEnabled(w, a) && !IsCommand(a) && !ActivationUnderWay(w, id)
    ensures !ActivationUnderWay(StepTraffic(w, a), id)
  {
  }

  lemma NotActivated(w: World, a: Action, id: BackendId)
    requires Enabled(w, a) && ReloadIsValid(w) && !ActivationUnderWay(w, id) && !(a.Activate? && a.id == id)
    ensures !ActivationUnderWay(Step(w, a), id)
  {
    if !Halts(a) {
      if IsCommand(a) {
        CommandNotActivated(w, a, id);
      } else {
        TrafficNotActivated(w, a, id);
      }
    }
  }

  /** A backend written back with its gate closed. */
  lemma ClosedPut(w: World, v: View, w': World, id: BackendId)
    requires Closed(w, id) && w'.slots == Put(w, v).slots
    requires v.id == id && v.IsRegistered() ==> !v.InMode(Active)
    ensures Closed(w', id)
  {
  }

  lemma RequestClosed(w: World, a: Action, id: BackendId)
    requires ServingEnabled(w, a) && Closed(w, id) && (a.Route? || a.Respond? || a.Finish?)
    ensures Closed(StepTraffic(w, a), id)
  {
    var v := Look(w, a.id);
    match a
    case Route(i, f, now) => ClosedPut(w, TakeRoute(v, f, now), StepTraffic(w, a), id);
    case Respond(i, f, how, now) => ClosedPut(w, Settle(v, f, how, now), StepTraffic(w, a), id);
    case Finish(i, f, how, now) => ClosedPut(w, EndFlight(Settle(v, f, how, now), f), StepTraffic(w, a), id);
  }

  /** Probes and rounds of drain tasks refresh the live states and leave the gates alone. */
  lemma SendClosed(w: World, i: BackendId, generation: nat, now: nat, id: BackendId)
    requires Closed(w, id)
    ensures Closed(DoSend(w, i, generation, now), id)
  {
    var u := EnsureAll(w);
    ClosedPut(u, BeginScrape(Look(u, i), generation, now, w.clock), DoSend(w, i, generation, now), id);
  }

  lemma ReceiveClosed(w: World, i: BackendId, reply: Option<Metrics>, id: BackendId)
    requires Closed(w, id)
    ensures Closed(DoReceive(w, i, reply), id)
  {
    var u := EnsureAll(w);
    if Look(u, i).cell.outstanding.Some? {
      ClosedPut(u, FinishScrape(Look(u, i), reply), DoReceive(w, i, reply), id);
    }
  }

  lemma ProbeClosed(w: World, i: BackendId, generation: nat, readiness: Readiness, settings: Settings, id: BackendId)
    requires Closed(w, id)
    ensures Closed(DoProbe(w, i, generation, readiness, settings), id)
  {
    var u := EnsureAll(w);
    ClosedPut(u, Probe(Look(u, i), generation, readiness, settings), DoProbe(w, i, generation, readiness, settings), id);
  }

  lemma TickClosed(w: World, i: BackendId, op: OpId, id: BackendId)
    requires Closed(w, id) && op in CellOf(w, i).ops
    ensures Closed(DoTick(w, i, op), id)
  {
    var u := EnsureAll(w);
    if op in CellOf(u, i).ops {
      ClosedPut(u, Tick(Look(u, i), op), DoTick(w, i, op), id);
    }
  }

  lemma ResumeClosed(w: World, i: BackendId, op: OpId, id: BackendId)
    requires Closed(w, id)
    ensures Closed(DoResumeDrain(w, i, op), id)
  {
    var u := EnsureAll(w);
    if HasStatus(Look(u, i)) && Look(u, i).slot.value.mode == Draining {
      ClosedPut(u, EnsureOp(Look(u, i), op), DoResumeDrain(w, i, op), id);
    }
  }

  lemma DrainClosed(w: World, i: BackendId, id: BackendId)
    requires Closed(w, id)
    ensures Closed(DoDrain(w, i), id)
  {
    if Look(w, i).IsRegistered() {
      ClosedPut(w, CloseGate(Look(w, i), w.clock), DoDrain(w, i), id);
    }
  }

  lemma ActivateClosed(w: World, i: BackendId, now: nat, settings: Settings, id: BackendId)
    requires Closed(w, id)
    ensures Closed(DoActivate(w, i, now, settings), id)
  {
    var u := EnsureAll(w);
    ClosedPut(u, StartActivate(Look(u, i)), Put(u, StartActivate(Look(u, i))), id);
  }

  lemma ConfirmClosed(w: World, i: BackendId, op: OpId, now: nat, settings: Settings, id: BackendId)
    requires Closed(w, id)
    ensures Closed(DoConfirm(w, i, op, now, settings), id)
  {
    var u := EnsureAll(w);
    if Confirms(Look(u, i), op, now, settings) {
      ClosedPut(u, Confirm(Look(u, i), op), DoConfirm(w, i, op, now, settings), id);
    }
  }

  lemma SaveClosed(w: World, outcome: Outcome, id: BackendId)
    requires Closed(w, id) && w.command.On? && Target(w.command.role).Some?
    ensures Closed(DoSaveEnds(w, outcome), id)
  {
    var v := Look(w, w.command.id);
    if StoreMode(w.store, v.id, Target(w.command.role).value, outcome).1 {
      ClosedPut(w, Saved(v), DoSaveEnds(w, outcome), id);
    } else {
      ClosedPut(w, SaveFailed(v), DoSaveEnds(w, outcome), id);
    }
  }

  lemma ReopenClosed(w: World, id: BackendId)
    requires ServingInv(w) && Closed(w, id) && id in w.store.overlay && w.command.On? && w.command.role.Closing?
    ensures Closed(DoReopenGate(w), id)
  {
    var v := Look(w, w.command.id);
    assert ViewInv(v, w.clock);
    ClosedPut(w, RollBack(v, w.clock), DoReopenGate(w), id);
  }

  lemma DrainedClosed(w: World, op: OpId, id: BackendId)
    requires Closed(w, id) && w.command.On? && w.command.role.Drained? && w.command.id in w.slots
    ensures Closed(DoProceed(w, op), id)
  {
    var u := EnsureAll(w);
    DrainEndsAs(w, op);
    ClosedPut(u, FinishDrain(Look(u, w.command.id), op), DoProceed(w, op), id);
  }

  lemma CompletedClosed(w: World, op: OpId, id: BackendId)
    requires Closed(w, id) && w.command.On? && w.command.role.Completing? && ControlInv(Look(w, w.command.id))
    ensures Closed(DoProceed(w, op), id)
  {
    ClosedPut(w, Complete(Look(w, w.command.id)), DoProceed(w, op), id);
  }

  lemma ProceedClosed(w: World, op: OpId, id: BackendId)
    requires ServingInv(w) && Closed(w, id) && id in w.store.overlay && w.command.On? && Proceeds(w.command.role)
    ensures Closed(DoProceed(w, op), id)
  {
    assert ViewInv(Look(w, w.command.id), w.clock);
    if w.command.role.Drained? {
      DrainedClosed(w, op, id);
    } else if w.command.role.Completing? {
      CompletedClosed(w, op, id);
    } else {
      AppliedClosed(w, op, id);
    }
  }

  lemma AppliedClosed(w: World, op: OpId, id: BackendId)
    requires Closed(w, id) && id in w.store.overlay && ValidOverlay(w.store.overlay) && w.command.On? && ControlInv(Look(w, w.command.id))
    requires w.command.role.DisableSaved? || w.command.role.ActivateSaved? || w.command.role.ConfirmSaved?
    ensures Closed(DoProceed(w, op), id)
  {
    var v := Look(w, w.command.id);
    match v.role
    case DisableSaved(_) => ClosedPut(w, ApplyDisable(v, w.clock), DoProceed(w, op), id);
    case ActivateSaved => ClosedPut(w, ApplyActivate(v, w.clock), DoProceed(w, op), id);
    case ConfirmSaved(_) => ClosedPut(w, ApplyConfirm(v, w.clock), DoProceed(w, op), id);
  }

  /** A stored fence is reasserted on whatever a reload registers. */
  lemma ReloadClosed(w: World, id: BackendId)
    requires ServingInv(w) && Closed(w, id) && id in w.store.overlay && w.command.Reloading?
    ensures Closed(DoContinueReload(w), id)
  {
    assert ViewInv(Look(w, id), w.clock);
    match w.command.stage
    case Checked => ReconcileClosed(w, id);
    case Registered =>
      ModesSlot(w, id);
      RestoredShut(Look(w, id), w.clock);
    case Restored =>
  }

  lemma ReconcileClosed(w: World, id: BackendId)
    requires Closed(w, id) && w.command.Reloading? && w.command.config.Valid() && w.command.stage == Checked
    requires ControlInv(Look(w, id)) && id in w.store.overlay
    ensures Closed(DoContinueReload(w), id)
  {
    ReconcileLooks(w, id);
    assert Look(DoContinueReload(w), id).slot == ReconciledAs(Look(w, id)).slot;
  }

  lemma RestoredShut(v: View, clock: nat)
    requires v.role.Moving? && v.stored != Active && (v.IsRegistered() ==> !v.InMode(Active))
    ensures ModeRestored(v, clock).IsRegistered() ==> !ModeRestored(v, clock).InMode(Active)
  {
  }

  /** The further steps of a command or reload. */
  lemma FurtherClosed(w: World, a: Action, id: BackendId)
    requires ServingInv(w) && ServingEnabled(w, a) && Closed(w, id) && id in w.store.overlay
    requires a.SaveEnds? || a.ReopenGate? || a.Proceed? || a.ContinueReload?
    ensures Closed(StepCommand(w, a), id)
  {
    match a
    case SaveEnds(outcome) => SaveClosed(w, outcome, id);
    case ReopenGate => ReopenClosed(w, id);
    case Proceed(op) => ProceedClosed(w, op, id);
    case ContinueReload => ReloadClosed(w, id);
  }

  lemma StartClosed(w: World, a: Action, id: BackendId)
    requires Closed(w, id) && (a.Drain? || a.Disable? || a.Activate? || a.ConfirmDrain? || a.Reload?)
    ensures Closed(StepCommand(w, a), id)
  {
    match a
    case Drain(i) => DrainClosed(w, i, id);
    case Activate(i, now, settings) => ActivateClosed(w, i, now, settings, id);
    case ConfirmDrain(i, op, now, settings) => ConfirmClosed(w, i, op, now, settings, id);
    case _ =>
  }

  lemma CommandClosed(w: World, a: Action, id: BackendId)
    requires ServingInv(w) && ServingEnabled(w, a) && IsCommand(a) && Closed(w, id) && id in w.store.overlay
    ensures Closed(StepCommand(w, a), id)
  {
    if a.SaveEnds? || a.ReopenGate? || a.Proceed? || a.ContinueReload? {
      FurtherClosed(w, a, id);
    } else if a.TickDrain? {
      TickClosed(w, a.id, a.op, id);
    } else if a.ResumeDrain? {
      ResumeClosed(w, a.id, a.op, id);
    } else if !a.EndResume? {
      StartClosed(w, a, id);
    }
  }

  lemma TrafficClosed(w: World, a: Action, id: BackendId)
    requires ServingEnabled(w, a) && !IsCommand(a) && Closed(w, id)
    ensures Closed(StepTraffic(w, a), id)
  {
    match a
    case SendScrape(i, generation, now) => SendClosed(w, i, generation, now, id);
    case ReceiveScrape(i, reply) => ReceiveClosed(w, i, reply, id);
    case ProbeReadiness(i, generation, readiness, settings) => ProbeClosed(w, i, generation, readiness, settings, id);
    case Refresh =>
    case _ => RequestClosed(w, a, id);
  }

  lemma ServeClosed(w: World, id: BackendId)
    requires Inv(w) && Enabled(w, Serve) && IsFirm(w, id)
    ensures Closed(DoServe(w), id)
  {
    assert DiskExact(w, id) && w.store.file.visible in w.store.file.possible;
    assert Booted(w, id);
    ServedSlot(w, id);
  }

  lemma ClosedKept(w: World, a: Action, id: BackendId)
    requires Inv(w) && Enabled(w, a) && ReloadIsValid(w) && Secure(w, id) && Step(w, a).process == Serving
    ensures Closed(Step(w, a), id)
  {
    if Halts(a) {
      assert a.Serve?;
      ServeClosed(w, id);
    } else {
      ServingClosed(w, a, id);
    }
  }

  lemma ServingClosed(w: World, a: Action, id: BackendId)
    requires Inv(w) && Enabled(w, a) && ReloadIsValid(w) && !Halts(a) && Closed(w, id) && IsFirm(w, id)
    ensures Closed(Step(w, a), id)
  {
    assert DiskExact(w, id);
    if IsCommand(a) {
      CommandClosed(w, a, id);
    } else {
      TrafficClosed(w, a, id);
    }
  }

  /** No step but an activation of the backend loosens a secure fence. */
  lemma SecureStays(w: World, a: Action, id: BackendId)
    requires Inv(w) && Enabled(w, a) && ReloadIsValid(w) && Secure(w, id) && !(a.Activate? && a.id == id)
    ensures Secure(Step(w, a), id)
  {
    FirmKept(w, a, id);
    NotActivated(w, a, id);
    if Step(w, a).process == Serving {
      ClosedKept(w, a, id);
    }
  }

  // ---- Main results ----

  ghost predicate NoActivation(actions: seq<Action>, id: BackendId) { forall a <- actions :: !(a.Activate? && a.id == id) }

  /** Nothing a crash may leave lacks the fence, and while the proxy serves the backend is
    * not active. */
  ghost predicate Fenced(w: World, id: BackendId) {
    && (forall c <- CrashDisk(w) :: FencedIn(c, id))
    && (w.process == Serving ==> id in w.store.overlay && Closed(w, id))
  }

  lemma {:induction false} SecureAlways(contents: Contents, actions: seq<Action>, more: seq<Action>, id: BackendId)
    requires Loadable(contents) && Run(contents, actions).Some? && Run(contents, actions + more).Some?
    requires Secure(Run(contents, actions).value, id) && NoActivation(more, id)
    ensures Secure(Run(contents, actions + more).value, id)
    decreases |more|
  {
    if more == [] {
      assert actions + more == actions;
    } else {
      var front, a := more[..|more| - 1], more[|more| - 1];
      assert (actions + more)[..|actions + more| - 1] == actions + front;
      SecureAlways(contents, actions, front, id);
      InvAlways(contents, actions + front);
      SecureStays(Run(contents, actions + front).value, a, id);
    }
  }

  /** A secure fence is in memory and on the disk through any further run - reloads that
    * remove and re-add the backend, failed writes, kills and power losses between any two
    * steps, and restarts - until an activation of it starts. */
  lemma FenceIsDurable(contents: Contents, actions: seq<Action>, more: seq<Action>, id: BackendId)
    requires Loadable(contents) && Run(contents, actions).Some? && Run(contents, actions + more).Some?
    requires Secure(Run(contents, actions).value, id) && NoActivation(more, id)
    ensures Fenced(Run(contents, actions + more).value, id)
  {
    SecureAlways(contents, actions, more, id);
    InvAlways(contents, actions + more);
    var w := Run(contents, actions + more).value;
    HalfwayFences(w, id);
    assert DiskExact(w, id);
  }

  /** Without an activation of the backend, no continuation of the run opens its gate. */
  ghost predicate StaysClosed(contents: Contents, actions: seq<Action>, id: BackendId) {
    forall more: seq<Action> | NoActivation(more, id) && Run(contents, actions + more).Some? ::
      var w := Run(contents, actions + more).value;
      w.process == Serving ==> Closed(w, id)
  }

  /** Exactly when a fence lasts.  While the gate is closed in memory: it stays closed in
    * every continuation without an activation of the backend if and only if the fence is
    * firm and no activation is under way already. */
  lemma DurableExactly(contents: Contents, actions: seq<Action>, id: BackendId)
    requires Loadable(contents) && Run(contents, actions).Some?
    requires var w := Run(contents, actions).value; w.process == Serving ==> Closed(w, id)
    ensures var w := Run(contents, actions).value;
            StaysClosed(contents, actions, id) <==> IsFirm(w, id) && !ActivationUnderWay(w, id)
  {
    var w := Run(contents, actions).value;
    if IsFirm(w, id) && !ActivationUnderWay(w, id) {
      forall more: seq<Action> | NoActivation(more, id) && Run(contents, actions + more).Some?
        ensures var x := Run(contents, actions + more).value; x.process == Serving ==> Closed(x, id)
      {
        SecureAlways(contents, actions, more, id);
      }
    } else {
      var more := Reopens(contents, actions, id);
      assert NoActivation(more, id) && Run(contents, actions + more).Some?;
    }
  }

  /** Otherwise this opens it: the power fails and the disk holds no fence, or the
    * activation under way goes on. */
  lemma Reopens(contents: Contents, actions: seq<Action>, id: BackendId) returns (more: seq<Action>)
    requires Loadable(contents) && Run(contents, actions).Some?
    requires var w := Run(contents, actions).value; !IsFirm(w, id) || ActivationUnderWay(w, id)
    ensures NoActivation(more, id) && Run(contents, actions + more).Some?
    ensures Open(Run(contents, actions + more).value, id)
  {
    if IsFirm(Run(contents, actions).value, id) {
      more := ActivationGoesOn(contents, actions, id);
    } else {
      more := UnfirmReturnsActive(contents, actions, id, RuntimeConfig([BackendConfig(id, Endpoints("", "", ""), None)]));
    }
  }

  /** A backend whose fence is not firm may be active after a power loss and a start with
    * any configuration that has it. */
  lemma UnfirmReturnsActive(contents: Contents, actions: seq<Action>, id: BackendId, config: RuntimeConfig) returns (more: seq<Action>)
    requires Loadable(contents) && Run(contents, actions).Some? && !IsFirm(Run(contents, actions).value, id)
    requires config.Valid() && id in IdsOf(config.backends)
    ensures NoActivation(more, id) && Run(contents, actions + more).Some?
    ensures Open(Run(contents, actions + more).value, id)
  {
    InvAlways(contents, actions);
    var w := Run(contents, actions).value;
    assert DiskExact(w, id);
    var left :| left in w.store.file.possible && !FencedIn(left, id);
    more := [LosePower(left), Boot(config), Serve];
    RunRestart(contents, actions, w, left, config);
    RestartsActive(w, left, config, id);
  }

  predicate Open(w: World, id: BackendId) {
    w.process == Serving && id in w.slots && w.slots[id].registered && w.slots[id].mode == Active
  }

  function Restarted(w: World, left: Contents, config: RuntimeConfig): World
    requires Loadable(left) && config.Valid()
  {
    DoServe(DoBoot(DoLosePower(w, left), config))
  }

  lemma RestartsActive(w: World, left: Contents, config: RuntimeConfig, id: BackendId)
    requires Loadable(left) && !FencedIn(left, id) && config.Valid() && id in IdsOf(config.backends)
    ensures Open(Restarted(w, left, config), id)
  {
    var down := DoLosePower(w, left);
    var booted := DoBoot(down, config);
    BootedFrom(down, config, id);
    BootedIn(down, config, id);
    ServedSlot(booted, id);
  }

  lemma BootedIn(w: World, config: RuntimeConfig, id: BackendId)
    requires config.Valid() && id in IdsOf(config.backends)
    ensures id in DoBoot(w, config).slots
  {
    StartupOk(config);
  }

  lemma RunRestart(contents: Contents, actions: seq<Action>, w: World, left: Contents, config: RuntimeConfig)
    requires Run(contents, actions) == Some(w) && ReloadIsValid(w) && left in CrashDisk(w) && Loadable(left) && config.Valid()
    ensures Run(contents, actions + [LosePower(left), Boot(config), Serve]) == Some(Restarted(w, left, config))
  {
    var lost := actions + [LosePower(left)];
    RunTo(contents, actions, LosePower(left), w, DoLosePower(w, left));
    RunStart(contents, lost, DoLosePower(w, left), config);
    assert actions + [LosePower(left), Boot(config), Serve] == lost + [Boot(config), Serve];
  }

  lemma RunStart(contents: Contents, actions: seq<Action>, w: World, config: RuntimeConfig)
    requires Run(contents, actions) == Some(w) && w.process == Down && w.command == Idle && config.Valid() && Loadable(w.store.file.visible)
    ensures Run(contents, actions + [Boot(config), Serve]) == Some(DoServe(DoBoot(w, config)))
  {
    var booted := actions + [Boot(config)];
    RunTo(contents, actions, Boot(config), w, DoBoot(w, config));
    RunTo(contents, booted, Serve, DoBoot(w, config), DoServe(DoBoot(w, config)));
    assert actions + [Boot(config), Serve] == booted + [Serve];
  }

  lemma ActivatingRegistered(contents: Contents, actions: seq<Action>, id: BackendId)
    requires Loadable(contents) && Run(contents, actions).Some? && ActivationUnderWay(Run(contents, actions).value, id)
    ensures var w := Run(contents, actions).value;
            && w.store.Valid() && w.process == Serving && w.command == On(id, Activating, true)
            && id in w.slots && w.slots[id].registered
  {
    InvAlways(contents, actions);
    var w := Run(contents, actions).value;
    assert ViewInv(Look(w, id), w.clock);
  }

  lemma ActivationGoesOn(contents: Contents, actions: seq<Action>, id: BackendId) returns (more: seq<Action>)
    requires Loadable(contents) && Run(contents, actions).Some? && ActivationUnderWay(Run(contents, actions).value, id)
    ensures NoActivation(more, id) && Run(contents, actions + more).Some?
    ensures Open(Run(contents, actions + more).value, id)
  {
    var w := Run(contents, actions).value;
    ActivatingRegistered(contents, actions, id);
    var op := FreshOp(CellOf(w, id).ops.Keys);
    more := [SaveEnds(Synced), Proceed(op)];
    ActivationSaved(w, id);
    var saved := DoSaveEnds(w, Synced);
    ActivationOpens(saved, id, op);
    RunActivation(contents, actions, w, saved, op);
  }

  lemma RunActivation(contents: Contents, actions: seq<Action>, w: World, saved: World, op: OpId)
    requires Run(contents, actions) == Some(w) && w.process == Serving && w.command.On? && w.command.writing && Target(w.command.role).Some?
    requires saved == DoSaveEnds(w, Synced) && saved.process == Serving && saved.command.On? && !saved.command.writing
    requires saved.command.role.ActivateSaved? && op !in CellOf(saved, saved.command.id).ops
    ensures Run(contents, actions + [SaveEnds(Synced), Proceed(op)]) == Some(DoProceed(saved, op))
  {
    RunSave(contents, actions, w, Synced);
    RunProceed(contents, actions + [SaveEnds(Synced)], saved, op);
    assert actions + [SaveEnds(Synced), Proceed(op)] == actions + [SaveEnds(Synced)] + [Proceed(op)];
  }

  lemma ActivationSaved(w: World, id: BackendId)
    requires w.store.Valid() && w.process == Serving && w.command == On(id, Activating, true) && id in w.slots
    ensures var saved := DoSaveEnds(w, Synced);
            saved.command == On(id, ActivateSaved, false) && saved.slots == w.slots && saved.process == Serving && CellOf(saved, id) == CellOf(w, id)
  {
    assert w.slots[id := w.slots[id]] == w.slots;
  }

  lemma ActivationOpens(w: World, id: BackendId, op: OpId)
    requires w.process == Serving && w.command == On(id, ActivateSaved, false) && id in w.slots && w.slots[id].registered
    ensures Open(DoProceed(w, op), id)
  {
  }

  lemma {:induction false} FreshOp(ops: set<OpId>) returns (op: OpId)
    ensures forall o <- ops :: o < op
    decreases |ops|
  {
    if ops == {} {
      op := 0;
    } else {
      var o :| o in ops;
      var rest := FreshOp(ops - {o});
      op := if o < rest then rest else o + 1;
      assert forall p <- ops :: p == o || p in ops - {o};
    }
  }

  // ---- What operators are told ----

  predicate IsDisabled(w: World, id: BackendId) { HasStatus(Look(EnsureAll(w), id)) && Look(w, id).InMode(Disabled) }

  /** Steps that tell an operator the backend is fenced: a drain is accepted, a drain ends
    * idle, a disable ends, a disable finds the backend disabled already, and a drain's
    * task finds it disabled. */
  predicate Answers(w: World, a: Action, id: BackendId) {
    match a
    case Proceed(_) =>
      w.command.On? && w.command.id == id && (w.command.role.Drained? || w.command.role.DisableSaved? || w.command.role.Completing?)
    case Disable(i, _) => i == id && IsDisabled(w, id)
    case TickDrain(i, _) => i == id && IsDisabled(w, id)
    case _ => false
  }

  lemma FoundDisabled(w: World, id: BackendId, force: bool)
    requires IsDisabled(w, id)
    ensures DoDisable(w, id, force) == Tock(EnsureAll(w)) && Closed(DoDisable(w, id, force), id)
  {
  }

  lemma TickDisabled(w: World, id: BackendId, op: OpId)
    requires IsDisabled(w, id) && op in CellOf(w, id).ops
    ensures Closed(DoTick(w, id, op), id)
    ensures op in CellOf(DoTick(w, id, op), id).ops && CellOf(DoTick(w, id, op), id).ops[op].phase == CompleteDisabled
  {
    EnsureLooks(w, id);
  }

  lemma DrainedAnswers(w: World, id: BackendId, op: OpId)
    requires w.command.On? && w.command.id == id && w.command.role.Drained? && ControlInv(Look(w, id))
    ensures DoProceed(w, op).command == Idle && Closed(DoProceed(w, op), id)
  {
    DrainEndsAs(w, op);
    var u := EnsureAll(w);
    ClosedPut(u, FinishDrain(Look(u, id), op), DoProceed(w, op), id);
  }

  lemma DisableAnswers(w: World, id: BackendId, op: OpId)
    requires w.command.On? && w.command.id == id && w.command.role.DisableSaved? && ControlInv(Look(w, id))
    ensures DoProceed(w, op).command == Idle && Closed(DoProceed(w, op), id)
  {
  }

  lemma CompletionAnswers(w: World, id: BackendId, o: OpId, op: OpId)
    requires w.command == On(id, Completing(o), false) && ControlInv(Look(w, id))
    ensures DoProceed(w, op).command == Idle && Closed(DoProceed(w, op), id)
    ensures o in CellOf(DoProceed(w, op), id).ops && CellOf(DoProceed(w, op), id).ops[o].phase == CompleteIdle
  {
  }

  /** What has just been answered. */
  predicate Answered(w: World, a: Action, id: BackendId, w': World) {
    && w'.process == Serving && Closed(w', id)
    && (a.Proceed? ==> w'.command == Idle)
    && (a.Proceed? && w.command.On? && w.command.role.Completing? ==>
          var o := w.command.role.op; o in CellOf(w', id).ops && CellOf(w', id).ops[o].phase == CompleteIdle)
    && (a.Disable? ==> w'.store == w.store && w'.slots == w.slots)
    && (a.TickDrain? ==> a.op in CellOf(w', id).ops && CellOf(w', id).ops[a.op].phase == CompleteDisabled)
  }

  lemma ProceedAnswers(w: World, op: OpId, id: BackendId)
    requires ServingInv(w) && ServingEnabled(w, Proceed(op)) && Answers(w, Proceed(op), id)
    ensures Answered(w, Proceed(op), id, DoProceed(w, op))
    ensures Wrote(w.command.role) ==> IsFirm(DoProceed(w, op), id)
  {
    assert ViewInv(Look(w, id), w.clock);
    ProceedServes(w, op);
    match w.command.role
    case Drained(_) => DrainedAnswers(w, id, op);
    case DisableSaved(_) => DisableAnswers(w, id, op);
    case Completing(o) => CompletionAnswers(w, id, o, op);
  }

  lemma StepAnswers(w: World, a: Action, id: BackendId)
    requires ServingInv(w) && ServingEnabled(w, a) && Answers(w, a, id)
    ensures Answered(w, a, id, StepCommand(w, a))
    ensures a.Proceed? && Wrote(w.command.role) ==> IsFirm(StepCommand(w, a), id)
  {
    if a.Proceed? {
      ProceedAnswers(w, a.op, id);
    } else {
      FindingAnswers(w, a, id);
    }
  }

  lemma FindingAnswers(w: World, a: Action, id: BackendId)
    requires ServingInv(w) && ServingEnabled(w, a) && Answers(w, a, id) && !a.Proceed?
    ensures Answered(w, a, id, StepCommand(w, a))
  {
    if a.Disable? {
      FoundDisabled(w, id, a.force);
    } else {
      TickDisabled(w, id, a.op);
    }
  }

  lemma StepIsCommand(w: World, a: Action)
    requires Enabled(w, a) && ReloadIsValid(w) && IsCommand(a)
    ensures w.process == Serving && ServingEnabled(w, a) && Step(w, a) == StepCommand(w, a)
  {
  }

  /** How durable each answer is.  The gate of the backend stays closed until an activation
    * of it starts - if and only if the fence is firm and none is under way.  It always is
    * after an answer that follows a write of its own: a drain that closed the gate, a
    * disable, and the completion of an idle drain, whether started or resumed.  The
    * others write nothing: a drain that joins an earlier one, a disable of a disabled
    * backend, and a drain's task that finds its backend disabled. */
  lemma AnswersExactly(contents: Contents, actions: seq<Action>, a: Action, id: BackendId)
    requires Loadable(contents) && Run(contents, actions).Some? && Run(contents, actions + [a]).Some?
    requires Answers(Run(contents, actions).value, a, id)
    ensures var (w, w') := (Run(contents, actions).value, Run(contents, actions + [a]).value);
            && Answered(w, a, id, w')
            && (StaysClosed(contents, actions + [a], id) <==> IsFirm(w', id) && !ActivationUnderWay(w', id))
            && (a.Proceed? && Wrote(w.command.role) ==> Secure(w', id) && StaysClosed(contents, actions + [a], id))
  {
    var w := Run(contents, actions).value;
    InvAlways(contents, actions);
    assert (actions + [a])[..|actions + [a]| - 1] == actions;
    StepIsCommand(w, a);
    StepAnswers(w, a, id);
    DurableExactly(contents, actions + [a], id);
  }
}
