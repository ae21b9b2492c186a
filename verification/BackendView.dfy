/** Everything the proxy knows about one backend, and how each atomic section of
  * src/routing.rs, src/control.rs, src/proxy.rs and src/runtime.rs changes it.
  */
module BackendView {
  import opened Wrappers
  import opened Backend
  import opened BackendState
  import opened Runtime
  import opened Telemetry
  import opened Routing
  import C = Circuit
  import S = Scrapes

  type FlightId = nat
  type OpId = nat

  /** A request between its selection and the end of its body.  `generation` and
    * `endpoints` are history: those of the live backend and of the published topology
    * when the request was routed. */
  datatype Flight = Flight(lease: Lease, generation: nat, endpoints: Option<Endpoints>, ticket: Option<C.Ticket>)

  /** A scrape on its way, for the generation it was started for. */
  datatype Outstanding = Outstanding(generation: nat, sent: S.Sent)

  /** History: when a drain last closed the gate, and the epoch, the acquisition count and
    * the count of scrapes started at that moment. */
  datatype Fence = Fence(epoch: nat, acquired: nat, at: nat, scrapes: nat)

  /** History: what a drain saw when it was confirmed. */
  datatype Evidence = Evidence(epoch: nat, fence: Fence, leases: set<LeaseKey>, acquired: nat, accepted: seq<S.Accepted>, live: Live)

  datatype Phase = Underway | CompleteIdle | CompleteDisabled | Cancelled | Failed

  /** `epoch` is history: the slot's mode epoch when the operation was created. */
  datatype DrainOp = DrainOp(startedScrapes: nat, phase: Phase, epoch: nat, evidence: Option<Evidence>)

  /** What is kept per backend beside its slot, live state and configuration.
    * `accepted` is history. */
  datatype Cell = Cell(
    flights: map<FlightId, Flight>, outstanding: Option<Outstanding>, accepted: seq<S.Accepted>,
    ops: map<OpId, DrainOp>, fence: Option<Fence>)

  datatype Stage = Checked | Registered | Restored

  /** What the command holding the lifecycle lock is doing to this backend.  `wrote` and
    * `quiet` are history: a drain which finds the gate closed by an earlier one writes
    * nothing; a disable is quiet if it finds the gate closed and no request running. */
  datatype Role =
    | NoRole
    | Closing(before: Mode)
    | Drained(wrote: bool)
    | Disabling(quiet: bool)
    | DisableSaved(quiet: bool)
    | Activating
    | ActivateSaved
    | Confirming(op: OpId)
    | ConfirmSaved(op: OpId)
    | Completing(op: OpId)
    | Moving(stage: Stage, target: Option<BackendConfig>, added: bool)

  datatype View = View(
    id: BackendId, slot: Option<Slot>, instance: Option<Instance>, live: Option<Live>, cell: Cell,
    stored: Mode, role: Role, next: nat)
  {
    predicate IsRegistered() { slot.Some? && slot.value.registered }

    predicate InMode(mode: Mode) { slot.Some? && slot.value.mode == mode }

    predicate Leased() { slot.Some? && slot.value.leases != {} }

    function Total(): nat { if slot.Some? then slot.value.totalAcquired else 0 }

    /** The scrapes started of the current live state. */
    function Started(): nat { if LiveIsCurrent() then live.value.scrapesStarted else 0 }

    predicate LiveIsCurrent() { live.Some? && instance.Some? && live.value.generation == instance.value.generation }

    /** The scrape on its way whose result the live state will take. */
    function Sent(): set<S.Sent> {
      if cell.outstanding.Some? && live.Some? && cell.outstanding.value.generation == live.value.generation
      then {cell.outstanding.value.sent} else {}
    }
  }

  function Tickets(flights: map<FlightId, Flight>): map<FlightId, C.Ticket> {
    map f | f in flights && flights[f].ticket.Some? :: flights[f].ticket.value
  }

  // ---- What each step does ----

  /** `ensure_backends`, as every routing call starts with it. */
  function Ensure(v: View): View {
    if v.LiveIsCurrent() then v
    else v.(live := if v.instance.Some? then Some(NewLive(v.instance.value.generation)) else None,
            cell := v.cell.(accepted := []))
  }

  /** Take a circuit permit and then a lease; without a lease the permit is dropped. */
  function TakeRoute(v: View, f: FlightId, now: nat): View {
    if v.live.None? || v.slot.None? then v
    else
      var (l, permit) := TryPermit(v.live.value, now);
      if permit.None? then v
      else
        match Acquire(v.slot.value, now)
        case Err(_) => v.(live := Some(Resolve(l, permit.value, Neutral, now)))
        case Ok((slot, lease)) =>
          v.(slot := Some(slot), live := Some(l),
             cell := v.cell.(flights := v.cell.flights[f :=
               Flight(lease, l.generation, if v.instance.Some? then Some(v.instance.value.config.endpoints) else None,
                      Some(C.Held(permit.value)))]))
  }

  /** How a request settles what it holds of the circuit. */
  datatype Settlement = Fail | Ignore | Pass | Break | Forget

  predicate CanSettle(ticket: Option<C.Ticket>, how: Settlement) {
    match how
    case Fail => ticket.Some? && ticket.value.Held?
    case Ignore => ticket.Some? && ticket.value.Held?
    case Pass => ticket.Some? && ticket.value.Held?
    case Break => ticket.None? || ticket.value.Watching?
    case Forget => ticket.None? || ticket.value.Watching?
  }

  function Settled(l: Live, ticket: Option<C.Ticket>, how: Settlement, now: nat): (Live, Option<C.Ticket>)
    requires CanSettle(ticket, how)
  {
    match how
    case Fail => (Resolve(l, ticket.value.permit, Failure, now), None)
    case Ignore => (Resolve(l, ticket.value.permit, Neutral, now), None)
    case Pass =>
      var (after, observer) := Succeed(l, ticket.value.permit);
      (after, if observer.Some? then Some(C.Watching(observer.value)) else None)
    case Break => (if ticket.Some? then BodyFailed(l, ticket.value.observer, now) else l, None)
    case Forget => (l, None)
  }

  function Settle(v: View, f: FlightId, how: Settlement, now: nat): View
    requires f in v.cell.flights && CanSettle(v.cell.flights[f].ticket, how)
  {
    var flight := v.cell.flights[f];
    if v.live.None? then v.(cell := v.cell.(flights := v.cell.flights[f := flight.(ticket := None)]))
    else
      var (l, ticket) := Settled(v.live.value, flight.ticket, how, now);
      v.(live := Some(l), cell := v.cell.(flights := v.cell.flights[f := flight.(ticket := ticket)]))
  }

  /** Drop a lease whose circuit part is settled. */
  function EndFlight(v: View, f: FlightId): View
    requires f in v.cell.flights
  {
    v.(slot := if v.slot.Some? then Some(Release(v.slot.value, v.cell.flights[f].lease.key)) else None,
       cell := v.cell.(flights := v.cell.flights - {f}))
  }

  function BeginScrape(v: View, generation: nat, now: nat, clock: nat): View {
    var w := Ensure(v);
    if w.live.None? || w.live.value.generation != generation then w
    else
      var sent := S.Sent(Scrape(w.live.value.scrapesStarted + 1, if w.IsRegistered() then w.Total() else 0, now), w.Total(), clock);
      w.(live := Some(ScrapeBegun(w.live.value)), cell := w.cell.(outstanding := Some(Outstanding(generation, sent))))
  }

  function FinishScrape(v: View, reply: Option<Metrics>): View
    requires v.cell.outstanding.Some?
  {
    var w := Ensure(v);
    var o := w.cell.outstanding.value;
    if w.live.None? || w.live.value.generation != o.generation then w.(cell := w.cell.(outstanding := None))
    else
      w.(live := Some(S.Finished(w.live.value, o.sent, reply)),
         cell := w.cell.(outstanding := None, accepted := S.Accept(w.live.value, w.cell.accepted, o.sent, reply)))
  }

  function Probe(v: View, generation: nat, readiness: Readiness, settings: Settings): View {
    var w := Ensure(v);
    if w.live.None? || w.live.value.generation != generation then w
    else w.(live := Some(if readiness == Ready then ReadinessSucceeded(w.live.value, settings)
                         else ReadinessFailed(w.live.value, readiness, settings)))
  }

  /** Note when the gate closes for a drain. */
  function Stamped(v: View, slot: Slot, clock: nat): View {
    if slot.mode == Draining && (v.slot.None? || v.slot.value.modeEpoch != slot.modeEpoch)
    then v.(slot := Some(slot), cell := v.cell.(fence := Some(Fence(slot.modeEpoch, slot.totalAcquired, clock, v.Started()))))
    else v.(slot := Some(slot))
  }

  function Operate(v: View, mode: Mode, clock: nat): View
    requires v.slot.Some?
  {
    Stamped(v, SetMode(v.slot.value, mode), clock)
  }

  /** An operation for the current drain, unless one is still under way. */
  function EnsureOp(v: View, op: OpId): View {
    if exists o <- v.cell.ops :: v.cell.ops[o].phase == Underway then v
    else
      var w := Ensure(v);
      w.(cell := w.cell.(ops := w.cell.ops[op :=
        DrainOp(if w.IsRegistered() && w.live.Some? then w.live.value.scrapesStarted else 0, Underway,
                if w.slot.Some? then w.slot.value.modeEpoch else 0, None)]))
  }

  /** The idle-path test of `drive_drain`, under the lifecycle lock. */
  predicate Confirms(v: View, op: OpId, now: nat, settings: Settings) {
    && op in v.cell.ops && v.cell.ops[op].phase == Underway
    && v.IsRegistered() && v.LiveIsCurrent()
    && v.slot.value.mode == Draining && v.slot.value.leases == {}
    && TelemetryAt(v.live.value, now, settings) == Fresh
    && EngineIdle(v.live.value.observation.value.metrics)
    && S.IdleSamples(v.live.value, v.cell.ops[op].startedScrapes) >= 2
  }

  function Confirm(v: View, op: OpId): View
    requires op in v.cell.ops && v.slot.Some?
  {
    v.(cell := v.cell.(ops := v.cell.ops[op := v.cell.ops[op].(evidence :=
      Some(Evidence(v.slot.value.modeEpoch, v.cell.fence.GetOr(Fence(0, 0, 0, 0)), v.slot.value.leases, v.Total(), v.cell.accepted,
                    v.live.GetOr(NewLive(0)))))]))
  }

  function SetPhase(v: View, op: OpId, phase: Phase): View
    requires op in v.cell.ops
  {
    v.(cell := v.cell.(ops := v.cell.ops[op := v.cell.ops[op].(phase := phase)]))
  }

  /** One round of `drive_drain` away from the idle path. */
  function Tick(v: View, op: OpId): View
    requires op in v.cell.ops
  {
    var w := Ensure(v);
    if !w.IsRegistered() || !w.LiveIsCurrent() then SetPhase(w, op, Failed)
    else if w.slot.value.mode == Disabled then SetPhase(w, op, CompleteDisabled)
    else if w.slot.value.mode == Active then SetPhase(w, op, Cancelled)
    else w
  }

  // ---- What a command under the lifecycle lock does to its backend ----

  function CloseGate(v: View, clock: nat): View
    requires v.slot.Some?
  {
    Operate(v, Draining, clock).(role := if v.slot.value.mode == Draining then Drained(false) else Closing(v.slot.value.mode))
  }

  /** The mode which the write under way would store. */
  function Target(role: Role): Option<Mode> {
    match role
    case Closing(_) => Some(Draining)
    case Disabling(_) => Some(Disabled)
    case Activating => Some(Active)
    case Confirming(_) => Some(Disabled)
    case _ => None
  }

  function Saved(v: View): View
    requires Target(v.role).Some?
  {
    var w := v.(stored := Target(v.role).value);
    match v.role
    case Closing(_) => w.(role := Drained(true))
    case Disabling(quiet) => w.(role := DisableSaved(quiet))
    case Activating => w.(role := ActivateSaved)
    case Confirming(op) => w.(role := ConfirmSaved(op))
    case _ => w
  }

  /** The write failed; a closed gate still has to be reopened. */
  function SaveFailed(v: View): View {
    match v.role
    case Confirming(op) => if op in v.cell.ops then SetPhase(v, op, Failed).(role := NoRole) else v.(role := NoRole)
    case Closing(_) => v
    case _ => v.(role := NoRole)
  }

  function RollBack(v: View, clock: nat): View
    requires v.slot.Some? && v.role.Closing?
  {
    Operate(v, v.role.before, clock).(role := NoRole)
  }

  function FinishDrain(v: View, op: OpId): View { EnsureOp(v, op).(role := NoRole) }

  function ApplyDisable(v: View, clock: nat): View
    requires v.slot.Some?
  {
    Operate(v, Disabled, clock).(role := NoRole)
  }

  function StartActivate(v: View): View { Ensure(v).(role := Activating) }

  function ApplyActivate(v: View, clock: nat): View
    requires v.slot.Some?
  {
    Operate(v, Active, clock).(role := NoRole)
  }

  function ApplyConfirm(v: View, clock: nat): View
    requires v.slot.Some? && v.role.ConfirmSaved?
  {
    Operate(v, Disabled, clock).(role := Completing(v.role.op))
  }

  function Complete(v: View): View
    requires v.role.Completing? && v.role.op in v.cell.ops
  {
    SetPhase(v, v.role.op, CompleteIdle).(role := NoRole)
  }

  // ---- What a reload does to each backend ----

  function CheckedFor(v: View, target: Option<BackendConfig>): View { v.(role := Moving(Checked, target, false)) }

  function ReconciledAs(v: View): View
    requires v.role.Moving?
  {
    var target := v.role.target;
    v.(slot := ReconcileOne(v.slot, if target.Some? then Some(SpecOf(target.value)) else None),
       role := Moving(Registered, target, target.Some? && !v.IsRegistered()))
  }

  /** New and revived backends take their stored mode; a stored fence is reasserted. */
  function ModeRestored(v: View, clock: nat): View
    requires v.role.Moving?
  {
    var w := v.(role := Moving(Restored, v.role.target, false));
    if v.slot.None? then w
    else
      var entered := if v.role.added then SetMode(v.slot.value, v.stored) else v.slot.value;
      Stamped(w, if entered.registered && v.stored != Active then SetMode(entered, v.stored) else entered, clock)
  }

  function PublishedAs(v: View, generation: nat, next: nat): View
    requires v.role.Moving?
  {
    v.(instance := if v.role.target.Some? then Some(Instance(v.role.target.value, generation)) else None,
       next := next, role := NoRole)
  }

  // ---- The invariant of one backend ----

  /** Requests and leases correspond one to one. */
  predicate LeasesInv(v: View) {
    && (v.slot.Some? ==> v.slot.value.Valid() && v.slot.value.spec.id == v.id)
    && (v.cell.flights != map[] ==> v.slot.Some?)
    && (v.slot.Some? ==> LeasesMatch(v.slot.value.leases, v.cell.flights))
  }

  predicate LeasesMatch(leases: set<LeaseKey>, flights: map<FlightId, Flight>) {
    && (forall f <- flights :: flights[f].lease.key in leases)
    && (forall f, g | f in flights && g in flights && flights[f].lease.key == flights[g].lease.key :: f == g)
    && (forall key <- leases :: exists f <- flights :: flights[f].lease.key == key)
  }

  predicate CircuitInv(v: View) {
    v.live.Some? ==> C.TicketsInv(v.live.value, Tickets(v.cell.flights))
  }

  predicate MeterInv(v: View, clock: nat) {
    && (v.live.None? ==> v.cell.accepted == [])
    && (v.live.Some? ==> S.MeterInv(v.live.value, v.Total(), v.Sent(), v.cell.accepted)
                         && S.SerialInv(v.live.value, v.Sent(), v.cell.accepted))
    && (forall a <- v.cell.accepted :: a.sent.at < clock)
    && (v.cell.outstanding.Some? ==> v.cell.outstanding.value.sent.at < clock)
  }

  /** Generations in use were given out before; a scrape for the current generation is
    * one the live state is waiting for. */
  predicate GenerationsInv(v: View) {
    && (v.instance.Some? ==> v.instance.value.generation < v.next)
    && (v.live.Some? ==> v.live.value.generation < v.next)
    && (v.cell.outstanding.Some? ==> v.cell.outstanding.value.generation < v.next)
    && (v.cell.outstanding.Some? && v.instance.Some? && v.cell.outstanding.value.generation == v.instance.value.generation
        ==> v.LiveIsCurrent())
  }

  /** The configuration the registry reflects at the moment. */
  function Reflected(v: View): Option<BackendConfig> {
    if v.role.Moving? && v.role.stage != Checked then v.role.target
    else if v.instance.Some? then Some(v.instance.value.config) else None
  }

  predicate RegistryInv(v: View) {
    && (v.IsRegistered() <==> Reflected(v).Some?)
    && (v.IsRegistered() ==> v.slot.value.spec == SpecOf(Reflected(v).value))
    && (v.slot.Some? && !v.slot.value.registered ==>
          v.slot.value.mode == Disabled && v.slot.value.leases == {} && v.stored == Disabled)
  }

  /** A reload is about to change this backend's endpoints, or remove it. */
  predicate Changing(v: View) {
    v.role.Moving? && v.instance.Some?
    && (v.role.target.None? || v.role.target.value.endpoints != v.instance.value.config.endpoints)
  }

  /** The gate is closed and no request runs. */
  predicate Quiet(v: View) { !v.InMode(Active) && !v.Leased() }

  predicate Agrees(v: View) { v.IsRegistered() ==> v.slot.value.mode == v.stored }

  /** The slot's mode, the durable overlay and the command under way fit together. */
  predicate RoleInv(v: View) {
    match v.role
    case NoRole => Agrees(v)
    case Closing(before) => v.IsRegistered() && v.InMode(Draining) && v.stored == before && before != Draining
    case Drained(_) => v.IsRegistered() && v.InMode(Draining) && v.stored == Draining
    case Disabling(quiet) => v.IsRegistered() && Agrees(v) && (quiet ==> Quiet(v))
    case DisableSaved(quiet) => v.IsRegistered() && v.stored == Disabled && (quiet ==> Quiet(v))
    case Activating => v.IsRegistered() && v.InMode(Disabled) && v.stored == Disabled && v.LiveIsCurrent()
    case ActivateSaved => v.IsRegistered() && v.InMode(Disabled) && v.stored == Active && v.LiveIsCurrent()
    case Confirming(op) => v.IsRegistered() && v.InMode(Draining) && v.stored == Draining && Idle(v, op)
    case ConfirmSaved(op) => v.IsRegistered() && v.InMode(Draining) && v.stored == Disabled && Idle(v, op)
    case Completing(op) => v.IsRegistered() && v.InMode(Disabled) && v.stored == Disabled && Idle(v, op)
    case Moving(_, _, added) =>
      && (if added then v.IsRegistered() ==> v.InMode(Disabled) else Agrees(v))
      && (added ==> v.instance.None? && v.role.stage == Registered)
      && (Changing(v) ==> v.InMode(Disabled) && v.stored == Disabled && v.slot.value.leases == {})
  }

  /** A confirmed drain stays idle until it is reported complete. */
  predicate Idle(v: View, op: OpId) {
    && op in v.cell.ops && v.cell.ops[op].evidence.Some? && v.slot.Some?
    && v.slot.value.leases == {} && v.Total() == v.cell.ops[op].evidence.value.acquired
  }

  /** A live state of another generation belongs to a backend nobody can lease. */
  predicate StaleInv(v: View) {
    v.live.Some? && !v.LiveIsCurrent() ==>
      v.slot.Some? && v.slot.value.mode != Active && v.slot.value.leases == {} && v.stored != Active
  }

  /** Requests only ever run against the generation and endpoints they were routed to. */
  predicate IsolationInv(v: View) {
    v.cell.flights != map[] ==>
      && v.IsRegistered() && v.LiveIsCurrent()
      && forall f <- v.cell.flights ::
           && v.cell.flights[f].generation == v.instance.value.generation
           && v.cell.flights[f].endpoints == Some(v.instance.value.config.endpoints)
           && v.cell.flights[f].lease.spec.endpoint == v.instance.value.config.endpoints.url
  }

  predicate FenceInv(v: View, clock: nat) {
    v.InMode(Draining) ==>
      && v.cell.fence.Some? && v.cell.fence.value.epoch == v.slot.value.modeEpoch
      && v.cell.fence.value.acquired == v.Total() && v.cell.fence.value.at < clock
  }

  /** The operation was created for the drain the slot is in. */
  predicate ForThisDrain(v: View, op: DrainOp) {
    v.InMode(Draining) && op.epoch == v.slot.value.modeEpoch && op.phase == Underway
  }

  predicate OpInv(v: View, op: DrainOp) {
    && (v.slot.Some? ==> op.epoch <= v.slot.value.modeEpoch)
    && (op.phase == CompleteIdle ==> op.evidence.Some?)
    && (op.evidence.Some? ==> EvidenceOk(op, op.evidence.value))
    && (ForThisDrain(v, op) && v.cell.fence.Some? ==>
          v.LiveIsCurrent() && v.cell.fence.value.scrapes <= op.startedScrapes <= v.live.value.scrapesStarted)
  }

  predicate OneUnderway(ops: map<OpId, DrainOp>) {
    forall o, p | o in ops && p in ops && ops[o].phase == Underway && ops[p].phase == Underway :: o == p
  }

  predicate OpsInv(v: View) {
    && (v.slot.None? ==> v.cell.ops == map[])
    && OneUnderway(v.cell.ops)
    && forall o <- v.cell.ops :: OpInv(v, v.cell.ops[o])
  }

  /** While the gate is closed for a drain: the scrapes begun after the fence are those
    * with a serial above the count at the fence. */
  predicate ScrapesInv(v: View) {
    v.InMode(Draining) && v.cell.fence.Some? ==>
      var f := v.cell.fence.value;
      && f.scrapes <= v.Started()
      && (v.LiveIsCurrent() ==>
            && (forall a <- v.cell.accepted :: a.Serial() > f.scrapes <==> a.sent.at > f.at)
            && (forall s <- v.Sent() :: s.scrape.serial > f.scrapes <==> s.at > f.at))
  }

  /** What every confirmed drain certifies: no lease was held or had been granted since the
    * fence of the drain the slot was in, and the last two accepted scrapes and the stored
    * observation all found the engine idle. */
  predicate Certified(e: Evidence) {
    && e.leases == {} && e.fence.epoch == e.epoch && e.acquired == e.fence.acquired
    && |e.accepted| >= 2
    && e.accepted[|e.accepted| - 1].Idle() && e.accepted[|e.accepted| - 2].Idle()
    && e.live.observation.Some? && e.live.observation.value.metrics.running == 0 && e.live.observation.value.metrics.waiting == 0
  }

  /** Both of these scrapes began after that fence. */
  predicate AfterFence(e: Evidence)
    requires |e.accepted| >= 2
  {
    e.accepted[|e.accepted| - 1].sent.at > e.fence.at && e.accepted[|e.accepted| - 2].sent.at > e.fence.at
  }

  /** They did exactly if the live state had two idle samples since the fence, as it always
    * has for an operation created after it. */
  predicate EvidenceOk(op: DrainOp, e: Evidence) {
    && Certified(e)
    && (AfterFence(e) <==> S.IdleSamples(e.live, e.fence.scrapes) >= 2)
    && (e.epoch == op.epoch ==> AfterFence(e))
  }

  /** A drain that has just closed the gate finds no operation of its own epoch. */
  predicate NewFenceInv(v: View) {
    v.role.Closing? || v.role == Drained(true) ==>
      v.slot.Some? && forall o <- v.cell.ops :: v.cell.ops[o].epoch < v.slot.value.modeEpoch
  }

  /** What the requests, probes and drain operations rely on ... */
  predicate DataInv(v: View, clock: nat) {
    && LeasesInv(v) && CircuitInv(v) && MeterInv(v, clock) && GenerationsInv(v) && IsolationInv(v)
    && FenceInv(v, clock) && ScrapesInv(v) && OpsInv(v)
  }

  /** ... and what the commands rely on. */
  predicate ControlInv(v: View) {
    RegistryInv(v) && RoleInv(v) && StaleInv(v) && NewFenceInv(v)
  }

  predicate ViewInv(v: View, clock: nat) { DataInv(v, clock) && ControlInv(v) }

  // ---- Every step keeps the invariant ----

  /** Later is no harm. */
  lemma ClockKeeps(v: View, clock: nat, later: nat)
    requires ViewInv(v, clock) && clock <= later
    ensures ViewInv(v, later)
  {
  }

  lemma NoTickets(l: Live)
    requires l.circuit != HalfOpen(true)
    ensures C.TicketsInv(l, Tickets(map[]))
  {
  }

  lemma EnsureKeeps(v: View, clock: nat)
    requires ViewInv(v, clock)
    ensures ViewInv(Ensure(v), clock)
  {
    if !v.LiveIsCurrent() {
      assert v.cell.flights == map[];
      if v.instance.Some? {
        NoTickets(NewLive(v.instance.value.generation));
        S.NewMeter(v.instance.value.generation, v.Total());
      }
    }
  }

  lemma TicketsUpdate(flights: map<FlightId, Flight>, f: FlightId, flight: Flight)
    ensures Tickets(flights[f := flight])
         == if flight.ticket.Some? then Tickets(flights)[f := flight.ticket.value] else Tickets(flights) - {f}
  {
  }

  lemma TicketsRemove(flights: map<FlightId, Flight>, f: FlightId)
    ensures Tickets(flights - {f}) == Tickets(flights) - {f}
  {
  }

  // ---- Requests ----

  lemma LeaseTaken(slot: Slot, flights: map<FlightId, Flight>, f: FlightId, flight: Flight, now: nat)
    requires slot.Valid() && LeasesMatch(slot.leases, flights) && f !in flights
    requires Acquire(slot, now).Ok? && flight.lease == Acquire(slot, now).value.1
    ensures var after := Acquire(slot, now).value.0;
            after.Valid() && LeasesMatch(after.leases, flights[f := flight])
  {
    var after, more := Acquire(slot, now).value.0, flights[f := flight];
    assert flight.lease.key !in slot.leases;
    forall key | key in after.leases ensures exists g <- more :: more[g].lease.key == key {
      if key == flight.lease.key {
        assert more[f].lease.key == key;
      } else {
        var g :| g in flights && flights[g].lease.key == key;
        assert more[g].lease.key == key;
      }
    }
  }

  lemma LeaseReleased(slot: Slot, flights: map<FlightId, Flight>, f: FlightId)
    requires slot.Valid() && LeasesMatch(slot.leases, flights) && f in flights
    ensures var after := Release(slot, flights[f].lease.key);
            after.Valid() && LeasesMatch(after.leases, flights - {f})
  {
    var after, fewer := Release(slot, flights[f].lease.key), flights - {f};
    forall key | key in after.leases ensures exists g <- fewer :: fewer[g].lease.key == key {
      var g :| g in flights && flights[g].lease.key == key;
      assert fewer[g].lease.key == key;
    }
  }

  /** A lease can only be granted on the backend as published, by its own live state. */
  lemma GrantedIsCurrent(v: View, clock: nat, now: nat)
    requires ViewInv(v, clock) && v.live.Some? && v.slot.Some? && Acquire(v.slot.value, now).Ok?
    ensures v.IsRegistered() && v.LiveIsCurrent() && !Changing(v)
    ensures v.slot.value.spec.endpoint == v.instance.value.config.endpoints.url
    ensures v.role.NoRole? || v.role.Disabling? || v.role.DisableSaved? || v.role.Moving?
    ensures v.stored == Active || v.role.DisableSaved?
  {
  }

  predicate SameCircuit(l: Live, m: Live) {
    && m.generation == l.generation && m.observation == l.observation && m.scrapesStarted == l.scrapesStarted
    && m.lastCompleted == l.lastCompleted && m.idleStreak == l.idleStreak
  }

  /** The circuit is no part of the telemetry. */
  lemma MeterIgnoresCircuit(v: View, w: View, clock: nat)
    requires MeterInv(v, clock) && v.live.Some? && w.live.Some? && SameCircuit(v.live.value, w.live.value)
    requires w.cell.accepted == v.cell.accepted && w.cell.outstanding == v.cell.outstanding && v.Total() <= w.Total()
    ensures MeterInv(w, clock)
  {
    assert w.Sent() == v.Sent();
    S.AcquireKeeps(v.live.value, v.Total(), w.Total(), v.Sent(), v.cell.accepted);
  }

  lemma TakeKeeps(v: View, f: FlightId, now: nat, clock: nat)
    requires ViewInv(v, clock) && f !in v.cell.flights
    ensures ViewInv(TakeRoute(v, f, now), clock)
  {
    if v.live.Some? && v.slot.Some? && TryPermit(v.live.value, now).1.Some? {
      if Acquire(v.slot.value, now).Ok? {
        GrantKeeps(v, f, now, clock);
      } else {
        RefuseKeeps(v, f, now, clock);
      }
    }
  }

  /** A step of a request: only its flight and the circuit change. */
  predicate RequestStep(v: View, w: View) {
    && w.id == v.id && w.slot == v.slot && w.instance == v.instance && w.stored == v.stored && w.role == v.role && w.next == v.next
    && w.cell == v.cell.(flights := w.cell.flights)
    && (w.live.Some? <==> v.live.Some?) && (v.live.Some? ==> SameCircuit(v.live.value, w.live.value))
  }

  lemma RequestStepKeeps(v: View, w: View, clock: nat)
    requires ViewInv(v, clock) && RequestStep(v, w) && LeasesInv(w) && CircuitInv(w) && IsolationInv(w)
    ensures ViewInv(w, clock)
  {
    if v.live.Some? {
      MeterIgnoresCircuit(v, w, clock);
    }
    assert w.Sent() == v.Sent();
    assert OpsInv(w) by {
      forall o | o in w.cell.ops ensures OpInv(w, w.cell.ops[o]) {
        assert OpInv(v, v.cell.ops[o]);
      }
    }
  }

  lemma RefuseKeeps(v: View, f: FlightId, now: nat, clock: nat)
    requires ViewInv(v, clock) && f !in v.cell.flights && v.live.Some? && v.slot.Some?
    requires TryPermit(v.live.value, now).1.Some? && Acquire(v.slot.value, now).Err?
    ensures ViewInv(TakeRoute(v, f, now), clock)
  {
    RefusedTaken(v, f, now);
    RequestStepKeeps(v, TakeRoute(v, f, now), clock);
  }

  lemma RefusedTaken(v: View, f: FlightId, now: nat)
    requires LeasesInv(v) && CircuitInv(v) && IsolationInv(v) && f !in v.cell.flights && v.live.Some? && v.slot.Some?
    requires TryPermit(v.live.value, now).1.Some? && Acquire(v.slot.value, now).Err?
    ensures var w := TakeRoute(v, f, now);
            RequestStep(v, w) && LeasesInv(w) && CircuitInv(w) && IsolationInv(w)
  {
    RefusedPermit(v.live.value, Tickets(v.cell.flights), f, now);
  }

  lemma RefusedPermit(l: Live, tickets: map<FlightId, C.Ticket>, f: FlightId, now: nat)
    requires C.TicketsInv(l, tickets) && f !in tickets && TryPermit(l, now).1.Some?
    ensures var (m, permit) := TryPermit(l, now);
            C.TicketsInv(Resolve(m, permit.value, Neutral, now), tickets)
  {
    var (m, permit) := TryPermit(l, now);
    C.TakeKeeps(l, tickets, f, now);
    var more := tickets[f := C.Held(permit.value)];
    C.NeutralKeeps(m, more, f, now);
    assert more - {f} == tickets;
  }

  lemma GrantKeeps(v: View, f: FlightId, now: nat, clock: nat)
    requires ViewInv(v, clock) && f !in v.cell.flights && v.live.Some? && v.slot.Some?
    requires TryPermit(v.live.value, now).1.Some? && Acquire(v.slot.value, now).Ok?
    ensures ViewInv(TakeRoute(v, f, now), clock)
  {
    GrantedIsCurrent(v, clock, now);
    GrantTaken(v, f, now, clock);
    GrantIsolated(v, f, now, clock);
    GrantRest(v, f, now, clock);
  }

  lemma GrantTaken(v: View, f: FlightId, now: nat, clock: nat)
    requires LeasesInv(v) && CircuitInv(v) && MeterInv(v, clock) && f !in v.cell.flights && v.live.Some? && v.slot.Some?
    requires TryPermit(v.live.value, now).1.Some? && Acquire(v.slot.value, now).Ok?
    ensures LeasesInv(TakeRoute(v, f, now)) && CircuitInv(TakeRoute(v, f, now)) && MeterInv(TakeRoute(v, f, now), clock)
  {
    var w := TakeRoute(v, f, now);
    LeaseTaken(v.slot.value, v.cell.flights, f, w.cell.flights[f], now);
    C.TakeKeeps(v.live.value, Tickets(v.cell.flights), f, now);
    TicketsUpdate(v.cell.flights, f, w.cell.flights[f]);
    MeterIgnoresCircuit(v, w, clock);
  }

  lemma GrantRest(v: View, f: FlightId, now: nat, clock: nat)
    requires ViewInv(v, clock) && f !in v.cell.flights && v.live.Some? && v.slot.Some?
    requires TryPermit(v.live.value, now).1.Some? && Acquire(v.slot.value, now).Ok?
    requires v.IsRegistered() && v.LiveIsCurrent() && !Changing(v)
    requires v.role.NoRole? || v.role.Disabling? || v.role.DisableSaved? || v.role.Moving?
    ensures var w := TakeRoute(v, f, now);
            GenerationsInv(w) && ControlInv(w) && FenceInv(w, clock) && ScrapesInv(w) && OpsInv(w)
  {
    var w := TakeRoute(v, f, now);
    forall o | o in w.cell.ops ensures OpInv(w, w.cell.ops[o]) {
      assert OpInv(v, v.cell.ops[o]);
    }
  }

  lemma GrantIsolated(v: View, f: FlightId, now: nat, clock: nat)
    requires ViewInv(v, clock) && f !in v.cell.flights && v.live.Some? && v.slot.Some?
    requires TryPermit(v.live.value, now).1.Some? && Acquire(v.slot.value, now).Ok?
    requires v.IsRegistered() && v.LiveIsCurrent()
    requires v.slot.value.spec.endpoint == v.instance.value.config.endpoints.url
    ensures IsolationInv(TakeRoute(v, f, now))
  {
  }

  lemma SettledKeeps(l: Live, tickets: map<FlightId, C.Ticket>, f: FlightId, ticket: Option<C.Ticket>, how: Settlement, now: nat)
    requires C.TicketsInv(l, tickets) && CanSettle(ticket, how)
    requires if ticket.Some? then f in tickets && tickets[f] == ticket.value else f !in tickets
    ensures var (after, rest) := Settled(l, ticket, how, now);
            && SameCircuit(l, after)
            && C.TicketsInv(after, if rest.Some? then tickets[f := rest.value] else tickets - {f})
  {
    if ticket.None? {
      assert tickets - {f} == tickets;
    } else {
      match how
      case Fail => C.FailureKeeps(l, Settled(l, ticket, how, now).0, tickets, f);
      case Ignore => C.NeutralKeeps(l, tickets, f, now);
      case Pass => C.PassKeeps(l, tickets, f);
      case Break => C.FailureKeeps(l, Settled(l, ticket, how, now).0, tickets, f);
      case Forget => C.ForgetKeeps(l, tickets, f);
    }
  }

  /** Whatever a request reports, and however late, lands on the live state that issued
    * its ticket. */
  lemma SettleKeeps(v: View, f: FlightId, how: Settlement, now: nat, clock: nat)
    requires ViewInv(v, clock) && f in v.cell.flights && CanSettle(v.cell.flights[f].ticket, how)
    ensures ViewInv(Settle(v, f, how, now), clock)
    ensures v.live.Some? && v.live.value.generation == v.cell.flights[f].generation
  {
    var w := Settle(v, f, how, now);
    SettledKeeps(v.live.value, Tickets(v.cell.flights), f, v.cell.flights[f].ticket, how, now);
    TicketsUpdate(v.cell.flights, f, w.cell.flights[f]);
    SettleLeases(v, f, w);
    RequestStepKeeps(v, w, clock);
  }

  lemma SettleLeases(v: View, f: FlightId, w: View)
    requires LeasesInv(v) && IsolationInv(v) && f in v.cell.flights && v.live.Some? && w.live.Some?
    requires w.live.value.generation == v.live.value.generation && w.slot == v.slot && w.instance == v.instance && w.id == v.id
    requires f in w.cell.flights && w.cell.flights == v.cell.flights[f := v.cell.flights[f].(ticket := w.cell.flights[f].ticket)]
    ensures LeasesInv(w) && IsolationInv(w)
  {
    forall key | v.slot.Some? && key in v.slot.value.leases ensures exists g <- w.cell.flights :: w.cell.flights[g].lease.key == key {
      var g :| g in v.cell.flights && v.cell.flights[g].lease.key == key;
      assert w.cell.flights[g].lease.key == key;
    }
  }

  lemma EndFlightKeeps(v: View, f: FlightId, clock: nat)
    requires ViewInv(v, clock) && f in v.cell.flights && v.cell.flights[f].ticket.None?
    ensures ViewInv(EndFlight(v, f), clock)
  {
    LeaseReleased(v.slot.value, v.cell.flights, f);
    TicketsRemove(v.cell.flights, f);
    assert Tickets(v.cell.flights) - {f} == Tickets(v.cell.flights);
    EndFlightRest(v, f, clock);
  }

  lemma EndFlightRest(v: View, f: FlightId, clock: nat)
    requires ViewInv(v, clock) && f in v.cell.flights && v.slot.Some? && v.slot.value.leases != {}
    ensures var w := EndFlight(v, f);
            MeterInv(w, clock) && GenerationsInv(w) && ControlInv(w) && IsolationInv(w)
            && FenceInv(w, clock) && ScrapesInv(w) && OpsInv(w)
  {
    var w := EndFlight(v, f);
    assert w.Sent() == v.Sent();
    forall o | o in w.cell.ops ensures OpInv(w, w.cell.ops[o]) {
      assert OpInv(v, v.cell.ops[o]);
    }
  }

  // ---- Probes ----

  /** A step of a probe: only readiness and telemetry change. */
  predicate ProbeStep(v: View, w: View) {
    && w.id == v.id && w.slot == v.slot && w.instance == v.instance && w.stored == v.stored && w.role == v.role && w.next == v.next
    && w.cell == v.cell.(accepted := w.cell.accepted, outstanding := w.cell.outstanding)
    && v.live.Some? && w.live.Some? && w.live.value.generation == v.live.value.generation
    && w.live.value.circuit == v.live.value.circuit && w.live.value.circuitEpoch == v.live.value.circuitEpoch
    && v.live.value.scrapesStarted <= w.live.value.scrapesStarted
  }

  /** Newer results stem from scrapes known before, or begun now. */
  predicate ResultsFrom(v: View, w: View, clock: nat) {
    && (forall a <- w.cell.accepted :: a in v.cell.accepted || a.sent in v.Sent())
    && (forall s <- w.Sent() :: s in v.Sent() || (s.at == clock && v.live.Some? && s.scrape.serial > v.live.value.scrapesStarted))
  }

  lemma ProbeStepScrapes(v: View, w: View, clock: nat)
    requires ScrapesInv(v) && FenceInv(v, clock) && ProbeStep(v, w) && ResultsFrom(v, w, clock)
    ensures ScrapesInv(w)
  {
  }

  lemma ProbeStepOps(v: View, w: View)
    requires OpsInv(v) && ProbeStep(v, w)
    ensures OpsInv(w)
  {
    forall o | o in w.cell.ops ensures OpInv(w, w.cell.ops[o]) {
      assert OpInv(v, v.cell.ops[o]);
    }
  }

  lemma ProbeStepKeeps(v: View, w: View, clock: nat)
    requires ViewInv(v, clock) && ProbeStep(v, w) && MeterInv(w, clock + 1) && GenerationsInv(w) && ResultsFrom(v, w, clock)
    ensures ViewInv(w, clock + 1)
  {
    ProbeStepScrapes(v, w, clock);
    ProbeStepOps(v, w);
    assert CircuitInv(w) by {
      forall f | f in Tickets(w.cell.flights) ensures C.TicketFits(w.live.value, Tickets(w.cell.flights)[f]) {
        assert C.TicketFits(v.live.value, Tickets(v.cell.flights)[f]);
      }
    }
  }

  lemma BeginScrapeKeeps(v: View, generation: nat, now: nat, clock: nat)
    requires ViewInv(v, clock) && v.cell.outstanding.None?
    ensures ViewInv(BeginScrape(v, generation, now, clock), clock + 1)
  {
    EnsureKeeps(v, clock);
    var u, w := Ensure(v), BeginScrape(v, generation, now, clock);
    if u.live.Some? && u.live.value.generation == generation {
      BegunKeeps(u, w, w.cell.outstanding.value.sent, clock);
    } else {
      ClockKeeps(u, clock, clock + 1);
    }
  }

  lemma BegunKeeps(u: View, w: View, sent: S.Sent, clock: nat)
    requires ViewInv(u, clock) && u.LiveIsCurrent() && u.cell.outstanding.None?
    requires S.SentOk(sent, u.Total()) && sent.scrape.serial == u.live.value.scrapesStarted + 1 && sent.at == clock
    requires w == u.(live := Some(ScrapeBegun(u.live.value)),
                     cell := u.cell.(outstanding := Some(Outstanding(u.live.value.generation, sent))))
    ensures ViewInv(w, clock + 1)
  {
    assert u.Sent() == {} && w.Sent() == {sent} && u.Sent() + {sent} == {sent};
    S.BeginKeeps(u.live.value, u.Total(), u.Sent(), u.cell.accepted, sent);
    ProbeStepKeeps(u, w, clock);
  }

  lemma FinishScrapeKeeps(v: View, reply: Option<Metrics>, clock: nat)
    requires ViewInv(v, clock) && v.cell.outstanding.Some?
    ensures ViewInv(FinishScrape(v, reply), clock + 1)
  {
    EnsureKeeps(v, clock);
    var u, w := Ensure(v), FinishScrape(v, reply);
    var o := u.cell.outstanding.value;
    if u.live.Some? && u.live.value.generation == o.generation {
      assert u.Sent() == {o.sent} && w.Sent() == {} && u.Sent() - {o.sent} == {};
      S.FinishKeeps(u.live.value, u.Total(), u.Sent(), u.cell.accepted, o.sent, reply);
      S.SerialFinish(u.live.value, u.Sent(), u.cell.accepted, o.sent, reply);
      FinishedStep(u, w, o.sent, reply, clock);
      ProbeStepKeeps(u, w, clock);
    } else {
      ForgetScrapeKeeps(u, clock);
    }
  }

  lemma FinishedStep(u: View, w: View, sent: S.Sent, reply: Option<Metrics>, clock: nat)
    requires u.live.Some? && u.Sent() == {sent} && w.Sent() == {}
    requires MeterInv(u, clock) && w.live == Some(S.Finished(u.live.value, sent, reply))
    requires w == u.(live := w.live, cell := u.cell.(outstanding := None, accepted := u.cell.accepted + [S.Accepted(sent, reply)]))
    ensures ProbeStep(u, w) && ResultsFrom(u, w, clock)
    ensures forall a <- w.cell.accepted :: a.sent.at < clock + 1
  {
  }

  lemma ForgetScrapeKeeps(u: View, clock: nat)
    requires ViewInv(u, clock) && u.Sent() == {}
    ensures ViewInv(u.(cell := u.cell.(outstanding := None)), clock + 1)
  {
    var w := u.(cell := u.cell.(outstanding := None));
    assert w.Sent() == {};
    forall o | o in w.cell.ops ensures OpInv(w, w.cell.ops[o]) {
      assert OpInv(u, u.cell.ops[o]);
    }
  }

  lemma ProbeKeeps(v: View, generation: nat, readiness: Readiness, settings: Settings, clock: nat)
    requires ViewInv(v, clock)
    ensures ViewInv(Probe(v, generation, readiness, settings), clock + 1)
  {
    EnsureKeeps(v, clock);
    var u := Ensure(v);
    if u.live.Some? && u.live.value.generation == generation {
      ReadinessKeeps(u, Probe(v, generation, readiness, settings), clock);
    } else {
      ClockKeeps(u, clock, clock + 1);
    }
  }

  lemma ReadinessKeeps(u: View, w: View, clock: nat)
    requires ViewInv(u, clock) && u.live.Some? && w.live.Some? && w == u.(live := w.live)
    requires SameCircuit(u.live.value, w.live.value)
    requires w.live.value.circuit == u.live.value.circuit && w.live.value.circuitEpoch == u.live.value.circuitEpoch
    ensures ViewInv(w, clock + 1)
  {
    assert w.Sent() == u.Sent();
    MeterIgnoresCircuit(u, w, clock);
    ProbeStepKeeps(u, w, clock);
  }

  // ---- Commands ----

  /** Changing the mode keeps what does not depend on it. */
  lemma OperateKeeps(v: View, mode: Mode, clock: nat)
    requires DataInv(v, clock) && v.slot.Some?
    ensures DataInv(Operate(v, mode, clock), clock + 1)
  {
    OperateFlights(v, mode, clock);
    OperateMeter(v, mode, clock);
    OperateFence(v, mode, clock);
    OperateOps(v, mode, clock);
  }

  lemma OperateFlights(v: View, mode: Mode, clock: nat)
    requires LeasesInv(v) && CircuitInv(v) && GenerationsInv(v) && IsolationInv(v) && v.slot.Some?
    ensures var w := Operate(v, mode, clock);
            LeasesInv(w) && CircuitInv(w) && GenerationsInv(w) && IsolationInv(w)
  {
  }

  lemma OperateFence(v: View, mode: Mode, clock: nat)
    requires FenceInv(v, clock) && v.slot.Some?
    ensures FenceInv(Operate(v, mode, clock), clock + 1)
  {
  }

  lemma OperateMeter(v: View, mode: Mode, clock: nat)
    requires MeterInv(v, clock) && v.slot.Some?
    ensures MeterInv(Operate(v, mode, clock), clock + 1)
  {
    var w := Operate(v, mode, clock);
    assert w.Sent() == v.Sent() && w.Total() == v.Total();
  }

  lemma OperateOps(v: View, mode: Mode, clock: nat)
    requires FenceInv(v, clock) && OpsInv(v) && v.slot.Some?
    ensures OpsInv(Operate(v, mode, clock))
  {
    var w := Operate(v, mode, clock);
    assert w.Sent() == v.Sent();
    forall o | o in w.cell.ops ensures OpInv(w, w.cell.ops[o]) {
      assert OpInv(v, v.cell.ops[o]);
    }
  }

  lemma OperateAs(v: View, mode: Mode, role: Role, clock: nat)
    requires DataInv(v, clock) && v.slot.Some?
    ensures DataInv(Operate(v, mode, clock).(role := role), clock + 1)
  {
    OperateKeeps(v, mode, clock);
    var w := Operate(v, mode, clock);
    SameData(w, w.stored, role, clock + 1);
    assert w.(role := role) == w.(stored := w.stored, role := role);
  }

  lemma CloseGateKeeps(v: View, clock: nat)
    requires ViewInv(v, clock) && v.role == NoRole && v.IsRegistered()
    ensures ViewInv(CloseGate(v, clock), clock + 1)
  {
    OperateAs(v, Draining, CloseGate(v, clock).role, clock);
    CloseGateControls(v, clock);
  }

  lemma CloseGateControls(v: View, clock: nat)
    requires ControlInv(v) && OpsInv(v) && v.role == NoRole && v.IsRegistered()
    ensures ControlInv(CloseGate(v, clock))
  {
  }

  /** The command under way and the overlay are no part of the data. */
  lemma SameData(v: View, stored: Mode, role: Role, clock: nat)
    requires DataInv(v, clock)
    ensures DataInv(v.(stored := stored, role := role), clock)
  {
    var w := v.(stored := stored, role := role);
    assert w.Sent() == v.Sent();
    forall o | o in w.cell.ops ensures OpInv(w, w.cell.ops[o]) {
      assert OpInv(v, v.cell.ops[o]);
    }
  }

  lemma SavedKeeps(v: View, clock: nat)
    requires ViewInv(v, clock) && Target(v.role).Some?
    ensures ViewInv(Saved(v), clock)
  {
    var w := Saved(v);
    SameData(v, w.stored, w.role, clock);
    assert w == v.(stored := w.stored, role := w.role);
    SavedControls(v);
  }

  lemma SavedControls(v: View)
    requires ControlInv(v) && Target(v.role).Some?
    ensures ControlInv(Saved(v))
  {
  }

  lemma PhaseOps(v: View, op: OpId, phase: Phase)
    requires OpsInv(v) && op in v.cell.ops
    requires phase != Underway && (phase == CompleteIdle ==> v.cell.ops[op].evidence.Some?)
    ensures OpsInv(SetPhase(v, op, phase))
  {
    var w := SetPhase(v, op, phase);
    assert w.Sent() == v.Sent();
    forall o | o in w.cell.ops ensures OpInv(w, w.cell.ops[o]) {
      assert OpInv(v, v.cell.ops[o]);
    }
  }

  lemma PhaseControls(v: View, op: OpId, phase: Phase)
    requires ControlInv(v) && op in v.cell.ops
    ensures ControlInv(SetPhase(v, op, phase))
  {
  }

  lemma PhaseKeeps(v: View, op: OpId, phase: Phase, clock: nat)
    requires ViewInv(v, clock) && op in v.cell.ops
    requires phase != Underway && (phase == CompleteIdle ==> v.cell.ops[op].evidence.Some?)
    ensures ViewInv(SetPhase(v, op, phase), clock)
  {
    assert SetPhase(v, op, phase).Sent() == v.Sent();
    PhaseOps(v, op, phase);
    PhaseControls(v, op, phase);
  }

  /** A command which ends, whatever its outcome, without touching mode or overlay. */
  lemma EndRole(v: View, clock: nat)
    requires ViewInv(v, clock) && Agrees(v) && (v.role.Disabling? || v.role.Activating? || v.role.Confirming? || v.role.Completing?)
    ensures ViewInv(v.(role := NoRole), clock)
  {
    SameData(v, v.stored, NoRole, clock);
    assert v.(role := NoRole) == v.(stored := v.stored, role := NoRole);
  }

  lemma SaveFailedKeeps(v: View, clock: nat)
    requires ViewInv(v, clock) && Target(v.role).Some?
    ensures ViewInv(SaveFailed(v), clock)
  {
    if v.role.Confirming? {
      PhaseKeeps(v, v.role.op, Failed, clock);
      EndRole(SetPhase(v, v.role.op, Failed), clock);
    } else if !v.role.Closing? {
      EndRole(v, clock);
    }
  }

  lemma RollBackKeeps(v: View, clock: nat)
    requires ViewInv(v, clock) && v.role.Closing?
    ensures ViewInv(RollBack(v, clock), clock + 1)
  {
    OperateAs(v, v.role.before, NoRole, clock);
    RollBackControls(v, clock);
  }

  lemma RollBackControls(v: View, clock: nat)
    requires ControlInv(v) && v.role.Closing?
    ensures ControlInv(RollBack(v, clock))
  {
  }

  lemma EnsureOpKeeps(v: View, op: OpId, clock: nat)
    requires ViewInv(v, clock) && v.IsRegistered() && v.InMode(Draining) && v.role == NoRole
    ensures ViewInv(EnsureOp(v, op), clock)
  {
    if !(exists o <- v.cell.ops :: v.cell.ops[o].phase == Underway) {
      EnsureKeeps(v, clock);
      NewOpKeeps(Ensure(v), op, EnsureOp(v, op), clock);
    }
  }

  lemma NewOpKeeps(v: View, op: OpId, w: View, clock: nat)
    requires ViewInv(v, clock) && v.slot.Some? && v.LiveIsCurrent()
    requires forall o <- v.cell.ops :: v.cell.ops[o].phase != Underway
    requires w == v.(cell := v.cell.(ops := v.cell.ops[op :=
               DrainOp(v.live.value.scrapesStarted, Underway, v.slot.value.modeEpoch, None)]))
    requires v.role == NoRole
    ensures ViewInv(w, clock)
  {
    assert w.Sent() == v.Sent();
    forall o | o in w.cell.ops ensures OpInv(w, w.cell.ops[o]) {
      if o != op {
        assert OpInv(v, v.cell.ops[o]);
      }
    }
  }

  lemma FinishDrainKeeps(v: View, op: OpId, clock: nat)
    requires ViewInv(v, clock) && v.role.Drained?
    ensures ViewInv(FinishDrain(v, op), clock)
  {
    var u := v.(role := NoRole);
    SameData(v, v.stored, NoRole, clock);
    assert u == v.(stored := v.stored, role := NoRole);
    assert Ensure(u) == Ensure(v).(role := NoRole);
    EnsureOpKeeps(u, op, clock);
    assert FinishDrain(v, op) == EnsureOp(u, op);
  }

  lemma ApplyDisableKeeps(v: View, clock: nat)
    requires ViewInv(v, clock) && v.role.DisableSaved?
    ensures ViewInv(ApplyDisable(v, clock), clock + 1)
  {
    OperateAs(v, Disabled, NoRole, clock);
    ApplyDisableControls(v, clock);
  }

  lemma ApplyDisableControls(v: View, clock: nat)
    requires ControlInv(v) && v.role.DisableSaved?
    ensures ControlInv(ApplyDisable(v, clock))
  {
  }

  lemma StartActivateKeeps(v: View, clock: nat)
    requires ViewInv(v, clock) && v.role == NoRole && v.IsRegistered() && v.InMode(Disabled)
    ensures ViewInv(StartActivate(v), clock)
  {
    EnsureKeeps(v, clock);
  }

  lemma ApplyActivateKeeps(v: View, clock: nat)
    requires ViewInv(v, clock) && v.role == ActivateSaved
    ensures ViewInv(ApplyActivate(v, clock), clock + 1)
  {
    OperateAs(v, Active, NoRole, clock);
    ApplyActivateControls(v, clock);
  }

  lemma ApplyActivateControls(v: View, clock: nat)
    requires ControlInv(v) && v.role == ActivateSaved
    ensures ControlInv(ApplyActivate(v, clock))
  {
  }

  /** The certificate of a drain, and exactly when it covers both scrapes: if and only if
    * there are two idle samples since the fence - as there are for every operation that
    * was created after it. */
  lemma ConfirmCertifies(v: View, op: OpId, now: nat, settings: Settings, clock: nat)
    requires ViewInv(v, clock) && Confirms(v, op, now, settings)
    ensures var o := Confirm(v, op).cell.ops[op];
            && o.evidence.Some? && Certified(o.evidence.value) && v.cell.fence == Some(o.evidence.value.fence)
            && (AfterFence(o.evidence.value) <==> S.IdleSamples(v.live.value, v.cell.fence.value.scrapes) >= 2)
            && (o.epoch == v.slot.value.modeEpoch ==> AfterFence(o.evidence.value))
  {
    var fence := v.cell.fence.value;
    LastTwo(v.live.value, v.Total(), v.Sent(), v.cell.accepted, v.cell.ops[op].startedScrapes, fence.scrapes, fence.at);
    assert OpInv(v, v.cell.ops[op]);
  }

  lemma LastTwo(l: Live, total: nat, sent: set<S.Sent>, accepted: seq<S.Accepted>, started: nat, scrapes: nat, at: nat)
    requires S.MeterInv(l, total, sent, accepted) && S.SerialInv(l, sent, accepted) && S.IdleSamples(l, started) >= 2
    requires forall a <- accepted :: a.Serial() > scrapes <==> a.sent.at > at
    ensures |accepted| >= 2
    ensures accepted[|accepted| - 1].Idle() && accepted[|accepted| - 2].Idle()
    ensures S.IdleSamples(l, scrapes) >= 2 <==> accepted[|accepted| - 1].sent.at > at && accepted[|accepted| - 2].sent.at > at
    ensures scrapes <= started ==> S.IdleSamples(l, scrapes) >= 2
  {
    S.IdleRunEnds(accepted);
    var n := |accepted|;
    assert accepted[n - 1] in accepted && accepted[n - 2] in accepted;
    assert accepted[n - 1].Serial() == n && accepted[n - 2].Serial() == n - 1;
  }

  lemma ConfirmKeeps(v: View, op: OpId, now: nat, settings: Settings, clock: nat)
    requires ViewInv(v, clock) && v.role == NoRole && Confirms(v, op, now, settings)
    ensures ViewInv(Confirm(v, op).(role := Confirming(op)), clock)
  {
    ConfirmCertifies(v, op, now, settings, clock);
    ConfirmKeepsOps(v, op);
    var w := Confirm(v, op).(role := Confirming(op));
    assert w.Sent() == v.Sent();
  }

  lemma ConfirmKeepsOps(v: View, op: OpId)
    requires OpsInv(v) && op in v.cell.ops && v.slot.Some?
    requires var o := Confirm(v, op).cell.ops[op]; EvidenceOk(o, o.evidence.value)
    ensures OpsInv(Confirm(v, op).(role := Confirming(op)))
  {
    var w := Confirm(v, op).(role := Confirming(op));
    forall o | o in w.cell.ops ensures OpInv(w, w.cell.ops[o]) {
      assert OpInv(v, v.cell.ops[o]);
    }
  }

  lemma ApplyConfirmKeeps(v: View, clock: nat)
    requires ViewInv(v, clock) && v.role.ConfirmSaved?
    ensures ViewInv(ApplyConfirm(v, clock), clock + 1)
  {
    OperateAs(v, Disabled, Completing(v.role.op), clock);
    ApplyConfirmControls(v, clock);
  }

  lemma ApplyConfirmControls(v: View, clock: nat)
    requires ControlInv(v) && v.role.ConfirmSaved?
    ensures ControlInv(ApplyConfirm(v, clock))
  {
  }

  lemma CompleteKeeps(v: View, clock: nat)
    requires ViewInv(v, clock) && v.role.Completing?
    ensures ViewInv(Complete(v), clock)
  {
    PhaseKeeps(v, v.role.op, CompleteIdle, clock);
    EndRole(SetPhase(v, v.role.op, CompleteIdle), clock);
  }

  lemma TickKeeps(v: View, op: OpId, clock: nat)
    requires ViewInv(v, clock) && op in v.cell.ops && v.cell.ops[op].phase == Underway
    ensures ViewInv(Tick(v, op), clock)
  {
    EnsureKeeps(v, clock);
    PhaseKeeps(Ensure(v), op, Failed, clock);
    PhaseKeeps(Ensure(v), op, CompleteDisabled, clock);
    PhaseKeeps(Ensure(v), op, Cancelled, clock);
  }

  // ---- Reloads ----

  lemma CheckedKeeps(v: View, target: Option<BackendConfig>, clock: nat)
    requires ViewInv(v, clock) && v.role == NoRole
    requires v.instance.Some? && (target.None? || target.value.endpoints != v.instance.value.config.endpoints) ==>
               v.InMode(Disabled) && v.slot.value.leases == {}
    ensures ViewInv(CheckedFor(v, target), clock)
  {
  }

  lemma ReconciledKeeps(v: View, clock: nat)
    requires ViewInv(v, clock) && v.role.Moving? && v.role.stage == Checked
    requires v.role.target.Some? ==> v.role.target.value.id == v.id
    ensures ViewInv(ReconciledAs(v), clock)
  {
    ReconciledData(v, clock);
    ReconciledControls(v);
  }

  lemma ReconciledControls(v: View)
    requires ControlInv(v) && v.role.Moving? && v.role.stage == Checked
    ensures ControlInv(ReconciledAs(v))
  {
  }

  lemma ReconciledData(v: View, clock: nat)
    requires ViewInv(v, clock) && v.role.Moving? && v.role.stage == Checked
    requires v.role.target.Some? ==> v.role.target.value.id == v.id
    ensures DataInv(ReconciledAs(v), clock)
  {
    var w := ReconciledAs(v);
    assert w.Sent() == v.Sent();
    assert w.Total() == v.Total();
    ReconciledOps(v);
    ReconciledIsolated(v);
  }

  lemma ReconciledOps(v: View)
    requires OpsInv(v) && v.role.Moving?
    ensures OpsInv(ReconciledAs(v))
  {
    var w := ReconciledAs(v);
    assert w.Sent() == v.Sent();
    forall o | o in w.cell.ops ensures OpInv(w, w.cell.ops[o]) {
      assert OpInv(v, v.cell.ops[o]);
    }
  }

  lemma ReconciledIsolated(v: View)
    requires IsolationInv(v) && ControlInv(v) && LeasesInv(v) && v.role.Moving? && v.role.stage == Checked
    ensures IsolationInv(ReconciledAs(v))
  {
  }

  lemma ModeRestoredKeeps(v: View, clock: nat)
    requires ViewInv(v, clock) && v.role.Moving? && v.role.stage == Registered
    ensures ViewInv(ModeRestored(v, clock), clock + 1)
  {
    var role := Moving(Restored, v.role.target, false);
    if v.IsRegistered() && (v.role.added || v.stored != Active) {
      OperateAs(v, v.stored, role, clock);
      ModeIsOperate(v, clock);
    } else {
      SameData(v, v.stored, role, clock);
      UntouchedMode(v, clock);
    }
    ModeRestoredControls(v, clock);
  }

  lemma ModeIsOperate(v: View, clock: nat)
    requires v.role.Moving? && v.IsRegistered() && (v.role.added || v.stored != Active)
    requires v.role.added ==> v.InMode(Disabled)
    ensures ModeRestored(v, clock) == Operate(v, v.stored, clock).(role := Moving(Restored, v.role.target, false))
  {
  }

  lemma UntouchedMode(v: View, clock: nat)
    requires ViewInv(v, clock) && v.role.Moving? && !(v.IsRegistered() && (v.role.added || v.stored != Active))
    requires DataInv(v.(stored := v.stored, role := Moving(Restored, v.role.target, false)), clock)
    ensures DataInv(ModeRestored(v, clock), clock + 1)
  {
    var w := v.(stored := v.stored, role := Moving(Restored, v.role.target, false));
    assert ModeRestored(v, clock) == w;
    DataLater(w, clock);
  }

  lemma DataLater(v: View, clock: nat)
    requires DataInv(v, clock)
    ensures DataInv(v, clock + 1)
  {
  }

  lemma ModeRestoredControls(v: View, clock: nat)
    requires ControlInv(v) && v.role.Moving? && v.role.stage == Registered
    ensures ControlInv(ModeRestored(v, clock))
  {
  }

  lemma PublishedKeeps(v: View, generation: nat, next: nat, clock: nat)
    requires ViewInv(v, clock) && v.role.Moving? && v.role.stage == Restored && v.next <= next
    requires v.role.target.Some? ==> generation < next
    requires v.role.target.Some? ==>
               if v.instance.Some? && v.role.target.value.endpoints == v.instance.value.config.endpoints
               then generation == v.instance.value.generation else generation >= v.next
    ensures ViewInv(PublishedAs(v, generation, next), clock)
  {
    var w := PublishedAs(v, generation, next);
    assert w.Sent() == v.Sent();
    forall o | o in w.cell.ops ensures OpInv(w, w.cell.ops[o]) {
      assert OpInv(v, v.cell.ops[o]);
    }
  }
}
