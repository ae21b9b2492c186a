/** The lease and drain gate of one backend, and the registry of all of them
  * (src/backend.rs).
  */
module Backend {
  import opened Wrappers

  datatype BackendId = BackendId(name: string)

  datatype Mode = Active | Draining | Disabled

  datatype Spec = Spec(id: BackendId, endpoint: string)

  datatype LeaseKey = LeaseKey(startedAt: nat, serial: nat)

  datatype Lease = Lease(key: LeaseKey, spec: Spec)

  datatype DrainToken = DrainToken(id: BackendId, modeEpoch: nat)

  datatype AcquireError = Retired(id: BackendId) | NotActive(id: BackendId, mode: Mode)

  datatype DrainWaitError =
    | WrongBackend(tokenId: BackendId, slotId: BackendId)
    | Superseded(id: BackendId, expectedEpoch: nat, currentEpoch: nat, currentMode: Mode)

  datatype Slot = Slot(
    spec: Spec, registered: bool, mode: Mode, modeEpoch: nat, sequence: nat, specRevision: nat,
    nextLeaseSerial: nat, totalAcquired: nat, leases: set<LeaseKey>)
  {
    /** No two live leases share a serial, and serials are the acquisition count. */
    predicate Valid() {
      && totalAcquired == nextLeaseSerial
      && (forall k <- leases :: k.serial < nextLeaseSerial)
      && (forall j, k | j in leases && k in leases && j.serial == k.serial :: j == k)
    }
  }

  // ---- One slot ----

  function NewSlot(spec: Spec, mode: Mode): Slot {
    Slot(spec, true, mode, 0, 0, 0, 0, 0, {})
  }

  function Publish(s: Slot): Slot { s.(sequence := s.sequence + 1) }

  function Acquire(s: Slot, now: nat): Result<(Slot, Lease), AcquireError> {
    if !s.registered then Err(Retired(s.spec.id))
    else if s.mode != Active then Err(NotActive(s.spec.id, s.mode))
    else
      var key := LeaseKey(now, s.nextLeaseSerial);
      Ok((Publish(s.(nextLeaseSerial := s.nextLeaseSerial + 1, totalAcquired := s.totalAcquired + 1,
                     leases := s.leases + {key})),
          Lease(key, s.spec)))
  }

  function Release(s: Slot, key: LeaseKey): Slot {
    Publish(s.(leases := s.leases - {key}))
  }

  function EnterMode(s: Slot, mode: Mode): Slot {
    if s.mode == mode then s else Publish(s.(mode := mode, modeEpoch := s.modeEpoch + 1))
  }

  /** Only a registered slot can be activated; a retired one can be drained or disabled. */
  function SetMode(s: Slot, mode: Mode): Slot {
    if mode == Active && !s.registered then s else EnterMode(s, mode)
  }

  function TokenOf(s: Slot): DrainToken { DrainToken(s.spec.id, s.modeEpoch) }

  function Present(s: Slot, spec: Spec): Slot {
    var t := if s.spec != spec then s.(registered := true, spec := spec, specRevision := s.specRevision + 1)
             else s.(registered := true);
    if !s.registered || s.spec != spec then Publish(t) else t
  }

  function Absent(s: Slot): Slot {
    if !s.registered then s
    else if s.mode == Active then Publish(s.(registered := false, mode := Disabled, modeEpoch := s.modeEpoch + 1))
    else Publish(s.(registered := false))
  }

  /** What one look at the slot tells a drain waiter: `None` is wait on. */
  function WaitCheck(s: Slot, token: DrainToken): Option<Result<Slot, DrainWaitError>> {
    if token.id != s.spec.id then Some(Err(WrongBackend(token.id, s.spec.id)))
    else if s.mode != Draining || s.modeEpoch != token.modeEpoch then
      Some(Err(Superseded(s.spec.id, token.modeEpoch, s.modeEpoch, s.mode)))
    else if s.leases == {} then Some(Ok(s))
    else None
  }

  predicate ReleasableTombstone(s: Slot) {
    !s.registered && s.leases == {} && s.mode != Draining
  }

  class BackendSlot {
    var spec: Spec
    var registered: bool
    var mode: Mode
    var modeEpoch: nat
    var sequence: nat
    var specRevision: nat
    var nextLeaseSerial: nat
    var totalAcquired: nat
    var leases: set<LeaseKey>

    function View(): Slot
      reads this
    {
      Slot(spec, registered, mode, modeEpoch, sequence, specRevision, nextLeaseSerial, totalAcquired, leases)
    }

    constructor (spec: Spec, mode: Mode)
      ensures View() == NewSlot(spec, mode)
    {
      this.spec, this.mode, registered := spec, mode, true;
      modeEpoch, sequence, specRevision, nextLeaseSerial, totalAcquired := 0, 0, 0, 0, 0;
      leases := {};
    }

    method PublishLocked()
      modifies this`sequence
      ensures sequence == old(sequence) + 1
    {
      sequence := sequence + 1;
    }

    method TryAcquire(now: nat) returns (r: Result<Lease, AcquireError>)
      modifies this
      ensures match Acquire(old(View()), now)
              case Ok((after, lease)) => View() == after && r == Ok(lease)
              case Err(error) => View() == old(View()) && r == Err(error)
    {
      if !registered {
        return Err(Retired(spec.id));
      }
      if mode != Active {
        return Err(NotActive(spec.id, mode));
      }
      var serial := nextLeaseSerial;
      nextLeaseSerial := nextLeaseSerial + 1;
      totalAcquired := totalAcquired + 1;
      var key := LeaseKey(now, serial);
      leases := leases + {key};
      PublishLocked();
      r := Ok(Lease(key, spec));
    }

    /** A lease is released at most once. */
    method ReleaseLease(key: LeaseKey)
      requires key in leases
      modifies this
      ensures View() == Release(old(View()), key)
    {
      leases := leases - {key};
      PublishLocked();
    }

    method ChangeMode(wanted: Mode, requireRegistered: bool) returns (ok: bool)
      modifies this
      ensures ok <==> !requireRegistered || registered
      ensures View() == if ok then EnterMode(old(View()), wanted) else old(View())
    {
      if requireRegistered && !registered {
        return false;
      }
      if mode != wanted {
        mode := wanted;
        modeEpoch := modeEpoch + 1;
        PublishLocked();
      }
      ok := true;
    }

    method Activate() returns (ok: bool)
      modifies this
      ensures View() == SetMode(old(View()), Active) && (ok <==> registered)
    {
      ok := ChangeMode(Active, true);
    }

    method Disable()
      modifies this
      ensures View() == SetMode(old(View()), Disabled)
    {
      var _ := ChangeMode(Disabled, false);
    }

    method BeginDrain() returns (token: DrainToken)
      modifies this
      ensures View() == SetMode(old(View()), Draining) && token == TokenOf(View())
    {
      if mode != Draining {
        mode := Draining;
        modeEpoch := modeEpoch + 1;
        PublishLocked();
      }
      token := DrainToken(spec.id, modeEpoch);
    }

    method ReconcilePresent(wanted: Spec) returns (revived: bool, updated: bool)
      modifies this
      ensures View() == Present(old(View()), wanted)
      ensures revived == !old(registered) && updated == (old(spec) != wanted)
    {
      revived, updated := !registered, spec != wanted;
      registered := true;
      if updated {
        spec := wanted;
        specRevision := specRevision + 1;
      }
      if revived || updated {
        PublishLocked();
      }
    }

    method ReconcileAbsent() returns (retired: bool)
      modifies this
      ensures View() == Absent(old(View())) && retired == old(registered)
    {
      if !registered {
        return false;
      }
      registered := false;
      if mode == Active {
        mode := Disabled;
        modeEpoch := modeEpoch + 1;
      }
      PublishLocked();
      retired := true;
    }
  }

  // ---- Any interleaving of operations on one slot ----

  datatype SlotOp =
    | TryAcquire(now: nat)
    | Drop(key: LeaseKey)
    | Change(mode: Mode)
    | BePresent(endpoint: string)
    | BeAbsent

  /** Leases are released only by their holders. */
  predicate OpEnabled(s: Slot, op: SlotOp) { op.Drop? ==> op.key in s.leases }

  function StepSlot(s: Slot, op: SlotOp): Slot {
    match op
    case TryAcquire(now) => (match Acquire(s, now) case Ok((t, _)) => t case Err(_) => s)
    case Drop(key) => Release(s, key)
    case Change(mode) => SetMode(s, mode)
    case BePresent(endpoint) => Present(s, Spec(s.spec.id, endpoint))
    case BeAbsent => Absent(s)
  }

  function RunSlot(s: Slot, ops: seq<SlotOp>): Option<Slot> {
    if ops == [] then Some(s)
    else
      var before := RunSlot(s, ops[..|ops| - 1]);
      var op := ops[|ops| - 1];
      if before.Some? && OpEnabled(before.value, op) then Some(StepSlot(before.value, op)) else None
  }

  lemma {:induction false} SlotStaysValid(s: Slot, ops: seq<SlotOp>)
    requires s.Valid() && RunSlot(s, ops).Some?
    ensures RunSlot(s, ops).value.Valid() && RunSlot(s, ops).value.spec.id == s.spec.id
    decreases |ops|
  {
    if ops != [] {
      SlotStaysValid(s, ops[..|ops| - 1]);
    }
  }

  /** The mode is a function of the mode epoch: along any run the epoch never falls,
    * and a slot at the same epoch is in the same mode. */
  lemma {:induction false} EpochFixesMode(s: Slot, ops: seq<SlotOp>)
    requires RunSlot(s, ops).Some?
    ensures RunSlot(s, ops).value.modeEpoch >= s.modeEpoch
    ensures RunSlot(s, ops).value.modeEpoch == s.modeEpoch ==> RunSlot(s, ops).value.mode == s.mode
    decreases |ops|
  {
    if ops != [] {
      EpochFixesMode(s, ops[..|ops| - 1]);
    }
  }

  /** Whoever waits for a change and sees the sequence he saw before has missed nothing: along any
    * run it never falls, and at the same sequence the whole slot is the same; and at the same
    * revision the specification is. */
  lemma {:induction false} SequenceCountsChanges(s: Slot, ops: seq<SlotOp>)
    requires RunSlot(s, ops).Some?
    ensures var t := RunSlot(s, ops).value;
            && t.sequence >= s.sequence && (t.sequence == s.sequence ==> t == s)
            && t.specRevision >= s.specRevision && (t.specRevision == s.specRevision ==> t.spec == s.spec)
    decreases |ops|
  {
    if ops != [] {
      SequenceCountsChanges(s, ops[..|ops| - 1]);
    }
  }

  /** A retired slot never grants a lease, however it is drained, disabled or activated: it is
    * not active, until it is registered again. */
  lemma {:induction false} RetiredNeverActive(s: Slot, ops: seq<SlotOp>, now: nat)
    requires RunSlot(s, ops).Some? && (!s.registered ==> s.mode != Active)
    ensures var t := RunSlot(s, ops).value;
            && (!t.registered ==> t.mode != Active && Acquire(t, now).Err?)
            && (Acquire(t, now).Ok? <==> t.registered && t.mode == Active)
            && (Acquire(t, now).Ok? ==>
                  var (after, lease) := Acquire(t, now).value;
                  && after.leases == t.leases + {lease.key}
                  && lease.key.startedAt == now && lease.key.serial == t.nextLeaseSerial && lease.spec == t.spec
                  && after.totalAcquired == t.totalAcquired + 1)
    decreases |ops|
  {
    if ops != [] {
      RetiredNeverActive(s, ops[..|ops| - 1], now);
    }
  }

  /** The slot never left the drain it was in at the start of the run. */
  predicate StayedDraining(s: Slot, ops: seq<SlotOp>)
    requires RunSlot(s, ops).Some?
    decreases |ops|
  {
    if ops == [] then s.mode == Draining
    else StayedDraining(s, ops[..|ops| - 1]) && RunSlot(s, ops).value.mode == Draining
  }

  lemma {:induction false} SameEpochStayed(s: Slot, ops: seq<SlotOp>)
    requires RunSlot(s, ops).Some? && s.mode == Draining
    ensures RunSlot(s, ops).value.modeEpoch == s.modeEpoch <==> StayedDraining(s, ops)
    decreases |ops|
  {
    if ops != [] {
      SameEpochStayed(s, ops[..|ops| - 1]);
      EpochFixesMode(s, ops[..|ops| - 1]);
      EpochFixesMode(s, ops);
    }
  }

  /** While the gate stays closed the leases are those present when it closed, less
    * exactly the ones released since, and none is added. */
  lemma {:induction false} FenceOnlyShrinks(s: Slot, ops: seq<SlotOp>)
    requires RunSlot(s, ops).Some? && s.mode == Draining && StayedDraining(s, ops)
    ensures var t := RunSlot(s, ops).value;
            && t.leases <= s.leases && t.totalAcquired == s.totalAcquired
            && forall k <- s.leases :: k in t.leases <==> Drop(k) !in ops
    decreases |ops|
  {
    if ops != [] {
      var front, op := ops[..|ops| - 1], ops[|ops| - 1];
      FenceOnlyShrinks(s, front);
      assert forall o :: o in ops <==> o in front || o == op;
    }
  }

  /** A drain waiter is told it succeeded exactly if the slot never left its drain and
    * every lease the fence found was released, whatever else was interleaved; no
    * lease was added meanwhile. */
  lemma DrainTokenSound(s: Slot, ops: seq<SlotOp>)
    requires s.Valid() && RunSlot(SetMode(s, Draining), ops).Some?
    ensures var fenced := SetMode(s, Draining);
            var t := RunSlot(fenced, ops).value;
            var verdict := WaitCheck(t, TokenOf(fenced));
            && (verdict.Some? && verdict.value.Ok? <==> StayedDraining(fenced, ops) && forall k <- s.leases :: Drop(k) in ops)
            && (verdict.Some? && verdict.value.Ok? ==> t.leases == {} && t.totalAcquired == s.totalAcquired)
            && (verdict.Some? && verdict.value.Err? <==> !StayedDraining(fenced, ops))
            && (verdict.Some? && verdict.value.Err? ==>
                  verdict.value.error == Superseded(s.spec.id, fenced.modeEpoch, t.modeEpoch, t.mode) && t.modeEpoch > fenced.modeEpoch)
  {
    var fenced := SetMode(s, Draining);
    SlotStaysValid(fenced, ops);
    SameEpochStayed(fenced, ops);
    EpochFixesMode(fenced, ops);
    if StayedDraining(fenced, ops) {
      FenceOnlyShrinks(fenced, ops);
    }
  }

  // ---- The registry, as the map of its slots ----

  /** Two specifications with one id reject the whole list. */
  function Desired(specs: seq<Spec>): Result<map<BackendId, Spec>, BackendId> {
    if specs == [] then Ok(map[])
    else
      var last := specs[|specs| - 1];
      match Desired(specs[..|specs| - 1])
      case Err(id) => Err(id)
      case Ok(desired) => if last.id in desired then Err(last.id) else Ok(desired[last.id := last])
  }

  predicate DistinctIds(specs: seq<Spec>) {
    forall i, j :: 0 <= i < j < |specs| ==> specs[i].id != specs[j].id
  }

  lemma {:induction false} DesiredExactly(specs: seq<Spec>)
    ensures Desired(specs).Ok? <==> DistinctIds(specs)
    ensures Desired(specs).Ok? ==>
              var desired := Desired(specs).value;
              && (forall id <- desired :: desired[id].id == id && desired[id] in specs)
              && (forall s <- specs :: s.id in desired && desired[s.id] == s)
    decreases |specs|
  {
    if specs != [] {
      var front, last := specs[..|specs| - 1], specs[|specs| - 1];
      DesiredExactly(front);
      if !DistinctIds(front) {
        assert !DistinctIds(specs);
      } else if last.id in Desired(front).value {
        var i :| 0 <= i < |front| && front[i] == Desired(front).value[last.id];
        assert specs[i].id == specs[|specs| - 1].id;
      } else {
        forall i, j | 0 <= i < j < |specs| ensures specs[i].id != specs[j].id {
          assert j < |front| ==> front[i].id != front[j].id;
          assert front[i] in front;
        }
      }
    }
  }

  /** What a reconciliation does to one id. */
  function ReconcileOne(slot: Option<Slot>, wanted: Option<Spec>): Option<Slot> {
    match (slot, wanted)
    case (Some(s), Some(spec)) => Some(Present(s, spec))
    case (Some(s), None) => Some(Absent(s))
    case (None, Some(spec)) => Some(NewSlot(spec, Disabled))
    case (None, None) => None
  }

  function Lookup<V>(m: map<BackendId, V>, id: BackendId): Option<V> {
    if id in m then Some(m[id]) else None
  }

  datatype Report = Report(added: set<BackendId>, revived: set<BackendId>, updated: set<BackendId>, retired: set<BackendId>)

  predicate ReportExact(report: Report, was: map<BackendId, Slot>, desired: map<BackendId, Spec>) {
    && report.added == desired.Keys - was.Keys
    && report.revived == (set id | id in desired && id in was && !was[id].registered)
    && report.updated == (set id | id in desired && id in was && was[id].spec != desired[id])
    && report.retired == (set id | id in was && id !in desired && was[id].registered)
  }

  function RetiredExcept(was: map<BackendId, Slot>, kept: set<BackendId>): map<BackendId, Slot> {
    map id | id in was :: if id in kept then was[id] else Absent(was[id])
  }

  function Admitted(was: map<BackendId, Slot>, spec: Spec): map<BackendId, Slot> {
    was[spec.id := if spec.id in was then Present(was[spec.id], spec) else NewSlot(spec, Disabled)]
  }

  function AdmitAll(was: map<BackendId, Slot>, desired: map<BackendId, Spec>, ids: set<BackendId>): map<BackendId, Slot>
    requires ids <= desired.Keys
  {
    map id | id in was.Keys + ids ::
      if id !in ids then was[id] else if id in was then Present(was[id], desired[id]) else NewSlot(desired[id], Disabled)
  }

  lemma RetireStep(was: map<BackendId, Slot>, kept: set<BackendId>, id: BackendId)
    requires id in was && id in kept
    ensures RetiredExcept(was, kept)[id] == was[id]
    ensures RetiredExcept(was, kept)[id := Absent(was[id])] == RetiredExcept(was, kept - {id})
  {
  }

  lemma RetireEnd(was: map<BackendId, Slot>, kept: set<BackendId>, desired: set<BackendId>)
    requires kept <= desired && was.Keys - kept !! desired
    ensures RetiredExcept(was, kept) == RetiredExcept(was, desired)
  {
  }

  lemma AdmitStart(was: map<BackendId, Slot>, desired: map<BackendId, Spec>)
    ensures AdmitAll(was, desired, desired.Keys - desired.Keys) == was
    ensures desired.Keys - {} == desired.Keys
  {
  }

  lemma AdmitStep(was: map<BackendId, Slot>, desired: map<BackendId, Spec>, todo: set<BackendId>, id: BackendId)
    requires todo <= desired.Keys && id in todo && desired[id].id == id
    ensures Admitted(AdmitAll(was, desired, desired.Keys - todo), desired[id])
         == AdmitAll(was, desired, desired.Keys - (todo - {id}))
  {
  }

  lemma ReconciledAll(was: map<BackendId, Slot>, desired: map<BackendId, Spec>)
    ensures AdmitAll(RetiredExcept(was, desired.Keys), desired, desired.Keys) == ReconcileAll(was, desired)
  {
  }

  /** Every id at once. */
  function ReconcileAll(was: map<BackendId, Slot>, desired: map<BackendId, Spec>): map<BackendId, Slot> {
    map id | id in was.Keys + desired.Keys :: ReconcileOne(Lookup(was, id), Lookup(desired, id)).value
  }

  /** What that means for each id: a backend that is listed is registered with its specification,
    * new ones disabled and idle and the others as they were; one that is not listed is retired,
    * disabled if it was active, and keeps its leases. */
  lemma ReconciledMeans(was: map<BackendId, Slot>, desired: map<BackendId, Spec>, id: BackendId)
    requires id in was.Keys + desired.Keys
    ensures id in ReconcileAll(was, desired)
    ensures var now := ReconcileAll(was, desired)[id];
            && (now.registered <==> id in desired)
            && (id in desired ==> now.spec == desired[id])
            && (id !in was ==> now.mode == Disabled && now.leases == {} && now.totalAcquired == 0 && now.modeEpoch == 0)
            && (id in was ==> now.leases == was[id].leases && now.totalAcquired == was[id].totalAcquired)
            && (id in was && (id in desired || !was[id].registered || was[id].mode != Active) ==>
                  now.mode == was[id].mode && now.modeEpoch == was[id].modeEpoch)
            && (id in was && id !in desired && was[id].registered && was[id].mode == Active ==>
                  now.mode == Disabled && now.modeEpoch == was[id].modeEpoch + 1)
            && (id in was && id !in desired ==> now.spec == was[id].spec)
  {
  }

  class BackendRegistry {
    var slots: map<BackendId, BackendSlot>

    /** Each id has its own slot object. */
    ghost predicate Valid()
      reads this
    {
      forall i, j | i in slots && j in slots && i != j :: slots[i] != slots[j]
    }

    function View(): map<BackendId, Slot>
      reads this, slots.Values
    {
      map id | id in slots :: slots[id].View()
    }

    constructor ()
      ensures Valid() && View() == map[] && slots == map[]
    {
      slots := map[];
    }

    /** Retired tombstones are hidden from ordinary lookups. */
    method Get(id: BackendId) returns (r: Option<BackendSlot>)
      ensures r == if id in slots && slots[id].registered then Some(slots[id]) else None
    {
      if id in slots && slots[id].registered {
        return Some(slots[id]);
      }
      r := None;
    }

    method Reconcile(specs: seq<Spec>) returns (r: Result<Report, BackendId>)
      requires Valid()
      modifies this, slots.Values
      ensures Valid() && SameObjects(old(slots))
      ensures match Desired(specs)
              case Err(id) => r == Err(id) && View() == old(View())
              case Ok(desired) => r.Ok? && ReportExact(r.value, old(View()), desired) && View() == ReconcileAll(old(View()), desired)
    {
      var desired: map<BackendId, Spec> := map[];
      for i := 0 to |specs|
        invariant Desired(specs[..i]) == Ok(desired)
      {
        assert specs[..i + 1][..i] == specs[..i];
        if specs[i].id in desired {
          DuplicateRejects(specs, i + 1);
          return Err(specs[i].id);
        }
        desired := desired[specs[i].id := specs[i]];
      }
      assert specs[..|specs|] == specs;
      DesiredExactly(specs);
      var report := ReconcileDesired(desired);
      r := Ok(report);
    }

    method ReconcileDesired(desired: map<BackendId, Spec>) returns (report: Report)
      requires Valid() && forall id <- desired :: desired[id].id == id
      modifies this, slots.Values
      ensures Valid() && SameObjects(old(slots))
      ensures ReportExact(report, old(View()), desired) && View() == ReconcileAll(old(View()), desired)
    {
      ghost var was := View();
      report := ReportFor(desired);
      ReconciledAll(was, desired);
      RetireMissing(desired);
      AdmitDesired(desired);
    }

    method ReportFor(desired: map<BackendId, Spec>) returns (report: Report)
      ensures ReportExact(report, View(), desired)
    {
      report := Report(desired.Keys - slots.Keys,
                       set id | id in desired && id in slots && !slots[id].registered,
                       set id | id in desired && id in slots && slots[id].spec != desired[id],
                       set id | id in slots && id !in desired && slots[id].registered);
    }

    /** Slots already known keep their identity; the others are new. */
    twostate predicate SameObjects(before: map<BackendId, BackendSlot>)
      reads this
    {
      && before.Keys <= slots.Keys
      && (forall id <- before :: slots[id] == before[id])
      && (forall id <- slots :: id !in before ==> fresh(slots[id]))
    }

    method RetireOne(id: BackendId)
      requires Valid() && id in slots
      modifies slots[id]
      ensures View() == old(View())[id := Absent(old(View())[id])]
    {
      var _ := slots[id].ReconcileAbsent();
    }

    method RetireMissing(desired: map<BackendId, Spec>)
      requires Valid()
      modifies slots.Values
      ensures View() == RetiredExcept(old(View()), desired.Keys)
    {
      ghost var was := View();
      var todo := slots.Keys - desired.Keys;
      ghost var kept := slots.Keys;
      while todo != {}
        invariant todo <= kept && todo !! desired.Keys && kept <= slots.Keys && slots.Keys - kept !! desired.Keys
        invariant kept - todo <= desired.Keys
        invariant View() == RetiredExcept(was, kept)
        decreases |todo|
      {
        var id :| id in todo;
        RetireStep(was, kept, id);
        RetireOne(id);
        kept := kept - {id};
        todo := todo - {id};
      }
      RetireEnd(was, kept, desired.Keys);
    }

    method AdmitOne(spec: Spec)
      requires Valid()
      modifies this, if spec.id in slots then {slots[spec.id]} else {}
      ensures Valid() && SameObjects(old(slots)) && slots.Keys == old(slots.Keys) + {spec.id}
      ensures View() == Admitted(old(View()), spec)
    {
      if spec.id in slots {
        var _, _ := slots[spec.id].ReconcilePresent(spec);
      } else {
        var slot := new BackendSlot(spec, Disabled);
        slots := slots[spec.id := slot];
      }
    }

    method AdmitDesired(desired: map<BackendId, Spec>)
      requires Valid() && forall id <- desired :: desired[id].id == id
      modifies this, slots.Values
      ensures Valid() && SameObjects(old(slots))
      ensures View() == AdmitAll(old(View()), desired, desired.Keys)
    {
      ghost var was := View();
      var todo := desired.Keys;
      AdmitStart(was, desired);
      while todo != {}
        invariant todo <= desired.Keys
        invariant Valid() && SameObjects(old(slots))
        invariant View() == AdmitAll(was, desired, desired.Keys - todo)
        decreases |todo|
      {
        var id :| id in todo;
        AdmitStep(was, desired, todo, id);
        ghost var before := slots;
        AdmitOne(desired[id]);
        assert before.Keys <= slots.Keys && forall i <- before :: slots[i] == before[i];
        todo := todo - {id};
      }
    }

    /** Forget the quiescent tombstones, and nothing else. */
    method PruneRetired() returns (removed: set<BackendId>)
      requires Valid()
      modifies this
      ensures Valid() && slots == old(slots) - removed
      ensures removed == set id | id in old(slots) && old(!slots[id].registered && slots[id].leases == {} && slots[id].mode != Draining)
    {
      removed := set id | id in slots && !slots[id].registered && slots[id].leases == {} && slots[id].mode != Draining;
      slots := slots - removed;
    }
  }

  lemma {:induction false} DuplicateRejects(specs: seq<Spec>, n: nat)
    requires n <= |specs| && Desired(specs[..n]).Err?
    ensures Desired(specs) == Desired(specs[..n])
    decreases |specs| - n
  {
    if n < |specs| {
      assert specs[..n + 1][..n] == specs[..n];
      DuplicateRejects(specs, n + 1);
    } else {
      assert specs[..n] == specs;
    }
  }
}
