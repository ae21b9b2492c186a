/** Runs of the backend registry (src/backend.rs) with its slots as shared objects:
  * requests keep a reference to the slot they leased, whatever happens to the
  * registry meanwhile.
  */
module Registry {
  import opened Wrappers
  import opened Backend

  /** A reference to a slot object. */
  type Ref = nat

  /** All slot objects ever made, which of them the registry retains, and the leases
    * held by requests. */
  datatype State = State(heap: map<Ref, Slot>, members: map<BackendId, Ref>, held: set<(Ref, LeaseKey)>)

  datatype Action =
    | Reconcile(specs: seq<Spec>, made: map<BackendId, Ref>)
    | Lend(id: BackendId, now: nat)
    | Return(r: Ref, key: LeaseKey)
    | Operate(r: Ref, mode: Mode)
    | Prune

  /** `made` names the objects a reconciliation allocates for the ids it adds. */
  ghost predicate Enabled(s: State, a: Action) {
    match a
    case Reconcile(specs, made) =>
      Desired(specs).Ok? ==>
        && made.Keys == Desired(specs).value.Keys - s.members.Keys
        && (forall id <- made :: made[id] !in s.heap)
        && (forall i, j | i in made && j in made && i != j :: made[i] != made[j])
    case Lend(_, _) => true
    case Return(r, key) => (r, key) in s.held && r in s.heap
    case Operate(r, _) => r in s.heap
    case Prune => true
  }

  /** What a reconciliation leaves of the object `r`: members are reconciled by id,
    * other objects are not reachable. */
  ghost function Reconciled(s: State, desired: map<BackendId, Spec>, made: map<BackendId, Ref>, r: Ref): Slot
    requires r in s.heap || (r in made.Values && made.Keys <= desired.Keys)
  {
    if r in s.heap then
      var slot := s.heap[r];
      if Lookup(s.members, slot.spec.id) != Some(r) then slot
      else ReconcileOne(Some(slot), Lookup(desired, slot.spec.id)).value
    else
      var id :| id in made && made[id] == r;
      NewSlot(desired[id], Disabled)
  }

  ghost function ReconciledState(s: State, desired: map<BackendId, Spec>, made: map<BackendId, Ref>): State
    requires made.Keys <= desired.Keys
  {
    State(map r | r in s.heap.Keys + made.Values :: Reconciled(s, desired, made, r), s.members + made, s.held)
  }

  ghost function Step(s: State, a: Action): State
    requires Enabled(s, a)
  {
    match a
    case Reconcile(specs, made) =>
      (match Desired(specs)
       case Err(_) => s
       case Ok(desired) =>
         ReconciledState(s, desired, made))
    case Lend(id, now) =>
      if id !in s.members || s.members[id] !in s.heap then s
      else
        var r := s.members[id];
        (match Acquire(s.heap[r], now)
         case Err(_) => s
         case Ok((slot, lease)) => s.(heap := s.heap[r := slot], held := s.held + {(r, lease.key)}))
    case Return(r, key) =>
      s.(heap := s.heap[r := Release(s.heap[r], key)], held := s.held - {(r, key)})
    case Operate(r, mode) => s.(heap := s.heap[r := SetMode(s.heap[r], mode)])
    case Prune =>
      s.(members := map id | id in s.members && (s.members[id] !in s.heap || !ReleasableTombstone(s.heap[s.members[id]])) :: s.members[id])
  }

  ghost function Run(actions: seq<Action>): Option<State> {
    if actions == [] then Some(State(map[], map[], {}))
    else
      var before := Run(actions[..|actions| - 1]);
      var a := actions[|actions| - 1];
      if before.Some? && Enabled(before.value, a) then Some(Step(before.value, a)) else None
  }

  /** The member slots are objects of their own ids ... */
  ghost predicate MembersOk(s: State) {
    forall id <- s.members :: s.members[id] in s.heap && s.heap[s.members[id]].spec.id == id
  }

  ghost predicate Retained(s: State, r: Ref)
    requires r in s.heap
  {
    Lookup(s.members, s.heap[r].spec.id) == Some(r)
  }

  /** ... an object outside the registry is retired and idle, and a slot counts exactly
    * the leases which requests hold. */
  ghost predicate ObjectOk(s: State, r: Ref)
    requires r in s.heap
  {
    && s.heap[r].Valid()
    && (Retained(s, r) || (!s.heap[r].registered && s.heap[r].leases == {}))
    && (forall key :: (r, key) in s.held <==> key in s.heap[r].leases)
  }

  ghost predicate Inv(s: State) {
    && MembersOk(s)
    && (forall r <- s.heap :: ObjectOk(s, r))
    && (forall held <- s.held :: held.0 in s.heap)
  }

  // ---- Every step keeps the invariant ----

  lemma OneObject(s: State, t: State, r: Ref)
    requires Inv(s) && r in s.heap && t.members == s.members
    requires r in t.heap && t.heap == s.heap[r := t.heap[r]] && t.heap[r].spec == s.heap[r].spec
    requires ObjectOk(t, r)
    requires forall held: (Ref, LeaseKey) :: held.0 != r ==> (held in t.held <==> held in s.held)
    ensures Inv(t)
  {
    forall o | o in t.heap ensures ObjectOk(t, o) {
      if o != r {
        assert ObjectOk(s, o);
      }
    }
  }

  lemma AcquireKeeps(s: State, id: BackendId, now: nat)
    requires Inv(s)
    ensures Inv(Step(s, Lend(id, now)))
  {
    var t := Step(s, Lend(id, now));
    if id in s.members && Acquire(s.heap[s.members[id]], now).Ok? {
      var r := s.members[id];
      assert ObjectOk(s, r);
      OneObject(s, t, r);
    }
  }

  lemma DropKeeps(s: State, r: Ref, key: LeaseKey)
    requires Inv(s) && Enabled(s, Return(r, key))
    ensures Inv(Step(s, Return(r, key)))
  {
    assert ObjectOk(s, r);
    OneObject(s, Step(s, Return(r, key)), r);
  }

  lemma ChangeKeeps(s: State, r: Ref, mode: Mode)
    requires Inv(s) && r in s.heap
    ensures Inv(Step(s, Operate(r, mode)))
  {
    assert ObjectOk(s, r);
    OneObject(s, Step(s, Operate(r, mode)), r);
  }

  lemma PruneKeeps(s: State)
    requires Inv(s)
    ensures Inv(Step(s, Prune))
  {
    var t := Step(s, Prune);
    forall r | r in t.heap ensures ObjectOk(t, r) {
      assert ObjectOk(s, r);
    }
  }

  lemma ReconcileKeepsObject(s: State, desired: map<BackendId, Spec>, made: map<BackendId, Ref>, r: Ref)
    requires Inv(s) && r in s.heap && made.Keys <= desired.Keys && made.Keys !! s.members.Keys
    requires forall id <- desired :: desired[id].id == id
    ensures var slot := Reconciled(s, desired, made, r);
            && slot.Valid() && slot.leases == s.heap[r].leases && slot.spec.id == s.heap[r].spec.id
            && (Lookup(s.members + made, slot.spec.id) == Some(r) || (!slot.registered && slot.leases == {}))
  {
    assert ObjectOk(s, r);
  }

  lemma ReconcileMakesObject(s: State, desired: map<BackendId, Spec>, made: map<BackendId, Ref>, id: BackendId)
    requires made.Keys <= desired.Keys && id in made && made[id] !in s.heap && desired[id].id == id
    requires forall i, j | i in made && j in made && i != j :: made[i] != made[j]
    ensures Reconciled(s, desired, made, made[id]) == NewSlot(desired[id], Disabled)
  {
  }

  lemma ReconcileMembers(s: State, specs: seq<Spec>, made: map<BackendId, Ref>)
    requires Inv(s) && Enabled(s, Reconcile(specs, made)) && Desired(specs).Ok?
    ensures MembersOk(Step(s, Reconcile(specs, made)))
  {
    DesiredExactly(specs);
    var desired := Desired(specs).value;
    var t := Step(s, Reconcile(specs, made));
    forall id | id in t.members ensures t.members[id] in t.heap && t.heap[t.members[id]].spec.id == id {
      if id in made {
        ReconcileMakesObject(s, desired, made, id);
      } else {
        ReconcileKeepsObject(s, desired, made, s.members[id]);
      }
    }
  }

  lemma ReconcileObject(s: State, specs: seq<Spec>, made: map<BackendId, Ref>, r: Ref)
    requires Inv(s) && Enabled(s, Reconcile(specs, made)) && Desired(specs).Ok?
    requires r in s.heap || r in made.Values
    ensures r in Step(s, Reconcile(specs, made)).heap && ObjectOk(Step(s, Reconcile(specs, made)), r)
  {
    DesiredExactly(specs);
    var desired := Desired(specs).value;
    if r in s.heap {
      assert ObjectOk(s, r);
      ReconcileKeepsObject(s, desired, made, r);
    } else {
      var id :| id in made && made[id] == r;
      ReconcileMakesObject(s, desired, made, id);
    }
  }

  lemma ReconcileKeeps(s: State, specs: seq<Spec>, made: map<BackendId, Ref>)
    requires Inv(s) && Enabled(s, Reconcile(specs, made))
    ensures Inv(Step(s, Reconcile(specs, made)))
  {
    if Desired(specs).Ok? {
      ReconcileMembers(s, specs, made);
      var t := Step(s, Reconcile(specs, made));
      forall r | r in t.heap ensures ObjectOk(t, r) {
        ReconcileObject(s, specs, made, r);
      }
    }
  }

  lemma StepKeeps(s: State, a: Action)
    requires Inv(s) && Enabled(s, a)
    ensures Inv(Step(s, a))
  {
    match a
    case Reconcile(specs, made) => ReconcileKeeps(s, specs, made);
    case Lend(id, now) => AcquireKeeps(s, id, now);
    case Return(r, key) => DropKeeps(s, r, key);
    case Operate(r, mode) => ChangeKeeps(s, r, mode);
    case Prune => PruneKeeps(s);
  }

  lemma {:induction false} InvAlways(actions: seq<Action>)
    requires Run(actions).Some?
    ensures Inv(Run(actions).value)
    decreases |actions|
  {
    if actions != [] {
      InvAlways(actions[..|actions| - 1]);
      StepKeeps(Run(actions[..|actions| - 1]).value, actions[|actions| - 1]);
    }
  }

  // ---- Main results ----

  /** Over any run at most one slot object of an id is registered, and every lease a
    * request holds is counted, once, by a slot the registry still retains. */
  lemma RegistryConserves(actions: seq<Action>)
    requires Run(actions).Some?
    ensures var s := Run(actions).value;
            && (forall q, r | q in s.heap && r in s.heap && s.heap[q].registered && s.heap[r].registered
                  && s.heap[q].spec.id == s.heap[r].spec.id :: q == r)
            && (forall held <- s.held :: held.0 in s.heap && Retained(s, held.0) && held.1 in s.heap[held.0].leases)
            && (forall r <- s.heap :: forall key <- s.heap[r].leases :: (r, key) in s.held)
  {
    InvAlways(actions);
    var s := Run(actions).value;
    forall q, r | q in s.heap && r in s.heap && s.heap[q].registered && s.heap[r].registered
        && s.heap[q].spec.id == s.heap[r].spec.id
      ensures q == r
    {
      assert ObjectOk(s, q) && ObjectOk(s, r);
    }
    forall held | held in s.held ensures Retained(s, held.0) && held.1 in s.heap[held.0].leases {
      assert ObjectOk(s, held.0) && held == (held.0, held.1);
    }
    forall r | r in s.heap ensures forall key <- s.heap[r].leases :: (r, key) in s.held {
      assert ObjectOk(s, r);
    }
  }

  lemma ForgottenStep(s: State, a: Action, r: Ref)
    requires Inv(s) && Enabled(s, a) && r in s.heap && !Retained(s, r)
    ensures var t := Step(s, a);
            r in t.heap && !Retained(t, r) && t.heap[r].leases == {} && t.heap[r].totalAcquired == s.heap[r].totalAcquired
  {
    assert ObjectOk(s, r);
    if a.Reconcile? && Desired(a.specs).Ok? {
      assert r !in a.made.Values;
    }
    if a.Lend? && a.id in s.members {
      assert s.heap[s.members[a.id]].spec.id == a.id;
    }
    if a.Return? {
      assert a.r != r;
    }
  }

  /** A slot the registry forgot never holds a lease again, even when its id returns. */
  lemma {:induction false} PrunedNeverGains(actions: seq<Action>, more: seq<Action>, r: Ref)
    requires Run(actions).Some? && Run(actions + more).Some?
    requires r in Run(actions).value.heap && !Retained(Run(actions).value, r)
    ensures var t := Run(actions + more).value;
            && r in t.heap && !Retained(t, r) && t.heap[r].leases == {}
            && t.heap[r].totalAcquired == Run(actions).value.heap[r].totalAcquired
    decreases |more|
  {
    if more == [] {
      assert actions + more == actions;
      InvAlways(actions);
      assert ObjectOk(Run(actions).value, r);
    } else {
      var front, a := more[..|more| - 1], more[|more| - 1];
      assert (actions + more)[..|actions + more| - 1] == actions + front;
      PrunedNeverGains(actions, front, r);
      InvAlways(actions + front);
      ForgottenStep(Run(actions + front).value, a, r);
    }
  }

  /** Reconciling an id back in keeps the operator's mode, its epoch, the counters and
    * the leases of its slot; a list with a repeated id changes nothing. */
  lemma RevivalKeepsSlot(s: State, specs: seq<Spec>, made: map<BackendId, Ref>, id: BackendId)
    requires Inv(s) && Enabled(s, Reconcile(specs, made))
    ensures !DistinctIds(specs) ==> Step(s, Reconcile(specs, made)) == s
    ensures DistinctIds(specs) && id in s.members && (exists spec <- specs :: spec.id == id) ==>
              var t := Step(s, Reconcile(specs, made));
              var (before, after) := (s.heap[s.members[id]], t.heap[t.members[id]]);
              && t.members[id] == s.members[id] && after.registered && after.spec in specs
              && after.mode == before.mode && after.modeEpoch == before.modeEpoch
              && after.totalAcquired == before.totalAcquired && after.leases == before.leases
  {
    DesiredExactly(specs);
    if DistinctIds(specs) && id in s.members && (exists spec <- specs :: spec.id == id) {
      RevivedKeepsSlot(s, Desired(specs).value, made, id);
    }
  }

  lemma RevivedKeepsSlot(s: State, desired: map<BackendId, Spec>, made: map<BackendId, Ref>, id: BackendId)
    requires MembersOk(s) && id in s.members && id in desired && made.Keys == desired.Keys - s.members.Keys
    ensures var t := ReconciledState(s, desired, made);
            && t.members[id] == s.members[id] && t.members[id] in t.heap
            && t.heap[t.members[id]] == Present(s.heap[s.members[id]], desired[id])
  {
  }

  /** The registry as `BackendRegistry.View` sees it. */
  ghost function Members(s: State): map<BackendId, Slot>
    requires MembersOk(s)
  {
    map id | id in s.members :: s.heap[s.members[id]]
  }

  lemma ReconcileSeenAt(s: State, desired: map<BackendId, Spec>, made: map<BackendId, Ref>, id: BackendId)
    requires Inv(s) && made.Keys == desired.Keys - s.members.Keys
    requires forall i <- made :: made[i] !in s.heap
    requires forall i, j | i in made && j in made && i != j :: made[i] != made[j]
    requires forall i <- desired :: desired[i].id == i
    requires id in s.members || id in made
    ensures (s.members + made)[id] in s.heap.Keys + made.Values
    ensures Reconciled(s, desired, made, (s.members + made)[id])
         == ReconcileOne(Lookup(Members(s), id), Lookup(desired, id)).value
  {
    if id in made {
      ReconcileMakesObject(s, desired, made, id);
    }
  }

  /** Seen through the registry, a step on shared objects does to each id what
    * `BackendRegistry.Reconcile` does to it. */
  lemma ReconcileSeen(s: State, specs: seq<Spec>, made: map<BackendId, Ref>, id: BackendId)
    requires Inv(s) && Enabled(s, Reconcile(specs, made)) && Desired(specs).Ok?
    ensures MembersOk(Step(s, Reconcile(specs, made)))
    ensures Lookup(Members(Step(s, Reconcile(specs, made))), id)
         == ReconcileOne(Lookup(Members(s), id), Lookup(Desired(specs).value, id))
  {
    ReconcileMembers(s, specs, made);
    DesiredExactly(specs);
    if id in s.members || id in made {
      ReconcileSeenAt(s, Desired(specs).value, made, id);
    }
  }
}
