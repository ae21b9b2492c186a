/** The published topology and its atomic reload (src/runtime.rs).
  */
module Runtime {
  import opened Wrappers
  import opened Backend
  import opened BackendState

  datatype Endpoints = Endpoints(url: string, metricsUrl: string, readinessUrl: string)

  datatype BackendConfig = BackendConfig(id: BackendId, endpoints: Endpoints, capacity: Option<nat>)

  /** An already validated configuration: its ids are distinct. */
  datatype RuntimeConfig = RuntimeConfig(backends: seq<BackendConfig>)
  {
    predicate Valid() {
      forall i, j :: 0 <= i < j < |backends| ==> backends[i].id != backends[j].id
    }

    function Find(id: BackendId): Option<BackendConfig> { FindIn(backends, id) }
  }

  function FindIn(backends: seq<BackendConfig>, id: BackendId): Option<BackendConfig> {
    if backends == [] then None
    else if backends[|backends| - 1].id == id then Some(backends[|backends| - 1])
    else FindIn(backends[..|backends| - 1], id)
  }

  function SpecOf(b: BackendConfig): Spec { Spec(b.id, b.endpoints.url) }

  function Specs(backends: seq<BackendConfig>): seq<Spec> {
    seq(|backends|, i requires 0 <= i < |backends| => SpecOf(backends[i]))
  }

  datatype Published = Published(config: RuntimeConfig, revision: nat, generations: map<BackendId, nat>, nextGeneration: nat)

  datatype Topology = Topology(published: Published, slots: map<BackendId, Slot>)

  datatype Change = Removed | ChangedEndpoints

  datatype ApplyError = MustBeDisabled(id: BackendId, change: Change)

  /** The change of one configured backend that a candidate asks for. */
  function ChangeOf(prior: BackendConfig, config: RuntimeConfig): Option<Change> {
    match config.Find(prior.id)
    case None => Some(Removed)
    case Some(b) => if b.endpoints != prior.endpoints then Some(ChangedEndpoints) else None
  }

  predicate Quiescent(slots: map<BackendId, Slot>, id: BackendId) {
    id in slots ==> slots[id].mode == Disabled && slots[id].leases == {}
  }

  function FirstBlocked(current: seq<BackendConfig>, config: RuntimeConfig, slots: map<BackendId, Slot>): Option<ApplyError> {
    if current == [] then None
    else
      var change := ChangeOf(current[0], config);
      if change.Some? && !Quiescent(slots, current[0].id) then Some(MustBeDisabled(current[0].id, change.value))
      else FirstBlocked(current[1..], config, slots)
  }

  /** Generations of a candidate: an unchanged backend keeps its own, any other takes
    * the next number. */
  function Assign(backends: seq<BackendConfig>, current: Published): (map<BackendId, nat>, nat) {
    if backends == [] then (map[], current.nextGeneration)
    else
      var b := backends[|backends| - 1];
      var (generations, next) := Assign(backends[..|backends| - 1], current);
      if KeepsEndpoints(b, current) then (generations[b.id := current.generations[b.id]], next)
      else (generations[b.id := next], next + 1)
  }

  predicate KeepsEndpoints(b: BackendConfig, current: Published) {
    var prior := current.config.Find(b.id);
    b.id in current.generations && prior.Some? && prior.value.endpoints == b.endpoints
  }

  function ModesApplied(slots: map<BackendId, Slot>, modes: Overlay, ids: set<BackendId>): map<BackendId, Slot> {
    map id | id in slots :: if id in ids then SetMode(slots[id], ModeOf(modes, id)) else slots[id]
  }

  function Fenced(slots: map<BackendId, Slot>, modes: Overlay): set<BackendId> {
    set id | id in slots && slots[id].registered && id in modes
  }

  function NewIds(slots: map<BackendId, Slot>, desired: map<BackendId, Spec>): set<BackendId> {
    set id | id in desired && (id !in slots || !slots[id].registered)
  }

  /** New and revived slots take their stored mode, then stored fences are reasserted. */
  function Resloted(slots: map<BackendId, Slot>, desired: map<BackendId, Spec>, modes: Overlay): map<BackendId, Slot> {
    var entered := ModesApplied(ReconcileAll(slots, desired), modes, NewIds(slots, desired));
    ModesApplied(entered, modes, Fenced(entered, modes))
  }

  /** The slots which the backends of a configuration ask for. */
  function Wanted(config: RuntimeConfig): map<BackendId, Spec>
    requires config.Valid()
  {
    ValidConfigDesired(config);
    Desired(Specs(config.backends)).value
  }

  function Accepted(t: Topology, config: RuntimeConfig, modes: Overlay): Topology
    requires config.Valid()
  {
    Topology(NextPublished(t.published, config), Resloted(t.slots, Wanted(config), modes))
  }

  function NextPublished(current: Published, config: RuntimeConfig): Published {
    var (generations, next) := Assign(config.backends, current);
    Published(config, current.revision + 1, generations, next)
  }

  function Apply(t: Topology, config: RuntimeConfig, modes: Overlay): Result<Topology, ApplyError>
    requires config.Valid()
  {
    var blocked := FirstBlocked(t.published.config.backends, config, t.slots);
    if blocked.Some? then Err(blocked.value) else Ok(Accepted(t, config, modes))
  }

  const NOTHING_PUBLISHED := Published(RuntimeConfig([]), 0, map[], 1)

  /** The topology at startup: everything registered is active. */
  function FromConfig(config: RuntimeConfig): Topology
    requires config.Valid()
  {
    Topology(NextPublished(NOTHING_PUBLISHED, config),
             ModesApplied(ReconcileAll(map[], Wanted(config)), map[], NewIds(map[], Wanted(config))))
  }

  function RestoreModes(t: Topology, modes: Overlay): Topology {
    t.(slots := ModesApplied(t.slots, modes, Fenced(t.slots, modes)))
  }

  class RuntimeState {
    var config: RuntimeConfig
    var revision: nat
    var generations: map<BackendId, nat>
    var nextGeneration: nat
    const registry: BackendRegistry

    ghost predicate Valid()
      reads this, registry
    {
      registry.Valid()
    }

    function PublishedView(): Published
      reads this
    {
      Published(config, revision, generations, nextGeneration)
    }

    ghost function View(): Topology
      reads this, registry, registry.slots.Values
    {
      Topology(PublishedView(), registry.View())
    }

    constructor (config: RuntimeConfig)
      requires config.Valid()
      ensures Valid() && View() == FromConfig(config)
    {
      var empty := new BackendRegistry();
      registry := empty;
      this.config, revision, generations, nextGeneration := RuntimeConfig([]), 0, map[], 1;
      new;
      Boot(config);
    }

    method Boot(wanted: RuntimeConfig)
      requires Valid() && wanted.Valid() && PublishedView() == NOTHING_PUBLISHED && registry.slots == map[]
      modifies this, registry
      ensures Valid() && View() == FromConfig(wanted)
    {
      RegisterAll(wanted);
      Publish(wanted);
    }

    method RegisterAll(wanted: RuntimeConfig)
      requires Valid() && wanted.Valid() && registry.slots == map[]
      modifies registry
      ensures Valid()
      ensures registry.View() == ModesApplied(ReconcileAll(map[], Wanted(wanted)), map[], NewIds(map[], Wanted(wanted)))
    {
      ValidConfigDesired(wanted);
      assert registry.View() == map[];
      var report := registry.Reconcile(Specs(wanted.backends));
      assert registry.slots.Keys == registry.View().Keys;
      assert report.value.added == NewIds(map[], Wanted(wanted));
      ApplyModes(report.value.added, map[]);
    }

    method AssignGenerations(wanted: RuntimeConfig) returns (chosen: map<BackendId, nat>, next: nat)
      ensures (chosen, next) == Assign(wanted.backends, PublishedView())
    {
      chosen, next := map[], nextGeneration;
      for i := 0 to |wanted.backends|
        invariant (chosen, next) == Assign(wanted.backends[..i], PublishedView())
      {
        assert wanted.backends[..i + 1][..i] == wanted.backends[..i];
        var b := wanted.backends[i];
        var prior := config.Find(b.id);
        if b.id in generations && prior.Some? && prior.value.endpoints == b.endpoints {
          chosen := chosen[b.id := generations[b.id]];
        } else {
          chosen := chosen[b.id := next];
          next := next + 1;
        }
      }
      assert wanted.backends[..|wanted.backends|] == wanted.backends;
    }

    /** Look for a changed or removed backend that is still in use. */
    method CheckQuiescent(wanted: RuntimeConfig) returns (blocked: Option<ApplyError>)
      ensures blocked == FirstBlocked(config.backends, wanted, registry.View())
    {
      for i := 0 to |config.backends|
        invariant FirstBlocked(config.backends, wanted, registry.View()) == FirstBlocked(config.backends[i..], wanted, registry.View())
      {
        var prior := config.backends[i];
        var change := ChangeOf(prior, wanted);
        assert config.backends[i..][0] == prior && config.backends[i..][1..] == config.backends[i + 1..];
        if change.Some? && prior.id in registry.slots {
          var slot := registry.slots[prior.id];
          if slot.mode != Disabled || slot.leases != {} {
            return Some(MustBeDisabled(prior.id, change.value));
          }
        }
      }
      blocked := None;
    }

    method ApplyMode(id: BackendId, mode: Mode)
      requires Valid() && id in registry.slots
      modifies registry.slots[id]
      ensures registry.View() == old(registry.View())[id := SetMode(old(registry.View())[id], mode)]
    {
      var slot := registry.slots[id];
      match mode {
        case Active => var _ := slot.Activate();
        case Draining => var _ := slot.BeginDrain();
        case Disabled => slot.Disable();
      }
    }

    method ApplyModes(ids: set<BackendId>, modes: Overlay)
      requires Valid() && ids <= registry.slots.Keys
      modifies registry.slots.Values
      ensures registry.View() == ModesApplied(old(registry.View()), modes, ids)
    {
      ghost var was := registry.View();
      var todo := ids;
      ModesStart(was, modes, ids);
      while todo != {}
        invariant todo <= ids
        invariant registry.View() == ModesApplied(was, modes, ids - todo)
        decreases |todo|
      {
        var id :| id in todo;
        ModesStep(was, modes, ids, todo, id);
        ApplyMode(id, ModeOf(modes, id));
        todo := todo - {id};
      }
    }

    method ApplyWithModes(wanted: RuntimeConfig, modes: Overlay) returns (r: Result<nat, ApplyError>)
      requires Valid() && wanted.Valid()
      modifies this, registry, registry.slots.Values
      ensures Valid()
      ensures r.Err? <==> Apply(old(View()), wanted, modes).Err?
      ensures r.Err? ==> r.error == Apply(old(View()), wanted, modes).error && View() == old(View())
      ensures r.Ok? ==> View() == Apply(old(View()), wanted, modes).value && r.value == revision == old(revision) + 1 && config == wanted
    {
      var blocked := CheckQuiescent(wanted);
      if blocked.Some? {
        return Err(blocked.value);
      }
      Accept(wanted, modes);
      r := Ok(revision);
    }

    method Accept(wanted: RuntimeConfig, modes: Overlay)
      requires Valid() && wanted.Valid()
      modifies this, registry, registry.slots.Values
      ensures Valid() && PublishedView() == NextPublished(old(PublishedView()), wanted)
      ensures registry.View() == Resloted(old(registry.View()), Wanted(wanted), modes)
    {
      Reslot(wanted, modes);
      Publish(wanted);
    }

    method Publish(wanted: RuntimeConfig)
      modifies this
      ensures PublishedView() == NextPublished(old(PublishedView()), wanted)
    {
      var chosen, next := AssignGenerations(wanted);
      config, revision, generations, nextGeneration := wanted, revision + 1, chosen, next;
    }

    method Reslot(wanted: RuntimeConfig, modes: Overlay)
      requires Valid() && wanted.Valid()
      modifies registry, registry.slots.Values
      ensures Valid() && fresh(registry.slots.Values - old(registry.slots.Values))
      ensures registry.View() == Resloted(old(registry.View()), Wanted(wanted), modes)
    {
      ReconcileModes(wanted, modes);
      ReassertModes(modes);
    }

    method ReconcileModes(wanted: RuntimeConfig, modes: Overlay)
      requires Valid() && wanted.Valid()
      modifies registry, registry.slots.Values
      ensures Valid() && fresh(registry.slots.Values - old(registry.slots.Values))
      ensures registry.View() == ModesApplied(ReconcileAll(old(registry.View()), Wanted(wanted)), modes,
                                              NewIds(old(registry.View()), Wanted(wanted)))
    {
      ghost var was := registry.View();
      ValidConfigDesired(wanted);
      var report := registry.Reconcile(Specs(wanted.backends));
      assert registry.slots.Keys == registry.View().Keys;
      assert report.value.added + report.value.revived == NewIds(was, Wanted(wanted));
      ApplyModes(report.value.added + report.value.revived, modes);
    }

    method ReassertModes(modes: Overlay)
      requires Valid()
      modifies registry.slots.Values
      ensures Valid() && registry.View() == ModesApplied(old(registry.View()), modes, Fenced(old(registry.View()), modes))
    {
      var fenced := set id | id in registry.slots && registry.slots[id].registered && id in modes;
      assert fenced == Fenced(registry.View(), modes);
      ApplyModes(fenced, modes);
    }

    method RestoreStoredModes(modes: Overlay)
      requires Valid()
      modifies registry.slots.Values
      ensures Valid() && View() == RestoreModes(old(View()), modes)
    {
      ReassertModes(modes);
    }
  }

  lemma ModesStart(was: map<BackendId, Slot>, modes: Overlay, ids: set<BackendId>)
    ensures ModesApplied(was, modes, ids - ids) == was && ids - {} == ids
  {
  }

  lemma ModesStep(was: map<BackendId, Slot>, modes: Overlay, ids: set<BackendId>, todo: set<BackendId>, id: BackendId)
    requires todo <= ids <= was.Keys && id in todo
    ensures var now := ModesApplied(was, modes, ids - todo);
            now[id := SetMode(now[id], ModeOf(modes, id))] == ModesApplied(was, modes, ids - (todo - {id}))
  {
  }

  lemma ValidConfigDesired(config: RuntimeConfig)
    requires config.Valid()
    ensures Desired(Specs(config.backends)).Ok?
  {
    DesiredExactly(Specs(config.backends));
  }

  // ---- Generations ----

  function IdsOf(backends: seq<BackendConfig>): set<BackendId> {
    set b | b in backends :: b.id
  }

  /** Each configured backend has one generation, and no two share one. */
  predicate PublishedOk(p: Published) {
    && p.config.Valid()
    && p.generations.Keys == IdsOf(p.config.backends)
    && (forall id <- p.generations :: p.generations[id] < p.nextGeneration)
    && Distinct(p.generations)
  }

  predicate Distinct(generations: map<BackendId, nat>) {
    forall i, j | i in generations && j in generations && generations[i] == generations[j] :: i == j
  }

  lemma {:induction false} FindExactly(backends: seq<BackendConfig>, id: BackendId)
    ensures FindIn(backends, id).Some? <==> id in IdsOf(backends)
    ensures FindIn(backends, id).Some? ==> FindIn(backends, id).value in backends && FindIn(backends, id).value.id == id
    decreases |backends|
  {
    if backends != [] {
      var front, last := backends[..|backends| - 1], backends[|backends| - 1];
      FindExactly(front, id);
      assert forall b :: b in backends <==> b in front || b == last;
    }
  }

  /** The number a prefix of the candidate gives to each of its backends. */
  ghost predicate AssignedRight(generations: map<BackendId, nat>, next: nat, backends: seq<BackendConfig>, current: Published) {
    && generations.Keys == IdsOf(backends) && current.nextGeneration <= next && Distinct(generations)
    && forall b <- backends :: b.id in generations &&
         if KeepsEndpoints(b, current) then generations[b.id] == current.generations[b.id]
         else current.nextGeneration <= generations[b.id] < next
  }

  lemma {:induction false} AssignExactly(backends: seq<BackendConfig>, current: Published)
    requires PublishedOk(current) && RuntimeConfig(backends).Valid()
    ensures var (generations, next) := Assign(backends, current); AssignedRight(generations, next, backends, current)
    decreases |backends|
  {
    if backends != [] {
      LastIdIsNew(backends);
      AssignExactly(backends[..|backends| - 1], current);
      AssignLast(backends[..|backends| - 1], backends[|backends| - 1], current);
      AssignOneMore(backends, current);
    }
  }

  lemma AssignOneMore(backends: seq<BackendConfig>, current: Published)
    requires PublishedOk(current) && backends != []
    requires var front := backends[..|backends| - 1];
             var (generations, next) := Assign(front, current);
             AssignedRight(generations, next, front, current) && forall b <- front :: b.id != backends[|backends| - 1].id
    requires Distinct(Assign(backends, current).0)
    requires IdsOf(backends) == IdsOf(backends[..|backends| - 1]) + {backends[|backends| - 1].id}
    ensures var (generations, next) := Assign(backends, current); AssignedRight(generations, next, backends, current)
  {
    var front, last := backends[..|backends| - 1], backends[|backends| - 1];
    assert forall b :: b in backends <==> b in front || b == last;
  }

  lemma LastIdIsNew(backends: seq<BackendConfig>)
    requires backends != [] && RuntimeConfig(backends).Valid()
    ensures RuntimeConfig(backends[..|backends| - 1]).Valid()
    ensures IdsOf(backends) == IdsOf(backends[..|backends| - 1]) + {backends[|backends| - 1].id}
    ensures backends[|backends| - 1].id !in IdsOf(backends[..|backends| - 1])
  {
    var front := backends[..|backends| - 1];
    assert forall b :: b in backends <==> b in front || b == backends[|backends| - 1];
  }

  lemma AssignLast(front: seq<BackendConfig>, last: BackendConfig, current: Published)
    requires PublishedOk(current) && last.id !in IdsOf(front)
    requires var (generations, next) := Assign(front, current); AssignedRight(generations, next, front, current)
    ensures var (before, next) := Assign(front, current);
            && Distinct(before[last.id := if KeepsEndpoints(last, current) then current.generations[last.id] else next])
            && forall b <- front :: b.id != last.id
  {
    var (before, next) := Assign(front, current);
    forall b | b in front ensures b.id != last.id {
      assert b.id in IdsOf(front);
    }
    forall id | id in before ensures before[id] < next && (before[id] < current.nextGeneration ==> id in current.generations && before[id] == current.generations[id]) {
      assert id in IdsOf(front);
      var b :| b in front && b.id == id;
    }
  }

  /** Configured in both, with the same three endpoints. */
  predicate SameEndpoints(a: RuntimeConfig, b: RuntimeConfig, id: BackendId) {
    a.Find(id).Some? && b.Find(id).Some? && a.Find(id).value.endpoints == b.Find(id).value.endpoints
  }

  lemma GenerationOf(current: Published, config: RuntimeConfig, id: BackendId)
    requires PublishedOk(current) && config.Valid() && id in NextPublished(current, config).generations
    requires var (generations, next) := Assign(config.backends, current);
             AssignedRight(generations, next, config.backends, current)
    ensures var q := NextPublished(current, config);
            && q.generations[id] < q.nextGeneration
            && if SameEndpoints(current.config, config, id)
               then id in current.generations && q.generations[id] == current.generations[id]
               else q.generations[id] >= current.nextGeneration
  {
    FindExactly(config.backends, id);
    FindExactly(current.config.backends, id);
    assert config.Find(id).value in config.backends;
  }

  /** A published topology gives every backend a generation of its own, and keeps that
    * of exactly the backends which stay configured with the same three endpoints; any
    * other backend gets one never used before. */
  lemma ApplyGenerations(current: Published, config: RuntimeConfig)
    requires PublishedOk(current) && config.Valid()
    ensures var q := NextPublished(current, config);
            && PublishedOk(q) && current.nextGeneration <= q.nextGeneration
            && forall id <- q.generations ::
                 if SameEndpoints(current.config, config, id)
                 then id in current.generations && q.generations[id] == current.generations[id]
                 else q.generations[id] >= current.nextGeneration
  {
    AssignExactly(config.backends, current);
    forall id | id in NextPublished(current, config).generations
      ensures var q := NextPublished(current, config);
              && q.generations[id] < q.nextGeneration
              && if SameEndpoints(current.config, config, id)
                 then id in current.generations && q.generations[id] == current.generations[id]
                 else q.generations[id] >= current.nextGeneration
    {
      GenerationOf(current, config, id);
    }
  }

  lemma {:induction false} BlockedExactly(current: seq<BackendConfig>, config: RuntimeConfig, slots: map<BackendId, Slot>)
    ensures FirstBlocked(current, config, slots).None?
       <==> forall b <- current :: ChangeOf(b, config).Some? ==> Quiescent(slots, b.id)
  {
    if current != [] {
      BlockedExactly(current[1..], config, slots);
      assert forall b :: b in current <==> b == current[0] || b in current[1..];
    }
  }

  /** A candidate is rejected exactly if it removes or moves a backend which is not
    * disabled or still leased. */
  lemma RejectedExactly(t: Topology, config: RuntimeConfig, modes: Overlay)
    requires config.Valid()
    ensures Apply(t, config, modes).Err?
       <==> exists b <- t.published.config.backends ::
              && (config.Find(b.id).None? || config.Find(b.id).value.endpoints != b.endpoints)
              && b.id in t.slots && (t.slots[b.id].mode != Disabled || t.slots[b.id].leases != {})
  {
    BlockedExactly(t.published.config.backends, config, t.slots);
  }

  /** A configured backend stands in the way of a candidate: it would go or move, and is not
    * disabled or still leased. */
  predicate Blocks(b: BackendConfig, config: RuntimeConfig, slots: map<BackendId, Slot>) {
    && (config.Find(b.id).None? || config.Find(b.id).value.endpoints != b.endpoints)
    && b.id in slots && (slots[b.id].mode != Disabled || slots[b.id].leases != {})
  }

  /** The rejection names the first such backend and whether it would go or move. */
  lemma {:induction false} RejectionNamesFirst(current: seq<BackendConfig>, config: RuntimeConfig, slots: map<BackendId, Slot>)
    requires FirstBlocked(current, config, slots).Some?
    ensures exists i :: 0 <= i < |current| && Blocks(current[i], config, slots)
              && (forall j :: 0 <= j < i ==> !Blocks(current[j], config, slots))
              && FirstBlocked(current, config, slots).value
                 == MustBeDisabled(current[i].id, if config.Find(current[i].id).None? then Removed else ChangedEndpoints)
    decreases |current|
  {
    if Blocks(current[0], config, slots) {
    } else {
      RejectionNamesFirst(current[1..], config, slots);
      var i :| 0 <= i < |current[1..]| && Blocks(current[1..][i], config, slots)
               && (forall j :: 0 <= j < i ==> !Blocks(current[1..][j], config, slots))
               && FirstBlocked(current[1..], config, slots).value
                  == MustBeDisabled(current[1..][i].id, if config.Find(current[1..][i].id).None? then Removed else ChangedEndpoints);
      assert current[i + 1] == current[1..][i];
      assert forall j :: 0 < j < i + 1 ==> current[j] == current[1..][j - 1];
    }
  }

  lemma ReslotedAt(was: map<BackendId, Slot>, desired: map<BackendId, Spec>, modes: Overlay, id: BackendId)
    requires id in was.Keys + desired.Keys
    ensures id in Resloted(was, desired, modes)
    ensures var slot := ReconcileOne(Lookup(was, id), Lookup(desired, id)).value;
            var entered := if id in NewIds(was, desired) then SetMode(slot, ModeOf(modes, id)) else slot;
            Resloted(was, desired, modes)[id] == if entered.registered && id in modes then SetMode(entered, ModeOf(modes, id)) else entered
  {
    var entered := ModesApplied(ReconcileAll(was, desired), modes, NewIds(was, desired));
    assert id in entered;
  }

  /** A configured backend, after a reload. */
  predicate KeptRight(was: Option<Slot>, spec: Spec, stored: Option<Mode>, now: Slot) {
    && now.registered && now.spec == spec
    && now.leases == (if was.Some? then was.value.leases else {})
    && now.totalAcquired == (if was.Some? then was.value.totalAcquired else 0)
    && now.mode == if stored.Some? then stored.value else if was.Some? && was.value.registered then was.value.mode else Active
  }

  /** A backend that is not configured, after a reload. */
  predicate RetiredRight(was: Slot, now: Slot) {
    && !now.registered && now.leases == was.leases && now.totalAcquired == was.totalAcquired
    && now.mode == if was.mode == Active then Disabled else was.mode
  }

  lemma ReslotedRight(was: map<BackendId, Slot>, desired: map<BackendId, Spec>, modes: Overlay, id: BackendId)
    requires ValidOverlay(modes) && id in was.Keys + desired.Keys && (id in was && !was[id].registered ==> was[id].mode != Active)
    ensures var now := Resloted(was, desired, modes);
            && id in now
            && (id in desired ==> KeptRight(Lookup(was, id), desired[id], Lookup(modes, id), now[id]))
            && (id !in desired ==> RetiredRight(was[id], now[id]))
  {
    ReslotedAt(was, desired, modes, id);
  }

  /** What an accepted candidate does to each slot.  A configured backend is registered with its
    * endpoint; it is in its stored mode if it is fenced, and else active if it was not
    * registered and in the mode it was in if it was.  Any other slot is retired and not left
    * active.  Nobody loses or gains a lease. */
  lemma AcceptedSlots(t: Topology, config: RuntimeConfig, modes: Overlay, id: BackendId)
    requires config.Valid() && ValidOverlay(modes) && Apply(t, config, modes).Ok?
    requires id in t.slots && !t.slots[id].registered ==> t.slots[id].mode != Active
    ensures Apply(t, config, modes).value.published.revision == t.published.revision + 1
    ensures var slots := Apply(t, config, modes).value.slots;
            && (id in slots <==> id in t.slots || id in IdsOf(config.backends))
            && (id in IdsOf(config.backends) ==>
                  config.Find(id).Some? && KeptRight(Lookup(t.slots, id), Spec(id, config.Find(id).value.endpoints.url), Lookup(modes, id), slots[id]))
            && (id in t.slots && id !in IdsOf(config.backends) ==> RetiredRight(t.slots[id], slots[id]))
  {
    WantedIds(config);
    FindExactly(config.backends, id);
    if id in t.slots.Keys + Wanted(config).Keys {
      ReslotedRight(t.slots, Wanted(config), modes, id);
    }
    if id in IdsOf(config.backends) {
      assert config.Find(id).value in config.backends;
    }
  }

  // ---- Runs of reloads, with slots changing in between ----

  datatype Event = Reload(config: RuntimeConfig, modes: Overlay) | Operate(id: BackendId, op: SlotOp)

  /** Between reloads slots are leased, released, drained, disabled and activated;
    * only reloads change which backends are registered. */
  predicate EventEnabled(t: Topology, e: Event) {
    match e
    case Reload(config, _) => config.Valid()
    case Operate(id, op) => id in t.slots && OpEnabled(t.slots[id], op) && (op.TryAcquire? || op.Drop? || op.Change?)
  }

  function StepTopology(t: Topology, e: Event): Topology
    requires EventEnabled(t, e)
  {
    match e
    case Reload(config, modes) => (match Apply(t, config, modes) case Ok(u) => u case Err(_) => t)
    case Operate(id, op) => t.(slots := t.slots[id := StepSlot(t.slots[id], op)])
  }

  function RunTopology(t: Topology, events: seq<Event>): Option<Topology> {
    if events == [] then Some(t)
    else
      var before := RunTopology(t, events[..|events| - 1]);
      var e := events[|events| - 1];
      if before.Some? && EventEnabled(before.value, e) then Some(StepTopology(before.value, e)) else None
  }

  /** All along the run the backend is configured with the endpoints it had at first. */
  ghost predicate StayedConfigured(t: Topology, events: seq<Event>, id: BackendId)
    requires RunTopology(t, events).Some?
    decreases |events|
  {
    var now := RunTopology(t, events).value.published.config.Find(id);
    var first := t.published.config.Find(id);
    && first.Some? && now.Some? && now.value.endpoints == first.value.endpoints
    && (events == [] || StayedConfigured(t, events[..|events| - 1], id))
  }

  lemma {:induction false} PublishedStaysOk(t: Topology, events: seq<Event>)
    requires PublishedOk(t.published) && RunTopology(t, events).Some?
    ensures PublishedOk(RunTopology(t, events).value.published)
    ensures t.published.nextGeneration <= RunTopology(t, events).value.published.nextGeneration
    decreases |events|
  {
    if events != [] {
      var front, e := events[..|events| - 1], events[|events| - 1];
      PublishedStaysOk(t, front);
      if e.Reload? {
        ApplyGenerations(RunTopology(t, front).value.published, e.config);
      }
    }
  }

  lemma {:induction false} OldNumbersAreKept(t: Topology, events: seq<Event>, id: BackendId)
    requires PublishedOk(t.published) && RunTopology(t, events).Some?
    ensures PublishedOk(RunTopology(t, events).value.published)
    ensures var q := RunTopology(t, events).value.published;
            && (StayedConfigured(t, events, id) ==>
                  id in q.generations && id in t.published.generations && q.generations[id] == t.published.generations[id])
            && (id in q.generations && q.generations[id] < t.published.nextGeneration ==> StayedConfigured(t, events, id))
    decreases |events|
  {
    PublishedStaysOk(t, events);
    FindExactly(t.published.config.backends, id);
    FindExactly(RunTopology(t, events).value.published.config.backends, id);
    if events != [] {
      var front, e := events[..|events| - 1], events[|events| - 1];
      OldNumbersAreKept(t, front, id);
      PublishedStaysOk(t, front);
      var p := RunTopology(t, front).value.published;
      FindExactly(p.config.backends, id);
      if e.Reload? && Apply(RunTopology(t, front).value, e.config, e.modes).Ok? {
        ApplyGenerations(p, e.config);
      }
    }
  }

  /** After any sequence of applied and rejected reloads, a backend has the generation
    * it had before if and only if it stayed configured with the same endpoints
    * throughout, and no generation has passed to another backend. */
  lemma GenerationsIdentify(t: Topology, events: seq<Event>)
    requires PublishedOk(t.published) && RunTopology(t, events).Some?
    ensures var (p, q) := (t.published, RunTopology(t, events).value.published);
            && PublishedOk(q)
            && (forall id <- q.generations ::
                  (id in p.generations && p.generations[id] == q.generations[id]) <==> StayedConfigured(t, events, id))
            && (forall i, j | i in p.generations && j in q.generations && p.generations[i] == q.generations[j] :: i == j)
  {
    PublishedStaysOk(t, events);
    forall j ensures var (p, q) := (t.published, RunTopology(t, events).value.published);
        j in q.generations ==>
          && ((j in p.generations && p.generations[j] == q.generations[j]) <==> StayedConfigured(t, events, j))
          && (forall i <- p.generations :: p.generations[i] == q.generations[j] ==> i == j)
    {
      OldNumbersAreKept(t, events, j);
    }
  }

  /** A startup topology is in order, and active throughout. */
  lemma StartupOk(config: RuntimeConfig)
    requires config.Valid()
    ensures PublishedOk(FromConfig(config).published)
    ensures FromConfig(config).slots.Keys == IdsOf(config.backends)
    ensures forall id <- FromConfig(config).slots ::
              var slot := FromConfig(config).slots[id];
              && slot == SetMode(NewSlot(Wanted(config)[id], Disabled), Active)
              && slot.registered && slot.mode == Active && slot.leases == {} && slot.spec == Wanted(config)[id]
  {
    ApplyGenerations(NOTHING_PUBLISHED, config);
    WantedIds(config);
    FirstSlots(Wanted(config));
  }

  lemma FirstSlots(desired: map<BackendId, Spec>)
    ensures var slots := ModesApplied(ReconcileAll(map[], desired), map[], NewIds(map[], desired));
            && slots.Keys == desired.Keys
            && forall id <- slots :: slots[id] == SetMode(NewSlot(desired[id], Disabled), Active)
  {
  }

  lemma WantedIds(config: RuntimeConfig)
    requires config.Valid()
    ensures Wanted(config).Keys == IdsOf(config.backends)
    ensures forall b <- config.backends :: Wanted(config)[b.id] == SpecOf(b)
  {
    DesiredExactly(Specs(config.backends));
    forall b | b in config.backends ensures b.id in Wanted(config) && Wanted(config)[b.id] == SpecOf(b) {
      var i :| 0 <= i < |config.backends| && config.backends[i] == b;
      assert Specs(config.backends)[i] == SpecOf(b);
    }
    forall id | id in Wanted(config) ensures id in IdsOf(config.backends) {
      var i :| 0 <= i < |config.backends| && Specs(config.backends)[i] == Wanted(config)[id];
      assert config.backends[i] in config.backends;
    }
  }
}
