/** A burst of requests between two scrape results (src/routing.rs, src/telemetry.rs):
  * selections taken one after another, interleaved with releases.
  */
module Burst {
  import opened Wrappers
  import opened Backend
  import opened Runtime
  import opened Telemetry
  import opened Routing

  /** Sequences counted against each backend. */
  type Allocation = map<BackendId, nat>

  /** The pressure of a backend with so many new sequences. */
  type Load = (BackendId, nat) -> real

  ghost predicate Rising(load: Load) {
    forall id, m: nat, n: nat :: m <= n ==> load(id, m) <= load(id, n)
  }

  ghost function Sum(ids: set<BackendId>, a: Allocation): nat
    requires ids <= a.Keys
    decreases |ids|
  {
    if ids == {} then 0
    else
      var id :| id in ids;
      a[id] + Sum(ids - {id}, a)
  }

  lemma {:induction false} SumMonotone(ids: set<BackendId>, a: Allocation, b: Allocation)
    requires ids <= a.Keys && ids <= b.Keys && forall id <- ids :: a[id] <= b[id]
    ensures Sum(ids, a) <= Sum(ids, b)
    ensures (exists id <- ids :: a[id] < b[id]) ==> Sum(ids, a) < Sum(ids, b)
    decreases |ids|
  {
    if ids != {} {
      var id :| id in ids && Sum(ids, a) == a[id] + Sum(ids - {id}, a) && Sum(ids, b) == b[id] + Sum(ids - {id}, b);
      SumMonotone(ids - {id}, a, b);
      if i :| i in ids && a[i] < b[i] {
        assert i != id ==> i in ids - {id};
      }
    }
  }

  /** No request of the burst would see a lower pressure on another backend. */
  ghost predicate Balanced(load: Load, start: Allocation, now: Allocation) {
    && start.Keys == now.Keys && (forall id <- now :: start[id] <= now[id])
    && forall i, j | i in now && j in now && start[i] < now[i] :: load(i, now[i]) <= load(j, now[j] + 1)
  }

  /** One more request, on a backend where it sees the least pressure. */
  ghost predicate GreedyStep(load: Load, now: Allocation, id: BackendId, next: Allocation) {
    && id in now && next == now[id := now[id] + 1]
    && forall j <- now :: load(id, now[id] + 1) <= load(j, now[j] + 1)
  }

  lemma GreedyKeeps(load: Load, start: Allocation, now: Allocation, id: BackendId, next: Allocation)
    requires Rising(load) && Balanced(load, start, now) && GreedyStep(load, now, id, next)
    ensures Balanced(load, start, next)
  {
    forall i, j | i in next && j in next && start[i] < next[i] ensures load(i, next[i]) <= load(j, next[j] + 1) {
      GreedyPair(load, start, now, id, i, j);
    }
  }

  lemma GreedyPair(load: Load, start: Allocation, now: Allocation, id: BackendId, i: BackendId, j: BackendId)
    requires Rising(load) && Balanced(load, start, now) && id in now && i in now && j in now
    requires load(id, now[id] + 1) <= load(j, now[j] + 1) && (i == id || start[i] < now[i])
    ensures load(i, if i == id then now[i] + 1 else now[i]) <= load(j, if j == id then now[j] + 2 else now[j] + 1)
  {
    assert load(id, now[id] + 1) <= load(id, now[id] + 2);
    if i != id {
      assert load(i, now[i]) <= load(j, now[j] + 1);
    }
  }

  /** Some request of the allocation sees at least this pressure. */
  ghost predicate Matched(load: Load, start: Allocation, other: Allocation, pressure: real)
    requires start.Keys == other.Keys
  {
    exists j <- other :: start[j] < other[j] && load(j, other[j]) >= pressure
  }

  /** A balanced allocation is optimal: any other allocation of as many requests has
    * some request at least as badly off as each request of this one. */
  lemma BalancedIsOptimal(load: Load, start: Allocation, now: Allocation, other: Allocation, id: BackendId)
    requires Rising(load) && Balanced(load, start, now) && id in now && start[id] < now[id]
    requires other.Keys == now.Keys && (forall i <- other :: start[i] <= other[i])
    requires Sum(now.Keys, other) == Sum(now.Keys, now)
    ensures Matched(load, start, other, load(id, now[id]))
  {
    if other[id] >= now[id] {
      assert load(id, now[id]) <= load(id, other[id]);
    } else if forall j <- other :: other[j] <= now[j] {
      SumMonotone(now.Keys, other, now);
      assert false;
    } else {
      var j :| j in other && other[j] > now[j];
      assert load(j, now[j] + 1) <= load(j, other[j]);
    }
  }

  // ---- Pressure does not depend on the time ----

  /** The pressure of a backend with `n` new sequences, by its stored observation. */
  function PressureWith(l: Live, config: BackendConfig, settings: Settings, n: nat): real
    requires settings.Valid()
  {
    if l.observation.None? || EffectiveCapacity(l.observation.value.metrics.capacity, config.capacity).None? then 0.0
    else
      var m := l.observation.value.metrics;
      if m.kvCache.Some? && !m.kvCache.value.Valid() then 0.0
      else
        match LeastPressure(Inputs(m.running, m.waiting, EffectiveCapacity(m.capacity, config.capacity).value, n,
                                   if m.kvCache.Some? then Some(m.kvCache.value.Ratio()) else None), settings.kvSoftLimit)
        case Ok(score) => score.pressure
        case Err(_) => 0.0
  }

  lemma ScoreIsPressure(slot: Slot, l: Live, config: BackendConfig, now: nat, settings: Settings)
    requires settings.Valid() && ScoreOf(slot, l, config, now, settings).Some?
    ensures l.observation.Some?
    ensures ScoreOf(slot, l, config, now, settings).value
         == PressureWith(l, config, settings, NewSequences(slot, l.observation.value) + 1)
  {
  }

  lemma {:induction false} PressureRises(l: Live, config: BackendConfig, settings: Settings, m: nat, n: nat)
    requires settings.Valid() && m <= n
    ensures PressureWith(l, config, settings, m) <= PressureWith(l, config, settings, n)
    decreases n - m
  {
    if m < n {
      PressureRises(l, config, settings, m, n - 1);
      PressureStep(l, config, settings, n - 1);
    }
  }

  lemma PressureStep(l: Live, config: BackendConfig, settings: Settings, n: nat)
    requires settings.Valid()
    ensures PressureWith(l, config, settings, n) <= PressureWith(l, config, settings, n + 1)
  {
    if l.observation.Some? && EffectiveCapacity(l.observation.value.metrics.capacity, config.capacity).Some? {
      var s := l.observation.value.metrics;
      var capacity := EffectiveCapacity(s.capacity, config.capacity).value;
      if !(s.kvCache.Some? && !s.kvCache.value.Valid()) {
        var inputs := Inputs(s.running, s.waiting, capacity, n, if s.kvCache.Some? then Some(s.kvCache.value.Ratio()) else None);
        if LeastPressure(inputs, settings.kvSoftLimit).Ok? {
          OneMoreSequence(inputs, settings.kvSoftLimit);
        }
      }
    }
  }

  // ---- The burst ----

  /** The live states between two scrape results, with every circuit closed. */
  datatype Table = Table(live: map<BackendId, Live>, instances: map<BackendId, Instance>, settings: Settings)
  {
    ghost predicate Valid() {
      && settings.Valid() && live.Keys == instances.Keys
      && forall id <- live :: live[id].circuit == Closed && live[id].observation.Some?
    }

    ghost function LoadOf(): Load
      requires settings.Valid() && live.Keys == instances.Keys
    {
      (id: BackendId, n: nat) => if id in live then PressureWith(live[id], instances[id].config, settings, n) else 0.0
    }

    function SceneAt(slots: map<BackendId, Slot>, now: nat): Scene { Scene(slots, live, instances, now, settings) }

    ghost function Counts(slots: map<BackendId, Slot>): Allocation
      requires Valid()
    {
      map id | id in live && id in slots :: NewSequences(slots[id], live[id].observation.value)
    }
  }

  /** What a request reports may change a live state, but not its observation; here it
    * does not open its circuit either. */
  predicate Steady(before: Live, after: Live) { after.observation == before.observation && after.circuit == Closed }

  /** The end of a request releases its lease; what it reported of the circuit before is
    * the live state it leaves. */
  datatype Event =
    | Pick(id: BackendId, now: nat, cursor: nat)
    | Finish(id: BackendId, key: LeaseKey)
    | Outcome(id: BackendId, after: Live)

  /** A pick is a choice of `Select` while every backend is a scored candidate. */
  ghost predicate Enabled(t: Table, slots: map<BackendId, Slot>, e: Event)
    requires t.Valid()
  {
    match e
    case Pick(id, now, cursor) =>
      var s := t.SceneAt(slots, now);
      s.Scored() == s.Candidates() == t.live.Keys && Chosen(s, id, cursor)
    case Finish(id, key) => id in slots && key in slots[id].leases
    case Outcome(id, after) => id in t.live && Steady(t.live[id], after)
  }

  ghost function Step(t: Table, slots: map<BackendId, Slot>, e: Event): map<BackendId, Slot>
    requires t.Valid() && Enabled(t, slots, e)
  {
    match e
    case Pick(id, now, _) => slots[id := Acquire(slots[id], now).value.0]
    case Finish(id, key) => slots[id := Release(slots[id], key)]
    case Outcome(_, _) => slots
  }

  function Turned(t: Table, e: Event): Table {
    if e.Outcome? then t.(live := t.live[e.id := e.after]) else t
  }

  ghost function Run(t: Table, slots: map<BackendId, Slot>, events: seq<Event>): (r: Option<(Table, map<BackendId, Slot>)>)
    requires t.Valid()
    ensures r.Some? ==> r.value.0.Valid()
    decreases |events|
  {
    if events == [] then Some((t, slots))
    else
      var before := Run(t, slots, events[..|events| - 1]);
      var e := events[|events| - 1];
      if before.Some? && Enabled(before.value.0, before.value.1, e)
      then Some((Turned(before.value.0, e), Step(before.value.0, before.value.1, e))) else None
  }

  /** Every outcome of a request that leaves a closed circuit closed is one of these. */
  lemma OutcomesAreSteady(l: Live, permit: Permit, observer: Observer, outcome: CircuitOutcome, now: nat)
    requires l.circuit == Closed
    ensures Resolve(l, permit, outcome, now).circuit == Closed ==> Steady(l, Resolve(l, permit, outcome, now))
    ensures Steady(l, Succeed(l, permit).0) && TryPermit(l, now).0 == l
    ensures BodyFailed(l, observer, now).circuit == Closed ==> Steady(l, BodyFailed(l, observer, now))
  {
  }

  /** The table as it was, but for what requests have reported. */
  ghost predicate Alike(t: Table, u: Table) {
    && u.instances == t.instances && u.settings == t.settings && u.live.Keys == t.live.Keys
    && forall id <- t.live :: u.live[id].observation == t.live[id].observation
  }

  lemma AlikeLoads(t: Table, u: Table, slots: map<BackendId, Slot>)
    requires t.Valid() && u.Valid() && Alike(t, u)
    ensures u.Counts(slots) == t.Counts(slots) && (Observed(u, slots) <==> Observed(t, slots))
    ensures forall id, n: nat :: u.LoadOf()(id, n) == t.LoadOf()(id, n)
  {
  }

  function Picks(events: seq<Event>): nat {
    if events == [] then 0
    else Picks(events[..|events| - 1]) + (if events[|events| - 1].Pick? then 1 else 0)
  }

  /** The observation of each backend was taken no later than its slot's count. */
  ghost predicate Observed(t: Table, slots: map<BackendId, Slot>)
    requires t.Valid()
  {
    t.live.Keys <= slots.Keys && forall id <- t.live :: t.live[id].observation.value.dispatches <= slots[id].totalAcquired
  }

  lemma ChosenBeats(t: Table, slots: map<BackendId, Slot>, e: Event, j: BackendId)
    requires t.Valid() && Enabled(t, slots, e) && e.Pick? && j in t.live
    ensures var s := t.SceneAt(slots, e.now);
            && e.id in s.Scored() && j in s.Scored() && s.Candidate(e.id) && s.Candidate(j)
            && s.Score(e.id).Some? && s.Score(j).Some? && s.Score(e.id).value <= s.Score(j).value
  {
    var s := t.SceneAt(slots, e.now);
    assert s.Pool() == t.live.Keys;
    assert j in s.Scored() && e.id in s.Scored();
    assert j != e.id ==> s.CanPermit(j) && s.Before(e.id, j, e.cursor);
  }

  lemma ScoreIsLoad(t: Table, slots: map<BackendId, Slot>, now: nat, id: BackendId)
    requires t.Valid() && id in t.SceneAt(slots, now).Scored()
    ensures id in t.Counts(slots)
    ensures t.SceneAt(slots, now).Score(id).value == t.LoadOf()(id, t.Counts(slots)[id] + 1)
  {
    ScoreIsPressure(slots[id], t.live[id], t.instances[id].config, now, t.settings);
  }

  lemma PickTakes(t: Table, slots: map<BackendId, Slot>, e: Event)
    requires t.Valid() && Enabled(t, slots, e) && e.Pick?
    ensures e.id in t.live && e.id in slots && Acquire(slots[e.id], e.now).Ok?
    ensures Step(t, slots, e) == slots[e.id := Acquire(slots[e.id], e.now).value.0]
  {
    assert e.id in t.SceneAt(slots, e.now).Candidates();
  }

  lemma PickCounts(t: Table, slots: map<BackendId, Slot>, e: Event)
    requires t.Valid() && Enabled(t, slots, e) && Observed(t, slots) && e.Pick?
    ensures Observed(t, Step(t, slots, e)) && e.id in t.live
    ensures t.Counts(Step(t, slots, e)) == t.Counts(slots)[e.id := t.Counts(slots)[e.id] + 1]
  {
    PickTakes(t, slots, e);
    OneMoreCounted(t, slots, e.id, Acquire(slots[e.id], e.now).value.0);
  }

  lemma OneMoreCounted(t: Table, slots: map<BackendId, Slot>, id: BackendId, slot: Slot)
    requires t.Valid() && Observed(t, slots) && id in t.live && slot.totalAcquired == slots[id].totalAcquired + 1
    ensures Observed(t, slots[id := slot])
    ensures t.Counts(slots[id := slot]) == t.Counts(slots)[id := t.Counts(slots)[id] + 1]
  {
  }

  lemma PickBeats(t: Table, load: Load, slots: map<BackendId, Slot>, e: Event, j: BackendId)
    requires t.Valid() && load == t.LoadOf() && Enabled(t, slots, e) && e.Pick? && j in t.live
    ensures e.id in t.Counts(slots) && j in t.Counts(slots)
    ensures load(e.id, t.Counts(slots)[e.id] + 1) <= load(j, t.Counts(slots)[j] + 1)
  {
    ChosenBeats(t, slots, e, j);
    ScoreIsLoad(t, slots, e.now, e.id);
    ScoreIsLoad(t, slots, e.now, j);
  }

  /** A pick is a greedy step of the allocation, and a release leaves it as it is. */
  lemma PickIsGreedy(t: Table, slots: map<BackendId, Slot>, e: Event)
    requires t.Valid() && Enabled(t, slots, e) && Observed(t, slots) && e.Pick?
    ensures GreedyStep(t.LoadOf(), t.Counts(slots), e.id, t.Counts(Step(t, slots, e)))
  {
    PickCounts(t, slots, e);
    forall j | j in t.Counts(slots)
      ensures t.LoadOf()(e.id, t.Counts(slots)[e.id] + 1) <= t.LoadOf()(j, t.Counts(slots)[j] + 1)
    {
      PickBeats(t, t.LoadOf(), slots, e, j);
    }
  }

  lemma FinishCounts(t: Table, slots: map<BackendId, Slot>, e: Event)
    requires t.Valid() && Enabled(t, slots, e) && Observed(t, slots) && e.Finish?
    ensures Observed(t, Step(t, slots, e)) && t.Counts(Step(t, slots, e)) == t.Counts(slots)
  {
  }

  lemma {:induction false} SumOneMore(ids: set<BackendId>, a: Allocation, id: BackendId)
    requires ids <= a.Keys && id in a
    ensures Sum(ids, a[id := a[id] + 1]) == Sum(ids, a) + (if id in ids then 1 else 0)
    decreases |ids|
  {
    if ids != {} {
      var more := a[id := a[id] + 1];
      var i :| i in ids && Sum(ids, a) == a[i] + Sum(ids - {i}, a) && Sum(ids, more) == more[i] + Sum(ids - {i}, more);
      SumOneMore(ids - {i}, a, id);
    }
  }

  /** How far a burst has come. */
  ghost predicate Spread(load: Load, start: Allocation, now: Allocation, picks: nat) {
    Balanced(load, start, now) && Sum(now.Keys, now) == Sum(start.Keys, start) + picks
  }

  lemma SpreadStep(load: Load, start: Allocation, now: Allocation, picks: nat, id: BackendId, next: Allocation)
    requires Rising(load) && Spread(load, start, now, picks) && GreedyStep(load, now, id, next)
    ensures Spread(load, start, next, picks + 1)
  {
    GreedyKeeps(load, start, now, id, next);
    SumOneMore(now.Keys, now, id);
    assert next.Keys == now.Keys;
  }

  /** A pick is greedy by the loads of the start, too. */
  lemma PickSpreads(t: Table, u: Table, load: Load, start: Allocation, slots: map<BackendId, Slot>, picks: nat, e: Event)
    requires t.Valid() && u.Valid() && Alike(t, u) && load == t.LoadOf() && Rising(load) && Observed(t, slots)
    requires Enabled(u, slots, e) && e.Pick? && Spread(load, start, t.Counts(slots), picks)
    ensures Observed(t, Step(u, slots, e)) && Spread(load, start, t.Counts(Step(u, slots, e)), picks + 1)
  {
    AlikeLoads(t, u, slots);
    AlikeLoads(t, u, Step(u, slots, e));
    PickCounts(u, slots, e);
    PickIsGreedy(u, slots, e);
    GreedyAlike(u.LoadOf(), load, t.Counts(slots), e.id, t.Counts(Step(u, slots, e)));
    SpreadStep(load, start, t.Counts(slots), picks, e.id, t.Counts(Step(u, slots, e)));
  }

  lemma GreedyAlike(load: Load, other: Load, now: Allocation, id: BackendId, next: Allocation)
    requires GreedyStep(load, now, id, next) && forall i, n: nat :: load(i, n) == other(i, n)
    ensures GreedyStep(other, now, id, next)
  {
  }

  lemma FinishSpreads(t: Table, u: Table, slots: map<BackendId, Slot>, e: Event)
    requires t.Valid() && u.Valid() && Alike(t, u) && Observed(t, slots) && Enabled(u, slots, e) && !e.Pick?
    ensures Observed(t, Step(u, slots, e)) && t.Counts(Step(u, slots, e)) == t.Counts(slots)
  {
    AlikeLoads(t, u, slots);
    AlikeLoads(t, u, Step(u, slots, e));
    if e.Finish? {
      FinishCounts(u, slots, e);
    }
  }

  lemma {:induction false} BurstSpreads(t: Table, load: Load, slots: map<BackendId, Slot>, events: seq<Event>)
    requires t.Valid() && load == t.LoadOf() && Rising(load) && Observed(t, slots) && Run(t, slots, events).Some?
    ensures var (u, after) := Run(t, slots, events).value;
            Alike(t, u) && Observed(t, after) && Spread(load, t.Counts(slots), t.Counts(after), Picks(events))
    decreases |events|
  {
    if events != [] {
      var front, e := events[..|events| - 1], events[|events| - 1];
      BurstSpreads(t, load, slots, front);
      var (u, before) := Run(t, slots, front).value;
      if e.Pick? {
        PickSpreads(t, u, load, t.Counts(slots), before, Picks(front), e);
      } else {
        FinishSpreads(t, u, before, e);
      }
    }
  }

  lemma LoadRises(t: Table)
    requires t.Valid()
    ensures Rising(t.LoadOf())
  {
    forall id, m: nat, n: nat | m <= n ensures t.LoadOf()(id, m) <= t.LoadOf()(id, n) {
      if id in t.live {
        PressureRises(t.live[id], t.instances[id].config, t.settings, m, n);
      }
    }
  }

  /** Between scrape results, a burst of selections interleaved with any releases and with
    * any outcomes that leave the circuits closed never puts a request where another
    * backend would have served it under lower pressure; hence every other way to spread
    * as many requests has, for each request of this one, a request at least as badly
    * off: the maximum pressure is minimal. */
  lemma BurstOptimal(t: Table, slots: map<BackendId, Slot>, events: seq<Event>, start: Allocation, now: Allocation, other: Allocation)
    requires t.Valid() && Observed(t, slots) && Run(t, slots, events).Some?
    requires start == t.Counts(slots) && now == t.Counts(Run(t, slots, events).value.1)
    requires other.Keys == start.Keys && (forall id <- other :: start[id] <= other[id])
    requires Sum(start.Keys, other) == Sum(start.Keys, start) + Picks(events)
    ensures Balanced(t.LoadOf(), start, now)
    ensures forall id <- now :: start[id] < now[id] ==> Matched(t.LoadOf(), start, other, t.LoadOf()(id, now[id]))
  {
    var load := t.LoadOf();
    LoadRises(t);
    BurstSpreads(t, load, slots, events);
    forall id | id in now && start[id] < now[id] ensures Matched(load, start, other, load(id, now[id])) {
      BalancedIsOptimal(load, start, now, other, id);
    }
  }
}
