/** Live readiness, telemetry, circuit breaking and selection (src/routing.rs).
  * Times are milliseconds on a clock that never runs backwards.
  */
module Routing {
  import opened Wrappers
  import opened Backend
  import opened Runtime
  import opened Telemetry

  const CIRCUIT_FAILURE_THRESHOLD: nat := 3
  const CIRCUIT_OPEN_FOR: nat := 10_000

  datatype Readiness = Checking | Ready | Unready | Unreachable
  datatype TelemetryState = Fresh | Stale | Unavailable
  datatype CircuitState = IsClosed | IsOpen | IsHalfOpen

  datatype Circuit = Closed | Open(until: nat) | HalfOpen(trialInFlight: bool)
  {
    function State(now: nat): CircuitState {
      match this
      case Closed => IsClosed
      case Open(until) => if now >= until then IsHalfOpen else IsOpen
      case HalfOpen(_) => IsHalfOpen
    }
  }

  datatype Observation = Observation(metrics: Metrics, observedAt: nat, dispatches: nat, serial: nat)

  datatype Live = Live(
    generation: nat,
    readiness: Readiness, readinessSuccesses: nat, readinessFailures: nat,
    observation: Option<Observation>, scrapesStarted: nat, lastCompleted: nat, idleStreak: nat,
    circuit: Circuit, circuitEpoch: nat, failures: nat)

  datatype Scrape = Scrape(serial: nat, dispatches: nat, observedAt: nat)

  datatype Permit = Permit(epoch: nat, trial: bool)
  datatype Observer = Observer(epoch: nat, openImmediately: bool)
  datatype CircuitOutcome = Failure | Neutral

  datatype Settings = Settings(staleAfter: nat, kvSoftLimit: real, successThreshold: nat, failureThreshold: nat)
  {
    predicate Valid() { 0.0 <= kvSoftLimit < 1.0 }
  }

  /** A configured backend with its topology generation. */
  datatype Instance = Instance(config: BackendConfig, generation: nat)

  function NewLive(generation: nat): Live {
    Live(generation, Checking, 0, 0, None, 0, 0, 0, Closed, 0, 0)
  }

  /** Forget backends no longer configured and start over those whose generation changed. */
  function Ensured(live: map<BackendId, Live>, instances: map<BackendId, Instance>): map<BackendId, Live> {
    map id | id in instances :: EnsuredOne(Lookup(live, id), instances[id].generation)
  }

  function EnsuredOne(live: Option<Live>, generation: nat): Live {
    if live.Some? && live.value.generation == generation then live.value else NewLive(generation)
  }

  /** Part of the way: the ids in `todo` are still as they were. */
  function EnsuredSome(live: map<BackendId, Live>, instances: map<BackendId, Instance>, todo: set<BackendId>): map<BackendId, Live> {
    map id | id in instances && (id in live || id !in todo) ::
      if id in todo then live[id] else EnsuredOne(Lookup(live, id), instances[id].generation)
  }

  lemma EnsuredStep(live: map<BackendId, Live>, instances: map<BackendId, Instance>, todo: set<BackendId>, id: BackendId)
    requires id in todo && todo <= instances.Keys
    ensures var now := EnsuredSome(live, instances, todo);
            && Lookup(now, id) == Lookup(live, id)
            && EnsuredSome(live, instances, todo - {id}) == now[id := EnsuredOne(Lookup(live, id), instances[id].generation)]
  {
  }

  /** Afterwards there is one live state for each configured backend, of its generation; it is the
    * one there was if that is of this generation, and else nothing is known and the backend
    * is being checked. */
  lemma EnsuredMeans(live: map<BackendId, Live>, instances: map<BackendId, Instance>, id: BackendId)
    ensures var now := Ensured(live, instances);
            && now.Keys == instances.Keys
            && (id in instances ==>
                  && now[id].generation == instances[id].generation
                  && (id in live && live[id].generation == instances[id].generation ==> now[id] == live[id])
                  && (!(id in live && live[id].generation == instances[id].generation) ==>
                        && now[id].readiness == Checking && now[id].observation == None && now[id].circuit == Closed && now[id].failures == 0
                        && now[id].idleStreak == 0 && now[id].scrapesStarted == 0 && now[id].lastCompleted == 0))
  {
  }

  // ---- Readiness ----

  function ReadinessSucceeded(l: Live, settings: Settings): Live {
    var successes := l.readinessSuccesses + 1;
    l.(readinessSuccesses := successes, readinessFailures := 0,
       readiness := if successes >= settings.successThreshold then Ready else l.readiness)
  }

  function ReadinessFailed(l: Live, kind: Readiness, settings: Settings): Live {
    var failures := l.readinessFailures + 1;
    l.(readinessFailures := failures, readinessSuccesses := 0,
       readiness := if failures >= settings.failureThreshold then kind else l.readiness)
  }

  // ---- Telemetry ----

  function ScrapeBegun(l: Live): Live { l.(scrapesStarted := l.scrapesStarted + 1) }

  predicate EngineIdle(m: Metrics) { m.running == 0 && m.waiting == 0 }

  /** A result which is not newer than the last one completed is ignored. */
  function ScrapeSucceeded(l: Live, scrape: Scrape, metrics: Metrics): Live {
    if scrape.serial <= l.lastCompleted then l
    else
      l.(observation := Some(Observation(metrics, scrape.observedAt, scrape.dispatches, scrape.serial)),
         lastCompleted := scrape.serial,
         idleStreak := if EngineIdle(metrics) then l.idleStreak + 1 else 0)
  }

  function ScrapeFailed(l: Live, serial: nat): Live {
    if serial <= l.lastCompleted then l else l.(lastCompleted := serial, idleStreak := 0)
  }

  function TelemetryAt(l: Live, now: nat, settings: Settings): TelemetryState {
    if l.observation.None? then Unavailable
    else if now - l.observation.value.observedAt <= settings.staleAfter then Fresh
    else Stale
  }

  function EffectiveCapacity(reported: Option<nat>, configured: Option<nat>): Option<nat> {
    if reported.Some? && configured.Some? then Some(if reported.value < configured.value then reported.value else configured.value)
    else if reported.Some? then reported
    else configured
  }

  /** Sequences assigned since the observation's scrape was issued. */
  function NewSequences(slot: Slot, o: Observation): nat {
    if slot.totalAcquired < o.dispatches then 0 else slot.totalAcquired - o.dispatches
  }

  /** The pressure with one more sequence, if the backend can be scored at all. */
  function ScoreOf(slot: Slot, l: Live, config: BackendConfig, now: nat, settings: Settings): Option<real>
    requires settings.Valid()
  {
    if TelemetryAt(l, now, settings) != Fresh then None
    else
      var o := l.observation.value;
      var capacity := EffectiveCapacity(o.metrics.capacity, config.capacity);
      if capacity.None? || (o.metrics.kvCache.Some? && !o.metrics.kvCache.value.Valid()) then None
      else
        match LeastPressure(Inputs(o.metrics.running, o.metrics.waiting, capacity.value, NewSequences(slot, o) + 1,
                                   if o.metrics.kvCache.Some? then Some(o.metrics.kvCache.value.Ratio()) else None),
                            settings.kvSoftLimit)
        case Ok(score) => Some(score.pressure)
        case Err(_) => None
  }

  // ---- Circuit breaking ----

  function TryPermit(l: Live, now: nat): (Live, Option<Permit>) {
    match l.circuit
    case Closed => (l, Some(Permit(l.circuitEpoch, false)))
    case Open(until) =>
      if now >= until then (l.(circuit := HalfOpen(true)), Some(Permit(l.circuitEpoch, true))) else (l, None)
    case HalfOpen(trialInFlight) =>
      if trialInFlight then (l, None) else (l.(circuit := HalfOpen(true)), Some(Permit(l.circuitEpoch, true)))
  }

  function OpenCircuit(l: Live, failures: nat, now: nat): Live {
    l.(failures := failures, circuitEpoch := l.circuitEpoch + 1, circuit := Open(now + CIRCUIT_OPEN_FOR))
  }

  function CountFailure(l: Live, now: nat): Live {
    if l.failures + 1 >= CIRCUIT_FAILURE_THRESHOLD then OpenCircuit(l, l.failures + 1, now)
    else l.(failures := l.failures + 1)
  }

  /** Outcomes of an older circuit epoch are ignored. */
  function Resolve(l: Live, permit: Permit, outcome: CircuitOutcome, now: nat): Live {
    if l.circuitEpoch != permit.epoch then l
    else
      match outcome
      case Failure => if permit.trial then OpenCircuit(l, CIRCUIT_FAILURE_THRESHOLD, now) else CountFailure(l, now)
      case Neutral => if permit.trial then l.(circuit := HalfOpen(false)) else l
  }

  /** A success closes the circuit and leaves an observer to report a broken body. */
  function Succeed(l: Live, permit: Permit): (Live, Option<Observer>) {
    if l.circuitEpoch != permit.epoch then (l, None)
    else
      var epoch := if permit.trial then l.circuitEpoch + 1 else l.circuitEpoch;
      (l.(failures := 0, circuitEpoch := epoch, circuit := Closed), Some(Observer(epoch, permit.trial)))
  }

  function BodyFailed(l: Live, observer: Observer, now: nat): Live {
    if l.circuitEpoch != observer.epoch then l
    else if observer.openImmediately then OpenCircuit(l, CIRCUIT_FAILURE_THRESHOLD, now)
    else CountFailure(l, now)
  }

  // ---- Selection ----

  /** What a selection sees. */
  datatype Scene = Scene(
    slots: map<BackendId, Slot>, live: map<BackendId, Live>, instances: map<BackendId, Instance>, now: nat, settings: Settings)
  {
    predicate Candidate(id: BackendId) {
      && id in slots && slots[id].registered && slots[id].mode == Active
      && id in instances && id in live && live[id].generation == instances[id].generation
      && live[id].readiness == Ready && live[id].circuit.State(now) != IsOpen
    }

    function Score(id: BackendId): Option<real>
      requires settings.Valid() && Candidate(id)
    {
      ScoreOf(slots[id], live[id], instances[id].config, now, settings)
    }

    function Candidates(): set<BackendId> { set id | id in slots && Candidate(id) }

    function Scored(): set<BackendId>
      requires settings.Valid()
    {
      set id | id in slots && Candidate(id) && Score(id).Some?
    }

    /** If any candidate has a score, the others are not considered. */
    function Pool(): set<BackendId>
      requires settings.Valid()
    {
      if Scored() != {} then Scored() else Candidates()
    }

    /** Lower pressure first (if scored), then fewer local requests, then the id,
      * in an order the cursor flips. */
    predicate Before(a: BackendId, b: BackendId, cursor: nat)
      requires settings.Valid() && Candidate(a) && Candidate(b)
    {
      var (x, y) := (Score(a).GetOr(0.0), Score(b).GetOr(0.0));
      if Score(a).Some? && Score(b).Some? && x != y then x < y
      else if |slots[a].leases| != |slots[b].leases| then |slots[a].leases| < |slots[b].leases|
      else if cursor % 2 == 0 then LexLess(a.name, b.name)
      else LexLess(b.name, a.name)
    }

    predicate CanPermit(id: BackendId)
      requires Candidate(id)
    {
      TryPermit(live[id], now).1.Some?
    }
  }

  lemma BeforeOrders(s: Scene, a: BackendId, b: BackendId, c: BackendId, cursor: nat)
    requires s.settings.Valid() && s.Candidate(a) && s.Candidate(b) && s.Candidate(c)
    requires (s.Score(a).Some? && s.Score(b).Some? && s.Score(c).Some?) || (s.Score(a).None? && s.Score(b).None? && s.Score(c).None?)
    ensures s.Before(a, b, cursor) ==> !s.Before(b, a, cursor)
    ensures s.Before(a, b, cursor) && s.Before(b, c, cursor) ==> s.Before(a, c, cursor)
    ensures a != b ==> s.Before(a, b, cursor) || s.Before(b, a, cursor)
  {
    LexLessOrders(a.name, b.name, c.name);
    LexLessOrders(c.name, b.name, a.name);
    LexLessOrders(b.name, a.name, c.name);
    LexLessTotal(a.name, b.name);
  }

  /** The choice of a selection: the first of the pool, in order, whose circuit lets a
    * request through. */
  ghost predicate Chosen(s: Scene, id: BackendId, cursor: nat)
    requires s.settings.Valid()
  {
    && id in s.Pool() && s.CanPermit(id)
    && forall other <- s.Pool() :: other != id && s.CanPermit(other) ==> s.Before(id, other, cursor)
  }

  ghost predicate Sorted(s: Scene, ids: seq<BackendId>, cursor: nat)
    requires s.settings.Valid()
  {
    && (forall i :: 0 <= i < |ids| ==> ids[i] in s.Pool())
    && forall i, j :: 0 <= i < j < |ids| ==> s.Before(ids[i], ids[j], cursor)
  }

  lemma InsertKeepsSorted(s: Scene, ids: seq<BackendId>, id: BackendId, k: nat, cursor: nat)
    requires s.settings.Valid() && Sorted(s, ids, cursor) && id in s.Pool() && id !in ids && k <= |ids|
    requires forall i :: 0 <= i < k ==> !s.Before(id, ids[i], cursor)
    requires k < |ids| ==> s.Before(id, ids[k], cursor)
    ensures Sorted(s, ids[..k] + [id] + ids[k..], cursor)
  {
    forall i | 0 <= i < k ensures s.Before(ids[i], id, cursor) {
      PoolOrders(s, ids[i], id, id, cursor);
    }
    forall j | k <= j < |ids| ensures s.Before(id, ids[j], cursor) {
      PoolOrders(s, id, ids[k], ids[j], cursor);
    }
  }

  lemma PoolOrders(s: Scene, a: BackendId, b: BackendId, c: BackendId, cursor: nat)
    requires s.settings.Valid() && a in s.Pool() && b in s.Pool() && c in s.Pool()
    ensures s.Before(a, b, cursor) && s.Before(b, c, cursor) ==> s.Before(a, c, cursor)
    ensures a != b ==> s.Before(a, b, cursor) || s.Before(b, a, cursor)
    ensures s.Before(a, b, cursor) ==> !s.Before(b, a, cursor)
  {
    PoolScores(s, a);
    PoolScores(s, b);
    PoolScores(s, c);
    BeforeOrders(s, a, b, c, cursor);
  }

  lemma PoolScores(s: Scene, id: BackendId)
    requires s.settings.Valid() && id in s.Pool()
    ensures s.Candidate(id) && (s.Score(id).Some? <==> s.Scored() != {})
  {
    if s.Scored() == {} {
      assert id in s.Candidates() && id !in s.Scored();
    }
  }

  // ---- What a selection prefers, in terms of what it sees ----

  /** A backend that may be tried: registered, active, ready, and known by its current
    * generation. */
  predicate Eligible(s: Scene, id: BackendId) {
    && id in s.slots && s.slots[id].registered && s.slots[id].mode == Active
    && id in s.instances && id in s.live && s.live[id].generation == s.instances[id].generation
    && s.live[id].readiness == Ready
  }

  /** A circuit lets a request through if it is closed, or half open without a trial, or
    * open for long enough. */
  predicate Admits(c: Circuit, now: nat) {
    c == Closed || c == HalfOpen(false) || (c.Open? && now >= c.until)
  }

  /** The sequences with one more request: those the engine reported, those assigned since
    * its scrape was issued, and the new one. */
  function Sequences(slot: Slot, o: Observation): nat {
    o.metrics.running + o.metrics.waiting + (if slot.totalAcquired > o.dispatches then slot.totalAcquired - o.dispatches else 0) + 1
  }

  /** The lesser of the reported and the configured capacity, or the one there is. */
  predicate CapacityIs(reported: Option<nat>, configured: Option<nat>, c: nat) {
    && (reported == Some(c) || configured == Some(c))
    && (reported.Some? ==> c <= reported.value) && (configured.Some? ==> c <= configured.value)
  }

  /** Nothing up to the soft limit, 1 for a full cache, and in proportion in between. */
  predicate PenaltyIs(cache: Option<KvCache>, softLimit: real, p: real) {
    match cache
    case None => p == 0.0
    case Some(kv) =>
      && kv.total > 0
      && (kv.used >= kv.total ==> p == 1.0)
      && (kv.used < kv.total ==>
            var ratio := kv.used as real / kv.total as real;
            if ratio <= softLimit then p == 0.0 else p * (1.0 - softLimit) == ratio - softLimit)
  }

  /** What one more request costs on a backend whose telemetry is fresh: the share of all its
    * sequences in its capacity, and the penalty of its cache. */
  ghost predicate Costs(s: Scene, id: BackendId, x: real)
    requires Eligible(s, id)
  {
    && s.live[id].observation.Some?
    && var o := s.live[id].observation.value;
       && s.now <= o.observedAt + s.settings.staleAfter
       && exists c: nat, p: real ::
            && CapacityIs(o.metrics.capacity, s.instances[id].config.capacity, c)
            && PenaltyIs(o.metrics.kvCache, s.settings.kvSoftLimit, p)
            && ShareIs(Sequences(s.slots[id], o), c, x - p)
  }

  predicate ShareIs(n: nat, c: nat, share: real) { c > 0 && share * c as real == n as real }

  lemma QuotientUnique(x: real, y: real, c: real)
    requires c > 0.0 && x * c == y * c
    ensures x == y
  {
  }

  lemma PenaltyUnique(cache: Option<KvCache>, softLimit: real, p: real, q: real)
    requires 0.0 <= softLimit < 1.0 && PenaltyIs(cache, softLimit, p) && PenaltyIs(cache, softLimit, q)
    ensures p == q
  {
    if p * (1.0 - softLimit) == q * (1.0 - softLimit) {
      QuotientUnique(p, q, 1.0 - softLimit);
    }
  }

  lemma ScorePenalty(inputs: Inputs, cache: Option<KvCache>, softLimit: real)
    requires 0.0 <= softLimit < 1.0 && (cache.Some? ==> cache.value.Valid())
    requires inputs.kvRatio == (if cache.Some? then Some(cache.value.Ratio()) else None) && LeastPressure(inputs, softLimit).Ok?
    ensures PenaltyIs(cache, softLimit, LeastPressure(inputs, softLimit).value.kvPenalty)
  {
    PressureMeans(inputs, softLimit);
  }

  /** A score is what one more request costs, and there is one exactly if that is known. */
  lemma ScoreIsCost(s: Scene, id: BackendId, x: real)
    requires s.settings.Valid() && s.Candidate(id)
    ensures s.Score(id) == Some(x) <==> Costs(s, id, x)
  {
    if s.live[id].observation.Some? {
      var o, limit := s.live[id].observation.value, s.settings.kvSoftLimit;
      var reported, configured := o.metrics.capacity, s.instances[id].config.capacity;
      if s.Score(id).Some? {
        var c := EffectiveCapacity(reported, configured).value;
        var kv := o.metrics.kvCache;
        var inputs := Inputs(o.metrics.running, o.metrics.waiting, c, NewSequences(s.slots[id], o) + 1,
                             if kv.Some? then Some(kv.value.Ratio()) else None);
        PressureMeans(inputs, limit);
        ScorePenalty(inputs, kv, limit);
        var score := LeastPressure(inputs, limit).value;
        assert CapacityIs(reported, configured, c) && PenaltyIs(kv, limit, score.kvPenalty);
        assert score.pressure - score.kvPenalty == score.occupancy && ShareIs(Sequences(s.slots[id], o), c, score.occupancy);
        assert Costs(s, id, score.pressure);
        if Costs(s, id, x) {
          CostUnique(s, id, x, score.pressure);
        }
      } else if Costs(s, id, x) {
        CostGivesScore(s, id, x);
      }
    }
  }

  lemma CostUnique(s: Scene, id: BackendId, x: real, y: real)
    requires s.settings.Valid() && Eligible(s, id) && Costs(s, id, x) && Costs(s, id, y)
    ensures x == y
  {
    var o, limit := s.live[id].observation.value, s.settings.kvSoftLimit;
    var c: nat, p: real :| CapacityIs(o.metrics.capacity, s.instances[id].config.capacity, c)
                           && PenaltyIs(o.metrics.kvCache, limit, p) && ShareIs(Sequences(s.slots[id], o), c, x - p);
    var d: nat, q: real :| CapacityIs(o.metrics.capacity, s.instances[id].config.capacity, d)
                           && PenaltyIs(o.metrics.kvCache, limit, q) && ShareIs(Sequences(s.slots[id], o), d, y - q);
    PenaltyUnique(o.metrics.kvCache, limit, p, q);
    ShareUnique(Sequences(s.slots[id], o), c, x - p, y - q);
  }

  lemma ShareUnique(n: nat, c: nat, x: real, y: real)
    requires ShareIs(n, c, x) && ShareIs(n, c, y)
    ensures x == y
  {
    QuotientUnique(x, y, c as real);
  }

  lemma CostGivesScore(s: Scene, id: BackendId, x: real)
    requires s.settings.Valid() && s.Candidate(id) && Costs(s, id, x)
    ensures s.Score(id).Some?
  {
    var o := s.live[id].observation.value;
    var c: nat, p: real :| CapacityIs(o.metrics.capacity, s.instances[id].config.capacity, c)
                           && PenaltyIs(o.metrics.kvCache, s.settings.kvSoftLimit, p)
                           && ShareIs(Sequences(s.slots[id], o), c, x - p);
    assert EffectiveCapacity(o.metrics.capacity, s.instances[id].config.capacity) == Some(c);
  }

  /** At equal cost fewer local requests, then the names, in an order the cursor flips. */
  predicate Tied(s: Scene, a: BackendId, b: BackendId, cursor: nat)
    requires Eligible(s, a) && Eligible(s, b)
  {
    || |s.slots[a].leases| < |s.slots[b].leases|
    || (|s.slots[a].leases| == |s.slots[b].leases| && if cursor % 2 == 0 then LexLess(a.name, b.name) else LexLess(b.name, a.name))
  }

  /** No other backend that could take the request costs less; one whose cost is not known
    * is taken only if no cost is known. */
  ghost predicate Best(s: Scene, id: BackendId, cursor: nat) {
    && Eligible(s, id) && Admits(s.live[id].circuit, s.now)
    && forall other :: other != id && Eligible(s, other) && Admits(s.live[other].circuit, s.now) ==>
         && (forall x :: Costs(s, other, x) ==> exists y :: Costs(s, id, y) && (y < x || (y == x && Tied(s, id, other, cursor))))
         && (!Costed(s, other) && !Costed(s, id) ==> Tied(s, id, other, cursor))
  }

  ghost predicate Costed(s: Scene, id: BackendId)
    requires Eligible(s, id)
  {
    exists x :: Costs(s, id, x)
  }

  /** Nothing could take the request, or only backends whose cost is not known, while one
    * whose cost is known has its trial in flight. */
  ghost predicate NoneLeft(s: Scene) {
    forall id :: Eligible(s, id) && Admits(s.live[id].circuit, s.now) ==>
      && !Costed(s, id)
      && exists other :: Eligible(s, other) && s.live[other].circuit == HalfOpen(true) && Costed(s, other)
  }

  lemma CostedIsScored(s: Scene, id: BackendId)
    requires s.settings.Valid() && s.Candidate(id)
    ensures Costed(s, id) <==> s.Score(id).Some?
    ensures s.Score(id).Some? ==> Costs(s, id, s.Score(id).value)
  {
    if s.Score(id).Some? {
      ScoreIsCost(s, id, s.Score(id).value);
    }
    forall x ensures Costs(s, id, x) ==> s.Score(id) == Some(x) {
      ScoreIsCost(s, id, x);
    }
  }

  lemma AdmittedIsCandidate(s: Scene, id: BackendId)
    requires s.settings.Valid() && Eligible(s, id)
    ensures Admits(s.live[id].circuit, s.now) <==> s.Candidate(id) && s.CanPermit(id)
    ensures s.Candidate(id) ==> Admits(s.live[id].circuit, s.now) || s.live[id].circuit == HalfOpen(true)
  {
  }

  /** The choice is the best there is. */
  lemma ChosenIsBest(s: Scene, id: BackendId, cursor: nat)
    requires s.settings.Valid() && Chosen(s, id, cursor)
    ensures Best(s, id, cursor)
  {
    PoolScores(s, id);
    AdmittedIsCandidate(s, id);
    CostedIsScored(s, id);
    forall other | other != id && Eligible(s, other) && Admits(s.live[other].circuit, s.now)
      ensures forall x :: Costs(s, other, x) ==> exists y :: Costs(s, id, y) && (y < x || (y == x && Tied(s, id, other, cursor)))
      ensures !Costed(s, other) && !Costed(s, id) ==> Tied(s, id, other, cursor)
    {
      AdmittedIsCandidate(s, other);
      CostedIsScored(s, other);
      ChosenBeats(s, id, other, cursor);
      forall x | Costs(s, other, x) ensures exists y :: Costs(s, id, y) && (y < x || (y == x && Tied(s, id, other, cursor))) {
        ScoreIsCost(s, other, x);
        assert Costs(s, id, s.Score(id).value);
      }
    }
  }

  lemma ChosenBeats(s: Scene, id: BackendId, other: BackendId, cursor: nat)
    requires s.settings.Valid() && Chosen(s, id, cursor) && other != id && s.Candidate(other) && s.CanPermit(other)
    ensures s.Candidate(id) && (s.Score(other).Some? ==> s.Score(id).Some?)
    ensures (s.Score(other).Some? <==> s.Score(id).Some?) ==> s.Before(id, other, cursor)
  {
    PoolScores(s, id);
    if s.Score(other).Some? {
      assert other in s.Scored();
    } else if s.Score(id).None? {
      assert other in s.Candidates();
    }
  }

  lemma OutsidePool(s: Scene, id: BackendId)
    requires s.settings.Valid() && s.Candidate(id) && id !in s.Pool()
    ensures s.Score(id).None? && s.Scored() != {}
  {
    assert id in s.Candidates();
  }

  lemma NoneChosen(s: Scene)
    requires s.settings.Valid() && forall id <- s.Pool() :: !s.CanPermit(id)
    ensures NoneLeft(s)
  {
    forall id | Eligible(s, id) && Admits(s.live[id].circuit, s.now)
      ensures !Costed(s, id) && exists other :: Eligible(s, other) && s.live[other].circuit == HalfOpen(true) && Costed(s, other)
    {
      AdmittedIsCandidate(s, id);
      CostedIsScored(s, id);
      OutsidePool(s, id);
      var other :| other in s.Scored();
      assert other in s.Pool();
      CostedIsScored(s, other);
      AdmittedIsCandidate(s, other);
    }
  }

  // ---- Taking a permit and a lease, whatever has changed since the scoring ----

  /** The state afterwards, and what was taken. */
  datatype Taking = Taking(live: map<BackendId, Live>, slots: map<BackendId, Slot>, got: Option<(BackendId, Lease, Permit)>)

  /** A circuit permit and then a lease; a permit without a lease is dropped again. */
  function TakeAt(live: map<BackendId, Live>, slots: map<BackendId, Slot>, id: BackendId, now: nat): Taking {
    if id !in live || TryPermit(live[id], now).1.None? then Taking(live, slots, None)
    else
      var (l, permit) := TryPermit(live[id], now);
      if id in slots && Acquire(slots[id], now).Ok? then
        var (slot, lease) := Acquire(slots[id], now).value;
        Taking(live[id := l], slots[id := slot], Some((id, lease, permit.value)))
      else Taking(live[id := Resolve(l, permit.value, Neutral, now)], slots, None)
  }

  /** One candidate after the other, until one gives both. */
  function TakeAlong(live: map<BackendId, Live>, slots: map<BackendId, Slot>, ids: seq<BackendId>, now: nat): Taking
    decreases |ids|
  {
    if ids == [] then Taking(live, slots, None)
    else
      var t := TakeAt(live, slots, ids[0], now);
      if t.got.Some? then t else TakeAlong(t.live, t.slots, ids[1..], now)
  }

  predicate CanTake(live: map<BackendId, Live>, slots: map<BackendId, Slot>, id: BackendId, now: nat) {
    id in live && TryPermit(live[id], now).1.Some? && id in slots && Acquire(slots[id], now).Ok?
  }

  /** All that a refused lease can change: a circuit whose time to open is over is half
    * open now, and free for the next trial. */
  predicate GivenBack(before: Live, after: Live, now: nat) {
    after == before || (before.circuit.Open? && now >= before.circuit.until && after == before.(circuit := HalfOpen(false)))
  }

  predicate NoRepeats(ids: seq<BackendId>) { forall i, j :: 0 <= i < j < |ids| ==> ids[i] != ids[j] }

  /** The first candidate that can be taken is taken, and no other gains or loses a request. */
  predicate TakenFirst(live: map<BackendId, Live>, slots: map<BackendId, Slot>, ids: seq<BackendId>, now: nat, t: Taking) {
    && (t.got.None? ==> t.slots == slots && forall id <- ids :: !CanTake(live, slots, id, now))
    && (t.got.Some? ==>
          var (id, lease, permit) := t.got.value;
          && id in ids && CanTake(live, slots, id, now) && Some(permit) == TryPermit(live[id], now).1
          && (t.slots, lease) == (slots[id := Acquire(slots[id], now).value.0], Acquire(slots[id], now).value.1)
          && id in t.live && t.live[id] == TryPermit(live[id], now).0
          && exists k :: 0 <= k < |ids| && ids[k] == id && forall j :: 0 <= j < k ==> !CanTake(live, slots, ids[j], now))
    && t.live.Keys == live.Keys
    && forall id <- live :: (t.got.None? || id != t.got.value.0) ==>
         GivenBack(live[id], t.live[id], now) && (id !in ids ==> t.live[id] == live[id])
  }

  lemma TakeAtExactly(live: map<BackendId, Live>, slots: map<BackendId, Slot>, id: BackendId, now: nat)
    ensures var t := TakeAt(live, slots, id, now);
            && (t.got.Some? <==> CanTake(live, slots, id, now)) && t.live.Keys == live.Keys
            && (t.got.None? ==> t.slots == slots && forall i <- live :: GivenBack(live[i], t.live[i], now) && (i != id ==> t.live[i] == live[i]))
  {
  }

  lemma {:induction false} TakeAlongExactly(live: map<BackendId, Live>, slots: map<BackendId, Slot>, ids: seq<BackendId>, now: nat)
    requires NoRepeats(ids)
    ensures TakenFirst(live, slots, ids, now, TakeAlong(live, slots, ids, now))
    decreases |ids|
  {
    if ids != [] {
      var t := TakeAt(live, slots, ids[0], now);
      TakeAtExactly(live, slots, ids[0], now);
      if t.got.None? {
        TakeAlongExactly(t.live, t.slots, ids[1..], now);
        TakenLater(live, slots, ids, now, t, TakeAlong(t.live, t.slots, ids[1..], now));
      } else {
        assert ids[0] in ids;
      }
    }
  }

  lemma TakenLater(live: map<BackendId, Live>, slots: map<BackendId, Slot>, ids: seq<BackendId>, now: nat, t: Taking, u: Taking)
    requires NoRepeats(ids) && ids != [] && !CanTake(live, slots, ids[0], now)
    requires t.slots == slots && t.live.Keys == live.Keys && TakenFirst(t.live, t.slots, ids[1..], now, u)
    requires forall i <- live :: GivenBack(live[i], t.live[i], now) && (i != ids[0] ==> t.live[i] == live[i])
    ensures TakenFirst(live, slots, ids, now, u)
  {
    var rest := ids[1..];
    forall id | id in rest ensures id in ids && id != ids[0] && (CanTake(t.live, slots, id, now) <==> CanTake(live, slots, id, now)) {
      var j :| 0 <= j < |rest| && rest[j] == id;
      assert ids[j + 1] == id;
    }
    if u.got.Some? {
      var k :| 0 <= k < |rest| && rest[k] == u.got.value.0 && forall j :: 0 <= j < k ==> !CanTake(t.live, slots, rest[j], now);
      assert ids[k + 1] == u.got.value.0;
      forall j | 0 <= j < k + 1 ensures !CanTake(live, slots, ids[j], now) {
        assert j > 0 ==> rest[j - 1] == ids[j] && ids[j] in rest;
      }
    }
  }

  /** If every candidate with a permit also gets its lease, none is given back. */
  lemma {:induction false} NoneRefused(live: map<BackendId, Live>, slots: map<BackendId, Slot>, ids: seq<BackendId>, now: nat)
    requires forall id <- ids :: id in live && (TryPermit(live[id], now).1.Some? ==> CanTake(live, slots, id, now))
    ensures var t := TakeAlong(live, slots, ids, now);
            if t.got.Some? then t.got.value.0 in t.live && t.live == live[t.got.value.0 := t.live[t.got.value.0]] else t.live == live
    decreases |ids|
  {
    if ids != [] {
      assert ids[0] in ids;
      if TakeAt(live, slots, ids[0], now).got.None? {
        assert forall id <- ids[1..] :: id in ids;
        NoneRefused(live, slots, ids[1..], now);
      }
    }
  }

  /** Undisturbed since the scoring, the first of the pool that its circuit lets through is
    * chosen. */
  lemma UndisturbedIsChosen(s: Scene, ordered: seq<BackendId>, cursor: nat)
    requires s.settings.Valid() && Sorted(s, ordered, cursor) && (forall id :: id in ordered <==> id in s.Pool())
    ensures var t := TakeAlong(s.live, s.slots, ordered, s.now);
            && (t.got.None? ==> t.live == s.live && t.slots == s.slots && forall id <- s.Pool() :: !s.CanPermit(id))
            && (t.got.Some? ==>
                  var (id, lease, permit) := t.got.value;
                  && Chosen(s, id, cursor) && Acquire(s.slots[id], s.now).Ok?
                  && t.live == s.live[id := TryPermit(s.live[id], s.now).0] && Some(permit) == TryPermit(s.live[id], s.now).1
                  && (t.slots, lease) == (s.slots[id := Acquire(s.slots[id], s.now).value.0], Acquire(s.slots[id], s.now).value.1))
  {
    PoolTakes(s, ordered);
    SortedNoRepeats(s, ordered, cursor);
    NoneRefused(s.live, s.slots, ordered, s.now);
    TakeAlongExactly(s.live, s.slots, ordered, s.now);
    var t := TakeAlong(s.live, s.slots, ordered, s.now);
    if t.got.Some? {
      var k :| 0 <= k < |ordered| && ordered[k] == t.got.value.0
               && forall j :: 0 <= j < k ==> !CanTake(s.live, s.slots, ordered[j], s.now);
      assert forall j :: 0 <= j < k ==> ordered[j] in s.Pool();
      FirstIsChosen(s, ordered, k, cursor);
    }
  }

  lemma UndisturbedIsBest(s: Scene, ordered: seq<BackendId>, cursor: nat)
    requires s.settings.Valid() && Sorted(s, ordered, cursor) && (forall id :: id in ordered <==> id in s.Pool())
    ensures var got := TakeAlong(s.live, s.slots, ordered, s.now).got;
            if got.Some? then Best(s, got.value.0, cursor) else NoneLeft(s)
  {
    UndisturbedIsChosen(s, ordered, cursor);
    var got := TakeAlong(s.live, s.slots, ordered, s.now).got;
    if got.Some? {
      ChosenIsBest(s, got.value.0, cursor);
    } else {
      NoneChosen(s);
    }
  }

  lemma PoolTakes(s: Scene, ordered: seq<BackendId>)
    requires s.settings.Valid() && forall id <- ordered :: id in s.Pool()
    ensures forall id <- ordered :: s.Candidate(id) && id in s.live && (CanTake(s.live, s.slots, id, s.now) <==> s.CanPermit(id))
  {
    forall id | id in ordered
      ensures s.Candidate(id) && id in s.live && (CanTake(s.live, s.slots, id, s.now) <==> s.CanPermit(id))
    {
      PoolScores(s, id);
    }
  }

  lemma SortedNoRepeats(s: Scene, ordered: seq<BackendId>, cursor: nat)
    requires s.settings.Valid() && Sorted(s, ordered, cursor)
    ensures NoRepeats(ordered)
  {
    forall i, j | 0 <= i < j < |ordered| ensures ordered[i] != ordered[j] {
      assert s.Before(ordered[i], ordered[j], cursor);
      PoolOrders(s, ordered[i], ordered[j], ordered[j], cursor);
    }
  }

  datatype Selection = Selection(id: BackendId, lease: Lease, permit: Permit, eligible: nat, pressure: Option<real>)

  class RoutingState {
    var backends: map<BackendId, Live>
    var rotatingCursor: nat

    constructor (instances: map<BackendId, Instance>)
      ensures backends == Ensured(map[], instances) && rotatingCursor == 0
    {
      backends := map id | id in instances :: NewLive(instances[id].generation);
      rotatingCursor := 0;
    }

    method EnsureBackends(instances: map<BackendId, Instance>)
      modifies this`backends
      ensures backends == Ensured(old(backends), instances)
    {
      ghost var was := backends;
      backends := map id | id in backends && id in instances :: backends[id];
      var todo := instances.Keys;
      while todo != {}
        invariant todo <= instances.Keys
        invariant backends == EnsuredSome(was, instances, todo)
        decreases |todo|
      {
        var id :| id in todo;
        EnsuredStep(was, instances, todo, id);
        if id !in backends || backends[id].generation != instances[id].generation {
          backends := backends[id := NewLive(instances[id].generation)];
        }
        todo := todo - {id};
      }
    }

    /** The live state a probe result for this generation may change. */
    function Current(id: BackendId, generation: nat): Option<Live>
      reads this
    {
      if id in backends && backends[id].generation == generation then Some(backends[id]) else None
    }

    method RecordReadinessSuccess(id: BackendId, generation: nat, instances: map<BackendId, Instance>, settings: Settings)
      modifies this`backends
      ensures backends == Updated(Ensured(old(backends), instances), id, generation, l => ReadinessSucceeded(l, settings))
    {
      EnsureBackends(instances);
      if id in backends && backends[id].generation == generation {
        var l := backends[id];
        l := l.(readinessFailures := 0, readinessSuccesses := l.readinessSuccesses + 1);
        if l.readinessSuccesses >= settings.successThreshold {
          l := l.(readiness := Ready);
        }
        backends := backends[id := l];
      }
    }

    method RecordReadinessFailure(id: BackendId, generation: nat, kind: Readiness, instances: map<BackendId, Instance>, settings: Settings)
      modifies this`backends
      ensures backends == Updated(Ensured(old(backends), instances), id, generation, l => ReadinessFailed(l, kind, settings))
    {
      EnsureBackends(instances);
      if id in backends && backends[id].generation == generation {
        var l := backends[id];
        l := l.(readinessSuccesses := 0, readinessFailures := l.readinessFailures + 1);
        if l.readinessFailures >= settings.failureThreshold {
          l := l.(readiness := kind);
        }
        backends := backends[id := l];
      }
    }

    /** `dispatches` is the slot's acquisition count, read before the request is sent. */
    method BeginMetricsScrape(id: BackendId, generation: nat, instances: map<BackendId, Instance>, dispatches: nat, now: nat)
      returns (scrape: Option<Scrape>)
      modifies this`backends
      ensures backends == Updated(Ensured(old(backends), instances), id, generation, ScrapeBegun)
      ensures scrape.Some? <==> id in backends && backends[id].generation == generation
      ensures scrape.Some? ==> scrape.value == Scrape(backends[id].scrapesStarted, dispatches, now)
    {
      EnsureBackends(instances);
      if id !in backends || backends[id].generation != generation {
        return None;
      }
      var l := backends[id];
      l := l.(scrapesStarted := l.scrapesStarted + 1);
      backends := backends[id := l];
      scrape := Some(Scrape(l.scrapesStarted, dispatches, now));
    }

    method RecordMetricsSuccess(id: BackendId, generation: nat, metrics: Metrics, scrape: Scrape, instances: map<BackendId, Instance>)
      modifies this`backends
      ensures backends == Updated(Ensured(old(backends), instances), id, generation, l => ScrapeSucceeded(l, scrape, metrics))
      ensures var was := Ensured(old(backends), instances);
              && backends.Keys == was.Keys
              && (id in was && was[id].generation == generation && scrape.serial > was[id].lastCompleted ==>
                    && backends[id].idleStreak == (if metrics.running == 0 && metrics.waiting == 0 then was[id].idleStreak + 1 else 0)
                    && backends[id].observation == Some(Observation(metrics, scrape.observedAt, scrape.dispatches, scrape.serial)))
    {
      EnsureBackends(instances);
      if id in backends && backends[id].generation == generation && scrape.serial > backends[id].lastCompleted {
        var l := backends[id];
        l := l.(observation := Some(Observation(metrics, scrape.observedAt, scrape.dispatches, scrape.serial)),
                lastCompleted := scrape.serial);
        if metrics.running == 0 && metrics.waiting == 0 {
          l := l.(idleStreak := l.idleStreak + 1);
        } else {
          l := l.(idleStreak := 0);
        }
        backends := backends[id := l];
      }
    }

    method RecordMetricsFailure(id: BackendId, generation: nat, serial: nat, instances: map<BackendId, Instance>)
      modifies this`backends
      ensures backends == Updated(Ensured(old(backends), instances), id, generation, l => ScrapeFailed(l, serial))
    {
      EnsureBackends(instances);
      if id in backends && backends[id].generation == generation && serial > backends[id].lastCompleted {
        backends := backends[id := backends[id].(lastCompleted := serial, idleStreak := 0)];
      }
    }

    method TryCircuitPermit(id: BackendId, now: nat) returns (permit: Option<Permit>)
      modifies this`backends
      ensures permit == if id in old(backends) then TryPermit(old(backends)[id], now).1 else None
      ensures backends == if permit.None? then old(backends) else old(backends)[id := TryPermit(old(backends)[id], now).0]
    {
      if id !in backends {
        return None;
      }
      var l := backends[id];
      var trial := false;
      match l.circuit {
        case Closed =>
        case Open(until) =>
          if now < until {
            return None;
          }
          trial := true;
        case HalfOpen(trialInFlight) =>
          if trialInFlight {
            return None;
          }
          trial := true;
      }
      if trial {
        backends := backends[id := l.(circuit := HalfOpen(true))];
      }
      permit := Some(Permit(l.circuitEpoch, trial));
    }

    method RecordCircuitOutcome(id: BackendId, permit: Permit, outcome: CircuitOutcome, now: nat)
      modifies this`backends
      ensures backends == if id in old(backends) then old(backends)[id := Resolve(old(backends)[id], permit, outcome, now)]
                          else old(backends)
    {
      if id !in backends || backends[id].circuitEpoch != permit.epoch {
        return;
      }
      var l := backends[id];
      match outcome {
        case Failure =>
          l := l.(failures := if permit.trial then CIRCUIT_FAILURE_THRESHOLD else l.failures + 1);
          if l.failures >= CIRCUIT_FAILURE_THRESHOLD {
            l := l.(circuitEpoch := l.circuitEpoch + 1, circuit := Open(now + CIRCUIT_OPEN_FOR));
          }
        case Neutral =>
          if permit.trial {
            l := l.(circuit := HalfOpen(false));
          }
      }
      backends := backends[id := l];
    }

    method RecordSuccessAndObserver(id: BackendId, permit: Permit) returns (observer: Option<Observer>)
      modifies this`backends
      ensures observer == if id in old(backends) then Succeed(old(backends)[id], permit).1 else None
      ensures backends == if id in old(backends) then old(backends)[id := Succeed(old(backends)[id], permit).0]
                          else old(backends)
    {
      if id !in backends || backends[id].circuitEpoch != permit.epoch {
        return None;
      }
      var l := backends[id];
      l := l.(failures := 0);
      if permit.trial {
        l := l.(circuitEpoch := l.circuitEpoch + 1);
      }
      l := l.(circuit := Closed);
      backends := backends[id := l];
      observer := Some(Observer(l.circuitEpoch, permit.trial));
    }

    method RecordBodyFailure(id: BackendId, observer: Observer, now: nat)
      modifies this`backends
      ensures backends == if id in old(backends) then old(backends)[id := BodyFailed(old(backends)[id], observer, now)]
                          else old(backends)
    {
      if id !in backends || backends[id].circuitEpoch != observer.epoch {
        return;
      }
      var l := backends[id];
      l := l.(failures := if observer.openImmediately then CIRCUIT_FAILURE_THRESHOLD else l.failures + 1);
      if l.failures >= CIRCUIT_FAILURE_THRESHOLD {
        l := l.(circuitEpoch := l.circuitEpoch + 1, circuit := Open(now + CIRCUIT_OPEN_FOR));
      }
      backends := backends[id := l];
    }

    /** Choose a backend, take its circuit permit and its lease; here nothing else happens
      * in between. */
    method Select(registry: BackendRegistry, instances: map<BackendId, Instance>, now: nat, settings: Settings)
      returns (r: Option<Selection>)
      requires registry.Valid() && settings.Valid()
      modifies this, registry.slots.Values
      ensures rotatingCursor == old(rotatingCursor) + 1
      ensures var s := Scene(old(registry.View()), Ensured(old(backends), instances), instances, now, settings);
              && (r.None? ==> backends == s.live && registry.View() == s.slots && NoneLeft(s) && forall id <- s.Pool() :: !s.CanPermit(id))
              && (r.Some? ==>
                    && Best(s, r.value.id, old(rotatingCursor)) && Chosen(s, r.value.id, old(rotatingCursor))
                    && Acquire(s.slots[r.value.id], now).Ok? && Taken(s, r.value, backends, registry.View()))
    {
      EnsureBackends(instances);
      var s := Scene(registry.View(), backends, instances, now, settings);
      var cursor := rotatingCursor;
      rotatingCursor := rotatingCursor + 1;
      r := SelectFrom(registry, s, cursor);
    }

    method SelectFrom(registry: BackendRegistry, s: Scene, cursor: nat) returns (r: Option<Selection>)
      requires registry.Valid() && s.settings.Valid() && s.slots == registry.View() && s.live == backends
      modifies this`backends, registry.slots.Values
      ensures r.None? ==> backends == s.live && registry.View() == s.slots && NoneLeft(s) && forall id <- s.Pool() :: !s.CanPermit(id)
      ensures r.Some? ==>
                && Best(s, r.value.id, cursor) && Chosen(s, r.value.id, cursor)
                && Acquire(s.slots[r.value.id], s.now).Ok? && Taken(s, r.value, backends, registry.View())
    {
      var ordered, eligible := OrderPool(s, cursor);
      UndisturbedIsChosen(s, ordered, cursor);
      UndisturbedIsBest(s, ordered, cursor);
      r := TakeFirst(registry, s, ordered, eligible);
    }

    /** Go down the ordered pool until a circuit and a gate let the request through,
      * whatever has changed since the pool was scored. */
    method TakeFirst(registry: BackendRegistry, s: Scene, ordered: seq<BackendId>, eligible: nat) returns (r: Option<Selection>)
      requires registry.Valid() && s.settings.Valid() && forall id <- ordered :: id in s.Pool()
      modifies this`backends, registry.slots.Values
      ensures var t := TakeAlong(old(backends), old(registry.View()), ordered, s.now);
              backends == t.live && registry.View() == t.slots && Got(r) == t.got
      ensures r.Some? ==> r.value.id in s.Pool() && r.value.eligible == eligible && r.value.pressure == s.Score(r.value.id)
    {
      ghost var result := TakeAlong(backends, registry.View(), ordered, s.now);
      assert ordered[0..] == ordered;
      for i := 0 to |ordered|
        invariant TakeAlong(backends, registry.View(), ordered[i..], s.now) == result
      {
        assert ordered[i..][0] == ordered[i] && ordered[i..][1..] == ordered[i + 1..] && ordered[i] in ordered;
        r := TakeOne(registry, s, ordered[i], eligible);
        if r.Some? {
          return;
        }
      }
      r := None;
    }

    /** A permit and a lease, or neither. */
    method TakeOne(registry: BackendRegistry, s: Scene, id: BackendId, eligible: nat) returns (r: Option<Selection>)
      requires registry.Valid() && s.settings.Valid() && id in s.Pool()
      modifies this`backends, registry.slots.Values
      ensures var t := TakeAt(old(backends), old(registry.View()), id, s.now);
              backends == t.live && registry.View() == t.slots && Got(r) == t.got
      ensures r.Some? ==> r.value.id == id && r.value.eligible == eligible && r.value.pressure == s.Score(id)
    {
      PoolScores(s, id);
      var permit := TryCircuitPermit(id, s.now);
      if permit.None? {
        return None;
      }
      var lease := TryLease(registry, id, s.now);
      if lease.None? {
        RecordCircuitOutcome(id, permit.value, Neutral, s.now);
        return None;
      }
      r := Some(Selection(id, lease.value, permit.value, eligible, s.Score(id)));
    }

    method TryLease(registry: BackendRegistry, id: BackendId, now: nat) returns (lease: Option<Lease>)
      requires registry.Valid()
      modifies registry.slots.Values
      ensures var slots := old(registry.View());
              if id in slots && Acquire(slots[id], now).Ok? then
                lease == Some(Acquire(slots[id], now).value.1) && registry.View() == slots[id := Acquire(slots[id], now).value.0]
              else lease == None && registry.View() == slots
    {
      if id !in registry.slots {
        return None;
      }
      var acquired := registry.slots[id].TryAcquire(now);
      lease := if acquired.Ok? then Some(acquired.value) else None;
    }
  }

  function Got(r: Option<Selection>): Option<(BackendId, Lease, Permit)> {
    if r.Some? then Some((r.value.id, r.value.lease, r.value.permit)) else None
  }

  /** The effect of a selection. */
  ghost predicate Taken(s: Scene, r: Selection, live: map<BackendId, Live>, slots: map<BackendId, Slot>)
    requires s.settings.Valid() && r.id in s.Pool() && Acquire(s.slots[r.id], s.now).Ok?
  {
    && live == s.live[r.id := TryPermit(s.live[r.id], s.now).0]
    && Some(r.permit) == TryPermit(s.live[r.id], s.now).1
    && slots == s.slots[r.id := Acquire(s.slots[r.id], s.now).value.0]
    && r.lease == Acquire(s.slots[r.id], s.now).value.1
    && r.eligible == |s.Candidates()| && r.pressure == s.Score(r.id)
  }

  function Updated(live: map<BackendId, Live>, id: BackendId, generation: nat, f: Live -> Live): map<BackendId, Live> {
    if id in live && live[id].generation == generation then live[id := f(live[id])] else live
  }

  /** The pool from first to last choice. */
  method OrderPool(s: Scene, cursor: nat) returns (ordered: seq<BackendId>, eligible: nat)
    requires s.settings.Valid()
    ensures Sorted(s, ordered, cursor) && (forall id :: id in ordered <==> id in s.Pool())
    ensures eligible == |s.Candidates()|
  {
    var candidates := set id | id in s.slots && s.Candidate(id);
    eligible := |candidates|;
    var pool := candidates;
    assert candidates == s.Candidates();
    var scored := set id | id in candidates && s.Score(id).Some?;
    assert scored == s.Scored();
    if scored != {} {
      pool := scored;
    }
    ordered := [];
    while pool != {}
      invariant pool <= s.Pool() && Sorted(s, ordered, cursor)
      invariant forall id :: id in ordered <==> id in s.Pool() - pool
      decreases |pool|
    {
      var id :| id in pool;
      ordered := Insert(s, ordered, id, cursor);
      pool := pool - {id};
    }
  }

  method Insert(s: Scene, ids: seq<BackendId>, id: BackendId, cursor: nat) returns (r: seq<BackendId>)
    requires s.settings.Valid() && Sorted(s, ids, cursor) && id in s.Pool() && id !in ids
    ensures Sorted(s, r, cursor) && forall other :: other in r <==> other in ids || other == id
  {
    PoolScores(s, id);
    var k := 0;
    while k < |ids| && !s.Before(id, ids[k], cursor)
      invariant k <= |ids| && forall i :: 0 <= i < k ==> !s.Before(id, ids[i], cursor)
    {
      k := k + 1;
    }
    InsertKeepsSorted(s, ids, id, k, cursor);
    r := ids[..k] + [id] + ids[k..];
    assert ids == ids[..k] + ids[k..];
  }

  lemma FirstIsChosen(s: Scene, ordered: seq<BackendId>, i: nat, cursor: nat)
    requires s.settings.Valid() && Sorted(s, ordered, cursor) && i < |ordered|
    requires forall id :: id in ordered <==> id in s.Pool()
    requires forall j :: 0 <= j < i ==> !s.CanPermit(ordered[j])
    requires s.CanPermit(ordered[i])
    ensures Chosen(s, ordered[i], cursor)
  {
    forall other | other in s.Pool() && other != ordered[i] && s.CanPermit(other)
      ensures s.Before(ordered[i], other, cursor)
    {
      var j :| 0 <= j < |ordered| && ordered[j] == other;
    }
  }
}
