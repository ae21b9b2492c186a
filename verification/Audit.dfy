/** The audit pipeline (src/logging.rs, driven by src/proxy.rs): request tasks send
  * events through a bounded queue to one writer, which turns the events of each
  * request into one record.
  *
  * Every atomic operation of a task or of the writer is one step of a transition
  * system, so a run is any interleaving of them.
  */
module Audit {
  import opened Wrappers

  type RequestId = nat

  const MAX_EVENTS_PER_REQUEST: nat := 5

  datatype Outcome = Complete | Aborted | Abandoned | BodyError(message: string)

  const SHUT_DOWN := BodyError("the logger shut down before the response finished")

  /** What the response body observer reports with the final event. */
  datatype Observation = Observation(firstByteAt: Option<nat>, responseBytes: nat, usage: string)

  const NOTHING_OBSERVED := Observation(None, 0, "")

  datatype Event =
    | Started(id: RequestId, at: nat, info: string)
    | Routed(id: RequestId, at: nat, routing: string)
    | Failed(id: RequestId, error: string)
    | ResponseStarted(id: RequestId, status: nat, streaming: bool)
    | Finished(id: RequestId, at: nat, outcome: Outcome, observation: Observation)

  /** The fields a record collects while its request is pending. */
  datatype Pending = Pending(
    startedAt: nat, info: string, status: Option<nat>, streaming: bool,
    error: Option<string>, routing: Option<string>, routedAt: Option<nat>)

  datatype Record = Record(id: RequestId, entry: Pending, observation: Observation, finishedAt: nat, outcome: Outcome)

  // ---- The writer ----

  datatype Writer = Writer(pending: map<RequestId, Pending>, records: seq<Record>)

  function NewPending(e: Event): Pending
    requires e.Started?
  {
    Pending(e.at, e.info, None, false, None, None, None)
  }

  /** An event which only fills in a field. */
  function Fill(entry: Pending, e: Event): Pending {
    match e
    case Routed(_, at, routing) => entry.(routing := Some(routing), routedAt := Some(at))
    case Failed(_, error) => entry.(error := Some(error))
    case ResponseStarted(_, status, streaming) => entry.(status := Some(status), streaming := streaming)
    case _ => entry
  }

  function Handle(w: Writer, e: Event): Writer {
    if e.Started? then w.(pending := w.pending[e.id := NewPending(e)])
    else if e.id !in w.pending then w
    else if e.Finished? then
      Writer(w.pending - {e.id}, w.records + [Record(e.id, w.pending[e.id], e.observation, e.at, e.outcome)])
    else w.(pending := w.pending[e.id := Fill(w.pending[e.id], e)])
  }

  /** The record of a request which never finished, written at shutdown. */
  function Flush(w: Writer, id: RequestId, now: nat): Writer
    requires id in w.pending
  {
    Writer(w.pending - {id}, w.records + [Record(id, w.pending[id], NOTHING_OBSERVED, now, SHUT_DOWN)])
  }

  function HandleAll(w: Writer, events: seq<Event>): Writer {
    if events == [] then w else Handle(HandleAll(w, events[..|events| - 1]), events[|events| - 1])
  }

  class LogWorker {
    var pending: map<RequestId, Pending>
    var records: seq<Record>

    function View(): Writer
      reads this
    {
      Writer(pending, records)
    }

    constructor ()
      ensures View() == Writer(map[], [])
    {
      pending, records := map[], [];
    }

    method HandleEvent(e: Event) returns (wrote: bool)
      modifies this
      ensures View() == Handle(old(View()), e)
      ensures wrote <==> |records| == |old(records)| + 1
    {
      wrote := false;
      match e {
        case Started(id, at, info) =>
          pending := pending[id := Pending(at, info, None, false, None, None, None)];
        case Finished(id, at, outcome, observation) =>
          if id in pending {
            var entry := pending[id];
            pending := pending - {id};
            records := records + [Record(id, entry, observation, at, outcome)];
            wrote := true;
          }
        case _ =>
          if e.id in pending {
            var entry := pending[e.id];
            match e {
              case Routed(_, at, routing) =>
                entry := entry.(routing := Some(routing), routedAt := Some(at));
              case Failed(_, error) =>
                entry := entry.(error := Some(error));
              case ResponseStarted(_, status, streaming) =>
                entry := entry.(status := Some(status), streaming := streaming);
              case _ =>
            }
            pending := pending[e.id := entry];
          }
      }
    }

    /** Drain the queue until every sender is gone, then write what is left. */
    method RunWorker(events: seq<Event>, now: nat)
      modifies this
      ensures pending == map[]
      ensures FlushedFrom(HandleAll(old(View()), events), records, {}, now)
    {
      for i := 0 to |events|
        invariant View() == HandleAll(old(View()), events[..i])
      {
        assert events[..i + 1][..i] == events[..i];
        var _ := HandleEvent(events[i]);
      }
      assert events[..|events|] == events;
      FlushPending(now);
    }

    method FlushPending(now: nat)
      modifies this
      ensures pending == map[]
      ensures FlushedFrom(old(View()), records, {}, now)
    {
      ghost var drained := View();
      assert records[|records|..] == [];
      while pending != map[]
        invariant pending.Keys <= drained.pending.Keys
        invariant forall id <- pending :: pending[id] == drained.pending[id]
        invariant FlushedFrom(drained, records, pending.Keys, now)
        decreases |pending|
      {
        var id :| id in pending;
        FlushedNext(drained, records, pending.Keys, id, now);
        records := records + [Record(id, pending[id], NOTHING_OBSERVED, now, SHUT_DOWN)];
        assert (pending - {id}).Keys == pending.Keys - {id};
        pending := pending - {id};
      }
    }
  }

  /** Exactly one shutdown record was written for each pending request outside `left`. */
  ghost predicate FlushedFrom(drained: Writer, records: seq<Record>, left: set<RequestId>, now: nat) {
    && left <= drained.pending.Keys
    && drained.records <= records && |records| == |drained.records| + |drained.pending.Keys - left|
    && forall id <- drained.pending.Keys - left ::
         Record(id, drained.pending[id], NOTHING_OBSERVED, now, SHUT_DOWN) in records[|drained.records|..]
  }

  lemma FlushedNext(drained: Writer, records: seq<Record>, left: set<RequestId>, id: RequestId, now: nat)
    requires FlushedFrom(drained, records, left, now) && id in left
    ensures FlushedFrom(drained, records + [Record(id, drained.pending[id], NOTHING_OBSERVED, now, SHUT_DOWN)], left - {id}, now)
  {
    var record := Record(id, drained.pending[id], NOTHING_OBSERVED, now, SHUT_DOWN);
    var more := records + [record];
    assert more[|drained.records|..] == records[|drained.records|..] + [record];
    assert drained.pending.Keys - (left - {id}) == (drained.pending.Keys - left) + {id};
  }

  // ---- The senders ----

  /** The shared part of the senders: the admission counter, the bounded queue and
    * the health flag. */
  datatype Channel = Channel(slots: nat, admitted: nat, queue: seq<Event>, healthy: bool)
  {
    function Capacity(): nat { slots * MAX_EVENTS_PER_REQUEST }
  }

  datatype AdmissionError = Unavailable | Saturated

  /** Reserve a slot: the atomic update of the admission counter. */
  function Reserve(c: Channel): Result<Channel, AdmissionError> {
    if !c.healthy then Err(Unavailable)
    else if c.admitted < c.slots then Ok(c.(admitted := c.admitted + 1))
    else Err(Saturated)
  }

  function ReleasePermit(c: Channel): Channel {
    if c.admitted > 0 then c.(admitted := c.admitted - 1) else c
  }

  /** `try_send`: a full queue loses the event and fails the pipeline closed. */
  function Send(c: Channel, e: Event): Channel {
    if |c.queue| < c.Capacity() then c.(queue := c.queue + [e]) else c.(healthy := false)
  }

  /** The second half of an admission: recheck health and enqueue the start event,
    * which carries the permit. */
  function SendStart(c: Channel, e: Event): (Channel, bool) {
    if !c.healthy then (ReleasePermit(c), false)
    else if |c.queue| < c.Capacity() then (Send(c, e), true)
    else (ReleasePermit(Send(c, e)), false)
  }

  class LogSender {
    const slots: nat
    var admitted: nat
    var queue: seq<Event>
    var healthy: bool

    function View(): Channel
      reads this
    {
      Channel(slots, admitted, queue, healthy)
    }

    constructor (slots: nat)
      requires slots > 0
      ensures View() == Channel(slots, 0, [], true)
    {
      this.slots := slots;
      admitted, queue, healthy := 0, [], true;
    }

    method TrySend(e: Event) returns (sent: bool)
      modifies this
      ensures sent <==> |old(queue)| < old(View()).Capacity()
      ensures View() == Send(old(View()), e)
    {
      sent := |queue| < slots * MAX_EVENTS_PER_REQUEST;
      if sent {
        queue := queue + [e];
      } else {
        healthy := false;
      }
    }

    method RequestStarted(id: RequestId, at: nat, info: string) returns (r: Result<RequestId, AdmissionError>)
      modifies this
      ensures Reserve(old(View())).Err? ==> r == Err(Reserve(old(View())).error) && View() == old(View())
      ensures Reserve(old(View())).Ok? ==>
                var (after, sent) := SendStart(Reserve(old(View())).value, Started(id, at, info));
                View() == after && r == if sent then Ok(id) else Err(Unavailable)
      ensures r.Ok? <==> old(healthy) && old(admitted) < slots && |old(queue)| < 5 * slots
      ensures r == Err(Saturated) <==> old(healthy) && old(admitted) >= slots
      ensures r.Ok? ==> admitted == old(admitted) + 1 && queue == old(queue) + [Started(id, at, info)] && healthy
    {
      if !healthy {
        return Err(Unavailable);
      }
      if admitted >= slots {
        return Err(Saturated);
      }
      admitted := admitted + 1;
      var sent := TrySend(Started(id, at, info));
      if !sent {
        admitted := admitted - 1;
        return Err(Unavailable);
      }
      r := Ok(id);
    }
  }

  // ---- The whole pipeline ----

  /** Where a request task stands.  `Armed` holds the guard which closes an abandoned
    * request; `Streaming` has handed that duty to the response body. */
  datatype Phase =
    | Reserved
    | Armed(routed: bool, failed: bool)
    | Streaming
    | Done

  /** `sent`, `handled` and `flushed` are history: the events the task sent, how many
    * of them the writer has handled, and when its record was written at shutdown, if so. */
  datatype Task = Task(phase: Phase, sent: seq<Event>, handled: nat, flushedAt: Option<nat>)

  datatype Pipeline = Pipeline(
    channel: Channel, tasks: map<RequestId, Task>, hand: Option<Event>, writer: Writer, closed: bool)

  datatype Action =
    | Admit(id: RequestId)
    | Start(id: RequestId, at: nat, info: string)
    | Route(id: RequestId, at: nat, routing: string)
    | Fail(id: RequestId, error: string)
    | Respond(id: RequestId, status: nat, streaming: bool)
    | Finish(id: RequestId, at: nat, outcome: Outcome, observation: Observation)
    | Abandon(id: RequestId, at: nat)
    | Vanish(id: RequestId)
    | Take
    | HandleTaken
    | Close
    | FlushOne(id: RequestId, now: nat)

  predicate InPhase(p: Pipeline, id: RequestId, phase: Phase) {
    id in p.tasks && p.tasks[id].phase == phase
  }

  /** The order of effects in a request handler: admit, start, route, at most one
    * error, respond, finish; or abandon before responding.  `Vanish` is a task whose
    * drop handlers never ran.  The writer sees a closed channel only when no task is
    * left and the queue is empty. */
  predicate Enabled(p: Pipeline, a: Action) {
    match a
    case Admit(id) => !p.closed && id !in p.tasks
    case Start(id, _, _) => InPhase(p, id, Reserved)
    case Route(id, _, _) => InPhase(p, id, Armed(false, false))
    case Fail(id, _) => InPhase(p, id, Armed(true, false))
    case Respond(id, _, _) => id in p.tasks && p.tasks[id].phase.Armed?
    case Finish(id, _, outcome, _) => InPhase(p, id, Streaming) && !outcome.Abandoned?
    case Abandon(id, _) => id in p.tasks && p.tasks[id].phase.Armed?
    case Vanish(id) => id in p.tasks && (p.tasks[id].phase.Armed? || p.tasks[id].phase.Streaming?)
    case Take => p.hand.None? && p.channel.queue != []
    case HandleTaken => p.hand.Some?
    case Close => !p.closed && p.hand.None? && p.channel.queue == [] && forall id <- p.tasks :: p.tasks[id].phase.Done?
    case FlushOne(id, _) => p.closed && id in p.writer.pending
  }

  /** A task in `phase` sends one event. */
  function SendFrom(p: Pipeline, id: RequestId, phase: Phase, e: Event): Pipeline
    requires id in p.tasks
  {
    var task := p.tasks[id].(phase := phase);
    if |p.channel.queue| < p.channel.Capacity() then
      p.(channel := Send(p.channel, e), tasks := p.tasks[id := task.(sent := task.sent + [e])])
    else p.(channel := Send(p.channel, e), tasks := p.tasks[id := task])
  }

  function Step(p: Pipeline, a: Action): Pipeline
    requires Enabled(p, a)
  {
    match a
    case Admit(id) =>
      (match Reserve(p.channel)
       case Err(_) => p
       case Ok(c) => p.(channel := c, tasks := p.tasks[id := Task(Reserved, [], 0, None)]))
    case Start(id, at, info) =>
      var e := Started(id, at, info);
      var (c, sent) := SendStart(p.channel, e);
      p.(channel := c, tasks := p.tasks[id := if sent then Task(Armed(false, false), [e], 0, None) else Task(Done, [], 0, None)])
    case Route(id, at, routing) => SendFrom(p, id, Armed(true, false), Routed(id, at, routing))
    case Fail(id, error) => SendFrom(p, id, Armed(true, true), Failed(id, error))
    case Respond(id, status, streaming) => SendFrom(p, id, Streaming, ResponseStarted(id, status, streaming))
    case Finish(id, at, outcome, observation) => SendFrom(p, id, Done, Finished(id, at, outcome, observation))
    case Abandon(id, at) => SendFrom(p, id, Done, Finished(id, at, Abandoned, NOTHING_OBSERVED))
    case Vanish(id) => p.(tasks := p.tasks[id := p.tasks[id].(phase := Done)])
    case Take => p.(hand := Some(p.channel.queue[0]), channel := p.channel.(queue := p.channel.queue[1..]))
    case HandleTaken =>
      var e := p.hand.value;
      var written := Handle(p.writer, e);
      var released := e.Finished? && e.id in p.writer.pending;
      p.(hand := None, writer := written,
         channel := if released then ReleasePermit(p.channel) else p.channel,
         tasks := if e.id in p.tasks then p.tasks[e.id := p.tasks[e.id].(handled := p.tasks[e.id].handled + 1)] else p.tasks)
    case Close => p.(closed := true)
    case FlushOne(id, now) =>
      p.(writer := Flush(p.writer, id, now), channel := ReleasePermit(p.channel),
         tasks := if id in p.tasks then p.tasks[id := p.tasks[id].(flushedAt := Some(now))] else p.tasks)
  }

  function Initial(slots: nat): Pipeline {
    Pipeline(Channel(slots, 0, [], true), map[], None, Writer(map[], []), false)
  }

  /** The state after a run of actions, if each was enabled when it was taken. */
  function Run(slots: nat, actions: seq<Action>): Option<Pipeline> {
    if actions == [] then Some(Initial(slots))
    else
      var before := Run(slots, actions[..|actions| - 1]);
      var a := actions[|actions| - 1];
      if before.Some? && Enabled(before.value, a) then Some(Step(before.value, a)) else None
  }

  // ---- Invariants ----

  /** The events of one request, in order. */
  function Project(events: seq<Event>, id: RequestId): seq<Event> {
    if events == [] then []
    else Project(events[..|events| - 1], id) + (if events[|events| - 1].id == id then [events[|events| - 1]] else [])
  }

  function InFlight(p: Pipeline): seq<Event> {
    (if p.hand.Some? then [p.hand.value] else []) + p.channel.queue
  }

  predicate Shaped(t: Task) {
    && (match t.phase
        case Reserved => t.sent == []
        case Armed(routed, failed) => |t.sent| == 1 + (if routed then 1 else 0) + (if failed then 1 else 0)
        case Streaming => 2 <= |t.sent| <= 4
        case Done => |t.sent| <= MAX_EVENTS_PER_REQUEST)
    && (forall i :: 0 <= i < |t.sent| ==> (t.sent[i].Started? <==> i == 0))
    && (forall i :: 0 <= i < |t.sent| && t.sent[i].Finished? ==> i == |t.sent| - 1 && t.phase.Done?)
  }

  predicate Ended(t: Task) { t.sent != [] && t.sent[|t.sent| - 1].Finished? }

  /** The writer has written this request's record. */
  predicate Recorded(t: Task) { (Ended(t) && t.handled == |t.sent|) || t.flushedAt.Some? }

  /** The request's permit is alive: in the task, in a queued event or in the writer. */
  predicate HoldsPermit(t: Task) { t.phase.Reserved? || (t.sent != [] && !Recorded(t)) }

  predicate IsPending(t: Task) { t.handled > 0 && !Recorded(t) }

  predicate TaskOk(t: Task, id: RequestId) {
    && Shaped(t) && t.handled <= |t.sent| && (forall e <- t.sent :: e.id == id)
    && (t.flushedAt.Some? ==> t.phase.Done? && t.sent != [] && t.handled == |t.sent| && !Ended(t))
  }

  /** The pending entry the events of one request build up. */
  function Assemble(events: seq<Event>): Pending
    requires events != [] && events[0].Started?
  {
    if |events| == 1 then NewPending(events[0]) else Fill(Assemble(events[..|events| - 1]), events[|events| - 1])
  }

  /** The one record of a request, a function of what the request sent. */
  function RecordOf(t: Task, id: RequestId): Record
    requires TaskOk(t, id) && Recorded(t)
  {
    if t.flushedAt.Some? then Record(id, Assemble(t.sent), NOTHING_OBSERVED, t.flushedAt.value, SHUT_DOWN)
    else
      var f := t.sent[|t.sent| - 1];
      Record(id, Assemble(t.sent[..|t.sent| - 1]), f.observation, f.at, f.outcome)
  }

  function RecordsFor(records: seq<Record>, id: RequestId): seq<Record> {
    if records == [] then []
    else RecordsFor(records[..|records| - 1], id)
         + (if records[|records| - 1].id == id then [records[|records| - 1]] else [])
  }

  /** The events on their way are the ones the writer has not handled yet. */
  predicate FlightInv(p: Pipeline, t: Task, id: RequestId) {
    TaskOk(t, id) && Project(InFlight(p), id) == t.sent[t.handled..]
  }

  /** What the writer holds and has written is a function of the handled events. */
  predicate WriterInv(w: Writer, t: Task, id: RequestId)
    requires TaskOk(t, id)
  {
    && (id in w.pending <==> IsPending(t))
    && (IsPending(t) ==> w.pending[id] == Assemble(t.sent[..t.handled]))
    && RecordsFor(w.records, id) == (if Recorded(t) then [RecordOf(t, id)] else [])
  }

  /** Everything the pipeline holds about one request agrees with the request's history. */
  predicate RequestInv(p: Pipeline, id: RequestId)
    requires id in p.tasks
  {
    FlightInv(p, p.tasks[id], id) && WriterInv(p.writer, p.tasks[id], id)
  }

  predicate AllRequests(p: Pipeline) {
    && (forall id <- p.tasks :: RequestInv(p, id))
    && (forall e <- InFlight(p) :: e.id in p.tasks)
    && p.writer.pending.Keys <= p.tasks.Keys
    && (forall r <- p.writer.records :: r.id in p.tasks)
    && ClosedOk(p)
  }

  predicate ClosedOk(p: Pipeline) {
    p.closed ==> p.hand.None? && p.channel.queue == [] && forall id <- p.tasks :: p.tasks[id].phase.Done?
  }

  function Holders(p: Pipeline): set<RequestId> {
    set id | id in p.tasks && HoldsPermit(p.tasks[id])
  }

  /** The admission counter counts exactly the live permits. */
  predicate PermitsCounted(p: Pipeline) {
    p.channel.admitted == |Holders(p)| <= p.channel.slots
  }

  predicate Inv(p: Pipeline) {
    AllRequests(p) && PermitsCounted(p) && p.channel.healthy
  }

  // ---- Projections ----

  lemma {:induction false} ProjectConcat(a: seq<Event>, b: seq<Event>, id: RequestId)
    ensures Project(a + b, id) == Project(a, id) + Project(b, id)
    decreases |b|
  {
    if b == [] {
      assert a + b == a;
    } else {
      assert (a + b)[..|a + b| - 1] == a + b[..|b| - 1];
      ProjectConcat(a, b[..|b| - 1], id);
    }
  }

  lemma ProjectOne(e: Event, id: RequestId)
    ensures Project([e], id) == if e.id == id then [e] else []
  {
    assert [e][..0] == [];
  }

  function Without(events: seq<Event>, id: RequestId): seq<Event> {
    if events == [] then []
    else Without(events[..|events| - 1], id) + (if events[|events| - 1].id == id then [] else [events[|events| - 1]])
  }

  lemma {:induction false} WithoutCounts(events: seq<Event>, id: RequestId)
    ensures |events| == |Without(events, id)| + |Project(events, id)|
    ensures forall e <- Without(events, id) :: e in events && e.id != id
  {
    if events != [] {
      WithoutCounts(events[..|events| - 1], id);
    }
  }

  lemma {:induction false} WithoutKeeps(events: seq<Event>, id: RequestId, other: RequestId)
    requires other != id
    ensures Project(Without(events, id), other) == Project(events, other)
  {
    if events != [] {
      var front, last := events[..|events| - 1], events[|events| - 1];
      WithoutKeeps(front, id, other);
      if last.id == id {
        assert Without(front, id) + [] == Without(front, id);
        assert Project(front, other) + [] == Project(front, other);
      } else {
        assert Without(events, id)[..|Without(front, id)|] == Without(front, id);
      }
    }
  }

  /** If every event belongs to one of `ids` and each of them has at most five, there
    * are at most five times as many events as ids. */
  lemma {:induction false} EventsBounded(events: seq<Event>, ids: set<RequestId>)
    requires forall i :: 0 <= i < |events| ==> events[i].id in ids
    requires forall id <- ids :: |Project(events, id)| <= MAX_EVENTS_PER_REQUEST
    ensures |events| <= MAX_EVENTS_PER_REQUEST * |ids|
    decreases |ids|
  {
    assert |events| == 0 || events[0].id in ids;
    if ids != {} {
      var id :| id in ids;
      forall other | other in ids - {id} ensures |Project(Without(events, id), other)| <= MAX_EVENTS_PER_REQUEST {
        WithoutKeeps(events, id, other);
      }
      WithoutCounts(events, id);
      EventsBounded(Without(events, id), ids - {id});
    }
  }

  lemma {:induction false} ProjectMember(events: seq<Event>, e: Event)
    requires e in events
    ensures e in Project(events, e.id)
  {
    var front := events[..|events| - 1];
    if e in front {
      ProjectMember(front, e);
    }
  }

  /** Every queued event belongs to a request whose permit is still alive. */
  lemma QueuedHoldPermits(p: Pipeline)
    requires AllRequests(p)
    ensures forall e <- InFlight(p) :: e.id in Holders(p)
    ensures forall id <- Holders(p) :: |Project(p.channel.queue, id)| <= |p.tasks[id].sent|
  {
    forall e | e in InFlight(p) ensures e.id in Holders(p) {
      ProjectMember(InFlight(p), e);
      assert RequestInv(p, e.id);
    }
    forall id | id in Holders(p) ensures |Project(p.channel.queue, id)| <= |p.tasks[id].sent| {
      assert RequestInv(p, id);
      ProjectConcat(if p.hand.Some? then [p.hand.value] else [], p.channel.queue, id);
    }
  }

  /** The queue holds at most five events for each admitted request. */
  lemma QueueBounded(p: Pipeline)
    requires Inv(p)
    ensures |p.channel.queue| <= MAX_EVENTS_PER_REQUEST * p.channel.admitted
  {
    QueuedHoldPermits(p);
    forall i | 0 <= i < |p.channel.queue| ensures p.channel.queue[i].id in Holders(p) {
      assert p.channel.queue[i] in InFlight(p);
    }
    forall id | id in Holders(p) ensures |Project(p.channel.queue, id)| <= MAX_EVENTS_PER_REQUEST {
      assert RequestInv(p, id);
    }
    EventsBounded(p.channel.queue, Holders(p));
  }

  lemma OneMoreFits(p: Pipeline, e: Event, id: RequestId)
    requires AllRequests(p) && e.id in Holders(p) && |p.tasks[e.id].sent| < MAX_EVENTS_PER_REQUEST
    requires id in Holders(p) && |Project(p.channel.queue, id)| <= |p.tasks[id].sent|
    ensures |Project(p.channel.queue + [e], id)| <= MAX_EVENTS_PER_REQUEST
  {
    assert RequestInv(p, id);
    ProjectConcat(p.channel.queue, [e], id);
    ProjectOne(e, id);
  }

  lemma OneMoreHeld(p: Pipeline, e: Event, ids: set<RequestId>)
    requires e.id in ids && forall f <- InFlight(p) :: f.id in ids
    ensures forall i :: 0 <= i < |p.channel.queue| + 1 ==> (p.channel.queue + [e])[i].id in ids
  {
    forall i | 0 <= i < |p.channel.queue| + 1 ensures (p.channel.queue + [e])[i].id in ids {
      assert i < |p.channel.queue| ==> p.channel.queue[i] in InFlight(p);
    }
  }

  lemma OneMoreBounded(p: Pipeline, e: Event)
    requires AllRequests(p) && e.id in Holders(p) && |p.tasks[e.id].sent| < MAX_EVENTS_PER_REQUEST
    ensures BoundedBy(p.channel.queue + [e], Holders(p))
  {
    QueuedHoldPermits(p);
    OneMoreHeld(p, e, Holders(p));
    forall id | id in Holders(p) ensures |Project(p.channel.queue + [e], id)| <= MAX_EVENTS_PER_REQUEST {
      OneMoreFits(p, e, id);
    }
  }

  predicate BoundedBy(events: seq<Event>, ids: set<RequestId>) {
    && (forall i :: 0 <= i < |events| ==> events[i].id in ids)
    && (forall id <- ids :: |Project(events, id)| <= MAX_EVENTS_PER_REQUEST)
  }

  lemma RoomFromBound(p: Pipeline, e: Event)
    requires PermitsCounted(p) && BoundedBy(p.channel.queue + [e], Holders(p))
    ensures |p.channel.queue| < p.channel.Capacity()
  {
    EventsBounded(p.channel.queue + [e], Holders(p));
  }

  /** A request which has sent fewer than five events always finds room for the next. */
  lemma QueueHasRoom(p: Pipeline, e: Event)
    requires Inv(p) && e.id in Holders(p) && |p.tasks[e.id].sent| < MAX_EVENTS_PER_REQUEST
    ensures |p.channel.queue| < p.channel.Capacity()
  {
    OneMoreBounded(p, e);
    RoomFromBound(p, e);
  }

  // ---- Every step keeps the invariant ----

  /** A step which touches one request leaves the events of the others ... */
  ghost predicate FlightKept(p: Pipeline, q: Pipeline, id: RequestId) {
    && q.tasks.Keys == p.tasks.Keys + {id}
    && (forall other <- p.tasks :: other != id ==> q.tasks[other] == p.tasks[other])
    && (forall other :: other != id ==> Project(InFlight(q), other) == Project(InFlight(p), other))
    && (forall e <- InFlight(q) :: e in InFlight(p) || e.id == id)
  }

  /** ... and what the writer knows of them as they were. */
  ghost predicate WriterKept(w: Writer, v: Writer, id: RequestId) {
    && (forall other :: other != id ==> (other in v.pending <==> other in w.pending))
    && (forall other <- w.pending :: other != id ==> v.pending[other] == w.pending[other])
    && (forall other :: other != id ==> RecordsFor(v.records, other) == RecordsFor(w.records, other))
    && (forall r <- v.records :: r in w.records || r.id == id)
  }

  lemma OneRequestStep(p: Pipeline, q: Pipeline, id: RequestId)
    requires AllRequests(p) && FlightKept(p, q, id) && WriterKept(p.writer, q.writer, id) && RequestInv(q, id)
    requires ClosedOk(q)
    ensures AllRequests(q)
  {
    forall other | other in q.tasks ensures RequestInv(q, other) {
      if other != id {
        assert RequestInv(p, other);
      }
    }
    forall other | other in q.writer.pending ensures other in q.tasks {
      assert other != id ==> other in p.writer.pending;
    }
  }

  function Permits(t: Task): nat { if HoldsPermit(t) then 1 else 0 }

  /** A step on one request changes the permit count by that request's permit. */
  lemma PermitStep(p: Pipeline, q: Pipeline, id: RequestId)
    requires PermitsCounted(p) && q.tasks.Keys == p.tasks.Keys + {id}
    requires forall other <- p.tasks :: other != id ==> q.tasks[other] == p.tasks[other]
    requires q.channel.slots == p.channel.slots && q.channel.admitted <= q.channel.slots
    requires q.channel.admitted == p.channel.admitted - (if id in p.tasks then Permits(p.tasks[id]) else 0) + Permits(q.tasks[id])
    ensures PermitsCounted(q)
  {
    HoldersChange(p, q, id);
    Toggle(Holders(p), id, HoldsPermit(q.tasks[id]));
    assert id in Holders(p) <==> id in p.tasks && HoldsPermit(p.tasks[id]);
  }

  lemma HoldersChange(p: Pipeline, q: Pipeline, id: RequestId)
    requires q.tasks.Keys == p.tasks.Keys + {id}
    requires forall other <- p.tasks :: other != id ==> q.tasks[other] == p.tasks[other]
    ensures Holders(q) == Holders(p) - {id} + (if HoldsPermit(q.tasks[id]) then {id} else {})
  {
  }

  lemma Toggle(s: set<RequestId>, id: RequestId, present: bool)
    ensures |s - {id} + (if present then {id} else {})| == |s| - (if id in s then 1 else 0) + (if present then 1 else 0)
  {
    assert |s - {id}| == |s| - (if id in s then 1 else 0);
  }

  lemma HolderAdmitted(p: Pipeline, id: RequestId)
    requires PermitsCounted(p) && id in p.tasks && HoldsPermit(p.tasks[id])
    ensures p.channel.admitted > 0
  {
    assert id in Holders(p);
  }

  lemma QueueGrows(p: Pipeline, q: Pipeline, e: Event)
    requires InFlight(q) == InFlight(p) + [e]
    ensures forall id :: Project(InFlight(q), id) == Project(InFlight(p), id) + (if id == e.id then [e] else [])
  {
    forall id ensures Project(InFlight(q), id) == Project(InFlight(p), id) + (if id == e.id then [e] else []) {
      ProjectConcat(InFlight(p), [e], id);
      ProjectOne(e, id);
    }
  }

  /** The effect of a successful send which moves the task to `phase`. */
  predicate Pushed(p: Pipeline, q: Pipeline, e: Event, phase: Phase) {
    && q.hand == p.hand && q.closed == p.closed && q.writer == p.writer
    && q.channel == p.channel.(queue := p.channel.queue + [e])
    && e.id in p.tasks && q.tasks == p.tasks[e.id := Sending(p.tasks[e.id], e, phase)]
  }

  function Sending(t: Task, e: Event, phase: Phase): Task {
    t.(phase := phase, sent := t.sent + [e])
  }

  lemma PushedKept(p: Pipeline, q: Pipeline, e: Event, phase: Phase)
    requires Pushed(p, q, e, phase)
    ensures FlightKept(p, q, e.id)
    ensures Project(InFlight(q), e.id) == Project(InFlight(p), e.id) + [e]
  {
    assert InFlight(q) == InFlight(p) + [e];
    QueueGrows(p, q, e);
    forall other | other != e.id ensures Project(InFlight(q), other) == Project(InFlight(p), other) {
      assert Project(InFlight(p), other) + [] == Project(InFlight(p), other);
    }
  }

  lemma PushedTask(t: Task, e: Event, phase: Phase)
    requires TaskOk(t, e.id) && !t.phase.Done? && Shaped(Sending(t, e, phase)) && !phase.Reserved?
    ensures TaskOk(Sending(t, e, phase), e.id)
    ensures (t.sent + [e])[t.handled..] == t.sent[t.handled..] + [e]
    ensures (t.sent + [e])[..t.handled] == t.sent[..t.handled]
    ensures !Recorded(t) && !Recorded(Sending(t, e, phase)) && HoldsPermit(t) && HoldsPermit(Sending(t, e, phase))
  {
  }

  lemma PushedKeeps(p: Pipeline, q: Pipeline, e: Event, phase: Phase)
    requires Inv(p) && Pushed(p, q, e, phase) && !p.closed
    requires !p.tasks[e.id].phase.Done? && !phase.Reserved? && Shaped(Sending(p.tasks[e.id], e, phase))
    ensures Inv(q)
  {
    assert RequestInv(p, e.id);
    PushedTask(p.tasks[e.id], e, phase);
    PushedKept(p, q, e, phase);
    OneRequestStep(p, q, e.id);
    PermitStep(p, q, e.id);
  }

  lemma {:induction false} ProjectNone(events: seq<Event>, id: RequestId)
    requires forall e <- events :: e.id != id
    ensures Project(events, id) == []
  {
    if events != [] {
      assert events[|events| - 1] in events;
      ProjectNone(events[..|events| - 1], id);
    }
  }

  lemma {:induction false} RecordsForNone(records: seq<Record>, id: RequestId)
    requires forall r <- records :: r.id != id
    ensures RecordsFor(records, id) == []
  {
    if records != [] {
      assert records[|records| - 1] in records;
      RecordsForNone(records[..|records| - 1], id);
    }
  }

  lemma RecordsForAppend(records: seq<Record>, r: Record, id: RequestId)
    ensures RecordsFor(records + [r], id) == RecordsFor(records, id) + (if r.id == id then [r] else [])
  {
    assert (records + [r])[..|records|] == records;
  }

  lemma AdmitKeeps(p: Pipeline, id: RequestId)
    requires Inv(p) && Enabled(p, Admit(id))
    ensures Inv(Step(p, Admit(id)))
  {
    var q := Step(p, Admit(id));
    if p.channel.admitted < p.channel.slots {
      ProjectNone(InFlight(p), id);
      RecordsForNone(p.writer.records, id);
      assert TaskOk(q.tasks[id], id);
      OneRequestStep(p, q, id);
      PermitStep(p, q, id);
    }
  }

  lemma StartKeeps(p: Pipeline, id: RequestId, at: nat, info: string)
    requires Inv(p) && Enabled(p, Start(id, at, info))
    ensures Inv(Step(p, Start(id, at, info)))
  {
    var e := Started(id, at, info);
    assert RequestInv(p, id);
    QueueHasRoom(p, e);
    assert Sending(p.tasks[id], e, Armed(false, false)) == Task(Armed(false, false), [e], 0, None);
    PushedKeeps(p, Step(p, Start(id, at, info)), e, Armed(false, false));
  }

  lemma VanishKeeps(p: Pipeline, id: RequestId)
    requires Inv(p) && Enabled(p, Vanish(id))
    ensures Inv(Step(p, Vanish(id)))
  {
    VanishedRequests(p, Step(p, Vanish(id)), id);
    PermitStep(p, Step(p, Vanish(id)), id);
  }

  lemma VanishedRequests(p: Pipeline, q: Pipeline, id: RequestId)
    requires AllRequests(p) && id in p.tasks && (p.tasks[id].phase.Armed? || p.tasks[id].phase.Streaming?)
    requires q == p.(tasks := p.tasks[id := p.tasks[id].(phase := Done)])
    ensures AllRequests(q) && Permits(q.tasks[id]) == Permits(p.tasks[id])
  {
    assert RequestInv(p, id);
    assert InFlight(q) == InFlight(p);
    assert TaskOk(q.tasks[id], id);
    OneRequestStep(p, q, id);
  }

  lemma TakeKeeps(p: Pipeline)
    requires Inv(p) && Enabled(p, Take)
    ensures Inv(Step(p, Take))
  {
    assert InFlight(Step(p, Take)) == InFlight(p);
    SameFlightKeeps(p, Step(p, Take));
  }

  /** Moving an event, or closing the channel, changes nothing the invariant speaks of. */
  lemma SameFlightKeeps(p: Pipeline, q: Pipeline)
    requires Inv(p) && InFlight(q) == InFlight(p) && q.tasks == p.tasks && q.writer == p.writer && ClosedOk(q)
    requires q.channel == p.channel.(queue := q.channel.queue)
    ensures Inv(q)
  {
    forall id | id in q.tasks ensures RequestInv(q, id) {
      assert RequestInv(p, id);
    }
    assert Holders(q) == Holders(p);
  }

  lemma HandleKeepsWriter(w: Writer, t: Task, id: RequestId)
    requires TaskOk(t, id) && WriterInv(w, t, id) && t.handled < |t.sent|
    ensures TaskOk(t.(handled := t.handled + 1), id)
    ensures var u := t.(handled := t.handled + 1);
            HoldsPermit(t) && (HoldsPermit(u) <==> !t.sent[t.handled].Finished?)
    ensures t.sent[t.handled].Finished? ==> id in w.pending
    ensures WriterInv(Handle(w, t.sent[t.handled]), t.(handled := t.handled + 1), id)
  {
    var e, n := t.sent[t.handled], t.handled;
    var u := t.(handled := n + 1);
    assert t.sent[..n + 1][..n] == t.sent[..n];
    assert e.id == id && !Recorded(t) && t.flushedAt.None?;
    if e.Finished? {
      assert n + 1 == |t.sent| && Recorded(u);
      RecordsForAppend(w.records, RecordOf(u, id), id);
    } else {
      assert !Recorded(u);
    }
  }

  lemma RecordKeepsOthers(w: Writer, v: Writer, r: Record)
    requires v.pending == w.pending - {r.id} && v.records == w.records + [r]
    ensures WriterKept(w, v, r.id)
  {
    forall other | other != r.id ensures RecordsFor(v.records, other) == RecordsFor(w.records, other) {
      RecordsForAppend(w.records, r, other);
      assert RecordsFor(w.records, other) + [] == RecordsFor(w.records, other);
    }
  }

  lemma HandleKeepsOthers(w: Writer, e: Event)
    ensures WriterKept(w, Handle(w, e), e.id)
  {
    if e.Finished? && e.id in w.pending {
      RecordKeepsOthers(w, Handle(w, e), Record(e.id, w.pending[e.id], e.observation, e.at, e.outcome));
    }
  }

  /** The effect of handling the event in the writer's hand. */
  predicate Handled(p: Pipeline, q: Pipeline, e: Event) {
    && p.hand == Some(e) && q.hand.None? && q.closed == p.closed
    && e.id in p.tasks && q.tasks == p.tasks[e.id := p.tasks[e.id].(handled := p.tasks[e.id].handled + 1)]
    && q.writer == Handle(p.writer, e)
    && q.channel == (if e.Finished? && e.id in p.writer.pending then ReleasePermit(p.channel) else p.channel)
  }

  lemma HandledFlight(p: Pipeline, q: Pipeline, e: Event)
    requires Handled(p, q, e)
    ensures InFlight(p) == [e] + InFlight(q)
    ensures forall id :: Project(InFlight(p), id) == (if e.id == id then [e] else []) + Project(InFlight(q), id)
  {
    assert InFlight(q) == p.channel.queue == q.channel.queue;
    forall id ensures Project(InFlight(p), id) == (if e.id == id then [e] else []) + Project(InFlight(q), id) {
      ProjectConcat([e], InFlight(q), id);
      ProjectOne(e, id);
    }
  }

  lemma HandledKept(p: Pipeline, q: Pipeline, e: Event)
    requires Handled(p, q, e)
    ensures FlightKept(p, q, e.id)
  {
    HandledFlight(p, q, e);
    forall other | other != e.id ensures Project(InFlight(q), other) == Project(InFlight(p), other) {
      assert [] + Project(InFlight(q), other) == Project(InFlight(q), other);
    }
  }

  /** The event in the writer's hand is the next one of its request. */
  lemma HandIsNext(p: Pipeline, q: Pipeline, e: Event)
    requires Handled(p, q, e) && RequestInv(p, e.id)
    ensures var t := p.tasks[e.id];
            && t.handled < |t.sent| && t.sent[t.handled] == e
            && Project(InFlight(q), e.id) == t.sent[t.handled + 1..]
  {
    HandledFlight(p, q, e);
    var t := p.tasks[e.id];
    assert Project(InFlight(p), e.id)[1..] == Project(InFlight(q), e.id);
    assert t.sent[t.handled..][0] == e && t.sent[t.handled..][1..] == t.sent[t.handled + 1..];
  }

  lemma HandledRequest(p: Pipeline, q: Pipeline, e: Event)
    requires Handled(p, q, e) && RequestInv(p, e.id)
    ensures RequestInv(q, e.id)
    ensures HoldsPermit(p.tasks[e.id]) && (HoldsPermit(q.tasks[e.id]) <==> !e.Finished?)
    ensures e.Finished? ==> e.id in p.writer.pending
  {
    HandIsNext(p, q, e);
    HandleKeepsWriter(p.writer, p.tasks[e.id], e.id);
  }

  lemma HandledRequests(p: Pipeline, q: Pipeline, e: Event)
    requires AllRequests(p) && Handled(p, q, e)
    ensures AllRequests(q)
    ensures HoldsPermit(p.tasks[e.id]) && (HoldsPermit(q.tasks[e.id]) <==> !e.Finished?)
    ensures e.Finished? ==> e.id in p.writer.pending
  {
    assert RequestInv(p, e.id);
    HandledRequest(p, q, e);
    HandledKept(p, q, e);
    HandleKeepsOthers(p.writer, e);
    OneRequestStep(p, q, e.id);
  }

  lemma HandledPermits(p: Pipeline, q: Pipeline, e: Event)
    requires PermitsCounted(p) && Handled(p, q, e)
    requires HoldsPermit(p.tasks[e.id]) && (HoldsPermit(q.tasks[e.id]) <==> !e.Finished?)
    requires e.Finished? ==> e.id in p.writer.pending
    ensures PermitsCounted(q)
  {
    HolderAdmitted(p, e.id);
    PermitStep(p, q, e.id);
  }

  lemma HandleTakenKeeps(p: Pipeline, q: Pipeline, e: Event)
    requires Inv(p) && Handled(p, q, e)
    ensures Inv(q)
  {
    HandledRequests(p, q, e);
    HandledPermits(p, q, e);
  }

  /** The effect of writing one unfinished record at shutdown. */
  predicate Flushed(p: Pipeline, q: Pipeline, id: RequestId, now: nat) {
    && id in p.writer.pending && q.writer == Flush(p.writer, id, now)
    && InFlight(p) == [] && q.hand == p.hand && q.closed && p.closed && q.channel == ReleasePermit(p.channel)
    && id in p.tasks && q.tasks == p.tasks[id := p.tasks[id].(flushedAt := Some(now))]
  }

  lemma FlushedKept(p: Pipeline, q: Pipeline, id: RequestId, now: nat)
    requires Flushed(p, q, id, now)
    ensures FlightKept(p, q, id) && WriterKept(p.writer, q.writer, id) && InFlight(q) == []
  {
    RecordKeepsOthers(p.writer, q.writer, Record(id, p.writer.pending[id], NOTHING_OBSERVED, now, SHUT_DOWN));
    assert InFlight(q) == InFlight(p);
  }

  lemma FlushedRequest(p: Pipeline, q: Pipeline, id: RequestId, now: nat)
    requires Flushed(p, q, id, now) && InFlight(q) == [] && RequestInv(p, id) && p.tasks[id].phase.Done?
    ensures RequestInv(q, id) && HoldsPermit(p.tasks[id]) && !HoldsPermit(q.tasks[id])
  {
    FlushKeepsWriter(p.writer, p.tasks[id], id, now);
  }

  lemma FlushedPermits(p: Pipeline, q: Pipeline, id: RequestId, now: nat)
    requires PermitsCounted(p) && Flushed(p, q, id, now) && HoldsPermit(p.tasks[id]) && !HoldsPermit(q.tasks[id])
    ensures PermitsCounted(q)
  {
    HolderAdmitted(p, id);
    PermitStep(p, q, id);
  }

  lemma FlushedRequests(p: Pipeline, q: Pipeline, id: RequestId, now: nat)
    requires AllRequests(p) && Flushed(p, q, id, now)
    ensures AllRequests(q) && HoldsPermit(p.tasks[id]) && !HoldsPermit(q.tasks[id])
  {
    FlushedClosed(p, q, id, now);
    assert RequestInv(p, id);
    FlushedKept(p, q, id, now);
    FlushedRequest(p, q, id, now);
    OneRequestStep(p, q, id);
  }

  lemma FlushedClosed(p: Pipeline, q: Pipeline, id: RequestId, now: nat)
    requires ClosedOk(p) && Flushed(p, q, id, now)
    ensures ClosedOk(q) && p.tasks[id].phase.Done?
  {
  }

  lemma FlushKeeps(p: Pipeline, q: Pipeline, id: RequestId, now: nat)
    requires Inv(p) && Flushed(p, q, id, now)
    ensures Inv(q)
  {
    FlushedRequests(p, q, id, now);
    FlushedPermits(p, q, id, now);
  }

  lemma FlushKeepsWriter(w: Writer, t: Task, id: RequestId, now: nat)
    requires TaskOk(t, id) && WriterInv(w, t, id) && id in w.pending && t.phase.Done? && t.handled == |t.sent|
    ensures TaskOk(t.(flushedAt := Some(now)), id)
    ensures WriterInv(Flush(w, id, now), t.(flushedAt := Some(now)), id)
  {
    var u := t.(flushedAt := Some(now));
    assert t.sent[..t.handled] == t.sent;
    RecordsForAppend(w.records, RecordOf(u, id), id);
    assert [] + [RecordOf(u, id)] == [RecordOf(u, id)];
  }

  /** Every step keeps the invariant. */
  lemma StepKeeps(p: Pipeline, a: Action)
    requires Inv(p) && Enabled(p, a)
    ensures Inv(Step(p, a))
  {
    match a
    case Admit(id) => AdmitKeeps(p, id);
    case Start(id, at, info) => StartKeeps(p, id, at, info);
    case Route(id, at, routing) => MidSendKeeps(p, a);
    case Fail(id, error) => MidSendKeeps(p, a);
    case Respond(id, status, streaming) => MidSendKeeps(p, a);
    case Finish(id, at, outcome, observation) => MidSendKeeps(p, a);
    case Abandon(id, at) => MidSendKeeps(p, a);
    case Vanish(id) => VanishKeeps(p, id);
    case Take => TakeKeeps(p);
    case HandleTaken => HandleStepKeeps(p);
    case Close => CloseKeeps(p);
    case FlushOne(id, now) => FlushStepKeeps(p, id, now);
  }

  lemma HandleStepKeeps(p: Pipeline)
    requires Inv(p) && Enabled(p, HandleTaken)
    ensures Inv(Step(p, HandleTaken))
  {
    assert p.hand.value in InFlight(p);
    HandleTakenKeeps(p, Step(p, HandleTaken), p.hand.value);
  }

  lemma FlushStepKeeps(p: Pipeline, id: RequestId, now: nat)
    requires Inv(p) && Enabled(p, FlushOne(id, now))
    ensures Inv(Step(p, FlushOne(id, now)))
  {
    FlushKeeps(p, Step(p, FlushOne(id, now)), id, now);
  }

  lemma CloseKeeps(p: Pipeline)
    requires Inv(p) && Enabled(p, Close)
    ensures Inv(Step(p, Close))
  {
    assert InFlight(Step(p, Close)) == InFlight(p);
    SameFlightKeeps(p, Step(p, Close));
  }

  /** A started request may send a further event as long as it stays within the
    * number of events its phase allows. */
  lemma ShapedSend(t: Task, phase: Phase, e: Event)
    requires Shaped(t) && (t.phase.Armed? || t.phase.Streaming?)
    requires !e.Started? && (e.Finished? ==> phase.Done?)
    requires match phase
             case Reserved => false
             case Armed(routed, failed) => |t.sent| == (if routed then 1 else 0) + (if failed then 1 else 0)
             case Streaming => t.phase.Armed?
             case Done => true
    ensures Shaped(Sending(t, e, phase)) && |t.sent| < MAX_EVENTS_PER_REQUEST
  {
  }

  lemma MidSendKeeps(p: Pipeline, a: Action)
    requires Inv(p) && Enabled(p, a)
    requires a.Route? || a.Fail? || a.Respond? || a.Finish? || a.Abandon?
    ensures Inv(Step(p, a))
  {
    assert RequestInv(p, a.id);
    var (phase, e) := match a
      case Route(id, at, routing) => (Armed(true, false), Routed(id, at, routing))
      case Fail(id, error) => (Armed(true, true), Failed(id, error))
      case Respond(id, status, streaming) => (Streaming, ResponseStarted(id, status, streaming))
      case Finish(id, at, outcome, observation) => (Done, Finished(id, at, outcome, observation))
      case Abandon(id, at) => (Done, Finished(id, at, Abandoned, NOTHING_OBSERVED));
    ShapedSend(p.tasks[a.id], phase, e);
    QueueHasRoom(p, e);
    PushedKeeps(p, SendFrom(p, a.id, phase, e), e, phase);
  }

  // ---- Main results ----

  lemma InvInitially(slots: nat)
    ensures Inv(Initial(slots))
  {
    assert Holders(Initial(slots)) == {};
  }

  lemma {:induction false} InvAlways(slots: nat, actions: seq<Action>)
    requires Run(slots, actions).Some?
    ensures Inv(Run(slots, actions).value)
    decreases |actions|
  {
    if actions == [] {
      InvInitially(slots);
    } else {
      InvAlways(slots, actions[..|actions| - 1]);
      StepKeeps(Run(slots, actions[..|actions| - 1]).value, actions[|actions| - 1]);
    }
  }

  lemma {:induction false} SlotsConstant(slots: nat, actions: seq<Action>)
    requires Run(slots, actions).Some?
    ensures Run(slots, actions).value.channel.slots == slots
    decreases |actions|
  {
    if actions != [] {
      SlotsConstant(slots, actions[..|actions| - 1]);
    }
  }

  /** No interleaving ever fills the queue: it holds at most five events for each
    * admitted request, every queued event belongs to a request whose permit is
    * alive, and no send has ever failed. */
  lemma QueueNeverFull(slots: nat, actions: seq<Action>)
    requires Run(slots, actions).Some?
    ensures var p := Run(slots, actions).value;
            && p.channel.healthy
            && |p.channel.queue| <= 5 * p.channel.admitted <= p.channel.Capacity() == 5 * slots
            && (forall e <- p.channel.queue :: e.id in Holders(p))
            && p.channel.admitted == |Holders(p)| <= slots
  {
    InvAlways(slots, actions);
    SlotsConstant(slots, actions);
    var p := Run(slots, actions).value;
    QueueBounded(p);
    QueuedHoldPermits(p);
    forall e | e in p.channel.queue ensures e.id in Holders(p) {
      assert e in InFlight(p);
    }
  }

  /** At any time a request has at most one record, and it is put together from all the events
    * the request sent. */
  lemma RecordIsFaithful(slots: nat, actions: seq<Action>, id: RequestId)
    requires Run(slots, actions).Some? && id in Run(slots, actions).value.tasks
    ensures var p := Run(slots, actions).value;
            var t := p.tasks[id];
            && TaskOk(t, id)
            && RecordsFor(p.writer.records, id) == (if Recorded(t) then [RecordOf(t, id)] else [])
  {
    InvAlways(slots, actions);
    assert RequestInv(Run(slots, actions).value, id);
  }

  /** Once every task is over and the writer has caught up, every request whose start
    * was enqueued has exactly one record and every permit is back, except for
    * requests whose drop handlers never ran; shutdown writes those too. */
  lemma ExactlyOneRecord(slots: nat, actions: seq<Action>)
    requires Run(slots, actions).Some?
    requires var p := Run(slots, actions).value;
             && (forall id <- p.tasks :: p.tasks[id].phase.Done?) && InFlight(p) == []
             && (p.writer.pending == map[] || forall id <- p.tasks :: p.tasks[id].sent != [] ==> Ended(p.tasks[id]))
    ensures var p := Run(slots, actions).value;
            && (forall id <- p.tasks :: |RecordsFor(p.writer.records, id)| == if p.tasks[id].sent == [] then 0 else 1)
            && p.channel.admitted == 0 && p.writer.pending == map[]
  {
    InvAlways(slots, actions);
    var p := Run(slots, actions).value;
    forall id | id in p.tasks
      ensures |RecordsFor(p.writer.records, id)| == (if p.tasks[id].sent == [] then 0 else 1)
      ensures !HoldsPermit(p.tasks[id]) && id !in p.writer.pending
    {
      assert RequestInv(p, id);
      var t := p.tasks[id];
      assert Project([], id) == [] && |t.sent[t.handled..]| == |t.sent| - t.handled;
    }
    assert Holders(p) == {};
    assert p.writer.pending.Keys == {};
  }

  // ---- The writer always catches up ----

  predicate AllOver(p: Pipeline) { forall id <- p.tasks :: p.tasks[id].phase.Done? }

  /** A step of the writer, or the closing of its channel. */
  predicate OfWriter(a: Action) { a.Take? || a.HandleTaken? || a.Close? || a.FlushOne? }

  /** The same requests, having sent the same events. */
  predicate SameSent(p: Pipeline, q: Pipeline) {
    && q.tasks.Keys == p.tasks.Keys
    && forall id <- p.tasks :: q.tasks[id].phase == p.tasks[id].phase && q.tasks[id].sent == p.tasks[id].sent
  }

  /** A run goes on by itself: the writer alone brings `p` to `q`. */
  predicate Settles(slots: nat, actions: seq<Action>, more: seq<Action>) {
    && Run(slots, actions).Some? && Run(slots, actions + more).Some?
    && (forall a <- more :: OfWriter(a))
    && SameSent(Run(slots, actions).value, Run(slots, actions + more).value)
  }

  lemma SettlesOne(slots: nat, actions: seq<Action>, a: Action)
    requires Run(slots, actions).Some? && Enabled(Run(slots, actions).value, a) && OfWriter(a)
    ensures Settles(slots, actions, [a]) && Run(slots, actions + [a]) == Some(Step(Run(slots, actions).value, a))
  {
    assert (actions + [a])[..|actions + [a]| - 1] == actions;
  }

  lemma SettlesOn(slots: nat, actions: seq<Action>, first: seq<Action>, rest: seq<Action>)
    requires Settles(slots, actions, first) && Settles(slots, actions + first, rest)
    ensures Settles(slots, actions, first + rest) && actions + (first + rest) == actions + first + rest
  {
    assert actions + (first + rest) == actions + first + rest;
  }

  /** Every queued event is handled ... */
  lemma {:induction false} HandlesAll(slots: nat, actions: seq<Action>) returns (more: seq<Action>)
    requires Run(slots, actions).Some?
    ensures Settles(slots, actions, more) && InFlight(Run(slots, actions + more).value) == []
    decreases var p := Run(slots, actions).value; 2 * |p.channel.queue| + if p.hand.Some? then 1 else 0
  {
    var p := Run(slots, actions).value;
    if p.hand.None? && p.channel.queue == [] {
      more := [];
      assert actions + [] == actions;
    } else {
      var a := if p.hand.Some? then HandleTaken else Take;
      SettlesOne(slots, actions, a);
      var rest := HandlesAll(slots, actions + [a]);
      SettlesOn(slots, actions, [a], rest);
      more := [a] + rest;
    }
  }

  lemma NothingInFlight(p: Pipeline)
    requires InFlight(p) == []
    ensures p.hand.None? && p.channel.queue == []
  {
    assert |InFlight(p)| == (if p.hand.Some? then 1 else 0) + |p.channel.queue|;
  }

  /** ... the channel closes once all tasks are over ... */
  lemma Closes(slots: nat, actions: seq<Action>) returns (more: seq<Action>)
    requires Run(slots, actions).Some? && AllOver(Run(slots, actions).value) && InFlight(Run(slots, actions).value) == []
    ensures Settles(slots, actions, more)
    ensures var q := Run(slots, actions + more).value; q.closed && InFlight(q) == []
  {
    var p := Run(slots, actions).value;
    NothingInFlight(p);
    if p.closed {
      more := [];
      assert actions + [] == actions;
    } else {
      more := [Close];
      SettlesOne(slots, actions, Close);
    }
  }

  /** ... and every record left is written. */
  lemma {:induction false} FlushesAll(slots: nat, actions: seq<Action>) returns (more: seq<Action>)
    requires Run(slots, actions).Some? && Run(slots, actions).value.closed && InFlight(Run(slots, actions).value) == []
    ensures Settles(slots, actions, more)
    ensures var q := Run(slots, actions + more).value; InFlight(q) == [] && q.writer.pending == map[]
    decreases |Run(slots, actions).value.writer.pending|
  {
    var p := Run(slots, actions).value;
    if p.writer.pending == map[] {
      more := [];
      assert actions + [] == actions;
    } else {
      var id :| id in p.writer.pending;
      SettlesOne(slots, actions, FlushOne(id, 0));
      FlushShrinks(p, id);
      var rest := FlushesAll(slots, actions + [FlushOne(id, 0)]);
      SettlesOn(slots, actions, [FlushOne(id, 0)], rest);
      more := [FlushOne(id, 0)] + rest;
    }
  }

  lemma FlushShrinks(p: Pipeline, id: RequestId)
    requires Enabled(p, FlushOne(id, 0)) && InFlight(p) == []
    ensures var q := Step(p, FlushOne(id, 0));
            q.closed && InFlight(q) == [] && |q.writer.pending| < |p.writer.pending|
  {
    var q := Step(p, FlushOne(id, 0));
    assert InFlight(q) == InFlight(p);
    assert q.writer.pending == p.writer.pending - {id};
    assert q.writer.pending.Keys == p.writer.pending.Keys - {id};
  }

  /** From every reachable state in which all tasks are over the writer alone reaches the
    * end: every request whose start was enqueued has exactly one record, every permit is
    * back, and nothing more was sent. */
  lemma WriterCatchesUp(slots: nat, actions: seq<Action>) returns (more: seq<Action>)
    requires Run(slots, actions).Some? && AllOver(Run(slots, actions).value)
    ensures Settles(slots, actions, more)
    ensures var q := Run(slots, actions + more).value;
            && InFlight(q) == [] && q.writer.pending == map[] && q.channel.admitted == 0
            && forall id <- q.tasks :: |RecordsFor(q.writer.records, id)| == if q.tasks[id].sent == [] then 0 else 1
  {
    var handled := HandlesAll(slots, actions);
    var closed := Closes(slots, actions + handled);
    SettlesOn(slots, actions, handled, closed);
    var flushed := FlushesAll(slots, actions + (handled + closed));
    SettlesOn(slots, actions, handled + closed, flushed);
    more := handled + closed + flushed;
    ExactlyOneRecord(slots, actions + more);
  }
}
