/** What an audit record says (src/logging.rs), in terms of what the request's task did
  * (src/proxy.rs) and not of how the writer puts the record together.
  */
module AuditRecord {
  import opened Wrappers
  import opened Audit

  /** The action by which a task says this. */
  predicate Did(actions: seq<Action>, e: Event) {
    match e
    case Started(id, at, info) => Start(id, at, info) in actions
    case Routed(id, at, routing) => Route(id, at, routing) in actions
    case Failed(id, error) => Fail(id, error) in actions
    case ResponseStarted(id, status, streaming) => Respond(id, status, streaming) in actions
    case Finished(id, at, outcome, observation) =>
      || Finish(id, at, outcome, observation) in actions
      || (outcome == Abandoned && observation == Observation(None, 0, "") && Abandon(id, at) in actions)
  }

  // ---- A task says each thing at most once ----

  predicate SameKind(a: Event, b: Event) {
    || (a.Started? && b.Started?) || (a.Routed? && b.Routed?) || (a.Failed? && b.Failed?)
    || (a.ResponseStarted? && b.ResponseStarted?) || (a.Finished? && b.Finished?)
  }

  predicate OnceEach(events: seq<Event>) {
    forall i, j :: 0 <= i < j < |events| ==> !SameKind(events[i], events[j])
  }

  /** What a task in this phase may have said already. */
  predicate MayHaveSaid(phase: Phase, e: Event) {
    match phase
    case Reserved => false
    case Armed(routed, failed) => e.Started? || (e.Routed? && routed) || (e.Failed? && failed)
    case Streaming => !e.Finished?
    case Done => true
  }

  predicate KindsFit(t: Task) {
    OnceEach(t.sent) && forall e <- t.sent :: MayHaveSaid(t.phase, e)
  }

  lemma OnceMore(events: seq<Event>, e: Event)
    requires OnceEach(events) && forall f <- events :: !SameKind(f, e)
    ensures OnceEach(events + [e])
  {
    forall i, j | 0 <= i < j < |events + [e]| ensures !SameKind((events + [e])[i], (events + [e])[j]) {
      assert events[i] in events;
    }
  }

  /** The event by which this action of a running task says something, and the phase after it. */
  function Saying(a: Action): Option<(Event, Phase)> {
    match a
    case Route(id, at, routing) => Some((Routed(id, at, routing), Armed(true, false)))
    case Fail(id, error) => Some((Failed(id, error), Armed(true, true)))
    case Respond(id, status, streaming) => Some((ResponseStarted(id, status, streaming), Streaming))
    case Finish(id, at, outcome, observation) => Some((Finished(id, at, outcome, observation), Done))
    case Abandon(id, at) => Some((Finished(id, at, Abandoned, NOTHING_OBSERVED), Done))
    case _ => None
  }

  lemma SayingKinds(p: Pipeline, a: Action)
    requires Enabled(p, a) && Saying(a).Some? && KindsFit(p.tasks[a.id])
    ensures var (e, phase) := Saying(a).value;
            && KindsFit(p.tasks[a.id].(phase := phase)) && KindsFit(Sending(p.tasks[a.id], e, phase))
  {
    var (e, phase) := Saying(a).value;
    OnceMore(p.tasks[a.id].sent, e);
  }

  lemma KindsStep(p: Pipeline, a: Action, id: RequestId)
    requires Enabled(p, a) && id in Step(p, a).tasks && (id in p.tasks ==> KindsFit(p.tasks[id]))
    ensures KindsFit(Step(p, a).tasks[id])
  {
    if Saying(a).Some? && a.id == id {
      SayingKinds(p, a);
    }
  }

  lemma {:induction false} KindsAlways(slots: nat, actions: seq<Action>, id: RequestId)
    requires Run(slots, actions).Some? && id in Run(slots, actions).value.tasks
    ensures KindsFit(Run(slots, actions).value.tasks[id])
    decreases |actions|
  {
    if actions != [] {
      var front := actions[..|actions| - 1];
      if id in Run(slots, front).value.tasks {
        KindsAlways(slots, front, id);
      }
      KindsStep(Run(slots, front).value, actions[|actions| - 1], id);
    }
  }

  // ---- What was sent is what was done ----

  /** A request sent an event exactly if its task did what the event says. */
  predicate SentIsDone(p: Pipeline, actions: seq<Action>, e: Event) {
    Did(actions, e) <==> e.id in p.tasks && e in p.tasks[e.id].sent
  }

  lemma DidMore(actions: seq<Action>, a: Action, e: Event)
    ensures Did(actions + [a], e) <==> Did(actions, e) || Did([a], e)
  {
  }

  /** No event is lost: a queue without room would have failed the pipeline. */
  lemma SendsOne(p: Pipeline, a: Action)
    requires Enabled(p, a) && Saying(a).Some? && Step(p, a).channel.healthy
    ensures Step(p, a).tasks == p.tasks[a.id := Sending(p.tasks[a.id], Saying(a).value.0, Saying(a).value.1)]
  {
  }

  lemma StartsOne(p: Pipeline, id: RequestId, at: nat, info: string)
    requires Enabled(p, Start(id, at, info)) && p.channel.healthy && Step(p, Start(id, at, info)).channel.healthy
    ensures Step(p, Start(id, at, info)).tasks == p.tasks[id := Task(Armed(false, false), [Started(id, at, info)], 0, None)]
  {
  }

  lemma OthersSayNothing(p: Pipeline, a: Action, e: Event)
    requires Enabled(p, a) && Saying(a).None? && !a.Start?
    ensures !Did([a], e)
    ensures (e.id in Step(p, a).tasks && e in Step(p, a).tasks[e.id].sent) <==> (e.id in p.tasks && e in p.tasks[e.id].sent)
  {
  }

  lemma SayingIsDone(a: Action, e: Event)
    requires Saying(a).Some?
    ensures Did([a], e) <==> e == Saying(a).value.0
  {
  }

  lemma SentStep(p: Pipeline, actions: seq<Action>, a: Action, e: Event)
    requires Enabled(p, a) && p.channel.healthy && Step(p, a).channel.healthy && SentIsDone(p, actions, e)
    requires forall id <- p.tasks :: KindsFit(p.tasks[id])
    ensures SentIsDone(Step(p, a), actions + [a], e)
  {
    DidMore(actions, a, e);
    if Saying(a).Some? {
      SendsOne(p, a);
      SayingIsDone(a, e);
    } else if a.Start? {
      StartsOne(p, a.id, a.at, a.info);
      assert KindsFit(p.tasks[a.id]);
    } else {
      OthersSayNothing(p, a, e);
    }
  }

  lemma {:induction false} SentAlways(slots: nat, actions: seq<Action>, e: Event)
    requires Run(slots, actions).Some?
    ensures SentIsDone(Run(slots, actions).value, actions, e)
    decreases |actions|
  {
    if actions != [] {
      var front, a := actions[..|actions| - 1], actions[|actions| - 1];
      SentAlways(slots, front, e);
      QueueNeverFull(slots, front);
      QueueNeverFull(slots, actions);
      forall id | id in Run(slots, front).value.tasks ensures KindsFit(Run(slots, front).value.tasks[id]) {
        KindsAlways(slots, front, id);
      }
      SentStep(Run(slots, front).value, front, a, e);
      assert actions == front + [a];
    }
  }

  lemma FlushedStep(p: Pipeline, a: Action, id: RequestId)
    requires Enabled(p, a) && id in Step(p, a).tasks && Step(p, a).tasks[id].flushedAt.Some?
    ensures a == FlushOne(id, Step(p, a).tasks[id].flushedAt.value)
            || (id in p.tasks && p.tasks[id].flushedAt == Step(p, a).tasks[id].flushedAt)
  {
  }

  lemma {:induction false} FlushedBy(slots: nat, actions: seq<Action>, id: RequestId)
    requires Run(slots, actions).Some? && id in Run(slots, actions).value.tasks
    requires Run(slots, actions).value.tasks[id].flushedAt.Some?
    ensures FlushOne(id, Run(slots, actions).value.tasks[id].flushedAt.value) in actions
    decreases |actions|
  {
    if actions != [] {
      var front, a := actions[..|actions| - 1], actions[|actions| - 1];
      var p := Run(slots, front).value;
      FlushedStep(p, a, id);
      if id in p.tasks && p.tasks[id].flushedAt == Step(p, a).tasks[id].flushedAt {
        FlushedBy(slots, front, id);
      }
    }
  }

  // ---- What a record says ----

  /** Every field an entry collects is that of the one event which says it. */
  ghost predicate Says(entry: Pending, events: seq<Event>, id: RequestId) {
    && Started(id, entry.startedAt, entry.info) in events
    && (forall s: nat :: entry.status == Some(s) <==> exists b :: ResponseStarted(id, s, b) in events)
    && (entry.streaming <==> exists s: nat :: ResponseStarted(id, s, true) in events)
    && (forall error :: entry.error == Some(error) <==> Failed(id, error) in events)
    && (forall routing :: entry.routing == Some(routing) <==> exists at: nat :: Routed(id, at, routing) in events)
    && (forall at: nat :: entry.routedAt == Some(at) <==> exists routing :: Routed(id, at, routing) in events)
  }

  /** One start, then no other, and no end. */
  predicate EntryShaped(events: seq<Event>, id: RequestId) {
    && events != [] && OnceEach(events)
    && forall i :: 0 <= i < |events| ==> (events[i].Started? <==> i == 0) && events[i].id == id && !events[i].Finished?
  }

  lemma EntryFront(events: seq<Event>, id: RequestId)
    requires EntryShaped(events, id) && |events| > 1
    ensures EntryShaped(events[..|events| - 1], id)
  {
  }

  lemma {:induction false} AssembleSays(events: seq<Event>, id: RequestId)
    requires EntryShaped(events, id)
    ensures Says(Assemble(events), events, id)
    decreases |events|
  {
    if |events| == 1 {
      StartSays(events[0], id);
      assert events == [events[0]];
    } else {
      var front, last := events[..|events| - 1], events[|events| - 1];
      EntryFront(events, id);
      AssembleSays(front, id);
      assert events == front + [last];
      SaysMore(Assemble(front), front, last, id);
    }
  }

  lemma StartSays(e: Event, id: RequestId)
    requires e.Started? && e.id == id
    ensures Says(NewPending(e), [e], id)
  {
    assert e in [e];
  }

  lemma SaysMore(entry: Pending, events: seq<Event>, e: Event, id: RequestId)
    requires Says(entry, events, id) && OnceEach(events + [e]) && e.id == id && !e.Started? && !e.Finished?
    ensures Says(Fill(entry, e), events + [e], id)
  {
    var more := events + [e];
    forall f | f in events ensures !SameKind(f, e) && f in more {
      var i :| 0 <= i < |events| && events[i] == f;
      assert !SameKind(more[i], more[|events|]);
    }
    assert e in more && forall f :: f in more <==> f in events || f == e;
  }

  /** The same in terms of what the task did. */
  ghost predicate SaysWhatWasDone(entry: Pending, actions: seq<Action>, id: RequestId) {
    && Start(id, entry.startedAt, entry.info) in actions
    && (forall s: nat :: entry.status == Some(s) <==> exists b :: Respond(id, s, b) in actions)
    && (entry.streaming <==> exists s: nat :: Respond(id, s, true) in actions)
    && (forall error :: entry.error == Some(error) <==> Fail(id, error) in actions)
    && (forall routing :: entry.routing == Some(routing) <==> exists at: nat :: Route(id, at, routing) in actions)
    && (forall at: nat :: entry.routedAt == Some(at) <==> exists routing :: Route(id, at, routing) in actions)
  }

  /** How the request ended: as its task finished it, or abandoned it, or neither - then the
    * writer closed the record at shutdown. */
  predicate EndsAsDone(r: Record, actions: seq<Action>) {
    || Finish(r.id, r.finishedAt, r.outcome, r.observation) in actions
    || (Abandon(r.id, r.finishedAt) in actions && r.outcome == Abandoned && r.observation == Observation(None, 0, ""))
    || (FlushOne(r.id, r.finishedAt) in actions && r.observation == Observation(None, 0, "")
        && r.outcome == BodyError("the logger shut down before the response finished")
        && forall a <- actions :: !(a.Finish? && a.id == r.id) && !(a.Abandon? && a.id == r.id))
  }

  ghost predicate SameStatus(events: seq<Event>, actions: seq<Action>, id: RequestId) {
    forall s: nat, b: bool :: ResponseStarted(id, s, b) in events <==> Respond(id, s, b) in actions
  }

  ghost predicate SameRouting(events: seq<Event>, actions: seq<Action>, id: RequestId) {
    forall at: nat, routing: string :: Routed(id, at, routing) in events <==> Route(id, at, routing) in actions
  }

  lemma StatusDone(status: Option<nat>, streaming: bool, events: seq<Event>, actions: seq<Action>, id: RequestId)
    requires SameStatus(events, actions, id)
    requires forall s: nat :: status == Some(s) <==> exists b :: ResponseStarted(id, s, b) in events
    requires streaming <==> exists s: nat :: ResponseStarted(id, s, true) in events
    ensures forall s: nat :: status == Some(s) <==> exists b :: Respond(id, s, b) in actions
    ensures streaming <==> exists s: nat :: Respond(id, s, true) in actions
  {
  }

  lemma RoutingDone(routing: Option<string>, routedAt: Option<nat>, events: seq<Event>, actions: seq<Action>, id: RequestId)
    requires SameRouting(events, actions, id)
    requires forall x :: routing == Some(x) <==> exists at: nat :: Routed(id, at, x) in events
    requires forall at: nat :: routedAt == Some(at) <==> exists x :: Routed(id, at, x) in events
    ensures forall x :: routing == Some(x) <==> exists at: nat :: Route(id, at, x) in actions
    ensures forall at: nat :: routedAt == Some(at) <==> exists x :: Route(id, at, x) in actions
  {
  }

  /** Apart from its end, `events` is what the request sent. */
  ghost predicate AllBut(events: seq<Event>, sent: seq<Event>) {
    forall e: Event :: !e.Finished? ==> (e in events <==> e in sent)
  }

  lemma SentMatches(slots: nat, actions: seq<Action>, events: seq<Event>, id: RequestId)
    requires Run(slots, actions).Some? && id in Run(slots, actions).value.tasks
    requires AllBut(events, Run(slots, actions).value.tasks[id].sent)
    ensures SameStatus(events, actions, id) && SameRouting(events, actions, id)
    ensures forall error: string :: Failed(id, error) in events <==> Fail(id, error) in actions
    ensures forall at: nat, info: string :: Started(id, at, info) in events <==> Start(id, at, info) in actions
  {
    forall e: Event | e.id == id && !e.Finished? ensures e in events <==> Did(actions, e) {
      SentAlways(slots, actions, e);
    }
    forall s: nat, b: bool ensures ResponseStarted(id, s, b) in events <==> Respond(id, s, b) in actions {
      assert ResponseStarted(id, s, b) in events <==> Did(actions, ResponseStarted(id, s, b));
    }
    forall at: nat, routing: string ensures Routed(id, at, routing) in events <==> Route(id, at, routing) in actions {
      assert Routed(id, at, routing) in events <==> Did(actions, Routed(id, at, routing));
    }
    forall error: string ensures Failed(id, error) in events <==> Fail(id, error) in actions {
      assert Failed(id, error) in events <==> Did(actions, Failed(id, error));
    }
    forall at: nat, info: string ensures Started(id, at, info) in events <==> Start(id, at, info) in actions {
      assert Started(id, at, info) in events <==> Did(actions, Started(id, at, info));
    }
  }

  lemma SaysDone(entry: Pending, events: seq<Event>, actions: seq<Action>, id: RequestId)
    requires Says(entry, events, id) && SameStatus(events, actions, id) && SameRouting(events, actions, id)
    requires forall error: string :: Failed(id, error) in events <==> Fail(id, error) in actions
    requires forall at: nat, info: string :: Started(id, at, info) in events <==> Start(id, at, info) in actions
    ensures SaysWhatWasDone(entry, actions, id)
  {
    StatusDone(entry.status, entry.streaming, events, actions, id);
    RoutingDone(entry.routing, entry.routedAt, events, actions, id);
  }

  lemma FlushedUnfinished(t: Task, id: RequestId, e: Event)
    requires TaskOk(t, id) && t.flushedAt.Some? && e.Finished?
    ensures e !in t.sent
  {
  }

  lemma FinishedIsSent(slots: nat, actions: seq<Action>, a: Action)
    requires Run(slots, actions).Some? && a in actions && (a.Finish? || a.Abandon?)
    ensures var e := Saying(a).value.0;
            e.Finished? && e.id in Run(slots, actions).value.tasks && e in Run(slots, actions).value.tasks[e.id].sent
  {
    var e := Saying(a).value.0;
    SentAlways(slots, actions, e);
    assert Did(actions, e);
  }

  lemma RecordEnds(slots: nat, actions: seq<Action>, id: RequestId)
    requires Run(slots, actions).Some? && id in Run(slots, actions).value.tasks
    requires var t := Run(slots, actions).value.tasks[id]; TaskOk(t, id) && Recorded(t)
    ensures EndsAsDone(RecordOf(Run(slots, actions).value.tasks[id], id), actions)
  {
    var t := Run(slots, actions).value.tasks[id];
    if t.flushedAt.Some? {
      FlushedBy(slots, actions, id);
      forall a | a in actions ensures !(a.Finish? && a.id == id) && !(a.Abandon? && a.id == id) {
        if (a.Finish? || a.Abandon?) && a.id == id {
          FinishedIsSent(slots, actions, a);
          FlushedUnfinished(t, id, Saying(a).value.0);
        }
      }
    } else {
      SentAlways(slots, actions, t.sent[|t.sent| - 1]);
    }
  }

  /** The events the record of a task is put together from. */
  lemma EntryEvents(t: Task, id: RequestId) returns (events: seq<Event>)
    requires TaskOk(t, id) && Recorded(t) && OnceEach(t.sent)
    ensures events != [] && events[0].Started? && RecordOf(t, id).entry == Assemble(events)
    ensures Says(Assemble(events), events, id) && AllBut(events, t.sent)
  {
    events := if t.flushedAt.Some? then t.sent else t.sent[..|t.sent| - 1];
    EntryShape(t, id, events);
    AssembleSays(events, id);
  }

  lemma EntryShape(t: Task, id: RequestId, events: seq<Event>)
    requires TaskOk(t, id) && Recorded(t) && OnceEach(t.sent)
    requires events == if t.flushedAt.Some? then t.sent else t.sent[..|t.sent| - 1]
    ensures EntryShaped(events, id) && AllBut(events, t.sent)
  {
    forall i | 0 <= i < |events| ensures events[i].id == id && !events[i].Finished? {
      assert t.sent[i] in t.sent;
    }
    assert t.flushedAt.None? ==> t.sent == events + [t.sent[|t.sent| - 1]];
  }

  lemma RecordEntry(slots: nat, actions: seq<Action>, id: RequestId)
    requires Run(slots, actions).Some? && id in Run(slots, actions).value.tasks
    requires var t := Run(slots, actions).value.tasks[id]; TaskOk(t, id) && Recorded(t)
    ensures SaysWhatWasDone(RecordOf(Run(slots, actions).value.tasks[id], id).entry, actions, id)
  {
    var t := Run(slots, actions).value.tasks[id];
    KindsAlways(slots, actions, id);
    var events := EntryEvents(t, id);
    SentMatches(slots, actions, events, id);
    SaysDone(Assemble(events), events, actions, id);
  }

  lemma {:induction false} RecordsForHas(records: seq<Record>, r: Record)
    requires r in records
    ensures r in RecordsFor(records, r.id)
  {
    if r in records[..|records| - 1] {
      RecordsForHas(records[..|records| - 1], r);
    }
  }

  /** Every record of every run says exactly what the request's task did: when it started
    * and with what, where it was routed, the one error, the status, and how it ended; a
    * field is empty exactly if nothing was said. */
  lemma RecordSaysWhatWasDone(slots: nat, actions: seq<Action>, r: Record)
    requires Run(slots, actions).Some? && r in Run(slots, actions).value.writer.records
    ensures SaysWhatWasDone(r.entry, actions, r.id)
    ensures EndsAsDone(r, actions)
  {
    InvAlways(slots, actions);
    var p := Run(slots, actions).value;
    RecordIsFaithful(slots, actions, r.id);
    RecordsForHas(p.writer.records, r);
    RecordEntry(slots, actions, r.id);
    RecordEnds(slots, actions, r.id);
  }
}
