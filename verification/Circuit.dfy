/** The circuit of one live backend under any interleaving of the requests that use
  * it (src/routing.rs): permits taken by selections, the observers a success leaves
  * behind, and outcomes which arrive in any order, however late.
  */
module Circuit {
  import opened Wrappers
  import opened Routing

  /** What a request holds of the circuit: an unresolved permit, or the observer of a
    * response body. */
  datatype Ticket = Held(permit: Permit) | Watching(observer: Observer)
  {
    function Epoch(): nat { if Held? then permit.epoch else observer.epoch }
    predicate Trial() { Held? && permit.trial }
  }

  type RequestId = nat

  /** `results` is history: the failures (true) and successes of the current epoch. */
  datatype Gate = Gate(live: Live, tickets: map<RequestId, Ticket>, results: seq<bool>)

  datatype Action =
    | Take(id: RequestId, now: nat)
    | Fail(id: RequestId, now: nat)
    | Ignore(id: RequestId, now: nat)
    | Pass(id: RequestId)
    | Break(id: RequestId, now: nat)
    | Forget(id: RequestId)

  predicate Enabled(g: Gate, a: Action) {
    match a
    case Take(id, _) => id !in g.tickets
    case Fail(id, _) => id in g.tickets && g.tickets[id].Held?
    case Ignore(id, _) => id in g.tickets && g.tickets[id].Held?
    case Pass(id) => id in g.tickets && g.tickets[id].Held?
    case Break(id, _) => id in g.tickets && g.tickets[id].Watching?
    case Forget(id) => id in g.tickets && g.tickets[id].Watching?
  }

  /** An outcome counts if its ticket is of the current epoch. */
  predicate Counts(g: Gate, id: RequestId)
    requires id in g.tickets
  {
    g.tickets[id].Epoch() == g.live.circuitEpoch
  }

  function AddResult(g: Gate, id: RequestId, after: Live, failed: bool): seq<bool>
    requires id in g.tickets
  {
    if after.circuitEpoch != g.live.circuitEpoch then []
    else if Counts(g, id) then g.results + [failed]
    else g.results
  }

  function Step(g: Gate, a: Action): Gate
    requires Enabled(g, a)
  {
    match a
    case Take(id, now) =>
      var (live, permit) := TryPermit(g.live, now);
      g.(live := live, tickets := if permit.Some? then g.tickets[id := Held(permit.value)] else g.tickets)
    case Fail(id, now) =>
      var live := Resolve(g.live, g.tickets[id].permit, Failure, now);
      Gate(live, g.tickets - {id}, AddResult(g, id, live, true))
    case Ignore(id, now) =>
      g.(live := Resolve(g.live, g.tickets[id].permit, Neutral, now), tickets := g.tickets - {id})
    case Pass(id) =>
      var (live, observer) := Succeed(g.live, g.tickets[id].permit);
      Gate(live, if observer.Some? then g.tickets[id := Watching(observer.value)] else g.tickets - {id},
           AddResult(g, id, live, false))
    case Break(id, now) =>
      var live := BodyFailed(g.live, g.tickets[id].observer, now);
      Gate(live, g.tickets - {id}, AddResult(g, id, live, true))
    case Forget(id) => g.(tickets := g.tickets - {id})
  }

  function Run(generation: nat, actions: seq<Action>): Option<Gate> {
    if actions == [] then Some(Gate(NewLive(generation), map[], []))
    else
      var before := Run(generation, actions[..|actions| - 1]);
      var a := actions[|actions| - 1];
      if before.Some? && Enabled(before.value, a) then Some(Step(before.value, a)) else None
  }

  // ---- The invariant ----

  predicate TicketFits(l: Live, t: Ticket) {
    && t.Epoch() <= l.circuitEpoch
    && (t.Epoch() == l.circuitEpoch ==> if t.Trial() then l.circuit == HalfOpen(true) else l.circuit == Closed)
  }

  predicate CurrentTrial(l: Live, t: Ticket) { t.Trial() && t.Epoch() == l.circuitEpoch }

  /** At most one trial of the current epoch is unresolved, it exists exactly while the
    * circuit is half open with a trial in flight, and ordinary permits and observers
    * of the current epoch exist only while it is closed. */
  predicate TicketsInv(l: Live, tickets: map<RequestId, Ticket>) {
    && (forall id <- tickets :: TicketFits(l, tickets[id]))
    && (forall i, j | i in tickets && j in tickets && CurrentTrial(l, tickets[i]) && CurrentTrial(l, tickets[j]) :: i == j)
    && (l.circuit == HalfOpen(true) ==> exists id <- tickets :: CurrentTrial(l, tickets[id]))
  }

  /** The length of the run of failures at the end. */
  function Trailing(results: seq<bool>): nat {
    if results == [] || !results[|results| - 1] then 0 else Trailing(results[..|results| - 1]) + 1
  }

  predicate CountInv(g: Gate) {
    g.live.circuit == Closed ==> g.live.failures == Trailing(g.results) < CIRCUIT_FAILURE_THRESHOLD
  }

  // ---- Tickets come and go ----

  lemma TakeKeeps(l: Live, tickets: map<RequestId, Ticket>, id: RequestId, now: nat)
    requires TicketsInv(l, tickets) && id !in tickets
    ensures var (after, permit) := TryPermit(l, now);
            TicketsInv(after, if permit.Some? then tickets[id := Held(permit.value)] else tickets)
  {
    var (after, permit) := TryPermit(l, now);
    if permit.Some? && permit.value.trial {
      var more := tickets[id := Held(permit.value)];
      assert CurrentTrial(after, more[id]);
      forall i | i in tickets ensures !CurrentTrial(l, tickets[i]) {
        assert TicketFits(l, tickets[i]);
      }
    } else if permit.Some? {
      assert after == l;
    }
  }

  /** The circuit moves on to a new epoch: every ticket is stale. */
  lemma NewEpochKeeps(l: Live, after: Live, tickets: map<RequestId, Ticket>)
    requires TicketsInv(l, tickets) && after.circuitEpoch == l.circuitEpoch + 1 && after.circuit != HalfOpen(true)
    ensures TicketsInv(after, tickets)
  {
    forall id | id in tickets ensures TicketFits(after, tickets[id]) && !CurrentTrial(after, tickets[id]) {
      assert TicketFits(l, tickets[id]);
    }
  }

  lemma DropKeeps(l: Live, after: Live, tickets: map<RequestId, Ticket>, id: RequestId)
    requires TicketsInv(l, tickets) && id in tickets
    requires after.circuitEpoch == l.circuitEpoch
    requires after.circuit == l.circuit || (CurrentTrial(l, tickets[id]) && after.circuit == HalfOpen(false))
    requires CurrentTrial(l, tickets[id]) ==> after.circuit == HalfOpen(false)
    ensures TicketsInv(after, tickets - {id})
  {
    var fewer := tickets - {id};
    forall i | i in fewer ensures TicketFits(after, fewer[i]) {
      assert TicketFits(l, tickets[i]);
    }
    if after.circuit == HalfOpen(true) {
      var t :| t in tickets && CurrentTrial(l, tickets[t]);
      assert t in fewer && CurrentTrial(after, fewer[t]);
    }
  }

  lemma SubsetKeeps(l: Live, tickets: map<RequestId, Ticket>, id: RequestId)
    requires TicketsInv(l, tickets) && l.circuit != HalfOpen(true)
    ensures TicketsInv(l, tickets - {id})
  {
    forall i | i in tickets - {id} ensures TicketFits(l, (tickets - {id})[i]) {
      assert TicketFits(l, tickets[i]);
    }
  }

  /** Whatever opens the circuit, or does not, when a failure is reported. */
  predicate FailureEffect(l: Live, after: Live, t: Ticket) {
    || (t.Epoch() != l.circuitEpoch && after == l)
    || (t.Epoch() == l.circuitEpoch && after.circuitEpoch == l.circuitEpoch + 1 && after.circuit.Open?)
    || (t.Epoch() == l.circuitEpoch && !t.Trial() && after == l.(failures := l.failures + 1))
  }

  lemma FailureKeeps(l: Live, after: Live, tickets: map<RequestId, Ticket>, id: RequestId)
    requires TicketsInv(l, tickets) && id in tickets && FailureEffect(l, after, tickets[id])
    ensures TicketsInv(after, tickets - {id})
  {
    if after.circuitEpoch == l.circuitEpoch + 1 {
      NewEpochKeeps(l, after, tickets);
      SubsetKeeps(after, tickets, id);
    } else {
      DropKeeps(l, after, tickets, id);
    }
  }

  lemma NeutralKeeps(l: Live, tickets: map<RequestId, Ticket>, id: RequestId, now: nat)
    requires TicketsInv(l, tickets) && id in tickets && tickets[id].Held?
    ensures TicketsInv(Resolve(l, tickets[id].permit, Neutral, now), tickets - {id})
  {
    DropKeeps(l, Resolve(l, tickets[id].permit, Neutral, now), tickets, id);
  }

  lemma ForgetKeeps(l: Live, tickets: map<RequestId, Ticket>, id: RequestId)
    requires TicketsInv(l, tickets) && id in tickets && tickets[id].Watching?
    ensures TicketsInv(l, tickets - {id})
  {
    DropKeeps(l, l, tickets, id);
  }

  lemma PassKeeps(l: Live, tickets: map<RequestId, Ticket>, id: RequestId)
    requires TicketsInv(l, tickets) && id in tickets && tickets[id].Held?
    ensures var (after, observer) := Succeed(l, tickets[id].permit);
            TicketsInv(after, if observer.Some? then tickets[id := Watching(observer.value)] else tickets - {id})
  {
    var (after, observer) := Succeed(l, tickets[id].permit);
    assert TicketFits(l, tickets[id]);
    if observer.None? {
      DropKeeps(l, l, tickets, id);
    } else {
      if tickets[id].permit.trial {
        NewEpochKeeps(l, after, tickets);
      }
      ClosedWatch(after, tickets, id, observer.value);
    }
  }

  lemma ClosedWatch(l: Live, tickets: map<RequestId, Ticket>, id: RequestId, observer: Observer)
    requires l.circuit == Closed && observer.epoch == l.circuitEpoch
    requires forall i <- tickets :: TicketFits(l, tickets[i])
    ensures TicketsInv(l, tickets[id := Watching(observer)])
  {
    forall i | i in tickets ensures !CurrentTrial(l, tickets[i]) {
      assert TicketFits(l, tickets[i]);
    }
  }

  lemma TrailingAppend(results: seq<bool>, failed: bool)
    ensures Trailing(results + [failed]) == if failed then Trailing(results) + 1 else 0
  {
    assert (results + [failed])[..|results|] == results;
  }

  lemma TicketsStep(g: Gate, a: Action)
    requires TicketsInv(g.live, g.tickets) && Enabled(g, a)
    ensures TicketsInv(Step(g, a).live, Step(g, a).tickets)
  {
    match a
    case Take(id, now) => TakeKeeps(g.live, g.tickets, id, now);
    case Fail(id, now) => FailureKeeps(g.live, Step(g, a).live, g.tickets, id);
    case Ignore(id, now) => NeutralKeeps(g.live, g.tickets, id, now);
    case Pass(id) => PassKeeps(g.live, g.tickets, id);
    case Break(id, now) => FailureKeeps(g.live, Step(g, a).live, g.tickets, id);
    case Forget(id) => ForgetKeeps(g.live, g.tickets, id);
  }

  lemma CountStep(g: Gate, a: Action)
    requires TicketsInv(g.live, g.tickets) && CountInv(g) && Enabled(g, a)
    ensures CountInv(Step(g, a))
  {
    TrailingAppend(g.results, true);
    TrailingAppend(g.results, false);
    if !a.Take? {
      assert TicketFits(g.live, g.tickets[a.id]);
    }
  }

  lemma {:induction false} InvAlways(generation: nat, actions: seq<Action>)
    requires Run(generation, actions).Some?
    ensures var g := Run(generation, actions).value; TicketsInv(g.live, g.tickets) && CountInv(g)
    decreases |actions|
  {
    if actions != [] {
      InvAlways(generation, actions[..|actions| - 1]);
      TicketsStep(Run(generation, actions[..|actions| - 1]).value, actions[|actions| - 1]);
      CountStep(Run(generation, actions[..|actions| - 1]).value, actions[|actions| - 1]);
    }
  }

  // ---- Main results ----

  /** In every reachable state at most one unresolved trial carries the current epoch,
    * it exists if and only if the circuit is half open with a trial in flight, and an
    * ordinary permit or an observer of the current epoch implies the circuit is closed. */
  lemma SingleTrial(generation: nat, actions: seq<Action>)
    requires Run(generation, actions).Some?
    ensures var g := Run(generation, actions).value;
            && (forall i, j | i in g.tickets && j in g.tickets && CurrentTrial(g.live, g.tickets[i]) && CurrentTrial(g.live, g.tickets[j]) :: i == j)
            && ((exists id <- g.tickets :: CurrentTrial(g.live, g.tickets[id])) <==> g.live.circuit == HalfOpen(true))
            && (forall id <- g.tickets :: Counts(g, id) && !g.tickets[id].Trial() ==> g.live.circuit == Closed)
  {
    InvAlways(generation, actions);
    var g := Run(generation, actions).value;
    forall id | id in g.tickets ensures TicketFits(g.live, g.tickets[id]) {
    }
  }

  /** A closed circuit opens exactly on the third failure in a row of its epoch, or when
    * the response of the trial that closed it breaks; a stale outcome changes nothing. */
  lemma OpensExactly(generation: nat, actions: seq<Action>, a: Action)
    requires Run(generation, actions).Some? && Enabled(Run(generation, actions).value, a)
    ensures var g := Run(generation, actions).value;
            var after := Step(g, a).live;
            && (g.live.circuit == Closed ==>
                  (after.circuit.Open? <==>
                     && (a.Fail? || a.Break?) && Counts(g, a.id)
                     && (Trailing(g.results) == 2 || (a.Break? && g.tickets[a.id].observer.openImmediately))))
            && (!a.Take? && !Counts(g, a.id) ==> after == g.live)
            && (g.live.circuit == Closed ==> g.live.failures == Trailing(g.results) <= 2)
  {
    InvAlways(generation, actions);
    var g := Run(generation, actions).value;
    if !a.Take? {
      assert TicketFits(g.live, g.tickets[a.id]);
    }
  }

  /** What an open circuit does, in milliseconds: nothing passes for ten seconds from the failure
    * that opened it; then one trial does; and while that trial is unresolved nothing else. */
  lemma OpenForTenSeconds(generation: nat, actions: seq<Action>, a: Action)
    requires Run(generation, actions).Some? && Enabled(Run(generation, actions).value, a)
    ensures var g := Run(generation, actions).value;
            var h := Step(g, a);
            && (h.live.circuit.Open? && h.live.circuitEpoch != g.live.circuitEpoch ==>
                  (a.Fail? || a.Break?) && h.live.circuit == Open(a.now + 10_000) && h.live.circuitEpoch == g.live.circuitEpoch + 1)
            && (h.live.circuit.Open? && h.live.circuitEpoch == g.live.circuitEpoch ==> h.live.circuit == g.live.circuit)
            && (a.Take? && g.live.circuit.Open? && a.now < g.live.circuit.until ==> h == g)
            && (a.Take? && (g.live.circuit == HalfOpen(false) || (g.live.circuit.Open? && a.now >= g.live.circuit.until)) ==>
                  h.live == g.live.(circuit := HalfOpen(true)) && h.tickets == g.tickets[a.id := Held(Permit(g.live.circuitEpoch, true))])
            && (a.Take? && g.live.circuit == HalfOpen(true) ==> h == g)
            && (a.Take? && g.live.circuit == Closed ==>
                  h.live == g.live && h.tickets == g.tickets[a.id := Held(Permit(g.live.circuitEpoch, false))])
  {
    InvAlways(generation, actions);
    var g := Run(generation, actions).value;
    if !a.Take? {
      assert TicketFits(g.live, g.tickets[a.id]);
    }
  }

  /** How the one trial ends: a failure opens the circuit again, a success closes it, and
    * anything else leaves it half open for the next trial. */
  lemma TrialDecides(generation: nat, actions: seq<Action>, a: Action)
    requires Run(generation, actions).Some? && Enabled(Run(generation, actions).value, a) && !a.Take?
    requires var g := Run(generation, actions).value; CurrentTrial(g.live, g.tickets[a.id])
    ensures var g := Run(generation, actions).value;
            var h := Step(g, a);
            match a
            case Fail(_, now) => h.live.circuit == Open(now + 10_000) && h.live.circuitEpoch == g.live.circuitEpoch + 1
            case Pass(id) =>
              && h.live.circuit == Closed && h.live.circuitEpoch == g.live.circuitEpoch + 1 && h.live.failures == 0
              && h.tickets == g.tickets[id := Watching(Observer(h.live.circuitEpoch, true))]
            case Ignore(_, _) => h.live == g.live.(circuit := HalfOpen(false))
            case _ => false
  {
    InvAlways(generation, actions);
    var g := Run(generation, actions).value;
    assert TicketFits(g.live, g.tickets[a.id]);
  }

  lemma {:induction false} WatchStays(g: Gate, generation: nat, before: seq<Action>, more: seq<Action>, id: RequestId)
    requires Run(generation, before) == Some(g) && id in g.tickets && Run(generation, before + more).Some?
    requires forall a <- more :: a.id != id
    ensures id in Run(generation, before + more).value.tickets && Run(generation, before + more).value.tickets[id] == g.tickets[id]
    decreases |more|
  {
    if more == [] {
      assert before + [] == before;
    } else {
      var front := more[..|more| - 1];
      assert (before + more)[..|before + more| - 1] == before + front;
      assert (before + more)[|before + more| - 1] == more[|more| - 1];
      WatchStays(g, generation, before, front, id);
    }
  }

  /** A response which breaks after its trial closed the circuit opens it at once, if nothing
    * else has opened it in the meantime. */
  lemma TrialBodyBreaks(generation: nat, actions: seq<Action>, id: RequestId, more: seq<Action>, now: nat)
    requires Run(generation, actions).Some? && Run(generation, actions + [Pass(id)] + more).Some? && forall a <- more :: a.id != id
    requires var g := Run(generation, actions).value; id in g.tickets && CurrentTrial(g.live, g.tickets[id])
    requires Run(generation, actions + [Pass(id)] + more).value.live.circuitEpoch == Run(generation, actions).value.live.circuitEpoch + 1
    ensures var h := Run(generation, actions + [Pass(id)] + more).value;
            && Enabled(h, Break(id, now)) && h.live.circuit == Closed
            && Step(h, Break(id, now)).live.circuit == Open(now + 10_000)
  {
    var g := Run(generation, actions).value;
    assert (actions + [Pass(id)])[..|actions|] == actions;
    TrialDecides(generation, actions, Pass(id));
    WatchStays(Step(g, Pass(id)), generation, actions + [Pass(id)], more, id);
    InvAlways(generation, actions + [Pass(id)] + more);
    var h := Run(generation, actions + [Pass(id)] + more).value;
    assert TicketFits(h.live, h.tickets[id]);
  }
}
