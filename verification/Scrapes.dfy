/** The telemetry of one live backend under any interleaving of scrapes, their
  * results and new assignments (src/routing.rs).
  */
module Scrapes {
  import opened Wrappers
  import opened Backend
  import opened Telemetry
  import opened Routing

  /** A scrape on its way.  `issued` is history: how many leases the backend had ever
    * granted when the request was sent; `at` is the step at which it was sent. */
  datatype Sent = Sent(scrape: Scrape, issued: nat, at: nat)

  /** A result that was not ignored: `None` is a failed scrape. */
  datatype Accepted = Accepted(sent: Sent, reply: Option<Metrics>)
  {
    function Serial(): nat { sent.scrape.serial }
    predicate Idle() { reply.Some? && reply.value.running == 0 && reply.value.waiting == 0 }
  }

  /** The most recent successful result. */
  function LastReply(accepted: seq<Accepted>): Option<Accepted> {
    if accepted == [] then None
    else if accepted[|accepted| - 1].reply.Some? then Some(accepted[|accepted| - 1])
    else LastReply(accepted[..|accepted| - 1])
  }

  function IdleRun(accepted: seq<Accepted>): nat {
    if accepted == [] || !accepted[|accepted| - 1].Idle() then 0 else IdleRun(accepted[..|accepted| - 1]) + 1
  }

  predicate Increasing(accepted: seq<Accepted>) {
    forall i, j :: 0 <= i < j < |accepted| ==> accepted[i].Serial() < accepted[j].Serial()
  }

  predicate SentOk(s: Sent, acquired: nat) { s.scrape.dispatches <= s.issued <= acquired }

  predicate ObservationOk(o: Option<Observation>, accepted: seq<Accepted>) {
    match (o, LastReply(accepted))
    case (None, None) => true
    case (Some(o), Some(a)) => o.serial == a.Serial() && o.dispatches == a.sent.scrape.dispatches && Some(o.metrics) == a.reply
    case _ => false
  }

  predicate SentInv(l: Live, acquired: nat, sent: set<Sent>) {
    && l.lastCompleted <= l.scrapesStarted
    && forall s <- sent :: SentOk(s, acquired) && 1 <= s.scrape.serial <= l.scrapesStarted
  }

  predicate ResultsInv(l: Live, acquired: nat, accepted: seq<Accepted>) {
    && (forall a <- accepted :: SentOk(a.sent, acquired) && a.Serial() <= l.lastCompleted)
    && l.lastCompleted == (if accepted == [] then 0 else accepted[|accepted| - 1].Serial())
    && Increasing(accepted)
  }

  predicate SummaryInv(l: Live, accepted: seq<Accepted>) {
    l.idleStreak == IdleRun(accepted) && ObservationOk(l.observation, accepted)
  }

  /** The stored telemetry is a function of the results accepted so far. */
  predicate MeterInv(l: Live, acquired: nat, sent: set<Sent>, accepted: seq<Accepted>) {
    SentInv(l, acquired, sent) && ResultsInv(l, acquired, accepted) && SummaryInv(l, accepted)
  }

  /** What accepting a result does to the history. */
  function Accept(l: Live, accepted: seq<Accepted>, s: Sent, reply: Option<Metrics>): seq<Accepted> {
    if s.scrape.serial <= l.lastCompleted then accepted else accepted + [Accepted(s, reply)]
  }

  function Finished(l: Live, s: Sent, reply: Option<Metrics>): Live {
    match reply
    case Some(metrics) => ScrapeSucceeded(l, s.scrape, metrics)
    case None => ScrapeFailed(l, s.scrape.serial)
  }

  // ---- The parts of a run ----

  lemma NewMeter(generation: nat, acquired: nat)
    ensures MeterInv(NewLive(generation), acquired, {}, [])
  {
  }

  lemma AcquireKeeps(l: Live, acquired: nat, more: nat, sent: set<Sent>, accepted: seq<Accepted>)
    requires MeterInv(l, acquired, sent, accepted) && acquired <= more
    ensures MeterInv(l, more, sent, accepted)
  {
  }

  lemma BeginKeeps(l: Live, acquired: nat, sent: set<Sent>, accepted: seq<Accepted>, s: Sent)
    requires MeterInv(l, acquired, sent, accepted) && SentOk(s, acquired) && s.scrape.serial == l.scrapesStarted + 1
    ensures MeterInv(ScrapeBegun(l), acquired, sent + {s}, accepted)
  {
  }

  lemma LastAppend(accepted: seq<Accepted>, a: Accepted)
    ensures LastReply(accepted + [a]) == if a.reply.Some? then Some(a) else LastReply(accepted)
    ensures IdleRun(accepted + [a]) == if a.Idle() then IdleRun(accepted) + 1 else 0
  {
    assert (accepted + [a])[..|accepted|] == accepted;
  }

  lemma FinishKeeps(l: Live, acquired: nat, sent: set<Sent>, accepted: seq<Accepted>, s: Sent, reply: Option<Metrics>)
    requires MeterInv(l, acquired, sent, accepted) && s in sent
    ensures MeterInv(Finished(l, s, reply), acquired, sent - {s}, Accept(l, accepted, s, reply))
  {
    FinishSummary(l, accepted, s, reply);
    FinishResults(l, acquired, accepted, s, reply);
  }

  lemma FinishSummary(l: Live, accepted: seq<Accepted>, s: Sent, reply: Option<Metrics>)
    requires SummaryInv(l, accepted)
    ensures SummaryInv(Finished(l, s, reply), Accept(l, accepted, s, reply))
  {
    LastAppend(accepted, Accepted(s, reply));
  }

  lemma FinishResults(l: Live, acquired: nat, accepted: seq<Accepted>, s: Sent, reply: Option<Metrics>)
    requires ResultsInv(l, acquired, accepted) && SentOk(s, acquired)
    ensures ResultsInv(Finished(l, s, reply), acquired, Accept(l, accepted, s, reply))
  {
    if s.scrape.serial > l.lastCompleted {
      IncreasingAppend(accepted, Accepted(s, reply));
    }
  }

  lemma IncreasingAppend(accepted: seq<Accepted>, a: Accepted)
    requires Increasing(accepted) && forall b <- accepted :: b.Serial() < a.Serial()
    ensures Increasing(accepted + [a])
  {
    var more := accepted + [a];
    forall i, j | 0 <= i < j < |more| ensures more[i].Serial() < more[j].Serial() {
      assert accepted[i] in accepted;
    }
  }

  // ---- Scrapes that never overlap ----

  /** Every scrape has completed but at most the last one, which is on its way. */
  predicate SerialInv(l: Live, sent: set<Sent>, accepted: seq<Accepted>) {
    && |accepted| == l.lastCompleted
    && (forall i :: 0 <= i < |accepted| ==> accepted[i].Serial() == i + 1)
    && (sent == {} ==> l.scrapesStarted == l.lastCompleted)
    && (forall s <- sent :: sent == {s} && s.scrape.serial == l.scrapesStarted == l.lastCompleted + 1)
  }

  lemma SerialFinish(l: Live, sent: set<Sent>, accepted: seq<Accepted>, s: Sent, reply: Option<Metrics>)
    requires SerialInv(l, sent, accepted) && s in sent
    ensures SerialInv(Finished(l, s, reply), sent - {s}, Accept(l, accepted, s, reply))
    ensures Accept(l, accepted, s, reply) == accepted + [Accepted(s, reply)]
  {
    assert sent - {s} == {};
  }

  // ---- Runs ----

  /** `acquired` is the slot's acquisition count; `clock` counts the steps. */
  datatype Meter = Meter(live: Live, acquired: nat, sent: set<Sent>, accepted: seq<Accepted>, clock: nat)

  datatype Action = Assign | Begin(now: nat) | Finish(s: Sent, reply: Option<Metrics>)

  /** `serial` schedules never begin a scrape while another is on its way. */
  predicate Enabled(m: Meter, a: Action, serial: bool) {
    match a
    case Assign => true
    case Begin(_) => serial ==> m.sent == {}
    case Finish(s, _) => s in m.sent
  }

  function Step(m: Meter, a: Action): Meter {
    var tick := m.(clock := m.clock + 1);
    match a
    case Assign => tick.(acquired := m.acquired + 1)
    case Begin(now) =>
      tick.(live := ScrapeBegun(m.live),
            sent := m.sent + {Sent(Scrape(m.live.scrapesStarted + 1, m.acquired, now), m.acquired, m.clock)})
    case Finish(s, reply) =>
      tick.(live := Finished(m.live, s, reply), sent := m.sent - {s}, accepted := Accept(m.live, m.accepted, s, reply))
  }

  function Run(m: Meter, actions: seq<Action>, serial: bool): Option<Meter> {
    if actions == [] then Some(m)
    else
      var before := Run(m, actions[..|actions| - 1], serial);
      var a := actions[|actions| - 1];
      if before.Some? && Enabled(before.value, a, serial) then Some(Step(before.value, a)) else None
  }

  function Start(generation: nat, acquired: nat): Meter { Meter(NewLive(generation), acquired, {}, [], 0) }

  lemma {:induction false} MeterAlways(m: Meter, actions: seq<Action>, serial: bool)
    requires MeterInv(m.live, m.acquired, m.sent, m.accepted) && Run(m, actions, serial).Some?
    ensures var n := Run(m, actions, serial).value; MeterInv(n.live, n.acquired, n.sent, n.accepted)
    decreases |actions|
  {
    if actions != [] {
      var front, a := actions[..|actions| - 1], actions[|actions| - 1];
      MeterAlways(m, front, serial);
      var n := Run(m, front, serial).value;
      match a
      case Assign => AcquireKeeps(n.live, n.acquired, n.acquired + 1, n.sent, n.accepted);
      case Begin(now) =>
        BeginKeeps(n.live, n.acquired, n.sent, n.accepted,
                   Sent(Scrape(n.live.scrapesStarted + 1, n.acquired, now), n.acquired, n.clock));
      case Finish(s, reply) => FinishKeeps(n.live, n.acquired, n.sent, n.accepted, s, reply);
    }
  }

  lemma {:induction false} LastReplyIn(accepted: seq<Accepted>)
    ensures LastReply(accepted).Some? ==> LastReply(accepted).value in accepted && LastReply(accepted).value.reply.Some?
    decreases |accepted|
  {
    if accepted != [] && accepted[|accepted| - 1].reply.None? {
      LastReplyIn(accepted[..|accepted| - 1]);
    }
  }

  /** Load is never understated, even when scrapes overlap: accepted results have
    * strictly increasing serials, the stored observation is the latest successful one,
    * and the new sequences counted against it are at least the leases granted since
    * its request was sent. */
  lemma LoadNeverUnderstated(generation: nat, acquired: nat, actions: seq<Action>, serial: bool, slot: Slot)
    requires Run(Start(generation, acquired), actions, serial).Some?
    requires slot.totalAcquired == Run(Start(generation, acquired), actions, serial).value.acquired
    ensures var m := Run(Start(generation, acquired), actions, serial).value;
            && Increasing(m.accepted) && m.live.lastCompleted <= m.live.scrapesStarted
            && (m.live.observation.Some? <==> LastReply(m.accepted).Some?)
            && (m.live.observation.Some? ==>
                  var (o, last) := (m.live.observation.value, LastReply(m.accepted).value);
                  && last in m.accepted && o.serial == last.Serial() <= m.live.lastCompleted
                  && NewSequences(slot, o) >= slot.totalAcquired - last.sent.issued)
  {
    NewMeter(generation, acquired);
    MeterAlways(Start(generation, acquired), actions, serial);
    LastReplyIn(Run(Start(generation, acquired), actions, serial).value.accepted);
  }

  /** A scrape with a serial that was not used yet at `m` began after `m`. */
  predicate NewerAreLater(m: Meter, n: Meter) {
    && m.clock <= n.clock && m.live.scrapesStarted <= n.live.scrapesStarted && m.accepted <= n.accepted
    && (forall s <- n.sent :: s.scrape.serial > m.live.scrapesStarted ==> m.clock <= s.at)
    && (forall i :: |m.accepted| <= i < |n.accepted| && n.accepted[i].Serial() > m.live.scrapesStarted ==>
          m.clock <= n.accepted[i].sent.at)
  }

  lemma {:induction false} SerialAlways(m: Meter, actions: seq<Action>)
    requires SerialInv(m.live, m.sent, m.accepted) && Run(m, actions, true).Some?
    requires forall s <- m.sent :: s.at < m.clock
    requires forall a <- m.accepted :: a.sent.at < m.clock
    ensures var n := Run(m, actions, true).value;
            SerialInv(n.live, n.sent, n.accepted) && NewerAreLater(m, n)
    decreases |actions|
  {
    if actions != [] {
      var front, a := actions[..|actions| - 1], actions[|actions| - 1];
      SerialAlways(m, front);
      if a.Finish? {
        var n := Run(m, front, true).value;
        SerialFinish(n.live, n.sent, n.accepted, a.s, a.reply);
      }
    }
  }

  /** The samples a drain accepts, given how many scrapes had started at its fence. */
  function IdleSamples(l: Live, startedAtFence: nat): nat {
    var serial := if l.observation.None? then 0 else l.observation.value.serial;
    var newer := if serial < startedAtFence then 0 else serial - startedAtFence;
    if l.idleStreak < newer then l.idleStreak else newer
  }

  lemma IdleRunEnds(accepted: seq<Accepted>)
    requires IdleRun(accepted) >= 2
    ensures |accepted| >= 2 && accepted[|accepted| - 1].Idle() && accepted[|accepted| - 2].Idle()
  {
    assert accepted[..|accepted| - 1][|accepted| - 2] == accepted[|accepted| - 2];
  }

  /** With scrapes that never overlap, two idle samples newer than a fence are the last
    * two results, both idle and both requested after the fence: one already on its way
    * at the fence never counts. */
  lemma TwoSamplesAfterFence(generation: nat, acquired: nat, before: seq<Action>, fence: Meter, after: seq<Action>, m: Meter)
    requires Run(Start(generation, acquired), before, true) == Some(fence) && Run(fence, after, true) == Some(m)
    requires IdleSamples(m.live, fence.live.scrapesStarted) >= 2
    ensures |m.accepted| >= 2
    ensures var (last, previous) := (m.accepted[|m.accepted| - 1], m.accepted[|m.accepted| - 2]);
            last.Idle() && last.sent.at >= fence.clock && previous.Idle() && previous.sent.at >= fence.clock
  {
    NewMeter(generation, acquired);
    FencePoint(Start(generation, acquired), before);
    SerialAlways(fence, after);
    MeterAlways(fence, after, true);
    SamplesAfter(fence, m);
  }

  lemma FencePoint(start: Meter, before: seq<Action>)
    requires MeterInv(start.live, start.acquired, start.sent, start.accepted) && start.sent == {} && start.accepted == []
    requires SerialInv(start.live, start.sent, start.accepted) && Run(start, before, true).Some?
    ensures var fence := Run(start, before, true).value;
            && MeterInv(fence.live, fence.acquired, fence.sent, fence.accepted)
            && SerialInv(fence.live, fence.sent, fence.accepted)
            && (forall s <- fence.sent :: s.at < fence.clock) && (forall a <- fence.accepted :: a.sent.at < fence.clock)
  {
    SerialAlways(start, before);
    BeganEarlier(start, before);
    MeterAlways(start, before, true);
  }

  lemma SamplesAfter(fence: Meter, n: Meter)
    requires SerialInv(fence.live, fence.sent, fence.accepted) && fence.live.lastCompleted <= fence.live.scrapesStarted
    requires SerialInv(n.live, n.sent, n.accepted) && NewerAreLater(fence, n)
    requires n.live.idleStreak == IdleRun(n.accepted) && ObservationOk(n.live.observation, n.accepted)
    requires IdleSamples(n.live, fence.live.scrapesStarted) >= 2
    ensures var accepted := n.accepted;
            && |accepted| >= 2
            && accepted[|accepted| - 1].Idle() && accepted[|accepted| - 1].sent.at >= fence.clock
            && accepted[|accepted| - 2].Idle() && accepted[|accepted| - 2].sent.at >= fence.clock
  {
    IdleRunEnds(n.accepted);
  }

  lemma {:induction false} BeganEarlier(m: Meter, actions: seq<Action>)
    requires Run(m, actions, true).Some?
    requires (forall s <- m.sent :: s.at < m.clock) && (forall a <- m.accepted :: a.sent.at < m.clock)
    ensures var n := Run(m, actions, true).value;
            (forall s <- n.sent :: s.at < n.clock) && (forall a <- n.accepted :: a.sent.at < n.clock)
    decreases |actions|
  {
    if actions != [] {
      BeganEarlier(m, actions[..|actions| - 1]);
    }
  }

  /** Overlapping scrapes would break that: with one scrape on its way at the fence and
    * two more begun after it, the first and the third results make two idle samples,
    * though only one of them was requested after the fence. */
  lemma OverlapMiscounts(generation: nat, acquired: nat, idle: Metrics)
    returns (before: seq<Action>, after: seq<Action>)
    requires idle.running == 0 && idle.waiting == 0
    ensures Run(Start(generation, acquired), before, false).Some?
    ensures Run(Run(Start(generation, acquired), before, false).value, after, false).Some?
    ensures var fence := Run(Start(generation, acquired), before, false).value;
            var m := Run(fence, after, false).value;
            && IdleSamples(m.live, fence.live.scrapesStarted) == 2
            && |m.accepted| == 2 && m.accepted[0].sent.at < fence.clock
  {
    var start := Start(generation, acquired);
    before := [Begin(0)];
    var fence := Step(start, Begin(0));
    assert before[..0] == [] && Run(start, before, false) == Some(fence);
    var first := Sent(Scrape(1, acquired, 0), acquired, 0);
    var third := Sent(Scrape(3, acquired, 0), acquired, 2);
    after := [Begin(0), Begin(0), Finish(first, Some(idle)), Finish(third, Some(idle))];
    assert after[..3] == [Begin(0), Begin(0), Finish(first, Some(idle))] && after[..3][..2] == [Begin(0), Begin(0)];
    assert [Begin(0), Begin(0)][..1] == [Begin(0)];
    assert Run(fence, [Begin(0)], false) == Some(Step(fence, Begin(0)));
    var two := Step(Step(fence, Begin(0)), Begin(0));
    assert Run(fence, [Begin(0), Begin(0)], false) == Some(two);
    assert Run(fence, after[..3], false) == Some(Step(two, Finish(first, Some(idle))));
  }
}
