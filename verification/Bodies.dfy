/** The two wrappers around a response body: the one that observes it for the audit
  * record (src/logging.rs) and the one that holds the backend lease (src/proxy.rs).
  */
module Bodies {
  import opened Wrappers
  import opened Usage
  import Audit
  import Routing
  import Backend

  /** What polling the inner body gives: nothing yet, a frame (with data or trailers) after
    * which the body may already be at its end, an error, or the end. */
  datatype Poll =
    | Pending
    | Frame(data: Option<seq<Byte>>, last: bool)
    | Broken(error: string)
    | EndOfStream

  datatype Polled = Polled(poll: Poll, at: nat)

  predicate Ends(p: Poll) { p.EndOfStream? || p.Broken? || (p.Frame? && p.last) }

  /** The bytes of all frames. */
  function Data(polls: seq<Polled>): seq<Byte> {
    if polls == [] then []
    else
      var p := polls[|polls| - 1].poll;
      Data(polls[..|polls| - 1]) + (if p.Frame? && p.data.Some? then p.data.value else [])
  }

  function FirstDataAt(polls: seq<Polled>): Option<nat> {
    if polls == [] then None
    else
      var before := FirstDataAt(polls[..|polls| - 1]);
      var p := polls[|polls| - 1];
      if before.Some? then before else if p.poll.Frame? && p.poll.data.Some? then Some(p.at) else None
  }

  /** The polls up to the first that ends the body; all of them if none does. */
  function UntilEnd(polls: seq<Polled>): seq<Polled> {
    if polls == [] then []
    else
      var front := polls[..|polls| - 1];
      if Ended(front) then UntilEnd(front) else polls
  }

  predicate Ended(polls: seq<Polled>) {
    polls != [] && (Ended(polls[..|polls| - 1]) || Ends(polls[|polls| - 1].poll))
  }

  lemma {:induction false} UntilEndIsFirst(polls: seq<Polled>)
    ensures UntilEnd(polls) <= polls
    ensures Ended(polls) ==> UntilEnd(polls) != [] && Ends(UntilEnd(polls)[|UntilEnd(polls)| - 1].poll)
    ensures forall i :: 0 <= i < |UntilEnd(polls)| - 1 ==> !Ends(polls[i].poll)
    ensures !Ended(polls) ==> UntilEnd(polls) == polls && forall i :: 0 <= i < |polls| ==> !Ends(polls[i].poll)
    decreases |polls|
  {
    if polls != [] {
      UntilEndIsFirst(polls[..|polls| - 1]);
    }
  }

  // ---- Observation ----

  datatype Observation = Observation(firstByteAt: Option<nat>, responseBytes: nat, usage: Option<TokenCounts>)

  datatype Report = Report(at: nat, outcome: Audit.Outcome, observation: Observation)

  /** What was seen of the response: a function of its bytes, however they were framed. */
  function Observed(parse: Deserializer, polls: seq<Polled>): Observation {
    Observation(FirstDataAt(polls), |Data(polls)|, LastInformative(parse, Usage.Run(Fresh, Data(polls)).captured))
  }

  function OutcomeOf(p: Poll): Audit.Outcome {
    if p.Broken? then Audit.BodyError(p.error) else Audit.Complete
  }

  /** The one report of a body which ended while polled, or was over from the start. */
  function EndReport(parse: Deserializer, startedAt: nat, over: bool, polls: seq<Polled>): Report
    requires over || Ended(polls)
  {
    if over then Report(startedAt, Audit.Complete, Observed(parse, []))
    else
      UntilEndIsFirst(polls);
      var seen := UntilEnd(polls);
      Report(seen[|seen| - 1].at, OutcomeOf(seen[|seen| - 1].poll), Observed(parse, seen))
  }

  lemma PollData(before: seq<Polled>, p: Polled)
    ensures Data(before + [p]) == Data(before) + (if p.poll.Frame? && p.poll.data.Some? then p.poll.data.value else [])
    ensures FirstDataAt(before + [p])
         == if FirstDataAt(before).Some? then FirstDataAt(before)
            else if p.poll.Frame? && p.poll.data.Some? then Some(p.at) else None
    ensures Ended(before + [p]) <==> Ended(before) || Ends(p.poll)
  {
    assert (before + [p])[..|before|] == before;
  }

  /** Only the first poll which ends the body decides the report. */
  lemma PollReport(parse: Deserializer, startedAt: nat, over: bool, before: seq<Polled>, p: Polled)
    requires over || Ended(before + [p])
    ensures EndReport(parse, startedAt, over, before + [p])
         == if over || Ended(before) then EndReport(parse, startedAt, over, before)
            else Report(p.at, OutcomeOf(p.poll), Observed(parse, before + [p]))
  {
    PollData(before, p);
    assert (before + [p])[..|before|] == before;
  }

  // ---- What a report says, in terms of the polls ----

  /** The poll with this number is the first that ends the body: it gave the end of the
    * stream, an error, or the last frame. */
  predicate FirstEnd(polls: seq<Polled>, k: nat) {
    && k < |polls| && IsEnd(polls[k].poll)
    && forall i :: 0 <= i < k ==> !IsEnd(polls[i].poll)
  }

  predicate IsEnd(p: Poll) {
    match p
    case Pending => false
    case Frame(_, last) => last
    case Broken(_) => true
    case EndOfStream => true
  }

  predicate HasData(p: Polled) { p.poll.Frame? && p.poll.data.Some? }

  /** The time of the first frame with data. */
  predicate FirstDataIs(polls: seq<Polled>, at: Option<nat>) {
    match at
    case None => forall i :: 0 <= i < |polls| ==> !HasData(polls[i])
    case Some(t) =>
      exists i :: 0 <= i < |polls| && HasData(polls[i]) && polls[i].at == t && forall j :: 0 <= j < i ==> !HasData(polls[j])
  }

  lemma {:induction false} FirstDataMeans(polls: seq<Polled>)
    ensures FirstDataIs(polls, FirstDataAt(polls))
    decreases |polls|
  {
    if polls != [] {
      var front := polls[..|polls| - 1];
      FirstDataMeans(front);
      if FirstDataAt(front).Some? {
        var i :| 0 <= i < |front| && HasData(front[i]) && front[i].at == FirstDataAt(front).value && forall j :: 0 <= j < i ==> !HasData(front[j]);
        assert HasData(polls[i]);
      } else if HasData(polls[|polls| - 1]) {
        assert FirstDataAt(polls) == Some(polls[|polls| - 1].at);
      }
    }
  }

  lemma {:induction false} UntilEndStops(polls: seq<Polled>, k: nat)
    requires FirstEnd(polls, k)
    ensures Ended(polls) && UntilEnd(polls) == polls[..k + 1]
    decreases |polls|
  {
    UntilEndIsFirst(polls[..|polls| - 1]);
    if k < |polls| - 1 {
      UntilEndStops(polls[..|polls| - 1], k);
    }
  }

  lemma EndedHasFirst(polls: seq<Polled>) returns (k: nat)
    requires Ended(polls)
    ensures FirstEnd(polls, k)
  {
    UntilEndIsFirst(polls);
    k := |UntilEnd(polls)| - 1;
  }

  /** What was seen of `seen`: its size, the time of its first data, and the counts of the
    * last `usage` object with any. */
  predicate SeenIs(parse: Deserializer, seen: seq<Polled>, o: Observation) {
    && o.responseBytes == |Data(seen)| && FirstDataIs(seen, o.firstByteAt)
    && LatestCounts(parse, Usage.Run(Fresh, Data(seen)).captured, o.usage)
  }

  /** The one report of a body dropped at `now`: complete or broken as the first poll that
    * ended it says, and then; aborted if none did. */
  ghost predicate ReportIs(parse: Deserializer, startedAt: nat, over: bool, polls: seq<Polled>, now: nat, r: Report) {
    && (over ==> r.at == startedAt && r.outcome == Audit.Complete && SeenIs(parse, [], r.observation))
    && (forall k: nat :: !over && FirstEnd(polls, k) ==>
          && r.at == polls[k].at && SeenIs(parse, polls[..k + 1], r.observation)
          && r.outcome == match polls[k].poll { case Broken(error) => Audit.BodyError(error) case _ => Audit.Complete })
    && (!over && (forall k :: 0 <= k < |polls| ==> !IsEnd(polls[k].poll)) ==>
          r.at == now && r.outcome == Audit.Aborted && SeenIs(parse, polls, r.observation))
  }

  lemma ObservedMeans(parse: Deserializer, seen: seq<Polled>)
    ensures SeenIs(parse, seen, Observed(parse, seen))
  {
    FirstDataMeans(seen);
    LatestMeans(parse, Usage.Run(Fresh, Data(seen)).captured);
  }

  lemma ReportMeans(parse: Deserializer, startedAt: nat, over: bool, polls: seq<Polled>, now: nat)
    ensures ReportIs(parse, startedAt, over, polls, now,
                     if over || Ended(polls) then EndReport(parse, startedAt, over, polls)
                     else Report(now, Audit.Aborted, Observed(parse, polls)))
  {
    ObservedMeans(parse, []);
    ObservedMeans(parse, polls);
    UntilEndIsFirst(polls);
    forall k: nat | FirstEnd(polls, k) ensures Ended(polls) && UntilEnd(polls) == polls[..k + 1] {
      UntilEndStops(polls, k);
    }
    ObservedMeans(parse, UntilEnd(polls));
    if Ended(polls) {
      var k := EndedHasFirst(polls);
    }
  }

  class ObservedBody {
    var finished: bool
    var firstByteAt: Option<nat>
    var responseBytes: nat
    const sniffer: UsageSniffer
    var reports: seq<Report>
    ghost var polls: seq<Polled>
    ghost const over: bool
    ghost const startedAt: nat

    ghost predicate Valid()
      reads this, sniffer
    {
      && sniffer.Valid() && sniffer.View() == Usage.Run(Fresh, Data(polls))
      && firstByteAt == FirstDataAt(polls) && responseBytes == |Data(polls)|
      && (finished <==> over || Ended(polls))
      && reports == if finished then [EndReport(sniffer.parse, startedAt, over, polls)] else []
    }

    constructor (parse: Deserializer, over: bool, now: nat)
      ensures Valid() && fresh(sniffer) && sniffer.parse == parse && this.over == over && startedAt == now && polls == []
    {
      sniffer := new UsageSniffer(parse);
      finished, firstByteAt, responseBytes, reports := over, None, 0, [];
      this.over, startedAt, polls := over, now, [];
      new;
      if over {
        reports := [Report(now, Audit.Complete, Observation(None, 0, sniffer.latest))];
      }
    }

    method Conclude(outcome: Audit.Outcome, now: nat)
      modifies this`finished, this`reports
      ensures finished
      ensures reports == if old(finished) then old(reports)
                         else old(reports) + [Report(now, outcome, Observation(firstByteAt, responseBytes, sniffer.latest))]
    {
      if finished {
        return;
      }
      finished := true;
      reports := reports + [Report(now, outcome, Observation(firstByteAt, responseBytes, sniffer.latest))];
    }

    method PollFrame(poll: Poll, now: nat)
      requires Valid()
      modifies this, sniffer
      ensures Valid() && polls == old(polls) + [Polled(poll, now)]
    {
      ghost var before := polls;
      PollData(before, Polled(poll, now));
      if poll.Frame? && poll.data.Some? {
        CountData(poll.data.value, now);
      }
      assert Data(before) + [] == Data(before);
      polls := polls + [Polled(poll, now)];
      if over || Ended(polls) {
        PollReport(sniffer.parse, startedAt, over, before, Polled(poll, now));
      }
      match poll {
        case Pending =>
        case Frame(_, last) =>
          if last {
            Conclude(Audit.Complete, now);
          }
        case Broken(error) => Conclude(Audit.BodyError(error), now);
        case EndOfStream => Conclude(Audit.Complete, now);
      }
    }

    method CountData(data: seq<Byte>, now: nat)
      requires sniffer.Valid() && sniffer.View() == Usage.Run(Fresh, Data(polls))
      modifies this`firstByteAt, this`responseBytes, sniffer
      ensures sniffer.Valid() && sniffer.View() == Usage.Run(Fresh, Data(polls) + data)
      ensures firstByteAt == if old(firstByteAt).Some? then old(firstByteAt) else Some(now)
      ensures responseBytes == old(responseBytes) + |data|
    {
      if firstByteAt.None? {
        firstByteAt := Some(now);
      }
      responseBytes := responseBytes + |data|;
      RunConcat(Fresh, Data(polls), data);
      sniffer.Feed(data);
    }

    /** Dropping the body reports it aborted unless it has been reported: over its life a
      * body reports exactly once, and what it reports is what its polls showed up to
      * the first that ended it. */
    method Drop(now: nat)
      requires Valid()
      modifies this`finished, this`reports
      ensures reports == [if over || Ended(polls) then EndReport(sniffer.parse, startedAt, over, polls)
                          else Report(now, Audit.Aborted, Observed(sniffer.parse, polls))]
      ensures |reports| == 1 && ReportIs(sniffer.parse, startedAt, over, polls, now, reports[0])
    {
      ReportMeans(sniffer.parse, startedAt, over, polls, now);
      Conclude(Audit.Aborted, now);
    }
  }

  // ---- The lease ----

  /** What a backend hears of a response, in order. */
  datatype Effect = BodyFailure(observer: Routing.Observer) | Released(key: Backend.LeaseKey)

  datatype Guard = Guard(key: Backend.LeaseKey, observer: Option<Routing.Observer>)

  /** What polling a body has done to its guard. */
  function GuardEffects(guard: Guard, over: bool, polls: seq<Polled>): seq<Effect> {
    if over then [Released(guard.key)]
    else if !Ended(polls) then []
    else
      UntilEndIsFirst(polls);
      var end := UntilEnd(polls)[|UntilEnd(polls)| - 1].poll;
      (if end.Broken? && guard.observer.Some? then [BodyFailure(guard.observer.value)] else []) + [Released(guard.key)]
  }

  /** What a backend hears of a body over its life: the release, after the failure if the first
    * poll that ended the body was an error which an observer can hear. */
  predicate Hears(guard: Guard, over: bool, polls: seq<Polled>, effects: seq<Effect>) {
    if !over && guard.observer.Some? && exists k :: 0 <= k < |polls| && FirstEnd(polls, k) && polls[k].poll.Broken?
    then effects == [BodyFailure(guard.observer.value), Released(guard.key)]
    else effects == [Released(guard.key)]
  }

  lemma EffectsMean(guard: Guard, over: bool, polls: seq<Polled>)
    ensures Hears(guard, over, polls, if over || Ended(polls) then GuardEffects(guard, over, polls) else [Released(guard.key)])
  {
    if Ended(polls) {
      var k := EndedHasFirst(polls);
      UntilEndStops(polls, k);
      OneFirstEnd(polls, k);
    } else {
      NoFirstEnd(polls);
    }
  }

  lemma OneFirstEnd(polls: seq<Polled>, k: nat)
    requires FirstEnd(polls, k)
    ensures forall j :: 0 <= j < |polls| && FirstEnd(polls, j) ==> j == k
  {
  }

  lemma NoFirstEnd(polls: seq<Polled>)
    requires !Ended(polls)
    ensures forall j :: 0 <= j < |polls| ==> !FirstEnd(polls, j)
  {
    UntilEndIsFirst(polls);
  }

  class LeasedBody {
    var guard: Option<Guard>
    var effects: seq<Effect>
    ghost var polls: seq<Polled>
    ghost const over: bool
    ghost const initial: Guard

    ghost predicate Valid()
      reads this
    {
      && guard == (if over || Ended(polls) then None else Some(initial))
      && effects == GuardEffects(initial, over, polls)
    }

    constructor (guard: Guard, over: bool)
      ensures Valid() && initial == guard && this.over == over && polls == []
    {
      initial, this.over, polls := guard, over, [];
      this.guard := if over then None else Some(guard);
      effects := if over then [Released(guard.key)] else [];
    }

    method Release()
      modifies this`guard, this`effects
      ensures guard.None? && effects == old(effects) + (if old(guard).Some? then [Released(old(guard).value.key)] else [])
    {
      if guard.Some? {
        effects := effects + [Released(guard.value.key)];
        guard := None;
      }
    }

    method PollFrame(poll: Poll, now: nat)
      requires Valid()
      modifies this
      ensures Valid() && polls == old(polls) + [Polled(poll, now)]
    {
      ghost var before := polls;
      polls := polls + [Polled(poll, now)];
      assert polls[..|polls| - 1] == before;
      match poll {
        case Pending =>
        case Broken(error) =>
          if guard.Some? && guard.value.observer.Some? {
            effects := effects + [BodyFailure(guard.value.observer.value)];
          }
          Release();
        case EndOfStream => Release();
        case Frame(_, last) =>
          if last {
            Release();
          }
      }
    }

    /** Over its life a body releases its lease exactly once, and it reports a failure,
      * before that, exactly if the poll that ended it was an error and there is an
      * observer to hear it. */
    method Drop()
      requires Valid()
      modifies this`guard, this`effects
      ensures guard.None?
      ensures effects == if over || Ended(polls) then GuardEffects(initial, over, polls) else [Released(initial.key)]
      ensures Hears(initial, over, polls, effects)
    {
      EffectsMean(initial, over, polls);
      Release();
    }
  }
}
