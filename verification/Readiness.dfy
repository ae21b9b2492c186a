/** The readiness of one live backend under any run of probes (src/routing.rs). */
module Readiness {
  import opened Wrappers
  import opened Routing

  /** A probe succeeds, or fails as not ready or not reachable. */
  datatype Probe = Passed | Missed(kind: Readiness)

  /** Thresholds are positive in every accepted configuration. */
  predicate Usable(settings: Settings) { settings.successThreshold > 0 && settings.failureThreshold > 0 }

  function Probed(l: Live, p: Probe, settings: Settings): Live {
    match p
    case Passed => ReadinessSucceeded(l, settings)
    case Missed(kind) => ReadinessFailed(l, kind, settings)
  }

  function Run(generation: nat, probes: seq<Probe>, settings: Settings): Live {
    if probes == [] then NewLive(generation)
    else Probed(Run(generation, probes[..|probes| - 1], settings), probes[|probes| - 1], settings)
  }

  /** The `n` probes up to the first `end` all passed; all missed. */
  predicate AllPassed(probes: seq<Probe>, n: nat, end: nat) {
    n <= end <= |probes| && forall i :: end - n <= i < end ==> probes[i].Passed?
  }

  predicate AllMissed(probes: seq<Probe>, n: nat, end: nat) {
    n <= end <= |probes| && forall i :: end - n <= i < end ==> probes[i].Missed?
  }

  /** The counters are the lengths of the run of like results at the end. */
  predicate Counted(l: Live, probes: seq<Probe>) {
    && l.readinessSuccesses <= |probes| && l.readinessFailures <= |probes|
    && AllPassed(probes, l.readinessSuccesses, |probes|) && AllMissed(probes, l.readinessFailures, |probes|)
    && (l.readinessSuccesses < |probes| ==> probes[|probes| - l.readinessSuccesses - 1].Missed?)
    && (l.readinessFailures < |probes| ==> probes[|probes| - l.readinessFailures - 1].Passed?)
  }

  lemma {:induction false} CountersCount(generation: nat, probes: seq<Probe>, settings: Settings)
    ensures Counted(Run(generation, probes, settings), probes)
    decreases |probes|
  {
    if probes != [] {
      var front := probes[..|probes| - 1];
      CountersCount(generation, front, settings);
      CountersStep(Run(generation, front, settings), front, probes[|probes| - 1], settings);
      assert probes == front + [probes[|probes| - 1]];
    }
  }

  lemma CountersStep(l: Live, front: seq<Probe>, p: Probe, settings: Settings)
    requires Counted(l, front)
    ensures Counted(Probed(l, p, settings), front + [p])
  {
    var probes := front + [p];
    assert probes[|front|] == p && forall i :: 0 <= i < |front| ==> probes[i] == front[i];
  }

  /** Enough results in a row, the last one included. */
  predicate Turns(probes: seq<Probe>, end: nat, settings: Settings)
    requires 0 < end <= |probes|
  {
    if probes[end - 1].Passed? then AllPassed(probes, settings.successThreshold, end) else AllMissed(probes, settings.failureThreshold, end)
  }

  function Verdict(p: Probe): Readiness { match p case Passed => Ready case Missed(kind) => kind }

  lemma TurnsCounted(l: Live, probes: seq<Probe>, settings: Settings)
    requires Counted(l, probes) && probes != [] && Usable(settings)
    ensures Turns(probes, |probes|, settings) <==>
              if probes[|probes| - 1].Passed? then l.readinessSuccesses >= settings.successThreshold
              else l.readinessFailures >= settings.failureThreshold
  {
    var n := |probes|;
    if probes[n - 1].Passed? && l.readinessSuccesses < settings.successThreshold <= n {
      assert probes[n - l.readinessSuccesses - 1].Missed?;
    }
    if probes[n - 1].Missed? && l.readinessFailures < settings.failureThreshold <= n {
      assert probes[n - l.readinessFailures - 1].Passed?;
    }
  }

  /** The state is the verdict of the last probe that completed enough like results in a row. */
  predicate LastTurn(probes: seq<Probe>, end: nat, settings: Settings) {
    && 0 < end <= |probes| && Turns(probes, end, settings)
    && forall later :: end < later <= |probes| ==> !Turns(probes, later, settings)
  }

  lemma TurnsEarlier(front: seq<Probe>, p: Probe, end: nat, settings: Settings)
    requires 0 < end <= |front|
    ensures Turns(front + [p], end, settings) <==> Turns(front, end, settings)
  {
    assert forall i :: 0 <= i < |front| ==> (front + [p])[i] == front[i];
  }

  /** A backend is in a state exactly if the last run of results that was long enough gave it
    * that state: ready after so many successes in a row, not ready or unreachable after so
    * many failures in a row, by the last of them; before any such run it is being checked. */
  lemma {:induction false} ReadinessExactly(generation: nat, probes: seq<Probe>, settings: Settings)
    requires Usable(settings)
    ensures var r := Run(generation, probes, settings).readiness;
            && (forall end :: LastTurn(probes, end, settings) ==> r == Verdict(probes[end - 1]))
            && ((forall end :: 0 < end <= |probes| ==> !Turns(probes, end, settings)) ==> r == Checking)
            && ((exists end :: 0 < end <= |probes| && Turns(probes, end, settings)) ==> exists end :: LastTurn(probes, end, settings))
    decreases |probes|
  {
    if probes != [] {
      var front, p, n := probes[..|probes| - 1], probes[|probes| - 1], |probes|;
      assert probes == front + [p];
      ReadinessExactly(generation, front, settings);
      CountersCount(generation, probes, settings);
      TurnsCounted(Run(generation, probes, settings), probes, settings);
      forall end | 0 < end <= |front| ensures Turns(probes, end, settings) <==> Turns(front, end, settings) {
        TurnsEarlier(front, p, end, settings);
      }
      if Turns(probes, n, settings) {
        assert LastTurn(probes, n, settings);
      } else {
        forall end ensures LastTurn(probes, end, settings) <==> LastTurn(front, end, settings) {
          LastTurnEarlier(front, p, end, settings);
        }
      }
    }
  }

  lemma LastTurnEarlier(front: seq<Probe>, p: Probe, end: nat, settings: Settings)
    requires !Turns(front + [p], |front| + 1, settings)
    ensures LastTurn(front + [p], end, settings) <==> LastTurn(front, end, settings)
  {
    forall e | 0 < e <= |front| ensures Turns(front + [p], e, settings) <==> Turns(front, e, settings) {
      TurnsEarlier(front, p, e, settings);
    }
  }
}
