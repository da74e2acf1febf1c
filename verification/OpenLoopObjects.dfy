/** The gauges and tallies as objects, the end of a batch lane, and the report of a wave. */
module OpenLoopObjects {
  import opened OpenLoop
  import opened OpenLoopRuns
  import opened OpenLoopCredits

  /** Of the counters that all lanes share, the one that the end of a lane moves. */
  class SharedGauges {
    var completed: nat

    constructor ()
      ensures completed == 0
    {
      completed := 0;
    }
  }

  class LaneTally {
    var admissions: nat
    var completions: nat
    var sids: nat
    var failures: multiset<string>

    function View(): Tally reads this { Tally(admissions, completions, sids, failures) }

    constructor ()
      ensures View() == EMPTY
    {
      admissions, completions, sids, failures := 0, 0, 0, multiset{};
    }

    method FailOne(code: string)
      modifies this
      ensures View() == Fail(old(View()), code)
    {
      failures := failures + multiset{code};
    }

    method AbsorbOne(outcome: Outcome)
      modifies this
      ensures View() == Absorb(old(View()), outcome)
      ensures (outcome.ready <==> outcome.error.None?) ==> Told(View()) == Told(old(View())) + 1
    {
      if outcome.admitted { admissions := admissions + 1; }
      if outcome.ready { completions := completions + 1; }
      if outcome.sid { sids := sids + 1; }
      if outcome.error.Some? { FailOne(outcome.error.value); }
    }

    /** Nothing is lost or counted twice by merging. */
    method Merge(other: Tally)
      modifies this
      ensures Told(View()) == Told(old(View())) + Told(other)
      ensures admissions == old(admissions) + other.admissions && completions == old(completions) + other.completions
      ensures sids == old(sids) + other.sids && failures == old(failures) + other.failures
    {
      admissions := admissions + other.admissions;
      completions := completions + other.completions;
      sids := sids + other.sids;
      failures := failures + other.failures;
    }
  }

  lemma OneMore(t: Tally, code: string, n: nat)
    ensures Fail(FailMany(t, code, n), code) == FailMany(t, code, n + 1)
  {
    assert multiset{}[code := n] + multiset{code} == multiset{}[code := n + 1];
    assert t.failures + multiset{}[code := n] + multiset{code} == t.failures + multiset{}[code := n + 1];
  }

  lemma NoMore(t: Tally, code: string)
    ensures FailMany(t, code, 0) == t
  {
    assert t.failures + multiset{}[code := 0] == t.failures;
  }

  /** The end of a batch lane: what the stream left unanswered fails with its code, surplus responses as invalid. */
  method SettleLane(g: SharedGauges, t: LaneTally, fired: nat, received: nat, code: string)
    modifies g, t
    ensures var unresolved := if fired <= received then 0 else fired - received;
            var surplus := if received <= fired then 0 else received - fired;
            && g.completed == old(g.completed) + unresolved
            && t.View() == FailMany(FailMany(old(t.View()), code, unresolved), "invalid_response", surplus)
  {
    var unresolved := if fired <= received then 0 else fired - received;
    NoMore(t.View(), code);
    for i := 0 to unresolved
      invariant g.completed == old(g.completed) + i
      invariant t.View() == FailMany(old(t.View()), code, i)
    {
      OneMore(old(t.View()), code, i);
      g.completed := g.completed + 1;
      t.FailOne(code);
    }
    ghost var middle := t.View();
    ghost var completed := g.completed;
    NoMore(middle, "invalid_response");
    if received > fired {
      for i := fired to received
        invariant g.completed == completed && t.View() == FailMany(middle, "invalid_response", i - fired)
      {
        OneMore(middle, "invalid_response", i - fired);
        t.FailOne("invalid_response");
      }
    }
  }

  datatype WaveOutcome = WaveOutcome(fired: int, admissions: nat, completions: nat,
    failures: multiset<string>, busy: nat, sids: nat)

  /** Merge the lanes and set the busy answers apart: every kind is the sum over the lanes, and nothing gets lost. */
  method Report(w: Wave) returns (outcome: WaveOutcome)
    ensures outcome.fired == w.gauges.offered
    ensures outcome.completions == CompletionsOf(w.lanes, |w.lanes|)
    ensures outcome.admissions == AdmissionsOf(w.lanes, |w.lanes|) && outcome.sids == SidsOf(w.lanes, |w.lanes|)
    ensures outcome.busy == FailuresOf(w.lanes, |w.lanes|)["busy"] && "busy" !in outcome.failures
    ensures forall code :: code != "busy" ==> outcome.failures[code] == FailuresOf(w.lanes, |w.lanes|)[code]
    ensures outcome.completions + |outcome.failures| + outcome.busy == ToldBy(w.lanes, |w.lanes|)
  {
    var merged := new LaneTally();
    for i := 0 to |w.lanes|
      invariant Told(merged.View()) == ToldBy(w.lanes, i)
      invariant merged.completions == CompletionsOf(w.lanes, i) && merged.admissions == AdmissionsOf(w.lanes, i)
      invariant merged.sids == SidsOf(w.lanes, i) && merged.failures == FailuresOf(w.lanes, i)
    {
      merged.Merge(w.lanes[i].tally);
    }
    var failures := merged.failures;
    var busy := failures["busy"];
    outcome := WaveOutcome(w.gauges.offered, merged.admissions, merged.completions, failures["busy" := 0], busy,
                           merged.sids);
  }

  /**
   What a finished wave reports adds up to what it fired if and only if no lane had a surplus, and its
   completions are the requests that became ready.
   */
  method ReportFinished(batch: bool, channels: nat, count: nat, script: seq<On>) returns (outcome: WaveOutcome)
    requires WaveDone(Run(batch, channels, count, script))
    ensures outcome.completions + |outcome.failures| + outcome.busy == outcome.fired
            <==> NoSurplus(Run(batch, channels, count, script))
    ensures outcome.completions == ReadyIn(batch, channels, count, script, channels)
  {
    outcome := Report(Run(batch, channels, count, script));
    ToldIsFiredIffNoSurplus(batch, channels, count, script);
    LanesStay(batch, channels, count, script);
    CompletionsAreReady(batch, channels, count, script, channels);
  }
}
