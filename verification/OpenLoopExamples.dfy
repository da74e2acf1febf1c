/** Two waves that do not add up: a surplus response, and a panic after admission. */
module OpenLoopExamples {
  import opened Basics
  import opened OpenLoop
  import opened OpenLoopRuns

  predicate At(batch: bool, count: nat, script: seq<On>, g: Gauges, l: Lane) {
    Run(batch, 1, count, script) == Wave(g, [l], Plan(batch, 1, count))
  }

  lemma Starts(batch: bool, count: nat)
    ensures At(batch, count, [], Gauges(0, 0, 0), NewLane(batch, 0))
  {
    assert Begin(batch, 1, count).lanes == [NewLane(batch, 0)];
  }

  /** One step of a wave with a single lane. */
  lemma Goes(batch: bool, count: nat, script: seq<On>, g: Gauges, l: Lane, a: Action)
    requires At(batch, count, script, g, l) && Enabled(l, Plan(batch, 1, count), a)
    ensures At(batch, count, script + [On(0, a)], GaugeStep(g, l, a), Step(l, Plan(batch, 1, count), a))
  {
    assert (script + [On(0, a)])[..|script|] == script;
    assert [l][0 := Step(l, Plan(batch, 1, count), a)] == [Step(l, Plan(batch, 1, count), a)];
  }

  // A batch lane with nothing to fire that still gets a response.

  const READY := Outcome(true, true, true, None)
  const ANSWERED := NewLane(true, 0).(received := 1, tasks := [Admitted], share := Gauges(0, 0, 1))
  const ENDED := ANSWERED.(stream := Ended("unresolved"))
  const RESOLVED := ENDED.(tasks := [Finished(READY)], share := Gauges(0, 1, 0))
  const SETTLED :=
    RESOLVED.(settled := true, tally := Tally(0, 0, 0, multiset{"invalid_response"}))
  const COLLECTED :=
    SETTLED.(tasks := [Absorbed(false, false)], tally := Tally(1, 1, 1, multiset{"invalid_response"}))

  const RESPONSE: seq<On> := [] + [On(0, Receive)] + [On(0, EndStream("unresolved"))] + [On(0, Ready(0))]
  const SURPLUS := RESPONSE + [On(0, Settle)] + [On(0, Collect(0))]

  lemma SurplusLanes()
    ensures var plan := Plan(true, 1, 0);
            && Step(NewLane(true, 0), plan, Receive) == ANSWERED
            && Step(ANSWERED, plan, EndStream("unresolved")) == ENDED
            && Step(ENDED, plan, Ready(0)) == RESOLVED
  {
    assert [Admitted][0 := Finished(READY)] == [Finished(READY)];
  }

  lemma SurplusEnds()
    ensures var plan := Plan(true, 1, 0);
            && Step(RESOLVED, plan, Settle) == SETTLED && Step(SETTLED, plan, Collect(0)) == COLLECTED
  {
    assert multiset{} + multiset{}["unresolved" := 0] + multiset{}["invalid_response" := 1]
           == multiset{"invalid_response"};
    assert [Finished(READY)][0 := Absorbed(false, false)] == [Absorbed(false, false)];
  }

  lemma ResponseRun()
    ensures At(true, 0, RESPONSE, Gauges(0, 1, 0), RESOLVED)
  {
    SurplusLanes();
    Starts(true, 0);
    Goes(true, 0, [], Gauges(0, 0, 0), NewLane(true, 0), Receive);
    var s1: seq<On> := [] + [On(0, Receive)];
    Goes(true, 0, s1, Gauges(0, 0, 1), ANSWERED, EndStream("unresolved"));
    Goes(true, 0, s1 + [On(0, EndStream("unresolved"))], Gauges(0, 0, 1), ENDED, Ready(0));
  }

  lemma SurplusRun()
    ensures At(true, 0, SURPLUS, Gauges(0, 1, 0), COLLECTED)
  {
    ResponseRun();
    SurplusEnds();
    Goes(true, 0, RESPONSE, Gauges(0, 1, 0), RESOLVED, Settle);
    Goes(true, 0, RESPONSE + [On(0, Settle)], Gauges(0, 1, 0), SETTLED, Collect(0));
  }

  /** A surplus response is told twice: nothing was offered, one request completed, and two were told. */
  lemma SurplusToldTwice()
    ensures var w := Run(true, 1, 0, SURPLUS);
            WaveDone(w) && !NoSurplus(w) && w.gauges == Gauges(0, 1, 0) && ToldBy(w.lanes, |w.lanes|) == 2
  {
    SurplusRun();
    var w := Run(true, 1, 0, SURPLUS);
    assert w.lanes[0] == COLLECTED && w.lanes[0].received > |w.lanes[0].fired|;
    assert ToldBy(w.lanes, 0) == 0 && ToldBy(w.lanes, 1) == 2;
  }

  // A unary request whose task panics after it was admitted.

  const FIRED := NewLane(false, 0).(next := 1, fired := [0], tasks := [Calling], share := Gauges(1, 0, 0))
  const ADMITTED := FIRED.(tasks := [Admitted], share := Gauges(1, 0, 1))
  const PANICKED := ADMITTED.(tasks := [Panicked(true)])
  const GIVEN_UP := PANICKED.(tasks := [Absorbed(true, true)], tally := Tally(0, 0, 0, multiset{"task_panicked"}))

  const PANIC: seq<On> := [] + [On(0, Fire)] + [On(0, Admit(0))] + [On(0, Action.Panic(0))] + [On(0, Collect(0))]

  lemma PanicLanes()
    ensures var plan := Plan(false, 1, 1);
            && Step(NewLane(false, 0), plan, Fire) == FIRED && Step(FIRED, plan, Admit(0)) == ADMITTED
            && Step(ADMITTED, plan, Action.Panic(0)) == PANICKED && Step(PANICKED, plan, Collect(0)) == GIVEN_UP
  {
    assert [] + [Calling] == [Calling] && [Calling][0 := Admitted] == [Admitted];
    assert [Admitted][0 := Panicked(true)] == [Panicked(true)];
    assert [Panicked(true)][0 := Absorbed(true, true)] == [Absorbed(true, true)];
  }

  /** It is told, but never completes and stays pending. */
  lemma PanicStaysPending()
    ensures var w := Run(false, 1, 1, PANIC);
            && WaveDone(w) && NoSurplus(w) && !NobodyDied(w)
            && w.gauges == Gauges(1, 0, 1) && ToldBy(w.lanes, |w.lanes|) == 1
  {
    PanicLanes();
    Starts(false, 1);
    Goes(false, 1, [], Gauges(0, 0, 0), NewLane(false, 0), Fire);
    var s1: seq<On> := [] + [On(0, Fire)];
    Goes(false, 1, s1, Gauges(1, 0, 0), FIRED, Admit(0));
    var s2 := s1 + [On(0, Admit(0))];
    Goes(false, 1, s2, Gauges(1, 0, 1), ADMITTED, Action.Panic(0));
    var s3 := s2 + [On(0, Action.Panic(0))];
    Goes(false, 1, s3, Gauges(1, 0, 1), PANICKED, Collect(0));
    assert At(false, 1, PANIC, Gauges(1, 0, 1), GIVEN_UP);
    assert Died([GIVEN_UP][0].tasks[0]);
    assert ToldBy([GIVEN_UP], 0) == 0 && ToldBy([GIVEN_UP], 1) == 1;
  }
}
