/** Conservation over every wave: what was fired, what was told, and what the gauges end at. */
module OpenLoopRuns {
  import opened OpenLoop

  // ---- What a lane amounts to, task by task ----

  /** What a task has added to the gauges, and whether the tally has it. */
  datatype Counts = Counts(completed: int, pending: int, told: int)

  function Plus(a: Counts, b: Counts): Counts {
    Counts(a.completed + b.completed, a.pending + b.pending, a.told + b.told)
  }

  function Weigh(task: Task): Counts {
    match task
    case Calling => Counts(0, 0, 0)
    case Admitted => Counts(0, 1, 0)
    case Finished(_) => Counts(1, 0, 0)
    case Panicked(pending) => Counts(0, One(pending), 0)
    case Absorbed(panicked, pending) => Counts(One(!panicked), One(pending), 1)
  }

  function Sum(tasks: seq<Task>, n: nat): Counts
    requires n <= |tasks|
  {
    if n == 0 then Counts(0, 0, 0) else Plus(Sum(tasks, n - 1), Weigh(tasks[n - 1]))
  }

  function Total(l: Lane): Counts { Sum(l.tasks, |l.tasks|) }

  lemma {:induction false} SumPrefix(tasks: seq<Task>, more: seq<Task>, n: nat)
    requires n <= |tasks| <= |more| && forall i :: 0 <= i < n ==> tasks[i] == more[i]
    ensures Sum(tasks, n) == Sum(more, n)
  {
    if n > 0 { SumPrefix(tasks, more, n - 1); }
  }

  lemma SumSnoc(tasks: seq<Task>, task: Task)
    ensures var more := tasks + [task];
            Sum(more, |more|) == Plus(Sum(tasks, |tasks|), Weigh(task))
  {
    var more := tasks + [task];
    SumPrefix(tasks, more, |tasks|);
    SumLast(more, |more|);
  }

  lemma SumLast(tasks: seq<Task>, n: nat)
    requires 0 < n <= |tasks|
    ensures Sum(tasks, n) == Plus(Sum(tasks, n - 1), Weigh(tasks[n - 1]))
  {
  }

  lemma {:induction false} SumUpdate(tasks: seq<Task>, t: nat, task: Task, n: nat)
    requires t < |tasks| && n <= |tasks|
    ensures t >= n ==> Sum(tasks[t := task], n) == Sum(tasks, n)
    ensures t < n ==> Plus(Sum(tasks[t := task], n), Weigh(tasks[t])) == Plus(Sum(tasks, n), Weigh(task))
  {
    if n > 0 { SumUpdate(tasks, t, task, n - 1); }
  }

  // ---- What holds in a lane ----

  predicate TaskSound(batch: bool, task: Task) {
    && (task.Absorbed? && task.pending ==> task.panicked)
    && (task.Finished? ==> (task.outcome.ready <==> task.outcome.error.None?))
    && (batch ==> !task.Calling? && (task.Panicked? ==> task.pending)
                  && (task.Absorbed? ==> !task.panicked && !task.pending))
  }

  predicate TasksSound(l: Lane) {
    forall t :: 0 <= t < |l.tasks| ==> TaskSound(l.batch, l.tasks[t])
  }

  /** Responses of a batch lane that were told at once. */
  function Direct(l: Lane): int { if l.batch then l.received - |l.tasks| else 0 }

  predicate ShapeSound(l: Lane, plan: Plan) {
    && l.batch == plan.batch && TasksSound(l)
    && (!l.batch ==> |l.tasks| == |l.fired| && l.received == 0 && !l.settled && !l.broken)
    && (l.batch ==> |l.tasks| <= l.received)
    && (l.settled ==> l.stream.Ended? && !Feeding(l, plan))
  }

  predicate Balanced(l: Lane) {
    && l.share.offered == |l.fired|
    && l.share.pending == Total(l).pending
    && l.share.completed == Total(l).completed + Direct(l) + (if l.settled then Unresolved(l) else 0)
    && Told(l.tally) == Total(l).told + Direct(l) + (if l.settled then Unresolved(l) + Excess(l) else 0)
  }

  predicate LaneSound(l: Lane, plan: Plan) { ShapeSound(l, plan) && Balanced(l) }

  lemma FireKeeps(l: Lane, plan: Plan)
    requires LaneSound(l, plan) && Enabled(l, plan, Fire)
    ensures LaneSound(Step(l, plan, Fire), plan)
  {
    if !l.batch { SumSnoc(l.tasks, Calling); }
  }

  /** A step that only changes one task, and the gauges with it. */
  lemma TaskKeeps(l: Lane, plan: Plan, t: nat, task: Task, share: Gauges)
    requires LaneSound(l, plan) && t < |l.tasks| && TaskSound(l.batch, task)
    requires !l.tasks[t].Absorbed? && !task.Absorbed? && share.offered == l.share.offered
    requires share.completed - l.share.completed == Weigh(task).completed - Weigh(l.tasks[t]).completed
    requires share.pending - l.share.pending == Weigh(task).pending - Weigh(l.tasks[t]).pending
    ensures LaneSound(SetTask(l, t, task).(share := share), plan)
  {
    SumUpdate(l.tasks, t, task, |l.tasks|);
  }

  lemma WorkKeeps(l: Lane, plan: Plan, a: Action)
    requires LaneSound(l, plan) && Enabled(l, plan, a)
    requires a.Reject? || a.Admit? || a.Ready? || a.Lose? || a.Panic?
    ensures LaneSound(Step(l, plan, a), plan)
  {
    assert TaskSound(l.batch, l.tasks[a.task]);
    TaskKeeps(l, plan, a.task, LaneStep(l, plan, a).tasks[a.task], GaugeStep(l.share, l, a));
  }

  lemma ReceiveKeeps(l: Lane, plan: Plan, a: Action)
    requires LaneSound(l, plan) && Enabled(l, plan, a) && (a.Receive? || a.ReceiveError?)
    ensures LaneSound(Step(l, plan, a), plan)
  {
    if a.Receive? { SumSnoc(l.tasks, Admitted); }
  }

  lemma SettleKeeps(l: Lane, plan: Plan)
    requires LaneSound(l, plan) && Enabled(l, plan, Settle)
    ensures LaneSound(Step(l, plan, Settle), plan)
  {
    var n, m := Unresolved(l), Excess(l);
    assert |multiset{}[l.stream.code := n]| == n && |multiset{}["invalid_response" := m]| == m;
  }

  lemma ToldOnce(tally: Tally, o: Outcome)
    requires o.ready <==> o.error.None?
    ensures Told(Absorb(tally, o)) == Told(tally) + 1
  {
  }

  /** A step that moves one task to the tally. */
  lemma CollectedKeeps(l: Lane, plan: Plan, t: nat, task: Task, tally: Tally, share: Gauges)
    requires LaneSound(l, plan) && t < |l.tasks| && TaskSound(l.batch, task)
    requires !l.tasks[t].Absorbed? && task.Absorbed? && share.offered == l.share.offered
    requires share.completed - l.share.completed == Weigh(task).completed - Weigh(l.tasks[t]).completed
    requires share.pending - l.share.pending == Weigh(task).pending - Weigh(l.tasks[t]).pending
    requires Told(tally) == Told(l.tally) + 1
    ensures LaneSound(SetTask(l, t, task).(tally := tally, share := share), plan)
  {
    SumUpdate(l.tasks, t, task, |l.tasks|);
  }

  lemma CollectKeeps(l: Lane, plan: Plan, t: nat)
    requires LaneSound(l, plan) && Enabled(l, plan, Collect(t))
    ensures LaneSound(Step(l, plan, Collect(t)), plan)
  {
    assert TaskSound(l.batch, l.tasks[t]);
    var next := LaneStep(l, plan, Collect(t));
    if l.tasks[t].Finished? { ToldOnce(l.tally, l.tasks[t].outcome); }
    CollectedKeeps(l, plan, t, next.tasks[t], next.tally, GaugeStep(l.share, l, Collect(t)));
  }

  lemma LaneKeeps(l: Lane, plan: Plan, a: Action)
    requires LaneSound(l, plan) && Enabled(l, plan, a)
    ensures LaneSound(Step(l, plan, a), plan)
  {
    match a
    case Fire => FireKeeps(l, plan);
    case Break | EndStream(_) =>
    case Reject(_, _) | Admit(_) | Ready(_) | Lose(_, _, _) | Panic(_) => WorkKeeps(l, plan, a);
    case Receive | ReceiveError(_) => ReceiveKeeps(l, plan, a);
    case Settle => SettleKeeps(l, plan);
    case Collect(t) => CollectKeeps(l, plan, t);
  }

  // ---- A lane that is done ----

  /** Collected without having completed. */
  predicate Died(task: Task) { task.Absorbed? && task.panicked }

  /** Tasks of a unary lane that panicked, and those of them that had been admitted. */
  function Lost(tasks: seq<Task>, n: nat): (int, int)
    requires n <= |tasks|
  {
    if n == 0 then (0, 0)
    else
      var (lost, pending) := Lost(tasks, n - 1);
      match tasks[n - 1]
      case Absorbed(p, q) => (lost + One(p), pending + One(q))
      case _ => (lost, pending)
  }

  lemma {:induction false} LostIsDead(tasks: seq<Task>, n: nat)
    requires n <= |tasks|
    ensures Lost(tasks, n).0 >= 0 && (Lost(tasks, n).0 == 0 <==> forall t :: 0 <= t < n ==> !Died(tasks[t]))
  {
    if n > 0 { LostIsDead(tasks, n - 1); }
  }

  lemma {:induction false} AllAbsorbed(tasks: seq<Task>, n: nat)
    requires n <= |tasks| && forall t :: 0 <= t < |tasks| ==> tasks[t].Absorbed?
    ensures Sum(tasks, n) == Counts(n - Lost(tasks, n).0, Lost(tasks, n).1, n)
  {
    if n > 0 { AllAbsorbed(tasks, n - 1); }
  }

  lemma {:induction false} BatchLosesNothing(tasks: seq<Task>, n: nat)
    requires n <= |tasks| && forall t :: 0 <= t < |tasks| ==> TaskSound(true, tasks[t])
    ensures Lost(tasks, n) == (0, 0)
  {
    if n > 0 { BatchLosesNothing(tasks, n - 1); }
  }

  function LostIn(l: Lane): (int, int) { Lost(l.tasks, |l.tasks|) }

  /** A finished lane has told every request once, and each surplus response twice. */
  lemma DoneLane(l: Lane, plan: Plan)
    requires LaneSound(l, plan) && LaneDone(l, plan)
    ensures l.share.offered == |l.fired|
    ensures Told(l.tally) == |l.fired| + 2 * Excess(l)
    ensures l.share.completed == |l.fired| + Excess(l) - LostIn(l).0
    ensures l.share.pending == LostIn(l).1
  {
    AllAbsorbed(l.tasks, |l.tasks|);
    if l.batch { BatchLosesNothing(l.tasks, |l.tasks|); }
  }

  // ---- The wave ----

  datatype Wave = Wave(gauges: Gauges, lanes: seq<Lane>, plan: Plan)

  function Begin(batch: bool, channels: nat, count: nat): Wave {
    Wave(Gauges(0, 0, 0), seq(channels, i requires 0 <= i => NewLane(batch, i)),
      Plan(batch, if channels == 0 then 1 else channels, count))
  }

  datatype On = On(lane: nat, action: Action)

  predicate CanStep(w: Wave, on: On) { on.lane < |w.lanes| && Enabled(w.lanes[on.lane], w.plan, on.action) }

  /** A step of one lane; the gauges are shared. */
  function WaveStep(w: Wave, on: On): Wave
    requires CanStep(w, on)
  {
    var l := w.lanes[on.lane];
    w.(gauges := GaugeStep(w.gauges, l, on.action), lanes := w.lanes[on.lane := Step(l, w.plan, on.action)])
  }

  function Run(batch: bool, channels: nat, count: nat, script: seq<On>): Wave {
    if script == [] then Begin(batch, channels, count)
    else
      var w := Run(batch, channels, count, script[..|script| - 1]);
      var on := script[|script| - 1];
      if CanStep(w, on) then WaveStep(w, on) else w
  }

  function Add(a: Gauges, b: Gauges): Gauges {
    Gauges(a.offered + b.offered, a.completed + b.completed, a.pending + b.pending)
  }

  function Shares(lanes: seq<Lane>, n: nat): Gauges
    requires n <= |lanes|
  {
    if n == 0 then Gauges(0, 0, 0) else Add(Shares(lanes, n - 1), lanes[n - 1].share)
  }

  lemma GaugesAdd(g: Gauges, h: Gauges, l: Lane, a: Action)
    ensures GaugeStep(Add(g, h), l, a) == Add(GaugeStep(g, l, a), h)
  {
  }

  lemma {:induction false} SharesUpdate(lanes: seq<Lane>, i: nat, l: Lane, n: nat, on: Lane, a: Action)
    requires i < |lanes| && n <= |lanes| && l.share == GaugeStep(lanes[i].share, on, a)
    ensures Shares(lanes[i := l], n) == if i < n then GaugeStep(Shares(lanes, n), on, a) else Shares(lanes, n)
  {
    if n > 0 {
      SharesUpdate(lanes, i, l, n - 1, on, a);
      GaugesAdd(Shares(lanes, n - 1), lanes[n - 1].share, on, a);
      GaugesAdd(lanes[n - 1].share, Shares(lanes, n - 1), on, a);
    }
  }

  ghost predicate WaveSound(w: Wave) {
    && w.gauges == Shares(w.lanes, |w.lanes|)
    && forall i :: 0 <= i < |w.lanes| ==> LaneSound(w.lanes[i], w.plan)
  }

  lemma WaveKeeps(w: Wave, on: On)
    requires WaveSound(w) && CanStep(w, on)
    ensures WaveSound(WaveStep(w, on))
  {
    var l := w.lanes[on.lane];
    LaneKeeps(l, w.plan, on.action);
    SharesUpdate(w.lanes, on.lane, Step(l, w.plan, on.action), |w.lanes|, l, on.action);
  }

  lemma {:induction false} NothingYet(batch: bool, channels: nat, count: nat, n: nat)
    requires n <= channels
    ensures Shares(Begin(batch, channels, count).lanes, n) == Gauges(0, 0, 0)
  {
    if n > 0 { NothingYet(batch, channels, count, n - 1); }
  }

  lemma {:induction false} RunIsSound(batch: bool, channels: nat, count: nat, script: seq<On>)
    ensures WaveSound(Run(batch, channels, count, script))
  {
    if script == [] {
      NothingYet(batch, channels, count, channels);
    } else {
      var n := |script| - 1;
      RunIsSound(batch, channels, count, script[..n]);
      var w := Run(batch, channels, count, script[..n]);
      if CanStep(w, script[n]) { WaveKeeps(w, script[n]); }
    }
  }

  // ---- Conservation ----

  predicate WaveDone(w: Wave) { forall i :: 0 <= i < |w.lanes| ==> LaneDone(w.lanes[i], w.plan) }

  function ToldBy(lanes: seq<Lane>, n: nat): int
    requires n <= |lanes|
  {
    if n == 0 then 0 else ToldBy(lanes, n - 1) + Told(lanes[n - 1].tally)
  }

  function ExcessOf(lanes: seq<Lane>, n: nat): (x: nat)
    requires n <= |lanes|
    ensures x == 0 <==> forall i :: 0 <= i < n ==> lanes[i].received <= |lanes[i].fired|
  {
    if n == 0 then 0 else ExcessOf(lanes, n - 1) + Excess(lanes[n - 1])
  }

  function LostOf(lanes: seq<Lane>, n: nat): (int, int)
    requires n <= |lanes|
  {
    if n == 0 then (0, 0)
    else (LostOf(lanes, n - 1).0 + LostIn(lanes[n - 1]).0, LostOf(lanes, n - 1).1 + LostIn(lanes[n - 1]).1)
  }

  lemma {:induction false} LanesAddUp(w: Wave, n: nat)
    requires WaveSound(w) && WaveDone(w) && n <= |w.lanes|
    ensures ToldBy(w.lanes, n) == Shares(w.lanes, n).offered + 2 * ExcessOf(w.lanes, n)
    ensures Shares(w.lanes, n).completed == Shares(w.lanes, n).offered + ExcessOf(w.lanes, n) - LostOf(w.lanes, n).0
    ensures Shares(w.lanes, n).pending == LostOf(w.lanes, n).1
  {
    if n > 0 {
      LanesAddUp(w, n - 1);
      DoneLane(w.lanes[n - 1], w.plan);
    }
  }

  predicate NoSurplus(w: Wave) {
    forall i :: 0 <= i < |w.lanes| ==> w.lanes[i].received <= |w.lanes[i].fired|
  }

  /**
   At the end of every wave, ready completions and failures together equal the requests fired if
   and only if no batch lane got more responses than it sent requests; panics do not matter.
   */
  lemma ToldIsFiredIffNoSurplus(batch: bool, channels: nat, count: nat, script: seq<On>)
    requires WaveDone(Run(batch, channels, count, script))
    ensures var w := Run(batch, channels, count, script);
            ToldBy(w.lanes, |w.lanes|) == w.gauges.offered <==> NoSurplus(w)
  {
    var w := Run(batch, channels, count, script);
    RunIsSound(batch, channels, count, script);
    LanesAddUp(w, |w.lanes|);
  }

  predicate NobodyDied(w: Wave) {
    forall i, t :: 0 <= i < |w.lanes| && 0 <= t < |w.lanes[i].tasks| ==> !Died(w.lanes[i].tasks[t])
  }

  lemma {:induction false} PendingDied(tasks: seq<Task>, n: nat, batch: bool)
    requires n <= |tasks| && (forall t :: 0 <= t < |tasks| ==> TaskSound(batch, tasks[t])) && Lost(tasks, n).0 == 0
    ensures Lost(tasks, n).1 == 0
  {
    if n > 0 {
      LostIsDead(tasks, n - 1);
      PendingDied(tasks, n - 1, batch);
    }
  }

  lemma {:induction false} LostAddsUp(w: Wave, n: nat)
    requires WaveSound(w) && n <= |w.lanes|
    ensures LostOf(w.lanes, n).0 >= 0
    ensures LostOf(w.lanes, n).0 == 0 <==> forall i :: 0 <= i < n ==> LostIn(w.lanes[i]).0 == 0
    ensures LostOf(w.lanes, n).0 == 0 ==> LostOf(w.lanes, n).1 == 0
    ensures w.plan.batch ==> LostOf(w.lanes, n).0 == 0
    ensures !w.plan.batch ==> ExcessOf(w.lanes, n) == 0
  {
    if n > 0 {
      LostAddsUp(w, n - 1);
      var l := w.lanes[n - 1];
      LostIsDead(l.tasks, |l.tasks|);
      if l.batch { BatchLosesNothing(l.tasks, |l.tasks|); }
      if LostIn(l).0 == 0 { PendingDied(l.tasks, |l.tasks|, l.batch); }
    }
  }

  lemma LostIffDied(w: Wave)
    requires WaveSound(w)
    ensures LostOf(w.lanes, |w.lanes|).0 == 0 <==> NobodyDied(w)
  {
    LostAddsUp(w, |w.lanes|);
    forall i | 0 <= i < |w.lanes|
      ensures LostIn(w.lanes[i]).0 == 0 <==> forall t :: 0 <= t < |w.lanes[i].tasks| ==> !Died(w.lanes[i].tasks[t])
    {
      LostIsDead(w.lanes[i].tasks, |w.lanes[i].tasks|);
    }
  }

  /**
   All that was offered is completed if and only if there is no surplus and no task of a unary
   lane panicked, and then none is left pending.
   */
  lemma CompletedIsOfferedIffClean(batch: bool, channels: nat, count: nat, script: seq<On>)
    requires WaveDone(Run(batch, channels, count, script))
    ensures var w := Run(batch, channels, count, script);
            && (w.gauges.completed == w.gauges.offered <==> NoSurplus(w) && NobodyDied(w))
            && (NobodyDied(w) ==> w.gauges.pending == 0)
  {
    var w := Run(batch, channels, count, script);
    RunIsSound(batch, channels, count, script);
    LanesAddUp(w, |w.lanes|);
    LostAddsUp(w, |w.lanes|);
    LostIffDied(w);
  }

  // ---- The pending gauge never goes below zero ----

  lemma {:induction false} PendingCounts(tasks: seq<Task>, n: nat)
    requires n <= |tasks|
    ensures Sum(tasks, n).pending >= 0
    ensures forall t :: 0 <= t < n ==> Weigh(tasks[t]).pending <= Sum(tasks, n).pending
  {
    if n > 0 { PendingCounts(tasks, n - 1); }
  }

  lemma {:induction false} PendingShares(w: Wave, n: nat)
    requires WaveSound(w) && n <= |w.lanes|
    ensures Shares(w.lanes, n).pending >= 0
    ensures forall i :: 0 <= i < n ==> w.lanes[i].share.pending <= Shares(w.lanes, n).pending
  {
    if n > 0 {
      PendingShares(w, n - 1);
      PendingCounts(w.lanes[n - 1].tasks, |w.lanes[n - 1].tasks|);
    }
  }

  /** In every run the shared gauge is positive just before each step that lowers it, so it never wraps. */
  lemma PendingNeverWraps(batch: bool, channels: nat, count: nat, script: seq<On>, on: On)
    requires CanStep(Run(batch, channels, count, script), on)
    ensures var w := Run(batch, channels, count, script);
            && w.gauges.pending >= 0
            && (WaveStep(w, on).gauges.pending < w.gauges.pending ==> w.gauges.pending > 0)
  {
    var w := Run(batch, channels, count, script);
    RunIsSound(batch, channels, count, script);
    PendingShares(w, |w.lanes|);
    var l := w.lanes[on.lane];
    assert LaneSound(l, w.plan);
    PendingCounts(l.tasks, |l.tasks|);
    if WaveStep(w, on).gauges.pending < w.gauges.pending {
      assert TaskSound(l.batch, l.tasks[on.action.task]);
      assert Weigh(l.tasks[on.action.task]).pending == 1;
    }
  }
}
