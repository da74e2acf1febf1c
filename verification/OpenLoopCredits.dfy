/** What a lane's tally holds, kind by kind: what its steps earned, no more and no less. */
module OpenLoopCredits {
  import opened Basics
  import opened OpenLoop
  import opened OpenLoopRuns

  /** What a tally counts. */
  datatype Kind = Admission | Completion | Sid | Failure(code: string)

  function Count(t: Tally, kind: Kind): nat {
    match kind
    case Admission => t.admissions
    case Completion => t.completions
    case Sid => t.sids
    case Failure(code) => t.failures[code]
  }

  /** `n` if the two are the same, else nothing. */
  function Same<T(==)>(n: nat, a: T, b: T): nat { if a == b then n else 0 }

  function Failing(given: string, n: nat, kind: Kind): nat {
    if kind.Failure? then Same(n, given, kind.code) else 0
  }

  /** What a step earns, whenever it is told. */
  function Credit(l: Lane, a: Action, kind: Kind): nat {
    match a
    case Ready(_) => if kind.Failure? then 0 else 1
    case Lose(_, given, sid) =>
      if kind.Admission? || (kind.Sid? && sid) then 1 else Failing(given, 1, kind)
    case Reject(_, given) => Failing(given, 1, kind)
    case ReceiveError(given) => Failing(given, 1, kind)
    case Panic(_) => Failing("task_panicked", 1, kind)
    case Settle =>
      if !l.stream.Ended? then 0
      else Failing(l.stream.code, Unresolved(l), kind) + Failing("invalid_response", Excess(l), kind)
    case _ => 0
  }

  function IfSet(b: bool): nat { if b then 1 else 0 }

  /** What a task still has to hand over. */
  function Due(task: Task, kind: Kind): nat {
    match task
    case Finished(o) =>
      (match kind
       case Admission => IfSet(o.admitted)
       case Completion => IfSet(o.ready)
       case Sid => IfSet(o.sid)
       case Failure(code) => if o.error.Some? then Same(1, o.error.value, code) else 0)
    case Panicked(_) => Failing("task_panicked", 1, kind)
    case _ => 0
  }

  function AllDue(tasks: seq<Task>, n: nat, kind: Kind): nat
    requires n <= |tasks|
  {
    if n == 0 then 0 else AllDue(tasks, n - 1, kind) + Due(tasks[n - 1], kind)
  }

  /** Told, or about to be. */
  function Account(l: Lane, kind: Kind): nat { Count(l.tally, kind) + AllDue(l.tasks, |l.tasks|, kind) }

  lemma {:induction false} DueUpdate(tasks: seq<Task>, t: nat, task: Task, n: nat, kind: Kind)
    requires t < |tasks| && n <= |tasks|
    ensures t >= n ==> AllDue(tasks[t := task], n, kind) == AllDue(tasks, n, kind)
    ensures t < n ==>
              AllDue(tasks[t := task], n, kind) + Due(tasks[t], kind) == AllDue(tasks, n, kind) + Due(task, kind)
  {
    if n > 0 { DueUpdate(tasks, t, task, n - 1, kind); }
  }

  lemma {:induction false} DueSnoc(tasks: seq<Task>, task: Task, n: nat, kind: Kind)
    requires n <= |tasks| && Due(task, kind) == 0
    ensures AllDue(tasks + [task], n, kind) == AllDue(tasks, n, kind)
    ensures n == |tasks| ==> AllDue(tasks + [task], n + 1, kind) == AllDue(tasks, n, kind)
  {
    if n > 0 { DueSnoc(tasks, task, n - 1, kind); }
  }

  lemma CountMore<T>(s: multiset<T>, a: T, n: nat, b: T)
    ensures (s + multiset{}[a := n])[b] == s[b] + Same(n, a, b) && (s + multiset{a})[b] == s[b] + Same(1, a, b)
  {
  }

  lemma FailTells(t: Tally, given: string, n: nat, kind: Kind)
    ensures Count(FailMany(t, given, n), kind) == Count(t, kind) + Failing(given, n, kind)
    ensures Count(Fail(t, given), kind) == Count(t, kind) + Failing(given, 1, kind)
  {
    if kind.Failure? { CountMore(t.failures, given, n, kind.code); }
  }

  lemma CollectTells(l: Lane, t: nat, kind: Kind)
    requires t < |l.tasks| && (l.tasks[t].Finished? || l.tasks[t].Panicked?)
    ensures Count(CollectStep(l, t).tally, kind) == Count(l.tally, kind) + Due(l.tasks[t], kind)
  {
  }

  lemma SettleTells(l: Lane, kind: Kind)
    requires l.stream.Ended?
    ensures Count(SettleStep(l).tally, kind) == Count(l.tally, kind) + Credit(l, Settle, kind)
  {
    FailTells(l.tally, l.stream.code, Unresolved(l), kind);
    FailTells(FailMany(l.tally, l.stream.code, Unresolved(l)), "invalid_response", Excess(l), kind);
  }

  /** A step that changes one task and not the tally. */
  lemma TaskEarns(l: Lane, l': Lane, t: nat, task: Task, kind: Kind)
    requires t < |l.tasks| && Due(l.tasks[t], kind) == 0
    requires l'.tasks == l.tasks[t := task] && l'.tally == l.tally
    ensures Account(l', kind) == Account(l, kind) + Due(task, kind)
  {
    DueUpdate(l.tasks, t, task, |l.tasks|, kind);
  }

  /** The task that a step leaves behind. */
  function TaskAfter(l: Lane, a: Action): Task
    requires a.Reject? || a.Admit? || a.Ready? || a.Lose? || (a.Panic? && a.task < |l.tasks|)
  {
    match a
    case Reject(_, code) => Finished(Outcome(false, false, false, Some(code)))
    case Admit(_) => Admitted
    case Ready(_) => Finished(Outcome(true, true, true, None))
    case Lose(_, code, sid) => Finished(Outcome(true, false, sid, Some(code)))
    case Panic(t) => Panicked(l.tasks[t].Admitted?)
  }

  predicate Works(a: Action) { a.Reject? || a.Admit? || a.Ready? || a.Lose? || a.Panic? }

  lemma WorkIs(l: Lane, plan: Plan, a: Action)
    requires Enabled(l, plan, a) && Works(a)
    ensures a.task < |l.tasks| && (l.tasks[a.task].Calling? || l.tasks[a.task].Admitted?)
    ensures LaneStep(l, plan, a).tasks == l.tasks[a.task := TaskAfter(l, a)] && LaneStep(l, plan, a).tally == l.tally
  {
  }

  lemma CreditIsDue(l: Lane, a: Action, kind: Kind)
    requires Works(a) && a.task < |l.tasks|
    ensures Credit(l, a, kind) == Due(TaskAfter(l, a), kind)
  {
  }

  lemma WorkEarns(l: Lane, plan: Plan, a: Action, l': Lane, kind: Kind)
    requires Enabled(l, plan, a) && Works(a) && l' == LaneStep(l, plan, a)
    ensures Account(l', kind) == Account(l, kind) + Credit(l, a, kind)
  {
    WorkIs(l, plan, a);
    CreditIsDue(l, a, kind);
    TaskEarns(l, l', a.task, TaskAfter(l, a), kind);
  }

  lemma CollectEarns(l: Lane, t: nat, kind: Kind)
    requires t < |l.tasks| && (l.tasks[t].Finished? || l.tasks[t].Panicked?)
    ensures Account(CollectStep(l, t), kind) == Account(l, kind)
  {
    CollectTells(l, t, kind);
    DueUpdate(l.tasks, t, CollectStep(l, t).tasks[t], |l.tasks|, kind);
  }

  lemma FeedEarns(l: Lane, plan: Plan, a: Action, kind: Kind)
    requires Enabled(l, plan, a) && (a.Fire? || a.Receive?)
    ensures Account(LaneStep(l, plan, a), kind) == Account(l, kind)
  {
    DueSnoc(l.tasks, if a.Fire? then Calling else Admitted, |l.tasks|, kind);
  }

  lemma StreamTells(l: Lane, plan: Plan, a: Action, kind: Kind)
    requires Enabled(l, plan, a) && (a.ReceiveError? || a.Settle? || a.Break? || a.EndStream?)
    ensures LaneStep(l, plan, a).tasks == l.tasks
    ensures Count(LaneStep(l, plan, a).tally, kind) == Count(l.tally, kind) + Credit(l, a, kind)
  {
    if a.Settle? { SettleTells(l, kind); }
    if a.ReceiveError? { FailTells(l.tally, a.code, 1, kind); }
  }

  lemma OneStepEarns(l: Lane, plan: Plan, a: Action, l': Lane, kind: Kind)
    requires Enabled(l, plan, a) && l' == LaneStep(l, plan, a)
    ensures Account(l', kind) == Account(l, kind) + Credit(l, a, kind)
  {
    if a.Fire? || a.Receive? {
      FeedEarns(l, plan, a, kind);
    } else if a.Collect? {
      CollectEarns(l, a.task, kind);
    } else if Works(a) {
      WorkEarns(l, plan, a, l', kind);
    } else {
      StreamTells(l, plan, a, kind);
    }
  }

  // ---- Over a wave ----

  /** What the steps of one lane in a run earned. */
  function Earned(batch: bool, channels: nat, count: nat, script: seq<On>, lane: nat, kind: Kind): nat {
    if script == [] then 0
    else
      var front, on := script[..|script| - 1], script[|script| - 1];
      var w, before := Run(batch, channels, count, front), Earned(batch, channels, count, front, lane, kind);
      if CanStep(w, on) && on.lane == lane then before + Credit(w.lanes[lane], on.action, kind) else before
  }

  /** How many requests became ready in the lanes before `lanes`. */
  function ReadyIn(batch: bool, channels: nat, count: nat, script: seq<On>, lanes: nat): nat {
    if script == [] then 0
    else
      var front, on := script[..|script| - 1], script[|script| - 1];
      ReadyIn(batch, channels, count, front, lanes)
      + if CanStep(Run(batch, channels, count, front), on) && on.lane < lanes && on.action.Ready? then 1 else 0
  }

  /** What the last step of a run does to one lane. */
  lemma LastStep(batch: bool, channels: nat, count: nat, script: seq<On>, lane: nat)
    requires script != []
    ensures var w, on := Run(batch, channels, count, script[..|script| - 1]), script[|script| - 1];
            var w' := Run(batch, channels, count, script);
            && |w'.lanes| == |w.lanes|
            && (lane < |w.lanes| ==>
                  if CanStep(w, on) && on.lane == lane
                  then w'.lanes[lane] == Step(w.lanes[lane], w.plan, on.action) else w'.lanes[lane] == w.lanes[lane])
  {
  }

  lemma ShareAside(l: Lane, plan: Plan, a: Action, l': Lane, kind: Kind)
    requires Enabled(l, plan, a) && l' == Step(l, plan, a)
    ensures Account(l', kind) == Account(l, kind) + Credit(l, a, kind)
  {
    OneStepEarns(l, plan, a, LaneStep(l, plan, a), kind);
  }

  /** In every run each lane has told, or is about to tell, exactly what its steps earned. */
  lemma {:induction false} AccountIsEarned(batch: bool, channels: nat, count: nat, script: seq<On>, lane: nat,
                                           kind: Kind)
    requires lane < channels
    ensures InStep(batch, channels, count, script, lane, kind)
  {
    if script == [] {
      NewLaneOwesNothing(batch, lane, kind);
    } else {
      AccountIsEarned(batch, channels, count, script[..|script| - 1], lane, kind);
      StaysInStep(batch, channels, count, script, lane, kind);
    }
  }

  lemma NewLaneOwesNothing(batch: bool, lane: nat, kind: Kind)
    ensures Account(NewLane(batch, lane), kind) == 0
  {
  }

  predicate InStep(batch: bool, channels: nat, count: nat, script: seq<On>, lane: nat, kind: Kind) {
    var w := Run(batch, channels, count, script);
    && |w.lanes| == channels
    && (lane < channels ==> Account(w.lanes[lane], kind) == Earned(batch, channels, count, script, lane, kind))
  }

  lemma EarnedLast(batch: bool, channels: nat, count: nat, script: seq<On>, lane: nat, kind: Kind)
    requires script != []
    ensures var front, on := script[..|script| - 1], script[|script| - 1];
            var w, before := Run(batch, channels, count, front), Earned(batch, channels, count, front, lane, kind);
            Earned(batch, channels, count, script, lane, kind) ==
            if CanStep(w, on) && on.lane == lane then before + Credit(w.lanes[lane], on.action, kind) else before
  {
  }

  lemma StaysInStep(batch: bool, channels: nat, count: nat, script: seq<On>, lane: nat, kind: Kind)
    requires script != [] && lane < channels
    requires InStep(batch, channels, count, script[..|script| - 1], lane, kind)
    ensures InStep(batch, channels, count, script, lane, kind)
  {
    var front, on := script[..|script| - 1], script[|script| - 1];
    LastStep(batch, channels, count, script, lane);
    EarnedLast(batch, channels, count, script, lane, kind);
    var w, w' := Run(batch, channels, count, front), Run(batch, channels, count, script);
    if CanStep(w, on) && on.lane == lane {
      ShareAside(w.lanes[lane], w.plan, on.action, w'.lanes[lane], kind);
    }
  }

  lemma {:induction false} LanesStay(batch: bool, channels: nat, count: nat, script: seq<On>)
    ensures |Run(batch, channels, count, script).lanes| == channels
  {
    if script != [] { LanesStay(batch, channels, count, script[..|script| - 1]); }
  }

  lemma {:induction false} NothingDue(tasks: seq<Task>, n: nat, kind: Kind)
    requires n <= |tasks| && forall t :: 0 <= t < n ==> tasks[t].Absorbed?
    ensures AllDue(tasks, n, kind) == 0
  {
    if n > 0 { NothingDue(tasks, n - 1, kind); }
  }

  /** The tally of a finished lane is exactly what its steps earned, kind by kind. */
  lemma TallyIsEarned(batch: bool, channels: nat, count: nat, script: seq<On>, lane: nat, kind: Kind)
    requires lane < channels && lane < |Run(batch, channels, count, script).lanes|
    requires LaneDone(Run(batch, channels, count, script).lanes[lane], Run(batch, channels, count, script).plan)
    ensures Count(Run(batch, channels, count, script).lanes[lane].tally, kind) ==
            Earned(batch, channels, count, script, lane, kind)
  {
    var l := Run(batch, channels, count, script).lanes[lane];
    AccountIsEarned(batch, channels, count, script, lane, kind);
    NothingDue(l.tasks, |l.tasks|, kind);
  }

  lemma {:induction false} ReadyEarns(batch: bool, channels: nat, count: nat, script: seq<On>, lane: nat)
    ensures ReadyIn(batch, channels, count, script, lane + 1) ==
            ReadyIn(batch, channels, count, script, lane)
            + Earned(batch, channels, count, script, lane, Completion)
  {
    if script != [] { ReadyEarns(batch, channels, count, script[..|script| - 1], lane); }
  }

  lemma {:induction false} NoLanesReady(batch: bool, channels: nat, count: nat, script: seq<On>)
    ensures ReadyIn(batch, channels, count, script, 0) == 0
  {
    if script != [] { NoLanesReady(batch, channels, count, script[..|script| - 1]); }
  }

  function CompletionsOf(lanes: seq<Lane>, n: nat): nat
    requires n <= |lanes|
  {
    if n == 0 then 0 else CompletionsOf(lanes, n - 1) + lanes[n - 1].tally.completions
  }

  function AdmissionsOf(lanes: seq<Lane>, n: nat): nat
    requires n <= |lanes|
  {
    if n == 0 then 0 else AdmissionsOf(lanes, n - 1) + lanes[n - 1].tally.admissions
  }

  function SidsOf(lanes: seq<Lane>, n: nat): nat
    requires n <= |lanes|
  {
    if n == 0 then 0 else SidsOf(lanes, n - 1) + lanes[n - 1].tally.sids
  }

  function FailuresOf(lanes: seq<Lane>, n: nat): multiset<string>
    requires n <= |lanes|
  {
    if n == 0 then multiset{} else FailuresOf(lanes, n - 1) + lanes[n - 1].tally.failures
  }

  /** The completions of a finished wave are its requests that became ready. */
  lemma {:induction false} CompletionsAreReady(batch: bool, channels: nat, count: nat, script: seq<On>, n: nat)
    requires WaveDone(Run(batch, channels, count, script)) && n <= channels
    requires |Run(batch, channels, count, script).lanes| == channels
    ensures CompletionsOf(Run(batch, channels, count, script).lanes, n) ==
            ReadyIn(batch, channels, count, script, n)
  {
    if n == 0 {
      NoLanesReady(batch, channels, count, script);
    } else {
      CompletionsAreReady(batch, channels, count, script, n - 1);
      TallyIsEarned(batch, channels, count, script, n - 1, Completion);
      ReadyEarns(batch, channels, count, script, n - 1);
    }
  }
}
