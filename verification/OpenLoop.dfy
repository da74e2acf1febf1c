/**
 Open-loop benchmark waves: lanes that fire on schedule, requests that resolve in any order, and
 the gauges they share.

 The steps of one request are separate from those of every other, and a request may resolve at
 any point the code allows. Times and percentiles are left out. A task may panic; the feeder of
 a batch lane is assumed not to.
 */
module OpenLoop {
  import opened Basics

  datatype Gauges = Gauges(offered: int, completed: int, pending: int)

  /** How one request ended: exactly one of `ready` and `error` is set by the code that builds it. */
  datatype Outcome = Outcome(admitted: bool, ready: bool, sid: bool, error: Option<string>)

  datatype Tally = Tally(admissions: nat, completions: nat, sids: nat, failures: multiset<string>)

  const EMPTY := Tally(0, 0, 0, multiset{})

  function Fail(t: Tally, code: string): Tally { t.(failures := t.failures + multiset{code}) }

  function FailMany(t: Tally, code: string, n: nat): Tally { t.(failures := t.failures + multiset{}[code := n]) }

  function One(b: bool): nat { if b then 1 else 0 }

  function Absorb(t: Tally, o: Outcome): Tally {
    var u := t.(admissions := t.admissions + One(o.admitted), completions := t.completions + One(o.ready),
                sids := t.sids + One(o.sid));
    if o.error.Some? then Fail(u, o.error.value) else u
  }

  /** How many requests a tally accounts for. */
  function Told(t: Tally): nat { t.completions + |t.failures| }

  // ---- Lanes ----

  datatype Task =
    | Calling
    | Admitted
    | Finished(outcome: Outcome)
    | Panicked(pending: bool)
    | Absorbed(panicked: bool, pending: bool)

  datatype Stream = Open | Ended(code: string)

  /**
   A lane: the next index it owns and those it fired, its tasks, and its tally. In a batch lane
   those are the watchers of admitted requests, and `received` counts the responses.
   `share` is what this lane has added to the gauges.
   */
  datatype Lane = Lane(
    batch: bool, next: nat, fired: seq<nat>, broken: bool, tasks: seq<Task>,
    stream: Stream, received: nat, settled: bool, tally: Tally, share: Gauges)

  function NewLane(batch: bool, lane: nat): Lane {
    Lane(batch, lane, [], false, [], Open, 0, false, EMPTY, Gauges(0, 0, 0))
  }

  datatype Action =
    | Fire
    | Break
    | Reject(task: nat, code: string)
    | Admit(task: nat)
    | Ready(task: nat)
    | Lose(task: nat, code: string, sid: bool)
    | Panic(task: nat)
    | Receive
    | ReceiveError(code: string)
    | EndStream(code: string)
    | Settle
    | Collect(task: nat)

  datatype Plan = Plan(batch: bool, lanes: nat, count: nat)

  predicate Feeding(l: Lane, plan: Plan) { l.next < plan.count && !l.broken }

  predicate Enabled(l: Lane, plan: Plan, a: Action) {
    match a
    case Fire => Feeding(l, plan)
    case Break => l.batch && Feeding(l, plan)
    case Reject(t, _) => t < |l.tasks| && l.tasks[t].Calling?
    case Admit(t) => t < |l.tasks| && l.tasks[t].Calling?
    case Ready(t) => t < |l.tasks| && l.tasks[t].Admitted?
    case Lose(t, _, _) => t < |l.tasks| && l.tasks[t].Admitted?
    case Panic(t) => t < |l.tasks| && (l.tasks[t].Calling? || l.tasks[t].Admitted?)
    case Receive => l.batch && l.stream.Open?
    case ReceiveError(_) => l.batch && l.stream.Open?
    case EndStream(_) => l.batch && l.stream.Open?
    case Settle => l.batch && l.stream.Ended? && !Feeding(l, plan) && !l.settled
    case Collect(t) => t < |l.tasks| && (l.tasks[t].Finished? || l.tasks[t].Panicked?)
                       && if l.batch then l.settled else !Feeding(l, plan)
  }

  // What each step does to the gauges.

  function Fired(g: Gauges): Gauges { g.(offered := g.offered + 1) }
  function AdmittedOne(g: Gauges): Gauges { g.(pending := g.pending + 1) }
  function CompletedBefore(g: Gauges): Gauges { g.(completed := g.completed + 1) }
  function CompletedAfter(g: Gauges): Gauges { g.(completed := g.completed + 1, pending := g.pending - 1) }

  function Unresolved(l: Lane): nat { if |l.fired| <= l.received then 0 else |l.fired| - l.received }

  /** Responses beyond the requests of the lane. */
  function Excess(l: Lane): nat { if l.received <= |l.fired| then 0 else l.received - |l.fired| }

  function GaugeStep(g: Gauges, l: Lane, a: Action): Gauges {
    match a
    case Fire => Fired(g)
    case Reject(_, _) => CompletedBefore(g)
    case Admit(_) => AdmittedOne(g)
    case Ready(_) => CompletedAfter(g)
    case Lose(_, _, _) => CompletedAfter(g)
    case Receive => AdmittedOne(g)
    case ReceiveError(_) => CompletedBefore(g)
    case Settle => g.(completed := g.completed + Unresolved(l))
    case Collect(t) => if l.batch && t < |l.tasks| && l.tasks[t].Panicked? then CompletedAfter(g) else g
    case Break | Panic(_) | EndStream(_) => g
  }

  function SetTask(l: Lane, t: nat, task: Task): Lane
    requires t < |l.tasks|
  {
    l.(tasks := l.tasks[t := task])
  }

  function CollectStep(l: Lane, t: nat): Lane
    requires t < |l.tasks| && (l.tasks[t].Finished? || l.tasks[t].Panicked?)
  {
    match l.tasks[t]
    case Finished(o) => SetTask(l, t, Absorbed(false, false)).(tally := Absorb(l.tally, o))
    case Panicked(pending) =>
      SetTask(l, t, Absorbed(!l.batch, pending && !l.batch)).(tally := Fail(l.tally, "task_panicked"))
  }

  function SettleStep(l: Lane): Lane
    requires l.stream.Ended?
  {
    var tally := FailMany(FailMany(l.tally, l.stream.code, Unresolved(l)), "invalid_response", Excess(l));
    l.(settled := true, tally := tally)
  }

  /** The lane's own part of a step. */
  function LaneStep(l: Lane, plan: Plan, a: Action): Lane
    requires Enabled(l, plan, a)
  {
    match a
    case Fire =>
      l.(next := l.next + plan.lanes, fired := l.fired + [l.next],
         tasks := if l.batch then l.tasks else l.tasks + [Calling])
    case Break => l.(broken := true)
    case Reject(t, code) => SetTask(l, t, Finished(Outcome(false, false, false, Some(code))))
    case Admit(t) => SetTask(l, t, Admitted)
    case Ready(t) => SetTask(l, t, Finished(Outcome(true, true, true, None)))
    case Lose(t, code, sid) => SetTask(l, t, Finished(Outcome(true, false, sid, Some(code))))
    case Panic(t) => SetTask(l, t, Panicked(l.tasks[t].Admitted?))
    case Receive => l.(received := l.received + 1, tasks := l.tasks + [Admitted])
    case ReceiveError(code) => l.(received := l.received + 1, tally := Fail(l.tally, code))
    case EndStream(code) => l.(stream := Ended(code))
    case Settle => SettleStep(l)
    case Collect(t) => CollectStep(l, t)
  }

  function Step(l: Lane, plan: Plan, a: Action): Lane
    requires Enabled(l, plan, a)
  {
    LaneStep(l, plan, a).(share := GaugeStep(l.share, l, a))
  }

  predicate LaneDone(l: Lane, plan: Plan) {
    !Feeding(l, plan) && (l.batch ==> l.settled) && forall t :: 0 <= t < |l.tasks| ==> l.tasks[t].Absorbed?
  }
}
