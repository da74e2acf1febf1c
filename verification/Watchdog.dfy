/**
 The ownership watchdog: timer threads, rearms and shutdowns over one mutex, in abstract time.

 A rearm reads the clock before it takes the lock, so reading and committing are two steps.
 A timer thread may wake at any moment. It decides under the lock and calls back after it.
 */
module Watchdog {
  import opened Basics

  const MAX_SECS: nat := 86400

  datatype State = State(deadline: Option<nat>, stopped: bool)

  datatype Verdict = Leave | Sleep | Expire

  function Judge(s: State, now: nat): Verdict {
    if s.stopped then Leave
    else if s.deadline.None? || s.deadline.value > now then Sleep
    else Expire
  }

  datatype Timer = Watching | Expiring | Done

  datatype Core = Core(state: State, now: nat, timers: seq<Timer>, handle: Option<nat>, rearms: seq<Option<nat>>)

  datatype Action =
    | Tick
    | Start
    | Check(timer: nat)
    | Call(timer: nat)
    | Ask(secs: nat, representable: bool)
    | Commit(rearm: nat)
    | Stop
    | Join(timer: nat)

  datatype Event =
    | Installed(deadline: nat, rearm: Option<nat>)
    | Rejected
    | Stopped
    | Decided(timer: nat, now: nat)
    | Called(timer: nat, now: nat)
    | Joined(timer: nat)

  datatype World = World(core: Core, log: seq<Event>)

  function New(deadline: Option<nat>): World {
    World(Core(State(deadline, false), 0, [], None, []),
          if deadline.Some? then [Installed(deadline.value, None)] else [])
  }

  predicate Enabled(c: Core, a: Action) {
    match a
    case Tick | Start | Stop | Ask(_, _) => true
    case Check(t) => t < |c.timers| && c.timers[t].Watching?
    case Call(t) => t < |c.timers| && c.timers[t].Expiring?
    case Commit(r) => r < |c.rearms| && c.rearms[r].Some?
    case Join(t) => t < |c.timers| && c.timers[t].Done? && c.handle == Some(t) && c.state.stopped
  }

  /** One wake-up of a timer thread under the lock. */
  function CheckStep(w: World, t: nat): World
    requires t < |w.core.timers|
  {
    var c := w.core;
    match Judge(c.state, c.now)
    case Leave => w.(core := c.(timers := c.timers[t := Done]))
    case Sleep => w
    case Expire => World(c.(state := c.state.(stopped := true), timers := c.timers[t := Expiring]),
      w.log + [Decided(t, c.now)])
  }

  /** The part of a rearm before the lock: a deadline is computed unless the request is out of range. */
  function AskStep(w: World, secs: nat, representable: bool): World {
    if 1 <= secs <= MAX_SECS && representable
    then w.(core := w.core.(rearms := w.core.rearms + [Some(w.core.now + secs)]))
    else w.(log := w.log + [Rejected])
  }

  /** The part under the lock. */
  function CommitStep(w: World, r: nat): World
    requires r < |w.core.rearms| && w.core.rearms[r].Some?
  {
    var c := w.core.(rearms := w.core.rearms[r := None]);
    var d := w.core.rearms[r].value;
    if c.state.stopped then World(c, w.log + [Rejected])
    else World(c.(state := c.state.(deadline := Some(d))), w.log + [Installed(d, Some(r))])
  }

  function Step(w: World, a: Action): World
    requires Enabled(w.core, a)
  {
    var c := w.core;
    match a
    case Tick => w.(core := c.(now := c.now + 1))
    case Start => w.(core := c.(timers := c.timers + [Watching], handle := Some(|c.timers|)))
    case Check(t) => CheckStep(w, t)
    case Call(t) => World(c.(timers := c.timers[t := Done]), w.log + [Called(t, c.now)])
    case Ask(secs, representable) => AskStep(w, secs, representable)
    case Commit(r) => CommitStep(w, r)
    case Stop => World(c.(state := c.state.(stopped := true)), w.log + [Stopped])
    case Join(t) => World(c.(handle := None), w.log + [Joined(t)])
  }

  /** The steps of `script` one after the other; one that cannot be taken leaves the world alone. */
  function Run(w: World, script: seq<Action>): World {
    if script == [] then w
    else
      var v := Run(w, script[..|script| - 1]);
      var a := script[|script| - 1];
      if Enabled(v.core, a) then Step(v, a) else v
  }

  // ---- What holds at every step ----

  predicate Halts(e: Event) { e.Stopped? || e.Decided? }

  /** Whether the first `n` events stopped the watchdog. */
  predicate Halted(log: seq<Event>, n: nat)
    requires n <= |log|
  {
    exists i :: 0 <= i < n && Halts(log[i])
  }

  /** The deadline installed last among the first `n` events. */
  function Latest(log: seq<Event>, n: nat): Option<nat>
    requires n <= |log|
  {
    if n == 0 then None
    else if log[n - 1].Installed? then Some(log[n - 1].deadline)
    else Latest(log, n - 1)
  }

  /** The rearm that installed it; none if it was armed from the start. */
  function Setter(log: seq<Event>, n: nat): Option<nat>
    requires n <= |log|
  {
    if n == 0 then None else if log[n - 1].Installed? then log[n - 1].rearm else Setter(log, n - 1)
  }

  predicate EventSound(log: seq<Event>, k: nat)
    requires k < |log|
  {
    match log[k]
    case Installed(_, _) => !Halted(log, k)
    case Decided(_, now) => !Halted(log, k) && Latest(log, k).Some? && Latest(log, k).value <= now
    case Called(t, now) => exists i :: 0 <= i < k && log[i].Decided? && log[i].timer == t && log[i].now <= now
    case _ => true
  }

  predicate Owes(c: Core, e: Event) {
    match e
    case Decided(t, now) => t < |c.timers| && !c.timers[t].Watching? && now <= c.now
    case Called(t, _) => t < |c.timers| && c.timers[t].Done?
    case Joined(t) => t < |c.timers| && c.timers[t].Done?
    case _ => true
  }

  ghost predicate Sound(w: World) {
    && Latest(w.log, |w.log|) == w.core.state.deadline
    && (Halted(w.log, |w.log|) <==> w.core.state.stopped)
    && (forall k :: 0 <= k < |w.log| ==> EventSound(w.log, k))
    && (forall k :: 0 <= k < |w.log| ==> Owes(w.core, w.log[k]))
    && (forall t :: 0 <= t < |w.core.timers| && w.core.timers[t].Expiring? ==>
          exists i :: 0 <= i < |w.log| && w.log[i].Decided? && w.log[i].timer == t)
    && (forall i, j :: 0 <= i < j < |w.log| && w.log[i].Called? ==> !w.log[j].Called?)
  }

  lemma {:induction false} LatestSame(log: seq<Event>, more: seq<Event>, n: nat)
    requires n <= |log| && log <= more
    ensures Latest(more, n) == Latest(log, n) && Setter(more, n) == Setter(log, n)
  {
    if n > 0 { LatestSame(log, more, n - 1); }
  }

  /** Adding an event leaves what was said of the earlier ones. */
  lemma Appended(log: seq<Event>, e: Event)
    requires forall k :: 0 <= k < |log| ==> EventSound(log, k)
    ensures var more := log + [e];
            && (forall k :: 0 <= k < |log| ==> EventSound(more, k))
            && (Halted(more, |more|) <==> Halted(log, |log|) || Halts(e))
            && (Halted(more, |log|) <==> Halted(log, |log|))
            && Latest(more, |log|) == Latest(log, |log|)
  {
    var more := log + [e];
    LatestSame(log, more, |log|);
    assert Halts(more[|log|]) ==> Halted(more, |more|);
    assert forall n :: 0 <= n <= |log| ==> (Halted(more, n) <==> Halted(log, n)) by {
      forall n | 0 <= n <= |log| ensures Halted(more, n) <==> Halted(log, n) {
        forall i | 0 <= i < n ensures more[i] == log[i] {}
      }
    }
    forall k | 0 <= k < |log| ensures EventSound(more, k) {
      assert EventSound(log, k);
      LatestSame(log, more, k);
    }
  }

  lemma OneDecision(log: seq<Event>, i: nat, j: nat)
    requires i < |log| && j < |log| && log[i].Decided? && log[j].Decided?
    requires EventSound(log, i) && EventSound(log, j)
    ensures i == j
  {
  }

  /** An event that is neither a decision nor a call leaves the timers as they are. */
  lemma QuietEvent(w: World, next: World, e: Event)
    requires Sound(w) && next.log == w.log + [e] && !e.Decided? && !e.Called? && next.core.timers == w.core.timers
    requires next.core.now == w.core.now && Owes(next.core, e)
    requires next.core.state.stopped == (w.core.state.stopped || e.Stopped?)
    requires next.core.state.deadline == if e.Installed? then Some(e.deadline) else w.core.state.deadline
    requires e.Installed? ==> !w.core.state.stopped
    ensures Sound(next)
  {
    Appended(w.log, e);
    assert next.log[|w.log|] == e;
    forall k | 0 <= k < |w.log| ensures Owes(next.core, next.log[k]) { assert Owes(w.core, w.log[k]); }
    forall t | 0 <= t < |next.core.timers| && next.core.timers[t].Expiring?
      ensures exists i :: 0 <= i < |next.log| && next.log[i].Decided? && next.log[i].timer == t
    {
      var i :| 0 <= i < |w.log| && w.log[i].Decided? && w.log[i].timer == t;
      assert next.log[i] == w.log[i];
    }
  }

  lemma NoneExpiring(w: World)
    requires Sound(w) && !w.core.state.stopped
    ensures forall t :: 0 <= t < |w.core.timers| ==> !w.core.timers[t].Expiring?
  {
  }

  lemma CheckKeeps(w: World, t: nat)
    requires Sound(w) && Enabled(w.core, Check(t))
    ensures Sound(CheckStep(w, t))
  {
    var next := CheckStep(w, t);
    forall k | 0 <= k < |w.log| ensures Owes(next.core, w.log[k]) { assert Owes(w.core, w.log[k]); }
    if Judge(w.core.state, w.core.now).Expire? {
      var e := Decided(t, w.core.now);
      Appended(w.log, e);
      assert next.log[|w.log|] == e;
      assert Owes(next.core, e);
      NoneExpiring(w);
      forall u | 0 <= u < |next.core.timers| && next.core.timers[u].Expiring?
        ensures exists i :: 0 <= i < |next.log| && next.log[i].Decided? && next.log[i].timer == u
      {
        assert next.log[|w.log|].timer == u;
      }
    }
  }

  /** A thread about to call back is the one that decided, so nobody has called back before. */
  lemma NotCalledYet(w: World, t: nat, k: nat)
    requires Sound(w) && Enabled(w.core, Call(t)) && k < |w.log|
    ensures !w.log[k].Called?
  {
    if w.log[k].Called? {
      assert EventSound(w.log, k) && Owes(w.core, w.log[k]);
      var i :| 0 <= i < k && w.log[i].Decided? && w.log[i].timer == w.log[k].timer;
      var j :| 0 <= j < |w.log| && w.log[j].Decided? && w.log[j].timer == t;
      OneDecision(w.log, i, j);
    }
  }

  lemma CallKeeps(w: World, t: nat)
    requires Sound(w) && Enabled(w.core, Call(t))
    ensures Sound(Step(w, Call(t)))
  {
    var next := Step(w, Call(t));
    var e := Called(t, w.core.now);
    Appended(w.log, e);
    assert next.log[|w.log|] == e;
    forall k | 0 <= k < |w.log| ensures !next.log[k].Called? && Owes(next.core, next.log[k]) {
      NotCalledYet(w, t, k);
      assert Owes(w.core, w.log[k]);
    }
    var j :| 0 <= j < |w.log| && w.log[j].Decided? && w.log[j].timer == t;
    assert Owes(w.core, w.log[j]) && next.log[j] == w.log[j];
    forall u | 0 <= u < |next.core.timers| && next.core.timers[u].Expiring?
      ensures exists i :: 0 <= i < |next.log| && next.log[i].Decided? && next.log[i].timer == u
    {
      var i :| 0 <= i < |w.log| && w.log[i].Decided? && w.log[i].timer == u;
      assert next.log[i] == w.log[i];
    }
  }

  /** Time passing and new threads touch neither the lock's state nor the log. */
  lemma SilentKeeps(w: World, a: Action)
    requires Sound(w) && (a.Tick? || a.Start?)
    ensures Sound(Step(w, a))
  {
    var next := Step(w, a);
    forall k | 0 <= k < |w.log| ensures Owes(next.core, w.log[k]) { assert Owes(w.core, w.log[k]); }
  }

  lemma StepKeeps(w: World, a: Action)
    requires Sound(w) && Enabled(w.core, a)
    ensures Sound(Step(w, a))
  {
    match a
    case Tick | Start => SilentKeeps(w, a);
    case Check(t) => CheckKeeps(w, t);
    case Call(t) => CallKeeps(w, t);
    case Ask(secs, representable) =>
      if Step(w, a).log != w.log { QuietEvent(w, Step(w, a), Rejected); }
    case Commit(r) =>
      QuietEvent(w, Step(w, a), if w.core.state.stopped then Rejected else Installed(w.core.rearms[r].value, Some(r)));
    case Stop => QuietEvent(w, Step(w, a), Stopped);
    case Join(t) => QuietEvent(w, Step(w, a), Joined(t));
  }

  lemma {:induction false} RunIsSound(deadline: Option<nat>, script: seq<Action>)
    ensures Sound(Run(New(deadline), script))
  {
    if script != [] {
      var n := |script| - 1;
      RunIsSound(deadline, script[..n]);
      var w := Run(New(deadline), script[..n]);
      if Enabled(w.core, script[n]) { StepKeeps(w, script[n]); }
    }
  }

  // ---- Safety over every timed run ----

  /** Event `i` installed the deadline that was in force just before event `k`. */
  predicate InForce(log: seq<Event>, i: nat, k: nat)
    requires i < k < |log|
  {
    log[i].Installed? && forall j :: i < j < k ==> !log[j].Installed?
  }

  /**
   The callback runs at most once, for the thread that decided, not before the deadline in force.
   Once expiry is decided or a shutdown has the lock, nothing expires and no rearm is accepted.
   */
  ghost predicate ExpirySafe(log: seq<Event>) {
    && (forall i, j :: 0 <= i < |log| && 0 <= j < |log| && log[i].Called? && log[j].Called? ==> i == j)
    && (forall i, j :: 0 <= i < j < |log| && Halts(log[i]) ==> !log[j].Decided? && !log[j].Installed?)
    && (forall k :: 0 <= k < |log| && log[k].Decided? ==>
          exists i :: 0 <= i < k && InForce(log, i, k) && log[i].deadline <= log[k].now)
    && (forall k :: 0 <= k < |log| && log[k].Called? ==>
          exists i :: 0 <= i < k && log[i].Decided? && log[i].timer == log[k].timer && log[i].now <= log[k].now)
  }

  lemma {:induction false} LatestInForce(log: seq<Event>, n: nat, k: nat) returns (i: nat)
    requires n <= k < |log| && Latest(log, n).Some?
    requires forall j :: n <= j < k ==> !log[j].Installed?
    ensures i < k && InForce(log, i, k) && log[i].deadline == Latest(log, n).value && log[i].rearm == Setter(log, n)
  {
    if log[n - 1].Installed? { i := n - 1; } else { i := LatestInForce(log, n - 1, k); }
  }

  lemma EveryRunIsSafe(deadline: Option<nat>, script: seq<Action>)
    ensures ExpirySafe(Run(New(deadline), script).log)
  {
    var w := Run(New(deadline), script);
    RunIsSound(deadline, script);
    forall i, j | 0 <= i < j < |w.log| && Halts(w.log[i]) ensures !w.log[j].Decided? && !w.log[j].Installed? {
      assert EventSound(w.log, j);
    }
    forall k | 0 <= k < |w.log| && w.log[k].Decided?
      ensures exists i :: 0 <= i < k && InForce(w.log, i, k) && w.log[i].deadline <= w.log[k].now
    {
      assert EventSound(w.log, k);
      var i := LatestInForce(w.log, k, k);
    }
    forall k | 0 <= k < |w.log| && w.log[k].Called?
      ensures exists i :: 0 <= i < k && w.log[i].Decided? && w.log[i].timer == w.log[k].timer
                           && w.log[i].now <= w.log[k].now
    {
      assert EventSound(w.log, k);
    }
  }

  /** Once halted, a commit is always refused and changes neither deadline nor verdict. */
  lemma RearmAfterHaltFails(deadline: Option<nat>, script: seq<Action>, r: nat)
    requires Enabled(Run(New(deadline), script).core, Commit(r))
    requires exists e <- Run(New(deadline), script).log :: Halts(e)
    ensures var w := Run(New(deadline), script);
            var next := Step(w, Commit(r));
            next.log == w.log + [Rejected] && next.core.state == w.core.state
  {
    var w := Run(New(deadline), script);
    RunIsSound(deadline, script);
    var e :| e in w.log && Halts(e);
    var i :| 0 <= i < |w.log| && w.log[i] == e;
    assert Halted(w.log, |w.log|);
  }

  /** While nothing stopped it, a watchdog past its deadline expires at the next wake-up of any timer. */
  lemma PastDeadlineExpires(deadline: Option<nat>, script: seq<Action>, t: nat)
    requires var w := Run(New(deadline), script);
             && Enabled(w.core, Check(t)) && (forall e <- w.log :: !Halts(e))
             && Latest(w.log, |w.log|).Some? && Latest(w.log, |w.log|).value <= w.core.now
    ensures var w := Run(New(deadline), script);
            Step(w, Check(t)).log == w.log + [Decided(t, w.core.now)]
  {
    RunIsSound(deadline, script);
  }

  /** After a shutdown has joined a timer thread, that thread never calls back. */
  lemma JoinedNeverCalls(deadline: Option<nat>, script: seq<Action>, i: nat, k: nat)
    requires var log := Run(New(deadline), script).log; i < k < |log| && log[i].Joined? && log[k].Called?
    ensures var log := Run(New(deadline), script).log; log[i].timer != log[k].timer
  {
    JoinsSound(deadline, script);
  }

  predicate JoinedStayQuiet(log: seq<Event>) {
    forall i, k :: 0 <= i < k < |log| && log[i].Joined? && log[k].Called? ==> log[i].timer != log[k].timer
  }

  lemma JoinsStep(w: World, a: Action)
    requires Sound(w) && Enabled(w.core, a) && JoinedStayQuiet(w.log)
    ensures JoinedStayQuiet(Step(w, a).log)
  {
    var log := Step(w, a).log;
    forall i, k | 0 <= i < k < |log| && log[i].Joined? && log[k].Called? ensures log[i].timer != log[k].timer {
      assert Owes(w.core, w.log[i]);
    }
  }

  lemma {:induction false} JoinsSound(deadline: Option<nat>, script: seq<Action>)
    ensures JoinedStayQuiet(Run(New(deadline), script).log)
  {
    if script != [] {
      var n := |script| - 1;
      JoinsSound(deadline, script[..n]);
      RunIsSound(deadline, script[..n]);
      var w := Run(New(deadline), script[..n]);
      if Enabled(w.core, script[n]) { JoinsStep(w, script[n]); }
    }
  }

  // ---- When an accepted rearm holds ----

  lemma RunSnoc(w: World, script: seq<Action>, a: Action)
    ensures var v := Run(w, script);
            Run(w, script + [a]) == if Enabled(v.core, a) then Step(v, a) else v
  {
    assert (script + [a])[..|script|] == script;
  }

  predicate DueTo(log: seq<Event>, i: nat, k: nat, n: nat)
    requires i < k < |log|
  {
    InForce(log, i, k) && log[i].rearm.Some? && log[i].rearm.value >= n
  }

  /** After `from` events, an expiry before `d` is due to a rearm asked for as number `n` or later. */
  ghost predicate OnlyLater(log: seq<Event>, from: nat, n: nat, d: nat) {
    forall k :: from <= k < |log| && log[k].Decided? && log[k].now < d ==> exists i :: 0 <= i < k && DueTo(log, i, k, n)
  }

  /** No rearm with an earlier deadline is between reading the clock and taking the lock. */
  predicate NoneOlder(w: World, d: nat) { NoneOlderUpTo(w, |w.core.rearms|, d) }

  predicate NoneOlderUpTo(w: World, n: nat, d: nat)
    requires n <= |w.core.rearms|
  {
    forall r :: 0 <= r < n && w.core.rearms[r].Some? ==> d <= w.core.rearms[r].value
  }

  /** The deadline is no earlier than `d`, or was asked for later. */
  ghost predicate Fenced(w: World, from: nat, n: nat, d: nat) {
    && from <= |w.log| && n <= |w.core.rearms| && NoneOlderUpTo(w, n, d) && OnlyLater(w.log, from, n, d)
    && w.core.state.deadline.Some? && Latest(w.log, |w.log|) == w.core.state.deadline
    && (d <= w.core.state.deadline.value || (Setter(w.log, |w.log|).Some? && Setter(w.log, |w.log|).value >= n))
  }

  lemma FencedEvent(log: seq<Event>, e: Event, from: nat, n: nat, d: nat)
    requires from <= |log| && OnlyLater(log, from, n, d)
    requires e.Decided? && e.now < d ==>
               Latest(log, |log|).Some? && Setter(log, |log|).Some? && Setter(log, |log|).value >= n
    ensures OnlyLater(log + [e], from, n, d)
  {
    var more := log + [e];
    LatestSame(log, more, |log|);
    forall k | from <= k < |more| && more[k].Decided? && more[k].now < d
      ensures exists i :: 0 <= i < k && DueTo(more, i, k, n)
    {
      if k < |log| {
        assert more[k] == log[k];
        var i :| 0 <= i < k && DueTo(log, i, k, n);
        assert DueTo(more, i, k, n);
      } else {
        var i := LatestInForce(more, k, k);
        assert DueTo(more, i, k, n);
      }
    }
  }

  lemma FencedStep(w: World, from: nat, n: nat, d: nat, a: Action)
    requires Fenced(w, from, n, d) && Enabled(w.core, a)
    ensures Fenced(Step(w, a), from, n, d)
  {
    var next := Step(w, a);
    if next.log != w.log {
      var e := next.log[|w.log|];
      assert next.log == w.log + [e];
      LatestSame(w.log, next.log, |w.log|);
      FencedEvent(w.log, e, from, n, d);
    }
  }

  lemma {:induction false} FencedThroughout(w: World, d: nat, script: seq<Action>)
    requires Fenced(w, |w.log|, |w.core.rearms|, d)
    ensures Fenced(Run(w, script), |w.log|, |w.core.rearms|, d)
  {
    if script != [] {
      var n := |script| - 1;
      FencedThroughout(w, d, script[..n]);
      var v := Run(w, script[..n]);
      if Enabled(v.core, script[n]) { FencedStep(v, |w.log|, |w.core.rearms|, d, script[n]); }
    }
  }

  function Ticks(n: nat): seq<Action> { seq(n, i => Tick) }

  lemma TicksSnoc(script: seq<Action>, n: nat)
    requires n > 0
    ensures script + Ticks(n) == script + Ticks(n - 1) + [Tick]
  {
  }

  lemma {:induction false} TicksPass(w: World, script: seq<Action>, n: nat)
    ensures var v := Run(w, script);
            Run(w, script + Ticks(n)) == v.(core := v.core.(now := v.core.now + n))
  {
    if n == 0 {
      assert script + Ticks(0) == script;
    } else {
      TicksPass(w, script, n - 1);
      TicksSnoc(script, n);
      RunSnoc(w, script + Ticks(n - 1), Tick);
    }
  }

  /** A timer that watches: one that runs already, or else a new one. */
  lemma Watcher(w: World) returns (script: seq<Action>, t: nat)
    ensures var v := Run(w, script);
            && t < |v.core.timers| && v.core.timers[t].Watching? && v.log == w.log
            && v.core.state == w.core.state && v.core.now == w.core.now && v.core.rearms == w.core.rearms
    ensures (exists u :: 0 <= u < |w.core.timers| && w.core.timers[u].Watching?) ==> script == []
  {
    if u: nat :| u < |w.core.timers| && w.core.timers[u].Watching? {
      script, t := [], u;
    } else {
      script, t := [Start], |w.core.timers|;
      RunSnoc(w, [], Start);
      assert [] + [Start] == [Start];
    }
  }

  /** A rearm that has read the clock but not yet taken the lock brings expiry forward to its own deadline. */
  lemma OlderOvertakes(w: World, d: nat, r: nat) returns (script: seq<Action>, t: nat, now: nat)
    requires !w.core.state.stopped && w.core.now < d
    requires r < |w.core.rearms| && w.core.rearms[r].Some? && w.core.rearms[r].value < d
    ensures now < d && Run(w, script).log == w.log + [Installed(w.core.rearms[r].value, Some(r)), Decided(t, now)]
  {
    var older := w.core.rearms[r].value;
    var wait := if older <= w.core.now then 0 else older - w.core.now;
    now := w.core.now + wait;
    var started;
    started, t := Watcher(w);
    RunSnoc(w, started, Commit(r));
    TicksPass(w, started + [Commit(r)], wait);
    RunSnoc(w, started + [Commit(r)] + Ticks(wait), Check(t));
    script := started + [Commit(r)] + Ticks(wait) + [Check(t)];
  }

  lemma NotOnlyLater(log: seq<Event>, d: nat, r: nat, n: nat, older: nat, t: nat, now: nat)
    requires r < n && now < d
    ensures !OnlyLater(log + [Installed(older, Some(r)), Decided(t, now)], |log|, n, d)
  {
    var more := log + [Installed(older, Some(r)), Decided(t, now)];
    var k := |log| + 1;
    assert more[k] == Decided(t, now) && more[|log|] == Installed(older, Some(r));
    forall i | 0 <= i < k ensures !DueTo(more, i, k, n) { assert more[|log|].Installed?; }
  }

  /**
   After any run, the deadline in force can only be overtaken by rearms asked for later, whatever
   happens next, if and only if no rearm with an earlier deadline has read the clock already.
   */
  lemma RearmHoldsIffNoneOlder(deadline: Option<nat>, before: seq<Action>, d: nat)
    requires var w := Run(New(deadline), before);
             !w.core.state.stopped && w.core.state.deadline == Some(d) && w.core.now < d
    ensures var w := Run(New(deadline), before);
            NoneOlder(w, d) <==> forall script :: OnlyLater(Run(w, script).log, |w.log|, |w.core.rearms|, d)
  {
    var w := Run(New(deadline), before);
    RunIsSound(deadline, before);
    if NoneOlder(w, d) {
      forall script ensures OnlyLater(Run(w, script).log, |w.log|, |w.core.rearms|, d) {
        FencedThroughout(w, d, script);
      }
    } else {
      var r: nat :| r < |w.core.rearms| && w.core.rearms[r].Some? && w.core.rearms[r].value < d;
      var script, t, now := OlderOvertakes(w, d, r);
      NotOnlyLater(w.log, d, r, |w.core.rearms|, w.core.rearms[r].value, t, now);
      assert !OnlyLater(Run(w, script).log, |w.log|, |w.core.rearms|, d);
    }
  }

  const CROSSED := [Ask(1, true), Ask(10, true), Commit(1), Commit(0), Start, Tick, Check(0)]

  lemma CrossedPrefix(n: nat)
    requires n < |CROSSED|
    ensures var w := Run(New(None), CROSSED[..n]);
            Run(New(None), CROSSED[..n + 1]) == if Enabled(w.core, CROSSED[n]) then Step(w, CROSSED[n]) else w
  {
    assert CROSSED[..n + 1][..n] == CROSSED[..n];
  }

  lemma CrossedAsked()
    ensures Run(New(None), CROSSED[..2]) == World(Core(State(None, false), 0, [], None, [Some(1), Some(10)]), [])
  {
    CrossedPrefix(0);
    CrossedPrefix(1);
    assert Run(New(None), CROSSED[..1]).core.rearms == [Some(1)];
  }

  lemma CrossedCommitted()
    ensures Run(New(None), CROSSED[..4]) ==
            World(Core(State(Some(1), false), 0, [], None, [None, None]),
                  [Installed(10, Some(1)), Installed(1, Some(0))])
  {
    CrossedAsked();
    CrossedPrefix(2);
    assert Run(New(None), CROSSED[..3]) ==
           World(Core(State(Some(10), false), 0, [], None, [Some(1), None]), [Installed(10, Some(1))]);
    CrossedPrefix(3);
  }

  lemma CrossedWaited()
    ensures Run(New(None), CROSSED[..6]) ==
            World(Core(State(Some(1), false), 1, [Watching], Some(0), [None, None]),
                  [Installed(10, Some(1)), Installed(1, Some(0))])
  {
    CrossedCommitted();
    CrossedPrefix(4);
    CrossedPrefix(5);
  }

  /** Two rearms that cross: the first, asked for one second, is committed after the second, accepted until ten. */
  lemma CrossedRearms()
    ensures Run(New(None), CROSSED).log == [Installed(10, Some(1)), Installed(1, Some(0)), Decided(0, 1)]
  {
    CrossedWaited();
    CrossedPrefix(6);
    assert CROSSED[..7] == CROSSED;
  }

  // ---- The object ----

  datatype Request = Rearming(deadline: nat) | ShuttingDown

  /** What another thread's locked section does to the state. */
  function Served(s: State, r: Request): State {
    match r
    case Rearming(d) => if s.stopped then s else s.(deadline := Some(d))
    case ShuttingDown => s.(stopped := true)
  }

  function ServedAll(s: State, requests: seq<Request>): State {
    if requests == [] then s else Served(ServedAll(s, requests[..|requests| - 1]), requests[|requests| - 1])
  }

  /** What an action of a run does to the state under the lock, if anything. */
  function SectionOf(w: World, a: Action): seq<Request> {
    if !Enabled(w.core, a) then []
    else
      match a
      case Commit(r) => [Rearming(w.core.rearms[r].value)]
      case Stop => [ShuttingDown]
      case Check(_) => if Judge(w.core.state, w.core.now).Expire? then [ShuttingDown] else []
      case _ => []
  }

  function Sections(w: World, script: seq<Action>): seq<Request> {
    if script == [] then []
    else
      var front := script[..|script| - 1];
      Sections(w, front) + SectionOf(Run(w, front), script[|script| - 1])
  }

  lemma ServedMore(s: State, requests: seq<Request>, more: seq<Request>)
    requires |more| <= 1
    ensures ServedAll(s, requests + more) ==
            if more == [] then ServedAll(s, requests) else Served(ServedAll(s, requests), more[0])
  {
    if more == [] {
      assert requests + more == requests;
    } else {
      assert (requests + more)[..|requests|] == requests;
    }
  }

  lemma StepServes(w: World, a: Action)
    requires Enabled(w.core, a)
    ensures |SectionOf(w, a)| <= 1
    ensures Step(w, a).core.state ==
            if SectionOf(w, a) == [] then w.core.state else Served(w.core.state, SectionOf(w, a)[0])
  {
  }

  /** The state of a run is what its locked sections make of it, so other threads are a list of requests. */
  lemma {:induction false} RunServes(w: World, script: seq<Action>)
    ensures Run(w, script).core.state == ServedAll(w.core.state, Sections(w, script))
  {
    if script != [] {
      var front, a := script[..|script| - 1], script[|script| - 1];
      var v := Run(w, front);
      RunServes(w, front);
      if Enabled(v.core, a) { StepServes(v, a); }
      ServedMore(w.core.state, Sections(w, front), SectionOf(v, a));
    }
  }

  /** A rearm still waiting for the lock stays there until its own commit. */
  lemma {:induction false} RearmWaits(w: World, script: seq<Action>, r: nat)
    requires r < |w.core.rearms| && Commit(r) !in script
    ensures r < |Run(w, script).core.rearms| && Run(w, script).core.rearms[r] == w.core.rearms[r]
  {
    if script != [] {
      assert script[|script| - 1] in script;
      RearmWaits(w, script[..|script| - 1], r);
    }
  }

  /** `Rearm` below is the two steps of a rearm with whatever the other threads do in between. */
  lemma RearmIsARun(w: World, secs: nat, others: seq<Action>)
    requires 1 <= secs <= MAX_SECS && Commit(|w.core.rearms|) !in others
    ensures var r, asked := |w.core.rearms|, Step(w, Ask(secs, true));
            var s := ServedAll(w.core.state, Sections(asked, others));
            && Enabled(Run(asked, others).core, Commit(r))
            && Step(Run(asked, others), Commit(r)).core.state ==
               if s.stopped then s else State(Some(w.core.now + secs), false)
  {
    var asked := Step(w, Ask(secs, true));
    RearmWaits(asked, others, |w.core.rearms|);
    RunServes(asked, others);
  }

  /** One wait of the timer: what others did under the lock meanwhile, and the time at waking. */
  datatype Wake = Wake(requests: seq<Request>, now: nat)

  /** The state after the waits of a timer that slept through the first `n` wakes. */
  function Slept(s: State, wakes: seq<Wake>, n: nat): State
    requires n <= |wakes|
  {
    if n == 0 then s else ServedAll(Slept(s, wakes, n - 1), wakes[n - 1].requests)
  }

  /** The world after `n` sleeps of a timer during which the other threads ran `others`. */
  function Rounds(w: World, others: seq<seq<Action>>, n: nat): World
    requires n <= |others|
  {
    if n == 0 then w else Run(Rounds(w, others, n - 1), others[n - 1])
  }

  /** Wake `k` is what the others did under the lock during that sleep, and the time after it. */
  predicate IsWake(w: World, others: seq<seq<Action>>, wakes: seq<Wake>, k: nat)
    requires k < |others| == |wakes|
  {
    wakes[k] == Wake(Sections(Rounds(w, others, k), others[k]), Rounds(w, others, k + 1).core.now)
  }

  /** The timer checks before each sleep. */
  function TimerScript(t: nat, others: seq<seq<Action>>, n: nat): seq<Action>
    requires n <= |others|
  {
    if n == 0 then [] else TimerScript(t, others, n - 1) + ([Check(t)] + others[n - 1])
  }

  predicate NotOf(t: nat, script: seq<Action>) {
    Check(t) !in script && Call(t) !in script
  }

  /** Nobody else takes the timer's steps during sleep `k`. */
  predicate SleepsAside(t: nat, others: seq<seq<Action>>, k: nat)
    requires k < |others|
  {
    NotOf(t, others[k])
  }

  lemma {:induction false} TimerWaits(w: World, script: seq<Action>, t: nat)
    requires t < |w.core.timers| && NotOf(t, script)
    ensures t < |Run(w, script).core.timers| && Run(w, script).core.timers[t] == w.core.timers[t]
  {
    if script != [] {
      assert script[|script| - 1] in script;
      TimerWaits(w, script[..|script| - 1], t);
    }
  }

  lemma {:induction false} RunInParts(w: World, a: seq<Action>, b: seq<Action>)
    ensures Run(w, a + b) == Run(Run(w, a), b)
  {
    if b == [] {
      assert a + b == a;
    } else {
      RunInParts(w, a, b[..|b| - 1]);
      assert (a + b)[..|a + b| - 1] == a + b[..|b| - 1];
    }
  }

  /** A check that tells the timer to sleep changes nothing, and while it sleeps the others run. */
  lemma OneSleep(w: World, t: nat, script: seq<Action>)
    requires t < |w.core.timers| && w.core.timers[t].Watching? && Judge(w.core.state, w.core.now).Sleep?
    requires NotOf(t, script)
    ensures var v := Run(w, script);
            && Run(w, [Check(t)] + script) == v
            && t < |v.core.timers| && v.core.timers[t].Watching?
  {
    assert [Check(t)][..0] == [];
    assert Run(w, []) == w && Enabled(w.core, Check(t));
    RunInParts(w, [Check(t)], script);
    TimerWaits(w, script, t);
  }

  /** When the timer makes its check number `n`, going by its wakes. */
  function TimeAt(now: nat, wakes: seq<Wake>, n: nat): nat
    requires n <= |wakes|
  {
    if n == 0 then now else wakes[n - 1].now
  }

  predicate Sleeps(s: State, now: nat, wakes: seq<Wake>, k: nat)
    requires k <= |wakes|
  {
    Judge(Slept(s, wakes, k), TimeAt(now, wakes, k)).Sleep?
  }

  /** The wakes give the state and the time after each sleep. */
  lemma {:induction false} RoundsSleep(w: World, others: seq<seq<Action>>, wakes: seq<Wake>, n: nat)
    requires n <= |others| == |wakes| && forall k :: 0 <= k < n ==> IsWake(w, others, wakes, k)
    ensures Rounds(w, others, n).core.state == Slept(w.core.state, wakes, n)
    ensures Rounds(w, others, n).core.now == TimeAt(w.core.now, wakes, n)
  {
    if n > 0 {
      RoundsSleep(w, others, wakes, n - 1);
      RunServes(Rounds(w, others, n - 1), others[n - 1]);
      assert IsWake(w, others, wakes, n - 1);
    }
  }

  /**
   `Timer` below is a timer thread in a run: while each of its checks tells it to sleep, the state
   and the time at its next check are those that its wakes give, and so is what that check decides.
   */
  lemma {:induction false} TimerIsARun(w: World, t: nat, others: seq<seq<Action>>, wakes: seq<Wake>, n: nat)
    requires n <= |others| == |wakes| && t < |w.core.timers| && w.core.timers[t].Watching?
    requires forall k :: 0 <= k < n ==> SleepsAside(t, others, k)
    requires forall k :: 0 <= k < n ==> IsWake(w, others, wakes, k)
    requires forall k :: 0 <= k < n ==> Sleeps(w.core.state, w.core.now, wakes, k)
    ensures var v := Run(w, TimerScript(t, others, n));
            && v == Rounds(w, others, n) && v.core.state == Slept(w.core.state, wakes, n)
            && v.core.now == TimeAt(w.core.now, wakes, n)
            && t < |v.core.timers| && v.core.timers[t].Watching?
  {
    RoundsSleep(w, others, wakes, n);
    if n > 0 {
      TimerIsARun(w, t, others, wakes, n - 1);
      assert SleepsAside(t, others, n - 1) && Sleeps(w.core.state, w.core.now, wakes, n - 1);
      NextRound(w, t, others, wakes, n);
    }
  }

  lemma NextRound(w: World, t: nat, others: seq<seq<Action>>, wakes: seq<Wake>, n: nat)
    requires 0 < n <= |others| == |wakes| && NotOf(t, others[n - 1])
    requires Sleeps(w.core.state, w.core.now, wakes, n - 1)
    requires var v := Run(w, TimerScript(t, others, n - 1));
             && v == Rounds(w, others, n - 1) && v.core.state == Slept(w.core.state, wakes, n - 1)
             && v.core.now == TimeAt(w.core.now, wakes, n - 1)
             && t < |v.core.timers| && v.core.timers[t].Watching?
    ensures var v := Run(w, TimerScript(t, others, n));
            v == Rounds(w, others, n) && t < |v.core.timers| && v.core.timers[t].Watching?
  {
    OneSleep(Rounds(w, others, n - 1), t, others[n - 1]);
    RunInParts(w, TimerScript(t, others, n - 1), [Check(t)] + others[n - 1]);
  }

  class OwnerWatchdog {
    var deadline: Option<nat>
    var stopped: bool

    function View(): State reads this { State(deadline, stopped) }

    constructor (deadline: Option<nat>)
      ensures View() == State(deadline, false)
    {
      this.deadline, stopped := deadline, false;
    }

    /** A rearm is accepted if and only if it is in range and its commit finds the watchdog running. */
    method Rearm(secs: nat, asked: nat, representable: bool, meanwhile: seq<Request>) returns (until: Option<nat>)
      modifies this
      ensures until == if 1 <= secs <= MAX_SECS && representable && !ServedAll(old(View()), meanwhile).stopped
                       then Some(asked + secs) else None
      ensures until.Some? ==> View() == State(until, false)
      ensures until.None? ==> View() == if 1 <= secs <= MAX_SECS && representable
                                        then ServedAll(old(View()), meanwhile) else old(View())
    {
      if !(1 <= secs <= MAX_SECS) || !representable {
        return None;
      }
      var d := asked + secs;
      Others(meanwhile);
      if stopped {
        return None;
      }
      deadline := Some(d);
      until := Some(d);
    }

    method ShutDown()
      modifies this`stopped
      ensures View() == Served(old(View()), ShuttingDown)
    {
      stopped := true;
    }

    /** Sections of other threads, one at a time. */
    method Others(requests: seq<Request>)
      modifies this
      ensures View() == ServedAll(old(View()), requests)
    {
      for i := 0 to |requests|
        invariant View() == ServedAll(old(View()), requests[..i])
      {
        assert requests[..i + 1][..i] == requests[..i];
        match requests[i] {
          case Rearming(d) => if !stopped { deadline := Some(d); }
          case ShuttingDown => ShutDown();
        }
      }
      assert requests[..|requests|] == requests;
    }

    /**
     The timer thread from `now` on. It calls back at the first wake that finds the watchdog
     running past its deadline, and only then; it leaves at the first that finds it stopped.
     */
    method Timer(now: nat, wakes: seq<Wake>) returns (fired: bool, left: bool, n: nat)
      modifies this
      ensures n <= |wakes| && !(fired && left) && (!fired && !left ==> n == |wakes|)
      ensures var s := Slept(old(View()), wakes, n);
              var time := TimeAt(now, wakes, n);
              && (fired <==> Judge(s, time).Expire?) && (left <==> Judge(s, time).Leave?)
              && View() == if fired then s.(stopped := true) else s
      ensures forall k :: 0 <= k < n ==> Sleeps(old(View()), now, wakes, k)
    {
      var time := now;
      n := 0;
      while !stopped
        invariant n <= |wakes| && View() == Slept(old(View()), wakes, n)
        invariant time == TimeAt(now, wakes, n)
        invariant forall k :: 0 <= k < n ==> Sleeps(old(View()), now, wakes, k)
        decreases |wakes| - n
      {
        if deadline.Some? && deadline.value <= time {
          stopped := true;
          return true, false, n;
        }
        if n == |wakes| {
          return false, false, n;
        }
        Others(wakes[n].requests);
        time := wakes[n].now;
        n := n + 1;
      }
      fired, left := false, true;
    }
  }
}
