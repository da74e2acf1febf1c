/** The schedule of a wave: every index is fired by exactly one lane, once. */
module OpenLoopSchedule {
  import opened Basics
  import opened OpenLoop
  import opened OpenLoopRuns

  /** The indices below `count` that belong to `lane`, in order. */
  function Indices(lane: nat, lanes: nat, count: nat): seq<nat>
    requires lanes > 0
  {
    if count == 0 then []
    else Indices(lane, lanes, count - 1) + (if (count - 1) % lanes == lane then [count - 1] else [])
  }

  /** An index is in the share of the lane it is congruent to, and in no other. */
  lemma {:induction false} Partition(lane: nat, lanes: nat, count: nat, i: nat)
    requires lanes > 0
    ensures i in Indices(lane, lanes, count) <==> i < count && i % lanes == lane
  {
    if count > 0 { Partition(lane, lanes, count - 1, i); }
  }

  predicate Rising(s: seq<nat>, bound: nat) {
    (forall i :: 0 <= i < |s| ==> s[i] < bound) && forall i, j :: 0 <= i < j < |s| ==> s[i] < s[j]
  }

  lemma {:induction false} Ascending(lane: nat, lanes: nat, count: nat)
    requires lanes > 0
    ensures Rising(Indices(lane, lanes, count), count)
  {
    if count > 0 {
      Ascending(lane, lanes, count - 1);
      var less := Indices(lane, lanes, count - 1);
      assert Rising(less + [count - 1], count);
      assert less + [] == less;
    }
  }

  lemma Apart(c: nat, k: nat, n: nat)
    requires 0 < k < n
    ensures (c + k) % n != c % n && (c + n) % n == c % n
  {
    var q, r := c / n, c % n;
    var d, m := (c + k) / n, (c + k) % n;
    assert q * n + r + k == d * n + m;
    if r + k < n {
      SameQuotient(n, q, r + k, d, m);
    } else {
      assert (q + 1) * n + (r + k - n) == d * n + m;
      SameQuotient(n, q + 1, r + k - n, d, m);
    }
    assert (q + 1) * n + r == (c + n) / n * n + (c + n) % n;
    SameQuotient(n, q + 1, r, (c + n) / n, (c + n) % n);
  }

  lemma {:induction false} Stride(lane: nat, lanes: nat, c: nat, k: nat)
    requires 0 < k <= lanes && c % lanes == lane
    ensures Indices(lane, lanes, c + k) == Indices(lane, lanes, c) + [c]
  {
    if k > 1 {
      Stride(lane, lanes, c, k - 1);
      Apart(c, k - 1, lanes);
      assert Indices(lane, lanes, c + k) == Indices(lane, lanes, c + (k - 1)) + [];
    }
  }

  lemma NextTurn(c: nat, lanes: nat)
    requires lanes > 0
    ensures (c + lanes) % lanes == c % lanes
  {
    if lanes > 1 { Apart(c, 1, lanes); }
  }

  /** Nothing of the lane lies from `count` on if all it has up to `c` is below. */
  lemma {:induction false} NoneBeyond(lane: nat, lanes: nat, count: nat, c: nat)
    requires lanes > 0 && count <= c && forall i <- Indices(lane, lanes, c) :: i < count
    ensures Indices(lane, lanes, c) == Indices(lane, lanes, count)
  {
    if count < c {
      Partition(lane, lanes, c, c - 1);
      assert (c - 1) % lanes != lane;
      var less := Indices(lane, lanes, c - 1);
      assert less + [] == less;
      NoneBeyond(lane, lanes, count, c - 1);
    }
  }

  lemma {:induction false} BelowLane(lane: nat, lanes: nat, c: nat)
    requires lane < lanes && c <= lane
    ensures Indices(lane, lanes, c) == []
  {
    if c > 0 {
      BelowLane(lane, lanes, c - 1);
      assert (c - 1) % lanes == c - 1 by { SameQuotient(lanes, 0, c - 1, (c - 1) / lanes, (c - 1) % lanes); }
    }
  }

  /** Stepping through a lane's indices visits its share of the schedule. */
  method LaneIndices(lane: nat, lanes: nat, count: nat) returns (indices: seq<nat>)
    requires lane < lanes
    ensures indices == Indices(lane, lanes, count)
  {
    indices := [];
    var i := lane;
    BelowLane(lane, lanes, lane);
    LaneItself(lane, lanes);
    while i < count
      invariant indices == Indices(lane, lanes, i) && i % lanes == lane
      invariant forall k <- indices :: k < count
      decreases count - i
    {
      Stride(lane, lanes, i, lanes);
      NextTurn(i, lanes);
      indices := indices + [i];
      i := i + lanes;
    }
    NoneBeyond(lane, lanes, count, i);
  }

  lemma LaneItself(lane: nat, lanes: nat)
    requires lane < lanes
    ensures lane % lanes == lane
  {
    SameQuotient(lanes, 0, lane, lane / lanes, lane % lanes);
  }

  // ---- The lanes together own the whole schedule ----

  function Owned(k: nat, lanes: nat, count: nat): nat
    requires lanes > 0
  {
    if k == 0 then 0 else Owned(k - 1, lanes, count) + |Indices(k - 1, lanes, count)|
  }

  lemma {:induction false} OwnedStep(k: nat, lanes: nat, count: nat)
    requires lanes > 0
    ensures Owned(k, lanes, count + 1) == Owned(k, lanes, count) + One(count % lanes < k)
  {
    if k > 0 { OwnedStep(k - 1, lanes, count); }
  }

  lemma {:induction false} OwnedNone(k: nat, lanes: nat)
    requires lanes > 0
    ensures Owned(k, lanes, 0) == 0
  {
    if k > 0 { OwnedNone(k - 1, lanes); }
  }

  lemma {:induction false} OwnedAll(lanes: nat, count: nat)
    requires lanes > 0
    ensures Owned(lanes, lanes, count) == count
  {
    if count == 0 {
      OwnedNone(lanes, lanes);
    } else {
      OwnedAll(lanes, count - 1);
      OwnedStep(lanes, lanes, count - 1);
    }
  }

  // ---- Runs ----

  predicate OnSchedule(l: Lane, lane: nat, plan: Plan) {
    && plan.lanes > 0 && l.next % plan.lanes == lane && l.fired == Indices(lane, plan.lanes, l.next)
    && forall i <- l.fired :: i < plan.count
  }

  ghost predicate AllOnSchedule(w: Wave) {
    w.plan.lanes > 0 && forall i :: 0 <= i < |w.lanes| ==> OnSchedule(w.lanes[i], i, w.plan)
  }

  lemma ScheduleKeeps(w: Wave, on: On)
    requires AllOnSchedule(w) && CanStep(w, on)
    ensures AllOnSchedule(WaveStep(w, on))
  {
    var l := w.lanes[on.lane];
    assert OnSchedule(l, on.lane, w.plan);
    if on.action.Fire? {
      Stride(on.lane, w.plan.lanes, l.next, w.plan.lanes);
      NextTurn(l.next, w.plan.lanes);
    }
    var next := WaveStep(w, on);
    assert OnSchedule(next.lanes[on.lane], on.lane, w.plan);
    forall i | 0 <= i < |next.lanes| ensures OnSchedule(next.lanes[i], i, next.plan) {
      assert OnSchedule(w.lanes[i], i, w.plan);
    }
  }

  lemma {:induction false} RunKeepsSchedule(batch: bool, channels: nat, count: nat, script: seq<On>)
    ensures var w := Run(batch, channels, count, script);
            AllOnSchedule(w) && |w.lanes| == channels && w.plan == Begin(batch, channels, count).plan
  {
    if script == [] {
      var w := Begin(batch, channels, count);
      forall i | 0 <= i < |w.lanes| ensures OnSchedule(w.lanes[i], i, w.plan) {
        LaneItself(i, w.plan.lanes);
        BelowLane(i, w.plan.lanes, i);
      }
    } else {
      var n := |script| - 1;
      RunKeepsSchedule(batch, channels, count, script[..n]);
      var w := Run(batch, channels, count, script[..n]);
      if CanStep(w, script[n]) { ScheduleKeeps(w, script[n]); }
    }
  }

  /** No lane fires an index that another one fires, or one beyond the plan;
    in a finished unary wave none is missing. */
  lemma EachIndexHasOneLane(batch: bool, channels: nat, count: nat, script: seq<On>, i: nat, lane: nat)
    requires lane < channels
    ensures var w := Run(batch, channels, count, script);
            && lane < |w.lanes|
            && (i in w.lanes[lane].fired ==> i < count && i % channels == lane)
            && (!batch && WaveDone(w) ==> (i in w.lanes[lane].fired <==> i < count && i % channels == lane))
            && (forall j, k :: 0 <= j < k < |w.lanes[lane].fired| ==> w.lanes[lane].fired[j] < w.lanes[lane].fired[k])
  {
    var w := Run(batch, channels, count, script);
    RunKeepsSchedule(batch, channels, count, script);
    RunIsSound(batch, channels, count, script);
    var l := w.lanes[lane];
    assert OnSchedule(l, lane, w.plan) && LaneSound(l, w.plan);
    Partition(lane, channels, l.next, i);
    Ascending(lane, channels, l.next);
    if !batch && WaveDone(w) {
      assert LaneDone(l, w.plan);
      UnaryLaneFiresAll(w, lane);
      Partition(lane, channels, count, i);
    }
  }

  lemma UnaryLaneFiresAll(w: Wave, lane: nat)
    requires AllOnSchedule(w) && WaveSound(w) && WaveDone(w) && !w.plan.batch && lane < |w.lanes|
    ensures w.lanes[lane].fired == Indices(lane, w.plan.lanes, w.plan.count)
  {
    var l := w.lanes[lane];
    assert OnSchedule(l, lane, w.plan) && LaneSound(l, w.plan) && LaneDone(l, w.plan);
    NoneBeyond(lane, w.plan.lanes, w.plan.count, l.next);
  }

  lemma {:induction false} OfferedIsOwned(w: Wave, n: nat)
    requires AllOnSchedule(w) && WaveSound(w) && WaveDone(w) && !w.plan.batch && n <= |w.lanes|
    ensures Shares(w.lanes, n).offered == Owned(n, w.plan.lanes, w.plan.count)
  {
    if n > 0 {
      OfferedIsOwned(w, n - 1);
      UnaryLaneFiresAll(w, n - 1);
      assert LaneSound(w.lanes[n - 1], w.plan);
    }
  }

  /** A finished unary wave has fired the whole plan, unless it had no channel: then it fired nothing. */
  lemma UnaryWaveFiresThePlan(channels: nat, count: nat, script: seq<On>)
    requires WaveDone(Run(false, channels, count, script))
    ensures Run(false, channels, count, script).gauges.offered == if channels == 0 then 0 else count
  {
    var w := Run(false, channels, count, script);
    RunKeepsSchedule(false, channels, count, script);
    RunIsSound(false, channels, count, script);
    OfferedIsOwned(w, channels);
    if channels > 0 { OwnedAll(channels, count); }
  }
}
