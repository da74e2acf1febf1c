/**
 Resumable event delivery: the Go client's `watch` and the command line's `follow_call_logs`.

 The server keeps a durable log with strictly increasing sequence numbers. A stream opened
 after a cursor may break at any point and may repeat entries, but never skips one: before an
 entry arrives, every log entry between the cursor and it has arrived on the same stream.
 */
module EventWatch {
  import opened Basics

  datatype Status = Active | Succeeded | Failed | Cancelled

  datatype Payload = Status(status: Status) | Log(data: seq<byte>) | Other

  datatype Event = Event(sequence: nat, payload: Payload)

  predicate Terminal(e: Event) {
    e.payload.Status? && !e.payload.status.Active?
  }

  function Output(e: Event): seq<byte> {
    if e.payload.Log? then e.payload.data else []
  }

  predicate Increasing(log: seq<Event>) {
    forall i, j :: 0 <= i < j < |log| ==> log[i].sequence < log[j].sequence
  }

  predicate NoSkip(log: seq<Event>, cursor: nat, messages: seq<Event>) {
    && (forall m <- messages :: m in log)
    && (forall k, e ::
          0 <= k < |messages| && e in log && cursor < e.sequence < messages[k].sequence ==> e in messages[..k])
  }

  predicate Covers(log: seq<Event>, cursor: nat, n: nat) {
    n <= |log| && forall i :: 0 <= i < |log| ==> (i < n <==> log[i].sequence <= cursor)
  }

  lemma {:induction false} SomeCovered(log: seq<Event>, cursor: nat, n: nat)
    requires Increasing(log) && n <= |log| && forall i :: n <= i < |log| ==> cursor < log[i].sequence
    ensures exists c :: Covers(log, cursor, c)
  {
    if n == 0 || log[n - 1].sequence <= cursor {
      assert Covers(log, cursor, n);
    } else {
      SomeCovered(log, cursor, n - 1);
    }
  }

  /** How many log entries a cursor covers. */
  ghost function Covered(log: seq<Event>, cursor: nat): (c: nat)
    requires Increasing(log)
    ensures Covers(log, cursor, c)
  {
    SomeCovered(log, cursor, |log|);
    var c :| Covers(log, cursor, c);
    c
  }

  /** A stream that sends a contiguous run of the log, from any point at or before the cursor, never skips. */
  lemma RunNeverSkips(log: seq<Event>, cursor: nat, from: nat, to: nat)
    requires Increasing(log) && from <= to <= |log| && from <= Covered(log, cursor)
    ensures NoSkip(log, cursor, log[from..to])
  {
    var run := log[from..to];
    forall k, e | 0 <= k < |run| && e in log && cursor < e.sequence < run[k].sequence ensures e in run[..k] {
      var i :| 0 <= i < |log| && log[i] == e;
      assert run[k] == log[from + k];
      assert from <= i < from + k;
      assert run[..k][i - from] == e;
    }
  }

  /** `delivered` is the stretch of the log right after `after`, and `cursor` covers exactly through it. */
  ghost predicate Stretch(log: seq<Event>, after: nat, cursor: nat, delivered: seq<Event>)
    requires Increasing(log)
  {
    && after <= cursor
    && Covered(log, after) + |delivered| == Covered(log, cursor)
    && delivered == log[Covered(log, after)..Covered(log, cursor)]
  }

  predicate Quiet(delivered: seq<Event>) {
    forall i :: 0 <= i < |delivered| ==> !Terminal(delivered[i])
  }

  predicate EndsAtTerminal(delivered: seq<Event>) {
    delivered == [] || Quiet(delivered[..|delivered| - 1])
  }

  /** The next entry above the cursor on a stream that never skips is the next entry of the log. */
  lemma AcceptExtends(log: seq<Event>, after: nat, since: nat, cursor: nat, messages: seq<Event>, k: nat,
                      delivered: seq<Event>)
    requires Increasing(log) && NoSkip(log, since, messages) && k < |messages| && since <= cursor
    requires forall j :: 0 <= j < k ==> messages[j].sequence <= cursor
    requires Stretch(log, after, cursor, delivered) && messages[k].sequence > cursor
    ensures Stretch(log, after, messages[k].sequence, delivered + [messages[k]])
  {
    var next, m := Covered(log, cursor), messages[k];
    assert m in messages;
    var i :| 0 <= i < |log| && log[i] == m;
    assert next <= i && log[next] !in messages[..k];
    assert next == i;
    CoveredThrough(log, next);
    assert log[Covered(log, after)..next + 1] == log[Covered(log, after)..next] + [log[next]];
  }

  lemma CoveredThrough(log: seq<Event>, i: nat)
    requires Increasing(log) && i < |log|
    ensures Covered(log, log[i].sequence) == i + 1
  {
    var c := Covered(log, log[i].sequence);
    assert i < c;
    assert i + 1 < |log| ==> log[i].sequence < log[i + 1].sequence;
  }

  // ---- Runs of the environment ----

  datatype Ending = NoEndpoint | Eof | Transport | Refused

  /**
   One attempt to watch: what the stream brought and how it ended. `goneAt` is the message
   whose delivery loses the race against the context's end; `cancelled` is that end seen later.
   */
  datatype Attempt = Attempt(messages: seq<Event>, goneAt: Option<nat>, ending: Ending, cancelled: bool)

  /** The cursor once the first `k` messages of a stream opened at `since` have been taken in. */
  ghost function CursorAfter(since: nat, messages: seq<Event>, k: nat): nat
    requires k <= |messages|
  {
    if k == 0 then since
    else
      var before, last := CursorAfter(since, messages, k - 1), messages[k - 1].sequence;
      if last <= before then before else last
  }

  ghost function CursorOver(since: nat, attempt: Attempt): nat {
    CursorAfter(since, attempt.messages, |attempt.messages|)
  }

  /** The cursor once the first `i` attempts have been taken in. */
  ghost function CursorAt(after: nat, attempts: seq<Attempt>, i: nat): nat
    requires i <= |attempts|
  {
    if i == 0 then after else CursorOver(CursorAt(after, attempts, i - 1), attempts[i - 1])
  }

  /** A place in a run: `k` messages into attempt `i`, or the end. */
  predicate Within(attempts: seq<Attempt>, i: nat, k: nat) {
    i <= |attempts| && if i == |attempts| then k == 0 else k <= |attempts[i].messages|
  }

  /** The cursor at that place: every message that arrived before it is covered. */
  ghost function Position(after: nat, attempts: seq<Attempt>, i: nat, k: nat): nat
    requires Within(attempts, i, k)
  {
    if i == |attempts| then CursorAt(after, attempts, i)
    else CursorAfter(CursorAt(after, attempts, i), attempts[i].messages, k)
  }

  /** Every stream from attempt `i` on is opened at the client's cursor and never skips. */
  ghost predicate Honest(log: seq<Event>, cursor: nat, attempts: seq<Attempt>, i: nat)
    requires i <= |attempts|
    decreases |attempts| - i
  {
    i == |attempts| ||
    (NoSkip(log, cursor, attempts[i].messages) && Honest(log, CursorOver(cursor, attempts[i]), attempts, i + 1))
  }

  /** The first `k` messages of a stream opened at `since` are taken in, none of them terminal. */
  ghost predicate Taken(log: seq<Event>, after: nat, since: nat, messages: seq<Event>, k: nat, cursor: nat,
                        delivered: seq<Event>)
  {
    && Increasing(log) && NoSkip(log, since, messages) && k <= |messages| && since <= cursor
    && Stretch(log, after, cursor, delivered) && Quiet(delivered)
    && cursor == CursorAfter(since, messages, k)
    && forall j :: 0 <= j < k ==> messages[j].sequence <= cursor
  }

  lemma TakeNext(log: seq<Event>, after: nat, since: nat, messages: seq<Event>, k: nat, cursor: nat,
                 delivered: seq<Event>)
    requires Taken(log, after, since, messages, k, cursor, delivered) && k < |messages|
    ensures var m := messages[k];
            if m.sequence <= cursor then Taken(log, after, since, messages, k + 1, cursor, delivered)
            else
              && Stretch(log, after, m.sequence, delivered + [m]) && EndsAtTerminal(delivered + [m])
              && m.sequence == CursorAfter(since, messages, k + 1)
              && (!Terminal(m) ==> Taken(log, after, since, messages, k + 1, m.sequence, delivered + [m]))
  {
    var m := messages[k];
    if m.sequence > cursor {
      AcceptExtends(log, after, since, cursor, messages, k, delivered);
      assert (delivered + [m])[..|delivered|] == delivered;
    }
  }

  datatype Watched = Finished | Drained | Failure | Watching

  /** The context did not end while one of the first `k` messages was being delivered. */
  ghost predicate Unraced(attempt: Attempt, since: nat, k: nat)
    requires k <= |attempt.messages|
  {
    attempt.goneAt.Some? && attempt.goneAt.value < k ==>
      attempt.messages[attempt.goneAt.value].sequence <= CursorAfter(since, attempt.messages, attempt.goneAt.value)
  }

  /** Message `k` is new, and delivering it loses against the end of the context. */
  ghost predicate LosesRace(attempt: Attempt, since: nat, k: nat)
    requires k <= |attempt.messages|
  {
    && attempt.goneAt == Some(k) && k < |attempt.messages|
    && attempt.messages[k].sequence > CursorAfter(since, attempt.messages, k)
  }

  /** The last of the first `k` messages is a new terminal status. */
  ghost predicate JustFinished(messages: seq<Event>, since: nat, k: nat)
    requires k <= |messages|
  {
    0 < k && Terminal(messages[k - 1]) && messages[k - 1].sequence > CursorAfter(since, messages, k - 1)
  }

  /**
   The messages of one stream. `stopped` when the watch ends here, with the result in `how`;
   otherwise all of them were taken in.
   */
  method Consume(cursor0: nat, attempt: Attempt, delivered0: seq<Event>, ghost log: seq<Event>, ghost after: nat)
    returns (cursor: nat, delivered: seq<Event>, stopped: bool, how: Watched, ghost k: nat)
    requires Increasing(log) && NoSkip(log, cursor0, attempt.messages)
    requires Stretch(log, after, cursor0, delivered0) && Quiet(delivered0)
    ensures k <= |attempt.messages| && cursor == CursorAfter(cursor0, attempt.messages, k)
    ensures Stretch(log, after, cursor, delivered) && Unraced(attempt, cursor0, k)
    ensures !stopped ==> k == |attempt.messages| && Quiet(delivered) && how.Watching?
    ensures stopped ==> how.Finished? || how.Failure?
    ensures how.Failure? ==> LosesRace(attempt, cursor0, k) && Quiet(delivered)
    ensures how.Finished? ==> JustFinished(attempt.messages, cursor0, k) && EndsAtTerminal(delivered)
                              && delivered != [] && delivered[|delivered| - 1] == attempt.messages[k - 1]
  {
    cursor, delivered, stopped, how := cursor0, delivered0, false, Watching;
    var n := 0;
    while n < |attempt.messages|
      invariant !stopped && how.Watching? && Taken(log, after, cursor0, attempt.messages, n, cursor, delivered)
      invariant Unraced(attempt, cursor0, n)
    {
      var event := attempt.messages[n];
      TakeNext(log, after, cursor0, attempt.messages, n, cursor, delivered);
      if event.sequence > cursor {
        if attempt.goneAt == Some(n) {
          return cursor, delivered, true, Failure, n;
        }
        cursor := event.sequence;
        delivered := delivered + [event];
        if Terminal(event) {
          return cursor, delivered, true, Finished, n + 1;
        }
      }
      n := n + 1;
    }
    k := n;
  }

  /** After this attempt the watch starts another one. */
  ghost predicate GoesOn(attempt: Attempt, follow: bool, since: nat) {
    && !attempt.ending.NoEndpoint? && !attempt.ending.Refused? && !(attempt.ending.Eof? && !follow)
    && !attempt.cancelled && Unraced(attempt, since, |attempt.messages|)
  }

  ghost predicate AllGoOn(after: nat, follow: bool, attempts: seq<Attempt>, n: nat)
    requires n <= |attempts|
  {
    n == 0 || (AllGoOn(after, follow, attempts, n - 1)
               && GoesOn(attempts[n - 1], follow, CursorAt(after, attempts, n - 1)))
  }

  /** Why a watch goes no further than `k` messages of this attempt. */
  ghost predicate Stops(attempt: Attempt, follow: bool, since: nat, k: nat, how: Watched)
    requires k <= |attempt.messages|
  {
    match how
    case Watching => false
    case Finished => !attempt.ending.NoEndpoint? && JustFinished(attempt.messages, since, k)
    case Drained => k == |attempt.messages| && attempt.ending.Eof? && !follow
    case Failure =>
      || (k == 0 && attempt.ending.NoEndpoint?)
      || (!attempt.ending.NoEndpoint? && LosesRace(attempt, since, k))
      || (k == |attempt.messages|
          && (attempt.ending.Refused? || (attempt.cancelled && !(attempt.ending.Eof? && !follow))))
  }

  /** One attempt: the watch stops in it, or takes all of it in and goes on. */
  method WatchOnce(cursor0: nat, follow: bool, attempt: Attempt, delivered0: seq<Event>, ghost log: seq<Event>,
                   ghost after: nat)
    returns (cursor: nat, delivered: seq<Event>, how: Watched, ghost k: nat)
    requires Increasing(log) && NoSkip(log, cursor0, attempt.messages)
    requires Stretch(log, after, cursor0, delivered0) && Quiet(delivered0)
    ensures k <= |attempt.messages| && cursor == CursorAfter(cursor0, attempt.messages, k)
    ensures Stretch(log, after, cursor, delivered) && EndsAtTerminal(delivered)
    ensures how.Finished? <==> delivered != [] && Terminal(delivered[|delivered| - 1])
    ensures !how.Finished? ==> Quiet(delivered)
    ensures if how.Watching? then k == |attempt.messages| && GoesOn(attempt, follow, cursor0)
            else Stops(attempt, follow, cursor0, k, how)
  {
    if attempt.ending.NoEndpoint? {
      return cursor0, delivered0, Failure, 0;
    }
    var stopped;
    cursor, delivered, stopped, how, k := Consume(cursor0, attempt, delivered0, log, after);
    if stopped {
      return;
    }
    if attempt.ending.Refused? {
      how := Failure;
    } else if !follow && attempt.ending.Eof? {
      how := Drained;
    } else if attempt.cancelled {
      how := Failure;
    }
  }

  /**
   For every run of the environment, what reaches the caller is the stretch of the log right
   after the initial cursor, once each and in order, through everything that arrived before the
   place where the watch stops: a terminal status, the first attempt that does not go on, or the
   end of the run.
   */
  method Watch(after: nat, follow: bool, attempts: seq<Attempt>, ghost log: seq<Event>)
    returns (delivered: seq<Event>, how: Watched, ghost i: nat, ghost k: nat)
    requires Increasing(log) && Honest(log, after, attempts, 0)
    ensures EndsAtTerminal(delivered)
    ensures how.Finished? <==> delivered != [] && Terminal(delivered[|delivered| - 1])
    ensures Within(attempts, i, k) && Stretch(log, after, Position(after, attempts, i, k), delivered)
    ensures if i == |attempts| then how.Watching?
            else Stops(attempts[i], follow, CursorAt(after, attempts, i), k, how)
    ensures AllGoOn(after, follow, attempts, i)
  {
    var cursor := after;
    delivered := [];
    for n := 0 to |attempts|
      invariant cursor == CursorAt(after, attempts, n) && Honest(log, cursor, attempts, n)
      invariant Stretch(log, after, cursor, delivered) && Quiet(delivered)
      invariant AllGoOn(after, follow, attempts, n)
    {
      cursor, delivered, how, k := WatchOnce(cursor, follow, attempts[n], delivered, log, after);
      if !how.Watching? {
        i := n;
        return;
      }
    }
    return delivered, Watching, |attempts|, 0;
  }

  // ---- The command line ----

  method AcceptEventSequence(afterSequence: nat, sequence: nat) returns (accepted: bool, now: nat)
    ensures accepted == (sequence > afterSequence)
    ensures now == if accepted then sequence else afterSequence
  {
    if sequence <= afterSequence {
      return false, afterSequence;
    }
    return true, sequence;
  }

  /** The output of log entries `from` up to `to`. */
  function Printed(log: seq<Event>, from: nat, to: nat): seq<byte>
    requires from <= to <= |log|
  {
    if from == to then [] else Printed(log, from, to - 1) + Output(log[to - 1])
  }

  lemma PrintNext(log: seq<Event>, cursor: nat, m: Event, delivered: seq<Event>)
    requires Increasing(log) && Stretch(log, 0, cursor, delivered) && Stretch(log, 0, m.sequence, delivered + [m])
    ensures Printed(log, Covered(log, 0), Covered(log, m.sequence))
         == Printed(log, Covered(log, 0), Covered(log, cursor)) + Output(m)
  {
    assert log[Covered(log, m.sequence) - 1] == (delivered + [m])[|delivered|];
  }

  /** The messages of one stream: log payloads are printed, a terminal status ends the command. */
  method PrintStream(cursor0: nat, messages: seq<Event>, printed0: seq<byte>, ghost delivered0: seq<Event>,
                     ghost log: seq<Event>)
    returns (cursor: nat, printed: seq<byte>, finished: bool, ghost delivered: seq<Event>, ghost k: nat)
    requires Increasing(log) && NoSkip(log, cursor0, messages) && Stretch(log, 0, cursor0, delivered0)
    requires Quiet(delivered0) && printed0 == Printed(log, Covered(log, 0), Covered(log, cursor0))
    ensures k <= |messages| && cursor == CursorAfter(cursor0, messages, k)
    ensures Stretch(log, 0, cursor, delivered) && EndsAtTerminal(delivered)
    ensures printed == Printed(log, Covered(log, 0), Covered(log, cursor))
    ensures finished <==> delivered != [] && Terminal(delivered[|delivered| - 1])
    ensures if finished then JustFinished(messages, cursor0, k) else k == |messages| && Quiet(delivered)
  {
    cursor, printed, finished, delivered := cursor0, printed0, false, delivered0;
    var n := 0;
    while n < |messages|
      invariant !finished && Taken(log, 0, cursor0, messages, n, cursor, delivered)
      invariant printed == Printed(log, Covered(log, 0), Covered(log, cursor))
    {
      var event := messages[n];
      TakeNext(log, 0, cursor0, messages, n, cursor, delivered);
      ghost var shown := Printed(log, Covered(log, 0), Covered(log, cursor));
      if event.sequence > cursor { PrintNext(log, cursor, event, delivered); }
      assert shown + [] == shown;
      var accepted;
      accepted, cursor := AcceptEventSequence(cursor, event.sequence);
      if accepted {
        delivered := delivered + [event];
        match event.payload {
          case Log(data) => printed := printed + data;
          case Status(status) =>
            if !status.Active? {
              return cursor, printed, true, delivered, n + 1;
            }
          case Other =>
        }
      }
      n := n + 1;
    }
    k := n;
  }

  /** The command opens the stream again after this ending. */
  predicate Reopens(ending: Ending, follow: bool) { follow && (ending.Eof? || ending.Transport?) }

  /** Why the command goes no further than `k` messages of this attempt. */
  ghost predicate CommandStops(attempt: Attempt, follow: bool, since: nat, k: nat, how: Watched)
    requires k <= |attempt.messages|
  {
    match how
    case Watching => false
    case Finished => JustFinished(attempt.messages, since, k)
    case Drained => k == |attempt.messages| && attempt.ending.Eof? && !follow
    case Failure => k == |attempt.messages| && !attempt.ending.Eof? && !Reopens(attempt.ending, follow)
  }

  /** Printed is the output of the log's start up to the cursor; it ends at the first terminal status, if `finished`. */
  ghost predicate PrintedThrough(log: seq<Event>, cursor: nat, printed: seq<byte>, finished: bool)
    requires Increasing(log)
  {
    var from, to := Covered(log, 0), Covered(log, cursor);
    && from <= to && printed == Printed(log, from, to) && EndsAtTerminal(log[from..to])
    && (finished <==> from < to && Terminal(log[to - 1]))
  }

  /** One attempt of the command. */
  method PrintOnce(cursor0: nat, follow: bool, attempt: Attempt, printed0: seq<byte>, ghost log: seq<Event>)
    returns (cursor: nat, printed: seq<byte>, how: Watched, ghost k: nat)
    requires Increasing(log) && NoSkip(log, cursor0, attempt.messages)
    requires PrintedThrough(log, cursor0, printed0, false)
    ensures k <= |attempt.messages| && cursor == CursorAfter(cursor0, attempt.messages, k)
    ensures PrintedThrough(log, cursor, printed, how.Finished?)
    ensures if how.Watching? then k == |attempt.messages| && Reopens(attempt.ending, follow)
            else CommandStops(attempt, follow, cursor0, k, how)
  {
    ghost var delivered := log[Covered(log, 0)..Covered(log, cursor0)];
    var finished;
    cursor, printed, finished, delivered, k := PrintStream(cursor0, attempt.messages, printed0, delivered, log);
    how := if finished then Finished
           else if attempt.ending.Eof? && !follow then Drained
           else if !attempt.ending.Eof? && !(follow && attempt.ending.Transport?) then Failure
           else Watching;
  }

  ghost predicate AllReopen(follow: bool, attempts: seq<Attempt>, n: nat)
    requires n <= |attempts|
  {
    n == 0 || (AllReopen(follow, attempts, n - 1) && Reopens(attempts[n - 1].ending, follow))
  }

  /**
   What is printed is the output of the log from its start through everything that arrived before
   the place where the command stops, each entry once however often the stream broke.
   */
  method FollowCallLogs(follow: bool, attempts: seq<Attempt>, ghost log: seq<Event>)
    returns (printed: seq<byte>, how: Watched, ghost i: nat, ghost k: nat)
    requires Increasing(log) && Honest(log, 0, attempts, 0)
    ensures Within(attempts, i, k)
    ensures PrintedThrough(log, Position(0, attempts, i, k), printed, how.Finished?)
    ensures if i == |attempts| then how.Watching?
            else CommandStops(attempts[i], follow, CursorAt(0, attempts, i), k, how)
    ensures AllReopen(follow, attempts, i) && (how.Drained? ==> !follow)
    ensures attempts == [] ==> printed == [] && how.Watching?
  {
    var cursor := 0;
    printed := [];
    for n := 0 to |attempts|
      invariant cursor == CursorAt(0, attempts, n) && Honest(log, cursor, attempts, n)
      invariant PrintedThrough(log, cursor, printed, false) && AllReopen(follow, attempts, n)
    {
      cursor, printed, how, k := PrintOnce(cursor, follow, attempts[n], printed, log);
      if !how.Watching? {
        i := n;
        return;
      }
    }
    return printed, Watching, |attempts|, 0;
  }
}
