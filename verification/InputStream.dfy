/**
 Batch input submission (`Map` in the Go client): one input at a time, each retried over
 reopened streams until the server's acknowledged frontier has passed it.

 The server and the network are the environment. The server commits a frame only when
 its index equals the number of inputs committed so far. A frame once sent may be
 processed at any later moment, never, or many times; an acknowledgement is any frontier
 the server has had. A `Turn` says what happens around one client operation, so a list of
 turns is a run of the environment, and a list that ends early is a run in progress.
 */
module InputStream {
  import opened Basics

  datatype Message<T> = Message(index: nat, value: T)

  /**
   Before the operation the server processes the sent frames at `deliver`; then it fails, having
   reached the server or not, or answers with frontier `ack`.
   */
  datatype Turn = Turn(deliver: seq<nat>, fault: bool, reached: bool, ack: nat, cancelled: bool)

  datatype Answer = Answered(count: nat) | Faulted(cancelled: bool) | Pending

  datatype Exit = NoCall | Completed(count: nat) | Failed | Running

  // ---- The server ----

  /** Process the frames at `order`: each is committed only at the frontier. */
  function Deliver<T>(committed: seq<T>, sent: seq<Message<T>>, order: seq<nat>): seq<T>
    decreases |order|
  {
    if order == [] then committed
    else
      var i := order[0];
      var next := if i < |sent| && sent[i].index == |committed| then committed + [sent[i].value] else committed;
      Deliver(next, sent, order[1..])
  }

  /** Frames that carry the inputs at their own indexes can only extend a prefix of the inputs. */
  lemma {:induction false} DeliverKeepsPrefix<T>(inputs: seq<T>, limit: nat, committed: seq<T>, sent: seq<Message<T>>,
                                                 order: seq<nat>)
    requires committed <= inputs && |committed| <= limit <= |inputs|
    requires forall m <- sent :: m.index < limit && m.value == inputs[m.index]
    ensures committed <= Deliver(committed, sent, order) <= inputs && |Deliver(committed, sent, order)| <= limit
    decreases |order|
  {
    if order != [] {
      var i := order[0];
      var next := if i < |sent| && sent[i].index == |committed| then committed + [sent[i].value] else committed;
      DeliverKeepsPrefix(inputs, limit, next, sent, order[1..]);
    }
  }

  /** Once every input is committed, late and repeated frames change nothing. */
  lemma CompleteIsFinal<T>(inputs: seq<T>, sent: seq<Message<T>>, order: seq<nat>)
    requires forall m <- sent :: m.index < |inputs| && m.value == inputs[m.index]
    ensures Deliver(inputs, sent, order) == inputs
  {
    DeliverKeepsPrefix(inputs, |inputs|, inputs, sent, order);
  }

  // ---- What the client saw ----

  /** One operation of the client and what came back. */
  datatype Seen =
    | Spawned(a: Answer)
    | Opened(a: Answer)
    | Selected(cancelled: bool)
    | Sent(index: nat, a: Answer)
    | Reopened(a: Answer)
    | Closed(expected: nat, a: Answer)

  datatype Kind = Spawning | Opening | Sending(index: nat) | Reopening

  function SeenAs(kind: Kind, a: Answer): Seen {
    match kind
    case Spawning => Spawned(a)
    case Opening => Opened(a)
    case Sending(index) => Sent(index, a)
    case Reopening => Reopened(a)
  }

  /** An operation fails exactly when its turn says so; closing may also fail for a wrong count. */
  predicate Shows(turn: Turn, s: Seen) {
    match s
    case Selected(cancelled) => cancelled == turn.cancelled
    case Closed(_, a) => turn.fault ==> a == Faulted(turn.cancelled)
    case Spawned(a) => ShowsAnswer(turn, a)
    case Opened(a) => ShowsAnswer(turn, a)
    case Sent(_, a) => ShowsAnswer(turn, a)
    case Reopened(a) => ShowsAnswer(turn, a)
  }

  predicate ShowsAnswer(turn: Turn, a: Answer) {
    if turn.fault then a == Faulted(turn.cancelled) else a.Answered? && a.count <= turn.ack
  }

  /** What ends the call at once, whatever the count. */
  predicate Fatal(s: Seen) {
    match s
    case Selected(cancelled) => cancelled
    case Sent(_, a) => a == Faulted(true)
    case Spawned(a) => a.Faulted?
    case Opened(a) => a.Faulted?
    case Reopened(a) => a.Faulted?
    case Closed(_, a) => a.Faulted?
  }

  /** An acknowledged frontier that input `count` cannot explain. */
  predicate WrongFrontier(s: Seen, count: nat) {
    || (s.Sent? && s.a.Answered? && s.a.count != count + 1)
    || (s.Reopened? && s.a.Answered? && s.a.count != count && s.a.count != count + 1)
  }

  /** Input `count` is known to be committed. */
  predicate Acknowledges(s: Seen, count: nat) {
    s == Sent(count, Answered(count + 1)) || s == Reopened(Answered(count + 1))
  }

  /** Neither: the input is tried again. */
  predicate TriesAgain(s: Seen, count: nat) {
    s == Sent(count, Faulted(false)) || s == Reopened(Answered(count))
  }

  // ---- The order of the client's operations ----

  /** What the client does next; `count` inputs are acknowledged. */
  datatype Stage =
    | ToSpawn
    | ToOpen
    | ToSelect(count: nat)
    | ToSend(count: nat)
    | ToReopen(count: nat)
    | ToClose(count: nat)
    | Over(count: nat)

  /** The stage after doing `s` and seeing what came back, unless `s` was not what to do. */
  function Step<T>(inputs: seq<T>, encodes: T -> bool, stage: Stage, s: Seen): Option<Stage> {
    match stage
    case ToSpawn => if !s.Spawned? then None else Some(if s.a.Answered? then ToOpen else Over(0))
    case ToOpen => if !s.Opened? then None else Some(if s.a.Answered? then ToSelect(s.a.count) else Over(0))
    case ToSelect(count) =>
      if !s.Selected? then None
      else if s.cancelled then Some(Over(count))
      else if count >= |inputs| then Some(ToClose(count))
      else Some(if encodes(inputs[count]) then ToSend(count) else Over(count))
    case ToSend(count) =>
      if !s.Sent? || s.index != count then None
      else if s.a == Answered(count + 1) then Some(ToSelect(count + 1))
      else Some(if s.a == Faulted(false) then ToReopen(count) else Over(count))
    case ToReopen(count) =>
      if !s.Reopened? then None
      else if s.a == Answered(count + 1) then Some(ToSelect(count + 1))
      else Some(if s.a == Answered(count) then ToSend(count) else Over(count))
    case ToClose(count) => if !s.Closed? || s.expected != count then None else Some(Over(count))
    case Over(_) => None
  }

  function Follow<T>(inputs: seq<T>, encodes: T -> bool, seen: seq<Seen>): Option<Stage> {
    if seen == [] then Some(ToSpawn)
    else
      var before := Follow(inputs, encodes, seen[..|seen| - 1]);
      if before.None? then None else Step(inputs, encodes, before.value, seen[|seen| - 1])
  }

  lemma FollowOne<T>(inputs: seq<T>, encodes: T -> bool, seen: seq<Seen>, s: Seen)
    ensures var before := Follow(inputs, encodes, seen);
            Follow(inputs, encodes, seen + [s]) ==
            if before.None? then None else Step(inputs, encodes, before.value, s)
  {
    assert (seen + [s])[..|seen|] == seen;
  }

  class Service<T(==)> {
    var committed: seq<T>
    var sent: seq<Message<T>>
    var closedAt: Option<nat>
    var cancels: nat
    var script: seq<Turn>
    ghost const turns: seq<Turn>
    ghost var seen: seq<Seen>

    constructor (script: seq<Turn>)
      ensures committed == [] && sent == [] && closedAt.None? && cancels == 0 && this.script == script
      ensures Aligned() && seen == []
    {
      committed, sent, closedAt, cancels := [], [], None, 0;
      this.script, turns, seen := script, script, [];
    }

    /** Every operation takes one turn of the environment, and sees what that turn says. */
    ghost predicate Aligned() reads this {
      |seen| <= |turns| && script == turns[|seen|..] && forall i :: 0 <= i < |seen| ==> Shows(turns[i], seen[i])
    }

    /**
     `count` inputs are acknowledged; with `trying`, input `count` is being submitted and may
     or may not have been committed already.
     */
    ghost predicate Sound(inputs: seq<T>, count: nat, trying: bool) reads this {
      var limit := if trying then count + 1 else count;
      && limit <= |inputs|
      && committed <= inputs
      && count <= |committed| <= limit
      && (forall m <- sent :: m.index < limit && m.value == inputs[m.index])
    }

    /** One round of the environment; a closed call takes no more inputs. */
    method Settle(deliver: seq<nat>, ghost inputs: seq<T>, ghost count: nat, ghost trying: bool)
      requires Sound(inputs, count, trying)
      modifies this`committed
      ensures Sound(inputs, count, trying) && |old(committed)| <= |committed|
      ensures closedAt.Some? ==> committed == old(committed)
      ensures closedAt.None? ==> committed == Deliver(old(committed), sent, deliver)
    {
      if closedAt.None? {
        DeliverKeepsPrefix(inputs, if trying then count + 1 else count, committed, sent, deliver);
        committed := Deliver(committed, sent, deliver);
      }
    }

    /** Wait until an input is available, the channel is closed, or the context ends. */
    method Select(ghost inputs: seq<T>, ghost count: nat) returns (pending: bool, cancelled: bool)
      requires Sound(inputs, count, false) && Aligned()
      modifies this`committed, this`script, this`seen
      ensures Sound(inputs, count, false) && Aligned()
      ensures pending ==> script == [] && seen == old(seen)
      ensures !pending ==> |script| < |old(script)| && seen == old(seen) + [Selected(cancelled)]
    {
      if script == [] {
        return true, false;
      }
      var turn := script[0];
      script := script[1..];
      seen := seen + [Selected(turn.cancelled)];
      Settle(turn.deliver, inputs, count, false);
      return false, turn.cancelled;
    }

    /** Wait for an acknowledgement on the current stream, or for the first one on a new stream. */
    method Receive(ghost kind: Kind, ghost inputs: seq<T>, ghost count: nat, ghost trying: bool) returns (a: Answer)
      requires Sound(inputs, count, trying) && Aligned()
      modifies this`committed, this`script, this`seen
      ensures Sound(inputs, count, trying) && Aligned()
      ensures a.Answered? ==> a.count <= |committed|
      ensures a.Pending? ==> script == [] && seen == old(seen)
      ensures !a.Pending? ==> |script| < |old(script)| && seen == old(seen) + [SeenAs(kind, a)]
    {
      if script == [] {
        return Pending;
      }
      var turn := script[0];
      script := script[1..];
      Settle(turn.deliver, inputs, count, trying);
      a := if turn.fault then Faulted(turn.cancelled)
           else Answered(if turn.ack <= |committed| then turn.ack else |committed|);
      seen := seen + [SeenAs(kind, a)];
    }

    method Send(index: nat, value: T, ghost inputs: seq<T>, ghost count: nat) returns (a: Answer)
      requires Sound(inputs, count, true) && Aligned() && index == count && value == inputs[count]
      modifies this
      ensures Sound(inputs, count, true) && Aligned() && closedAt == old(closedAt) && cancels == old(cancels)
      ensures a.Answered? ==> a.count <= |committed|
      ensures a.Pending? ==> script == [] && seen == old(seen)
      ensures !a.Pending? ==> |script| < |old(script)| && seen == old(seen) + [Sent(index, a)]
    {
      if script == [] {
        return Pending;
      }
      sent := sent + [Message(index, value)];
      a := Receive(Sending(index), inputs, count, true);
    }

    /** Close the inputs if the caller's count is the frontier; the reply may be lost either way. */
    method Close(expected: nat, ghost inputs: seq<T>) returns (a: Answer)
      requires Sound(inputs, expected, false) && Aligned() && closedAt.None?
      modifies this
      ensures Sound(inputs, expected, false) && Aligned() && cancels == old(cancels)
      ensures a.Answered? ==> closedAt == Some(expected)
      ensures closedAt.Some? ==> closedAt.value == expected == |committed|
      ensures a.Pending? ==> script == [] && seen == old(seen)
      ensures !a.Pending? ==> seen == old(seen) + [Closed(expected, a)]
    {
      if script == [] {
        return Pending;
      }
      var turn := script[0];
      script := script[1..];
      Settle(turn.deliver, inputs, expected, false);
      if (!turn.fault || turn.reached) && expected == |committed| {
        closedAt := Some(expected);
      }
      a := if turn.fault then Faulted(turn.cancelled)
           else if closedAt.Some? then Answered(expected)
           else Faulted(false);
      seen := seen + [Closed(expected, a)];
    }

    method Cancel()
      modifies this`cancels
      ensures cancels == old(cancels) + 1
    {
      cancels := cancels + 1;
    }
  }

  // ---- The client ----

  /** From `from` on, everything seen but the last left input `count` to be tried again. */
  ghost predicate Retried(seen: seq<Seen>, from: nat, count: nat) {
    forall i :: from <= i < |seen| - 1 ==> TriesAgain(seen[i], count)
  }

  datatype Attempt = Acked | Again | Stopped | OutOfTurns

  /** How one attempt on input `count` ended, given what it saw last. */
  predicate Tells(attempt: Attempt, s: Seen, count: nat) {
    match attempt
    case Acked => Acknowledges(s, count)
    case Again => TriesAgain(s, count)
    case Stopped => Fatal(s) || WrongFrontier(s, count)
    case OutOfTurns => TriesAgain(s, count)
  }

  ghost predicate Stands<T>(inputs: seq<T>, encodes: T -> bool, seen: seq<Seen>, stage: Stage) {
    Follow(inputs, encodes, seen) == Some(stage)
  }

  lemma Moves<T>(inputs: seq<T>, encodes: T -> bool, seen: seq<Seen>, stage: Stage, s: Seen, next: Stage)
    requires Stands(inputs, encodes, seen, stage) && Step(inputs, encodes, stage, s) == Some(next)
    ensures Stands(inputs, encodes, seen + [s], next)
  {
    FollowOne(inputs, encodes, seen, s);
  }

  function StageAfter(attempt: Attempt, last: Seen, count: nat): Stage {
    match attempt
    case Acked => ToSelect(count + 1)
    case Again => ToSend(count)
    case Stopped => Over(count)
    case OutOfTurns => if last.Sent? then ToReopen(count) else ToSend(count)
  }

  /** Send input `count`; if the stream breaks, open another and look at its frontier. */
  method TryOnce<T(==)>(inputs: seq<T>, ghost encodes: T -> bool, count: nat, service: Service<T>)
    returns (attempt: Attempt)
    requires count < |inputs| && service.Sound(inputs, count, true) && service.Aligned() && service.script != []
    requires Stands(inputs, encodes, service.seen, ToSend(count))
    modifies service
    ensures service.Aligned() && service.closedAt == old(service.closedAt) && service.cancels == old(service.cancels)
    ensures service.Sound(inputs, count, true) && (attempt.Acked? ==> service.Sound(inputs, count + 1, false))
    ensures |service.script| < |old(service.script)| && (attempt.OutOfTurns? ==> service.script == [])
    ensures |service.seen| == |old(service.seen)| + 1 || |service.seen| == |old(service.seen)| + 2
    ensures old(service.seen) <= service.seen && Retried(service.seen, |old(service.seen)|, count)
    ensures Tells(attempt, service.seen[|service.seen| - 1], count)
    ensures Stands(inputs, encodes, service.seen, StageAfter(attempt, service.seen[|service.seen| - 1], count))
  {
    var a := service.Send(count, inputs[count], inputs, count);
    if a.Answered? {
      attempt := if a.count == count + 1 then Acked else Stopped;
    } else {
      attempt := if a.cancelled then Stopped else OutOfTurns;
    }
    ghost var first := Sent(count, a);
    Moves(inputs, encodes, old(service.seen), ToSend(count), first, StageAfter(attempt, first, count));
    if !attempt.OutOfTurns? {
      return;
    }
    ghost var seen := service.seen;
    var reopened := service.Receive(Reopening, inputs, count, true);
    match reopened {
      case Pending => return;
      case Faulted(_) => attempt := Stopped;
      case Answered(frontier) =>
        if frontier > count + 1 {
          attempt := Stopped;
        } else if frontier == count + 1 {
          attempt := Acked;
        } else if frontier != count {
          attempt := Stopped;
        } else {
          attempt := Again;
        }
    }
    ghost var last := Reopened(reopened);
    Moves(inputs, encodes, seen, ToReopen(count), last, StageAfter(attempt, last, count));
  }

  /**
   Retry one input until the frontier passes it. `done` says it is committed; otherwise `exit`
   ends the call, for what was seen last, or because the environment has no further turn.
   */
  method Submit<T(==)>(inputs: seq<T>, ghost encodes: T -> bool, count: nat, service: Service<T>)
    returns (done: bool, exit: Exit)
    requires count < |inputs| && service.Sound(inputs, count, true) && service.Aligned() && service.closedAt.None?
    requires Stands(inputs, encodes, service.seen, ToSend(count))
    modifies service
    ensures service.Aligned() && service.closedAt.None? && service.cancels == old(service.cancels)
    ensures old(service.seen) <= service.seen && Retried(service.seen, |old(service.seen)|, count)
    ensures done ==> service.Sound(inputs, count + 1, false) && |service.script| < |old(service.script)|
    ensures done ==> |old(service.seen)| < |service.seen| && Acknowledges(service.seen[|service.seen| - 1], count)
    ensures done ==> Stands(inputs, encodes, service.seen, ToSelect(count + 1))
    ensures !done ==> service.Sound(inputs, count, true) && (exit.Failed? || exit.Running?)
    ensures !done && exit.Running? ==>
              && service.script == []
              && (forall i :: |old(service.seen)| <= i < |service.seen| ==> TriesAgain(service.seen[i], count))
              && (|| Stands(inputs, encodes, service.seen, ToSend(count))
                  || Stands(inputs, encodes, service.seen, ToReopen(count)))
    ensures !done && exit.Failed? ==>
              && |old(service.seen)| < |service.seen| && Stands(inputs, encodes, service.seen, Over(count))
              && var last := service.seen[|service.seen| - 1];
              Fatal(last) || WrongFrontier(last, count)
  {
    done, exit := false, Running;
    while service.script != []
      invariant service.Sound(inputs, count, true) && service.Aligned()
      invariant service.closedAt.None? && service.cancels == old(service.cancels)
      invariant |service.script| <= |old(service.script)| && old(service.seen) <= service.seen
      invariant forall i :: |old(service.seen)| <= i < |service.seen| ==> TriesAgain(service.seen[i], count)
      invariant Stands(inputs, encodes, service.seen, ToSend(count))
      decreases |service.script|
    {
      var attempt := TryOnce(inputs, encodes, count, service);
      match attempt {
        case Acked => return true, Running;
        case Again =>
        case Stopped => return false, Failed;
        case OutOfTurns => return false, Running;
      }
    }
  }

  /** Nothing seen so far, but perhaps the last, ends the call. */
  ghost predicate NoneFatal(seen: seq<Seen>, n: int) {
    forall i :: 0 <= i < |seen| && i < n ==> !Fatal(seen[i])
  }

  lemma RetriesAreNotFatal(seen: seq<Seen>, from: nat, count: nat)
    requires from <= |seen| && NoneFatal(seen, from) && Retried(seen, from, count)
    ensures NoneFatal(seen, |seen| - 1)
  {
  }

  /** Why the call failed: its input does not encode, or what was seen last. */
  ghost predicate HasCause(seen: seq<Seen>, count: nat, encodes: bool) {
    !encodes || (seen != [] && (Fatal(seen[|seen| - 1]) || WrongFrontier(seen[|seen| - 1], count)))
  }

  /** Between two inputs: `count` of them are committed and nothing went wrong. */
  ghost predicate Submitted<T>(service: Service<T>, inputs: seq<T>, encodes: T -> bool, count: nat) reads service {
    && Stands(inputs, encodes, service.seen, ToSelect(count))
    && service.Sound(inputs, count, false) && service.Aligned() && service.closedAt.None? && service.cancels == 0
    && service.seen != [] && NoneFatal(service.seen, |service.seen|)
  }

  /** Where the client stands when the call has ended so, or is still running. */
  predicate StageFits(stage: Option<Stage>, count: nat, exit: Exit) {
    stage.Some? &&
    var at := stage.value;
    if exit.Running? then !at.Over? && !at.ToSpawn? && (at.ToOpen? || at.count == count) else at == Over(count)
  }

  /** How a call that exists ends. */
  ghost predicate Ends<T>(service: Service<T>, inputs: seq<T>, count: nat, encodes: T -> bool, exit: Exit)
    reads service
  {
    && (service.Sound(inputs, count, false) || service.Sound(inputs, count, true))
    && StageFits(Follow(inputs, encodes, service.seen), count, exit)
    && service.Aligned() && service.seen != [] && NoneFatal(service.seen, |service.seen| - 1)
    && (exit.Failed? <==> service.cancels > 0)
    && match exit
       case NoCall => false
       case Completed(n) =>
         && n == count == |inputs| && service.committed == inputs && service.closedAt == Some(count)
         && service.Sound(inputs, count, false) && NoneFatal(service.seen, |service.seen|)
       case Running => service.script == [] && NoneFatal(service.seen, |service.seen|)
       case Failed => HasCause(service.seen, count, |inputs| <= count || encodes(inputs[count]))
  }

  /** The channel is closed: close the inputs with the acknowledged count. */
  method CloseInputs<T(==)>(inputs: seq<T>, encodes: T -> bool, count: nat, service: Service<T>) returns (exit: Exit)
    requires service.Sound(inputs, count, false) && service.Aligned() && service.closedAt.None? && service.cancels == 0
    requires service.seen != [] && NoneFatal(service.seen, |service.seen|) && count == |inputs|
    requires Stands(inputs, encodes, service.seen, ToClose(count))
    modifies service
    ensures Ends(service, inputs, count, encodes, exit) && old(service.seen) <= service.seen
  {
    ghost var seen := service.seen;
    var closed := service.Close(count, inputs);
    FollowOne(inputs, encodes, seen, Closed(count, closed));
    match closed {
      case Pending => return Running;
      case Faulted(_) =>
        service.Cancel();
        return Failed;
      case Answered(_) => return Completed(count);
    }
  }

  /** Submit input `count`; a failure cancels the call. */
  method SubmitNext<T(==)>(inputs: seq<T>, encodes: T -> bool, count: nat, service: Service<T>)
    returns (ended: bool, exit: Exit)
    requires service.Sound(inputs, count, false) && service.Aligned() && service.closedAt.None? && service.cancels == 0
    requires service.seen != [] && NoneFatal(service.seen, |service.seen|) && count < |inputs|
    requires Stands(inputs, encodes, service.seen, ToSend(count))
    modifies service
    ensures old(service.seen) <= service.seen
    ensures ended ==> Ends(service, inputs, count, encodes, exit)
    ensures !ended ==> Submitted(service, inputs, encodes, count + 1) && |service.script| < |old(service.script)|
  {
    ghost var before := |service.seen|;
    var done;
    done, exit := Submit(inputs, encodes, count, service);
    RetriesAreNotFatal(service.seen, before, count);
    if !done && exit.Failed? { service.Cancel(); }
    ended := !done;
  }

  /** One turn of the loop: the context's end, the end of the channel, or one more input. */
  method MapOne<T(==)>(inputs: seq<T>, encodes: T -> bool, count: nat, service: Service<T>)
    returns (ended: bool, exit: Exit)
    requires Submitted(service, inputs, encodes, count)
    modifies service
    ensures old(service.seen) <= service.seen
    ensures ended ==> Ends(service, inputs, count, encodes, exit)
    ensures !ended ==> Submitted(service, inputs, encodes, count + 1) && |service.script| < |old(service.script)|
  {
    var pending, cancelled := service.Select(inputs, count);
    if pending {
      return true, Running;
    }
    ghost var next := Step(inputs, encodes, ToSelect(count), Selected(cancelled));
    Moves(inputs, encodes, old(service.seen), ToSelect(count), Selected(cancelled), next.value);
    if cancelled {
      service.Cancel();
      service.Cancel();
      return true, Failed;
    }
    if count == |inputs| {
      exit := CloseInputs(inputs, encodes, count, service);
      return true, exit;
    }
    if !encodes(inputs[count]) {
      service.Cancel();
      return true, Failed;
    }
    ended, exit := SubmitNext(inputs, encodes, count, service);
  }

  /**
   Submit everything the channel yields, then close with the acknowledged count. The call is
   cancelled on every exit but success, as the deferred cancellation in the source does. It fails
   only for a cause, and is still running only when the environment has no further turn.
   */
  method Map<T(==)>(inputs: seq<T>, encodes: T -> bool, service: Service<T>) returns (exit: Exit, count: nat)
    requires service.committed == [] && service.sent == [] && service.closedAt.None? && service.cancels == 0
    requires service.Aligned() && service.seen == []
    modifies service
    ensures service.Sound(inputs, count, false) || service.Sound(inputs, count, true)
    ensures service.seen == [] ==> exit.Running? && service.script == []
    ensures service.seen != [] ==>
              && service.seen[0].Spawned?
              && if Fatal(service.seen[0]) then exit.NoCall? && |service.seen| == 1 && service.cancels == 0
                 else Ends(service, inputs, count, encodes, exit)
  {
    count := 0;
    var spawned := service.Receive(Spawning, inputs, 0, false);
    FollowOne(inputs, encodes, [], Spawned(spawned));
    if !spawned.Answered? {
      return if spawned.Pending? then Running else NoCall, 0;
    }
    ghost var seen := service.seen;
    var first := service.Receive(Opening, inputs, 0, false);
    FollowOne(inputs, encodes, seen, Opened(first));
    if first.Pending? {
      return Running, 0;
    }
    if first.Faulted? {
      service.Cancel();
      return Failed, 0;
    }
    count := first.count;
    while true
      invariant Submitted(service, inputs, encodes, count) && service.seen[0].Spawned?
      decreases |service.script|
    {
      var ended;
      ended, exit := MapOne(inputs, encodes, count, service);
      if ended {
        return;
      }
      count := count + 1;
    }
  }
}
