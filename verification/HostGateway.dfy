/**
 The gateway as it runs: one object whose fields the goroutines share, and the source's functions
 as methods. Where a function gives up the mutex, other goroutines may take any steps they like;
 each such place is an argument that lists those steps. `script` records the whole interleaving, so
 that every guarantee about runs is a guarantee about the object.
 */
module HostGatewayObject {
  import opened Basics
  import opened Gateway
  import GatewayRuns

  // ---- What other goroutines may do ----

  predicate OnlyTargets(steps: seq<Action>) { forall a <- steps :: a.OnTarget? }

  function SideOf(a: TargetAction): Which {
    match a
    case Relay(_, _) => Reader
    case Dequeue => Writer
    case WriteSome(_) => Writer
    case Quit(side) => side
    case TargetError(side) => side
    case TakeLock(side) => side
    case CloseFailed(side) => side
    case SendClose(side, _) => side
  }

  predicate Mine(a: Action, use: Use, side: Which) { a.OnTarget? && a.use == use && SideOf(a.act) == side }

  predicate NotBy(steps: seq<Action>, use: Use, side: Which) { forall a <- steps :: !Mine(a, use, side) }

  /** Goroutines of connections move ids from one map to the other at most, and never stop the receive loop. */
  ghost predicate TargetsMay(s: Core, t: Core) {
    && t.receiver == s.receiver && t.nextUse == s.nextUse && s.wire <= t.wire && (s.cancelled ==> t.cancelled)
    && t.objects.Keys == s.objects.Keys && t.conns.Keys <= s.conns.Keys
    && (forall id <- t.conns :: t.conns[id] == s.conns[id])
    && s.locallyClosed <= t.locallyClosed && (forall id :: Busy(t, id) <==> Busy(s, id))
    && (forall u <- s.objects :: t.objects[u].id == s.objects[u].id && (s.objects[u].closed ==> t.objects[u].closed))
  }

  /** Nobody else moves this side of a connection, or takes back what was sent. */
  ghost predicate LeavesSide(s: Core, t: Core, use: Use, side: Which) {
    && s.wire <= t.wire && s.nextUse <= t.nextUse
    && (use in s.objects && use < s.nextUse ==>
          && use in t.objects && t.objects[use].id == s.objects[use].id
          && t.objects[use].At(side) == s.objects[use].At(side) && (s.objects[use].closed ==> t.objects[use].closed)
          && (side.Writer? ==> t.objects[use].current == s.objects[use].current
                               && t.objects[use].written == s.objects[use].written))
  }

  lemma TargetMay(s: Core, use: Use, a: TargetAction)
    requires TargetEnabled(s, use, a)
    ensures TargetsMay(s, TargetNext(s, use, a))
  {
  }

  lemma TargetLeaves(s: Core, use: Use, a: TargetAction, u: Use, side: Which)
    requires TargetEnabled(s, use, a) && !(use == u && SideOf(a) == side)
    ensures LeavesSide(s, TargetNext(s, use, a), u, side)
  {
  }

  lemma ReceiverLeaves(s: Core, a: ReceiverAction, u: Use, side: Which)
    requires ReceiverEnabled(s, a) && (s.receiver.Dialing? ==> s.receiver.use !in s.objects)
    ensures LeavesSide(s, ReceiverNext(s, a), u, side)
  {
  }

  /** The step that a run takes for an action, as far as the program's own state goes. */
  function CoreStep(s: Core, a: Action): Core {
    match a
    case OnReceiver(r) => if ReceiverEnabled(s, r) then ReceiverNext(s, r) else s
    case OnTarget(use, t) => if TargetEnabled(s, use, t) then TargetNext(s, use, t) else s
  }

  lemma OneStepMay(s: Core, a: Action)
    requires s.receiver.Dialing? ==> s.receiver.use !in s.objects
    ensures a.OnTarget? ==> TargetsMay(s, CoreStep(s, a))
    ensures forall u, side :: !Mine(a, u, side) ==> LeavesSide(s, CoreStep(s, a), u, side)
  {
    match a
    case OnReceiver(r) =>
      if ReceiverEnabled(s, r) {
        forall u, side ensures LeavesSide(s, CoreStep(s, a), u, side) { ReceiverLeaves(s, r, u, side); }
      }
    case OnTarget(use, t) =>
      if TargetEnabled(s, use, t) {
        TargetMay(s, use, t);
        forall u, side | !Mine(a, u, side) ensures LeavesSide(s, CoreStep(s, a), u, side) {
          TargetLeaves(s, use, t, u, side);
        }
      }
  }

  lemma MayAgain(s: Core, t: Core, u: Core)
    ensures TargetsMay(s, t) && TargetsMay(t, u) ==> TargetsMay(s, u)
    ensures forall use, side ::
              LeavesSide(s, t, use, side) && LeavesSide(t, u, use, side) ==> LeavesSide(s, u, use, side)
  {
  }

  lemma RunSnoc(script: seq<Action>, a: Action)
    ensures Run(ATTACHED, script + [a]).core == CoreStep(Run(ATTACHED, script).core, a)
  {
    assert (script + [a])[..|script|] == script;
  }

  class HostGateway {
    var conns: map<Id, Use>
    var locallyClosed: set<Id>
    var objects: map<Use, Conn>
    var nextUse: Use
    var receiver: Receiver
    var cancelled: bool
    var wire: seq<Frame>
    ghost var script: seq<Action>

    function View(): Core reads this {
      Core(conns, locallyClosed, objects, nextUse, receiver, cancelled, wire)
    }

    /** The object is where some interleaving of the goroutines leaves the program. */
    ghost predicate Valid() reads this {
      View() == Run(ATTACHED, script).core
    }

    constructor ()
      ensures Valid() && script == [] && receiver.Ready?
    {
      conns, locallyClosed, objects, nextUse := map[], {}, map[], 0;
      receiver, cancelled, wire := Ready, false, [];
      script := [];
    }

    /** What every sequence of calls keeps, whatever the goroutines did in between. */
    lemma Guarantees()
      requires Valid()
      ensures var w := Run(ATTACHED, script);
              GatewayRuns.MapsSound(w) && GatewayRuns.ClosesSound(w) && GatewayRuns.DataSound(w)
      ensures forall id <- conns :: id !in locallyClosed && conns[id] in objects && objects[conns[id]].id == id
      ensures forall use <- objects :: use < nextUse
      ensures receiver.Dialing? ==> !Busy(View(), receiver.id) && receiver.use !in objects
      ensures GatewayRuns.CleanRun(ATTACHED, script) ==> GatewayRuns.NoStaleClose(Run(ATTACHED, script))
    {
      GatewayRuns.EveryRunKeepsMaps(script);
      var w := Run(ATTACHED, script);
      forall id <- conns ensures id !in locallyClosed && conns[id] in objects && objects[conns[id]].id == id {
        assert GatewayRuns.ConnSound(w, id);
      }
      if GatewayRuns.CleanRun(ATTACHED, script) { GatewayRuns.CleanRunsSendNoStaleClose(script); }
    }

    /** Note that the code above just took action `a`. */
    ghost method Note(before: Core, a: Action)
      requires before == Run(ATTACHED, script).core && View() == CoreStep(before, a)
      modifies this`script
      ensures Valid() && script == old(script) + [a]
    {
      RunSnoc(script, a);
      script := script + [a];
    }

    method Become(next: Core)
      modifies this`conns, this`locallyClosed, this`objects, this`nextUse, this`receiver, this`cancelled, this`wire
      ensures View() == next
    {
      conns, locallyClosed, objects, nextUse := next.conns, next.locallyClosed, next.objects, next.nextUse;
      receiver, cancelled, wire := next.receiver, next.cancelled, next.wire;
    }

    /** The part of `Guarantees` that the methods need most, kept apart so that their proofs stay small. */
    lemma LinkedExist()
      requires Valid()
      ensures forall id <- conns :: conns[id] in objects && id !in locallyClosed
      ensures forall use <- objects :: use < nextUse
    {
      Guarantees();
    }

    method OtherStep(a: Action)
      requires Valid()
      modifies this
      ensures Valid() && script == old(script) + [a]
      ensures a.OnTarget? ==> TargetsMay(old(View()), View())
      ensures forall use, side :: !Mine(a, use, side) ==> LeavesSide(old(View()), View(), use, side)
    {
      var before := View();
      Guarantees();
      OneStepMay(before, a);
      Become(CoreStep(before, a));
      Note(before, a);
    }

    /** Steps of other goroutines, in any order; one that cannot be taken leaves the state alone. */
    method Meanwhile(steps: seq<Action>)
      requires Valid()
      modifies this
      ensures Valid() && script == old(script) + steps
      ensures OnlyTargets(steps) ==> TargetsMay(old(View()), View())
      ensures forall use, side :: NotBy(steps, use, side) ==> LeavesSide(old(View()), View(), use, side)
    {
      for i := 0 to |steps|
        invariant Valid() && script == old(script) + steps[..i]
        invariant OnlyTargets(steps) ==> TargetsMay(old(View()), View())
        invariant forall use, side :: NotBy(steps, use, side) ==> LeavesSide(old(View()), View(), use, side)
      {
        ghost var before := View();
        assert steps[i] in steps;
        OtherStep(steps[i]);
        MayAgain(old(View()), before, View());
        assert steps[..i + 1] == steps[..i] + [steps[i]];
      }
      assert steps[..|steps|] == steps;
    }

    // ---- The receive loop ----

    method FailWith()
      modifies this`cancelled, this`receiver
      ensures View() == Fail(old(View()))
    {
      cancelled := true;
      receiver := Stopping;
    }

    method BeginOpen(id: Id) returns (dialing: bool)
      requires Valid() && receiver.Ready?
      modifies this
      ensures Valid() && script == old(script) + [OnReceiver(RecvOpen(id))]
      ensures View() == RecvOpenStep(old(View()), id) && dialing == receiver.Dialing?
    {
      ghost var before := View();
      var linked := id in conns;
      var closing := id in locallyClosed;
      dialing := !linked && !closing;
      if dialing {
        receiver := Dialing(id, nextUse);
        nextUse := nextUse + 1;
      } else {
        FailWith();
      }
      Note(before, OnReceiver(RecvOpen(id)));
    }

    method EndDial(ok: bool)
      requires Valid() && receiver.Dialing?
      modifies this
      ensures Valid() && script == old(script) + [OnReceiver(Dialed(ok))]
      ensures View() == DialedStep(old(View()), ok)
    {
      ghost var before := View();
      var id, use := receiver.id, receiver.use;
      if !ok {
        locallyClosed := locallyClosed + {id};
        receiver := DialFailed(id, use);
      } else if id in conns || id in locallyClosed {
        FailWith();
      } else {
        conns := conns[id := use];
        objects := objects[use := Conn(id, Running, Running, false, [], [], [])];
        receiver := Ready;
      }
      Note(before, OnReceiver(Dialed(ok)));
    }

    method CloseFailedDial(ok: bool) returns (goOn: bool)
      requires Valid() && receiver.DialFailed?
      modifies this
      ensures Valid() && script == old(script) + [OnReceiver(SendDialClose(ok))]
      ensures View() == SendDialCloseStep(old(View()), ok) && goOn == receiver.Ready?
    {
      ghost var before := View();
      goOn := ok || cancelled;
      if ok {
        wire := wire + [Close(receiver.id)];
        receiver := Ready;
      } else if !cancelled {
        FailWith();
      } else {
        receiver := Ready;
      }
      Note(before, OnReceiver(SendDialClose(ok)));
    }

    /** From the dial on: a dial that succeeds links the connection, one that fails closes the id locally. */
    method Dial(dialing: seq<Action>, dials: bool, failed: seq<Action>, sent: bool) returns (goOn: bool)
      requires Valid() && receiver.Dialing? && OnlyTargets(dialing) && OnlyTargets(failed)
      modifies this
      ensures Valid() && goOn == receiver.Ready? && (!goOn ==> receiver.Stopping? && cancelled)
      ensures dials ==> goOn && old(receiver.id) in conns && conns[old(receiver.id)] == old(receiver.use)
      ensures !dials ==> old(receiver.id) in locallyClosed && (sent ==> goOn)
      ensures script == old(script) + dialing + [OnReceiver(Dialed(dials))]
                        + if dials then [] else failed + [OnReceiver(SendDialClose(sent))]
    {
      Meanwhile(dialing);
      Guarantees();
      EndDial(dials);
      goOn := true;
      if !dials {
        Meanwhile(failed);
        goOn := CloseFailedDial(sent);
      }
    }

    /**
     An id in either map fails the gateway. Otherwise a successful dial links the new connection: the
     second duplicate check, after the dial, never fires, whatever the other goroutines did.
     */
    method Open(id: Id, dialing: seq<Action>, dials: bool, failed: seq<Action>, sent: bool) returns (goOn: bool)
      requires Valid() && receiver.Ready? && OnlyTargets(dialing) && OnlyTargets(failed)
      modifies this
      ensures Valid() && goOn == receiver.Ready? && (!goOn ==> receiver.Stopping? && cancelled)
      ensures Busy(old(View()), id) ==> !goOn
      ensures !Busy(old(View()), id) && dials ==> goOn && id in conns && conns[id] == old(nextUse)
      ensures !Busy(old(View()), id) && !dials ==> id in locallyClosed && (sent ==> goOn)
      ensures script == old(script) + [OnReceiver(RecvOpen(id))]
                        + (if Busy(old(View()), id) then []
                           else dialing + [OnReceiver(Dialed(dials))]
                                + if dials then [] else failed + [OnReceiver(SendDialClose(sent))])
    {
      goOn := BeginOpen(id);
      if goOn { goOn := Dial(dialing, dials, failed, sent); }
    }

    method Unlink(id: Id)
      requires Valid() && receiver.Ready?
      modifies this
      ensures Valid() && script == old(script) + [OnReceiver(RecvClose(id))]
      ensures View() == RecvCloseStep(old(View()), id)
    {
      ghost var before := View();
      if id in conns {
        receiver := Closes(conns[id]);
        conns := conns - {id};
      } else if id in locallyClosed {
        locallyClosed := locallyClosed - {id};
      } else {
        FailWith();
      }
      Note(before, OnReceiver(RecvClose(id)));
    }

    method CloseUnlinked()
      requires Valid() && receiver.Closes? && receiver.use in objects
      modifies this
      ensures Valid() && script == old(script) + [OnReceiver(CloseSocket)]
      ensures View() == CloseObject(old(View()), old(receiver.use)).(receiver := Ready)
    {
      ghost var before := View();
      objects := objects[receiver.use := objects[receiver.use].(closed := true)];
      receiver := Ready;
      Note(before, OnReceiver(CloseSocket));
    }

    method FinishClose(unlinked: seq<Action>)
      requires Valid() && receiver.Closes? && receiver.use in objects && OnlyTargets(unlinked)
      modifies this
      ensures Valid() && script == old(script) + unlinked + [OnReceiver(CloseSocket)]
      ensures receiver.Ready? && old(receiver.use) in objects && objects[old(receiver.use)].closed
      ensures forall id :: Busy(View(), id) <==> Busy(old(View()), id)
    {
      Meanwhile(unlinked);
      CloseUnlinked();
    }

    /** A Close for an id in either map frees it, whatever a late failure of its connection does; any other fails. */
    method CloseConnection(id: Id, unlinked: seq<Action>) returns (goOn: bool)
      requires Valid() && receiver.Ready? && OnlyTargets(unlinked)
      modifies this
      ensures Valid() && goOn == receiver.Ready? && (!goOn ==> receiver.Stopping? && cancelled)
      ensures goOn <==> Busy(old(View()), id)
      ensures !Busy(View(), id)
      ensures id in old(conns) ==> old(conns)[id] in objects && objects[old(conns)[id]].closed
      ensures script == old(script) + [OnReceiver(RecvClose(id))]
                        + (if id in old(conns) then unlinked + [OnReceiver(CloseSocket)] else [])
    {
      LinkedExist();
      Unlink(id);
      goOn := !receiver.Stopping?;
      if receiver.Closes? { FinishClose(unlinked); }
    }

    method LookUp(id: Id, data: seq<byte>) returns (found: bool)
      requires Valid() && receiver.Ready?
      modifies this
      ensures Valid() && script == old(script) + [OnReceiver(RecvData(id, data))]
      ensures View() == RecvDataStep(old(View()), id, data) && found == (id in old(conns))
    {
      ghost var before := View();
      found := id in conns;
      if found { receiver := Delivering(conns[id], data); } else { FailWith(); }
      Note(before, OnReceiver(RecvData(id, data)));
    }

    /** The branch that the `select` takes, if it is ready. */
    method Deliver(choice: Choice) returns (r: Delivery)
      requires Valid() && receiver.Delivering? && receiver.use in objects
      modifies this
      ensures Valid() && script == old(script) + Taken(r)
      ensures r == Chosen(choice, old(objects[receiver.use]), old(cancelled))
      ensures View() == match r
                        case Queued => EnqueueStep(old(View()))
                        case Rejected => Fail(old(View()))
                        case Abandoned => old(View()).(receiver := Stopping)
                        case Blocked => old(View())
    {
      ghost var before := View();
      var use := receiver.use;
      r := Blocked;
      if choice.Queue? && |objects[use].queue| < WRITE_QUEUE {
        objects := objects[use := objects[use].(queue := objects[use].queue + [receiver.data])];
        receiver := Ready;
        r := Queued;
        Note(before, OnReceiver(Enqueue));
      } else if choice.SeeClosed? && objects[use].closed {
        FailWith();
        r := Rejected;
        Note(before, OnReceiver(Reject));
      } else if choice.SeeCancelled? && cancelled {
        receiver := Stopping;
        r := Abandoned;
        Note(before, OnReceiver(Abandon));
      }
    }

    /**
     Data for an id without a linked connection fails the gateway. Otherwise the branch tried is taken
     whenever it is ready, and data that is queued is queued last.
     */
    method Write(id: Id, data: seq<byte>, found: seq<Action>, choice: Choice) returns (r: Delivery)
      requires Valid() && receiver.Ready? && OnlyTargets(found)
      modifies this
      ensures Valid()
      ensures id !in old(conns) ==> r.Rejected? && receiver.Stopping? && cancelled
      ensures id in old(conns) ==>
                var when := Run(ATTACHED, old(script) + [OnReceiver(RecvData(id, data))] + found).core;
                old(conns)[id] in when.objects && r == Chosen(choice, when.objects[old(conns)[id]], when.cancelled)
      ensures r.Queued? ==>
                && id in old(conns) && receiver.Ready? && old(conns)[id] in objects
                && objects[old(conns)[id]].queue != []
                && objects[old(conns)[id]].queue[|objects[old(conns)[id]].queue| - 1] == data
      ensures script == old(script) + [OnReceiver(RecvData(id, data))]
                        + if id in old(conns) then found + Taken(r) else []
    {
      LinkedExist();
      var linked := LookUp(id, data);
      if !linked {
        return Rejected;
      }
      Meanwhile(found);
      assert script == old(script) + [OnReceiver(RecvData(id, data))] + found;
      r := Deliver(choice);
    }

    // ---- The goroutines of a connection ----

    method SetMySide(use: Use, side: Which, state: Side)
      requires use in objects
      modifies this`objects
      ensures View() == SetSide(old(View()), use, side, state)
    {
      objects := objects[use := objects[use].With(side, state)];
    }

    method LockAndUnlink(use: Use, side: Which) returns (moved: bool)
      requires Valid() && TargetEnabled(View(), use, TakeLock(side))
      modifies this
      ensures Valid() && script == old(script) + [OnTarget(use, TakeLock(side))]
      ensures View() == TakeLockStep(old(View()), use, side)
      ensures moved == (old(objects[use].id) in old(conns) && old(conns)[old(objects[use].id)] == use)
    {
      ghost var before := View();
      var id := objects[use].id;
      moved := id in conns && conns[id] == use;
      if moved {
        conns := conns - {id};
        locallyClosed := locallyClosed + {id};
      }
      SetMySide(use, side, if moved then Unlinked else Done);
      Note(before, OnTarget(use, TakeLock(side)));
    }

    method CloseMine(use: Use, side: Which)
      requires Valid() && TargetEnabled(View(), use, CloseFailed(side))
      modifies this
      ensures Valid() && script == old(script) + [OnTarget(use, CloseFailed(side))]
      ensures View() == CloseObject(SetSide(old(View()), use, side, Closing), use)
    {
      ghost var before := View();
      SetMySide(use, side, Closing);
      objects := objects[use := objects[use].(closed := true)];
      Note(before, OnTarget(use, CloseFailed(side)));
    }

    method SendMyClose(use: Use, side: Which, ok: bool)
      requires Valid() && TargetEnabled(View(), use, SendClose(side, ok))
      modifies this
      ensures Valid() && script == old(script) + [OnTarget(use, SendClose(side, ok))]
      ensures View() == SendCloseStep(old(View()), use, side, ok)
    {
      ghost var before := View();
      var id := objects[use].id;
      SetMySide(use, side, Done);
      if ok { wire := wire + [Close(id)]; } else { cancelled := true; }
      Note(before, OnTarget(use, SendClose(side, ok)));
    }

    /** Close the connection and send the Close that is owed. */
    method PayClose(use: Use, side: Which, unlinked: seq<Action>, closed: seq<Action>, ok: bool)
      requires Valid() && use in objects && use < nextUse && objects[use].At(side).Unlinked?
      requires NotBy(unlinked, use, side) && NotBy(closed, use, side)
      modifies this
      ensures Valid() && use in objects && objects[use].At(side).Done? && objects[use].closed && old(wire) <= wire
      ensures ok ==> wire != [] && wire[|wire| - 1] == Close(old(objects[use].id))
      ensures script == old(script) + unlinked + [OnTarget(use, CloseFailed(side))]
                        + closed + [OnTarget(use, SendClose(side, ok))]
    {
      Meanwhile(unlinked);
      CloseMine(use, side);
      Meanwhile(closed);
      SendMyClose(use, side, ok);
    }

    /**
     A failure that no longer owns its id touches neither map and sends nothing. One that does closes
     its own connection and sends one Close, whatever the other goroutines do in between.
     */
    method TargetFailed(use: Use, side: Which, unlinked: seq<Action>, closed: seq<Action>, ok: bool)
      returns (moved: bool)
      requires Valid() && TargetEnabled(View(), use, TakeLock(side))
      requires NotBy(unlinked, use, side) && NotBy(closed, use, side)
      modifies this
      ensures Valid() && use in objects && objects[use].At(side).Done? && old(wire) <= wire
      ensures moved == (old(objects[use].id) in old(conns) && old(conns)[old(objects[use].id)] == use)
      ensures !moved ==> conns == old(conns) && locallyClosed == old(locallyClosed) && wire == old(wire)
      ensures moved ==> objects[use].closed
      ensures moved && ok ==> wire != [] && wire[|wire| - 1] == Close(old(objects[use].id))
      ensures script == old(script) + [OnTarget(use, TakeLock(side))]
                        + (if !moved then []
                           else unlinked + [OnTarget(use, CloseFailed(side))]
                                + closed + [OnTarget(use, SendClose(side, ok))])
    {
      LinkedExist();
      moved := LockAndUnlink(use, side);
      if moved { PayClose(use, side, unlinked, closed, ok); }
    }

    method WriteOnce(use: Use, count: nat)
      requires Valid() && TargetEnabled(View(), use, WriteSome(count))
      modifies this
      ensures Valid() && script == old(script) + [OnTarget(use, WriteSome(count))]
      ensures View() == WriteSomeStep(old(View()), use, count)
    {
      ghost var before := View();
      var c := objects[use];
      if count == 0 {
        SetMySide(use, Writer, Failing);
      } else {
        objects := objects[use := c.(current := c.current[count..], written := c.written + c.current[..count])];
      }
      Note(before, OnTarget(use, WriteSome(count)));
    }

    method BreakOff(use: Use, side: Which)
      requires Valid() && TargetEnabled(View(), use, TargetError(side))
      modifies this
      ensures Valid() && script == old(script) + [OnTarget(use, TargetError(side))]
      ensures View() == SetSide(old(View()), use, side, Failing)
    {
      ghost var before := View();
      SetMySide(use, side, Failing);
      Note(before, OnTarget(use, TargetError(side)));
    }

    /** The target takes the first `count` bytes. */
    method TakeBytes(use: Use, count: nat)
      requires Valid() && TargetEnabled(View(), use, WriteSome(count)) && use < nextUse
      modifies this
      ensures Valid() && use in objects && use < nextUse && wire == old(wire) && old(script) <= script
      ensures if count != 0 then objects[use].writer.Running? else objects[use].writer.Failing?
      ensures objects[use].written == old(objects[use].written) + old(objects[use].current)[..count]
      ensures objects[use].current == old(objects[use].current)[count..]
    {
      ghost var c := objects[use];
      assert c.written + [] == c.written;
      WriteOnce(use, count);
    }

    /** One write. It may take bytes and still report an error. */
    method WriteSomeMore(use: Use, turn: WriteTurn) returns (some: bool)
      requires Valid() && use in objects && use < nextUse && objects[use].writer.Running? && objects[use].current != []
      requires NotBy(turn.meanwhile, use, Writer)
      modifies this
      ensures Valid() && use in objects && use < nextUse && old(wire) <= wire && old(script) <= script
      ensures some <==> turn.count != 0 && !turn.failed
      ensures if some then objects[use].writer.Running? else objects[use].writer.Failing?
      ensures var n := AtMost(turn.count, |old(objects[use].current)|);
              && objects[use].written == old(objects[use].written) + old(objects[use].current)[..n]
              && objects[use].current == old(objects[use].current)[n..]
    {
      Meanwhile(turn.meanwhile);
      var left := objects[use].current;
      var count := if turn.count <= |left| then turn.count else |left|;
      some := count != 0 && !turn.failed;
      assert objects[use].written + [] == objects[use].written;
      if count != 0 || !turn.failed { TakeBytes(use, count); }
      if turn.failed { BreakOff(use, Writer); }
    }

    /**
     Write until the payload is gone, whatever else happens. What goes out, and whether the payload is
     finished, is as `Delivered` says; it gives up without a failure only when no turn is left.
     */
    method WritePayload(use: Use, writes: seq<WriteTurn>) returns (finished: bool, used: nat)
      requires Valid() && use in objects && use < nextUse && objects[use].writer.Running?
      requires forall turn <- writes :: NotBy(turn.meanwhile, use, Writer)
      modifies this
      ensures Valid() && use in objects && old(wire) <= wire && old(script) <= script && used <= |writes|
      ensures Delivered(objects[use], old(objects[use].written), old(objects[use].current), writes, finished)
      ensures finished <==> objects[use].current == [] && objects[use].writer.Running?
      ensures objects[use].writer.Running? || objects[use].writer.Failing?
      ensures !finished && objects[use].writer.Running? ==> used == |writes|
    {
      used := 0;
      ghost var payload, before := objects[use].current, objects[use].written;
      NothingWritten(objects[use], writes);
      while objects[use].current != [] && used < |writes|
        invariant used <= |writes| && Valid() && old(wire) <= wire && old(script) <= script
        invariant use in objects && use < nextUse && objects[use].writer.Running?
        invariant Midway(objects[use], before, payload, writes, used)
        decreases |writes| - used
      {
        assert writes[used] in writes;
        ghost var c := objects[use];
        var some := WriteSomeMore(use, writes[used]);
        WroteNext(c, objects[use], before, payload, writes, used);
        used := used + 1;
        if !some {
          return false, used;
        }
      }
      finished := objects[use].current == [];
      WroteAll(objects[use], before, payload, writes, used);
    }

    // ---- The end ----

    method TakeAll()
      requires Valid() && receiver.Stopping?
      modifies this
      ensures Valid() && script == old(script) + [OnReceiver(Shutdown)]
      ensures View() == ShutdownStep(old(View()))
    {
      ghost var before := View();
      cancelled := true;
      var connections := conns.Values;
      conns := map[];
      locallyClosed := {};
      receiver := Draining(connections);
      Note(before, OnReceiver(Shutdown));
    }

    method CloseOne(use: Use)
      requires Valid() && receiver.Draining? && use in receiver.left && use in objects
      modifies this
      ensures Valid() && script == old(script) + [OnReceiver(DrainOne(use))]
      ensures View() == CloseObject(old(View()), use).(receiver := Draining(old(receiver.left) - {use}))
    {
      ghost var before := View();
      objects := objects[use := objects[use].(closed := true)];
      receiver := Draining(receiver.left - {use});
      Note(before, OnReceiver(DrainOne(use)));
    }

    method CloseLeft(between: seq<seq<Action>>)
      requires Valid() && receiver.Draining? && conns == map[] && locallyClosed == {} && cancelled
      requires receiver.left <= objects.Keys && forall steps <- between :: OnlyTargets(steps)
      modifies this
      ensures Valid() && cancelled && conns == map[] && locallyClosed == {} && receiver == Draining({})
      ensures forall use <- old(receiver.left) :: use in objects && objects[use].closed
    {
      ghost var taken := receiver.left;
      var i := 0;
      while receiver.left != {}
        invariant Valid() && cancelled && conns == map[] && locallyClosed == {} && receiver.Draining?
        invariant receiver.left <= taken <= objects.Keys
        invariant forall use <- taken :: use in receiver.left || objects[use].closed
        decreases receiver.left
      {
        if i < |between| {
          assert between[i] in between;
          Drained(between[i]);
        }
        var use :| use in receiver.left;
        CloseOne(use);
        i := i + 1;
      }
    }

    /** Every connection linked when the loop stopped is closed, and both maps stay empty, whatever fails meanwhile. */
    method CloseConnections(between: seq<seq<Action>>)
      requires Valid() && receiver.Stopping? && forall steps <- between :: OnlyTargets(steps)
      modifies this
      ensures Valid() && cancelled && conns == map[] && locallyClosed == {} && receiver == Draining({})
      ensures forall id <- old(conns) :: old(conns)[id] in objects && objects[old(conns)[id]].closed
    {
      LinkedExist();
      TakeAll();
      CloseLeft(between);
    }

    /** Goroutines that fail after the shutdown find both maps empty and leave them so. */
    method Drained(steps: seq<Action>)
      requires Valid() && receiver.Draining? && conns == map[] && locallyClosed == {} && cancelled && OnlyTargets(steps)
      modifies this
      ensures Valid() && receiver == old(receiver) && conns == map[] && locallyClosed == {} && cancelled
      ensures objects.Keys == old(objects.Keys)
      ensures forall use <- objects :: old(objects)[use].closed ==> objects[use].closed
    {
      Meanwhile(steps);
      forall id ensures id !in locallyClosed { assert !Busy(View(), id); }
    }
  }

  /** Which branch of the `select` in `write` is tried. */
  datatype Choice = Queue | SeeClosed | SeeCancelled

  datatype Delivery = Queued | Rejected | Abandoned | Blocked

  /** The branch tried, if it is ready: room in the queue, a closed connection, or the end of the context. */
  function Chosen(choice: Choice, c: Conn, cancelled: bool): Delivery {
    match choice
    case Queue => if |c.queue| < WRITE_QUEUE then Queued else Blocked
    case SeeClosed => if c.closed then Rejected else Blocked
    case SeeCancelled => if cancelled then Abandoned else Blocked
  }

  function Taken(r: Delivery): seq<Action> {
    match r
    case Queued => [OnReceiver(Enqueue)]
    case Rejected => [OnReceiver(Reject)]
    case Abandoned => [OnReceiver(Abandon)]
    case Blocked => []
  }

  /** What others do before a write to the target, how much of it the target accepts, and whether it then fails. */
  datatype WriteTurn = WriteTurn(meanwhile: seq<Action>, count: nat, failed: bool)

  function AtMost(n: nat, limit: nat): nat { if n <= limit then n else limit }

  /** The write goes on: it took something and did not fail. */
  predicate Good(turn: WriteTurn) { turn.count != 0 && !turn.failed }

  /** The first turn that ends the writing, or their number. */
  function FirstBad(writes: seq<WriteTurn>): (n: nat)
    ensures n <= |writes| && (n < |writes| ==> !Good(writes[n])) && forall k :: 0 <= k < n ==> Good(writes[k])
  {
    if writes == [] || !Good(writes[0]) then 0 else FirstBad(writes[1..]) + 1
  }

  /** How many bytes the turns before turn `n` would take. */
  function TakenBefore(writes: seq<WriteTurn>, n: nat): nat
    requires n <= |writes|
  {
    if n == 0 then 0 else TakenBefore(writes, n - 1) + writes[n - 1].count
  }

  /** The same with turn `n` itself, if there is one. */
  function TakenThrough(writes: seq<WriteTurn>, n: nat): nat
    requires n <= |writes|
  {
    TakenBefore(writes, n) + if n < |writes| then writes[n].count else 0
  }

  lemma {:induction false} TakenGrows(writes: seq<WriteTurn>, m: nat, n: nat)
    requires m <= n <= |writes|
    ensures TakenBefore(writes, m) <= TakenBefore(writes, n)
  {
    if m < n { TakenGrows(writes, m, n - 1); }
  }

  /** The first `n` bytes of the payload went out after `before`. */
  ghost predicate Wrote(c: Conn, before: seq<byte>, payload: seq<byte>, n: nat) {
    n <= |payload| && c.written == before + payload[..n] && c.current == payload[n..]
  }

  /** Good turns only, so far. */
  ghost predicate Midway(c: Conn, before: seq<byte>, payload: seq<byte>, writes: seq<WriteTurn>, i: nat) {
    && i <= FirstBad(writes) <= |writes|
    && Wrote(c, before, payload, AtMost(TakenBefore(writes, i), |payload|))
  }

  /**
   What went out is the first bytes of the payload, as many as the turns take up to the first that
   fails or takes nothing, that one included. It is finished if and only if the turns before that one
   take it all.
   */
  ghost predicate Delivered(c: Conn, before: seq<byte>, payload: seq<byte>, writes: seq<WriteTurn>, finished: bool) {
    && FirstBad(writes) <= |writes|
    && Wrote(c, before, payload, AtMost(TakenThrough(writes, FirstBad(writes)), |payload|))
    && (finished <==> |payload| <= TakenBefore(writes, FirstBad(writes)))
    && (finished ==> c.written == before + payload)
  }

  lemma NothingWritten(c: Conn, writes: seq<WriteTurn>)
    ensures Midway(c, c.written, c.current, writes, 0)
  {
    assert c.written + c.current[..0] == c.written;
  }

  lemma WroteNext(c: Conn, c': Conn, before: seq<byte>, payload: seq<byte>, writes: seq<WriteTurn>, i: nat)
    requires i < |writes| && Midway(c, before, payload, writes, i) && c.current != []
    requires var n := AtMost(writes[i].count, |c.current|);
             c'.written == c.written + c.current[..n] && c'.current == c.current[n..]
    ensures if Good(writes[i]) then Midway(c', before, payload, writes, i + 1)
            else Delivered(c', before, payload, writes, false)
  {
    var n, more := TakenBefore(writes, i), AtMost(writes[i].count, |c.current|);
    assert payload[..n] + payload[n..][..more] == payload[..n + more];
    assert payload[n..][more..] == payload[n + more..];
    assert before + payload[..n] + payload[n..][..more] == before + payload[..n + more];
  }

  /** When the loop ends without a bad turn, the payload is gone or every turn was used. */
  lemma WroteAll(c: Conn, before: seq<byte>, payload: seq<byte>, writes: seq<WriteTurn>, i: nat)
    requires i <= |writes| && Midway(c, before, payload, writes, i) && (c.current == [] || i == |writes|)
    ensures Delivered(c, before, payload, writes, c.current == [])
  {
    TakenGrows(writes, i, FirstBad(writes));
    assert payload[..|payload|] == payload;
  }
}
