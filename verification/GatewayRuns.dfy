/** What every interleaving of the gateway's goroutines keeps, and when a reused id is safe on the wire. */
module GatewayRuns {
  import opened Basics
  import opened Gateway

  // ---- The two maps ----

  predicate ConnSound(w: World, id: Id)
    requires id in w.core.conns
  {
    var use := w.core.conns[id];
    && use in w.core.objects && w.core.objects[use].id == id && !w.core.objects[use].Owes()
    && id in w.audit.latest && w.audit.latest[id] == use
    && !ServerClosed(w.audit, id) && id !in w.core.locallyClosed
  }

  predicate ReceiverSound(w: World) {
    match w.core.receiver
    case Dialing(id, use) =>
      && use !in w.core.objects && use < w.core.nextUse && !Busy(w.core, id)
      && id in w.audit.latest && w.audit.latest[id] == use && !ServerClosed(w.audit, id)
    case DialFailed(id, use) =>
      use !in w.core.objects && use < w.core.nextUse && id in w.audit.latest && w.audit.latest[id] == use
    case Draining(_) => w.core.conns == map[] && w.core.locallyClosed == {}
    case _ => true
  }

  predicate InUse(s: Core, id: Id) {
    Busy(s, id) || (s.receiver.Dialing? && s.receiver.id == id) || s.receiver.Draining?
  }

  predicate ConnsSound(w: World) { forall id <- w.core.conns :: ConnSound(w, id) }

  predicate LocalSound(w: World) {
    forall id <- w.core.locallyClosed :: id in w.audit.latest && !ServerClosed(w.audit, id)
  }

  predicate CountsSound(w: World) {
    && (forall use <- w.core.objects :: use < w.core.nextUse && w.core.objects[use].id in w.audit.latest)
    && (forall id <- w.audit.latest :: w.audit.latest[id] < w.core.nextUse)
    && (forall id <- w.audit.remote :: w.audit.remote[id] < w.core.nextUse)
  }

  /** An id that is in neither map was closed by the server. */
  predicate FreeSound(w: World) {
    forall id <- w.audit.latest :: InUse(w.core, id) || ServerClosed(w.audit, id)
  }

  /** `conns` and `locallyClosed` are disjoint, and both hold only ids the server has not closed. */
  predicate MapsSound(w: World) {
    ConnsSound(w) && LocalSound(w) && CountsSound(w) && FreeSound(w) && ReceiverSound(w)
  }

  /** Connection objects changed, but not who they are, and no linked one owes a Close. */
  lemma MapsFrame(w: World, w': World)
    requires MapsSound(w)
    requires w'.core.conns == w.core.conns && w'.core.locallyClosed == w.core.locallyClosed
    requires w'.core.nextUse == w.core.nextUse && w'.core.objects.Keys == w.core.objects.Keys
    requires w'.audit.latest == w.audit.latest && w'.audit.remote == w.audit.remote
    requires w'.core.receiver == w.core.receiver || !(w.core.receiver.Dialing? || w.core.receiver.Draining?)
    requires ReceiverSound(w')
    requires forall use <- w.core.objects :: w'.core.objects[use].id == w.core.objects[use].id
    requires forall id <- w.core.conns :: w.core.conns[id] in w'.core.objects
              && !w'.core.objects[w.core.conns[id]].Owes()
    ensures MapsSound(w')
  {
    forall id <- w'.core.conns ensures ConnSound(w', id) { assert ConnSound(w, id); }
  }

  lemma MapsOpen(w: World, id: Id)
    requires MapsSound(w) && w.core.receiver.Ready?
    ensures MapsSound(ReceiverStep(w, RecvOpen(id)))
  {
    var w' := ReceiverStep(w, RecvOpen(id));
    forall i <- w'.core.conns ensures ConnSound(w', i) { assert ConnSound(w, i); }
  }

  lemma MapsDialed(w: World, ok: bool)
    requires MapsSound(w) && w.core.receiver.Dialing?
    ensures MapsSound(ReceiverStep(w, Dialed(ok)))
  {
    var w' := ReceiverStep(w, Dialed(ok));
    forall i <- w'.core.conns ensures ConnSound(w', i) { assert i == w.core.receiver.id || ConnSound(w, i); }
  }

  lemma MapsClose(w: World, id: Id)
    requires MapsSound(w) && w.core.receiver.Ready?
    ensures MapsSound(ReceiverStep(w, RecvClose(id)))
  {
    var w' := ReceiverStep(w, RecvClose(id));
    assert id in w.core.conns ==> ConnSound(w, id);
    forall i <- w'.core.conns ensures ConnSound(w', i) { assert ConnSound(w, i); }
  }

  lemma MapsShutdown(w: World)
    requires MapsSound(w) && w.core.receiver.Stopping?
    ensures MapsSound(ReceiverStep(w, Shutdown))
  {
  }

  predicate Elsewhere(a: ReceiverAction) {
    !a.RecvOpen? && !a.Dialed? && !a.RecvClose? && !a.Shutdown?
  }

  /** The receive loop's other steps leave the maps alone and never change what a connection owes. */
  lemma MapsUntouched(s: Core, a: ReceiverAction)
    requires ReceiverEnabled(s, a) && Elsewhere(a)
    ensures var t := ReceiverNext(s, a);
            && t.conns == s.conns && t.locallyClosed == s.locallyClosed && t.nextUse == s.nextUse
            && t.objects.Keys == s.objects.Keys
            && (forall u <- s.objects :: t.objects[u].id == s.objects[u].id
                                          && t.objects[u].Owes() == s.objects[u].Owes())
            && (t.receiver.Draining? <==> s.receiver.Draining?)
            && (t.receiver == s.receiver || !s.receiver.Dialing?)
            && (t.receiver == s.receiver || t.receiver.Draining? || t.receiver.Ready?
              || t.receiver.Stopping? || t.receiver.Delivering?)
  {
  }

  lemma MapsElsewhere(w: World, a: ReceiverAction)
    requires MapsSound(w) && ReceiverEnabled(w.core, a) && Elsewhere(a)
    ensures MapsSound(ReceiverStep(w, a))
  {
    var w' := ReceiverStep(w, a);
    MapsUntouched(w.core, a);
    assert w'.audit.latest == w.audit.latest && w'.audit.remote == w.audit.remote;
    assert ReceiverSound(w');
    forall id <- w'.core.conns ensures ConnSound(w', id) { assert ConnSound(w, id); }
    assert CountsSound(w') && LocalSound(w');
    forall id <- w'.audit.latest ensures InUse(w'.core, id) || ServerClosed(w'.audit, id)
      { assert InUse(w.core, id) || ServerClosed(w.audit, id); }
  }

  lemma MapsReceiver(w: World, a: ReceiverAction)
    requires MapsSound(w) && ReceiverEnabled(w.core, a)
    ensures MapsSound(ReceiverStep(w, a))
  {
    match a
    case RecvOpen(id) => MapsOpen(w, id);
    case Dialed(ok) => MapsDialed(w, ok);
    case RecvClose(id) => MapsClose(w, id);
    case Shutdown => MapsShutdown(w);
    case _ => MapsElsewhere(w, a);
  }

  /** A goroutine touches its own connection object only. */
  lemma OwnObjectOnly(s: Core, use: Use, a: TargetAction)
    requires TargetEnabled(s, use, a)
    ensures var t := TargetNext(s, use, a);
            && t.objects.Keys == s.objects.Keys && t.objects[use].id == s.objects[use].id
            && (forall u <- s.objects :: u != use ==> t.objects[u] == s.objects[u])
            && (!a.TakeLock? && !s.objects[use].Owes() ==> !t.objects[use].Owes())
  {
  }

  /** A late failure never unlinks a connection other than its own. */
  lemma LateFailureIsLocal(s: Core, use: Use, a: TargetAction)
    requires TargetEnabled(s, use, a)
    ensures var t := TargetNext(s, use, a);
            && t.nextUse == s.nextUse && t.receiver == s.receiver
            && (forall id <- s.conns :: s.conns[id] != use ==> id in t.conns && t.conns[id] == s.conns[id])
            && (!a.TakeLock? ==> t.conns == s.conns && t.locallyClosed == s.locallyClosed)
  {
  }

  /** An id moves from one map to the other; its connection object may come to owe a Close. */
  lemma MapsMoved(w: World, w': World, id: Id)
    requires MapsSound(w) && id in w.core.conns
    requires w'.core.conns == w.core.conns - {id} && w'.core.locallyClosed == w.core.locallyClosed + {id}
    requires w'.core.nextUse == w.core.nextUse && w'.core.objects.Keys == w.core.objects.Keys
    requires w'.audit.latest == w.audit.latest && w'.audit.remote == w.audit.remote
    requires w'.core.receiver == w.core.receiver
    requires forall use <- w.core.objects :: w'.core.objects[use].id == w.core.objects[use].id
    requires forall use <- w.core.objects :: use != w.core.conns[id] ==> w'.core.objects[use] == w.core.objects[use]
    ensures MapsSound(w')
  {
    assert ConnSound(w, id);
    forall i <- w'.core.conns ensures ConnSound(w', i) { assert ConnSound(w, i); }
    forall i <- w'.audit.latest ensures InUse(w'.core, i) || ServerClosed(w'.audit, i) {
      assert InUse(w.core, i) || ServerClosed(w.audit, i);
    }
  }

  predicate OwnsId(s: Core, use: Use)
    requires use in s.objects
  {
    s.objects[use].id in s.conns && s.conns[s.objects[use].id] == use
  }

  lemma MapsOwner(w: World, use: Use, side: Which)
    requires MapsSound(w) && TargetEnabled(w.core, use, TakeLock(side)) && OwnsId(w.core, use)
    ensures MapsSound(TargetStep(w, use, TakeLock(side)))
  {
    OwnObjectOnly(w.core, use, TakeLock(side));
    MapsMoved(w, TargetStep(w, use, TakeLock(side)), w.core.objects[use].id);
  }

  lemma MapsTooLate(w: World, use: Use, side: Which)
    requires MapsSound(w) && TargetEnabled(w.core, use, TakeLock(side)) && !OwnsId(w.core, use)
    ensures MapsSound(TargetStep(w, use, TakeLock(side)))
  {
    OwnObjectOnly(w.core, use, TakeLock(side));
    forall i <- w.core.conns ensures ConnSound(w, i) { }
    MapsFrame(w, TargetStep(w, use, TakeLock(side)));
  }

  lemma MapsTakeLock(w: World, use: Use, side: Which)
    requires MapsSound(w) && TargetEnabled(w.core, use, TakeLock(side))
    ensures MapsSound(TargetStep(w, use, TakeLock(side)))
  {
    if OwnsId(w.core, use) { MapsOwner(w, use, side); } else { MapsTooLate(w, use, side); }
  }

  lemma MapsTarget(w: World, use: Use, a: TargetAction)
    requires MapsSound(w) && TargetEnabled(w.core, use, a)
    ensures MapsSound(TargetStep(w, use, a))
  {
    if a.TakeLock? {
      MapsTakeLock(w, use, a.side);
    } else {
      OwnObjectOnly(w.core, use, a);
      LateFailureIsLocal(w.core, use, a);
      forall id <- w.core.conns ensures ConnSound(w, id) { }
      MapsFrame(w, TargetStep(w, use, a));
    }
  }

  // ---- At most one Close per use ----

  predicate Closed(o: Audit, use: Use) {
    exists i :: 0 <= i < |o.closes| && o.closes[i].use == use
  }

  predicate OwesSound(w: World, use: Use)
    requires use in w.core.objects
  {
    var c := w.core.objects[use];
    !(c.reader.Owes() && c.writer.Owes()) && (c.Owes() ==> !Closed(w.audit, use))
  }

  /** The Close frames among `wire`, by id. */
  function CloseIds(wire: seq<Frame>): seq<Id> {
    if wire == [] then []
    else
      var f := wire[|wire| - 1];
      CloseIds(wire[..|wire| - 1]) + (if f.Close? then [f.id] else [])
  }

  /** The observer's record is the wire, and no use appears in it twice. */
  predicate LogSound(w: World) {
    && CloseIds(w.core.wire) == seq(|w.audit.closes|, i requires 0 <= i < |w.audit.closes| => w.audit.closes[i].id)
    && (forall i :: 0 <= i < |w.audit.closes| ==> w.audit.closes[i].use < w.core.nextUse)
    && (forall i, j :: 0 <= i < j < |w.audit.closes| ==> w.audit.closes[i].use != w.audit.closes[j].use)
  }

  predicate ClosesSound(w: World) {
    && LogSound(w)
    && (forall use <- w.core.objects :: OwesSound(w, use))
    && (forall id <- w.core.conns :: !Closed(w.audit, w.core.conns[id]))
    && (w.core.receiver.Dialing? || w.core.receiver.DialFailed? ==> !Closed(w.audit, w.core.receiver.use))
  }

  lemma CloseIdsSnoc(wire: seq<Frame>, f: Frame)
    ensures CloseIds(wire + [f]) == CloseIds(wire) + (if f.Close? then [f.id] else [])
  {
    assert (wire + [f])[..|wire|] == wire;
  }

  /** Recording a Close for a use that had none. */
  lemma LogClose(w: World, w': World, id: Id, use: Use, latest: Use)
    requires LogSound(w) && !Closed(w.audit, use) && use < w.core.nextUse == w'.core.nextUse
    requires w'.core.wire == w.core.wire + [Close(id)]
    requires w'.audit.closes == w.audit.closes + [Sent(id, use, latest)]
    ensures LogSound(w')
    ensures forall u: Use :: Closed(w'.audit, u) <==> u == use || Closed(w.audit, u)
  {
    CloseIdsSnoc(w.core.wire, Close(id));
    var n := |w.audit.closes|;
    assert forall i :: 0 <= i < n ==> w'.audit.closes[i] == w.audit.closes[i];
    assert w'.audit.closes[n].use == use;
    forall u: Use ensures Closed(w'.audit, u) <==> u == use || Closed(w.audit, u) {
      if Closed(w.audit, u) {
        var i :| 0 <= i < n && w.audit.closes[i].use == u;
        assert w'.audit.closes[i].use == u;
      }
    }
  }

  lemma ClosesSent(w: World, use: Use, side: Which, ok: bool)
    requires MapsSound(w) && ClosesSound(w) && TargetEnabled(w.core, use, SendClose(side, ok))
    ensures ClosesSound(TargetStep(w, use, SendClose(side, ok)))
  {
    var w' := TargetStep(w, use, SendClose(side, ok));
    assert OwesSound(w, use);
    if ok {
      LogClose(w, w', w.core.objects[use].id, use, Latest(w.audit, w.core.objects[use].id, use));
    }
    forall u <- w'.core.objects ensures OwesSound(w', u) { assert OwesSound(w, u); }
    forall id <- w'.core.conns ensures !Closed(w'.audit, w'.core.conns[id]) { assert ConnSound(w, id); }
  }

  predicate NoNewDebt(s: Core, t: Core) {
    forall u <- t.objects ::
      if u in s.objects then
        && (t.objects[u].reader.Owes() ==> s.objects[u].reader.Owes())
        && (t.objects[u].writer.Owes() ==> s.objects[u].writer.Owes())
      else !t.objects[u].Owes()
  }

  /** Only `targetFailed`, under the lock, makes a goroutine owe a Close. */
  lemma DebtTarget(s: Core, use: Use, a: TargetAction)
    requires TargetEnabled(s, use, a)
    requires a.TakeLock? ==> s.objects[use].id !in s.conns || s.conns[s.objects[use].id] != use
    ensures NoNewDebt(s, TargetNext(s, use, a))
  {
  }

  lemma DebtReceiver(s: Core, a: ReceiverAction)
    requires ReceiverEnabled(s, a)
    ensures NoNewDebt(s, ReceiverNext(s, a))
  {
  }

  /** No Close was recorded and no goroutine came to owe one. */
  lemma ClosesFrame(w: World, w': World)
    requires ClosesSound(w) && w'.audit.closes == w.audit.closes && w.core.nextUse <= w'.core.nextUse
    requires CloseIds(w'.core.wire) == CloseIds(w.core.wire)
    requires NoNewDebt(w.core, w'.core)
    requires forall id <- w'.core.conns :: !Closed(w.audit, w'.core.conns[id])
    requires w'.core.receiver.Dialing? || w'.core.receiver.DialFailed? ==> !Closed(w.audit, w'.core.receiver.use)
    ensures ClosesSound(w')
  {
    assert forall u: Use :: Closed(w'.audit, u) == Closed(w.audit, u);
    forall u <- w'.core.objects ensures OwesSound(w', u) { assert u in w.core.objects ==> OwesSound(w, u); }
  }

  lemma ClosesUnlinked(w: World, use: Use, side: Which)
    requires MapsSound(w) && ClosesSound(w) && TargetEnabled(w.core, use, TakeLock(side))
    requires w.core.objects[use].id in w.core.conns && w.core.conns[w.core.objects[use].id] == use
    ensures ClosesSound(TargetStep(w, use, TakeLock(side)))
  {
    var w' := TargetStep(w, use, TakeLock(side));
    assert ConnSound(w, w.core.objects[use].id);
    assert LogSound(w');
    forall u <- w'.core.objects ensures OwesSound(w', u) { assert OwesSound(w, u); }
  }

  lemma ClosesTarget(w: World, use: Use, a: TargetAction)
    requires MapsSound(w) && ClosesSound(w) && TargetEnabled(w.core, use, a)
    ensures ClosesSound(TargetStep(w, use, a))
  {
    var id := w.core.objects[use].id;
    if a.SendClose? {
      ClosesSent(w, use, a.side, a.ok);
    } else if a.TakeLock? && id in w.core.conns && w.core.conns[id] == use {
      ClosesUnlinked(w, use, a.side);
    } else {
      DebtTarget(w.core, use, a);
      LateFailureIsLocal(w.core, use, a);
      if a.Relay? && a.ok { CloseIdsSnoc(w.core.wire, Data(id, a.data)); }
      ClosesFrame(w, TargetStep(w, use, a));
    }
  }

  lemma ClosesDialFailed(w: World, ok: bool)
    requires MapsSound(w) && ClosesSound(w) && ReceiverEnabled(w.core, SendDialClose(ok))
    ensures ClosesSound(ReceiverStep(w, SendDialClose(ok)))
  {
    var w' := ReceiverStep(w, SendDialClose(ok));
    var id, use := w.core.receiver.id, w.core.receiver.use;
    if ok { LogClose(w, w', id, use, Latest(w.audit, id, use)); }
    forall u <- w'.core.objects ensures OwesSound(w', u) { assert OwesSound(w, u); }
    forall i <- w'.core.conns ensures !Closed(w'.audit, w'.core.conns[i]) { assert ConnSound(w, i); }
  }

  /** A step of the receive loop sends no Close of its own and links no use that was closed. */
  predicate LinksOpenUses(w: World, w': World) {
    && w'.audit.closes == w.audit.closes && w'.core.wire == w.core.wire && w.core.nextUse <= w'.core.nextUse
    && (forall id <- w'.core.conns :: !Closed(w.audit, w'.core.conns[id]))
    && (w'.core.receiver.Dialing? || w'.core.receiver.DialFailed? ==> !Closed(w.audit, w'.core.receiver.use))
  }

  lemma LinksOpen(w: World, id: Id)
    requires ClosesSound(w) && ReceiverEnabled(w.core, RecvOpen(id))
    ensures LinksOpenUses(w, ReceiverStep(w, RecvOpen(id)))
  {
  }

  lemma LinksDialed(w: World, ok: bool)
    requires ClosesSound(w) && ReceiverEnabled(w.core, Dialed(ok))
    ensures LinksOpenUses(w, ReceiverStep(w, Dialed(ok)))
  {
  }

  lemma LinksClose(w: World, id: Id)
    requires ClosesSound(w) && ReceiverEnabled(w.core, RecvClose(id))
    ensures LinksOpenUses(w, ReceiverStep(w, RecvClose(id)))
  {
  }

  lemma LinksElsewhere(w: World, a: ReceiverAction)
    requires ClosesSound(w) && ReceiverEnabled(w.core, a) && Elsewhere(a) && !a.SendDialClose?
    ensures LinksOpenUses(w, ReceiverStep(w, a))
  {
    MapsUntouched(w.core, a);
  }

  lemma LinksReceiver(w: World, a: ReceiverAction)
    requires ClosesSound(w) && ReceiverEnabled(w.core, a) && !a.SendDialClose?
    ensures LinksOpenUses(w, ReceiverStep(w, a))
  {
    match a
    case RecvOpen(id) => LinksOpen(w, id);
    case Dialed(ok) => LinksDialed(w, ok);
    case RecvClose(id) => LinksClose(w, id);
    case Shutdown =>
    case _ => LinksElsewhere(w, a);
  }

  lemma ClosesReceiver(w: World, a: ReceiverAction)
    requires MapsSound(w) && ClosesSound(w) && ReceiverEnabled(w.core, a)
    ensures ClosesSound(ReceiverStep(w, a))
  {
    if a.SendDialClose? {
      ClosesDialFailed(w, a.ok);
    } else {
      DebtReceiver(w.core, a);
      LinksReceiver(w, a);
      ClosesFrame(w, ReceiverStep(w, a));
    }
  }

  // ---- Bytes from the server to the target ----

  predicate BytesSound(w: World, use: Use)
    requires use in w.core.objects
  {
    var c := w.core.objects[use];
    use in w.audit.received && w.audit.received[use] == c.written + c.current + Flatten(c.queue)
  }

  /** What was written to a target, is being written and is queued, in order, is what the server sent for it. */
  predicate DataSound(w: World) {
    forall use <- w.core.objects :: BytesSound(w, use)
  }

  lemma DataDequeue(w: World, use: Use)
    requires DataSound(w) && TargetEnabled(w.core, use, Dequeue)
    ensures DataSound(TargetStep(w, use, Dequeue))
  {
    var w', c := TargetStep(w, use, Dequeue), w.core.objects[use];
    FlattenCons(c.queue[0], c.queue[1..]);
    assert c.queue == [c.queue[0]] + c.queue[1..];
    forall u <- w'.core.objects ensures BytesSound(w', u) { assert BytesSound(w, u); }
  }

  lemma DataWrite(w: World, use: Use, count: nat)
    requires DataSound(w) && TargetEnabled(w.core, use, WriteSome(count))
    ensures DataSound(TargetStep(w, use, WriteSome(count)))
  {
    var w', c := TargetStep(w, use, WriteSome(count)), w.core.objects[use];
    assert c.current == c.current[..count] + c.current[count..];
    assert c.written + c.current == (c.written + c.current[..count]) + c.current[count..];
    forall u <- w'.core.objects ensures BytesSound(w', u) { assert BytesSound(w, u); }
  }

  lemma DataTarget(w: World, use: Use, a: TargetAction)
    requires DataSound(w) && TargetEnabled(w.core, use, a)
    ensures DataSound(TargetStep(w, use, a))
  {
    match a
    case Dequeue => DataDequeue(w, use);
    case WriteSome(count) => DataWrite(w, use, count);
    case _ =>
      var w' := TargetStep(w, use, a);
      forall u <- w'.core.objects ensures BytesSound(w', u) { assert BytesSound(w, u); }
  }

  lemma DataEnqueue(w: World)
    requires DataSound(w) && ReceiverEnabled(w.core, Enqueue)
    ensures DataSound(ReceiverStep(w, Enqueue))
  {
    var w' := ReceiverStep(w, Enqueue);
    FlattenSnoc(w.core.objects[w.core.receiver.use].queue, w.core.receiver.data);
    forall u <- w'.core.objects ensures BytesSound(w', u) { assert BytesSound(w, u); }
  }

  lemma DataReceiver(w: World, a: ReceiverAction)
    requires MapsSound(w) && DataSound(w) && ReceiverEnabled(w.core, a)
    ensures DataSound(ReceiverStep(w, a))
  {
    if a.Enqueue? {
      DataEnqueue(w);
    } else {
      var w' := ReceiverStep(w, a);
      forall u <- w'.core.objects ensures BytesSound(w', u) { assert u in w.core.objects ==> BytesSound(w, u); }
    }
  }

  // ---- Runs ----

  lemma {:induction false} EveryRunKeepsMaps(script: seq<Action>)
    ensures var w := Run(ATTACHED, script);
            MapsSound(w) && ClosesSound(w) && DataSound(w)
  {
    if script != [] {
      var n := |script| - 1;
      EveryRunKeepsMaps(script[..n]);
      var w := Run(ATTACHED, script[..n]);
      match script[n]
      case OnReceiver(a) =>
        if ReceiverEnabled(w.core, a) { MapsReceiver(w, a); ClosesReceiver(w, a); DataReceiver(w, a); }
      case OnTarget(use, a) =>
        if TargetEnabled(w.core, use, a) { MapsTarget(w, use, a); ClosesTarget(w, use, a); DataTarget(w, use, a); }
    }
  }

  /** An id is accepted again only after the server closed its previous use. */
  lemma ReopenedOnlyAfterClose(script: seq<Action>, id: Id)
    requires var w := Run(ATTACHED, script);
             ReceiverEnabled(w.core, RecvOpen(id)) && ReceiverStep(w, RecvOpen(id)).core.receiver.Dialing?
    ensures var w := Run(ATTACHED, script);
            id in w.audit.latest ==> ServerClosed(w.audit, id)
  {
    EveryRunKeepsMaps(script);
  }

  // ---- A reused id on the wire ----

  /** No goroutine of an earlier use still has to send Close for `id`. */
  predicate NoneOwed(s: Core, id: Id) {
    forall u <- s.objects :: s.objects[u].id == id ==> !s.objects[u].Owes()
  }

  /** An open that the gateway takes up, rather than stop on, reuses an id only when no Close is owed for it. */
  predicate CleanAction(w: World, a: Action) {
    (a.OnReceiver? && a.step.RecvOpen? && ReceiverEnabled(w.core, a.step) && !Busy(w.core, a.step.id)) ==>
      NoneOwed(w.core, a.step.id)
  }

  predicate CleanRun(w: World, script: seq<Action>) {
    script == [] ||
    (CleanRun(w, script[..|script| - 1]) && CleanAction(Run(w, script[..|script| - 1]), script[|script| - 1]))
  }

  /** No Close frame was sent for a use that a newer use of the same id had already replaced. */
  predicate NoStaleClose(w: World) {
    forall i :: 0 <= i < |w.audit.closes| ==> w.audit.closes[i].use == w.audit.closes[i].latest
  }

  predicate DebtsCurrent(w: World) {
    forall u <- w.core.objects :: w.core.objects[u].Owes() ==>
      w.core.objects[u].id in w.audit.latest && w.audit.latest[w.core.objects[u].id] == u
  }

  /** The one step that makes a connection owe a Close is taken by the current use of its id. */
  lemma StaleOwner(w: World, use: Use, side: Which)
    requires MapsSound(w) && DebtsCurrent(w) && NoStaleClose(w)
    requires TargetEnabled(w.core, use, TakeLock(side)) && OwnsId(w.core, use)
    ensures DebtsCurrent(TargetStep(w, use, TakeLock(side))) && NoStaleClose(TargetStep(w, use, TakeLock(side)))
  {
    OwnObjectOnly(w.core, use, TakeLock(side));
    assert ConnSound(w, w.core.objects[use].id);
  }

  lemma StaleTarget(w: World, use: Use, a: TargetAction)
    requires MapsSound(w) && DebtsCurrent(w) && NoStaleClose(w) && TargetEnabled(w.core, use, a)
    ensures DebtsCurrent(TargetStep(w, use, a)) && NoStaleClose(TargetStep(w, use, a))
  {
    if a.TakeLock? && OwnsId(w.core, use) {
      StaleOwner(w, use, a.side);
    } else {
      OwnObjectOnly(w.core, use, a);
      DebtTarget(w.core, use, a);
    }
  }

  lemma StaleReceiver(w: World, a: ReceiverAction)
    requires MapsSound(w) && DebtsCurrent(w) && NoStaleClose(w) && ReceiverEnabled(w.core, a)
    requires CleanAction(w, OnReceiver(a))
    ensures DebtsCurrent(ReceiverStep(w, a)) && NoStaleClose(ReceiverStep(w, a))
  {
    DebtReceiver(w.core, a);
  }

  lemma {:induction false} CleanRunsSendNoStaleClose(script: seq<Action>)
    requires CleanRun(ATTACHED, script)
    ensures DebtsCurrent(Run(ATTACHED, script)) && NoStaleClose(Run(ATTACHED, script))
  {
    if script != [] {
      var n := |script| - 1;
      CleanRunsSendNoStaleClose(script[..n]);
      EveryRunKeepsMaps(script[..n]);
      var w := Run(ATTACHED, script[..n]);
      match script[n]
      case OnReceiver(a) => if ReceiverEnabled(w.core, a) { StaleReceiver(w, a); }
      case OnTarget(use, a) => if TargetEnabled(w.core, use, a) { StaleTarget(w, use, a); }
    }
  }

  lemma {:induction false} RunAppend(w: World, a: seq<Action>, b: seq<Action>)
    ensures Run(w, a + b) == Run(Run(w, a), b)
    ensures CleanRun(w, a + b) <==> CleanRun(w, a) && CleanRun(Run(w, a), b)
  {
    if b == [] {
      assert a + b == a;
    } else {
      var n := |b| - 1;
      RunAppend(w, a, b[..n]);
      assert (a + b)[..|a| + n] == a + b[..n];
    }
  }

  lemma RunOne(w: World, a: Action)
    ensures Run(w, [a]) == Step(w, a)
    ensures CleanRun(w, [a]) <==> CleanAction(w, a)
  {
    assert [a][..0] == [];
  }

  ghost predicate StaysCurrent(w: World) {
    forall more: seq<Action> :: CleanRun(w, more) ==> NoStaleClose(Run(w, more))
  }

  /** The goroutine of the earlier use goes on to send its Close. */
  lemma DebtIsPaid(w: World, use: Use, side: Which) returns (script: seq<Action>)
    requires use in w.core.objects && w.core.objects[use].At(side).Owes()
    requires var id := w.core.objects[use].id;
             id in w.audit.latest && w.audit.latest[id] != use
    ensures CleanRun(w, script) && !NoStaleClose(Run(w, script))
    decreases w.core.objects[use].At(side).Unlinked?
  {
    if w.core.objects[use].At(side).Unlinked? {
      var a := OnTarget(use, CloseFailed(side));
      RunOne(w, a);
      var rest := DebtIsPaid(Step(w, a), use, side);
      RunAppend(w, [a], rest);
      script := [a] + rest;
    } else {
      var a := OnTarget(use, SendClose(side, true));
      RunOne(w, a);
      script := [a];
      var closes := Step(w, a).audit.closes;
      assert closes[|closes| - 1].use == use;
    }
  }

  /**
   After any clean run, accepting Open for a free id keeps every later Close frame about the
   current use if and only if no goroutine of an earlier use still owes one for that id.
   */
  lemma ReuseIsSafeIffNoneOwed(script: seq<Action>, id: Id)
    requires CleanRun(ATTACHED, script)
    requires var w := Run(ATTACHED, script);
             w.core.receiver.Ready? && !Busy(w.core, id)
    ensures var w := Run(ATTACHED, script);
            NoneOwed(w.core, id) <==> StaysCurrent(Step(w, OnReceiver(RecvOpen(id))))
  {
    var w := Run(ATTACHED, script);
    var open := OnReceiver(RecvOpen(id));
    var w' := Step(w, open);
    EveryRunKeepsMaps(script);
    RunOne(w, open);
    RunAppend(ATTACHED, script, [open]);
    if NoneOwed(w.core, id) {
      forall more: seq<Action> | CleanRun(w', more) ensures NoStaleClose(Run(w', more)) {
        RunAppend(ATTACHED, script + [open], more);
        CleanRunsSendNoStaleClose(script + [open] + more);
      }
    } else {
      var use :| use in w.core.objects && w.core.objects[use].id == id && w.core.objects[use].Owes();
      var more := DebtIsPaid(w', use, if w.core.objects[use].reader.Owes() then Reader else Writer);
      assert CleanRun(w', more);
    }
  }

  /** The target fails, and before the gateway's Close is out the server's own Close for the id arrives. */
  const CROSSED: seq<Action> :=
    [OnReceiver(RecvOpen(7)), OnReceiver(Dialed(true)), OnTarget(0, TargetError(Reader)), OnTarget(0, TakeLock(Reader)),
     OnReceiver(RecvClose(7))]

  /** The server may reuse the id now, and the late Close then names the new connection. */
  lemma CrossedCloses()
    ensures var w := Run(ATTACHED, CROSSED);
            && CleanRun(ATTACHED, CROSSED) && w.core.receiver.Ready? && !Busy(w.core, 7)
            && !StaysCurrent(Step(w, OnReceiver(RecvOpen(7))))
  {
    var a := CROSSED;
    RunOne(ATTACHED, a[0]);
    var w1 := Step(ATTACHED, a[0]);
    RunOne(w1, a[1]);
    RunAppend(ATTACHED, [a[0]], [a[1]]);
    var w2 := Step(w1, a[1]);
    assert w2.core.objects == map[0 := Conn(7, Running, Running, false, [], [], [])] && w2.core.conns == map[7 := 0];
    CrossedTail(w2);
    assert a == [a[0]] + [a[1]] + [a[2], a[3], a[4]];
    RunAppend(ATTACHED, [a[0]] + [a[1]], [a[2], a[3], a[4]]);
    var w := Run(ATTACHED, a);
    assert w.core.objects[0].Owes();
    ReuseIsSafeIffNoneOwed(a, 7);
  }

  lemma CrossedTail(w: World)
    requires w.core.objects == map[0 := Conn(7, Running, Running, false, [], [], [])] && w.core.conns == map[7 := 0]
    requires w.core.receiver.Ready? && w.core.locallyClosed == {}
    ensures var script := [CROSSED[2], CROSSED[3], CROSSED[4]];
            var w' := Run(w, script);
            && CleanRun(w, script) && w'.core.receiver.Ready? && !Busy(w'.core, 7)
            && 0 in w'.core.objects && w'.core.objects[0].id == 7 && w'.core.objects[0].Owes()
  {
    var a := CROSSED;
    var w1 := Step(w, a[2]);
    var w2 := Step(w1, a[3]);
    assert w2.core.objects[0].reader.Unlinked? && w2.core.conns == map[] && w2.core.locallyClosed == {7};
    var w3 := Step(w2, a[4]);
    RunOne(w, a[2]);
    RunOne(w1, a[3]);
    RunOne(w2, a[4]);
    RunAppend(w, [a[2]], [a[3]]);
    RunAppend(w, [a[2]] + [a[3]], [a[4]]);
    assert [a[2], a[3], a[4]] == [a[2]] + [a[3]] + [a[4]];
  }

  // ---- From the targets to the server ----

  /** The data on the wire for `id`, in order. */
  function DataFor(wire: seq<Frame>, id: Id): seq<seq<byte>> {
    if wire == [] then []
    else
      var before, last := DataFor(wire[..|wire| - 1], id), wire[|wire| - 1];
      if last.Data? && last.id == id then before + [last.data] else before
  }

  /** What the readers of connections with that id took from their targets and sent, in order. */
  function Relayed(script: seq<Action>, id: Id): seq<seq<byte>> {
    if script == [] then []
    else
      var front, a := script[..|script| - 1], script[|script| - 1];
      Relayed(front, id) + RelayedBy(Run(ATTACHED, front).core, a, id)
  }

  function RelayedBy(s: Core, a: Action, id: Id): seq<seq<byte>> {
    if a.OnTarget? && a.act.Relay? && TargetEnabled(s, a.use, a.act) && a.act.ok && s.objects[a.use].id == id
    then [a.act.data] else []
  }

  lemma DataSnoc(wire: seq<Frame>, f: Frame, id: Id)
    ensures DataFor(wire + [f], id) == DataFor(wire, id) + if f.Data? && f.id == id then [f.data] else []
  {
    assert (wire + [f])[..|wire|] == wire;
    assert DataFor(wire, id) + [] == DataFor(wire, id);
  }

  lemma TargetRelays(s: Core, use: Use, a: TargetAction, id: Id)
    requires TargetEnabled(s, use, a)
    ensures DataFor(TargetNext(s, use, a).wire, id) == DataFor(s.wire, id) + RelayedBy(s, OnTarget(use, a), id)
  {
    var t := TargetNext(s, use, a);
    assert DataFor(s.wire, id) + [] == DataFor(s.wire, id);
    if a.Relay? && a.ok { DataSnoc(s.wire, Data(s.objects[use].id, a.data), id); }
    if a.SendClose? && a.ok { DataSnoc(s.wire, Close(s.objects[use].id), id); }
  }

  lemma ReceiverRelaysNothing(s: Core, a: ReceiverAction, id: Id)
    requires ReceiverEnabled(s, a)
    ensures DataFor(ReceiverNext(s, a).wire, id) == DataFor(s.wire, id)
  {
    if a.SendDialClose? && a.ok { DataSnoc(s.wire, Close(s.receiver.id), id); }
  }

  /** In every run the data sent for an id is exactly what the readers of its connections relayed, in that order. */
  lemma {:induction false} RelayedInOrder(script: seq<Action>, id: Id)
    ensures DataFor(Run(ATTACHED, script).core.wire, id) == Relayed(script, id)
  {
    if script != [] {
      var front, a := script[..|script| - 1], script[|script| - 1];
      RelayedInOrder(front, id);
      var s := Run(ATTACHED, front).core;
      assert Relayed(front, id) + [] == Relayed(front, id);
      match a
      case OnReceiver(r) => if ReceiverEnabled(s, r) { ReceiverRelaysNothing(s, r, id); }
      case OnTarget(use, t) => if TargetEnabled(s, use, t) { TargetRelays(s, use, t, id); }
    }
  }
}
