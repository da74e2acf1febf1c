/**
 What every interleaving of the agent's threads keeps.

 A stream is an (epoch, frame id) pair. The host counts its frame ids from one again on
 every connection, so the same id names a new stream after a `hello`, and a frame on the
 wire carries only the id. `BindingsSound` needs nothing of the host. `TokensSound` holds
 when a pair is used once and an id is not bound while an exit for it is still on its way
 from an earlier connection. `FlowSound` also needs that no output for it is on its way,
 and that a session name is not opened again while a pump started under that name can
 still look it up.
 */
module PtyRuns {
  import opened Basics
  import opened Pty

  // ---- The observer ----

  datatype Holder = ByServe | ByPump(pump: nat)

  /** Who is responsible for ending a stream. */
  datatype Phase =
    | Free                                     // no thread owes it an exit
    | Held(holder: Holder)                     // exactly this thread owes it an exit
    | Done(at: nat, code: int, closed: bool)   // exit written after `at` live chunks

  /**
   `base` is all session output before the stream was bound, `pushed` the chunks pushed while it was.
   The host looks for its frames from `start` on, until the next `hello` sets `stop`.
   */
  datatype Stream = Stream(name: Name, base: seq<byte>, pushed: seq<Chunk>, sent: nat, broken: bool, phase: Phase,
                           start: nat, stop: Option<nat>)

  datatype Audit = Audit(history: map<Name, seq<byte>>, streams: map<Binding, Stream>)

  datatype World = World(core: Core, audit: Audit)

  function Put(o: Audit, b: Binding, st: Stream): Audit {
    o.(streams := o.streams[b := st])
  }

  /** A stream bound now, in session `name`, whose output so far is `base`. */
  function NewStream(s: Core, name: Name, base: seq<byte>, broken: bool, phase: Phase): Stream {
    Stream(name, base, [], 0, broken, phase, |s.wire|, None)
  }

  function ObserveAttach(s: Core, o: Audit, id: nat, name: Name, written: nat, flushed: bool): Audit {
    if name !in s.sessions || name !in o.history then o
    else
      var all := written >= |AttachFrames(id, name, s.sessions[name])|;
      var exit := s.sessions[name].exit;
      var phase := if exit.Some? && all then Done(0, exit.value, false) else Free;
      Put(o, Binding(s.epoch, id), NewStream(s, name, o.history[name], !all || !flushed, phase))
  }

  function ObserveClose(o: Audit, b: Option<Binding>): Audit {
    if b.None? || b.value !in o.streams then o
    else Put(o, b.value, o.streams[b.value].(phase := Held(ByServe)))
  }

  function ObserveCloseExit(s: Core, o: Audit, ok: bool): Audit
    requires s.serve.Removed?
  {
    var b := s.serve.binding;
    if b.None? || b.value !in o.streams then o
    else
      var st := o.streams[b.value];
      var phase := if ok && b.value.epoch == s.epoch then Done(st.sent, CloseCode(s.serve.exit), true) else Free;
      Put(o, b.value, st.(broken := st.broken || !ok, phase := phase))
  }

  /** A new connection has begun. */
  function Stopped(s: Core, st: Stream): Stream {
    st.(broken := true, stop := if st.stop.Some? then st.stop else Some(|s.wire|))
  }

  function ObserveServe(s: Core, o: Audit, a: ServeAction): Audit
    requires ServeEnabled(s, a)
  {
    match a
    case Hello(_, epoch) =>
      if epoch == 0 then o
      else o.(streams := map b | b in o.streams :: Stopped(s, o.streams[b]))
    case Open(id, name, spawned) =>
      if OpenStep(s, id, name, spawned).serve.Opened?
      then Audit(o.history[name := []], o.streams[Binding(s.epoch, id) := NewStream(s, name, [], false, Free)])
      else o
    case OpenReply(ok) =>
      var b := Binding(s.epoch, s.serve.id);
      if ok || b !in o.streams then o else Put(o, b, o.streams[b].(broken := true))
    case Attach(id, name, written, flushed) => ObserveAttach(s, o, id, name, written, flushed)
    case Close(_, name) => if name in s.sessions then ObserveClose(o, s.sessions[name].binding) else o
    case CloseExit(ok) => ObserveCloseExit(s, o, ok)
    case _ => o
  }

  function ObservePush(o: Audit, name: Name, b: Option<Binding>, chunk: Chunk): Audit {
    var noted := if name in o.history then o.(history := o.history[name := o.history[name] + chunk]) else o;
    if b.None? || b.value !in o.streams then noted
    else
      var st := o.streams[b.value];
      Put(noted, b.value, st.(pushed := st.pushed + [chunk]))
  }

  function ObserveSend(o: Audit, b: Binding, ok: bool): Audit {
    if b !in o.streams then o
    else
      var st := o.streams[b];
      Put(o, b, if ok then st.(sent := st.sent + 1) else st.(broken := true))
  }

  function ObserveTakeExit(o: Audit, p: nat, b: Option<Binding>): Audit {
    if b.None? || b.value !in o.streams then o
    else Put(o, b.value, o.streams[b.value].(phase := Held(ByPump(p))))
  }

  function ObserveCheckExit(o: Audit, epoch: nat, b: Option<Binding>): Audit {
    if b.None? || b.value !in o.streams || b.value.epoch == epoch then o
    else Put(o, b.value, o.streams[b.value].(phase := Free))
  }

  function ObserveSendExit(o: Audit, b: Binding, code: int, ok: bool): Audit {
    if b !in o.streams then o
    else
      var st := o.streams[b];
      Put(o, b, if ok then st.(phase := Done(st.sent, code, false)) else st.(phase := Free, broken := true))
  }

  function ObservePump(s: Core, o: Audit, p: nat, a: PumpAction): Audit
    requires PumpEnabled(s, p, a)
  {
    var name, state := s.pumps[p].name, s.pumps[p].state;
    match a
    case Push(chunk) => if name in s.sessions then ObservePush(o, name, s.sessions[name].binding, chunk) else o
    case Send(ok) => ObserveSend(o, state.to, ok)
    case TakeExit => if name in s.sessions then ObserveTakeExit(o, p, s.sessions[name].binding) else o
    case CheckExitEpoch => ObserveCheckExit(o, s.epoch, state.taken)
    case SendExit(ok) => ObserveSendExit(o, state.to, state.code, ok)
    case _ => o
  }

  function ServeStep(w: World, a: ServeAction): World
    requires ServeEnabled(w.core, a)
  {
    World(ServeNext(w.core, a), ObserveServe(w.core, w.audit, a))
  }

  function PumpStep(w: World, p: nat, a: PumpAction): World
    requires PumpEnabled(w.core, p, a)
  {
    World(PumpNext(w.core, p, a), ObservePump(w.core, w.audit, p, a))
  }

  function Step(w: World, a: Action): World {
    match a
    case OnServe(act) => if ServeEnabled(w.core, act) then ServeStep(w, act) else w
    case OnPump(p, act) => if PumpEnabled(w.core, p, act) then PumpStep(w, p, act) else w
  }

  const BOOT := World(Core(0, map[], map[], 0, Idle, []), Audit(map[], map[]))

  function Run(w: World, script: seq<Action>): World {
    if script == [] then w else Step(Run(w, script[..|script| - 1]), script[|script| - 1])
  }

  // ---- What the host may be assumed to do ----

  /** The agent opens a session, rather than refuse to. */
  predicate Opens(s: Core, a: ServeAction) {
    s.serve.Idle? && a.Open? && a.spawned && a.name !in s.sessions && |s.sessions| < SESSION_CAP
  }

  /** The agent binds a stream; a refused open or attach asks nothing of the host. */
  predicate Binds(s: Core, a: Action) {
    a.OnServe? && (Opens(s, a.serve) || (s.serve.Idle? && a.serve.Attach? && a.serve.name in s.sessions))
  }

  /** Within one epoch a frame id is bound once only. */
  predicate FreshAction(w: World, a: Action) {
    Binds(w.core, a) ==> Binding(w.core.epoch, a.serve.id) !in w.audit.streams
  }

  /** No pump is past its epoch check with an exit for frame id `id`. */
  predicate NoExitInFlight(s: Core, id: nat) {
    forall p <- s.pumps :: s.pumps[p].state.ExitSending? ==> s.pumps[p].state.to.frameId != id
  }

  /** No pump is past its epoch check with output for frame id `id`. */
  predicate NoOutputInFlight(s: Core, id: nat) {
    forall p <- s.pumps :: s.pumps[p].state.Sending? ==> s.pumps[p].state.to.frameId != id
  }

  predicate NameQuiet(s: Core, name: Name) {
    forall p <- s.pumps :: s.pumps[p].name == name ==> !s.pumps[p].state.Live()
  }

  /** A fresh id, and no exit on its way to it from an earlier connection. */
  predicate ExitSafeAction(w: World, a: Action) {
    FreshAction(w, a) && (Binds(w.core, a) ==> NoExitInFlight(w.core, a.serve.id))
  }

  /** Nothing at all on its way to the id, and a name is opened only when no pump can still look it up. */
  predicate SafeAction(w: World, a: Action) {
    && ExitSafeAction(w, a)
    && (Binds(w.core, a) ==> NoOutputInFlight(w.core, a.serve.id))
    && (a.OnServe? && Opens(w.core, a.serve) ==> NameQuiet(w.core, a.serve.name))
  }

  predicate FreshRun(w: World, script: seq<Action>) {
    script == [] ||
    (FreshRun(w, script[..|script| - 1]) && FreshAction(Run(w, script[..|script| - 1]), script[|script| - 1]))
  }

  predicate ExitSafeRun(w: World, script: seq<Action>) {
    script == [] ||
    (ExitSafeRun(w, script[..|script| - 1]) && ExitSafeAction(Run(w, script[..|script| - 1]), script[|script| - 1]))
  }

  predicate SafeRun(w: World, script: seq<Action>) {
    script == [] ||
    (SafeRun(w, script[..|script| - 1]) && SafeAction(Run(w, script[..|script| - 1]), script[|script| - 1]))
  }

  // ---- What a stream sees ----

  datatype Event = Out(data: seq<byte>) | Ended(code: int)

  /** The output and exit frames on the wire for frame id `id`, in order. */
  function Events(wire: seq<Frame>, id: nat): seq<Event> {
    if wire == [] then []
    else
      var before := Events(wire[..|wire| - 1], id);
      match wire[|wire| - 1]
      case Stdout(i, data) => if i == id then before + [Out(data)] else before
      case Exit(i, code) => if i == id then before + [Ended(code)] else before
      case Resp(_, _) => before
  }

  /** What the host of stream `b` sees: the frames for its id while its connection lasts. */
  function Seen(wire: seq<Frame>, b: Binding, st: Stream): seq<Event> {
    var stop := if st.stop.Some? then st.stop.value else |wire|;
    if st.start <= stop <= |wire| then Events(wire[st.start..stop], b.frameId) else []
  }

  predicate OneExit(events: seq<Event>) {
    forall i, j :: 0 <= i < j < |events| ==> !(events[i].Ended? && events[j].Ended?)
  }

  function Outs(chunks: seq<Chunk>): seq<Event> {
    seq(|chunks|, i requires 0 <= i < |chunks| => Out(chunks[i]))
  }

  function Replay(base: seq<byte>): seq<Event> {
    if base == [] then [] else [Out(Last(base, SCROLLBACK_LIMIT))]
  }

  /** The frames a stream should have received: replay, the first `sent` live chunks, and the exit where it came. */
  function Promised(st: Stream): seq<Event>
    requires st.sent <= |st.pushed|
    requires st.phase.Done? ==> st.phase.at <= st.sent
  {
    if st.phase.Done?
    then Replay(st.base) + Outs(st.pushed[..st.phase.at]) + [Ended(st.phase.code)]
      + Outs(st.pushed[st.phase.at..st.sent])
    else Replay(st.base) + Outs(st.pushed[..st.sent])
  }

  /**
   A stream whose writes succeeded and whose epoch lasted got exactly what it was promised;
   at most one chunk is still on its way, and unless the session was closed the exit came
   after all output.
   */
  predicate Faithful(wire: seq<Frame>, b: Binding, st: Stream) {
    && |st.pushed| - 1 <= st.sent <= |st.pushed|
    && (st.phase.Done? ==> st.phase.at <= st.sent)
    && (st.phase.Done? && !st.phase.closed ==> st.phase.at == |st.pushed|)
    && Seen(wire, b, st) == Promised(st)
  }

  predicate SingleExits(w: World) {
    forall b <- w.audit.streams :: OneExit(Seen(w.core.wire, b, w.audit.streams[b]))
  }

  predicate AllFaithful(w: World) {
    forall b <- w.audit.streams :: !w.audit.streams[b].broken ==> Faithful(w.core.wire, b, w.audit.streams[b])
  }

  // ---- Invariants ----

  /** Outside `hello`, every binding carries the current epoch; an exited session is never bound. */
  predicate BindingsSound(s: Core) {
    && (!s.serve.HelloStored? ==>
          forall n <- s.sessions :: s.sessions[n].binding.Some? ==> s.sessions[n].binding.value.epoch == s.epoch)
    && (forall n <- s.sessions :: s.sessions[n].exit.Some? ==> s.sessions[n].binding.None?)
    && (forall p <- s.pumps :: p < s.nextPump)
    && (s.serve.Opened? ==> s.serve.name in s.sessions)
  }

  /** The scrollback is the tail of everything the session printed. */
  predicate ScrollbackSound(w: World) {
    forall n <- w.core.sessions :: n in w.audit.history
      && w.core.sessions[n].scrollback == Last(w.audit.history[n], SCROLLBACK_LIMIT)
  }

  lemma BindingsServe(s: Core, a: ServeAction)
    requires BindingsSound(s) && ServeEnabled(s, a)
    ensures BindingsSound(ServeNext(s, a))
  {
  }

  lemma BindingsPump(s: Core, p: nat, a: PumpAction)
    requires BindingsSound(s) && PumpEnabled(s, p, a)
    ensures BindingsSound(PumpNext(s, p, a))
  {
  }

  lemma ServeLeavesScrollback(w: World, a: ServeAction)
    requires ServeEnabled(w.core, a) && !a.Open?
    ensures var w' := ServeStep(w, a);
            && w'.audit.history == w.audit.history && w'.core.sessions.Keys <= w.core.sessions.Keys
            && forall n <- w'.core.sessions :: w'.core.sessions[n].scrollback == w.core.sessions[n].scrollback
  {
  }

  lemma ScrollbackServe(w: World, a: ServeAction)
    requires ScrollbackSound(w) && ServeEnabled(w.core, a)
    ensures ScrollbackSound(ServeStep(w, a))
  {
    if !a.Open? { ServeLeavesScrollback(w, a); }
  }

  lemma ScrollbackPush(w: World, p: nat, chunk: Chunk)
    requires ScrollbackSound(w) && PumpEnabled(w.core, p, Push(chunk))
    ensures ScrollbackSound(PumpStep(w, p, Push(chunk)))
  {
    if w.core.pumps[p].name in w.core.sessions {
      LastOfAppend(w.audit.history[w.core.pumps[p].name], chunk, SCROLLBACK_LIMIT);
    }
  }

  lemma ScrollbackStays(w: World, p: nat, a: PumpAction)
    requires PumpEnabled(w.core, p, a) && !a.Push?
    ensures var w' := PumpStep(w, p, a);
            && w'.audit.history == w.audit.history && w'.core.sessions.Keys == w.core.sessions.Keys
            && forall n <- w.core.sessions :: w'.core.sessions[n].scrollback == w.core.sessions[n].scrollback
  {
  }

  lemma ScrollbackPump(w: World, p: nat, a: PumpAction)
    requires ScrollbackSound(w) && PumpEnabled(w.core, p, a)
    ensures ScrollbackSound(PumpStep(w, p, a))
  {
    if a.Push? { ScrollbackPush(w, p, a.chunk); } else { ScrollbackStays(w, p, a); }
  }

  // ---- With fresh pairs and no late exit: one thread at most can end a stream ----

  /** A stream is open for the current epoch only; the host stops looking when the connection ends. */
  predicate PlacedAt(w: World, b: Binding)
    requires b in w.audit.streams
  {
    var st := w.audit.streams[b];
    && st.start <= |w.core.wire|
    && (st.stop.None? ==> b.epoch == w.core.epoch)
    && (st.stop.Some? ==> st.broken && st.start <= st.stop.value <= |w.core.wire|)
  }

  /** `b` is a stream of session `name`. */
  predicate Known(w: World, b: Binding, name: Name) {
    b in w.audit.streams && w.audit.streams[b].name == name
  }

  predicate Owed(w: World, b: Binding, holder: Holder) {
    b in w.audit.streams && w.audit.streams[b].phase == Held(holder)
  }

  /** The host takes a frame written for `b` for a frame of no other stream. */
  predicate Unmistaken(o: Audit, b: Binding) {
    forall c <- o.streams :: c.frameId == b.frameId && o.streams[c].stop.None? ==> c == b
  }

  predicate LateExitsSound(s: Core, o: Audit) {
    forall p <- s.pumps :: s.pumps[p].state.ExitSending? ==> Unmistaken(o, s.pumps[p].state.to)
  }

  predicate SessionSound(w: World, n: Name)
    requires n in w.core.sessions
  {
    var b := w.core.sessions[n].binding;
    b.Some? ==> Known(w, b.value, n) && w.audit.streams[b.value].phase.Free?
  }

  predicate PumpSound(w: World, p: nat)
    requires p in w.core.pumps
  {
    match w.core.pumps[p].state
    case Publishing(_, Some(b)) => Known(w, b, w.core.pumps[p].name)
    case Sending(_, b) => Known(w, b, w.core.pumps[p].name)
    case Unbinding(b) => b in w.audit.streams
    case ExitTaken(_, Some(b)) => Owed(w, b, ByPump(p))
    case ExitSending(_, b) => Owed(w, b, ByPump(p))
    case _ => true
  }

  predicate ExitSound(w: World, b: Binding)
    requires b in w.audit.streams
  {
    var events := Seen(w.core.wire, b, w.audit.streams[b]);
    && PlacedAt(w, b)
    && OneExit(events)
    && (forall i :: 0 <= i < |events| && events[i].Ended? ==> w.audit.streams[b].phase.Done?)
  }

  predicate TokensSound(w: World) {
    && (forall n <- w.core.sessions :: SessionSound(w, n))
    && (forall p <- w.core.pumps :: PumpSound(w, p))
    && (w.core.serve.Removed? && w.core.serve.binding.Some? ==> Owed(w, w.core.serve.binding.value, ByServe))
    && (forall b <- w.audit.streams :: ExitSound(w, b))
    && LateExitsSound(w.core, w.audit)
  }

  lemma {:induction false} EventsAppend(wire: seq<Frame>, more: seq<Frame>, id: nat)
    ensures Events(wire + more, id) == Events(wire, id) + Events(more, id)
  {
    if more == [] {
      assert wire + more == wire;
    } else {
      var n := |more| - 1;
      EventsAppend(wire, more[..n], id);
      assert (wire + more)[..|wire| + n] == wire + more[..n];
    }
  }

  /** An open stream sees what is written next; a stopped one does not. */
  lemma SeenGrows(wire: seq<Frame>, more: seq<Frame>, b: Binding, st: Stream)
    requires st.start <= |wire| && (st.stop.Some? ==> st.start <= st.stop.value <= |wire|)
    ensures Seen(wire + more, b, st) ==
            Seen(wire, b, st) + (if st.stop.None? then Events(more, b.frameId) else [])
  {
    var all := wire + more;
    if st.stop.None? {
      assert all[st.start..|all|] == wire[st.start..|wire|] + more;
      EventsAppend(wire[st.start..|wire|], more, b.frameId);
    } else {
      assert all[st.start..st.stop.value] == wire[st.start..st.stop.value];
      assert Seen(wire, b, st) + [] == Seen(wire, b, st);
    }
  }

  /** Every stream of `w` is where it was in `w'`, and what had ended has ended. */
  predicate KeepsStreams(w: World, w': World) {
    forall b <- w.audit.streams :: b in w'.audit.streams
      && w'.audit.streams[b].start == w.audit.streams[b].start && w'.audit.streams[b].stop == w.audit.streams[b].stop
      && (w.audit.streams[b].broken ==> w'.audit.streams[b].broken)
      && (w.audit.streams[b].phase.Done? ==> w'.audit.streams[b].phase.Done?)
  }

  /** `w'` wrote only `more`, which ends no stream, and binds none. */
  lemma ExitsStay(w: World, w': World, more: seq<Frame>)
    requires TokensSound(w)
    requires w'.core.wire == w.core.wire + more && w'.core.epoch == w.core.epoch
    requires forall id: nat :: NoneEnded(Events(more, id))
    requires w'.audit.streams.Keys == w.audit.streams.Keys && KeepsStreams(w, w') && LateExitsSound(w'.core, w.audit)
    ensures (forall b <- w'.audit.streams :: ExitSound(w', b)) && LateExitsSound(w'.core, w'.audit)
  {
    forall b <- w'.audit.streams ensures ExitSound(w', b) {
      assert ExitSound(w, b) && NoneEnded(Events(more, b.frameId));
      SeenGrows(w.core.wire, more, b, w.audit.streams[b]);
      assert Seen(w'.core.wire, b, w'.audit.streams[b]) == Seen(w'.core.wire, b, w.audit.streams[b]);
    }
  }

  predicate NoneEnded(events: seq<Event>) {
    forall i :: 0 <= i < |events| ==> !events[i].Ended?
  }

  lemma TokensPush(w: World, p: nat, chunk: Chunk)
    requires TokensSound(w) && PumpEnabled(w.core, p, Push(chunk))
    ensures TokensSound(PumpStep(w, p, Push(chunk)))
  {
    var w' := PumpStep(w, p, Push(chunk));
    forall n <- w'.core.sessions ensures SessionSound(w', n) {
      assert SessionSound(w, n);
    }
    forall q <- w'.core.pumps ensures PumpSound(w', q) {
      assert PumpSound(w, q);
      assert w.core.pumps[p].name in w.core.sessions ==> SessionSound(w, w.core.pumps[p].name);
    }
    ExitsStay(w, w', []) by { assert w'.core.wire == w.core.wire + []; }
  }

  lemma TokensSend(w: World, p: nat, ok: bool)
    requires TokensSound(w) && PumpEnabled(w.core, p, Send(ok))
    ensures TokensSound(PumpStep(w, p, Send(ok)))
  {
    var w' := PumpStep(w, p, Send(ok));
    var state := w.core.pumps[p].state;
    assert PumpSound(w, p);
    forall n <- w'.core.sessions ensures SessionSound(w', n) {
      assert SessionSound(w, n);
    }
    forall q <- w'.core.pumps ensures PumpSound(w', q) {
      assert PumpSound(w, q);
    }
    var more := if ok then [Stdout(state.to.frameId, state.chunk)] else [];
    assert forall id: nat :: NoneEnded(Events(more, id));
    ExitsStay(w, w', more) by { assert w'.core.wire == w.core.wire + more; }
  }

  lemma TokensTakeExit(w: World, p: nat)
    requires TokensSound(w) && PumpEnabled(w.core, p, TakeExit)
    ensures TokensSound(PumpStep(w, p, TakeExit))
  {
    var w' := PumpStep(w, p, TakeExit);
    assert w.core.pumps[p].name in w.core.sessions ==> SessionSound(w, w.core.pumps[p].name);
    forall n <- w'.core.sessions ensures SessionSound(w', n) {
      assert SessionSound(w, n);
    }
    forall q <- w'.core.pumps ensures PumpSound(w', q) {
      assert PumpSound(w, q);
    }
    ExitsStay(w, w', []) by { assert w'.core.wire == w.core.wire + []; }
  }

  lemma TokensCheckExit(w: World, p: nat)
    requires TokensSound(w) && PumpEnabled(w.core, p, CheckExitEpoch)
    ensures TokensSound(PumpStep(w, p, CheckExitEpoch))
  {
    var w' := PumpStep(w, p, CheckExitEpoch);
    assert PumpSound(w, p);
    var taken := w.core.pumps[p].state.taken;
    if taken.Some? && taken.value.epoch == w.core.epoch { EpochTells(w, taken.value); }
    forall n <- w'.core.sessions ensures SessionSound(w', n) {
      assert SessionSound(w, n);
    }
    forall q <- w'.core.pumps ensures PumpSound(w', q) {
      assert PumpSound(w, q);
    }
    ExitsStay(w, w', []) by { assert w'.core.wire == w.core.wire + []; }
  }

  /** Writing the exit of stream `b`, which was owed one, ends that stream and no other. */
  lemma ExitWritten(w: World, w': World, b: Binding, code: int)
    requires TokensSound(w) && b in w.audit.streams && w.audit.streams[b].phase.Held? && Unmistaken(w.audit, b)
    requires w'.core.wire == w.core.wire + [Exit(b.frameId, code)] && w'.core.epoch == w.core.epoch
    requires w'.audit.streams.Keys == w.audit.streams.Keys && KeepsStreams(w, w')
    requires w'.audit.streams[b].phase.Done? && LateExitsSound(w'.core, w.audit)
    ensures (forall c <- w'.audit.streams :: ExitSound(w', c)) && LateExitsSound(w'.core, w'.audit)
  {
    forall c <- w'.audit.streams ensures ExitSound(w', c) {
      assert ExitSound(w, c) && ExitSound(w, b);
      SeenGrows(w.core.wire, [Exit(b.frameId, code)], c, w.audit.streams[c]);
      assert Seen(w'.core.wire, c, w'.audit.streams[c]) == Seen(w'.core.wire, c, w.audit.streams[c]);
      assert Events([Exit(b.frameId, code)], c.frameId) == if c.frameId == b.frameId then [Ended(code)] else [];
    }
  }

  lemma TokensSendExit(w: World, p: nat, ok: bool)
    requires TokensSound(w) && PumpEnabled(w.core, p, SendExit(ok))
    ensures TokensSound(PumpStep(w, p, SendExit(ok)))
  {
    var w' := PumpStep(w, p, SendExit(ok));
    var state := w.core.pumps[p].state;
    assert PumpSound(w, p);
    forall n <- w'.core.sessions ensures SessionSound(w', n) {
      assert SessionSound(w, n);
    }
    forall q <- w'.core.pumps ensures PumpSound(w', q) {
      assert PumpSound(w, q);
    }
    if ok {
      ExitWritten(w, w', state.to, state.code);
    } else {
      ExitsStay(w, w', []) by { assert w'.core.wire == w.core.wire + []; }
    }
  }

  lemma TokensPumpOther(w: World, p: nat, a: PumpAction)
    requires TokensSound(w) && PumpEnabled(w.core, p, a) && (a.CheckEpoch? || a.Unbind? || a.EndOfOutput?)
    ensures TokensSound(PumpStep(w, p, a))
  {
    var w' := PumpStep(w, p, a);
    forall n <- w'.core.sessions ensures SessionSound(w', n) {
      assert SessionSound(w, n);
    }
    forall q <- w'.core.pumps ensures PumpSound(w', q) {
      assert PumpSound(w, q);
    }
    ExitsStay(w, w', []) by { assert w'.core.wire == w.core.wire + []; }
  }

  lemma TokensPump(w: World, p: nat, a: PumpAction)
    requires TokensSound(w) && PumpEnabled(w.core, p, a)
    ensures TokensSound(PumpStep(w, p, a))
  {
    match a
    case Push(chunk) => TokensPush(w, p, chunk);
    case Send(ok) => TokensSend(w, p, ok);
    case TakeExit => TokensTakeExit(w, p);
    case CheckExitEpoch => TokensCheckExit(w, p);
    case SendExit(ok) => TokensSendExit(w, p, ok);
    case _ => TokensPumpOther(w, p, a);
  }

  /** Past the epoch check a frame id belongs to the current connection. */
  lemma EpochTells(w: World, b: Binding)
    requires TokensSound(w) && b.epoch == w.core.epoch
    ensures Unmistaken(w.audit, b)
  {
    forall c <- w.audit.streams | c.frameId == b.frameId && w.audit.streams[c].stop.None? ensures c == b {
      assert ExitSound(w, c);
    }
  }

  lemma TokensHello(w: World, id: nat, epoch: nat)
    requires TokensSound(w) && ServeEnabled(w.core, Hello(id, epoch))
    ensures TokensSound(ServeStep(w, Hello(id, epoch)))
  {
    var w' := ServeStep(w, Hello(id, epoch));
    forall n <- w'.core.sessions ensures SessionSound(w', n) {
      assert SessionSound(w, n);
    }
    forall q <- w'.core.pumps ensures PumpSound(w', q) {
      assert PumpSound(w, q);
    }
    forall b <- w'.audit.streams ensures ExitSound(w', b) {
      assert ExitSound(w, b);
      assert Seen(w'.core.wire, b, w'.audit.streams[b]) == Seen(w.core.wire, b, w.audit.streams[b]);
    }
  }

  lemma TokensOpen(w: World, id: nat, name: Name, spawned: bool)
    requires TokensSound(w) && ServeEnabled(w.core, Open(id, name, spawned))
    requires ExitSafeAction(w, OnServe(Open(id, name, spawned)))
    ensures TokensSound(ServeStep(w, Open(id, name, spawned)))
  {
    var w' := ServeStep(w, Open(id, name, spawned));
    forall n <- w'.core.sessions ensures SessionSound(w', n) {
      assert n in w.core.sessions ==> SessionSound(w, n);
    }
    forall q <- w'.core.pumps ensures PumpSound(w', q) {
      assert PumpSound(w, q);
    }
    forall b <- w'.audit.streams ensures ExitSound(w', b) {
      assert b in w.audit.streams ==> ExitSound(w, b);
    }
  }

  function AttachOutputs(session: Session): seq<Event> {
    (if session.scrollback == [] then [] else [Out(session.scrollback)])
    + (if session.exit.None? then [] else [Ended(session.exit.value)])
  }

  predicate Shows(f: Frame, id: nat, e: Event) {
    f == (match e case Out(data) => Stdout(id, data) case Ended(code) => Exit(id, code))
  }

  /** A reply followed by frames of stream `id` that show `outs`. */
  lemma {:induction false} PrefixEvents(frames: seq<Frame>, outs: seq<Event>, id: nat, n: nat, i: nat)
    requires n <= |frames| == |outs| + 1 && frames[0].Resp?
    requires forall k :: 0 <= k < |outs| ==> Shows(frames[k + 1], id, outs[k])
    ensures Events(frames[..n], i) == if i != id || n == 0 then [] else outs[..n - 1]
  {
    if n > 0 {
      PrefixEvents(frames, outs, id, n - 1, i);
      assert frames[..n][..n - 1] == frames[..n - 1];
      if n > 1 {
        assert Shows(frames[n - 1], id, outs[n - 2]);
        assert outs[..n - 1] == outs[..n - 2] + [outs[n - 2]];
      }
    }
  }

  lemma AttachEvents(id: nat, name: Name, session: Session, n: nat, i: nat)
    requires n <= |AttachFrames(id, name, session)|
    ensures |AttachFrames(id, name, session)| == |AttachOutputs(session)| + 1
    ensures Events(AttachFrames(id, name, session)[..n], i)
         == if i != id || n == 0 then [] else AttachOutputs(session)[..n - 1]
  {
    PrefixEvents(AttachFrames(id, name, session), AttachOutputs(session), id, n, i);
  }

  /** How many frames of the initial sequence reach the wire. */
  function AttachWritten(s: Core, id: nat, name: Name, written: nat): nat
    requires name in s.sessions
  {
    var all := |AttachFrames(id, name, s.sessions[name])|;
    if written < all then written else all
  }

  /** A newly attached stream sees the initial sequence; no other stream sees any of it. */
  lemma AttachSeen(w: World, id: nat, name: Name, written: nat, flushed: bool, c: Binding)
    requires TokensSound(w) && name in w.core.sessions && name in w.audit.history
    requires FreshAction(w, OnServe(Attach(id, name, written, flushed)))
    requires ServeEnabled(w.core, Attach(id, name, written, flushed))
    requires c in ServeStep(w, Attach(id, name, written, flushed)).audit.streams
    ensures var w' := ServeStep(w, Attach(id, name, written, flushed));
            var n := AttachWritten(w.core, id, name, written);
            && |AttachFrames(id, name, w.core.sessions[name])| == |AttachOutputs(w.core.sessions[name])| + 1
            && PlacedAt(w', c)
            && Seen(w'.core.wire, c, w'.audit.streams[c]) ==
               if c != Binding(w.core.epoch, id) then Seen(w.core.wire, c, w.audit.streams[c])
               else if n == 0 then [] else AttachOutputs(w.core.sessions[name])[..n - 1]
  {
    var session := w.core.sessions[name];
    var n := AttachWritten(w.core, id, name, written);
    var more := AttachFrames(id, name, session)[..n];
    var w' := ServeStep(w, Attach(id, name, written, flushed));
    AttachEvents(id, name, session, n, c.frameId);
    if c != Binding(w.core.epoch, id) {
      assert ExitSound(w, c);
      SeenGrows(w.core.wire, more, c, w.audit.streams[c]);
    } else {
      assert w'.core.wire[|w.core.wire|..|w'.core.wire|] == more;
    }
  }

  /** The agent knows no such session: only the reply is left to write. */
  lemma TokensRefused(w: World, id: nat, name: Name, written: nat, flushed: bool)
    requires TokensSound(w) && ServeEnabled(w.core, Attach(id, name, written, flushed)) && name !in w.core.sessions
    ensures TokensSound(ServeStep(w, Attach(id, name, written, flushed)))
  {
    var w' := ServeStep(w, Attach(id, name, written, flushed));
    assert w' == World(w.core.(serve := Replying(id, Fault)), w.audit);
    forall n <- w'.core.sessions ensures SessionSound(w', n) { assert SessionSound(w, n); }
    forall q <- w'.core.pumps ensures PumpSound(w', q) { assert PumpSound(w, q); }
    forall b <- w'.audit.streams ensures ExitSound(w', b) { assert ExitSound(w, b); }
  }

  lemma TokensAttach(w: World, id: nat, name: Name, written: nat, flushed: bool)
    requires TokensSound(w) && ScrollbackSound(w) && ServeEnabled(w.core, Attach(id, name, written, flushed))
    requires ExitSafeAction(w, OnServe(Attach(id, name, written, flushed)))
    ensures TokensSound(ServeStep(w, Attach(id, name, written, flushed)))
  {
    if name !in w.core.sessions {
      TokensRefused(w, id, name, written, flushed);
      return;
    }
    var w' := ServeStep(w, Attach(id, name, written, flushed));
    forall n <- w'.core.sessions ensures SessionSound(w', n) {
      assert SessionSound(w, n);
    }
    forall q <- w'.core.pumps ensures PumpSound(w', q) {
      assert PumpSound(w, q);
    }
    forall b <- w'.audit.streams ensures ExitSound(w', b) {
      assert b in w.audit.streams ==> ExitSound(w, b);
      AttachSeen(w, id, name, written, flushed, b);
    }
  }

  lemma TokensCloseExit(w: World, ok: bool)
    requires TokensSound(w) && ServeEnabled(w.core, CloseExit(ok))
    ensures TokensSound(ServeStep(w, CloseExit(ok)))
  {
    var w' := ServeStep(w, CloseExit(ok));
    var b := w.core.serve.binding;
    forall n <- w'.core.sessions ensures SessionSound(w', n) {
      assert SessionSound(w, n);
    }
    forall q <- w'.core.pumps ensures PumpSound(w', q) {
      assert PumpSound(w, q);
    }
    if ok && b.Some? && b.value.epoch == w.core.epoch {
      EpochTells(w, b.value);
      ExitWritten(w, w', b.value, CloseCode(w.core.serve.exit));
    } else {
      ExitsStay(w, w', []) by { assert w'.core.wire == w.core.wire + []; }
    }
  }

  lemma TokensClose(w: World, id: nat, name: Name)
    requires TokensSound(w) && ServeEnabled(w.core, Close(id, name))
    ensures TokensSound(ServeStep(w, Close(id, name)))
  {
    var w' := ServeStep(w, Close(id, name));
    assert name in w.core.sessions ==> SessionSound(w, name);
    forall n <- w'.core.sessions ensures SessionSound(w', n) {
      assert SessionSound(w, n);
    }
    forall q <- w'.core.pumps ensures PumpSound(w', q) {
      assert PumpSound(w, q);
    }
    ExitsStay(w, w', []) by { assert w'.core.wire == w.core.wire + []; }
  }

  lemma TokensOpenReply(w: World, ok: bool)
    requires TokensSound(w) && ServeEnabled(w.core, OpenReply(ok))
    ensures TokensSound(ServeStep(w, OpenReply(ok)))
  {
    var w' := ServeStep(w, OpenReply(ok));
    forall n <- w'.core.sessions ensures SessionSound(w', n) {
      assert SessionSound(w, n);
    }
    forall q <- w'.core.pumps ensures PumpSound(w', q) {
      assert q == w.core.nextPump || PumpSound(w, q);
    }
    ExitsStay(w, w', w'.core.wire[|w.core.wire|..]);
  }

  lemma TokensServeOther(w: World, a: ServeAction)
    requires TokensSound(w) && ServeEnabled(w.core, a)
    requires !a.Hello? && !a.Open? && !a.OpenReply? && !a.Attach? && !a.Close? && !a.CloseExit?
    ensures TokensSound(ServeStep(w, a))
  {
    var w' := ServeStep(w, a);
    forall n <- w'.core.sessions ensures SessionSound(w', n) {
      assert SessionSound(w, n);
    }
    forall q <- w'.core.pumps ensures PumpSound(w', q) {
      assert PumpSound(w, q);
    }
    ExitsStay(w, w', w'.core.wire[|w.core.wire|..]);
  }

  lemma TokensServe(w: World, a: ServeAction)
    requires TokensSound(w) && ScrollbackSound(w) && ServeEnabled(w.core, a) && ExitSafeAction(w, OnServe(a))
    ensures TokensSound(ServeStep(w, a))
  {
    match a
    case Hello(id, epoch) => TokensHello(w, id, epoch);
    case Open(id, name, spawned) => TokensOpen(w, id, name, spawned);
    case Attach(id, name, written, flushed) => TokensAttach(w, id, name, written, flushed);
    case Close(id, name) => TokensClose(w, id, name);
    case CloseExit(ok) => TokensCloseExit(w, ok);
    case OpenReply(ok) => TokensOpenReply(w, ok);
    case _ => TokensServeOther(w, a);
  }

  // ---- With no late output and quiet names as well: nothing is lost, repeated or reordered ----

  predicate CarrierSound(w: World, b: Binding, p: nat)
    requires b in w.audit.streams && p in w.core.pumps
  {
    var st := w.audit.streams[b];
    w.core.pumps[p].state.Carries(b) ==>
      st.sent < |st.pushed| && st.pushed[|st.pushed| - 1] == w.core.pumps[p].state.chunk
  }

  predicate StreamSound(w: World, b: Binding)
    requires b in w.audit.streams
  {
    var st := w.audit.streams[b];
    !st.broken ==>
      && Faithful(w.core.wire, b, st)
      && (forall p <- w.core.pumps :: CarrierSound(w, b, p))
      && (st.sent < |st.pushed| ==> exists p <- w.core.pumps :: w.core.pumps[p].state.Carries(b))
      && (st.phase.Held? && st.phase.holder.ByPump? ==> st.sent == |st.pushed|)
  }

  /** No two pumps can still look up the same name. */
  predicate NamesSound(s: Core) {
    && (forall p <- s.pumps, q <- s.pumps :: p != q && s.pumps[p].state.Live() && s.pumps[q].state.Live()
          ==> s.pumps[p].name != s.pumps[q].name)
    && (s.serve.Opened? ==> NameQuiet(s, s.serve.name))
  }

  predicate LateOutputSound(s: Core, o: Audit) {
    forall p <- s.pumps :: s.pumps[p].state.Sending? ==> Unmistaken(o, s.pumps[p].state.to)
  }

  predicate FlowSound(w: World) {
    forall b <- w.audit.streams :: StreamSound(w, b)
  }

  lemma NamesServe(s: Core, a: ServeAction)
    requires NamesSound(s) && ServeEnabled(s, a) && (Opens(s, a) ==> NameQuiet(s, a.name))
    ensures NamesSound(ServeNext(s, a))
  {
  }

  lemma NamesPump(s: Core, p: nat, a: PumpAction)
    requires NamesSound(s) && PumpEnabled(s, p, a)
    ensures NamesSound(PumpNext(s, p, a))
  {
  }

  lemma LateOutputServe(w: World, a: ServeAction)
    requires LateOutputSound(w.core, w.audit) && ServeEnabled(w.core, a) && SafeAction(w, OnServe(a))
    ensures LateOutputSound(ServeStep(w, a).core, ServeStep(w, a).audit)
  {
    var w' := ServeStep(w, a);
    forall p <- w'.core.pumps | w'.core.pumps[p].state.Sending?
      ensures Unmistaken(w'.audit, w'.core.pumps[p].state.to)
    {
      assert p in w.core.pumps && w.core.pumps[p] == w'.core.pumps[p];
      assert Unmistaken(w.audit, w.core.pumps[p].state.to);
    }
  }

  lemma LateOutputPump(w: World, p: nat, a: PumpAction)
    requires TokensSound(w) && LateOutputSound(w.core, w.audit) && PumpEnabled(w.core, p, a)
    ensures LateOutputSound(PumpStep(w, p, a).core, PumpStep(w, p, a).audit)
  {
    var w' := PumpStep(w, p, a);
    forall q <- w'.core.pumps | w'.core.pumps[q].state.Sending?
      ensures Unmistaken(w'.audit, w'.core.pumps[q].state.to)
    {
      if a.CheckEpoch? && q == p {
        EpochTells(w, w'.core.pumps[p].state.to);
      } else {
        assert w.core.pumps[q] == w'.core.pumps[q];
        assert Unmistaken(w.audit, w.core.pumps[q].state.to);
      }
    }
  }

  lemma PromisedSend(st: Stream)
    requires st.sent < |st.pushed| && (st.phase.Done? ==> st.phase.at <= st.sent)
    ensures Promised(st.(sent := st.sent + 1)) == Promised(st) + [Out(st.pushed[st.sent])]
  {
    var from := if st.phase.Done? then st.phase.at else 0;
    assert st.pushed[from..st.sent + 1] == st.pushed[from..st.sent] + [st.pushed[st.sent]];
    assert Outs(st.pushed[from..st.sent + 1]) == Outs(st.pushed[from..st.sent]) + [Out(st.pushed[st.sent])];
  }

  lemma PromisedPush(st: Stream, chunk: Chunk)
    requires st.sent <= |st.pushed| && (st.phase.Done? ==> st.phase.at <= st.sent)
    ensures Promised(st.(pushed := st.pushed + [chunk])) == Promised(st)
  {
    var more := st.pushed + [chunk];
    assert more[..st.sent] == st.pushed[..st.sent];
    if st.phase.Done? {
      assert more[..st.phase.at] == st.pushed[..st.phase.at];
      assert more[st.phase.at..st.sent] == st.pushed[st.phase.at..st.sent];
    }
  }

  lemma PromisedEnd(st: Stream, code: int, closed: bool)
    requires st.sent <= |st.pushed| && !st.phase.Done?
    ensures Promised(st.(phase := Done(st.sent, code, closed))) == Promised(st) + [Ended(code)]
  {
    assert Outs(st.pushed[st.sent..st.sent]) == [];
  }

  /** The same pumps carry the same chunks for `b`. */
  predicate SameCarriers(s: Core, s': Core, b: Binding) {
    && (forall p <- s'.pumps :: s'.pumps[p].state.Carries(b) ==>
          p in s.pumps && s.pumps[p].state.Carries(b) && s.pumps[p].state.chunk == s'.pumps[p].state.chunk)
    && (forall p <- s.pumps :: s.pumps[p].state.Carries(b) ==> p in s'.pumps && s'.pumps[p].state.Carries(b))
  }

  lemma CarriersStay(s: Core, p: nat, state: PumpState, s': Core, b: Binding)
    requires p in s.pumps && s'.pumps == SetPump(s, p, state).pumps
    requires s.pumps[p].state.Carries(b) == state.Carries(b)
    requires state.Carries(b) ==> state.chunk == s.pumps[p].state.chunk
    ensures SameCarriers(s, s', b)
  {
  }

  /** What stream `b` sees does not change when the frames written are not for it. */
  lemma SeenStays(w: World, w': World, more: seq<Frame>, b: Binding)
    requires TokensSound(w) && b in w.audit.streams && b in w'.audit.streams
    requires w'.audit.streams[b].start == w.audit.streams[b].start
    requires w'.audit.streams[b].stop == w.audit.streams[b].stop
    requires w'.core.wire == w.core.wire + more
    requires w.audit.streams[b].stop.None? ==> Events(more, b.frameId) == []
    ensures Seen(w'.core.wire, b, w'.audit.streams[b]) == Seen(w.core.wire, b, w.audit.streams[b])
  {
    assert ExitSound(w, b);
    SeenGrows(w.core.wire, more, b, w.audit.streams[b]);
    assert Seen(w'.core.wire, b, w'.audit.streams[b]) == Seen(w'.core.wire, b, w.audit.streams[b]);
  }

  lemma StreamStays(w: World, w': World, b: Binding)
    requires b in w.audit.streams && StreamSound(w, b)
    requires b in w'.audit.streams && w'.audit.streams[b] == w.audit.streams[b]
    requires Seen(w'.core.wire, b, w'.audit.streams[b]) == Seen(w.core.wire, b, w.audit.streams[b])
    requires SameCarriers(w.core, w'.core, b)
    ensures StreamSound(w', b)
  {
    if !w.audit.streams[b].broken {
      forall p <- w'.core.pumps ensures CarrierSound(w', b, p) {
        if w'.core.pumps[p].state.Carries(b) { assert CarrierSound(w, b, p); }
      }
    }
  }

  /** Only pumps of a stream's own session carry its chunks, so a pump that is not carrying leaves none. */
  lemma NoCarrier(w: World, p: nat, b: Binding)
    requires TokensSound(w) && NamesSound(w.core)
    requires p in w.core.pumps && w.core.pumps[p].state.Live() && !w.core.pumps[p].state.Carries(b)
    requires b in w.audit.streams && w.audit.streams[b].name == w.core.pumps[p].name
    ensures forall q <- w.core.pumps :: !w.core.pumps[q].state.Carries(b)
  {
    forall q <- w.core.pumps ensures !w.core.pumps[q].state.Carries(b) {
      assert PumpSound(w, q);
    }
  }

  lemma StreamPushed(w: World, p: nat, chunk: Chunk, b: Binding)
    requires TokensSound(w) && NamesSound(w.core) && FlowSound(w) && PumpEnabled(w.core, p, Push(chunk))
    requires w.core.pumps[p].name in w.core.sessions && b in w.audit.streams
    requires w.core.sessions[w.core.pumps[p].name].binding.Some?
    requires w.core.sessions[w.core.pumps[p].name].binding.value == b
    ensures StreamSound(PumpStep(w, p, Push(chunk)), b)
  {
    var w' := PumpStep(w, p, Push(chunk));
    var st := w.audit.streams[b];
    assert SessionSound(w, w.core.pumps[p].name);
    assert StreamSound(w, b);
    NoCarrier(w, p, b);
    if !st.broken {
      PromisedPush(st, chunk);
      assert w'.core.pumps[p].state.Carries(b);
      forall q <- w'.core.pumps ensures CarrierSound(w', b, q) {
      }
    }
  }

  lemma FlowPush(w: World, p: nat, chunk: Chunk)
    requires TokensSound(w) && NamesSound(w.core) && FlowSound(w) && PumpEnabled(w.core, p, Push(chunk))
    ensures FlowSound(PumpStep(w, p, Push(chunk)))
  {
    var w' := PumpStep(w, p, Push(chunk));
    forall b <- w'.audit.streams ensures StreamSound(w', b) {
      assert StreamSound(w, b);
      var name := w.core.pumps[p].name;
      if name in w.core.sessions && w.core.sessions[name].binding.Some?
        && w.core.sessions[name].binding.value == b {
        StreamPushed(w, p, chunk, b);
      } else {
        StreamStays(w, w', b);
      }
    }
  }

  /** Once its only carrier has written, nobody carries a chunk for the stream. */
  lemma CarrierGone(w: World, p: nat, b: Binding)
    requires TokensSound(w) && NamesSound(w.core) && PumpEnabled(w.core, p, Send(true))
    requires w.core.pumps[p].state.to == b && b in w.audit.streams
    ensures forall q <- PumpNext(w.core, p, Send(true)).pumps ::
              !PumpNext(w.core, p, Send(true)).pumps[q].state.Carries(b)
  {
    assert PumpSound(w, p);
    forall q <- w.core.pumps ensures q == p || !w.core.pumps[q].state.Carries(b) { assert PumpSound(w, q); }
  }

  /** A stream that is owed one more chunk is faithful again once the chunk is written. */
  lemma SentIsFaithful(wire: seq<Frame>, b: Binding, st: Stream)
    requires Faithful(wire, b, st) && st.sent < |st.pushed| && st.stop.None? && st.start <= |wire|
    ensures Faithful(wire + [Stdout(b.frameId, st.pushed[st.sent])], b, st.(sent := st.sent + 1))
  {
    var more, st' := [Stdout(b.frameId, st.pushed[st.sent])], st.(sent := st.sent + 1);
    PromisedSend(st);
    SeenGrows(wire, more, b, st);
    assert Events(more, b.frameId) == [Out(st.pushed[st.sent])] by { assert more[..0] == []; }
    assert Seen(wire + more, b, st') == Seen(wire + more, b, st);
  }

  lemma StreamSent(w: World, p: nat)
    requires TokensSound(w) && NamesSound(w.core) && FlowSound(w) && PumpEnabled(w.core, p, Send(true))
    requires w.core.pumps[p].state.to in w.audit.streams
    ensures StreamSound(PumpStep(w, p, Send(true)), w.core.pumps[p].state.to)
  {
    var b := w.core.pumps[p].state.to;
    var st := w.audit.streams[b];
    assert StreamSound(w, b) && ExitSound(w, b);
    if !st.broken {
      assert CarrierSound(w, b, p);
      SentIsFaithful(w.core.wire, b, st);
      CarrierGone(w, p, b);
    }
  }

  lemma FlowSend(w: World, p: nat, ok: bool)
    requires TokensSound(w) && NamesSound(w.core) && LateOutputSound(w.core, w.audit) && FlowSound(w)
    requires PumpEnabled(w.core, p, Send(ok))
    ensures FlowSound(PumpStep(w, p, Send(ok)))
  {
    var w' := PumpStep(w, p, Send(ok));
    var to := w.core.pumps[p].state.to;
    var more := if ok then [Stdout(to.frameId, w.core.pumps[p].state.chunk)] else [];
    assert PumpSound(w, p) && Unmistaken(w.audit, to);
    forall b <- w'.audit.streams ensures StreamSound(w', b) {
      assert StreamSound(w, b);
      if b != to {
        CarriersStay(w.core, p, w'.core.pumps[p].state, w'.core, b);
        SeenStays(w, w', more, b) by { assert w'.core.wire == w.core.wire + more; }
        StreamStays(w, w', b);
      } else if ok {
        StreamSent(w, p);
      }
    }
  }

  lemma FlowTakeExit(w: World, p: nat)
    requires TokensSound(w) && NamesSound(w.core) && FlowSound(w) && PumpEnabled(w.core, p, TakeExit)
    ensures FlowSound(PumpStep(w, p, TakeExit))
  {
    var w' := PumpStep(w, p, TakeExit);
    var name := w.core.pumps[p].name;
    forall b <- w'.audit.streams ensures StreamSound(w', b) {
      assert StreamSound(w, b);
      CarriersStay(w.core, p, w'.core.pumps[p].state, w'.core, b);
      if w'.audit.streams[b] == w.audit.streams[b] {
        StreamStays(w, w', b);
      } else {
        assert SessionSound(w, name);
        NoCarrier(w, p, b);
      }
    }
  }

  /** Writing the exit of a stream that is owed one. */
  lemma EndIsFaithful(wire: seq<Frame>, b: Binding, st: Stream, code: int, closed: bool)
    requires Faithful(wire, b, st) && !st.phase.Done? && (closed || st.sent == |st.pushed|)
    requires st.stop.None? && st.start <= |wire|
    ensures Faithful(wire + [Exit(b.frameId, code)], b, st.(phase := Done(st.sent, code, closed)))
  {
    var more, st' := [Exit(b.frameId, code)], st.(phase := Done(st.sent, code, closed));
    PromisedEnd(st, code, closed);
    SeenGrows(wire, more, b, st);
    assert Events(more, b.frameId) == [Ended(code)] by { assert more[..0] == []; }
    assert Seen(wire + more, b, st') == Seen(wire + more, b, st);
  }

  lemma StreamEnded(w: World, w': World, b: Binding, code: int, closed: bool)
    requires b in w.audit.streams && StreamSound(w, b) && ExitSound(w, b)
    requires var st := w.audit.streams[b];
             && !st.broken && !st.phase.Done? && (closed || st.sent == |st.pushed|)
             && b in w'.audit.streams && w'.audit.streams[b] == st.(phase := Done(st.sent, code, closed))
    requires w'.core.wire == w.core.wire + [Exit(b.frameId, code)] && SameCarriers(w.core, w'.core, b)
    ensures StreamSound(w', b)
  {
    EndIsFaithful(w.core.wire, b, w.audit.streams[b], code, closed);
    forall p <- w'.core.pumps ensures CarrierSound(w', b, p) {
      if w'.core.pumps[p].state.Carries(b) { assert CarrierSound(w, b, p); }
    }
  }

  /** The exit of `b` went out: `b` has ended and every other stream is as it was. */
  lemma FlowEnded(w: World, w': World, b: Binding, code: int, closed: bool)
    requires TokensSound(w) && FlowSound(w) && b in w.audit.streams && Unmistaken(w.audit, b)
    requires !w.audit.streams[b].phase.Done?
    requires !closed && !w.audit.streams[b].broken ==> w.audit.streams[b].sent == |w.audit.streams[b].pushed|
    requires w'.core.wire == w.core.wire + [Exit(b.frameId, code)]
    requires var st := w.audit.streams[b];
             w'.audit.streams == w.audit.streams[b := st.(phase := Done(st.sent, code, closed))]
    requires forall c <- w.audit.streams :: SameCarriers(w.core, w'.core, c)
    ensures FlowSound(w')
  {
    var more := [Exit(b.frameId, code)];
    forall c <- w'.audit.streams ensures StreamSound(w', c) {
      assert StreamSound(w, c) && ExitSound(w, c);
      assert Events(more, c.frameId) == if c.frameId == b.frameId then [Ended(code)] else [];
      if c != b {
        SeenStays(w, w', more, c);
        StreamStays(w, w', c);
      } else if !w.audit.streams[c].broken {
        StreamEnded(w, w', c, code, closed);
      }
    }
  }

  lemma FlowSendExit(w: World, p: nat, ok: bool)
    requires TokensSound(w) && FlowSound(w) && PumpEnabled(w.core, p, SendExit(ok))
    ensures FlowSound(PumpStep(w, p, SendExit(ok)))
  {
    var w' := PumpStep(w, p, SendExit(ok));
    var to, code := w.core.pumps[p].state.to, w.core.pumps[p].state.code;
    assert PumpSound(w, p) && Unmistaken(w.audit, to) && StreamSound(w, to);
    forall b <- w.audit.streams ensures SameCarriers(w.core, w'.core, b) {
      CarriersStay(w.core, p, Finished, w'.core, b);
    }
    if ok {
      FlowEnded(w, w', to, code, false);
    } else {
      forall b <- w'.audit.streams ensures StreamSound(w', b) {
        assert StreamSound(w, b);
        if b != to { StreamStays(w, w', b) by { assert w'.core.wire == w.core.wire; } }
      }
    }
  }

  /** A step that writes no output and no exit, and moves no chunk. */
  lemma FlowStays(w: World, w': World, more: seq<Frame>)
    requires TokensSound(w) && FlowSound(w) && w'.audit.streams == w.audit.streams
    requires w'.core.wire == w.core.wire + more
    requires forall id: nat :: Events(more, id) == []
    requires forall b <- w.audit.streams :: w.audit.streams[b].broken || SameCarriers(w.core, w'.core, b)
    ensures FlowSound(w')
  {
    forall b <- w'.audit.streams ensures StreamSound(w', b) {
      assert StreamSound(w, b);
      SeenStays(w, w', more, b);
      if !w.audit.streams[b].broken { StreamStays(w, w', b); }
    }
  }

  lemma FlowCheckExit(w: World, p: nat)
    requires TokensSound(w) && FlowSound(w) && PumpEnabled(w.core, p, CheckExitEpoch)
    ensures FlowSound(PumpStep(w, p, CheckExitEpoch))
  {
    var w' := PumpStep(w, p, CheckExitEpoch);
    assert PumpSound(w, p);
    forall b <- w'.audit.streams ensures StreamSound(w', b) {
      assert StreamSound(w, b) && ExitSound(w, b);
      if !w.audit.streams[b].broken {
        CarriersStay(w.core, p, w'.core.pumps[p].state, w'.core, b);
        StreamStays(w, w', b);
      }
    }
  }

  lemma FlowPump(w: World, p: nat, a: PumpAction)
    requires TokensSound(w) && NamesSound(w.core) && LateOutputSound(w.core, w.audit) && FlowSound(w)
    requires PumpEnabled(w.core, p, a)
    ensures FlowSound(PumpStep(w, p, a))
  {
    match a
    case Push(chunk) => FlowPush(w, p, chunk);
    case Send(ok) => FlowSend(w, p, ok);
    case CheckExitEpoch => FlowCheckExit(w, p);
    case TakeExit => FlowTakeExit(w, p);
    case SendExit(ok) => FlowSendExit(w, p, ok);
    case _ =>
      var w' := PumpStep(w, p, a);
      forall b <- w.audit.streams ensures w.audit.streams[b].broken || SameCarriers(w.core, w'.core, b) {
        assert PumpSound(w, p) && ExitSound(w, b);
        if !w.audit.streams[b].broken { CarriersStay(w.core, p, w'.core.pumps[p].state, w'.core, b); }
      }
      FlowStays(w, w', []) by { assert w'.core.wire == w.core.wire + []; }
  }

  lemma FlowAttach(w: World, id: nat, name: Name, written: nat, flushed: bool)
    requires TokensSound(w) && ScrollbackSound(w) && FlowSound(w)
    requires ServeEnabled(w.core, Attach(id, name, written, flushed))
    requires FreshAction(w, OnServe(Attach(id, name, written, flushed)))
    ensures FlowSound(ServeStep(w, Attach(id, name, written, flushed)))
  {
    var w' := ServeStep(w, Attach(id, name, written, flushed));
    forall c <- w'.audit.streams ensures StreamSound(w', c) {
      if name !in w.core.sessions {
        assert StreamSound(w, c);
        StreamStays(w, w', c);
      } else if c != Binding(w.core.epoch, id) {
        assert StreamSound(w, c);
        AttachSeen(w, id, name, written, flushed, c);
        StreamStays(w, w', c);
      } else {
        StreamAttached(w, id, name, written, flushed);
      }
    }
  }

  lemma StreamAttached(w: World, id: nat, name: Name, written: nat, flushed: bool)
    requires TokensSound(w) && ScrollbackSound(w) && name in w.core.sessions
    requires FreshAction(w, OnServe(Attach(id, name, written, flushed)))
    requires ServeEnabled(w.core, Attach(id, name, written, flushed))
    ensures StreamSound(ServeStep(w, Attach(id, name, written, flushed)), Binding(w.core.epoch, id))
  {
    var w' := ServeStep(w, Attach(id, name, written, flushed));
    var b, session := Binding(w.core.epoch, id), w.core.sessions[name];
    var st := w'.audit.streams[b];
    if !st.broken {
      AttachSeen(w, id, name, written, flushed, b);
      assert Seen(w'.core.wire, b, st) == AttachOutputs(session) == Promised(st);
      forall q <- w'.core.pumps ensures !w'.core.pumps[q].state.Carries(b) { assert PumpSound(w, q); }
    }
  }

  lemma FlowOpen(w: World, id: nat, name: Name, spawned: bool)
    requires TokensSound(w) && FlowSound(w) && ServeEnabled(w.core, Open(id, name, spawned))
    requires SafeAction(w, OnServe(Open(id, name, spawned)))
    ensures FlowSound(ServeStep(w, Open(id, name, spawned)))
  {
    var w' := ServeStep(w, Open(id, name, spawned));
    var b := Binding(w.core.epoch, id);
    forall c <- w'.audit.streams ensures StreamSound(w', c) {
      if c != b || !Opens(w.core, Open(id, name, spawned)) {
        assert StreamSound(w, c);
        StreamStays(w, w', c);
      } else {
        assert w'.core.wire[|w.core.wire|..|w.core.wire|] == [];
        forall q <- w'.core.pumps ensures !w'.core.pumps[q].state.Carries(b) { assert PumpSound(w, q); }
      }
    }
  }

  lemma FlowCloseExit(w: World, ok: bool)
    requires TokensSound(w) && FlowSound(w) && ServeEnabled(w.core, CloseExit(ok))
    ensures FlowSound(ServeStep(w, CloseExit(ok)))
  {
    var w' := ServeStep(w, CloseExit(ok));
    var b := w.core.serve.binding;
    if ok && b.Some? && b.value.epoch == w.core.epoch {
      EpochTells(w, b.value);
      FlowEnded(w, w', b.value, CloseCode(w.core.serve.exit), true);
    } else {
      forall c <- w'.audit.streams ensures StreamSound(w', c) {
        assert StreamSound(w, c) && ExitSound(w, c);
        if !w'.audit.streams[c].broken { StreamStays(w, w', c) by { assert w'.core.wire == w.core.wire; } }
      }
    }
  }

  /** The serve thread now owes stream `b` its exit. */
  lemma StreamClaimed(w: World, w': World, b: Binding)
    requires b in w.audit.streams && StreamSound(w, b) && w.audit.streams[b].phase.Free?
    requires b in w'.audit.streams && w'.audit.streams[b] == w.audit.streams[b].(phase := Held(ByServe))
    requires w'.core.wire == w.core.wire && w'.core.pumps == w.core.pumps
    ensures StreamSound(w', b)
  {
    if !w.audit.streams[b].broken {
      forall q <- w'.core.pumps ensures CarrierSound(w', b, q) { assert CarrierSound(w, b, q); }
    }
  }

  lemma FlowClose(w: World, id: nat, name: Name)
    requires TokensSound(w) && FlowSound(w) && ServeEnabled(w.core, Close(id, name))
    ensures FlowSound(ServeStep(w, Close(id, name)))
  {
    var w' := ServeStep(w, Close(id, name));
    forall b <- w'.audit.streams ensures StreamSound(w', b) {
      assert StreamSound(w, b);
      if w'.audit.streams[b] == w.audit.streams[b] {
        StreamStays(w, w', b);
      } else {
        assert SessionSound(w, name);
        StreamClaimed(w, w', b);
      }
    }
  }

  lemma FlowOpenReply(w: World, ok: bool)
    requires BindingsSound(w.core) && TokensSound(w) && FlowSound(w) && ServeEnabled(w.core, OpenReply(ok))
    ensures FlowSound(ServeStep(w, OpenReply(ok)))
  {
    var w' := ServeStep(w, OpenReply(ok));
    forall b <- w'.audit.streams ensures StreamSound(w', b) {
      assert StreamSound(w, b);
      SeenStays(w, w', w'.core.wire[|w.core.wire|..], b);
      if !w'.audit.streams[b].broken { StreamStays(w, w', b); }
    }
  }

  lemma FlowServeOther(w: World, a: ServeAction)
    requires TokensSound(w) && FlowSound(w) && ServeEnabled(w.core, a)
    requires !a.Hello? && !a.Open? && !a.OpenReply? && !a.Attach? && !a.Close? && !a.CloseExit?
    ensures FlowSound(ServeStep(w, a))
  {
    var w' := ServeStep(w, a);
    FlowStays(w, w', w'.core.wire[|w.core.wire|..]);
  }

  lemma FlowServe(w: World, a: ServeAction)
    requires BindingsSound(w.core) && TokensSound(w) && ScrollbackSound(w) && FlowSound(w) && ServeEnabled(w.core, a)
    requires SafeAction(w, OnServe(a))
    ensures FlowSound(ServeStep(w, a))
  {
    match a
    case Hello(_, _) =>
    case Open(id, name, spawned) => FlowOpen(w, id, name, spawned);
    case OpenReply(ok) => FlowOpenReply(w, ok);
    case Attach(id, name, written, flushed) => FlowAttach(w, id, name, written, flushed);
    case Close(id, name) => FlowClose(w, id, name);
    case CloseExit(ok) => FlowCloseExit(w, ok);
    case _ => FlowServeOther(w, a);
  }
}
