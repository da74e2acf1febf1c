/**
 Exactly when binding a stream keeps every stream faithful, whatever happens next.

 The frame id on the wire does not say which connection it belongs to, and a pump that is
 past its epoch check writes without looking again. So an id that is bound after a `hello`
 while such a pump still holds a frame for it is not safe, and neither is a name that is
 opened while a pump of an earlier session of that name can still look it up.
 */
module PtyRebind {
  import opened Basics
  import opened Pty
  import opened PtyRuns
  import opened PtyTheorems

  // ---- Runs in parts ----

  lemma RunLast(w: World, a: seq<Action>, b: seq<Action>)
    requires b != []
    ensures var front, last := b[..|b| - 1], b[|b| - 1];
            && Run(w, a + b) == Step(Run(w, a + front), last)
            && (FreshRun(w, a + b) <==> FreshRun(w, a + front) && FreshAction(Run(w, a + front), last))
            && (ExitSafeRun(w, a + b) <==> ExitSafeRun(w, a + front) && ExitSafeAction(Run(w, a + front), last))
            && (SafeRun(w, a + b) <==> SafeRun(w, a + front) && SafeAction(Run(w, a + front), last))
  {
    assert (a + b)[..|a| + |b| - 1] == a + b[..|b| - 1];
  }

  lemma {:induction false} RunAppend(w: World, a: seq<Action>, b: seq<Action>)
    ensures Run(w, a + b) == Run(Run(w, a), b)
    ensures FreshRun(w, a + b) <==> FreshRun(w, a) && FreshRun(Run(w, a), b)
    ensures ExitSafeRun(w, a + b) <==> ExitSafeRun(w, a) && ExitSafeRun(Run(w, a), b)
    ensures SafeRun(w, a + b) <==> SafeRun(w, a) && SafeRun(Run(w, a), b)
  {
    if b == [] {
      assert a + b == a;
    } else {
      RunAppend(w, a, b[..|b| - 1]);
      RunLast(w, a, b);
      RunLast(Run(w, a), [], b);
      assert [] + b == b && [] + b[..|b| - 1] == b[..|b| - 1];
    }
  }

  /** Nothing in `script` opens or attaches, so the host's obligations hold trivially. */
  predicate NoBind(script: seq<Action>) {
    forall i :: 0 <= i < |script| ==> script[i].OnServe? ==> !script[i].serve.Open? && !script[i].serve.Attach?
  }

  lemma {:induction false} NoBindIsAllowed(w: World, script: seq<Action>)
    requires NoBind(script)
    ensures FreshRun(w, script) && ExitSafeRun(w, script) && SafeRun(w, script)
  {
    if script != [] {
      NoBindIsAllowed(w, script[..|script| - 1]);
    }
  }

  lemma RunOne(w: World, a: Action)
    ensures Run(w, [a]) == Step(w, a)
    ensures FreshRun(w, [a]) == FreshAction(w, a) && ExitSafeRun(w, [a]) == ExitSafeAction(w, a)
    ensures SafeRun(w, [a]) == SafeAction(w, a)
  {
    assert [a][..0] == [];
  }

  lemma RunTwo(w: World, a: Action, b: Action)
    ensures Run(w, [a, b]) == Step(Step(w, a), b)
  {
    assert [a, b] == [a] + [b];
    RunAppend(w, [a], [b]);
    RunOne(w, a);
    RunOne(Step(w, a), b);
  }

  lemma RunThree(w: World, a: Action, b: Action, c: Action)
    ensures Run(w, [a, b, c]) == Step(Step(Step(w, a), b), c)
  {
    RunTwo(w, a, b);
    RunOne(Run(w, [a, b]), c);
    assert [a, b, c] == [a, b] + [c];
    RunAppend(w, [a, b], [c]);
  }

  lemma RunFour(w: World, a: Action, b: Action, c: Action, d: Action)
    ensures Run(w, [a, b, c, d]) == Step(Step(Step(Step(w, a), b), c), d)
  {
    RunTwo(w, a, b);
    RunTwo(Run(w, [a, b]), c, d);
    assert [a, b, c, d] == [a, b] + [c, d];
    RunAppend(w, [a, b], [c, d]);
  }

  // ---- What it means for a state to be safe ----

  /** Whatever the threads and a careful host do next, every intact stream gets what it is promised. */
  ghost predicate StaysFaithful(w: World) {
    forall more: seq<Action> :: SafeRun(w, more) ==> AllFaithful(Run(w, more))
  }

  /** Whatever happens next, no stream gets two exits. */
  ghost predicate StaysSingle(w: World) {
    forall more: seq<Action> :: ExitSafeRun(w, more) ==> SingleExits(Run(w, more))
  }

  /** The agent accepts `a` and binds the stream: an open that spawns, or an attach that is written in full. */
  predicate Accepts(s: Core, a: ServeAction) {
    match a
    case Open(_, _, _) => Opens(s, a)
    case Attach(id, name, written, flushed) =>
      Binds(s, OnServe(a)) && flushed && written >= |AttachFrames(id, name, s.sessions[name])|
    case _ => false
  }

  function BoundBy(s: Core, a: ServeAction): Binding
    requires a.Open? || a.Attach?
  {
    Binding(s.epoch, a.id)
  }

  predicate OpenTo(w: World, b: Binding) {
    b in w.audit.streams && !w.audit.streams[b].broken && w.audit.streams[b].stop.None?
    && w.audit.streams[b].start <= |w.core.wire|
  }

  lemma AcceptedBinds(w: World, a: ServeAction)
    requires ScrollbackSound(w) && Accepts(w.core, a)
    ensures var w' := Step(w, OnServe(a));
            && OpenTo(w', BoundBy(w.core, a)) && w'.core.pumps == w.core.pumps && w'.core.epoch == w.core.epoch
            && w'.core.nextPump == w.core.nextPump
  {
  }

  // ---- A frame in flight for the id ----

  /** Pump `p` is past its epoch check with a frame for the same id but an earlier stream than `b`. */
  predicate Late(s: Core, p: nat, b: Binding) {
    p in s.pumps && (s.pumps[p].state.Sending? || s.pumps[p].state.ExitSending?)
    && s.pumps[p].state.to.frameId == b.frameId && s.pumps[p].state.to != b
  }

  function LateWrite(s: Core, p: nat): PumpAction
    requires p in s.pumps
  {
    if s.pumps[p].state.Sending? then Send(true) else SendExit(true)
  }

  function LateEvent(s: Core, p: nat): Event
    requires p in s.pumps && (s.pumps[p].state.Sending? || s.pumps[p].state.ExitSending?)
  {
    if s.pumps[p].state.Sending? then Out(s.pumps[p].state.chunk) else Ended(s.pumps[p].state.code)
  }

  /** The host takes the late frame for one of `b`, while the agent keeps no account of it there. */
  lemma LateIsSeen(w: World, p: nat, b: Binding)
    requires OpenTo(w, b) && Late(w.core, p, b)
    ensures var w' := Step(w, OnPump(p, LateWrite(w.core, p)));
            && b in w'.audit.streams && w'.audit.streams[b] == w.audit.streams[b]
            && Seen(w'.core.wire, b, w'.audit.streams[b]) ==
               Seen(w.core.wire, b, w.audit.streams[b]) + [LateEvent(w.core, p)]
            && w'.core.sessions == w.core.sessions && w'.core.epoch == w.core.epoch && w'.core.serve == w.core.serve
            && |w'.core.wire| > |w.core.wire|
  {
    var state := w.core.pumps[p].state;
    var more := [if state.Sending? then Stdout(state.to.frameId, state.chunk) else Exit(state.to.frameId, state.code)];
    var w' := Step(w, OnPump(p, LateWrite(w.core, p)));
    assert w'.core.wire == w.core.wire + more;
    SeenGrows(w.core.wire, more, b, w.audit.streams[b]);
    assert Events(more, b.frameId) == [LateEvent(w.core, p)] by { assert more[..0] == []; }
  }

  lemma LateBreaks(w: World, p: nat, b: Binding)
    requires OpenTo(w, b) && Late(w.core, p, b)
    ensures !StaysFaithful(w)
  {
    var a := OnPump(p, LateWrite(w.core, p));
    NoBindIsAllowed(w, []);
    NoBindIsAllowed(w, [a]);
    RunOne(w, a);
    LateIsSeen(w, p, b);
    var st := w.audit.streams[b];
    if Faithful(w.core.wire, b, st) {
      assert |Seen(Step(w, a).core.wire, b, st)| == |Promised(st)| + 1;
      assert !AllFaithful(Run(w, [a]));
    } else {
      assert !AllFaithful(Run(w, []));
    }
  }

  /** Closing the session bound to `b` shows its host one more exit. */
  lemma CloseIsSeen(w: World, b: Binding, name: Name)
    requires OpenTo(w, b) && w.core.serve.Idle? && b.epoch == w.core.epoch
    requires name in w.core.sessions && w.core.sessions[name].binding == Some(b)
    ensures var w' := Step(Step(w, OnServe(Close(0, name))), OnServe(CloseExit(true)));
            && b in w'.audit.streams
            && Seen(w'.core.wire, b, w'.audit.streams[b]) ==
               Seen(w.core.wire, b, w.audit.streams[b]) + [Ended(CloseCode(w.core.sessions[name].exit))]
  {
    var w1 := Step(w, OnServe(Close(0, name)));
    assert w1.core.serve == Removed(0, Some(b), w.core.sessions[name].exit) && w1.core.wire == w.core.wire;
    var w2 := Step(w1, OnServe(CloseExit(true)));
    var more := [Exit(b.frameId, CloseCode(w.core.sessions[name].exit))];
    assert w2.core.wire == w1.core.wire + more;
    SeenGrows(w1.core.wire, more, b, w1.audit.streams[b]);
    assert Events(more, b.frameId) == [Ended(CloseCode(w.core.sessions[name].exit))] by { assert more[..0] == []; }
    assert Seen(w2.core.wire, b, w2.audit.streams[b]) == Seen(w2.core.wire, b, w1.audit.streams[b]);
  }

  /** The late exit and the exit of a close both reach `b`. */
  lemma EndsTwice(w: World, p: nat, b: Binding, name: Name)
    requires OpenTo(w, b) && Late(w.core, p, b) && w.core.pumps[p].state.ExitSending?
    requires w.core.serve.Idle? && b.epoch == w.core.epoch
    requires name in w.core.sessions && w.core.sessions[name].binding == Some(b)
    ensures !StaysSingle(w)
  {
    var late, close, exit := OnPump(p, SendExit(true)), OnServe(Close(0, name)), OnServe(CloseExit(true));
    NoBindIsAllowed(w, [late, close, exit]);
    RunThree(w, late, close, exit);
    LateIsSeen(w, p, b);
    var w1 := Step(w, late);
    CloseIsSeen(w1, b, name);
    var w3 := Step(Step(w1, close), exit);
    var n := |Seen(w.core.wire, b, w.audit.streams[b])|;
    var seen := Seen(w3.core.wire, b, w3.audit.streams[b]);
    assert seen[n].Ended? && seen[n + 1].Ended?;
    assert !SingleExits(w3);
  }

  // ---- A pump of an earlier session of the name ----

  /** A freshly opened session `name` on stream `b`, its pump `q`, and an older pump `p` of the same name. */
  predicate Shared(w: World, p: nat, q: nat, name: Name, b: Binding) {
    && p in w.core.pumps && q in w.core.pumps && p != q
    && w.core.pumps[p].name == name && w.core.pumps[q] == Pump(name, Reading)
    && name in w.core.sessions && w.core.sessions[name].binding == Some(b) && b.epoch == w.core.epoch
    && OpenTo(w, b) && Seen(w.core.wire, b, w.audit.streams[b]) == []
    && var st := w.audit.streams[b];
    st.name == name && st.base == [] && st.pushed == [] && st.sent == 0 && st.phase == Free
  }

  /** The older pump holds nothing that could reach stream `b` by itself. */
  predicate Apart(state: PumpState, b: Binding) {
    state.Live() && !state.Carries(b) && (state.Sending? ==> state.to.frameId != b.frameId)
    && (state.Unbinding? ==> state.failed != b)
  }

  /** The old pump finishes what it carries for an older stream. */
  lemma Unburdened(w: World, p: nat, q: nat, name: Name, b: Binding) returns (script: seq<Action>)
    requires Shared(w, p, q, name, b) && Apart(w.core.pumps[p].state, b)
    ensures NoBind(script) && Shared(Run(w, script), p, q, name, b)
    ensures Run(w, script).core.pumps[p].state.Reading? || Run(w, script).core.pumps[p].state.Reaping?
    decreases if w.core.pumps[p].state.Publishing? then 1 else 0
  {
    var state := w.core.pumps[p].state;
    if state.Reading? || state.Reaping? {
      return [];
    }
    var a := OnPump(p, if state.Publishing? then CheckEpoch else if state.Sending? then Send(true) else Unbind);
    var w1 := Step(w, a);
    RunOne(w, a);
    if state.Sending? {
      var more := [Stdout(state.to.frameId, state.chunk)];
      SeenGrows(w.core.wire, more, b, w.audit.streams[b]);
      assert Events(more, b.frameId) == [] by { assert more[..0] == []; }
      assert w1.audit.streams[b] == w.audit.streams[b] && w1.core.wire == w.core.wire + more;
    }
    if w1.core.pumps[p].state.Sending? {
      var rest := Unburdened(w1, p, q, name, b);
      RunAppend(w, [a], rest);
      script := [a] + rest;
    } else {
      script := [a];
    }
  }

  /** Both pumps have pushed a chunk, and the older one is past its epoch check. */
  lemma BothPushed(w: World, p: nat, q: nat, name: Name, b: Binding)
    requires Shared(w, p, q, name, b) && w.core.pumps[p].state.Reading?
    ensures var w3 := Step(Step(Step(w, OnPump(q, Push([0]))), OnPump(p, Push([1]))), OnPump(p, CheckEpoch));
            && p in w3.core.pumps && w3.core.pumps[p].state == Sending([1], b) && w3.core.wire == w.core.wire
            && b in w3.audit.streams && w3.audit.streams[b] == w.audit.streams[b].(pushed := [[0], [1]])
  {
    var w1 := Step(w, OnPump(q, Push([0])));
    assert w1.audit.streams[b].pushed == [[0]] && w1.core.pumps[p] == w.core.pumps[p];
    var w2 := Step(w1, OnPump(p, Push([1])));
    assert w2.audit.streams[b].pushed == [[0], [1]] && w2.core.pumps[p].state == Publishing([1], Some(b));
  }

  lemma SecondChunkFirst(w: World, p: nat, b: Binding)
    requires OpenTo(w, b) && Seen(w.core.wire, b, w.audit.streams[b]) == []
    requires p in w.core.pumps && w.core.pumps[p].state == Sending([1], b)
    requires var st := w.audit.streams[b];
             st.base == [] && st.pushed == [[0], [1]] && st.sent == 0 && st.phase == Free
    ensures !AllFaithful(Step(w, OnPump(p, Send(true))))
  {
    var w' := Step(w, OnPump(p, Send(true)));
    var st, more := w'.audit.streams[b], [Stdout(b.frameId, [1])];
    SeenGrows(w.core.wire, more, b, w.audit.streams[b]);
    assert Events(more, b.frameId) == [Out([1])] by { assert more[..0] == []; }
    assert Seen(w'.core.wire, b, st) == Seen(w'.core.wire, b, w.audit.streams[b]) == [Out([1])];
    assert Promised(st)[0] == Out([0]);
    assert !Faithful(w'.core.wire, b, st);
  }

  /** The two pumps push one after the other and write in the opposite order. */
  lemma SwapsOutput(w: World, p: nat, q: nat, name: Name, b: Binding) returns (script: seq<Action>)
    requires Shared(w, p, q, name, b) && w.core.pumps[p].state.Reading?
    ensures NoBind(script) && !AllFaithful(Run(w, script))
  {
    script := [OnPump(q, Push([0])), OnPump(p, Push([1])), OnPump(p, CheckEpoch), OnPump(p, Send(true))];
    RunFour(w, script[0], script[1], script[2], script[3]);
    BothPushed(w, p, q, name, b);
    SecondChunkFirst(Step(Step(Step(w, script[0]), script[1]), script[2]), p, b);
  }

  /** The old pump's exit ends the new stream while the new pump still carries output. */
  lemma EndsEarly(w: World, p: nat, q: nat, name: Name, b: Binding) returns (script: seq<Action>)
    requires Shared(w, p, q, name, b) && w.core.pumps[p].state.Reaping?
    ensures NoBind(script) && !AllFaithful(Run(w, script))
  {
    script := [OnPump(q, Push([0])), OnPump(p, TakeExit), OnPump(p, CheckExitEpoch), OnPump(p, SendExit(true))];
    RunFour(w, script[0], script[1], script[2], script[3]);
    var w1 := Step(w, script[0]);
    var w2 := Step(w1, script[1]);
    var w3 := Step(w2, script[2]);
    var w4 := Step(w3, script[3]);
    var st := w4.audit.streams[b];
    assert st.pushed == [[0]] && !st.broken && st.phase.Done? && st.phase.at == 0;
    assert !Faithful(w4.core.wire, b, st);
  }

  /** What a successful open leaves behind. */
  lemma OpenedFully(w: World, name: Name, id: nat)
    requires w.core.serve.Idle? && name !in w.core.sessions && |w.core.sessions| < SESSION_CAP
    ensures var w1 := Step(Step(w, OnServe(Open(id, name, true))), OnServe(OpenReply(true)));
            var b := Binding(w.core.epoch, id);
            && w1.core.sessions == w.core.sessions[name := Session(Some(b), [], None)] && w1.core.serve.Idle?
            && w1.core.pumps == w.core.pumps[w.core.nextPump := Pump(name, Reading)] && w1.core.epoch == w.core.epoch
            && w1.core.wire == w.core.wire + [Resp(id, Meta(name, None))]
            && w1.audit.streams == w.audit.streams[b := NewStream(w.core, name, [], false, Free)]
  {
    var w0 := Step(w, OnServe(Open(id, name, true)));
    assert w0.core == OpenStep(w.core, id, name, true);
    assert ServeEnabled(w0.core, OpenReply(true));
  }

  lemma OpenedShares(w: World, p: nat, name: Name, id: nat)
    requires BindingsSound(w.core) && TokensSound(w) && Accepts(w.core, Open(id, name, true))
    requires Binding(w.core.epoch, id) !in w.audit.streams && NoOutputInFlight(w.core, id)
    requires p in w.core.pumps && w.core.pumps[p].name == name && w.core.pumps[p].state.Live()
    ensures var w1 := Step(Step(w, OnServe(Open(id, name, true))), OnServe(OpenReply(true)));
            && Shared(w1, p, w.core.nextPump, name, Binding(w.core.epoch, id))
            && Apart(w1.core.pumps[p].state, Binding(w.core.epoch, id))
  {
    var w1 := Step(Step(w, OnServe(Open(id, name, true))), OnServe(OpenReply(true)));
    OpenedFully(w, name, id);
    assert PumpSound(w, p);
    assert w1.core.wire[|w.core.wire|..|w1.core.wire|] == [Resp(id, Meta(name, None))];
    assert Events([Resp(id, Meta(name, None))], id) == [];
  }

  lemma SharedBreaks(w: World, p: nat, q: nat, name: Name, b: Binding) returns (script: seq<Action>)
    requires Shared(w, p, q, name, b) && Apart(w.core.pumps[p].state, b)
    ensures NoBind(script) && !AllFaithful(Run(w, script))
  {
    var first := Unburdened(w, p, q, name, b);
    var last;
    if Run(w, first).core.pumps[p].state.Reading? {
      last := SwapsOutput(Run(w, first), p, q, name, b);
    } else {
      last := EndsEarly(Run(w, first), p, q, name, b);
    }
    RunAppend(w, first, last);
    script := first + last;
  }

  lemma ReplyFirst(w0: World, rest: seq<Action>)
    requires NoBind(rest)
    ensures var script := [OnServe(OpenReply(true))] + rest;
            && SafeRun(w0, script) && ExitSafeRun(w0, script)
            && Run(w0, script) == Run(Step(w0, OnServe(OpenReply(true))), rest)
  {
    var reply := OnServe(OpenReply(true));
    RunOne(w0, reply);
    RunAppend(w0, [reply], rest);
    NoBindIsAllowed(w0, [reply] + rest);
  }

  lemma StalePumpBreaks(w: World, p: nat, name: Name, id: nat)
    requires BindingsSound(w.core) && TokensSound(w) && Accepts(w.core, Open(id, name, true))
    requires Binding(w.core.epoch, id) !in w.audit.streams && NoOutputInFlight(w.core, id)
    requires p in w.core.pumps && w.core.pumps[p].name == name && w.core.pumps[p].state.Live()
    ensures !StaysFaithful(Step(w, OnServe(Open(id, name, true))))
  {
    var reply := OnServe(OpenReply(true));
    var w0 := Step(w, OnServe(Open(id, name, true)));
    OpenedShares(w, p, name, id);
    var rest := SharedBreaks(Step(w0, reply), p, w.core.nextPump, name, Binding(w.core.epoch, id));
    ReplyFirst(w0, rest);
    assert !AllFaithful(Run(w0, [reply] + rest));
  }

  // ---- The exact conditions ----

  lemma LateForBound(w: World, a: ServeAction, p: nat)
    requires TokensSound(w) && ScrollbackSound(w) && Accepts(w.core, a) && BoundBy(w.core, a) !in w.audit.streams
    requires p in w.core.pumps && (w.core.pumps[p].state.Sending? || w.core.pumps[p].state.ExitSending?)
    requires w.core.pumps[p].state.to.frameId == a.id
    ensures OpenTo(Step(w, OnServe(a)), BoundBy(w.core, a))
    ensures Late(Step(w, OnServe(a)).core, p, BoundBy(w.core, a))
  {
    AcceptedBinds(w, a);
    assert PumpSound(w, p);
  }

  lemma UnsafeBreaks(w: World, a: ServeAction)
    requires BindingsSound(w.core) && TokensSound(w) && ScrollbackSound(w)
    requires Accepts(w.core, a) && BoundBy(w.core, a) !in w.audit.streams && !SafeAction(w, OnServe(a))
    ensures !StaysFaithful(Step(w, OnServe(a)))
  {
    var w' := Step(w, OnServe(a));
    if !NoExitInFlight(w.core, a.id) {
      var p :| p in w.core.pumps && w.core.pumps[p].state.ExitSending? && w.core.pumps[p].state.to.frameId == a.id;
      LateForBound(w, a, p);
      LateBreaks(w', p, BoundBy(w.core, a));
    } else if !NoOutputInFlight(w.core, a.id) {
      var p :| p in w.core.pumps && w.core.pumps[p].state.Sending? && w.core.pumps[p].state.to.frameId == a.id;
      LateForBound(w, a, p);
      LateBreaks(w', p, BoundBy(w.core, a));
    } else {
      var p :| p in w.core.pumps && w.core.pumps[p].name == a.name && w.core.pumps[p].state.Live();
      StalePumpBreaks(w, p, a.name, a.id);
    }
  }

  /** An open or attach that the agent refuses costs no stream anything. */
  lemma RefusalIsSafe(script: seq<Action>, a: ServeAction)
    requires SafeRun(BOOT, script) && !Binds(Run(BOOT, script).core, OnServe(a))
    ensures SafeRun(BOOT, script + [OnServe(a)]) && AllFaithful(Run(BOOT, script + [OnServe(a)]))
  {
    RunOne(Run(BOOT, script), OnServe(a));
    RunAppend(BOOT, script, [OnServe(a)]);
    AttachIsGapFree(script + [OnServe(a)]);
  }

  /**
   After any safe run, an open or attach that the agent accepts, on an id not yet used in this
   epoch, keeps every stream faithful in all safe continuations if and only if no pump is past
   its epoch check with a frame for that id, and, for an open, no pump of an earlier session of
   the name can still look it up.
   */
  lemma BindIsSafeIff(script: seq<Action>, a: ServeAction)
    requires SafeRun(BOOT, script)
    requires var w := Run(BOOT, script);
             Accepts(w.core, a) && BoundBy(w.core, a) !in w.audit.streams
    ensures var w := Run(BOOT, script);
            (&& NoExitInFlight(w.core, a.id) && NoOutputInFlight(w.core, a.id)
             && (a.Open? ==> NameQuiet(w.core, a.name)))
            <==> StaysFaithful(Step(w, OnServe(a)))
  {
    var w := Run(BOOT, script);
    var bind := OnServe(a);
    if SafeAction(w, bind) {
      var w' := Step(w, bind);
      RunOne(w, bind);
      RunAppend(BOOT, script, [bind]);
      forall more: seq<Action> | SafeRun(w', more) ensures AllFaithful(Run(w', more)) {
        RunAppend(BOOT, script + [bind], more);
        AttachIsGapFree(script + [bind] + more);
      }
    } else {
      EveryRunKeepsBindings(script);
      SafeIsExitSafe(BOOT, script);
      AtMostOneExit(script);
      UnsafeBreaks(w, a);
    }
  }

  /** An attach to an exited session shows its exit at once, so a late exit is the second. */
  lemma SecondExit(w: World, id: nat, name: Name, written: nat, p: nat)
    requires TokensSound(w) && ScrollbackSound(w) && Accepts(w.core, Attach(id, name, written, true))
    requires Binding(w.core.epoch, id) !in w.audit.streams && w.core.sessions[name].exit.Some?
    requires p in w.core.pumps && w.core.pumps[p].state.ExitSending? && w.core.pumps[p].state.to.frameId == id
    ensures !StaysSingle(Step(w, OnServe(Attach(id, name, written, true))))
  {
    var attach, b, late := Attach(id, name, written, true), Binding(w.core.epoch, id), OnPump(p, SendExit(true));
    var w' := Step(w, OnServe(attach));
    LateForBound(w, attach, p);
    AttachSeen(w, id, name, written, true, b);
    var shown := AttachOutputs(w.core.sessions[name]);
    assert Seen(w'.core.wire, b, w'.audit.streams[b]) == shown && shown[|shown| - 1].Ended?;
    LateIsSeen(w', p, b);
    NoBindIsAllowed(w', [late]);
    RunOne(w', late);
    var w1 := Step(w', late);
    var seen := Seen(w1.core.wire, b, w1.audit.streams[b]);
    assert seen[|shown| - 1].Ended? && seen[|shown|].Ended?;
    assert !SingleExits(Run(w', [late]));
  }

  lemma SingleBeforeReply(w: World)
    requires !StaysSingle(Step(w, OnServe(OpenReply(true))))
    ensures !StaysSingle(w)
  {
    var reply := OnServe(OpenReply(true));
    var more: seq<Action> :| ExitSafeRun(Step(w, reply), more) && !SingleExits(Run(Step(w, reply), more));
    RunOne(w, reply);
    RunAppend(w, [reply], more);
    assert !SingleExits(Run(w, [reply] + more));
  }

  lemma SecondExitOnOpen(w: World, id: nat, name: Name, p: nat)
    requires BindingsSound(w.core) && TokensSound(w) && Accepts(w.core, Open(id, name, true))
    requires Binding(w.core.epoch, id) !in w.audit.streams
    requires p in w.core.pumps && w.core.pumps[p].state.ExitSending? && w.core.pumps[p].state.to.frameId == id
    ensures !StaysSingle(Step(w, OnServe(Open(id, name, true))))
  {
    var w0 := Step(w, OnServe(Open(id, name, true)));
    OpenedFully(w, name, id);
    assert PumpSound(w, p);
    EndsTwice(Step(w0, OnServe(OpenReply(true))), p, Binding(w.core.epoch, id), name);
    SingleBeforeReply(w0);
  }

  lemma LateExitEndsTwice(w: World, a: ServeAction, p: nat)
    requires BindingsSound(w.core) && TokensSound(w) && ScrollbackSound(w)
    requires Accepts(w.core, a) && BoundBy(w.core, a) !in w.audit.streams
    requires p in w.core.pumps && w.core.pumps[p].state.ExitSending? && w.core.pumps[p].state.to.frameId == a.id
    ensures !StaysSingle(Step(w, OnServe(a)))
  {
    if a.Open? {
      SecondExitOnOpen(w, a.id, a.name, p);
    } else if w.core.sessions[a.name].exit.Some? {
      SecondExit(w, a.id, a.name, a.written, p);
    } else {
      LateForBound(w, a, p);
      EndsTwice(Step(w, OnServe(a)), p, BoundBy(w.core, a), a.name);
    }
  }

  /**
   After any exit-safe run, an open or attach that the agent accepts, on an id not yet used in
   this epoch, leaves every stream with at most one exit in all exit-safe continuations if and
   only if no pump is past its epoch check with an exit for that id.
   */
  lemma BindEndsOnceIff(script: seq<Action>, a: ServeAction)
    requires ExitSafeRun(BOOT, script)
    requires var w := Run(BOOT, script);
             Accepts(w.core, a) && BoundBy(w.core, a) !in w.audit.streams
    ensures var w := Run(BOOT, script);
            NoExitInFlight(w.core, a.id) <==> StaysSingle(Step(w, OnServe(a)))
  {
    var w := Run(BOOT, script);
    var bind := OnServe(a);
    if ExitSafeAction(w, bind) {
      var w' := Step(w, bind);
      RunOne(w, bind);
      RunAppend(BOOT, script, [bind]);
      forall more: seq<Action> | ExitSafeRun(w', more) ensures SingleExits(Run(w', more)) {
        RunAppend(BOOT, script + [bind], more);
        AtMostOneExit(script + [bind] + more);
      }
    } else {
      EveryRunKeepsBindings(script);
      AtMostOneExit(script);
      var p :| p in w.core.pumps && w.core.pumps[p].state.ExitSending? && w.core.pumps[p].state.to.frameId == a.id;
      LateExitEndsTwice(w, a, p);
    }
  }
}
