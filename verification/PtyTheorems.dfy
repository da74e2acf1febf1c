/** The run-long guarantees of the terminal protocol, and exactly when binding a stream keeps them. */
module PtyTheorems {
  import opened Basics
  import opened Pty
  import opened PtyRuns
  import Frames

  // ---- No gap between the replay and the live chunks ----

  predicate ContiguousAt(w: World, n: Name)
    requires n in w.core.sessions
  {
    var b := w.core.sessions[n].binding;
    b.Some? && b.value in w.audit.streams ==>
      var st := w.audit.streams[b.value];
      n in w.audit.history && w.audit.history[n] == st.base + Flatten(st.pushed)
  }

  /** While a stream is bound, its session's output is what the stream started from plus what it was given. */
  predicate ContiguousSound(w: World) {
    forall n <- w.core.sessions :: ContiguousAt(w, n)
  }

  lemma ContiguousPush(w: World, p: nat, chunk: Chunk)
    requires TokensSound(w) && ScrollbackSound(w) && ContiguousSound(w) && PumpEnabled(w.core, p, Push(chunk))
    ensures ContiguousSound(PumpStep(w, p, Push(chunk)))
  {
    var w' := PumpStep(w, p, Push(chunk));
    var name := w.core.pumps[p].name;
    forall n <- w'.core.sessions ensures ContiguousAt(w', n) {
      assert ContiguousAt(w, n) && SessionSound(w, n);
      assert name in w.core.sessions ==> SessionSound(w, name);
      if n == name && w.core.sessions[n].binding.Some? {
        FlattenSnoc(w.audit.streams[w.core.sessions[n].binding.value].pushed, chunk);
      }
    }
  }

  lemma ContiguousPump(w: World, p: nat, a: PumpAction)
    requires TokensSound(w) && ScrollbackSound(w) && ContiguousSound(w) && PumpEnabled(w.core, p, a)
    ensures ContiguousSound(PumpStep(w, p, a))
  {
    if a.Push? {
      ContiguousPush(w, p, a.chunk);
    } else {
      var w' := PumpStep(w, p, a);
      forall n <- w'.core.sessions ensures ContiguousAt(w', n) {
        assert ContiguousAt(w, n) && SessionSound(w, n);
      }
    }
  }

  lemma ContiguousBind(w: World, a: ServeAction)
    requires TokensSound(w) && ScrollbackSound(w) && ContiguousSound(w) && ServeEnabled(w.core, a)
    requires FreshAction(w, OnServe(a)) && (a.Open? || a.Attach?)
    ensures ContiguousSound(ServeStep(w, a))
  {
    var w' := ServeStep(w, a);
    forall n <- w'.core.sessions ensures ContiguousAt(w', n) {
      assert n in w.core.sessions ==> ContiguousAt(w, n) && SessionSound(w, n);
    }
  }

  lemma ContiguousServe(w: World, a: ServeAction)
    requires TokensSound(w) && ScrollbackSound(w) && ContiguousSound(w) && ServeEnabled(w.core, a)
    requires FreshAction(w, OnServe(a))
    ensures ContiguousSound(ServeStep(w, a))
  {
    if a.Open? || a.Attach? {
      ContiguousBind(w, a);
    } else {
      var w' := ServeStep(w, a);
      forall n <- w'.core.sessions ensures ContiguousAt(w', n) {
        assert ContiguousAt(w, n) && SessionSound(w, n);
      }
    }
  }

  // ---- Every frame fits the codec ----

  predicate FitsSound(s: Core) {
    && (forall n <- s.sessions :: |s.sessions[n].scrollback| <= SCROLLBACK_LIMIT)
    && (forall p <- s.pumps :: (s.pumps[p].state.Publishing? || s.pumps[p].state.Sending?) ==>
          |s.pumps[p].state.chunk| <= STREAM_CHUNK)
    && (forall i :: 0 <= i < |s.wire| && s.wire[i].Stdout? ==> |s.wire[i].data| <= Frames.MAX_PAYLOAD_LEN)
  }

  lemma FitsPump(s: Core, p: nat, a: PumpAction)
    requires FitsSound(s) && PumpEnabled(s, p, a)
    ensures FitsSound(PumpNext(s, p, a))
  {
  }

  lemma FitsServe(s: Core, a: ServeAction)
    requires FitsSound(s) && ServeEnabled(s, a)
    ensures FitsSound(ServeNext(s, a))
  {
  }

  // ---- Runs ----

  /** No assumption on the host: epochs and exits are respected at every point of every interleaving. */
  lemma {:induction false} EveryRunKeepsBindings(script: seq<Action>)
    ensures var w := Run(BOOT, script);
            BindingsSound(w.core) && ScrollbackSound(w) && FitsSound(w.core)
  {
    if script != [] {
      var n := |script| - 1;
      EveryRunKeepsBindings(script[..n]);
      var w := Run(BOOT, script[..n]);
      match script[n]
      case OnServe(a) =>
        if ServeEnabled(w.core, a) { BindingsServe(w.core, a); ScrollbackServe(w, a); FitsServe(w.core, a); }
      case OnPump(p, a) =>
        if PumpEnabled(w.core, p, a) { BindingsPump(w.core, p, a); ScrollbackPump(w, p, a); FitsPump(w.core, p, a); }
    }
  }

  /**
   No stream ever gets two exits, from attach, natural exit and close together, when every
   (epoch, id) pair is fresh and no id is bound while an exit for it is in flight.
   */
  lemma {:induction false} AtMostOneExit(script: seq<Action>)
    requires ExitSafeRun(BOOT, script)
    ensures var w := Run(BOOT, script);
            TokensSound(w) && ContiguousSound(w) && SingleExits(w)
  {
    if script != [] {
      var n := |script| - 1;
      AtMostOneExit(script[..n]);
      EveryRunKeepsBindings(script[..n]);
      var w := Run(BOOT, script[..n]);
      match script[n]
      case OnServe(a) =>
        if ServeEnabled(w.core, a) { TokensServe(w, a); ContiguousServe(w, a); }
      case OnPump(p, a) =>
        if PumpEnabled(w.core, p, a) { TokensPump(w, p, a); ContiguousPump(w, p, a); }
    }
    var w := Run(BOOT, script);
    forall b <- w.audit.streams ensures OneExit(Seen(w.core.wire, b, w.audit.streams[b])) { assert ExitSound(w, b); }
  }

  lemma {:induction false} SafeIsExitSafe(w: World, script: seq<Action>)
    requires SafeRun(w, script)
    ensures ExitSafeRun(w, script)
  {
    if script != [] { SafeIsExitSafe(w, script[..|script| - 1]); }
  }

  /** Fresh pairs, nothing in flight for an id being bound, and quiet names: every intact stream is faithful. */
  lemma {:induction false} AttachIsGapFree(script: seq<Action>)
    requires SafeRun(BOOT, script)
    ensures var w := Run(BOOT, script);
            NamesSound(w.core) && LateOutputSound(w.core, w.audit) && FlowSound(w) && AllFaithful(w)
  {
    SafeIsExitSafe(BOOT, script);
    if script != [] {
      var n := |script| - 1;
      AttachIsGapFree(script[..n]);
      AtMostOneExit(script[..n]);
      EveryRunKeepsBindings(script[..n]);
      var w := Run(BOOT, script[..n]);
      match script[n]
      case OnServe(a) =>
        if ServeEnabled(w.core, a) { NamesServe(w.core, a); LateOutputServe(w, a); FlowServe(w, a); }
      case OnPump(p, a) =>
        if PumpEnabled(w.core, p, a) { NamesPump(w.core, p, a); LateOutputPump(w, p, a); FlowPump(w, p, a); }
    }
    var w := Run(BOOT, script);
    assert forall b <- w.audit.streams :: StreamSound(w, b);
  }

  // ---- The bytes the host saw ----

  function OutBytes(events: seq<Event>): seq<byte> {
    if events == [] then []
    else
      var e := events[|events| - 1];
      OutBytes(events[..|events| - 1]) + (if e.Out? then e.data else [])
  }

  lemma OutBytesSnoc(events: seq<Event>, e: Event)
    ensures OutBytes(events + [e]) == OutBytes(events) + (if e.Out? then e.data else [])
  {
    assert (events + [e])[..|events|] == events;
  }

  lemma {:induction false} OutBytesOfOuts(events: seq<Event>, chunks: seq<Chunk>)
    ensures OutBytes(events + Outs(chunks)) == OutBytes(events) + Flatten(chunks)
  {
    if chunks == [] {
      assert events + Outs(chunks) == events;
    } else {
      var n := |chunks| - 1;
      OutBytesOfOuts(events, chunks[..n]);
      var before, last := events + Outs(chunks[..n]), Outs(chunks)[n];
      assert events + Outs(chunks) == before + [last];
      OutBytesSnoc(before, last);
      assert OutBytes(before) + chunks[n] == OutBytes(events) + (Flatten(chunks[..n]) + chunks[n]);
    }
  }

  lemma SeenOfPromised(st: Stream)
    requires st.sent <= |st.pushed| && !st.phase.Done?
    ensures OutBytes(Promised(st)) == Last(st.base, SCROLLBACK_LIMIT) + Flatten(st.pushed[..st.sent])
  {
    OutBytesOfOuts(Replay(st.base), st.pushed[..st.sent]);
    if st.base != [] {
      assert Replay(st.base)[..0] == [];
    }
  }

  function Skipped(base: seq<byte>): nat {
    if |base| <= SCROLLBACK_LIMIT then 0 else |base| - SCROLLBACK_LIMIT
  }

  lemma WindowOf(base: seq<byte>, rest: seq<byte>)
    ensures (base + rest)[Skipped(base)..] == Last(base, SCROLLBACK_LIMIT) + rest
  {
  }

  predicate SawAll(w: World, n: Name, b: Binding)
    requires n in w.audit.history && b in w.audit.streams
  {
    var st := w.audit.streams[b];
    var seen := OutBytes(Seen(w.core.wire, b, st));
    var skipped := Skipped(st.base);
    && st.base <= w.audit.history[n]
    && (|| seen == w.audit.history[n][skipped..]
        || exists p <- w.core.pumps :: w.core.pumps[p].state.Carries(b)
             && seen + w.core.pumps[p].state.chunk == w.audit.history[n][skipped..])
  }

  /** Base and pushed chunks from the replay window on: the replay, what was sent, and what was not. */
  lemma SentAndUnsent(st: Stream)
    requires st.sent <= |st.pushed| <= st.sent + 1
    ensures (st.base + Flatten(st.pushed))[Skipped(st.base)..] ==
            Last(st.base, SCROLLBACK_LIMIT) + Flatten(st.pushed[..st.sent])
            + (if st.sent < |st.pushed| then st.pushed[st.sent] else [])
  {
    WindowOf(st.base, Flatten(st.pushed));
    if st.sent < |st.pushed| {
      assert st.pushed == st.pushed[..st.sent] + [st.pushed[st.sent]];
      FlattenSnoc(st.pushed[..st.sent], st.pushed[st.sent]);
    } else {
      assert st.pushed[..st.sent] == st.pushed;
    }
  }

  /** What a faithful stream showed, plus what it has yet to show, is the session's output from the window on. */
  lemma ShownAndUnsent(wire: seq<Frame>, b: Binding, st: Stream, history: seq<byte>)
    requires Faithful(wire, b, st) && st.phase.Free? && history == st.base + Flatten(st.pushed)
    ensures st.base <= history
    ensures OutBytes(Seen(wire, b, st)) + (if st.sent < |st.pushed| then st.pushed[st.sent] else [])
         == history[Skipped(st.base)..]
  {
    SeenOfPromised(st);
    SentAndUnsent(st);
  }

  lemma BoundSawAll(w: World, n: Name, b: Binding)
    requires n in w.audit.history && b in w.audit.streams && StreamSound(w, b)
    requires var st := w.audit.streams[b];
             !st.broken && st.phase.Free? && w.audit.history[n] == st.base + Flatten(st.pushed)
    ensures SawAll(w, n, b)
  {
    var st := w.audit.streams[b];
    var seen := OutBytes(Seen(w.core.wire, b, st));
    ShownAndUnsent(w.core.wire, b, st, w.audit.history[n]);
    if st.sent < |st.pushed| {
      var p :| p in w.core.pumps && w.core.pumps[p].state.Carries(b);
      assert CarrierSound(w, b, p);
    } else {
      assert seen + [] == seen;
    }
  }

  /**
   The host of a bound, intact stream has seen the session's output from the start of the
   replay window on, except for at most one chunk that a pump is about to write.
   */
  lemma WhatTheHostSaw(script: seq<Action>, n: Name)
    requires SafeRun(BOOT, script)
    requires n in Run(BOOT, script).core.sessions && Run(BOOT, script).core.sessions[n].binding.Some?
    ensures var w := Run(BOOT, script);
            var b := w.core.sessions[n].binding.value;
            && b in w.audit.streams && n in w.audit.history
            && (!w.audit.streams[b].broken ==> SawAll(w, n, b))
  {
    AttachIsGapFree(script);
    SafeIsExitSafe(BOOT, script);
    AtMostOneExit(script);
    EveryRunKeepsBindings(script);
    var w := Run(BOOT, script);
    var b := w.core.sessions[n].binding.value;
    assert SessionSound(w, n) && ContiguousAt(w, n) && StreamSound(w, b);
    if !w.audit.streams[b].broken {
      BoundSawAll(w, n, b);
    }
  }

  // ---- The meta frame comes first ----

  ghost predicate MetaFirst(wire: seq<Frame>, b: Binding, st: Stream) {
    exists k :: st.start <= k < |wire| && wire[k].Resp? && wire[k].id == b.frameId && wire[k].reply.Meta?
      && wire[k].reply.name == st.name && Events(wire[st.start..k], b.frameId) == []
  }

  predicate Opening(s: Core, b: Binding) {
    s.serve.Opened? && b == Binding(s.epoch, s.serve.id)
  }

  /** A session being opened has no pump yet, so nothing was pushed for its stream. */
  predicate OpenedSound(w: World) {
    w.core.serve.Opened? ==>
      var b := Binding(w.core.epoch, w.core.serve.id);
      && b in w.audit.streams
      && var st := w.audit.streams[b];
      st.name == w.core.serve.name && st.base == [] && st.pushed == [] && st.phase.Free?
  }

  ghost predicate MetaSound(w: World) {
    forall b <- w.audit.streams :: !w.audit.streams[b].broken ==>
      MetaFirst(w.core.wire, b, w.audit.streams[b]) || Opening(w.core, b)
  }

  lemma MetaStays(wire: seq<Frame>, more: seq<Frame>, b: Binding, st: Stream, st': Stream)
    requires MetaFirst(wire, b, st) && st'.start == st.start && st'.name == st.name
    ensures MetaFirst(wire + more, b, st')
  {
    var k :| st.start <= k < |wire| && wire[k].Resp? && wire[k].id == b.frameId && wire[k].reply.Meta?
      && wire[k].reply.name == st.name && Events(wire[st.start..k], b.frameId) == [];
    assert (wire + more)[st.start..k] == wire[st.start..k] && (wire + more)[k] == wire[k];
  }

  lemma MetaNew(wire: seq<Frame>, b: Binding, st: Stream, meta: Reply, rest: seq<Frame>)
    requires st.start <= |wire| && st.stop.None? && Seen(wire, b, st) == []
    requires meta.Meta? && meta.name == st.name
    ensures MetaFirst(wire + ([Resp(b.frameId, meta)] + rest), b, st)
  {
    var all := wire + ([Resp(b.frameId, meta)] + rest);
    assert all[st.start..|wire|] == wire[st.start..|wire|] && all[|wire|] == Resp(b.frameId, meta);
  }

  lemma OpenedPump(w: World, p: nat, a: PumpAction)
    requires TokensSound(w) && NamesSound(w.core) && OpenedSound(w) && PumpEnabled(w.core, p, a)
    ensures OpenedSound(PumpStep(w, p, a))
  {
    assert PumpSound(w, p);
    var name := w.core.pumps[p].name;
    assert name in w.core.sessions ==> SessionSound(w, name);
  }

  lemma MetaPump(w: World, p: nat, a: PumpAction)
    requires MetaSound(w) && PumpEnabled(w.core, p, a)
    ensures MetaSound(PumpStep(w, p, a))
  {
    var w' := PumpStep(w, p, a);
    var more := w'.core.wire[|w.core.wire|..];
    assert w'.core.wire == w.core.wire + more;
    forall b <- w'.audit.streams | !w'.audit.streams[b].broken
      ensures MetaFirst(w'.core.wire, b, w'.audit.streams[b]) || Opening(w'.core, b)
    {
      if MetaFirst(w.core.wire, b, w.audit.streams[b]) {
        MetaStays(w.core.wire, more, b, w.audit.streams[b], w'.audit.streams[b]);
      }
    }
  }

  lemma MetaOpenReply(w: World, ok: bool)
    requires TokensSound(w) && FlowSound(w) && OpenedSound(w) && MetaSound(w) && ServeEnabled(w.core, OpenReply(ok))
    ensures MetaSound(ServeStep(w, OpenReply(ok)))
  {
    var w' := ServeStep(w, OpenReply(ok));
    var more := w'.core.wire[|w.core.wire|..];
    assert w'.core.wire == w.core.wire + more;
    forall b <- w'.audit.streams | !w'.audit.streams[b].broken
      ensures MetaFirst(w'.core.wire, b, w'.audit.streams[b])
    {
      var st := w.audit.streams[b];
      if Opening(w.core, b) {
        assert StreamSound(w, b) && ExitSound(w, b);
        assert Promised(st) == [];
        var meta := Meta(w.core.serve.name, w.core.sessions[w.core.serve.name].exit);
        assert more == [Resp(b.frameId, meta)] + [];
        MetaNew(w.core.wire, b, st, meta, []);
      } else {
        MetaStays(w.core.wire, more, b, st, w'.audit.streams[b]);
      }
    }
  }

  lemma MetaAttach(w: World, id: nat, name: Name, written: nat, flushed: bool)
    requires TokensSound(w) && MetaSound(w) && ServeEnabled(w.core, Attach(id, name, written, flushed))
    requires FreshAction(w, OnServe(Attach(id, name, written, flushed)))
    ensures MetaSound(ServeStep(w, Attach(id, name, written, flushed)))
  {
    var w' := ServeStep(w, Attach(id, name, written, flushed));
    var more := w'.core.wire[|w.core.wire|..];
    assert w'.core.wire == w.core.wire + more;
    forall b <- w'.audit.streams | !w'.audit.streams[b].broken
      ensures MetaFirst(w'.core.wire, b, w'.audit.streams[b])
    {
      if name in w.core.sessions && b == Binding(w.core.epoch, id) {
        assert more == [more[0]] + more[1..];
        assert w.core.wire[|w.core.wire|..|w.core.wire|] == [];
        MetaNew(w.core.wire, b, w'.audit.streams[b], Meta(name, w.core.sessions[name].exit), more[1..]);
      } else {
        MetaStays(w.core.wire, more, b, w.audit.streams[b], w'.audit.streams[b]);
      }
    }
  }

  lemma MetaServeOther(w: World, a: ServeAction)
    requires TokensSound(w) && FlowSound(w) && OpenedSound(w) && MetaSound(w) && ServeEnabled(w.core, a)
    requires FreshAction(w, OnServe(a)) && !a.OpenReply? && !a.Attach?
    ensures MetaSound(ServeStep(w, a))
  {
    var w' := ServeStep(w, a);
    var more := w'.core.wire[|w.core.wire|..];
    assert w'.core.wire == w.core.wire + more;
    forall b <- w'.audit.streams | !w'.audit.streams[b].broken
      ensures MetaFirst(w'.core.wire, b, w'.audit.streams[b]) || Opening(w'.core, b)
    {
      if b in w.audit.streams {
        MetaStays(w.core.wire, more, b, w.audit.streams[b], w'.audit.streams[b]);
      }
    }
  }

  lemma OpenedServe(w: World, a: ServeAction)
    requires TokensSound(w) && FlowSound(w) && OpenedSound(w) && ServeEnabled(w.core, a) && FreshAction(w, OnServe(a))
    ensures OpenedSound(ServeStep(w, a))
  {
  }

  lemma MetaServe(w: World, a: ServeAction)
    requires TokensSound(w) && FlowSound(w) && OpenedSound(w) && MetaSound(w) && ServeEnabled(w.core, a)
    requires FreshAction(w, OnServe(a))
    ensures OpenedSound(ServeStep(w, a)) && MetaSound(ServeStep(w, a))
  {
    OpenedServe(w, a);
    match a
    case OpenReply(ok) => MetaOpenReply(w, ok);
    case Attach(id, name, written, flushed) => MetaAttach(w, id, name, written, flushed);
    case _ => MetaServeOther(w, a);
  }

  /** Every intact stream gets its meta frame before any output or exit. */
  lemma {:induction false} MetaComesFirst(script: seq<Action>)
    requires SafeRun(BOOT, script)
    ensures var w := Run(BOOT, script);
            OpenedSound(w) && MetaSound(w)
  {
    if script != [] {
      var n := |script| - 1;
      MetaComesFirst(script[..n]);
      AttachIsGapFree(script[..n]);
      SafeIsExitSafe(BOOT, script[..n]);
      AtMostOneExit(script[..n]);
      var w := Run(BOOT, script[..n]);
      match script[n]
      case OnServe(a) => if ServeEnabled(w.core, a) { MetaServe(w, a); }
      case OnPump(p, a) => if PumpEnabled(w.core, p, a) { OpenedPump(w, p, a); MetaPump(w, p, a); }
    }
  }

  // ---- Who unbinds a session ----

  predicate BoundTo(s: Core, n: Name, b: Binding) {
    n in s.sessions && s.sessions[n].binding == Some(b)
  }

  /** A step of the serve thread that ends the binding `b` of session `n`. */
  predicate ServeReleases(s: Core, a: ServeAction, n: Name, b: Binding)
    requires n in s.sessions
  {
    match a
    case HelloClear => true
    case Detach(id, only) => b == Binding(s.epoch, id) && (only == None || only == Some(n))
    case StdinEof(id, name) => b == Binding(s.epoch, id) && name == n
    case Close(_, name) => name == n
    case Attach(id, name, written, flushed) =>
      name == n && !(b == Binding(s.epoch, id) && flushed && written >= |AttachFrames(id, n, s.sessions[n])|)
    case _ => false
  }

  /** A step of the session's own pump that ends it: the exit, or a write to that very stream that failed. */
  predicate PumpReleases(s: Core, p: nat, a: PumpAction, n: Name, b: Binding)
    requires p in s.pumps
  {
    s.pumps[p].name == n && (a.TakeExit? || (a.Unbind? && s.pumps[p].state == Unbinding(b)))
  }

  predicate Releases(s: Core, a: Action, n: Name, b: Binding) {
    match a
    case OnServe(act) => ServeEnabled(s, act) && n in s.sessions && ServeReleases(s, act, n, b)
    case OnPump(p, act) => PumpEnabled(s, p, act) && PumpReleases(s, p, act, n, b)
  }

  lemma ServeUnbinds(s: Core, a: ServeAction, n: Name, b: Binding)
    requires BindingsSound(s) && ServeEnabled(s, a) && BoundTo(s, n, b)
    ensures !BoundTo(ServeNext(s, a), n, b) <==> ServeReleases(s, a, n, b)
  {
  }

  lemma PumpUnbinds(s: Core, p: nat, a: PumpAction, n: Name, b: Binding)
    requires PumpEnabled(s, p, a) && BoundTo(s, n, b)
    ensures !BoundTo(PumpNext(s, p, a), n, b) <==> PumpReleases(s, p, a, n, b)
  {
  }

  /** After any run, a step ends a binding if and only if it is one of those. */
  lemma UnboundIffReleased(script: seq<Action>, a: Action, n: Name, b: Binding)
    requires BoundTo(Run(BOOT, script).core, n, b)
    ensures !BoundTo(Step(Run(BOOT, script), a).core, n, b) <==> Releases(Run(BOOT, script).core, a, n, b)
  {
    var w := Run(BOOT, script);
    EveryRunKeepsBindings(script);
    match a
    case OnServe(act) => if ServeEnabled(w.core, act) { ServeUnbinds(w.core, act, n, b); }
    case OnPump(p, act) => if PumpEnabled(w.core, p, act) { PumpUnbinds(w.core, p, act, n, b); }
  }

  /** In every run a session stays bound to its stream until a step that releases it. */
  lemma {:induction false} BoundUntilReleased(script: seq<Action>, from: nat, n: Name, b: Binding)
    requires from <= |script| && BoundTo(Run(BOOT, script[..from]).core, n, b)
    requires forall i :: from <= i < |script| ==> !Releases(Run(BOOT, script[..i]).core, script[i], n, b)
    ensures BoundTo(Run(BOOT, script).core, n, b)
  {
    if from == |script| {
      assert script[..from] == script;
    } else {
      var k := |script| - 1;
      assert forall i :: 0 <= i <= k ==> script[..k][..i] == script[..i];
      BoundUntilReleased(script[..k], from, n, b);
      UnboundIffReleased(script[..k], script[k], n, b);
    }
  }
}
