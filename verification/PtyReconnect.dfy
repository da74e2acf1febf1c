/** Runs in which binding a stream is not safe: a reopened name, and an id reused on the next connection. */
module PtyReconnect {
  import opened Basics
  import opened Pty
  import opened PtyRuns
  import opened PtyTheorems
  import opened PtyRebind

  // ---- A name reopened too early ----

  /** Open a session and close it while its pump waits for output. */
  const CLOSED_EARLY: seq<Action> :=
    [OnServe(Open(1, "s", true)), OnServe(OpenReply(true)), OnServe(Close(2, "s")), OnServe(CloseExit(true)),
     OnServe(SendReply(true))]

  lemma ClosedFully(w: World, id: nat, name: Name)
    requires w.core.serve.Idle? && name in w.core.sessions
    ensures var w' := Step(Step(Step(w, OnServe(Close(id, name))), OnServe(CloseExit(true))), OnServe(SendReply(true)));
            && w'.core.serve.Idle? && w'.core.sessions == w.core.sessions - {name} && w'.core.pumps == w.core.pumps
            && w'.core.epoch == w.core.epoch && w'.audit.streams.Keys == w.audit.streams.Keys
  {
    var w1 := Step(w, OnServe(Close(id, name)));
    assert w1.core.serve.Removed? && w1.audit.streams.Keys == w.audit.streams.Keys;
    var w2 := Step(w1, OnServe(CloseExit(true)));
    assert w2.core.serve.Replying? && w2.audit.streams.Keys == w.audit.streams.Keys;
  }

  lemma ClosedEarlyIsSafe()
    ensures SafeRun(BOOT, CLOSED_EARLY)
    ensures var a := CLOSED_EARLY;
            Run(BOOT, a) == Step(Step(Step(Step(Step(BOOT, a[0]), a[1]), a[2]), a[3]), a[4])
  {
    var a := CLOSED_EARLY;
    assert a == [a[0]] + [a[1], a[2], a[3], a[4]];
    RunAppend(BOOT, [a[0]], [a[1], a[2], a[3], a[4]]);
    RunOne(BOOT, a[0]);
    NoBindIsAllowed(Run(BOOT, [a[0]]), [a[1], a[2], a[3], a[4]]);
    RunFour(Step(BOOT, a[0]), a[1], a[2], a[3], a[4]);
  }

  lemma ClosedEarlyState()
    ensures var w := Run(BOOT, CLOSED_EARLY);
            && w.core.serve.Idle? && w.core.sessions == map[] && w.core.pumps == map[0 := Pump("s", Reading)]
            && w.core.epoch == 0 && w.audit.streams.Keys == {Binding(0, 1)}
  {
    var a := CLOSED_EARLY;
    ClosedEarlyIsSafe();
    OpenedFully(BOOT, "s", 1);
    ClosedFully(Step(Step(BOOT, a[0]), a[1]), 2, "s");
  }

  /** Reopening that name at this point is not safe, although the agent accepts it. */
  lemma ReopenCounterexample()
    ensures var w := Run(BOOT, CLOSED_EARLY);
            && SafeRun(BOOT, CLOSED_EARLY) && Accepts(w.core, Open(3, "s", true))
            && !StaysFaithful(Step(w, OnServe(Open(3, "s", true))))
  {
    ClosedEarlyState();
    ClosedEarlyIsSafe();
    EveryRunKeepsBindings(CLOSED_EARLY);
    SafeIsExitSafe(BOOT, CLOSED_EARLY);
    AtMostOneExit(CLOSED_EARLY);
    StalePumpBreaks(Run(BOOT, CLOSED_EARLY), 0, "s", 3);
  }

  // ---- An id reused on the next connection ----

  function Hellos(epoch: nat): seq<Action> {
    [OnServe(Hello(1, epoch)), OnServe(HelloClear), OnServe(SendReply(true))]
  }

  /** A new connection: the epoch is stored, every binding dropped, the reply written. */
  lemma Greeted(w: World, epoch: nat)
    requires w.core.serve.Idle? && epoch != 0
    ensures var w' := Run(w, Hellos(epoch));
            && w'.core.epoch == epoch && w'.core.pumps == w.core.pumps && w'.core.nextPump == w.core.nextPump
            && w'.core.serve.Idle? && w'.core.wire == w.core.wire + [Resp(1, Ack)]
            && w'.core.sessions == (map n | n in w.core.sessions :: w.core.sessions[n].(binding := None))
            && w'.audit.history == w.audit.history && w'.audit.streams.Keys == w.audit.streams.Keys
    ensures FreshRun(w, Hellos(epoch))
  {
    var h := Hellos(epoch);
    RunThree(w, h[0], h[1], h[2]);
    NoBindIsAllowed(w, h);
    var w1 := Step(w, h[0]);
    assert w1.core.serve.HelloStored? && w1.audit.streams.Keys == w.audit.streams.Keys;
    var w2 := Step(w1, h[1]);
    assert w2.core.serve == Replying(1, Ack);
  }

  /** Session `s` and its pump in the given states, bound or once bound to id 2 of epoch 5. */
  predicate Stands(w: World, session: Session, pump: PumpState, printed: seq<byte>) {
    && w.core.epoch == 5 && w.core.sessions == map["s" := session] && w.core.pumps == map[0 := Pump("s", pump)]
    && w.core.serve.Idle? && w.audit.history == map["s" := printed] && w.audit.streams.Keys == {Binding(5, 2)}
  }

  const FIRST_CONNECTION: seq<Action> := Hellos(5) + [OnServe(Open(2, "s", true)), OnServe(OpenReply(true))]

  lemma FirstConnection()
    ensures FreshRun(BOOT, FIRST_CONNECTION)
    ensures Stands(Run(BOOT, FIRST_CONNECTION), Session(Some(Binding(5, 2)), [], None), Reading, [])
  {
    Greeted(BOOT, 5);
    var w, open, reply := Run(BOOT, Hellos(5)), OnServe(Open(2, "s", true)), OnServe(OpenReply(true));
    RunAppend(BOOT, Hellos(5), [open, reply]);
    RunTwo(w, open, reply);
    assert [open, reply] == [open] + [reply];
    RunAppend(w, [open], [reply]);
    RunOne(w, open);
    NoBindIsAllowed(Run(w, [open]), [reply]);
    OpenedFully(w, "s", 2);
    assert w.audit.history == map[];
  }

  function Pushed(chunk: Chunk): seq<Action> {
    [OnPump(0, Push(chunk)), OnPump(0, CheckEpoch)]
  }

  lemma OnePushed(w: World, chunk: Chunk)
    requires Stands(w, Session(Some(Binding(5, 2)), [], None), Reading, []) && 0 < |chunk| <= STREAM_CHUNK
    ensures Stands(Step(w, OnPump(0, Push(chunk))),
                   Session(Some(Binding(5, 2)), chunk, None), Publishing(chunk, Some(Binding(5, 2))), chunk)
  {
    assert [] + chunk == chunk;
    assert PumpEnabled(w.core, 0, Push(chunk));
    var w1 := Step(w, OnPump(0, Push(chunk)));
    assert w1.core == PushStep(w.core, 0, chunk);
    assert w1.core.sessions["s"] == Session(Some(Binding(5, 2)), chunk, None);
    assert w1.audit.history["s"] == chunk;
  }

  /** The pump is past its epoch check with one chunk. */
  lemma PushedAndChecked(w: World, chunk: Chunk)
    requires Stands(w, Session(Some(Binding(5, 2)), [], None), Reading, []) && 0 < |chunk| <= STREAM_CHUNK
    ensures Stands(Run(w, Pushed(chunk)),
                   Session(Some(Binding(5, 2)), chunk, None), Sending(chunk, Binding(5, 2)), chunk)
    ensures FreshRun(w, Pushed(chunk))
  {
    RunTwo(w, OnPump(0, Push(chunk)), OnPump(0, CheckEpoch));
    NoBindIsAllowed(w, Pushed(chunk));
    OnePushed(w, chunk);
  }

  const EXITED: seq<Action> := [OnPump(0, EndOfOutput(3)), OnPump(0, TakeExit), OnPump(0, CheckExitEpoch)]

  /** The child has exited, and the pump is past its epoch check with the exit. */
  lemma ExitedAndChecked(w: World)
    requires Stands(w, Session(Some(Binding(5, 2)), [], None), Reading, [])
    ensures Stands(Run(w, EXITED), Session(None, [], Some(3)), ExitSending(3, Binding(5, 2)), [])
    ensures FreshRun(w, EXITED)
  {
    RunThree(w, EXITED[0], EXITED[1], EXITED[2]);
    assert EXITED == [EXITED[0], EXITED[1], EXITED[2]];
    NoBindIsAllowed(w, EXITED);
    var w1 := Step(w, EXITED[0]);
    assert Stands(w1, Session(Some(Binding(5, 2)), [], None), Reaping(3), []);
    var w2 := Step(w1, EXITED[1]);
    assert Stands(w2, Session(None, [], Some(3)), ExitTaken(3, Some(Binding(5, 2))), []);
  }

  /** The host reconnects, attaches on id 2 again, and only then does the old pump write. */
  function Reconnected(late: PumpAction): seq<Action> {
    Hellos(6) + [OnServe(Attach(2, "s", 2, true)), OnPump(0, late)]
  }

  /** An attach written in full shows the session's replay and exit. */
  lemma Attached(w: World, id: nat, name: Name)
    requires w.core.serve.Idle? && name in w.core.sessions && name in w.audit.history
    requires |AttachFrames(id, name, w.core.sessions[name])| == 2
    ensures var w', b := Step(w, OnServe(Attach(id, name, 2, true))), Binding(w.core.epoch, id);
            && OpenTo(w', b) && w'.core.pumps == w.core.pumps && w'.audit.history == w.audit.history
            && Seen(w'.core.wire, b, w'.audit.streams[b]) == AttachOutputs(w.core.sessions[name])
  {
    var w' := Step(w, OnServe(Attach(id, name, 2, true)));
    var frames, shown := AttachFrames(id, name, w.core.sessions[name]), AttachOutputs(w.core.sessions[name]);
    AttachEvents(id, name, w.core.sessions[name], 2, id);
    assert frames[..2] == frames && shown[..1] == shown;
    assert w'.core.wire == w.core.wire + frames;
    assert w'.core.wire[|w.core.wire|..|w'.core.wire|] == frames;
  }

  lemma ReconnectedSees(w: World, late: PumpAction)
    requires w.core.serve.Idle? && "s" in w.core.sessions && "s" in w.audit.history
    requires |AttachFrames(2, "s", w.core.sessions["s"])| == 2
    requires Binding(6, 2) !in w.audit.streams && Late(w.core, 0, Binding(6, 2)) && late == LateWrite(w.core, 0)
    ensures FreshRun(w, Reconnected(late))
    ensures var w', b := Run(w, Reconnected(late)), Binding(6, 2);
            && b in w'.audit.streams && !w'.audit.streams[b].broken
            && Seen(w'.core.wire, b, w'.audit.streams[b]) ==
               AttachOutputs(w.core.sessions["s"]) + [LateEvent(w.core, 0)]
  {
    var attach, write := OnServe(Attach(2, "s", 2, true)), OnPump(0, late);
    Greeted(w, 6);
    var w0 := Run(w, Hellos(6));
    Attached(w0, 2, "s");
    LateIsSeen(Step(w0, attach), 0, Binding(6, 2));
    RunAppend(w, Hellos(6), [attach, write]);
    RunTwo(w0, attach, write);
    assert [attach, write] == [attach] + [write];
    RunAppend(w0, [attach], [write]);
    RunOne(w0, attach);
    NoBindIsAllowed(Run(w0, [attach]), [write]);
  }

  /**
   Each (epoch, id) pair is used once, and yet the host of the second connection sees the
   chunk twice: once in the replay, once from the pump that had passed its epoch check.
   */
  lemma OutputTwice(chunk: Chunk)
    requires 0 < |chunk| <= STREAM_CHUNK
    ensures var script := FIRST_CONNECTION + Pushed(chunk) + Reconnected(Send(true));
            var w, b := Run(BOOT, script), Binding(6, 2);
            && FreshRun(BOOT, script) && b in w.audit.streams && !w.audit.streams[b].broken
            && Seen(w.core.wire, b, w.audit.streams[b]) == [Out(chunk), Out(chunk)]
  {
    FirstConnection();
    var w := Run(BOOT, FIRST_CONNECTION);
    PushedAndChecked(w, chunk);
    RunAppend(BOOT, FIRST_CONNECTION, Pushed(chunk));
    RunAppend(BOOT, FIRST_CONNECTION + Pushed(chunk), Reconnected(Send(true)));
    ReconnectedSees(Run(w, Pushed(chunk)), Send(true));
  }

  /** Likewise the host of the second connection sees the exit twice. */
  lemma ExitTwice()
    ensures var script := FIRST_CONNECTION + EXITED + Reconnected(SendExit(true));
            var w, b := Run(BOOT, script), Binding(6, 2);
            && FreshRun(BOOT, script) && b in w.audit.streams && !w.audit.streams[b].broken
            && Seen(w.core.wire, b, w.audit.streams[b]) == [Ended(3), Ended(3)]
  {
    FirstConnection();
    var w := Run(BOOT, FIRST_CONNECTION);
    ExitedAndChecked(w);
    RunAppend(BOOT, FIRST_CONNECTION, EXITED);
    RunAppend(BOOT, FIRST_CONNECTION + EXITED, Reconnected(SendExit(true)));
    ReconnectedSees(Run(w, EXITED), SendExit(true));
  }
}
