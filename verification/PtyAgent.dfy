/**
 The agent as it runs: one object whose fields the threads share, and the source's functions as
 methods. Where a function gives up its locks, other threads may take any steps they like; each such
 place is an argument that lists those steps. `script` records the whole interleaving, so that every guarantee
 about runs is a guarantee about the object.
 */
module PtyAgent {
  import opened Basics
  import opened Pty
  import opened PtyRuns
  import PtyTheorems

  /** Append `chunk` to a history bounded by `limit`, dropping the oldest bytes. */
  method PushInto(kept: seq<byte>, limit: nat, chunk: seq<byte>) returns (bytes: seq<byte>)
    requires |kept| <= limit
    ensures bytes == Last(kept + chunk, limit)
  {
    if limit == 0 {
      bytes := [];
      return;
    }
    if |chunk| >= limit {
      bytes := chunk[|chunk| - limit..];
      return;
    }
    var overflow := if |kept| + |chunk| > limit then |kept| + |chunk| - limit else 0;
    bytes := kept[overflow..];
    bytes := bytes + chunk;
  }

  /** Byte-bounded history; `history` is everything ever pushed. */
  class Scrollback {
    var bytes: seq<byte>
    const limit: nat
    ghost var history: seq<byte>

    ghost predicate Valid() reads this { bytes == Last(history, limit) }

    constructor (limit: nat)
      ensures Valid() && history == [] && this.limit == limit
    {
      this.limit := limit;
      bytes, history := [], [];
    }

    method Push(chunk: seq<byte>)
      requires Valid()
      modifies this
      ensures Valid() && history == old(history) + chunk
    {
      LastOfAppend(history, chunk, limit);
      bytes := PushInto(bytes, limit, chunk);
      history := history + chunk;
    }

    method Snapshot() returns (copy: seq<byte>)
      requires Valid()
      ensures copy == Last(history, limit)
    {
      copy := bytes;
    }
  }

  // ---- What other threads may do ----

  predicate OnlyPumps(steps: seq<Action>) { forall a <- steps :: a.OnPump? }

  predicate NotBy(steps: seq<Action>, p: nat) { forall a <- steps :: a.OnPump? ==> a.pump != p }

  /** Pumps never bind, open or close a session, and never touch the epoch. */
  ghost predicate PumpsMay(s: Core, t: Core) {
    && t.epoch == s.epoch && t.serve == s.serve && t.nextPump == s.nextPump && s.wire <= t.wire
    && t.sessions.Keys == s.sessions.Keys && t.pumps.Keys == s.pumps.Keys
    && forall n <- s.sessions :: t.sessions[n].binding.None? || t.sessions[n].binding == s.sessions[n].binding
  }

  /** Nobody else moves pump `p`, and nothing written is taken back. */
  ghost predicate LeavesPump(s: Core, t: Core, p: nat) {
    s.wire <= t.wire && (p in s.pumps && p < s.nextPump ==> p in t.pumps && p < t.nextPump && t.pumps[p] == s.pumps[p])
  }

  lemma PumpStepMay(s: Core, p: nat, a: PumpAction)
    requires PumpEnabled(s, p, a)
    ensures PumpsMay(s, PumpNext(s, p, a))
    ensures forall q :: q != p ==> LeavesPump(s, PumpNext(s, p, a), q)
  {
  }

  lemma ServeStepLeaves(s: Core, a: ServeAction)
    requires ServeEnabled(s, a)
    ensures forall q :: LeavesPump(s, ServeNext(s, a), q)
  {
  }

  /** The step that a run takes for an action, as far as the program's own state goes. */
  function CoreStep(s: Core, a: Action): Core {
    match a
    case OnServe(act) => if ServeEnabled(s, act) then ServeNext(s, act) else s
    case OnPump(p, act) => if PumpEnabled(s, p, act) then PumpNext(s, p, act) else s
  }

  /** What one step of another thread may do. */
  lemma OneStepMay(s: Core, a: Action)
    ensures a.OnPump? ==> PumpsMay(s, CoreStep(s, a))
    ensures forall p :: !(a.OnPump? && a.pump == p) ==> LeavesPump(s, CoreStep(s, a), p)
  {
    match a
    case OnServe(act) => if ServeEnabled(s, act) { ServeStepLeaves(s, act); }
    case OnPump(p, act) => if PumpEnabled(s, p, act) { PumpStepMay(s, p, act); }
  }

  lemma MayAgain(s: Core, t: Core, u: Core)
    ensures PumpsMay(s, t) && PumpsMay(t, u) ==> PumpsMay(s, u)
    ensures forall p :: LeavesPump(s, t, p) && LeavesPump(t, u, p) ==> LeavesPump(s, u, p)
  {
  }

  lemma RunSnoc(script: seq<Action>, a: Action)
    ensures Run(BOOT, script + [a]).core == CoreStep(Run(BOOT, script).core, a)
  {
    assert (script + [a])[..|script|] == script;
  }

  lemma InTail<T>(start: nat, before: seq<T>, x: T, after: seq<T>)
    requires start <= |before| && before + [x] <= after
    ensures x in after[start..]
  {
    assert after[start..][|before| - start] == (before + [x])[|before|];
  }

  lemma TailShrinks<T>(start: nat, later: nat, s: seq<T>)
    requires start <= later <= |s|
    ensures forall x <- s[later..] :: x in s[start..]
  {
    forall x <- s[later..] ensures x in s[start..] {
      var i :| 0 <= i < |s| - later && s[later..][i] == x;
      assert s[start..][later - start + i] == x;
    }
  }

  lemma TailGrows<T>(start: nat, before: seq<T>, after: seq<T>)
    requires start <= |before| && before <= after
    ensures forall x <- before[start..] :: x in after[start..]
  {
    forall x <- before[start..] ensures x in after[start..] {
      var i :| 0 <= i < |before| - start && before[start..][i] == x;
      assert after[start..][i] == x;
    }
  }

  class Agent {
    var epoch: nat
    var sessions: map<Name, Session>
    var pumps: map<nat, Pump>
    var nextPump: nat
    var serve: Serve
    var wire: seq<Frame>
    ghost var script: seq<Action>

    function View(): Core reads this {
      Core(epoch, sessions, pumps, nextPump, serve, wire)
    }

    /** The object is where some interleaving of the threads leaves the program. */
    ghost predicate Valid() reads this {
      View() == Run(BOOT, script).core
    }

    constructor ()
      ensures Valid() && script == [] && serve.Idle?
    {
      epoch, sessions, pumps, nextPump, serve, wire := 0, map[], map[], 0, Idle, [];
      script := [];
    }

    /** What every sequence of calls keeps, whatever the threads did in between. */
    lemma Guarantees()
      requires Valid()
      ensures BindingsSound(View()) && PtyTheorems.FitsSound(View())
      ensures ExitSafeRun(BOOT, script) ==> SingleExits(Run(BOOT, script))
      ensures SafeRun(BOOT, script) ==> AllFaithful(Run(BOOT, script))
    {
      PtyTheorems.EveryRunKeepsBindings(script);
      if ExitSafeRun(BOOT, script) { PtyTheorems.AtMostOneExit(script); }
      if SafeRun(BOOT, script) { PtyTheorems.AttachIsGapFree(script); }
    }

    /** Note that the code above just took action `a`. */
    ghost method Note(before: Core, a: Action)
      requires before == Run(BOOT, script).core && View() == CoreStep(before, a)
      modifies this`script
      ensures Valid() && script == old(script) + [a]
    {
      RunSnoc(script, a);
      script := script + [a];
    }

    method Become(next: Core)
      modifies this`epoch, this`sessions, this`pumps, this`nextPump, this`serve, this`wire
      ensures View() == next
    {
      epoch, sessions, pumps, nextPump, serve, wire :=
        next.epoch, next.sessions, next.pumps, next.nextPump, next.serve, next.wire;
    }

    /** Steps of other threads, in any order; one that cannot be taken leaves the state alone. */
    method Meanwhile(steps: seq<Action>)
      requires Valid()
      modifies this
      ensures Valid() && script == old(script) + steps
      ensures OnlyPumps(steps) ==> PumpsMay(old(View()), View())
      ensures forall p :: NotBy(steps, p) ==> LeavesPump(old(View()), View(), p)
    {
      for i := 0 to |steps|
        invariant Valid() && script == old(script) + steps[..i]
        invariant OnlyPumps(steps) ==> PumpsMay(old(View()), View())
        invariant forall p :: NotBy(steps, p) ==> LeavesPump(old(View()), View(), p)
      {
        var before, a := View(), steps[i];
        assert a in steps;
        OneStepMay(before, a);
        Become(CoreStep(before, a));
        MayAgain(old(View()), before, View());
        assert steps[..i + 1] == steps[..i] + [a];
        Note(before, a);
      }
      assert steps[..|steps|] == steps;
    }

    // ---- Serve thread ----

    /** Send the reply that is due and go back to reading frames. */
    method Answer(ok: bool)
      requires Valid() && serve.Replying?
      modifies this
      ensures Valid() && script == old(script) + [OnServe(SendReply(ok))]
      ensures View() == old(View()).(wire := wire, serve := Idle)
      ensures wire == old(wire) + (if ok then [Resp(old(serve.id), old(serve.reply))] else [])
    {
      ghost var before := View();
      wire := wire + (if ok then [Resp(serve.id, serve.reply)] else []);
      serve := Idle;
      Note(before, OnServe(SendReply(ok)));
    }

    /** The loop of `hello` over the sessions. */
    method ClearBindings()
      modifies this`sessions
      ensures sessions == map n | n in old(sessions) :: old(sessions)[n].(binding := None)
    {
      var todo := sessions.Keys;
      while todo != {}
        invariant todo <= sessions.Keys == old(sessions).Keys
        invariant forall n <- sessions ::
                    sessions[n] == if n in todo then old(sessions)[n] else old(sessions)[n].(binding := None)
        decreases todo
      {
        var n :| n in todo;
        sessions := sessions[n := sessions[n].(binding := None)];
        todo := todo - {n};
      }
    }

    method StoreEpoch(id: nat, next: nat)
      requires Valid() && serve.Idle?
      modifies this
      ensures Valid() && script == old(script) + [OnServe(ServeAction.Hello(id, next))]
      ensures View() == HelloStep(old(View()), id, next)
    {
      ghost var before := View();
      if next == 0 {
        serve := Replying(id, Fault);
      } else {
        epoch := next;
        serve := HelloStored(id);
      }
      Note(before, OnServe(ServeAction.Hello(id, next)));
    }

    method DropBindings()
      requires Valid() && serve.HelloStored?
      modifies this
      ensures Valid() && script == old(script) + [OnServe(HelloClear)]
      ensures View() == HelloClearStep(old(View()))
    {
      ghost var before := View();
      ClearBindings();
      serve := Replying(serve.id, Ack);
      Note(before, OnServe(HelloClear));
    }

    /** A new epoch leaves no session bound, whatever the pumps do; epoch zero is refused. */
    method Hello(id: nat, next: nat, stored: seq<Action>, cleared: seq<Action>, ok: bool)
      requires Valid() && serve.Idle? && OnlyPumps(stored) && OnlyPumps(cleared)
      modifies this
      ensures Valid() && serve.Idle? && sessions.Keys == old(sessions.Keys)
      ensures next == 0 ==> epoch == old(epoch)
      ensures next != 0 ==> epoch == next && forall n <- sessions :: sessions[n].binding.None?
      ensures script == old(script) + [OnServe(ServeAction.Hello(id, next))]
                        + (if next == 0 then [] else stored + [OnServe(HelloClear)])
                        + cleared + [OnServe(SendReply(ok))]
    {
      StoreEpoch(id, next);
      if next != 0 {
        Meanwhile(stored);
        DropBindings();
      }
      Meanwhile(cleared);
      Answer(ok);
    }

    method AddSession(id: nat, name: Name, spawned: bool) returns (accepted: bool)
      requires Valid() && serve.Idle?
      modifies this
      ensures Valid() && script == old(script) + [OnServe(Open(id, name, spawned))]
      ensures View() == OpenStep(old(View()), id, name, spawned)
      ensures accepted == serve.Opened?
    {
      ghost var before := View();
      if |sessions| >= SESSION_CAP {
        serve := Replying(id, Fault);
      } else if name in sessions {
        serve := Replying(id, Fault);
      } else if !spawned {
        serve := Replying(id, Fault);
      } else {
        sessions := sessions[name := Session(Some(Binding(epoch, id)), [], None)];
        serve := Opened(name, id);
      }
      Note(before, OnServe(Open(id, name, spawned)));
      accepted := serve.Opened?;
    }

    method StartPump(ok: bool)
      requires Valid() && serve.Opened? && serve.name in sessions
      modifies this
      ensures Valid() && script == old(script) + [OnServe(OpenReply(ok))]
      ensures View() == OpenReplyStep(old(View()), ok)
    {
      ghost var before := View();
      var name := serve.name;
      if ok { wire := wire + [Resp(serve.id, Meta(name, sessions[name].exit))]; }
      pumps := pumps[nextPump := Pump(name, Reading)];
      nextPump := nextPump + 1;
      serve := Idle;
      Note(before, OnServe(OpenReply(ok)));
    }

    /** Refused exactly for a full table, a known name or a failed spawn; else the reply finds its session. */
    method PtyOpen(id: nat, name: Name, spawned: bool, inserted: seq<Action>, ok: bool) returns (accepted: bool)
      requires Valid() && serve.Idle? && OnlyPumps(inserted)
      modifies this
      ensures Valid() && serve.Idle?
      ensures accepted <==> |old(sessions)| < SESSION_CAP && name !in old(sessions) && spawned
      ensures sessions.Keys == old(sessions.Keys) + (if accepted then {name} else {})
      ensures accepted ==> nextPump == old(nextPump) + 1
      ensures accepted ==> old(nextPump) in pumps && pumps[old(nextPump)] == Pump(name, Reading)
      ensures ok ==> wire != [] && wire[|wire| - 1] ==
                                   Resp(id, if accepted then Meta(name, sessions[name].exit) else Fault)
      ensures script == old(script) + [OnServe(Open(id, name, spawned))] + inserted
                        + [OnServe(if accepted then OpenReply(ok) else SendReply(ok))]
    {
      accepted := AddSession(id, name, spawned);
      Meanwhile(inserted);
      if accepted { StartPump(ok); } else { Answer(ok); }
    }

    /** Meta, replay and exit, one write each; the writer fails after `written` of them. */
    method WriteAttachFrames(id: nat, name: Name, session: Session, written: nat, flushed: bool) returns (ok: bool)
      modifies this`wire
      ensures var frames := AttachFrames(id, name, session);
              var n := if written < |frames| then written else |frames|;
              wire == old(wire) + frames[..n] && ok == (n == |frames| && flushed)
    {
      ghost var frames := AttachFrames(id, name, session);
      if written == 0 { return false; }
      wire := wire + [Resp(id, Meta(name, session.exit))];
      assert frames[..1] == [frames[0]];
      var n := 1;
      if session.scrollback != [] {
        if written == n { return false; }
        assert frames[..2] == [frames[0], frames[1]];
        wire := wire + [Stdout(id, session.scrollback)];
        n := n + 1;
      }
      if session.exit.Some? {
        if written == n { return false; }
        assert frames == frames[..n] + [frames[n]];
        wire := wire + [Exit(id, session.exit.value)];
      }
      ok := flushed;
    }

    method AttachSection(id: nat, name: Name, written: nat, flushed: bool) returns (known: bool)
      requires Valid() && serve.Idle?
      modifies this
      ensures Valid() && script == old(script) + [OnServe(Attach(id, name, written, flushed))]
      ensures View() == AttachStep(old(View()), id, name, written, flushed)
      ensures known == (name in old(sessions))
    {
      ghost var before := View();
      known := name in sessions;
      if !known {
        serve := Replying(id, Fault);
      } else {
        var session := sessions[name];
        var binding := Binding(epoch, id);
        sessions := sessions[name := session.(binding := Some(binding))];
        var complete := WriteAttachFrames(id, name, session, written, flushed);
        if (!complete || session.exit.Some?) && sessions[name].binding == Some(binding) {
          sessions := sessions[name := sessions[name].(binding := None)];
        }
      }
      Note(before, OnServe(Attach(id, name, written, flushed)));
    }

    /** A prefix of meta, replay and exit goes out; the stream is bound if and only if all did and nothing exited. */
    method PtyAttach(id: nat, name: Name, written: nat, flushed: bool, refused: seq<Action>, ok: bool)
      returns (known: bool)
      requires Valid() && serve.Idle? && OnlyPumps(refused)
      modifies this
      ensures Valid() && serve.Idle? && known == (name in old(sessions)) && sessions.Keys == old(sessions.Keys)
      ensures known ==>
                var frames := AttachFrames(id, name, old(sessions)[name]);
                var all := written >= |frames| && flushed;
                && wire == old(wire) + (if written < |frames| then frames[..written] else frames)
                && sessions[name].binding ==
                   if all && old(sessions)[name].exit.None? then Some(Binding(epoch, id)) else None
      ensures script == old(script) + [OnServe(Attach(id, name, written, flushed))]
                        + (if known then [] else refused + [OnServe(SendReply(ok))])
    {
      known := AttachSection(id, name, written, flushed);
      if !known {
        Meanwhile(refused);
        Answer(ok);
      }
    }

    method DetachAll(id: nat, only: Option<Name>)
      modifies this`sessions
      ensures sessions == DetachStep(old(View()), id, only).sessions
      ensures forall n <- sessions ::
                sessions[n] != old(sessions)[n] ==> old(sessions)[n].binding == Some(Binding(epoch, id))
    {
      var binding := Binding(epoch, id);
      var todo := sessions.Keys;
      while todo != {}
        invariant todo <= sessions.Keys == old(sessions).Keys
        invariant forall n <- sessions :: sessions[n] ==
                    if n in todo || !DetachMatches(old(View()), id, only, n) then old(sessions)[n]
                    else old(sessions)[n].(binding := None)
        decreases todo
      {
        var n :| n in todo;
        if (only.None? || only.value == n) && sessions[n].binding == Some(binding) {
          sessions := sessions[n := sessions[n].(binding := None)];
        }
        todo := todo - {n};
      }
    }

    method DetachSection(id: nat, only: Option<Name>)
      requires Valid() && serve.Idle?
      modifies this
      ensures Valid() && script == old(script) + [OnServe(Detach(id, only))]
      ensures View() == DetachStep(old(View()), id, only)
    {
      ghost var before := View();
      DetachAll(id, only);
      serve := Replying(id, Ack);
      Note(before, OnServe(Detach(id, only)));
    }

    /**
     Afterwards no session asked for is bound to this stream, and no binding is new. The detach itself
     leaves every session alone that is bound elsewhere or was not asked for.
     */
    method PtyDetach(id: nat, only: Option<Name>, detached: seq<Action>, ok: bool)
      requires Valid() && serve.Idle? && OnlyPumps(detached)
      modifies this
      ensures Valid() && serve.Idle? && epoch == old(epoch) && sessions.Keys == old(sessions.Keys)
      ensures forall n <- sessions :: only.None? || only.value == n ==> sessions[n].binding != Some(Binding(epoch, id))
      ensures forall n <- sessions :: sessions[n].binding.None? || sessions[n].binding == old(sessions)[n].binding
      ensures var next := Run(BOOT, old(script) + [OnServe(Detach(id, only))]).core.sessions;
              && next.Keys == old(sessions).Keys
              && forall n <- next :: next[n] ==
                   if old(sessions)[n].binding == Some(Binding(old(epoch), id)) && (only == None || only == Some(n))
                   then old(sessions)[n].(binding := None) else old(sessions)[n]
      ensures script == old(script) + [OnServe(Detach(id, only))] + detached + [OnServe(SendReply(ok))]
    {
      DetachSection(id, only);
      Meanwhile(detached);
      Answer(ok);
    }

    /** The empty stdin frame: the first session found bound to the stream is unbound, and nothing else changes. */
    method StdinEnd(id: nat) returns (found: Option<Name>)
      requires Valid() && serve.Idle?
      modifies this
      ensures Valid()
      ensures found.None? ==> View() == old(View())
      ensures found.None? ==> forall n <- sessions :: sessions[n].binding != Some(Binding(epoch, id))
      ensures found.Some? ==> found.value in old(sessions)
      ensures found.Some? ==> old(sessions)[found.value].binding == Some(Binding(epoch, id))
      ensures found.Some? ==> View() == old(View()).(sessions := sessions)
                              && sessions == old(sessions)[found.value := old(sessions)[found.value].(binding := None)]
      ensures script == old(script) + (if found.Some? then [OnServe(StdinEof(id, found.value))] else [])
    {
      ghost var before := View();
      var binding := Binding(epoch, id);
      var todo := sessions.Keys;
      while todo != {}
        invariant View() == before && script == old(script) && todo <= sessions.Keys
        invariant forall n <- sessions :: n in todo || sessions[n].binding != Some(binding)
        decreases todo
      {
        var n :| n in todo;
        if sessions[n].binding == Some(binding) {
          sessions := sessions[n := sessions[n].(binding := None)];
          Note(before, OnServe(StdinEof(id, n)));
          return Some(n);
        }
        todo := todo - {n};
      }
      found := None;
    }

    method ForgetExpired(expired: set<Name>)
      modifies this`sessions
      ensures sessions ==
              map n | n in old(sessions) && !(n in expired && old(sessions)[n].exit.Some?) :: old(sessions)[n]
    {
      var todo := sessions.Keys;
      while todo != {}
        invariant todo <= sessions.Keys <= old(sessions).Keys
        invariant forall n <- old(sessions) ::
                    n in sessions <==> n in todo || !(n in expired && old(sessions)[n].exit.Some?)
        invariant forall n <- sessions :: sessions[n] == old(sessions)[n]
        decreases todo
      {
        var n :| n in todo;
        if n in expired && sessions[n].exit.Some? { sessions := sessions - {n}; }
        todo := todo - {n};
      }
    }

    method ListSection(id: nat, expired: set<Name>)
      requires Valid() && serve.Idle?
      modifies this
      ensures Valid() && script == old(script) + [OnServe(ListSessions(id, expired))]
      ensures View() == ListStep(old(View()), id, expired)
    {
      ghost var before := View();
      ForgetExpired(expired);
      serve := Replying(id, Ack);
      Note(before, OnServe(ListSessions(id, expired)));
    }

    /** Only sessions that exited are forgotten, so a bound one never is. */
    method PtyList(id: nat, expired: set<Name>, listed: seq<Action>, ok: bool)
      requires Valid() && serve.Idle? && OnlyPumps(listed)
      modifies this
      ensures Valid() && serve.Idle?
      ensures sessions.Keys == set n | n in old(sessions) && !(n in expired && old(sessions)[n].exit.Some?)
      ensures forall n <- old(sessions) :: old(sessions)[n].binding.Some? ==> n in sessions
      ensures script == old(script) + [OnServe(ListSessions(id, expired))] + listed + [OnServe(SendReply(ok))]
    {
      Guarantees();
      ListSection(id, expired);
      Meanwhile(listed);
      Answer(ok);
    }

    method RemoveSession(id: nat, name: Name) returns (known: bool)
      requires Valid() && serve.Idle?
      modifies this
      ensures Valid() && script == old(script) + [OnServe(Close(id, name))]
      ensures View() == CloseStep(old(View()), id, name) && known == (name in old(sessions))
    {
      ghost var before := View();
      known := name in sessions;
      if !known {
        serve := Replying(id, Fault);
      } else {
        var session := sessions[name];
        sessions := sessions - {name};
        serve := Removed(id, session.binding, session.exit);
      }
      Note(before, OnServe(Close(id, name)));
    }

    method SendCloseExit(ok: bool)
      requires Valid() && serve.Removed?
      modifies this
      ensures Valid() && script == old(script) + [OnServe(CloseExit(ok))]
      ensures View() == CloseExitStep(old(View()), ok)
    {
      ghost var before := View();
      if serve.binding.Some? && serve.binding.value.epoch == epoch {
        var code := if serve.exit.Some? then serve.exit.value else -SIGKILL;
        if ok { wire := wire + [Exit(serve.binding.value.frameId, code)]; }
      }
      serve := Replying(serve.id, Ack);
      Note(before, OnServe(CloseExit(ok)));
    }

    /** The exit of a removed session, with the pumps running before and after. */
    method TellClosed(removed: seq<Action>, ok: bool, exited: seq<Action>)
      requires Valid() && serve.Removed? && OnlyPumps(removed) && OnlyPumps(exited)
      modifies this
      ensures Valid() && serve.Replying? && script == old(script) + removed + [OnServe(CloseExit(ok))] + exited
      ensures sessions.Keys == old(sessions.Keys) && old(wire) <= wire
      ensures ok && old(serve.binding).Some? && old(serve.binding).value.epoch == old(epoch) ==>
                Exit(old(serve.binding).value.frameId, CloseCode(old(serve.exit))) in wire[|old(wire)|..]
    {
      ghost var binding, exit := serve.binding, serve.exit;
      Meanwhile(removed);
      ghost var sent := wire;
      SendCloseExit(ok);
      Meanwhile(exited);
      if ok && binding.Some? && binding.value.epoch == old(epoch) {
        InTail(|old(wire)|, sent, Exit(binding.value.frameId, CloseCode(exit)), wire);
      }
    }

    /** The session is gone, whatever its pump does, and a host stream bound to it is told so. */
    method PtyClose(id: nat, name: Name, removed: seq<Action>, exitOk: bool, exited: seq<Action>, ok: bool)
      returns (known: bool)
      requires Valid() && serve.Idle? && OnlyPumps(removed) && OnlyPumps(exited)
      modifies this
      ensures Valid() && serve.Idle? && known == (name in old(sessions))
      ensures sessions.Keys == old(sessions.Keys) - {name} && old(wire) <= wire
      ensures known && exitOk && old(sessions)[name].binding.Some? ==>
                Exit(old(sessions)[name].binding.value.frameId, -9) in wire[|old(wire)|..]
      ensures script == old(script) + [OnServe(Close(id, name))]
                        + (if known then removed + [OnServe(CloseExit(exitOk))] else [])
                        + exited + [OnServe(SendReply(ok))]
    {
      Guarantees();
      known := RemoveSession(id, name);
      if known { TellClosed(removed, exitOk, exited); } else { Meanwhile(exited); }
      ghost var told := wire;
      Answer(ok);
      assert forall x <- told[|old(wire)|..] :: x in wire[|old(wire)|..] by { TailGrows(|old(wire)|, told, wire); }
    }

    // ---- Pump threads ----

    method SetState(p: nat, state: PumpState)
      requires p in pumps
      modifies this`pumps
      ensures View() == SetPump(old(View()), p, state)
    {
      pumps := pumps[p := pumps[p].(state := state)];
    }

    /** Push the output and copy the binding under the session lock; false when the session is gone. */
    method PushChunk(p: nat, chunk: Chunk) returns (found: bool)
      requires Valid() && PumpEnabled(View(), p, Push(chunk))
      modifies this
      ensures Valid() && script == old(script) + [OnPump(p, Push(chunk))]
      ensures View() == PushStep(old(View()), p, chunk) && found == (old(pumps)[p].name in old(sessions))
    {
      Guarantees();
      ghost var before := View();
      var name := pumps[p].name;
      found := name in sessions;
      if !found {
        SetState(p, Finished);
      } else {
        var session := sessions[name];
        var scrollback := PushInto(session.scrollback, SCROLLBACK_LIMIT, chunk);
        sessions := sessions[name := session.(scrollback := scrollback)];
        SetState(p, Publishing(chunk, session.binding));
      }
      Note(before, OnPump(p, Push(chunk)));
    }

    method CompareEpoch(p: nat) returns (passed: bool)
      requires Valid() && PumpEnabled(View(), p, CheckEpoch)
      modifies this
      ensures Valid() && script == old(script) + [OnPump(p, CheckEpoch)]
      ensures View() == CheckEpochStep(old(View()), p) && passed == pumps[p].state.Sending?
    {
      ghost var before := View();
      var state := pumps[p].state;
      passed := state.binding.Some? && state.binding.value.epoch == epoch;
      SetState(p, if passed then Sending(state.chunk, state.binding.value) else Reading);
      Note(before, OnPump(p, CheckEpoch));
    }

    method WriteChunk(p: nat, ok: bool)
      requires Valid() && PumpEnabled(View(), p, Send(ok))
      modifies this
      ensures Valid() && script == old(script) + [OnPump(p, Send(ok))]
      ensures View() == SendStep(old(View()), p, ok)
    {
      ghost var before := View();
      var state := pumps[p].state;
      if ok {
        wire := wire + [Stdout(state.to.frameId, state.chunk)];
        SetState(p, Reading);
      } else {
        SetState(p, Unbinding(state.to));
      }
      Note(before, OnPump(p, Send(ok)));
    }

    method UnbindFailed(p: nat)
      requires Valid() && PumpEnabled(View(), p, Unbind)
      modifies this
      ensures Valid() && script == old(script) + [OnPump(p, Unbind)]
      ensures View() == UnbindStep(old(View()), p)
    {
      ghost var before := View();
      var name, failed := pumps[p].name, pumps[p].state.failed;
      if name in sessions && sessions[name].binding == Some(failed) {
        sessions := sessions[name := sessions[name].(binding := None)];
      }
      SetState(p, Reading);
      Note(before, OnPump(p, Unbind));
    }

    /** The steps of a chunk after the epoch check. */
    ghost function SendScript(p: nat, checked: seq<Action>, ok: bool, failed: seq<Action>): seq<Action> {
      checked + [OnPump(p, Send(ok))] + if ok then [] else failed + [OnPump(p, Unbind)]
    }

    method SendChunk(p: nat, checked: seq<Action>, ok: bool, failed: seq<Action>)
      requires Valid() && p in pumps && p < nextPump && pumps[p].state.Sending?
      requires NotBy(checked, p) && NotBy(failed, p)
      modifies this
      ensures Valid() && script == old(script) + SendScript(p, checked, ok, failed)
      ensures p in pumps && pumps[p] == old(pumps[p]).(state := Reading) && old(wire) <= wire
      ensures ok ==> Stdout(old(pumps[p].state.to).frameId, old(pumps[p].state.chunk)) in wire[|old(wire)|..]
    {
      ghost var state := pumps[p].state;
      Meanwhile(checked);
      ghost var sent := wire;
      WriteChunk(p, ok);
      if ok {
        InTail(|old(wire)|, sent, Stdout(state.to.frameId, state.chunk), wire);
      } else {
        Meanwhile(failed);
        UnbindFailed(p);
      }
    }

    /**
     One chunk of output. Whatever the other threads do meanwhile, the pump is ready for the next
     one unless the session was gone, and a chunk that passed the epoch check and was written is
     on the wire of the stream that was bound when the chunk was pushed.
     */
    method PublishOutput(p: nat, chunk: Chunk, pushed: seq<Action>, checked: seq<Action>, ok: bool, failed: seq<Action>)
      returns (found: bool, passed: bool)
      requires Valid() && PumpEnabled(View(), p, Push(chunk))
      requires NotBy(pushed, p) && NotBy(checked, p) && NotBy(failed, p)
      modifies this
      ensures Valid() && p in pumps && old(wire) <= wire
      ensures found == (old(pumps)[p].name in old(sessions))
      ensures pumps[p] == Pump(old(pumps)[p].name, if found then Reading else Finished)
      ensures passed <==> found && old(sessions)[old(pumps)[p].name].binding.Some?
                          && old(sessions)[old(pumps)[p].name].binding.value.epoch ==
                             Run(BOOT, old(script) + [OnPump(p, Push(chunk))] + pushed).core.epoch
      ensures passed && ok ==>
                Stdout(old(sessions)[old(pumps)[p].name].binding.value.frameId, chunk) in wire[|old(wire)|..]
      ensures !found ==> script == old(script) + [OnPump(p, Push(chunk))]
      ensures found ==> script == old(script) + [OnPump(p, Push(chunk))] + pushed + [OnPump(p, CheckEpoch)]
                                  + if passed then SendScript(p, checked, ok, failed) else []
    {
      Guarantees();
      passed := false;
      found := PushChunk(p, chunk);
      if found {
        Meanwhile(pushed);
        passed := CompareEpoch(p);
        if passed {
          ghost var start := wire;
          SendChunk(p, checked, ok, failed);
          assert old(wire) <= start;
          TailShrinks(|old(wire)|, |start|, wire);
        }
      }
    }

    method NoteStatus(p: nat, code: int)
      requires Valid() && PumpEnabled(View(), p, EndOfOutput(code))
      modifies this
      ensures Valid() && script == old(script) + [OnPump(p, EndOfOutput(code))]
      ensures View() == SetPump(old(View()), p, Reaping(code))
    {
      ghost var before := View();
      SetState(p, Reaping(code));
      Note(before, OnPump(p, EndOfOutput(code)));
    }

    method RecordExit(p: nat) returns (found: bool)
      requires Valid() && PumpEnabled(View(), p, TakeExit)
      modifies this
      ensures Valid() && script == old(script) + [OnPump(p, TakeExit)]
      ensures View() == TakeExitStep(old(View()), p) && found == pumps[p].state.ExitTaken?
    {
      ghost var before := View();
      var name, code := pumps[p].name, pumps[p].state.code;
      found := name in sessions;
      if !found {
        SetState(p, Finished);
      } else {
        var binding := sessions[name].binding;
        sessions := sessions[name := sessions[name].(exit := Some(code), binding := None)];
        SetState(p, ExitTaken(code, binding));
      }
      Note(before, OnPump(p, TakeExit));
    }

    method CompareExitEpoch(p: nat) returns (passed: bool)
      requires Valid() && PumpEnabled(View(), p, CheckExitEpoch)
      modifies this
      ensures Valid() && script == old(script) + [OnPump(p, CheckExitEpoch)]
      ensures View() == CheckExitEpochStep(old(View()), p) && passed == pumps[p].state.ExitSending?
    {
      ghost var before := View();
      var state := pumps[p].state;
      passed := state.taken.Some? && state.taken.value.epoch == epoch;
      SetState(p, if passed then ExitSending(state.code, state.taken.value) else Finished);
      Note(before, OnPump(p, CheckExitEpoch));
    }

    method WriteExit(p: nat, ok: bool)
      requires Valid() && PumpEnabled(View(), p, SendExit(ok))
      modifies this
      ensures Valid() && script == old(script) + [OnPump(p, SendExit(ok))]
      ensures View() == SendExitStep(old(View()), p, ok)
    {
      ghost var before := View();
      var state := pumps[p].state;
      if ok { wire := wire + [Exit(state.to.frameId, state.code)]; }
      SetState(p, Finished);
      Note(before, OnPump(p, SendExit(ok)));
    }

    /** The exit frame of a pump that took the binding `old(pumps[p].state.taken)`. */
    method TellExit(p: nat, taken: seq<Action>, checked: seq<Action>, ok: bool) returns (passed: bool)
      requires Valid() && p in pumps && p < nextPump && pumps[p].state.ExitTaken?
      requires NotBy(taken, p) && NotBy(checked, p)
      modifies this
      ensures Valid() && p in pumps && pumps[p] == old(pumps[p]).(state := Finished) && old(wire) <= wire
      ensures passed <==> old(pumps[p].state.taken).Some?
                          && old(pumps[p].state.taken).value.epoch == Run(BOOT, old(script) + taken).core.epoch
      ensures passed && ok ==>
                Exit(old(pumps[p].state.taken).value.frameId, old(pumps[p].state.code)) in wire[|old(wire)|..]
      ensures script == old(script) + taken + [OnPump(p, CheckExitEpoch)]
                        + if passed then checked + [OnPump(p, SendExit(ok))] else []
    {
      ghost var state := pumps[p].state;
      Meanwhile(taken);
      passed := CompareExitEpoch(p);
      if passed {
        Meanwhile(checked);
        ghost var sent := wire;
        WriteExit(p, ok);
        if ok { InTail(|old(wire)|, sent, Exit(state.taken.value.frameId, state.code), wire); }
      }
    }

    /**
     The end of a pump. Whatever the other threads do meanwhile, it finishes; an exit that passed
     the epoch check and was written carries the child's code, to the stream that was bound when
     the exit was recorded.
     */
    method ReapChild(p: nat, code: int, ended: seq<Action>, taken: seq<Action>, checked: seq<Action>, ok: bool)
      returns (found: bool, passed: bool, ghost stream: Option<Binding>)
      requires Valid() && PumpEnabled(View(), p, EndOfOutput(code))
      requires NotBy(ended, p) && NotBy(taken, p) && NotBy(checked, p)
      modifies this
      ensures Valid() && p in pumps && pumps[p] == Pump(old(pumps)[p].name, Finished) && old(wire) <= wire
      ensures var when := Run(BOOT, old(script) + [OnPump(p, EndOfOutput(code))] + ended).core;
              && (found <==> old(pumps)[p].name in when.sessions)
              && (found ==> stream == when.sessions[old(pumps)[p].name].binding)
      ensures passed <==> found && stream.Some? && stream.value.epoch == Run(BOOT, old(script)
                          + [OnPump(p, EndOfOutput(code))] + ended + [OnPump(p, TakeExit)] + taken).core.epoch
      ensures passed && ok ==> Exit(stream.value.frameId, code) in wire[|old(wire)|..]
      ensures script == old(script) + [OnPump(p, EndOfOutput(code))] + ended + [OnPump(p, TakeExit)]
                        + (if !found then []
                           else taken + [OnPump(p, CheckExitEpoch)]
                                + if passed then checked + [OnPump(p, SendExit(ok))] else [])
    {
      Guarantees();
      passed, stream := false, None;
      NoteStatus(p, code);
      Meanwhile(ended);
      assert script == old(script) + [OnPump(p, EndOfOutput(code))] + ended;
      found := RecordExit(p);
      if found {
        stream := pumps[p].state.taken;
        ghost var start := wire;
        passed := TellExit(p, taken, checked, ok);
        assert old(wire) <= start;
        TailShrinks(|old(wire)|, |start|, wire);
      }
    }
  }
}
