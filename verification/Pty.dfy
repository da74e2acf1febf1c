/**
 The guest agent's terminal sessions as a step system.

 The serve thread handles host frames one at a time; every session has a pump
 thread that reads terminal output, appends it to the session's scrollback and
 publishes it to the host stream bound to the session. An `Action` is one section
 that some thread runs without giving up the lock it holds, so a list of actions is
 an interleaving. An action that its thread cannot take leaves the state alone.

 `Core` is the program's own state. `Audit` only observes: what each session has
 ever printed, and what each host stream was promised.
 */
module Pty {
  import opened Basics

  const SCROLLBACK_LIMIT: nat := 1048576
  const STREAM_CHUNK: nat := 65536
  const SESSION_CAP: nat := 128
  const SIGKILL: int := 9

  type Name = string
  type Chunk = seq<byte>

  datatype Binding = Binding(epoch: nat, frameId: nat)

  datatype Session = Session(binding: Option<Binding>, scrollback: seq<byte>, exit: Option<int>)

  datatype Reply = Meta(name: Name, exit: Option<int>) | Ack | Fault

  /** One frame the agent has written to the host. */
  datatype Frame =
    | Resp(id: nat, reply: Reply)
    | Stdout(id: nat, data: seq<byte>)
    | Exit(id: nat, code: int)

  datatype PumpState =
    | Reading
    | Publishing(chunk: Chunk, binding: Option<Binding>)  // pushed; binding copied under the lock
    | Sending(chunk: Chunk, to: Binding)                  // the epoch matched
    | Unbinding(failed: Binding)                          // the write failed
    | Reaping(code: int)                                  // end of output; child status known
    | ExitTaken(code: int, taken: Option<Binding>)
    | ExitSending(code: int, to: Binding)
    | Finished
  {
    /** The pump may still look its session up by name. */
    predicate Live() {
      Reading? || Publishing? || Sending? || Unbinding? || Reaping?
    }

    /** The pump carries a chunk already pushed for stream `b` and not yet written. */
    predicate Carries(b: Binding) {
      (Publishing? && binding == Some(b)) || (Sending? && to == b)
    }
  }

  datatype Pump = Pump(name: Name, state: PumpState)

  datatype Serve =
    | Idle
    | HelloStored(id: nat)
    | Opened(name: Name, id: nat)
    | Removed(id: nat, binding: Option<Binding>, exit: Option<int>)
    | Replying(id: nat, reply: Reply)

  datatype Core = Core(epoch: nat, sessions: map<Name, Session>, pumps: map<nat, Pump>, nextPump: nat,
                       serve: Serve, wire: seq<Frame>)

  datatype ServeAction =
    | Hello(id: nat, epoch: nat)
    | HelloClear
    | Open(id: nat, name: Name, spawned: bool)
    | OpenReply(ok: bool)
    | Attach(id: nat, name: Name, written: nat, flushed: bool)
    | Detach(id: nat, only: Option<Name>)
    | StdinEof(id: nat, name: Name)
    | ListSessions(id: nat, expired: set<Name>)
    | Close(id: nat, name: Name)
    | CloseExit(ok: bool)
    | Other(id: nat, reply: Reply)
    | SendReply(ok: bool)

  datatype PumpAction =
    | Push(chunk: Chunk)
    | CheckEpoch
    | Send(ok: bool)
    | Unbind
    | EndOfOutput(code: int)
    | TakeExit
    | CheckExitEpoch
    | SendExit(ok: bool)

  datatype Action = OnServe(serve: ServeAction) | OnPump(pump: nat, step: PumpAction)

  // ---- The program's steps ----

  /** `hello` stores the epoch, then takes the session lock to drop every binding. */
  function HelloStep(s: Core, id: nat, epoch: nat): Core {
    if epoch == 0 then s.(serve := Replying(id, Fault))
    else s.(epoch := epoch, serve := HelloStored(id))
  }

  function HelloClearStep(s: Core): Core
    requires s.serve.HelloStored?
  {
    s.(sessions := map n | n in s.sessions :: s.sessions[n].(binding := None), serve := Replying(s.serve.id, Ack))
  }

  function OpenStep(s: Core, id: nat, name: Name, spawned: bool): Core {
    if |s.sessions| >= SESSION_CAP || name in s.sessions || !spawned then
      s.(serve := Replying(id, Fault))
    else
      s.(sessions := s.sessions[name := Session(Some(Binding(s.epoch, id)), [], None)],
         serve := Opened(name, id))
  }

  /** The reply is written before the pump thread starts. */
  function OpenReplyStep(s: Core, ok: bool): Core
    requires s.serve.Opened? && s.serve.name in s.sessions
  {
    var name := s.serve.name;
    s.(wire := s.wire + (if ok then [Resp(s.serve.id, Meta(name, s.sessions[name].exit))] else []),
       pumps := s.pumps[s.nextPump := Pump(name, Reading)],
       nextPump := s.nextPump + 1,
       serve := Idle)
  }

  /** Meta, then the replay if there is any, then the retained exit. */
  function AttachFrames(id: nat, name: Name, session: Session): seq<Frame> {
    [Resp(id, Meta(name, session.exit))]
    + (if session.scrollback == [] then [] else [Stdout(id, session.scrollback)])
    + (if session.exit.None? then [] else [Exit(id, session.exit.value)])
  }

  /** The whole initial sequence goes out under the session lock; a failing writer stops after `written` frames. */
  function AttachStep(s: Core, id: nat, name: Name, written: nat, flushed: bool): Core {
    if name !in s.sessions then s.(serve := Replying(id, Fault))
    else
      var session := s.sessions[name];
      var frames := AttachFrames(id, name, session);
      var n := if written < |frames| then written else |frames|;
      var failed := n < |frames| || !flushed;
      var binding := if failed || session.exit.Some? then None else Some(Binding(s.epoch, id));
      s.(sessions := s.sessions[name := session.(binding := binding)], wire := s.wire + frames[..n])
  }

  predicate DetachMatches(s: Core, id: nat, only: Option<Name>, name: Name)
    requires name in s.sessions
  {
    (only.None? || only.value == name) && s.sessions[name].binding == Some(Binding(s.epoch, id))
  }

  function DetachStep(s: Core, id: nat, only: Option<Name>): Core {
    s.(sessions := map n | n in s.sessions ::
                     if DetachMatches(s, id, only, n) then s.sessions[n].(binding := None) else s.sessions[n],
       serve := Replying(id, Ack))
  }

  /** An empty stdin frame unbinds one session bound to that stream. */
  function StdinEofStep(s: Core, id: nat, name: Name): Core {
    if name in s.sessions && s.sessions[name].binding == Some(Binding(s.epoch, id)) then
      s.(sessions := s.sessions[name := s.sessions[name].(binding := None)])
    else s
  }

  /** Listing forgets sessions that exited long enough ago; `expired` is what the clock says. */
  function ListStep(s: Core, id: nat, expired: set<Name>): Core {
    s.(sessions := map n | n in s.sessions && !(n in expired && s.sessions[n].exit.Some?) :: s.sessions[n],
       serve := Replying(id, Ack))
  }

  function CloseStep(s: Core, id: nat, name: Name): Core {
    if name !in s.sessions then s.(serve := Replying(id, Fault))
    else
      s.(sessions := s.sessions - {name}, serve := Removed(id, s.sessions[name].binding, s.sessions[name].exit))
  }

  function CloseCode(exit: Option<int>): int {
    if exit.Some? then exit.value else -SIGKILL
  }

  function CloseExitStep(s: Core, ok: bool): Core
    requires s.serve.Removed?
  {
    var b := s.serve.binding;
    s.(wire := s.wire + (if b.Some? && b.value.epoch == s.epoch && ok
                         then [Exit(b.value.frameId, CloseCode(s.serve.exit))] else []),
       serve := Replying(s.serve.id, Ack))
  }

  /** Keep the last SCROLLBACK_LIMIT bytes, as `Scrollback.Push` does. */
  function PushScrollback(kept: seq<byte>, chunk: Chunk): seq<byte> {
    Last(kept + chunk, SCROLLBACK_LIMIT)
  }

  function SetPump(s: Core, p: nat, state: PumpState): Core
    requires p in s.pumps
  {
    s.(pumps := s.pumps[p := s.pumps[p].(state := state)])
  }

  function PushStep(s: Core, p: nat, chunk: Chunk): Core
    requires p in s.pumps
  {
    var name := s.pumps[p].name;
    if name !in s.sessions then SetPump(s, p, Finished)
    else
      var session := s.sessions[name];
      SetPump(s, p, Publishing(chunk, session.binding))
      .(sessions := s.sessions[name := session.(scrollback := PushScrollback(session.scrollback, chunk))])
  }

  function CheckEpochStep(s: Core, p: nat): Core
    requires p in s.pumps && s.pumps[p].state.Publishing?
  {
    var state := s.pumps[p].state;
    if state.binding.Some? && state.binding.value.epoch == s.epoch
    then SetPump(s, p, Sending(state.chunk, state.binding.value))
    else SetPump(s, p, Reading)
  }

  function SendStep(s: Core, p: nat, ok: bool): Core
    requires p in s.pumps && s.pumps[p].state.Sending?
  {
    var state := s.pumps[p].state;
    if ok then SetPump(s, p, Reading).(wire := s.wire + [Stdout(state.to.frameId, state.chunk)])
    else SetPump(s, p, Unbinding(state.to))
  }

  function UnbindStep(s: Core, p: nat): Core
    requires p in s.pumps && s.pumps[p].state.Unbinding?
  {
    var name := s.pumps[p].name;
    var next := SetPump(s, p, Reading);
    if name in s.sessions && s.sessions[name].binding == Some(s.pumps[p].state.failed)
    then next.(sessions := s.sessions[name := s.sessions[name].(binding := None)])
    else next
  }

  function TakeExitStep(s: Core, p: nat): Core
    requires p in s.pumps && s.pumps[p].state.Reaping?
  {
    var name := s.pumps[p].name;
    var code := s.pumps[p].state.code;
    if name !in s.sessions then SetPump(s, p, Finished)
    else
      SetPump(s, p, ExitTaken(code, s.sessions[name].binding))
      .(sessions := s.sessions[name := s.sessions[name].(exit := Some(code), binding := None)])
  }

  function CheckExitEpochStep(s: Core, p: nat): Core
    requires p in s.pumps && s.pumps[p].state.ExitTaken?
  {
    var state := s.pumps[p].state;
    if state.taken.Some? && state.taken.value.epoch == s.epoch
    then SetPump(s, p, ExitSending(state.code, state.taken.value))
    else SetPump(s, p, Finished)
  }

  function SendExitStep(s: Core, p: nat, ok: bool): Core
    requires p in s.pumps && s.pumps[p].state.ExitSending?
  {
    var state := s.pumps[p].state;
    SetPump(s, p, Finished)
    .(wire := s.wire + (if ok then [Exit(state.to.frameId, state.code)] else []))
  }

  predicate ServeEnabled(s: Core, a: ServeAction) {
    match a
    case HelloClear => s.serve.HelloStored?
    case OpenReply(_) => s.serve.Opened? && s.serve.name in s.sessions
    case CloseExit(_) => s.serve.Removed?
    case SendReply(_) => s.serve.Replying?
    case _ => s.serve.Idle?
  }

  predicate PumpEnabled(s: Core, p: nat, a: PumpAction) {
    p in s.pumps &&
    match a
    case Push(chunk) => s.pumps[p].state.Reading? && 0 < |chunk| <= STREAM_CHUNK
    case CheckEpoch => s.pumps[p].state.Publishing?
    case Send(_) => s.pumps[p].state.Sending?
    case Unbind => s.pumps[p].state.Unbinding?
    case EndOfOutput(_) => s.pumps[p].state.Reading?
    case TakeExit => s.pumps[p].state.Reaping?
    case CheckExitEpoch => s.pumps[p].state.ExitTaken?
    case SendExit(_) => s.pumps[p].state.ExitSending?
  }

  function ServeNext(s: Core, a: ServeAction): Core
    requires ServeEnabled(s, a)
  {
    match a
    case Hello(id, epoch) => HelloStep(s, id, epoch)
    case HelloClear => HelloClearStep(s)
    case Open(id, name, spawned) => OpenStep(s, id, name, spawned)
    case OpenReply(ok) => OpenReplyStep(s, ok)
    case Attach(id, name, written, flushed) => AttachStep(s, id, name, written, flushed)
    case Detach(id, only) => DetachStep(s, id, only)
    case StdinEof(id, name) => StdinEofStep(s, id, name)
    case ListSessions(id, expired) => ListStep(s, id, expired)
    case Close(id, name) => CloseStep(s, id, name)
    case CloseExit(ok) => CloseExitStep(s, ok)
    case Other(id, reply) => s.(serve := Replying(id, reply))
    case SendReply(ok) => s.(wire := s.wire + (if ok then [Resp(s.serve.id, s.serve.reply)] else []), serve := Idle)
  }

  function PumpNext(s: Core, p: nat, a: PumpAction): Core
    requires PumpEnabled(s, p, a)
  {
    match a
    case Push(chunk) => PushStep(s, p, chunk)
    case CheckEpoch => CheckEpochStep(s, p)
    case Send(ok) => SendStep(s, p, ok)
    case Unbind => UnbindStep(s, p)
    case EndOfOutput(code) => SetPump(s, p, Reaping(code))
    case TakeExit => TakeExitStep(s, p)
    case CheckExitEpoch => CheckExitEpochStep(s, p)
    case SendExit(ok) => SendExitStep(s, p, ok)
  }
}
