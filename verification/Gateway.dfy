/**
 The host gateway multiplexer as a step system.

 One receive loop handles the server's Open, Data and Close frames; every target connection
 has a reading and a writing goroutine that may both notice a target failure. They share
 `conns` and `locallyClosed` under a mutex, but a Close frame is sent after the mutex is
 released. An `Action` is one section that runs without interruption by the others.

 Every accepted Open gets a fresh use number, which also names its connection object.
 */
module Gateway {
  import opened Basics

  const WRITE_QUEUE: nat := 32

  type Id = nat
  type Use = nat

  datatype Which = Reader | Writer

  datatype Side =
    | Running
    | Failing     // saw a target error, has not taken the lock yet
    | Unlinked    // moved the id to locallyClosed, has not closed the socket yet
    | Closing     // has to send Close
    | Done
  {
    predicate Owes() { Unlinked? || Closing? }
  }

  datatype Conn = Conn(id: Id, reader: Side, writer: Side, closed: bool,
                       queue: seq<seq<byte>>, current: seq<byte>, written: seq<byte>)
  {
    function At(side: Which): Side { if side.Reader? then reader else writer }

    function With(side: Which, state: Side): Conn {
      if side.Reader? then this.(reader := state) else this.(writer := state)
    }

    predicate Owes() { reader.Owes() || writer.Owes() }
  }

  datatype Receiver =
    | Ready
    | Dialing(id: Id, use: Use)
    | DialFailed(id: Id, use: Use)
    | Delivering(use: Use, data: seq<byte>)
    | Closes(use: Use)
    | Stopping
    | Draining(left: set<Use>)

  datatype Frame = Data(id: Id, data: seq<byte>) | Close(id: Id)

  datatype Core = Core(conns: map<Id, Use>, locallyClosed: set<Id>, objects: map<Use, Conn>, nextUse: Use,
                       receiver: Receiver, cancelled: bool, wire: seq<Frame>)

  datatype ReceiverAction =
    | RecvOpen(id: Id)
    | Dialed(ok: bool)
    | SendDialClose(ok: bool)
    | RecvData(id: Id, data: seq<byte>)
    | Enqueue
    | Reject
    | Abandon
    | RecvClose(id: Id)
    | CloseSocket
    | RecvError
    | Cancel
    | Shutdown
    | DrainOne(use: Use)

  datatype TargetAction =
    | Relay(data: seq<byte>, ok: bool)
    | Dequeue
    | WriteSome(count: nat)
    | Quit(side: Which)
    | TargetError(side: Which)  // a write that fails after taking bytes is `WriteSome`, then this
    | TakeLock(side: Which)
    | CloseFailed(side: Which)
    | SendClose(side: Which, ok: bool)

  datatype Action = OnReceiver(step: ReceiverAction) | OnTarget(use: Use, act: TargetAction)

  function Fail(s: Core): Core { s.(cancelled := true, receiver := Stopping) }

  predicate Busy(s: Core, id: Id) { id in s.conns || id in s.locallyClosed }

  function RecvOpenStep(s: Core, id: Id): Core {
    if Busy(s, id) then Fail(s) else s.(receiver := Dialing(id, s.nextUse), nextUse := s.nextUse + 1)
  }

  function DialedStep(s: Core, ok: bool): Core
    requires s.receiver.Dialing?
  {
    var id, use := s.receiver.id, s.receiver.use;
    if !ok then s.(locallyClosed := s.locallyClosed + {id}, receiver := DialFailed(id, use))
    else if Busy(s, id) then Fail(s)
    else
      s.(conns := s.conns[id := use],
         objects := s.objects[use := Conn(id, Running, Running, false, [], [], [])],
         receiver := Ready)
  }

  /** A send that fails after the context ended is ignored. */
  function SendDialCloseStep(s: Core, ok: bool): Core
    requires s.receiver.DialFailed?
  {
    if ok then s.(wire := s.wire + [Close(s.receiver.id)], receiver := Ready)
    else if s.cancelled then s.(receiver := Ready)
    else Fail(s)
  }

  function RecvDataStep(s: Core, id: Id, data: seq<byte>): Core {
    if id in s.conns then s.(receiver := Delivering(s.conns[id], data)) else Fail(s)
  }

  function EnqueueStep(s: Core): Core
    requires s.receiver.Delivering? && s.receiver.use in s.objects
  {
    var c := s.objects[s.receiver.use];
    s.(objects := s.objects[s.receiver.use := c.(queue := c.queue + [s.receiver.data])], receiver := Ready)
  }

  function RecvCloseStep(s: Core, id: Id): Core {
    if id in s.conns then s.(conns := s.conns - {id}, receiver := Closes(s.conns[id]))
    else if id in s.locallyClosed then s.(locallyClosed := s.locallyClosed - {id})
    else Fail(s)
  }

  function CloseObject(s: Core, use: Use): Core
    requires use in s.objects
  {
    s.(objects := s.objects[use := s.objects[use].(closed := true)])
  }

  function SetSide(s: Core, use: Use, side: Which, state: Side): Core
    requires use in s.objects
  {
    s.(objects := s.objects[use := s.objects[use].With(side, state)])
  }

  function RelayStep(s: Core, use: Use, data: seq<byte>, ok: bool): Core
    requires use in s.objects
  {
    if ok then s.(wire := s.wire + [Data(s.objects[use].id, data)])
    else SetSide(s, use, Reader, Done).(cancelled := true)
  }

  function DequeueStep(s: Core, use: Use): Core
    requires use in s.objects && s.objects[use].queue != []
  {
    var c := s.objects[use];
    s.(objects := s.objects[use := c.(current := c.queue[0], queue := c.queue[1..])])
  }

  /** A write may be partial; writing nothing counts as a target failure. */
  function WriteSomeStep(s: Core, use: Use, count: nat): Core
    requires use in s.objects && count <= |s.objects[use].current|
  {
    var c := s.objects[use];
    if count == 0 then SetSide(s, use, Writer, Failing)
    else s.(objects := s.objects[use := c.(current := c.current[count..], written := c.written + c.current[..count])])
  }

  /** `targetFailed` under the lock: only the connection that still owns its id is moved. */
  function TakeLockStep(s: Core, use: Use, side: Which): Core
    requires use in s.objects
  {
    var id := s.objects[use].id;
    if id in s.conns && s.conns[id] == use
    then SetSide(s, use, side, Unlinked).(conns := s.conns - {id}, locallyClosed := s.locallyClosed + {id})
    else SetSide(s, use, side, Done)
  }

  function SendCloseStep(s: Core, use: Use, side: Which, ok: bool): Core
    requires use in s.objects
  {
    var next := SetSide(s, use, side, Done);
    if ok then next.(wire := s.wire + [Close(s.objects[use].id)]) else next.(cancelled := true)
  }

  function ShutdownStep(s: Core): Core {
    s.(cancelled := true, conns := map[], locallyClosed := {}, receiver := Draining(s.conns.Values))
  }

  predicate ReceiverEnabled(s: Core, a: ReceiverAction) {
    match a
    case RecvOpen(_) => s.receiver.Ready?
    case Dialed(_) => s.receiver.Dialing?
    case SendDialClose(_) => s.receiver.DialFailed?
    case RecvData(_, _) => s.receiver.Ready?
    case Enqueue => s.receiver.Delivering? && s.receiver.use in s.objects
      && |s.objects[s.receiver.use].queue| < WRITE_QUEUE
    case Reject => s.receiver.Delivering? && s.receiver.use in s.objects && s.objects[s.receiver.use].closed
    case Abandon => s.receiver.Delivering? && s.cancelled
    case RecvClose(_) => s.receiver.Ready?
    case CloseSocket => s.receiver.Closes? && s.receiver.use in s.objects
    case RecvError => s.receiver.Ready?
    case Cancel => true
    case Shutdown => s.receiver.Stopping?
    case DrainOne(use) => s.receiver.Draining? && use in s.receiver.left && use in s.objects
  }

  predicate TargetEnabled(s: Core, use: Use, a: TargetAction) {
    use in s.objects &&
    var c := s.objects[use];
    match a
    case Relay(_, _) => c.reader.Running?
    case Dequeue => c.writer.Running? && c.current == [] && c.queue != []
    case WriteSome(count) => c.writer.Running? && c.current != [] && count <= |c.current|
    case Quit(side) => c.At(side).Running? && (c.closed || s.cancelled)
    case TargetError(side) => c.At(side).Running?
    case TakeLock(side) => c.At(side).Failing?
    case CloseFailed(side) => c.At(side).Unlinked?
    case SendClose(side, _) => c.At(side).Closing?
  }

  function ReceiverNext(s: Core, a: ReceiverAction): Core
    requires ReceiverEnabled(s, a)
  {
    match a
    case RecvOpen(id) => RecvOpenStep(s, id)
    case Dialed(ok) => DialedStep(s, ok)
    case SendDialClose(ok) => SendDialCloseStep(s, ok)
    case RecvData(id, data) => RecvDataStep(s, id, data)
    case Enqueue => EnqueueStep(s)
    case Reject => Fail(s)
    case Abandon => s.(receiver := Stopping)
    case RecvClose(id) => RecvCloseStep(s, id)
    case CloseSocket => CloseObject(s, s.receiver.use).(receiver := Ready)
    case RecvError => s.(receiver := Stopping)
    case Cancel => s.(cancelled := true)
    case Shutdown => ShutdownStep(s)
    case DrainOne(use) => CloseObject(s, use).(receiver := Draining(s.receiver.left - {use}))
  }

  function TargetNext(s: Core, use: Use, a: TargetAction): Core
    requires TargetEnabled(s, use, a)
  {
    match a
    case Relay(data, ok) => RelayStep(s, use, data, ok)
    case Dequeue => DequeueStep(s, use)
    case WriteSome(count) => WriteSomeStep(s, use, count)
    case Quit(side) => SetSide(s, use, side, Done)
    case TargetError(side) => SetSide(s, use, side, Failing)
    case TakeLock(side) => TakeLockStep(s, use, side)
    case CloseFailed(side) => CloseObject(SetSide(s, use, side, Closing), use)
    case SendClose(side, ok) => SendCloseStep(s, use, side, ok)
  }

  // ---- The observer ----

  /** One Close frame: the use it was sent for, and the id's latest use at that moment. */
  datatype Sent = Sent(id: Id, use: Use, latest: Use)

  /** `remote` is, per id, the last use whose Close frame from the server was handled. */
  datatype Audit = Audit(latest: map<Id, Use>, remote: map<Id, Use>, closes: seq<Sent>, received: map<Use, seq<byte>>)

  datatype World = World(core: Core, audit: Audit)

  /** The server has closed the latest use of `id`. */
  predicate ServerClosed(o: Audit, id: Id) {
    id in o.latest && id in o.remote && o.remote[id] == o.latest[id]
  }

  function Latest(o: Audit, id: Id, default: Use): Use { if id in o.latest then o.latest[id] else default }

  function ObserveReceiver(s: Core, o: Audit, a: ReceiverAction): Audit
    requires ReceiverEnabled(s, a)
  {
    match a
    case RecvOpen(id) => if Busy(s, id) then o else o.(latest := o.latest[id := s.nextUse])
    case Dialed(ok) =>
      if ok && !Busy(s, s.receiver.id) then o.(received := o.received[s.receiver.use := []]) else o
    case SendDialClose(ok) =>
      if ok then o.(closes := o.closes +
        [Sent(s.receiver.id, s.receiver.use, Latest(o, s.receiver.id, s.receiver.use))])
      else o
    case Enqueue =>
      if s.receiver.use in o.received
      then o.(received := o.received[s.receiver.use := o.received[s.receiver.use] + s.receiver.data]) else o
    case RecvClose(id) => if Busy(s, id) && id in o.latest then o.(remote := o.remote[id := o.latest[id]]) else o
    case _ => o
  }

  function ObserveTarget(s: Core, o: Audit, use: Use, a: TargetAction): Audit
    requires TargetEnabled(s, use, a)
  {
    if a.SendClose? && a.ok
    then o.(closes := o.closes + [Sent(s.objects[use].id, use, Latest(o, s.objects[use].id, use))])
    else o
  }

  function ReceiverStep(w: World, a: ReceiverAction): World
    requires ReceiverEnabled(w.core, a)
  {
    World(ReceiverNext(w.core, a), ObserveReceiver(w.core, w.audit, a))
  }

  function TargetStep(w: World, use: Use, a: TargetAction): World
    requires TargetEnabled(w.core, use, a)
  {
    World(TargetNext(w.core, use, a), ObserveTarget(w.core, w.audit, use, a))
  }

  function Step(w: World, a: Action): World {
    match a
    case OnReceiver(r) => if ReceiverEnabled(w.core, r) then ReceiverStep(w, r) else w
    case OnTarget(use, t) => if TargetEnabled(w.core, use, t) then TargetStep(w, use, t) else w
  }

  const ATTACHED := World(Core(map[], {}, map[], 0, Ready, false, []), Audit(map[], map[], [], map[]))

  function Run(w: World, script: seq<Action>): World {
    if script == [] then w else Step(Run(w, script[..|script| - 1]), script[|script| - 1])
  }
}
