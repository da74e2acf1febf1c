# Models of the vmon protocols

Dafny models of the small stateful protocols that carry sandbox I/O in vmon, with proofs of what they
guarantee over whole runs. Check everything with `dafny verify dfyconfig.toml`.

## What is modelled

- **Guest agent terminals** (`Pty`, `PtyRuns`, `PtyTheorems`, `PtyRebind`, `PtyReconnect`, `PtyAgent`). The serve thread and any number of
  output pumps as a step system: one step per section that runs under one lock or does one write. An
  observer that the agent cannot see records what each session printed and what each stream should
  receive. A stream is an (epoch, frame id) pair, since the host counts its ids from one again on every
  connection; on the wire a frame carries only the id. Every run is a list of steps in any order the code allows. `PtyAgent` is the agent as a class
  with the source's functions as methods; where a function gives up its locks, other threads take any
  steps they like. The object records the whole interleaving, so every theorem about runs holds of it.
- **Frame codec** (`Frames`). The agent's framed byte stream with its nine-byte resync marker.
- **Durable calls** (`InputStream`, `EventWatch`). Batch input submission and resumable event delivery,
  against an unseen server. The environment may lose, delay and repeat frames and acknowledgements, and
  break streams at any point.
- **Host gateway** (`Gateway`, `GatewayRuns`, `HostGateway`). The receive loop and two goroutines per
  connection, with the same split into step system, run theorems and class.
- **Mesh driver** (`MeshDriver`, `MeshRecord`, `MeshFailover`, `MeshClient`). Roster, cooldowns, candidate selection,
  discovery merges and failover; other goroutines may act between any two lock sections.
- **VMM control plane** (`Watchdog`, `RequestLine`). The ownership watchdog in abstract time, and the line
  reader over every way of cutting the stream into buffers.
- **Open-loop benchmark** (`OpenLoop`, `OpenLoopRuns`, `OpenLoopCredits`, `OpenLoopSchedule`,
  `OpenLoopObjects`, `OpenLoopExamples`). Lanes, requests that resolve in any order, shared gauges, tallies and the report.
- **Codecs** (`Base64`, `Chunked`, `CanonicalQuery`).

Locks, clocks, sockets and the scheduler appear as the choice of the next step. Whether a write succeeds,
a process spawns, a dial works or a line is valid text is a parameter of the step.

## What the proofs found

- Terminals: the promise of attach (replay, then every chunk, then the exit) does not survive every
  reconnect. A pump compares the epoch and then writes without looking again, so a chunk or an exit that
  passed the check before a `hello` is written after it, with a frame id that the new connection may have
  bound again. `OutputTwice` and `ExitTwice` are runs in which every (epoch, id) pair is used once and the
  host of the new connection sees a chunk or the exit twice. Likewise `pty_open` accepts a name while a pump
  of an earlier session of that name is alive (`ReopenCounterexample`). `BindIsSafeIff` is the exact condition
  for both: an open or attach keeps every stream faithful in all continuations if and only if no pump is past
  its epoch check with a frame for that id and, for an open, no pump can still look the name up. A pump that
  holds a chunk but has not compared yet does no harm; that is what the epoch check is for.
  `BindEndsOnceIff` is the condition for exits alone. An open or attach that the agent refuses is always
  safe (`RefusalIsSafe`).
- Gateway: no failure of an old connection touches the maps entry of a newer one, and each connection sends
  at most one Close. But a Close is sent after the lock is released, so when both sides close at once and
  the server reuses the id, the late Close names the new connection. `CrossedCloses` is such a run and
  `ReuseIsSafeIffNoneOwed` the exact condition.
- Watchdog: a rearm reads the clock before it takes the lock, so two rearms can cross and an accepted
  deadline can be replaced by one asked for earlier. `CrossedRearms` is such a run and
  `RearmHoldsIffNoneOlder` the exact condition.
- Benchmark: the report adds up if and only if no batch lane receives more responses than it sent requests
  (`ToldIsFiredIffNoSurplus`); a surplus response is told twice, as in the run `SurplusToldTwice`. A unary
  task that panics after admission stays pending for good (`PanicStaysPending`); `CompletedIsOfferedIffClean`
  is the exact condition.
- Chunked bodies: the two bytes after a chunk are skipped without being compared to CRLF
  (`GapIsNotChecked`).
- Driver: a request that was answered does not always leave its endpoint preferred, or even listed. Another
  goroutine's merge may have dropped it before the answer (`AnsweredButDropped`), and so may the refresh that
  the same request makes after the answer and before it returns (`OwnRefreshDrops`). `Driver.Do` gives the
  exact condition.
- Gateway: the duplicate check after a dial can never fire (`HostGateway.Open`).
- `watch` in the Go client has a branch that marks success when the stream ended without an error; no path
  reaches it, and the model leaves it out.

## Model

| member | source | states |
|---|---|---|
| `PtyTheorems.EveryRunKeepsBindings` | agent/src/main.rs:279-293 | In every interleaving, with no assumption on the host: outside hello every binding carries the current epoch, no exited session is bound, every scrollback is the last 2^20 bytes of all its session printed, and every output frame fits one codec frame |
| `PtyTheorems.AtMostOneExit` | agent/src/main.rs:436-470 | Over every run in which a pair of epoch and id is bound once, and no id while an exit for it is past its epoch check, no stream receives two exits, counting those from attach, natural exit and close together, and a bound session's output is what preceded the binding plus the chunks pushed since |
| `PtyTheorems.AttachIsGapFree` | agent/src/main.rs:473-515 | If moreover no id is bound while output for it is past its epoch check, and no name is opened, refusals aside, while a pump of it is alive, every stream whose writes succeed and whose connection lasts got exactly the replay, then the chunks pushed while bound in order, at most one still in flight, and on natural exit the exit after all of them |
| `PtyTheorems.WhatTheHostSaw` | agent/src/main.rs:1614-1642 | Over the same runs, what the host of a bound, intact stream saw is the session's whole output from the start of the replay window, up to one chunk a pump is about to write |
| `PtyTheorems.MetaComesFirst` | agent/src/main.rs:1597-1612 | Over the same runs, every intact stream has its meta frame before any output or exit |
| `PtyTheorems.UnboundIffReleased` | agent/src/main.rs:279-609 | After any run, a step ends a session's binding to a stream if and only if it is the clearing of a hello, a detach or empty input frame of that very stream that covers the session, a close or another attach of its name, its own exit, or the failed write of its own pump to that stream |
| `PtyTheorems.BoundUntilReleased` | agent/src/main.rs:279-609 | In every run a session stays bound to its stream until such a step |
| `PtyRebind.BindIsSafeIff` | agent/src/main.rs:295-515 | After any such run, an accepted open or attach on an id not yet used in this epoch keeps every stream faithful in all such continuations if and only if no pump is past its epoch check with output or an exit for that id and, for an open, no pump of an earlier session of that name is alive |
| `PtyRebind.BindEndsOnceIff` | agent/src/main.rs:455-470 | The same for at most one exit per stream: if and only if no pump is past its epoch check with an exit for that id |
| `PtyRebind.RefusalIsSafe` | agent/src/main.rs:295-314 | A refused open or attach, whatever its id and name, keeps the run within those conditions and every stream faithful |
| `PtyRuns.EpochTells` | agent/src/proto.rs:28-33 | A frame for a binding of the current epoch is never taken for one of another open stream |
| `PtyReconnect.OutputTwice` | agent/src/main.rs:1625-1634 | For every chunk, a run with a reconnect in which each pair of epoch and id is bound once and the new stream sees the chunk twice |
| `PtyReconnect.ExitTwice` | agent/src/main.rs:462-469 | Such a run in which the new stream sees the exit twice |
| `PtyReconnect.ReopenCounterexample` | agent/src/main.rs:580-609 | After open and close of a session whose pump still waits, opening the name again is accepted and some continuation breaks a stream |
| `PtyAgent.PushInto` | agent/src/proto.rs:47-65 | Dropping from the front and appending leaves the last `limit` bytes of old contents plus chunk, in every branch |
| `PtyAgent.Scrollback.Push` | agent/src/proto.rs:47-65 | The buffer stays the last `limit` bytes of everything ever pushed |
| `PtyAgent.Scrollback.Snapshot` | agent/src/proto.rs:68-70 | The copy is the last `limit` bytes of everything ever pushed |
| `PtyAgent.Agent.Guarantees` | agent/src/main.rs:279-609 | After every sequence of calls, with any steps of other threads in between: bindings carry the current epoch and no exited session is bound, every frame fits the codec; under the conditions of `AtMostOneExit` no stream has two exits, and under those of `AttachIsGapFree` every intact stream got what it was promised |
| `PtyAgent.Agent.Hello` | agent/src/main.rs:279-293 | A non-zero epoch leaves that epoch stored and no session bound, whatever the pumps do between and after its two lock sections; epoch zero changes neither |
| `PtyAgent.Agent.ClearBindings` | agent/src/main.rs:289-291 | The loop clears the binding of every session and nothing else |
| `PtyAgent.Agent.PtyOpen` | agent/src/main.rs:295-436 | Refused exactly for a full table, a known name or a failed spawn, with an error reply; otherwise the session is still there when the reply looks it up, the reply is the meta frame of that name and its pump starts |
| `PtyAgent.Agent.WriteAttachFrames` | agent/src/main.rs:1597-1612 | A prefix of meta, replay if any, retained exit if any is written; success means all of it |
| `PtyAgent.Agent.PtyAttach` | agent/src/main.rs:473-515 | That prefix goes out in one piece, and the stream is bound afterwards if and only if all of it did and the session has not exited |
| `PtyAgent.Agent.PtyDetach` | agent/src/main.rs:517-526 | Right after the detach exactly the sessions asked for that were bound to this stream in the current epoch are unbound, and every other one is as it was; when the call returns none of them is bound to it and no binding is new, whatever the pumps do |
| `PtyAgent.Agent.DetachAll` | agent/src/main.rs:520-524 | The loop unbinds exactly the sessions that match the optional name and this stream in the current epoch, and changes no session bound to another stream |
| `PtyAgent.Agent.StdinEnd` | agent/src/main.rs:917-928 | An empty input frame unbinds one session bound to this stream in the current epoch, or finds none and changes nothing |
| `PtyAgent.Agent.PtyList` | agent/src/main.rs:560-578 | Only exited sessions whose time is up are forgotten, so a bound one never is |
| `PtyAgent.Agent.PtyClose` | agent/src/main.rs:580-609 | The session is gone whatever its pump does, and a stream bound to it gets an exit with code minus nine if the write succeeds, since a bound session has not exited |
| `PtyAgent.Agent.PublishOutput` | agent/src/main.rs:1614-1642 | Whatever other threads do between its sections, the pump is ready for more unless the session was gone; the chunk goes on exactly when a stream was bound when it was pushed and its epoch is the current one at the check, and if written it is on the wire of that stream |
| `PtyAgent.Agent.ReapChild` | agent/src/main.rs:455-470 | The pump finishes; an exit is sent exactly when a stream was bound to the session when the exit was recorded and its epoch is the current one at the check, and if written it carries the child's code to that stream |
| `Frames.RoundTrip` | agent/src/proto.rs:87-169 | Any list of frames with payloads up to 2^20 bytes, with any markers between them, reads back as exactly that list and then a clean end |
| `Frames.NoiseThenSync` | agent/src/proto.rs:15 | Since the marker overlaps no shifted copy of itself, the first marker in marker-free noise followed by a marker is that marker |
| `Frames.ReadPastGarbage` | agent/src/proto.rs:103-113 | After an impossible header, reading goes on behind the first marker that lies wholly beyond its nine bytes |
| `Frames.HeaderIsNoMarker` | agent/src/proto.rs:11-15 | No header of a frame within the limit equals the marker |
| `Frames.ReadEncoded` | agent/src/proto.rs:87-124 | A written frame followed by anything is read back, and what follows is left |
| `Frames.CutFrameIsAnError` | agent/src/proto.rs:96-129 | A frame cut off anywhere before its end reads as an unexpected end, never as a clean one |
| `Frames.EncodedLayout` | agent/src/proto.rs:155-169 | Four bytes of length, one of type, four of stream id, least significant byte first, then the payload |
| `Frames.Look` | agent/src/proto.rs:87-124 | Every turn of the read loop that goes on, and every frame read, consumes at least nine bytes |
| `Frames.FirstSync` | agent/src/proto.rs:131-153 | The position of the first marker, or none exactly when there is none |
| `Frames.NoiseThenTraffic` | agent/src/main.rs:161-203 | A stream that starts with marker-free noise and a marker yields exactly the traffic behind it |
| `Frames.Reader.ResyncToMarker` | agent/src/proto.rs:131-153 | The rotating window consumes exactly through the end of the first marker; false if and only if there is none |
| `Frames.Reader.ReadTurn` | agent/src/proto.rs:87-124 | One turn of the loop, with clean end, truncated header or payload, marker and oversized length |
| `Frames.Reader.ReadFrame` | agent/src/proto.rs:87-124 | The reader returns the next frame of the remaining bytes and stands right behind it |
| `Frames.Reader.ReadToEnd` | agent/src/main.rs:161-203 | Repeated reading yields the whole frame list and how the stream ended |
| `Frames.Slide` | agent/src/proto.rs:131-153 | The window array holds the last nine bytes read |
| `Frames.Writer.WriteFrame` | agent/src/proto.rs:155-169 | An oversized payload is refused and leaves the output alone; otherwise the encoding is appended |
| `Frames.Serve` | agent/src/main.rs:161-203 | The serve loop resynchronises first and then handles exactly the frames behind the first marker |
| `InputStream.DeliverKeepsPrefix` | sdk/go/functions.go:808-843 | Whatever order, loss and repetition, frames that carry their own index only extend a prefix of the inputs |
| `InputStream.CompleteIsFinal` | sdk/go/functions.go:786-800 | Once all inputs are committed, late duplicates change nothing |
| `InputStream.TryOnce` | sdk/go/functions.go:811-843 | One send, and if the stream broke one reopening: the input is acknowledged, tried again, or the call stops, as the last answer says |
| `InputStream.Submit` | sdk/go/functions.go:811-843 | Retrying one input ends with it committed once and acknowledged; or fails for what was seen last, a cancelled send, a failed reopening or a frontier that the input cannot explain; or is still running because the environment has no further turn. Everything seen before left it to be tried again |
| `InputStream.CloseInputs` | sdk/go/functions.go:785-800 | Closing succeeds only at the frontier, and then with every input committed |
| `InputStream.MapOne` | sdk/go/functions.go:779-843 | One turn of the loop: after a select that was not cancelled the client sends input `count` under that index, or closes with that count when the channel is done; it ends the call for a cause, or one more input is committed |
| `InputStream.Map` | sdk/go/functions.go:742-845 | The client's operations are, one by one, the ones the protocol asks for after what it saw so far, and the call is over exactly when the protocol is; in every run the committed list is the first `count` or `count + 1` inputs; on success it is all of them with that count sent to close; it fails only for a cause it saw or an input that does not encode, and then requests cancellation; it is still running only when the environment has no further turn |
| `EventWatch.AcceptExtends` | sdk/go/functions.go:500-530 | On a stream that never skips, the next entry above the cursor is the next entry of the log |
| `EventWatch.RunNeverSkips` | sdk/go/functions.go:474-500 | A stream that sends a contiguous run of the log from at or before the cursor satisfies that assumption |
| `EventWatch.Consume` | sdk/go/functions.go:499-520 | One stream is taken in completely, or up to a new terminal status, or up to the new message whose delivery lost against the end of the context |
| `EventWatch.WatchOnce` | sdk/go/functions.go:483-546 | One attempt ends the watch for exactly the reasons the code has, or is taken in completely and followed by another |
| `EventWatch.Watch` | sdk/go/functions.go:474-552 | Across all breaks and repetitions the delivered events are the log's contiguous stretch right after the initial cursor through everything that arrived before the watch stopped; it stops at the first terminal status, at the first attempt that does not go on, or at the end of the run |
| `EventWatch.TakeNext` | src/cli.rs:3176-3182 | A message at or below the cursor changes nothing; one above it extends the delivered stretch by exactly the next log entry and moves the cursor to the highest sequence seen |
| `EventWatch.PrintStream` | src/cli.rs:2179-2203 | Each new log entry of the stream is printed once and in order, up to a new terminal status or its end |
| `EventWatch.PrintOnce` | src/cli.rs:2163-2206 | One attempt ends the command for exactly the reasons the code has, or is printed completely and followed by another |
| `EventWatch.FollowCallLogs` | src/cli.rs:2161-2207 | What is printed is the output of the log from its start through everything that arrived before the command stopped, and it finishes if and only if the last of that is the first terminal status |
| `GatewayRuns.EveryRunKeepsMaps` | sdk/go/gateway.go:240-315 | In every interleaving `conns` and `locallyClosed` stay disjoint and hold only ids the server has not closed, at most one Close is sent per opened connection, and the bytes a target got, those in hand and those queued are together exactly what the server sent it, in order, so it always got a prefix |
| `GatewayRuns.ReopenedOnlyAfterClose` | sdk/go/gateway.go:240-276 | An id is accepted again only after the server closed its previous use |
| `GatewayRuns.OwnObjectOnly` | sdk/go/gateway.go:317-382 | A goroutine of one connection never changes another connection object |
| `GatewayRuns.RelayedInOrder` | sdk/go/gateway.go:317-340 | In every run the data sent to the server for an id is exactly what the readers of its connections took from their targets, in that order |
| `GatewayRuns.LateFailureIsLocal` | sdk/go/gateway.go:369-382 | A late failure never unlinks a newer connection with the same id |
| `GatewayRuns.CleanRunsSendNoStaleClose` | sdk/go/gateway.go:369-388 | If ids are reused only when no Close is owed, opens that the gateway stops on aside, every Close names the current use |
| `GatewayRuns.ReuseIsSafeIffNoneOwed` | sdk/go/gateway.go:298-315 | Accepting a free id keeps later Close frames current in all continuations if and only if no goroutine of an earlier use still owes one |
| `GatewayRuns.CrossedCloses` | sdk/go/gateway.go:369-382 | A run in which both sides close and a late Close names the newer connection |
| `HostGatewayObject.HostGateway.Guarantees` | sdk/go/gateway.go:240-399 | After every sequence of calls, with any steps of other goroutines in between: the maps are disjoint and consistent, at most one Close per use, bytes in order, and no stale Close if ids were reused only when none was owed |
| `HostGatewayObject.HostGateway.Open` | sdk/go/gateway.go:240-276 | An id in either map fails the gateway; otherwise a successful dial always links the new connection, so the second duplicate check never fires, and a failed one leaves the id locally closed |
| `HostGatewayObject.HostGateway.CloseConnection` | sdk/go/gateway.go:298-315 | Succeeds exactly for an id in either map; afterwards the id is free and its connection closed, whatever a late failure of that connection does |
| `HostGatewayObject.HostGateway.Write` | sdk/go/gateway.go:278-296 | Data for an id without a linked connection, a locally closed one included, fails the gateway; otherwise the branch of the select that is tried is taken exactly when it is ready, and data that is queued is queued last for the connection that was linked |
| `HostGatewayObject.HostGateway.TargetFailed` | sdk/go/gateway.go:369-382 | A failure that no longer owns its id touches neither map and sends nothing; one that does closes its own connection and sends one Close for its id |
| `HostGatewayObject.HostGateway.WritePayload` | sdk/go/gateway.go:342-360 | Whatever other goroutines do, the bytes written are the first of the payload, as many as the writes take up to the first that fails or takes nothing, that one included; the payload is finished if and only if the writes before that one take all of it; and it stops unfinished without a failure only when no write is left |
| `HostGatewayObject.HostGateway.CloseConnections` | sdk/go/gateway.go:390-399 | Every connection linked when the loop stopped is closed, and both maps stay empty although goroutines still fail meanwhile |
| `MeshDriver.OrderedByRank` | sdk/go/driver.go:443-472 | The candidate order is strictly hint, preferred, roster order |
| `MeshDriver.RanksBefore` | sdk/go/driver.go:443-472 | Of two endpoints the one for the hint comes first, else the preferred one, else the one listed first |
| `MeshDriver.OrderedMembers` | sdk/go/driver.go:443-472 | Ordering neither loses nor adds an entry |
| `MeshFailover.HealthyIffAdmitted` | sdk/go/driver.go:354-364 | In a sound roster an entry is reported healthy exactly when the candidate filter would admit it at that time |
| `MeshFailover.Order` | sdk/go/driver.go:454-469 | The loops with their containment checks build exactly that order |
| `MeshFailover.Earliest` | sdk/go/driver.go:482-488 | The first of the entries whose cooldown ends earliest |
| `MeshFailover.Candidates` | sdk/go/driver.go:443-489 | Non-empty and duplicate-free: exactly the endpoints not cooling down, hint then preferred then roster order, or the single one whose cooldown ends first |
| `MeshFailover.Normalized` | sdk/go/driver.go:564-575 | The URLs that normalise, each once, in the order of their first occurrence |
| `MeshFailover.MergeRoster` | sdk/go/driver.go:563-611 | The roster is the seeds in their old order, then the other advertised endpoints in the order of their first advertisement; known endpoints keep their entry |
| `MeshFailover.NewDriver` | sdk/go/driver.go:169-217 | Fails exactly for no endpoint, a malformed one or a non-positive timeout; otherwise distinct healthy seeds in the order of their first occurrence, the first preferred |
| `MeshFailover.Driver.MarkFailed` | sdk/go/driver.go:538-548 | The endpoint cools down for five seconds and the roster stays sound |
| `MeshFailover.Driver.MarkSuccess` | sdk/go/driver.go:550-561 | The endpoint is healthy with no cooldown and preferred, if the roster still holds it |
| `MeshFailover.Driver.MergeDiscovered` | sdk/go/driver.go:563-620 | Seeds in their old order, then the others as advertised; all seeds, the preferred endpoint if still listed and retained cooldowns survive; transports of forgotten endpoints go |
| `MeshFailover.Driver.Endpoints` | sdk/go/driver.go:354-364 | One entry per endpoint, healthy exactly when not cooling down |
| `MeshFailover.Driver.Dial` | sdk/go/driver.go:500-513 | A transport exists afterwards, made on first use |
| `MeshFailover.Driver.Interfere` | sdk/go/driver.go:500-620 | Whatever lock sections other goroutines run, what the driver then holds about every endpoint is the fold of those sections |
| `MeshRecord.MarkedClear` | sdk/go/driver.go:538-561 | Marking one endpoint leaves every other as it was, and clears this one exactly when it is listed and the mark is a success |
| `MeshRecord.MergedClear` | sdk/go/driver.go:563-620 | After a merge an endpoint is clear exactly when it is listed and was clear or is new |
| `MeshRecord.ListedByLastMerge` | sdk/go/driver.go:563-620 | Over any sections, the last merge alone says which endpoints are listed |
| `MeshRecord.AnsweredIsPromotedIff` | sdk/go/driver.go:550-620 | With only merges after its answer, an endpoint is preferred with no cooldown in the end if and only if it was listed when it answered and every one of them kept it |
| `MeshRecord.PromotedInTheEnd` | sdk/go/driver.go:538-620 | Over any sections, an endpoint is preferred with no cooldown in the end if and only if its last mark is no failure, and the endpoint to which the preference last moved is this one and every merge since kept it, or this one is the first seed and some merge since dropped that one |
| `MeshFailover.Driver.Attempt` | sdk/go/driver.go:231-250 | For every endpoint, the driver afterwards is the fold of the attempt's own sections (transport, then failure or success) and those of the others in between |
| `MeshFailover.Driver.TryEach` | sdk/go/driver.go:231-255 | Only a transport failure leads to the next candidate; the driver afterwards is the fold of all sections during the attempts |
| `MeshFailover.Driver.RefreshAfterRequest` | sdk/go/driver.go:434-440 | The request's own refresh may end in a merge; the driver afterwards is the fold of it and of the others' sections around it |
| `MeshFailover.Driver.Do` | sdk/go/driver.go:223-256 | Attempts are a prefix of the selection, nothing is sent after an answer, giving up means every candidate failed at transport level; the driver afterwards is, for every endpoint, the fold of all sections of the request and of the others, its own refresh included, and which endpoint is preferred with no cooldown is given in closed form as in `PromotedInTheEnd`. When only merges follow the answer, the endpoint that answered is, if and only if it was listed when it answered and every later merge, the request's own included, kept it |
| `MeshFailover.AnsweredButDropped` | sdk/go/driver.go:550-561 | A request answered by an endpoint that a merge dropped meanwhile, which is then neither listed nor preferred |
| `MeshFailover.OwnRefreshDrops` | sdk/go/driver.go:245-250 | A request whose own refresh drops the endpoint that answered it, which is then neither listed nor preferred |
| `MeshClient.GrpcCandidates` | sdk/go/client.go:362-382 | Each candidate once, hint first, then healthy endpoints, then the rest, in roster order |
| `MeshClient.StandsBefore` | sdk/go/client.go:362-382 | Of two endpoints other than the hint a healthy one comes before one that is not, else the one listed first, and the hint before both |
| `MeshClient.Unary` | sdk/go/client.go:505-540 | Attempts are a prefix of those candidates, and only a transport failure leads on |
| `Watchdog.EveryRunIsSafe` | vmm/src/control.rs:366-387 | In every timed run the callback runs at most once, for the thread that decided, never before the deadline installed last, never decided after a shutdown or decision took the lock, and no rearm is accepted afterwards |
| `Watchdog.RearmAfterHaltFails` | vmm/src/control.rs:402-406 | Once expiry is decided or a shutdown has the lock, every rearm is refused and changes nothing |
| `Watchdog.PastDeadlineExpires` | vmm/src/control.rs:370-382 | A running watchdog past its deadline expires at the next wake-up of any timer |
| `Watchdog.JoinedNeverCalls` | vmm/src/control.rs:413-421 | After a shutdown has joined a timer thread, that thread never calls back |
| `Watchdog.RearmHoldsIffNoneOlder` | vmm/src/control.rs:390-411 | After any run, whatever happens next, the deadline in force is overtaken only by rearms asked for later, if and only if no rearm with an earlier deadline is between clock and lock |
| `Watchdog.CrossedRearms` | vmm/src/control.rs:396-407 | A run in which an accepted deadline is replaced by one computed earlier and the watchdog expires before it |
| `Watchdog.RunServes` | vmm/src/control.rs:366-421 | The state of every run is what its locked sections make of it, in order |
| `Watchdog.RearmIsARun` | vmm/src/control.rs:390-411 | Reading the clock and committing, with any run of the other threads in between, is `OwnerWatchdog.Rearm` with their locked sections |
| `Watchdog.TimerIsARun` | vmm/src/control.rs:366-387 | A timer thread in a run, with any steps of the other threads during its sleeps, is `OwnerWatchdog.Timer` with their locked sections as its wakes: the state and time at each check are the same, and so the verdict |
| `Watchdog.OwnerWatchdog.Rearm` | vmm/src/control.rs:390-411 | Accepted if and only if in range, representable and not stopped when it commits |
| `Watchdog.OwnerWatchdog.Timer` | vmm/src/control.rs:366-387 | Calls back at the first wake-up that finds it running past its deadline and only there; leaves at the first that finds it stopped |
| `RequestLine.LineReader.Gather` | vmm/src/control.rs:1228-1255 | What one buffer adds to a line: more of it, its newline, the end, an error or too much, as the newlines of the whole stream say |
| `RequestLine.LineReader.ReadRequestLine` | vmm/src/control.rs:1223-1264 | However the stream is buffered, the verdict is that of splitting it at newlines, too long if and only if the line without newline exceeds 65536 bytes, and the reader stands just past the newline unless the verdict closes |
| `RequestLine.JudgeTerminated` | vmm/src/control.rs:1238-1262 | A line with its newline is judged by its own bytes, whatever stands around it: too long beyond 65536 bytes, else as it decodes |
| `RequestLine.JudgeUnterminated` | vmm/src/control.rs:1228-1237 | A last line without a newline is a line all the same; nothing at all is the end, and a broken stream is an error |
| `RequestLine.LineReader.ReadSession` | vmm/src/control.rs:1140-1153 | A connection yields the verdicts of its lines, in order, up to the one that closes it |
| `RequestLine.ReadBoth` | vmm/src/control.rs:1223-1264 | Two streams with the same bytes are read alike, however they are cut |
| `RequestLine.SentIsReceived` | vmm/src/control.rs:1223-1264 | Requests up to the limit, sent one per line, arrive one by one and in order, undecodable ones included |
| `OpenLoopRuns.ToldIsFiredIffNoSurplus` | src/bench.rs:1093-1229 | At the end of every wave ready completions plus failures equal the requests fired if and only if no batch lane got more responses than requests |
| `OpenLoopRuns.CompletedIsOfferedIffClean` | src/bench.rs:157-221 | At the end of every wave `completed` equals `offered` if and only if there is no such surplus and no task of a unary lane panicked, and then nothing is pending |
| `OpenLoopRuns.PendingNeverWraps` | src/bench.rs:217-220 | In every run the shared pending gauge is positive just before each step that lowers it |
| `OpenLoopRuns.DoneLane` | src/bench.rs:1205-1228 | A finished lane told each request once and each surplus response twice |
| `OpenLoopRuns.LaneKeeps` | src/bench.rs:920-1048 | Every step of a lane keeps gauges and tally in balance with its tasks |
| `OpenLoopSchedule.Partition` | src/bench.rs:795-798 | An index belongs to the lane it is congruent to and to no other |
| `OpenLoopSchedule.LaneIndices` | src/bench.rs:795-798 | Stepping by the number of lanes visits exactly the lane's share, in order |
| `OpenLoopSchedule.EachIndexHasOneLane` | src/bench.rs:920-941 | In every run no index is fired by two lanes or twice; a finished unary wave misses none |
| `OpenLoopSchedule.UnaryWaveFiresThePlan` | src/bench.rs:845-941 | A finished unary wave offered the whole plan, or nothing when there is no channel |
| `OpenLoopObjects.LaneTally.AbsorbOne` | src/bench.rs:258-271 | An outcome with either a completion or an error is told exactly once |
| `OpenLoopObjects.LaneTally.Merge` | src/bench.rs:273-288 | Merging loses nothing and counts nothing twice |
| `OpenLoopCredits.AccountIsEarned` | src/bench.rs:258-288 | In every run, what a lane has told and what its tasks are about to tell is, kind by kind, exactly what its steps earned |
| `OpenLoopCredits.TallyIsEarned` | src/bench.rs:258-288 | The tally of a finished lane holds, for admissions, completions, sandbox ids and every failure code, exactly what its steps earned |
| `OpenLoopCredits.CompletionsAreReady` | src/bench.rs:845-915 | The completions of a finished wave are its requests that became ready |
| `OpenLoopObjects.SettleLane` | src/bench.rs:1205-1216 | Unanswered requests complete and fail with the stream's code, surplus responses fail as invalid |
| `OpenLoopObjects.Report` | src/bench.rs:883-914 | Completions, admissions and sandbox ids are each the sum over the lanes, busy is the number of busy failures over the lanes, the failures are all others code by code, and together they hold everything the lanes told |
| `OpenLoopObjects.ReportFinished` | src/bench.rs:845-915 | The report of a finished wave adds up to what it fired if and only if no lane had a surplus, and its completions are the requests that became ready |
| `OpenLoopExamples.SurplusToldTwice` | src/bench.rs:1205-1216 | A finished wave that offered nothing, completed one request and told two |
| `OpenLoopExamples.PanicStaysPending` | src/bench.rs:932-939 | A finished unary wave whose only request was told, never completed and stays pending |
| `CanonicalQuery.DecodeEncode` | cloud/src/aws.rs:362-373 | Percent-decoding undoes the encoding of every byte string |
| `CanonicalQuery.EncodeIsInjective` | cloud/src/aws.rs:362-373 | Distinct components have distinct encodings |
| `CanonicalQuery.EncodeComponent` | cloud/src/aws.rs:362-373 | The loop encodes every byte in order |
| `CanonicalQuery.EncodedShown` | cloud/src/aws.rs:362-373 | Letters, digits and four marks stand for themselves; every other byte is a percent sign and two upper-case hexadecimal digits |
| `CanonicalQuery.LeqIsNotAfter` | cloud/src/aws.rs:392 | The order is byte-wise: a beginning comes first, else the smaller byte at the first difference |
| `CanonicalQuery.JoinParsed` | cloud/src/aws.rs:393-397 | Split at ampersands and equals signs, the joined string gives the pairs back, key before value |
| `CanonicalQuery.SortedIsUnique` | cloud/src/aws.rs:392 | The same pairs can be sorted in one way only |
| `CanonicalQuery.JoinIsInjective` | cloud/src/aws.rs:393-397 | The joined string determines the encoded pairs and their order |
| `CanonicalQuery.EncodedPermutes` | cloud/src/aws.rs:388-391 | Encoded lists are permutations of each other exactly when the pair lists are |
| `CanonicalQuery.Canonical` | cloud/src/aws.rs:388-398 | Read back as a query, the string holds exactly the encoded pairs, ascending by key and then by value |
| `CanonicalQuery.SameStringIffPermutation` | cloud/src/aws.rs:388-398 | Two queries have the same canonical string if and only if they hold the same multiset of pairs |
| `Base64.OctetsOfSextets` | agent/src/main.rs:1949-1973 | The digits of a byte string hold exactly that byte string |
| `Base64.Shifted` | agent/src/main.rs:1966 | The 32-bit shift keeps the last two digits whatever it discards on top |
| `Base64.DecodeBase64` | agent/src/main.rs:1949-1973 | The bytes of the digits before the padding in either alphabet, blanks skipped, or the first foreign byte as the error |
| `Base64.RefusesForeign` | agent/src/main.rs:1949-1973 | The first byte outside both alphabets and no blank, standing before the padding, is the error |
| `Base64.KnownGroups` | agent/src/main.rs:1949-1973 | The digits of a known group, the bytes they hold, and the values of the characters in which the alphabets differ |
| `Base64.RoundTrip` | agent/src/main.rs:1949-1973 | However its digits are written, padded or not, mixed alphabets, blanks anywhere, every byte string decodes to itself |
| `Chunked.DecodeChunked` | src/transport.rs:585-605 | The loop computes the decoding of every body, terminates and never produces more than it read |
| `Chunked.DecodesIffChunks` | src/transport.rs:585-605 | A body decodes if and only if it is a list of chunks with a final size line and any trailer, and then to their concatenation |
| `Chunked.RoundTrip` | src/transport.rs:585-605 | Any non-empty chunks with any extensions free of CRLF, sizes in either case and any trailer decode to their concatenation |
| `Chunked.SpacedSize` | src/transport.rs:591-594 | White space of any kind around the size changes nothing |
| `Chunked.WhiteIsSeen` | src/transport.rs:592 | Every Unicode white-space character is recognised in UTF-8 |
| `Chunked.GapIsNotChecked` | src/transport.rs:599-603 | A chunk followed by any two bytes decodes all the same |

## Left out

- Orphan reaping, process spawning, pty ioctls, window sizes, `pty_exec`, mounts and netlink in the agent.
- The server side of calls, mesh, leases and scheduling; it is an environment with the assumptions stated in `InputStream` and `EventWatch`.
- Lazy results and completions of a batch call: their completeness depends on what the unseen server means by its end marker.
- GatewayRuns.RelayedInOrder: data is ordered per id, not per connection, because a reader may still be sending for an old connection with that id.
- PtyAgent.Agent.PtyList: which exited sessions the one-minute rule removes is a parameter, not a clock.
- HostGatewayObject.HostGateway.Guarantees: a connection's reading loop is a step of the environment, not a method of the class.
- Watchdog.PastDeadlineExpires: that a sleeping timer wakes up is the scheduler's business; only what it does on waking is stated.
- RequestLine.LineReader.ReadRequestLine: decoding and trimming a line as text is a parameter; what remains unread after a line that is too long is not stated, since the connection closes.
- OpenLoopRuns.ToldIsFiredIffNoSurplus: the feeder task of a batch lane is assumed not to panic; times, rates and percentiles are not modelled.
- The peak gauges of the benchmark: between the separate atomic operations of one update they may lag behind what they are peaks of, and nothing is claimed about them.
- Chunked.DecodeChunked: a chunk size so large that adding two overflows the word is the separate outcome `Overflow`; what the program does then depends on how it was built.
- MeshFailover.NewDriver: endpoint normalisation and options are parameters; WebSocket set-up and closing the driver are not modelled.
- MeshFailover.Driver.RefreshAfterRequest: when a refresh is due and what it is told are parameters, none standing for no merge; the request it makes is a part of what happens before its merge.
- Pause and resume of virtual CPUs, snapshots, layouts and flag validation in the VMM.
- Command-line parsing, UI, HTTP, gRPC, JSON, compression and hashing libraries.
