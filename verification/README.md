# stunnel-ios: the session protocol, verified

A model, with proofs, of the shared-state core of stunnel-ios: the engine that one mutex guards,
the packet entry point that creates sessions, the TCP and UDP bridges through which session
tasks read, write, park and end, the cached QUIC connection, and the Swift provider that creates,
feeds and stops the core. `dafny verify dfyconfig.toml` checks all of it.

## How it is built

| file | what it holds |
|---|---|
| `Net.dfy`, `Routing.dfy` | addresses, endpoint conversions, packets; the split-tunnel predicate |
| `Sockets.dfy` | one socket: what the stack may do to it, what each poll function does, what the answers mean |
| `EngineModel.dfy` | the engine as a value: one function for each critical section under the mutex |
| `Engine.dfy` | the objects of the Rust source (device, engine, streams); each method is proved to do what `EngineModel` says |
| `Sessions.dfy` | the protocol: packets, session calls and lifecycle calls in any order, and its inductive invariant |
| `Lib.dfy` | the core context as an object with its engine and its tasks; each method is proved to be one step of `Sessions` |
| `SessionTheorems.dfy`, `StreamTheorems.dfy` | what holds of every run |
| `Witnesses.dfy` | concrete runs, for the properties the code does not have |
| `Forward.dfy`, `Idle.dfy` | the UDP forwarding loops over their reused buffer, and the idle timer |
| `Connection.dfy` | the connection cache: one call, and any number of interleaved calls |
| `Provider.dfy`, `Tunnel.dfy` | the Swift side: runs of start, batches, session work and stop; and its objects, down to the core contexts |
| `Locks.dfy` | the lock sections of the core and deadlock freedom |

The user-mode stack is a library. It appears as a list of events given to each poll (payload
delivered, bytes acknowledged, a state move of section 3.3.2 of RFC 9293, a datagram in or out, a
frame transmitted), in any number and order; an event a socket cannot take has no effect. Assumed of
it are these things: a poll takes every packet the device holds; a new socket gets a handle that is
not live, which may be one that was used before; without a local call a connection changes state
only along `StackMove` (so CLOSED is left by no move of the stack); and payload enters a receive
buffer only in the states of `MayDeliver`, and only as far as there is room. Time, the network, the tunnel
library and the system's calls are parameters. `Fault` in `Sessions.dfy` stands for a panic. That no socket
lookup ever panics is proved, not assumed: nothing in an action presupposes that a handle is live.
What an action does presuppose is what the types and the code of its caller give: a task calls only
the stream it owns, and the direct UDP handler sends only to the target it connected to.

Every action of `Sessions` is one section under the engine mutex, which each entry point takes once
and holds to its end. A run is a list of such actions; "for every run" below quantifies over all
interleavings of any number of sessions.

## What does not hold, and exactly when it does

- A reader is told end of file when the peer has finished, except in TIME-WAIT, where it parks
  (`EmptyAnswerIff`, run `TimeWaitHidesEof`); and an answered end of file stays the answer
  exactly when the state was not CLOSING (`EofStableIff`, run `EndOfFileIsTakenBack`).
- A write is refused only when the connection cannot send, except in CLOSE-WAIT with a full send
  buffer (`RefusedOnlyWhenUnsendableIff`, run `FullCloseWaitRefusesWrites`).
- A session stays parked only while it cannot proceed, except that its own shutdown before the
  handshake leaves a parked reader, and a parked writer, with a call that could answer, until the
  next packet wakes it (`ShutdownStrandsIff`, runs `StrandedReaderIsReachable` and
  `StrandedWriterIsReachable`).
- Replies of the direct UDP handler go to the target it connected to. They are addressed to the
  client exactly when target and client are the same address (`DirectRepliesReachTheClientIff`, run
  `DirectReplyMissesTheClient`).
- A second datagram destination of one source does not get its own socket: the source's socket is
  bound to a datagram's destination exactly when the datagram that opened the session had the same
  one (`UdpBoundHereIff`, run `SecondDestinationIsNotBound`).
- Successful connects exceed one plus the broken handles found exactly when the keep-alives lost on
  an empty cache exceed what is still to their credit: the broken handles not yet replaced, and one
  for a cache that is empty (`ConnectsAreBounded`, run `LostKeepAlivesBreakTheBound`).
- A callback carries a retained bridge as long as no tunnel start happens while a runtime is
  installed; otherwise the bridge in use is released at once (`ReleasesAreOrderedIffDisciplined`,
  `StartIsSafeIffNothingInstalled`, run `RestartReleasesTheBridgeInUse`). A run that ends stopped
  leaves no core exactly when no start succeeded over an installed runtime (`StoppedMeansClean`).
- A packet to port 0 that would create a session aborts the process (`FaultsIffBindsPortZero`, run
  `SynToPortZeroAborts`).

## Model

| member | source | states |
|---|---|---|
| Net.ConversionsRoundTrip | stunnel-core/src/udp.rs:85-105 | endpoint to socket address and back is the identity; the other direction is the identity exactly when IPv6 flow information and scope id are zero |
| Net.FilterComparesTrueSources | stunnel-core/src/udp.rs:122 | the uplink's address comparison accepts a datagram exactly when its true sender is the session's source |
| Routing.PrivateIffInOneBlock | stunnel-core/src/utils.rs:3-26 | for every 32-bit address the octet tests hold exactly on five CIDR blocks (RFC 1918 section 3, RFC 3927 section 2.1, RFC 1122 section 3.2.1.3), which are pairwise disjoint |
| Sockets.ReadIsAPrefixMove | stunnel-core/src/tcp.rs:35-65 | a read moves a prefix of the undelivered bytes that fits the caller's room, at least one when possible, changes nothing else, parks exactly when nothing can be answered, and never takes its error arm |
| Sockets.ReadTakesTheFrontRun | stunnel-core/src/tcp.rs:43-48 | a read hands over the whole front run of the ring, or as much of it as the caller has room for |
| Sockets.WriteTakesWhatFits | stunnel-core/src/tcp.rs:69-96 | a write appends the longest prefix that fits and reports its length; any other answer leaves the socket unchanged; the error arm is dead |
| Sockets.EmptyAnswerIff | stunnel-core/src/tcp.rs:43-63 | an empty answer is given exactly when nothing is undelivered, the peer has finished and the state is not TIME-WAIT, or when bytes wait and the caller has no room |
| Sockets.BrokenPipeIff | stunnel-core/src/tcp.rs:82-88 | a write is refused exactly in CLOSED, CLOSING and LAST-ACK, or in CLOSE-WAIT with a full send buffer |
| Sockets.RefusedOnlyWhenUnsendableIff | stunnel-core/src/tcp.rs:76-88 | refusal implies that the connection cannot send, for every buffer, if and only if the socket is not in CLOSE-WAIT with a full send buffer |
| Sockets.WriteParksIff | stunnel-core/src/tcp.rs:82-92 | a write parks exactly before the handshake ends, after the session's own shutdown, or when an established send buffer is full |
| Sockets.EofSurvivesUnlessClosing | stunnel-core/src/tcp.rs:54-57 | from any end-of-file state but CLOSING, no run of the stack takes the end of file back |
| Sockets.EofStableIff | stunnel-core/src/tcp.rs:54-57 | end of file survives every later run of the stack if and only if the state was not CLOSING |
| Sockets.ShutdownMakesReadyIff | stunnel-core/src/tcp.rs:102-107 | a shutdown turns an unready read or write into a ready one exactly in LISTEN and SYN-SENT, and keeps the stream intact |
| Sockets.ShutdownEndsSending | stunnel-core/src/tcp.rs:102-107 | after a shutdown nothing can be sent, buffers and receiving are untouched, only a connection before its handshake is closed at once, a peer that has finished is answered by LAST-ACK, and a second shutdown changes nothing |
| Sockets.RecvTakesTheOldest | stunnel-core/src/udp.rs:42-62 | a receive takes exactly the oldest datagram, hands over its longest prefix that fits with its true sender, and parks exactly when there is none |
| Sockets.SendQueuesWhole | stunnel-core/src/udp.rs:64-82 | a send fails exactly on an unaddressable target, parks exactly when the queue is full otherwise, and else queues the whole datagram once at the end; only an accepted send changes the socket |
| EngineModel.DrainIngests | stunnel-core/src/engine.rs:44-50 | the ingress loop hands over the whole queue in order, each packet with the tables of that moment, whatever the stack does in between |
| EngineModel.PollIngests | stunnel-core/src/engine.rs:135-144 | a poll empties the queue and the waker map, keeps every socket's handle, kind, binding and session-side history, and calls back only with the registered context |
| EngineModel.RunEventsOnlyStack | stunnel-core/src/engine.rs:83-97 | any run of the stack touches only sockets and the callback log, and each invocation carries the registered context |
| EngineModel.RunEventsAct | stunnel-core/src/engine.rs:83-97 | for any run of the stack each transmitted frame is called back exactly once, whole and in order, with the registered context, and each socket takes exactly its own events in order |
| EngineModel.PollActs | stunnel-core/src/engine.rs:135-144 | one poll does so for the reactions to all queued packets and then the egress; no frame and no event is lost, repeated or changed |
| Engine.CopyInto | stunnel-core/src/udp.rs:52-53 | copies the data to its place in the buffer and leaves every other byte as it was |
| Engine.TunDevice.Receive | stunnel-core/src/engine.rs:44-50 | pops the oldest packet, or nothing exactly when the queue is empty |
| Engine.TunDevice.Consume | stunnel-core/src/engine.rs:83-97 | one callback invocation with the stored context when a callback is registered, none otherwise |
| Engine.StunnelEngine.constructor | stunnel-core/src/engine.rs:110-133 | a new engine has empty queue, sockets, wakers and index and no callback |
| Engine.StunnelEngine.RunStack | stunnel-core/src/engine.rs:137-138 | applies a list of stack events, in order, to the engine in place |
| Engine.StunnelEngine.InterfacePoll | stunnel-core/src/engine.rs:137-138 | ingress until the device is empty, then egress, as specified for the value |
| Engine.StunnelEngine.Poll | stunnel-core/src/engine.rs:135-144 | the new state is the polled one and the woken tasks are exactly the stored wakers |
| Engine.StunnelEngine.RegisterWaker | stunnel-core/src/engine.rs:146-148 | stores the waker under the handle, replacing an earlier one, and changes nothing else |
| Engine.StunnelEngine.PushInboundPacket | stunnel-core/src/engine.rs:150-157 | appends exactly when fewer than 1024 packets are queued, otherwise changes nothing; the cap is never exceeded |
| Engine.TcpStream.PollRead | stunnel-core/src/tcp.rs:35-65 | engine state and answer are those of the specified read; the buffer keeps its filled part, gains exactly the bytes read, and is unchanged otherwise |
| Engine.TcpStream.PollWrite | stunnel-core/src/tcp.rs:69-96 | engine state and answer are those of the specified write |
| Engine.TcpStream.Shutdown | stunnel-core/src/tcp.rs:102-107 | closes the sending half of the stream's own socket |
| Engine.TcpStream.Drop | stunnel-core/src/tcp.rs:20-26 | removes the stream's own socket and nothing else |
| Engine.UdpSocket.PollRecvFrom | stunnel-core/src/udp.rs:42-62 | engine state and answer are those of the specified receive; only the received bytes of the buffer change |
| Engine.UdpSocket.PollSendTo | stunnel-core/src/udp.rs:64-82 | engine state and answer are those of the specified send |
| Engine.UdpSocket.Drop | stunnel-core/src/udp.rs:28-35 | removes the own socket and exactly the index entries that name it |
| Lib.CoreContext.constructor | stunnel-core/src/lib.rs:39-49 | a new core is the initial state of the protocol: empty engine, no task, not started |
| Lib.CoreContext.SetPacketCallback | stunnel-core/src/lib.rs:111-126 | unless the process is gone, callback and context are stored in the device; the protocol step that changes nothing else |
| Lib.CoreContext.ClearPacketCallback | stunnel-core/src/lib.rs:128-139 | unless the process is gone, the device has no callback and context 0; the protocol step that changes nothing else |
| Lib.CoreContext.Start | stunnel-core/src/lib.rs:93-109 | answers true exactly when a callback is registered, also on a core started before; a refused start changes nothing |
| Lib.CoreContext.ProcessPacket | stunnel-core/src/lib.rs:141-184 | is the packet step of the protocol: nothing before the start; afterwards the session and its task, then the queue, then the poll and its wakeups |
| Lib.CoreContext.Read | stunnel-core/src/tcp.rs:35-65 | a task reads through its own stream: the read step of the protocol, with the answer and the buffer contents |
| Lib.CoreContext.Write | stunnel-core/src/tcp.rs:69-96 | a task writes through its own stream: the write step of the protocol and its answer |
| Lib.CoreContext.Recv | stunnel-core/src/udp.rs:42-62 | a task receives through its own socket: the receive step of the protocol, with the answer and the buffer contents |
| Lib.CoreContext.Send | stunnel-core/src/udp.rs:64-82 | a task sends through its own socket: the send step of the protocol and its answer |
| Lib.CoreContext.Finish | stunnel-core/src/udp.rs:28-35 | a task ends and drops what it owns: the finish step of the protocol |
| Lib.CoreContext.Perform | stunnel-core/src/lib.rs:228-239 | any action of any caller is the same step of the protocol on the object, which stays valid |
| Lib.StreamsOwnTheSockets | stunnel-core/src/lib.rs:224-239 | in every valid core object the streams of the live tasks and the sockets of the engine correspond one to one, kinds and bindings agreeing |
| Lib.CoreContext.HandleTcpPacket | stunnel-core/src/lib.rs:197-240 | the TCP admission of the protocol: new listening socket and a task that owns its stream, nothing, or the abort of the unwrapped listen |
| Lib.CoreContext.HandleUdpPacket | stunnel-core/src/lib.rs:242-291 | the UDP admission of the protocol: new bound socket, index entry and a task that owns the socket, nothing, or the abort of the unwrapped bind |
| Sessions.CallKeepsSound | stunnel-core/src/tcp.rs:42-60 | replacing one owned socket and storing the caller's waker keeps ownership, index, wakers, streams and counts of all sessions |
| Sessions.AdmittedPacketHasItsSession | stunnel-core/src/lib.rs:157-176 | when admission ends, the packet's own session is in the tables |
| Sessions.FinishKeepsInv | stunnel-core/src/udp.rs:28-35 | dropping any live session keeps the invariant, although its waker stays behind, and cannot panic |
| Sessions.ProcessKeepsInv | stunnel-core/src/lib.rs:141-184 | a packet call keeps the invariant, is never dropped, and leaves no session parked |
| Sessions.NextKeepsInv | stunnel-core/src/engine.rs:101-107 | every action keeps the invariant |
| Sessions.RunKeepsInv | stunnel-core/src/engine.rs:101-107 | every run keeps the invariant, from any state that satisfies it |
| SessionTheorems.SocketsAreOwnedOneToOne | stunnel-core/src/tcp.rs:20-45 | in every run live sockets and live sessions correspond one to one with matching kind and binding, so no socket lookup or removal ever meets an absent or wrong-kind slot |
| SessionTheorems.IndexAgreesWithSockets | stunnel-core/src/udp.rs:28-35 | in every run the UDP index is injective, its values are exactly the live UDP sockets, each session is found under its source, and no source has two sessions |
| SessionTheorems.NoWakeupIsLost | stunnel-core/src/engine.rs:146-148 | in every run a parked session's own waker is stored under its handle, despite left-over wakers, reused handles and one slot for both directions |
| SessionTheorems.EveryPollWakesAllParked | stunnel-core/src/engine.rs:135-144 | a packet call wakes every parked session, leaves none parked, and empties the waker map and the queue |
| SessionTheorems.ParkedMeansNotReady | stunnel-core/src/tcp.rs:54-60 | in every run a parked reader, writer or receiver that has not shut itself down would only park again |
| SessionTheorems.ShutdownStrandsIff | stunnel-core/src/tcp.rs:102-107 | in every run, for a session that has not already shut itself down before its handshake, a shutdown leaves it parked on a read, or on a write, that could answer if and only if the handshake has not begun |
| Witnesses.StrandedReaderIsReachable | stunnel-core/src/tcp.rs:102-107 | a run from a new core, with a SYN that is repeated, that ends with such a reader |
| Witnesses.StrandedWriterIsReachable | stunnel-core/src/tcp.rs:102-107 | a run from a new core, with a SYN that is repeated, that ends with such a writer |
| Witnesses.TimeWaitHidesEof | stunnel-core/src/tcp.rs:54-60 | a run that ends in TIME-WAIT with nothing undelivered, where the next read parks although the peer has finished |
| Witnesses.FullCloseWaitRefusesWrites | stunnel-core/src/tcp.rs:82-88 | a run that fills the send buffer and reaches CLOSE-WAIT, where the next write is refused although the connection may send |
| Witnesses.EndOfFileIsTakenBack | stunnel-core/src/tcp.rs:54-60 | a run in which a read that answers end of file in CLOSING parks one packet later in TIME-WAIT |
| SessionTheorems.EveryOfferedPacketIsIngestedOnce | stunnel-core/src/lib.rs:178-183 | over every run the stack takes exactly the offered packets, once each and in order; accepted equals taken, and the queue is empty between calls |
| SessionTheorems.QueueNeverFull | stunnel-core/src/lib.rs:178-181 | the queue-full branch cannot be reached through the packet call |
| SessionTheorems.SessionExistsBeforeIngest | stunnel-core/src/lib.rs:155-183 | whenever the stack takes a SYN without ACK a socket listening on its exact destination exists, and whenever it takes a UDP datagram its source has a live UDP socket |
| SessionTheorems.EverySessionHasItsPacket | stunnel-core/src/lib.rs:155-176 | every live session of a run was opened by a packet offered in that run, and has that packet's destination and, for UDP, its source |
| SessionTheorems.UdpBoundHereIff | stunnel-core/src/lib.rs:256-273 | after a datagram's admission its source's socket is bound to its destination exactly when the datagram of the run that opened the source's live session, if there was one, had that destination address and port |
| Witnesses.SecondDestinationIsNotBound | stunnel-core/src/lib.rs:256-258 | a run in which a second datagram of a source finds its source bound to another destination and changes nothing |
| SessionTheorems.FaultsIffBindsPortZero | stunnel-core/src/lib.rs:221 | in every run an action faults if and only if a started core is given a SYN, or a datagram of a source without session, for port 0 |
| Witnesses.SynToPortZeroAborts | stunnel-core/src/lib.rs:221 | a run that ends in the abort |
| SessionTheorems.NothingBeforeStart | stunnel-core/src/lib.rs:147-150 | in every run without a successful start nothing is queued, taken, opened, parked, indexed, spawned or called back |
| SessionTheorems.StartedWithCallback | stunnel-core/src/lib.rs:100-107 | a started core was started at a moment when a callback was registered |
| SessionTheorems.EmissionsCarryTheContext | stunnel-core/src/engine.rs:89-95 | between registration calls every callback invocation carries the registered context, and with none registered there is none |
| SessionTheorems.RegistrationsTakeEffect | stunnel-core/src/lib.rs:93-139 | after a set and any run without another registration its context is called back; after a clear and any such run there is no callback and nothing was called back; a start succeeds exactly with a callback; none of the three changes anything else |
| SessionTheorems.EveryFrameIsCalledBackOnce | stunnel-core/src/engine.rs:83-97 | over any run the callback invocations are exactly the frames transmitted, once each, unchanged and in order, with the context registered at the time |
| SessionTheorems.CallsTouchOnlyTheirOwn | stunnel-core/src/tcp.rs:35-107 | in every run a session's call changes its own socket and record only; its waker is stored under its handle, and it counts as parked in that direction, exactly when the answer is pending |
| SessionTheorems.FinishTouchesOnlyItsOwn | stunnel-core/src/udp.rs:28-35 | in every run the end of a session removes its socket and, for UDP, exactly the index entry of its source; wakers and all else stay |
| SessionTheorems.SocketsBalance | stunnel-core/src/tcp.rs:20-26 | in every run sessions spawned minus sessions dropped is the number of live sockets; sockets, index and sessions are gone together, exactly when all have been dropped |
| SessionTheorems.TeardownDrains | stunnel-core/src/udp.rs:28-35 | over any run, packets and polls included, the sessions left are those there were plus those opened minus the drops, and the tables are empty exactly when the drops took them all |
| SessionTheorems.AnyFinishOrderRuns | stunnel-core/src/lib.rs:186-195 | live sessions can be dropped in any order; none of the drops can fail |
| SessionTheorems.FlowIsForLife | stunnel-core/src/lib.rs:228-239 | over every run a session keeps its socket, source, destination and handler until it ends, and no ended session returns |
| SessionTheorems.DirectIffPrivateBlock | stunnel-core/src/lib.rs:279-284 | a live session runs the direct handler exactly when the destination of the packet of the run that opened it lies in one of the five private blocks |
| SessionTheorems.PacketCreatesItsSession | stunnel-core/src/lib.rs:155-176 | a packet call creates a session exactly for a SYN without ACK or a datagram of a source without session, with that packet's destination and source, and ends none |
| StreamTheorems.RunIsTold | stunnel-core/src/udp.rs:42-62 | over every run and interleaving a session's socket record agrees with the answers of its own calls: bytes read and written, every received datagram cut to the room given and with its true sender, datagrams sent |
| StreamTheorems.TcpBridgeIsAnOrderedStream | stunnel-core/src/tcp.rs:35-96 | over every run the bytes read are a prefix of the bytes the stack delivered, the rest being buffered; end of file is answered only when all were read; the bytes accepted for writing are exactly what entered the send buffer |
| StreamTheorems.UdpBridgeKeepsOrder | stunnel-core/src/udp.rs:42-82 | over every run the i-th answered receive returned the i-th arrived datagram, cut to the caller's room and with its true sender; the unanswered ones are still queued; each accepted send is queued once, in order |
| StreamTheorems.DirectRepliesReachTheClientIff | stunnel-core/src/udp.rs:135 | over every run all datagrams a live direct session queued are addressed to its target, so each is addressed to the client if and only if the client is the target |
| Witnesses.DirectReplyMissesTheClient | stunnel-core/src/udp.rs:135 | a run in which a direct session queues a reply that is not addressed to its client |
| Forward.ForwardedSelectsTheSource | stunnel-core/src/udp.rs:191-200 | the uplink specification is a complete, order-preserving selection of the source's datagrams, each cut to its first 2048 bytes |
| Forward.Uplink | stunnel-core/src/udp.rs:118-127 | the loop over the socket and its one reused buffer, with the stack running before each poll, goes on until a send fails: every poll takes a datagram if there is one, whoever sent it, and what is sent is exactly what the datagrams taken call for; only the source's datagrams count as activity |
| Forward.ServedTakesOnePerTurn | stunnel-core/src/udp.rs:119-121 | as many datagrams are taken as there are turns, or as were waiting at the start, whichever is less |
| Forward.FilterIsOnTheSender | stunnel-core/src/udp.rs:122 | the filter of the loop accepts a datagram exactly when its true sender is the session's source |
| Forward.Downlink | stunnel-core/src/udp.rs:130-137 | the loop over the socket and its one reused buffer queues each reply once, in order, cut to 2048 bytes and to the handler's peer, awaiting each send in turn and ending at one that cannot be addressed; the activity stamp comes before the send |
| Forward.SendAwaited | stunnel-core/src/udp.rs:208 | polls a send until it does not park, as specified: the contents of the buffer are queued once, or nothing is |
| Forward.SendsInTheFirstRoom | stunnel-core/src/udp.rs:208 | an awaited send is done in the first turn with room, parks in exactly those before it, and fails in its first turn exactly on an unaddressable target |
| Forward.RepliesWaitOnlyForRoom | stunnel-core/src/udp.rs:203-210 | no reply is skipped; the first one not queued either cannot be addressed or found no room in any turn left for it |
| Forward.PassedOnIsForwarded | stunnel-core/src/udp.rs:194-198 | filtering the answers of receives with room 2048 by sender gives exactly the specified uplink of the datagrams behind them |
| Forward.UplinkFollowsTheSocket | stunnel-core/src/udp.rs:194-198 | over every run what the uplink passes on of the answers its receives returned, followed by what the queued datagrams call for, is what all arrivals call for |
| Idle.LastStamp | stunnel-core/src/udp.rs:151 | the stamp found is the latest not after now |
| Idle.IdleTimeout | stunnel-core/src/udp.rs:148-156 | the loop ends for every finite activity trace, at the first check that finds more than 60 s without activity |
| Idle.FiresBetween60And70 | stunnel-core/src/udp.rs:148-156 | it never returns within 60 s of a stamp, and returns within 70 s of the last one plus the oversleep of its last sleep |
| Idle.UnusedSessionEndsAt70 | stunnel-core/src/udp.rs:20-21 | the bound is met: an unused session ends at the 70 s check, not at the 60 s one |
| Connection.ConnectionManager.GetS2nHandle | stunnel-core/src/connection.rs:42-87 | one call alone changes the cells and answers as specified, on every path including an abandoned await; a good handle is returned and kept whatever else holds, and the handle changes only to the connection returned |
| Connection.OutcomesHaveTheirCauses | stunnel-core/src/connection.rs:42-87 | in every weather a good cached handle is returned and nothing changes; each failure occurs exactly for its own cause, in the order of the source; the handle changes only to a connection made, kept alive and returned |
| Connection.UnhinderedCallIsOneCall | stunnel-core/src/connection.rs:42-87 | in the interleaved model a call that meets no other runs to its end and gives, in every weather, the outcome and the cells of one call alone |
| Connection.DroppedCallsLeaveNothing | stunnel-core/src/connection.rs:46-80 | a call dropped at any await leaves cells, other calls and connections as they were and gives back the lock; a broken connection stays broken |
| Connection.ConnectionManager.GetTlstcpConnector | stunnel-core/src/connection.rs:89-105 | one call alone returns the connector there is, or makes and keeps one |
| Connection.ConnectorIsMadeOnce | stunnel-core/src/connection.rs:89-105 | however many callers are interleaved or give up, at most one connector is made, every call returns it, and it is never replaced |
| Connection.UnhinderedAskIsOneCall | stunnel-core/src/connection.rs:93-104 | a call that meets no other has the effect of one call alone |
| Connection.RunKeepsManagerInv | stunnel-core/src/connection.rs:46-86 | the cache invariant holds over every interleaving of calls, cancellations and breaking connections |
| Connection.SingleFlight | stunnel-core/src/connection.rs:46-80 | at most one connect is in flight, made by the lock holder |
| Connection.CallsAreSequential | stunnel-core/src/connection.rs:42-87 | interleaved calls give the outcomes and the cache of the same calls run one after the other in the order of lock release |
| Connection.ConnectsAreBounded | stunnel-core/src/connection.rs:48-85 | over every run cached connects never exceed one plus the broken handles found; all successful connects keep that bound when none was lost on an empty cache, and exactly when those losses stay within the broken handles not yet replaced plus one for an empty cache |
| Connection.LostKeepAlivesBreakTheBound | stunnel-core/src/connection.rs:81-82 | a run of two callers in which connects exceed that bound because keep-alive failed |
| Connection.HealthyHandleIsNeverReplaced | stunnel-core/src/connection.rs:48-53 | in every run the cached handle changes only when it is broken, and only to the connection just made |
| Connection.ReturnsCheckedOrFresh | stunnel-core/src/connection.rs:48-86 | a call returns the cached handle it just found good or the connection it just cached; a failed or cancelled call leaves the cached handle alone |
| Provider.MakeRuntimeAllOrNothing | stunnel-ios/Shared/PacketTunnelRuntimeCoordinator.swift:96-117 | a runtime is made exactly when configuration, builder, creation and manager all allow it, and is then a fresh started core with the given bridge; otherwise no core is left over; each error has exactly its cause, and the core calls made are those of the result |
| Provider.StartsTakeEffect | stunnel-ios/PacketTunnel/PacketTunnelProvider.swift:33-56 | in every run a start installs a new started core with a new retained bridge, or leaves cores and handle alone and no bridge, with exactly the calls of its result |
| Provider.StopsTakeEffect | stunnel-ios/PacketTunnel/PacketTunnelProvider.swift:126-131 | in every run a stop clears and then stops the installed core, gives up handle and bridge, and changes nothing else |
| Provider.BatchRuns | stunnel-ios/PacketTunnel/PacketTunnelProvider.swift:98-104 | a batch is the run of one packet call for each of its packets, in order, on its core |
| Provider.EveryPacketReadIsIngested | stunnel-ios/PacketTunnel/PacketTunnelProvider.swift:94-108 | in every run a read on an installed, started core makes its stack take exactly the packets of the batch, once each and in order, unless one of them aborts the process; without a handle nothing happens |
| Provider.TaskStepsReachTheirCore | stunnel-core/src/lib.rs:228-239 | a step of a session task is taken by its own core and changes no other |
| Provider.CoresRunTheProtocol | stunnel-core/src/lib.rs:39-49 | every core alive in any run of the provider is at the end of a run of the session protocol, so all that holds of those runs holds of it |
| Provider.RunKeeps | stunnel-ios/PacketTunnel/PacketTunnelProvider.swift:110-131 | every run, disciplined or not, keeps the handle protocol and the retain count |
| Provider.RunLinks | stunnel-ios/PacketTunnel/PacketTunnelProvider.swift:33-56 | every disciplined run keeps exactly one started core linked to the one retained bridge, or nothing at all |
| Provider.RetainsBalance | stunnel-ios/PacketTunnel/PacketTunnelProvider.swift:110-124 | in every run retains minus releases is 0 or 1 and tells whether a bridge is installed |
| Provider.HandleProtocol | stunnel-ios/Shared/PacketTunnelRuntimeCoordinator.swift:110-126 | in every run each stop directly follows a clear of that handle, no handle is used after its stop, and the installed handle is live |
| Provider.InvocationsCarryTheRetainedBridge | stunnel-ios/PacketTunnel/PacketTunnelProvider.swift:134-141 | in a disciplined run every callback invocation of every action carries the installed, retained bridge |
| Provider.ReleasesAreOrderedIffDisciplined | stunnel-ios/PacketTunnel/PacketTunnelProvider.swift:110-131 | in a disciplined run no bridge is released while a live core would call it back; a start breaks this if and only if a runtime is installed |
| Provider.RunIsLinked | stunnel-ios/PacketTunnel/PacketTunnelProvider.swift:33-56 | a disciplined run ends with one started core that calls back the one retained bridge, or with no core and no bridge |
| Provider.CoresAreInstalledOrReplaced | stunnel-ios/PacketTunnel/PacketTunnelProvider.swift:43-56 | over every run the live cores are the installed one and exactly those that were installed when a later start succeeded; failed starts leave none |
| Provider.StoppedMeansClean | stunnel-ios/PacketTunnel/PacketTunnelProvider.swift:126-131 | any run that ends stopped leaves no retained bridge, and no live core exactly when no start succeeded over an installed runtime |
| Provider.StartIsSafeIffNothingInstalled | stunnel-ios/PacketTunnel/PacketTunnelProvider.swift:43-54 | a start leaves the installed core with a retained bridge, whatever it meets, if and only if nothing was installed |
| Witnesses.RestartReleasesTheBridgeInUse | stunnel-ios/PacketTunnel/PacketTunnelProvider.swift:43-54 | two starts in a row release a bridge in use; when the second finds no configuration, the installed core is left with a released one |
| Tunnel.StunnelCoreManager.Create | stunnel-ios/Shared/PacketTunnelRuntimeCoordinator.swift:32-34 | a created core gets a handle that names no live core and no earlier call; the other cores keep their state |
| Tunnel.StunnelCoreManager.SetPacketCallback | stunnel-ios/Shared/PacketTunnelRuntimeCoordinator.swift:36-42 | registers the context on that core only |
| Tunnel.StunnelCoreManager.Start | stunnel-ios/Shared/PacketTunnelRuntimeCoordinator.swift:44-46 | starts that core only; the answer is true exactly when the core is there, alive and has a callback |
| Tunnel.StunnelCoreManager.ClearPacketCallback | stunnel-ios/Shared/PacketTunnelRuntimeCoordinator.swift:48-50 | unregisters the callback of that core only |
| Tunnel.StunnelCoreManager.Stop | stunnel-ios/Shared/PacketTunnelRuntimeCoordinator.swift:52-54 | that core is gone, the others are untouched |
| Tunnel.PacketTunnelRuntimeCoordinator.MakeRuntimeHandle | stunnel-ios/Shared/PacketTunnelRuntimeCoordinator.swift:96-117 | drives the core through the specified calls, with the specified error on each early exit and clean-up after a failed start |
| Tunnel.PacketTunnelRuntimeCoordinator.StopRuntimeHandle | stunnel-ios/Shared/PacketTunnelRuntimeCoordinator.swift:119-126 | clears, then stops; nothing without a handle |
| Tunnel.PacketTunnelProvider.ReleasePacketBridge | stunnel-ios/PacketTunnel/PacketTunnelProvider.swift:117-124 | releases the installed bridge once; nothing when there is none |
| Tunnel.PacketTunnelProvider.InstallPacketBridge | stunnel-ios/PacketTunnel/PacketTunnelProvider.swift:110-115 | releases the old bridge and retains a new one |
| Tunnel.PacketTunnelProvider.Start | stunnel-ios/PacketTunnel/PacketTunnelProvider.swift:33-56 | the specified start; an error is reported exactly when no runtime was made |
| Tunnel.PacketTunnelProvider.StopCoreRuntime | stunnel-ios/PacketTunnel/PacketTunnelProvider.swift:126-131 | the specified stop |
| Tunnel.PacketTunnelProvider.Read | stunnel-ios/PacketTunnel/PacketTunnelProvider.swift:94-108 | a batch is given to the installed core packet by packet, in order; nothing without a handle |
| Tunnel.PacketTunnelProvider.Run | stunnel-ios/PacketTunnel/PacketTunnelProvider.swift:33-131 | any run of starts, batches, task steps and stops takes the objects through the states of the run in `Provider` |
| Tunnel.RunFromNew | stunnel-ios/PacketTunnel/PacketTunnelProvider.swift:110-131 | after any run of a new provider object retains and releases balance, every stop followed a clear, no handle is used after it, and the core objects are the installed one and the replaced ones; without a start over an installed runtime the one core object is started and its device holds the one retained bridge, or nothing is left |
| Locks.ScriptsAreOrdered | stunnel-core/src/connection.rs:46-66 | every lock section of the core nests upwards in rank and ends with nothing held |
| Locks.SectionsOfEachLock | stunnel-core/src/connection.rs:46-66 | which sections take which lock; only a cache miss takes two, the client cell inside the cache lock |
| Locks.UncontendedSectionRuns | stunnel-core/src/connection.rs:46-66 | from any reached state a section whose locks are free runs step by step through its script and ends holding nothing |
| Locks.TasksComeAndGo | stunnel-core/src/udp.rs:28-35 | tasks can be added at any time; one cancelled outside an engine section gives back all it holds and, when the engine mutex is free, ends with nothing |
| Locks.CancelIsOrdered | stunnel-core/src/udp.rs:28-35 | dropping a session at an await releases its guards before the drop locks the engine, whatever it held |
| Locks.WaitsLeadUp | stunnel-core/src/connection.rs:46-66 | a waiting call waits for a lock above all it holds, owned by another |
| Locks.NoDeadlock | stunnel-core/src/connection.rs:46-66 | for any number of tasks, in every interleaving with cancellations, some task inside a lock section can go on |
| Locks.LeafHoldersNeverWait | stunnel-core/src/udp.rs:123 | whoever holds the engine mutex or an activity lock waits for no lock |

## Left out

- The stack itself (segments, timers, ring buffers, routing), TLS, QUIC and the tunnel library: their results are parameters.
- Header parsing: a packet carries the results of the checked accessors.
- Delivery: nothing is promised about output that is queued while no further packet arrives, because only a packet call polls the stack.
- The session futures (`copy_bidirectional`, `select!`): a session may make its calls in any order and end at any time, which includes theirs. One waker stands for a task in both directions.
- `poll_flush` and `stunnel_init_logging`: they do nothing. Null handles and packets, configuration parsing and the JSON of the configuration: no hard property.
- Sockets.PollSendTo: whether the payload ring is full is the stack's own verdict; so SessionTheorems.ParkedMeansNotReady makes no claim about a parked UDP send.
- SessionTheorems.SessionExistsBeforeIngest: a listening socket exists; which of several sockets on one destination the stack chooses is not said.
- Engine.UdpSocket.PollSendTo: whether the payload ring is full is a parameter, not computed from the queued bytes; that 16 slots are the limit is definite.
- Forward.Uplink: between two polls of the loop only the stack runs; Forward.UplinkFollowsTheSocket covers every interleaving with other sessions. Whether the outer send succeeds is a parameter.
- Forward.Downlink: replies are given in order; a loop without a turn left stands for a session that ended there.
- Idle.IdleTimeout: stamps are exact reals, and reading or writing the stamp is one step, since all branches of a session share a task.
- Connection.Call: client initialisation and connect are abandoned or end; how long they take is not modelled. The client cell is filled in one step, under the cache lock.
- Provider.StartTunnel: one step, and so is each batch and each stop; the source runs a batch on another queue, and a batch that overlaps a start or stop is not modelled.
- Provider.StartTunnel: a failure to apply the network settings changes nothing further: the runtime stays installed, as in the source, so a following start is not a disciplined one.
- Provider.StopTunnel: stopping a core drops its sessions with it; SessionTheorems.TeardownDrains and SessionTheorems.AnyFinishOrderRuns say what those drops do.
- Locks.Script: the lock sections are transcribed from the source by function; that each function performs exactly its section is not derived.
- Memory safety of raw handles, contexts and `Unmanaged`: handles and contexts are numbers with a live or retained status.
- `VPNManager`, `TunnelProviderStore`, `ContentView`, `VPNConfig`, `config.rs`: user interface and serialisation.
