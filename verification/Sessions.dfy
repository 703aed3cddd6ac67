/** The session protocol: packet ingress, one task per session and the lifecycle calls, all
    acting on one engine, in any order. Each action is one critical section under the
    engine's mutex. SessionTheorems.dfy and StreamTheorems.dfy say what holds of every run. */
module Sessions {
  import opened Net
  import opened Sockets
  import opened EngineModel
  import Routing

  /** A live session task. `parkedIn`/`parkedOut`: its last poll in that direction returned
      pending and nothing has woken it since. `hungUp`: it shut its own stream down before
      the handshake had begun. */
  datatype Session = Session(flow: Flow, parkedIn: bool, parkedOut: bool, hungUp: bool)

  /** `MissingSocket` is a panic in the socket set: absent handle or wrong kind. */
  datatype Fault = NoFault | MissingSocket | BindPanic

  datatype Core = Core(
    engine: Engine,
    started: bool,
    sessions: map<TaskId, Session>,
    nextTask: TaskId,
    fault: Fault,
    spawned: nat,
    finished: nat)

  const INITIAL := Core(EMPTY_ENGINE, false, map[], 0, NoFault, 0, 0)

  datatype Action =
    | SetCallback(context: Context)
    | ClearCallback
    | Start
    | ProcessPacket(packet: Packet, slot: Handle, work: StackWork)
    | Read(task: TaskId, front: nat, room: nat)
    | Write(task: TaskId, buf: Bytes)
    | Shutdown(task: TaskId)
    | Recv(task: TaskId, room: nat)
    | Send(task: TaskId, data: Bytes, target: SocketAddr, full: bool)
    | Finish(task: TaskId)

  predicate LiveTcp(c: Core, t: TaskId) {
    t in c.sessions && c.sessions[t].flow.source.None?
  }

  predicate LiveUdp(c: Core, t: TaskId) {
    t in c.sessions && c.sessions[t].flow.source.Some?
  }

  /** What the types of the source guarantee: a session call is made by whoever owns
      the stream or socket value. The direct UDP handler sends to the target it connected to
      and nowhere else. Nothing is assumed about the socket set. */
  predicate Enabled(c: Core, a: Action) {
    && c.fault.NoFault?
    && match a
       case ProcessPacket(_, slot, _) => slot !in c.engine.sockets
       case Read(t, _, _) => LiveTcp(c, t)
       case Write(t, _) => LiveTcp(c, t)
       case Shutdown(t) => LiveTcp(c, t)
       case Recv(t, _) => LiveUdp(c, t)
       case Send(t, _, target, _) =>
         LiveUdp(c, t)
         && (c.sessions[t].flow.direct ==> target == EndpointToSocketAddr(c.sessions[t].flow.target))
       case Finish(t) => t in c.sessions
       case _ => true
  }

  function Spawned(c: Core, e: Engine, flow: Option<Flow>): Core {
    match flow
    case None => c.(engine := e)
    case Some(f) => c.(engine := e, sessions := c.sessions[c.nextTask := Session(f, false, false, false)],
                       nextTask := c.nextTask + 1, spawned := c.spawned + 1)
  }

  /** Waking a task un-parks it; waking a finished task does nothing. */
  function Roused(c: Core, woken: set<TaskId>): Core {
    c.(sessions := map t | t in c.sessions ::
         if t in woken then c.sessions[t].(parkedIn := false, parkedOut := false) else c.sessions[t])
  }

  function Called(c: Core, t: TaskId, e: Engine, s: Session): Core {
    c.(engine := e, sessions := c.sessions[t := s])
  }

  function Next(c: Core, a: Action): Core
    requires Enabled(c, a)
  {
    match a
    case SetCallback(context) => c.(engine := c.engine.(callback := Some(context)))
    case ClearCallback => c.(engine := c.engine.(callback := None))
    case Start => if c.engine.callback.None? then c else c.(started := true)
    case ProcessPacket(packet, slot, work) =>
      if !c.started then c
      else (
        match Process(c.engine, packet, slot, work)
        case Aborted => c.(fault := BindPanic)
        case Dropped(e, flow) => Spawned(c, e, flow)
        case Ran(e, flow, woken) => Roused(Spawned(c, e, flow), woken)
      )
    case Read(t, front, room) =>
      var s := c.sessions[t];
      if !HasTcp(c.engine, s.flow.handle) then c.(fault := MissingSocket)
      else
        var (e, r) := TcpRead(c.engine, s.flow.handle, t, front, room);
        Called(c, t, e, s.(parkedIn := r.ReadPending?))
    case Write(t, buf) =>
      var s := c.sessions[t];
      if !HasTcp(c.engine, s.flow.handle) then c.(fault := MissingSocket)
      else
        var (e, r) := TcpWrite(c.engine, s.flow.handle, t, buf);
        Called(c, t, e, s.(parkedOut := r.WritePending?))
    case Shutdown(t) =>
      var s := c.sessions[t];
      if !HasTcp(c.engine, s.flow.handle) then c.(fault := MissingSocket)
      else
        var early := c.engine.sockets[s.flow.handle].state in {Listen, SynSent};
        Called(c, t, TcpShutdown(c.engine, s.flow.handle), s.(hungUp := s.hungUp || early))
    case Recv(t, room) =>
      var s := c.sessions[t];
      if !HasUdp(c.engine, s.flow.handle) then c.(fault := MissingSocket)
      else
        var (e, r) := UdpRecv(c.engine, s.flow.handle, t, room);
        Called(c, t, e, s.(parkedIn := r.RecvPending?))
    case Send(t, data, target, full) =>
      var s := c.sessions[t];
      if !HasUdp(c.engine, s.flow.handle) then c.(fault := MissingSocket)
      else
        var (e, r) := UdpSend(c.engine, s.flow.handle, t, data, target, full);
        Called(c, t, e, s.(parkedOut := r.SendPending?))
    case Finish(t) =>
      var flow := c.sessions[t].flow;
      if flow.handle !in c.engine.sockets then c.(fault := MissingSocket)
      else
        var e := if flow.source.None? then TcpDropped(c.engine, flow.handle) else UdpDropped(c.engine, flow.handle);
        c.(engine := e, sessions := c.sessions - {t}, finished := c.finished + 1)
  }

  /** One call as its caller sees it: a call the core cannot take (the process is gone, or the
      task is not there) does nothing. */
  function Stepped(c: Core, a: Action): Core {
    if Enabled(c, a) then Next(c, a) else c
  }

  /** A run from `c`; none if some action is not enabled when its turn comes. */
  function Exec(c: Core, acts: seq<Action>): Option<Core>
    decreases |acts|
  {
    if acts == [] then Some(c)
    else if Enabled(c, acts[0]) then Exec(Next(c, acts[0]), acts[1..])
    else None
  }

  // ---------- The invariant ----------

  ghost predicate FlowFits(flow: Flow, s: Socket) {
    && (flow.source.None? <==> s.Tcp?)
    && s.local == flow.target
    && flow.target.addr.V4?
    && (flow.direct <==> Routing.IsPrivateV4(flow.target.addr.v4))
  }

  ghost function Flows(sessions: map<TaskId, Session>): map<TaskId, Flow> {
    map t | t in sessions :: sessions[t].flow
  }

  /** Live sockets and live sessions are in one-to-one correspondence, kinds agreeing. */
  ghost predicate Owned(flows: map<TaskId, Flow>, sockets: map<Handle, Socket>) {
    && (forall t | t in flows :: flows[t].handle in sockets && FlowFits(flows[t], sockets[flows[t].handle]))
    && (forall t, u | t in flows && u in flows && t != u :: flows[t].handle != flows[u].handle)
    && (forall h | h in sockets :: exists t :: t in flows && flows[t].handle == h)
  }

  ghost predicate Serves(flow: Flow, source: SocketAddr, h: Handle) {
    flow.source == Some(source) && flow.handle == h
  }

  /** The UDP index and the live UDP sessions say the same thing. */
  ghost predicate Indexed(flows: map<TaskId, Flow>, index: map<SocketAddr, Handle>) {
    && (forall src | src in index :: exists t :: t in flows && Serves(flows[t], src, index[src]))
    && (forall t | t in flows && flows[t].source.Some? ::
          flows[t].source.value in index && index[flows[t].source.value] == flows[t].handle)
  }

  ghost predicate HasOwnWaker(wakers: map<Handle, TaskId>, t: TaskId, s: Session) {
    s.parkedIn || s.parkedOut ==> s.flow.handle in wakers && wakers[s.flow.handle] == t
  }

  /** A parked session cannot make progress yet, or hung up on itself. */
  ghost predicate Unready(s: Session, k: Socket) {
    if k.Tcp? then
      && (s.parkedIn ==> !ReadReady(k) || (s.hungUp && k.state == Closed && k.rx == []))
      && (s.parkedOut ==> !WriteReady(k) || (s.hungUp && k.state == Closed))
    else
      s.parkedIn ==> k.inbox == []
  }

  ghost predicate Attended(t: TaskId, s: Session, sockets: map<Handle, Socket>, wakers: map<Handle, TaskId>,
                           bound: TaskId) {
    && t < bound
    && HasOwnWaker(wakers, t, s)
    && (s.flow.handle in sockets ==> Unready(s, sockets[s.flow.handle]))
  }

  /** No wakeup is lost, and no parked session is overlooked. */
  ghost predicate Tracked(sessions: map<TaskId, Session>, sockets: map<Handle, Socket>, wakers: map<Handle, TaskId>,
                          bound: TaskId) {
    forall t | t in sessions :: Attended(t, sessions[t], sockets, wakers, bound)
  }

  ghost predicate Streams(sockets: map<Handle, Socket>) {
    forall h | h in sockets :: StreamOk(sockets[h])
  }

  ghost predicate Listening(s: Socket, dst: Ipv4, port: Port) {
    s.Tcp? && s.state == Listen && s.local == IpEndpoint(V4(dst), port)
  }

  /** When the stack took this packet, its session was already there. */
  ghost predicate SessionFirst(x: Ingest) {
    match x.packet
    case Ipv4Packet(src, dst, TcpSegment(port, syn, ack), _) =>
      syn && !ack ==> exists h :: h in x.sockets && Listening(x.sockets[h], dst, port)
    case Ipv4Packet(src, dst, UdpDatagram(srcPort, _), _) =>
      && SockV4(src, srcPort) in x.udpSessions
      && x.udpSessions[SockV4(src, srcPort)] in x.sockets
      && x.sockets[x.udpSessions[SockV4(src, srcPort)]].Udp?
    case _ => true
  }

  ghost predicate Conserved(accepted: seq<Packet>, ingested: seq<Ingest>, inbound: seq<Packet>) {
    && accepted == PacketsOf(ingested) + inbound
    && forall i | 0 <= i < |ingested| :: SessionFirst(ingested[i])
  }

  ghost predicate Counted(c: Core) {
    c.spawned == c.finished + |c.sessions.Keys| && |c.sessions.Keys| == |c.engine.sockets.Keys|
  }

  /** Everything but the state of the inbound queue. */
  ghost predicate Sound(c: Core) {
    && Owned(Flows(c.sessions), c.engine.sockets)
    && Indexed(Flows(c.sessions), c.engine.udpSessions)
    && Tracked(c.sessions, c.engine.sockets, c.engine.wakers, c.nextTask)
    && Streams(c.engine.sockets)
    && Conserved(c.engine.accepted, c.engine.ingested, c.engine.inbound)
    && Counted(c)
    && !c.fault.MissingSocket?
  }

  ghost predicate Pristine(c: Core) {
    && c.engine == EMPTY_ENGINE.(callback := c.engine.callback)
    && c.sessions == map[] && c.spawned == 0
  }

  ghost predicate Inv(c: Core) {
    Sound(c) && c.engine.inbound == [] && (!c.started ==> Pristine(c))
  }

  lemma OwnedSession(c: Core, t: TaskId)
    requires Sound(c) && t in c.sessions
    ensures c.sessions[t].flow.handle in c.engine.sockets
    ensures FlowFits(c.sessions[t].flow, c.engine.sockets[c.sessions[t].flow.handle])
    ensures StreamOk(c.engine.sockets[c.sessions[t].flow.handle])
    ensures Attended(t, c.sessions[t], c.engine.sockets, c.engine.wakers, c.nextTask)
    ensures forall u | u in c.sessions && u != t :: c.sessions[u].flow.handle != c.sessions[t].flow.handle
  {
    assert Flows(c.sessions)[t] == c.sessions[t].flow;
    forall u | u in c.sessions && u != t ensures c.sessions[u].flow.handle != c.sessions[t].flow.handle {
      assert Flows(c.sessions)[u] == c.sessions[u].flow;
    }
  }

  lemma OwnedFrame(flows: map<TaskId, Flow>, a: map<Handle, Socket>, b: map<Handle, Socket>)
    requires Owned(flows, a) && a.Keys == b.Keys
    requires forall h | h in a :: a[h].local == b[h].local && (a[h].Tcp? <==> b[h].Tcp?)
    ensures Owned(flows, b)
  {
  }

  lemma OwnedAdd(flows: map<TaskId, Flow>, a: map<Handle, Socket>, t: TaskId, flow: Flow, k: Socket)
    requires Owned(flows, a) && t !in flows && flow.handle !in a && FlowFits(flow, k)
    ensures Owned(flows[t := flow], a[flow.handle := k])
  {
    var fs, b := flows[t := flow], a[flow.handle := k];
    forall h | h in b ensures exists u :: u in fs && fs[u].handle == h {
      if h == flow.handle {
        assert fs[t].handle == h;
      } else {
        var u :| u in flows && flows[u].handle == h;
        assert fs[u].handle == h;
      }
    }
  }

  lemma OwnedRemove(flows: map<TaskId, Flow>, a: map<Handle, Socket>, t: TaskId)
    requires Owned(flows, a) && t in flows
    ensures Owned(flows - {t}, a - {flows[t].handle})
  {
    var fs, b := flows - {t}, a - {flows[t].handle};
    forall h | h in b ensures exists u :: u in fs && fs[u].handle == h {
      var u :| u in flows && flows[u].handle == h;
      assert fs[u].handle == h;
    }
  }

  function Reindexed(index: map<SocketAddr, Handle>, flow: Flow): map<SocketAddr, Handle> {
    if flow.source.Some? then index[flow.source.value := flow.handle] else index
  }

  lemma IndexedAdd(flows: map<TaskId, Flow>, index: map<SocketAddr, Handle>, t: TaskId, flow: Flow)
    requires Indexed(flows, index) && t !in flows
    requires flow.source.Some? ==> flow.source.value !in index
    ensures Indexed(flows[t := flow], Reindexed(index, flow))
  {
    var fs := flows[t := flow];
    var ix := Reindexed(index, flow);
    forall src | src in ix ensures exists u :: u in fs && Serves(fs[u], src, ix[src]) {
      if Some(src) == flow.source {
        assert Serves(fs[t], src, ix[src]);
      } else {
        var u :| u in flows && Serves(flows[u], src, index[src]);
        assert Serves(fs[u], src, ix[src]);
      }
    }
  }

  function Unindexed(index: map<SocketAddr, Handle>, h: Handle): map<SocketAddr, Handle> {
    map k | k in index && index[k] != h :: index[k]
  }

  lemma IndexedRemove(flows: map<TaskId, Flow>, sockets: map<Handle, Socket>, index: map<SocketAddr, Handle>, t: TaskId)
    requires Owned(flows, sockets) && Indexed(flows, index) && t in flows
    ensures Indexed(flows - {t}, if flows[t].source.Some? then Unindexed(index, flows[t].handle) else index)
  {
    var fs := flows - {t};
    var ix := if flows[t].source.Some? then Unindexed(index, flows[t].handle) else index;
    forall src | src in ix ensures exists u :: u in fs && Serves(fs[u], src, ix[src]) {
      var u :| u in flows && Serves(flows[u], src, index[src]);
      assert u != t;
      assert Serves(fs[u], src, ix[src]);
    }
  }

  // ---------- Each step keeps it ----------

  lemma StreamsUpdate(sockets: map<Handle, Socket>, h: Handle, k: Socket)
    requires Streams(sockets) && StreamOk(k)
    ensures Streams(sockets[h := k])
  {
  }

  lemma StreamsRemove(sockets: map<Handle, Socket>, h: Handle)
    requires Streams(sockets)
    ensures Streams(sockets - {h})
  {
  }

  lemma TrackedCall(sessions: map<TaskId, Session>, sockets: map<Handle, Socket>, wakers: map<Handle, TaskId>,
                    bound: TaskId, t: TaskId, s: Session, k: Socket, after: map<Handle, TaskId>)
    requires Tracked(sessions, sockets, wakers, bound) && Owned(Flows(sessions), sockets)
    requires t in sessions && s.flow == sessions[t].flow && Unready(s, k)
    requires after == wakers[s.flow.handle := t]
          || (after == wakers && (s.parkedIn ==> sessions[t].parkedIn) && (s.parkedOut ==> sessions[t].parkedOut))
    ensures Tracked(sessions[t := s], sockets[s.flow.handle := k], after, bound)
  {
    var ss, ks, h := sessions[t := s], sockets[s.flow.handle := k], s.flow.handle;
    forall u | u in ss ensures Attended(u, ss[u], ks, after, bound) {
      assert Attended(u, sessions[u], sockets, wakers, bound);
      if u != t {
        assert Flows(sessions)[u] == sessions[u].flow && Flows(sessions)[t] == s.flow;
        assert sessions[u].flow.handle != h;
      }
    }
  }

  /** A session call replaces one socket and one session record, and may store one waker. */
  lemma CallKeepsSound(c: Core, t: TaskId, k: Socket, pending: bool, s: Session)
    requires Sound(c) && t in c.sessions && s.flow == c.sessions[t].flow
    requires FlowFits(s.flow, k) && StreamOk(k) && Unready(s, k)
    requires !pending ==> (s.parkedIn ==> c.sessions[t].parkedIn) && (s.parkedOut ==> c.sessions[t].parkedOut)
    ensures Sound(Called(c, t, ParkIf(WithSocket(c.engine, s.flow.handle, k), pending, s.flow.handle, t), s))
  {
    hide Owned, Indexed, Tracked, Streams, Conserved;
    var h := s.flow.handle;
    var d := Called(c, t, ParkIf(WithSocket(c.engine, h, k), pending, h, t), s);
    assert Flows(d.sessions) == Flows(c.sessions);
    assert Owned(Flows(d.sessions), d.engine.sockets) && d.engine.sockets.Keys == c.engine.sockets.Keys by {
      OwnedSession(c, t);
      OwnedFrame(Flows(c.sessions), c.engine.sockets, d.engine.sockets);
    }
    TrackedCall(c.sessions, c.engine.sockets, c.engine.wakers, c.nextTask, t, s, k, d.engine.wakers);
    StreamsUpdate(c.engine.sockets, h, k);
    assert d.sessions.Keys == c.sessions.Keys;
  }

  lemma ReadKeepsInv(c: Core, t: TaskId, front: nat, room: nat)
    requires Inv(c) && Enabled(c, Read(t, front, room))
    ensures Inv(Next(c, Read(t, front, room)))
  {
    hide Sound;
    OwnedSession(c, t);
    var s := c.sessions[t];
    var k := c.engine.sockets[s.flow.handle];
    ReadIsAPrefixMove(k, front, room);
    var p := PollRead(k, front, room);
    CallKeepsSound(c, t, p.socket, p.result.ReadPending?, s.(parkedIn := p.result.ReadPending?));
  }

  lemma WriteKeepsInv(c: Core, t: TaskId, buf: Bytes)
    requires Inv(c) && Enabled(c, Write(t, buf))
    ensures Inv(Next(c, Write(t, buf)))
  {
    hide Sound;
    OwnedSession(c, t);
    var s := c.sessions[t];
    var k := c.engine.sockets[s.flow.handle];
    WriteTakesWhatFits(k, buf);
    var p := PollWrite(k, buf);
    CallKeepsSound(c, t, p.socket, p.result.WritePending?, s.(parkedOut := p.result.WritePending?));
  }

  lemma ShutdownKeepsInv(c: Core, t: TaskId)
    requires Inv(c) && Enabled(c, Shutdown(t))
    ensures Inv(Next(c, Shutdown(t)))
  {
    hide Sound;
    OwnedSession(c, t);
    var s := c.sessions[t];
    var k := c.engine.sockets[s.flow.handle];
    ShutdownMakesReadyIff(k);
    CallKeepsSound(c, t, PollShutdown(k), false, s.(hungUp := s.hungUp || k.state in {Listen, SynSent}));
  }

  lemma RecvKeepsInv(c: Core, t: TaskId, room: nat)
    requires Inv(c) && Enabled(c, Recv(t, room))
    ensures Inv(Next(c, Recv(t, room)))
  {
    hide Sound;
    OwnedSession(c, t);
    var s := c.sessions[t];
    var k := c.engine.sockets[s.flow.handle];
    RecvTakesTheOldest(k, room);
    var p := PollRecvFrom(k, room);
    CallKeepsSound(c, t, p.socket, p.result.RecvPending?, s.(parkedIn := p.result.RecvPending?));
  }

  lemma SendKeepsInv(c: Core, t: TaskId, data: Bytes, target: SocketAddr, full: bool)
    requires Inv(c) && Enabled(c, Send(t, data, target, full))
    ensures Inv(Next(c, Send(t, data, target, full)))
  {
    hide Sound;
    OwnedSession(c, t);
    var s := c.sessions[t];
    var k := c.engine.sockets[s.flow.handle];
    SendQueuesWhole(k, data, target, full);
    var p := PollSendTo(k, data, target, full);
    CallKeepsSound(c, t, p.socket, p.result.SendPending?, s.(parkedOut := p.result.SendPending?));
  }

  lemma TrackedRemove(sessions: map<TaskId, Session>, sockets: map<Handle, Socket>, wakers: map<Handle, TaskId>,
                      bound: TaskId, t: TaskId, h: Handle)
    requires Tracked(sessions, sockets, wakers, bound)
    ensures Tracked(sessions - {t}, sockets - {h}, wakers, bound)
  {
  }

  /** The counters after a drop. */
  lemma CountedRemove(c: Core, d: Core, t: TaskId, h: Handle)
    requires Counted(c) && t in c.sessions && h in c.engine.sockets
    requires d.sessions.Keys == c.sessions.Keys - {t} && d.engine.sockets.Keys == c.engine.sockets.Keys - {h}
    requires d.spawned == c.spawned && d.finished == c.finished + 1
    ensures Counted(d)
  {
  }

  lemma FlowsRemove(sessions: map<TaskId, Session>, t: TaskId)
    ensures Flows(sessions - {t}) == Flows(sessions) - {t}
    ensures t in sessions ==> t in Flows(sessions) && Flows(sessions)[t] == sessions[t].flow
  {
  }

  lemma FinishKeepsSound(c: Core, t: TaskId)
    requires Sound(c) && t in c.sessions
    ensures var flow := c.sessions[t].flow;
            var e := if flow.source.None? then TcpDropped(c.engine, flow.handle) else UdpDropped(c.engine, flow.handle);
            Sound(c.(engine := e, sessions := c.sessions - {t}, finished := c.finished + 1))
  {
    hide Owned, Indexed, Tracked, Streams, Conserved, Counted, FlowFits, StreamOk, Attended, Flows;
    var flow := c.sessions[t].flow;
    var fs, ks := Flows(c.sessions), c.engine.sockets;
    var e := if flow.source.None? then TcpDropped(c.engine, flow.handle) else UdpDropped(c.engine, flow.handle);
    var d := c.(engine := e, sessions := c.sessions - {t}, finished := c.finished + 1);
    OwnedSession(c, t);
    FlowsRemove(c.sessions, t);
    OwnedRemove(fs, ks, t);
    IndexedRemove(fs, ks, c.engine.udpSessions, t);
    TrackedRemove(c.sessions, ks, c.engine.wakers, c.nextTask, t, flow.handle);
    StreamsRemove(ks, flow.handle);
    CountedRemove(c, d, t, flow.handle);
  }

  lemma FinishKeepsInv(c: Core, t: TaskId)
    requires Inv(c) && Enabled(c, Finish(t))
    ensures Inv(Next(c, Finish(t)))
    ensures Next(c, Finish(t)).sessions == c.sessions - {t}
    ensures Next(c, Finish(t)).fault.NoFault?
  {
    hide Sound;
    assert c.sessions[t].flow.handle in c.engine.sockets by { OwnedSession(c, t); }
    FinishKeepsSound(c, t);
  }

  lemma TrackedAdd(sessions: map<TaskId, Session>, sockets: map<Handle, Socket>, wakers: map<Handle, TaskId>,
                   bound: TaskId, f: Flow, k: Socket)
    requires Tracked(sessions, sockets, wakers, bound)
    requires Owned(Flows(sessions), sockets) && f.handle !in sockets
    ensures Tracked(sessions[bound := Session(f, false, false, false)], sockets[f.handle := k], wakers, bound + 1)
  {
    var s := Session(f, false, false, false);
    var ss, ks := sessions[bound := s], sockets[f.handle := k];
    forall u | u in ss ensures Attended(u, ss[u], ks, wakers, bound + 1) {
      if u != bound {
        assert Attended(u, sessions[u], sockets, wakers, bound);
        assert Flows(sessions)[u] == sessions[u].flow;
      }
    }
  }

  lemma StreamsEvolve(a: map<Handle, Socket>, b: map<Handle, Socket>)
    requires Streams(a) && TableEvolves(a, b)
    ensures Streams(b)
  {
  }

  lemma TasksAreOld(c: Core)
    requires Sound(c)
    ensures forall t | t in c.sessions :: t < c.nextTask
  {
  }

  lemma AdmissionFits(e: Engine, p: Packet, slot: Handle)
    requires Admit(e, p, slot).Spawns?
    ensures var a := Admit(e, p, slot);
            && a.flow.handle == slot && slot in a.engine.sockets
            && FlowFits(a.flow, a.engine.sockets[slot]) && StreamOk(a.engine.sockets[slot])
            && (a.flow.source.Some? ==> a.flow.source.value !in e.udpSessions)
            && a.engine == e.(
                 sockets := e.sockets[slot := a.engine.sockets[slot]],
                 udpSessions := Reindexed(e.udpSessions, a.flow))
  {
  }

  lemma FlowsAdd(sessions: map<TaskId, Session>, t: TaskId, s: Session)
    ensures Flows(sessions[t := s]) == Flows(sessions)[t := s.flow]
    ensures Flows(sessions).Keys == sessions.Keys
  {
  }

  lemma CountedAdd(c: Core, d: Core, h: Handle)
    requires Counted(c) && c.nextTask !in c.sessions && h !in c.engine.sockets
    requires d.sessions.Keys == c.sessions.Keys + {c.nextTask} && d.engine.sockets.Keys == c.engine.sockets.Keys + {h}
    requires d.spawned == c.spawned + 1 && d.finished == c.finished
    ensures Counted(d)
  {
  }

  lemma SpawnOneKeepsSound(c: Core, f: Flow, k: Socket)
    requires Sound(c) && f.handle !in c.engine.sockets && FlowFits(f, k) && StreamOk(k)
    requires f.source.Some? ==> f.source.value !in c.engine.udpSessions
    ensures Sound(Spawned(c, c.engine.(sockets := c.engine.sockets[f.handle := k],
                                       udpSessions := Reindexed(c.engine.udpSessions, f)), Some(f)))
  {
    hide Owned, Indexed, Tracked, Streams, Conserved, Counted, FlowFits, StreamOk, Attended, Reindexed, Flows;
    var fs, ks := Flows(c.sessions), c.engine.sockets;
    var ix := Reindexed(c.engine.udpSessions, f);
    var d := Spawned(c, c.engine.(sockets := ks[f.handle := k], udpSessions := ix), Some(f));
    TasksAreOld(c);
    FlowsAdd(c.sessions, c.nextTask, Session(f, false, false, false));
    OwnedAdd(fs, ks, c.nextTask, f, k);
    IndexedAdd(fs, c.engine.udpSessions, c.nextTask, f);
    TrackedAdd(c.sessions, ks, c.engine.wakers, c.nextTask, f, k);
    StreamsUpdate(ks, f.handle, k);
    CountedAdd(c, d, f.handle);
  }

  /** Admission: the new session, if any, is owned and indexed, and the packet's own session
      is there before the packet is queued. */
  lemma SpawnKeepsSound(c: Core, p: Packet, slot: Handle)
    requires Sound(c) && slot !in c.engine.sockets && !Admit(c.engine, p, slot).BindPanics?
    ensures var a := Admit(c.engine, p, slot);
            var d := Spawned(c, Admitted(c.engine, a), AdmittedFlow(a));
            Sound(d) && d.engine == c.engine.(sockets := d.engine.sockets, udpSessions := d.engine.udpSessions)
  {
    var a := Admit(c.engine, p, slot);
    if a.Spawns? {
      AdmissionFits(c.engine, p, slot);
      SpawnOneKeepsSound(c, a.flow, a.engine.sockets[slot]);
    }
  }

  lemma AdmittedPacketHasItsSession(c: Core, p: Packet, slot: Handle)
    requires Sound(c) && slot !in c.engine.sockets && !Admit(c.engine, p, slot).BindPanics?
    ensures var e := Admitted(c.engine, Admit(c.engine, p, slot));
            SessionFirst(Ingest(p, e.sockets, e.udpSessions))
  {
    var a := Admit(c.engine, p, slot);
    var e := Admitted(c.engine, a);
    if a.Spawns? {
      if a.flow.source.None? {
        assert Listening(e.sockets[slot], p.dst, p.transport.dstPort);
      }
    } else if p.Ipv4Packet? && p.transport.UdpDatagram? {
      var src := SockV4(p.src, p.transport.srcPort);
      var u :| u in Flows(c.sessions) && Serves(Flows(c.sessions)[u], src, c.engine.udpSessions[src]);
      OwnedSession(c, u);
    }
  }

  /** A poll wakes everyone who is parked. */
  lemma PollRousesAll(c: Core, e: Engine)
    requires Tracked(c.sessions, c.engine.sockets, c.engine.wakers, c.nextTask)
    ensures var d := Roused(c.(engine := e), Woken(c.engine));
            forall t | t in d.sessions :: !d.sessions[t].parkedIn && !d.sessions[t].parkedOut
  {
  }

  lemma ConservedByPoll(a: Engine, b: Engine)
    requires Conserved(a.accepted, a.ingested, a.inbound) && Ingests(a, b) && |a.inbound| == 1
    requires SessionFirst(Ingest(a.inbound[0], a.sockets, a.udpSessions))
    ensures Conserved(b.accepted, b.ingested, b.inbound)
  {
  }

  lemma TrackedWhenNoneParked(sessions: map<TaskId, Session>, sockets: map<Handle, Socket>, bound: TaskId)
    requires forall t | t in sessions :: t < bound && !sessions[t].parkedIn && !sessions[t].parkedOut
    ensures Tracked(sessions, sockets, map[], bound)
  {
  }

  ghost predicate NoneParked(c: Core) {
    forall t | t in c.sessions :: !c.sessions[t].parkedIn && !c.sessions[t].parkedOut
  }

  lemma RousedKeepsFlows(c: Core, woken: set<TaskId>)
    ensures Flows(Roused(c, woken).sessions) == Flows(c.sessions) && Roused(c, woken).sessions.Keys == c.sessions.Keys
    ensures Roused(c, woken) == c.(sessions := Roused(c, woken).sessions)
  {
  }

  lemma PollKeepsTables(c: Core, e: Engine)
    requires Sound(c) && TableEvolves(c.engine.sockets, e.sockets)
    ensures Owned(Flows(c.sessions), e.sockets) && Streams(e.sockets) && e.sockets.Keys == c.engine.sockets.Keys
  {
    hide Tracked, Indexed, Conserved, FlowFits;
    StreamsEvolve(c.engine.sockets, e.sockets);
    OwnedFrame(Flows(c.sessions), c.engine.sockets, e.sockets);
  }

  lemma PollTracksNone(c: Core, e: Engine)
    requires Sound(c)
    ensures var d := Roused(c.(engine := e.(wakers := map[])), Woken(c.engine));
            NoneParked(d) && Tracked(d.sessions, d.engine.sockets, map[], d.nextTask)
  {
    hide Owned, Indexed, Streams, Conserved, Tracked;
    PollRousesAll(c, e.(wakers := map[]));
    TasksAreOld(c);
    var d := Roused(c.(engine := e.(wakers := map[])), Woken(c.engine));
    TrackedWhenNoneParked(d.sessions, d.engine.sockets, d.nextTask);
  }

  /** A poll empties the queue and the waker map and keeps everything else sound. */
  lemma PollKeepsSound(c: Core, e: Engine)
    requires Sound(c) && |c.engine.inbound| == 1 && Ingests(c.engine, e)
    requires SessionFirst(Ingest(c.engine.inbound[0], c.engine.sockets, c.engine.udpSessions))
    ensures var d := Roused(c.(engine := e.(wakers := map[])), Woken(c.engine));
            Sound(d) && d.engine.inbound == [] && NoneParked(d)
  {
    hide Owned, Indexed, Tracked, Streams, Conserved, Roused, SessionFirst, NoneParked, TableEvolves, Flows;
    PollKeepsTables(c, e);
    PollTracksNone(c, e);
    RousedKeepsFlows(c.(engine := e.(wakers := map[])), Woken(c.engine));
    ConservedByPoll(c.engine, e);
  }

  lemma PushKeepsSound(c: Core, p: Packet)
    requires Sound(c) && c.engine.inbound == []
    ensures Sound(c.(engine := Pushed(c.engine, p))) && Pushed(c.engine, p).inbound == [p]
  {
  }

  lemma FaultKeepsSound(c: Core)
    requires Sound(c)
    ensures Sound(c.(fault := BindPanic))
  {
  }

  lemma ProcessKeepsInv(c: Core, p: Packet, slot: Handle, work: StackWork)
    requires Inv(c) && Enabled(c, ProcessPacket(p, slot, work))
    ensures Inv(Next(c, ProcessPacket(p, slot, work)))
    ensures c.started && !Admit(c.engine, p, slot).BindPanics? ==>
              var d := Next(c, ProcessPacket(p, slot, work));
              && Process(c.engine, p, slot, work).Ran?
              && d.engine.wakers == map[] && d.fault.NoFault? && NoneParked(d)
  {
    hide Sound, SessionFirst;
    var a := Admit(c.engine, p, slot);
    FaultKeepsSound(c);
    if c.started && !a.BindPanics? {
      var c1 := Spawned(c, Admitted(c.engine, a), AdmittedFlow(a));
      SpawnKeepsSound(c, p, slot);
      AdmittedPacketHasItsSession(c, p, slot);
      PushKeepsSound(c1, p);
      var c2 := c1.(engine := Pushed(c1.engine, p));
      PollIngests(c2.engine, work);
      PollKeepsSound(c2, InterfacePolled(c2.engine, work));
      assert c1.engine == Admitted(c.engine, a);
      assert Process(c.engine, p, slot, work) == Ran(AfterPoll(c2.engine, work), AdmittedFlow(a), Woken(c2.engine));
      assert Next(c, ProcessPacket(p, slot, work))
             == Roused(c2.(engine := AfterPoll(c2.engine, work)), Woken(c2.engine));
    }
  }

  /** Between two states, live tasks keep their flows and only a new task may appear. */
  ghost predicate FlowsKept(c: Core, d: Core) {
    && c.nextTask <= d.nextTask
    && forall t | t in d.sessions && t < c.nextTask :: t in c.sessions && d.sessions[t].flow == c.sessions[t].flow
  }

  lemma ProcessKeepsFlows(c: Core, p: Packet, slot: Handle, work: StackWork)
    requires Enabled(c, ProcessPacket(p, slot, work))
    ensures FlowsKept(c, Next(c, ProcessPacket(p, slot, work)))
    ensures Next(c, ProcessPacket(p, slot, work)).finished == c.finished
    ensures var (r, d) := (Process(c.engine, p, slot, work), Next(c, ProcessPacket(p, slot, work)));
            c.started && !r.Aborted? ==>
              forall t | t in d.sessions :: t in Spawned(c, r.engine, r.flow).sessions
                                           && d.sessions[t].flow == Spawned(c, r.engine, r.flow).sessions[t].flow
  {
    hide Process;
    var r := Process(c.engine, p, slot, work);
    if c.started && !r.Aborted? {
      assert FlowsKept(c, Spawned(c, r.engine, r.flow));
    }
  }

  lemma StepKeepsFlows(c: Core, a: Action)
    requires Enabled(c, a)
    ensures FlowsKept(c, Next(c, a))
    ensures !a.Finish? ==> Next(c, a).finished == c.finished
    ensures !a.ProcessPacket? ==> Next(c, a).spawned == c.spawned
  {
    hide Process;
    match a
    case ProcessPacket(p, slot, work) => ProcessKeepsFlows(c, p, slot, work);
    case Read(_, _, _) =>
    case Write(_, _) =>
    case Shutdown(_) =>
    case Recv(_, _) =>
    case Send(_, _, _, _) =>
    case Finish(_) =>
    case _ =>
  }

  lemma NextKeepsInv(c: Core, a: Action)
    requires Inv(c) && Enabled(c, a)
    ensures Inv(Next(c, a))
  {
    match a
    case SetCallback(_) =>
    case ClearCallback =>
    case Start =>
    case ProcessPacket(p, slot, work) => ProcessKeepsInv(c, p, slot, work);
    case Read(t, front, room) => ReadKeepsInv(c, t, front, room);
    case Write(t, buf) => WriteKeepsInv(c, t, buf);
    case Shutdown(t) => ShutdownKeepsInv(c, t);
    case Recv(t, room) => RecvKeepsInv(c, t, room);
    case Send(t, data, target, full) => SendKeepsInv(c, t, data, target, full);
    case Finish(t) => FinishKeepsInv(c, t);
  }

  lemma SteppedKeepsInv(c: Core, a: Action)
    requires Inv(c)
    ensures Inv(Stepped(c, a))
  {
    hide Inv, Next;
    if Enabled(c, a) { NextKeepsInv(c, a); }
  }

  lemma {:induction false} RunKeepsInv(c: Core, acts: seq<Action>)
    requires Inv(c) && Exec(c, acts).Some?
    ensures Inv(Exec(c, acts).value)
    decreases |acts|
  {
    if acts != [] {
      NextKeepsInv(c, acts[0]);
      RunKeepsInv(Next(c, acts[0]), acts[1..]);
    }
  }

  lemma InitialInv()
    ensures Inv(INITIAL)
  {
  }
}
