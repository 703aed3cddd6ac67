/** Over any run, what a session's poll calls returned is an in-order account of what the
    stack delivered, and what they accepted is exactly what the stack was given. */
module StreamTheorems {
  import opened Net
  import opened Sockets
  import opened EngineModel
  import opened Sessions
  import opened SessionTheorems

  /** One answered receive: what was put into the caller's buffer, and how large that was. */
  datatype Receipt = Receipt(bytes: Bytes, peer: SocketAddr, room: nat)

  /** What a session's calls told it: the bytes reads returned, the prefixes writes accepted,
      the answered receives and the datagrams sends accepted. */
  datatype Account = Account(read: Bytes, wrote: Bytes, receipts: seq<Receipt>, queued: seq<Datagram>)

  const NOTHING := Account([], [], [], [])

  function Plus(a: Account, b: Account): Account {
    Account(a.read + b.read, a.wrote + b.wrote, a.receipts + b.receipts, a.queued + b.queued)
  }

  /** What task t is told by one action of a run: the answer of its own call, if it made one. */
  function Told(c: Core, a: Action, t: TaskId): Account
    requires Enabled(c, a)
  {
    match a
    case Read(u, front, room) =>
      if u == t && HasTcp(c.engine, c.sessions[t].flow.handle) then (
        match PollRead(SocketOf(c, t), front, room).result
        case ReadDone(bytes) => Account(bytes, [], [], [])
        case _ => NOTHING
      ) else NOTHING
    case Write(u, buf) =>
      if u == t && HasTcp(c.engine, c.sessions[t].flow.handle) then (
        match PollWrite(SocketOf(c, t), buf).result
        case WriteDone(n) => if n <= |buf| then Account([], buf[..n], [], []) else NOTHING
        case _ => NOTHING
      ) else NOTHING
    case Recv(u, room) =>
      if u == t && HasUdp(c.engine, c.sessions[t].flow.handle) then (
        match PollRecvFrom(SocketOf(c, t), room).result
        case RecvDone(bytes, peer) => Account([], [], [Receipt(bytes, peer, room)], [])
        case _ => NOTHING
      ) else NOTHING
    case Send(u, data, target, full) =>
      if u == t && HasUdp(c.engine, c.sessions[t].flow.handle) then (
        match PollSendTo(SocketOf(c, t), data, target, full).result
        case SendDone(_) => Account([], [], [], [Datagram(SocketAddrToEndpoint(target), data)])
        case _ => NOTHING
      ) else NOTHING
    case _ => NOTHING
  }

  /** Everything task t is told during a run, in order. */
  function AllTold(c: Core, acts: seq<Action>, t: TaskId): Account
    requires Exec(c, acts).Some?
    decreases |acts|
  {
    if acts == [] then NOTHING else Plus(Told(c, acts[0], t), AllTold(Next(c, acts[0]), acts[1..], t))
  }

  /** The answer a receive with this room owes for a datagram. */
  function Owed(dg: Datagram, room: nat): Receipt {
    Receipt(dg.data[..Min(|dg.data|, room)], EndpointToSocketAddr(dg.peer), room)
  }

  /** Each answer is the one owed for the datagram at its place. */
  ghost predicate Answers(rs: seq<Receipt>, dgs: seq<Datagram>) {
    |rs| == |dgs| && forall i | 0 <= i < |rs| :: rs[i] == Owed(dgs[i], rs[i].room)
  }

  lemma AnswersAppend(rs: seq<Receipt>, dgs: seq<Datagram>, room: nat, dg: Datagram)
    requires Answers(rs, dgs)
    ensures Answers(rs + [Owed(dg, room)], dgs + [dg])
  {
  }

  /** A socket's own record of its session's side. */
  datatype Side = Side(read: Bytes, wrote: Bytes, taken: seq<Datagram>, queued: seq<Datagram>)

  const BLANK := Side([], [], [], [])

  function SideOfSocket(k: Socket): Side {
    match k
    case Tcp(_, _, _, _, _, read, wrote, _) => Side(read, wrote, [], [])
    case Udp(_, _, _, _, taken, queued, _) => Side([], [], taken, queued)
  }

  function SideOf(c: Core, t: TaskId): Side {
    if t in c.sessions && c.sessions[t].flow.handle in c.engine.sockets then SideOfSocket(SocketOf(c, t)) else BLANK
  }

  ghost predicate Accounts(a: Account, s: Side) {
    a.read == s.read && a.wrote == s.wrote && Answers(a.receipts, s.taken) && a.queued == s.queued
  }

  lemma FlowFitsKind(c: Core, t: TaskId)
    requires Sound(c) && t in c.sessions
    ensures c.sessions[t].flow.handle in c.engine.sockets
    ensures SocketOf(c, t).Tcp? <==> LiveTcp(c, t)
    ensures SocketOf(c, t).Udp? <==> LiveUdp(c, t)
  {
    OwnedSession(c, t);
  }

  lemma NothingAdded(a: Account, b: Account)
    ensures b.read == [] ==> Plus(a, b).read == a.read
    ensures b.wrote == [] ==> Plus(a, b).wrote == a.wrote
    ensures b.receipts == [] ==> Plus(a, b).receipts == a.receipts
    ensures b.queued == [] ==> Plus(a, b).queued == a.queued
  {
  }

  lemma ReadIsTold(c: Core, t: TaskId, front: nat, room: nat, a: Account)
    requires Inv(c) && Enabled(c, Read(t, front, room)) && Accounts(a, SideOf(c, t))
    ensures Accounts(Plus(a, Told(c, Read(t, front, room), t)), SideOf(Next(c, Read(t, front, room)), t))
  {
    hide Sound, StreamOk, Answers;
    NothingAdded(a, Told(c, Read(t, front, room), t));
    FlowFitsKind(c, t);
    ReadIsAPrefixMove(SocketOf(c, t), front, room);
  }

  lemma WriteIsTold(c: Core, t: TaskId, buf: Bytes, a: Account)
    requires Inv(c) && Enabled(c, Write(t, buf)) && Accounts(a, SideOf(c, t))
    ensures Accounts(Plus(a, Told(c, Write(t, buf), t)), SideOf(Next(c, Write(t, buf)), t))
  {
    hide Sound, StreamOk, Answers;
    NothingAdded(a, Told(c, Write(t, buf), t));
    FlowFitsKind(c, t);
    SocketIsSound(c, t);
    WriteTakesWhatFits(SocketOf(c, t), buf);
  }

  lemma RecvIsTold(c: Core, t: TaskId, room: nat, a: Account)
    requires Inv(c) && Enabled(c, Recv(t, room)) && Accounts(a, SideOf(c, t))
    ensures Accounts(Plus(a, Told(c, Recv(t, room), t)), SideOf(Next(c, Recv(t, room)), t))
  {
    hide Sound, StreamOk, Answers;
    NothingAdded(a, Told(c, Recv(t, room), t));
    FlowFitsKind(c, t);
    var k := SocketOf(c, t);
    if k.inbox != [] {
      AnswersAppend(a.receipts, k.taken, room, k.inbox[0]);
      assert Told(c, Recv(t, room), t).receipts == [Owed(k.inbox[0], room)];
    }
  }

  lemma SendIsTold(c: Core, t: TaskId, data: Bytes, target: SocketAddr, full: bool, a: Account)
    requires Inv(c) && Enabled(c, Send(t, data, target, full)) && Accounts(a, SideOf(c, t))
    ensures Accounts(Plus(a, Told(c, Send(t, data, target, full), t)), SideOf(Next(c, Send(t, data, target, full)), t))
  {
    hide Sound, StreamOk, Answers;
    NothingAdded(a, Told(c, Send(t, data, target, full), t));
    FlowFitsKind(c, t);
  }

  lemma SocketIsSound(c: Core, t: TaskId)
    requires Sound(c) && t in c.sessions
    ensures c.sessions[t].flow.handle in c.engine.sockets && StreamOk(SocketOf(c, t))
  {
    OwnedSession(c, t);
  }

  /** Another session's call, a shutdown, a finish or a lifecycle call tells t nothing. */
  lemma OtherCallKeepsSide(c: Core, a: Action, t: TaskId)
    requires Inv(c) && Enabled(c, a) && t in c.sessions && t in Next(c, a).sessions
    requires !a.ProcessPacket?
    requires match a case Read(u, _, _) => u != t case Write(u, _) => u != t case Recv(u, _) => u != t
                     case Send(u, _, _, _) => u != t case _ => true
    ensures SideOf(Next(c, a), t) == SideOf(c, t) && Told(c, a, t) == NOTHING
  {
    hide Sound, StreamOk, Attended, FlowFits, Process, PollRead, PollWrite, PollRecvFrom, PollSendTo;
    OwnedSession(c, t);
    match a
    case Read(u, _, _) =>
    case Write(u, _) =>
    case Shutdown(u) =>
    case Recv(u, _) =>
    case Send(u, _, _, _) =>
    case Finish(u) =>
    case _ =>
  }

  lemma EvolvesKeepsSide(k: Socket, l: Socket)
    requires Evolves(k, l)
    ensures SideOfSocket(l) == SideOfSocket(k)
  {
  }

  lemma NewSocketsAreSilent(e: Engine, p: Packet, slot: Handle)
    requires Admit(e, p, slot).Spawns?
    ensures var e1 := Admit(e, p, slot).engine; slot in e1.sockets && SideOfSocket(e1.sockets[slot]) == BLANK
  {
  }

  lemma AdmissionKeepsSides(c: Core, p: Packet, slot: Handle, t: TaskId)
    requires Sound(c) && slot !in c.engine.sockets && !Admit(c.engine, p, slot).BindPanics?
    ensures var a := Admit(c.engine, p, slot);
            var d := Spawned(c, Admitted(c.engine, a), AdmittedFlow(a));
            t in d.sessions ==> d.sessions[t].flow.handle in d.engine.sockets && SideOf(d, t) == SideOf(c, t)
  {
    hide Sound, Attended, FlowFits, StreamOk, Admit, Reindexed;
    TasksAreOld(c);
    if Admit(c.engine, p, slot).Spawns? {
      AdmissionFits(c.engine, p, slot);
      NewSocketsAreSilent(c.engine, p, slot);
    }
    if t in c.sessions { OwnedSession(c, t); }
  }

  lemma PollKeepsSides(c: Core, e: Engine, woken: set<TaskId>, t: TaskId)
    requires TableEvolves(c.engine.sockets, e.sockets)
    requires t in c.sessions && c.sessions[t].flow.handle in c.engine.sockets
    ensures SideOf(Roused(c.(engine := e), woken), t) == SideOf(c, t)
  {
    EvolvesKeepsSide(SocketOf(c, t), e.sockets[c.sessions[t].flow.handle]);
  }

  lemma PacketKeepsSides(c: Core, p: Packet, slot: Handle, work: StackWork, t: TaskId)
    requires Inv(c) && Enabled(c, ProcessPacket(p, slot, work))
    requires t in Next(c, ProcessPacket(p, slot, work)).sessions
    ensures SideOf(Next(c, ProcessPacket(p, slot, work)), t) == SideOf(c, t)
  {
    hide Sound, SideOf, Admit, TableEvolves, EmitsOnlyTo, InterfacePolled;
    var a := Admit(c.engine, p, slot);
    if c.started && !a.BindPanics? {
      var e1 := Admitted(c.engine, a);
      var c1 := Spawned(c, e1, AdmittedFlow(a));
      var e2 := AfterPoll(Pushed(e1, p), work);
      AdmissionKeepsSides(c, p, slot, t);
      AdmitTouchesTables(c.engine, p, slot);
      PollIngests(Pushed(e1, p), work);
      assert Next(c, ProcessPacket(p, slot, work)) == Roused(c1.(engine := e2), Woken(Pushed(e1, p)));
      PollKeepsSides(c1, e2, Woken(Pushed(e1, p)), t);
    } else {
      FaultKeepsSides(c, t);
    }
  }

  lemma FaultKeepsSides(c: Core, t: TaskId)
    ensures SideOf(c.(fault := BindPanic), t) == SideOf(c, t)
  {
  }

  lemma StepIsTold(c: Core, act: Action, t: TaskId, a: Account)
    requires Inv(c) && Enabled(c, act) && t in Next(c, act).sessions && Accounts(a, SideOf(c, t))
    ensures Accounts(Plus(a, Told(c, act, t)), SideOf(Next(c, act), t))
  {
    hide Inv, Next, SideOf, Answers, Enabled;
    if act.ProcessPacket? {
      PacketKeepsSides(c, act.packet, act.slot, act.work, t);
    } else if act.Read? && act.task == t {
      ReadIsTold(c, t, act.front, act.room, a);
    } else if act.Write? && act.task == t {
      WriteIsTold(c, t, act.buf, a);
    } else if act.Recv? && act.task == t {
      RecvIsTold(c, t, act.room, a);
    } else if act.Send? && act.task == t {
      SendIsTold(c, t, act.data, act.target, act.full, a);
    } else {
      OnlyPacketsSpawn(c, act, t);
      OtherCallKeepsSide(c, act, t);
    }
    assert Plus(a, NOTHING) == a;
  }

  lemma OnlyPacketsSpawn(c: Core, a: Action, t: TaskId)
    requires Enabled(c, a) && !a.ProcessPacket? && t in Next(c, a).sessions
    ensures t in c.sessions
  {
  }

  lemma PlusTwice(a: Account, b: Account, d: Account)
    ensures Plus(Plus(a, b), d) == Plus(a, Plus(b, d)) && Plus(a, NOTHING) == a && Plus(NOTHING, a) == a
  {
  }

  /** A session's account keeps agreeing with its socket's record, over every run. */
  lemma {:induction false} RunIsTold(c: Core, acts: seq<Action>, t: TaskId, a: Account)
    requires Inv(c) && Exec(c, acts).Some? && t in Exec(c, acts).value.sessions && Accounts(a, SideOf(c, t))
    ensures Accounts(Plus(a, AllTold(c, acts, t)), SideOf(Exec(c, acts).value, t))
    decreases |acts|
  {
    hide Inv, Next, SideOf, Told, Accounts, Plus, Enabled;
    if acts == [] {
      PlusTwice(a, NOTHING, NOTHING);
    } else {
      var d := Next(c, acts[0]);
      NextKeepsInv(c, acts[0]);
      if t in d.sessions {
        StepIsTold(c, acts[0], t, a);
      } else {
        LaterTaskIsToldNothingYet(c, acts, t);
        PlusTwice(a, NOTHING, NOTHING);
      }
      RunIsTold(d, acts[1..], t, Plus(a, Told(c, acts[0], t)));
      PlusTwice(a, Told(c, acts[0], t), AllTold(d, acts[1..], t));
    }
  }

  lemma LaterTask(c: Core, acts: seq<Action>, t: TaskId)
    requires Inv(c) && acts != [] && Exec(c, acts).Some? && t in Exec(c, acts).value.sessions
    requires t !in Next(c, acts[0]).sessions
    ensures t !in c.sessions
  {
    hide Inv, Next, Enabled;
    if t < c.nextTask {
      StepKeepsFlows(c, acts[0]);
      NextKeepsInv(c, acts[0]);
      FlowIsForLife(Next(c, acts[0]), acts[1..], t);
    } else {
      InvBoundsTasks(c);
    }
  }

  lemma InvBoundsTasks(c: Core)
    requires Inv(c)
    ensures forall t | t in c.sessions :: t < c.nextTask
  {
    TasksAreOld(c);
  }

  /** A task that is not there after the first step but is at the end had not been spawned. */
  lemma LaterTaskIsToldNothingYet(c: Core, acts: seq<Action>, t: TaskId)
    requires Inv(c) && acts != [] && Exec(c, acts).Some? && t in Exec(c, acts).value.sessions
    requires t !in Next(c, acts[0]).sessions
    ensures SideOf(c, t) == SideOf(Next(c, acts[0]), t) == BLANK && Told(c, acts[0], t) == NOTHING
  {
    hide Inv, Next;
    LaterTask(c, acts, t);
  }

  lemma ToldFromTheStart(acts: seq<Action>, c: Core, t: TaskId)
    requires Reaches(acts, c) && t in c.sessions
    ensures c.sessions[t].flow.handle in c.engine.sockets && StreamOk(SocketOf(c, t))
    ensures SocketOf(c, t).Tcp? <==> LiveTcp(c, t)
    ensures Accounts(AllTold(INITIAL, acts, t), SideOfSocket(SocketOf(c, t)))
  {
    hide Sound, Told, Next;
    ReachedInv(acts, c);
    InitialInv();
    SocketIsSound(c, t);
    FlowFitsKind(c, t);
    PlusTwice(AllTold(INITIAL, acts, t), NOTHING, NOTHING);
    RunIsTold(INITIAL, acts, t, NOTHING);
  }

  /** The TCP bridge is an ordered stream. The bytes all reads returned are a prefix of what
      the stack delivered, the rest being still buffered; the bytes all writes accepted are
      what entered the send buffer, of which the stack has taken a prefix. */
  lemma TcpBridgeIsAnOrderedStream(acts: seq<Action>, c: Core, t: TaskId)
    requires Reaches(acts, c) && LiveTcp(c, t)
    ensures HasTcp(c.engine, c.sessions[t].flow.handle)
    ensures var (k, told) := (SocketOf(c, t), AllTold(INITIAL, acts, t));
            && k.got == told.read + k.rx
            && told.wrote == k.drained + k.tx
            && |k.rx| <= TCP_BUFFER && |k.tx| <= TCP_BUFFER
    ensures forall front, room | room > 0 && AnswersEof(SocketOf(c, t), front, room) ::
              SocketOf(c, t).got == AllTold(INITIAL, acts, t).read && Hung(SocketOf(c, t).state)
  {
    hide Told, Next, Inv;
    ToldFromTheStart(acts, c, t);
    var k := SocketOf(c, t);
    forall front, room | room > 0 && AnswersEof(k, front, room) ensures k.rx == [] && Hung(k.state) {
      ReadIsAPrefixMove(k, front, room);
    }
  }

  /** The UDP bridge keeps order and content. The i-th answered receive returned the i-th
      datagram that arrived, cut to the caller's room and with its true sender, and what was
      not answered is still queued; each accepted send was queued once, in order. */
  lemma UdpBridgeKeepsOrder(acts: seq<Action>, c: Core, t: TaskId)
    requires Reaches(acts, c) && LiveUdp(c, t)
    ensures HasUdp(c.engine, c.sessions[t].flow.handle)
    ensures var (k, told) := (SocketOf(c, t), AllTold(INITIAL, acts, t));
            var n := |told.receipts|;
            && n <= |k.arrived| && k.inbox == k.arrived[n..]
            && (forall i | 0 <= i < n ::
                  var (dg, r) := (k.arrived[i], told.receipts[i]);
                  r.bytes == dg.data[..Min(|dg.data|, r.room)] && r.peer == EndpointToSocketAddr(dg.peer))
            && told.queued == k.departed + k.outbox
  {
    hide Told, Next;
    ToldFromTheStart(acts, c, t);
    var (k, told) := (SocketOf(c, t), AllTold(INITIAL, acts, t));
    forall i | 0 <= i < |told.receipts| ensures told.receipts[i] == Owed(k.arrived[i], told.receipts[i].room) {
      assert k.taken[i] == k.arrived[i];
    }
  }

  // ---------- Replies of the direct handler ----------

  /** What task t is told to have sent, while it is direct, goes to its target. */
  lemma {:induction false} DirectSendsGoToTheTarget(c: Core, acts: seq<Action>, t: TaskId)
    requires Inv(c) && Exec(c, acts).Some? && t in Exec(c, acts).value.sessions
    requires Exec(c, acts).value.sessions[t].flow.direct
    ensures forall i | 0 <= i < |AllTold(c, acts, t).queued| ::
              AllTold(c, acts, t).queued[i].peer == Exec(c, acts).value.sessions[t].flow.target
    decreases |acts|
  {
    hide Inv, Next;
    if acts != [] {
      NextKeepsInv(c, acts[0]);
      DirectSendsGoToTheTarget(Next(c, acts[0]), acts[1..], t);
      if acts[0].Send? && acts[0].task == t {
        InvBoundsTasks(c);
        FlowIsForLife(c, acts, t);
      }
    }
  }

  /** Over every run, every datagram a live direct session has queued for its client is
      addressed to the target it connected to. So each of them is addressed to the client
      itself if and only if the client's own address is the target. */
  lemma DirectRepliesReachTheClientIff(acts: seq<Action>, c: Core, t: TaskId)
    requires Reaches(acts, c) && LiveUdp(c, t) && c.sessions[t].flow.direct
    ensures HasUdp(c.engine, c.sessions[t].flow.handle)
    ensures var (f, out) := (c.sessions[t].flow, SocketOf(c, t).queued);
            && (forall i | 0 <= i < |out| :: out[i].peer == f.target)
            && (forall i | 0 <= i < |out| :: EndpointToSocketAddr(out[i].peer) == f.source.value
                                             <==> EndpointToSocketAddr(f.target) == f.source.value)
  {
    hide Told, Next;
    InitialInv();
    ToldFromTheStart(acts, c, t);
    DirectSendsGoToTheTarget(INITIAL, acts, t);
  }
}
