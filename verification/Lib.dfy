/** The object behind the C interface: the engine, the runtime's tasks with the streams they
    own, and the started flag. Every call on it is proved to be one step of Sessions.dfy, so
    what holds of every run of the protocol holds of the object. */
module Lib {
  import opened Net
  import opened Sockets
  import opened EngineModel
  import opened Objects = Engine
  import S = Sessions
  import Routing

  /** A live task of the runtime: the stream or socket it owns and what it captured. */
  datatype Task = TcpTask(stream: TcpStream, flow: Flow) | UdpTask(socket: UdpSocket, flow: Flow)

  ghost predicate Fits(k: Task, flow: Flow, engine: StunnelEngine) {
    && k.flow == flow
    && match k
       case TcpTask(stream, _) => stream.engine == engine && stream.handle == flow.handle && flow.source.None?
       case UdpTask(socket, _) => socket.engine == engine && socket.handle == flow.handle && flow.source.Some?
  }

  ghost predicate AllFit(tasks: map<TaskId, Task>, sessions: map<TaskId, S.Session>, engine: StunnelEngine) {
    tasks.Keys == sessions.Keys && forall t | t in tasks :: Fits(tasks[t], sessions[t].flow, engine)
  }

  lemma TaskHasSocket(c: S.Core, t: TaskId)
    requires S.Inv(c) && t in c.sessions
    ensures c.sessions[t].flow.handle in c.engine.sockets
    ensures S.LiveTcp(c, t) ==> HasTcp(c.engine, c.sessions[t].flow.handle)
    ensures S.LiveUdp(c, t) ==> HasUdp(c.engine, c.sessions[t].flow.handle)
  {
    S.OwnedSession(c, t);
  }

  function AfterAdmission(c: S.Core, p: Packet, slot: Handle): S.Core {
    var a := Admit(c.engine, p, slot);
    if a.BindPanics? then c.(fault := S.BindPanic) else S.Spawned(c, Admitted(c.engine, a), AdmittedFlow(a))
  }

  /** A packet call, stage by stage. */
  lemma PacketStep(c: S.Core, p: Packet, slot: Handle, work: StackWork)
    requires slot !in c.engine.sockets
    ensures var c1 := AfterAdmission(c, p, slot);
            S.Stepped(c, S.ProcessPacket(p, slot, work)) ==
              if !c.fault.NoFault? || !c.started then c
              else if !c1.fault.NoFault? || QueueFull(c1.engine) then c1
              else S.Roused(c1.(engine := AfterPoll(Pushed(c1.engine, p), work)), Woken(Pushed(c1.engine, p)))
  {
    hide Admit, AfterPoll;
  }

  lemma RousedFit(tasks: map<TaskId, Task>, c: S.Core, woken: set<TaskId>, engine: StunnelEngine)
    requires AllFit(tasks, c.sessions, engine)
    ensures AllFit(tasks, S.Roused(c, woken).sessions, engine)
  {
  }

  /** A session call changes one session record, a drop removes one; the tasks still fit. */
  lemma TaskFits(tasks: map<TaskId, Task>, sessions: map<TaskId, S.Session>, engine: StunnelEngine, t: TaskId)
    requires AllFit(tasks, sessions, engine)
    ensures t in tasks <==> t in sessions
    ensures t in tasks ==> Fits(tasks[t], sessions[t].flow, engine)
    ensures t in tasks ==> forall s: S.Session | s.flow == sessions[t].flow :: AllFit(tasks, sessions[t := s], engine)
    ensures AllFit(tasks - {t}, sessions - {t}, engine)
  {
  }

  class CoreContext {
    const engine: StunnelEngine
    var started: bool
    var aborted: bool             // a packet call panicked
    var tasks: map<TaskId, Task>
    var nextTask: TaskId
    ghost var sessions: map<TaskId, S.Session>
    ghost var finished: nat

    ghost function Parts(): set<object> {
      {this, engine, engine.device}
    }

    ghost function Core(): S.Core
      reads Parts()
    {
      S.Core(engine.Abs(), started, sessions, nextTask, if aborted then S.BindPanic else S.NoFault, nextTask, finished)
    }

    ghost predicate Valid()
      reads Parts()
    {
      S.Inv(Core()) && AllFit(tasks, sessions, engine)
    }

    constructor ()
      ensures Valid() && Core() == S.INITIAL
      ensures fresh(Parts())
    {
      engine := new StunnelEngine();
      started, aborted, tasks, nextTask, sessions, finished := false, false, map[], 0, map[], 0;
      new;
      S.InitialInv();
    }

    method SetPacketCallback(context: Context)
      requires Valid()
      modifies engine.device
      ensures Valid() && Core() == S.Stepped(old(Core()), S.SetCallback(context))
      ensures !aborted ==> engine.device.hasCallback && engine.device.outboundContext == context
    {
      S.SteppedKeepsInv(Core(), S.SetCallback(context));
      if aborted {
        return;
      }
      engine.device.hasCallback := true;
      engine.device.outboundContext := context;
    }

    method ClearPacketCallback()
      requires Valid()
      modifies engine.device
      ensures Valid() && Core() == S.Stepped(old(Core()), S.ClearCallback)
      ensures !aborted ==> !engine.device.hasCallback && engine.device.outboundContext == 0
    {
      S.SteppedKeepsInv(Core(), S.ClearCallback);
      if aborted {
        return;
      }
      engine.device.hasCallback := false;
      engine.device.outboundContext := 0;
    }

    /** Fails without a callback, also on a core that was started before. */
    method Start() returns (ok: bool)
      requires Valid()
      modifies this`started
      ensures Valid() && Core() == S.Stepped(old(Core()), S.Start)
      ensures ok <==> old(Core()).fault.NoFault? && old(Core()).engine.callback.Some?
    {
      S.SteppedKeepsInv(Core(), S.Start);
      if aborted || !engine.device.hasCallback {
        return false;
      }
      started := true;
      ok := true;
    }

    /** Creates the session of an admitted packet: its socket is already in the engine. */
    method SpawnTask(flow: Flow)
      modifies this`tasks, this`nextTask, this`sessions
      requires AllFit(tasks, sessions, engine)
      ensures Core() == S.Spawned(old(Core()), engine.Abs(), Some(flow)) && AllFit(tasks, sessions, engine)
    {
      if flow.source.None? {
        var stream := new TcpStream(flow.handle, engine);
        tasks := tasks[nextTask := TcpTask(stream, flow)];
      } else {
        var socket := new UdpSocket(flow.handle, engine);
        tasks := tasks[nextTask := UdpTask(socket, flow)];
      }
      sessions := sessions[nextTask := S.Session(flow, false, false, false)];
      nextTask := nextTask + 1;
    }

    method HandleTcpPacket(segment: Transport, dst: Ipv4, direct: bool, slot: Handle)
      requires segment.TcpSegment? && !aborted && AllFit(tasks, sessions, engine)
      modifies this`aborted, this`tasks, this`nextTask, this`sessions, engine`sockets
      ensures var a := AdmitTcp(old(engine.Abs()), dst, segment, direct, slot);
              Core() == if a.BindPanics? then old(Core()).(fault := S.BindPanic)
                        else S.Spawned(old(Core()), Admitted(old(engine.Abs()), a), AdmittedFlow(a))
      ensures AllFit(tasks, sessions, engine)
    {
      if !segment.syn || segment.ack {
        return;
      }
      if segment.dstPort == 0 {
        aborted := true;
        return;
      }
      var target := IpEndpoint(V4(dst), segment.dstPort);
      engine.sockets := engine.sockets[slot := NewTcp(target)];
      SpawnTask(Flow(slot, None, target, direct));
    }

    method HandleUdpPacket(datagram: Transport, src: Ipv4, dst: Ipv4, direct: bool, slot: Handle)
      requires datagram.UdpDatagram? && !aborted && AllFit(tasks, sessions, engine)
      modifies this`aborted, this`tasks, this`nextTask, this`sessions, engine`sockets, engine`udpSessions
      ensures var a := AdmitUdp(old(engine.Abs()), src, dst, datagram, direct, slot);
              Core() == if a.BindPanics? then old(Core()).(fault := S.BindPanic)
                        else S.Spawned(old(Core()), Admitted(old(engine.Abs()), a), AdmittedFlow(a))
      ensures AllFit(tasks, sessions, engine)
    {
      var source := SockV4(src, datagram.srcPort);
      if source in engine.udpSessions {
        return;
      }
      if datagram.udpDstPort == 0 {
        aborted := true;
        return;
      }
      var target := IpEndpoint(V4(dst), datagram.udpDstPort);
      engine.sockets := engine.sockets[slot := NewUdp(target)];
      engine.udpSessions := engine.udpSessions[source := slot];
      SpawnTask(Flow(slot, Some(source), target, direct));
    }

    /** The packet's session, created before the packet itself is queued. */
    method AdmitPacket(packet: Packet, slot: Handle)
      requires !aborted && AllFit(tasks, sessions, engine)
      modifies this`aborted, this`tasks, this`nextTask, this`sessions, engine`sockets, engine`udpSessions
      ensures Core() == AfterAdmission(old(Core()), packet, slot) && AllFit(tasks, sessions, engine)
    {
      if packet.Ipv4Packet? {
        var direct := Routing.IsPrivateV4(packet.dst);
        match packet.transport {
          case TcpSegment(_, _, _) => HandleTcpPacket(packet.transport, packet.dst, direct, slot);
          case UdpDatagram(_, _) => HandleUdpPacket(packet.transport, packet.src, packet.dst, direct, slot);
          case _ =>
        }
      }
    }

    method ProcessPacket(packet: Packet, slot: Handle, work: StackWork)
      requires Valid() && slot !in engine.sockets
      modifies this, engine, engine.device
      ensures Valid() && Core() == S.Stepped(old(Core()), S.ProcessPacket(packet, slot, work))
    {
      hide S.Inv, S.Next, AfterAdmission, AfterPoll, AllFit;
      ghost var c := Core();
      S.SteppedKeepsInv(c, S.ProcessPacket(packet, slot, work));
      PacketStep(c, packet, slot, work);
      if aborted || !started {
        return;
      }
      AdmitPacket(packet, slot);
      if aborted {
        return;
      }
      ghost var c1 := Core();
      var pushed := engine.PushInboundPacket(packet);
      if !pushed {
        return;
      }
      var woken := engine.Poll(work);
      RousedFit(tasks, c1, woken, engine);
      sessions := S.Roused(c1, woken).sessions;
    }

    /** A task's read through its own stream. */
    method Read(t: TaskId, buf: array<Byte>, filled: nat, front: nat) returns (result: ReadResult)
      requires Valid() && !aborted && S.LiveTcp(Core(), t) && filled <= buf.Length
      modifies this`sessions, engine`sockets, engine`wakers, buf
      ensures Valid() && Core() == S.Stepped(old(Core()), S.Read(t, front, buf.Length - filled))
      ensures HasTcp(old(engine.Abs()), old(sessions[t].flow.handle))
      ensures result == PollRead(old(engine.sockets[sessions[t].flow.handle]), front, buf.Length - filled).result
      ensures result.ReadDone? ==>
                && filled + |result.bytes| <= buf.Length
                && buf[..] == old(buf[..filled]) + result.bytes + old(buf[filled + |result.bytes|..])
      ensures !result.ReadDone? ==> buf[..] == old(buf[..])
    {
      hide AllFit, S.Inv, PollRead;
      ghost var c := Core();
      TaskFits(tasks, sessions, engine, t);
      TaskHasSocket(c, t);
      S.SteppedKeepsInv(c, S.Read(t, front, buf.Length - filled));
      result := tasks[t].stream.PollRead(t, buf, filled, front);
      sessions := sessions[t := sessions[t].(parkedIn := result.ReadPending?)];
    }

    method Write(t: TaskId, buf: Bytes) returns (result: WriteResult)
      requires Valid() && !aborted && S.LiveTcp(Core(), t)
      modifies this`sessions, engine`sockets, engine`wakers
      ensures Valid() && Core() == S.Stepped(old(Core()), S.Write(t, buf))
      ensures HasTcp(old(engine.Abs()), old(sessions[t].flow.handle))
      ensures result == PollWrite(old(engine.sockets[sessions[t].flow.handle]), buf).result
    {
      hide AllFit, S.Inv, PollWrite;
      ghost var c := Core();
      TaskFits(tasks, sessions, engine, t);
      TaskHasSocket(c, t);
      S.SteppedKeepsInv(c, S.Write(t, buf));
      result := tasks[t].stream.PollWrite(t, buf);
      sessions := sessions[t := sessions[t].(parkedOut := result.WritePending?)];
    }

    method Shutdown(t: TaskId)
      requires Valid() && !aborted && S.LiveTcp(Core(), t)
      modifies this`sessions, engine`sockets
      ensures Valid() && Core() == S.Stepped(old(Core()), S.Shutdown(t))
    {
      hide AllFit, S.Inv;
      ghost var c := Core();
      TaskFits(tasks, sessions, engine, t);
      TaskHasSocket(c, t);
      S.SteppedKeepsInv(c, S.Shutdown(t));
      ghost var s := sessions[t];
      ghost var early := engine.sockets[s.flow.handle].state in {Listen, SynSent};
      tasks[t].stream.Shutdown();
      sessions := sessions[t := s.(hungUp := s.hungUp || early)];
    }

    method Recv(t: TaskId, buf: array<Byte>) returns (result: RecvResult)
      requires Valid() && !aborted && S.LiveUdp(Core(), t)
      modifies this`sessions, engine`sockets, engine`wakers, buf
      ensures Valid() && Core() == S.Stepped(old(Core()), S.Recv(t, buf.Length))
      ensures HasUdp(old(engine.Abs()), old(sessions[t].flow.handle))
      ensures result == PollRecvFrom(old(engine.sockets[sessions[t].flow.handle]), buf.Length).result
      ensures result.RecvDone? ==> |result.bytes| <= buf.Length && buf[..] == result.bytes + old(buf[|result.bytes|..])
      ensures result.RecvPending? ==> buf[..] == old(buf[..])
    {
      hide AllFit, S.Inv, PollRecvFrom;
      ghost var c := Core();
      TaskFits(tasks, sessions, engine, t);
      TaskHasSocket(c, t);
      S.SteppedKeepsInv(c, S.Recv(t, buf.Length));
      result := tasks[t].socket.PollRecvFrom(t, buf);
      sessions := sessions[t := sessions[t].(parkedIn := result.RecvPending?)];
    }

    method Send(t: TaskId, data: Bytes, target: SocketAddr, full: bool) returns (result: SendResult)
      requires Valid() && !aborted && S.Enabled(Core(), S.Send(t, data, target, full))
      modifies this`sessions, engine`sockets, engine`wakers
      ensures Valid() && Core() == S.Stepped(old(Core()), S.Send(t, data, target, full))
      ensures HasUdp(old(engine.Abs()), old(sessions[t].flow.handle))
      ensures result == PollSendTo(old(engine.sockets[sessions[t].flow.handle]), data, target, full).result
    {
      hide AllFit, S.Inv, PollSendTo;
      ghost var c := Core();
      TaskFits(tasks, sessions, engine, t);
      TaskHasSocket(c, t);
      S.SteppedKeepsInv(c, S.Send(t, data, target, full));
      result := tasks[t].socket.PollSendTo(t, data, target, full);
      sessions := sessions[t := sessions[t].(parkedOut := result.SendPending?)];
    }

    /** The task ends and drops what it owns. */
    method Finish(t: TaskId)
      requires Valid() && !aborted && t in tasks
      modifies this`tasks, this`sessions, this`finished, engine`sockets, engine`udpSessions
      ensures Valid() && Core() == S.Stepped(old(Core()), S.Finish(t))
    {
      hide AllFit, S.Inv;
      ghost var c := Core();
      TaskFits(tasks, sessions, engine, t);
      TaskHasSocket(c, t);
      S.SteppedKeepsInv(c, S.Finish(t));
      match tasks[t] {
        case TcpTask(stream, _) => stream.Drop();
        case UdpTask(socket, _) => socket.Drop();
      }
      tasks := tasks - {t};
      sessions := sessions - {t};
      finished := finished + 1;
    }

    /** One action of whoever is next; one that cannot be taken now is not. */
    method Perform(action: S.Action)
      requires Valid()
      modifies this, engine, engine.device
      ensures Valid() && Core() == S.Stepped(old(Core()), action)
    {
      hide S.Inv, S.Next;
      match action {
        case SetCallback(context) => SetPacketCallback(context);
        case ClearCallback => ClearPacketCallback();
        case Start => var _ := Start();
        case ProcessPacket(packet, slot, work) =>
          if slot !in engine.sockets { ProcessPacket(packet, slot, work); }
        case Read(t, front, room) =>
          if !aborted && t in tasks && tasks[t].TcpTask? {
            var buf := new Byte[room](_ => 0);
            var _ := Read(t, buf, 0, front);
          }
        case Write(t, buf) =>
          if !aborted && t in tasks && tasks[t].TcpTask? { var _ := Write(t, buf); }
        case Shutdown(t) =>
          if !aborted && t in tasks && tasks[t].TcpTask? { Shutdown(t); }
        case Recv(t, room) =>
          if !aborted && t in tasks && tasks[t].UdpTask? {
            var buf := new Byte[room](_ => 0);
            var _ := Recv(t, buf);
          }
        case Send(t, data, target, full) =>
          if !aborted && t in tasks && tasks[t].UdpTask?
             && (tasks[t].flow.direct ==> target == EndpointToSocketAddr(tasks[t].flow.target)) {
            var _ := Send(t, data, target, full);
          }
        case Finish(t) =>
          if !aborted && t in tasks { Finish(t); }
      }
    }
  }

  function HandleOf(k: Task): Handle {
    match k
    case TcpTask(stream, _) => stream.handle
    case UdpTask(socket, _) => socket.handle
  }

  /** Between calls, whatever was called before, the tasks' streams and the engine's sockets
      correspond one to one, kinds agreeing, and each socket is bound where its task says. */
  lemma StreamsOwnTheSockets(c: CoreContext)
    requires c.Valid()
    ensures forall t | t in c.tasks ::
              && HandleOf(c.tasks[t]) in c.engine.sockets
              && (c.tasks[t].TcpTask? <==> c.engine.sockets[HandleOf(c.tasks[t])].Tcp?)
              && c.engine.sockets[HandleOf(c.tasks[t])].local == c.tasks[t].flow.target
    ensures forall t, u | t in c.tasks && u in c.tasks && t != u :: HandleOf(c.tasks[t]) != HandleOf(c.tasks[u])
    ensures forall h | h in c.engine.sockets :: exists t :: t in c.tasks && HandleOf(c.tasks[t]) == h
  {
    var core := c.Core();
    forall t | t in c.tasks
      ensures HandleOf(c.tasks[t]) == core.sessions[t].flow.handle
      ensures HandleOf(c.tasks[t]) in c.engine.sockets
      ensures S.FlowFits(c.tasks[t].flow, c.engine.sockets[HandleOf(c.tasks[t])])
      ensures forall u | u in c.tasks && u != t :: HandleOf(c.tasks[u]) != HandleOf(c.tasks[t])
    {
      S.OwnedSession(core, t);
    }
    forall h | h in c.engine.sockets ensures exists t :: t in c.tasks && HandleOf(c.tasks[t]) == h {
      var t :| t in S.Flows(core.sessions) && S.Flows(core.sessions)[t].handle == h;
      assert HandleOf(c.tasks[t]) == h;
    }
  }
}
