/** The engine and its bridges as the objects of the source, each method proved to do exactly
    what EngineModel says of one critical section. */
module Engine {
  import opened Net
  import opened Sockets
  import opened EngineModel

  /** Overwrites `data` into `buf` from index `at` on, and nothing else. */
  method CopyInto(buf: array<Byte>, at: nat, data: Bytes)
    requires at + |data| <= buf.Length
    modifies buf
    ensures buf[..] == old(buf[..at]) + data + old(buf[at + |data|..])
  {
    var i := 0;
    while i < |data|
      invariant i <= |data|
      invariant forall k | 0 <= k < buf.Length ::
                  buf[k] == if at <= k < at + i then data[k - at] else old(buf[k])
    {
      buf[at + i] := data[i];
      i := i + 1;
    }
  }

  class TunDevice {
    var inboundPackets: seq<Packet>
    var hasCallback: bool
    var outboundContext: Context
    ghost var emitted: seq<Emission>

    constructor ()
      ensures inboundPackets == [] && !hasCallback && emitted == []
    {
      inboundPackets, hasCallback, outboundContext, emitted := [], false, 0, [];
    }

    /** Pops the oldest packet, if there is one. */
    method Receive() returns (packet: Option<Packet>)
      modifies this`inboundPackets
      ensures packet.None? <==> old(inboundPackets) == []
      ensures packet.None? ==> inboundPackets == old(inboundPackets)
      ensures packet.Some? ==> [packet.value] + inboundPackets == old(inboundPackets)
    {
      if inboundPackets == [] {
        packet := None;
      } else {
        packet := Some(inboundPackets[0]);
        inboundPackets := inboundPackets[1..];
      }
    }

    /** A transmitted frame goes to the callback, when one is registered. */
    method Consume(frame: Bytes)
      modifies this`emitted
      ensures emitted == old(emitted) + if hasCallback then [Emission(outboundContext, frame)] else []
    {
      if hasCallback {
        emitted := emitted + [Emission(outboundContext, frame)];
      }
    }
  }

  class StunnelEngine {
    const device: TunDevice
    var sockets: map<Handle, Socket>
    var wakers: map<Handle, TaskId>
    var udpSessions: map<SocketAddr, Handle>
    ghost var accepted: seq<Packet>
    ghost var ingested: seq<Ingest>

    ghost function Abs(): EngineModel.Engine
      reads this, device
    {
      EngineModel.Engine(
        device.inboundPackets,
        if device.hasCallback then Some(device.outboundContext) else None,
        sockets, wakers, udpSessions, accepted, ingested, device.emitted)
    }

    constructor ()
      ensures fresh(device) && Abs() == EMPTY_ENGINE
    {
      device := new TunDevice();
      sockets, wakers, udpSessions, accepted, ingested := map[], map[], map[], [], [];
    }

    method RunStack(events: seq<StackEvent>)
      modifies this, device
      ensures Abs() == RunEvents(old(Abs()), events)
    {
      var i := 0;
      assert events[0..] == events;
      while i < |events|
        invariant i <= |events|
        invariant RunEvents(Abs(), events[i..]) == RunEvents(old(Abs()), events)
      {
        ghost var before := Abs();
        assert events[i..][1..] == events[i + 1..];
        match events[i] {
          case OnSocket(h, ev) =>
            if h in sockets { sockets := sockets[h := Absorb(sockets[h], ev)]; }
          case Transmit(frame) =>
            device.Consume(frame);
        }
        assert Abs() == RunEvent(before, events[i]);
        i := i + 1;
      }
      assert events[i..] == [];
    }

    /** The interface poll: ingress until the device is empty, then egress. */
    method InterfacePoll(work: StackWork)
      modifies this, device
      ensures Abs() == InterfacePolled(old(Abs()), work)
    {
      var reactions := work.reactions;
      while true
        invariant Drain(Abs(), reactions) == Drain(old(Abs()), work.reactions)
        decreases |device.inboundPackets|
      {
        ghost var before := Abs();
        var packet := device.Receive();
        if packet.None? { break; }
        ingested := ingested + [Ingest(packet.value, sockets, udpSessions)];
        assert Abs() == Received(before);
        RunEventsKeepQueue(Received(before), Head(reactions));
        RunStack(Head(reactions));
        reactions := Tail(reactions);
      }
      RunStack(work.egress);
    }

    method Poll(work: StackWork) returns (woken: set<TaskId>)
      modifies this, device
      ensures Abs() == AfterPoll(old(Abs()), work)
      ensures woken == Woken(old(Abs()))
    {
      PollIngests(Abs(), work);
      InterfacePoll(work);
      woken := {};
      var rest := wakers.Keys;
      while rest != {}
        invariant rest <= wakers.Keys
        invariant woken == set h | h in wakers.Keys - rest :: wakers[h]
        decreases rest
      {
        var h :| h in rest;
        woken := woken + {wakers[h]};
        rest := rest - {h};
      }
      wakers := map[];
    }

    method RegisterWaker(handle: Handle, waker: TaskId)
      modifies this`wakers
      ensures Abs() == Registered(old(Abs()), handle, waker)
    {
      wakers := wakers[handle := waker];
    }

    method PushInboundPacket(packet: Packet) returns (pushed: bool)
      modifies this`accepted, device`inboundPackets
      ensures pushed <==> |old(device.inboundPackets)| < 1024
      ensures Abs() == Pushed(old(Abs()), packet)
      ensures |old(device.inboundPackets)| <= MAX_INBOUND_PACKETS ==> |device.inboundPackets| <= MAX_INBOUND_PACKETS
    {
      if |device.inboundPackets| >= MAX_INBOUND_PACKETS {
        return false;
      }
      device.inboundPackets := device.inboundPackets + [packet];
      accepted := accepted + [packet];
      pushed := true;
    }
  }

  class TcpStream {
    const handle: Handle
    const engine: StunnelEngine

    constructor (handle: Handle, engine: StunnelEngine)
      ensures this.handle == handle && this.engine == engine
    {
      this.handle, this.engine := handle, engine;
    }

    /** Reads into `buf` after the `filled` bytes already there. */
    method PollRead(cx: TaskId, buf: array<Byte>, filled: nat, front: nat) returns (result: ReadResult)
      requires HasTcp(engine.Abs(), handle) && filled <= buf.Length
      modifies engine`sockets, engine`wakers, buf
      ensures (engine.Abs(), result) == TcpRead(old(engine.Abs()), handle, cx, front, buf.Length - filled)
      ensures result.ReadDone? ==>
                && filled + |result.bytes| <= buf.Length
                && buf[..] == old(buf[..filled]) + result.bytes + old(buf[filled + |result.bytes|..])
      ensures !result.ReadDone? ==> buf[..] == old(buf[..])
    {
      var socket := engine.sockets[handle];
      if CanRecv(socket) {
        if !MayRecv(socket) {
          result := ReadFailed;
        } else {
          var data := FrontRun(socket, front);
          var n := Min(|data|, buf.Length - filled);
          CopyInto(buf, filled, data[..n]);
          socket := socket.(rx := socket.rx[n..], read := socket.read + data[..n]);
          result := ReadDone(data[..n]);
        }
      } else {
        match socket.state {
          case Closed => result := ReadDone([]);
          case CloseWait => result := ReadDone([]);
          case Closing => result := ReadDone([]);
          case LastAck => result := ReadDone([]);
          case _ =>
            engine.RegisterWaker(handle, cx);
            result := ReadPending;
        }
      }
      engine.sockets := engine.sockets[handle := socket];
      assert buf[..filled] + buf[filled..] == buf[..];
    }

    method PollWrite(cx: TaskId, buf: Bytes) returns (result: WriteResult)
      requires HasTcp(engine.Abs(), handle)
      modifies engine`sockets, engine`wakers
      ensures (engine.Abs(), result) == TcpWrite(old(engine.Abs()), handle, cx, buf)
    {
      var socket := engine.sockets[handle];
      if CanSend(socket) {
        if !MaySend(socket) {
          result := WriteFailed;
        } else {
          var n := Min(|buf|, TCP_BUFFER - |socket.tx|);
          socket := socket.(tx := socket.tx + buf[..n], wrote := socket.wrote + buf[..n]);
          result := WriteDone(n);
        }
      } else {
        match socket.state {
          case Closed => result := BrokenPipe;
          case CloseWait => result := BrokenPipe;
          case Closing => result := BrokenPipe;
          case LastAck => result := BrokenPipe;
          case _ =>
            engine.RegisterWaker(handle, cx);
            result := WritePending;
        }
      }
      engine.sockets := engine.sockets[handle := socket];
    }

    method Shutdown()
      requires HasTcp(engine.Abs(), handle)
      modifies engine`sockets
      ensures engine.Abs() == TcpShutdown(old(engine.Abs()), handle)
    {
      var socket := engine.sockets[handle];
      engine.sockets := engine.sockets[handle := socket.(state := Close(socket.state))];
    }

    method Drop()
      requires handle in engine.sockets
      modifies engine`sockets
      ensures engine.Abs() == TcpDropped(old(engine.Abs()), handle)
    {
      engine.sockets := engine.sockets - {handle};
    }
  }

  class UdpSocket {
    const handle: Handle
    const engine: StunnelEngine

    constructor (handle: Handle, engine: StunnelEngine)
      ensures this.handle == handle && this.engine == engine
    {
      this.handle, this.engine := handle, engine;
    }

    /** Receives into the front of `buf`; what lies behind the received bytes stays. */
    method PollRecvFrom(cx: TaskId, buf: array<Byte>) returns (result: RecvResult)
      requires HasUdp(engine.Abs(), handle)
      modifies engine`sockets, engine`wakers, buf
      ensures (engine.Abs(), result) == UdpRecv(old(engine.Abs()), handle, cx, buf.Length)
      ensures result.RecvDone? ==>
                && |result.bytes| <= buf.Length
                && buf[..] == result.bytes + old(buf[|result.bytes|..])
      ensures result.RecvPending? ==> buf[..] == old(buf[..])
    {
      var socket := engine.sockets[handle];
      if socket.inbox != [] {
        var datagram := socket.inbox[0];
        var n := Min(|datagram.data|, buf.Length);
        CopyInto(buf, 0, datagram.data[..n]);
        engine.sockets := engine.sockets[handle :=
          socket.(inbox := socket.inbox[1..], taken := socket.taken + [datagram])];
        result := RecvDone(datagram.data[..n], EndpointToSocketAddr(datagram.peer));
      } else {
        engine.RegisterWaker(handle, cx);
        result := RecvPending;
        assert engine.sockets == engine.sockets[handle := socket];
      }
    }

    method PollSendTo(cx: TaskId, data: Bytes, target: SocketAddr, full: bool) returns (result: SendResult)
      requires HasUdp(engine.Abs(), handle)
      modifies engine`sockets, engine`wakers
      ensures (engine.Abs(), result) == UdpSend(old(engine.Abs()), handle, cx, data, target, full)
    {
      var socket := engine.sockets[handle];
      var endpoint := SocketAddrToEndpoint(target);
      if Unaddressable(endpoint) {
        result := SendFailed;
      } else if full || |socket.outbox| >= UDP_SLOTS {
        engine.RegisterWaker(handle, cx);
        result := SendPending;
      } else {
        var datagram := Datagram(endpoint, data);
        socket := socket.(outbox := socket.outbox + [datagram], queued := socket.queued + [datagram]);
        result := SendDone(|data|);
      }
      engine.sockets := engine.sockets[handle := socket];
    }

    method Drop()
      requires handle in engine.sockets
      modifies engine`sockets, engine`udpSessions
      ensures engine.Abs() == UdpDropped(old(engine.Abs()), handle)
    {
      engine.sockets := engine.sockets - {handle};
      engine.udpSessions := map k | k in engine.udpSessions && engine.udpSessions[k] != handle :: engine.udpSessions[k];
    }
  }
}
