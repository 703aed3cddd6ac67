/** The shared engine as a value: what one critical section under its mutex does.
    The class in Engine.dfy is proved to do exactly this, and Sessions.dfy runs it. */
module EngineModel {
  import opened Net
  import opened Sockets
  import Routing

  type Handle = nat
  type TaskId = nat   // a task, and the waker that wakes it
  type Context = nat  // the context handed back to the packet callback

  const MAX_INBOUND_PACKETS := 1024

  /** One packet as the stack took it, with the tables at that moment. */
  datatype Ingest = Ingest(packet: Packet, sockets: map<Handle, Socket>, udpSessions: map<SocketAddr, Handle>)

  /** One invocation of the packet callback. */
  datatype Emission = Emission(context: Context, frame: Bytes)

  /** `accepted`, `ingested` and `emitted` are histories: no operation reads them. */
  datatype Engine = Engine(
    inbound: seq<Packet>,
    callback: Option<Context>,
    sockets: map<Handle, Socket>,
    wakers: map<Handle, TaskId>,
    udpSessions: map<SocketAddr, Handle>,
    accepted: seq<Packet>,
    ingested: seq<Ingest>,
    emitted: seq<Emission>)

  const EMPTY_ENGINE := Engine([], None, map[], map[], map[], [], [], [])

  // ---------- The device and the stack ----------

  datatype StackEvent = OnSocket(handle: Handle, event: SocketEvent) | Transmit(frame: Bytes)

  /** Everything the stack decides during one poll: how it reacts to each queued packet in
      turn, and what it does after the queue is empty. */
  datatype StackWork = StackWork(reactions: seq<seq<StackEvent>>, egress: seq<StackEvent>)

  function Transmitted(e: Engine, frame: Bytes): Engine {
    match e.callback
    case None => e
    case Some(context) => e.(emitted := e.emitted + [Emission(context, frame)])
  }

  function RunEvent(e: Engine, ev: StackEvent): Engine {
    match ev
    case OnSocket(h, se) =>
      if h in e.sockets then e.(sockets := e.sockets[h := Absorb(e.sockets[h], se)]) else e
    case Transmit(frame) => Transmitted(e, frame)
  }

  function RunEvents(e: Engine, evs: seq<StackEvent>): Engine
    decreases |evs|
  {
    if evs == [] then e else RunEvents(RunEvent(e, evs[0]), evs[1..])
  }

  /** The device hands the oldest packet to the stack. */
  function Received(e: Engine): Engine
    requires e.inbound != []
  {
    e.(inbound := e.inbound[1..],
       ingested := e.ingested + [Ingest(e.inbound[0], e.sockets, e.udpSessions)])
  }

  /** The stack's ingress loop: it stops when the device has nothing left. */
  function Drain(e: Engine, reactions: seq<seq<StackEvent>>): Engine
    decreases |e.inbound|, 1
  {
    if e.inbound == [] then e
    else
      RunEventsKeepQueue(Received(e), Head(reactions));
      Drain(RunEvents(Received(e), Head(reactions)), Tail(reactions))
  }

  function Head<T>(s: seq<seq<T>>): seq<T> {
    if s == [] then [] else s[0]
  }

  function Tail<T>(s: seq<T>): seq<T> {
    if s == [] then [] else s[1..]
  }

  function InterfacePolled(e: Engine, work: StackWork): Engine {
    RunEvents(Drain(e, work.reactions), work.egress)
  }

  /** Every stored waker is woken, then the map is emptied. */
  function Woken(e: Engine): set<TaskId> {
    e.wakers.Values
  }

  function AfterPoll(e: Engine, work: StackWork): Engine {
    InterfacePolled(e, work).(wakers := map[])
  }

  function Registered(e: Engine, h: Handle, waker: TaskId): Engine {
    e.(wakers := e.wakers[h := waker])
  }

  predicate QueueFull(e: Engine) {
    |e.inbound| >= MAX_INBOUND_PACKETS
  }

  function Pushed(e: Engine, p: Packet): Engine {
    if QueueFull(e) then e else e.(inbound := e.inbound + [p], accepted := e.accepted + [p])
  }

  // ---------- Packet ingress ----------

  /** What a spawned session task owns: its socket, the UDP source it serves (none for TCP),
      the destination its socket is bound to, and which handler it runs. */
  datatype Flow = Flow(handle: Handle, source: Option<SocketAddr>, target: IpEndpoint, direct: bool)

  /** `BindPanics`: `listen` or `bind` on port 0 is unwrapped and aborts the process. */
  datatype Admission = Unchanged | Spawns(engine: Engine, flow: Flow) | BindPanics

  function AdmitTcp(e: Engine, dst: Ipv4, seg: Transport, direct: bool, slot: Handle): Admission
    requires seg.TcpSegment?
  {
    if !seg.syn || seg.ack then Unchanged
    else if seg.dstPort == 0 then BindPanics
    else
      var target := IpEndpoint(V4(dst), seg.dstPort);
      Spawns(e.(sockets := e.sockets[slot := NewTcp(target)]), Flow(slot, None, target, direct))
  }

  function AdmitUdp(e: Engine, src: Ipv4, dst: Ipv4, dg: Transport, direct: bool, slot: Handle): Admission
    requires dg.UdpDatagram?
  {
    var source := SockV4(src, dg.srcPort);
    if source in e.udpSessions then Unchanged
    else if dg.udpDstPort == 0 then BindPanics
    else
      var target := IpEndpoint(V4(dst), dg.udpDstPort);
      Spawns(e.(sockets := e.sockets[slot := NewUdp(target)], udpSessions := e.udpSessions[source := slot]),
             Flow(slot, Some(source), target, direct))
  }

  /** `slot` is the free slot the socket set picks; slots of removed sockets are reused. */
  function Admit(e: Engine, p: Packet, slot: Handle): Admission {
    match p
    case NotIpv4(_) => Unchanged
    case Ipv4Packet(src, dst, transport, _) =>
      var direct := Routing.IsPrivateV4(dst);
      match transport
      case TcpSegment(_, _, _) => AdmitTcp(e, dst, transport, direct, slot)
      case UdpDatagram(_, _) => AdmitUdp(e, src, dst, transport, direct, slot)
      case _ => Unchanged
  }

  datatype Processed =
    | Aborted
    | Dropped(engine: Engine, flow: Option<Flow>)
    | Ran(engine: Engine, flow: Option<Flow>, woken: set<TaskId>)

  function Admitted(e: Engine, a: Admission): Engine
    requires !a.BindPanics?
  {
    if a.Spawns? then a.engine else e
  }

  function AdmittedFlow(a: Admission): Option<Flow> {
    if a.Spawns? then Some(a.flow) else None
  }

  /** The body of `stunnel_process_packet` once the runtime is started. */
  function Process(e: Engine, p: Packet, slot: Handle, work: StackWork): Processed {
    var a := Admit(e, p, slot);
    if a.BindPanics? then Aborted
    else
      var e1 := Admitted(e, a);
      if QueueFull(e1) then Dropped(e1, AdmittedFlow(a))
      else
        var e2 := Pushed(e1, p);
        Ran(AfterPoll(e2, work), AdmittedFlow(a), Woken(e2))
  }

  // ---------- Session calls ----------

  function WithSocket(e: Engine, h: Handle, s: Socket): Engine {
    e.(sockets := e.sockets[h := s])
  }

  predicate HasTcp(e: Engine, h: Handle) {
    h in e.sockets && e.sockets[h].Tcp?
  }

  predicate HasUdp(e: Engine, h: Handle) {
    h in e.sockets && e.sockets[h].Udp?
  }

  function ParkIf(e: Engine, pending: bool, h: Handle, waker: TaskId): Engine {
    if pending then Registered(e, h, waker) else e
  }

  function TcpRead(e: Engine, h: Handle, waker: TaskId, front: nat, room: nat): (Engine, ReadResult)
    requires HasTcp(e, h)
  {
    var p := PollRead(e.sockets[h], front, room);
    (ParkIf(WithSocket(e, h, p.socket), p.result.ReadPending?, h, waker), p.result)
  }

  function TcpWrite(e: Engine, h: Handle, waker: TaskId, buf: Bytes): (Engine, WriteResult)
    requires HasTcp(e, h)
  {
    var p := PollWrite(e.sockets[h], buf);
    (ParkIf(WithSocket(e, h, p.socket), p.result.WritePending?, h, waker), p.result)
  }

  function TcpShutdown(e: Engine, h: Handle): Engine
    requires HasTcp(e, h)
  {
    WithSocket(e, h, PollShutdown(e.sockets[h]))
  }

  function UdpRecv(e: Engine, h: Handle, waker: TaskId, room: nat): (Engine, RecvResult)
    requires HasUdp(e, h)
  {
    var p := PollRecvFrom(e.sockets[h], room);
    (ParkIf(WithSocket(e, h, p.socket), p.result.RecvPending?, h, waker), p.result)
  }

  function UdpSend(e: Engine, h: Handle, waker: TaskId, data: Bytes, target: SocketAddr, full: bool)
    : (Engine, SendResult)
    requires HasUdp(e, h)
  {
    var p := PollSendTo(e.sockets[h], data, target, full);
    (ParkIf(WithSocket(e, h, p.socket), p.result.SendPending?, h, waker), p.result)
  }

  /** Dropping a stream removes its socket and leaves the waker map alone. */
  function TcpDropped(e: Engine, h: Handle): Engine {
    e.(sockets := e.sockets - {h})
  }

  /** Dropping a UDP socket also removes its index entry. */
  function UdpDropped(e: Engine, h: Handle): Engine {
    e.(sockets := e.sockets - {h},
       udpSessions := map k | k in e.udpSessions && e.udpSessions[k] != h :: e.udpSessions[k])
  }

  // ---------- What a packet or a poll may and may not change ----------

  lemma AdmitTouchesTables(e: Engine, p: Packet, slot: Handle)
    requires !Admit(e, p, slot).BindPanics?
    ensures var d := Admitted(e, Admit(e, p, slot)); d == e.(sockets := d.sockets, udpSessions := d.udpSessions)
  {
  }

  ghost predicate TableEvolves(a: map<Handle, Socket>, b: map<Handle, Socket>) {
    a.Keys == b.Keys && forall h | h in a :: Evolves(a[h], b[h])
  }

  /** Every new callback invocation carries the context registered at the time. */
  ghost predicate EmitsOnlyTo(callback: Option<Context>, before: seq<Emission>, after: seq<Emission>) {
    && before <= after
    && (forall i | |before| <= i < |after| :: callback == Some(after[i].context))
    && (callback.None? ==> after == before)
  }

  ghost predicate OnlyStackRan(a: Engine, b: Engine) {
    && b == a.(sockets := b.sockets, emitted := b.emitted)
    && TableEvolves(a.sockets, b.sockets)
    && EmitsOnlyTo(a.callback, a.emitted, b.emitted)
  }

  lemma RunEventOnlyStack(e: Engine, ev: StackEvent)
    ensures OnlyStackRan(e, RunEvent(e, ev))
  {
    if ev.OnSocket? && ev.handle in e.sockets {
      AbsorbEvolves(e.sockets[ev.handle], ev.event);
    }
  }

  lemma TableEvolvesTrans(a: map<Handle, Socket>, b: map<Handle, Socket>, c: map<Handle, Socket>)
    requires TableEvolves(a, b) && TableEvolves(b, c)
    ensures TableEvolves(a, c)
  {
  }

  lemma EmitsTrans(callback: Option<Context>, a: seq<Emission>, b: seq<Emission>, c: seq<Emission>)
    requires EmitsOnlyTo(callback, a, b) && EmitsOnlyTo(callback, b, c)
    ensures EmitsOnlyTo(callback, a, c)
  {
    forall i | |a| <= i < |c| ensures callback == Some(c[i].context) {
      if i < |b| { assert c[i] == b[i]; }
    }
  }

  lemma {:induction false} RunEventsOnlyStack(e: Engine, evs: seq<StackEvent>)
    ensures OnlyStackRan(e, RunEvents(e, evs))
    decreases |evs|
  {
    hide TableEvolves, EmitsOnlyTo, RunEvent;
    if evs == [] {
      RunNothing(e);
    } else {
      var e1 := RunEvent(e, evs[0]);
      var e2 := RunEvents(e1, evs[1..]);
      RunEventOnlyStack(e, evs[0]);
      RunEventsOnlyStack(e1, evs[1..]);
      TableEvolvesTrans(e.sockets, e1.sockets, e2.sockets);
      EmitsTrans(e.callback, e.emitted, e1.emitted, e2.emitted);
    }
  }

  lemma RunNothing(e: Engine)
    ensures OnlyStackRan(e, e)
  {
  }

  lemma RunEventsKeepQueue(e: Engine, evs: seq<StackEvent>)
    ensures RunEvents(e, evs).inbound == e.inbound
  {
    RunEventsOnlyStack(e, evs);
  }

  function PacketsOf(log: seq<Ingest>): (r: seq<Packet>)
    ensures |r| == |log| && forall i | 0 <= i < |log| :: r[i] == log[i].packet
  {
    seq(|log|, i requires 0 <= i < |log| => log[i].packet)
  }

  /** One interface poll: the whole queue is ingested in order, sockets keep their identity,
      and nothing but the device and the sockets is touched. */
  ghost predicate Ingests(a: Engine, b: Engine) {
    && b == a.(inbound := [], sockets := b.sockets, ingested := b.ingested, emitted := b.emitted)
    && TableEvolves(a.sockets, b.sockets)
    && EmitsOnlyTo(a.callback, a.emitted, b.emitted)
    && a.ingested <= b.ingested
    && PacketsOf(b.ingested) == PacketsOf(a.ingested) + a.inbound
    && (a.inbound != [] ==> b.ingested[|a.ingested|] == Ingest(a.inbound[0], a.sockets, a.udpSessions))
  }

  lemma NothingToIngest(e: Engine)
    requires e.inbound == []
    ensures Ingests(e, e)
  {
    assert PacketsOf(e.ingested) == PacketsOf(e.ingested) + [];
  }

  /** Taking one packet, letting the stack react and ingesting the rest is ingesting all. */
  lemma IngestsOneMore(e: Engine, e2: Engine, e3: Engine)
    requires e.inbound != [] && OnlyStackRan(Received(e), e2) && Ingests(e2, e3)
    ensures Ingests(e, e3)
  {
    hide TableEvolves, EmitsOnlyTo;
    assert PacketsOf(e2.ingested) == PacketsOf(e.ingested) + [e.inbound[0]];
    assert PacketsOf(e.ingested) + [e.inbound[0]] + e.inbound[1..] == PacketsOf(e.ingested) + e.inbound;
    assert e3.ingested[|e.ingested|] == e2.ingested[|e.ingested|];
    TableEvolvesTrans(e.sockets, e2.sockets, e3.sockets);
    EmitsTrans(e.callback, e.emitted, e2.emitted, e3.emitted);
  }

  lemma IngestsThenRuns(e: Engine, e1: Engine, e2: Engine)
    requires Ingests(e, e1) && OnlyStackRan(e1, e2)
    ensures Ingests(e, e2)
  {
    hide TableEvolves, EmitsOnlyTo, PacketsOf;
    TableEvolvesTrans(e.sockets, e1.sockets, e2.sockets);
    EmitsTrans(e.callback, e.emitted, e1.emitted, e2.emitted);
  }

  lemma {:induction false} DrainIngests(e: Engine, reactions: seq<seq<StackEvent>>)
    ensures Ingests(e, Drain(e, reactions))
    decreases |e.inbound|
  {
    hide Ingests, OnlyStackRan, RunEvents;
    if e.inbound == [] {
      NothingToIngest(e);
    } else {
      var e2 := RunEvents(Received(e), Head(reactions));
      RunEventsOnlyStack(Received(e), Head(reactions));
      RunEventsKeepQueue(Received(e), Head(reactions));
      DrainIngests(e2, Tail(reactions));
      IngestsOneMore(e, e2, Drain(e2, Tail(reactions)));
    }
  }

  lemma PollIngests(e: Engine, work: StackWork)
    ensures Ingests(e, InterfacePolled(e, work))
    ensures AfterPoll(e, work).wakers == map[]
    ensures AfterPoll(e, work) == InterfacePolled(e, work).(wakers := map[])
  {
    hide Ingests, OnlyStackRan, RunEvents, Drain;
    var e1 := Drain(e, work.reactions);
    DrainIngests(e, work.reactions);
    RunEventsOnlyStack(e1, work.egress);
    IngestsThenRuns(e, e1, RunEvents(e1, work.egress));
  }

  // ---------- What a poll does ----------

  /** The frames the stack transmits in these events, in order. */
  function Frames(evs: seq<StackEvent>): seq<Bytes> {
    if evs == [] then [] else (if evs[0].Transmit? then [evs[0].frame] else []) + Frames(evs[1..])
  }

  /** The events that concern one socket, in order. */
  function EventsFor(h: Handle, evs: seq<StackEvent>): seq<SocketEvent> {
    if evs == [] then []
    else (if evs[0].OnSocket? && evs[0].handle == h then [evs[0].event] else []) + EventsFor(h, evs[1..])
  }

  /** One callback invocation for each frame, with the registered context. */
  function Emissions(callback: Option<Context>, frames: seq<Bytes>): (r: seq<Emission>)
    ensures callback.None? ==> r == []
    ensures callback.Some? ==> |r| == |frames| && forall i | 0 <= i < |r| :: r[i] == Emission(callback.value, frames[i])
  {
    if callback.None? then [] else seq(|frames|, i requires 0 <= i < |frames| => Emission(callback.value, frames[i]))
  }

  /** The reactions to n packets, in order. */
  function Reactions(n: nat, reactions: seq<seq<StackEvent>>): seq<StackEvent> {
    if n == 0 then [] else Head(reactions) + Reactions(n - 1, Tail(reactions))
  }

  /** Between a and b exactly these events took place: every transmitted frame was called
      back once, and every socket took its own events, all in order. */
  ghost predicate Acted(a: Engine, b: Engine, evs: seq<StackEvent>) {
    && b.callback == a.callback && b.sockets.Keys == a.sockets.Keys
    && b.emitted == a.emitted + Emissions(a.callback, Frames(evs))
    && forall h | h in a.sockets :: b.sockets[h] == AbsorbAll(a.sockets[h], EventsFor(h, evs))
  }

  lemma {:induction false} FramesAppend(x: seq<StackEvent>, y: seq<StackEvent>)
    ensures Frames(x + y) == Frames(x) + Frames(y)
  {
    if x == [] {
      assert x + y == y;
    } else {
      var first := if x[0].Transmit? then [x[0].frame] else [];
      assert (x + y)[1..] == x[1..] + y;
      FramesAppend(x[1..], y);
      assert first + (Frames(x[1..]) + Frames(y)) == first + Frames(x[1..]) + Frames(y);
    }
  }

  lemma {:induction false} EventsAppend(h: Handle, x: seq<StackEvent>, y: seq<StackEvent>)
    ensures EventsFor(h, x + y) == EventsFor(h, x) + EventsFor(h, y)
  {
    if x == [] {
      assert x + y == y;
    } else {
      assert (x + y)[1..] == x[1..] + y;
      EventsAppend(h, x[1..], y);
    }
  }

  lemma EmissionsAppend(callback: Option<Context>, x: seq<Bytes>, y: seq<Bytes>)
    ensures Emissions(callback, x + y) == Emissions(callback, x) + Emissions(callback, y)
  {
  }

  lemma SocketActsTwice(k: Socket, h: Handle, x: seq<StackEvent>, y: seq<StackEvent>)
    ensures AbsorbAll(AbsorbAll(k, EventsFor(h, x)), EventsFor(h, y)) == AbsorbAll(k, EventsFor(h, x + y))
  {
    EventsAppend(h, x, y);
    AbsorbAllAppends(k, EventsFor(h, x), EventsFor(h, y));
  }

  lemma ActedTrans(a: Engine, b: Engine, c: Engine, x: seq<StackEvent>, y: seq<StackEvent>)
    requires Acted(a, b, x) && Acted(b, c, y)
    ensures Acted(a, c, x + y)
  {
    hide Frames, Emissions, EventsFor, AbsorbAll;
    FramesAppend(x, y);
    EmissionsAppend(a.callback, Frames(x), Frames(y));
    var (ex, ey) := (Emissions(a.callback, Frames(x)), Emissions(a.callback, Frames(y)));
    assert a.emitted + ex + ey == a.emitted + (ex + ey);
    forall h | h in a.sockets ensures c.sockets[h] == AbsorbAll(a.sockets[h], EventsFor(h, x + y)) {
      SocketActsTwice(a.sockets[h], h, x, y);
    }
  }

  lemma NothingActed(e: Engine, d: Engine)
    requires d == e.(inbound := d.inbound, ingested := d.ingested, wakers := d.wakers)
    ensures Acted(e, d, [])
  {
  }

  lemma OneEventActs(e: Engine, ev: StackEvent)
    ensures Acted(e, RunEvent(e, ev), [ev])
  {
    assert Frames([ev]) == if ev.Transmit? then [ev.frame] else [];
    if ev.OnSocket? {
      assert EventsFor(ev.handle, [ev]) == [ev.event];
      if ev.handle in e.sockets {
        var k := e.sockets[ev.handle];
        assert AbsorbAll(k, [ev.event]) == AbsorbAll(Absorb(k, ev.event), [ev.event][1..]);
      }
    }
  }

  lemma {:induction false} RunEventsAct(e: Engine, evs: seq<StackEvent>)
    ensures Acted(e, RunEvents(e, evs), evs)
    decreases |evs|
  {
    hide Acted, RunEvent;
    if evs == [] {
      NothingActed(e, e);
    } else {
      OneEventActs(e, evs[0]);
      RunEventsAct(RunEvent(e, evs[0]), evs[1..]);
      ActedTrans(e, RunEvent(e, evs[0]), RunEvents(e, evs), [evs[0]], evs[1..]);
      assert [evs[0]] + evs[1..] == evs;
    }
  }

  lemma {:induction false} DrainActs(e: Engine, reactions: seq<seq<StackEvent>>)
    ensures Acted(e, Drain(e, reactions), Reactions(|e.inbound|, reactions))
    decreases |e.inbound|
  {
    hide Acted, RunEvents;
    if e.inbound == [] {
      NothingActed(e, e);
    } else {
      var e1 := Received(e);
      var e2 := RunEvents(e1, Head(reactions));
      NothingActed(e, e1);
      RunEventsAct(e1, Head(reactions));
      RunEventsKeepQueue(e1, Head(reactions));
      DrainActs(e2, Tail(reactions));
      ActedTrans(e, e1, e2, [], Head(reactions));
      assert [] + Head(reactions) == Head(reactions);
      ActedTrans(e, e2, Drain(e2, Tail(reactions)), Head(reactions), Reactions(|e2.inbound|, Tail(reactions)));
    }
  }

  /** A poll does what the stack decides, all of it and in order: the reactions to the queued
      packets first, then the egress. No frame is lost, repeated or changed. */
  lemma PollActs(e: Engine, work: StackWork)
    ensures Acted(e, AfterPoll(e, work), Reactions(|e.inbound|, work.reactions) + work.egress)
  {
    hide Acted, RunEvents, Drain;
    var e1 := Drain(e, work.reactions);
    var e2 := RunEvents(e1, work.egress);
    var evs := Reactions(|e.inbound|, work.reactions) + work.egress;
    DrainActs(e, work.reactions);
    RunEventsAct(e1, work.egress);
    ActedTrans(e, e1, e2, Reactions(|e.inbound|, work.reactions), work.egress);
    NothingActed(e2, e2.(wakers := map[]));
    ActedTrans(e, e2, e2.(wakers := map[]), evs, []);
    assert evs + [] == evs;
  }
}
