/** What holds of every run of the session protocol. */
module SessionTheorems {
  import opened Net
  import opened Sockets
  import opened EngineModel
  import opened Sessions
  import Routing

  /** Some run of the core, from its creation on, ends in `c`. */
  ghost predicate Reaches(acts: seq<Action>, c: Core) {
    Exec(INITIAL, acts) == Some(c)
  }

  lemma ReachedInv(acts: seq<Action>, c: Core)
    requires Reaches(acts, c)
    ensures Inv(c)
  {
    hide Inv;
    InitialInv();
    RunKeepsInv(INITIAL, acts);
  }

  function SocketOf(c: Core, t: TaskId): Socket
    requires t in c.sessions && c.sessions[t].flow.handle in c.engine.sockets
  {
    c.engine.sockets[c.sessions[t].flow.handle]
  }

  // ---------- Ownership and index ----------

  /** Handles are reused, yet a session call never meets an absent or wrong-kind socket, and
      live sockets and live sessions correspond one to one. */
  lemma SocketsAreOwnedOneToOne(acts: seq<Action>, c: Core)
    requires Reaches(acts, c)
    ensures !c.fault.MissingSocket?
    ensures forall t | t in c.sessions ::
              && c.sessions[t].flow.handle in c.engine.sockets
              && (SocketOf(c, t).Udp? <==> c.sessions[t].flow.source.Some?)
              && SocketOf(c, t).local == c.sessions[t].flow.target
    ensures forall t, u | t in c.sessions && u in c.sessions ::
              c.sessions[t].flow.handle == c.sessions[u].flow.handle ==> t == u
    ensures forall h | h in c.engine.sockets :: exists t :: t in c.sessions && c.sessions[t].flow.handle == h
  {
    hide Sound;
    ReachedInv(acts, c);
    NoLookupFails(c);
    SessionsHaveSockets(c);
    SocketsHaveSessions(c);
  }

  lemma NoLookupFails(c: Core)
    requires Sound(c)
    ensures !c.fault.MissingSocket?
  {
  }

  lemma SessionsHaveSockets(c: Core)
    requires Sound(c)
    ensures forall t | t in c.sessions ::
              && c.sessions[t].flow.handle in c.engine.sockets
              && (SocketOf(c, t).Udp? <==> c.sessions[t].flow.source.Some?)
              && SocketOf(c, t).local == c.sessions[t].flow.target
    ensures forall t, u | t in c.sessions && u in c.sessions ::
              c.sessions[t].flow.handle == c.sessions[u].flow.handle ==> t == u
  {
    hide Sound, StreamOk, Attended;
    forall t | t in c.sessions
      ensures c.sessions[t].flow.handle in c.engine.sockets
      ensures FlowFits(c.sessions[t].flow, SocketOf(c, t))
      ensures forall u | u in c.sessions :: c.sessions[t].flow.handle == c.sessions[u].flow.handle ==> t == u
    {
      OwnedSession(c, t);
    }
  }

  lemma SocketsHaveSessions(c: Core)
    requires Sound(c)
    ensures forall h | h in c.engine.sockets :: exists t :: t in c.sessions && c.sessions[t].flow.handle == h
  {
    hide Indexed, Tracked, Streams, Conserved, Counted;
    forall h | h in c.engine.sockets ensures exists t :: t in c.sessions && c.sessions[t].flow.handle == h {
      var t :| t in Flows(c.sessions) && Flows(c.sessions)[t].handle == h;
      assert c.sessions[t].flow.handle == h;
    }
  }

  /** The UDP index is injective, its values are exactly the live UDP sockets, and each live
      UDP session is found under its own source: one session per source. */
  lemma IndexAgreesWithSockets(acts: seq<Action>, c: Core)
    requires Reaches(acts, c)
    ensures forall h :: h in c.engine.udpSessions.Values <==> HasUdp(c.engine, h)
    ensures forall a, b | a in c.engine.udpSessions && b in c.engine.udpSessions ::
              c.engine.udpSessions[a] == c.engine.udpSessions[b] ==> a == b
    ensures forall t | LiveUdp(c, t) ::
              var src := c.sessions[t].flow.source.value;
              src in c.engine.udpSessions && c.engine.udpSessions[src] == c.sessions[t].flow.handle
    ensures forall t, u | LiveUdp(c, t) && LiveUdp(c, u) ::
              c.sessions[t].flow.source == c.sessions[u].flow.source ==> t == u
  {
    SocketsAreOwnedOneToOne(acts, c);
    ReachedInv(acts, c);
    var index := c.engine.udpSessions;
    forall src | src in index
      ensures exists t :: LiveUdp(c, t) && c.sessions[t].flow.source == Some(src)
                && c.sessions[t].flow.handle == index[src]
    {
      var t :| t in Flows(c.sessions) && Serves(Flows(c.sessions)[t], src, index[src]);
      assert LiveUdp(c, t) && c.sessions[t].flow.source == Some(src) && c.sessions[t].flow.handle == index[src];
    }
    forall t | LiveUdp(c, t)
      ensures c.sessions[t].flow.source.value in index
                && index[c.sessions[t].flow.source.value] == c.sessions[t].flow.handle
    {
      assert Flows(c.sessions)[t] == c.sessions[t].flow;
    }
    forall h ensures h in index.Values <==> HasUdp(c.engine, h) {
      if HasUdp(c.engine, h) {
        var t :| t in c.sessions && c.sessions[t].flow.handle == h;
        assert LiveUdp(c, t) && index[c.sessions[t].flow.source.value] in index.Values;
      }
      if h in index.Values {
        var src :| src in index && index[src] == h;
      }
    }
  }

  // ---------- Wakeups ----------

  /** A parked session's own waker is the one stored under its handle, although dropping a
      session leaves its waker behind, handles are reused and both directions share a slot. */
  lemma NoWakeupIsLost(acts: seq<Action>, c: Core)
    requires Reaches(acts, c)
    ensures forall t | t in c.sessions && (c.sessions[t].parkedIn || c.sessions[t].parkedOut) ::
              var h := c.sessions[t].flow.handle;
              h in c.engine.wakers && c.engine.wakers[h] == t
  {
    ReachedInv(acts, c);
    forall t | t in c.sessions ensures HasOwnWaker(c.engine.wakers, t, c.sessions[t]) {
      OwnedSession(c, t);
    }
  }

  lemma ProcessWakes(e: Engine, p: Packet, slot: Handle, work: StackWork)
    requires Process(e, p, slot, work).Ran?
    ensures Process(e, p, slot, work).woken == e.wakers.Values
  {
  }

  /** Processing a packet wakes every parked session, empties the waker map and leaves the
      queue empty; the queue-full branch is not reached. */
  lemma EveryPollWakesAllParked(acts: seq<Action>, c: Core, p: Packet, slot: Handle, work: StackWork)
    requires Reaches(acts, c) && c.started && Enabled(c, ProcessPacket(p, slot, work))
    requires !Admit(c.engine, p, slot).BindPanics?
    ensures var r := Process(c.engine, p, slot, work);
            var d := Next(c, ProcessPacket(p, slot, work));
            && r.Ran?
            && (forall t | t in c.sessions && (c.sessions[t].parkedIn || c.sessions[t].parkedOut) :: t in r.woken)
            && (forall t | t in d.sessions :: !d.sessions[t].parkedIn && !d.sessions[t].parkedOut)
            && d.engine.wakers == map[] && d.engine.inbound == []
  {
    hide Process, Admit, Sound, Next;
    NoWakeupIsLost(acts, c);
    ReachedInv(acts, c);
    ProcessKeepsInv(c, p, slot, work);
    ProcessWakes(c.engine, p, slot, work);
    forall t | t in c.sessions && (c.sessions[t].parkedIn || c.sessions[t].parkedOut)
      ensures t in Process(c.engine, p, slot, work).woken
    {
      assert c.engine.wakers[c.sessions[t].flow.handle] in c.engine.wakers.Values;
    }
  }

  /** A parked session is never overlooked: polled again it would park again, unless it shut
      its own stream down before the handshake; such a session waits for the next packet. */
  lemma ParkedMeansNotReady(acts: seq<Action>, c: Core, t: TaskId)
    requires Reaches(acts, c) && t in c.sessions && c.sessions[t].flow.handle in c.engine.sockets
    ensures var (s, k) := (c.sessions[t], SocketOf(c, t));
            && (k.Tcp? && s.parkedIn && !s.hungUp ==>
                 forall front, room :: PollRead(k, front, room).result.ReadPending?)
            && (k.Tcp? && s.parkedOut && !s.hungUp ==> forall buf :: PollWrite(k, buf).result.WritePending?)
            && (k.Udp? && s.parkedIn ==> forall room :: PollRecvFrom(k, room).result.RecvPending?)
            && (s.hungUp && (s.parkedIn || s.parkedOut) && k.Tcp? && Hung(k.state) ==> k.state == Closed)
  {
    ReachedInv(acts, c);
    OwnedSession(c, t);
  }

  /** The exception, exactly: a session's own shutdown leaves it parked on a read, or on a
      write, that could answer at once if and only if the handshake had not begun. */
  lemma ShutdownStrandsIff(acts: seq<Action>, c: Core, t: TaskId)
    requires Reaches(acts, c) && Enabled(c, Shutdown(t)) && c.sessions[t].flow.handle in c.engine.sockets
    requires !c.sessions[t].hungUp && SocketOf(c, t).Tcp?
    ensures var (d, early) := (Next(c, Shutdown(t)), SocketOf(c, t).state in {Listen, SynSent});
            && HasTcp(d.engine, d.sessions[t].flow.handle)
            && d.sessions[t].parkedIn == c.sessions[t].parkedIn && d.sessions[t].parkedOut == c.sessions[t].parkedOut
            && (c.sessions[t].parkedIn ==> (ReadReady(SocketOf(d, t)) <==> early))
            && (c.sessions[t].parkedOut ==> (WriteReady(SocketOf(d, t)) <==> early))
  {
    ReachedInv(acts, c);
    OwnedSession(c, t);
    ShutdownMakesReadyIff(SocketOf(c, t));
  }

  lemma ExecStep(c: Core, a: Action, rest: seq<Action>)
    requires Enabled(c, a)
    ensures Exec(c, [a] + rest) == Exec(Next(c, a), rest)
  {
    assert ([a] + rest)[1..] == rest;
  }

  lemma {:induction false} ExecAppends(c: Core, acts: seq<Action>, a: Action)
    requires Exec(c, acts).Some? && Enabled(Exec(c, acts).value, a)
    ensures Exec(c, acts + [a]) == Some(Next(Exec(c, acts).value, a))
    decreases |acts|
  {
    hide Next, Enabled;
    if acts == [] {
      ExecStep(c, a, []);
      assert acts + [a] == [a] + [];
    } else {
      ExecAppends(Next(c, acts[0]), acts[1..], a);
      ExecStep(c, acts[0], acts[1..] + [a]);
      assert acts + [a] == [acts[0]] + (acts[1..] + [a]);
    }
  }

  lemma ReachesNext(acts: seq<Action>, c: Core, a: Action)
    requires Reaches(acts, c) && Enabled(c, a)
    ensures Reaches(acts + [a], Next(c, a))
  {
    ExecAppends(INITIAL, acts, a);
  }

  // ---------- Packets ----------

  function OfferedBy(c: Core, a: Action): seq<Packet> {
    if a.ProcessPacket? && c.started && !Admit(c.engine, a.packet, a.slot).BindPanics? then [a.packet] else []
  }

  /** The packets offered by a run's calls while the runtime was started. */
  function Offered(c: Core, acts: seq<Action>): seq<Packet>
    requires Exec(c, acts).Some?
    decreases |acts|
  {
    if acts == [] then [] else OfferedBy(c, acts[0]) + Offered(Next(c, acts[0]), acts[1..])
  }

  lemma StepIngests(c: Core, a: Action)
    requires Inv(c) && Enabled(c, a)
    ensures PacketsOf(Next(c, a).engine.ingested) == PacketsOf(c.engine.ingested) + OfferedBy(c, a)
  {
    hide Sound, Admit;
    if a.ProcessPacket? && c.started {
      var adm := Admit(c.engine, a.packet, a.slot);
      if !adm.BindPanics? {
        AdmitTouchesTables(c.engine, a.packet, a.slot);
        PollIngests(Pushed(Admitted(c.engine, adm), a.packet), a.work);
      }
    }
  }

  lemma {:induction false} RunIngests(c: Core, acts: seq<Action>)
    requires Inv(c) && Exec(c, acts).Some?
    ensures PacketsOf(Exec(c, acts).value.engine.ingested) == PacketsOf(c.engine.ingested) + Offered(c, acts)
    decreases |acts|
  {
    hide Inv, Next, OfferedBy, Enabled;
    if acts != [] {
      NextKeepsInv(c, acts[0]);
      RunIngests(Next(c, acts[0]), acts[1..]);
      StepIngests(c, acts[0]);
    }
  }

  /** Conservation: every offered packet is ingested exactly once, in order, nothing else is,
      and the queue is empty between calls. */
  lemma EveryOfferedPacketIsIngestedOnce(c: Core, acts: seq<Action>)
    requires Inv(c) && Exec(c, acts).Some?
    ensures var d := Exec(c, acts).value;
            && PacketsOf(d.engine.ingested) == PacketsOf(c.engine.ingested) + Offered(c, acts)
            && d.engine.accepted == PacketsOf(d.engine.ingested)
            && d.engine.inbound == []
  {
    hide Inv;
    RunIngests(c, acts);
    RunKeepsInv(c, acts);
    InvConserves(Exec(c, acts).value);
  }

  lemma InvConserves(c: Core)
    requires Inv(c)
    ensures c.engine.inbound == [] && c.engine.accepted == PacketsOf(c.engine.ingested)
  {
    assert PacketsOf(c.engine.ingested) + [] == PacketsOf(c.engine.ingested);
  }

  /** The queue-full branch cannot be reached through the packet call. */
  lemma QueueNeverFull(acts: seq<Action>, c: Core, p: Packet, slot: Handle, work: StackWork)
    requires Reaches(acts, c) && Enabled(c, ProcessPacket(p, slot, work))
    ensures !Process(c.engine, p, slot, work).Dropped?
  {
    ReachedInv(acts, c);
  }

  /** Whenever the stack takes a SYN, a socket listening on its exact destination is already
      there; whenever it takes a UDP datagram, its source already has a live socket. */
  lemma SessionExistsBeforeIngest(acts: seq<Action>, c: Core, i: nat)
    requires Reaches(acts, c) && i < |c.engine.ingested| && c.engine.ingested[i].packet.Ipv4Packet?
    ensures var x := c.engine.ingested[i];
            && (x.packet.transport.TcpSegment? && x.packet.transport.syn && !x.packet.transport.ack ==>
                  exists h :: h in x.sockets && x.sockets[h].Tcp? && x.sockets[h].state == Listen
                              && x.sockets[h].local == IpEndpoint(V4(x.packet.dst), x.packet.transport.dstPort))
            && (x.packet.transport.UdpDatagram? ==>
                  var src := SockV4(x.packet.src, x.packet.transport.srcPort);
                  src in x.udpSessions && x.udpSessions[src] in x.sockets && x.sockets[x.udpSessions[src]].Udp?)
  {
    ReachedInv(acts, c);
    var x := c.engine.ingested[i];
    assert SessionFirst(x);
    if x.packet.transport.TcpSegment? && x.packet.transport.syn && !x.packet.transport.ack {
      var h :| h in x.sockets && Listening(x.sockets[h], x.packet.dst, x.packet.transport.dstPort);
    }
  }

  /** The process aborts exactly when a started core is given a SYN, or a datagram of a new
      source, whose destination port is 0; nothing else faults. */
  lemma FaultsIffBindsPortZero(acts: seq<Action>, c: Core, a: Action)
    requires Reaches(acts, c) && Enabled(c, a)
    ensures !Next(c, a).fault.NoFault?
       <==> c.started && a.ProcessPacket? && a.packet.Ipv4Packet?
            && match a.packet.transport
               case TcpSegment(port, syn, ack) => syn && !ack && port == 0
               case UdpDatagram(srcPort, port) => port == 0 && SockV4(a.packet.src, srcPort) !in c.engine.udpSessions
               case _ => false
  {
    hide Sound;
    ReachedInv(acts, c);
    match a
    case ProcessPacket(p, slot, work) => ProcessKeepsInv(c, p, slot, work);
    case Read(t, _, _) => OwnedSession(c, t);
    case Write(t, _) => OwnedSession(c, t);
    case Shutdown(t) => OwnedSession(c, t);
    case Recv(t, _) => OwnedSession(c, t);
    case Send(t, _, _, _) => OwnedSession(c, t);
    case Finish(t) => OwnedSession(c, t);
    case _ =>
  }

  // ---------- The callback ----------

  /** Until a start succeeds nothing happens at all. */
  lemma NothingBeforeStart(acts: seq<Action>, c: Core)
    requires Reaches(acts, c) && !c.started
    ensures c.engine.inbound == [] && c.engine.sockets == map[] && c.engine.wakers == map[]
    ensures c.engine.udpSessions == map[] && c.sessions == map[] && c.engine.emitted == [] && c.engine.ingested == []
  {
    ReachedInv(acts, c);
  }

  /** A core that is started was started at a moment when a callback was registered. */
  lemma {:induction false} StartedWithCallback(c: Core, acts: seq<Action>)
    requires !c.started && Exec(c, acts).Some? && Exec(c, acts).value.started
    ensures exists i :: 0 <= i < |acts| && acts[i].Start? && Exec(c, acts[..i]).Some?
                        && Exec(c, acts[..i]).value.engine.callback.Some?
    decreases |acts|
  {
    var d := Next(c, acts[0]);
    if d.started {
      assert acts[..0] == [];
      assert acts[0].Start? && Exec(c, acts[..0]) == Some(c) && c.engine.callback.Some?;
    } else {
      StartedWithCallback(d, acts[1..]);
      var j :| 0 <= j < |acts[1..]| && acts[1..][j].Start? && Exec(d, acts[1..][..j]).Some?
               && Exec(d, acts[1..][..j]).value.engine.callback.Some?;
      assert acts[..j + 1] == [acts[0]] + acts[1..][..j];
      ExecStep(c, acts[0], acts[1..][..j]);
      assert acts[j + 1].Start?;
    }
  }

  lemma EmitsNothing(callback: Option<Context>, log: seq<Emission>)
    ensures EmitsOnlyTo(callback, log, log)
  {
  }

  lemma StepEmits(c: Core, a: Action)
    requires Enabled(c, a)
    ensures EmitsOnlyTo(c.engine.callback, c.engine.emitted, Next(c, a).engine.emitted)
    ensures !a.ProcessPacket? || !c.started ==> Next(c, a).engine.emitted == c.engine.emitted
    ensures !a.SetCallback? && !a.ClearCallback? ==> Next(c, a).engine.callback == c.engine.callback
    ensures c.started ==> Next(c, a).started
  {
    hide Admit, Drain, EmitsOnlyTo;
    EmitsNothing(c.engine.callback, c.engine.emitted);
    if a.ProcessPacket? && c.started {
      var adm := Admit(c.engine, a.packet, a.slot);
      if !adm.BindPanics? {
        AdmitTouchesTables(c.engine, a.packet, a.slot);
        PollIngests(Pushed(Admitted(c.engine, adm), a.packet), a.work);
      }
    }
  }

  predicate Registers(a: Action) {
    a.SetCallback? || a.ClearCallback?
  }

  /** Over any stretch of a run without a registration call, every callback invocation
      carries the registered context; with none registered there is no invocation. */
  lemma {:induction false} EmissionsCarryTheContext(c: Core, acts: seq<Action>)
    requires Exec(c, acts).Some? && forall i | 0 <= i < |acts| :: !Registers(acts[i])
    ensures var d := Exec(c, acts).value;
            && EmitsOnlyTo(c.engine.callback, c.engine.emitted, d.engine.emitted)
            && d.engine.callback == c.engine.callback
            && (c.engine.callback.None? ==> d.engine.emitted == c.engine.emitted)
    decreases |acts|
  {
    if acts != [] {
      var c1 := Next(c, acts[0]);
      assert !Registers(acts[0]);
      StepEmits(c, acts[0]);
      assert forall i | 0 <= i < |acts[1..]| :: acts[1..][i] == acts[i + 1];
      EmissionsCarryTheContext(c1, acts[1..]);
    }
  }

  /** From a registration on, and as long as no other follows, its context is called back;
      from a removal on there is no callback and nothing is called back any more, whatever
      happens. A start succeeds exactly with a callback, and none of the three does more. */
  lemma RegistrationsTakeEffect(c: Core, context: Context, acts: seq<Action>)
    requires c.fault.NoFault? && forall i | 0 <= i < |acts| :: !Registers(acts[i])
    ensures var d := Exec(Next(c, SetCallback(context)), acts);
            d.Some? ==>
              && d.value.engine.callback == Some(context)
              && EmitsOnlyTo(Some(context), c.engine.emitted, d.value.engine.emitted)
    ensures var d := Exec(Next(c, ClearCallback), acts);
            d.Some? ==> d.value.engine.callback.None? && d.value.engine.emitted == c.engine.emitted
    ensures Next(c, SetCallback(context)) == c.(engine := Next(c, SetCallback(context)).engine)
    ensures Next(c, ClearCallback) == c.(engine := Next(c, ClearCallback).engine)
    ensures Next(c, ClearCallback).engine.(callback := c.engine.callback) == c.engine
    ensures Next(c, SetCallback(context)).engine.(callback := c.engine.callback) == c.engine
    ensures Next(c, Start) == c.(started := c.started || c.engine.callback.Some?)
  {
    hide EmitsOnlyTo;
    if Exec(Next(c, SetCallback(context)), acts).Some? {
      EmissionsCarryTheContext(Next(c, SetCallback(context)), acts);
    }
    if Exec(Next(c, ClearCallback), acts).Some? {
      EmissionsCarryTheContext(Next(c, ClearCallback), acts);
    }
  }

  /** What the stack did in one action: it runs only for an offered packet. */
  function StackRun(c: Core, a: Action): seq<StackEvent> {
    if OfferedBy(c, a) != [] then Reactions(1, a.work.reactions) + a.work.egress else []
  }

  /** The invocations due in a run: for each action, one for each frame the stack transmitted
      in it, with the context registered at that moment. */
  function DueEmissions(c: Core, acts: seq<Action>): seq<Emission>
    requires Exec(c, acts).Some?
    decreases |acts|
  {
    if acts == [] then []
    else Emissions(c.engine.callback, Frames(StackRun(c, acts[0]))) + DueEmissions(Next(c, acts[0]), acts[1..])
  }

  lemma StepCallsBack(c: Core, a: Action)
    requires Inv(c) && Enabled(c, a)
    ensures Next(c, a).engine.emitted == c.engine.emitted + Emissions(c.engine.callback, Frames(StackRun(c, a)))
    ensures OfferedBy(c, a) != [] ==>
              forall h | h in c.engine.sockets ::
                && h in Next(c, a).engine.sockets
                && Next(c, a).engine.sockets[h] == AbsorbAll(c.engine.sockets[h], EventsFor(h, StackRun(c, a)))
  {
    hide Sound, Admit, AbsorbAll, EventsFor, Reactions, AfterPoll;
    assert Frames([]) == [];
    if OfferedBy(c, a) != [] {
      AdmissionKeepsTables(c.engine, a.packet, a.slot);
      PollActs(Pushed(Admitted(c.engine, Admit(c.engine, a.packet, a.slot)), a.packet), a.work);
    }
  }

  lemma AdmissionKeepsTables(e: Engine, p: Packet, slot: Handle)
    requires !Admit(e, p, slot).BindPanics? && slot !in e.sockets
    ensures var d := Admitted(e, Admit(e, p, slot));
            && d == e.(sockets := d.sockets, udpSessions := d.udpSessions)
            && forall h | h in e.sockets :: h in d.sockets && d.sockets[h] == e.sockets[h]
  {
  }

  /** Every frame the stack transmits in a run is called back exactly once, unchanged, in
      order and with the context registered at the time; nothing else is called back. */
  lemma {:induction false} EveryFrameIsCalledBackOnce(c: Core, acts: seq<Action>)
    requires Inv(c) && Exec(c, acts).Some?
    ensures Exec(c, acts).value.engine.emitted == c.engine.emitted + DueEmissions(c, acts)
    decreases |acts|
  {
    hide Inv, Next, StackRun, Emissions, Frames;
    if acts != [] {
      NextKeepsInv(c, acts[0]);
      StepCallsBack(c, acts[0]);
      EveryFrameIsCalledBackOnce(Next(c, acts[0]), acts[1..]);
    }
  }

  // ---------- Isolation ----------

  predicate SocketCall(a: Action) {
    a.Read? || a.Write? || a.Shutdown? || a.Recv? || a.Send?
  }

  /** Whether the answer to this call is that the caller has to wait. */
  predicate Waits(c: Core, a: Action)
    requires SocketCall(a) && a.task in c.sessions && c.sessions[a.task].flow.handle in c.engine.sockets
    requires SocketOf(c, a.task).Tcp? <==> a.Read? || a.Write? || a.Shutdown?
  {
    match a
    case Read(t, front, room) => PollRead(SocketOf(c, t), front, room).result.ReadPending?
    case Write(t, buf) => PollWrite(SocketOf(c, t), buf).result.WritePending?
    case Recv(t, room) => PollRecvFrom(SocketOf(c, t), room).result.RecvPending?
    case Send(t, data, target, full) => PollSendTo(SocketOf(c, t), data, target, full).result.SendPending?
    case _ => false
  }

  /** A session's call touches its own socket and its own record and nothing else; it stores
      its waker, under its own handle, exactly when it has to wait, and is recorded as parked
      in that direction exactly then. */
  lemma CallsTouchOnlyTheirOwn(acts: seq<Action>, c: Core, a: Action)
    requires Reaches(acts, c) && Enabled(c, a) && SocketCall(a)
    ensures c.sessions[a.task].flow.handle in c.engine.sockets
    ensures SocketOf(c, a.task).Tcp? <==> a.Read? || a.Write? || a.Shutdown?
    ensures var (d, t) := (Next(c, a), a.task);
            var (h, was) := (c.sessions[t].flow.handle, c.sessions[t]);
            && h in d.engine.sockets && t in d.sessions
            && d == c.(engine := c.engine.(sockets := c.engine.sockets[h := d.engine.sockets[h]],
                                           wakers := d.engine.wakers),
                       sessions := c.sessions[t := d.sessions[t]])
            && d.engine.wakers == (if Waits(c, a) then c.engine.wakers[h := t] else c.engine.wakers)
            && d.sessions[t].flow == was.flow
            && d.sessions[t].parkedIn == (if a.Read? || a.Recv? then Waits(c, a) else was.parkedIn)
            && d.sessions[t].parkedOut == (if a.Write? || a.Send? then Waits(c, a) else was.parkedOut)
  {
    hide Sound, PollRead, PollWrite, PollRecvFrom, PollSendTo, PollShutdown;
    ReachedInv(acts, c);
    OwnedSession(c, a.task);
  }

  /** The end of a session removes its socket, its record and, for UDP, the one index entry
      of its source, and nothing else; its waker, if one is stored, stays behind. */
  lemma FinishTouchesOnlyItsOwn(acts: seq<Action>, c: Core, t: TaskId)
    requires Reaches(acts, c) && Enabled(c, Finish(t))
    ensures var (d, flow) := (Next(c, Finish(t)), c.sessions[t].flow);
            && d == c.(engine := c.engine.(sockets := c.engine.sockets - {flow.handle},
                                           udpSessions := d.engine.udpSessions),
                       sessions := c.sessions - {t}, finished := c.finished + 1)
            && d.engine.udpSessions == (if flow.source.Some? then c.engine.udpSessions - {flow.source.value}
                                        else c.engine.udpSessions)
  {
    hide Sound;
    ReachedInv(acts, c);
    OwnedSession(c, t);
    IndexAgreesWithSockets(acts, c);
  }

  // ---------- Teardown ----------

  function FinishCount(acts: seq<Action>): nat {
    if acts == [] then 0 else (if acts[0].Finish? then 1 else 0) + FinishCount(acts[1..])
  }

  lemma StepCounts(c: Core, a: Action)
    requires Inv(c) && Enabled(c, a)
    ensures Next(c, a).finished == c.finished + FinishCount([a])
    ensures !a.ProcessPacket? ==> Next(c, a).spawned == c.spawned
  {
    hide Process;
    assert FinishCount([a][1..]) == 0;
    StepKeepsFlows(c, a);
    if a.Finish? { OwnedSession(c, a.task); }
  }

  lemma {:induction false} RunCounts(c: Core, acts: seq<Action>)
    requires Inv(c) && Exec(c, acts).Some?
    ensures Exec(c, acts).value.finished == c.finished + FinishCount(acts)
    ensures (forall i | 0 <= i < |acts| :: !acts[i].ProcessPacket?) ==> Exec(c, acts).value.spawned == c.spawned
    decreases |acts|
  {
    hide Inv;
    if acts != [] {
      StepCounts(c, acts[0]);
      NextKeepsInv(c, acts[0]);
      RunCounts(Next(c, acts[0]), acts[1..]);
      assert FinishCount([acts[0]][1..]) == 0;
      assert forall i | 0 <= i < |acts[1..]| :: acts[1..][i] == acts[i + 1];
    }
  }

  lemma EmptyIndex(flows: map<TaskId, Flow>, index: map<SocketAddr, Handle>)
    requires flows == map[] && Indexed(flows, index)
    ensures index == map[]
  {
    assert forall src :: src !in index;
  }

  /** Sockets added minus sockets removed is the number of live sockets, and they are gone,
      with their index, exactly when every spawned session has finished. */
  lemma SocketsBalance(acts: seq<Action>, c: Core)
    requires Reaches(acts, c)
    ensures c.spawned - FinishCount(acts) == |c.engine.sockets|
    ensures c.engine.sockets == map[] <==> c.spawned == FinishCount(acts)
    ensures c.engine.sockets == map[] ==> c.engine.udpSessions == map[] && c.sessions == map[]
  {
    ReachedInv(acts, c);
    InitialInv();
    RunCounts(INITIAL, acts);
    assert |c.engine.sockets.Keys| == |c.engine.sockets|;
    SocketsAreOwnedOneToOne(acts, c);
    IndexAgreesWithSockets(acts, c);
    if c.sessions == map[] { EmptyIndex(Flows(c.sessions), c.engine.udpSessions); }
  }

  /** Teardown drains: whatever else happens, packets and polls included, the sessions left
      are those there were and those opened, less the drops; and nothing at all is left
      exactly when the drops have taken them all. */
  lemma TeardownDrains(c: Core, acts: seq<Action>)
    requires Inv(c) && Exec(c, acts).Some?
    ensures var d := Exec(c, acts).value;
            && |d.sessions| == |c.sessions| + (d.spawned - c.spawned) - FinishCount(acts)
            && (FinishCount(acts) == |c.sessions| + (d.spawned - c.spawned) <==> d.engine.sockets == map[])
            && (d.engine.sockets == map[] ==> d.engine.udpSessions == map[] && d.sessions == map[])
            && ((forall i | 0 <= i < |acts| :: !acts[i].ProcessPacket?) ==> d.spawned == c.spawned)
  {
    var d := Exec(c, acts).value;
    RunCounts(c, acts);
    RunKeepsInv(c, acts);
    assert |d.sessions| == |d.sessions.Keys| && |c.sessions| == |c.sessions.Keys|;
    assert |d.engine.sockets| == |d.engine.sockets.Keys|;
    if d.sessions == map[] { EmptyIndex(Flows(d.sessions), d.engine.udpSessions); }
  }

  function Finishes(order: seq<TaskId>): seq<Action> {
    if order == [] then [] else [Finish(order[0])] + Finishes(order[1..])
  }

  /** Nor can a teardown get stuck: the live sessions may be dropped in any order. */
  lemma {:induction false} AnyFinishOrderRuns(c: Core, order: seq<TaskId>)
    requires Inv(c) && c.fault.NoFault?
    requires forall i | 0 <= i < |order| :: order[i] in c.sessions
    requires forall i, j | 0 <= i < j < |order| :: order[i] != order[j]
    ensures Exec(c, Finishes(order)).Some?
    decreases |order|
  {
    hide Inv, Next;
    if order != [] {
      FinishKeepsInv(c, order[0]);
      AnyFinishOrderRuns(Next(c, Finish(order[0])), order[1..]);
      ExecStep(c, Finish(order[0]), Finishes(order[1..]));
    }
  }

  // ---------- Routing ----------

  /** A session's socket, source, destination and handler are fixed for its whole life, and
      a finished task never comes back. */
  lemma {:induction false} FlowIsForLife(c: Core, acts: seq<Action>, t: TaskId)
    requires Inv(c) && Exec(c, acts).Some? && t < c.nextTask && t in Exec(c, acts).value.sessions
    ensures t in c.sessions && Exec(c, acts).value.sessions[t].flow == c.sessions[t].flow
    decreases |acts|
  {
    hide Inv, Next, Enabled;
    if acts != [] {
      NextKeepsInv(c, acts[0]);
      StepKeepsFlows(c, acts[0]);
      FlowIsForLife(Next(c, acts[0]), acts[1..], t);
    }
  }

  /** Which packets create a session: a SYN without ACK, or a datagram whose source has none. */
  predicate Creates(e: Engine, p: Packet) {
    p.Ipv4Packet?
    && match p.transport
       case TcpSegment(_, syn, ack) => syn && !ack
       case UdpDatagram(srcPort, _) => SockV4(p.src, srcPort) !in e.udpSessions
       case _ => false
  }

  lemma SpawnedFlow(e: Engine, p: Packet, slot: Handle, work: StackWork)
    ensures var r := Process(e, p, slot, work);
            !r.Aborted? ==>
              && (r.flow.Some? <==> Creates(e, p))
              && (r.flow.Some? ==>
                    && r.flow.value.target.addr == V4(p.dst) && r.flow.value.handle == slot
                    && (p.transport.TcpSegment? ==>
                          r.flow.value.source.None? && r.flow.value.target.port == p.transport.dstPort)
                    && (p.transport.UdpDatagram? ==> r.flow.value.source == Some(SockV4(p.src, p.transport.srcPort))
                                                     && r.flow.value.target.port == p.transport.udpDstPort))
  {
  }

  /** The creating packet decides: a call creates a session exactly for those packets, with
      the packet's destination and, for UDP, its source; and it ends no session. */
  lemma PacketCreatesItsSession(c: Core, p: Packet, slot: Handle, work: StackWork)
    requires Inv(c) && Enabled(c, ProcessPacket(p, slot, work)) && c.started
    requires Next(c, ProcessPacket(p, slot, work)).fault.NoFault?
    ensures var d := Next(c, ProcessPacket(p, slot, work));
            && c.sessions.Keys <= d.sessions.Keys
            && (c.nextTask in d.sessions <==> Creates(c.engine, p))
            && (c.nextTask in d.sessions ==>
                  var f := d.sessions[c.nextTask].flow;
                  && f.handle == slot && f.target.addr == V4(p.dst)
                  && (p.transport.UdpDatagram? ==> f.source == Some(SockV4(p.src, p.transport.srcPort))
                                                   && f.target.port == p.transport.udpDstPort)
                  && (p.transport.TcpSegment? ==> f.source.None? && f.target.port == p.transport.dstPort))
  {
    hide Sound, Process;
    TasksAreOld(c);
    ProcessKeepsFlows(c, p, slot, work);
    SpawnedFlow(c.engine, p, slot, work);
  }

  // ---------- The packet that opened a session ----------

  lemma {:induction false} ExecSplit(c: Core, a: seq<Action>, b: seq<Action>)
    requires Exec(c, a + b).Some?
    ensures Exec(c, a).Some? && Exec(c, a + b) == Exec(Exec(c, a).value, b)
    decreases |a|
  {
    hide Next, Enabled;
    if a == [] {
      assert a + b == b;
    } else {
      assert (a + b)[1..] == a[1..] + b;
      ExecSplit(Next(c, a[0]), a[1..], b);
    }
  }

  /** Action i of the run is the one at which task t appears. */
  ghost predicate OpenedAt(acts: seq<Action>, i: nat, t: TaskId) {
    && i < |acts|
    && Exec(INITIAL, acts[..i]).Some? && t !in Exec(INITIAL, acts[..i]).value.sessions
    && Exec(INITIAL, acts[..i + 1]).Some? && t in Exec(INITIAL, acts[..i + 1]).value.sessions
  }

  /** A packet that opens a session with this flow. */
  predicate Opens(p: Packet, f: Flow) {
    && p.Ipv4Packet? && f.target.addr == V4(p.dst)
    && match p.transport
       case TcpSegment(port, syn, ack) => syn && !ack && f.source.None? && f.target.port == port
       case UdpDatagram(srcPort, port) => f.source == Some(SockV4(p.src, srcPort)) && f.target.port == port
       case _ => false
  }

  lemma PrefixOfRun(acts: seq<Action>, n: nat)
    requires n <= |acts| && Exec(INITIAL, acts).Some?
    ensures Exec(INITIAL, acts[..n]).Some? && Exec(INITIAL, acts) == Exec(Exec(INITIAL, acts[..n]).value, acts[n..])
  {
    assert acts == acts[..n] + acts[n..];
    ExecSplit(INITIAL, acts[..n], acts[n..]);
  }

  lemma OneMoreStep(acts: seq<Action>, n: nat)
    requires n < |acts| && Exec(INITIAL, acts).Some?
    ensures Exec(INITIAL, acts[..n]).Some? && Enabled(Exec(INITIAL, acts[..n]).value, acts[n])
    ensures Exec(INITIAL, acts[..n + 1]) == Some(Next(Exec(INITIAL, acts[..n]).value, acts[n]))
  {
    hide Next, Enabled;
    PrefixOfRun(acts, n + 1);
    assert acts[..n + 1] == acts[..n] + [acts[n]];
    ExecSplit(INITIAL, acts[..n], [acts[n]]);
    assert [acts[n]][1..] == [];
  }

  lemma {:induction false} OpenedBefore(acts: seq<Action>, n: nat, t: TaskId)
    requires n <= |acts| && Exec(INITIAL, acts).Some?
    requires Exec(INITIAL, acts[..n]).Some? && t in Exec(INITIAL, acts[..n]).value.sessions
    ensures exists i: nat :: OpenedAt(acts, i, t)
  {
    hide Next, Enabled;
    if n > 0 {
      OneMoreStep(acts, n - 1);
      if t in Exec(INITIAL, acts[..n - 1]).value.sessions {
        OpenedBefore(acts, n - 1, t);
      } else {
        assert OpenedAt(acts, n - 1, t);
      }
    }
  }

  /** A task that appears in a step appears with the packet of that step. */
  lemma AppearsWithItsPacket(c: Core, a: Action, t: TaskId)
    requires Inv(c) && Enabled(c, a) && t !in c.sessions && t in Next(c, a).sessions
    ensures a.ProcessPacket? && Opens(a.packet, Next(c, a).sessions[t].flow)
    ensures t < Next(c, a).nextTask
  {
    hide Sound, Process;
    assert a.ProcessPacket?;
    NextKeepsInv(c, a);
    TasksAreOld(Next(c, a));
    StepKeepsFlows(c, a);
    SpawnedFlow(c.engine, a.packet, a.slot, a.work);
    ProcessKeepsFlows(c, a.packet, a.slot, a.work);
  }

  /** Every live session of a run was opened by one of the packets offered in that run: its
      source, its destination and its kind are those of that packet. */
  lemma EverySessionHasItsPacket(acts: seq<Action>, c: Core, t: TaskId)
    requires Reaches(acts, c) && t in c.sessions
    ensures exists i: nat :: OpenedAt(acts, i, t)
    ensures forall i: nat | OpenedAt(acts, i, t) ::
              acts[i].ProcessPacket? && Opens(acts[i].packet, c.sessions[t].flow)
  {
    hide Next, Enabled, Inv;
    assert acts[..|acts|] == acts;
    OpenedBefore(acts, |acts|, t);
    forall i: nat | OpenedAt(acts, i, t)
      ensures acts[i].ProcessPacket? && Opens(acts[i].packet, c.sessions[t].flow)
    {
      var b := Exec(INITIAL, acts[..i]).value;
      OneMoreStep(acts, i);
      PrefixOfRun(acts, i + 1);
      ReachedInv(acts[..i], b);
      NextKeepsInv(b, acts[i]);
      AppearsWithItsPacket(b, acts[i], t);
      FlowIsForLife(Next(b, acts[i]), acts[i + 1..], t);
    }
  }

  /** Action i opened the live UDP session of this source. */
  ghost predicate OpenedFor(acts: seq<Action>, c: Core, src: SocketAddr, t: TaskId, i: nat) {
    LiveUdp(c, t) && c.sessions[t].flow.source == Some(src) && OpenedAt(acts, i, t)
  }

  /** Two datagrams with one destination. */
  predicate SameDestination(a: Action, p: Packet)
    requires p.Ipv4Packet? && p.transport.UdpDatagram?
  {
    && a.ProcessPacket? && a.packet.Ipv4Packet? && a.packet.transport.UdpDatagram?
    && a.packet.dst == p.dst && a.packet.transport.udpDstPort == p.transport.udpDstPort
  }

  lemma SourceWasOpened(acts: seq<Action>, c: Core, src: SocketAddr)
    requires Reaches(acts, c)
    ensures src in c.engine.udpSessions <==> exists t, i: nat :: OpenedFor(acts, c, src, t, i)
  {
    hide OpenedAt, Exec;
    IndexAgreesWithSockets(acts, c);
    if src in c.engine.udpSessions {
      var t := IndexedSession(acts, c, src);
      EverySessionHasItsPacket(acts, c, t);
      var i: nat :| OpenedAt(acts, i, t);
      assert OpenedFor(acts, c, src, t, i);
    }
  }

  lemma IndexedSession(acts: seq<Action>, c: Core, src: SocketAddr) returns (t: TaskId)
    requires Reaches(acts, c) && src in c.engine.udpSessions
    ensures LiveUdp(c, t) && c.sessions[t].flow.source == Some(src)
    ensures c.sessions[t].flow.handle == c.engine.udpSessions[src]
  {
    ReachedInv(acts, c);
    t :| t in Flows(c.sessions) && Serves(Flows(c.sessions)[t], src, c.engine.udpSessions[src]);
  }

  /** A UDP session is bound once, by the datagram that opened it. After a datagram has been
      admitted, its source's socket is bound to its destination if and only if the datagram
      that opened the source's live session, where there was one, had that destination. */
  lemma UdpBoundHereIff(acts: seq<Action>, c: Core, p: Packet, slot: Handle)
    requires Reaches(acts, c) && slot !in c.engine.sockets
    requires p.Ipv4Packet? && p.transport.UdpDatagram? && !Admit(c.engine, p, slot).BindPanics?
    ensures var (e, src) := (Admitted(c.engine, Admit(c.engine, p, slot)), SockV4(p.src, p.transport.srcPort));
            && src in e.udpSessions && HasUdp(e, e.udpSessions[src])
            && (src in c.engine.udpSessions <==> exists t, i: nat :: OpenedFor(acts, c, src, t, i))
            && (e.sockets[e.udpSessions[src]].local == IpEndpoint(V4(p.dst), p.transport.udpDstPort)
                <==> forall t, i: nat | OpenedFor(acts, c, src, t, i) :: SameDestination(acts[i], p))
  {
    hide Reaches, Exec;
    var src := SockV4(p.src, p.transport.srcPort);
    SourceWasOpened(acts, c, src);
    if src in c.engine.udpSessions {
      var u := IndexedSession(acts, c, src);
      SocketsAreOwnedOneToOne(acts, c);
      IndexAgreesWithSockets(acts, c);
      forall t, i: nat | OpenedFor(acts, c, src, t, i)
        ensures t == u && acts[i].ProcessPacket? && Opens(acts[i].packet, c.sessions[t].flow)
      {
        EverySessionHasItsPacket(acts, c, t);
      }
    }
  }

  /** A session runs the direct handler exactly when the destination of the packet that
      opened it lies in one of the five private blocks. */
  lemma DirectIffPrivateBlock(acts: seq<Action>, c: Core, t: TaskId)
    requires Reaches(acts, c) && t in c.sessions
    ensures exists i: nat :: OpenedAt(acts, i, t)
    ensures forall i: nat | OpenedAt(acts, i, t) ::
              && acts[i].ProcessPacket? && acts[i].packet.Ipv4Packet?
              && (c.sessions[t].flow.direct <==> Routing.InDirectBlock(acts[i].packet.dst))
    ensures var f := c.sessions[t].flow;
            && f.target.addr.V4?
            && (f.direct <==> Routing.InDirectBlock(f.target.addr.v4))
  {
    hide OpenedAt, Sound;
    EverySessionHasItsPacket(acts, c, t);
    ReachedInv(acts, c);
    OwnedSession(c, t);
    Routing.PrivateIffInOneBlock(c.sessions[t].flow.target.addr.v4);
  }
}
