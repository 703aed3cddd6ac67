/** Concrete runs, from a new core on, for the properties the code does not have. */
module Witnesses {
  import opened Net
  import opened Sockets
  import opened EngineModel
  import opened Sessions
  import opened SessionTheorems
  import P = Provider

  const SYN := Ipv4Packet(1, 2, TcpSegment(80, true, false), [])
  const SEGMENT := Ipv4Packet(1, 2, TcpSegment(80, false, true), [])  // a later one of that connection
  const HERE := IpEndpoint(V4(2), 80)

  /** A started core whose only session, task 0, has socket `k`. */
  ghost predicate Solo(c: Core, k: Socket) {
    && c.started && c.fault.NoFault?
    && c.sessions.Keys == {0} && LiveTcp(c, 0) && c.sessions[0].flow.handle == 0
    && c.engine.sockets == map[0 := k] && k.Tcp?
    && c.engine.inbound == []
  }

  /** Taking one packet, with at most one event as the reaction, is just that event. */
  lemma QuietPoll(e: Engine, p: Packet, reaction: seq<StackEvent>)
    requires e.inbound == [p] && |reaction| <= 1
    ensures InterfacePolled(e, StackWork([reaction], []))
         == if reaction == [] then Received(e) else RunEvent(Received(e), reaction[0])
  {
    var e1 := Received(e);
    var e2 := RunEvents(e1, reaction);
    RunEventsKeepQueue(e1, reaction);
    assert Drain(e2, []) == e2 && Drain(e, [reaction]) == e2 && RunEvents(e2, []) == e2;
    if reaction != [] {
      assert reaction[1..] == [] && RunEvents(RunEvent(e1, reaction[0]), []) == RunEvent(e1, reaction[0]);
    }
  }

  /** A core that was given a callback and started, and has seen nothing yet. */
  lemma StartReaches() returns (acts: seq<Action>, c: Core)
    ensures Reaches(acts, c)
    ensures c == INITIAL.(engine := EMPTY_ENGINE.(callback := Some(7)), started := true)
  {
    var c1 := Next(INITIAL, SetCallback(7));
    assert Reaches([], INITIAL);
    ReachesNext([], INITIAL, SetCallback(7));
    ReachesNext([] + [SetCallback(7)], c1, Start);
    acts, c := [] + [SetCallback(7)] + [Start], Next(c1, Start);
  }

  /** One packet, and the stack's reaction to it. */
  function Given(p: Packet, slot: Handle, reaction: seq<StackEvent>): Action {
    ProcessPacket(p, slot, StackWork([reaction], []))
  }

  /** A SYN opens session 0, and the stack takes it to SYN-RECEIVED. */
  lemma SynReaches() returns (acts: seq<Action>, c: Core)
    ensures Reaches(acts, c) && Solo(c, Absorb(NewTcp(HERE), Move(SynReceived)))
    ensures c.nextTask == 1
  {
    var acts0, c0 := StartReaches();
    var reaction := [OnSocket(0, Move(SynReceived))];
    var a := Given(SYN, 0, reaction);
    ReachesNext(acts0, c0, a);
    acts, c := acts0 + [a], Next(c0, a);
    var e := Admitted(c0.engine, Admit(c0.engine, SYN, 0));
    assert Pushed(e, SYN).inbound == [SYN];
    QuietPoll(Pushed(e, SYN), SYN, reaction);
    assert c.engine.sockets == map[0 := Absorb(NewTcp(HERE), Move(SynReceived))];
  }

  /** Task 1 has not polled yet and its socket listens. */
  ghost predicate Unanswered(c: Core) {
    && c.fault.NoFault? && LiveTcp(c, 1) && c.sessions[1].flow.handle == 1
    && 1 in c.engine.sockets && c.engine.sockets[1] == NewTcp(HERE)
  }

  /** The same SYN once more: it opens session 1, but belongs to the connection of session 0,
      so that the new socket stays in LISTEN. */
  lemma RepeatedSynReaches() returns (acts: seq<Action>, c: Core)
    ensures Reaches(acts, c) && Unanswered(c)
  {
    var acts0, c0 := SynReaches();
    var a := Given(SYN, 1, []);
    ReachesNext(acts0, c0, a);
    acts, c := acts0 + [a], Next(c0, a);
    var e := Admitted(c0.engine, Admit(c0.engine, SYN, 1));
    assert Pushed(e, SYN).inbound == [SYN];
    QuietPoll(Pushed(e, SYN), SYN, []);
  }

  function Tick(ev: SocketEvent): Action {
    Given(SEGMENT, 1, [OnSocket(0, ev)])
  }

  /** One event of the stack, brought about by a segment of the connection. */
  lemma StackStep(acts0: seq<Action>, c0: Core, k: Socket, ev: SocketEvent) returns (acts: seq<Action>, c: Core)
    requires Reaches(acts0, c0) && Solo(c0, k)
    ensures Reaches(acts, c) && Solo(c, Absorb(k, ev)) && acts == acts0 + [Tick(ev)]
  {
    var a := Tick(ev);
    ReachesNext(acts0, c0, a);
    acts, c := acts0 + [a], Next(c0, a);
    var e := Pushed(c0.engine, SEGMENT);
    assert e.inbound == [SEGMENT];
    QuietPoll(e, SEGMENT, [OnSocket(0, ev)]);
    assert c.engine.sockets == map[0 := Absorb(k, ev)];
    AbsorbEvolves(k, ev);
  }

  /** One call of the session, as the socket sees it. */
  function AfterCall(k: Socket, a: Action): Socket
    requires k.Tcp?
  {
    match a
    case Shutdown(_) => PollShutdown(k)
    case Write(_, buf) => PollWrite(k, buf).socket
    case Read(_, front, room) => PollRead(k, front, room).socket
    case _ => k
  }

  lemma SoloCalled(c: Core, k: Socket, e: Engine, s: Session, l: Socket)
    requires Solo(c, k) && s.flow == c.sessions[0].flow && l.Tcp?
    requires e == c.engine.(sockets := c.engine.sockets[0 := l], wakers := e.wakers)
    ensures Solo(Called(c, 0, e, s), l)
  {
  }

  lemma SessionStep(acts0: seq<Action>, c0: Core, k: Socket, a: Action) returns (acts: seq<Action>, c: Core)
    requires Reaches(acts0, c0) && Solo(c0, k)
    requires a.Shutdown? || a.Write? || a.Read?
    requires a.task == 0
    ensures Reaches(acts, c) && c == Next(c0, a) && Solo(c, AfterCall(k, a))
  {
    hide Process, Reaches;
    ReachesNext(acts0, c0, a);
    acts, c := acts0 + [a], Next(c0, a);
    SoloCalled(c0, k, c.engine, c.sessions[0], AfterCall(k, a));
  }

  lemma EstablishedReaches() returns (acts: seq<Action>, c: Core, k: Socket)
    ensures Reaches(acts, c) && Solo(c, k) && k.Tcp? && k.state == Established && k.rx == [] && k.tx == []
  {
    hide Solo, Reaches;
    acts, c := SynReaches();
    k := Absorb(NewTcp(HERE), Move(SynReceived));
    acts, c := StackStep(acts, c, k, Move(Established));
    k := Absorb(k, Move(Established));
  }

  lemma HalfClosedReaches() returns (acts: seq<Action>, c: Core, k: Socket)
    ensures Reaches(acts, c) && Solo(c, k) && k.Tcp? && k.state == FinWait1 && k.rx == []
  {
    hide Solo, Reaches, Next;
    acts, c, k := EstablishedReaches();
    acts, c := SessionStep(acts, c, k, Shutdown(0));
    k := PollShutdown(k);
  }

  /** A run ends with a reader parked before the handshake that shut its own stream down: its
      read would answer end of file, but nothing wakes it before the next packet. */
  lemma StrandedReaderIsReachable()
    ensures exists acts, c :: Reaches(acts, c) && LiveTcp(c, 1) && c.sessions[1].parkedIn
              && HasTcp(c.engine, c.sessions[1].flow.handle) && AnswersEof(SocketOf(c, 1), 1, 1)
  {
    var acts, c := RepeatedSynReaches();
    var acts2, d := ThenShutsDown(acts, c, Read(1, 1, 1));
    assert Reaches(acts2, d) && LiveTcp(d, 1) && d.sessions[1].parkedIn;
  }

  /** The same happens to a writer: its write would be refused at once, yet it stays parked. */
  lemma StrandedWriterIsReachable()
    ensures exists acts, c :: Reaches(acts, c) && LiveTcp(c, 1) && c.sessions[1].parkedOut
              && HasTcp(c.engine, c.sessions[1].flow.handle) && PollWrite(SocketOf(c, 1), [1]).result.BrokenPipe?
  {
    var acts, c := RepeatedSynReaches();
    var acts2, d := ThenShutsDown(acts, c, Write(1, [1]));
    assert Reaches(acts2, d) && LiveTcp(d, 1) && d.sessions[1].parkedOut;
  }

  lemma ThenShutsDown(acts0: seq<Action>, c0: Core, a: Action) returns (acts: seq<Action>, c: Core)
    requires Reaches(acts0, c0) && Unanswered(c0) && (a == Read(1, 1, 1) || a == Write(1, [1]))
    ensures Reaches(acts, c) && LiveTcp(c, 1) && c.sessions[1].flow.handle == 1
    ensures c.engine.sockets == c0.engine.sockets[1 := NewTcp(HERE).(state := Closed)]
    ensures a.Read? ==> c.sessions[1].parkedIn
    ensures a.Write? ==> c.sessions[1].parkedOut
  {
    hide Reaches, Process;
    var c1 := Next(c0, a);
    ReachesNext(acts0, c0, a);
    ReachesNext(acts0 + [a], c1, Shutdown(1));
    acts, c := acts0 + [a] + [Shutdown(1)], Next(c1, Shutdown(1));
  }

  /** A session shuts down, its peer finishes, everything was read: in TIME-WAIT the reader is
      not told that the peer has finished, it parks. */
  lemma TimeWaitHidesEof()
    ensures exists acts, c :: Reaches(acts, c) && LiveTcp(c, 0) && HasTcp(c.engine, c.sessions[0].flow.handle)
              && SocketOf(c, 0).rx == [] && PeerFinished(SocketOf(c, 0).state)
              && Enabled(c, Read(0, 1, 1)) && Next(c, Read(0, 1, 1)).sessions[0].parkedIn
  {
    var acts, c, k := HalfClosedReaches();
    acts, c := StackStep(acts, c, k, Move(FinWait2));
    k := Absorb(k, Move(FinWait2));
    acts, c := StackStep(acts, c, k, Move(TimeWait));
    assert Reaches(acts, c) && Solo(c, k.(state := TimeWait));
    assert Next(c, Read(0, 1, 1)).sessions[0].parkedIn;
  }

  /** A session fills its send buffer, the peer half-closes: the connection may still send,
      and the next write is refused instead of parking. */
  lemma FullCloseWaitRefusesWrites()
    ensures exists acts, c :: Reaches(acts, c) && LiveTcp(c, 0) && HasTcp(c.engine, c.sessions[0].flow.handle)
              && MaySend(SocketOf(c, 0)) && PollWrite(SocketOf(c, 0), [1]).result.BrokenPipe?
  {
    var acts, c, k := EstablishedReaches();
    var buf: Bytes := seq(TCP_BUFFER, _ => 0);
    acts, c := SessionStep(acts, c, k, Write(0, buf));
    k := PollWrite(k, buf).socket;
    assert buf[..TCP_BUFFER] == buf && |k.tx| == TCP_BUFFER;
    acts, c := StackStep(acts, c, k, Move(CloseWait));
    assert Reaches(acts, c) && Solo(c, k.(state := CloseWait));
  }

  /** Both sides close at once: the reader is told end of file in CLOSING, and one step of the
      stack later, in TIME-WAIT, the same read parks. */
  lemma EndOfFileIsTakenBack()
    ensures exists acts, c, later, d :: Reaches(acts, c) && Reaches(acts + later, d)
              && LiveTcp(c, 0) && HasTcp(c.engine, c.sessions[0].flow.handle) && AnswersEof(SocketOf(c, 0), 1, 1)
              && LiveTcp(d, 0) && HasTcp(d.engine, d.sessions[0].flow.handle)
              && PollRead(SocketOf(d, 0), 1, 1).result.ReadPending?
  {
    var acts, c, k := HalfClosedReaches();
    acts, c := StackStep(acts, c, k, Move(Closing));
    k := Absorb(k, Move(Closing));
    assert AnswersEof(SocketOf(c, 0), 1, 1);
    var acts1, d := StackStep(acts, c, k, Move(TimeWait));
    assert Reaches(acts + [Tick(Move(TimeWait))], d) && Solo(d, k.(state := TimeWait));
  }

  // ---------- UDP ----------

  const CLIENT := SockV4(1, 5)
  const FIRST := Ipv4Packet(1, 0x0A00_0001, UdpDatagram(5, 53), [])   // to 10.0.0.1
  const SECOND := Ipv4Packet(1, 0x0A00_0002, UdpDatagram(5, 53), [])  // to 10.0.0.2
  const FIRST_TARGET := IpEndpoint(V4(0x0A00_0001), 53)

  lemma DatagramReaches() returns (acts: seq<Action>, c: Core)
    ensures Reaches(acts, c) && c.fault.NoFault? && c.started
    ensures LiveUdp(c, 0) && c.sessions[0].flow == Flow(0, Some(CLIENT), FIRST_TARGET, true)
    ensures c.engine.sockets == map[0 := NewUdp(FIRST_TARGET)] && c.engine.udpSessions == map[CLIENT := 0]
  {
    var acts0, c0 := StartReaches();
    var a := Given(FIRST, 0, []);
    ReachesNext(acts0, c0, a);
    acts, c := acts0 + [a], Next(c0, a);
    var e := Admitted(c0.engine, Admit(c0.engine, FIRST, 0));
    assert Pushed(e, FIRST).inbound == [FIRST];
    QuietPoll(Pushed(e, FIRST), FIRST, []);
  }

  lemma ReplyIsQueued(c: Core)
    requires c.fault.NoFault? && LiveUdp(c, 0) && c.sessions[0].flow == Flow(0, Some(CLIENT), FIRST_TARGET, true)
    requires c.engine.sockets == map[0 := NewUdp(FIRST_TARGET)]
    ensures var a := Send(0, [9], EndpointToSocketAddr(FIRST_TARGET), false);
            && Enabled(c, a) && LiveUdp(Next(c, a), 0)
            && Next(c, a).sessions[0].flow == c.sessions[0].flow
            && HasUdp(Next(c, a).engine, 0)
            && Next(c, a).engine.sockets[0].queued == [Datagram(FIRST_TARGET, [9])]
  {
  }

  /** A direct session queues a reply for its client that is addressed to the server. */
  lemma DirectReplyMissesTheClient()
    ensures exists acts, c :: Reaches(acts, c) && LiveUdp(c, 0) && c.sessions[0].flow.direct
              && HasUdp(c.engine, c.sessions[0].flow.handle) && SocketOf(c, 0).queued != []
              && EndpointToSocketAddr(SocketOf(c, 0).queued[0].peer) != c.sessions[0].flow.source.value
  {
    hide Next, Enabled, Reaches;
    var acts, c := DatagramReaches();
    var a := Send(0, [9], EndpointToSocketAddr(FIRST_TARGET), false);
    ReplyIsQueued(c);
    ReachesNext(acts, c, a);
    var d := Next(c, a);
    assert SocketOf(d, 0) == d.engine.sockets[0];
    assert Reaches(acts + [a], d) && LiveUdp(d, 0) && d.sessions[0].flow.direct;
  }

  /** The second destination of a client gets no socket: the client's is bound to the first. */
  lemma SecondDestinationIsNotBound()
    ensures exists acts, c :: Reaches(acts, c) && c.started && Admit(c.engine, SECOND, 1) == Unchanged
              && CLIENT in c.engine.udpSessions && HasUdp(c.engine, c.engine.udpSessions[CLIENT])
              && c.engine.sockets[c.engine.udpSessions[CLIENT]].local != IpEndpoint(V4(0x0A00_0002), 53)
  {
    var acts, c := DatagramReaches();
    assert Reaches(acts, c) && c.started && Admit(c.engine, SECOND, 1) == Unchanged;
  }

  /** A SYN to port 0 ends a started process. */
  lemma SynToPortZeroAborts()
    ensures exists acts, c :: Reaches(acts, c) && c.fault.BindPanic?
  {
    var acts, c := StartReaches();
    var a := Given(Ipv4Packet(1, 2, TcpSegment(0, true, false), []), 0, []);
    ReachesNext(acts, c, a);
    assert Reaches(acts + [a], Next(c, a)) && Next(c, a).fault.BindPanic?;
  }

  // ---------- The provider ----------

  const GOOD := P.StartWeather(P.Loaded, true, true, false)
  const UNCONFIGURED := P.StartWeather(P.NoConfig, true, true, false)

  /** A second start over an installed runtime releases the bridge in use; when it finds no
      configuration, the installed core is left to call back a bridge that is gone. */
  lemma RestartReleasesTheBridgeInUse()
    ensures P.PerformAll(P.IDLE, [P.Starts(GOOD), P.Starts(GOOD)]).exposed
    ensures !P.CallsBackSafely(P.PerformAll(P.IDLE, [P.Starts(GOOD), P.Starts(UNCONFIGURED)]))
  {
    hide P.StartTunnel, P.Kept, P.Paired;
    var once := P.StartTunnel(P.IDLE, GOOD);
    FirstStart();
    SecondAct(P.Starts(GOOD));
    SecondAct(P.Starts(UNCONFIGURED));
    P.ReleasesAreOrderedIffDisciplined([P.Starts(GOOD)], GOOD);
    P.RunIsLinked([P.Starts(GOOD)]);
    UnconfiguredRestart(once);
  }

  lemma FirstStart()
    ensures P.Disciplined(P.IDLE, [P.Starts(GOOD)])
    ensures P.PerformAll(P.IDLE, [P.Starts(GOOD)]) == P.StartTunnel(P.IDLE, GOOD)
    ensures P.StartTunnel(P.IDLE, GOOD).rustHandle.Some? && P.Linked(P.StartTunnel(P.IDLE, GOOD))
  {
    hide P.StartTunnel, P.Kept;
    P.IdleKept();
    P.StartChangesCores(P.IDLE, GOOD);
    P.StartLinks(P.IDLE, GOOD);
    assert [P.Starts(GOOD)][1..] == [];
  }

  lemma SecondAct(a: P.Act)
    ensures P.PerformAll(P.IDLE, [P.Starts(GOOD), a]) == P.Perform(P.StartTunnel(P.IDLE, GOOD), a)
  {
    hide P.StartTunnel;
    var acts := [P.Starts(GOOD), a];
    assert acts[1..] == [a] && [a][1..] == [];
    assert P.PerformAll(P.StartTunnel(P.IDLE, GOOD), [a]) == P.Perform(P.StartTunnel(P.IDLE, GOOD), a);
  }

  lemma UnconfiguredRestart(p: P.State)
    requires P.Linked(p) && p.rustHandle.Some? && p.packetBridge.Some?
    requires p.retained == {p.packetBridge.value}
    ensures !P.CallsBackSafely(P.StartTunnel(p, UNCONFIGURED))
  {
  }
}
