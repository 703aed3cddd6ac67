/** One socket of the user-mode stack: what the stack may do to it between two calls, and
    what the poll functions of the TCP and UDP bridges do to it.

    Each socket carries its own history: every byte the stack ever delivered and every byte
    the session ever read, and the same for the other direction. The histories are never
    consulted by an operation; they are what the stream theorems speak about. */
module Sockets {
  import opened Net

  /** Connection states of section 3.3.2 of RFC 9293. */
  datatype TcpState =
    | Closed | Listen | SynSent | SynReceived | Established | FinWait1 | FinWait2
    | CloseWait | Closing | LastAck | TimeWait

  datatype Datagram = Datagram(peer: IpEndpoint, data: Bytes)

  datatype Socket =
    | Tcp(local: IpEndpoint, state: TcpState, rx: Bytes, tx: Bytes,
          got: Bytes, read: Bytes, wrote: Bytes, drained: Bytes)
    | Udp(local: IpEndpoint, inbox: seq<Datagram>, outbox: seq<Datagram>,
          arrived: seq<Datagram>, taken: seq<Datagram>, queued: seq<Datagram>, departed: seq<Datagram>)

  const TCP_BUFFER := 65536
  const UDP_SLOTS := 16

  function NewTcp(local: IpEndpoint): Socket {
    Tcp(local, Listen, [], [], [], [], [], [])
  }

  function NewUdp(local: IpEndpoint): Socket {
    Udp(local, [], [], [], [], [], [])
  }

  /** In both directions nothing is lost, duplicated or reordered. */
  ghost predicate StreamOk(s: Socket) {
    match s
    case Tcp(_, _, rx, tx, got, read, wrote, drained) =>
      got == read + rx && wrote == drained + tx && |rx| <= TCP_BUFFER && |tx| <= TCP_BUFFER
    case Udp(_, inbox, outbox, arrived, taken, queued, departed) =>
      arrived == taken + inbox && queued == departed + outbox
      && |inbox| <= UDP_SLOTS && |outbox| <= UDP_SLOTS
  }

  // ---------- The stack's own steps ----------

  /** One thing the stack may do to a socket while it is being polled. */
  datatype SocketEvent =
    | Deliver(bytes: Bytes)       // in-order payload enters the receive buffer
    | Acknowledge(count: nat)     // the peer acknowledged bytes of the send buffer
    | Move(next: TcpState)        // a segment or a timer moved the connection
    | Arrive(datagram: Datagram)  // a datagram enters the UDP receive queue
    | Depart                      // the oldest queued datagram was sent

  /** The moves of section 3.3.2 of RFC 9293 that do not need a local call. */
  predicate StackMove(from: TcpState, to: TcpState) {
    match from
    case Closed => false
    case Listen => to == SynReceived
    case SynSent => to in {SynReceived, Established, Closed}
    case SynReceived => to in {Listen, Established, CloseWait, Closed}
    case Established => to in {CloseWait, Closed}
    case FinWait1 => to in {FinWait2, Closing, TimeWait, Closed}
    case FinWait2 => to in {TimeWait, Closed}
    case CloseWait => to == Closed
    case Closing => to in {TimeWait, Closed}
    case LastAck => to == Closed
    case TimeWait => to == Closed
  }

  predicate MayDeliver(state: TcpState) {
    state in {SynReceived, Established, FinWait1, FinWait2}
  }

  /** The socket after one event; an event the socket cannot take changes nothing. */
  function Absorb(s: Socket, ev: SocketEvent): Socket {
    match ev
    case Deliver(bytes) =>
      if s.Tcp? && MayDeliver(s.state) && |s.rx| + |bytes| <= TCP_BUFFER
      then s.(rx := s.rx + bytes, got := s.got + bytes) else s
    case Acknowledge(n) =>
      if s.Tcp? && n <= |s.tx| then s.(tx := s.tx[n..], drained := s.drained + s.tx[..n]) else s
    case Move(next) =>
      if s.Tcp? && StackMove(s.state, next) then s.(state := next) else s
    case Arrive(dg) =>
      if s.Udp? && |s.inbox| < UDP_SLOTS then s.(inbox := s.inbox + [dg], arrived := s.arrived + [dg]) else s
    case Depart =>
      if s.Udp? && s.outbox != [] then s.(outbox := s.outbox[1..], departed := s.departed + [s.outbox[0]]) else s
  }

  /** What each event does to what it can act on; StreamOk ties the buffers to these records. */
  lemma EventsAreRecorded(s: Socket, ev: SocketEvent)
    ensures var t := Absorb(s, ev);
            if s.Tcp? then
              && t.Tcp?
              && t.got == s.got + (if ev.Deliver? && MayDeliver(s.state) && |s.rx| + |ev.bytes| <= 65536
                                   then ev.bytes else [])
              && |t.drained| == |s.drained| + (if ev.Acknowledge? && ev.count <= |s.tx| then ev.count else 0)
              && t.state == (if ev.Move? && StackMove(s.state, ev.next) then ev.next else s.state)
            else
              && t.Udp?
              && t.arrived == s.arrived + (if ev.Arrive? && |s.inbox| < 16 then [ev.datagram] else [])
              && t.departed == s.departed + (if ev.Depart? && s.outbox != [] then [s.outbox[0]] else [])
  {
  }

  /** What survives any number of stack steps: kind, binding, the session's side of the
      histories, and stream integrity. */
  ghost predicate Evolves(s: Socket, t: Socket) {
    && s.local == t.local
    && (s.Tcp? <==> t.Tcp?)
    && (StreamOk(s) ==> StreamOk(t))
    && (s.Tcp? ==> t.read == s.read && t.wrote == s.wrote && s.got <= t.got && s.drained <= t.drained)
    && (s.Udp? ==> t.taken == s.taken && t.queued == s.queued && s.arrived <= t.arrived && s.departed <= t.departed)
  }

  lemma AbsorbEvolves(s: Socket, ev: SocketEvent)
    ensures Evolves(s, Absorb(s, ev))
  {
  }

  // ---------- The stack's socket calls ----------

  predicate MayRecv(s: Socket)
    requires s.Tcp?
  {
    s.state in {Established, FinWait1, FinWait2} || s.rx != []
  }

  predicate CanRecv(s: Socket)
    requires s.Tcp?
  {
    MayRecv(s) && s.rx != []
  }

  predicate MaySend(s: Socket)
    requires s.Tcp?
  {
    s.state in {Established, CloseWait}
  }

  predicate CanSend(s: Socket)
    requires s.Tcp?
  {
    MaySend(s) && |s.tx| < TCP_BUFFER
  }

  /** A local close. */
  function Close(state: TcpState): TcpState {
    match state
    case Listen => Closed
    case SynSent => Closed
    case SynReceived => FinWait1
    case Established => FinWait1
    case CloseWait => LastAck
    case _ => state
  }

  // ---------- The TCP bridge ----------

  datatype Polled<+R> = Polled(socket: Socket, result: R)

  /** `ReadDone([])` is what the caller takes for end of file. */
  datatype ReadResult = ReadDone(bytes: Bytes) | ReadFailed | ReadPending
  datatype WriteResult = WriteDone(count: nat) | BrokenPipe | WriteFailed | WritePending

  /** The four states in which both poll functions treat the connection as closed. */
  predicate Hung(state: TcpState) {
    state in {Closed, CloseWait, Closing, LastAck}
  }

  function Min(a: nat, b: nat): nat {
    if a <= b then a else b
  }

  /** The receive buffer is a ring: one call sees only its front run of `front` bytes, where
      `front` is any length from 1 to the whole content. */
  function FrontRun(s: Socket, front: nat): (r: Bytes)
    requires s.Tcp? && s.rx != []
    ensures 1 <= |r| <= |s.rx| && r == s.rx[..|r|]
  {
    if 1 <= front <= |s.rx| then s.rx[..front] else s.rx
  }

  function PollRead(s: Socket, front: nat, room: nat): Polled<ReadResult>
    requires s.Tcp?
  {
    if CanRecv(s) then
      if !MayRecv(s) then Polled(s, ReadFailed)
      else
        var data := FrontRun(s, front);
        var n := Min(|data|, room);
        Polled(s.(rx := s.rx[n..], read := s.read + data[..n]), ReadDone(data[..n]))
    else if Hung(s.state) then Polled(s, ReadDone([]))
    else Polled(s, ReadPending)
  }

  function PollWrite(s: Socket, buf: Bytes): Polled<WriteResult>
    requires s.Tcp?
  {
    if CanSend(s) then
      if !MaySend(s) then Polled(s, WriteFailed)
      else
        var n := Min(|buf|, TCP_BUFFER - |s.tx|);
        Polled(s.(tx := s.tx + buf[..n], wrote := s.wrote + buf[..n]), WriteDone(n))
    else if Hung(s.state) then Polled(s, BrokenPipe)
    else Polled(s, WritePending)
  }

  function PollShutdown(s: Socket): Socket
    requires s.Tcp?
  {
    s.(state := Close(s.state))
  }

  predicate ReadReady(s: Socket)
    requires s.Tcp?
  {
    s.rx != [] || Hung(s.state)
  }

  predicate WriteReady(s: Socket)
    requires s.Tcp?
  {
    CanSend(s) || Hung(s.state)
  }

  lemma MovedReadIsSound(s: Socket, n: nat)
    requires s.Tcp? && n <= |s.rx|
    ensures s.rx == s.rx[..n] + s.rx[n..]
    ensures StreamOk(s) ==> StreamOk(s.(rx := s.rx[n..], read := s.read + s.rx[..n]))
  {
    assert s.read + s.rx[..n] + s.rx[n..] == s.read + s.rx;
  }

  /** A read moves a prefix of the undelivered bytes to the caller, at least one when there
      is one and the caller has room, and touches nothing else; its error arm is dead. */
  lemma ReadIsAPrefixMove(s: Socket, front: nat, room: nat)
    requires s.Tcp?
    ensures var (t, r) := (PollRead(s, front, room).socket, PollRead(s, front, room).result);
            && !r.ReadFailed?
            && (r.ReadPending? <==> !ReadReady(s))
            && (r.ReadPending? ==> t == s)
            && (r.ReadDone? ==>
                  && |r.bytes| <= room
                  && s.rx == r.bytes + t.rx
                  && t == s.(rx := t.rx, read := s.read + r.bytes)
                  && (s.rx != [] && room > 0 ==> |r.bytes| > 0))
            && (StreamOk(s) ==> StreamOk(t))
  {
    hide StreamOk, FrontRun;
    if CanRecv(s) {
      MovedReadIsSound(s, Min(|FrontRun(s, front)|, room));
    }
  }

  /** How much one read moves: all of the ring's front run, or the caller's room. */
  lemma ReadTakesTheFrontRun(s: Socket, front: nat, room: nat)
    requires s.Tcp? && s.rx != []
    ensures var run := if 1 <= front <= |s.rx| then front else |s.rx|;
            PollRead(s, front, room).result == ReadDone(s.rx[..Min(run, room)])
  {
  }

  /** A write takes the longest prefix of the caller's bytes that fits, and nothing is
      taken when it answers anything but done; its error arm is dead. */
  lemma WriteTakesWhatFits(s: Socket, buf: Bytes)
    requires s.Tcp? && StreamOk(s)
    ensures var (t, r) := (PollWrite(s, buf).socket, PollWrite(s, buf).result);
            && !r.WriteFailed?
            && (r.WritePending? <==> !WriteReady(s))
            && (r.WriteDone? <==> CanSend(s))
            && (!r.WriteDone? ==> t == s)
            && (r.WriteDone? ==>
                  && r.count <= |buf|
                  && t == s.(tx := s.tx + buf[..r.count], wrote := s.wrote + buf[..r.count])
                  && (r.count == |buf| || |t.tx| == 65536)
                  && (buf != [] ==> r.count > 0))
            && StreamOk(t)
  {
  }

  // ---------- What the two poll functions say about the connection ----------

  /** The peer has finished sending, or the connection is gone. */
  predicate PeerFinished(state: TcpState) {
    state in {CloseWait, Closing, LastAck, TimeWait, Closed}
  }

  predicate AnswersEof(s: Socket, front: nat, room: nat)
    requires s.Tcp?
  {
    PollRead(s, front, room).result == ReadDone([])
  }

  /** An empty answer, which the caller takes for end of file, is given exactly in two cases:
      nothing is undelivered, the peer has finished and the state is not TIME-WAIT, where the
      read parks instead; or bytes are waiting and the caller left no room for them. */
  lemma EmptyAnswerIff(s: Socket, front: nat, room: nat)
    requires s.Tcp?
    ensures AnswersEof(s, front, room) <==>
              if s.rx == [] then PeerFinished(s.state) && s.state != TimeWait else room == 0
    ensures s.rx == [] && s.state == TimeWait ==> PollRead(s, front, room).result.ReadPending?
  {
  }

  /** A write is refused exactly when the state is closed for sending in the caller's four
      states, or in CLOSE-WAIT with a full send buffer, where RFC 9293 still lets it send. */
  lemma BrokenPipeIff(s: Socket, buf: Bytes)
    requires s.Tcp? && StreamOk(s)
    ensures PollWrite(s, buf).result.BrokenPipe?
       <==> s.state in {Closed, Closing, LastAck} || (s.state == CloseWait && |s.tx| == 65536)
  {
  }

  /** "A write is refused only when the connection can no longer send": it holds exactly
      when the socket is not in CLOSE-WAIT with a full send buffer. */
  lemma RefusedOnlyWhenUnsendableIff(s: Socket)
    requires s.Tcp? && StreamOk(s)
    ensures (forall buf :: PollWrite(s, buf).result.BrokenPipe? ==> !MaySend(s))
       <==> !(s.state == CloseWait && |s.tx| == 65536)
  {
    forall buf
      ensures PollWrite(s, buf).result.BrokenPipe? ==>
                s.state in {Closed, Closing, LastAck} || (s.state == CloseWait && |s.tx| == TCP_BUFFER)
    {
      BrokenPipeIff(s, buf);
    }
    if s.state == CloseWait && |s.tx| == TCP_BUFFER {
      assert PollWrite(s, []).result.BrokenPipe? && MaySend(s);
    }
  }

  /** After the session's own shutdown a write neither sends nor fails in FIN-WAIT: it parks. */
  lemma WriteParksIff(s: Socket, buf: Bytes)
    requires s.Tcp? && StreamOk(s)
    ensures PollWrite(s, buf).result.WritePending?
       <==> s.state in {Listen, SynSent, SynReceived, FinWait1, FinWait2, TimeWait}
            || (s.state == Established && |s.tx| == 65536)
  {
  }

  function AbsorbAll(s: Socket, evs: seq<SocketEvent>): Socket
    decreases |evs|
  {
    if evs == [] then s else AbsorbAll(Absorb(s, evs[0]), evs[1..])
  }

  lemma {:induction false} AbsorbAllAppends(s: Socket, a: seq<SocketEvent>, b: seq<SocketEvent>)
    ensures AbsorbAll(s, a + b) == AbsorbAll(AbsorbAll(s, a), b)
    decreases |a|
  {
    if a == [] {
      assert a + b == b;
    } else {
      assert (a + b)[1..] == a[1..] + b;
      AbsorbAllAppends(Absorb(s, a[0]), a[1..], b);
    }
  }

  ghost predicate AtEof(s: Socket) {
    s.Tcp? && s.rx == [] && Hung(s.state)
  }

  lemma {:induction false} EofSurvivesUnlessClosing(s: Socket, evs: seq<SocketEvent>)
    requires AtEof(s) && s.state != Closing
    ensures AtEof(AbsorbAll(s, evs)) && AbsorbAll(s, evs).state != Closing
    decreases |evs|
  {
    if evs != [] {
      EofSurvivesUnlessClosing(Absorb(s, evs[0]), evs[1..]);
    }
  }

  /** An answered end of file stays the answer through every later run of the stack exactly
      when the state was not CLOSING: from there TIME-WAIT makes the next read park again. */
  lemma EofStableIff(s: Socket)
    requires AtEof(s)
    ensures (forall evs :: AtEof(AbsorbAll(s, evs))) <==> s.state != Closing
  {
    if s.state != Closing {
      forall evs ensures AtEof(AbsorbAll(s, evs)) {
        EofSurvivesUnlessClosing(s, evs);
      }
    } else {
      var evs := [Move(TimeWait)];
      assert AbsorbAll(s, evs) == AbsorbAll(Absorb(s, evs[0]), evs[1..]);
      assert !AtEof(AbsorbAll(s, evs));
    }
  }

  /** The session's own shutdown turns a parked read or write into one that could answer at
      once exactly in LISTEN and SYN-SENT. */
  lemma ShutdownMakesReadyIff(s: Socket)
    requires s.Tcp? && StreamOk(s)
    ensures !ReadReady(s) && ReadReady(PollShutdown(s)) <==> s.rx == [] && s.state in {Listen, SynSent}
    ensures !WriteReady(s) && WriteReady(PollShutdown(s)) <==> s.state in {Listen, SynSent}
    ensures StreamOk(PollShutdown(s))
  {
  }

  /** What the session's own shutdown does to the connection, as section 3.10.4 of RFC 9293
      has it: nothing more can be sent, what is buffered and what may still arrive is as
      before, a second shutdown changes nothing, and only a connection that had not begun its
      handshake is closed at once; a peer that has finished is answered by LAST-ACK. */
  lemma ShutdownEndsSending(s: Socket)
    requires s.Tcp?
    ensures var t := PollShutdown(s);
            && t == s.(state := t.state) && !MaySend(t)
            && (t.state == Closed <==> s.state in {Closed, Listen, SynSent})
            && (t.state == LastAck <==> s.state in {CloseWait, LastAck})
            && (t.state == FinWait1 <==> s.state in {SynReceived, Established, FinWait1})
            && (t.state != s.state <==> s.state in {Listen, SynSent, SynReceived, Established, CloseWait})
            && (MayDeliver(t.state) <==> MayDeliver(s.state))
            && PollShutdown(t) == t
  {
  }

  // ---------- The UDP bridge ----------

  datatype RecvResult = RecvDone(bytes: Bytes, peer: SocketAddr) | RecvPending
  datatype SendResult = SendDone(count: nat) | SendFailed | SendPending

  function PollRecvFrom(s: Socket, room: nat): Polled<RecvResult>
    requires s.Udp?
  {
    if s.inbox == [] then Polled(s, RecvPending)
    else
      var dg := s.inbox[0];
      var n := Min(|dg.data|, room);
      Polled(s.(inbox := s.inbox[1..], taken := s.taken + [dg]),
             RecvDone(dg.data[..n], EndpointToSocketAddr(dg.peer)))
  }

  predicate Unaddressable(e: IpEndpoint) {
    e.port == 0 || e.addr == V4(0) || e.addr == V6(0)
  }

  /** `full` is the stack's own verdict on its payload ring; the slot limit is definite. */
  function PollSendTo(s: Socket, data: Bytes, target: SocketAddr, full: bool): Polled<SendResult>
    requires s.Udp?
  {
    var peer := SocketAddrToEndpoint(target);
    if Unaddressable(peer) then Polled(s, SendFailed)
    else if full || |s.outbox| >= UDP_SLOTS then Polled(s, SendPending)
    else
      var dg := Datagram(peer, data);
      Polled(s.(outbox := s.outbox + [dg], queued := s.queued + [dg]), SendDone(|data|))
  }

  /** A receive takes exactly the oldest datagram, cut to the caller's room, or parks when
      there is none. */
  lemma RecvTakesTheOldest(s: Socket, room: nat)
    requires s.Udp? && StreamOk(s)
    ensures var (t, r) := (PollRecvFrom(s, room).socket, PollRecvFrom(s, room).result);
            && (r.RecvPending? <==> s.inbox == [])
            && (r.RecvPending? ==> t == s)
            && (r.RecvDone? ==>
                  && s.inbox == [s.inbox[0]] + t.inbox
                  && r.bytes <= s.inbox[0].data
                  && (|r.bytes| == room || r.bytes == s.inbox[0].data) && |r.bytes| <= room
                  && SocketAddrToEndpoint(r.peer) == s.inbox[0].peer
                  && t.taken == s.taken + [s.inbox[0]])
            && StreamOk(t) && t.local == s.local && t.Udp? && t.outbox == s.outbox
  {
  }

  /** A send fails exactly on a target that cannot be addressed, parks exactly when it does not
      fail and the queue is full, and otherwise queues the whole datagram once. */
  lemma SendQueuesWhole(s: Socket, data: Bytes, target: SocketAddr, full: bool)
    requires s.Udp? && StreamOk(s)
    ensures var (t, r) := (PollSendTo(s, data, target, full).socket, PollSendTo(s, data, target, full).result);
            && (r.SendFailed? <==> target.port == 0 || (if target.SockV4? then target.ip == 0 else target.ip6 == 0))
            && (r.SendFailed? <==> Unaddressable(SocketAddrToEndpoint(target)))
            && (r.SendDone? <==> !r.SendFailed? && !full && |s.outbox| < 16)
            && (!r.SendDone? ==> t == s)
            && (r.SendDone? ==>
                  && r.count == |data|
                  && t.outbox == s.outbox + [Datagram(SocketAddrToEndpoint(target), data)]
                  && t.queued == s.queued + [Datagram(SocketAddrToEndpoint(target), data)])
            && StreamOk(t) && t.local == s.local && t.Udp? && t.inbox == s.inbox && t.taken == s.taken
  {
  }
}
