/** The two forwarding loops of a UDP session, each with its one reused buffer, against a
    specification that has no buffer at all. */
module Forward {
  import opened Net
  import opened Sockets
  import opened EngineModel
  import opened Sessions
  import opened SessionTheorems
  import opened StreamTheorems
  import Engine

  const UDP_BUFFER_SIZE := 2048

  function Cut(data: Bytes): (r: Bytes)
    ensures r <= data && |r| == Min(|data|, 2048)
  {
    data[..Min(|data|, UDP_BUFFER_SIZE)]
  }

  predicate FromSource(dg: Datagram, source: SocketAddr) {
    EndpointToSocketAddr(dg.peer) == source
  }

  /** For the IPv4 source of a session the test is on the true sender of the datagram. */
  lemma FilterIsOnTheSender(dg: Datagram, ip: Ipv4, port: Port)
    ensures FromSource(dg, SockV4(ip, port)) <==> dg.peer == IpEndpoint(V4(ip), port)
  {
    FilterComparesTrueSources(dg.peer, ip, port);
  }

  /** What should go out for these arrivals: the source's datagrams, in order, cut to size. */
  function Forwarded(arrivals: seq<Datagram>, source: SocketAddr): seq<Bytes> {
    if arrivals == [] then []
    else (if FromSource(arrivals[0], source) then [Cut(arrivals[0].data)] else [])
         + Forwarded(arrivals[1..], source)
  }

  lemma {:induction false} ForwardedAppends(a: seq<Datagram>, b: seq<Datagram>, source: SocketAddr)
    ensures Forwarded(a + b, source) == Forwarded(a, source) + Forwarded(b, source)
  {
    if a == [] {
      assert a + b == b;
    } else {
      assert (a + b)[1..] == a[1..] + b;
      ForwardedAppends(a[1..], b, source);
    }
  }

  /** The positions of the source's datagrams among the arrivals. */
  function SourceIndices(arrivals: seq<Datagram>, source: SocketAddr): seq<nat> {
    if arrivals == [] then []
    else
      var n := |arrivals| - 1;
      SourceIndices(arrivals[..n], source) + if FromSource(arrivals[n], source) then [n] else []
  }

  ghost predicate Increasing(at: seq<nat>, bound: nat) {
    && (forall i, j | 0 <= i < j < |at| :: at[i] < at[j])
    && (forall i | 0 <= i < |at| :: at[i] < bound)
  }

  ghost predicate CutsOf(out: seq<Bytes>, at: seq<nat>, arrivals: seq<Datagram>) {
    |out| == |at| && forall i | 0 <= i < |at| :: at[i] < |arrivals| && out[i] == Cut(arrivals[at[i]].data)
  }

  ghost predicate PicksTheSource(at: seq<nat>, arrivals: seq<Datagram>, source: SocketAddr) {
    forall k: nat | k < |arrivals| :: k in at <==> FromSource(arrivals[k], source)
  }

  /** A complete, order-preserving selection: the i-th datagram out is the arrival at the
      i-th selected position, cut to size, and exactly the source's arrivals are selected. */
  ghost predicate Selects(out: seq<Bytes>, at: seq<nat>, arrivals: seq<Datagram>, source: SocketAddr) {
    Increasing(at, |arrivals|) && CutsOf(out, at, arrivals) && PicksTheSource(at, arrivals, source)
  }

  lemma CutsOneMore(out: seq<Bytes>, at: seq<nat>, arrivals: seq<Datagram>, dg: Datagram)
    requires CutsOf(out, at, arrivals)
    ensures CutsOf(out, at, arrivals + [dg])
    ensures CutsOf(out + [Cut(dg.data)], at + [|arrivals|], arrivals + [dg])
  {
    hide Cut;
  }

  lemma PicksOneMore(at: seq<nat>, arrivals: seq<Datagram>, dg: Datagram, source: SocketAddr)
    requires PicksTheSource(at, arrivals, source) && Increasing(at, |arrivals|)
    ensures PicksTheSource(if FromSource(dg, source) then at + [|arrivals|] else at, arrivals + [dg], source)
  {
    hide FromSource;
    var (all, n) := (arrivals + [dg], |arrivals|);
    var at1 := if FromSource(dg, source) then at + [n] else at;
    forall k: nat | k < |all| ensures k in at1 <==> FromSource(all[k], source) {
      if k < n { assert all[k] == arrivals[k]; } else { assert all[k] == dg; }
    }
  }

  lemma SelectsOneMore(out: seq<Bytes>, at: seq<nat>, arrivals: seq<Datagram>, dg: Datagram, source: SocketAddr)
    requires Selects(out, at, arrivals, source)
    ensures Selects(if FromSource(dg, source) then out + [Cut(dg.data)] else out,
                    if FromSource(dg, source) then at + [|arrivals|] else at,
                    arrivals + [dg], source)
  {
    hide FromSource, Cut, CutsOf, PicksTheSource;
    CutsOneMore(out, at, arrivals, dg);
    PicksOneMore(at, arrivals, dg, source);
  }

  lemma NothingForwarded(source: SocketAddr)
    ensures Forwarded([], source) == [] && Selects([], SourceIndices([], source), [], source)
  {
  }

  lemma OneMoreForwarded(arrivals: seq<Datagram>, dg: Datagram, source: SocketAddr)
    ensures Forwarded(arrivals + [dg], source) ==
            if FromSource(dg, source) then Forwarded(arrivals, source) + [Cut(dg.data)] else Forwarded(arrivals, source)
    ensures SourceIndices(arrivals + [dg], source) ==
            if FromSource(dg, source) then SourceIndices(arrivals, source) + [|arrivals|]
            else SourceIndices(arrivals, source)
  {
    ForwardedAppends(arrivals, [dg], source);
    assert (arrivals + [dg])[..|arrivals|] == arrivals;
    assert [dg][1..] == [];
  }

  lemma {:induction false} ForwardedSelectsTheSource(arrivals: seq<Datagram>, source: SocketAddr)
    ensures Selects(Forwarded(arrivals, source), SourceIndices(arrivals, source), arrivals, source)
  {
    hide Selects, Forwarded, SourceIndices;
    if arrivals == [] {
      NothingForwarded(source);
    } else {
      var n := |arrivals| - 1;
      var (init, dg) := (arrivals[..n], arrivals[n]);
      assert arrivals == init + [dg];
      ForwardedSelectsTheSource(init, source);
      OneMoreForwarded(init, dg, source);
      SelectsOneMore(Forwarded(init, source), SourceIndices(init, source), init, dg, source);
    }
  }

  // ---------- The loops ----------

  ghost predicate LiveSocket(socket: Engine.UdpSocket)
    reads socket.engine, socket.engine.device
  {
    HasUdp(socket.engine.Abs(), socket.handle) && StreamOk(socket.engine.sockets[socket.handle])
  }

  ghost function Own(socket: Engine.UdpSocket): (k: Socket)
    requires LiveSocket(socket)
    reads socket.engine, socket.engine.device
    ensures k.Udp?
  {
    socket.engine.sockets[socket.handle]
  }

  /** While the session waits, its socket takes the stack's events that concern it. */
  lemma StackActsOnOwn(e: EngineModel.Engine, evs: seq<StackEvent>, h: Handle)
    requires HasUdp(e, h) && StreamOk(e.sockets[h])
    ensures var d := RunEvents(e, evs);
            && HasUdp(d, h) && StreamOk(d.sockets[h])
            && d.sockets[h] == AbsorbAll(e.sockets[h], EventsFor(h, evs))
  {
    hide StreamOk, RunEvents;
    RunEventsOnlyStack(e, evs);
    RunEventsAct(e, evs);
  }

  /** What survives the stack's events on a UDP socket. */
  lemma {:induction false} AbsorbAllKeeps(k: Socket, evs: seq<SocketEvent>)
    requires k.Udp? && StreamOk(k)
    ensures var l := AbsorbAll(k, evs);
            && l.Udp? && StreamOk(l) && l.taken == k.taken && l.queued == k.queued
            && k.inbox <= l.inbox && |l.outbox| <= |k.outbox|
    decreases |evs|
  {
    if evs != [] {
      AbsorbAllKeeps(Absorb(k, evs[0]), evs[1..]);
    }
  }

  // ---------- The uplink loop ----------

  /** The socket after these turns: in each the stack does its part and then one receive takes
      the oldest datagram, whoever sent it, or finds none. */
  function Served(k: Socket, h: Handle, turns: seq<seq<StackEvent>>): Socket
    requires k.Udp? && StreamOk(k)
    decreases |turns|
  {
    if turns == [] then k
    else
      AbsorbAllKeeps(k, EventsFor(h, turns[0]));
      var k1 := AbsorbAll(k, EventsFor(h, turns[0]));
      RecvTakesTheOldest(k1, UDP_BUFFER_SIZE);
      Served(PollRecvFrom(k1, UDP_BUFFER_SIZE).socket, h, turns[1..])
  }

  lemma ServedOne(k: Socket, evs: seq<SocketEvent>)
    requires k.Udp? && StreamOk(k)
    ensures var k1 := AbsorbAll(k, evs);
            && k1.Udp? && StreamOk(k1)
            && var l := PollRecvFrom(k1, UDP_BUFFER_SIZE).socket;
            && l.Udp? && StreamOk(l) && k.taken <= l.taken
            && (k.inbox != [] ==> |l.taken| == |k.taken| + 1 && |l.inbox| >= |k.inbox| - 1)
  {
    hide StreamOk;
    AbsorbAllKeeps(k, evs);
    RecvTakesTheOldest(AbsorbAll(k, evs), UDP_BUFFER_SIZE);
  }

  /** No turn is wasted: as long as a datagram is waiting, each takes one. */
  lemma {:induction false} ServedTakesOnePerTurn(k: Socket, h: Handle, turns: seq<seq<StackEvent>>)
    requires k.Udp? && StreamOk(k)
    ensures var l := Served(k, h, turns);
            && l.Udp? && StreamOk(l) && k.taken <= l.taken
            && |l.taken| >= |k.taken| + Min(|turns|, |k.inbox|)
    decreases |turns|
  {
    hide StreamOk, PollRecvFrom, AbsorbAll;
    if turns != [] {
      var k1 := AbsorbAll(k, EventsFor(h, turns[0]));
      ServedOne(k, EventsFor(h, turns[0]));
      ServedTakesOnePerTurn(PollRecvFrom(k1, UDP_BUFFER_SIZE).socket, h, turns[1..]);
    }
  }

  lemma RecvMovesOne(k: Socket, room: nat)
    requires k.Udp? && StreamOk(k)
    ensures var p := PollRecvFrom(k, room);
            && p.socket.Udp? && StreamOk(p.socket)
            && p.socket == PollRecvFrom(k, UDP_BUFFER_SIZE).socket
            && (p.result.RecvPending? ==> k.inbox == [] && p.socket.taken == k.taken)
            && (p.result.RecvDone? ==>
                  exists dg :: p.socket.taken == k.taken + [dg]
                    && p.result == RecvDone(dg.data[..Min(|dg.data|, room)], EndpointToSocketAddr(dg.peer)))
  {
    RecvTakesTheOldest(k, room);
    if k.inbox != [] {
      var dg := k.inbox[0];
      assert PollRecvFrom(k, room).socket.taken == k.taken + [dg];
    }
  }

  /** One turn of the uplink loop: the stack runs, then the socket is polled into `buf`. */
  method NextDatagram(socket: Engine.UdpSocket, cx: TaskId, buf: array<Byte>, events: seq<StackEvent>)
    returns (result: RecvResult, ghost dg: Datagram)
    requires LiveSocket(socket)
    modifies socket.engine, socket.engine.device, buf
    ensures LiveSocket(socket)
    ensures Own(socket) == Served(old(Own(socket)), socket.handle, [events])
    ensures result.RecvPending? ==> Own(socket).taken == old(Own(socket)).taken
    ensures result.RecvDone? ==>
              && Own(socket).taken == old(Own(socket)).taken + [dg]
              && result == RecvDone(dg.data[..Min(|dg.data|, buf.Length)], EndpointToSocketAddr(dg.peer))
              && |result.bytes| <= buf.Length && buf[..|result.bytes|] == result.bytes
              && (buf.Length == UDP_BUFFER_SIZE ==> result.bytes == Cut(dg.data))
  {
    hide StreamOk, PollRecvFrom, RunEvents, AbsorbAll, EventsFor;
    StackActsOnOwn(socket.engine.Abs(), events, socket.handle);
    AbsorbAllKeeps(Own(socket), EventsFor(socket.handle, events));
    socket.engine.RunStack(events);
    ghost var k := socket.engine.sockets[socket.handle];
    RecvMovesOne(k, buf.Length);
    assert [events][1..] == [];
    result := socket.PollRecvFrom(cx, buf);
    if result.RecvDone? {
      dg :| Own(socket).taken == k.taken + [dg]
            && result == RecvDone(dg.data[..Min(|dg.data|, buf.Length)], EndpointToSocketAddr(dg.peer));
    } else {
      dg := Datagram(IpEndpoint(V4(0), 0), []);
    }
  }

  lemma {:induction false} ServedAppends(k: Socket, h: Handle, a: seq<seq<StackEvent>>, turn: seq<StackEvent>)
    requires k.Udp? && StreamOk(k)
    ensures Served(k, h, a).Udp? && StreamOk(Served(k, h, a))
    ensures Served(k, h, a + [turn]) == Served(Served(k, h, a), h, [turn])
    decreases |a|
  {
    hide StreamOk, PollRecvFrom, AbsorbAll;
    if a == [] {
      assert a + [turn] == [turn];
    } else {
      assert (a + [turn])[1..] == a[1..] + [turn];
      ServedOne(k, EventsFor(h, a[0]));
      ServedAppends(PollRecvFrom(AbsorbAll(k, EventsFor(h, a[0])), UDP_BUFFER_SIZE).socket, h, a[1..], turn);
    }
  }

  /** The uplink loop over its one buffer, for as many polls as there are turns; in each the
      stack runs first. `accepted` is how many sends succeed before one fails, if it comes to
      that; only a failed send ends the loop before the turns do. `stamps` counts the activity
      updates. What is sent is what the datagrams taken from the socket call for, and every
      turn takes one as long as there is one. */
  method Uplink(socket: Engine.UdpSocket, cx: TaskId, source: SocketAddr, turns: seq<seq<StackEvent>>, accepted: nat)
    returns (sent: seq<Bytes>, failed: bool, stamps: nat, polls: nat)
    requires LiveSocket(socket)
    modifies socket.engine, socket.engine.device
    ensures LiveSocket(socket) && polls <= |turns| && (!failed ==> polls == |turns|)
    ensures Own(socket) == Served(old(Own(socket)), socket.handle, turns[..polls])
    ensures old(Own(socket)).taken <= Own(socket).taken
    ensures |Own(socket).taken| >= |old(Own(socket)).taken| + Min(polls, |old(Own(socket)).inbox|)
    ensures var took := Own(socket).taken[|old(Own(socket)).taken|..];
            && sent == Forwarded(took, source)[..Min(accepted, |Forwarded(took, source)|)]
            && |Forwarded(took, source)| == |sent| + (if failed then 1 else 0)
            && |sent| <= accepted && (failed ==> |sent| == accepted && FromSource(took[|took| - 1], source))
    ensures stamps == |sent| + if failed then 1 else 0
  {
    hide LiveSocket, Own, Forwarded, Served, StreamOk, EndpointToSocketAddr, Cut;
    var buf := new Byte[UDP_BUFFER_SIZE](_ => 0);
    sent, failed, stamps, polls := [], false, 0, 0;
    NothingForwarded(source);
    ghost var (k, h) := (Own(socket), socket.handle);
    ghost var took: seq<Datagram> := [];
    NothingServed(socket, h);
    assert turns[..0] == [];
    while polls < |turns|
      invariant polls <= |turns| && LiveSocket(socket) && Own(socket).taken == k.taken + took
      invariant k.Udp? && StreamOk(k) && Own(socket) == Served(k, h, turns[..polls])
      invariant !failed && sent == Forwarded(took, source)
      invariant |sent| <= accepted && stamps == |sent|
    {
      var result, dg := NextDatagram(socket, cx, buf, turns[polls]);
      ServedAppends(k, h, turns[..polls], turns[polls]);
      assert turns[..polls + 1] == turns[..polls] + [turns[polls]];
      polls := polls + 1;
      if result.RecvDone? {
        var n := |result.bytes|;
        OneMoreForwarded(took, dg, source);
        took := took + [dg];
        if result.peer == source {
          stamps := stamps + 1;
          if |sent| == accepted {
            failed := true;
            break;
          }
          sent := sent + [buf[..n]];
        }
      }
    }
    assert Own(socket).taken[|k.taken|..] == took;
    assert sent == Forwarded(took, source)[..|sent|];
    ServedTakesOnePerTurn(k, h, turns[..polls]);
  }

  lemma NothingServed(socket: Engine.UdpSocket, h: Handle)
    requires LiveSocket(socket)
    ensures StreamOk(Own(socket)) && Served(Own(socket), h, []) == Own(socket)
  {
  }

  // ---------- The downlink loop ----------

  /** A reply as the outer side delivers it; the tunnel names the peer it came from. */
  datatype Reply = Reply(data: Bytes, peer: SocketAddr)

  /** What one poll meets: the stack's run before it, and its verdict on its payload ring. */
  datatype Turn = Turn(events: seq<StackEvent>, full: bool)

  /** In none of these turns does a send find room, after the stack's part in it. */
  predicate Roomless(k: Socket, h: Handle, turns: seq<Turn>)
    decreases |turns|
  {
    turns == []
    || (var k1 := AbsorbAll(k, EventsFor(h, turns[0].events));
        k1.Udp? && (turns[0].full || |k1.outbox| >= 16) && Roomless(k1, h, turns[1..]))
  }

  /** One send, polled until it does not park: the socket, the answer and the turns used. */
  function Awaited(k: Socket, h: Handle, data: Bytes, target: SocketAddr, turns: seq<Turn>): (Socket, SendResult, nat)
    requires k.Udp? && StreamOk(k)
    decreases |turns|
  {
    if turns == [] then (k, SendPending, 0)
    else
      AbsorbAllKeeps(k, EventsFor(h, turns[0].events));
      var k1 := AbsorbAll(k, EventsFor(h, turns[0].events));
      SendKeepsQueue(k1, data, target, turns[0].full);
      var p := PollSendTo(k1, data, target, turns[0].full);
      if !p.result.SendPending? then (p.socket, p.result, 1)
      else
        var (l, r, n) := Awaited(p.socket, h, data, target, turns[1..]);
        (l, r, n + 1)
  }

  lemma SendKeepsQueue(k: Socket, data: Bytes, target: SocketAddr, full: bool)
    requires k.Udp? && StreamOk(k)
    ensures var p := PollSendTo(k, data, target, full);
            && p.socket.Udp? && StreamOk(p.socket) && p.socket.taken == k.taken
            && (p.result.SendFailed? <==> Unaddressable(SocketAddrToEndpoint(target)))
            && (p.result.SendDone? <==> !p.result.SendFailed? && !full && |k.outbox| < 16)
            && (p.result.SendPending? ==> p.socket == k)
            && p.socket.queued == k.queued +
                 if p.result.SendDone? then [Datagram(SocketAddrToEndpoint(target), data)] else []
  {
    SendQueuesWhole(k, data, target, full);
  }

  /** An awaited send is done in the first turn that has room and parks in exactly the turns
      before it; it fails at once, in its first turn, when the target cannot be addressed. */
  lemma {:induction false} SendsInTheFirstRoom(k: Socket, h: Handle, data: Bytes, target: SocketAddr, turns: seq<Turn>)
    requires k.Udp? && StreamOk(k)
    ensures var (l, r, n) := Awaited(k, h, data, target, turns);
            && l.Udp? && StreamOk(l) && l.taken == k.taken
            && l.queued == k.queued + (if r.SendDone? then [Datagram(SocketAddrToEndpoint(target), data)] else [])
            && n <= |turns| && (if r.SendPending? then n == |turns| else n > 0)
            && (r.SendFailed? <==> turns != [] && Unaddressable(SocketAddrToEndpoint(target)))
            && (r.SendFailed? ==> n == 1)
            && Roomless(k, h, if r.SendPending? then turns else turns[..n - 1])
            && (r.SendDone? ==> !Roomless(k, h, turns[..n]))
    decreases |turns|
  {
    hide StreamOk, AbsorbAll, EventsFor, PollSendTo, Unaddressable;
    if turns != [] {
      var k1 := AbsorbAll(k, EventsFor(h, turns[0].events));
      AbsorbAllKeeps(k, EventsFor(h, turns[0].events));
      SendKeepsQueue(k1, data, target, turns[0].full);
      var p := PollSendTo(k1, data, target, turns[0].full);
      if p.result.SendPending? {
        SendsInTheFirstRoom(k1, h, data, target, turns[1..]);
        var n := Awaited(k1, h, data, target, turns[1..]).2;
        if n > 0 { assert turns[..n][1..] == turns[1..][..n - 1]; }
        assert turns[..n + 1][1..] == turns[1..][..n];
      }
    }
  }

  /** One turn of an awaited send. */
  lemma AwaitedOneTurn(k: Socket, h: Handle, data: Bytes, target: SocketAddr, turns: seq<Turn>, i: nat)
    requires k.Udp? && StreamOk(k) && i < |turns|
    ensures var k1 := AbsorbAll(k, EventsFor(h, turns[i].events));
            && k1.Udp? && StreamOk(k1)
            && var p := PollSendTo(k1, data, target, turns[i].full);
            && p.socket.Udp? && StreamOk(p.socket)
            && Awaited(k, h, data, target, turns[i..]) ==
                 if !p.result.SendPending? then (p.socket, p.result, 1)
                 else var (l, r, n) := Awaited(p.socket, h, data, target, turns[i + 1..]); (l, r, n + 1)
  {
    hide StreamOk, AbsorbAll, EventsFor, PollSendTo;
    AbsorbAllKeeps(k, EventsFor(h, turns[i].events));
    SendKeepsQueue(AbsorbAll(k, EventsFor(h, turns[i].events)), data, target, turns[i].full);
    assert turns[i..][0] == turns[i] && turns[i..][1..] == turns[i + 1..];
  }

  lemma AwaitedNoTurn(k: Socket, h: Handle, data: Bytes, target: SocketAddr)
    requires k.Udp? && StreamOk(k)
    ensures Awaited(k, h, data, target, []) == (k, SendPending, 0)
  {
  }

  /** Polls the send of buf[..n] until it does not park, or no turn is left. */
  method SendAwaited(socket: Engine.UdpSocket, cx: TaskId, buf: array<Byte>, n: nat, target: SocketAddr,
                     turns: seq<Turn>, start: nat)
    returns (result: SendResult, polls: nat)
    requires LiveSocket(socket) && n <= buf.Length && start <= |turns|
    modifies socket.engine, socket.engine.device
    ensures LiveSocket(socket) && start <= polls <= |turns|
    ensures (Own(socket), result, polls - start)
         == Awaited(old(Own(socket)), socket.handle, buf[..n], target, turns[start..])
    ensures result.SendDone? ==>
            Own(socket).queued == old(Own(socket)).queued + [Datagram(SocketAddrToEndpoint(target), buf[..n])]
    ensures !result.SendDone? ==> Own(socket).queued == old(Own(socket)).queued
    ensures Unaddressable(SocketAddrToEndpoint(target)) ==> !result.SendDone?
    ensures result.SendFailed? ==> Unaddressable(SocketAddrToEndpoint(target))
    ensures if result.SendPending? then polls == |turns| else start < polls
  {
    hide StreamOk, RunEvents, PollSendTo, AbsorbAll, EventsFor, Unaddressable, Awaited, Roomless;
    result, polls := SendPending, start;
    ghost var (k, h, data) := (Own(socket), socket.handle, buf[..n]);
    while polls < |turns| && result.SendPending?
      invariant start <= polls <= |turns| && LiveSocket(socket) && k.Udp? && StreamOk(k)
      invariant result.SendPending? ==>
                  var (l, r, m) := Awaited(Own(socket), h, data, target, turns[polls..]);
                  Awaited(k, h, data, target, turns[start..]) == (l, r, m + (polls - start))
      invariant !result.SendPending? ==>
                  Awaited(k, h, data, target, turns[start..]) == (Own(socket), result, polls - start)
      decreases |turns| - polls
    {
      var turn := turns[polls];
      AwaitedOneTurn(Own(socket), h, data, target, turns, polls);
      StackActsOnOwn(socket.engine.Abs(), turn.events, socket.handle);
      socket.engine.RunStack(turn.events);
      result := socket.PollSendTo(cx, buf[..n], target, turn.full);
      polls := polls + 1;
    }
    if result.SendPending? {
      assert turns[polls..] == [];
      AwaitedNoTurn(Own(socket), h, data, target);
    }
    SendsInTheFirstRoom(k, h, data, target, turns[start..]);
  }

  /** Where a reply is sent: the direct handler has one `fixed` target, the proxy handler
      takes the address the tunnel gave. */
  function PeerOf(reply: Reply, fixed: Option<SocketAddr>): SocketAddr {
    if fixed.Some? then fixed.value else reply.peer
  }

  predicate Reachable(reply: Reply, fixed: Option<SocketAddr>) {
    !Unaddressable(SocketAddrToEndpoint(PeerOf(reply, fixed)))
  }

  /** The socket after the replies, how many of them were queued, whether one failed, and the
      turns used: each is awaited in turn. */
  function Replied(k: Socket, h: Handle, replies: seq<Reply>, fixed: Option<SocketAddr>, turns: seq<Turn>)
    : (Socket, nat, bool, nat)
    requires k.Udp? && StreamOk(k)
    decreases |replies|
  {
    if replies == [] then (k, 0, false, 0)
    else
      SendsInTheFirstRoom(k, h, Cut(replies[0].data), PeerOf(replies[0], fixed), turns);
      var (l, r, n) := Awaited(k, h, Cut(replies[0].data), PeerOf(replies[0], fixed), turns);
      if !r.SendDone? then (l, 0, r.SendFailed?, n)
      else
        var (l2, sent, failed, m) := Replied(l, h, replies[1..], fixed, turns[n..]);
        (l2, sent + 1, failed, n + m)
  }

  lemma RepliedOne(k: Socket, h: Handle, replies: seq<Reply>, fixed: Option<SocketAddr>, turns: seq<Turn>,
                   i: nat, from: nat)
    requires k.Udp? && StreamOk(k) && i < |replies| && from <= |turns|
    ensures var (l, r, n) := Awaited(k, h, Cut(replies[i].data), PeerOf(replies[i], fixed), turns[from..]);
            && l.Udp? && StreamOk(l) && from + n <= |turns|
            && Replied(k, h, replies[i..], fixed, turns[from..]) ==
                 if !r.SendDone? then (l, 0, r.SendFailed?, n)
                 else
                   var (l2, sent, failed, m) := Replied(l, h, replies[i + 1..], fixed, turns[from + n..]);
                   (l2, sent + 1, failed, n + m)
  {
    hide StreamOk, Awaited, Cut, PeerOf;
    var (data, target) := (Cut(replies[i].data), PeerOf(replies[i], fixed));
    SendsInTheFirstRoom(k, h, data, target, turns[from..]);
    var n := Awaited(k, h, data, target, turns[from..]).2;
    assert replies[i..][0] == replies[i] && replies[i..][1..] == replies[i + 1..];
    assert turns[from..][n..] == turns[from + n..];
  }

  lemma RepliedNone(k: Socket, h: Handle, fixed: Option<SocketAddr>, turns: seq<Turn>)
    requires k.Udp? && StreamOk(k)
    ensures Replied(k, h, [], fixed, turns) == (k, 0, false, 0)
  {
  }

  /** What is left undone: the first `sent` replies alone end in `m` after `from` turns, and the
      next one, if there is one, either cannot be addressed and fails in its first turn, or
      found no room in any of the turns that were left for it. */
  ghost predicate WaitsForRoom(k: Socket, h: Handle, replies: seq<Reply>, fixed: Option<SocketAddr>, turns: seq<Turn>)
    requires k.Udp? && StreamOk(k)
  {
    var (l, sent, failed, polls) := Replied(k, h, replies, fixed, turns);
    && l.Udp? && StreamOk(l)
    && sent <= |replies| && sent <= polls <= |turns|
    && var (m, all, none, from) := Replied(k, h, replies[..sent], fixed, turns);
    && all == sent && !none && from <= polls
    && (sent == |replies| ==> !failed && from == polls && m == l)
    && (sent < |replies| ==>
          if from < |turns| && !Reachable(replies[sent], fixed) then failed && polls == from + 1
          else !failed && polls == |turns| && Roomless(m, h, turns[from..]))
  }

  lemma FirstReplyWaits(k: Socket, h: Handle, replies: seq<Reply>, fixed: Option<SocketAddr>, turns: seq<Turn>)
    requires k.Udp? && StreamOk(k) && replies != []
    requires !Awaited(k, h, Cut(replies[0].data), PeerOf(replies[0], fixed), turns).1.SendDone?
    ensures WaitsForRoom(k, h, replies, fixed, turns)
  {
    hide StreamOk, Roomless, Awaited, Unaddressable;
    SendsInTheFirstRoom(k, h, Cut(replies[0].data), PeerOf(replies[0], fixed), turns);
    assert replies[..0] == [] && turns[0..] == turns;
  }

  lemma LaterReplyWaits(k: Socket, h: Handle, replies: seq<Reply>, fixed: Option<SocketAddr>, turns: seq<Turn>)
    requires k.Udp? && StreamOk(k) && replies != []
    requires var (l, r, n) := Awaited(k, h, Cut(replies[0].data), PeerOf(replies[0], fixed), turns);
             r.SendDone? && l.Udp? && StreamOk(l) && 0 < n <= |turns|
             && WaitsForRoom(l, h, replies[1..], fixed, turns[n..])
    ensures WaitsForRoom(k, h, replies, fixed, turns)
  {
    hide StreamOk, Roomless, Awaited, Reachable, Replied;
    var (l, r, n) := Awaited(k, h, Cut(replies[0].data), PeerOf(replies[0], fixed), turns);
    var (l2, sent, failed, m) := Replied(l, h, replies[1..], fixed, turns[n..]);
    var first := replies[..sent + 1];
    RepliedOne(k, h, replies, fixed, turns, 0, 0);
    RepliedOne(k, h, first, fixed, turns, 0, 0);
    assert replies[0..] == replies && first[0..] == first && turns[0..] == turns;
    assert first[1..] == replies[1..][..sent];
    var from := Replied(l, h, first[1..], fixed, turns[n..]).3;
    assert turns[n..][from..] == turns[n + from..];
  }

  /** No reply is skipped and none waits without need. */
  lemma {:induction false} RepliesWaitOnlyForRoom(k: Socket, h: Handle, replies: seq<Reply>,
                                                  fixed: Option<SocketAddr>, turns: seq<Turn>)
    requires k.Udp? && StreamOk(k)
    ensures WaitsForRoom(k, h, replies, fixed, turns)
    decreases |replies|
  {
    hide StreamOk, Roomless, Awaited, WaitsForRoom, Replied;
    if replies == [] {
      NoReplyWaits(k, h, fixed, turns);
    } else {
      SendsInTheFirstRoom(k, h, Cut(replies[0].data), PeerOf(replies[0], fixed), turns);
      var (l, r, n) := Awaited(k, h, Cut(replies[0].data), PeerOf(replies[0], fixed), turns);
      if r.SendDone? {
        RepliesWaitOnlyForRoom(l, h, replies[1..], fixed, turns[n..]);
        LaterReplyWaits(k, h, replies, fixed, turns);
      } else {
        FirstReplyWaits(k, h, replies, fixed, turns);
      }
    }
  }

  lemma NoReplyWaits(k: Socket, h: Handle, fixed: Option<SocketAddr>, turns: seq<Turn>)
    requires k.Udp? && StreamOk(k)
    ensures WaitsForRoom(k, h, [], fixed, turns)
  {
    var none: seq<Reply> := [];
    assert none[..0] == none;
  }

  /** The i-th queued datagram is the i-th reply, cut to size and sent to the handler's peer. */
  ghost predicate Carries(dgs: seq<Datagram>, replies: seq<Reply>, fixed: Option<SocketAddr>) {
    && |dgs| <= |replies|
    && forall i | 0 <= i < |dgs| ::
         && dgs[i].peer == SocketAddrToEndpoint(if fixed.Some? then fixed.value else replies[i].peer)
         && dgs[i].data == Cut(replies[i].data) && Reachable(replies[i], fixed)
  }

  lemma CarriesOneMore(dg: Datagram, dgs: seq<Datagram>, replies: seq<Reply>, fixed: Option<SocketAddr>)
    requires replies != [] && Carries(dgs, replies[1..], fixed) && Reachable(replies[0], fixed)
    requires dg == Datagram(SocketAddrToEndpoint(PeerOf(replies[0], fixed)), Cut(replies[0].data))
    ensures Carries([dg] + dgs, replies, fixed)
  {
  }

  lemma {:induction false} RepliesAreQueued(k: Socket, h: Handle, replies: seq<Reply>,
                                            fixed: Option<SocketAddr>, turns: seq<Turn>)
    requires k.Udp? && StreamOk(k)
    ensures var (l, sent, failed, polls) := Replied(k, h, replies, fixed, turns);
            && l.Udp? && k.queued <= l.queued && |l.queued| == |k.queued| + sent
            && Carries(l.queued[|k.queued|..], replies, fixed)
    decreases |replies|
  {
    hide StreamOk, Awaited, Carries, Unaddressable, Cut;
    var none: seq<Datagram> := [];
    if replies == [] {
      NothingCarried(replies, fixed);
      assert k.queued[|k.queued|..] == none;
    } else {
      var (data, target) := (Cut(replies[0].data), PeerOf(replies[0], fixed));
      SendsInTheFirstRoom(k, h, data, target, turns);
      var (l, r, n) := Awaited(k, h, data, target, turns);
      if r.SendDone? {
        RepliesAreQueued(l, h, replies[1..], fixed, turns[n..]);
        var l2 := Replied(l, h, replies[1..], fixed, turns[n..]).0;
        var dg := Datagram(SocketAddrToEndpoint(target), data);
        CarriesOneMore(dg, l2.queued[|l.queued|..], replies, fixed);
        assert l2.queued[|k.queued|..] == [dg] + l2.queued[|l.queued|..];
      } else {
        NothingCarried(replies, fixed);
        assert l.queued[|k.queued|..] == none;
      }
    }
  }

  lemma NothingCarried(replies: seq<Reply>, fixed: Option<SocketAddr>)
    ensures Carries([], replies, fixed)
  {
  }

  /** The downlink loop over its one buffer. Each of the first `sent` replies was queued once,
      in order and cut to size; the loop ends early with a reply that cannot be addressed, or
      in the middle of a reply when the turns run out. The stamp comes before the send. */
  method Downlink(socket: Engine.UdpSocket, cx: TaskId, replies: seq<Reply>, fixed: Option<SocketAddr>,
                  turns: seq<Turn>)
    returns (sent: nat, failed: bool, stamps: nat, polls: nat)
    requires LiveSocket(socket)
    modifies socket.engine, socket.engine.device
    ensures LiveSocket(socket) && sent <= |replies| && sent <= polls <= |turns|
    ensures (Own(socket), sent, failed, polls) == Replied(old(Own(socket)), socket.handle, replies, fixed, turns)
    ensures var (was, now) := (old(Own(socket)).queued, Own(socket).queued);
            was <= now && |now| == |was| + sent && Carries(now[|was|..], replies, fixed)
    ensures failed ==> sent < |replies| && !Reachable(replies[sent], fixed)
    ensures !failed && sent < |replies| ==> polls == |turns|
    ensures stamps == sent + if sent < |replies| then 1 else 0
  {
    hide LiveSocket, Own, Unaddressable, Awaited, StreamOk, Replied, Carries, WaitsForRoom, Reachable;
    var buf := new Byte[UDP_BUFFER_SIZE](_ => 0);
    sent, failed, stamps, polls := 0, false, 0, 0;
    ghost var (k, h) := (Own(socket), socket.handle);
    OwnIsSound(socket);
    RepliesWaitOnlyForRoom(k, h, replies, fixed, turns);
    RepliesAreQueued(k, h, replies, fixed, turns);
    assert replies[0..] == replies && turns[0..] == turns;
    var stuck := false;
    while sent < |replies| && !stuck
      invariant LiveSocket(socket) && sent <= |replies| && polls <= |turns|
      invariant stamps == (if stuck then sent + 1 else sent) && (stuck ==> sent < |replies|)
      invariant k.Udp? && StreamOk(k) && StreamOk(Own(socket))
      invariant !stuck ==>
                  && !failed
                  && var (l, s, f, m) := Replied(Own(socket), h, replies[sent..], fixed, turns[polls..]);
                  Replied(k, h, replies, fixed, turns) == (l, sent + s, f, polls + m)
      invariant stuck ==> Replied(k, h, replies, fixed, turns) == (Own(socket), sent, failed, polls)
      decreases |replies| - sent, !stuck
    {
      var reply := replies[sent];
      var n := Min(|reply.data|, buf.Length);
      Engine.CopyInto(buf, 0, reply.data[..n]);
      assert buf[..n] == Cut(reply.data);
      var target := if fixed.Some? then fixed.value else reply.peer;
      stamps := stamps + 1;
      var result;
      RepliedOne(Own(socket), h, replies, fixed, turns, sent, polls);
      result, polls := SendAwaited(socket, cx, buf, n, target, turns, polls);
      OwnIsSound(socket);
      if result.SendDone? {
        sent := sent + 1;
      } else {
        stuck, failed := true, result.SendFailed?;
      }
    }
    if !stuck {
      assert replies[sent..] == [];
      RepliedNone(Own(socket), h, fixed, turns[polls..]);
    }
    WaitingEnds(k, h, replies, fixed, turns);
  }

  lemma WaitingEnds(k: Socket, h: Handle, replies: seq<Reply>, fixed: Option<SocketAddr>, turns: seq<Turn>)
    requires k.Udp? && StreamOk(k) && WaitsForRoom(k, h, replies, fixed, turns)
    ensures var (l, sent, failed, polls) := Replied(k, h, replies, fixed, turns);
            && sent <= |replies| && sent <= polls <= |turns|
            && (failed ==> sent < |replies| && !Reachable(replies[sent], fixed))
            && (!failed && sent < |replies| ==> polls == |turns|)
  {
    hide StreamOk, Replied, Roomless, Reachable;
  }

  lemma OwnIsSound(socket: Engine.UdpSocket)
    requires LiveSocket(socket)
    ensures Own(socket).Udp? && StreamOk(Own(socket))
  {
  }

  // ---------- The uplink of a live session ----------

  /** What the uplink loop passes on of the answers its receives gave. */
  function PassedOn(receipts: seq<Receipt>, source: SocketAddr): seq<Bytes> {
    if receipts == [] then []
    else (if receipts[0].peer == source then [receipts[0].bytes] else []) + PassedOn(receipts[1..], source)
  }

  lemma {:induction false} PassedOnIsForwarded(rs: seq<Receipt>, dgs: seq<Datagram>, source: SocketAddr)
    requires Answers(rs, dgs) && forall i | 0 <= i < |rs| :: rs[i].room == UDP_BUFFER_SIZE
    ensures PassedOn(rs, source) == Forwarded(dgs, source)
  {
    if rs != [] {
      assert rs[0] == Owed(dgs[0], UDP_BUFFER_SIZE);
      assert forall i | 0 <= i < |rs[1..]| :: rs[1..][i] == rs[i + 1] && dgs[1..][i] == dgs[i + 1];
      PassedOnIsForwarded(rs[1..], dgs[1..], source);
    }
  }

  /** A live session in any run, with any other sessions' steps in between: what the uplink
      loop passes on of the answers its receives returned so far is an initial part of what
      all arrivals on its socket call for, and the rest is still queued. */
  lemma UplinkFollowsTheSocket(acts: seq<Action>, c: Core, t: TaskId, source: SocketAddr)
    requires Reaches(acts, c) && LiveUdp(c, t)
    requires forall i | 0 <= i < |AllTold(INITIAL, acts, t).receipts| ::
               AllTold(INITIAL, acts, t).receipts[i].room == UDP_BUFFER_SIZE
    ensures HasUdp(c.engine, c.sessions[t].flow.handle)
    ensures Forwarded(SocketOf(c, t).arrived, source)
         == PassedOn(AllTold(INITIAL, acts, t).receipts, source) + Forwarded(SocketOf(c, t).inbox, source)
  {
    hide Told, Next;
    ToldFromTheStart(acts, c, t);
    var k := SocketOf(c, t);
    PassedOnIsForwarded(AllTold(INITIAL, acts, t).receipts, k.taken, source);
    ForwardedAppends(k.taken, k.inbox, source);
  }
}
