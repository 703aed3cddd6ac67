/** Addresses, endpoints and packets as the core sees them, and the two endpoint
    conversions of the UDP bridge. */
module Net {
  datatype Option<+T> = None | Some(value: T)

  type Byte = b: int | 0 <= b < 0x100
  type Bytes = seq<Byte>
  type Port = p: int | 0 <= p < 0x1_0000
  type U32 = n: int | 0 <= n < 0x1_0000_0000
  type Ipv4 = U32
  type Ipv6 = n: int | 0 <= n < 0x1_0000_0000_0000_0000_0000_0000_0000_0000

  /** The stack's own address and endpoint types. */
  datatype IpAddress = V4(v4: Ipv4) | V6(v6: Ipv6)
  datatype IpEndpoint = IpEndpoint(addr: IpAddress, port: Port)

  /** The standard library's socket address: the IPv6 form carries two more words. */
  datatype SocketAddr =
    | SockV4(ip: Ipv4, port: Port)
    | SockV6(ip6: Ipv6, port: Port, flowInfo: U32, scopeId: U32)

  function EndpointToSocketAddr(e: IpEndpoint): SocketAddr {
    match e.addr
    case V4(a) => SockV4(a, e.port)
    case V6(a) => SockV6(a, e.port, 0, 0)
  }

  function SocketAddrToEndpoint(a: SocketAddr): IpEndpoint {
    match a
    case SockV4(ip, port) => IpEndpoint(V4(ip), port)
    case SockV6(ip6, port, _, _) => IpEndpoint(V6(ip6), port)
  }

  /** Endpoint to socket address and back loses nothing; the other way round it loses
      exactly the flow information and the scope id. */
  lemma ConversionsRoundTrip(e: IpEndpoint, a: SocketAddr)
    ensures SocketAddrToEndpoint(EndpointToSocketAddr(e)) == e
    ensures EndpointToSocketAddr(SocketAddrToEndpoint(a)) == a
       <==> (a.SockV6? ==> a.flowInfo == 0 && a.scopeId == 0)
  {
  }

  /** The uplink filter compares socket addresses; it accepts a datagram exactly when its
      true sender is the session's source. */
  lemma FilterComparesTrueSources(from: IpEndpoint, ip: Ipv4, port: Port)
    ensures EndpointToSocketAddr(from) == SockV4(ip, port) <==> from == IpEndpoint(V4(ip), port)
  {
  }

  /** What the checked header accessors yield for one packet from the TUN interface. */
  datatype Transport =
    | TcpSegment(dstPort: Port, syn: bool, ack: bool)
    | UdpDatagram(srcPort: Port, udpDstPort: Port)
    | MalformedTransport
    | OtherProtocol

  datatype Packet =
    | NotIpv4(raw: Bytes)
    | Ipv4Packet(src: Ipv4, dst: Ipv4, transport: Transport, raw: Bytes)
}
