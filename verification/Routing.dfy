/** Split-tunnel routing: which destinations bypass the proxy. */
module Routing {
  import opened Net

  /** Octet i of a 32-bit address, most significant first. */
  function Octet(a: Ipv4, i: nat): Byte
    requires i < 4
  {
    match i
    case 0 => a / 0x100_0000
    case 1 => a / 0x1_0000 % 0x100
    case 2 => a / 0x100 % 0x100
    case _ => a % 0x100
  }

  predicate IsPrivateV4(a: Ipv4) {
    if Octet(a, 0) == 10 then true
    else if Octet(a, 0) == 172 && Octet(a, 1) >= 16 && Octet(a, 1) <= 31 then true
    else if Octet(a, 0) == 192 && Octet(a, 1) == 168 then true
    else if Octet(a, 0) == 127 then true
    else if Octet(a, 0) == 169 && Octet(a, 1) == 254 then true
    else false
  }

  /** A CIDR block: the addresses that agree with `base` on the first `length` bits. */
  datatype Block = Block(base: Ipv4, length: nat)

  function Pow2(n: nat): (r: nat)
    ensures r > 0
  {
    if n == 0 then 1 else 2 * Pow2(n - 1)
  }

  ghost predicate InBlock(a: Ipv4, b: Block)
    requires b.length <= 32
  {
    a / Pow2(32 - b.length) == b.base / Pow2(32 - b.length)
  }

  /** RFC 1918 section 3, RFC 1122 section 3.2.1.3 and RFC 3927 section 2.1. */
  const DIRECT_BLOCKS: seq<Block> := [
    Block(0x0A00_0000, 8),   // 10.0.0.0/8
    Block(0xAC10_0000, 12),  // 172.16.0.0/12
    Block(0xC0A8_0000, 16),  // 192.168.0.0/16
    Block(0x7F00_0000, 8),   // 127.0.0.0/8
    Block(0xA9FE_0000, 16)   // 169.254.0.0/16
  ]

  ghost predicate InDirectBlock(a: Ipv4) {
    exists i :: 0 <= i < |DIRECT_BLOCKS| && InBlock(a, DIRECT_BLOCKS[i])
  }

  lemma BlockSpans()
    ensures Pow2(32 - 8) == 0x100_0000 && Pow2(32 - 12) == 0x10_0000 && Pow2(32 - 16) == 0x1_0000
  {
    assert Pow2(8) == 0x100;
    assert Pow2(16) == 0x1_0000;
    assert Pow2(20) == 0x10_0000;
    assert Pow2(24) == 0x100_0000;
  }

  /** Each octet test is membership in one block. */
  lemma FirstOctetTests(a: Ipv4)
    ensures InBlock(a, Block(0x0A00_0000, 8)) <==> Octet(a, 0) == 10
    ensures InBlock(a, Block(0x7F00_0000, 8)) <==> Octet(a, 0) == 127
  {
    BlockSpans();
  }

  lemma TwoOctetTests(a: Ipv4)
    ensures InBlock(a, Block(0xC0A8_0000, 16)) <==> Octet(a, 0) == 192 && Octet(a, 1) == 168
    ensures InBlock(a, Block(0xA9FE_0000, 16)) <==> Octet(a, 0) == 169 && Octet(a, 1) == 254
  {
    BlockSpans();
  }

  lemma RangeOctetTest(a: Ipv4)
    ensures InBlock(a, Block(0xAC10_0000, 12)) <==> Octet(a, 0) == 172 && 16 <= Octet(a, 1) <= 31
  {
    BlockSpans();
  }

  /** The octet tests hold exactly on the five blocks, and no address is in two of them. */
  lemma PrivateIffInOneBlock(a: Ipv4)
    ensures IsPrivateV4(a) <==> InDirectBlock(a)
    ensures forall i, j | 0 <= i < |DIRECT_BLOCKS| && 0 <= j < |DIRECT_BLOCKS| ::
              InBlock(a, DIRECT_BLOCKS[i]) && InBlock(a, DIRECT_BLOCKS[j]) ==> i == j
  {
    FirstOctetTests(a);
    TwoOctetTests(a);
    RangeOctetTest(a);
    var hit := i requires 0 <= i < 5 => InBlock(a, DIRECT_BLOCKS[i]);
    assert hit(0) <==> Octet(a, 0) == 10;
    assert hit(1) <==> Octet(a, 0) == 172 && 16 <= Octet(a, 1) <= 31;
    assert hit(2) <==> Octet(a, 0) == 192 && Octet(a, 1) == 168;
    assert hit(3) <==> Octet(a, 0) == 127;
    assert hit(4) <==> Octet(a, 0) == 169 && Octet(a, 1) == 254;
  }
}
