/** IP packets on the TUN device: parsing what the kernel writes, building what it reads.
    A `Filler` stands for the octets the proxy sets through its packet library and never
    reads back: IPv4 identification and fragment words, and the checksums. */
module Packets {
  import opened Base

  datatype TcpFlags = TcpFlags(syn: bool, ack: bool, fin: bool, rst: bool, psh: bool)

  datatype TcpPacket = TcpPacket(srcIp: IpAddr, dstIp: IpAddr, srcPort: u16, dstPort: u16,
                                 seqNo: u32, ackNo: u32, flags: TcpFlags, window: u16, payload: seq<byte>)

  datatype UdpPacket = UdpPacket(srcIp: IpAddr, dstIp: IpAddr, srcPort: u16, dstPort: u16, payload: seq<byte>)

  datatype ParsedPacket = Tcp(tcp: TcpPacket) | Udp(udp: UdpPacket) | Other(protocol: byte)

  /** `Panics` is a slice whose end precedes its start. */
  datatype ParseResult = Parsed(packet: ParsedPacket) | Rejected | Panics

  type Octets2 = s: seq<byte> | |s| == 2 witness [0, 0]

  datatype Filler = Filler(ipWords: Octets4, ipSum: Octets2, sum: Octets2)

  /** The library's walk over IPv6 extension headers: next header and payload after it. */
  type Walk = (byte, seq<byte>) -> Option<(byte, seq<byte>)>

  const TCP: byte := 6
  const UDP: byte := 17

  // -------------------------------------------------------------- parsing

  function ParseTransport(protocol: byte, srcIp: IpAddr, dstIp: IpAddr, p: seq<byte>): ParseResult {
    if protocol == TCP then
      if |p| < 20 || p[12] / 16 < 5 || |p| < 4 * (p[12] / 16) then Rejected
      else
        Widths();
        Parsed(Tcp(TcpPacket(srcIp, dstIp, FromBig(p[0..2]), FromBig(p[2..4]), FromBig(p[4..8]), FromBig(p[8..12]),
                             FlagsOf(p[13]), FromBig(p[14..16]), p[4 * (p[12] / 16)..])))
    else if protocol == UDP then
      if |p| < 8 then Rejected
      else
        Widths();
        Parsed(Udp(UdpPacket(srcIp, dstIp, FromBig(p[0..2]), FromBig(p[2..4]), p[8..])))
    else Parsed(Other(protocol))
  }

  function FlagsOf(b: byte): TcpFlags {
    TcpFlags(b / 2 % 2 == 1, b / 16 % 2 == 1, b % 2 == 1, b / 4 % 2 == 1, b / 8 % 2 == 1)
  }

  function ParseIpv4(data: seq<byte>): ParseResult
    requires data != [] && data[0] / 16 == 4
  {
    var headerLen := 4 * (data[0] % 16);
    if |data| < 20 || headerLen < 20 || |data| < headerLen then Rejected
    else
      var totalLen := FromBig(data[2..4]);
      var end := if totalLen < |data| then totalLen else |data|;
      if end < headerLen then Panics
      else ParseTransport(data[9], V4(data[12..16]), V4(data[16..20]), data[headerLen..end])
  }

  function ParseIpv6(data: seq<byte>, walk: Walk): ParseResult
    requires data != [] && data[0] / 16 == 6
  {
    if |data| < 40 then Rejected
    else
      var end := 40 + FromBig(data[4..6]);
      match walk(data[6], data[40..if end < |data| then end else |data|])
      case None => Rejected
      case Some((protocol, payload)) =>
        ParseTransport(protocol, V6(data[8..24]), V6(data[24..40]), payload)
  }

  function ParseIp(data: seq<byte>, walk: Walk): ParseResult {
    if data == [] then Rejected
    else if data[0] / 16 == 4 then ParseIpv4(data)
    else if data[0] / 16 == 6 then ParseIpv6(data, walk)
    else Rejected
  }

  // ------------------------------------------------------------- building

  function FlagsByte(f: TcpFlags): byte {
    (if f.fin then 1 else 0) + (if f.syn then 2 else 0) + (if f.rst then 4 else 0)
    + (if f.psh then 8 else 0) + (if f.ack then 16 else 0)
  }

  function PortBytes(src: u16, dst: u16): (bs: seq<byte>)
    ensures |bs| == 4 && bs[0..2] == bs[..2] && FromBig(bs[0..2]) == src && FromBig(bs[2..4]) == dst
  {
    Widths();
    var a, b := ToBig(src, 2), ToBig(dst, 2);
    Front(a, b);
    assert (a + b)[2..4] == b;
    a + b
  }

  function NumberBytes(seqNo: u32, ackNo: u32): (bs: seq<byte>)
    ensures |bs| == 8 && FromBig(bs[0..4]) == seqNo && FromBig(bs[4..8]) == ackNo
  {
    Widths();
    var a, b := ToBig(seqNo, 4), ToBig(ackNo, 4);
    Front(a, b);
    assert (a + b)[4..8] == b;
    a + b
  }

  /** Header length, flags, window, checksum and urgent pointer. */
  function ControlBytes(flags: byte, window: u16, sum: Octets2): (bs: seq<byte>)
    ensures |bs| == 8 && bs[0] == 0x50 && bs[1] == flags && FromBig(bs[2..4]) == window
  {
    Widths();
    var w := ToBig(window, 2);
    var bs := [0x50, flags] + w + (sum + [0, 0]);
    assert bs[2..4] == w;
    bs
  }

  function TcpBytes(p: TcpPacket, filler: Filler): seq<byte> {
    PortBytes(p.srcPort, p.dstPort)
    + (NumberBytes(p.seqNo, if p.flags.ack then p.ackNo else 0)
       + (ControlBytes(FlagsByte(p.flags), p.window, filler.sum) + p.payload))
  }

  function UdpBytes(p: UdpPacket, filler: Filler): seq<byte>
    requires 8 + |p.payload| < 0x1_0000
  {
    Widths();
    PortBytes(p.srcPort, p.dstPort) + (ToBig(8 + |p.payload|, 2) + filler.sum + p.payload)
  }

  /** The IP header for a transport segment of the given length. */
  function IpHeader(src: IpAddr, dst: IpAddr, protocol: byte, len: nat, filler: Filler): seq<byte>
    requires SameFamily(src, dst) && len + (if src.V4? then 20 else 0) < 0x1_0000
  {
    Widths();
    if src.V4? then
      [0x45, 0] + ToBig(20 + len, 2) + filler.ipWords + [64, protocol] + filler.ipSum + src.four + dst.four
    else
      [0x60, 0, 0, 0] + ToBig(len, 2) + [protocol, 64] + src.sixteen + dst.sixteen
  }

  /** What building a packet demands: one address family, and a length that its
      16-bit length field can hold. The source panics otherwise. */
  predicate TcpBuildable(p: TcpPacket) {
    SameFamily(p.srcIp, p.dstIp) && 20 + |p.payload| + (if p.srcIp.V4? then 20 else 0) < 0x1_0000
  }

  predicate UdpBuildable(p: UdpPacket) {
    SameFamily(p.srcIp, p.dstIp) && 8 + |p.payload| + (if p.srcIp.V4? then 20 else 0) < 0x1_0000
  }

  function BuiltTcp(p: TcpPacket, filler: Filler): seq<byte>
    requires TcpBuildable(p)
  {
    IpHeader(p.srcIp, p.dstIp, TCP, 20 + |p.payload|, filler) + TcpBytes(p, filler)
  }

  function BuiltUdp(p: UdpPacket, filler: Filler): seq<byte>
    requires UdpBuildable(p)
  {
    IpHeader(p.srcIp, p.dstIp, UDP, 8 + |p.payload|, filler) + UdpBytes(p, filler)
  }

  /** The builder's flags, and its acknowledgment, which is set along with the ACK flag. */
  method SwitchOn(p: TcpPacket) returns (flags: byte, ack: u32)
    ensures flags == FlagsByte(p.flags) && ack == if p.flags.ack then p.ackNo else 0
  {
    flags, ack := 0, 0;
    if p.flags.syn { flags := flags + 2; }
    if p.flags.ack { flags, ack := flags + 16, p.ackNo; }
    if p.flags.fin { flags := flags + 1; }
    if p.flags.rst { flags := flags + 4; }
    if p.flags.psh { flags := flags + 8; }
  }

  /** The builder chain: flags are switched on one by one, then the parts are written out. */
  method BuildTcp(p: TcpPacket, filler: Filler) returns (result: seq<byte>)
    requires TcpBuildable(p)
    ensures result == BuiltTcp(p, filler)
  {
    var flags, ack := SwitchOn(p);
    var tcp := ControlBytes(flags, p.window, filler.sum) + p.payload;
    tcp := NumberBytes(p.seqNo, ack) + tcp;
    tcp := PortBytes(p.srcPort, p.dstPort) + tcp;
    result := IpHeader(p.srcIp, p.dstIp, TCP, 20 + |p.payload|, filler) + tcp;
  }

  // ------------------------------------------------------ parsing any header

  /** What a reader of the packet learns: the acknowledgment only counts with the ACK flag. */
  function Received(p: TcpPacket): TcpPacket {
    p.(ackNo := if p.flags.ack then p.ackNo else 0)
  }

  lemma SlicesAreNumbers(bs: seq<byte>, at: nat)
    ensures at + 2 <= |bs| ==> FromBig(bs[at..at + 2]) == Two(bs, at) < 0x1_0000
    ensures at + 4 <= |bs| ==> FromBig(bs[at..at + 4]) == Four(bs, at) < TWO32
  {
    if at + 2 <= |bs| {
      BigEndian(bs[at..at + 2]);
    }
    if at + 4 <= |bs| {
      BigEndian(bs[at..at + 4]);
    }
  }

  /** A TCP header of any length: ports, sequence and acknowledgment numbers, control octets
      (header length in words, flags, window, checksum, urgent pointer), and options. */
  datatype TcpHead = TcpHead(ports: seq<byte>, numbers: seq<byte>, control: seq<byte>, options: seq<byte>) {
    /** The header announces its own length in 32-bit words. */
    predicate Valid() {
      && |ports| == 4 && |numbers| == 8 && |control| == 8 && |options| % 4 == 0
      && 4 * (control[0] / 16) == 20 + |options|
    }

    function Octets(): seq<byte> {
      ports + (numbers + (control + options))
    }

    /** The segment with this header: every field where RFC 9293, section 3.1 puts it. */
    function Segment(src: IpAddr, dst: IpAddr, payload: seq<byte>): TcpPacket
      requires Valid()
    {
      SlicesAreNumbers(numbers, 0);
      SlicesAreNumbers(numbers, 4);
      var f := control[1];
      var flags := TcpFlags(f / 2 % 2 == 1, f / 16 % 2 == 1, f % 2 == 1, f / 4 % 2 == 1, f / 8 % 2 == 1);
      TcpPacket(src, dst, Two(ports, 0), Two(ports, 2), Four(numbers, 0), Four(numbers, 4),
                flags, Two(control, 2), payload)
    }
  }

  lemma HeadOctets(h: TcpHead, payload: seq<byte>)
    requires h.Valid()
    ensures var b := h.Octets() + payload;
      && |h.Octets()| == 20 + |h.options|
      && b[0..2] == h.ports[0..2] && b[2..4] == h.ports[2..4]
      && b[4..8] == h.numbers[0..4] && b[8..12] == h.numbers[4..8]
      && b[12] == h.control[0] && b[13] == h.control[1] && b[14..16] == h.control[2..4]
      && b[20 + |h.options|..] == payload
  {
    var rest := h.control + (h.options + payload);
    assert h.Octets() + payload == h.ports + (h.numbers + rest);
    TcpNumbers(h.ports, h.numbers, rest);
    TcpControl(h.ports, h.numbers, h.control, h.options + payload);
    assert (h.Octets() + payload)[20 + |h.options|..] == payload;
  }

  /** Parsing any TCP header followed by any payload returns its fields and exactly that
      payload: options are skipped, whatever they hold. */
  lemma TcpHeadParses(h: TcpHead, src: IpAddr, dst: IpAddr, payload: seq<byte>)
    requires h.Valid()
    ensures ParseTransport(6, src, dst, h.Octets() + payload) == Parsed(Tcp(h.Segment(src, dst, payload)))
  {
    HeadOctets(h, payload);
    SlicesAreNumbers(h.ports, 0);
    SlicesAreNumbers(h.ports, 2);
    SlicesAreNumbers(h.numbers, 0);
    SlicesAreNumbers(h.numbers, 4);
    SlicesAreNumbers(h.control, 2);
  }

  /** A TCP header of the length it announces, and a payload behind it. */
  predicate IsTcp(p: seq<byte>, h: TcpHead, payload: seq<byte>) {
    h.Valid() && p == h.Octets() + payload
  }

  /** The header and the payload of a segment that parses. */
  lemma ParsedIsTcp(src: IpAddr, dst: IpAddr, p: seq<byte>) returns (h: TcpHead, payload: seq<byte>)
    requires ParseTransport(6, src, dst, p).Parsed?
    ensures IsTcp(p, h, payload)
  {
    var n := 4 * (p[12] / 16);
    h, payload := TcpHead(p[0..4], p[4..12], p[12..20], p[20..n]), p[n..|p|];
    assert h.control[0] == p[12];
    Adjacent(p, 12, 20, n);
    Adjacent(p, 4, 12, n);
    Adjacent(p, 0, 4, n);
    Adjacent(p, 0, n, |p|);
  }

  /** Nothing else is a TCP segment: what parses is such a header and its payload. */
  lemma TcpParsesExactly(src: IpAddr, dst: IpAddr, p: seq<byte>)
    ensures ParseTransport(6, src, dst, p).Parsed? <==> exists h: TcpHead, payload: seq<byte> :: IsTcp(p, h, payload)
  {
    if ParseTransport(6, src, dst, p).Parsed? {
      var h, payload := ParsedIsTcp(src, dst, p);
    } else if h: TcpHead, payload: seq<byte> :| IsTcp(p, h, payload) {
      TcpHeadParses(h, src, dst, payload);
    }
  }

  /** The same for UDP, whose header is eight octets long. */
  lemma UdpParsesExactly(src: IpAddr, dst: IpAddr, p: seq<byte>)
    ensures ParseTransport(17, src, dst, p)
         == if |p| < 8 then Rejected else Parsed(Udp(UdpPacket(src, dst, Two(p, 0), Two(p, 2), p[8..])))
  {
    if |p| >= 8 {
      SlicesAreNumbers(p, 0);
      SlicesAreNumbers(p, 2);
    }
  }

  lemma TcpTransportRoundTrip(p: TcpPacket, filler: Filler)
    ensures ParseTransport(TCP, p.srcIp, p.dstIp, TcpBytes(p, filler)) == Parsed(Tcp(Received(p)))
  {
    var h := BuiltHead(p, filler);
    BuiltHeadFirst(p, filler);
    TcpHeadParses(h, p.srcIp, p.dstIp, p.payload);
    BuiltHeadHolds(p, filler);
    HeldFieldsParse(h, p);
  }

  function BuiltHead(p: TcpPacket, filler: Filler): TcpHead {
    TcpHead(PortBytes(p.srcPort, p.dstPort), NumberBytes(p.seqNo, if p.flags.ack then p.ackNo else 0),
            ControlBytes(FlagsByte(p.flags), p.window, filler.sum), [])
  }

  lemma PortFields(src: u16, dst: u16)
    ensures Two(PortBytes(src, dst), 0) == src && Two(PortBytes(src, dst), 2) == dst
  {
    SlicesAreNumbers(PortBytes(src, dst), 0);
    SlicesAreNumbers(PortBytes(src, dst), 2);
  }

  lemma NumberFields(seqNo: u32, ackNo: u32)
    ensures Four(NumberBytes(seqNo, ackNo), 0) == seqNo && Four(NumberBytes(seqNo, ackNo), 4) == ackNo
  {
    SlicesAreNumbers(NumberBytes(seqNo, ackNo), 0);
    SlicesAreNumbers(NumberBytes(seqNo, ackNo), 4);
  }

  lemma ControlFields(flags: byte, window: u16, sum: Octets2)
    ensures var c := ControlBytes(flags, window, sum);
      && |c| == 8 && c[0] == 0x50 && 4 * (c[0] / 16) == 20 && c[1] == flags && Two(c, 2) == window
      && c[4..6] == sum && c[6..8] == [0, 0]
  {
    SlicesAreNumbers(ControlBytes(flags, window, sum), 2);
  }

  /** A header of five words that holds the fields of a packet; the acknowledgment number
      is there only with its flag. */
  predicate Holds(h: TcpHead, p: TcpPacket) {
    && h.Valid() && h.options == []
    && Two(h.ports, 0) == p.srcPort && Two(h.ports, 2) == p.dstPort
    && Four(h.numbers, 0) == p.seqNo && Four(h.numbers, 4) == (if p.flags.ack then p.ackNo else 0)
    && h.control[1] == (if p.flags.fin then 1 else 0) + (if p.flags.syn then 2 else 0) + (if p.flags.rst then 4 else 0)
         + (if p.flags.psh then 8 else 0) + (if p.flags.ack then 16 else 0)
    && Two(h.control, 2) == p.window && h.control[6..8] == [0, 0]
  }

  lemma BuiltHeadHolds(p: TcpPacket, filler: Filler)
    ensures Holds(BuiltHead(p, filler), p)
  {
    PortFields(p.srcPort, p.dstPort);
    NumberFields(p.seqNo, if p.flags.ack then p.ackNo else 0);
    ControlFields(FlagsByte(p.flags), p.window, filler.sum);
  }

  lemma BuiltHeadFirst(p: TcpPacket, filler: Filler)
    ensures TcpBytes(p, filler) == BuiltHead(p, filler).Octets() + p.payload
  {
    var h := BuiltHead(p, filler);
    assert h.control + [] == h.control;
    assert h.Octets() + p.payload == h.ports + (h.numbers + (h.control + p.payload));
  }

  lemma HeldFieldsParse(h: TcpHead, p: TcpPacket)
    requires Holds(h, p)
    ensures h.Segment(p.srcIp, p.dstIp, p.payload) == Received(p)
  {
  }

  lemma TcpNumbers(ports: seq<byte>, numbers: seq<byte>, tail: seq<byte>)
    requires |ports| == 4 && |numbers| == 8
    ensures var b := ports + (numbers + tail);
      b[4..8] == numbers[0..4] && b[8..12] == numbers[4..8] && b[12..] == tail
  {
    Behind(ports, numbers + tail, 0, 4);
    Behind(ports, numbers + tail, 4, 8);
    Front(numbers, tail);
    Behind(ports, numbers + tail, 8, 8 + |tail|);
    assert (numbers + tail)[0..4] == numbers[0..4] && (numbers + tail)[4..8] == numbers[4..8];
  }

  lemma TcpControl(ports: seq<byte>, numbers: seq<byte>, control: seq<byte>, payload: seq<byte>)
    requires |ports| == 4 && |numbers| == 8 && |control| == 8
    ensures var b := ports + (numbers + (control + payload));
      b[12] == control[0] && b[13] == control[1] && b[14..16] == control[2..4] && b[20..] == payload
  {
    var tail := control + payload;
    var b := ports + (numbers + tail);
    TcpNumbers(ports, numbers, tail);
    Front(control, payload);
    assert b[12] == b[12..][0] && b[13] == b[12..][1];
    assert b[14..16] == b[12..][2..4] && tail[2..4] == control[2..4];
    assert b[20..] == b[12..][8..];
  }

  /** The walk leaves a transport header where it is. */
  ghost predicate WalkKeeps(walk: Walk, protocol: byte, segment: seq<byte>) {
    walk(protocol, segment) == Some((protocol, segment))
  }

  /** An IPv4 header of any length, options included, and an IPv6 header. */
  predicate Ipv4Head(head: seq<byte>) {
    |head| >= 20 && head[0] / 16 == 4 && |head| == 4 * (head[0] % 16)
  }

  predicate Ipv6Head(head: seq<byte>) {
    |head| == 40 && head[0] / 16 == 6
  }

  /** The announced length ends the body where bytes follow it, or lies beyond the data. */
  predicate Announces(length: nat, body: seq<byte>, junk: seq<byte>) {
    length == |body| || (length > |body| && junk == [])
  }

  /** A packet cut into its header, its body and what follows. */
  predicate IsIpv4(data: seq<byte>, head: seq<byte>, body: seq<byte>, junk: seq<byte>) {
    && data == head + body + junk && Ipv4Head(head)
    && Two(head, 2) >= |head| && Announces(Two(head, 2) - |head|, body, junk)
  }

  predicate IsIpv6(data: seq<byte>, head: seq<byte>, body: seq<byte>, junk: seq<byte>) {
    data == head + body + junk && Ipv6Head(head) && Announces(Two(head, 4), body, junk)
  }

  /** Any IPv4 packet: the transport protocol, the addresses and the body are those of the
      header (RFC 791, section 3.1); bytes past the total length are dropped. */
  lemma Ipv4Parses(data: seq<byte>, head: seq<byte>, body: seq<byte>, junk: seq<byte>, walk: Walk)
    requires IsIpv4(data, head, body, junk)
    ensures ParseIp(data, walk) == ParseTransport(head[9], V4(head[12..16]), V4(head[16..20]), body)
  {
    assert data[2..4] == head[2..4] && data[12..16] == head[12..16] && data[16..20] == head[16..20];
    SlicesAreNumbers(head, 2);
    assert data[|head|..|head| + |body|] == body;
  }

  /** Any IPv6 packet (RFC 8200, section 3), up to the walk over extension headers. */
  lemma Ipv6Parses(data: seq<byte>, head: seq<byte>, body: seq<byte>, junk: seq<byte>, walk: Walk)
    requires IsIpv6(data, head, body, junk)
    ensures ParseIp(data, walk) ==
      match walk(head[6], body)
      case None => Rejected
      case Some((protocol, segment)) => ParseTransport(protocol, V6(head[8..24]), V6(head[24..40]), segment)
  {
    assert data[4..6] == head[4..6] && data[8..24] == head[8..24] && data[24..40] == head[24..40];
    SlicesAreNumbers(head, 4);
    assert data[40..40 + |body|] == body;
  }

  /** Data cut at two places, the second no later than its end. */
  lemma CutInThree(data: seq<byte>, at: nat, total: nat)
    requires at <= |data| && at <= total
    ensures var end := if total < |data| then total else |data|;
      data == data[..at] + data[at..end] + data[end..] && Announces(total - at, data[at..end], data[end..])
  {
  }

  lemma OnlyIpv4Parses(data: seq<byte>, walk: Walk)
    requires data != [] && data[0] / 16 == 4 && ParseIp(data, walk).Parsed?
    ensures exists head: seq<byte>, body: seq<byte>, junk: seq<byte> :: IsIpv4(data, head, body, junk)
  {
    var at, total := 4 * (data[0] % 16), Two(data, 2);
    var end := if total < |data| then total else |data|;
    SlicesAreNumbers(data, 2);
    CutInThree(data, at, total);
    assert IsIpv4(data, data[..at], data[at..end], data[end..]);
  }

  lemma OnlyIpv6Parses(data: seq<byte>, walk: Walk)
    requires data != [] && data[0] / 16 == 6 && ParseIp(data, walk).Parsed?
    ensures exists head: seq<byte>, body: seq<byte>, junk: seq<byte> :: IsIpv6(data, head, body, junk)
  {
    var total := 40 + Two(data, 4);
    var end := if total < |data| then total else |data|;
    CutInThree(data, 40, total);
    assert IsIpv6(data, data[..40], data[40..end], data[end..]);
  }

  /** And nothing else parses. */
  lemma OnlyIpParses(data: seq<byte>, walk: Walk)
    requires ParseIp(data, walk).Parsed?
    ensures data != []
    ensures data[0] / 16 == 4 ==>
      exists head: seq<byte>, body: seq<byte>, junk: seq<byte> :: IsIpv4(data, head, body, junk)
    ensures data[0] / 16 != 4 ==>
      exists head: seq<byte>, body: seq<byte>, junk: seq<byte> :: IsIpv6(data, head, body, junk)
  {
    if data[0] / 16 == 4 {
      OnlyIpv4Parses(data, walk);
    } else {
      OnlyIpv6Parses(data, walk);
    }
  }

  /** A TCP segment with any options, in either family: the payload is what follows its
      header, whatever the options hold. */
  lemma OptionsAreSkipped(head: seq<byte>, h: TcpHead, payload: seq<byte>, junk: seq<byte>, walk: Walk)
    requires h.Valid()
    ensures var body := h.Octets() + payload;
      Ipv4Head(head) && head[9] == 6 && Two(head, 2) == |head| + |body| ==>
        ParseIp(head + body + junk, walk) == Parsed(Tcp(h.Segment(V4(head[12..16]), V4(head[16..20]), payload)))
    ensures var body := h.Octets() + payload;
      Ipv6Head(head) && Two(head, 4) == |body| && walk(head[6], body) == Some((TCP, body)) ==>
        ParseIp(head + body + junk, walk) == Parsed(Tcp(h.Segment(V6(head[8..24]), V6(head[24..40]), payload)))
  {
    var body := h.Octets() + payload;
    if Ipv4Head(head) && head[9] == 6 && Two(head, 2) == |head| + |body| {
      Ipv4Parses(head + body + junk, head, body, junk, walk);
      TcpHeadParses(h, V4(head[12..16]), V4(head[16..20]), payload);
    }
    if Ipv6Head(head) && Two(head, 4) == |body| && walk(head[6], body) == Some((TCP, body)) {
      Ipv6Parses(head + body + junk, head, body, junk, walk);
      TcpHeadParses(h, V6(head[8..24]), V6(head[24..40]), payload);
    }
  }

  // ------------------------------------------------------------- the octets built

  /** The octets of a built IP header that the receiver reads: version and length, total or
      payload length, time to live or hop limit, protocol, addresses. */
  predicate HeaderOctets(head: seq<byte>, src: IpAddr, dst: IpAddr, protocol: byte, len: nat) {
    match (src, dst)
    case (V4(a), V4(b)) =>
      && |head| == 20 && head[0] == 0x45 && head[1] == 0 && Two(head, 2) == 20 + len
      && head[8] == 64 && head[9] == protocol && head[12..16] == a && head[16..20] == b
    case (V6(a), V6(b)) =>
      && |head| == 40 && head[..4] == [0x60, 0, 0, 0] && Two(head, 4) == len
      && head[6] == protocol && head[7] == 64 && head[8..24] == a && head[24..40] == b
    case _ => false
  }

  lemma HeaderIsLaidOut(src: IpAddr, dst: IpAddr, protocol: byte, len: nat, filler: Filler)
    requires SameFamily(src, dst) && len + (if src.V4? then 20 else 0) < 0x1_0000
    ensures HeaderOctets(IpHeader(src, dst, protocol, len, filler), src, dst, protocol, len)
  {
    Widths();
    var head := IpHeader(src, dst, protocol, len, filler);
    SlicesAreNumbers(head, 2);
    SlicesAreNumbers(head, 4);
    if src.V4? {
      assert head[2..4] == ToBig(20 + len, 2) && head[12..16] == src.four && head[16..20] == dst.four;
    } else {
      assert head[4..6] == ToBig(len, 2) && head[8..24] == src.sixteen && head[24..40] == dst.sixteen;
    }
  }

  /** Every octet of a built TCP packet that a receiver reads: the IP header, then ports,
      numbers, a header of five words, the five flags, the window, and the payload. */
  lemma TcpIsLaidOut(p: TcpPacket, filler: Filler)
    requires TcpBuildable(p)
    ensures var h := BuiltHead(p, filler);
      var head := IpHeader(p.srcIp, p.dstIp, TCP, 20 + |p.payload|, filler);
      && BuiltTcp(p, filler) == head + (h.Octets() + p.payload)
      && HeaderOctets(head, p.srcIp, p.dstIp, 6, 20 + |p.payload|) && Holds(h, p)
  {
    HeaderIsLaidOut(p.srcIp, p.dstIp, TCP, 20 + |p.payload|, filler);
    BuiltHeadHolds(p, filler);
    BuiltHeadFirst(p, filler);
  }

  /** And of a built UDP packet: ports, the length of header and payload, checksum. */
  lemma UdpIsLaidOut(p: UdpPacket, filler: Filler)
    requires UdpBuildable(p)
    ensures var head := IpHeader(p.srcIp, p.dstIp, UDP, 8 + |p.payload|, filler);
      var b := UdpBytes(p, filler);
      && BuiltUdp(p, filler) == head + b && HeaderOctets(head, p.srcIp, p.dstIp, 17, 8 + |p.payload|)
      && |b| == 8 + |p.payload| && Two(b, 0) == p.srcPort && Two(b, 2) == p.dstPort
      && Two(b, 4) == 8 + |p.payload| && b[8..] == p.payload
  {
    Widths();
    HeaderIsLaidOut(p.srcIp, p.dstIp, UDP, 8 + |p.payload|, filler);
    var ports, length := PortBytes(p.srcPort, p.dstPort), ToBig(8 + |p.payload|, 2);
    var b := UdpBytes(p, filler);
    PortFields(p.srcPort, p.dstPort);
    SlicesAreNumbers(length, 0);
    assert b == ports + (length + filler.sum + p.payload);
    assert b[4] == length[0] && b[5] == length[1];
  }

  // ----------------------------------------------------------------- round trip

  /** Parsing a built TCP packet gives it back, for both families and whatever bytes
      follow the length the header announces. */
  lemma TcpRoundTrip(p: TcpPacket, filler: Filler, junk: seq<byte>, walk: Walk)
    requires TcpBuildable(p)
    requires p.srcIp.V6? ==> WalkKeeps(walk, TCP, TcpBytes(p, filler))
    ensures ParseIp(BuiltTcp(p, filler) + junk, walk) == Parsed(Tcp(Received(p)))
  {
    TransportRoundTrip(p.srcIp, p.dstIp, TCP, TcpBytes(p, filler), junk, filler, walk);
    TcpTransportRoundTrip(p, filler);
  }

  /** Parsing a built IP header hands on the transport segment behind it. */
  lemma TransportRoundTrip(src: IpAddr, dst: IpAddr, protocol: byte, segment: seq<byte>, junk: seq<byte>,
                           filler: Filler, walk: Walk)
    requires SameFamily(src, dst) && |segment| + (if src.V4? then 20 else 0) < 0x1_0000
    requires src.V6? ==> WalkKeeps(walk, protocol, segment)
    ensures ParseIp(IpHeader(src, dst, protocol, |segment|, filler) + segment + junk, walk)
         == ParseTransport(protocol, src, dst, segment)
  {
    HeaderIsLaidOut(src, dst, protocol, |segment|, filler);
    var head := IpHeader(src, dst, protocol, |segment|, filler);
    if src.V4? {
      Ipv4Parses(head + segment + junk, head, segment, junk, walk);
    } else {
      Ipv6Parses(head + segment + junk, head, segment, junk, walk);
    }
  }

  lemma UdpRoundTrip(p: UdpPacket, filler: Filler, junk: seq<byte>, walk: Walk)
    requires UdpBuildable(p)
    requires p.srcIp.V6? ==> WalkKeeps(walk, UDP, UdpBytes(p, filler))
    ensures ParseIp(BuiltUdp(p, filler) + junk, walk) == Parsed(Udp(p))
  {
    UdpIsLaidOut(p, filler);
    TransportRoundTrip(p.srcIp, p.dstIp, UDP, UdpBytes(p, filler), junk, filler, walk);
    UdpParsesExactly(p.srcIp, p.dstIp, UdpBytes(p, filler));
  }

  /** A packet without extension headers: its transport header follows at once. */
  const NO_EXTENSIONS: Walk := (protocol, segment) => Some((protocol, segment))

  /** The builder: header and payload are written into one growing vector, which parses
      back to the packet, whatever bytes follow. */
  method BuildUdp(p: UdpPacket, filler: Filler) returns (result: seq<byte>)
    requires UdpBuildable(p)
    ensures |result| == (if p.srcIp.V4? then 28 else 48) + |p.payload|
    ensures forall junk :: ParseIp(result + junk, NO_EXTENSIONS) == Parsed(Udp(p))
  {
    Widths();
    var length := ToBig(8 + |p.payload|, 2);
    match p.srcIp {
      case V4(src) =>
        result := [0x45, 0] + ToBig(28 + |p.payload|, 2) + filler.ipWords + [64, UDP] + filler.ipSum;
        result := result + src + p.dstIp.four;
      case V6(src) =>
        result := [0x60, 0, 0, 0] + length + [UDP, 64] + src + p.dstIp.sixteen;
    }
    assert result == IpHeader(p.srcIp, p.dstIp, UDP, 8 + |p.payload|, filler);
    result := result + (PortBytes(p.srcPort, p.dstPort) + (length + filler.sum + p.payload));
    assert result == BuiltUdp(p, filler);
    forall junk ensures ParseIp(result + junk, NO_EXTENSIONS) == Parsed(Udp(p)) {
      UdpRoundTrip(p, filler, junk, NO_EXTENSIONS);
    }
  }

  /** Bytes past the announced total length change nothing, for any IPv4 packet. */
  lemma Ipv4TailIgnored(data: seq<byte>, junk: seq<byte>, walk: Walk)
    requires |data| >= 20 && data[0] / 16 == 4
    requires 4 * (data[0] % 16) <= |data| && FromBig(data[2..4]) <= |data|
    ensures ParseIp(data + junk, walk) == ParseIp(data, walk)
  {
    var all := data + junk;
    var headerLen, totalLen := 4 * (data[0] % 16), FromBig(data[2..4]);
    assert all[2..4] == data[2..4] && all[12..16] == data[12..16] && all[16..20] == data[16..20];
    if headerLen <= totalLen {
      assert all[headerLen..totalLen] == data[headerLen..totalLen];
    }
  }

  // ------------------------------------------------- what every parsed packet satisfies

  /** A segment as it leaves the parser: one address family, and a payload shorter
      than the 16-bit length field that bounded it. */
  predicate FromWire(p: TcpPacket) {
    SameFamily(p.srcIp, p.dstIp) && |p.payload| < 0xFFFF
  }

  /** The walk only ever narrows what it is given. */
  ghost predicate WalkNarrows(walk: Walk) {
    forall next, payload :: walk(next, payload).Some? ==> |walk(next, payload).value.1| <= |payload|
  }

  lemma ParsedFitsU16(data: seq<byte>, walk: Walk)
    requires WalkNarrows(walk)
    ensures var r := ParseIp(data, walk);
      && (r.Parsed? && r.packet.Tcp? ==> FromWire(r.packet.tcp))
      && (r.Parsed? && r.packet.Udp? ==> SameFamily(r.packet.udp.srcIp, r.packet.udp.dstIp))
  {
    Widths();
  }

  /** The parser panics on exactly the IPv4 packets that are long enough for their
      header and announce a total length shorter than it. */
  lemma ParsePanicsExactly(data: seq<byte>, walk: Walk)
    ensures ParseIp(data, walk).Panics? <==> data != [] && data[0] / 16 == 4 && ShortTotal(data)
  {
  }

  predicate ShortTotal(data: seq<byte>) {
    |data| >= 20 && 20 <= 4 * (data[0] % 16) <= |data| && FromBig(data[2..4]) < 4 * (data[0] % 16)
  }
}
