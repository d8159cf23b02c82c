/** The postcard wire format of the two message enums: LEB128 varints for every
    integer wider than a byte, for lengths and for variant indexes; raw octets
    for addresses. Decoding consumes a prefix and ignores what follows it. */
module Codec {
  import opened Base
  import opened Messages

  function Varint(n: nat): (bs: seq<byte>)
    ensures |bs| > 0
  {
    if n < 128 then [n] else [128 + n % 128] + Varint(n / 128)
  }

  /** Reads a varint of at most `most` bytes. */
  function TakeVarint(bs: seq<byte>, most: nat): Option<(nat, seq<byte>)> {
    if most == 0 || bs == [] then None
    else if bs[0] < 128 then Some((bs[0], bs[1..]))
    else
      var (high, rest) :- TakeVarint(bs[1..], most - 1);
      Some((bs[0] - 128 + 128 * high, rest))
  }

  function TakeU16(bs: seq<byte>): Option<(u16, seq<byte>)> {
    var (n, rest) :- TakeVarint(bs, 3);
    if n < 0x1_0000 then Some((n, rest)) else None
  }

  function TakeU32(bs: seq<byte>): Option<(u32, seq<byte>)> {
    var (n, rest) :- TakeVarint(bs, 5);
    if n < TWO32 then Some((n, rest)) else None
  }

  const USIZE_LIMIT := 0x1_0000_0000_0000_0000

  function TakeRaw(bs: seq<byte>, n: nat): Option<(seq<byte>, seq<byte>)> {
    if n <= |bs| then Some((bs[..n], bs[n..])) else None
  }

  function Bytes(data: seq<byte>): seq<byte> {
    Varint(|data|) + data
  }

  function TakeBytes(bs: seq<byte>): Option<(seq<byte>, seq<byte>)> {
    var (n, rest) :- TakeVarint(bs, 10);
    if n < USIZE_LIMIT then TakeRaw(rest, n) else None
  }

  function Address(ip: IpAddr): seq<byte> {
    match ip
    case V4(octets) => Varint(0) + octets
    case V6(octets) => Varint(1) + octets
  }

  function TakeAddress(bs: seq<byte>): Option<(IpAddr, seq<byte>)> {
    var (variant, rest) :- TakeU32(bs);
    if variant == 0 then
      var (octets, rest) :- TakeRaw(rest, 4);
      Some((V4(octets), rest))
    else if variant == 1 then
      var (octets, rest) :- TakeRaw(rest, 16);
      Some((V6(octets), rest))
    else None
  }

  /** A connection or query id followed by a byte vector: the tail of four variants. */
  function IdBytes(id: u32, data: seq<byte>): seq<byte> {
    Varint(id) + Bytes(data)
  }

  function TakeIdBytes(bs: seq<byte>): Option<(u32, seq<byte>)> {
    var (id, bs) :- TakeU32(bs);
    var (data, _) :- TakeBytes(bs);
    Some((id, data))
  }

  /** The tail shared by the two datagram variants. */
  function Datagram(near: u16, ip: IpAddr, far: u16, data: seq<byte>): seq<byte> {
    Varint(near) + (Address(ip) + (Varint(far) + Bytes(data)))
  }

  function TakeDatagram(bs: seq<byte>): Option<(u16, IpAddr, u16, seq<byte>)> {
    var (near, bs) :- TakeU16(bs);
    var (ip, bs) :- TakeAddress(bs);
    var (far, bs) :- TakeU16(bs);
    var (data, _) :- TakeBytes(bs);
    Some((near, ip, far, data))
  }

  function TakeConnect(bs: seq<byte>): Option<(u32, IpAddr, u16)> {
    var (id, bs) :- TakeU32(bs);
    var (ip, bs) :- TakeAddress(bs);
    var (port, _) :- TakeU16(bs);
    Some((id, ip, port))
  }

  function TakeQuery(bs: seq<byte>): Option<(u32, IpAddr, seq<byte>)> {
    var (id, bs) :- TakeU32(bs);
    var (server, bs) :- TakeAddress(bs);
    var (data, _) :- TakeBytes(bs);
    Some((id, server, data))
  }

  /** The position of a variant in the enum declaration. */
  function HostIndex(m: HostMessage): u32 {
    match m
    case TcpConnect(_, _, _) => 0
    case TcpData(_, _) => 1
    case TcpClose(_) => 2
    case UdpDatagram(_, _, _, _) => 3
    case DnsQuery(_, _, _) => 4
    case Shutdown => 5
  }

  function HostFields(m: HostMessage): seq<byte> {
    match m
    case TcpConnect(id, dstIp, dstPort) => Varint(id) + (Address(dstIp) + Varint(dstPort))
    case TcpData(id, data) => IdBytes(id, data)
    case TcpClose(id) => Varint(id)
    case UdpDatagram(srcPort, dstIp, dstPort, data) => Datagram(srcPort, dstIp, dstPort, data)
    case DnsQuery(id, server, data) => Varint(id) + (Address(server) + Bytes(data))
    case Shutdown => []
  }

  function EncodeHost(m: HostMessage): seq<byte> {
    Varint(HostIndex(m)) + HostFields(m)
  }

  function TakeHostFields(variant: u32, bs: seq<byte>): Option<HostMessage> {
    match variant
    case 0 =>
      var (id, dstIp, dstPort) :- TakeConnect(bs);
      Some(TcpConnect(id, dstIp, dstPort))
    case 1 =>
      var (id, data) :- TakeIdBytes(bs);
      Some(TcpData(id, data))
    case 2 =>
      var (id, _) :- TakeU32(bs);
      Some(TcpClose(id))
    case 3 =>
      var (srcPort, dstIp, dstPort, data) :- TakeDatagram(bs);
      Some(UdpDatagram(srcPort, dstIp, dstPort, data))
    case 4 =>
      var (id, server, data) :- TakeQuery(bs);
      Some(DnsQuery(id, server, data))
    case 5 => Some(Shutdown)
    case _ => None
  }

  function DecodeHost(bs: seq<byte>): Option<HostMessage> {
    var (variant, bs) :- TakeU32(bs);
    TakeHostFields(variant, bs)
  }

  function RemoteIndex(m: RemoteMessage): u32 {
    match m
    case TcpConnected(_) => 0
    case TcpReceived(_, _) => 1
    case TcpClosed(_) => 2
    case TcpError(_, _) => 3
    case UdpResponse(_, _, _, _) => 4
    case DnsResponse(_, _) => 5
    case Ready => 6
    case Error(_) => 7
  }

  function RemoteFields(m: RemoteMessage): seq<byte> {
    match m
    case TcpConnected(id) => Varint(id)
    case TcpReceived(id, data) => IdBytes(id, data)
    case TcpClosed(id) => Varint(id)
    case TcpError(id, error) => IdBytes(id, error)
    case UdpResponse(dstPort, srcIp, srcPort, data) => Datagram(dstPort, srcIp, srcPort, data)
    case DnsResponse(id, data) => IdBytes(id, data)
    case Ready => []
    case Error(error) => Bytes(error)
  }

  function EncodeRemote(m: RemoteMessage): seq<byte> {
    Varint(RemoteIndex(m)) + RemoteFields(m)
  }

  function TakeRemoteFields(variant: u32, bs: seq<byte>): Option<RemoteMessage> {
    match variant
    case 0 =>
      var (id, _) :- TakeU32(bs);
      Some(TcpConnected(id))
    case 1 =>
      var (id, data) :- TakeIdBytes(bs);
      Some(TcpReceived(id, data))
    case 2 =>
      var (id, _) :- TakeU32(bs);
      Some(TcpClosed(id))
    case 3 =>
      var (id, error) :- TakeIdBytes(bs);
      Some(TcpError(id, error))
    case 4 =>
      var (dstPort, srcIp, srcPort, data) :- TakeDatagram(bs);
      Some(UdpResponse(dstPort, srcIp, srcPort, data))
    case 5 =>
      var (id, data) :- TakeIdBytes(bs);
      Some(DnsResponse(id, data))
    case 6 => Some(Ready)
    case 7 =>
      var (error, _) :- TakeBytes(bs);
      Some(Error(error))
    case _ => None
  }

  function DecodeRemote(bs: seq<byte>): Option<RemoteMessage> {
    var (variant, bs) :- TakeU32(bs);
    TakeRemoteFields(variant, bs)
  }

  // ---------------------------------------------------------------- fields

  function Pow128(k: nat): nat {
    if k == 0 then 1 else 128 * Pow128(k - 1)
  }

  lemma ShiftedFits(n: nat, k: nat)
    requires k > 0 && n < Pow128(k)
    ensures n / 128 < Pow128(k - 1) && n % 128 + 128 * (n / 128) == n
  {
    assert Pow128(k) == 128 * Pow128(k - 1);
  }

  lemma {:induction false} VarintRoundTrip(n: nat, most: nat, rest: seq<byte>)
    requires most > 0 && n < Pow128(most)
    ensures TakeVarint(Varint(n) + rest, most) == Some((n, rest))
    ensures |Varint(n)| <= most
  {
    var bs := Varint(n) + rest;
    if n < 128 {
      assert bs[1..] == rest;
    } else {
      assert bs[0] == 128 + n % 128 && bs[1..] == Varint(n / 128) + rest;
      ShiftedFits(n, most);
      VarintRoundTrip(n / 128, most - 1, rest);
    }
  }

  lemma VarintLimits()
    ensures Pow128(3) == 0x20_0000
    ensures Pow128(5) > TWO32
    ensures Pow128(10) > USIZE_LIMIT
  {
    assert Pow128(1) == 0x80 && Pow128(2) == 0x4000;
    assert Pow128(4) == 0x1000_0000 && Pow128(5) == 0x8_0000_0000;
    assert Pow128(6) == 0x400_0000_0000 && Pow128(7) == 0x2_0000_0000_0000;
    assert Pow128(8) == 0x100_0000_0000_0000 && Pow128(9) == 0x8000_0000_0000_0000;
  }

  lemma U16RoundTrip(n: u16, rest: seq<byte>)
    ensures TakeU16(Varint(n) + rest) == Some((n, rest))
    ensures |Varint(n)| <= 3
  {
    VarintLimits();
    VarintRoundTrip(n, 3, rest);
  }

  lemma U32RoundTrip(n: u32, rest: seq<byte>)
    ensures TakeU32(Varint(n) + rest) == Some((n, rest))
    ensures |Varint(n)| <= 5
  {
    VarintLimits();
    VarintRoundTrip(n, 5, rest);
  }

  lemma BytesRoundTrip(data: seq<byte>, rest: seq<byte>)
    requires |data| < USIZE_LIMIT
    ensures TakeBytes(Bytes(data) + rest) == Some((data, rest))
    ensures |Bytes(data)| <= 10 + |data|
  {
    VarintLimits();
    VarintRoundTrip(|data|, 10, data + rest);
    assert Bytes(data) + rest == Varint(|data|) + (data + rest);
    assert (data + rest)[..|data|] == data && (data + rest)[|data|..] == rest;
  }

  lemma AddressRoundTrip(ip: IpAddr, rest: seq<byte>)
    ensures TakeAddress(Address(ip) + rest) == Some((ip, rest))
    ensures |Address(ip)| <= 17
  {
    var octets: seq<byte> := if ip.V4? then ip.four else ip.sixteen;
    U32RoundTrip(if ip.V4? then 0 else 1, octets + rest);
    assert Address(ip) + rest == Varint(if ip.V4? then 0 else 1) + (octets + rest);
    assert (octets + rest)[..|octets|] == octets && (octets + rest)[|octets|..] == rest;
  }

  // -------------------------------------------------------------- messages

  /** The length of the variable part of a message; a Vec never reaches 2^64 bytes. */
  function HostLoad(m: HostMessage): nat {
    if m.TcpData? || m.UdpDatagram? || m.DnsQuery? then |m.data| else 0
  }

  function RemoteLoad(m: RemoteMessage): nat {
    if m.TcpReceived? || m.UdpResponse? || m.DnsResponse? then |m.data|
    else if m.TcpError? || m.Error? then |m.error|
    else 0
  }

  lemma IdBytesRoundTrip(id: u32, data: seq<byte>, rest: seq<byte>)
    requires |data| < USIZE_LIMIT
    ensures TakeIdBytes(IdBytes(id, data) + rest) == Some((id, data))
  {
    assert IdBytes(id, data) + rest == Varint(id) + (Bytes(data) + rest);
    U32RoundTrip(id, Bytes(data) + rest);
    BytesRoundTrip(data, rest);
  }

  lemma DatagramRoundTrip(near: u16, ip: IpAddr, far: u16, data: seq<byte>, rest: seq<byte>)
    requires |data| < USIZE_LIMIT
    ensures TakeDatagram(Datagram(near, ip, far, data) + rest) == Some((near, ip, far, data))
  {
    var r3 := Bytes(data) + rest;
    var r2 := Varint(far) + r3;
    var r1 := Address(ip) + r2;
    assert Datagram(near, ip, far, data) + rest == Varint(near) + r1;
    U16RoundTrip(near, r1);
    AddressRoundTrip(ip, r2);
    U16RoundTrip(far, r3);
    BytesRoundTrip(data, rest);
  }

  lemma ConnectRoundTrip(id: u32, ip: IpAddr, port: u16, rest: seq<byte>)
    ensures TakeConnect(Varint(id) + (Address(ip) + Varint(port)) + rest) == Some((id, ip, port))
  {
    var r2 := Varint(port) + rest;
    var r1 := Address(ip) + r2;
    assert Varint(id) + (Address(ip) + Varint(port)) + rest == Varint(id) + r1;
    U32RoundTrip(id, r1);
    AddressRoundTrip(ip, r2);
    U16RoundTrip(port, rest);
  }

  lemma QueryRoundTrip(id: u32, server: IpAddr, data: seq<byte>, rest: seq<byte>)
    requires |data| < USIZE_LIMIT
    ensures TakeQuery(Varint(id) + (Address(server) + Bytes(data)) + rest) == Some((id, server, data))
  {
    var r2 := Bytes(data) + rest;
    var r1 := Address(server) + r2;
    assert Varint(id) + (Address(server) + Bytes(data)) + rest == Varint(id) + r1;
    U32RoundTrip(id, r1);
    AddressRoundTrip(server, r2);
    BytesRoundTrip(data, rest);
  }

  lemma HostFieldsRoundTrip(m: HostMessage, rest: seq<byte>)
    requires HostLoad(m) < USIZE_LIMIT
    ensures TakeHostFields(HostIndex(m), HostFields(m) + rest) == Some(m)
  {
    match m
    case TcpConnect(id, dstIp, dstPort) => ConnectRoundTrip(id, dstIp, dstPort, rest);
    case TcpData(id, data) => IdBytesRoundTrip(id, data, rest);
    case TcpClose(id) => U32RoundTrip(id, rest);
    case UdpDatagram(srcPort, dstIp, dstPort, data) => DatagramRoundTrip(srcPort, dstIp, dstPort, data, rest);
    case DnsQuery(id, server, data) => QueryRoundTrip(id, server, data, rest);
    case Shutdown =>
  }

  lemma DecodeHostParts(bs: seq<byte>, index: u32, fields: seq<byte>)
    requires TakeU32(bs) == Some((index, fields))
    ensures DecodeHost(bs) == TakeHostFields(index, fields)
  {
  }

  lemma HostRoundTrip(m: HostMessage, rest: seq<byte>)
    requires HostLoad(m) < USIZE_LIMIT
    ensures DecodeHost(EncodeHost(m) + rest) == Some(m)
  {
    var fields := HostFields(m) + rest;
    assert EncodeHost(m) + rest == Varint(HostIndex(m)) + fields;
    U32RoundTrip(HostIndex(m), fields);
    DecodeHostParts(EncodeHost(m) + rest, HostIndex(m), fields);
    HostFieldsRoundTrip(m, rest);
  }

  lemma RemoteFieldsRoundTrip(m: RemoteMessage, rest: seq<byte>)
    requires RemoteLoad(m) < USIZE_LIMIT
    ensures TakeRemoteFields(RemoteIndex(m), RemoteFields(m) + rest) == Some(m)
  {
    match m
    case TcpConnected(id) => U32RoundTrip(id, rest);
    case TcpReceived(id, data) => IdBytesRoundTrip(id, data, rest);
    case TcpClosed(id) => U32RoundTrip(id, rest);
    case TcpError(id, error) => IdBytesRoundTrip(id, error, rest);
    case UdpResponse(dstPort, srcIp, srcPort, data) => DatagramRoundTrip(dstPort, srcIp, srcPort, data, rest);
    case DnsResponse(id, data) => IdBytesRoundTrip(id, data, rest);
    case Ready =>
    case Error(error) => BytesRoundTrip(error, rest);
  }

  lemma DecodeRemoteParts(bs: seq<byte>, index: u32, fields: seq<byte>)
    requires TakeU32(bs) == Some((index, fields))
    ensures DecodeRemote(bs) == TakeRemoteFields(index, fields)
  {
  }

  lemma RemoteRoundTrip(m: RemoteMessage, rest: seq<byte>)
    requires RemoteLoad(m) < USIZE_LIMIT
    ensures DecodeRemote(EncodeRemote(m) + rest) == Some(m)
  {
    var fields := RemoteFields(m) + rest;
    assert EncodeRemote(m) + rest == Varint(RemoteIndex(m)) + fields;
    U32RoundTrip(RemoteIndex(m), fields);
    DecodeRemoteParts(EncodeRemote(m) + rest, RemoteIndex(m), fields);
    RemoteFieldsRoundTrip(m, rest);
  }

  /** The bytes of one message of every variant: variants numbered in declaration order,
      fields in declaration order, low seven bits first in a longer integer. */
  lemma KnownHostMessages()
    ensures EncodeHost(TcpConnect(42, V4([192, 168, 1, 1]), 80)) == [0, 42, 0, 192, 168, 1, 1, 80]
    ensures EncodeHost(TcpData(300, [7, 8, 9])) == [1, 0xAC, 0x02, 3, 7, 8, 9]
    ensures EncodeHost(TcpClose(9)) == [2, 9]
    ensures EncodeHost(Shutdown) == [5]
  {
    assert Varint(300) == [0xAC, 0x02];
  }

  /** The same, field by field, where there is an address. */
  lemma KnownDatagrams(four: Octets4)
    ensures EncodeHost(UdpDatagram(300, V4(four), 53, [7])) == [3] + ([0xAC, 0x02] + ([0] + four + ([53] + [1, 7])))
    ensures EncodeRemote(UdpResponse(300, V4(four), 53, [7])) == [4] + ([0xAC, 0x02] + ([0] + four + ([53] + [1, 7])))
  {
    assert Varint(300) == [0xAC, 0x02] && Bytes([7]) == [1, 7];
  }

  lemma KnownQuery(sixteen: Octets16)
    ensures EncodeHost(DnsQuery(5, V6(sixteen), [17, 18])) == [4] + ([5] + ([1] + sixteen + [2, 17, 18]))
  {
    assert Bytes([17, 18]) == [2, 17, 18];
  }

  lemma KnownRemoteMessages()
    ensures EncodeRemote(TcpConnected(9)) == [0, 9]
    ensures EncodeRemote(TcpReceived(300, [7, 8, 9])) == [1, 0xAC, 0x02, 3, 7, 8, 9]
    ensures EncodeRemote(TcpClosed(9)) == [2, 9]
    ensures EncodeRemote(TcpError(9, [65])) == [3, 9, 1, 65]
    ensures EncodeRemote(DnsResponse(5, [1])) == [5, 5, 1, 1]
    ensures EncodeRemote(Ready) == [6]
    ensures EncodeRemote(Error([65, 66])) == [7, 2, 65, 66]
  {
    assert Varint(300) == [0xAC, 0x02];
  }

  // ------------------------------------------------------------------- cut messages

  lemma {:induction false} VarintCut(n: nat, most: nat, cut: nat)
    requires cut < |Varint(n)|
    ensures TakeVarint(Varint(n)[..cut], most) == None
  {
    if n >= 128 && cut > 0 && most > 0 {
      assert Varint(n)[..cut][1..] == Varint(n / 128)[..cut - 1];
      VarintCut(n / 128, most - 1, cut - 1);
    }
  }

  /** A cut of two fields falls into the first, or leaves it whole. */
  lemma CutOfTwo(a: seq<byte>, b: seq<byte>, cut: nat)
    requires cut < |a + b|
    ensures cut < |a| ==> (a + b)[..cut] == a[..cut]
    ensures cut >= |a| ==> (a + b)[..cut] == a + b[..cut - |a|]
  {
  }

  lemma BytesCut(data: seq<byte>, cut: nat)
    requires |data| < USIZE_LIMIT && cut < |Bytes(data)|
    ensures TakeBytes(Bytes(data)[..cut]) == None
  {
    var length := Varint(|data|);
    CutOfTwo(length, data, cut);
    if cut < |length| {
      VarintCut(|data|, 10, cut);
    } else {
      VarintLimits();
      VarintRoundTrip(|data|, 10, data[..cut - |length|]);
    }
  }

  lemma AddressCut(ip: IpAddr, cut: nat)
    requires cut < |Address(ip)|
    ensures TakeAddress(Address(ip)[..cut]) == None
  {
    var octets: seq<byte> := if ip.V4? then ip.four else ip.sixteen;
    var variant := if ip.V4? then 0 else 1;
    CutOfTwo(Varint(variant), octets, cut);
    if cut > 0 {
      U32RoundTrip(variant, octets[..cut - 1]);
    }
  }

  lemma IdBytesCut(id: u32, data: seq<byte>, cut: nat)
    requires |data| < USIZE_LIMIT && cut < |IdBytes(id, data)|
    ensures TakeIdBytes(IdBytes(id, data)[..cut]) == None
  {
    CutOfTwo(Varint(id), Bytes(data), cut);
    if cut < |Varint(id)| {
      VarintCut(id, 5, cut);
    } else {
      U32RoundTrip(id, Bytes(data)[..cut - |Varint(id)|]);
      BytesCut(data, cut - |Varint(id)|);
    }
  }

  /** The fields after the first of a datagram, and of a query. */
  lemma FarCut(far: u16, data: seq<byte>, cut: nat)
    requires |data| < USIZE_LIMIT && cut < |Varint(far) + Bytes(data)|
    ensures var bs := (Varint(far) + Bytes(data))[..cut];
      TakeU16(bs).None? || TakeBytes(TakeU16(bs).value.1) == None
  {
    CutOfTwo(Varint(far), Bytes(data), cut);
    if cut < |Varint(far)| {
      VarintCut(far, 3, cut);
    } else {
      U16RoundTrip(far, Bytes(data)[..cut - |Varint(far)|]);
      BytesCut(data, cut - |Varint(far)|);
    }
  }

  lemma DatagramCut(near: u16, ip: IpAddr, far: u16, data: seq<byte>, cut: nat)
    requires |data| < USIZE_LIMIT && cut < |Datagram(near, ip, far, data)|
    ensures TakeDatagram(Datagram(near, ip, far, data)[..cut]) == None
  {
    var r2 := Varint(far) + Bytes(data);
    var r1 := Address(ip) + r2;
    CutOfTwo(Varint(near), r1, cut);
    if cut < |Varint(near)| {
      VarintCut(near, 3, cut);
    } else {
      var cut1 := cut - |Varint(near)|;
      U16RoundTrip(near, r1[..cut1]);
      CutOfTwo(Address(ip), r2, cut1);
      if cut1 < |Address(ip)| {
        AddressCut(ip, cut1);
      } else {
        AddressRoundTrip(ip, r2[..cut1 - |Address(ip)|]);
        FarCut(far, data, cut1 - |Address(ip)|);
      }
    }
  }

  lemma ConnectCut(id: u32, ip: IpAddr, port: u16, cut: nat)
    requires cut < |Varint(id) + (Address(ip) + Varint(port))|
    ensures TakeConnect((Varint(id) + (Address(ip) + Varint(port)))[..cut]) == None
  {
    var r1 := Address(ip) + Varint(port);
    CutOfTwo(Varint(id), r1, cut);
    if cut < |Varint(id)| {
      VarintCut(id, 5, cut);
    } else {
      var cut1 := cut - |Varint(id)|;
      U32RoundTrip(id, r1[..cut1]);
      CutOfTwo(Address(ip), Varint(port), cut1);
      if cut1 < |Address(ip)| {
        AddressCut(ip, cut1);
      } else {
        AddressRoundTrip(ip, Varint(port)[..cut1 - |Address(ip)|]);
        VarintCut(port, 3, cut1 - |Address(ip)|);
      }
    }
  }

  lemma ServerCut(server: IpAddr, data: seq<byte>, cut: nat)
    requires |data| < USIZE_LIMIT && cut < |Address(server) + Bytes(data)|
    ensures var bs := (Address(server) + Bytes(data))[..cut];
      TakeAddress(bs).None? || TakeBytes(TakeAddress(bs).value.1) == None
  {
    CutOfTwo(Address(server), Bytes(data), cut);
    if cut < |Address(server)| {
      AddressCut(server, cut);
    } else {
      AddressRoundTrip(server, Bytes(data)[..cut - |Address(server)|]);
      BytesCut(data, cut - |Address(server)|);
    }
  }

  lemma QueryCut(id: u32, server: IpAddr, data: seq<byte>, cut: nat)
    requires |data| < USIZE_LIMIT && cut < |Varint(id) + (Address(server) + Bytes(data))|
    ensures TakeQuery((Varint(id) + (Address(server) + Bytes(data)))[..cut]) == None
  {
    var r1 := Address(server) + Bytes(data);
    CutOfTwo(Varint(id), r1, cut);
    if cut < |Varint(id)| {
      VarintCut(id, 5, cut);
    } else {
      U32RoundTrip(id, r1[..cut - |Varint(id)|]);
      ServerCut(server, data, cut - |Varint(id)|);
    }
  }

  lemma HostFieldsCut(m: HostMessage, cut: nat)
    requires HostLoad(m) < USIZE_LIMIT && cut < |HostFields(m)|
    ensures TakeHostFields(HostIndex(m), HostFields(m)[..cut]) == None
  {
    match m
    case TcpConnect(id, dstIp, dstPort) => ConnectCut(id, dstIp, dstPort, cut);
    case TcpData(id, data) => IdBytesCut(id, data, cut);
    case TcpClose(id) => VarintCut(id, 5, cut);
    case UdpDatagram(srcPort, dstIp, dstPort, data) => DatagramCut(srcPort, dstIp, dstPort, data, cut);
    case DnsQuery(id, server, data) => QueryCut(id, server, data, cut);
  }

  /** A message that lost bytes at its end is never taken for another one. */
  lemma CutHostMessageIsRejected(m: HostMessage, cut: nat)
    requires HostLoad(m) < USIZE_LIMIT && cut < |EncodeHost(m)|
    ensures DecodeHost(EncodeHost(m)[..cut]) == None
  {
    var index := Varint(HostIndex(m));
    CutOfTwo(index, HostFields(m), cut);
    if cut < |index| {
      VarintCut(HostIndex(m), 5, cut);
    } else {
      var fields := HostFields(m)[..cut - |index|];
      U32RoundTrip(HostIndex(m), fields);
      DecodeHostParts(EncodeHost(m)[..cut], HostIndex(m), fields);
      HostFieldsCut(m, cut - |index|);
    }
  }

  lemma RemoteFieldsCut(m: RemoteMessage, cut: nat)
    requires RemoteLoad(m) < USIZE_LIMIT && cut < |RemoteFields(m)|
    ensures TakeRemoteFields(RemoteIndex(m), RemoteFields(m)[..cut]) == None
  {
    match m
    case TcpConnected(id) => VarintCut(id, 5, cut);
    case TcpReceived(id, data) => IdBytesCut(id, data, cut);
    case TcpClosed(id) => VarintCut(id, 5, cut);
    case TcpError(id, error) => IdBytesCut(id, error, cut);
    case UdpResponse(dstPort, srcIp, srcPort, data) => DatagramCut(dstPort, srcIp, srcPort, data, cut);
    case DnsResponse(id, data) => IdBytesCut(id, data, cut);
    case Error(error) => BytesCut(error, cut);
  }

  lemma CutRemoteMessageIsRejected(m: RemoteMessage, cut: nat)
    requires RemoteLoad(m) < USIZE_LIMIT && cut < |EncodeRemote(m)|
    ensures DecodeRemote(EncodeRemote(m)[..cut]) == None
  {
    var index := Varint(RemoteIndex(m));
    CutOfTwo(index, RemoteFields(m), cut);
    if cut < |index| {
      VarintCut(RemoteIndex(m), 5, cut);
    } else {
      var fields := RemoteFields(m)[..cut - |index|];
      U32RoundTrip(RemoteIndex(m), fields);
      DecodeRemoteParts(EncodeRemote(m)[..cut], RemoteIndex(m), fields);
      RemoteFieldsCut(m, cut - |index|);
    }
  }

  lemma {:induction false} VarintTooLong(n: nat, most: nat, rest: seq<byte>)
    requires n >= Pow128(most)
    ensures TakeVarint(Varint(n) + rest, most) == None
  {
    if most > 0 {
      assert n / 128 >= Pow128(most - 1) by {
        assert Pow128(most) == 128 * Pow128(most - 1);
      }
      assert n >= 128 by {
        PowersGrow(most - 1);
      }
      assert (Varint(n) + rest)[1..] == Varint(n / 128) + rest;
      VarintTooLong(n / 128, most - 1, rest);
    }
  }

  lemma {:induction false} PowersGrow(k: nat)
    ensures Pow128(k) >= 1
  {
    if k > 0 {
      PowersGrow(k - 1);
    }
  }

  /** A number is taken if and only if it fits its field; it never wraps. */
  lemma NumbersFitExactly(n: nat, rest: seq<byte>)
    ensures TakeU16(Varint(n) + rest) == if n < 0x1_0000 then Some((n, rest)) else None
    ensures TakeU32(Varint(n) + rest) == if n < 0x1_0000_0000 then Some((n, rest)) else None
  {
    if n < Pow128(3) {
      VarintRoundTrip(n, 3, rest);
    } else {
      VarintTooLong(n, 3, rest);
    }
    if n < Pow128(5) {
      VarintRoundTrip(n, 5, rest);
    } else {
      VarintTooLong(n, 5, rest);
    }
    VarintLimits();
  }

  /** Neither is one with a variant number that the enum does not have. */
  lemma UnknownVariantsAreRejected(variant: u32, rest: seq<byte>)
    ensures variant >= 6 ==> DecodeHost(Varint(variant) + rest) == None
    ensures variant >= 8 ==> DecodeRemote(Varint(variant) + rest) == None
  {
    U32RoundTrip(variant, rest);
  }

  /** Wire overhead is at most 34 bytes: a variant index, two ports, an address, a length. */
  lemma HostSize(m: HostMessage)
    requires HostLoad(m) < USIZE_LIMIT
    ensures |EncodeHost(m)| <= 34 + HostLoad(m)
  {
    match m
    case TcpConnect(id, dstIp, dstPort) =>
      U32RoundTrip(id, []); AddressRoundTrip(dstIp, []); U16RoundTrip(dstPort, []);
    case TcpData(id, data) =>
      U32RoundTrip(id, []); BytesRoundTrip(data, []);
    case TcpClose(id) =>
      U32RoundTrip(id, []);
    case UdpDatagram(srcPort, dstIp, dstPort, data) =>
      U16RoundTrip(srcPort, []); AddressRoundTrip(dstIp, []); U16RoundTrip(dstPort, []); BytesRoundTrip(data, []);
    case DnsQuery(id, server, data) =>
      U32RoundTrip(id, []); AddressRoundTrip(server, []); BytesRoundTrip(data, []);
    case Shutdown =>
  }

  lemma RemoteSize(m: RemoteMessage)
    requires RemoteLoad(m) < USIZE_LIMIT
    ensures |EncodeRemote(m)| <= 34 + RemoteLoad(m)
  {
    match m
    case TcpConnected(id) =>
      U32RoundTrip(id, []);
    case TcpReceived(id, data) =>
      U32RoundTrip(id, []); BytesRoundTrip(data, []);
    case TcpClosed(id) =>
      U32RoundTrip(id, []);
    case TcpError(id, error) =>
      U32RoundTrip(id, []); BytesRoundTrip(error, []);
    case UdpResponse(dstPort, srcIp, srcPort, data) =>
      U16RoundTrip(dstPort, []); AddressRoundTrip(srcIp, []); U16RoundTrip(srcPort, []); BytesRoundTrip(data, []);
    case DnsResponse(id, data) =>
      U32RoundTrip(id, []); BytesRoundTrip(data, []);
    case Ready =>
    case Error(error) =>
      BytesRoundTrip(error, []);
  }
}
