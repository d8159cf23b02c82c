/** The host's handlers: the TCP state machine between the TUN device and the remote. */
module Host {
  import opened Base
  import opened Messages
  import opened Packets
  import opened Nat

  const MAX_TCP_PAYLOAD := 65495

  /** A payload length for sequence arithmetic; the cast saturates. */
  function PayloadLen(len: nat): (n: u32)
    ensures n <= len && (n < len ==> n == 0xFFFF_FFFF)
  {
    if len < TWO32 then len else TWO32 - 1
  }

  const NoFlags := TcpFlags(false, false, false, false, false)

  /** A packet back to the app of a connection: the key with both ends swapped. */
  function Reply(key: TcpKey, seqNo: u32, ackNo: u32, flags: TcpFlags, window: u16, payload: seq<byte>): TcpPacket {
    TcpPacket(key.dstIp, key.srcIp, key.dstPort, key.srcPort, seqNo, ackNo, flags, window, payload)
  }

  function AckPacket(key: TcpKey, seqNo: u32, ackNo: u32): TcpPacket {
    Reply(key, seqNo, ackNo, NoFlags.(ack := true), 65535, [])
  }

  function SynAckPacket(key: TcpKey, seqNo: u32, ackNo: u32): TcpPacket {
    Reply(key, seqNo, ackNo, NoFlags.(syn := true, ack := true), 65535, [])
  }

  function FinPacket(key: TcpKey, seqNo: u32, ackNo: u32): TcpPacket {
    Reply(key, seqNo, ackNo, NoFlags.(fin := true, ack := true), 65535, [])
  }

  function RstPacket(key: TcpKey): TcpPacket {
    Reply(key, 0, 0, NoFlags.(rst := true), 0, [])
  }

  function DataPacket(key: TcpKey, seqNo: u32, ackNo: u32, last: bool, chunk: seq<byte>): TcpPacket {
    Reply(key, seqNo, ackNo, NoFlags.(ack := true, psh := last), 65535, chunk)
  }

  function SegmentKey(s: TcpPacket): TcpKey {
    TcpKey(s.srcIp, s.srcPort, s.dstIp, s.dstPort)
  }

  predicate IsSyn(s: TcpPacket) {
    s.flags.syn && !s.flags.ack
  }

  /** What a handler leaves behind: the table, the messages queued for the remote, and
      the packets queued for the TUN device. */
  datatype Outcome = Outcome(table: Table, msgs: seq<HostMessage>, packets: seq<TcpPacket>)

  // ----------------------------------------- the handlers, in terms of table operations

  function OnSegment(t: Table, s: TcpPacket): Outcome {
    var key := SegmentKey(s);
    if IsSyn(s) then
      Outcome(Create(t, key, s.seqNo), [TcpConnect(t.nextId, s.dstIp, s.dstPort)], [])
    else
      match IdOf(t, key)
      case None => Outcome(t, [], [])
      case Some(id) =>
        if s.flags.rst then Outcome(Closed(t, key), [TcpClose(id)], [])
        else
          match StateOf(t, key)
          case Some(Established) =>
            if s.flags.fin then
              var t' := WithAck(t, id, WrapAdd(WrapAdd(s.seqNo, PayloadLen(|s.payload|)), 1));
              Outcome(WithState(t', key, FinWait),
                      (if s.payload != [] then [TcpData(id, s.payload)] else []) + [TcpClose(id)],
                      [AckPacket(key, SeqOf(t', id), AckOf(t', id))])
            else if s.payload != [] then
              if s.seqNo == AckOf(t, id) then
                var t' := WithAck(t, id, WrapAdd(s.seqNo, PayloadLen(|s.payload|)));
                Outcome(t', [TcpData(id, s.payload)], [AckPacket(key, SeqOf(t', id), AckOf(t', id))])
              else Outcome(t, [], [AckPacket(key, SeqOf(t, id), AckOf(t, id))])
            else Outcome(t, [], [])
          case Some(CloseWait) =>
            if s.flags.fin then
              var t' := WithAck(t, id, WrapAdd(s.seqNo, 1));
              Outcome(Closed(t', key), [], [AckPacket(key, SeqOf(t', id), AckOf(t', id))])
            else Outcome(t, [], [])
          case Some(LastAck) => Outcome(if s.flags.ack then Closed(t, key) else t, [], [])
          case _ => Outcome(t, [], [])
  }

  /** The length of the next chunk of a block of data. */
  function ChunkLen(data: seq<byte>): nat {
    if |data| < MAX_TCP_PAYLOAD then |data| else MAX_TCP_PAYLOAD
  }

  /** The chunk loop: one packet per chunk, the sequence number advanced after each. */
  function SendChunks(t: Table, id: u32, key: TcpKey, data: seq<byte>): Outcome
    decreases |data|
  {
    if data == [] then Outcome(t, [], [])
    else
      var n := ChunkLen(data);
      var packet := DataPacket(key, SeqOf(t, id), AckOf(t, id), n == |data|, data[..n]);
      var rest := SendChunks(WithSeqAdvanced(t, id, PayloadLen(n)), id, key, data[n..]);
      Outcome(rest.table, [], [packet] + rest.packets)
  }

  /** The TCP half of the remote message handler. */
  function OnMessage(t: Table, m: RemoteMessage): Outcome {
    if RemoteTag(m) < 0 then Outcome(t, [], [])
    else
      match KeyOf(t, m.id)
      case None => Outcome(t, [], [])
      case Some(key) =>
        match m
        case TcpConnected(id) =>
          var t' := WithState(t, key, Established);
          Outcome(WithSeqAdvanced(t', id, 1), [], [SynAckPacket(key, SeqOf(t', id), AckOf(t', id))])
        case TcpReceived(id, data) => SendChunks(t, id, key, data)
        case TcpClosed(id) => (
          match StateOf(t, key)
          case Some(Established) =>
            Outcome(WithState(WithSeqAdvanced(t, id, 1), key, CloseWait), [],
                    [FinPacket(key, SeqOf(t, id), AckOf(t, id))])
          case Some(FinWait) =>
            Outcome(WithState(WithSeqAdvanced(t, id, 1), key, LastAck), [],
                    [FinPacket(key, SeqOf(t, id), AckOf(t, id))])
          case _ => Outcome(Closed(t, key), [], []))
        case TcpError(id, error) => Outcome(Closed(t, key), [], [RstPacket(key)])
        case _ => Outcome(t, [], [])
  }

  // ------------------------------------------------------------------ the methods

  datatype TunPacket = TunTcp(tcp: TcpPacket) | TunUdp(udp: UdpPacket)

  function TunTcps(ps: seq<TcpPacket>): seq<TunPacket> {
    seq(|ps|, i requires 0 <= i < |ps| => TunTcp(ps[i]))
  }

  /** A packet that its builder accepts without panicking. */
  predicate TunBuildable(p: TunPacket) {
    match p
    case TunTcp(tcp) => TcpBuildable(tcp)
    case TunUdp(udp) => UdpBuildable(udp)
  }

  /** The two queues the handlers send into. */
  class Outbox {
    var toRemote: seq<HostMessage>
    var toTun: seq<TunPacket>

    ghost predicate Buildable()
      reads this
    {
      forall i :: 0 <= i < |toTun| ==> TunBuildable(toTun[i])
    }

    constructor ()
      ensures toRemote == [] && toTun == [] && Buildable()
    {
      toRemote, toTun := [], [];
    }

    method SendRemote(m: HostMessage)
      modifies this`toRemote
      ensures toRemote == old(toRemote) + [m]
    {
      toRemote := toRemote + [m];
    }

    method SendTcp(p: TcpPacket)
      requires TcpBuildable(p)
      modifies this`toTun
      ensures toTun == old(toTun) + [TunTcp(p)]
      ensures old(Buildable()) ==> Buildable()
    {
      toTun := toTun + [TunTcp(p)];
    }

    method SendUdp(p: UdpPacket)
      requires UdpBuildable(p)
      modifies this`toTun
      ensures toTun == old(toTun) + [TunUdp(p)]
      ensures old(Buildable()) ==> Buildable()
    {
      toTun := toTun + [TunUdp(p)];
    }
  }

  /** Every key pairs addresses of one family, so that no reply mixes them. */
  ghost predicate OneFamily(t: Table) {
    (forall key :: key in t.byKey ==> SameFamily(key.srcIp, key.dstIp))
    && (forall id :: id in t.byId ==> SameFamily(t.byId[id].srcIp, t.byId[id].dstIp))
  }

  lemma SegmentKeepsFamily(t: Table, s: TcpPacket)
    requires FromWire(s) && OneFamily(t)
    ensures OneFamily(OnSegment(t, s).table)
  {
  }

  /** Acknowledges what the app has sent so far. */
  method SendAck(connId: u32, key: TcpKey, natTable: NatTable, out: Outbox)
    requires SameFamily(key.srcIp, key.dstIp) && out.Buildable()
    modifies out`toTun
    ensures out.toTun == old(out.toTun)
      + [TunTcp(AckPacket(key, SeqOf(natTable.Tcp(), connId), AckOf(natTable.Tcp(), connId)))]
    ensures out.Buildable()
  {
    var seqNo := natTable.GetTcpSeq(connId);
    var ackNo := natTable.GetTcpAck(connId);
    out.SendTcp(AckPacket(key, seqNo, ackNo));
  }

  method HandleOutboundTcp(tcp: TcpPacket, natTable: NatTable, out: Outbox)
    requires FromWire(tcp) && OneFamily(natTable.Tcp()) && out.Buildable()
    modifies natTable, out
    ensures var o := OnSegment(old(natTable.Tcp()), tcp);
      && natTable.Tcp() == o.table && natTable.udpMappings == old(natTable.udpMappings)
      && out.toRemote == old(out.toRemote) + o.msgs
      && out.toTun == old(out.toTun) + TunTcps(o.packets)
    ensures OneFamily(natTable.Tcp()) && out.Buildable()
  {
    SegmentKeepsFamily(natTable.Tcp(), tcp);
    var key := SegmentKey(tcp);
    if tcp.flags.syn && !tcp.flags.ack {
      var connId := natTable.CreateTcpConnection(key, tcp.seqNo);
      out.SendRemote(TcpConnect(connId, tcp.dstIp, tcp.dstPort));
      return;
    }

    var found := natTable.GetTcpConnectionId(key);
    if found.None? {
      return;
    }
    var connId := found.value;

    if tcp.flags.rst {
      natTable.CloseTcpConnection(key);
      out.SendRemote(TcpClose(connId));
      return;
    }

    var state := natTable.GetTcpState(key);
    match state
    case Some(Established) =>
      if tcp.flags.fin {
        var finAck := WrapAdd(WrapAdd(tcp.seqNo, PayloadLen(|tcp.payload|)), 1);
        natTable.UpdateTcpAck(connId, finAck);
        if tcp.payload != [] {
          out.SendRemote(TcpData(connId, tcp.payload));
        }
        SendAck(connId, key, natTable, out);
        out.SendRemote(TcpClose(connId));
        natTable.SetTcpState(key, FinWait);
      } else if tcp.payload != [] {
        var expected := natTable.GetTcpAck(connId);
        if tcp.seqNo == expected {
          natTable.UpdateTcpAck(connId, WrapAdd(tcp.seqNo, PayloadLen(|tcp.payload|)));
          out.SendRemote(TcpData(connId, tcp.payload));
        }
        SendAck(connId, key, natTable, out);
      }
    case Some(CloseWait) =>
      if tcp.flags.fin {
        natTable.UpdateTcpAck(connId, WrapAdd(tcp.seqNo, 1));
        SendAck(connId, key, natTable, out);
        natTable.CloseTcpConnection(key);
      }
    case Some(LastAck) =>
      if tcp.flags.ack {
        natTable.CloseTcpConnection(key);
      }
    case _ =>
  }

  method SendDataChunks(id: u32, key: TcpKey, data: seq<byte>, natTable: NatTable, out: Outbox)
    requires SameFamily(key.srcIp, key.dstIp) && OneFamily(natTable.Tcp()) && out.Buildable()
    modifies natTable, out
    ensures var o := SendChunks(old(natTable.Tcp()), id, key, data);
      && natTable.Tcp() == o.table && natTable.udpMappings == old(natTable.udpMappings)
      && out.toRemote == old(out.toRemote)
      && out.toTun == old(out.toTun) + TunTcps(o.packets)
    ensures OneFamily(natTable.Tcp()) && out.Buildable()
  {
    ghost var all := SendChunks(natTable.Tcp(), id, key, data);
    ghost var sent: seq<TcpPacket> := [];
    var rest := data;
    while rest != []
      invariant SendChunks(natTable.Tcp(), id, key, rest).table == all.table
      invariant sent + SendChunks(natTable.Tcp(), id, key, rest).packets == all.packets
      invariant natTable.udpMappings == old(natTable.udpMappings)
      invariant out.toRemote == old(out.toRemote) && out.toTun == old(out.toTun) + TunTcps(sent)
      invariant OneFamily(natTable.Tcp()) && out.Buildable()
      decreases |rest|
    {
      var n := ChunkLen(rest);
      var chunk := rest[..n];
      var isLast := n == |rest|;
      var seqNo := natTable.GetTcpSeq(id);
      var ackNo := natTable.GetTcpAck(id);
      var packet := DataPacket(key, seqNo, ackNo, isLast, chunk);
      ghost var later := SendChunks(WithSeqAdvanced(natTable.Tcp(), id, PayloadLen(n)), id, key, rest[n..]);
      assert SendChunks(natTable.Tcp(), id, key, rest).packets == [packet] + later.packets;
      assert sent + ([packet] + later.packets) == (sent + [packet]) + later.packets;
      natTable.AdvanceTcpSeq(id, PayloadLen(|chunk|));
      out.SendTcp(packet);
      assert TunTcps(sent + [packet]) == TunTcps(sent) + [TunTcp(packet)];
      sent := sent + [packet];
      rest := rest[n..];
    }
    assert sent + [] == sent;
  }

  /** Sends the FIN and moves on to the state that waits for the app. */
  method SendFin(id: u32, key: TcpKey, next: ConnectionState, natTable: NatTable, out: Outbox)
    requires SameFamily(key.srcIp, key.dstIp) && out.Buildable()
    modifies natTable, out`toTun
    ensures natTable.Tcp() == WithState(WithSeqAdvanced(old(natTable.Tcp()), id, 1), key, next)
    ensures natTable.udpMappings == old(natTable.udpMappings)
    ensures out.toTun == old(out.toTun)
      + [TunTcp(FinPacket(key, SeqOf(old(natTable.Tcp()), id), AckOf(old(natTable.Tcp()), id)))]
    ensures out.Buildable()
  {
    var seqNo := natTable.GetTcpSeq(id);
    var ackNo := natTable.GetTcpAck(id);
    natTable.AdvanceTcpSeq(id, 1);
    out.SendTcp(FinPacket(key, seqNo, ackNo));
    natTable.SetTcpState(key, next);
  }

  lemma MessageKeepsFamily(t: Table, m: RemoteMessage)
    requires OneFamily(t) && !m.TcpReceived?
    ensures OneFamily(OnMessage(t, m).table)
  {
  }

  /** The TCP arms of the remote message handler. */
  method HandleRemoteTcp(m: RemoteMessage, natTable: NatTable, out: Outbox)
    requires OneFamily(natTable.Tcp()) && out.Buildable()
    modifies natTable, out
    ensures var o := OnMessage(old(natTable.Tcp()), m);
      && natTable.Tcp() == o.table && natTable.udpMappings == old(natTable.udpMappings)
      && out.toRemote == old(out.toRemote)
      && out.toTun == old(out.toTun) + TunTcps(o.packets)
    ensures OneFamily(natTable.Tcp()) && out.Buildable()
  {
    if !m.TcpReceived? {
      MessageKeepsFamily(natTable.Tcp(), m);
    }
    match m
    case TcpConnected(id) =>
      var key := natTable.GetTcpConnectionKey(id);
      if key.Some? {
        natTable.SetTcpState(key.value, Established);
        var seqNo := natTable.GetTcpSeq(id);
        var ackNo := natTable.GetTcpAck(id);
        natTable.AdvanceTcpSeq(id, 1);
        out.SendTcp(SynAckPacket(key.value, seqNo, ackNo));
      }
    case TcpReceived(id, data) =>
      var key := natTable.GetTcpConnectionKey(id);
      if key.Some? {
        SendDataChunks(id, key.value, data, natTable, out);
      }
    case TcpClosed(id) =>
      var key := natTable.GetTcpConnectionKey(id);
      if key.Some? {
        var state := natTable.GetTcpState(key.value);
        match state
        case Some(Established) =>
          SendFin(id, key.value, CloseWait, natTable, out);
        case Some(FinWait) =>
          SendFin(id, key.value, LastAck, natTable, out);
        case _ =>
          natTable.CloseTcpConnection(key.value);
      }
    case TcpError(id, error) =>
      var key := natTable.GetTcpConnectionKey(id);
      if key.Some? {
        out.SendTcp(RstPacket(key.value));
        natTable.CloseTcpConnection(key.value);
      }
    case _ =>
  }

  /** Every mapping pairs its sender with a peer of the same family. */
  ghost predicate MappingsOneFamily(m: map<UdpKey, UdpMapping>) {
    forall key :: key in m ==> SameFamily(m[key].srcIp, key.ip)
  }

  function AfterDatagram(m: map<UdpKey, UdpMapping>, udp: UdpPacket, stored: nat, swept: nat): map<UdpKey, UdpMapping> {
    Swept(Tracked(m, UdpKey(udp.srcPort, udp.dstIp, udp.dstPort), udp.srcIp, stored), swept)
  }

  method HandleOutboundUdp(udp: UdpPacket, natTable: NatTable, out: Outbox, stored: nat, swept: nat)
    modifies natTable, out`toRemote
    ensures natTable.Tcp() == old(natTable.Tcp())
    ensures natTable.udpMappings == AfterDatagram(old(natTable.udpMappings), udp, stored, swept)
    ensures swept - stored < 60_000_000_000 ==>
      var key := UdpKey(udp.srcPort, udp.dstIp, udp.dstPort);
      key in natTable.udpMappings && natTable.udpMappings[key].srcIp == udp.srcIp
    ensures out.toRemote == old(out.toRemote) + [UdpDatagram(udp.srcPort, udp.dstIp, udp.dstPort, udp.payload)]
    ensures old(MappingsOneFamily(natTable.udpMappings)) && SameFamily(udp.srcIp, udp.dstIp)
        ==> MappingsOneFamily(natTable.udpMappings)
  {
    natTable.TrackUdp(udp.srcIp, udp.srcPort, udp.dstIp, udp.dstPort, stored, swept);
    out.SendRemote(UdpDatagram(udp.srcPort, udp.dstIp, udp.dstPort, udp.payload));
  }

  /** What a UDP response becomes: a packet to the mapped sender, or nothing. */
  function UdpReply(m: map<UdpKey, UdpMapping>, dstPort: u16, srcIp: IpAddr, srcPort: u16, data: seq<byte>)
    : seq<UdpPacket>
  {
    var key := UdpKey(dstPort, srcIp, srcPort);
    if key in m then [UdpPacket(srcIp, m[key].srcIp, srcPort, dstPort, data)] else []
  }

  /** The UDP arm of the remote message handler; the payload is that of one datagram. */
  method HandleUdpResponse(dstPort: u16, srcIp: IpAddr, srcPort: u16, data: seq<byte>, natTable: NatTable, out: Outbox)
    requires MappingsOneFamily(natTable.udpMappings)
    requires 8 + |data| + (if srcIp.V4? then 20 else 0) < 0x1_0000 && out.Buildable()
    modifies out`toTun
    ensures var key := UdpKey(dstPort, srcIp, srcPort);
      out.toTun == old(out.toTun)
        + if key in natTable.udpMappings
          then [TunUdp(UdpPacket(srcIp, natTable.udpMappings[key].srcIp, srcPort, dstPort, data))]
          else []
    ensures var ps := UdpReply(natTable.udpMappings, dstPort, srcIp, srcPort, data);
      out.toTun == old(out.toTun) + seq(|ps|, i requires 0 <= i < |ps| => TunUdp(ps[i]))
    ensures out.Buildable()
  {
    var original := natTable.GetUdpSrcIp(dstPort, srcIp, srcPort);
    if original.Some? {
      out.SendUdp(UdpPacket(srcIp, original.value, srcPort, dstPort, data));
    }
  }

  /** How reading a packet from the TUN device ends: handled, refused by the parser, or in
      the parser's panic. */
  datatype TunEnd = Handled | Refused | Panicked

  /** A packet read from the TUN device. A packet that does not parse, or is neither TCP
      nor UDP, changes nothing. The two clock readings are for a UDP mapping. */
  method HandleTunPacket(data: seq<byte>, walk: Walk, natTable: NatTable, out: Outbox, stored: nat, swept: nat)
    returns (end: TunEnd)
    requires WalkNarrows(walk)
    requires OneFamily(natTable.Tcp()) && MappingsOneFamily(natTable.udpMappings) && out.Buildable()
    modifies natTable, out
    ensures end.Handled? <==> ParseIp(data, walk).Parsed?
    ensures end.Panicked? <==> data != [] && data[0] / 16 == 4 && ShortTotal(data)
    ensures OneFamily(natTable.Tcp()) && MappingsOneFamily(natTable.udpMappings) && out.Buildable()
    ensures
      match ParseIp(data, walk)
      case Parsed(Tcp(tcp)) =>
        var o := OnSegment(old(natTable.Tcp()), tcp);
        && natTable.Tcp() == o.table && natTable.udpMappings == old(natTable.udpMappings)
        && out.toRemote == old(out.toRemote) + o.msgs && out.toTun == old(out.toTun) + TunTcps(o.packets)
      case Parsed(Udp(udp)) =>
        && natTable.Tcp() == old(natTable.Tcp()) && out.toTun == old(out.toTun)
        && natTable.udpMappings == AfterDatagram(old(natTable.udpMappings), udp, stored, swept)
        && out.toRemote == old(out.toRemote) + [UdpDatagram(udp.srcPort, udp.dstIp, udp.dstPort, udp.payload)]
      case _ =>
        && natTable.Tcp() == old(natTable.Tcp()) && natTable.udpMappings == old(natTable.udpMappings)
        && out.toRemote == old(out.toRemote) && out.toTun == old(out.toTun)
  {
    var parsed := ParseIp(data, walk);
    ParsedFitsU16(data, walk);
    ParsePanicsExactly(data, walk);
    match parsed
    case Parsed(packet) =>
      end := Handled;
      match packet {
        case Tcp(tcp) => HandleOutboundTcp(tcp, natTable, out);
        case Udp(udp) => HandleOutboundUdp(udp, natTable, out, stored, swept);
        case Other(_) =>
      }
    case Rejected => end := Refused;
    case Panics => end := Panicked;
  }
}
