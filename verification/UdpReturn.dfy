/** The UDP return path, checked against the full log of the datagrams that went out. */
module UdpReturn {
  import opened Base
  import opened Messages
  import opened Packets
  import opened Nat
  import opened Host
  import opened Remote

  /** A datagram of an app, and the two clock readings of the call that tracked it (the
      one stored and the one its clean-up used). */
  datatype Outbound = Outbound(udp: UdpPacket, stored: nat, swept: nat)

  /** The map after the host has handled every datagram of the log. */
  function Replay(log: seq<Outbound>): map<UdpKey, UdpMapping> {
    if log == [] then map[]
    else
      var o := log[|log| - 1];
      AfterDatagram(Replay(log[..|log| - 1]), o.udp, o.stored, o.swept)
  }

  /** A clock that never runs backwards. */
  ghost predicate Clocked(log: seq<Outbound>) {
    && (forall i :: 0 <= i < |log| ==> log[i].stored <= log[i].swept)
    && (forall i, j :: 0 <= i < j < |log| ==> log[i].swept <= log[j].stored)
  }

  /** A datagram from a port to a peer: one that the peer's answers to that port belong to. */
  predicate Between(udp: UdpPacket, port: u16, ip: IpAddr, peerPort: u16) {
    udp.srcPort == port && udp.dstIp == ip && udp.dstPort == peerPort
  }

  ghost predicate IsLatest(log: seq<Outbound>, port: u16, ip: IpAddr, peerPort: u16, i: int) {
    && 0 <= i < |log| && Between(log[i].udp, port, ip, peerPort)
    && forall j :: i < j < |log| ==> !Between(log[j].udp, port, ip, peerPort)
  }

  /** A datagram between others changes nothing about which one is the latest. */
  lemma SameLatest(log: seq<Outbound>, port: u16, ip: IpAddr, peerPort: u16, i: int)
    requires log != [] && !Between(log[|log| - 1].udp, port, ip, peerPort)
    ensures IsLatest(log, port, ip, peerPort, i) <==> IsLatest(log[..|log| - 1], port, ip, peerPort, i)
  {
    var before := log[..|log| - 1];
    if IsLatest(before, port, ip, peerPort, i) {
      assert forall j :: i < j < |log| - 1 ==> log[j] == before[j];
    }
  }

  /** The age of a datagram at the latest clean-up, the one of the last datagram sent. */
  ghost predicate Fresh(log: seq<Outbound>, i: int)
    requires 0 <= i < |log|
  {
    log[|log| - 1].swept - log[i].stored < 60_000_000_000
  }

  /** A mapping exists exactly when the latest datagram between its port and peer was sent
      less than 60 seconds before the most recent clean-up, and it names that sender. */
  lemma {:induction false} ReplayRemembersLatest(log: seq<Outbound>, port: u16, ip: IpAddr, peerPort: u16)
    requires Clocked(log)
    ensures UdpKey(port, ip, peerPort) in Replay(log) <==>
      exists i :: IsLatest(log, port, ip, peerPort, i) && Fresh(log, i)
    ensures UdpKey(port, ip, peerPort) in Replay(log) ==>
      forall i :: IsLatest(log, port, ip, peerPort, i) ==>
        Replay(log)[UdpKey(port, ip, peerPort)] == UdpMapping(log[i].udp.srcIp, log[i].stored)
  {
    if log != [] {
      var n := |log| - 1;
      var o, before := log[n], log[..n];
      assert Clocked(before);
      ReplayRemembersLatest(before, port, ip, peerPort);
      if Between(o.udp, port, ip, peerPort) {
        assert IsLatest(log, port, ip, peerPort, n);
      } else {
        forall i ensures IsLatest(log, port, ip, peerPort, i) <==> IsLatest(before, port, ip, peerPort, i) {
          SameLatest(log, port, ip, peerPort, i);
        }
        if UdpKey(port, ip, peerPort) in Replay(log) {
          var i :| IsLatest(before, port, ip, peerPort, i) && Fresh(before, i);
          assert IsLatest(log, port, ip, peerPort, i) && Fresh(log, i);
        }
        forall i | IsLatest(log, port, ip, peerPort, i) && Fresh(log, i)
          ensures UdpKey(port, ip, peerPort) in Replay(log)
        {
          assert IsLatest(before, port, ip, peerPort, i) && Fresh(before, i);
        }
      }
    }
  }

  /** Of the answers a peer sends to a port, exactly those within 60 seconds of the latest
      datagram from that port to that peer become a packet: from the peer, to the port of
      the app that sent that datagram, with the answer's bytes. */
  lemma AnswersReachTheLatestSender(log: seq<Outbound>, port: u16, ip: IpAddr, peerPort: u16, data: seq<byte>, i: nat)
    requires Clocked(log) && IsLatest(log, port, ip, peerPort, i)
    ensures UdpReply(Replay(log), port, ip, peerPort, data) ==
      if Fresh(log, i) then [UdpPacket(ip, log[i].udp.srcIp, peerPort, port, data)] else []
  {
    ReplayRemembersLatest(log, port, ip, peerPort);
    if UdpKey(port, ip, peerPort) in Replay(log) {
      var k :| IsLatest(log, port, ip, peerPort, k) && Fresh(log, k);
      assert k == i;
    }
  }

  lemma StrangersAreNotAnswered(log: seq<Outbound>, port: u16, ip: IpAddr, peerPort: u16, data: seq<byte>)
    requires Clocked(log) && forall i :: 0 <= i < |log| ==> !Between(log[i].udp, port, ip, peerPort)
    ensures UdpReply(Replay(log), port, ip, peerPort, data) == []
  {
    ReplayRemembersLatest(log, port, ip, peerPort);
  }

  /** The whole exchange: the app's datagram reaches the remote as a job for its destination,
      with its bytes; what that destination answers comes back, one response for each
      datagram, to the app's port and address, while the mapping is fresh. */
  lemma ExchangeComesBack(log: seq<Outbound>, answers: seq<Arrival>, k: nat)
    requires Clocked(log) && log != [] && k < |answers|
    requires var last := log[|log| - 1];
      Fresh(log, |log| - 1) && answers[k].source == Peer(last.udp.dstIp, last.udp.dstPort)
    ensures var udp := log[|log| - 1].udp;
      var jobs := JobsOf(UdpDatagram(udp.srcPort, udp.dstIp, udp.dstPort, udp.payload));
      && jobs == [SendDatagram(udp.srcPort, Peer(udp.dstIp, udp.dstPort), udp.payload)]
      && var said := JobSays(jobs[0], Some(answers));
      && |said| == |answers| && said[k].UdpResponse?
      && UdpReply(Replay(log), said[k].dstPort, said[k].srcIp, said[k].srcPort, said[k].data)
           == [UdpPacket(udp.dstIp, udp.srcIp, udp.dstPort, udp.srcPort, answers[k].data)]
  {
    var udp := log[|log| - 1].udp;
    assert IsLatest(log, udp.srcPort, udp.dstIp, udp.dstPort, |log| - 1);
    AnswersReachTheLatestSender(log, udp.srcPort, udp.dstIp, udp.dstPort, answers[k].data, |log| - 1);
  }
}
