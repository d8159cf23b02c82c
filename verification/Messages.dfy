/** The two message enums of the tunnel protocol. Text is kept as its UTF-8 octets. */
module Messages {
  import opened Base

  datatype HostMessage =
    | TcpConnect(id: u32, dstIp: IpAddr, dstPort: u16)
    | TcpData(id: u32, data: seq<byte>)
    | TcpClose(id: u32)
    | UdpDatagram(srcPort: u16, dstIp: IpAddr, dstPort: u16, data: seq<byte>)
    | DnsQuery(id: u32, server: IpAddr, data: seq<byte>)
    | Shutdown

  datatype RemoteMessage =
    | TcpConnected(id: u32)
    | TcpReceived(id: u32, data: seq<byte>)
    | TcpClosed(id: u32)
    | TcpError(id: u32, error: seq<byte>)
    | UdpResponse(dstPort: u16, srcIp: IpAddr, srcPort: u16, data: seq<byte>)
    | DnsResponse(id: u32, data: seq<byte>)
    | Ready
    | Error(error: seq<byte>)

  /** The TCP connection a message belongs to, or -1 for the other kinds. */
  function HostTag(m: HostMessage): int {
    if m.TcpConnect? || m.TcpData? || m.TcpClose? then m.id else -1
  }

  function RemoteTag(m: RemoteMessage): int {
    if m.TcpConnected? || m.TcpReceived? || m.TcpClosed? || m.TcpError? then m.id else -1
  }

  /** The messages of a queue that carry a given tag, in queue order. */
  function For<T>(tag: T -> int, queue: seq<T>, id: int): seq<T> {
    if queue == [] then []
    else (if tag(queue[0]) == id then [queue[0]] else []) + For(tag, queue[1..], id)
  }

  lemma {:induction false} ForAppend<T>(tag: T -> int, queue: seq<T>, more: seq<T>, id: int)
    ensures For(tag, queue + more, id) == For(tag, queue, id) + For(tag, more, id)
  {
    if queue == [] {
      assert queue + more == more;
    } else {
      var head := if tag(queue[0]) == id then [queue[0]] else [];
      var rest := For(tag, queue[1..], id);
      ForAppend(tag, queue[1..], more, id);
      assert (queue + more)[1..] == queue[1..] + more;
      assert For(tag, queue + more, id) == head + (rest + For(tag, more, id));
      assert head + (rest + For(tag, more, id)) == (head + rest) + For(tag, more, id);
    }
  }

  lemma {:induction false} ForTagged<T>(tag: T -> int, queue: seq<T>, owner: int, id: int)
    requires forall i :: 0 <= i < |queue| ==> tag(queue[i]) == owner
    ensures For(tag, queue, id) == if id == owner then queue else []
  {
    if queue != [] {
      assert forall i :: 0 <= i < |queue[1..]| ==> tag(queue[1..][i]) == owner;
      ForTagged(tag, queue[1..], owner, id);
    }
  }
}
