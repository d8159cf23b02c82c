/** One connection of the host seen alone: the reference for the two handlers, stated on
    a single table entry. The handlers' table operations come down to it whenever the two
    indexes agree, and touch nothing else. */
module Endpoint {
  import opened Base
  import opened Messages
  import opened Packets
  import opened Nat
  import opened Host

  /** An entry after an event (None once it is closed), and what the event sent. */
  datatype Effect = Effect(entry: Option<TcpConnection>, msgs: seq<HostMessage>, packets: seq<TcpPacket>)

  function Quiet(c: TcpConnection): Effect {
    Effect(Some(c), [], [])
  }

  function SegmentEffect(key: TcpKey, c: TcpConnection, s: TcpPacket): Effect {
    if s.flags.rst then Effect(None, [TcpClose(c.id)], [])
    else
      match c.state
      case Established =>
        if s.flags.fin then
          var ack := WrapAdd(WrapAdd(s.seqNo, PayloadLen(|s.payload|)), 1);
          Effect(Some(c.(state := FinWait, ackNo := ack)),
                 (if s.payload != [] then [TcpData(c.id, s.payload)] else []) + [TcpClose(c.id)],
                 [AckPacket(key, c.seqNo, ack)])
        else if s.payload == [] then Quiet(c)
        else if s.seqNo == c.ackNo then
          var ack := WrapAdd(s.seqNo, PayloadLen(|s.payload|));
          Effect(Some(c.(ackNo := ack)), [TcpData(c.id, s.payload)], [AckPacket(key, c.seqNo, ack)])
        else Effect(Some(c), [], [AckPacket(key, c.seqNo, c.ackNo)])
      case CloseWait =>
        if s.flags.fin then Effect(None, [], [AckPacket(key, c.seqNo, WrapAdd(s.seqNo, 1))]) else Quiet(c)
      case LastAck => if s.flags.ack then Effect(None, [], []) else Quiet(c)
      case _ => Quiet(c)
  }

  /** The packets a block of remote data becomes. */
  function DataPackets(key: TcpKey, seqNo: u32, ackNo: u32, data: seq<byte>): seq<TcpPacket>
    decreases |data|
  {
    if data == [] then []
    else
      var n := ChunkLen(data);
      [DataPacket(key, seqNo, ackNo, n == |data|, data[..n])]
      + DataPackets(key, WrapAdd(seqNo, n), ackNo, data[n..])
  }

  function MessageEffect(key: TcpKey, c: TcpConnection, m: RemoteMessage): Effect {
    match m
    case TcpConnected(_) =>
      Effect(Some(c.(state := Established, seqNo := WrapAdd(c.seqNo, 1))), [], [SynAckPacket(key, c.seqNo, c.ackNo)])
    case TcpReceived(_, data) =>
      Effect(Some(Advanced(c, |data|)), [], DataPackets(key, c.seqNo, c.ackNo, data))
    case TcpClosed(_) =>
      if c.state == Established || c.state == FinWait then
        Effect(Some(c.(state := if c.state == Established then CloseWait else LastAck, seqNo := WrapAdd(c.seqNo, 1))),
               [], [FinPacket(key, c.seqNo, c.ackNo)])
      else Effect(None, [], [])
    case TcpError(_, _) => Effect(None, [], [RstPacket(key)])
    case _ => Quiet(c)
  }

  /** The table with one live connection replaced, or removed from both indexes. */
  function Replaced(t: Table, key: TcpKey, entry: Option<TcpConnection>): Table {
    match entry
    case None => Closed(t, key)
    case Some(c) => t.(byKey := t.byKey[key := c])
  }

  // -------------------------------------------------- the handlers come down to it

  lemma SegmentRefines(t: Table, s: TcpPacket)
    requires Forward(t) && !IsSyn(s) && SegmentKey(s) in t.byKey
    ensures var key := SegmentKey(s);
      var e := SegmentEffect(key, t.byKey[key], s);
      OnSegment(t, s) == Outcome(Replaced(t, key, e.entry), e.msgs, e.packets)
  {
    var key := SegmentKey(s);
    var c := t.byKey[key];
    assert EntryOf(t, c.id) == Some(c);
    assert t.byKey == t.byKey[key := c];
  }

  lemma WrapSum(a: nat, b: nat, c: nat)
    ensures ((a + b) % TWO32 + c) % TWO32 == (a + b + c) % TWO32
  {
  }

  function Advanced(c: TcpConnection, bytes: nat): TcpConnection {
    c.(seqNo := (c.seqNo + bytes) % TWO32)
  }

  lemma AdvanceReplaces(t: Table, id: u32, n: u32)
    requires Inverse(t) && id in t.byId
    ensures var key := t.byId[id];
      var c := t.byKey[key];
      var u := WithSeqAdvanced(t, id, n);
      Inverse(u) && u.byId == t.byId && u == Replaced(t, key, Some(Advanced(c, n)))
      && forall d :: Replaced(u, key, Some(d)) == Replaced(t, key, Some(d))
  {
    var key := t.byId[id];
    var u := WithSeqAdvanced(t, id, n);
    forall d ensures Replaced(u, key, Some(d)) == Replaced(t, key, Some(d)) {
      assert u.byKey[key := d] == t.byKey[key := d];
    }
  }

  lemma {:induction false} ChunksRefine(t: Table, id: u32, data: seq<byte>)
    requires Inverse(t) && id in t.byId
    ensures var key := t.byId[id];
      var c := t.byKey[key];
      SendChunks(t, id, key, data)
        == Outcome(Replaced(t, key, Some(Advanced(c, |data|))), [], DataPackets(key, c.seqNo, c.ackNo, data))
    decreases |data|
  {
    var key := t.byId[id];
    var c := t.byKey[key];
    if data == [] {
      assert t.byKey == t.byKey[key := c];
    } else {
      var n := ChunkLen(data);
      var u := WithSeqAdvanced(t, id, n);
      AdvanceReplaces(t, id, n);
      ChunksRefine(u, id, data[n..]);
      WrapSum(c.seqNo, n, |data[n..]|);
      assert Advanced(Advanced(c, n), |data[n..]|) == Advanced(c, |data|);
    }
  }

  lemma MessageRefines(t: Table, m: RemoteMessage)
    requires Inverse(t) && RemoteTag(m) in t.byId
    ensures var key := t.byId[m.id];
      var e := MessageEffect(key, t.byKey[key], m);
      OnMessage(t, m) == Outcome(Replaced(t, key, e.entry), [], e.packets)
  {
    var key := t.byId[m.id];
    var c := t.byKey[key];
    if m.TcpReceived? {
      ChunksRefine(t, m.id, m.data);
    } else if m.TcpClosed? && (c.state == Established || c.state == FinWait) {
      var next := c.(state := if c.state == Established then CloseWait else LastAck, seqNo := WrapAdd(c.seqNo, 1));
      assert OnMessage(t, m).table.byKey == t.byKey[key := next];
    } else if m.TcpConnected? {
      var next := c.(state := Established, seqNo := WrapAdd(c.seqNo, 1));
      assert OnMessage(t, m).table.byKey == t.byKey[key := next];
    }
  }

  // --------------------------------------------------------- isolation of connections

  /** Replacing one live connection keeps the indexes inverse, gives its id the new entry,
      and leaves every other id alone. */
  lemma ReplacedIsLocal(t: Table, key: TcpKey, entry: Option<TcpConnection>)
    requires Inverse(t) && key in t.byKey && (entry.Some? ==> entry.value.id == t.byKey[key].id)
    ensures var u := Replaced(t, key, entry);
      var owner := t.byKey[key].id;
      && Inverse(u) && u.nextId == t.nextId && u.byId.Keys <= t.byId.Keys
      && EntryOf(u, owner) == entry
      && (forall id :: id != owner ==> EntryOf(u, id) == EntryOf(t, id))
      && (forall id :: id in u.byId ==> u.byId[id] == t.byId[id])
      && (forall id :: id != owner && id in t.byId ==> id in u.byId)
  {
    var u := Replaced(t, key, entry);
    var owner := t.byKey[key].id;
    assert owner in t.byId && t.byId[owner] == key;
    forall id | id != owner ensures EntryOf(u, id) == EntryOf(t, id) {
      if id in t.byId {
        assert t.byId[id] != key;
      }
    }
  }

  /** A message for an id that is not live changes nothing and sends nothing, even when
      its old 4-tuple is open again under another id; a message for a live id changes no
      other id's entry and no other id's key. */
  lemma StaleMessagesAreInert(t: Table, m: RemoteMessage)
    requires Inverse(t)
    ensures RemoteTag(m) !in t.byId ==> OnMessage(t, m) == Outcome(t, [], [])
    ensures var u := OnMessage(t, m).table;
      && Inverse(u) && u.nextId == t.nextId && u.byId.Keys <= t.byId.Keys
      && (forall id :: id != RemoteTag(m) ==> EntryOf(u, id) == EntryOf(t, id))
      && (forall id :: id in u.byId ==> u.byId[id] == t.byId[id])
      && (forall id :: id != RemoteTag(m) && id in t.byId ==> id in u.byId)
    ensures RemoteTag(m) in t.byId ==>
      EntryOf(OnMessage(t, m).table, m.id) == MessageEffect(t.byId[m.id], t.byKey[t.byId[m.id]], m).entry
  {
    if RemoteTag(m) in t.byId {
      var key := t.byId[m.id];
      MessageRefines(t, m);
      ReplacedIsLocal(t, key, MessageEffect(key, t.byKey[key], m).entry);
    }
  }

  /** A segment that is not a SYN touches only the connection of its 4-tuple, and does
      nothing without one. */
  lemma SegmentsAreIsolated(t: Table, s: TcpPacket)
    requires Inverse(t) && !IsSyn(s)
    ensures SegmentKey(s) !in t.byKey ==> OnSegment(t, s) == Outcome(t, [], [])
    ensures var u := OnSegment(t, s).table;
      && Inverse(u) && u.nextId == t.nextId && u.byId.Keys <= t.byId.Keys
      && (forall id :: id in u.byId ==> u.byId[id] == t.byId[id])
    ensures var u := OnSegment(t, s).table;
      SegmentKey(s) in t.byKey ==>
        var c := t.byKey[SegmentKey(s)];
        && EntryOf(u, c.id) == SegmentEffect(SegmentKey(s), c, s).entry
        && (forall id :: id != c.id ==> EntryOf(u, id) == EntryOf(t, id))
        && (forall id :: id != c.id && id in t.byId ==> id in u.byId)
  {
    var key := SegmentKey(s);
    if key in t.byKey {
      SegmentRefines(t, s);
      ReplacedIsLocal(t, key, SegmentEffect(key, t.byKey[key], s).entry);
    }
  }

  // ------------------------------------------------------------------ the chunk loop

  function Payloads(ps: seq<TcpPacket>): seq<byte> {
    if ps == [] then [] else ps[0].payload + Payloads(ps[1..])
  }

  lemma {:induction false} ChunksCarryData(key: TcpKey, seqNo: u32, ackNo: u32, data: seq<byte>)
    ensures Payloads(DataPackets(key, seqNo, ackNo, data)) == data
    decreases |data|
  {
    if data != [] {
      var n := ChunkLen(data);
      var ps := DataPackets(key, seqNo, ackNo, data);
      assert ps[1..] == DataPackets(key, WrapAdd(seqNo, n), ackNo, data[n..]);
      ChunksCarryData(key, WrapAdd(seqNo, n), ackNo, data[n..]);
      assert data[..n] + data[n..] == data;
    }
  }

  lemma {:induction false} ChunkAt(key: TcpKey, seqNo: u32, ackNo: u32, data: seq<byte>, i: nat)
    requires i < |DataPackets(key, seqNo, ackNo, data)|
    ensures var ps := DataPackets(key, seqNo, ackNo, data);
      var from := i * MAX_TCP_PAYLOAD;
      && from < |data| && 0 < |ps[i].payload| <= MAX_TCP_PAYLOAD
      && ps[i] == DataPacket(key, (seqNo + from) % TWO32, ackNo, i == |ps| - 1, ps[i].payload)
    decreases |data|
  {
    var n := ChunkLen(data);
    var tail := DataPackets(key, WrapAdd(seqNo, n), ackNo, data[n..]);
    if i > 0 {
      ChunkAt(key, WrapAdd(seqNo, n), ackNo, data[n..], i - 1);
      WrapSum(seqNo, n, (i - 1) * MAX_TCP_PAYLOAD);
    } else if n == |data| {
      assert data[n..] == [];
    }
  }

  /** The packets made from a block of data carry exactly that data, in order, in
      non-empty chunks of at most 65495 bytes that any builder accepts; the i-th sequence
      number is the first plus 65495 * i, modulo 2^32, and only the last one is pushed. */
  lemma DataPacketsCarryData(key: TcpKey, seqNo: u32, ackNo: u32, data: seq<byte>)
    ensures var ps := DataPackets(key, seqNo, ackNo, data);
      && Payloads(ps) == data
      && forall i :: 0 <= i < |ps| ==>
           && 0 < |ps[i].payload| <= 65495
           && ps[i] == TcpPacket(key.dstIp, key.srcIp, key.dstPort, key.srcPort,
                                 (seqNo + i * 65495) % TWO32, ackNo,
                                 TcpFlags(false, true, false, false, i == |ps| - 1), 65535, ps[i].payload)
           && (SameFamily(key.srcIp, key.dstIp) ==> TcpBuildable(ps[i]))
  {
    var ps := DataPackets(key, seqNo, ackNo, data);
    ChunksCarryData(key, seqNo, ackNo, data);
    forall i | 0 <= i < |ps| ensures
      && 0 < |ps[i].payload| <= MAX_TCP_PAYLOAD
      && ps[i] == DataPacket(key, (seqNo + i * MAX_TCP_PAYLOAD) % TWO32, ackNo, i == |ps| - 1, ps[i].payload)
    {
      ChunkAt(key, seqNo, ackNo, data, i);
    }
  }

  // ---------------------------------------------------------------- the clean-up arm

  /** A TcpClosed for a live id in a state that does not expect it removes the connection
      from both indexes, and tells nobody. */
  lemma UnexpectedCloseCleansUp(t: Table, id: u32)
    requires Inverse(t) && id in t.byId
    requires t.byKey[t.byId[id]].state != Established && t.byKey[t.byId[id]].state != FinWait
    ensures var o := OnMessage(t, TcpClosed(id));
      && o.table.byKey == t.byKey - {t.byId[id]} && o.table.byId == t.byId - {id}
      && o.table.nextId == t.nextId && o.msgs == [] && o.packets == []
  {
  }
}
