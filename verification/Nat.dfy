/** The NAT table: TCP connections under two indexes, and UDP return mappings. */
module Nat {
  import opened Base

  datatype TcpKey = TcpKey(srcIp: IpAddr, srcPort: u16, dstIp: IpAddr, dstPort: u16)

  datatype ConnectionState =
    | SynSent
    | Established
    | FinWait    // the app's FIN came first; waiting for TcpClosed
    | CloseWait  // TcpClosed came first and a FIN went to the app; waiting for the app's FIN
    | LastAck    // both sides closed; waiting for the app to acknowledge our FIN

  datatype TcpConnection = TcpConnection(id: u32, state: ConnectionState, seqNo: u32, ackNo: u32)

  /** The TCP half of the table as a value. */
  datatype Table = Table(byKey: map<TcpKey, TcpConnection>, byId: map<u32, TcpKey>, nextId: u32)

  datatype UdpKey = UdpKey(port: u16, ip: IpAddr, peerPort: u16)
  datatype UdpMapping = UdpMapping(srcIp: IpAddr, lastActivity: nat)

  const OUR_ISN: u32 := 1000
  /** Sixty seconds in nanoseconds, the resolution of a clock reading. */
  const UDP_TIMEOUT := 60_000_000_000

  const EmptyTable := Table(map[], map[], 1)

  // -------------------------------------------------- the operations, as functions

  function Create(t: Table, key: TcpKey, clientIsn: u32): Table {
    Table(t.byKey[key := TcpConnection(t.nextId, SynSent, OUR_ISN, WrapAdd(clientIsn, 1))],
          t.byId[t.nextId := key], WrapAdd(t.nextId, 1))
  }

  function IdOf(t: Table, key: TcpKey): Option<u32> {
    if key in t.byKey then Some(t.byKey[key].id) else None
  }

  function KeyOf(t: Table, id: u32): Option<TcpKey> {
    if id in t.byId then Some(t.byId[id]) else None
  }

  function StateOf(t: Table, key: TcpKey): Option<ConnectionState> {
    if key in t.byKey then Some(t.byKey[key].state) else None
  }

  /** The entry reached through the id index. */
  function EntryOf(t: Table, id: u32): Option<TcpConnection> {
    if id in t.byId && t.byId[id] in t.byKey then Some(t.byKey[t.byId[id]]) else None
  }

  function SeqOf(t: Table, id: u32): u32 {
    if EntryOf(t, id).Some? then EntryOf(t, id).value.seqNo else 0
  }

  function AckOf(t: Table, id: u32): u32 {
    if EntryOf(t, id).Some? then EntryOf(t, id).value.ackNo else 0
  }

  function WithState(t: Table, key: TcpKey, state: ConnectionState): Table {
    if key in t.byKey then t.(byKey := t.byKey[key := t.byKey[key].(state := state)]) else t
  }

  function WithSeqAdvanced(t: Table, id: u32, bytes: u32): Table {
    match EntryOf(t, id)
    case None => t
    case Some(c) => t.(byKey := t.byKey[t.byId[id] := c.(seqNo := WrapAdd(c.seqNo, bytes))])
  }

  function WithAck(t: Table, id: u32, ack: u32): Table {
    match EntryOf(t, id)
    case None => t
    case Some(c) => t.(byKey := t.byKey[t.byId[id] := c.(ackNo := ack)])
  }

  function Closed(t: Table, key: TcpKey): Table {
    if key in t.byKey then t.(byKey := t.byKey - {key}, byId := t.byId - {t.byKey[key].id}) else t
  }

  function Tracked(m: map<UdpKey, UdpMapping>, key: UdpKey, srcIp: IpAddr, at: nat): map<UdpKey, UdpMapping> {
    m[key := UdpMapping(srcIp, at)]
  }

  /** `duration_since` saturates at zero. */
  function Age(now: nat, since: nat): nat {
    if since <= now then now - since else 0
  }

  function Swept(m: map<UdpKey, UdpMapping>, now: nat): map<UdpKey, UdpMapping> {
    map key | key in m && Age(now, m[key].lastActivity) < UDP_TIMEOUT :: m[key]
  }

  // ---------------------------------------------------------------- the class

  class NatTable {
    var tcpByKey: map<TcpKey, TcpConnection>
    var tcpById: map<u32, TcpKey>
    var udpMappings: map<UdpKey, UdpMapping>
    var nextId: u32

    function Tcp(): Table
      reads this
    {
      Table(tcpByKey, tcpById, nextId)
    }

    constructor ()
      ensures Tcp() == EmptyTable == Table(map[], map[], 1) && udpMappings == map[]
    {
      tcpByKey, tcpById, udpMappings, nextId := map[], map[], map[], 1;
    }

    method CreateTcpConnection(key: TcpKey, clientIsn: u32) returns (id: u32)
      modifies this
      ensures id == old(nextId) && nextId == (old(nextId) + 1) % 0x1_0000_0000
      ensures tcpByKey == old(tcpByKey)[key := TcpConnection(id, SynSent, 1000, (clientIsn + 1) % 0x1_0000_0000)]
      ensures tcpById == old(tcpById)[id := key] && udpMappings == old(udpMappings)
      ensures Tcp() == Create(old(Tcp()), key, clientIsn)
    {
      id := nextId;
      nextId := WrapAdd(nextId, 1);
      var conn := TcpConnection(id, SynSent, OUR_ISN, WrapAdd(clientIsn, 1));
      tcpByKey := tcpByKey[key := conn];
      tcpById := tcpById[id := key];
    }

    method GetTcpConnectionId(key: TcpKey) returns (id: Option<u32>)
      ensures id == if key in tcpByKey then Some(tcpByKey[key].id) else None
    {
      if key in tcpByKey { id := Some(tcpByKey[key].id); } else { id := None; }
    }

    method GetTcpConnectionKey(id: u32) returns (key: Option<TcpKey>)
      ensures key == if id in tcpById then Some(tcpById[id]) else None
    {
      if id in tcpById { key := Some(tcpById[id]); } else { key := None; }
    }

    method GetTcpState(key: TcpKey) returns (state: Option<ConnectionState>)
      ensures state == if key in tcpByKey then Some(tcpByKey[key].state) else None
    {
      if key in tcpByKey { state := Some(tcpByKey[key].state); } else { state := None; }
    }

    method SetTcpState(key: TcpKey, state: ConnectionState)
      modifies this
      ensures Tcp() == WithState(old(Tcp()), key, state) && udpMappings == old(udpMappings)
    {
      if key in tcpByKey {
        tcpByKey := tcpByKey[key := tcpByKey[key].(state := state)];
      }
    }

    method CloseTcpConnection(key: TcpKey)
      modifies this
      ensures Tcp() == Closed(old(Tcp()), key) && udpMappings == old(udpMappings)
    {
      if key in tcpByKey {
        var conn := tcpByKey[key];
        tcpByKey := tcpByKey - {key};
        tcpById := tcpById - {conn.id};
      }
    }

    method GetTcpSeq(id: u32) returns (n: u32)
      ensures n == if id in tcpById && tcpById[id] in tcpByKey then tcpByKey[tcpById[id]].seqNo else 0
    {
      n := 0;
      if id in tcpById && tcpById[id] in tcpByKey {
        n := tcpByKey[tcpById[id]].seqNo;
      }
    }

    method GetTcpAck(id: u32) returns (n: u32)
      ensures n == if id in tcpById && tcpById[id] in tcpByKey then tcpByKey[tcpById[id]].ackNo else 0
    {
      n := 0;
      if id in tcpById && tcpById[id] in tcpByKey {
        n := tcpByKey[tcpById[id]].ackNo;
      }
    }

    method AdvanceTcpSeq(id: u32, bytes: u32)
      modifies this
      ensures Tcp() == WithSeqAdvanced(old(Tcp()), id, bytes) && udpMappings == old(udpMappings)
    {
      if id in tcpById && tcpById[id] in tcpByKey {
        var key := tcpById[id];
        tcpByKey := tcpByKey[key := tcpByKey[key].(seqNo := WrapAdd(tcpByKey[key].seqNo, bytes))];
      }
    }

    method UpdateTcpAck(id: u32, ack: u32)
      modifies this
      ensures Tcp() == WithAck(old(Tcp()), id, ack) && udpMappings == old(udpMappings)
    {
      if id in tcpById && tcpById[id] in tcpByKey {
        var key := tcpById[id];
        tcpByKey := tcpByKey[key := tcpByKey[key].(ackNo := ack)];
      }
    }

    /** The two clock readings are the one stored and the one the clean-up uses. */
    method TrackUdp(srcIp: IpAddr, srcPort: u16, dstIp: IpAddr, dstPort: u16, stored: nat, swept: nat)
      modifies this
      ensures Tcp() == old(Tcp())
      ensures udpMappings == Swept(Tracked(old(udpMappings), UdpKey(srcPort, dstIp, dstPort), srcIp, stored), swept)
      ensures swept - stored < 60_000_000_000 ==>
        var key := UdpKey(srcPort, dstIp, dstPort);
        key in udpMappings && udpMappings[key].srcIp == srcIp
    {
      udpMappings := udpMappings[UdpKey(srcPort, dstIp, dstPort) := UdpMapping(srcIp, stored)];
      CleanupUdpMappings(swept);
    }

    method GetUdpSrcIp(dstPort: u16, srcIp: IpAddr, srcPort: u16) returns (ip: Option<IpAddr>)
      ensures var key := UdpKey(dstPort, srcIp, srcPort);
        ip == if key in udpMappings then Some(udpMappings[key].srcIp) else None
    {
      var key := UdpKey(dstPort, srcIp, srcPort);
      if key in udpMappings { ip := Some(udpMappings[key].srcIp); } else { ip := None; }
    }

    method CleanupUdpMappings(now: nat)
      modifies this
      ensures Tcp() == old(Tcp()) && udpMappings == Swept(old(udpMappings), now)
      ensures forall key :: key in udpMappings <==>
        key in old(udpMappings) && now - old(udpMappings)[key].lastActivity < 60_000_000_000
      ensures forall key :: key in udpMappings ==> udpMappings[key] == old(udpMappings)[key]
    {
      udpMappings := map key | key in udpMappings && Age(now, udpMappings[key].lastActivity) < UDP_TIMEOUT
                       :: udpMappings[key];
    }
  }

  // ---------------------------------------------------------- index agreement

  /** The setters change one field of one entry, and nothing where there is none. */
  lemma SettersAreLocal(t: Table, key: TcpKey, id: u32, state: ConnectionState, n: u32)
    ensures WithState(t, key, state) ==
      if key !in t.byKey then t else t.(byKey := t.byKey[key := t.byKey[key].(state := state)])
    ensures EntryOf(t, id) == None ==> WithSeqAdvanced(t, id, n) == t && WithAck(t, id, n) == t
    ensures EntryOf(t, id).Some? ==>
      var c := EntryOf(t, id).value;
      && WithSeqAdvanced(t, id, n) == t.(byKey := t.byKey[t.byId[id] := c.(seqNo := (c.seqNo + n) % 0x1_0000_0000)])
      && WithAck(t, id, n) == t.(byKey := t.byKey[t.byId[id] := c.(ackNo := n)])
  {
  }

  /** A creation under a fresh id on a free key adds one entry and touches no other. */
  lemma CreateIsLocal(t: Table, key: TcpKey, isn: u32, id: u32)
    requires Inverse(t) && IdsBelowNext(t) && key !in t.byKey
    ensures EntryOf(t, t.nextId) == None
    ensures EntryOf(Create(t, key, isn), id)
         == if id == t.nextId then Some(TcpConnection(id, SynSent, OUR_ISN, WrapAdd(isn, 1))) else EntryOf(t, id)
  {
  }

  /** Every live key's connection id leads back to that key. */
  ghost predicate Forward(t: Table) {
    forall key :: key in t.byKey ==> t.byKey[key].id in t.byId && t.byId[t.byKey[key].id] == key
  }

  /** Every id leads to the live entry that carries it. */
  ghost predicate Backward(t: Table) {
    forall id :: id in t.byId ==> t.byId[id] in t.byKey && t.byKey[t.byId[id]].id == id
  }

  ghost predicate IdsBelowNext(t: Table) {
    t.nextId > 0 && forall id :: id in t.byId ==> 0 < id < t.nextId
  }

  /** The two indexes are exact inverses. */
  ghost predicate Inverse(t: Table) {
    Forward(t) && Backward(t)
  }

  datatype NatOp =
    | OpCreate(key: TcpKey, isn: u32)
    | OpState(key: TcpKey, state: ConnectionState)
    | OpSeq(id: u32, bytes: u32)
    | OpAck(id: u32, ack: u32)
    | OpClose(key: TcpKey)

  function Apply(t: Table, op: NatOp): Table {
    match op
    case OpCreate(key, isn) => Create(t, key, isn)
    case OpState(key, state) => WithState(t, key, state)
    case OpSeq(id, bytes) => WithSeqAdvanced(t, id, bytes)
    case OpAck(id, ack) => WithAck(t, id, ack)
    case OpClose(key) => Closed(t, key)
  }

  function ApplyAll(t: Table, ops: seq<NatOp>): Table
    decreases |ops|
  {
    if ops == [] then t else ApplyAll(Apply(t, ops[0]), ops[1..])
  }

  function Creations(ops: seq<NatOp>): nat {
    if ops == [] then 0 else (if ops[0].OpCreate? then 1 else 0) + Creations(ops[1..])
  }

  /** Creations that hit a key which is live at that moment. */
  function LiveHits(t: Table, ops: seq<NatOp>): nat
    decreases |ops|
  {
    if ops == [] then 0
    else (if ops[0].OpCreate? && ops[0].key in t.byKey then 1 else 0) + LiveHits(Apply(t, ops[0]), ops[1..])
  }

  /** An update that keeps every key's id leaves the index agreement as it was. */
  ghost predicate SameIndex(t: Table, u: Table) {
    t.byId == u.byId && t.nextId == u.nextId && t.byKey.Keys == u.byKey.Keys
    && forall key :: key in t.byKey ==> t.byKey[key].id == u.byKey[key].id
  }

  lemma UpdatesKeepIndex(t: Table, op: NatOp)
    requires !op.OpCreate? && !op.OpClose?
    ensures SameIndex(t, Apply(t, op))
  {
  }

  lemma GrownBy<K, V>(m: map<K, V>, k: K, v: V)
    ensures |m[k := v]| == |m| + if k in m then 0 else 1
  {
    assert m[k := v].Keys == m.Keys + {k};
  }

  lemma ShrunkBy<K, V>(m: map<K, V>, k: K)
    requires k in m
    ensures |m - {k}| == |m| - 1
  {
    assert (m - {k}).Keys == m.Keys - {k};
  }

  /** How one operation moves the two index sizes. */
  lemma ApplySizes(t: Table, op: NatOp)
    requires Forward(t) && IdsBelowNext(t)
    ensures |Apply(t, op).byId| - |Apply(t, op).byKey|
         == |t.byId| - |t.byKey| + if op.OpCreate? && op.key in t.byKey then 1 else 0
  {
    match op
    case OpCreate(key, isn) =>
      GrownBy(t.byId, t.nextId, key);
      GrownBy(t.byKey, key, TcpConnection(t.nextId, SynSent, OUR_ISN, WrapAdd(isn, 1)));
    case OpClose(key) =>
      if key in t.byKey {
        ShrunkBy(t.byKey, key);
        ShrunkBy(t.byId, t.byKey[key].id);
      }
    case OpState(key, state) =>
      if key in t.byKey {
        GrownBy(t.byKey, key, t.byKey[key].(state := state));
      }
    case OpSeq(id, bytes) =>
      if EntryOf(t, id).Some? {
        var c := EntryOf(t, id).value;
        GrownBy(t.byKey, t.byId[id], c.(seqNo := WrapAdd(c.seqNo, bytes)));
      }
    case OpAck(id, ack) =>
      if EntryOf(t, id).Some? {
        GrownBy(t.byKey, t.byId[id], EntryOf(t, id).value.(ackNo := ack));
      }
  }

  /** One operation keeps the forward half and the id bound. */
  lemma ApplyKeepsForward(t: Table, op: NatOp)
    requires Forward(t) && IdsBelowNext(t) && (op.OpCreate? ==> t.nextId < TWO32 - 1)
    ensures Forward(Apply(t, op)) && IdsBelowNext(Apply(t, op))
    ensures Apply(t, op).nextId == t.nextId + if op.OpCreate? then 1 else 0
  {
    if !op.OpCreate? && !op.OpClose? {
      UpdatesKeepIndex(t, op);
    }
  }

  /** The size law over every operation sequence: the id index exceeds the key index
      by the number of creations on live keys. Live ids are pairwise distinct. */
  lemma {:induction false} IndexLaw(t: Table, ops: seq<NatOp>)
    requires Forward(t) && IdsBelowNext(t) && t.nextId + Creations(ops) < TWO32
    ensures Forward(ApplyAll(t, ops)) && IdsBelowNext(ApplyAll(t, ops))
    ensures |ApplyAll(t, ops).byId| - |ApplyAll(t, ops).byKey| == |t.byId| - |t.byKey| + LiveHits(t, ops)
    ensures var u := ApplyAll(t, ops);
      forall k, l :: k in u.byKey && l in u.byKey && k != l ==> u.byKey[k].id != u.byKey[l].id
    decreases |ops|
  {
    if ops != [] {
      ApplyKeepsForward(t, ops[0]);
      ApplySizes(t, ops[0]);
      IndexLaw(Apply(t, ops[0]), ops[1..]);
    }
  }

  lemma ApplyKeepsInverse(t: Table, op: NatOp)
    requires Inverse(t) && IdsBelowNext(t)
    requires op.OpCreate? ==> t.nextId < TWO32 - 1 && op.key !in t.byKey
    ensures Inverse(Apply(t, op))
  {
    if !op.OpCreate? && !op.OpClose? {
      UpdatesKeepIndex(t, op);
    }
  }

  lemma {:induction false} RunKeepsInverse(t: Table, ops: seq<NatOp>)
    requires Inverse(t) && IdsBelowNext(t) && t.nextId + Creations(ops) < TWO32 && LiveHits(t, ops) == 0
    ensures Inverse(ApplyAll(t, ops))
    decreases |ops|
  {
    if ops != [] {
      ApplyKeepsForward(t, ops[0]);
      ApplyKeepsInverse(t, ops[0]);
      RunKeepsInverse(Apply(t, ops[0]), ops[1..]);
    }
  }

  /** An injective index has as many ids as keys. */
  lemma {:induction false} InverseSizes(byKey: map<TcpKey, TcpConnection>, byId: map<u32, TcpKey>)
    requires Inverse(Table(byKey, byId, 0))
    ensures |byKey| == |byId|
  {
    if byKey == map[] {
      assert byId == map[];
    } else {
      var key :| key in byKey;
      var id := byKey[key].id;
      var fewerKeys, fewerIds := byKey - {key}, byId - {id};
      assert fewerKeys.Keys == byKey.Keys - {key} && fewerIds.Keys == byId.Keys - {id};
      InverseSizes(fewerKeys, fewerIds);
    }
  }

  /** From the empty table, the indexes end as exact inverses if and only if no
      creation ever hit a live key. */
  lemma InverseExactly(ops: seq<NatOp>)
    requires Creations(ops) < TWO32 - 1
    ensures Inverse(ApplyAll(EmptyTable, ops)) <==> LiveHits(EmptyTable, ops) == 0
  {
    IndexLaw(EmptyTable, ops);
    var u := ApplyAll(EmptyTable, ops);
    if LiveHits(EmptyTable, ops) == 0 {
      RunKeepsInverse(EmptyTable, ops);
    } else if Inverse(u) {
      assert Inverse(Table(u.byKey, u.byId, 0));
      InverseSizes(u.byKey, u.byId);
    }
  }
}
