/** Where the code keeps less than it promises: what happens when a hypothesis of the
    tunnel's runs fails, and runs of the tunnel that lead to each gap. */
module Findings {
  import opened Base
  import opened Messages
  import opened Packets
  import opened Nat
  import opened Host
  import opened Endpoint
  import opened Remote
  import opened Grammar
  import opened Connection
  import opened Promises
  import opened System

  // --------------------------------------------------------------- SYN on a live 4-tuple

  /** A SYN on a live 4-tuple orphans its old id: the id index keeps leading to the key,
      whose entry now carries the new id. */
  lemma DuplicateSynOrphans(t: Table, key: TcpKey, isn: u32)
    requires Inverse(t) && IdsBelowNext(t) && key in t.byKey
    ensures var u := Create(t, key, isn);
      var prior := t.byKey[key].id;
      Forward(u) && !Backward(u) && u.byId[prior] == key && EntryOf(u, prior).value.id == t.nextId
  {
    var u := Create(t, key, isn);
    assert t.byKey[key].id in u.byId;
  }

  /** From then on a message for the old connection acts on the new one: an error of the
      old connection removes the new entry and leaves the orphan behind. */
  lemma OrphanActsOnSuccessor(t: Table, key: TcpKey, isn: u32, error: seq<byte>)
    requires Inverse(t) && IdsBelowNext(t) && key in t.byKey
    ensures var prior := t.byKey[key].id;
      var o := OnMessage(Create(t, key, isn), TcpError(prior, error));
      && o.packets == [RstPacket(key)]
      && key !in o.table.byKey && t.nextId !in o.table.byId && prior in o.table.byId
  {
    DuplicateSynOrphans(t, key, isn);
  }

  // ------------------------------------------------------------ the data race

  /** Data handled after TcpConnected was announced and before the handle was inserted
      leaves no trace in the task. */
  lemma RacedDataVanishes(c: Conn)
    requires Formed(c) && LosesData(c)
    ensures Dispatch(c).task == c.task && !Dispatch(c).handle && !Intact(Dispatch(c))
  {
    PendBytes(c);
    AskedBytesOf(c.pend[0]);
  }

  /** The bytes of two data messages in a row. */
  lemma TwoBlocks(id: u32, a: seq<byte>, b: seq<byte>)
    ensures AskedBytes([TcpData(id, a), TcpData(id, b)]) == a + b
  {
    AskedBytesMore([TcpData(id, a)], [TcpData(id, b)]);
    AskedBytesOf(TcpData(id, a));
    AskedBytesOf(TcpData(id, b));
    assert [TcpData(id, a), TcpData(id, b)] == [TcpData(id, a)] + [TcpData(id, b)];
  }

  /** The task after the lost block, the insertion of the handle, and the next block. */
  lemma NextBlockIsWritten(c: Conn, lost: seq<byte>, next: seq<byte>)
    requires Formed(c) && c.task.phase == Announced
    requires c.pend == [TcpData(c.id, lost), TcpData(c.id, next)]
    ensures var b := Act(Dispatch(c), InsertHandle);
      && b.pend != [] && CanStep(Dispatch(b).task, Dispatch(b).handle, WriteOk)
      && Act(Dispatch(b), WriteOk).task.written == next
      && Sent(Act(Dispatch(b), WriteOk)) == Sent(c)
  {
    var b := Act(Dispatch(c), InsertHandle);
    assert b.pend == [TcpData(c.id, next)];
    assert Dispatch(b).task == Task(Relaying, [next], [], c.task.read, c.task.peer);
  }

  /** After the race the stream has a hole: the next data is written first. */
  lemma RacedDataBreaksStream(c: Conn, lost: seq<byte>, next: seq<byte>)
    requires Good(DATA, c) && c.task.phase == Announced
    requires c.pend == [TcpData(c.id, lost), TcpData(c.id, next)]
    requires lost != [] && next != [] && lost[0] != next[0]
    ensures var b := Act(Dispatch(c), InsertHandle);
      && b.pend != [] && CanStep(Dispatch(b).task, Dispatch(b).handle, WriteOk)
      && var e := Act(Dispatch(b), WriteOk);
      && e.task.written == next && !(next <= Forwarded(e))
  {
    NextBlockIsWritten(c, lost, next);
    TwoBlocks(c.id, lost, next);
    AskedBytesMore(c.done, c.pend);
    assert Forwarded(c) == [] + (lost + next);
  }

  // ------------------------------------------------ runs that lead to a connection's state

  /** A run leads to a world whose first connection is c, and whose two streams carry
      nothing else. Every hypothesis holds along it. */
  predicate LeadsTo(es: seq<Event>, c: Conn) {
    && OrderlyRun(EVERYTHING, Start, es)
    && var w := Run(Start, es);
    && View(w, 1) == c && w.toRemote == c.pend && w.toHost == c.wait
  }

  lemma {:induction false} Extend(w: World, es: seq<Event>, e: Event)
    requires OrderlyRun(EVERYTHING, w, es) && Orderly(EVERYTHING, Run(w, es), e)
    ensures OrderlyRun(EVERYTHING, w, es + [e]) && Run(w, es + [e]) == Next(Run(w, es), e)
    decreases |es|
  {
    if es == [] {
      assert es + [e] == [e] && [e][1..] == [];
    } else {
      assert (es + [e])[0] == es[0] && (es + [e])[1..] == es[1..] + [e];
      Extend(Next(w, es[0]), es[1..], e);
    }
  }

  /** The world at the end of such a run, and its first connection's place in the table. */
  lemma Reached(es: seq<Event>, c: Conn)
    requires LeadsTo(es, c)
    ensures var w := Run(Start, es);
      && Tabled(w) && Good(EVERYTHING, c)
      && (c.entry.Some? ==>
            && c.birth.Some? && c.birth.value.key in w.table.byKey
            && w.table.byKey[c.birth.value.key] == c.entry.value && c.entry.value.id == 1)
  {
    StartIsGood(EVERYTHING);
    RunKeepsInv(EVERYTHING, Start, es);
  }

  lemma OpenRun(birth: Birth) returns (es: seq<Event>)
    requires SameFamily(birth.key.srcIp, birth.key.dstIp)
    ensures LeadsTo(es, Opened(Conn(1, None, None, [], [], NoTask, false, [], [], []), birth))
  {
    var key := birth.key;
    var syn := TcpPacket(key.srcIp, key.dstIp, key.srcPort, key.dstPort, birth.isn, 0,
                         NoFlags.(syn := true), 65535, []);
    StartIsGood(EVERYTHING);
    Extend(Start, [], App(syn, birth.stream));
    es := [] + [App(syn, birth.stream)];
    SynIsOpening(Start, syn, birth.stream, 1);
  }

  lemma SegmentRun(es: seq<Event>, c: Conn, s: TcpPacket) returns (fs: seq<Event>)
    requires LeadsTo(es, c) && c.birth.Some? && c.entry.Some? && SegmentKey(s) == c.birth.value.key
    requires !IsSyn(s) && FromWire(s) && Honest(EVERYTHING, c, s)
    ensures LeadsTo(fs, Segment(c, s))
  {
    var w := Run(Start, es);
    Reached(es, c);
    Extend(Start, es, App(s, []));
    fs := es + [App(s, [])];
    SegmentIsOwned(w, s, [], 1);
    SegmentRefines(w.table, s);
  }

  lemma DispatchRun(es: seq<Event>, c: Conn) returns (fs: seq<Event>)
    requires LeadsTo(es, c) && c.pend != [] && HostTag(c.pend[0]) == 1 && !Loses(EVERYTHING, c)
    ensures LeadsTo(fs, Dispatch(c))
  {
    Extend(Start, es, RemoteHears);
    fs := es + [RemoteHears];
    DispatchIsOwned(Run(Start, es), 1);
  }

  lemma ListenRun(es: seq<Event>, c: Conn) returns (fs: seq<Event>)
    requires LeadsTo(es, c) && c.wait != [] && RemoteTag(c.wait[0]) == 1 && (c.entry.Some? ==> c.birth.Some?)
    ensures LeadsTo(fs, Listen(c))
  {
    Reached(es, c);
    Extend(Start, es, HostHears);
    fs := es + [HostHears];
    MessageIsOwned(Run(Start, es), 1);
  }

  lemma ActRun(es: seq<Event>, c: Conn, ev: TaskEvent) returns (fs: seq<Event>)
    requires LeadsTo(es, c) && CanStep(c.task, c.handle, ev)
    ensures LeadsTo(fs, Act(c, ev))
  {
    Extend(Start, es, TaskRuns(1, ev));
    fs := es + [TaskRuns(1, ev)];
    TaskIsOwned(Run(Start, es), 1, ev, 1);
  }

  /** A segment of a connection's app, in sequence. */
  function InTurn(c: Conn, flags: TcpFlags, payload: seq<byte>): TcpPacket
    requires c.birth.Some? && c.entry.Some?
  {
    var key := c.birth.value.key;
    TcpPacket(key.srcIp, key.dstIp, key.srcPort, key.dstPort, c.entry.value.ackNo, 0, flags, 65535, payload)
  }

  /** The remote has begun to dial. */
  lemma DialledRun(birth: Birth) returns (es: seq<Event>, c: Conn)
    requires SameFamily(birth.key.srcIp, birth.key.dstIp)
    ensures LeadsTo(es, c) && c.birth == Some(birth) && c.task.phase == Connecting
    ensures c.pend == [] && c.wait == [] && c.entry == Some(TcpConnection(1, SynSent, OUR_ISN, WrapAdd(birth.isn, 1)))
    ensures c.id == 1 && Forwarded(c) == []
  {
    var start := Conn(1, None, None, [], [], NoTask, false, [], [], []);
    var asked := Opened(start, birth);
    assert asked.pend == [TcpConnect(1, birth.key.dstIp, birth.key.dstPort)];
    es := OpenRun(birth);
    es := DispatchRun(es, asked);
    c := Dispatch(asked);
    assert Sent(c) == asked.pend;
    AskedBytesOf(asked.pend[0]);
  }

  /** The remote has announced the connection and the host has taken it up. */
  lemma EstablishedRun(birth: Birth) returns (es: seq<Event>, c: Conn)
    requires SameFamily(birth.key.srcIp, birth.key.dstIp)
    ensures LeadsTo(es, c) && c.birth == Some(birth) && c.task.phase == Announced && c.id == 1
    ensures c.pend == [] && c.wait == [] && Forwarded(c) == []
    ensures c.entry.Some? && c.entry.value.state == Established && c.entry.value.id == 1
  {
    var dialled;
    es, dialled := DialledRun(birth);
    es := ActRun(es, dialled, ConnectOk);
    var announced := Act(dialled, ConnectOk);
    assert announced.wait == [TcpConnected(1)];
    es := ListenRun(es, announced);
    c := Listen(announced);
  }

  /** The app sends its next byte. */
  lemma ByteRun(es: seq<Event>, c: Conn, b: byte) returns (fs: seq<Event>, d: Conn)
    requires LeadsTo(es, c) && c.birth.Some? && c.entry.Some? && c.entry.value.state == Established && c.id == 1
    requires SameFamily(c.birth.value.key.srcIp, c.birth.value.key.dstIp)
    requires |Forwarded(c)| < |c.birth.value.stream| && c.birth.value.stream[|Forwarded(c)|] == b
    ensures LeadsTo(fs, d) && d.id == 1 && d.birth == c.birth && d.task == c.task
    ensures d.pend == c.pend + [TcpData(1, [b])]
    ensures d.entry.Some? && d.entry.value.state == Established && Forwarded(d) == Forwarded(c) + [b]
  {
    Reached(es, c);
    var s := InTurn(c, NoFlags.(ack := true), [b]);
    fs := SegmentRun(es, c, s);
    d := Segment(c, s);
    SegmentBytes(c, s);
  }

  // ------------------------------------------------------------------ each gap is reached

  /** Steps that meet every hypothesis lead to a connection whose app has data queued while
      its task has only announced it. */
  lemma DataRaceIsReachable(birth: Birth, lost: byte, next: byte)
    requires SameFamily(birth.key.srcIp, birth.key.dstIp) && birth.stream == [lost, next]
    ensures exists es ::
      && OrderlyRun(EVERYTHING, Start, es)
      && View(Run(Start, es), 1).task.phase == Announced
      && View(Run(Start, es), 1).pend == [TcpData(1, [lost]), TcpData(1, [next])]
  {
    var es, c := EstablishedRun(birth);
    es, c := ByteRun(es, c, lost);
    es, c := ByteRun(es, c, next);
    assert c == View(Run(Start, es), 1);
  }

  /** And to one whose app has closed it in the same gap. */
  lemma CloseRaceIsReachable(birth: Birth)
    requires SameFamily(birth.key.srcIp, birth.key.dstIp)
    ensures exists es :: OrderlyRun(EVERYTHING, Start, es) && LosesClose(View(Run(Start, es), 1))
  {
    var es, c := EstablishedRun(birth);
    var fin := InTurn(c, NoFlags.(fin := true, ack := true), []);
    var fs := SegmentRun(es, c, fin);
    assert LosesClose(Segment(c, fin));
    assert Segment(c, fin) == View(Run(Start, fs), 1);
  }

  /** And to one that its app reset while the remote was dialling, which the remote then
      opens, and which the host has forgotten: such a connection stays open until its own
      task ends (LeftOpenStays). */
  lemma AbandonmentIsReachable(birth: Birth)
    requires SameFamily(birth.key.srcIp, birth.key.dstIp)
    ensures exists es ::
      && OrderlyRun(EVERYTHING, Start, es)
      && LeftOpen(View(Run(Start, es), 1)) && View(Run(Start, es), 1).task.phase == Relaying
  {
    var es, c := DialledRun(birth);
    var rst := InTurn(c, NoFlags.(rst := true), []);
    es := SegmentRun(es, c, rst);
    c := Segment(c, rst);
    assert c.pend == [TcpClose(1)];
    Reached(es, c);
    AbandonedConnectStaysOpen(c);
    es := DispatchRun(es, c);
    es := ActRun(es, Dispatch(c), ConnectOk);
    es := ActRun(es, Act(Dispatch(c), ConnectOk), InsertHandle);
    assert View(Run(Start, es), 1) == Act(Act(Dispatch(c), ConnectOk), InsertHandle);
  }

  // ------------------------------------------------------------- out of sequence and late

  /** The app's FIN is acknowledged where it stands: out of sequence, the acknowledgment
      no longer names the bytes accepted, and its payload is forwarded all the same. */
  lemma FinOutOfSequence(c: Conn, s: TcpPacket)
    requires Good(FINS, c) && c.entry.Some? && c.entry.value.state == Established
    requires !s.flags.rst && s.flags.fin && |s.payload| < TWO32
    ensures var d := Segment(c, s);
      && d.entry.Some? && Forwarded(d) == Forwarded(c) + s.payload
      && (d.entry.value.ackNo == NextAck(d) <==> s.seqNo == c.entry.value.ackNo)
  {
    SegmentAck(c, s);
    SegmentBytes(c, s);
  }

  /** The app's FIN, n numbers behind what has been forwarded. */
  function BareFin(c: Conn, n: nat): TcpPacket
    requires c.birth.Some? && c.entry.Some?
  {
    InTurn(c, NoFlags.(fin := true, ack := true), []).(seqNo := AckOfFirst(c.birth.value.isn, |Forwarded(c)| + n))
  }

  /** Data the app sends after the destination closed is dropped, and then acknowledged by
      the answer to the bare FIN behind it as if it had been accepted. */
  lemma HalfClosedDataIsAcknowledged(c: Conn, data: seq<byte>)
    requires Good(FINS, c) && c.entry.Some? && c.entry.value.state == CloseWait && 0 < |data| < TWO32 - 1
    ensures var isn, k := c.birth.value.isn, |Forwarded(c)|;
      var d := Segment(Segment(c, InTurn(c, NoFlags.(ack := true), data)), BareFin(c, |data|));
      && Forwarded(d) == Forwarded(c) && |d.packets| == |c.packets| + 1
      && d.packets[|c.packets|].ackNo == AckOfFirst(isn, k + |data| + 1)
      && d.packets[|c.packets|].ackNo != AckOfFirst(isn, k + 1)
      && !CoversOnlyAccepted(k, k + |data|, k + |data| + 1)
  {
    LateDataIsIgnored(c, InTurn(c, NoFlags.(ack := true), data));
    LateFinAckExactly(c, BareFin(c, |data|), |Forwarded(c)| + |data|);
  }
}
