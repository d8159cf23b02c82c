/** One connection across the whole tunnel: its host entry, its share of the two message
    streams, its remote task, and the history of what it sent and received. `Formed` ties
    them together; every step of host, remote or task keeps it, whatever the app sends and
    however the remote is scheduled. Four more invariants depend on what a run may rely on. */
module Connection {
  import opened Base
  import opened Messages
  import opened Packets
  import opened Nat
  import opened Host
  import opened Endpoint
  import opened Remote
  import opened Grammar

  /** How a connection began: its 4-tuple, the app's initial sequence number, and the
      byte stream the app will send on it. */
  datatype Birth = Birth(key: TcpKey, isn: u32, stream: seq<byte>)

  datatype Conn = Conn(
    id: u32,
    birth: Option<Birth>,
    entry: Option<TcpConnection>,  // the live NAT entry
    done: seq<HostMessage>,        // host messages the remote has handled
    pend: seq<HostMessage>,        // host messages still in the tunnel
    task: Task,
    handle: bool,
    heard: seq<RemoteMessage>,     // remote messages the host has handled
    wait: seq<RemoteMessage>,      // remote messages still in the tunnel
    packets: seq<TcpPacket>)       // packets emitted to the app

  /** All messages the host ever sent for the connection, and the bytes in them. */
  function Sent(c: Conn): seq<HostMessage> {
    c.done + c.pend
  }

  function Forwarded(c: Conn): seq<byte> {
    AskedBytes(Sent(c))
  }

  function Said(c: Conn): seq<RemoteMessage> {
    c.heard + c.wait
  }

  // ---------------------------------------------------------------------- the steps

  function Opened(c: Conn, birth: Birth): Conn {
    c.(birth := Some(birth),
       entry := Some(TcpConnection(c.id, SynSent, OUR_ISN, WrapAdd(birth.isn, 1))),
       pend := c.pend + [TcpConnect(c.id, birth.key.dstIp, birth.key.dstPort)])
  }

  /** The host handles a segment of the app. */
  function Segment(c: Conn, s: TcpPacket): Conn
    requires c.birth.Some? && c.entry.Some?
  {
    var e := SegmentEffect(c.birth.value.key, c.entry.value, s);
    c.(entry := e.entry, pend := c.pend + e.msgs, packets := c.packets + e.packets)
  }

  /** The host handles the next remote message. */
  function Listen(c: Conn): Conn
    requires c.wait != [] && (c.entry.Some? ==> c.birth.Some?)
  {
    var heard := c.(heard := c.heard + [c.wait[0]], wait := c.wait[1..]);
    if c.entry.None? then heard
    else
      var e := MessageEffect(c.birth.value.key, c.entry.value, c.wait[0]);
      heard.(entry := e.entry, packets := c.packets + e.packets)
  }

  /** The remote handles the next host message. */
  function Dispatch(c: Conn): Conn
    requires c.pend != []
  {
    var (task, handle) := Deliver(c.task, c.handle, c.pend[0]);
    c.(done := c.done + [c.pend[0]], pend := c.pend[1..], task := task, handle := handle)
  }

  /** The remote task takes a step. */
  function Act(c: Conn, ev: TaskEvent): Conn
    requires CanStep(c.task, c.handle, ev)
  {
    var r := Step(c.id, c.task, c.handle, ev);
    c.(task := r.task, handle := r.handle, wait := c.wait + r.responses)
  }

  // ------------------------------------------------------------------- the invariant

  /** What the task has said so far. */
  function SaidBy(phase: Phase): Heard {
    match phase
    case Idle => HNone
    case Connecting => HNone
    case Announced => HOpen
    case Relaying => HOpen
    case Closing(erred) => if erred then HErred else HOpen
    case Closed => HDone
    case Gone => HDone
    case Failed => HFailed
  }

  /** What each state of a live entry says about the messages heard, the messages sent,
      and the packets emitted. */
  predicate Stage(state: ConnectionState, h: Heard, a: Asked, p: Spoken) {
    match state
    case SynSent => h == HNone && a == AOpen && p == PNone
    case Established => h == HOpen && a == AOpen && p == POpen
    case FinWait => h == HOpen && a == AClosed && p == POpen
    case CloseWait => h == HDone && a == AOpen && p == PFinned
    case LastAck => h == HDone && a == AClosed && p == PFinned
  }

  /** How a connection that was removed has ended: the host asked the remote to close it,
      or the remote reported its end and the app was told by a FIN or an RST. */
  predicate Over(h: Heard, a: Asked, p: Spoken) {
    AskedRank(a) >= 2 || (HeardRank(h) >= 2 && (p == PFinned || p == PReset))
  }

  predicate BeforeRelay(phase: Phase) {
    phase == Idle || phase == Connecting || phase == Announced || phase == Failed
  }

  function HeardOf(c: Conn): Heard {
    Hear(HNone, c.heard)
  }

  function DoneOf(c: Conn): Asked {
    Ask(ANone, c.done)
  }

  function SentOf(c: Conn): Asked {
    Ask(DoneOf(c), c.pend)
  }

  predicate Ordered(c: Conn) {
    && Hear(HeardOf(c), c.wait) == SaidBy(c.task.phase)
    && SentOf(c) != ABad
    && Speak(PNone, c.packets) != PBad
    && (c.birth.None? <==> SentOf(c) == ANone)
    && (c.birth.None? ==> c.entry.None? && c.packets == [])
    && (c.entry.Some? ==> Stage(c.entry.value.state, HeardOf(c), SentOf(c), Speak(PNone, c.packets)))
    && (c.birth.Some? && c.entry.None? ==> Over(HeardOf(c), SentOf(c), Speak(PNone, c.packets)))
  }

  /** A task, its handle and its bytes, given what the remote has been asked. */
  predicate HousedAt(task: Task, handle: bool, d: Asked) {
    && (task.phase == Idle <==> d == ANone)
    && (handle ==> task.phase == Relaying || task.phase.Closing? || task.phase == Closed)
    && (task.phase == Relaying && d == AOpen ==> handle)
    && (BeforeRelay(task.phase) ==> task.inbox == [] && task.written == [])
  }

  predicate Housed(c: Conn) {
    HousedAt(c.task, c.handle, DoneOf(c))
  }

  /** Packets are numbered by the sequence space before them, and so is the next one. */
  ghost predicate Counted(c: Conn) {
    && Numbered(c.packets)
    && (c.entry.Some? ==> c.birth.Some? && c.entry.value.seqNo == NextSeq(c.packets))
  }

  /** Nothing is forwarded before the remote has announced the connection. */
  predicate Early(c: Conn) {
    HeardOf(c) == HNone || HeardOf(c) == HFailed ==> Forwarded(c) == []
  }

  /** The destination's bytes: every byte read is announced, and every byte heard while
      the connection lives is emitted. */
  predicate Emitted(c: Conn) {
    && HeardBytes(Said(c)) == c.task.read
    && Payloads(c.packets) <= HeardBytes(c.heard)
    && (c.entry.Some? ==> Payloads(c.packets) == HeardBytes(c.heard))
  }

  /** A packet from the app's peer to the app, with an open window; a reset has all its
      numbers zero. */
  predicate SentTo(key: TcpKey, p: TcpPacket) {
    && p.srcIp == key.dstIp && p.srcPort == key.dstPort && p.dstIp == key.srcIp && p.dstPort == key.srcPort
    && (!p.flags.rst ==> p.window == 65535)
    && (p.flags.rst ==> p.window == 0 && p.seqNo == 0 && p.ackNo == 0)
  }

  /** The remote is asked for the app's destination, and its task's socket leads there. */
  predicate Dialled(c: Conn) {
    c.birth.Some? ==>
      var key := c.birth.value.key;
      && Sent(c) != [] && Sent(c)[0] == TcpConnect(c.id, key.dstIp, key.dstPort)
      && (c.task.phase != Idle ==> c.task.peer == Some(Peer(key.dstIp, key.dstPort)))
  }

  ghost predicate Addressed(c: Conn) {
    c.birth.Some? ==> forall i :: 0 <= i < |c.packets| ==> SentTo(c.birth.value.key, c.packets[i])
  }

  /** What holds of a connection whatever its app sends and its task does. */
  ghost predicate Formed(c: Conn) {
    Ordered(c) && Housed(c) && Counted(c) && Early(c) && Emitted(c) && Dialled(c) && Addressed(c)
  }

  // --------------------------------------------------- what a run may rely on, in parts

  /** What a run may rely on: that no close the host counts on, and no data, is handled
      between the announcement of a connection and the insertion of its handle; that the
      bytes taken from the app continue its stream; that its FIN comes in sequence. */
  datatype Trust = Trust(closes: bool, data: bool, stream: bool, fins: bool)

  const NOTHING := Trust(false, false, false, false)
  const EVERYTHING := Trust(true, true, true, true)

  /** A close handled for a live entry has taken the handle, and no other will come. */
  predicate Closable(c: Conn) {
    c.entry.Some? && AskedRank(DoneOf(c)) >= 2 ==>
      c.task.phase != Connecting && c.task.phase != Announced && !c.handle
  }

  /** What a task has written or queued, against the bytes the remote was handed. */
  predicate Carried(task: Task, handle: bool, bytes: seq<byte>) {
    && (BeforeRelay(task.phase) ==> task.inbox == [] && task.written == [] && bytes == [])
    && Reach(task) <= bytes
    && (task.phase == Relaying && handle ==> Reach(task) == bytes)
  }

  /** The app's bytes are queued in order and written in order. */
  predicate Intact(c: Conn) {
    Carried(c.task, c.handle, AskedBytes(c.done))
  }

  /** The bytes forwarded are the first bytes of the app's stream. */
  predicate Continued(c: Conn) {
    c.birth.Some? ==> Forwarded(c) <= c.birth.value.stream
  }

  /** Whether the app's FIN has been acknowledged. */
  function FinCount(state: ConnectionState): nat {
    if state == FinWait || state == LastAck then 1 else 0
  }

  /** How far acknowledgments may go: everything forwarded, and the FIN once taken. */
  function AckLimit(c: Conn): nat {
    |Forwarded(c)| + if c.entry.None? then 1 else FinCount(c.entry.value.state)
  }

  /** The acknowledgment of the app's SYN and of the given numbers after it. */
  function AckOfFirst(isn: u32, covered: nat): u32 {
    (isn + 1 + covered) % TWO32
  }

  /** The stored acknowledgment when it names exactly what is accepted. */
  function NextAck(c: Conn): u32
    requires c.birth.Some?
  {
    AckOfFirst(c.birth.value.isn, AckLimit(c))
  }

  /** Packets acknowledge ever more of the app's numbers and never more than `most`:
      `covered` says how many, packet by packet. */
  ghost predicate Trail(isn: u32, ps: seq<TcpPacket>, covered: seq<nat>, most: nat) {
    && |covered| <= |ps|
    && (forall i :: 0 <= i < |covered| ==> covered[i] <= most)
    && (forall i, j :: 0 <= i < j < |covered| ==> covered[i] <= covered[j])
    && (forall i :: 0 <= i < |covered| ==> ps[i].flags.rst || ps[i].ackNo == AckOfFirst(isn, covered[i]))
  }

  /** The last packet of a removed connection is left out: it may answer a FIN that the
      app sent after the destination had closed. */
  ghost predicate Followed(c: Conn, covered: seq<nat>) {
    && (if c.entry.Some? then |covered| == |c.packets| else |c.packets| <= |covered| + 1)
    && c.birth.Some? && Trail(c.birth.value.isn, c.packets, covered, AckLimit(c))
  }

  /** Acknowledgments name what is accepted and never anything else. */
  ghost predicate Acked(c: Conn) {
    && (c.entry.Some? && c.birth.Some? ==> c.entry.value.ackNo == NextAck(c))
    && (c.birth.Some? ==> exists covered: seq<nat> :: Followed(c, covered))
  }

  /** What each part of the trust keeps. */
  ghost predicate Kept(t: Trust, c: Conn) {
    && (t.closes ==> Closable(c))
    && (t.data ==> Intact(c))
    && (t.stream ==> Continued(c))
    && (t.fins ==> Acked(c))
  }

  ghost predicate Good(t: Trust, c: Conn) {
    Formed(c) && Kept(t, c)
  }

  // --------------------------------------------------------------------- evolution

  datatype Life = Unborn | Live(state: ConnectionState) | Removed

  function LifeOf(c: Conn): Life {
    if c.birth.None? then Unborn else if c.entry.None? then Removed else Live(c.entry.value.state)
  }

  function LifeRank(l: Life): nat {
    match l
    case Unborn => 0
    case Live(SynSent) => 1
    case Live(Established) => 2
    case Live(FinWait) => 3
    case Live(CloseWait) => 3
    case Live(LastAck) => 4
    case Removed => 5
  }

  /** Unborn, SynSent, Established, then FinWait or CloseWait but not both, LastAck, removed. */
  predicate Onward(l: Life, m: Life) {
    l == m || LifeRank(l) < LifeRank(m)
  }

  /** The task once had a handle and no longer has one. */
  predicate CutOff(c: Conn) {
    !BeforeRelay(c.task.phase) && !c.handle
  }

  /** The host has forgotten a connection that the remote keeps open, and has nothing more
      to say about it. */
  predicate LeftOpen(c: Conn) {
    LifeOf(c) == Removed && c.pend == [] && c.handle
  }

  ghost predicate HistoryGrows(c: Conn, d: Conn) {
    && c.done <= d.done && Sent(c) <= Sent(d)
    && c.heard <= d.heard && Said(c) <= Said(d)
    && c.packets <= d.packets
    && (LifeOf(c) == Removed ==> Sent(d) == Sent(c) && d.packets == c.packets)
  }

  ghost predicate TaskMovesOn(c: Conn, d: Conn) {
    && c.task.written <= d.task.written
    && (CutOff(c) ==> CutOff(d) && Reach(d.task) <= Reach(c.task))
    && (c.task.phase == Failed ==> d.task.phase == Failed)
    && (c.task.phase == Gone ==> d.task.phase == Gone)
    && (LeftOpen(c) ==> LeftOpen(d) || d.task.phase == Gone)
  }

  /** A later view of the same connection: its life only moves forward, every history only
      grows and ends with its removal, and once the handle is gone nothing new can reach
      the socket. */
  ghost predicate Later(c: Conn, d: Conn) {
    && c.id == d.id
    && (c.birth.Some? ==> d.birth == c.birth)
    && Onward(LifeOf(c), LifeOf(d))
    && HistoryGrows(c, d) && TaskMovesOn(c, d)
  }

  lemma LaterTrans(c: Conn, d: Conn, e: Conn)
    requires Later(c, d) && Later(d, e)
    ensures Later(c, e)
  {
  }

  // --------------------------------------------------------- the host opens a connection

  lemma OpenedIsFirst(c: Conn, birth: Birth)
    requires Formed(c) && c.birth.None?
    ensures c.done == [] && c.pend == [] && c.heard == [] && c.wait == [] && c.task.phase == Idle
    ensures Sent(Opened(c, birth)) == [TcpConnect(c.id, birth.key.dstIp, birth.key.dstPort)]
    ensures Forwarded(Opened(c, birth)) == []
  {
    AskAdvances(ANone, c.done);
    AskAdvances(DoneOf(c), c.pend);
    HearAdvances(HNone, c.heard);
    HearAdvances(HeardOf(c), c.wait);
    AskedBytesOf(TcpConnect(c.id, birth.key.dstIp, birth.key.dstPort));
  }

  lemma OpenedGood(t: Trust, c: Conn, birth: Birth)
    requires Good(t, c) && c.birth.None?
    ensures Good(t, Opened(c, birth)) && Later(c, Opened(c, birth))
  {
    OpenedIsFirst(c, birth);
    AskOneMore(DoneOf(c), [], TcpConnect(c.id, birth.key.dstIp, birth.key.dstPort));
    assert Followed(Opened(c, birth), []);
  }

  // ------------------------------------------------------------ the host hears the app

  /** The hypothesis on the app's bytes: what is taken continues its stream. */
  predicate Continues(c: Conn, s: TcpPacket)
    requires c.birth.Some? && c.entry.Some?
  {
    var k := |Forwarded(c)|;
    Takes(c.entry.value, s) ==>
      k + |s.payload| <= |c.birth.value.stream| && s.payload == c.birth.value.stream[k..k + |s.payload|]
  }

  /** The hypothesis on the app's FIN: it stands where the accepted bytes end. */
  predicate FinFits(c: Conn, s: TcpPacket)
    requires c.entry.Some?
  {
    c.entry.value.state == Established && !s.flags.rst && s.flags.fin ==> s.seqNo == c.entry.value.ackNo
  }

  predicate Honest(t: Trust, c: Conn, s: TcpPacket)
    requires c.birth.Some? && c.entry.Some?
  {
    (t.stream ==> Continues(c, s)) && (t.fins ==> FinFits(c, s))
  }

  lemma AskOneMore(a: Asked, ms: seq<HostMessage>, m: HostMessage)
    ensures Ask(a, ms + [m]) == AskOne(Ask(a, ms), m)
  {
    AskMore(a, ms, [m]);
    assert [m][1..] == [];
  }

  lemma HearOneMore(h: Heard, ms: seq<RemoteMessage>, m: RemoteMessage)
    ensures Hear(h, ms + [m]) == HearOne(Hear(h, ms), m)
  {
    HearMore(h, ms, [m]);
    assert [m][1..] == [];
  }

  lemma AskTwo(a: Asked, m: HostMessage, n: HostMessage)
    ensures Ask(a, [m]) == AskOne(a, m) && Ask(a, [m, n]) == AskOne(AskOne(a, m), n)
  {
    assert [m][1..] == [] && [n][1..] == [];
    assert [m, n][1..] == [n];
    assert Ask(a, [m, n]) == Ask(AskOne(a, m), [n]);
  }

  /** The messages and packets a segment leads to fit the stage of its connection. */
  lemma EffectOrdered(key: TcpKey, c: TcpConnection, s: TcpPacket, h: Heard, a: Asked, p: Spoken)
    requires Stage(c.state, h, a, p)
    ensures var e := SegmentEffect(key, c, s);
      && Ask(a, e.msgs) != ABad && Ask(a, e.msgs) != ANone && Speak(p, e.packets) != PBad
      && (e.entry.Some? ==> Stage(e.entry.value.state, h, Ask(a, e.msgs), Speak(p, e.packets)))
      && (e.entry.None? ==> Over(h, Ask(a, e.msgs), Speak(p, e.packets)))
  {
    var e := SegmentEffect(key, c, s);
    if |e.msgs| == 1 {
      AskTwo(a, e.msgs[0], e.msgs[0]);
    } else if |e.msgs| == 2 {
      AskTwo(a, e.msgs[0], e.msgs[1]);
      assert e.msgs == [e.msgs[0], e.msgs[1]];
    }
    if e.packets != [] {
      assert IsBareAck(e.packets[0]) && e.packets[1..] == [];
    }
  }

  lemma SegmentOrdered(c: Conn, s: TcpPacket)
    requires Ordered(c) && c.entry.Some?
    ensures Ordered(Segment(c, s))
  {
    var e := SegmentEffect(c.birth.value.key, c.entry.value, s);
    AskMore(DoneOf(c), c.pend, e.msgs);
    SpeakMore(PNone, c.packets, e.packets);
    EffectOrdered(c.birth.value.key, c.entry.value, s, HeardOf(c), SentOf(c), Speak(PNone, c.packets));
  }

  lemma AskedBytesOf(m: HostMessage)
    ensures AskedBytes([m]) == if m.TcpData? then m.data else []
  {
    assert [m][1..] == [];
  }

  /** Whether the payload of a segment is forwarded. */
  predicate Takes(c: TcpConnection, s: TcpPacket) {
    c.state == Established && !s.flags.rst && s.payload != [] && (s.flags.fin || s.seqNo == c.ackNo)
  }

  lemma EffectBytes(key: TcpKey, c: TcpConnection, s: TcpPacket)
    ensures var e := SegmentEffect(key, c, s);
      && AskedBytes(e.msgs) == (if Takes(c, s) then s.payload else [])
      && Payloads(e.packets) == [] && Space(e.packets) == 0
  {
    var e := SegmentEffect(key, c, s);
    if |e.msgs| == 2 {
      AskedBytesMore([e.msgs[0]], [e.msgs[1]]);
      AskedBytesOf(e.msgs[1]);
    }
    if e.msgs != [] {
      AskedBytesOf(e.msgs[0]);
    }
    if e.packets != [] {
      assert e.packets == [e.packets[0]] && e.packets[1..] == [];
    }
  }

  lemma SegmentBytes(c: Conn, s: TcpPacket)
    requires c.birth.Some? && c.entry.Some?
    ensures Forwarded(Segment(c, s)) == Forwarded(c) + if Takes(c.entry.value, s) then s.payload else []
    ensures Payloads(Segment(c, s).packets) == Payloads(c.packets)
    ensures Space(Segment(c, s).packets) == Space(c.packets)
  {
    var key := c.birth.value.key;
    var e := SegmentEffect(key, c.entry.value, s);
    EffectBytes(key, c.entry.value, s);
    assert Sent(Segment(c, s)) == Sent(c) + e.msgs;
    AskedBytesMore(Sent(c), e.msgs);
    PayloadsMore(c.packets, e.packets);
    SpaceMore(c.packets, e.packets);
  }

  /** Acknowledging p bytes and a FIN lands on the right number exactly when in sequence. */
  lemma FinAckExactly(start: nat, k: nat, ack: u32, seqNo: u32, p: nat)
    requires ack == (start + k) % TWO32 && p < TWO32
    ensures WrapAdd(WrapAdd(seqNo, p), 1) == (start + (k + p) + 1) % TWO32 <==> seqNo == ack
  {
    WrapSum(seqNo, p, 1);
    WrapSum(start + k, 0, p + 1);
    SameAfterWrap(seqNo, ack, p + 1);
  }

  lemma SameAfterWrap(a: u32, b: u32, d: nat)
    ensures (a + d) % TWO32 == (b + d) % TWO32 <==> a == b
  {
  }

  lemma SegmentCounted(c: Conn, s: TcpPacket)
    requires Counted(c) && c.entry.Some?
    ensures Counted(Segment(c, s))
  {
    SegmentBytes(c, s);
    var e := SegmentEffect(c.birth.value.key, c.entry.value, s);
    if e.packets == [] {
      assert c.packets + [] == c.packets;
    } else {
      assert e.packets == [e.packets[0]];
      NumberedMore(c.packets, e.packets[0]);
    }
  }

  /** Whatever the app sends, its connection stays formed. */
  lemma SegmentKeepsFormed(c: Conn, s: TcpPacket)
    requires Formed(c) && c.entry.Some?
    ensures Formed(Segment(c, s))
  {
    SegmentOrdered(c, s);
    SegmentCounted(c, s);
    SegmentBytes(c, s);
    SegmentAddressed(c, s);
  }

  lemma SegmentAddressed(c: Conn, s: TcpPacket)
    requires Dialled(c) && Addressed(c) && c.birth.Some? && c.entry.Some?
    ensures Dialled(Segment(c, s)) && Addressed(Segment(c, s))
  {
    var e := SegmentEffect(c.birth.value.key, c.entry.value, s);
    assert Sent(Segment(c, s)) == Sent(c) + e.msgs;
    assert forall i :: 0 <= i < |e.packets| ==> SentTo(c.birth.value.key, e.packets[i]);
  }

  lemma SegmentContinued(c: Conn, s: TcpPacket)
    requires Continued(c) && c.birth.Some? && c.entry.Some?
    ensures Continued(Segment(c, s)) <==> Continues(c, s)
  {
    SegmentBytes(c, s);
    var k, d := |Forwarded(c)|, Segment(c, s);
    if Continued(d) && Takes(c.entry.value, s) {
      assert s.payload == Forwarded(d)[k..] == c.birth.value.stream[k..k + |s.payload|];
    }
  }

  lemma DataAckFits(start: nat, k: nat, ack: u32, p: nat)
    requires ack == (start + k) % TWO32 && p < TWO32
    ensures WrapAdd(ack, p) == (start + (k + p)) % TWO32
  {
    WrapSum(start + k, 0, p);
  }

  /** The stored acknowledgment after a segment that leaves the entry live. */
  lemma SegmentAck(c: Conn, s: TcpPacket)
    requires c.birth.Some? && c.entry.Some? && c.entry.value.ackNo == NextAck(c)
    requires |s.payload| < TWO32 && Segment(c, s).entry.Some?
    ensures Segment(c, s).entry.value.ackNo == NextAck(Segment(c, s)) <==> FinFits(c, s)
  {
    SegmentBytes(c, s);
    var e := c.entry.value;
    var start, k := c.birth.value.isn + 1, |Forwarded(c)|;
    if e.state == Established {
      if s.flags.fin {
        FinAckExactly(start, k, e.ackNo, s.seqNo, |s.payload|);
      } else if Takes(e, s) {
        DataAckFits(start, k, e.ackNo, |s.payload|);
      }
    }
  }

  /** Packets that answer with the current acknowledgment extend the trail. */
  lemma TrailGrows(isn: u32, ps: seq<TcpPacket>, covered: seq<nat>, more: seq<TcpPacket>, before: nat, most: nat)
    returns (longer: seq<nat>)
    requires Trail(isn, ps, covered, before) && |covered| == |ps| && before <= most
    requires forall i :: 0 <= i < |more| ==> more[i].flags.rst || more[i].ackNo == AckOfFirst(isn, most)
    ensures Trail(isn, ps + more, longer, most) && |longer| == |ps + more|
  {
    longer := covered + seq(|more|, _ => most);
  }

  /** What a segment makes the host answer with. */
  lemma EffectAnswers(key: TcpKey, c: TcpConnection, s: TcpPacket)
    ensures var e := SegmentEffect(key, c, s);
      && |e.packets| <= 1
      && (e.entry.Some? ==> forall i :: 0 <= i < |e.packets| ==> e.packets[i].ackNo == e.entry.value.ackNo)
  {
  }

  lemma SegmentFollowed(c: Conn, s: TcpPacket, covered: seq<nat>)
    requires c.birth.Some? && c.entry.Some? && Followed(c, covered)
    requires Segment(c, s).entry.Some? ==> Segment(c, s).entry.value.ackNo == NextAck(Segment(c, s))
    ensures exists longer: seq<nat> :: Followed(Segment(c, s), longer)
  {
    var d := Segment(c, s);
    var b := c.birth.value;
    var e := SegmentEffect(b.key, c.entry.value, s);
    EffectAnswers(b.key, c.entry.value, s);
    SegmentBytes(c, s);
    if d.entry.Some? {
      var longer := TrailGrows(b.isn, c.packets, covered, e.packets, AckLimit(c), AckLimit(d));
      assert Followed(d, longer);
    } else {
      assert Followed(d, covered);
    }
  }

  lemma SegmentAcked(c: Conn, s: TcpPacket)
    requires Acked(c) && c.birth.Some? && c.entry.Some? && |s.payload| < TWO32
    ensures Acked(Segment(c, s)) <==> FinFits(c, s)
  {
    var covered: seq<nat> :| Followed(c, covered);
    if Segment(c, s).entry.Some? {
      SegmentAck(c, s);
    }
    if FinFits(c, s) {
      SegmentFollowed(c, s, covered);
    }
  }

  /** A segment keeps each part of the invariant if and only if the app is honest in it. */
  lemma SegmentKeepsExactly(t: Trust, c: Conn, s: TcpPacket)
    requires Good(t, c) && c.entry.Some? && |s.payload| < TWO32
    ensures Good(t, Segment(c, s)) <==> Honest(t, c, s)
  {
    SegmentKeepsFormed(c, s);
    if t.stream {
      SegmentContinued(c, s);
    }
    if t.fins {
      SegmentAcked(c, s);
    }
  }

  lemma SegmentAdvances(c: Conn, s: TcpPacket)
    requires Formed(c) && c.entry.Some?
    ensures Later(c, Segment(c, s))
  {
    assert Sent(Segment(c, s)) == Sent(c) + SegmentEffect(c.birth.value.key, c.entry.value, s).msgs;
  }

  // --------------------------------------------------------- the host hears the remote

  /** The packets a message leads to fit the stage of its connection. */
  lemma MessageOrdered(key: TcpKey, c: TcpConnection, m: RemoteMessage, h: Heard, a: Asked, p: Spoken)
    requires Stage(c.state, h, a, p) && HearOne(h, m) != HBad
    ensures var e := MessageEffect(key, c, m);
      && Speak(p, e.packets) != PBad
      && (e.entry.Some? ==> Stage(e.entry.value.state, HearOne(h, m), a, Speak(p, e.packets)))
      && (e.entry.None? ==> Over(HearOne(h, m), a, Speak(p, e.packets)))
  {
    var e := MessageEffect(key, c, m);
    if m.TcpReceived? {
      DataStaysOpen(key, c.seqNo, c.ackNo, m.data);
    } else if e.packets != [] {
      assert e.packets == [e.packets[0]] && e.packets[1..] == [];
      assert Speak(p, e.packets) == SpeakOne(p, e.packets[0]);
    }
  }

  lemma MessageCounted(key: TcpKey, c: TcpConnection, m: RemoteMessage, ps: seq<TcpPacket>)
    requires Numbered(ps) && c.seqNo == NextSeq(ps)
    ensures var e := MessageEffect(key, c, m);
      && Numbered(ps + e.packets)
      && (e.entry.Some? ==> e.entry.value.seqNo == NextSeq(ps + e.packets))
  {
    var e := MessageEffect(key, c, m);
    if m.TcpReceived? {
      DataStaysNumbered(ps, key, c.seqNo, c.ackNo, m.data);
      WrapSum(OUR_ISN + Space(ps), 0, |m.data|);
    } else if e.packets == [] {
      assert ps + [] == ps;
    } else {
      assert e.packets == [e.packets[0]];
      NumberedMore(ps, e.packets[0]);
      SpaceMore(ps, e.packets);
      SpaceOfOne(e.packets[0]);
      WrapSum(OUR_ISN + Space(ps), 0, 1);
    }
  }

  lemma MessageBytes(key: TcpKey, c: TcpConnection, m: RemoteMessage)
    ensures Payloads(MessageEffect(key, c, m).packets) == HeardBytes([m])
  {
    var e := MessageEffect(key, c, m);
    assert [m][1..] == [];
    if m.TcpReceived? {
      ChunksCarryData(key, c.seqNo, c.ackNo, m.data);
    } else if e.packets != [] {
      assert e.packets[1..] == [];
    }
  }

  lemma ListenOrdered(c: Conn)
    requires Ordered(c) && c.wait != []
    ensures Ordered(Listen(c)) && HearOne(HeardOf(c), c.wait[0]) != HBad
    ensures HeardOf(Listen(c)) == HearOne(HeardOf(c), c.wait[0])
  {
    var m := c.wait[0];
    HearOneMore(HNone, c.heard, m);
    HearAdvances(HearOne(HeardOf(c), m), c.wait[1..]);
    HearAdvances(HeardOf(c), c.wait);
    HearAdvances(HNone, c.heard);
    AskAdvances(ANone, c.done);
    AskAdvances(DoneOf(c), c.pend);
    if c.entry.Some? {
      var e := MessageEffect(c.birth.value.key, c.entry.value, m);
      MessageOrdered(c.birth.value.key, c.entry.value, m, HeardOf(c), SentOf(c), Speak(PNone, c.packets));
      SpeakMore(PNone, c.packets, e.packets);
    }
  }

  lemma ListenCounted(c: Conn)
    requires Ordered(c) && Counted(c) && c.wait != []
    ensures Counted(Listen(c))
  {
    if c.entry.Some? {
      ListenOrdered(c);
      MessageCounted(c.birth.value.key, c.entry.value, c.wait[0], c.packets);
    }
  }

  lemma ListenEmitted(c: Conn)
    requires Emitted(c) && c.wait != [] && (c.entry.Some? ==> c.birth.Some?)
    ensures Emitted(Listen(c))
  {
    var m := c.wait[0];
    HeardBytesMore(c.heard, [m]);
    if c.entry.Some? {
      var e := MessageEffect(c.birth.value.key, c.entry.value, m);
      MessageBytes(c.birth.value.key, c.entry.value, m);
      PayloadsMore(c.packets, e.packets);
    }
    assert Said(Listen(c)) == Said(c);
  }

  lemma MessageAnswers(key: TcpKey, c: TcpConnection, m: RemoteMessage)
    ensures var e := MessageEffect(key, c, m);
      && (forall i :: 0 <= i < |e.packets| ==> SentTo(key, e.packets[i]))
      && (forall i :: 0 <= i < |e.packets| ==> e.packets[i].flags.rst || e.packets[i].ackNo == c.ackNo)
      && (if e.entry.Some? then e.entry.value.ackNo == c.ackNo else |e.packets| <= 1)
  {
    if m.TcpReceived? {
      DataPacketsCarryData(key, c.seqNo, c.ackNo, m.data);
    }
  }

  /** No message of the remote changes how far acknowledgments may go. */
  lemma ListenKeepsLimit(c: Conn)
    requires Ordered(c) && c.wait != [] && c.entry.Some?
    ensures Forwarded(Listen(c)) == Forwarded(c) && AckLimit(c) <= AckLimit(Listen(c))
    ensures Listen(c).entry.Some? ==> AckLimit(Listen(c)) == AckLimit(c)
  {
    ListenOrdered(c);
  }

  lemma ListenAddressed(c: Conn)
    requires Dialled(c) && Addressed(c) && c.wait != [] && (c.entry.Some? ==> c.birth.Some?)
    ensures Dialled(Listen(c)) && Addressed(Listen(c))
  {
    if c.entry.Some? {
      MessageAnswers(c.birth.value.key, c.entry.value, c.wait[0]);
    }
  }

  lemma ListenFollowed(c: Conn, covered: seq<nat>)
    requires Ordered(c) && c.wait != [] && c.entry.Some? && c.birth.Some?
    requires c.entry.value.ackNo == NextAck(c) && Followed(c, covered)
    ensures exists longer: seq<nat> :: Followed(Listen(c), longer)
  {
    var d := Listen(c);
    var b := c.birth.value;
    var e := MessageEffect(b.key, c.entry.value, c.wait[0]);
    MessageAnswers(b.key, c.entry.value, c.wait[0]);
    ListenKeepsLimit(c);
    if d.entry.Some? {
      var longer := TrailGrows(b.isn, c.packets, covered, e.packets, AckLimit(c), AckLimit(d));
      assert Followed(d, longer);
    } else {
      assert Followed(d, covered);
    }
  }

  lemma ListenAcked(c: Conn)
    requires Ordered(c) && Acked(c) && c.wait != [] && (c.entry.Some? ==> c.birth.Some?)
    ensures Acked(Listen(c))
  {
    if c.birth.Some? {
      var covered: seq<nat> :| Followed(c, covered);
      if c.entry.Some? {
        ListenKeepsLimit(c);
        MessageAnswers(c.birth.value.key, c.entry.value, c.wait[0]);
        ListenFollowed(c, covered);
      } else {
        assert Followed(Listen(c), covered);
      }
    }
  }

  lemma ListenOnward(c: Conn)
    requires Ordered(c) && c.wait != []
    ensures Onward(LifeOf(c), LifeOf(Listen(c)))
  {
    ListenOrdered(c);
  }

  lemma ListenAdvances(c: Conn)
    requires Ordered(c) && c.wait != []
    ensures Later(c, Listen(c))
  {
    ListenOnward(c);
    assert Said(Listen(c)) == Said(c);
  }

  lemma ListenKeepsFormed(c: Conn)
    requires Formed(c) && c.wait != []
    ensures Formed(Listen(c))
  {
    ListenOrdered(c);
    ListenCounted(c);
    ListenEmitted(c);
    ListenAddressed(c);
  }

  /** Every message of the remote keeps the invariant, whatever the run relies on. */
  lemma ListenKeepsGood(t: Trust, c: Conn)
    requires Good(t, c) && c.wait != []
    ensures Good(t, Listen(c))
  {
    ListenKeepsFormed(c);
    if t.fins {
      ListenAcked(c);
    }
  }

  // ------------------------------------------------------- the remote hears the host

  /** A close that the host still counts on is handled in the gap between the announcement
      of a connection and the insertion of its handle. */
  predicate LosesClose(c: Conn) {
    c.task.phase == Announced && c.pend != [] && c.pend[0].TcpClose? && c.entry.Some?
  }

  /** Data is handled in the same gap. */
  predicate LosesData(c: Conn) {
    c.task.phase == Announced && c.pend != [] && c.pend[0].TcpData? && c.pend[0].data != []
  }

  predicate Loses(t: Trust, c: Conn) {
    (t.closes && LosesClose(c)) || (t.data && LosesData(c))
  }

  lemma DeliverHoused(task: Task, handle: bool, m: HostMessage, d: Asked)
    requires HousedAt(task, handle, d) && AskOne(d, m) != ABad
    ensures var (t, h) := Deliver(task, handle, m);
      HousedAt(t, h, AskOne(d, m)) && SaidBy(t.phase) == SaidBy(task.phase)
    ensures m.TcpConnect? <==> task.phase == Idle
  {
  }

  lemma DeliverCarried(task: Task, handle: bool, m: HostMessage, bytes: seq<byte>)
    requires Carried(task, handle, bytes)
    requires handle ==> !BeforeRelay(task.phase)
    requires m.TcpConnect? ==> task.phase == Idle
    requires m.TcpData? && BeforeRelay(task.phase) && task.phase != Announced ==> m.data == []
    ensures var (t, h) := Deliver(task, handle, m);
      Carried(t, h, bytes + AskedBytes([m])) <==> !(task.phase == Announced && m.TcpData? && m.data != [])
  {
    AskedBytesOf(m);
    if m.TcpData? && handle {
      ConcatAppend(task.inbox, m.data);
      assert task.written + (Concat(task.inbox) + m.data) == (task.written + Concat(task.inbox)) + m.data;
    }
  }

  lemma DispatchOrdered(c: Conn)
    requires Ordered(c) && c.pend != []
    ensures DoneOf(Dispatch(c)) == AskOne(DoneOf(c), c.pend[0]) && AskOne(DoneOf(c), c.pend[0]) != ABad
    ensures SentOf(Dispatch(c)) == SentOf(c) && Sent(Dispatch(c)) == Sent(c)
    ensures c.pend[0].TcpClose? ==> AskedRank(SentOf(c)) >= 2
  {
    var m := c.pend[0];
    AskOneMore(ANone, c.done, m);
    AskAdvances(AskOne(DoneOf(c), m), c.pend[1..]);
    assert Sent(Dispatch(c)) == Sent(c);
  }

  /** A task that has said nothing, or only that it failed, has been sent no bytes. */
  lemma SilentTaskHasNoBytes(c: Conn)
    requires Ordered(c) && Early(c) && BeforeRelay(c.task.phase) && c.task.phase != Announced
    ensures Forwarded(c) == [] && (c.entry.Some? ==> AskedRank(SentOf(c)) < 2)
  {
    HearAdvances(HNone, c.heard);
    HearAdvances(HeardOf(c), c.wait);
  }

  lemma PendBytes(c: Conn)
    requires c.pend != []
    ensures AskedBytes(Dispatch(c).done) == AskedBytes(c.done) + AskedBytes([c.pend[0]])
    ensures Forwarded(c) == [] ==> AskedBytes([c.pend[0]]) == []
  {
    var m, rest := c.pend[0], c.pend[1..];
    AskedBytesMore(c.done, [m]);
    AskedBytesMore(c.done, c.pend);
    AskedBytesMore([m], rest);
    assert c.pend == [m] + rest;
  }

  lemma DispatchHoused(c: Conn)
    requires Ordered(c) && Housed(c) && c.pend != []
    ensures Housed(Dispatch(c)) && SaidBy(Dispatch(c).task.phase) == SaidBy(c.task.phase)
    ensures c.pend[0].TcpConnect? <==> c.task.phase == Idle
    ensures Ordered(Dispatch(c))
  {
    DispatchOrdered(c);
    DeliverHoused(c.task, c.handle, c.pend[0], DoneOf(c));
  }

  lemma DispatchEmitted(c: Conn)
    requires Ordered(c) && Housed(c) && Emitted(c) && c.pend != []
    ensures Emitted(Dispatch(c))
  {
    DispatchHoused(c);
    if c.pend[0].TcpConnect? {
      HearAdvances(HeardOf(c), c.wait);
      HearAdvances(HNone, c.heard);
      assert Said(c) == [];
    }
  }

  lemma DispatchDialled(c: Conn)
    requires Ordered(c) && Housed(c) && Dialled(c) && c.pend != []
    ensures Dialled(Dispatch(c))
  {
    DispatchOrdered(c);
    DispatchHoused(c);
    AskAdvances(ANone, c.done);
    if c.pend[0].TcpConnect? {
      assert c.done == [] && Sent(c)[0] == c.pend[0];
    }
  }

  /** Whatever the remote handles, and whenever, the connection stays formed. */
  lemma DispatchKeepsFormed(c: Conn)
    requires Formed(c) && c.pend != []
    ensures Formed(Dispatch(c))
  {
    DispatchOrdered(c);
    DispatchHoused(c);
    DispatchEmitted(c);
    DispatchDialled(c);
  }

  lemma DispatchClosable(c: Conn)
    requires Ordered(c) && Housed(c) && Early(c) && Closable(c) && c.pend != []
    ensures Closable(Dispatch(c)) <==> !LosesClose(c)
  {
    DispatchOrdered(c);
    DispatchHoused(c);
    if c.task.phase == Connecting {
      SilentTaskHasNoBytes(c);
    }
  }

  lemma DispatchIntact(c: Conn)
    requires Ordered(c) && Housed(c) && Early(c) && Intact(c) && c.pend != []
    ensures Intact(Dispatch(c)) <==> !LosesData(c)
  {
    DispatchHoused(c);
    PendBytes(c);
    AskedBytesOf(c.pend[0]);
    if BeforeRelay(c.task.phase) && c.task.phase != Announced {
      SilentTaskHasNoBytes(c);
    }
    DeliverCarried(c.task, c.handle, c.pend[0], AskedBytes(c.done));
  }

  lemma DispatchAcked(c: Conn)
    requires Ordered(c) && Acked(c) && c.pend != []
    ensures Acked(Dispatch(c))
  {
    DispatchOrdered(c);
    if c.birth.Some? {
      var covered: seq<nat> :| Followed(c, covered);
      assert Followed(Dispatch(c), covered);
    }
  }

  /** The remote's handling of a host message keeps each part of the invariant if and only
      if the message is not lost to it in the gap between announcement and handle. */
  lemma DispatchKeepsExactly(t: Trust, c: Conn)
    requires Good(t, c) && c.pend != []
    ensures Good(t, Dispatch(c)) <==> !Loses(t, c)
  {
    DispatchKeepsFormed(c);
    DispatchOrdered(c);
    if t.closes {
      DispatchClosable(c);
    }
    if t.data {
      DispatchIntact(c);
    }
    if t.fins {
      DispatchAcked(c);
    }
  }

  lemma DispatchAdvances(c: Conn)
    requires Formed(c) && c.pend != []
    ensures Later(c, Dispatch(c))
  {
    DispatchOrdered(c);
    DispatchHoused(c);
  }

  // ---------------------------------------------------------------- the remote task

  lemma StepSaid(id: u32, task: Task, handle: bool, ev: TaskEvent)
    requires CanStep(task, handle, ev)
    ensures var r := Step(id, task, handle, ev);
      Hear(SaidBy(task.phase), r.responses) == SaidBy(r.task.phase)
  {
    var r := Step(id, task, handle, ev);
    if r.responses != [] {
      assert r.responses[1..] == [];
      assert Hear(SaidBy(task.phase), r.responses) == HearOne(SaidBy(task.phase), r.responses[0]);
    }
  }

  lemma StepHoused(id: u32, task: Task, handle: bool, ev: TaskEvent, d: Asked)
    requires CanStep(task, handle, ev) && HousedAt(task, handle, d)
    ensures var r := Step(id, task, handle, ev);
      && HousedAt(r.task, r.handle, d)
      && (!BeforeRelay(task.phase) && !handle ==> !BeforeRelay(r.task.phase) && !r.handle)
      && (handle ==> r.handle || r.task.phase == Gone)
  {
  }

  lemma StepCarried(id: u32, task: Task, handle: bool, ev: TaskEvent, bytes: seq<byte>)
    requires CanStep(task, handle, ev) && Carried(task, handle, bytes)
    ensures var r := Step(id, task, handle, ev);
      && Carried(r.task, r.handle, bytes)
      && task.written <= r.task.written && Reach(r.task) <= Reach(task)
  {
    StepKeepsReach(id, task, handle, ev);
  }

  lemma ActOrdered(c: Conn, ev: TaskEvent)
    requires Ordered(c) && CanStep(c.task, c.handle, ev)
    ensures Ordered(Act(c, ev))
  {
    var r := Step(c.id, c.task, c.handle, ev);
    HearMore(HeardOf(c), c.wait, r.responses);
    StepSaid(c.id, c.task, c.handle, ev);
  }

  lemma ActHoused(c: Conn, ev: TaskEvent)
    requires Housed(c) && CanStep(c.task, c.handle, ev)
    ensures Housed(Act(c, ev)) && (CutOff(c) ==> CutOff(Act(c, ev)))
    ensures c.handle ==> Act(c, ev).handle || Act(c, ev).task.phase == Gone
  {
    StepHoused(c.id, c.task, c.handle, ev, DoneOf(c));
  }

  lemma ActReaches(c: Conn, ev: TaskEvent)
    requires Housed(c) && CanStep(c.task, c.handle, ev)
    ensures c.task.written <= Act(c, ev).task.written && Reach(Act(c, ev).task) <= Reach(c.task)
  {
    StepKeepsReach(c.id, c.task, c.handle, ev);
  }

  lemma ActIntact(c: Conn, ev: TaskEvent)
    requires Intact(c) && CanStep(c.task, c.handle, ev)
    ensures Intact(Act(c, ev))
  {
    StepCarried(c.id, c.task, c.handle, ev, AskedBytes(c.done));
  }

  lemma ActEmitted(c: Conn, ev: TaskEvent)
    requires Emitted(c) && CanStep(c.task, c.handle, ev)
    ensures Emitted(Act(c, ev))
  {
    var r := Step(c.id, c.task, c.handle, ev);
    assert Said(Act(c, ev)) == Said(c) + r.responses;
    HeardBytesMore(Said(c), r.responses);
    if r.responses != [] {
      assert r.responses[1..] == [];
    }
  }

  lemma ActKeepsFormed(c: Conn, ev: TaskEvent)
    requires Formed(c) && CanStep(c.task, c.handle, ev)
    ensures Formed(Act(c, ev))
  {
    ActOrdered(c, ev);
    ActHoused(c, ev);
    ActEmitted(c, ev);
  }

  lemma ActAcked(c: Conn, ev: TaskEvent)
    requires Acked(c) && CanStep(c.task, c.handle, ev)
    ensures Acked(Act(c, ev))
  {
    if c.birth.Some? {
      var covered: seq<nat> :| Followed(c, covered);
      assert Followed(Act(c, ev), covered);
    }
  }

  /** Every step of a task keeps the invariant, whatever the run relies on. */
  lemma ActKeepsGood(t: Trust, c: Conn, ev: TaskEvent)
    requires Good(t, c) && CanStep(c.task, c.handle, ev)
    ensures Good(t, Act(c, ev))
  {
    ActKeepsFormed(c, ev);
    if t.data {
      ActIntact(c, ev);
    }
    if t.fins {
      ActAcked(c, ev);
    }
  }

  lemma ActGrows(c: Conn, ev: TaskEvent)
    requires CanStep(c.task, c.handle, ev)
    ensures HistoryGrows(c, Act(c, ev))
  {
    assert Said(Act(c, ev)) == Said(c) + Step(c.id, c.task, c.handle, ev).responses;
  }

  lemma ActAdvances(c: Conn, ev: TaskEvent)
    requires Housed(c) && CanStep(c.task, c.handle, ev)
    ensures Later(c, Act(c, ev))
  {
    ActGrows(c, ev);
    ActHoused(c, ev);
    ActReaches(c, ev);
  }
}
