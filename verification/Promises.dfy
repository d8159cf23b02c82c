/** What the connection invariant promises, in the terms of the app, the destination and
    the operator of the tunnel. */
module Promises {
  import opened Base
  import opened Messages
  import opened Packets
  import opened Nat
  import opened Host
  import opened Endpoint
  import opened Remote
  import opened Grammar
  import opened Connection

  // ------------------------------------------------------------------ nothing is lost

  predicate CloseOnItsWay(c: Conn) {
    c.task.phase.Closing? || exists i :: 0 <= i < |c.wait| && (c.wait[i].TcpClosed? || c.wait[i].TcpError?)
  }

  /** The remote event a live entry still waits for is pending somewhere. */
  predicate Awaited(c: Conn) {
    c.entry.Some? ==>
      match c.entry.value.state
      case SynSent =>
        || (c.task.phase == Idle && exists i :: 0 <= i < |c.pend| && c.pend[i].TcpConnect?)
        || c.task.phase == Connecting
        || (c.wait != [] && (c.wait[0].TcpConnected? || c.wait[0].TcpError?))
      case Established => c.handle || c.task.phase == Announced || CloseOnItsWay(c)
      case FinWait =>
        || (exists i :: 0 <= i < |c.pend| && c.pend[i].TcpClose?)
        || (c.task.phase == Relaying && !c.handle)
        || CloseOnItsWay(c)
      case _ => true  // only the app's answer is missing
  }

  lemma {:induction false} HearingEndsWithNotice(h: Heard, ms: seq<RemoteMessage>)
    requires HeardRank(h) < 2 && 2 <= HeardRank(Hear(h, ms)) < 4
    ensures exists i :: 0 <= i < |ms| && (ms[i].TcpClosed? || ms[i].TcpError?)
    decreases |ms|
  {
    if !ms[0].TcpClosed? && !ms[0].TcpError? {
      HearAdvances(HearOne(h, ms[0]), ms[1..]);
      HearingEndsWithNotice(HearOne(h, ms[0]), ms[1..]);
      var i :| 0 <= i < |ms[1..]| && (ms[1..][i].TcpClosed? || ms[1..][i].TcpError?);
      assert ms[i + 1] == ms[1..][i];
    }
  }

  lemma {:induction false} AskingEndsWithClose(a: Asked, ms: seq<HostMessage>)
    requires AskedRank(a) < 2 && 2 <= AskedRank(Ask(a, ms)) < 4
    ensures exists i :: 0 <= i < |ms| && ms[i].TcpClose?
    decreases |ms|
  {
    if !ms[0].TcpClose? {
      AskAdvances(AskOne(a, ms[0]), ms[1..]);
      AskingEndsWithClose(AskOne(a, ms[0]), ms[1..]);
      var i :| 0 <= i < |ms[1..]| && ms[1..][i].TcpClose?;
      assert ms[i + 1] == ms[1..][i];
    }
  }

  /** In SynSent nothing has been heard: the connect request is queued, under way, or
      answered by the next message. */
  lemma SynSentIsAwaited(c: Conn)
    requires Ordered(c) && Housed(c) && c.entry.Some? && c.entry.value.state == SynSent
    ensures Awaited(c)
  {
    if c.task.phase == Idle {
      AskAdvances(ANone, c.done);
      if c.pend != [] {
        AskAdvances(AskOne(DoneOf(c), c.pend[0]), c.pend[1..]);
      }
    } else if c.task.phase != Connecting {
      HearAdvances(HearOne(HNone, c.wait[0]), c.wait[1..]);
    }
  }

  lemma OpenIsAwaited(c: Conn)
    requires Ordered(c) && Housed(c) && Closable(c) && c.entry.Some?
    requires c.entry.value.state == Established || c.entry.value.state == FinWait
    ensures Awaited(c)
  {
    HearAdvances(HeardOf(c), c.wait);
    AskAdvances(DoneOf(c), c.pend);
    var s := SaidBy(c.task.phase);
    if s == HDone || s == HErred {
      HearingEndsWithNotice(HeardOf(c), c.wait);
    } else if c.entry.value.state == FinWait && DoneOf(c) == AOpen {
      AskingEndsWithClose(AOpen, c.pend);
    }
  }

  /** Each live entry's next remote event is pending. Of all a run may rely on, only that
      closes are not lost is needed. */
  lemma EveryEntryIsAwaited(c: Conn)
    requires Formed(c) && Closable(c)
    ensures Awaited(c)
  {
    if c.entry.Some? {
      if c.entry.value.state == SynSent {
        SynSentIsAwaited(c);
      } else if c.entry.value.state == Established || c.entry.value.state == FinWait {
        OpenIsAwaited(c);
      }
    }
  }

  lemma OneCloseIsLast(a: Asked, ms: seq<HostMessage>)
    requires ms != [] && ms[0].TcpClose? && Ask(a, ms) == AClosed
    ensures ms[1..] == []
  {
    var rest := ms[1..];
    AskAdvances(AskOne(a, ms[0]), rest);
    if rest != [] {
      AskAdvances(AskOne(AClosed, rest[0]), rest[1..]);
    }
  }

  lemma {:induction false} HeardStaysOpen(ms: seq<RemoteMessage>)
    requires Hear(HOpen, ms) == HOpen
    ensures forall i :: 0 <= i < |ms| ==> ms[i].TcpReceived?
    decreases |ms|
  {
    if ms != [] {
      HearAdvances(HearOne(HOpen, ms[0]), ms[1..]);
      HeardStaysOpen(ms[1..]);
      assert forall i :: 0 < i < |ms| ==> ms[i] == ms[1..][i - 1];
    }
  }

  /** When a close is lost in the gap, its entry is in FinWait, it is the last message
      queued, and only data is on its way back. */
  lemma LostCloseIsLast(c: Conn)
    requires Ordered(c) && LosesClose(c)
    ensures c.entry.value.state == FinWait && c.pend[1..] == []
    ensures forall i :: 0 <= i < |c.wait| ==> c.wait[i].TcpReceived?
  {
    DispatchOrdered(c);
    HearAdvances(HNone, c.heard);
    HearAdvances(HeardOf(c), c.wait);
    OneCloseIsLast(DoneOf(c), c.pend);
    HeardStaysOpen(c.wait);
  }

  /** Nothing is then pending that would end the wait, nor is it once the handle is there. */
  lemma LostCloseStrands(c: Conn)
    requires Ordered(c) && LosesClose(c)
    ensures c.entry.value.state == FinWait && Dispatch(c).pend == []
    ensures !Awaited(Dispatch(c)) && !Awaited(Act(Dispatch(c), InsertHandle))
  {
    LostCloseIsLast(c);
    assert Act(Dispatch(c), InsertHandle).wait == c.wait + [];
  }

  /** Handling a host message leaves the next event pending if and only if the message is
      not a close that is lost in the gap. */
  lemma DispatchAwaitsExactly(c: Conn)
    requires Formed(c) && Closable(c) && c.pend != []
    ensures Awaited(Dispatch(c)) <==> !LosesClose(c)
  {
    if LosesClose(c) {
      LostCloseStrands(c);
    } else {
      DispatchKeepsFormed(c);
      DispatchClosable(c);
      EveryEntryIsAwaited(Dispatch(c));
    }
  }

  /** A removed connection is over on both sides: the host sent a TcpClose for it, or it
      heard of the end and told the app. */
  predicate EndIsShared(c: Conn) {
    c.birth.Some? && c.entry.None? ==>
      || (exists i :: 0 <= i < |Sent(c)| && Sent(c)[i].TcpClose?)
      || ((exists i :: 0 <= i < |c.heard| && (c.heard[i].TcpClosed? || c.heard[i].TcpError?))
          && (exists i :: 0 <= i < |c.packets| && (IsFin(c.packets[i]) || IsRst(c.packets[i]))))
  }

  lemma EveryEndIsShared(c: Conn)
    requires Ordered(c)
    ensures EndIsShared(c)
  {
    if c.birth.Some? && c.entry.None? {
      AskMore(ANone, c.done, c.pend);
      if AskedRank(SentOf(c)) >= 2 {
        AskingEndsWithClose(ANone, Sent(c));
      } else {
        HearAdvances(HeardOf(c), c.wait);
        HearingEndsWithNotice(HNone, c.heard);
        SpokenMeansShape(c.packets);
        assert Speak(PNone, c.packets) == PReset ==> IsRst(c.packets[|c.packets| - 1]);
      }
    }
  }

  // ------------------------------------------------------------------ what a close does

  /** The remote is done with a connection for good: its handle is gone, or it never
      came about. */
  predicate Ended(c: Conn) {
    CutOff(c) || c.task.phase == Failed
  }

  /** A task that has no handle yet to be taken away. */
  predicate Deaf(phase: Phase) {
    phase == Connecting || phase == Announced
  }

  /** A close that the remote handles ends the connection there if and only if its task
      has gone beyond connecting and announcing. */
  lemma CloseEndsExactly(c: Conn)
    requires Formed(c) && c.pend != [] && c.pend[0].TcpClose?
    ensures Ended(Dispatch(c)) <==> !Deaf(c.task.phase)
  {
    DispatchOrdered(c);
    DispatchHoused(c);
  }

  /** Every close handled so far has taken effect. */
  predicate Settled(c: Conn) {
    AskedRank(DoneOf(c)) >= 2 ==> Ended(c)
  }

  lemma DispatchSettles(c: Conn)
    requires Formed(c) && Settled(c) && c.pend != []
    requires c.pend[0].TcpClose? ==> !Deaf(c.task.phase)
    ensures Settled(Dispatch(c))
  {
    DispatchOrdered(c);
    DispatchAdvances(c);
    if c.pend[0].TcpClose? {
      CloseEndsExactly(c);
    }
  }

  /** A close that was sent is still queued, unless the remote has handled one. */
  lemma CloseIsQueuedOrHandled(c: Conn)
    requires Ordered(c) && exists i :: 0 <= i < |Sent(c)| && Sent(c)[i].TcpClose?
    ensures AskedRank(DoneOf(c)) >= 2 || exists i :: 0 <= i < |c.pend| && c.pend[i].TcpClose?
  {
    AskMore(ANone, c.done, c.pend);
    AskedMeansShape(Sent(c));
    if AskedRank(DoneOf(c)) < 2 {
      AskingEndsWithClose(DoneOf(c), c.pend);
    }
  }

  /** When the app gives up and the task is still deaf to the close that says so, the
      remote goes on to a connection that it keeps open, with nothing to come that would
      close it. */
  lemma AbandonedConnectStaysOpen(c: Conn)
    requires Formed(c) && c.birth.Some? && c.entry.None? && Deaf(c.task.phase)
    requires |c.pend| == 1 && c.pend[0].TcpClose?
    ensures var d := Dispatch(c);
      var e := if c.task.phase == Connecting then Act(d, ConnectOk) else d;
      LeftOpen(Act(e, InsertHandle)) && Act(e, InsertHandle).task.phase == Relaying
  {
  }

  // ------------------------------------------------------- messages meet their stages

  /** TcpConnected reaches a live entry only in SynSent, data and TcpClosed only in
      Established or FinWait, TcpError in one of these three: the clean-up arm for an
      unexpected TcpClosed is never taken. */
  lemma MessagesMeetTheirStages(c: Conn)
    requires Ordered(c) && c.wait != [] && c.entry.Some?
    ensures var state := c.entry.value.state;
      match c.wait[0]
      case TcpConnected(_) => state == SynSent
      case TcpReceived(_, _) => state == Established || state == FinWait
      case TcpClosed(_) => state == Established || state == FinWait
      case TcpError(_, _) => state == SynSent || state == Established || state == FinWait
      case _ => false
  {
    ListenOrdered(c);
  }

  // --------------------------------------------------------------- the app's stream

  /** Bytes written to the destination are a prefix of the bytes forwarded if no data is
      lost in the gap, and these are a prefix of the app's stream if the app continues it. */
  lemma AppBytesInOrder(c: Conn)
    requires Formed(c)
    ensures Intact(c) ==> c.task.written <= Forwarded(c)
    ensures Continued(c) && c.birth.Some? ==> Forwarded(c) <= c.birth.value.stream
    ensures c.birth.None? ==> Forwarded(c) == []
  {
    AskedBytesMore(c.done, c.pend);
    if c.birth.None? {
      AskAdvances(ANone, c.done);
      AskAdvances(DoneOf(c), c.pend);
    }
  }

  /** A segment carries the bytes of the app's stream from position i on, at the sequence
      number of that position, less than one wrap away from what has been accepted so far. */
  predicate Carries(c: Conn, s: TcpPacket, i: nat)
    requires c.birth.Some?
  {
    var b, k := c.birth.value, |Forwarded(c)|;
    && i + |s.payload| <= |b.stream| && s.payload == b.stream[i..i + |s.payload|]
    && s.seqNo == (b.isn + 1 + i) % TWO32
    && -TWO32 < i - k < TWO32
  }

  /** A position is in sequence exactly when the acknowledgment number says so. */
  lemma InSequence(c: Conn, s: TcpPacket, i: nat)
    requires c.birth.Some? && c.entry.Some? && c.entry.value.state == Established
    requires c.entry.value.ackNo == NextAck(c) && Carries(c, s, i)
    ensures s.seqNo == c.entry.value.ackNo <==> i == |Forwarded(c)|
  {
    SamePosition(c.birth.value.isn + 1, i, |Forwarded(c)|);
  }

  /** Positions less than one wrap apart are told apart by their sequence numbers. */
  lemma SamePosition(start: nat, i: nat, k: nat)
    requires -TWO32 < i - k < TWO32
    ensures (start + i) % TWO32 == (start + k) % TWO32 <==> i == k
  {
    if (start + i) % TWO32 == (start + k) % TWO32 {
      assert (i - k) % TWO32 == 0;
    }
  }

  lemma NextBytes(c: Conn, s: TcpPacket)
    requires Continued(c) && c.birth.Some? && Carries(c, s, |Forwarded(c)|)
    ensures Forwarded(c) + s.payload == c.birth.value.stream[..|Forwarded(c)| + |s.payload|]
  {
  }

  /** What the acknowledgments and the stream rest on. */
  const TRUTH := Trust(false, false, true, true)

  lemma CarriedIsHonest(c: Conn, s: TcpPacket, i: nat)
    requires Good(TRUTH, c) && c.entry.Some? && c.entry.value.state == Established && Carries(c, s, i)
    requires s.flags.fin ==> i == |Forwarded(c)|
    ensures Honest(TRUTH, c, s)
  {
    InSequence(c, s, i);
  }

  /** A segment is forwarded if and only if it starts where the accepted bytes end. */
  lemma ForwardsExactlyTheNext(c: Conn, s: TcpPacket, i: nat)
    requires Good(TRUTH, c) && c.entry.Some? && c.entry.value.state == Established
    requires !s.flags.rst && !s.flags.fin && s.payload != [] && Carries(c, s, i)
    ensures i == |Forwarded(c)| ==> Forwarded(Segment(c, s)) == c.birth.value.stream[..i + |s.payload|]
    ensures i != |Forwarded(c)| ==> Segment(c, s).entry == c.entry && Forwarded(Segment(c, s)) == Forwarded(c)
  {
    InSequence(c, s, i);
    SegmentBytes(c, s);
    if i == |Forwarded(c)| {
      NextBytes(c, s);
    }
  }

  /** Exactly-once, in-order acceptance: in Established, a segment of any position is
      forwarded if and only if it starts where the accepted bytes end; otherwise it
      changes nothing. Either way one bare ACK answers it, which names the end of what
      is accepted. */
  lemma AcceptsExactlyTheNext(c: Conn, s: TcpPacket, i: nat)
    requires Good(TRUTH, c) && c.entry.Some? && c.entry.value.state == Established
    requires !s.flags.rst && !s.flags.fin && 0 < |s.payload| < TWO32 && Carries(c, s, i)
    ensures var d := Segment(c, s);
      && Good(TRUTH, d) && d.entry.Some? && d.entry.value.state == Established
      && (i == |Forwarded(c)| ==> Forwarded(d) == c.birth.value.stream[..i + |s.payload|])
      && (i != |Forwarded(c)| ==> d.entry == c.entry && Forwarded(d) == Forwarded(c))
      && d.entry.value.ackNo == NextAck(d)
      && d.packets == c.packets + [AckPacket(c.birth.value.key, NextSeq(c.packets), NextAck(d))]
  {
    CarriedIsHonest(c, s, i);
    SegmentKeepsExactly(TRUTH, c, s);
    ForwardsExactlyTheNext(c, s, i);
  }

  /** A FIN in sequence forwards its payload, asks the remote to close, and is answered by
      one bare ACK past it. */
  lemma FinAccepted(c: Conn, s: TcpPacket)
    requires Good(TRUTH, c) && c.entry.Some? && c.entry.value.state == Established
    requires !s.flags.rst && s.flags.fin && |s.payload| < TWO32 && Carries(c, s, |Forwarded(c)|)
    ensures var d := Segment(c, s);
      && Good(TRUTH, d) && d.entry.Some? && d.entry.value.state == FinWait
      && Forwarded(d) == c.birth.value.stream[..|Forwarded(c)| + |s.payload|]
      && d.entry.value.ackNo == NextAck(d)
      && d.packets == c.packets + [AckPacket(c.birth.value.key, NextSeq(c.packets), NextAck(d))]
      && Sent(d) != [] && Sent(d)[|Sent(d)| - 1] == TcpClose(c.entry.value.id)
  {
    CarriedIsHonest(c, s, |Forwarded(c)|);
    SegmentKeepsExactly(TRUTH, c, s);
    SegmentBytes(c, s);
    NextBytes(c, s);
  }

  /** An app that plays by its own stream: a data segment carries some part of it, and a
      FIN comes in sequence. Duplicates, retransmissions and reordering are all allowed. */
  ghost predicate Truthful(c: Conn, s: TcpPacket)
    requires c.birth.Some? && c.entry.Some?
  {
    c.entry.value.state == Established && !s.flags.rst ==>
      && (s.flags.fin ==> Carries(c, s, |Forwarded(c)|))
      && (!s.flags.fin && s.payload != [] ==> exists i: nat :: Carries(c, s, i))
  }

  /** What is forwarded of such an app are the first bytes of its stream, and the stored
      acknowledgment names the byte after them, or the FIN there. */
  predicate FirstBytesAccepted(c: Conn) {
    c.birth.Some? ==>
      var b, k := c.birth.value, |Forwarded(c)|;
      && k <= |b.stream| && Forwarded(c) == b.stream[..k]
      && (c.entry.Some? ==> c.entry.value.ackNo == (b.isn + 1 + k + FinCount(c.entry.value.state)) % TWO32)
  }

  lemma TruthAcceptsFirstBytes(c: Conn)
    requires Good(TRUTH, c)
    ensures FirstBytesAccepted(c)
  {
  }

  /** Such an app meets both hypotheses on segments. */
  lemma TruthfulIsHonest(c: Conn, s: TcpPacket)
    requires Good(TRUTH, c) && c.entry.Some? && Truthful(c, s)
    ensures Honest(TRUTH, c, s)
  {
    if c.entry.value.state == Established && !s.flags.rst {
      if s.flags.fin {
        CarriedIsHonest(c, s, |Forwarded(c)|);
      } else if s.payload != [] {
        var i: nat :| Carries(c, s, i);
        CarriedIsHonest(c, s, i);
      }
    }
  }

  // --------------------------------------------------- which event leads to which state

  /** Where a segment that opens nothing leads: a reset removes the connection from any
      state; a FIN leads from Established to FinWait and removes it from CloseWait; an ACK
      removes it from LastAck; nothing else moves it. */
  lemma SegmentLeads(c: Conn, s: TcpPacket)
    requires c.birth.Some? && c.entry.Some?
    ensures var state := c.entry.value.state;
      LifeOf(Segment(c, s)) ==
        if s.flags.rst || (state == CloseWait && s.flags.fin) || (state == LastAck && s.flags.ack) then Removed
        else if state == Established && s.flags.fin then Live(FinWait)
        else Live(state)
    ensures s.flags.rst ==>
      Segment(c, s) == c.(entry := None, pend := c.pend + [TcpClose(c.entry.value.id)])
  {
    assert s.flags.rst ==> c.packets + [] == c.packets;
  }

  /** A segment changes nothing at all if and only if it is not a reset, and its state or
      its lack of a flag and of data makes it one to ignore. */
  lemma SegmentIgnoredExactly(c: Conn, s: TcpPacket)
    requires c.birth.Some? && c.entry.Some?
    ensures var state := c.entry.value.state;
      Segment(c, s) == c <==>
        && !s.flags.rst
        && (state == Established ==> !s.flags.fin && s.payload == [])
        && (state == CloseWait ==> !s.flags.fin)
        && (state == LastAck ==> !s.flags.ack)
  {
    var d := Segment(c, s);
    if d.entry == c.entry && |d.packets| == |c.packets| {
      assert c.pend + [] == c.pend && c.packets + [] == c.packets;
    }
  }

  /** Where the next message of the remote leads, and what the app is sent for it. */
  lemma MessageLeads(c: Conn)
    requires Ordered(c) && c.wait != [] && c.entry.Some?
    ensures var d, e, key := Listen(c), c.entry.value, c.birth.value.key;
      match c.wait[0]
      case TcpConnected(_) =>
        && LifeOf(d) == Live(Established)
        && d.packets == c.packets + [TcpPacket(key.dstIp, key.srcIp, key.dstPort, key.srcPort, e.seqNo, e.ackNo,
                                               TcpFlags(true, true, false, false, false), 65535, [])]
      case TcpReceived(_, data) =>
        && LifeOf(d) == Live(e.state)
        && c.packets <= d.packets && Payloads(d.packets) == Payloads(c.packets) + data
      case TcpClosed(_) =>
        && LifeOf(d) == Live(if e.state == Established then CloseWait else LastAck)
        && d.packets == c.packets + [TcpPacket(key.dstIp, key.srcIp, key.dstPort, key.srcPort, e.seqNo, e.ackNo,
                                               TcpFlags(false, true, true, false, false), 65535, [])]
      case TcpError(_, _) =>
        && LifeOf(d) == Removed
        && d.packets == c.packets + [TcpPacket(key.dstIp, key.srcIp, key.dstPort, key.srcPort, 0, 0,
                                               TcpFlags(false, false, false, true, false), 0, [])]
      case _ => false
  {
    MessagesMeetTheirStages(c);
    MessageBytes(c.birth.value.key, c.entry.value, c.wait[0]);
    var e := MessageEffect(c.birth.value.key, c.entry.value, c.wait[0]);
    PayloadsMore(c.packets, e.packets);
    assert [c.wait[0]][1..] == [];
  }

  // ------------------------------------------------------- after the destination closed

  /** Where a FIN segment of the app stands: its payload starts at position j of what the
      app sends, less than one wrap away from what has been accepted. */
  predicate StandsAt(c: Conn, s: TcpPacket, j: nat)
    requires c.birth.Some?
  {
    s.seqNo == AckOfFirst(c.birth.value.isn, j) && -TWO32 < j - |Forwarded(c)| < TWO32
  }

  /** A number of the app that was forwarded as one of its first k bytes, or is its FIN. */
  predicate Accepted(k: nat, fin: nat, i: nat) {
    i < k || i == fin
  }

  /** The first n numbers of the app are all accepted. */
  ghost predicate CoversOnlyAccepted(k: nat, fin: nat, n: nat) {
    forall i: nat :: i < n ==> Accepted(k, fin, i)
  }

  /** Acknowledging the first j + 1 numbers of the app, where a payload of p bytes starts at
      j and the FIN follows it, covers nothing but k forwarded bytes and the FIN if and only
      if j lies among these bytes, or right behind them with no payload. */
  lemma CoversExactly(k: nat, j: nat, p: nat)
    ensures CoversOnlyAccepted(k, j + p, j + 1) <==> j < k || (j == k && p == 0)
  {
    if CoversOnlyAccepted(k, j + p, j + 1) && k <= j {
      assert Accepted(k, j + p, k);
    }
  }

  /** In CloseWait the app's FIN is answered by one ACK of the number after the segment's
      first, whatever came before it and whatever it carries. */
  lemma LateFinAck(c: Conn, s: TcpPacket, j: nat)
    requires Formed(c) && c.entry.Some? && c.entry.value.state == CloseWait
    requires !s.flags.rst && s.flags.fin && StandsAt(c, s, j)
    ensures var d := Segment(c, s);
      && d.entry.None? && Sent(d) == Sent(c)
      && d.packets == c.packets
           + [AckPacket(c.birth.value.key, NextSeq(c.packets), AckOfFirst(c.birth.value.isn, j + 1))]
  {
    WrapSum(c.birth.value.isn + 1 + j, 0, 1);
    assert c.pend + [] == c.pend;
  }

  lemma LateFinNumbers(isn: u32, ackNo: u32, seqNo: u32, j: nat, k: nat)
    requires ackNo == AckOfFirst(isn, k) && seqNo == AckOfFirst(isn, j) && -TWO32 < j - k < TWO32
    ensures AckOfFirst(isn, j + 1) == AckOfFirst(isn, k + 1) <==> seqNo == ackNo
    ensures seqNo == ackNo <==> j == k
  {
    SamePosition(isn + 1, j, k);
    SamePosition(isn + 1, j + 1, k + 1);
  }

  /** That ACK names the end of the bytes forwarded and one FIN if and only if the segment
      is in sequence, and covers nothing but forwarded bytes and the FIN if and only if the
      segment repeats forwarded bytes, or is in sequence and carries no payload. */
  lemma LateFinAckExactly(c: Conn, s: TcpPacket, j: nat)
    requires Formed(c) && Acked(c) && c.entry.Some? && c.entry.value.state == CloseWait
    requires !s.flags.rst && s.flags.fin && StandsAt(c, s, j)
    ensures var d := Segment(c, s);
      var isn, k := c.birth.value.isn, |Forwarded(c)|;
      && Forwarded(d) == Forwarded(c) && |d.packets| == |c.packets| + 1
      && var ack := d.packets[|c.packets|].ackNo;
      && ack == AckOfFirst(isn, j + 1)
      && (ack == AckOfFirst(isn, k + 1) <==> s.seqNo == c.entry.value.ackNo)
      && (s.seqNo == c.entry.value.ackNo <==> j == k)
      && (CoversOnlyAccepted(k, j + |s.payload|, j + 1) <==> j < k || (j == k && s.payload == []))
  {
    LateFinAck(c, s, j);
    LateFinNumbers(c.birth.value.isn, c.entry.value.ackNo, s.seqNo, j, |Forwarded(c)|);
    CoversExactly(|Forwarded(c)|, j, |s.payload|);
  }

  /** Data the app sends after the destination closed leaves the connection as it was: it
      is not forwarded, and not answered at once. */
  lemma LateDataIsIgnored(c: Conn, s: TcpPacket)
    requires c.birth.Some? && c.entry.Some? && c.entry.value.state == CloseWait && !s.flags.rst && !s.flags.fin
    ensures Segment(c, s) == c
  {
    assert c.pend + [] == c.pend && c.packets + [] == c.packets;
  }

  // --------------------------------------------------------- the destination's stream

  lemma {:induction false} OpenSpace(s: Spoken, ps: seq<TcpPacket>)
    requires Speak(s, ps) == POpen
    ensures s == POpen ==> Space(ps) == |Payloads(ps)|
    ensures s == PNone ==> Space(ps) == 1 + |Payloads(ps)|
    ensures s == POpen || s == PNone
    decreases |ps|
  {
    if ps != [] {
      OpenSpace(SpeakOne(s, ps[0]), ps[1..]);
    }
  }

  lemma {:induction false} BadStays(ps: seq<TcpPacket>)
    ensures Speak(PBad, ps) == PBad
    decreases |ps|
  {
    if ps != [] {
      BadStays(ps[1..]);
    }
  }

  lemma SpeakAt(ps: seq<TcpPacket>, i: nat)
    requires Speak(PNone, ps) != PBad && i < |ps|
    ensures SpeakOne(Speak(PNone, ps[..i]), ps[i]) != PBad
  {
    assert ps == ps[..i] + ([ps[i]] + ps[i + 1..]);
    SpeakMore(PNone, ps[..i], [ps[i]] + ps[i + 1..]);
    assert ([ps[i]] + ps[i + 1..])[1..] == ps[i + 1..];
    BadStays(ps[i + 1..]);
  }

  /** Where the payload of a numbered packet belongs, from the number of bytes before it. */
  lemma OffsetOf(before: nat)
    ensures ((1000 + (1 + before)) % TWO32 - 1001) % TWO32 == before % TWO32
  {
  }

  lemma DataIsNumbered(ps: seq<TcpPacket>, i: nat)
    requires Speak(PNone, ps) != PBad && Numbered(ps) && i < |ps| && ps[i].payload != []
    ensures ps[i].seqNo == (1000 + (1 + |Payloads(ps[..i])|)) % TWO32
  {
    assert NumberedAt(ps, i);
    SpeakAt(ps, i);
    OpenSpace(PNone, ps[..i]);
  }

  /** The offset of a packet's payload, seq - 1001 modulo 2^32, is the number of payload
      bytes before it. */
  predicate Placed(ps: seq<TcpPacket>, i: nat)
    requires i < |ps|
  {
    ps[i].payload != [] ==> (ps[i].seqNo - 1001) % TWO32 == |Payloads(ps[..i])| % TWO32
  }

  lemma NumberedIsPlaced(ps: seq<TcpPacket>, i: nat)
    requires Speak(PNone, ps) != PBad && Numbered(ps) && i < |ps|
    ensures Placed(ps, i)
  {
    if ps[i].payload != [] {
      DataIsNumbered(ps, i);
      OffsetOf(|Payloads(ps[..i])|);
    }
  }

  /** Placing the payload of every emitted packet at its offset reassembles, with no gap or
      overlap, a prefix of what was read from the destination. */
  lemma DestinationBytesReassemble(c: Conn, i: nat)
    requires Formed(c)
    ensures Payloads(c.packets) <= c.task.read
    ensures i < |c.packets| ==> Placed(c.packets, i)
  {
    HeardBytesMore(c.heard, c.wait);
    if i < |c.packets| {
      NumberedIsPlaced(c.packets, i);
    }
  }

  /** Whatever its schedule, a relay loop continues an announced connection in order, and
      once it ends, the closing notice completes the connection's messages. */
  lemma RelaySpeaksInOrder(id: u32, task: Task, handle: bool, polls: seq<Poll>)
    requires task.phase == Relaying
    ensures var r := Relay(id, task, handle, polls);
      && Hear(HOpen, r.responses) == SaidBy(r.task.phase)
      && (r.task.phase != Relaying ==>
            RemoteShape([TcpConnected(id)] + r.responses + [TcpClosed(id)]))
  {
    RelaySpeaks(id, task, handle, polls);
    var r := Relay(id, task, handle, polls);
    if r.task.phase != Relaying {
      var all := [TcpConnected(id)] + r.responses + [TcpClosed(id)];
      HearOneMore(HNone, [], TcpConnected(id));
      assert [] + [TcpConnected(id)] == [TcpConnected(id)];
      HearMore(HNone, [TcpConnected(id)], r.responses);
      HearOneMore(HNone, [TcpConnected(id)] + r.responses, TcpClosed(id));
      HeardMeansShape(all);
    }
  }

  lemma {:induction false} RelaySpeaks(id: u32, task: Task, handle: bool, polls: seq<Poll>)
    requires task.phase == Relaying
    ensures var r := Relay(id, task, handle, polls);
      && Hear(HOpen, r.responses) == SaidBy(r.task.phase)
      && (r.task.phase == Relaying || r.task.phase.Closing?)
    decreases |polls|
  {
    if polls != [] {
      var t := Turn(id, task, handle, polls[0]);
      TurnSpeaks(id, task, handle, polls[0]);
      var rest := Relay(id, t.task, t.handle, polls[1..]);
      HearMore(HOpen, t.responses, rest.responses);
      if t.task.phase == Relaying {
        RelaySpeaks(id, t.task, t.handle, polls[1..]);
      }
    }
  }

  lemma TurnSpeaks(id: u32, task: Task, handle: bool, poll: Poll)
    requires task.phase == Relaying
    ensures var t := Turn(id, task, handle, poll);
      && Hear(HOpen, t.responses) == SaidBy(t.task.phase)
      && (t.task.phase == Relaying || t.task.phase.Closing?)
  {
    if poll.Branch? && IsLoopEvent(poll.ev) && CanStep(task, handle, poll.ev) {
      StepSaid(id, task, handle, poll.ev);
    }
  }

  // --------------------------------------------------------------- the three orders

  /** Both message streams and the packets to the app follow their grammar, and every
      packet but a reset is numbered by the sequence space of those before it. */
  lemma EverythingInOrder(c: Conn)
    requires Formed(c)
    ensures RemoteShape(Said(c)) && HostShape(Sent(c)) && PacketShape(c.packets) && Numbered(c.packets)
  {
    HearMore(HNone, c.heard, c.wait);
    HeardMeansShape(Said(c));
    AskMore(ANone, c.done, c.pend);
    AskedMeansShape(Sent(c));
    SpokenMeansShape(c.packets);
  }
}
