/** The orders in which one connection's messages and packets may appear, as automata,
    and what each automaton means in plain terms. */
module Grammar {
  import opened Base
  import opened Messages
  import opened Packets
  import opened Nat
  import opened Host
  import opened Endpoint

  // ------------------------------------------------------------ remote to host

  /** Progress of the remote-to-host messages of one connection. */
  datatype Heard = HNone | HOpen | HErred | HDone | HFailed | HBad

  function HearOne(h: Heard, m: RemoteMessage): Heard {
    match m
    case TcpConnected(_) => if h == HNone then HOpen else HBad
    case TcpReceived(_, _) => if h == HOpen then HOpen else HBad
    case TcpError(_, _) => if h == HNone then HFailed else if h == HOpen then HErred else HBad
    case TcpClosed(_) => if h == HOpen || h == HErred then HDone else HBad
    case _ => HBad
  }

  function Hear(h: Heard, ms: seq<RemoteMessage>): Heard
    decreases |ms|
  {
    if ms == [] then h else Hear(HearOne(h, ms[0]), ms[1..])
  }

  lemma {:induction false} HearMore(h: Heard, ms: seq<RemoteMessage>, more: seq<RemoteMessage>)
    ensures Hear(h, ms + more) == Hear(Hear(h, ms), more)
    decreases |ms|
  {
    if ms == [] {
      assert ms + more == more;
    } else {
      assert (ms + more)[1..] == ms[1..] + more;
      HearMore(HearOne(h, ms[0]), ms[1..], more);
    }
  }

  /** How far along a state is; messages never lead back, and a bad state stays. */
  function HeardRank(h: Heard): nat {
    match h
    case HNone => 0
    case HOpen => 1
    case HErred => 2
    case HDone => 3
    case HFailed => 3
    case HBad => 4
  }

  lemma {:induction false} HearAdvances(h: Heard, ms: seq<RemoteMessage>)
    ensures HeardRank(h) <= HeardRank(Hear(h, ms))
    ensures Hear(h, ms) == HNone ==> ms == []
    ensures h == HBad ==> Hear(h, ms) == HBad
    ensures h == HFailed ==> Hear(h, ms) == HFailed || Hear(h, ms) == HBad
    ensures Hear(h, ms) == HFailed ==> h == HNone || h == HFailed
    decreases |ms|
  {
    if ms != [] {
      HearAdvances(HearOne(h, ms[0]), ms[1..]);
    }
  }

  /** The destination's bytes in a run of messages. */
  function HeardBytes(ms: seq<RemoteMessage>): seq<byte> {
    if ms == [] then [] else (if ms[0].TcpReceived? then ms[0].data else []) + HeardBytes(ms[1..])
  }

  lemma {:induction false} HeardBytesMore(ms: seq<RemoteMessage>, more: seq<RemoteMessage>)
    ensures HeardBytes(ms + more) == HeardBytes(ms) + HeardBytes(more)
  {
    if ms == [] {
      assert ms + more == more;
    } else {
      assert (ms + more)[1..] == ms[1..] + more;
      HeardBytesMore(ms[1..], more);
    }
  }

  /** Either a lone TcpError, or TcpConnected, then data, then at most one TcpError, then
      at most one TcpClosed, each absent part only at the end. */
  ghost predicate RemoteShape(ms: seq<RemoteMessage>) {
    && (ms != [] ==> ms[0].TcpConnected? || ms[0].TcpError?)
    && (forall i :: 0 < i < |ms| ==> ms[0].TcpConnected? && (ms[i].TcpReceived? || ms[i].TcpError? || ms[i].TcpClosed?))
    && (forall i :: 0 <= i < |ms| && ms[i].TcpClosed? ==> i == |ms| - 1)
    && (forall i :: 0 <= i < |ms| - 1 && ms[i].TcpError? ==> i == |ms| - 2 && ms[i + 1].TcpClosed?)
  }

  lemma {:induction false} HeardMeansShape(ms: seq<RemoteMessage>)
    requires Hear(HNone, ms) != HBad
    ensures RemoteShape(ms)
    ensures Hear(HNone, ms) == HNone <==> ms == []
    ensures Hear(HNone, ms) == HOpen ==> !ms[|ms| - 1].TcpError? && !ms[|ms| - 1].TcpClosed?
    ensures Hear(HNone, ms) == HErred ==> |ms| > 1 && ms[|ms| - 1].TcpError?
  {
    HearAdvances(HNone, ms);
    if ms != [] {
      var n := |ms| - 1;
      assert ms == ms[..n] + [ms[n]];
      HearMore(HNone, ms[..n], [ms[n]]);
      HearAdvances(Hear(HNone, ms[..n]), [ms[n]]);
      HeardMeansShape(ms[..n]);
      assert Hear(HNone, ms) == HearOne(Hear(HNone, ms[..n]), ms[n]) by {
        assert [ms[n]][1..] == [];
      }
      assert forall i :: 0 <= i < n ==> ms[i] == ms[..n][i];
    }
  }

  // ------------------------------------------------------------ host to remote

  datatype Asked = ANone | AOpen | AClosed | AClosedTwice | ABad

  function AskOne(a: Asked, m: HostMessage): Asked {
    match m
    case TcpConnect(_, _, _) => if a == ANone then AOpen else ABad
    case TcpData(_, _) => if a == AOpen then AOpen else ABad
    case TcpClose(_) => if a == AOpen then AClosed else if a == AClosed then AClosedTwice else ABad
    case _ => ABad
  }

  function Ask(a: Asked, ms: seq<HostMessage>): Asked
    decreases |ms|
  {
    if ms == [] then a else Ask(AskOne(a, ms[0]), ms[1..])
  }

  lemma {:induction false} AskMore(a: Asked, ms: seq<HostMessage>, more: seq<HostMessage>)
    ensures Ask(a, ms + more) == Ask(Ask(a, ms), more)
    decreases |ms|
  {
    if ms == [] {
      assert ms + more == more;
    } else {
      assert (ms + more)[1..] == ms[1..] + more;
      AskMore(AskOne(a, ms[0]), ms[1..], more);
    }
  }

  function AskedRank(a: Asked): nat {
    match a
    case ANone => 0
    case AOpen => 1
    case AClosed => 2
    case AClosedTwice => 3
    case ABad => 4
  }

  lemma {:induction false} AskAdvances(a: Asked, ms: seq<HostMessage>)
    ensures AskedRank(a) <= AskedRank(Ask(a, ms))
    ensures Ask(a, ms) == ANone ==> ms == []
    decreases |ms|
  {
    if ms != [] {
      AskAdvances(AskOne(a, ms[0]), ms[1..]);
    }
  }

  /** The app's bytes in a run of messages. */
  function AskedBytes(ms: seq<HostMessage>): seq<byte> {
    if ms == [] then [] else (if ms[0].TcpData? then ms[0].data else []) + AskedBytes(ms[1..])
  }

  lemma {:induction false} AskedBytesMore(ms: seq<HostMessage>, more: seq<HostMessage>)
    ensures AskedBytes(ms + more) == AskedBytes(ms) + AskedBytes(more)
  {
    if ms == [] {
      assert ms + more == more;
    } else {
      assert (ms + more)[1..] == ms[1..] + more;
      AskedBytesMore(ms[1..], more);
    }
  }

  /** TcpConnect, then data, then at most two TcpClose. */
  ghost predicate HostShape(ms: seq<HostMessage>) {
    && (forall i :: 0 <= i < |ms| ==> (ms[i].TcpConnect? <==> i == 0))
    && (forall i :: 0 < i < |ms| ==> ms[i].TcpData? || ms[i].TcpClose?)
    && (forall i :: 0 <= i < |ms| && ms[i].TcpClose? ==> i >= |ms| - 2)
    && (forall i :: 0 <= i < |ms| - 1 && ms[i].TcpClose? ==> ms[i + 1].TcpClose?)
  }

  lemma {:induction false} AskedMeansShape(ms: seq<HostMessage>)
    requires Ask(ANone, ms) != ABad
    ensures HostShape(ms)
    ensures Ask(ANone, ms) == ANone <==> ms == []
    ensures forall i :: 0 <= i < |ms| && ms[i].TcpClose? ==>
      i >= |ms| + 1 - AskedRank(Ask(ANone, ms))
  {
    AskAdvances(ANone, ms);
    if ms != [] {
      var n := |ms| - 1;
      assert ms == ms[..n] + [ms[n]];
      AskMore(ANone, ms[..n], [ms[n]]);
      assert Ask(ANone, ms) == AskOne(Ask(ANone, ms[..n]), ms[n]) by {
        assert [ms[n]][1..] == [];
      }
      AskedMeansShape(ms[..n]);
      assert forall i :: 0 <= i < n ==> ms[i] == ms[..n][i];
    }
  }

  // ---------------------------------------------------------- packets to the app

  datatype Spoken = PNone | POpen | PFinned | PReset | PBad

  predicate IsSynAck(p: TcpPacket) {
    p.flags == NoFlags.(syn := true, ack := true) && p.payload == []
  }

  predicate IsFin(p: TcpPacket) {
    p.flags == NoFlags.(fin := true, ack := true) && p.payload == []
  }

  predicate IsRst(p: TcpPacket) {
    p.flags == NoFlags.(rst := true) && p.payload == []
  }

  predicate IsBareAck(p: TcpPacket) {
    p.flags == NoFlags.(ack := true) && p.payload == []
  }

  predicate IsData(p: TcpPacket) {
    p.flags.(psh := false) == NoFlags.(ack := true) && p.payload != []
  }

  function SpeakOne(s: Spoken, p: TcpPacket): Spoken {
    if IsSynAck(p) then (if s == PNone then POpen else PBad)
    else if IsData(p) then (if s == POpen then POpen else PBad)
    else if IsBareAck(p) then (if s == POpen || s == PFinned then s else PBad)
    else if IsFin(p) then (if s == POpen then PFinned else PBad)
    else if IsRst(p) then (if s == PNone || s == POpen then PReset else PBad)
    else PBad
  }

  function Speak(s: Spoken, ps: seq<TcpPacket>): Spoken
    decreases |ps|
  {
    if ps == [] then s else Speak(SpeakOne(s, ps[0]), ps[1..])
  }

  lemma {:induction false} SpeakMore(s: Spoken, ps: seq<TcpPacket>, more: seq<TcpPacket>)
    ensures Speak(s, ps + more) == Speak(Speak(s, ps), more)
    decreases |ps|
  {
    if ps == [] {
      assert ps + more == more;
    } else {
      assert (ps + more)[1..] == ps[1..] + more;
      SpeakMore(SpeakOne(s, ps[0]), ps[1..], more);
    }
  }

  /** The sequence space packets consume: SYN and FIN count one each. */
  function Space(ps: seq<TcpPacket>): nat {
    if ps == [] then 0
    else (if ps[0].flags.syn then 1 else 0) + (if ps[0].flags.fin then 1 else 0) + |ps[0].payload| + Space(ps[1..])
  }

  lemma {:induction false} SpaceMore(ps: seq<TcpPacket>, more: seq<TcpPacket>)
    ensures Space(ps + more) == Space(ps) + Space(more)
  {
    if ps == [] {
      assert ps + more == more;
    } else {
      assert (ps + more)[1..] == ps[1..] + more;
      SpaceMore(ps[1..], more);
    }
  }

  lemma {:induction false} PayloadsMore(ps: seq<TcpPacket>, more: seq<TcpPacket>)
    ensures Payloads(ps + more) == Payloads(ps) + Payloads(more)
  {
    if ps == [] {
      assert ps + more == more;
    } else {
      assert (ps + more)[1..] == ps[1..] + more;
      PayloadsMore(ps[1..], more);
    }
  }

  /** Every packet but a reset is numbered by our first sequence number plus the space
      the packets before it consumed. */
  ghost predicate Numbered(ps: seq<TcpPacket>) {
    forall i :: 0 <= i < |ps| ==> NumberedAt(ps, i)
  }

  predicate NumberedAt(ps: seq<TcpPacket>, i: nat)
    requires i < |ps|
  {
    !ps[i].flags.rst ==> ps[i].seqNo == NextSeq(ps[..i])
  }

  /** The sequence number that follows a run of packets. */
  function NextSeq(ps: seq<TcpPacket>): u32 {
    (1000 + Space(ps)) % TWO32
  }

  lemma NumberedMore(ps: seq<TcpPacket>, p: TcpPacket)
    requires Numbered(ps)
    requires p.flags.rst || p.seqNo == NextSeq(ps)
    ensures Numbered(ps + [p])
  {
    var qs := ps + [p];
    forall i | 0 <= i < |qs| ensures NumberedAt(qs, i) {
      if i < |ps| {
        assert NumberedAt(ps, i) && qs[..i] == ps[..i] && qs[i] == ps[i];
      } else {
        assert qs[..i] == ps;
      }
    }
  }

  /** The chunks of a block of data leave a conversation open. */
  lemma {:induction false} DataStaysOpen(key: TcpKey, seqNo: u32, ackNo: u32, data: seq<byte>)
    ensures Speak(POpen, DataPackets(key, seqNo, ackNo, data)) == POpen
    decreases |data|
  {
    if data != [] {
      var n := ChunkLen(data);
      var p := DataPacket(key, seqNo, ackNo, n == |data|, data[..n]);
      var rest := DataPackets(key, WrapAdd(seqNo, n), ackNo, data[n..]);
      assert DataPackets(key, seqNo, ackNo, data) == [p] + rest;
      assert IsData(p) && !IsSynAck(p);
      DataStaysOpen(key, WrapAdd(seqNo, n), ackNo, data[n..]);
    }
  }

  lemma SpaceOfOne(p: TcpPacket)
    ensures Space([p]) == (if p.flags.syn then 1 else 0) + (if p.flags.fin then 1 else 0) + |p.payload|
  {
    assert [p][1..] == [];
  }

  /** The chunks of a block of data continue the numbering. */
  lemma {:induction false} DataStaysNumbered(ps: seq<TcpPacket>, key: TcpKey, seqNo: u32, ackNo: u32, data: seq<byte>)
    requires Numbered(ps) && seqNo == NextSeq(ps)
    ensures var more := DataPackets(key, seqNo, ackNo, data);
      Numbered(ps + more) && Space(ps + more) == Space(ps) + |data|
    decreases |data|
  {
    if data == [] {
      assert ps + [] == ps;
    } else {
      var n := ChunkLen(data);
      var p := DataPacket(key, seqNo, ackNo, n == |data|, data[..n]);
      var rest := DataPackets(key, WrapAdd(seqNo, n), ackNo, data[n..]);
      NumberedMore(ps, p);
      SpaceMore(ps, [p]);
      SpaceOfOne(p);
      WrapSum(OUR_ISN, Space(ps), n);
      assert WrapAdd(seqNo, n) == NextSeq(ps + [p]);
      DataStaysNumbered(ps + [p], key, WrapAdd(seqNo, n), ackNo, data[n..]);
      assert DataPackets(key, seqNo, ackNo, data) == [p] + rest;
      assert (ps + [p]) + rest == ps + ([p] + rest);
    }
  }

  /** At most one SYN-ACK and only first, at most one FIN with nothing but bare ACKs after
      it, and nothing at all after an RST. */
  ghost predicate PacketShape(ps: seq<TcpPacket>) {
    && (ps != [] ==> IsSynAck(ps[0]) || (IsRst(ps[0]) && |ps| == 1))
    && (forall i :: 0 < i < |ps| ==> IsData(ps[i]) || IsBareAck(ps[i]) || IsFin(ps[i]) || IsRst(ps[i]))
    && (forall i, j :: 0 <= i < j < |ps| && IsFin(ps[i]) ==> IsBareAck(ps[j]))
    && (forall i :: 0 <= i < |ps| && IsRst(ps[i]) ==> i == |ps| - 1)
  }

  /** What each state of the conversation says about the packets so far. */
  ghost predicate Reflects(s: Spoken, ps: seq<TcpPacket>) {
    && (s == PNone <==> ps == [])
    && (s == PReset <==> ps != [] && IsRst(ps[|ps| - 1]))
    && (s == PFinned <==> exists i :: 0 <= i < |ps| && IsFin(ps[i]))
  }

  lemma ShapeMore(ps: seq<TcpPacket>, s: Spoken, p: TcpPacket)
    requires PacketShape(ps) && Reflects(s, ps) && SpeakOne(s, p) != PBad
    ensures PacketShape(ps + [p])
  {
    var qs := ps + [p];
    assert forall i :: 0 <= i < |ps| ==> qs[i] == ps[i];
  }

  lemma ReflectsMore(ps: seq<TcpPacket>, s: Spoken, p: TcpPacket)
    requires Reflects(s, ps) && SpeakOne(s, p) != PBad
    ensures Reflects(SpeakOne(s, p), ps + [p])
  {
    var qs := ps + [p];
    if i :| 0 <= i < |ps| && IsFin(ps[i]) {
      assert IsFin(qs[i]);
    }
    if IsFin(p) {
      assert IsFin(qs[|ps|]);
    }
    if i :| 0 <= i < |qs| && IsFin(qs[i]) {
      assert i == |ps| || IsFin(ps[i]);
    }
  }

  lemma {:induction false} SpokenMeansShape(ps: seq<TcpPacket>)
    requires Speak(PNone, ps) != PBad
    ensures PacketShape(ps) && Reflects(Speak(PNone, ps), ps)
  {
    if ps != [] {
      var n := |ps| - 1;
      var before, p := ps[..n], ps[n];
      assert ps == before + [p];
      SpeakMore(PNone, before, [p]);
      assert Speak(Speak(PNone, before), [p]) == SpeakOne(Speak(PNone, before), p) by {
        assert [p][1..] == [];
      }
      SpokenMeansShape(before);
      ShapeMore(before, Speak(PNone, before), p);
      ReflectsMore(before, Speak(PNone, before), p);
    }
  }
}
