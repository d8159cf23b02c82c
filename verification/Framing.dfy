/** The length-prefixed frames of the tunnel: an 8-byte big-endian length, then the body. */
module Framing {
  import opened Base
  import opened Messages
  import opened Codec

  const MAX_BODY := 16 * 1024 * 1024

  /** A Vec<u8>: its length fits a u64. */
  type Body = s: seq<byte> | |s| < USIZE_LIMIT witness []

  datatype ReadOutcome<+T> =
    | Message(message: T)
    | EndOfStream          // Ok(None): the prefix could not be read in full
    | TooLarge(len: nat)
    | ShortBody            // the stream ended inside a body
    | Malformed

  function Frame(body: Body): seq<byte> {
    Widths();
    ToBig(|body|, 8) + body
  }

  /** What one read returns, and the bytes it leaves behind. */
  function ReadOne<T>(bytes: seq<byte>, decode: seq<byte> -> Option<T>): (r: (ReadOutcome<T>, seq<byte>))
    ensures r.0.Message? ==> |r.1| < |bytes|
  {
    if |bytes| < 8 then (EndOfStream, [])
    else
      var len := FromBig(bytes[..8]);
      var rest := bytes[8..];
      if len > MAX_BODY then (TooLarge(len), rest)
      else if |rest| < len then (ShortBody, [])
      else match decode(rest[..len])
        case None => (Malformed, rest[len..])
        case Some(m) => (Message(m), rest[len..])
  }

  /** The reader task: messages up to the first outcome that is not one, and that outcome. */
  function ReadAll<T>(bytes: seq<byte>, decode: seq<byte> -> Option<T>): (seq<T>, ReadOutcome<T>)
    decreases |bytes|
  {
    var (outcome, rest) := ReadOne(bytes, decode);
    match outcome
    case Message(m) => var (ms, end) := ReadAll(rest, decode); ([m] + ms, end)
    case _ => ([], outcome)
  }

  lemma ReadAllUnfolds<T>(bytes: seq<byte>, decode: seq<byte> -> Option<T>)
    ensures var (outcome, rest) := ReadOne(bytes, decode);
      ReadAll(bytes, decode) ==
        if outcome.Message? then ([outcome.message] + ReadAll(rest, decode).0, ReadAll(rest, decode).1)
        else ([], outcome)
  {
  }

  // ------------------------------------------------- the imperative reader and writer

  class ByteStream {
    var bytes: seq<byte>

    constructor (bytes: seq<byte>)
      ensures this.bytes == bytes
    {
      this.bytes := bytes;
    }

    /** Fills a buffer of n bytes, or drains the stream and reports end of file. */
    method ReadExact(n: nat) returns (buf: Option<seq<byte>>)
      modifies this
      ensures n <= |old(bytes)| ==> buf == Some(old(bytes)[..n]) && bytes == old(bytes)[n..]
      ensures n > |old(bytes)| ==> buf == None && bytes == []
    {
      if n <= |bytes| {
        buf := Some(bytes[..n]);
        bytes := bytes[n..];
      } else {
        buf := None;
        bytes := [];
      }
    }

    method WriteAll(data: seq<byte>)
      modifies this
      ensures bytes == old(bytes) + data
    {
      bytes := bytes + data;
    }
  }

  method ReadMessage<T>(reader: ByteStream, decode: seq<byte> -> Option<T>) returns (r: ReadOutcome<T>)
    modifies reader
    ensures (r, reader.bytes) == ReadOne(old(reader.bytes), decode)
  {
    var prefix := reader.ReadExact(8);
    if prefix == None {
      return EndOfStream;
    }
    var len := FromBig(prefix.value);
    if len > MAX_BODY {
      return TooLarge(len);
    }
    var buf := reader.ReadExact(len);
    if buf == None {
      return ShortBody;
    }
    var msg := decode(buf.value);
    r := if msg.None? then Malformed else Message(msg.value);
  }

  /** Returns false for a body whose length does not fit the prefix; nothing is written then. */
  method WriteMessage<T>(writer: ByteStream, encode: T -> seq<byte>, msg: T) returns (ok: bool)
    modifies writer
    ensures ok <==> |encode(msg)| < USIZE_LIMIT
    ensures writer.bytes == old(writer.bytes) + if ok then Frame(encode(msg)) else []
  {
    var data := encode(msg);
    if |data| >= USIZE_LIMIT {
      return false;
    }
    Widths();
    var prefix := ToBig(|data|, 8);
    writer.WriteAll(prefix);
    writer.WriteAll(data);
    assert old(writer.bytes) + prefix + data == old(writer.bytes) + (prefix + data);
    ok := true;
  }

  /** The spawned reader loop: it reads until an outcome that is not a message. */
  method ReadLoop<T>(reader: ByteStream, decode: seq<byte> -> Option<T>) returns (ms: seq<T>, end: ReadOutcome<T>)
    modifies reader
    ensures (ms, end) == ReadAll(old(reader.bytes), decode)
  {
    ms := [];
    ghost var all := ReadAll(reader.bytes, decode);
    while true
      invariant all.0 == ms + ReadAll(reader.bytes, decode).0 && all.1 == ReadAll(reader.bytes, decode).1
      decreases |reader.bytes|
    {
      ReadAllUnfolds(reader.bytes, decode);
      var msg := ReadMessage(reader, decode);
      if !msg.Message? {
        assert ms + [] == ms;
        end := msg;
        return;
      }
      ghost var rest := ReadAll(reader.bytes, decode).0;
      assert ms + ([msg.message] + rest) == (ms + [msg.message]) + rest;
      ms := ms + [msg.message];
    }
  }

  // --------------------------------------------------------------- the stream of frames

  function Stream(bodies: seq<Body>): seq<byte> {
    if bodies == [] then [] else Frame(bodies[0]) + Stream(bodies[1..])
  }

  ghost predicate Decodes<T>(bodies: seq<Body>, msgs: seq<T>, decode: seq<byte> -> Option<T>) {
    |bodies| == |msgs| && forall i :: 0 <= i < |msgs| ==> decode(bodies[i]) == Some(msgs[i])
  }

  /** Every body is within the cap of 16 MiB. */
  ghost predicate AllSmall(bodies: seq<Body>) {
    forall i :: 0 <= i < |bodies| ==> |bodies[i]| <= 16_777_216
  }

  lemma FrameParts(body: Body, rest: seq<byte>)
    ensures var bytes := Frame(body) + rest;
      |Frame(body)| == 8 + |body| && FromBig(bytes[..8]) == |body| && bytes[8..] == body + rest
  {
    Widths();
    var prefix := ToBig(|body|, 8);
    assert (prefix + body) + rest == prefix + (body + rest);
    Front(prefix, body + rest);
  }

  lemma ReadOneFrame<T>(body: Body, rest: seq<byte>, decode: seq<byte> -> Option<T>)
    ensures |body| > MAX_BODY ==> ReadOne(Frame(body) + rest, decode) == (TooLarge(|body|), body + rest)
    ensures |body| <= MAX_BODY ==>
      ReadOne(Frame(body) + rest, decode)
        == (if decode(body).Some? then Message(decode(body).value) else Malformed, rest)
  {
    FrameParts(body, rest);
    Front(body, rest);
  }

  /** After a message the reader goes on with what follows its frame. */
  lemma ReadOnFrame<T>(body: Body, rest: seq<byte>, decode: seq<byte> -> Option<T>)
    requires |body| <= MAX_BODY && decode(body).Some?
    ensures ReadAll(Frame(body) + rest, decode)
         == ([decode(body).value] + ReadAll(rest, decode).0, ReadAll(rest, decode).1)
  {
    ReadOneFrame(body, rest, decode);
    ReadAllUnfolds(Frame(body) + rest, decode);
  }

  /** Reading back the concatenated frames of any list of messages returns exactly
      that list and then a clean end, if and only if every body is within the cap. */
  lemma {:induction false} StreamRoundTrip<T>(bodies: seq<Body>, msgs: seq<T>, decode: seq<byte> -> Option<T>)
    requires Decodes(bodies, msgs, decode)
    ensures ReadAll(Stream(bodies), decode) == (msgs, EndOfStream) <==> AllSmall(bodies)
  {
    if bodies != [] {
      DecodesTail(bodies, msgs, decode);
      if |bodies[0]| > MAX_BODY {
        ReadOneFrame(bodies[0], Stream(bodies[1..]), decode);
      } else {
        ReadOnFrame(bodies[0], Stream(bodies[1..]), decode);
        StreamRoundTrip(bodies[1..], msgs[1..], decode);
        var tail := ReadAll(Stream(bodies[1..]), decode);
        assert msgs == [msgs[0]] + msgs[1..];
        Front([msgs[0]], tail.0);
      }
    }
  }

  /** The reader hands over the messages before the first frame it cannot take, and then
      says what is wrong with it: its length, if that is over the cap, or its content. */
  lemma {:induction false} StreamStops<T>(bodies: seq<Body>, msgs: seq<T>, decode: seq<byte> -> Option<T>, bad: Body,
                                          rest: seq<byte>)
    requires Decodes(bodies, msgs, decode) && AllSmall(bodies)
    requires |bad| > 16_777_216 || decode(bad) == None
    ensures ReadAll(Stream(bodies) + (Frame(bad) + rest), decode)
         == (msgs, if |bad| > 16_777_216 then TooLarge(|bad|) else Malformed)
  {
    if bodies == [] {
      assert Stream(bodies) + (Frame(bad) + rest) == Frame(bad) + rest;
      ReadOneFrame(bad, rest, decode);
    } else {
      var tail := Stream(bodies[1..]) + (Frame(bad) + rest);
      Joined(Frame(bodies[0]), Stream(bodies[1..]), Frame(bad) + rest);
      DecodesTail(bodies, msgs, decode);
      ReadOnFrame(bodies[0], tail, decode);
      StreamStops(bodies[1..], msgs[1..], decode, bad, rest);
      assert msgs == [msgs[0]] + msgs[1..];
    }
  }

  /** How many whole frames a cut of n bytes keeps, and how a reader then ends. */
  function Whole(bodies: seq<Body>, n: nat): nat {
    if bodies == [] || n < 8 + |bodies[0]| then 0 else 1 + Whole(bodies[1..], n - 8 - |bodies[0]|)
  }

  /** The bytes of an incomplete last frame that survive a cut of n bytes. */
  function Leftover(bodies: seq<Body>, n: nat): nat {
    if bodies == [] then 0
    else if n < 8 + |bodies[0]| then n
    else Leftover(bodies[1..], n - 8 - |bodies[0]|)
  }

  /** A cut inside the first frame yields nothing. */
  lemma CutInFrame<T>(body: Body, rest: seq<byte>, decode: seq<byte> -> Option<T>, n: nat)
    requires |body| <= MAX_BODY && n < 8 + |body|
    ensures n <= |Frame(body) + rest|
    ensures ReadOne((Frame(body) + rest)[..n], decode) == (if n < 8 then EndOfStream else ShortBody, [])
  {
    FrameParts(body, rest);
    var bytes := Frame(body) + rest;
    if n >= 8 {
      assert bytes[..n][..8] == bytes[..8];
    }
  }

  lemma DecodesTail<T>(bodies: seq<Body>, msgs: seq<T>, decode: seq<byte> -> Option<T>)
    requires Decodes(bodies, msgs, decode) && bodies != []
    ensures Decodes(bodies[1..], msgs[1..], decode)
    ensures AllSmall(bodies) <==> |bodies[0]| <= MAX_BODY && AllSmall(bodies[1..])
  {
    assert forall i :: 0 < i < |bodies| ==> bodies[i] == bodies[1..][i - 1];
    forall i | 0 <= i < |msgs[1..]| ensures decode(bodies[1..][i]) == Some(msgs[1..][i]) {
      assert decode(bodies[i + 1]) == Some(msgs[i + 1]);
    }
  }

  lemma FirstOfMore<T>(msgs: seq<T>, k: nat)
    requires k < |msgs|
    ensures [msgs[0]] + msgs[1..][..k] == msgs[..k + 1]
  {
  }

  /** A cut behind the first frame leaves it whole. */
  lemma CutPastFrame<T>(body: Body, rest: seq<byte>, decode: seq<byte> -> Option<T>, n: nat)
    requires |body| <= MAX_BODY && decode(body).Some? && 8 + |body| <= n <= |Frame(body) + rest|
    ensures |Frame(body)| == 8 + |body|
    ensures var tail := ReadAll(rest[..n - 8 - |body|], decode);
      ReadAll((Frame(body) + rest)[..n], decode) == ([decode(body).value] + tail.0, tail.1)
  {
    FrameParts(body, rest);
    var m := n - 8 - |body|;
    assert (Frame(body) + rest)[..n] == Frame(body) + rest[..m];
    ReadOnFrame(body, rest[..m], decode);
  }

  /** Any cut of the stream yields a prefix of the messages: the whole frames before
      the cut. The reader then ends cleanly if the cut is at a frame boundary or
      inside a length prefix, and reports an error if it is inside a body. */
  lemma {:induction false} CutStream<T>(bodies: seq<Body>, msgs: seq<T>, decode: seq<byte> -> Option<T>, n: nat)
    requires Decodes(bodies, msgs, decode) && AllSmall(bodies) && n <= |Stream(bodies)|
    ensures Whole(bodies, n) <= |msgs|
    ensures ReadAll(Stream(bodies)[..n], decode)
         == (msgs[..Whole(bodies, n)], if Leftover(bodies, n) < 8 then EndOfStream else ShortBody)
  {
    if bodies != [] {
      var body, rest := bodies[0], Stream(bodies[1..]);
      if n < 8 + |body| {
        CutInFrame(body, rest, decode, n);
        ReadAllUnfolds(Stream(bodies)[..n], decode);
      } else {
        CutPastFrame(body, rest, decode, n);
        DecodesTail(bodies, msgs, decode);
        CutStream(bodies[1..], msgs[1..], decode, n - 8 - |body|);
        FirstOfMore(msgs, Whole(bodies[1..], n - 8 - |body|));
      }
    }
  }

  /** The cut is exactly the whole frames and the leftover of the next one. */
  lemma {:induction false} CutAccounts(bodies: seq<Body>, n: nat)
    requires n <= |Stream(bodies)|
    ensures Whole(bodies, n) <= |bodies|
    ensures |Stream(bodies[..Whole(bodies, n)])| + Leftover(bodies, n) == n
    ensures Leftover(bodies, n) > 0 ==>
      Whole(bodies, n) < |bodies| && Leftover(bodies, n) < 8 + |bodies[Whole(bodies, n)]|
  {
    if bodies == [] || n < 8 + |bodies[0]| {
      assert bodies[..0] == [];
    } else {
      var m := n - 8 - |bodies[0]|;
      FrameParts(bodies[0], Stream(bodies[1..]));
      CutAccounts(bodies[1..], m);
      assert bodies[..Whole(bodies, n)][1..] == bodies[1..][..Whole(bodies[1..], m)];
    }
  }

  function HostBodies(msgs: seq<HostMessage>): (bodies: seq<Body>)
    requires forall m | m in msgs :: HostLoad(m) <= MAX_BODY - 34
  {
    if msgs == [] then []
    else
      HostSize(msgs[0]);
      [EncodeHost(msgs[0])] + HostBodies(msgs[1..])
  }

  function RemoteBodies(msgs: seq<RemoteMessage>): (bodies: seq<Body>)
    requires forall m | m in msgs :: RemoteLoad(m) <= MAX_BODY - 34
  {
    if msgs == [] then []
    else
      RemoteSize(msgs[0]);
      [EncodeRemote(msgs[0])] + RemoteBodies(msgs[1..])
  }

  lemma {:induction false} HostBodiesDecode(msgs: seq<HostMessage>)
    requires forall m | m in msgs :: HostLoad(m) <= MAX_BODY - 34
    ensures Decodes(HostBodies(msgs), msgs, DecodeHost) && AllSmall(HostBodies(msgs))
  {
    if msgs != [] {
      HostBodiesDecode(msgs[1..]);
      HostSize(msgs[0]);
      HostRoundTrip(msgs[0], []);
      assert EncodeHost(msgs[0]) + [] == EncodeHost(msgs[0]);
      var bodies := HostBodies(msgs);
      forall i | 0 <= i < |msgs| ensures DecodeHost(bodies[i]) == Some(msgs[i]) && |bodies[i]| <= MAX_BODY {
        if i > 0 {
          assert bodies[i] == HostBodies(msgs[1..])[i - 1] && msgs[i] == msgs[1..][i - 1];
        }
      }
    }
  }

  lemma {:induction false} RemoteBodiesDecode(msgs: seq<RemoteMessage>)
    requires forall m | m in msgs :: RemoteLoad(m) <= MAX_BODY - 34
    ensures Decodes(RemoteBodies(msgs), msgs, DecodeRemote) && AllSmall(RemoteBodies(msgs))
  {
    if msgs != [] {
      RemoteBodiesDecode(msgs[1..]);
      RemoteSize(msgs[0]);
      RemoteRoundTrip(msgs[0], []);
      assert EncodeRemote(msgs[0]) + [] == EncodeRemote(msgs[0]);
      var bodies := RemoteBodies(msgs);
      forall i | 0 <= i < |msgs| ensures DecodeRemote(bodies[i]) == Some(msgs[i]) && |bodies[i]| <= MAX_BODY {
        if i > 0 {
          assert bodies[i] == RemoteBodies(msgs[1..])[i - 1] && msgs[i] == msgs[1..][i - 1];
        }
      }
    }
  }

  /** The host's outgoing queue survives the tunnel: what the remote's reader has
      handed over after any n bytes is the prefix of the messages written whole. */
  lemma HostStreamIsFifo(msgs: seq<HostMessage>, n: nat)
    requires forall m | m in msgs :: HostLoad(m) <= MAX_BODY - 34
    requires n <= |Stream(HostBodies(msgs))|
    ensures ReadAll(Stream(HostBodies(msgs)), DecodeHost) == (msgs, EndOfStream)
    ensures Whole(HostBodies(msgs), n) <= |msgs|
    ensures ReadAll(Stream(HostBodies(msgs))[..n], DecodeHost).0 == msgs[..Whole(HostBodies(msgs), n)]
  {
    HostBodiesDecode(msgs);
    StreamRoundTrip(HostBodies(msgs), msgs, DecodeHost);
    CutStream(HostBodies(msgs), msgs, DecodeHost, n);
  }

  lemma RemoteStreamIsFifo(msgs: seq<RemoteMessage>, n: nat)
    requires forall m | m in msgs :: RemoteLoad(m) <= MAX_BODY - 34
    requires n <= |Stream(RemoteBodies(msgs))|
    ensures ReadAll(Stream(RemoteBodies(msgs)), DecodeRemote) == (msgs, EndOfStream)
    ensures Whole(RemoteBodies(msgs), n) <= |msgs|
    ensures ReadAll(Stream(RemoteBodies(msgs))[..n], DecodeRemote).0 == msgs[..Whole(RemoteBodies(msgs), n)]
  {
    RemoteBodiesDecode(msgs);
    StreamRoundTrip(RemoteBodies(msgs), msgs, DecodeRemote);
    CutStream(RemoteBodies(msgs), msgs, DecodeRemote, n);
  }
}
