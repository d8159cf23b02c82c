# A verified model of the ssh-proxy tunnel

`ssh-proxy` carries the TCP and UDP traffic of selected subnets through an SSH session.
The host side owns a TUN device, a NAT table and a hand-written TCP state machine; the
remote side opens the real sockets, one task per connection. Between them run two FIFO
streams of length-prefixed messages. This project models both sides, the streams and
their encoding, and proves what an application on the host and a destination behind the
remote can rely on, over every run of the composed system.

## How it is organised

| file | content |
|---|---|
| `Base`, `Messages` | machine integers, addresses, the two message enums, FIFO queues shared by many connections |
| `Codec`, `Framing`, `Transport` | the postcard format, the 8-byte length prefix and its reader and writer, and the fact that every queue of a reachable world crosses the byte stream intact |
| `Packets` | parsing and building of IPv4/IPv6 packets with TCP or UDP |
| `Nat`, `Dns` | the NAT table as a class over two indexes, the DNS forwarder |
| `Host`, `Endpoint` | the host's handlers as methods on the table; the same handlers seen from one connection |
| `Remote` | the remote's handle map, its tasks, its UDP exchanges and the relay loop |
| `UdpReturn` | the UDP return path over the log of all datagrams |
| `Grammar`, `Connection`, `Promises` | one connection across the whole tunnel: message and packet orders, the invariant, what it promises |
| `System` | the whole tunnel as a state machine, and the results over all its runs |
| `Findings` | what happens where a hypothesis fails, and runs that lead there |

The objects of the source are classes and methods here (`NatTable`, `RemoteProxy`,
`DnsState`, the handlers, the relay loop, the chunk loop, the reader loop). Each method
is tied by its `ensures` to a function on values, and the lemmas are about these functions;
where a field or a constant matters, contracts and lemmas give it literally.
`Endpoint` gives a second, independent definition of the two host handlers on a single
table entry, and proves that the table operations come down to it whenever the indexes
agree and touch nothing else. `System` shows that each of its steps is one step of one
connection and no step of any other, so that the invariant of `Connection` holds for
every id in every reachable world.

A run interleaves app segments, host handlers, remote handlers and task steps in any
order. Its only standing hypotheses are that no SYN arrives on a live 4-tuple and that
connection ids do not wrap. What else a result relies on is a value of `Trust`, with four
independent parts, and each result names the parts it needs:

- `closes`: no close that the host still counts on is handled by the remote between the
  announcement of a connection and the insertion of its handle;
- `data`: no data, unless it is empty, is handled in that gap;
- `stream`: the bytes taken from the app continue its stream;
- `fins`: a FIN of the app that is taken in Established stands where the accepted bytes end.

The orders of messages and packets, their numbering and addresses, the destination's
stream, the forward-only lives and the sharing of ends need none of them (`NOTHING`): they
hold for every app and every schedule. `NextKeepsInvExactly` proves, for each of the
sixteen choices, that a step keeps exactly the chosen parts of the invariant if and only if
it is faithful in these parts. An app that sends parts of its own stream, with any
repetition and reordering, meets `stream` and `fins` (`TruthfulRunIsOrderly`). `Findings`
shows what is lost when a hypothesis fails, and runs that lead to each gap.

Two gaps remain even when every part of the trust holds, and their exact conditions are
stated: a close is without effect if and only if the connection's task is still dialling
or has only announced itself (`CloseTakesEffectExactly`), so that a connection reset by its
app at that moment stays open at the remote; and after the destination has closed, the
answer to the app's FIN covers something that was not accepted unless its segment repeats
forwarded bytes, or stands right behind them and carries no payload (`LateFinAckExactly`).

A connection's `stream` is what its app is going to send; it is a ghost of the model. All
sequence and acknowledgment arithmetic is modulo 2^32. The remote's `TcpData` message is
called `TcpReceived` here, because both enums are open in the same modules.

## Model

| member | source | states |
|---|---|---|
| System.NextKeepsInvExactly | src/host/mod.rs:154-241 | for every choice of what to rely on, one step of host, remote or task keeps exactly that part of the invariant, for every connection, if and only if it is faithful in that part |
| System.RunKeepsInv | src/host/mod.rs:154-241 | for every such choice, every orderly run ends in a good world in which each connection is a later view of itself |
| System.TruthfulRunIsOrderly | src/host/mod.rs:322-408 | a run whose apps send parts of their own streams within one sequence wrap, in any order and with any repetition, and their FINs in sequence, meets both hypotheses on apps |
| System.AcceptedExactlyOnce | src/host/mod.rs:368-408 | on every such run, what was forwarded is exactly the first k bytes of the app's stream, and the stored acknowledgment names byte k, or the FIN behind it, modulo 2^32 |
| System.NoEventIsLost | src/host/mod.rs:309-368 | for any app and as long as no close is raced, the remote event a live entry waits for is queued, under way or announced in every reachable world: no connect and no close is lost |
| System.EndsAreShared | src/host/mod.rs:559-638 | for any app and schedule, a removed connection was closed towards the remote, or its end was heard from the remote and told to the app by FIN or RST |
| System.CloseTakesEffect | src/remote/mod.rs:213-217 | for any app and schedule, a connection the host asked to close has its close queued, or is ended at the remote for good, or had a close handled while its task was dialling or only announced |
| System.CloseTakesEffectExactly | src/remote/mod.rs:213-217 | in every reachable world the handling of a close ends the connection at the remote if and only if its task is neither dialling nor only announced |
| System.LeftOpenStays | src/remote/mod.rs:168-189 | a connection that the host has forgotten and the remote keeps open stays open along every continuation until its own task ends |
| System.WrittenIsForwarded | src/remote/proxy.rs:30-45 | for any app and as long as no data is raced, bytes written to the destination are a prefix of the bytes forwarded |
| System.AppStreamIsSafe | src/remote/mod.rs:202-217 | if the app continues its stream the bytes forwarded are a prefix of it, and if no data is raced either, so are the bytes written |
| System.NothingAfterCutOff | src/remote/mod.rs:202-217 | for any app and schedule, once the handle is gone no continuation of the run delivers anything that was not already queued |
| System.RunReads | src/remote/proxy.rs:48-64 | along every run, what a task has read is the data of exactly the reads it made, of 1 to 65536 bytes while relaying, in order |
| System.DestinationStreamIsSafe | src/host/mod.rs:529-558 | for any app and schedule, emitted payloads placed at offset seq - 1001 modulo 2^32 leave no gap or overlap and form a prefix of the bytes the destination sent along the run; while the entry lives they are all bytes heard, in FinWait too |
| System.LivesMoveForward | src/host/mod.rs:502-639 | for any app and schedule, an id's life only moves forward (unborn, SynSent, Established, FinWait or CloseWait but never both, LastAck, removed), and its histories only grow and end with its removal |
| System.GrammarsHold | src/remote/proxy.rs:22-79 | for any app and schedule, each id's messages in both directions and its packets to the app follow their grammar, and each packet but a reset is numbered by the sequence space before it |
| System.EverythingIsAddressed | src/host/mod.rs:502-639 | for any app and schedule, the connect message, the dialling task and its socket name the app's destination; every packet goes back to the app's 4-tuple with window 65535, or is a reset with window and numbers zero |
| System.AcksNameTheAccepted | src/host/mod.rs:327-408 | if FINs come in sequence, the stored acknowledgment names exactly what is accepted, and the packets of a live entry acknowledge a non-decreasing number of the app's bytes, never one that was not accepted, over any number of wraps |
| System.NoUnexpectedMessage | src/host/mod.rs:502-639 | for any app and schedule, TcpConnected reaches a live entry only in SynSent, data and TcpClosed only in Established or FinWait: the clean-up arm for TcpClosed is never taken |
| System.SynIsOpening | src/host/mod.rs:282-298 | a SYN on a free 4-tuple opens exactly the connection of the next id and changes no other |
| System.SegmentIsOwned | src/host/mod.rs:300-460 | a segment is one step of its 4-tuple's connection and no step of any other |
| System.MessageIsOwned | src/host/mod.rs:502-639 | handling the head of the remote stream is one step of the id it names and no step of any other |
| System.DispatchIsOwned | src/remote/mod.rs:116-161 | handling the head of the host stream is one step of the id it names and no step of any other |
| System.TaskIsOwned | src/remote/mod.rs:163-200 | a task step is one step of its own connection and no step of any other |
| Connection.OpenedGood | src/host/nat.rs:59-73 | a new connection starts in the invariant |
| Connection.SegmentKeepsFormed | src/host/mod.rs:319-460 | whatever the app sends, its connection keeps the orders, the numbering, the addresses and the destination's bytes |
| Connection.SegmentKeepsExactly | src/host/mod.rs:319-460 | a segment keeps the chosen parts of the invariant if and only if the bytes taken continue the stream and a FIN is in sequence, each where it is relied on |
| Connection.ListenKeepsGood | src/host/mod.rs:502-639 | every remote message keeps the connection invariant, in every choice of parts |
| Connection.DispatchKeepsFormed | src/remote/mod.rs:163-217 | whatever the remote handles, and whenever, the connection stays formed |
| Connection.DispatchKeepsExactly | src/remote/mod.rs:202-217 | the remote's handling of a host message keeps the chosen parts of the invariant if and only if it is not a close, or not data, lost between announcement and handle |
| Connection.ActKeepsGood | src/remote/mod.rs:168-199 | every step of a connection's task keeps the invariant, in every choice of parts |
| Connection.EffectOrdered | src/host/mod.rs:319-460 | what a segment makes the host send fits the message order, and its packets the packet order, in every state |
| Connection.FinAckExactly | src/host/mod.rs:328-332 | acknowledging a FIN with payload lands on the right number modulo 2^32 exactly when the FIN is in sequence |
| Promises.EveryEntryIsAwaited | src/remote/mod.rs:168-199 | the invariant with closes not lost implies that each live entry's next remote event is pending |
| Promises.DispatchAwaitsExactly | src/remote/mod.rs:175-179 | handling a host message leaves the next event pending if and only if it is not a close lost between announcement and handle |
| Promises.LostCloseStrands | src/remote/mod.rs:213-217 | such a close leaves the host in FinWait with nothing pending that would end it, before and after the handle is inserted |
| Promises.CloseEndsExactly | src/remote/mod.rs:213-217 | a close that the remote handles ends the connection there if and only if its task has gone beyond dialling and announcing |
| Promises.AbandonedConnectStaysOpen | src/host/mod.rs:310-317 | a connection removed by its app while the task is deaf to the close goes on to be opened at the remote, with no close to come |
| Promises.EveryEndIsShared | src/host/mod.rs:309-316 | the invariant alone implies that no connection ends on one side only |
| Promises.AcceptsExactlyTheNext | src/host/mod.rs:368-408 | in Established a segment of any position is forwarded if and only if it starts where the accepted bytes end, under wraparound; otherwise the entry stays as it was; either way exactly one bare ACK answers it, and the acknowledgment always names the end of what is accepted |
| Promises.FinAccepted | src/host/mod.rs:323-367 | an in-sequence FIN forwards its payload and then TcpClose, is answered by one bare ACK one past it, and leads to FinWait |
| Promises.LateFinAckExactly | src/host/mod.rs:412-442 | in CloseWait the app's FIN segment is answered with its own number plus one: that names the end of the forwarded bytes and one FIN if and only if the segment is in sequence, and covers nothing but forwarded bytes and the FIN if and only if it repeats forwarded bytes, or is in sequence without payload |
| Promises.AppBytesInOrder | src/remote/proxy.rs:30-45 | with data not lost, written bytes are a prefix of forwarded bytes; with the stream continued, these are a prefix of it |
| Promises.DestinationBytesReassemble | src/host/mod.rs:529-558 | the offset of each data packet is the number of payload bytes before it, and the payloads are a prefix of the bytes read from the socket |
| Promises.SegmentLeads | src/host/mod.rs:309-460 | where every segment leads: a reset removes the connection from any state and sends one TcpClose; a FIN leads from Established to FinWait and removes it from CloseWait; an ACK removes it from LastAck; nothing else moves it |
| Promises.SegmentIgnoredExactly | src/host/mod.rs:319-460 | a segment changes nothing if and only if it is no reset and its state, its flags and its lack of data make it one to ignore |
| Promises.MessageLeads | src/host/mod.rs:502-639 | where every remote message leads, and the packet it becomes with all its fields: SYN-ACK, data, FIN, reset |
| Promises.MessagesMeetTheirStages | src/host/mod.rs:559-616 | the next message of a live connection arrives in a state that expects it |
| Promises.EverythingInOrder | src/remote/proxy.rs:22-79 | the invariant implies the three grammars and the packet numbering |
| Promises.RelaySpeaksInOrder | src/remote/proxy.rs:22-79 | whatever its schedule, the relay loop's messages between TcpConnected and its one TcpClosed are data and then at most one error |
| Grammar.HeardMeansShape | src/remote/mod.rs:168-199 | the remote-to-host order in plain terms: a lone TcpError, or TcpConnected, data, at most one TcpError, at most one TcpClosed at the end |
| Grammar.AskedMeansShape | src/host/mod.rs:282-368 | the host-to-remote order in plain terms: TcpConnect, data, at most two TcpClose at the end |
| Grammar.SpokenMeansShape | src/host/mod.rs:502-639 | the packet order in plain terms: one SYN-ACK and only first, or a lone RST; one FIN with only bare ACKs after it; nothing after an RST |
| Grammar.DataStaysNumbered | src/host/mod.rs:536-556 | the chunks of a block of data continue the sequence numbering |
| Endpoint.SegmentRefines | src/host/mod.rs:274-463 | when the forward index agrees, the segment handler on the table is the single-entry reference applied to the entry of its 4-tuple |
| Endpoint.MessageRefines | src/host/mod.rs:502-639 | when the indexes agree, the message handler on the table is the single-entry reference applied to the entry of its id |
| Endpoint.ChunksRefine | src/host/mod.rs:529-557 | the chunk loop emits the reference packets and leaves the sequence number advanced by the whole length modulo 2^32 |
| Endpoint.StaleMessagesAreInert | src/host/nat.rs:81-141 | a message for a closed id changes nothing and emits nothing even if its 4-tuple is open under a new id; one for a live id changes only that id |
| Endpoint.SegmentsAreIsolated | src/host/mod.rs:300-307 | a segment touches only the connection of its 4-tuple and does nothing without one |
| Endpoint.DataPacketsCarryData | src/host/mod.rs:529-557 | chunk payloads are non-empty, at most 65495 bytes and concatenate to the data; every header field is given: numbers 65495 apart modulo 2^32, ACK, window 65535, PSH on the last one alone; every chunk fits both families' length fields |
| Endpoint.UnexpectedCloseCleansUp | src/host/mod.rs:611-615 | a TcpClosed in any other state removes the connection from both indexes and tells nobody |
| Host.HandleOutboundTcp | src/host/mod.rs:274-463 | the handler leaves the table, the message queue and the packet queue that the segment function names, and every packet can be built |
| Host.SendAck | src/host/mod.rs:391-407 | one bare acknowledgment with the stored numbers is queued |
| Host.SendDataChunks | src/host/mod.rs:536-556 | the loop queues the chunk packets and advances the sequence number after each |
| Host.SendFin | src/host/mod.rs:566-607 | the FIN takes the current number, which then advances by one, and the state moves on |
| Host.HandleRemoteTcp | src/host/mod.rs:495-639 | the handler leaves the table and the packet queue that the message function names, sends nothing to the remote, and every packet can be built |
| Host.HandleOutboundUdp | src/host/mod.rs:465-492 | the datagram's sender is found again under its port and its destination while it is younger than 60 seconds, expired mappings are swept, and one message with its fields is queued |
| Host.HandleUdpResponse | src/host/mod.rs:640-668 | a response goes to the mapped sender, or nowhere without a mapping |
| Host.HandleTunPacket | src/host/mod.rs:250-271 | a TUN packet acts as the segment or datagram it parses to; one that is rejected, of another protocol, or ends in the parser's panic changes nothing |
| Nat.NatTable.constructor | src/host/nat.rs:49-56 | an empty table whose first id is 1 |
| Nat.NatTable.CreateTcpConnection | src/host/nat.rs:59-73 | the next id is returned and entered under both indexes in SynSent with seq 1000 and ack one past the client's number |
| Nat.NatTable.GetTcpConnectionId | src/host/nat.rs:76-78 | the id of the live entry under a key, if any |
| Nat.NatTable.GetTcpConnectionKey | src/host/nat.rs:81-83 | the key an id was entered under, if it still is |
| Nat.NatTable.GetTcpState | src/host/nat.rs:86-88 | the state of the live entry under a key, if any |
| Nat.NatTable.SetTcpState | src/host/nat.rs:91-95 | the state changes unconditionally, and only if there is an entry |
| Nat.NatTable.CloseTcpConnection | src/host/nat.rs:98-102 | the entry and the id it carries are removed together |
| Nat.NatTable.GetTcpSeq | src/host/nat.rs:105-110 | the sequence number reached through the id, or 0 |
| Nat.NatTable.GetTcpAck | src/host/nat.rs:113-118 | the acknowledgment number reached through the id, or 0 |
| Nat.NatTable.AdvanceTcpSeq | src/host/nat.rs:121-132 | the sequence number moves on by the given bytes modulo 2^32 |
| Nat.NatTable.UpdateTcpAck | src/host/nat.rs:135-141 | the acknowledgment number is replaced |
| Nat.NatTable.TrackUdp | src/host/nat.rs:144-156 | the mapping is stored with its clock reading and expired ones are swept |
| Nat.NatTable.GetUdpSrcIp | src/host/nat.rs:159-162 | the sender stored for a return key, if any |
| Nat.NatTable.CleanupUdpMappings | src/host/nat.rs:165-171 | exactly the mappings younger than 60 seconds stay |
| Nat.ApplyKeepsForward | src/host/nat.rs:59-102 | every operation keeps each live key's id leading back to that key, duplicates included |
| Nat.IndexLaw | src/host/nat.rs:59-102 | over every operation sequence live ids are distinct and the id index exceeds the key index by the number of creations on live keys |
| Nat.InverseExactly | src/host/nat.rs:66-72 | from the empty table the indexes end as exact inverses if and only if no creation hit a live key |
| UdpReturn.ReplayRemembersLatest | src/host/nat.rs:144-171 | over any log of datagrams a mapping exists exactly when the latest datagram from its port to its peer is less than 60 seconds older than the latest clean-up, and names its sender |
| UdpReturn.AnswersReachTheLatestSender | src/host/mod.rs:640-668 | over any log, an answer becomes a packet from the peer to the latest sender's address and port if and only if that sender is fresh |
| UdpReturn.StrangersAreNotAnswered | src/host/mod.rs:664-666 | an answer to a port and from a peer with no datagram between them becomes nothing |
| UdpReturn.ExchangeComesBack | src/remote/mod.rs:219-247 | a datagram becomes a job for its destination with its bytes, and each of that destination's answers a packet back to its sender's address and port |
| Remote.RemoteProxy.constructor | src/remote/mod.rs:35-43 | no tasks, no handles, no responses, running |
| Remote.RemoteProxy.HandleHostMessage | src/remote/mod.rs:116-161 | each TCP message acts on the task and handle of the id it names and on no other; a datagram or query spawns its exchange; Shutdown clears the running flag |
| Remote.RemoteProxy.HandleTcpConnect | src/remote/mod.rs:163-200 | a task is spawned; the handle map does not change yet |
| Remote.RemoteProxy.HandleTcpData | src/remote/mod.rs:202-211 | data is queued if the handle's receiver is alive; a dead one costs the handle; without a handle data is dropped |
| Remote.RemoteProxy.HandleTcpClose | src/remote/mod.rs:213-217 | the handle is removed, which drops the sender |
| Remote.RemoteProxy.HandleUdpDatagram | src/remote/mod.rs:219-247 | the datagram's exchange is spawned |
| Remote.RemoteProxy.HandleDnsQuery | src/remote/mod.rs:249-255 | the query's exchange is spawned |
| Remote.RemoteProxy.FinishJob | src/remote/mod.rs:228-271 | a finished exchange leaves the jobs and queues its responses, none if the socket failed |
| Remote.JobSays | src/remote/mod.rs:228-271 | a query is answered at most once and under its id; every response to a datagram names the port it came from |
| Remote.RemoteProxy.RunTask | src/remote/mod.rs:168-199 | one step of one task: its state, its handle and what it sends |
| Remote.TakeTurn | src/remote/proxy.rs:28-75 | one turn of the relay loop is the turn function on its local variables |
| Remote.HandleTcpConnection | src/remote/proxy.rs:12-80 | over any schedule the loop ends where the relay function does, and always with one TcpClosed |
| Remote.RelayExactly | src/remote/proxy.rs:22-76 | over any schedule the loop reads, writes and reports exactly what the schedule calls for, a failing write in part, and ends with exactly the event that breaks it |
| Remote.RelayWritesPrefix | src/remote/proxy.rs:30-45 | over any schedule the socket receives a prefix of what was queued before the sender dropped |
| Remote.StepKeepsReach | src/remote/proxy.rs:30-45 | a step writes only from the front of the queue |
| Framing.ByteStream.ReadExact | src/protocol.rs:116-119 | a buffer is filled from the front, or the stream is drained and end of file reported |
| Framing.ReadMessage | src/protocol.rs:107-138 | one read returns what the frame function says and consumes what it says, in all five outcomes |
| Framing.WriteMessage | src/protocol.rs:141-155 | one frame is appended, or nothing if the length does not fit the prefix |
| Framing.ReadLoop | src/host/mod.rs:140-152 | the reader task returns the messages up to the first outcome that is not one |
| Framing.StreamRoundTrip | src/protocol.rs:107-155 | reading the concatenated frames returns exactly the messages and a clean end, if and only if every body is within 16 MiB |
| Framing.StreamStops | src/protocol.rs:123-137 | the reader hands over exactly the messages before the first frame over 16 MiB or that does not decode, and says which of the two it was |
| Framing.CutStream | src/protocol.rs:116-131 | any cut yields the whole frames before it, then a clean end at a boundary or inside a prefix, and an error inside a body |
| Framing.CutAccounts | src/protocol.rs:141-155 | a cut is exactly its whole frames plus an incomplete part of the next |
| Framing.HostStreamIsFifo | src/protocol.rs:107-155 | host messages below the cap cross the stream as the list they were, and any cut as a prefix |
| Framing.RemoteStreamIsFifo | src/protocol.rs:107-155 | remote messages below the cap cross the stream as the list they were, and any cut as a prefix |
| Transport.QueuesCrossTheTunnel | src/protocol.rs:123-125 | in every reachable world all queued messages stay below the reader's cap, TCP data without any assumption, so both queues cross the byte stream intact |
| Codec.HostRoundTrip | src/protocol.rs:8-53 | decoding an encoded host message returns it, whatever follows |
| Codec.RemoteRoundTrip | src/protocol.rs:56-104 | decoding an encoded remote message returns it, whatever follows |
| Codec.HostSize | src/protocol.rs:123-125 | an encoded host message is at most 34 bytes longer than its data |
| Codec.RemoteSize | src/protocol.rs:123-125 | an encoded remote message is at most 34 bytes longer than its data or text |
| Codec.NumbersFitExactly | src/protocol.rs:136 | a varint is taken for a u16 or a u32 if and only if its number fits |
| Codec.CutHostMessageIsRejected | src/protocol.rs:136 | an encoded host message that lost any bytes at its end does not decode |
| Codec.CutRemoteMessageIsRejected | src/protocol.rs:136 | an encoded remote message that lost any bytes at its end does not decode |
| Codec.UnknownVariantsAreRejected | src/protocol.rs:136 | a variant number beyond the enum does not decode |
| Codec.KnownHostMessages | src/protocol.rs:8-53 | the bytes of a host message of the other variants, fixing variant numbers, field order and varint order |
| Codec.KnownDatagrams | src/protocol.rs:31-40 | the bytes of a datagram to, and of a response from, any IPv4 address |
| Codec.KnownQuery | src/protocol.rs:42-49 | the bytes of a query to any IPv6 server |
| Codec.KnownRemoteMessages | src/protocol.rs:56-104 | the bytes of a remote message of the other variants |
| Packets.BuildTcp | src/packet.rs:170-203 | the builder writes the header and payload bytes, flags switched on one by one |
| Packets.BuildUdp | src/packet.rs:216-234 | the bytes written parse back to the packet, whatever follows them |
| Packets.Ipv4Parses | src/packet.rs:63-80 | any IPv4 packet with any header length parses to the transport segment within its total length, with the header's protocol and addresses |
| Packets.Ipv6Parses | src/packet.rs:82-100 | any IPv6 packet parses to what the walk over extension headers leaves of its payload, with the header's addresses |
| Packets.OnlyIpParses | src/packet.rs:50-100 | nothing but these two kinds of packets parses |
| Packets.TcpHeadParses | src/packet.rs:108-136 | a TCP header of any length and any payload parse to the fields at their octets, most significant first, and to exactly that payload |
| Packets.TcpParsesExactly | src/packet.rs:108-136 | a TCP segment parses if and only if it is a header of the length it announces and a payload |
| Packets.OptionsAreSkipped | src/packet.rs:114-116 | in both families the payload of a TCP segment is what follows its options, whatever these hold |
| Packets.UdpParsesExactly | src/packet.rs:137-151 | a UDP datagram parses if and only if it has eight octets, to its ports and all that follows |
| Packets.TcpIsLaidOut | src/packet.rs:170-203 | every octet of a built TCP packet that a receiver reads: lengths, time to live 64, protocol 6, addresses, ports, numbers, five flags, window, payload |
| Packets.UdpIsLaidOut | src/packet.rs:216-234 | the same for a built UDP packet, with its length field |
| Packets.TcpRoundTrip | src/packet.rs:50-135 | parsing a built TCP packet of either family returns every field, the acknowledgment only with its flag, whatever bytes follow |
| Packets.UdpRoundTrip | src/packet.rs:50-151 | parsing a built UDP packet of either family returns every field, whatever bytes follow |
| Packets.Ipv4TailIgnored | src/packet.rs:73-77 | bytes past the announced total length change nothing for any IPv4 packet |
| Packets.ParsedFitsU16 | src/packet.rs:63-135 | every parsed segment or datagram has one address family, and a segment's payload is below 65535 bytes, so its length never saturates |
| Packets.ParsePanicsExactly | src/packet.rs:72-77 | the parser panics on exactly the IPv4 packets whose total length is below their header length |
| Dns.DnsState.constructor | src/host/dns.rs:73-80 | nothing pending, first id 0 |
| Dns.DnsState.HandleQuery | src/host/dns.rs:84-106 | the query gets the next id, its sender is remembered unless the channel is closed |
| Dns.DnsState.HandleResponse | src/host/dns.rs:109-122 | a pending id is answered to its sender and forgotten; another id does nothing |
| Dns.FirstResponseIsTaken | src/host/dns.rs:109-122 | a query that was sent is answered by the first response to its id, with that response's data, whatever happens in between |
| Dns.EveryQueryIsAccountedFor | src/host/dns.rs:84-122 | over any interleaving every reply goes to the sender of its id with the data of a response to it, none twice, and queries = issued = answered + pending + failed |
| Dns.ResponseBalances | src/host/dns.rs:109-122 | an unknown or repeated id changes nothing, and a known one keeps the balance |
| Findings.DuplicateSynOrphans | src/host/nat.rs:69-70 | a SYN on a live 4-tuple leaves the old id leading to the new connection's entry |
| Findings.OrphanActsOnSuccessor | src/host/mod.rs:617-639 | an error of the old connection then resets and removes the new one |
| Findings.RacedDataVanishes | src/remote/mod.rs:175-179 | data handled between announcement and handle leaves no trace in the task |
| Findings.RacedDataBreaksStream | src/remote/mod.rs:202-211 | the data after it is then written first, and the destination's bytes are no prefix of the app's |
| Findings.DataRaceIsReachable | src/remote/mod.rs:175-179 | a run that meets every hypothesis leads to a connection with data queued in that gap |
| Findings.CloseRaceIsReachable | src/remote/mod.rs:175-179 | a run that meets every hypothesis leads to a connection with a close queued in that gap |
| Findings.AbandonmentIsReachable | src/host/mod.rs:310-317 | a run that meets every hypothesis leads to a connection that its app reset, the host has forgotten and the remote keeps open |
| Findings.FinOutOfSequence | src/host/mod.rs:323-342 | a FIN in Established forwards its payload in any case, and its acknowledgment names the bytes accepted if and only if it is in sequence |
| Findings.HalfClosedDataIsAcknowledged | src/host/mod.rs:412-442 | data sent after the destination closed is dropped, and acknowledged as if accepted by the answer to the bare FIN behind it |

## Left out

- TUN device, routing, resolvectl, SSH, command line and logging: plumbing over libraries.
- Bounded channels and back-pressure: channels are unbounded FIFO sequences, so no freedom from deadlock is claimed.
- Liveness: nothing says that a scheduler or a network ever moves; pending events are shown to be pending, not to happen.
- End of a session: SSH disconnect, read errors, ctrl-c and `Shutdown` end a run. The relay loop's check of the `running` flag is a step that any task may take at any time; the failure of a closed channel is not modelled.
- Id wrap: ids are assumed not to wrap, so two tasks never share one id, and DNS ids do not repeat.
- Sockets: a read returns any non-empty block of at most 65536 bytes, a write takes all of a block or some of it and fails.
- Codec.HostRoundTrip: a vector is assumed shorter than 2^64 bytes, as every Vec is.
- Codec.RemoteRoundTrip: error texts are octets; their UTF-8 check is not modelled.
- Packets.BuildTcp: checksums and the IPv4 identification and fragment words are arbitrary octets supplied by the caller, since the proxy never reads them.
- Packets.TcpRoundTrip: the walk over IPv6 extension headers is a parameter, assumed to leave a transport header where it is.
- UDP and DNS sockets of the remote: what an exchange receives, or that it fails, is a parameter; their five-second timeout is not modelled, and in a run of the whole tunnel their messages are arbitrary.
- Retransmission, windows and MTU: the code implements none of them.
