/** The remote proxy: the handle map, and one task per connection. */
module Remote {
  import opened Base
  import opened Messages

  /** Where a connection's task is. `Closing` has left the relay loop and is about to
      announce the close; `Closed` has announced it and is about to drop its handle. */
  datatype Phase =
    | Idle
    | Connecting
    | Announced
    | Relaying
    | Closing(erred: bool)
    | Closed
    | Gone
    | Failed

  datatype Peer = Peer(ip: IpAddr, port: u16)

  /** A task, the queue of data its handle feeds, what has been written to its socket and
      read from it, and the address that socket was connected to. */
  datatype Task = Task(phase: Phase, inbox: seq<seq<byte>>, written: seq<byte>, read: seq<byte>, peer: Option<Peer>)

  const NoTask := Task(Idle, [], [], [], None)

  /** One step of a task; which one happens is up to the network and the scheduler. */
  datatype TaskEvent =
    | ConnectOk
    | ConnectFails(error: seq<byte>)
    | InsertHandle
    | WriteOk
    | WriteFails(accepted: nat, error: seq<byte>)  // the socket took only some bytes
    | InboxEnds
    | ReadSome(data: seq<byte>)
    | ReadEof
    | ReadFails(error: seq<byte>)
    | Stopped                                      // the proxy is no longer running
    | AnnounceClose
    | RemoveHandle

  const READ_BUFFER := 65536

  datatype TaskResult = TaskResult(task: Task, handle: bool, responses: seq<RemoteMessage>)

  /** Whether a step can happen: `handle` says that the sender side of the inbox is alive. */
  predicate CanStep(task: Task, handle: bool, ev: TaskEvent) {
    match ev
    case ConnectOk => task.phase == Connecting
    case ConnectFails(_) => task.phase == Connecting
    case InsertHandle => task.phase == Announced
    case WriteOk => task.phase == Relaying && task.inbox != []
    case WriteFails(accepted, _) => task.phase == Relaying && task.inbox != [] && accepted <= |task.inbox[0]|
    case InboxEnds => task.phase == Relaying && task.inbox == [] && !handle
    case ReadSome(data) => task.phase == Relaying && 0 < |data| <= READ_BUFFER
    case ReadEof => task.phase == Relaying
    case ReadFails(_) => task.phase == Relaying
    case Stopped => task.phase == Relaying
    case AnnounceClose => task.phase.Closing?
    case RemoveHandle => task.phase == Closed
  }

  function Step(id: u32, task: Task, handle: bool, ev: TaskEvent): TaskResult
    requires CanStep(task, handle, ev)
  {
    match ev
    case ConnectOk => TaskResult(task.(phase := Announced), handle, [TcpConnected(id)])
    case ConnectFails(error) => TaskResult(task.(phase := Failed), handle, [TcpError(id, error)])
    case InsertHandle => TaskResult(task.(phase := Relaying), true, [])
    case WriteOk =>
      TaskResult(task.(inbox := task.inbox[1..], written := task.written + task.inbox[0]), handle, [])
    case WriteFails(accepted, error) =>
      var written := task.written + task.inbox[0][..accepted];
      TaskResult(task.(phase := Closing(true), inbox := task.inbox[1..], written := written),
                 handle, [TcpError(id, error)])
    case InboxEnds => TaskResult(task.(phase := Closing(false)), handle, [])
    case ReadSome(data) => TaskResult(task.(read := task.read + data), handle, [TcpReceived(id, data)])
    case ReadEof => TaskResult(task.(phase := Closing(false)), handle, [])
    case ReadFails(error) => TaskResult(task.(phase := Closing(true)), handle, [TcpError(id, error)])
    case Stopped => TaskResult(task.(phase := Closing(false)), handle, [])
    case AnnounceClose => TaskResult(task.(phase := Closed), handle, [TcpClosed(id)])
    case RemoveHandle => TaskResult(task.(phase := Gone), false, [])
  }

  /** What a message from the host does to its connection's task and handle. Data for a
      connection without a handle is dropped; data sent to a finished task fails, and the
      handle goes. */
  function Deliver(task: Task, handle: bool, m: HostMessage): (Task, bool) {
    match m
    case TcpConnect(_, dstIp, dstPort) => (Task(Connecting, [], [], [], Some(Peer(dstIp, dstPort))), handle)
    case TcpData(_, data) =>
      if !handle then (task, handle)
      else if task.phase == Relaying || task.phase.Closing? then (task.(inbox := task.inbox + [data]), handle)
      else (task, false)
    case TcpClose(_) => (task, false)
    case _ => (task, handle)
  }

  // ---------------------------------------------------------------- datagrams and queries

  /** A spawned exchange over a UDP socket: a datagram of an app, or a DNS query. */
  datatype Job =
    | SendDatagram(srcPort: u16, to: Peer, data: seq<byte>)
    | Resolve(id: u32, server: IpAddr, data: seq<byte>)

  /** What the socket received within its timeout. */
  datatype Arrival = Arrival(source: Peer, data: seq<byte>)

  /** What a job says once its exchange is over: nothing if the socket failed, one response
      for each datagram received, and for a query the last of them. */
  function JobSays(job: Job, received: Option<seq<Arrival>>): (ms: seq<RemoteMessage>)
    ensures job.Resolve? ==> |ms| <= 1 && forall m :: m in ms ==> m.DnsResponse? && m.id == job.id
    ensures job.SendDatagram? ==> forall m :: m in ms ==> m.UdpResponse? && m.dstPort == job.srcPort
  {
    match received
    case None => []
    case Some(rs) =>
      match job
      case SendDatagram(srcPort, _, _) => Responses(srcPort, rs)
      case Resolve(id, _, _) => if rs == [] then [] else [DnsResponse(id, rs[|rs| - 1].data)]
  }

  function Responses(srcPort: u16, rs: seq<Arrival>): (ms: seq<RemoteMessage>)
    ensures |ms| == |rs| && forall i :: 0 <= i < |rs| ==>
      ms[i] == UdpResponse(srcPort, rs[i].source.ip, rs[i].source.port, rs[i].data)
  {
    if rs == [] then []
    else
      var last := rs[|rs| - 1];
      Responses(srcPort, rs[..|rs| - 1]) + [UdpResponse(srcPort, last.source.ip, last.source.port, last.data)]
  }

  // ------------------------------------------------------------------- the proxy object

  /** The tasks spawned so far and the ids in the handle map. A task inserts only its own
      channel under its own id, so an id stands for its handle. */
  datatype Proxy = Proxy(tasks: map<u32, Task>, handles: set<u32>)

  function TaskOf(p: Proxy, id: u32): Task {
    if id in p.tasks then p.tasks[id] else NoTask
  }

  function Put(p: Proxy, id: u32, task: Task, handle: bool): Proxy {
    Proxy(p.tasks[id := task], if handle then p.handles + {id} else p.handles - {id})
  }

  function OnHostMessage(p: Proxy, m: HostMessage): Proxy {
    if HostTag(m) < 0 then p
    else
      var (task, handle) := Deliver(TaskOf(p, m.id), m.id in p.handles, m);
      Put(p, m.id, task, handle)
  }

  /** The job a message from the host asks for, if any. */
  function JobsOf(m: HostMessage): seq<Job> {
    match m
    case UdpDatagram(srcPort, dstIp, dstPort, data) => [SendDatagram(srcPort, Peer(dstIp, dstPort), data)]
    case DnsQuery(id, server, data) => [Resolve(id, server, data)]
    case _ => []
  }

  lemma PutIsLocal(p: Proxy, id: u32, task: Task, handle: bool, other: u32)
    ensures var q := Put(p, id, task, handle);
      && TaskOf(q, other) == (if other == id then task else TaskOf(p, other))
      && (other in q.handles) == (if other == id then handle else other in p.handles)
  {
  }

  class RemoteProxy {
    var tasks: map<u32, Task>
    var tcpConnections: set<u32>
    var jobs: seq<Job>
    var responses: seq<RemoteMessage>
    var running: bool

    function View(): Proxy
      reads this
    {
      Proxy(tasks, tcpConnections)
    }

    constructor ()
      ensures View() == Proxy(map[], {}) && jobs == [] && responses == [] && running
    {
      tasks, tcpConnections, jobs, responses, running := map[], {}, [], [], true;
    }

    /** The channel end of a connection lives as long as its relay loop does. */
    predicate ReceiverAlive(id: u32)
      reads this
    {
      id in tasks && (tasks[id].phase == Relaying || tasks[id].phase.Closing?)
    }

    method HandleHostMessage(m: HostMessage)
      modifies this
      ensures forall id :: TaskOf(View(), id) == TaskOf(OnHostMessage(old(View()), m), id)
      ensures tcpConnections == OnHostMessage(old(View()), m).handles
      ensures jobs == old(jobs) + JobsOf(m)
      ensures m.UdpDatagram? ==> jobs == old(jobs) + [SendDatagram(m.srcPort, Peer(m.dstIp, m.dstPort), m.data)]
      ensures m.DnsQuery? ==> jobs == old(jobs) + [Resolve(m.id, m.server, m.data)]
      ensures responses == old(responses) && running == (old(running) && m != Shutdown)
    {
      match m
      case TcpConnect(id, dstIp, dstPort) => HandleTcpConnect(id, dstIp, dstPort);
      case TcpData(id, data) => HandleTcpData(id, data);
      case TcpClose(id) => HandleTcpClose(id);
      case UdpDatagram(srcPort, dstIp, dstPort, data) => HandleUdpDatagram(srcPort, dstIp, dstPort, data);
      case DnsQuery(id, server, data) => HandleDnsQuery(id, server, data);
      case Shutdown => running := false;
    }

    method HandleUdpDatagram(srcPort: u16, dstIp: IpAddr, dstPort: u16, data: seq<byte>)
      modifies this`jobs
      ensures jobs == old(jobs) + [SendDatagram(srcPort, Peer(dstIp, dstPort), data)]
    {
      jobs := jobs + [SendDatagram(srcPort, Peer(dstIp, dstPort), data)];
    }

    method HandleDnsQuery(id: u32, server: IpAddr, data: seq<byte>)
      modifies this`jobs
      ensures jobs == old(jobs) + [Resolve(id, server, data)]
    {
      jobs := jobs + [Resolve(id, server, data)];
    }

    /** Ends one job with what its socket received, or None if the socket failed. */
    method FinishJob(i: nat, received: Option<seq<Arrival>>)
      requires i < |jobs|
      modifies this`jobs, this`responses
      ensures jobs == old(jobs)[..i] + old(jobs)[i + 1..]
      ensures responses == old(responses) + JobSays(old(jobs)[i], received)
      ensures received.None? ==> responses == old(responses)
      ensures received.Some? && old(jobs)[i].SendDatagram? ==>
        && |responses| == |old(responses)| + |received.value|
        && forall k :: 0 <= k < |received.value| ==>
             responses[|old(responses)| + k] == UdpResponse(old(jobs)[i].srcPort, received.value[k].source.ip,
                                                            received.value[k].source.port, received.value[k].data)
      ensures received.Some? && old(jobs)[i].Resolve? ==>
        responses == old(responses)
          + if received.value == [] then []
            else [DnsResponse(old(jobs)[i].id, received.value[|received.value| - 1].data)]
    {
      var job := jobs[i];
      jobs := jobs[..i] + jobs[i + 1..];
      if received.None? {
        return;
      }
      var rs := received.value;
      match job
      case SendDatagram(srcPort, _, _) =>
        for k := 0 to |rs|
          invariant jobs == old(jobs)[..i] + old(jobs)[i + 1..]
          invariant responses == old(responses) + Responses(srcPort, rs[..k])
        {
          assert rs[..k + 1][..k] == rs[..k];
          responses := responses + [UdpResponse(srcPort, rs[k].source.ip, rs[k].source.port, rs[k].data)];
        }
        assert rs[..|rs|] == rs;
      case Resolve(id, _, _) =>
        if rs != [] {
          responses := responses + [DnsResponse(id, rs[|rs| - 1].data)];
        }
    }

    /** Spawns the connection's task. */
    method HandleTcpConnect(id: u32, dstIp: IpAddr, dstPort: u16)
      modifies this`tasks
      ensures tasks == old(tasks)[id := Task(Connecting, [], [], [], Some(Peer(dstIp, dstPort)))]
    {
      tasks := tasks[id := Task(Connecting, [], [], [], Some(Peer(dstIp, dstPort)))];
    }

    method HandleTcpData(id: u32, data: seq<byte>)
      modifies this`tasks, this`tcpConnections
      ensures id in old(tcpConnections) && old(ReceiverAlive(id)) ==>
        && tasks == old(tasks)[id := old(tasks)[id].(inbox := old(tasks)[id].inbox + [data])]
        && tcpConnections == old(tcpConnections)
      ensures !(id in old(tcpConnections) && old(ReceiverAlive(id))) ==>
        tasks == old(tasks) && tcpConnections == old(tcpConnections) - {id}
    {
      if id in tcpConnections {
        if ReceiverAlive(id) {
          tasks := tasks[id := tasks[id].(inbox := tasks[id].inbox + [data])];
        } else {
          tcpConnections := tcpConnections - {id};
        }
      }
    }

    method HandleTcpClose(id: u32)
      modifies this`tcpConnections
      ensures tcpConnections == old(tcpConnections) - {id}
    {
      tcpConnections := tcpConnections - {id};
    }

    /** Lets one task run for one step. */
    method RunTask(id: u32, ev: TaskEvent)
      requires CanStep(TaskOf(View(), id), id in tcpConnections, ev)
      modifies this`tasks, this`tcpConnections, this`responses
      ensures var r := Step(id, TaskOf(old(View()), id), id in old(tcpConnections), ev);
        && View() == Put(old(View()), id, r.task, r.handle)
        && responses == old(responses) + r.responses
      ensures ev.ConnectFails? ==> responses == old(responses) + [TcpError(id, ev.error)]
      ensures ev.ReadSome? ==>
        responses == old(responses) + [TcpReceived(id, ev.data)] && tasks[id].read == old(tasks)[id].read + ev.data
    {
      var task := tasks[id];
      match ev
      case ConnectOk =>
        Say(TcpConnected(id));
        tasks := tasks[id := task.(phase := Announced)];
      case ConnectFails(error) =>
        Say(TcpError(id, error));
        tasks := tasks[id := task.(phase := Failed)];
      case InsertHandle =>
        tcpConnections := tcpConnections + {id};
        tasks := tasks[id := task.(phase := Relaying)];
      case WriteOk =>
        tasks := tasks[id := task.(inbox := task.inbox[1..], written := task.written + task.inbox[0])];
      case WriteFails(accepted, error) =>
        Say(TcpError(id, error));
        var written := task.written + task.inbox[0][..accepted];
        tasks := tasks[id := task.(phase := Closing(true), inbox := task.inbox[1..], written := written)];
      case ReadSome(data) =>
        Say(TcpReceived(id, data));
        tasks := tasks[id := task.(read := task.read + data)];
      case ReadFails(error) =>
        Say(TcpError(id, error));
        tasks := tasks[id := task.(phase := Closing(true))];
      case AnnounceClose =>
        Say(TcpClosed(id));
        tasks := tasks[id := task.(phase := Closed)];
      case RemoveHandle =>
        tcpConnections := tcpConnections - {id};
        tasks := tasks[id := task.(phase := Gone)];
      case _ =>
        tasks := tasks[id := task.(phase := Closing(false))];
      assert tcpConnections == Put(old(View()), id, task, id in tcpConnections).handles;
    }

    method Say(m: RemoteMessage)
      modifies this`responses
      ensures responses == old(responses) + [m]
    {
      responses := responses + [m];
    }
  }

  // --------------------------------------------------------------- the relay loop

  /** What one turn of the relay loop finds. Between two turns the host side may queue
      data or drop the sender; each turn then takes one ready branch. */
  datatype Poll =
    | Arrives(data: seq<byte>)
    | SenderDrops
    | Branch(ev: TaskEvent)

  predicate IsLoopEvent(ev: TaskEvent) {
    ev.WriteOk? || ev.WriteFails? || ev.InboxEnds? || ev.ReadSome? || ev.ReadEof? || ev.ReadFails?
    || ev.Stopped?
  }

  /** One turn. A branch that is not ready does nothing. */
  function Turn(id: u32, task: Task, handle: bool, poll: Poll): TaskResult
    requires task.phase == Relaying
  {
    match poll
    case Arrives(data) =>
      var (t, h) := Deliver(task, handle, TcpData(id, data));
      TaskResult(t, h, [])
    case SenderDrops => TaskResult(task, false, [])
    case Branch(ev) =>
      if IsLoopEvent(ev) && CanStep(task, handle, ev) then Step(id, task, handle, ev)
      else TaskResult(task, handle, [])
  }

  /** The loop over a schedule: it stops at the first branch that breaks. */
  function Relay(id: u32, task: Task, handle: bool, polls: seq<Poll>): TaskResult
    decreases |polls|
  {
    if polls == [] || task.phase != Relaying then TaskResult(task, handle, [])
    else
      var r := Turn(id, task, handle, polls[0]);
      var rest := Relay(id, r.task, r.handle, polls[1..]);
      TaskResult(rest.task, rest.handle, r.responses + rest.responses)
  }

  /** The rest of the loop, from what it has reached. */
  function After(id: u32, now: TaskResult, polls: seq<Poll>): TaskResult {
    var rest := Relay(id, now.task, now.handle, polls);
    TaskResult(rest.task, rest.handle, now.responses + rest.responses)
  }

  lemma AfterTurn(id: u32, now: TaskResult, polls: seq<Poll>, next: nat)
    requires next < |polls| && now.task.phase == Relaying
    ensures var r := Turn(id, now.task, now.handle, polls[next]);
      After(id, now, polls[next..])
        == After(id, TaskResult(r.task, r.handle, now.responses + r.responses), polls[next + 1..])
  {
    assert polls[next..][0] == polls[next] && polls[next..][1..] == polls[next + 1..];
    var r := Turn(id, now.task, now.handle, polls[next]);
    var rest := Relay(id, r.task, r.handle, polls[next + 1..]);
    assert now.responses + (r.responses + rest.responses) == (now.responses + r.responses) + rest.responses;
  }

  /** One turn of the loop, on its local variables. */
  method TakeTurn(id: u32, peer: Option<Peer>, inbox: seq<seq<byte>>, written: seq<byte>, read: seq<byte>,
                  senderAlive: bool, poll: Poll)
    returns (inbox': seq<seq<byte>>, written': seq<byte>, read': seq<byte>, senderAlive': bool,
             said: seq<RemoteMessage>, breaks: bool, erred: bool)
    ensures var phase := if breaks then Closing(erred) else Relaying;
      TaskResult(Task(phase, inbox', written', read', peer), senderAlive', said)
         == Turn(id, Task(Relaying, inbox, written, read, peer), senderAlive, poll)
  {
    inbox', written', read', senderAlive' := inbox, written, read, senderAlive;
    said, breaks, erred := [], false, false;
    match poll
    case Arrives(data) =>
      if senderAlive {
        inbox' := inbox + [data];
      }
    case SenderDrops =>
      senderAlive' := false;
    case Branch(WriteOk) =>
      if inbox != [] {
        written', inbox' := written + inbox[0], inbox[1..];
      }
    case Branch(WriteFails(accepted, error)) =>
      if inbox != [] && accepted <= |inbox[0]| {
        written', inbox' := written + inbox[0][..accepted], inbox[1..];
        said, breaks, erred := [TcpError(id, error)], true, true;
      }
    case Branch(InboxEnds) =>
      breaks := inbox == [] && !senderAlive;
    case Branch(ReadSome(data)) =>
      if 0 < |data| <= READ_BUFFER {
        read', said := read + data, [TcpReceived(id, data)];
      }
    case Branch(ReadEof) =>
      breaks := true;
    case Branch(Stopped) =>
      breaks := true;
    case Branch(ReadFails(error)) =>
      said, breaks, erred := [TcpError(id, error)], true, true;
    case _ =>
  }

  /** The body of a connection's task after its handle is in place. `schedule` stands for
      the environment; a schedule that never breaks leaves the loop still running. */
  method HandleTcpConnection(id: u32, peer: Option<Peer>, schedule: seq<Poll>)
    returns (inbox: seq<seq<byte>>, written: seq<byte>, read: seq<byte>, responses: seq<RemoteMessage>, done: bool)
    ensures var r := Relay(id, Task(Relaying, [], [], [], peer), true, schedule);
      && inbox == r.task.inbox && written == r.task.written && read == r.task.read
      && done == (r.task.phase != Relaying)
      && responses == r.responses + (if done then [TcpClosed(id)] else [])
  {
    inbox, written, read, responses, done := [], [], [], [], false;
    var senderAlive, erred, next := true, false, 0;
    ghost var goal := Relay(id, Task(Relaying, [], [], [], peer), true, schedule);
    ghost var now := TaskResult(Task(Relaying, [], [], [], peer), true, []);
    assert schedule[0..] == schedule;
    while next < |schedule| && !done
      invariant next <= |schedule|
      invariant now == TaskResult(Task(if done then Closing(erred) else Relaying, inbox, written, read, peer),
                                  senderAlive, responses)
      invariant After(id, now, schedule[next..]) == goal
    {
      AfterTurn(id, now, schedule, next);
      var said;
      inbox, written, read, senderAlive, said, done, erred :=
        TakeTurn(id, peer, inbox, written, read, senderAlive, schedule[next]);
      responses := responses + said;
      next := next + 1;
      now := TaskResult(Task(if done then Closing(erred) else Relaying, inbox, written, read, peer),
                        senderAlive, responses);
    }
    assert After(id, now, schedule[next..]) == now;
    if done {
      responses := responses + [TcpClosed(id)];
    }
  }

  // --------------------------------------------- the loop, from its schedule alone

  /** Whether a poll ends the loop, given the blocks queued and whether the sender lives. */
  predicate Breaks(queue: seq<seq<byte>>, alive: bool, poll: Poll) {
    match poll
    case Branch(WriteFails(accepted, _)) => queue != [] && accepted <= |queue[0]|
    case Branch(InboxEnds) => queue == [] && !alive
    case Branch(ReadEof) => true
    case Branch(ReadFails(_)) => true
    case Branch(Stopped) => true
    case _ => false
  }

  /** The blocks queued after a poll that does not end the loop. */
  function QueuedAfter(queue: seq<seq<byte>>, alive: bool, poll: Poll): seq<seq<byte>> {
    match poll
    case Arrives(data) => if alive then queue + [data] else queue
    case Branch(WriteOk) => if queue == [] then [] else queue[1..]
    case _ => queue
  }

  /** What one poll reads, writes and reports; a read returns 1 to 65536 bytes, and a write
      that fails may have written part of its block. */
  function ReadBy(poll: Poll): seq<byte> {
    match poll
    case Branch(ReadSome(data)) => if 0 < |data| <= 65536 then data else []
    case _ => []
  }

  function WrittenBy(queue: seq<seq<byte>>, poll: Poll): seq<byte> {
    match poll
    case Branch(WriteOk) => if queue == [] then [] else queue[0]
    case Branch(WriteFails(accepted, _)) => if queue != [] && accepted <= |queue[0]| then queue[0][..accepted] else []
    case _ => []
  }

  function ReportedBy(id: u32, queue: seq<seq<byte>>, poll: Poll): seq<RemoteMessage> {
    match poll
    case Branch(ReadSome(data)) => if 0 < |data| <= 65536 then [TcpReceived(id, data)] else []
    case Branch(WriteFails(accepted, error)) =>
      if queue != [] && accepted <= |queue[0]| then [TcpError(id, error)] else []
    case Branch(ReadFails(error)) => [TcpError(id, error)]
    case _ => []
  }

  /** Everything up to and including the poll that ends the loop. */
  datatype Account = Account(read: seq<byte>, written: seq<byte>, reports: seq<RemoteMessage>, last: Option<Poll>)

  function Tally(id: u32, queue: seq<seq<byte>>, alive: bool, polls: seq<Poll>): Account
    decreases |polls|
  {
    if polls == [] then Account([], [], [], None)
    else
      var rest := if Breaks(queue, alive, polls[0]) then Account([], [], [], Some(polls[0]))
                  else Tally(id, QueuedAfter(queue, alive, polls[0]), alive && !polls[0].SenderDrops?, polls[1..]);
      Account(ReadBy(polls[0]) + rest.read, WrittenBy(queue, polls[0]) + rest.written,
              ReportedBy(id, queue, polls[0]) + rest.reports, rest.last)
  }

  /** What one poll adds to each account. */
  lemma TurnAdds(id: u32, task: Task, handle: bool, poll: Poll)
    requires task.phase == Relaying
    ensures var t := Turn(id, task, handle, poll);
      && t.task.read == task.read + ReadBy(poll)
      && t.task.written == task.written + WrittenBy(task.inbox, poll)
      && t.responses == ReportedBy(id, task.inbox, poll)
      && (t.task.phase == Relaying <==> !Breaks(task.inbox, handle, poll))
      && (t.task.phase == Relaying ==>
            t.task.inbox == QueuedAfter(task.inbox, handle, poll) && t.handle == (handle && !poll.SenderDrops?))
      && (t.task.phase != Relaying ==> t.task.phase == Closing(t.responses != []))
  {
  }

  /** A turn, then the rest of the loop. */
  lemma RelayUnfolds(id: u32, task: Task, handle: bool, polls: seq<Poll>) returns (t: TaskResult, rest: TaskResult)
    requires task.phase == Relaying && polls != []
    ensures t.task.read == task.read + ReadBy(polls[0])
    ensures t.task.written == task.written + WrittenBy(task.inbox, polls[0])
    ensures t.responses == ReportedBy(id, task.inbox, polls[0])
    ensures t.task.phase == Relaying <==> !Breaks(task.inbox, handle, polls[0])
    ensures t.task.phase == Relaying ==>
      t.task.inbox == QueuedAfter(task.inbox, handle, polls[0]) && t.handle == (handle && !polls[0].SenderDrops?)
    ensures rest == Relay(id, t.task, t.handle, polls[1..])
    ensures t.task.phase != Relaying ==> rest == TaskResult(t.task, t.handle, [])
    ensures var r := Relay(id, task, handle, polls);
      r.task == rest.task && r.responses == t.responses + rest.responses
  {
    TurnAdds(id, task, handle, polls[0]);
    t := Turn(id, task, handle, polls[0]);
    rest := Relay(id, t.task, t.handle, polls[1..]);
  }

  /** A result of the loop and an account of its schedule say the same. */
  predicate Meets(task: Task, r: TaskResult, a: Account) {
    && r.task.read == task.read + a.read && r.task.written == task.written + a.written
    && r.responses == a.reports
    && (r.task.phase == Relaying <==> a.last == None)
  }

  lemma MeetsMore(task: Task, t: TaskResult, rest: TaskResult, read: seq<byte>, written: seq<byte>, a: Account)
    requires t.task.read == task.read + read && t.task.written == task.written + written
    requires Meets(t.task, rest, a)
    ensures Meets(task, TaskResult(rest.task, rest.handle, t.responses + rest.responses),
                  Account(read + a.read, written + a.written, t.responses + a.reports, a.last))
  {
    assert (task.read + read) + a.read == task.read + (read + a.read);
    assert (task.written + written) + a.written == task.written + (written + a.written);
  }

  /** Over any schedule the loop reads, writes and reports exactly what the schedule calls
      for, and ends exactly with the poll that breaks it. */
  lemma {:induction false} RelayExactly(id: u32, task: Task, handle: bool, polls: seq<Poll>)
    requires task.phase == Relaying
    ensures Meets(task, Relay(id, task, handle, polls), Tally(id, task.inbox, handle, polls))
    decreases |polls|
  {
    if polls != [] {
      var t, rest := RelayUnfolds(id, task, handle, polls);
      var a := Account([], [], [], Some(polls[0]));
      if t.task.phase == Relaying {
        RelayExactly(id, t.task, t.handle, polls[1..]);
        a := Tally(id, t.task.inbox, t.handle, polls[1..]);
      }
      MeetsMore(task, t, rest, ReadBy(polls[0]), WrittenBy(task.inbox, polls[0]), a);
    }
  }

  /** What a schedule queued while the sender was alive, up to the point where it dropped. */
  function Queued(polls: seq<Poll>): seq<byte> {
    if polls == [] || polls[0].SenderDrops? then []
    else (if polls[0].Arrives? then polls[0].data else []) + Queued(polls[1..])
  }

  /** The bytes that have reached the socket or still can. */
  function Reach(task: Task): seq<byte> {
    if task.phase == Relaying then task.written + Concat(task.inbox) else task.written
  }

  /** A step of the loop writes only from the front of the inbox. */
  lemma StepKeepsReach(id: u32, task: Task, handle: bool, ev: TaskEvent)
    requires CanStep(task, handle, ev) && (task.phase != Relaying ==> task.inbox == [] || !ev.InsertHandle?)
    ensures var r := Step(id, task, handle, ev);
      && task.written <= r.task.written
      && Reach(r.task) <= Reach(task)
      && (r.task.phase == Relaying ==> Reach(r.task) == Reach(task))
  {
    match ev
    case WriteOk =>
      assert task.written + (task.inbox[0] + Concat(task.inbox[1..]))
          == (task.written + task.inbox[0]) + Concat(task.inbox[1..]);
    case WriteFails(accepted, _) =>
      assert Concat(task.inbox) == task.inbox[0] + Concat(task.inbox[1..]);
    case _ =>
  }

  lemma TurnKeepsReach(id: u32, task: Task, handle: bool, poll: Poll)
    requires task.phase == Relaying
    ensures var r := Turn(id, task, handle, poll);
      if r.task.phase == Relaying then
        && Reach(r.task) == Reach(task) + (if handle && poll.Arrives? then poll.data else [])
        && r.handle == (handle && !poll.SenderDrops?)
      else r.task.written <= Reach(task) && !poll.Arrives? && !poll.SenderDrops?
  {
    match poll
    case Arrives(data) =>
      ConcatAppend(task.inbox, data);
      assert (task.written + Concat(task.inbox)) + data == task.written + (Concat(task.inbox) + data);
    case SenderDrops =>
    case Branch(ev) =>
      if IsLoopEvent(ev) && CanStep(task, handle, ev) {
        StepKeepsReach(id, task, handle, ev);
      }
  }

  /** The most a schedule can still write: what is queued now and what is queued before
      the sender drops. */
  function Writable(task: Task, handle: bool, polls: seq<Poll>): seq<byte> {
    Reach(task) + if handle then Queued(polls) else []
  }

  lemma TurnKeepsWritable(id: u32, task: Task, handle: bool, polls: seq<Poll>)
    requires task.phase == Relaying && polls != []
    ensures var r := Turn(id, task, handle, polls[0]);
      if r.task.phase == Relaying then Writable(r.task, r.handle, polls[1..]) == Writable(task, handle, polls)
      else r.task.written <= Writable(task, handle, polls)
  {
    TurnKeepsReach(id, task, handle, polls[0]);
    var rest := Queued(polls[1..]);
    if handle && polls[0].Arrives? {
      assert (Reach(task) + polls[0].data) + rest == Reach(task) + (polls[0].data + rest);
    } else if handle && polls[0].Branch? {
      assert [] + rest == rest;
    }
  }

  /** Over any schedule the socket receives a prefix of what was queued before the sender
      dropped, and nothing queued later. */
  lemma {:induction false} RelayWritesPrefix(id: u32, task: Task, handle: bool, polls: seq<Poll>)
    requires task.phase == Relaying
    ensures Relay(id, task, handle, polls).task.written <= Writable(task, handle, polls)
    decreases |polls|
  {
    if polls != [] {
      TurnKeepsWritable(id, task, handle, polls);
      var r := Turn(id, task, handle, polls[0]);
      assert Relay(id, task, handle, polls).task == Relay(id, r.task, r.handle, polls[1..]).task;
      if r.task.phase == Relaying {
        RelayWritesPrefix(id, r.task, r.handle, polls[1..]);
      }
    }
  }
}
