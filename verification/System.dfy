/** The whole tunnel: the host's table, two FIFO streams, the remote's tasks, and a history
    of every connection. Its runs interleave app segments, host handlers, remote handlers
    and task steps freely; each step is one step of one connection and no step of any other. */
module System {
  import opened Base
  import opened Messages
  import opened Packets
  import opened Nat
  import opened Host
  import opened Endpoint
  import opened Remote
  import opened Grammar
  import opened Connection
  import opened Promises

  datatype Past = Past(birth: Option<Birth>, done: seq<HostMessage>, heard: seq<RemoteMessage>, packets: seq<TcpPacket>)

  datatype World = World(
    table: Table,
    toRemote: seq<HostMessage>,
    remote: Proxy,
    toHost: seq<RemoteMessage>,
    past: map<u32, Past>)

  const Start := World(EmptyTable, [], Proxy(map[], {}), [], map[])

  function PastOf(w: World, id: u32): Past {
    if id in w.past then w.past[id] else Past(None, [], [], [])
  }

  /** One connection's share of the world. */
  function View(w: World, id: u32): Conn {
    var p := PastOf(w, id);
    Conn(id, p.birth, EntryOf(w.table, id), p.done, For(HostTag, w.toRemote, id),
         TaskOf(w.remote, id), id in w.remote.handles, p.heard, For(RemoteTag, w.toHost, id), p.packets)
  }

  datatype Event =
    | App(segment: TcpPacket, stream: seq<byte>)  // the stream matters for a SYN only
    | HostHears
    | RemoteHears
    | TaskRuns(id: u32, ev: TaskEvent)
    | HostSends(hm: HostMessage)     // UDP and DNS traffic shares the streams
    | RemoteSends(rm: RemoteMessage)

  function AppStep(w: World, s: TcpPacket, stream: seq<byte>): World {
    var o := OnSegment(w.table, s);
    var key := SegmentKey(s);
    var past :=
      if IsSyn(s) then
        w.past[w.table.nextId := PastOf(w, w.table.nextId).(birth := Some(Birth(key, s.seqNo, stream)))]
      else
        match IdOf(w.table, key)
        case None => w.past
        case Some(id) => w.past[id := PastOf(w, id).(packets := PastOf(w, id).packets + o.packets)];
    w.(table := o.table, toRemote := w.toRemote + o.msgs, past := past)
  }

  function HostStep(w: World): World
    requires w.toHost != []
  {
    var m := w.toHost[0];
    var o := OnMessage(w.table, m);
    var past :=
      if RemoteTag(m) < 0 then w.past
      else
        var p := PastOf(w, m.id);
        w.past[m.id := p.(heard := p.heard + [m], packets := p.packets + o.packets)];
    w.(table := o.table, toHost := w.toHost[1..], past := past)
  }

  function RemoteStep(w: World): World
    requires w.toRemote != []
  {
    var m := w.toRemote[0];
    var past :=
      if HostTag(m) < 0 then w.past
      else
        var p := PastOf(w, m.id);
        w.past[m.id := p.(done := p.done + [m])];
    w.(remote := OnHostMessage(w.remote, m), toRemote := w.toRemote[1..], past := past)
  }

  function TaskStep(w: World, id: u32, ev: TaskEvent): World
    requires CanStep(TaskOf(w.remote, id), id in w.remote.handles, ev)
  {
    var r := Step(id, TaskOf(w.remote, id), id in w.remote.handles, ev);
    w.(remote := Put(w.remote, id, r.task, r.handle), toHost := w.toHost + r.responses)
  }

  /** An event that cannot happen leaves the world alone. */
  function Next(w: World, e: Event): World {
    match e
    case App(segment, stream) => AppStep(w, segment, stream)
    case HostHears => if w.toHost == [] then w else HostStep(w)
    case RemoteHears => if w.toRemote == [] then w else RemoteStep(w)
    case TaskRuns(id, ev) =>
      if CanStep(TaskOf(w.remote, id), id in w.remote.handles, ev) then TaskStep(w, id, ev) else w
    case HostSends(hm) => w.(toRemote := w.toRemote + [hm])
    case RemoteSends(rm) => w.(toHost := w.toHost + [rm])
  }

  function Run(w: World, es: seq<Event>): World
    decreases |es|
  {
    if es == [] then w else Run(Next(w, es[0]), es[1..])
  }

  // ------------------------------------------------------------------- the hypotheses

  /** Events of the kind the tunnel's surroundings produce: parsed segments, ids that do
      not wrap, and other traffic that carries no connection id. */
  predicate Possible(w: World, e: Event) {
    match e
    case App(s, _) => FromWire(s) && (IsSyn(s) ==> w.table.nextId < TWO32 - 1)
    case HostSends(hm) => HostTag(hm) < 0 && hm != Shutdown
    case RemoteSends(rm) => RemoteTag(rm) < 0
    case _ => true
  }

  /** The segment's connection: the one of its 4-tuple, if there is one. */
  function Target(w: World, s: TcpPacket): Option<Conn> {
    match IdOf(w.table, SegmentKey(s))
    case None => None
    case Some(id) => Some(View(w, id))
  }

  /** What a step may be relied on for: no SYN on a live 4-tuple, always; and what the
      trust adds, an app that is honest and no host message lost in the gap between the
      announcement of a connection and the insertion of its handle. */
  predicate Faithful(t: Trust, w: World, e: Event) {
    match e
    case App(s, _) => (
      match Target(w, s)
      case None => true
      case Some(c) => !IsSyn(s) && (c.birth.Some? && c.entry.Some? ==> Honest(t, c, s)))
    case RemoteHears => w.toRemote != [] && HostTag(w.toRemote[0]) >= 0 ==> !Loses(t, View(w, w.toRemote[0].id))
    case _ => true
  }

  predicate Orderly(t: Trust, w: World, e: Event) {
    Possible(w, e) && Faithful(t, w, e)
  }

  predicate OrderlyRun(t: Trust, w: World, es: seq<Event>)
    decreases |es|
  {
    es != [] ==> Orderly(t, w, es[0]) && OrderlyRun(t, Next(w, es[0]), es[1..])
  }

  // -------------------------------------------------------------------- the invariant

  /** Ids in the table were born under the key the table gives them. */
  ghost predicate Registered(w: World) {
    && (forall id :: id in w.table.byId ==>
          PastOf(w, id).birth.Some? && PastOf(w, id).birth.value.key == w.table.byId[id])
    && (forall id :: id in w.past && w.past[id].birth.Some? ==> id < w.table.nextId)
  }

  ghost predicate Tabled(w: World) {
    Inverse(w.table) && IdsBelowNext(w.table) && Registered(w)
  }

  ghost predicate Inv(t: Trust, w: World) {
    Tabled(w) && forall id: u32 :: Good(t, View(w, id))
  }

  // ------------------------------------------- every step is one connection's step

  lemma QueueGrows<T>(tag: T -> int, queue: seq<T>, more: seq<T>, owner: int, id: int)
    requires forall i :: 0 <= i < |more| ==> tag(more[i]) == owner
    ensures For(tag, queue + more, id) == For(tag, queue, id) + if id == owner then more else []
  {
    ForAppend(tag, queue, more, id);
    ForTagged(tag, more, owner, id);
  }

  lemma QueueShrinks<T>(tag: T -> int, queue: seq<T>, id: int)
    requires queue != []
    ensures tag(queue[0]) == id ==> For(tag, queue, id) != [] && For(tag, queue, id)[0] == queue[0]
                                    && For(tag, queue, id)[1..] == For(tag, queue[1..], id)
    ensures tag(queue[0]) != id ==> For(tag, queue, id) == For(tag, queue[1..], id)
  {
  }

  lemma SynIsOpening(w: World, s: TcpPacket, stream: seq<byte>, id: u32)
    requires Tabled(w) && s.flags.syn && !s.flags.ack && w.table.nextId < TWO32 - 1
    requires TcpKey(s.srcIp, s.srcPort, s.dstIp, s.dstPort) !in w.table.byKey
    ensures var c, d := View(w, id), View(AppStep(w, s, stream), id);
      if id == w.table.nextId then
        && c.birth.None? && c.entry.None?
        && d == Opened(c, Birth(TcpKey(s.srcIp, s.srcPort, s.dstIp, s.dstPort), s.seqNo, stream))
      else d == c
  {
    CreateIsLocal(w.table, SegmentKey(s), s.seqNo, id);
    QueueGrows(HostTag, w.toRemote, OnSegment(w.table, s).msgs, w.table.nextId, id);
  }

  lemma EffectTags(key: TcpKey, c: TcpConnection, s: TcpPacket)
    ensures forall i :: 0 <= i < |SegmentEffect(key, c, s).msgs| ==> HostTag(SegmentEffect(key, c, s).msgs[i]) == c.id
  {
  }

  lemma SegmentIsOwned(w: World, s: TcpPacket, stream: seq<byte>, id: u32)
    requires Tabled(w) && !(s.flags.syn && !s.flags.ack)
    requires TcpKey(s.srcIp, s.srcPort, s.dstIp, s.dstPort) in w.table.byKey
    ensures var c := View(w, id);
      var d := View(AppStep(w, s, stream), id);
      if id == w.table.byKey[TcpKey(s.srcIp, s.srcPort, s.dstIp, s.dstPort)].id then
        c.birth.Some? && c.entry.Some? && d == Segment(c, s)
      else d == c
  {
    var key := SegmentKey(s);
    var owner := w.table.byKey[key];
    SegmentRefines(w.table, s);
    SegmentsAreIsolated(w.table, s);
    EffectTags(key, owner, s);
    QueueGrows(HostTag, w.toRemote, OnSegment(w.table, s).msgs, owner.id, id);
    assert EntryOf(w.table, owner.id) == Some(owner);
  }

  /** The packets and the entry a message leaves its connection with. */
  lemma MessageOutcome(w: World, m: RemoteMessage)
    requires Tabled(w) && RemoteTag(m) >= 0
    ensures var c := View(w, m.id);
      var o := OnMessage(w.table, m);
      if c.entry.None? then o.packets == [] && EntryOf(o.table, m.id) == None
      else
        && c.birth.Some?
        && o.packets == MessageEffect(c.birth.value.key, c.entry.value, m).packets
        && EntryOf(o.table, m.id) == MessageEffect(c.birth.value.key, c.entry.value, m).entry
  {
    StaleMessagesAreInert(w.table, m);
    if m.id in w.table.byId {
      MessageRefines(w.table, m);
    }
  }

  lemma MessageIsOwned(w: World, id: u32)
    requires Tabled(w) && w.toHost != []
    ensures var c := View(w, id);
      var d := View(HostStep(w), id);
      if id == RemoteTag(w.toHost[0]) then c.wait != [] && d == Listen(c) else d == c
  {
    var m := w.toHost[0];
    QueueShrinks(RemoteTag, w.toHost, id);
    if RemoteTag(m) == id {
      MessageOutcome(w, m);
    } else {
      StaleMessagesAreInert(w.table, m);
    }
  }

  lemma DispatchIsOwned(w: World, id: u32)
    requires w.toRemote != []
    ensures var c := View(w, id);
      var d := View(RemoteStep(w), id);
      if id == HostTag(w.toRemote[0]) then c.pend != [] && c.pend[0] == w.toRemote[0] && d == Dispatch(c) else d == c
  {
    QueueShrinks(HostTag, w.toRemote, id);
  }

  lemma StepTags(id: u32, task: Task, handle: bool, ev: TaskEvent)
    requires CanStep(task, handle, ev)
    ensures var ms := Step(id, task, handle, ev).responses;
      forall i :: 0 <= i < |ms| ==> RemoteTag(ms[i]) == id
  {
  }

  /** A task's new state and handle, and what it says, concern its own connection alone. */
  lemma TaskIsLocal(w: World, owner: u32, r: TaskResult, id: u32)
    requires forall i :: 0 <= i < |r.responses| ==> RemoteTag(r.responses[i]) == owner
    ensures var c := View(w, id);
      View(w.(remote := Put(w.remote, owner, r.task, r.handle), toHost := w.toHost + r.responses), id)
        == if id == owner then c.(task := r.task, handle := r.handle, wait := c.wait + r.responses) else c
  {
    PutIsLocal(w.remote, owner, r.task, r.handle, id);
    QueueGrows(RemoteTag, w.toHost, r.responses, owner, id);
  }

  lemma TaskIsOwned(w: World, owner: u32, ev: TaskEvent, id: u32)
    requires CanStep(TaskOf(w.remote, owner), owner in w.remote.handles, ev)
    ensures var c := View(w, id);
      var d := View(TaskStep(w, owner, ev), id);
      if id == owner then d == Act(c, ev) else d == c
  {
    StepTags(owner, TaskOf(w.remote, owner), owner in w.remote.handles, ev);
    TaskIsLocal(w, owner, Step(owner, TaskOf(w.remote, owner), owner in w.remote.handles, ev), id);
  }

  // ------------------------------------------------------------ every step keeps Inv

  /** Every connection stays good and only moves on. */
  ghost predicate AllLater(t: Trust, w: World, v: World) {
    forall id: u32 :: LaterAt(t, w, v, id)
  }

  ghost predicate LaterAt(t: Trust, w: World, v: World, id: u32) {
    Good(t, View(v, id)) && Later(View(w, id), View(v, id))
  }

  lemma LaterRefl(c: Conn)
    ensures Later(c, c)
  {
  }

  lemma AppKeeps(t: Trust, w: World, s: TcpPacket, stream: seq<byte>)
    requires Inv(t, w) && Orderly(t, w, App(s, stream))
    ensures AllLater(t, w, AppStep(w, s, stream))
  {
    forall id: u32 ensures LaterAt(t, w, AppStep(w, s, stream), id) {
      var c := View(w, id);
      LaterRefl(c);
      if IsSyn(s) {
        SynIsOpening(w, s, stream, id);
        if id == w.table.nextId {
          OpenedGood(t, c, Birth(SegmentKey(s), s.seqNo, stream));
        }
      } else if SegmentKey(s) in w.table.byKey {
        SegmentIsOwned(w, s, stream, id);
        if id == w.table.byKey[SegmentKey(s)].id {
          SegmentKeepsExactly(t, c, s);
          SegmentAdvances(c, s);
        }
      } else {
        assert w.toRemote + [] == w.toRemote;
      }
    }
  }

  lemma SynKeepsTable(w: World, s: TcpPacket, stream: seq<byte>)
    requires Tabled(w) && IsSyn(s) && SegmentKey(s) !in w.table.byKey && w.table.nextId < TWO32 - 1
    ensures Tabled(AppStep(w, s, stream))
  {
    ApplyKeepsInverse(w.table, OpCreate(SegmentKey(s), s.seqNo));
  }

  lemma SegmentKeepsTable(w: World, s: TcpPacket, stream: seq<byte>)
    requires Tabled(w) && !IsSyn(s)
    ensures Tabled(AppStep(w, s, stream))
  {
    SegmentsAreIsolated(w.table, s);
  }

  lemma HostKeeps(t: Trust, w: World)
    requires Inv(t, w) && w.toHost != []
    ensures AllLater(t, w, HostStep(w))
  {
    forall id: u32 ensures LaterAt(t, w, HostStep(w), id) {
      MessageIsOwned(w, id);
      LaterRefl(View(w, id));
      if id == RemoteTag(w.toHost[0]) {
        ListenKeepsGood(t, View(w, id));
        ListenAdvances(View(w, id));
      }
    }
  }

  lemma HostKeepsTable(w: World)
    requires Tabled(w) && w.toHost != []
    ensures Tabled(HostStep(w))
  {
    StaleMessagesAreInert(w.table, w.toHost[0]);
  }

  lemma RemoteKeeps(t: Trust, w: World)
    requires Inv(t, w) && w.toRemote != [] && Orderly(t, w, RemoteHears)
    ensures AllLater(t, w, RemoteStep(w)) && Tabled(RemoteStep(w))
  {
    forall id: u32 ensures LaterAt(t, w, RemoteStep(w), id) {
      DispatchIsOwned(w, id);
      LaterRefl(View(w, id));
      if id == HostTag(w.toRemote[0]) {
        DispatchKeepsExactly(t, View(w, id));
        DispatchAdvances(View(w, id));
      }
    }
  }

  lemma TaskKeeps(t: Trust, w: World, owner: u32, ev: TaskEvent)
    requires Inv(t, w) && CanStep(TaskOf(w.remote, owner), owner in w.remote.handles, ev)
    ensures AllLater(t, w, TaskStep(w, owner, ev))
  {
    forall id: u32 ensures LaterAt(t, w, TaskStep(w, owner, ev), id) {
      TaskIsOwned(w, owner, ev, id);
      LaterRefl(View(w, id));
      if id == owner {
        ActKeepsGood(t, View(w, id), ev);
        ActAdvances(View(w, id), ev);
      }
    }
  }

  lemma OthersOwnNothing(w: World, e: Event, id: u32)
    requires Possible(w, e) && (e.HostSends? || e.RemoteSends?)
    ensures View(Next(w, e), id) == View(w, id)
  {
    if e.HostSends? {
      QueueGrows(HostTag, w.toRemote, [e.hm], -1, id);
    } else {
      QueueGrows(RemoteTag, w.toHost, [e.rm], -1, id);
    }
  }

  lemma OthersKeep(t: Trust, w: World, e: Event)
    requires Inv(t, w) && Orderly(t, w, e) && (e.HostSends? || e.RemoteSends?)
    ensures AllLater(t, w, Next(w, e))
  {
    forall id: u32 ensures LaterAt(t, w, Next(w, e), id) {
      LaterRefl(View(w, id));
      OthersOwnNothing(w, e, id);
    }
  }

  lemma NothingHappens(t: Trust, w: World)
    requires Inv(t, w)
    ensures AllLater(t, w, w)
  {
    forall id: u32 ensures LaterAt(t, w, w, id) {
      LaterRefl(View(w, id));
    }
  }

  lemma AllLaterIsGood(t: Trust, w: World, v: World)
    requires AllLater(t, w, v) && Tabled(v)
    ensures Inv(t, v)
  {
    forall id: u32 ensures Good(t, View(v, id)) {
      assert LaterAt(t, w, v, id);
    }
  }

  lemma NextKeepsInv(t: Trust, w: World, e: Event)
    requires Inv(t, w) && Orderly(t, w, e)
    ensures Inv(t, Next(w, e)) && AllLater(t, w, Next(w, e))
  {
    if Next(w, e) == w {
      NothingHappens(t, w);
    } else {
      match e {
        case App(s, stream) =>
          AppKeeps(t, w, s, stream);
          if IsSyn(s) { SynKeepsTable(w, s, stream); } else { SegmentKeepsTable(w, s, stream); }
        case HostHears =>
          HostKeeps(t, w);
          HostKeepsTable(w);
        case RemoteHears =>
          RemoteKeeps(t, w);
        case TaskRuns(id, ev) =>
          TaskKeeps(t, w, id, ev);
        case _ =>
          OthersKeep(t, w, e);
      }
      AllLaterIsGood(t, w, Next(w, e));
    }
  }

  /** An unfaithful event always breaks the invariant. */
  lemma UnfaithfulBreaks(t: Trust, w: World, e: Event)
    requires Inv(t, w) && Possible(w, e)
    ensures !Faithful(t, w, e) ==> !Inv(t, Next(w, e))
  {
    if !Faithful(t, w, e) {
      match e
      case App(s, stream) =>
        var owner := w.table.byKey[SegmentKey(s)].id;
        if IsSyn(s) {
          assert owner in Next(w, e).table.byId;
        } else {
          SegmentIsOwned(w, s, stream, owner);
          SegmentKeepsExactly(t, View(w, owner), s);
          assert !Good(t, View(Next(w, e), owner));
        }
      case RemoteHears =>
        var owner := w.toRemote[0].id;
        DispatchIsOwned(w, owner);
        DispatchKeepsExactly(t, View(w, owner));
        assert !Good(t, View(Next(w, e), owner));
      case _ =>
    }
  }

  /** For every choice of what to rely on, one step of the tunnel keeps exactly that part
      of the invariant, for every connection, if and only if it is faithful in that part. */
  lemma NextKeepsInvExactly(t: Trust, w: World, e: Event)
    requires Inv(t, w) && Possible(w, e)
    ensures Inv(t, Next(w, e)) <==> Faithful(t, w, e)
  {
    if Faithful(t, w, e) {
      NextKeepsInv(t, w, e);
    } else {
      UnfaithfulBreaks(t, w, e);
    }
  }

  lemma StartIsGood(t: Trust)
    ensures Inv(t, Start)
  {
  }

  /** Every orderly run from a good world ends in a good world, with every connection
      a later view of itself, for every choice of what to rely on. */
  lemma {:induction false} RunKeepsInv(t: Trust, w: World, es: seq<Event>)
    requires Inv(t, w) && OrderlyRun(t, w, es)
    ensures Inv(t, Run(w, es)) && AllLater(t, w, Run(w, es))
    decreases |es|
  {
    if es == [] {
      NothingHappens(t, w);
    } else {
      var v := Next(w, es[0]);
      NextKeepsInv(t, w, es[0]);
      RunKeepsInv(t, v, es[1..]);
      forall id: u32 ensures LaterAt(t, w, Run(w, es), id) {
        assert LaterAt(t, w, v, id) && LaterAt(t, v, Run(w, es), id);
        LaterTrans(View(w, id), View(v, id), View(Run(w, es), id));
      }
    }
  }

  lemma ReachedIsGood(t: Trust, es: seq<Event>, id: u32)
    requires OrderlyRun(t, Start, es)
    ensures Good(t, View(Run(Start, es), id))
  {
    StartIsGood(t);
    RunKeepsInv(t, Start, es);
  }

  // --------------------------------------- the results for every app and every schedule

  /** Both streams and the packets follow their grammar per id, and the packets their
      numbering, on every run without a SYN on a live 4-tuple. */
  lemma GrammarsHold(es: seq<Event>, id: u32)
    requires OrderlyRun(NOTHING, Start, es)
    ensures var c := View(Run(Start, es), id);
      RemoteShape(Said(c)) && HostShape(Sent(c)) && PacketShape(c.packets) && Numbered(c.packets)
  {
    ReachedIsGood(NOTHING, es, id);
    EverythingInOrder(View(Run(Start, es), id));
  }

  /** The connect message, the dialling task and its socket name the app's destination, and
      every packet goes back to the app alone. */
  lemma EverythingIsAddressed(es: seq<Event>, id: u32)
    requires OrderlyRun(NOTHING, Start, es) && View(Run(Start, es), id).birth.Some?
    ensures var c := View(Run(Start, es), id);
      var key := c.birth.value.key;
      && Sent(c) != [] && Sent(c)[0] == TcpConnect(id, key.dstIp, key.dstPort)
      && (c.task.phase != Idle ==> c.task.peer == Some(Peer(key.dstIp, key.dstPort)))
      && forall i :: 0 <= i < |c.packets| ==> SentTo(key, c.packets[i])
  {
    ReachedIsGood(NOTHING, es, id);
  }

  /** Every id's life only moves forward, along any continuation of any run, its histories
      only grow, and end with its removal. */
  lemma LivesMoveForward(es: seq<Event>, more: seq<Event>, id: u32)
    requires OrderlyRun(NOTHING, Start, es) && OrderlyRun(NOTHING, Run(Start, es), more)
    ensures var c, d := View(Run(Start, es), id), View(Run(Run(Start, es), more), id);
      Onward(LifeOf(c), LifeOf(d)) && Later(c, d)
  {
    StartIsGood(NOTHING);
    RunKeepsInv(NOTHING, Start, es);
    RunKeepsInv(NOTHING, Run(Start, es), more);
    assert LaterAt(NOTHING, Run(Start, es), Run(Run(Start, es), more), id);
  }

  /** Once a connection's handle is gone, no continuation of the run delivers anything
      that was not already queued for it. */
  lemma NothingAfterCutOff(es: seq<Event>, more: seq<Event>, id: u32)
    requires OrderlyRun(NOTHING, Start, es) && OrderlyRun(NOTHING, Run(Start, es), more)
    requires CutOff(View(Run(Start, es), id))
    ensures var c, d := View(Run(Start, es), id), View(Run(Run(Start, es), more), id);
      CutOff(d) && c.task.written <= d.task.written <= Reach(c.task)
  {
    LivesMoveForward(es, more, id);
    var d := View(Run(Run(Start, es), more), id);
    assert d.task.written <= Reach(d.task);
  }

  /** The bytes a connection's destination sends in an event: the data of a read that its
      task can make, 1 to 65536 bytes while it is relaying. */
  function SentNow(w: World, e: Event, id: u32): seq<byte> {
    match e
    case TaskRuns(owner, ReadSome(data)) =>
      if owner == id && TaskOf(w.remote, id).phase == Relaying && 0 < |data| <= 65536 then data else []
    case _ => []
  }

  function SentByDestination(w: World, es: seq<Event>, id: u32): seq<byte>
    decreases |es|
  {
    if es == [] then [] else SentNow(w, es[0], id) + SentByDestination(Next(w, es[0]), es[1..], id)
  }

  lemma TaskReads(w: World, owner: u32, ev: TaskEvent, id: u32)
    requires CanStep(TaskOf(w.remote, owner), owner in w.remote.handles, ev)
    ensures TaskOf(TaskStep(w, owner, ev).remote, id).read
         == TaskOf(w.remote, id).read + SentNow(w, TaskRuns(owner, ev), id)
  {
  }

  lemma DispatchReads(w: World, id: u32)
    requires w.toRemote != [] && Formed(View(w, id))
    ensures TaskOf(RemoteStep(w).remote, id).read == TaskOf(w.remote, id).read
  {
    DispatchIsOwned(w, id);
    var c := View(w, id);
    if id == HostTag(w.toRemote[0]) && c.pend[0].TcpConnect? {
      DispatchHoused(c);
      HearAdvances(HeardOf(c), c.wait);
      HearAdvances(HNone, c.heard);
      assert Said(c) == [];
    }
  }

  lemma NextReads(w: World, e: Event, id: u32)
    requires Formed(View(w, id))
    ensures TaskOf(Next(w, e).remote, id).read == TaskOf(w.remote, id).read + SentNow(w, e, id)
  {
    match e
    case RemoteHears =>
      if w.toRemote != [] {
        DispatchReads(w, id);
      }
    case TaskRuns(owner, ev) =>
      if CanStep(TaskOf(w.remote, owner), owner in w.remote.handles, ev) {
        TaskReads(w, owner, ev, id);
      }
    case _ =>
  }

  /** What a task has read is what its destination sent, along every run. */
  lemma {:induction false} RunReads(w: World, es: seq<Event>, id: u32)
    requires Inv(NOTHING, w) && OrderlyRun(NOTHING, w, es)
    ensures TaskOf(Run(w, es).remote, id).read == TaskOf(w.remote, id).read + SentByDestination(w, es, id)
    decreases |es|
  {
    if es != [] {
      var v := Next(w, es[0]);
      NextKeepsInv(NOTHING, w, es[0]);
      RunReads(v, es[1..], id);
      assert Good(NOTHING, View(w, id));
      NextReads(w, es[0], id);
      Joined(TaskOf(w.remote, id).read, SentNow(w, es[0], id), SentByDestination(v, es[1..], id));
    }
  }

  lemma ReachedReads(es: seq<Event>, id: u32)
    requires OrderlyRun(NOTHING, Start, es)
    ensures View(Run(Start, es), id).task.read == SentByDestination(Start, es, id)
  {
    StartIsGood(NOTHING);
    RunReads(Start, es, id);
  }

  /** Destination to app, end to end: the emitted payloads, placed by sequence number,
      are a prefix of what the destination sent, and all that was heard while the entry
      lives. */
  lemma DestinationStreamIsSafe(es: seq<Event>, id: u32, i: nat)
    requires OrderlyRun(NOTHING, Start, es)
    ensures var c := View(Run(Start, es), id);
      && c.task.read == SentByDestination(Start, es, id)
      && Payloads(c.packets) <= SentByDestination(Start, es, id)
      && (c.entry.Some? ==> Payloads(c.packets) == HeardBytes(c.heard))
      && (i < |c.packets| ==> Placed(c.packets, i))
  {
    ReachedIsGood(NOTHING, es, id);
    DestinationBytesReassemble(View(Run(Start, es), id), i);
    ReachedReads(es, id);
  }

  /** No end is kept from the other side: on every run a removed connection was closed
      towards the remote, or its end was heard and the app was told. */
  lemma EndsAreShared(es: seq<Event>, id: u32)
    requires OrderlyRun(NOTHING, Start, es)
    ensures EndIsShared(View(Run(Start, es), id))
  {
    ReachedIsGood(NOTHING, es, id);
    EveryEndIsShared(View(Run(Start, es), id));
  }

  /** On every run, the next remote message meets its connection in a stage that expects
      it: an unexpected TcpClosed never cleans up a live entry. */
  lemma NoUnexpectedMessage(es: seq<Event>)
    requires OrderlyRun(NOTHING, Start, es)
    ensures var w := Run(Start, es);
      w.toHost != [] && RemoteTag(w.toHost[0]) in w.table.byId ==>
        var state := StateOf(w.table, w.table.byId[w.toHost[0].id]);
        match w.toHost[0]
        case TcpConnected(_) => state == Some(SynSent)
        case TcpError(_, _) => state == Some(SynSent) || state == Some(Established) || state == Some(FinWait)
        case _ => state == Some(Established) || state == Some(FinWait)
  {
    StartIsGood(NOTHING);
    RunKeepsInv(NOTHING, Start, es);
    var w := Run(Start, es);
    if w.toHost != [] && RemoteTag(w.toHost[0]) in w.table.byId {
      MessageIsOwned(w, w.toHost[0].id);
      QueueShrinks(RemoteTag, w.toHost, w.toHost[0].id);
      MessagesMeetTheirStages(View(w, w.toHost[0].id));
    }
  }

  // ----------------------------------------------- the results that rely on something

  const CLOSES := Trust(true, false, false, false)
  const DATA := Trust(false, true, false, false)
  const FINS := Trust(false, false, false, true)

  /** No connect and no close is ever lost: in every reachable world each live entry's
      next remote event is pending somewhere, for any app, as long as no close is handled
      between announcement and handle. */
  lemma NoEventIsLost(es: seq<Event>, id: u32)
    requires OrderlyRun(CLOSES, Start, es)
    ensures Awaited(View(Run(Start, es), id))
  {
    ReachedIsGood(CLOSES, es, id);
    EveryEntryIsAwaited(View(Run(Start, es), id));
  }

  /** What is written to the destination is a prefix of what was forwarded, for any app, as
      long as no data is handled between announcement and handle. */
  lemma WrittenIsForwarded(es: seq<Event>, id: u32)
    requires OrderlyRun(DATA, Start, es)
    ensures View(Run(Start, es), id).task.written <= Forwarded(View(Run(Start, es), id))
  {
    ReachedIsGood(DATA, es, id);
    AppBytesInOrder(View(Run(Start, es), id));
  }

  /** App to destination, end to end: what is written is a prefix of the app's stream, if
      the app continues that stream and no data is lost in the gap. */
  lemma AppStreamIsSafe(t: Trust, es: seq<Event>, id: u32)
    requires t.stream && OrderlyRun(t, Start, es)
    ensures var c := View(Run(Start, es), id);
      c.birth.Some? ==>
        && Forwarded(c) <= c.birth.value.stream
        && (t.data ==> c.task.written <= Forwarded(c) <= c.birth.value.stream)
  {
    ReachedIsGood(t, es, id);
    AppBytesInOrder(View(Run(Start, es), id));
  }

  /** The stored acknowledgment names exactly what is accepted; and the packets of a live
      connection acknowledge ever more of the app's numbers and never one that was not
      accepted, even over many wraps. Once the entry is removed this holds of all packets
      but the last. Only the app's FIN need be in sequence. */
  lemma AcksNameTheAccepted(es: seq<Event>, id: u32)
    requires OrderlyRun(FINS, Start, es) && View(Run(Start, es), id).birth.Some?
    ensures var c := View(Run(Start, es), id);
      c.entry.Some? ==> c.entry.value.ackNo == NextAck(c)
    ensures var c := View(Run(Start, es), id);
      exists covered: seq<nat> ::
        && Trail(c.birth.value.isn, c.packets, covered, AckLimit(c))
        && (if c.entry.Some? then |covered| == |c.packets| else |c.packets| <= |covered| + 1)
  {
    ReachedIsGood(FINS, es, id);
    var c := View(Run(Start, es), id);
    var covered: seq<nat> :| Followed(c, covered);
    assert Trail(c.birth.value.isn, c.packets, covered, AckLimit(c));
  }

  // -------------------------------------------------- an app that sends its own stream

  /** A segment of an app that sends parts of its own stream, whatever it repeats and
      reorders, and its FIN in sequence. */
  ghost predicate TruthfulEvent(w: World, e: Event) {
    e.App? && !IsSyn(e.segment) ==>
      match Target(w, e.segment)
      case None => true
      case Some(c) => c.birth.Some? && c.entry.Some? ==> Truthful(c, e.segment)
  }

  ghost predicate TruthfulRun(t: Trust, w: World, es: seq<Event>)
    decreases |es|
  {
    es != [] ==>
      Orderly(t, w, es[0]) && TruthfulEvent(w, es[0]) && TruthfulRun(t, Next(w, es[0]), es[1..])
  }

  /** A trust that includes an honest app. */
  function WithTruth(t: Trust): Trust {
    t.(stream := true, fins := true)
  }

  lemma TruthfulIsOrderly(t: Trust, w: World, e: Event)
    requires Inv(WithTruth(t), w) && Orderly(t, w, e) && TruthfulEvent(w, e)
    ensures Orderly(WithTruth(t), w, e)
  {
    if e.App? && !IsSyn(e.segment) && SegmentKey(e.segment) in w.table.byKey {
      var c := View(w, w.table.byKey[SegmentKey(e.segment)].id);
      SegmentIsOwned(w, e.segment, e.stream, c.id);
      TruthfulIsHonest(c, e.segment);
    }
  }

  /** A run whose apps send parts of their own streams, in any order and with any
      repetition, may be relied on for both. */
  lemma {:induction false} TruthfulRunIsOrderly(t: Trust, w: World, es: seq<Event>)
    requires Inv(WithTruth(t), w) && TruthfulRun(t, w, es)
    ensures OrderlyRun(WithTruth(t), w, es)
    decreases |es|
  {
    if es != [] {
      TruthfulIsOrderly(t, w, es[0]);
      NextKeepsInv(WithTruth(t), w, es[0]);
      TruthfulRunIsOrderly(t, Next(w, es[0]), es[1..]);
    }
  }

  /** Exactly-once acceptance over whole runs: whatever such an app repeats and reorders,
      and however the remote is scheduled, what was forwarded is exactly the first k bytes
      of its stream, and the stored acknowledgment names byte k, or the FIN behind it. */
  lemma AcceptedExactlyOnce(es: seq<Event>, id: u32)
    requires TruthfulRun(NOTHING, Start, es)
    ensures FirstBytesAccepted(View(Run(Start, es), id))
  {
    StartIsGood(TRUTH);
    TruthfulRunIsOrderly(NOTHING, Start, es);
    ReachedIsGood(TRUTH, es, id);
    TruthAcceptsFirstBytes(View(Run(Start, es), id));
  }

  // ------------------------------------------------------------- closes, over all runs

  /** The next event hands the remote a close for a task that is still deaf to it. */
  predicate MissesClose(w: World, e: Event, id: u32) {
    e.RemoteHears? && w.toRemote != [] && w.toRemote[0] == TcpClose(id) && Deaf(TaskOf(w.remote, id).phase)
  }

  predicate MissedClose(w: World, es: seq<Event>, id: u32)
    decreases |es|
  {
    es != [] && (MissesClose(w, es[0], id) || MissedClose(Next(w, es[0]), es[1..], id))
  }

  lemma OnlyTheRemoteHandles(w: World, e: Event, id: u32)
    requires !e.RemoteHears?
    ensures PastOf(Next(w, e), id).done == PastOf(w, id).done
  {
  }

  lemma RemoteSettles(w: World, id: u32)
    requires w.toRemote != [] && Formed(View(w, id)) && Settled(View(w, id)) && !MissesClose(w, RemoteHears, id)
    ensures Settled(View(RemoteStep(w), id))
  {
    DispatchIsOwned(w, id);
    if id == HostTag(w.toRemote[0]) {
      DispatchSettles(View(w, id));
    }
  }

  lemma NextSettles(w: World, e: Event, id: u32)
    requires Inv(NOTHING, w) && Orderly(NOTHING, w, e) && Settled(View(w, id)) && !MissesClose(w, e, id)
    ensures Settled(View(Next(w, e), id))
  {
    if e.RemoteHears? {
      if w.toRemote != [] {
        RemoteSettles(w, id);
      }
    } else {
      OnlyTheRemoteHandles(w, e, id);
      NextKeepsInv(NOTHING, w, e);
      assert LaterAt(NOTHING, w, Next(w, e), id);
    }
  }

  lemma {:induction false} RunSettles(w: World, es: seq<Event>, id: u32)
    requires Inv(NOTHING, w) && OrderlyRun(NOTHING, w, es) && Settled(View(w, id)) && !MissedClose(w, es, id)
    ensures Settled(View(Run(w, es), id))
    decreases |es|
  {
    if es != [] {
      NextSettles(w, es[0], id);
      NextKeepsInv(NOTHING, w, es[0]);
      RunSettles(Next(w, es[0]), es[1..], id);
    }
  }

  /** On every run, a connection the host asked to close has its close queued, or is ended
      at the remote for good, or had a close handled while its task was deaf to it. */
  lemma CloseTakesEffect(es: seq<Event>, id: u32)
    requires OrderlyRun(NOTHING, Start, es)
    ensures var c := View(Run(Start, es), id);
      (exists i :: 0 <= i < |Sent(c)| && Sent(c)[i].TcpClose?) ==>
        || (exists i :: 0 <= i < |c.pend| && c.pend[i].TcpClose?)
        || Ended(c)
        || MissedClose(Start, es, id)
  {
    StartIsGood(NOTHING);
    ReachedIsGood(NOTHING, es, id);
    var c := View(Run(Start, es), id);
    if exists i :: 0 <= i < |Sent(c)| && Sent(c)[i].TcpClose? {
      CloseIsQueuedOrHandled(c);
      if !MissedClose(Start, es, id) {
        RunSettles(Start, es, id);
      }
    }
  }

  /** In every reachable world, the remote's handling of a close ends the connection there
      if and only if its task is not deaf to it. */
  lemma CloseTakesEffectExactly(es: seq<Event>, id: u32)
    requires OrderlyRun(NOTHING, Start, es)
    ensures var w := Run(Start, es);
      w.toRemote != [] && w.toRemote[0] == TcpClose(id) ==>
        (Ended(View(RemoteStep(w), id)) <==> !MissesClose(w, RemoteHears, id))
  {
    var w := Run(Start, es);
    if w.toRemote != [] && w.toRemote[0] == TcpClose(id) {
      ReachedIsGood(NOTHING, es, id);
      DispatchIsOwned(w, id);
      CloseEndsExactly(View(w, id));
    }
  }

  /** A connection that the host has forgotten and the remote keeps open stays so along
      every continuation, until its own task ends. */
  lemma LeftOpenStays(es: seq<Event>, more: seq<Event>, id: u32)
    requires OrderlyRun(NOTHING, Start, es) && OrderlyRun(NOTHING, Run(Start, es), more)
    requires LeftOpen(View(Run(Start, es), id))
    ensures var d := View(Run(Run(Start, es), more), id);
      LeftOpen(d) || d.task.phase == Gone
  {
    LivesMoveForward(es, more, id);
  }
}
