/** The two streams of the tunnel as bytes: in every reachable world the queued messages
    fit the frames that carry them, so a FIFO of messages is what the peer reads. */
module Transport {
  import opened Base
  import opened Messages
  import opened Packets
  import opened Nat
  import opened Host
  import opened Remote
  import opened Framing
  import opened Codec
  import opened System

  /** The reader's cap less the overhead of the largest message head. */
  const MAX_LOAD := MAX_BODY - 34

  predicate QueuesFit(w: World) {
    && (forall m :: m in w.toRemote ==> HostLoad(m) <= MAX_LOAD)
    && (forall m :: m in w.toHost ==> RemoteLoad(m) <= MAX_LOAD)
  }

  /** Error texts and datagrams stay below the cap. TCP data needs no assumption: packets
      bound it on one side and the read buffer on the other. */
  predicate Bounded(e: Event) {
    match e
    case HostSends(hm) => HostLoad(hm) <= MAX_LOAD
    case RemoteSends(rm) => RemoteLoad(rm) <= MAX_LOAD
    case TaskRuns(_, ev) =>
      (ev.ConnectFails? || ev.WriteFails? || ev.ReadFails?) ==> |ev.error| <= MAX_LOAD
    case _ => true
  }

  /** A run of the tunnel with nothing relied on: 4-tuples may even be reused while live. */
  predicate PossibleRun(w: World, es: seq<Event>)
    decreases |es|
  {
    es != [] ==> Possible(w, es[0]) && PossibleRun(Next(w, es[0]), es[1..])
  }

  lemma SegmentFits(t: Table, s: TcpPacket)
    requires FromWire(s)
    ensures forall m :: m in OnSegment(t, s).msgs ==> HostLoad(m) <= MAX_LOAD
  {
  }

  lemma StepFits(id: u32, task: Task, handle: bool, ev: TaskEvent)
    requires CanStep(task, handle, ev) && Bounded(TaskRuns(id, ev))
    ensures forall m :: m in Step(id, task, handle, ev).responses ==> RemoteLoad(m) <= MAX_LOAD
  {
  }

  lemma NextFits(w: World, e: Event)
    requires QueuesFit(w) && Possible(w, e) && Bounded(e)
    ensures QueuesFit(Next(w, e))
  {
    match e
    case App(s, _) =>
      SegmentFits(w.table, s);
    case TaskRuns(id, ev) =>
      if CanStep(TaskOf(w.remote, id), id in w.remote.handles, ev) {
        StepFits(id, TaskOf(w.remote, id), id in w.remote.handles, ev);
      }
    case _ =>
  }

  lemma {:induction false} RunFits(w: World, es: seq<Event>)
    requires QueuesFit(w) && PossibleRun(w, es) && forall e :: e in es ==> Bounded(e)
    ensures QueuesFit(Run(w, es))
    decreases |es|
  {
    if es != [] {
      NextFits(w, es[0]);
      RunFits(Next(w, es[0]), es[1..]);
    }
  }

  /** Whatever both sides still have queued in a reachable world crosses the tunnel intact:
      the peer reads exactly those messages, and after any cut exactly a prefix of them. */
  lemma QueuesCrossTheTunnel(es: seq<Event>, n: nat)
    requires PossibleRun(Start, es) && forall e :: e in es ==> Bounded(e)
    ensures var w := Run(Start, es);
      && QueuesFit(w)
      && ReadAll(Stream(HostBodies(w.toRemote)), DecodeHost) == (w.toRemote, EndOfStream)
      && ReadAll(Stream(RemoteBodies(w.toHost)), DecodeRemote) == (w.toHost, EndOfStream)
      && (n <= |Stream(HostBodies(w.toRemote))| ==>
            ReadAll(Stream(HostBodies(w.toRemote))[..n], DecodeHost).0 <= w.toRemote)
      && (n <= |Stream(RemoteBodies(w.toHost))| ==>
            ReadAll(Stream(RemoteBodies(w.toHost))[..n], DecodeRemote).0 <= w.toHost)
  {
    RunFits(Start, es);
    var w := Run(Start, es);
    HostStreamIsFifo(w.toRemote, 0);
    RemoteStreamIsFifo(w.toHost, 0);
    if n <= |Stream(HostBodies(w.toRemote))| {
      HostStreamIsFifo(w.toRemote, n);
    }
    if n <= |Stream(RemoteBodies(w.toHost))| {
      RemoteStreamIsFifo(w.toHost, n);
    }
  }
}
