/** The DNS forwarder: queries are numbered, answers find their way back by number. */
module Dns {
  import opened Base
  import opened Messages

  datatype SocketAddr = SocketAddr(ip: IpAddr, port: u16)

  datatype Pending = Pending(pending: map<u32, SocketAddr>, nextId: u32)

  class DnsState {
    const server: IpAddr
    var pending: map<u32, SocketAddr>
    var nextId: u32

    function View(): Pending
      reads this
    {
      Pending(pending, nextId)
    }

    constructor (server: IpAddr)
      ensures this.server == server && View() == Pending(map[], 0)
    {
      this.server := server;
      pending, nextId := map[], 0;
    }

    /** `open` says whether the channel to the remote still accepts messages. */
    method HandleQuery(data: seq<byte>, sender: SocketAddr, open: bool) returns (sent: Option<HostMessage>)
      modifies this
      ensures View() == Asked(old(View()), sender, open)
      ensures sent == if open then Some(DnsQuery(old(nextId), server, data)) else None
    {
      var id := nextId;
      nextId := WrapAdd(nextId, 1);
      pending := pending[id := sender];
      if open {
        sent := Some(DnsQuery(id, server, data));
      } else {
        sent := None;
        pending := pending - {id};
      }
    }

    /** Returns where the answer goes, if anywhere. */
    method HandleResponse(id: u32, data: seq<byte>) returns (reply: Option<(SocketAddr, seq<byte>)>)
      modifies this
      ensures View() == Answered(old(View()), id)
      ensures reply == if id in old(pending) then Some((old(pending)[id], data)) else None
    {
      if id in pending {
        reply := Some((pending[id], data));
        pending := pending - {id};
      } else {
        reply := None;
      }
    }
  }

  function Asked(s: Pending, sender: SocketAddr, open: bool): Pending {
    Pending(if open then s.pending[s.nextId := sender] else s.pending - {s.nextId}, WrapAdd(s.nextId, 1))
  }

  function Answered(s: Pending, id: u32): Pending {
    s.(pending := s.pending - {id})
  }

  // ----------------------------------------------------------------------- histories

  datatype Event =
    | Query(sender: SocketAddr, open: bool)
    | Response(id: u32, data: seq<byte>)

  datatype Reply = Reply(id: u32, to: SocketAddr, data: seq<byte>)

  /** The forwarder with the record of everything it ever did. */
  datatype Ledger = Ledger(state: Pending, issued: map<u32, SocketAddr>, failed: set<u32>, replies: seq<Reply>)

  const Opening := Ledger(Pending(map[], 0), map[], {}, [])

  function Record(l: Ledger, e: Event): Ledger {
    match e
    case Query(sender, open) =>
      var id := l.state.nextId;
      Ledger(Asked(l.state, sender, open), l.issued[id := sender],
             if open then l.failed else l.failed + {id}, l.replies)
    case Response(id, data) =>
      l.(state := Answered(l.state, id),
         replies := if id in l.state.pending then l.replies + [Reply(id, l.state.pending[id], data)] else l.replies)
  }

  function RecordAll(l: Ledger, es: seq<Event>): Ledger
    decreases |es|
  {
    if es == [] then l else RecordAll(Record(l, es[0]), es[1..])
  }

  function Queries(es: seq<Event>): nat {
    if es == [] then 0 else (if es[0].Query? then 1 else 0) + Queries(es[1..])
  }

  function RepliedIds(rs: seq<Reply>): set<u32> {
    set r | r in rs :: r.id
  }

  /** Every id ever issued is pending, answered or failed, and only one of these; answers
      went to the sender of their id, no id twice. */
  ghost predicate Balanced(l: Ledger) {
    && (forall id :: id in l.issued ==> id < l.state.nextId)
    && l.issued.Keys == l.state.pending.Keys + RepliedIds(l.replies) + l.failed
    && l.state.pending.Keys !! RepliedIds(l.replies) !! l.failed
    && (forall id :: id in l.state.pending ==> l.state.pending[id] == l.issued[id])
    && (forall i :: 0 <= i < |l.replies| ==> l.replies[i].to == l.issued[l.replies[i].id])
    && (forall i, j :: 0 <= i < j < |l.replies| ==> l.replies[i].id != l.replies[j].id)
  }

  lemma QueryBalances(l: Ledger, sender: SocketAddr, open: bool)
    requires Balanced(l) && l.state.nextId < TWO32 - 1
    ensures Balanced(Record(l, Query(sender, open)))
  {
    var id := l.state.nextId;
    assert id !in l.issued.Keys;
    var k := Record(l, Query(sender, open));
    assert k.issued.Keys == l.issued.Keys + {id};
    assert k.state.pending.Keys == if open then l.state.pending.Keys + {id} else l.state.pending.Keys;
    forall i | 0 <= i < |k.replies| ensures k.replies[i].to == k.issued[k.replies[i].id] {
      assert k.replies[i].id in RepliedIds(l.replies);
    }
  }

  lemma ResponseBalances(l: Ledger, id: u32, data: seq<byte>)
    requires Balanced(l)
    ensures Balanced(Record(l, Response(id, data)))
    ensures id !in l.state.pending ==> Record(l, Response(id, data)) == l
  {
    var k := Record(l, Response(id, data));
    if id in l.state.pending {
      var r := Reply(id, l.state.pending[id], data);
      assert k.state.pending.Keys == l.state.pending.Keys - {id};
      assert RepliedIds(k.replies) == RepliedIds(l.replies) + {id} by {
        assert r in k.replies;
        forall s | s in k.replies ensures s.id in RepliedIds(l.replies) + {id} {
        }
        forall s | s in l.replies ensures s in k.replies {
        }
      }
      forall i | 0 <= i < |l.replies| ensures l.replies[i].id != id {
        assert l.replies[i].id in RepliedIds(l.replies);
      }
    } else {
      assert l.state.pending - {id} == l.state.pending;
    }
  }

  lemma {:induction false} RunBalances(l: Ledger, es: seq<Event>)
    requires Balanced(l) && l.state.nextId + Queries(es) < TWO32
    ensures Balanced(RecordAll(l, es))
    ensures RecordAll(l, es).state.nextId == l.state.nextId + Queries(es)
    decreases |es|
  {
    if es != [] {
      match es[0] {
        case Query(sender, open) => QueryBalances(l, sender, open);
        case Response(id, data) => ResponseBalances(l, id, data);
      }
      RunBalances(Record(l, es[0]), es[1..]);
    }
  }

  lemma {:induction false} DistinctIdsCount(rs: seq<Reply>)
    requires forall i, j :: 0 <= i < j < |rs| ==> rs[i].id != rs[j].id
    ensures |RepliedIds(rs)| == |rs|
  {
    if rs != [] {
      var n := |rs| - 1;
      DistinctIdsCount(rs[..n]);
      assert RepliedIds(rs) == RepliedIds(rs[..n]) + {rs[n].id} by {
        assert rs == rs[..n] + [rs[n]];
      }
      assert rs[n].id !in RepliedIds(rs[..n]);
    }
  }

  ghost predicate IdsBelowNext(l: Ledger) {
    forall id :: id in l.issued ==> id < l.state.nextId
  }

  lemma RecordIssues(l: Ledger, e: Event)
    requires IdsBelowNext(l) && l.state.nextId < TWO32 - 1
    ensures IdsBelowNext(Record(l, e))
    ensures |Record(l, e).issued| == |l.issued| + if e.Query? then 1 else 0
  {
    if e.Query? {
      assert l.state.nextId !in l.issued.Keys;
      assert Record(l, e).issued.Keys == l.issued.Keys + {l.state.nextId};
    }
  }

  /** Every query is issued an id of its own. */
  lemma {:induction false} RunIssues(l: Ledger, es: seq<Event>)
    requires IdsBelowNext(l) && l.state.nextId + Queries(es) < TWO32
    ensures |RecordAll(l, es).issued| == |l.issued| + Queries(es)
    decreases |es|
  {
    if es != [] {
      if es[0].Query? {
        RecordIssues(l, es[0]);
      }
      RunIssues(Record(l, es[0]), es[1..]);
    }
  }

  /** Every reply carries the data of a response to its id. */
  ghost predicate Quotes(replies: seq<Reply>, es: seq<Event>) {
    forall i :: 0 <= i < |replies| ==> Response(replies[i].id, replies[i].data) in es
  }

  lemma {:induction false} RunQuotes(l: Ledger, past: seq<Event>, es: seq<Event>)
    requires Quotes(l.replies, past)
    ensures Quotes(RecordAll(l, es).replies, past + es)
    decreases |es|
  {
    if es == [] {
      assert past + es == past;
    } else {
      assert past + es == (past + [es[0]]) + es[1..];
      RunQuotes(Record(l, es[0]), past + [es[0]], es[1..]);
    }
  }

  /** A query that was sent is answered by the first response to it, with that response's
      data: until then it is pending, and no other event touches it. */
  lemma {:induction false} FirstResponseIsTaken(l: Ledger, id: u32, others: seq<Event>, data: seq<byte>)
    requires Balanced(l) && l.state.nextId + Queries(others) < TWO32 && id in l.state.pending
    requires forall e :: e in others && e.Response? ==> e.id != id
    ensures var k := RecordAll(l, others);
      && id in k.state.pending
      && Record(k, Response(id, data)).replies == k.replies + [Reply(id, l.state.pending[id], data)]
    decreases |others|
  {
    if others != [] {
      match others[0] {
        case Query(sender, open) => QueryBalances(l, sender, open);
        case Response(other, d) => ResponseBalances(l, other, d);
      }
      FirstResponseIsTaken(Record(l, others[0]), id, others[1..], data);
    }
  }

  lemma RunCounts(es: seq<Event>)
    requires Queries(es) < TWO32
    ensures var l := RecordAll(Opening, es);
      && (forall i :: 0 <= i < |l.replies| ==>
            l.replies[i].id in l.issued && l.replies[i].to == l.issued[l.replies[i].id])
      && (forall i, j :: 0 <= i < j < |l.replies| ==> l.replies[i].id != l.replies[j].id)
      && |l.issued| == |l.replies| + |l.state.pending| + |l.failed|
  {
    RunBalances(Opening, es);
    var l := RecordAll(Opening, es);
    DistinctIdsCount(l.replies);
    forall i | 0 <= i < |l.replies| ensures l.replies[i].id in l.issued {
      assert l.replies[i].id in RepliedIds(l.replies);
    }
    assert |l.issued.Keys| == |l.state.pending.Keys| + |RepliedIds(l.replies)| + |l.failed|;
  }

  /** Over any interleaving of queries and answers, in any order and with any ids: every
      reply goes to the address that issued its id, no query is answered twice, and the
      queries issued are those answered, those pending and those that failed. */
  lemma EveryQueryIsAccountedFor(es: seq<Event>)
    requires Queries(es) < TWO32
    ensures var l := RecordAll(Opening, es);
      && (forall i :: 0 <= i < |l.replies| ==>
            l.replies[i].id in l.issued && l.replies[i].to == l.issued[l.replies[i].id])
      && (forall i, j :: 0 <= i < j < |l.replies| ==> l.replies[i].id != l.replies[j].id)
      && |l.issued| == |l.replies| + |l.state.pending| + |l.failed| == Queries(es)
      && Quotes(l.replies, es)
  {
    RunCounts(es);
    RunIssues(Opening, es);
    RunQuotes(Opening, [], es);
    assert [] + es == es;
  }
}
