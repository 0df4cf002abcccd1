/** The resolver object of resolver.c.  Each method is one stretch of code run under the mutex,
    or one callback; its effect is the step of ResolverMachine with the matching event. */
module Resolver {
  import opened Bytes
  import opened DnsFormat
  import opened DnsDup
  import opened ResolverQueries
  import opened ResolverCache
  import opened ResolverMachine

  const MAX_HOSTNAME := 128

  function LowerAll(name: Name): (r: Name)
    ensures |r| == |name| && forall i :: 0 <= i < |r| ==> r[i] == Lower(name[i])
  {
    seq(|name|, i requires 0 <= i < |name| => Lower(name[i]))
  }

  /** init_res_key: the name is copied in lower case, cut at the size of the key's buffer. */
  method InitResKey(qtype: U16, name: Name) returns (key: Key)
    ensures key == Key(qtype, LowerAll(if |name| > MAX_HOSTNAME then name[..MAX_HOSTNAME] else name))
  {
    var len := |name|;
    if len > MAX_HOSTNAME {
      len := MAX_HOSTNAME;
    }
    var dst: Name := [];
    for i := 0 to len
      invariant |dst| == i && forall j :: 0 <= j < i ==> dst[j] == Lower(name[j])
    {
      dst := dst + [Lower(name[i])];
    }
    return Key(qtype, dst);
  }

  /** Two queries share a key exactly when they ask for one type of one name, letter case aside. */
  lemma KeyIgnoresCase(t: U16, a: Name, u: U16, b: Name)
    ensures Key(t, LowerAll(a)) == Key(u, LowerAll(b)) <==> t == u && SameText(a, b)
  {
    if LowerAll(a) == LowerAll(b) {
      forall i | 0 <= i < |a|
        ensures Lower(a[i]) == Lower(b[i])
      {
        assert LowerAll(a)[i] == LowerAll(b)[i];
      }
    }
    if SameText(a, b) {
      assert LowerAll(a) == LowerAll(b);
    }
  }

  datatype Started = Served(reader: ReaderId) | Merged | Sent(node: NodeId) | Refused

  class Resolver {
    const settings: Settings

    var nodes: map<NodeId, Node>
    var next: NodeId
    var byId: map<U16, NodeId>
    var byKey: map<Key, NodeId>
    var free: seq<NodeId>
    var lastId: U16

    var heap: map<EntryId, Entry>
    var nextEntry: EntryId
    var table: map<Key, EntryId>

    // The callers: the tickets they hold, the callbacks made to them, and the cache entries
    // they are using.
    var tickets: nat
    var hits: map<Ticket, nat>
    var serving: map<ReaderId, Ticket>
    var readers: map<ReaderId, Reader>
    var nextReader: ReaderId
    var log: seq<Call>
    var late: seq<Call>

    ghost var place: map<NodeId, Place>
    ghost var dropped: set<Ticket>
    ghost var history: seq<ResolverCache.Event>
    // Handlers in progress; `done` is what their position in the list of children amounts to.
    var busy: map<NodeId, Progress>

    ghost function Queries(): Queries
      reads this
    {
      ResolverQueries.Queries(nodes, place, next, byId, byKey, free, busy, lastId, hits, tickets, dropped, log, late)
    }

    ghost function Cache(): Cache
      reads this
    {
      ResolverCache.Cache(heap, nextEntry, table, readers, nextReader, history)
    }

    ghost function Abs(): State
      reads this
    {
      State(Queries(), Cache(), serving)
    }

    constructor (st: Settings)
      ensures settings == st && Abs() == Initial()
    {
      settings := st;
      nodes, next, byId, byKey, free, lastId := map[], 0, map[], map[], [], 1;
      heap, nextEntry, table, nextReader := map[], 0, map[], 0;
      place, busy, hits, tickets, dropped, log, late := map[], map[], map[], 0, {}, [], [];
      serving, readers, history := map[], map[], [];
    }

    /** alloc_qnode: the first free node, or a new one. */
    method AllocNode() returns (n: NodeId)
      modifies `free, `next
      ensures n == NextNode(old(Queries())) && free == FreeAfter(old(Queries())) && next == NextAfter(old(Queries()))
    {
      if free != [] {
        n := free[0];
        free := free[1..];
      } else {
        n := next;
        next := next + 1;
      }
    }

    /** A reference fewer on an entry; free_entry when none is left. */
    method UnrefEntry(e: EntryId)
      requires e in heap
      modifies `heap
      ensures heap == Unref(old(heap), e)
    {
      heap := heap[e := heap[e].(refs := heap[e].refs - 1)];
      if heap[e].refs <= 0 {
        heap := heap - {e};
      }
      assert heap == Unref(old(heap), e);
    }

    /** Serving from the cache: the entry is referenced before the mutex is released. */
    method AcquireEntry(key: Key) returns (r: ReaderId)
      requires key in table && table[key] in heap
      modifies `heap, `readers, `nextReader
      ensures r == old(nextReader) && Cache() == Acquire(old(Cache()), key)
    {
      var e := table[key];
      readers := readers[nextReader := Reader(e, heap[e].pkt)];
      heap := heap[e := heap[e].(refs := heap[e].refs + 1)];
      r := nextReader;
      nextReader := r + 1;
    }

    /** The caller of a start that the cache answers. */
    method IssueHit(r: ReaderId, cb: bool, rcode: nat)
      modifies `serving, `hits, `tickets
      ensures Queries() == Hit(old(Queries()), cb, rcode)
      ensures serving == if cb then old(serving)[r := old(tickets)] else old(serving)
    {
      if cb {
        serving := serving[r := tickets];
        hits := hits[tickets := rcode];
        tickets := tickets + 1;
      }
    }

    /** Removing an expired entry, or one whose key is cleared. */
    method DropKey(key: Key)
      requires key in table ==> table[key] in heap
      modifies `heap, `table, `history
      ensures Cache() == Drop(old(Cache()), key) && key !in table
    {
      if key in table {
        var e := table[key];
        table := table - {key};
        UnrefEntry(e);
        history := history + [Cleared(key)];
      }
    }

    /** A query for a key that is pending already: a child of the pending one. */
    method AddChild(key: Key, cb: bool)
      requires key in byKey && byKey[key] in nodes
      modifies `nodes, `place, `next, `free, `tickets
      ensures Queries() == Merge(old(Queries()), key, cb)
    {
      hide NextNode, FreeAfter, NextAfter;
      var p := byKey[key];
      var n := AllocNode();
      nodes := WithChild(nodes, p, n, Node(0, NO_KEY, 0, if cb then Some(tickets) else None, [], false));
      place := place[n := ChildOf(p)];
      tickets := if cb then tickets + 1 else tickets;
    }

    /** The query enters both tables. */
    method IndexNode(n: NodeId, key: Key)
      modifies `place, `byId, `byKey
      ensures byId == old(byId)[lastId := n] && byKey == old(byKey)[key := n] && place == old(place)[n := InTable]
    {
      byId := byId[lastId := n];
      byKey := byKey[key := n];
      place := place[n := InTable];
    }

    /** A query for a new key that transmit_query could send. */
    method SendQuery(key: Key, cb: bool) returns (n: NodeId)
      modifies `nodes, `place, `next, `byId, `byKey, `free, `lastId, `tickets
      ensures Queries() == Begin(old(Queries()), key, cb) && n == NextNode(old(Queries()))
    {
      hide NextNode, FreeAfter, NextAfter, NextId;
      n := AllocNode();
      nodes := nodes[n := Node(lastId, key, 1, if cb then Some(tickets) else None, [], true)];
      IndexNode(n, key);
      lastId := NextId(lastId);
      tickets := if cb then tickets + 1 else tickets;
    }

    /** A query for a new key that could not be sent. */
    method RefuseQuery(key: Key, cb: bool)
      modifies `nodes, `place, `next, `free, `lastId
      ensures Queries() == Refuse(old(Queries()), key, cb)
    {
      hide NextNode, FreeAfter, NextAfter;
      var n := AllocNode();
      nodes := nodes[n := Node(lastId, key, 0, if cb then Some(tickets) else None, [], false)];
      lastId := NextId(lastId);
      free := free + [n];
      place := place[n := Free];
    }

    /** The part of a start that follows a cache miss. */
    method StartUncached(key: Key, cb: bool, sent: bool) returns (r: Started)
      requires key in byKey ==> byKey[key] in nodes
      modifies `nodes, `place, `next, `byId, `byKey, `free, `lastId, `tickets
      ensures Queries() == ResolverMachine.StartQuery(old(Queries()), key, cb, sent)
      ensures r == if key in old(byKey) then Merged else if sent then Sent(NextNode(old(Queries()))) else Refused
    {
      hide NextNode, Merge, Begin, Refuse;
      if key in byKey {
        AddChild(key, cb);
        return Merged;
      }
      if !sent {
        RefuseQuery(key, cb);
        return Refused;
      }
      var n := SendQuery(key, cb);
      return Sent(n);
    }

    method StartCached(key: Key, cb: bool) returns (r: ReaderId)
      requires key in table && table[key] in heap
      modifies `heap, `readers, `nextReader, `serving, `hits, `tickets
      ensures r == old(nextReader)
      ensures Abs() == State(Hit(old(Queries()), cb, Rcode(old(heap)[old(table)[key]].pkt.hdr.flags)),
                             Acquire(old(Cache()), key),
                             if cb then old(serving)[r := old(tickets)] else old(serving))
    {
      hide Hit, Acquire;
      var rcode := Rcode(heap[table[key]].pkt.hdr.flags);
      r := AcquireEntry(key);
      IssueHit(r, cb, rcode);
    }

    method StartMissed(key: Key, cb: bool, sent: bool) returns (r: Started)
      requires (key in table ==> table[key] in heap) && (key in byKey ==> byKey[key] in nodes)
      modifies `heap, `table, `history, `nodes, `place, `next, `byId, `byKey, `free, `lastId, `tickets
      ensures Abs() == State(ResolverMachine.StartQuery(old(Queries()), key, cb, sent), Drop(old(Cache()), key), old(serving))
      ensures r == if key in old(byKey) then Merged else if sent then Sent(NextNode(old(Queries()))) else Refused
    {
      hide ResolverMachine.StartQuery, Drop, NextNode;
      ghost var q := Queries();
      DropKey(key);
      assert Queries() == q;
      ghost var c := Cache();
      r := StartUncached(key, cb, sent);
      assert Cache() == c;
    }

    /** pj_dns_resolver_start_query up to its first unlock, or to its end when the cache has no
        fresh answer.  `sent` says whether transmit_query succeeds. */
    method StartQuery(key: Key, cb: bool, now: Time, sent: bool) returns (r: Started)
      requires Linked(Abs()) && lastId !in byId
      modifies this
      ensures Abs() == Step(old(Abs()), Start(key, cb, now, sent), settings)
      ensures r == if Fresh(old(Cache()), key, now) then Served(old(nextReader))
                   else if key in old(byKey) then Merged
                   else if sent then Sent(NextNode(old(Queries())))
                   else Refused
    {
      assert (key in table ==> table[key] in heap) && (key in byKey ==> byKey[key] in nodes);
      StartStep(Abs(), key, cb, now, sent, settings);
      hide Linked, Enabled, Acquire, Drop, Hit, ResolverMachine.StartQuery, NextNode, Step;
      if key in table && After(heap[table[key]].expiry, now) {
        var reader := StartCached(key, cb);
        return Served(reader);
      }
      r := StartMissed(key, cb, sent);
    }

    /** The callback of a cache hit, made without the mutex, with the entry's packet. */
    method ServeHit(r: ReaderId) returns (call: Call, pkt: Packet)
      requires Linked(Abs()) && r in serving
      modifies `log, `hits, `serving
      ensures Abs() == Step(old(Abs()), ResolverMachine.ServeHit(r), settings)
      ensures r in readers ==> readers[r].entry in heap && pkt == heap[readers[r].entry].pkt
      ensures log == old(log) + [call]
    {
      assert readers[r].entry in heap && serving[r] in hits;
      hide Linked, Enabled;
      pkt := heap[readers[r].entry].pkt;
      var t := serving[r];
      call := Call(t, FromCache(hits[t]));
      log := log + [call];
      hits := hits - {t};
      serving := serving - {r};
    }

    /** After the callback: the reference is given back. */
    method LeaveHit(r: ReaderId)
      requires Linked(Abs()) && r in readers && r !in serving
      modifies `heap, `readers
      ensures Abs() == Step(old(Abs()), ResolverMachine.LeaveHit(r), settings)
    {
      assert readers[r].entry in heap;
      hide Linked, Enabled, Unref;
      UnrefEntry(readers[r].entry);
      readers := readers - {r};
    }

    /** The callback is taken out of the query and, if asked for, made. */
    method SilenceQuery(n: NodeId, notify: bool)
      requires n in nodes && (notify ==> nodes[n].cb.Some?)
      modifies `nodes, `log, `late, `dropped
      ensures Queries() == if notify then CancelNotify(old(Queries()), n) else CancelSilently(old(Queries()), n)
    {
      var cb := nodes[n].cb;
      // The code does not ask whether the callback was made; the records of calls do.
      var inTime := n !in busy || busy[n].done == 0;
      if !notify && cb.Some? && inTime {
        dropped := dropped + {cb.value};
      }
      nodes := nodes[n := nodes[n].(cb := None)];
      if notify && inTime {
        log := log + [Call(cb.value, Cancelled)];
      } else if notify {
        late := late + [Call(cb.value, Cancelled)];
      }
    }

    /** pj_dns_resolver_cancel_query. */
    method CancelQuery(n: NodeId, notify: bool)
      requires Linked(Abs()) && n in nodes && Parent(place, n)
      requires notify ==> nodes[n].cb.Some?
      modifies `nodes, `log, `late, `dropped
      ensures Abs() == Step(old(Abs()), ResolverMachine.CancelQuery(n, notify), settings)
    {
      hide Linked, CancelNotify, CancelSilently;
      CancelSteps(Abs(), n, notify, settings);
      hide Step, Enabled;
      SilenceQuery(n, notify);
    }

    /** Clearing both hash table entries of a query, which its handler then owns. */
    method TakeOut(n: NodeId, outcome: Outcome)
      requires n in nodes
      modifies `byId, `byKey, `nodes, `place, `busy
      ensures Queries() == Detach(old(Queries()), n, outcome)
    {
      byId := byId - {nodes[n].id};
      byKey := byKey - {nodes[n].key};
      nodes := nodes[n := nodes[n].(timer := false)];
      place := place[n := InHandler];
      busy := busy[n := Progress(0, outcome)];
    }

    /** on_timeout up to its unlock.  `sent` says whether transmit_query would succeed. */
    method OnTimeout(n: NodeId, sent: bool) returns (timedOut: bool)
      requires Linked(Abs()) && n in nodes && n in place && place[n] == InTable
      modifies `byId, `byKey, `nodes, `place, `busy
      ensures Abs() == Step(old(Abs()), TimerExpires(n, sent), settings)
      ensures timedOut <==> !(old(nodes)[n].sent < settings.retries && sent)
    {
      hide Linked, Enabled, Detach;
      if nodes[n].sent < settings.retries && sent {
        nodes := nodes[n := nodes[n].(sent := nodes[n].sent + 1)];
        return false;
      }
      TakeOut(n, TimedOut);
      return true;
    }

    /** on_read_complete up to its unlock; a response that matches no query is discarded. */
    method OnResponse(id: U16, rcode: nat) returns (n: Option<NodeId>)
      requires Linked(Abs())
      modifies `byId, `byKey, `nodes, `place, `busy
      ensures id !in old(byId) ==> n == None && Abs() == old(Abs())
      ensures id in old(byId) ==>
        n == Some(old(byId)[id]) && Abs() == Step(old(Abs()), ResponseArrives(id, rcode), settings)
    {
      if id !in byId {
        return None;
      }
      assert byId[id] in nodes;
      hide Linked, Enabled, Detach;
      n := Some(byId[id]);
      TakeOut(n.value, Answered(rcode));
    }

    /** One turn of the callback loops of on_timeout and on_read_complete. */
    method CallOwner(n: NodeId) returns (call: Option<Call>)
      requires Linked(Abs()) && n in busy && n in nodes && busy[n].done <= |nodes[n].children|
      modifies `busy, `log
      ensures Abs() == Step(old(Abs()), ResolverMachine.CallOwner(n), settings)
      ensures log == if call.Some? then old(log) + [call.value] else old(log)
    {
      assert busy[n].done > 0 ==> nodes[n].children[busy[n].done - 1] in nodes;
      hide Linked, Enabled;
      var owner := if busy[n].done == 0 then n else nodes[n].children[busy[n].done - 1];
      call := None;
      if nodes[owner].cb.Some? {
        call := Some(Call(nodes[owner].cb.value, busy[n].outcome));
        log := log + [call.value];
      }
      busy := busy[n := busy[n].(done := busy[n].done + 1)];
    }

    /** The recycling loops: the children in order, then the query. */
    method RecycleNodes(n: NodeId)
      requires n in nodes
      modifies `free, `place, `busy
      ensures Queries() == Recycle(old(Queries()), n)
    {
      var children := nodes[n].children;
      for i := 0 to |children|
        modifies `free
        invariant free == old(free) + children[..i]
      {
        assert children[..i + 1] == children[..i] + [children[i]];
        free := free + [children[i]];
      }
      assert children[..|children|] == children;
      free := free + [n];
      assert free == old(free) + (children + [n]);
      place := map m | m in place :: if m in children + [n] then Free else place[m];
      busy := busy - {n};
    }

    /** on_timeout from its second lock on. */
    method FinishTimeout(n: NodeId)
      requires Linked(Abs()) && n in busy && n in nodes && busy[n].done == 1 + |nodes[n].children| && busy[n].outcome == TimedOut
      modifies `free, `place, `busy
      ensures Abs() == Step(old(Abs()), ResolverMachine.FinishTimeout(n), settings)
    {
      hide Linked, Enabled, Recycle;
      RecycleNodes(n);
    }

    /** update_res_cache. */
    method UpdateCache(key: Key, ok: bool, setExpiry: bool, pkt: Packet, dup: Packet, now: Time)
      requires key in table ==> table[key] in heap
      modifies `heap, `nextEntry, `table, `history
      ensures Cache() == Update(old(Cache()), Stored(key, pkt, ok, setExpiry, now), dup, settings.maxTtl)
    {
      hide Drop, SmallestTtl;
      if !ok {
        DropKey(key);
      }
      var ttl := Ttl(pkt, ok, setExpiry, settings.maxTtl);
      if ttl == 0 {
        DropKey(key);
        return;
      }
      var expiry := Expiry(setExpiry, now, ttl);
      var e := nextEntry;
      if key in table && heap[table[key]].refs <= 1 {
        e := table[key];
        heap := heap[e := Entry(key, expiry, dup, heap[e].refs)];
      } else {
        if key in table {
          UnrefEntry(table[key]);
        }
        nextEntry := nextEntry + 1;
        heap := heap[e := Entry(key, expiry, dup, 1)];
        table := table[key := e];
      }
      history := history + [Stored(key, pkt, ok, setExpiry, now)];
    }

    /** on_read_complete from its second lock on: the response is cached, then the query recycled. */
    method FinishAnswer(n: NodeId, pkt: Packet, dup: Packet, now: Time)
      requires Linked(Abs()) && Enabled(Abs(), ResolverMachine.FinishAnswer(n, pkt, dup, now))
      modifies `free, `place, `busy, `heap, `nextEntry, `table, `history
      ensures Abs() == Step(old(Abs()), ResolverMachine.FinishAnswer(n, pkt, dup, now), settings)
    {
      hide Recycle, Update, IsDup, Step, Linked, Enabled;
      FinishAnswerStep(Abs(), n, pkt, dup, now, settings);
      var key := nodes[n].key;
      UpdateCache(key, busy[n].outcome == Answered(0), true, pkt, dup, now);
      RecycleNodes(n);
    }

    /** pj_dns_resolver_add_entry: a response offered by the application. */
    method AddEntry(key: Key, pkt: Packet, dup: Packet, setExpiry: bool, now: Time)
      requires Linked(Abs()) && IsDup(dup, pkt)
      modifies `heap, `nextEntry, `table, `history
      ensures Abs() == Step(old(Abs()), ResolverMachine.AddEntry(key, pkt, dup, setExpiry, now), settings)
    {
      hide Update, IsDup;
      assert key in table ==> table[key] in heap;
      hide Linked;
      UpdateCache(key, true, setExpiry, pkt, dup, now);
    }
  }
}
