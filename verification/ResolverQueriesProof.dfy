/** Every transition of the pending-query machine keeps its invariant. */
module ResolverQueriesProof {
  import opened Bytes
  import opened DnsFormat
  import opened ResolverQueries

  // ------------------------------------------------------------------ the ledger of tickets

  lemma Logged(log: seq<Call>, c: Call)
    ensures forall t {:trigger Called(log + [c], t)} :: Called(log + [c], t) <==> Called(log, t) || t == c.ticket
  {
    forall t
      ensures Called(log + [c], t) <==> Called(log, t) || t == c.ticket
    {
      if Called(log, t) {
        var i :| 0 <= i < |log| && log[i].ticket == t;
        assert (log + [c])[i].ticket == t;
      }
      assert (log + [c])[|log|] == c;
    }
  }

  /** A new ticket handed to a node that held none. */
  lemma Issue(held: map<NodeId, Ticket>, log: seq<Call>, dropped: set<Ticket>, hits: map<Ticket, nat>, tickets: nat, n: NodeId)
    requires Ledger(held, log, dropped, hits, tickets) && n !in held
    ensures Ledger(held[n := tickets], log, dropped, hits, tickets + 1)
  {
    var after := held[n := tickets];
    forall t: nat | t < tickets + 1 && !Called(log, t) && t !in dropped && t !in hits
      ensures exists m {:trigger after[m]} :: m in after && after[m] == t
    {
      if t < tickets {
        var m :| m in held && held[m] == t;
        assert after[m] == t;
      } else {
        assert after[n] == t;
      }
    }
  }

  /** The holder of a ticket is called back and holds it no longer. */
  lemma CallHeld(held: map<NodeId, Ticket>, log: seq<Call>, dropped: set<Ticket>, hits: map<Ticket, nat>, tickets: nat, n: NodeId, o: Outcome)
    requires Ledger(held, log, dropped, hits, tickets) && n in held
    ensures Ledger(held - {n}, log + [Call(held[n], o)], dropped, hits, tickets)
  {
    var c := Call(held[n], o);
    Logged(log, c);
    var after := held - {n};
    forall t: nat | t < tickets && !Called(log + [c], t) && t !in dropped && t !in hits
      ensures exists m {:trigger after[m]} :: m in after && after[m] == t
    {
      var m :| m in held && held[m] == t;
      assert after[m] == t;
    }
  }

  lemma DropHeld(held: map<NodeId, Ticket>, log: seq<Call>, dropped: set<Ticket>, hits: map<Ticket, nat>, tickets: nat, n: NodeId)
    requires Ledger(held, log, dropped, hits, tickets) && n in held
    ensures Ledger(held - {n}, log, dropped + {held[n]}, hits, tickets)
  {
    var after := held - {n};
    forall t: nat | t < tickets && !Called(log, t) && t !in dropped + {held[n]} && t !in hits
      ensures exists m {:trigger after[m]} :: m in after && after[m] == t
    {
      var m :| m in held && held[m] == t;
      assert after[m] == t;
    }
  }

  lemma IssueHit(held: map<NodeId, Ticket>, log: seq<Call>, dropped: set<Ticket>, hits: map<Ticket, nat>, tickets: nat, rcode: nat)
    requires Ledger(held, log, dropped, hits, tickets)
    ensures Ledger(held, log, dropped, hits[tickets := rcode], tickets + 1)
  {
  }

  lemma CallHit(held: map<NodeId, Ticket>, log: seq<Call>, dropped: set<Ticket>, hits: map<Ticket, nat>, tickets: nat, t: Ticket)
    requires Ledger(held, log, dropped, hits, tickets) && t in hits
    ensures Ledger(held, log + [Call(t, FromCache(hits[t]))], dropped, hits - {t}, tickets)
  {
    Logged(log, Call(t, FromCache(hits[t])));
  }

  // ------------------------------------------------------------------ allocation

  predicate Spare(place: Places, n: NodeId) {
    n !in place || place[n] == Free
  }

  /** Where the node of alloc_qnode comes from. */
  lemma Allocated(s: Queries)
    requires FreeOk(s.place, s.next, s.free)
    ensures var n, free := NextNode(s), FreeAfter(s);
            && Spare(s.place, n)
            && n < NextAfter(s) && s.next <= NextAfter(s) && n !in free && NoDup(free)
            && (forall m :: m in free <==> m in s.free && m != n)
  {
  }

  /** Taking the node out of the free list into any other place. */
  lemma TakenKeepsFree(s: Queries, at: Place)
    requires FreeOk(s.place, s.next, s.free) && at != Free
    ensures FreeOk(s.place[NextNode(s) := at], NextAfter(s), FreeAfter(s))
  {
    Allocated(s);
    hide NextNode, FreeAfter, NextAfter, NoDup;
  }

  lemma ReturnedKeepsFree(s: Queries)
    requires FreeOk(s.place, s.next, s.free)
    ensures FreeOk(s.place[NextNode(s) := Free], NextAfter(s), FreeAfter(s) + [NextNode(s)])
  {
    Allocated(s);
    hide NextNode, FreeAfter, NextAfter;
  }

  // ------------------------------------------------------------------ merging

  lemma ChildKeepsTables(nodes: Nodes, place: Places, byId: map<U16, NodeId>, byKey: map<Key, NodeId>, p: NodeId, n: NodeId, node: Node)
    requires TablesOk(nodes, place, byId, byKey) && p in nodes && Parent(place, p) && Spare(place, n)
    ensures TablesOk(WithChild(nodes, p, n, node), place[n := ChildOf(p)], byId, byKey)
  {
  }

  lemma ChildKeepsHandlers(nodes: Nodes, place: Places, busy: map<NodeId, Progress>, p: NodeId, n: NodeId, node: Node)
    requires HandlersOk(nodes, place, busy) && p in nodes && p in place && place[p] == InTable && Spare(place, n)
    ensures HandlersOk(WithChild(nodes, p, n, node), place[n := ChildOf(p)], busy)
  {
  }

  lemma ChildKeepsFamily(nodes: Nodes, place: Places, p: NodeId, n: NodeId, node: Node)
    requires FamilyOk(nodes, place) && p in nodes && Parent(place, p) && Spare(place, n)
    ensures FamilyOk(WithChild(nodes, p, n, node), place[n := ChildOf(p)])
  {
    assert n !in nodes[p].children;
  }

  lemma ChildKeepsTimers(nodes: Nodes, place: Places, retries: nat, p: NodeId, n: NodeId, node: Node)
    requires TimersOk(nodes, place, retries) && p in nodes && Parent(place, p) && Spare(place, n)
    ensures TimersOk(WithChild(nodes, p, n, node), place[n := ChildOf(p)], retries)
  {
  }

  lemma ChildKeepsAwaiting(nodes: Nodes, place: Places, busy: map<NodeId, Progress>, p: NodeId, n: NodeId, node: Node, m: NodeId)
    requires HandlersOk(nodes, place, busy) && FamilyOk(nodes, place) && p in nodes && p in place && place[p] == InTable && Spare(place, n)
    ensures m != n ==> (Awaiting(WithChild(nodes, p, n, node), place[n := ChildOf(p)], busy, m) <==> Awaiting(nodes, place, busy, m))
    ensures Awaiting(WithChild(nodes, p, n, node), place[n := ChildOf(p)], busy, n) && !Awaiting(nodes, place, busy, n)
  {
  }

  /** The new child, and nobody else, comes to hold a ticket. */
  lemma ChildHolds(nodes: Nodes, place: Places, busy: map<NodeId, Progress>, p: NodeId, n: NodeId, node: Node)
    requires HandlersOk(nodes, place, busy) && FamilyOk(nodes, place) && p in nodes && p in place && place[p] == InTable && Spare(place, n)
    ensures n !in Held(nodes, place, busy)
    ensures Held(WithChild(nodes, p, n, node), place[n := ChildOf(p)], busy) ==
            if node.cb.Some? then Held(nodes, place, busy)[n := node.cb.value] else Held(nodes, place, busy)
  {
    hide Awaiting, FamilyOk, HandlersOk, Spare;
    var nodes', place' := WithChild(nodes, p, n, node), place[n := ChildOf(p)];
    forall m
      ensures m != n ==> (Awaiting(nodes', place', busy, m) <==> Awaiting(nodes, place, busy, m))
      ensures Awaiting(nodes', place', busy, n) && !Awaiting(nodes, place, busy, n)
    {
      ChildKeepsAwaiting(nodes, place, busy, p, n, node, m);
    }
    SpareIsNot(place, n, p);
    var held, held' := Held(nodes, place, busy), Held(nodes', place', busy);
    assert forall m {:trigger m in held'} :: m in held' <==> m in held || (m == n && node.cb.Some?);
    assert forall m {:trigger held'[m]} :: m in held' ==> held'[m] == if m == n then node.cb.value else held[m];
  }

  lemma SpareIsNot(place: Places, n: NodeId, p: NodeId)
    requires Spare(place, n) && p in place && place[p] == InTable
    ensures n != p
  {
  }

  // ------------------------------------------------------------------ beginning

  lemma IndexedKeepsTables(nodes: Nodes, place: Places, byId: map<U16, NodeId>, byKey: map<Key, NodeId>, n: NodeId, node: Node)
    requires TablesOk(nodes, place, byId, byKey) && Spare(place, n)
    requires node.id !in byId && node.key !in byKey
    ensures TablesOk(nodes[n := node], place[n := InTable], byId[node.id := n], byKey[node.key := n])
  {
  }

  lemma SpareKeepsTables(nodes: Nodes, place: Places, byId: map<U16, NodeId>, byKey: map<Key, NodeId>, n: NodeId, node: Node)
    requires TablesOk(nodes, place, byId, byKey) && Spare(place, n)
    ensures TablesOk(nodes[n := node], place[n := Free], byId, byKey)
  {
  }

  lemma PlacedKeepsHandlers(nodes: Nodes, place: Places, busy: map<NodeId, Progress>, n: NodeId, node: Node, at: Place)
    requires HandlersOk(nodes, place, busy) && Spare(place, n) && at != InHandler
    ensures HandlersOk(nodes[n := node], place[n := at], busy)
  {
  }

  lemma PlacedKeepsFamily(nodes: Nodes, place: Places, n: NodeId, node: Node, at: Place)
    requires FamilyOk(nodes, place) && Spare(place, n) && (at == InTable || at == Free) && node.children == []
    ensures FamilyOk(nodes[n := node], place[n := at])
  {
  }

  /** Only a node placed in the tables comes to hold a ticket. */
  lemma PlacedHolds(nodes: Nodes, place: Places, busy: map<NodeId, Progress>, n: NodeId, node: Node, at: Place)
    requires HandlersOk(nodes, place, busy) && FamilyOk(nodes, place) && Spare(place, n) && (at == InTable || at == Free)
    ensures n !in Held(nodes, place, busy)
    ensures Held(nodes[n := node], place[n := at], busy) ==
            if at == InTable && node.cb.Some? then Held(nodes, place, busy)[n := node.cb.value] else Held(nodes, place, busy)
  {
    forall m | m != n
      ensures Awaiting(nodes[n := node], place[n := at], busy, m) <==> Awaiting(nodes, place, busy, m)
    {
    }
    hide Awaiting, FamilyOk, HandlersOk;
  }

  // ------------------------------------------------------------------ changes to one pending node

  /** A change that leaves id, key and children alone keeps indexes and families. */
  lemma EditKeepsIndexes(nodes: Nodes, place: Places, byId: map<U16, NodeId>, byKey: map<Key, NodeId>, n: NodeId, node: Node)
    requires TablesOk(nodes, place, byId, byKey) && n in nodes
    requires node.id == nodes[n].id && node.key == nodes[n].key
    ensures TablesOk(nodes[n := node], place, byId, byKey)
  {
  }

  lemma EditKeepsHandlers(nodes: Nodes, place: Places, busy: map<NodeId, Progress>, n: NodeId, node: Node)
    requires HandlersOk(nodes, place, busy) && n in nodes && node.children == nodes[n].children
    ensures HandlersOk(nodes[n := node], place, busy)
  {
  }

  lemma EditKeepsFamily(nodes: Nodes, place: Places, n: NodeId, node: Node)
    requires FamilyOk(nodes, place) && n in nodes && node.children == nodes[n].children
    ensures FamilyOk(nodes[n := node], place)
  {
  }

  lemma EditKeepsAwaiting(nodes: Nodes, place: Places, busy: map<NodeId, Progress>, n: NodeId, node: Node, m: NodeId)
    requires n in nodes && node.children == nodes[n].children
    ensures Awaiting(nodes[n := node], place, busy, m) <==> Awaiting(nodes, place, busy, m)
  {
  }

  /** Clearing a callback takes its ticket, if still held, away from the node. */
  lemma SilencedHolds(nodes: Nodes, place: Places, busy: map<NodeId, Progress>, n: NodeId)
    requires n in nodes
    ensures Held(nodes[n := nodes[n].(cb := None)], place, busy) == Held(nodes, place, busy) - {n}
  {
    forall m
      ensures Awaiting(nodes[n := nodes[n].(cb := None)], place, busy, m) <==> Awaiting(nodes, place, busy, m)
    {
      EditKeepsAwaiting(nodes, place, busy, n, nodes[n].(cb := None), m);
    }
    hide Awaiting;
  }

  lemma ResentHolds(nodes: Nodes, place: Places, busy: map<NodeId, Progress>, n: NodeId, sent: nat)
    requires n in nodes
    ensures Held(nodes[n := nodes[n].(sent := sent)], place, busy) == Held(nodes, place, busy)
  {
    forall m
      ensures Awaiting(nodes[n := nodes[n].(sent := sent)], place, busy, m) <==> Awaiting(nodes, place, busy, m)
    {
      EditKeepsAwaiting(nodes, place, busy, n, nodes[n].(sent := sent), m);
    }
    hide Awaiting;
  }

  // ------------------------------------------------------------------ into a handler's hands

  function Stopped(nodes: Nodes, n: NodeId): Nodes
    requires n in nodes
  {
    nodes[n := nodes[n].(timer := false)]
  }

  lemma DetachKeepsTables(nodes: Nodes, place: Places, byId: map<U16, NodeId>, byKey: map<Key, NodeId>, n: NodeId)
    requires TablesOk(nodes, place, byId, byKey) && n in nodes && n in place && place[n] == InTable
    ensures TablesOk(Stopped(nodes, n), place[n := InHandler], byId - {nodes[n].id}, byKey - {nodes[n].key})
  {
  }

  lemma DetachKeepsFree(place: Places, next: NodeId, free: seq<NodeId>, n: NodeId)
    requires FreeOk(place, next, free) && n in place && place[n] == InTable
    ensures FreeOk(place[n := InHandler], next, free)
  {
  }

  lemma DetachKeepsHandlers(nodes: Nodes, place: Places, busy: map<NodeId, Progress>, n: NodeId, o: Outcome)
    requires HandlersOk(nodes, place, busy) && n in nodes && n in place && place[n] == InTable
    ensures HandlersOk(Stopped(nodes, n), place[n := InHandler], busy[n := Progress(0, o)])
  {
  }

  lemma DetachKeepsFamily(nodes: Nodes, place: Places, n: NodeId)
    requires FamilyOk(nodes, place) && n in nodes && n in place && place[n] == InTable
    ensures FamilyOk(Stopped(nodes, n), place[n := InHandler])
  {
  }

  lemma DetachKeepsTimers(nodes: Nodes, place: Places, retries: nat, n: NodeId)
    requires TimersOk(nodes, place, retries) && n in nodes && n in place && place[n] == InTable
    ensures TimersOk(Stopped(nodes, n), place[n := InHandler], retries)
  {
  }

  lemma DetachHolds(nodes: Nodes, place: Places, busy: map<NodeId, Progress>, n: NodeId, o: Outcome)
    requires HandlersOk(nodes, place, busy) && n in nodes && n in place && place[n] == InTable
    ensures Held(Stopped(nodes, n), place[n := InHandler], busy[n := Progress(0, o)]) == Held(nodes, place, busy)
  {
    var nodes', place', busy' := Stopped(nodes, n), place[n := InHandler], busy[n := Progress(0, o)];
    forall m
      ensures Awaiting(nodes', place', busy', m) <==> Awaiting(nodes, place, busy, m)
    {
    }
    hide Awaiting;
  }

  // ------------------------------------------------------------------ callbacks and recycling

  lemma CallKeepsHandlers(nodes: Nodes, place: Places, busy: map<NodeId, Progress>, n: NodeId)
    requires HandlersOk(nodes, place, busy) && n in busy && busy[n].done <= |nodes[n].children|
    ensures HandlersOk(nodes, place, busy[n := busy[n].(done := busy[n].done + 1)])
  {
  }

  function Owner(nodes: Nodes, n: NodeId, done: nat): NodeId
    requires n in nodes && done <= |nodes[n].children|
  {
    if done == 0 then n else nodes[n].children[done - 1]
  }

  /** The considered owner, and nobody else, stops holding a ticket; before, it held its own. */
  /** Who still waits after a handler has called the next owner. */
  lemma CallAwaits(nodes: Nodes, place: Places, busy: map<NodeId, Progress>, n: NodeId, m: NodeId)
    requires HandlersOk(nodes, place, busy) && FamilyOk(nodes, place) && place.Keys == nodes.Keys
    requires n in busy && busy[n].done <= |nodes[n].children|
    ensures var o := Owner(nodes, n, busy[n].done);
            && o in nodes && Awaiting(nodes, place, busy, o)
            && (Awaiting(nodes, place, busy[n := busy[n].(done := busy[n].done + 1)], m) <==>
                Awaiting(nodes, place, busy, m) && m != o)
  {
    var d := busy[n].done;
    var kids := nodes[n].children;
    assert n in nodes && NoDup(kids);
    if d > 0 {
      assert kids[d - 1] in kids;
      assert kids[..d] == kids[..d - 1] + [kids[d - 1]];
    }
  }

  lemma CallHolds(nodes: Nodes, place: Places, busy: map<NodeId, Progress>, n: NodeId)
    requires HandlersOk(nodes, place, busy) && FamilyOk(nodes, place) && place.Keys == nodes.Keys
    requires n in busy && busy[n].done <= |nodes[n].children|
    ensures var o := Owner(nodes, n, busy[n].done);
            && o in nodes && Awaiting(nodes, place, busy, o)
            && Held(nodes, place, busy[n := busy[n].(done := busy[n].done + 1)]) == Held(nodes, place, busy) - {o}
  {
    hide Awaiting, FamilyOk;
    var busy' := busy[n := busy[n].(done := busy[n].done + 1)];
    var o := Owner(nodes, n, busy[n].done);
    CallAwaits(nodes, place, busy, n, n);
    forall m
      ensures Awaiting(nodes, place, busy', m) <==> Awaiting(nodes, place, busy, m) && m != o
    {
      CallAwaits(nodes, place, busy, n, m);
    }
  }

  /** Everything in the handler's hands goes to the free list. */
  function Freed(place: Places, gone: seq<NodeId>): Places {
    map m | m in place :: if m in gone then Free else place[m]
  }

  lemma RecycledNodes(nodes: Nodes, place: Places, busy: map<NodeId, Progress>, n: NodeId)
    requires HandlersOk(nodes, place, busy) && FamilyOk(nodes, place) && n in busy
    ensures var gone := nodes[n].children + [n];
            && NoDup(gone)
            && (forall m :: m in gone <==> m == n || (m in place && place[m] == ChildOf(n)))
            && (forall m :: m in gone ==> m in place && !(place[m] == InTable || place[m] == Free))
  {
    var kids := nodes[n].children;
    assert Parent(place, n);
    forall m
      ensures m in kids <==> m in place && place[m] == ChildOf(n)
    {
    }
    forall m
      ensures m in kids + [n] <==> m in kids || m == n
    {
    }
  }

  lemma RecycleKeepsTables(nodes: Nodes, place: Places, byId: map<U16, NodeId>, byKey: map<Key, NodeId>, gone: seq<NodeId>)
    requires TablesOk(nodes, place, byId, byKey)
    requires forall m :: m in gone ==> m in place && place[m] != InTable
    ensures TablesOk(nodes, Freed(place, gone), byId, byKey)
  {
  }

  lemma RecycleKeepsFree(place: Places, next: NodeId, free: seq<NodeId>, gone: seq<NodeId>)
    requires FreeOk(place, next, free) && NoDup(gone)
    requires forall m :: m in gone ==> m in place && place[m] != Free
    ensures FreeOk(Freed(place, gone), next, free + gone)
  {
  }

  lemma RecycleKeepsHandlers(nodes: Nodes, place: Places, busy: map<NodeId, Progress>, gone: seq<NodeId>, n: NodeId)
    requires HandlersOk(nodes, place, busy) && n in busy
    requires forall m :: m in gone <==> m == n || (m in place && place[m] == ChildOf(n))
    ensures HandlersOk(nodes, Freed(place, gone), busy - {n})
  {
  }

  lemma RecycleKeepsFamily(nodes: Nodes, place: Places, gone: seq<NodeId>, n: NodeId)
    requires FamilyOk(nodes, place) && n in place && place[n] == InHandler
    requires forall m :: m in gone <==> m == n || (m in place && place[m] == ChildOf(n))
    ensures FamilyOk(nodes, Freed(place, gone))
  {
  }

  /** By then nobody in the handler's hands holds a ticket. */
  lemma RecycleHolds(nodes: Nodes, place: Places, busy: map<NodeId, Progress>, gone: seq<NodeId>, n: NodeId)
    requires HandlersOk(nodes, place, busy) && FamilyOk(nodes, place) && place.Keys == nodes.Keys
    requires n in busy && busy[n].done == 1 + |nodes[n].children|
    requires forall m :: m in gone <==> m == n || (m in place && place[m] == ChildOf(n))
    ensures Held(nodes, Freed(place, gone), busy - {n}) == Held(nodes, place, busy)
  {
    var kids := nodes[n].children;
    assert kids[..|kids|] == kids;
    forall m
      ensures Awaiting(nodes, Freed(place, gone), busy - {n}, m) <==> Awaiting(nodes, place, busy, m)
    {
    }
    hide Awaiting;
  }

  // ------------------------------------------------------------------ the transitions

  /** Merging never meets a query that has left the tables: its parent is indexed. */
  lemma MergeKeepsInv(s: Queries, retries: nat, key: Key, cb: bool)
    requires Inv(s, retries) && key in s.byKey
    ensures s.byKey[key] in s.nodes && s.place[s.byKey[key]] == InTable
    ensures Inv(Merge(s, key, cb), retries)
  {
    hide Ledger, FreeOk, HandlersOk, FamilyOk, TimersOk, Held, NextNode, FreeAfter, NextAfter;
    var n, p := NextNode(s), s.byKey[key];
    var node := Node(0, NO_KEY, 0, NewTicket(s, cb), [], false);
    Allocated(s);
    TakenKeepsFree(s, ChildOf(p));
    ChildKeepsTables(s.nodes, s.place, s.byId, s.byKey, p, n, node);
    ChildKeepsHandlers(s.nodes, s.place, s.busy, p, n, node);
    ChildKeepsFamily(s.nodes, s.place, p, n, node);
    ChildKeepsTimers(s.nodes, s.place, retries, p, n, node);
    ChildHolds(s.nodes, s.place, s.busy, p, n, node);
    if cb {
      Issue(Held(s.nodes, s.place, s.busy), s.log, s.dropped, s.hits, s.tickets, n);
    }
    hide TablesOk;
  }

  lemma BeginKeepsInv(s: Queries, retries: nat, key: Key, cb: bool)
    requires Inv(s, retries) && key !in s.byKey && s.lastId !in s.byId
    ensures Inv(Begin(s, key, cb), retries)
  {
    hide Ledger, FreeOk, HandlersOk, FamilyOk, TablesOk, Held, NextNode, FreeAfter, NextAfter;
    var n := NextNode(s);
    var node := Node(s.lastId, key, 1, NewTicket(s, cb), [], true);
    Allocated(s);
    TakenKeepsFree(s, InTable);
    IndexedKeepsTables(s.nodes, s.place, s.byId, s.byKey, n, node);
    PlacedKeepsHandlers(s.nodes, s.place, s.busy, n, node, InTable);
    PlacedKeepsFamily(s.nodes, s.place, n, node, InTable);
    PlacedHolds(s.nodes, s.place, s.busy, n, node, InTable);
    if cb {
      Issue(Held(s.nodes, s.place, s.busy), s.log, s.dropped, s.hits, s.tickets, n);
    }
  }

  lemma RefuseKeepsInv(s: Queries, retries: nat, key: Key, cb: bool)
    requires Inv(s, retries)
    ensures Inv(Refuse(s, key, cb), retries)
  {
    hide Ledger, FreeOk, HandlersOk, FamilyOk, TablesOk, Held, NextNode, FreeAfter, NextAfter;
    var n := NextNode(s);
    var node := Node(s.lastId, key, 0, NewTicket(s, cb), [], false);
    Allocated(s);
    ReturnedKeepsFree(s);
    SpareKeepsTables(s.nodes, s.place, s.byId, s.byKey, n, node);
    PlacedKeepsHandlers(s.nodes, s.place, s.busy, n, node, Free);
    PlacedKeepsFamily(s.nodes, s.place, n, node, Free);
    PlacedHolds(s.nodes, s.place, s.busy, n, node, Free);
  }

  lemma HitKeepsInv(s: Queries, retries: nat, cb: bool, rcode: nat)
    requires Inv(s, retries)
    ensures Inv(Hit(s, cb, rcode), retries)
  {
    hide Ledger, FreeOk, HandlersOk, FamilyOk, TablesOk, TimersOk, Held;
    if cb {
      IssueHit(Held(s.nodes, s.place, s.busy), s.log, s.dropped, s.hits, s.tickets, rcode);
    }
  }

  lemma HitCallbackKeepsInv(s: Queries, retries: nat, t: Ticket)
    requires Inv(s, retries) && t in s.hits
    ensures Inv(HitCallback(s, t), retries)
  {
    hide Ledger, FreeOk, HandlersOk, FamilyOk, TablesOk, TimersOk, Held;
    CallHit(Held(s.nodes, s.place, s.busy), s.log, s.dropped, s.hits, s.tickets, t);
  }

  lemma SilencedKeepsShape(s: Queries, retries: nat, n: NodeId)
    requires Inv(s, retries) && n in s.nodes
    ensures var nodes := s.nodes[n := s.nodes[n].(cb := None)];
            && TablesOk(nodes, s.place, s.byId, s.byKey) && HandlersOk(nodes, s.place, s.busy)
            && FamilyOk(nodes, s.place) && TimersOk(nodes, s.place, retries)
  {
    hide Ledger, FreeOk, HandlersOk, FamilyOk, TablesOk, Held;
    var node := s.nodes[n].(cb := None);
    EditKeepsIndexes(s.nodes, s.place, s.byId, s.byKey, n, node);
    EditKeepsHandlers(s.nodes, s.place, s.busy, n, node);
    EditKeepsFamily(s.nodes, s.place, n, node);
  }

  /** A pending or detached query that was not called back yet still holds its ticket. */
  lemma PendingHolds(s: Queries, retries: nat, n: NodeId)
    requires Inv(s, retries) && Parent(s.place, n) && s.nodes[n].cb.Some?
    ensures n in Held(s.nodes, s.place, s.busy) <==> NotYetCalled(s, n)
    ensures n in Held(s.nodes, s.place, s.busy) ==> Held(s.nodes, s.place, s.busy)[n] == s.nodes[n].cb.value
  {
    hide Ledger, FreeOk, FamilyOk, TablesOk, TimersOk;
  }

  lemma CancelNotifyKeepsInv(s: Queries, retries: nat, n: NodeId)
    requires Inv(s, retries) && Parent(s.place, n) && s.nodes[n].cb.Some?
    ensures Inv(CancelNotify(s, n), retries)
  {
    hide Ledger, FreeOk, HandlersOk, FamilyOk, TablesOk, TimersOk, Held;
    SilencedKeepsShape(s, retries, n);
    SilencedHolds(s.nodes, s.place, s.busy, n);
    PendingHolds(s, retries, n);
    var held := Held(s.nodes, s.place, s.busy);
    if NotYetCalled(s, n) {
      CallHeld(held, s.log, s.dropped, s.hits, s.tickets, n, Cancelled);
    } else {
      assert held - {n} == held;
    }
  }

  lemma CancelSilentlyKeepsInv(s: Queries, retries: nat, n: NodeId)
    requires Inv(s, retries) && Parent(s.place, n)
    ensures Inv(CancelSilently(s, n), retries)
  {
    hide Ledger, FreeOk, HandlersOk, FamilyOk, TablesOk, TimersOk;
    SilencedKeepsShape(s, retries, n);
    SilencedHolds(s.nodes, s.place, s.busy, n);
    var held := Held(s.nodes, s.place, s.busy);
    if s.nodes[n].cb.Some? {
      PendingHolds(s, retries, n);
      if NotYetCalled(s, n) {
        DropHeld(held, s.log, s.dropped, s.hits, s.tickets, n);
      } else {
        assert held - {n} == held;
      }
    } else {
      assert held - {n} == held;
    }
  }

  lemma DetachKeepsInv(s: Queries, retries: nat, n: NodeId, o: Outcome)
    requires Inv(s, retries) && n in s.nodes && s.place[n] == InTable
    ensures Inv(Detach(s, n, o), retries)
  {
    hide Ledger, FreeOk, HandlersOk, FamilyOk, TablesOk, TimersOk, Held;
    DetachKeepsTables(s.nodes, s.place, s.byId, s.byKey, n);
    DetachKeepsFree(s.place, s.next, s.free, n);
    DetachKeepsHandlers(s.nodes, s.place, s.busy, n, o);
    DetachKeepsFamily(s.nodes, s.place, n);
    DetachKeepsTimers(s.nodes, s.place, retries, n);
    DetachHolds(s.nodes, s.place, s.busy, n, o);
  }

  lemma ResendKeepsInv(s: Queries, retries: nat, n: NodeId)
    requires Inv(s, retries) && n in s.nodes && s.place[n] == InTable && s.nodes[n].sent < retries
    ensures Inv(Resend(s, n), retries)
  {
    hide Ledger, FreeOk, HandlersOk, FamilyOk, TablesOk, Held;
    var node := s.nodes[n].(sent := s.nodes[n].sent + 1);
    EditKeepsIndexes(s.nodes, s.place, s.byId, s.byKey, n, node);
    EditKeepsHandlers(s.nodes, s.place, s.busy, n, node);
    EditKeepsFamily(s.nodes, s.place, n, node);
    ResentHolds(s.nodes, s.place, s.busy, n, node.sent);
  }

  lemma ExpireKeepsInv(s: Queries, retries: nat, n: NodeId, sent: bool)
    requires Inv(s, retries) && n in s.nodes && s.place[n] == InTable
    ensures Inv(Expire(s, n, retries, sent), retries)
  {
    hide Inv, Resend, Detach;
    if s.nodes[n].sent < retries && sent {
      ResendKeepsInv(s, retries, n);
    } else {
      DetachKeepsInv(s, retries, n, TimedOut);
    }
  }

  lemma CallBackKeepsInv(s: Queries, retries: nat, n: NodeId)
    requires Inv(s, retries) && n in s.busy && s.busy[n].done <= |s.nodes[n].children|
    ensures n in s.nodes && NextOwner(s, n) in s.nodes
    ensures Inv(CallBack(s, n), retries)
  {
    hide Ledger, FreeOk, FamilyOk, TablesOk, TimersOk, Awaiting;
    CallKeepsHandlers(s.nodes, s.place, s.busy, n);
    CallHolds(s.nodes, s.place, s.busy, n);
    var o, held := NextOwner(s, n), Held(s.nodes, s.place, s.busy);
    if s.nodes[o].cb.Some? {
      assert o in held;
      CallHeld(held, s.log, s.dropped, s.hits, s.tickets, o, s.busy[n].outcome);
    } else {
      assert held - {o} == held;
    }
    hide HandlersOk, Held;
  }

  lemma RecycleKeepsTimers(nodes: Nodes, place: Places, retries: nat, gone: seq<NodeId>)
    requires TimersOk(nodes, place, retries)
    ensures TimersOk(nodes, Freed(place, gone), retries)
  {
  }

  lemma HandledNode(s: Queries, retries: nat, n: NodeId)
    requires Inv(s, retries) && n in s.busy
    ensures n in s.nodes && n in s.place && s.place[n] == InHandler && s.busy[n].done <= 1 + |s.nodes[n].children|
  {
    hide Ledger, FreeOk, FamilyOk, TablesOk, TimersOk;
  }

  lemma RecycleKeepsInv(s: Queries, retries: nat, n: NodeId)
    requires Inv(s, retries) && n in s.busy && s.busy[n].done == 1 + |s.nodes[n].children|
    ensures n in s.nodes && Inv(Recycle(s, n), retries)
  {
    hide Ledger, FreeOk, FamilyOk, TablesOk, Held, HandlersOk, TimersOk, NoDup;
    HandledNode(s, retries, n);
    var gone := s.nodes[n].children + [n];
    RecycledNodes(s.nodes, s.place, s.busy, n);
    RecycleKeepsTables(s.nodes, s.place, s.byId, s.byKey, gone);
    RecycleKeepsFree(s.place, s.next, s.free, gone);
    RecycleKeepsHandlers(s.nodes, s.place, s.busy, gone, n);
    RecycleKeepsFamily(s.nodes, s.place, gone, n);
    RecycleKeepsTimers(s.nodes, s.place, retries, gone);
    RecycleHolds(s.nodes, s.place, s.busy, gone, n);
  }
}
