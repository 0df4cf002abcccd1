/** The pending queries of resolver.c: two indexes over one set of query nodes, queries merged
    as children of a pending one, a free list, and handlers that have taken a query out of the
    indexes and are calling back its owners with the mutex released.

    A ticket stands for one accepted query that has a callback.  Each transition below is what
    one thread does between taking and releasing the mutex, or one unlocked callback. */
module ResolverQueries {
  import opened Bytes
  import opened DnsFormat

  type NodeId = nat
  type Ticket = nat

  /** Key of a query: type and lower-case name. */
  datatype Key = Key(qtype: U16, name: Name)

  datatype Node = Node(id: U16, key: Key, sent: nat, cb: Option<Ticket>, children: seq<NodeId>, timer: bool)

  /** Where a node is. */
  datatype Place = InTable | ChildOf(parent: NodeId) | Free | InHandler

  datatype Outcome = TimedOut | Cancelled | Answered(rcode: nat) | FromCache(rcode: nat)

  datatype Call = Call(ticket: Ticket, outcome: Outcome)

  /** A handler's progress: owners already considered (the query's own first, then its
      children's in order), and what they are told. */
  datatype Progress = Progress(done: nat, outcome: Outcome)

  datatype Queries = Queries(
    nodes: map<NodeId, Node>,
    place: map<NodeId, Place>,
    next: NodeId,
    byId: map<U16, NodeId>,
    byKey: map<Key, NodeId>,
    free: seq<NodeId>,
    busy: map<NodeId, Progress>,
    lastId: U16,
    hits: map<Ticket, nat>,
    tickets: nat,
    dropped: set<Ticket>,
    log: seq<Call>,
    late: seq<Call>)

  function Init(): Queries {
    Queries(map[], map[], 0, map[], map[], [], map[], 1, map[], 0, {}, [], [])
  }

  ghost predicate NoDup<T>(s: seq<T>) {
    forall i, j :: 0 <= i < j < |s| ==> s[i] != s[j]
  }

  type Nodes = map<NodeId, Node>
  type Places = map<NodeId, Place>

  /** A query that is indexed or in a handler's hands, and so may have children. */
  predicate Parent(place: Places, n: NodeId) {
    n in place && (place[n] == InTable || place[n] == InHandler)
  }

  /** The two indexes hold exactly the nodes in place InTable, under their own id and key. */
  ghost predicate TablesOk(nodes: Nodes, place: Places, byId: map<U16, NodeId>, byKey: map<Key, NodeId>) {
    && (forall n {:trigger nodes[n]} {:trigger place[n]} :: n in nodes && n in place && place[n] == InTable ==>
          && nodes[n].id in byId && byId[nodes[n].id] == n
          && nodes[n].key in byKey && byKey[nodes[n].key] == n)
    && (forall i {:trigger byId[i]} :: i in byId ==>
          byId[i] in nodes && byId[i] in place && place[byId[i]] == InTable && nodes[byId[i]].id == i)
    && (forall k {:trigger byKey[k]} :: k in byKey ==>
          byKey[k] in nodes && byKey[k] in place && place[byKey[k]] == InTable && nodes[byKey[k]].key == k)
  }

  /** The free list holds each node in place Free once. */
  ghost predicate FreeOk(place: Places, next: NodeId, free: seq<NodeId>) {
    && (forall n :: n in place ==> n < next)
    && NoDup(free)
    && (forall i {:trigger free[i]} :: 0 <= i < |free| ==> free[i] in place && place[free[i]] == Free)
    && (forall n {:trigger place[n]} :: n in place && place[n] == Free ==> n in free)
  }

  /** Handlers hold exactly the nodes in place InHandler. */
  ghost predicate HandlersOk(nodes: Nodes, place: Places, busy: map<NodeId, Progress>) {
    && (forall n {:trigger busy[n]} :: n in busy ==>
          n in nodes && n in place && place[n] == InHandler && busy[n].done <= 1 + |nodes[n].children|)
    && (forall n {:trigger place[n]} :: n in place && place[n] == InHandler ==> n in busy)
  }

  /** Children and parents know each other, and no child is listed twice. */
  ghost predicate FamilyOk(nodes: Nodes, place: Places) {
    && (forall n {:trigger place[n]} :: n in place && place[n].ChildOf? ==>
          Parent(place, place[n].parent) && place[n].parent in nodes && n in nodes[place[n].parent].children)
    && (forall p, c {:trigger c in nodes[p].children} :: p in nodes && Parent(place, p) && c in nodes[p].children ==>
          c in place && place[c] == ChildOf(p))
    && (forall p {:trigger nodes[p].children} :: p in nodes && Parent(place, p) ==> NoDup(nodes[p].children))
  }

  /** A query waits with its retransmission timer running, and has been sent at least once and
      at most max(1, retries) times. */
  ghost predicate TimersOk(nodes: Nodes, place: Places, retries: nat) {
    forall n {:trigger nodes[n]} :: n in nodes && Parent(place, n) ==>
      && (nodes[n].timer <==> place[n] == InTable)
      && 1 <= nodes[n].sent <= if retries > 1 then retries else 1
  }

  /** The owner of n has not been called back and n still stands for it. */
  ghost predicate Awaiting(nodes: Nodes, place: Places, busy: map<NodeId, Progress>, n: NodeId) {
    && n in nodes && n in place
    && match place[n]
       case InTable => true
       case Free => false
       case InHandler => n in busy && busy[n].done == 0
       case ChildOf(p) => p in nodes && (p in busy ==> n !in CalledChildren(nodes[p].children, busy[p].done))
  }

  /** The children that a handler with the given progress has considered. */
  function CalledChildren(children: seq<NodeId>, done: nat): seq<NodeId> {
    if done == 0 then [] else if done - 1 <= |children| then children[..done - 1] else children
  }

  /** The tickets that nodes still hold. */
  ghost function Held(nodes: Nodes, place: Places, busy: map<NodeId, Progress>): map<NodeId, Ticket> {
    map n | n in nodes && Awaiting(nodes, place, busy, n) && nodes[n].cb.Some? :: nodes[n].cb.value
  }

  ghost predicate Called(log: seq<Call>, t: Ticket) {
    exists i :: 0 <= i < |log| && log[i].ticket == t
  }

  /** Every ticket was called back once, was dropped by a silent cancel, waits for its cache
      callback, or is held by exactly one node; and no two of these at once. */
  ghost predicate Ledger(held: map<NodeId, Ticket>, log: seq<Call>, dropped: set<Ticket>, hits: map<Ticket, nat>, tickets: nat) {
    && (forall i {:trigger log[i]} :: 0 <= i < |log| ==> log[i].ticket < tickets)
    && (forall i, j :: 0 <= i < j < |log| ==> log[i].ticket != log[j].ticket)
    && (forall t :: t in dropped ==> t < tickets && !Called(log, t))
    && (forall t :: t in hits ==> t < tickets && !Called(log, t) && t !in dropped)
    && (forall n {:trigger held[n]} :: n in held ==>
          held[n] < tickets && !Called(log, held[n]) && held[n] !in dropped && held[n] !in hits)
    && (forall m, n {:trigger held[m], held[n]} :: m in held && n in held && m != n ==> held[m] != held[n])
    && (forall t: nat {:trigger Called(log, t)} :: t < tickets ==>
          Called(log, t) || t in dropped || t in hits || exists n {:trigger held[n]} :: n in held && held[n] == t)
  }

  ghost predicate Inv(s: Queries, retries: nat) {
    && s.place.Keys == s.nodes.Keys
    && TablesOk(s.nodes, s.place, s.byId, s.byKey) && FreeOk(s.place, s.next, s.free)
    && HandlersOk(s.nodes, s.place, s.busy) && FamilyOk(s.nodes, s.place) && TimersOk(s.nodes, s.place, retries)
    && Ledger(Held(s.nodes, s.place, s.busy), s.log, s.dropped, s.hits, s.tickets)
  }

  // -------------------------------------------------------------------------- transitions

  /** The node alloc_qnode takes: the head of the free list, or a new one. */
  function NextNode(s: Queries): NodeId {
    if s.free != [] then s.free[0] else s.next
  }

  function FreeAfter(s: Queries): seq<NodeId> {
    if s.free != [] then s.free[1..] else []
  }

  function NextAfter(s: Queries): NodeId {
    if s.free != [] then s.next else s.next + 1
  }

  function NewTicket(s: Queries, cb: bool): Option<Ticket> {
    if cb then Some(s.tickets) else None
  }

  function Tickets(s: Queries, cb: bool): nat {
    if cb then s.tickets + 1 else s.tickets
  }

  function NextId(id: U16): U16 {
    if id == 0xFFFF then 1 else id + 1
  }

  const NO_KEY := Key(0, [])

  function WithChild(nodes: Nodes, p: NodeId, n: NodeId, node: Node): Nodes
    requires p in nodes
  {
    nodes[n := node][p := nodes[p].(children := nodes[p].children + [n])]
  }

  /** A query for a key that is already pending becomes a child of the pending query. */
  function Merge(s: Queries, key: Key, cb: bool): Queries
    requires key in s.byKey && s.byKey[key] in s.nodes
  {
    s.(nodes := WithChild(s.nodes, s.byKey[key], NextNode(s), Node(0, NO_KEY, 0, NewTicket(s, cb), [], false)),
       place := s.place[NextNode(s) := ChildOf(s.byKey[key])],
       free := FreeAfter(s), next := NextAfter(s),
       tickets := Tickets(s, cb))
  }

  /** A query for a new key, sent and indexed. */
  function Begin(s: Queries, key: Key, cb: bool): Queries {
    s.(nodes := s.nodes[NextNode(s) := Node(s.lastId, key, 1, NewTicket(s, cb), [], true)],
       place := s.place[NextNode(s) := InTable],
       free := FreeAfter(s), next := NextAfter(s),
       byId := s.byId[s.lastId := NextNode(s)], byKey := s.byKey[key := NextNode(s)],
       lastId := NextId(s.lastId), tickets := Tickets(s, cb))
  }

  /** A query for a new key that cannot be sent: refused, and its node recycled. */
  function Refuse(s: Queries, key: Key, cb: bool): Queries {
    s.(nodes := s.nodes[NextNode(s) := Node(s.lastId, key, 0, NewTicket(s, cb), [], false)],
       place := s.place[NextNode(s) := Free],
       free := FreeAfter(s) + [NextNode(s)], next := NextAfter(s),
       lastId := NextId(s.lastId))
  }

  /** An answer found in the cache: the owner is called back by the starter itself. */
  function Hit(s: Queries, cb: bool, rcode: nat): Queries {
    if cb then s.(hits := s.hits[s.tickets := rcode], tickets := s.tickets + 1) else s
  }

  function HitCallback(s: Queries, t: Ticket): Queries
    requires t in s.hits
  {
    s.(hits := s.hits - {t}, log := s.log + [Call(t, FromCache(s.hits[t]))])
  }

  /** The query's own callback has not been made yet. */
  predicate NotYetCalled(s: Queries, n: NodeId) {
    n in s.busy ==> s.busy[n].done == 0
  }

  /** A cancel that asks for the callback makes it at once, even if it was already made: such
      late calls are kept apart from the others. */
  function CancelNotify(s: Queries, n: NodeId): Queries
    requires n in s.nodes && s.nodes[n].cb.Some?
  {
    var call := Call(s.nodes[n].cb.value, Cancelled);
    var after := s.(nodes := s.nodes[n := s.nodes[n].(cb := None)]);
    if NotYetCalled(s, n) then after.(log := s.log + [call]) else after.(late := s.late + [call])
  }

  function CancelSilently(s: Queries, n: NodeId): Queries
    requires n in s.nodes
  {
    s.(nodes := s.nodes[n := s.nodes[n].(cb := None)],
       dropped := if s.nodes[n].cb.Some? && NotYetCalled(s, n) then s.dropped + {s.nodes[n].cb.value} else s.dropped)
  }

  /** Takes the query out of both indexes, into the hands of a handler. */
  function Detach(s: Queries, n: NodeId, outcome: Outcome): Queries
    requires n in s.nodes
  {
    s.(byId := s.byId - {s.nodes[n].id}, byKey := s.byKey - {s.nodes[n].key},
       nodes := s.nodes[n := s.nodes[n].(timer := false)],
       place := s.place[n := InHandler], busy := s.busy[n := Progress(0, outcome)])
  }

  function Resend(s: Queries, n: NodeId): Queries
    requires n in s.nodes
  {
    s.(nodes := s.nodes[n := s.nodes[n].(sent := s.nodes[n].sent + 1)])
  }

  /** Timer expiry: sends again while retries are left and sending works, else times out. */
  function Expire(s: Queries, n: NodeId, retries: nat, sent: bool): Queries
    requires n in s.nodes
  {
    if s.nodes[n].sent < retries && sent then Resend(s, n) else Detach(s, n, TimedOut)
  }

  /** Whom the handler of n considers next. */
  function NextOwner(s: Queries, n: NodeId): NodeId
    requires n in s.busy && n in s.nodes && s.busy[n].done <= |s.nodes[n].children|
  {
    if s.busy[n].done == 0 then n else s.nodes[n].children[s.busy[n].done - 1]
  }

  /** One unlocked callback of a handler. */
  function CallBack(s: Queries, n: NodeId): Queries
    requires n in s.busy && n in s.nodes && s.busy[n].done <= |s.nodes[n].children|
    requires NextOwner(s, n) in s.nodes
  {
    var cb := s.nodes[NextOwner(s, n)].cb;
    s.(busy := s.busy[n := s.busy[n].(done := s.busy[n].done + 1)],
       log := if cb.Some? then s.log + [Call(cb.value, s.busy[n].outcome)] else s.log)
  }

  /** The handler, done with its callbacks, recycles the children and then the query. */
  function Recycle(s: Queries, n: NodeId): Queries
    requires n in s.nodes
  {
    var freed := s.nodes[n].children + [n];
    s.(busy := s.busy - {n},
       place := map m | m in s.place :: if m in freed then Free else s.place[m],
       free := s.free + freed)
  }
}
