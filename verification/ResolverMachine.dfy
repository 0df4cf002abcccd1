/** The resolver as a state machine: pending queries and response cache together, one event for
    each stretch of code that a thread runs without giving up the mutex, and one for each
    callback made without it.  Runs are arbitrary interleavings of such events. */
module ResolverMachine {
  import opened Bytes
  import opened DnsFormat
  import opened DnsDup
  import opened ResolverQueries
  import opened ResolverQueriesProof
  import opened ResolverCache
  import opened ResolverCacheProof

  /** `serving` links readers whose callback is still to come with the tickets they serve. */
  datatype State = State(q: Queries, c: Cache, serving: map<ReaderId, Ticket>)

  datatype Settings = Settings(retries: nat, maxTtl: nat)

  datatype Event =
    | Start(key: Key, cb: bool, now: Time, sent: bool)
    | ServeHit(r: ReaderId)
    | LeaveHit(r: ReaderId)
    | CancelQuery(n: NodeId, notify: bool)
    | TimerExpires(n: NodeId, sent: bool)
    | ResponseArrives(id: U16, rcode: nat)
    | CallOwner(n: NodeId)
    | FinishTimeout(n: NodeId)
    | FinishAnswer(n: NodeId, pkt: Packet, dup: Packet, now: Time)
    | AddEntry(key: Key, pkt: Packet, dup: Packet, setExpiry: bool, now: Time)

  predicate IsDup(dup: Packet, pkt: Packet) {
    SamePacket(dup, Kept(pkt, Options(false, false, true, true)))
  }

  /** When an event can happen.  A transaction id is not reused while it is pending; a query is
      cancelled, while its handle is valid, with notification only if it has a callback. */
  predicate Enabled(s: State, e: Event) {
    match e
    case Start(key, cb, now, sent) => s.q.lastId !in s.q.byId
    case ServeHit(r) => r in s.serving
    case LeaveHit(r) => r in s.c.readers && r !in s.serving
    case CancelQuery(n, notify) =>
      && Parent(s.q.place, n) && n in s.q.nodes
      && (notify ==> s.q.nodes[n].cb.Some?)
    case TimerExpires(n, sent) => n in s.q.nodes && n in s.q.place && s.q.place[n] == InTable
    case ResponseArrives(id, rcode) => id in s.q.byId
    case CallOwner(n) => n in s.q.busy && n in s.q.nodes && s.q.busy[n].done <= |s.q.nodes[n].children|
    case FinishTimeout(n) =>
      n in s.q.busy && n in s.q.nodes && s.q.busy[n].done == 1 + |s.q.nodes[n].children| && s.q.busy[n].outcome == TimedOut
    case FinishAnswer(n, pkt, dup, now) =>
      && n in s.q.busy && n in s.q.nodes && s.q.busy[n].done == 1 + |s.q.nodes[n].children|
      && s.q.busy[n].outcome.Answered? && IsDup(dup, pkt)
    case AddEntry(key, pkt, dup, setExpiry, now) => IsDup(dup, pkt)
  }

  /** Every reference that an event follows leads somewhere. */
  ghost predicate Linked(s: State) {
    && (forall k {:trigger s.q.byKey[k]} :: k in s.q.byKey ==> s.q.byKey[k] in s.q.nodes)
    && (forall i {:trigger s.q.byId[i]} :: i in s.q.byId ==> s.q.byId[i] in s.q.nodes)
    && (forall n {:trigger s.q.busy[n]} :: n in s.q.busy ==>
          n in s.q.nodes && forall i {:trigger s.q.nodes[n].children[i]} :: 0 <= i < |s.q.nodes[n].children| ==> s.q.nodes[n].children[i] in s.q.nodes)
    && (forall k {:trigger s.c.table[k]} :: k in s.c.table ==> s.c.table[k] in s.c.heap)
    && (forall r {:trigger s.c.readers[r]} :: r in s.c.readers ==> s.c.readers[r].entry in s.c.heap)
    && (forall r {:trigger s.serving[r]} :: r in s.serving ==> r in s.c.readers && s.serving[r] in s.q.hits)
  }

  /** The query part of a start that the cache could not answer. */
  function StartQuery(q: Queries, key: Key, cb: bool, sent: bool): Queries
    requires key in q.byKey ==> q.byKey[key] in q.nodes
  {
    if key in q.byKey then Merge(q, key, cb)
    else if sent then Begin(q, key, cb)
    else Refuse(q, key, cb)
  }

  /** The state after an event. */
  ghost function Step(s: State, e: Event, st: Settings): State
    requires Linked(s) && Enabled(s, e)
  {
    match e
    case Start(key, cb, now, sent) =>
      if Fresh(s.c, key, now) then
        State(Hit(s.q, cb, Rcode(s.c.heap[s.c.table[key]].pkt.hdr.flags)), Acquire(s.c, key),
              if cb then s.serving[s.c.nextReader := s.q.tickets] else s.serving)
      else s.(q := StartQuery(s.q, key, cb, sent), c := Drop(s.c, key))
    case ServeHit(r) => s.(q := HitCallback(s.q, s.serving[r]), serving := s.serving - {r})
    case LeaveHit(r) => s.(c := Release(s.c, r))
    case CancelQuery(n, notify) => s.(q := if notify then CancelNotify(s.q, n) else CancelSilently(s.q, n))
    case TimerExpires(n, sent) => s.(q := Expire(s.q, n, st.retries, sent))
    case ResponseArrives(id, rcode) => s.(q := Detach(s.q, s.q.byId[id], Answered(rcode)))
    case CallOwner(n) => s.(q := CallBack(s.q, n))
    case FinishTimeout(n) => s.(q := Recycle(s.q, n))
    case FinishAnswer(n, pkt, dup, now) =>
      s.(q := Recycle(s.q, n),
         c := Update(s.c, Stored(s.q.nodes[n].key, pkt, s.q.busy[n].outcome == Answered(0), true, now), dup, st.maxTtl))
    case AddEntry(key, pkt, dup, setExpiry, now) =>
      s.(c := Update(s.c, Stored(key, pkt, true, setExpiry, now), dup, st.maxTtl))
  }

  lemma StartStep(s: State, key: Key, cb: bool, now: Time, sent: bool, st: Settings)
    requires Linked(s) && Enabled(s, Start(key, cb, now, sent))
    ensures Fresh(s.c, key, now) ==>
              Step(s, Start(key, cb, now, sent), st) ==
              State(Hit(s.q, cb, Rcode(s.c.heap[s.c.table[key]].pkt.hdr.flags)), Acquire(s.c, key),
                    if cb then s.serving[s.c.nextReader := s.q.tickets] else s.serving)
    ensures !Fresh(s.c, key, now) ==>
              Step(s, Start(key, cb, now, sent), st) == State(StartQuery(s.q, key, cb, sent), Drop(s.c, key), s.serving)
  {
    hide Hit, Acquire, StartQuery, Drop, Fresh;
  }

  lemma CancelSteps(s: State, n: NodeId, notify: bool, st: Settings)
    requires Linked(s) && Enabled(s, CancelQuery(n, notify))
    ensures n in s.q.nodes && (notify ==> s.q.nodes[n].cb.Some?)
    ensures Step(s, CancelQuery(n, notify), st) ==
            State(if notify then CancelNotify(s.q, n) else CancelSilently(s.q, n), s.c, s.serving)
  {
    hide CancelNotify, CancelSilently;
  }

  lemma FinishAnswerStep(s: State, n: NodeId, pkt: Packet, dup: Packet, now: Time, st: Settings)
    requires Linked(s) && Enabled(s, FinishAnswer(n, pkt, dup, now))
    ensures n in s.q.nodes && n in s.q.busy && s.q.busy[n].outcome.Answered?
    ensures s.q.nodes[n].key in s.c.table ==> s.c.table[s.q.nodes[n].key] in s.c.heap
    ensures Step(s, FinishAnswer(n, pkt, dup, now), st) ==
            State(Recycle(s.q, n),
                  Update(s.c, Stored(s.q.nodes[n].key, pkt, s.q.busy[n].outcome == Answered(0), true, now), dup, st.maxTtl),
                  s.serving)
  {
    hide Recycle, Update;
  }

  // ------------------------------------------------------------------ the invariant

  /** Readers whose callback is to come serve distinct waiting tickets. */
  ghost predicate ServingOk(s: State) {
    && (forall r {:trigger s.serving[r]} :: r in s.serving ==> r in s.c.readers && s.serving[r] in s.q.hits)
    && (forall a, b {:trigger s.serving[a], s.serving[b]} :: a in s.serving && b in s.serving && a != b ==> s.serving[a] != s.serving[b])
  }

  /** A query that its handler has called back keeps its callback, but the ticket is spent. */
  ghost predicate SpentOk(q: Queries) {
    forall n {:trigger q.busy[n]} :: n in q.busy && n in q.nodes && q.busy[n].done >= 1 && q.nodes[n].cb.Some? ==>
      Called(q.log, q.nodes[n].cb.value)
  }

  ghost predicate RunInv(s: State, st: Settings) {
    Inv(s.q, st.retries) && CacheInv(s.c, st.maxTtl) && ServingOk(s) && SpentOk(s.q)
  }

  function Initial(): State {
    State(ResolverQueries.Init(), Empty(), map[])
  }

  lemma InitiallyOk(st: Settings)
    ensures RunInv(Initial(), st)
  {
  }

  lemma InvIsLinked(s: State, st: Settings)
    requires RunInv(s, st)
    ensures Linked(s)
  {
    QueriesLinked(s.q, st.retries);
    hide Inv, UsersOf, HistoryOk;
  }

  lemma QueriesLinked(q: Queries, retries: nat)
    requires Inv(q, retries)
    ensures forall k {:trigger q.byKey[k]} :: k in q.byKey ==> q.byKey[k] in q.nodes && q.place[q.byKey[k]] == InTable
    ensures forall i {:trigger q.byId[i]} :: i in q.byId ==> q.byId[i] in q.nodes && q.place[q.byId[i]] == InTable
    ensures forall n {:trigger q.busy[n]} :: n in q.busy ==> n in q.nodes && q.place[n] == InHandler
    ensures forall n, i {:trigger q.nodes[n].children[i]} :: n in q.busy && 0 <= i < |q.nodes[n].children| ==> q.nodes[n].children[i] in q.nodes
  {
    hide Ledger, Held, FreeOk, TimersOk;
    forall n, i | n in q.busy && 0 <= i < |q.nodes[n].children|
      ensures q.nodes[n].children[i] in q.nodes
    {
      assert q.nodes[n].children[i] in q.nodes[n].children;
    }
  }

  // ------------------------------------------------------------------ what queries keep

  /** The query half of an event. */
  lemma StepKeepsQueries(s: State, e: Event, st: Settings)
    requires RunInv(s, st) && Linked(s) && Enabled(s, e)
    ensures Inv(Step(s, e, st).q, st.retries)
  {
    QueriesLinked(s.q, st.retries);
    hide Inv, CacheInv, SpentOk, Merge, Begin, Refuse, Hit, HitCallback, CancelNotify, CancelSilently, Expire, Detach, CallBack, Recycle;
    hide Acquire, Drop, Release, Update;
    match e
    case Start(key, cb, now, sent) =>
      if Fresh(s.c, key, now) {
        HitKeepsInv(s.q, st.retries, cb, Rcode(s.c.heap[s.c.table[key]].pkt.hdr.flags));
      } else if key in s.q.byKey {
        MergeKeepsInv(s.q, st.retries, key, cb);
      } else if sent {
        BeginKeepsInv(s.q, st.retries, key, cb);
      } else {
        RefuseKeepsInv(s.q, st.retries, key, cb);
      }
    case ServeHit(r) => HitCallbackKeepsInv(s.q, st.retries, s.serving[r]);
    case LeaveHit(r) =>
    case CancelQuery(n, notify) =>
      if notify {
        CancelNotifyKeepsInv(s.q, st.retries, n);
      } else {
        CancelSilentlyKeepsInv(s.q, st.retries, n);
      }
    case TimerExpires(n, sent) => ExpireKeepsInv(s.q, st.retries, n, sent);
    case ResponseArrives(id, rcode) => DetachKeepsInv(s.q, st.retries, s.q.byId[id], Answered(rcode));
    case CallOwner(n) => CallBackKeepsInv(s.q, st.retries, n);
    case FinishTimeout(n) => RecycleKeepsInv(s.q, st.retries, n);
    case FinishAnswer(n, pkt, dup, now) => RecycleKeepsInv(s.q, st.retries, n);
    case AddEntry(key, pkt, dup, setExpiry, now) =>
  }

  lemma StepKeepsCache(s: State, e: Event, st: Settings)
    requires RunInv(s, st) && Linked(s) && Enabled(s, e)
    ensures CacheInv(Step(s, e, st).c, st.maxTtl)
  {
    hide Inv, CacheInv, SpentOk, SamePacket, Kept;
    hide Acquire, Drop, Release, Update;
    match e
    case Start(key, cb, now, sent) =>
      if Fresh(s.c, key, now) {
        AcquireKeeps(s.c, key, st.maxTtl);
      } else {
        DropKeeps(s.c, key, st.maxTtl);
      }
    case LeaveHit(r) => ReleaseKeeps(s.c, r, st.maxTtl);
    case FinishAnswer(n, pkt, dup, now) =>
      UpdateKeeps(s.c, Stored(s.q.nodes[n].key, pkt, s.q.busy[n].outcome == Answered(0), true, now), dup, st.maxTtl);
    case AddEntry(key, pkt, dup, setExpiry, now) =>
      UpdateKeeps(s.c, Stored(key, pkt, true, setExpiry, now), dup, st.maxTtl);
    case _ =>
  }

  lemma TicketsAreOld(q: Queries, retries: nat)
    requires Inv(q, retries)
    ensures forall t :: t in q.hits ==> t < q.tickets
  {
    hide TablesOk, FreeOk, HandlersOk, FamilyOk, TimersOk, Held;
  }

  lemma StartKeepsServing(s: State, key: Key, cb: bool, now: Time, sent: bool, st: Settings)
    requires RunInv(s, st) && Linked(s) && Enabled(s, Start(key, cb, now, sent))
    ensures ServingOk(Step(s, Start(key, cb, now, sent), st))
  {
    hide Inv, SpentOk, ReadersOk, Step, Hit, Acquire, Drop, StartQuery;
    TicketsAreOld(s.q, st.retries);
    StartStep(s, key, cb, now, sent, st);
    if Fresh(s.c, key, now) {
      assert s.c.table[key] in s.c.heap;
      hide Linked, CountsOk, HistoryOk;
      HitServes(s, key, cb, Rcode(s.c.heap[s.c.table[key]].pkt.hdr.flags));
    } else {
      hide CountsOk, HistoryOk;
      KeepsHits(s.q, key, cb, sent);
      DropKeepsUsers(s.c, key);
    }
  }

  lemma StepKeepsServing(s: State, e: Event, st: Settings)
    requires RunInv(s, st) && Linked(s) && Enabled(s, e)
    ensures ServingOk(Step(s, e, st))
  {
    hide Inv, CacheInv, SpentOk, Hit, Acquire, StartQuery, Fresh;
    hide Merge, Begin, Refuse, CancelNotify, CancelSilently, Expire, Detach, CallBack, Recycle, Drop, Update, IsDup;
    match e
    case Start(key, cb, now, sent) => StartKeepsServing(s, key, cb, now, sent, st);
    case ServeHit(r) =>
    case LeaveHit(r) =>
    case CancelQuery(n, notify) => CancelKeepsHits(s.q, n, notify);
    case TimerExpires(n, sent) => HandlerKeepsHits(s.q, n, st.retries, sent, TimedOut);
    case ResponseArrives(id, rcode) => HandlerKeepsHits(s.q, s.q.byId[id], st.retries, false, Answered(rcode));
    case CallOwner(n) => CallKeepsHits(s.q, n);
    case FinishTimeout(n) => RecycleKeepsHits(s.q, n);
    case FinishAnswer(n, pkt, dup, now) =>
      RecycleKeepsHits(s.q, n);
      UpdateKeepsUsers(s.c, Stored(s.q.nodes[n].key, pkt, s.q.busy[n].outcome == Answered(0), true, now), dup, st.maxTtl);
    case AddEntry(key, pkt, dup, setExpiry, now) =>
      UpdateKeepsUsers(s.c, Stored(key, pkt, true, setExpiry, now), dup, st.maxTtl);
  }

  lemma HitServes(s: State, key: Key, cb: bool, rcode: nat)
    requires ServingOk(s) && ReadersOk(s.c) && key in s.c.table && s.c.table[key] in s.c.heap
    requires forall t :: t in s.q.hits ==> t < s.q.tickets
    ensures ServingOk(State(Hit(s.q, cb, rcode), Acquire(s.c, key),
                            if cb then s.serving[s.c.nextReader := s.q.tickets] else s.serving))
  {
  }

  lemma KeepsHits(q: Queries, key: Key, cb: bool, sent: bool)
    requires key in q.byKey ==> q.byKey[key] in q.nodes
    ensures StartQuery(q, key, cb, sent).hits == q.hits
  {
  }

  lemma CancelKeepsHits(q: Queries, n: NodeId, notify: bool)
    requires n in q.nodes && (notify ==> q.nodes[n].cb.Some?)
    ensures (if notify then CancelNotify(q, n) else CancelSilently(q, n)).hits == q.hits
  {
  }

  lemma HandlerKeepsHits(q: Queries, n: NodeId, retries: nat, sent: bool, o: Outcome)
    requires n in q.nodes
    ensures Expire(q, n, retries, sent).hits == q.hits && Detach(q, n, o).hits == q.hits
  {
  }

  lemma CallKeepsHits(q: Queries, n: NodeId)
    requires n in q.busy && n in q.nodes && q.busy[n].done <= |q.nodes[n].children| && NextOwner(q, n) in q.nodes
    ensures CallBack(q, n).hits == q.hits
  {
  }

  lemma RecycleKeepsHits(q: Queries, n: NodeId)
    requires n in q.nodes
    ensures Recycle(q, n).hits == q.hits
  {
  }

  lemma DropKeepsUsers(c: Cache, key: Key)
    requires key in c.table ==> c.table[key] in c.heap
    ensures Drop(c, key).readers == c.readers
  {
  }

  lemma UpdateKeepsUsers(c: Cache, ev: ResolverCache.Event, dup: Packet, maxTtl: nat)
    requires ev.Stored? && (ev.key in c.table ==> c.table[ev.key] in c.heap)
    ensures Update(c, ev, dup, maxTtl).readers == c.readers
  {
  }

  // ------------------------------------------------------------------ spent tickets, frozen families

  /** Queries in a handler's hands keep their lists of children. */
  ghost predicate ChildrenSame(q: Queries, after: Queries) {
    forall n {:trigger q.busy[n]} :: n in q.busy && n in q.nodes ==>
      n in after.nodes && after.nodes[n].children == q.nodes[n].children
  }

  lemma CalledGrows(log: seq<Call>, c: Call)
    ensures forall t {:trigger Called(log + [c], t)} :: Called(log, t) || t == c.ticket ==> Called(log + [c], t)
  {
    Logged(log, c);
  }

  lemma MergeSpent(q: Queries, key: Key, cb: bool)
    requires SpentOk(q) && key in q.byKey && q.byKey[key] in q.nodes && q.byKey[key] !in q.busy && NextNode(q) !in q.busy
    ensures SpentOk(Merge(q, key, cb)) && ChildrenSame(q, Merge(q, key, cb))
  {
    hide Called;
  }

  lemma BeginSpent(q: Queries, key: Key, cb: bool)
    requires SpentOk(q) && NextNode(q) !in q.busy
    ensures SpentOk(Begin(q, key, cb)) && ChildrenSame(q, Begin(q, key, cb))
  {
    hide Called;
  }

  lemma RefuseSpent(q: Queries, key: Key, cb: bool)
    requires SpentOk(q) && NextNode(q) !in q.busy
    ensures SpentOk(Refuse(q, key, cb)) && ChildrenSame(q, Refuse(q, key, cb))
  {
    hide Called;
  }

  lemma HitSpent(q: Queries, cb: bool, rcode: nat)
    requires SpentOk(q)
    ensures SpentOk(Hit(q, cb, rcode)) && ChildrenSame(q, Hit(q, cb, rcode))
  {
  }

  lemma HitCallbackSpent(q: Queries, t: Ticket)
    requires SpentOk(q) && t in q.hits
    ensures SpentOk(HitCallback(q, t)) && ChildrenSame(q, HitCallback(q, t))
  {
    CalledGrows(q.log, Call(t, FromCache(q.hits[t])));
    hide Called;
  }

  lemma CancelSpent(q: Queries, n: NodeId, notify: bool)
    requires SpentOk(q) && n in q.nodes && (notify ==> q.nodes[n].cb.Some?)
    ensures var after := if notify then CancelNotify(q, n) else CancelSilently(q, n);
            SpentOk(after) && ChildrenSame(q, after)
  {
    if notify {
      CalledGrows(q.log, Call(q.nodes[n].cb.value, Cancelled));
    }
    hide Called;
  }

  lemma DetachSpent(q: Queries, n: NodeId, o: Outcome)
    requires SpentOk(q) && n in q.nodes
    ensures SpentOk(Detach(q, n, o)) && ChildrenSame(q, Detach(q, n, o))
  {
    hide Called;
  }

  lemma ExpireSpent(q: Queries, n: NodeId, retries: nat, sent: bool)
    requires SpentOk(q) && n in q.nodes
    ensures SpentOk(Expire(q, n, retries, sent)) && ChildrenSame(q, Expire(q, n, retries, sent))
  {
    DetachSpent(q, n, TimedOut);
    hide Called, Detach;
  }

  lemma CallBackSpent(q: Queries, n: NodeId)
    requires SpentOk(q) && n in q.busy && n in q.nodes && q.busy[n].done <= |q.nodes[n].children| && NextOwner(q, n) in q.nodes
    ensures SpentOk(CallBack(q, n)) && ChildrenSame(q, CallBack(q, n))
  {
    var cb := q.nodes[NextOwner(q, n)].cb;
    if cb.Some? {
      CalledGrows(q.log, Call(cb.value, q.busy[n].outcome));
    }
    hide Called;
  }

  lemma RecycleSpent(q: Queries, n: NodeId)
    requires SpentOk(q) && n in q.nodes
    ensures SpentOk(Recycle(q, n)) && ChildrenSame(q, Recycle(q, n))
  {
    hide Called;
  }

  lemma StartSpent(s: State, key: Key, cb: bool, now: Time, sent: bool, st: Settings)
    requires RunInv(s, st) && Linked(s) && Enabled(s, Start(key, cb, now, sent))
    ensures SpentOk(Step(s, Start(key, cb, now, sent), st).q)
    ensures ChildrenSame(s.q, Step(s, Start(key, cb, now, sent), st).q)
  {
    QueriesLinked(s.q, st.retries);
    NextIsSpare(s.q, st.retries);
    hide Inv, CacheInv, ServingOk, SpentOk, ChildrenSame, NextNode, Fresh, Acquire, Drop, Merge, Begin, Refuse, Hit;
    if Fresh(s.c, key, now) {
      HitSpent(s.q, cb, Rcode(s.c.heap[s.c.table[key]].pkt.hdr.flags));
    } else if key in s.q.byKey {
      MergeSpent(s.q, key, cb);
    } else {
      BeginSpent(s.q, key, cb);
      RefuseSpent(s.q, key, cb);
    }
  }

  lemma StepKeepsSpent(s: State, e: Event, st: Settings)
    requires RunInv(s, st) && Linked(s) && Enabled(s, e)
    ensures SpentOk(Step(s, e, st).q) && ChildrenSame(s.q, Step(s, e, st).q)
  {
    hide Inv, CacheInv, ServingOk, SpentOk, ChildrenSame, IsDup, Fresh, Acquire, Drop, Release, Update, StartQuery;
    hide Hit, HitCallback, CancelNotify, CancelSilently, Expire, Detach, CallBack, Recycle;
    match e
    case Start(key, cb, now, sent) => StartSpent(s, key, cb, now, sent, st);
    case ServeHit(r) => HitCallbackSpent(s.q, s.serving[r]);
    case LeaveHit(r) => SameChildren(s.q);
    case CancelQuery(n, notify) => CancelSpent(s.q, n, notify);
    case TimerExpires(n, sent) => ExpireSpent(s.q, n, st.retries, sent);
    case ResponseArrives(id, rcode) => DetachSpent(s.q, s.q.byId[id], Answered(rcode));
    case CallOwner(n) => CallBackSpent(s.q, n);
    case FinishTimeout(n) => RecycleSpent(s.q, n);
    case FinishAnswer(n, pkt, dup, now) => RecycleSpent(s.q, n);
    case AddEntry(key, pkt, dup, setExpiry, now) => SameChildren(s.q);
  }

  lemma SameChildren(q: Queries)
    ensures ChildrenSame(q, q)
  {
  }

  lemma NextIsSpare(q: Queries, retries: nat)
    requires Inv(q, retries)
    ensures Spare(q.place, NextNode(q)) && NextNode(q) !in q.busy
  {
    hide TablesOk, Ledger, FamilyOk, TimersOk, Held;
  }

  lemma StepKeepsInv(s: State, e: Event, st: Settings)
    requires RunInv(s, st) && Enabled(s, e)
    ensures Linked(s) && RunInv(Step(s, e, st), st)
  {
    InvIsLinked(s, st);
    StepKeepsQueries(s, e, st);
    StepKeepsCache(s, e, st);
    StepKeepsServing(s, e, st);
    StepKeepsSpent(s, e, st);
    hide Step, Enabled, Inv, CacheInv, ServingOk, SpentOk, Linked;
  }

  // ------------------------------------------------------------------ whole runs

  /** es is an interleaving that can happen from s on. */
  ghost predicate IsRun(s: State, es: seq<Event>, st: Settings)
    decreases |es|
  {
    es == [] || (Linked(s) && Enabled(s, es[0]) && IsRun(Step(s, es[0], st), es[1..], st))
  }

  ghost function End(s: State, es: seq<Event>, st: Settings): State
    requires IsRun(s, es, st)
    decreases |es|
  {
    if es == [] then s else End(Step(s, es[0], st), es[1..], st)
  }

  lemma {:induction false} RunsKeepInv(s: State, es: seq<Event>, st: Settings)
    requires RunInv(s, st) && IsRun(s, es, st)
    ensures RunInv(End(s, es, st), st)
    decreases |es|
  {
    hide RunInv, Linked, Enabled, Step;
    if es != [] {
      StepKeepsInv(s, es[0], st);
      RunsKeepInv(Step(s, es[0], st), es[1..], st);
    }
  }

  /** How often a ticket was called back. */
  function Calls(log: seq<Call>, t: Ticket): nat {
    if log == [] then 0 else Calls(log[..|log| - 1], t) + if log[|log| - 1].ticket == t then 1 else 0
  }

  lemma {:induction false} DistinctCalls(log: seq<Call>, t: Ticket)
    requires forall i, j :: 0 <= i < j < |log| ==> log[i].ticket != log[j].ticket
    ensures Calls(log, t) <= 1 && (Calls(log, t) == 1 <==> Called(log, t))
  {
    if log != [] {
      var front := log[..|log| - 1];
      DistinctCalls(front, t);
      if Called(front, t) {
        var i :| 0 <= i < |front| && front[i].ticket == t;
        assert log[i].ticket == t;
      }
      if log[|log| - 1].ticket != t && Called(log, t) {
        var i :| 0 <= i < |log| && log[i].ticket == t;
        assert front[i].ticket == t;
      }
    }
  }

  /** In every interleaving from the start, an accepted query is called back at most once, save
      by cancels that come after its callback (for those see ResolverCalls); and
      one that was neither called back nor silently cancelled is waiting for its cache callback
      or is held by exactly one node, which is indexed, a child, or not yet called by its handler. */
  lemma CalledAtMostOnce(es: seq<Event>, st: Settings, t: Ticket)
    requires IsRun(Initial(), es, st) && t < End(Initial(), es, st).q.tickets
    ensures var q := End(Initial(), es, st).q;
            && Calls(q.log, t) <= 1
            && (Calls(q.log, t) == 0 && t !in q.dropped && t !in q.hits ==>
                exists n :: n in q.nodes && Awaiting(q.nodes, q.place, q.busy, n) && q.nodes[n].cb == Some(t))
            && (Calls(q.log, t) == 1 ==>
                t !in q.dropped && t !in q.hits &&
                (forall n :: n in q.nodes && q.nodes[n].cb == Some(t) ==> !Awaiting(q.nodes, q.place, q.busy, n)))
  {
    InitiallyOk(st);
    RunsKeepInv(Initial(), es, st);
    var q := End(Initial(), es, st).q;
    assert Inv(q, st.retries);
    hide RunInv, IsRun, Inv, Awaiting, Calls, End;
    TicketStatus(q, st.retries, t);
  }

  /** The same of any reachable state. */
  lemma TicketStatus(q: Queries, retries: nat, t: Ticket)
    requires Inv(q, retries) && t < q.tickets
    ensures Calls(q.log, t) <= 1
    ensures Calls(q.log, t) == 0 && t !in q.dropped && t !in q.hits ==>
              exists n :: n in q.nodes && Awaiting(q.nodes, q.place, q.busy, n) && q.nodes[n].cb == Some(t)
    ensures Calls(q.log, t) == 1 ==>
              t !in q.dropped && t !in q.hits &&
              (forall n :: n in q.nodes && q.nodes[n].cb == Some(t) ==> !Awaiting(q.nodes, q.place, q.busy, n))
  {
    hide TablesOk, FreeOk, HandlersOk, FamilyOk, TimersOk, Awaiting, Calls;
    var held := Held(q.nodes, q.place, q.busy);
    DistinctCalls(q.log, t);
    if !Called(q.log, t) && t !in q.dropped && t !in q.hits {
      var n :| n in held && held[n] == t;
      assert n in q.nodes && Awaiting(q.nodes, q.place, q.busy, n) && q.nodes[n].cb == Some(t);
    }
    assert forall n :: n in q.nodes && Awaiting(q.nodes, q.place, q.busy, n) && q.nodes[n].cb.Some? ==>
             n in held && held[n] == q.nodes[n].cb.value;
  }

  /** In every interleaving the two indexes hold the same queries, each under its own id and
      key, and no query is sent more often than the settings allow. */
  lemma IndexesAgree(es: seq<Event>, st: Settings)
    requires IsRun(Initial(), es, st)
    ensures var q := End(Initial(), es, st).q;
            && (forall i :: i in q.byId ==>
                  q.byId[i] in q.nodes && q.nodes[q.byId[i]].id == i &&
                  q.nodes[q.byId[i]].key in q.byKey && q.byKey[q.nodes[q.byId[i]].key] == q.byId[i])
            && (forall k :: k in q.byKey ==>
                  q.byKey[k] in q.nodes && q.nodes[q.byKey[k]].key == k &&
                  q.nodes[q.byKey[k]].id in q.byId && q.byId[q.nodes[q.byKey[k]].id] == q.byKey[k])
            && (forall n :: n in q.nodes && Parent(q.place, n) ==>
                  1 <= q.nodes[n].sent <= if st.retries > 1 then st.retries else 1)
  {
    InitiallyOk(st);
    RunsKeepInv(Initial(), es, st);
    hide FreeOk, HandlersOk, FamilyOk, Ledger, Held, CacheInv, ServingOk, SpentOk, IsRun;
  }

  /** Each node is in exactly one place, as the structures themselves show it. */
  lemma OnePlaceEach(s: State, st: Settings, n: NodeId)
    requires RunInv(s, st) && n in s.q.nodes
    ensures (s.q.nodes[n].id in s.q.byId && s.q.byId[s.q.nodes[n].id] == n) <==> s.q.place[n] == InTable
    ensures n in s.q.free <==> s.q.place[n] == Free
    ensures n in s.q.busy <==> s.q.place[n] == InHandler
    ensures forall p :: p in s.q.nodes && Parent(s.q.place, p) ==>
              (n in s.q.nodes[p].children <==> s.q.place[n] == ChildOf(p))
    ensures s.q.place[n].ChildOf? ==> Parent(s.q.place, s.q.place[n].parent) && s.q.place[n].parent in s.q.nodes
  {
    hide Ledger, Held, CacheInv, ServingOk, SpentOk, TimersOk;
  }

  /** Once a query has left the indexes its list of children never changes. */
  lemma ChildrenAreFrozen(s: State, e: Event, st: Settings, n: NodeId)
    requires RunInv(s, st) && Enabled(s, e) && n in s.q.busy
    ensures Linked(s) && n in s.q.nodes
    ensures n in Step(s, e, st).q.nodes && Step(s, e, st).q.nodes[n].children == s.q.nodes[n].children
  {
    InvIsLinked(s, st);
    StepKeepsSpent(s, e, st);
    hide Step, Inv, CacheInv, ServingOk, SpentOk, Enabled;
  }

  /** In every interleaving a fresh cache hit serves the last response stored under its key,
      within its time to live. */
  lemma CacheServesTheLast(es: seq<Event>, st: Settings, key: Key, now: Time)
    requires IsRun(Initial(), es, st) && Fresh(End(Initial(), es, st).c, key, now)
    ensures var c := End(Initial(), es, st).c;
            && Last(c.history, key).Some? && Last(c.history, key).value.Stored?
            && var ev, pkt := Last(c.history, key).value, Acquire(c, key).readers[c.nextReader].pkt;
               && pkt.hdr.flags == ev.pkt.hdr.flags
               && SameQueries(pkt.q, ev.pkt.q) && SameRecords(pkt.ans, ev.pkt.ans)
               && (ev.setExpiry ==> After(ev.at.(sec := ev.at.sec + Ttl(ev.pkt, ev.ok, true, st.maxTtl)), now))
  {
    InitiallyOk(st);
    RunsKeepInv(Initial(), es, st);
    HitIsFresh(End(Initial(), es, st).c, key, now, st.maxTtl);
  }

  /** In every interleaving, reference counts are exact and every reader's entry is live and
      still holds the packet the reader was given. */
  lemma ReadersAreSafe(es: seq<Event>, st: Settings)
    requires IsRun(Initial(), es, st)
    ensures var c := End(Initial(), es, st).c;
            && (forall e :: e in c.heap ==>
                  c.heap[e].refs == Listed(c.table, c.heap[e].key, e) + |UsersOf(c.readers, e)| && c.heap[e].refs > 0)
            && (forall r :: r in c.readers ==>
                  c.readers[r].entry in c.heap && c.heap[c.readers[r].entry].pkt == c.readers[r].pkt)
  {
    InitiallyOk(st);
    RunsKeepInv(Initial(), es, st);
    hide Inv, HistoryOk, ServingOk, SpentOk, IsRun, UsersOf;
  }
}
