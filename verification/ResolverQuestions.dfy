/** Which question a caller of the resolver asked, and that it is told about no other. */
module ResolverQuestions {
  import opened Bytes
  import opened DnsFormat
  import opened ResolverQueries
  import opened ResolverQueriesProof
  import opened ResolverCache
  import opened ResolverCacheProof
  import opened ResolverMachine
  import opened ResolverOutcomes

  /** A start with a callback that is not refused. */
  predicate Accepted(s: State, e: ResolverMachine.Event) {
    e.Start? && e.cb && (Fresh(s.c, e.key, e.now) || e.key in s.q.byKey || e.sent)
  }

  /** What a start adds to the questions. */
  function Added(s: State, e: ResolverMachine.Event): seq<Key> {
    if Accepted(s, e) then [e.key] else []
  }

  /** The keys that the accepted starts of a run asked for, in order. */
  ghost function Questions(s: State, es: seq<ResolverMachine.Event>, st: Settings): seq<Key>
    requires IsRun(s, es, st)
    decreases |es|
  {
    if es == [] then []
    else Added(s, es[0]) + Questions(Step(s, es[0], st), es[1..], st)
  }

  /** The ticket stands for a question about this key. */
  predicate Asks(cb: Option<Ticket>, key: Key, keys: seq<Key>) {
    cb.Some? ==> cb.value < |keys| && keys[cb.value] == key
  }

  /** Whoever waits for a query, as its owner or as the owner of a merged one, asked for its key. */
  ghost predicate OwnersAsk(nodes: Nodes, place: Places, keys: seq<Key>) {
    && (forall n {:trigger nodes[n]} {:trigger place[n]} :: n in nodes && n in place && Parent(place, n) ==>
          Asks(nodes[n].cb, nodes[n].key, keys))
    && (forall n {:trigger nodes[n]} {:trigger place[n]} :: n in nodes && n in place && place[n].ChildOf? && place[n].parent in nodes ==>
          Asks(nodes[n].cb, nodes[place[n].parent].key, keys))
  }

  ghost predicate QueriesAsk(q: Queries, keys: seq<Key>) {
    |keys| == q.tickets && OwnersAsk(q.nodes, q.place, keys)
  }

  /** Whoever waits for the callback of a cache hit asked for the key of its entry. */
  ghost predicate HitsAsk(s: State, keys: seq<Key>) {
    forall r {:trigger s.serving[r]} :: r in s.serving && r in s.c.readers && s.c.readers[r].entry in s.c.heap ==>
      s.serving[r] < |keys| && keys[s.serving[r]] == s.c.heap[s.c.readers[r].entry].key
  }

  lemma OneMoreKey(nodes: Nodes, place: Places, keys: seq<Key>, key: Key)
    requires OwnersAsk(nodes, place, keys)
    ensures OwnersAsk(nodes, place, keys + [key])
  {
  }

  // ------------------------------------------------------------------ queries

  lemma MergeAsks(q: Queries, keys: seq<Key>, key: Key, cb: bool)
    requires QueriesAsk(q, keys) && FamilyOk(q.nodes, q.place) && Spare(q.place, NextNode(q))
    requires key in q.byKey && q.byKey[key] in q.nodes && q.byKey[key] in q.place
    requires q.place[q.byKey[key]] == InTable && q.nodes[q.byKey[key]].key == key
    ensures QueriesAsk(Merge(q, key, cb), keys + if cb then [key] else [])
  {
    hide NextNode;
  }

  lemma BeginAsks(q: Queries, keys: seq<Key>, key: Key, cb: bool)
    requires QueriesAsk(q, keys) && FamilyOk(q.nodes, q.place) && Spare(q.place, NextNode(q))
    ensures QueriesAsk(Begin(q, key, cb), keys + if cb then [key] else [])
  {
    hide NextNode;
  }

  lemma RefuseAsks(q: Queries, keys: seq<Key>, key: Key, cb: bool)
    requires QueriesAsk(q, keys) && FamilyOk(q.nodes, q.place) && Spare(q.place, NextNode(q))
    ensures QueriesAsk(Refuse(q, key, cb), keys)
  {
    hide NextNode;
  }

  lemma HitAsks(q: Queries, keys: seq<Key>, key: Key, cb: bool, rcode: nat)
    requires QueriesAsk(q, keys)
    ensures QueriesAsk(Hit(q, cb, rcode), keys + if cb then [key] else [])
  {
    OneMoreKey(q.nodes, q.place, keys, key);
    hide OwnersAsk;
  }

  lemma CancelAsks(q: Queries, keys: seq<Key>, n: NodeId, notify: bool)
    requires QueriesAsk(q, keys) && n in q.nodes && (notify ==> q.nodes[n].cb.Some?)
    ensures QueriesAsk(if notify then CancelNotify(q, n) else CancelSilently(q, n), keys)
  {
    SilencedAsk(q.nodes, q.place, keys, n);
    hide OwnersAsk;
  }

  lemma SilencedAsk(nodes: Nodes, place: Places, keys: seq<Key>, n: NodeId)
    requires OwnersAsk(nodes, place, keys) && n in nodes
    ensures OwnersAsk(nodes[n := nodes[n].(cb := None)], place, keys)
  {
  }

  lemma DetachAsks(q: Queries, keys: seq<Key>, n: NodeId, o: Outcome)
    requires QueriesAsk(q, keys) && n in q.nodes && n in q.place && q.place[n] == InTable
    ensures QueriesAsk(Detach(q, n, o), keys)
  {
  }

  lemma ExpireAsks(q: Queries, keys: seq<Key>, n: NodeId, retries: nat, sent: bool)
    requires QueriesAsk(q, keys) && n in q.nodes && n in q.place && q.place[n] == InTable
    ensures QueriesAsk(Expire(q, n, retries, sent), keys)
  {
    DetachAsks(q, keys, n, TimedOut);
    hide Detach;
  }

  lemma CallAsks(q: Queries, keys: seq<Key>, n: NodeId)
    requires QueriesAsk(q, keys) && n in q.busy && n in q.nodes && q.busy[n].done <= |q.nodes[n].children| && NextOwner(q, n) in q.nodes
    ensures QueriesAsk(CallBack(q, n), keys)
  {
    hide OwnersAsk;
  }

  lemma RecycleAsks(q: Queries, keys: seq<Key>, n: NodeId)
    requires QueriesAsk(q, keys) && n in q.nodes
    ensures QueriesAsk(Recycle(q, n), keys)
  {
  }

  lemma StartAsks(q: Queries, retries: nat, keys: seq<Key>, key: Key, cb: bool, sent: bool)
    requires Inv(q, retries) && QueriesAsk(q, keys) && (key in q.byKey ==> q.byKey[key] in q.nodes)
    ensures QueriesAsk(StartQuery(q, key, cb, sent), keys + if cb && (key in q.byKey || sent) then [key] else [])
  {
    NextIsSpare(q, retries);
    Families(q, retries);
    hide Inv, QueriesAsk, Spare, FamilyOk, Merge, Begin, Refuse, NextNode;
    if key in q.byKey {
      MergeAsks(q, keys, key, cb);
    } else if sent {
      BeginAsks(q, keys, key, cb);
    } else {
      RefuseAsks(q, keys, key, cb);
      assert keys + [] == keys;
    }
  }

  lemma StartStepAsks(s: State, st: Settings, keys: seq<Key>, key: Key, cb: bool, now: Time, sent: bool)
    requires RunInv(s, st) && Linked(s) && Enabled(s, Start(key, cb, now, sent)) && QueriesAsk(s.q, keys)
    ensures QueriesAsk(Step(s, Start(key, cb, now, sent), st).q, keys + Added(s, Start(key, cb, now, sent)))
  {
    StartStep(s, key, cb, now, sent, st);
    hide Inv, CacheInv, ServingOk, SpentOk, QueriesAsk, Acquire, Drop, StartQuery, Hit, Step, Enabled;
    if Fresh(s.c, key, now) {
      HitAsks(s.q, keys, key, cb, Rcode(s.c.heap[s.c.table[key]].pkt.hdr.flags));
    } else {
      hide Fresh;
      StartAsks(s.q, st.retries, keys, key, cb, sent);
    }
  }

  lemma Families(q: Queries, retries: nat)
    requires Inv(q, retries)
    ensures FamilyOk(q.nodes, q.place)
    ensures forall k {:trigger q.byKey[k]} :: k in q.byKey ==>
      q.byKey[k] in q.nodes && q.byKey[k] in q.place && q.place[q.byKey[k]] == InTable && q.nodes[q.byKey[k]].key == k
    ensures forall i {:trigger q.byId[i]} :: i in q.byId ==>
      q.byId[i] in q.nodes && q.byId[i] in q.place && q.place[q.byId[i]] == InTable
  {
    hide FreeOk, HandlersOk, TimersOk, FamilyOk, Ledger, Held;
  }

  lemma OtherStepAsks(s: State, e: ResolverMachine.Event, st: Settings, keys: seq<Key>)
    requires Inv(s.q, st.retries) && Linked(s) && Enabled(s, e) && QueriesAsk(s.q, keys) && !e.Start?
    ensures QueriesAsk(Step(s, e, st).q, keys)
  {
    Families(s.q, st.retries);
    hide Inv, QueriesAsk, FamilyOk, IsDup, Fresh, Acquire, Drop, Release, Update, StartQuery;
    hide Hit, HitCallback, CancelNotify, CancelSilently, Expire, Detach, CallBack, Recycle;
    match e
    case ServeHit(r) => CallbackAsks(s.q, keys, s.serving[r]);
    case CancelQuery(n, notify) => CancelAsks(s.q, keys, n, notify);
    case TimerExpires(n, sent) => ExpireAsks(s.q, keys, n, st.retries, sent);
    case ResponseArrives(id, rcode) => DetachAsks(s.q, keys, s.q.byId[id], Answered(rcode));
    case CallOwner(n) => CallAsks(s.q, keys, n);
    case FinishTimeout(n) => RecycleAsks(s.q, keys, n);
    case FinishAnswer(n, pkt, dup, now) => RecycleAsks(s.q, keys, n);
    case _ =>
  }

  lemma StepAsks(s: State, e: ResolverMachine.Event, st: Settings, keys: seq<Key>)
    requires RunInv(s, st) && Linked(s) && Enabled(s, e) && QueriesAsk(s.q, keys)
    ensures QueriesAsk(Step(s, e, st).q, keys + Added(s, e))
  {
    hide Inv, CacheInv, ServingOk, SpentOk, Linked, Enabled, QueriesAsk, Step, Fresh;
    if e.Start? {
      StartStepAsks(s, st, keys, e.key, e.cb, e.now, e.sent);
    } else {
      OtherStepAsks(s, e, st, keys);
      assert keys + [] == keys;
    }
  }

  lemma CallbackAsks(q: Queries, keys: seq<Key>, t: Ticket)
    requires QueriesAsk(q, keys) && t in q.hits
    ensures QueriesAsk(HitCallback(q, t), keys)
  {
    hide OwnersAsk;
  }

  // ------------------------------------------------------------------ cache hits

  /** Entries that readers use keep their keys. */
  ghost predicate KeysKept(c: Cache, after: Cache) {
    forall r {:trigger after.readers[r]} :: r in after.readers && r in c.readers && c.readers[r].entry in c.heap ==>
      && after.readers[r] == c.readers[r]
      && (after.readers[r].entry in after.heap ==> after.heap[after.readers[r].entry].key == c.heap[c.readers[r].entry].key)
  }

  lemma AcquireKeepsKeys(c: Cache, key: Key)
    requires key in c.table && c.table[key] in c.heap && ReadersOk(c)
    ensures KeysKept(c, Acquire(c, key))
  {
  }

  lemma ReleaseKeepsKeys(c: Cache, r: ReaderId)
    requires r in c.readers && c.readers[r].entry in c.heap
    ensures KeysKept(c, Release(c, r))
  {
  }

  lemma DropKeepsKeys(c: Cache, key: Key)
    requires key in c.table ==> c.table[key] in c.heap
    ensures KeysKept(c, Drop(c, key))
  {
  }

  lemma PutKeepsKeys(c: Cache, ev: ResolverCache.Event, dup: Packet, maxTtl: nat)
    requires CountsOk(c) && ev.Stored? && (ev.key in c.table ==> c.table[ev.key] in c.heap)
    ensures KeysKept(c, Put(c, ev, dup, maxTtl))
  {
    hide UsersOf, Ttl, Expiry;
  }

  lemma UpdateKeepsKeys(c: Cache, ev: ResolverCache.Event, dup: Packet, maxTtl: nat)
    requires CacheInv(c, maxTtl) && ev.Stored? && (ev.key in c.table ==> c.table[ev.key] in c.heap)
    ensures KeysKept(c, Update(c, ev, dup, maxTtl))
  {
    DropKeeps(c, ev.key, maxTtl);
    var cleared := Drop(c, ev.key);
    DropKeepsKeys(c, ev.key);
    PutKeepsKeys(c, ev, dup, maxTtl);
    PutKeepsKeys(cleared, ev, dup, maxTtl);
    DropKeepsKeys(cleared, ev.key);
    hide CountsOk, HistoryOk, Drop, Put, Ttl;
  }

  /** Hits that are still waiting were waiting before, over entries that kept their keys. */
  lemma HitsKept(s: State, t: State, keys: seq<Key>, more: seq<Key>)
    requires HitsAsk(s, keys) && ReadersOk(s.c) && KeysKept(s.c, t.c) && t.c.readers.Keys <= s.c.readers.Keys
    requires forall r {:trigger t.serving[r]} :: r in t.serving ==> r in s.serving && t.serving[r] == s.serving[r]
    ensures HitsAsk(t, keys + more)
  {
  }

  lemma SameCache(c: Cache)
    ensures KeysKept(c, c)
  {
  }

  lemma ReleaseDropsReader(c: Cache, r: ReaderId)
    requires r in c.readers && c.readers[r].entry in c.heap
    ensures Release(c, r).readers.Keys <= c.readers.Keys
  {
  }

  /** A hit waits for the key that was just asked for. */
  lemma NewHitAsks(s: State, keys: seq<Key>, key: Key, cb: bool, q: Queries)
    requires HitsAsk(s, keys) && ReadersOk(s.c) && CountsOk(s.c) && |keys| == s.q.tickets
    requires key in s.c.table && s.c.table[key] in s.c.heap
    requires forall r {:trigger s.serving[r]} :: r in s.serving ==> r in s.c.readers
    ensures HitsAsk(State(q, Acquire(s.c, key), if cb then s.serving[s.c.nextReader := s.q.tickets] else s.serving),
                    keys + if cb then [key] else [])
  {
    hide UsersOf;
  }

  lemma StartHitsAsk(s: State, st: Settings, keys: seq<Key>, key: Key, cb: bool, now: Time, sent: bool)
    requires RunInv(s, st) && Linked(s) && Enabled(s, Start(key, cb, now, sent)) && |keys| == s.q.tickets && HitsAsk(s, keys)
    ensures HitsAsk(Step(s, Start(key, cb, now, sent), st), keys + Added(s, Start(key, cb, now, sent)))
  {
    StartStep(s, key, cb, now, sent, st);
    hide Inv, SpentOk, HistoryOk, CountsOk, ReadersOk, HitsAsk, Linked, Acquire, Drop, StartQuery, Hit, Step, Enabled;
    var t := Step(s, Start(key, cb, now, sent), st);
    if Fresh(s.c, key, now) {
      NewHitAsks(s, keys, key, cb, t.q);
    } else {
      EntriesFound(s.c);
      DropKeepsUsers(s.c, key);
      DropKeepsKeys(s.c, key);
      HitsKept(s, t, keys, Added(s, Start(key, cb, now, sent)));
    }
  }

  lemma EntriesFound(c: Cache)
    requires CountsOk(c)
    ensures forall k {:trigger c.table[k]} :: k in c.table ==> c.table[k] in c.heap
  {
    hide UsersOf;
  }

  lemma UpdateHitsAsk(s: State, st: Settings, keys: seq<Key>, q: Queries, ev: ResolverCache.Event, dup: Packet)
    requires CacheInv(s.c, st.maxTtl) && HitsAsk(s, keys) && ev.Stored? && (ev.key in s.c.table ==> s.c.table[ev.key] in s.c.heap)
    ensures HitsAsk(State(q, Update(s.c, ev, dup, st.maxTtl), s.serving), keys)
  {
    UpdateKeepsKeys(s.c, ev, dup, st.maxTtl);
    UpdateKeepsUsers(s.c, ev, dup, st.maxTtl);
    hide CountsOk, ReadersOk, HistoryOk, HitsAsk, KeysKept, Update;
    HitsKept(s, State(q, Update(s.c, ev, dup, st.maxTtl), s.serving), keys, []);
    assert keys + [] == keys;
  }

  lemma LeaveHitsAsk(s: State, st: Settings, keys: seq<Key>, r: ReaderId)
    requires CacheInv(s.c, st.maxTtl) && HitsAsk(s, keys) && r in s.c.readers && s.c.readers[r].entry in s.c.heap
    ensures HitsAsk(s.(c := Release(s.c, r)), keys)
  {
    ReleaseKeepsKeys(s.c, r);
    ReleaseDropsReader(s.c, r);
    hide CountsOk, ReadersOk, HistoryOk, HitsAsk, KeysKept, Release;
    HitsKept(s, s.(c := Release(s.c, r)), keys, []);
    assert keys + [] == keys;
  }

  lemma SameCacheAsks(s: State, st: Settings, keys: seq<Key>, t: State)
    requires CacheInv(s.c, st.maxTtl) && HitsAsk(s, keys) && t.c == s.c
    requires forall r {:trigger t.serving[r]} :: r in t.serving ==> r in s.serving && t.serving[r] == s.serving[r]
    ensures HitsAsk(t, keys)
  {
    SameCache(s.c);
    hide CountsOk, ReadersOk, HistoryOk, HitsAsk, KeysKept;
    HitsKept(s, t, keys, []);
    assert keys + [] == keys;
  }

  lemma OtherHitsAsk(s: State, e: ResolverMachine.Event, st: Settings, keys: seq<Key>)
    requires CacheInv(s.c, st.maxTtl) && Linked(s) && Enabled(s, e) && HitsAsk(s, keys) && !e.Start?
    ensures HitsAsk(Step(s, e, st), keys)
  {
    var t := Step(s, e, st);
    hide CacheInv, HitsAsk, IsDup, Release, Update, KeysKept;
    hide HitCallback, CancelNotify, CancelSilently, Expire, Detach, CallBack, Recycle;
    match e
    case LeaveHit(r) => LeaveHitsAsk(s, st, keys, r);
    case FinishAnswer(n, pkt, dup, now) =>
      UpdateHitsAsk(s, st, keys, t.q, Stored(s.q.nodes[n].key, pkt, s.q.busy[n].outcome == Answered(0), true, now), dup);
    case AddEntry(key, pkt, dup, setExpiry, now) =>
      UpdateHitsAsk(s, st, keys, t.q, Stored(key, pkt, true, setExpiry, now), dup);
    case _ => SameCacheAsks(s, st, keys, t);
  }

  // ------------------------------------------------------------------ whole runs

  lemma {:induction false} RunsAsk(s: State, es: seq<ResolverMachine.Event>, st: Settings, keys: seq<Key>)
    requires RunInv(s, st) && IsRun(s, es, st) && QueriesAsk(s.q, keys) && HitsAsk(s, keys)
    ensures RunInv(End(s, es, st), st)
    ensures QueriesAsk(End(s, es, st).q, keys + Questions(s, es, st)) && HitsAsk(End(s, es, st), keys + Questions(s, es, st))
    decreases |es|
  {
    hide RunInv, Linked, Enabled, Step, QueriesAsk, HitsAsk, Added;
    if es == [] {
      assert keys + [] == keys;
    } else {
      StepKeepsInv(s, es[0], st);
      StepAsks(s, es[0], st, keys);
      StepHitsAsk(s, es[0], st, keys);
      RunsAsk(Step(s, es[0], st), es[1..], st, keys + Added(s, es[0]));
      assert keys + Added(s, es[0]) + Questions(Step(s, es[0], st), es[1..], st) == keys + Questions(s, es, st);
    }
  }

  lemma StepHitsAsk(s: State, e: ResolverMachine.Event, st: Settings, keys: seq<Key>)
    requires RunInv(s, st) && Linked(s) && Enabled(s, e) && QueriesAsk(s.q, keys) && HitsAsk(s, keys)
    ensures HitsAsk(Step(s, e, st), keys + Added(s, e))
  {
    hide Inv, CacheInv, ServingOk, SpentOk, Linked, Enabled, OwnersAsk, HitsAsk, Step, Fresh;
    if e.Start? {
      StartHitsAsk(s, st, keys, e.key, e.cb, e.now, e.sent);
    } else {
      OtherHitsAsk(s, e, st, keys);
      assert keys + [] == keys;
    }
  }

  lemma InitiallyAsk()
    ensures QueriesAsk(Initial().q, []) && HitsAsk(Initial(), [])
  {
  }

  /** Main result.  In every interleaving, whoever the handler of a query turns to next asked for the key of
      that query: an answer reaches those who asked for it, and nobody else. */
  lemma AnswersTheQuestion(es: seq<ResolverMachine.Event>, st: Settings, n: NodeId)
    requires IsRun(Initial(), es, st) && Enabled(End(Initial(), es, st), CallOwner(n))
    ensures var s, asked := End(Initial(), es, st), Questions(Initial(), es, st);
      && Linked(s)
      && var cb := s.q.nodes[NextOwner(s.q, n)].cb;
         cb.Some? ==> cb.value < |asked| && asked[cb.value] == s.q.nodes[n].key
  {
    hide RunInv, IsRun, End, Questions;
    InitiallyOk(st);
    InitiallyAsk();
    var asked := Questions(Initial(), es, st);
    assert [] + asked == asked;
    RunsAsk(Initial(), es, st, []);
    InvIsLinked(End(Initial(), es, st), st);
    NextOwnerAsks(End(Initial(), es, st), st, asked, n);
  }

  lemma NextOwnerAsks(s: State, st: Settings, keys: seq<Key>, n: NodeId)
    requires RunInv(s, st) && QueriesAsk(s.q, keys)
    requires n in s.q.busy && n in s.q.nodes && s.q.busy[n].done <= |s.q.nodes[n].children| && NextOwner(s.q, n) in s.q.nodes
    ensures Asks(s.q.nodes[NextOwner(s.q, n)].cb, s.q.nodes[n].key, keys)
  {
    Handled(s.q, st.retries, n);
  }

  /** A handler's query and its children, as the places have them. */
  lemma Handled(q: Queries, retries: nat, n: NodeId)
    requires Inv(q, retries) && n in q.busy
    ensures n in q.nodes && n in q.place && q.place[n] == InHandler
    ensures forall i {:trigger q.nodes[n].children[i]} :: 0 <= i < |q.nodes[n].children| ==>
      q.nodes[n].children[i] in q.place && q.place[q.nodes[n].children[i]] == ChildOf(n)
  {
    hide TablesOk, FreeOk, TimersOk, Ledger, Held;
    forall i | 0 <= i < |q.nodes[n].children|
      ensures q.nodes[n].children[i] in q.place && q.place[q.nodes[n].children[i]] == ChildOf(n)
    {
      assert q.nodes[n].children[i] in q.nodes[n].children;
    }
  }

  /** In every interleaving the caller of a cache hit asked for the key of the entry that it is given. */
  lemma HitsTheQuestion(es: seq<ResolverMachine.Event>, st: Settings, r: ReaderId)
    requires IsRun(Initial(), es, st) && r in End(Initial(), es, st).serving
    ensures var s, asked := End(Initial(), es, st), Questions(Initial(), es, st);
      && r in s.c.readers && s.c.readers[r].entry in s.c.heap
      && s.serving[r] < |asked| && asked[s.serving[r]] == s.c.heap[s.c.readers[r].entry].key
  {
    hide RunInv, IsRun, End, Questions;
    InitiallyOk(st);
    InitiallyAsk();
    var asked := Questions(Initial(), es, st);
    assert [] + asked == asked;
    RunsAsk(Initial(), es, st, []);
    InvIsLinked(End(Initial(), es, st), st);
  }
}
