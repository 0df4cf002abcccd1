/** What the owners of queries are told, over every interleaving: the answer that arrived, a timeout,
    a cancellation, or the code of the cached response they are given. */
module ResolverOutcomes {
  import opened Bytes
  import opened DnsFormat
  import opened ResolverQueries
  import opened ResolverQueriesProof
  import opened ResolverCache
  import opened ResolverMachine

  // ------------------------------------------------------------------ runs in parts

  lemma {:induction false} RunSplits(s: State, a: seq<ResolverMachine.Event>, b: seq<ResolverMachine.Event>, st: Settings)
    requires IsRun(s, a + b, st)
    ensures IsRun(s, a, st) && IsRun(End(s, a, st), b, st)
    ensures End(s, a + b, st) == End(End(s, a, st), b, st)
    decreases |a|
  {
    hide Linked, Enabled, Step;
    if a == [] {
      assert a + b == b;
    } else {
      assert (a + b)[1..] == a[1..] + b;
      RunSplits(Step(s, a[0], st), a[1..], b, st);
    }
  }

  // ------------------------------------------------------------------ handlers

  /** The owners of a query in the order in which its handler turns to them. */
  function Owners(q: Queries, n: NodeId): seq<NodeId>
    requires n in q.nodes
  {
    [n] + q.nodes[n].children
  }

  /** The handler of n ends. */
  predicate Finishes(e: ResolverMachine.Event, n: NodeId) {
    (e.FinishTimeout? || e.FinishAnswer?) && e.n == n
  }

  function Turns(es: seq<ResolverMachine.Event>, n: NodeId): nat {
    if es == [] then 0 else (if es[0] == CallOwner(n) then 1 else 0) + Turns(es[1..], n)
  }

  /** The handler of n has these owners to call with this outcome, and has turned to some already. */
  ghost predicate Handling(q: Queries, n: NodeId, owners: seq<NodeId>, outcome: Outcome, done: nat) {
    n in q.nodes && n in q.busy && Owners(q, n) == owners && q.busy[n] == Progress(done, outcome)
  }

  lemma DetachHandles(q: Queries, n: NodeId, o: Outcome)
    requires n in q.nodes
    ensures Handling(Detach(q, n, o), n, Owners(q, n), o, 0)
  {
  }

  lemma TransitionsKeep(q: Queries, n: NodeId, m: NodeId, o: Outcome, retries: nat, sent: bool)
    requires n in q.busy && m in q.nodes && m != n
    ensures n in Detach(q, m, o).busy && Detach(q, m, o).busy[n] == q.busy[n]
    ensures n in Expire(q, m, retries, sent).busy && Expire(q, m, retries, sent).busy[n] == q.busy[n]
    ensures n in Recycle(q, m).busy && Recycle(q, m).busy[n] == q.busy[n]
  {
  }

  lemma CallsKeep(q: Queries, n: NodeId, m: NodeId)
    requires n in q.busy && m in q.busy && m in q.nodes && q.busy[m].done <= |q.nodes[m].children| && NextOwner(q, m) in q.nodes
    ensures n in CallBack(q, m).busy
    ensures CallBack(q, m).busy[n] == if n == m then Progress(q.busy[n].done + 1, q.busy[n].outcome) else q.busy[n]
  {
  }

  lemma StartsKeep(q: Queries, n: NodeId, key: Key, cb: bool, sent: bool)
    requires key in q.byKey ==> q.byKey[key] in q.nodes
    ensures StartQuery(q, key, cb, sent).busy == q.busy
    ensures forall rcode: nat {:trigger Hit(q, cb, rcode)} :: Hit(q, cb, rcode).busy == q.busy
  {
  }

  lemma StepKeepsBusy(s: State, e: ResolverMachine.Event, st: Settings, n: NodeId)
    requires Linked(s) && Enabled(s, e) && n in s.q.busy && n in s.q.nodes && !Finishes(e, n)
    requires forall i {:trigger s.q.byId[i]} :: i in s.q.byId ==> s.q.byId[i] != n
    requires n in s.q.place && s.q.place[n] == InHandler
    ensures var busy := Step(s, e, st).q.busy;
      n in busy && busy[n] == Progress(s.q.busy[n].done + if e == CallOwner(n) then 1 else 0, s.q.busy[n].outcome)
  {
    hide IsDup, Fresh, Acquire, Drop, Release, Update, StartQuery, Hit, Expire, Detach, CallBack, Recycle;
    match e
    case Start(key, cb, now, sent) => StartsKeep(s.q, n, key, cb, sent);
    case TimerExpires(m, sent) => TransitionsKeep(s.q, n, m, TimedOut, st.retries, sent);
    case ResponseArrives(id, rcode) => TransitionsKeep(s.q, n, s.q.byId[id], Answered(rcode), 0, false);
    case CallOwner(m) => CallsKeep(s.q, n, m);
    case FinishTimeout(m) => TransitionsKeep(s.q, n, m, TimedOut, 0, false);
    case FinishAnswer(m, pkt, dup, now) => TransitionsKeep(s.q, n, m, TimedOut, 0, false);
    case _ =>
  }

  /** While a handler is at work, no event but its own turns touches its progress. */
  lemma StepKeepsHandling(s: State, e: ResolverMachine.Event, st: Settings, n: NodeId, owners: seq<NodeId>, o: Outcome, done: nat)
    requires RunInv(s, st) && Linked(s) && Enabled(s, e) && Handling(s.q, n, owners, o, done) && !Finishes(e, n)
    ensures Handling(Step(s, e, st).q, n, owners, o, done + if e == CallOwner(n) then 1 else 0)
  {
    QueriesLinked(s.q, st.retries);
    HandlersPlaced(s.q, st.retries);
    StepKeepsSpent(s, e, st);
    hide RunInv, Linked, Enabled, Step, SpentOk, Finishes;
    StepKeepsBusy(s, e, st, n);
  }

  lemma HandlersPlaced(q: Queries, retries: nat)
    requires Inv(q, retries)
    ensures forall n {:trigger q.busy[n]} :: n in q.busy ==> n in q.place
    ensures forall i {:trigger q.byId[i]} :: i in q.byId ==> q.byId[i] !in q.busy
  {
    hide FreeOk, FamilyOk, TimersOk, Ledger, Held;
  }

  lemma {:induction false} RunKeepsHandling(s: State, es: seq<ResolverMachine.Event>, st: Settings, n: NodeId, owners: seq<NodeId>, o: Outcome, done: nat)
    requires RunInv(s, st) && IsRun(s, es, st) && Handling(s.q, n, owners, o, done)
    requires forall i :: 0 <= i < |es| ==> !Finishes(es[i], n)
    ensures Handling(End(s, es, st).q, n, owners, o, done + Turns(es, n))
    decreases |es|
  {
    hide RunInv, Linked, Enabled, Step, Handling, Finishes;
    if es != [] {
      StepKeepsInv(s, es[0], st);
      StepKeepsHandling(s, es[0], st, n, owners, o, done);
      RunKeepsHandling(Step(s, es[0], st), es[1..], st, n, owners, o, done + if es[0] == CallOwner(n) then 1 else 0);
    }
  }

  // ------------------------------------------------------------------ what is called

  /** The calls of a log after an event: those before it, and at most one more. */
  function Logged(log: seq<Call>, cb: Option<Ticket>, o: Outcome): seq<Call> {
    if cb.Some? then log + [Call(cb.value, o)] else log
  }

  lemma TurnCalls(s: State, st: Settings, n: NodeId, owners: seq<NodeId>, o: Outcome, done: nat)
    requires Linked(s) && Handling(s.q, n, owners, o, done) && done < |owners|
    ensures Enabled(s, CallOwner(n)) && owners[done] in s.q.nodes
    ensures Step(s, CallOwner(n), st).q.log == Logged(s.q.log, s.q.nodes[owners[done]].cb, o)
  {
  }

  /** Main result.  When a response with a code arrives for a query, its owner and then every owner of a
      query merged with it, in order, is told that code: the k-th turn of the handler calls the k-th owner,
      unless its callback was cancelled, whatever else happens in between. */
  lemma AnswerReachesAll(before: seq<ResolverMachine.Event>, id: U16, rcode: nat, between: seq<ResolverMachine.Event>, st: Settings)
    requires IsRun(Initial(), before, st) && Linked(End(Initial(), before, st))
    requires Enabled(End(Initial(), before, st), ResponseArrives(id, rcode))
    requires var s, n := End(Initial(), before, st), End(Initial(), before, st).q.byId[id];
      && IsRun(Step(s, ResponseArrives(id, rcode), st), between, st)
      && (forall i :: 0 <= i < |between| ==> !Finishes(between[i], n))
      && n in s.q.nodes && Turns(between, n) < |Owners(s.q, n)|
    ensures var s, n := End(Initial(), before, st), End(Initial(), before, st).q.byId[id];
      var t, owner := End(Step(s, ResponseArrives(id, rcode), st), between, st), Owners(s.q, n)[Turns(between, n)];
      && Linked(t) && Enabled(t, CallOwner(n)) && owner in t.q.nodes
      && Step(t, CallOwner(n), st).q.log == Logged(t.q.log, t.q.nodes[owner].cb, Answered(rcode))
  {
    hide RunInv, IsRun, Linked, End, Handling, Turns, Finishes, Detach;
    InitiallyOk(st);
    RunsKeepInv(Initial(), before, st);
    var s := End(Initial(), before, st);
    var n := s.q.byId[id];
    StepKeepsInv(s, ResponseArrives(id, rcode), st);
    DetachHandles(s.q, n, Answered(rcode));
    HandlerTells(Step(s, ResponseArrives(id, rcode), st), between, st, n, Owners(s.q, n), Answered(rcode));
  }

  lemma HandlerTells(s: State, between: seq<ResolverMachine.Event>, st: Settings, n: NodeId, owners: seq<NodeId>, o: Outcome)
    requires RunInv(s, st) && IsRun(s, between, st) && Handling(s.q, n, owners, o, 0)
    requires (forall i :: 0 <= i < |between| ==> !Finishes(between[i], n)) && Turns(between, n) < |owners|
    ensures var t, owner := End(s, between, st), owners[Turns(between, n)];
      && Linked(t) && Enabled(t, CallOwner(n)) && owner in t.q.nodes
      && Step(t, CallOwner(n), st).q.log == Logged(t.q.log, t.q.nodes[owner].cb, o)
  {
    hide RunInv, IsRun, Linked, End, Handling, Turns, Finishes, Step;
    RunsKeepInv(s, between, st);
    RunKeepsHandling(s, between, st, n, owners, o, 0);
    InvIsLinked(End(s, between, st), st);
    TurnCalls(End(s, between, st), st, n, owners, o, Turns(between, n));
  }

  /** The same for a query whose timer expired with no retransmission left or possible: all its owners are
      told that it timed out. */
  lemma TimeoutReachesAll(before: seq<ResolverMachine.Event>, n: NodeId, sent: bool, between: seq<ResolverMachine.Event>, st: Settings)
    requires IsRun(Initial(), before, st) && Linked(End(Initial(), before, st))
    requires Enabled(End(Initial(), before, st), TimerExpires(n, sent))
    requires var s := End(Initial(), before, st);
      && !(s.q.nodes[n].sent < st.retries && sent)
      && IsRun(Step(s, TimerExpires(n, sent), st), between, st)
      && (forall i :: 0 <= i < |between| ==> !Finishes(between[i], n))
      && Turns(between, n) < |Owners(s.q, n)|
    ensures var s := End(Initial(), before, st);
      var t, owner := End(Step(s, TimerExpires(n, sent), st), between, st), Owners(s.q, n)[Turns(between, n)];
      && Linked(t) && Enabled(t, CallOwner(n)) && owner in t.q.nodes
      && Step(t, CallOwner(n), st).q.log == Logged(t.q.log, t.q.nodes[owner].cb, TimedOut)
  {
    hide RunInv, IsRun, Linked, End, Handling, Turns, Finishes, Detach;
    InitiallyOk(st);
    RunsKeepInv(Initial(), before, st);
    var s := End(Initial(), before, st);
    StepKeepsInv(s, TimerExpires(n, sent), st);
    DetachHandles(s.q, n, TimedOut);
    HandlerTells(Step(s, TimerExpires(n, sent), st), between, st, n, Owners(s.q, n), TimedOut);
  }

  /** A timer that expires with a retransmission left and possible only sends once more. */
  lemma ExpiryResends(s: State, st: Settings, n: NodeId)
    requires Linked(s) && Enabled(s, TimerExpires(n, true)) && s.q.nodes[n].sent < st.retries
    ensures var q := Step(s, TimerExpires(n, true), st).q;
      && q.nodes == s.q.nodes[n := s.q.nodes[n].(sent := s.q.nodes[n].sent + 1)]
      && q == s.q.(nodes := q.nodes)
  {
  }

  // ------------------------------------------------------------------ answers from the cache

  /** What a reader will be told is the code in the flags of the packet it was given. */
  ghost predicate ToldOk(s: State) {
    forall r {:trigger s.serving[r]} :: r in s.serving && r in s.c.readers && s.serving[r] in s.q.hits ==>
      s.q.hits[s.serving[r]] == s.c.readers[r].pkt.hdr.flags % 16
  }

  lemma NewHitTold(s: State, key: Key, cb: bool)
    requires ToldOk(s) && ServingOk(s) && ReadersOk(s.c) && key in s.c.table && s.c.table[key] in s.c.heap
    requires forall t :: t in s.q.hits ==> t < s.q.tickets
    ensures ToldOk(State(Hit(s.q, cb, Rcode(s.c.heap[s.c.table[key]].pkt.hdr.flags)), Acquire(s.c, key),
                         if cb then s.serving[s.c.nextReader := s.q.tickets] else s.serving))
  {
  }

  lemma StartKeepsTold(s: State, key: Key, cb: bool, now: Time, sent: bool, st: Settings)
    requires RunInv(s, st) && Linked(s) && ToldOk(s) && Enabled(s, Start(key, cb, now, sent))
    ensures ToldOk(Step(s, Start(key, cb, now, sent), st))
  {
    TicketsAreOld(s.q, st.retries);
    StartStep(s, key, cb, now, sent, st);
    hide Inv, SpentOk, ServingOk, CountsOk, HistoryOk, ReadersOk, Step, StartQuery, Hit, Acquire, Drop;
    if Fresh(s.c, key, now) {
      hide ToldOk;
      NewHitTold(s, key, cb);
    } else {
      KeepsHits(s.q, key, cb, sent);
      DropKeepsUsers(s.c, key);
    }
  }

  lemma StepKeepsTold(s: State, e: ResolverMachine.Event, st: Settings)
    requires RunInv(s, st) && Linked(s) && ToldOk(s) && Enabled(s, e)
    ensures ToldOk(Step(s, e, st))
  {
    hide Inv, CacheInv, SpentOk, Hit, Acquire, StartQuery, Fresh;
    hide Merge, Begin, Refuse, CancelNotify, CancelSilently, Expire, Detach, CallBack, Recycle, Drop, Update, IsDup;
    match e
    case Start(key, cb, now, sent) => StartKeepsTold(s, key, cb, now, sent, st);
    case ServeHit(r) =>
    case LeaveHit(r) =>
    case CancelQuery(n, notify) => CancelKeepsHits(s.q, n, notify);
    case TimerExpires(n, sent) => HandlerKeepsHits(s.q, n, st.retries, sent, TimedOut);
    case ResponseArrives(id, rcode) => HandlerKeepsHits(s.q, s.q.byId[id], st.retries, false, Answered(rcode));
    case CallOwner(n) => CallKeepsHits(s.q, n);
    case FinishTimeout(n) => RecycleKeepsHits(s.q, n);
    case FinishAnswer(n, pkt, dup, now) =>
      RecycleKeepsHits(s.q, n);
      UpdateKeepsUsers(s.c, Stored(s.q.nodes[n].key, pkt, s.q.busy[n].outcome == Answered(0), true, now), dup, st.maxTtl);
    case AddEntry(key, pkt, dup, setExpiry, now) =>
      UpdateKeepsUsers(s.c, Stored(key, pkt, true, setExpiry, now), dup, st.maxTtl);
  }

  lemma {:induction false} RunsKeepTold(s: State, es: seq<ResolverMachine.Event>, st: Settings)
    requires RunInv(s, st) && ToldOk(s) && IsRun(s, es, st)
    ensures RunInv(End(s, es, st), st) && ToldOk(End(s, es, st))
    decreases |es|
  {
    hide RunInv, ToldOk, Linked, Enabled, Step;
    if es != [] {
      InvIsLinked(s, st);
      StepKeepsInv(s, es[0], st);
      StepKeepsTold(s, es[0], st);
      RunsKeepTold(Step(s, es[0], st), es[1..], st);
    }
  }

  /** In every interleaving the caller of a cache hit is told the code in the flags of the very packet that
      it is given. */
  lemma HitTellsItsPacket(es: seq<ResolverMachine.Event>, st: Settings, r: ReaderId)
    requires IsRun(Initial(), es, st) && r in End(Initial(), es, st).serving
    ensures var s := End(Initial(), es, st);
      && Linked(s) && Enabled(s, ServeHit(r)) && r in s.c.readers
      && Step(s, ServeHit(r), st).q.log == s.q.log + [Call(s.serving[r], FromCache(s.c.readers[r].pkt.hdr.flags % 16))]
  {
    hide RunInv, IsRun, End;
    InitiallyOk(st);
    RunsKeepTold(Initial(), es, st);
    InvIsLinked(End(Initial(), es, st), st);
  }

  // ------------------------------------------------------------------ all other events

  /** A cancel that asks for it tells the owner so, and a silent one tells nobody. */
  lemma CancelTells(s: State, st: Settings, n: NodeId, notify: bool)
    requires Linked(s) && Enabled(s, CancelQuery(n, notify))
    ensures var q, call := Step(s, CancelQuery(n, notify), st).q, s.q.nodes[n].cb;
      && (!notify ==> q.log == s.q.log && q.late == s.q.late)
      && (notify && NotYetCalled(s.q, n) ==> q.log == s.q.log + [Call(call.value, Cancelled)] && q.late == s.q.late)
      && (notify && !NotYetCalled(s.q, n) ==> q.late == s.q.late + [Call(call.value, Cancelled)] && q.log == s.q.log)
      && q.nodes[n].cb == None
  {
  }

  lemma StartTellsNobody(q: Queries, key: Key, cb: bool, sent: bool)
    requires key in q.byKey ==> q.byKey[key] in q.nodes
    ensures StartQuery(q, key, cb, sent).log == q.log && StartQuery(q, key, cb, sent).late == q.late
    ensures forall rcode: nat {:trigger Hit(q, cb, rcode)} :: Hit(q, cb, rcode).log == q.log && Hit(q, cb, rcode).late == q.late
  {
  }

  lemma HandlingTellsNobody(q: Queries, n: NodeId, retries: nat, sent: bool, o: Outcome)
    requires n in q.nodes
    ensures Expire(q, n, retries, sent).log == q.log && Expire(q, n, retries, sent).late == q.late
    ensures Detach(q, n, o).log == q.log && Detach(q, n, o).late == q.late
    ensures Recycle(q, n).log == q.log && Recycle(q, n).late == q.late
  {
  }

  /** Nobody is told anything by any other event. */
  lemma OthersTellNobody(s: State, e: ResolverMachine.Event, st: Settings)
    requires Linked(s) && Enabled(s, e) && !e.ServeHit? && !e.CancelQuery? && !e.CallOwner?
    ensures Step(s, e, st).q.log == s.q.log && Step(s, e, st).q.late == s.q.late
  {
    hide IsDup, Fresh, Acquire, Drop, Release, Update, StartQuery, Hit, Expire, Detach, Recycle;
    match e
    case Start(key, cb, now, sent) => StartTellsNobody(s.q, key, cb, sent);
    case TimerExpires(n, sent) => HandlingTellsNobody(s.q, n, st.retries, sent, TimedOut);
    case ResponseArrives(id, rcode) => HandlingTellsNobody(s.q, s.q.byId[id], 0, false, Answered(rcode));
    case FinishTimeout(n) => HandlingTellsNobody(s.q, n, 0, false, TimedOut);
    case FinishAnswer(n, pkt, dup, now) => HandlingTellsNobody(s.q, n, 0, false, TimedOut);
    case _ =>
  }
}
