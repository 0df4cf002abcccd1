/** Every callback of a run, those of late cancels included.  pj_dns_resolver_cancel_query does
    not ask whether the query was already called back, so a notifying cancel between that call
    and the recycling of the query calls its owner again. */
module ResolverCalls {
  import opened ResolverQueries
  import opened ResolverQueriesProof
  import opened ResolverCache
  import opened ResolverMachine
  import opened DnsFormat

  /** The node stands for a query that was accepted with a callback and is not recycled. */
  predicate Standing(q: Queries, n: NodeId) {
    n in q.nodes && n in q.place && q.place[n] != Free && q.nodes[n].cb.Some?
  }

  /** Nobody is called late twice, or late without having been called in time, or while a query
      still stands for it; and no two queries stand for one ticket. */
  ghost predicate OwnersOk(q: Queries) {
    && (forall i, j :: 0 <= i < j < |q.late| ==> q.late[i].ticket != q.late[j].ticket)
    && (forall t: nat {:trigger Called(q.late, t)} :: Called(q.late, t) ==> Called(q.log, t) && t < q.tickets)
    && (forall n {:trigger q.nodes[n]} :: Standing(q, n) ==> q.nodes[n].cb.value < q.tickets && !Called(q.late, q.nodes[n].cb.value))
    && (forall m, n {:trigger q.nodes[m], q.nodes[n]} :: Standing(q, m) && Standing(q, n) && m != n ==>
          q.nodes[m].cb.value != q.nodes[n].cb.value)
  }

  lemma MergeOwners(q: Queries, key: Key, cb: bool)
    requires OwnersOk(q) && key in q.byKey && q.byKey[key] in q.nodes && q.byKey[key] != NextNode(q)
    ensures OwnersOk(Merge(q, key, cb))
  {
    hide Called, NextNode;
  }

  lemma BeginOwners(q: Queries, key: Key, cb: bool)
    requires OwnersOk(q)
    ensures OwnersOk(Begin(q, key, cb))
  {
    hide Called, NextNode;
  }

  lemma RefuseOwners(q: Queries, key: Key, cb: bool)
    requires OwnersOk(q)
    ensures OwnersOk(Refuse(q, key, cb))
  {
    hide Called, NextNode;
  }

  lemma HitOwners(q: Queries, cb: bool, rcode: nat)
    requires OwnersOk(q)
    ensures OwnersOk(Hit(q, cb, rcode))
  {
    hide Called;
  }

  lemma HitCallbackOwners(q: Queries, t: Ticket)
    requires OwnersOk(q) && t in q.hits
    ensures OwnersOk(HitCallback(q, t))
  {
    CalledGrows(q.log, Call(t, FromCache(q.hits[t])));
    hide Called;
  }

  lemma SilencedOwners(q: Queries, n: NodeId)
    requires OwnersOk(q) && n in q.nodes
    ensures OwnersOk(q.(nodes := q.nodes[n := q.nodes[n].(cb := None)]))
  {
    hide Called;
  }

  lemma LateOwners(q: Queries, n: NodeId)
    requires OwnersOk(q) && Standing(q, n) && Called(q.log, q.nodes[n].cb.value)
    ensures OwnersOk(q.(nodes := q.nodes[n := q.nodes[n].(cb := None)],
                        late := q.late + [Call(q.nodes[n].cb.value, Cancelled)]))
  {
    Logged(q.late, Call(q.nodes[n].cb.value, Cancelled));
    forall i | 0 <= i < |q.late|
      ensures q.late[i].ticket != q.nodes[n].cb.value
    {
    }
    hide Called;
  }

  lemma CancelNotifyOwners(q: Queries, n: NodeId)
    requires OwnersOk(q) && SpentOk(q) && n in q.nodes && Parent(q.place, n) && q.nodes[n].cb.Some?
    ensures OwnersOk(CancelNotify(q, n))
  {
    if NotYetCalled(q, n) {
      CalledGrows(q.log, Call(q.nodes[n].cb.value, Cancelled));
      SilencedOwners(q, n);
    } else {
      LateOwners(q, n);
    }
    hide Called;
  }

  lemma CancelSilentlyOwners(q: Queries, n: NodeId)
    requires OwnersOk(q) && n in q.nodes
    ensures OwnersOk(CancelSilently(q, n))
  {
    SilencedOwners(q, n);
    hide Called;
  }

  lemma DetachOwners(q: Queries, n: NodeId, o: Outcome)
    requires OwnersOk(q) && n in q.nodes && n in q.place && q.place[n] == InTable
    ensures OwnersOk(Detach(q, n, o))
  {
    hide Called;
  }

  lemma ExpireOwners(q: Queries, n: NodeId, retries: nat, sent: bool)
    requires OwnersOk(q) && n in q.nodes && n in q.place && q.place[n] == InTable
    ensures OwnersOk(Expire(q, n, retries, sent))
  {
    DetachOwners(q, n, TimedOut);
    hide Called, Detach;
  }

  lemma CallBackOwners(q: Queries, n: NodeId)
    requires OwnersOk(q) && n in q.busy && n in q.nodes && q.busy[n].done <= |q.nodes[n].children| && NextOwner(q, n) in q.nodes
    ensures OwnersOk(CallBack(q, n))
  {
    var cb := q.nodes[NextOwner(q, n)].cb;
    if cb.Some? {
      CalledGrows(q.log, Call(cb.value, q.busy[n].outcome));
    }
    hide Called;
  }

  lemma RecycleOwners(q: Queries, n: NodeId)
    requires OwnersOk(q) && n in q.nodes
    ensures OwnersOk(Recycle(q, n))
  {
    hide Called;
  }

  lemma StartOwners(s: State, key: Key, cb: bool, now: Time, sent: bool, st: Settings)
    requires RunInv(s, st) && OwnersOk(s.q) && Linked(s) && Enabled(s, Start(key, cb, now, sent))
    ensures OwnersOk(Step(s, Start(key, cb, now, sent), st).q)
  {
    QueriesLinked(s.q, st.retries);
    NextIsSpare(s.q, st.retries);
    StartStep(s, key, cb, now, sent, st);
    hide Inv, CacheInv, ServingOk, SpentOk, OwnersOk, NextNode, Fresh, Acquire, Drop, Merge, Begin, Refuse, Hit, Step;
    if Fresh(s.c, key, now) {
      HitOwners(s.q, cb, Rcode(s.c.heap[s.c.table[key]].pkt.hdr.flags));
    } else if key in s.q.byKey {
      MergeOwners(s.q, key, cb);
    } else {
      BeginOwners(s.q, key, cb);
      RefuseOwners(s.q, key, cb);
    }
  }

  lemma StepKeepsOwners(s: State, e: ResolverMachine.Event, st: Settings)
    requires RunInv(s, st) && OwnersOk(s.q) && Linked(s) && Enabled(s, e)
    ensures OwnersOk(Step(s, e, st).q)
  {
    QueriesLinked(s.q, st.retries);
    KeysInPlace(s.q, st.retries);
    hide Inv, CacheInv, ServingOk, SpentOk, OwnersOk, IsDup, Fresh, Acquire, Drop, Release, Update, StartQuery;
    hide Hit, HitCallback, CancelNotify, CancelSilently, Expire, Detach, CallBack, Recycle;
    match e
    case Start(key, cb, now, sent) => StartOwners(s, key, cb, now, sent, st);
    case ServeHit(r) => HitCallbackOwners(s.q, s.serving[r]);
    case LeaveHit(r) =>
    case CancelQuery(n, notify) =>
      if notify {
        CancelNotifyOwners(s.q, n);
      } else {
        CancelSilentlyOwners(s.q, n);
      }
    case TimerExpires(n, sent) => ExpireOwners(s.q, n, st.retries, sent);
    case ResponseArrives(id, rcode) => DetachOwners(s.q, s.q.byId[id], Answered(rcode));
    case CallOwner(n) => CallBackOwners(s.q, n);
    case FinishTimeout(n) => RecycleOwners(s.q, n);
    case FinishAnswer(n, pkt, dup, now) => RecycleOwners(s.q, n);
    case AddEntry(key, pkt, dup, setExpiry, now) =>
  }

  lemma KeysInPlace(q: Queries, retries: nat)
    requires Inv(q, retries)
    ensures forall n {:trigger q.nodes[n]} :: n in q.nodes ==> n in q.place
  {
    hide TablesOk, FreeOk, HandlersOk, FamilyOk, TimersOk, Ledger, Held;
  }

  // ------------------------------------------------------------------ whole runs

  /** A notifying cancel of a query whose own callback was already made. */
  predicate IsLate(s: State, e: ResolverMachine.Event) {
    e.CancelQuery? && e.notify && !NotYetCalled(s.q, e.n)
  }

  /** No cancel in the run is late. */
  ghost predicate Timely(s: State, es: seq<ResolverMachine.Event>, st: Settings)
    requires IsRun(s, es, st)
    decreases |es|
  {
    es == [] || (!IsLate(s, es[0]) && Timely(Step(s, es[0], st), es[1..], st))
  }

  lemma {:induction false} RunsKeepOwners(s: State, es: seq<ResolverMachine.Event>, st: Settings)
    requires RunInv(s, st) && OwnersOk(s.q) && IsRun(s, es, st)
    ensures RunInv(End(s, es, st), st) && OwnersOk(End(s, es, st).q)
    decreases |es|
  {
    hide RunInv, OwnersOk, Linked, Enabled, Step;
    if es != [] {
      StepKeepsInv(s, es[0], st);
      StepKeepsOwners(s, es[0], st);
      RunsKeepOwners(Step(s, es[0], st), es[1..], st);
    }
  }

  lemma StartLate(q: Queries, key: Key, cb: bool, sent: bool)
    requires key in q.byKey ==> q.byKey[key] in q.nodes
    ensures StartQuery(q, key, cb, sent).late == q.late
  {
  }

  lemma HandlerLate(q: Queries, n: NodeId, retries: nat, sent: bool, o: Outcome)
    requires n in q.nodes
    ensures Expire(q, n, retries, sent).late == Detach(q, n, o).late == Recycle(q, n).late == q.late
  {
  }

  lemma CallLate(q: Queries, n: NodeId)
    requires n in q.busy && n in q.nodes && q.busy[n].done <= |q.nodes[n].children| && NextOwner(q, n) in q.nodes
    ensures CallBack(q, n).late == q.late
  {
  }

  /** A late call is recorded by a late cancel and by nothing else. */
  lemma LateStep(s: State, e: ResolverMachine.Event, st: Settings)
    requires Linked(s) && Enabled(s, e)
    ensures |Step(s, e, st).q.late| == |s.q.late| + if IsLate(s, e) then 1 else 0
  {
    hide Fresh, Acquire, Drop, Release, Update, IsDup, StartQuery, Expire, Detach, CallBack, Recycle;
    match e
    case Start(key, cb, now, sent) => StartLate(s.q, key, cb, sent);
    case TimerExpires(n, sent) => HandlerLate(s.q, n, st.retries, sent, TimedOut);
    case ResponseArrives(id, rcode) => HandlerLate(s.q, s.q.byId[id], st.retries, false, Answered(rcode));
    case CallOwner(n) => CallLate(s.q, n);
    case FinishTimeout(n) => HandlerLate(s.q, n, st.retries, false, TimedOut);
    case FinishAnswer(n, pkt, dup, now) => HandlerLate(s.q, n, st.retries, false, TimedOut);
    case _ =>
  }

  lemma {:induction false} LateOnlyIfLate(s: State, es: seq<ResolverMachine.Event>, st: Settings)
    requires IsRun(s, es, st)
    ensures |s.q.late| <= |End(s, es, st).q.late|
    ensures Timely(s, es, st) <==> |End(s, es, st).q.late| == |s.q.late|
    decreases |es|
  {
    hide Linked, Enabled, Step, IsLate;
    if es != [] {
      LateStep(s, es[0], st);
      LateOnlyIfLate(Step(s, es[0], st), es[1..], st);
    }
  }

  /** How often the owner of a ticket was called back, in time or late. */
  function AllCalls(q: Queries, t: Ticket): nat {
    Calls(q.log, t) + Calls(q.late, t)
  }

  lemma OwnersCalled(q: Queries, retries: nat, t: Ticket)
    requires Inv(q, retries) && OwnersOk(q)
    ensures AllCalls(q, t) <= 2 && (AllCalls(q, t) == 2 <==> Called(q.late, t))
    ensures Called(q.log, t) && !Called(q.late, t) ==> AllCalls(q, t) == 1
  {
    hide TablesOk, FreeOk, HandlersOk, FamilyOk, TimersOk, Held, Calls, Called;
    DistinctCalls(q.log, t);
    DistinctCalls(q.late, t);
  }

  lemma RunEnds(es: seq<ResolverMachine.Event>, st: Settings)
    requires IsRun(Initial(), es, st)
    ensures var q := End(Initial(), es, st).q;
            Inv(q, st.retries) && OwnersOk(q) && (Timely(Initial(), es, st) <==> q.late == [])
  {
    hide Inv, OwnersOk, IsRun, End, Timely, CacheInv, ServingOk, SpentOk;
    InitiallyOk(st);
    NobodyYet();
    RunsKeepOwners(Initial(), es, st);
    LateOnlyIfLate(Initial(), es, st);
  }

  lemma NobodyYet()
    ensures OwnersOk(Initial().q)
  {
  }

  /** Main result.  In every interleaving no owner is called back more than twice, and each is
      called back at most once if and only if no cancel of the run comes after the callback of
      the query it cancels. */
  lemma OnceIffTimely(es: seq<ResolverMachine.Event>, st: Settings)
    requires IsRun(Initial(), es, st)
    ensures forall t :: AllCalls(End(Initial(), es, st).q, t) <= 2
    ensures (forall t :: AllCalls(End(Initial(), es, st).q, t) <= 1) <==> Timely(Initial(), es, st)
  {
    hide RunInv, IsRun, Inv, OwnersOk, End, AllCalls, Timely;
    RunEnds(es, st);
    var q := End(Initial(), es, st).q;
    forall t: Ticket
      ensures AllCalls(q, t) <= 2 && (AllCalls(q, t) == 2 <==> Called(q.late, t))
    {
      OwnersCalled(q, st.retries, t);
    }
    if q.late != [] {
      assert Called(q.late, q.late[0].ticket);
    }
  }

  lemma CancelStep(s: State, n: NodeId, st: Settings)
    requires Linked(s) && Enabled(s, CancelQuery(n, true))
    ensures Step(s, CancelQuery(n, true), st).q == CancelNotify(s.q, n)
  {
    hide Linked, CancelNotify;
  }

  /** In whatever state, a notifying cancel calls the owner a second time exactly when it is late. */
  lemma LateCancelCallsTwice(s: State, st: Settings, n: NodeId)
    requires RunInv(s, st) && OwnersOk(s.q) && Enabled(s, CancelQuery(n, true))
    ensures AllCalls(CancelNotify(s.q, n), s.q.nodes[n].cb.value) == if NotYetCalled(s.q, n) then 1 else 2
  {
    hide RunInv, OwnersOk, Inv, Linked, Step;
    InvIsLinked(s, st);
    StepKeepsInv(s, CancelQuery(n, true), st);
    StepKeepsOwners(s, CancelQuery(n, true), st);
    CancelStep(s, n, st);
    CalledByCancel(s.q, n);
    QueriesOk(Step(s, CancelQuery(n, true), st), st);
    OwnersCalled(CancelNotify(s.q, n), st.retries, s.q.nodes[n].cb.value);
  }

  lemma QueriesOk(s: State, st: Settings)
    requires RunInv(s, st)
    ensures Inv(s.q, st.retries)
  {
    hide Inv;
  }

  lemma CalledByCancel(q: Queries, n: NodeId)
    requires n in q.nodes && q.nodes[n].cb.Some? && OwnersOk(q) && Parent(q.place, n)
    ensures var t, after := q.nodes[n].cb.value, CancelNotify(q, n);
            && (NotYetCalled(q, n) ==> Called(after.log, t) && !Called(after.late, t))
            && (!NotYetCalled(q, n) ==> Called(after.late, t))
  {
    var t := q.nodes[n].cb.value;
    assert Standing(q, n);
    Logged(q.log, Call(t, Cancelled));
    Logged(q.late, Call(t, Cancelled));
    hide Called;
  }

  lemma RunGoesOn(s: State, e: ResolverMachine.Event, rest: seq<ResolverMachine.Event>, st: Settings)
    requires Linked(s) && Enabled(s, e) && IsRun(Step(s, e, st), rest, st)
    ensures IsRun(s, [e] + rest, st) && End(s, [e] + rest, st) == End(Step(s, e, st), rest, st)
  {
    hide Linked, Enabled, Step;
    assert ([e] + rest)[1..] == rest;
  }

  lemma NoFreshStart(key: Key, now: Time)
    ensures !Fresh(Initial().c, key, now)
  {
  }

  function FirstNode(key: Key, timer: bool): Node {
    Node(1, key, 1, Some(0), [], timer)
  }

  /** A resolver's first query: sent, answered, and called back. */
  function SentFirst(key: Key): Queries {
    Queries(map[0 := FirstNode(key, true)], map[0 := InTable], 1, map[1 := 0], map[key := 0], [], map[], 2, map[], 1, {}, [], [])
  }

  function AnsweredFirst(key: Key): Queries {
    Queries(map[0 := FirstNode(key, false)], map[0 := InHandler], 1, map[], map[], [], map[0 := Progress(0, Answered(0))],
            2, map[], 1, {}, [], [])
  }

  function CalledFirst(key: Key): Queries {
    AnsweredFirst(key).(busy := map[0 := Progress(1, Answered(0))], log := [Call(0, Answered(0))])
  }

  lemma FirstSteps(key: Key)
    ensures Begin(ResolverQueries.Init(), key, true) == SentFirst(key)
    ensures Detach(SentFirst(key), 0, Answered(0)) == AnsweredFirst(key)
    ensures CallBack(AnsweredFirst(key), 0) == CalledFirst(key)
  {
    assert map[1 := 0 as NodeId] - {1} == map[] && map[key := 0 as NodeId] - {key} == map[];
  }

  /** The first three events of the run. */
  lemma FirstRun(key: Key, now: Time, st: Settings) returns (s1: State, s2: State, s3: State)
    ensures Linked(Initial()) && Enabled(Initial(), Start(key, true, now, true))
    ensures s1 == Step(Initial(), Start(key, true, now, true), st) && Linked(s1) && Enabled(s1, ResponseArrives(1, 0))
    ensures s2 == Step(s1, ResponseArrives(1, 0), st) && Linked(s2) && Enabled(s2, CallOwner(0))
    ensures s3 == Step(s2, CallOwner(0), st) && s3.q == CalledFirst(key)
    ensures RunInv(s3, st) && OwnersOk(s3.q)
  {
    hide RunInv, Linked, Fresh, Drop, Begin, Detach, CallBack, OwnersOk;
    NoFreshStart(key, now);
    FirstSteps(key);
    InitiallyOk(st);
    NobodyYet();
    StepKeepsInv(Initial(), Start(key, true, now, true), st);
    StepKeepsOwners(Initial(), Start(key, true, now, true), st);
    s1 := Step(Initial(), Start(key, true, now, true), st);
    assert s1.q == SentFirst(key);
    StepKeepsInv(s1, ResponseArrives(1, 0), st);
    StepKeepsOwners(s1, ResponseArrives(1, 0), st);
    s2 := Step(s1, ResponseArrives(1, 0), st);
    assert s2.q == AnsweredFirst(key);
    StepKeepsInv(s2, CallOwner(0), st);
    StepKeepsOwners(s2, CallOwner(0), st);
    s3 := Step(s2, CallOwner(0), st);
  }

  /** It does happen: a resolver's first query is sent, answered and called back, and a notifying
      cancel comes before its handler takes the mutex again. */
  lemma LateCancelHappens(key: Key, now: Time, st: Settings)
    ensures var es := [Start(key, true, now, true), ResponseArrives(1, 0), CallOwner(0), CancelQuery(0, true)];
            IsRun(Initial(), es, st) && AllCalls(End(Initial(), es, st).q, 0) == 2
  {
    hide Step, AllCalls, RunInv, OwnersOk, Linked;
    var start, answer, call, cancel := Start(key, true, now, true), ResponseArrives(1, 0), CallOwner(0), CancelQuery(0, true);
    var s1, s2, s3 := FirstRun(key, now, st);
    InvIsLinked(s3, st);
    LateCancelCallsTwice(s3, st, 0);
    CancelStep(s3, 0, st);
    RunGoesOn(s3, cancel, [], st);
    RunGoesOn(s2, call, [cancel], st);
    RunGoesOn(s1, answer, [call, cancel], st);
    RunGoesOn(Initial(), start, [answer, call, cancel], st);
    assert [start] + ([answer] + ([call] + ([cancel] + []))) == [start, answer, call, cancel];
    assert [cancel] + [] == [cancel] && [call] + [cancel] == [call, cancel] && [answer] + [call, cancel] == [answer, call, cancel];
  }
}
