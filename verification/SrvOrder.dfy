/** Ordering of SRV targets in srv_resolver.c: by priority, then by weighted election (RFC 2782,
    "The format of the SRV RR"). */
module SrvOrder {
  import opened Bytes
  import opened DnsFormat

  const MAX_ADDR := 8
  const MAX_HOSTNAME := 128

  datatype Candidate = Candidate(name: Name, port: U16, priority: U16, weight: U16)

  /** A target in the job's array, with its running sum of weights. */
  datatype Slot = Slot(target: Candidate, sum: nat)

  predicate Acceptable(rr: Rr) {
    rr.rtype == TYPE_SRV && rr.rdata.Service? && |rr.rdata.host| <= MAX_HOSTNAME
  }

  function TargetOf(rr: Rr): Candidate
    requires Acceptable(rr)
  {
    Candidate(rr.rdata.host, rr.rdata.port, rr.rdata.prio, rr.rdata.weight)
  }

  /** The acceptable answers in order, as long as fewer than MAX_ADDR are taken. */
  function Accepted(ans: seq<Rr>, taken: nat): seq<Candidate> {
    if ans == [] || taken >= MAX_ADDR then []
    else if Acceptable(ans[0]) then [TargetOf(ans[0])] + Accepted(ans[1..], taken + 1)
    else Accepted(ans[1..], taken)
  }

  /** An answer the job can use: a service record whose host fits the buffer. */
  predicate Usable(rr: Rr) {
    rr.rtype == 33 && rr.rdata.Service? && |rr.rdata.host| <= 128
  }

  ghost predicate InOrder(ans: seq<Rr>, places: seq<nat>) {
    && (forall j :: 0 <= j < |places| ==> places[j] < |ans|)
    && (forall j, k :: 0 <= j < k < |places| ==> places[j] < places[k])
  }

  /** Each target has the fields of the record at its place. */
  ghost predicate WithFields(ans: seq<Rr>, places: seq<nat>, taken: seq<Candidate>) {
    |places| == |taken| &&
    forall j {:trigger taken[j]} {:trigger places[j]} :: 0 <= j < |places| && places[j] < |ans| ==>
      var rr := ans[places[j]];
      Usable(rr) && taken[j] == Candidate(rr.rdata.host, rr.rdata.port, rr.rdata.prio, rr.rdata.weight)
  }

  /** No usable record is left out unless `limit` records before it were taken. */
  ghost predicate Complete(ans: seq<Rr>, places: seq<nat>, limit: nat) {
    |places| <= limit &&
    forall i {:trigger ans[i]} :: 0 <= i < |ans| && Usable(ans[i]) && i !in places ==>
      |places| == limit && forall j :: 0 <= j < |places| ==> places[j] < i
  }

  function Shifted(places: seq<nat>): (s: seq<nat>)
    ensures |s| == |places|
  {
    seq(|places|, j requires 0 <= j < |places| => places[j] + 1)
  }

  lemma ShiftedIn(places: seq<nat>, i: nat)
    requires i in places
    ensures i + 1 in Shifted(places)
  {
    var j :| 0 <= j < |places| && places[j] == i;
    assert Shifted(places)[j] == i + 1;
  }

  /** The same places, seen with one more record in front. */
  lemma OneInFront(ans: seq<Rr>, places: seq<nat>, taken: seq<Candidate>)
    requires ans != [] && InOrder(ans[1..], places) && WithFields(ans[1..], places, taken)
    ensures InOrder(ans, Shifted(places)) && WithFields(ans, Shifted(places), taken)
  {
  }

  lemma CompleteBehind(ans: seq<Rr>, places: seq<nat>, limit: nat, i: nat)
    requires 0 < i < |ans| && Usable(ans[i]) && Complete(ans[1..], places, limit) && i !in Shifted(places)
    ensures |places| == limit && forall j :: 0 <= j < |places| ==> Shifted(places)[j] < i
  {
    assert ans[i] == ans[1..][i - 1];
    if i - 1 in places {
      ShiftedIn(places, i - 1);
    }
  }

  lemma PassedOver(ans: seq<Rr>, places: seq<nat>, limit: nat)
    requires ans != [] && !Usable(ans[0]) && Complete(ans[1..], places, limit)
    ensures Complete(ans, Shifted(places), limit)
  {
    forall i | 0 <= i < |ans| && Usable(ans[i]) && i !in Shifted(places)
      ensures |places| == limit && forall j :: 0 <= j < |places| ==> Shifted(places)[j] < i
    {
      CompleteBehind(ans, places, limit, i);
    }
  }

  lemma TakenFirst(ans: seq<Rr>, places: seq<nat>, limit: nat)
    requires ans != [] && limit > 0 && Complete(ans[1..], places, limit - 1)
    ensures Complete(ans, [0] + Shifted(places), limit)
  {
    var all := [0] + Shifted(places);
    forall i | 0 <= i < |ans| && Usable(ans[i]) && i !in all
      ensures |all| == limit && forall j :: 0 <= j < |all| ==> all[j] < i
    {
      assert all[0] in all && forall k :: k in Shifted(places) ==> k in all;
      CompleteBehind(ans, places, limit - 1, i);
    }
  }

  lemma FirstWithFields(ans: seq<Rr>, places: seq<nat>, taken: seq<Candidate>)
    requires ans != [] && Usable(ans[0])
    requires InOrder(ans, Shifted(places)) && WithFields(ans, Shifted(places), taken)
    ensures var d := ans[0].rdata;
      InOrder(ans, [0] + Shifted(places)) && WithFields(ans, [0] + Shifted(places), [Candidate(d.host, d.port, d.prio, d.weight)] + taken)
  {
  }

  /** What is accepted are the first usable answers, in their order, with the fields of their records. */
  lemma {:induction false} AcceptedAre(ans: seq<Rr>, already: nat) returns (places: seq<nat>)
    requires already <= 8
    ensures InOrder(ans, places) && WithFields(ans, places, Accepted(ans, already)) && Complete(ans, places, 8 - already)
  {
    hide InOrder, WithFields, Complete;
    if ans == [] || already == 8 {
      places := [];
      NoneTaken(ans, 8 - already);
    } else if Usable(ans[0]) {
      places := AcceptedAre(ans[1..], already + 1);
      OneInFront(ans, places, Accepted(ans[1..], already + 1));
      FirstWithFields(ans, places, Accepted(ans[1..], already + 1));
      TakenFirst(ans, places, 8 - already);
      places := [0] + Shifted(places);
    } else {
      places := AcceptedAre(ans[1..], already);
      OneInFront(ans, places, Accepted(ans[1..], already));
      PassedOver(ans, places, 8 - already);
      places := Shifted(places);
    }
  }

  lemma NoneTaken(ans: seq<Rr>, limit: nat)
    requires ans == [] || limit == 0
    ensures InOrder(ans, []) && WithFields(ans, [], []) && Complete(ans, [], limit)
  {
  }

  function Swap<T>(s: seq<T>, i: nat, j: nat): (r: seq<T>)
    requires i < |s| && j < |s|
    ensures |r| == |s|
  {
    s[i := s[j]][j := s[i]]
  }

  lemma SwapPermutes<T>(s: seq<T>, i: nat, j: nat)
    requires i < |s| && j < |s|
    ensures multiset(Swap(s, i, j)) == multiset(s)
  {
  }

  // ------------------------------------------------------------------ first pass

  /** Index of the first target of least priority. */
  function Least(s: seq<Candidate>): (m: nat)
    requires s != []
    ensures m < |s|
    ensures forall j {:trigger s[j]} :: 0 <= j < |s| ==> s[m].priority <= s[j].priority
    ensures forall j {:trigger s[j]} :: 0 <= j < m ==> s[m].priority < s[j].priority
    decreases |s|
  {
    if |s| == 1 then 0
    else
      var m := Least(s[..|s| - 1]);
      if s[|s| - 1].priority < s[m].priority then |s| - 1 else m
  }

  /** Selection sort by priority. */
  function ByPriority(s: seq<Candidate>): (r: seq<Candidate>)
    ensures |r| == |s|
    decreases |s|
  {
    if s == [] then []
    else
      var t := Swap(s, 0, Least(s));
      [t[0]] + ByPriority(t[1..])
  }

  predicate Sorted(s: seq<Candidate>) {
    forall i, j {:trigger s[i], s[j]} :: 0 <= i < j < |s| ==> s[i].priority <= s[j].priority
  }

  predicate LeastFirst(t: seq<Candidate>) {
    forall j {:trigger t[j]} :: 0 <= j < |t| ==> t[0].priority <= t[j].priority
  }

  /** A least target in front of the rest, sorted. */
  lemma FrontSorted(t: seq<Candidate>, rest: seq<Candidate>)
    requires t != [] && multiset(rest) == multiset(t[1..]) && Sorted(rest) && LeastFirst(t)
    ensures multiset([t[0]] + rest) == multiset(t) && Sorted([t[0]] + rest)
  {
    assert t == [t[0]] + t[1..];
    forall i | 0 <= i < |rest|
      ensures t[0].priority <= rest[i].priority
    {
      assert rest[i] in multiset(t[1..]);
      var k :| 0 <= k < |t[1..]| && t[1..][k] == rest[i];
      assert t[k + 1] == rest[i];
    }
  }

  lemma LeastInFront(s: seq<Candidate>)
    requires s != []
    ensures LeastFirst(Swap(s, 0, Least(s)))
  {
  }

  lemma {:induction false} ByPrioritySorts(s: seq<Candidate>)
    ensures multiset(ByPriority(s)) == multiset(s) && Sorted(ByPriority(s))
    decreases |s|
  {
    hide Swap, Least;
    if s == [] {
    } else {
      hide Sorted, LeastFirst;
      var t := Swap(s, 0, Least(s));
      SwapPermutes(s, 0, Least(s));
      LeastInFront(s);
      ByPrioritySorts(t[1..]);
      FrontSorted(t, ByPriority(t[1..]));
    }
  }

  /** One round of the sort, with the part already sorted in front. */
  lemma SortingStep(done: seq<Candidate>, s: seq<Candidate>)
    requires s != []
    ensures var t := Swap(s, 0, Least(s)); done + ByPriority(s) == (done + [t[0]]) + ByPriority(t[1..])
  {
    hide Least;
  }

  // ------------------------------------------------------------------ second pass

  /** How many leading targets share the first one's priority. */
  function GroupLen(s: seq<Candidate>): (n: nat)
    ensures n <= |s| && (s != [] ==> n > 0)
    ensures forall i {:trigger s[i]} :: 0 <= i < n ==> s[i].priority == s[0].priority
    ensures n < |s| ==> s[n].priority != s[0].priority
  {
    if s == [] then 0 else 1 + RunLen(s[1..], s[0].priority)
  }

  function RunLen(s: seq<Candidate>, priority: U16): (n: nat)
    ensures n <= |s|
    ensures forall i {:trigger s[i]} :: 0 <= i < n ==> s[i].priority == priority
    ensures n < |s| ==> s[n].priority != priority
  {
    if s == [] || s[0].priority != priority then 0 else 1 + RunLen(s[1..], priority)
  }

  /** Sum of the first n weights. */
  function WeightSum(s: seq<Candidate>, n: nat): nat
    requires n <= |s|
  {
    if n == 0 then 0 else WeightSum(s, n - 1) + s[n - 1].weight
  }

  lemma WeightStep(s: seq<Candidate>, n: nat)
    requires n < |s|
    ensures WeightSum(s, 0) == 0 && WeightSum(s, n + 1) == WeightSum(s, n) + s[n].weight
  {
  }

  /** The first of n targets whose running sum reaches r, looking from j on. */
  function Winner(s: seq<Candidate>, n: nat, r: nat, j: nat): (w: nat)
    requires j <= n <= |s|
    ensures j <= w <= n
    ensures w < n ==> WeightSum(s, w + 1) >= r
    ensures forall k {:trigger WeightSum(s, k)} :: j < k <= w ==> WeightSum(s, k) < r
    decreases n - j
  {
    if j == n || WeightSum(s, j + 1) >= r then j else Winner(s, n, r, j + 1)
  }

  /** A draw never exceeds the group's total, so an election always has a winner. */
  lemma SomebodyWins(s: seq<Candidate>, n: nat, draw: nat)
    requires 0 < n <= |s|
    ensures Winner(s, n, draw % (WeightSum(s, n) + 1), 0) < n
  {
    var r := draw % (WeightSum(s, n) + 1);
    assert r <= WeightSum(s, n);
  }

  /** Whom the election at position i puts first: the only candidate, or the winner. */
  function Elect(s: seq<Candidate>, draw: nat): (w: nat)
    requires s != []
    ensures w < GroupLen(s)
  {
    var n := GroupLen(s);
    if n == 1 then 0
    else
      SomebodyWins(s, n, draw);
      Winner(s, n, draw % (WeightSum(s, n) + 1), 0)
  }

  /** The final order of sorted targets, given the random draw of each position. */
  function Elected(s: seq<Candidate>, draws: nat -> nat, i: nat): (r: seq<Candidate>)
    ensures |r| == |s|
    decreases |s|
  {
    if s == [] then []
    else
      var t := Swap(s, 0, Elect(s, draws(i)));
      [t[0]] + Elected(t[1..], draws, i + 1)
  }

  /** Whatever the draws, elections permute the targets and keep them sorted by priority. */
  lemma {:induction false} ElectedPermutes(s: seq<Candidate>, draws: nat -> nat, i: nat)
    requires Sorted(s)
    ensures multiset(Elected(s, draws, i)) == multiset(s) && Sorted(Elected(s, draws, i))
    decreases |s|
  {
    if s != [] {
      var w := Elect(s, draws(i));
      var t := Swap(s, 0, w);
      SwapPermutes(s, 0, w);
      SwapKeepsSorted(s, w);
      ElectedPermutes(t[1..], draws, i + 1);
      FrontSorted(t, Elected(t[1..], draws, i + 1));
    }
    hide Elect, Sorted;
  }

  /** One election, with the part already decided in front. */
  lemma ElectionStep(done: seq<Candidate>, s: seq<Candidate>, draws: nat -> nat, i: nat)
    requires s != []
    ensures var t := Swap(s, 0, Elect(s, draws(i)));
            done + Elected(s, draws, i) == (done + [t[0]]) + Elected(t[1..], draws, i + 1)
  {
    hide Elect;
  }

  lemma SwapKeepsSorted(s: seq<Candidate>, w: nat)
    requires Sorted(s) && w < GroupLen(s)
    ensures Sorted(Swap(s, 0, w)) && Sorted(Swap(s, 0, w)[1..])
    ensures LeastFirst(Swap(s, 0, w))
  {
    var t := Swap(s, 0, w);
    assert s[w].priority == s[0].priority;
    assert forall j {:trigger t[j]} :: 0 <= j < |s| ==> t[j].priority == s[j].priority;
  }

  // ------------------------------------------------------------------ the code

  function Targets(s: seq<Slot>): (t: seq<Candidate>)
    ensures |t| == |s| && forall i {:trigger t[i]} :: 0 <= i < |t| ==> t[i] == s[i].target
  {
    seq(|s|, i requires 0 <= i < |s| => s[i].target)
  }

  class Job {
    var srv: array<Slot>
    var cnt: nat

    constructor ()
      ensures fresh(srv) && srv.Length == MAX_ADDR && cnt == 0
    {
      srv := new Slot[MAX_ADDR](_ => Slot(Candidate([], 0, 0, 0), 0));
      cnt := 0;
    }

    /** The SWAP macro. */
    method SwapSlots(i: nat, j: nat)
      requires i < srv.Length && j < srv.Length
      modifies srv
      ensures srv[..] == Swap(old(srv[..]), i, j)
    {
      if i != j {
        var tmp := srv[i];
        srv[i] := srv[j];
        srv[j] := tmp;
      }
    }

    /** The next answer, with those already taken in front. */
    lemma NextAnswer(done: seq<Candidate>, ans: seq<Rr>, i: nat, taken: nat)
      requires i < |ans| && taken < MAX_ADDR
      ensures done + Accepted(ans[i..], taken) ==
              if Acceptable(ans[i]) then done + [TargetOf(ans[i])] + Accepted(ans[i + 1..], taken + 1)
              else done + Accepted(ans[i + 1..], taken)
    {
      assert ans[i..][1..] == ans[i + 1..];
      if Acceptable(ans[i]) {
        var more := Accepted(ans[i + 1..], taken + 1);
        assert done + ([TargetOf(ans[i])] + more) == done + [TargetOf(ans[i])] + more;
      }
    }

    /** Saving the answers. */
    method Save(ans: seq<Rr>)
      requires srv.Length == MAX_ADDR
      modifies this`cnt, srv
      ensures cnt <= MAX_ADDR && Targets(srv[..cnt]) == Accepted(ans, 0)
    {
      hide Accepted;
      cnt := 0;
      var i := 0;
      assert ans[0..] == ans && [] + Accepted(ans, 0) == Accepted(ans, 0);
      while i < |ans| && cnt < MAX_ADDR
        invariant i <= |ans| && cnt <= MAX_ADDR
        invariant Accepted(ans, 0) == Targets(srv[..cnt]) + Accepted(ans[i..], cnt)
      {
        var rr := ans[i];
        NextAnswer(Targets(srv[..cnt]), ans, i, cnt);
        if rr.rtype == TYPE_SRV && rr.rdata.Service? && |rr.rdata.host| <= MAX_HOSTNAME {
          ghost var before := Targets(srv[..cnt]);
          srv[cnt] := Slot(TargetOf(rr), 0);
          cnt := cnt + 1;
          assert Targets(srv[..cnt]) == before + [TargetOf(rr)];
        }
        i := i + 1;
      }
      AllTaken(ans[i..], cnt);
      assert Targets(srv[..cnt]) + [] == Targets(srv[..cnt]);
    }

    lemma AllTaken(ans: seq<Rr>, taken: nat)
      requires ans == [] || taken >= MAX_ADDR
      ensures Accepted(ans, taken) == []
    {
    }

    ghost function Order(): (t: seq<Candidate>)
      requires cnt <= srv.Length
      reads this, srv
      ensures |t| == cnt && forall i {:trigger t[i]} :: 0 <= i < cnt ==> t[i] == srv[i].target
    {
      Targets(srv[..cnt])
    }

    /** A swap seen from the part of the list that starts at i. */
    lemma SwapTail(s: seq<Candidate>, i: nat, m: nat)
      requires i <= m < |s|
      ensures Swap(s, i, m)[..i] == s[..i]
      ensures Swap(s, i, m)[i..] == Swap(s[i..], 0, m - i)
    {
    }

    method SwapEntries(i: nat, m: nat)
      requires i <= m < cnt <= srv.Length
      modifies srv
      ensures Order()[..i] == old(Order()[..i])
      ensures Order()[i..] == Swap(old(Order()[i..]), 0, m - i)
    {
      SwapTail(Order(), i, m);
      SwapSlots(i, m);
      assert Order() == Swap(old(Order()), i, m);
    }

    /** The least of a prefix, when the prefix grows. */
    lemma LeastStep(s: seq<Candidate>, k: nat)
      requires 0 < k < |s|
      ensures var m := Least(s[..k]);
              Least(s[..k + 1]) == if s[k].priority < s[m].priority then k else m
    {
      assert s[..k + 1][..k] == s[..k];
    }

    /** The inner loop of the sort. */
    method FindLeast(i: nat) returns (min: nat)
      requires i < cnt <= srv.Length
      ensures min == i + Least(Order()[i..])
    {
      hide Least, Targets;
      min := i;
      ghost var s := Order()[i..];
      for j := i + 1 to cnt
        invariant i <= min < j && min == i + Least(s[..j - i])
      {
        LeastStep(s, j - i);
        assert s[j - i] == srv[j].target && s[min - i] == srv[min].target;
        if srv[j].target.priority < srv[min].target.priority {
          min := j;
        }
      }
      assert s[..cnt - i] == s;
    }

    /** Moving one element from the front of the unfinished part to the end of the finished one. */
    lemma Moved(before: seq<Candidate>, after: seq<Candidate>, i: nat, t: seq<Candidate>)
      requires i < |before| == |after| && after[..i] == before[..i] && after[i..] == t && t != []
      ensures after[..i + 1] == before[..i] + [t[0]] && after[i + 1..] == t[1..]
    {
    }

    method SortByPriority()
      requires cnt <= srv.Length
      modifies srv
      ensures Order() == ByPriority(old(Order()))
    {
      hide Least, Swap, ByPriority;
      ghost var all := Order();
      assert all[0..] == all && all[..0] == [];
      assert [] + ByPriority(all) == ByPriority(all);
      var i := 0;
      while i + 1 < cnt
        invariant i <= cnt
        invariant ByPriority(all) == Order()[..i] + ByPriority(Order()[i..])
      {
        ghost var before := Order();
        var min := FindLeast(i);
        SwapEntries(i, min);
        Moved(before, Order(), i, Swap(before[i..], 0, min - i));
        SortingStep(before[..i], before[i..]);
        i := i + 1;
      }
      OneIsSorted(Order()[i..]);
      assert Order()[..i] + Order()[i..] == Order();
    }

    lemma OneIsSorted(s: seq<Candidate>)
      requires |s| <= 1
      ensures ByPriority(s) == s
    {
      if |s| == 1 {
        assert ByPriority(s) == [s[0]] + ByPriority([]);
      }
    }

    /** The n entries from i on hold the running sums of the weights in s. */
    ghost predicate Summed(s: seq<Candidate>, i: nat, n: nat)
      requires n <= |s| && i + n <= srv.Length
      reads this, srv
    {
      forall k {:trigger srv[k]} :: i <= k < i + n ==> srv[k].sum == WeightSum(s, k - i + 1)
    }

    /** Storing the next running sum. */
    method StoreSum(ghost s: seq<Candidate>, i: nat, n: nat, sum: nat)
      requires i + n < cnt <= srv.Length && s == Order()[i..] && Summed(s, i, n)
      requires sum == WeightSum(s, n + 1)
      modifies srv
      ensures Order() == old(Order()) && Summed(s, i, n + 1)
    {
      hide WeightSum;
      srv[i + n] := srv[i + n].(sum := sum);
      assert Order() == old(Order());
    }

    /** The running sums of the group at i, their total and the size of the group. */
    method RunningSums(i: nat) returns (count: nat, sum: nat)
      requires i < cnt <= srv.Length
      modifies srv
      ensures Order() == old(Order())
      ensures count == GroupLen(Order()[i..]) && sum == WeightSum(Order()[i..], count)
      ensures Summed(Order()[i..], i, count)
    {
      hide GroupLen, RunLen, WeightSum;
      ghost var all := Order();
      ghost var s := all[i..];
      assert Summed(s, i, 0);
      hide Summed;
      count := 1;
      sum := srv[i].target.weight;
      WeightStep(s, 0);
      assert s[0] == srv[i].target;
      StoreSum(s, i, 0, sum);
      var j := i + 1;
      while j < cnt && srv[j].target.priority == srv[i].target.priority
        invariant j == i + count && 0 < count <= |s| && j <= cnt
        invariant Order() == all
        invariant sum == WeightSum(s, count)
        invariant forall k {:trigger s[k]} :: 0 <= k < count ==> s[k].priority == s[0].priority
        invariant Summed(s, i, count)
      {
        assert srv[j].target == s[count] && srv[i].target == s[0];
        WeightStep(s, count);
        sum := sum + srv[j].target.weight;
        StoreSum(s, i, count, sum);
        count := count + 1;
        j := j + 1;
      }
      assert j < cnt ==> s[count] == srv[j].target;
      assert s[0] == srv[i].target;
      GroupIs(s, count);
    }

    lemma GroupIs(s: seq<Candidate>, n: nat)
      requires 0 < n <= |s|
      requires forall k {:trigger s[k]} :: 0 <= k < n ==> s[k].priority == s[0].priority
      requires n < |s| ==> s[n].priority != s[0].priority
      ensures GroupLen(s) == n
    {
      hide RunLen;
      if GroupLen(s) < n {
        assert false;
      }
    }

    /** The comparison loop: the first running sum that reaches r. */
    method FindWinner(i: nat, count: nat, r: nat) returns (j: nat)
      requires i + count <= cnt <= srv.Length && Summed(Order()[i..], i, count)
      ensures j == i + Winner(Order()[i..], count, r, 0)
    {
      ghost var s := Order()[i..];
      j := i;
      while j < i + count && srv[j].sum < r
        invariant i <= j <= i + count
        invariant Winner(s, count, r, 0) == Winner(s, count, r, j - i)
      {
        j := j + 1;
      }
    }

    /** One election: the winner of the group at i moves to its front. */
    method ElectOne(i: nat, draw: nat)
      requires i < cnt <= srv.Length
      modifies srv
      ensures Order()[..i] == old(Order()[..i])
      ensures Order()[i..] == Swap(old(Order()[i..]), 0, Elect(old(Order()[i..]), draw))
    {
      hide GroupLen, RunLen, Winner, Summed, WeightSum, Swap;
      ghost var s := Order()[i..];
      var count, sum := RunningSums(i);
      if count > 1 {
        var r := draw % (sum + 1);
        SomebodyWins(s, count, draw);
        var j := FindWinner(i, count, r);
        SwapEntries(i, j);
      } else {
        SwapItself(s);
      }
    }

    lemma SwapItself(s: seq<Candidate>)
      requires s != []
      ensures Swap(s, 0, 0) == s
    {
    }

    /** The election loop.  `draws` are the values of pj_rand. */
    method ElectAll(draws: nat -> nat)
      requires cnt <= srv.Length
      modifies srv
      ensures Order() == Elected(old(Order()), draws, 0)
    {
      hide Elect, Elected, Swap;
      ghost var all := Order();
      assert all[0..] == all && all[..0] == [];
      assert [] + Elected(all, draws, 0) == Elected(all, draws, 0);
      for i := 0 to cnt
        invariant Elected(all, draws, 0) == Order()[..i] + Elected(Order()[i..], draws, i)
      {
        ghost var before := Order();
        ElectOne(i, draws(i));
        Moved(before, Order(), i, Swap(before[i..], 0, Elect(before[i..], draws(i))));
        ElectionStep(before[..i], before[i..], draws, i);
      }
      NoneLeft(draws, cnt);
      assert Order()[..cnt] == Order() && Order()[cnt..] == [] && Order() + [] == Order();
    }

    lemma NoneLeft(draws: nat -> nat, i: nat)
      ensures Elected([], draws, i) == []
    {
    }

    /** build_server_entries, up to the additional records. */
    method BuildServerEntries(ans: seq<Rr>, draws: nat -> nat)
      requires srv.Length == MAX_ADDR
      modifies this`cnt, srv
      ensures cnt <= srv.Length
      ensures Order() == Elected(ByPriority(Accepted(ans, 0)), draws, 0)
      ensures multiset(Order()) == multiset(Accepted(ans, 0)) && Sorted(Order())
    {
      hide Elected, ByPriority, Accepted, Sorted;
      Save(ans);
      ByPrioritySorts(Order());
      SortByPriority();
      ElectedPermutes(Order(), draws, 0);
      ElectAll(draws);
    }
  }
}
