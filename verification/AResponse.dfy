/** pj_dns_parse_a_response: following CNAME records to the address records of a host. */
module AResponse {
  import opened Bytes
  import opened DnsFormat
  import opened DnsDup

  const MAX_SEARCH := 20
  const MAX_IP := 8
  const BUF_SIZE := 128

  datatype Failure = Rcode(code: nat) | InAnswer | NoAnswerRecord | NameTooLong

  datatype ARecord = ARecord(name: Name, alias: Name, addr: seq<seq<Byte>>)

  datatype Answer = Found(rec: ARecord) | Failed(why: Failure)

  /** The first record owned by the name, or the number of records. */
  function FirstOwned(ans: seq<Rr>, name: Name): (i: nat)
    ensures i <= |ans| && (i < |ans| ==> SameText(ans[i].name, name))
    ensures forall j {:trigger ans[j]} :: 0 <= j < i ==> !SameText(ans[j].name, name)
  {
    if ans == [] || SameText(ans[0].name, name) then 0 else 1 + FirstOwned(ans[1..], name)
  }

  /** One CNAME step: where the first record owned by the name points, if it is a CNAME. */
  function Hop(ans: seq<Rr>, name: Name): Option<Name> {
    var i := FirstOwned(ans, name);
    if i < |ans| && ans[i].rtype == TYPE_CNAME && ans[i].rdata.Target? then Some(ans[i].rdata.target) else None
  }

  /** The name after n CNAME steps, while there are any. */
  function Hops(ans: seq<Rr>, name: Name, n: nat): Option<Name> {
    if n == 0 then Some(name)
    else
      match Hops(ans, name, n - 1)
      case None => None
      case Some(x) => Hop(ans, x)
  }

  /** The chain of CNAME records from the name ends after n steps at the owner of an address. */
  ghost predicate EndsAt(ans: seq<Rr>, name: Name, n: nat, owner: Name) {
    && Hops(ans, name, n) == Some(owner)
    && FirstOwned(ans, owner) < |ans| && ans[FirstOwned(ans, owner)].rtype == TYPE_A
  }

  /** Addresses of the address records owned by the name, in order. */
  function Addresses(ans: seq<Rr>, owner: Name): seq<seq<Byte>> {
    if ans == [] then []
    else
      (if ans[0].rtype == TYPE_A && ans[0].rdata.Addr? && SameText(ans[0].name, owner) then [ans[0].rdata.ip] else [])
      + Addresses(ans[1..], owner)
  }

  function Take(s: seq<seq<Byte>>, n: nat): seq<seq<Byte>> {
    if |s| <= n then s else s[..n]
  }

  /** The first target on the chain, in at most n steps, that is not empty. */
  function FirstTarget(ans: seq<Rr>, name: Name, n: nat): Name
    decreases n
  {
    if n == 0 then []
    else
      match Hop(ans, name)
      case None => []
      case Some(x) => if x != [] then x else FirstTarget(ans, x, n - 1)
  }

  /** Resource data agrees with the type where it is read. */
  predicate Typed(ans: seq<Rr>) {
    forall i {:trigger ans[i]} :: 0 <= i < |ans| ==>
      && (ans[i].rtype == TYPE_CNAME ==> ans[i].rdata.Target?)
      && (ans[i].rtype == TYPE_A ==> ans[i].rdata.Addr?)
  }

  lemma {:induction false} HopsPrefix(ans: seq<Rr>, name: Name, k: nat, n: nat)
    requires k <= n && Hops(ans, name, n).Some?
    ensures Hops(ans, name, k).Some?
  {
    if k < n {
      HopsPrefix(ans, name, k, n - 1);
    }
  }

  lemma {:induction false} HopsRepeat(ans: seq<Rr>, a: Name, b: Name, n: nat)
    requires SameText(a, b)
    ensures Hops(ans, a, n).Some? <==> Hops(ans, b, n).Some?
    ensures Hops(ans, a, n).Some? ==> SameText(Hops(ans, a, n).value, Hops(ans, b, n).value)
  {
    if n > 0 {
      HopsRepeat(ans, a, b, n - 1);
      if Hops(ans, a, n - 1).Some? {
        OwnedAlike(ans, Hops(ans, a, n - 1).value, Hops(ans, b, n - 1).value);
      }
    }
  }

  lemma {:induction false} OwnedAlike(ans: seq<Rr>, a: Name, b: Name)
    requires SameText(a, b)
    ensures FirstOwned(ans, a) == FirstOwned(ans, b)
  {
    if ans != [] {
      OwnedAlike(ans[1..], a, b);
    }
  }

  lemma {:induction false} HopsCompose(ans: seq<Rr>, name: Name, i: nat, n: nat)
    requires Hops(ans, name, i).Some?
    ensures Hops(ans, name, i + n) == Hops(ans, Hops(ans, name, i).value, n)
  {
    hide Hop, SameText;
    if n > 0 {
      HopsCompose(ans, name, i, n - 1);
    }
  }

  /** A chain that comes back to a name, letter case aside, goes on for ever. */
  lemma {:induction false} CycleNeverEnds(ans: seq<Rr>, name: Name, i: nat, j: nat, n: nat)
    requires i < j && Hops(ans, name, i).Some? && Hops(ans, name, j).Some?
    requires SameText(Hops(ans, name, i).value, Hops(ans, name, j).value)
    ensures Hops(ans, name, n).Some?
    decreases n
  {
    hide Hops, SameText;
    if n <= j {
      HopsPrefix(ans, name, n, j);
    } else {
      CycleNeverEnds(ans, name, i, j, n - (j - i));
      HopsCompose(ans, name, i, n - j);
      HopsCompose(ans, name, j, n - j);
      HopsRepeat(ans, Hops(ans, name, i).value, Hops(ans, name, j).value, n - j);
    }
  }

  /** Every CNAME cycle is rejected: no chain through it ends at an address. */
  lemma CyclesAreRejected(ans: seq<Rr>, name: Name, i: nat, j: nat)
    requires i < j && Hops(ans, name, i).Some? && Hops(ans, name, j).Some?
    requires SameText(Hops(ans, name, i).value, Hops(ans, name, j).value)
    ensures forall n: nat, owner :: !EndsAt(ans, name, n, owner)
  {
    forall n: nat, owner
      ensures !EndsAt(ans, name, n, owner)
    {
      CycleNeverEnds(ans, name, i, j, n + 1);
      assert Hops(ans, name, n + 1).Some?;
    }
  }

  lemma EndIsUnique(ans: seq<Rr>, name: Name, a: nat, x: Name, b: nat, y: Name)
    requires EndsAt(ans, name, a, x) && EndsAt(ans, name, b, y)
    ensures a == b && x == y
  {
    if a < b {
      HopsPrefix(ans, name, a + 1, b);
    } else if b < a {
      HopsPrefix(ans, name, b + 1, a);
    }
  }

  method FindOwned(ans: seq<Rr>, name: Name) returns (i: nat)
    ensures i == FirstOwned(ans, name)
  {
    i := 0;
    while i < |ans| && !SameText(ans[i].name, name)
      invariant i <= |ans| && FirstOwned(ans, name) == i + FirstOwned(ans[i..], name)
    {
      assert ans[i..][1..] == ans[i + 1..];
      i := i + 1;
    }
  }

  /** The next record, with the addresses found before it. */
  lemma NextRecord(ans: seq<Rr>, owner: Name, i: nat, all: seq<seq<Byte>>)
    requires Typed(ans) && i < |ans|
    ensures all + Addresses(ans[i..], owner) ==
            (if ans[i].rtype == TYPE_A && SameText(ans[i].name, owner) then all + [ans[i].rdata.ip] else all)
            + Addresses(ans[i + 1..], owner)
  {
    hide SameText;
    var more := Addresses(ans[i + 1..], owner);
    assert ans[i..][1..] == ans[i + 1..];
    if ans[i].rtype == TYPE_A && SameText(ans[i].name, owner) {
      assert all + ([ans[i].rdata.ip] + more) == all + [ans[i].rdata.ip] + more;
    } else {
      assert [] + more == more;
    }
  }

  lemma NoRecords(owner: Name)
    ensures Addresses([], owner) == []
  {
  }

  /** The loop that collects addresses, at most eight of them. */
  method CollectAddresses(ans: seq<Rr>, owner: Name) returns (addr: seq<seq<Byte>>)
    requires Typed(ans)
    ensures addr == Take(Addresses(ans, owner), MAX_IP)
  {
    hide Addresses, SameText;
    addr := [];
    ghost var all: seq<seq<Byte>> := [];
    assert ans[0..] == ans && all + Addresses(ans, owner) == Addresses(ans, owner);
    for i := 0 to |ans|
      invariant addr == Take(all, MAX_IP)
      invariant Addresses(ans, owner) == all + Addresses(ans[i..], owner)
    {
      NextRecord(ans, owner, i, all);
      if ans[i].rtype == TYPE_A && SameText(ans[i].name, owner) {
        all := all + [ans[i].rdata.ip];
        if |addr| < MAX_IP {
          addr := addr + [ans[i].rdata.ip];
        }
      }
    }
    NoRecords(owner);
    assert ans[|ans|..] == [] && all + [] == all;
  }

  lemma {:induction false} OwnedHasAddress(ans: seq<Rr>, owner: Name)
    requires Typed(ans) && FirstOwned(ans, owner) < |ans| && ans[FirstOwned(ans, owner)].rtype == TYPE_A
    ensures Addresses(ans, owner) != []
  {
    if !SameText(ans[0].name, owner) {
      assert ans[1..][FirstOwned(ans[1..], owner)] == ans[FirstOwned(ans, owner)];
      OwnedHasAddress(ans[1..], owner);
    }
  }

  /** Follows CNAME records from `start`, whose first record has index `first`. */
  method Follow(ans: seq<Rr>, start: Name, first: nat)
    returns (steps: nat, owner: Name, alias: Name, index: Option<nat>)
    requires Typed(ans) && first == FirstOwned(ans, start) < |ans|
    ensures index == None ==> steps <= MAX_SEARCH && Hops(ans, start, steps) == Some(owner) && FirstOwned(ans, owner) == |ans|
    ensures index.Some? ==>
      && Hops(ans, start, if steps > MAX_SEARCH then MAX_SEARCH else steps) == Some(owner)
      && index.value == FirstOwned(ans, owner) < |ans|
      && (steps <= MAX_SEARCH ==> ans[index.value].rtype != TYPE_CNAME)
      && alias == FirstTarget(ans, start, if steps > MAX_SEARCH then MAX_SEARCH else steps)
  {
    owner, alias, steps := start, [], 0;
    var ansidx := first;
    while ansidx < |ans| && ans[ansidx].rtype == TYPE_CNAME && steps < MAX_SEARCH
      invariant steps <= MAX_SEARCH && ansidx == FirstOwned(ans, owner) < |ans|
      invariant Hops(ans, start, steps) == Some(owner)
      invariant alias == FirstTarget(ans, start, steps)
      decreases MAX_SEARCH - steps
    {
      TargetSoFar(ans, start, steps);
      owner := ans[ansidx].rdata.target;
      steps := steps + 1;
      if alias == [] {
        alias := owner;
      }
      var i := FindOwned(ans, owner);
      if i == |ans| {
        return steps, owner, alias, None;
      }
      ansidx := i;
    }
    if ans[ansidx].rtype == TYPE_CNAME {
      steps := steps + 1;
    }
    index := Some(ansidx);
  }

  /** One step more on the chain extends the alias only while it is empty. */
  lemma {:induction false} TargetSoFar(ans: seq<Rr>, start: Name, n: nat)
    requires Hops(ans, start, n).Some? && Hop(ans, Hops(ans, start, n).value).Some?
    ensures FirstTarget(ans, start, n + 1) ==
            if FirstTarget(ans, start, n) == [] then Hop(ans, Hops(ans, start, n).value).value else FirstTarget(ans, start, n)
    decreases n
  {
    hide Hop, FirstOwned;
    if n > 0 {
      HopsPrefix(ans, start, 1, n);
      FirstHop(ans, start);
      var x := Hop(ans, start).value;
      HopsCompose(ans, start, 1, n - 1);
      TargetSoFar(ans, x, n - 1);
    }
    hide Hops;
  }

  lemma FirstHop(ans: seq<Rr>, name: Name)
    ensures Hops(ans, name, 1) == Hop(ans, name)
  {
    hide Hop;
    assert Hops(ans, name, 0) == Some(name);
  }

  ghost predicate Succeeds(pkt: Packet, n: nat, owner: Name)
    requires |pkt.q| == pkt.hdr.qdcount && |pkt.ans| == pkt.hdr.anscount
  {
    && pkt.hdr.flags % 16 == 0 && pkt.q != []
    && n < MAX_SEARCH && EndsAt(pkt.ans, pkt.q[0].name, n, owner)
    && |pkt.q[0].name| + |FirstTarget(pkt.ans, pkt.q[0].name, n)| <= BUF_SIZE
  }

  /** Succeeds exactly when the response reports no error, the chain of CNAME records that
      starts at the queried name reaches an address record in fewer than 20 steps, and the names
      fit; and then gives the first eight addresses of the name at the chain's end. */
  method ParseAResponse(pkt: Packet) returns (r: Answer)
    requires |pkt.q| == pkt.hdr.qdcount && |pkt.ans| == pkt.hdr.anscount && Typed(pkt.ans)
    ensures r.Found? <==> exists n: nat, owner :: Succeeds(pkt, n, owner)
    ensures forall n: nat, owner :: Succeeds(pkt, n, owner) ==>
              r == Found(ARecord(pkt.q[0].name, FirstTarget(pkt.ans, pkt.q[0].name, n), Take(Addresses(pkt.ans, owner), MAX_IP)))
  {
    hide FirstOwned, Addresses, FirstTarget, Typed, SameText, Hops;
    if pkt.hdr.flags % 16 != 0 {
      return Failed(Rcode(pkt.hdr.flags % 16));
    }
    if pkt.hdr.qdcount == 0 {
      return Failed(InAnswer);
    }
    if pkt.hdr.anscount == 0 {
      return Failed(NoAnswerRecord);
    }
    var hostname := pkt.q[0].name;
    var bufleft := BUF_SIZE;
    if |hostname| > bufleft {
      return Failed(NameTooLong);
    }
    bufleft := bufleft - |hostname|;
    var ansidx := FindOwned(pkt.ans, hostname);
    if ansidx == pkt.hdr.anscount {
      NoHops(pkt.ans, hostname);
      NotOwned(pkt.ans, hostname, 0, hostname);
      return Failed(NoAnswerRecord);
    }
    var steps, owner, alias, index := Follow(pkt.ans, hostname, ansidx);
    if index == None {
      NotOwned(pkt.ans, hostname, steps, owner);
      return Failed(NoAnswerRecord);
    }
    if steps >= MAX_SEARCH {
      LongChain(pkt.ans, hostname, MAX_SEARCH);
      return Failed(InAnswer);
    }
    if pkt.ans[index.value].rtype != TYPE_A {
      NotOwned(pkt.ans, hostname, steps, owner);
      return Failed(InAnswer);
    }
    assert EndsAt(pkt.ans, hostname, steps, owner);
    OnlyEnd(pkt.ans, hostname, steps, owner);
    if |alias| > bufleft {
      return Failed(NameTooLong);
    }
    assert Succeeds(pkt, steps, owner);
    var addr := CollectAddresses(pkt.ans, owner);
    OwnedHasAddress(pkt.ans, owner);
    if |addr| == 0 {
      assert false;
    }
    r := Found(ARecord(hostname, alias, addr));
  }

  /** A chain that reaches a name with no address or CNAME record first ends nowhere. */
  lemma NotOwned(ans: seq<Rr>, name: Name, n: nat, owner: Name)
    requires Hops(ans, name, n) == Some(owner)
    requires FirstOwned(ans, owner) == |ans| ||
             (ans[FirstOwned(ans, owner)].rtype != TYPE_CNAME && ans[FirstOwned(ans, owner)].rtype != TYPE_A)
    ensures forall k: nat, x :: !EndsAt(ans, name, k, x)
  {
    forall k: nat, x
      ensures !EndsAt(ans, name, k, x)
    {
      if k < n && Hops(ans, name, k) == Some(x) {
        HopsPrefix(ans, name, k + 1, n);
      } else if n < k && Hops(ans, name, k) == Some(x) {
        HopsPrefix(ans, name, n + 1, k);
      }
    }
  }

  lemma NoHops(ans: seq<Rr>, name: Name)
    ensures Hops(ans, name, 0) == Some(name)
  {
  }

  lemma LongChain(ans: seq<Rr>, name: Name, n: nat)
    requires Hops(ans, name, n).Some?
    ensures forall k: nat, x :: k < n ==> !EndsAt(ans, name, k, x)
  {
    forall k: nat, x | k < n
      ensures !EndsAt(ans, name, k, x)
    {
      HopsPrefix(ans, name, k + 1, n);
    }
  }

  lemma OnlyEnd(ans: seq<Rr>, name: Name, n: nat, owner: Name)
    requires EndsAt(ans, name, n, owner)
    ensures forall k: nat, x :: EndsAt(ans, name, k, x) ==> k == n && x == owner
  {
    forall k: nat, x | EndsAt(ans, name, k, x)
      ensures k == n && x == owner
    {
      EndIsUnique(ans, name, k, x, n, owner);
    }
  }
}
