/** How the printer accounts for buffer space. */
module DnsRoom {
  import opened Bytes
  import opened DnsFormat
  import opened DnsGrammar
  import opened DnsEncoding

  /** Room a spelt-out name is certain to fit in. */
  function NameNeed(name: Name): nat {
    |name| + 2
  }

  function RrNeed(rr: Rr): nat
    requires WellTyped(rr)
  {
    NameNeed(rr.name) + 8 +
    if rr.rtype == TYPE_A then 6
    else if NamesHost(rr.rtype) then NameNeed(rr.rdata.target) + 2
    else if rr.rtype == TYPE_SRV then NameNeed(rr.rdata.host) + 8
    else 0
  }

  function QueriesNeed(qs: seq<Query>): nat {
    if qs == [] then 0 else NameNeed(qs[0].name) + 4 + QueriesNeed(qs[1..])
  }

  function RrsNeed(rrs: seq<Rr>): nat
    requires AllWellTyped(rrs)
  {
    if rrs == [] then 0 else RrNeed(rrs[0]) + RrsNeed(rrs[1..])
  }

  function Need(p: Packet): nat
    requires MessageOk(p)
  {
    HEADER_SIZE + QueriesNeed(p.q) + RrsNeed(p.ans) + RrsNeed(p.ns) + RrsNeed(p.arr)
  }

  predicate AllPrintable(rrs: seq<Rr>) {
    forall i {:trigger rrs[i]} :: 0 <= i < |rrs| ==> Printable(rrs[i].rtype)
  }

  lemma NameFits(out: seq<Byte>, tab: Table, pos: nat, room: int, name: Name)
    requires InRange(tab, |out|) && room >= NameNeed(name)
    ensures PutName(out, tab, pos, room, name).Some?
    ensures 1 <= |PutName(out, tab, pos, room, name).value.bytes| <= NameNeed(name)
  {
  }

  lemma RrFits(o: Output, rr: Rr)
    requires o.Valid() && WellTyped(rr) && Printable(rr.rtype) && o.room >= RrNeed(rr)
    ensures PutRr(o, rr).Some? && PutRr(o, rr).value.room >= o.room - RrNeed(rr)
  {
    hide PutName, InRange, Put16, Put32;
    NameFits(o.bytes, o.tab, |o.bytes|, o.room, rr.name);
    var n := PutName(o.bytes, o.tab, |o.bytes|, o.room, rr.name).value;
    PutNameInRange(o.bytes, o.tab, |o.bytes|, o.room, rr.name);
    var mid := Output(o.bytes + (n.bytes + PutFixed(rr)), n.tab, o.room - |n.bytes| - 8);
    if NamesHost(rr.rtype) {
      NameFits(mid.bytes, mid.tab, |mid.bytes| + 2, mid.room - 2, rr.rdata.target);
    } else if rr.rtype == TYPE_SRV {
      NameFits(mid.bytes, mid.tab, |mid.bytes| + 8, mid.room - 8, rr.rdata.host);
    }
  }

  lemma QueryFits(o: Output, q: Query)
    requires o.Valid() && o.room >= NameNeed(q.name) + 4
    ensures PutQuery(o, q).Some? && PutQuery(o, q).value.room >= o.room - (NameNeed(q.name) + 4)
  {
    hide PutName, InRange, Put16;
    NameFits(o.bytes, o.tab, |o.bytes|, o.room, q.name);
  }

  lemma {:induction false} QueriesFit(o: Output, qs: seq<Query>)
    requires o.Valid() && o.room >= QueriesNeed(qs)
    ensures PutQueries(o, qs).Some? && PutQueries(o, qs).value.room >= o.room - QueriesNeed(qs)
    decreases |qs|
  {
    hide PutQuery;
    if qs != [] {
      QueryFits(o, qs[0]);
      QueriesFit(PutQuery(o, qs[0]).value, qs[1..]);
    }
  }

  lemma {:induction false} RrsFit(o: Output, rrs: seq<Rr>)
    requires o.Valid() && AllWellTyped(rrs) && AllPrintable(rrs) && o.room >= RrsNeed(rrs)
    ensures PutRrs(o, rrs).Some? && PutRrs(o, rrs).value.room >= o.room - RrsNeed(rrs)
    decreases |rrs|
  {
    hide PutRr, RrNeed;
    if rrs != [] {
      RrFits(o, rrs[0]);
      RrsFit(PutRr(o, rrs[0]).value, rrs[1..]);
    }
  }

  /** A buffer that holds the uncompressed message is always enough. */
  lemma EnoughRoom(p: Packet, size: int)
    requires MessageOk(p) && AllPrintable(p.ans) && AllPrintable(p.ns) && AllPrintable(p.arr)
    requires size >= Need(p)
    ensures PutPacket(p, size).Some?
  {
    hide PutQueries, PutRrs;
    var o0 := Output(PutHeader(p.hdr), [], size - HEADER_SIZE);
    QueriesFit(o0, p.q);
    var o1 := PutQueries(o0, p.q).value;
    RrsFit(o1, p.ans);
    RrsFit(PutRrs(o1, p.ans).value, p.ns);
    RrsFit(PutRrs(PutRrs(o1, p.ans).value, p.ns).value, p.arr);
  }

  lemma RrAccounts(o: Output, rr: Rr)
    requires o.Valid() && WellTyped(rr) && PutRr(o, rr).Some?
    ensures |PutRr(o, rr).value.bytes| + PutRr(o, rr).value.room == |o.bytes| + o.room
  {
    hide PutName, InRange, Put16, Put32;
  }

  lemma {:induction false} RrsAccount(o: Output, rrs: seq<Rr>)
    requires o.Valid() && AllWellTyped(rrs) && PutRrs(o, rrs).Some?
    ensures |PutRrs(o, rrs).value.bytes| + PutRrs(o, rrs).value.room == |o.bytes| + o.room
    decreases |rrs|
  {
    hide PutRr;
    if rrs != [] {
      RrAccounts(o, rrs[0]);
      RrsAccount(PutRr(o, rrs[0]).value, rrs[1..]);
    }
  }

  lemma {:induction false} QueriesAccount(o: Output, qs: seq<Query>)
    requires o.Valid() && PutQueries(o, qs).Some?
    ensures |PutQueries(o, qs).value.bytes| + PutQueries(o, qs).value.room == |o.bytes| + o.room + 4 * |qs|
    decreases |qs|
  {
    hide PutName;
    if qs != [] {
      QueriesAccount(PutQuery(o, qs[0]).value, qs[1..]);
    }
  }

  /** The printer's book-keeping: every byte is charged except four for each query.  So a
      message can exceed the stated size by up to four bytes a query, and by no more. */
  lemma RoomAccount(p: Packet, size: int)
    requires MessageOk(p) && PutPacket(p, size).Some?
    ensures |PutPacket(p, size).value.bytes| + PutPacket(p, size).value.room == size + 4 * |p.q|
    ensures |PutPacket(p, size).value.bytes| <= size + 4 * |p.q|
  {
    hide PutQueries, PutRrs;
    var o0 := Output(PutHeader(p.hdr), [], size - HEADER_SIZE);
    var o1 := PutQueries(o0, p.q).value;
    var o2 := PutRrs(o1, p.ans).value;
    QueriesAccount(o0, p.q);
    RrsAccount(o1, p.ans);
    RrsAccount(o2, p.ns);
    RrsAccount(PutRrs(o2, p.ns).value, p.arr);
  }
}
