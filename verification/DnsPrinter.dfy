/** The message printer of dns_server.c, writing into a caller's buffer through a position, a
    shrinking size and a label table.  Each method computes the function of DnsEncoding with
    a like name on the bytes already printed. */
module DnsPrinter {
  import opened Bytes
  import opened DnsFormat
  import opened DnsEncoding

  class LabelTab {
    var a: Table

    constructor ()
      ensures a == []
    {
      a := [];
    }
  }

  /** The buffer with its start replaced by s. */
  function Onto(buffer: seq<Byte>, s: seq<Byte>): (r: seq<Byte>)
    requires |s| <= |buffer|
    ensures |r| == |buffer|
  {
    s + buffer[|s|..]
  }

  /** s was stored at p, and every other byte is unchanged. */
  twostate predicate Stored(pkt: array<Byte>, p: nat, s: seq<Byte>)
    requires p + |s| <= pkt.Length
    reads pkt
  {
    pkt[..] == Onto(old(pkt[..]), old(pkt[..])[..p] + s)
  }

  lemma OntoStart(buffer: seq<Byte>, s: seq<Byte>)
    requires |s| <= |buffer|
    ensures Onto(buffer, s)[..|s|] == s
  {
  }

  /** Storing t over a start that was stored before. */
  lemma OntoTwice(buffer: seq<Byte>, s: seq<Byte>, t: seq<Byte>)
    requires |s| <= |t| <= |buffer|
    ensures Onto(Onto(buffer, s), t) == Onto(buffer, t)
  {
  }

  /** Storing t right behind s, which was stored at p. */
  lemma OntoNext(buffer: seq<Byte>, p: nat, s: seq<Byte>, t: seq<Byte>)
    requires p + |s| + |t| <= |buffer|
    ensures var mid := Onto(buffer, buffer[..p] + s);
            && mid[..p + |s|] == buffer[..p] + s
            && Onto(mid, mid[..p + |s|] + t) == Onto(buffer, buffer[..p] + (s + t))
  {
    var front := buffer[..p] + s;
    OntoStart(buffer, front);
    OntoTwice(buffer, front, front + t);
    Regroup(buffer[..p], s, t);
  }

  method MemCopy(pkt: array<Byte>, p: nat, s: seq<Byte>)
    requires p + |s| <= pkt.Length
    modifies pkt
    ensures Stored(pkt, p, s)
  {
    forall i | 0 <= i < |s| {
      pkt[p + i] := s[i];
    }
  }

  method WriteByte(pkt: array<Byte>, p: nat, val: Byte)
    requires p + 1 <= pkt.Length
    modifies pkt
    ensures Stored(pkt, p, [val])
  {
    pkt[p] := val;
  }

  method Write16(pkt: array<Byte>, p: nat, val: U16)
    requires p + 2 <= pkt.Length
    modifies pkt
    ensures Stored(pkt, p, Put16(val))
  {
    pkt[p] := val / 0x100;
    pkt[p + 1] := val % 0x100;
  }

  method Write32(pkt: array<Byte>, p: nat, val: U32)
    requires p + 4 <= pkt.Length
    modifies pkt
    ensures Stored(pkt, p, Put32(val))
  {
    MemCopy(pkt, p, Put32(val));
  }

  /** A length byte and the characters of a label. */
  method PutLabel(pkt: array<Byte>, p: nat, chars: Name)
    requires p + 1 + |chars| <= pkt.Length
    modifies pkt
    ensures Stored(pkt, p, LabelBytes(chars))
  {
    WriteByte(pkt, p, |chars| % 0x100);
    MemCopy(pkt, p + 1, chars);
  }

  lemma EncodeStep(name: Name)
    requires name != []
    ensures Encode(name) == LabelBytes(name[..FirstDot(name)]) + Encode(AfterLabel(name))
  {
  }

  lemma Regroup(a: seq<Byte>, b: seq<Byte>, c: seq<Byte>)
    ensures (a + b) + c == a + (b + c)
  {
  }

  lemma AfterScan(name: Name, start: nat)
    requires start < |name|
    ensures var end := start + FirstDot(name[start..]);
            && end <= |name| && (end < |name| ==> name[end] == DOT)
            && name[start..][..FirstDot(name[start..])] == name[start..end]
            && AfterLabel(name[start..]) == name[if end < |name| then end + 1 else end..]
  {
    hide FirstDot;
    var k := FirstDot(name[start..]);
    if start + k < |name| {
      assert name[start..][k] == name[start + k];
    }
  }

  /** Spells the name out at pos, label by label. */
  method PrintLabels(pkt: array<Byte>, room: int, pos: nat, name: Name) returns (len: int)
    requires 0 <= room && pos + room <= pkt.Length
    modifies pkt
    ensures len == if room < |Encode(name)| then -1 else |Encode(name)|
    ensures len >= 0 ==> Stored(pkt, pos, Encode(name))
  {
    hide Encode, FirstDot, AfterLabel, LabelBytes, Onto;
    var p: nat, size := pos, room;
    var endlabel: nat := 0;
    ghost var buffer, done: seq<Byte> := pkt[..], [];
    StoreNothing(buffer, pos);
    assert name[0..] == name;
    while endlabel != |name|
      invariant endlabel <= |name| && p == pos + |done|
      invariant p + size == pos + room && 0 <= size
      invariant pkt[..] == Onto(buffer, buffer[..pos] + done)
      invariant done + Encode(name[endlabel..]) == Encode(name)
      decreases |name| - endlabel
    {
      ghost var rest := name[endlabel..];
      EncodeStep(rest);
      AfterScan(name, endlabel);
      var start := endlabel;
      endlabel := ScanLabel(name, start);
      var slen := endlabel - start;
      if size < slen + 1 {
        return -1;
      }
      ghost var piece := LabelBytes(name[start..endlabel]);
      OntoNext(buffer, pos, done, piece);
      PutLabel(pkt, p, name[start..endlabel]);
      Regroup(done, piece, Encode(AfterLabel(rest)));
      done := done + piece;
      size := size - (slen + 1);
      p := p + slen + 1;
      if endlabel != |name| && name[endlabel] == DOT {
        endlabel := endlabel + 1;
      }
    }
    if size == 0 {
      return -1;
    }
    OntoNext(buffer, pos, done, [0]);
    WriteByte(pkt, p, 0);
    return p + 1 - pos;
  }

  lemma StoreNothing(buffer: seq<Byte>, pos: nat)
    requires pos <= |buffer|
    ensures Onto(buffer, buffer[..pos] + []) == Onto(buffer, buffer[..pos]) == buffer
  {
  }

  /** Index of the dot that ends the label at `start`, or the end of the name. */
  method ScanLabel(name: Name, start: nat) returns (end: nat)
    requires start < |name|
    ensures start <= end <= |name| && end - start == FirstDot(name[start..])
  {
    end := start;
    while end != |name| && name[end] != DOT
      invariant start <= end <= |name|
      invariant FirstDot(name[start..]) == end - start + FirstDot(name[end..])
      decreases |name| - end
    {
      assert name[end..][1..] == name[end + 1..];
      end := end + 1;
    }
  }

  /** The table look-up: raw packet bytes are compared with the dotted name. */
  method FindLabel(pkt: array<Byte>, a: Table, name: Name, ghost lim: nat) returns (i: nat)
    requires lim <= pkt.Length && InRange(a, lim)
    ensures i == Find(pkt[..lim], a, name)
  {
    hide FindFrom;
    ghost var out := pkt[..lim];
    i := 0;
    while i < |a| && pkt[a[i].pos + 1..a[i].pos + 1 + a[i].len] != name
      invariant i <= |a|
      invariant Find(out, a, name) == FindFrom(out, a, name, i)
    {
      FindStep(out, pkt[..], a, name, i);
      i := i + 1;
    }
    FindStep(out, pkt[..], a, name, i);
  }

  /** print_name.  The table may refer only to bytes below `lim`. */
  method PrintName(pkt: array<Byte>, size: int, pos: nat, name: Name, tab: LabelTab, ghost lim: nat) returns (len: int)
    requires lim <= pos && InRange(tab.a, lim)
    requires 0 <= size && pos + size + 2 <= pkt.Length
    modifies pkt, tab
    ensures match PutName(old(pkt[..lim]), old(tab.a), pos, size, name)
            case None => len == -1
            case Some(n) =>
              && len == |n.bytes| && pos + len <= pkt.Length && tab.a == n.tab
              && Stored(pkt, pos, n.bytes)
  {
    hide Encode, Pointer, FindFrom;
    var i := FindLabel(pkt, tab.a, name, lim);
    if i != |tab.a| {
      WritePointer(pkt, pos, tab.a[i].pos);
      return 2;
    }
    if |tab.a| < MAX_LABEL {
      tab.a := tab.a + [Entry(pos, |name|)];
    }
    len := PrintLabels(pkt, size, pos, name);
  }

  /** One comparison of the look-up loop, made on the whole buffer. */
  lemma FindStep(out: seq<Byte>, pkt: seq<Byte>, tab: Table, name: Name, i: nat)
    requires InRange(tab, |out|) && out <= pkt && i <= |tab|
    ensures i < |tab| ==>
      && out[tab[i].pos + 1..tab[i].pos + 1 + tab[i].len] == pkt[tab[i].pos + 1..tab[i].pos + 1 + tab[i].len]
      && FindFrom(out, tab, name, i) ==
         if pkt[tab[i].pos + 1..tab[i].pos + 1 + tab[i].len] == name then i else FindFrom(out, tab, name, i + 1)
    ensures i == |tab| ==> FindFrom(out, tab, name, i) == i
  {
  }

  method WritePointer(pkt: array<Byte>, p: nat, target: nat)
    requires p + 2 <= pkt.Length
    modifies pkt
    ensures Stored(pkt, p, Pointer(target))
  {
    Write16(pkt, p, 0xC000 + target % 0x4000);
  }

  /** The buffer starts with o, is unchanged behind it, and tab is its table. */
  twostate predicate At(pkt: array<Byte>, tab: LabelTab, o: Output)
    reads pkt, tab
  {
    |o.bytes| <= pkt.Length && pkt[..] == Onto(old(pkt[..]), o.bytes) && tab.a == o.tab
  }

  /** Type, class and TTL. */
  method PrintFixed(pkt: array<Byte>, p: nat, rr: Rr)
    requires p + 8 <= pkt.Length
    modifies pkt
    ensures Stored(pkt, p, PutFixed(rr))
  {
    hide Put16, Put32, Onto;
    ghost var buffer := pkt[..];
    Write16(pkt, p, rr.rtype);
    Write16(pkt, p + 2, rr.dnsclass);
    OntoNext(buffer, p, Put16(rr.rtype), Put16(rr.dnsclass));
    Write32(pkt, p + 4, rr.ttl);
    OntoNext(buffer, p, Put16(rr.rtype) + Put16(rr.dnsclass), Put32(rr.ttl));
  }

  /** Filling in a length in front of data that were stored two bytes further on. */
  lemma OntoBack(buffer: seq<Byte>, p: nat, w: seq<Byte>, data: seq<Byte>)
    requires |w| == 2 && p + 2 + |data| <= |buffer|
    ensures var mid := Onto(buffer, buffer[..p + 2] + data);
            && mid[..p] == buffer[..p]
            && Onto(mid, mid[..p] + w) == Onto(buffer, buffer[..p] + (w + data))
  {
    var mid := Onto(buffer, buffer[..p + 2] + data);
    assert mid[..p] == buffer[..p];
    assert mid[p + 2..] == data + buffer[p + 2 + |data|..];
  }

  method PrintTarget(pkt: array<Byte>, size: int, pos: nat, rr: Rr, tab: LabelTab) returns (len: int)
    requires WellTyped(rr) && NamesHost(rr.rtype) && 0 <= size && pos + size + 2 <= pkt.Length
    requires InRange(tab.a, pos)
    modifies pkt, tab
    ensures match PutRData(Output(old(pkt[..pos]), old(tab.a), size), rr)
            case None => len == -1
            case Some(o) => len >= 0 && |o.bytes| == pos + len && At(pkt, tab, o) && o.room == size - len
  {
    hide PutName, Put16, InRange, Onto, Low16;
    if size < 4 {
      return -1;
    }
    ghost var buffer, old0 := pkt[..], tab.a;
    var n := PrintName(pkt, size - 2, pos + 2, rr.rdata.target, tab, pos);
    if n < 0 {
      return -1;
    }
    ghost var name := PutName(buffer[..pos], old0, pos + 2, size - 2, rr.rdata.target).value.bytes;
    OntoBack(buffer, pos, Put16(Low16(n)), name);
    Write16(pkt, pos, Low16(n));
    return n + 2;
  }

  /** Priority, weight and port. */
  method PrintServiceFixed(pkt: array<Byte>, p: nat, rr: Rr)
    requires rr.rdata.Service? && p + 6 <= pkt.Length
    modifies pkt
    ensures Stored(pkt, p, PutServiceFixed(rr.rdata))
  {
    hide Put16, Onto;
    ghost var buffer := pkt[..];
    Write16(pkt, p, rr.rdata.prio);
    Write16(pkt, p + 2, rr.rdata.weight);
    OntoNext(buffer, p, Put16(rr.rdata.prio), Put16(rr.rdata.weight));
    Write16(pkt, p + 4, rr.rdata.port);
    OntoNext(buffer, p, Put16(rr.rdata.prio) + Put16(rr.rdata.weight), Put16(rr.rdata.port));
  }

  method PrintService(pkt: array<Byte>, size: int, pos: nat, rr: Rr, tab: LabelTab) returns (len: int)
    requires WellTyped(rr) && rr.rtype == TYPE_SRV && 0 <= size && pos + size + 2 <= pkt.Length
    requires InRange(tab.a, pos)
    modifies pkt, tab
    ensures match PutRData(Output(old(pkt[..pos]), old(tab.a), size), rr)
            case None => len == -1
            case Some(o) => len >= 0 && |o.bytes| == pos + len && At(pkt, tab, o) && o.room == size - len
  {
    hide PutName, Put16, InRange, PutServiceFixed, Low16, Onto;
    if size < 10 {
      return -1;
    }
    ghost var buffer, old0, fixed := pkt[..], tab.a, PutServiceFixed(rr.rdata);
    PrintServiceFixed(pkt, pos + 2, rr);
    StartKept(buffer, pos, pos + 2, fixed);
    var n := PrintName(pkt, size - 8, pos + 8, rr.rdata.host, tab, pos);
    if n < 0 {
      return -1;
    }
    ghost var name := PutName(buffer[..pos], old0, pos + 8, size - 8, rr.rdata.host).value.bytes;
    OntoNext(buffer, pos + 2, fixed, name);
    OntoBack(buffer, pos, Put16(Low16(n + 6)), fixed + name);
    Write16(pkt, pos, Low16(n + 6));
    Regroup(Put16(Low16(n + 6)), fixed, name);
    len := n + 8;
  }

  /** Storing something further on leaves the start of the buffer alone. */
  lemma StartKept(buffer: seq<Byte>, lim: nat, p: nat, s: seq<Byte>)
    requires lim <= p && p + |s| <= |buffer|
    ensures Onto(buffer, buffer[..p] + s)[..lim] == buffer[..lim]
  {
  }

  /** The length and data of a record; the length of a name is filled in after the name. */
  method PrintRData(pkt: array<Byte>, size: int, pos: nat, rr: Rr, tab: LabelTab) returns (len: int)
    requires WellTyped(rr) && 0 <= size && pos + size + 2 <= pkt.Length
    requires InRange(tab.a, pos)
    modifies pkt, tab
    ensures match PutRData(Output(old(pkt[..pos]), old(tab.a), size), rr)
            case None => len == -1
            case Some(o) => len >= 0 && |o.bytes| == pos + len && At(pkt, tab, o) && o.room == size - len
  {
    hide PutName, Put16, InRange, Onto;
    if rr.rtype == TYPE_A {
      if size < 6 {
        return -1;
      }
      ghost var buffer := pkt[..];
      Write16(pkt, pos, 4);
      MemCopy(pkt, pos + 2, rr.rdata.ip);
      OntoNext(buffer, pos, Put16(4), rr.rdata.ip);
      return 6;
    } else if rr.rtype == TYPE_CNAME || rr.rtype == TYPE_NS || rr.rtype == TYPE_PTR {
      len := PrintTarget(pkt, size, pos, rr, tab);
    } else if rr.rtype == TYPE_SRV {
      len := PrintService(pkt, size, pos, rr, tab);
    } else {
      return -1;
    }
  }

  method PrintRr(pkt: array<Byte>, size: int, pos: nat, rr: Rr, tab: LabelTab) returns (len: int)
    requires WellTyped(rr) && 0 <= size && pos + size + 2 <= pkt.Length
    requires InRange(tab.a, pos)
    modifies pkt, tab
    ensures match PutRr(Output(old(pkt[..pos]), old(tab.a), size), rr)
            case None => len < 0
            case Some(o) => len >= 0 && |o.bytes| == pos + len && At(pkt, tab, o) && o.room == size - len
  {
    hide PutName, PutRData, PutFixed, Onto, InRange;
    ghost var buffer, tab0 := pkt[..], tab.a;
    ghost var base := buffer[..pos];
    PutNameRange(base, tab0, pos, size, rr.name);
    var n := PrintName(pkt, size, pos, rr.name, tab, pos);
    if n < 0 {
      return -1;
    }
    if size - n < 8 {
      return -1;
    }
    ghost var named := PutName(base, tab0, pos, size, rr.name).value.bytes;
    PrintFixed(pkt, pos + n, rr);
    OntoNext(buffer, pos, named, PutFixed(rr));
    ghost var head := base + (named + PutFixed(rr));
    OntoStart(buffer, head);
    InRangeGrows(tab.a, pos + n, pos + n + 8);
    var d := PrintRData(pkt, size - n - 8, pos + n + 8, rr, tab);
    if d < 0 {
      return -1;
    }
    ghost var o := PutRr(Output(base, tab0, size), rr).value;
    OntoTwice(buffer, head, o.bytes);
    return n + 8 + d;
  }

  lemma InRangeGrows(tab: Table, m: nat, n: nat)
    requires (InRange(tab, m) && m <= n) || tab == []
    ensures InRange(tab, n)
  {
  }

  lemma PutNameRange(out: seq<Byte>, tab: Table, pos: nat, room: int, name: Name)
    requires InRange(tab, |out|) && |out| <= pos
    ensures PutName(out, tab, pos, room, name).Some? ==>
      var n := PutName(out, tab, pos, room, name).value;
      InRange(n.tab, pos + |n.bytes|)
  {
    if PutName(out, tab, pos, room, name).Some? {
      PutNameInRange(out, tab, pos, room, name);
    }
  }

  method PrintQuery(pkt: array<Byte>, size: int, pos: nat, q: Query, tab: LabelTab) returns (len: int, left: int)
    requires 0 <= size && pos + size + 6 <= pkt.Length
    requires InRange(tab.a, pos)
    modifies pkt, tab
    ensures match PutQuery(Output(old(pkt[..pos]), old(tab.a), size), q)
            case None => len < 0
            case Some(o) => len >= 0 && |o.bytes| == pos + len && At(pkt, tab, o) && o.room == left && len + left == size + 4
  {
    hide PutName, Put16, InRange, Onto;
    ghost var buffer, tab0 := pkt[..], tab.a;
    ghost var base := buffer[..pos];
    PutNameRange(base, tab0, pos, size, q.name);
    left := size;
    var n := PrintName(pkt, size, pos, q.name, tab, pos);
    if n < 0 {
      return -1, left;
    }
    left := left - n;
    if left < 4 {
      return -1, left;
    }
    ghost var named := PutName(base, tab0, pos, size, q.name).value.bytes;
    Write16(pkt, pos + n, q.qtype);
    OntoNext(buffer, pos, named, Put16(q.qtype));
    Write16(pkt, pos + n + 2, q.dnsclass);
    OntoNext(buffer, pos, named + Put16(q.qtype), Put16(q.dnsclass));
    Regroup(named, Put16(q.qtype), Put16(q.dnsclass));
    return n + 4, left;
  }

  /** The query loop.  `left` is what the printer believes is left: four bytes more than is
      true for every query. */
  method PrintQueries(pkt: array<Byte>, size: int, pos: nat, qs: seq<Query>, tab: LabelTab)
    returns (end: int, left: int)
    requires 0 <= size && pos + size + 4 * |qs| + 2 <= pkt.Length
    requires InRange(tab.a, pos)
    modifies pkt, tab
    ensures match PutQueries(Output(old(pkt[..pos]), old(tab.a), size), qs)
            case None => end < 0
            case Some(o) => end >= pos && |o.bytes| == end && At(pkt, tab, o) && o.room == left && end + left == pos + size + 4 * |qs|
  {
    hide PutQuery, InRange, Onto;
    ghost var buffer, o := pkt[..], Output(pkt[..pos], tab.a, size);
    ghost var all := PutQueries(o, qs);
    var p: nat := pos;
    left := size;
    StoreNothing(buffer, pos);
    assert qs[0..] == qs;
    for i := 0 to |qs|
      invariant pos <= p == |o.bytes| && 0 <= left == o.room && p + left == pos + size + 4 * i
      invariant o.Valid() && At(pkt, tab, o) && all == PutQueries(o, qs[i..])
    {
      OntoStart(buffer, o.bytes);
      assert pkt[..p] == o.bytes && qs[i..][1..] == qs[i + 1..];
      var len;
      len, left := PrintQuery(pkt, left, p, qs[i], tab);
      if len < 0 {
        return -1, left;
      }
      ghost var more := PutQuery(o, qs[i]).value;
      OntoTwice(buffer, o.bytes, more.bytes);
      o := more;
      p := p + len;
    }
    assert qs[|qs|..] == [];
    end := p;
  }

  /** The record loop of one section. */
  method PrintRrs(pkt: array<Byte>, size: int, pos: nat, rrs: seq<Rr>, tab: LabelTab)
    returns (end: int, left: int)
    requires AllWellTyped(rrs) && 0 <= size && pos + size + 2 <= pkt.Length
    requires InRange(tab.a, pos)
    modifies pkt, tab
    ensures match PutRrs(Output(old(pkt[..pos]), old(tab.a), size), rrs)
            case None => end < 0
            case Some(o) => end >= pos && |o.bytes| == end && At(pkt, tab, o) && o.room == left && end + left == pos + size
  {
    hide PutRr, InRange, Onto;
    ghost var buffer, o := pkt[..], Output(pkt[..pos], tab.a, size);
    ghost var all := PutRrs(o, rrs);
    var p: nat := pos;
    left := size;
    StoreNothing(buffer, pos);
    assert rrs[0..] == rrs;
    for i := 0 to |rrs|
      invariant pos <= p == |o.bytes| && 0 <= left == o.room && p + left == pos + size
      invariant o.Valid() && At(pkt, tab, o) && all == PutRrs(o, rrs[i..])
    {
      OntoStart(buffer, o.bytes);
      assert pkt[..p] == o.bytes && rrs[i..][1..] == rrs[i + 1..];
      var len := PrintRr(pkt, left, p, rrs[i], tab);
      if len < 0 {
        return -1, left;
      }
      ghost var more := PutRr(o, rrs[i]).value;
      OntoTwice(buffer, o.bytes, more.bytes);
      o := more;
      p := p + len;
      left := left - len;
    }
    assert rrs[|rrs|..] == [];
    end := p;
  }

  method PrintHeader(pkt: array<Byte>, h: Header)
    requires HEADER_SIZE <= pkt.Length
    modifies pkt
    ensures pkt[..] == Onto(old(pkt[..]), PutHeader(h))
  {
    hide Put16, Onto;
    ghost var buffer := pkt[..];
    ghost var s2 := Put16(h.id) + Put16(h.flags);
    ghost var s3 := s2 + Put16(h.qdcount);
    ghost var s4 := s3 + Put16(h.anscount);
    ghost var s5 := s4 + Put16(h.nscount);
    Write16(pkt, 0, h.id);
    Write16(pkt, 2, h.flags);
    OntoNext(buffer, 0, Put16(h.id), Put16(h.flags));
    Write16(pkt, 4, h.qdcount);
    OntoNext(buffer, 0, s2, Put16(h.qdcount));
    Write16(pkt, 6, h.anscount);
    OntoNext(buffer, 0, s3, Put16(h.anscount));
    Write16(pkt, 8, h.nscount);
    OntoNext(buffer, 0, s4, Put16(h.nscount));
    Write16(pkt, 10, h.arcount);
    OntoNext(buffer, 0, s5, Put16(h.arcount));
    assert buffer[..0] + PutHeader(h) == PutHeader(h);
  }

  /** print_packet.  The buffer has the stated size and the slack that the printer may use
      beyond it: four bytes a query, and a pointer written before the room is checked. */
  method PrintPacket(rec: Packet, pkt: array<Byte>, size: int) returns (len: int)
    requires MessageOk(rec) && size + 4 * |rec.q| + 2 <= pkt.Length
    modifies pkt
    ensures match PutPacket(rec, size)
            case None => len < 0
            case Some(o) => 0 <= len == |o.bytes| <= pkt.Length && pkt[..] == Onto(old(pkt[..]), o.bytes)
  {
    hide PutQueries, PutRrs, PutHeader, Onto, InRange;
    if size < HEADER_SIZE {
      return -1;
    }
    var tab := new LabelTab();
    ghost var buffer, o0 := pkt[..], Output(PutHeader(rec.hdr), [], size - HEADER_SIZE);
    PrintHeader(pkt, rec.hdr);
    OntoStart(buffer, o0.bytes);
    InRangeGrows([], 0, HEADER_SIZE);
    var p, left := PrintQueries(pkt, size - HEADER_SIZE, HEADER_SIZE, rec.q, tab);
    if p < 0 {
      return -1;
    }
    ghost var o1 := PutQueries(o0, rec.q).value;
    OntoStep(buffer, o0.bytes, o1.bytes);
    p, left := PrintRrs(pkt, left, p, rec.ans, tab);
    if p < 0 {
      return -1;
    }
    ghost var o2 := PutRrs(o1, rec.ans).value;
    OntoStep(buffer, o1.bytes, o2.bytes);
    p, left := PrintRrs(pkt, left, p, rec.ns, tab);
    if p < 0 {
      return -1;
    }
    ghost var o3 := PutRrs(o2, rec.ns).value;
    OntoStep(buffer, o2.bytes, o3.bytes);
    p, left := PrintRrs(pkt, left, p, rec.arr, tab);
    if p >= 0 {
      OntoStep(buffer, o3.bytes, PutRrs(o3, rec.arr).value.bytes);
    }
    return p;
  }

  /** The same when the start of the new buffer is wanted as well. */
  lemma OntoStep(buffer: seq<Byte>, s: seq<Byte>, t: seq<Byte>)
    requires |s| <= |t| <= |buffer|
    ensures Onto(Onto(buffer, s), t) == Onto(buffer, t) && Onto(buffer, t)[..|t|] == t
  {
    OntoTwice(buffer, s, t);
    OntoStart(buffer, t);
  }
}
