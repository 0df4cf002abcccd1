/** pj_dns_packet_dup: duplicates a parsed packet, sharing names that differ only in letter
    case through a table of at most 16 names. */
module DnsDup {
  import opened Bytes
  import opened DnsFormat

  const MAX_NAMES := 16

  function Lower(b: Byte): Byte {
    if 0x41 <= b <= 0x5A then b + 0x20 else b
  }

  /** Case-insensitive equality of names. */
  predicate SameText(a: Name, b: Name) {
    |a| == |b| && forall i {:trigger a[i]} {:trigger b[i]} :: 0 <= i < |a| ==> Lower(a[i]) == Lower(b[i])
  }

  /** Two bytes differ at most by letter case. */
  predicate SameLetter(a: Byte, b: Byte) {
    a == b || (65 <= a <= 90 && b == a + 32) || (65 <= b <= 90 && a == b + 32)
  }

  /** Names are the same text exactly when they differ at most by the case of the letters A to Z. */
  lemma SameTextIs(a: Name, b: Name)
    ensures SameText(a, b) <==> |a| == |b| && forall i {:trigger a[i]} {:trigger b[i]} :: 0 <= i < |a| ==> SameLetter(a[i], b[i])
  {
  }

  /** Lower case changes the letters A to Z and nothing else. */
  lemma LowerIs(b: Byte)
    ensures SameLetter(Lower(b), b) && !(65 <= Lower(b) <= 90)
  {
  }

  predicate SameData(a: RData, b: RData) {
    if a.Service? && b.Service? then a.(host := b.host) == b && SameText(a.host, b.host) else a == b
  }

  /** Equal records up to the letter case of the owner and of a service host. */
  predicate SameRecord(a: Rr, b: Rr) {
    && a.(name := b.name, rdata := b.rdata) == b
    && SameText(a.name, b.name) && SameData(a.rdata, b.rdata)
  }

  predicate SameRecords(a: seq<Rr>, b: seq<Rr>) {
    |a| == |b| && forall i {:trigger a[i]} {:trigger b[i]} :: 0 <= i < |a| ==> SameRecord(a[i], b[i])
  }

  predicate SameQuery(a: Query, b: Query) {
    a.(name := b.name) == b && SameText(a.name, b.name)
  }

  predicate SameQueries(a: seq<Query>, b: seq<Query>) {
    |a| == |b| && forall i {:trigger a[i]} {:trigger b[i]} :: 0 <= i < |a| ==> SameQuery(a[i], b[i])
  }

  /** Which sections to leave out. */
  datatype Options = Options(noQd: bool, noAns: bool, noNs: bool, noAr: bool)

  /** The message with the sections that the options leave out emptied and uncounted. */
  function Kept(p: Packet, o: Options): Packet {
    Packet(
      p.hdr.(qdcount := if o.noQd then 0 else p.hdr.qdcount, anscount := if o.noAns then 0 else p.hdr.anscount,
             nscount := if o.noNs then 0 else p.hdr.nscount, arcount := if o.noAr then 0 else p.hdr.arcount),
      if o.noQd then [] else p.q, if o.noAns then [] else p.ans,
      if o.noNs then [] else p.ns, if o.noAr then [] else p.arr)
  }

  predicate SamePacket(a: Packet, b: Packet) {
    && a.hdr == b.hdr && SameQueries(a.q, b.q)
    && SameRecords(a.ans, b.ans) && SameRecords(a.ns, b.ns) && SameRecords(a.arr, b.arr)
  }

  class NameTable {
    var names: seq<Name>

    constructor ()
      ensures names == []
    {
      names := [];
    }

    /** apply_name_table: the first name in the table that matches, or a copy of the name, which
        enters the table while there is space. */
    method Apply(src: Name) returns (dst: Name)
      modifies this
      ensures SameText(dst, src)
      ensures old(names) <= names && |names| <= if |old(names)| > MAX_NAMES then |old(names)| else MAX_NAMES
      ensures (exists n :: n in old(names) && SameText(n, src)) ==> names == old(names) && dst in names
      ensures (forall n :: n in old(names) ==> !SameText(n, src)) ==>
                dst == src && names == if |old(names)| < MAX_NAMES then old(names) + [src] else old(names)
    {
      var i := 0;
      while i < |names| && !SameText(names[i], src)
        modifies {}
        invariant i <= |names|
        invariant forall j :: 0 <= j < i ==> !SameText(names[j], src)
      {
        i := i + 1;
      }
      if i != |names| {
        return names[i];
      }
      dst := src;
      if |names| < MAX_NAMES {
        names := names + [dst];
      }
    }
  }

  method CopyQuery(src: Query, tab: NameTable) returns (dst: Query)
    modifies tab
    ensures SameQuery(dst, src)
  {
    var name := tab.Apply(src.name);
    dst := src.(name := name);
  }

  method CopyRr(src: Rr, tab: NameTable) returns (dst: Rr)
    requires src.rtype == TYPE_SRV ==> src.rdata.Service?
    modifies tab
    ensures SameRecord(dst, src)
  {
    var name := tab.Apply(src.name);
    dst := src.(name := name);
    if src.rtype == TYPE_SRV {
      var host := tab.Apply(src.rdata.host);
      dst := dst.(rdata := src.rdata.(host := host));
    }
  }

  predicate ServicesTyped(rrs: seq<Rr>) {
    forall i {:trigger rrs[i]} :: 0 <= i < |rrs| ==> rrs[i].rtype == TYPE_SRV ==> rrs[i].rdata.Service?
  }

  method CopyRrs(src: seq<Rr>, tab: NameTable) returns (dst: seq<Rr>)
    requires ServicesTyped(src)
    modifies tab
    ensures SameRecords(dst, src)
  {
    hide SameRecord;
    dst := [];
    for i := 0 to |src|
      invariant SameRecords(dst, src[..i])
    {
      var r := CopyRr(src[i], tab);
      dst := dst + [r];
    }
    assert src[..|src|] == src;
  }

  method PacketDup(p: Packet, options: Options) returns (dst: Packet)
    requires |p.q| == p.hdr.qdcount && |p.ans| == p.hdr.anscount
    requires |p.ns| == p.hdr.nscount && |p.arr| == p.hdr.arcount
    requires ServicesTyped(p.ans) && ServicesTyped(p.ns) && ServicesTyped(p.arr)
    ensures SamePacket(dst, Kept(p, options))
  {
    hide SameRecord, SameQuery;
    var tab := new NameTable();
    dst := Packet(p.hdr.(qdcount := 0, anscount := 0, nscount := 0, arcount := 0), [], [], [], []);
    if p.hdr.qdcount > 0 && !options.noQd {
      var qs: seq<Query> := [];
      for i := 0 to p.hdr.qdcount
        invariant SameQueries(qs, p.q[..i])
      {
        var q := CopyQuery(p.q[i], tab);
        qs := qs + [q];
      }
      assert p.q[..|p.q|] == p.q;
      dst := dst.(q := qs, hdr := dst.hdr.(qdcount := |qs|));
    }
    if p.hdr.anscount > 0 && !options.noAns {
      var rrs := CopyRrs(p.ans, tab);
      dst := dst.(ans := rrs, hdr := dst.hdr.(anscount := |rrs|));
    }
    if p.hdr.nscount > 0 && !options.noNs {
      var rrs := CopyRrs(p.ns, tab);
      dst := dst.(ns := rrs, hdr := dst.hdr.(nscount := |rrs|));
    }
    if p.hdr.arcount > 0 && !options.noAr {
      var rrs := CopyRrs(p.arr, tab);
      dst := dst.(arr := rrs, hdr := dst.hdr.(arcount := |rrs|));
    }
  }
}
