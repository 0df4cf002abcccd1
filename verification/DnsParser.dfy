/** The packet parser of dns.c: a measuring pass and a copying pass over each name, then the
    fixed fields.  Each method computes the function of DnsGrammar with its name. */
module DnsParser {
  import opened Bytes
  import opened DnsFormat
  import opened DnsGrammar

  /** A pj_str_t: allocated characters and the length in use. */
  class NameBuffer {
    var ptr: array<Byte>
    var slen: nat

    constructor (size: nat)
      ensures fresh(ptr) && ptr.Length == size && slen == 0
    {
      ptr := new Byte[size];
      slen := 0;
    }
  }

  function Plus(r: Result<NameSize>, parsed: nat, length: nat): Result<NameSize> {
    if r.Err? then r else Ok(NameSize(parsed + r.value.parsed, length + r.value.length))
  }

  method GetNameLen(rec: nat, m: Memory, start: nat, max: nat) returns (r: Result<NameSize>)
    ensures r == NameLenAt(rec, m, start, max)
    decreases MAX_RECURSION + 1 - rec
  {
    if rec > MAX_RECURSION {
      return Err(EInNamePtr);
    }
    var parsedLen, nameLen, p := 0, 0, start;
    while m(p) != 0
      invariant 0 <= parsedLen && 0 <= nameLen
      invariant LabelsLen(rec, m, start, max) == Plus(LabelsLen(rec, m, p, max), parsedLen, nameLen)
      decreases max - p
    {
      if m(p) > MAX_LABEL_BYTE {
        if Offset14(m, p) >= max {
          return Err(EInNamePtr);
        }
        var sub := GetNameLen(rec + 1, m, Offset14(m, p), max);
        if sub.Err? {
          return sub;
        }
        return Ok(NameSize(parsedLen + 2, nameLen + sub.value.length));
      } else {
        var labelLen := m(p);
        if labelLen > max {
          return Err(EInNamePtr);
        }
        p := p + labelLen + 1;
        parsedLen := parsedLen + labelLen + 1;
        nameLen := nameLen + if m(p) != 0 then labelLen + 1 else labelLen;
        if p >= max {
          return Err(EInSize);
        }
      }
    }
    return Ok(NameSize(parsedLen + 1, nameLen));
  }

  /** Appends one label, and the dot when another label or a pointer follows it. */
  method AppendLabel(m: Memory, p: nat, name: NameBuffer)
    requires name.slen + |Label(m, p)| <= name.ptr.Length
    modifies name`slen, name.ptr
    ensures name.slen == old(name.slen) + |Label(m, p)|
    ensures name.ptr[..name.slen] == old(name.ptr[..name.slen]) + Label(m, p)
  {
    var labelLen := m(p);
    forall i | 0 <= i < labelLen {
      name.ptr[name.slen + i] := m(p + 1 + i);
    }
    name.slen := name.slen + labelLen;
    if m(p + labelLen + 1) != 0 {
      name.ptr[name.slen] := DOT;
      name.slen := name.slen + 1;
    }
  }

  lemma Regroup(a: Name, b: Name, c: Name)
    ensures (a + b) + c == a + (b + c)
  {
  }

  /** What the copying pass does at p, case by case. */
  lemma CopyCases(rec: nat, m: Memory, p: nat, max: nat)
    requires rec <= MAX_RECURSION
    ensures var c, b, next := CopyLabels(rec, m, p, max), m(p), p + m(p) + 1;
            && (b == 0 ==> c == NameCopy([], None))
            && (b > MAX_LABEL_BYTE ==>
                  c == if Offset14(m, p) >= max then NameCopy([], Some(EInNamePtr))
                       else CopyName(rec + 1, m, Offset14(m, p), max))
            && (max < b <= MAX_LABEL_BYTE ==> c == NameCopy([], Some(EInNamePtr)))
            && (0 < b <= MAX_LABEL_BYTE && b <= max && next >= max ==> c == NameCopy(Label(m, p), Some(EInSize)))
            && (0 < b <= MAX_LABEL_BYTE && b <= max && next < max ==>
                  && c.failure == CopyLabels(rec, m, next, max).failure
                  && c.text == Label(m, p) + CopyLabels(rec, m, next, max).text)
  {
    hide Label, Offset14;
  }

  /** Appends the name at `start` to `name`.  The buffer must have room for what is appended. */
  method GetName(rec: nat, m: Memory, start: nat, max: nat, name: NameBuffer) returns (failure: Option<Status>)
    requires name.slen + |CopyName(rec, m, start, max).text| <= name.ptr.Length
    modifies name`slen, name.ptr
    ensures failure == CopyName(rec, m, start, max).failure
    ensures name.slen == old(name.slen) + |CopyName(rec, m, start, max).text|
    ensures name.ptr[..name.slen] == old(name.ptr[..name.slen]) + CopyName(rec, m, start, max).text
    decreases MAX_RECURSION + 1 - rec
  {
    if rec > MAX_RECURSION {
      return Some(EInNamePtr);
    }
    hide Label, Offset14, CopyLabels;
    ghost var before := name.ptr[..name.slen];
    ghost var all := CopyLabels(rec, m, start, max);
    ghost var done: Name := [];
    var p := start;
    while m(p) != 0
      invariant all.failure == CopyLabels(rec, m, p, max).failure
      invariant all.text == done + CopyLabels(rec, m, p, max).text
      invariant name.slen == |before| + |done| <= name.ptr.Length
      invariant name.ptr[..name.slen] == before + done
      decreases max - p
    {
      CopyCases(rec, m, p, max);
      if m(p) > MAX_LABEL_BYTE {
        if Offset14(m, p) >= max {
          return Some(EInNamePtr);
        }
        failure := GetName(rec + 1, m, Offset14(m, p), max, name);
        Regroup(before, done, CopyLabels(rec, m, p, max).text);
        return;
      } else {
        var labelLen := m(p);
        if labelLen > max {
          return Some(EInNamePtr);
        }
        ghost var piece := Label(m, p);
        AppendLabel(m, p, name);
        Regroup(before, done, piece);
        p := p + labelLen + 1;
        if p >= max {
          return Some(EInSize);
        }
        Regroup(done, piece, CopyLabels(rec, m, p, max).text);
        done := done + piece;
      }
    }
    CopyCases(rec, m, p, max);
    return None;
  }

  /** Both passes over one name: the buffer has the measured length plus `slack` bytes. */
  method ReadName(m: Memory, start: nat, max: nat, slack: nat) returns (r: Result<Parsed<Name>>)
    ensures r == ParseName(m, start, max)
  {
    hide LabelsLen, CopyLabels;
    var size := GetNameLen(0, m, start, max);
    if size.Err? {
      return Err(size.status);
    }
    CopyFits(m, start, max);
    var name := new NameBuffer(size.value.length + slack);
    var failure := GetName(0, m, start, max, name);
    if failure.Some? {
      return Err(failure.value);
    }
    assert name.ptr[..name.slen] == CopyName(0, m, start, max).text;
    return Ok(Parsed(name.ptr[..name.slen], size.value.parsed));
  }

  method ReadQuery(m: Memory, start: nat, max: nat) returns (r: Result<Parsed<Query>>)
    ensures r == ParseQuery(m, start, max)
  {
    hide ParseName;
    var name := ReadName(m, start, max, 4);
    if name.Err? {
      return Err(name.status);
    }
    var p := start + name.value.len;
    var qtype := Get16(m, p);
    p := p + 2;
    var dnsclass := Get16(m, p);
    p := p + 2;
    return Ok(Parsed(Query(name.value.item, qtype, dnsclass), p - start));
  }

  /** The resource data, by record type. */
  method ReadRData(m: Memory, start: nat, max: nat, rtype: U16, rdlength: U16) returns (r: Result<Parsed<RData>>)
    ensures r == ParseRData(m, start, max, rtype, rdlength)
  {
    hide ParseName;
    var p := start;
    if rtype == TYPE_A {
      return Ok(Parsed(Addr(Slice(m, p, 4)), 4));
    } else if rtype == TYPE_AAAA {
      return Ok(Parsed(Addr6(Slice(m, p, 16)), 16));
    } else if rtype == TYPE_CNAME || rtype == TYPE_NS || rtype == TYPE_PTR {
      var target := ReadName(m, p, max, 0);
      if target.Err? {
        return Err(target.status);
      }
      return Ok(Parsed(Target(target.value.item), target.value.len));
    } else if rtype == TYPE_SRV {
      var prio := Get16(m, p);
      p := p + 2;
      var weight := Get16(m, p);
      p := p + 2;
      var port := Get16(m, p);
      p := p + 2;
      var target := ReadName(m, p, max, 0);
      if target.Err? {
        return Err(target.status);
      }
      p := p + target.value.len;
      return Ok(Parsed(Service(prio, weight, port, target.value.item), p - start));
    } else {
      return Ok(Parsed(Raw(Slice(m, p, rdlength)), rdlength));
    }
  }

  method ReadRr(m: Memory, start: nat, max: nat) returns (r: Result<Parsed<Rr>>)
    ensures r == ParseRr(m, start, max)
  {
    hide ParseName, ParseRData;
    var name := ReadName(m, start, max, 4);
    if name.Err? {
      return Err(name.status);
    }
    var p := start + name.value.len;
    if p + 10 > max {
      return Err(EInSize);
    }
    var rtype := Get16(m, p);
    p := p + 2;
    var dnsclass := Get16(m, p);
    p := p + 2;
    if dnsclass != 1 {
      if rtype == TYPE_A || rtype == TYPE_AAAA || rtype == TYPE_CNAME || rtype == TYPE_NS ||
         rtype == TYPE_PTR || rtype == TYPE_SRV {
        return Err(EInClass);
      }
    }
    var ttl := Get32(m, p);
    p := p + 4;
    var rdlength := Get16(m, p);
    p := p + 2;
    if p + rdlength > max {
      return Err(EInSize);
    }
    var rdata := ReadRData(m, p, max, rtype, rdlength);
    if rdata.Err? {
      return Err(rdata.status);
    }
    p := p + rdata.value.len;
    return Ok(Parsed(Rr(name.value.item, rtype, dnsclass, ttl, rdlength, rdata.value.item), p - start));
  }

  method ReadQueries(m: Memory, start: nat, max: nat, n: nat) returns (r: Result<Section<Query>>)
    ensures r == ParseQueries(m, start, max, n)
  {
    hide ParseQuery;
    var qs: seq<Query> := [];
    var p: nat := start;
    ghost var item := QueryReader(m, max);
    for i := 0 to n
      invariant ParseMany(item, start, n, []) == ParseMany(item, p, n - i, qs)
    {
      var x := ReadQuery(m, p, max);
      assert x == item(p);
      if x.Err? {
        return Err(x.status);
      }
      qs, p := qs + [x.value.item], p + x.value.len;
    }
    return Ok(Section(qs, p));
  }

  method ReadRrs(m: Memory, start: nat, max: nat, n: nat) returns (r: Result<Section<Rr>>)
    ensures r == ParseRrs(m, start, max, n)
  {
    hide ParseRr;
    var rs: seq<Rr> := [];
    var p: nat := start;
    ghost var item := RrReader(m, max);
    for i := 0 to n
      invariant ParseMany(item, start, n, []) == ParseMany(item, p, n - i, rs)
    {
      var x := ReadRr(m, p, max);
      assert x == item(p);
      if x.Err? {
        return Err(x.status);
      }
      rs, p := rs + [x.value.item], p + x.value.len;
    }
    return Ok(Section(rs, p));
  }

  /** pj_dns_parse_packet. */
  method ReadPacket(m: Memory, size: nat) returns (r: Result<Packet>)
    ensures r == ParsePacket(m, size)
  {
    hide ParseQueries, ParseRrs;
    if size == 0 {
      return Err(EInval);
    }
    if size < HEADER_SIZE {
      return Err(EInSize);
    }
    var hdr := ParseHeader(m);
    var start := HEADER_SIZE;
    var q := ReadQueries(m, start, size, hdr.qdcount);
    if q.Err? {
      return Err(q.status);
    }
    var ans := ReadRrs(m, q.value.next, size, hdr.anscount);
    if ans.Err? {
      return Err(ans.status);
    }
    var ns := ReadRrs(m, ans.value.next, size, hdr.nscount);
    if ns.Err? {
      return Err(ns.status);
    }
    var arr := ReadRrs(m, ns.value.next, size, hdr.arcount);
    if arr.Err? {
      return Err(arr.status);
    }
    return Ok(Packet(hdr, q.value.items, ans.value.items, ns.value.items, arr.value.items));
  }
}
