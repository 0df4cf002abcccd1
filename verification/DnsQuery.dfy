/** pj_dns_make_query: a one-question packet, and what the parser makes of it. */
module DnsQuery {
  import opened Bytes
  import opened DnsFormat
  import opened DnsGrammar
  import opened DnsPrinter
  import opened DnsRoundTrip

  const FLAG_RD: U16 := 0x100

  function QueryHeader(id: U16): Header {
    Header(id, FLAG_RD, 1, 0, 0, 0)
  }

  function QueryBytes(id: U16, qtype: U16, name: Name): (s: seq<Byte>) {
    QueryHead(id) + Encode(name) + (Put16(qtype) + Put16(CLASS_IN))
  }

  function QueryHead(id: U16): (s: seq<Byte>)
    ensures |s| == HEADER_SIZE
  {
    Put16(id) + Put16(FLAG_RD) + Put16(1) + [0, 0, 0, 0, 0, 0]
  }

  /** The size check of the builder counts the name's characters but not the leading length
      byte and the final zero, so every packet it builds is one or two bytes longer than the
      smallest size it accepts. */
  lemma SizeCheckIsShort(id: U16, qtype: U16, name: Name)
    ensures HEADER_SIZE + |name| + 4 < |QueryBytes(id, qtype, name)| <= HEADER_SIZE + |name| + 4 + 2
  {
    hide Encode;
  }

  /** The buffer must have two bytes more than the stated size: see SizeCheckIsShort. */
  method MakeQuery(packet: array<Byte>, size: nat, id: U16, qtype: U16, name: Name) returns (r: Result<nat>)
    requires size + 2 <= packet.Length
    modifies packet
    ensures qtype == 0 ==> r == Err(EInval)
    ensures qtype != 0 && size < HEADER_SIZE + |name| + 4 ==> r == Err(EQueryTooSmall)
    ensures qtype != 0 && size >= HEADER_SIZE + |name| + 4 ==>
      && r == Ok(|QueryBytes(id, qtype, name)|)
      && r.value <= packet.Length && packet[..r.value] == QueryBytes(id, qtype, name)
  {
    hide Encode, Put16;
    if qtype == 0 {
      return Err(EInval);
    }
    if size < HEADER_SIZE + |name| + 4 {
      return Err(EQueryTooSmall);
    }
    MemCopy(packet, 0, seq(HEADER_SIZE, _ => 0));
    WriteQueryHead(packet, id);
    ghost var head := packet[..HEADER_SIZE];
    var p := WriteLabels(packet, HEADER_SIZE, name);
    Write16(packet, p, qtype);
    p := p + 2;
    Write16(packet, p, 1);
    p := p + 2;
    assert packet[..p] == head + Encode(name) + (Put16(qtype) + Put16(CLASS_IN));
    return Ok(p);
  }

  method WriteQueryHead(packet: array<Byte>, id: U16)
    requires HEADER_SIZE <= packet.Length && forall i :: 0 <= i < HEADER_SIZE ==> packet[i] == 0
    modifies packet
    ensures packet[..HEADER_SIZE] == QueryHead(id)
  {
    hide Put16;
    ghost var zeros := packet[6..HEADER_SIZE];
    Write16(packet, 0, id);
    assert packet[6..] == packet[2..][4..] == old(packet[6..]);
    Write16(packet, 2, FLAG_RD);
    assert packet[6..] == packet[4..][2..] == old(packet[6..]);
    Write16(packet, 4, 1);
    assert packet[6..HEADER_SIZE] == packet[6..][..6] == zeros == [0, 0, 0, 0, 0, 0];
    assert packet[..HEADER_SIZE] == packet[..6] + packet[6..HEADER_SIZE];
  }

  /** The tokenizing loop: label by label, then the zero. */
  method WriteLabels(packet: array<Byte>, start: nat, name: Name) returns (end: nat)
    requires start + |Encode(name)| <= packet.Length
    modifies packet
    ensures end == start + |Encode(name)| && packet[..end] == old(packet[..start]) + Encode(name)
  {
    hide Encode, FirstDot, AfterLabel, LabelBytes;
    var p := start;
    var endlabel: nat := 0;
    ghost var done: seq<Byte> := [];
    assert name[0..] == name;
    while endlabel != |name|
      invariant endlabel <= |name| && p == start + |done|
      invariant p + |Encode(name[endlabel..])| == start + |Encode(name)|
      invariant packet[..p] == old(packet[..start]) + done
      invariant done + Encode(name[endlabel..]) == Encode(name)
      decreases |name| - endlabel
    {
      ghost var rest := name[endlabel..];
      EncodeStep(rest);
      AfterScan(name, endlabel);
      var startlabel := endlabel;
      endlabel := ScanLabel(name, startlabel);
      ghost var piece := LabelBytes(name[startlabel..endlabel]);
      Regroup(done, piece, Encode(AfterLabel(rest)));
      PutLabel(packet, p, name[startlabel..endlabel]);
      Regroup(old(packet[..start]), done, piece);
      done := done + piece;
      p := p + (endlabel - startlabel) + 1;
      if endlabel != |name| && name[endlabel] == DOT {
        endlabel := endlabel + 1;
      }
    }
    WriteByte(packet, p, 0);
    Regroup(old(packet[..start]), done, [0]);
    return p + 1;
  }

  /** A query built for a name of proper labels parses back to its id, type and name. */
  lemma MakeThenParse(id: U16, qtype: U16, name: Name, m: Memory)
    requires Labelled(name, MAX_LABEL_BYTE)
    requires Holds(m, 0, QueryBytes(id, qtype, name))
    ensures ParsePacket(m, |QueryBytes(id, qtype, name)|)
         == Ok(Packet(Header(id, 0x100, 1, 0, 0, 0), [Query(name, qtype, 1)], [], [], []))
  {
    hide Encode, Put16, Holds, ParseName, Labelled, ParseMany;
    var s := QueryBytes(id, qtype, name);
    var p := HEADER_SIZE + |Encode(name)|;
    HoldsConcat(m, 0, QueryHead(id) + Encode(name), Put16(qtype) + Put16(CLASS_IN));
    HoldsConcat(m, 0, QueryHead(id), Encode(name));
    HoldsConcat(m, p, Put16(qtype), Put16(CLASS_IN));
    Read16(m, p, qtype);
    Read16(m, p + 2, CLASS_IN);
    SpeltOutName(m, HEADER_SIZE, |s|, name);
    QueryHeadReads(m, id);
    OneQuery(m, |s|, Query(name, qtype, CLASS_IN), |Encode(name)| + 4);
    NoRecords(m, |s|, |s|);
  }

  lemma QueryHeadReads(m: Memory, id: U16)
    requires Holds(m, 0, QueryHead(id))
    ensures ParseHeader(m) == QueryHeader(id)
  {
    hide Put16, Holds;
    var zeros: seq<Byte> := [0, 0, 0, 0, 0, 0];
    HoldsConcat(m, 0, Put16(id) + Put16(FLAG_RD) + Put16(1), zeros);
    HoldsConcat(m, 0, Put16(id) + Put16(FLAG_RD), Put16(1));
    HoldsConcat(m, 0, Put16(id), Put16(FLAG_RD));
    Read16(m, 0, id);
    Read16(m, 2, FLAG_RD);
    Read16(m, 4, 1);
    ZerosRead(m, 6, zeros);
  }

  lemma ZerosRead(m: Memory, p: nat, zeros: seq<Byte>)
    requires Holds(m, p, zeros) && zeros == [0, 0, 0, 0, 0, 0]
    ensures Get16(m, p) == 0 && Get16(m, p + 2) == 0 && Get16(m, p + 4) == 0
  {
    assert m(p + 0) == zeros[0] && m(p + 1) == zeros[1] && m(p + 2) == zeros[2];
    assert m(p + 3) == zeros[3] && m(p + 4) == zeros[4] && m(p + 5) == zeros[5];
  }

  lemma OneQuery(m: Memory, max: nat, q: Query, len: nat)
    requires ParseQuery(m, HEADER_SIZE, max) == Ok(Parsed(q, len))
    ensures ParseQueries(m, HEADER_SIZE, max, 1) == Ok(Section([q], HEADER_SIZE + len))
  {
    hide ParseQuery;
    var r := QueryReader(m, max);
    assert [] + [q] == [q];
    assert r(HEADER_SIZE) == Ok(Parsed(q, len));
    assert ParseMany(r, HEADER_SIZE + len, 0, [] + [q]) == Ok(Section([q], HEADER_SIZE + len));
  }

  lemma NoRecords(m: Memory, start: nat, max: nat)
    ensures ParseRrs(m, start, max, 0) == Ok(Section([], start))
  {
    hide ParseRr;
  }
}
