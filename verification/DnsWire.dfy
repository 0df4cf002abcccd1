/** Messages as RFC 1035 section 4.1 lays them out, byte by byte and with any mixture of labels and
    pointers in a name; and that the parser reads each of them as what it says. */
module DnsWire {
  import opened Bytes
  import opened DnsFormat
  import opened DnsGrammar
  import opened DnsRoundTrip

  /** Pointers that may follow each other in one name. */
  const MAX_HOPS := 10

  // ------------------------------------------------------------------ names

  /** Where a pointer leads: its two bytes, most significant first, without the two top bits. */
  function Target14(m: Memory, p: nat): nat
    requires m(p) >= 192
  {
    (m(p) - 192) * 256 + m(p + 1)
  }

  /** The labels at p, through at most `hops` pointers, spell the name. */
  ghost predicate NameAtWire(m: Memory, p: nat, max: nat, name: Name, hops: nat)
    decreases hops, |name|
  {
    if m(p) == 0 then name == []
    else if m(p) >= 192 then
      name != [] && hops > 0 && Target14(m, p) < max && NameAtWire(m, Target14(m, p), max, name, hops - 1)
    else
      var k := m(p);
      && p + k + 1 < max && name != [] && FirstDot(name) == k
      && (k < |name| ==> k + 1 < |name|)
      && Holds(m, p + 1, name[..k])
      && NameAtWire(m, p + k + 1, max, AfterLabel(name), hops)
  }

  /** How many bytes the name takes at p itself. */
  function Width(m: Memory, p: nat, max: nat): nat
    decreases if p < max then max - p else 0
  {
    if m(p) == 0 then 1
    else if m(p) >= 192 then 2
    else if p + m(p) + 1 < max then m(p) + 1 + Width(m, p + m(p) + 1, max)
    else 0
  }

  lemma PointerParts(m: Memory, p: nat, max: nat, name: Name, hops: nat)
    requires m(p) >= 192 && NameAtWire(m, p, max, name, hops)
    ensures hops > 0 && Target14(m, p) < max && NameAtWire(m, Target14(m, p), max, name, hops - 1)
    ensures Width(m, p, max) == 2
  {
    hide FirstDot;
  }

  lemma LabelParts(m: Memory, p: nat, max: nat, name: Name, hops: nat)
    requires 0 < m(p) < 192 && NameAtWire(m, p, max, name, hops)
    ensures name != [] && p + m(p) + 1 < max && NameAtWire(m, p + m(p) + 1, max, AfterLabel(name), hops)
    ensures name == Label(m, p) + AfterLabel(name)
    ensures Width(m, p, max) == m(p) + 1 + Width(m, p + m(p) + 1, max)
  {
    hide FirstDot;
    var k := m(p);
    ReadSlice(m, p + 1, name[..k]);
    NameParts(name);
  }

  lemma PointerStep(rec: nat, m: Memory, p: nat, max: nat)
    requires rec < MAX_RECURSION && m(p) >= 192 && Target14(m, p) < max
    ensures LabelsLen(rec + 1, m, Target14(m, p), max).Ok? ==>
              LabelsLen(rec, m, p, max) == Ok(NameSize(2, LabelsLen(rec + 1, m, Target14(m, p), max).value.length))
    ensures CopyLabels(rec, m, p, max) == CopyLabels(rec + 1, m, Target14(m, p), max)
  {
  }

  lemma EndReads(rec: nat, m: Memory, p: nat, max: nat, name: Name, hops: nat)
    requires rec <= MAX_RECURSION && m(p) == 0 && NameAtWire(m, p, max, name, hops)
    ensures LabelsLen(rec, m, p, max) == Ok(NameSize(1, 0)) && CopyLabels(rec, m, p, max) == NameCopy([], None)
    ensures name == [] && Width(m, p, max) == 1
  {
  }

  lemma {:induction false} WireNameReads(rec: nat, m: Memory, p: nat, max: nat, name: Name, hops: nat)
    requires NameAtWire(m, p, max, name, hops) && rec + hops <= MAX_RECURSION
    ensures LabelsLen(rec, m, p, max) == Ok(NameSize(Width(m, p, max), |name|))
    ensures CopyLabels(rec, m, p, max) == NameCopy(name, None)
    decreases hops, |name|
  {
    hide FirstDot, Label, Holds, LabelsLen, CopyLabels, NameAtWire, Width, Target14, AfterLabel;
    if m(p) == 0 {
      EndReads(rec, m, p, max, name, hops);
    } else if m(p) >= 192 {
      PointerParts(m, p, max, name, hops);
      PointerStep(rec, m, p, max);
      WireNameReads(rec + 1, m, Target14(m, p), max, name, hops - 1);
    } else {
      LabelParts(m, p, max, name, hops);
      WireNameReads(rec, m, p + m(p) + 1, max, AfterLabel(name), hops);
      LabelStep(rec, m, p, max);
    }
  }

  lemma WireNameParsed(m: Memory, p: nat, max: nat, name: Name)
    requires NameAtWire(m, p, max, name, MAX_HOPS)
    ensures ParseName(m, p, max) == Ok(Parsed(name, Width(m, p, max)))
  {
    hide LabelsLen, CopyLabels;
    WireNameReads(0, m, p, max, name, MAX_HOPS);
  }

  // ------------------------------------------------------------------ questions and records

  /** A 16-bit number, most significant byte first. */
  predicate Num16(m: Memory, p: nat, v: nat) {
    m(p) * 256 + m(p + 1) == v
  }

  predicate Num32(m: Memory, p: nat, v: nat) {
    ((m(p) * 256 + m(p + 1)) * 256 + m(p + 2)) * 256 + m(p + 3) == v
  }

  ghost predicate QuestionAt(m: Memory, p: nat, max: nat, q: Query, end: nat) {
    var d := p + Width(m, p, max);
    NameAtWire(m, p, max, q.name, MAX_HOPS) && Num16(m, d, q.qtype) && Num16(m, d + 2, q.dnsclass) && end == d + 4
  }

  /** The data of a record of a type the parser knows, or the bytes of one it does not know. */
  ghost predicate DataAt(m: Memory, d: nat, max: nat, rr: Rr) {
    match rr.rdata
    case Addr(ip) => rr.rtype == 1 && rr.rdlength == |ip| == 4 && Holds(m, d, ip)
    case Addr6(ip6) => rr.rtype == 28 && rr.rdlength == |ip6| == 16 && Holds(m, d, ip6)
    case Target(t) =>
      (rr.rtype == 2 || rr.rtype == 5 || rr.rtype == 12) && rr.rdlength == Width(m, d, max) && NameAtWire(m, d, max, t, MAX_HOPS)
    case Service(prio, weight, port, host) =>
      && rr.rtype == 33 && rr.rdlength == 6 + Width(m, d + 6, max) && NameAtWire(m, d + 6, max, host, MAX_HOPS)
      && Num16(m, d, prio) && Num16(m, d + 2, weight) && Num16(m, d + 4, port)
    case Raw(data) =>
      rr.rtype !in {1, 2, 5, 12, 28, 33} && rr.rdlength == |data| && Holds(m, d, data)
  }

  /** Owner, type, class, TTL, length of the data, and the data. */
  ghost predicate RecordAt(m: Memory, p: nat, max: nat, rr: Rr, end: nat) {
    var f := p + Width(m, p, max);
    && NameAtWire(m, p, max, rr.name, MAX_HOPS)
    && Num16(m, f, rr.rtype) && Num16(m, f + 2, rr.dnsclass) && Num32(m, f + 4, rr.ttl) && Num16(m, f + 8, rr.rdlength)
    && (rr.dnsclass == 1 || rr.rdata.Raw?)
    && DataAt(m, f + 10, max, rr) && end == f + 10 + rr.rdlength <= max
  }

  lemma QuestionParsed(m: Memory, p: nat, max: nat, q: Query, end: nat)
    requires QuestionAt(m, p, max, q, end)
    ensures ParseQuery(m, p, max) == Ok(Parsed(q, end - p))
  {
    hide ParseName, NameAtWire, Width;
    WireNameParsed(m, p, max, q.name);
  }

  lemma DataParsed(m: Memory, d: nat, max: nat, rr: Rr)
    requires DataAt(m, d, max, rr)
    ensures ParseRData(m, d, max, rr.rtype, rr.rdlength) == Ok(Parsed(rr.rdata, rr.rdlength))
  {
    hide ParseName, NameAtWire, Width, Holds;
    match rr.rdata
    case Addr(ip) => ReadSlice(m, d, ip);
    case Addr6(ip6) => ReadSlice(m, d, ip6);
    case Target(t) => WireNameParsed(m, d, max, t);
    case Service(prio, weight, port, host) => WireNameParsed(m, d + 6, max, host);
    case Raw(data) => ReadSlice(m, d, data);
  }

  /** A record of any type on the wire is read as what it says, and the parser stops where it ends. */
  lemma RecordParsed(m: Memory, p: nat, max: nat, rr: Rr, end: nat)
    requires RecordAt(m, p, max, rr, end)
    ensures ParseRr(m, p, max) == Ok(Parsed(rr, end - p))
  {
    hide ParseName, NameAtWire, Width, ParseRData, DataAt;
    WireNameParsed(m, p, max, rr.name);
    DataParsed(m, p + Width(m, p, max) + 10, max, rr);
    KnownTypes(rr, m, p + Width(m, p, max) + 10, max);
    hide KnownType;
  }

  lemma KnownTypes(rr: Rr, m: Memory, d: nat, max: nat)
    requires DataAt(m, d, max, rr)
    ensures rr.rdata.Raw? <==> !KnownType(rr.rtype)
  {
    hide NameAtWire, Width, Holds;
  }

  /** A record with a name on the wire is refused exactly for its class, or because it runs over the end of
      the packet, unless the names in its data are bad. */
  lemma RecordRefused(m: Memory, p: nat, max: nat, name: Name, t: U16, c: U16, len: U16)
    requires NameAtWire(m, p, max, name, MAX_HOPS)
    requires var f := p + Width(m, p, max); Num16(m, f, t) && Num16(m, f + 2, c) && Num16(m, f + 8, len)
    ensures var f := p + Width(m, p, max);
      && (f + 10 > max ==> ParseRr(m, p, max) == Err(EInSize))
      && (f + 10 <= max && c != 1 && t in {1, 2, 5, 12, 28, 33} ==> ParseRr(m, p, max) == Err(EInClass))
      && (f + 10 <= max && (c == 1 || t !in {1, 2, 5, 12, 28, 33}) && f + 10 + len > max ==> ParseRr(m, p, max) == Err(EInSize))
      && (f + 10 + len <= max && (c == 1 || t !in {1, 2, 5, 12, 28, 33}) && t !in {2, 5, 12, 33} ==> ParseRr(m, p, max).Ok?)
  {
    hide ParseName, NameAtWire, Width, Slice;
    WireNameParsed(m, p, max, name);
  }

  // ------------------------------------------------------------------ messages

  ghost predicate QuestionsAt(m: Memory, p: nat, max: nat, qs: seq<Query>, end: nat)
    decreases |qs|
  {
    if qs == [] then end == p
    else exists next: nat :: QuestionAt(m, p, max, qs[0], next) && QuestionsAt(m, next, max, qs[1..], end)
  }

  ghost predicate RecordsAt(m: Memory, p: nat, max: nat, rrs: seq<Rr>, end: nat)
    decreases |rrs|
  {
    if rrs == [] then end == p
    else exists next: nat :: RecordAt(m, p, max, rrs[0], next) && RecordsAt(m, next, max, rrs[1..], end)
  }

  /** A header of six numbers, and the sections it counts. */
  ghost predicate MessageAt(m: Memory, size: nat, p: Packet) {
    && size >= 12
    && Num16(m, 0, p.hdr.id) && Num16(m, 2, p.hdr.flags)
    && Num16(m, 4, |p.q|) && Num16(m, 6, |p.ans|) && Num16(m, 8, |p.ns|) && Num16(m, 10, |p.arr|)
    && p.hdr.qdcount == |p.q| && p.hdr.anscount == |p.ans| && p.hdr.nscount == |p.ns| && p.hdr.arcount == |p.arr|
    && exists a: nat, b: nat, c: nat, d: nat ::
      QuestionsAt(m, 12, size, p.q, a) && RecordsAt(m, a, size, p.ans, b) && RecordsAt(m, b, size, p.ns, c) && RecordsAt(m, c, size, p.arr, d)
  }

  lemma {:induction false} QuestionsParsed(m: Memory, p: nat, max: nat, qs: seq<Query>, end: nat, done: seq<Query>)
    requires QuestionsAt(m, p, max, qs, end)
    ensures ParseMany(QueryReader(m, max), p, |qs|, done) == Ok(Section(done + qs, end))
    decreases |qs|
  {
    hide ParseQuery, QuestionAt;
    if qs == [] {
      assert done + qs == done;
    } else {
      var next: nat :| QuestionAt(m, p, max, qs[0], next) && QuestionsAt(m, next, max, qs[1..], end);
      QuestionParsed(m, p, max, qs[0], next);
      QuestionEnds(m, p, max, qs[0], next);
      QuestionsParsed(m, next, max, qs[1..], end, done + [qs[0]]);
      assert done + [qs[0]] + qs[1..] == done + qs;
    }
  }

  lemma QuestionEnds(m: Memory, p: nat, max: nat, q: Query, end: nat)
    requires QuestionAt(m, p, max, q, end)
    ensures p <= end
  {
  }

  lemma RecordEnds(m: Memory, p: nat, max: nat, rr: Rr, end: nat)
    requires RecordAt(m, p, max, rr, end)
    ensures p <= end
  {
  }

  lemma {:induction false} RecordsParsed(m: Memory, p: nat, max: nat, rrs: seq<Rr>, end: nat, done: seq<Rr>)
    requires RecordsAt(m, p, max, rrs, end)
    ensures ParseMany(RrReader(m, max), p, |rrs|, done) == Ok(Section(done + rrs, end))
    decreases |rrs|
  {
    hide ParseRr, RecordAt;
    if rrs == [] {
      assert done + rrs == done;
    } else {
      var next: nat :| RecordAt(m, p, max, rrs[0], next) && RecordsAt(m, next, max, rrs[1..], end);
      RecordParsed(m, p, max, rrs[0], next);
      RecordEnds(m, p, max, rrs[0], next);
      RecordsParsed(m, next, max, rrs[1..], end, done + [rrs[0]]);
      assert done + [rrs[0]] + rrs[1..] == done + rrs;
    }
  }

  /** Main result.  Every message on the wire is parsed as that message, whatever mixture of labels and
      pointers its names are made of and whatever types its records have. */
  lemma MessageParsed(m: Memory, size: nat, p: Packet)
    requires MessageAt(m, size, p)
    ensures ParsePacket(m, size) == Ok(p)
  {
    hide QuestionsAt, RecordsAt, ParseMany, QueryReader, RrReader;
    var a: nat, b: nat, c: nat, d: nat :|
      QuestionsAt(m, 12, size, p.q, a) && RecordsAt(m, a, size, p.ans, b) && RecordsAt(m, b, size, p.ns, c) && RecordsAt(m, c, size, p.arr, d);
    QuestionsParsed(m, 12, size, p.q, a, []);
    RecordsParsed(m, a, size, p.ans, b, []);
    RecordsParsed(m, b, size, p.ns, c, []);
    RecordsParsed(m, c, size, p.arr, d, []);
    assert [] + p.q == p.q && [] + p.ans == p.ans && [] + p.ns == p.ns && [] + p.arr == p.arr;
  }
}
