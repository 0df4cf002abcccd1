/** Parsing a printed message gives the message back, compressed names included. */
module DnsRoundTrip {
  import opened Bytes
  import opened DnsFormat
  import opened DnsGrammar
  import opened DnsEncoding

  /** The parts of a spelt-out name: length byte, label, and the spelt-out rest. */
  lemma EncodedParts(m: Memory, p: nat, name: Name)
    requires name != [] && FirstDot(name) <= MAX_LABEL_BYTE && Holds(m, p, Encode(name))
    ensures var k, rest := FirstDot(name), AfterLabel(name);
            && m(p) == k && |Encode(name)| == k + 1 + |Encode(rest)|
            && Holds(m, p + 1, name[..k])
            && Holds(m, p + k + 1, Encode(rest))
  {
    hide FirstDot, AfterLabel, Holds;
    var k, rest := FirstDot(name), AfterLabel(name);
    FirstHeld(m, p, Encode(name));
    HoldsConcat(m, p, LabelBytes(name[..k]), Encode(rest));
    HoldsPart(m, p, LabelBytes(name[..k]), 1, k + 1);
    assert LabelBytes(name[..k])[1..k + 1] == name[..k];
  }

  lemma CutAt(name: Name, k: nat)
    requires k < |name|
    ensures name == name[..k] + [name[k]] + name[k + 1..]
  {
  }

  lemma NameParts(name: Name)
    requires name != []
    ensures name == name[..FirstDot(name)] + (if FirstDot(name) < |name| then [DOT] else []) + AfterLabel(name)
  {
    hide FirstDot;
    if FirstDot(name) < |name| {
      CutAt(name, FirstDot(name));
    }
  }

  lemma LabelledParts(name: Name)
    requires name != [] && Labelled(name, MAX_LABEL_BYTE)
    ensures 1 <= FirstDot(name) <= MAX_LABEL_BYTE
    ensures Labelled(AfterLabel(name), MAX_LABEL_BYTE)
    ensures AfterLabel(name) != [] <==> FirstDot(name) < |name|
  {
    hide FirstDot;
  }

  lemma FirstByte(name: Name)
    requires Labelled(name, MAX_LABEL_BYTE)
    ensures Encode(name)[0] != 0 <==> name != []
  {
    hide FirstDot, Encode;
  }

  /** The first label of a spelt-out name, as the parser sees it. */
  lemma EncodedLabelReads(m: Memory, p: nat, name: Name)
    requires name != [] && Labelled(name, MAX_LABEL_BYTE) && Holds(m, p, Encode(name))
    ensures var k, rest := FirstDot(name), AfterLabel(name);
            && 1 <= k <= MAX_LABEL_BYTE && m(p) == k && |Encode(name)| == k + 1 + |Encode(rest)|
            && Holds(m, p + k + 1, Encode(rest)) && Labelled(rest, MAX_LABEL_BYTE)
            && name == Label(m, p) + rest
  {
    hide Labelled, Encode, AfterLabel, FirstDot;
    var k, rest := FirstDot(name), AfterLabel(name);
    LabelledParts(name);
    FirstByte(rest);
    NameParts(name);
    EncodedParts(m, p, name);
    FirstHeld(m, p + k + 1, Encode(rest));
    ReadSlice(m, p + 1, name[..k]);
  }

  /** One label of the measuring and copying loops. */
  lemma LabelStep(rec: nat, m: Memory, p: nat, max: nat)
    requires rec <= MAX_RECURSION && 0 < m(p) <= MAX_LABEL_BYTE && p + m(p) + 1 < max
    ensures var next := p + m(p) + 1;
            && (LabelsLen(rec, m, next, max).Ok? ==>
                LabelsLen(rec, m, p, max) ==
                Ok(NameSize(m(p) + 1 + LabelsLen(rec, m, next, max).value.parsed,
                            |Label(m, p)| + LabelsLen(rec, m, next, max).value.length)))
            && CopyLabels(rec, m, p, max) == CopyLabels(rec, m, next, max).Prepend(Label(m, p))
  {
  }

  /** A spelt-out name is measured and copied back exactly, from any recursion depth. */
  lemma {:induction false} EncodedNameReads(rec: nat, m: Memory, p: nat, max: nat, name: Name)
    requires rec <= MAX_RECURSION && Labelled(name, MAX_LABEL_BYTE)
    requires Holds(m, p, Encode(name)) && p + |Encode(name)| <= max
    ensures LabelsLen(rec, m, p, max) == Ok(NameSize(|Encode(name)|, |name|))
    ensures CopyLabels(rec, m, p, max) == NameCopy(name, None)
    decreases |name|
  {
    hide LabelsLen, CopyLabels, Encode, Label, Holds, Labelled, FirstDot, AfterLabel;
    if name == [] {
      RootReads(rec, m, p, max);
    } else {
      EncodedLabelReads(m, p, name);
      EncodedNameReads(rec, m, p + m(p) + 1, max, AfterLabel(name));
      LabelStep(rec, m, p, max);
    }
  }

  lemma RootReads(rec: nat, m: Memory, p: nat, max: nat)
    requires rec <= MAX_RECURSION && Holds(m, p, [0])
    ensures LabelsLen(rec, m, p, max) == Ok(NameSize(1, 0)) && CopyLabels(rec, m, p, max) == NameCopy([], None)
  {
    FirstHeld(m, p, [0]);
  }

  lemma FirstHeld(m: Memory, p: nat, s: seq<Byte>)
    requires Holds(m, p, s) && s != []
    ensures m(p) == s[0]
  {
    assert m(p + 0) == s[0];
  }

  lemma HoldsConcat(m: Memory, p: nat, a: seq<Byte>, b: seq<Byte>)
    requires Holds(m, p, a + b)
    ensures Holds(m, p, a) && Holds(m, p + |a|, b)
  {
    HoldsPart(m, p, a + b, 0, |a|);
    HoldsPart(m, p, a + b, |a|, |a + b|);
    assert (a + b)[0..|a|] == a && (a + b)[|a|..|a + b|] == b;
  }

  /** An entry names a spot where one of the names, of its length, is spelt out. */
  ghost predicate EntryOk(names: iset<Name>, out: seq<Byte>, e: Entry) {
    exists n :: SpeltAt(names, out, e, n)
  }

  ghost predicate SpeltAt(names: iset<Name>, out: seq<Byte>, e: Entry, n: Name) {
    && n in names && |n| == e.len
    && e.pos + |Encode(n)| <= |out|
    && out[e.pos..e.pos + |Encode(n)|] == Encode(n)
  }

  ghost predicate TableOk(names: iset<Name>, out: seq<Byte>, tab: Table) {
    forall i {:trigger tab[i]} :: 0 <= i < |tab| ==> EntryOk(names, out, tab[i])
  }

  lemma TableGrows(names: iset<Name>, out: seq<Byte>, more: seq<Byte>, tab: Table)
    requires TableOk(names, out, tab) && out <= more
    ensures TableOk(names, more, tab)
  {
    hide Encode;
    forall i | 0 <= i < |tab|
      ensures EntryOk(names, more, tab[i])
    {
      var n :| SpeltAt(names, out, tab[i], n);
      assert SpeltAt(names, more, tab[i], n);
    }
  }

  lemma PointerReads(m: Memory, p: nat, pos: nat)
    requires Holds(m, p, Pointer(pos)) && pos < 0x4000
    ensures m(p) > MAX_LABEL_BYTE && Offset14(m, p) == pos
  {
    assert m(p + 0) == Pointer(pos)[0] && m(p + 1) == Pointer(pos)[1];
  }

  lemma SliceInside(out: seq<Byte>, pos: nat, width: nat, inner: nat)
    requires inner < width && pos + width <= |out|
    ensures out[pos..pos + width][1..1 + inner] == out[pos + 1..pos + 1 + inner]
  {
    var a, b := out[pos..pos + width][1..1 + inner], out[pos + 1..pos + 1 + inner];
    forall i | 0 <= i < inner ensures a[i] == b[i] {
    }
    assert a == b;
  }

  lemma NotMistaken(names: iset<Name>, name: Name, other: Name)
    requires Readable(names) && name in names && other in names && |name| == |other|
    requires Encode(other)[1..1 + |name|] == name
    ensures name == other
  {
    hide Encode, Labelled;
    assert !Clash(name, other);
  }

  /** A table hit leads to the spelt-out form of the very name that was looked up. */
  lemma HitIsTheName(names: iset<Name>, out: seq<Byte>, tab: Table, name: Name) returns (e: Entry)
    requires InRange(tab, |out|) && TableOk(names, out, tab) && name in names && Readable(names)
    requires Find(out, tab, name) < |tab|
    ensures e == tab[Find(out, tab, name)] && SpeltAt(names, out, e, name)
  {
    hide Encode, FindFrom, Readable;
    e := tab[Find(out, tab, name)];
    assert out[e.pos + 1..e.pos + 1 + e.len] == name;
    var n :| SpeltAt(names, out, e, n);
    var code := Encode(n);
    SliceInside(out, e.pos, |code|, |name|);
    NotMistaken(names, name, n);
  }

  /** What PutName places at pos parses as the name and has the measured width. */
  lemma PrintedNameReads(names: iset<Name>, out: seq<Byte>, tab: Table, pos: nat, room: int, name: Name, m: Memory, max: nat)
    requires InRange(tab, |out|) && |out| <= pos && TableOk(names, out, tab) && name in names
    requires Readable(names) && InReach(tab)
    requires PutName(out, tab, pos, room, name).Some?
    requires Holds(m, 0, out)
    requires Holds(m, pos, PutName(out, tab, pos, room, name).value.bytes)
    requires pos + |PutName(out, tab, pos, room, name).value.bytes| <= max
    ensures ParseName(m, pos, max) == Ok(Parsed(name, |PutName(out, tab, pos, room, name).value.bytes|))
  {
    hide Labelled, Encode, FindFrom, Pointer, ParseName, TableOk, InRange;
    if Find(out, tab, name) < |tab| {
      var e := HitIsTheName(names, out, tab, name);
      HoldsPart(m, 0, out, e.pos, e.pos + |Encode(name)|);
      PointerToName(m, pos, max, e.pos, name);
    } else {
      SpeltOutName(m, pos, max, name);
    }
  }

  lemma SpeltOutName(m: Memory, p: nat, max: nat, name: Name)
    requires Labelled(name, MAX_LABEL_BYTE) && Holds(m, p, Encode(name)) && p + |Encode(name)| <= max
    ensures ParseName(m, p, max) == Ok(Parsed(name, |Encode(name)|))
  {
    hide Encode, Labelled, LabelsLen, CopyLabels;
    EncodedNameReads(0, m, p, max, name);
  }

  /** A pointer to a spelt-out name reads as that name. */
  lemma PointerToName(m: Memory, p: nat, max: nat, pos: nat, name: Name)
    requires Holds(m, p, Pointer(pos)) && pos < REACH
    requires Labelled(name, MAX_LABEL_BYTE) && Holds(m, pos, Encode(name)) && pos + |Encode(name)| <= max
    ensures ParseName(m, p, max) == Ok(Parsed(name, 2))
  {
    hide Encode, Labelled;
    PointerReads(m, p, pos);
    EncodedNameReads(1, m, pos, max, name);
  }

  /** The table stays correct once the printed name is in the packet. */
  lemma PrintedNameKeepsTable(names: iset<Name>, out: seq<Byte>, tab: Table, pos: nat, room: int, name: Name, after: seq<Byte>)
    requires InRange(tab, |out|) && |out| <= pos && TableOk(names, out, tab) && name in names
    requires PutName(out, tab, pos, room, name).Some?
    requires out <= after
    requires pos + |PutName(out, tab, pos, room, name).value.bytes| <= |after|
    requires after[pos..pos + |PutName(out, tab, pos, room, name).value.bytes|] ==
             PutName(out, tab, pos, room, name).value.bytes
    ensures TableOk(names, after, PutName(out, tab, pos, room, name).value.tab)
  {
    hide Encode, FindFrom, Pointer;
    TableGrows(names, out, after, tab);
    if Find(out, tab, name) == |tab| {
      var e := Entry(pos, |name|);
      assert PutName(out, tab, pos, room, name).value.bytes == Encode(name);
      assert SpeltAt(names, after, e, name);
    }
  }

  /** A record of class IN with its names in the set and data that a 16-bit length can measure. */
  ghost predicate RrOver(names: iset<Name>, rr: Rr) {
    && WellTyped(rr) && rr.dnsclass == CLASS_IN && rr.name in names
    && (NamesHost(rr.rtype) ==> rr.rdata.target in names && |rr.rdata.target| + 2 <= 0xFFFF)
    && (rr.rtype == TYPE_SRV ==> rr.rdata.host in names && |rr.rdata.host| + 8 <= 0xFFFF)
  }

  /** Equal up to rdlength, which the printer computes and the printed record need not carry. */
  predicate SameRr(a: Rr, b: Rr) {
    a.(rdlength := 0) == b.(rdlength := 0)
  }

  /** Offsets within reach of a 14-bit pointer. */
  const REACH := 0x4000

  /** Every name in the table can be pointed to; so it is in a packet of at most 16384 bytes. */
  predicate InReach(tab: Table) {
    forall i {:trigger tab[i]} :: 0 <= i < |tab| ==> tab[i].pos < REACH
  }

  ghost predicate Good(names: iset<Name>, o: Output) {
    o.Valid() && TableOk(names, o.bytes, o.tab)
  }

  /** The data printed for a record reads back, and its length field is its length. */
  ghost predicate DataReads(o: Output, o': Output, rr: Rr, m: Memory, max: nat)
    requires |o.bytes| + 2 <= |o'.bytes| <= |o.bytes| + 2 + 0xFFFF
  {
    var len := |o'.bytes| - |o.bytes| - 2;
    && Get16(m, |o.bytes|) == len
    && ParseRData(m, |o.bytes| + 2, max, rr.rtype, len) == Ok(Parsed(rr.rdata, len))
  }

  lemma AddressReads(names: iset<Name>, o: Output, rr: Rr, m: Memory, max: nat)
    requires Readable(names) && Good(names, o) && RrOver(names, rr) && rr.rtype == TYPE_A && PutRData(o, rr).Some?
    requires Holds(m, 0, PutRData(o, rr).value.bytes) && InReach(PutRData(o, rr).value.tab)
    ensures Good(names, PutRData(o, rr).value) && DataReads(o, PutRData(o, rr).value, rr, m, max)
  {
    hide ParseName, Put16;
    var p := |o.bytes|;
    HoldsConcat(m, 0, o.bytes, Put16(4) + rr.rdata.ip);
    HoldsConcat(m, p, Put16(4), rr.rdata.ip);
    Read16(m, p, 4);
    ReadSlice(m, p + 2, rr.rdata.ip);
    TableGrows(names, o.bytes, PutRData(o, rr).value.bytes, o.tab);
  }

  lemma TargetReads(names: iset<Name>, o: Output, rr: Rr, m: Memory, max: nat)
    requires Readable(names) && Good(names, o) && RrOver(names, rr) && NamesHost(rr.rtype) && PutRData(o, rr).Some?
    requires Holds(m, 0, PutRData(o, rr).value.bytes) && |PutRData(o, rr).value.bytes| <= max
    requires InReach(PutRData(o, rr).value.tab)
    ensures |PutRData(o, rr).value.bytes| >= |o.bytes| + 2
    ensures Good(names, PutRData(o, rr).value) && DataReads(o, PutRData(o, rr).value, rr, m, max)
  {
    hide ParseName, PutName, Put16;
    var p := |o.bytes|;
    var n := PutName(o.bytes, o.tab, p + 2, o.room - 2, rr.rdata.target).value;
    PutNameInRange(o.bytes, o.tab, p + 2, o.room - 2, rr.rdata.target);
    var w := Put16(Low16(|n.bytes|));
    var after := o.bytes + (w + n.bytes);
    HoldsConcat(m, 0, o.bytes, w + n.bytes);
    HoldsConcat(m, p, w, n.bytes);
    Read16(m, p, Low16(|n.bytes|));
    PrintedNameReads(names, o.bytes, o.tab, p + 2, o.room - 2, rr.rdata.target, m, max);
    assert after[p + 2..p + 2 + |n.bytes|] == n.bytes;
    PrintedNameKeepsTable(names, o.bytes, o.tab, p + 2, o.room - 2, rr.rdata.target, after);
  }

  lemma ServiceFixedReads(m: Memory, p: nat, d: RData)
    requires d.Service? && Holds(m, p, PutServiceFixed(d))
    ensures Get16(m, p) == d.prio && Get16(m, p + 2) == d.weight && Get16(m, p + 4) == d.port
  {
    hide Put16, Holds;
    HoldsConcat(m, p, Put16(d.prio) + Put16(d.weight), Put16(d.port));
    HoldsConcat(m, p, Put16(d.prio), Put16(d.weight));
    Read16(m, p, d.prio);
    Read16(m, p + 2, d.weight);
    Read16(m, p + 4, d.port);
  }

  lemma ServiceReads(names: iset<Name>, o: Output, rr: Rr, m: Memory, max: nat)
    requires Readable(names) && Good(names, o) && RrOver(names, rr) && rr.rtype == TYPE_SRV && PutRData(o, rr).Some?
    requires Holds(m, 0, PutRData(o, rr).value.bytes) && |PutRData(o, rr).value.bytes| <= max
    requires InReach(PutRData(o, rr).value.tab)
    ensures |PutRData(o, rr).value.bytes| >= |o.bytes| + 2
    ensures Good(names, PutRData(o, rr).value) && DataReads(o, PutRData(o, rr).value, rr, m, max)
  {
    hide ParseName, PutName, Put16, Holds, PutServiceFixed;
    var p := |o.bytes|;
    var n := PutName(o.bytes, o.tab, p + 8, o.room - 8, rr.rdata.host).value;
    PutNameInRange(o.bytes, o.tab, p + 8, o.room - 8, rr.rdata.host);
    var w, fixed := Put16(Low16(|n.bytes| + 6)), PutServiceFixed(rr.rdata);
    var after := o.bytes + (w + fixed + n.bytes);
    HoldsConcat(m, 0, o.bytes, w + fixed + n.bytes);
    HoldsConcat(m, p, w + fixed, n.bytes);
    HoldsConcat(m, p, w, fixed);
    Read16(m, p, Low16(|n.bytes| + 6));
    ServiceFixedReads(m, p + 2, rr.rdata);
    PrintedNameReads(names, o.bytes, o.tab, p + 8, o.room - 8, rr.rdata.host, m, max);
    assert after[p + 8..p + 8 + |n.bytes|] == n.bytes;
    PrintedNameKeepsTable(names, o.bytes, o.tab, p + 8, o.room - 8, rr.rdata.host, after);
  }

  lemma PrintedDataReads(names: iset<Name>, o: Output, rr: Rr, m: Memory, max: nat)
    requires Readable(names) && Good(names, o) && RrOver(names, rr) && PutRData(o, rr).Some?
    requires Holds(m, 0, PutRData(o, rr).value.bytes) && |PutRData(o, rr).value.bytes| <= max
    requires InReach(PutRData(o, rr).value.tab)
    ensures |PutRData(o, rr).value.bytes| >= |o.bytes| + 2
    ensures Good(names, PutRData(o, rr).value) && DataReads(o, PutRData(o, rr).value, rr, m, max)
  {
    if rr.rtype == TYPE_A {
      AddressReads(names, o, rr, m, max);
    } else if NamesHost(rr.rtype) {
      TargetReads(names, o, rr, m, max);
    } else {
      ServiceReads(names, o, rr, m, max);
    }
  }

  /** The name and the fixed fields at the head of a record. */
  lemma PrintedHeadReads(names: iset<Name>, o: Output, rr: Rr, m: Memory, max: nat) returns (mid: Output)
    requires Readable(names) && Good(names, o) && RrOver(names, rr) && PutRr(o, rr).Some?
    requires Holds(m, 0, PutRr(o, rr).value.bytes) && |PutRr(o, rr).value.bytes| <= max
    requires InReach(PutRr(o, rr).value.tab)
    ensures Good(names, mid) && PutRr(o, rr) == PutRData(mid, rr) && |mid.bytes| >= |o.bytes| + 8
    ensures var p := |mid.bytes| - 8;
            && ParseName(m, |o.bytes|, max) == Ok(Parsed(rr.name, p - |o.bytes|))
            && Get16(m, p) == rr.rtype && Get16(m, p + 2) == rr.dnsclass && Get32(m, p + 4) == rr.ttl
  {
    hide ParseName, PutName, Put16, Put32, Holds, PutRData;
    var n := PutName(o.bytes, o.tab, |o.bytes|, o.room, rr.name).value;
    PutNameInRange(o.bytes, o.tab, |o.bytes|, o.room, rr.name);
    var all := PutRr(o, rr).value.bytes;
    mid := Output(o.bytes + (n.bytes + PutFixed(rr)), n.tab, o.room - |n.bytes| - 8);
    var p := |o.bytes| + |n.bytes|;
    assert all == mid.bytes + all[|mid.bytes|..];
    HoldsConcat(m, 0, mid.bytes, all[|mid.bytes|..]);
    HoldsConcat(m, 0, o.bytes, n.bytes + PutFixed(rr));
    HoldsConcat(m, |o.bytes|, n.bytes, PutFixed(rr));
    FixedReads(m, p, rr);
    PrintedNameReads(names, o.bytes, o.tab, |o.bytes|, o.room, rr.name, m, max);
    assert mid.bytes[|o.bytes|..p] == n.bytes;
    PrintedNameKeepsTable(names, o.bytes, o.tab, |o.bytes|, o.room, rr.name, mid.bytes);
  }

  lemma FixedReads(m: Memory, p: nat, rr: Rr)
    requires Holds(m, p, PutFixed(rr))
    ensures Get16(m, p) == rr.rtype && Get16(m, p + 2) == rr.dnsclass && Get32(m, p + 4) == rr.ttl
  {
    hide Holds, Put16, Put32;
    HoldsConcat(m, p, Put16(rr.rtype) + Put16(rr.dnsclass), Put32(rr.ttl));
    HoldsConcat(m, p, Put16(rr.rtype), Put16(rr.dnsclass));
    Read16(m, p, rr.rtype);
    Read16(m, p + 2, rr.dnsclass);
    Read32(m, p + 4, rr.ttl);
  }

  /** A printed record parses back, up to rdlength, wherever the packet ends. */
  lemma PrintedRrReads(names: iset<Name>, o: Output, rr: Rr, m: Memory, max: nat)
    requires Readable(names) && Good(names, o) && RrOver(names, rr) && PutRr(o, rr).Some?
    requires Holds(m, 0, PutRr(o, rr).value.bytes) && |PutRr(o, rr).value.bytes| <= max
    requires InReach(PutRr(o, rr).value.tab)
    ensures Good(names, PutRr(o, rr).value) && |o.bytes| <= |PutRr(o, rr).value.bytes|
    ensures ParseRr(m, |o.bytes|, max).Ok?
    ensures SameRr(ParseRr(m, |o.bytes|, max).value.item, rr)
    ensures ParseRr(m, |o.bytes|, max).value.len == |PutRr(o, rr).value.bytes| - |o.bytes|
  {
    hide ParseName, PutRr, PutRData, ParseRData, Good, Holds, Get16, Get32;
    var mid := PrintedHeadReads(names, o, rr, m, max);
    PrintedDataReads(names, mid, rr, m, max);
  }

  lemma PrintedQueryReads(names: iset<Name>, o: Output, q: Query, m: Memory, max: nat)
    requires Readable(names) && Good(names, o) && q.name in names && PutQuery(o, q).Some?
    requires Holds(m, 0, PutQuery(o, q).value.bytes) && |PutQuery(o, q).value.bytes| <= max
    requires InReach(PutQuery(o, q).value.tab)
    ensures Good(names, PutQuery(o, q).value) && |o.bytes| <= |PutQuery(o, q).value.bytes|
    ensures ParseQuery(m, |o.bytes|, max) == Ok(Parsed(q, |PutQuery(o, q).value.bytes| - |o.bytes|))
  {
    hide ParseName, PutName, Put16, Holds;
    var n := PutName(o.bytes, o.tab, |o.bytes|, o.room, q.name).value;
    PutNameInRange(o.bytes, o.tab, |o.bytes|, o.room, q.name);
    var fixed := Put16(q.qtype) + Put16(q.dnsclass);
    var after := o.bytes + (n.bytes + fixed);
    var p := |o.bytes| + |n.bytes|;
    HoldsConcat(m, 0, o.bytes, n.bytes + fixed);
    HoldsConcat(m, |o.bytes|, n.bytes, fixed);
    HoldsConcat(m, p, Put16(q.qtype), Put16(q.dnsclass));
    Read16(m, p, q.qtype);
    Read16(m, p + 2, q.dnsclass);
    PrintedNameReads(names, o.bytes, o.tab, |o.bytes|, o.room, q.name, m, max);
    assert after[|o.bytes|..p] == n.bytes;
    PrintedNameKeepsTable(names, o.bytes, o.tab, |o.bytes|, o.room, q.name, after);
  }

  ghost predicate RrsOver(names: iset<Name>, rrs: seq<Rr>) {
    forall i {:trigger rrs[i]} :: 0 <= i < |rrs| ==> RrOver(names, rrs[i])
  }

  ghost predicate QueriesOver(names: iset<Name>, qs: seq<Query>) {
    forall i {:trigger qs[i]} :: 0 <= i < |qs| ==> qs[i].name in names
  }

  predicate SameRrs(a: seq<Rr>, b: seq<Rr>) {
    |a| == |b| && forall i {:trigger a[i]} {:trigger b[i]} :: 0 <= i < |a| ==> SameRr(a[i], b[i])
  }

  lemma {:induction false} PrintedQueriesRead(names: iset<Name>, o: Output, qs: seq<Query>, m: Memory, max: nat, done: seq<Query>)
    requires Readable(names) && Good(names, o) && QueriesOver(names, qs) && PutQueries(o, qs).Some?
    requires Holds(m, 0, PutQueries(o, qs).value.bytes) && |PutQueries(o, qs).value.bytes| <= max
    requires InReach(PutQueries(o, qs).value.tab)
    ensures Good(names, PutQueries(o, qs).value)
    ensures ParseMany(QueryReader(m, max), |o.bytes|, |qs|, done)
         == Ok(Section(done + qs, |PutQueries(o, qs).value.bytes|))
    decreases |qs|
  {
    hide PutQuery, ParseQuery, TableOk;
    if qs == [] {
      assert done + qs == done;
    } else {
      var o1, all := PutQuery(o, qs[0]).value, PutQueries(o, qs).value.bytes;
      HoldsPart(m, 0, all, 0, |o1.bytes|);
      assert all[0..|o1.bytes|] == o1.bytes;
      PrintedQueryReads(names, o, qs[0], m, max);
      PrintedQueriesRead(names, o1, qs[1..], m, max, done + [qs[0]]);
      assert done + [qs[0]] + qs[1..] == done + qs;
    }
  }

  /** `done` stands for records already read, `printed` for what they were printed from. */
  lemma {:induction false} PrintedRrsRead(names: iset<Name>, o: Output, rrs: seq<Rr>, m: Memory, max: nat, done: seq<Rr>, printed: seq<Rr>)
    requires Readable(names) && Good(names, o) && RrsOver(names, rrs) && AllWellTyped(rrs) && PutRrs(o, rrs).Some? && SameRrs(done, printed)
    requires Holds(m, 0, PutRrs(o, rrs).value.bytes) && |PutRrs(o, rrs).value.bytes| <= max
    requires InReach(PutRrs(o, rrs).value.tab)
    ensures Good(names, PutRrs(o, rrs).value)
    ensures ParseMany(RrReader(m, max), |o.bytes|, |rrs|, done).Ok?
    ensures ParseMany(RrReader(m, max), |o.bytes|, |rrs|, done).value.next == |PutRrs(o, rrs).value.bytes|
    ensures SameRrs(ParseMany(RrReader(m, max), |o.bytes|, |rrs|, done).value.items, printed + rrs)
    decreases |rrs|
  {
    hide PutRr, ParseRr, RrOver, SameRr, TableOk;
    if rrs == [] {
      assert printed + rrs == printed;
    } else {
      var o1, all := PutRr(o, rrs[0]).value, PutRrs(o, rrs).value.bytes;
      HoldsPart(m, 0, all, 0, |o1.bytes|);
      assert all[0..|o1.bytes|] == o1.bytes;
      PrintedRrReads(names, o, rrs[0], m, max);
      var r := ParseRr(m, |o.bytes|, max).value.item;
      PrintedRrsRead(names, o1, rrs[1..], m, max, done + [r], printed + [rrs[0]]);
      assert printed + [rrs[0]] + rrs[1..] == printed + rrs;
    }
  }

  lemma PrintedHeaderReads(h: Header, m: Memory)
    requires Holds(m, 0, PutHeader(h))
    ensures ParseHeader(m) == h
  {
    hide Holds, Put16;
    var a, b, c, d, e, f := Put16(h.id), Put16(h.flags), Put16(h.qdcount), Put16(h.anscount), Put16(h.nscount), Put16(h.arcount);
    HoldsConcat(m, 0, a + b + c + d + e, f);
    HoldsConcat(m, 0, a + b + c + d, e);
    HoldsConcat(m, 0, a + b + c, d);
    HoldsConcat(m, 0, a + b, c);
    HoldsConcat(m, 0, a, b);
    Read16(m, 0, h.id);
    Read16(m, 2, h.flags);
    Read16(m, 4, h.qdcount);
    Read16(m, 6, h.anscount);
    Read16(m, 8, h.nscount);
    Read16(m, 10, h.arcount);
  }

  ghost predicate Over(names: iset<Name>, p: Packet) {
    MessageOk(p) && QueriesOver(names, p.q) && RrsOver(names, p.ans) && RrsOver(names, p.ns) && RrsOver(names, p.arr)
  }

  /** Equal header and queries, and equal records up to rdlength in every section. */
  predicate SameMessage(a: Packet, b: Packet) {
    a.hdr == b.hdr && a.q == b.q && SameRrs(a.ans, b.ans) && SameRrs(a.ns, b.ns) && SameRrs(a.arr, b.arr)
  }

  lemma HoldsPrefix(m: Memory, s: seq<Byte>, t: seq<Byte>)
    requires Holds(m, 0, t) && s <= t
    ensures Holds(m, 0, s)
  {
    HoldsPart(m, 0, t, 0, |s|);
    assert t[0..|s|] == s;
  }

  /** Whatever the printer makes of a message over readable names, with or without compression, the
      parser turns back into that message; bytes past the printed end do not matter. */
  lemma PrintThenParse(names: iset<Name>, p: Packet, size: int, m: Memory)
    requires Readable(names) && Over(names, p) && PutPacket(p, size).Some?
    requires InReach(PutPacket(p, size).value.tab)
    requires Holds(m, 0, PutPacket(p, size).value.bytes)
    ensures ParsePacket(m, |PutPacket(p, size).value.bytes|).Ok?
    ensures SameMessage(ParsePacket(m, |PutPacket(p, size).value.bytes|).value, p)
  {
    hide RrOver, WellTyped, PutQueries, PutRrs, Holds, ParseMany;
    var o0 := Output(PutHeader(p.hdr), [], size - HEADER_SIZE);
    var o1 := PutQueries(o0, p.q).value;
    var o2 := PutRrs(o1, p.ans).value;
    var o3 := PutRrs(o2, p.ns).value;
    var o4 := PutRrs(o3, p.arr).value;
    var max := |o4.bytes|;
    HoldsPrefix(m, o3.bytes, o4.bytes);
    HoldsPrefix(m, o2.bytes, o3.bytes);
    HoldsPrefix(m, o1.bytes, o2.bytes);
    HoldsPrefix(m, o0.bytes, o1.bytes);
    PrintedHeaderReads(p.hdr, m);
    PrintedQueriesRead(names, o0, p.q, m, max, []);
    PrintedRrsRead(names, o1, p.ans, m, max, [], []);
    PrintedRrsRead(names, o2, p.ns, m, max, [], []);
    PrintedRrsRead(names, o3, p.arr, m, max, [], []);
    assert [] + p.q == p.q && [] + p.ans == p.ans && [] + p.ns == p.ns && [] + p.arr == p.arr;
  }
}
