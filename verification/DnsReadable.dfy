/** For which names parsing undoes printing: the exact condition, and a family of legal host
    names that does not meet it. */
module DnsReadable {
  import opened Bytes
  import opened DnsFormat
  import opened DnsGrammar
  import opened DnsEncoding
  import opened DnsRoom
  import opened DnsRoundTrip

  /** The message is one over these names that the printer can print in `size` bytes. */
  ghost predicate Printed(names: iset<Name>, p: Packet, size: int) {
    Over(names, p) && PutPacket(p, size).Some? && InReach(PutPacket(p, size).value.tab)
  }

  /** Parsing the printed message gives the message back. */
  ghost predicate ReadsBack(p: Packet, size: int, m: Memory)
    requires MessageOk(p) && PutPacket(p, size).Some?
  {
    var r := ParsePacket(m, |PutPacket(p, size).value.bytes|);
    r.Ok? && SameMessage(r.value, p)
  }

  /** Parsing gives back every message over these names, whatever follows it in memory. */
  ghost predicate RoundTrips(names: iset<Name>) {
    forall p, size, m {:trigger Printed(names, p, size), ReadsBack(p, size, m)} ::
      Printed(names, p, size) && Holds(m, 0, PutPacket(p, size).value.bytes) ==> ReadsBack(p, size, m)
  }

  /** No name that the parser spells starts with a label of more than 191 bytes. */
  lemma {:induction false} SpelledShort(rec: nat, m: Memory, p: nat, max: nat)
    requires rec <= MAX_RECURSION
    ensures FirstDot(CopyLabels(rec, m, p, max).text) <= MAX_LABEL_BYTE
    decreases MAX_RECURSION - rec, if p < max then max - p else 0
  {
    hide FirstDot;
    var b, next := m(p), p + m(p) + 1;
    if b > MAX_LABEL_BYTE {
      if Offset14(m, p) < max && rec < MAX_RECURSION {
        SpelledShort(rec + 1, m, Offset14(m, p), max);
      }
    } else if 0 < b <= max {
      var text := CopyLabels(rec, m, p, max).text;
      assert m(next) != 0 ==> text[b] == DOT;
      assert m(next) == 0 ==> |text| == b;
    }
  }

  /** A name with an empty label, a dot at its end or a label of more than 191 bytes is not read
      back from its stored form, wherever that lies. */
  lemma {:induction false} UnlabelledMisread(rec: nat, m: Memory, p: nat, max: nat, name: Name)
    requires rec <= MAX_RECURSION && !Labelled(name, MAX_LABEL_BYTE) && Holds(m, p, Encode(name))
    ensures CopyLabels(rec, m, p, max) != NameCopy(name, None)
    decreases |name|
  {
    hide FirstDot, Encode, Holds;
    var k, rest := FirstDot(name), AfterLabel(name);
    if k > MAX_LABEL_BYTE {
      SpelledShort(rec, m, p, max);
    } else {
      EncodedParts(m, p, name);
      if k > 0 && k <= max && p + k + 1 < max {
        FirstHeld(m, p + k + 1, Encode(rest));
        ReadSlice(m, p + 1, name[..k]);
        CutAt(name, k);
        if m(p + k + 1) != 0 {
          RestMisread(rec, m, p, max, name);
        }
      }
    }
  }

  /** The step behind the first label. */
  lemma {:induction false} RestMisread(rec: nat, m: Memory, p: nat, max: nat, name: Name)
    requires rec <= MAX_RECURSION && !Labelled(name, MAX_LABEL_BYTE)
    requires var k := FirstDot(name); 0 < k < |name| && k <= MAX_LABEL_BYTE && k <= max && p + k + 1 < max
    requires var k := FirstDot(name);
      m(p) == k && m(p + k + 1) != 0 && Slice(m, p + 1, k) == name[..k] && Holds(m, p + k + 1, Encode(AfterLabel(name)))
    requires Encode(AfterLabel(name))[0] != 0
    ensures CopyLabels(rec, m, p, max) != NameCopy(name, None)
    decreases |name|, 0
  {
    hide FirstDot, Encode, Holds, CopyLabels;
    var k, rest := FirstDot(name), AfterLabel(name);
    assert rest != [];
    UnlabelledMisread(rec, m, p + k + 1, max, rest);
    LabelStep(rec, m, p, max);
    NameParts(name);
    var head := name[..k] + [DOT];
    assert Label(m, p) == head;
    var c := CopyLabels(rec, m, p + k + 1, max);
    if head + c.text == head + rest {
      assert c.text == (head + c.text)[|head|..] == (head + rest)[|head|..] == rest;
    }
  }

  function MemoryOf(s: seq<Byte>): (m: Memory)
    ensures Holds(m, 0, s)
  {
    (i: nat) => if i < |s| then s[i] else 0
  }

  /** A message of questions only. */
  function Questions(qs: seq<Query>): (p: Packet)
    requires |qs| <= 0xFFFF
    ensures MessageOk(p)
  {
    Packet(Header(0, 0, |qs|, 0, 0, 0), qs, [], [], [])
  }

  function Ask(name: Name): Query {
    Query(name, TYPE_A, CLASS_IN)
  }

  /** Type and class of such a question. */
  function Asked(): (s: seq<Byte>)
    ensures |s| == 4
  {
    Put16(TYPE_A) + Put16(CLASS_IN)
  }

  /** A size that is enough for these questions. */
  function Ample(qs: seq<Query>): nat {
    HEADER_SIZE + QueriesNeed(qs) + 6
  }

  lemma QuestionsPrinted(qs: seq<Query>, size: int)
    requires |qs| <= 0xFFFF && size >= HEADER_SIZE + QueriesNeed(qs)
    ensures var o0 := Output(PutHeader(Questions(qs).hdr), [], size - HEADER_SIZE);
            PutQueries(o0, qs).Some? && PutPacket(Questions(qs), size) == PutQueries(o0, qs)
  {
    hide PutQueries, PutHeader;
    QueriesFit(Output(PutHeader(Questions(qs).hdr), [], size - HEADER_SIZE), qs);
  }

  /** What the parser makes of printed questions hangs on its loop over the questions. */
  lemma QuestionsParsed(qs: seq<Query>, m: Memory, max: nat)
    requires |qs| <= 0xFFFF && max >= HEADER_SIZE && Holds(m, 0, PutHeader(Questions(qs).hdr))
    ensures var h, r := Questions(qs).hdr, ParseQueries(m, HEADER_SIZE, max, |qs|);
      ParsePacket(m, max) == if r.Ok? then Ok(Packet(h, r.value.items, [], [], [])) else Err(r.status)
  {
    hide PutHeader, Holds, ParseQueries;
    PrintedHeaderReads(Questions(qs).hdr, m);
  }

  lemma OneUnread(m: Memory, max: nat, q: Query)
    requires var r := ParseName(m, HEADER_SIZE, max); r.Err? || r.value.item != q.name
    ensures var r := ParseQueries(m, HEADER_SIZE, max, 1); r.Err? || r.value.items != [q]
  {
    hide ParseName;
    var item := QueryReader(m, max);
    var x := item(HEADER_SIZE);
    if x.Ok? {
      assert ParseMany(item, HEADER_SIZE + x.value.len, 0, [] + [x.value.item]).value.items == [x.value.item];
    }
  }

  /** A question for a name that is not properly labelled never reads back. */
  lemma UnlabelledFails(name: Name, m: Memory)
    requires !Labelled(name, MAX_LABEL_BYTE)
    ensures var p, size := Questions([Ask(name)]), Ample([Ask(name)]);
      && Printed(iset{name}, p, size)
      && (Holds(m, 0, PutPacket(p, size).value.bytes) ==> !ReadsBack(p, size, m))
  {
    hide Labelled, Encode, PutHeader, ParseQueries, CopyLabels, LabelsLen, Holds;
    var qs := [Ask(name)];
    var p, size := Questions(qs), Ample(qs);
    QuestionsPrinted(qs, size);
    var o0 := Output(PutHeader(p.hdr), [], size - HEADER_SIZE);
    var out := PutPacket(p, size).value;
    assert Find(o0.bytes, o0.tab, name) == 0;
    assert out == PutQuery(o0, qs[0]).value;
    if Holds(m, 0, out.bytes) {
      HoldsConcat(m, 0, o0.bytes, Encode(name) + Asked());
      HoldsConcat(m, HEADER_SIZE, Encode(name), Asked());
      UnlabelledMisread(0, m, HEADER_SIZE, |out.bytes|, name);
      OneUnread(m, |out.bytes|, qs[0]);
      QuestionsParsed(qs, m, |out.bytes|);
    }
  }

  lemma TwoRead(m: Memory, max: nat, q: Query, r: Query, len: nat, len': nat)
    requires ParseQuery(m, HEADER_SIZE, max) == Ok(Parsed(q, len))
    requires ParseQuery(m, HEADER_SIZE + len, max) == Ok(Parsed(r, len'))
    ensures ParseQueries(m, HEADER_SIZE, max, 2) == Ok(Section([q, r], HEADER_SIZE + len + len'))
  {
    hide ParseQuery;
    var item := QueryReader(m, max);
    assert item(HEADER_SIZE) == Ok(Parsed(q, len)) && item(HEADER_SIZE + len) == Ok(Parsed(r, len'));
    assert [] + [q] + [r] == [q, r];
    assert ParseMany(item, HEADER_SIZE + len + len', 0, [] + [q] + [r]) == Ok(Section([q, r], HEADER_SIZE + len + len'));
    assert ParseMany(item, HEADER_SIZE + len, 1, [] + [q]) == Ok(Section([q, r], HEADER_SIZE + len + len'));
  }

  lemma FoundFirst(out: seq<Byte>, e: Entry, name: Name)
    requires e.pos + 1 + e.len <= |out| && out[e.pos + 1..e.pos + 1 + e.len] == name
    ensures Find(out, [e], name) == 0
  {
  }

  lemma AskedBehind(o: Output, name: Name, n: PrintedName)
    requires o.Valid() && PutName(o.bytes, o.tab, |o.bytes|, o.room, name) == Some(n) && o.room >= |n.bytes| + 4
    ensures PutQuery(o, Ask(name)) == Some(Output(o.bytes + (n.bytes + Asked()), n.tab, o.room - |n.bytes|))
  {
    hide PutName, Put16;
  }

  lemma BehindLength(out: seq<Byte>, pos: nat, code: seq<Byte>, name: Name)
    requires |name| < |code| && code[1..1 + |name|] == name
    requires pos + |code| <= |out| && out[pos..pos + |code|] == code
    ensures out[pos + 1..pos + 1 + |name|] == name
  {
    SliceInside(out, pos, |code|, |name|);
  }

  lemma ClashFound(out: seq<Byte>, a: Name, b: Name, room: int)
    requires Clash(a, b) && HEADER_SIZE + |Encode(b)| <= |out|
    requires out[HEADER_SIZE..HEADER_SIZE + |Encode(b)|] == Encode(b)
    ensures InRange([Entry(HEADER_SIZE, |b|)], |out|)
    ensures PutName(out, [Entry(HEADER_SIZE, |b|)], |out|, room, a) ==
            Some(PrintedName(Pointer(HEADER_SIZE), [Entry(HEADER_SIZE, |b|)]))
  {
    hide Encode, Pointer, Find;
    BehindLength(out, HEADER_SIZE, Encode(b), a);
    hide Clash;
    FoundFirst(out, Entry(HEADER_SIZE, |b|), a);
  }

  /** A name that clashes with the only name in the table is printed as a pointer to that one. */
  lemma PrintedAsPointer(o: Output, a: Name, b: Name)
    requires o.Valid() && o.tab == [Entry(HEADER_SIZE, |b|)] && Clash(a, b) && o.room >= 6
    requires HEADER_SIZE + |Encode(b)| <= |o.bytes| && o.bytes[HEADER_SIZE..HEADER_SIZE + |Encode(b)|] == Encode(b)
    ensures PutQuery(o, Ask(a)) ==
      Some(Output(o.bytes + (Pointer(HEADER_SIZE) + Asked()), o.tab, o.room - 2))
  {
    hide Encode, Pointer, PutName, PutQuery, Asked, Clash;
    ClashFound(o.bytes, a, b, o.room);
    AskedBehind(o, a, PrintedName(Pointer(HEADER_SIZE), o.tab));
  }

  lemma QuestionReads(m: Memory, p: nat, max: nat, name: Name, width: nat)
    requires ParseName(m, p, max) == Ok(Parsed(name, width)) && Holds(m, p + width, Asked())
    ensures ParseQuery(m, p, max) == Ok(Parsed(Ask(name), width + 4))
  {
    hide ParseName, Put16, Holds;
    HoldsConcat(m, p + width, Put16(TYPE_A), Put16(CLASS_IN));
    Read16(m, p + width, TYPE_A);
    Read16(m, p + width + 2, CLASS_IN);
  }

  /** The stored form of `b` and a pointer to it are read as two questions for `b`. */
  lemma PointerRead(m: Memory, header: seq<Byte>, b: Name)
    requires |header| == HEADER_SIZE && Labelled(b, MAX_LABEL_BYTE)
    requires Holds(m, 0, header + (Encode(b) + Asked()) + (Pointer(HEADER_SIZE) + Asked()))
    ensures var max := |header + (Encode(b) + Asked()) + (Pointer(HEADER_SIZE) + Asked())|;
            ParseQueries(m, HEADER_SIZE, max, 2) == Ok(Section([Ask(b), Ask(b)], max))
  {
    hide Labelled, Encode, ParseQuery, ParseName, ParseQueries, Holds, Pointer, Put16, Asked;
    var first, second := header + (Encode(b) + Asked()), Pointer(HEADER_SIZE) + Asked();
    var p, max := HEADER_SIZE + |Encode(b)| + 4, |first + second|;
    HoldsConcat(m, 0, first, second);
    HoldsConcat(m, 0, header, Encode(b) + Asked());
    HoldsConcat(m, HEADER_SIZE, Encode(b), Asked());
    HoldsConcat(m, |first|, Pointer(HEADER_SIZE), Asked());
    SpeltOutName(m, HEADER_SIZE, max, b);
    QuestionReads(m, HEADER_SIZE, max, b, |Encode(b)|);
    PointerToName(m, |first|, max, HEADER_SIZE, b);
    QuestionReads(m, |first|, max, b, 2);
    TwoRead(m, max, Ask(b), Ask(b), |Encode(b)| + 4, 6);
  }

  lemma FirstAsked(o: Output, b: Name)
    requires o.tab == [] && o.Valid() && o.room >= NameNeed(b) + 4 && |o.bytes| == HEADER_SIZE
    ensures PutQuery(o, Ask(b)) ==
      Some(Output(o.bytes + (Encode(b) + Asked()), [Entry(HEADER_SIZE, |b|)], o.room - |Encode(b)|))
  {
    hide Encode, FindFrom, PutQuery, Asked;
    var entry := Entry(HEADER_SIZE, |b|);
    assert [] + [entry] == [entry];
    AskedBehind(o, b, PrintedName(Encode(b), [entry]));
  }

  lemma TwoPrinted(o0: Output, o1: Output, o2: Output, q: Query, r: Query)
    requires o0.Valid() && PutQuery(o0, q) == Some(o1) && PutQuery(o1, r) == Some(o2)
    ensures PutQueries(o0, [q, r]) == Some(o2)
  {
    hide PutQuery;
    assert [q, r][1..] == [r] && [r][1..] == [];
    assert PutQueries(o2, []) == Some(o2);
    assert PutQueries(o1, [r]) == Some(o2);
  }

  lemma ClashPrinted(a: Name, b: Name)
    requires Clash(a, b)
    ensures var p, size := Questions([Ask(b), Ask(a)]), Ample([Ask(b), Ask(a)]);
      && Printed(iset{a, b}, p, size)
      && PutPacket(p, size).value.bytes ==
         PutHeader(p.hdr) + (Encode(b) + Asked()) + (Pointer(HEADER_SIZE) + Asked())
  {
    hide Encode, PutHeader, Pointer, PutQuery, PutQueries, Asked;
    var qs := [Ask(b), Ask(a)];
    var size := Ample(qs);
    assert qs[1..] == [Ask(a)];
    QuestionsPrinted(qs, size);
    var o0 := Output(PutHeader(Questions(qs).hdr), [], size - HEADER_SIZE);
    FirstAsked(o0, b);
    var o1 := PutQuery(o0, Ask(b)).value;
    assert o1.bytes[HEADER_SIZE..HEADER_SIZE + |Encode(b)|] == Encode(b);
    PrintedAsPointer(o1, a, b);
    TwoPrinted(o0, o1, PutQuery(o1, Ask(a)).value, Ask(b), Ask(a));
  }

  /** The question for `b` followed by the one for a name that clashes with it: both are read as
      questions for `b`. */
  lemma ClashFails(a: Name, b: Name, m: Memory)
    requires Labelled(b, MAX_LABEL_BYTE) && Clash(a, b)
    ensures var p, size := Questions([Ask(b), Ask(a)]), Ample([Ask(b), Ask(a)]);
      && Printed(iset{a, b}, p, size)
      && (Holds(m, 0, PutPacket(p, size).value.bytes) ==>
          && ParsePacket(m, |PutPacket(p, size).value.bytes|) == Ok(p.(q := [Ask(b), Ask(b)]))
          && !ReadsBack(p, size, m))
  {
    hide Labelled, Encode, PutHeader, ParsePacket, ParseQueries, Holds, Pointer, PutPacket;
    ClashPrinted(a, b);
    var qs := [Ask(b), Ask(a)];
    var bytes := PutPacket(Questions(qs), Ample(qs)).value.bytes;
    if Holds(m, 0, bytes) {
      var h := PutHeader(Questions(qs).hdr);
      HoldsConcat(m, 0, h + (Encode(b) + Asked()), Pointer(HEADER_SIZE) + Asked());
      HoldsConcat(m, 0, h, Encode(b) + Asked());
      PointerRead(m, h, b);
      QuestionsParsed(qs, m, |bytes|);
      assert [Ask(b), Ask(b)][1] != qs[1];
    }
  }

  lemma PrintedMore(few: iset<Name>, names: iset<Name>, p: Packet, size: int)
    requires few <= names && Printed(few, p, size)
    ensures Printed(names, p, size)
  {
    hide PutPacket;
  }

  /** Main result.  Parsing undoes printing for all messages over a set of names if and only if
      their labels have 1 to 191 bytes and none of them clashes with another. */
  lemma RoundTripIff(names: iset<Name>)
    ensures RoundTrips(names) <==> Readable(names)
  {
    hide Labelled, Encode, PutPacket, PutQueries, ParsePacket, Holds, Clash, QueriesNeed;
    if Readable(names) {
      forall p, size, m {:trigger Printed(names, p, size), ReadsBack(p, size, m)}
        | Printed(names, p, size) && Holds(m, 0, PutPacket(p, size).value.bytes)
        ensures ReadsBack(p, size, m)
      {
        PrintThenParse(names, p, size, m);
      }
    } else {
      var qs: seq<Query>;
      if n :| n in names && !Labelled(n, MAX_LABEL_BYTE) {
        qs := [Ask(n)];
        QuestionsPrinted(qs, Ample(qs));
        UnlabelledFails(n, MemoryOf(PutPacket(Questions(qs), Ample(qs)).value.bytes));
        PrintedMore(iset{n}, names, Questions(qs), Ample(qs));
      } else {
        var a, b :| a in names && b in names && Clash(a, b);
        qs := [Ask(b), Ask(a)];
        QuestionsPrinted(qs, Ample(qs));
        ClashFails(a, b, MemoryOf(PutPacket(Questions(qs), Ample(qs)).value.bytes));
        PrintedMore(iset{a, b}, names, Questions(qs), Ample(qs));
      }
      assert !ReadsBack(Questions(qs), Ample(qs), MemoryOf(PutPacket(Questions(qs), Ample(qs)).value.bytes));
    }
  }

  /** A message for a buffer of up to 16384 bytes, queries counted in, never needs a pointer that
      reaches further.  The server's own buffer has 1500 bytes and its answers have one query. */
  lemma SmallIsInReach(p: Packet, size: int)
    requires MessageOk(p) && PutPacket(p, size).Some? && size + 4 * |p.q| <= REACH
    ensures InReach(PutPacket(p, size).value.tab)
  {
    hide PutPacket;
    RoomAccount(p, size);
    var o := PutPacket(p, size).value;
    forall i | 0 <= i < |o.tab|
      ensures o.tab[i].pos < REACH
    {
      assert o.tab[i].pos + 1 + o.tab[i].len <= |o.bytes|;
    }
  }

  /** Host names with labels of at most 44 bytes meet the condition. */
  lemma HostNamesReadable()
    ensures Readable(iset n | HostName(n))
  {
    hide Encode, Labelled;
    forall n | HostName(n)
      ensures Labelled(n, MAX_LABEL_BYTE)
    {
      LabelledMonotone(n, 44, MAX_LABEL_BYTE);
    }
    forall a, b | HostName(a) && HostName(b)
      ensures !Clash(a, b)
    {
      if Clash(a, b) {
        RawCompareSound(a, b);
      }
    }
  }

  /** 'x', a separator, and one label. */
  function Under(sep: Byte, rest: Name): Name {
    [120, sep] + rest
  }

  /** Legal host names that do not: "x-" and "x." before the same 45 letters, since the length
      byte 45 is a hyphen.  By ClashFails a message that asks for the second and then for the first
      is read as asking for the second twice. */
  lemma LegalNamesClash(rest: Name)
    requires |rest| == 45 && DOT !in rest
    ensures Labelled(Under(45, rest), 63) && Labelled(Under(DOT, rest), 63)
    ensures Clash(Under(45, rest), Under(DOT, rest))
    ensures !RoundTrips(iset{Under(45, rest), Under(DOT, rest)})
  {
    var a, b := Under(45, rest), Under(DOT, rest);
    assert FirstDot(rest) == 45 && FirstDot(a) == 47 && FirstDot(b) == 1;
    assert Labelled(rest, 63);
    assert AfterLabel(b) == rest && AfterLabel(rest) == [] && AfterLabel(a) == [];
    assert b[..1] == [120] && rest[..45] == rest;
    assert Encode(rest) == LabelBytes(rest) + [0];
    assert Encode(b) == LabelBytes([120]) + Encode(rest);
    assert Encode(b)[1..48] == a;
    RoundTripIff(iset{a, b});
  }
}
