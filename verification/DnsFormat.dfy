/** DNS messages: the records of pjlib-util/dns.h, and the label encoding of names that
    the message printer and the query builder write. */
module DnsFormat {
  import opened Bytes

  const TYPE_A: U16 := 1
  const TYPE_NS: U16 := 2
  const TYPE_CNAME: U16 := 5
  const TYPE_PTR: U16 := 12
  const TYPE_AAAA: U16 := 28
  const TYPE_SRV: U16 := 33
  const CLASS_IN: U16 := 1
  const HEADER_SIZE := 12

  type Name = seq<Byte>

  datatype Status = EInNamePtr | EInSize | EInClass | EInval | EQueryTooSmall

  datatype Option<+T> = None | Some(value: T)

  datatype Result<+T> = Ok(value: T) | Err(status: Status)

  datatype Header = Header(id: U16, flags: U16, qdcount: U16, anscount: U16, nscount: U16, arcount: U16)

  datatype Query = Query(name: Name, qtype: U16, dnsclass: U16)

  datatype RData =
    | Addr(ip: seq<Byte>)
    | Addr6(ip6: seq<Byte>)
    | Target(target: Name)
    | Service(prio: U16, weight: U16, port: U16, host: Name)
    | Raw(data: seq<Byte>)

  datatype Rr = Rr(name: Name, rtype: U16, dnsclass: U16, ttl: U32, rdlength: U16, rdata: RData)

  datatype Packet = Packet(hdr: Header, q: seq<Query>, ans: seq<Rr>, ns: seq<Rr>, arr: seq<Rr>)

  predicate NamesHost(t: U16) {
    t == TYPE_CNAME || t == TYPE_NS || t == TYPE_PTR
  }

  const DOT: Byte := 0x2e

  /** Length of the first label of a dotted name. */
  function FirstDot(name: Name): (k: nat)
    ensures k <= |name| && (k < |name| ==> name[k] == DOT)
    ensures forall i :: 0 <= i < k ==> name[i] != DOT
  {
    if name == [] || name[0] == DOT then 0 else 1 + FirstDot(name[1..])
  }

  /** What follows the first label and its dot. */
  function AfterLabel(name: Name): (rest: Name)
    requires name != []
    ensures |rest| < |name|
  {
    var k := FirstDot(name);
    if k < |name| then name[k + 1..] else []
  }

  /** A label behind its length, which is stored in one byte. */
  function LabelBytes(chars: Name): (s: seq<Byte>)
    ensures |s| == 1 + |chars| && s[0] == |chars| % 0x100 && s[1..] == chars
  {
    [|chars| % 0x100] + chars
  }

  /** Length-prefixed labels and a final zero. */
  function Encode(name: Name): (e: seq<Byte>)
    ensures 1 <= |e| && |name| < |e| <= |name| + 2
    ensures name == [] ==> e == [0]
    ensures name != [] ==> e[0] == FirstDot(name) % 0x100
    decreases |name|
  {
    if name == [] then [0]
    else
      var k := FirstDot(name);
      LabelBytes(name[..k]) + Encode(AfterLabel(name))
  }

  /** Every label has 1 to `longest` bytes and no dot ends the name. */
  predicate Labelled(name: Name, longest: nat)
    decreases |name|
  {
    name == [] ||
    (var k := FirstDot(name);
     1 <= k <= longest && (k < |name| ==> k + 1 < |name|) && Labelled(AfterLabel(name), longest))
  }

  /** Longest label byte that the parsers take for a label and not for a pointer. */
  const MAX_LABEL_BYTE := 0xBF

  /** The name reads like the stored form of another one behind its leading length byte: like
      `other` with every dot replaced by the length of the label that follows. */
  predicate Clash(name: Name, other: Name) {
    |name| == |other| && name != other && Encode(other)[1..1 + |name|] == name
  }

  /** Names that the parser can spell, no two of which the printer can mistake for each other. */
  ghost predicate Readable(names: iset<Name>) {
    && (forall n :: n in names ==> Labelled(n, MAX_LABEL_BYTE))
    && (forall a, b :: a in names && b in names ==> !Clash(a, b))
  }

  /** Host names whose label lengths (at most 44) can never be mistaken for one of their own
      bytes (at least 45, the hyphen): the names for which table look-ups compare correctly. */
  predicate HostName(name: Name) {
    Labelled(name, 44) && forall i :: 0 <= i < |name| ==> name[i] >= 45
  }

  lemma {:induction false} LabelledMonotone(name: Name, a: nat, b: nat)
    requires Labelled(name, a) && a <= b
    ensures Labelled(name, b)
    decreases |name|
  {
    if name != [] {
      LabelledMonotone(AfterLabel(name), a, b);
    }
  }

  /** Two host names of one length whose first |name| bytes after the leading length byte
      read alike are the same name: the comparison that print_name makes on raw packet bytes
      is sound for host names. */
  lemma {:induction false} RawCompareSound(name: Name, other: Name)
    requires HostName(name) && HostName(other) && |name| == |other|
    requires Encode(other)[1..1 + |name|] == name
    ensures name == other
  {
    if other != [] {
      hide Encode, Labelled, FirstDot, LabelBytes, AfterLabel;
      var k := FirstDot(other);
      FirstStored(other);
      if k < |other| {
        NextLength(other);
        ReadsAt(Encode(other), name, k);
        assert false;
      }
    }
  }

  /** A byte of the name, seen one place further on in its stored form. */
  lemma ReadsAt(stored: seq<Byte>, name: Name, k: nat)
    requires k < |name| < |stored| && stored[1..1 + |name|] == name
    ensures stored[k + 1] == name[k]
  {
    assert stored[1..1 + |name|][k] == stored[k + 1];
  }

  /** The first label as it is stored; a name of one label is stored as it is. */
  lemma FirstStored(name: Name)
    requires name != []
    ensures |Encode(name)| > |name| && (FirstDot(name) == |name| ==> Encode(name)[1..1 + |name|] == name)
  {
    var k := FirstDot(name);
    var first := LabelBytes(name[..k]);
    hide FirstDot, LabelBytes;
    if k == |name| {
      assert name[..k] == name;
      assert Encode(name)[1..1 + |name|] == first[1..];
    }
  }

  /** Behind the first label of a host name, if there are more, comes a length of at most 44. */
  lemma NextLength(name: Name)
    requires name != [] && FirstDot(name) < |name| && Labelled(name, 44)
    ensures FirstDot(name) + 1 < |Encode(name)| && Encode(name)[FirstDot(name) + 1] <= 44
  {
    var k := FirstDot(name);
    EncodeStart(AfterLabel(name));
    hide FirstDot, Labelled;
  }

  lemma EncodeStart(name: Name)
    requires Labelled(name, 44)
    ensures Encode(name)[0] <= 44
  {
    hide Encode, FirstDot;
    assert name != [] ==> FirstDot(name) <= 44;
  }
}
