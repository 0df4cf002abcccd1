/** What dns.c reads out of a packet, as functions of the memory the packet lies in.
    `max` is the packet size, that is, the offset of its end. */
module DnsGrammar {
  import opened Bytes
  import opened DnsFormat

  const MAX_RECURSION := 10

  datatype NameSize = NameSize(parsed: nat, length: nat)

  function Offset14(m: Memory, p: nat): nat
    requires m(p) >= 0xC0
  {
    (m(p) - 0xC0) * 0x100 + m(p + 1)
  }

  /** Bytes a name takes in the packet at p, and bytes of the dotted name it stands for. */
  function NameLenAt(rec: nat, m: Memory, p: nat, max: nat): Result<NameSize> {
    if rec > MAX_RECURSION then Err(EInNamePtr) else LabelsLen(rec, m, p, max)
  }

  function LabelsLen(rec: nat, m: Memory, p: nat, max: nat): Result<NameSize>
    requires rec <= MAX_RECURSION
    decreases MAX_RECURSION - rec, if p < max then max - p else 0
  {
    var b := m(p);
    if b == 0 then Ok(NameSize(1, 0))
    else if b > MAX_LABEL_BYTE then
      var target := Offset14(m, p);
      if target >= max || rec == MAX_RECURSION then Err(EInNamePtr)
      else
        match LabelsLen(rec + 1, m, target, max)
        case Err(e) => Err(e)
        case Ok(n) => Ok(NameSize(2, n.length))
    else if b > max then Err(EInNamePtr)
    else
      var next := p + b + 1;
      if next >= max then Err(EInSize)
      else
        match LabelsLen(rec, m, next, max)
        case Err(e) => Err(e)
        case Ok(n) => Ok(NameSize(b + 1 + n.parsed, (if m(next) != 0 then b + 1 else b) + n.length))
  }

  /** What copying the name at p appends to its buffer, and how the copy ends. */
  datatype NameCopy = NameCopy(text: Name, failure: Option<Status>) {
    function Prepend(front: Name): NameCopy {
      NameCopy(front + text, failure)
    }
  }

  function CopyName(rec: nat, m: Memory, p: nat, max: nat): NameCopy {
    if rec > MAX_RECURSION then NameCopy([], Some(EInNamePtr)) else CopyLabels(rec, m, p, max)
  }

  function CopyLabels(rec: nat, m: Memory, p: nat, max: nat): NameCopy
    requires rec <= MAX_RECURSION
    decreases MAX_RECURSION - rec, if p < max then max - p else 0
  {
    var b := m(p);
    if b == 0 then NameCopy([], None)
    else if b > MAX_LABEL_BYTE then
      var target := Offset14(m, p);
      if target >= max || rec == MAX_RECURSION then NameCopy([], Some(EInNamePtr))
      else CopyLabels(rec + 1, m, target, max)
    else if b > max then NameCopy([], Some(EInNamePtr))
    else
      var next := p + b + 1;
      if next >= max then NameCopy(Label(m, p), Some(EInSize))
      else CopyLabels(rec, m, next, max).Prepend(Label(m, p))
  }

  /** The label at p, followed by a dot unless a zero byte comes next. */
  function Label(m: Memory, p: nat): (s: Name)
    ensures |s| == m(p) + if m(p + m(p) + 1) != 0 then 1 else 0
  {
    Slice(m, p + 1, m(p)) + if m(p + m(p) + 1) != 0 then [DOT] else []
  }

  /** The dotted name at p. */
  function NameAt(rec: nat, m: Memory, p: nat, max: nat): Result<Name> {
    var c := CopyName(rec, m, p, max);
    if c.failure.Some? then Err(c.failure.value) else Ok(c.text)
  }

  /** The measuring pass and the copying pass agree on every memory: the same status, and on
      success a name of exactly the measured length. */
  lemma {:induction false} TwoPassesAgree(rec: nat, m: Memory, p: nat, max: nat)
    ensures match NameLenAt(rec, m, p, max)
            case Err(e) => NameAt(rec, m, p, max) == Err(e)
            case Ok(n) => NameAt(rec, m, p, max).Ok? && |NameAt(rec, m, p, max).value| == n.length
  {
    if rec <= MAX_RECURSION {
      LabelPassesAgree(rec, m, p, max);
    }
  }

  lemma {:induction false} LabelPassesAgree(rec: nat, m: Memory, p: nat, max: nat)
    requires rec <= MAX_RECURSION
    ensures match LabelsLen(rec, m, p, max)
            case Err(e) => CopyLabels(rec, m, p, max).failure == Some(e)
            case Ok(n) => CopyLabels(rec, m, p, max).failure == None && |CopyLabels(rec, m, p, max).text| == n.length
    decreases MAX_RECURSION - rec, if p < max then max - p else 0
  {
    var b := m(p);
    if b > MAX_LABEL_BYTE {
      if Offset14(m, p) < max && rec < MAX_RECURSION {
        LabelPassesAgree(rec + 1, m, Offset14(m, p), max);
      }
    } else if 0 < b <= max && p + b + 1 < max {
      LabelPassesAgree(rec, m, p + b + 1, max);
    }
  }

  /** A buffer of the measured length holds all that the copying pass writes. */
  lemma CopyFits(m: Memory, p: nat, max: nat)
    requires NameLenAt(0, m, p, max).Ok?
    ensures |CopyName(0, m, p, max).text| == NameLenAt(0, m, p, max).value.length
  {
    TwoPassesAgree(0, m, p, max);
  }

  datatype Parsed<+T> = Parsed(item: T, len: nat)

  /** The name at p and the bytes it takes there: measured first, then copied. */
  function ParseName(m: Memory, p: nat, max: nat): Result<Parsed<Name>> {
    match NameLenAt(0, m, p, max)
    case Err(e) => Err(e)
    case Ok(n) =>
      match NameAt(0, m, p, max)
      case Err(e) => Err(e)
      case Ok(name) => Ok(Parsed(name, n.parsed))
  }

  /** A query at `start`.  Nothing checks that its type and class lie inside the packet. */
  function ParseQuery(m: Memory, start: nat, max: nat): Result<Parsed<Query>> {
    match ParseName(m, start, max)
    case Err(e) => Err(e)
    case Ok(name) =>
      var p := start + name.len;
      Ok(Parsed(Query(name.item, Get16(m, p), Get16(m, p + 2)), name.len + 4))
  }

  predicate KnownType(t: U16) {
    t == TYPE_A || t == TYPE_AAAA || t == TYPE_SRV || NamesHost(t)
  }

  /** The resource data of a record of type t and length rdlength at p. */
  function ParseRData(m: Memory, p: nat, max: nat, t: U16, rdlength: U16): Result<Parsed<RData>> {
    if t == TYPE_A then Ok(Parsed(Addr(Slice(m, p, 4)), 4))
    else if t == TYPE_AAAA then Ok(Parsed(Addr6(Slice(m, p, 16)), 16))
    else if NamesHost(t) then
      match ParseName(m, p, max)
      case Err(e) => Err(e)
      case Ok(name) => Ok(Parsed(Target(name.item), name.len))
    else if t == TYPE_SRV then
      match ParseName(m, p + 6, max)
      case Err(e) => Err(e)
      case Ok(name) =>
        Ok(Parsed(Service(Get16(m, p), Get16(m, p + 2), Get16(m, p + 4), name.item), 6 + name.len))
    else Ok(Parsed(Raw(Slice(m, p, rdlength)), rdlength))
  }

  function ParseRr(m: Memory, start: nat, max: nat): Result<Parsed<Rr>> {
    match ParseName(m, start, max)
    case Err(e) => Err(e)
    case Ok(name) =>
      var p := start + name.len;
      if p + 10 > max then Err(EInSize)
      else
        var t, cls, rdlength := Get16(m, p), Get16(m, p + 2), Get16(m, p + 8);
        if cls != CLASS_IN && KnownType(t) then Err(EInClass)
        else if p + 10 + rdlength > max then Err(EInSize)
        else
          match ParseRData(m, p + 10, max, t, rdlength)
          case Err(e) => Err(e)
          case Ok(d) => Ok(Parsed(Rr(name.item, t, cls, Get32(m, p + 4), rdlength, d.item), name.len + 10 + d.len))
  }

  /** The items of one section and the offset at which the next section starts. */
  datatype Section<+T> = Section(items: seq<T>, next: nat)

  /** n items from `start` on, each read by `item`, appended to those already read. */
  function ParseMany<T>(item: nat -> Result<Parsed<T>>, start: nat, n: nat, done: seq<T>): Result<Section<T>>
    decreases n
  {
    if n == 0 then Ok(Section(done, start))
    else
      match item(start)
      case Err(e) => Err(e)
      case Ok(x) => ParseMany(item, start + x.len, n - 1, done + [x.item])
  }

  function QueryReader(m: Memory, max: nat): nat -> Result<Parsed<Query>> {
    (p: nat) => ParseQuery(m, p, max)
  }

  function RrReader(m: Memory, max: nat): nat -> Result<Parsed<Rr>> {
    (p: nat) => ParseRr(m, p, max)
  }

  function ParseQueries(m: Memory, start: nat, max: nat, n: nat): Result<Section<Query>> {
    ParseMany(QueryReader(m, max), start, n, [])
  }

  function ParseRrs(m: Memory, start: nat, max: nat, n: nat): Result<Section<Rr>> {
    ParseMany(RrReader(m, max), start, n, [])
  }

  function ParseHeader(m: Memory): Header {
    Header(Get16(m, 0), Get16(m, 2), Get16(m, 4), Get16(m, 6), Get16(m, 8), Get16(m, 10))
  }

  function ParseBody(m: Memory, size: nat, hdr: Header): Result<Packet> {
    match ParseQueries(m, HEADER_SIZE, size, hdr.qdcount)
    case Err(e) => Err(e)
    case Ok(q) =>
      match ParseRrs(m, q.next, size, hdr.anscount)
      case Err(e) => Err(e)
      case Ok(ans) =>
        match ParseRrs(m, ans.next, size, hdr.nscount)
        case Err(e) => Err(e)
        case Ok(ns) =>
          match ParseRrs(m, ns.next, size, hdr.arcount)
          case Err(e) => Err(e)
          case Ok(arr) => Ok(Packet(hdr, q.items, ans.items, ns.items, arr.items))
  }

  function ParsePacket(m: Memory, size: nat): Result<Packet> {
    if size == 0 then Err(EInval)
    else if size < HEADER_SIZE then Err(EInSize)
    else ParseBody(m, size, ParseHeader(m))
  }
}
