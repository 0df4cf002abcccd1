/** The bytes that dns_server.c prints for a message: names are looked up in a table of names
    printed earlier and replaced by pointers; everything else is laid out in order. */
module DnsEncoding {
  import opened Bytes
  import opened DnsFormat

  const MAX_LABEL := 32

  /** A printed name: where it starts and how many characters its dotted form has. */
  datatype Entry = Entry(pos: nat, len: nat)

  type Table = seq<Entry>

  /** The packet so far, the label table, and the room the printer believes is left. */
  datatype Output = Output(bytes: seq<Byte>, tab: Table, room: int) {
    ghost predicate Valid() {
      InRange(tab, |bytes|) && room >= 0
    }
  }

  /** The raw bytes that stand for the name of every entry lie below offset n. */
  predicate InRange(tab: Table, n: nat) {
    forall i {:trigger tab[i]} :: 0 <= i < |tab| ==> tab[i].pos + 1 + tab[i].len <= n
  }

  /** The first entry whose raw bytes, after the leading length byte, equal the name. */
  function Find(out: seq<Byte>, tab: Table, name: Name): (i: nat)
    requires InRange(tab, |out|)
    ensures i <= |tab|
    ensures i < |tab| ==> out[tab[i].pos + 1..tab[i].pos + 1 + tab[i].len] == name
    ensures forall j :: 0 <= j < i ==> out[tab[j].pos + 1..tab[j].pos + 1 + tab[j].len] != name
  {
    FindFrom(out, tab, name, 0)
  }

  function FindFrom(out: seq<Byte>, tab: Table, name: Name, k: nat): (i: nat)
    requires InRange(tab, |out|) && k <= |tab|
    ensures k <= i <= |tab|
    ensures i < |tab| ==> out[tab[i].pos + 1..tab[i].pos + 1 + tab[i].len] == name
    ensures forall j :: k <= j < i ==> out[tab[j].pos + 1..tab[j].pos + 1 + tab[j].len] != name
    decreases |tab| - k
  {
    if k == |tab| || out[tab[k].pos + 1..tab[k].pos + 1 + tab[k].len] == name then k
    else FindFrom(out, tab, name, k + 1)
  }

  /** A compression pointer: two top bits set over a 14-bit offset. */
  function Pointer(pos: nat): (s: seq<Byte>)
    ensures |s| == 2
  {
    Put16(0xC000 + pos % 0x4000)
  }

  datatype PrintedName = PrintedName(bytes: seq<Byte>, tab: Table)

  /** The name to be placed at `pos`, given the packet bytes `out` that the table refers to.
      Only a name that is spelt out is checked against the room left. */
  function PutName(out: seq<Byte>, tab: Table, pos: nat, room: int, name: Name): Option<PrintedName>
    requires InRange(tab, |out|)
  {
    var i := Find(out, tab, name);
    if i < |tab| then Some(PrintedName(Pointer(tab[i].pos), tab))
    else if room < |Encode(name)| then None
    else Some(PrintedName(Encode(name), if |tab| < MAX_LABEL then tab + [Entry(pos, |name|)] else tab))
  }

  lemma PutNameInRange(out: seq<Byte>, tab: Table, pos: nat, room: int, name: Name)
    requires InRange(tab, |out|) && |out| <= pos
    requires PutName(out, tab, pos, room, name).Some?
    ensures 1 <= |PutName(out, tab, pos, room, name).value.bytes| <= |name| + 2
    ensures InRange(PutName(out, tab, pos, room, name).value.tab,
                    pos + |PutName(out, tab, pos, room, name).value.bytes|)
  {
  }

  /** The record data agrees with the record type wherever the printer reads it. */
  predicate WellTyped(rr: Rr) {
    && (rr.rtype == TYPE_A ==> rr.rdata.Addr? && |rr.rdata.ip| == 4)
    && (NamesHost(rr.rtype) ==> rr.rdata.Target?)
    && (rr.rtype == TYPE_SRV ==> rr.rdata.Service?)
  }

  predicate Printable(t: U16) {
    t == TYPE_A || NamesHost(t) || t == TYPE_SRV
  }

  function Low16(n: nat): U16 {
    n % 0x1_0000
  }

  function PutFixed(rr: Rr): (s: seq<Byte>)
    ensures |s| == 8
  {
    Put16(rr.rtype) + Put16(rr.dnsclass) + Put32(rr.ttl)
  }

  /** Priority, weight and port. */
  function PutServiceFixed(d: RData): (s: seq<Byte>)
    requires d.Service?
    ensures |s| == 6
  {
    Put16(d.prio) + Put16(d.weight) + Put16(d.port)
  }

  /** Length and data of a record whose fixed fields end at |o.bytes|. */
  function PutRData(o: Output, rr: Rr): (r: Option<Output>)
    requires o.Valid() && WellTyped(rr)
    ensures r.Some? ==> r.value.Valid() && o.bytes <= r.value.bytes && o.tab <= r.value.tab
  {
    if rr.rtype == TYPE_A then
      if o.room < 6 then None
      else Some(Output(o.bytes + (Put16(4) + rr.rdata.ip), o.tab, o.room - 6))
    else if NamesHost(rr.rtype) then
      if o.room < 4 then None
      else
        match PutName(o.bytes, o.tab, |o.bytes| + 2, o.room - 2, rr.rdata.target)
        case None => None
        case Some(n) =>
          PutNameInRange(o.bytes, o.tab, |o.bytes| + 2, o.room - 2, rr.rdata.target);
          Some(Output(o.bytes + (Put16(Low16(|n.bytes|)) + n.bytes), n.tab, o.room - (|n.bytes| + 2)))
    else if rr.rtype == TYPE_SRV then
      if o.room < 10 then None
      else
        match PutName(o.bytes, o.tab, |o.bytes| + 8, o.room - 8, rr.rdata.host)
        case None => None
        case Some(n) =>
          PutNameInRange(o.bytes, o.tab, |o.bytes| + 8, o.room - 8, rr.rdata.host);
          Some(Output(o.bytes + (Put16(Low16(|n.bytes| + 6)) + PutServiceFixed(rr.rdata) + n.bytes), n.tab, o.room - (|n.bytes| + 8)))
    else None
  }

  function PutRr(o: Output, rr: Rr): (r: Option<Output>)
    requires o.Valid() && WellTyped(rr)
    ensures r.Some? ==> r.value.Valid() && o.bytes <= r.value.bytes && o.tab <= r.value.tab
  {
    match PutName(o.bytes, o.tab, |o.bytes|, o.room, rr.name)
    case None => None
    case Some(n) =>
      PutNameInRange(o.bytes, o.tab, |o.bytes|, o.room, rr.name);
      if o.room - |n.bytes| < 8 then None
      else PutRData(Output(o.bytes + (n.bytes + PutFixed(rr)), n.tab, o.room - |n.bytes| - 8), rr)
  }

  /** A query.  The four bytes after the name are checked against the room but not charged to it. */
  function PutQuery(o: Output, q: Query): (r: Option<Output>)
    requires o.Valid()
    ensures r.Some? ==> r.value.Valid() && o.bytes <= r.value.bytes && o.tab <= r.value.tab
  {
    match PutName(o.bytes, o.tab, |o.bytes|, o.room, q.name)
    case None => None
    case Some(n) =>
      PutNameInRange(o.bytes, o.tab, |o.bytes|, o.room, q.name);
      if o.room - |n.bytes| < 4 then None
      else Some(Output(o.bytes + (n.bytes + (Put16(q.qtype) + Put16(q.dnsclass))), n.tab, o.room - |n.bytes|))
  }

  function PutQueries(o: Output, qs: seq<Query>): (r: Option<Output>)
    requires o.Valid()
    ensures r.Some? ==> r.value.Valid() && o.bytes <= r.value.bytes && o.tab <= r.value.tab
    decreases |qs|
  {
    if qs == [] then Some(o)
    else
      match PutQuery(o, qs[0])
      case None => None
      case Some(o1) => PutQueries(o1, qs[1..])
  }

  predicate AllWellTyped(rrs: seq<Rr>) {
    forall i {:trigger rrs[i]} :: 0 <= i < |rrs| ==> WellTyped(rrs[i])
  }

  function PutRrs(o: Output, rrs: seq<Rr>): (r: Option<Output>)
    requires o.Valid() && AllWellTyped(rrs)
    ensures r.Some? ==> r.value.Valid() && o.bytes <= r.value.bytes && o.tab <= r.value.tab
    decreases |rrs|
  {
    if rrs == [] then Some(o)
    else
      match PutRr(o, rrs[0])
      case None => None
      case Some(o1) => PutRrs(o1, rrs[1..])
  }

  function PutHeader(h: Header): (s: seq<Byte>)
    ensures |s| == HEADER_SIZE
  {
    Put16(h.id) + Put16(h.flags) + Put16(h.qdcount) + Put16(h.anscount) + Put16(h.nscount) + Put16(h.arcount)
  }

  /** The arrays of a message have the lengths its header says. */
  predicate Counted(p: Packet) {
    && |p.q| == p.hdr.qdcount
    && |p.ans| == p.hdr.anscount
    && |p.ns| == p.hdr.nscount
    && |p.arr| == p.hdr.arcount
  }

  predicate MessageOk(p: Packet) {
    Counted(p) && AllWellTyped(p.ans) && AllWellTyped(p.ns) && AllWellTyped(p.arr)
  }

  /** The printed message, or None when it does not fit in `size` bytes as the code counts them. */
  function PutPacket(p: Packet, size: int): (r: Option<Output>)
    requires MessageOk(p)
    ensures r.Some? ==> r.value.Valid()
  {
    if size < HEADER_SIZE then None
    else
      match PutQueries(Output(PutHeader(p.hdr), [], size - HEADER_SIZE), p.q)
      case None => None
      case Some(o1) =>
        match PutRrs(o1, p.ans)
        case None => None
        case Some(o2) =>
          match PutRrs(o2, p.ns)
          case None => None
          case Some(o3) => PutRrs(o3, p.arr)
  }
}
