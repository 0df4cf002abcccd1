/** The response cache of resolver.c: reference-counted entries that a table and any number of
    readers, in callbacks made with the mutex released, use at the same time. */
module ResolverCache {
  import opened Bytes
  import opened DnsFormat
  import opened DnsDup
  import opened ResolverQueries

  const INVALID_TTL := 60
  const NO_EXPIRY_TTL := 0xFFFF_FFFF
  const NO_EXPIRY_SEC := 0x7FFF_FFFF

  datatype Time = Time(sec: int, msec: int)

  /** PJ_TIME_VAL_GT. */
  predicate After(a: Time, b: Time) {
    a.sec > b.sec || (a.sec == b.sec && a.msec > b.msec)
  }

  type EntryId = nat
  type ReaderId = nat

  datatype Entry = Entry(key: Key, expiry: Time, pkt: Packet, refs: int)

  /** A caller that uses an entry, and the packet it was given. */
  datatype Reader = Reader(entry: EntryId, pkt: Packet)

  /** A history of the table: what was stored under a key and when, or that the key was cleared. */
  datatype Event =
    | Stored(key: Key, pkt: Packet, ok: bool, setExpiry: bool, at: Time)
    | Cleared(key: Key)

  /** `heap` holds the entries whose pools are not released. */
  datatype Cache = Cache(
    heap: map<EntryId, Entry>,
    next: EntryId,
    table: map<Key, EntryId>,
    readers: map<ReaderId, Reader>,
    nextReader: ReaderId,
    history: seq<Event>)

  function Empty(): Cache {
    Cache(map[], 0, map[], map[], 0, [])
  }

  function Rcode(flags: U16): nat {
    flags % 16
  }

  function SmallestTtl(answers: seq<Rr>): U32 {
    if answers == [] then NO_EXPIRY_TTL
    else
      var rest := SmallestTtl(answers[1..]);
      if answers[0].ttl < rest then answers[0].ttl else rest
  }

  /** Time a response may be served for. */
  function Ttl(pkt: Packet, ok: bool, setExpiry: bool, maxTtl: nat): nat {
    var ttl :=
      if !setExpiry then NO_EXPIRY_TTL
      else if pkt.hdr.anscount == 0 || !ok then INVALID_TTL
      else SmallestTtl(pkt.ans);
    if ttl > maxTtl then maxTtl else ttl
  }

  function Expiry(setExpiry: bool, now: Time, ttl: nat): Time {
    if setExpiry then now.(sec := now.sec + ttl) else Time(NO_EXPIRY_SEC, 0)
  }

  // ------------------------------------------------------------------ invariants

  ghost function UsersOf(readers: map<ReaderId, Reader>, e: EntryId): set<ReaderId> {
    set r | r in readers && readers[r].entry == e
  }

  function Listed(table: map<Key, EntryId>, key: Key, e: EntryId): nat {
    if key in table && table[key] == e then 1 else 0
  }

  /** Reference counts: one for being in the table, one for each reader, and an entry that
      nobody counts is released. */
  ghost predicate CountsOk(c: Cache) {
    && (forall e {:trigger c.heap[e]} :: e in c.heap ==>
          && e < c.next
          && c.heap[e].refs == Listed(c.table, c.heap[e].key, e) + |UsersOf(c.readers, e)|
          && c.heap[e].refs > 0)
    && (forall k {:trigger c.table[k]} :: k in c.table ==> c.table[k] in c.heap && c.heap[c.table[k]].key == k)
  }

  /** No reader's entry is released or reset while it is in use. */
  ghost predicate ReadersOk(c: Cache) {
    forall r {:trigger c.readers[r]} :: r in c.readers ==>
      r < c.nextReader && c.readers[r].entry in c.heap && c.heap[c.readers[r].entry].pkt == c.readers[r].pkt
  }

  /** The last event about a key. */
  function Last(history: seq<Event>, key: Key): Option<Event> {
    if history == [] then None
    else if history[|history| - 1].key == key then Some(history[|history| - 1])
    else Last(history[..|history| - 1], key)
  }

  /** The entry is what the event stored: the same packet up to letter case, without the
      authority and additional sections, with the expiry that its TTL gives. */
  ghost predicate Holding(e: Entry, ev: Event, maxTtl: nat) {
    && ev.Stored? && ev.key == e.key
    && SamePacket(e.pkt, Kept(ev.pkt, Options(false, false, true, true)))
    && e.expiry == Expiry(ev.setExpiry, ev.at, Ttl(ev.pkt, ev.ok, ev.setExpiry, maxTtl))
  }

  /** The table holds, under each key, the last response stored for that key. */
  ghost predicate HistoryOk(c: Cache, maxTtl: nat) {
    forall k {:trigger c.table[k]} :: k in c.table && c.table[k] in c.heap ==>
      && Last(c.history, k).Some?
      && Holding(c.heap[c.table[k]], Last(c.history, k).value, maxTtl)
  }

  ghost predicate CacheInv(c: Cache, maxTtl: nat) {
    CountsOk(c) && ReadersOk(c) && HistoryOk(c, maxTtl)
  }

  // ------------------------------------------------------------------ transitions

  /** One reference fewer; the entry is released when none is left. */
  function Unref(heap: map<EntryId, Entry>, e: EntryId): map<EntryId, Entry>
    requires e in heap
  {
    if heap[e].refs - 1 <= 0 then heap - {e} else heap[e := heap[e].(refs := heap[e].refs - 1)]
  }

  /** Takes the key out of the table, if it is there, and drops the table's reference. */
  function Drop(c: Cache, key: Key): Cache
    requires key in c.table ==> c.table[key] in c.heap
  {
    if key in c.table then
      c.(table := c.table - {key}, heap := Unref(c.heap, c.table[key]), history := c.history + [Cleared(key)])
    else c
  }

  predicate Fresh(c: Cache, key: Key, now: Time) {
    key in c.table && c.table[key] in c.heap && After(c.heap[c.table[key]].expiry, now)
  }

  /** A look-up that finds a fresh entry: the caller becomes a reader. */
  function Acquire(c: Cache, key: Key): Cache
    requires key in c.table && c.table[key] in c.heap
  {
    var e := c.table[key];
    c.(heap := c.heap[e := c.heap[e].(refs := c.heap[e].refs + 1)],
       readers := c.readers[c.nextReader := Reader(e, c.heap[e].pkt)],
       nextReader := c.nextReader + 1)
  }

  /** The reader is done with its entry. */
  function Release(c: Cache, r: ReaderId): Cache
    requires r in c.readers && c.readers[r].entry in c.heap
  {
    c.(readers := c.readers - {r}, heap := Unref(c.heap, c.readers[r].entry))
  }

  /** Stores dup, the duplicate of ev's packet: in the table's own entry when nobody else uses
      it, otherwise in a new one. */
  function Put(c: Cache, ev: Event, dup: Packet, maxTtl: nat): Cache
    requires ev.Stored? && (ev.key in c.table ==> c.table[ev.key] in c.heap)
  {
    var expiry := Expiry(ev.setExpiry, ev.at, Ttl(ev.pkt, ev.ok, ev.setExpiry, maxTtl));
    var after := c.(history := c.history + [ev]);
    if ev.key in c.table && c.heap[c.table[ev.key]].refs <= 1 then
      var e := c.table[ev.key];
      after.(heap := c.heap[e := Entry(ev.key, expiry, dup, c.heap[e].refs)])
    else
      var heap := if ev.key in c.table then Unref(c.heap, c.table[ev.key]) else c.heap;
      after.(heap := heap[c.next := Entry(ev.key, expiry, dup, 1)], next := c.next + 1, table := c.table[ev.key := c.next])
  }

  /** update_res_cache. */
  function Update(c: Cache, ev: Event, dup: Packet, maxTtl: nat): Cache
    requires ev.Stored? && (ev.key in c.table ==> c.table[ev.key] in c.heap)
  {
    var cleared := if ev.ok then c else Drop(c, ev.key);
    if Ttl(ev.pkt, ev.ok, ev.setExpiry, maxTtl) == 0 then Drop(cleared, ev.key)
    else Put(cleared, ev, dup, maxTtl)
  }
}
