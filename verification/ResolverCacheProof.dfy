/** Every transition of the response cache keeps reference counts, readers and freshness. */
module ResolverCacheProof {
  import opened DnsFormat
  import opened DnsDup
  import opened ResolverQueries
  import opened ResolverCache

  lemma UserAdded(readers: map<ReaderId, Reader>, r: ReaderId, reader: Reader, e: EntryId)
    requires r !in readers
    ensures |UsersOf(readers[r := reader], e)| == |UsersOf(readers, e)| + if reader.entry == e then 1 else 0
  {
    assert UsersOf(readers[r := reader], e) ==
           if reader.entry == e then UsersOf(readers, e) + {r} else UsersOf(readers, e);
  }

  lemma UserRemoved(readers: map<ReaderId, Reader>, r: ReaderId, e: EntryId)
    requires r in readers
    ensures |UsersOf(readers - {r}, e)| == |UsersOf(readers, e)| - if readers[r].entry == e then 1 else 0
  {
    assert UsersOf(readers - {r}, e) == UsersOf(readers, e) - if readers[r].entry == e then {r} else {};
  }

  lemma UserCounted(readers: map<ReaderId, Reader>, r: ReaderId)
    requires r in readers
    ensures |UsersOf(readers, readers[r].entry)| >= 1
  {
    assert r in UsersOf(readers, readers[r].entry);
  }

  lemma NoUsers(readers: map<ReaderId, Reader>, e: EntryId)
    requires forall r :: r in readers ==> readers[r].entry != e
    ensures UsersOf(readers, e) == {}
  {
  }

  lemma LastAfter(history: seq<Event>, ev: Event, key: Key)
    ensures Last(history + [ev], key) == if ev.key == key then Some(ev) else Last(history, key)
  {
    assert (history + [ev])[..|history|] == history;
  }

  lemma AcquireKeeps(c: Cache, key: Key, maxTtl: nat)
    requires CacheInv(c, maxTtl) && key in c.table
    ensures c.table[key] in c.heap && CacheInv(Acquire(c, key), maxTtl)
  {
    hide Holding, Last, UsersOf;
    var e := c.table[key];
    var reader := Reader(e, c.heap[e].pkt);
    forall x
      ensures |UsersOf(c.readers[c.nextReader := reader], x)| == |UsersOf(c.readers, x)| + if e == x then 1 else 0
    {
      UserAdded(c.readers, c.nextReader, reader, x);
    }
    HoldingIgnoresRefs(c.heap[e], c.heap[e].refs + 1, maxTtl);
  }

  lemma HoldingIgnoresRefs(e: Entry, refs: int, maxTtl: nat)
    ensures forall ev :: Holding(e, ev, maxTtl) <==> Holding(e.(refs := refs), ev, maxTtl)
  {
  }

  lemma ReleaseKeepsCounts(c: Cache, r: ReaderId)
    requires CountsOk(c) && ReadersOk(c) && r in c.readers
    ensures CountsOk(Release(c, r))
  {
    hide UsersOf;
    var e := c.readers[r].entry;
    forall x
      ensures |UsersOf(c.readers - {r}, x)| == |UsersOf(c.readers, x)| - if e == x then 1 else 0
    {
      UserRemoved(c.readers, r, x);
    }
    UserCounted(c.readers, r);
  }

  lemma ReleaseKeepsReaders(c: Cache, r: ReaderId)
    requires CountsOk(c) && ReadersOk(c) && r in c.readers
    ensures ReadersOk(Release(c, r))
  {
    hide UsersOf;
    var e := c.readers[r].entry;
    UserRemoved(c.readers, r, e);
    forall x | x in c.readers && x != r && c.readers[x].entry == e
      ensures |UsersOf(c.readers - {r}, e)| >= 1
    {
      UserCounted(c.readers - {r}, x);
    }
  }

  lemma ReleaseKeepsHistory(c: Cache, r: ReaderId, maxTtl: nat)
    requires CountsOk(c) && ReadersOk(c) && HistoryOk(c, maxTtl) && r in c.readers
    ensures HistoryOk(Release(c, r), maxTtl)
  {
    hide UsersOf, Holding, Last;
    var e := c.readers[r].entry;
    HoldingIgnoresRefs(c.heap[e], c.heap[e].refs - 1, maxTtl);
  }

  /** A reader leaving frees its entry exactly when nobody else counts it. */
  lemma ReleaseKeeps(c: Cache, r: ReaderId, maxTtl: nat)
    requires CacheInv(c, maxTtl) && r in c.readers
    ensures c.readers[r].entry in c.heap && CacheInv(Release(c, r), maxTtl)
    ensures c.readers[r].entry !in Release(c, r).heap <==>
            UsersOf(c.readers, c.readers[r].entry) == {r} &&
            Listed(c.table, c.heap[c.readers[r].entry].key, c.readers[r].entry) == 0
  {
    ReleaseKeepsCounts(c, r);
    ReleaseKeepsReaders(c, r);
    ReleaseKeepsHistory(c, r, maxTtl);
    var e := c.readers[r].entry;
    var users := UsersOf(c.readers, e);
    assert r in users && |users| == 1 + |users - {r}|;
    assert |users| == 1 <==> users == {r};
    hide CountsOk, ReadersOk, HistoryOk, UsersOf;
  }

  lemma DropKeepsCounts(c: Cache, key: Key)
    requires CountsOk(c)
    ensures CountsOk(Drop(c, key))
  {
    hide UsersOf;
  }

  lemma DropKeepsReaders(c: Cache, key: Key)
    requires CountsOk(c) && ReadersOk(c)
    ensures ReadersOk(Drop(c, key))
  {
    hide UsersOf;
    forall x | x in c.readers
      ensures |UsersOf(c.readers, c.readers[x].entry)| >= 1
    {
      UserCounted(c.readers, x);
    }
  }

  lemma DropKeepsHistory(c: Cache, key: Key, maxTtl: nat)
    requires CountsOk(c) && HistoryOk(c, maxTtl)
    ensures HistoryOk(Drop(c, key), maxTtl)
  {
    if key in c.table {
      hide UsersOf, Holding, Last;
      var e := c.table[key];
      HoldingIgnoresRefs(c.heap[e], c.heap[e].refs - 1, maxTtl);
      forall k
        ensures Last(c.history + [Cleared(key)], k) == if k == key then Some(Cleared(key)) else Last(c.history, k)
      {
        LastAfter(c.history, Cleared(key), k);
      }
    }
  }

  lemma DropKeeps(c: Cache, key: Key, maxTtl: nat)
    requires CacheInv(c, maxTtl)
    ensures CacheInv(Drop(c, key), maxTtl) && key !in Drop(c, key).table
  {
    hide CountsOk, ReadersOk, HistoryOk;
    DropKeepsCounts(c, key);
    DropKeepsReaders(c, key);
    DropKeepsHistory(c, key, maxTtl);
  }

  /** A response goes to a new entry. */
  function PutNew(c: Cache, ev: Event, dup: Packet, expiry: Time): Cache
    requires ev.Stored?
  {
    c.(history := c.history + [ev], next := c.next + 1, table := c.table[ev.key := c.next],
       heap := c.heap[c.next := Entry(ev.key, expiry, dup, 1)])
  }

  lemma PutNewKeepsCounts(c: Cache, ev: Event, dup: Packet, expiry: Time)
    requires CountsOk(c) && ReadersOk(c) && ev.Stored? && ev.key !in c.table
    ensures CountsOk(PutNew(c, ev, dup, expiry))
  {
    NoUsers(c.readers, c.next);
    hide UsersOf;
  }

  lemma PutNewKeepsReaders(c: Cache, ev: Event, dup: Packet, expiry: Time)
    requires CountsOk(c) && ReadersOk(c) && ev.Stored? && ev.key !in c.table
    ensures ReadersOk(PutNew(c, ev, dup, expiry))
  {
    hide UsersOf;
  }

  lemma PutNewKeepsHistory(c: Cache, ev: Event, dup: Packet, maxTtl: nat)
    requires CountsOk(c) && HistoryOk(c, maxTtl) && ev.Stored? && ev.key !in c.table
    requires SamePacket(dup, Kept(ev.pkt, Options(false, false, true, true)))
    ensures HistoryOk(PutNew(c, ev, dup, Expiry(ev.setExpiry, ev.at, Ttl(ev.pkt, ev.ok, ev.setExpiry, maxTtl))), maxTtl)
  {
    hide UsersOf, Last, SamePacket, Kept, Expiry, Ttl;
    forall k
      ensures Last(c.history + [ev], k) == if k == ev.key then Some(ev) else Last(c.history, k)
    {
      LastAfter(c.history, ev, k);
    }
  }

  /** Storing over an entry that only the table uses. */
  function PutOver(c: Cache, ev: Event, dup: Packet, expiry: Time): Cache
    requires ev.Stored? && ev.key in c.table && c.table[ev.key] in c.heap
  {
    c.(history := c.history + [ev],
       heap := c.heap[c.table[ev.key] := Entry(ev.key, expiry, dup, c.heap[c.table[ev.key]].refs)])
  }

  lemma PutOverKeeps(c: Cache, ev: Event, dup: Packet, maxTtl: nat)
    requires CacheInv(c, maxTtl) && ev.Stored? && ev.key in c.table && c.heap[c.table[ev.key]].refs <= 1
    requires SamePacket(dup, Kept(ev.pkt, Options(false, false, true, true)))
    ensures CacheInv(PutOver(c, ev, dup, Expiry(ev.setExpiry, ev.at, Ttl(ev.pkt, ev.ok, ev.setExpiry, maxTtl))), maxTtl)
  {
    hide UsersOf, Last, SamePacket, Kept, Expiry, Ttl;
    forall k
      ensures Last(c.history + [ev], k) == if k == ev.key then Some(ev) else Last(c.history, k)
    {
      LastAfter(c.history, ev, k);
    }
    forall x | x in c.readers
      ensures |UsersOf(c.readers, c.readers[x].entry)| >= 1
    {
      UserCounted(c.readers, x);
    }
  }

  lemma LastAfterTwo(history: seq<Event>, a: Event, b: Event, key: Key)
    requires a.key == b.key
    ensures Last(history + [a] + [b], key) == Last(history + [b], key)
  {
    LastAfter(history, a, key);
    LastAfter(history + [a], b, key);
    LastAfter(history, b, key);
  }

  lemma HistoryOnly(c: Cache, d: Cache, maxTtl: nat)
    requires CacheInv(c, maxTtl) && d == c.(history := d.history)
    requires forall k :: Last(d.history, k) == Last(c.history, k)
    ensures CacheInv(d, maxTtl)
  {
    hide UsersOf, Last, Holding;
  }

  lemma PutKeeps(c: Cache, ev: Event, dup: Packet, maxTtl: nat)
    requires CacheInv(c, maxTtl) && ev.Stored?
    requires SamePacket(dup, Kept(ev.pkt, Options(false, false, true, true)))
    ensures CacheInv(Put(c, ev, dup, maxTtl), maxTtl)
  {
    hide SamePacket, Kept, Expiry, Ttl, CountsOk, ReadersOk, HistoryOk;
    var expiry := Expiry(ev.setExpiry, ev.at, Ttl(ev.pkt, ev.ok, ev.setExpiry, maxTtl));
    TableInHeap(c);
    if ev.key in c.table && c.heap[c.table[ev.key]].refs <= 1 {
      PutOverKeeps(c, ev, dup, maxTtl);
    } else {
      DropKeeps(c, ev.key, maxTtl);
      var d := Drop(c, ev.key);
      PutNewKeepsCounts(d, ev, dup, expiry);
      PutNewKeepsReaders(d, ev, dup, expiry);
      PutNewKeepsHistory(d, ev, dup, maxTtl);
      var made := PutNew(d, ev, dup, expiry);
      forall k
        ensures Last(c.history + [ev], k) == Last(made.history, k)
      {
        if ev.key in c.table {
          LastAfterTwo(c.history, Cleared(ev.key), ev, k);
        }
      }
      assert Put(c, ev, dup, maxTtl).table == made.table;
      HistoryOnly(made, Put(c, ev, dup, maxTtl), maxTtl);
    }
  }

  lemma TableInHeap(c: Cache)
    requires CountsOk(c)
    ensures forall k {:trigger c.table[k]} :: k in c.table ==> c.table[k] in c.heap
  {
  }

  lemma UpdateKeeps(c: Cache, ev: Event, dup: Packet, maxTtl: nat)
    requires CacheInv(c, maxTtl) && ev.Stored? && (ev.key in c.table ==> c.table[ev.key] in c.heap)
    requires SamePacket(dup, Kept(ev.pkt, Options(false, false, true, true)))
    ensures CacheInv(Update(c, ev, dup, maxTtl), maxTtl)
  {
    hide SamePacket, Kept, Ttl, CountsOk, ReadersOk, HistoryOk, Put;
    DropKeeps(c, ev.key, maxTtl);
    var cleared := if ev.ok then c else Drop(c, ev.key);
    TableInHeap(cleared);
    DropKeeps(cleared, ev.key, maxTtl);
    PutKeeps(cleared, ev, dup, maxTtl);
  }

  /** What a fresh hit at time `now` serves: the last response stored under the key, with the
      same header flags, queries and answers up to letter case, no later than its time to live. */
  lemma HitIsFresh(c: Cache, key: Key, now: Time, maxTtl: nat)
    requires CacheInv(c, maxTtl) && Fresh(c, key, now)
    ensures Last(c.history, key).Some? && Last(c.history, key).value.Stored?
    ensures var ev, pkt := Last(c.history, key).value, Acquire(c, key).readers[c.nextReader].pkt;
            && pkt.hdr.flags == ev.pkt.hdr.flags
            && SameQueries(pkt.q, ev.pkt.q) && SameRecords(pkt.ans, ev.pkt.ans)
            && (ev.setExpiry ==> After(ev.at.(sec := ev.at.sec + Ttl(ev.pkt, ev.ok, true, maxTtl)), now))
  {
    hide UsersOf, Last, Ttl, SameQueries, SameRecords, CountsOk, ReadersOk;
  }
}
