/** For how long a cached response is served, in terms of the answers it holds. */
module ResolverFreshness {
  import opened DnsFormat
  import opened ResolverQueries
  import opened ResolverCache
  import opened ResolverCacheProof
  import opened ResolverMachine

  /** Fewer than d seconds have gone by from `at` to `now`. */
  predicate Within(now: Time, at: Time, d: nat) {
    now.sec < at.sec + d || (now.sec == at.sec + d && now.msec < at.msec)
  }

  /** On a clock with 1000 milliseconds a second that is a comparison of milliseconds. */
  lemma WithinIsElapsed(now: Time, at: Time, d: nat)
    requires 0 <= now.msec < 1000 && 0 <= at.msec < 1000
    ensures Within(now, at, d) <==> (now.sec * 1000 + now.msec) - (at.sec * 1000 + at.msec) < 1000 * d
  {
  }

  /** A response is in time: within the limit of the settings, within the time of every one of its answers
      if it was successful and has some, and within 60 seconds otherwise. */
  ghost predicate InTime(now: Time, ev: ResolverCache.Event, maxTtl: nat)
    requires ev.Stored?
  {
    && Within(now, ev.at, maxTtl)
    && (ev.ok && ev.pkt.hdr.anscount > 0 ==>
          forall i {:trigger ev.pkt.ans[i]} :: 0 <= i < |ev.pkt.ans| ==> Within(now, ev.at, ev.pkt.ans[i].ttl))
    && (!ev.ok || ev.pkt.hdr.anscount == 0 ==> Within(now, ev.at, 60))
  }

  /** A time of zero, which means not to keep the response at all. */
  ghost predicate Transient(ev: ResolverCache.Event, maxTtl: nat)
    requires ev.Stored?
  {
    maxTtl == 0 || (ev.ok && ev.pkt.hdr.anscount > 0 && exists i {:trigger ev.pkt.ans[i]} :: 0 <= i < |ev.pkt.ans| && ev.pkt.ans[i].ttl == 0)
  }

  lemma {:induction false} SmallestIs(answers: seq<Rr>)
    ensures forall i {:trigger answers[i]} :: 0 <= i < |answers| ==> SmallestTtl(answers) <= answers[i].ttl
    ensures SmallestTtl(answers) == 0xFFFF_FFFF || exists i :: 0 <= i < |answers| && SmallestTtl(answers) == answers[i].ttl
  {
    if answers != [] {
      SmallestIs(answers[1..]);
      forall i | 0 <= i < |answers|
        ensures SmallestTtl(answers) <= answers[i].ttl
      {
        assert i > 0 ==> answers[i] == answers[1..][i - 1];
      }
      if SmallestTtl(answers) == SmallestTtl(answers[1..]) != 0xFFFF_FFFF {
        var i :| 0 <= i < |answers[1..]| && SmallestTtl(answers[1..]) == answers[1..][i].ttl;
        assert answers[i + 1].ttl == SmallestTtl(answers);
      }
    }
  }

  /** The expiry of a response decides exactly what is in time. */
  lemma ExpiryDecides(now: Time, ev: ResolverCache.Event, maxTtl: nat)
    requires ev.Stored? && ev.setExpiry && maxTtl <= 0xFFFF_FFFF
    ensures var ttl := Ttl(ev.pkt, ev.ok, true, maxTtl);
            && (ttl == 0 <==> Transient(ev, maxTtl))
            && (After(Expiry(true, ev.at, ttl), now) <==> InTime(now, ev, maxTtl))
  {
    SmallestIs(ev.pkt.ans);
    hide SmallestTtl;
  }

  /** Directly after a response is stored it is served exactly as long as it is in time, and not at all
      if it is transient. */
  lemma StoredIsServed(c: Cache, ev: ResolverCache.Event, dup: Packet, maxTtl: nat, now: Time)
    requires ev.Stored? && ev.setExpiry && (ev.key in c.table ==> c.table[ev.key] in c.heap) && maxTtl <= 0xFFFF_FFFF
    ensures Fresh(Update(c, ev, dup, maxTtl), ev.key, now) <==> !Transient(ev, maxTtl) && InTime(now, ev, maxTtl)
  {
    ExpiryDecides(now, ev, maxTtl);
    hide Ttl, SmallestTtl, Expiry, InTime, Transient;
  }

  /** A response added without an expiry is served until the end of the 31-bit clock, whatever its times are,
      unless the settings keep nothing. */
  lemma AddedIsServed(c: Cache, ev: ResolverCache.Event, dup: Packet, maxTtl: nat, now: Time)
    requires ev.Stored? && !ev.setExpiry && (ev.key in c.table ==> c.table[ev.key] in c.heap)
    ensures Fresh(Update(c, ev, dup, maxTtl), ev.key, now) <==> maxTtl > 0 && Within(now, Time(0, 0), 0x7FFF_FFFF)
  {
    hide SmallestTtl;
  }

  /** In every interleaving a response served from the cache is in time. */
  lemma ServedInTime(es: seq<ResolverMachine.Event>, st: Settings, key: Key, now: Time)
    requires IsRun(Initial(), es, st) && Fresh(End(Initial(), es, st).c, key, now) && st.maxTtl <= 0xFFFF_FFFF
    ensures var last := Last(End(Initial(), es, st).c.history, key);
      && last.Some? && last.value.Stored?
      && (last.value.setExpiry ==> InTime(now, last.value, st.maxTtl))
  {
    hide RunInv, IsRun, End;
    InitiallyOk(st);
    RunsKeepInv(Initial(), es, st);
    InCache(End(Initial(), es, st), st);
    HitMayBeServed(End(Initial(), es, st).c, key, now, st.maxTtl);
  }

  lemma InCache(s: State, st: Settings)
    requires RunInv(s, st)
    ensures CacheInv(s.c, st.maxTtl)
  {
    hide CacheInv;
  }

  lemma HitMayBeServed(c: Cache, key: Key, now: Time, maxTtl: nat)
    requires CacheInv(c, maxTtl) && Fresh(c, key, now) && maxTtl <= 0xFFFF_FFFF
    ensures Last(c.history, key).Some? && Last(c.history, key).value.Stored?
    ensures Last(c.history, key).value.setExpiry ==> InTime(now, Last(c.history, key).value, maxTtl)
  {
    hide UsersOf, Last, Ttl, InTime, Transient, CountsOk, ReadersOk;
    var ev := Last(c.history, key).value;
    if ev.setExpiry {
      ExpiryDecides(now, ev, maxTtl);
    }
  }
}
