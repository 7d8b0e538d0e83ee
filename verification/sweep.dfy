/**
 The cache sweep of the provider's tick: when the near cache is over budget, every
 resident chunk that no relevance region retains and that is not locked is put into
 the far store, dropped from the near cache, reported unloaded to every region and
 sent as an unloaded event. The sweep is specified as a function `Swept` of the five
 collections it changes and implemented by the loop `Sweep`.
 */
module Sweeping {
  import opened Geometry
  import opened Chunks
  import opened Relevance

  /** The five collections a sweep changes. */
  datatype Holdings = Holdings(
    near: Cache,
    store: map<Vec3, ChunkState>,
    puts: multiset<Vec3>,
    regions: map<Entity, Region>,
    events: multiset<Vec3>)

  /** The chunks of `cache` that a sweep removes: not kept by any region and not locked. */
  ghost function Evictable(cache: Cache, regions: map<Entity, Region>): (s: set<Vec3>)
    ensures forall p :: p in s <==> p in cache && !Retained(regions, p) && !cache[p].locked
  {
    set p | p in cache && !Retained(regions, p) && !cache[p].locked
  }

  /** What the far store keeps of the chunks of `cache` at the positions `ps`. */
  ghost function StatesOf(cache: Cache, ps: set<Vec3>): map<Vec3, ChunkState> {
    map p | p in ps && p in cache :: cache[p].state
  }

  /** Every region hears one `chunkUnloaded` notice for each position in `ps`. */
  ghost function UnloadedAll(regions: map<Entity, Region>, ps: set<Vec3>): map<Entity, Region> {
    map e | e in regions :: regions[e].(unloadedLog := regions[e].unloadedLog + multiset(ps))
  }

  /** The outcome of a sweep of `h`. */
  ghost function Swept(h: Holdings): Holdings {
    var evicted := Evictable(h.near, h.regions);
    Holdings(
      h.near - evicted,
      h.store + StatesOf(h.near, evicted),
      h.puts + multiset(evicted),
      UnloadedAll(h.regions, evicted),
      h.events + multiset(evicted))
  }

  /**
   A chunk survives a sweep unchanged exactly when some region retains it or it is
   locked; every chunk that leaves is neither.
   */
  lemma SweptKeepsRetainedOrLocked(h: Holdings)
    ensures Swept(h).near.Keys <= h.near.Keys
    ensures forall p :: p in Swept(h).near ==> Swept(h).near[p] == h.near[p]
    ensures forall p :: p in h.near ==> (p in Swept(h).near <==> Retained(h.regions, p) || h.near[p].locked)
  {
  }

  /**
   The far store receives the state of each chunk that leaves the near cache, and keeps
   every other entry.
   */
  lemma SweptStoresWhatLeaves(h: Holdings)
    ensures forall p :: p in h.near && p !in Swept(h).near ==>
              p in Swept(h).store && Swept(h).store[p] == h.near[p].state
    ensures forall p :: p in h.store && !(p in h.near && p !in Swept(h).near) ==>
              p in Swept(h).store && Swept(h).store[p] == h.store[p]
    ensures Swept(h).store.Keys == h.store.Keys + (h.near.Keys - Swept(h).near.Keys)
  {
    var evicted := Evictable(h.near, h.regions);
    assert forall p :: p in h.near && p !in Swept(h).near <==> p in evicted;
  }

  /** Each chunk that leaves the near cache is put exactly once and sent as an event exactly once. */
  lemma SweptReportsOnce(h: Holdings)
    ensures forall p :: Swept(h).puts[p] == h.puts[p] + (if p in h.near && p !in Swept(h).near then 1 else 0)
    ensures forall p :: Swept(h).events[p] == h.events[p] + (if p in h.near && p !in Swept(h).near then 1 else 0)
  {
    var evicted := Evictable(h.near, h.regions);
    assert forall p :: p in h.near && p !in Swept(h).near <==> p in evicted;
  }

  /**
   Every region stays tracked, keeps its footprint and ready log, and hears exactly
   the chunks that leave.
   */
  lemma SweptNotifiesRegions(h: Holdings)
    ensures Swept(h).regions.Keys == h.regions.Keys
    ensures forall e :: e in h.regions ==>
              && Swept(h).regions[e].(unloadedLog := h.regions[e].unloadedLog) == h.regions[e]
              && Swept(h).regions[e].unloadedLog == h.regions[e].unloadedLog + multiset(h.near.Keys - Swept(h).near.Keys)
  {
    var evicted := Evictable(h.near, h.regions);
    assert h.near.Keys - Swept(h).near.Keys == evicted;
  }

  /** Unload notices change no region's footprint, so a sweep changes no retention. */
  lemma SweptKeepsRetention(h: Holdings, p: Vec3)
    ensures Retained(Swept(h).regions, p) == Retained(h.regions, p)
  {
    var s := Swept(h).regions;
    assert forall e :: e in s ==> Footprint(s[e]) == Footprint(h.regions[e]);
  }

  /** A second sweep right after a first finds nothing to evict. */
  lemma {:induction false} SweptIsIdempotent(h: Holdings)
    ensures Evictable(Swept(h).near, Swept(h).regions) == {}
  {
    SweptKeepsRetainedOrLocked(h);
    forall p | p in Swept(h).near
      ensures Retained(Swept(h).regions, p) || Swept(h).near[p].locked
    {
      SweptKeepsRetention(h, p);
    }
  }

  /**
   `after` is the far store `before` once each chunk of `cache` at a position in `ps`
   has been put into it.
   */
  ghost predicate Stored(before: map<Vec3, ChunkState>, after: map<Vec3, ChunkState>, cache: Cache, ps: set<Vec3>)
    requires ps <= cache.Keys
  {
    && after.Keys == before.Keys + ps
    && forall q :: q in after ==> after[q] == if q in ps then cache[q].state else before[q]
  }

  /** Putting one more chunk of `cache` keeps `Stored`, with that position added. */
  lemma StoredMore(before: map<Vec3, ChunkState>, after: map<Vec3, ChunkState>, cache: Cache, ps: set<Vec3>, p: Vec3)
    requires ps <= cache.Keys && p in cache
    requires Stored(before, after, cache, ps)
    ensures Stored(before, after[p := cache[p].state], cache, ps + {p})
  {
  }

  /** What `Stored` describes is the old far store overridden by the states of the stored chunks. */
  lemma StoredIsUnion(before: map<Vec3, ChunkState>, after: map<Vec3, ChunkState>, cache: Cache, ps: set<Vec3>)
    requires ps <= cache.Keys
    requires Stored(before, after, cache, ps)
    ensures after == before + StatesOf(cache, ps)
  {
    var rhs := before + StatesOf(cache, ps);
    assert after.Keys == rhs.Keys;
  }

  /** `after` holds one more of each position in `ps` than `before`, and no other change. */
  ghost predicate PutOnceEach(before: multiset<Vec3>, after: multiset<Vec3>, ps: set<Vec3>) {
    forall q :: after[q] == before[q] + (if q in ps then 1 else 0)
  }

  /** One more put of a position not yet put extends `PutOnceEach` by that position. */
  lemma PutOnceMore(before: multiset<Vec3>, after: multiset<Vec3>, ps: set<Vec3>, p: Vec3)
    requires PutOnceEach(before, after, ps) && p !in ps
    ensures PutOnceEach(before, after + multiset{p}, ps + {p})
  {
  }

  /** `PutOnceEach` says the same as adding the positions of `ps` once each. */
  lemma PutOnceEachIsUnion(before: multiset<Vec3>, after: multiset<Vec3>, ps: set<Vec3>)
    requires PutOnceEach(before, after, ps)
    ensures after == before + multiset(ps)
  {
    assert forall q :: after[q] == (before + multiset(ps))[q];
  }

  /**
   Every region of `before` is still tracked in `after` and has heard one more
   `chunkUnloaded` notice for each position in `ps`, and nothing else.
   */
  ghost predicate UnloadedEach(before: map<Entity, Region>, after: map<Entity, Region>, ps: set<Vec3>) {
    && after.Keys == before.Keys
    && forall e :: e in after ==>
         && after[e].(unloadedLog := before[e].unloadedLog) == before[e]
         && PutOnceEach(before[e].unloadedLog, after[e].unloadedLog, ps)
  }

  /** One more unload notice to every region extends `UnloadedEach` by that position. */
  lemma UnloadedMore(before: map<Entity, Region>, after: map<Entity, Region>, ps: set<Vec3>, p: Vec3)
    requires UnloadedEach(before, after, ps) && p !in ps
    ensures UnloadedEach(before, NotifyUnloaded(after, p), ps + {p})
  {
    var next := NotifyUnloaded(after, p);
    forall e | e in next
      ensures next[e].(unloadedLog := before[e].unloadedLog) == before[e]
      ensures PutOnceEach(before[e].unloadedLog, next[e].unloadedLog, ps + {p})
    {
      PutOnceMore(before[e].unloadedLog, after[e].unloadedLog, ps, p);
    }
  }

  /** Unload notices change no region's footprint, so they change nothing that is retained. */
  lemma UnloadedKeepsRetained(before: map<Entity, Region>, after: map<Entity, Region>, ps: set<Vec3>, p: Vec3)
    requires UnloadedEach(before, after, ps)
    ensures Retained(after, p) == Retained(before, p)
  {
    assert forall e :: e in after ==> Footprint(after[e]) == Footprint(before[e]);
  }

  /** `UnloadedEach` says the same as `UnloadedAll`. */
  lemma UnloadedEachIsAll(before: map<Entity, Region>, after: map<Entity, Region>, ps: set<Vec3>)
    requires UnloadedEach(before, after, ps)
    ensures after == UnloadedAll(before, ps)
  {
    var all := UnloadedAll(before, ps);
    forall e | e in after ensures after[e] == all[e] {
      PutOnceEachIsUnion(before[e].unloadedLog, after[e].unloadedLog, ps);
    }
  }

  /** A set that holds exactly the evictable chunks, visited one by one, is `Evictable`. */
  lemma SweptAll(cache: Cache, regions: map<Entity, Region>, evicted: set<Vec3>)
    requires evicted <= cache.Keys
    requires forall p :: p in evicted ==> !Retained(regions, p) && !cache[p].locked
    requires forall p :: p in cache && p !in evicted ==> Retained(regions, p) || cache[p].locked
    ensures evicted == Evictable(cache, regions)
  {
  }

  /**
   The retention test of the sweep: the regions are visited in some order until one
   whose footprint, grown by (4, 0, 4), holds `pos`.
   */
  method RetainedIn(regions: map<Entity, Region>, pos: Vec3) returns (keep: bool)
    ensures keep <==> Retained(regions, pos)
  {
    var remaining := regions.Keys;
    while remaining != {}
      invariant remaining <= regions.Keys
      invariant forall e :: e in regions && e !in remaining ==> !RetainedBy(regions[e], pos)
      decreases remaining
    {
      var e :| e in remaining;
      if RetainedBy(regions[e], pos) {
        return true;
      }
      remaining := remaining - {e};
    }
    return false;
  }

  /**
   `after` is `before` swept at the positions outside `remaining`, `evicted` being those
   removed: exactly the evictable ones, each put into the store, reported to every
   region and sent as an event once.
   */
  ghost predicate SweptSoFar(before: Holdings, after: Holdings, evicted: set<Vec3>, remaining: set<Vec3>) {
    && remaining <= before.near.Keys
    && evicted <= before.near.Keys
    && (forall p :: p in evicted ==> p !in remaining && !Retained(before.regions, p) && !before.near[p].locked)
    && (forall p :: p in before.near && p !in remaining && p !in evicted ==> Retained(before.regions, p) || before.near[p].locked)
    && after.near.Keys == before.near.Keys - evicted
    && (forall p :: p in after.near ==> after.near[p] == before.near[p])
    && Stored(before.store, after.store, before.near, evicted)
    && PutOnceEach(before.puts, after.puts, evicted)
    && PutOnceEach(before.events, after.events, evicted)
    && UnloadedEach(before.regions, after.regions, evicted)
  }

  /** A position that is retained or locked is passed over. */
  lemma SweepKeeps(before: Holdings, after: Holdings, evicted: set<Vec3>, remaining: set<Vec3>, p: Vec3)
    requires SweptSoFar(before, after, evicted, remaining) && p in remaining
    requires Retained(before.regions, p) || before.near[p].locked
    ensures SweptSoFar(before, after, evicted, remaining - {p})
  {
  }

  /** A position that is neither retained nor locked is stored, removed and reported. */
  lemma SweepEvicts(before: Holdings, after: Holdings, evicted: set<Vec3>, remaining: set<Vec3>, p: Vec3)
    requires SweptSoFar(before, after, evicted, remaining) && p in remaining
    requires !Retained(before.regions, p) && !before.near[p].locked
    ensures SweptSoFar(before, Holdings(after.near - {p}, after.store[p := before.near[p].state], after.puts + multiset{p},
                                        NotifyUnloaded(after.regions, p), after.events + multiset{p}),
                       evicted + {p}, remaining - {p})
  {
    StoredMore(before.store, after.store, before.near, evicted, p);
    PutOnceMore(before.puts, after.puts, evicted, p);
    PutOnceMore(before.events, after.events, evicted, p);
    UnloadedMore(before.regions, after.regions, evicted, p);
  }

  /**
   The sweep loop: the resident positions are visited in some order; each one that no
   region retains and whose chunk is not locked is put into the store, removed, and
   reported to every region and as an event.
   */
  method Sweep(before: Holdings) returns (after: Holdings)
    ensures after == Swept(before)
  {
    after := before;
    ghost var evicted := {};
    var remaining := before.near.Keys;
    while remaining != {}
      invariant SweptSoFar(before, after, evicted, remaining)
      decreases remaining
    {
      var pos :| pos in remaining;
      UnloadedKeepsRetained(before.regions, after.regions, evicted, pos);
      var keep := RetainedIn(after.regions, pos);
      if keep || after.near[pos].locked {
        SweepKeeps(before, after, evicted, remaining, pos);
      } else {
        var chunk := after.near[pos];
        SweepEvicts(before, after, evicted, remaining, pos);
        after := Holdings(after.near - {pos}, after.store[pos := chunk.state], after.puts + multiset{pos},
                          NotifyUnloaded(after.regions, pos), after.events + multiset{pos});
        evicted := evicted + {pos};
      }
      remaining := remaining - {pos};
    }
    SweptEachIsSwept(before, after, evicted);
  }

  /** Sweeping one position at a time arrives at `Swept`. */
  lemma SweptEachIsSwept(before: Holdings, after: Holdings, evicted: set<Vec3>)
    requires SweptSoFar(before, after, evicted, {})
    ensures after == Swept(before)
  {
    assert evicted == Evictable(before.near, before.regions) by {
      SweptAll(before.near, before.regions, evicted);
    }
    assert after.near == before.near - evicted;
    assert after.store == before.store + StatesOf(before.near, evicted) by {
      StoredIsUnion(before.store, after.store, before.near, evicted);
    }
    assert after.puts == before.puts + multiset(evicted) by {
      PutOnceEachIsUnion(before.puts, after.puts, evicted);
    }
    assert after.events == before.events + multiset(evicted) by {
      PutOnceEachIsUnion(before.events, after.events, evicted);
    }
    assert after.regions == UnloadedAll(before.regions, evicted) by {
      UnloadedEachIsAll(before.regions, after.regions, evicted);
    }
  }

}
