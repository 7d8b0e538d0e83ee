/**
 The local chunk provider: the near cache, the set of chunks being prepared, the
 ready queue, the far store and the relevance regions, with the operations that move
 chunks between them. Every operation, and the body of every production task, is one
 atomic step; the worker pool and the locks are not modelled.
 */
module Provider {
  import opened Wrappers
  import opened Geometry
  import opened Chunks
  import opened Relevance
  import opened Sweeping
  import opened Ticking

  /** The neighbourhood the load task scans for chunks that may have become ready. */
  const LOCAL_REGION_EXTENTS: Vec3 := Vec3(1, 0, 1)

  /** A production task handed to the pipeline: load from the far store, or generate. */
  datatype Task = LoadTask(pos: Vec3) | GenerateTask(pos: Vec3)

  /** The positions being prepared are exactly those of the pending tasks, one task each. */
  ghost predicate Tracked(preparing: set<Vec3>, tasks: seq<Task>) {
    && (forall p :: p in preparing <==> exists i :: 0 <= i < |tasks| && tasks[i].pos == p)
    && (forall i, j :: 0 <= i < j < |tasks| ==> tasks[i].pos != tasks[j].pos)
  }

  /** Every pending load task's position is in the far store. */
  ghost predicate LoadsStored(tasks: seq<Task>, store: map<Vec3, ChunkState>) {
    forall i :: 0 <= i < |tasks| && tasks[i].LoadTask? ==> tasks[i].pos in store
  }

  /** Preparing a new position with one more task keeps the tracking exact. */
  lemma TrackedAdd(preparing: set<Vec3>, tasks: seq<Task>, t: Task)
    requires Tracked(preparing, tasks) && t.pos !in preparing
    ensures Tracked(preparing + {t.pos}, tasks + [t])
  {
    var tasks' := tasks + [t];
    forall p | p in preparing + {t.pos} ensures exists i :: 0 <= i < |tasks'| && tasks'[i].pos == p {
      if p == t.pos {
        assert tasks'[|tasks|].pos == p;
      } else {
        var k :| 0 <= k < |tasks| && tasks[k].pos == p;
        assert tasks'[k].pos == p;
      }
    }
  }

  /**
   Taking the task at index `i` out of the queue, and its position out of the preparing
   set, keeps the tracking exact and every remaining load task's position stored.
   */
  lemma TrackedRemove(preparing: set<Vec3>, tasks: seq<Task>, store: map<Vec3, ChunkState>, i: nat)
    requires Tracked(preparing, tasks) && LoadsStored(tasks, store) && i < |tasks|
    ensures Tracked(preparing - {tasks[i].pos}, tasks[..i] + tasks[i + 1..])
    ensures LoadsStored(tasks[..i] + tasks[i + 1..], store)
  {
    var rest := tasks[..i] + tasks[i + 1..];
    assert forall j :: 0 <= j < |rest| ==> rest[j] == if j < i then tasks[j] else tasks[j + 1];
    forall p | p in preparing - {tasks[i].pos} ensures exists j :: 0 <= j < |rest| && rest[j].pos == p {
      var k :| 0 <= k < |tasks| && tasks[k].pos == p;
      if k < i { assert rest[k].pos == p; } else { assert rest[k - 1].pos == p; }
    }
  }

  /** Once every resident chunk is flushed, the store and the put log are the old ones plus the whole cache. */
  lemma FlushedAll(cache: Cache, store0: map<Vec3, ChunkState>, store: map<Vec3, ChunkState>,
                   puts0: multiset<Vec3>, puts: multiset<Vec3>, flushed: set<Vec3>)
    requires forall p :: p in flushed <==> p in cache
    requires Stored(store0, store, cache, flushed) && PutOnceEach(puts0, puts, flushed)
    ensures store == store0 + StatesOf(cache, cache.Keys)
    ensures puts == puts0 + multiset(cache.Keys)
  {
    assert flushed == cache.Keys;
    assert store == store0 + StatesOf(cache, flushed) by {
      StoredIsUnion(store0, store, cache, flushed);
    }
    assert puts == puts0 + multiset(flushed) by {
      PutOnceEachIsUnion(puts0, puts, flushed);
    }
  }

  /**
   The flush loop of `dispose`: every resident chunk, in some order, is put into the far
   store once.
   */
  method Flush(cache: Cache, store0: map<Vec3, ChunkState>, puts0: multiset<Vec3>)
    returns (store: map<Vec3, ChunkState>, puts: multiset<Vec3>)
    ensures store == store0 + StatesOf(cache, cache.Keys)
    ensures puts == puts0 + multiset(cache.Keys)
  {
    store, puts := store0, puts0;
    var remaining := cache.Keys;
    ghost var flushed: set<Vec3> := {};
    while remaining != {}
      invariant remaining <= cache.Keys
      invariant forall p :: p in flushed <==> p in cache && p !in remaining
      invariant Stored(store0, store, cache, flushed)
      invariant PutOnceEach(puts0, puts, flushed)
      decreases remaining
    {
      var pos :| pos in remaining;
      StoredMore(store0, store, cache, flushed, pos);
      PutOnceMore(puts0, puts, flushed, pos);
      store := store[pos := cache[pos].state];
      puts := puts + multiset{pos};
      remaining, flushed := remaining - {pos}, flushed + {pos};
    }
    FlushedAll(cache, store0, store, puts0, puts, flushed);
  }

  /** A sweep keeps the bookkeeping invariant: the cache only shrinks and the store only grows. */
  lemma SweepKeepsBookkeeping(preparing: set<Vec3>, tasks: seq<Task>, before: Holdings)
    requires preparing !! before.near.Keys && LoadsStored(tasks, before.store)
    ensures preparing !! Swept(before).near.Keys && LoadsStored(tasks, Swept(before).store)
  {
    SweptKeepsRetainedOrLocked(before);
    SweptStoresWhatLeaves(before);
  }

  class LocalChunkProvider {
    /** The near-cache budget (derived from the JVM's memory in the source). */
    const cacheSize: int
    /** The neighbourhood of the readiness rule (`ChunkConstants.LOCAL_REGION_EXTENTS`). */
    const readinessExtents: Vec3

    var nearCache: Cache
    var preparingChunks: set<Vec3>
    var readyChunks: seq<Vec3>
    /** The far store: for each stored position, the state of the chunk it keeps. */
    var farStore: map<Vec3, ChunkState>
    /** Every position `farStore.put` was called with. */
    var farStorePuts: multiset<Vec3>
    var regions: map<Entity, Region>
    /** Tasks submitted to the pipeline and not yet run. */
    var tasks: seq<Task>
    /** Boxes passed to `requestProduction` and `requestReview`. */
    var productionRequests: seq<Box>
    var reviewRequests: seq<Box>
    /** Events sent to the world entity. */
    var readyEvents: seq<Vec3>
    var unloadedEvents: multiset<Vec3>

    /**
     The bookkeeping invariant: no position is both resident and being prepared; the
     positions being prepared are exactly those of the pending tasks, one task each; a
     load task's position is in the far store.
     */
    ghost predicate Valid()
      reads this
    {
      && preparingChunks !! nearCache.Keys
      && Tracked(preparingChunks, tasks)
      && LoadsStored(tasks, farStore)
    }

    /** The five collections the cache sweep changes. */
    function Held(): Holdings
      reads this
    {
      Holdings(nearCache, farStore, farStorePuts, regions, unloadedEvents)
    }

    constructor (store: map<Vec3, ChunkState>, budget: int, extents: Vec3)
      ensures Valid()
      ensures farStore == store && cacheSize == budget && readinessExtents == extents
      ensures nearCache == map[] && preparingChunks == {} && readyChunks == [] && tasks == []
      ensures regions == map[]
      ensures farStorePuts == multiset{} && productionRequests == [] && reviewRequests == []
      ensures readyEvents == [] && unloadedEvents == multiset{}
    {
      cacheSize, readinessExtents := budget, extents;
      nearCache, preparingChunks, readyChunks := map[], {}, [];
      farStore, farStorePuts := store, multiset{};
      regions, tasks := map[], [];
      productionRequests, reviewRequests := [], [];
      readyEvents, unloadedEvents := [], multiset{};
    }

    /** `getChunk`: the resident chunk at `pos`, if any. */
    function GetChunk(pos: Vec3): (r: Option<Chunk>)
      reads this
      ensures r.Some? <==> pos in nearCache
      ensures r.Some? ==> r.value == nearCache[pos]
    {
      if pos in nearCache then Some(nearCache[pos]) else None
    }

    /** `isChunkAvailable`: a chunk is resident at `pos`. */
    function IsChunkAvailable(pos: Vec3): (r: bool)
      reads this
      ensures r <==> GetChunk(pos).Some?
      ensures Ready(nearCache, readinessExtents, pos) ==> r
    {
      pos in nearCache
    }

    /** `isChunkReady`: the readiness rule, checked neighbour by neighbour. */
    method IsChunkReady(pos: Vec3) returns (ready: bool)
      ensures ready == Ready(nearCache, readinessExtents, pos)
    {
      var chunk := GetChunk(pos);
      if chunk.None? || chunk.value.state != Complete {
        return false;
      }
      var neighbourhood := CenterExtents(pos, readinessExtents);
      var adjacent := BoxCoords(neighbourhood);
      BoxCoordsMembers(neighbourhood);
      var i := 0;
      while i < |adjacent|
        invariant 0 <= i <= |adjacent|
        invariant forall j :: 0 <= j < i ==> ResidentComplete(nearCache, adjacent[j])
      {
        var adjChunk := GetChunk(adjacent[i]);
        if adjChunk.None? || adjChunk.value.state != Complete {
          assert Encompasses(neighbourhood, adjacent[i]);
          return false;
        }
        i := i + 1;
      }
      return true;
    }

    /** `chunkIsReady`: an outside signal queues `pos` as ready, without the readiness rule. */
    method ChunkIsReady(pos: Vec3)
      requires Valid()
      modifies this`readyChunks
      ensures Valid()
      ensures readyChunks == old(readyChunks) + [pos]
    {
      readyChunks := readyChunks + [pos];
    }

    /**
     `createOrLoadChunk`: a position neither resident nor being prepared becomes prepared
     and gets exactly one task, a load when the far store has it and a generation otherwise;
     any other position changes nothing.
     */
    method CreateOrLoadChunk(pos: Vec3)
      requires Valid()
      modifies this`preparingChunks, this`tasks
      ensures Valid()
      ensures pos in nearCache || pos in old(preparingChunks) ==>
                preparingChunks == old(preparingChunks) && tasks == old(tasks)
      ensures pos !in nearCache && pos !in old(preparingChunks) ==>
                && preparingChunks == old(preparingChunks) + {pos}
                && tasks == old(tasks) + [if pos in farStore then LoadTask(pos) else GenerateTask(pos)]
    {
      var chunk := GetChunk(pos);
      if chunk.None? {
        if pos !in preparingChunks {
          var task := if pos in farStore then LoadTask(pos) else GenerateTask(pos);
          TrackedAdd(preparingChunks, tasks, task);
          preparingChunks := preparingChunks + {pos};
          tasks := tasks + [task];
        }
      }
    }

    /**
     The load task's body: the stored chunk is inserted unless a chunk is already resident
     (the first writer wins), `pos` leaves the preparing set, and when the loaded chunk is
     COMPLETE every ready position of its (1, 0, 1) neighbourhood is queued, in box order.
     A review of that neighbourhood is requested.
     */
    method EnactLoad(pos: Vec3)
      requires pos in farStore
      modifies this`nearCache, this`preparingChunks, this`readyChunks, this`reviewRequests
      ensures nearCache == if pos in old(nearCache) then old(nearCache)
                           else old(nearCache)[pos := Chunk(farStore[pos], false)]
      ensures pos in nearCache && pos !in preparingChunks
      ensures preparingChunks == old(preparingChunks) - {pos}
      ensures readyChunks == old(readyChunks) +
                if farStore[pos] == Complete
                then ReadyAmong(nearCache, readinessExtents, BoxCoords(CenterExtents(pos, LOCAL_REGION_EXTENTS)))
                else []
      ensures reviewRequests == old(reviewRequests) + [CenterExtents(pos, LOCAL_REGION_EXTENTS)]
    {
      var chunk := Chunk(farStore[pos], false);
      if pos !in nearCache {
        nearCache := nearCache[pos := chunk];
      }
      preparingChunks := preparingChunks - {pos};
      if chunk.state == Complete {
        ghost var cache, preparing := nearCache, preparingChunks;
        var adjacent := BoxCoords(CenterExtents(pos, LOCAL_REGION_EXTENTS));
        var found: seq<Vec3> := [];
        var i := 0;
        while i < |adjacent|
          invariant 0 <= i <= |adjacent|
          invariant found == ReadyAmong(nearCache, readinessExtents, adjacent[..i])
          invariant nearCache == cache && preparingChunks == preparing
          invariant readyChunks == old(readyChunks) && reviewRequests == old(reviewRequests)
        {
          var ready := IsChunkReady(adjacent[i]);
          if ready {
            found := found + [adjacent[i]];
          }
          assert adjacent[..i + 1][..i] == adjacent[..i];
          i := i + 1;
        }
        assert adjacent[..|adjacent|] == adjacent;
        readyChunks := readyChunks + found;
      }
      reviewRequests := reviewRequests + [CenterExtents(pos, LOCAL_REGION_EXTENTS)];
    }

    /**
     The generate task's body: the generated chunk is inserted unless a chunk is already
     resident, `pos` leaves the preparing set, and a review of its neighbourhood is
     requested. Nothing is queued as ready.
     */
    method EnactGenerate(pos: Vec3, generated: Chunk)
      modifies this`nearCache, this`preparingChunks, this`reviewRequests
      ensures nearCache == if pos in old(nearCache) then old(nearCache) else old(nearCache)[pos := generated]
      ensures pos in nearCache && pos !in preparingChunks
      ensures preparingChunks == old(preparingChunks) - {pos}
      ensures reviewRequests == old(reviewRequests) + [CenterExtents(pos, LOCAL_REGION_EXTENTS)]
    {
      if pos !in nearCache {
        nearCache := nearCache[pos := generated];
      }
      preparingChunks := preparingChunks - {pos};
      reviewRequests := reviewRequests + [CenterExtents(pos, LOCAL_REGION_EXTENTS)];
    }

    /**
     A worker takes the pending task at index `i` (priority is best effort, so any index)
     and runs its body. The task leaves the queue, its chunk becomes resident (the slot is
     always free, by the invariant) and the invariant is kept.
     */
    method RunTask(i: nat, generated: Chunk)
      requires Valid() && i < |tasks|
      modifies this`tasks, this`nearCache, this`preparingChunks, this`readyChunks, this`reviewRequests
      ensures Valid()
      ensures tasks == old(tasks[..i] + tasks[i + 1..])
      ensures preparingChunks == old(preparingChunks) - {old(tasks[i].pos)}
      ensures old(tasks[i]).LoadTask? ==>
                nearCache == old(nearCache)[old(tasks[i].pos) := Chunk(farStore[old(tasks[i].pos)], false)]
      ensures old(tasks[i]).GenerateTask? ==> nearCache == old(nearCache)[old(tasks[i].pos) := generated]
      ensures old(tasks[i]).GenerateTask? ==> readyChunks == old(readyChunks)
      ensures old(tasks[i]).LoadTask? ==>
                readyChunks == old(readyChunks) +
                  if farStore[old(tasks[i].pos)] == Complete
                  then ReadyAmong(nearCache, readinessExtents, BoxCoords(CenterExtents(old(tasks[i].pos), LOCAL_REGION_EXTENTS)))
                  else []
      ensures reviewRequests == old(reviewRequests) + [CenterExtents(old(tasks[i].pos), LOCAL_REGION_EXTENTS)]
    {
      var task := tasks[i];
      TrackedRemove(preparingChunks, tasks, farStore, i);
      tasks := tasks[..i] + tasks[i + 1..];
      match task {
        case LoadTask(pos) => EnactLoad(pos);
        case GenerateTask(pos) => EnactGenerate(pos, generated);
      }
    }

    /**
     `addRelevanceEntity`: nothing for an entity that does not exist; for a tracked entity,
     only its distance; otherwise a new region, told of the ready chunks of its footprint,
     and production over the footprint grown by (2, 0, 2). `center` is the entity's
     current chunk position.
     */
    method AddRelevanceEntity(entity: Entity, entityExists: bool, distance: int, center: Vec3)
      requires Valid()
      modifies this`regions, this`productionRequests
      ensures Valid()
      ensures !entityExists ==> regions == old(regions) && productionRequests == old(productionRequests)
      ensures entityExists && entity in old(regions) ==>
                && regions == old(regions)[entity := SetDistance(old(regions)[entity], distance)]
                && productionRequests == old(productionRequests)
      ensures entityExists && entity !in old(regions) ==>
                var created := NewRegion(center, distance);
                && regions == old(regions)[entity := created.(readyLog := ReadyAmong(nearCache, readinessExtents, BoxCoords(Footprint(created))))]
                && productionRequests == old(productionRequests) + [ProductionBox(created)]
    {
      if !entityExists {
        return;
      }
      if entity in regions {
        regions := regions[entity := SetDistance(regions[entity], distance)];
        return;
      }
      var region := NewRegion(center, distance);
      var footprint := BoxCoords(Footprint(region));
      var heard: seq<Vec3> := [];
      var i := 0;
      while i < |footprint|
        invariant 0 <= i <= |footprint|
        invariant heard == ReadyAmong(nearCache, readinessExtents, footprint[..i])
        invariant regions == old(regions) && productionRequests == old(productionRequests)
      {
        var ready := IsChunkReady(footprint[i]);
        if ready {
          heard := heard + [footprint[i]];
        }
        assert footprint[..i + 1][..i] == footprint[..i];
        i := i + 1;
      }
      assert footprint[..|footprint|] == footprint;
      regions := regions[entity := region.(readyLog := heard)];
      productionRequests := productionRequests + [ProductionBox(region)];
    }

    /** `updateRelevanceEntity`: a tracked entity's region takes the new distance; otherwise nothing. */
    method UpdateRelevanceEntity(entity: Entity, distance: int)
      requires Valid()
      modifies this`regions
      ensures Valid()
      ensures regions == if entity in old(regions) then old(regions)[entity := SetDistance(old(regions)[entity], distance)]
                         else old(regions)
    {
      if entity in regions {
        regions := regions[entity := SetDistance(regions[entity], distance)];
      }
    }

    /**
     `removeRelevanceEntity` as written: the map is asked to remove a new region object,
     which equals no entity key, so no region goes away and no chunk is evicted.
     */
    method RemoveRelevanceEntity(entity: Entity)
      requires Valid()
      modifies this`regions
      ensures Valid()
      ensures regions == old(regions)
    {
      regions := RemoveKey(regions, RegionKey(entity, 0));
      RegionKeyRemovesNothing(old(regions), entity, 0);
    }

    /** `removeRelevanceEntity` as intended: the entity's region is dropped; its chunks wait for a sweep. */
    method RemoveRelevanceEntityCorrected(entity: Entity)
      requires Valid()
      modifies this`regions
      ensures Valid()
      ensures regions == old(regions) - {entity}
    {
      regions := RemoveKey(regions, EntityKey(entity));
      EntityKeyRemovesEntity(old(regions), entity);
    }

    /**
     The tick's first phase: each region, in the map's iteration order, is recomputed
     from its observer's position (`positions`; an absent entry means unknown) and, when
     dirty, reviewed; each reviewed region that lacks a needed chunk requests production
     once, over its footprint grown by (2, 0, 2).
     */
    method UpdateRegions(positions: map<Entity, Vec3>)
      requires Valid()
      modifies this`regions, this`productionRequests
      ensures Valid()
      ensures regions == TickedAll(old(regions), positions, nearCache)
      ensures |productionRequests| >= |old(productionRequests)|
      ensures productionRequests[..|old(productionRequests)|] == old(productionRequests)
      ensures exists requesters :: RequestedBy(productionRequests[|old(productionRequests)|..], requesters,
                                               old(regions), positions, nearCache, old(regions).Keys)
    {
      var regs, boxes, requesters := TickRegions(regions, positions, nearCache);
      regions := regs;
      productionRequests := productionRequests + boxes;
      assert productionRequests[|old(productionRequests)|..] == boxes;
    }

    /**
     The tick's second phase: the ready queue is emptied; each drained position, in
     order, is sent as a ready event and reported to every region.
     */
    method DrainReadyChunks()
      requires Valid()
      modifies this`readyChunks, this`readyEvents, this`regions
      ensures Valid()
      ensures readyChunks == []
      ensures readyEvents == old(readyEvents) + old(readyChunks)
      ensures regions == HeardReady(old(regions), old(readyChunks))
    {
      if readyChunks != [] {
        var batch := readyChunks;
        readyChunks := [];
        regions, readyEvents := Drain(regions, readyEvents, batch);
      } else {
        assert forall e :: e in regions ==> regions[e].readyLog + [] == regions[e].readyLog;
        assert HeardReady(regions, []) == regions;
      }
    }

    /**
     The tick's third phase: when the near cache is over budget it is swept (see
     `Swept`); otherwise nothing happens.
     */
    method ReviewCacheSize()
      requires Valid()
      modifies this`nearCache, this`farStore, this`farStorePuts, this`regions, this`unloadedEvents
      ensures Valid()
      ensures Held() == if |old(nearCache)| > cacheSize then Swept(old(Held())) else old(Held())
    {
      if |nearCache| > cacheSize {
        ghost var before := Held();
        var after := Sweep(Held());
        SweepKeepsBookkeeping(preparingChunks, tasks, before);
        Install(after);
      }
    }

    /** Stores `h` into the five collections a sweep changes, keeping the invariant. */
    method Install(h: Holdings)
      requires Valid() && preparingChunks !! h.near.Keys && LoadsStored(tasks, h.store)
      modifies this`nearCache, this`farStore, this`farStorePuts, this`regions, this`unloadedEvents
      ensures Valid() && Held() == h
    {
      nearCache, farStore, farStorePuts, regions, unloadedEvents := h.near, h.store, h.puts, h.regions, h.events;
    }

    /**
     `update`, the periodic tick: the three phases in order. The regions are ticked
     against the near cache as it was, then hear the drained ready queue, and then the
     cache is swept when it was over budget.
     */
    method Update(positions: map<Entity, Vec3>)
      requires Valid()
      modifies this`regions, this`productionRequests, this`readyChunks, this`readyEvents
      modifies this`nearCache, this`farStore, this`farStorePuts, this`unloadedEvents
      ensures Valid()
      ensures |productionRequests| >= |old(productionRequests)|
      ensures productionRequests[..|old(productionRequests)|] == old(productionRequests)
      ensures exists requesters :: RequestedBy(productionRequests[|old(productionRequests)|..], requesters,
                                               old(regions), positions, old(nearCache), old(regions).Keys)
      ensures readyChunks == [] && readyEvents == old(readyEvents) + old(readyChunks)
      ensures var heard := HeardReady(TickedAll(old(regions), positions, old(nearCache)), old(readyChunks));
              var h := Holdings(old(nearCache), old(farStore), old(farStorePuts), heard, old(unloadedEvents));
              Held() == if |old(nearCache)| > cacheSize then Swept(h) else h
    {
      UpdateRegions(positions);
      DrainReadyChunks();
      ReviewCacheSize();
    }

    /**
     The flush part of `dispose`: every resident chunk is put into the far store once
     and the near cache is emptied.
     */
    method Dispose()
      requires Valid()
      modifies this`nearCache, this`farStore, this`farStorePuts
      ensures Valid()
      ensures nearCache == map[]
      ensures farStore == old(farStore) + StatesOf(old(nearCache), old(nearCache).Keys)
      ensures farStorePuts == old(farStorePuts) + multiset(old(nearCache).Keys)
    {
      farStore, farStorePuts := Flush(nearCache, farStore, farStorePuts);
      nearCache := map[];
    }

    /**
     `ChunkTaskRelevanceComparator.score`: the least grid distance from `pos` to a region
     centre, `INT_MAX` when there is no region.
     */
    method Score(pos: Vec3) returns (score: int)
      ensures IsMinScore(regions, pos, score)
      ensures regions == map[] ==> score == INT_MAX
    {
      score := INT_MAX;
      var remaining := regions.Keys;
      while remaining != {}
        invariant remaining <= regions.Keys
        invariant 0 <= score <= INT_MAX
        invariant forall e :: e in regions && e !in remaining ==> score <= GridDistance(pos, regions[e].center)
        invariant score == INT_MAX || exists e :: e in regions && e !in remaining && score == GridDistance(pos, regions[e].center)
        decreases remaining
      {
        var e :| e in remaining;
        var dist := GridDistance(pos, regions[e].center);
        if dist < score {
          score := dist;
        }
        remaining := remaining - {e};
      }
    }

    /**
     `ChunkTaskRelevanceComparator.compare`: the difference of the two scores, so tasks
     order by ascending score; the difference never leaves the Java `int` range.
     */
    method Compare(a: Vec3, b: Vec3) returns (r: int)
      ensures -INT_MAX <= r <= INT_MAX
      ensures forall sa, sb :: IsMinScore(regions, a, sa) && IsMinScore(regions, b, sb) ==> r == sa - sb
    {
      var sa := Score(a);
      var sb := Score(b);
      r := sa - sb;
      forall sa', sb' | IsMinScore(regions, a, sa') && IsMinScore(regions, b, sb') ensures r == sa' - sb' {
        MinScoreUnique(regions, a, sa, sa');
        MinScoreUnique(regions, b, sb, sb');
      }
    }
  }

}
