# LocalChunkProvider in Dafny

This project models the bookkeeping core of Terasology's `LocalChunkProvider`, the
chunk cache and orchestrator of the world streamer. The provider keeps these structures:

- the **near cache**: the resident chunks by coordinate, each with a COMPLETE/INCOMPLETE state tag and an advisory lock;
- the set of coordinates **being prepared**;
- the **ready queue**;
- the **far store**;
- the **relevance regions**, one per observer entity.

Its operations move chunks between these structures. Every public operation, and the
`enact` body of each production task, is modelled as one atomic step on a single class,
`Provider.LocalChunkProvider`. The class invariant `Valid()` says:

- no coordinate is both resident and being prepared;
- the coordinates being prepared are exactly those of the pending tasks, one task each;
- every pending load task's coordinate is in the far store.

Every operation that may run between steps keeps `Valid()`.

The modules follow the program's structure:

- `Geometry` (`geometry.dfy`): coordinates, boxes given as centre ± extents (`Region3i`), their enumeration in visiting order, and the grid distance.
- `Chunks` (`chunks.dfy`): the chunk record, the near cache, and the readiness rule.
- `Relevance` (`relevance.dfy`): the region record the provider relies on. This covers its footprint, dirty flag, recentring and distance change, its two notification logs, the score predicate, and the `Map.remove` key mismatch.
- `Ticking` (`tick.dfy`): the first two phases of the tick, as loops over values proved against the specification functions `TickedAll`, `RequestedBy` and `HeardReady`.
- `Sweeping` (`sweep.dfy`): the cache sweep, specified by the function `Swept` over the five collections it changes, with the loop `Sweep` proved equal to it.
- `Provider` (`provider.dfy`): the class, its fields and every operation.

Loops over `regions.values()` and `nearCache.keySet()` visit the keys in an arbitrary
order, because a hash map's iteration order is unspecified. Contracts therefore say what
holds whatever order is chosen.

## Model

| member | source | states |
|---|---|---|
| Geometry.CenterExtentsMembers | src/main/java/org/terasology/world/chunks/localChunkProvider/LocalChunkProvider.java:341 | the box `center ± extents` holds exactly the coordinates within the extents on every axis |
| Geometry.ExpandCenterExtents | src/main/java/org/terasology/world/chunks/localChunkProvider/LocalChunkProvider.java:136 | growing a centre/extents box by a margin gives the box with the extents increased by that margin |
| Geometry.BoxCoordsMembers | src/main/java/org/terasology/world/chunks/localChunkProvider/LocalChunkProvider.java:130 | iterating over a box visits exactly the coordinates the box encompasses |
| Geometry.GridDistance | src/main/java/org/terasology/world/chunks/localChunkProvider/LocalChunkProvider.java:375-377 | the distance is a natural number, zero exactly when the two coordinates are equal |
| Chunks.IncompleteNeighbourBlocksReadiness | src/main/java/org/terasology/world/chunks/localChunkProvider/LocalChunkProvider.java:341-345 | a neighbour within the readiness extents that is missing or INCOMPLETE makes the centre not ready |
| Chunks.ReadyAmongMembers | src/main/java/org/terasology/world/chunks/localChunkProvider/LocalChunkProvider.java:301-305 | the positions kept from a box scan are exactly the scanned positions that are ready |
| Chunks.CompleteAmongMembers | src/main/java/org/terasology/world/chunks/localChunkProvider/LocalChunkProvider.java:170-177 | the positions a review reports are exactly the needed positions that are resident and COMPLETE |
| Relevance.GrownFootprints | src/main/java/org/terasology/world/chunks/localChunkProvider/LocalChunkProvider.java:136 | production covers `center ± (distance + 2, 0, distance + 2)`; a region retains exactly the chunks in its observer's layer within `distance + 4` on x and on z (the retention check at lines 205-210) |
| Relevance.NewRegion | src/main/java/org/terasology/world/chunks/localChunkProvider/LocalChunkProvider.java:120 | defines the region built for a new observer: it starts dirty, has heard nothing, and covers `center ± (distance, 0, distance)` |
| Relevance.SetDistance | src/main/java/org/terasology/world/chunks/localChunkProvider/LocalChunkProvider.java:113 | the region takes the new distance and keeps its centre and logs; a changed footprint marks it dirty; the same distance changes nothing |
| Relevance.Recompute | src/main/java/org/terasology/world/chunks/localChunkProvider/LocalChunkProvider.java:167 | the region recentres on the observer's known position; a moved footprint marks it dirty; an unknown position changes nothing |
| Relevance.Reviewed | src/main/java/org/terasology/world/chunks/localChunkProvider/LocalChunkProvider.java:168-181 | a reviewed region is up to date and keeps its centre, distance and unload log |
| Relevance.ReviewReportsCompleteFootprint | src/main/java/org/terasology/world/chunks/localChunkProvider/LocalChunkProvider.java:170-177 | a review keeps the old ready log as a prefix and appends exactly the footprint chunks that are resident and COMPLETE |
| Relevance.TickRegion | src/main/java/org/terasology/world/chunks/localChunkProvider/LocalChunkProvider.java:166-182 | after its turn in the first phase a region is no longer dirty |
| Relevance.NotifyReady | src/main/java/org/terasology/world/chunks/localChunkProvider/LocalChunkProvider.java:191-193 | defines the `chunkReady` broadcast: every region, and no other entry, hears one more notice for the position |
| Relevance.NotifyUnloaded | src/main/java/org/terasology/world/chunks/localChunkProvider/LocalChunkProvider.java:225-227 | defines the `chunkUnloaded` broadcast: every region, and no other entry, hears one more notice for the position |
| Relevance.MinScoreUnique | src/main/java/org/terasology/world/chunks/localChunkProvider/LocalChunkProvider.java:357-373 | the minimum-distance score of a position is well defined: any two candidates are equal |
| Relevance.RemoveKey | src/main/java/org/terasology/world/chunks/localChunkProvider/LocalChunkProvider.java:156 | defines `Map.remove`: exactly the entries whose key differs from the argument are kept, with their values |
| Relevance.RegionKeyRemovesNothing | src/main/java/org/terasology/world/chunks/localChunkProvider/LocalChunkProvider.java:156 | removing with a region object as key leaves the regions map unchanged |
| Relevance.EntityKeyRemovesEntity | src/main/java/org/terasology/world/chunks/localChunkProvider/LocalChunkProvider.java:156 | removing with the entity as key drops exactly that entity's region |
| Ticking.TickedAllIsUpToDate | src/main/java/org/terasology/world/chunks/localChunkProvider/LocalChunkProvider.java:166-183 | after the first phase every region is still tracked and up to date, keeps its distance and unload log, and is centred on its observer when the position is known |
| Ticking.UnmovedCleanRegionIsUntouched | src/main/java/org/terasology/world/chunks/localChunkProvider/LocalChunkProvider.java:167-168 | a clean region whose observer has not moved is left as it was and requests no production |
| Ticking.ReviewRegion | src/main/java/org/terasology/world/chunks/localChunkProvider/LocalChunkProvider.java:169-181 | the review loop yields the reviewed region, and wants production exactly when some footprint chunk is missing or not COMPLETE |
| Ticking.TickOne | src/main/java/org/terasology/world/chunks/localChunkProvider/LocalChunkProvider.java:167-181 | one region's turn yields its ticked state, and requests production over the recomputed footprint grown by (2, 0, 2) exactly when its review found a needed chunk lacking |
| Ticking.TickRegions | src/main/java/org/terasology/world/chunks/localChunkProvider/LocalChunkProvider.java:166-183 | every region is ticked; the requested boxes come one from each requesting region, no region twice, and from exactly the regions whose turn asks for production |
| Ticking.Drain | src/main/java/org/terasology/world/chunks/localChunkProvider/LocalChunkProvider.java:188-194 | each drained position, in order, is sent as a ready event and appended to every region's ready log |
| Sweeping.Evictable | src/main/java/org/terasology/world/chunks/localChunkProvider/LocalChunkProvider.java:202-216 | defines eviction eligibility: a resident chunk is evictable exactly when no region's footprint grown by (4, 0, 4) holds it and it is not locked |
| Sweeping.SweptKeepsRetainedOrLocked | src/main/java/org/terasology/world/chunks/localChunkProvider/LocalChunkProvider.java:199-231 | a sweep only removes chunks, leaves every remaining chunk unchanged, and keeps a chunk exactly when some region retains it or it is locked |
| Sweeping.SweptStoresWhatLeaves | src/main/java/org/terasology/world/chunks/localChunkProvider/LocalChunkProvider.java:219-220 | every chunk that leaves the near cache is in the far store with its state; every other far-store entry is kept; nothing else is added |
| Sweeping.SweptReportsOnce | src/main/java/org/terasology/world/chunks/localChunkProvider/LocalChunkProvider.java:219-228 | every chunk that leaves is put into the far store exactly once and sent as an unloaded event exactly once; no other position is |
| Sweeping.SweptNotifiesRegions | src/main/java/org/terasology/world/chunks/localChunkProvider/LocalChunkProvider.java:225-227 | every region stays tracked, keeps all but its unload log, and hears exactly the chunks that left |
| Sweeping.SweptKeepsRetention | src/main/java/org/terasology/world/chunks/localChunkProvider/LocalChunkProvider.java:205-227 | unload notices change no footprint, so a sweep changes which positions are retained in no way |
| Sweeping.SweptIsIdempotent | src/main/java/org/terasology/world/chunks/localChunkProvider/LocalChunkProvider.java:199-231 | a second sweep right after a first finds nothing to evict |
| Sweeping.RetainedIn | src/main/java/org/terasology/world/chunks/localChunkProvider/LocalChunkProvider.java:204-210 | the retention scan answers true exactly when some region's footprint grown by (4, 0, 4) holds the position |
| Sweeping.Sweep | src/main/java/org/terasology/world/chunks/localChunkProvider/LocalChunkProvider.java:201-231 | the iterator loop, whatever order it visits the keys in, ends in the state `Swept` describes |
| Sweeping.SweptEachIsSwept | src/main/java/org/terasology/world/chunks/localChunkProvider/LocalChunkProvider.java:201-231 | the position-by-position outcome of the loop is the outcome `Swept` describes |
| Provider.TrackedAdd | src/main/java/org/terasology/world/chunks/localChunkProvider/LocalChunkProvider.java:291-292 | preparing a new position with one new task keeps the preparing set equal to the task positions, one task each |
| Provider.TrackedRemove | src/main/java/org/terasology/world/chunks/localChunkProvider/LocalChunkProvider.java:300 | taking a task and its position out keeps the tracking exact and every remaining load task stored |
| Provider.Flush | src/main/java/org/terasology/world/chunks/localChunkProvider/LocalChunkProvider.java:258-261 | the flush loop puts every resident chunk into the far store once, with its state |
| Provider.SweepKeepsBookkeeping | src/main/java/org/terasology/world/chunks/localChunkProvider/LocalChunkProvider.java:199-231 | a sweep keeps the prepared coordinates out of the near cache and every load task's coordinate in the far store |
| Provider.LocalChunkProvider.constructor | src/main/java/org/terasology/world/chunks/localChunkProvider/LocalChunkProvider.java:87-93 | a new provider has the given far store and budget, is empty everywhere else, and satisfies the invariant |
| Provider.LocalChunkProvider.GetChunk | src/main/java/org/terasology/world/chunks/localChunkProvider/LocalChunkProvider.java:250-253 | defines the lookup: the resident chunk at the position, and nothing exactly when none is resident |
| Provider.LocalChunkProvider.IsChunkAvailable | src/main/java/org/terasology/world/chunks/localChunkProvider/LocalChunkProvider.java:240-242 | a position is available exactly when the lookup finds a chunk; every ready position is available |
| Provider.LocalChunkProvider.IsChunkReady | src/main/java/org/terasology/world/chunks/localChunkProvider/LocalChunkProvider.java:336-348 | the answer is exactly the readiness rule: the chunk and every chunk within the readiness extents are resident and COMPLETE |
| Provider.LocalChunkProvider.ChunkIsReady | src/main/java/org/terasology/world/chunks/localChunkProvider/LocalChunkProvider.java:331-333 | the position joins the end of the ready queue without any readiness check |
| Provider.LocalChunkProvider.CreateOrLoadChunk | src/main/java/org/terasology/world/chunks/localChunkProvider/LocalChunkProvider.java:287-328 | a resident or already prepared position changes nothing; any other becomes prepared with exactly one task, a load when the far store has it and a generation otherwise; the invariant is kept |
| Provider.LocalChunkProvider.EnactLoad | src/main/java/org/terasology/world/chunks/localChunkProvider/LocalChunkProvider.java:295-307 | the stored chunk is inserted only if the slot is free; the position is resident and no longer prepared; for a COMPLETE chunk exactly the ready positions of its (1, 0, 1) box are queued in box order; a review of that box is requested |
| Provider.LocalChunkProvider.EnactGenerate | src/main/java/org/terasology/world/chunks/localChunkProvider/LocalChunkProvider.java:315-321 | the generated chunk is inserted only if the slot is free; the position is resident and no longer prepared; nothing is queued; a review is requested |
| Provider.LocalChunkProvider.RunTask | src/main/java/org/terasology/world/chunks/localChunkProvider/LocalChunkProvider.java:292-324 | a pending task leaves the queue and its position leaves the preparing set; its chunk becomes resident, because the invariant keeps the slot free; a generation queues nothing; a load of a COMPLETE chunk queues exactly the ready positions of its (1, 0, 1) box in box order; either way a review of that box is requested; the invariant is kept |
| Provider.LocalChunkProvider.AddRelevanceEntity | src/main/java/org/terasology/world/chunks/localChunkProvider/LocalChunkProvider.java:105-137 | a missing entity changes nothing; a tracked one only takes the new distance; otherwise a new region is added that has heard exactly the ready chunks of its footprint in box order, and production over the footprint grown by (2, 0, 2) is requested |
| Provider.LocalChunkProvider.UpdateRelevanceEntity | src/main/java/org/terasology/world/chunks/localChunkProvider/LocalChunkProvider.java:139-150 | a tracked entity's region takes the new distance; an untracked entity changes nothing |
| Provider.LocalChunkProvider.RemoveRelevanceEntity | src/main/java/org/terasology/world/chunks/localChunkProvider/LocalChunkProvider.java:153-160 | as written, the regions map is left unchanged and nothing is evicted |
| Provider.LocalChunkProvider.RemoveRelevanceEntityCorrected | src/main/java/org/terasology/world/chunks/localChunkProvider/LocalChunkProvider.java:153-160 | as intended, exactly the entity's region is dropped; its chunks wait for a sweep |
| Provider.LocalChunkProvider.UpdateRegions | src/main/java/org/terasology/world/chunks/localChunkProvider/LocalChunkProvider.java:166-183 | every region is ticked against the near cache; the production log grows by one box per requesting region and by nothing else |
| Provider.LocalChunkProvider.DrainReadyChunks | src/main/java/org/terasology/world/chunks/localChunkProvider/LocalChunkProvider.java:185-195 | the ready queue ends empty; its positions, in order, become ready events and are heard by every region |
| Provider.LocalChunkProvider.ReviewCacheSize | src/main/java/org/terasology/world/chunks/localChunkProvider/LocalChunkProvider.java:199-232 | over budget, the five collections become their swept state; otherwise nothing changes; the invariant is kept |
| Provider.LocalChunkProvider.Update | src/main/java/org/terasology/world/chunks/localChunkProvider/LocalChunkProvider.java:163-237 | the three phases in order: regions ticked against the old cache with their production requests, then the drained ready queue heard and sent, then a sweep when the old cache was over budget |
| Provider.LocalChunkProvider.Dispose | src/main/java/org/terasology/world/chunks/localChunkProvider/LocalChunkProvider.java:255-262 | the near cache ends empty and every chunk that was resident is put into the far store exactly once, with its state |
| Provider.LocalChunkProvider.Score | src/main/java/org/terasology/world/chunks/localChunkProvider/LocalChunkProvider.java:357-373 | the score is the least grid distance to a region centre, and `Integer.MAX_VALUE` when there is no region |
| Provider.LocalChunkProvider.Compare | src/main/java/org/terasology/world/chunks/localChunkProvider/LocalChunkProvider.java:352-355 | the comparison is the difference of the two scores, so tasks order by ascending score; it stays within the `int` range |

## Left out

- Worker pool, pipeline and locks. The worker threads, the priority queue and `shutdown` are not modelled, and neither is `regionLock`. Submitted tasks form the `tasks` sequence. `RunTask` runs any pending one, since priority is best effort. `requestProduction` and `requestReview` only append their box to a log.
- Persistence. `dispose` is modelled up to the flush. Shutting the pipeline down, `farStore.dispose()` and the serialization to the save file (lines 264-278) are I/O and are left out. So is `size()` (lines 281-284), a float metric of a collaborator.
- Logging and `PerformanceMonitor` are left out. The world entity's events are recorded: ready events as a sequence and unloaded events as a bag.
- Chunk content. The generator's output is the `generated` parameter of `RunTask` and `EnactGenerate`. The far store keeps a chunk's state tag only, and a loaded chunk starts unlocked. `chunk.dispose()` is modelled by the chunk leaving the near cache; no disposed flag is kept. The lock taken around the far-store put is not modelled; the lock flag is only read.
- `CACHE_SIZE` (derived from JVM memory at line 64) is the constructor parameter `budget`. `ChunkConstants.LOCAL_REGION_EXTENTS` is the constructor parameter `extents`, which may differ from the local constant (1, 0, 1) at line 67.
- `ChunkRelevanceRegion` is not part of this model. These assumptions stand in for it:
  - the footprint is `center ± (distance, 0, distance)`;
  - the needed chunks are the whole footprint in box order;
  - `update()` recentres on the observer's chunk position, given as the `positions` map, and marks the region dirty on a move;
  - `setDistance` marks it dirty on a change;
  - `chunkReady` and `chunkUnloaded` are recorded as logs;
  - the listener is not modelled.
- `Region3i` and `Vector3i` are not part of this model. Boxes are centre ± extents with inclusive bounds, visited with x outermost, then y, and z innermost (z varies fastest). `gridDistance` is the Manhattan distance, with no 32-bit overflow.
- Provider.LocalChunkProvider.RunTask: the task bodies are assumed to complete. In the source, an exception from the generator (line 316), or from the far-store fetch or insert (lines 296-297), skips the removal from `preparingChunks` (lines 300 and 320). The coordinate then stays prepared with no task, and `createOrLoadChunk` (line 291) ignores it from then on. The model has no such failure path, so this breach of the tracking invariant cannot arise in it.
- `AddRelevanceEntity` takes `entity.exists()` and the entity's chunk position as parameters.
- Provider.LocalChunkProvider.UpdateRegions: the order of the production requests within one tick is not stated, because the regions map's iteration order is unspecified. The same holds for `Ticking.TickRegions` and `Provider.LocalChunkProvider.Update`.
- Sweeping.Sweep: unloaded events and far-store puts are stated as bags, not sequences, because the near cache's iteration order is unspecified.
- Ticking.Drain: each region hears the drained position, not the chunk object. The source passes the chunk looked up again at that moment, which may be null if it is no longer resident.
- The first phase of the tick reports every needed chunk that is resident and COMPLETE. It does not apply the neighbourhood readiness rule; the model follows the code here.
- The sweep evicts every chunk that is neither retained nor locked, not just enough chunks to get back under budget. The model follows the code here.
- Since the remove operation as written drops no region, a chunk retained by a "removed" observer is never evicted. `RemoveRelevanceEntityCorrected` models the intended behaviour, after which the next sweep over budget evicts the chunk.
- The check-then-lock race during eviction (lines 214-217) is a concurrency concern; `locked` is a plain flag.

## Findings

| source | as written | input that shows it | evidently intended | confidence | as-written member | corrected member |
|---|---|---|---|---|---|---|
| src/main/java/org/terasology/world/chunks/localChunkProvider/LocalChunkProvider.java:156 | `removeRelevanceEntity` removes a freshly built region object from a map keyed by entity references, so no key equals it | any tracked entity `e`: after `removeRelevanceEntity(e)` the region of `e` is still in the map | the region of the removed entity is dropped | not executed; it rests on `ChunkRelevanceRegion` never being equal to an entity reference | Provider.LocalChunkProvider.RemoveRelevanceEntity, Relevance.RegionKeyRemovesNothing | Provider.LocalChunkProvider.RemoveRelevanceEntityCorrected, Relevance.EntityKeyRemovesEntity |
