/**
 The first two phases of the provider's tick over plain values: every region is
 recomputed from its observer's position and, when dirty, reviewed against the near
 cache; then the ready queue is drained into every region.
 */
module Ticking {
  import opened Wrappers
  import opened Geometry
  import opened Chunks
  import opened Relevance

  /** Every region after the first phase. */
  ghost function TickedAll(regions: map<Entity, Region>, positions: map<Entity, Vec3>, cache: Cache): map<Entity, Region> {
    map e | e in regions :: TickRegion(regions[e], Observed(positions, e), cache)
  }

  /**
   `boxes` are the production requests of the regions of `visited`: one per region whose
   turn asks for production, `requesters[k]` being the region that asked for `boxes[k]`,
   and none from any other region.
   */
  ghost predicate RequestedBy(boxes: seq<Box>, requesters: seq<Entity>, regions: map<Entity, Region>,
                              positions: map<Entity, Vec3>, cache: Cache, visited: set<Entity>) {
    && |boxes| == |requesters|
    && Distinct(requesters)
    && (forall k :: 0 <= k < |requesters| ==>
          && requesters[k] in visited && requesters[k] in regions
          && boxes[k] == ProductionBox(Recompute(regions[requesters[k]], Observed(positions, requesters[k]))))
    && (forall e :: e in visited && e in regions ==>
          (e in requesters <==> TickRequests(regions[e], Observed(positions, e), cache)))
  }

  /** Every region after it has heard `chunkReady` for each position of `batch`, in order. */
  ghost function HeardReady(regions: map<Entity, Region>, batch: seq<Vec3>): map<Entity, Region> {
    map e | e in regions :: regions[e].(readyLog := regions[e].readyLog + batch)
  }

  /**
   After the first phase every region is up to date, keeps its distance and unload log,
   and its footprint is centred on the observer's position when that is known.
   */
  lemma TickedAllIsUpToDate(regions: map<Entity, Region>, positions: map<Entity, Vec3>, cache: Cache)
    ensures TickedAll(regions, positions, cache).Keys == regions.Keys
    ensures forall e :: e in regions ==>
              var r := TickedAll(regions, positions, cache)[e];
              && !r.dirty
              && r.distance == regions[e].distance
              && r.unloadedLog == regions[e].unloadedLog
              && r.center == (if e in positions then positions[e] else regions[e].center)
  {
    forall e | e in regions
      ensures TickedAll(regions, positions, cache)[e].center == (if e in positions then positions[e] else regions[e].center)
    {
      var moved := Recompute(regions[e], Observed(positions, e));
      assert TickedAll(regions, positions, cache)[e].center == moved.center;
    }
  }

  /**
   A region that was up to date and whose observer has not moved is left exactly as it
   was and asks for no production.
   */
  lemma UnmovedCleanRegionIsUntouched(r: Region, observed: Option<Vec3>, cache: Cache)
    requires !r.dirty
    requires observed.None? || observed.value == r.center
    ensures TickRegion(r, observed, cache) == r
    ensures !TickRequests(r, observed, cache)
  {
  }

  /**
   The review of one dirty region: each needed chunk that is resident and COMPLETE is
   reported to the region, in footprint order, and production is wanted when some
   needed chunk is not; the region is then up to date.
   */
  method ReviewRegion(r: Region, cache: Cache) returns (reviewed: Region, produce: bool)
    ensures reviewed == Reviewed(r, cache)
    ensures produce <==> NeedsProduction(r, cache)
  {
    var needed := NeededChunks(r);
    reviewed, produce := r, false;
    var i := 0;
    while i < |needed|
      invariant 0 <= i <= |needed|
      invariant reviewed == r.(readyLog := r.readyLog + CompleteAmong(cache, needed[..i]))
      invariant produce <==> exists j :: 0 <= j < i && !ResidentComplete(cache, needed[j])
    {
      var pos := needed[i];
      if pos in cache && cache[pos].state == Complete {
        reviewed := reviewed.(readyLog := reviewed.readyLog + [pos]);
      } else {
        produce := true;
      }
      assert needed[..i + 1][..i] == needed[..i];
      i := i + 1;
    }
    assert needed[..|needed|] == needed;
    BoxCoordsMembers(Footprint(r));
    reviewed := reviewed.(dirty := false);
  }

  /**
   One region's turn in the first phase: recomputed, and reviewed when dirty; the box
   to produce over is returned when the review found a needed chunk missing or not
   COMPLETE.
   */
  method TickOne(r: Region, observed: Option<Vec3>, cache: Cache) returns (r': Region, request: Option<Box>)
    ensures r' == TickRegion(r, observed, cache)
    ensures request.Some? <==> TickRequests(r, observed, cache)
    ensures request.Some? ==> request.value == ProductionBox(Recompute(r, observed))
  {
    r', request := Recompute(r, observed), None;
    if r'.dirty {
      var produce;
      ghost var moved := r';
      r', produce := ReviewRegion(r', cache);
      if produce {
        assert ProductionBox(r') == ProductionBox(moved);
        request := Some(ProductionBox(r'));
      }
    }
  }

  /**
   The regions of `regs` outside `remaining` have had their turn; those in it are as
   they were.
   */
  ghost predicate PartlyTicked(regs: map<Entity, Region>, regions: map<Entity, Region>, positions: map<Entity, Vec3>,
                               cache: Cache, remaining: set<Entity>) {
    && remaining <= regions.Keys
    && regs.Keys == regions.Keys
    && (forall e :: e in remaining ==> regs[e] == regions[e])
    && (forall e :: e in regs && e !in remaining ==> regs[e] == TickRegion(regions[e], Observed(positions, e), cache))
  }

  /** Giving one more region its turn. */
  lemma PartlyTickedStep(regs: map<Entity, Region>, regions: map<Entity, Region>, positions: map<Entity, Vec3>,
                         cache: Cache, remaining: set<Entity>, e: Entity)
    requires PartlyTicked(regs, regions, positions, cache, remaining) && e in remaining
    ensures PartlyTicked(regs[e := TickRegion(regs[e], Observed(positions, e), cache)], regions, positions, cache, remaining - {e})
  {
  }

  /** Once every region has had its turn, every region is ticked. */
  lemma PartlyTickedAll(regs: map<Entity, Region>, regions: map<Entity, Region>, positions: map<Entity, Vec3>, cache: Cache)
    requires PartlyTicked(regs, regions, positions, cache, {})
    ensures regs == TickedAll(regions, positions, cache)
  {
  }

  /** One more region's turn adds its request, if it makes one. */
  lemma RequestedStep(boxes: seq<Box>, requesters: seq<Entity>, regions: map<Entity, Region>,
                      positions: map<Entity, Vec3>, cache: Cache, visited: set<Entity>, e: Entity)
    requires RequestedBy(boxes, requesters, regions, positions, cache, visited) && e in regions && e !in visited
    ensures var r, obs := regions[e], Observed(positions, e);
            if TickRequests(r, obs, cache)
            then RequestedBy(boxes + [ProductionBox(Recompute(r, obs))], requesters + [e], regions, positions, cache, visited + {e})
            else RequestedBy(boxes, requesters, regions, positions, cache, visited + {e})
  {
    if TickRequests(regions[e], Observed(positions, e), cache) {
      DistinctSnoc(requesters, e);
    }
  }

  /**
   The first phase: every region, in the map's iteration order, is recomputed from its
   observer's position (absent from `positions` when unknown) and, when dirty, reviewed;
   each reviewed region that lacks a needed chunk requests production once.
   */
  method TickRegions(regions: map<Entity, Region>, positions: map<Entity, Vec3>, cache: Cache)
    returns (regs: map<Entity, Region>, boxes: seq<Box>, ghost requesters: seq<Entity>)
    ensures regs == TickedAll(regions, positions, cache)
    ensures RequestedBy(boxes, requesters, regions, positions, cache, regions.Keys)
  {
    regs, boxes, requesters := regions, [], [];
    var remaining := regions.Keys;
    ghost var visited: set<Entity> := {};
    while remaining != {}
      invariant PartlyTicked(regs, regions, positions, cache, remaining)
      invariant forall e :: e in visited <==> e in regions && e !in remaining
      invariant RequestedBy(boxes, requesters, regions, positions, cache, visited)
      decreases remaining
    {
      var e :| e in remaining;
      PartlyTickedStep(regs, regions, positions, cache, remaining, e);
      RequestedStep(boxes, requesters, regions, positions, cache, visited, e);
      var region, request := TickOne(regs[e], Observed(positions, e), cache);
      if request.Some? {
        boxes := boxes + [request.value];
        requesters := requesters + [e];
      }
      regs := regs[e := region];
      remaining, visited := remaining - {e}, visited + {e};
    }
    assert visited == regions.Keys;
    PartlyTickedAll(regs, regions, positions, cache);
  }

  /**
   The second phase's loop: each position of `batch`, in order, is sent as a ready event
   and reported to every region.
   */
  method Drain(regions: map<Entity, Region>, events0: seq<Vec3>, batch: seq<Vec3>)
    returns (regs: map<Entity, Region>, events: seq<Vec3>)
    ensures regs == HeardReady(regions, batch)
    ensures events == events0 + batch
  {
    regs, events := regions, events0;
    var i := 0;
    while i < |batch|
      invariant 0 <= i <= |batch|
      invariant events == events0 + batch[..i]
      invariant regs.Keys == regions.Keys
      invariant forall e :: e in regs ==> regs[e] == regions[e].(readyLog := regions[e].readyLog + batch[..i])
    {
      var pos := batch[i];
      events := events + [pos];
      regs := NotifyReady(regs, pos);
      assert batch[..i + 1] == batch[..i] + [pos];
      i := i + 1;
    }
    assert batch[..|batch|] == batch;
    assert regs == HeardReady(regions, batch);
  }

}
