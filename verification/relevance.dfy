/**
 Relevance regions: one observer's need for the chunks around its position. The
 region class itself (`ChunkRelevanceRegion`) is not part of this model; this module
 gives it the smallest behaviour the provider relies on: a box footprint
 `center ± (distance, 0, distance)`, a dirty flag set whenever that footprint
 changes, the needed chunks (the whole footprint), and two notification logs.
 */
module Relevance {
  import opened Wrappers
  import opened Geometry
  import opened Chunks

  /** Observers are entity references, identified by their id. */
  type Entity = nat

  /** `Integer.MAX_VALUE`, the score of a task when no region exists. */
  const INT_MAX: int := 0x7fff_ffff

  /**
   A region: the observer's chunk position, its interest distance, the dirty flag, and
   the notifications received so far (`chunkReady` in order, `chunkUnloaded` as a bag).
   */
  datatype Region = Region(
    center: Vec3,
    distance: int,
    dirty: bool,
    readyLog: seq<Vec3>,
    unloadedLog: multiset<Vec3>)

  /** The chunks the region covers (`getRegion`). */
  function Footprint(r: Region): Box {
    CenterExtents(r.center, Vec3(r.distance, 0, r.distance))
  }

  /** The chunks the region asks for once it is dirty (`getNeededChunks`). */
  function NeededChunks(r: Region): seq<Vec3> {
    BoxCoords(Footprint(r))
  }

  /** The box over which production is requested: the footprint grown by (2, 0, 2). */
  function ProductionBox(r: Region): Box {
    Expand(Footprint(r), Vec3(2, 0, 2))
  }

  /** Whether the region keeps `p` from eviction: `p` lies in its footprint grown by (4, 0, 4). */
  predicate RetainedBy(r: Region, p: Vec3) {
    Encompasses(Expand(Footprint(r), Vec3(4, 0, 4)), p)
  }

  /**
   Production covers the footprint widened by two chunks on x and z; a region keeps a
   chunk from eviction when it lies in the observer's layer within four chunks of the
   footprint on x and z.
   */
  lemma GrownFootprints(r: Region)
    ensures ProductionBox(r) == CenterExtents(r.center, Vec3(r.distance + 2, 0, r.distance + 2))
    ensures forall p :: RetainedBy(r, p) <==>
              Abs(p.x - r.center.x) <= r.distance + 4 && p.y == r.center.y && Abs(p.z - r.center.z) <= r.distance + 4
  {
    var extents := Vec3(r.distance, 0, r.distance);
    ExpandCenterExtents(r.center, extents, Vec3(2, 0, 2));
    ExpandCenterExtents(r.center, extents, Vec3(4, 0, 4));
    CenterExtentsMembers(r.center, Vec3(r.distance + 4, 0, r.distance + 4));
  }

  /** A fresh region around the observer's position; it starts dirty and has heard nothing. */
  function NewRegion(center: Vec3, distance: int): (r: Region)
    ensures r.dirty && r.readyLog == [] && r.unloadedLog == multiset{}
    ensures Footprint(r) == CenterExtents(center, Vec3(distance, 0, distance))
  {
    Region(center, distance, true, [], multiset{})
  }

  /** `setDistance`: a new distance is recorded and, when it differs, marks the region dirty. */
  function SetDistance(r: Region, d: int): (r': Region)
    ensures r'.distance == d && r'.center == r.center
    ensures r'.readyLog == r.readyLog && r'.unloadedLog == r.unloadedLog
    ensures Footprint(r') != Footprint(r) ==> r'.dirty
    ensures r'.dirty ==> r.dirty || d != r.distance
    ensures d == r.distance ==> r' == r
  {
    if d == r.distance then r else r.(distance := d, dirty := true)
  }

  /**
   `update`: the observer's current chunk position, when known, becomes the centre;
   a move marks the region dirty.
   */
  function Recompute(r: Region, observed: Option<Vec3>): (r': Region)
    ensures r'.distance == r.distance
    ensures r'.readyLog == r.readyLog && r'.unloadedLog == r.unloadedLog
    ensures Footprint(r') != Footprint(r) ==> r'.dirty
    ensures r'.dirty ==> r.dirty || r'.center != r.center
    ensures observed == None ==> r' == r
  {
    match observed
    case Some(c) => if c == r.center then r else r.(center := c, dirty := true)
    case None => r
  }

  function Observed(positions: map<Entity, Vec3>, e: Entity): Option<Vec3> {
    if e in positions then Some(positions[e]) else None
  }

  /**
   A dirty region reviewed against the near cache: each needed chunk that is resident
   and COMPLETE is reported to it, in footprint order; then it is up to date.
   */
  ghost function Reviewed(r: Region, cache: Cache): (r': Region)
    ensures !r'.dirty && r'.center == r.center && r'.distance == r.distance
    ensures r'.unloadedLog == r.unloadedLog
  {
    r.(readyLog := r.readyLog + CompleteAmong(cache, NeededChunks(r)), dirty := false)
  }

  /**
   A review appends to the region's ready log exactly the chunks of its footprint that
   are resident and COMPLETE.
   */
  lemma ReviewReportsCompleteFootprint(r: Region, cache: Cache)
    ensures Reviewed(r, cache).readyLog[..|r.readyLog|] == r.readyLog
    ensures forall p :: p in Reviewed(r, cache).readyLog[|r.readyLog|..] <==>
              Encompasses(Footprint(r), p) && ResidentComplete(cache, p)
  {
    var added := CompleteAmong(cache, NeededChunks(r));
    assert Reviewed(r, cache).readyLog[|r.readyLog|..] == added;
    CompleteAmongMembers(cache, NeededChunks(r));
    BoxCoordsMembers(Footprint(r));
  }

  /** Some chunk of the footprint, all of which is needed, is missing from the near cache or not yet COMPLETE. */
  ghost predicate NeedsProduction(r: Region, cache: Cache) {
    exists q :: Encompasses(Footprint(r), q) && !ResidentComplete(cache, q)
  }

  /** One region's share of the first phase of the tick. */
  ghost function TickRegion(r: Region, observed: Option<Vec3>, cache: Cache): (r': Region)
    ensures !r'.dirty
  {
    var moved := Recompute(r, observed);
    if moved.dirty then Reviewed(moved, cache) else moved
  }

  /** Whether the region's share of the tick requests production. */
  ghost predicate TickRequests(r: Region, observed: Option<Vec3>, cache: Cache) {
    var moved := Recompute(r, observed);
    moved.dirty && NeedsProduction(moved, cache)
  }

  /** Every region receives a `chunkReady` notice for `p`. */
  function NotifyReady(regions: map<Entity, Region>, p: Vec3): (r: map<Entity, Region>)
    ensures r.Keys == regions.Keys
    ensures forall e :: e in r ==> r[e] == regions[e].(readyLog := regions[e].readyLog + [p])
  {
    map e | e in regions :: regions[e].(readyLog := regions[e].readyLog + [p])
  }

  /** Every region receives a `chunkUnloaded` notice for `p`. */
  function NotifyUnloaded(regions: map<Entity, Region>, p: Vec3): (r: map<Entity, Region>)
    ensures r.Keys == regions.Keys
    ensures forall e :: e in r ==> r[e] == regions[e].(unloadedLog := regions[e].unloadedLog + multiset{p})
  {
    map e | e in regions :: regions[e].(unloadedLog := regions[e].unloadedLog + multiset{p})
  }

  /** Some region keeps `p` from eviction. */
  predicate Retained(regions: map<Entity, Region>, p: Vec3) {
    exists e :: e in regions && RetainedBy(regions[e], p)
  }

  /**
   `s` is the priority score of `pos`: the least grid distance from `pos` to a region
   centre, or `INT_MAX` when there is none (or every centre is farther than that).
   */
  ghost predicate IsMinScore(regions: map<Entity, Region>, pos: Vec3, s: int) {
    && 0 <= s <= INT_MAX
    && (forall e :: e in regions ==> s <= GridDistance(pos, regions[e].center))
    && (s == INT_MAX || exists e :: e in regions && s == GridDistance(pos, regions[e].center))
  }

  /** The score is well defined: two scores of one position agree. */
  lemma MinScoreUnique(regions: map<Entity, Region>, pos: Vec3, s: int, t: int)
    requires IsMinScore(regions, pos, s) && IsMinScore(regions, pos, t)
    ensures s == t
  {
    if s != INT_MAX {
      var e :| e in regions && s == GridDistance(pos, regions[e].center);
      assert t <= s;
    }
    if t != INT_MAX {
      var e :| e in regions && t == GridDistance(pos, regions[e].center);
      assert s <= t;
    }
  }

  /**
   The argument `Map.remove` receives: an entity reference, or a region object. A
   region object is never equal to an entity reference.
   */
  datatype MapKey = EntityKey(entity: Entity) | RegionKey(owner: Entity, distance: int)

  /** `regions.remove(key)`: drops the entry whose key equals `key`, if any. */
  function RemoveKey(regions: map<Entity, Region>, key: MapKey): (r: map<Entity, Region>)
    ensures forall e :: e in r <==> e in regions && EntityKey(e) != key
    ensures forall e :: e in r ==> r[e] == regions[e]
  {
    map e | e in regions && EntityKey(e) != key :: regions[e]
  }

  /** A region object as the key removes nothing: every tracked entity stays tracked. */
  lemma RegionKeyRemovesNothing(regions: map<Entity, Region>, owner: Entity, distance: int)
    ensures RemoveKey(regions, RegionKey(owner, distance)) == regions
  {
    var r := RemoveKey(regions, RegionKey(owner, distance));
    assert r.Keys == regions.Keys;
  }

  /** The entity itself as the key removes exactly that entity's region. */
  lemma EntityKeyRemovesEntity(regions: map<Entity, Region>, entity: Entity)
    ensures RemoveKey(regions, EntityKey(entity)) == regions - {entity}
  {
    var r := RemoveKey(regions, EntityKey(entity));
    assert r.Keys == regions.Keys - {entity};
  }

  /** No entity occurs twice: none occurs among those before it. */
  ghost predicate Distinct(s: seq<Entity>) {
    forall i :: 0 <= i < |s| ==> s[i] !in s[..i]
  }

  /** Appending an entity not yet listed keeps a list free of repeats. */
  lemma DistinctSnoc(s: seq<Entity>, x: Entity)
    requires Distinct(s) && x !in s
    ensures Distinct(s + [x])
  {
    var t := s + [x];
    forall i | 0 <= i < |t| ensures t[i] !in t[..i] {
      if i < |s| {
        assert t[..i] == s[..i];
      } else {
        assert t[..i] == s;
      }
    }
  }

}
