/**
 Chunk records as the provider sees them, the near cache they live in, and the
 readiness rule: a chunk is ready when it and its whole local neighbourhood are
 resident and COMPLETE.
 */
module Chunks {
  import opened Geometry

  datatype ChunkState = Incomplete | Complete

  /**
   A resident chunk: its state tag and its advisory lock, seen as a plain flag. The
   content a generator produces is not part of the record.
   */
  datatype Chunk = Chunk(state: ChunkState, locked: bool)

  /** The near cache: the chunks held in memory, by coordinate. */
  type Cache = map<Vec3, Chunk>

  predicate ResidentComplete(cache: Cache, p: Vec3) {
    p in cache && cache[p].state == Complete
  }

  /**
   The readiness rule: the chunk at `pos` is resident and COMPLETE, and so is every
   chunk in the box `pos ± extents`.
   */
  ghost predicate Ready(cache: Cache, extents: Vec3, pos: Vec3) {
    && ResidentComplete(cache, pos)
    && forall q :: Encompasses(CenterExtents(pos, extents), q) ==> ResidentComplete(cache, q)
  }

  /** A neighbour that is missing or not COMPLETE keeps `pos` from being ready. */
  lemma IncompleteNeighbourBlocksReadiness(cache: Cache, extents: Vec3, pos: Vec3, q: Vec3)
    requires Abs(q.x - pos.x) <= extents.x && Abs(q.y - pos.y) <= extents.y && Abs(q.z - pos.z) <= extents.z
    requires q !in cache || cache[q].state == Incomplete
    ensures !Ready(cache, extents, pos)
  {
    CenterExtentsMembers(pos, extents);
    assert Encompasses(CenterExtents(pos, extents), q);
  }

  /** The members of `qs` that are ready, in the order of `qs`. */
  ghost function ReadyAmong(cache: Cache, extents: Vec3, qs: seq<Vec3>): seq<Vec3> {
    if qs == [] then []
    else
      var last := qs[|qs| - 1];
      ReadyAmong(cache, extents, qs[..|qs| - 1]) + (if Ready(cache, extents, last) then [last] else [])
  }

  /** Exactly the ready members of `qs` are kept. */
  lemma {:induction false} ReadyAmongMembers(cache: Cache, extents: Vec3, qs: seq<Vec3>)
    ensures forall p :: p in ReadyAmong(cache, extents, qs) <==> p in qs && Ready(cache, extents, p)
  {
    if qs != [] {
      ReadyAmongMembers(cache, extents, qs[..|qs| - 1]);
      assert qs == qs[..|qs| - 1] + [qs[|qs| - 1]];
    }
  }

  /** The members of `qs` whose chunk is resident and COMPLETE, in the order of `qs`. */
  ghost function CompleteAmong(cache: Cache, qs: seq<Vec3>): seq<Vec3> {
    if qs == [] then []
    else
      var last := qs[|qs| - 1];
      CompleteAmong(cache, qs[..|qs| - 1]) + (if ResidentComplete(cache, last) then [last] else [])
  }

  /** Exactly the members of `qs` that are resident and COMPLETE are kept. */
  lemma {:induction false} CompleteAmongMembers(cache: Cache, qs: seq<Vec3>)
    ensures forall p :: p in CompleteAmong(cache, qs) <==> p in qs && ResidentComplete(cache, p)
  {
    if qs != [] {
      CompleteAmongMembers(cache, qs[..|qs| - 1]);
      assert qs == qs[..|qs| - 1] + [qs[|qs| - 1]];
    }
  }

}
