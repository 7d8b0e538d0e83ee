/**
 Integer 3-D chunk coordinates, axis-aligned boxes of them (the provider's `Region3i`)
 and the grid distance used for task priority (`Vector3i.gridDistance`).
 */
module Geometry {

  /** A chunk coordinate; equality is by value. */
  datatype Vec3 = Vec3(x: int, y: int, z: int)

  function Plus(a: Vec3, b: Vec3): Vec3 {
    Vec3(a.x + b.x, a.y + b.y, a.z + b.z)
  }

  function Minus(a: Vec3, b: Vec3): Vec3 {
    Vec3(a.x - b.x, a.y - b.y, a.z - b.z)
  }

  function Abs(n: int): nat {
    if n < 0 then -n else n
  }

  /** A box with inclusive bounds; it holds no coordinate when some max bound is below its min bound. */
  datatype Box = Box(min: Vec3, max: Vec3)

  predicate Encompasses(b: Box, p: Vec3) {
    && b.min.x <= p.x <= b.max.x
    && b.min.y <= p.y <= b.max.y
    && b.min.z <= p.z <= b.max.z
  }

  /** The box `center ± extents` (`Region3i.createFromCenterExtents`). */
  function CenterExtents(center: Vec3, extents: Vec3): Box {
    Box(Minus(center, extents), Plus(center, extents))
  }

  /** A box given as centre and extents holds the coordinates within the extents on every axis. */
  lemma CenterExtentsMembers(center: Vec3, extents: Vec3)
    ensures forall p :: Encompasses(CenterExtents(center, extents), p) <==>
              Abs(p.x - center.x) <= extents.x && Abs(p.y - center.y) <= extents.y && Abs(p.z - center.z) <= extents.z
  {
  }

  /** The box grown by `margin` on every side (`Region3i.expand`). */
  function Expand(b: Box, margin: Vec3): Box {
    Box(Minus(b.min, margin), Plus(b.max, margin))
  }

  /** Growing `center ± extents` by `margin` gives `center ± (extents + margin)`. */
  lemma ExpandCenterExtents(center: Vec3, extents: Vec3, margin: Vec3)
    ensures Expand(CenterExtents(center, extents), margin) == CenterExtents(center, Plus(extents, margin))
  {
  }

  /** Sum of the per-axis distances (`Vector3i.gridDistance`). */
  function GridDistance(a: Vec3, b: Vec3): (d: nat)
    ensures d == 0 <==> a == b
  {
    Abs(a.x - b.x) + Abs(a.y - b.y) + Abs(a.z - b.z)
  }

  /** The integers `lo..hi`, ascending. */
  function Span(lo: int, hi: int): seq<int>
    decreases hi - lo
  {
    if hi < lo then [] else [lo] + Span(lo + 1, hi)
  }

  lemma {:induction false} SpanMembers(lo: int, hi: int)
    ensures forall k :: k in Span(lo, hi) <==> lo <= k <= hi
    decreases hi - lo
  {
    if lo <= hi {
      SpanMembers(lo + 1, hi);
    }
  }

  function Row(x: int, y: int, zs: seq<int>): seq<Vec3> {
    if zs == [] then [] else [Vec3(x, y, zs[0])] + Row(x, y, zs[1..])
  }

  lemma {:induction false} RowMembers(x: int, y: int, zs: seq<int>)
    ensures forall p :: p in Row(x, y, zs) <==> p.x == x && p.y == y && p.z in zs
  {
    if zs != [] {
      RowMembers(x, y, zs[1..]);
      assert zs == [zs[0]] + zs[1..];
    }
  }

  function Plane(x: int, ys: seq<int>, zs: seq<int>): seq<Vec3> {
    if ys == [] then [] else Row(x, ys[0], zs) + Plane(x, ys[1..], zs)
  }

  lemma {:induction false} PlaneMembers(x: int, ys: seq<int>, zs: seq<int>)
    ensures forall p :: p in Plane(x, ys, zs) <==> p.x == x && p.y in ys && p.z in zs
  {
    if ys != [] {
      RowMembers(x, ys[0], zs);
      PlaneMembers(x, ys[1..], zs);
      assert ys == [ys[0]] + ys[1..];
    }
  }

  function Cube(xs: seq<int>, ys: seq<int>, zs: seq<int>): seq<Vec3> {
    if xs == [] then [] else Plane(xs[0], ys, zs) + Cube(xs[1..], ys, zs)
  }

  lemma {:induction false} CubeMembers(xs: seq<int>, ys: seq<int>, zs: seq<int>)
    ensures forall p :: p in Cube(xs, ys, zs) <==> p.x in xs && p.y in ys && p.z in zs
  {
    if xs != [] {
      PlaneMembers(xs[0], ys, zs);
      CubeMembers(xs[1..], ys, zs);
      assert xs == [xs[0]] + xs[1..];
    }
  }

  /**
   The coordinates of a box in the order the provider visits them (x outermost, then y,
   then z).
   */
  function BoxCoords(b: Box): seq<Vec3> {
    Cube(Span(b.min.x, b.max.x), Span(b.min.y, b.max.y), Span(b.min.z, b.max.z))
  }

  /** The enumeration of a box holds exactly the coordinates the box encompasses. */
  lemma BoxCoordsMembers(b: Box)
    ensures forall p :: p in BoxCoords(b) <==> Encompasses(b, p)
  {
    SpanMembers(b.min.x, b.max.x);
    SpanMembers(b.min.y, b.max.y);
    SpanMembers(b.min.z, b.max.z);
    CubeMembers(Span(b.min.x, b.max.x), Span(b.min.y, b.max.y), Span(b.min.z, b.max.z));
  }

}
