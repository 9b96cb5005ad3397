/** Vectors, window sizes and axis-aligned bounding boxes, as used by the
    scene's world bounds (Boxf) and the camera. */
module Geometry {

  datatype Vec3 = Vec3(x: real, y: real, z: real) {
    function Plus(o: Vec3): Vec3 { Vec3(x + o.x, y + o.y, z + o.z) }
    function Minus(o: Vec3): Vec3 { Vec3(x - o.x, y - o.y, z - o.z) }
    /** Component-wise product (Vector3f * Vector3f). */
    function Times(o: Vec3): Vec3 { Vec3(x * o.x, y * o.y, z * o.z) }
  }

  const Origin: Vec3 := Vec3(0.0, 0.0, 0.0)

  /** Unsigned integer dimensions (Vector3ui), converted to floats on use. */
  datatype Dims = Dims(x: nat, y: nat, z: nat) {
    function ToVec3(): Vec3 { Vec3(x as real, y as real, z as real) }
  }

  /** A two-dimensional window or frame-buffer size. */
  datatype Size = Size(x: nat, y: nat)

  function Min(a: real, b: real): real { if a <= b then a else b }
  function Max(a: real, b: real): real { if a <= b then b else a }

  /** A box is either empty (the default-constructed Boxf) or spans lo..hi. */
  datatype Box = EmptyBox | Box(lo: Vec3, hi: Vec3)

  predicate Contains(b: Box, p: Vec3) {
    b.Box? &&
    b.lo.x <= p.x <= b.hi.x && b.lo.y <= p.y <= b.hi.y && b.lo.z <= p.z <= b.hi.z
  }

  /** Boxf::merge with a point: the box grows just enough to hold p. */
  function Merge(b: Box, p: Vec3): (r: Box)
    ensures Contains(r, p)
    ensures forall q :: Contains(b, q) ==> Contains(r, q)
    ensures r.Box? && (b.Box? ==> Contains(b, p) ==> r == b)
  {
    match b
    case EmptyBox => Box(p, p)
    case Box(lo, hi) =>
      Box(Vec3(Min(lo.x, p.x), Min(lo.y, p.y), Min(lo.z, p.z)),
          Vec3(Max(hi.x, p.x), Max(hi.y, p.y), Max(hi.z, p.z)))
  }

  /** Boxf::merge with another box: the smallest box holding both. */
  function Union(a: Box, b: Box): (r: Box)
    ensures forall q :: Contains(a, q) ==> Contains(r, q)
    ensures forall q :: Contains(b, q) ==> Contains(r, q)
    ensures r.EmptyBox? <==> a.EmptyBox? && b.EmptyBox?
  {
    match b
    case EmptyBox => a
    case Box(lo, hi) => Merge(Merge(a, lo), hi)
  }
}
