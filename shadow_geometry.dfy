// Vectors, planes and the small pure geometric predicates of the shadow
// builder (neo/tools/compilers/dmap/shadowopt3.cpp). Coordinates are reals:
// single-precision rounding is not modelled.
module ShadowGeometry {

  datatype Vec3 = Vec3(x: real, y: real, z: real)

  /**
   * The tolerance of the light-frustum classification. LIGHT_CLIP_EPSILON is
   * defined outside shadowopt3.cpp; any positive value serves the model.
   */
  const LIGHT_CLIP_EPSILON: real := 0.1

  /** A plane a*x + b*y + c*z + d = 0; its positive side is "front". */
  datatype Plane = Plane(a: real, b: real, c: real, d: real)

  function Dot(u: Vec3, v: Vec3): real {
    u.x * v.x + u.y * v.y + u.z * v.z
  }

  function Add(u: Vec3, v: Vec3): Vec3 { Vec3(u.x + v.x, u.y + v.y, u.z + v.z) }
  function Sub(u: Vec3, v: Vec3): Vec3 { Vec3(u.x - v.x, u.y - v.y, u.z - v.z) }
  function Scale(v: Vec3, s: real): Vec3 { Vec3(v.x * s, v.y * s, v.z * s) }
  function Neg(v: Vec3): Vec3 { Vec3(-v.x, -v.y, -v.z) }

  /** Signed distance (unnormalised) of a point from a plane, as idPlane::Distance. */
  function Distance(p: Plane, v: Vec3): real {
    p.a * v.x + p.b * v.y + p.c * v.z + p.d
  }

  /** The plane with the opposite orientation. */
  function NegatePlane(p: Plane): Plane { Plane(-p.a, -p.b, -p.c, -p.d) }

  lemma NegatePlaneDistance(p: Plane, v: Vec3)
    ensures Distance(NegatePlane(p), v) == -Distance(p, v)
  {
  }

  /** The point where the segment v1-v2 meets the plane, given the two endpoint distances. */
  function SplitPoint(v1: Vec3, v2: Vec3, d1: real, d2: real): Vec3
    requires d1 != d2
  {
    var t := d1 / (d1 - d2);
    Vec3(v1.x + t * (v2.x - v1.x), v1.y + t * (v2.y - v1.y), v1.z + t * (v2.z - v1.z))
  }

  /** A split point computed from the true distances of its endpoints lies on the plane. */
  lemma SplitPointOnPlane(p: Plane, v1: Vec3, v2: Vec3)
    requires Distance(p, v1) != Distance(p, v2)
    ensures Distance(p, SplitPoint(v1, v2, Distance(p, v1), Distance(p, v2))) == 0.0
  {
    var d1, d2 := Distance(p, v1), Distance(p, v2);
    var t := d1 / (d1 - d2);
    var m := SplitPoint(v1, v2, d1, d2);
    assert t * (d1 - d2) == d1;
    calc {
      Distance(p, m);
      p.a * (v1.x + t * (v2.x - v1.x)) + p.b * (v1.y + t * (v2.y - v1.y)) + p.c * (v1.z + t * (v2.z - v1.z)) + p.d;
      d1 + t * (p.a * (v2.x - v1.x) + p.b * (v2.y - v1.y) + p.c * (v2.z - v1.z));
      { assert p.a * (v2.x - v1.x) + p.b * (v2.y - v1.y) + p.c * (v2.z - v1.z) == d2 - d1; }
      d1 + t * (d2 - d1);
      d1 - t * (d1 - d2);
      0.0;
    }
  }

  // ---------------------------------------------------------------------
  // PointsOrdered (shadowopt3.cpp:1574-1591)

  /** The hash that PointsOrdered compares: x + 127y + 1023z. */
  function OrderKey(v: Vec3): real { v.x + v.y * 127.0 + v.z * 1023.0 }

  function PointsOrdered(a: Vec3, b: Vec3): (r: bool)
  {
    OrderKey(a) < OrderKey(b)
  }

  /**
   * Whichever order two points are passed in, the same one leads: for points
   * with different keys exactly one of the two orders is "ordered".
   */
  lemma PointsOrderedAntisymmetric(a: Vec3, b: Vec3)
    ensures OrderKey(a) != OrderKey(b) ==> (PointsOrdered(a, b) <==> !PointsOrdered(b, a))
    ensures !(PointsOrdered(a, b) && PointsOrdered(b, a))
    ensures !PointsOrdered(a, a)
  {
  }

  /** The order is transitive, so it is a strict order on the keys. */
  lemma PointsOrderedTransitive(a: Vec3, b: Vec3, c: Vec3)
    requires PointsOrdered(a, b) && PointsOrdered(b, c)
    ensures PointsOrdered(a, c)
  {
  }

  /** Points whose keys collide are never ordered either way (the "tiny crack" case). */
  lemma PointsOrderedCollision()
    ensures var a, b := Vec3(127.0, -1.0, 0.0), Vec3(0.0, 0.0, 0.0);
      a != b && !PointsOrdered(a, b) && !PointsOrdered(b, a)
  {
  }

  // ---------------------------------------------------------------------
  // TriOutsideTri / TriBehindTri (shadowopt3.cpp:225-278)

  const EDGE_EPSILON: real := 0.1

  /**
   * shadowTri_t: three vertices, three inward edge normals (positive side is
   * inside the triangle) and the triangle's plane.
   */
  datatype ShadowTri = ShadowTri(v: seq<Vec3>, edge: seq<Vec3>, plane: Plane)
  {
    predicate Valid() { |v| == 3 && |edge| == 3 }
  }

  /** Edge i of b separates all of a's vertices from b's interior. */
  predicate SeparatedBy(a: ShadowTri, b: ShadowTri, i: int)
    requires a.Valid() && b.Valid() && 0 <= i < 3
  {
    forall j :: 0 <= j < 3 ==> Dot(a.v[j], b.edge[i]) <= EDGE_EPSILON
  }

  /** True when some edge of b has all three vertices of a on or outside it. */
  method TriOutsideTri(a: ShadowTri, b: ShadowTri) returns (r: bool)
    requires a.Valid() && b.Valid()
    ensures r <==> exists i :: 0 <= i < 3 && SeparatedBy(a, b, i)
  {
    var i := 0;
    while i < 3
      invariant 0 <= i <= 3
      invariant forall k :: 0 <= k < i ==> !SeparatedBy(a, b, k)
    {
      // the source breaks out of this loop at the first d > EDGE_EPSILON
      var j := 0;
      while j < 3 && Dot(a.v[j], b.edge[i]) <= EDGE_EPSILON
        invariant 0 <= j <= 3
        invariant forall m :: 0 <= m < j ==> Dot(a.v[m], b.edge[i]) <= EDGE_EPSILON
      {
        j := j + 1;
      }
      if j == 3 {
        assert SeparatedBy(a, b, i);
        return true;
      }
      i := i + 1;
    }
    return false;
  }

  /** True when some vertex of a lies strictly in front of b's plane. */
  function TriBehindTri(a: ShadowTri, b: ShadowTri): (r: bool)
    requires a.Valid() && b.Valid()
    ensures r <==> exists k :: 0 <= k < 3 && Distance(b.plane, a.v[k]) > 0.0
  {
    if Distance(b.plane, a.v[0]) > 0.0 then true
    else if Distance(b.plane, a.v[1]) > 0.0 then true
    else Distance(b.plane, a.v[2]) > 0.0
  }
}
