// The shadow-frustum layout of a light (neo/tools/compilers/dmap/map.cpp:
// 540-702): a projected light gets one frustum made of its own six frustum
// planes turned inward; a point light gets one frustum per face of its light
// box that the centre of projection does not lie behind, each bounded by the
// face's back plane and four planes through the face edges and the centre.
//
// Planes are built unnormalised (idPlane::FromPoints divides the normal by
// its length; only signs of distances are read here, and a positive scale
// does not change them).
module MapLight {
  import opened ShadowGeometry

  function Cross(u: Vec3, v: Vec3): Vec3 {
    Vec3(u.y * v.z - u.z * v.y, u.z * v.x - u.x * v.z, u.x * v.y - u.y * v.x)
  }

  /** idPlane::FromPoints without the normalisation: normal (p1 - p2) x (p3 - p2), through p2. */
  function FromPoints(p1: Vec3, p2: Vec3, p3: Vec3): Plane {
    var n := Cross(Sub(p1, p2), Sub(p3, p2));
    Plane(n.x, n.y, n.z, -Dot(n, p2))
  }

  /** The plane through three points holds all three. */
  lemma FromPointsHolds(p1: Vec3, p2: Vec3, p3: Vec3)
    ensures var pl := FromPoints(p1, p2, p3);
      Distance(pl, p1) == 0.0 && Distance(pl, p2) == 0.0 && Distance(pl, p3) == 0.0
  {
    var u, v := Sub(p1, p2), Sub(p3, p2);
    var n := Cross(u, v);
    var pl := FromPoints(p1, p2, p3);
    assert Distance(pl, p1) == Dot(n, u) by {
      assert p1 == Add(p2, u);
    }
    assert Dot(n, u) == 0.0 by {
      assert n.x * u.x == u.y * v.z * u.x - u.z * v.y * u.x;
      assert n.y * u.y == u.z * v.x * u.y - u.x * v.z * u.y;
      assert n.z * u.z == u.x * v.y * u.z - u.y * v.x * u.z;
    }
    assert Distance(pl, p3) == Dot(n, v) by {
      assert p3 == Add(p2, v);
    }
    assert Dot(n, v) == 0.0 by {
      assert n.x * v.x == u.y * v.z * v.x - u.z * v.y * v.x;
      assert n.y * v.y == u.z * v.x * v.y - u.x * v.z * v.y;
      assert n.z * v.z == u.x * v.y * v.z - u.y * v.x * v.z;
    }
  }

  /** shadowFrustum_t. */
  datatype ShadowFrustum = ShadowFrustum(numPlanes: int, planes: seq<Plane>, makeClippedPlanes: bool)

  /** The light parameters the layout reads; axis holds the three rows of the light's rotation. */
  datatype LightParms = LightParms(pointLight: bool, lightRadius: Vec3, lightCenter: Vec3, origin: Vec3, axis: seq<Vec3>)

  const MAX_SHADOW_FRUSTUMS: int := 6

  /** idRenderLightLocal: its parameters, derived origin and frustum, and the shadow frustums it owns. */
  class Light {
    var parms: LightParms
    var globalLightOrigin: Vec3
    var frustum: seq<Plane>
    var shadowFrustums: array<ShadowFrustum>
    var numShadowFrustums: int

    ghost predicate Valid()
      reads this
    {
      |parms.axis| == 3 && |frustum| == 6 && shadowFrustums.Length == MAX_SHADOW_FRUSTUMS
    }
  }

  // ---------------------------------------------------------------------
  // The light box

  /** Bit j of corner number i (i & (1 << j)) picks +radius (set) or -radius (clear) on axis j. */
  predicate CornerBit(i: int, j: int)
    requires 0 <= i < 8 && 0 <= j < 3
  {
    (if j == 0 then i else if j == 1 then i / 2 else i / 4) % 2 == 1
  }

  /** The corner's offset in light space. */
  function CornerOffset(l: LightParms, i: int): Vec3
    requires 0 <= i < 8
  {
    Vec3(if CornerBit(i, 0) then l.lightRadius.x else -l.lightRadius.x,
         if CornerBit(i, 1) then l.lightRadius.y else -l.lightRadius.y,
         if CornerBit(i, 2) then l.lightRadius.z else -l.lightRadius.z)
  }

  /** origin + axis * offset, the rows of axis being the light's axes. */
  function Corner(l: LightParms, i: int): Vec3
    requires |l.axis| == 3 && 0 <= i < 8
  {
    var t := CornerOffset(l, i);
    Add(l.origin, Add(Scale(l.axis[0], t.x), Add(Scale(l.axis[1], t.y), Scale(l.axis[2], t.z))))
  }

  function Corners(l: LightParms): (c: seq<Vec3>)
    requires |l.axis| == 3
    ensures |c| == 8
  {
    seq(8, i requires 0 <= i < 8 => Corner(l, i))
  }

  /** The four corners of each face, in order around the face. */
  const FACE_CORNERS: seq<seq<int>> := [[7, 5, 1, 3], [4, 6, 2, 0], [6, 7, 3, 2], [5, 4, 0, 1], [6, 4, 5, 7], [3, 1, 0, 2]]

  /** For each face edge, the corner across it on the neighbouring face. */
  const FACE_EDGE_ADJACENT: seq<seq<int>> := [[4, 4, 2, 2], [7, 7, 1, 1], [5, 5, 0, 0], [6, 6, 3, 3], [0, 0, 3, 3], [5, 5, 6, 6]]

  /** The corner after corner "edge" around a face: (edge + 1) & 3, which on 0..3 is (edge + 1) mod 4. */
  function NextCorner(edge: int): (r: int)
    requires 0 <= edge < 4
    ensures 0 <= r < 4
  {
    (edge + 1) % 4
  }

  function FaceCorner(side: int, k: int): (c: int)
    requires 0 <= side < 6 && 0 <= k < 4
    ensures 0 <= c < 8
  {
    FACE_CORNERS[side][k]
  }

  function AdjacentCorner(side: int, edge: int): (c: int)
    requires 0 <= side < 6 && 0 <= edge < 4
    ensures 0 <= c < 8
  {
    FACE_EDGE_ADJACENT[side][edge]
  }

  /** Two corner numbers differ in exactly one of the three bits. */
  predicate OneBitApart(a: int, b: int)
    requires 0 <= a < 8 && 0 <= b < 8
  {
    var d0, d1, d2 := CornerBit(a, 0) != CornerBit(b, 0), CornerBit(a, 1) != CornerBit(b, 1), CornerBit(a, 2) != CornerBit(b, 2);
    (d0 && !d1 && !d2) || (!d0 && d1 && !d2) || (!d0 && !d1 && d2)
  }

  /**
   * The tables describe the light box: side 2a+b is the face where bit a of
   * every corner number is set (b = 0) or clear (b = 1); its four corners
   * are distinct and each step round the face crosses one box edge (the
   * corner numbers differ in one bit); and the adjacent corner of an edge
   * lies off the face, one box edge away from one of the edge's ends.
   */
  lemma FaceTable(side: int, edge: int)
    requires 0 <= side < 6 && 0 <= edge < 4
    ensures CornerBit(FaceCorner(side, edge), side / 2) == (side % 2 == 0)
    ensures forall k :: 0 <= k < 4 && k != edge ==> FaceCorner(side, k) != FaceCorner(side, edge)
    ensures OneBitApart(FaceCorner(side, edge), FaceCorner(side, NextCorner(edge)))
    ensures CornerBit(AdjacentCorner(side, edge), side / 2) != (side % 2 == 0)
    ensures OneBitApart(AdjacentCorner(side, edge), FaceCorner(side, edge))
      || OneBitApart(AdjacentCorner(side, edge), FaceCorner(side, NextCorner(edge)))
  {
  }

  // ---------------------------------------------------------------------
  // One face

  /** Whether the centre of projection lies outside the light box on some axis. */
  predicate CenterOutside(l: LightParms) {
    Abs(l.lightCenter.x) > l.lightRadius.x || Abs(l.lightCenter.y) > l.lightRadius.y
    || Abs(l.lightCenter.z) > l.lightRadius.z
  }

  function Abs(r: real): real { if r < 0.0 then -r else r }

  // The face functions read the light box through its eight corners c
  // (Corners) and whether the centre is outside it (CenterOutside).

  /** The plane through the face's first three corners, positive side inward. */
  function BackPlane(c: seq<Vec3>, side: int): Plane
    requires |c| == 8 && 0 <= side < 6
  {
    FromPoints(c[FaceCorner(side, 0)], c[FaceCorner(side, 1)], c[FaceCorner(side, 2)])
  }

  /** The face gets a frustum unless the centre of projection is behind its back plane. */
  predicate Faces(c: seq<Vec3>, origin: Vec3, side: int)
    requires |c| == 8 && 0 <= side < 6
  {
    !(Distance(BackPlane(c, side), origin) < 0.0)
  }

  /** The plane through the edge's two corners and the centre of projection. */
  function CentrePlane(c: seq<Vec3>, origin: Vec3, side: int, edge: int): Plane
    requires |c| == 8 && 0 <= side < 6 && 0 <= edge < 4
  {
    FromPoints(c[FaceCorner(side, NextCorner(edge))], c[FaceCorner(side, edge)], origin)
  }

  /** The plane through the edge's two corners and the adjacent corner across the edge. */
  function SidePlane(c: seq<Vec3>, side: int, edge: int): Plane
    requires |c| == 8 && 0 <= side < 6 && 0 <= edge < 4
  {
    FromPoints(c[FaceCorner(side, NextCorner(edge))], c[FaceCorner(side, edge)], c[AdjacentCorner(side, edge)])
  }

  /** The edge's plane: the side plane when the centre is outside the box and behind that plane, else the centre plane. */
  function EdgePlane(c: seq<Vec3>, outside: bool, origin: Vec3, side: int, edge: int): Plane
    requires |c| == 8 && 0 <= side < 6 && 0 <= edge < 4
  {
    if outside && Distance(SidePlane(c, side, edge), origin) < 0.0 then SidePlane(c, side, edge)
    else CentrePlane(c, origin, side, edge)
  }

  /** The six planes a face's frustum gets: the four edge planes, then the back plane twice. */
  function FacePlanes(c: seq<Vec3>, outside: bool, origin: Vec3, side: int): seq<Plane>
    requires |c| == 8 && 0 <= side < 6
  {
    var back := BackPlane(c, side);
    [EdgePlane(c, outside, origin, side, 0), EdgePlane(c, outside, origin, side, 1),
     EdgePlane(c, outside, origin, side, 2), EdgePlane(c, outside, origin, side, 3), back, back]
  }

  /** What the layout needs to know of one face: whether it gets a frustum, and the planes it would get. */
  datatype Face = Face(facing: bool, planes: seq<Plane>)

  function BoxFaces(c: seq<Vec3>, outside: bool, origin: Vec3): (f: seq<Face>)
    requires |c| == 8
    ensures |f| == 6
  {
    seq(6, side requires 0 <= side < 6 => Face(Faces(c, origin, side), FacePlanes(c, outside, origin, side)))
  }

  /** The faces of a light's box, seen from origin. */
  function LightFaces(l: LightParms, origin: Vec3): (f: seq<Face>)
    requires |l.axis| == 3
    ensures |f| == 6
  {
    BoxFaces(Corners(l), CenterOutside(l), origin)
  }

  /** The frustum slot after a face is written into it: six planes, makeClippedPlanes set when the centre is outside. */
  function Place(face: Face, outside: bool, prev: ShadowFrustum): ShadowFrustum {
    ShadowFrustum(6, face.planes, prev.makeClippedPlanes || outside)
  }

  /**
   * Every plane of a face's frustum is built from that face: the back plane
   * holds three of the face's corners, and each edge plane holds both
   * corners of its edge and either the centre of projection or, when it was
   * swapped, the adjacent corner with the centre strictly behind it.
   */
  lemma FacePlanesThrough(c: seq<Vec3>, outside: bool, origin: Vec3, side: int, edge: int)
    requires |c| == 8 && 0 <= side < 6 && 0 <= edge < 4
    ensures var f := FacePlanes(c, outside, origin, side);
      |f| == 6 && f[4] == f[5] == BackPlane(c, side)
      && Distance(f[4], c[FaceCorner(side, 0)]) == 0.0
      && Distance(f[4], c[FaceCorner(side, 1)]) == 0.0
      && Distance(f[4], c[FaceCorner(side, 2)]) == 0.0
      && Distance(f[edge], c[FaceCorner(side, edge)]) == 0.0
      && Distance(f[edge], c[FaceCorner(side, NextCorner(edge))]) == 0.0
      && (Distance(f[edge], origin) == 0.0
          || (outside && Distance(f[edge], origin) < 0.0
              && Distance(f[edge], c[AdjacentCorner(side, edge)]) == 0.0))
  {
    FromPointsHolds(c[FaceCorner(side, 0)], c[FaceCorner(side, 1)], c[FaceCorner(side, 2)]);
    FromPointsHolds(c[FaceCorner(side, NextCorner(edge))], c[FaceCorner(side, edge)], origin);
    FromPointsHolds(c[FaceCorner(side, NextCorner(edge))], c[FaceCorner(side, edge)], c[AdjacentCorner(side, edge)]);
    var f := FacePlanes(c, outside, origin, side);
    assert f[edge] == EdgePlane(c, outside, origin, side, edge);
  }

  // ---------------------------------------------------------------------
  // The six faces

  /** The face loop after its first "side" turns: the frustum slots and numShadowFrustums. */
  function Layout(faces: seq<Face>, outside: bool, side: int, slots: seq<ShadowFrustum>): (r: (seq<ShadowFrustum>, int))
    requires |faces| == 6 && 0 <= side <= 6 && |slots| == MAX_SHADOW_FRUSTUMS
    ensures |r.0| == MAX_SHADOW_FRUSTUMS && 0 <= r.1 <= side
  {
    if side == 0 then (slots, 0)
    else
      var r := Layout(faces, outside, side - 1, slots);
      if !faces[side - 1].facing then r
      else (r.0[r.1 := Place(faces[side - 1], outside, r.0[r.1])], r.1 + 1)
  }

  /** The faces before side that get a frustum, in order. */
  function FacingBefore(faces: seq<Face>, side: int): (f: seq<int>)
    requires |faces| == 6 && 0 <= side <= 6
    ensures |f| <= side && forall k :: 0 <= k < |f| ==> 0 <= f[k] < side && faces[f[k]].facing
  {
    if side == 0 then []
    else FacingBefore(faces, side - 1) + (if faces[side - 1].facing then [side - 1] else [])
  }

  /**
   * The layout without the loop: the k-th facing face, in face order, is
   * written into slot k (keeping that slot's makeClippedPlanes if it was
   * set), numShadowFrustums counts the facing faces, and the slots after
   * them keep what they held.
   */
  lemma {:induction false} LayoutMeaning(faces: seq<Face>, outside: bool, side: int, slots: seq<ShadowFrustum>)
    requires |faces| == 6 && 0 <= side <= 6 && |slots| == MAX_SHADOW_FRUSTUMS
    ensures var r := Layout(faces, outside, side, slots); var f := FacingBefore(faces, side);
      r.1 == |f| && r.0[|f|..] == slots[|f|..]
      && forall k :: 0 <= k < |f| ==> r.0[k] == Place(faces[f[k]], outside, slots[k])
  {
    if side > 0 {
      LayoutMeaning(faces, outside, side - 1, slots);
      var g := FacingBefore(faces, side - 1);
      var s, count := Layout(faces, outside, side - 1, slots).0, Layout(faces, outside, side - 1, slots).1;
      if faces[side - 1].facing {
        var f := FacingBefore(faces, side);
        var r := Layout(faces, outside, side, slots);
        assert f == g + [side - 1];
        assert s[count] == slots[count] by {
          assert s[count] == s[|g|..][0];
        }
        assert r.0[|f|..] == slots[|f|..] by {
          assert r.0[|f|..] == s[|g|..][1..];
        }
      }
    }
  }

  // ---------------------------------------------------------------------
  // The projected light

  /** A projected light's single frustum: its six frustum planes flipped to face inward. */
  function ProjectedFrustum(frustum: seq<Plane>): ShadowFrustum
    requires |frustum| == 6
  {
    ShadowFrustum(6, seq(6, i requires 0 <= i < 6 => NegatePlane(frustum[i])), true)
  }

  /** Every point strictly inside the light frustum is strictly inside the shadow frustum, and the reverse. */
  lemma ProjectedFrustumInward(frustum: seq<Plane>, v: Vec3, i: int)
    requires |frustum| == 6 && 0 <= i < 6
    ensures Distance(ProjectedFrustum(frustum).planes[i], v) > 0.0 <==> Distance(frustum[i], v) < 0.0
  {
    NegatePlaneDistance(frustum[i], v);
  }

  // ---------------------------------------------------------------------
  // The method

  /** The "for i < 8" corner loop. */
  method MakeCorners(l: LightParms) returns (corners: seq<Vec3>)
    requires |l.axis| == 3
    ensures corners == Corners(l)
  {
    corners := [];
    var i := 0;
    while i < 8
      invariant 0 <= i <= 8 && corners == Corners(l)[..i]
    {
      var temp := CornerOffset(l, i);
      corners := corners + [Add(l.origin, Add(Scale(l.axis[0], temp.x), Add(Scale(l.axis[1], temp.y), Scale(l.axis[2], temp.z))))];
      i := i + 1;
    }
  }

  /** The "for edge < 4" loop of one face, writing the four edge planes. */
  method EdgePlanes(corners: seq<Vec3>, centerOutside: bool, origin: Vec3, side: int) returns (planes: seq<Plane>)
    requires |corners| == 8 && 0 <= side < 6
    ensures |planes| == 4 && forall e :: 0 <= e < 4 ==> planes[e] == EdgePlane(corners, centerOutside, origin, side, e)
  {
    planes := [];
    var edge := 0;
    while edge < 4
      invariant 0 <= edge <= 4 && |planes| == edge
      invariant forall e :: 0 <= e < edge ==> planes[e] == EdgePlane(corners, centerOutside, origin, side, e)
    {
      var p1 := corners[FaceCorner(side, edge)];
      var p2 := corners[FaceCorner(side, NextCorner(edge))];
      var plane := FromPoints(p2, p1, origin);
      if centerOutside {
        var p3 := corners[AdjacentCorner(side, edge)];
        var sidePlane := FromPoints(p2, p1, p3);
        if Distance(sidePlane, origin) < 0.0 {
          plane := sidePlane;
        }
      }
      planes := planes + [plane];
      edge := edge + 1;
    }
  }

  /** One turn of the face loop: the back-plane test and, for a facing face, its six planes. */
  method BuildFace(corners: seq<Vec3>, centerOutside: bool, origin: Vec3, side: int) returns (facing: bool, planes: seq<Plane>)
    requires |corners| == 8 && 0 <= side < 6
    ensures facing == Faces(corners, origin, side) && (facing ==> planes == FacePlanes(corners, centerOutside, origin, side))
  {
    var back := FromPoints(corners[FaceCorner(side, 0)], corners[FaceCorner(side, 1)], corners[FaceCorner(side, 2)]);
    var d := Distance(back, origin);
    if d < 0.0 {
      return false, [];
    }
    var edges := EdgePlanes(corners, centerOutside, origin, side);
    planes := edges + [back, back];
    assert planes == FacePlanes(corners, centerOutside, origin, side);
    return true, planes;
  }

  /** The "for side < 6" loop: one frustum per facing face of the box, as Layout says. */
  method LayoutFaces(light: Light, corners: seq<Vec3>, centerOutside: bool)
    requires light.Valid() && |corners| == 8
    modifies light, light.shadowFrustums
    ensures light.Valid() && light.shadowFrustums == old(light.shadowFrustums)
    ensures light.parms == old(light.parms) && light.globalLightOrigin == old(light.globalLightOrigin)
    ensures light.frustum == old(light.frustum)
    ensures (light.shadowFrustums[..], light.numShadowFrustums)
      == Layout(BoxFaces(corners, centerOutside, light.globalLightOrigin), centerOutside, 6, old(light.shadowFrustums[..]))
  {
    var origin := light.globalLightOrigin;
    ghost var faces := BoxFaces(corners, centerOutside, origin);
    ghost var slots0 := light.shadowFrustums[..];
    light.numShadowFrustums := 0;
    var side := 0;
    while side < 6
      invariant 0 <= side <= 6
      invariant light.parms == old(light.parms) && light.globalLightOrigin == origin && light.frustum == old(light.frustum)
      invariant light.shadowFrustums == old(light.shadowFrustums) && light.Valid()
      invariant (light.shadowFrustums[..], light.numShadowFrustums) == Layout(faces, centerOutside, side, slots0)
    {
      var facing, planes := BuildFace(corners, centerOutside, origin, side);
      assert faces[side] == Face(Faces(corners, origin, side), FacePlanes(corners, centerOutside, origin, side));
      if facing {
        var n := light.numShadowFrustums;
        var prev := light.shadowFrustums[n];
        var frust := ShadowFrustum(6, planes, prev.makeClippedPlanes || centerOutside);
        ghost var before := light.shadowFrustums[..];
        light.shadowFrustums[n] := frust;
        assert light.shadowFrustums[..] == before[n := frust];
        light.numShadowFrustums := n + 1;
      }
      side := side + 1;
    }
  }

  /** The point-light branch: the light box's corners, then the face loop. */
  method MakePointFrustums(light: Light)
    requires light.Valid()
    modifies light, light.shadowFrustums
    ensures light.Valid() && light.shadowFrustums == old(light.shadowFrustums)
    ensures light.parms == old(light.parms) && light.globalLightOrigin == old(light.globalLightOrigin)
    ensures light.frustum == old(light.frustum)
    ensures (light.shadowFrustums[..], light.numShadowFrustums)
      == Layout(LightFaces(light.parms, light.globalLightOrigin), CenterOutside(light.parms), 6, old(light.shadowFrustums[..]))
  {
    var l := light.parms;
    var centerOutside := Abs(l.lightCenter.x) > l.lightRadius.x || Abs(l.lightCenter.y) > l.lightRadius.y
      || Abs(l.lightCenter.z) > l.lightRadius.z;
    var corners := MakeCorners(l);
    LayoutFaces(light, corners, centerOutside);
  }

  /** The projected-light branch: slot 0 gets the light's frustum planes flipped. */
  method MakeProjectedFrustum(light: Light)
    requires light.Valid()
    modifies light, light.shadowFrustums
    ensures light.Valid() && light.shadowFrustums == old(light.shadowFrustums)
    ensures light.parms == old(light.parms) && light.globalLightOrigin == old(light.globalLightOrigin)
    ensures light.frustum == old(light.frustum)
    ensures light.numShadowFrustums == 1 && light.shadowFrustums[..] == old(light.shadowFrustums[..])[0 := ProjectedFrustum(light.frustum)]
  {
    light.numShadowFrustums := 1;
    var planes := [];
    var i := 0;
    while i < 6
      invariant 0 <= i <= 6 && |planes| == i
      invariant forall k :: 0 <= k < i ==> planes[k] == NegatePlane(light.frustum[k])
    {
      var f := light.frustum[i];
      planes := planes + [Plane(-f.a, -f.b, -f.c, -f.d)];
      i := i + 1;
    }
    assert ShadowFrustum(6, planes, true) == ProjectedFrustum(light.frustum);
    light.shadowFrustums[0] := ShadowFrustum(6, planes, true);
  }

  /**
   * Fills the light's shadow frustums: for a point light as Layout says
   * (one per facing face), for a projected light one frustum of the
   * flipped light planes in slot 0. Nothing but the frustum slots and their
   * count changes.
   */
  method MakeShadowFrustums(light: Light)
    requires light.Valid()
    modifies light, light.shadowFrustums
    ensures light.Valid() && light.shadowFrustums == old(light.shadowFrustums)
    ensures light.parms == old(light.parms) && light.globalLightOrigin == old(light.globalLightOrigin)
    ensures light.frustum == old(light.frustum)
    ensures light.parms.pointLight ==>
      (light.shadowFrustums[..], light.numShadowFrustums)
        == Layout(LightFaces(light.parms, light.globalLightOrigin), CenterOutside(light.parms), 6, old(light.shadowFrustums[..]))
    ensures !light.parms.pointLight ==>
      light.numShadowFrustums == 1 && light.shadowFrustums[..] == old(light.shadowFrustums[..])[0 := ProjectedFrustum(light.frustum)]
  {
    if light.parms.pointLight {
      MakePointFrustums(light);
    } else {
      MakeProjectedFrustum(light);
    }
  }
}
