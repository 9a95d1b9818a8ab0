// Silhouette quads: the clip-made edges of a projected light
// (AddClipSilEdges, neo/tools/compilers/dmap/shadowopt3.cpp:1603-1641), the
// segment clipper (ClipLineToLight, shadowopt3.cpp:1654-1700) and the true
// silhouette edges of the surface (AddSilEdges, shadowopt3.cpp:1710-1824).
//
// A silhouette quad joins two front points in even slots v1, v2 to their
// far-plane twins v1 + 1, v2 + 1 with two triangles. Which diagonal splits
// the quad is decided by PointsOrdered on the two front points, so that a
// shared edge gets the same diagonal from both of its sides.
module ShadowSil {
  import opened ShadowGeometry
  import opened CullBits
  import opened ShadowBuilder

  // ---------------------------------------------------------------------
  // The quad

  /**
   * The six indexes written for the quad over v1 -> v2. p2Casts is the
   * AddSilEdges case where the face on the p2 side casts the shadow;
   * AddClipSilEdges always writes the other winding.
   */
  function SilQuad(v1: int, v2: int, p2Casts: bool, ordered: bool): (q: seq<int>)
    ensures |q| == 6
  {
    if p2Casts then
      if ordered then [v1, v1 + 1, v2, v2, v1 + 1, v2 + 1] else [v1, v2 + 1, v2, v1, v1 + 1, v2 + 1]
    else
      if ordered then [v1, v2, v1 + 1, v2, v2 + 1, v1 + 1] else [v1, v2, v2 + 1, v1, v2 + 1, v1 + 1]
  }

  /** The corners of triangle t (0 or 1) of a quad. */
  function Corners(q: seq<int>, t: int): set<int>
    requires |q| == 6 && 0 <= t < 2
  {
    {q[3 * t], q[3 * t + 1], q[3 * t + 2]}
  }

  /** (x, y, z) is (a, b, c) read backwards, from some starting corner. */
  predicate ReverseWinding(x: int, y: int, z: int, a: int, b: int, c: int) {
    (x, y, z) == (c, b, a) || (x, y, z) == (b, a, c) || (x, y, z) == (a, c, b)
  }

  /**
   * Every quad covers its four corners with two triangles that share one
   * diagonal: from the front point with the larger key to the far twin of
   * the one with the smaller key. The diagonal is named by the points, not
   * by the order of the edge, so both faces of a shared edge split it alike.
   */
  lemma SilQuadDiagonal(verts: seq<Vec3>, v1: int, v2: int, p2Casts: bool)
    requires 0 <= v1 < |verts| && 0 <= v2 < |verts| && OrderKey(verts[v1]) != OrderKey(verts[v2])
    requires v1 % 2 == 0 && v2 % 2 == 0 && v1 != v2
    ensures var q := SilQuad(v1, v2, p2Casts, PointsOrdered(verts[v1], verts[v2]));
      var lo := if OrderKey(verts[v1]) < OrderKey(verts[v2]) then v1 else v2;
      var hi := if lo == v1 then v2 else v1;
      Corners(q, 0) + Corners(q, 1) == {v1, v2, v1 + 1, v2 + 1}
      && Corners(q, 0) * Corners(q, 1) == {hi, lo + 1}
  {
  }

  /** The two windings of the same quad differ only in the orientation of each triangle. */
  lemma SilQuadWindings(v1: int, v2: int, ordered: bool)
    ensures var q, r := SilQuad(v1, v2, true, ordered), SilQuad(v1, v2, false, ordered);
      ReverseWinding(q[0], q[1], q[2], r[0], r[1], r[2]) && ReverseWinding(q[3], q[4], q[5], r[3], r[4], r[5])
  {
  }

  /** The quad over v1 -> v2, its diagonal chosen from the front points in the slots. */
  function QuadAt(verts: seq<Vec3>, v1: int, v2: int, p2Casts: bool): seq<int>
    requires 0 <= v1 < |verts| && 0 <= v2 < |verts|
  {
    SilQuad(v1, v2, p2Casts, PointsOrdered(verts[v1], verts[v2]))
  }

  /** A quad over two twinned slots uses only slots in use. */
  lemma SilQuadBelow(v1: int, v2: int, p2Casts: bool, ordered: bool, vcount: int)
    requires Twinned(v1, vcount) && Twinned(v2, vcount)
    ensures AllBelow(SilQuad(v1, v2, p2Casts, ordered), vcount)
  {
  }

  /** Two pushes of three: one quad. */
  method PushQuad(ib: IndexBuffer, q: seq<int>)
    requires ib.Valid() && |q| == 6 && ib.count + 6 <= MAX_SHADOW_INDEXES
    modifies ib, ib.data
    ensures ib.Valid() && ib.Contents() == old(ib.Contents()) + q
  {
    ib.Push3(q[0], q[1], q[2]);
    ib.Push3(q[3], q[4], q[5]);
    assert q == q[..3] + q[3..];
  }

  // ---------------------------------------------------------------------
  // AddClipSilEdges

  predicate EdgesInRange(es: seq<ClipEdge>, n: int) {
    forall k :: 0 <= k < |es| ==> 0 <= es[k].v1 < n && 0 <= es[k].v2 < n
  }

  /** The quads over the clip-made edges, in edge order. */
  function ClipSilQuads(verts: seq<Vec3>, es: seq<ClipEdge>): (r: seq<int>)
    requires EdgesInRange(es, |verts|)
    ensures |r| == 6 * |es|
  {
    if es == [] then []
    else ClipSilQuads(verts, es[..|es| - 1]) + QuadAt(verts, es[|es| - 1].v1, es[|es| - 1].v2, false)
  }

  /** The quad of edge j sits at indexes 6j .. 6j + 5. */
  lemma {:induction false} ClipSilQuadsAt(verts: seq<Vec3>, es: seq<ClipEdge>, j: int)
    requires EdgesInRange(es, |verts|) && 0 <= j < |es|
    ensures ClipSilQuads(verts, es)[6 * j .. 6 * j + 6] == QuadAt(verts, es[j].v1, es[j].v2, false)
  {
    var init := es[..|es| - 1];
    if j < |es| - 1 {
      ClipSilQuadsAt(verts, init, j);
      assert init[j] == es[j];
      var a := ClipSilQuads(verts, init);
      assert (a + QuadAt(verts, es[|es| - 1].v1, es[|es| - 1].v2, false))[6 * j .. 6 * j + 6] == a[6 * j .. 6 * j + 6];
    }
  }

  /** Quads over twinned clip edges use only slots in use. */
  lemma {:induction false} ClipSilQuadsBelow(verts: seq<Vec3>, es: seq<ClipEdge>, vcount: int)
    requires EdgesInRange(es, |verts|) && EdgesTwinned(es, vcount)
    ensures AllBelow(ClipSilQuads(verts, es), vcount)
  {
    if es != [] {
      var init, e := es[..|es| - 1], es[|es| - 1];
      ClipSilQuadsBelow(verts, init, vcount);
      SilQuadBelow(e.v1, e.v2, false, PointsOrdered(verts[e.v1], verts[e.v2]), vcount);
    }
  }

  /** What AddClipSilEdges leaves behind: all the quads, or the overflow flag and nothing. */
  function AddClipSil(s: Buf): Buf
    requires Wellformed(s)
  {
    if |s.indexes| + |s.edges| * 6 > MAX_SHADOW_INDEXES then s.(overflowed := true)
    else s.(indexes := s.indexes + ClipSilQuads(s.verts, s.edges))
  }

  lemma AddClipSilWellformed(s: Buf)
    requires Wellformed(s)
    ensures Wellformed(AddClipSil(s))
  {
    if |s.indexes| + |s.edges| * 6 <= MAX_SHADOW_INDEXES {
      ClipSilQuadsBelow(s.verts, s.edges, s.vcount);
    }
  }

  method AddClipSilEdges(st: ShadowState)
    requires st.Valid() && Wellformed(st.Abs())
    modifies st, st.indexes, st.indexes.data
    ensures st.Valid() && st.Abs() == AddClipSil(old(st.Abs()))
  {
    if st.indexes.count + st.clipEdges.count * 6 > MAX_SHADOW_INDEXES {
      st.overflowed := true;
      return;
    }
    EmitClipSilQuads(st.indexes, st.verts, st.clipEdges);
  }

  /** The loop of AddClipSilEdges: one quad per clip-made edge, appended in edge order. */
  method EmitClipSilQuads(ib: IndexBuffer, vb: VertBuffer, eb: EdgeBuffer)
    requires ib.Valid() && vb.Valid() && eb.Valid() && EdgesInRange(eb.Contents(), vb.data.Length)
    requires ib.count + eb.count * 6 <= MAX_SHADOW_INDEXES
    modifies ib, ib.data
    ensures ib.Valid() && ib.Contents() == old(ib.Contents()) + ClipSilQuads(vb.data[..], eb.Contents())
  {
    ghost var vs := vb.data[..];
    ghost var es := eb.Contents();
    ghost var start := ib.Contents();
    var i := 0;
    while i < eb.count
      invariant 0 <= i <= eb.count && ib.Valid() && ib.count == |start| + 6 * i
      invariant ib.Contents() == start + ClipSilQuads(vs, es[..i])
    {
      var v1, v2 := eb.data[i].v1, eb.data[i].v2;
      var q := SilQuad(v1, v2, false, PointsOrdered(vb.data[v1], vb.data[v2]));
      assert ClipSilQuads(vs, es[..i + 1]) == ClipSilQuads(vs, es[..i]) + q by {
        assert es[..i + 1][..i] == es[..i];
        assert es[i] == ClipEdge(v1, v2);
        assert q == QuadAt(vs, v1, v2, false);
      }
      PushQuad(ib, q);
      i := i + 1;
    }
    assert es[..i] == es;
  }

  // ---------------------------------------------------------------------
  // ClipLineToLight

  /** The two ends of a segment being clipped, and whether a fragment is still retained. */
  datatype Segment = Segment(p1: Vec3, p2: Vec3, kept: bool)

  /**
   * One plane of ClipLineToLight: a segment with no end clearly behind the
   * plane passes; one end behind and the other not clearly in front drops
   * the segment; otherwise the end with a negative distance moves to the
   * plane.
   */
  function ClipLinePlane(p1: Vec3, p2: Vec3, plane: Plane): Segment {
    var d1, d2 := Distance(plane, p1), Distance(plane, p2);
    if d1 > -LIGHT_CLIP_EPSILON && d2 > -LIGHT_CLIP_EPSILON then Segment(p1, p2, true)
    else if d1 <= -LIGHT_CLIP_EPSILON && d2 < LIGHT_CLIP_EPSILON then Segment(p1, p2, false)
    else if d2 <= -LIGHT_CLIP_EPSILON && d1 < LIGHT_CLIP_EPSILON then Segment(p1, p2, false)
    else if d1 < 0.0 then Segment(SplitPoint(p1, p2, d1, d2), p2, true)
    else Segment(p1, SplitPoint(p1, p2, d1, d2), true)
  }

  /** The segment after the first j planes; the ends stay as they were when a plane drops it. */
  function ClipLineUpTo(a: Vec3, b: Vec3, frustum: seq<Plane>, j: nat): Segment
    requires |frustum| == 6 && j <= 6
  {
    if j == 0 then Segment(a, b, true)
    else
      var s := ClipLineUpTo(a, b, frustum, j - 1);
      if !s.kept then s else ClipLinePlane(s.p1, s.p2, frustum[j - 1])
  }

  /** A point strictly between two points in an open half-space is in it. */
  lemma SplitPointKeepsOpenHalfspace(q: Plane, e: real, v1: Vec3, v2: Vec3, d1: real, d2: real)
    requires (d1 > 0.0 && d2 < 0.0) || (d1 < 0.0 && d2 > 0.0)
    requires Distance(q, v1) > e && Distance(q, v2) > e
    ensures Distance(q, SplitPoint(v1, v2, d1, d2)) > e
  {
    var t := d1 / (d1 - d2);
    var a, b := Distance(q, v1), Distance(q, v2);
    assert Distance(q, SplitPoint(v1, v2, d1, d2)) == a + t * (b - a);
    assert 0.0 < t < 1.0 by {
      if d1 > 0.0 {
        assert d1 - d2 > d1;
      } else {
        assert d2 - d1 > -d1;
        assert t == (-d1) / (d2 - d1);
      }
    }
    assert a + t * (b - a) == (1.0 - t) * a + t * b;
    assert (1.0 - t) * a > (1.0 - t) * e;
    assert t * b > t * e;
  }

  /** One plane keeps a retained segment strictly inside every open half-space it was in, and its own. */
  lemma ClipLinePlaneInside(p1: Vec3, p2: Vec3, plane: Plane, q: Plane)
    requires ClipLinePlane(p1, p2, plane).kept
    ensures var s := ClipLinePlane(p1, p2, plane);
      Distance(plane, s.p1) > -LIGHT_CLIP_EPSILON && Distance(plane, s.p2) > -LIGHT_CLIP_EPSILON
      && (Distance(q, p1) > -LIGHT_CLIP_EPSILON && Distance(q, p2) > -LIGHT_CLIP_EPSILON ==>
          Distance(q, s.p1) > -LIGHT_CLIP_EPSILON && Distance(q, s.p2) > -LIGHT_CLIP_EPSILON)
  {
    var d1, d2 := Distance(plane, p1), Distance(plane, p2);
    if !(d1 > -LIGHT_CLIP_EPSILON && d2 > -LIGHT_CLIP_EPSILON) {
      SplitPointOnPlane(plane, p1, p2);
      if Distance(q, p1) > -LIGHT_CLIP_EPSILON && Distance(q, p2) > -LIGHT_CLIP_EPSILON {
        SplitPointKeepsOpenHalfspace(q, -LIGHT_CLIP_EPSILON, p1, p2, d1, d2);
      }
    }
  }

  /** A retained fragment lies strictly on the inner side of each of the first j planes. */
  lemma {:induction false} ClipLineInside(a: Vec3, b: Vec3, frustum: seq<Plane>, j: nat)
    requires |frustum| == 6 && j <= 6 && ClipLineUpTo(a, b, frustum, j).kept
    ensures var s := ClipLineUpTo(a, b, frustum, j);
      forall k :: 0 <= k < j ==>
        Distance(frustum[k], s.p1) > -LIGHT_CLIP_EPSILON && Distance(frustum[k], s.p2) > -LIGHT_CLIP_EPSILON
  {
    if j > 0 {
      var s0 := ClipLineUpTo(a, b, frustum, j - 1);
      ClipLineInside(a, b, frustum, j - 1);
      forall k | 0 <= k < j
        ensures Distance(frustum[k], ClipLineUpTo(a, b, frustum, j).p1) > -LIGHT_CLIP_EPSILON
        ensures Distance(frustum[k], ClipLineUpTo(a, b, frustum, j).p2) > -LIGHT_CLIP_EPSILON
      {
        ClipLinePlaneInside(s0.p1, s0.p2, frustum[j - 1], frustum[k]);
      }
    }
  }

  /** A segment whose ends are both on or inside every plane passes unchanged. */
  lemma {:induction false} ClipLineUnclipped(a: Vec3, b: Vec3, frustum: seq<Plane>, j: nat)
    requires |frustum| == 6 && j <= 6
    requires forall k :: 0 <= k < 6 ==>
      Distance(frustum[k], a) > -LIGHT_CLIP_EPSILON && Distance(frustum[k], b) > -LIGHT_CLIP_EPSILON
    ensures ClipLineUpTo(a, b, frustum, j) == Segment(a, b, true)
  {
    if j > 0 {
      ClipLineUnclipped(a, b, frustum, j - 1);
    }
  }

  /**
   * ClipLineToLight: the ends are written into slots v1 and v2 of the
   * vertex buffer and clipped there, plane by plane; they stay written even
   * when the segment is dropped.
   */
  method ClipLineToLight(vb: VertBuffer, a: Vec3, b: Vec3, frustum: seq<Plane>, v1: int, v2: int)
    returns (kept: bool)
    requires vb.Valid() && |frustum| == 6 && 0 <= v1 < MAX_SHADOW_VERTS && 0 <= v2 < MAX_SHADOW_VERTS && v1 != v2
    modifies vb.data
    ensures kept == ClipLineUpTo(a, b, frustum, |frustum|).kept
    ensures vb.data[v1] == ClipLineUpTo(a, b, frustum, |frustum|).p1 && vb.data[v2] == ClipLineUpTo(a, b, frustum, |frustum|).p2
    ensures forall k :: 0 <= k < vb.data.Length && k != v1 && k != v2 ==> vb.data[k] == old(vb.data[k])
  {
    ghost var vs := vb.data[..];
    vb.data[v1] := a;
    vb.data[v2] := b;
    var j := 0;
    while j < 6
      invariant 0 <= j <= 6 && ClipLineUpTo(a, b, frustum, j).kept
      invariant vb.data[v1] == ClipLineUpTo(a, b, frustum, j).p1 && vb.data[v2] == ClipLineUpTo(a, b, frustum, j).p2
      invariant forall k :: 0 <= k < vb.data.Length && k != v1 && k != v2 ==> vb.data[k] == vs[k]
    {
      ghost var p1, p2 := vb.data[v1], vb.data[v2];
      var ok := ClipLineStep(vb, frustum[j], v1, v2);
      assert ClipLineUpTo(a, b, frustum, j + 1) == ClipLinePlane(p1, p2, frustum[j]);
      if !ok {
        ClipLineStaysDropped(a, b, frustum, j + 1, |frustum|);
        return false;
      }
      j := j + 1;
    }
    kept := true;
  }

  /** The body of the plane loop of ClipLineToLight, on the ends in slots v1 and v2. */
  method ClipLineStep(vb: VertBuffer, plane: Plane, v1: int, v2: int) returns (kept: bool)
    requires vb.Valid() && 0 <= v1 < MAX_SHADOW_VERTS && 0 <= v2 < MAX_SHADOW_VERTS && v1 != v2
    modifies vb.data
    ensures kept == ClipLinePlane(old(vb.data[v1]), old(vb.data[v2]), plane).kept
    ensures vb.data[v1] == ClipLinePlane(old(vb.data[v1]), old(vb.data[v2]), plane).p1
    ensures vb.data[v2] == ClipLinePlane(old(vb.data[v1]), old(vb.data[v2]), plane).p2
    ensures forall k :: 0 <= k < vb.data.Length && k != v1 && k != v2 ==> vb.data[k] == old(vb.data[k])
  {
    var p1, p2 := vb.data[v1], vb.data[v2];
    var d1, d2 := Distance(plane, p1), Distance(plane, p2);
    if d1 > -LIGHT_CLIP_EPSILON && d2 > -LIGHT_CLIP_EPSILON {
      return true;
    }
    if d1 <= -LIGHT_CLIP_EPSILON && d2 < LIGHT_CLIP_EPSILON {
      return false;
    }
    if d2 <= -LIGHT_CLIP_EPSILON && d1 < LIGHT_CLIP_EPSILON {
      return false;
    }
    var f := d1 / (d1 - d2);
    var c := Vec3(p1.x + f * (p2.x - p1.x), p1.y + f * (p2.y - p1.y), p1.z + f * (p2.z - p1.z));
    if d1 < 0.0 {
      vb.data[v1] := c;
    } else {
      vb.data[v2] := c;
    }
    kept := true;
  }

  /** Once a plane has dropped the segment, no later plane changes it. */
  lemma {:induction false} ClipLineStaysDropped(a: Vec3, b: Vec3, frustum: seq<Plane>, j: nat, m: nat)
    requires |frustum| == 6 && j <= m <= 6 && !ClipLineUpTo(a, b, frustum, j).kept
    ensures ClipLineUpTo(a, b, frustum, m) == ClipLineUpTo(a, b, frustum, j)
  {
    if j < m {
      ClipLineStaysDropped(a, b, frustum, j, m - 1);
    }
  }

  // ---------------------------------------------------------------------
  // AddSilEdges

  /** silEdge_t: the two faces beside an edge (p2 may be the dangling-edge face) and its two vertexes. */
  datatype SilEdge = SilEdge(p1: int, p2: int, v1: int, v2: int)

  /**
   * What AddSilEdges reads about one sil edge is consistent: one cull code
   * and one remap entry per surface vertex, the edge names faces and
   * vertexes that exist (a face out of range is the "Bad sil planes"
   * error), and a silhouette edge used whole has both vertexes remapped
   * (else the "bad remap[]" error).
   */
  predicate EdgeReady(verts: seq<Vec3>, pc: seq<Code>, casts: seq<bool>, remap: seq<int>, e: SilEdge) {
    |pc| == |verts| && |remap| == |verts|
    && 0 <= e.p1 < |casts| && 0 <= e.p2 < |casts| && 0 <= e.v1 < |verts| && 0 <= e.v2 < |verts|
    && (IsSilhouette(e, pc, casts) && !EdgeClipped(pc[e.v1], pc[e.v2]) ==> remap[e.v1] != -1 && remap[e.v2] != -1)
  }

  /** Every sil edge is ready. */
  predicate SilInputs(verts: seq<Vec3>, pc: seq<Code>, casts: seq<bool>, remap: seq<int>, edges: seq<SilEdge>) {
    forall k :: 0 <= k < |edges| ==> EdgeReady(verts, pc, casts, remap, edges[k])
  }

  /** Every vertex copied into the shadow vertexes so far sits in a twinned slot; the others are -1. */
  predicate RemapTwinned(remap: seq<int>, vcount: int) {
    forall v :: 0 <= v < |remap| ==> remap[v] == -1 || Twinned(remap[v], vcount)
  }

  /** The edge borders exactly one shadow-casting face and is not wholly behind a plane. */
  predicate IsSilhouette(e: SilEdge, pc: seq<Code>, casts: seq<bool>)
    requires 0 <= e.p1 < |casts| && 0 <= e.p2 < |casts| && 0 <= e.v1 < |pc| && 0 <= e.v2 < |pc|
  {
    casts[e.p1] != casts[e.p2] && EdgeCulled(pc[e.v1], pc[e.v2]) == 0
  }

  /** Appends one quad over slots v1 and v2, or overflows (the second result says stop). */
  function QuadStep(s: Buf, v1: int, v2: int, p2Casts: bool): (Buf, bool)
    requires BufOk(s) && 0 <= v1 < |s.verts| && 0 <= v2 < |s.verts|
  {
    if |s.indexes| + 6 > MAX_SHADOW_INDEXES then (s.(overflowed := true), true)
    else (s.(indexes := s.indexes + QuadAt(s.verts, v1, v2, p2Casts)), false)
  }

  /**
   * One sil edge: skipped unless it is a silhouette; a clipped edge gets
   * two fresh slot pairs holding its clipped ends (written even when the
   * clip drops it); an unclipped one uses the remapped slots of its ends.
   */
  function SilStep(s: Buf, e: SilEdge, verts: seq<Vec3>, pc: seq<Code>, casts: seq<bool>, remap: seq<int>,
                   frustum: seq<Plane>): (Buf, bool)
    requires BufOk(s) && |frustum| == 6 && EdgeReady(verts, pc, casts, remap, e) && RemapTwinned(remap, s.vcount)
  {
    if !IsSilhouette(e, pc, casts) then (s, false)
    else if EdgeClipped(pc[e.v1], pc[e.v2]) then
      if s.vcount + 4 > MAX_SHADOW_VERTS then (s.(overflowed := true), true)
      else
        var v1 := s.vcount;
        var seg := ClipLineUpTo(verts[e.v1], verts[e.v2], frustum, |frustum|);
        var written := s.(verts := s.verts[v1 := seg.p1][v1 + 2 := seg.p2]);
        if !seg.kept then (written, false)
        else QuadStep(written.(vcount := v1 + 4), v1, v1 + 2, casts[e.p2])
    else QuadStep(s, remap[e.v1], remap[e.v2], casts[e.p2])
  }

  /** The state after sil edges k.. have been added to s, stopping at the first overflow. */
  function SilEdgesFrom(s: Buf, edges: seq<SilEdge>, verts: seq<Vec3>, pc: seq<Code>, casts: seq<bool>,
                        remap: seq<int>, frustum: seq<Plane>, k: nat): (r: Buf)
    requires BufOk(s) && |frustum| == 6 && k <= |edges|
    requires SilInputs(verts, pc, casts, remap, edges)
    requires RemapTwinned(remap, s.vcount)
    ensures BufOk(r) && s.vcount <= r.vcount && s.indexes <= r.indexes
    decreases |edges| - k
  {
    if k == |edges| then s
    else
      assert EdgeReady(verts, pc, casts, remap, edges[k]);
      var t := SilStep(s, edges[k], verts, pc, casts, remap, frustum);
      if t.1 then t.0 else SilEdgesFrom(t.0, edges, verts, pc, casts, remap, frustum, k + 1)
  }

  /** One edge keeps the builder's invariant. */
  lemma SilStepWellformed(s: Buf, e: SilEdge, verts: seq<Vec3>, pc: seq<Code>, casts: seq<bool>, remap: seq<int>,
                          frustum: seq<Plane>)
    requires Wellformed(s) && |frustum| == 6 && EdgeReady(verts, pc, casts, remap, e) && RemapTwinned(remap, s.vcount)
    ensures Wellformed(SilStep(s, e, verts, pc, casts, remap, frustum).0)
  {
    var r := SilStep(s, e, verts, pc, casts, remap, frustum).0;
    if IsSilhouette(e, pc, casts) && |r.indexes| > |s.indexes| {
      var clipped := EdgeClipped(pc[e.v1], pc[e.v2]);
      var v1 := if clipped then s.vcount else remap[e.v1];
      var v2 := if clipped then s.vcount + 2 else remap[e.v2];
      assert r.indexes == s.indexes + QuadAt(r.verts, v1, v2, casts[e.p2]);
      SilQuadBelow(v1, v2, casts[e.p2], PointsOrdered(r.verts[v1], r.verts[v2]), r.vcount);
    }
  }

  /** AddSilEdges keeps the builder's invariant. */
  lemma {:induction false} SilEdgesWellformed(s: Buf, edges: seq<SilEdge>, verts: seq<Vec3>, pc: seq<Code>,
                                              casts: seq<bool>, remap: seq<int>, frustum: seq<Plane>, k: nat)
    requires Wellformed(s) && |frustum| == 6 && k <= |edges|
    requires SilInputs(verts, pc, casts, remap, edges)
    requires RemapTwinned(remap, s.vcount)
    ensures Wellformed(SilEdgesFrom(s, edges, verts, pc, casts, remap, frustum, k))
    decreases |edges| - k
  {
    if k < |edges| {
      assert EdgeReady(verts, pc, casts, remap, edges[k]);
      var t := SilStep(s, edges[k], verts, pc, casts, remap, frustum);
      SilStepWellformed(s, edges[k], verts, pc, casts, remap, frustum);
      if !t.1 {
        SilEdgesWellformed(t.0, edges, verts, pc, casts, remap, frustum, k + 1);
      }
    }
  }

  /**
   * An edge that does not stop the loop adds a quad exactly when it is a
   * silhouette whose clipped segment (if it is clipped) survives, and
   * takes four fresh slots exactly when it is a surviving clipped one.
   */
  lemma SilStepAdds(s: Buf, e: SilEdge, verts: seq<Vec3>, pc: seq<Code>, casts: seq<bool>, remap: seq<int>,
                    frustum: seq<Plane>)
    requires BufOk(s) && |frustum| == 6 && EdgeReady(verts, pc, casts, remap, e) && RemapTwinned(remap, s.vcount)
    requires !SilStep(s, e, verts, pc, casts, remap, frustum).1
    ensures var r := SilStep(s, e, verts, pc, casts, remap, frustum).0;
      var clipped := EdgeClipped(pc[e.v1], pc[e.v2]);
      var survives := IsSilhouette(e, pc, casts)
        && (clipped ==> ClipLineUpTo(verts[e.v1], verts[e.v2], frustum, |frustum|).kept);
      (survives ==> |r.indexes| == |s.indexes| + 6)
      && (!survives ==> r.indexes == s.indexes)
      && r.vcount == (if survives && clipped then s.vcount + 4 else s.vcount)
      && r.overflowed == s.overflowed
  {
  }

  /** Appends the quad over slots v1 and v2 unless the index buffer is full. */
  method EmitSilQuad(st: ShadowState, v1: int, v2: int, p2Casts: bool) returns (stop: bool)
    requires st.Valid() && 0 <= v1 < MAX_SHADOW_VERTS && 0 <= v2 < MAX_SHADOW_VERTS
    modifies st, st.indexes, st.indexes.data
    ensures st.Valid() && st.Abs() == QuadStep(old(st.Abs()), v1, v2, p2Casts).0
    ensures stop == QuadStep(old(st.Abs()), v1, v2, p2Casts).1
  {
    if st.indexes.count + 6 > MAX_SHADOW_INDEXES {
      st.overflowed := true;
      return true;
    }
    PushQuad(st.indexes, SilQuad(v1, v2, p2Casts, PointsOrdered(st.verts.data[v1], st.verts.data[v2])));
    stop := false;
  }

  /** The clipped branch of AddSilEdges: two fresh slot pairs, the clipped ends, then the quad. */
  method ClipSilSegment(st: ShadowState, a: Vec3, b: Vec3, frustum: seq<Plane>, p2Casts: bool) returns (stop: bool)
    requires st.Valid() && |frustum| == 6
    modifies st, st.verts, st.verts.data, st.indexes, st.indexes.data
    ensures st.Valid()
    ensures var s := old(st.Abs());
      var v1 := s.vcount;
      var seg := ClipLineUpTo(a, b, frustum, |frustum|);
      if v1 + 4 > MAX_SHADOW_VERTS then st.Abs() == s.(overflowed := true) && stop
      else
        var written := s.(verts := s.verts[v1 := seg.p1][v1 + 2 := seg.p2]);
        if !seg.kept then st.Abs() == written && !stop
        else (st.Abs(), stop) == QuadStep(written.(vcount := v1 + 4), v1, v1 + 2, p2Casts)
  {
    if st.verts.count + 4 > MAX_SHADOW_VERTS {
      st.overflowed := true;
      return true;
    }
    var v1 := st.verts.count;
    ghost var vs := st.verts.data[..];
    var kept := ClipLineToLight(st.verts, a, b, frustum, v1, v1 + 2);
    ghost var seg := ClipLineUpTo(a, b, frustum, |frustum|);
    assert st.verts.data[..] == vs[v1 := seg.p1][v1 + 2 := seg.p2];
    if !kept {
      return false;
    }
    st.verts.count := v1 + 4;
    stop := EmitSilQuad(st, v1, v1 + 2, p2Casts);
  }

  /** The body of the sil-edge loop of AddSilEdges. */
  method AddSilEdge(st: ShadowState, e: SilEdge, verts: seq<Vec3>, pc: seq<Code>, casts: seq<bool>, remap: seq<int>,
                    frustum: seq<Plane>) returns (stop: bool)
    requires st.Valid() && |frustum| == 6 && EdgeReady(verts, pc, casts, remap, e)
    requires RemapTwinned(remap, st.verts.count)
    modifies st, st.verts, st.verts.data, st.indexes, st.indexes.data
    ensures st.Valid() && st.Abs() == SilStep(old(st.Abs()), e, verts, pc, casts, remap, frustum).0
    ensures stop == SilStep(old(st.Abs()), e, verts, pc, casts, remap, frustum).1
  {
    if casts[e.p1] == casts[e.p2] {
      return false;
    }
    if EdgeCulled(pc[e.v1], pc[e.v2]) != 0 {
      return false;
    }
    if EdgeClipped(pc[e.v1], pc[e.v2]) {
      stop := ClipSilSegment(st, verts[e.v1], verts[e.v2], frustum, casts[e.p2]);
    } else {
      stop := EmitSilQuad(st, remap[e.v1], remap[e.v2], casts[e.p2]);
    }
  }

  /**
   * AddSilEdges: a quad for every silhouette edge, until an overflow
   * abandons the rest.
   */
  method AddSilEdges(st: ShadowState, edges: seq<SilEdge>, verts: seq<Vec3>, pc: seq<Code>, casts: seq<bool>,
                     remap: seq<int>, frustum: seq<Plane>)
    requires st.Valid() && |frustum| == 6
    requires SilInputs(verts, pc, casts, remap, edges)
    requires RemapTwinned(remap, st.verts.count)
    modifies st, st.verts, st.verts.data, st.indexes, st.indexes.data
    ensures st.Valid() && st.Abs() == SilEdgesFrom(old(st.Abs()), edges, verts, pc, casts, remap, frustum, 0)
  {
    ghost var s0 := st.Abs();
    var i := 0;
    while i < |edges|
      invariant 0 <= i <= |edges| && st.Valid() && RemapTwinned(remap, st.verts.count)
      invariant SilEdgesFrom(st.Abs(), edges, verts, pc, casts, remap, frustum, i)
             == SilEdgesFrom(s0, edges, verts, pc, casts, remap, frustum, 0)
    {
      var stop := AddSilEdge(st, edges[i], verts, pc, casts, remap, frustum);
      if stop {
        return;
      }
      i := i + 1;
    }
  }
}
