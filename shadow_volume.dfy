// CreateShadowVolumeInFrustum and CreateShadowVolume (shadowopt3.cpp:1894-2122,
// 2189-2371): one pass per light frustum over the triangles of a surface,
// front caps, rear caps and sil quads, then the index ranges of all passes
// reordered into one shadow surface.
module ShadowVolume {
  import opened ShadowGeometry
  import opened CullBits
  import opened ShadowClip
  import opened ShadowBuilder
  import opened ShadowSil
  import opened ShadowCull

  // ---------------------------------------------------------------------
  // The surface

  /**
   * The parts of srfTriangles_t the builder reads: vertex positions, the
   * silhouette-welded triangle indexes and the sil edges.
   */
  datatype Surface = Surface(verts: seq<Vec3>, silIndexes: seq<int>, silEdges: seq<SilEdge>)

  function NumTris(tri: Surface): nat {
    |tri.silIndexes| / 3
  }

  /** Corner c of triangle i. */
  function Corner(tri: Surface, i: int, c: int): int
    requires 0 <= i < NumTris(tri) && 0 <= c < 3
  {
    tri.silIndexes[3 * i + c]
  }

  predicate OnFace(tri: Surface, p: int, v: int)
    requires 0 <= p < NumTris(tri)
  {
    v == Corner(tri, p, 0) || v == Corner(tri, p, 1) || v == Corner(tri, p, 2)
  }

  /**
   * A sil edge as R_IdentifySilEdges builds it: its faces are triangles or
   * the dangling-edge face numTris (anything else is the "Bad sil planes"
   * error), and both of its vertexes are corners of each real face beside it.
   */
  predicate SilEdgeOk(tri: Surface, e: SilEdge) {
    0 <= e.p1 <= NumTris(tri) && 0 <= e.p2 <= NumTris(tri)
    && 0 <= e.v1 < |tri.verts| && 0 <= e.v2 < |tri.verts|
    && (e.p1 < NumTris(tri) ==> OnFace(tri, e.p1, e.v1) && OnFace(tri, e.p1, e.v2))
    && (e.p2 < NumTris(tri) ==> OnFace(tri, e.p2, e.v1) && OnFace(tri, e.p2, e.v2))
  }

  /** Every index names a vertex and every sil edge is consistent with the triangles. */
  predicate SurfaceOk(tri: Surface) {
    (forall k :: 0 <= k < |tri.silIndexes| ==> 0 <= tri.silIndexes[k] < |tri.verts|)
    && (forall k :: 0 <= k < |tri.silEdges| ==> SilEdgeOk(tri, tri.silEdges[k]))
  }

  // ---------------------------------------------------------------------
  // One triangle of a frustum pass

  /** What a pass changes: the buffers, remap[] and faceCastsShadow[]. */
  datatype Pass = Pass(buf: Buf, remap: seq<int>, casts: seq<bool>)

  /** remap[x] is -1 or a front slot, in use with its twin, that holds vertex x. */
  predicate RemapOk(f: Pass, verts: seq<Vec3>) {
    |f.remap| == |verts| && BufOk(f.buf)
    && forall x :: 0 <= x < |verts| ==>
      f.remap[x] == -1 || (Twinned(f.remap[x], f.buf.vcount) && f.buf.verts[f.remap[x]] == verts[x])
  }

  /**
   * The invariant of a pass that started at index first: the buffers are
   * well formed, remap is as above, the caps made so far are whole
   * triangles over front slots only, and there is one faceCastsShadow entry
   * per triangle plus the dangling one.
   */
  predicate PassOk(f: Pass, tri: Surface, first: int) {
    Wellformed(f.buf) && RemapOk(f, tri.verts) && 0 <= first <= |f.buf.indexes|
    && (|f.buf.indexes| - first) % 3 == 0 && AllTwinned(f.buf.indexes[first..], f.buf.vcount)
    && |f.casts| == NumTris(tri) + 1
  }

  /** Copies vertex x to a fresh front slot unless it is culled or already copied. */
  function Adopt(f: Pass, verts: seq<Vec3>, pc: seq<Code>, x: int): (r: Pass)
    requires BufOk(f.buf) && |f.remap| == |verts| == |pc| && 0 <= x < |verts|
    requires f.buf.vcount + 2 <= MAX_SHADOW_VERTS
    ensures BufOk(r.buf) && |r.remap| == |f.remap| && r.casts == f.casts
    ensures f.buf.vcount <= r.buf.vcount <= f.buf.vcount + 2 && r.buf.indexes == f.buf.indexes
  {
    if !PointCulled(pc[x]) && f.remap[x] == -1 then
      var v := f.buf.vcount;
      f.(remap := f.remap[x := v], buf := f.buf.(verts := f.buf.verts[v := verts[x]], vcount := v + 2))
    else f
  }

  /** The three corners of triangle i adopted in order. */
  function AdoptCorners(f: Pass, tri: Surface, pc: seq<Code>, i: int): (r: Pass)
    requires BufOk(f.buf) && SurfaceOk(tri) && |f.remap| == |tri.verts| == |pc| && 0 <= i < NumTris(tri)
    requires f.buf.vcount + 6 <= MAX_SHADOW_VERTS
    ensures BufOk(r.buf) && |r.remap| == |f.remap| && r.casts == f.casts
    ensures f.buf.vcount <= r.buf.vcount <= f.buf.vcount + 6 && r.buf.indexes == f.buf.indexes
  {
    var f1 := Adopt(f, tri.verts, pc, Corner(tri, i, 0));
    var f2 := Adopt(f1, tri.verts, pc, Corner(tri, i, 1));
    Adopt(f2, tri.verts, pc, Corner(tri, i, 2))
  }

  /** cullBits: plane k is clipped against iff some corner is not clearly in front of it. */
  function ClipBits(p1: Code, p2: Code, p3: Code): Code {
    ((p1 ^ HIGH_BITS) | (p2 ^ HIGH_BITS) | (p3 ^ HIGH_BITS)) >> 6
  }

  function Codes(pc: seq<Code>, tri: Surface, i: int): (Code, Code, Code)
    requires SurfaceOk(tri) && |pc| == |tri.verts| && 0 <= i < NumTris(tri)
  {
    (pc[Corner(tri, i, 0)], pc[Corner(tri, i, 1)], pc[Corner(tri, i, 2)])
  }

  function TriClipBits(pc: seq<Code>, tri: Surface, i: int): Code
    requires SurfaceOk(tri) && |pc| == |tri.verts| && 0 <= i < NumTris(tri)
  {
    var (p1, p2, p3) := Codes(pc, tri, i);
    ClipBits(p1, p2, p3)
  }

  function TriPoints(tri: Surface, i: int): (Vec3, Vec3, Vec3)
    requires SurfaceOk(tri) && 0 <= i < NumTris(tri)
  {
    (tri.verts[Corner(tri, i, 0)], tri.verts[Corner(tri, i, 1)], tri.verts[Corner(tri, i, 2)])
  }

  predicate TriClipped(pc: seq<Code>, tri: Surface, i: int)
    requires SurfaceOk(tri) && |pc| == |tri.verts| && 0 <= i < NumTris(tri)
  {
    var (p1, p2, p3) := Codes(pc, tri, i);
    TriangleClipped(p1, p2, p3)
  }

  /** A clipped triangle never grows past the clipper's buffers (see ChainFits). */
  predicate TriFits(pc: seq<Code>, tri: Surface, frustum: seq<Plane>, i: int)
    requires SurfaceOk(tri) && |pc| == |tri.verts| && 0 <= i < NumTris(tri) && |frustum| == 6
  {
    var (a, b, c) := TriPoints(tri, i);
    TriClipped(pc, tri, i) ==> ChainFits(Triangle(a, b, c), TriClipBits(pc, tri, i), frustum)
  }

  predicate PassFits(pc: seq<Code>, tri: Surface, frustum: seq<Plane>)
    requires SurfaceOk(tri) && |pc| == |tri.verts| && |frustum| == 6
  {
    forall i :: 0 <= i < NumTris(tri) ==> TriFits(pc, tri, frustum, i)
  }

  /** The triangle faces the light and is not wholly behind one frustum plane. */
  predicate Candidate(pc: seq<Code>, tri: Surface, facing: seq<bool>, i: int)
    requires SurfaceOk(tri) && |pc| == |tri.verts| && 0 <= i < NumTris(tri) && i < |facing|
  {
    var (p1, p2, p3) := Codes(pc, tri, i);
    !facing[i] && TriangleCulled(p1, p2, p3) == 0
  }

  /**
   * After adoption: a clipped triangle goes through ClipTriangleToLight,
   * an unclipped one is emitted reversed over the remapped slots; the
   * second result says an overflow ends the pass.
   */
  function CapTri(f: Pass, tri: Surface, pc: seq<Code>, frustum: seq<Plane>, i: int): (r: (Pass, bool))
    requires BufOk(f.buf) && SurfaceOk(tri) && |f.remap| == |tri.verts| == |pc| && 0 <= i < NumTris(tri)
    requires i < |f.casts| && |frustum| == 6 && TriFits(pc, tri, frustum, i)
    ensures BufOk(r.0.buf) && |r.0.remap| == |f.remap| && |r.0.casts| == |f.casts|
  {
    if TriClipped(pc, tri, i) then
      var (a, b, c) := TriPoints(tri, i);
      var e := ClipToLight(f.buf, a, b, c, TriClipBits(pc, tri, i), frustum);
      (f.(buf := e.0, casts := f.casts[i := e.1]), false)
    else if |f.buf.indexes| + 3 > MAX_SHADOW_INDEXES then
      (f.(buf := f.buf.(overflowed := true)), true)
    else
      var cap := [f.remap[Corner(tri, i, 2)], f.remap[Corner(tri, i, 1)], f.remap[Corner(tri, i, 0)]];
      (f.(buf := f.buf.(indexes := f.buf.indexes + cap), casts := f.casts[i := true]), false)
  }

  /** One turn of the triangle loop of CreateShadowVolumeInFrustum. */
  function TriStep(f: Pass, tri: Surface, pc: seq<Code>, facing: seq<bool>, frustum: seq<Plane>, i: int)
    : (r: (Pass, bool))
    requires BufOk(f.buf) && SurfaceOk(tri) && |f.remap| == |tri.verts| == |pc| && 0 <= i < NumTris(tri)
    requires i < |f.casts| && i < |facing| && |frustum| == 6 && TriFits(pc, tri, frustum, i)
    ensures BufOk(r.0.buf) && |r.0.remap| == |f.remap| && |r.0.casts| == |f.casts|
  {
    var f0 := f.(casts := f.casts[i := false]);
    if !Candidate(pc, tri, facing, i) then (f0, false)
    else if f0.buf.vcount + 6 > MAX_SHADOW_VERTS then (f0.(buf := f0.buf.(overflowed := true)), true)
    else CapTri(AdoptCorners(f0, tri, pc, i), tri, pc, frustum, i)
  }

  /** The pass state after triangles i.. ; the second result says an overflow ended the pass. */
  function TrisFrom(f: Pass, tri: Surface, pc: seq<Code>, facing: seq<bool>, frustum: seq<Plane>, i: nat)
    : (r: (Pass, bool))
    requires BufOk(f.buf) && SurfaceOk(tri) && |f.remap| == |tri.verts| == |pc| && i <= NumTris(tri)
    requires |f.casts| > NumTris(tri) && |facing| > NumTris(tri) && |frustum| == 6 && PassFits(pc, tri, frustum)
    ensures BufOk(r.0.buf) && |r.0.remap| == |f.remap| && |r.0.casts| == |f.casts|
    decreases NumTris(tri) - i
  {
    if i == NumTris(tri) then (f, false)
    else
      assert TriFits(pc, tri, frustum, i);
      var t := TriStep(f, tri, pc, facing, frustum, i);
      if t.1 then t else TrisFrom(t.0, tri, pc, facing, frustum, i + 1)
  }

  // ---------------------------------------------------------------------
  // What a pass keeps

  /** Entries of remap that were set stay set to the same slot. */
  predicate RemapGrows(f: Pass, g: Pass) {
    |f.remap| == |g.remap| && forall y :: 0 <= y < |f.remap| && f.remap[y] != -1 ==> g.remap[y] == f.remap[y]
  }

  /** Every corner of triangle p that is not culled has been copied. */
  predicate CornersCopied(f: Pass, tri: Surface, pc: seq<Code>, p: int)
    requires SurfaceOk(tri) && |pc| == |tri.verts| == |f.remap| && 0 <= p < NumTris(tri)
  {
    (!PointCulled(pc[Corner(tri, p, 0)]) ==> f.remap[Corner(tri, p, 0)] != -1)
    && (!PointCulled(pc[Corner(tri, p, 1)]) ==> f.remap[Corner(tri, p, 1)] != -1)
    && (!PointCulled(pc[Corner(tri, p, 2)]) ==> f.remap[Corner(tri, p, 2)] != -1)
  }

  /** Every triangle before k that was found to cast a shadow had its corners copied. */
  predicate Covered(f: Pass, tri: Surface, pc: seq<Code>, k: int)
    requires SurfaceOk(tri) && |pc| == |tri.verts| == |f.remap| && 0 <= k <= NumTris(tri) < |f.casts|
  {
    forall p :: 0 <= p < k && f.casts[p] ==> CornersCopied(f, tri, pc, p)
  }

  /** Adopting a vertex keeps the pass invariant, only sets remap entries, and copies the vertex unless it is culled. */
  lemma AdoptOk(f: Pass, tri: Surface, pc: seq<Code>, x: int, first: int)
    requires SurfaceOk(tri) && PassOk(f, tri, first) && |pc| == |tri.verts| && 0 <= x < |tri.verts|
    requires f.buf.vcount + 2 <= MAX_SHADOW_VERTS
    ensures var r := Adopt(f, tri.verts, pc, x);
      PassOk(r, tri, first) && RemapGrows(f, r) && (!PointCulled(pc[x]) ==> r.remap[x] != -1)
  {
    var r := Adopt(f, tri.verts, pc, x);
    if r != f {
      var v := f.buf.vcount;
      assert forall y :: 0 <= y < |tri.verts| && f.remap[y] != -1 ==> f.remap[y] < v;
      assert AllTwinned(r.buf.indexes[first..], r.buf.vcount) by {
        var xs := f.buf.indexes[first..];
        assert forall k :: 0 <= k < |xs| ==> Twinned(xs[k], f.buf.vcount);
      }
    }
  }

  lemma AdoptCornersOk(f: Pass, tri: Surface, pc: seq<Code>, i: int, first: int)
    requires SurfaceOk(tri) && PassOk(f, tri, first) && |pc| == |tri.verts| && 0 <= i < NumTris(tri)
    requires f.buf.vcount + 6 <= MAX_SHADOW_VERTS
    ensures var r := AdoptCorners(f, tri, pc, i);
      PassOk(r, tri, first) && RemapGrows(f, r) && CornersCopied(r, tri, pc, i)
  {
    var f1 := Adopt(f, tri.verts, pc, Corner(tri, i, 0));
    AdoptOk(f, tri, pc, Corner(tri, i, 0), first);
    var f2 := Adopt(f1, tri.verts, pc, Corner(tri, i, 1));
    AdoptOk(f1, tri, pc, Corner(tri, i, 1), first);
    AdoptOk(f2, tri, pc, Corner(tri, i, 2), first);
  }

  /**
   * Writing a clipped polygon out adds slots only above those in use and
   * appends whole fan triangles over front slots.
   */
  lemma EmitPolygonFront(s: Buf, p: seq<ClipVert>, first: int)
    requires BufOk(s) && 0 <= first <= |s.indexes| && (|s.indexes| - first) % 3 == 0
    requires AllTwinned(s.indexes[first..], s.vcount)
    ensures var r := EmitPolygon(s, p).0;
      s.vcount <= r.vcount && s.indexes <= r.indexes
      && (forall k :: 0 <= k < s.vcount ==> r.verts[k] == s.verts[k])
      && (|r.indexes| - first) % 3 == 0 && AllTwinned(r.indexes[first..], r.vcount)
  {
    var n := |p|;
    var r := EmitPolygon(s, p).0;
    if s.vcount + n * 2 <= MAX_SHADOW_VERTS {
      PlaceCornersSlots(s.verts, s.vcount, p);
      if |s.indexes| + 3 * (n - 2) <= MAX_SHADOW_INDEXES {
        FanSlots(s.vcount, n);
        var xs := r.indexes[first..];
        forall j | 0 <= j < |xs|
          ensures Twinned(xs[j], r.vcount)
        {
          if first + j < |s.indexes| {
            assert xs[j] == s.indexes[first..][j];
          } else {
            assert xs[j] == Fan(s.vcount, n)[first + j - |s.indexes|];
          }
        }
      }
    }
  }

  /** A clipped triangle written out keeps the pass invariant. */
  lemma ClipToLightOk(f: Pass, tri: Surface, a: Vec3, b: Vec3, c: Vec3, bits: Code, frustum: seq<Plane>, first: int)
    requires PassOk(f, tri, first) && |frustum| == 6
    ensures PassOk(f.(buf := ClipToLight(f.buf, a, b, c, bits, frustum).0), tri, first)
    ensures f.buf.indexes <= ClipToLight(f.buf, a, b, c, bits, frustum).0.indexes
  {
    match ClipChain(Triangle(a, b, c), bits, frustum, |frustum|)
    case None =>
    case Some(q) =>
      EmitPolygonFront(f.buf, q, first);
      EmitPolygonWellformed(f.buf, q);
  }

  /** An unclipped triangle's cap names three remapped slots: the "bad remap[]" error cannot happen. */
  lemma UnclippedCapOk(f: Pass, tri: Surface, pc: seq<Code>, i: int, first: int)
    requires SurfaceOk(tri) && PassOk(f, tri, first) && |pc| == |tri.verts| && 0 <= i < NumTris(tri)
    requires !TriClipped(pc, tri, i) && CornersCopied(f, tri, pc, i) && |f.buf.indexes| + 3 <= MAX_SHADOW_INDEXES
    ensures f.remap[Corner(tri, i, 0)] != -1 && f.remap[Corner(tri, i, 1)] != -1 && f.remap[Corner(tri, i, 2)] != -1
    ensures var cap := [f.remap[Corner(tri, i, 2)], f.remap[Corner(tri, i, 1)], f.remap[Corner(tri, i, 0)]];
      PassOk(f.(buf := f.buf.(indexes := f.buf.indexes + cap)), tri, first)
  {
    var (p1, p2, p3) := Codes(pc, tri, i);
    UnclippedCornersKept(p1, p2, p3);
    var cap := [f.remap[Corner(tri, i, 2)], f.remap[Corner(tri, i, 1)], f.remap[Corner(tri, i, 0)]];
    var r := f.buf.(indexes := f.buf.indexes + cap);
    var xs := r.indexes[first..];
    forall j | 0 <= j < |xs|
      ensures Twinned(xs[j], r.vcount)
    {
      if first + j < |f.buf.indexes| {
        assert xs[j] == f.buf.indexes[first..][j];
      } else {
        assert xs[j] == cap[first + j - |f.buf.indexes|];
      }
    }
  }

  /** The clip-or-cap stage keeps the pass invariant and changes only faceCastsShadow[i] and the buffers. */
  lemma CapTriOk(f: Pass, tri: Surface, pc: seq<Code>, frustum: seq<Plane>, i: int, first: int)
    requires SurfaceOk(tri) && PassOk(f, tri, first) && |pc| == |tri.verts| && 0 <= i < NumTris(tri) && |frustum| == 6
    requires TriFits(pc, tri, frustum, i) && CornersCopied(f, tri, pc, i)
    ensures var r := CapTri(f, tri, pc, frustum, i).0;
      PassOk(r, tri, first) && r.remap == f.remap && f.buf.indexes <= r.buf.indexes
      && (forall p :: 0 <= p < |f.casts| && p != i ==> r.casts[p] == f.casts[p])
  {
    if TriClipped(pc, tri, i) {
      var (a, b, c) := TriPoints(tri, i);
      ClipToLightOk(f, tri, a, b, c, TriClipBits(pc, tri, i), frustum, first);
    } else if |f.buf.indexes| + 3 <= MAX_SHADOW_INDEXES {
      UnclippedCapOk(f, tri, pc, i, first);
    }
  }

  /** One triangle keeps the pass invariant, only sets remap entries, and keeps Covered one triangle further. */
  lemma TriStepOk(f: Pass, tri: Surface, pc: seq<Code>, facing: seq<bool>, frustum: seq<Plane>, i: int, first: int)
    requires SurfaceOk(tri) && PassOk(f, tri, first) && |pc| == |tri.verts| && 0 <= i < NumTris(tri)
    requires i < |facing| && |frustum| == 6 && TriFits(pc, tri, frustum, i) && Covered(f, tri, pc, i)
    ensures var r := TriStep(f, tri, pc, facing, frustum, i).0;
      PassOk(r, tri, first) && RemapGrows(f, r) && Covered(r, tri, pc, i + 1) && f.buf.indexes <= r.buf.indexes
      && (forall p :: 0 <= p < |f.casts| && p != i ==> r.casts[p] == f.casts[p])
  {
    var f0 := f.(casts := f.casts[i := false]);
    var r := TriStep(f, tri, pc, facing, frustum, i).0;
    if Candidate(pc, tri, facing, i) && f0.buf.vcount + 6 <= MAX_SHADOW_VERTS {
      var g := AdoptCorners(f0, tri, pc, i);
      AdoptCornersOk(f0, tri, pc, i, first);
      CapTriOk(g, tri, pc, frustum, i, first);
      forall p | 0 <= p < i + 1 && r.casts[p]
        ensures CornersCopied(r, tri, pc, p)
      {
        if p < i {
          assert CornersCopied(f, tri, pc, p);
        }
      }
    } else {
      assert Covered(r, tri, pc, i + 1) by {
        forall p | 0 <= p < i + 1 && r.casts[p]
          ensures CornersCopied(r, tri, pc, p)
        {
          assert CornersCopied(f, tri, pc, p);
        }
      }
    }
  }

  /** The triangle loop keeps the pass invariant and, when it runs to the end, covers every triangle. */
  lemma {:induction false} TrisFromOk(f: Pass, tri: Surface, pc: seq<Code>, facing: seq<bool>, frustum: seq<Plane>,
                                      i: nat, first: int)
    requires SurfaceOk(tri) && PassOk(f, tri, first) && |pc| == |tri.verts| && i <= NumTris(tri)
    requires |facing| > NumTris(tri) && |frustum| == 6 && PassFits(pc, tri, frustum) && Covered(f, tri, pc, i)
    ensures var r := TrisFrom(f, tri, pc, facing, frustum, i);
      PassOk(r.0, tri, first) && f.buf.indexes <= r.0.buf.indexes
      && (r.1 ==> r.0.buf.overflowed) && (!r.1 ==> Covered(r.0, tri, pc, NumTris(tri)))
    decreases NumTris(tri) - i
  {
    if i < NumTris(tri) {
      assert TriFits(pc, tri, frustum, i);
      var t := TriStep(f, tri, pc, facing, frustum, i);
      TriStepOk(f, tri, pc, facing, frustum, i, first);
      if !t.1 {
        TrisFromOk(t.0, tri, pc, facing, frustum, i + 1, first);
      }
    }
  }

  /**
   * After a complete triangle loop, with the dangling face marked as not
   * casting, every sil edge is ready for AddSilEdges: a silhouette edge
   * used whole lies on a casting triangle, whose unculled corners were all
   * copied, so the "bad remap[]" error cannot happen.
   */
  lemma SilEdgesReady(f: Pass, tri: Surface, pc: seq<Code>)
    requires SurfaceOk(tri) && |f.remap| == |tri.verts| == |pc| && |f.casts| == NumTris(tri) + 1
    requires Covered(f, tri, pc, NumTris(tri)) && !f.casts[NumTris(tri)]
    ensures SilInputs(tri.verts, pc, f.casts, f.remap, tri.silEdges)
  {
    forall k | 0 <= k < |tri.silEdges|
      ensures EdgeReady(tri.verts, pc, f.casts, f.remap, tri.silEdges[k])
    {
      var e := tri.silEdges[k];
      assert SilEdgeOk(tri, e);
      if IsSilhouette(e, pc, f.casts) && !EdgeClipped(pc[e.v1], pc[e.v2]) {
        EdgeCulledImpliesClipped(pc[e.v1], pc[e.v2]);
        var p := if f.casts[e.p1] then e.p1 else e.p2;
        assert CornersCopied(f, tri, pc, p);
      }
    }
  }

  // ---------------------------------------------------------------------
  // The whole pass

  /**
   * The rear caps: front cap triangle t, (a, b, c), becomes (c+1, b+1, a+1)
   * over the far-plane twins.
   */
  function RearCaps(xs: seq<int>): (r: seq<int>)
    requires |xs| % 3 == 0
    ensures |r| == |xs|
  {
    seq(|xs|, k requires 0 <= k < |xs| => xs[k - k % 3 + 2 - k % 3] + 1)
  }

  /**
   * Rear caps over front slots use only twins in use, and each rear
   * triangle is its front triangle reversed, one slot up.
   */
  lemma RearCapsTwins(xs: seq<int>, vcount: int)
    requires |xs| % 3 == 0 && AllTwinned(xs, vcount)
    ensures AllBelow(RearCaps(xs), vcount)
    ensures forall t :: 0 <= t < |xs| / 3 ==>
      RearCaps(xs)[3 * t] == xs[3 * t + 2] + 1 && RearCaps(xs)[3 * t + 1] == xs[3 * t + 1] + 1
      && RearCaps(xs)[3 * t + 2] == xs[3 * t] + 1
  {
    var r := RearCaps(xs);
    forall k | 0 <= k < |xs|
      ensures 0 <= r[k] < vcount
    {
      assert 0 <= k - k % 3 + 2 - k % 3 < |xs|;
    }
    forall t | 0 <= t < |xs| / 3
      ensures r[3 * t] == xs[3 * t + 2] + 1 && r[3 * t + 1] == xs[3 * t + 1] + 1 && r[3 * t + 2] == xs[3 * t] + 1
    {
      assert (3 * t + 1) % 3 == 1 && (3 * t + 2) % 3 == 2 && (3 * t) % 3 == 0;
    }
  }

  /** indexRef_t: where one pass's front caps, rear caps and sil quads start, and where the pass ends. */
  datatype IndexRef = IndexRef(frontCapStart: int, rearCapStart: int, silStart: int, end: int)

  /** The state a pass starts from: remap all -1 (CalcPointCull) and no clip edges yet. */
  function PassStart(s: Buf, casts: seq<bool>, tri: Surface): (f: Pass) {
    Pass(s.(edges := []), seq(|tri.verts|, _ => -1), casts)
  }

  lemma PassStartOk(s: Buf, casts: seq<bool>, tri: Surface)
    requires Wellformed(s) && |casts| == NumTris(tri) + 1
    ensures PassOk(PassStart(s, casts, tri), tri, |s.indexes|)
  {
  }

  /**
   * The triangle loop ran to the end with some caps: the dangling face is
   * marked as not casting and the rear caps are appended (or the volume
   * overflows).
   */
  function CapsDone(f: Pass, tri: Surface, first: int): (r: Pass)
    requires PassOk(f, tri, first)
    ensures BufOk(r.buf)
  {
    var f1 := f.(casts := f.casts[NumTris(tri) := false]);
    var numCap := |f.buf.indexes| - first;
    if |f1.buf.indexes| + numCap > MAX_SHADOW_INDEXES then f1.(buf := f1.buf.(overflowed := true))
    else f1.(buf := f1.buf.(indexes := f1.buf.indexes + RearCaps(f1.buf.indexes[first..])))
  }

  lemma CapsDoneOk(f: Pass, tri: Surface, pc: seq<Code>, first: int)
    requires SurfaceOk(tri) && |pc| == |tri.verts| && PassOk(f, tri, first) && Covered(f, tri, pc, NumTris(tri))
    ensures var r := CapsDone(f, tri, first);
      Wellformed(r.buf) && RemapOk(r, tri.verts) && f.buf.indexes <= r.buf.indexes && r.remap == f.remap
      && |r.casts| == |f.casts| && Covered(r, tri, pc, NumTris(tri)) && !r.casts[NumTris(tri)]
      && SilInputs(tri.verts, pc, r.casts, r.remap, tri.silEdges)
  {
    var r := CapsDone(f, tri, first);
    var xs := f.buf.indexes[first..];
    if |f.buf.indexes| + |xs| <= MAX_SHADOW_INDEXES {
      RearCapsTwins(xs, f.buf.vcount);
      forall k | 0 <= k < |r.buf.indexes|
        ensures 0 <= r.buf.indexes[k] < r.buf.vcount
      {
        if k >= |f.buf.indexes| {
          assert r.buf.indexes[k] == RearCaps(xs)[k - |f.buf.indexes|];
        }
      }
    }
    assert Covered(r, tri, pc, NumTris(tri)) by {
      forall p | 0 <= p < NumTris(tri) && r.casts[p]
        ensures CornersCopied(r, tri, pc, p)
      {
        assert CornersCopied(f, tri, pc, p);
      }
    }
    SilEdgesReady(r, tri, pc);
  }

  /**
   * The end of a pass whose triangle loop ran through and made caps from
   * first on: rear caps, then the clip-made sil quads when the frustum
   * asks for them, then the sil quads of the surface's own edges, and the
   * ranges noted for indexRef.
   */
  function FinishPass(g: Pass, tri: Surface, pc: seq<Code>, frustum: seq<Plane>, makeClippedPlanes: bool, first: int)
    : (r: (Pass, Option<IndexRef>))
    requires SurfaceOk(tri) && |pc| == |tri.verts| && |frustum| == 6
    requires PassOk(g, tri, first) && Covered(g, tri, pc, NumTris(tri))
  {
    var numCap := |g.buf.indexes| - first;
    var f1 := CapsDone(g, tri, first);
    CapsDoneOk(g, tri, pc, first);
    if |g.buf.indexes| + numCap > MAX_SHADOW_INDEXES then (f1, None)
    else
      var preSil := |f1.buf.indexes|;
      var b := if makeClippedPlanes then AddClipSil(f1.buf) else f1.buf;
      var b' := SilEdgesFrom(b, tri.silEdges, tri.verts, pc, f1.casts, f1.remap, frustum, 0);
      (f1.(buf := b'), Some(IndexRef(first, first + numCap, preSil, |b'.indexes|)))
  }

  /** The end of a pass keeps the buffers well formed. */
  lemma FinishPassWellformed(g: Pass, tri: Surface, pc: seq<Code>, frustum: seq<Plane>, makeClippedPlanes: bool,
                             first: int)
    requires SurfaceOk(tri) && |pc| == |tri.verts| && |frustum| == 6
    requires PassOk(g, tri, first) && Covered(g, tri, pc, NumTris(tri))
    ensures Wellformed(FinishPass(g, tri, pc, frustum, makeClippedPlanes, first).0.buf)
  {
    var f1 := CapsDone(g, tri, first);
    CapsDoneOk(g, tri, pc, first);
    var ix := g.buf.indexes;
    if |ix| + (|ix| - first) <= MAX_SHADOW_INDEXES {
      var b := if makeClippedPlanes then AddClipSil(f1.buf) else f1.buf;
      if makeClippedPlanes {
        AddClipSilWellformed(f1.buf);
      }
      SilEdgesWellformed(b, tri.silEdges, tri.verts, pc, f1.casts, f1.remap, frustum, 0);
    }
  }

  /**
   * The end of a pass only appends; the ranges it notes run front caps,
   * rear caps, sil quads up to the end, and the rear caps are the front
   * caps reversed over the twins; it notes nothing only on overflow.
   */
  lemma FinishPassRanges(g: Pass, tri: Surface, pc: seq<Code>, frustum: seq<Plane>, makeClippedPlanes: bool, first: int)
    requires SurfaceOk(tri) && |pc| == |tri.verts| && |frustum| == 6
    requires PassOk(g, tri, first) && Covered(g, tri, pc, NumTris(tri)) && first < |g.buf.indexes|
    ensures var (f, ref) := FinishPass(g, tri, pc, frustum, makeClippedPlanes, first);
      |f.casts| == |g.casts| && g.buf.indexes <= f.buf.indexes
      && (ref.None? ==> f.buf.overflowed)
      && (ref.Some? ==>
        var x := ref.value;
        x.frontCapStart == first < x.rearCapStart <= x.silStart <= x.end == |f.buf.indexes|
        && (x.rearCapStart - x.frontCapStart) % 3 == 0
        && f.buf.indexes[x.rearCapStart..x.silStart] == RearCaps(f.buf.indexes[x.frontCapStart..x.rearCapStart]))
  {
    var f1 := CapsDone(g, tri, first);
    CapsDoneOk(g, tri, pc, first);
    var ix := g.buf.indexes;
    if |ix| + (|ix| - first) <= MAX_SHADOW_INDEXES {
      var b := if makeClippedPlanes then AddClipSil(f1.buf) else f1.buf;
      var b' := SilEdgesFrom(b, tri.silEdges, tri.verts, pc, f1.casts, f1.remap, frustum, 0);
      AppendedRanges(ix, RearCaps(ix[first..]), b'.indexes, first);
      assert FinishPass(g, tri, pc, frustum, makeClippedPlanes, first)
        == (f1.(buf := b'), Some(IndexRef(first, |ix|, |f1.buf.indexes|, |b'.indexes|)));
    } else {
      assert FinishPass(g, tri, pc, frustum, makeClippedPlanes, first) == (f1, None);
    }
  }

  /** Ranges of a prefix survive later appends. */
  lemma AppendedRanges(ix: seq<int>, rear: seq<int>, all: seq<int>, first: int)
    requires 0 <= first <= |ix| && ix + rear <= all
    ensures all[first..|ix|] == ix[first..] && all[|ix|..|ix| + |rear|] == rear
  {
    assert all[..|ix| + |rear|] == ix + rear;
  }

  /**
   * CreateShadowVolumeInFrustum on the real-time path: the new state and,
   * when the pass made caps and did not overflow on the way, the index
   * ranges it notes in indexRef.
   */
  function InFrustum(s: Buf, casts: seq<bool>, tri: Surface, pc: seq<Code>, facing: seq<bool>,
                     frustum: seq<Plane>, makeClippedPlanes: bool): (r: (Pass, Option<IndexRef>))
    requires Wellformed(s) && SurfaceOk(tri) && |pc| == |tri.verts| && |casts| == NumTris(tri) + 1
    requires |facing| > NumTris(tri) && |frustum| == 6 && PassFits(pc, tri, frustum)
  {
    var first := |s.indexes|;
    var f0 := PassStart(s, casts, tri);
    PassStartOk(s, casts, tri);
    TrisFromOk(f0, tri, pc, facing, frustum, 0, first);
    var t := TrisFrom(f0, tri, pc, facing, frustum, 0);
    if t.1 || |t.0.buf.indexes| == first then (t.0, None)
    else FinishPass(t.0, tri, pc, frustum, makeClippedPlanes, first)
  }

  /**
   * A pass keeps the buffers well formed and only appends indexes. When it
   * notes ranges, they start where the pass started and end where it
   * ended, in the order front caps, rear caps, sil quads, and the rear caps
   * are the front caps reversed over the twins. When it notes nothing, it
   * either overflowed or added no index at all.
   */
  lemma InFrustumOk(s: Buf, casts: seq<bool>, tri: Surface, pc: seq<Code>, facing: seq<bool>,
                    frustum: seq<Plane>, makeClippedPlanes: bool)
    requires Wellformed(s) && SurfaceOk(tri) && |pc| == |tri.verts| && |casts| == NumTris(tri) + 1
    requires |facing| > NumTris(tri) && |frustum| == 6 && PassFits(pc, tri, frustum)
    ensures var (f, ref) := InFrustum(s, casts, tri, pc, facing, frustum, makeClippedPlanes);
      Wellformed(f.buf) && |f.casts| == |casts| && s.indexes <= f.buf.indexes
      && (ref.None? ==> f.buf.overflowed || f.buf.indexes == s.indexes)
      && (ref.Some? ==>
        var x := ref.value;
        x.frontCapStart == |s.indexes| < x.rearCapStart <= x.silStart <= x.end == |f.buf.indexes|
        && (x.rearCapStart - x.frontCapStart) % 3 == 0
        && f.buf.indexes[x.rearCapStart..x.silStart] == RearCaps(f.buf.indexes[x.frontCapStart..x.rearCapStart]))
  {
    var first := |s.indexes|;
    var f0 := PassStart(s, casts, tri);
    PassStartOk(s, casts, tri);
    TrisFromOk(f0, tri, pc, facing, frustum, 0, first);
    var t := TrisFrom(f0, tri, pc, facing, frustum, 0);
    if !t.1 && |t.0.buf.indexes| != first {
      FinishPassWellformed(t.0, tri, pc, frustum, makeClippedPlanes, first);
      FinishPassRanges(t.0, tri, pc, frustum, makeClippedPlanes, first);
    }
  }

  // ---------------------------------------------------------------------
  // CreateShadowVolume

  /**
   * shadowFrustum_t with its planes already in the surface's space, and
   * the distances of the surface bounds from those planes (idBounds and the
   * model-matrix transform are not part of this model).
   */
  datatype ShadowFrustum = ShadowFrustum(numPlanes: int, planes: seq<Plane>, makeClippedPlanes: bool,
                                         boundsDist: seq<real>)

  predicate FrustumOk(fr: ShadowFrustum) {
    0 <= fr.numPlanes <= 6 && |fr.planes| == 6 && |fr.boundsDist| == 6
  }

  /** The surface bounds lie clearly behind one of the frustum's planes: the frustum is skipped. */
  predicate BoundsCulled(fr: ShadowFrustum)
    requires FrustumOk(fr)
  {
    exists j :: 0 <= j < fr.numPlanes && fr.boundsDist[j] < -LIGHT_CLIP_EPSILON
  }

  /** The pointCull codes CalcPointCull computes for the frustum. */
  function PointCodes(fr: ShadowFrustum, verts: seq<Vec3>): (pc: seq<Code>)
    requires FrustumOk(fr)
    ensures |pc| == |verts|
  {
    seq(|verts|, v requires 0 <= v < |verts| => VertexCullCode(fr.boundsDist, PlaneDists(fr.planes, verts[v])))
  }

  predicate FrustumFits(tri: Surface, fr: ShadowFrustum)
    requires SurfaceOk(tri)
  {
    FrustumOk(fr) && PassFits(PointCodes(fr, tri.verts), tri, fr.planes)
  }

  /** Every frustum is well formed and none makes the clipper overflow its buffers. */
  predicate LightFits(tri: Surface, frusta: seq<ShadowFrustum>)
    requires SurfaceOk(tri)
  {
    |frusta| <= 6 && forall k :: 0 <= k < |frusta| ==> FrustumFits(tri, frusta[k])
  }

  /** What CreateShadowVolume keeps across frustums: the buffers, faceCastsShadow, indexRef and capPlaneBits. */
  datatype Volume = Volume(buf: Buf, casts: seq<bool>, refs: seq<IndexRef>, capPlaneBits: bv8)

  /** The bit of shadowCapPlaneBits that stands for frustum k. */
  function FrustumBit(k: nat): (b: bv8)
    requires k < 6
    ensures b != 0 && b & 0xC0 == 0
  {
    (1 as bv8) << k
  }

  /**
   * One frustum of CreateShadowVolume's loop: skipped when the surface
   * bounds are culled by it, None when its pass overflowed, otherwise the
   * pass's buffers, with its ranges noted and bit k of capPlaneBits set
   * when it emitted any index.
   */
  function FrustumStep(v: Volume, tri: Surface, facing: seq<bool>, fr: ShadowFrustum, k: nat): (r: Option<Volume>)
    requires Wellformed(v.buf) && SurfaceOk(tri) && |v.casts| == NumTris(tri) + 1 && |facing| > NumTris(tri)
    requires FrustumFits(tri, fr) && k < 6
    ensures r.Some? ==> Wellformed(r.value.buf) && |r.value.casts| == NumTris(tri) + 1
  {
    if BoundsCulled(fr) then Some(v)
    else
      var pc := PointCodes(fr, tri.verts);
      InFrustumOk(v.buf, v.casts, tri, pc, facing, fr.planes, fr.makeClippedPlanes);
      var t := InFrustum(v.buf, v.casts, tri, pc, facing, fr.planes, fr.makeClippedPlanes);
      if t.0.buf.overflowed then None
      else if t.1.None? then Some(v.(buf := t.0.buf, casts := t.0.casts))
      else Some(Volume(t.0.buf, t.0.casts, v.refs + [t.1.value], v.capPlaneBits | FrustumBit(k)))
  }

  /** The frustum loop from frustum k on; None when a pass overflowed and the volume is abandoned. */
  function FrustaFrom(v: Volume, tri: Surface, facing: seq<bool>, frusta: seq<ShadowFrustum>, k: nat)
    : (r: Option<Volume>)
    requires Wellformed(v.buf) && SurfaceOk(tri) && |v.casts| == NumTris(tri) + 1 && |facing| > NumTris(tri)
    requires k <= |frusta| && LightFits(tri, frusta)
    decreases |frusta| - k
  {
    if k == |frusta| then Some(v)
    else
      match FrustumStep(v, tri, facing, frusta[k], k)
      case None => None
      case Some(w) => FrustaFrom(w, tri, facing, frusta, k + 1)
  }

  /** A frustum's step keeps the noted ranges tiling the index buffer. */
  lemma FrustumStepTiles(v: Volume, tri: Surface, facing: seq<bool>, fr: ShadowFrustum, k: nat)
    requires Wellformed(v.buf) && SurfaceOk(tri) && |v.casts| == NumTris(tri) + 1 && |facing| > NumTris(tri)
    requires FrustumFits(tri, fr) && k < 6 && Tiles(v.refs, |v.buf.indexes|)
    ensures var r := FrustumStep(v, tri, facing, fr, k);
      r.Some? ==> Tiles(r.value.refs, |r.value.buf.indexes|)
  {
    if !BoundsCulled(fr) {
      var pc := PointCodes(fr, tri.verts);
      InFrustumOk(v.buf, v.casts, tri, pc, facing, fr.planes, fr.makeClippedPlanes);
      var t := InFrustum(v.buf, v.casts, tri, pc, facing, fr.planes, fr.makeClippedPlanes);
      if !t.0.buf.overflowed && t.1.Some? {
        ChainAppend(v.refs, 0, 0, |v.buf.indexes|, t.1.value, |t.0.buf.indexes|);
      }
    }
  }

  /** A frustum's step that notes no ranges leaves the indexes and capPlaneBits alone. */
  lemma FrustumStepSkips(v: Volume, tri: Surface, facing: seq<bool>, fr: ShadowFrustum, k: nat)
    requires Wellformed(v.buf) && SurfaceOk(tri) && |v.casts| == NumTris(tri) + 1 && |facing| > NumTris(tri)
    requires FrustumFits(tri, fr) && k < 6
    ensures var r := FrustumStep(v, tri, facing, fr, k);
      r.Some? && |r.value.refs| == |v.refs| ==>
        r.value.refs == v.refs && r.value.capPlaneBits == v.capPlaneBits && r.value.buf.indexes == v.buf.indexes
  {
    if !BoundsCulled(fr) {
      var pc := PointCodes(fr, tri.verts);
      InFrustumOk(v.buf, v.casts, tri, pc, facing, fr.planes, fr.makeClippedPlanes);
    }
  }

  /** A pass that notes ranges has emitted indexes. */
  lemma InFrustumGrows(s: Buf, casts: seq<bool>, tri: Surface, pc: seq<Code>, facing: seq<bool>,
                       frustum: seq<Plane>, makeClippedPlanes: bool)
    requires Wellformed(s) && SurfaceOk(tri) && |pc| == |tri.verts| && |casts| == NumTris(tri) + 1
    requires |facing| > NumTris(tri) && |frustum| == 6 && PassFits(pc, tri, frustum)
    ensures var (f, ref) := InFrustum(s, casts, tri, pc, facing, frustum, makeClippedPlanes);
      ref.Some? ==> |f.buf.indexes| > |s.indexes|
  {
    InFrustumOk(s, casts, tri, pc, facing, frustum, makeClippedPlanes);
  }

  /**
   * A frustum's step that notes ranges notes one set of them, sets bit k of
   * capPlaneBits, and has emitted indexes.
   */
  lemma FrustumStepNotes(v: Volume, tri: Surface, facing: seq<bool>, fr: ShadowFrustum, k: nat)
    requires Wellformed(v.buf) && SurfaceOk(tri) && |v.casts| == NumTris(tri) + 1 && |facing| > NumTris(tri)
    requires FrustumFits(tri, fr) && k < 6
    ensures var r := FrustumStep(v, tri, facing, fr, k);
      r.Some? && |r.value.refs| != |v.refs| ==>
        |r.value.refs| == |v.refs| + 1 && r.value.refs[..|v.refs|] == v.refs
        && r.value.capPlaneBits == v.capPlaneBits | FrustumBit(k)
        && |r.value.buf.indexes| > |v.buf.indexes|
  {
    if !BoundsCulled(fr) {
      var pc := PointCodes(fr, tri.verts);
      InFrustumGrows(v.buf, v.casts, tri, pc, facing, fr.planes, fr.makeClippedPlanes);
      var t := InFrustum(v.buf, v.casts, tri, pc, facing, fr.planes, fr.makeClippedPlanes);
      if !t.0.buf.overflowed && t.1.Some? {
        var refs := v.refs + [t.1.value];
        assert refs[..|v.refs|] == v.refs;
        assert FrustumStep(v, tri, facing, fr, k) == Some(Volume(t.0.buf, t.0.casts, refs, v.capPlaneBits | FrustumBit(k)));
      }
    }
  }

  /** A pass's ranges are in order and end by n. */
  predicate RefOk(x: IndexRef, n: int) {
    0 <= x.frontCapStart <= x.rearCapStart <= x.silStart <= x.end <= n
  }

  /**
   * The noted ranges from pass i on cover indexes [start, n) back to back:
   * each pass's ranges run front caps, rear caps, sil quads, and the next
   * pass starts where it ended.
   */
  predicate ChainFrom(refs: seq<IndexRef>, i: int, start: int, n: int)
    requires 0 <= i <= |refs|
    decreases |refs| - i
  {
    if i == |refs| then start == n
    else RefOk(refs[i], n) && refs[i].frontCapStart == start && ChainFrom(refs, i + 1, refs[i].end, n)
  }

  /** The noted ranges cover indexes [0, n) back to back. */
  predicate Tiles(refs: seq<IndexRef>, n: int) {
    ChainFrom(refs, 0, 0, n)
  }

  /** Every pass of a chain lies within n. */
  lemma {:induction false} ChainRefs(refs: seq<IndexRef>, i: int, start: int, n: int)
    requires 0 <= i <= |refs| && ChainFrom(refs, i, start, n)
    ensures start <= n && forall j :: i <= j < |refs| ==> RefOk(refs[j], n)
    decreases |refs| - i
  {
    if i < |refs| {
      ChainRefs(refs, i + 1, refs[i].end, n);
    }
  }

  /** A chain to n followed by a pass from n to n' is a chain to n'. */
  lemma {:induction false} ChainAppend(refs: seq<IndexRef>, i: int, start: int, n: int, x: IndexRef, n': int)
    requires 0 <= i <= |refs| && ChainFrom(refs, i, start, n)
    requires x.frontCapStart == n && RefOk(x, n') && x.end == n'
    ensures ChainFrom(refs + [x], i, start, n')
    decreases |refs| - i
  {
    var r := refs + [x];
    if i == |refs| {
      assert r[i] == x;
      assert ChainFrom(r, i + 1, x.end, n');
    } else {
      ChainRefs(refs, i, start, n);
      ChainAppend(refs, i + 1, refs[i].end, n, x, n');
      assert r[i] == refs[i];
    }
  }

  /** Where range w of a pass starts and ends: 0 the front caps, 1 the rear caps, 2 the sil quads. */
  function RangeStart(x: IndexRef, w: int): int {
    if w == 0 then x.frontCapStart else if w == 1 then x.rearCapStart else x.silStart
  }

  function RangeEnd(x: IndexRef, w: int): int {
    if w == 0 then x.rearCapStart else if w == 1 then x.silStart else x.end
  }

  /** Range w of a pass. */
  function RangeOf(ix: seq<int>, x: IndexRef, w: int): seq<int>
    requires RefOk(x, |ix|)
  {
    ix[RangeStart(x, w)..RangeEnd(x, w)]
  }

  /** Range w of passes i onwards, in pass order. */
  function Part(ix: seq<int>, refs: seq<IndexRef>, i: int, w: int): seq<int>
    requires 0 <= i <= |refs| && forall j :: 0 <= j < |refs| ==> RefOk(refs[j], |ix|)
    decreases |refs| - i
  {
    if i == |refs| then [] else RangeOf(ix, refs[i], w) + Part(ix, refs, i + 1, w)
  }

  lemma ConcatSlices(ix: seq<int>, a: int, b: int, c: int, n: int)
    requires 0 <= a <= b <= c <= n <= |ix|
    ensures ix[a..n] == ix[a..b] + ix[b..c] + ix[c..n]
  {
    var r := ix[a..b] + ix[b..c] + ix[c..n];
    assert |r| == n - a;
    forall k | 0 <= k < n - a
      ensures r[k] == ix[a + k]
    {
      if k < b - a {
      } else if k < c - a {
      } else {
      }
    }
  }

  /** The three parts of passes i onwards together hold exactly the indexes from start to n. */
  lemma {:induction false} PartsPermute(ix: seq<int>, refs: seq<IndexRef>, n: int, i: int, start: int)
    requires 0 <= i <= |refs| && ChainFrom(refs, i, start, n) && n <= |ix| && 0 <= start
    requires forall j :: 0 <= j < |refs| ==> RefOk(refs[j], |ix|)
    ensures start <= n
    ensures multiset(Part(ix, refs, i, 0)) + multiset(Part(ix, refs, i, 1)) + multiset(Part(ix, refs, i, 2))
         == multiset(ix[start..n])
    ensures |Part(ix, refs, i, 0)| + |Part(ix, refs, i, 1)| + |Part(ix, refs, i, 2)| == n - start
    decreases |refs| - i
  {
    if i < |refs| {
      var x := refs[i];
      PartsPermute(ix, refs, n, i + 1, x.end);
      var p0, p1, p2 := Part(ix, refs, i + 1, 0), Part(ix, refs, i + 1, 1), Part(ix, refs, i + 1, 2);
      assert Part(ix, refs, i, 0) == ix[x.frontCapStart..x.rearCapStart] + p0;
      assert Part(ix, refs, i, 1) == ix[x.rearCapStart..x.silStart] + p1;
      assert Part(ix, refs, i, 2) == ix[x.silStart..x.end] + p2;
      PermuteStep(ix, start, x.rearCapStart, x.silStart, x.end, n, p0, p1, p2);
    }
  }

  /** One pass's three ranges in front of the parts of the passes after it. */
  lemma PermuteStep(ix: seq<int>, a: int, b: int, c: int, d: int, n: int, p0: seq<int>, p1: seq<int>, p2: seq<int>)
    requires 0 <= a <= b <= c <= d <= n <= |ix|
    requires multiset(p0) + multiset(p1) + multiset(p2) == multiset(ix[d..n])
    ensures multiset(ix[a..b] + p0) + multiset(ix[b..c] + p1) + multiset(ix[c..d] + p2) == multiset(ix[a..n])
  {
    var r0, r1, r2, rest := ix[a..b], ix[b..c], ix[c..d], ix[d..n];
    assert ix[a..n] == r0 + r1 + r2 + rest by {
      ConcatSlices(ix, a, b, c, d);
      assert ix[a..n] == ix[a..d] + rest;
    }
    calc {
      multiset(r0 + p0) + multiset(r1 + p1) + multiset(r2 + p2);
      multiset(r0) + multiset(r1) + multiset(r2) + (multiset(p0) + multiset(p1) + multiset(p2));
      multiset(r0 + r1 + r2 + rest);
    }
  }

  /** The shadow surface CreateShadowVolume returns (its vertexes are not copied out). */
  datatype ShadowSurface = ShadowSurface(numVerts: int, indexes: seq<int>, numShadowIndexesNoCaps: int,
                                         numShadowIndexesNoFrontCaps: int, shadowCapPlaneBits: bv8)

  /** The sil ranges of all passes first, then the rear caps, then the front caps. */
  function Assemble(v: Volume): ShadowSurface
    requires Tiles(v.refs, |v.buf.indexes|)
  {
    var ix := v.buf.indexes;
    ChainRefs(v.refs, 0, 0, |ix|);
    var sil := Part(ix, v.refs, 0, 2);
    var rear := Part(ix, v.refs, 0, 1);
    var front := Part(ix, v.refs, 0, 0);
    ShadowSurface(v.buf.vcount, sil + rear + front, |sil|, |sil| + |rear|, v.capPlaneBits)
  }

  /** The surface is worth a shadow: it has sil edges, indexes and vertexes, and some face faces away from the light. */
  predicate CastsAtAll(tri: Surface, facing: seq<bool>)
    requires |facing| > NumTris(tri)
  {
    |tri.silEdges| != 0 && |tri.silIndexes| != 0 && |tri.verts| != 0
    && exists i :: 0 <= i < NumTris(tri) && !facing[i]
  }

  /**
   * CreateShadowVolume on the real-time path: None for a surface that
   * cannot cast, for a volume abandoned by an overflow and for a volume
   * without indexes. vs is what the shadow vertex array holds beforehand.
   */
  /** The state before the first frustum: empty buffers over the given vertex storage, no triangle cast yet. */
  function StartVolume(tri: Surface, vs: seq<Vec3>): Volume {
    Volume(Buf(vs, 0, [], [], false), seq(NumTris(tri) + 1, _ => false), [], 0)
  }

  function CreateVolume(tri: Surface, facing: seq<bool>, frusta: seq<ShadowFrustum>, vs: seq<Vec3>)
    : (r: Option<ShadowSurface>)
    requires SurfaceOk(tri) && |facing| == NumTris(tri) + 1 && LightFits(tri, frusta) && |vs| == MAX_SHADOW_VERTS
  {
    if !CastsAtAll(tri, facing) then None
    else
      var v0 := StartVolume(tri, vs);
      FrustaTile(v0, tri, facing, frusta, 0);
      match FrustaFrom(v0, tri, facing, frusta, 0)
      case None => None
      case Some(v) => if |v.buf.indexes| == 0 then None else Some(Assemble(v))
  }

  /** The frustum loop keeps the noted ranges tiling the index buffer and the buffers well formed. */
  lemma {:induction false} FrustaTile(v: Volume, tri: Surface, facing: seq<bool>, frusta: seq<ShadowFrustum>, k: nat)
    requires Wellformed(v.buf) && SurfaceOk(tri) && |v.casts| == NumTris(tri) + 1 && |facing| > NumTris(tri)
    requires k <= |frusta| && LightFits(tri, frusta) && Tiles(v.refs, |v.buf.indexes|)
    ensures var r := FrustaFrom(v, tri, facing, frusta, k);
      r.Some? ==> Wellformed(r.value.buf) && Tiles(r.value.refs, |r.value.buf.indexes|)
    decreases |frusta| - k
  {
    if k < |frusta| {
      assert FrustumFits(tri, frusta[k]);
      FrustumStepTiles(v, tri, facing, frusta[k], k);
      var r := FrustumStep(v, tri, facing, frusta[k], k);
      if r.Some? {
        FrustaTile(r.value, tri, facing, frusta, k + 1);
      }
    }
  }

  /** Assembly only reorders the indexes, and its prefix counts are ordered. */
  lemma AssembleOk(v: Volume)
    requires Wellformed(v.buf) && Tiles(v.refs, |v.buf.indexes|)
    ensures var a := Assemble(v);
      multiset(a.indexes) == multiset(v.buf.indexes) && |a.indexes| == |v.buf.indexes|
      && 0 <= a.numShadowIndexesNoCaps <= a.numShadowIndexesNoFrontCaps <= |a.indexes|
      && a.numVerts == v.buf.vcount
      && forall k :: 0 <= k < |a.indexes| ==> 0 <= a.indexes[k] < a.numVerts
  {
    var ix := v.buf.indexes;
    ChainRefs(v.refs, 0, 0, |ix|);
    PartsPermute(ix, v.refs, |ix|, 0, 0);
    assert ix[0..|ix|] == ix;
    var out := Assemble(v).indexes;
    assert multiset(out) == multiset(ix);
    forall k | 0 <= k < |out|
      ensures 0 <= out[k] < v.buf.vcount
    {
      assert out[k] in multiset(ix);
      var j :| 0 <= j < |ix| && ix[j] == out[k];
    }
  }

  /**
   * The shadow surface holds exactly the indexes the passes produced,
   * reordered; they all name vertexes in use; and the counts of the
   * sil-only and no-front-cap prefixes are ordered.
   */
  lemma CreateVolumeOk(tri: Surface, facing: seq<bool>, frusta: seq<ShadowFrustum>, vs: seq<Vec3>)
    requires SurfaceOk(tri) && |facing| == NumTris(tri) + 1 && LightFits(tri, frusta) && |vs| == MAX_SHADOW_VERTS
    ensures var r := CreateVolume(tri, facing, frusta, vs);
      r.Some? ==>
        var v := FrustaFrom(StartVolume(tri, vs),
                            tri, facing, frusta, 0).value;
        multiset(r.value.indexes) == multiset(v.buf.indexes)
        && |r.value.indexes| == |v.buf.indexes| > 0
        && 0 <= r.value.numShadowIndexesNoCaps <= r.value.numShadowIndexesNoFrontCaps <= |r.value.indexes|
        && r.value.numVerts == v.buf.vcount <= MAX_SHADOW_VERTS
        && forall k :: 0 <= k < |r.value.indexes| ==> 0 <= r.value.indexes[k] < r.value.numVerts
  {
    if CastsAtAll(tri, facing) {
      var v0 := StartVolume(tri, vs);
      FrustaTile(v0, tri, facing, frusta, 0);
      var r := FrustaFrom(v0, tri, facing, frusta, 0);
      if r.Some? && |r.value.buf.indexes| != 0 {
        AssembleOk(r.value);
      }
    }
  }
}
