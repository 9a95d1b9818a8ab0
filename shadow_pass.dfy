// The imperative side of CreateShadowVolumeInFrustum and CreateShadowVolume
// (neo/tools/compilers/dmap/shadowopt3.cpp:1894-2122, 2189-2371): remap[]
// and faceCastsShadow[] are arrays beside the ShadowState buffers, every
// loop is proved against the fold in ShadowVolume that specifies it, and
// the frustum loop and the final reordering build the shadow surface.
module ShadowPass {
  import opened ShadowGeometry
  import opened CullBits
  import opened ShadowCull
  import opened ShadowBuilder
  import opened ShadowSil
  import opened ShadowVolume

  /** The pass state as the spec sees it: the buffers, remap[] and faceCastsShadow[]. */
  ghost function PassOf(st: ShadowState, remap: array<int>, casts: array<bool>): Pass
    reads st, st.verts, st.verts.data, st.indexes, st.indexes.data, st.clipEdges, st.clipEdges.data, remap, casts
    requires st.Valid()
  {
    Pass(st.Abs(), remap[..], casts[..])
  }

  /** The memset of remap[] to -1 at the end of CalcPointCull. */
  method InitRemap(remap: array<int>)
    modifies remap
    ensures remap[..] == seq(remap.Length, _ => -1)
  {
    var i := 0;
    while i < remap.Length
      invariant 0 <= i <= remap.Length
      invariant forall k :: 0 <= k < i ==> remap[k] == -1
    {
      remap[i] := -1;
      i := i + 1;
    }
  }

  /** A corner not culled and not yet remapped gets the next even shadow slot. */
  method AdoptVertex(st: ShadowState, remap: array<int>, casts: array<bool>, verts: seq<Vec3>, pc: seq<Code>, x: int)
    requires st.Valid() && remap != st.indexes.data && remap.Length == |verts| == |pc| && 0 <= x < |verts|
    requires st.verts.count + 2 <= MAX_SHADOW_VERTS
    modifies st.verts, st.verts.data, remap
    ensures st.Valid() && PassOf(st, remap, casts) == Adopt(old(PassOf(st, remap, casts)), verts, pc, x)
  {
    if !PointCulled(pc[x]) && remap[x] == -1 {
      remap[x] := st.verts.count;
      st.verts.data[st.verts.count] := verts[x];
      st.verts.count := st.verts.count + 2;
    }
  }

  /** A front-facing, unculled triangle: clipped into the buffers, or capped with its remapped corners reversed. */
  method CapTriangle(st: ShadowState, remap: array<int>, casts: array<bool>, tri: Surface, pc: seq<Code>,
                     frustum: seq<Plane>, i: int) returns (stop: bool)
    requires st.Valid() && remap != st.indexes.data && SurfaceOk(tri) && remap.Length == |tri.verts| == |pc|
    requires 0 <= i < NumTris(tri) && i < casts.Length && !casts[i] && |frustum| == 6 && TriFits(pc, tri, frustum, i)
    modifies st, st.verts, st.verts.data, st.indexes, st.indexes.data, st.clipEdges, st.clipEdges.data, casts
    ensures st.Valid()
    ensures (PassOf(st, remap, casts), stop) == CapTri(old(PassOf(st, remap, casts)), tri, pc, frustum, i)
  {
    var i1, i2, i3 := tri.silIndexes[3 * i], tri.silIndexes[3 * i + 1], tri.silIndexes[3 * i + 2];
    if TriangleClipped(pc[i1], pc[i2], pc[i3]) {
      ClipCap(st, remap, casts, tri, pc, frustum, i);
      return false;
    }
    if st.indexes.count + 3 > MAX_SHADOW_INDEXES {
      st.overflowed := true;
      return true;
    }
    st.indexes.Push3(remap[i3], remap[i2], remap[i1]);
    casts[i] := true;
    stop := false;
  }

  /** A clipped triangle: ClipTriangleToLight, and the face casts when anything of it was kept. */
  method ClipCap(st: ShadowState, remap: array<int>, casts: array<bool>, tri: Surface, pc: seq<Code>,
                 frustum: seq<Plane>, i: int)
    requires st.Valid() && remap != st.indexes.data && SurfaceOk(tri) && remap.Length == |tri.verts| == |pc|
    requires 0 <= i < NumTris(tri) && i < casts.Length && !casts[i] && |frustum| == 6 && TriFits(pc, tri, frustum, i)
    requires TriClipped(pc, tri, i)
    modifies st, st.verts, st.verts.data, st.indexes, st.indexes.data, st.clipEdges, st.clipEdges.data, casts
    ensures st.Valid()
    ensures PassOf(st, remap, casts) == CapTri(old(PassOf(st, remap, casts)), tri, pc, frustum, i).0
  {
    ghost var c0 := casts[..];
    var i1, i2, i3 := tri.silIndexes[3 * i], tri.silIndexes[3 * i + 1], tri.silIndexes[3 * i + 2];
    var cullBits := ClipBits(pc[i1], pc[i2], pc[i3]);
    var kept := ClipTriangleToLight(st, tri.verts[i1], tri.verts[i2], tri.verts[i3], cullBits, frustum);
    if kept {
      casts[i] := true;
    }
    assert casts[..] == c0[i := kept];
  }

  /** One turn of the triangle loop of CreateShadowVolumeInFrustum. */
  method TriangleStep(st: ShadowState, remap: array<int>, casts: array<bool>, tri: Surface, pc: seq<Code>,
                      facing: seq<bool>, frustum: seq<Plane>, i: int) returns (stop: bool)
    requires st.Valid() && remap != st.indexes.data && SurfaceOk(tri) && remap.Length == |tri.verts| == |pc|
    requires 0 <= i < NumTris(tri) && i < casts.Length && i < |facing| && |frustum| == 6 && TriFits(pc, tri, frustum, i)
    modifies st, st.verts, st.verts.data, st.indexes, st.indexes.data, st.clipEdges, st.clipEdges.data, remap, casts
    ensures st.Valid()
    ensures (PassOf(st, remap, casts), stop) == TriStep(old(PassOf(st, remap, casts)), tri, pc, facing, frustum, i)
  {
    casts[i] := false;
    if facing[i] {
      return false;
    }
    var i1, i2, i3 := tri.silIndexes[3 * i], tri.silIndexes[3 * i + 1], tri.silIndexes[3 * i + 2];
    if TriangleCulled(pc[i1], pc[i2], pc[i3]) != 0 {
      return false;
    }
    if st.verts.count + 6 > MAX_SHADOW_VERTS {
      st.overflowed := true;
      return true;
    }
    AdoptVertex(st, remap, casts, tri.verts, pc, i1);
    AdoptVertex(st, remap, casts, tri.verts, pc, i2);
    AdoptVertex(st, remap, casts, tri.verts, pc, i3);
    stop := CapTriangle(st, remap, casts, tri, pc, frustum, i);
  }

  /** The triangle loop; true when it stopped on an overflow. */
  method CapTriangles(st: ShadowState, remap: array<int>, casts: array<bool>, tri: Surface, pc: seq<Code>,
                      facing: seq<bool>, frustum: seq<Plane>) returns (stop: bool)
    requires st.Valid() && remap != st.indexes.data && SurfaceOk(tri) && remap.Length == |tri.verts| == |pc|
    requires casts.Length > NumTris(tri) && |facing| > NumTris(tri) && |frustum| == 6 && PassFits(pc, tri, frustum)
    modifies st, st.verts, st.verts.data, st.indexes, st.indexes.data, st.clipEdges, st.clipEdges.data, remap, casts
    ensures st.Valid()
    ensures (PassOf(st, remap, casts), stop) == TrisFrom(old(PassOf(st, remap, casts)), tri, pc, facing, frustum, 0)
  {
    ghost var f0 := PassOf(st, remap, casts);
    var numTris := |tri.silIndexes| / 3;
    var i := 0;
    while i < numTris
      invariant 0 <= i <= numTris && st.Valid()
      invariant TrisFrom(PassOf(st, remap, casts), tri, pc, facing, frustum, i) == TrisFrom(f0, tri, pc, facing, frustum, 0)
    {
      assert TriFits(pc, tri, frustum, i);
      stop := TriangleStep(st, remap, casts, tri, pc, facing, frustum, i);
      if stop {
        return;
      }
      i := i + 1;
    }
    stop := false;
  }

  /** The rear cap of triangle t is that triangle reversed, each index moved to its far twin. */
  lemma RearCapsAt(xs: seq<int>, t: nat)
    requires |xs| % 3 == 0 && 3 * t + 3 <= |xs|
    ensures RearCaps(xs)[3 * t] == xs[3 * t + 2] + 1 && RearCaps(xs)[3 * t + 1] == xs[3 * t + 1] + 1
    ensures RearCaps(xs)[3 * t + 2] == xs[3 * t] + 1
  {
    assert (3 * t) % 3 == 0 && (3 * t + 1) % 3 == 1 && (3 * t + 2) % 3 == 2;
  }

  /** The rear caps: each front cap (a, b, c) from index first on is copied as (c+1, b+1, a+1) after the caps. */
  method EmitRearCaps(ib: IndexBuffer, first: int)
    requires ib.Valid() && 0 <= first <= ib.count && (ib.count - first) % 3 == 0
    requires ib.count + (ib.count - first) <= MAX_SHADOW_INDEXES
    modifies ib, ib.data
    ensures ib.Valid() && ib.Contents() == old(ib.Contents()) + RearCaps(old(ib.Contents())[first..])
  {
    var n := ib.count;
    WriteRearCaps(ib.data, first, n);
    ib.count := n + (n - first);
    assert ib.Contents() == ib.data[..n] + ib.data[n..n + (n - first)];
  }

  method WriteRearCaps(data: array<int>, first: int, n: int)
    requires 0 <= first <= n && (n - first) % 3 == 0 && n + (n - first) <= data.Length
    modifies data
    ensures data[..n] == old(data[..n]) && data[n..n + (n - first)] == RearCaps(old(data[first..n]))
  {
    ghost var front := data[first..n];
    var numCap := n - first;
    var i := 0;
    ghost var t: nat := 0;
    while i < numCap
      invariant 0 <= i <= numCap && i == 3 * t
      invariant forall k :: 0 <= k < n ==> data[k] == old(data[k])
      invariant forall k :: 0 <= k < i ==> data[n + k] == RearCaps(front)[k]
    {
      RearCapsAt(front, t);
      WriteRearCap(data, first + i, n + i);
      i, t := i + 3, t + 1;
    }
  }

  /** One rear cap: the triangle at src reversed, each index moved to its far twin, written at dst. */
  method WriteRearCap(data: array<int>, src: int, dst: int)
    requires 0 <= src && src + 3 <= dst && dst + 3 <= data.Length
    modifies data
    ensures data[dst] == old(data[src + 2]) + 1 && data[dst + 1] == old(data[src + 1]) + 1
    ensures data[dst + 2] == old(data[src]) + 1
    ensures forall k :: 0 <= k < data.Length && (k < dst || dst + 3 <= k) ==> data[k] == old(data[k])
  {
    data[dst] := data[src + 2] + 1;
    data[dst + 1] := data[src + 1] + 1;
    data[dst + 2] := data[src] + 1;
  }

  /**
   * The real-time tail of CreateShadowVolumeInFrustum once the pass has
   * caps: the dangling-edge face never casts, the rear caps, the clip sil
   * quads when asked for, the sil quads, and the ranges to note.
   */
  method FinishFrustum(st: ShadowState, remap: array<int>, casts: array<bool>, tri: Surface, pc: seq<Code>,
                       frustum: seq<Plane>, makeClippedPlanes: bool, first: int) returns (ref: Option<IndexRef>)
    requires st.Valid() && remap != st.indexes.data && SurfaceOk(tri) && |pc| == |tri.verts| && |frustum| == 6
    requires PassOk(PassOf(st, remap, casts), tri, first) && Covered(PassOf(st, remap, casts), tri, pc, NumTris(tri))
    modifies st, st.verts, st.verts.data, st.indexes, st.indexes.data, casts
    ensures st.Valid()
    ensures (PassOf(st, remap, casts), ref)
         == FinishPass(old(PassOf(st, remap, casts)), tri, pc, frustum, makeClippedPlanes, first)
  {
    ghost var g := PassOf(st, remap, casts);
    CapsDoneOk(g, tri, pc, first);
    casts[|tri.silIndexes| / 3] := false;
    var numCap := st.indexes.count - first;
    if st.indexes.count + numCap > MAX_SHADOW_INDEXES {
      st.overflowed := true;
      return None;
    }
    EmitRearCaps(st.indexes, first);
    assert PassOf(st, remap, casts) == CapsDone(g, tri, first);
    var preSil := st.indexes.count;
    if makeClippedPlanes {
      AddClipSilEdges(st);
    }
    AddSilEdges(st, tri.silEdges, tri.verts, pc, casts[..], remap[..], frustum);
    ref := Some(IndexRef(first, first + numCap, preSil, st.indexes.count));
  }

  /**
   * CreateShadowVolumeInFrustum on the real-time path: the cull codes of
   * the frustum, a fresh remap[] and clip-edge list, the triangle loop, and
   * the tail when the pass made caps. None when nothing is to be noted.
   */
  method CreateShadowVolumeInFrustum(st: ShadowState, remap: array<int>, casts: array<bool>, tri: Surface,
                                     facing: seq<bool>, fr: ShadowFrustum) returns (ref: Option<IndexRef>)
    requires st.Valid() && Wellformed(st.Abs()) && remap != st.indexes.data && SurfaceOk(tri) && FrustumFits(tri, fr)
    requires remap.Length == |tri.verts| && casts.Length == NumTris(tri) + 1 && |facing| > NumTris(tri)
    modifies st, st.verts, st.verts.data, st.indexes, st.indexes.data, st.clipEdges, st.clipEdges.data, remap, casts
    ensures st.Valid()
    ensures (Pass(st.Abs(), remap[..], casts[..]), ref)
         == InFrustum(old(st.Abs()), old(casts[..]), tri, PointCodes(fr, tri.verts), facing, fr.planes, fr.makeClippedPlanes)
  {
    var pc := CalcPointCull(fr.boundsDist, fr.planes, tri.verts);
    assert pc == PointCodes(fr, tri.verts);
    InitRemap(remap);
    var first := st.indexes.count;
    st.clipEdges.count := 0;
    ghost var f0 := PassStart(old(st.Abs()), old(casts[..]), tri);
    assert PassOf(st, remap, casts) == f0;
    PassStartOk(old(st.Abs()), old(casts[..]), tri);
    TrisFromOk(f0, tri, pc, facing, fr.planes, 0, first);
    var stop := CapTriangles(st, remap, casts, tri, pc, facing, fr.planes);
    if stop || st.indexes.count == first {
      return None;
    }
    ref := FinishFrustum(st, remap, casts, tri, pc, fr.planes, fr.makeClippedPlanes, first);
  }

  // ---------------------------------------------------------------------
  // The frustum loop of CreateShadowVolume

  /** The plane loop that tries to cull the whole surface against the frustum. */
  method CullSurface(fr: ShadowFrustum) returns (culled: bool)
    requires FrustumOk(fr)
    ensures culled == BoundsCulled(fr)
  {
    var j := 0;
    while j < fr.numPlanes
      invariant 0 <= j <= fr.numPlanes
      invariant forall m :: 0 <= m < j ==> fr.boundsDist[m] >= -LIGHT_CLIP_EPSILON
    {
      if fr.boundsDist[j] < -LIGHT_CLIP_EPSILON {
        break;
      }
      j := j + 1;
    }
    culled := j != fr.numPlanes;
  }

  /**
   * One turn of the frustum loop: skip a culled frustum, run the pass,
   * give up on an overflow, and note the ranges and the cap-plane bit when
   * the pass noted any.
   */
  method RunFrustum(st: ShadowState, remap: array<int>, casts: array<bool>, tri: Surface, facing: seq<bool>,
                    fr: ShadowFrustum, k: nat, refs: seq<IndexRef>, bits: bv8)
    returns (ok: bool, refs': seq<IndexRef>, bits': bv8)
    requires st.Valid() && Wellformed(st.Abs()) && remap != st.indexes.data && SurfaceOk(tri) && FrustumFits(tri, fr)
    requires remap.Length == |tri.verts| && casts.Length == NumTris(tri) + 1 && |facing| > NumTris(tri) && k < 6
    modifies st, st.verts, st.verts.data, st.indexes, st.indexes.data, st.clipEdges, st.clipEdges.data, remap, casts
    ensures st.Valid()
    ensures FrustumStep(Volume(old(st.Abs()), old(casts[..]), refs, bits), tri, facing, fr, k)
         == if ok then Some(Volume(st.Abs(), casts[..], refs', bits')) else None
  {
    var culled := CullSurface(fr);
    if culled {
      return true, refs, bits;
    }
    var ref := CreateShadowVolumeInFrustum(st, remap, casts, tri, facing, fr);
    if st.overflowed {
      return false, refs, bits;
    }
    ok := true;
    if ref.Some? {
      refs', bits' := refs + [ref.value], bits | FrustumBit(k);
    } else {
      refs', bits' := refs, bits;
    }
  }

  /** The allFront loop: true when every one of the first n faces faces the light. */
  method AllFacing(facing: seq<bool>, n: int) returns (allFront: bool)
    requires 0 <= n <= |facing|
    ensures allFront <==> forall i :: 0 <= i < n ==> facing[i]
  {
    allFront := true;
    var i := 0;
    while i < n && allFront
      invariant 0 <= i <= n
      invariant allFront <==> forall m :: 0 <= m < i ==> facing[m]
    {
      allFront := allFront && facing[i];
      i := i + 1;
    }
  }

  // ---------------------------------------------------------------------
  // Reordering the ranges

  /**
   * One of the three copy loops of CreateShadowVolume: range w of every
   * noted pass, in pass order, as the memcpy calls lay it out.
   */
  method CopyRanges(src: array<int>, n: int, refs: seq<IndexRef>, w: int) returns (out: seq<int>)
    requires 0 <= n <= src.Length
    requires forall j :: 0 <= j < |refs| ==> RefOk(refs[j], n)
    ensures out == Part(src[..n], refs, 0, w)
  {
    ghost var ix := src[..n];
    out := [];
    var i := 0;
    while i < |refs|
      invariant 0 <= i <= |refs|
      invariant out + Part(ix, refs, i, w) == Part(ix, refs, 0, w)
    {
      var x := refs[i];
      assert RefOk(x, n);
      var a, b := RangeStart(x, w), RangeEnd(x, w);
      assert ix[a..b] == src[a..b];
      assert Part(ix, refs, i, w) == RangeOf(ix, x, w) + Part(ix, refs, i + 1, w);
      out := out + src[a..b];
      i := i + 1;
    }
  }

  // ---------------------------------------------------------------------
  // CreateShadowVolume

  /**
   * The loop over the light's frustums, from an empty list of noted passes
   * and no cap-plane bits; false where the source gives up on an overflow.
   */
  method RunFrusta(st: ShadowState, remap: array<int>, casts: array<bool>, tri: Surface, facing: seq<bool>,
                   frusta: seq<ShadowFrustum>)
    returns (ok: bool, refs: seq<IndexRef>, bits: bv8)
    requires st.Valid() && Wellformed(st.Abs()) && remap != st.indexes.data && SurfaceOk(tri) && LightFits(tri, frusta)
    requires remap.Length == |tri.verts| && casts.Length == NumTris(tri) + 1 && |facing| > NumTris(tri)
    modifies st, st.verts, st.verts.data, st.indexes, st.indexes.data, st.clipEdges, st.clipEdges.data, remap, casts
    ensures st.Valid()
    ensures FrustaFrom(Volume(old(st.Abs()), old(casts[..]), [], 0), tri, facing, frusta, 0)
         == if ok then Some(Volume(st.Abs(), casts[..], refs, bits)) else None
  {
    ghost var v0 := Volume(st.Abs(), casts[..], [], 0);
    refs, bits := [], 0;
    var k := 0;
    while k < |frusta|
      invariant 0 <= k <= |frusta| && st.Valid() && Wellformed(st.Abs()) && remap != st.indexes.data
      invariant FrustaFrom(Volume(st.Abs(), casts[..], refs, bits), tri, facing, frusta, k)
             == FrustaFrom(v0, tri, facing, frusta, 0)
    {
      assert FrustumFits(tri, frusta[k]);
      ok, refs, bits := RunFrustum(st, remap, casts, tri, facing, frusta[k], k, refs, bits);
      if !ok {
        return;
      }
      k := k + 1;
    }
    ok := true;
  }

  /**
   * The three copy loops: every pass's silhouette range, then every rear
   * cap range, then every front cap range, with the counts that split them.
   */
  method AssembleSurface(st: ShadowState, refs: seq<IndexRef>, bits: bv8, ghost casts: seq<bool>)
    returns (s: ShadowSurface)
    requires st.Valid() && Tiles(refs, st.indexes.count)
    ensures s == Assemble(Volume(st.Abs(), casts, refs, bits))
  {
    ChainRefs(refs, 0, 0, st.indexes.count);
    var sil := CopyRanges(st.indexes.data, st.indexes.count, refs, 2);
    var rear := CopyRanges(st.indexes.data, st.indexes.count, refs, 1);
    var front := CopyRanges(st.indexes.data, st.indexes.count, refs, 0);
    s := ShadowSurface(st.verts.count, sil + rear + front, |sil|, |sil| + |rear|, bits);
  }

  /** CreateVolume once the early-out checks have passed, from the given starting state. */
  lemma CreateVolumeFrom(tri: Surface, facing: seq<bool>, frusta: seq<ShadowFrustum>, vs: seq<Vec3>, v0: Volume)
    requires SurfaceOk(tri) && |facing| == NumTris(tri) + 1 && LightFits(tri, frusta) && |vs| == MAX_SHADOW_VERTS
    requires CastsAtAll(tri, facing)
    requires v0 == StartVolume(tri, vs)
    ensures Wellformed(v0.buf) && Tiles(v0.refs, 0)
    ensures var r := FrustaFrom(v0, tri, facing, frusta, 0);
      r.Some? ==> Wellformed(r.value.buf) && Tiles(r.value.refs, |r.value.buf.indexes|)
    ensures var r := FrustaFrom(v0, tri, facing, frusta, 0);
      CreateVolume(tri, facing, frusta, vs)
      == if r.None? || |r.value.buf.indexes| == 0 then None else Some(Assemble(r.value))
  {
    FrustaTile(v0, tri, facing, frusta, 0);
  }

  /**
   * CreateShadowVolume on the real-time path. The light's frustums come
   * with their planes already in the surface's space and the distances of
   * the surface bounds to them; facing is the result of
   * CalcInteractionFacing. None where the source returns nullptr.
   */
  method CreateShadowVolume(st: ShadowState, tri: Surface, facing: seq<bool>, frusta: seq<ShadowFrustum>)
    returns (r: Option<ShadowSurface>)
    requires st.Valid() && SurfaceOk(tri) && |facing| == NumTris(tri) + 1 && LightFits(tri, frusta)
    modifies st, st.verts, st.verts.data, st.indexes, st.indexes.data, st.clipEdges, st.clipEdges.data
    ensures r == CreateVolume(tri, facing, frusta, old(st.verts.data[..]))
  {
    if |tri.silEdges| == 0 || |tri.silIndexes| == 0 || |tri.verts| == 0 {
      return None;
    }
    var numFaces := |tri.silIndexes| / 3;
    var allFront := AllFacing(facing, numFaces);
    if allFront {
      return None;
    }
    st.indexes.count := 0;
    st.verts.count := 0;
    st.clipEdges.count := 0;
    st.overflowed := false;
    var casts := new bool[numFaces + 1](_ => false);
    var remap := new int[|tri.verts|](_ => -1);
    ghost var v0 := Volume(st.Abs(), casts[..], [], 0);
    assert v0 == StartVolume(tri, old(st.verts.data[..]));
    FrustaTile(v0, tri, facing, frusta, 0);
    ghost var vs := old(st.verts.data[..]);
    assert CastsAtAll(tri, facing);
    CreateVolumeFrom(tri, facing, frusta, vs, v0);
    var ok, refs, bits := RunFrusta(st, remap, casts, tri, facing, frusta);
    if !ok || st.indexes.count == 0 {
      return None;
    }
    var s := AssembleSurface(st, refs, bits, casts[..]);
    r := Some(s);
  }
}
