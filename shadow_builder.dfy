// The shadow-volume buffers of the builder and what the per-triangle and
// per-edge steps append to them (neo/tools/compilers/dmap/shadowopt3.cpp:
// 39-42, 67-84, 1486-1824).
//
// The file statics shadowVerts / numShadowVerts, shadowIndexes /
// numShadowIndexes and clipSilEdges / numClipSilEdges become three buffer
// objects, each a fixed array with its count; the overflowed flag lives in
// ShadowState next to them. Every step is specified by a function on Buf, a
// value snapshot of the whole state, and its method is proved to leave
// exactly that snapshot behind.
module ShadowBuilder {
  import opened ShadowGeometry
  import opened CullBits
  import opened ShadowClip

  const MAX_CLIP_SIL_EDGES: int := 2048
  const MAX_SHADOW_INDEXES: int := 0x18000
  const MAX_SHADOW_VERTS: int := 0x18000

  datatype Option<T> = None | Some(value: T)

  /** One entry of clipSilEdges: the slots of the two ends of an edge made by clipping. */
  datatype ClipEdge = ClipEdge(v1: int, v2: int)

  // ---------------------------------------------------------------------
  // The state as a value

  /**
   * Everything the builder steps change: the shadow vertex slots (front
   * points in even slots, their far-plane copies in the odd slot after),
   * how many slots are in use, the index list, the clip-made edges and the
   * overflow flag.
   */
  datatype Buf = Buf(verts: seq<Vec3>, vcount: int, indexes: seq<int>, edges: seq<ClipEdge>, overflowed: bool)

  predicate BufOk(s: Buf) {
    |s.verts| == MAX_SHADOW_VERTS && 0 <= s.vcount <= MAX_SHADOW_VERTS
    && |s.indexes| <= MAX_SHADOW_INDEXES && |s.edges| <= MAX_CLIP_SIL_EDGES
  }

  /** Slot x holds a front point whose far-plane twin x + 1 is also in use. */
  predicate Twinned(x: int, vcount: int) {
    0 <= x && x + 1 < vcount
  }

  predicate AllBelow(xs: seq<int>, vcount: int) {
    forall k :: 0 <= k < |xs| ==> 0 <= xs[k] < vcount
  }

  predicate AllTwinned(xs: seq<int>, vcount: int) {
    forall k :: 0 <= k < |xs| ==> Twinned(xs[k], vcount)
  }

  predicate EdgesTwinned(es: seq<ClipEdge>, vcount: int) {
    forall k :: 0 <= k < |es| ==> Twinned(es[k].v1, vcount) && Twinned(es[k].v2, vcount)
  }

  /**
   * The builder's invariant: every index names a slot in use, and every clip
   * edge joins two front points whose twins are in use.
   */
  predicate Wellformed(s: Buf) {
    BufOk(s) && AllBelow(s.indexes, s.vcount) && EdgesTwinned(s.edges, s.vcount)
  }

  /** The first cap elements of s (all of s when it is shorter). */
  function Clamp<T>(s: seq<T>, cap: nat): (r: seq<T>)
    ensures |r| <= cap && |r| <= |s| && r == s[..|r|]
    ensures |s| <= cap ==> r == s
  {
    if |s| <= cap then s else s[..cap]
  }

  /** A vertex number as the uint16_t array shadowIndexes stores it: modulo 2^16. */
  function StoredAsUint16(x: int): (r: int)
    ensures 0 <= r < 0x10000 && (x - r) % 0x10000 == 0
  {
    x % 0x10000
  }

  /**
   * Vertex slots run up to MAX_SHADOW_VERTS - 1 = 0x17FFF, past what a
   * uint16_t holds: an index naming any slot from 0x10000 on is stored as
   * the number of a slot 0x10000 lower, a different vertex.
   */
  lemma StoredIndexWraps(x: int)
    requires 0x10000 <= x < MAX_SHADOW_VERTS
    ensures StoredAsUint16(x) == x - 0x10000 && StoredAsUint16(x) != x
  {
  }

  // ---------------------------------------------------------------------
  // The buffers

  /** shadowIndexes with numShadowIndexes: a fixed-capacity index list that grows at its end. */
  class IndexBuffer {
    var count: int
    const data: array<int>

    ghost predicate Valid()
      reads this
    {
      data.Length == MAX_SHADOW_INDEXES && 0 <= count <= MAX_SHADOW_INDEXES
    }

    ghost function Contents(): seq<int>
      reads this, data
      requires Valid()
    {
      data[..count]
    }

    constructor()
      ensures Valid() && Contents() == [] && fresh(data)
    {
      count := 0;
      data := new int[MAX_SHADOW_INDEXES](_ => 0);
    }

    /** shadowIndexes[numShadowIndexes++] = x, keeping x as it is. */
    method Push(x: int)
      requires Valid() && count < MAX_SHADOW_INDEXES
      modifies this, data
      ensures Valid() && Contents() == old(Contents()) + [x]
    {
      data[count] := x;
      count := count + 1;
    }

    /** Three pushes: one triangle. */
    method Push3(a: int, b: int, c: int)
      requires Valid() && count + 3 <= MAX_SHADOW_INDEXES
      modifies this, data
      ensures Valid() && Contents() == old(Contents()) + [a, b, c]
    {
      data[count] := a;
      data[count + 1] := b;
      data[count + 2] := c;
      count := count + 3;
    }
  }

  /** shadowVerts with numShadowVerts. Only the xyz part of each idVec4 is modelled. */
  class VertBuffer {
    var count: int
    const data: array<Vec3>

    ghost predicate Valid()
      reads this
    {
      data.Length == MAX_SHADOW_VERTS && 0 <= count <= MAX_SHADOW_VERTS
    }

    constructor()
      ensures Valid() && count == 0 && fresh(data)
    {
      count := 0;
      data := new Vec3[MAX_SHADOW_VERTS](_ => Vec3(0.0, 0.0, 0.0));
    }
  }

  /** clipSilEdges with numClipSilEdges. */
  class EdgeBuffer {
    var count: int
    const data: array<ClipEdge>

    ghost predicate Valid()
      reads this
    {
      data.Length == MAX_CLIP_SIL_EDGES && 0 <= count <= MAX_CLIP_SIL_EDGES
    }

    ghost function Contents(): seq<ClipEdge>
      reads this, data
      requires Valid()
    {
      data[..count]
    }

    constructor()
      ensures Valid() && Contents() == [] && fresh(data)
    {
      count := 0;
      data := new ClipEdge[MAX_CLIP_SIL_EDGES](_ => ClipEdge(0, 0));
    }

    method Push(e: ClipEdge)
      requires Valid() && count < MAX_CLIP_SIL_EDGES
      modifies this, data
      ensures Valid() && Contents() == old(Contents()) + [e]
    {
      data[count] := e;
      count := count + 1;
    }
  }

  /** The file statics of the builder that the steps below change. */
  class ShadowState {
    var overflowed: bool
    const verts: VertBuffer
    const indexes: IndexBuffer
    const clipEdges: EdgeBuffer

    ghost predicate Valid()
      reads this, verts, indexes, clipEdges
    {
      verts.Valid() && indexes.Valid() && clipEdges.Valid()
    }

    ghost function Abs(): (s: Buf)
      reads this, verts, verts.data, indexes, indexes.data, clipEdges, clipEdges.data
      requires Valid()
      ensures BufOk(s)
    {
      Buf(verts.data[..], verts.count, indexes.Contents(), clipEdges.Contents(), overflowed)
    }

    constructor()
      ensures Valid() && Abs().vcount == 0 && Abs().indexes == [] && Abs().edges == [] && !Abs().overflowed
      ensures fresh(verts) && fresh(verts.data) && fresh(indexes) && fresh(indexes.data)
      ensures fresh(clipEdges) && fresh(clipEdges.data)
    {
      overflowed := false;
      verts := new VertBuffer();
      indexes := new IndexBuffer();
      clipEdges := new EdgeBuffer();
    }
  }

  // ---------------------------------------------------------------------
  // Writing a clipped polygon out (the second half of ClipTriangleToLight)

  /** vs with corner i of p written to slot base + 2i. */
  function PlaceCorners(vs: seq<Vec3>, base: int, p: seq<ClipVert>): (r: seq<Vec3>)
    requires 0 <= base && base + 2 * |p| <= |vs|
    ensures |r| == |vs|
  {
    if p == [] then vs
    else PlaceCorners(vs, base, p[..|p| - 1])[base + 2 * (|p| - 1) := p[|p| - 1].v]
  }

  /** The corners land in the even slots from base on, and no other slot changes. */
  lemma {:induction false} PlaceCornersSlots(vs: seq<Vec3>, base: int, p: seq<ClipVert>)
    requires 0 <= base && base + 2 * |p| <= |vs|
    ensures forall i :: 0 <= i < |p| ==> PlaceCorners(vs, base, p)[base + 2 * i] == p[i].v
    ensures forall k :: 0 <= k < |vs| && (k < base || k >= base + 2 * |p| || (k - base) % 2 == 1) ==>
      PlaceCorners(vs, base, p)[k] == vs[k]
  {
    if p != [] {
      var q := p[..|p| - 1];
      PlaceCornersSlots(vs, base, q);
      forall i | 0 <= i < |q|
        ensures PlaceCorners(vs, base, p)[base + 2 * i] == p[i].v
      {
        assert q[i] == p[i];
      }
    }
  }

  /** The fan of triangles (corner i, corner i-1, corner 0) for i = 2 .. n-1, corner i in slot base + 2i. */
  function Fan(base: int, n: int): (r: seq<int>)
    ensures |r| == if n <= 2 then 0 else 3 * (n - 2)
  {
    if n <= 2 then [] else Fan(base, n - 1) + [base + 2 * (n - 1), base + 2 * (n - 2), base]
  }

  /** Triangle t of the fan is (corner t+2, corner t+1, corner 0). */
  lemma {:induction false} FanTriangles(base: int, n: int)
    ensures forall t :: 0 <= t && 3 * t + 2 < |Fan(base, n)| ==>
      Fan(base, n)[3 * t] == base + 2 * (t + 2) && Fan(base, n)[3 * t + 1] == base + 2 * (t + 1)
      && Fan(base, n)[3 * t + 2] == base
  {
    if n > 2 {
      FanTriangles(base, n - 1);
    }
  }

  /** Every fan index is the even slot of one of the n corners. */
  lemma {:induction false} FanSlots(base: int, n: int)
    requires 0 <= base
    ensures forall k :: 0 <= k < |Fan(base, n)| ==>
      base <= Fan(base, n)[k] < base + 2 * n && (Fan(base, n)[k] - base) % 2 == 0
  {
    if n > 2 {
      FanSlots(base, n - 1);
    }
  }

  /** The clip-made edge leaving corner i: from its slot to the next corner's slot, wrapping to base. */
  function EdgeAt(base: int, n: int, i: int): ClipEdge {
    ClipEdge(base + 2 * i, if i == n - 1 then base else base + 2 * (i + 1))
  }

  /** For each corner, its clip-made edge when its edge flag is set. */
  function EdgePieces(p: seq<ClipVert>, base: int): (es: seq<seq<ClipEdge>>)
    ensures |es| == |p|
  {
    seq(|p|, i requires 0 <= i < |p| => if p[i].flag != 0 then [EdgeAt(base, |p|, i)] else [])
  }

  /** One entry per corner whose edge flag is set, in corner order. */
  function FlaggedEdges(p: seq<ClipVert>, base: int): seq<ClipEdge> {
    Concat(EdgePieces(p, base)[..|p|])
  }

  /** What writing a polygon out leaves behind, and whether it fitted. */
  function EmitPolygon(s: Buf, p: seq<ClipVert>): (Buf, bool)
    requires BufOk(s)
  {
    var n := |p|;
    if s.vcount + n * 2 > MAX_SHADOW_VERTS then (s.(overflowed := true), false)
    else
      var base := s.vcount;
      var placed := s.(verts := PlaceCorners(s.verts, base, p), vcount := base + n * 2);
      if |s.indexes| + 3 * (n - 2) > MAX_SHADOW_INDEXES then (placed.(overflowed := true), false)
      else (placed.(indexes := s.indexes + Fan(base, n),
                    edges := Clamp(s.edges + FlaggedEdges(p, base), MAX_CLIP_SIL_EDGES)), true)
  }

  /** Writes the corners of ct to the even slots from base on. */
  method CopyCorners(vb: VertBuffer, ct: ClipTri, base: int)
    requires vb.Valid() && ct.Valid() && 0 <= base && base + 2 * ct.numVerts <= MAX_SHADOW_VERTS
    modifies vb.data
    ensures vb.data[..] == PlaceCorners(old(vb.data[..]), base, ct.Poly())
  {
    ghost var p := ct.Poly();
    ghost var vs := vb.data[..];
    var i := 0;
    while i < ct.numVerts
      invariant 0 <= i <= ct.numVerts
      invariant vb.data[..] == PlaceCorners(vs, base, p[..i])
    {
      assert p[..i + 1][..i] == p[..i];
      vb.data[base + i * 2] := ct.verts[i];
      i := i + 1;
    }
    assert p[..ct.numVerts] == p;
  }

  /** The fan triangles of the polygon whose corners start at slot base. */
  method EmitFan(ib: IndexBuffer, base: int, n: int)
    requires ib.Valid() && ib.count + 3 * (n - 2) <= MAX_SHADOW_INDEXES
    modifies ib, ib.data
    ensures ib.Valid() && ib.Contents() == old(ib.Contents()) + Fan(base, n)
  {
    ghost var start := ib.Contents();
    var i := 2;
    while i < n
      invariant 2 <= i && (i <= n || i == 2)
      invariant ib.Valid() && ib.Contents() == start + Fan(base, i)
    {
      assert Fan(base, i + 1) == Fan(base, i) + [base + i * 2, base + (i - 1) * 2, base];
      ib.Push3(base + i * 2, base + (i - 1) * 2, base);
      i := i + 1;
    }
    assert Fan(base, i) == Fan(base, n);
  }

  /** The clip-made edges of the polygon, until the edge table is full. */
  method RecordClipEdges(eb: EdgeBuffer, ct: ClipTri, base: int, ghost es: seq<seq<ClipEdge>>)
    requires eb.Valid() && ct.Valid() && |es| == ct.numVerts
    requires forall k :: 0 <= k < ct.numVerts ==>
      es[k] == if ct.edgeFlags[k] != 0 then [EdgeAt(base, ct.numVerts, k)] else []
    modifies eb, eb.data
    ensures eb.Valid() && eb.Contents() == Clamp(old(eb.Contents()) + Concat(es[..ct.numVerts]), MAX_CLIP_SIL_EDGES)
  {
    ghost var start := eb.Contents();
    ghost var acc: seq<ClipEdge> := [];
    var n := ct.numVerts;
    var i := 0;
    while i < n
      invariant 0 <= i <= n && eb.Valid()
      invariant acc == Concat(es[..i])
      invariant eb.Contents() == start + acc
    {
      if ct.edgeFlags[i] != 0 {
        if eb.count == MAX_CLIP_SIL_EDGES {
          ConcatPrefix(es, i, n);
          ClampFull(start, acc, Concat(es[..n]), MAX_CLIP_SIL_EDGES);
          return;
        }
        var e := ClipEdge(base + 2 * i, if i == n - 1 then base else base + 2 * (i + 1));
        assert Concat(es[..i + 1]) == acc + [e] by {
          ConcatStep(es, i);
          assert es[i] == [e];
        }
        eb.Push(e);
        acc := acc + [e];
      } else {
        assert Concat(es[..i + 1]) == acc by {
          ConcatStep(es, i);
          assert es[i] == [];
          assert acc + es[i] == acc;
        }
      }
      i := i + 1;
    }
    assert es[..n] == es[..i];
  }

  /** A buffer filled to the cap by a prefix keeps exactly that prefix. */
  lemma ClampFull<T>(start: seq<T>, pre: seq<T>, all: seq<T>, cap: nat)
    requires |start + pre| == cap && |pre| <= |all| && pre == all[..|pre|]
    ensures Clamp(start + all, cap) == start + pre
  {
    assert (start + all)[..cap] == start + pre;
  }

  /** The second half of ClipTriangleToLight: the clipped polygon ct goes to the buffers. */
  method EmitClipped(st: ShadowState, ct: ClipTri) returns (kept: bool)
    requires st.Valid() && ct.Valid()
    modifies st, st.verts, st.verts.data, st.indexes, st.indexes.data, st.clipEdges, st.clipEdges.data
    ensures st.Valid() && st.Abs() == EmitPolygon(old(st.Abs()), ct.Poly()).0
    ensures kept == EmitPolygon(old(st.Abs()), ct.Poly()).1
  {
    ghost var s0 := st.Abs();
    ghost var p := ct.Poly();
    var n := ct.numVerts;
    if st.verts.count + n * 2 > MAX_SHADOW_VERTS {
      st.overflowed := true;
      return false;
    }
    var base := st.verts.count;
    PlaceClipped(st, ct, base);
    ghost var placed := st.Abs();
    if st.indexes.count + 3 * (n - 2) > MAX_SHADOW_INDEXES {
      st.overflowed := true;
      assert st.Abs() == placed.(overflowed := true);
      return false;
    }
    AppendClipped(st, ct, base);
    kept := true;
  }

  /** Copies the corners of ct into fresh slots from base on. */
  method PlaceClipped(st: ShadowState, ct: ClipTri, base: int)
    requires st.Valid() && ct.Valid() && base == st.verts.count
    requires st.verts.count + ct.numVerts * 2 <= MAX_SHADOW_VERTS
    modifies st.verts, st.verts.data
    ensures st.Valid()
    ensures st.Abs() == old(st.Abs()).(verts := PlaceCorners(old(st.Abs()).verts, base, ct.Poly()),
                                       vcount := base + ct.numVerts * 2)
  {
    CopyCorners(st.verts, ct, base);
    st.verts.count := base + ct.numVerts * 2;
  }

  /** Adds the fan of triangles and the clip-made edges of ct, placed at base. */
  method AppendClipped(st: ShadowState, ct: ClipTri, base: int)
    requires st.Valid() && ct.Valid()
    requires st.indexes.count + 3 * (ct.numVerts - 2) <= MAX_SHADOW_INDEXES
    modifies st.indexes, st.indexes.data, st.clipEdges, st.clipEdges.data
    ensures st.Valid()
    ensures st.Abs() == old(st.Abs()).(indexes := old(st.Abs()).indexes + Fan(base, ct.numVerts),
                                       edges := Clamp(old(st.Abs()).edges + FlaggedEdges(ct.Poly(), base),
                                                      MAX_CLIP_SIL_EDGES))
  {
    var n := ct.numVerts;
    EmitFan(st.indexes, base, n);
    ghost var p := ct.Poly();
    ghost var es := EdgePieces(p, base);
    forall k | 0 <= k < n
      ensures es[k] == if ct.edgeFlags[k] != 0 then [EdgeAt(base, n, k)] else []
    {
      assert p[k].flag == ct.edgeFlags[k];
    }
    RecordClipEdges(st.clipEdges, ct, base, es);
  }

  // ---------------------------------------------------------------------
  // What writing a polygon out promises

  /** Writing a polygon out keeps every index on a slot in use and every clip edge twinned. */
  lemma EmitPolygonWellformed(s: Buf, p: seq<ClipVert>)
    requires Wellformed(s)
    ensures Wellformed(EmitPolygon(s, p).0)
  {
    var n := |p|;
    if s.vcount + n * 2 <= MAX_SHADOW_VERTS && |s.indexes| + 3 * (n - 2) <= MAX_SHADOW_INDEXES {
      var base := s.vcount;
      var r := EmitPolygon(s, p).0;
      FanSlots(base, n);
      assert AllBelow(r.indexes, r.vcount) by {
        forall k | 0 <= k < |r.indexes|
          ensures 0 <= r.indexes[k] < r.vcount
        {
          if k >= |s.indexes| {
            assert r.indexes[k] == Fan(base, n)[k - |s.indexes|];
          }
        }
      }
      var es := EdgePieces(p, base);
      var twinned := (e: ClipEdge) => Twinned(e.v1, r.vcount) && Twinned(e.v2, r.vcount);
      ConcatAll(es, twinned, |p|);
      var all := s.edges + FlaggedEdges(p, base);
      assert forall k :: 0 <= k < |all| ==> twinned(all[k]) by {
        forall k | 0 <= k < |all|
          ensures twinned(all[k])
        {
          if k >= |s.edges| {
            assert all[k] == FlaggedEdges(p, base)[k - |s.edges|];
          }
        }
      }
      assert r.edges == all[..|r.edges|];
    }
  }

  /** Writing a polygon out fails only by overflow, and only a failure sets the flag. */
  lemma EmitPolygonOverflow(s: Buf, p: seq<ClipVert>)
    requires BufOk(s)
    ensures EmitPolygon(s, p).0.overflowed == (s.overflowed || !EmitPolygon(s, p).1)
    ensures !EmitPolygon(s, p).1 <==>
      s.vcount + 2 * |p| > MAX_SHADOW_VERTS || |s.indexes| + 3 * (|p| - 2) > MAX_SHADOW_INDEXES
  {
  }

  /**
   * A written polygon's fan draws triangle t over the slots that now hold
   * corners t+2, t+1 and 0 of the polygon.
   */
  lemma EmitPolygonFan(s: Buf, p: seq<ClipVert>, t: int)
    requires BufOk(s) && EmitPolygon(s, p).1 && 0 <= t < |p| - 2
    ensures var r := EmitPolygon(s, p).0;
      var j := |s.indexes| + 3 * t;
      j + 2 < |r.indexes| && s.vcount + 2 * |p| <= |r.verts|
      && r.indexes[j] == s.vcount + 2 * (t + 2) && r.verts[r.indexes[j]] == p[t + 2].v
      && r.indexes[j + 1] == s.vcount + 2 * (t + 1) && r.verts[r.indexes[j + 1]] == p[t + 1].v
      && r.indexes[j + 2] == s.vcount && r.verts[r.indexes[j + 2]] == p[0].v
  {
    var n := |p|;
    var base := s.vcount;
    var r := EmitPolygon(s, p).0;
    FanTriangles(base, n);
    PlaceCornersSlots(s.verts, base, p);
    var j := |s.indexes| + 3 * t;
    assert r.indexes[j] == Fan(base, n)[3 * t];
    assert r.indexes[j + 1] == Fan(base, n)[3 * t + 1];
    assert r.indexes[j + 2] == Fan(base, n)[3 * t + 2];
  }

  // ---------------------------------------------------------------------
  // ClipTriangleToLight (neo/tools/compilers/dmap/shadowopt3.cpp:1486-1556)

  /** Bit i of planeBits selects frustum plane i for clipping. */
  predicate PlaneSelected(planeBits: Code, i: nat)
    requires i < 6
  {
    planeBits & ((1 as Code) << (i as BitIndex)) != 0
  }

  /** The unclipped triangle: three corners, no edge made by clipping. */
  function Triangle(a: Vec3, b: Vec3, c: Vec3): seq<ClipVert> {
    [ClipVert(a, 0), ClipVert(b, 0), ClipVert(c, 0)]
  }

  /**
   * The polygon after the clipper has run over the selected planes among
   * the first k; None once a clip has left no corner.
   */
  function ClipChain(p: seq<ClipVert>, planeBits: Code, frustum: seq<Plane>, k: nat): Option<seq<ClipVert>>
    requires |frustum| == 6 && k <= 6
  {
    if k == 0 then Some(p)
    else match ClipChain(p, planeBits, frustum, k - 1)
      case None => None
      case Some(q) =>
        if !PlaneSelected(planeBits, k - 1) then Some(q)
        else
          var c := ChopPoly(q, frustum[k - 1]);
          if |c| < 1 then None else Some(c)
  }

  /** Every clip of the chain fits the fixed clipTri_t buffers. */
  predicate ChainFits(p: seq<ClipVert>, planeBits: Code, frustum: seq<Plane>)
    requires |frustum| == 6
  {
    forall j :: 0 <= j < 6 && PlaneSelected(planeBits, j) && ClipChain(p, planeBits, frustum, j).Some? ==>
      ChopFits(ClipChain(p, planeBits, frustum, j).value, frustum[j])
  }

  /** What ClipTriangleToLight leaves behind, and whether the triangle casts a shadow. */
  function ClipToLight(s: Buf, a: Vec3, b: Vec3, c: Vec3, planeBits: Code, frustum: seq<Plane>): (Buf, bool)
    requires BufOk(s) && |frustum| == 6
  {
    match ClipChain(Triangle(a, b, c), planeBits, frustum, |frustum|)
    case None => (s, false)
    case Some(p) => EmitPolygon(s, p)
  }

  /** A polygon that survives the chain lies on or in front of every selected plane. */
  lemma {:induction false} ClipChainInFrustum(p: seq<ClipVert>, planeBits: Code, frustum: seq<Plane>, k: nat)
    requires |frustum| == 6 && k <= 6 && ClipChain(p, planeBits, frustum, k).Some?
    ensures var q := ClipChain(p, planeBits, frustum, k).value;
      forall j, m :: 0 <= j < k && PlaneSelected(planeBits, j) && 0 <= m < |q| ==>
        Distance(frustum[j], q[m].v) >= -LIGHT_CLIP_EPSILON
  {
    if k > 0 {
      ClipChainInFrustum(p, planeBits, frustum, k - 1);
      var q0 := ClipChain(p, planeBits, frustum, k - 1).value;
      if PlaneSelected(planeBits, k - 1) {
        var q := ChopPoly(q0, frustum[k - 1]);
        assert ClipChain(p, planeBits, frustum, k).value == q;
        ChopPolyInFront(q0, frustum[k - 1]);
        forall j | 0 <= j < k - 1 && PlaneSelected(planeBits, j)
          ensures forall m :: 0 <= m < |q| ==> Distance(frustum[j], q[m].v) >= -LIGHT_CLIP_EPSILON
        {
          ChopPolyKeepsHalfspace(q0, frustum[k - 1], frustum[j], -LIGHT_CLIP_EPSILON);
        }
      }
    }
  }

  /** A polygon that survives a chain in which some plane was selected has a corner. */
  lemma {:induction false} ClipChainNonEmpty(p: seq<ClipVert>, planeBits: Code, frustum: seq<Plane>, k: nat, j: nat)
    requires |frustum| == 6 && j < k <= 6 && PlaneSelected(planeBits, j)
    requires ClipChain(p, planeBits, frustum, k).Some?
    ensures |ClipChain(p, planeBits, frustum, k).value| >= 1
  {
    if j < k - 1 {
      ClipChainNonEmpty(p, planeBits, frustum, k - 1, j);
    }
  }

  /**
   * The loop of ClipTriangleToLight over the six planes: the two ping-pong
   * buffers start with the triangle, and p names the one left holding the
   * chain's polygon (ok is false when a clip left nothing).
   */
  method ClipPolygon(tri0: ClipTri, tri1: ClipTri, planeBits: Code, frustum: seq<Plane>) returns (p: int, ok: bool)
    requires PingPong(tri0, tri1) && |frustum| == 6
    requires ChainFits(tri0.Poly(), planeBits, frustum)
    modifies tri0, tri0.verts, tri0.edgeFlags, tri1, tri1.verts, tri1.edgeFlags
    ensures PingPong(tri0, tri1) && (p == 0 || p == 1)
    ensures ok <==> ClipChain(old(tri0.Poly()), planeBits, frustum, |frustum|).Some?
    ensures ok ==> ClipChain(old(tri0.Poly()), planeBits, frustum, |frustum|).value == Buffer(tri0, tri1, p).Poly()
  {
    ghost var start := tri0.Poly();
    p := 0;
    var i := 0;
    while i < 6
      invariant 0 <= i <= 6 && PingPong(tri0, tri1) && (p == 0 || p == 1)
      invariant ClipChain(start, planeBits, frustum, i) == Some(Buffer(tri0, tri1, p).Poly())
    {
      ok, p := ClipStep(tri0, tri1, p, planeBits, frustum, i, start);
      if !ok {
        ClipChainStaysNone(start, planeBits, frustum, i + 1, |frustum|);
        return p, false;
      }
      i := i + 1;
    }
    ok := true;
  }

  /** One pass of the loop: plane i clips buffer p when planeBits selects it. */
  method ClipStep(tri0: ClipTri, tri1: ClipTri, p: int, planeBits: Code, frustum: seq<Plane>, i: nat,
                  ghost start: seq<ClipVert>)
    returns (ok: bool, r: int)
    requires PingPong(tri0, tri1) && (p == 0 || p == 1) && |frustum| == 6 && i < 6
    requires ChainFits(start, planeBits, frustum)
    requires ClipChain(start, planeBits, frustum, i) == Some(Buffer(tri0, tri1, p).Poly())
    modifies tri0, tri0.verts, tri0.edgeFlags, tri1, tri1.verts, tri1.edgeFlags
    ensures PingPong(tri0, tri1) && (r == 0 || r == 1)
    ensures ok ==> ClipChain(start, planeBits, frustum, i + 1) == Some(Buffer(tri0, tri1, r).Poly())
    ensures !ok ==> ClipChain(start, planeBits, frustum, i + 1).None?
  {
    r := p;
    ok := true;
    if planeBits & ((1 as Code) << (i as BitIndex)) != 0 {
      assert ChopFits(Buffer(tri0, tri1, p).Poly(), frustum[i]);
      r := ChopWinding(tri0, tri1, p, frustum[i]);
      var ct := if r == 0 then tri0 else tri1;
      ok := ct.numVerts >= 1;
    }
  }

  /** Once a clip has left nothing, the chain stays empty. */
  lemma {:induction false} ClipChainStaysNone(p: seq<ClipVert>, planeBits: Code, frustum: seq<Plane>, k: nat, m: nat)
    requires |frustum| == 6 && k <= m <= 6 && ClipChain(p, planeBits, frustum, k).None?
    ensures ClipChain(p, planeBits, frustum, m).None?
  {
    if k < m {
      ClipChainStaysNone(p, planeBits, frustum, k, m - 1);
    }
  }

  /** The clipping half of ClipTriangleToLight, on two fresh ping-pong buffers. */
  method ClipTriangle(a: Vec3, b: Vec3, c: Vec3, planeBits: Code, frustum: seq<Plane>) returns (ct: ClipTri, ok: bool)
    requires |frustum| == 6 && ChainFits(Triangle(a, b, c), planeBits, frustum)
    ensures fresh(ct) && fresh(ct.verts) && fresh(ct.edgeFlags) && ct.Valid()
    ensures ok <==> ClipChain(Triangle(a, b, c), planeBits, frustum, |frustum|).Some?
    ensures ok ==> ClipChain(Triangle(a, b, c), planeBits, frustum, |frustum|).value == ct.Poly()
  {
    var tri0 := new ClipTri();
    var tri1 := new ClipTri();
    tri0.Push(a, 0);
    tri0.Push(b, 0);
    tri0.Push(c, 0);
    assert tri0.Poly() == Triangle(a, b, c);
    var p;
    p, ok := ClipPolygon(tri0, tri1, planeBits, frustum);
    ct := if p == 0 then tri0 else tri1;
  }

  /** Clips the triangle a, b, c to the selected planes and writes what remains to the buffers. */
  method ClipTriangleToLight(st: ShadowState, a: Vec3, b: Vec3, c: Vec3, planeBits: Code, frustum: seq<Plane>)
    returns (kept: bool)
    requires st.Valid() && |frustum| == 6
    requires ChainFits(Triangle(a, b, c), planeBits, frustum)
    modifies st, st.verts, st.verts.data, st.indexes, st.indexes.data, st.clipEdges, st.clipEdges.data
    ensures st.Valid() && st.Abs() == ClipToLight(old(st.Abs()), a, b, c, planeBits, frustum).0
    ensures kept == ClipToLight(old(st.Abs()), a, b, c, planeBits, frustum).1
  {
    var ct, ok := ClipTriangle(a, b, c, planeBits, frustum);
    if !ok {
      return false;
    }
    kept := EmitClipped(st, ct);
  }
}
