// Index assembly of the offline shadow optimizer
// (neo/tools/compilers/dmap/shadowopt3.cpp:950-965, 1099-1179): front caps
// are the output triangles with their winding flipped, rear caps the same
// triangles on the projected copies of the vertices, then one quad of two
// triangles per silhouette edge. The vertices themselves (their projection
// onto the far plane and their translation back to global space) are not
// part of this model; n is numUniquedBeforeProjection, and vertex v + n is
// the projection of vertex v.
module ShadowOptimize {
  import opened ShadowEdges

  /** A front cap: the triangle with its winding flipped, so it faces out of the volume. */
  function FlipTri(t: Tri): seq<int> { [t.c, t.b, t.a] }

  /** A rear cap: the triangle in its own winding on the projected vertices. */
  function ShiftTri(t: Tri, n: int): seq<int> { [n + t.a, n + t.b, n + t.c] }

  function FrontCaps(tris: seq<Tri>): (r: seq<int>)
    ensures |r| == 3 * |tris|
    decreases |tris|
  {
    if |tris| == 0 then [] else FrontCaps(tris[..|tris| - 1]) + FlipTri(tris[|tris| - 1])
  }

  function RearCaps(tris: seq<Tri>, n: int): (r: seq<int>)
    ensures |r| == 3 * |tris|
    decreases |tris|
  {
    if |tris| == 0 then [] else RearCaps(tris[..|tris| - 1], n) + ShiftTri(tris[|tris| - 1], n)
  }

  /** The two triangles EmitUnoptimizedSilEdges writes for the edge v1 -> v2. */
  function SilQuad(e: OptEdge, n: int): seq<int> {
    [e.v1, e.v2, e.v2 + n, e.v1 + n, e.v1, e.v2 + n]
  }

  function SilQuads(es: seq<OptEdge>, n: int): (r: seq<int>)
    ensures |r| == 6 * |es|
    decreases |es|
  {
    if |es| == 0 then [] else SilQuads(es[..|es| - 1], n) + SilQuad(es[|es| - 1], n)
  }

  /** The index list SuperOptimizeOccluders returns when silhouette quads are not fragmented. */
  function OccluderIndexes(tris: seq<Tri>, es: seq<OptEdge>, n: int): seq<int> {
    FrontCaps(tris) + RearCaps(tris, n) + SilQuads(es, n)
  }

  // ---------------------------------------------------------------------
  // Properties

  /** Rear cap triangle i is front cap triangle i with its winding reversed, on the projected vertices. */
  lemma {:induction false} CapsMirror(tris: seq<Tri>, n: int, i: int, j: int)
    requires 0 <= i < |tris| && 0 <= j < 3
    ensures RearCaps(tris, n)[3 * i + j] == FrontCaps(tris)[3 * i + 2 - j] + n
    decreases |tris|
  {
    var m := |tris| - 1;
    if i < m {
      CapsMirror(tris[..m], n, i, j);
      assert RearCaps(tris, n)[3 * i + j] == RearCaps(tris[..m], n)[3 * i + j];
      assert FrontCaps(tris)[3 * i + 2 - j] == FrontCaps(tris[..m])[3 * i + 2 - j];
    } else {
      assert RearCaps(tris, n)[3 * i + j] == ShiftTri(tris[m], n)[j];
      assert FrontCaps(tris)[3 * i + 2 - j] == FlipTri(tris[m])[2 - j];
    }
  }

  predicate Below(s: seq<int>, bound: int) {
    forall k :: 0 <= k < |s| ==> 0 <= s[k] < bound
  }

  predicate TrisBelow(tris: seq<Tri>, n: int) {
    forall i :: 0 <= i < |tris| ==> 0 <= tris[i].a < n && 0 <= tris[i].b < n && 0 <= tris[i].c < n
  }

  predicate EdgesBelow(es: seq<OptEdge>, n: int) {
    forall i :: 0 <= i < |es| ==> 0 <= es[i].v1 < n && 0 <= es[i].v2 < n
  }

  lemma {:induction false} CapsBelow(tris: seq<Tri>, n: int)
    requires TrisBelow(tris, n)
    ensures Below(FrontCaps(tris), n) && Below(RearCaps(tris, n), 2 * n)
    decreases |tris|
  {
    if |tris| != 0 {
      var m := |tris| - 1;
      CapsBelow(tris[..m], n);
      assert forall k :: 0 <= k < 3 * m ==> FrontCaps(tris)[k] == FrontCaps(tris[..m])[k];
      assert forall k :: 0 <= k < 3 * m ==> RearCaps(tris, n)[k] == RearCaps(tris[..m], n)[k];
    }
  }

  lemma {:induction false} QuadsBelow(es: seq<OptEdge>, n: int)
    requires EdgesBelow(es, n)
    ensures Below(SilQuads(es, n), 2 * n)
    decreases |es|
  {
    if |es| != 0 {
      var m := |es| - 1;
      QuadsBelow(es[..m], n);
      assert forall k :: 0 <= k < 6 * m ==> SilQuads(es, n)[k] == SilQuads(es[..m], n)[k];
    }
  }

  /**
   * Every index names an original vertex or its projection, so with fewer
   * than 0x8000 uniqued vertices every index fits the uint16_t index list.
   */
  lemma OccluderIndexesBelow(tris: seq<Tri>, es: seq<OptEdge>, n: int)
    requires TrisBelow(tris, n) && EdgesBelow(es, n) && n <= 0x8000
    ensures Below(OccluderIndexes(tris, es, n), 2 * n)
    ensures Below(OccluderIndexes(tris, es, n), 0x10000)
  {
    CapsBelow(tris, n);
    QuadsBelow(es, n);
    var f, r, q := FrontCaps(tris), RearCaps(tris, n), SilQuads(es, n);
    var all := OccluderIndexes(tris, es, n);
    assert forall k :: 0 <= k < |f| ==> all[k] == f[k];
    assert forall k :: |f| <= k < |f| + |r| ==> all[k] == r[k - |f|];
    assert forall k :: |f| + |r| <= k < |all| ==> all[k] == q[k - |f| - |r|];
  }

  /**
   * The test CleanupOptimizedShadowTris uses to find quad j running the
   * other way along quad i's edge.
   */
  predicate QuadsMatch(q: seq<int>, r: seq<int>)
    requires |q| == 6 && |r| == 6
  {
    q[0] == r[1] && q[1] == r[0] && q[2] == r[3] && q[3] == r[5] && q[4] == r[1] && q[5] == r[3]
  }

  /**
   * The quads of an edge and of its reverse pass that test, and for
   * distinct endpoints nothing else built by SilQuad does.
   */
  lemma QuadsMatchReverse(e: OptEdge, f: OptEdge, n: int)
    requires n > 0 && 0 <= e.v1 < n && 0 <= e.v2 < n && 0 <= f.v1 < n && 0 <= f.v2 < n
    ensures QuadsMatch(SilQuad(e, n), SilQuad(f, n)) <==> f == OptEdge(e.v2, e.v1)
  {
  }

  // ---------------------------------------------------------------------
  // The returned optimizedShadow_t

  /** The optimizedShadow_t that SuperOptimizeOccluders fills and returns (vertices left out). */
  class OptimizedShadow {
    var indexes: array<int>
    var totalIndexes: int
    var numFrontCapIndexes: int
    var numRearCapIndexes: int
    var numSilPlaneIndexes: int
    var numVerts: int

    ghost predicate Valid()
      reads this
    {
      0 <= totalIndexes <= indexes.Length
    }

    ghost function Indexes(): seq<int>
      reads this, indexes
      requires Valid()
    {
      indexes[..totalIndexes]
    }

    /** memset(&ret, 0, sizeof(ret)) */
    constructor()
      ensures Valid() && totalIndexes == 0 && numFrontCapIndexes == 0 && numRearCapIndexes == 0
      ensures numSilPlaneIndexes == 0 && numVerts == 0 && fresh(indexes)
    {
      indexes := new int[0];
      totalIndexes := 0;
      numFrontCapIndexes := 0;
      numRearCapIndexes := 0;
      numSilPlaneIndexes := 0;
      numVerts := 0;
    }
  }

  /** Writes the six indexes of q at dst. */
  method WriteQuad(a: array<int>, dst: int, q: seq<int>)
    requires |q| == 6 && 0 <= dst && dst + 6 <= a.Length
    modifies a
    ensures a[..dst + 6] == old(a[..dst]) + q
  {
    a[dst] := q[0];
    a[dst + 1] := q[1];
    a[dst + 2] := q[2];
    a[dst + 3] := q[3];
    a[dst + 4] := q[4];
    a[dst + 5] := q[5];
  }

  /** EmitUnoptimizedSilEdges: one quad per silhouette edge, appended at totalIndexes. */
  method EmitUnoptimizedSilEdges(ret: OptimizedShadow, silEdges: seq<OptEdge>, n: int)
    requires ret.Valid() && ret.totalIndexes + 6 * |silEdges| <= ret.indexes.Length
    modifies ret, ret.indexes
    ensures ret.Valid() && ret.indexes == old(ret.indexes)
    ensures ret.Indexes() == old(ret.Indexes()) + SilQuads(silEdges, n)
    ensures ret.numFrontCapIndexes == old(ret.numFrontCapIndexes) && ret.numRearCapIndexes == old(ret.numRearCapIndexes)
    ensures ret.numSilPlaneIndexes == old(ret.numSilPlaneIndexes) && ret.numVerts == old(ret.numVerts)
  {
    var i := 0;
    while i < |silEdges|
      invariant 0 <= i <= |silEdges| && ret.Valid() && ret.indexes == old(ret.indexes)
      invariant ret.totalIndexes == old(ret.totalIndexes) + 6 * i
      invariant ret.Indexes() == old(ret.Indexes()) + SilQuads(silEdges[..i], n)
      invariant ret.numFrontCapIndexes == old(ret.numFrontCapIndexes) && ret.numRearCapIndexes == old(ret.numRearCapIndexes)
      invariant ret.numSilPlaneIndexes == old(ret.numSilPlaneIndexes) && ret.numVerts == old(ret.numVerts)
    {
      var e := silEdges[i];
      WriteQuad(ret.indexes, ret.totalIndexes, [e.v1, e.v2, e.v2 + n, e.v1 + n, e.v1, e.v2 + n]);
      ret.totalIndexes := ret.totalIndexes + 6;
      assert silEdges[..i + 1][..i] == silEdges[..i];
      i := i + 1;
    }
    assert silEdges[..i] == silEdges;
  }

  /** The six cap indexes of triangle i of the first loop of SuperOptimizeOccluders. */
  method WriteCaps(a: array<int>, numTris: int, i: int, t: Tri, n: int)
    requires 0 <= i < numTris && 6 * numTris <= a.Length
    modifies a
    ensures a[..3 * i] == old(a[..3 * i]) && a[3 * i..3 * i + 3] == FlipTri(t)
    ensures a[3 * numTris..3 * numTris + 3 * i] == old(a[3 * numTris..3 * numTris + 3 * i])
    ensures a[3 * (numTris + i)..3 * (numTris + i) + 3] == ShiftTri(t, n)
  {
    a[i * 3 + 0] := t.c;
    a[i * 3 + 1] := t.b;
    a[i * 3 + 2] := t.a;
    a[(numTris + i) * 3 + 0] := n + t.a;
    a[(numTris + i) * 3 + 1] := n + t.b;
    a[(numTris + i) * 3 + 2] := n + t.c;
  }

  /**
   * The index assembly of SuperOptimizeOccluders on the path that does not
   * fragment silhouette quads: tris are the output triangles' uniqued
   * indexes, silEdges what GenerateSilEdges found, and n the number of
   * uniqued vertices before ProjectUniqued doubled them.
   */
  method AssembleOccluderIndexes(tris: seq<Tri>, silEdges: seq<OptEdge>, n: int) returns (ret: OptimizedShadow)
    ensures fresh(ret) && ret.Valid()
    ensures ret.Indexes() == OccluderIndexes(tris, silEdges, n)
    ensures ret.numFrontCapIndexes == 3 * |tris| && ret.numRearCapIndexes == 3 * |tris|
    ensures ret.numSilPlaneIndexes == 6 * |silEdges| && ret.numVerts == 2 * n
    ensures ret.totalIndexes == ret.numFrontCapIndexes + ret.numRearCapIndexes + ret.numSilPlaneIndexes
  {
    ret := new OptimizedShadow();
    var numTris := |tris|;
    ret.numFrontCapIndexes := numTris * 3;
    ret.numRearCapIndexes := numTris * 3;
    ret.numSilPlaneIndexes := |silEdges| * 6;
    ret.totalIndexes := 0;
    var maxRetIndexes := ret.numFrontCapIndexes + ret.numRearCapIndexes + ret.numSilPlaneIndexes;
    ret.indexes := new int[maxRetIndexes];
    WriteAllCaps(ret.indexes, tris, n);
    ret.totalIndexes := ret.numFrontCapIndexes + ret.numRearCapIndexes;
    EmitUnoptimizedSilEdges(ret, silEdges, n);
    ret.numVerts := 2 * n;
    ret.numSilPlaneIndexes := ret.totalIndexes - (ret.numFrontCapIndexes + ret.numRearCapIndexes);
  }

  /** The first loop of SuperOptimizeOccluders: front caps, then rear caps, for every triangle. */
  method WriteAllCaps(a: array<int>, tris: seq<Tri>, n: int)
    requires 6 * |tris| <= a.Length
    modifies a
    ensures a[..6 * |tris|] == FrontCaps(tris) + RearCaps(tris, n)
  {
    var numTris := |tris|;
    var i := 0;
    while i < numTris
      invariant 0 <= i <= numTris
      invariant a[..3 * i] == FrontCaps(tris[..i])
      invariant a[3 * numTris..3 * numTris + 3 * i] == RearCaps(tris[..i], n)
    {
      WriteCaps(a, numTris, i, tris[i], n);
      CapsStep(a[..], tris, numTris, i, n);
      i := i + 1;
    }
    assert tris[..i] == tris;
    assert a[..6 * numTris] == a[..3 * numTris] + a[3 * numTris..3 * numTris + 3 * numTris];
  }

  /** The loop invariant of the cap loop, one triangle further. */
  lemma CapsStep(s: seq<int>, tris: seq<Tri>, numTris: int, i: int, n: int)
    requires numTris == |tris| && 0 <= i < numTris && 6 * numTris <= |s|
    requires s[..3 * i] == FrontCaps(tris[..i]) && s[3 * i..3 * i + 3] == FlipTri(tris[i])
    requires s[3 * numTris..3 * numTris + 3 * i] == RearCaps(tris[..i], n)
    requires s[3 * (numTris + i)..3 * (numTris + i) + 3] == ShiftTri(tris[i], n)
    ensures s[..3 * (i + 1)] == FrontCaps(tris[..i + 1])
    ensures s[3 * numTris..3 * numTris + 3 * (i + 1)] == RearCaps(tris[..i + 1], n)
  {
    assert tris[..i + 1][..i] == tris[..i];
    assert s[..3 * (i + 1)] == s[..3 * i] + s[3 * i..3 * i + 3];
    var b := 3 * numTris;
    assert s[b..b + 3 * (i + 1)] == s[b..b + 3 * i] + s[b + 3 * i..b + 3 * i + 3];
  }
}
