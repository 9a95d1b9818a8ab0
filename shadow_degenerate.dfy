// The optimized shadow surface the offline optimizer cleans up, and the
// removal of its degenerate triangles
// (neo/tools/compilers/dmap/shadowopt3.cpp:1192-1223). The index list is a
// triangle list; numShadowIndexesNoCaps ends the silhouette quads and
// numShadowIndexesNoFrontCaps the part without front caps, and both move
// down when a triangle before them is removed.
module ShadowDegenerate {
  import opened ShadowGeometry

  /** The srfTriangles_t fields the cleanup reads and writes. */
  class ShadowTris {
    var indexes: array<int>
    var numIndexes: int
    var numShadowIndexesNoCaps: int
    var numShadowIndexesNoFrontCaps: int
    var verts: array<Vec3>
    var numVerts: int

    ghost predicate Valid()
      reads this
    {
      0 <= numIndexes <= indexes.Length && 0 <= numVerts <= verts.Length
    }

    ghost function Indexes(): seq<int>
      reads this, indexes
      requires Valid()
    {
      indexes[..numIndexes]
    }

    ghost function Verts(): seq<Vec3>
      reads this, verts
      requires Valid()
    {
      verts[..numVerts]
    }

    constructor(indexes: array<int>, numIndexes: int, noCaps: int, noFrontCaps: int, verts: array<Vec3>, numVerts: int)
      requires 0 <= numIndexes <= indexes.Length && 0 <= numVerts <= verts.Length
      ensures Valid() && this.indexes == indexes && this.numIndexes == numIndexes && this.verts == verts
      ensures numShadowIndexesNoCaps == noCaps && numShadowIndexesNoFrontCaps == noFrontCaps && this.numVerts == numVerts
    {
      this.indexes := indexes;
      this.numIndexes := numIndexes;
      numShadowIndexesNoCaps := noCaps;
      numShadowIndexesNoFrontCaps := noFrontCaps;
      this.verts := verts;
      this.numVerts := numVerts;
    }
  }

  /** The triangle starting at index i has two equal corners. */
  predicate DegenerateAt(s: seq<int>, i: int)
    requires 0 <= i && i + 3 <= |s|
  {
    s[i] == s[i + 1] || s[i] == s[i + 2] || s[i + 1] == s[i + 2]
  }

  /** The index list with the triangle starting at i taken out (the memmove). */
  function Cut(s: seq<int>, i: int): seq<int>
    requires 0 <= i && i + 3 <= |s|
  {
    s[..i] + s[i + 3..]
  }

  /** A count that ends a region moves down when the removed triangle starts before it. */
  function Lower(count: int, i: int): int {
    if i < count then count - 3 else count
  }

  datatype Counted = Counted(indexes: seq<int>, noCaps: int, noFrontCaps: int)

  /**
   * The removal loop as written, from triangle t on: s has nt triangles,
   * and nc / nf are the current numShadowIndexesNoCaps /
   * numShadowIndexesNoFrontCaps.
   */
  function DropFrom(s: seq<int>, nt: nat, nc: int, nf: int, t: nat): Counted
    requires |s| == 3 * nt && t <= nt
    decreases nt - t
  {
    if t == nt then Counted(s, nc, nf)
    else if DegenerateAt(s, 3 * t) then DropFrom(Cut(s, 3 * t), nt - 1, Lower(nc, 3 * t), Lower(nf, 3 * t), t)
    else DropFrom(s, nt, nc, nf, t + 1)
  }

  // ---------------------------------------------------------------------
  // What the loop computes

  /** The non-degenerate triangles of u, in order. */
  function KeptOf(u: seq<int>): (r: seq<int>)
    ensures |r| <= |u|
    decreases |u|
  {
    if |u| < 3 then [] else (if DegenerateAt(u, 0) then [] else u[..3]) + KeptOf(u[3..])
  }

  /** Where a count that was nc ends once the scan has passed the first t triangles. */
  function CountOf(s: seq<int>, t: nat, nc: int): int
    requires 3 * t <= |s| && nc <= |s|
  {
    if nc <= 3 * t then nc else 3 * t + |KeptOf(s[3 * t..nc])|
  }

  lemma DropCutStep(s: seq<int>, nt: nat, nc: int, t: nat)
    requires |s| == 3 * nt && t < nt && DegenerateAt(s, 3 * t) && nc <= |s|
    requires nc <= 3 * t || nc >= 3 * t + 3
    ensures Cut(s, 3 * t)[..3 * t] == s[..3 * t] && Cut(s, 3 * t)[3 * t..] == s[3 * t + 3..]
    ensures KeptOf(s[3 * t..]) == KeptOf(s[3 * t + 3..])
    ensures CountOf(Cut(s, 3 * t), t, Lower(nc, 3 * t)) == CountOf(s, t, nc)
  {
    var u := s[3 * t..];
    assert u[..3] == s[3 * t..3 * t + 3] && u[3..] == s[3 * t + 3..];
    if nc > 3 * t {
      var c := Cut(s, 3 * t);
      var v := s[3 * t..nc];
      assert v[3..] == s[3 * t + 3..nc] == c[3 * t..nc - 3];
      assert v[..3] == u[..3];
    }
  }

  lemma DropSkipKept(s: seq<int>, t: nat)
    requires 3 * t + 3 <= |s| && !DegenerateAt(s, 3 * t)
    ensures s[..3 * t] + KeptOf(s[3 * t..]) == s[..3 * t + 3] + KeptOf(s[3 * t + 3..])
  {
    var u := s[3 * t..];
    assert u[..3] == s[3 * t..3 * t + 3] && u[3..] == s[3 * t + 3..];
    assert s[..3 * t + 3] == s[..3 * t] + s[3 * t..3 * t + 3];
  }

  lemma DropSkipCount(s: seq<int>, nc: int, t: nat)
    requires 3 * t + 3 <= |s| && !DegenerateAt(s, 3 * t) && nc <= |s|
    requires nc <= 3 * t || nc >= 3 * t + 3
    ensures CountOf(s, t + 1, nc) == CountOf(s, t, nc)
  {
    if nc > 3 * t {
      var v := s[3 * t..nc];
      assert v[3..] == s[3 * t + 3..nc] && v[..3] == s[3 * t..3 * t + 3];
      assert !DegenerateAt(v, 0);
    }
  }

  lemma DropFromCut(s: seq<int>, nt: nat, nc: int, nf: int, t: nat)
    requires |s| == 3 * nt && t < nt && DegenerateAt(s, 3 * t)
    ensures DropFrom(s, nt, nc, nf, t) == DropFrom(Cut(s, 3 * t), nt - 1, Lower(nc, 3 * t), Lower(nf, 3 * t), t)
  {
  }

  lemma DropFromSkip(s: seq<int>, nt: nat, nc: int, nf: int, t: nat)
    requires |s| == 3 * nt && t < nt && !DegenerateAt(s, 3 * t)
    ensures DropFrom(s, nt, nc, nf, t) == DropFrom(s, nt, nc, nf, t + 1)
  {
  }

  /**
   * From triangle t on, the loop keeps the first t triangles and the
   * non-degenerate ones after them, and a count on a triangle boundary
   * ends up after the kept triangles of its region.
   */
  predicate KeepsFrom(s: seq<int>, nt: nat, mc: nat, mf: nat, t: nat)
    requires |s| == 3 * nt && t <= nt && mc <= nt && mf <= nt
  {
    DropFrom(s, nt, 3 * mc, 3 * mf, t)
      == Counted(s[..3 * t] + KeptOf(s[3 * t..]), CountOf(s, t, 3 * mc), CountOf(s, t, 3 * mf))
  }

  /** KeepsFrom holds from every triangle on, by induction on the triangles left. */
  lemma {:induction false} DropFromKeeps(s: seq<int>, nt: nat, mc: nat, mf: nat, t: nat)
    requires |s| == 3 * nt && t <= nt && mc <= nt && mf <= nt
    ensures KeepsFrom(s, nt, mc, mf, t)
    decreases nt - t
  {
    if t == nt {
      KeepsEndCase(s, nt, mc, mf);
    } else if DegenerateAt(s, 3 * t) {
      var mc', mf' := if t < mc then mc - 1 else mc, if t < mf then mf - 1 else mf;
      var c := Cut(s, 3 * t);
      assert |c| == 3 * (nt - 1) && mc' <= nt - 1 && mf' <= nt - 1;
      DropFromKeeps(c, nt - 1, mc', mf', t);
      KeepsCutCase(s, nt, mc, mf, t, mc', mf');
    } else {
      DropFromKeeps(s, nt, mc, mf, t + 1);
      KeepsSkipCase(s, nt, mc, mf, t);
    }
  }

  /** KeepsFrom once the scan has passed every triangle. */
  lemma KeepsEndCase(s: seq<int>, nt: nat, mc: nat, mf: nat)
    requires |s| == 3 * nt && mc <= nt && mf <= nt
    ensures KeepsFrom(s, nt, mc, mf, nt)
  {
    assert s[..3 * nt] == s;
  }

  /** KeepsFrom at a degenerate triangle, from KeepsFrom after cutting it. */
  lemma KeepsCutCase(s: seq<int>, nt: nat, mc: nat, mf: nat, t: nat, mc': nat, mf': nat)
    requires |s| == 3 * nt && t < nt && mc <= nt && mf <= nt && DegenerateAt(s, 3 * t)
    requires mc' == (if t < mc then mc - 1 else mc) && mf' == (if t < mf then mf - 1 else mf)
    requires KeepsFrom(Cut(s, 3 * t), nt - 1, mc', mf', t)
    ensures KeepsFrom(s, nt, mc, mf, t)
  {
    assert (mc <= t || mc >= t + 1) && (mf <= t || mf >= t + 1);
    DropCutStep(s, nt, 3 * mc, t);
    DropCutStep(s, nt, 3 * mf, t);
    assert Lower(3 * mc, 3 * t) == 3 * mc' && Lower(3 * mf, 3 * t) == 3 * mf';
    DropFromCut(s, nt, 3 * mc, 3 * mf, t);
  }

  /** KeepsFrom at a kept triangle, from KeepsFrom one triangle on. */
  lemma KeepsSkipCase(s: seq<int>, nt: nat, mc: nat, mf: nat, t: nat)
    requires |s| == 3 * nt && t < nt && mc <= nt && mf <= nt && !DegenerateAt(s, 3 * t)
    requires KeepsFrom(s, nt, mc, mf, t + 1)
    ensures KeepsFrom(s, nt, mc, mf, t)
  {
    assert (mc <= t || mc >= t + 1) && (mf <= t || mf >= t + 1);
    DropSkipKept(s, t);
    DropSkipCount(s, 3 * mc, t);
    DropSkipCount(s, 3 * mf, t);
    DropFromSkip(s, nt, 3 * mc, 3 * mf, t);
  }

  /** Keeping triangles distributes over a split on a triangle boundary. */
  lemma {:induction false} KeptOfAppend(u: seq<int>, v: seq<int>, m: nat)
    requires |u| == 3 * m
    ensures KeptOf(u + v) == KeptOf(u) + KeptOf(v)
    decreases m
  {
    if m > 0 {
      assert (u + v)[..3] == u[..3] && (u + v)[3..] == u[3..] + v;
      KeptOfAppend(u[3..], v, m - 1);
    } else {
      assert u + v == v;
    }
  }

  /** No triangle left by the removal is degenerate. */
  lemma {:induction false} KeptOfNotDegenerate(u: seq<int>, k: nat)
    requires 3 * k + 3 <= |KeptOf(u)|
    ensures !DegenerateAt(KeptOf(u), 3 * k)
    decreases |u|
  {
    var rest := KeptOf(u[3..]);
    if DegenerateAt(u, 0) {
      KeptOfNotDegenerate(u[3..], k);
    } else if k == 0 {
      assert KeptOf(u)[..3] == u[..3];
    } else {
      KeptOfNotDegenerate(u[3..], k - 1);
      assert KeptOf(u)[3 * k..3 * k + 3] == rest[3 * (k - 1)..3 * (k - 1) + 3];
    }
  }

  /** Every triangle of KeptOf(u) has three distinct corners. */
  lemma KeptOfClean(u: seq<int>)
    ensures forall k :: 0 <= k < |KeptOf(u)| / 3 ==> !DegenerateAt(KeptOf(u), 3 * k)
  {
    forall k | 0 <= k < |KeptOf(u)| / 3
      ensures !DegenerateAt(KeptOf(u), 3 * k)
    {
      KeptOfNotDegenerate(u, k);
    }
  }

  /**
   * When the counts end on triangle boundaries (as they do: the regions are
   * made of whole triangles), RemoveDegenerateTriangles keeps exactly the
   * non-degenerate triangles, in order, and each count becomes the length
   * of its region's kept triangles, which stay a prefix of the result.
   */
  lemma RemoveDegenerateKeeps(s: seq<int>, nt: nat, mc: nat, mf: nat)
    requires |s| == 3 * nt && mc <= nt && mf <= nt
    ensures DropFrom(s, nt, 3 * mc, 3 * mf, 0)
      == Counted(KeptOf(s), |KeptOf(s[..3 * mc])|, |KeptOf(s[..3 * mf])|)
    ensures KeptOf(s) == KeptOf(s[..3 * mc]) + KeptOf(s[3 * mc..])
    ensures KeptOf(s) == KeptOf(s[..3 * mf]) + KeptOf(s[3 * mf..])
  {
    DropFromKeeps(s, nt, mc, mf, 0);
    assert s[..0] + KeptOf(s[0..]) == KeptOf(s) by { assert s[0..] == s; }
    assert s[0..3 * mc] == s[..3 * mc] && s[0..3 * mf] == s[..3 * mf];
    KeptOfAppend(s[..3 * mc], s[3 * mc..], mc);
    KeptOfAppend(s[..3 * mf], s[3 * mf..], mf);
    assert s[..3 * mc] + s[3 * mc..] == s && s[..3 * mf] + s[3 * mf..] == s;
  }

  /** RemoveDegenerateKeeps with the counts given as index counts. */
  lemma DropOnTriangles(s: seq<int>, nc: int, nf: int)
    requires |s| % 3 == 0 && 0 <= nc <= |s| && 0 <= nf <= |s| && nc % 3 == 0 && nf % 3 == 0
    ensures DropFrom(s, |s| / 3, nc, nf, 0) == Counted(KeptOf(s), |KeptOf(s[..nc])|, |KeptOf(s[..nf])|)
  {
    RemoveDegenerateKeeps(s, |s| / 3, nc / 3, nf / 3);
  }

  // ---------------------------------------------------------------------
  // RemoveDegenerateTriangles

  /** memmove(indexes + i, indexes + i + 3, (n - i - 3) * sizeof(indexes[0])) */
  method MoveDown(a: array<int>, i: int, n: int)
    requires 0 <= i && i + 3 <= n <= a.Length
    modifies a
    ensures a[..n - 3] == Cut(old(a[..n]), i)
  {
    forall k | i <= k < n - 3 {
      a[k] := a[k + 3];
    }
  }

  /**
   * RemoveDegenerateTriangles (the message it prints with the number of
   * removed triangles is left out).
   */
  method RemoveDegenerateTriangles(tri: ShadowTris)
    requires tri.Valid() && tri.numIndexes % 3 == 0
    modifies tri, tri.indexes
    ensures tri.Valid() && tri.indexes == old(tri.indexes)
    ensures tri.verts == old(tri.verts) && tri.numVerts == old(tri.numVerts)
    ensures Counted(tri.Indexes(), tri.numShadowIndexesNoCaps, tri.numShadowIndexesNoFrontCaps)
      == DropFrom(old(tri.Indexes()), old(tri.numIndexes) / 3,
                  old(tri.numShadowIndexesNoCaps), old(tri.numShadowIndexesNoFrontCaps), 0)
  {
    ghost var nt := tri.numIndexes / 3;
    ghost var result := DropFrom(tri.Indexes(), nt, tri.numShadowIndexesNoCaps, tri.numShadowIndexesNoFrontCaps, 0);
    ghost var t := 0;
    var i := 0;
    while i < tri.numIndexes
      invariant tri.Valid() && tri.indexes == old(tri.indexes)
      invariant tri.verts == old(tri.verts) && tri.numVerts == old(tri.numVerts)
      invariant tri.numIndexes == 3 * nt && i == 3 * t && t <= nt
      invariant DropFrom(tri.Indexes(), nt, tri.numShadowIndexesNoCaps, tri.numShadowIndexesNoFrontCaps, t) == result
      decreases tri.numIndexes - i
    {
      var a := tri.indexes[i];
      var b := tri.indexes[i + 1];
      var c := tri.indexes[i + 2];
      if a == b || a == c || b == c {
        CutTriangle(tri, i);
        nt := nt - 1;
      } else {
        i := i + 3;
        t := t + 1;
      }
    }
  }

  /** One removal: the memmove, and the counts moved down. */
  method CutTriangle(tri: ShadowTris, i: int)
    requires tri.Valid() && 0 <= i && i + 3 <= tri.numIndexes
    modifies tri, tri.indexes
    ensures tri.Valid() && tri.indexes == old(tri.indexes)
    ensures tri.verts == old(tri.verts) && tri.numVerts == old(tri.numVerts)
    ensures tri.numIndexes == old(tri.numIndexes) - 3 && tri.Indexes() == Cut(old(tri.Indexes()), i)
    ensures tri.numShadowIndexesNoCaps == Lower(old(tri.numShadowIndexesNoCaps), i)
    ensures tri.numShadowIndexesNoFrontCaps == Lower(old(tri.numShadowIndexesNoFrontCaps), i)
  {
    MoveDown(tri.indexes, i, tri.numIndexes);
    tri.numIndexes := tri.numIndexes - 3;
    if i < tri.numShadowIndexesNoCaps {
      tri.numShadowIndexesNoCaps := tri.numShadowIndexesNoCaps - 3;
    }
    if i < tri.numShadowIndexesNoFrontCaps {
      tri.numShadowIndexesNoFrontCaps := tri.numShadowIndexesNoFrontCaps - 3;
    }
  }
}
