// Polygon clipping against the light frustum planes (ChopWinding,
// neo/tools/compilers/dmap/shadowopt3.cpp:1393-1477). The clip is first
// specified on values (ChopPoly) and its geometric properties are proved
// there; the ping-pong buffers of the source are a class whose method is
// proved against that specification.
module ShadowClip {
  import opened ShadowGeometry

  /** MAX_CLIPPED_POINTS: the capacity of one clipTri_t. */
  const MAX_CLIPPED_POINTS: int := 20

  /** SIDE_FRONT, SIDE_BACK and SIDE_ON. */
  datatype Side = Front | Back | On

  function SideOf(d: real): Side {
    if d < -LIGHT_CLIP_EPSILON then Back
    else if d > LIGHT_CLIP_EPSILON then Front
    else On
  }

  /** One polygon corner with the flag of the edge that leaves it (1: made by clipping). */
  datatype ClipVert = ClipVert(v: Vec3, flag: int)

  function SideAt(p: seq<ClipVert>, plane: Plane, i: int): Side
    requires 0 <= i < |p|
  {
    SideOf(Distance(plane, p[i].v))
  }

  /** The index after i around a polygon of n corners. */
  function Next(n: int, i: int): int
    requires 0 <= i < n
  {
    if i + 1 == n then 0 else i + 1
  }

  predicate Crossing(s1: Side, s2: Side) {
    (s1 == Front && s2 == Back) || (s1 == Back && s2 == Front)
  }

  /** The corner a pass keeps: one on or in front of the plane, flagged when the next corner is behind. */
  function KeptFrom(v1: Vec3, f: int, s1: Side, s2: Side): seq<ClipVert> {
    if s1 != Back then [ClipVert(v1, if s1 == On && s2 == Back then 1 else f)] else []
  }

  /** The split point a pass adds where the edge crosses strictly from one side to the other. */
  function SplitFrom(v1: Vec3, v2: Vec3, f: int, d1: real, d2: real): seq<ClipVert> {
    var s1, s2 := SideOf(d1), SideOf(d2);
    if Crossing(s1, s2) then [ClipVert(SplitPoint(v1, v2, d1, d2), if s2 != Front then 1 else f)] else []
  }

  /** The signed distances of the corners from the plane (dists[] of the source). */
  function DistsTo(p: seq<ClipVert>, plane: Plane): (ds: seq<real>)
    ensures |ds| == |p|
  {
    seq(|p|, k requires 0 <= k < |p| => Distance(plane, p[k].v))
  }

  /** What one pass of the output loop appends for corner i, given the corner distances ds. */
  function EmitD(p: seq<ClipVert>, ds: seq<real>, i: int): seq<ClipVert>
    requires |ds| == |p| && 0 <= i < |p|
  {
    var j := Next(|p|, i);
    KeptFrom(p[i].v, p[i].flag, SideOf(ds[i]), SideOf(ds[j])) + SplitFrom(p[i].v, p[j].v, p[i].flag, ds[i], ds[j])
  }

  /** One pass of the loop, stated over the values the loop reads. */
  lemma EmitStep(p: seq<ClipVert>, ds: seq<real>, i: int, v1: Vec3, v2: Vec3, f: int, d1: real, d2: real)
    requires |ds| == |p| && 0 <= i < |p|
    requires v1 == p[i].v && f == p[i].flag && d1 == ds[i]
    requires v2 == p[Next(|p|, i)].v && d2 == ds[Next(|p|, i)]
    ensures EmitD(p, ds, i) == KeptFrom(v1, f, SideOf(d1), SideOf(d2)) + SplitFrom(v1, v2, f, d1, d2)
  {
  }

  /**
   * The passes read the corners, flags, sides and distances from buffers
   * holding p with its first corner repeated at the end.
   */
  lemma EmissionsOfBuffer(p: seq<ClipVert>, ds: seq<real>, vs: seq<Vec3>, fs: seq<int>, ss: seq<Side>, dd: seq<real>)
    requires |ds| == |p| && 0 < |p| && |vs| == |fs| == |ss| == |dd| == |p| + 1
    requires forall k :: 0 <= k < |p| ==> vs[k] == p[k].v && fs[k] == p[k].flag && dd[k] == ds[k] && ss[k] == SideOf(ds[k])
    requires vs[|p|] == vs[0] && dd[|p|] == dd[0] && ss[|p|] == ss[0]
    ensures forall k :: 0 <= k < |p| ==>
      Emissions(p, ds)[k] == KeptFrom(vs[k], fs[k], ss[k], ss[k + 1]) + SplitFrom(vs[k], vs[k + 1], fs[k], dd[k], dd[k + 1])
  {
    forall k | 0 <= k < |p|
      ensures Emissions(p, ds)[k] == KeptFrom(vs[k], fs[k], ss[k], ss[k + 1]) + SplitFrom(vs[k], vs[k + 1], fs[k], dd[k], dd[k + 1])
    {
      EmitStep(p, ds, k, vs[k], vs[k + 1], fs[k], dd[k], dd[k + 1]);
    }
  }

  /** What every pass of the output loop appends, in order. */
  function Emissions(p: seq<ClipVert>, ds: seq<real>): (es: seq<seq<ClipVert>>)
    requires |ds| == |p|
    ensures |es| == |p|
  {
    seq(|p|, i requires 0 <= i < |p| => EmitD(p, ds, i))
  }

  /** The pieces of es written one after the other. */
  function Concat<T>(es: seq<seq<T>>): seq<T> {
    if es == [] then [] else Concat(es[..|es| - 1]) + es[|es| - 1]
  }

  lemma ConcatStep<T>(es: seq<seq<T>>, k: int)
    requires 0 <= k < |es|
    ensures Concat(es[..k + 1]) == Concat(es[..k]) + es[k]
  {
    assert es[..k + 1][..k] == es[..k];
  }

  /** Writing more pieces only appends: the first k pieces form a prefix of the first m. */
  lemma {:induction false} ConcatPrefix<T>(es: seq<seq<T>>, k: int, m: int)
    requires 0 <= k <= m <= |es|
    ensures |Concat(es[..k])| <= |Concat(es[..m])|
    ensures Concat(es[..k]) == Concat(es[..m])[..|Concat(es[..k])|]
  {
    if k < m {
      ConcatPrefix(es, k, m - 1);
      ConcatStep(es, m - 1);
      var a, b := Concat(es[..k]), Concat(es[..m - 1]);
      assert (b + es[m - 1])[..|a|] == b[..|a|];
    }
  }

  /** What holds of every element of every piece holds of every element of their concatenation. */
  lemma {:induction false} ConcatAll<T>(es: seq<seq<T>>, P: T -> bool, k: int)
    requires 0 <= k <= |es|
    requires forall i, j :: 0 <= i < |es| && 0 <= j < |es[i]| ==> P(es[i][j])
    ensures forall m :: 0 <= m < |Concat(es[..k])| ==> P(Concat(es[..k])[m])
  {
    if k > 0 {
      ConcatAll(es, P, k - 1);
      ConcatStep(es, k - 1);
      var a := Concat(es[..k - 1]);
      forall m | 0 <= m < |Concat(es[..k])|
        ensures P(Concat(es[..k])[m])
      {
        if m >= |a| {
          assert Concat(es[..k])[m] == es[k - 1][m - |a|];
        }
      }
    }
  }

  /** What one pass of the output loop appends for corner i: the corner itself, then a split point. */
  function Emit(p: seq<ClipVert>, plane: Plane, i: int): seq<ClipVert>
    requires 0 <= i < |p|
  {
    EmitD(p, DistsTo(p, plane), i)
  }

  /** The output of the loop after its first k passes. */
  function ChopUpTo(p: seq<ClipVert>, plane: Plane, k: int): seq<ClipVert>
    requires 0 <= k <= |p|
  {
    Concat(Emissions(p, DistsTo(p, plane))[..k])
  }

  function Chop(p: seq<ClipVert>, plane: Plane): seq<ClipVert> {
    ChopUpTo(p, plane, |p|)
  }

  predicate HasSide(p: seq<ClipVert>, plane: Plane, s: Side) {
    exists i :: 0 <= i < |p| && SideAt(p, plane, i) == s
  }

  /** The polygon is cut into two parts: only then is a new polygon built. */
  predicate Splits(p: seq<ClipVert>, plane: Plane) {
    HasSide(p, plane, Front) && HasSide(p, plane, Back)
  }

  /** The clipped polygon: nothing in front clips it away, nothing behind keeps it. */
  function ChopPoly(p: seq<ClipVert>, plane: Plane): seq<ClipVert> {
    if !HasSide(p, plane, Front) then []
    else if !HasSide(p, plane, Back) then p
    else Chop(p, plane)
  }

  /**
   * What the fixed buffers demand of a split: room to duplicate the first
   * corner at the end of the input, and room for the output.
   */
  predicate ChopFits(p: seq<ClipVert>, plane: Plane) {
    Splits(p, plane) ==> |p| < MAX_CLIPPED_POINTS && |Chop(p, plane)| <= MAX_CLIPPED_POINTS
  }

  predicate OnBand(plane: Plane, v: Vec3) {
    -LIGHT_CLIP_EPSILON <= Distance(plane, v) <= LIGHT_CLIP_EPSILON
  }

  // ---------------------------------------------------------------------
  // Properties of the clip

  /** Every corner emitted for position i lies on or in front of the plane. */
  lemma EmitInFront(p: seq<ClipVert>, plane: Plane, i: int)
    requires 0 <= i < |p|
    ensures forall k :: 0 <= k < |Emit(p, plane, i)| ==> Distance(plane, Emit(p, plane, i)[k].v) >= -LIGHT_CLIP_EPSILON
  {
    var j := Next(|p|, i);
    if Crossing(SideAt(p, plane, i), SideAt(p, plane, j)) {
      SplitPointOnPlane(plane, p[i].v, p[j].v);
    }
  }

  /** Nothing of the clipped polygon lies behind the plane (beyond the tolerance). */
  lemma ChopPolyInFront(p: seq<ClipVert>, plane: Plane)
    ensures forall m :: 0 <= m < |ChopPoly(p, plane)| ==> Distance(plane, ChopPoly(p, plane)[m].v) >= -LIGHT_CLIP_EPSILON
  {
    if HasSide(p, plane, Front) && !HasSide(p, plane, Back) {
      forall m | 0 <= m < |p|
        ensures Distance(plane, p[m].v) >= -LIGHT_CLIP_EPSILON
      {
        assert SideAt(p, plane, m) != Back;
      }
    } else if Splits(p, plane) {
      var es := Emissions(p, DistsTo(p, plane));
      var inFront := (c: ClipVert) => Distance(plane, c.v) >= -LIGHT_CLIP_EPSILON;
      forall i, j | 0 <= i < |es| && 0 <= j < |es[i]|
        ensures inFront(es[i][j])
      {
        assert es[i] == Emit(p, plane, i);
        EmitInFront(p, plane, i);
      }
      ConcatAll(es, inFront, |p|);
    }
  }

  /** Along the segment from v1 to v2 the distance to any plane changes linearly. */
  lemma SplitPointDistance(q: Plane, v1: Vec3, v2: Vec3, d1: real, d2: real)
    requires d1 != d2
    ensures var t := d1 / (d1 - d2);
      Distance(q, SplitPoint(v1, v2, d1, d2)) == Distance(q, v1) + t * (Distance(q, v2) - Distance(q, v1))
  {
  }

  /** A point strictly between two points in a half-space is in the half-space. */
  lemma SplitPointKeepsHalfspace(q: Plane, e: real, v1: Vec3, v2: Vec3, d1: real, d2: real)
    requires (d1 > 0.0 && d2 < 0.0) || (d1 < 0.0 && d2 > 0.0)
    requires Distance(q, v1) >= e && Distance(q, v2) >= e
    ensures Distance(q, SplitPoint(v1, v2, d1, d2)) >= e
  {
    var t := d1 / (d1 - d2);
    SplitPointDistance(q, v1, v2, d1, d2);
    assert 0.0 < t < 1.0 by {
      if d1 > 0.0 {
        assert d1 - d2 > d1;
      } else {
        assert d2 - d1 > -d1;
        assert t == (-d1) / (d2 - d1);
      }
    }
    var a, b := Distance(q, v1), Distance(q, v2);
    assert a + t * (b - a) == (1.0 - t) * a + t * b;
    assert (1.0 - t) * a >= (1.0 - t) * e;
    assert t * b >= t * e;
  }

  lemma EmitKeepsHalfspace(p: seq<ClipVert>, plane: Plane, q: Plane, e: real, i: int)
    requires 0 <= i < |p|
    requires forall m :: 0 <= m < |p| ==> Distance(q, p[m].v) >= e
    ensures forall k :: 0 <= k < |Emit(p, plane, i)| ==> Distance(q, Emit(p, plane, i)[k].v) >= e
  {
    var j := Next(|p|, i);
    var d1, d2 := Distance(plane, p[i].v), Distance(plane, p[j].v);
    if Crossing(SideOf(d1), SideOf(d2)) {
      SplitPointKeepsHalfspace(q, e, p[i].v, p[j].v, d1, d2);
    }
  }

  /**
   * Clipping against one plane keeps the polygon inside every half-space it
   * was already inside: the clips against successive frustum planes compose.
   */
  lemma ChopPolyKeepsHalfspace(p: seq<ClipVert>, plane: Plane, q: Plane, e: real)
    requires forall m :: 0 <= m < |p| ==> Distance(q, p[m].v) >= e
    ensures forall m :: 0 <= m < |ChopPoly(p, plane)| ==> Distance(q, ChopPoly(p, plane)[m].v) >= e
  {
    if Splits(p, plane) {
      var es := Emissions(p, DistsTo(p, plane));
      var inside := (c: ClipVert) => Distance(q, c.v) >= e;
      forall i, j | 0 <= i < |es| && 0 <= j < |es[i]|
        ensures inside(es[i][j])
      {
        assert es[i] == Emit(p, plane, i);
        EmitKeepsHalfspace(p, plane, q, e, i);
      }
      ConcatAll(es, inside, |p|);
    }
  }

  /** A flagged corner flag is a fresh 1 on the plane's band, or one the input already carried. */
  predicate FlagExplained(p: seq<ClipVert>, plane: Plane, c: ClipVert) {
    (c.flag == 1 && OnBand(plane, c.v)) || exists i :: 0 <= i < |p| && p[i].flag == c.flag
  }

  lemma EmitFlags(p: seq<ClipVert>, plane: Plane, i: int)
    requires 0 <= i < |p|
    ensures forall k :: 0 <= k < |Emit(p, plane, i)| ==> FlagExplained(p, plane, Emit(p, plane, i)[k])
  {
    var j := Next(|p|, i);
    var e := Emit(p, plane, i);
    if Crossing(SideAt(p, plane, i), SideAt(p, plane, j)) {
      SplitPointOnPlane(plane, p[i].v, p[j].v);
    }
    forall k | 0 <= k < |e|
      ensures FlagExplained(p, plane, e[k])
    {
      if e[k].flag != 1 {
        assert e[k].flag == p[i].flag;
      }
    }
  }

  /**
   * Every edge flag of the clipped polygon is either inherited from the
   * input or a 1 set on a corner the plane made, which lies on the plane.
   */
  lemma ChopPolyFlags(p: seq<ClipVert>, plane: Plane)
    ensures forall m :: 0 <= m < |ChopPoly(p, plane)| ==> FlagExplained(p, plane, ChopPoly(p, plane)[m])
  {
    if Splits(p, plane) {
      var es := Emissions(p, DistsTo(p, plane));
      var explained := (c: ClipVert) => FlagExplained(p, plane, c);
      forall i, j | 0 <= i < |es| && 0 <= j < |es[i]|
        ensures explained(es[i][j])
      {
        assert es[i] == Emit(p, plane, i);
        EmitFlags(p, plane, i);
      }
      ConcatAll(es, explained, |p|);
    } else if HasSide(p, plane, Front) {
      forall m | 0 <= m < |p|
        ensures FlagExplained(p, plane, p[m])
      {
        assert p[m].flag == p[m].flag;
      }
    }
  }

  /**
   * The corners on or in front of the plane survive, in their original
   * order: corner i is found at the position where pass i starts writing,
   * and a later pass starts writing strictly later.
   */
  lemma ChopKeepsCorners(p: seq<ClipVert>, plane: Plane, i: int, j: int)
    requires 0 <= i < j <= |p| && SideAt(p, plane, i) != Back
    ensures |ChopUpTo(p, plane, i)| < |ChopUpTo(p, plane, j)| <= |Chop(p, plane)|
    ensures Chop(p, plane)[|ChopUpTo(p, plane, i)|].v == p[i].v
  {
    var es: seq<seq<ClipVert>> := Emissions(p, DistsTo(p, plane));
    ConcatPrefix(es, i + 1, j);
    ConcatPrefix(es, i + 1, |p|);
    ConcatPrefix(es, j, |p|);
    ConcatStep(es, i);
    var a: seq<ClipVert> := Concat(es[..i]);
    assert es[i][0].v == p[i].v;
    assert Concat(es[..i + 1])[|a|].v == p[i].v;
  }

  /** Where an edge crosses from one side to the other, a point on the plane is inserted. */
  lemma ChopSplitsCrossings(p: seq<ClipVert>, plane: Plane, i: int)
    requires 0 <= i < |p| && Crossing(SideAt(p, plane, i), SideAt(p, plane, Next(|p|, i)))
    ensures var k := |ChopUpTo(p, plane, i)| + (if SideAt(p, plane, i) == Front then 1 else 0);
      k < |Chop(p, plane)| && Distance(plane, Chop(p, plane)[k].v) == 0.0
  {
    var ds := DistsTo(p, plane);
    var es: seq<seq<ClipVert>> := Emissions(p, ds);
    var j := Next(|p|, i);
    ConcatPrefix(es, i + 1, |p|);
    ConcatStep(es, i);
    var a: seq<ClipVert> := Concat(es[..i]);
    var kept := KeptFrom(p[i].v, p[i].flag, SideOf(ds[i]), SideOf(ds[j]));
    var mid := SplitPoint(p[i].v, p[j].v, ds[i], ds[j]);
    assert es[i] == kept + SplitFrom(p[i].v, p[j].v, p[i].flag, ds[i], ds[j]);
    assert |kept| == (if SideAt(p, plane, i) == Front then 1 else 0);
    assert es[i][|kept|].v == mid;
    assert Concat(es[..i + 1])[|a| + |kept|].v == mid;
    SplitPointOnPlane(plane, p[i].v, p[j].v);
  }

  // ---------------------------------------------------------------------
  // The ping-pong buffers

  function Zip(vs: seq<Vec3>, fs: seq<int>): seq<ClipVert>
    requires |vs| == |fs|
  {
    seq(|vs|, k requires 0 <= k < |vs| => ClipVert(vs[k], fs[k]))
  }

  /** clipTri_t: a fixed-capacity polygon with one edge flag per corner. */
  class ClipTri {
    var numVerts: int
    const verts: array<Vec3>
    const edgeFlags: array<int>

    ghost predicate Valid()
      reads this
    {
      verts.Length == MAX_CLIPPED_POINTS && edgeFlags.Length == MAX_CLIPPED_POINTS
      && 0 <= numVerts <= MAX_CLIPPED_POINTS
    }

    /** The polygon the buffer currently holds. */
    ghost function Poly(): seq<ClipVert>
      reads this, verts, edgeFlags
      requires Valid()
    {
      Zip(verts[..numVerts], edgeFlags[..numVerts])
    }

    constructor()
      ensures Valid() && Poly() == [] && fresh(verts) && fresh(edgeFlags)
    {
      numVerts := 0;
      verts := new Vec3[MAX_CLIPPED_POINTS](_ => Vec3(0.0, 0.0, 0.0));
      edgeFlags := new int[MAX_CLIPPED_POINTS](_ => 0);
    }

    /** Writes a corner and its edge flag at the end and counts it (out->verts[out->numVerts++]). */
    method Push(v: Vec3, flag: int)
      requires Valid() && numVerts < MAX_CLIPPED_POINTS
      modifies this, verts, edgeFlags
      ensures Valid() && Poly() == old(Poly()) + [ClipVert(v, flag)]
    {
      verts[numVerts] := v;
      edgeFlags[numVerts] := flag;
      numVerts := numVerts + 1;
    }
  }

  /** clipTris[n] of the two-element ping-pong array. */
  function Buffer(tri0: ClipTri, tri1: ClipTri, n: int): ClipTri {
    if n == 0 then tri0 else tri1
  }

  ghost predicate PingPong(tri0: ClipTri, tri1: ClipTri)
    reads tri0, tri1
  {
    tri0.Valid() && tri1.Valid() && tri0 != tri1
    && tri0.verts != tri1.verts && tri0.edgeFlags != tri1.edgeFlags
  }

  /**
   * Clips the polygon of inT against the plane (the body of ChopWinding once
   * in and out are chosen). Returns whether the result went to outT: when
   * the polygon is not cut it stays in inT, emptied when nothing is in front.
   */
  method ChopInto(inT: ClipTri, outT: ClipTri, plane: Plane) returns (split: bool)
    requires PingPong(inT, outT)
    requires ChopFits(inT.Poly(), plane)
    modifies inT, inT.verts, inT.edgeFlags, outT, outT.verts, outT.edgeFlags
    ensures PingPong(inT, outT)
    ensures split == Splits(old(inT.Poly()), plane)
    ensures split ==> outT.Poly() == ChopPoly(old(inT.Poly()), plane) && inT.Poly() == old(inT.Poly())
    ensures !split ==> inT.Poly() == ChopPoly(old(inT.Poly()), plane)
  {
    ghost var poly := inT.Poly();
    ghost var ds := DistsTo(poly, plane);
    var n := inT.numVerts;
    var dists := new real[MAX_CLIPPED_POINTS];
    var sides := new Side[MAX_CLIPPED_POINTS](_ => On);
    var front, back := ClassifyCorners(inT, n, plane, dists, sides, poly, ds);

    // if none in front, it is completely clipped away
    if front == 0 {
      inT.numVerts := 0;
      return false;
    }
    if back == 0 {
      return false;
    }

    SplitInto(inT, outT, n, plane, dists, sides, poly, ds);
    return true;
  }

  /**
   * The cutting half of ChopWinding: duplicates the first corner, distance
   * and side at the end so that no pass has to wrap, then runs the output
   * loop into outT.
   */
  method SplitInto(inT: ClipTri, outT: ClipTri, n: int, plane: Plane, dists: array<real>, sides: array<Side>,
                   ghost poly: seq<ClipVert>, ghost ds: seq<real>)
    requires PingPong(inT, outT) && n == inT.numVerts && poly == inT.Poly() && ds == DistsTo(poly, plane)
    requires 0 < n < MAX_CLIPPED_POINTS && |Chop(poly, plane)| <= MAX_CLIPPED_POINTS
    requires dists.Length == MAX_CLIPPED_POINTS && sides.Length == MAX_CLIPPED_POINTS
    requires forall k :: 0 <= k < n ==> dists[k] == ds[k] && sides[k] == SideOf(ds[k])
    modifies inT.verts, inT.edgeFlags, dists, sides, outT, outT.verts, outT.edgeFlags
    ensures PingPong(inT, outT) && inT.Poly() == poly && outT.Poly() == Chop(poly, plane)
  {
    // avoid wrapping checks by duplicating the first corner at the end
    sides[n] := sides[0];
    dists[n] := dists[0];
    inT.verts[n] := inT.verts[0];
    inT.edgeFlags[n] := inT.edgeFlags[0];
    assert inT.verts[..n] == old(inT.verts[..n]) && inT.edgeFlags[..n] == old(inT.edgeFlags[..n]);
    ghost var es: seq<seq<ClipVert>> := Emissions(poly, ds);
    EmissionsOfBuffer(poly, ds, inT.verts[..n + 1], inT.edgeFlags[..n + 1], sides[..n + 1], dists[..n + 1]);
    EmitCorners(inT, outT, n, sides, dists, es);
  }

  /**
   * The first loop of ChopWinding: the distance and side of every corner,
   * and how many corners lie in front of and behind the plane.
   */
  method ClassifyCorners(inT: ClipTri, n: int, plane: Plane, dists: array<real>, sides: array<Side>,
                         ghost poly: seq<ClipVert>, ghost ds: seq<real>) returns (front: int, back: int)
    requires inT.Valid() && n == inT.numVerts && poly == inT.Poly() && ds == DistsTo(poly, plane)
    requires dists.Length == MAX_CLIPPED_POINTS && sides.Length == MAX_CLIPPED_POINTS
    modifies dists, sides
    ensures forall k :: 0 <= k < n ==> dists[k] == ds[k] && sides[k] == SideOf(ds[k])
    ensures front >= 0 && (front > 0 <==> HasSide(poly, plane, Front))
    ensures back >= 0 && (back > 0 <==> HasSide(poly, plane, Back))
  {
    front, back := 0, 0;
    var i := 0;
    while i < n
      invariant 0 <= i <= n
      invariant forall k :: 0 <= k < i ==> dists[k] == ds[k] && sides[k] == SideOf(ds[k])
      invariant (front > 0 <==> exists k :: 0 <= k < i && sides[k] == Front) && front >= 0
      invariant (back > 0 <==> exists k :: 0 <= k < i && sides[k] == Back) && back >= 0
    {
      var dot := Distance(plane, inT.verts[i]);
      dists[i] := dot;
      sides[i] := SideOf(dot);
      if sides[i] == Front {
        front := front + 1;
      } else if sides[i] == Back {
        back := back + 1;
      }
      i := i + 1;
    }
    forall k | 0 <= k < n
      ensures SideAt(poly, plane, k) == sides[k]
    {
      assert ds[k] == Distance(plane, poly[k].v);
    }
  }

  /**
   * The output loop of ChopWinding: walks the corners of inT (whose first
   * corner is duplicated at index n) and writes to outT, pass after pass,
   * what each pass appends; es[k] is what pass k appends.
   */
  method EmitCorners(inT: ClipTri, outT: ClipTri, n: int, sides: array<Side>, dists: array<real>,
                     ghost es: seq<seq<ClipVert>>)
    requires PingPong(inT, outT) && 0 < n == |es| < MAX_CLIPPED_POINTS
    requires sides.Length == MAX_CLIPPED_POINTS && dists.Length == MAX_CLIPPED_POINTS
    requires forall k :: 0 <= k <= n ==> sides[k] == SideOf(dists[k])
    requires forall k :: 0 <= k < n ==>
      es[k] == KeptFrom(inT.verts[k], inT.edgeFlags[k], sides[k], sides[k + 1])
             + SplitFrom(inT.verts[k], inT.verts[k + 1], inT.edgeFlags[k], dists[k], dists[k + 1])
    requires |Concat(es[..n])| <= MAX_CLIPPED_POINTS
    modifies outT, outT.verts, outT.edgeFlags
    ensures PingPong(inT, outT) && outT.Poly() == Concat(es[..n])
  {
    outT.numVerts := 0;
    var i := 0;
    while i < n
      invariant 0 <= i <= n && outT.Valid()
      invariant outT.Poly() == Concat(es[..i])
    {
      assert outT.numVerts + |es[i]| <= MAX_CLIPPED_POINTS && Concat(es[..i + 1]) == Concat(es[..i]) + es[i] by {
        ConcatPrefix(es, i + 1, n);
        ConcatStep(es, i);
      }
      EmitCorner(inT, outT, i, sides, dists);
      i := i + 1;
    }
  }

  /**
   * One pass of the output loop of ChopWinding: keeps corner i unless it is
   * behind the plane, then adds the split point if the edge to corner i+1
   * crosses the plane.
   */
  method EmitCorner(inT: ClipTri, outT: ClipTri, i: int, sides: array<Side>, dists: array<real>)
    requires PingPong(inT, outT) && 0 <= i < MAX_CLIPPED_POINTS - 1
    requires sides.Length == MAX_CLIPPED_POINTS && dists.Length == MAX_CLIPPED_POINTS
    requires sides[i] == SideOf(dists[i]) && sides[i + 1] == SideOf(dists[i + 1])
    requires outT.numVerts + |KeptFrom(inT.verts[i], inT.edgeFlags[i], sides[i], sides[i + 1])|
      + |SplitFrom(inT.verts[i], inT.verts[i + 1], inT.edgeFlags[i], dists[i], dists[i + 1])| <= MAX_CLIPPED_POINTS
    modifies outT, outT.verts, outT.edgeFlags
    ensures PingPong(inT, outT)
    ensures outT.Poly() == old(outT.Poly()) + KeptFrom(inT.verts[i], inT.edgeFlags[i], sides[i], sides[i + 1])
      + SplitFrom(inT.verts[i], inT.verts[i + 1], inT.edgeFlags[i], dists[i], dists[i + 1])
  {
    var p1 := inT.verts[i];
    if sides[i] != Back {
      if sides[i] == On && sides[i + 1] == Back {
        outT.Push(p1, 1);
      } else {
        outT.Push(p1, inT.edgeFlags[i]);
      }
    }
    if (sides[i] == Front && sides[i + 1] == Back) || (sides[i] == Back && sides[i + 1] == Front) {
      // generate a split point
      var p2 := inT.verts[i + 1];
      var mid := SplitPoint(p1, p2, dists[i], dists[i + 1]);
      if sides[i + 1] != Front {
        outT.Push(mid, 1);
      } else {
        outT.Push(mid, inT.edgeFlags[i]);
      }
    }
  }

  /**
   * Clips buffer inNum of the ping-pong pair against the plane. The result
   * names the buffer holding ChopPoly of the old polygon: the other buffer
   * exactly when the polygon was cut.
   */
  method ChopWinding(tri0: ClipTri, tri1: ClipTri, inNum: int, plane: Plane) returns (r: int)
    requires PingPong(tri0, tri1) && (inNum == 0 || inNum == 1)
    requires ChopFits(Buffer(tri0, tri1, inNum).Poly(), plane)
    modifies tri0, tri0.verts, tri0.edgeFlags, tri1, tri1.verts, tri1.edgeFlags
    ensures PingPong(tri0, tri1)
    ensures r == if Splits(old(Buffer(tri0, tri1, inNum).Poly()), plane) then 1 - inNum else inNum
    ensures Buffer(tri0, tri1, r).Poly() == ChopPoly(old(Buffer(tri0, tri1, inNum).Poly()), plane)
    ensures r != inNum ==> Buffer(tri0, tri1, inNum).Poly() == old(Buffer(tri0, tri1, inNum).Poly())
  {
    var split;
    if inNum == 0 {
      split := ChopInto(tri0, tri1, plane);
    } else {
      split := ChopInto(tri1, tri0, plane);
    }
    r := if split then 1 - inNum else inNum;
  }
}
