// Per-vertex cull codes of the shadow builder and the macros that classify
// triangles and edges from them (neo/tools/compilers/dmap/shadowopt3.cpp:33-37,
// 1332-1379).
//
// A cull code is a 12-bit word. For frustum plane i (0..5):
//   bit i     -- the vertex is not clearly in front of plane i (d < eps)
//   bit i + 6 -- the vertex is not clearly behind plane i (d > -eps), or the
//                whole surface is in front of plane i.
module CullBits {
  type Code = bv16

  /** Position of a bit in a cull code. */
  type BitIndex = bv4

  const LOW_BITS: Code := 0x3f
  const HIGH_BITS: Code := 0xfc0

  predicate Bit(c: Code, b: BitIndex) {
    (c >> b) & 1 == 1
  }

  /** x with bit b or-ed in when pass holds: one step of CmpLT / CmpGT. */
  function SetIf(x: Code, pass: bool, b: BitIndex): Code {
    x | (if pass then (1 as Code) << b else 0)
  }

  // ---------------------------------------------------------------------
  // The macros (shadowopt3.cpp:33-37)

  function TriangleCulled(p1: Code, p2: Code, p3: Code): Code { p1 & p2 & p3 & LOW_BITS }
  predicate TriangleClipped(p1: Code, p2: Code, p3: Code) { (p1 & p2 & p3) & HIGH_BITS != HIGH_BITS }
  predicate PointCulled(p: Code) { p & HIGH_BITS != HIGH_BITS }
  function EdgeCulled(p1: Code, p2: Code): Code { (p1 ^ HIGH_BITS) & (p2 ^ HIGH_BITS) & HIGH_BITS }
  predicate EdgeClipped(p1: Code, p2: Code) { p1 & p2 & HIGH_BITS != HIGH_BITS }

  lemma MaskBit(i: BitIndex, b: BitIndex)
    ensures Bit((1 as Code) << i, b) <==> i == b
  {
  }

  lemma LowBitsNonzero(x: Code)
    ensures x & LOW_BITS != 0 <==> Bit(x, 0) || Bit(x, 1) || Bit(x, 2) || Bit(x, 3) || Bit(x, 4) || Bit(x, 5)
  {
  }

  lemma HighBitsFull(x: Code)
    ensures x & HIGH_BITS == HIGH_BITS <==>
      Bit(x, 6) && Bit(x, 7) && Bit(x, 8) && Bit(x, 9) && Bit(x, 10) && Bit(x, 11)
  {
  }

  lemma HighBitsNonzero(x: Code)
    ensures x & HIGH_BITS != 0 <==>
      Bit(x, 6) || Bit(x, 7) || Bit(x, 8) || Bit(x, 9) || Bit(x, 10) || Bit(x, 11)
  {
  }

  lemma BitAnd(x: Code, y: Code, b: BitIndex)
    ensures Bit(x & y, b) <==> Bit(x, b) && Bit(y, b)
  {
  }

  lemma BitAnd3(x: Code, y: Code, z: Code, b: BitIndex)
    ensures Bit(x & y & z, b) <==> Bit(x, b) && Bit(y, b) && Bit(z, b)
  {
  }

  lemma BitOr(x: Code, y: Code, b: BitIndex)
    ensures Bit(x | y, b) <==> Bit(x, b) || Bit(y, b)
  {
  }

  lemma BitBothBehind(x: Code, y: Code, b: BitIndex)
    requires 6 <= b < 12
    ensures Bit((x ^ HIGH_BITS) & (y ^ HIGH_BITS), b) <==> !Bit(x, b) && !Bit(y, b)
  {
  }

  /** A triangle is culled iff some plane has all three vertices not clearly in front of it. */
  lemma TriangleCulledIff(p1: Code, p2: Code, p3: Code)
    ensures TriangleCulled(p1, p2, p3) != 0 <==>
      exists b: BitIndex :: b < 6 && Bit(p1, b) && Bit(p2, b) && Bit(p3, b)
  {
    var x := p1 & p2 & p3;
    assert TriangleCulled(p1, p2, p3) == x & LOW_BITS;
    LowBitsNonzero(x);
    forall b: BitIndex | b < 6
      ensures Bit(x, b) <==> Bit(p1, b) && Bit(p2, b) && Bit(p3, b)
    {
      BitAnd3(p1, p2, p3, b);
    }
  }

  /** A triangle must be clipped iff for some plane not all three codes carry the "not behind" bit. */
  lemma TriangleClippedIff(p1: Code, p2: Code, p3: Code)
    ensures TriangleClipped(p1, p2, p3) <==>
      exists b: BitIndex :: 6 <= b < 12 && !(Bit(p1, b) && Bit(p2, b) && Bit(p3, b))
  {
    var x := p1 & p2 & p3;
    HighBitsFull(x);
    forall b: BitIndex | 6 <= b < 12
      ensures Bit(x, b) <==> Bit(p1, b) && Bit(p2, b) && Bit(p3, b)
    {
      BitAnd3(p1, p2, p3, b);
    }
  }

  /** A point is culled iff it is clearly behind some plane; a point on a plane is kept. */
  lemma PointCulledIff(p: Code)
    ensures PointCulled(p) <==> exists b: BitIndex :: 6 <= b < 12 && !Bit(p, b)
  {
    HighBitsFull(p);
  }

  /** An edge is culled iff both endpoints are clearly behind the same plane. */
  lemma EdgeCulledIff(p1: Code, p2: Code)
    ensures EdgeCulled(p1, p2) != 0 <==> exists b: BitIndex :: 6 <= b < 12 && !Bit(p1, b) && !Bit(p2, b)
  {
    var x := (p1 ^ HIGH_BITS) & (p2 ^ HIGH_BITS);
    assert EdgeCulled(p1, p2) == x & HIGH_BITS;
    HighBitsNonzero(x);
    forall b: BitIndex | 6 <= b < 12
      ensures Bit(x, b) <==> !Bit(p1, b) && !Bit(p2, b)
    {
      BitBothBehind(p1, p2, b);
    }
  }

  /** An edge must be clipped iff one of its endpoints is clearly behind some plane. */
  lemma EdgeClippedIff(p1: Code, p2: Code)
    ensures EdgeClipped(p1, p2) <==> exists b: BitIndex :: 6 <= b < 12 && !(Bit(p1, b) && Bit(p2, b))
  {
    var x := p1 & p2;
    HighBitsFull(x);
    forall b: BitIndex | 6 <= b < 12
      ensures Bit(x, b) <==> Bit(p1, b) && Bit(p2, b)
    {
      BitAnd(p1, p2, b);
    }
  }

  /** A triangle that needs no clipping has no culled corner. */
  lemma UnclippedCornersKept(p1: Code, p2: Code, p3: Code)
    ensures !TriangleClipped(p1, p2, p3) ==> !PointCulled(p1) && !PointCulled(p2) && !PointCulled(p3)
  {
  }

  /** A culled edge has both endpoints culled, and an edge with a culled endpoint is clipped. */
  lemma EdgeCulledImpliesClipped(p1: Code, p2: Code)
    ensures EdgeCulled(p1, p2) != 0 ==> PointCulled(p1) && PointCulled(p2) && EdgeClipped(p1, p2)
    ensures PointCulled(p1) || PointCulled(p2) ==> EdgeClipped(p1, p2)
  {
  }
}

// CalcPointCull (shadowopt3.cpp:1332-1379): the cull code of every vertex.
module ShadowCull {
  import opened ShadowGeometry
  import opened CullBits

  /** The bit of plane p in a cull code's low half (p) or high half (p + 6). */
  function LowBit(p: nat): (b: BitIndex)
    requires p < 6
    ensures b < 6
  {
    if p == 0 then 0 else if p == 1 then 1 else if p == 2 then 2
    else if p == 3 then 3 else if p == 4 then 4 else 5
  }

  function HighBit(p: nat): (b: BitIndex)
    requires p < 6
    ensures 6 <= b < 12 && b - 6 == LowBit(p)
  {
    if p == 0 then 6 else if p == 1 then 7 else if p == 2 then 8
    else if p == 3 then 9 else if p == 4 then 10 else 11
  }

  lemma HighMask(q: nat, p: nat)
    requires q < 6 && p < 6
    ensures Bit((1 as Code) << HighBit(q), HighBit(p)) <==> q == p
    ensures !Bit((1 as Code) << HighBit(q), LowBit(p))
    ensures ((1 as Code) << HighBit(q)) & 0xf03f == 0
  {
  }

  lemma LowMask(q: nat, p: nat)
    requires q < 6 && p < 6
    ensures Bit((1 as Code) << LowBit(q), LowBit(p)) <==> q == p
    ensures ((1 as Code) << LowBit(q)) & 0xffc0 == 0
  {
  }

  lemma OrClearHigh(x: Code, y: Code)
    requires x & 0xf03f == 0 && y & 0xf03f == 0
    ensures (x | y) & 0xf03f == 0
  {
  }

  lemma OrClearLow(x: Code, y: Code)
    requires x & 0xffc0 == 0 && y & 0xffc0 == 0
    ensures (x | y) & 0xffc0 == 0
  {
  }

  /** A high bit of front | s1 | (s2 << 6) comes from front or from s2's matching low bit. */
  lemma CombineHigh(front: Code, s1: Code, s2: Code, b: BitIndex)
    requires s1 & 0xffc0 == 0 && 6 <= b < 12
    ensures Bit(front | s1 | (s2 << 6), b) <==> Bit(front, b) || Bit(s2, b - 6)
  {
  }

  /** A low bit of front | s1 | (s2 << 6) comes from s1 alone. */
  lemma CombineLow(front: Code, s1: Code, s2: Code, b: BitIndex)
    requires front & 0xf03f == 0 && b < 6
    ensures Bit(front | s1 | (s2 << 6), b) <==> Bit(s1, b)
  {
  }

  lemma FullHigh(x: Code, b: BitIndex)
    requires x == HIGH_BITS && 6 <= b < 12
    ensures Bit(x, b)
  {
  }

  lemma CombineClear(front: Code, s1: Code, s2: Code)
    requires front & 0xf03f == 0 && s1 & 0xffc0 == 0 && s2 & 0xffc0 == 0
    ensures (front | s1 | (s2 << 6)) & 0xf000 == 0
  {
  }

  /** Bit p+6 for each of the planes p < k that the whole surface bounds lie in front of. */
  function FrontBitsUpTo(boundsDist: seq<real>, k: nat): Code
    requires k <= 6 <= |boundsDist|
  {
    if k == 0 then 0
    else
      var bit: Code := if boundsDist[k - 1] >= LIGHT_CLIP_EPSILON then (1 as Code) << HighBit(k - 1) else 0;
      FrontBitsUpTo(boundsDist, k - 1) | bit
  }

  /** One more plane in FrontBitsUpTo, given the bits so far and the new plane's bit. */
  lemma FrontBitsStep(boundsDist: seq<real>, k: nat, f: Code, bit: Code)
    requires k < 6 <= |boundsDist| && f == FrontBitsUpTo(boundsDist, k)
    requires bit == if boundsDist[k] >= LIGHT_CLIP_EPSILON then (1 as Code) << HighBit(k) else 0
    ensures FrontBitsUpTo(boundsDist, k + 1) == f | bit
  {
  }

  function FrontBits(boundsDist: seq<real>): Code
    requires |boundsDist| == 6
  {
    FrontBitsUpTo(boundsDist, 6)
  }

  lemma {:induction false} FrontBitsUpToBits(boundsDist: seq<real>, k: nat, p: nat)
    requires k <= 6 <= |boundsDist| && p < 6
    ensures Bit(FrontBitsUpTo(boundsDist, k), HighBit(p)) <==> p < k && boundsDist[p] >= LIGHT_CLIP_EPSILON
    ensures !Bit(FrontBitsUpTo(boundsDist, k), LowBit(p))
    ensures FrontBitsUpTo(boundsDist, k) & 0xf03f == 0
  {
    if k > 0 {
      FrontBitsUpToBits(boundsDist, k - 1, p);
      var prev := FrontBitsUpTo(boundsDist, k - 1);
      var bit: Code := if boundsDist[k - 1] >= LIGHT_CLIP_EPSILON then (1 as Code) << HighBit(k - 1) else 0;
      BitOr(prev, bit, HighBit(p));
      BitOr(prev, bit, LowBit(p));
      HighMask(k - 1, p);
      OrClearHigh(prev, bit);
    }
  }

  /** The comparison CmpLT (below) or CmpGT (not below) makes of a plane distance. */
  predicate Passes(dist: real, below: bool) {
    if below then dist < LIGHT_CLIP_EPSILON else dist > -LIGHT_CLIP_EPSILON
  }

  /**
   * Plane p's bit in the comparison byte of a vertex with distances d: set when
   * the surface is not wholly in front of plane p and d[p] passes.
   */
  function CmpBit(boundsDist: seq<real>, d: seq<real>, p: nat, below: bool): Code
    requires p < 6 <= |boundsDist| && 6 <= |d|
  {
    if boundsDist[p] < LIGHT_CLIP_EPSILON && Passes(d[p], below) then (1 as Code) << LowBit(p) else 0
  }

  /** The byte that CmpLT (below) or CmpGT (not below) builds over planes 0..k-1. */
  function CmpBitsUpTo(boundsDist: seq<real>, d: seq<real>, k: nat, below: bool): Code
    requires k <= 6 <= |boundsDist| && 6 <= |d|
  {
    if k == 0 then 0
    else CmpBitsUpTo(boundsDist, d, k - 1, below) | CmpBit(boundsDist, d, k - 1, below)
  }

  /** One more plane in CmpBitsUpTo, given the byte x so far and the new plane's bit m. */
  lemma CmpBitsStep(boundsDist: seq<real>, d: seq<real>, k: nat, below: bool, x: Code, m: Code)
    requires k < 6 <= |boundsDist| && 6 <= |d|
    requires x == CmpBitsUpTo(boundsDist, d, k, below) && m == CmpBit(boundsDist, d, k, below)
    ensures CmpBitsUpTo(boundsDist, d, k + 1, below) == x | m
  {
  }

  /** For a plane the surface is not wholly in front of, the bit is the comparison's outcome. */
  lemma CmpBitPasses(boundsDist: seq<real>, d: seq<real>, k: nat, below: bool)
    requires k < 6 <= |boundsDist| && 6 <= |d| && boundsDist[k] < LIGHT_CLIP_EPSILON
    ensures CmpBit(boundsDist, d, k, below) == if Passes(d[k], below) then (1 as Code) << LowBit(k) else 0
  {
  }

  /** For a plane the whole surface is in front of, the bit is clear. */
  lemma CmpBitSkipped(boundsDist: seq<real>, d: seq<real>, k: nat, below: bool)
    requires k < 6 <= |boundsDist| && 6 <= |d| && boundsDist[k] >= LIGHT_CLIP_EPSILON
    ensures CmpBit(boundsDist, d, k, below) == 0
  {
  }

  lemma OrZero(x: Code)
    ensures x | 0 == x
  {
  }

  /**
   * The code CalcPointCull stores for a vertex whose distances to the six
   * frustum planes are d, given the distances of the surface bounds.
   */
  function VertexCullCode(boundsDist: seq<real>, d: seq<real>): Code
    requires |boundsDist| == 6 && |d| == 6
  {
    var front := FrontBits(boundsDist);
    if front == HIGH_BITS then front
    else front | CmpBitsUpTo(boundsDist, d, 6, true) | (CmpBitsUpTo(boundsDist, d, 6, false) << 6)
  }

  lemma {:induction false} CmpBitsUpToBits(boundsDist: seq<real>, d: seq<real>, k: nat, below: bool, p: nat)
    requires k <= 6 <= |boundsDist| && 6 <= |d| && p < 6
    ensures Bit(CmpBitsUpTo(boundsDist, d, k, below), LowBit(p)) <==>
      p < k && boundsDist[p] < LIGHT_CLIP_EPSILON && Passes(d[p], below)
    ensures CmpBitsUpTo(boundsDist, d, k, below) & 0xffc0 == 0
  {
    if k > 0 {
      CmpBitsUpToBits(boundsDist, d, k - 1, below, p);
      var bit := CmpBit(boundsDist, d, k - 1, below);
      var prev := CmpBitsUpTo(boundsDist, d, k - 1, below);
      BitOr(prev, bit, LowBit(p));
      LowMask(k - 1, p);
      OrClearLow(prev, bit);
    }
  }

  /**
   * Bit p+6 of a vertex's cull code is set iff the surface is in front of
   * plane p or the vertex is not clearly behind it.
   */
  lemma VertexCullCodeHigh(boundsDist: seq<real>, d: seq<real>, p: nat)
    requires |boundsDist| == 6 && |d| == 6 && p < 6
    ensures Bit(VertexCullCode(boundsDist, d), HighBit(p)) <==>
      boundsDist[p] >= LIGHT_CLIP_EPSILON || d[p] > -LIGHT_CLIP_EPSILON
  {
    var front := FrontBits(boundsDist);
    FrontBitsUpToBits(boundsDist, 6, p);
    if front == HIGH_BITS {
      FullHigh(front, HighBit(p));
    } else {
      var s1 := CmpBitsUpTo(boundsDist, d, 6, true);
      var s2 := CmpBitsUpTo(boundsDist, d, 6, false);
      CmpBitsUpToBits(boundsDist, d, 6, true, p);
      CmpBitsUpToBits(boundsDist, d, 6, false, p);
      CombineHigh(front, s1, s2, HighBit(p));
    }
  }

  /**
   * Bit p of a vertex's cull code is set iff neither the surface nor the
   * vertex is clearly in front of plane p.
   */
  lemma VertexCullCodeLow(boundsDist: seq<real>, d: seq<real>, p: nat)
    requires |boundsDist| == 6 && |d| == 6 && p < 6
    ensures Bit(VertexCullCode(boundsDist, d), LowBit(p)) <==>
      boundsDist[p] < LIGHT_CLIP_EPSILON && d[p] < LIGHT_CLIP_EPSILON
  {
    var front := FrontBits(boundsDist);
    FrontBitsUpToBits(boundsDist, 6, p);
    if front == HIGH_BITS {
      FullHigh(front, HighBit(p));
    } else {
      var s1 := CmpBitsUpTo(boundsDist, d, 6, true);
      var s2 := CmpBitsUpTo(boundsDist, d, 6, false);
      CmpBitsUpToBits(boundsDist, d, 6, true, p);
      CombineLow(front, s1, s2, LowBit(p));
    }
  }

  /** A cull code uses only the twelve plane bits. */
  lemma VertexCullCodeClear(boundsDist: seq<real>, d: seq<real>)
    requires |boundsDist| == 6 && |d| == 6
    ensures VertexCullCode(boundsDist, d) & 0xf000 == 0
  {
    var front := FrontBits(boundsDist);
    FrontBitsUpToBits(boundsDist, 6, 0);
    if front != HIGH_BITS {
      var s1 := CmpBitsUpTo(boundsDist, d, 6, true);
      var s2 := CmpBitsUpTo(boundsDist, d, 6, false);
      CmpBitsUpToBits(boundsDist, d, 6, true, 0);
      CmpBitsUpToBits(boundsDist, d, 6, false, 0);
      CombineClear(front, s1, s2);
    }
  }

  /** Distances of a vertex to the six frustum planes. */
  function PlaneDists(frustum: seq<Plane>, v: Vec3): (d: seq<real>)
    requires |frustum| == 6
    ensures |d| == 6 && forall i :: 0 <= i < 6 ==> d[i] == Distance(frustum[i], v)
  {
    [Distance(frustum[0], v), Distance(frustum[1], v), Distance(frustum[2], v),
     Distance(frustum[3], v), Distance(frustum[4], v), Distance(frustum[5], v)]
  }

  /** Bit b of x is read by and-ing x with the mask 1 << b. */
  lemma MaskTest(x: Code, b: BitIndex)
    ensures x & ((1 as Code) << b) != 0 <==> Bit(x, b)
  {
  }

  /** SIMDProcessor->Dot against a plane: the distance of every vertex. */
  function PlaneSide(plane: Plane, verts: seq<Vec3>): (r: seq<real>)
    ensures |r| == |verts| && forall j :: 0 <= j < |verts| ==> r[j] == Distance(plane, verts[j])
  {
    seq(|verts|, j requires 0 <= j < |verts| => Distance(plane, verts[j]))
  }

  /**
   * SIMDProcessor->CmpLT: or (src[j] < constant) into bit bitNum of dst[j].
   * The source's byte entries are widened to cull codes here.
   */
  method CmpLT(dst: array<Code>, bitNum: BitIndex, src: seq<real>, constant: real)
    requires dst.Length == |src|
    modifies dst
    ensures forall j :: 0 <= j < |src| ==>
      dst[j] == SetIf(old(dst[j]), src[j] < constant, bitNum)
  {
    var j := 0;
    while j < |src|
      invariant 0 <= j <= |src|
      invariant forall k :: 0 <= k < j ==>
        dst[k] == SetIf(old(dst[k]), src[k] < constant, bitNum)
      invariant forall k :: j <= k < |src| ==> dst[k] == old(dst[k])
    {
      dst[j] := SetIf(dst[j], src[j] < constant, bitNum);
      j := j + 1;
    }
  }

  /** SIMDProcessor->CmpGT: or (src[j] > constant) into bit bitNum of dst[j]. */
  method CmpGT(dst: array<Code>, bitNum: BitIndex, src: seq<real>, constant: real)
    requires dst.Length == |src|
    modifies dst
    ensures forall j :: 0 <= j < |src| ==>
      dst[j] == SetIf(old(dst[j]), src[j] > constant, bitNum)
  {
    var j := 0;
    while j < |src|
      invariant 0 <= j <= |src|
      invariant forall k :: 0 <= k < j ==>
        dst[k] == SetIf(old(dst[k]), src[k] > constant, bitNum)
      invariant forall k :: j <= k < |src| ==> dst[k] == old(dst[k])
    {
      dst[j] := SetIf(dst[j], src[j] > constant, bitNum);
      j := j + 1;
    }
  }

  /** The first loop of CalcPointCull: the front bits of the whole surface. */
  method SurfaceFrontBits(boundsDist: seq<real>) returns (frontBits: Code)
    requires |boundsDist| == 6
    ensures frontBits == FrontBits(boundsDist)
  {
    frontBits := 0;
    var i := 0;
    while i < 6
      invariant 0 <= i <= 6
      invariant frontBits == FrontBitsUpTo(boundsDist, i)
    {
      var bit: Code := if boundsDist[i] >= LIGHT_CLIP_EPSILON then (1 as Code) << HighBit(i) else 0;
      FrontBitsStep(boundsDist, i, frontBits, bit);
      frontBits := frontBits | bit;
      i := i + 1;
    }
  }

  /** The comparison bytes of every vertex over planes 0..k-1. */
  function Column(boundsDist: seq<real>, ds: seq<seq<real>>, k: nat, below: bool): (c: seq<Code>)
    requires k <= 6 <= |boundsDist| && forall v :: 0 <= v < |ds| ==> |ds[v]| == 6
    ensures |c| == |ds| && forall v :: 0 <= v < |ds| ==> c[v] == CmpBitsUpTo(boundsDist, ds[v], k, below)
  {
    seq(|ds|, v requires 0 <= v < |ds| => CmpBitsUpTo(boundsDist, ds[v], k, below))
  }

  /** One vertex's byte after CmpLT or CmpGT has or-ed in the outcome for plane k. */
  lemma VertexStep(boundsDist: seq<real>, d: seq<real>, k: nat, below: bool, x: Code, y: Code)
    requires k < 6 <= |boundsDist| && boundsDist[k] < LIGHT_CLIP_EPSILON && |d| == 6
    requires x == CmpBitsUpTo(boundsDist, d, k, below)
    requires y == SetIf(x, Passes(d[k], below), LowBit(k))
    ensures y == CmpBitsUpTo(boundsDist, d, k + 1, below)
  {
    CmpBitPasses(boundsDist, d, k, below);
    CmpBitsStep(boundsDist, d, k, below, x, CmpBit(boundsDist, d, k, below));
  }

  /**
   * The plane step of SideBits: after CmpLT or CmpGT has or-ed its outcome
   * into every byte, each byte covers one more plane.
   */
  lemma SideStep(boundsDist: seq<real>, ds: seq<seq<real>>, k: nat, below: bool,
                 before: seq<Code>, after: seq<Code>)
    requires k < 6 <= |boundsDist| && boundsDist[k] < LIGHT_CLIP_EPSILON
    requires |after| == |ds| && forall v :: 0 <= v < |ds| ==> |ds[v]| == 6
    requires before == Column(boundsDist, ds, k, below)
    requires forall v :: 0 <= v < |ds| ==> after[v] == SetIf(before[v], Passes(ds[v][k], below), LowBit(k))
    ensures after == Column(boundsDist, ds, k + 1, below)
  {
    forall v | 0 <= v < |ds|
      ensures after[v] == CmpBitsUpTo(boundsDist, ds[v], k + 1, below)
    {
      VertexStep(boundsDist, ds[v], k, below, before[v], after[v]);
    }
  }

  /** A plane the whole surface is in front of leaves every byte as it is. */
  lemma SideSkip(boundsDist: seq<real>, ds: seq<seq<real>>, k: nat, below: bool)
    requires k < 6 <= |boundsDist| && boundsDist[k] >= LIGHT_CLIP_EPSILON
    requires forall v :: 0 <= v < |ds| ==> |ds[v]| == 6
    ensures Column(boundsDist, ds, k + 1, below) == Column(boundsDist, ds, k, below)
  {
    var side := Column(boundsDist, ds, k, below);
    forall v | 0 <= v < |ds|
      ensures side[v] == CmpBitsUpTo(boundsDist, ds[v], k + 1, below)
    {
      CmpBitSkipped(boundsDist, ds[v], k, below);
      CmpBitsStep(boundsDist, ds[v], k, below, side[v], 0);
      OrZero(side[v]);
    }
  }

  /**
   * One plane of SideBits that the surface is not wholly in front of: CmpLT
   * or-s its outcome into the first bytes, CmpGT into the second ones.
   */
  method MarkPlane(s1: array<Code>, s2: array<Code>, k: nat, planeSide: seq<real>,
                   ghost boundsDist: seq<real>, ghost ds: seq<seq<real>>)
    requires s1 != s2 && k < 6 <= |boundsDist| && boundsDist[k] < LIGHT_CLIP_EPSILON
    requires s1.Length == |planeSide| && s2.Length == |planeSide| && |ds| == |planeSide|
    requires forall v :: 0 <= v < |ds| ==> |ds[v]| == 6 && ds[v][k] == planeSide[v]
    requires s1[..] == Column(boundsDist, ds, k, true) && s2[..] == Column(boundsDist, ds, k, false)
    modifies s1, s2
    ensures s1[..] == Column(boundsDist, ds, k + 1, true) && s2[..] == Column(boundsDist, ds, k + 1, false)
  {
    ghost var before1, before2 := s1[..], s2[..];
    CmpLT(s1, LowBit(k), planeSide, LIGHT_CLIP_EPSILON);
    SideStep(boundsDist, ds, k, true, before1, s1[..]);
    CmpGT(s2, LowBit(k), planeSide, -LIGHT_CLIP_EPSILON);
    SideStep(boundsDist, ds, k, false, before2, s2[..]);
  }

  /** The distances of every vertex to the six frustum planes. */
  function AllPlaneDists(frustum: seq<Plane>, verts: seq<Vec3>): (ds: seq<seq<real>>)
    requires |frustum| == 6
    ensures |ds| == |verts| && forall v :: 0 <= v < |verts| ==> ds[v] == PlaneDists(frustum, verts[v])
  {
    seq(|verts|, v requires 0 <= v < |verts| => PlaneDists(frustum, verts[v]))
  }

  /**
   * The plane loop of CalcPointCull: for every plane the surface is not
   * wholly in front of, CmpLT fills side1 and CmpGT fills side2.
   */
  method SideBits(boundsDist: seq<real>, frustum: seq<Plane>, verts: seq<Vec3>)
    returns (side1: seq<Code>, side2: seq<Code>)
    requires |boundsDist| == 6 && |frustum| == 6
    ensures |side1| == |verts| && |side2| == |verts|
    ensures forall v :: 0 <= v < |verts| ==>
      side1[v] == CmpBitsUpTo(boundsDist, PlaneDists(frustum, verts[v]), 6, true)
    ensures forall v :: 0 <= v < |verts| ==>
      side2[v] == CmpBitsUpTo(boundsDist, PlaneDists(frustum, verts[v]), 6, false)
  {
    var n := |verts|;
    ghost var ds := AllPlaneDists(frustum, verts);
    var frontBits := SurfaceFrontBits(boundsDist);
    var s1 := new Code[n](_ => 0);
    var s2 := new Code[n](_ => 0);
    assert s1[..] == Column(boundsDist, ds, 0, true);
    assert s2[..] == Column(boundsDist, ds, 0, false);
    var i := 0;
    while i < 6
      modifies s1, s2
      invariant 0 <= i <= 6
      invariant s1[..] == Column(boundsDist, ds, i, true)
      invariant s2[..] == Column(boundsDist, ds, i, false)
    {
      FrontBitsUpToBits(boundsDist, 6, i);
      MaskTest(frontBits, HighBit(i));
      if frontBits & ((1 as Code) << HighBit(i)) != 0 {
        SideSkip(boundsDist, ds, i, true);
        SideSkip(boundsDist, ds, i, false);
      } else {
        MarkPlane(s1, s2, i, PlaneSide(frustum[i], verts), boundsDist, ds);
      }
      i := i + 1;
    }
    side1, side2 := s1[..], s2[..];
  }

  /**
   * CalcPointCull without its remap initialisation (done by the builder): one
   * code per vertex. The surface bounds' plane distances come from idBounds,
   * which is not part of this model, and are an input.
   */
  method CalcPointCull(boundsDist: seq<real>, frustum: seq<Plane>, verts: seq<Vec3>)
    returns (pointCull: seq<Code>)
    requires |boundsDist| == 6 && |frustum| == 6
    ensures |pointCull| == |verts|
    ensures forall v :: 0 <= v < |verts| ==>
      pointCull[v] == VertexCullCode(boundsDist, PlaneDists(frustum, verts[v]))
  {
    var n := |verts|;
    var frontBits := SurfaceFrontBits(boundsDist);
    var cull := new Code[n];
    var i := 0;
    while i < n
      invariant 0 <= i <= n
      invariant forall v :: 0 <= v < i ==> cull[v] == frontBits
    {
      cull[i] := frontBits;
      i := i + 1;
    }
    if frontBits == HIGH_BITS {
      return cull[..];
    }
    var side1, side2 := SideBits(boundsDist, frustum, verts);
    i := 0;
    while i < n
      invariant 0 <= i <= n
      invariant forall v :: 0 <= v < i ==> cull[v] == VertexCullCode(boundsDist, PlaneDists(frustum, verts[v]))
      invariant forall v :: i <= v < n ==> cull[v] == frontBits
    {
      cull[i] := cull[i] | side1[i] | (side2[i] << 6);
      i := i + 1;
    }
    return cull[..];
  }
}
