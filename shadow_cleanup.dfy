// CleanupOptimizedShadowTris (neo/tools/compilers/dmap/shadowopt3.cpp:1233-1318):
// welds the vertices of an optimized shadow surface across the frusta that
// produced it, remaps the indexes onto the welded vertices, throws out each
// silhouette quad that meets a quad running the other way along the same
// edge (the seams between frusta), and finally removes degenerate
// triangles. Indexes are unsigned in the source and non-negative here.
module ShadowCleanup {
  import opened ShadowGeometry
  import opened ShadowWeld
  import opened ShadowDegenerate
  import ShadowOptimize

  // ---------------------------------------------------------------------
  // The index range check

  /** The check as written: an index fails only when it is above numVerts (or negative). */
  predicate RangeCheckAsWritten(s: seq<int>, numVerts: int): (passes: bool)
    ensures IndexesInRange(s, numVerts) ==> passes
    ensures passes ==> forall k :: 0 <= k < |s| ==> 0 <= s[k] <= numVerts
  {
    forall k :: 0 <= k < |s| ==> !(s[k] > numVerts || s[k] < 0)
  }

  /** What the remap lookup needs: every index names one of the numVerts vertices. */
  predicate IndexesInRange(s: seq<int>, numVerts: int) {
    forall k :: 0 <= k < |s| ==> 0 <= s[k] < numVerts
  }

  /**
   * The check as written lets an index equal to numVerts through, and the
   * lookup remap[numVerts] that follows is one past the end of remap.
   */
  lemma RangeCheckLetsEndThrough(numVerts: nat)
    ensures RangeCheckAsWritten([numVerts], numVerts) && !IndexesInRange([numVerts], numVerts)
  {
    var s := [numVerts];
    assert !(0 <= s[0] < numVerts);
  }

  /** The first loop of the source, as written. */
  method CheckRangeAsWritten(a: array<int>, n: int, numVerts: int) returns (ok: bool)
    requires 0 <= n <= a.Length
    ensures ok <==> RangeCheckAsWritten(a[..n], numVerts)
  {
    var i := 0;
    while i < n
      invariant 0 <= i <= n && RangeCheckAsWritten(a[..i], numVerts)
    {
      if a[i] > numVerts || a[i] < 0 {
        assert a[..n][i] == a[i];
        return false;
      }
      assert a[..i + 1] == a[..i] + [a[i]];
      i := i + 1;
    }
    assert a[..n] == a[..i];
    return true;
  }

  /** The same loop with the bound the remap lookup needs (>= in place of >). */
  method CheckRange(a: array<int>, n: int, numVerts: int) returns (ok: bool)
    requires 0 <= n <= a.Length
    ensures ok <==> IndexesInRange(a[..n], numVerts)
  {
    var i := 0;
    while i < n
      invariant 0 <= i <= n && IndexesInRange(a[..i], numVerts)
    {
      if a[i] >= numVerts || a[i] < 0 {
        assert a[..n][i] == a[i];
        return false;
      }
      assert a[..i + 1] == a[..i] + [a[i]];
      i := i + 1;
    }
    assert a[..n] == a[..i];
    return true;
  }

  // ---------------------------------------------------------------------
  // Remapping onto the welded vertices

  function Remapped(s: seq<int>, remap: seq<int>): (r: seq<int>)
    requires IndexesInRange(s, |remap|)
    ensures |r| == |s|
  {
    seq(|s|, k requires 0 <= k < |s| => remap[s[k]])
  }

  /** Every remapped index names a welded vertex close to the vertex it named before. */
  lemma RemapNamesCloseVertex(s: seq<int>, verts: seq<Vec3>)
    requires IndexesInRange(s, |verts|)
    ensures var t := Table([], verts); var r := Remapped(s, Indexes([], verts));
      IndexesInRange(r, |t|) && forall k :: 0 <= k < |s| ==> Close(verts[s[k]], t[r[k]])
  {
    WeldAllOk([], verts);
  }

  // ---------------------------------------------------------------------
  // Matched silhouette quads

  /** Quad p of the silhouette region: indexes 6 * p to 6 * p + 5. */
  function QuadAt(s: seq<int>, p: nat): seq<int>
    requires 6 * p + 6 <= |s|
  {
    s[6 * p..6 * p + 6]
  }

  predicate MatchAt(s: seq<int>, p: nat, q: nat)
    requires 6 * p + 6 <= |s| && 6 * q + 6 <= |s|
  {
    ShadowOptimize.QuadsMatch(QuadAt(s, p), QuadAt(s, q))
  }

  /** The inner search: the first quad from q on that matches quad p, or nq when none does. */
  function FindMatch(s: seq<int>, p: nat, q: nat, nq: nat): (r: nat)
    requires p < q <= nq && 6 * nq <= |s|
    ensures q <= r <= nq && (r < nq ==> MatchAt(s, p, r))
    ensures forall m :: q <= m < r ==> !MatchAt(s, p, m)
    decreases nq - q
  {
    if q == nq then nq else if MatchAt(s, p, q) then q else FindMatch(s, p, q + 1, nq)
  }

  /** Quads p and q taken out, everything after them moved down. */
  function RemovePair(s: seq<int>, p: nat, q: nat): (r: seq<int>)
    requires p < q && 6 * q + 6 <= |s|
    ensures |r| == |s| - 12
  {
    seq(|s| - 12, k requires 0 <= k < |s| - 12 => s[From(p, q, k)])
  }

  /** Where index k of RemovePair(s, p, q) was before. */
  function From(p: nat, q: nat, k: nat): nat {
    if k < 6 * p then k else if k + 6 < 6 * q then k + 6 else k + 12
  }

  /** The state of the matched-quad loop: the index list, the quad it is at, and the quads in the region. */
  datatype Sweeping = Sweeping(indexes: seq<int>, p: nat, numQuads: nat)

  predicate Inside(st: Sweeping) {
    st.p <= st.numQuads && 6 * st.numQuads <= |st.indexes|
  }

  /** One turn of the outer loop: move on, or take quad p and its match out and look at p again. */
  function Step(st: Sweeping): (r: Sweeping)
    requires Inside(st) && st.p < st.numQuads
    ensures Inside(r) && r.numQuads - r.p < st.numQuads - st.p && r.numQuads <= st.numQuads
    ensures |r.indexes| - 6 * r.numQuads == |st.indexes| - 6 * st.numQuads
  {
    var q := FindMatch(st.indexes, st.p, st.p + 1, st.numQuads);
    if q == st.numQuads then Sweeping(st.indexes, st.p + 1, st.numQuads)
    else Sweeping(RemovePair(st.indexes, st.p, q), st.p, st.numQuads - 2)
  }

  /** The outer loop run to its end. */
  function Sweep(st: Sweeping): (r: Sweeping)
    requires Inside(st)
    ensures Inside(r) && r.p == r.numQuads && r.numQuads <= st.numQuads
    ensures |r.indexes| - 6 * r.numQuads == |st.indexes| - 6 * st.numQuads
    decreases st.numQuads - st.p
  {
    if st.p == st.numQuads then st else Sweep(Step(st))
  }

  /** No quad before p matches a later quad of the region. */
  predicate NoMatchBefore(s: seq<int>, p: nat, nq: nat)
    requires 6 * nq <= |s|
  {
    forall a, b :: 0 <= a < p && a < b < nq ==> !MatchAt(s, a, b)
  }

  /** Where quad b of RemovePair(s, p, q) was before. */
  function Before(p: nat, q: nat, b: nat): nat {
    if b < p then b else if b + 1 < q then b + 1 else b + 2
  }

  lemma QuadAtRemovePair(s: seq<int>, p: nat, q: nat, b: nat)
    requires p < q && 6 * q + 6 <= |s| && 6 * b + 6 <= |s| - 12
    ensures 6 * Before(p, q, b) + 6 <= |s| && QuadAt(RemovePair(s, p, q), b) == QuadAt(s, Before(p, q, b))
  {
    var r := RemovePair(s, p, q);
    var b' := Before(p, q, b);
    forall k | 6 * b <= k < 6 * b + 6
      ensures r[k] == s[k + 6 * (b' - b)]
    {
    }
  }

  lemma RemovePairKeepsNoMatch(s: seq<int>, p: nat, q: nat, nq: nat)
    requires p < q < nq && 6 * nq <= |s| && NoMatchBefore(s, p, nq)
    ensures NoMatchBefore(RemovePair(s, p, q), p, nq - 2)
  {
    var r := RemovePair(s, p, q);
    forall a, b | 0 <= a < p && a < b < nq - 2
      ensures !MatchAt(r, a, b)
    {
      QuadAtRemovePair(s, p, q, a);
      QuadAtRemovePair(s, p, q, b);
      assert !MatchAt(s, a, Before(p, q, b));
    }
  }

  /**
   * What every turn keeps: no quad before p matches a later quad, and the
   * indexes after the region are those after the region of s0.
   */
  predicate SweepInv(s0: seq<int>, nq0: nat, st: Sweeping)
    requires Inside(st) && 6 * nq0 <= |s0|
  {
    NoMatchBefore(st.indexes, st.p, st.numQuads)
    && st.indexes[6 * st.numQuads..] == s0[6 * nq0..]
  }

  /** A turn that finds no match for quad p: quad p can be passed over. */
  lemma StepSkipInv(s0: seq<int>, nq0: nat, s: seq<int>, p: nat, nq: nat)
    requires p < nq && 6 * nq <= |s| && 6 * nq0 <= |s0|
    requires NoMatchBefore(s, p, nq) && s[6 * nq..] == s0[6 * nq0..]
    requires FindMatch(s, p, p + 1, nq) == nq
    ensures NoMatchBefore(s, p + 1, nq)
  {
  }

  /** The indexes after the region move down by the twelve taken out. */
  lemma RemovePairTail(s: seq<int>, p: nat, q: nat, nq: nat)
    requires p < q < nq && 6 * nq <= |s|
    ensures RemovePair(s, p, q)[6 * (nq - 2)..] == s[6 * nq..]
  {
    var t := RemovePair(s, p, q);
    assert |t[6 * (nq - 2)..]| == |s[6 * nq..]|;
    forall k | 0 <= k < |s| - 6 * nq
      ensures t[6 * (nq - 2)..][k] == s[6 * nq..][k]
    {
      assert t[6 * (nq - 2) + k] == s[6 * (nq - 2) + k + 12];
    }
  }

  lemma StepKeepsInv(s0: seq<int>, nq0: nat, st: Sweeping)
    requires Inside(st) && st.p < st.numQuads && 6 * nq0 <= |s0| && SweepInv(s0, nq0, st)
    ensures SweepInv(s0, nq0, Step(st))
  {
    var s, p, nq := st.indexes, st.p, st.numQuads;
    var q := FindMatch(s, p, p + 1, nq);
    if q == nq {
      StepSkipInv(s0, nq0, s, p, nq);
      assert Step(st) == Sweeping(s, p + 1, nq);
    } else {
      RemovePairKeepsNoMatch(s, p, q, nq);
      RemovePairTail(s, p, q, nq);
      assert Step(st) == Sweeping(RemovePair(s, p, q), p, nq - 2);
    }
  }

  lemma {:induction false} SweepKeepsInv(s0: seq<int>, nq0: nat, st: Sweeping)
    requires Inside(st) && 6 * nq0 <= |s0| && SweepInv(s0, nq0, st)
    ensures SweepInv(s0, nq0, Sweep(st))
    decreases st.numQuads - st.p
  {
    if st.p < st.numQuads {
      StepKeepsInv(s0, nq0, st);
      SweepKeepsInv(s0, nq0, Step(st));
    }
  }

  /**
   * After the sweep no silhouette quad left matches a later one, and the
   * indexes after the silhouette region are untouched.
   */
  lemma SweepMeaning(s: seq<int>, nq: nat)
    requires 6 * nq <= |s|
    ensures var r := Sweep(Sweeping(s, 0, nq));
      NoMatchBefore(r.indexes, r.numQuads, r.numQuads) && r.indexes[6 * r.numQuads..] == s[6 * nq..]
  {
    SweepKeepsInv(s, nq, Sweeping(s, 0, nq));
  }

  lemma RemovePairPrefix(s: seq<int>, p: nat, q: nat, L: int)
    requires p < q && 6 * q + 6 <= L <= |s|
    ensures RemovePair(s[..L], p, q) == RemovePair(s, p, q)[..L - 12]
  {
  }

  // ---------------------------------------------------------------------
  // The whole cleanup as a function of the surface

  /** The matched-quad loop over the remapped indexes. */
  function CleanupSweep(s: seq<int>, verts: seq<Vec3>, noCaps: int): (r: Sweeping)
    requires 0 <= noCaps <= |s| && noCaps % 6 == 0 && IndexesInRange(s, |verts|)
    ensures Inside(r) && 6 * r.numQuads <= noCaps && |r.indexes| == |s| - (noCaps - 6 * r.numQuads)
  {
    Sweep(Sweeping(Remapped(s, Indexes([], verts)), 0, noCaps / 6))
  }

  /** What CleanupOptimizedShadowTris leaves in the index list and the two counts. */
  function Cleanup(s: seq<int>, verts: seq<Vec3>, noCaps: int, noFrontCaps: int): Counted
    requires |s| % 3 == 0 && 0 <= noCaps <= |s| && noCaps % 6 == 0 && IndexesInRange(s, |verts|)
  {
    SweepDrop(Remapped(s, Indexes([], verts)), noCaps, noFrontCaps)
  }

  /** The part after the remap: the matched-quad loop, the counts lowered, then RemoveDegenerateTriangles. */
  function SweepDrop(r: seq<int>, noCaps: int, noFrontCaps: int): Counted
    requires |r| % 3 == 0 && 0 <= noCaps <= |r| && noCaps % 6 == 0
  {
    var sw := Sweep(Sweeping(r, 0, noCaps / 6));
    var removed := noCaps - 6 * sw.numQuads;
    OnTriangles(|r|, noCaps, sw.numQuads, removed, |sw.indexes|);
    DropFrom(sw.indexes, |sw.indexes| / 3, noCaps - removed, noFrontCaps - removed, 0)
  }

  /** Taking out the matched quads leaves a whole number of triangles. */
  lemma OnTriangles(n: int, noCaps: int, nq: int, removed: int, m: int)
    requires n % 3 == 0 && noCaps % 6 == 0 && removed == noCaps - 6 * nq && m == n - removed
    ensures m % 3 == 0
  {
    assert removed == 3 * (2 * (noCaps / 6) - 2 * nq);
    assert m == 3 * (n / 3 - 2 * (noCaps / 6) + 2 * nq);
  }

  /**
   * What the cleanup promises: the silhouette quads it keeps have no
   * reversed partner left and the indexes after them are the remapped
   * originals; the triangles left are the non-degenerate ones of the swept
   * list, in order, each with three distinct corners; and both counts
   * still end on the regions they ended before.
   */
  /** The counts after the sweep still end on triangle boundaries. */
  lemma CountsOnTriangles(n: int, noCaps: int, noFrontCaps: int, nq: nat, removed: int)
    requires n % 3 == 0 && 6 * nq <= noCaps <= noFrontCaps <= n && noCaps % 6 == 0 && noFrontCaps % 3 == 0
    requires removed == noCaps - 6 * nq
    ensures (noCaps - removed) % 3 == 0 && (noFrontCaps - removed) % 3 == 0
    ensures 0 <= noCaps - removed <= noFrontCaps - removed <= n - removed
  {
    var c, f := noCaps / 6, noFrontCaps / 3;
    assert noCaps == 6 * c && noFrontCaps == 3 * f;
    assert noCaps - removed == 3 * (2 * nq);
    assert noFrontCaps - removed == 3 * (f - 2 * (c - nq));
  }

  /**
   * What the cleanup promises about the silhouette region: the quads it
   * keeps have no reversed partner left, and the indexes after them are the
   * remapped originals.
   */
  lemma CleanupSweepMeaning(s: seq<int>, verts: seq<Vec3>, noCaps: int)
    requires 0 <= noCaps <= |s| && noCaps % 6 == 0 && IndexesInRange(s, |verts|)
    ensures var sw := CleanupSweep(s, verts, noCaps);
      NoMatchBefore(sw.indexes, sw.numQuads, sw.numQuads)
      && sw.indexes[6 * sw.numQuads..] == Remapped(s, Indexes([], verts))[noCaps..]
  {
    var r := Remapped(s, Indexes([], verts));
    assert CleanupSweep(s, verts, noCaps) == Sweep(Sweeping(r, 0, noCaps / 6));
    SweepMeaning(r, noCaps / 6);
    assert 6 * (noCaps / 6) == noCaps;
  }

  /**
   * The triangles left are the non-degenerate ones of the swept list, in
   * order, and both counts still end on the regions they ended before.
   */
  lemma CleanupKeeps(s: seq<int>, verts: seq<Vec3>, noCaps: int, noFrontCaps: int)
    requires |s| % 3 == 0 && 0 <= noCaps <= noFrontCaps <= |s| && noCaps % 6 == 0 && noFrontCaps % 3 == 0
    requires IndexesInRange(s, |verts|)
    ensures var sw := CleanupSweep(s, verts, noCaps);
      var removed := noCaps - 6 * sw.numQuads;
      Cleanup(s, verts, noCaps, noFrontCaps)
      == Counted(KeptOf(sw.indexes), |KeptOf(sw.indexes[..noCaps - removed])|, |KeptOf(sw.indexes[..noFrontCaps - removed])|)
  {
    var r := Remapped(s, Indexes([], verts));
    assert CleanupSweep(s, verts, noCaps) == Sweep(Sweeping(r, 0, noCaps / 6));
    assert Cleanup(s, verts, noCaps, noFrontCaps) == SweepDrop(r, noCaps, noFrontCaps);
    SweepDropKeeps(r, noCaps, noFrontCaps);
  }

  /** CleanupKeeps for any index list the sweep starts from. */
  lemma SweepDropKeeps(r: seq<int>, nc: int, nf: int)
    requires |r| % 3 == 0 && 0 <= nc <= nf <= |r| && nc % 6 == 0 && nf % 3 == 0
    ensures var sw := Sweep(Sweeping(r, 0, nc / 6)); var removed := nc - 6 * sw.numQuads;
      SweepDrop(r, nc, nf)
      == Counted(KeptOf(sw.indexes), |KeptOf(sw.indexes[..nc - removed])|, |KeptOf(sw.indexes[..nf - removed])|)
  {
    var sw := Sweep(Sweeping(r, 0, nc / 6));
    var removed := nc - 6 * sw.numQuads;
    SweepDropIsDrop(r, nc, nf, sw.indexes, removed);
    DropOnTriangles(sw.indexes, nc - removed, nf - removed);
  }

  /** SweepDrop as DropFrom over the swept list, whose counts still end on triangle boundaries. */
  lemma SweepDropIsDrop(r: seq<int>, nc: int, nf: int, t: seq<int>, removed: int)
    requires |r| % 3 == 0 && 0 <= nc <= nf <= |r| && nc % 6 == 0 && nf % 3 == 0
    requires var sw := Sweep(Sweeping(r, 0, nc / 6)); t == sw.indexes && removed == nc - 6 * sw.numQuads
    ensures |t| % 3 == 0 && (nc - removed) % 3 == 0 && (nf - removed) % 3 == 0
    ensures 0 <= nc - removed <= nf - removed <= |t|
    ensures SweepDrop(r, nc, nf) == DropFrom(t, |t| / 3, nc - removed, nf - removed, 0)
  {
    var sw := Sweep(Sweeping(r, 0, nc / 6));
    CountsOnTriangles(|r|, nc, nf, sw.numQuads, removed);
    OnTriangles(|r|, nc, sw.numQuads, removed, |t|);
  }

  /** Every triangle the cleanup leaves has three distinct corners. */
  lemma CleanupNotDegenerate(s: seq<int>, verts: seq<Vec3>, noCaps: int, noFrontCaps: int)
    requires |s| % 3 == 0 && 0 <= noCaps <= noFrontCaps <= |s| && noCaps % 6 == 0 && noFrontCaps % 3 == 0
    requires IndexesInRange(s, |verts|)
    ensures var c := Cleanup(s, verts, noCaps, noFrontCaps);
      forall k :: 0 <= k < |c.indexes| / 3 ==> !DegenerateAt(c.indexes, 3 * k)
  {
    CleanupKeeps(s, verts, noCaps, noFrontCaps);
    KeptOfClean(CleanupSweep(s, verts, noCaps).indexes);
  }

  // ---------------------------------------------------------------------
  // The method

  /** The inner search loop for a quad running the other way along quad i's edge. */
  method FindReversedQuad(a: array<int>, i: int, numSil: int, ghost L: int, ghost p: nat, ghost nq: nat) returns (j: int)
    requires i == 6 * p && numSil == 6 * nq && p < nq && numSil <= L <= a.Length
    ensures j == 6 * FindMatch(a[..L], p, p + 1, nq)
  {
    ghost var s := a[..L];
    ghost var q := p + 1;
    j := i + 6;
    while j < numSil
      invariant j == 6 * q && p < q <= nq
      invariant FindMatch(s, p, q, nq) == FindMatch(s, p, p + 1, nq)
    {
      assert QuadAt(s, p) == a[i..i + 6] && QuadAt(s, q) == a[j..j + 6];
      if a[i + 0] == a[j + 1] && a[i + 1] == a[j + 0] && a[i + 2] == a[j + 3]
        && a[i + 3] == a[j + 5] && a[i + 4] == a[j + 1] && a[i + 5] == a[j + 3]
      {
        return;
      }
      j := j + 6;
      q := q + 1;
    }
  }

  /**
   * The two copy loops that take quads i and j out; they run to the end of
   * the whole index list, n, which stays the value from before the sweep.
   */
  method ShiftOut(a: array<int>, i: int, j: int, n: int)
    requires 0 <= i && i + 6 <= j && j + 6 <= n <= a.Length
    modifies a
    ensures a[..n - 12] == old(a[..n])[..i] + old(a[..n])[i + 6..j] + old(a[..n])[j + 6..]
  {
    ghost var whole := a[..n];
    assert whole[..i] == a[..i] && whole[i + 6..j] == a[i + 6..j];
    MoveDownBy(a, i + 6, j, 6);
    ghost var front := a[..j - 6];
    forall k | j + 6 <= k < n
      ensures a[k] == whole[k]
    {
      assert a[k] == a[j - 6..][k - (j - 6)];
    }
    assert a[j + 6..n] == whole[j + 6..];
    ghost var back := a[j + 6..n];
    MoveDownBy(a, j + 6, n, 12);
    assert a[..n - 12] == front + back;
  }

  /** One copy loop: entries lo to hi move d places down; the rest stay. */
  method MoveDownBy(a: array<int>, lo: int, hi: int, d: int)
    requires 0 <= d <= lo <= hi <= a.Length
    modifies a
    ensures a[..hi - d] == old(a[..lo - d]) + old(a[lo..hi]) && a[hi - d..] == old(a[hi - d..])
  {
    var k := lo;
    while k < hi
      invariant lo <= k <= hi
      invariant a[..k - d] == old(a[..lo - d]) + old(a[lo..k]) && a[k - d..] == old(a[k - d..])
    {
      a[k - d] := a[k];
      assert old(a[lo..k + 1]) == old(a[lo..k]) + [old(a[k])];
      k := k + 1;
    }
  }

  /** The matched-quad loop: returns the new numSilIndexes. */
  method RemoveMatchedQuads(a: array<int>, n: int, numSil0: int, ghost nq0: nat) returns (numSil: int)
    requires numSil0 == 6 * nq0 && numSil0 <= n <= a.Length
    modifies a
    ensures var r := Sweep(Sweeping(old(a[..n]), 0, nq0));
      numSil == 6 * r.numQuads && a[..n - (numSil0 - numSil)] == r.indexes
  {
    ghost var goal := Sweep(Sweeping(a[..n], 0, nq0));
    ghost var nq: nat := nq0;
    ghost var p: nat := 0;
    ghost var len := n;
    numSil := numSil0;
    var i := 0;
    while i < numSil
      invariant i == 6 * p && numSil == 6 * nq && p <= nq <= nq0
      invariant len == n - (numSil0 - numSil) && Sweep(Sweeping(a[..len], p, nq)) == goal
      decreases numSil - i
    {
      ghost var st := Sweeping(a[..len], p, nq);
      var i', numSil';
      ghost var p', nq';
      i', numSil', p', nq' := SweepTurn(a, n, len, i, numSil, p, nq);
      len := len - (numSil - numSil');
      SweepUnfold(st, Sweeping(a[..len], p', nq'), goal);
      i, numSil, p, nq := i', numSil', p', nq';
    }
  }

  /**
   * One turn of the outer loop over the first L indexes: look for a match
   * of quad i and either move on or shift both quads out.
   */
  method SweepTurn(a: array<int>, n: int, ghost L: int, i: int, numSil: int, ghost p: nat, ghost nq: nat)
    returns (i': int, numSil': int, ghost p': nat, ghost nq': nat)
    requires i == 6 * p && numSil == 6 * nq && p < nq && numSil <= L <= n <= a.Length
    modifies a
    ensures i' == 6 * p' && numSil' == 6 * nq' && p' <= nq' <= nq && numSil - numSil' <= L - numSil'
    ensures Step(Sweeping(old(a[..L]), p, nq)) == Sweeping(a[..L - (numSil - numSil')], p', nq')
  {
    ghost var s := a[..L];
    var j := FindReversedQuad(a, i, numSil, L, p, nq);
    if j == numSil {
      assert Step(Sweeping(s, p, nq)) == Sweeping(s, p + 1, nq);
      i', numSil', p', nq' := i + 6, numSil, p + 1, nq;
    } else {
      ghost var q := FindMatch(s, p, p + 1, nq);
      ghost var whole := a[..n];
      assert whole[..L] == s;
      assert Step(Sweeping(s, p, nq)) == Sweeping(RemovePair(s, p, q), p, nq - 2);
      ShiftOut(a, i, j, n);
      RemovedInPlace(whole, a[..n - 12], p, q, L);
      assert a[..L - 12] == a[..n - 12][..L - 12];
      i', numSil', p', nq' := i, numSil - 12, p, nq - 2;
    }
  }

  /** A turn of the loop leaves the outcome of the sweep unchanged. */
  lemma SweepUnfold(st: Sweeping, st': Sweeping, goal: Sweeping)
    requires Inside(st) && st.p < st.numQuads && Step(st) == st' && Sweep(st) == goal
    ensures Sweep(st') == goal
  {
  }

  /** What the copy loops leave in the first L - 12 entries is RemovePair of the first L. */
  lemma RemovedInPlace(whole: seq<int>, after: seq<int>, p: nat, q: nat, L: int)
    requires p < q && 6 * q + 6 <= L <= |whole| && |after| == |whole| - 12
    requires after == whole[..6 * p] + whole[6 * p + 6..6 * q] + whole[6 * q + 6..]
    ensures after[..L - 12] == RemovePair(whole[..L], p, q)
  {
    RemovePairPrefix(whole, p, q, L);
  }

  /** Copies the welded table back over the surface's vertices. */
  method CopyVerts(dst: array<Vec3>, w: Welder)
    requires w.Valid() && w.count <= dst.Length
    modifies dst
    ensures dst[..w.count] == w.Contents()
  {
    var i := 0;
    while i < w.count
      invariant 0 <= i <= w.count && dst[..i] == w.data[..i]
    {
      dst[i] := w.data[i];
      i := i + 1;
    }
  }

  /** tri->indexes[i] = remap[tri->indexes[i]] for every index. */
  method RemapIndexes(a: array<int>, n: int, remap: array<int>)
    requires 0 <= n <= a.Length && a != remap && IndexesInRange(a[..n], remap.Length)
    modifies a
    ensures a[..n] == Remapped(old(a[..n]), remap[..])
  {
    ghost var s := a[..n];
    var i := 0;
    while i < n
      invariant 0 <= i <= n
      invariant forall k :: 0 <= k < i ==> a[k] == remap[s[k]]
      invariant forall k :: i <= k < n ==> a[k] == s[k]
    {
      a[i] := remap[a[i]];
      i := i + 1;
    }
  }

  /**
   * CleanupOptimizedShadowTris. An index out of range is a fatal error in
   * the source and a precondition here, with the bound the lookup needs;
   * the index list is a triangle list whose silhouette region is made of
   * whole quads.
   */
  method CleanupOptimizedShadowTris(tri: ShadowTris)
    requires tri.Valid() && tri.numIndexes % 3 == 0
    requires 0 <= tri.numShadowIndexesNoCaps <= tri.numIndexes && tri.numShadowIndexesNoCaps % 6 == 0
    requires IndexesInRange(tri.Indexes(), tri.numVerts)
    modifies tri, tri.indexes, tri.verts
    ensures tri.Valid() && tri.indexes == old(tri.indexes) && tri.verts == old(tri.verts)
    ensures tri.Verts() == Table([], old(tri.Verts()))
    ensures Counted(tri.Indexes(), tri.numShadowIndexesNoCaps, tri.numShadowIndexesNoFrontCaps)
      == Cleanup(old(tri.Indexes()), old(tri.Verts()), old(tri.numShadowIndexesNoCaps), old(tri.numShadowIndexesNoFrontCaps))
  {
    ghost var s := tri.Indexes();
    ghost var vs := tri.Verts();
    var w, remap := WeldSurface(tri);
    RemapIndexes(tri.indexes, tri.numIndexes, remap);
    assert tri.Indexes() == Remapped(s, Indexes([], vs));
    SweepAndDrop(tri);
  }

  /** Everything after the remap loop: the matched-quad sweep, then RemoveDegenerateTriangles. */
  method SweepAndDrop(tri: ShadowTris)
    requires tri.Valid() && tri.numIndexes % 3 == 0
    requires 0 <= tri.numShadowIndexesNoCaps <= tri.numIndexes && tri.numShadowIndexesNoCaps % 6 == 0
    modifies tri, tri.indexes
    ensures tri.Valid() && tri.indexes == old(tri.indexes) && tri.verts == old(tri.verts)
    ensures tri.numVerts == old(tri.numVerts) && unchanged(tri.verts)
    ensures Counted(tri.Indexes(), tri.numShadowIndexesNoCaps, tri.numShadowIndexesNoFrontCaps)
      == SweepDrop(old(tri.Indexes()), old(tri.numShadowIndexesNoCaps), old(tri.numShadowIndexesNoFrontCaps))
  {
    ghost var r := tri.Indexes();
    ghost var nc, nf := tri.numShadowIndexesNoCaps, tri.numShadowIndexesNoFrontCaps;
    SweepSilhouette(tri);
    ghost var mid, n, mc, mf := tri.Indexes(), tri.numIndexes, tri.numShadowIndexesNoCaps, tri.numShadowIndexesNoFrontCaps;
    SweepDropUnfold(r, nc, nf, mid, n, mc, mf);
    RemoveDegenerateTriangles(tri);
  }

  /** SweepDrop with the swept list and the lowered counts named. */
  lemma SweepDropUnfold(r: seq<int>, nc: int, nf: int, mid: seq<int>, n: int, mc: int, mf: int)
    requires |r| % 3 == 0 && 0 <= nc <= |r| && nc % 6 == 0
    requires var sw := Sweep(Sweeping(r, 0, nc / 6)); var removed := nc - 6 * sw.numQuads;
      mid == sw.indexes && n == |r| - removed && mc == nc - removed && mf == nf - removed
    ensures |mid| == n && n % 3 == 0 && SweepDrop(r, nc, nf) == DropFrom(mid, n / 3, mc, mf, 0)
  {
    var sw := Sweep(Sweeping(r, 0, nc / 6));
    var removed := nc - 6 * sw.numQuads;
    OnTriangles(|r|, nc, sw.numQuads, removed, n);
  }

  /**
   * The matched-quad loop over the surface, then the three counts lowered
   * by the number of indexes it took out.
   */
  method SweepSilhouette(tri: ShadowTris)
    requires tri.Valid() && 0 <= tri.numShadowIndexesNoCaps <= tri.numIndexes && tri.numShadowIndexesNoCaps % 6 == 0
    modifies tri, tri.indexes
    ensures tri.Valid() && tri.indexes == old(tri.indexes) && tri.verts == old(tri.verts)
    ensures tri.numVerts == old(tri.numVerts) && unchanged(tri.verts)
    ensures var sw := Sweep(Sweeping(old(tri.Indexes()), 0, old(tri.numShadowIndexesNoCaps) / 6));
      var removed := old(tri.numShadowIndexesNoCaps) - 6 * sw.numQuads;
      tri.Indexes() == sw.indexes && tri.numIndexes == old(tri.numIndexes) - removed
      && tri.numShadowIndexesNoCaps == old(tri.numShadowIndexesNoCaps) - removed
      && tri.numShadowIndexesNoFrontCaps == old(tri.numShadowIndexesNoFrontCaps) - removed
  {
    var noCaps := tri.numShadowIndexesNoCaps;
    var numSilIndexes := RemoveMatchedQuads(tri.indexes, tri.numIndexes, noCaps, noCaps / 6);
    var removed := noCaps - numSilIndexes;
    tri.numIndexes := tri.numIndexes - removed;
    tri.numShadowIndexesNoCaps := tri.numShadowIndexesNoCaps - removed;
    tri.numShadowIndexesNoFrontCaps := tri.numShadowIndexesNoFrontCaps - removed;
  }

  /**
   * The welding half: FindUniqueVert over every vertex into a table of
   * numVerts entries, then numVerts becomes numUniqued and the table is
   * copied back.
   */
  method WeldSurface(tri: ShadowTris) returns (w: Welder, remap: array<int>)
    requires tri.Valid()
    modifies tri, tri.verts
    ensures tri.Valid() && tri.indexes == old(tri.indexes) && tri.verts == old(tri.verts)
    ensures tri.numIndexes == old(tri.numIndexes) && unchanged(tri.indexes)
    ensures tri.numShadowIndexesNoCaps == old(tri.numShadowIndexesNoCaps)
    ensures tri.numShadowIndexesNoFrontCaps == old(tri.numShadowIndexesNoFrontCaps)
    ensures tri.Verts() == Table([], old(tri.Verts())) && remap[..] == Indexes([], old(tri.Verts()))
    ensures fresh(remap) && remap.Length == old(tri.numVerts)
  {
    var vs := tri.verts[..tri.numVerts];
    w := new Welder(tri.numVerts);
    remap := new int[tri.numVerts];
    TableBound([], vs);
    WeldAll(w, vs, remap);
    tri.numVerts := w.count;
    CopyVerts(tri.verts, w);
  }
}
