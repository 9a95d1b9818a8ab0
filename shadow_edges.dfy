// Unmatched-edge extraction of the offline shadow optimizer
// (neo/tools/compilers/dmap/shadowopt3.cpp:495-575). Every directed edge of
// every non-degenerate output triangle is packed into one 32-bit key whose
// low bit says which way it runs; after sorting, an edge next to its own
// reverse cancels with it, and every other key becomes a silhouette edge.
module ShadowEdges {

  const MAX_SHADOW_TRIS: nat := 32768
  const MAX_SIL_EDGES: nat := MAX_SHADOW_TRIS * 3

  /** edges[numEdges] = -1, read back as an unsigned key. */
  const SENTINEL: int := 0xFFFF_FFFF

  /** Vertex indexes must fit the 15 bits each half of a key leaves them. */
  predicate IndexOk(v: int) { 0 <= v < 0x8000 }

  /** The index[] triple of an output triangle. */
  datatype Tri = Tri(a: int, b: int, c: int)

  predicate TriOk(t: Tri) { IndexOk(t.a) && IndexOk(t.b) && IndexOk(t.c) }

  predicate TrisOk(tris: seq<Tri>) {
    forall i :: 0 <= i < |tris| ==> TriOk(tris[i])
  }

  /** shadowOptEdge_t without its link: the edge runs from v1 to v2. */
  datatype OptEdge = OptEdge(v1: int, v2: int)

  // ---------------------------------------------------------------------
  // Keys

  /**
   * The key of the directed edge v1 -> v2: the larger index shifted left
   * by 16, the smaller shifted left by 1, and the low bit set when the edge
   * runs from the smaller index to the larger.
   */
  function EdgeKey(v1: int, v2: int): int
    requires IndexOk(v1) && IndexOk(v2) && v1 != v2
  {
    if v1 > v2 then v1 * 0x10000 + v2 * 2 else v2 * 0x10000 + v1 * 2 + 1
  }

  /** The edge a key stands for. */
  function DecodeKey(k: int): OptEdge {
    if k % 2 == 1 then OptEdge((k / 2) % 0x8000, k / 0x10000)
    else OptEdge(k / 0x10000, (k / 2) % 0x8000)
  }

  /** The key of a (v1 << 16) | (v2 << 1) shape is its integer value: the two fields do not overlap. */
  lemma KeyIsOr(v1: bv32, v2: bv32)
    requires v1 < 0x8000 && v2 < 0x8000
    ensures (v1 << 16) | (v2 << 1) == v1 * 0x10000 + v2 * 2
    ensures (v1 << 16) | (v2 << 1) | 1 == v1 * 0x10000 + v2 * 2 + 1
  {
  }

  /** Decoding a key gives back the edge, direction included, and keys stay below 2^31. */
  lemma DecodeEdgeKey(v1: int, v2: int)
    requires IndexOk(v1) && IndexOk(v2) && v1 != v2
    ensures 0 <= EdgeKey(v1, v2) < 0x8000_0000
    ensures DecodeKey(EdgeKey(v1, v2)) == OptEdge(v1, v2)
  {
    var k := EdgeKey(v1, v2);
    if v1 > v2 {
      assert k / 0x10000 == v1 && k / 2 == v1 * 0x8000 + v2;
    } else {
      assert k / 0x10000 == v2 && k / 2 == v2 * 0x8000 + v1;
    }
  }

  /** An edge and its reverse have keys that differ only in the low bit, the even one first. */
  lemma ReverseKey(v1: int, v2: int)
    requires IndexOk(v1) && IndexOk(v2) && v1 != v2
    ensures EdgeKey(v1, v2) == Partner(EdgeKey(v2, v1))
    ensures v1 > v2 ==> EdgeKey(v1, v2) % 2 == 0 && EdgeKey(v2, v1) == EdgeKey(v1, v2) + 1
  {
    if v1 > v2 {
      KeyPair(v1, v2);
    } else {
      KeyPair(v2, v1);
    }
  }

  /** The two keys of the edge between h and l, h the larger: 2m and 2m + 1. */
  lemma KeyPair(h: int, l: int)
    requires IndexOk(h) && IndexOk(l) && h > l
    ensures var m := h * 0x8000 + l;
      EdgeKey(h, l) == 2 * m && EdgeKey(l, h) == 2 * m + 1 && (2 * m) % 2 == 0 && (2 * m + 1) % 2 == 1
  {
  }

  /** The key the low bit pairs k with. */
  function Partner(k: int): int { if k % 2 == 0 then k + 1 else k - 1 }

  /** (a ^ b) == 1: the two keys differ in the low bit only. */
  predicate XorOne(a: int, b: int) {
    (a % 2 == 0 && b == a + 1) || (b % 2 == 0 && a == b + 1)
  }

  lemma XorOneBits(a: bv32, b: bv32)
    ensures (a ^ b == 1) <==> ((a & 1 == 0 && b == a | 1) || (b & 1 == 0 && a == b | 1))
  {
  }

  /** EdgeSort, the comparator handed to qsort: the unsigned order of the keys. */
  function EdgeSort(a: int, b: int): (r: int)
    ensures r < 0 <==> a < b
    ensures r == 0 <==> a == b
  {
    if a < b then -1 else if a > b then 1 else 0
  }

  /** EdgeSort is antisymmetric and transitive, as qsort requires of it. */
  lemma EdgeSortOrder(a: int, b: int, c: int)
    ensures EdgeSort(a, b) == -EdgeSort(b, a)
    ensures EdgeSort(a, b) <= 0 && EdgeSort(b, c) <= 0 ==> EdgeSort(a, c) <= 0
  {
  }

  // ---------------------------------------------------------------------
  // The keys of the output triangles

  predicate Degenerate(a: int, b: int, c: int) { a == b || a == c || b == c }

  /** The three edge keys of a triangle, none for a degenerate one. */
  function TriKeys(a: int, b: int, c: int): seq<int>
    requires IndexOk(a) && IndexOk(b) && IndexOk(c)
  {
    if Degenerate(a, b, c) then [] else [EdgeKey(a, b), EdgeKey(b, c), EdgeKey(c, a)]
  }

  /** The keys the first loop of GenerateSilEdges collects, triangle by triangle. */
  function EdgeKeys(tris: seq<Tri>): seq<int>
    requires TrisOk(tris)
    decreases |tris|
  {
    if |tris| == 0 then []
    else TriKeys(tris[0].a, tris[0].b, tris[0].c) + EdgeKeys(tris[1..])
  }

  /** How many non-degenerate triangles have the directed edge v1 -> v2. */
  function Occurrences(tris: seq<Tri>, v1: int, v2: int): nat
    decreases |tris|
  {
    if |tris| == 0 then 0
    else
      var a, b, c := tris[0].a, tris[0].b, tris[0].c;
      (if Degenerate(a, b, c) then 0
       else (if a == v1 && b == v2 then 1 else 0) + (if b == v1 && c == v2 then 1 else 0)
            + (if c == v1 && a == v2 then 1 else 0))
      + Occurrences(tris[1..], v1, v2)
  }

  /** A key counts exactly the triangles with its edge. */
  lemma {:induction false} EdgeKeysCount(tris: seq<Tri>, v1: int, v2: int)
    requires TrisOk(tris) && IndexOk(v1) && IndexOk(v2) && v1 != v2
    ensures multiset(EdgeKeys(tris))[EdgeKey(v1, v2)] == Occurrences(tris, v1, v2)
    decreases |tris|
  {
    if |tris| != 0 {
      EdgeKeysCount(tris[1..], v1, v2);
      var a, b, c := tris[0].a, tris[0].b, tris[0].c;
      if !Degenerate(a, b, c) {
        var k := EdgeKey(v1, v2);
        KeyInjective(a, b, v1, v2);
        KeyInjective(b, c, v1, v2);
        KeyInjective(c, a, v1, v2);
        assert multiset(TriKeys(a, b, c))[k]
            == (if a == v1 && b == v2 then 1 else 0) + (if b == v1 && c == v2 then 1 else 0)
               + (if c == v1 && a == v2 then 1 else 0);
      }
    }
  }

  lemma KeyInjective(a: int, b: int, c: int, d: int)
    requires IndexOk(a) && IndexOk(b) && a != b && IndexOk(c) && IndexOk(d) && c != d
    ensures EdgeKey(a, b) == EdgeKey(c, d) <==> a == c && b == d
  {
    DecodeEdgeKey(a, b);
    DecodeEdgeKey(c, d);
  }

  /** k is the key of a valid edge: the edge it decodes to encodes back to k. */
  predicate KeyOk(k: int) {
    k >= 0 && var e := DecodeKey(k); IndexOk(e.v1) && IndexOk(e.v2) && e.v1 != e.v2 && EdgeKey(e.v1, e.v2) == k
  }

  predicate KeysOk(ks: seq<int>) {
    forall i :: 0 <= i < |ks| ==> KeyOk(ks[i])
  }

  lemma EdgeKeyOk(v1: int, v2: int)
    requires IndexOk(v1) && IndexOk(v2) && v1 != v2
    ensures KeyOk(EdgeKey(v1, v2))
  {
    DecodeEdgeKey(v1, v2);
  }

  lemma {:induction false} EdgeKeysOk(tris: seq<Tri>)
    requires TrisOk(tris)
    ensures KeysOk(EdgeKeys(tris)) && |EdgeKeys(tris)| <= 3 * |tris|
    decreases |tris|
  {
    if |tris| != 0 {
      EdgeKeysOk(tris[1..]);
      var a, b, c := tris[0].a, tris[0].b, tris[0].c;
      if !Degenerate(a, b, c) {
        EdgeKeyOk(a, b);
        EdgeKeyOk(b, c);
        EdgeKeyOk(c, a);
      }
      var ks := EdgeKeys(tris);
      var t := TriKeys(a, b, c);
      assert ks == t + EdgeKeys(tris[1..]);
      assert forall i :: |t| <= i < |ks| ==> ks[i] == EdgeKeys(tris[1..])[i - |t|];
    }
  }

  // ---------------------------------------------------------------------
  // Matching the sorted keys

  predicate Sorted(s: seq<int>) {
    forall i, j :: 0 <= i < j < |s| ==> s[i] <= s[j]
  }

  /** The keys the second loop keeps from a sorted run: a key next to its partner cancels with it. */
  function Unmatched(s: seq<int>): seq<int>
    decreases |s|
  {
    if |s| == 0 then []
    else if |s| >= 2 && XorOne(s[0], s[1]) then Unmatched(s[2..])
    else [s[0]] + Unmatched(s[1..])
  }

  function DecodeAll(ks: seq<int>): (r: seq<OptEdge>)
    ensures |r| == |ks|
    decreases |ks|
  {
    if |ks| == 0 then [] else [DecodeKey(ks[0])] + DecodeAll(ks[1..])
  }

  /** The count UnmatchedCount promises for key k. */
  function KeptCount(s: seq<int>, k: int): int {
    multiset(s)[k] - (if k in s && Partner(k) in s then 1 else 0)
  }

  /**
   * A sorted run keeps every copy of a key except one for each key whose
   * partner is present too: one edge and one reverse edge cancel.
   */
  lemma {:induction false} UnmatchedCount(s: seq<int>, k: int)
    requires Sorted(s)
    ensures multiset(Unmatched(s))[k] == KeptCount(s, k)
    decreases |s|
  {
    if |s| == 0 {
    } else if |s| >= 2 && XorOne(s[0], s[1]) {
      SortedSuffix(s, 2);
      SortedSuffix(s, 1);
      UnmatchedCount(s[2..], k);
      PairStep(s, k);
    } else {
      SortedSuffix(s, 1);
      if |s| >= 2 {
        SortedSuffix(s[1..], 1);
      }
      UnmatchedCount(s[1..], k);
      SingleStep(s, k);
    }
  }

  /** Every element of r is at least lo. */
  predicate AtLeast(r: seq<int>, lo: int) {
    forall j :: 0 <= j < |r| ==> lo <= r[j]
  }

  lemma SortedSuffix(s: seq<int>, d: int)
    requires Sorted(s) && 1 <= d <= |s|
    ensures Sorted(s[d..]) && AtLeast(s[d..], s[d - 1])
  {
  }

  /** Two ordered keys that differ in the low bit only are partners of each other. */
  lemma XorPartner(a: int, b: int)
    requires a <= b && XorOne(a, b)
    ensures b == a + 1 && Partner(a) == b && Partner(b) == a
  {
  }

  /** A key is its partner's partner, and no key lies strictly between them. */
  lemma PartnerNear(k: int)
    ensures Partner(Partner(k)) == k
    ensures Partner(k) == k + 1 || Partner(k) == k - 1
    ensures Partner(k) == k + 1 ==> XorOne(k, k + 1)
    ensures Partner(k) == k - 1 ==> XorOne(k - 1, k)
  {
  }

  lemma BelowNotIn(r: seq<int>, lo: int, x: int)
    requires AtLeast(r, lo) && x < lo
    ensures x !in r
  {
  }

  /** A key and its partner at the front cancel. */
  lemma PairStep(s: seq<int>, k: int)
    requires |s| >= 2 && XorOne(s[0], s[1]) && AtLeast(s[1..], s[0]) && AtLeast(s[2..], s[1])
    requires multiset(Unmatched(s[2..]))[k] == KeptCount(s[2..], k)
    ensures multiset(Unmatched(s))[k] == KeptCount(s, k)
  {
    var r := s[2..];
    assert s[0] <= s[1] by { assert s[1] == s[1..][0]; }
    XorPartner(s[0], s[1]);
    PartnerNear(k);
    assert s == [s[0], s[1]] + r;
    var p := Partner(k);
    assert Unmatched(s) == Unmatched(r);
    assert multiset(s)[k] == multiset(r)[k] + (if s[0] == k then 1 else 0) + (if s[1] == k then 1 else 0);
    assert (k in s) <==> (k in r || s[0] == k || s[1] == k);
    assert (p in s) <==> (p in r || s[0] == p || s[1] == p);
    if s[0] == k {
      BelowNotIn(r, s[1], k);
    } else if s[1] == k {
      BelowNotIn(r, s[1], p);
    }
  }

  /** A front key without its partner next to it is kept. */
  lemma SingleStep(s: seq<int>, k: int)
    requires |s| >= 1 && !(|s| >= 2 && XorOne(s[0], s[1])) && AtLeast(s[1..], s[0])
    requires |s| >= 2 ==> AtLeast(s[2..], s[1])
    requires multiset(Unmatched(s[1..]))[k] == KeptCount(s[1..], k)
    ensures multiset(Unmatched(s))[k] == KeptCount(s, k)
  {
    var r := s[1..];
    assert s == [s[0]] + r;
    assert Unmatched(s) == [s[0]] + Unmatched(r);
    assert multiset(Unmatched(s))[k] == multiset(Unmatched(r))[k] + (if s[0] == k then 1 else 0);
    assert multiset(s)[k] == multiset(r)[k] + (if s[0] == k then 1 else 0);
    PairInTail(s, k);
  }

  /**
   * When the front key is not next to its partner, a key and its partner
   * both occur in s exactly when both occur after the front.
   */
  lemma PairInTail(s: seq<int>, k: int)
    requires |s| >= 1 && !(|s| >= 2 && XorOne(s[0], s[1])) && AtLeast(s[1..], s[0])
    requires |s| >= 2 ==> AtLeast(s[2..], s[1])
    ensures (k in s && Partner(k) in s) == (k in s[1..] && Partner(k) in s[1..])
  {
    var r := s[1..];
    assert s == [s[0]] + r;
    PartnerNear(k);
    var p := Partner(k);
    assert (k in s) <==> (k in r || s[0] == k);
    assert (p in s) <==> (p in r || s[0] == p);
    if |r| > 0 {
      assert r == [s[1]] + s[2..];
      assert s[0] <= s[1];
    }
    if s[0] == k && p in r {
      // p is in r, so r is not empty and p is at least s[1]
      assert s[1] <= p by { KeyAtLeast(r, s[1], p); }
    } else if s[0] == p && k in r {
      assert s[1] <= k by { KeyAtLeast(r, s[1], k); }
    }
  }

  /** x in r, whose first element is its least, is at least that element. */
  lemma KeyAtLeast(r: seq<int>, lo: int, x: int)
    requires |r| >= 1 && r[0] == lo && AtLeast(r[1..], lo) && x in r
    ensures lo <= x
  {
    var j :| 0 <= j < |r| && r[j] == x;
    if j > 0 {
      assert r[1..][j - 1] == x;
    }
  }

  lemma {:induction false} UnmatchedFrom(s: seq<int>)
    ensures multiset(Unmatched(s)) <= multiset(s)
    decreases |s|
  {
    if |s| != 0 {
      if |s| >= 2 && XorOne(s[0], s[1]) {
        UnmatchedFrom(s[2..]);
        assert s == [s[0], s[1]] + s[2..];
      } else {
        UnmatchedFrom(s[1..]);
        assert s == [s[0]] + s[1..];
      }
    }
  }

  /** Decoding valid keys keeps their counts: edge (v1, v2) appears as often as its key. */
  lemma {:induction false} DecodeAllCount(ks: seq<int>, v1: int, v2: int)
    requires KeysOk(ks) && IndexOk(v1) && IndexOk(v2) && v1 != v2
    ensures multiset(DecodeAll(ks))[OptEdge(v1, v2)] == multiset(ks)[EdgeKey(v1, v2)]
    decreases |ks|
  {
    if |ks| != 0 {
      assert KeysOk(ks[1..]) by { assert forall i :: 0 <= i < |ks| - 1 ==> ks[1..][i] == ks[i + 1]; }
      DecodeAllCount(ks[1..], v1, v2);
      DecodeCountStep(ks, v1, v2);
    }
  }

  /** DecodeAllCount for ks from DecodeAllCount for its tail. */
  lemma DecodeCountStep(ks: seq<int>, v1: int, v2: int)
    requires |ks| > 0 && KeyOk(ks[0]) && IndexOk(v1) && IndexOk(v2) && v1 != v2
    requires multiset(DecodeAll(ks[1..]))[OptEdge(v1, v2)] == multiset(ks[1..])[EdgeKey(v1, v2)]
    ensures multiset(DecodeAll(ks))[OptEdge(v1, v2)] == multiset(ks)[EdgeKey(v1, v2)]
  {
    assert ks == [ks[0]] + ks[1..];
    assert multiset(ks) == multiset([ks[0]]) + multiset(ks[1..]);
    assert multiset(DecodeAll(ks)) == multiset([DecodeKey(ks[0])]) + multiset(DecodeAll(ks[1..]));
    KeyMatches(ks[0], v1, v2);
  }

  /** A valid key decodes to edge (v1, v2) exactly when it is that edge's key. */
  lemma KeyMatches(k: int, v1: int, v2: int)
    requires KeyOk(k) && IndexOk(v1) && IndexOk(v2) && v1 != v2
    ensures DecodeKey(k) == OptEdge(v1, v2) <==> k == EdgeKey(v1, v2)
  {
    DecodeEdgeKey(v1, v2);
  }

  /**
   * What GenerateSilEdges produces from any sorting of the triangles'
   * keys: edge v1 -> v2 is a silhouette edge as many times as it occurs,
   * less one when its reverse occurs too.
   */
  lemma SilEdgeCount(tris: seq<Tri>, sorted: seq<int>, v1: int, v2: int)
    requires TrisOk(tris) && Sorted(sorted) && multiset(sorted) == multiset(EdgeKeys(tris))
    requires IndexOk(v1) && IndexOk(v2) && v1 != v2
    ensures KeysOk(Unmatched(sorted))
    ensures var n, r := Occurrences(tris, v1, v2), Occurrences(tris, v2, v1);
      multiset(DecodeAll(Unmatched(sorted)))[OptEdge(v1, v2)] == n - (if n > 0 && r > 0 then 1 else 0)
  {
    EdgeKeysOk(tris);
    UnmatchedFrom(sorted);
    var u := Unmatched(sorted);
    assert KeysOk(sorted) by {
      forall i | 0 <= i < |sorted| ensures KeyOk(sorted[i]) {
        assert sorted[i] in multiset(EdgeKeys(tris));
      }
    }
    KeysOkUnmatched(sorted);
    var k := EdgeKey(v1, v2);
    ReverseKey(v2, v1);
    EdgeKeysCount(tris, v1, v2);
    EdgeKeysCount(tris, v2, v1);
    UnmatchedCount(sorted, k);
    DecodeAllCount(u, v1, v2);
  }

  /** An edge that occurs once each way is no silhouette edge. */
  lemma MatchedPairCancels(tris: seq<Tri>, sorted: seq<int>, v1: int, v2: int)
    requires TrisOk(tris) && Sorted(sorted) && multiset(sorted) == multiset(EdgeKeys(tris))
    requires IndexOk(v1) && IndexOk(v2) && v1 != v2
    requires Occurrences(tris, v1, v2) == 1 && Occurrences(tris, v2, v1) == 1
    ensures OptEdge(v1, v2) !in DecodeAll(Unmatched(sorted))
    ensures OptEdge(v2, v1) !in DecodeAll(Unmatched(sorted))
  {
    SilEdgeCount(tris, sorted, v1, v2);
    SilEdgeCount(tris, sorted, v2, v1);
  }

  /** An edge that occurs once, without its reverse, is a silhouette edge in its own direction. */
  lemma LoneEdgeKept(tris: seq<Tri>, sorted: seq<int>, v1: int, v2: int)
    requires TrisOk(tris) && Sorted(sorted) && multiset(sorted) == multiset(EdgeKeys(tris))
    requires IndexOk(v1) && IndexOk(v2) && v1 != v2
    requires Occurrences(tris, v1, v2) == 1 && Occurrences(tris, v2, v1) == 0
    ensures multiset(DecodeAll(Unmatched(sorted)))[OptEdge(v1, v2)] == 1
    ensures OptEdge(v2, v1) !in DecodeAll(Unmatched(sorted))
  {
    SilEdgeCount(tris, sorted, v1, v2);
    SilEdgeCount(tris, sorted, v2, v1);
  }

  /** A degenerate triangle adds no key. */
  lemma DegenerateAddsNothing(tris: seq<Tri>, t: Tri)
    requires TrisOk(tris) && TriOk(t) && Degenerate(t.a, t.b, t.c)
    ensures TrisOk([t] + tris) && EdgeKeys([t] + tris) == EdgeKeys(tris)
  {
    assert ([t] + tris)[1..] == tris;
  }

  // ---------------------------------------------------------------------
  // GenerateSilEdges

  /**
   * The first loop of GenerateSilEdges: the keys of every non-degenerate
   * triangle's edges, in an alloca'd array one longer than three per
   * triangle (the last slot takes the sentinel).
   */
  method CollectEdgeKeys(tris: seq<Tri>) returns (edges: array<int>, numEdges: int)
    requires TrisOk(tris)
    ensures edges.Length == 3 * |tris| + 1 && 0 <= numEdges < edges.Length
    ensures edges[..numEdges] == EdgeKeys(tris)
  {
    edges := new int[3 * |tris| + 1];
    numEdges := 0;
    var i := 0;
    while i < |tris|
      invariant 0 <= i <= |tris| && 0 <= numEdges <= 3 * i
      invariant edges[..numEdges] == EdgeKeys(tris[..i])
    {
      EdgeKeysPrefix(tris, i);
      numEdges := AddTri(edges, numEdges, tris[i]);
      i := i + 1;
    }
    assert tris[..i] == tris;
  }

  /** The keys of the first i + 1 triangles: those of the first i, then triangle i's. */
  lemma EdgeKeysPrefix(tris: seq<Tri>, i: int)
    requires TrisOk(tris) && 0 <= i < |tris|
    ensures TriOk(tris[i]) && TrisOk(tris[..i]) && TrisOk(tris[..i + 1])
    ensures EdgeKeys(tris[..i + 1]) == EdgeKeys(tris[..i]) + TriKeys(tris[i].a, tris[i].b, tris[i].c)
  {
    assert tris[..i + 1] == tris[..i] + [tris[i]];
    EdgeKeysAppend(tris[..i], [tris[i]]);
    assert [tris[i]][1..] == [];
  }

  /** The keys of two runs of triangles are the first run's keys, then the second's. */
  lemma {:induction false} EdgeKeysAppend(a: seq<Tri>, b: seq<Tri>)
    requires TrisOk(a) && TrisOk(b)
    ensures TrisOk(a + b) && EdgeKeys(a + b) == EdgeKeys(a) + EdgeKeys(b)
    decreases |a|
  {
    assert TrisOk(a + b) by {
      forall i | 0 <= i < |a + b| ensures TriOk((a + b)[i]) {
        if i < |a| { assert (a + b)[i] == a[i]; } else { assert (a + b)[i] == b[i - |a|]; }
      }
    }
    if |a| == 0 {
      assert a + b == b;
    } else {
      assert (a + b)[0] == a[0] && (a + b)[1..] == a[1..] + b;
      assert TrisOk(a[1..]) by { assert forall i :: 0 <= i < |a| - 1 ==> a[1..][i] == a[i + 1]; }
      EdgeKeysAppend(a[1..], b);
    }
  }

  /** One turn of the outer loop: a degenerate triangle is skipped. */
  method AddTri(edges: array<int>, n: int, t: Tri) returns (n': int)
    requires TriOk(t) && 0 <= n && n + 3 <= edges.Length
    modifies edges
    ensures n <= n' <= n + 3 && edges[..n'] == old(edges[..n]) + TriKeys(t.a, t.b, t.c)
  {
    n' := n;
    if !Degenerate(t.a, t.b, t.c) {
      n' := AddTriKeys(edges, n, t.a, t.b, t.c);
    }
  }

  /** The inner loop over a triangle's three edges. */
  method AddTriKeys(edges: array<int>, n: int, a: int, b: int, c: int) returns (n': int)
    requires IndexOk(a) && IndexOk(b) && IndexOk(c) && !Degenerate(a, b, c)
    requires 0 <= n && n + 3 <= edges.Length
    modifies edges
    ensures n' == n + 3 && edges[..n'] == old(edges[..n]) + TriKeys(a, b, c)
  {
    var corner := [a, b, c];
    n' := n;
    var j := 0;
    while j < 3
      invariant 0 <= j <= 3 && n' == n + j
      invariant edges[..n'] == old(edges[..n]) + TriKeys(a, b, c)[..j]
    {
      var v1, v2 := corner[j], corner[(j + 1) % 3];
      edges[n'] := EdgeKey(v1, v2);
      assert TriKeys(a, b, c)[..j + 1] == TriKeys(a, b, c)[..j] + [EdgeKey(v1, v2)];
      n' := n' + 1;
      j := j + 1;
    }
  }

  /**
   * The second loop of GenerateSilEdges, run on the keys once qsort has
   * put them in EdgeSort order: a key whose neighbour is its partner skips
   * both, any other key becomes a silhouette edge.
   */
  method MatchSortedEdges(edges: array<int>, numEdges: int) returns (silEdges: seq<OptEdge>)
    requires 0 <= numEdges < edges.Length
    requires Sorted(edges[..numEdges]) && KeysOk(edges[..numEdges])
    requires numEdges <= MAX_SIL_EDGES
    modifies edges
    ensures KeysOk(Unmatched(old(edges[..numEdges])))
    ensures silEdges == DecodeAll(Unmatched(old(edges[..numEdges])))
  {
    ghost var s := edges[..numEdges];
    edges[numEdges] := SENTINEL;
    assert edges[..numEdges] == s;
    UnmatchedFrom(s);
    KeysOkUnmatched(s);
    silEdges := [];
    var i := 0;
    while i < numEdges
      invariant 0 <= i <= numEdges && edges[numEdges] == SENTINEL && edges[..numEdges] == s
      invariant silEdges + DecodeAll(Unmatched(s[i..])) == DecodeAll(Unmatched(s))
      invariant |silEdges| <= i
    {
      var e := edges[i];
      var next := edges[i + 1];
      assert next == if i + 1 < numEdges then s[i + 1] else SENTINEL;
      MatchTurn(s, i, next);
      if XorOne(e, next) {
        i := i + 2;
      } else {
        ghost var rest := DecodeAll(Unmatched(s[i + 1..]));
        assert silEdges + [DecodeKey(e)] + rest == silEdges + ([DecodeKey(e)] + rest);
        silEdges := silEdges + [DecodeKey(e)];
        i := i + 1;
      }
    }
    assert s[i..] == [];
  }

  /**
   * One turn of the matching loop at key i, next being the key after it
   * or the sentinel: a key next to its partner drops both, any other key
   * is decoded and the scan goes on after it.
   */
  lemma MatchTurn(s: seq<int>, i: int, next: int)
    requires KeysOk(s) && 0 <= i < |s| && next == if i + 1 < |s| then s[i + 1] else SENTINEL
    ensures XorOne(s[i], next) ==> i + 1 < |s| && DecodeAll(Unmatched(s[i..])) == DecodeAll(Unmatched(s[i + 2..]))
    ensures !XorOne(s[i], next) ==> DecodeAll(Unmatched(s[i..])) == [DecodeKey(s[i])] + DecodeAll(Unmatched(s[i + 1..]))
  {
    KeysBelow(s, i);
    assert s[i..][1..] == s[i + 1..];
    if XorOne(s[i], next) {
      assert s[i..][2..] == s[i + 2..];
    } else {
      assert Unmatched(s[i..]) == [s[i]] + Unmatched(s[i + 1..]);
    }
  }

  lemma KeysOkUnmatched(s: seq<int>)
    requires KeysOk(s)
    ensures KeysOk(Unmatched(s))
  {
    UnmatchedFrom(s);
    var u := Unmatched(s);
    forall i | 0 <= i < |u| ensures KeyOk(u[i]) {
      assert u[i] in multiset(s);
    }
  }

  /** A valid key is below 2^31, so it never pairs with the sentinel. */
  lemma KeysBelow(s: seq<int>, i: int)
    requires KeysOk(s) && 0 <= i < |s|
    ensures 0 <= s[i] < 0x8000_0000 && !XorOne(s[i], SENTINEL)
  {
    var e := DecodeKey(s[i]);
    DecodeEdgeKey(e.v1, e.v2);
  }
}
