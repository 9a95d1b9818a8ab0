// Epsilon vertex welding of the offline shadow optimizer
// (neo/tools/compilers/dmap/shadowopt3.cpp:974-1017): FindUniqueVert looks a
// vertex up in the growing `uniqued` table and appends it when no stored
// vertex is within UNIQUE_EPSILON on all three axes; UniqueVerts runs it over
// every corner of every output triangle.
module ShadowWeld {
  import opened ShadowGeometry

  const UNIQUE_EPSILON: real := 0.1

  /** UniqueVerts allocates room for this many welded vertices. */
  const MAX_UNIQUED: nat := 100000

  function Abs(r: real): real { if r < 0.0 then -r else r }

  /** v is within UNIQUE_EPSILON of check on every axis. */
  predicate Close(v: Vec3, check: Vec3) {
    Abs(v.x - check.x) < UNIQUE_EPSILON && Abs(v.y - check.y) < UNIQUE_EPSILON
    && Abs(v.z - check.z) < UNIQUE_EPSILON
  }

  lemma CloseSymmetric(v: Vec3, w: Vec3)
    ensures Close(v, w) <==> Close(w, v)
  {
    assert Abs(v.x - w.x) == Abs(w.x - v.x);
    assert Abs(v.y - w.y) == Abs(w.y - v.y);
    assert Abs(v.z - w.z) == Abs(w.z - v.z);
  }

  /** The index of the first stored vertex close to v, or |table| when there is none. */
  function FirstClose(table: seq<Vec3>, v: Vec3): (k: nat)
    ensures k <= |table|
    ensures k < |table| ==> Close(v, table[k])
    ensures forall j :: 0 <= j < k ==> !Close(v, table[j])
  {
    if |table| == 0 then 0
    else if Close(v, table[0]) then 0
    else
      var k := FirstClose(table[1..], v);
      assert forall j :: 1 <= j < k + 1 ==> table[j] == table[1..][j - 1];
      k + 1
  }

  /** The table after looking v up: unchanged on a hit, v appended on a miss. */
  function Weld(table: seq<Vec3>, v: Vec3): seq<Vec3> {
    if FirstClose(table, v) < |table| then table else table + [v]
  }

  /** No stored vertex is close to an earlier one. */
  predicate Separated(table: seq<Vec3>) {
    forall i, j :: 0 <= i < j < |table| ==> !Close(table[j], table[i])
  }

  /**
   * A lookup grows the table by at most one, the index it returns names a
   * vertex close to v, and looking v up again gives the same index and
   * leaves the table alone.
   */
  lemma WeldAgain(table: seq<Vec3>, v: Vec3)
    ensures var t := Weld(table, v); var k := FirstClose(table, v);
      |table| <= |t| <= |table| + 1 && t[..|table|] == table
      && k < |t| && Close(v, t[k])
      && FirstClose(t, v) == k && Weld(t, v) == t
  {
    var t := Weld(table, v);
    var k := FirstClose(table, v);
    if k == |table| {
      assert t[k] == v;
      assert Close(v, v);
      assert forall j :: 0 <= j < k ==> t[j] == table[j];
    }
  }

  /** Welding keeps the table free of close pairs. */
  lemma WeldSeparated(table: seq<Vec3>, v: Vec3)
    requires Separated(table)
    ensures Separated(Weld(table, v))
  {
    var t := Weld(table, v);
    if FirstClose(table, v) == |table| {
      forall i, j | 0 <= i < j < |t|
        ensures !Close(t[j], t[i])
      {
        if j == |table| {
          assert t[j] == v && t[i] == table[i];
        } else {
          assert t[j] == table[j] && t[i] == table[i];
        }
      }
    }
  }

  // ---------------------------------------------------------------------
  // The `uniqued` table

  /** The file-static uniqued / numUniqued / maxUniqued triple. */
  class Welder {
    var count: int
    const data: array<Vec3>

    ghost predicate Valid()
      reads this
    {
      0 <= count <= data.Length
    }

    ghost function Contents(): seq<Vec3>
      reads this, data
      requires Valid()
    {
      data[..count]
    }

    /** Mem_Alloc of maxUniqued entries, numUniqued = 0. */
    constructor(maxUniqued: nat)
      ensures Valid() && count == 0 && data.Length == maxUniqued && fresh(data)
    {
      count := 0;
      data := new Vec3[maxUniqued](_ => Vec3(0.0, 0.0, 0.0));
    }

    /**
     * FindUniqueVert. The source stops with an error when it would have to
     * append to a full table; that is a precondition here.
     */
    method FindUniqueVert(v: Vec3) returns (k: int)
      requires Valid()
      requires FirstClose(Contents(), v) < count || count < data.Length
      modifies this, data
      ensures Valid()
      ensures k == FirstClose(old(Contents()), v)
      ensures Contents() == Weld(old(Contents()), v)
    {
      k := 0;
      while k < count
        invariant 0 <= k <= count
        invariant forall j :: 0 <= j < k ==> !Close(v, data[j])
      {
        if Close(v, data[k]) {
          assert Contents()[k] == data[k];
          return;
        }
        k := k + 1;
      }
      assert FirstClose(Contents(), v) == count;
      data[count] := v;
      count := count + 1;
      assert Contents() == old(Contents()) + [v];
    }
  }

  // ---------------------------------------------------------------------
  // UniqueVerts

  /** The table after welding every vertex of cs, in order, into table. */
  function Table(table: seq<Vec3>, cs: seq<Vec3>): seq<Vec3>
    decreases |cs|
  {
    if |cs| == 0 then table else Table(Weld(table, cs[0]), cs[1..])
  }

  /** The index each vertex of cs gets when welded, in order, into table. */
  function Indexes(table: seq<Vec3>, cs: seq<Vec3>): (r: seq<int>)
    ensures |r| == |cs|
    decreases |cs|
  {
    if |cs| == 0 then [] else [FirstClose(table, cs[0])] + Indexes(Weld(table, cs[0]), cs[1..])
  }

  /** Welding more vertices only appends to the table. */
  lemma {:induction false} TableGrows(table: seq<Vec3>, cs: seq<Vec3>)
    ensures |table| <= |Table(table, cs)| && Table(table, cs)[..|table|] == table
    decreases |cs|
  {
    if |cs| != 0 {
      WeldAgain(table, cs[0]);
      TableGrows(Weld(table, cs[0]), cs[1..]);
    }
  }

  /**
   * What UniqueVerts establishes: every corner's index names a vertex of
   * the final table close to that corner, and no two table entries are close.
   */
  lemma {:induction false} WeldAllOk(table: seq<Vec3>, cs: seq<Vec3>)
    requires Separated(table)
    ensures var t := Table(table, cs); var ix := Indexes(table, cs);
      Separated(t)
      && forall i :: 0 <= i < |cs| ==> 0 <= ix[i] < |t| && Close(cs[i], t[ix[i]])
    decreases |cs|
  {
    if |cs| != 0 {
      var w := Weld(table, cs[0]);
      WeldAgain(table, cs[0]);
      WeldSeparated(table, cs[0]);
      WeldAllOk(w, cs[1..]);
      TableGrows(w, cs[1..]);
      var t := Table(table, cs);
      var ix := Indexes(table, cs);
      assert t == Table(w, cs[1..]);
      forall i | 0 <= i < |cs|
        ensures 0 <= ix[i] < |t| && Close(cs[i], t[ix[i]])
      {
        if i == 0 {
          assert t[ix[0]] == t[..|w|][ix[0]] == w[ix[0]];
        } else {
          assert ix[i] == Indexes(w, cs[1..])[i - 1] && cs[i] == cs[1..][i - 1];
        }
      }
    }
  }

  /** One turn of the UniqueVerts loop, and room for it when the final table fits. */
  lemma WeldStep(t: seq<Vec3>, cs: seq<Vec3>, i: int)
    requires 0 <= i < |cs|
    ensures Table(t, cs[i..]) == Table(Weld(t, cs[i]), cs[i + 1..])
    ensures Indexes(t, cs[i..]) == [FirstClose(t, cs[i])] + Indexes(Weld(t, cs[i]), cs[i + 1..])
    ensures FirstClose(t, cs[i]) < |t| || |t| < |Table(t, cs[i..])|
  {
    assert cs[i..][1..] == cs[i + 1..];
    TableGrows(Weld(t, cs[i]), cs[i + 1..]);
  }

  /** Welding a vertex list adds at most one entry per vertex. */
  lemma {:induction false} TableBound(table: seq<Vec3>, cs: seq<Vec3>)
    ensures |Table(table, cs)| <= |table| + |cs|
    decreases |cs|
  {
    if |cs| != 0 {
      WeldAgain(table, cs[0]);
      TableBound(Weld(table, cs[0]), cs[1..]);
    }
  }

  /** One turn of the FindUniqueVert loop: welds cs[i] and records its index. */
  method WeldNext(w: Welder, cs: seq<Vec3>, index: array<int>, i: int)
    requires w.Valid() && 0 <= i < |cs| && index.Length == |cs|
    requires |Table(w.Contents(), cs[i..])| <= w.data.Length
    modifies w, w.data, index
    ensures w.Valid()
    ensures Table(w.Contents(), cs[i + 1..]) == Table(old(w.Contents()), cs[i..])
    ensures index[..i + 1] + Indexes(w.Contents(), cs[i + 1..]) == old(index[..i]) + Indexes(old(w.Contents()), cs[i..])
  {
    ghost var t := w.Contents();
    ghost var pre := index[..i];
    WeldStep(t, cs, i);
    var k := w.FindUniqueVert(cs[i]);
    assert index[..i] == pre;
    index[i] := k;
    assert index[..i + 1] == pre + [k];
    WeldNextIndexes(pre, t, cs, i, k);
  }

  lemma WeldNextIndexes(pre: seq<int>, t: seq<Vec3>, cs: seq<Vec3>, i: int, k: int)
    requires 0 <= i < |cs| && k == FirstClose(t, cs[i])
    ensures (pre + [k]) + Indexes(Weld(t, cs[i]), cs[i + 1..]) == pre + Indexes(t, cs[i..])
  {
    WeldStep(t, cs, i);
  }

  /** The FindUniqueVert loop: welds every vertex of cs, in order, into an empty table. */
  method WeldAll(w: Welder, cs: seq<Vec3>, index: array<int>)
    requires w.Valid() && w.count == 0 && index.Length == |cs| && |Table([], cs)| <= w.data.Length
    modifies w, w.data, index
    ensures w.Valid() && w.Contents() == Table([], cs) && index[..] == Indexes([], cs)
  {
    var i := 0;
    assert w.Contents() == [];
    while i < |cs|
      invariant 0 <= i <= |cs| && w.Valid()
      invariant Table(w.Contents(), cs[i..]) == Table([], cs)
      invariant index[..i] + Indexes(w.Contents(), cs[i..]) == Indexes([], cs)
    {
      WeldNext(w, cs, index, i);
      i := i + 1;
    }
    assert index[..] == index[..i];
  }

  /**
   * UniqueVerts: corners holds the three vertices of every output triangle,
   * triangle by triangle, and index[3 * i + j] plays outputTris[i].index[j].
   * The table holds MAX_UNIQUED entries; overflowing it is an error in the
   * source and a precondition here.
   */
  method UniqueVerts(corners: seq<Vec3>, index: array<int>) returns (w: Welder)
    requires index.Length == |corners| && |Table([], corners)| <= MAX_UNIQUED
    modifies index
    ensures fresh(w) && fresh(w.data) && w.Valid()
    ensures w.Contents() == Table([], corners) && index[..] == Indexes([], corners)
  {
    w := new Welder(MAX_UNIQUED);
    WeldAll(w, corners, index);
  }
}
