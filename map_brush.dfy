// The brush-side cleanup of the map compiler
// (neo/tools/compilers/dmap/map.cpp:90-128, 206-251): dropping degenerate and
// duplicate plane numbers from a brush's side array in place, rejecting a
// brush that holds a plane and its mirror, and folding the side materials
// into the brush contents and opacity.
//
// A material is reduced to what these two functions read: its content flags
// and whether its coverage is MC_OPAQUE. Plane numbers come in pairs that
// differ only in the lowest bit (a plane and the same plane facing the other
// way), so "planenum ^ 1" is the mirror of a plane number.
module MapBrush {
  /** A content-flag word, as the set of the bit positions that are set. */
  type Flags = set<int>

  /** The slice of a material the brush code reads. */
  datatype Material = Material(contentFlags: Flags, isOpaque: bool)

  datatype MaybeMaterial = NoMaterial | HasMaterial(m: Material)

  /** side_t: the plane number and the material; -1 marks a plane without a normal. */
  datatype Side = Side(planenum: int, material: MaybeMaterial)

  /** CONTENTS_AREAPORTAL is bit 20 of the content flags. */
  const CONTENTS_AREAPORTAL_BIT: int := 20

  /** The plane number "n ^ 1" names: the lowest bit flipped (two's complement for negative n). */
  function Mirror(n: int): (m: int)
    ensures m != n && (m == n + 1 || m == n - 1)
  {
    if n % 2 == 0 then n + 1 else n - 1
  }

  lemma MirrorTwice(n: int)
    ensures Mirror(Mirror(n)) == n
  {
    if n % 2 == 0 {
      assert (n + 1) % 2 == 1;
    } else {
      assert (n - 1) % 2 == 0;
    }
  }

  /** uBrush_t: the side array, its fill and the fields SetBrushContents sets. */
  class Brush {
    var sides: array<Side>
    var numsides: int
    var contents: Flags
    var isOpaque: bool
    var contentShader: MaybeMaterial

    ghost predicate Valid()
      reads this
    {
      0 <= numsides <= sides.Length
    }

    constructor(sides: array<Side>, numsides: int)
      requires 0 <= numsides <= sides.Length
      ensures Valid() && this.sides == sides && this.numsides == numsides
      ensures contents == {} && !isOpaque && contentShader == NoMaterial
    {
      this.sides := sides;
      this.numsides := numsides;
      contents := {};
      isOpaque := false;
      contentShader := NoMaterial;
    }
  }

  // ---------------------------------------------------------------------
  // RemoveDuplicateBrushPlanes as a state machine over the whole side array

  /** The loop state: the side array's contents, numsides and the loop index i. */
  datatype Pass = Pass(sides: seq<Side>, n: int, i: int)

  predicate PassOk(p: Pass) {
    1 <= p.i && p.n <= |p.sides| && (p.i <= p.n || p.n <= 1)
  }

  /** The first j in [j0, i) whose plane equals side i's plane or is its mirror; i when there is none. */
  function ClashFrom(a: seq<Side>, i: int, j0: int): (c: int)
    requires 0 <= j0 <= i < |a|
    ensures j0 <= c <= i
    decreases i - j0
  {
    if j0 == i then i
    else if a[i].planenum == a[j0].planenum || a[i].planenum == Mirror(a[j0].planenum) then j0
    else ClashFrom(a, i, j0 + 1)
  }

  /** The array after side i is removed: sides i+1 .. n-1 move down one slot, the rest stay. */
  function ShiftOut(a: seq<Side>, i: int, n: int): (r: seq<Side>)
    requires 0 <= i < n <= |a|
    ensures |r| == |a|
  {
    seq(|a|, m requires 0 <= m < |a| => if i <= m < n - 1 then a[m + 1] else a[m])
  }

  /** One turn of the outer loop: (stopped, next state). */
  function Turn(p: Pass): (r: (bool, Pass))
    requires PassOk(p) && p.i < p.n
  {
    var a := p.sides;
    var x := a[p.i].planenum;
    if x == -1 then (false, Pass(ShiftOut(a, p.i, p.n), p.n - 1, p.i))
    else
      var c := ClashFrom(a, p.i, 0);
      if c == p.i then (false, Pass(a, p.n, p.i + 1))
      else if x == a[c].planenum then (false, Pass(ShiftOut(a, p.i, p.n), p.n - 1, p.i))
      else (true, p)
  }

  /** The whole loop: whether the brush is kept, and the final state. */
  function Run(p: Pass): (r: (bool, Pass))
    requires PassOk(p)
    decreases p.n - p.i
  {
    if p.i >= p.n then (true, p)
    else
      var t := Turn(p);
      if t.0 then (false, t.1) else Run(t.1)
  }

  // ---------------------------------------------------------------------
  // The reference: a filter over the sides and a mirror test over pairs

  function PlaneSet(s: seq<Side>): set<int> {
    set k | 0 <= k < |s| :: s[k].planenum
  }

  /** No kept plane number has its mirror among the kept plane numbers. */
  ghost predicate MirrorFree(P: set<int>) {
    forall x :: x in P ==> Mirror(x) !in P
  }

  /** Keep the sides of rest in order, skipping -1 and plane numbers already kept. */
  function Filter(kept: seq<Side>, rest: seq<Side>): seq<Side>
    decreases |rest|
  {
    if rest == [] then kept
    else if rest[0].planenum == -1 || rest[0].planenum in PlaneSet(kept) then Filter(kept, rest[1..])
    else Filter(kept + [rest[0]], rest[1..])
  }

  /** Whether filtering rest after kept meets a plane whose mirror is already kept. */
  function FailsFrom(kept: seq<Side>, rest: seq<Side>): bool
    decreases |rest|
  {
    if rest == [] then false
    else if rest[0].planenum == -1 then FailsFrom(kept, rest[1..])
    else if Mirror(rest[0].planenum) in PlaneSet(kept) then true
    else if rest[0].planenum in PlaneSet(kept) then FailsFrom(kept, rest[1..])
    else FailsFrom(kept + [rest[0]], rest[1..])
  }

  /** Side 0 and, after it, every side with a new valid plane number. */
  function Kept(s: seq<Side>): seq<Side> {
    if s == [] then [] else Filter(s[..1], s[1..])
  }

  /** Some valid side j >= 1 holds the mirror of an earlier side i that is side 0 or valid. */
  ghost predicate Mirrored(s: seq<Side>) {
    exists i, j :: 0 <= i < j < |s| && s[j].planenum != -1 && (i == 0 || s[i].planenum != -1)
      && s[j].planenum == Mirror(s[i].planenum)
  }

  lemma PlaneSetAppend(s: seq<Side>, x: Side)
    ensures PlaneSet(s + [x]) == PlaneSet(s) + {x.planenum}
  {
    var t := s + [x];
    assert t[|s|] == x;
    forall y | y in PlaneSet(s) ensures y in PlaneSet(t) {
      var k :| 0 <= k < |s| && s[k].planenum == y;
      assert t[k] == s[k];
    }
    forall y | y in PlaneSet(t) ensures y in PlaneSet(s) + {x.planenum} {
      var k :| 0 <= k < |t| && t[k].planenum == y;
      if k < |s| { assert t[k] == s[k]; }
    }
  }

  /** Adding a plane number that neither is nor mirrors a kept one keeps the set mirror-free. */
  lemma MirrorFreeAdd(P: set<int>, x: int)
    requires MirrorFree(P) && x !in P && Mirror(x) !in P
    ensures MirrorFree(P + {x})
  {
    forall y | y in P + {x} ensures Mirror(y) !in P + {x} {
      MirrorTwice(y);
      MirrorTwice(x);
    }
  }

  // ---------------------------------------------------------------------
  // The machine computes the reference

  /** What the scan over j finds, in terms of the kept plane numbers a[..i]. */
  lemma ClashMeaning(a: seq<Side>, i: int, j0: int)
    requires 0 <= j0 <= i < |a|
    ensures var c := ClashFrom(a, i, j0);
      (c == i <==> forall j :: j0 <= j < i ==> a[j].planenum != a[i].planenum && a[i].planenum != Mirror(a[j].planenum))
      && (c < i ==> a[c].planenum == a[i].planenum || a[i].planenum == Mirror(a[c].planenum))
    decreases i - j0
  {
    if j0 < i {
      ClashMeaning(a, i, j0 + 1);
    }
  }

  /** The turn agrees with the filter's step on the plane numbers kept so far. */
  lemma TurnMeaning(p: Pass)
    requires PassOk(p) && p.i < p.n && MirrorFree(PlaneSet(p.sides[..p.i]))
    ensures var a := p.sides; var x := a[p.i].planenum; var P := PlaneSet(a[..p.i]); var t := Turn(p);
      (t.0 <==> x != -1 && Mirror(x) in P)
      && (x != -1 && Mirror(x) !in P && x in P ==> t.1 == Pass(ShiftOut(a, p.i, p.n), p.n - 1, p.i))
      && (x != -1 && Mirror(x) !in P && x !in P ==> t.1 == Pass(a, p.n, p.i + 1))
  {
    var a := p.sides;
    var x := a[p.i].planenum;
    var P := PlaneSet(a[..p.i]);
    if x != -1 {
      var c := ClashFrom(a, p.i, 0);
      ClashMeaning(a, p.i, 0);
      MirrorTwice(x);
      if c == p.i {
        forall y | y in P ensures y != x && y != Mirror(x) {
          var k :| 0 <= k < p.i && a[..p.i][k].planenum == y;
          assert a[..p.i][k] == a[k];
          MirrorTwice(a[k].planenum);
        }
      } else {
        assert a[..p.i][c] == a[c];
        assert a[c].planenum in P;
        if x == a[c].planenum {
          assert x in P;
        } else {
          MirrorTwice(a[c].planenum);
          assert Mirror(x) in P;
        }
      }
    }
  }

  lemma ShiftOutSlices(a: seq<Side>, i: int, n: int)
    requires 0 <= i < n <= |a|
    ensures ShiftOut(a, i, n)[..i] == a[..i]
    ensures ShiftOut(a, i, n)[i..n - 1] == a[i + 1..n]
    ensures ShiftOut(a, i, n)[0] == a[0] || i == 0
  {
  }

  /** A turn that removes side i leaves the kept prefix as it is and takes side i off the rest. */
  lemma DropStep(p: Pass)
    requires PassOk(p) && p.i < p.n && MirrorFree(PlaneSet(p.sides[..p.i]))
    requires var x := p.sides[p.i].planenum; x == -1 || (x in PlaneSet(p.sides[..p.i]) && Mirror(x) !in PlaneSet(p.sides[..p.i]))
    ensures var t := Turn(p); var q := t.1;
      !t.0 && PassOk(q) && q.i <= q.n && q.i == p.i && q.n == p.n - 1 && Run(p) == Run(q)
      && q.sides[..q.i] == p.sides[..p.i]
      && FailsFrom(p.sides[..p.i], p.sides[p.i..p.n]) == FailsFrom(q.sides[..q.i], q.sides[q.i..q.n])
      && Filter(p.sides[..p.i], p.sides[p.i..p.n]) == Filter(q.sides[..q.i], q.sides[q.i..q.n])
  {
    TurnMeaning(p);
    ShiftOutSlices(p.sides, p.i, p.n);
    var rest := p.sides[p.i..p.n];
    assert rest[0] == p.sides[p.i] && rest[1..] == p.sides[p.i + 1..p.n];
  }

  /** A turn that keeps side i moves it from the rest onto the kept prefix. */
  lemma KeepStep(p: Pass)
    requires PassOk(p) && p.i < p.n && MirrorFree(PlaneSet(p.sides[..p.i]))
    requires var x := p.sides[p.i].planenum; x != -1 && x !in PlaneSet(p.sides[..p.i]) && Mirror(x) !in PlaneSet(p.sides[..p.i])
    ensures var t := Turn(p); var q := t.1;
      !t.0 && PassOk(q) && q.i <= q.n && q == Pass(p.sides, p.n, p.i + 1) && Run(p) == Run(q)
      && MirrorFree(PlaneSet(q.sides[..q.i]))
      && FailsFrom(p.sides[..p.i], p.sides[p.i..p.n]) == FailsFrom(q.sides[..q.i], q.sides[q.i..q.n])
      && Filter(p.sides[..p.i], p.sides[p.i..p.n]) == Filter(q.sides[..q.i], q.sides[q.i..q.n])
  {
    TurnMeaning(p);
    var a := p.sides;
    var kept := a[..p.i];
    var rest := a[p.i..p.n];
    assert rest[0] == a[p.i] && rest[1..] == a[p.i + 1..p.n];
    assert a[..p.i + 1] == kept + [rest[0]];
    PlaneSetAppend(kept, rest[0]);
    MirrorFreeAdd(PlaneSet(kept), a[p.i].planenum);
  }

  /** A turn that meets a mirrored plane stops the loop, and the filter fails there too. */
  lemma StopStep(p: Pass)
    requires PassOk(p) && p.i < p.n && MirrorFree(PlaneSet(p.sides[..p.i]))
    requires var x := p.sides[p.i].planenum; x != -1 && Mirror(x) in PlaneSet(p.sides[..p.i])
    ensures !Run(p).0 && FailsFrom(p.sides[..p.i], p.sides[p.i..p.n])
  {
    TurnMeaning(p);
    var rest := p.sides[p.i..p.n];
    assert rest[0] == p.sides[p.i];
  }

  /**
   * From any state whose kept prefix is mirror-free, the loop fails exactly
   * when the filter meets a mirrored plane, and otherwise leaves the
   * filtered sides in the array.
   */
  lemma {:induction false} RunMeaning(p: Pass)
    requires PassOk(p) && p.i <= p.n && MirrorFree(PlaneSet(p.sides[..p.i]))
    ensures var r := Run(p); var kept := p.sides[..p.i]; var rest := p.sides[p.i..p.n];
      (r.0 <==> !FailsFrom(kept, rest))
      && (r.0 ==> 0 <= r.1.n <= |r.1.sides| && r.1.sides[..r.1.n] == Filter(kept, rest))
    decreases p.n - p.i
  {
    if p.i < p.n {
      var x := p.sides[p.i].planenum;
      var P := PlaneSet(p.sides[..p.i]);
      if x == -1 || (Mirror(x) !in P && x in P) {
        DropStep(p);
        RunMeaning(Turn(p).1);
      } else if Mirror(x) !in P {
        KeepStep(p);
        RunMeaning(Turn(p).1);
      } else {
        StopStep(p);
      }
    } else {
      assert p.sides[p.i..p.n] == [];
    }
  }

  /** The loop never removes side 0, never grows numsides, and keeps the array length. */
  lemma {:induction false} RunShrinks(p: Pass)
    requires PassOk(p) && 0 <= p.n
    ensures var r := Run(p);
      |r.1.sides| == |p.sides| && 0 <= r.1.n <= p.n && PassOk(r.1)
      && (p.n > 0 ==> r.1.sides[0] == p.sides[0])
    decreases p.n - p.i
  {
    if p.i < p.n {
      var t := Turn(p);
      if !t.0 {
        if t.1.n < p.n {
          ShiftOutSlices(p.sides, p.i, p.n);
        }
        RunShrinks(t.1);
      }
    }
  }

  // ---------------------------------------------------------------------
  // The reference, stated without the machine

  /** No valid side from index 1 on repeats a plane number of an earlier valid side (or side 0). */
  ghost predicate Clean(s: seq<Side>) {
    (forall k :: 1 <= k < |s| ==> s[k].planenum != -1)
    && (forall k1, k2 :: 0 <= k1 < k2 < |s| ==> s[k1].planenum != s[k2].planenum)
  }

  /** The filter keeps the sides kept so far, stays clean and takes in every valid plane number. */
  lemma {:induction false} FilterFacts(kept: seq<Side>, rest: seq<Side>)
    requires Clean(kept) && |kept| >= 1
    ensures var f := Filter(kept, rest);
      Clean(f) && |kept| <= |f| <= |kept| + |rest| && f[..|kept|] == kept
      && PlaneSet(f) == PlaneSet(kept) + (set k | 0 <= k < |rest| && rest[k].planenum != -1 :: rest[k].planenum)
    decreases |rest|
  {
    if rest != [] {
      var x := rest[0];
      var R := set k | 0 <= k < |rest| && rest[k].planenum != -1 :: rest[k].planenum;
      var R1 := set k | 0 <= k < |rest[1..]| && rest[1..][k].planenum != -1 :: rest[1..][k].planenum;
      assert R == R1 + (if x.planenum == -1 then {} else {x.planenum}) by {
        forall y | y in R ensures y in R1 + (if x.planenum == -1 then {} else {x.planenum}) {
          var k :| 0 <= k < |rest| && rest[k].planenum != -1 && rest[k].planenum == y;
          if k > 0 { assert rest[1..][k - 1] == rest[k]; }
        }
        forall y | y in R1 ensures y in R {
          var k :| 0 <= k < |rest[1..]| && rest[1..][k].planenum != -1 && rest[1..][k].planenum == y;
          assert rest[k + 1] == rest[1..][k];
        }
      }
      if x.planenum == -1 || x.planenum in PlaneSet(kept) {
        FilterFacts(kept, rest[1..]);
      } else {
        var k2 := kept + [x];
        PlaneSetAppend(kept, x);
        assert Clean(k2) by {
          forall k1, k | 0 <= k1 < k < |k2| ensures k2[k1].planenum != k2[k].planenum {
            if k == |kept| {
              assert k2[k1] == kept[k1];
              assert kept[k1].planenum in PlaneSet(kept);
            }
          }
        }
        FilterFacts(k2, rest[1..]);
        var f := Filter(k2, rest[1..]);
        assert f[..|kept|] == f[..|k2|][..|kept|];
      }
    }
  }

  /** The kept sides: side 0 first, then no -1, no repeated plane number, every valid plane number present. */
  lemma KeptFacts(s: seq<Side>)
    requires |s| >= 1
    ensures var f := Kept(s);
      Clean(f) && 1 <= |f| <= |s| && f[0] == s[0]
      && PlaneSet(f) == {s[0].planenum} + (set k | 1 <= k < |s| && s[k].planenum != -1 :: s[k].planenum)
  {
    assert Clean(s[..1]);
    FilterFacts(s[..1], s[1..]);
    var R := set k | 0 <= k < |s[1..]| && s[1..][k].planenum != -1 :: s[1..][k].planenum;
    var S := set k | 1 <= k < |s| && s[k].planenum != -1 :: s[k].planenum;
    assert R == S by {
      forall y | y in R ensures y in S {
        var k :| 0 <= k < |s[1..]| && s[1..][k].planenum != -1 && s[1..][k].planenum == y;
        assert s[k + 1] == s[1..][k];
      }
      forall y | y in S ensures y in R {
        var k :| 1 <= k < |s| && s[k].planenum != -1 && s[k].planenum == y;
        assert s[1..][k - 1] == s[k];
      }
    }
    assert PlaneSet(s[..1]) == {s[0].planenum} by {
      assert s[..1][0] == s[0];
    }
    var f := Kept(s);
    assert f[0] == f[..1][0];
  }

  /** Some valid side of rest mirrors a kept plane or an earlier valid side of rest. */
  ghost predicate MirrorAhead(kept: seq<Side>, rest: seq<Side>) {
    exists j :: 0 <= j < |rest| && rest[j].planenum != -1
      && (Mirror(rest[j].planenum) in PlaneSet(kept)
          || exists i :: 0 <= i < j && rest[i].planenum != -1 && rest[j].planenum == Mirror(rest[i].planenum))
  }

  /** The filter fails exactly when a mirrored pair lies ahead. */
  lemma {:induction false} FailsMeaning(kept: seq<Side>, rest: seq<Side>)
    requires MirrorFree(PlaneSet(kept))
    ensures FailsFrom(kept, rest) <==> MirrorAhead(kept, rest)
    decreases |rest|
  {
    if rest != [] {
      var x := rest[0].planenum;
      var P := PlaneSet(kept);
      var tail := rest[1..];
      if x == -1 {
        FailsMeaning(kept, tail);
        AheadSkip(kept, rest);
      } else if Mirror(x) in P {
        assert MirrorAhead(kept, rest) by {
          assert rest[0].planenum != -1 && Mirror(rest[0].planenum) in P;
        }
      } else if x in P {
        FailsMeaning(kept, tail);
        AheadDrop(kept, rest);
      } else {
        PlaneSetAppend(kept, rest[0]);
        MirrorFreeAdd(P, x);
        FailsMeaning(kept + [rest[0]], tail);
        AheadKeep(kept, rest);
      }
    }
  }

  /** A leading -1 neither mirrors nor is mirrored. */
  lemma AheadSkip(kept: seq<Side>, rest: seq<Side>)
    requires rest != [] && rest[0].planenum == -1
    ensures MirrorAhead(kept, rest) <==> MirrorAhead(kept, rest[1..])
  {
    var tail := rest[1..];
    if MirrorAhead(kept, rest) {
      var j :| 0 <= j < |rest| && rest[j].planenum != -1
        && (Mirror(rest[j].planenum) in PlaneSet(kept)
            || exists i :: 0 <= i < j && rest[i].planenum != -1 && rest[j].planenum == Mirror(rest[i].planenum));
      assert tail[j - 1] == rest[j];
      if !(Mirror(rest[j].planenum) in PlaneSet(kept)) {
        var i :| 0 <= i < j && rest[i].planenum != -1 && rest[j].planenum == Mirror(rest[i].planenum);
        assert tail[i - 1] == rest[i];
      }
    }
    if MirrorAhead(kept, tail) {
      var j :| 0 <= j < |tail| && tail[j].planenum != -1
        && (Mirror(tail[j].planenum) in PlaneSet(kept)
            || exists i :: 0 <= i < j && tail[i].planenum != -1 && tail[j].planenum == Mirror(tail[i].planenum));
      assert rest[j + 1] == tail[j];
      if !(Mirror(tail[j].planenum) in PlaneSet(kept)) {
        var i :| 0 <= i < j && tail[i].planenum != -1 && tail[j].planenum == Mirror(tail[i].planenum);
        assert rest[i + 1] == tail[i];
      }
    }
  }

  /** A leading duplicate of a kept plane adds nothing: its mirror partners are already kept partners. */
  lemma AheadDrop(kept: seq<Side>, rest: seq<Side>)
    requires rest != [] && rest[0].planenum != -1 && rest[0].planenum in PlaneSet(kept)
    requires Mirror(rest[0].planenum) !in PlaneSet(kept)
    ensures MirrorAhead(kept, rest) <==> MirrorAhead(kept, rest[1..])
  {
    var tail := rest[1..];
    var P := PlaneSet(kept);
    if MirrorAhead(kept, rest) {
      var j :| 0 <= j < |rest| && rest[j].planenum != -1
        && (Mirror(rest[j].planenum) in P
            || exists i :: 0 <= i < j && rest[i].planenum != -1 && rest[j].planenum == Mirror(rest[i].planenum));
      assert j > 0;
      assert tail[j - 1] == rest[j];
      if !(Mirror(rest[j].planenum) in P) {
        var i :| 0 <= i < j && rest[i].planenum != -1 && rest[j].planenum == Mirror(rest[i].planenum);
        if i == 0 {
          MirrorTwice(rest[0].planenum);
          assert false;
        }
        assert tail[i - 1] == rest[i];
      }
    }
    if MirrorAhead(kept, tail) {
      var j :| 0 <= j < |tail| && tail[j].planenum != -1
        && (Mirror(tail[j].planenum) in P
            || exists i :: 0 <= i < j && tail[i].planenum != -1 && tail[j].planenum == Mirror(tail[i].planenum));
      assert rest[j + 1] == tail[j];
      if !(Mirror(tail[j].planenum) in P) {
        var i :| 0 <= i < j && tail[i].planenum != -1 && tail[j].planenum == Mirror(tail[i].planenum);
        assert rest[i + 1] == tail[i];
      }
    }
  }

  /** A leading new plane moves from rest into kept. */
  lemma AheadKeep(kept: seq<Side>, rest: seq<Side>)
    requires rest != [] && rest[0].planenum != -1
    requires Mirror(rest[0].planenum) !in PlaneSet(kept)
    ensures MirrorAhead(kept, rest) <==> MirrorAhead(kept + [rest[0]], rest[1..])
  {
    var tail := rest[1..];
    var x := rest[0].planenum;
    var P := PlaneSet(kept);
    PlaneSetAppend(kept, rest[0]);
    var Q := PlaneSet(kept + [rest[0]]);
    if MirrorAhead(kept, rest) {
      var j :| 0 <= j < |rest| && rest[j].planenum != -1
        && (Mirror(rest[j].planenum) in P
            || exists i :: 0 <= i < j && rest[i].planenum != -1 && rest[j].planenum == Mirror(rest[i].planenum));
      assert j > 0;
      assert tail[j - 1] == rest[j];
      if !(Mirror(rest[j].planenum) in P) {
        var i :| 0 <= i < j && rest[i].planenum != -1 && rest[j].planenum == Mirror(rest[i].planenum);
        if i == 0 {
          MirrorTwice(x);
          assert Mirror(tail[j - 1].planenum) in Q;
        } else {
          assert tail[i - 1] == rest[i];
        }
      }
    }
    if MirrorAhead(kept + [rest[0]], tail) {
      var j :| 0 <= j < |tail| && tail[j].planenum != -1
        && (Mirror(tail[j].planenum) in Q
            || exists i :: 0 <= i < j && tail[i].planenum != -1 && tail[j].planenum == Mirror(tail[i].planenum));
      assert rest[j + 1] == tail[j];
      if Mirror(tail[j].planenum) in Q {
        if Mirror(tail[j].planenum) == x {
          MirrorTwice(tail[j].planenum);
          assert rest[j + 1].planenum == Mirror(rest[0].planenum);
        }
      } else {
        var i :| 0 <= i < j && tail[i].planenum != -1 && tail[j].planenum == Mirror(tail[i].planenum);
        assert rest[i + 1] == tail[i];
      }
    }
  }

  /** Starting from side 0 alone, a mirrored pair ahead is a mirrored pair in the whole array. */
  lemma MirroredFromStart(s: seq<Side>)
    requires |s| >= 1
    ensures MirrorAhead(s[..1], s[1..]) <==> Mirrored(s)
  {
    var tail := s[1..];
    assert PlaneSet(s[..1]) == {s[0].planenum} by {
      assert s[..1][0] == s[0];
    }
    if MirrorAhead(s[..1], tail) {
      var j :| 0 <= j < |tail| && tail[j].planenum != -1
        && (Mirror(tail[j].planenum) in PlaneSet(s[..1])
            || exists i :: 0 <= i < j && tail[i].planenum != -1 && tail[j].planenum == Mirror(tail[i].planenum));
      assert s[j + 1] == tail[j];
      if Mirror(tail[j].planenum) in PlaneSet(s[..1]) {
        MirrorTwice(tail[j].planenum);
        assert s[j + 1].planenum == Mirror(s[0].planenum);
      } else {
        var i :| 0 <= i < j && tail[i].planenum != -1 && tail[j].planenum == Mirror(tail[i].planenum);
        assert s[i + 1] == tail[i];
      }
    }
    if Mirrored(s) {
      var i, j :| 0 <= i < j < |s| && s[j].planenum != -1 && (i == 0 || s[i].planenum != -1)
        && s[j].planenum == Mirror(s[i].planenum);
      assert tail[j - 1] == s[j];
      if i == 0 {
        MirrorTwice(s[0].planenum);
        assert Mirror(tail[j - 1].planenum) in PlaneSet(s[..1]);
      } else {
        assert tail[i - 1] == s[i];
      }
    }
  }

  /**
   * RemoveDuplicateBrushPlanes on the first n sides of a: the brush is
   * rejected exactly when it holds a mirrored pair; otherwise the sides left
   * are side 0 followed by every new valid plane in order, and numsides is
   * their count.
   */
  lemma RemovePlanesMeaning(a: seq<Side>, n: int)
    requires 1 <= n <= |a|
    ensures var r := Run(Pass(a, n, 1));
      0 <= r.1.n <= |r.1.sides|
      && (r.0 <==> !Mirrored(a[..n]))
      && (r.0 ==> r.1.sides[..r.1.n] == Kept(a[..n]))
  {
    var s := a[..n];
    assert a[..1] == s[..1] && a[1..n] == s[1..];
    assert PlaneSet(s[..1]) == {s[0].planenum} by {
      assert s[..1][0] == s[0];
    }
    assert MirrorFree({s[0].planenum}) by {
      assert Mirror(s[0].planenum) != s[0].planenum;
    }
    RunMeaning(Pass(a, n, 1));
    RunShrinks(Pass(a, n, 1));
    FailsMeaning(s[..1], s[1..]);
    MirroredFromStart(s);
  }

  // ---------------------------------------------------------------------
  // The in-place method

  /** The inner "for k" loop: sides i+1 .. n-1 each move down one slot. */
  method ShiftSidesDown(a: array<Side>, i: int, n: int)
    requires 0 <= i < n <= a.Length
    modifies a
    ensures a[..] == ShiftOut(old(a[..]), i, n)
  {
    var k := i + 1;
    while k < n
      invariant i + 1 <= k <= n
      invariant forall m :: 0 <= m < a.Length ==> a[m] == (if i <= m < k - 1 then old(a[m + 1]) else old(a[m]))
    {
      a[k - 1] := a[k];
      k := k + 1;
    }
  }

  /** The scan over j < i for an equal or mirrored plane number. */
  method FindClash(a: array<Side>, i: int) returns (c: int)
    requires 0 <= i < a.Length
    ensures c == ClashFrom(a[..], i, 0)
  {
    var j := 0;
    while j < i
      invariant 0 <= j <= i
      invariant ClashFrom(a[..], i, j) == ClashFrom(a[..], i, 0)
    {
      if a[i].planenum == a[j].planenum || a[i].planenum == Mirror(a[j].planenum) {
        return j;
      }
      j := j + 1;
    }
    return i;
  }

  /**
   * Removes sides whose plane number is -1 or repeats an earlier side's, from
   * side 1 on; returns false as soon as a side mirrors an earlier one. The
   * array and numsides end as the loop machine says, and the lemma
   * RemovePlanesMeaning says what that is.
   */
  method RemoveDuplicateBrushPlanes(b: Brush) returns (ok: bool)
    requires b.Valid()
    modifies b, b.sides
    ensures b.Valid() && b.sides == old(b.sides)
    ensures var r := Run(Pass(old(b.sides[..]), old(b.numsides), 1));
      ok == r.0 && b.sides[..] == r.1.sides && b.numsides == r.1.n
    ensures b.contents == old(b.contents) && b.isOpaque == old(b.isOpaque) && b.contentShader == old(b.contentShader)
  {
    ghost var goal := Run(Pass(b.sides[..], b.numsides, 1));
    var i := 1;
    while i < b.numsides
      invariant b.Valid() && b.sides == old(b.sides) && 1 <= i
      invariant b.contents == old(b.contents) && b.isOpaque == old(b.isOpaque) && b.contentShader == old(b.contentShader)
      invariant PassOk(Pass(b.sides[..], b.numsides, i))
      invariant Run(Pass(b.sides[..], b.numsides, i)) == goal
      decreases b.numsides - i
    {
      ghost var p := Pass(b.sides[..], b.numsides, i);
      if b.sides[i].planenum == -1 {
        ShiftSidesDown(b.sides, i, b.numsides);
        b.numsides := b.numsides - 1;
        assert Pass(b.sides[..], b.numsides, i) == Turn(p).1;
        continue;
      }
      var c := FindClash(b.sides, i);
      if c == i {
        i := i + 1;
        assert Pass(b.sides[..], b.numsides, i) == Turn(p).1;
      } else if b.sides[i].planenum == b.sides[c].planenum {
        ShiftSidesDown(b.sides, i, b.numsides);
        b.numsides := b.numsides - 1;
        assert Pass(b.sides[..], b.numsides, i) == Turn(p).1;
      } else {
        assert Turn(p) == (true, p);
        return false;
      }
    }
    return true;
  }

  // ---------------------------------------------------------------------
  // SetBrushContents

  /** The flags a side adds: its material's, or none when it has no material. */
  function SideFlags(side: Side): Flags {
    match side.material
    case NoMaterial => {}
    case HasMaterial(m) => m.contentFlags
  }

  /** The content flags of side 0 OR-ed with those of every later side that has a material. */
  function ContentsUpTo(s: seq<Side>, n: int): Flags
    requires 1 <= n <= |s|
  {
    if n == 1 then SideFlags(s[0]) else ContentsUpTo(s, n - 1) + SideFlags(s[n - 1])
  }

  /** Every side after side 0 that has a material has opaque coverage. */
  predicate OpaqueUpTo(s: seq<Side>, n: int)
    requires 1 <= n <= |s|
  {
    forall k :: 1 <= k < n ==> s[k].material.HasMaterial? ==> s[k].material.m.isOpaque
  }

  /** A flag is in the folded contents exactly when side 0's material or a later side's material has it. */
  lemma {:induction false} ContentsHas(s: seq<Side>, n: int, bit: int)
    requires 1 <= n <= |s|
    ensures bit in ContentsUpTo(s, n) <==>
      (bit in SideFlags(s[0])
       || exists k :: 1 <= k < n && s[k].material.HasMaterial? && bit in s[k].material.m.contentFlags)
  {
    if n > 1 {
      ContentsHas(s, n - 1, bit);
      if bit in SideFlags(s[n - 1]) {
        assert s[n - 1].material.HasMaterial? && bit in s[n - 1].material.m.contentFlags;
      }
    }
  }

  /** The loop step: "if c2 != contents, contents |= c2" is the OR either way, and a side without a material adds nothing. */
  lemma ContentsStep(s: seq<Side>, i: int, contents: Flags)
    requires 1 <= i < |s| && contents == ContentsUpTo(s, i)
    ensures s[i].material.NoMaterial? ==> ContentsUpTo(s, i + 1) == contents
    ensures s[i].material.HasMaterial? ==>
      ContentsUpTo(s, i + 1) == (if s[i].material.m.contentFlags != contents then contents + s[i].material.m.contentFlags else contents)
  {
  }

  /** The file-static statistics counter c_areaportals. */
  class MapStats {
    var areaPortals: int

    constructor()
      ensures areaPortals == 0
    {
      areaPortals := 0;
    }
  }

  /**
   * Sets the brush contents to the OR of its materials' flags, its content
   * shader to side 0's material and opaque to whether every later side with
   * a material is opaque; counts an area portal when the contents say so.
   */
  method SetBrushContents(b: Brush, stats: MapStats)
    requires b.Valid() && b.numsides >= 1 && b.sides[0].material.HasMaterial?
    modifies b, stats
    ensures b.sides == old(b.sides) && b.numsides == old(b.numsides)
    ensures b.contents == ContentsUpTo(b.sides[..], b.numsides)
    ensures b.isOpaque == OpaqueUpTo(b.sides[..], b.numsides)
    ensures b.contentShader == b.sides[0].material
    ensures stats.areaPortals == old(stats.areaPortals) + (if CONTENTS_AREAPORTAL_BIT in b.contents then 1 else 0)
  {
    var contents := b.sides[0].material.m.contentFlags;
    b.contentShader := b.sides[0].material;
    b.isOpaque := true;
    var i := 1;
    while i < b.numsides
      invariant 1 <= i <= b.numsides && b.Valid()
      invariant b.sides == old(b.sides) && b.numsides == old(b.numsides)
      invariant b.contentShader == b.sides[0].material
      invariant contents == ContentsUpTo(b.sides[..], i)
      invariant stats.areaPortals == old(stats.areaPortals)
      invariant b.isOpaque == OpaqueUpTo(b.sides[..], i)
    {
      var s := b.sides[i];
      ContentsStep(b.sides[..], i, contents);
      if s.material.HasMaterial? {
        var c2 := s.material.m.contentFlags;
        if c2 != contents {
          contents := contents + c2;
        }
        if !s.material.m.isOpaque {
          b.isOpaque := false;
        }
      }
      i := i + 1;
    }
    if CONTENTS_AREAPORTAL_BIT in contents {
      stats.areaPortals := stats.areaPortals + 1;
    }
    b.contents := contents;
  }
}
