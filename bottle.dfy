/** The bottle-and-cap thread generator: the arithmetic and the seed
    geometry that feed its mesh operators (spin, inset, extrude, weld,
    scale). The operators themselves are not part of this model; what is
    modelled is what the operator computes before and between them: the
    thread pitch and top height, the end phase of the thread, the faces the
    step option removes, the wall-thickness guard, the cap's enlargement,
    the profiles spun into walls and bodies, and when welding runs. */
module Bottle {
  import opened Common

  // ---------------------------------------------------------------------
  // Pitch, top height and phase

  /** The rise of one spin step: thread_height / v. */
  function Pitch(threadHeight: real, v: int): real
    requires v > 0
  {
    threadHeight / (v as real)
  }

  /** aa: the height of the top rim, thread_steps pitches above the top of
      the first thread step. */
  function TopHeight(threadHeight: real, v: int, steps: int): real
    requires v > 0
  {
    Pitch(threadHeight, v) * (steps as real) + threadHeight
  }

  /** bb = thread_steps % v; for the positive v the property allows,
      Python's remainder and Dafny's agree. */
  function Phase(steps: int, v: int): int
    requires v > 0
  {
    steps % v
  }

  /** v spin steps rise exactly thread_height, and the thread seed's upper
      vertex (at thread_height, raised by one pitch per step) ends at the top
      rim after thread_steps steps. */
  lemma ThreadRise(threadHeight: real, v: int, steps: nat)
    requires v > 0
    ensures Advance(0.0, Pitch(threadHeight, v), v) == threadHeight
    ensures Advance(threadHeight, Pitch(threadHeight, v), steps) == TopHeight(threadHeight, v, steps)
  {
    AdvanceLinear(0.0, Pitch(threadHeight, v), v);
    AdvanceLinear(threadHeight, Pitch(threadHeight, v), steps);
  }

  /** The thread turns through thread_steps / v turns: a whole number of
      turns plus bb / v of one. Rotating the top seed by bb steps of 1/v turn
      puts it where the thread ends. */
  lemma PhaseWithinTurn(steps: nat, v: int)
    requires v > 0
    ensures 0 <= Phase(steps, v) < v
    ensures (steps as real) / (v as real) == ((steps / v) as real) + (Phase(steps, v) as real) / (v as real)
  {
    var q, b := steps / v, steps % v;
    assert steps == v * q + b;
    assert (steps as real) == (v as real) * (q as real) + (b as real);
  }

  // ---------------------------------------------------------------------
  // The step option: faces removed from the inset list

  /** range(start, stop, step) for a positive step. */
  function Range(start: int, stop: int, step: int): (r: seq<int>)
    requires step > 0
    ensures r != [] ==> r[0] == start
    decreases stop - start
  {
    if start >= stop then [] else [start] + Range(start + step, stop, step)
  }

  /** The range starts at start, advances by step, stays below stop, and
      its last value is within one step of stop: it has ceil((stop-start)/step)
      entries. */
  lemma {:induction false} RangeShape(start: int, stop: int, step: int)
    requires step > 0
    ensures var r := Range(start, stop, step);
      && (forall k :: 0 <= k < |r| ==> start <= r[k] < stop)
      && (forall k :: 0 < k < |r| ==> r[k] == r[k - 1] + step)
      && (r == [] <==> start >= stop)
      && (r != [] ==> r[|r| - 1] + step >= stop)
    decreases stop - start
  {
    if start < stop {
      RangeShape(start + step, stop, step);
      var r := Range(start, stop, step);
      var t := Range(start + step, stop, step);
      assert r == [start] + t;
      forall k | 0 < k < |r|
        ensures r[k] == r[k - 1] + step
      {
        assert r[k] == t[k - 1];
      }
    }
  }

  /** j is one of 0, s, 2s, ... */
  predicate IsMultiple(j: int, s: int)
    requires s > 0
    decreases j
  {
    j == 0 || (j >= s && IsMultiple(j - s, s))
  }

  /** No multiple of s lies strictly between two consecutive ones. */
  lemma {:induction false} MultipleGap(i: int, j: int, s: int)
    requires s > 0 && IsMultiple(i, s) && i < j < i + s
    ensures !IsMultiple(j, s)
    decreases i
  {
    if i != 0 {
      MultipleGap(i - s, j - s, s);
    }
  }

  /** The values of range(start, stop, s) are exactly the ones between
      start and stop that are a multiple of s past start. */
  lemma {:induction false} RangeMember(start: int, stop: int, s: int, j: int)
    requires s > 0
    ensures j in Range(start, stop, s) <==> start <= j < stop && IsMultiple(j - start, s)
    decreases stop - start
  {
    if start < stop {
      RangeMember(start + s, stop, s, j);
      assert Range(start, stop, s) == [start] + Range(start + s, stop, s);
      assert j - start - s == j - (start + s);
    }
  }

  /** The face indices 0 .. n-1 in order. */
  function Identity(n: nat): (r: seq<nat>)
    ensures |r| == n
  {
    if n == 0 then [] else Identity(n - 1) + [n - 1]
  }

  /** Position k of the identity list holds face k. */
  lemma {:induction false} IdentitySpec(n: nat)
    ensures |Identity(n)| == n
    ensures forall k :: 0 <= k < n ==> Identity(n)[k] == k
  {
    if n > 0 {
      IdentitySpec(n - 1);
    }
  }

  /** The faces 0 .. n-1 in order without the multiples of s below bound. */
  function Kept(n: nat, s: int, bound: int): seq<nat>
    requires s > 0
  {
    if n == 0 then []
    else Kept(n - 1, s, bound) + (if IsMultiple(n - 1, s) && n - 1 < bound then [] else [n - 1])
  }

  /** Python's list.remove: the first occurrence goes, ValueError when there
      is none. */
  function ListRemove(xs: seq<nat>, x: nat): (r: Result<seq<nat>>)
    ensures r.Ok? <==> x in xs
    ensures r.Ok? ==> |r.value| == |xs| - 1
  {
    if xs == [] then Err(ValueError)
    else if xs[0] == x then Ok(xs[1..])
    else
      var rest := ListRemove(xs[1..], x);
      if rest.Err? then rest else Ok([xs[0]] + rest.value)
  }

  /** A successful removal takes away exactly one occurrence of x. */
  lemma {:induction false} ListRemoveCount(xs: seq<nat>, x: nat)
    requires x in xs
    ensures multiset(ListRemove(xs, x).value) == multiset(xs) - multiset{x}
  {
    assert xs == [xs[0]] + xs[1..];
    if xs[0] != x {
      ListRemoveCount(xs[1..], x);
    }
  }

  /** The occurrence removed is the first: with x first at position i, the
      result is xs without position i, everything else in its order. */
  lemma {:induction false} ListRemoveFirst(xs: seq<nat>, x: nat, i: nat)
    requires i < |xs| && xs[i] == x
    requires forall j :: 0 <= j < i ==> xs[j] != x
    ensures ListRemove(xs, x) == Ok(xs[..i] + xs[i + 1..])
  {
    if i > 0 {
      ListRemoveFirst(xs[1..], x, i - 1);
      assert [xs[0]] + (xs[1..][..i - 1] + xs[1..][i..]) == xs[..i] + xs[i + 1..];
    } else {
      assert xs[..0] + xs[1..] == xs[1..];
    }
  }

  lemma {:induction false} ListRemoveSnoc(a: seq<nat>, y: nat, x: nat)
    requires x in a
    ensures ListRemove(a + [y], x) == Ok(ListRemove(a, x).value + [y])
  {
    assert (a + [y])[0] == a[0];
    if a[0] != x {
      assert a == [a[0]] + a[1..];
      assert x in a[1..];
      assert (a + [y])[1..] == a[1..] + [y];
      ListRemoveSnoc(a[1..], y, x);
      var t := ListRemove(a[1..], x).value;
      assert [a[0]] + (t + [y]) == ([a[0]] + t) + [y];
    } else {
      assert (a + [y])[1..] == a[1..] + [y];
    }
  }

  lemma {:induction false} KeptNone(n: nat, s: int)
    requires s > 0
    ensures Kept(n, s, 0) == Identity(n)
  {
    if n > 0 {
      KeptNone(n - 1, s);
    }
  }

  /** Bounds at or past n remove the same faces. */
  lemma {:induction false} KeptSameBelow(n: nat, s: int, b1: int, b2: int)
    requires s > 0 && b1 >= n && b2 >= n
    ensures Kept(n, s, b1) == Kept(n, s, b2)
  {
    if n > 0 {
      KeptSameBelow(n - 1, s, b1, b2);
    }
  }

  /** A face of 0 .. n-1 is kept exactly when it is not a multiple of s
      below the bound. */
  lemma {:induction false} KeptMember(n: nat, s: int, bound: int, j: int)
    requires s > 0
    ensures j in Kept(n, s, bound) <==> 0 <= j < n && !(IsMultiple(j, s) && j < bound)
  {
    if n > 0 {
      KeptMember(n - 1, s, bound, j);
    }
  }

  /** The kept faces are face indices. */
  lemma {:induction false} KeptBelow(n: nat, s: int, bound: int)
    requires s > 0
    ensures forall k :: 0 <= k < |Kept(n, s, bound)| ==> Kept(n, s, bound)[k] < n
  {
    if n > 0 {
      KeptBelow(n - 1, s, bound);
    }
  }

  /** The kept faces keep their order. */
  lemma {:induction false} KeptIncreasing(n: nat, s: int, bound: int)
    requires s > 0
    ensures forall i, j :: 0 <= i < j < |Kept(n, s, bound)| ==> Kept(n, s, bound)[i] < Kept(n, s, bound)[j]
  {
    if n > 0 {
      KeptIncreasing(n - 1, s, bound);
      KeptBelow(n - 1, s, bound);
    }
  }

  /** One iteration of the skip loop: removing face i (a multiple of s) from
      the faces kept so far removes every multiple below i + s. */
  lemma {:induction false} RemoveKept(n: nat, s: int, i: int)
    requires s > 0 && IsMultiple(i, s) && 0 <= i < n
    ensures ListRemove(Kept(n, s, i), i) == Ok(Kept(n, s, i + s))
  {
    if n == i + 1 {
      RemoveKeptLast(s, i);
    } else {
      RemoveKept(n - 1, s, i);
      RemoveKeptStep(n, s, i);
    }
  }

  /** Face i itself is the last of the faces 0 .. i: it is the only
      occurrence, so removing it leaves the faces below it. */
  lemma RemoveKeptLast(s: int, i: int)
    requires s > 0 && IsMultiple(i, s) && 0 <= i
    ensures ListRemove(Kept(i + 1, s, i), i) == Ok(Kept(i + 1, s, i + s))
  {
    var a := Kept(i, s, i);
    KeptLast(s, i);
    KeptMember(i, s, i, i);
    ListRemoveSnocAbsent(a, i);
  }

  /** Below bound i face i is still kept; below i + s it is removed. */
  lemma KeptLast(s: int, i: int)
    requires s > 0 && IsMultiple(i, s) && 0 <= i
    ensures Kept(i + 1, s, i) == Kept(i, s, i) + [i]
    ensures Kept(i + 1, s, i + s) == Kept(i, s, i)
  {
    KeptSameBelow(i, s, i, i + s);
    var b := Kept(i, s, i + s);
    assert Kept(i + 1, s, i + s) == b + [];
    assert b + [] == b;
  }

  /** A face past i is kept both before and after i's removal, and the
      removal does not reach it. */
  lemma RemoveKeptStep(n: nat, s: int, i: int)
    requires s > 0 && IsMultiple(i, s) && 0 <= i < n - 1
    requires ListRemove(Kept(n - 1, s, i), i) == Ok(Kept(n - 1, s, i + s))
    ensures ListRemove(Kept(n, s, i), i) == Ok(Kept(n, s, i + s))
  {
    var a := Kept(n - 1, s, i);
    var b := Kept(n - 1, s, i + s);
    assert i in a by {
      KeptMember(n - 1, s, i, i);
    }
    assert Kept(n, s, i) == a + [n - 1];
    assert Kept(n, s, i + s) == b + [n - 1] by {
      if n - 1 < i + s {
        MultipleGap(i, n - 1, s);
      }
    }
    RemoveAppend(a, b, n - 1, i);
  }

  lemma RemoveAppend(a: seq<nat>, b: seq<nat>, y: nat, x: nat)
    requires x in a && ListRemove(a, x) == Ok(b)
    ensures ListRemove(a + [y], x) == Ok(b + [y])
  {
    ListRemoveSnoc(a, y, x);
  }

  lemma {:induction false} ListRemoveSnocAbsent(a: seq<nat>, x: nat)
    requires x !in a
    ensures ListRemove(a + [x], x) == Ok(a)
  {
    if a != [] {
      assert (a + [x])[1..] == a[1..] + [x];
      ListRemoveSnocAbsent(a[1..], x);
      assert [a[0]] + a[1..] == a;
    }
  }

  /** gg after the skip loop: every face when the option is off, or when
      the offset is negative (range(0, steps, s) is then empty); ValueError
      from range for a zero offset; otherwise the faces that are not a
      multiple of the offset. */
  function KeptFacesSpec(steps: nat, skip: bool, offset: int): Result<seq<nat>>
  {
    if !skip || offset < 0 then Ok(Identity(steps))
    else if offset == 0 then Err(ValueError)
    else Ok(Kept(steps, offset, steps))
  }

  /** The faces kept with a positive offset are those of 0 .. steps-1 that
      range(0, steps, offset) does not visit, in their original order. */
  lemma KeptFacesPartition(steps: nat, offset: int, j: int)
    requires offset > 0
    ensures KeptFacesSpec(steps, true, offset).Ok?
    ensures j in KeptFacesSpec(steps, true, offset).value <==> 0 <= j < steps && j !in Range(0, steps, offset)
  {
    KeptMember(steps, offset, steps, j);
    RangeMember(0, steps, offset, j);
  }

  lemma SeqAssoc(a: seq<int>, b: seq<int>, c: seq<int>)
    ensures a + (b + c) == (a + b) + c
  {
  }

  /** One pass of the skip loop, as the loop's invariant needs it. */
  lemma SkipStep(steps: nat, s: int, i: int, removed: seq<int>)
    requires s > 0 && IsMultiple(i, s) && 0 <= i < steps
    requires Range(0, steps, s) == removed + Range(i, steps, s)
    ensures ListRemove(Kept(steps, s, i), i) == Ok(Kept(steps, s, i + s))
    ensures IsMultiple(i + s, s)
    ensures Range(0, steps, s) == (removed + [i]) + Range(i + s, steps, s)
  {
    RemoveKept(steps, s, i);
    var t := Range(i + s, steps, s);
    assert Range(i, steps, s) == [i] + t;
    SeqAssoc(removed, [i], t);
    assert IsMultiple(i + s, s) by {
      assert i + s - s == i;
    }
  }

  /** The loop `for i in range(0, thread_steps, s): gg.remove(faces[i])`. */
  method SkipFaces(steps: nat, skip: bool, offset: int) returns (r: Result<seq<nat>>)
    ensures r == KeptFacesSpec(steps, skip, offset)
    ensures skip && offset > 0 ==> |r.value| + |Range(0, steps, offset)| == steps
  {
    var gg := Identity(steps);
    if !skip || offset < 0 {
      return Ok(gg);
    }
    if offset == 0 {
      return Err(ValueError);
    }
    KeptNone(steps, offset);
    ghost var removed: seq<int> := [];
    var i := 0;
    while i < steps
      invariant 0 <= i && IsMultiple(i, offset)
      invariant gg == Kept(steps, offset, i)
      invariant Range(0, steps, offset) == removed + Range(i, steps, offset)
      invariant |gg| + |removed| == steps
      decreases steps - i
    {
      SkipStep(steps, offset, i, removed);
      gg := ListRemove(gg, i).value;
      removed := removed + [i];
      i := i + offset;
    }
    SkipDone(steps, offset, i, removed, gg);
    r := Ok(gg);
  }

  /** The skip loop's exit: past the last face, the faces left are the
      specified ones and every visited index was removed. */
  lemma SkipDone(steps: nat, s: int, i: int, removed: seq<int>, gg: seq<nat>)
    requires s > 0 && i >= steps
    requires gg == Kept(steps, s, i)
    requires Range(0, steps, s) == removed + Range(i, steps, s)
    requires |gg| + |removed| == steps
    ensures Ok(gg) == KeptFacesSpec(steps, true, s)
    ensures |gg| + |Range(0, steps, s)| == steps
  {
    KeptSameBelow(steps, s, i, steps);
    assert Range(i, steps, s) == [];
  }

  // ---------------------------------------------------------------------
  // Rims: the extruded rings flattened onto a plane
  // The ring of extruded vertices comes from a host operator, so these
  // functions state the translate and scale steps on any ring; Build does
  // not hold the rims.

  function Translate(vs: seq<Vec3>, d: Vec3): (r: seq<Vec3>)
    ensures |r| == |vs|
    ensures forall k :: 0 <= k < |vs| ==> r[k] == vs[k].Add(d)
  {
    if vs == [] then [] else Translate(vs[..|vs| - 1], d) + [vs[|vs| - 1].Add(d)]
  }

  function Scale(vs: seq<Vec3>, f: Vec3): (r: seq<Vec3>)
    ensures |r| == |vs|
    ensures forall k :: 0 <= k < |vs| ==> r[k] == Vec3(vs[k].x * f.x, vs[k].y * f.y, vs[k].z * f.z)
  {
    if vs == [] then [] else Scale(vs[..|vs| - 1], f) + [Vec3(vs[|vs| - 1].x * f.x, vs[|vs| - 1].y * f.y, vs[|vs| - 1].z * f.z)]
  }

  /** The bottom rim: the extruded ring moved down by 0.5 and then squashed
      onto z = 0. */
  function BottomRim(ring: seq<Vec3>): seq<Vec3>
  {
    Scale(Translate(ring, Vec3(0.0, 0.0, -0.5)), Vec3(1.0, 1.0, 0.0))
  }

  /** The top rim: the extruded ring squashed onto z = 0 and then lifted to
      aa. */
  function TopRim(ring: seq<Vec3>, aa: real): seq<Vec3>
  {
    Translate(Scale(ring, Vec3(1.0, 1.0, 0.0)), Vec3(0.0, 0.0, aa))
  }

  /** Both rims end flat: the bottom one at z = 0, the top one at z = aa,
      with x and y untouched. */
  lemma RimsFlat(ring: seq<Vec3>, aa: real)
    ensures |BottomRim(ring)| == |ring| && |TopRim(ring, aa)| == |ring|
    ensures forall k :: 0 <= k < |ring| ==> BottomRim(ring)[k] == Vec3(ring[k].x, ring[k].y, 0.0)
    ensures forall k :: 0 <= k < |ring| ==> TopRim(ring, aa)[k] == Vec3(ring[k].x, ring[k].y, aa)
  {
  }

  // ---------------------------------------------------------------------
  // Wall thickness, cap enlargement and profiles

  /** The guard on the top thickness: at least the neck radius becomes the
      neck radius less 0.001. */
  function GuardedThickness(tt: real, neckRadius: real): (g: real)
    ensures g < neckRadius
    ensures tt < neckRadius ==> g == tt
  {
    if tt >= neckRadius then neckRadius - 0.001 else tt
  }

  /** ca: neck_radius / 100 * eoffset when the cap is enlarged. */
  function CapEnlargement(eoffOn: bool, neckRadius: real, eoffset: int): real
  {
    if eoffOn then (neckRadius / 100.0) * (eoffset as real) else 0.0
  }

  /** Vertices joined by edges, as handed to spin. */
  datatype Profile = Profile(verts: seq<Vec3>, edges: seq<(nat, nat)>)

  /** Edge k joins vertex k to vertex k+1. */
  predicate Chain(p: Profile)
  {
    && |p.edges| + 1 == |p.verts|
    && forall k :: 0 <= k < |p.edges| ==> p.edges[k] == (k, k + 1)
  }

  /** Edge k joins vertex n-1-k to vertex n-2-k: the same chain made from
      the last vertex back. */
  predicate BackChain(p: Profile)
  {
    && |p.edges| + 1 == |p.verts|
    && forall k :: 0 <= k < |p.edges| ==> p.edges[k] == (|p.verts| - 1 - k, |p.verts| - 2 - k)
  }

  /** The thread seed: the edge from (r, 0, thread_height) to (r, 0, 0);
      the cap's seed edge is made in the reverse direction. */
  function ThreadSeed(radius: real, threadHeight: real, reversed: bool): Profile
  {
    Profile([Vec3(radius, 0.0, threadHeight), Vec3(radius, 0.0, 0.0)], if reversed then [(1, 0)] else [(0, 1)])
  }

  /** The bottle's inner wall, from below the neck up over the rim. */
  function BottleInside(neckRadius: real, aa: real, tl: real, tt: real, nl: real): Profile
  {
    Profile([Vec3(neckRadius, 0.0, aa), Vec3(neckRadius, 0.0, aa + tl), Vec3(neckRadius - tt, 0.0, aa + tl),
             Vec3(neckRadius - tt, 0.0, aa), Vec3(neckRadius - tt, 0.0, 0.0), Vec3(neckRadius - tt, 0.0, -nl)],
            [(5, 4), (4, 3), (3, 2), (2, 1), (1, 0)])
  }

  /** The cap's inside: the lid from the axis out to the thread radius. */
  function CapInside(capRadius: real, aa: real, tl: real, tt: real): Profile
  {
    Profile([Vec3(capRadius, 0.0, aa), Vec3(capRadius, 0.0, aa + tl), Vec3(capRadius - tt, 0.0, aa + tl),
             Vec3(0.0, 0.0, aa + tl)],
            [(3, 2), (2, 1), (1, 0)])
  }

  /** The cap's outer body. */
  function CapBody(capRadius: real, depth: real, aa: real, tl: real): Profile
  {
    Profile([Vec3(capRadius, 0.0, 0.0), Vec3(capRadius, 0.0, -depth), Vec3(capRadius + depth, 0.0, -depth),
             Vec3(capRadius + depth, 0.0, aa + tl + depth), Vec3(capRadius, 0.0, aa + tl + depth),
             Vec3(0.0, 0.0, aa + tl + depth)],
            [(5, 4), (4, 3), (3, 2), (2, 1), (1, 0)])
  }

  /** x1..x5 and z1..z5 of the manual bottle body. */
  datatype BodyShape = BodyShape(x1: real, z1: real, x2: real, z2: real, x3: real, z3: real,
                                 x4: real, z4: real, x5: real, z5: real)

  /** The bottle body below the neck: two vertices and an edge ready for
      extruding, or with manual_bot the full outline down to the axis. */
  function BodyProfile(neckRadius: real, nl: real, depth: real, manual: bool, b: BodyShape): Profile
  {
    var y := -nl - depth;
    if !manual then Profile([Vec3(neckRadius, 0.0, -nl), Vec3(neckRadius, 0.0, y)], [(0, 1)])
    else
      Profile([Vec3(neckRadius, 0.0, -nl), Vec3(neckRadius, 0.0, y),
                Vec3(neckRadius + b.x1, 0.0, y - b.z1), Vec3(neckRadius + b.x2, 0.0, y - b.z2),
                Vec3(neckRadius + b.x3, 0.0, y - b.z3), Vec3(neckRadius + b.x4, 0.0, y - b.z4),
                Vec3(neckRadius + b.x5, 0.0, y - b.z5), Vec3(0.0, 0.0, y - b.z5)],
              [(0, 1), (1, 2), (2, 3), (3, 4), (4, 5), (5, 6), (6, 7)])
  }

  /** The body is one chain of 2 vertices, or of 8 ending on the axis at
      depth y - z5. */
  lemma BodyProfileShape(neckRadius: real, nl: real, depth: real, manual: bool, b: BodyShape)
    ensures var p := BodyProfile(neckRadius, nl, depth, manual, b);
      && Chain(p)
      && |p.verts| == (if manual then 8 else 2)
      && p.verts[0] == Vec3(neckRadius, 0.0, -nl)
      && (manual ==> p.verts[7] == Vec3(0.0, 0.0, -nl - depth - b.z5))
  {
    var p := BodyProfile(neckRadius, nl, depth, manual, b);
    assert forall k :: 0 <= k < |p.edges| ==> p.edges[k] == (k, k + 1) by {
      if manual {
        assert p.edges == [(0, 1), (1, 2), (2, 3), (3, 4), (4, 5), (5, 6), (6, 7)];
      }
    }
  }

  /** The profiles made from the last vertex back are chains in reverse,
      and the lid and cap body close on the axis. */
  lemma InsideProfilesShape(neckRadius: real, capRadius: real, depth: real, aa: real, tl: real, tt: real, nl: real)
    ensures BackChain(BottleInside(neckRadius, aa, tl, tt, nl))
    ensures BackChain(CapInside(capRadius, aa, tl, tt))
    ensures BackChain(CapBody(capRadius, depth, aa, tl))
    ensures CapInside(capRadius, aa, tl, tt).verts[3].x == 0.0 && CapBody(capRadius, depth, aa, tl).verts[5].x == 0.0
  {
    var p := BottleInside(neckRadius, aa, tl, tt, nl);
    assert forall k :: 0 <= k < 5 ==> p.edges[k] == (5 - k, 4 - k);
    var c := CapInside(capRadius, aa, tl, tt);
    assert forall k :: 0 <= k < 3 ==> c.edges[k] == (3 - k, 2 - k);
    var d := CapBody(capRadius, depth, aa, tl);
    assert forall k :: 0 <= k < 5 ==> d.edges[k] == (5 - k, 4 - k);
  }

  /** Welding and the overall scale that finish each mesh. */
  datatype MeshOp = RemoveDoubles(dist: real) | ScaleAll(factor: real)

  /** remove_doubles runs only when it is switched on and its distance is
      not zero, and always before the uniform scale. */
  function FinishOps(remdoubOn: bool, doubles: real, overallScale: real): (ops: seq<MeshOp>)
    ensures |ops| >= 1 && ops[|ops| - 1] == ScaleAll(overallScale)
    ensures RemoveDoubles(doubles) in ops <==> remdoubOn && doubles != 0.0
    ensures forall k :: 0 <= k < |ops| - 1 ==> ops[k] == RemoveDoubles(doubles)
  {
    (if remdoubOn && doubles != 0.0 then [RemoveDoubles(doubles)] else []) + [ScaleAll(overallScale)]
  }

  // ---------------------------------------------------------------------
  // The operator

  /** The operator's properties other than the top thickness. */
  datatype Props = Props(v: int, threadHeight: real, threadSteps: int, neckRadius: real, trap: real, depth: real,
                         eoffOn: bool, eoffset: int, skipOn: bool, soffset: int, sckipOn: bool, scoffset: int,
                         remdoubOn: bool, doubles: real, compBot: bool, manualBot: bool, overallScale: real,
                         nl: real, tl: real, shape: BodyShape)

  /** The hard minimums and maximums the property declarations enforce. */
  predicate ValidProps(p: Props)
  {
    && 3 <= p.v <= 24 && p.threadSteps >= 1 && p.threadHeight >= 0.1 && p.neckRadius >= 0.1
    && p.trap >= 0.0 && p.depth >= 0.0 && p.nl >= 0.01 && p.tl >= 0.001
  }

  /** What one execution computes around the mesh operators. */
  datatype Build = Build(
    pitch: real, top: real, phase: int,
    bottleSeed: Profile, bottleFaces: seq<nat>, bottleInside: Option<Profile>,
    capRadius: real, capSeed: Profile, capFaces: seq<nat>, capInside: Option<Profile>, capBody: Option<Profile>,
    finish: seq<MeshOp>, bottleLift: real, capLift: real, body: Option<Profile>)

  /** The build once both face lists are known; tt is the thickness both
      inner walls read. */
  function Assemble(p: Props, tt: real, bottleFaces: seq<nat>, capFaces: seq<nat>): Build
    requires ValidProps(p)
  {
    var aa := TopHeight(p.threadHeight, p.v, p.threadSteps);
    var capRadius := p.neckRadius + p.depth + CapEnlargement(p.eoffOn, p.neckRadius, p.eoffset);
    Build(Pitch(p.threadHeight, p.v), aa, Phase(p.threadSteps, p.v),
          ThreadSeed(p.neckRadius, p.threadHeight, false), bottleFaces,
          if p.compBot then Some(BottleInside(p.neckRadius, aa, p.tl, tt, p.nl)) else None,
          capRadius, ThreadSeed(capRadius, p.threadHeight, true), capFaces,
          if p.compBot then Some(CapInside(capRadius, aa, p.tl, tt)) else None,
          if p.compBot then Some(CapBody(capRadius, p.depth, aa, p.tl)) else None,
          FinishOps(p.remdoubOn, p.doubles, p.overallScale),
          (p.shape.z5 + p.nl + p.depth) * p.overallScale,
          (p.threadHeight / 2.0 + p.shape.z5 + p.nl + p.depth) * p.overallScale,
          if p.compBot then Some(BodyProfile(p.neckRadius, p.nl, p.depth, p.manualBot, p.shape)) else None)
  }

  /** The whole execution for properties p and top thickness tt: the
      bottle's face list, the guard (complete bottle only), the cap's face
      list. */
  function ExecuteSpec(p: Props, tt: real): Result<Build>
    requires ValidProps(p)
  {
    var bottleFaces :- KeptFacesSpec(p.threadSteps, p.skipOn, p.soffset);
    var tt' := if p.compBot then GuardedThickness(tt, p.neckRadius) else tt;
    var capFaces :- KeptFacesSpec(p.threadSteps, p.sckipOn, p.scoffset);
    Ok(Assemble(p, tt', bottleFaces, capFaces))
  }

  /** Execution fails exactly when a step option is on with a zero offset,
      and then with the ValueError of range(). */
  lemma ExecuteFails(p: Props, tt: real)
    requires ValidProps(p)
    ensures ExecuteSpec(p, tt).Err? <==> (p.skipOn && p.soffset == 0) || (p.sckipOn && p.scoffset == 0)
    ensures ExecuteSpec(p, tt).Err? ==> ExecuteSpec(p, tt).error == ValueError
  {
  }

  /** With a complete bottle, both inner walls read the guarded thickness:
      the bottle's inner wall stays at a positive radius and the lid's inner
      edge stays outside depth + ca; the cap's seed lies depth + ca outside
      the bottle's. */
  lemma WallsClear(p: Props, tt: real)
    requires ValidProps(p) && ExecuteSpec(p, tt).Ok? && p.compBot
    ensures var b := ExecuteSpec(p, tt).value;
      var ca := CapEnlargement(p.eoffOn, p.neckRadius, p.eoffset);
      && b.bottleInside.Some? && b.capInside.Some?
      && b.bottleInside.value.verts[2].x > 0.0
      && b.capInside.value.verts[2].x > p.depth + ca
      && b.capSeed.verts[0].x - b.bottleSeed.verts[0].x == p.depth + ca
      && b.capSeed.edges == [(1, 0)] && b.bottleSeed.edges == [(0, 1)]
  {
    var g := GuardedThickness(tt, p.neckRadius);
    assert g < p.neckRadius;
  }

  /** The cap object sits half a thread height (scaled) above the bottle. */
  lemma CapAboveBottle(p: Props, tt: real)
    requires ValidProps(p) && ExecuteSpec(p, tt).Ok?
    ensures ExecuteSpec(p, tt).value.capLift - ExecuteSpec(p, tt).value.bottleLift == p.threadHeight / 2.0 * p.overallScale
  {
  }

  /** KTXBOTTLE2_OT_Sep: the properties, with the top thickness as the one
      field the operator reassigns. */
  class Operator {
    const props: Props
    var tt: real

    predicate Valid()
      reads this
    {
      ValidProps(props) && tt >= 0.001
    }

    constructor(p: Props, tt0: real)
      requires ValidProps(p) && tt0 >= 0.001
      ensures props == p && tt == tt0 && Valid()
    {
      props := p;
      tt := tt0;
    }

    /** `if self.tt >= self.neck_radius: self.tt = self.neck_radius - 0.001` */
    method GuardThickness()
      requires Valid()
      modifies this
      ensures Valid()
      ensures tt == GuardedThickness(old(tt), props.neckRadius)
    {
      if tt >= props.neckRadius {
        tt := props.neckRadius - 0.001;
      }
    }

    /** execute(): the bottle's faces, the guard, the cap's faces, the rest. */
    method Execute() returns (r: Result<Build>)
      requires Valid()
      modifies this
      ensures Valid()
      ensures r == ExecuteSpec(props, old(tt))
      ensures tt == (if props.compBot && KeptFacesSpec(props.threadSteps, props.skipOn, props.soffset).Ok?
                     then GuardedThickness(old(tt), props.neckRadius) else old(tt))
    {
      var bottleFaces :- SkipFaces(props.threadSteps, props.skipOn, props.soffset);
      if props.compBot {
        GuardThickness();
      }
      var capFaces :- SkipFaces(props.threadSteps, props.sckipOn, props.scoffset);
      r := Ok(Assemble(props, tt, bottleFaces, capFaces));
    }
  }
}
