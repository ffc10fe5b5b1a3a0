/** The Silicon Graphics logo outline: eighteen corner points of a tube
    folded through three axes, joined into one closed loop of edges. The
    fillet, curve conversion and smoothing that follow are host operators
    and not part of this model. */
module SgiLogo {
  import opened Common

  /** The number of outline corners. */
  const Corners := 18

  /** mid = (long + short) / 2: half the width of the logo's square. */
  function Mid(short: real, long: real): real
  {
    (long + short) / 2.0
  }

  /** The corner table, in loop order. */
  function Outline(short: real, long: real): (vs: seq<Vec3>)
    ensures |vs| == Corners
  {
    var m := Mid(short, long);
    [Vec3(m - short, m, 0.0), Vec3(-m + short, m, 0.0), Vec3(-m + short, -m + short, 0.0),
     Vec3(m, -m + short, 0.0), Vec3(m, m - short, 0.0), Vec3(m, m - short, long),
     Vec3(m, -m, long), Vec3(m, -m, short), Vec3(-m + short, -m, short),
     Vec3(-m + short, -m, short + long), Vec3(m - short, -m, short + long), Vec3(m - short, m - short, short + long),
     Vec3(-m, m - short, short + long), Vec3(-m, -m + short, short + long), Vec3(-m, -m + short, short),
     Vec3(-m, m, short), Vec3(-m, m, long), Vec3(m - short, m, long)]
  }

  /** Edges (i-1, i) for i = 1 .. n-1: a path through vertices 0 .. n-1. */
  function PathEdges(n: nat): (es: seq<(nat, nat)>)
    ensures |es| == if n == 0 then 0 else n - 1
    ensures forall k :: 0 <= k < |es| ==> es[k] == (k, k + 1)
  {
    if n <= 1 then [] else PathEdges(n - 1) + [(n - 2, n - 1)]
  }

  /** The path closed by the edge (0, n-1). */
  function LoopEdges(n: nat): seq<(nat, nat)>
    requires n >= 1
  {
    PathEdges(n) + [(0, n - 1)]
  }

  /** KTXSGI_OT_Execute.execute: each corner is added, joined to the one
      before it, and the last is joined back to the first. */
  method BuildOutline(short: real, long: real) returns (verts: seq<Vec3>, edges: seq<(nat, nat)>)
    ensures verts == Outline(short, long)
    ensures edges == LoopEdges(Corners)
  {
    var table := Outline(short, long);
    verts := [];
    edges := [];
    for i := 0 to Corners
      invariant verts == table[..i]
      invariant edges == PathEdges(i)
    {
      verts := verts + [table[i]];
      if i > 0 {
        edges := edges + [(|verts| - 2, |verts| - 1)];
      }
    }
    assert table[..Corners] == table;
    edges := edges + [(0, |verts| - 1)];
  }

  // ---------------------------------------------------------------------
  // The outline is one closed loop

  /** The number of edges meeting vertex v. */
  function Degree(es: seq<(nat, nat)>, v: nat): nat
  {
    if es == [] then 0
    else Degree(es[..|es| - 1], v) + (if es[|es| - 1].0 == v || es[|es| - 1].1 == v then 1 else 0)
  }

  /** On a path the inner vertices meet two edges and the two ends one. */
  lemma {:induction false} PathDegree(n: nat, v: nat)
    requires n >= 2 && v < n
    ensures Degree(PathEdges(n), v) == if v == 0 || v == n - 1 then 1 else 2
  {
    if n > 2 {
      PathDegree(n - 1, if v < n - 1 then v else 0);
      if v < n - 1 {
        assert PathEdges(n) == PathEdges(n - 1) + [(n - 2, n - 1)];
      } else {
        PathDegreeOutside(n - 1, v);
      }
    } else {
      assert PathEdges(2) == [(0, 1)];
      assert PathEdges(2)[..0] == [];
    }
  }

  /** A vertex past the path's end meets none of its edges. */
  lemma {:induction false} PathDegreeOutside(n: nat, v: nat)
    requires v >= n
    ensures Degree(PathEdges(n), v) == 0
  {
    if n > 1 {
      PathDegreeOutside(n - 1, v);
      assert PathEdges(n) == PathEdges(n - 1) + [(n - 2, n - 1)];
    }
  }

  /** With the closing edge every vertex of the loop meets exactly two
      edges, and there are as many edges as vertices. */
  lemma LoopDegree(n: nat, v: nat)
    requires n >= 3 && v < n
    ensures |LoopEdges(n)| == n
    ensures Degree(LoopEdges(n), v) == 2
  {
    PathDegree(n, v);
    assert LoopEdges(n)[..|LoopEdges(n)| - 1] == PathEdges(n);
  }

  /** Walking edge k from vertex k reaches vertex k+1, and the closing edge
      leads from the last vertex back to 0: the edges form one cycle through
      all the corners. */
  lemma LoopIsCycle(n: nat)
    requires n >= 3
    ensures forall k :: 0 <= k < n - 1 ==> LoopEdges(n)[k] == (k, k + 1)
    ensures LoopEdges(n)[n - 1] == (0, n - 1)
  {
  }

  // ---------------------------------------------------------------------
  // Geometry of the corners

  /** Two points agreeing in at least two coordinates: the segment between
      them is parallel to an axis. */
  predicate AxisParallel(a: Vec3, b: Vec3)
  {
    (a.x == b.x && a.y == b.y) || (a.x == b.x && a.z == b.z) || (a.y == b.y && a.z == b.z)
  }

  /** Consecutive corners, and the last and first, agree in two
      coordinates. */
  lemma {:induction false} NeighboursAxisParallel(short: real, long: real)
    ensures var vs := Outline(short, long);
      && (forall k :: 0 <= k < Corners - 1 ==> AxisParallel(vs[k], vs[k + 1]))
      && AxisParallel(vs[0], vs[Corners - 1])
  {
    var vs := Outline(short, long);
    forall k | 0 <= k < Corners - 1
      ensures AxisParallel(vs[k], vs[k + 1])
    {
      if k < 6 {
        if k == 0 {} else if k == 1 {} else if k == 2 {} else if k == 3 {} else if k == 4 {} else {}
      } else if k < 12 {
        if k == 6 {} else if k == 7 {} else if k == 8 {} else if k == 9 {} else if k == 10 {} else {}
      } else {
        if k == 12 {} else if k == 13 {} else if k == 14 {} else if k == 15 {} else {}
      }
    }
  }

  /** Every edge of the loop, the closing one included, runs along an
      axis. */
  lemma OutlineAxisParallel(short: real, long: real, k: nat)
    requires k < Corners
    ensures var vs := Outline(short, long);
      var e := LoopEdges(Corners)[k];
      e.0 < Corners && e.1 < Corners && AxisParallel(vs[e.0], vs[e.1])
  {
    LoopIsCycle(Corners);
    NeighboursAxisParallel(short, long);
  }

  /** Only the first edge can shrink to a point: with a positive gap and
      length, any two neighbours differ unless long == short, and corners 0
      and 1 coincide exactly then. */
  lemma {:induction false} NeighboursDistinct(short: real, long: real)
    requires short > 0.0 && long > 0.0
    ensures var vs := Outline(short, long);
      && (forall k :: 0 <= k < Corners - 1 && vs[k] == vs[k + 1] ==> long == short)
      && (vs[0] == vs[Corners - 1] ==> long == short)
      && (long == short ==> vs[0] == vs[1])
  {
    var vs := Outline(short, long);
    var m := Mid(short, long);
    if long != short {
      assert vs[0] != vs[1] by { assert vs[0].x - vs[1].x == long - short; }
      assert vs[1] != vs[2] && vs[2] != vs[3] && vs[3] != vs[4] && vs[4] != vs[5];
      assert vs[5] != vs[6] && vs[6] != vs[7] && vs[7] != vs[8] && vs[8] != vs[9];
      assert vs[9] != vs[10] && vs[10] != vs[11] && vs[11] != vs[12] && vs[12] != vs[13];
      assert vs[13] != vs[14] && vs[14] != vs[15] && vs[15] != vs[16] && vs[16] != vs[17];
      assert vs[0] != vs[17];
    }
  }

  /** The corners' heights, in loop order. */
  function HeightTable(short: real, long: real): seq<real>
  {
    [0.0, 0.0, 0.0, 0.0, 0.0, long, long, short, short,
     short + long, short + long, short + long, short + long, short + long, short, short, long, long]
  }

  lemma {:induction false} HeightsAre(short: real, long: real)
    ensures forall k :: 0 <= k < Corners ==> Outline(short, long)[k].z == HeightTable(short, long)[k]
  {
  }

  /** The heights of the corners. */
  lemma {:induction false} Heights(short: real, long: real)
    ensures var vs := Outline(short, long);
      forall k :: 0 <= k < Corners ==> vs[k].z in {0.0, short, long, short + long}
  {
    HeightsAre(short, long);
    var zs := HeightTable(short, long);
    assert forall k :: 0 <= k < Corners ==> zs[k] in {0.0, short, long, short + long};
  }

  /** With the positive gap and length the properties allow, an edge of the
      loop has zero length only when the length equals the gap, and then the
      first edge does; the heights are 0, short, long and short + long. */
  lemma OutlineDegenerate(short: real, long: real, k: nat)
    requires short > 0.0 && long > 0.0 && k < Corners
    ensures var vs := Outline(short, long);
      var e := LoopEdges(Corners)[k];
      e.0 < Corners && e.1 < Corners && (vs[e.0] == vs[e.1] ==> long == short)
    ensures long == short ==> Outline(short, long)[0] == Outline(short, long)[1]
    ensures Outline(short, long)[k].z in {0.0, short, long, short + long}
  {
    LoopIsCycle(Corners);
    NeighboursDistinct(short, long);
    Heights(short, long);
  }

  /** With the positive gap and length the properties allow, the corners
      lie in the box [-mid, mid] x [-mid, mid] x [0, short + long]. */
  lemma OutlineBounds(short: real, long: real, k: nat)
    requires short > 0.0 && long > 0.0 && k < Corners
    ensures var p := Outline(short, long)[k];
      var m := Mid(short, long);
      -m <= p.x <= m && -m <= p.y <= m && 0.0 <= p.z <= short + long
  {
  }
}
