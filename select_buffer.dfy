/** The selection buffer: a scene-wide store of mesh element indices that
    the mutate operator combines with the current selection (union,
    difference, symmetric difference, intersection, set, clear) and then
    writes back to the mesh as its new selection. */
module SelectBuffer {
  import opened Common

  /** ktx_selectbuffer.data: a list after "set" and "clear" (and at first),
      a Python set after the four set operations. */
  datatype BufferValue = ListValue(items: seq<nat>) | SetValue(elems: set<nat>)

  function Contents(b: BufferValue): set<nat>
  {
    match b
    case ListValue(items) => set x | x in items
    case SetValue(elems) => elems
  }

  datatype Operation = Union | Difference | SymDifference | Intersection | SetTo | Clear

  /** The operation property's string; anything else leaves resulting_vefs
      unbound. */
  function OperationOf(op: string): Option<Operation>
  {
    if op == "union" then Some(Union)
    else if op == "difference" then Some(Difference)
    else if op == "sym_difference" then Some(SymDifference)
    else if op == "intersection" then Some(Intersection)
    else if op == "set" then Some(SetTo)
    else if op == "clear" then Some(Clear)
    else None
  }

  /** resulting_vefs for the old buffer and the selected indices. */
  function Combine(prev: BufferValue, selected: seq<nat>, op: Operation): BufferValue
  {
    var a := Contents(prev);
    var b := set x | x in selected;
    match op
    case Union => SetValue(a + b)
    case Difference => SetValue(a - b)
    case SymDifference => SetValue((a - b) + (b - a))
    case Intersection => SetValue(a * b)
    case SetTo => ListValue(selected)
    case Clear => ListValue([])
  }

  /** symmetric_difference keeps what is in exactly one of the two. */
  lemma SymDifferenceIsUnionMinusIntersection(prev: BufferValue, selected: seq<nat>)
    ensures Contents(Combine(prev, selected, SymDifference)) ==
      (Contents(prev) + (set x | x in selected)) - (Contents(prev) * (set x | x in selected))
  {
  }

  /** The operations as membership conditions. */
  lemma CombineMembers(prev: BufferValue, selected: seq<nat>, op: Operation, x: nat)
    ensures x in Contents(Combine(prev, selected, op)) <==>
      match op
      case Union => x in Contents(prev) || x in selected
      case Difference => x in Contents(prev) && x !in selected
      case SymDifference => (x in Contents(prev)) != (x in selected)
      case Intersection => x in Contents(prev) && x in selected
      case SetTo => x in selected
      case Clear => false
  {
  }

  /** Storing a selection with "set" and recalling it later with "union" on an
      empty selection gives back exactly the stored indices. */
  lemma StoreThenRecall(prev: BufferValue, stored: seq<nat>)
    ensures Contents(Combine(Combine(prev, stored, SetTo), [], Union)) == set x | x in stored
  {
  }

  /** "intersection" and "difference" with the same selection split the
      buffer in two. */
  lemma IntersectionDifferencePartition(prev: BufferValue, selected: seq<nat>)
    ensures Contents(Combine(prev, selected, Intersection)) + Contents(Combine(prev, selected, Difference)) == Contents(prev)
    ensures Contents(Combine(prev, selected, Intersection)) * Contents(Combine(prev, selected, Difference)) == {}
  {
  }

  // ---------------------------------------------------------------------
  // Iteration order of the result

  /** The indices of the true flags, in ascending order: the list
      comprehension over the mesh's elements. */
  function IndicesOf(flags: seq<bool>): seq<nat>
  {
    if flags == [] then []
    else IndicesOf(flags[..|flags| - 1]) + (if flags[|flags| - 1] then [|flags| - 1] else [])
  }

  predicate StrictlyIncreasing(s: seq<nat>)
  {
    forall i, j :: 0 <= i < j < |s| ==> s[i] < s[j]
  }

  lemma {:induction false} IndicesOfSpec(flags: seq<bool>)
    ensures forall k :: 0 <= k < |IndicesOf(flags)| ==> IndicesOf(flags)[k] < |flags|
    ensures forall i :: 0 <= i < |flags| ==> (flags[i] <==> i in IndicesOf(flags))
    ensures StrictlyIncreasing(IndicesOf(flags))
    decreases |flags|
  {
    if flags != [] {
      var init := flags[..|flags| - 1];
      IndicesOfSpec(init);
      assert forall i :: 0 <= i < |init| ==> init[i] == flags[i];
    }
  }

  predicate IsLeast(s: set<nat>, m: nat)
  {
    m in s && forall x :: x in s ==> m <= x
  }

  /** Every non-empty set of naturals has a least element at or below any
      of its members. */
  lemma {:induction false} LeastExists(s: set<nat>, bound: nat)
    requires bound in s
    ensures exists m :: IsLeast(s, m)
    decreases bound
  {
    if !IsLeast(s, bound) {
      var y :| y in s && y < bound;
      LeastExists(s, y);
    }
  }

  /** The least element of a non-empty set. */
  function Least(s: set<nat>): (m: nat)
    requires s != {}
    ensures IsLeast(s, m)
  {
    var x :| x in s;
    LeastExists(s, x);
    var m :| IsLeast(s, m);
    m
  }

  /** The elements of a set in ascending order. */
  function Ascending(s: set<nat>): (r: seq<nat>)
    ensures |r| == |s|
    ensures forall x :: x in r <==> x in s
    decreases |s|
  {
    if s == {} then []
    else
      var m := Least(s);
      [m] + Ascending(s - {m})
  }

  lemma {:induction false} AscendingIncreasing(s: set<nat>)
    ensures StrictlyIncreasing(Ascending(s))
    decreases |s|
  {
    if s != {} {
      var m := Least(s);
      AscendingIncreasing(s - {m});
      var t := Ascending(s - {m});
      assert forall y :: y in t ==> m < y;
      ConsIncreasing(m, t);
    }
  }

  /** An element below every element of an increasing sequence can go in
      front of it. */
  lemma ConsIncreasing(m: nat, t: seq<nat>)
    requires StrictlyIncreasing(t)
    requires forall y :: y in t ==> m < y
    ensures StrictlyIncreasing([m] + t)
  {
    var r := [m] + t;
    forall i, j | 0 <= i < j < |r|
      ensures r[i] < r[j]
    {
      assert r[j] == t[j - 1] && t[j - 1] in t;
      if i > 0 {
        assert r[i] == t[i - 1];
      }
    }
  }

  /** The order `for vef in resulting_vefs` visits: the list itself, or a set
      of small integers in ascending order. */
  function IterationOrder(b: BufferValue): (r: seq<nat>)
    ensures forall x :: x in r <==> x in Contents(b)
  {
    match b
    case ListValue(items) => items
    case SetValue(elems) => Ascending(elems)
  }

  /** The longest prefix of `order` whose indices are all below n: the
      elements selected before an out-of-range index raises. */
  function ValidPrefix(order: seq<nat>, n: nat): (p: seq<nat>)
    ensures |p| <= |order| && p == order[..|p|]
    ensures forall k :: 0 <= k < |p| ==> p[k] < n
    ensures |p| < |order| ==> order[|p|] >= n
  {
    if order == [] || order[0] >= n then []
    else [order[0]] + ValidPrefix(order[1..], n)
  }

  // ---------------------------------------------------------------------
  // The mesh and the operator

  /** mesh_select_mode: vertex, edge, face. */
  datatype SelectMode = SelectMode(vertex: bool, edge: bool, face: bool)

  /** The scene property that survives between operator calls. */
  class Buffer {
    var data: BufferValue

    /** register(): an empty list. */
    constructor()
      ensures data == ListValue([])
    {
      data := ListValue([]);
    }
  }

  /** [vef.index for vef in all_vefs if vef.select] */
  method SelectedIndices(flags: array<bool>) returns (r: seq<nat>)
    ensures r == IndicesOf(flags[..])
  {
    r := [];
    var i := 0;
    while i < flags.Length
      invariant 0 <= i <= flags.Length
      invariant r == IndicesOf(flags[..i])
    {
      assert flags[..i + 1][..i] == flags[..i];
      if flags[i] {
        r := r + [i];
      }
      i := i + 1;
    }
    assert flags[..i] == flags[..];
  }

  /** Clearing the select flags of one kind of element. */
  method DeselectAll(flags: array<bool>)
    modifies flags
    ensures forall i :: 0 <= i < flags.Length ==> !flags[i]
  {
    var i := 0;
    while i < flags.Length
      invariant 0 <= i <= flags.Length
      invariant forall j :: 0 <= j < i ==> !flags[j]
    {
      flags[i] := false;
      i := i + 1;
    }
  }

  /** for vef in resulting_vefs: all_vefs[vef].select = True -- stops with
      IndexError (ok == false) at the first index past the end. */
  method SelectInOrder(flags: array<bool>, order: seq<nat>) returns (ok: bool)
    requires forall i :: 0 <= i < flags.Length ==> !flags[i]
    modifies flags
    ensures ok <==> ValidPrefix(order, flags.Length) == order
    ensures forall i :: 0 <= i < flags.Length ==> (flags[i] <==> i in ValidPrefix(order, flags.Length))
  {
    ghost var done := ValidPrefix(order, flags.Length);
    var k := 0;
    while k < |order|
      invariant 0 <= k <= |order|
      invariant forall j :: 0 <= j < k ==> order[j] < flags.Length
      invariant k <= |done| && done[..k] == order[..k]
      invariant forall i :: 0 <= i < flags.Length ==> (flags[i] <==> i in order[..k])
    {
      var v := order[k];
      if v >= flags.Length {
        assert |done| == k;
        assert done == order[..k];
        return false;
      }
      flags[v] := true;
      assert order[..k + 1] == order[..k] + [v];
      k := k + 1;
    }
    assert order[..k] == order;
    return true;
  }

  /** KTX_Selectbuffer_Mutate.execute. The element arrays are the select
      flags of the mesh's vertices, edges and polygons; the first mode flag
      that is set picks one of them. Every element of every kind is
      deselected, then the buffer is selected in the chosen kind only. */
  method Mutate(buffer: Buffer, mode: SelectMode, verts: array<bool>, edges: array<bool>, faces: array<bool>,
                op: string) returns (r: Result<()>)
    requires verts != edges && edges != faces && verts != faces
    modifies buffer, verts, edges, faces
    ensures !mode.vertex && !mode.edge && !mode.face ==>
      r == Err(NameError) && buffer.data == old(buffer.data) && unchanged(verts, edges, faces)
    ensures (mode.vertex || mode.edge || mode.face) && OperationOf(op).None? ==>
      r == Err(NameError) && buffer.data == old(buffer.data) && unchanged(verts, edges, faces)
    ensures (mode.vertex || mode.edge || mode.face) && OperationOf(op).Some? ==>
      var all := if mode.vertex then verts else if mode.edge then edges else faces;
      var result := Combine(old(buffer.data), IndicesOf(old(all[..])), OperationOf(op).value);
      var done := ValidPrefix(IterationOrder(result), all.Length);
      && buffer.data == result
      && (r.Ok? <==> done == IterationOrder(result))
      && (r.Err? ==> r.error == IndexError)
      && (forall i :: 0 <= i < all.Length ==> (all[i] <==> i in done))
      && (verts != all ==> forall i :: 0 <= i < verts.Length ==> !verts[i])
      && (edges != all ==> forall i :: 0 <= i < edges.Length ==> !edges[i])
      && (faces != all ==> forall i :: 0 <= i < faces.Length ==> !faces[i])
  {
    var all: array<bool>;
    if mode.vertex {
      all := verts;
    } else if mode.edge {
      all := edges;
    } else if mode.face {
      all := faces;
    } else {
      return Err(NameError);
    }
    var selected := SelectedIndices(all);
    var operation := OperationOf(op);
    if operation.None? {
      return Err(NameError);
    }
    var result := Combine(buffer.data, selected, operation.value);
    buffer.data := result;
    // select_all(action='DESELECT') clears vertices, edges and faces alike
    DeselectAll(verts);
    DeselectAll(edges);
    DeselectAll(faces);
    var ok := SelectInOrder(all, IterationOrder(result));
    r := if ok then Ok(()) else Err(IndexError);
  }

  /** After a successful call the mesh shows exactly the buffer. */
  lemma SuccessSelectsBuffer(b: BufferValue, n: nat)
    requires ValidPrefix(IterationOrder(b), n) == IterationOrder(b)
    ensures forall i :: 0 <= i < n ==> (i in ValidPrefix(IterationOrder(b), n) <==> i in Contents(b))
    ensures forall x :: x in Contents(b) ==> x < n
  {
  }
}
