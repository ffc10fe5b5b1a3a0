/** The deterministic layout rules of the KTX tools add-on: the function-plot
    mesh (a row-major vertex lattice with one quad per cell), the object and
    cylinder grids, the polar array, the clock numbers and the list of
    materials that receive glossy/mix shaders. */
module Tools {
  import opened Common

  /** `k < rows` with `v < rows`, `u < cols`: the row-major index of (v, u) is
      below rows * cols and past every earlier row. */
  lemma RowMajorBounds(v: nat, u: nat, cols: nat, rows: nat)
    requires v < rows && u < cols
    ensures 0 <= v * cols + u < rows * cols
  {
    MulMonotone(v + 1, rows, cols);
    MulMonotone(0, v, cols);
  }

  lemma {:induction false} MulMonotone(a: nat, b: nat, c: nat)
    requires a <= b
    ensures a * c <= b * c
    decreases b - a
  {
    if a < b {
      MulMonotone(a, b - 1, c);
      MulPred(b, c);
    }
  }

  /** One more row adds one row's worth. */
  lemma MulPred(b: nat, c: nat)
    requires b > 0
    ensures (b - 1) * c + c == b * c
  {
  }

  // ---------------------------------------------------------------------
  // KTXFunction: z = f(x, y) over a lattice

  /** How often `while k <= steps` runs from k = 0. */
  function Span(steps: int): nat
  {
    if steps >= 0 then steps + 1 else 0
  }

  /** The vertices of one row: x runs from startx in steps of incx. */
  function RowVerts(startx: real, incx: real, y: real, cols: nat, f: (real, real) -> real): seq<Vec3>
  {
    if cols == 0 then []
    else
      var x := Advance(startx, incx, cols - 1);
      RowVerts(startx, incx, y, cols - 1, f) + [Vec3(x, y, f(x, y))]
  }

  /** The vertices of the first `rows` rows, row after row. */
  function GridVerts(startx: real, incx: real, starty: real, incy: real, cols: nat, rows: nat,
                     f: (real, real) -> real): seq<Vec3>
  {
    if rows == 0 then []
    else GridVerts(startx, incx, starty, incy, cols, rows - 1, f) + RowVerts(startx, incx, Advance(starty, incy, rows - 1), cols, f)
  }

  lemma {:induction false} RowVertsShape(startx: real, incx: real, y: real, cols: nat, f: (real, real) -> real)
    ensures |RowVerts(startx, incx, y, cols, f)| == cols
    ensures forall u :: 0 <= u < cols ==>
      RowVerts(startx, incx, y, cols, f)[u] == Vec3(Advance(startx, incx, u), y, f(Advance(startx, incx, u), y))
  {
    if cols > 0 {
      RowVertsShape(startx, incx, y, cols - 1, f);
    }
  }

  lemma {:induction false} GridVertsLength(startx: real, incx: real, starty: real, incy: real, cols: nat, rows: nat,
                                           f: (real, real) -> real)
    ensures |GridVerts(startx, incx, starty, incy, cols, rows, f)| == rows * cols
  {
    if rows > 0 {
      GridVertsLength(startx, incx, starty, incy, cols, rows - 1, f);
      RowVertsShape(startx, incx, Advance(starty, incy, rows - 1), cols, f);
      assert (rows - 1) * cols + cols == rows * cols;
    }
  }

  /** Vertex (v, u) of the lattice is number v * (stepsx + 1) + u, at the
      u-th x step and the v-th y step. */
  lemma {:induction false} GridVertsAt(startx: real, incx: real, starty: real, incy: real, cols: nat, rows: nat,
                                       f: (real, real) -> real, v: nat, u: nat)
    requires v < rows && u < cols
    ensures v * cols + u < |GridVerts(startx, incx, starty, incy, cols, rows, f)|
    ensures var x, y := Advance(startx, incx, u), Advance(starty, incy, v);
      GridVerts(startx, incx, starty, incy, cols, rows, f)[v * cols + u] == Vec3(x, y, f(x, y))
  {
    GridVertsLength(startx, incx, starty, incy, cols, rows, f);
    RowMajorBounds(v, u, cols, rows);
    var g := GridVerts(startx, incx, starty, incy, cols, rows - 1, f);
    GridVertsLength(startx, incx, starty, incy, cols, rows - 1, f);
    if v < rows - 1 {
      RowMajorBounds(v, u, cols, rows - 1);
      GridVertsAt(startx, incx, starty, incy, cols, rows - 1, f, v, u);
    } else {
      RowVertsShape(startx, incx, Advance(starty, incy, v), cols, f);
      assert v * cols + u == |g| + u;
    }
  }

  /** Row-major number of lattice vertex (r, c) when rows hold stepsx + 1
      vertices. */
  function VertexIndex(stepsx: int, r: nat, c: nat): int
  {
    r * (stepsx + 1) + c
  }

  /** The face of cell (r, c): up one row, the cell's corner, along the row,
      up one row again. */
  function Cell(stepsx: int, r: nat, c: nat): seq<int>
  {
    [VertexIndex(stepsx, r + 1, c), VertexIndex(stepsx, r, c), VertexIndex(stepsx, r, c + 1), VertexIndex(stepsx, r + 1, c + 1)]
  }

  /** How often `while c < steps` runs from c = 0. */
  function Count(steps: int): nat
  {
    if steps > 0 then steps else 0
  }

  function RowCells(stepsx: int, r: nat, c: nat): seq<seq<int>>
  {
    if c == 0 then [] else RowCells(stepsx, r, c - 1) + [Cell(stepsx, r, c - 1)]
  }

  /** The faces of the first `rows` rows of cells. */
  function Cells(stepsx: int, rows: nat): seq<seq<int>>
  {
    if rows == 0 then [] else Cells(stepsx, rows - 1) + RowCells(stepsx, rows - 1, Count(stepsx))
  }

  lemma {:induction false} RowCellsShape(stepsx: int, r: nat, c: nat)
    ensures |RowCells(stepsx, r, c)| == c
    ensures forall u :: 0 <= u < c ==> RowCells(stepsx, r, c)[u] == Cell(stepsx, r, u)
  {
    if c > 0 {
      RowCellsShape(stepsx, r, c - 1);
    }
  }

  /** Exactly rows * stepsx faces. */
  lemma {:induction false} CellsLength(stepsx: nat, rows: nat)
    ensures |Cells(stepsx, rows)| == rows * stepsx
  {
    if rows > 0 {
      CellsLength(stepsx, rows - 1);
      RowCellsShape(stepsx, rows - 1, stepsx);
      assert (rows - 1) * stepsx + stepsx == rows * stepsx;
    }
  }

  /** Face number v * stepsx + u is the face of cell (v, u). */
  lemma {:induction false} CellsAt(stepsx: nat, rows: nat, v: nat, u: nat)
    requires v < rows && u < stepsx
    ensures v * stepsx + u < |Cells(stepsx, rows)|
    ensures Cells(stepsx, rows)[v * stepsx + u] == Cell(stepsx, v, u)
  {
    CellsLength(stepsx, rows);
    RowMajorBounds(v, u, stepsx, rows);
    var g := Cells(stepsx, rows - 1);
    CellsLength(stepsx, rows - 1);
    if v < rows - 1 {
      RowMajorBounds(v, u, stepsx, rows - 1);
      CellsAt(stepsx, rows - 1, v, u);
    } else {
      RowCellsShape(stepsx, v, stepsx);
      assert v * stepsx + u == |g| + u;
    }
  }

  /** A quad over four distinct vertices of a mesh with n vertices. */
  predicate ValidQuad(face: seq<int>, n: int)
  {
    && |face| == 4
    && (forall k :: 0 <= k < 4 ==> 0 <= face[k] < n)
    && (forall i, j :: 0 <= i < j < 4 ==> face[i] != face[j])
  }

  /** The cell of a row below stepsy and a column below stepsx only uses
      vertices of the (stepsx + 1) * (stepsy + 1) lattice, all distinct. */
  lemma CellValid(stepsx: nat, stepsy: nat, r: nat, c: nat)
    requires r < stepsy && c < stepsx
    ensures ValidQuad(Cell(stepsx, r, c), (stepsx + 1) * (stepsy + 1))
  {
    var w := stepsx + 1;
    var n := (stepsx + 1) * (stepsy + 1);
    var base := r * w;
    assert 0 <= base && (r + 1) * w == base + w && (r + 1) * w + c + 1 < n by {
      RowMajorBounds(r + 1, c + 1, w, stepsy + 1);
      MulPred(r + 1, w);
    }
    var face := Cell(stepsx, r, c);
    assert face == [base + w + c, base + c, base + c + 1, base + w + c + 1];
  }

  lemma {:induction false} CellsValid(stepsx: nat, stepsy: nat, rows: nat)
    requires rows <= stepsy
    ensures forall k :: 0 <= k < |Cells(stepsx, rows)| ==> ValidQuad(Cells(stepsx, rows)[k], (stepsx + 1) * (stepsy + 1))
  {
    if rows > 0 {
      CellsValid(stepsx, stepsy, rows - 1);
      var row := RowCells(stepsx, rows - 1, stepsx);
      RowCellsShape(stepsx, rows - 1, stepsx);
      forall c | 0 <= c < |row|
        ensures ValidQuad(row[c], (stepsx + 1) * (stepsy + 1))
      {
        CellValid(stepsx, stepsy, rows - 1, c);
      }
    }
  }

  /** What KTXFunction builds: stepsx == 0 or stepsy == 0 divides by zero. */
  function FunctionMeshSpec(startx: real, endx: real, starty: real, endy: real, stepsx: int, stepsy: int,
                            f: (real, real) -> real): Result<Mesh>
  {
    if stepsx == 0 || stepsy == 0 then Err(ZeroDivisionError)
    else
      var incx := (endx - startx) / (stepsx as real);
      var incy := (endy - starty) / (stepsy as real);
      Ok(Mesh(GridVerts(startx, incx, starty, incy, Span(stepsx), Span(stepsy), f),
              if stepsx > 0 then Cells(stepsx, Count(stepsy)) else []))
  }

  /** Every face of the function mesh is a quad over four distinct existing
      vertices, and there are stepsx * stepsy of them. */
  lemma FunctionMeshFacesValid(startx: real, endx: real, starty: real, endy: real, stepsx: int, stepsy: int,
                               f: (real, real) -> real)
    requires FunctionMeshSpec(startx, endx, starty, endy, stepsx, stepsy, f).Ok?
    ensures var m := FunctionMeshSpec(startx, endx, starty, endy, stepsx, stepsy, f).value;
      && |m.verts| == Span(stepsx) * Span(stepsy)
      && |m.faces| == Count(stepsx) * Count(stepsy)
      && forall k :: 0 <= k < |m.faces| ==> ValidQuad(m.faces[k], |m.verts|)
  {
    var incx := (endx - startx) / (stepsx as real);
    var incy := (endy - starty) / (stepsy as real);
    GridVertsLength(startx, incx, starty, incy, Span(stepsx), Span(stepsy), f);
    if stepsx > 0 {
      CellsLength(stepsx, Count(stepsy));
      if stepsy > 0 {
        CellsValid(stepsx, stepsy, stepsy);
        assert Span(stepsx) * Span(stepsy) == (stepsx + 1) * (stepsy + 1);
      }
    }
  }

  /** The first double loop: `while r <= stepsy: while c <= stepsx`. */
  method FunctionVerts(startx: real, incx: real, starty: real, incy: real, stepsx: int, stepsy: int,
                       f: (real, real) -> real) returns (verts: seq<Vec3>)
    ensures verts == GridVerts(startx, incx, starty, incy, Span(stepsx), Span(stepsy), f)
  {
    verts := [];
    var y := starty;
    var r := 0;
    while r <= stepsy
      invariant 0 <= r <= Span(stepsy)
      invariant y == Advance(starty, incy, r)
      invariant verts == GridVerts(startx, incx, starty, incy, Span(stepsx), r, f)
    {
      ghost var before := verts;
      var x := startx;
      var c := 0;
      while c <= stepsx
        invariant 0 <= c <= Span(stepsx)
        invariant x == Advance(startx, incx, c)
        invariant verts == before + RowVerts(startx, incx, y, c, f)
      {
        var z := f(x, y);
        assert before + RowVerts(startx, incx, y, c, f) + [Vec3(x, y, z)] == before + RowVerts(startx, incx, y, c + 1, f);
        verts := verts + [Vec3(x, y, z)];
        c := c + 1;
        x := x + incx;
      }
      r := r + 1;
      y := y + incy;
    }
  }

  /** The second double loop, with the running row offset offsetx. */
  method FunctionFaces(stepsx: int, stepsy: int) returns (faces: seq<seq<int>>)
    ensures faces == Cells(stepsx, Count(stepsy))
  {
    faces := [];
    var offsetx := 0;
    var r := 0;
    while r < stepsy
      invariant 0 <= r <= Count(stepsy)
      invariant offsetx == r * (stepsx + 1)
      invariant faces == Cells(stepsx, r)
    {
      ghost var before := faces;
      var c := 0;
      while c < stepsx
        invariant 0 <= c <= Count(stepsx)
        invariant faces == before + RowCells(stepsx, r, c)
      {
        var face := [offsetx + c + 1 + stepsx, offsetx + c, offsetx + c + 1, offsetx + c + 2 + stepsx];
        assert (r + 1) * (stepsx + 1) == offsetx + stepsx + 1;
        assert face == Cell(stepsx, r, c);
        faces := faces + [face];
        c := c + 1;
      }
      r := r + 1;
      offsetx := offsetx + stepsx;
      offsetx := offsetx + 1;
    }
  }

  /** KTXFunction.execute; the evaluated user expression is the parameter f. */
  method FunctionMesh(startx: real, endx: real, starty: real, endy: real, stepsx: int, stepsy: int,
                      f: (real, real) -> real) returns (r: Result<Mesh>)
    ensures r == FunctionMeshSpec(startx, endx, starty, endy, stepsx, stepsy, f)
  {
    if stepsx == 0 || stepsy == 0 {
      return Err(ZeroDivisionError);
    }
    var incx := (endx - startx) / (stepsx as real);
    var incy := (endy - starty) / (stepsy as real);
    var verts := FunctionVerts(startx, incx, starty, incy, stepsx, stepsy, f);
    var faces := FunctionFaces(stepsx, stepsy);
    if stepsx < 0 {
      RowCellsEmpty(stepsx, Count(stepsy));
    }
    r := Ok(Mesh(verts, faces));
  }

  /** With stepsx < 0 no row has a cell. */
  lemma {:induction false} RowCellsEmpty(stepsx: int, rows: nat)
    requires stepsx < 0
    ensures Cells(stepsx, rows) == []
  {
    if rows > 0 {
      RowCellsEmpty(stepsx, rows - 1);
    }
  }

  // ---------------------------------------------------------------------
  // KTXObjectGrid and KTXCylinderGrid

  /** Where a row starts: 0 on even rows, `odd` on odd rows. */
  function RowStart(odd: real, v: nat): real
  {
    if v % 2 == 0 then 0.0 else odd
  }

  function LatticeRow(x0: real, dx: real, y: real, cols: nat): seq<Vec3>
  {
    if cols == 0 then [] else LatticeRow(x0, dx, y, cols - 1) + [Vec3(Advance(x0, dx, cols - 1), y, 0.0)]
  }

  /** The locations of a countx by county grid, row after row. */
  function Lattice(odd: real, dx: real, dy: real, cols: nat, rows: nat): seq<Vec3>
  {
    if rows == 0 then []
    else Lattice(odd, dx, dy, cols, rows - 1) + LatticeRow(RowStart(odd, rows - 1), dx, Advance(0.0, dy, rows - 1), cols)
  }

  lemma {:induction false} LatticeRowShape(x0: real, dx: real, y: real, cols: nat)
    ensures |LatticeRow(x0, dx, y, cols)| == cols
    ensures forall u :: 0 <= u < cols ==> LatticeRow(x0, dx, y, cols)[u] == Vec3(x0 + (u as real) * dx, y, 0.0)
  {
    if cols > 0 {
      LatticeRowShape(x0, dx, y, cols - 1);
      AdvanceLinear(x0, dx, cols - 1);
    }
  }

  lemma {:induction false} LatticeLength(odd: real, dx: real, dy: real, cols: nat, rows: nat)
    ensures |Lattice(odd, dx, dy, cols, rows)| == rows * cols
  {
    if rows > 0 {
      LatticeLength(odd, dx, dy, cols, rows - 1);
      LatticeRowShape(RowStart(odd, rows - 1), dx, Advance(0.0, dy, rows - 1), cols);
      MulPred(rows, cols);
    }
  }

  /** Grid item (v, u) is number v * countx + u and sits at x = u * dx plus
      the odd-row offset, y = v * dy. */
  lemma {:induction false} LatticeAt(odd: real, dx: real, dy: real, cols: nat, rows: nat, v: nat, u: nat)
    requires v < rows && u < cols
    ensures v * cols + u < |Lattice(odd, dx, dy, cols, rows)|
    ensures Lattice(odd, dx, dy, cols, rows)[v * cols + u] == Vec3(RowStart(odd, v) + (u as real) * dx, (v as real) * dy, 0.0)
  {
    if v < rows - 1 {
      LatticeLength(odd, dx, dy, cols, rows - 1);
      RowMajorBounds(v, u, cols, rows - 1);
      LatticeAt(odd, dx, dy, cols, rows - 1, v, u);
      var k := v * cols + u;
      LatticeEarlierRows(odd, dx, dy, cols, rows, k);
      assert Lattice(odd, dx, dy, cols, rows)[k] == Lattice(odd, dx, dy, cols, rows - 1)[k];
    } else {
      LatticeLastRow(odd, dx, dy, cols, rows, v, u);
    }
  }

  /** The rows before the last are the smaller lattice. */
  lemma LatticeEarlierRows(odd: real, dx: real, dy: real, cols: nat, rows: nat, k: nat)
    requires rows > 0 && k < |Lattice(odd, dx, dy, cols, rows - 1)|
    ensures k < |Lattice(odd, dx, dy, cols, rows)|
    ensures Lattice(odd, dx, dy, cols, rows)[k] == Lattice(odd, dx, dy, cols, rows - 1)[k]
  {
  }

  /** Item u of the last row v follows the v earlier rows. */
  lemma LatticeLastRow(odd: real, dx: real, dy: real, cols: nat, rows: nat, v: nat, u: nat)
    requires rows > 0 && v == rows - 1 && u < cols
    ensures v * cols + u < |Lattice(odd, dx, dy, cols, rows)|
    ensures Lattice(odd, dx, dy, cols, rows)[v * cols + u] == Vec3(RowStart(odd, v) + (u as real) * dx, (v as real) * dy, 0.0)
  {
    var g := Lattice(odd, dx, dy, cols, v);
    var row := LatticeRow(RowStart(odd, v), dx, Advance(0.0, dy, v), cols);
    assert Lattice(odd, dx, dy, cols, rows) == g + row;
    assert v * cols + u == |g| + u by {
      LatticeLength(odd, dx, dy, cols, v);
    }
    assert row[u] == Vec3(RowStart(odd, v) + (u as real) * dx, (v as real) * dy, 0.0) by {
      LatticeRowAt(RowStart(odd, v), dx, Advance(0.0, dy, v), cols, u);
      AdvanceLinear(0.0, dy, v);
    }
    assert (g + row)[|g| + u] == row[u];
  }

  /** Item u of one row. */
  lemma LatticeRowAt(x0: real, dx: real, y: real, cols: nat, u: nat)
    requires u < cols
    ensures |LatticeRow(x0, dx, y, cols)| == cols
    ensures LatticeRow(x0, dx, y, cols)[u] == Vec3(x0 + (u as real) * dx, y, 0.0)
  {
    LatticeRowShape(x0, dx, y, cols);
  }

  /** All but the first element. */
  function DropFirst(s: seq<Vec3>): seq<Vec3>
  {
    if s == [] then [] else s[1..]
  }

  /** The locations KTXObjectGrid gives its duplicates: the grid without
      item (0, 0), which is the original object; nothing without an active
      object. */
  function ObjectGridSpec(hasActive: bool, trisq: bool, radius: real, rowStep: real, countx: int, county: int): seq<Vec3>
  {
    if !hasActive then []
    else
      DropFirst(Lattice(if trisq then radius else 0.0, 2.0 * radius, RowDistance(trisq, radius, rowStep),
                        Count(countx), Count(county)))
  }

  /** The distance between rows: 2 * radius * sqrt(0.75) on a triangular
      grid, 2 * radius on a square one. */
  function RowDistance(trisq: bool, radius: real, rowStep: real): real
  {
    if trisq then 2.0 * radius * rowStep else 2.0 * radius
  }

  /** KTXObjectGrid.execute; rowStep stands for math.sqrt(0.75). */
  method ObjectGrid(hasActive: bool, trisq: bool, radius: real, rowStep: real, countx: int, county: int)
    returns (locations: seq<Vec3>)
    ensures locations == ObjectGridSpec(hasActive, trisq, radius, rowStep, countx, county)
  {
    locations := [];
    if !hasActive {
      return;
    }
    var odd := if trisq then radius else 0.0;
    var dy := RowDistance(trisq, radius, rowStep);
    var x := 0.0;
    var y := 0.0;
    var v := 0;
    while v < county
      invariant 0 <= v <= Count(county)
      invariant y == Advance(0.0, dy, v)
      invariant locations == DropFirst(Lattice(odd, 2.0 * radius, dy, Count(countx), v))
    {
      ghost var before := Lattice(odd, 2.0 * radius, dy, Count(countx), v);
      if trisq {
        if v % 2 == 0 {
          x := 0.0;
        } else {
          x := radius;
        }
      } else {
        x := 0.0;
      }
      if v > 0 && countx > 0 {
        LatticeLength(odd, 2.0 * radius, dy, Count(countx), v);
        RowMajorBounds(0, 0, Count(countx), v);
      }
      locations := ObjectGridRow(locations, before, x, 2.0 * radius, y, countx, v);
      y := y + dy;
      v := v + 1;
    }
  }

  /** The inner loop of KTXObjectGrid.execute: row v's items appended from
      x0 on, dx apart; item (0, 0) is skipped, being the original. */
  method ObjectGridRow(locations: seq<Vec3>, ghost before: seq<Vec3>, x0: real, dx: real, y: real, countx: int, v: nat)
    returns (out: seq<Vec3>)
    requires locations == DropFirst(before)
    requires v == 0 ==> before == []
    requires v > 0 && countx > 0 ==> before != []
    ensures out == DropFirst(before + LatticeRow(x0, dx, y, Count(countx)))
  {
    out := locations;
    var x := x0;
    var u := 0;
    while u < countx
      invariant 0 <= u <= Count(countx)
      invariant x == Advance(x0, dx, u)
      invariant out == DropFirst(before + LatticeRow(x0, dx, y, u))
    {
      ghost var prefix := before + LatticeRow(x0, dx, y, u);
      assert prefix + [Vec3(x, y, 0.0)] == before + LatticeRow(x0, dx, y, u + 1);
      if !(u == 0 && v == 0) {
        assert prefix != [];
        assert DropFirst(prefix + [Vec3(x, y, 0.0)]) == DropFirst(prefix) + [Vec3(x, y, 0.0)];
        out := out + [Vec3(x, y, 0.0)];
      } else {
        assert prefix == [];
      }
      x := x + dx;
      u := u + 1;
    }
  }

  /** The locations of KTXCylinderGrid: the whole grid, odd rows shifted by
      the radius, rows rowStep * 2 * radius apart. */
  function CylinderGridSpec(radius: real, rowStep: real, countx: int, county: int): seq<Vec3>
  {
    Lattice(radius, 2.0 * radius, RowDistance(true, radius, rowStep), Count(countx), Count(county))
  }

  /** KTXCylinderGrid.execute: where each cylinder (or bezier circle) goes. */
  method CylinderGrid(radius: real, rowStep: real, countx: int, county: int) returns (locations: seq<Vec3>)
    ensures locations == CylinderGridSpec(radius, rowStep, countx, county)
  {
    var dy := RowDistance(true, radius, rowStep);
    locations := [];
    var x := 0.0;
    var y := 0.0;
    var v := 0;
    while v < county
      invariant 0 <= v <= Count(county)
      invariant y == Advance(0.0, dy, v)
      invariant locations == Lattice(radius, 2.0 * radius, dy, Count(countx), v)
    {
      ghost var before := locations;
      if v % 2 == 0 {
        x := 0.0;
      } else {
        x := radius;
      }
      var u := 0;
      while u < countx
        invariant 0 <= u <= Count(countx)
        invariant x == Advance(RowStart(radius, v), 2.0 * radius, u)
        invariant locations == before + LatticeRow(RowStart(radius, v), 2.0 * radius, y, u)
      {
        assert locations + [Vec3(x, y, 0.0)] == before + LatticeRow(RowStart(radius, v), 2.0 * radius, y, u + 1);
        locations := locations + [Vec3(x, y, 0.0)];
        x := x + 2.0 * radius;
        u := u + 1;
      }
      y := y + dy;
      v := v + 1;
    }
  }

  /** The object grid makes countx * county - 1 duplicates, in the places of
      the triangular cylinder grid's items after the first. */
  lemma ObjectGridMatchesCylinderGrid(radius: real, rowStep: real, countx: nat, county: nat)
    requires countx > 0 && county > 0
    ensures var objs := ObjectGridSpec(true, true, radius, rowStep, countx, county);
      var cyls := CylinderGridSpec(radius, rowStep, countx, county);
      && |objs| == countx * county - 1
      && |cyls| == countx * county
      && forall k :: 0 <= k < |objs| ==> objs[k] == cyls[k + 1]
  {
    LatticeLength(radius, 2.0 * radius, RowDistance(true, radius, rowStep), countx, county);
    RowMajorBounds(0, 0, countx, county);
  }

  // ---------------------------------------------------------------------
  // KTXPolarArray

  /** The Z rotations (degrees) of the original and its count - 1
      duplicates: item k is turned by -(startang + k * inc). */
  function PolarRotations(startang: real, inc: real, k: nat): seq<real>
  {
    if k == 0 then [] else PolarRotations(startang, inc, k - 1) + [-Advance(startang, inc, k - 1)]
  }

  /** The rotations of the items; with no active object the first item's
      rotation_euler is an attribute of None. */
  function PolarArraySpec(hasActive: bool, startang: real, endang: real, count: int): Result<seq<real>>
  {
    if count == 0 then Err(ZeroDivisionError)
    else if !hasActive && count > 0 then Err(AttributeError)
    else Ok(PolarRotations(startang, (endang - startang) / (count as real), Count(count)))
  }

  /** KTXPolarArray.execute: the rotation given to each item, in degrees. */
  method PolarArray(hasActive: bool, startang: real, endang: real, count: int) returns (r: Result<seq<real>>)
    ensures r == PolarArraySpec(hasActive, startang, endang, count)
  {
    if count == 0 {
      return Err(ZeroDivisionError);
    }
    var inc := (endang - startang) / (count as real);
    var angle := startang;
    var rotations := [];
    var copies := 0;
    while copies < count
      invariant 0 <= copies <= Count(count)
      invariant angle == Advance(startang, inc, copies)
      invariant rotations == PolarRotations(startang, inc, copies)
      invariant !hasActive ==> copies == 0
    {
      if !hasActive {
        return Err(AttributeError);
      }
      rotations := rotations + [-angle];
      angle := angle + inc;
      copies := copies + 1;
    }
    r := Ok(rotations);
  }

  lemma {:induction false} PolarRotationsShape(startang: real, inc: real, k: nat)
    ensures |PolarRotations(startang, inc, k)| == k
    ensures forall i :: 0 <= i < k ==> PolarRotations(startang, inc, k)[i] == -(startang + (i as real) * inc)
  {
    if k > 0 {
      PolarRotationsShape(startang, inc, k - 1);
      AdvanceLinear(startang, inc, k - 1);
    }
  }

  /** count items spread evenly: item k is turned by
      -(startang + k * (endang - startang) / count), and one more step would
      reach endang. Without an active object the first item raises
      AttributeError; a negative count makes no item and succeeds. */
  lemma PolarArraySweep(startang: real, endang: real, count: nat)
    requires count > 0
    ensures PolarArraySpec(false, startang, endang, count) == Err(AttributeError)
    ensures PolarArraySpec(false, startang, endang, -(count as int)) == Ok([])
    ensures PolarArraySpec(true, startang, endang, -(count as int)) == Ok([])
    ensures var inc := (endang - startang) / (count as real);
      && PolarArraySpec(true, startang, endang, count) == Ok(PolarRotations(startang, inc, count))
      && |PolarRotations(startang, inc, count)| == count
      && (forall i :: 0 <= i < count ==> PolarRotations(startang, inc, count)[i] == -(startang + (i as real) * inc))
      && Advance(startang, inc, count) == endang
  {
    var inc := (endang - startang) / (count as real);
    PolarRotationsShape(startang, inc, count);
    AdvanceLinear(startang, inc, count);
    assert (count as real) * inc == endang - startang;
  }

  // ---------------------------------------------------------------------
  // KTXClockNumbers

  /** The numbers on the dial. */
  const Hours := 12

  /** One hour number: object name, text body, angle on the dial (degrees)
      and Z rotation (degrees) when rotation is on. */
  datatype ClockItem = ClockItem(name: string, body: string, angle: int, rotation: Option<int>)

  /** Readable numbers between 90 and 269 degrees are turned upside down. */
  function ClockRotation(angle: int, rotate: bool, readable: bool): Option<int>
  {
    if !rotate then None
    else if readable && 90 < angle < 269 then Some(180 - angle)
    else Some(-angle)
  }

  function ClockItemOf(number: nat, padding: int, rotate: bool, readable: bool): ClockItem
  {
    ClockItem("clk_" + ZFill(NatToString(number), 2), ZFill(NatToString(number), padding), 30 * number,
              ClockRotation(30 * number, rotate, readable))
  }

  /** The items for the numbers 1..k. */
  function ClockItems(k: nat, padding: int, rotate: bool, readable: bool): (items: seq<ClockItem>)
    ensures |items| == k
  {
    if k == 0 then [] else ClockItems(k - 1, padding, rotate, readable) + [ClockItemOf(k, padding, rotate, readable)]
  }

  /** KTXClockNumbers.execute: twelve items, number and angle counted up
      together. */
  method ClockNumbers(padding: int, rotate: bool, readable: bool) returns (items: seq<ClockItem>)
    ensures items == ClockItems(Hours, padding, rotate, readable)
  {
    items := [];
    var number := 1;
    var angle := 30;
    for dupli := 0 to Hours
      invariant number == dupli + 1 && angle == 30 * number
      invariant items == ClockItems(dupli, padding, rotate, readable)
    {
      var item := ClockItemFor(number, angle, padding, rotate, readable);
      items := items + [item];
      number := number + 1;
      angle := angle + 30;
    }
  }

  /** The body of the loop: name, padded text, angle and rotation of one
      hour number. */
  method ClockItemFor(number: nat, angle: int, padding: int, rotate: bool, readable: bool) returns (item: ClockItem)
    requires angle == 30 * number
    ensures item == ClockItemOf(number, padding, rotate, readable)
  {
    var obname := "clk_" + ZFill(NatToString(number), 2);
    var body := ZFill(NatToString(number), padding);
    var rotation := None;
    if rotate {
      if readable && angle > 90 && angle < 269 {
        rotation := Some(-angle + 180);
      } else {
        rotation := Some(-angle);
      }
    }
    item := ClockItem(obname, body, angle, rotation);
  }

  lemma {:induction false} ClockItemsIndex(k: nat, padding: int, rotate: bool, readable: bool, i: nat)
    requires i < k
    ensures ClockItems(k, padding, rotate, readable)[i] == ClockItemOf(i + 1, padding, rotate, readable)
  {
    if i < k - 1 {
      ClockItemsIndex(k - 1, padding, rotate, readable, i);
    }
  }


  /** Item i (0-based) shows number i + 1 at 30 * (i + 1) degrees; with
      rotate and readable on, exactly numbers 4..8 are turned by
      180 - angle, all others by -angle. */
  lemma ClockRotations(padding: int, rotate: bool, readable: bool, i: nat)
    requires i < Hours
    ensures var it := ClockItems(Hours, padding, rotate, readable)[i];
      && it.angle == 30 * (i + 1)
      && (rotate && readable ==> it.rotation == Some(if 4 <= i + 1 <= 8 then 180 - it.angle else -it.angle))
      && (rotate && !readable ==> it.rotation == Some(-it.angle))
      && (!rotate ==> it.rotation == None)
  {
    ClockItemsIndex(Hours, padding, rotate, readable, i);
  }

  /** The name is "clk_" and digits that read back as the item's number,
      so no two items share a name; the body reads back as the number too. */
  lemma ClockNames(padding: int, rotate: bool, readable: bool, i: nat)
    requires i < Hours
    ensures var it := ClockItems(Hours, padding, rotate, readable)[i];
      && StartsWith(it.name, "clk_")
      && AllDigits(it.name[4..]) && DigitsValue(it.name[4..]) == i + 1
      && AllDigits(it.body) && DigitsValue(it.body) == i + 1
  {
    ClockItemsIndex(Hours, padding, rotate, readable, i);
    var digits := ZFill(NatToString(i + 1), 2);
    assert ("clk_" + digits)[4..] == digits;
    ZFillValue(i + 1, 2);
    ZFillValue(i + 1, padding);
  }

  /** Distinct items have distinct names. */
  lemma ClockNamesDistinct(padding: int, rotate: bool, readable: bool, i: nat, j: nat)
    requires i < j < Hours
    ensures ClockItems(Hours, padding, rotate, readable)[i].name != ClockItems(Hours, padding, rotate, readable)[j].name
  {
    ClockNames(padding, rotate, readable, i);
    ClockNames(padding, rotate, readable, j);
  }

  // ---------------------------------------------------------------------
  // KTXAddGlossyMixShaders

  /** names without repeats, each kept where it first appears. */
  function Dedup(names: seq<string>): seq<string>
  {
    if names == [] then []
    else
      var d := Dedup(names[..|names| - 1]);
      if names[|names| - 1] in d then d else d + [names[|names| - 1]]
  }

  predicate NoRepeats(s: seq<string>)
  {
    forall i, j :: 0 <= i < j < |s| ==> s[i] != s[j]
  }

  /** The index where x first appears in s. */
  function FirstIndex(s: seq<string>, x: string): (k: nat)
    requires x in s
    ensures k < |s| && s[k] == x && x !in s[..k]
  {
    if s[0] == x then 0
    else
      assert x in s[1..];
      var k := FirstIndex(s[1..], x);
      assert s[..k + 1] == [s[0]] + s[1..][..k];
      k + 1
  }

  /** Dedup keeps every name once, and in the order of first appearance. */
  lemma {:induction false} DedupSpec(names: seq<string>)
    ensures forall x :: x in Dedup(names) <==> x in names
    ensures NoRepeats(Dedup(names))
    ensures forall i, j :: 0 <= i < j < |Dedup(names)| ==>
      FirstIndex(names, Dedup(names)[i]) < FirstIndex(names, Dedup(names)[j])
    decreases |names|
  {
    if names != [] {
      var init := names[..|names| - 1];
      var last := names[|names| - 1];
      var d := Dedup(init);
      DedupSpec(init);
      assert names == init + [last];
      forall x | x in init
        ensures FirstIndex(names, x) == FirstIndex(init, x)
      {
        FirstIndexPrefix(init, last, x);
      }
      if last !in d {
        var r := d + [last];
        assert last !in init;
        assert FirstIndex(names, last) == |init| by {
          assert names[..|init|] == init;
        }
        forall i, j | 0 <= i < j < |r|
          ensures FirstIndex(names, r[i]) < FirstIndex(names, r[j])
        {
          if j == |d| {
            assert r[i] == d[i] && d[i] in init;
          } else {
            assert r[i] == d[i] && r[j] == d[j];
          }
        }
      }
    }
  }

  lemma FirstIndexPrefix(s: seq<string>, y: string, x: string)
    requires x in s
    ensures x in s + [y] && FirstIndex(s + [y], x) == FirstIndex(s, x)
  {
    var t := s + [y];
    assert x in t by {
      assert t[FirstIndex(s, x)] == x;
    }
    var k := FirstIndex(s, x);
    var k2 := FirstIndex(t, x);
    assert t[..k] == s[..k];
    assert k2 >= k;
    assert t[k] == x;
    assert x in t[..k + 1];
  }


  /** The first-slot material name of each selected object, or IndexError
      for an object without slots. */
  function FirstSlots(slots: seq<seq<string>>): Result<seq<string>>
  {
    if slots == [] then Ok([])
    else
      var init :- FirstSlots(slots[..|slots| - 1]);
      if |slots[|slots| - 1]| == 0 then Err(IndexError) else Ok(init + [slots[|slots| - 1][0]])
  }

  /** The first loop of KTXAddGlossyMixShaders.execute: unique_mats. */
  method UniqueMaterials(slots: seq<seq<string>>) returns (r: Result<seq<string>>)
    ensures r.Err? <==> exists k :: 0 <= k < |slots| && slots[k] == []
    ensures r.Err? ==> r.error == IndexError
    ensures r.Ok? ==> FirstSlots(slots).Ok? && r.value == Dedup(FirstSlots(slots).value)
  {
    var unique := [];
    ghost var seen := [];
    for k := 0 to |slots|
      invariant forall j :: 0 <= j < k ==> slots[j] != []
      invariant FirstSlots(slots[..k]) == Ok(seen)
      invariant unique == Dedup(seen)
    {
      assert slots[..k + 1][..k] == slots[..k];
      if |slots[k]| == 0 {
        return Err(IndexError);
      }
      var name := slots[k][0];
      assert (seen + [name])[..|seen|] == seen;
      seen := seen + [name];
      if name !in unique {
        unique := unique + [name];
      }
    }
    assert slots[..|slots|] == slots;
    r := Ok(unique);
  }
}
