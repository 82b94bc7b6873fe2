/** `pack_shapes`: filling sheets, one after another, with shapes on the grid
    of the chosen pitch until the requested number is placed. `Pack` says
    what the result is; `PackShapes` computes it with the loops of the
    source; the lemmas state what the result guarantees. */
module Packing {
  import opened Shapes
  import opened Arith
  import opened Seqs
  import opened Geometry
  import Area

  /** The inputs `pack_shapes` can run on: positive shape parameters, a
      clearance of at least zero and a positive value for sqrt(3). */
  predicate Admissible(s: Shape, clearance: real, sqrt3: real)
  {
    ParamsPositive(s) && clearance >= 0.0 && sqrt3 > 0.0
  }

  /** The grid every sheet is filled from, or the error for an unknown kind. */
  function GridFor(s: Shape, clearance: real, sheetW: real, sheetH: real, sqrt3: real): (r: Result<Grid>)
    requires Admissible(s, clearance, sqrt3)
    ensures r.Err? <==> s.Unknown?
    ensures r.Err? ==> r.error == UnknownShape(s.name)
    ensures r.Ok? ==> ValidGrid(r.value) && KindName(r.value.shape) == KindName(s)
    ensures r.Ok? ==> (r.value.stagger <==> s.Circle?)
  {
    match ChoosePitch(s, clearance, sheetW, sheetH, sqrt3)
    case Err(e) => Err(e)
    case Ok(p) => Ok(Layout(p, sheetW, sheetH, sqrt3))
  }

  /** How many shapes one sheet holds. */
  function Capacity(s: Shape, clearance: real, sheetW: real, sheetH: real, sqrt3: real): nat
    requires Admissible(s, clearance, sqrt3) && !s.Unknown?
  {
    |Cells(GridFor(s, clearance, sheetW, sheetH, sqrt3).value)|
  }

  /** The number of shapes on all sheets together. */
  function Total(sheets: seq<seq<Placed>>): int
  {
    if sheets == [] then 0 else |sheets[0]| + Total(sheets[1..])
  }

  /** `n` shapes spread over sheets that each hold the shapes of `cells`:
      whole sheets while more than a sheet's worth remains, then the rest. */
  function Chunks(cells: seq<Placed>, n: int): seq<seq<Placed>>
    requires |cells| > 0 && n > 0
    decreases n
  {
    if n <= |cells| then [cells[..n]] else [cells] + Chunks(cells, n - |cells|)
  }

  /** The sheets `Chunks` makes hold `n` shapes together; none is empty,
      each is a leading part of the grid, and every sheet but the last is
      the whole grid. */
  lemma {:induction false} ChunksShape(cells: seq<Placed>, n: int)
    requires |cells| > 0 && n > 0
    ensures var sheets := Chunks(cells, n);
      && |sheets| > 0 && Total(sheets) == n
      && (forall i :: 0 <= i < |sheets| ==> 0 < |sheets[i]| && sheets[i] <= cells)
      && (forall i :: 0 <= i < |sheets| - 1 ==> sheets[i] == cells)
    decreases n
  {
    if n > |cells| {
      var rest := Chunks(cells, n - |cells|);
      ChunksShape(cells, n - |cells|);
      var sheets := [cells] + rest;
      assert sheets[1..] == rest;
      assert forall i :: 1 <= i < |sheets| ==> sheets[i] == rest[i - 1];
    }
  }

  /** What `pack_shapes` returns or raises. The kind is checked first, so an
      unknown kind raises even when nothing is requested; a request of zero
      or fewer shapes gives no sheets; otherwise a sheet that takes no shape
      at all raises, and the requested shapes are spread over full sheets. */
  function Pack(s: Shape, n: int, sheetW: real, sheetH: real, clearance: real, sqrt3: real): Result<seq<seq<Placed>>>
    requires Admissible(s, clearance, sqrt3)
  {
    match GridFor(s, clearance, sheetW, sheetH, sqrt3)
    case Err(e) => Err(e)
    case Ok(g) =>
      if n <= 0 then Ok([])
      else if |Cells(g)| == 0 then Err(Unplaceable(KindName(s)))
      else Ok(Chunks(Cells(g), n))
  }

  function Min(a: int, b: int): int
  {
    if a <= b then a else b
  }

  /** Taking one more position of a row appends that position. */
  lemma RowCellsStep(g: Grid, row: int, col: int)
    requires ValidGrid(g) && 0 <= col < ColCount(g, row)
    ensures RowCells(g, row)[..col + 1] == RowCells(g, row)[..col] + [Cell(g, row, col)]
  {
  }

  /** The column loop of `pack_shapes` for one row whose centres lie at
      height `y`: it takes the row's positions left to right while shapes
      remain to be placed, so it lays out the first `numShapes - placed0`
      positions of the row, or all of them if fewer. */
  method FillRow(g: Grid, row: int, y: real, placed0: int, numShapes: int) returns (rowPositions: seq<Placed>, placed: int)
    requires ValidGrid(g) && 0 <= row && y == g.y0 + row as real * g.dy && placed0 <= numShapes
    ensures |rowPositions| == Min(numShapes - placed0, ColCount(g, row))
    ensures rowPositions == RowCells(g, row)[..|rowPositions|]
    ensures placed == placed0 + |rowPositions|
  {
    placed := placed0;
    rowPositions := [];
    var xOffset := RowShift(g, row);
    var col := 0;
    while true
      invariant 0 <= col <= ColCount(g, row)
      invariant rowPositions == RowCells(g, row)[..col]
      invariant placed == placed0 + col <= numShapes
      decreases ColCount(g, row) - col
    {
      var x := xOffset + g.x0 + col as real * g.dx;
      StepsFit(xOffset + g.x0, g.dx, g.xMax, col);
      if x > g.xMax {
        break;
      }
      if placed < numShapes {
        assert x == Cell(g, row, col).x && y == Cell(g, row, col).y;
        RowCellsStep(g, row, col);
        rowPositions := rowPositions + [Placed(g.shape, x, y)];
        placed := placed + 1;
      } else {
        break;
      }
      col := col + 1;
    }
  }

  /** One pass over the grid for one sheet (the row loop of `pack_shapes`,
      with the column loop in `FillRow`): it takes grid positions in
      row-major order while shapes remain to be placed, so it lays out the
      first `numShapes - placed0` positions of the sheet, or all of them if
      fewer. */
  method FillSheet(g: Grid, placed0: int, numShapes: int) returns (sheetPositions: seq<Placed>, placed: int)
    requires ValidGrid(g) && placed0 < numShapes
    ensures |sheetPositions| == Min(numShapes - placed0, |Cells(g)|)
    ensures sheetPositions == Cells(g)[..|sheetPositions|]
    ensures placed == placed0 + |sheetPositions|
  {
    placed := placed0;
    sheetPositions := [];
    var row := 0;
    while true
      invariant 0 <= row <= RowCount(g)
      invariant sheetPositions == RowsBefore(g, row)
      invariant placed == placed0 + |sheetPositions| < numShapes
      decreases RowCount(g) - row
    {
      var y := g.y0 + row as real * g.dy;
      StepsFit(g.y0, g.dy, g.yMax, row);
      if y > g.yMax {
        RowsBeforeAll(g);
        break;
      }
      var rowPositions;
      rowPositions, placed := FillRow(g, row, y, placed, numShapes);
      sheetPositions := sheetPositions + rowPositions;
      PartialSheetPrefix(g, row, |rowPositions|);
      if placed >= numShapes {
        break;
      }
      assert rowPositions == RowCells(g, row);
      RowsBeforeStep(g, row);
      row := row + 1;
    }
  }

  /** A request larger than one sheet fills a whole sheet first. */
  lemma ChunksMore(cells: seq<Placed>, n: int)
    requires |cells| > 0 && n > |cells|
    ensures Chunks(cells, n) == [cells] + Chunks(cells, n - |cells|)
  {
  }

  /** A request that one sheet can hold takes a prefix of that sheet. */
  lemma ChunksLast(cells: seq<Placed>, n: int)
    requires 0 < n <= |cells|
    ensures Chunks(cells, n) == [cells[..n]]
  {
  }

  /** Once the grid is known, `Pack` depends only on the request and on the
      grid's positions. */
  lemma PackWithGrid(s: Shape, n: int, sheetW: real, sheetH: real, clearance: real, sqrt3: real, g: Grid)
    requires Admissible(s, clearance, sqrt3)
    requires GridFor(s, clearance, sheetW, sheetH, sqrt3) == Ok(g)
    ensures ValidGrid(g)
    ensures n <= 0 ==> Pack(s, n, sheetW, sheetH, clearance, sqrt3) == Ok([])
    ensures n > 0 && |Cells(g)| == 0 ==> Pack(s, n, sheetW, sheetH, clearance, sqrt3) == Err(Unplaceable(KindName(s)))
    ensures n > 0 && |Cells(g)| > 0 ==> Pack(s, n, sheetW, sheetH, clearance, sqrt3) == Ok(Chunks(Cells(g), n))
  {
  }

  /** The sheet loop of `pack_shapes` (with the row and column loops in
      `FillSheet`): sheets are filled from the same grid while shapes remain
      to be placed, and a sheet that takes no shape raises. */
  method FillSheets(g: Grid, numShapes: int, kind: string) returns (r: Result<seq<seq<Placed>>>)
    requires ValidGrid(g)
    ensures numShapes <= 0 ==> r == Ok([])
    ensures numShapes > 0 && |Cells(g)| == 0 ==> r == Err(Unplaceable(kind))
    ensures numShapes > 0 && |Cells(g)| > 0 ==> r == Ok(Chunks(Cells(g), numShapes))
  {
    var placed := 0;
    var sheets: seq<seq<Placed>> := [];
    ghost var cells := Cells(g);
    while placed < numShapes
      invariant 0 <= placed
      invariant numShapes <= 0 ==> placed == 0 && sheets == []
      invariant numShapes > 0 ==> placed < numShapes
      invariant placed > 0 ==> |cells| > 0
      invariant numShapes > 0 && |cells| > 0 ==> Chunks(cells, numShapes) == sheets + Chunks(cells, numShapes - placed)
      decreases numShapes - placed
    {
      ghost var left := numShapes - placed;
      ghost var before := sheets;
      var sheetPositions;
      sheetPositions, placed := FillSheet(g, placed, numShapes);
      if sheetPositions == [] {
        return Err(Unplaceable(kind));
      }
      sheets := sheets + [sheetPositions];
      if placed >= numShapes {
        ChunksLast(cells, left);
        break;
      }
      assert sheetPositions == cells by {
        assert cells[..|cells|] == cells;
      }
      assert numShapes > 0 && |cells| > 0;
      calc {
        Chunks(cells, numShapes);
        == before + Chunks(cells, left);
        == { ChunksMore(cells, left); }
        before + ([cells] + Chunks(cells, numShapes - placed));
        == sheets + Chunks(cells, numShapes - placed);
      }
    }
    return Ok(sheets);
  }

  /** `pack_shapes`: the pitch (and a rectangle's orientation) is chosen
      first, so an unknown kind raises before anything is placed; then the
      sheets are filled. */
  method PackShapes(s: Shape, numShapes: int, sheetW: real, sheetH: real, clearance: real, sqrt3: real)
    returns (r: Result<seq<seq<Placed>>>)
    requires Admissible(s, clearance, sqrt3)
    ensures r == Pack(s, numShapes, sheetW, sheetH, clearance, sqrt3)
  {
    var pitch := ChoosePitch(s, clearance, sheetW, sheetH, sqrt3);
    if pitch.Err? {
      return Err(pitch.error);
    }
    var g := Layout(pitch.value, sheetW, sheetH, sqrt3);
    PackWithGrid(s, numShapes, sheetW, sheetH, clearance, sqrt3, g);
    r := FillSheets(g, numShapes, KindName(s));
  }
}
