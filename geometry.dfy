/** The geometry behind `pack_shapes`: the grid pitch chosen for each kind
    (with the rectangle's orientation choice), the margins that keep a shape
    on the sheet, and the row-major enumeration of every grid position that
    fits on one sheet. */
module Geometry {
  import opened Shapes
  import opened Arith
  import opened Seqs

  /** One placed shape, as the packer records it: the kind with its
      (possibly turned) parameters and the position of its centre. */
  datatype Placed = Placed(shape: Shape, x: real, y: real)

  /** The result of the first stage: the shape actually placed (a rectangle
      may come back with length and width exchanged) and the two steps. */
  datatype Pitch = Pitch(shape: Shape, dx: real, dy: real)

  /** The rows-times-columns estimate used to pick a rectangle's orientation,
      for a rectangle lying with side `along` parallel to the sheet's width. */
  function Estimate(along: real, across: real, clearance: real, sheetW: real, sheetH: real): int
    requires along + clearance > 0.0 && across + clearance > 0.0
  {
    Trunc(sheetH / (across + clearance)) * Trunc(sheetW / (along + clearance))
  }

  /** The first stage of `pack_shapes`: the horizontal and vertical step for
      each kind, which for a rectangle also decides its orientation. In the
      turned case the vertical step stays the untouched `w + clearance`. */
  function ChoosePitch(s: Shape, clearance: real, sheetW: real, sheetH: real, sqrt3: real): (r: Result<Pitch>)
    requires ParamsPositive(s) && clearance >= 0.0 && sqrt3 > 0.0
    ensures r.Err? <==> s.Unknown?
    ensures r.Err? ==> r.error == UnknownShape(s.name)
    ensures r.Ok? ==> r.value.dx > 0.0 && r.value.dy > 0.0
    ensures r.Ok? ==> KindName(r.value.shape) == KindName(s) && ParamsPositive(r.value.shape)
    ensures r.Ok? && !s.Rectangle? ==> r.value.shape == s
  {
    match s
    case Circle(r) =>
      var d := 2.0 * r + clearance;
      MulPos(d, sqrt3);
      Ok(Pitch(s, d, d * sqrt3 / 2.0))
    case Square(side) =>
      var d := side + clearance;
      Ok(Pitch(s, d, d))
    case Rectangle(l, w) =>
      var dx1, dy1 := l + clearance, w + clearance;
      var dx2, dy2 := w + clearance, l + clearance;
      var rows1, cols1 := Trunc(sheetH / dy1), Trunc(sheetW / dx1);
      var rows2, cols2 := Trunc(sheetH / dy2), Trunc(sheetW / dx2);
      if rows1 * cols1 >= rows2 * cols2 then Ok(Pitch(s, dx1, dy1))
      else Ok(Pitch(Rectangle(w, l), dx2, dy1))
    case Triangle(a) =>
      var h := a * sqrt3 / 2.0;
      MulPos(a, sqrt3);
      Ok(Pitch(s, a + clearance, h + clearance))
    case SemiCircle(r) =>
      Ok(Pitch(s, 2.0 * r + clearance, r + clearance))
    case Unknown(name) =>
      Err(UnknownShape(name))
  }

  /** The rectangle keeps its orientation unless turning it gives a strictly
      larger estimate, so the orientation it is placed in never has the
      smaller estimate, and a tie keeps the given one. Either way the step
      across the sheet is the placed length plus the clearance, while the step
      down the sheet is the ORIGINAL width plus the clearance. */
  lemma RectangleOrientation(l: real, w: real, clearance: real, sheetW: real, sheetH: real, sqrt3: real)
    requires l > 0.0 && w > 0.0 && clearance >= 0.0 && sqrt3 > 0.0
    ensures var p := ChoosePitch(Rectangle(l, w), clearance, sheetW, sheetH, sqrt3).value;
      var turned := Estimate(l, w, clearance, sheetW, sheetH) < Estimate(w, l, clearance, sheetW, sheetH);
      && p.shape == (if turned then Rectangle(w, l) else Rectangle(l, w))
      && Estimate(p.shape.l, p.shape.w, clearance, sheetW, sheetH) >= Estimate(p.shape.w, p.shape.l, clearance, sheetW, sheetH)
      && p.dx == p.shape.l + clearance
      && p.dy == w + clearance
  {
  }

  /** How far the centre of a placed shape must stay from the sheet's edges:
      `half` from the left and right edge, `below` from the bottom edge and
      `above` from the top edge. */
  datatype Margins = Margins(half: real, below: real, above: real)

  /** The start offsets and far-edge allowances `pack_shapes` uses per kind.
      They are the raw half-sizes, without clearance. A triangle is placed by
      its centroid, which lies a third of its height above its base. */
  function MarginsOf(s: Shape, sqrt3: real): (m: Margins)
    requires !s.Unknown?
    ensures ParamsPositive(s) && sqrt3 > 0.0 ==> m.half > 0.0 && m.below > 0.0 && m.above > 0.0
    ensures s.Triangle? ==> m.below + m.above == s.a * sqrt3 / 2.0 && m.above == 2.0 * m.below
    ensures !s.Triangle? ==> m.below == m.above
  {
    match s
    case Circle(r) => Margins(r, r, r)
    case Square(side) => Margins(side / 2.0, side / 2.0, side / 2.0)
    case Rectangle(l, w) => Margins(l / 2.0, w / 2.0, w / 2.0)
    case Triangle(a) =>
      var h := a * sqrt3 / 2.0;
      if a > 0.0 && sqrt3 > 0.0 then MulPos(a, sqrt3); Margins(a / 2.0, h / 3.0, 2.0 * h / 3.0)
      else Margins(a / 2.0, h / 3.0, 2.0 * h / 3.0)
    case SemiCircle(r) => Margins(r, r, r)
  }

  /** The grid one sheet is filled from: the shape placed, the two steps,
      whether odd rows are shifted by half a step, and the least and greatest
      centre coordinates along each axis. */
  datatype Grid = Grid(shape: Shape, dx: real, dy: real, stagger: bool,
                       x0: real, xMax: real, y0: real, yMax: real)

  predicate ValidGrid(g: Grid)
  {
    g.dx > 0.0 && g.dy > 0.0
  }

  /** The per-row and per-column computations of `pack_shapes` for a sheet of
      the given size: rows start at the kind's lower margin, columns at its
      half width, and only circles shift odd rows. */
  function Layout(p: Pitch, sheetW: real, sheetH: real, sqrt3: real): Grid
    requires !p.shape.Unknown?
  {
    var m := MarginsOf(p.shape, sqrt3);
    Grid(p.shape, p.dx, p.dy, p.shape.Circle?, m.half, sheetW - m.half, m.below, sheetH - m.above)
  }

  /** The number of points `start + k * step` (k = 0, 1, ...) that do not
      exceed `limit`. */
  function Steps(start: real, step: real, limit: real): nat
    requires step > 0.0
  {
    if start > limit then 0 else ((limit - start) / step).Floor + 1
  }

  /** `Steps` counts exactly the points up to the limit: the last point
      counted does not exceed it and the next one does. */
  lemma StepsBounds(start: real, step: real, limit: real)
    requires step > 0.0
    ensures var k := Steps(start, step, limit);
      && (k == 0 <==> start > limit)
      && (k > 0 ==> start + (k - 1) as real * step <= limit < start + k as real * step)
  {
    if start <= limit {
      var q := (limit - start) / step;
      var f := q.Floor;
      calc {
        f as real * step;
        <= { MulMono(f as real, q, step); }
        q * step;
        == { DivMul(limit - start, step); }
        limit - start;
      }
      calc {
        limit - start;
        == { DivMul(limit - start, step); }
        q * step;
        < { MulStrict(q, (f + 1) as real, step); }
        (f + 1) as real * step;
      }
    }
  }

  /** A point is counted by `Steps` exactly when it does not exceed the limit. */
  lemma StepsFit(start: real, step: real, limit: real, i: int)
    requires step > 0.0 && i >= 0
    ensures i < Steps(start, step, limit) <==> start + i as real * step <= limit
  {
    var k := Steps(start, step, limit);
    StepsBounds(start, step, limit);
    if i < k {
      MulMono(i as real, (k - 1) as real, step);
    } else if k > 0 {
      calc {
        limit;
        < start + k as real * step;
        <= { MulMono(k as real, i as real, step); }
        start + i as real * step;
      }
    } else {
      MulMono(0.0, i as real, step);
    }
  }

  /** The horizontal shift of a row: half a step on odd rows of circles. */
  function RowShift(g: Grid, row: int): real
  {
    if g.stagger && row % 2 == 1 then g.dx / 2.0 else 0.0
  }

  function RowCount(g: Grid): nat
    requires ValidGrid(g)
  {
    Steps(g.y0, g.dy, g.yMax)
  }

  function ColCount(g: Grid, row: int): nat
    requires ValidGrid(g)
  {
    Steps(RowShift(g, row) + g.x0, g.dx, g.xMax)
  }

  /** The shape at grid position (row, col). */
  function Cell(g: Grid, row: int, col: int): Placed
  {
    Placed(g.shape, RowShift(g, row) + g.x0 + col as real * g.dx, g.y0 + row as real * g.dy)
  }

  /** The shapes of one row, left to right. */
  function RowCells(g: Grid, row: int): seq<Placed>
    requires ValidGrid(g)
  {
    seq(ColCount(g, row), col => Cell(g, row, col))
  }

  /** The rows of one sheet, bottom row first. */
  function Rows(g: Grid): (rows: seq<seq<Placed>>)
    requires ValidGrid(g)
  {
    seq(RowCount(g), row => RowCells(g, row))
  }

  /** Every grid position that fits on one sheet, in row-major order. */
  function Cells(g: Grid): seq<Placed>
    requires ValidGrid(g)
  {
    Concat(Rows(g))
  }

  /** The shapes of the rows before `row`. */
  function RowsBefore(g: Grid, row: int): seq<Placed>
    requires ValidGrid(g) && 0 <= row <= RowCount(g)
  {
    Concat(Rows(g)[..row])
  }

  /** Finishing a row appends it to the rows before it; all rows together
      are the whole sheet. */
  lemma RowsBeforeStep(g: Grid, row: int)
    requires ValidGrid(g) && 0 <= row < RowCount(g)
    ensures RowsBefore(g, row + 1) == RowsBefore(g, row) + RowCells(g, row)
  {
    ConcatStep(Rows(g), row);
  }

  lemma RowsBeforeAll(g: Grid)
    requires ValidGrid(g)
    ensures RowsBefore(g, RowCount(g)) == Cells(g)
  {
    assert Rows(g)[..RowCount(g)] == Rows(g);
  }

  /** The shapes laid out so far on a sheet, up to column `col` of row `row`,
      are a prefix of the full sheet. */
  lemma PartialSheetPrefix(g: Grid, row: int, col: int)
    requires ValidGrid(g) && 0 <= row < RowCount(g) && 0 <= col <= ColCount(g, row)
    ensures RowsBefore(g, row) + RowCells(g, row)[..col] <= Cells(g)
  {
    RowsBeforeStep(g, row);
    ConcatPrefix(Rows(g), row + 1, RowCount(g));
    RowsBeforeAll(g);
    var here := RowCells(g, row);
    assert here == here[..col] + here[col..];
  }

  /** Position (row, col) of the grid sits right after all earlier rows, and
      holds the column `col` of row `row`. */
  lemma RowMajorIndex(g: Grid, row: int, col: int)
    requires ValidGrid(g) && 0 <= row < RowCount(g) && 0 <= col < ColCount(g, row)
    ensures Start(Rows(g), row) + col < |Cells(g)|
    ensures Cells(g)[Start(Rows(g), row) + col] == Cell(g, row, col)
  {
    var rows := Rows(g);
    ConcatIndex(rows, row, col);
    assert rows[row][col] == Cell(g, row, col);
  }

  /** A grid position counted in the sheet lies between the least and the
      greatest centre coordinate on both axes. */
  lemma CellWithin(g: Grid, row: int, col: int)
    requires ValidGrid(g) && 0 <= row < RowCount(g) && 0 <= col < ColCount(g, row)
    ensures var p := Cell(g, row, col);
      p.shape == g.shape && g.x0 <= p.x <= g.xMax && g.y0 <= p.y <= g.yMax
  {
    StepsFit(g.y0, g.dy, g.yMax, row);
    StepsFit(RowShift(g, row) + g.x0, g.dx, g.xMax, col);
    MulMono(0.0, row as real, g.dy);
    MulMono(0.0, col as real, g.dx);
  }

  /** Every shape on a full sheet is the shape at a grid position that fits,
      at the place row-major order gives it, so it lies within the grid's
      coordinate bounds. */
  lemma CellsWithin(g: Grid, i: int)
    requires ValidGrid(g) && 0 <= i < |Cells(g)|
    ensures exists row, col ::
      0 <= row < RowCount(g) && 0 <= col < ColCount(g, row) &&
      i == Start(Rows(g), row) + col && Cells(g)[i] == Cell(g, row, col)
    ensures var p := Cells(g)[i];
      p.shape == g.shape && g.x0 <= p.x <= g.xMax && g.y0 <= p.y <= g.yMax
  {
    var rows := Rows(g);
    ConcatCover(rows, i);
    var row, col :| 0 <= row < |rows| && 0 <= col < |rows[row]| && i == Start(rows, row) + col && Cells(g)[i] == rows[row][col];
    assert rows[row][col] == Cell(g, row, col);
    CellWithin(g, row, col);
  }

  /** Row-major order on the sheet: a later shape lies in a higher row, or in
      the same row further to the right. */
  lemma CellsOrdered(g: Grid, i: int, j: int)
    requires ValidGrid(g) && 0 <= i < j < |Cells(g)|
    ensures var p, q := Cells(g)[i], Cells(g)[j];
      p.y < q.y || (p.y == q.y && p.x < q.x)
  {
    var rows := Rows(g);
    CellsWithin(g, i);
    var r1, c1 :| 0 <= r1 < RowCount(g) && 0 <= c1 < ColCount(g, r1) && i == Start(rows, r1) + c1 && Cells(g)[i] == Cell(g, r1, c1);
    CellsWithin(g, j);
    var r2, c2 :| 0 <= r2 < RowCount(g) && 0 <= c2 < ColCount(g, r2) && j == Start(rows, r2) + c2 && Cells(g)[j] == Cell(g, r2, c2);
    ConcatOrder(rows, r1, c1, r2, c2);
    CellOrder(g, r1, c1, r2, c2);
  }

  /** Grid positions in (row, column) order have their centres in row-major
      order. */
  lemma CellOrder(g: Grid, r1: int, c1: int, r2: int, c2: int)
    requires ValidGrid(g) && (r1 < r2 || (r1 == r2 && c1 < c2))
    ensures var p, q := Cell(g, r1, c1), Cell(g, r2, c2);
      p.y < q.y || (p.y == q.y && p.x < q.x)
  {
    if r1 < r2 {
      calc {
        Cell(g, r1, c1).y;
        == g.y0 + r1 as real * g.dy;
        < { MulStrict(r1 as real, r2 as real, g.dy); }
        g.y0 + r2 as real * g.dy;
        == Cell(g, r2, c2).y;
      }
    } else {
      calc {
        Cell(g, r1, c1).x;
        == RowShift(g, r1) + g.x0 + c1 as real * g.dx;
        < { MulStrict(c1 as real, c2 as real, g.dx); }
        RowShift(g, r2) + g.x0 + c2 as real * g.dx;
        == Cell(g, r2, c2).x;
      }
    }
  }

  /** Without shifted rows every row takes the same number of columns, so a
      sheet holds rows times columns shapes. */
  lemma GridCapacity(g: Grid)
    requires ValidGrid(g) && !g.stagger
    ensures |Cells(g)| == RowCount(g) * Steps(g.x0, g.dx, g.xMax)
  {
    ConcatUniform(Rows(g), Steps(g.x0, g.dx, g.xMax));
  }
}
