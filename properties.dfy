/** What a call of `pack_shapes` guarantees about the sheets it returns: the
    kind is checked before anything is placed, the count is exact, no sheet
    is empty, every sheet but the last is a full grid pass, every centre
    keeps its kind's distance from the sheet's edges, the shapes of a sheet
    come in row-major order, and a rectangle is placed in the orientation
    its estimate picks. */
module PackingProperties {
  import opened Shapes
  import opened Seqs
  import opened Geometry
  import opened Packing

  /** An unknown kind raises the `ValueError` whatever the request, even when
      no shape at all is requested. */
  lemma PackUnknownRaises(s: Shape, n: int, sheetW: real, sheetH: real, clearance: real, sqrt3: real)
    requires Admissible(s, clearance, sqrt3)
    ensures Pack(s, n, sheetW, sheetH, clearance, sqrt3).Err?
      <==> s.Unknown? || (n > 0 && Capacity(s, clearance, sheetW, sheetH, sqrt3) == 0)
    ensures s.Unknown? ==> Pack(s, n, sheetW, sheetH, clearance, sqrt3) == Err(UnknownShape(s.name))
    ensures !s.Unknown? && Pack(s, n, sheetW, sheetH, clearance, sqrt3).Err? ==>
      Pack(s, n, sheetW, sheetH, clearance, sqrt3) == Err(Unplaceable(KindName(s)))
  {
  }

  /** The sheets of a successful call, as a grid pass repeated: for a positive
      request they are `Chunks` of one sheet's positions. */
  lemma PackSheets(s: Shape, n: int, sheetW: real, sheetH: real, clearance: real, sqrt3: real)
    requires Admissible(s, clearance, sqrt3)
    ensures Pack(s, n, sheetW, sheetH, clearance, sqrt3).Ok? ==> !s.Unknown?
    ensures Pack(s, n, sheetW, sheetH, clearance, sqrt3).Ok? ==>
      var g := GridFor(s, clearance, sheetW, sheetH, sqrt3).value;
      var sheets := Pack(s, n, sheetW, sheetH, clearance, sqrt3).value;
      && ValidGrid(g)
      && (n <= 0 ==> sheets == [])
      && (n > 0 ==> |Cells(g)| > 0 && sheets == Chunks(Cells(g), n))
  {
  }

  /** A successful call places exactly the requested number of shapes (none
      and no sheets for a request of zero or fewer), and no sheet it returns
      is empty. */
  lemma PackExactCount(s: Shape, n: int, sheetW: real, sheetH: real, clearance: real, sqrt3: real)
    requires Admissible(s, clearance, sqrt3)
    ensures Pack(s, n, sheetW, sheetH, clearance, sqrt3).Ok? ==>
      var sheets := Pack(s, n, sheetW, sheetH, clearance, sqrt3).value;
      && (n <= 0 ==> sheets == [])
      && (n > 0 ==> Total(sheets) == n)
      && (forall i :: 0 <= i < |sheets| ==> |sheets[i]| > 0)
  {
    PackSheets(s, n, sheetW, sheetH, clearance, sqrt3);
    if Pack(s, n, sheetW, sheetH, clearance, sqrt3).Ok? && n > 0 {
      ChunksShape(Cells(GridFor(s, clearance, sheetW, sheetH, sqrt3).value), n);
    }
  }

  /** Every sheet runs the same grid pass: each sheet but the last holds the
      full capacity of a sheet and is the same as the first, and every sheet,
      the last included, is a leading part of the first sheet. */
  lemma PackEqualSheets(s: Shape, n: int, sheetW: real, sheetH: real, clearance: real, sqrt3: real)
    requires Admissible(s, clearance, sqrt3)
    ensures Pack(s, n, sheetW, sheetH, clearance, sqrt3).Ok? ==> !s.Unknown?
    ensures Pack(s, n, sheetW, sheetH, clearance, sqrt3).Ok? ==>
      var sheets := Pack(s, n, sheetW, sheetH, clearance, sqrt3).value;
      var cap := Capacity(s, clearance, sheetW, sheetH, sqrt3);
      && (forall i :: 0 <= i < |sheets| - 1 ==> |sheets[i]| == cap && sheets[i] == sheets[0])
      && (forall i :: 0 <= i < |sheets| ==> |sheets[i]| <= cap && sheets[i] <= sheets[0])
  {
    PackSheets(s, n, sheetW, sheetH, clearance, sqrt3);
    if Pack(s, n, sheetW, sheetH, clearance, sqrt3).Ok? && n > 0 {
      var sheets: seq<seq<Placed>> := Pack(s, n, sheetW, sheetH, clearance, sqrt3).value;
      var cells := Cells(GridFor(s, clearance, sheetW, sheetH, sqrt3).value);
      assert sheets == Chunks(cells, n);
      ChunksEqual(cells, n);
    }
  }

  /** The same fact about `Chunks` alone. */
  lemma ChunksEqual(cells: seq<Placed>, n: int)
    requires |cells| > 0 && n > 0
    ensures var sheets := Chunks(cells, n);
      && (forall i :: 0 <= i < |sheets| - 1 ==> |sheets[i]| == |cells| && sheets[i] == sheets[0])
      && (forall i :: 0 <= i < |sheets| ==> |sheets[i]| <= |cells| && sheets[i] <= sheets[0])
  {
    var sheets := Chunks(cells, n);
    ChunksShape(cells, n);
    forall i | 0 <= i < |sheets|
      ensures |sheets[i]| <= |cells| && sheets[i] <= sheets[0]
    {
      assert sheets[i] <= cells;
    }
  }

  /** Place `k` of any sheet of `Chunks` holds place `k` of the grid. */
  lemma ChunksAt(cells: seq<Placed>, n: int, i: int, k: int)
    requires |cells| > 0 && n > 0
    requires 0 <= i < |Chunks(cells, n)| && 0 <= k < |Chunks(cells, n)[i]|
    ensures k < |cells| && Chunks(cells, n)[i][k] == cells[k]
  {
    ChunksShape(cells, n);
    assert Chunks(cells, n)[i] <= cells;
  }

  /** Every shape on every sheet is the shape the packer settled on (a
      rectangle possibly turned), and its centre keeps the kind's raw
      half-size from the left and right edges, its lower extent from the
      bottom edge and its upper extent from the top edge (for a triangle a
      third and two thirds of its height). */
  lemma PackWithinSheet(s: Shape, n: int, sheetW: real, sheetH: real, clearance: real, sqrt3: real)
    requires Admissible(s, clearance, sqrt3)
    ensures Pack(s, n, sheetW, sheetH, clearance, sqrt3).Ok? ==> !s.Unknown?
    ensures Pack(s, n, sheetW, sheetH, clearance, sqrt3).Ok? ==>
      var sheets := Pack(s, n, sheetW, sheetH, clearance, sqrt3).value;
      var placedShape := GridFor(s, clearance, sheetW, sheetH, sqrt3).value.shape;
      var m := MarginsOf(placedShape, sqrt3);
      forall i, k :: 0 <= i < |sheets| && 0 <= k < |sheets[i]| ==>
        && sheets[i][k].shape == placedShape
        && m.half <= sheets[i][k].x <= sheetW - m.half
        && m.below <= sheets[i][k].y <= sheetH - m.above
  {
    PackSheets(s, n, sheetW, sheetH, clearance, sqrt3);
    if Pack(s, n, sheetW, sheetH, clearance, sqrt3).Ok? && n > 0 {
      var sheets: seq<seq<Placed>> := Pack(s, n, sheetW, sheetH, clearance, sqrt3).value;
      var g := GridFor(s, clearance, sheetW, sheetH, sqrt3).value;
      ChunksShape(Cells(g), n);
      forall i, k | 0 <= i < |sheets| && 0 <= k < |sheets[i]|
        ensures sheets[i][k] == Cells(g)[k]
      {
        assert sheets[i] <= Cells(g);
      }
      forall i, k | 0 <= i < |sheets| && 0 <= k < |sheets[i]|
        ensures var p := sheets[i][k];
          p.shape == g.shape && g.x0 <= p.x <= g.xMax && g.y0 <= p.y <= g.yMax
      {
        CellsWithin(g, k);
      }
    }
  }

  /** Row-major order on every sheet: the shape at place `k` of a sheet is the
      grid position (row, col) that comes `k`-th when the rows are taken
      bottom to top and each row left to right from column 0; its centre is
      `y = y-start + row * dy` and `x = shift + x-start + col * dx`, the shift
      being half a step on odd circle rows and zero everywhere else. A later
      shape lies in a higher row, or further right in the same row. */
  lemma PackRowMajor(s: Shape, n: int, sheetW: real, sheetH: real, clearance: real, sqrt3: real, i: int, k: int)
    requires Admissible(s, clearance, sqrt3)
    ensures Placement(s, n, sheetW, sheetH, clearance, sqrt3, i, k) ==> !s.Unknown?
    ensures Placement(s, n, sheetW, sheetH, clearance, sqrt3, i, k) ==>
      var g := GridFor(s, clearance, sheetW, sheetH, sqrt3).value;
      var p := Pack(s, n, sheetW, sheetH, clearance, sqrt3).value[i][k];
      exists row, col ::
        && 0 <= row < RowCount(g) && 0 <= col < ColCount(g, row)
        && k == Start(Rows(g), row) + col
        && p == Cell(g, row, col)
    ensures Placement(s, n, sheetW, sheetH, clearance, sqrt3, i, k) ==>
      var sheets := Pack(s, n, sheetW, sheetH, clearance, sqrt3).value;
      forall j :: k < j < |sheets[i]| ==>
        sheets[i][k].y < sheets[i][j].y || (sheets[i][k].y == sheets[i][j].y && sheets[i][k].x < sheets[i][j].x)
  {
    PackSheets(s, n, sheetW, sheetH, clearance, sqrt3);
    if Placement(s, n, sheetW, sheetH, clearance, sqrt3, i, k) {
      var g := GridFor(s, clearance, sheetW, sheetH, sqrt3).value;
      var sheets: seq<seq<Placed>> := Pack(s, n, sheetW, sheetH, clearance, sqrt3).value;
      assert sheets == Chunks(Cells(g), n);
      SheetRowMajor(g, n, i, k);
      var row, col :| 0 <= row < RowCount(g) && 0 <= col < ColCount(g, row)
        && k == Start(Rows(g), row) + col && sheets[i][k] == Cell(g, row, col);
    }
  }

  /** The call succeeds and its sheet `i` has a record at place `k`. */
  predicate Placement(s: Shape, n: int, sheetW: real, sheetH: real, clearance: real, sqrt3: real, i: int, k: int)
    requires Admissible(s, clearance, sqrt3)
  {
    var r := Pack(s, n, sheetW, sheetH, clearance, sqrt3);
    r.Ok? && 0 <= i < |r.value| && 0 <= k < |r.value[i]|
  }

  /** The same facts for sheet `i` of `Chunks` over one grid. */
  lemma SheetRowMajor(g: Grid, n: int, i: int, k: int)
    requires ValidGrid(g) && |Cells(g)| > 0 && n > 0
    requires 0 <= i < |Chunks(Cells(g), n)| && 0 <= k < |Chunks(Cells(g), n)[i]|
    ensures var p := Chunks(Cells(g), n)[i][k];
      exists row, col ::
        && 0 <= row < RowCount(g) && 0 <= col < ColCount(g, row)
        && k == Start(Rows(g), row) + col
        && p == Cell(g, row, col)
    ensures var sheet := Chunks(Cells(g), n)[i];
      forall j :: k < j < |sheet| ==>
        sheet[k].y < sheet[j].y || (sheet[k].y == sheet[j].y && sheet[k].x < sheet[j].x)
  {
    var cells := Cells(g);
    var sheet := Chunks(cells, n)[i];
    ChunksAt(cells, n, i, k);
    CellsWithin(g, k);
    forall j: int | k < j < |sheet|
      ensures sheet[k].y < sheet[j].y || (sheet[k].y == sheet[j].y && sheet[k].x < sheet[j].x)
    {
      ChunksAt(cells, n, i, j);
      CellsOrdered(g, k, j);
    }
  }

  /** A rectangle is placed turned exactly when the turned estimate is
      strictly larger (a tie keeps the given orientation), and then every
      record on every sheet carries the exchanged length and width. */
  lemma PackRectangleRecords(l: real, w: real, n: int, sheetW: real, sheetH: real, clearance: real, sqrt3: real)
    requires Admissible(Rectangle(l, w), clearance, sqrt3)
    ensures Pack(Rectangle(l, w), n, sheetW, sheetH, clearance, sqrt3).Ok? ==>
      var sheets := Pack(Rectangle(l, w), n, sheetW, sheetH, clearance, sqrt3).value;
      var turned := Estimate(l, w, clearance, sheetW, sheetH) < Estimate(w, l, clearance, sheetW, sheetH);
      forall i, k :: 0 <= i < |sheets| && 0 <= k < |sheets[i]| ==>
        sheets[i][k].shape == (if turned then Rectangle(w, l) else Rectangle(l, w))
  {
    PackWithinSheet(Rectangle(l, w), n, sheetW, sheetH, clearance, sqrt3);
    RectangleOrientation(l, w, clearance, sheetW, sheetH, sqrt3);
  }

  /** As written, a turned rectangle keeps the vertical step `w + clearance`
      of the untouched orientation while its placed height is `l`. So the
      gap between neighbouring rows is smaller than the clearance exactly
      when the rectangle is longer than wide, and the rows overlap exactly
      when the length exceeds width plus clearance. */
  lemma TurnedRectangleRows(l: real, w: real, sheetW: real, sheetH: real, clearance: real, sqrt3: real)
    requires Admissible(Rectangle(l, w), clearance, sqrt3)
    ensures Estimate(l, w, clearance, sheetW, sheetH) < Estimate(w, l, clearance, sheetW, sheetH) ==>
      var g := GridFor(Rectangle(l, w), clearance, sheetW, sheetH, sqrt3).value;
      && g.shape == Rectangle(w, l)
      && (g.dy - g.shape.w < clearance <==> w < l)
      && (g.dy < g.shape.w <==> w + clearance < l)
  {
    RectangleOrientation(l, w, clearance, sheetW, sheetH, sqrt3);
  }
}
