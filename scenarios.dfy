/** Worked layouts of the packer on concrete sheets. */
module Scenarios {
  import opened Shapes
  import opened Geometry
  import opened Packing
  import Area

  /** A 0.3 m square with a clearance of 0.01 m on a 1.0 m by 0.5 m sheet:
      the step is 0.31 m, the one row sits at height 0.15 m (the next would
      be at 0.46 m, above 0.5 - 0.15), and its columns are at 0.15, 0.46 and
      0.77 m (the next, 1.08 m, is beyond 0.85 m). One sheet holds three. */
  lemma SquareOnHalfSheet(sqrt3: real)
    requires sqrt3 > 0.0
    ensures Capacity(Square(0.3), 0.01, 1.0, 0.5, sqrt3) == 3
  {
    var g := GridFor(Square(0.3), 0.01, 1.0, 0.5, sqrt3).value;
    assert g == Grid(Square(0.3), 0.31, 0.31, false, 0.15, 0.85, 0.15, 0.35);
    assert RowCount(g) == 1;
    assert Steps(g.x0, g.dx, g.xMax) == 3;
    GridCapacity(g);
  }

  /** A 0.2 m by 0.1 m rectangle without clearance on a 0.5 m by 1.0 m
      sheet: turning it raises the estimate from 10 * 2 to 5 * 5, so it is
      placed 0.1 m long and 0.2 m high, but its rows stay 0.1 m apart. Nine
      rows of five fit, 45 shapes of 0.02 m² on a sheet of 0.5 m², while the
      area bound allows only 25: the rows overlap. */
  lemma TurnedRectangleOnNarrowSheet(pi: real, sqrt3: real)
    requires sqrt3 > 0.0
    ensures Estimate(0.2, 0.1, 0.0, 0.5, 1.0) == 20 && Estimate(0.1, 0.2, 0.0, 0.5, 1.0) == 25
    ensures Capacity(Rectangle(0.2, 0.1), 0.0, 0.5, 1.0, sqrt3) == 45
    ensures Area.AreaBound(0.5 * 1.0, Area.ShapeArea(Rectangle(0.2, 0.1), pi, sqrt3).value) == 25
  {
    var g := GridFor(Rectangle(0.2, 0.1), 0.0, 0.5, 1.0, sqrt3).value;
    assert g == Grid(Rectangle(0.1, 0.2), 0.1, 0.1, false, 0.05, 0.45, 0.1, 0.9);
    assert RowCount(g) == 9;
    assert Steps(g.x0, g.dx, g.xMax) == 5;
    GridCapacity(g);
  }
}
