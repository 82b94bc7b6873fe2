/** Area accounting: the area of one shape, the sheet area left over after
    placing some shapes, and the area-based upper bound on the count. The
    constants pi and sqrt(3) are parameters, assumed only to be positive. */
module Area {
  import opened Shapes
  import opened Arith

  /** `calculate_shape_area`: the area of one shape of the given kind. */
  function ShapeArea(s: Shape, pi: real, sqrt3: real): (area: Result<real>)
    ensures area.Err? <==> s.Unknown?
    ensures area.Err? ==> area.error == UnknownShape(s.name)
  {
    match s
    case Circle(r) => Ok(pi * r * r)
    case Square(side) => Ok(side * side)
    case Rectangle(l, w) => Ok(l * w)
    case Triangle(a) =>
      var h := a * sqrt3 / 2.0;
      Ok((a * h) / 2.0)
    case SemiCircle(r) => Ok((pi * r * r) / 2.0)
    case Unknown(name) => Err(UnknownShape(name))
  }

  /** Every known shape with positive parameters has a positive area. */
  lemma ShapeAreaPositive(s: Shape, pi: real, sqrt3: real)
    requires !s.Unknown? && ParamsPositive(s) && pi > 0.0 && sqrt3 > 0.0
    ensures ShapeArea(s, pi, sqrt3).value > 0.0
  {
    var area := ShapeArea(s, pi, sqrt3).value;
    match s
    case Circle(r) =>
      calc { area; == (pi * r) * r; > { MulPos(pi, r); MulPos(pi * r, r); } 0.0; }
    case Square(side) =>
      calc { area; == side * side; > { MulPos(side, side); } 0.0; }
    case Rectangle(l, w) =>
      calc { area; == l * w; > { MulPos(l, w); } 0.0; }
    case Triangle(a) =>
      var h := a * sqrt3 / 2.0;
      calc { area; == (a * h) / 2.0; > { MulPos(a, sqrt3); MulPos(a, h); } 0.0; }
    case SemiCircle(r) =>
      calc { area; == ((pi * r) * r) / 2.0; > { MulPos(pi, r); MulPos(pi * r, r); } 0.0; }
  }

  /** Swapping a rectangle's length and width, as the packer may do when it
      picks an orientation, leaves its area unchanged. */
  lemma RectangleAreaSwap(l: real, w: real, pi: real, sqrt3: real)
    ensures ShapeArea(Rectangle(l, w), pi, sqrt3).value == ShapeArea(Rectangle(w, l), pi, sqrt3).value
  {
    assert l * w == w * l;
  }

  /** A semicircle has half the area of the circle of the same radius. */
  lemma SemiCircleIsHalfCircle(r: real, pi: real, sqrt3: real)
    ensures ShapeArea(SemiCircle(r), pi, sqrt3).value * 2.0 == ShapeArea(Circle(r), pi, sqrt3).value
  {
  }

  /** `calculate_unused_area`: the sheet's area minus the area of `count`
      shapes. The shapes' own area is used, without the clearance around them. */
  function UnusedArea(s: Shape, sheetW: real, sheetH: real, count: int, pi: real, sqrt3: real): (r: Result<real>)
    ensures r.Err? <==> s.Unknown?
    ensures r.Ok? ==> r.value + ShapeArea(s, pi, sqrt3).value * count as real == sheetW * sheetH
  {
    match ShapeArea(s, pi, sqrt3)
    case Err(e) => Err(e)
    case Ok(a) => Ok(sheetW * sheetH - a * count as real)
  }

  /** With nothing placed, the whole sheet is unused. */
  lemma UnusedAreaOfNothing(s: Shape, sheetW: real, sheetH: real, pi: real, sqrt3: real)
    requires !s.Unknown?
    ensures UnusedArea(s, sheetW, sheetH, 0, pi, sqrt3).Ok?
    ensures UnusedArea(s, sheetW, sheetH, 0, pi, sqrt3).value == sheetW * sheetH
  {
  }

  /** Each further shape placed strictly reduces the unused area. */
  lemma UnusedAreaDecreasing(s: Shape, sheetW: real, sheetH: real, m: int, n: int, pi: real, sqrt3: real)
    requires !s.Unknown? && ParamsPositive(s) && pi > 0.0 && sqrt3 > 0.0
    requires m < n
    ensures UnusedArea(s, sheetW, sheetH, n, pi, sqrt3).value < UnusedArea(s, sheetW, sheetH, m, pi, sqrt3).value
  {
    var a := ShapeArea(s, pi, sqrt3).value;
    ShapeAreaPositive(s, pi, sqrt3);
    assert a * n as real - a * m as real == a * (n - m) as real;
    assert a * (n - m) as real > 0.0;
  }

  /** The "theoretical maximum" of the results page: `int(sheet_area //
      shape_area)`, i.e. the floor of the quotient. For a positive shape area
      it is the largest count whose total area does not exceed the sheet's. */
  function AreaBound(sheetArea: real, shapeArea: real): (r: int)
    requires shapeArea != 0.0
    ensures r as real <= sheetArea / shapeArea < r as real + 1.0
    ensures shapeArea > 0.0 ==> r as real * shapeArea <= sheetArea < (r + 1) as real * shapeArea
  {
    var q := sheetArea / shapeArea;
    var f := q.Floor;
    assert shapeArea > 0.0 ==> f as real * shapeArea <= sheetArea by {
      if shapeArea > 0.0 {
        calc {
          f as real * shapeArea;
          <= { MulMono(f as real, q, shapeArea); }
          q * shapeArea;
          == { DivMul(sheetArea, shapeArea); }
          sheetArea;
        }
      }
    }
    assert shapeArea > 0.0 ==> sheetArea < (f + 1) as real * shapeArea by {
      if shapeArea > 0.0 {
        calc {
          sheetArea;
          == { DivMul(sheetArea, shapeArea); }
          q * shapeArea;
          < { MulStrict(q, (f + 1) as real, shapeArea); }
          (f + 1) as real * shapeArea;
        }
      }
    }
    f
  }
}
