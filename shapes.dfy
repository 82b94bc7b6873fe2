/** The shapes the nesting calculator knows about, the errors it raises, and
    the one piece of Python numeric behaviour the packer relies on: `int(x)`
    of a float, which truncates toward zero. */
module Shapes {

  /** A shape kind together with its parameters. The source passes a type
      string and a parameter dictionary; here each known kind carries exactly
      the parameters the packer reads ('r', 'L', 'l'/'w', 'a', 'r'), and
      `Unknown` stands for any type string outside the five supported ones. */
  datatype Shape =
    | Circle(r: real)
    | Square(side: real)
    | Rectangle(l: real, w: real)
    | Triangle(a: real)
    | SemiCircle(r: real)
    | Unknown(name: string)

  /** The errors the core raises: a `ValueError` for an unknown type string and
      a `RuntimeError` when not a single shape fits on a sheet. */
  datatype Error =
    | UnknownShape(kind: string)
    | Unplaceable(kind: string)

  datatype Result<T> = Ok(value: T) | Err(error: Error)

  /** The type string the source keys every branch on. */
  function KindName(s: Shape): string
  {
    match s
    case Circle(_) => "circle"
    case Square(_) => "square"
    case Rectangle(_, _) => "rectangle"
    case Triangle(_) => "triangle"
    case SemiCircle(_) => "semi-circle"
    case Unknown(name) => name
  }

  /** Every parameter of a known kind is strictly positive (the input form
      never offers less than 0.01 m); an unknown kind has no parameters. */
  predicate ParamsPositive(s: Shape)
  {
    match s
    case Circle(r) => r > 0.0
    case Square(side) => side > 0.0
    case Rectangle(l, w) => l > 0.0 && w > 0.0
    case Triangle(a) => a > 0.0
    case SemiCircle(r) => r > 0.0
    case Unknown(_) => true
  }

  /** Python's `int(x)` for a float `x`: the integer part, rounded toward zero. */
  function Trunc(x: real): (r: int)
    ensures 0.0 <= x ==> r as real <= x < r as real + 1.0
    ensures x < 0.0 ==> r as real - 1.0 < x <= r as real
  {
    if x >= 0.0 then x.Floor else -((-x).Floor)
  }
}
