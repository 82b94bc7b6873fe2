# Nesting calculator: the grid packer, in Dafny

This project models the core of a small nesting calculator. The calculator
estimates how many copies of one shape fit on a rectangular sheet when a
uniform clearance is kept between shapes. The shape is a circle, square,
rectangle, equilateral triangle or semicircle. The core has three parts:

- `pack_shapes` lays shapes out on a row/column grid and opens further
  sheets until the requested number is placed. It works in three stages:
  - it picks a grid pitch per kind;
  - for a rectangle, it chooses between two orientations;
  - it fills sheets row by row.
- `calculate_shape_area` and `calculate_unused_area` do the area
  accounting.
- The results page computes an area-based upper bound,
  `int(sheet_area // shape_area)`.

Modules, one per component:

- `Shapes` (`shapes.dfy`): the `Shape` datatype, the error datatype and the
  `Result` wrapper. A shape is a kind with its parameters. `Unknown` carries
  any other type string, so the `ValueError` branch stays visible. This
  module also models Python's `int()` of a float as truncation toward zero.
- `Geometry` (`geometry.dfy`): the pitch and orientation stage
  (`ChoosePitch`) and the per-kind start offsets and far-edge allowances
  (`MarginsOf`). A `Grid` is one sheet's grid pass, and `Cells` lists its
  positions in row-major order. The lemmas say where those positions lie
  and in what order.
- `Packing` (`packing.dfy`): `Pack` is the function that specifies what
  `pack_shapes` returns or raises. `PackShapes` is the imperative version,
  with the source's loops over sheets, rows and columns. For size, these
  loops are split into three methods: `FillSheets` (sheets), `FillSheet`
  (rows) and `FillRow` (columns). Each method's `ensures` ties its result to
  `Pack` or to the grid.
- `PackingProperties` (`properties.dfy`): what a successful call
  guarantees. These lemmas cover:
  - the exact count, and that no sheet is empty;
  - that every sheet but the last is full;
  - coordinate bounds per kind and row-major order;
  - the rectangle orientation carried by every record;
  - the unknown-kind error.
- `Area` (`area.dfy`): shape area, unused area and the area bound.
- `Scenarios` (`scenarios.dfy`): two worked layouts on concrete sheets.
- `Seqs` and `Arith`: helper lemmas about sequence concatenation and real
  multiplication.

`math.sqrt(3)` and `math.pi` are parameters `sqrt3` and `pi`. The model
assumes only that they are positive, and all arithmetic is on exact reals.

Behaviour kept as the code has it:

- When the rectangle is turned, the code sets `dx, dy = dx2, dy1`. The
  vertical step therefore stays `w + clearance`, while the placed height is
  now `l`. `TurnedRectangleRows` states the effect: the gap between rows
  falls below the clearance exactly when `l > w`, and the rows overlap
  exactly when `l > w + clearance`.
  `Scenarios.TurnedRectangleOnNarrowSheet` gives a concrete case, a
  0.2 × 0.1 rectangle on a 0.5 × 1.0 sheet. There, one sheet takes 45
  shapes although the area bound is 25. So the claim that the area bound
  never falls below the grid's per-sheet count does not hold for the code as
  written.
- The first row and first column start at the raw half-size of the shape:
  `r`, `L/2`, `w/2`, `a/2`, and `h/3` for the triangle. Clearance is not
  included. The triangle's far-edge allowance is `2h/3`.
- Only odd rows of circles are shifted, by half a step.
- The kind is checked before the sheet loop. So an unknown kind raises even
  when zero shapes are requested.

## Model

| member | source | states |
|---|---|---|
| `Shapes.Trunc` | main.py:50-53 | `int(x)` of a float: for `x ≥ 0` the largest integer not above `x`, for `x < 0` the smallest integer not below it (rounding toward zero) |
| `Geometry.ChoosePitch` | main.py:33-71 | errors exactly for an unknown kind, with that kind's name; otherwise both steps are positive, the kind is kept with positive parameters, and only a rectangle may change its parameters |
| `Geometry.RectangleOrientation` | main.py:43-60 | the rectangle is turned iff the turned rows×columns estimate is strictly larger (ties keep it); the orientation placed never has the smaller estimate; `dx` is the placed length plus clearance; `dy` is always the original `w + clearance` |
| `Geometry.MarginsOf` | main.py:79-123 | start offsets and edge allowances are positive for positive parameters; a triangle's lower and upper allowances are `h/3` and `2h/3` (they sum to its height, the upper is twice the lower); every other kind is symmetric vertically |
| `Geometry.StepsFit` | main.py:80-82 | row (and column) `i` is taken iff its coordinate `start + i·step` does not exceed the far-edge limit, which is exactly the loop's break test |
| `Geometry.CellsWithin` | main.py:79-126 | every grid position on a sheet is some (row, col) that passes both bound checks, placed after all earlier rows, and its centre lies between the start offset and the far-edge limit on both axes |
| `Geometry.CellsOrdered` | main.py:76-142 | positions come in row-major order: a later one is in a higher row, or in the same row further right |
| `Geometry.GridCapacity` | main.py:84-123 | without staggered rows (every kind but the circle) a sheet holds rows × columns shapes |
| `Packing.GridFor` | main.py:33-123 | the grid of one sheet: an error iff the kind is unknown; otherwise positive steps, the same kind, and rows staggered iff the kind is a circle |
| `Packing.ChunksShape` | main.py:74-150 | spreading `n` shapes over repeated grid passes gives a non-empty list of sheets holding `n` shapes together; every sheet is non-empty and a leading part of the grid pass, and every sheet but the last is the full grid pass |
| `Packing.FillRow` | main.py:106-138 | the column loop takes the row's positions left to right while shapes remain: exactly `min(remaining, columns)` records, equal to the row's first positions, and the counter grows by that many |
| `Packing.FillSheet` | main.py:75-142 | the row loop lays out exactly `min(remaining, capacity)` records, equal to the first positions of the grid pass in row-major order, and the counter grows by that many |
| `Packing.FillSheets` | main.py:74-150 | the sheet loop returns no sheets for a request ≤ 0, raises the empty-sheet error iff a sheet holds nothing, and otherwise returns the requested shapes spread over full sheets |
| `Packing.PackShapes` | main.py:22-152 | the whole of `pack_shapes` computes exactly `Pack`: the unknown-kind error first, then `[]` for a request ≤ 0, the empty-sheet error, or the filled sheets |
| `PackingProperties.PackUnknownRaises` | main.py:70-71 | the call fails iff the kind is unknown or a positive request meets a zero-capacity sheet; an unknown kind gives the `ValueError` even for a request ≤ 0; the other failure is the empty-sheet error |
| `PackingProperties.PackSheets` | main.py:144-152 | a successful call returns `[]` for a request ≤ 0, and otherwise repeated grid passes of a sheet with positive capacity |
| `PackingProperties.PackExactCount` | main.py:128-150 | on return the sheets hold exactly the requested number of shapes (and are `[]` for a request ≤ 0), and no sheet is empty |
| `PackingProperties.PackEqualSheets` | main.py:75-142 | every sheet but the last holds the full capacity and equals the first; every sheet, the last included, holds at most the capacity and is a leading part of the first |
| `PackingProperties.ChunksEqual` | main.py:74-146 | the same statement for the repeated grid passes alone |
| `PackingProperties.ChunksAt` | main.py:128-135 | place `k` of any sheet holds grid position `k` |
| `PackingProperties.PackWithinSheet` | main.py:79-126 | every record carries the placed shape, and its centre satisfies `half ≤ x ≤ sheet_w − half` and `below ≤ y ≤ sheet_h − above` for its kind's allowances |
| `PackingProperties.PackRowMajor` | main.py:76-142 | record `k` of a sheet is grid position (row, col), the `k`-th in row-major order with columns counted from 0, with `y = y0 + row·dy` and `x = shift + x0 + col·dx`; later records are in higher rows or further right |
| `PackingProperties.SheetRowMajor` | main.py:76-142 | the same statement for one sheet of repeated grid passes |
| `PackingProperties.PackRectangleRecords` | main.py:55-60 | every rectangle record carries `{l: w, w: l}` iff the turned estimate is strictly larger, and the given parameters otherwise |
| `PackingProperties.TurnedRectangleRows` | main.py:58 | when turned, the placed shape is `(w, l)` but the vertical step stays `w + clearance`; the row gap is below the clearance iff `l > w`, and rows overlap iff `l > w + clearance` |
| `Scenarios.SquareOnHalfSheet` | main.py:84-114 | a 0.3 square with clearance 0.01 on a 1.0 × 0.5 sheet: one sheet holds exactly 3 |
| `Scenarios.TurnedRectangleOnNarrowSheet` | main.py:46-60 | a 0.2 × 0.1 rectangle on a 0.5 × 1.0 sheet: the estimates are 20 and 25, a sheet holds 45, and the area bound is 25 |
| `Area.ShapeArea` | main.py:256-275 | errors exactly for an unknown kind, with that kind's name |
| `Area.ShapeAreaPositive` | main.py:256-273 | every known kind with positive parameters has a positive area |
| `Area.RectangleAreaSwap` | main.py:264-266 | a rectangle's area does not change when length and width are exchanged |
| `Area.SemiCircleIsHalfCircle` | main.py:257-273 | a semicircle's area is half that of the circle with the same radius |
| `Area.UnusedArea` | main.py:277-283 | errors exactly for an unknown kind; otherwise unused area plus `count` shape areas equals the sheet area |
| `Area.UnusedAreaOfNothing` | main.py:280-283 | with no shapes placed the unused area is the whole sheet area |
| `Area.UnusedAreaDecreasing` | main.py:280-283 | the unused area strictly decreases as the count grows |
| `Area.AreaBound` | main.py:335 | the floor of `sheet_area / shape_area`; for a positive shape area it is the largest count whose total area does not exceed the sheet's: `bound·area ≤ sheet_area < (bound+1)·area` |

## Left out

- The Streamlit page, sidebar inputs and results display (main.py:7-19,
  285-418). They are user interface, not packing logic.
- `visualize_sheets` (main.py:154-254). It only draws the placement output.
- The mm-to-m clearance conversion, the efficiency percentage and the
  formatted metrics. They are presentation arithmetic.
- The `IndexError` on `sheets[0]` when the area bound is 0. It happens in
  the results page, not in the packer.
- IEEE float rounding. All arithmetic is on exact reals, so boundary cases
  that depend on rounding are not reproduced.
- `math.sqrt(3)` and `math.pi` are positive parameters, not their exact
  values. So the circle and triangle layouts are not computed for concrete
  sheets.
- Parameter dictionaries: each kind carries exactly the parameters it
  reads, so the `KeyError` for a missing key is not modelled.
- The packer's inputs are required to be positive parameters and a
  clearance ≥ 0 (`Admissible`). The input form guarantees this (minimum
  0.01 m and 0 mm). For other inputs a step can be ≤ 0 and the source's
  loops need not terminate.
- The list copy `params.copy()` in each record. Records are immutable
  values here, so the copy has no observable effect.
- `Packing.PackShapes`: the source runs its three nested loops inside one
  function. Here the row and column loops are separate methods, with the
  same tests in the same order. The swapped rectangle's parameters are a
  new value instead of a rebound dictionary.
- `PackingProperties.PackRowMajor`: the centre coordinates are stated
  through the grid's start offsets and steps, which `GridFor` and
  `MarginsOf` fix per kind. They are not written out per kind.
- Idempotence of `pack_shapes`: this holds because `Pack` is a function.
  No separate lemma states it.
