# Shape classifier

A Dafny model of the shape-classification procedure in `shape.cpp`. A closed
polygon arrives as a list of coordinates whose last point repeats the first. The
classifier labels it by the number of coordinates:

- 0 coordinates: "Not a valid Shape"
- 1: "Point"
- 2: "Straight Line"
- 4: a triangle, "Equilateral Triangle" or "Triangle" by its interior angles
- 5: "ss"
- 6: "Pentagon"
- 7: "Hexagon"
- 3, or 8 and more: "circle"

The whole model is the module `Shape` in `shape.dfy`:

- `Coord` is a datatype of two reals. The C++ `float` becomes `real`, and `abs`
  becomes exact absolute value.
- `computeAngle` has an empty body in the source. The model keeps it
  uninterpreted: it is the parameter `angle: (Coord, Coord, Coord) -> real` of
  every operation that needs it. Every property proved holds for every choice of
  angle function.
- `getInteriorAngles` builds its vector with `push_back` in a loop. It is the
  method `GetInteriorAngles` with a `for` loop over a `seq`. The method is proved
  against the recursive function `InteriorAngles`, which the pure
  `IdentifyTriangle` uses in its place.
- `areFloatValuesSimilar`, `identifyTriangle`, the three stubs and
  `detectShapeDecisionTree` are functions. The `switch` becomes a `match` on the
  number of coordinates.
- The stubs `IdentifyQuadrilateral`, `IsRegularPentagon` and `IsRegularHexagon`
  return constants, as in the source. Their effect is stated by the classifier
  lemmas: with 5 coordinates the label is "ss", and the "Not a valid Shape"
  branches at 6 and 7 coordinates are unreachable.
- The variable `flags` in `identifyTriangle` is never used, so the model has no
  counterpart for it.

Two behaviours of the source are kept as written:

- Vertex 0 is measured differently from the others. `getInteriorAngles` passes
  `(coords[0], coords[1], coords[n-2])` as (mid, left, right) for it
  (shape.cpp:35). So the next point is on the left and the previous point is on
  the right. Every later vertex `i` gets left = `coords[i-1]` (the previous
  point) and right = `coords[i+1]` (the next point) (shape.cpp:38).
- There is no `case 3`. Any 3-coordinate input, such as the closed two-point
  path `[a, b, a]`, falls to `default` and is labelled "circle"
  (shape.cpp:74-90). That happens even though "circle" is meant as the catch-all
  for inputs with more than seven coordinates. `CircleExactlyForThreeOrMany`
  proves this behaviour.

## Model

| member | source | states |
|---|---|---|
| `Shape.AreFloatValuesSimilar` | shape.cpp:20-22 | two values are similar exactly when `b - 5 < a < b + 5`, a strict tolerance band of width 5 on each side |
| `Shape.SimilarReflexive` | shape.cpp:20-22 | every value is similar to itself |
| `Shape.SimilarSymmetric` | shape.cpp:20-22 | `a` is similar to `b` exactly when `b` is similar to `a` |
| `Shape.SimilarStrictBound` | shape.cpp:20-22 | for `d >= 0`, `a` and `a + d` are similar iff `d < 5`; a difference of exactly 5 is not similar, in either order |
| `Shape.SimilarNotTransitive` | shape.cpp:20-22 | there are three values with `a ~ b` and `b ~ c` but not `a ~ c` (0, 4, 8) |
| `Shape.AnglesFrom` | shape.cpp:37-39 | the loop's part of the result: from vertex `i` to `n - 2`, entry `k` is the angle at vertex `i + k` against vertices `i + k - 1` and `i + k + 1`, and there are `n - 1 - i` entries |
| `Shape.InteriorAngles` | shape.cpp:28-42 | for `n >= 2` coordinates there are `n - 1` angles; angle 0 is at vertex 0 against vertices 1 and `n - 2`; angle `i` for `1 <= i <= n - 2` is at vertex `i` against `i - 1` and `i + 1` |
| `Shape.GetInteriorAngles` | shape.cpp:28-42 | the loop pushes exactly those `n - 1` angles, every index stays in bounds, and the result equals `InteriorAngles` |
| `Shape.InteriorAnglesUnique` | shape.cpp:28-42 | the per-index description of the angles determines them: any sequence of `n - 1` angles with those entries is `InteriorAngles` |
| `Shape.IdentifyTriangle` | shape.cpp:44-55 | the label is "Equilateral Triangle" or "Triangle", and it is "Equilateral Triangle" iff the angle at vertex 0 is similar to the angles at vertices 1 and 2 |
| `Shape.Abs` | shape.cpp:21 | the `abs` used by the similarity test: the result is non-negative and equals the argument or its negation |
| `Shape.IdentifyQuadrilateral` | shape.cpp:58-60 | a constant stub, as written: every input is labelled "ss"; `QuadrilateralIsSs` states what this means for the classifier |
| `Shape.IsRegularPentagon` | shape.cpp:62-64 | a constant stub, as written: every input is judged a regular pentagon; `PentagonAndHexagon` states what this means for the classifier |
| `Shape.IsRegularHexagon` | shape.cpp:66-68 | a constant stub, as written: every input is judged a regular hexagon; `PentagonAndHexagon` states what this means for the classifier |
| `Shape.DetectShape` | shape.cpp:71-92 | the classifier is total and its label is always one of the nine labels "Not a valid Shape", "Point", "Straight Line", "Triangle", "Equilateral Triangle", "ss", "Pentagon", "Hexagon", "circle" |
| `Shape.DegenerateShapes` | shape.cpp:74-80 | 0 coordinates give "Not a valid Shape", 1 gives "Point", 2 gives "Straight Line" |
| `Shape.CircleExactlyForThreeOrMany` | shape.cpp:74-91 | the label is "circle" iff there are exactly 3 coordinates (no `case 3`) or 8 and more |
| `Shape.QuadrilateralIsSs` | shape.cpp:58-84 | the label is "ss" iff there are exactly 5 coordinates (the stub at shape.cpp:58-60) |
| `Shape.PentagonAndHexagon` | shape.cpp:62-88 | the label is "Pentagon" iff there are 6 coordinates and "Hexagon" iff there are 7; "Not a valid Shape" occurs only for 0 coordinates, so the invalid branches at 6 and 7 are unreachable |
| `Shape.TriangleClassification` | shape.cpp:44-82 | with 4 coordinates the label is "Equilateral Triangle" iff the angles at vertices 0, 1 and 2 of the closed triangle satisfy the two similarity tests, and "Triangle" otherwise |
| `Shape.OnlyTrianglesLookAtCoordinates` | shape.cpp:71-92 | for any size other than 4, two inputs of the same size get the same label, whatever their coordinates and angle function |

## Left out

- `main` (shape.cpp:94-103): it builds four points and prints the label to the console. It is I/O only.
- The geometry of `computeAngle` (shape.cpp:24-26): its body is empty in the source, and flowing off the end of a non-void function is undefined behaviour. It is an uninterpreted parameter here.
- IEEE `float` rounding and `abs` on floats (shape.cpp:21): the model uses exact real arithmetic. This drops NaN and the infinities. On those values the source's similarity test differs: for example `abs(NaN - NaN) < 5.0f` is false, so the test is not reflexive. `computeAngle` is undefined behaviour, so it could return such a value. `SimilarReflexive` and the other similarity lemmas therefore describe finite floats only. For finite floats, the model can call two values similar when their exact difference is just below 5 but the float difference rounds up to 5.0f (for example 5.0f and 1e-30f). The two agree whenever the subtraction is exact.
- `GetInteriorAngles` and `IdentifyTriangle` require at least 2 and at least 4 coordinates. With fewer than 2, `getInteriorAngles` has undefined behaviour. Unsigned subtraction itself is well defined: it wraps modulo 2^32. The undefined behaviour comes from two other places. First, shape.cpp:35 reads out of range: `coords[1]` at 1 coordinate, `coords[0]` at 0, and, through the wrapped index `numOfCoords - 2`, `coords[4294967295]` at 1 coordinate and `coords[4294967294]` at 0. Second, at 0 coordinates the loop bound `numOfCoords - 1` wraps to `UINT_MAX`, so the `int` counter `i` overflows (shape.cpp:37). These two places explain the bound of `GetInteriorAngles`. `IdentifyTriangle` is different. With 3 coordinates, `getInteriorAngles` is well defined and returns 2 angles. The source then reads `interiorAngles[2]` out of range only when angle 0 is similar to angle 1, because the `&&` at shape.cpp:49-50 short-circuits. Otherwise it returns "Triangle" (shape.cpp:54). With 2 coordinates it always reads `interiorAngles[1]` out of range (shape.cpp:49). The model requires 4 coordinates because the classifier calls it only with 4 (shape.cpp:81-82).
- The conversion of `coords.size()` to `unsigned int` and the `int` loop counter: vectors of 2^31 elements or more are not modelled.
- The OpenGL/GLUT front end (mouse and keyboard callbacks, window setup, text rendering) is not part of this model.
