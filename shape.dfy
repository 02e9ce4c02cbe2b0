/**
  A model of the shape classifier of shape.cpp: a closed polygon is given as a
  sequence of coordinates whose last point repeats the first, and it is labelled
  by the number of coordinates, with triangles further split by their interior
  angles.

  The C++ `float` is modelled as `real` and `abs` as exact absolute value.
  `computeAngle` has an empty body in the source, so the angle at a vertex is an
  uninterpreted function that every operation needing it takes as a parameter.
 */
module Shape {

  /** A point on the plane (the source's class `Coord`). */
  datatype Coord = Coord(x: real, y: real)

  /** The angle at `mid` between the edges to `left` and to `right` (`computeAngle`). */
  type AngleFn = (Coord, Coord, Coord) -> real

  // The labels the classifier can produce.
  const NotAValidShape: string := "Not a valid Shape"
  const Triangle: string := "Triangle"
  const EquilateralTriangle: string := "Equilateral " + Triangle

  const Labels: set<string> := {
    NotAValidShape, "Point", "Straight Line", Triangle, EquilateralTriangle,
    "ss", "Pentagon", "Hexagon", "circle"
  }

  function Abs(v: real): (r: real)
    ensures r >= 0.0 && (r == v || r == -v)
  {
    if v < 0.0 then -v else v
  }

  // ---------------------------------------------------------------------------
  // Tolerance test

  /** Two values are similar when they differ by strictly less than 5. */
  predicate AreFloatValuesSimilar(a: real, b: real)
    ensures AreFloatValuesSimilar(a, b) <==> b - 5.0 < a < b + 5.0
  {
    Abs(a - b) < 5.0
  }

  lemma SimilarReflexive(a: real)
    ensures AreFloatValuesSimilar(a, a)
  {
  }

  lemma SimilarSymmetric(a: real, b: real)
    ensures AreFloatValuesSimilar(a, b) <==> AreFloatValuesSimilar(b, a)
  {
  }

  /** The bound is strict: a difference of exactly 5 is not similar, anything smaller is. */
  lemma SimilarStrictBound(a: real, d: real)
    requires 0.0 <= d
    ensures AreFloatValuesSimilar(a, a + d) <==> d < 5.0
    ensures !AreFloatValuesSimilar(a, a + 5.0) && !AreFloatValuesSimilar(a + 5.0, a)
  {
  }

  /** Similarity is not transitive: 0 ~ 4 and 4 ~ 8, but not 0 ~ 8. */
  lemma SimilarNotTransitive()
    ensures exists a: real, b: real, c: real ::
      AreFloatValuesSimilar(a, b) && AreFloatValuesSimilar(b, c) && !AreFloatValuesSimilar(a, c)
  {
    assert AreFloatValuesSimilar(0.0, 4.0) && AreFloatValuesSimilar(4.0, 8.0);
    assert !AreFloatValuesSimilar(0.0, 8.0);
  }

  // ---------------------------------------------------------------------------
  // Interior angles

  /** The angles at vertices `i`, `i + 1`, ..., `|coords| - 2`, each against its two neighbours. */
  function AnglesFrom(angle: AngleFn, coords: seq<Coord>, i: nat): (r: seq<real>)
    requires 1 <= i <= |coords| - 1
    ensures |r| == |coords| - 1 - i
    ensures forall k {:trigger r[k]} :: 0 <= k < |r| ==>
      r[k] == angle(coords[i + k], coords[i + k - 1], coords[i + k + 1])
    decreases |coords| - i
  {
    if i == |coords| - 1 then []
    else [angle(coords[i], coords[i - 1], coords[i + 1])] + AnglesFrom(angle, coords, i + 1)
  }

  /**
    The interior angles of a closed polygon: vertex 0 is measured against vertex 1
    and vertex `n - 2` (skipping the closing copy of itself at `n - 1`), every
    later vertex against its two neighbours.
   */
  function InteriorAngles(angle: AngleFn, coords: seq<Coord>): (r: seq<real>)
    requires |coords| >= 2
    ensures |r| == |coords| - 1
    ensures r[0] == angle(coords[0], coords[1], coords[|coords| - 2])
    ensures forall i {:trigger r[i]} :: 1 <= i < |coords| - 1 ==>
      r[i] == angle(coords[i], coords[i - 1], coords[i + 1])
  {
    var rest := AnglesFrom(angle, coords, 1);
    assert forall i :: 1 <= i < |coords| - 1 ==> rest[i - 1] == angle(coords[i], coords[i - 1], coords[i + 1]);
    [angle(coords[0], coords[1], coords[|coords| - 2])] + rest
  }

  /** `getInteriorAngles`: pushes the angle of vertex 0, then of vertices 1 to n - 2. */
  method GetInteriorAngles(angle: AngleFn, coords: seq<Coord>) returns (angles: seq<real>)
    requires |coords| >= 2
    ensures |angles| == |coords| - 1
    ensures angles[0] == angle(coords[0], coords[1], coords[|coords| - 2])
    ensures forall i {:trigger angles[i]} :: 1 <= i < |coords| - 1 ==>
      angles[i] == angle(coords[i], coords[i - 1], coords[i + 1])
    ensures angles == InteriorAngles(angle, coords)
  {
    var numOfCoords := |coords|;
    angles := [];
    angles := angles + [angle(coords[0], coords[1], coords[numOfCoords - 2])];
    for i := 1 to numOfCoords - 1
      invariant |angles| == i
      invariant angles[0] == angle(coords[0], coords[1], coords[numOfCoords - 2])
      invariant forall k {:trigger angles[k]} :: 1 <= k < i ==> angles[k] == angle(coords[k], coords[k - 1], coords[k + 1])
    {
      angles := angles + [angle(coords[i], coords[i - 1], coords[i + 1])];
    }
    InteriorAnglesUnique(angle, coords, angles);
  }

  /** A sequence with the length and entries `InteriorAngles` promises is `InteriorAngles`. */
  lemma InteriorAnglesUnique(angle: AngleFn, coords: seq<Coord>, angles: seq<real>)
    requires |coords| >= 2
    requires |angles| == |coords| - 1
    requires angles[0] == angle(coords[0], coords[1], coords[|coords| - 2])
    requires forall i {:trigger angles[i]} :: 1 <= i < |coords| - 1 ==>
      angles[i] == angle(coords[i], coords[i - 1], coords[i + 1])
    ensures angles == InteriorAngles(angle, coords)
  {
    // Sequence equality is extensional: equal lengths and equal entries.
    assert forall k :: 0 <= k < |angles| ==> angles[k] == InteriorAngles(angle, coords)[k];
  }

  // ---------------------------------------------------------------------------
  // Per-shape identification

  /**
    `identifyTriangle`: equilateral when the angle at vertex 0 is similar to the
    angles at vertices 1 and 2.
   */
  function IdentifyTriangle(angle: AngleFn, coords: seq<Coord>): (r: string)
    requires |coords| >= 4
    ensures r == EquilateralTriangle || r == Triangle
    ensures r == EquilateralTriangle <==>
      AreFloatValuesSimilar(angle(coords[0], coords[1], coords[|coords| - 2]), angle(coords[1], coords[0], coords[2]))
      && AreFloatValuesSimilar(angle(coords[0], coords[1], coords[|coords| - 2]), angle(coords[2], coords[1], coords[3]))
  {
    var interiorAngles := InteriorAngles(angle, coords);
    if AreFloatValuesSimilar(interiorAngles[0], interiorAngles[1])
       && AreFloatValuesSimilar(interiorAngles[0], interiorAngles[2])
    then EquilateralTriangle
    else Triangle
  }

  /** `identifyQuadrilateral`: a stub that labels every quadrilateral "ss". */
  function IdentifyQuadrilateral(coords: seq<Coord>): (r: string)
    ensures r == "ss"
  {
    "ss"
  }

  /** `isRegularPentagon`: a stub that judges every pentagon regular. */
  predicate IsRegularPentagon(coords: seq<Coord>)
    ensures IsRegularPentagon(coords)
  {
    true
  }

  /** `isRegularHexagon`: a stub that judges every hexagon regular. */
  predicate IsRegularHexagon(coords: seq<Coord>)
    ensures IsRegularHexagon(coords)
  {
    true
  }

  // ---------------------------------------------------------------------------
  // Classifier

  /**
    `detectShapeDecisionTree`: classifies by the number of coordinates. There is
    no case for 3 coordinates, so 3 falls through to "circle" like 8 or more.
   */
  function DetectShape(angle: AngleFn, coords: seq<Coord>): (r: string)
    ensures r in Labels
  {
    match |coords|
    case 0 => NotAValidShape
    case 1 => "Point"
    case 2 => "Straight Line"
    case 4 => IdentifyTriangle(angle, coords)
    case 5 => IdentifyQuadrilateral(coords)
    case 6 => if IsRegularPentagon(coords) then "Pentagon" else NotAValidShape
    case 7 => if IsRegularHexagon(coords) then "Hexagon" else NotAValidShape
    case _ => "circle"
  }

  lemma DegenerateShapes(angle: AngleFn, coords: seq<Coord>)
    ensures |coords| == 0 ==> DetectShape(angle, coords) == "Not a valid Shape"
    ensures |coords| == 1 ==> DetectShape(angle, coords) == "Point"
    ensures |coords| == 2 ==> DetectShape(angle, coords) == "Straight Line"
  {
  }

  lemma CircleExactlyForThreeOrMany(angle: AngleFn, coords: seq<Coord>)
    ensures DetectShape(angle, coords) == "circle" <==> |coords| == 3 || |coords| >= 8
  {
  }

  lemma QuadrilateralIsSs(angle: AngleFn, coords: seq<Coord>)
    ensures DetectShape(angle, coords) == "ss" <==> |coords| == 5
  {
  }

  /** The regularity stubs are constant, so 6 and 7 coordinates are never invalid. */
  lemma PentagonAndHexagon(angle: AngleFn, coords: seq<Coord>)
    ensures DetectShape(angle, coords) == "Pentagon" <==> |coords| == 6
    ensures DetectShape(angle, coords) == "Hexagon" <==> |coords| == 7
    ensures DetectShape(angle, coords) == "Not a valid Shape" <==> |coords| == 0
  {
  }

  /** With 4 coordinates (a closed triangle) the label depends only on the three angles. */
  lemma TriangleClassification(angle: AngleFn, coords: seq<Coord>)
    requires |coords| == 4
    ensures DetectShape(angle, coords) == "Equilateral Triangle" <==>
      AreFloatValuesSimilar(angle(coords[0], coords[1], coords[2]), angle(coords[1], coords[0], coords[2]))
      && AreFloatValuesSimilar(angle(coords[0], coords[1], coords[2]), angle(coords[2], coords[1], coords[3]))
    ensures DetectShape(angle, coords) == "Triangle" <==> !(DetectShape(angle, coords) == "Equilateral Triangle")
  {
  }

  /** Any label other than a triangle's is decided by the number of coordinates alone. */
  lemma OnlyTrianglesLookAtCoordinates(a1: AngleFn, c1: seq<Coord>, a2: AngleFn, c2: seq<Coord>)
    requires |c1| == |c2| && |c1| != 4
    ensures DetectShape(a1, c1) == DetectShape(a2, c2)
  {
  }
}
