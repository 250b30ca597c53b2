/** Planar geometry of the server's util package. Points, lines and vectors are concrete; everything
    that needs floating-point division, square roots or trigonometry is an operation of a `Geo`
    record passed in by the caller, since the model does not reproduce IEEE-754 arithmetic. */
module Geometry {
  import opened Proto

  datatype Point = Point(x: real, y: real)

  /** y = slope * x + yIntercept, remembering the point it was built from. */
  datatype Line = Line(slope: real, yIntercept: real, pointOnLine: Point)

  datatype Intersection = Intersection(intersectPoint: Point, angleAtIntersect: real)

  /** The floating-point operations of the util package, left uninterpreted. */
  datatype Geo = Geo(
    slope: (Point, Point) -> real,                       // GetSlope: rise / run
    reciprocal: real -> real,                            // GetRecipricol: -1 / m
    slopeReciprocal: (Point, Point) -> real,             // GetSlopeRecipricol: -run / rise
    slopeToDegrees: real -> real,                        // ConvertSlopeToDegrees: atan, in degrees
    degreesToRad: real -> real,                          // ConvertDegreesToRad
    cos: real -> real,
    sin: real -> real,
    divide: (real, real) -> real,                        // float64 division
    length: (Point, Point) -> real,                      // GetLengthBetweenTwoPoints
    angleAtIntersection: (Point, Point, Point) -> real,  // GetAngleAtIntersection (law of cosines)
    intersection: (Line, Line) -> Intersection,          // GetIntersection
    signedAngleOfRotation: (Point, Point) -> real,       // GetSignedAngleOfRotation: atan2(cross, dot)
    pointOnLineWithY: (real, Line) -> Point,             // GetPointOnLineWithY: x = (y - b) / m
    leftFootPoint: (FullBody25, FeetLineMethod) -> Keypoint,   // GetLeftFootPoint
    rightFootPoint: (FullBody25, FeetLineMethod) -> Keypoint)  // GetRightFootPoint

  function ToPoint(k: Keypoint): (p: Point)
    ensures p.x == k.x && p.y == k.y
  {
    Point(k.x, k.y)
  }

  /** The line through `p` with slope `m`; `p` is its remembered point. */
  function LineWithSlope(p: Point, m: real): (l: Line)
    ensures l.slope == m && l.pointOnLine == p
    ensures p.y == l.slope * p.x + l.yIntercept
  {
    Line(m, p.y - m * p.x, p)
  }

  /** The line from `p1` towards `p2`, remembering `p1`. */
  function GetLine(geo: Geo, p1: Point, p2: Point): (l: Line)
    ensures l.pointOnLine == p1 && l.slope == geo.slope(p1, p2)
    ensures p1.y == l.slope * p1.x + l.yIntercept
  {
    LineWithSlope(p1, geo.slope(p1, p2))
  }

  /** The point of `l` whose x coordinate is `x`. */
  function PointOnLineWithX(x: real, l: Line): (p: Point)
    ensures p.x == x && p.y == l.slope * x + l.yIntercept
  {
    Point(x, l.slope * x + l.yIntercept)
  }

  /** The vector from `origin` to `p`. */
  function Vector(p: Point, origin: Point): (v: Point)
    ensures Point(origin.x + v.x, origin.y + v.y) == p
  {
    Point(p.x - origin.x, p.y - origin.y)
  }

  function Midpoint(p1: Point, p2: Point): (m: Point)
    ensures Vector(m, p1) == Vector(p2, m)
  {
    Point((p1.x + p2.x) / 2.0, (p1.y + p2.y) / 2.0)
  }

  function Abs(r: real): (a: real)
    ensures a >= 0.0 && (a == r || a == -r)
  {
    if r < 0.0 then -r else r
  }
}
