/**
 * The geometry values the opening converter works on (points, vectors, polylines,
 * edges and Cartesian frames) and the geometry-library calls it makes. The library
 * itself is not part of this model: each call it makes is a field of `Library`,
 * a record of total functions handed to the converter, about which nothing is known.
 */
module Geometry {

  /** A point in world coordinates. */
  datatype Point = Point(x: real, y: real, z: real)

  /** A direction or offset. */
  datatype Vector = Vector(x: real, y: real, z: real)

  /** An ordered list of control points; closed when the first equals the last. */
  datatype Polyline = Polyline(controlPoints: seq<Point>)

  /** One segment of an opening's outline. */
  datatype Edge = Edge(start: Point, end: Point)

  /** A frame: an origin and the directions of its x and y axes. */
  datatype Cartesian = Cartesian(origin: Point, x: Vector, y: Vector)

  const Origin: Point := Point(0.0, 0.0, 0.0)
  const XAxis: Vector := Vector(1.0, 0.0, 0.0)
  const YAxis: Vector := Vector(0.0, 1.0, 0.0)

  /** The vector that leads from `b` to `a`. */
  function Sub(a: Point, b: Point): Vector
  {
    Vector(a.x - b.x, a.y - b.y, a.z - b.z)
  }

  /** The geometry-library calls the converter makes, none of them interpreted here. */
  datatype Library = Library(
    outlineOf: seq<Edge> -> Polyline,                       // Opening.Polyline()
    centroid: Polyline -> Point,                            // Polyline.Centroid()
    height: Polyline -> real,                               // Polyline.Height()
    width: Polyline -> real,                                // Polyline.Width()
    isContaining: (Polyline, Point) -> bool,                // Panel.IsContaining(point)
    bottomRight: (Polyline, seq<Polyline>) -> Point,        // Panel.BottomRight(space)
    bottomLeft: (Polyline, seq<Polyline>) -> Point,         // Panel.BottomLeft(space)
    topRight: (Polyline, seq<Polyline>) -> Point,           // Panel.TopRight(space)
    cartesian: (Point, Vector, Vector) -> Cartesian,        // Create.CartesianCoordinateSystem
    orientPoint: (Point, Cartesian, Cartesian) -> Point,    // Point.Orient(from, to)
    orientCurve: (Polyline, Cartesian, Cartesian) -> Polyline, // Polyline.Orient(from, to)
    toEdges: Polyline -> seq<Edge>                          // Polyline.ToEdges()
  )

  /** The vertical coordinates of a list of points, in order. */
  function ZValues(pts: seq<Point>): (zs: seq<real>)
    ensures |zs| == |pts|
    ensures forall i :: 0 <= i < |pts| ==> zs[i] == pts[i].z
  {
    seq(|pts|, i requires 0 <= i < |pts| => pts[i].z)
  }

  /** The least element of a non-empty list, as LINQ's Min() computes it. */
  function Min(xs: seq<real>): (m: real)
    requires |xs| > 0
    ensures forall i :: 0 <= i < |xs| ==> m <= xs[i]
    ensures exists i :: 0 <= i < |xs| && m == xs[i]
  {
    if |xs| == 1 then xs[0]
    else
      var rest := Min(xs[1..]);
      assert forall i :: 1 <= i < |xs| ==> xs[i] == xs[1..][i - 1];
      if xs[0] <= rest then xs[0] else rest
  }

  /** The lowest control-point height of an outline (`ControlPoints.Select(p => p.Z).Min()`). */
  function BottomZ(outline: Polyline): (f: real)
    requires |outline.controlPoints| > 0
    ensures forall i :: 0 <= i < |outline.controlPoints| ==> f <= outline.controlPoints[i].z
    ensures exists i :: 0 <= i < |outline.controlPoints| && f == outline.controlPoints[i].z
  {
    Min(ZValues(outline.controlPoints))
  }

  /** The horizontal part of a vector: the vector with its vertical component zeroed. */
  function Flatten(v: Vector): Vector
  {
    v.(z := 0.0)
  }
}
