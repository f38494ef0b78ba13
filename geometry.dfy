/**
 * The geometric values the path planner manipulates. The CAD kernel is not
 * modelled: curves and surfaces it produces are opaque tokens, and every
 * kernel query is an uninterpreted function carried in a `Kernel` or
 * `SurfaceKernel` record. Only the straight lines the planner builds itself
 * (`Line.ByStartPointEndPoint`) have known end points.
 */
module Geometry {
  import opened Wrappers

  /** `math.pi` / `np.pi` as printed by Python; arithmetic on reals is exact here. */
  const Pi: real := 3.141592653589793

  datatype Point = Point(x: real, y: real, z: real)

  datatype Vec = Vec(x: real, y: real, z: real)

  const ZAxis: Vec := Vec(0.0, 0.0, 1.0)

  /** A line the planner constructs from two points, or a curve the kernel produced. */
  datatype Curve = Line(from: Point, to: Point) | Piece(id: nat)

  /** A surface, face, or poly-surface produced by the kernel. */
  datatype Surface = Surface(id: nat)

  datatype Plane = Plane(origin: Point, normal: Vec)

  datatype BoundingBox = BoundingBox(minPoint: Point, maxPoint: Point)

  /**
   * A Python number. `str` tells an int from a float (`str(0) == "0"`,
   * `str(0.0) == "0.0"`), so the tag is part of a dictionary key built with `str`.
   */
  datatype Num = Int(i: int) | Float(f: real) {
    function Value(): real {
      match this
      case Int(i) => i as real
      case Float(f) => f
    }
  }

  /** An argument that is either a single item or a Python list of items. */
  datatype Item<T> = One(x: T) | Many(xs: seq<T>) {
    /** The argument as a list: a single item is wrapped into a singleton. */
    function AsList(): (r: seq<T>)
      ensures One? ==> r == [x]
      ensures Many? ==> r == xs
    {
      match this
      case One(x) => [x]
      case Many(xs) => xs
    }
  }

  function Abs(x: real): real {
    if x < 0.0 then -x else x
  }

  /** The kernel queries on curves that the planner uses, uninterpreted. */
  datatype Kernel = Kernel(
    pieceStart: nat -> Point,                 // Curve.StartPoint
    pieceEnd: nat -> Point,                   // Curve.EndPoint
    reversePiece: nat -> Curve,               // Curve.Reverse
    length: Curve -> real,                    // Curve.Length
    distance: (Point, Curve) -> real,         // Point.DistanceTo / Curve.DistanceTo
    pointAt: (Curve, real) -> Point,          // Curve.PointAtParameter
    arcRadius: Curve -> Option<real>,         // Some(Radius) exactly for an Arc
    isNurbs: Curve -> bool,                   // isinstance(c, NurbsCurve)
    angleWith: (Curve, Curve) -> real,        // end tangent of the first AngleWithVector start tangent of the second, degrees
    angleAboutZ: (Curve, Curve) -> real,      // the same angle measured AngleAboutAxis ZAxis, degrees
    cornerTrim: (real, int) -> real,          // the trigonometric branch of cornerOffset
    trimByParameter: (Curve, real, real) -> Curve,
    trimStart: (Curve, real) -> Curve,        // TrimByStartParameter(..).Explode()[0]
    trimInterior: (Curve, real, real) -> seq<Curve>,
    translate: (Curve, Curve, real) -> Curve, // translate along the end tangent of the second curve
    fillet: (Curve, Curve, real) -> Curve,    // Arc.ByFillet
    intersectPlane: (Plane, Surface) -> seq<Curve>,
    sameKind: (Curve, Surface) -> bool,       // the intersection is non-empty and starts with a curve of the same type
    join: (Curve, Curve) -> Option<Curve>,    // Curve.Join, None when the kernel raises
    joinReverse: (Curve, Curve) -> Curve,     // Join(..).Reverse()
    chordPoints: (Curve, int) -> seq<Point>,  // PointsAtEqualChordLength
    closestPoint: (Curve, Point) -> Point     // ClosestPointTo
  )

  /** The kernel queries on surfaces and solids, uninterpreted. */
  datatype SurfaceKernel = SurfaceKernel(
    minZ: Surface -> real,                    // BoundingBox.MinPoint.Z
    maxZ: Surface -> real,                    // BoundingBox.MaxPoint.Z
    perimeterLengths: Surface -> seq<real>,   // lengths of PerimeterCurves()
    meetsAsSurface: (Surface, Surface) -> bool, // Intersect is non-empty and starts with a Surface
    joinSurfaces: seq<Surface> -> Surface,    // PolySurface.ByJoinedSurfaces
    offset: (Surface, real) -> Surface,       // Offset, Explode and Join
    filletEdges: (Surface, real) -> Surface   // Fillet of the edges with two adjacent faces
  )

  function StartPoint(k: Kernel, c: Curve): (p: Point)
    ensures c.Line? ==> p == c.from
  {
    match c
    case Line(a, _) => a
    case Piece(n) => k.pieceStart(n)
  }

  function EndPoint(k: Kernel, c: Curve): (p: Point)
    ensures c.Line? ==> p == c.to
  {
    match c
    case Line(_, b) => b
    case Piece(n) => k.pieceEnd(n)
  }

  /** Curve.Reverse: a line swaps its end points; a kernel curve is reversed by the kernel. */
  function Reverse(k: Kernel, c: Curve): (r: Curve)
    ensures c.Line? ==> r == Line(c.to, c.from) && StartPoint(k, r) == EndPoint(k, c) && EndPoint(k, r) == StartPoint(k, c)
  {
    match c
    case Line(a, b) => Line(b, a)
    case Piece(n) => k.reversePiece(n)
  }
}
