/** The bend outline drawn by both views: a rectangle of a given size whose
    four edges are quadratic curves, each pulled off the edge's midpoint by
    the component of the current offset that is perpendicular to it.
    Coordinates are exact reals: the views only halve, add and subtract. */
module Geometry {

  datatype Point = Point(x: real, y: real)

  /** The divergence between the twin and the primary (a UIOffset in the
      newer view, a CGPoint `bendingFactor` in the older one). */
  datatype Offset = Offset(horizontal: real, vertical: real)

  const ZeroOffset := Offset(0.0, 0.0)

  datatype Size = Size(width: real, height: real)

  datatype Rect = Rect(origin: Point, size: Size)

  /** One drawing instruction after the initial move. */
  datatype Segment = QuadTo(end: Point, control: Point) | LineTo(end: Point)

  /** A path: a move to `start`, the segments in order, and a close flag. */
  datatype Outline = Outline(start: Point, segments: seq<Segment>, closed: bool)

  function Shift(p: Point, d: Offset): Point {
    Point(p.x + d.horizontal, p.y + d.vertical)
  }

  function Scale(k: real, d: Offset): Offset {
    Offset(k * d.horizontal, k * d.vertical)
  }

  function Midpoint(a: Point, b: Point): Point {
    Point((a.x + b.x) / 2.0, (a.y + b.y) / 2.0)
  }

  /** twin origin minus primary origin, component-wise: the vector that
      carries the primary onto the twin, zero exactly when they coincide */
  function Divergence(twin: Point, primary: Point): (d: Offset)
    ensures Shift(primary, d) == twin
    ensures d == ZeroOffset <==> twin == primary
  {
    Offset(twin.x - primary.x, twin.y - primary.y)
  }

  /** The rectangle's corners in drawing order: top-left, top-right,
      bottom-right, bottom-left (y grows downwards). */
  function Corners(s: Size): seq<Point> {
    [Point(0.0, 0.0), Point(s.width, 0.0), Point(s.width, s.height), Point(0.0, s.height)]
  }

  /** Edge `i` runs from corner `i` to corner `i + 1` (mod 4); edges 0 and 2
      (top, bottom) are horizontal, edges 1 and 3 (right, left) vertical. */
  function EdgeFrom(s: Size, i: nat): Point requires i < 4 { Corners(s)[i] }

  function EdgeTo(s: Size, i: nat): Point requires i < 4 { Corners(s)[(i + 1) % 4] }

  /** The part of `o` at right angles to edge `i`. */
  function Perpendicular(i: nat, o: Offset): Offset {
    if i % 2 == 0 then Offset(0.0, o.vertical) else Offset(o.horizontal, 0.0)
  }

  /** The bend outline, instruction by instruction as the views build it. */
  function BendPath(s: Size, o: Offset): (p: Outline)
    ensures p.closed && p.start == Point(0.0, 0.0) && |p.segments| == 4
    ensures p.segments[3].end == p.start
  {
    var w, h := s.width, s.height;
    Outline(
      Point(0.0, 0.0),
      [ QuadTo(Point(w, 0.0), Point(w / 2.0, 0.0 + o.vertical)),
        QuadTo(Point(w, h), Point(w + o.horizontal, h / 2.0)),
        QuadTo(Point(0.0, h), Point(w / 2.0, h + o.vertical)),
        QuadTo(Point(0.0, 0.0), Point(o.horizontal, h / 2.0)) ],
      true)
  }

  /** The same rectangle drawn with straight lines. */
  function PlainRectangle(s: Size): Outline {
    var c := Corners(s);
    Outline(c[0], [LineTo(c[1]), LineTo(c[2]), LineTo(c[3]), LineTo(c[0])], true)
  }

  /** Where segment `i` of `p` begins: the move target, then each end in turn. */
  function SegmentStart(p: Outline, i: nat): Point
    requires i < |p.segments|
  {
    if i == 0 then p.start else p.segments[i - 1].end
  }

  /** One coordinate of the straight chord from `a` to `b` at parameter `t`. */
  function Chord(a: real, b: real, t: real): real {
    (1.0 - t) * a + t * b
  }

  /** One coordinate of the quadratic Bezier curve from `a` to `b` with
      control `c`, at parameter `t`. */
  function Bezier(a: real, c: real, b: real, t: real): real {
    (1.0 - t) * (1.0 - t) * a + 2.0 * (1.0 - t) * t * c + t * t * b
  }

  /** How much of the control point's displacement a quadratic edge shows at `t`. */
  function BowWeight(t: real): real {
    2.0 * t * (1.0 - t)
  }

  function Lerp(a: Point, b: Point, t: real): Point {
    Point(Chord(a.x, b.x, t), Chord(a.y, b.y, t))
  }

  /** The point at parameter `t` of a segment starting at `a`: the quadratic
      Bezier formula for a curve, linear interpolation for a line. */
  function PointOn(a: Point, seg: Segment, t: real): Point {
    match seg
    case LineTo(b) => Lerp(a, b, t)
    case QuadTo(b, c) => Point(Bezier(a.x, c.x, b.x, t), Bezier(a.y, c.y, b.y, t))
  }

  /** The path starts at the top-left corner, ends its four segments at the
      remaining corners and back at the start, in that order, and is closed;
      this holds for every size, zero width or height included. */
  lemma BendPathVisitsCorners(s: Size, o: Offset)
    ensures var p := BendPath(s, o);
      p.start == Corners(s)[0] && p.closed && |p.segments| == 4 &&
      (forall i | 0 <= i < 4 :: p.segments[i].QuadTo? && p.segments[i].end == EdgeTo(s, i) &&
                                SegmentStart(p, i) == EdgeFrom(s, i)) &&
      p.segments[3].end == p.start
  {
  }

  /** Each control point is its edge's midpoint moved by the offset component
      perpendicular to that edge: the vertical component for the top and
      bottom edges, the horizontal one for the right and left edges. */
  lemma BendPathControls(s: Size, o: Offset, i: nat)
    requires i < 4
    ensures BendPath(s, o).segments[i].control
         == Shift(Midpoint(EdgeFrom(s, i), EdgeTo(s, i)), Perpendicular(i, o))
  {
  }

  /** A quadratic segment whose control point is the chord midpoint moved
      by `d` passes, at parameter `t`, the point of the straight chord moved
      by 2t(1-t) times `d`; at t = 1/2 the bow is exactly half of `d`. */
  lemma BowDisplacement(a: Point, b: Point, d: Offset, t: real)
    ensures PointOn(a, QuadTo(b, Shift(Midpoint(a, b), d)), t)
         == Shift(Lerp(a, b, t), Scale(BowWeight(t), d))
  {
    var c := Shift(Midpoint(a, b), d);
    BowCoordinate(a.x, b.x, c.x, d.horizontal, t);
    BowCoordinate(a.y, b.y, c.y, d.vertical, t);
  }

  /** One coordinate of the bow: with c = (a + b)/2 + d, the quadratic Bezier
      value is the chord value plus 2t(1-t)d. */
  lemma BowCoordinate(a: real, b: real, c: real, d: real, t: real)
    requires c == (a + b) / 2.0 + d
    ensures Bezier(a, c, b, t) == Chord(a, b, t) + BowWeight(t) * d
  {
    var u := 1.0 - t;
    calc {
      Bezier(a, c, b, t);
      u * u * a + 2.0 * u * t * c + t * t * b;
      u * u * a + u * t * (a + b) + 2.0 * u * t * d + t * t * b;
      u * (u + t) * a + t * (u + t) * b + 2.0 * u * t * d;
      { assert u + t == 1.0; }
      u * a + t * b + 2.0 * t * u * d;
      Chord(a, b, t) + BowWeight(t) * d;
    }
  }

  /** Every point of edge `i` of the bend outline is the matching point of
      the straight edge, displaced by 2t(1-t) times the perpendicular offset. */
  lemma BendEdgePoint(s: Size, o: Offset, i: nat, t: real)
    requires i < 4
    ensures PointOn(SegmentStart(BendPath(s, o), i), BendPath(s, o).segments[i], t)
         == Shift(PointOn(SegmentStart(PlainRectangle(s), i), PlainRectangle(s).segments[i], t),
                  Scale(BowWeight(t), Perpendicular(i, o)))
  {
    BendPathVisitsCorners(s, o);
    BendPathControls(s, o, i);
    BowDisplacement(EdgeFrom(s, i), EdgeTo(s, i), Perpendicular(i, o), t);
  }

  /** With the zero offset every control point is its edge's midpoint, so the
      outline traces exactly the plain rectangle. */
  lemma ZeroOffsetIsRectangle(s: Size, i: nat, t: real)
    requires i < 4
    ensures BendPath(s, ZeroOffset).segments[i].control == Midpoint(EdgeFrom(s, i), EdgeTo(s, i))
    ensures PointOn(SegmentStart(BendPath(s, ZeroOffset), i), BendPath(s, ZeroOffset).segments[i], t)
         == PointOn(SegmentStart(PlainRectangle(s), i), PlainRectangle(s).segments[i], t)
  {
    BendEdgePoint(s, ZeroOffset, i, t);
  }
}
