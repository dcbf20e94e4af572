/** Drawable shapes (src/shape.rs and the path types of src/path.rs and
    mltg/src/path.rs) and the `Fill`/`Stroke` dispatch: each shape turns a
    fill or a stroke into exactly one device-context call.

    In the source, which shapes can be filled is decided by which types
    implement `Fill`; here that is the predicate `Fillable`, and `FillCall`
    requires it, as the compiler does.
 */
module Shapes {

  import opened Geometry
  import opened Results
  import opened Platform
  import Path
  import LegacyPath

  /** `Line`: two endpoints, in order. */
  datatype Line = Line(p0: Point, p1: Point)

  /** `Ellipse`: a centre and the two radii as a vector. */
  datatype Ellipse = Ellipse(center: Point, radius: Vector)

  /** `RoundedRect`: a rectangle and the corner radii as a vector. */
  datatype RoundedRect = RoundedRect(rect: Rect, radius: Vector)

  /** `Line::new` and the free function `line`. */
  function NewLine(x0: Point, x1: Point): (l: Line)
    ensures l.p0 == x0 && l.p1 == x1
  {
    Line(x0, x1)
  }

  /** `RoundedRect::new`. */
  function NewRoundedRect(rect: Rect, radius: Vector): (r: RoundedRect)
    ensures r.rect == rect && r.radius == radius
  {
    RoundedRect(rect, radius)
  }

  function EllipseFromD2D(e: D2DEllipse): Ellipse
  {
    Ellipse(PointFromD2D(e.point), Vector(e.radiusX, e.radiusY))
  }

  /** `From<Ellipse> for D2D1_ELLIPSE`: the centre, then radius.x and
      radius.y as radiusX and radiusY; nothing is lost. */
  function EllipseToD2D(e: Ellipse): (r: D2DEllipse)
    ensures PointFromD2D(r.point) == e.center
    ensures r.radiusX == e.radius.x && r.radiusY == e.radius.y
    ensures EllipseFromD2D(r) == e
  {
    D2DEllipse(PointToD2D(e.center), e.radius.x, e.radius.y)
  }

  /** A circle lowers to the same record as the ellipse with both radii
      equal to the circle's radius. */
  lemma CircleIsRoundEllipse(c: Circle)
    ensures CircleToD2D(c) == EllipseToD2D(Ellipse(c.center, Vector(c.radius, c.radius)))
  {
  }

  function RoundedRectFromD2D(r: D2DRoundedRect): RoundedRect
  {
    RoundedRect(RectFromD2D(r.rect), Vector(r.radiusX, r.radiusY))
  }

  /** `From<RoundedRect> for D2D1_ROUNDED_RECT`: the rectangle as for `Rect`,
      radius.x and radius.y as the two corner radii; nothing is lost. */
  function RoundedRectToD2D(rr: RoundedRect): (r: D2DRoundedRect)
    ensures r.rect == RectToD2D(rr.rect)
    ensures r.radiusX == rr.radius.x && r.radiusY == rr.radius.y
    ensures RoundedRectFromD2D(r) == rr
  {
    D2DRoundedRect(RectToD2D(rr.rect), rr.radius.x, rr.radius.y)
  }

  /** Every type that implements `Fill` or `Stroke`. */
  datatype Shape =
    | LineShape(line: Line)
    | RectShape(rect: Rect)
    | EllipseShape(ellipse: Ellipse)
    | CircleShape(circle: Circle)
    | RoundedRectShape(roundedRect: RoundedRect)
    /** `FilledPath` or `HollowPath` of src/path.rs. */
    | PathShape(path: Path.ClosedGeometry)
    /** `Path` of mltg/src/path.rs. */
    | LegacyPathShape(legacy: LegacyPath.LegacyGeometry)

  /** The shapes that implement `Fill`: all but a line and a hollow path.
      Every shape implements `Stroke`. */
  predicate Fillable(s: Shape)
  {
    match s
    case LineShape(_) => false
    case PathShape(p) => p.kind == Path.FilledPath
    case _ => true
  }

  /** The geometry handle of a path shape. */
  function GeometryOf(s: Shape): Handle
    requires s.PathShape? || s.LegacyPathShape?
  {
    if s.PathShape? then s.path.geometry else s.legacy.geometry
  }

  /** Whether a device-context call paints with `brush` (every fill and draw call). */
  predicate UsesBrush(c: DcCall, brush: Handle)
  {
    match c
    case FillRectangle(_, b) => b == brush
    case DrawRectangle(_, b, _, _) => b == brush
    case FillEllipse(_, b) => b == brush
    case DrawEllipse(_, b, _, _) => b == brush
    case FillRoundedRectangle(_, b) => b == brush
    case DrawRoundedRectangle(_, b, _, _) => b == brush
    case DrawLine(_, _, b, _, _) => b == brush
    case FillGeometry(_, b) => b == brush
    case DrawGeometry(_, b, _, _) => b == brush
    case _ => false
  }

  /** `Fill::fill`: the one fill call of the shape's own kind, with its
      geometry converted as in the conversions above. */
  function FillCall(s: Shape, brush: Handle): (c: DcCall)
    requires Fillable(s)
    ensures UsesBrush(c, brush)
    ensures c.FillRectangle? <==> s.RectShape?
    ensures c.FillEllipse? <==> s.EllipseShape? || s.CircleShape?
    ensures c.FillRoundedRectangle? <==> s.RoundedRectShape?
    ensures c.FillGeometry? <==> s.PathShape? || s.LegacyPathShape?
    ensures s.RectShape? ==> RectFromD2D(c.rect) == s.rect
    ensures s.EllipseShape? ==> EllipseFromD2D(c.ellipse) == s.ellipse
    ensures s.CircleShape? ==> c.ellipse == CircleToD2D(s.circle)
    ensures s.RoundedRectShape? ==> RoundedRectFromD2D(c.roundedRect) == s.roundedRect
    ensures c.FillGeometry? ==> c.geometry == GeometryOf(s)
  {
    match s
    case RectShape(rc) => FillRectangle(RectToD2D(rc), brush)
    case EllipseShape(e) => FillEllipse(EllipseToD2D(e), brush)
    case CircleShape(ci) => FillEllipse(CircleToD2D(ci), brush)
    case RoundedRectShape(rr) => FillRoundedRectangle(RoundedRectToD2D(rr), brush)
    case PathShape(p) => FillGeometry(p.geometry, brush)
    case LegacyPathShape(p) => FillGeometry(p.geometry, brush)
  }

  /** The stroke width and style a draw call carries. */
  predicate StrokesWith(c: DcCall, width: F32, style: Option<Handle>)
  {
    match c
    case DrawRectangle(_, _, w, st) => w == width && st == style
    case DrawEllipse(_, _, w, st) => w == width && st == style
    case DrawRoundedRectangle(_, _, w, st) => w == width && st == style
    case DrawLine(_, _, _, w, st) => w == width && st == style
    case DrawGeometry(_, _, w, st) => w == width && st == style
    case _ => false
  }

  /** `Stroke::stroke`: the one draw call of the shape's own kind, carrying
      the brush, width and style unchanged. */
  function StrokeCall(s: Shape, brush: Handle, width: F32, style: Option<Handle>): (c: DcCall)
    ensures UsesBrush(c, brush) && StrokesWith(c, width, style)
    ensures c.DrawLine? <==> s.LineShape?
    ensures c.DrawRectangle? <==> s.RectShape?
    ensures c.DrawEllipse? <==> s.EllipseShape? || s.CircleShape?
    ensures c.DrawRoundedRectangle? <==> s.RoundedRectShape?
    ensures c.DrawGeometry? <==> s.PathShape? || s.LegacyPathShape?
    ensures s.LineShape? ==> PointFromD2D(c.p0) == s.line.p0 && PointFromD2D(c.p1) == s.line.p1
    ensures s.RectShape? ==> RectFromD2D(c.rect) == s.rect
    ensures s.EllipseShape? ==> EllipseFromD2D(c.ellipse) == s.ellipse
    ensures s.CircleShape? ==> c.ellipse == CircleToD2D(s.circle)
    ensures s.RoundedRectShape? ==> RoundedRectFromD2D(c.roundedRect) == s.roundedRect
    ensures c.DrawGeometry? ==> c.geometry == GeometryOf(s)
  {
    match s
    case LineShape(l) => DrawLine(PointToD2D(l.p0), PointToD2D(l.p1), brush, width, style)
    case RectShape(rc) => DrawRectangle(RectToD2D(rc), brush, width, style)
    case EllipseShape(e) => DrawEllipse(EllipseToD2D(e), brush, width, style)
    case CircleShape(ci) => DrawEllipse(CircleToD2D(ci), brush, width, style)
    case RoundedRectShape(rr) => DrawRoundedRectangle(RoundedRectToD2D(rr), brush, width, style)
    case PathShape(p) => DrawGeometry(p.geometry, brush, width, style)
    case LegacyPathShape(p) => DrawGeometry(p.geometry, brush, width, style)
  }

  /** A path can be filled exactly when it was built as a FilledPath; the
      older single-kind path can always be filled; a line never can. */
  lemma PathFillability(p: Path.ClosedGeometry, q: LegacyPath.LegacyGeometry)
    ensures Fillable(PathShape(p)) <==> p.kind == Path.FilledPath
    ensures Fillable(LegacyPathShape(q))
    ensures forall l :: !Fillable(LineShape(l))
  {
  }

  /** A fill and a stroke of the same fillable shape are different calls on
      the same geometry with the same brush. */
  lemma FillAndStrokeAgree(s: Shape, brush: Handle, width: F32, style: Option<Handle>)
    requires Fillable(s)
    ensures var f := FillCall(s, brush); var d := StrokeCall(s, brush, width, style);
      f != d && UsesBrush(f, brush) && UsesBrush(d, brush)
      && (s.RectShape? ==> f.rect == d.rect)
      && (s.EllipseShape? || s.CircleShape? ==> f.ellipse == d.ellipse)
      && (s.RoundedRectShape? ==> f.roundedRect == d.roundedRect)
      && (s.PathShape? || s.LegacyPathShape? ==> f.geometry == d.geometry)
  {
  }
}
