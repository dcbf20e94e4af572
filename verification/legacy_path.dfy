/** The older, single-kind path builder of mltg/src/path.rs.

    There is one `PathBuilder` and one `Figure`; every figure begins FILLED,
    there are no batch segment methods, and the platform failures that the
    later revision returns as errors are unwrapped here, so they panic.
 */
module LegacyPath {

  import opened Geometry
  import opened Sink
  import opened Results
  import Errors

  datatype PathBuilder = PathBuilder(geometry: nat, sink: seq<SinkEvent>)
  datatype Figure = Figure(geometry: nat, sink: seq<SinkEvent>)

  /** `Path`: a closed geometry that supports both fill and stroke. */
  datatype LegacyGeometry = LegacyGeometry(geometry: nat, sink: seq<SinkEvent>)

  ghost predicate ValidBuilder(b: PathBuilder)
  {
    Complete(b.sink) && BeginsAre(b.sink, BeginFilled)
  }

  ghost predicate ValidFigure(f: Figure)
  {
    InFigure(f.sink) && BeginsAre(f.sink, BeginFilled)
  }

  /** `PathBuilder::new`: `Open` on the geometry is unwrapped. */
  function NewBuilder(geometry: nat, open: Result<(), Errors.PlatformError>): (r: Outcome<PathBuilder>)
    ensures r.Returned? <==> open.Ok?
    ensures r.Returned? ==> r.value.geometry == geometry && r.value.sink == [] && ValidBuilder(r.value)
  {
    match Unwrap(open)
    case Returned(_) => Returned(PathBuilder(geometry, []))
    case Panicked => Panicked
  }

  /** `PathBuilder::begin`: always a FILLED figure. */
  function Begin(b: PathBuilder, point: Point): (f: Figure)
    ensures f.geometry == b.geometry
    ensures f.sink == b.sink + [BeginFigure(PointToD2D(point), BeginFilled)]
    ensures ValidBuilder(b) ==> ValidFigure(f)
  {
    AppendBegin(b.sink, PointToD2D(point), BeginFilled);
    Figure(b.geometry, b.sink + [BeginFigure(PointToD2D(point), BeginFilled)])
  }

  function AddSegment(f: Figure, e: SinkEvent): (r: Figure)
    requires IsSegment(e)
    ensures r.geometry == f.geometry && r.sink == f.sink + [e]
    ensures ValidFigure(f) ==> ValidFigure(r)
  {
    AppendSegment(f.sink, e, BeginFilled);
    Figure(f.geometry, f.sink + [e])
  }

  /** `Figure::line_to`. */
  function LineTo(f: Figure, point: Point): (r: Figure)
    ensures r.geometry == f.geometry
    ensures r.sink == f.sink + [AddLine(PointToD2D(point))]
    ensures ValidFigure(f) ==> ValidFigure(r)
  {
    AddSegment(f, AddLine(PointToD2D(point)))
  }

  /** `Figure::quadratic_bezier_to`: control point, then end point. */
  function QuadraticBezierTo(f: Figure, ctrl: Point, to: Point): (r: Figure)
    ensures r.geometry == f.geometry
    ensures r.sink == f.sink + [AddQuadraticBezier(QuadraticToD2D(QuadraticBezierSegment(ctrl, to)))]
    ensures ValidFigure(f) ==> ValidFigure(r)
  {
    AddSegment(f, AddQuadraticBezier(D2DQuadraticSegment(PointToD2D(ctrl), PointToD2D(to))))
  }

  /** `Figure::cubic_bezier_to`: two control points, then end point. */
  function CubicBezierTo(f: Figure, c0: Point, c1: Point, to: Point): (r: Figure)
    ensures r.geometry == f.geometry
    ensures r.sink == f.sink + [AddBezier(CubicToD2D(CubicBezierSegment(c0, c1, to)))]
    ensures ValidFigure(f) ==> ValidFigure(r)
  {
    AddSegment(f, AddBezier(D2DBezierSegment(PointToD2D(c0), PointToD2D(c1), PointToD2D(to))))
  }

  /** `Figure::end`: one `EndFigure` with the given flag, and a builder back. */
  function End(f: Figure, t: FigureEnd): (r: PathBuilder)
    ensures r.geometry == f.geometry
    ensures r.sink == f.sink + [EndFigure(t)]
    ensures ValidFigure(f) ==> ValidBuilder(r)
  {
    AppendEnd(f.sink, t, BeginFilled);
    PathBuilder(f.geometry, f.sink + [EndFigure(t)])
  }

  /** `PathBuilder::build`: closes the sink, panicking if `Close` fails, and
      returns a path over the same geometry. */
  function Build(b: PathBuilder, closed: Result<(), Errors.PlatformError>): (r: Outcome<LegacyGeometry>)
    ensures r.Returned? <==> closed.Ok?
    ensures r.Returned? ==> r.value.geometry == b.geometry && r.value.sink == b.sink + [Close]
    ensures r.Returned? && ValidBuilder(b) ==>
      ClosedPath(r.value.sink) && BeginsAre(r.value.sink, BeginFilled)
  {
    match Unwrap(closed)
    case Panicked => Panicked
    case Returned(_) =>
      AppendClose(b.sink, BeginFilled);
      Returned(LegacyGeometry(b.geometry, b.sink + [Close]))
  }

  datatype SegmentCall =
    | LineToCall(point: Point)
    | QuadraticCall(ctrl: Point, to: Point)
    | CubicCall(c0: Point, c1: Point, to: Point)

  datatype FigureCall = FigureCall(start: Point, segments: seq<SegmentCall>, end: FigureEnd)

  function ApplySegment(f: Figure, s: SegmentCall): (r: Figure)
    ensures r.geometry == f.geometry
    ensures ValidFigure(f) ==> ValidFigure(r)
  {
    match s
    case LineToCall(p) => LineTo(f, p)
    case QuadraticCall(c, t) => QuadraticBezierTo(f, c, t)
    case CubicCall(c0, c1, t) => CubicBezierTo(f, c0, c1, t)
  }

  function ApplySegments(f: Figure, ss: seq<SegmentCall>): Figure
    decreases |ss|
  {
    if |ss| == 0 then f else ApplySegments(ApplySegment(f, ss[0]), ss[1..])
  }

  function Replay(b: PathBuilder, figures: seq<FigureCall>): PathBuilder
    decreases |figures|
  {
    if |figures| == 0 then b
    else
      var fig := figures[0];
      Replay(End(ApplySegments(Begin(b, fig.start), fig.segments), fig.end), figures[1..])
  }

  lemma {:induction false} ApplySegmentsKeepsFigureOpen(f: Figure, ss: seq<SegmentCall>)
    requires ValidFigure(f)
    ensures ValidFigure(ApplySegments(f, ss)) && ApplySegments(f, ss).geometry == f.geometry
    decreases |ss|
  {
    if |ss| > 0 {
      ApplySegmentsKeepsFigureOpen(ApplySegment(f, ss[0]), ss[1..]);
    }
  }

  /** Every program the older API accepts, if `build` returns, leaves a sink
      trace of the shape (Begin segment* End)* Close with only FILLED figures. */
  lemma {:induction false} ReachableTracesAreWellBracketed(
    b: PathBuilder, figures: seq<FigureCall>, closed: Result<(), Errors.PlatformError>)
    requires ValidBuilder(b)
    ensures var p := Build(Replay(b, figures), closed);
      p.Returned? ==>
        ClosedPath(p.value.sink) && BeginsAre(p.value.sink, BeginFilled) && p.value.geometry == b.geometry
    decreases |figures|
  {
    if |figures| > 0 {
      var fig := figures[0];
      ApplySegmentsKeepsFigureOpen(Begin(b, fig.start), fig.segments);
      ReachableTracesAreWellBracketed(
        End(ApplySegments(Begin(b, fig.start), fig.segments), fig.end), figures[1..], closed);
    }
  }
}
