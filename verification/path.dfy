/** The type-state path builder of src/path.rs.

    `PathBuilder` (no open figure) and `Figure` (an open figure) are distinct
    datatypes, so a segment can only be added to a figure and only a builder
    can be closed, as in the source. The builder's type parameter
    (`FilledPath` or `HollowPath`) is the `kind` field. The geometry sink is
    the trace of calls made on it; the path geometry is an opaque handle.
 */
module Path {

  import opened Geometry
  import opened Sink
  import opened Results
  import Errors

  datatype PathKind = FilledPath | HollowPath

  /** The figure-begin flag each kind of builder passes to `BeginFigure`. */
  function BeginFor(kind: PathKind): FigureBegin
  {
    match kind
    case FilledPath => BeginFilled
    case HollowPath => BeginHollow
  }

  datatype PathBuilder = PathBuilder(kind: PathKind, geometry: nat, sink: seq<SinkEvent>)
  datatype Figure = Figure(kind: PathKind, geometry: nat, sink: seq<SinkEvent>)

  /** A closed path (`FilledPath` or `HollowPath`) over its geometry; `sink`
      is the record of how the geometry was built. */
  datatype ClosedGeometry = ClosedGeometry(kind: PathKind, geometry: nat, sink: seq<SinkEvent>)

  ghost predicate ValidBuilder(b: PathBuilder)
  {
    Complete(b.sink) && BeginsAre(b.sink, BeginFor(b.kind))
  }

  ghost predicate ValidFigure(f: Figure)
  {
    InFigure(f.sink) && BeginsAre(f.sink, BeginFor(f.kind))
  }

  ghost predicate ValidPath(p: ClosedGeometry)
  {
    ClosedPath(p.sink) && BeginsAre(p.sink, BeginFor(p.kind))
  }

  /** `PathBuilder::new`: opens the geometry's sink (`open` is the platform's
      answer) and starts with no figure. */
  function NewBuilder(kind: PathKind, geometry: nat, open: Result<(), Errors.PlatformError>)
    : (r: Result<PathBuilder, Errors.Error>)
    ensures r.Ok? <==> open.Ok?
    ensures r.Ok? ==> r.value.kind == kind && r.value.geometry == geometry && r.value.sink == []
    ensures r.Ok? ==> ValidBuilder(r.value)
    ensures open.Err? ==> r.error == Errors.FromPlatform(open.error)
  {
    match open
    case Ok(_) => Ok(PathBuilder(kind, geometry, []))
    case Err(e) => Err(Errors.FromPlatform(e))
  }

  /** `begin` of `PathBuilder<FilledPath>` and `PathBuilder<HollowPath>`:
      one `BeginFigure` at the start point, FILLED or HOLLOW by kind. */
  function Begin(b: PathBuilder, start: Point): (f: Figure)
    ensures f.kind == b.kind && f.geometry == b.geometry
    ensures f.sink == b.sink + [BeginFigure(PointToD2D(start), BeginFor(b.kind))]
    ensures f.sink[|b.sink|].begin == (if b.kind == FilledPath then BeginFilled else BeginHollow)
    ensures ValidBuilder(b) ==> ValidFigure(f)
  {
    var e := BeginFigure(PointToD2D(start), BeginFor(b.kind));
    AppendBegin(b.sink, e.start, BeginFor(b.kind));
    Figure(b.kind, b.geometry, b.sink + [e])
  }

  /** Adds one segment event to an open figure. */
  function AddSegment(f: Figure, e: SinkEvent): (r: Figure)
    requires IsSegment(e)
    ensures r.kind == f.kind && r.geometry == f.geometry && r.sink == f.sink + [e]
    ensures ValidFigure(f) ==> ValidFigure(r)
  {
    AppendSegment(f.sink, e, BeginFor(f.kind));
    Figure(f.kind, f.geometry, f.sink + [e])
  }

  /** `Figure::line_to`. */
  function LineTo(f: Figure, point: Point): (r: Figure)
    ensures r.kind == f.kind && r.geometry == f.geometry
    ensures r.sink == f.sink + [AddLine(PointToD2D(point))]
    ensures PointFromD2D(r.sink[|f.sink|].point) == point
    ensures ValidFigure(f) ==> ValidFigure(r)
  {
    AddSegment(f, AddLine(PointToD2D(point)))
  }

  /** `Figure::lines`: the points slice is reinterpreted as platform points,
      so one `AddLines` carries every point in order. */
  function Lines(f: Figure, points: seq<Point>): (r: Figure)
    ensures r.kind == f.kind && r.geometry == f.geometry
    ensures |r.sink| == |f.sink| + 1 && r.sink[..|f.sink|] == f.sink
    ensures r.sink[|f.sink|].AddLines?
    ensures |r.sink[|f.sink|].points| == |points|
    ensures forall i | 0 <= i < |points| :: PointFromD2D(r.sink[|f.sink|].points[i]) == points[i]
    ensures ValidFigure(f) ==> ValidFigure(r)
  {
    AddSegment(f, AddLines(seq(|points|, i requires 0 <= i < |points| => PointToD2D(points[i]))))
  }

  /** `Figure::quadratic_bezier_to`: control point, then end point. */
  function QuadraticBezierTo(f: Figure, ctrl: Point, to: Point): (r: Figure)
    ensures r.kind == f.kind && r.geometry == f.geometry
    ensures r.sink == f.sink + [AddQuadraticBezier(QuadraticToD2D(QuadraticBezierSegment(ctrl, to)))]
    ensures ValidFigure(f) ==> ValidFigure(r)
  {
    AddSegment(f, AddQuadraticBezier(D2DQuadraticSegment(PointToD2D(ctrl), PointToD2D(to))))
  }

  /** `Figure::quadratic_beziers`: one `AddQuadraticBeziers` with every segment in order. */
  function QuadraticBeziers(f: Figure, segments: seq<QuadraticBezierSegment>): (r: Figure)
    ensures r.kind == f.kind && r.geometry == f.geometry
    ensures |r.sink| == |f.sink| + 1 && r.sink[..|f.sink|] == f.sink
    ensures r.sink[|f.sink|].AddQuadraticBeziers?
    ensures |r.sink[|f.sink|].quadratics| == |segments|
    ensures forall i | 0 <= i < |segments| ::
      r.sink[|f.sink|].quadratics[i] == QuadraticToD2D(segments[i])
    ensures ValidFigure(f) ==> ValidFigure(r)
  {
    AddSegment(f, AddQuadraticBeziers(
      seq(|segments|, i requires 0 <= i < |segments| => QuadraticToD2D(segments[i]))))
  }

  /** `Figure::cubic_bezier_to`: two control points, then end point. */
  function CubicBezierTo(f: Figure, c0: Point, c1: Point, to: Point): (r: Figure)
    ensures r.kind == f.kind && r.geometry == f.geometry
    ensures r.sink == f.sink + [AddBezier(CubicToD2D(CubicBezierSegment(c0, c1, to)))]
    ensures ValidFigure(f) ==> ValidFigure(r)
  {
    AddSegment(f, AddBezier(D2DBezierSegment(PointToD2D(c0), PointToD2D(c1), PointToD2D(to))))
  }

  /** `Figure::cubic_beziers`: one `AddBeziers` with every segment in order. */
  function CubicBeziers(f: Figure, segments: seq<CubicBezierSegment>): (r: Figure)
    ensures r.kind == f.kind && r.geometry == f.geometry
    ensures |r.sink| == |f.sink| + 1 && r.sink[..|f.sink|] == f.sink
    ensures r.sink[|f.sink|].AddBeziers?
    ensures |r.sink[|f.sink|].cubics| == |segments|
    ensures forall i | 0 <= i < |segments| :: r.sink[|f.sink|].cubics[i] == CubicToD2D(segments[i])
    ensures ValidFigure(f) ==> ValidFigure(r)
  {
    AddSegment(f, AddBeziers(seq(|segments|, i requires 0 <= i < |segments| => CubicToD2D(segments[i]))))
  }

  /** `Figure::end`: exactly one `EndFigure` with the given flag; always `Ok`,
      with a builder of the same kind over the same geometry. */
  function End(f: Figure, end: FigureEnd): (r: Result<PathBuilder, Errors.Error>)
    ensures r.Ok?
    ensures r.value.kind == f.kind && r.value.geometry == f.geometry
    ensures r.value.sink == f.sink + [EndFigure(end)]
    ensures ValidFigure(f) ==> ValidBuilder(r.value)
  {
    AppendEnd(f.sink, end, BeginFor(f.kind));
    Ok(PathBuilder(f.kind, f.geometry, f.sink + [EndFigure(end)]))
  }

  /** `close` of either builder: one `Close` on the sink (`closed` is its
      answer), then a path of the builder's kind over the same geometry. */
  function ClosePath(b: PathBuilder, closed: Result<(), Errors.PlatformError>)
    : (r: Result<ClosedGeometry, Errors.Error>)
    ensures r.Ok? <==> closed.Ok?
    ensures r.Ok? ==> r.value.kind == b.kind && r.value.geometry == b.geometry
    ensures r.Ok? ==> r.value.sink == b.sink + [Close]
    ensures r.Ok? && ValidBuilder(b) ==> ValidPath(r.value)
    ensures closed.Err? ==> r.error == Errors.FromPlatform(closed.error)
  {
    match closed
    case Err(e) => Err(Errors.FromPlatform(e))
    case Ok(_) =>
      AppendClose(b.sink, BeginFor(b.kind));
      Ok(ClosedGeometry(b.kind, b.geometry, b.sink + [Close]))
  }

  // A client program of the builder: figures described as calls.

  datatype SegmentCall =
    | LineToCall(point: Point)
    | LinesCall(points: seq<Point>)
    | QuadraticCall(ctrl: Point, to: Point)
    | QuadraticsCall(quadratics: seq<QuadraticBezierSegment>)
    | CubicCall(c0: Point, c1: Point, to: Point)
    | CubicsCall(cubics: seq<CubicBezierSegment>)

  datatype FigureCall = FigureCall(start: Point, segments: seq<SegmentCall>, end: FigureEnd)

  function ApplySegment(f: Figure, s: SegmentCall): (r: Figure)
    ensures r.kind == f.kind && r.geometry == f.geometry
    ensures ValidFigure(f) ==> ValidFigure(r)
  {
    match s
    case LineToCall(p) => LineTo(f, p)
    case LinesCall(ps) => Lines(f, ps)
    case QuadraticCall(c, t) => QuadraticBezierTo(f, c, t)
    case QuadraticsCall(qs) => QuadraticBeziers(f, qs)
    case CubicCall(c0, c1, t) => CubicBezierTo(f, c0, c1, t)
    case CubicsCall(cs) => CubicBeziers(f, cs)
  }

  function ApplySegments(f: Figure, ss: seq<SegmentCall>): Figure
    decreases |ss|
  {
    if |ss| == 0 then f else ApplySegments(ApplySegment(f, ss[0]), ss[1..])
  }

  /** Runs a whole client program against a builder: each figure is begun,
      given its segments and ended, in order. */
  function Replay(b: PathBuilder, figures: seq<FigureCall>): PathBuilder
    decreases |figures|
  {
    if |figures| == 0 then b
    else
      var fig := figures[0];
      var f := ApplySegments(Begin(b, fig.start), fig.segments);
      Replay(End(f, fig.end).value, figures[1..])
  }

  lemma {:induction false} ApplySegmentsKeepsFigureOpen(f: Figure, ss: seq<SegmentCall>)
    requires ValidFigure(f)
    ensures var r := ApplySegments(f, ss);
      ValidFigure(r) && r.kind == f.kind && r.geometry == f.geometry
    decreases |ss|
  {
    if |ss| > 0 {
      ApplySegmentsKeepsFigureOpen(ApplySegment(f, ss[0]), ss[1..]);
    }
  }

  /** Every program the API accepts, from a valid builder of either kind,
      followed by `close`, leaves a sink trace of the shape
      (Begin segment* End)* Close in which every figure begins with the
      builder's kind. */
  lemma {:induction false} ReachableTracesAreWellBracketed(
    b: PathBuilder, figures: seq<FigureCall>, closed: Result<(), Errors.PlatformError>)
    requires ValidBuilder(b)
    ensures var p := ClosePath(Replay(b, figures), closed);
      p.Ok? ==> ValidPath(p.value) && p.value.kind == b.kind && p.value.geometry == b.geometry
    decreases |figures|
  {
    if |figures| > 0 {
      var fig := figures[0];
      var f := ApplySegments(Begin(b, fig.start), fig.segments);
      ApplySegmentsKeepsFigureOpen(Begin(b, fig.start), fig.segments);
      ReachableTracesAreWellBracketed(End(f, fig.end).value, figures[1..], closed);
    }
  }

  /** From a fresh builder, every program's closed trace is accepted by the
      sink automaton and ends in its single `Close`. */
  lemma ReachableTracesAreAccepted(kind: PathKind, geometry: nat, figures: seq<FigureCall>,
                                   closed: Result<(), Errors.PlatformError>)
    ensures var p := ClosePath(Replay(PathBuilder(kind, geometry, []), figures), closed);
      p.Ok? ==> Scan(p.value.sink) == Done && p.value.sink[|p.value.sink| - 1] == Close
  {
    var b := PathBuilder(kind, geometry, []);
    ReachableTracesAreWellBracketed(b, figures, closed);
    var p := ClosePath(Replay(b, figures), closed);
    if p.Ok? {
      GrammarMatchesAutomaton(p.value.sink);
    }
  }
}
