/** The vocabulary of a Direct2D geometry sink, shared by both revisions of
    the path builder, and the shape every sink trace must have.

    A sink receives `BeginFigure`, segments and `EndFigure` calls, and
    finally one `Close`. A well-formed trace has the shape
    (Begin segment* End)* Close. The shape is stated twice: as a grammar
    (`Complete`, `InFigure`, `ClosedPath`) and as a four-state automaton
    (`Scan`), and `GrammarMatchesAutomaton` proves the two agree.
 */
module Sink {

  import opened Geometry

  /** `D2D1_FIGURE_BEGIN`. */
  datatype FigureBegin = BeginFilled | BeginHollow

  /** `FigureEnd`, with the values of `D2D1_FIGURE_END`. */
  datatype FigureEnd = Open | Closed

  function FigureBeginCode(b: FigureBegin): nat
  {
    match b
    case BeginFilled => 0
    case BeginHollow => 1
  }

  function FigureEndCode(e: FigureEnd): nat
  {
    match e
    case Open => 0
    case Closed => 1
  }

  /** `QuadraticBezierSegment` and `CubicBezierSegment` of the crate. */
  datatype QuadraticBezierSegment = QuadraticBezierSegment(ctrl: Point, to: Point)
  datatype CubicBezierSegment = CubicBezierSegment(c0: Point, c1: Point, to: Point)

  /** `D2D1_QUADRATIC_BEZIER_SEGMENT` and `D2D1_BEZIER_SEGMENT`. */
  datatype D2DQuadraticSegment = D2DQuadraticSegment(point1: D2DPoint, point2: D2DPoint)
  datatype D2DBezierSegment = D2DBezierSegment(point1: D2DPoint, point2: D2DPoint, point3: D2DPoint)

  /** The crate's segment structs are `repr(C)` copies of the platform ones:
      control point(s) first, end point last. */
  function QuadraticToD2D(s: QuadraticBezierSegment): (r: D2DQuadraticSegment)
    ensures PointFromD2D(r.point1) == s.ctrl && PointFromD2D(r.point2) == s.to
  {
    D2DQuadraticSegment(PointToD2D(s.ctrl), PointToD2D(s.to))
  }

  function CubicToD2D(s: CubicBezierSegment): (r: D2DBezierSegment)
    ensures PointFromD2D(r.point1) == s.c0 && PointFromD2D(r.point2) == s.c1
    ensures PointFromD2D(r.point3) == s.to
  {
    D2DBezierSegment(PointToD2D(s.c0), PointToD2D(s.c1), PointToD2D(s.to))
  }

  /** One call on an `ID2D1GeometrySink`. */
  datatype SinkEvent =
    | BeginFigure(start: D2DPoint, begin: FigureBegin)
    | AddLine(point: D2DPoint)
    | AddLines(points: seq<D2DPoint>)
    | AddQuadraticBezier(quadratic: D2DQuadraticSegment)
    | AddQuadraticBeziers(quadratics: seq<D2DQuadraticSegment>)
    | AddBezier(cubic: D2DBezierSegment)
    | AddBeziers(cubics: seq<D2DBezierSegment>)
    | EndFigure(end: FigureEnd)
    | Close

  predicate IsSegment(e: SinkEvent)
  {
    e.AddLine? || e.AddLines? || e.AddQuadraticBezier? || e.AddQuadraticBeziers?
    || e.AddBezier? || e.AddBeziers?
  }

  // The grammar, read from the right end of the trace.

  /** Zero or more whole figures: (Begin segment* End)*. */
  predicate Complete(t: seq<SinkEvent>)
    decreases |t|
  {
    |t| == 0 || (t[|t| - 1].EndFigure? && InFigure(t[..|t| - 1]))
  }

  /** Whole figures followed by one open figure: (Begin segment* End)* Begin segment*. */
  predicate InFigure(t: seq<SinkEvent>)
    decreases |t|
  {
    |t| > 0 &&
    ((IsSegment(t[|t| - 1]) && InFigure(t[..|t| - 1]))
     || (t[|t| - 1].BeginFigure? && Complete(t[..|t| - 1])))
  }

  /** A finished sink trace: (Begin segment* End)* Close. */
  predicate ClosedPath(t: seq<SinkEvent>)
  {
    |t| > 0 && t[|t| - 1] == Close && Complete(t[..|t| - 1])
  }

  /** Every figure of the trace begins with the given kind. */
  predicate BeginsAre(t: seq<SinkEvent>, b: FigureBegin)
  {
    forall i | 0 <= i < |t| :: t[i].BeginFigure? ==> t[i].begin == b
  }

  // The automaton.

  datatype Phase = Idle | Drawing | Done | Broken

  function Next(p: Phase, e: SinkEvent): Phase
  {
    match p
    case Idle => if e.BeginFigure? then Drawing else if e == Close then Done else Broken
    case Drawing => if IsSegment(e) then Drawing else if e.EndFigure? then Idle else Broken
    case Done => Broken
    case Broken => Broken
  }

  /** The phase the automaton is in after reading `t` from `Idle`. */
  function Scan(t: seq<SinkEvent>): Phase
    decreases |t|
  {
    if |t| == 0 then Idle else Next(Scan(t[..|t| - 1]), t[|t| - 1])
  }

  lemma {:induction false} GrammarMatchesAutomaton(t: seq<SinkEvent>)
    ensures Complete(t) <==> Scan(t) == Idle
    ensures InFigure(t) <==> Scan(t) == Drawing
    ensures ClosedPath(t) <==> Scan(t) == Done
    decreases |t|
  {
    if |t| > 0 {
      GrammarMatchesAutomaton(t[..|t| - 1]);
    }
  }

  /** Appending one event to a trace: the prefix is the old trace. */
  lemma Snoc(t: seq<SinkEvent>, e: SinkEvent)
    ensures (t + [e])[..|t|] == t && (t + [e])[|t|] == e
  {
  }

  /** Adding a segment keeps a figure open. */
  lemma AppendSegment(t: seq<SinkEvent>, e: SinkEvent, b: FigureBegin)
    requires IsSegment(e)
    ensures InFigure(t) && BeginsAre(t, b) ==> InFigure(t + [e]) && BeginsAre(t + [e], b)
  {
    Snoc(t, e);
  }

  /** Beginning a figure after whole figures opens one. */
  lemma AppendBegin(t: seq<SinkEvent>, start: D2DPoint, b: FigureBegin)
    ensures Complete(t) && BeginsAre(t, b) ==>
      InFigure(t + [BeginFigure(start, b)]) && BeginsAre(t + [BeginFigure(start, b)], b)
  {
    Snoc(t, BeginFigure(start, b));
  }

  /** Ending an open figure leaves whole figures. */
  lemma AppendEnd(t: seq<SinkEvent>, end: FigureEnd, b: FigureBegin)
    ensures InFigure(t) && BeginsAre(t, b) ==>
      Complete(t + [EndFigure(end)]) && BeginsAre(t + [EndFigure(end)], b)
  {
    Snoc(t, EndFigure(end));
  }

  /** Closing after whole figures finishes the trace. */
  lemma AppendClose(t: seq<SinkEvent>, b: FigureBegin)
    ensures Complete(t) && BeginsAre(t, b) ==> ClosedPath(t + [Close]) && BeginsAre(t + [Close], b)
  {
    Snoc(t, Close);
  }

  /** A closed trace cannot be extended into another closed trace: nothing may
      follow `Close`. */
  lemma {:induction false} NothingAfterClose(t: seq<SinkEvent>, more: seq<SinkEvent>)
    requires ClosedPath(t) && |more| > 0
    ensures Scan(t + more) == Broken
    decreases |more|
  {
    GrammarMatchesAutomaton(t);
    var u := t + more;
    assert u[..|u| - 1] == t + more[..|more| - 1];
    if |more| > 1 {
      NothingAfterClose(t, more[..|more| - 1]);
    } else {
      assert u[..|u| - 1] == t;
    }
  }
}
