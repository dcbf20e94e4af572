/** The drawing commands a `draw` callback issues through `DrawCommand`,
    in both revisions of the library (src/context.rs and
    mltg/src/context.rs), and the device-context calls each one makes.

    A callback is modelled by the commands it issues, in order; a nested
    `clip` callback is the body of a `ClipCmd`. */
module Commands {

  import opened Geometry
  import opened Results
  import opened Platform
  import Shapes
  import Brush
  import StrokeStyle
  import Errors

  /** The current revision (src/) and the older one (mltg/src/). */
  datatype Revision = Current | Older

  datatype Interpolation = NearestNeighbor | Linear | Cubic | MultiSampleLinear | Anisotropic | HighQualityCubic

  /** D2D1_INTERPOLATION_MODE values (`Interpolation as _`). */
  function InterpolationCode(i: Interpolation): nat
  {
    match i
    case NearestNeighbor => 0
    case Linear => 1
    case Cubic => 2
    case MultiSampleLinear => 3
    case Anisotropic => 4
    case HighQualityCubic => 5
  }

  /** Distinct modes reach the platform as distinct codes in 0..5. */
  lemma InterpolationCodeInjective(a: Interpolation, b: Interpolation)
    ensures InterpolationCode(a) == InterpolationCode(b) <==> a == b
    ensures InterpolationCode(a) <= 5
  {
  }

  datatype Command =
    | ClearCmd(color: Rgba)
    | FillCmd(shape: Shapes.Shape, brush: Brush.Brush)
    | StrokeCmd(shape: Shapes.Shape, brush: Brush.Brush, width: F32, style: Option<StrokeStyle.Style>)
    | DrawImageCmd(image: Handle, dest: Rect, src: Option<Rect>, interpolation: Interpolation)
    /** `push_clip` and `pop_clip` (current revision only). */
    | PushClipCmd(rect: Rect)
    | PopClipCmd
    /** `clip(rect, f)`: `body` is what `f` issues. */
    | ClipCmd(rect: Rect, body: seq<Command>)
    /** `draw_text` (older revision only): `layout` is how creating the
        layout for the text answered. */
    | DrawTextCmd(created: Result<Handle, Errors.PlatformError>, brush: Brush.Brush, origin: Point)
    /** `draw_text_layout` (older revision only). */
    | DrawTextLayoutCmd(layout: Handle, brush: Brush.Brush, origin: Point)

  /** Whether a command exists in the revision's `DrawCommand` and its
      argument has the trait the method asks for (`fill` takes `impl Fill`). */
  predicate WellFormedOne(rev: Revision, c: Command)
  {
    match c
    case FillCmd(s, _) => Shapes.Fillable(s)
    case PushClipCmd(_) => rev == Current
    case PopClipCmd => rev == Current
    case ClipCmd(_, body) => WellFormed(rev, body)
    case DrawTextCmd(_, _, _) => rev == Older
    case DrawTextLayoutCmd(_, _, _) => rev == Older
    case _ => true
  }

  predicate WellFormed(rev: Revision, cs: seq<Command>)
  {
    if |cs| == 0 then true else WellFormedOne(rev, cs[0]) && WellFormed(rev, cs[1..])
  }

  /** Whether clips are only pushed and popped through `clip`, at every depth. */
  predicate StructuredOne(c: Command)
  {
    match c
    case PushClipCmd(_) => false
    case PopClipCmd => false
    case ClipCmd(_, body) => Structured(body)
    case _ => true
  }

  predicate Structured(cs: seq<Command>)
  {
    if |cs| == 0 then true else StructuredOne(cs[0]) && Structured(cs[1..])
  }

  function StyleHandle(style: Option<StrokeStyle.Style>): Option<Handle>
  {
    match style
    case None => None
    case Some(s) => Some(s.handle)
  }

  function SrcRect(src: Option<Rect>): Option<D2DRect>
  {
    match src
    case None => None
    case Some(rc) => Some(RectToD2D(rc))
  }

  /** `push_clip`: an axis-aligned clip, antialiased per primitive. */
  function PushClip(rect: Rect): (e: Event)
    ensures e.Dc? && e.call.PushAxisAlignedClip?
    ensures RectFromD2D(e.call.clip) == rect && e.call.antialias == ANTIALIAS_MODE_PER_PRIMITIVE
  {
    Dc(PushAxisAlignedClip(RectToD2D(rect), ANTIALIAS_MODE_PER_PRIMITIVE))
  }

  /** `pop_clip`. */
  const PopClip: Event := Dc(PopAxisAlignedClip)

  /** The calls one command makes. In the older revision an image and a
      text layout draw themselves (code that is not part of this model),
      and `draw_text` draws only when the layout could be created. */
  function ExecOne(rev: Revision, c: Command): (t: seq<Event>)
    requires WellFormedOne(rev, c)
    ensures DcOnly(t)
  {
    match c
    case ClearCmd(color) => [Dc(Clear(RgbaToD2D(color)))]
    case FillCmd(s, b) => [Dc(Shapes.FillCall(s, Brush.BrushHandle(b)))]
    case StrokeCmd(s, b, w, st) => [Dc(Shapes.StrokeCall(s, Brush.BrushHandle(b), w, StyleHandle(st)))]
    case DrawImageCmd(image, dest, src, i) =>
      if rev == Current then [Dc(DrawBitmap(image, RectToD2D(dest), 1.0, InterpolationCode(i), SrcRect(src)))]
      else [Dc(Delegated(image))]
    case PushClipCmd(rect) => [PushClip(rect)]
    case PopClipCmd => [PopClip]
    case ClipCmd(rect, body) => [PushClip(rect)] + Exec(rev, body) + [PopClip]
    case DrawTextCmd(layout, _, _) =>
      (match layout case Ok(h) => [Dc(Delegated(h))] case Err(_) => [])
    case DrawTextLayoutCmd(layout, _, _) => [Dc(Delegated(layout))]
  }

  /** The calls a callback makes: each command's calls, in order. */
  function Exec(rev: Revision, cs: seq<Command>): (t: seq<Event>)
    requires WellFormed(rev, cs)
    ensures DcOnly(t)
  {
    if |cs| == 0 then [] else ExecOne(rev, cs[0]) + Exec(rev, cs[1..])
  }

  /** `clip` of the current revision: pushes the clip, runs the body, pops
      the clip, and returns what the body returned. */
  function Clip<R>(rect: Rect, body: seq<Command>, value: R): (r: (seq<Event>, R))
    requires WellFormed(Current, body)
    ensures r.1 == value
    ensures r.0 == ExecOne(Current, ClipCmd(rect, body))
  {
    ([PushClip(rect)] + Exec(Current, body) + [PopClip], value)
  }

  /** A command that is not a clip makes exactly one call, except a
      `draw_text` whose layout could not be created, which makes none. */
  lemma OneCallPerCommand(rev: Revision, c: Command)
    requires WellFormedOne(rev, c) && !c.ClipCmd?
    ensures |ExecOne(rev, c)| == (if c.DrawTextCmd? && c.created.Err? then 0 else 1)
  {
  }

  /** A clip makes the body's calls between one push and one pop. */
  lemma ClipBrackets(rev: Revision, rect: Rect, body: seq<Command>)
    requires WellFormed(rev, body)
    ensures var t := ExecOne(rev, ClipCmd(rect, body));
      |t| == |Exec(rev, body)| + 2 && t[0] == PushClip(rect) && t[|t| - 1] == PopClip
      && t[1..|t| - 1] == Exec(rev, body)
  {
  }

  /** The older revision has no `push_clip` or `pop_clip`, so every callback
      it can express is structured. */
  lemma {:induction false} OlderIsStructured(cs: seq<Command>)
    requires WellFormed(Older, cs)
    ensures Structured(cs)
    decreases cs
  {
    if |cs| > 0 {
      OlderIsStructuredOne(cs[0]);
      OlderIsStructured(cs[1..]);
    }
  }

  lemma {:induction false} OlderIsStructuredOne(c: Command)
    requires WellFormedOne(Older, c)
    ensures StructuredOne(c)
    decreases c
  {
    if c.ClipCmd? {
      OlderIsStructured(c.body);
    }
  }

  /** A structured callback leaves the platform state exactly as it found
      it inside a frame: every clip it pushes, it pops. */
  lemma {:induction false} StructuredIsBalanced(rev: Revision, cs: seq<Command>, s: State)
    requires WellFormed(rev, cs) && Structured(cs) && s.drawing
    ensures Run(s, Exec(rev, cs)) == Some(s)
    decreases cs
  {
    if |cs| > 0 {
      StructuredIsBalancedOne(rev, cs[0], s);
      RunAppend(s, ExecOne(rev, cs[0]), Exec(rev, cs[1..]));
      StructuredIsBalanced(rev, cs[1..], s);
    }
  }

  lemma {:induction false} StructuredIsBalancedOne(rev: Revision, c: Command, s: State)
    requires WellFormedOne(rev, c) && StructuredOne(c) && s.drawing
    ensures Run(s, ExecOne(rev, c)) == Some(s)
    decreases c
  {
    if c.ClipCmd? {
      var pushed := s.(clips := s.clips + 1);
      var body := Exec(rev, c.body);
      assert Run(s, [PushClip(c.rect)]) == Some(pushed);
      StructuredIsBalanced(rev, c.body, pushed);
      RunAppend(s, [PushClip(c.rect)], body);
      assert Run(pushed, [PopClip]) == Some(s);
      RunAppend(s, [PushClip(c.rect)] + body, [PopClip]);
    } else {
      assert Run(s, ExecOne(rev, c)) == Some(s) by {
        var t := ExecOne(rev, c);
        if |t| > 0 {
          assert t[1..] == [];
        }
      }
    }
  }

  /** Hence a structured callback is legal inside any frame. */
  lemma StructuredIsLegal(rev: Revision, cs: seq<Command>)
    requires WellFormed(rev, cs) && Structured(cs)
    ensures LegalInFrame(Exec(rev, cs))
  {
    StructuredIsBalanced(rev, cs, State(multiset{}, Some(0), true, 0));
  }

  /** A bare `pop_clip` with nothing pushed is not legal: the clip
      discipline is the callback's responsibility in the current revision. */
  lemma UnmatchedPopIsIllegal()
    ensures WellFormed(Current, [PopClipCmd])
    ensures !LegalInFrame(Exec(Current, [PopClipCmd]))
  {
    assert Exec(Current, [PopClipCmd]) == [PopClip];
  }

  /** The calls `draw` makes around a callback in both revisions: bind the
      target bitmap, BeginDraw, the callback's calls, EndDraw, unbind. */
  function Frame(bitmap: Handle, body: seq<Event>): seq<Event>
  {
    [SetTarget(Some(bitmap)), BeginDraw] + body + [EndDraw, SetTarget(None)]
  }

  /** Outside a frame, a frame around a callback that is legal inside one
      runs, and leaves nothing bound and every wrapper as it was. */
  lemma FrameRun(s: State, bitmap: Handle, body: seq<Event>)
    requires !s.drawing && LegalInFrame(body)
    ensures Run(s, Frame(bitmap, body)) == Some(s.(bound := None, clips := 0))
  {
    var inFrame := s.(bound := Some(bitmap), drawing := true, clips := 0);
    var header := [SetTarget(Some(bitmap)), BeginDraw];
    var footer := [EndDraw, SetTarget(None)];
    assert Run(s, header) == Some(inFrame) by {
      assert header[1..] == [BeginDraw];
      assert Run(s.(bound := Some(bitmap)), [BeginDraw]) == Some(inFrame);
    }
    DcRunIndependent(inFrame, State(multiset{}, Some(0), true, 0), body);
    DcRunKeepsFrame(inFrame, body);
    var inner := Run(inFrame, body).value;
    assert Run(inner, footer) == Some(s.(bound := None, clips := 0)) by {
      assert footer[1..] == [SetTarget(None)];
    }
    RunAppend(s, header, body);
    RunAppend(s, header + body, footer);
  }

  /** If EndDraw is the last call made, the frame is closed but the target
      is still bound. */
  lemma FrameWithoutUnbindRun(s: State, bitmap: Handle, body: seq<Event>)
    requires !s.drawing && LegalInFrame(body)
    ensures Run(s, [SetTarget(Some(bitmap)), BeginDraw] + body + [EndDraw])
         == Some(s.(bound := Some(bitmap), clips := 0))
  {
    var inFrame := s.(bound := Some(bitmap), drawing := true, clips := 0);
    var header := [SetTarget(Some(bitmap)), BeginDraw];
    assert Run(s, header) == Some(inFrame) by {
      assert header[1..] == [BeginDraw];
      assert Run(s.(bound := Some(bitmap)), [BeginDraw]) == Some(inFrame);
    }
    DcRunIndependent(inFrame, State(multiset{}, Some(0), true, 0), body);
    DcRunKeepsFrame(inFrame, body);
    RunAppend(s, header, body);
    RunAppend(s, header + body, [EndDraw]);
  }

  /** The frame calls neither acquire nor release a wrapper, nor present. */
  lemma FrameHasNoBackendCalls(bitmap: Handle, body: seq<Event>, e: Event)
    requires DcOnly(body) && (e.AcquireWrapped? || e.ReleaseWrapped? || e.Present?)
    ensures e !in Frame(bitmap, body)
    ensures Count(Frame(bitmap, body), e) == 0
  {
  }
}
