/** `Context::draw` and the path constructors of `Factory` in the current
    revision (src/context.rs), over the three backends. */
module Context {

  import opened Results
  import opened Platform
  import Errors
  import Commands
  import Path
  import Direct3D11
  import Direct3D12
  import Direct2D

  /** A render target of one of the three backends. */
  datatype Target =
    | D3D11Target(d3d11: Direct3D11.RenderTarget)
    | D3D12Target(d3d12: Direct3D12.RenderTarget)
    | D2DTarget(d2d: Direct2D.RenderTarget)

  /** A Direct2D target must hold its inner target: its hooks and its
      bitmap unwrap it. */
  predicate Drawable(t: Target)
  {
    t.D2DTarget? ==> t.d2d.inner.Some?
  }

  /** `Target::bitmap`. */
  function TargetBitmap(t: Target): Handle
    requires Drawable(t)
  {
    match t
    case D3D11Target(x) => x.bitmap.handle
    case D3D12Target(x) => x.bitmap.handle
    case D2DTarget(x) => Direct2D.BitmapOf(x)
  }

  /** `Backend::begin_draw` of the target's backend. */
  function BackendBegin(t: Target): seq<Event>
    requires Drawable(t)
  {
    match t
    case D3D11Target(x) => Direct3D11.BeginDraw(x)
    case D3D12Target(x) => Direct3D12.BeginDraw(x)
    case D2DTarget(x) => Direct2D.BeginDraw(x)
  }

  /** `Backend::end_draw` of the target's backend. */
  function BackendEnd(t: Target, ret: Result<(), Errors.Error>, present: Result<(), Errors.PlatformError>)
    : (seq<Event>, Result<(), Errors.Error>)
    requires Drawable(t)
  {
    match t
    case D3D11Target(x) => Direct3D11.EndDraw(x, ret)
    case D3D12Target(x) => Direct3D12.EndDraw(x, ret)
    case D2DTarget(x) => Direct2D.EndDraw(x, ret, present)
  }

  /** A `draw` callback: the commands it issues and the value it returns. */
  datatype Callback<R> = Callback(commands: seq<Commands.Command>, value: R)

  /** EndDraw's result converted into the library's error. */
  function EndDrawResult(endDraw: Result<(), Errors.PlatformError>): (r: Result<(), Errors.Error>)
    ensures r.Ok? <==> endDraw.Ok?
    ensures r.Err? ==> r.error == Errors.FromPlatform(endDraw.error)
  {
    match endDraw
    case Ok(_) => Ok(())
    case Err(e) => Err(Errors.FromPlatform(e))
  }

  /** `Context::draw`: the backend's begin hook, the frame around the
      callback, then the backend's end hook, which is always called and is
      handed EndDraw's result; its result decides `draw`'s. `endDraw` and
      `present` are the platform's answers to EndDraw and Present. */
  function Draw<R>(t: Target, f: Callback<R>, endDraw: Result<(), Errors.PlatformError>,
                   present: Result<(), Errors.PlatformError>)
    : (r: (seq<Event>, Result<R, Errors.Error>))
    requires Drawable(t) && Commands.WellFormed(Commands.Current, f.commands)
    ensures r.0 == BackendBegin(t) + Commands.Frame(TargetBitmap(t), Commands.Exec(Commands.Current, f.commands))
                   + BackendEnd(t, EndDrawResult(endDraw), present).0
    ensures r.1.Ok? ==> r.1.value == f.value
  {
    var body := Commands.Exec(Commands.Current, f.commands);
    var (post, ret) := BackendEnd(t, EndDrawResult(endDraw), present);
    (BackendBegin(t) + Commands.Frame(TargetBitmap(t), body) + post,
     match ret
     case Ok(_) => Ok(f.value)
     case Err(e) => Err(e))
  }

  /** What `draw` returns: the callback's value when EndDraw (and, for a
      Direct2D target, Present) succeeded; otherwise EndDraw's error,
      or else Present's. */
  lemma DrawResult<R>(t: Target, f: Callback<R>, endDraw: Result<(), Errors.PlatformError>,
                      present: Result<(), Errors.PlatformError>)
    requires Drawable(t) && Commands.WellFormed(Commands.Current, f.commands)
    ensures var r := Draw(t, f, endDraw, present).1;
      (r.Ok? <==> endDraw.Ok? && (t.D2DTarget? ==> present.Ok?))
      && (r.Ok? ==> r.value == f.value)
      && (endDraw.Err? ==> r == Err(Errors.FromPlatform(endDraw.error)))
      && (endDraw.Ok? && t.D2DTarget? && present.Err? ==> r == Err(Errors.FromPlatform(present.error)))
  {
  }

  /** Only a Direct2D target presents, and it presents exactly when
      EndDraw succeeded. */
  lemma DrawPresents<R>(t: Target, f: Callback<R>, endDraw: Result<(), Errors.PlatformError>,
                        present: Result<(), Errors.PlatformError>, e: Event)
    requires Drawable(t) && Commands.WellFormed(Commands.Current, f.commands) && e.Present?
    ensures var trace := Draw(t, f, endDraw, present).0;
      (e in trace <==>
        t.D2DTarget? && endDraw.Ok? && e == Present(t.d2d.swapChain, t.d2d.interval, Direct2D.PRESENT_FLAGS))
  {
    var body := Commands.Exec(Commands.Current, f.commands);
    Commands.FrameHasNoBackendCalls(TargetBitmap(t), body, e);
  }

  /** From outside a frame, with a callback whose calls are legal inside a
      fresh frame (the abstract device lets EndDraw discard clips still
      pushed, so a missing pop is not ruled out here; `StructuredIsLegal`
      gives this premise for callbacks whose clips balance), the whole
      of `draw` is legal whatever EndDraw and Present answer, and it ends
      outside a frame, with nothing bound and exactly the wrappers acquired
      that were acquired before. */
  lemma DrawIsLegal<R>(s: State, t: Target, f: Callback<R>, endDraw: Result<(), Errors.PlatformError>,
                       present: Result<(), Errors.PlatformError>)
    requires Drawable(t) && Commands.WellFormed(Commands.Current, f.commands)
    requires !s.drawing && LegalInFrame(Commands.Exec(Commands.Current, f.commands))
    ensures Run(s, Draw(t, f, endDraw, present).0) == Some(s.(bound := None, clips := 0))
  {
    var body := Commands.Exec(Commands.Current, f.commands);
    var frame := Commands.Frame(TargetBitmap(t), body);
    var pre := BackendBegin(t);
    var post := BackendEnd(t, EndDrawResult(endDraw), present).0;
    var done := s.(bound := None, clips := 0);
    match t {
      case D3D11Target(x) =>
        assert pre + frame + post == frame;
        Commands.FrameRun(s, TargetBitmap(t), body);
      case D2DTarget(x) =>
        assert pre + frame == frame;
        Commands.FrameRun(s, TargetBitmap(t), body);
        RunAppend(s, frame, post);
        assert Run(done, post) == Some(done) by {
          if |post| > 0 {
            assert post[1..] == [];
          }
        }
      case D3D12Target(x) =>
        var w := x.wrapper.handle;
        var acquired := s.(acquired := s.acquired + multiset{w});
        assert Run(s, pre) == Some(acquired);
        Commands.FrameRun(acquired, TargetBitmap(t), body);
        RunAppend(s, pre, frame);
        var held := acquired.(bound := None, clips := 0);
        assert held.acquired - multiset{w} == s.acquired;
        assert post == [ReleaseWrapped(w), Event.Flush, ClearState];
        assert Run(done, post[2..]) == Some(done);
        assert Run(done, post[1..]) == Some(done);
        assert Run(held, post) == Some(done);
        RunAppend(s, pre + frame, post);
    }
  }

  /** Every wrapper `draw` acquires it also releases, whatever EndDraw and
      Present answer; and the frame is opened and closed exactly once. */
  lemma DrawPairsWrappers<R>(t: Target, f: Callback<R>, endDraw: Result<(), Errors.PlatformError>,
                             present: Result<(), Errors.PlatformError>, w: Handle)
    requires Drawable(t) && Commands.WellFormed(Commands.Current, f.commands)
    ensures var trace := Draw(t, f, endDraw, present).0;
      Count(trace, AcquireWrapped(w)) == Count(trace, ReleaseWrapped(w))
      && Count(trace, AcquireWrapped(w)) <= 1
  {
    var body := Commands.Exec(Commands.Current, f.commands);
    var frame := Commands.Frame(TargetBitmap(t), body);
    var pre := BackendBegin(t);
    var post := BackendEnd(t, EndDrawResult(endDraw), present).0;
    Commands.FrameHasNoBackendCalls(TargetBitmap(t), body, AcquireWrapped(w));
    Commands.FrameHasNoBackendCalls(TargetBitmap(t), body, ReleaseWrapped(w));
    CountAppend(pre, frame, AcquireWrapped(w));
    CountAppend(pre + frame, post, AcquireWrapped(w));
    CountAppend(pre, frame, ReleaseWrapped(w));
    CountAppend(pre + frame, post, ReleaseWrapped(w));
    if t.D3D12Target? {
      assert post[1..][1..][1..] == [];
    } else if t.D2DTarget? && |post| > 0 {
      assert post[1..] == [];
    }
  }

  /** A sequence of `draw` calls, each with its target, callback and the
      platform's answers. */
  datatype Frame = Frame(target: Target, commands: seq<Commands.Command>,
                         endDraw: Result<(), Errors.PlatformError>, present: Result<(), Errors.PlatformError>)

  predicate FrameOk(fr: Frame)
  {
    Drawable(fr.target) && Commands.WellFormed(Commands.Current, fr.commands)
  }

  function DrawAll(frames: seq<Frame>): seq<Event>
    requires forall i | 0 <= i < |frames| :: FrameOk(frames[i])
  {
    if |frames| == 0 then []
    else
      assert FrameOk(frames[0]);
      assert forall i | 0 <= i < |frames[1..]| :: frames[1..][i] == frames[i + 1];
      Draw(frames[0].target, Callback(frames[0].commands, ()), frames[0].endDraw, frames[0].present).0
         + DrawAll(frames[1..])
  }

  /** Any number of frames, drawn from a quiescent platform with callbacks
      whose clips balance, run legally and leave it quiescent, whichever
      frames failed. */
  lemma {:induction false} DrawAllIsLegal(s: State, frames: seq<Frame>)
    requires Quiescent(s)
    requires forall i | 0 <= i < |frames| ::
      FrameOk(frames[i]) && LegalInFrame(Commands.Exec(Commands.Current, frames[i].commands))
    ensures Run(s, DrawAll(frames)) == Some(s)
    decreases |frames|
  {
    if |frames| > 0 {
      var fr := frames[0];
      DrawIsLegal(s, fr.target, Callback(fr.commands, ()), fr.endDraw, fr.present);
      RunAppend(s, Draw(fr.target, Callback(fr.commands, ()), fr.endDraw, fr.present).0, DrawAll(frames[1..]));
      DrawAllIsLegal(s, frames[1..]);
    }
  }

  /** `Factory::create_filled_path` and `create_hollow_path`: a new path
      geometry (`created`), then a builder over it (`open`, the answer to
      opening its sink); either failure is returned. */
  function CreatePath(kind: Path.PathKind, created: Result<Handle, Errors.PlatformError>,
                      open: Result<(), Errors.PlatformError>): (r: Result<Path.PathBuilder, Errors.Error>)
    ensures r.Ok? <==> created.Ok? && open.Ok?
    ensures created.Err? ==> r == Err(Errors.FromPlatform(created.error))
    ensures created.Ok? && open.Err? ==> r == Err(Errors.FromPlatform(open.error))
    ensures r.Ok? ==>
      r.value.kind == kind && r.value.geometry == created.value && r.value.sink == [] && Path.ValidBuilder(r.value)
  {
    match created
    case Err(e) => Err(Errors.FromPlatform(e))
    case Ok(g) => Path.NewBuilder(kind, g, open)
  }

  function CreateFilledPath(created: Result<Handle, Errors.PlatformError>, open: Result<(), Errors.PlatformError>)
    : (r: Result<Path.PathBuilder, Errors.Error>)
    ensures r.Ok? <==> created.Ok? && open.Ok?
    ensures r.Ok? ==> r.value.kind == Path.FilledPath && r.value.geometry == created.value && r.value.sink == []
  {
    CreatePath(Path.FilledPath, created, open)
  }

  function CreateHollowPath(created: Result<Handle, Errors.PlatformError>, open: Result<(), Errors.PlatformError>)
    : (r: Result<Path.PathBuilder, Errors.Error>)
    ensures r.Ok? <==> created.Ok? && open.Ok?
    ensures r.Ok? ==> r.value.kind == Path.HollowPath && r.value.geometry == created.value && r.value.sink == []
  {
    CreatePath(Path.HollowPath, created, open)
  }
}
