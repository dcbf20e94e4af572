/** `Context::draw`, the target constructors and `Factory::create_path` of
    the older revision (mltg/src/context.rs). Its hooks return nothing and
    EndDraw's result is unwrapped. */
module LegacyContext {

  import opened Results
  import opened Platform
  import opened Resources
  import Commands
  import Context
  import LegacyPath
  import Errors
  import Direct3D12
  import LegacyDirect3D11
  import LegacyDirect3D12
  import LegacyDirect2D

  datatype Backend = D3D11Backend | D3D12Backend | D2DBackend(d2d: LegacyDirect2D.Backend)

  /** A render target: the Direct3D11 and Direct2D backends share one kind. */
  datatype Target = Bitmap11(bmp: LegacyDirect3D11.RenderTarget) | Wrapped12(d3d12: LegacyDirect3D12.RenderTarget)

  /** Whether a target is of its backend's `RenderTarget` type. */
  predicate Fits(b: Backend, t: Target)
  {
    b.D3D12Backend? <==> t.Wrapped12?
  }

  /** `Target::bitmap`. */
  function TargetBitmap(t: Target): Handle
  {
    match t
    case Bitmap11(x) => x.bitmap
    case Wrapped12(x) => x.bitmap.handle
  }

  function BackendBegin(b: Backend, t: Target): seq<Event>
    requires Fits(b, t)
  {
    match b
    case D3D11Backend => LegacyDirect3D11.BeginDraw(t.bmp)
    case D3D12Backend => LegacyDirect3D12.BeginDraw(t.d3d12)
    case D2DBackend(x) => LegacyDirect2D.BeginDraw(x, t.bmp)
  }

  function BackendEnd(b: Backend, t: Target): seq<Event>
    requires Fits(b, t)
  {
    match b
    case D3D11Backend => LegacyDirect3D11.EndDraw(t.bmp)
    case D3D12Backend => LegacyDirect3D12.EndDraw(t.d3d12)
    case D2DBackend(x) => LegacyDirect2D.EndDraw(x, t.bmp)
  }

  /** The calls made before EndDraw's result is unwrapped. */
  function Opening(b: Backend, t: Target, body: seq<Event>): seq<Event>
    requires Fits(b, t)
  {
    BackendBegin(b, t) + [SetTarget(Some(TargetBitmap(t))), BeginDraw] + body + [EndDraw]
  }

  /** `Context::draw` as written: the begin hook and the frame; EndDraw's
      result is unwrapped before the target is unbound and before the end
      hook, so when EndDraw fails the calls stop there and `draw` panics. */
  function Draw<R>(b: Backend, t: Target, f: Context.Callback<R>, endDraw: Result<(), PlatformError>)
    : (r: (seq<Event>, Outcome<R>))
    requires Fits(b, t) && Commands.WellFormed(Commands.Older, f.commands)
    ensures r.1.Panicked? <==> endDraw.Err?
    ensures r.1.Returned? ==> r.1.value == f.value
    ensures endDraw.Err? ==> r.0 == Opening(b, t, Commands.Exec(Commands.Older, f.commands))
    ensures endDraw.Ok? ==>
      r.0 == BackendBegin(b, t) + Commands.Frame(TargetBitmap(t), Commands.Exec(Commands.Older, f.commands))
             + BackendEnd(b, t)
  {
    var body := Commands.Exec(Commands.Older, f.commands);
    match Unwrap(endDraw)
    case Panicked => (Opening(b, t, body), Panicked)
    case Returned(_) => (Opening(b, t, body) + [SetTarget(None)] + BackendEnd(b, t), Returned(f.value))
  }

  /** When EndDraw succeeds, `draw` is legal from outside a frame (every
      callback of this revision balances its clips) and ends with nothing
      bound and the wrappers as they were. */
  lemma DrawIsLegal<R>(s: State, b: Backend, t: Target, f: Context.Callback<R>, endDraw: Result<(), PlatformError>)
    requires Fits(b, t) && Commands.WellFormed(Commands.Older, f.commands)
    requires !s.drawing && endDraw.Ok?
    ensures Run(s, Draw(b, t, f, endDraw).0) == Some(s.(bound := None, clips := 0))
  {
    var body := Commands.Exec(Commands.Older, f.commands);
    Commands.OlderIsStructured(f.commands);
    Commands.StructuredIsLegal(Commands.Older, f.commands);
    var frame := Commands.Frame(TargetBitmap(t), body);
    var pre := BackendBegin(b, t);
    var post := BackendEnd(b, t);
    var done := s.(bound := None, clips := 0);
    match b {
      case D3D11Backend =>
        assert pre + frame + post == frame;
        Commands.FrameRun(s, TargetBitmap(t), body);
      case D2DBackend(x) =>
        assert pre + frame == frame;
        Commands.FrameRun(s, TargetBitmap(t), body);
        RunAppend(s, frame, post);
        assert Run(done, post) == Some(done) by {
          assert post[1..] == [];
        }
      case D3D12Backend =>
        var w := t.d3d12.wrapper.handle;
        var acquired := s.(acquired := s.acquired + multiset{w});
        assert Run(s, pre) == Some(acquired);
        Commands.FrameRun(acquired, TargetBitmap(t), body);
        RunAppend(s, pre, frame);
        var held := acquired.(bound := None, clips := 0);
        assert held.acquired - multiset{w} == s.acquired;
        assert post == [ReleaseWrapped(w), Event.Flush, ClearState];
        assert Run(done, post[2..]) == Some(done);
        assert Run(done, post[1..]) == Some(done);
        assert Run(held, post) == Some(done);
        RunAppend(s, pre + frame, post);
    }
  }

  /** When EndDraw fails on a Direct3D12 target, `draw` panics with the
      target's wrapper still acquired (it is never released) and its bitmap
      still bound: the platform is not back where it was, even from a
      quiescent state. */
  lemma FailedEndDrawLeaksWrapper<R>(s: State, t: Target, f: Context.Callback<R>, endDraw: Result<(), PlatformError>)
    requires t.Wrapped12? && Commands.WellFormed(Commands.Older, f.commands)
    requires !s.drawing && endDraw.Err?
    ensures Draw(D3D12Backend, t, f, endDraw).1.Panicked?
    ensures Run(s, Draw(D3D12Backend, t, f, endDraw).0)
         == Some(s.(acquired := s.acquired + multiset{t.d3d12.wrapper.handle}, bound := Some(TargetBitmap(t)), clips := 0))
    ensures Quiescent(s) ==> !Quiescent(Run(s, Draw(D3D12Backend, t, f, endDraw).0).value)
  {
    var body := Commands.Exec(Commands.Older, f.commands);
    Commands.OlderIsStructured(f.commands);
    Commands.StructuredIsLegal(Commands.Older, f.commands);
    var w := t.d3d12.wrapper.handle;
    var pre := BackendBegin(D3D12Backend, t);
    var acquired := s.(acquired := s.acquired + multiset{w});
    assert Run(s, pre) == Some(acquired);
    Commands.FrameWithoutUnbindRun(acquired, TargetBitmap(t), body);
    var rest := [SetTarget(Some(TargetBitmap(t))), BeginDraw] + body + [EndDraw];
    RunAppend(s, pre, rest);
    assert Opening(D3D12Backend, t, body) == pre + rest;
  }

  /** `Context::create_back_buffers`: the swap chain pointer is taken over
      first (`fromAbi`, its failure is returned); then the backend's
      `back_buffers`. */
  method CreateBackBuffers(b: Backend, fromAbi: Result<(), PlatformError>, chain: SwapChainView,
                           wrap: CreateWrapper, dc: CreateBitmap)
    returns (r: Result<seq<Target>, PlatformError>)
    ensures fromAbi.Err? ==> r == Err(fromAbi.error)
    ensures fromAbi.Ok? && b.D3D12Backend? && chain.desc.Ok? ==>
      (r.Ok? <==> forall i | 0 <= i < chain.desc.value.bufferCount ::
                    Direct3D12.BufferWraps(chain, wrap, dc, chain.desc.value.format, i))
    ensures fromAbi.Ok? && !b.D3D12Backend? ==>
      (r.Ok? <==> LegacyDirect3D11.BackBuffers(dc, chain).Ok?)
      && (r.Ok? ==> r.value == [Bitmap11(LegacyDirect3D11.BackBuffers(dc, chain).value[0])])
    ensures r.Ok? ==> forall i | 0 <= i < |r.value| :: Fits(b, r.value[i])
    ensures r.Ok? && b.D3D12Backend? ==> chain.desc.Ok? && |r.value| == chain.desc.value.bufferCount
    ensures r.Ok? && b.D3D12Backend? ==> forall i | 0 <= i < |r.value| ::
      r.value[i].Wrapped12? && Direct3D12.IsBufferTarget(r.value[i].d3d12, chain, chain.desc.value.format, i)
    ensures fromAbi.Ok? && b.D3D12Backend? && chain.desc.Err? ==> r == Err(chain.desc.error)
    ensures fromAbi.Ok? && b.D3D12Backend? && chain.desc.Ok? && r.Err? ==>
      exists i | 0 <= i < chain.desc.value.bufferCount ::
        Direct3D12.FailsFirstAt(chain, wrap, dc, chain.desc.value.format, i)
        && Errors.FromPlatform(r.error) == Direct3D12.BufferTarget(chain, wrap, dc, chain.desc.value.format, i).error
    ensures fromAbi.Ok? && !b.D3D12Backend? && r.Err? ==> r.error == LegacyDirect3D11.BackBuffers(dc, chain).error
  {
    if fromAbi.Err? {
      return Err(fromAbi.error);
    }
    if b.D3D12Backend? {
      var ts := LegacyDirect3D12.BackBuffers(chain, wrap, dc);
      if ts.Err? {
        return Err(ts.error);
      }
      return Ok(seq(|ts.value|, i requires 0 <= i < |ts.value| => Wrapped12(ts.value[i])));
    }
    var ts := if b.D3D11Backend? then LegacyDirect3D11.BackBuffers(dc, chain) else LegacyDirect2D.BackBuffers(dc, chain);
    if ts.Err? {
      return Err(ts.error);
    }
    return Ok([Bitmap11(ts.value[0])]);
  }

  /** `Context::create_render_target`: the backend's `render_target`; the
      target it makes is of that backend's kind. */
  function CreateRenderTarget(b: Backend, o: ForeignObject, wrap: CreateWrapper, dc: CreateBitmap, debug: bool)
    : (r: Outcome<Result<Target, PlatformError>>)
    ensures r.Returned? && r.value.Ok? ==> Fits(b, r.value.value)
    ensures b.D2DBackend? ==> (r.Panicked? <==> !o.isBitmap)
    ensures b.D2DBackend? && r.Returned? ==> r.value.Ok? && TargetBitmap(r.value.value) == o.handle
    ensures b.D3D11Backend? ==> (r.Panicked? <==> LegacyDirect3D11.RenderTargetFor(dc, o, debug).Panicked?)
    ensures b.D3D12Backend? ==> (r.Panicked? <==> LegacyDirect3D12.RenderTargetFor(o, wrap, dc, debug).Panicked?)
    ensures b.D3D11Backend? && r.Returned? ==>
      var x := LegacyDirect3D11.RenderTargetFor(dc, o, debug).value;
      (r.value.Ok? <==> x.Ok?) && (x.Ok? ==> r.value.value == Bitmap11(x.value)) && (x.Err? ==> r.value.error == x.error)
    ensures b.D3D12Backend? && r.Returned? ==>
      var x := LegacyDirect3D12.RenderTargetFor(o, wrap, dc, debug).value;
      (r.value.Ok? <==> x.Ok?) && (x.Ok? ==> r.value.value == Wrapped12(x.value)) && (x.Err? ==> r.value.error == x.error)
  {
    match b
    case D3D11Backend =>
      (match LegacyDirect3D11.RenderTargetFor(dc, o, debug)
       case Panicked => Panicked
       case Returned(Err(e)) => Returned(Err(e))
       case Returned(Ok(x)) => Returned(Ok(Bitmap11(x))))
    case D3D12Backend =>
      (match LegacyDirect3D12.RenderTargetFor(o, wrap, dc, debug)
       case Panicked => Panicked
       case Returned(Err(e)) => Returned(Err(e))
       case Returned(Ok(x)) => Returned(Ok(Wrapped12(x))))
    case D2DBackend(_) =>
      (match LegacyDirect2D.RenderTargetFor(o)
       case Panicked => Panicked
       case Returned(Err(e)) => Returned(Err(e))
       case Returned(Ok(x)) => Returned(Ok(Bitmap11(x))))
  }

  /** `Factory::create_path`: CreatePathGeometry is unwrapped, and so is
      opening its sink. */
  function CreatePath(created: Result<Handle, PlatformError>, open: Result<(), PlatformError>)
    : (r: Outcome<LegacyPath.PathBuilder>)
    ensures r.Panicked? <==> created.Err? || open.Err?
    ensures r.Returned? ==> r.value.geometry == created.value && r.value.sink == [] && LegacyPath.ValidBuilder(r.value)
  {
    match Unwrap(created)
    case Panicked => Panicked
    case Returned(g) => LegacyPath.NewBuilder(g, open)
  }
}
