/** The Direct2D backend of src/d2d.rs: a window swap chain over D3D11. A
    render target is the swap chain, the D3D11 target over its buffer 0
    (absent while being resized) and the present interval. */
module Direct2D {

  import opened Geometry
  import opened Results
  import opened Platform
  import opened Resources
  import Direct3D11
  import Errors

  datatype RenderTarget = RenderTarget(swapChain: Handle, inner: Option<Direct3D11.RenderTarget>, interval: nat)

  /** The swap chain `create_render_target` asks for. */
  datatype SwapChainRequest = SwapChainRequest(width: nat, height: nat, format: nat, bufferCount: nat)

  /** `RenderTarget::set_interval`: changes the interval and nothing else. */
  function SetInterval(t: RenderTarget, interval: nat): (r: RenderTarget)
    ensures r.interval == interval
    ensures r.swapChain == t.swapChain && r.inner == t.inner
  {
    t.(interval := interval)
  }

  /** `Target::bitmap`; the inner target is unwrapped, so it must be present. */
  function BitmapOf(t: RenderTarget): (b: Handle)
    requires t.inner.Some?
    ensures b == t.inner.value.bitmap.handle
  {
    t.inner.value.bitmap.handle
  }

  /** `Context<Direct2D>::create_render_target`: a two-buffer B8G8R8A8 swap
      chain of the window's size, then the D3D11 target over its buffer 0,
      with interval 1. `chain` is how the newly created chain answers. */
  function CreateRenderTarget(width: nat, height: nat, created: Result<Handle, PlatformError>,
                              chain: SwapChainView, dc: CreateBitmap)
    : (r: (SwapChainRequest, Result<RenderTarget, Errors.Error>))
    ensures r.0 == SwapChainRequest(width, height, FORMAT_B8G8R8A8_UNORM, 2)
    ensures r.1.Ok? <==> created.Ok? && Direct3D11.FromSwapChain(dc, chain).Ok?
    ensures created.Err? ==> r.1 == Err(Errors.FromPlatform(created.error))
    ensures r.1.Ok? ==>
      r.1.value.swapChain == created.value && r.1.value.interval == 1
      && r.1.value.inner == Some(Direct3D11.FromSwapChain(dc, chain).value)
    ensures created.Ok? && Direct3D11.FromSwapChain(dc, chain).Err? ==>
      r.1 == Err(Direct3D11.FromSwapChain(dc, chain).error)
  {
    var request := SwapChainRequest(width, height, FORMAT_B8G8R8A8_UNORM, 2);
    match created
    case Err(e) => (request, Err(Errors.FromPlatform(e)))
    case Ok(h) =>
      match Direct3D11.FromSwapChain(dc, chain)
      case Err(e) => (request, Err(e))
      case Ok(inner) => (request, Ok(RenderTarget(h, Some(inner), 1)))
  }

  /** `Context<Direct2D>::resize_target`. The inner target is dropped before
      ResizeBuffers (a swap chain cannot be resized while its buffers are
      referenced), then recreated from the resized chain. On either failure
      the error is returned and the target is left without an inner target. */
  function ResizeTarget(t: RenderTarget, resized: Result<(), PlatformError>, chain: SwapChainView, dc: CreateBitmap)
    : (r: (RenderTarget, Result<(), Errors.Error>))
    ensures r.0.swapChain == t.swapChain && r.0.interval == t.interval
    ensures r.1.Ok? <==> resized.Ok? && Direct3D11.FromSwapChain(dc, chain).Ok?
    ensures r.1.Ok? <==> r.0.inner.Some?
    ensures resized.Err? ==> r.1 == Err(Errors.FromPlatform(resized.error))
    ensures r.1.Ok? ==> r.0.inner == Some(Direct3D11.FromSwapChain(dc, chain).value)
    ensures resized.Ok? && Direct3D11.FromSwapChain(dc, chain).Err? ==>
      r.1 == Err(Direct3D11.FromSwapChain(dc, chain).error)
  {
    var dropped := t.(inner := None);
    match resized
    case Err(e) => (dropped, Err(Errors.FromPlatform(e)))
    case Ok(_) =>
      match Direct3D11.FromSwapChain(dc, chain)
      case Err(e) => (dropped, Err(e))
      case Ok(inner) => (dropped.(inner := Some(inner)), Ok(()))
  }

  /** `Backend::begin_draw`: the D3D11 hook on the inner target (which is unwrapped). */
  function BeginDraw(t: RenderTarget): (events: seq<Event>)
    requires t.inner.Some?
    ensures events == Direct3D11.BeginDraw(t.inner.value)
  {
    Direct3D11.BeginDraw(t.inner.value)
  }

  // DXGI_PRESENT flags passed to Present1.
  const PRESENT_FLAGS: nat := 0

  /** `Backend::end_draw`: the D3D11 hook on the inner target; if that
      returns Ok, present with the target's interval and return Present1's
      own error, if any; otherwise return the error without presenting. */
  function EndDraw(t: RenderTarget, ret: Result<(), Errors.Error>, present: Result<(), PlatformError>)
    : (r: (seq<Event>, Result<(), Errors.Error>))
    requires t.inner.Some?
    ensures (Present(t.swapChain, t.interval, PRESENT_FLAGS) in r.0) <==> ret.Ok?
    ensures ret.Err? ==> r.0 == [] && r.1 == ret
    ensures ret.Ok? ==> r.0 == [Present(t.swapChain, t.interval, PRESENT_FLAGS)]
    ensures ret.Ok? ==> (r.1.Ok? <==> present.Ok?)
    ensures ret.Ok? && present.Err? ==> r.1 == Err(Errors.FromPlatform(present.error))
  {
    var (events, inner) := Direct3D11.EndDraw(t.inner.value, ret);
    match inner
    case Ok(_) =>
      (events + [Present(t.swapChain, t.interval, PRESENT_FLAGS)],
       match present case Ok(_) => Ok(()) case Err(e) => Err(Errors.FromPlatform(e)))
    case Err(e) => (events, Err(e))
  }
}
