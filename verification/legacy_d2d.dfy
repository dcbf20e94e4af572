/** The Direct2D backend of the older revision (mltg/src/d2d.rs): a window
    swap chain over the older Direct3D11 backend. Its targets are the older
    Direct3D11 targets; the backend itself holds the swap chain. */
module LegacyDirect2D {

  import opened Results
  import opened Platform
  import opened Resources
  import LegacyDirect3D11

  type RenderTarget = LegacyDirect3D11.RenderTarget

  datatype Backend = Backend(swapChain: Handle)

  /** `Direct2D::resize`: ResizeBuffers' error is discarded, so the backend
      is the same whatever the platform answers. */
  function Resize(b: Backend, resized: Result<(), PlatformError>): (r: Backend)
    ensures r.swapChain == b.swapChain
  {
    b
  }

  /** `Backend::back_buffers`: the Direct3D11 backend's. */
  function BackBuffers(dc: CreateBitmap, chain: SwapChainView): (r: Result<seq<RenderTarget>, PlatformError>)
    ensures r == LegacyDirect3D11.BackBuffers(dc, chain)
  {
    LegacyDirect3D11.BackBuffers(dc, chain)
  }

  /** `Backend::render_target`: the object must already be a bitmap
      (`expect` panics otherwise); it becomes the target as it is and
      nothing is created, so no error is ever returned. */
  function RenderTargetFor(o: ForeignObject): (r: Outcome<Result<RenderTarget, PlatformError>>)
    ensures r.Panicked? <==> !o.isBitmap
    ensures r.Returned? ==> r.value == Ok(LegacyDirect3D11.RenderTarget(o.handle))
  {
    if o.isBitmap then Returned(Ok(LegacyDirect3D11.RenderTarget(o.handle))) else Panicked
  }

  /** `Backend::begin_draw`: the Direct3D11 hook. */
  function BeginDraw(b: Backend, t: RenderTarget): (events: seq<Event>)
    ensures events == LegacyDirect3D11.BeginDraw(t)
  {
    LegacyDirect3D11.BeginDraw(t)
  }

  // The interval and flags the older revision presents with.
  const PRESENT_INTERVAL: nat := 1
  const PRESENT_FLAGS: nat := 0

  /** `Backend::end_draw`: the Direct3D11 hook, then always one Present with
      interval 1, whose error is discarded. */
  function EndDraw(b: Backend, t: RenderTarget): (events: seq<Event>)
    ensures events == LegacyDirect3D11.EndDraw(t) + [Present(b.swapChain, PRESENT_INTERVAL, PRESENT_FLAGS)]
    ensures Count(events, Present(b.swapChain, PRESENT_INTERVAL, PRESENT_FLAGS)) == 1
  {
    [Present(b.swapChain, PRESENT_INTERVAL, PRESENT_FLAGS)]
  }
}
