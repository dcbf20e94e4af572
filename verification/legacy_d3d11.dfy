/** The Direct3D11 backend of the older revision (mltg/src/d3d11.rs). A
    target is the bitmap alone; the errors are the platform's own. */
module LegacyDirect3D11 {

  import opened Results
  import opened Platform
  import opened Resources
  import Direct3D11

  datatype RenderTarget = RenderTarget(bitmap: Handle)

  /** `Backend::back_buffers`: a single target, over buffer 0, with the
      properties of the current revision's swap-chain bitmaps; the first
      platform failure is returned. */
  function BackBuffers(dc: CreateBitmap, chain: SwapChainView): (r: Result<seq<RenderTarget>, PlatformError>)
    ensures r.Ok? <==>
      chain.desc.Ok? && chain.buffer(0).Ok?
      && dc(chain.buffer(0).value, Direct3D11.SwapChainBitmapProps(chain.desc.value.format)).Ok?
    ensures r.Ok? ==>
      r.value == [RenderTarget(dc(chain.buffer(0).value, Direct3D11.SwapChainBitmapProps(chain.desc.value.format)).value)]
    ensures chain.desc.Err? ==> r == Err(chain.desc.error)
    ensures chain.desc.Ok? && chain.buffer(0).Err? ==> r == Err(chain.buffer(0).error)
    ensures chain.desc.Ok? && chain.buffer(0).Ok?
            && dc(chain.buffer(0).value, Direct3D11.SwapChainBitmapProps(chain.desc.value.format)).Err? ==>
      r == Err(dc(chain.buffer(0).value, Direct3D11.SwapChainBitmapProps(chain.desc.value.format)).error)
  {
    match chain.desc
    case Err(e) => Err(e)
    case Ok(desc) =>
      match chain.buffer(0)
      case Err(e) => Err(e)
      case Ok(surface) =>
        match dc(surface, Direct3D11.SwapChainBitmapProps(desc.format))
        case Err(e) => Err(e)
        case Ok(b) => Ok([RenderTarget(b)])
  }

  /** Both revisions make the same bitmap from the same chain and fail
      together. */
  lemma BackBuffersAgree(dc: CreateBitmap, chain: SwapChainView)
    ensures BackBuffers(dc, chain).Ok? <==> Direct3D11.FromSwapChain(dc, chain).Ok?
    ensures BackBuffers(dc, chain).Ok? ==>
      BackBuffers(dc, chain).value[0].bitmap == Direct3D11.FromSwapChain(dc, chain).value.bitmap.handle
  {
  }

  /** The properties of a texture's bitmap: premultiplied alpha, default DPI. */
  function TextureBitmapProps(format: nat): BitmapProperties
  {
    BitmapProperties(format, ALPHA_MODE_PREMULTIPLIED, TARGET_OPTIONS, 0.0)
  }

  /** `Backend::render_target`: the object must be a texture (`expect`
      panics otherwise); in a debug build it must also be bound as a render
      target (`assert!`); a failed cast to a surface is returned. */
  function RenderTargetFor(dc: CreateBitmap, o: ForeignObject, debug: bool): (r: Outcome<Result<RenderTarget, PlatformError>>)
    ensures r.Panicked? <==> !o.isTexture || (debug && !HasFlag(o.bindFlags, BIND_RENDER_TARGET))
    ensures r.Returned? ==> (r.value.Ok? <==> o.surface.Ok? && dc(o.handle, TextureBitmapProps(o.format)).Ok?)
    ensures r.Returned? && o.surface.Err? ==> r.value == Err(o.surface.error)
    ensures r.Returned? && o.surface.Ok? && dc(o.handle, TextureBitmapProps(o.format)).Err? ==>
      r.value == Err(dc(o.handle, TextureBitmapProps(o.format)).error)
    ensures r.Returned? && r.value.Ok? ==> r.value.value.bitmap == dc(o.handle, TextureBitmapProps(o.format)).value
  {
    if !o.isTexture then Panicked
    else if debug && !HasFlag(o.bindFlags, BIND_RENDER_TARGET) then Panicked
    else
      match o.surface
      case Err(e) => Returned(Err(e))
      case Ok(_) =>
        match dc(o.handle, TextureBitmapProps(o.format))
        case Err(e) => Returned(Err(e))
        case Ok(b) => Returned(Ok(RenderTarget(b)))
  }

  /** When neither revision panics and the object is a surface, both make
      the same bitmap request and fail together. */
  lemma RenderTargetAgrees(dc: CreateBitmap, o: ForeignObject, debug: bool)
    requires o.isTexture && o.surface.Ok? && !(debug && !HasFlag(o.bindFlags, BIND_RENDER_TARGET))
    ensures var older := RenderTargetFor(dc, o, debug);
      var newer := Direct3D11.CreateRenderTarget(dc, Direct3D11.Texture(o.handle, true, true, o.format));
      older.Returned? && newer.Returned? && (older.value.Ok? <==> newer.value.Ok?)
      && (older.value.Ok? ==> older.value.value.bitmap == newer.value.value.bitmap.handle)
  {
  }

  /** `Backend::begin_draw` and `end_draw`: no platform call. */
  function BeginDraw(t: RenderTarget): (events: seq<Event>)
    ensures events == []
  {
    []
  }

  function EndDraw(t: RenderTarget): (events: seq<Event>)
    ensures events == []
  {
    []
  }
}
