/** The Direct3D11 backend of src/d3d11.rs: a render target is just a
    target bitmap, and the frame hooks do nothing. */
module Direct3D11 {

  import opened Geometry
  import opened Results
  import opened Platform
  import opened Resources
  import Errors

  datatype RenderTarget = RenderTarget(bitmap: Bitmap)

  /** The properties of a swap-chain bitmap: the chain's format, alpha
      ignored, target and not drawable, 96 DPI. */
  function SwapChainBitmapProps(format: nat): BitmapProperties
  {
    BitmapProperties(format, ALPHA_MODE_IGNORE, TARGET_OPTIONS, 96.0)
  }

  /** `Direct3D11::create_render_target_from_swap_chain`: only buffer 0 is
      wrapped; every platform failure on the way is returned. */
  function FromSwapChain(dc: CreateBitmap, chain: SwapChainView): (r: Result<RenderTarget, Errors.Error>)
    ensures r.Ok? <==>
      chain.desc.Ok? && chain.buffer(0).Ok?
      && dc(chain.buffer(0).value, SwapChainBitmapProps(chain.desc.value.format)).Ok?
    ensures r.Ok? ==> r.value.bitmap.surface == chain.buffer(0).value
    ensures r.Ok? ==> r.value.bitmap.props.format == chain.desc.value.format
    ensures r.Ok? ==> r.value.bitmap.props.alphaMode == ALPHA_MODE_IGNORE && r.value.bitmap.props.dpi == 96.0
    ensures r.Ok? ==> r.value.bitmap.props.options == TARGET_OPTIONS
    ensures chain.desc.Err? ==> r == Err(Errors.FromPlatform(chain.desc.error))
    ensures chain.desc.Ok? && chain.buffer(0).Err? ==> r == Err(Errors.FromPlatform(chain.buffer(0).error))
    ensures chain.desc.Ok? && chain.buffer(0).Ok?
            && dc(chain.buffer(0).value, SwapChainBitmapProps(chain.desc.value.format)).Err? ==>
      r == Err(Errors.FromPlatform(dc(chain.buffer(0).value, SwapChainBitmapProps(chain.desc.value.format)).error))
  {
    match chain.desc
    case Err(e) => Err(Errors.FromPlatform(e))
    case Ok(desc) =>
      match chain.buffer(0)
      case Err(e) => Err(Errors.FromPlatform(e))
      case Ok(surface) =>
        match MakeBitmap(dc, surface, SwapChainBitmapProps(desc.format))
        case Err(e) => Err(Errors.FromPlatform(e))
        case Ok(b) => Ok(RenderTarget(b))
  }

  /** `Context<Direct3D11>::create_render_target_from_swap_chain`: the
      caller's object must be a swap chain (otherwise `expect` panics);
      then it delegates with the context's device context. */
  function ContextFromSwapChain(isSwapChain: bool, dc: CreateBitmap, chain: SwapChainView): (r: Outcome<Result<RenderTarget, Errors.Error>>)
    ensures r.Panicked? <==> !isSwapChain
    ensures r.Returned? ==> r.value == FromSwapChain(dc, chain)
  {
    if !isSwapChain then Panicked else Returned(FromSwapChain(dc, chain))
  }

  /** A D3D11 texture handed to `create_render_target`: whether it is
      really a texture and a DXGI surface, and its format. */
  datatype Texture = Texture(handle: Handle, isTexture: bool, isSurface: bool, format: nat)

  /** `Context<Direct3D11>::create_render_target`: a bitmap over the texture
      with premultiplied alpha and the default DPI. The two casts panic. */
  function CreateRenderTarget(dc: CreateBitmap, texture: Texture): (r: Outcome<Result<RenderTarget, Errors.Error>>)
    ensures r.Panicked? <==> !texture.isTexture || !texture.isSurface
    ensures r.Returned? ==>
      (r.value.Ok? <==> dc(texture.handle, BitmapProperties(texture.format, ALPHA_MODE_PREMULTIPLIED, TARGET_OPTIONS, 0.0)).Ok?)
    ensures r.Returned? && r.value.Ok? ==>
      r.value.value.bitmap.surface == texture.handle
      && r.value.value.bitmap.props == BitmapProperties(texture.format, ALPHA_MODE_PREMULTIPLIED, TARGET_OPTIONS, 0.0)
    ensures r.Returned? && dc(texture.handle, BitmapProperties(texture.format, ALPHA_MODE_PREMULTIPLIED, TARGET_OPTIONS, 0.0)).Err? ==>
      r.value == Err(Errors.FromPlatform(dc(texture.handle, BitmapProperties(texture.format, ALPHA_MODE_PREMULTIPLIED, TARGET_OPTIONS, 0.0)).error))
  {
    if !texture.isTexture || !texture.isSurface then Panicked
    else
      match MakeBitmap(dc, texture.handle, BitmapProperties(texture.format, ALPHA_MODE_PREMULTIPLIED, TARGET_OPTIONS, 0.0))
      case Err(e) => Returned(Err(Errors.FromPlatform(e)))
      case Ok(b) => Returned(Ok(RenderTarget(b)))
  }

  /** `Backend::begin_draw`: no platform call. */
  function BeginDraw(t: RenderTarget): (events: seq<Event>)
    ensures events == []
  {
    []
  }

  /** `Backend::end_draw`: no platform call, and `ret` comes back unchanged. */
  function EndDraw(t: RenderTarget, ret: Result<(), Errors.Error>): (r: (seq<Event>, Result<(), Errors.Error>))
    ensures r.0 == [] && r.1 == ret
  {
    ([], ret)
  }
}
