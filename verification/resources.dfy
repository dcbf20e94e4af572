/** Platform resources the backends wrap: swap chains, D3D12 resources,
    D3D11On12 wrappers and the target bitmaps made from them.

    The platform calls that create them are passed in as functions from the
    request to its result, so a model of a backend can be run against any
    behaviour of the platform.
 */
module Resources {

  import opened Geometry
  import opened Results
  import opened Platform
  import Errors

  type PlatformError = Errors.PlatformError

  // D2D1_ALPHA_MODE values.
  const ALPHA_MODE_PREMULTIPLIED: nat := 1
  const ALPHA_MODE_IGNORE: nat := 3

  // D2D1_BITMAP_OPTIONS flags.
  const BITMAP_OPTIONS_TARGET: nat := 1
  const BITMAP_OPTIONS_CANNOT_DRAW: nat := 2

  // D3D12_RESOURCE_STATES values.
  const RESOURCE_STATE_COMMON: nat := 0
  const RESOURCE_STATE_PRESENT: nat := 0
  const RESOURCE_STATE_RENDER_TARGET: nat := 4

  // D3D11_BIND_RENDER_TARGET and D3D12_RESOURCE_FLAG_ALLOW_RENDER_TARGET.
  const BIND_RENDER_TARGET: nat := 0x20
  const RESOURCE_FLAG_ALLOW_RENDER_TARGET: nat := 0x1

  // DXGI_FORMAT_B8G8R8A8_UNORM.
  const FORMAT_B8G8R8A8_UNORM: nat := 87

  /** Whether the single-bit flag `bit` is set in `flags`. */
  predicate HasFlag(flags: nat, bit: nat)
    requires bit > 0
  {
    (flags / bit) % 2 == 1
  }

  /** D2D1_BITMAP_PROPERTIES1: pixel format, alpha mode, options and DPI
      (0.0 is the default, the device context's DPI). */
  datatype BitmapProperties = BitmapProperties(format: nat, alphaMode: nat, options: nat, dpi: F32)

  /** The options every target bitmap of this library carries. */
  const TARGET_OPTIONS: nat := BITMAP_OPTIONS_TARGET + BITMAP_OPTIONS_CANNOT_DRAW

  /** A target bitmap, the surface it was made from and its properties. */
  datatype Bitmap = Bitmap(handle: Handle, surface: Handle, props: BitmapProperties)

  /** A D3D11On12 wrapper around a D3D12 resource. */
  datatype Wrapper = Wrapper(handle: Handle, resource: Handle, bindFlags: nat, inState: nat, outState: nat)

  /** DXGI_SWAP_CHAIN_DESC1, the fields that matter here. */
  datatype SwapChainDesc = SwapChainDesc(format: nat, bufferCount: nat)

  /** How a swap chain answers GetDesc1 and GetBuffer(i). */
  datatype SwapChainView = SwapChainView(
    handle: Handle,
    desc: Result<SwapChainDesc, PlatformError>,
    buffer: nat -> Result<Handle, PlatformError>)

  /** ID2D1DeviceContext::CreateBitmapFromDxgiSurface, as a function of the
      surface and the requested properties. */
  type CreateBitmap = (Handle, BitmapProperties) -> Result<Handle, PlatformError>

  /** ID3D11On12Device::CreateWrappedResource, as a function of the resource,
      the D3D11 bind flags and the in/out states. */
  type CreateWrapper = (Handle, nat, nat, nat) -> Result<Handle, PlatformError>

  /** Makes a target bitmap over `surface`, or returns the platform's error. */
  function MakeBitmap(create: CreateBitmap, surface: Handle, props: BitmapProperties): (r: Result<Bitmap, PlatformError>)
    ensures r.Ok? <==> create(surface, props).Ok?
    ensures r.Ok? ==> r.value.handle == create(surface, props).value
    ensures r.Ok? ==> r.value.surface == surface && r.value.props == props
    ensures r.Err? ==> r.error == create(surface, props).error
  {
    match create(surface, props)
    case Ok(h) => Ok(Bitmap(h, surface, props))
    case Err(e) => Err(e)
  }

  /** Wraps `resource` for D3D11 as a render target with the given states. */
  function MakeWrapper(create: CreateWrapper, resource: Handle, inState: nat, outState: nat): (r: Result<Wrapper, PlatformError>)
    ensures r.Ok? <==> create(resource, BIND_RENDER_TARGET, inState, outState).Ok?
    ensures r.Ok? ==> r.value.handle == create(resource, BIND_RENDER_TARGET, inState, outState).value
    ensures r.Ok? ==> r.value.resource == resource && r.value.bindFlags == BIND_RENDER_TARGET
    ensures r.Ok? ==> r.value.inState == inState && r.value.outState == outState
    ensures r.Err? ==> r.error == create(resource, BIND_RENDER_TARGET, inState, outState).error
  {
    match create(resource, BIND_RENDER_TARGET, inState, outState)
    case Ok(h) => Ok(Wrapper(h, resource, BIND_RENDER_TARGET, inState, outState))
    case Err(e) => Err(e)
  }

  /** An object a caller hands to the older revision's `render_target` as
      a bare interface: what it answers to the casts the backends make
      (`surface` is the error, if any, of the cast to IDXGISurface) and
      the description fields they read. */
  datatype ForeignObject = ForeignObject(
    handle: Handle, isTexture: bool, isResource: bool, isBitmap: bool,
    surface: Result<(), PlatformError>, bindFlags: nat, resourceFlags: nat, format: nat)
}
