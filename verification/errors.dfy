/** The crate's error type and the closed list of HRESULT kinds it can be
    compared with (src/error.rs).

    A platform error is an HRESULT code plus the message text the platform
    attaches to it; the message is looked up by the operating system and is a
    parameter here.
 */
module Errors {

  import Results

  /** A signed 32-bit integer, the representation of an HRESULT. */
  type i32 = x: int | -0x8000_0000 <= x < 0x8000_0000

  /** An unsigned 32-bit integer, the way HRESULT constants are written. */
  type u32 = x: int | 0 <= x < 0x1_0000_0000

  /** Rust's `as i32` on a `u32` bit pattern: values from 2^31 up wrap to negatives. */
  function AsI32(u: u32): (r: i32)
    ensures 0 <= r ==> r == u
    ensures r < 0 ==> r + 0x1_0000_0000 == u
  {
    if u < 0x8000_0000 then u else u - 0x1_0000_0000
  }

  /** The inverse reinterpretation, `as u32` on an `i32`. */
  function AsU32(x: i32): (r: u32)
    ensures AsI32(r) == x
  {
    if x < 0 then x + 0x1_0000_0000 else x
  }

  lemma AsI32Injective(a: u32, b: u32)
    requires AsI32(a) == AsI32(b)
    ensures a == b
  {
  }

  /** `windows::core::Error`: an HRESULT and its message. */
  datatype PlatformError = PlatformError(code: i32, message: string)

  /** The crate's `Error`, a newtype over the platform error. */
  datatype Error = Error(inner: PlatformError)

  datatype ErrorKind =
    | Ok | False | Fail | Abort | AccessDenied | InvalidArg | NoInterface | NotImpl
    | OutOfMemory | Pointer | BadNumber | WrongState | ZeroVector | CyclicGraph
    | InvalidCall | WrongFactory | InternalError | InvalidTarget | ScannerFailed
    | NotInitialized | RecreateTarget | InvalidProperty | NoSubproperties
    | PrintJobClosed | BitmapCannotDraw | NoHardwareDevice | InvalidGlyphImage
    | PushPopUnbalanced | UnsupportedVersion | LayerAleradyInUse | ScreenAccessDenied
    | DisplayStateInvalid | ShaderCompileFailed | UnsupportedOperation
    | WrongResourceDomain | BitmapBoundAsTarget | IntermediateTooLarge
    | ExceedsMaxBitmapSize | EffectIsNotRegistered | IncompatibleBrushTypes
    | TooManyShaderElements | MaxTextureSizeExceeded | OriginalTargetNotBound
    | TargetNotGdiCompatbile | TextEffectIsWrongType | TooManyTransformInputs
    | PrintFormatNotSupported | TextRendererNotReleased | InvalidGraphConfiguration
    | PopCallDidNotMatchPush | DisplayFormatNotSupported | OutstandingBitmapReferences
    | InsufficientDeviceCapabilities | RenderTargetHasLayerOrClipRect
    | InvalidInternalGraphConfiguration

  /** The HRESULT bit pattern of each kind, as defined by winerror.h and d2derr.h. */
  function HResultBits(k: ErrorKind): u32
  {
    match k
    case Ok => 0x0000_0000
    case False => 0x0000_0001
    case Fail => 0x8000_4005
    case Abort => 0x8000_4004
    case AccessDenied => 0x8007_0005
    case InvalidArg => 0x8007_0057
    case NoInterface => 0x8000_4002
    case NotImpl => 0x8000_4001
    case OutOfMemory => 0x8007_000E
    case Pointer => 0x8000_4003
    case WrongState => 0x8899_0001
    case NotInitialized => 0x8899_0002
    case UnsupportedOperation => 0x8899_0003
    case ScannerFailed => 0x8899_0004
    case ScreenAccessDenied => 0x8899_0005
    case DisplayStateInvalid => 0x8899_0006
    case ZeroVector => 0x8899_0007
    case InternalError => 0x8899_0008
    case DisplayFormatNotSupported => 0x8899_0009
    case InvalidCall => 0x8899_000A
    case NoHardwareDevice => 0x8899_000B
    case RecreateTarget => 0x8899_000C
    case TooManyShaderElements => 0x8899_000D
    case ShaderCompileFailed => 0x8899_000E
    case MaxTextureSizeExceeded => 0x8899_000F
    case UnsupportedVersion => 0x8899_0010
    case BadNumber => 0x8899_0011
    case WrongFactory => 0x8899_0012
    case LayerAleradyInUse => 0x8899_0013
    case PopCallDidNotMatchPush => 0x8899_0014
    case WrongResourceDomain => 0x8899_0015
    case PushPopUnbalanced => 0x8899_0016
    case RenderTargetHasLayerOrClipRect => 0x8899_0017
    case IncompatibleBrushTypes => 0x8899_0018
    case TargetNotGdiCompatbile => 0x8899_001A
    case TextEffectIsWrongType => 0x8899_001B
    case TextRendererNotReleased => 0x8899_001C
    case ExceedsMaxBitmapSize => 0x8899_001D
    case InvalidGraphConfiguration => 0x8899_001E
    case InvalidInternalGraphConfiguration => 0x8899_001F
    case CyclicGraph => 0x8899_0020
    case BitmapCannotDraw => 0x8899_0021
    case OutstandingBitmapReferences => 0x8899_0022
    case OriginalTargetNotBound => 0x8899_0023
    case InvalidTarget => 0x8899_0024
    case BitmapBoundAsTarget => 0x8899_0025
    case InsufficientDeviceCapabilities => 0x8899_0026
    case IntermediateTooLarge => 0x8899_0027
    case EffectIsNotRegistered => 0x8899_0028
    case InvalidProperty => 0x8899_0029
    case NoSubproperties => 0x8899_002A
    case PrintJobClosed => 0x8899_002B
    case PrintFormatNotSupported => 0x8899_002C
    case TooManyTransformInputs => 0x8899_002D
    case InvalidGlyphImage => 0x8899_002E
  }

  /** `kind as i32`: the enum is `repr(i32)`, so its discriminant is the
      HRESULT reinterpreted as a signed value. */
  function Code(k: ErrorKind): i32
  {
    AsI32(HResultBits(k))
  }

  /** The kind whose discriminant is `code`, if there is one; an independent
      decoder used to show that discriminants are distinct. */
  function KindOfBits(b: u32): (r: Results.Option<ErrorKind>)
  {
    if b == 0x0000_0000 then Results.Some(Ok)
    else if b == 0x0000_0001 then Results.Some(False)
    else if b == 0x8000_4005 then Results.Some(Fail)
    else if b == 0x8000_4004 then Results.Some(Abort)
    else if b == 0x8007_0005 then Results.Some(AccessDenied)
    else if b == 0x8007_0057 then Results.Some(InvalidArg)
    else if b == 0x8000_4002 then Results.Some(NoInterface)
    else if b == 0x8000_4001 then Results.Some(NotImpl)
    else if b == 0x8007_000E then Results.Some(OutOfMemory)
    else if b == 0x8000_4003 then Results.Some(Pointer)
    else if b / 0x1_0000 != 0x8899 then Results.None
    else D2DKindOfLow(b % 0x1_0000)
  }

  /** The D2DERR kinds, all in facility 0x899, by the low 16 bits of their code. */
  function D2DKindOfLow(low: int): Results.Option<ErrorKind>
  {
    match low
    case 0x01 => Results.Some(WrongState)
    case 0x02 => Results.Some(NotInitialized)
    case 0x03 => Results.Some(UnsupportedOperation)
    case 0x04 => Results.Some(ScannerFailed)
    case 0x05 => Results.Some(ScreenAccessDenied)
    case 0x06 => Results.Some(DisplayStateInvalid)
    case 0x07 => Results.Some(ZeroVector)
    case 0x08 => Results.Some(InternalError)
    case 0x09 => Results.Some(DisplayFormatNotSupported)
    case 0x0A => Results.Some(InvalidCall)
    case 0x0B => Results.Some(NoHardwareDevice)
    case 0x0C => Results.Some(RecreateTarget)
    case 0x0D => Results.Some(TooManyShaderElements)
    case 0x0E => Results.Some(ShaderCompileFailed)
    case 0x0F => Results.Some(MaxTextureSizeExceeded)
    case 0x10 => Results.Some(UnsupportedVersion)
    case 0x11 => Results.Some(BadNumber)
    case 0x12 => Results.Some(WrongFactory)
    case 0x13 => Results.Some(LayerAleradyInUse)
    case 0x14 => Results.Some(PopCallDidNotMatchPush)
    case 0x15 => Results.Some(WrongResourceDomain)
    case 0x16 => Results.Some(PushPopUnbalanced)
    case 0x17 => Results.Some(RenderTargetHasLayerOrClipRect)
    case 0x18 => Results.Some(IncompatibleBrushTypes)
    case 0x1A => Results.Some(TargetNotGdiCompatbile)
    case 0x1B => Results.Some(TextEffectIsWrongType)
    case 0x1C => Results.Some(TextRendererNotReleased)
    case 0x1D => Results.Some(ExceedsMaxBitmapSize)
    case 0x1E => Results.Some(InvalidGraphConfiguration)
    case 0x1F => Results.Some(InvalidInternalGraphConfiguration)
    case 0x20 => Results.Some(CyclicGraph)
    case 0x21 => Results.Some(BitmapCannotDraw)
    case 0x22 => Results.Some(OutstandingBitmapReferences)
    case 0x23 => Results.Some(OriginalTargetNotBound)
    case 0x24 => Results.Some(InvalidTarget)
    case 0x25 => Results.Some(BitmapBoundAsTarget)
    case 0x26 => Results.Some(InsufficientDeviceCapabilities)
    case 0x27 => Results.Some(IntermediateTooLarge)
    case 0x28 => Results.Some(EffectIsNotRegistered)
    case 0x29 => Results.Some(InvalidProperty)
    case 0x2A => Results.Some(NoSubproperties)
    case 0x2B => Results.Some(PrintJobClosed)
    case 0x2C => Results.Some(PrintFormatNotSupported)
    case 0x2D => Results.Some(TooManyTransformInputs)
    case 0x2E => Results.Some(InvalidGlyphImage)
    case _ => Results.None
  }

  /** Decoding the bit pattern of a kind gives that kind back. */
  lemma KindOfBitsRoundTrip(k: ErrorKind)
    ensures KindOfBits(HResultBits(k)) == Results.Some(k)
  {
  }

  /** Distinct kinds have distinct discriminants. */
  lemma CodeInjective(a: ErrorKind, b: ErrorKind)
    ensures Code(a) == Code(b) <==> a == b
  {
    if Code(a) == Code(b) {
      AsI32Injective(HResultBits(a), HResultBits(b));
      KindOfBitsRoundTrip(a);
      KindOfBitsRoundTrip(b);
    }
  }

  /** `From<windows::core::Error> for Error`: wraps the value unchanged. */
  function FromPlatform(e: PlatformError): (r: Error)
    ensures r.inner == e
    ensures r.inner.code == e.code
  {
    Error(e)
  }

  /** `From<ErrorKind> for Error`: the HRESULT `kind as i32`, with whatever
      message the platform attaches to it. */
  function FromKind(k: ErrorKind, message: string): (r: Error)
    ensures ErrorEqKind(r, k)
    ensures forall k' :: ErrorEqKind(r, k') <==> k' == k
  {
    CodeUniqueness(k);
    Error(PlatformError(Code(k), message))
  }

  lemma CodeUniqueness(k: ErrorKind)
    ensures forall k' :: Code(k') == Code(k) <==> k' == k
  {
    forall k' ensures Code(k') == Code(k) <==> k' == k {
      CodeInjective(k', k);
    }
  }

  /** `PartialEq<ErrorKind> for Error`: compares the HRESULT code only. */
  predicate ErrorEqKind(e: Error, k: ErrorKind)
  {
    e.inner.code == Code(k)
  }

  /** `PartialEq<Error> for ErrorKind`: delegates to the other direction. */
  predicate KindEqError(k: ErrorKind, e: Error)
  {
    ErrorEqKind(e, k)
  }

  /** Equality between an error and a kind ignores the message and is symmetric. */
  lemma EqualityIgnoresMessage(e: Error, k: ErrorKind, message: string)
    ensures ErrorEqKind(e, k) <==> ErrorEqKind(Error(PlatformError(e.inner.code, message)), k)
    ensures KindEqError(k, e) <==> ErrorEqKind(e, k)
  {
  }

  /** The three assertions of the crate's `eq_test`, for every message. */
  lemma EqTest(message: string)
    ensures ErrorEqKind(FromKind(Ok, message), Ok)
    ensures KindEqError(Ok, FromKind(Ok, message))
    ensures !ErrorEqKind(FromKind(Ok, message), Fail)
  {
  }
}
