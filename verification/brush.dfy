/** Gradient stops, stop collections and brushes: src/brush.rs and the
    older mltg/src/brush.rs.

    Creating a collection or a brush is one factory call; its result is a
    parameter, and what the model states is the request the wrapper builds
    for it and which variant the caller gets back.
 */
module Brush {

  import opened Geometry
  import opened Results
  import opened Platform
  import Shapes
  import Errors

  datatype GradientStop = GradientStop(position: F32, color: Rgba)

  /** D2D1_GRADIENT_STOP. */
  datatype D2DGradientStop = D2DGradientStop(position: F32, color: D2DColor)

  /** `GradientStop::new`. */
  function NewGradientStop(position: F32, color: Rgba): (s: GradientStop)
    ensures s.position == position && s.color == color
  {
    GradientStop(position, color)
  }

  /** `From<(f32, T)> for GradientStop`: the same stop as `new` on the two components. */
  function GradientStopFromTuple(t: (F32, Rgba)): (s: GradientStop)
    ensures s == NewGradientStop(t.0, t.1)
  {
    GradientStop(t.0, t.1)
  }

  function GradientStopFromD2D(s: D2DGradientStop): GradientStop
  {
    GradientStop(s.position, RgbaFromD2D(s.color))
  }

  /** `From<GradientStop> for D2D1_GRADIENT_STOP`: position and colour copied. */
  function GradientStopToD2D(s: GradientStop): (r: D2DGradientStop)
    ensures r.position == s.position && r.color == RgbaToD2D(s.color)
    ensures GradientStopFromD2D(r) == s
  {
    D2DGradientStop(s.position, RgbaToD2D(s.color))
  }

  datatype GradientMode = Clamp | Mirror | Wrap

  // D2D1_EXTEND_MODE values and D2D1_GAMMA_2_2.
  const EXTEND_MODE_CLAMP: nat := 0
  const EXTEND_MODE_WRAP: nat := 1
  const EXTEND_MODE_MIRROR: nat := 2
  const GAMMA_2_2: nat := 0

  /** `#[repr(u32)]` discriminants of `GradientMode`. */
  function ModeCode(m: GradientMode): (n: nat)
    ensures n <= 2
  {
    match m
    case Clamp => EXTEND_MODE_CLAMP
    case Mirror => EXTEND_MODE_MIRROR
    case Wrap => EXTEND_MODE_WRAP
  }

  function ModeFromCode(n: nat): GradientMode
  {
    if n == EXTEND_MODE_CLAMP then Clamp else if n == EXTEND_MODE_MIRROR then Mirror else Wrap
  }

  /** The three modes have distinct codes. */
  lemma ModeCodeInjective(a: GradientMode, b: GradientMode)
    ensures ModeFromCode(ModeCode(a)) == a
    ensures ModeCode(a) == ModeCode(b) <==> a == b
  {
  }

  /** The arguments of CreateGradientStopCollection. */
  datatype CollectionRequest = CollectionRequest(stops: seq<D2DGradientStop>, gamma: nat, extendMode: nat)

  datatype GradientStopCollection = GradientStopCollection(handle: Handle, request: CollectionRequest)

  /** The `iter().cloned().map(..).collect()` of `GradientStopCollection::new`:
      one platform stop per input stop, in input order, nothing sorted or dropped. */
  method ConvertStops(stops: seq<GradientStop>) returns (r: seq<D2DGradientStop>)
    ensures |r| == |stops|
    ensures forall i | 0 <= i < |stops| :: r[i] == GradientStopToD2D(stops[i])
    ensures forall i | 0 <= i < |stops| :: GradientStopFromD2D(r[i]) == stops[i]
  {
    r := [];
    var i := 0;
    while i < |stops|
      invariant 0 <= i <= |stops|
      invariant |r| == i
      invariant forall j | 0 <= j < i :: r[j] == GradientStopToD2D(stops[j])
    {
      r := r + [GradientStopToD2D(stops[i])];
      i := i + 1;
    }
  }

  /** `GradientStopCollection::new` (src): the converted stops, gamma 2.2 and
      the chosen mode's extend mode. */
  method NewCollection(mode: GradientMode, stops: seq<GradientStop>, created: Result<Handle, Errors.PlatformError>)
    returns (r: Result<GradientStopCollection, Errors.Error>)
    ensures r.Ok? <==> created.Ok?
    ensures created.Err? ==> r.error == Errors.FromPlatform(created.error)
    ensures r.Ok? ==> r.value.handle == created.value
    ensures r.Ok? ==> r.value.request.gamma == GAMMA_2_2 && r.value.request.extendMode == ModeCode(mode)
    ensures r.Ok? ==> ModeFromCode(r.value.request.extendMode) == mode
    ensures r.Ok? ==> |r.value.request.stops| == |stops|
    ensures r.Ok? ==> forall i | 0 <= i < |stops| :: GradientStopFromD2D(r.value.request.stops[i]) == stops[i]
  {
    var converted := ConvertStops(stops);
    match created {
      case Ok(h) =>
        ModeCodeInjective(mode, mode);
        r := Ok(GradientStopCollection(h, CollectionRequest(converted, GAMMA_2_2, ModeCode(mode))));
      case Err(e) =>
        r := Err(Errors.FromPlatform(e));
    }
  }

  /** `GradientStopCollection::new` (mltg): the same request, but the extend
      mode is always WRAP. */
  method LegacyNewCollection(stops: seq<GradientStop>, created: Result<Handle, Errors.PlatformError>)
    returns (r: Result<GradientStopCollection, Errors.PlatformError>)
    ensures r.Ok? <==> created.Ok?
    ensures created.Err? ==> r.error == created.error
    ensures r.Ok? ==> r.value.handle == created.value
    ensures r.Ok? ==> r.value.request.gamma == GAMMA_2_2 && r.value.request.extendMode == ModeCode(Wrap)
    ensures r.Ok? ==> |r.value.request.stops| == |stops|
    ensures r.Ok? ==> forall i | 0 <= i < |stops| :: GradientStopFromD2D(r.value.request.stops[i]) == stops[i]
  {
    var converted := ConvertStops(stops);
    match created {
      case Ok(h) => r := Ok(GradientStopCollection(h, CollectionRequest(converted, GAMMA_2_2, EXTEND_MODE_WRAP)));
      case Err(e) => r := Err(e);
    }
  }

  /** D2D1_LINEAR_GRADIENT_BRUSH_PROPERTIES. */
  datatype LinearProperties = LinearProperties(startPoint: D2DPoint, endPoint: D2DPoint)

  /** D2D1_RADIAL_GRADIENT_BRUSH_PROPERTIES. */
  datatype RadialProperties = RadialProperties(
    center: D2DPoint, gradientOriginOffset: D2DPoint, radiusX: F32, radiusY: F32)

  /** `Brush`: one variant per brush kind, each holding the platform brush
      and what it was created from. */
  datatype Brush =
    | SolidColor(brush: Handle, color: D2DColor)
    | LinearGradient(brush: Handle, linear: LinearProperties, collection: Handle)
    | RadialGradient(brush: Handle, radial: RadialProperties, collection: Handle)

  /** `Brush::handle`: the underlying platform brush, whatever the variant. */
  function BrushHandle(b: Brush): Handle
  {
    match b
    case SolidColor(h, _) => h
    case LinearGradient(h, _, _) => h
    case RadialGradient(h, _, _) => h
  }

  /** `Brush::solid_color`. */
  function SolidColorBrush(color: Rgba, created: Result<Handle, Errors.PlatformError>): (r: Result<Brush, Errors.Error>)
    ensures r.Ok? <==> created.Ok?
    ensures created.Err? ==> r.error == Errors.FromPlatform(created.error)
    ensures r.Ok? ==> r.value.SolidColor? && BrushHandle(r.value) == created.value
    ensures r.Ok? ==> RgbaFromD2D(r.value.color) == color
  {
    match created
    case Ok(h) => Ok(SolidColor(h, RgbaToD2D(color)))
    case Err(e) => Err(Errors.FromPlatform(e))
  }

  /** `Brush::linear_gradient`: start and end points, over the given collection. */
  function LinearGradientBrush(start: Point, end: Point, stops: GradientStopCollection,
                               created: Result<Handle, Errors.PlatformError>): (r: Result<Brush, Errors.Error>)
    ensures r.Ok? <==> created.Ok?
    ensures created.Err? ==> r.error == Errors.FromPlatform(created.error)
    ensures r.Ok? ==> r.value.LinearGradient? && BrushHandle(r.value) == created.value
    ensures r.Ok? ==> PointFromD2D(r.value.linear.startPoint) == start && PointFromD2D(r.value.linear.endPoint) == end
    ensures r.Ok? ==> r.value.collection == stops.handle
  {
    match created
    case Ok(h) => Ok(LinearGradient(h, LinearProperties(PointToD2D(start), PointToD2D(end)), stops.handle))
    case Err(e) => Err(Errors.FromPlatform(e))
  }

  /** `Brush::radial_gradient` (src): centre and radii from the ellipse, the
      gradient origin offset from `offset`. */
  function RadialGradientBrush(ellipse: Shapes.Ellipse, offset: Point, stops: GradientStopCollection,
                               created: Result<Handle, Errors.PlatformError>): (r: Result<Brush, Errors.Error>)
    ensures r.Ok? <==> created.Ok?
    ensures created.Err? ==> r.error == Errors.FromPlatform(created.error)
    ensures r.Ok? ==> r.value.RadialGradient? && BrushHandle(r.value) == created.value
    ensures r.Ok? ==> PointFromD2D(r.value.radial.center) == ellipse.center
    ensures r.Ok? ==> r.value.radial.radiusX == ellipse.radius.x && r.value.radial.radiusY == ellipse.radius.y
    ensures r.Ok? ==> PointFromD2D(r.value.radial.gradientOriginOffset) == offset
    ensures r.Ok? ==> r.value.collection == stops.handle
  {
    match created
    case Ok(h) =>
      var e := Shapes.EllipseToD2D(ellipse);
      Ok(RadialGradient(h, RadialProperties(e.point, PointToD2D(offset), e.radiusX, e.radiusY), stops.handle))
    case Err(e) => Err(Errors.FromPlatform(e))
  }

  /** `Brush::radial_gradient` (mltg): centre, offset and radius vector given separately. */
  function LegacyRadialGradientBrush(center: Point, offset: Point, radius: Vector, stops: GradientStopCollection,
                                     created: Result<Handle, Errors.PlatformError>): (r: Result<Brush, Errors.PlatformError>)
    ensures r.Ok? <==> created.Ok?
    ensures created.Err? ==> r.error == created.error
    ensures r.Ok? ==> r.value.RadialGradient? && BrushHandle(r.value) == created.value
    ensures r.Ok? ==> PointFromD2D(r.value.radial.center) == center
    ensures r.Ok? ==> PointFromD2D(r.value.radial.gradientOriginOffset) == offset
    ensures r.Ok? ==> r.value.radial.radiusX == radius.x && r.value.radial.radiusY == radius.y
  {
    match created
    case Ok(h) =>
      Ok(RadialGradient(h, RadialProperties(PointToD2D(center), PointToD2D(offset), radius.x, radius.y), stops.handle))
    case Err(e) => Err(e)
  }

  /** The older radial brush builds the same brush as the newer one given the
      ellipse with that centre and radius. */
  lemma LegacyRadialAgrees(center: Point, offset: Point, radius: Vector, stops: GradientStopCollection,
                           created: Result<Handle, Errors.PlatformError>)
    ensures var older := LegacyRadialGradientBrush(center, offset, radius, stops, created);
      var newer := RadialGradientBrush(Shapes.Ellipse(center, radius), offset, stops, created);
      (older.Ok? <==> newer.Ok?) && (older.Ok? ==> older.value == newer.value)
  {
  }

  /** Each constructor yields its own variant, so the variants tell the
      constructors apart. */
  lemma ConstructorsYieldDistinctVariants(color: Rgba, start: Point, end: Point, ellipse: Shapes.Ellipse,
                                          offset: Point, stops: GradientStopCollection, h: Handle)
    ensures var s := SolidColorBrush(color, Ok(h)).value;
      var l := LinearGradientBrush(start, end, stops, Ok(h)).value;
      var r := RadialGradientBrush(ellipse, offset, stops, Ok(h)).value;
      s != l && l != r && s != r
      && BrushHandle(s) == BrushHandle(l) == BrushHandle(r) == h
  {
  }
}
