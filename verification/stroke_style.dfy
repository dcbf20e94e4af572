/** Stroke styles: src/stroke_style.rs and its older twin mltg/src/stroke_style.rs.

    The caller describes a stroke with `StrokeStyleProperties`; creating the
    style lowers that description to the platform's
    D2D1_STROKE_STYLE_PROPERTIES record plus an optional array of custom
    dash lengths, and hands both to the factory. The factory call itself is
    a parameter (its result), so what is modelled is the lowering.
 */
module StrokeStyle {

  import opened Results
  import Errors

  type F32 = real

  datatype CapStyle = Flat | Square | Round | Triangle

  /** `#[repr(u32)]` discriminants: the D2D1_CAP_STYLE values. */
  function CapCode(c: CapStyle): (n: nat)
    ensures n < 4
  {
    match c
    case Flat => 0
    case Square => 1
    case Round => 2
    case Triangle => 3
  }

  function CapFromCode(n: nat): (c: CapStyle)
    ensures n < 4 ==> CapCode(c) == n
  {
    if n == 0 then Flat else if n == 1 then Square else if n == 2 then Round else Triangle
  }

  lemma CapRoundTrip(c: CapStyle)
    ensures CapFromCode(CapCode(c)) == c
  {
  }

  datatype LineJoin = Miter | Bevel | RoundJoin | MiterOrBevel(limit: F32)

  datatype DashStyle = Solid | Dash | Dot | DashDot | DashDotDot | Custom(dashes: seq<F32>)

  datatype DashSpec = DashSpec(cap: CapStyle, style: DashStyle, offset: F32)

  datatype Properties = Properties(
    startCap: CapStyle, endCap: CapStyle, lineJoin: LineJoin, dash: Option<DashSpec>)

  /** `impl Default for Dash`. */
  const DefaultDash: DashSpec := DashSpec(Flat, Solid, 0.0)

  /** `impl Default for StrokeStyleProperties`: flat caps, mitred joins, no dash. */
  const DefaultProperties: Properties := Properties(Flat, Flat, Miter, None)

  // D2D1_LINE_JOIN and D2D1_DASH_STYLE values.
  const LINE_JOIN_MITER: nat := 0
  const LINE_JOIN_BEVEL: nat := 1
  const LINE_JOIN_ROUND: nat := 2
  const LINE_JOIN_MITER_OR_BEVEL: nat := 3

  const DASH_STYLE_SOLID: nat := 0
  const DASH_STYLE_CUSTOM: nat := 5

  /** D2D1_STROKE_STYLE_PROPERTIES. */
  datatype D2DStrokeStyleProperties = D2DStrokeStyleProperties(
    startCap: nat, endCap: nat, dashCap: nat, lineJoin: nat,
    miterLimit: F32, dashStyle: nat, dashOffset: F32)

  /** What the factory's CreateStrokeStyle is called with. */
  datatype Request = Request(props: D2DStrokeStyleProperties, dashes: Option<seq<F32>>)

  /** A created stroke style: the platform object and the request that made it. */
  datatype Style = Style(handle: nat, request: Request)

  function JoinOf(j: LineJoin): (r: (nat, F32))
    ensures r.0 < 4
    ensures r.0 == LINE_JOIN_MITER_OR_BEVEL <==> j.MiterOrBevel?
    ensures j.MiterOrBevel? ==> r.1 == j.limit
    ensures !j.MiterOrBevel? ==> r.1 == 1.0
  {
    match j
    case Miter => (LINE_JOIN_MITER, 1.0)
    case Bevel => (LINE_JOIN_BEVEL, 1.0)
    case RoundJoin => (LINE_JOIN_ROUND, 1.0)
    case MiterOrBevel(limit) => (LINE_JOIN_MITER_OR_BEVEL, limit)
  }

  function DashStyleOf(s: DashStyle): (r: (nat, Option<seq<F32>>))
    ensures r.0 < 6
    ensures r.1.Some? <==> s.Custom?
    ensures r.0 == DASH_STYLE_CUSTOM <==> s.Custom?
    ensures s.Custom? ==> r.1.value == s.dashes
  {
    match s
    case Solid => (DASH_STYLE_SOLID, None)
    case Dash => (1, None)
    case Dot => (2, None)
    case DashDot => (3, None)
    case DashDotDot => (4, None)
    case Custom(d) => (DASH_STYLE_CUSTOM, Some(d))
  }

  /** The lowering done by `StrokeStyle::new` before calling the factory. */
  function Lower(p: Properties): (r: Request)
    ensures r.props.startCap == CapCode(p.startCap) && r.props.endCap == CapCode(p.endCap)
    ensures p.lineJoin.MiterOrBevel? ==> r.props.miterLimit == p.lineJoin.limit
    ensures !p.lineJoin.MiterOrBevel? ==> r.props.miterLimit == 1.0
    ensures r.dashes.Some? <==> p.dash.Some? && p.dash.value.style.Custom?
    ensures p.dash.None? ==>
      r.props.dashCap == CapCode(Flat) && r.props.dashStyle == DASH_STYLE_SOLID && r.props.dashOffset == 0.0
    ensures p.dash.Some? ==>
      r.props.dashCap == CapCode(p.dash.value.cap) && r.props.dashOffset == p.dash.value.offset
  {
    var (join, limit) := JoinOf(p.lineJoin);
    var (dashCap, dashStyle, dashOffset, dashes) :=
      match p.dash
      case Some(d) =>
        var (style, dashes) := DashStyleOf(d.style);
        (CapCode(d.cap), style, d.offset, dashes)
      case None => (CapCode(Flat), DASH_STYLE_SOLID, 0.0, None);
    Request(
      D2DStrokeStyleProperties(CapCode(p.startCap), CapCode(p.endCap), dashCap, join, limit, dashStyle, dashOffset),
      dashes)
  }

  /** `StrokeStyle::new`: the factory result decides success. */
  function New(p: Properties, created: Result<nat, Errors.PlatformError>): (r: Result<Style, Errors.Error>)
    ensures r.Ok? <==> created.Ok?
    ensures r.Ok? ==> r.value.handle == created.value && r.value.request == Lower(p)
    ensures r.Err? ==> r.error == Errors.FromPlatform(created.error)
  {
    match created
    case Ok(h) => Ok(Style(h, Lower(p)))
    case Err(e) => Err(Errors.FromPlatform(e))
  }

  /** Properties with the information the lowering keeps: an absent dash and
      the default dash produce the same record, and nothing else is lost. */
  function Canon(p: Properties): (c: Properties)
  {
    if p.dash == Some(DefaultDash) then p.(dash := None) else p
  }

  function JoinFromCode(code: nat, limit: F32): LineJoin
  {
    if code == LINE_JOIN_MITER then Miter
    else if code == LINE_JOIN_BEVEL then Bevel
    else if code == LINE_JOIN_ROUND then RoundJoin
    else MiterOrBevel(limit)
  }

  function DashStyleFromCode(code: nat, dashes: Option<seq<F32>>): DashStyle
  {
    if code == DASH_STYLE_SOLID then Solid
    else if code == 1 then Dash
    else if code == 2 then Dot
    else if code == 3 then DashDot
    else if code == 4 then DashDotDot
    else Custom(if dashes.Some? then dashes.value else [])
  }

  /** Reads a request back into (canonical) caller properties. */
  function Raise(q: Request): Properties
  {
    var d := q.props;
    var dash := DashSpec(CapFromCode(d.dashCap), DashStyleFromCode(d.dashStyle, q.dashes), d.dashOffset);
    Properties(
      CapFromCode(d.startCap), CapFromCode(d.endCap), JoinFromCode(d.lineJoin, d.miterLimit),
      if dash == DefaultDash then None else Some(dash))
  }

  lemma RaiseLower(p: Properties)
    ensures Raise(Lower(p)) == Canon(p)
  {
    var r := Lower(p);
    CapRoundTrip(p.startCap);
    CapRoundTrip(p.endCap);
    match p.dash {
      case None =>
      case Some(d) =>
        CapRoundTrip(d.cap);
        assert DashStyleFromCode(r.props.dashStyle, r.dashes) == d.style;
    }
    assert JoinFromCode(r.props.lineJoin, r.props.miterLimit) == p.lineJoin;
  }

  lemma LowerCanon(p: Properties)
    ensures Lower(Canon(p)) == Lower(p)
  {
  }

  /** Two property sets lower to the same platform request exactly when they
      agree after canonicalisation. */
  lemma LowerEqualIff(a: Properties, b: Properties)
    ensures Lower(a) == Lower(b) <==> Canon(a) == Canon(b)
  {
    if Lower(a) == Lower(b) {
      RaiseLower(a);
      RaiseLower(b);
    } else {
      LowerCanon(a);
      LowerCanon(b);
    }
  }

  /** The default properties and the default properties with an explicit
      default dash produce the same request. */
  lemma DefaultDashIsNoDash()
    ensures Lower(DefaultProperties) == Lower(DefaultProperties.(dash := Some(DefaultDash)))
    ensures Lower(DefaultProperties).dashes.None?
  {
  }

  // ----- mltg/src/stroke_style.rs: dash array as (pointer, length) -----

  /** The older call passes the dash array as a possibly-null pointer and a length. */
  datatype LegacyRequest = LegacyRequest(props: D2DStrokeStyleProperties, dashes: Option<seq<F32>>, len: nat)

  function LegacyLower(p: Properties): (r: LegacyRequest)
    ensures r.dashes.None? ==> r.len == 0
    ensures r.dashes.Some? ==> r.len == |r.dashes.value|
  {
    var (join, limit) := JoinOf(p.lineJoin);
    var (dashCap, dashStyle, dashOffset, dashes, len) :=
      match p.dash
      case Some(d) =>
        var (style, dashes, len) :=
          match d.style
          case Solid => (DASH_STYLE_SOLID, None, 0)
          case Dash => (1, None, 0)
          case Dot => (2, None, 0)
          case DashDot => (3, None, 0)
          case DashDotDot => (4, None, 0)
          case Custom(ds) => (DASH_STYLE_CUSTOM, Some(ds), |ds|);
        (CapCode(d.cap), style, d.offset, dashes, len)
      case None => (CapCode(Flat), DASH_STYLE_SOLID, 0.0, None, 0);
    LegacyRequest(
      D2DStrokeStyleProperties(CapCode(p.startCap), CapCode(p.endCap), dashCap, join, limit, dashStyle, dashOffset),
      dashes, len)
  }

  /** The two revisions build the same platform record and the same dashes. */
  lemma LegacyLowerAgrees(p: Properties)
    ensures LegacyLower(p).props == Lower(p).props
    ensures LegacyLower(p).dashes == Lower(p).dashes
  {
  }

  function LegacyNew(p: Properties, created: Result<nat, Errors.PlatformError>): (r: Result<Style, Errors.PlatformError>)
    ensures r.Ok? <==> created.Ok?
    ensures r.Ok? ==> r.value.handle == created.value && r.value.request == Lower(p)
    ensures r.Err? ==> r.error == created.error
  {
    LegacyLowerAgrees(p);
    var q := LegacyLower(p);
    match created
    case Ok(h) => Ok(Style(h, Request(q.props, q.dashes)))
    case Err(e) => Err(e)
  }
}
