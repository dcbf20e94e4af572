/** The platform as the wrapper sees it: every Direct2D, D3D11 and
    D3D11On12 call the wrapper makes is an event appended to a trace, and
    a small abstract machine says which traces are legal.

    Objects the platform owns (bitmaps, wrapped resources, brushes,
    geometries, swap chains) are opaque handles. What the calls do to
    pixels is not modelled; only their order and arguments are.
 */
module Platform {

  import opened Geometry
  import opened Results

  /** An opaque platform object. */
  type Handle = nat

  /** D2D1_ROUNDED_RECT. */
  datatype D2DRoundedRect = D2DRoundedRect(rect: D2DRect, radiusX: F32, radiusY: F32)

  // D2D1_ANTIALIAS_MODE_PER_PRIMITIVE and the draw-text options the
  // text layout passes (ENABLE_COLOR_FONT | CLIP).
  const ANTIALIAS_MODE_PER_PRIMITIVE: nat := 0
  const DRAW_TEXT_OPTIONS_CLIP: nat := 2
  const DRAW_TEXT_OPTIONS_ENABLE_COLOR_FONT: nat := 4

  /** Calls on the device context that are only legal between BeginDraw and EndDraw. */
  datatype DcCall =
    | Clear(color: D2DColor)
    | FillRectangle(rect: D2DRect, brush: Handle)
    | DrawRectangle(rect: D2DRect, brush: Handle, width: F32, style: Option<Handle>)
    | FillEllipse(ellipse: D2DEllipse, brush: Handle)
    | DrawEllipse(ellipse: D2DEllipse, brush: Handle, width: F32, style: Option<Handle>)
    | FillRoundedRectangle(roundedRect: D2DRoundedRect, brush: Handle)
    | DrawRoundedRectangle(roundedRect: D2DRoundedRect, brush: Handle, width: F32, style: Option<Handle>)
    | DrawLine(p0: D2DPoint, p1: D2DPoint, brush: Handle, width: F32, style: Option<Handle>)
    | FillGeometry(geometry: Handle, brush: Handle)
    | DrawGeometry(geometry: Handle, brush: Handle, width: F32, style: Option<Handle>)
    | DrawBitmap(image: Handle, dest: D2DRect, opacity: F32, interpolation: nat, src: Option<D2DRect>)
    | DrawTextLayout(origin: D2DPoint, layout: Handle, brush: Handle, options: nat)
    | PushAxisAlignedClip(clip: D2DRect, antialias: nat)
    | PopAxisAlignedClip
    /** Drawing done by an object whose code is not part of this model (the
        older revision's image and text layout), as one call. */
    | Delegated(drawable: Handle)

  datatype Event =
    /** ID3D11On12Device::AcquireWrappedResources on one wrapper. */
    | AcquireWrapped(wrapper: Handle)
    /** ID3D11On12Device::ReleaseWrappedResources on one wrapper. */
    | ReleaseWrapped(wrapper: Handle)
    /** ID3D11DeviceContext::Flush and ClearState. */
    | Flush
    | ClearState
    /** ID2D1DeviceContext::SetTarget; `None` unbinds. */
    | SetTarget(bitmap: Option<Handle>)
    | BeginDraw
    | EndDraw
    /** IDXGISwapChain::Present / Present1. */
    | Present(swapChain: Handle, interval: nat, flags: nat)
    | Dc(call: DcCall)

  predicate IsDc(e: Event) { e.Dc? }

  predicate DcOnly(t: seq<Event>)
  {
    forall i | 0 <= i < |t| :: IsDc(t[i])
  }

  /** The abstract platform state: which wrappers are acquired (with
      multiplicity), which bitmap the device context targets, whether a
      BeginDraw is open, and how many axis-aligned clips are pushed. */
  datatype State = State(acquired: multiset<Handle>, bound: Option<Handle>, drawing: bool, clips: nat)

  /** Nothing acquired, nothing bound, no frame open. */
  predicate Quiescent(s: State)
  {
    s.acquired == multiset{} && s.bound.None? && !s.drawing && s.clips == 0
  }

  /** One legal step, or `None` when the call is out of protocol:
      releasing a wrapper that is not acquired, rebinding or presenting
      inside a frame, BeginDraw without a target or twice, EndDraw
      without BeginDraw, a device-context call outside a frame, or a pop
      with no clip pushed. */
  function Step(s: State, e: Event): Option<State>
  {
    match e
    case AcquireWrapped(w) => Some(s.(acquired := s.acquired + multiset{w}))
    case ReleaseWrapped(w) =>
      if w in s.acquired then Some(s.(acquired := s.acquired - multiset{w})) else None
    case Flush => Some(s)
    case ClearState => Some(s)
    case SetTarget(b) => if s.drawing then None else Some(s.(bound := b))
    case BeginDraw => if s.drawing || s.bound.None? then None else Some(s.(drawing := true, clips := 0))
    case EndDraw => if s.drawing then Some(s.(drawing := false, clips := 0)) else None
    case Present(_, _, _) => if s.drawing then None else Some(s)
    case Dc(c) =>
      if !s.drawing then None
      else if c.PushAxisAlignedClip? then Some(s.(clips := s.clips + 1))
      else if c.PopAxisAlignedClip? then (if s.clips == 0 then None else Some(s.(clips := s.clips - 1)))
      else Some(s)
  }

  /** Runs a trace from `s`; `None` as soon as one step is illegal. */
  function Run(s: State, t: seq<Event>): Option<State>
    decreases |t|
  {
    if |t| == 0 then Some(s)
    else
      match Step(s, t[0])
      case None => None
      case Some(s1) => Run(s1, t[1..])
  }

  lemma {:induction false} RunAppend(s: State, a: seq<Event>, b: seq<Event>)
    ensures Run(s, a + b) == (match Run(s, a) case None => None case Some(s1) => Run(s1, b))
    decreases |a|
  {
    if |a| == 0 {
      assert a + b == b;
    } else {
      assert (a + b)[0] == a[0];
      assert (a + b)[1..] == a[1..] + b;
      match Step(s, a[0]) {
        case None =>
        case Some(s1) => RunAppend(s1, a[1..], b);
      }
    }
  }

  /** Device-context calls touch neither the acquired wrappers nor the
      bound target nor the open frame: only the clip depth can change. */
  lemma {:induction false} DcRunKeepsFrame(s: State, t: seq<Event>)
    requires DcOnly(t)
    ensures Run(s, t).Some? ==>
      Run(s, t).value.acquired == s.acquired && Run(s, t).value.bound == s.bound
      && Run(s, t).value.drawing == s.drawing
    decreases |t|
  {
    if |t| > 0 {
      assert IsDc(t[0]);
      match Step(s, t[0]) {
        case None =>
        case Some(s1) =>
          assert DcOnly(t[1..]) by {
            forall i | 0 <= i < |t[1..]| ensures IsDc(t[1..][i]) {
              assert t[1..][i] == t[i + 1];
            }
          }
          DcRunKeepsFrame(s1, t[1..]);
      }
    }
  }

  /** Whether a callback's calls are legal inside a frame: run from an open
      frame with no clip pushed, they never pop more than they pushed. */
  ghost predicate LegalInFrame(t: seq<Event>)
  {
    DcOnly(t) && Run(State(multiset{}, Some(0), true, 0), t).Some?
  }

  /** Legality inside a frame depends only on the clip depth, not on which
      wrappers are acquired or which bitmap is bound. */
  lemma {:induction false} DcRunIndependent(s: State, u: State, t: seq<Event>)
    requires DcOnly(t)
    requires s.drawing && u.drawing && s.clips == u.clips
    ensures Run(s, t).Some? <==> Run(u, t).Some?
    ensures Run(s, t).Some? ==> Run(s, t).value.clips == Run(u, t).value.clips
    decreases |t|
  {
    if |t| > 0 {
      assert IsDc(t[0]);
      assert DcOnly(t[1..]) by {
        forall i | 0 <= i < |t[1..]| ensures IsDc(t[1..][i]) {
          assert t[1..][i] == t[i + 1];
        }
      }
      match Step(s, t[0]) {
        case None =>
        case Some(s1) =>
          DcRunIndependent(s1, Step(u, t[0]).value, t[1..]);
      }
    }
  }

  /** Number of times `e` occurs in `t`. */
  function Count(t: seq<Event>, e: Event): (n: nat)
    ensures n <= |t|
    ensures n == 0 <==> e !in t
    decreases |t|
  {
    if |t| == 0 then 0
    else (if t[0] == e then 1 else 0) + Count(t[1..], e)
  }

  lemma {:induction false} CountAppend(a: seq<Event>, b: seq<Event>, e: Event)
    ensures Count(a + b, e) == Count(a, e) + Count(b, e)
    decreases |a|
  {
    if |a| == 0 {
      assert a + b == b;
    } else {
      assert (a + b)[0] == a[0];
      assert (a + b)[1..] == a[1..] + b;
      CountAppend(a[1..], b, e);
    }
  }
}
