/** The Direct3D12 backend of src/d3d12.rs: Direct2D draws into D3D12
    resources through D3D11On12 wrappers, which must be acquired before a
    frame and released (then the D3D11 context flushed) after it. */
module Direct3D12 {

  import opened Geometry
  import opened Results
  import opened Platform
  import opened Resources
  import Errors

  datatype RenderTarget = RenderTarget(wrapper: Wrapper, bitmap: Bitmap)

  /** Bitmap properties of every D3D12 target: the resource's format,
      premultiplied alpha, target and not drawable, default DPI. */
  function TargetBitmapProps(format: nat): (p: BitmapProperties)
    ensures p.alphaMode == ALPHA_MODE_PREMULTIPLIED && p.options == TARGET_OPTIONS && p.format == format
    ensures HasFlag(p.options, BITMAP_OPTIONS_TARGET) && HasFlag(p.options, BITMAP_OPTIONS_CANNOT_DRAW)
    ensures p.options < 2 * BITMAP_OPTIONS_CANNOT_DRAW
  {
    BitmapProperties(format, ALPHA_MODE_PREMULTIPLIED, TARGET_OPTIONS, 0.0)
  }

  /** Whether buffer `i` of the chain can be turned into a target: the
      buffer, its wrapper (RENDER_TARGET in, PRESENT out) and the bitmap
      over the wrapper are all created. */
  predicate BufferWraps(chain: SwapChainView, wrap: CreateWrapper, dc: CreateBitmap, format: nat, i: nat)
  {
    chain.buffer(i).Ok?
    && MakeWrapper(wrap, chain.buffer(i).value, RESOURCE_STATE_RENDER_TARGET, RESOURCE_STATE_PRESENT).Ok?
    && dc(MakeWrapper(wrap, chain.buffer(i).value, RESOURCE_STATE_RENDER_TARGET, RESOURCE_STATE_PRESENT).value.handle,
          TargetBitmapProps(format)).Ok?
  }

  /** The target made from buffer `i` when `BufferWraps` holds. */
  predicate IsBufferTarget(t: RenderTarget, chain: SwapChainView, format: nat, i: nat)
  {
    chain.buffer(i).Ok?
    && t.wrapper.resource == chain.buffer(i).value
    && t.wrapper.bindFlags == BIND_RENDER_TARGET
    && t.wrapper.inState == RESOURCE_STATE_RENDER_TARGET && t.wrapper.outState == RESOURCE_STATE_PRESENT
    && t.bitmap.surface == t.wrapper.handle && t.bitmap.props == TargetBitmapProps(format)
  }

  /** Buffer `i` is the first of the chain that cannot be turned into a
      target. */
  predicate FailsFirstAt(chain: SwapChainView, wrap: CreateWrapper, dc: CreateBitmap, format: nat, i: nat)
  {
    (forall j | 0 <= j < i :: BufferWraps(chain, wrap, dc, format, j))
    && !BufferWraps(chain, wrap, dc, format, i)
  }

  /** One iteration of the loop: buffer `i`, its wrapper, its bitmap. */
  function BufferTarget(chain: SwapChainView, wrap: CreateWrapper, dc: CreateBitmap, format: nat, i: nat)
    : (r: Result<RenderTarget, Errors.Error>)
    ensures r.Ok? <==> BufferWraps(chain, wrap, dc, format, i)
    ensures r.Ok? ==> IsBufferTarget(r.value, chain, format, i)
  {
    match chain.buffer(i)
    case Err(e) => Err(Errors.FromPlatform(e))
    case Ok(buffer) =>
      match MakeWrapper(wrap, buffer, RESOURCE_STATE_RENDER_TARGET, RESOURCE_STATE_PRESENT)
      case Err(e) => Err(Errors.FromPlatform(e))
      case Ok(w) =>
        match MakeBitmap(dc, w.handle, TargetBitmapProps(format))
        case Err(e) => Err(Errors.FromPlatform(e))
        case Ok(b) => Ok(RenderTarget(w, b))
  }

  /** `Context<Direct3D12>::create_render_target_from_swap_chain`: the
      caller's object is first cast to a swap chain (`cast`, its failure is
      returned); then one target per buffer, the i-th wrapping buffer i, or
      the first failure. */
  method FromSwapChain(cast: Result<(), PlatformError>, chain: SwapChainView, wrap: CreateWrapper, dc: CreateBitmap)
    returns (r: Result<seq<RenderTarget>, Errors.Error>)
    ensures cast.Err? ==> r == Err(Errors.FromPlatform(cast.error))
    ensures cast.Ok? && chain.desc.Err? ==> r == Err(Errors.FromPlatform(chain.desc.error))
    ensures cast.Ok? && chain.desc.Ok? ==>
      (r.Ok? <==> forall i | 0 <= i < chain.desc.value.bufferCount ::
                    BufferWraps(chain, wrap, dc, chain.desc.value.format, i))
    ensures r.Ok? ==> |r.value| == chain.desc.value.bufferCount
    ensures r.Ok? ==> forall i | 0 <= i < |r.value| :: IsBufferTarget(r.value[i], chain, chain.desc.value.format, i)
    ensures cast.Ok? && chain.desc.Ok? && r.Err? ==>
      exists i | 0 <= i < chain.desc.value.bufferCount ::
        FailsFirstAt(chain, wrap, dc, chain.desc.value.format, i)
        && r.error == BufferTarget(chain, wrap, dc, chain.desc.value.format, i).error
  {
    if cast.Err? {
      return Err(Errors.FromPlatform(cast.error));
    }
    if chain.desc.Err? {
      return Err(Errors.FromPlatform(chain.desc.error));
    }
    var desc := chain.desc.value;
    var targets: seq<RenderTarget> := [];
    var i: nat := 0;
    while i < desc.bufferCount
      invariant i <= desc.bufferCount
      invariant |targets| == i
      invariant forall j | 0 <= j < i :: BufferWraps(chain, wrap, dc, desc.format, j)
      invariant forall j | 0 <= j < i :: IsBufferTarget(targets[j], chain, desc.format, j)
    {
      var t := BufferTarget(chain, wrap, dc, desc.format, i);
      if t.Err? {
        assert FailsFirstAt(chain, wrap, dc, desc.format, i);
        return Err(t.error);
      }
      targets := targets + [t.value];
      i := i + 1;
    }
    return Ok(targets);
  }

  /** A D3D12 resource handed to `create_render_target`: whether it casts to
      ID3D12Resource (the error if not), its flags and its format. */
  datatype Resource = Resource(handle: Handle, cast: Result<(), PlatformError>, flags: nat, format: nat)

  /** `Context<Direct3D12>::create_render_target`: the resource must allow
      render targets, checked by an `assert!` that is active in every build;
      the wrapper goes RENDER_TARGET in, COMMON out. */
  function CreateRenderTarget(resource: Resource, wrap: CreateWrapper, dc: CreateBitmap)
    : (r: Outcome<Result<RenderTarget, Errors.Error>>)
    ensures resource.cast.Err? ==> r == Returned(Err(Errors.FromPlatform(resource.cast.error)))
    ensures resource.cast.Ok? ==> (r.Panicked? <==> !HasFlag(resource.flags, RESOURCE_FLAG_ALLOW_RENDER_TARGET))
    ensures r.Returned? && r.value.Ok? ==>
      var t := r.value.value;
      t.wrapper.resource == resource.handle && t.wrapper.bindFlags == BIND_RENDER_TARGET
      && t.wrapper.inState == RESOURCE_STATE_RENDER_TARGET && t.wrapper.outState == RESOURCE_STATE_COMMON
      && t.bitmap.surface == t.wrapper.handle && t.bitmap.props == TargetBitmapProps(resource.format)
    ensures resource.cast.Ok? && HasFlag(resource.flags, RESOURCE_FLAG_ALLOW_RENDER_TARGET)
            && wrap(resource.handle, BIND_RENDER_TARGET, RESOURCE_STATE_RENDER_TARGET, RESOURCE_STATE_COMMON).Err? ==>
      r == Returned(Err(Errors.FromPlatform(
             wrap(resource.handle, BIND_RENDER_TARGET, RESOURCE_STATE_RENDER_TARGET, RESOURCE_STATE_COMMON).error)))
    ensures resource.cast.Ok? && HasFlag(resource.flags, RESOURCE_FLAG_ALLOW_RENDER_TARGET)
            && wrap(resource.handle, BIND_RENDER_TARGET, RESOURCE_STATE_RENDER_TARGET, RESOURCE_STATE_COMMON).Ok?
            && dc(wrap(resource.handle, BIND_RENDER_TARGET, RESOURCE_STATE_RENDER_TARGET, RESOURCE_STATE_COMMON).value,
                  TargetBitmapProps(resource.format)).Err? ==>
      r == Returned(Err(Errors.FromPlatform(
             dc(wrap(resource.handle, BIND_RENDER_TARGET, RESOURCE_STATE_RENDER_TARGET, RESOURCE_STATE_COMMON).value,
                TargetBitmapProps(resource.format)).error)))
  {
    if resource.cast.Err? then Returned(Err(Errors.FromPlatform(resource.cast.error)))
    else if !HasFlag(resource.flags, RESOURCE_FLAG_ALLOW_RENDER_TARGET) then Panicked
    else
      match MakeWrapper(wrap, resource.handle, RESOURCE_STATE_RENDER_TARGET, RESOURCE_STATE_COMMON)
      case Err(e) => Returned(Err(Errors.FromPlatform(e)))
      case Ok(w) =>
        match MakeBitmap(dc, w.handle, TargetBitmapProps(resource.format))
        case Err(e) => Returned(Err(Errors.FromPlatform(e)))
        case Ok(b) => Returned(Ok(RenderTarget(w, b)))
  }

  /** `Context<Direct3D12>::flush`: flushes the D3D11 context and nothing else. */
  function Flush(): (events: seq<Event>)
    ensures |events| == 1 && events[0].Flush?
  {
    [Event.Flush]
  }

  /** `Backend::begin_draw`: acquires the target's own wrapper, only it. */
  function BeginDraw(t: RenderTarget): (events: seq<Event>)
    ensures events == [AcquireWrapped(t.wrapper.handle)]
  {
    [AcquireWrapped(t.wrapper.handle)]
  }

  /** `Backend::end_draw`: releases the same wrapper, flushes and clears the
      D3D11 context state, in that order, and returns `ret` unchanged. */
  function EndDraw(t: RenderTarget, ret: Result<(), Errors.Error>): (r: (seq<Event>, Result<(), Errors.Error>))
    ensures r.0 == [ReleaseWrapped(t.wrapper.handle), Event.Flush, ClearState]
    ensures r.1 == ret
  {
    ([ReleaseWrapped(t.wrapper.handle), Event.Flush, ClearState], ret)
  }

  /** The two hooks undo each other on the platform state: whatever was
      acquired before `begin_draw` is exactly what is acquired after `end_draw`. */
  lemma HooksPair(s: State, t: RenderTarget, ret: Result<(), Errors.Error>)
    requires !s.drawing
    ensures Run(s, BeginDraw(t) + EndDraw(t, ret).0).Some?
    ensures Run(s, BeginDraw(t) + EndDraw(t, ret).0).value == s
  {
    var w := t.wrapper.handle;
    var s1 := s.(acquired := s.acquired + multiset{w});
    assert s1.acquired - multiset{w} == s.acquired;
    var tail := [ReleaseWrapped(w), Event.Flush, ClearState];
    assert Run(s, [AcquireWrapped(w)]) == Some(s1);
    assert Run(s, tail[2..]) == Some(s);
    assert Run(s, tail[1..]) == Some(s);
    assert Run(s1, tail) == Some(s);
    RunAppend(s, BeginDraw(t), EndDraw(t, ret).0);
  }
}
