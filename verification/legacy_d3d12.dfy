/** The Direct3D12 backend of the older revision (mltg/src/d3d12.rs). A
    target has the same shape as in the current revision, a D3D11On12
    wrapper and the bitmap over it; the errors are the platform's own. */
module LegacyDirect3D12 {

  import opened Results
  import opened Platform
  import opened Resources
  import Direct3D12
  import Errors

  type RenderTarget = Direct3D12.RenderTarget

  /** `Backend::back_buffers`: one target per buffer, the i-th wrapping
      buffer i (RENDER_TARGET in, PRESENT out), or the first failure. */
  method BackBuffers(chain: SwapChainView, wrap: CreateWrapper, dc: CreateBitmap)
    returns (r: Result<seq<RenderTarget>, PlatformError>)
    ensures chain.desc.Err? ==> r == Err(chain.desc.error)
    ensures chain.desc.Ok? ==>
      (r.Ok? <==> forall i | 0 <= i < chain.desc.value.bufferCount ::
                    Direct3D12.BufferWraps(chain, wrap, dc, chain.desc.value.format, i))
    ensures r.Ok? ==> |r.value| == chain.desc.value.bufferCount
    ensures r.Ok? ==> forall i | 0 <= i < |r.value| ::
      Direct3D12.IsBufferTarget(r.value[i], chain, chain.desc.value.format, i)
    ensures chain.desc.Ok? && r.Err? ==>
      exists i | 0 <= i < chain.desc.value.bufferCount ::
        Direct3D12.FailsFirstAt(chain, wrap, dc, chain.desc.value.format, i)
        && Errors.FromPlatform(r.error) == Direct3D12.BufferTarget(chain, wrap, dc, chain.desc.value.format, i).error
  {
    if chain.desc.Err? {
      return Err(chain.desc.error);
    }
    var desc := chain.desc.value;
    var targets: seq<RenderTarget> := [];
    var i: nat := 0;
    while i < desc.bufferCount
      invariant i <= desc.bufferCount
      invariant |targets| == i
      invariant forall j | 0 <= j < i :: Direct3D12.BufferWraps(chain, wrap, dc, desc.format, j)
      invariant forall j | 0 <= j < i :: Direct3D12.IsBufferTarget(targets[j], chain, desc.format, j)
    {
      var buffer := chain.buffer(i);
      if buffer.Err? {
        assert Direct3D12.FailsFirstAt(chain, wrap, dc, desc.format, i);
        return Err(buffer.error);
      }
      var w := MakeWrapper(wrap, buffer.value, RESOURCE_STATE_RENDER_TARGET, RESOURCE_STATE_PRESENT);
      if w.Err? {
        assert Direct3D12.FailsFirstAt(chain, wrap, dc, desc.format, i);
        return Err(w.error);
      }
      var b := MakeBitmap(dc, w.value.handle, Direct3D12.TargetBitmapProps(desc.format));
      if b.Err? {
        assert Direct3D12.FailsFirstAt(chain, wrap, dc, desc.format, i);
        return Err(b.error);
      }
      targets := targets + [Direct3D12.RenderTarget(w.value, b.value)];
      i := i + 1;
    }
    return Ok(targets);
  }

  /** `Backend::render_target`: the object must be a D3D12 resource
      (`expect` panics otherwise); only a debug build asserts that it
      allows render targets. The wrapper goes RENDER_TARGET in, COMMON out. */
  function RenderTargetFor(o: ForeignObject, wrap: CreateWrapper, dc: CreateBitmap, debug: bool)
    : (r: Outcome<Result<RenderTarget, PlatformError>>)
    ensures r.Panicked? <==> !o.isResource || (debug && !HasFlag(o.resourceFlags, RESOURCE_FLAG_ALLOW_RENDER_TARGET))
    ensures r.Returned? ==>
      (r.value.Ok? <==>
        MakeWrapper(wrap, o.handle, RESOURCE_STATE_RENDER_TARGET, RESOURCE_STATE_COMMON).Ok?
        && dc(MakeWrapper(wrap, o.handle, RESOURCE_STATE_RENDER_TARGET, RESOURCE_STATE_COMMON).value.handle,
              Direct3D12.TargetBitmapProps(o.format)).Ok?)
    ensures r.Returned? && r.value.Ok? ==>
      var t := r.value.value;
      t.wrapper.resource == o.handle && t.wrapper.bindFlags == BIND_RENDER_TARGET
      && t.wrapper.inState == RESOURCE_STATE_RENDER_TARGET && t.wrapper.outState == RESOURCE_STATE_COMMON
      && t.bitmap.surface == t.wrapper.handle && t.bitmap.props == Direct3D12.TargetBitmapProps(o.format)
    ensures r.Returned? && wrap(o.handle, BIND_RENDER_TARGET, RESOURCE_STATE_RENDER_TARGET, RESOURCE_STATE_COMMON).Err? ==>
      r.value == Err(wrap(o.handle, BIND_RENDER_TARGET, RESOURCE_STATE_RENDER_TARGET, RESOURCE_STATE_COMMON).error)
    ensures r.Returned? && wrap(o.handle, BIND_RENDER_TARGET, RESOURCE_STATE_RENDER_TARGET, RESOURCE_STATE_COMMON).Ok?
            && dc(wrap(o.handle, BIND_RENDER_TARGET, RESOURCE_STATE_RENDER_TARGET, RESOURCE_STATE_COMMON).value,
                  Direct3D12.TargetBitmapProps(o.format)).Err? ==>
      r.value == Err(dc(wrap(o.handle, BIND_RENDER_TARGET, RESOURCE_STATE_RENDER_TARGET, RESOURCE_STATE_COMMON).value,
                        Direct3D12.TargetBitmapProps(o.format)).error)
  {
    if !o.isResource then Panicked
    else if debug && !HasFlag(o.resourceFlags, RESOURCE_FLAG_ALLOW_RENDER_TARGET) then Panicked
    else
      match MakeWrapper(wrap, o.handle, RESOURCE_STATE_RENDER_TARGET, RESOURCE_STATE_COMMON)
      case Err(e) => Returned(Err(e))
      case Ok(w) =>
        match MakeBitmap(dc, w.handle, Direct3D12.TargetBitmapProps(o.format))
        case Err(e) => Returned(Err(e))
        case Ok(b) => Returned(Ok(Direct3D12.RenderTarget(w, b)))
  }

  /** A release build of the older revision wraps a resource that does not
      allow render targets, where the current revision always panics. */
  lemma ReleaseBuildSkipsFlagCheck(o: ForeignObject, wrap: CreateWrapper, dc: CreateBitmap)
    requires o.isResource && !HasFlag(o.resourceFlags, RESOURCE_FLAG_ALLOW_RENDER_TARGET)
    ensures RenderTargetFor(o, wrap, dc, true).Panicked?
    ensures RenderTargetFor(o, wrap, dc, false).Returned?
    ensures Direct3D12.CreateRenderTarget(Direct3D12.Resource(o.handle, Ok(()), o.resourceFlags, o.format), wrap, dc).Panicked?
  {
  }

  /** When neither revision panics, both make the same target. */
  lemma RenderTargetAgrees(o: ForeignObject, wrap: CreateWrapper, dc: CreateBitmap, debug: bool)
    requires o.isResource && HasFlag(o.resourceFlags, RESOURCE_FLAG_ALLOW_RENDER_TARGET)
    ensures var older := RenderTargetFor(o, wrap, dc, debug);
      var newer := Direct3D12.CreateRenderTarget(Direct3D12.Resource(o.handle, Ok(()), o.resourceFlags, o.format), wrap, dc);
      older.Returned? && newer.Returned? && (older.value.Ok? <==> newer.value.Ok?)
      && (older.value.Ok? ==> older.value.value == newer.value.value)
  {
  }

  /** `Direct3D12::flush`. */
  function Flush(): (events: seq<Event>)
    ensures events == Direct3D12.Flush()
  {
    [Event.Flush]
  }

  /** `Backend::begin_draw` and `end_draw`: the same calls as the current
      revision's hooks, with no result to pass through. */
  function BeginDraw(t: RenderTarget): (events: seq<Event>)
    ensures events == [AcquireWrapped(t.wrapper.handle)]
  {
    [AcquireWrapped(t.wrapper.handle)]
  }

  function EndDraw(t: RenderTarget): (events: seq<Event>)
    ensures events == [ReleaseWrapped(t.wrapper.handle), Event.Flush, ClearState]
  {
    [ReleaseWrapped(t.wrapper.handle), Event.Flush, ClearState]
  }

  /** The hooks make the same calls in both revisions. */
  lemma HooksAgree(t: RenderTarget, ret: Result<(), Errors.Error>)
    ensures BeginDraw(t) == Direct3D12.BeginDraw(t)
    ensures EndDraw(t) == Direct3D12.EndDraw(t, ret).0
  {
  }
}
