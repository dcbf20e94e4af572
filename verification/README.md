# mltg core, modelled in Dafny

mltg is a Rust drawing library over Direct2D, DirectWrite and Direct3D 11 /
D3D11On12. Two revisions are modelled side by side:

- the current one, in `src/`;
- the older one, in `mltg/src/`, whose modules carry the `Legacy` prefix here.

The library has no algorithms of its own. It owns three kinds of
bookkeeping, and those are what the model covers:

- **The frame bracket.** `Context::draw` and each backend's `begin_draw` /
  `end_draw` (Direct3D 11, Direct3D 12 through D3D11On12, and a Direct2D
  swap-chain target). Every platform call is an opaque `Platform.Event`
  appended to a trace. `Platform.Run` replays a trace on a small abstract
  device:
  - the D3D11On12 wrappers currently acquired;
  - the bitmap bound as the device context's target;
  - whether a `BeginDraw` is open;
  - the depth of pushed clips.

  `Run` returns `None` as soon as a call is illegal in the current state.
  Examples are a second `BeginDraw`, a pop with no push, or releasing a
  wrapper that is not held.
- **The path builder type-state.** A `PathBuilder` and an open `Figure` are
  distinct datatypes. The geometry sink is a trace of `BeginFigure`,
  segment, `EndFigure` and `Close` events. `Sink` gives the grammar
  `(Begin segment* End)* Close` as predicates and as an automaton.
- **Value mappings.** These cover:
  - stroke-style properties to the platform record;
  - gradient stops and brush variants;
  - `ErrorKind` / `Error` equality;
  - the text enums, defaults and stored sizes;
  - the geometry conversions.

  Floats are `real`. They are only copied, with one exception: a
  rectangle's right/bottom endpoint is origin plus size, which the model
  adds exactly.

Whatever the platform answers is a parameter of the model. This covers an
`EndDraw` or `Present1` result, and the handle or error a creation call
returns. Creation calls that depend on their arguments are passed in as
functions: `Resources.CreateBitmap`, `Resources.CreateWrapper`, and
`SwapChainView.buffer`. A Rust panic (an `unwrap`, `expect` or `assert!` that
fails) is the `Panicked` case of `Results.Outcome`. The exception is an
unwrap on the caller's own object state, such as a Direct2D target whose
bitmap was dropped by a failed resize. That unwrap is a `requires`. An
assertion that only debug builds make takes a `debug: bool` parameter.

Closure-based drawing (`ctx.draw(&target, |cmd| { ... })`) works like this.
The callback is a `Context.Callback`: the `Commands.Command` list it issues
and the value it returns. `Commands.Exec` turns the list into device-context
calls.

## Model

| member | source | states |
|---|---|---|
| Errors.AsI32 | src/error.rs:84-88 | reading an HRESULT's bits as `i32` keeps non-negative values and subtracts 2^32 from the rest |
| Errors.AsU32 | src/error.rs:84-88 | every `i32` code is the signed reading of some 32-bit pattern |
| Errors.AsI32Injective | src/error.rs:84-88 | two bit patterns with the same signed reading are equal |
| Errors.KindOfBitsRoundTrip | src/error.rs:9-65 | decoding an `ErrorKind`'s HRESULT bits gives back that kind, for all 55 kinds |
| Errors.CodeInjective | src/error.rs:9-65 | two kinds have the same `i32` discriminant exactly when they are the same kind |
| Errors.FromPlatform | src/error.rs:78-82 | `From<windows::core::Error>` wraps the platform error unchanged, code included |
| Errors.FromKind | src/error.rs:84-94 | `Error::from(k) == k`, and it equals no other kind |
| Errors.CodeUniqueness | src/error.rs:90-94 | a kind's code is shared by no other kind, so equality by code identifies the kind |
| Errors.EqualityIgnoresMessage | src/error.rs:90-100 | `Error == ErrorKind` compares only the HRESULT code, whatever the message, and `ErrorKind == Error` gives the same answer |
| Errors.EqTest | src/error.rs:106-111 | the three assertions of `eq_test`: from(Ok) == Ok both ways round, and from(Ok) != Fail |
| Geometry.PointToD2D | src/utility.rs:14-22 | the D2D point carries x and y back unchanged |
| Geometry.SizeToD2D | src/utility.rs:24-32 | the D2D size carries width and height back unchanged |
| Geometry.VectorToD2D | src/utility.rs:47-55 | the D2D point carries the vector's x and y back unchanged |
| Geometry.RgbaToD2D | src/utility.rs:68-78 | each of r, g, b, a is copied into the matching D2D field, so reading the colour back gives the same `Rgba` |
| Geometry.RectToD2D | src/utility.rs:34-45 | left/top are the origin, right/bottom are the endpoint, and the rect can be read back |
| Geometry.CircleToD2D | src/utility.rs:57-66 | same centre, and radiusX == radiusY == radius |
| Geometry.NewScreenRect | src/utility.rs:89-99 | stores left, top, right, bottom in argument order |
| Geometry.ScreenRectFromArray | src/utility.rs:101-106 | position i of the array becomes field i, the same as `new` |
| Geometry.ScreenRectFromTuple | src/utility.rs:108-113 | the tuple agrees with the array conversion and with `new`, position by position |
| Brush.NewGradientStop | src/brush.rs:14-22 | stores position and colour unchanged |
| Brush.GradientStopFromTuple | src/brush.rs:34-45 | the tuple conversion is `new(t.0, t.1)` |
| Brush.GradientStopToD2D | src/brush.rs:24-32 | copies position and colour, and the stop can be read back from the platform record |
| Brush.ModeCodeInjective | src/brush.rs:49-53 | each gradient mode has its own extend-mode code, and the code decodes back to the mode |
| Brush.ConvertStops | src/brush.rs:63-67 | same count, same order, each element converted, nothing sorted or dropped |
| Brush.NewCollection | src/brush.rs:59-72 | Ok exactly when the platform call succeeds; gamma 2.2, extend mode equal to the chosen mode, stops in input order; the error is otherwise wrapped |
| Brush.LegacyNewCollection | mltg/src/brush.rs:52-70 | the same, except the extend mode is always WRAP and the error is the bare platform error |
| Brush.SolidColorBrush | src/brush.rs:89-97 | yields the SolidColor variant whose handle is the created brush and whose colour is the argument |
| Brush.LinearGradientBrush | src/brush.rs:98-118 | yields the LinearGradient variant with the start and end points and the stop collection |
| Brush.RadialGradientBrush | src/brush.rs:119-141 | yields the RadialGradient variant: centre and radii from the ellipse, origin offset from `offset` |
| Brush.LegacyRadialGradientBrush | mltg/src/brush.rs:129-154 | centre to centre, offset to origin offset, radius.x/.y to radiusX/radiusY |
| Brush.LegacyRadialAgrees | mltg/src/brush.rs:139-147 | the older radial brush sends the same properties as the current one given the matching ellipse |
| Brush.ConstructorsYieldDistinctVariants | src/brush.rs:143-149 | each constructor gives its own variant, and `handle` returns the created brush for each of them |
| StrokeStyle.CapFromCode | src/stroke_style.rs:6-11 | decoding is a left inverse of the cap code on 0..3 |
| StrokeStyle.CapRoundTrip | src/stroke_style.rs:6-11 | decoding a cap's code gives back the cap |
| StrokeStyle.JoinOf | src/stroke_style.rs:74-79 | MITER_OR_BEVEL exactly for `MiterOrBevel(m)`, which carries limit m; every other join has limit 1.0 |
| StrokeStyle.DashStyleOf | src/stroke_style.rs:80-92 | a dash array is present exactly for `Custom`, which maps to CUSTOM and carries its own array |
| StrokeStyle.Lower | src/stroke_style.rs:73-106 | caps are copied; no dash gives FLAT, SOLID, 0.0 and no array; a dash copies its cap and offset; an array is passed iff the style is Custom |
| StrokeStyle.New | src/stroke_style.rs:73-106 | Ok exactly when creation succeeds, carrying the lowered properties; otherwise the wrapped platform error |
| StrokeStyle.RaiseLower | src/stroke_style.rs:73-106 | the platform record determines the properties, up to the default dash being the same as no dash |
| StrokeStyle.LowerCanon | src/stroke_style.rs:73-106 | lowering ignores exactly what canonicalisation forgets |
| StrokeStyle.LowerEqualIff | src/stroke_style.rs:73-106 | two property sets give the same platform record iff they are equal after canonicalisation |
| StrokeStyle.DefaultDashIsNoDash | src/stroke_style.rs:38-67 | the default properties pass no dash array, and an explicit default `Dash` lowers the same as no dash |
| StrokeStyle.LegacyLower | mltg/src/stroke_style.rs:72-116 | a null array has length 0, and a present array has its own length |
| StrokeStyle.LegacyLowerAgrees | mltg/src/stroke_style.rs:72-116 | the older mapping sends the same properties and the same dash array as the current one |
| StrokeStyle.LegacyNew | mltg/src/stroke_style.rs:72-116 | Ok exactly when creation succeeds; otherwise the bare platform error |
| Text.FontCodesInjective | src/text.rs:8-43 | weight, style and stretch codes are each one-to-one and stay within the DirectWrite ranges |
| Text.AlignmentFromCode | src/text.rs:87-100 | the four codes 0..3 map to a variant with that code; every other code is an error |
| Text.AlignmentRoundTrip | src/text.rs:87-100 | `try_from(a as code) == Ok(a)` for every alignment |
| Text.SystemFont | src/text.rs:103-126 | a System font whose `name` is the family name given |
| Text.FileFont | src/text.rs:103-126 | a File font that keeps the path and whose `name` is the family name given |
| Text.NewTextFormat | src/text.rs:138-194 | Ok exactly when creation succeeds (and, for a file font, so does the font set); otherwise the font-set error, or else the creation error; the accessors give back the font, the size, and the style or the default; the request carries the family name, the weight/style/stretch codes of that style, an empty locale, and a font collection only for file fonts |
| Text.NewTextLayout | src/text.rs:225-259 | a creation error is returned; a failing setter or measurement panics; on success it stores the text, the alignment and the given size, or the measured one when none is given |
| Text.LayoutAlignment | src/text.rs:285-287 | defined exactly for the four alignment codes, and returns the variant with the layout's code |
| Text.SetAlignment | src/text.rs:295-299 | afterwards `alignment()` returns the new alignment; text, size and format are unchanged |
| Text.SetSize | src/text.rs:311-317 | sets the layout's maximum size, and leaves `size()`, `text()` and the alignment unchanged |
| Text.ResetSize | src/text.rs:302-308 | sets the maximum size to the measured metrics, and leaves `size()` unchanged |
| Text.DrawLayoutCall | src/text.rs:262-272 | one DrawTextLayout call with this layout, the brush, the origin, and the colour-font and clip options |
| Text.SizeIsStable | src/text.rs:289-317 | any sequence of resizes leaves `size()` and `text()` as built; the last one sets the maximum size |
| Shapes.NewLine | src/shape.rs:6-16 | stores the two endpoints in order |
| Shapes.NewRoundedRect | src/shape.rs:130-138 | stores the rect and the radius |
| Shapes.EllipseToD2D | src/shape.rs:65-74 | same centre, radius.x/.y as radiusX/radiusY, and the ellipse can be read back |
| Shapes.CircleIsRoundEllipse | src/utility.rs:57-66 | a circle converts as the ellipse with both radii equal to its radius |
| Shapes.RoundedRectToD2D | src/shape.rs:140-149 | copies the rect and both radii, and the rounded rect can be read back |
| Shapes.FillCall | src/shape.rs:35-173 | one platform fill call per fillable shape, of the matching kind, with the shape's own geometry and the brush |
| Shapes.StrokeCall | src/shape.rs:18-173 | one platform draw call per shape, of the matching kind, with the shape's geometry, the brush, the width and the style |
| Shapes.PathFillability | src/path.rs:7-47 | a filled path can be filled and a hollow one cannot; an older path can always be filled; no line can |
| Shapes.FillAndStrokeAgree | src/shape.rs:35-173 | fill and stroke of the same shape address the same geometry with the same brush |
| Sink.QuadraticToD2D | src/path.rs:58-69 | copies the control point and the end point |
| Sink.CubicToD2D | src/path.rs:58-69 | copies both control points and the end point |
| Sink.GrammarMatchesAutomaton | src/path.rs:166-227 | the grammar `(Begin segment* End)* Close` and the phase automaton accept the same traces |
| Sink.AppendSegment | src/path.rs:78-151 | a segment keeps an open figure open |
| Sink.AppendBegin | src/path.rs:185-220 | a begin after complete figures opens a figure of the same kind |
| Sink.AppendEnd | src/path.rs:154-163 | an end closes the open figure |
| Sink.AppendClose | src/path.rs:198-226 | a close after complete figures gives a closed path |
| Sink.NothingAfterClose | src/path.rs:198-226 | any event after `Close` leaves the grammar |
| Path.NewBuilder | src/path.rs:173-180 | opens the sink: a builder of the requested kind with an empty trace, or the wrapped error |
| Path.Begin | src/path.rs:185-220 | emits one BeginFigure at the start point, FILLED for a filled builder and HOLLOW for a hollow one, and keeps the kind |
| Path.AddSegment | src/path.rs:78-151 | appends exactly the segment and keeps the figure open |
| Path.LineTo | src/path.rs:79-86 | appends one AddLine to the point |
| Path.Lines | src/path.rs:87-96 | appends one AddLines carrying the points in argument order |
| Path.QuadraticBezierTo | src/path.rs:97-112 | appends one quadratic segment with the control and end points |
| Path.QuadraticBeziers | src/path.rs:113-124 | appends one batch carrying the segments in argument order |
| Path.CubicBezierTo | src/path.rs:125-141 | appends one cubic segment with both control points and the end point |
| Path.CubicBeziers | src/path.rs:142-153 | appends one batch carrying the segments in argument order |
| Path.End | src/path.rs:154-163 | always Ok; emits exactly one EndFigure with the flag and returns a builder of the same kind |
| Path.ClosePath | src/path.rs:198-226 | closes the sink once and yields a path of the same kind over the same geometry, whose trace is a closed path |
| Path.ApplySegment | src/path.rs:78-151 | every segment call keeps the kind, the geometry and an open figure |
| Path.ApplySegmentsKeepsFigureOpen | src/path.rs:78-151 | any run of segment calls keeps the figure open and its begins of the builder's kind |
| Path.ReachableTracesAreWellBracketed | src/path.rs:166-227 | every trace reachable through the API has the shape `(Begin segment* End)* Close`, and every begin has the builder's kind |
| Path.ReachableTracesAreAccepted | src/path.rs:166-227 | the automaton ends such a trace in the closed phase |
| LegacyPath.NewBuilder | mltg/src/path.rs:49-57 | an empty builder over the geometry, or a panic when the sink cannot be opened |
| LegacyPath.Begin | mltg/src/path.rs:60-69 | always emits a FILLED BeginFigure at the point |
| LegacyPath.AddSegment | mltg/src/path.rs:82-123 | appends exactly the segment and keeps the figure open |
| LegacyPath.LineTo | mltg/src/path.rs:82-89 | appends one AddLine to the point |
| LegacyPath.QuadraticBezierTo | mltg/src/path.rs:91-103 | appends one quadratic segment |
| LegacyPath.CubicBezierTo | mltg/src/path.rs:105-123 | appends one cubic segment |
| LegacyPath.End | mltg/src/path.rs:125-133 | emits one EndFigure with the flag and returns a builder |
| LegacyPath.Build | mltg/src/path.rs:72-77 | closes the sink and returns a path over the same geometry, and panics if `Close` fails |
| LegacyPath.ApplySegment | mltg/src/path.rs:82-123 | every segment call keeps the geometry and an open figure |
| LegacyPath.ApplySegmentsKeepsFigureOpen | mltg/src/path.rs:82-123 | any run of segment calls keeps the figure open |
| LegacyPath.ReachableTracesAreWellBracketed | mltg/src/path.rs:37-134 | every reachable trace has the shape `(Begin segment* End)* Close` with only filled begins |
| Platform.RunAppend | src/context.rs:326-342 | replaying a trace in two parts is replaying it whole |
| Platform.DcRunKeepsFrame | src/context.rs:326-342 | device-context drawing calls change only the clip depth: not the wrappers, the target or the open frame |
| Platform.DcRunIndependent | src/context.rs:326-342 | whether drawing calls are legal depends only on the clip depth, not on which target or wrappers |
| Platform.Count | src/context.rs:326-342 | the count of an event is at most the trace length, and zero exactly when the event is absent |
| Platform.CountAppend | src/context.rs:326-342 | counts add up over concatenation |
| Resources.MakeBitmap | src/d3d12.rs:159-166 | the bitmap is the platform's over the given surface with the requested properties, or the platform's error |
| Resources.MakeWrapper | src/d3d12.rs:113-115 | the wrapper is the platform's, bound as render target with the requested in and out states, or the platform's error |
| Results.Unwrap | mltg/src/context.rs:282-284 | `unwrap` returns the value of Ok and panics exactly on Err; the older `draw`, `create_path`, `PathBuilder::new` and `build` unwrap through it |
| Commands.InterpolationCodeInjective | src/image.rs:8-15 | each interpolation mode has its own D2D code among 0..5 |
| Commands.PushClip | src/context.rs:80-87 | one PushAxisAlignedClip of the rect, antialiased per primitive |
| Commands.ExecOne | src/context.rs:29-105 | a command issues only device-context calls: no wrapper, target or present |
| Commands.Exec | src/context.rs:29-105 | a command list issues only device-context calls |
| Commands.Clip | src/context.rs:97-105 | returns the closure's value and issues push, the body, pop |
| Commands.OneCallPerCommand | src/context.rs:29-94 | every command other than a clip issues exactly one call; the older `draw_text` issues none when layout creation failed |
| Commands.ClipBrackets | src/context.rs:97-105 | `clip` issues exactly one push first and one pop last around the body |
| Commands.OlderIsStructured | mltg/src/context.rs:69-77 | the older revision has only bracketed clips, so its command lists are always balanced |
| Commands.StructuredIsBalanced | src/context.rs:80-105 | inside a frame, a list with balanced clips returns the device to the state it started in |
| Commands.StructuredIsLegal | src/context.rs:80-105 | a list with balanced clips is legal inside a fresh frame |
| Commands.UnmatchedPopIsIllegal | src/context.rs:90-94 | a `pop_clip` with no push is not legal in a frame |
| Commands.FrameRun | src/context.rs:333-339 | bind, BeginDraw, a legal body, EndDraw, unbind: leaves no target bound and no frame open |
| Commands.FrameWithoutUnbindRun | mltg/src/context.rs:276-282 | without the unbind the target stays bound after EndDraw |
| Commands.FrameHasNoBackendCalls | src/context.rs:333-339 | the frame itself acquires, releases and presents nothing; those belong to the backend hooks |
| Direct3D11.FromSwapChain | src/d3d11.rs:46-71 | a single target over buffer 0, with the swap chain's format, alpha IGNORE, 96 DPI and the target options; the description, buffer and bitmap errors are each returned, in call order |
| Direct3D11.ContextFromSwapChain | src/d3d11.rs:76-83 | panics exactly when the object is not a swap chain, and otherwise delegates |
| Direct3D11.CreateRenderTarget | src/d3d11.rs:86-108 | panics exactly when the object is not a texture or not a DXGI surface; otherwise a premultiplied target bitmap in the texture's format, or the bitmap error |
| Direct3D11.BeginDraw | src/d3d11.rs:122 | a no-op |
| Direct3D11.EndDraw | src/d3d11.rs:124-126 | issues nothing and returns `ret` unchanged |
| Direct3D12.TargetBitmapProps | src/d3d12.rs:92-98 | premultiplied alpha, the source format, and exactly the TARGET and CANNOT_DRAW option bits |
| Direct3D12.BufferTarget | src/d3d12.rs:100-126 | the target over buffer i exists exactly when buffer, wrapper and bitmap all succeed; it wraps buffer i RENDER_TARGET to PRESENT |
| Direct3D12.FromSwapChain | src/d3d12.rs:82-128 | a failed cast to a swap chain or a failed description is returned; then exactly `BufferCount` targets, the i-th wrapping buffer i; Ok iff every buffer can be wrapped; otherwise the error of the first buffer that cannot |
| Direct3D12.CreateRenderTarget | src/d3d12.rs:130-170 | a failed cast is returned; then it panics exactly when the resource lacks ALLOW_RENDER_TARGET, in every build; wraps it RENDER_TARGET to COMMON, returning the wrapper error or else the bitmap error |
| Direct3D12.Flush | src/d3d12.rs:173-177 | one flush of the D3D11 context |
| Direct3D12.BeginDraw | src/d3d12.rs:191-196 | acquires exactly the target's own wrapper |
| Direct3D12.EndDraw | src/d3d12.rs:198-206 | releases that wrapper, flushes, clears the context state, in that order, and returns `ret` unchanged |
| Direct3D12.HooksPair | src/d3d12.rs:191-206 | the two hooks together leave the device exactly as they found it |
| Direct2D.SetInterval | src/d2d.rs:14-16 | changes the interval and nothing else |
| Direct2D.BitmapOf | src/d2d.rs:19-31 | the bitmap of a target that has one |
| Direct2D.CreateRenderTarget | src/d2d.rs:71-108 | a two-buffer B8G8R8A8 swap chain of the requested size; the target has interval 1 and a bitmap present; the swap-chain error, or else the D3D11 target's error, is returned |
| Direct2D.ResizeTarget | src/d2d.rs:110-128 | a failed `ResizeBuffers` is returned and leaves no bitmap; so does a failed target over the new buffer, whose error is returned; success installs the new buffer's target |
| Direct2D.BeginDraw | src/d2d.rs:142-145 | delegates to the Direct3D 11 backend with the inner target |
| Direct2D.EndDraw | src/d2d.rs:147-162 | presents with the target's interval iff `ret` is Ok; otherwise returns `ret` without presenting; a failing Present1 is returned |
| Context.EndDrawResult | src/context.rs:337 | the EndDraw result is Ok iff the platform's is, and its error is wrapped otherwise |
| Context.Draw | src/context.rs:326-342 | the trace is backend begin, bind, BeginDraw, the callback's calls, EndDraw, unbind, backend end; a value returned is the callback's |
| Context.DrawResult | src/context.rs:337-340 | Ok iff EndDraw succeeded and, for a Direct2D target, Present1 too; the error is EndDraw's, or else Present1's |
| Context.DrawPresents | src/d2d.rs:147-162 | a draw presents iff the target is Direct2D and EndDraw succeeded, and then with the target's interval |
| Context.DrawIsLegal | src/context.rs:333-339 | for a callback whose calls are legal inside a fresh frame (for example balanced clips, by `Commands.StructuredIsLegal`), whatever EndDraw returns, a draw is legal and leaves no target bound, no frame open and the wrappers as they were; a callback that pops a clip it never pushed makes the draw illegal |
| Context.DrawPairsWrappers | src/d3d12.rs:191-206 | every wrapper is acquired as often as it is released, at most once per draw |
| Context.DrawAllIsLegal | src/context.rs:326-342 | any sequence of draws from a quiescent device, each with a callback whose calls are legal inside a fresh frame, is legal and returns the device to the same state |
| Context.CreatePath | src/context.rs:240-249 | a fresh builder of the requested kind over the new geometry with an empty trace, or the first error |
| Context.CreateFilledPath | src/context.rs:240-243 | a fresh FilledPath builder with no figure |
| Context.CreateHollowPath | src/context.rs:246-249 | a fresh HollowPath builder with no figure |
| LegacyDirect3D11.BackBuffers | mltg/src/d3d11.rs:70-103 | exactly one target, from buffer 0, with alpha IGNORE at 96 DPI; the description, buffer and bitmap errors are each returned, in call order |
| LegacyDirect3D11.BackBuffersAgree | mltg/src/d3d11.rs:80-101 | succeeds when the current revision's swap-chain target does, with the same bitmap |
| LegacyDirect3D11.RenderTargetFor | mltg/src/d3d11.rs:105-137 | panics when the object is not a texture, or in a debug build when it lacks BIND_RENDER_TARGET; otherwise a premultiplied bitmap, or the surface-cast error, or else the bitmap error |
| LegacyDirect3D11.RenderTargetAgrees | mltg/src/d3d11.rs:105-137 | a valid texture gets the same bitmap as in the current revision |
| LegacyDirect3D11.BeginDraw | mltg/src/d3d11.rs:139 | a no-op |
| LegacyDirect3D11.EndDraw | mltg/src/d3d11.rs:140 | a no-op |
| LegacyDirect3D12.BackBuffers | mltg/src/d3d12.rs:121-163 | one target per buffer 0..`BufferCount`, in order, each wrapping its buffer RENDER_TARGET to PRESENT; otherwise the bare error of the first buffer that cannot be wrapped |
| LegacyDirect3D12.RenderTargetFor | mltg/src/d3d12.rs:165-207 | panics when the object is not a resource, or in a debug build when it lacks ALLOW_RENDER_TARGET; wraps RENDER_TARGET to COMMON, returning the wrapper error or else the bitmap error |
| LegacyDirect3D12.ReleaseBuildSkipsFlagCheck | mltg/src/d3d12.rs:171-174 | without ALLOW_RENDER_TARGET a release build goes on while a debug build, and the current revision, panic |
| LegacyDirect3D12.RenderTargetAgrees | mltg/src/d3d12.rs:165-207 | a valid resource gets the same target as in the current revision |
| LegacyDirect3D12.Flush | mltg/src/d3d12.rs:100-105 | flushes only the D3D11 context, as the current revision does |
| LegacyDirect3D12.BeginDraw | mltg/src/d3d12.rs:209-216 | acquires the target's wrapper |
| LegacyDirect3D12.EndDraw | mltg/src/d3d12.rs:218-227 | releases the same wrapper, then flushes and clears the context |
| LegacyDirect3D12.HooksAgree | mltg/src/d3d12.rs:209-227 | the older hooks issue the same calls as the current ones |
| LegacyDirect2D.Resize | mltg/src/d2d.rs:81-89 | keeps the swap chain and ignores a `ResizeBuffers` error |
| LegacyDirect2D.BackBuffers | mltg/src/d2d.rs:105-111 | delegates to the Direct3D 11 object |
| LegacyDirect2D.RenderTargetFor | mltg/src/d2d.rs:113-123 | wraps the caller's bitmap and creates none; panics when the object is not a bitmap |
| LegacyDirect2D.BeginDraw | mltg/src/d2d.rs:125-128 | delegates to the Direct3D 11 object |
| LegacyDirect2D.EndDraw | mltg/src/d2d.rs:130-136 | delegates, then always presents exactly once with sync interval 1 |
| LegacyContext.Draw | mltg/src/context.rs:272-289 | on success the same order as the current revision, returning the callback's value directly; a failed EndDraw panics right after EndDraw |
| LegacyContext.DrawIsLegal | mltg/src/context.rs:272-289 | when EndDraw succeeds the draw is legal and leaves no target bound and no frame open |
| LegacyContext.FailedEndDrawLeaksWrapper | mltg/src/context.rs:282-286 | on a D3D12 target, a failed EndDraw panics with the wrapper still acquired and the bitmap still bound |
| LegacyContext.CreateBackBuffers | mltg/src/context.rs:247-255 | a failed pointer takeover is returned; otherwise the backend's `back_buffers`: for D3D12 the i-th target wraps buffer i, and an error is the description's or that of the first buffer that cannot be wrapped; for the others the single buffer-0 target, or the D3D11 `back_buffers` error |
| LegacyContext.CreateRenderTarget | mltg/src/context.rs:258-263 | the backend's own `render_target`: it panics exactly when that does, and otherwise returns that target (or that error) as a target of the backend's kind |
| LegacyContext.CreatePath | mltg/src/context.rs:156-159 | an empty builder over the new geometry; panics if geometry creation or opening the sink fails |

## Left out

- Geometry.RectToD2D, Shapes.RoundedRectToD2D: the right/bottom endpoint is origin plus size in exact `real` arithmetic. The source adds in `f32`, which rounds (origin.x = 16777216.0 with width 1.0 gives 16777216.0 again). The read-back of a rectangle therefore holds in the model only; the same applies where `Shapes.FillCall`, `Shapes.StrokeCall` and `Commands.PushClip` rely on it.
- Device and factory creation are left out: `Context::new`, `Direct3D11::new`, `Direct3D12::new`, `Direct2D::new` and the factory helpers. They only build COM objects.
- `Factory::lock`, the font-file loader and its registration, and COM reference counting are left out. They are cross-thread serialisation and foreign-object lifetime management.
- The DPI and scale-factor setters, `size`/`physical_size` and the older `set_offset` transform are left out. They are floating-point arithmetic on platform values.
- `src/image.rs` (WIC decoding) is left out. Only its `Interpolation` enum is modelled, because `draw_image` passes it on.
- The older revision's image, text format and text layout are left out. `mltg/src/image.rs` and `mltg/src/text.rs` are not part of this model. Their drawing is the opaque `Delegated` call.
- DirectWrite behaviour is left out: font loading, metrics, hit testing, and `TextFormat`/`TextLayout` equality. Metrics are parameters.
- Text.NewTextLayout: the CreateTextLayout request is not recorded. The source passes the UTF-16 text with a NUL appended, a length that counts the NUL, and `f32::MAX` as both maximum sizes (src/text.rs:233-239). Those inputs decide the measured metrics, which the model takes as a free parameter.
- `Text.NewTextFormat` follows `src/text.rs`. `TextFormat::new` there takes no font loader or locale, while `src/context.rs` passes both. The two are from different revisions, and the code of `text.rs` is followed.
- The Factory's brush, stroke-style and text creators are not modelled separately. They only forward to the members already listed.
- The casts of a D3D11On12 wrapper or a swap-chain buffer to `IDXGISurface` are taken as succeeding, because these objects always support that interface. The same goes for the factory cast in the older `draw_text`.
- `Direct3D11.ContextFromSwapChain` models the `cast().expect` on the caller's swap chain with an `isSwapChain` flag. It does not model the COM interface query.
- `Direct2D.BitmapOf` requires a bitmap to be present. The source unwraps it, and only a failed resize leaves a target without one.
- Context.Draw, Direct2D.BeginDraw and Direct2D.EndDraw also require a Direct2D target to hold its bitmap. Drawing on a target left without one by a failed resize panics in the source at the unwraps of src/d2d.rs:144 and src/d2d.rs:150; the model does not cover that panic.
- Text.SetAlignment, Text.SetSize and Text.ResetSize return a new layout value. In the source they write through `&self` into the shared DirectWrite layout, so every clone of a `TextLayout` sees the change. The model does not track that sharing: a copy taken before the call keeps the old alignment and maximum size.
- `Commands.ExecOne` models `draw_image` with a current-revision image as one DrawBitmap call. The bitmap handle is opaque.
- `Errors.FromKind` does not model the message text the platform attaches to an HRESULT. The message plays no part in equality.

## Findings

| source | as written | input that shows it | evidently intended | confidence | as-written member | corrected member |
|---|---|---|---|---|---|---|
| mltg/src/context.rs:282-286 | `EndDraw()` is unwrapped before `SetTarget(None)` and before the backend's `end_draw`, so a failed EndDraw panics with the target still bound and, on D3D12, the wrapper still acquired | a D3D12 target whose `EndDraw` returns an error such as D2DERR_RECREATE_TARGET | always unbind and run the backend's `end_draw` (release, flush), then report the error, as `src/context.rs:333-340` does | not executed | LegacyContext.FailedEndDrawLeaksWrapper | Context.DrawIsLegal |
