/** Text: the DirectWrite enums, `TextStyle`, `Font`, and the fields that
    `TextFormat` and `TextLayout` keep beside their platform objects
    (src/text.rs).

    The DirectWrite objects are modelled only by the settings the wrapper
    writes into them (maximum size, alignments). Font loading, measuring and
    hit testing belong to the platform; measured metrics are a parameter.
 */
module Text {

  import opened Geometry
  import opened Results
  import opened Platform
  import Errors

  datatype FontWeight =
    Thin | UltraLight | Light | SemiLight | Regular | Medium | SemiBold | Bold | UltraBold | Heavy | UltraBlack

  /** DWRITE_FONT_WEIGHT values (`#[repr(i32)]`). */
  function WeightCode(w: FontWeight): int
  {
    match w
    case Thin => 100
    case UltraLight => 200
    case Light => 300
    case SemiLight => 350
    case Regular => 400
    case Medium => 500
    case SemiBold => 600
    case Bold => 700
    case UltraBold => 800
    case Heavy => 900
    case UltraBlack => 950
  }

  datatype FontStyle = Normal | Oblique | Italic

  /** DWRITE_FONT_STYLE values. */
  function StyleCode(s: FontStyle): int
  {
    match s
    case Normal => 0
    case Oblique => 1
    case Italic => 2
  }

  datatype FontStretch =
    Undefined | UltraCondensed | ExtraCondensed | Condensed | SemiCondensed | MediumStretch
    | SemiExpanded | Expanded | ExtraExpanded | UltraExpanded

  /** DWRITE_FONT_STRETCH values. */
  function StretchCode(s: FontStretch): int
  {
    match s
    case Undefined => 0
    case UltraCondensed => 1
    case ExtraCondensed => 2
    case Condensed => 3
    case SemiCondensed => 4
    case MediumStretch => 5
    case SemiExpanded => 6
    case Expanded => 7
    case ExtraExpanded => 8
    case UltraExpanded => 9
  }

  /** The discriminants are the platform's values, so distinct variants
      reach the platform as distinct codes. */
  lemma FontCodesInjective(a: FontWeight, b: FontWeight, s: FontStyle, t: FontStyle, u: FontStretch, v: FontStretch)
    ensures WeightCode(a) == WeightCode(b) <==> a == b
    ensures StyleCode(s) == StyleCode(t) <==> s == t
    ensures StretchCode(u) == StretchCode(v) <==> u == v
    ensures 100 <= WeightCode(a) <= 950 && 0 <= StyleCode(s) <= 2 && 0 <= StretchCode(u) <= 9
  {
  }

  datatype TextStyle = TextStyle(weight: FontWeight, style: FontStyle, stretch: FontStretch)

  /** `impl Default for TextStyle`. */
  const DefaultTextStyle: TextStyle := TextStyle(Regular, Normal, MediumStretch)

  datatype TextAlignment = Leading | Center | Trailing | Justified

  /** DWRITE_TEXT_ALIGNMENT values. */
  function AlignmentCode(a: TextAlignment): int
  {
    match a
    case Leading => 0
    case Trailing => 1
    case Center => 2
    case Justified => 3
  }

  /** `TryFrom<DWRITE_TEXT_ALIGNMENT> for TextAlignment`: the four platform
      codes map to their variants, every other code is an error. */
  function AlignmentFromCode(code: int): (r: Option<TextAlignment>)
    ensures r.Some? <==> 0 <= code <= 3
    ensures r.Some? ==> AlignmentCode(r.value) == code
  {
    if code == 0 then Some(Leading)
    else if code == 2 then Some(Center)
    else if code == 1 then Some(Trailing)
    else if code == 3 then Some(Justified)
    else None
  }

  /** Converting a variant to its code and back gives the variant. */
  lemma AlignmentRoundTrip(a: TextAlignment)
    ensures AlignmentFromCode(AlignmentCode(a)) == Some(a)
  {
  }

  /** `Font`: a system family, or a family loaded from a font file. */
  datatype Font = System(family: string) | File(path: string, family: string)

  /** `Font::system`. */
  function SystemFont(name: string): (f: Font)
    ensures f.System? && FontName(f) == name
  {
    System(name)
  }

  /** `Font::file`. */
  function FileFont(path: string, name: string): (f: Font)
    ensures f.File? && f.path == path && FontName(f) == name
  {
    File(path, name)
  }

  /** `Font::name`: the family name, for both variants. */
  function FontName(f: Font): string
  {
    match f
    case System(name) => name
    case File(_, name) => name
  }

  /** What CreateTextFormat is called with: the family name, the font
      collection (none for a system font), the style's codes, the size and
      an empty locale. */
  datatype FormatRequest = FormatRequest(
    family: string, collection: Option<Handle>, weight: int, style: int, stretch: int, size: F32, locale: string)

  datatype TextFormat = TextFormat(format: Handle, request: FormatRequest, font: Font, size: F32, style: TextStyle)

  /** `TextFormat::new`. A file font first builds a font collection from the
      file (`fontSet`, the result of that chain of calls); then the format is
      created. Either failure is returned. */
  function NewTextFormat(font: Font, size: F32, style: Option<TextStyle>,
                         fontSet: Result<Handle, Errors.PlatformError>,
                         created: Result<Handle, Errors.PlatformError>): (r: Result<TextFormat, Errors.PlatformError>)
    ensures r.Ok? <==> created.Ok? && (font.File? ==> fontSet.Ok?)
    ensures r.Err? && font.File? && fontSet.Err? ==> r.error == fontSet.error
    ensures r.Ok? ==> r.value.format == created.value
    ensures r.Ok? ==> TextFormatFont(r.value) == font && TextFormatSize(r.value) == size
    ensures r.Ok? ==> TextFormatStyle(r.value) == (if style.Some? then style.value else DefaultTextStyle)
    ensures r.Ok? ==> r.value.request.family == FontName(font) && r.value.request.size == size
    ensures r.Ok? ==> (r.value.request.collection.None? <==> font.System?)
    ensures r.Ok? ==> r.value.request.weight == WeightCode(TextFormatStyle(r.value).weight)
    ensures r.Ok? ==> r.value.request.style == StyleCode(TextFormatStyle(r.value).style)
    ensures r.Ok? ==> r.value.request.stretch == StretchCode(TextFormatStyle(r.value).stretch)
    ensures r.Ok? ==> r.value.request.locale == ""
    ensures created.Err? && (font.System? || fontSet.Ok?) ==> r == Err(created.error)
  {
    var st := if style.Some? then style.value else DefaultTextStyle;
    var collection: Result<Option<Handle>, Errors.PlatformError> :=
      match font
      case System(_) => Ok(None)
      case File(_, _) => (match fontSet case Ok(h) => Ok(Some(h)) case Err(e) => Err(e));
    match collection
    case Err(e) => Err(e)
    case Ok(c) =>
      match created
      case Err(e) => Err(e)
      case Ok(h) =>
        var req := FormatRequest(FontName(font), c, WeightCode(st.weight), StyleCode(st.style),
                                 StretchCode(st.stretch), size, "");
        Ok(TextFormat(h, req, font, size, st))
  }

  /** `TextFormat::font`, `font_size` and `style`. */
  function TextFormatFont(f: TextFormat): Font { f.font }
  function TextFormatSize(f: TextFormat): F32 { f.size }
  function TextFormatStyle(f: TextFormat): TextStyle { f.style }

  // DWRITE_PARAGRAPH_ALIGNMENT_CENTER.
  const PARAGRAPH_ALIGNMENT_CENTER: int := 2

  /** The settings the wrapper has written into an IDWriteTextLayout. */
  datatype LayoutObject = LayoutObject(handle: Handle, maxSize: Size, alignment: int, paragraphAlignment: int)

  datatype TextLayout = TextLayout(layout: LayoutObject, format: TextFormat, text: string, size: Size)

  /** `TextLayout::new`. Creating the layout may fail, and that error is
      returned; the metrics read when no size is given and the setters that
      follow are unwrapped, so their failure panics. The stored size is the
      given size, or the measured one. */
  function NewTextLayout(text: string, format: TextFormat, alignment: TextAlignment, size: Option<Size>,
                         created: Result<Handle, Errors.PlatformError>,
                         metrics: Result<Size, Errors.PlatformError>,
                         setters: Result<(), Errors.PlatformError>): (r: Outcome<Result<TextLayout, Errors.PlatformError>>)
    ensures created.Err? ==> r == Returned(Err(created.error))
    ensures created.Ok? ==> (r.Panicked? <==> setters.Err? || (size.None? && metrics.Err?))
    ensures r.Returned? && r.value.Ok? ==>
      var l := r.value.value;
      LayoutText(l) == text && l.format == format && l.layout.handle == created.value
      && LayoutSize(l) == (if size.Some? then size.value else metrics.value)
      && l.layout.maxSize == LayoutSize(l)
      && LayoutAlignment(l) == Returned(alignment)
      && l.layout.paragraphAlignment == PARAGRAPH_ALIGNMENT_CENTER
  {
    match created
    case Err(e) => Returned(Err(e))
    case Ok(h) =>
      if size.None? && metrics.Err? then Panicked
      else if setters.Err? then Panicked
      else
        var s := if size.Some? then size.value else metrics.value;
        AlignmentRoundTrip(alignment);
        Returned(Ok(TextLayout(LayoutObject(h, s, AlignmentCode(alignment), PARAGRAPH_ALIGNMENT_CENTER), format, text, s)))
  }

  /** `TextLayout::text`. */
  function LayoutText(l: TextLayout): string { l.text }

  /** `TextLayout::size`: the size stored at construction. */
  function LayoutSize(l: TextLayout): Size { l.size }

  /** `TextLayout::alignment`: reads the platform's code back, panicking on an
      unknown code. */
  function LayoutAlignment(l: TextLayout): (r: Outcome<TextAlignment>)
    ensures r.Returned? <==> 0 <= l.layout.alignment <= 3
    ensures r.Returned? ==> AlignmentCode(r.value) == l.layout.alignment
  {
    match AlignmentFromCode(l.layout.alignment)
    case Some(a) => Returned(a)
    case None => Panicked
  }

  /** `TextLayout::set_alignment`; the setter's result is unwrapped. */
  function SetAlignment(l: TextLayout, alignment: TextAlignment, ok: Result<(), Errors.PlatformError>): (r: Outcome<TextLayout>)
    ensures r.Returned? <==> ok.Ok?
    ensures r.Returned? ==> LayoutAlignment(r.value) == Returned(alignment)
    ensures r.Returned? ==> r.value.text == l.text && r.value.size == l.size && r.value.format == l.format
    ensures r.Returned? ==> r.value.layout.maxSize == l.layout.maxSize
  {
    AlignmentRoundTrip(alignment);
    if ok.Err? then Panicked else Returned(l.(layout := l.layout.(alignment := AlignmentCode(alignment))))
  }

  /** `TextLayout::set_size`: changes the layout's maximum size only; what
      `size()` reports is unchanged. */
  function SetSize(l: TextLayout, size: Size, ok: Result<(), Errors.PlatformError>): (r: Outcome<TextLayout>)
    ensures r.Returned? <==> ok.Ok?
    ensures r.Returned? ==> r.value.layout.maxSize == size
    ensures r.Returned? ==> LayoutSize(r.value) == LayoutSize(l) && LayoutText(r.value) == LayoutText(l)
    ensures r.Returned? ==> LayoutAlignment(r.value) == LayoutAlignment(l)
  {
    if ok.Err? then Panicked else Returned(l.(layout := l.layout.(maxSize := size)))
  }

  /** `TextLayout::reset_size`: sets the maximum size to the measured
      metrics, again leaving `size()` unchanged. */
  function ResetSize(l: TextLayout, metrics: Result<Size, Errors.PlatformError>,
                     ok: Result<(), Errors.PlatformError>): (r: Outcome<TextLayout>)
    ensures r.Returned? <==> metrics.Ok? && ok.Ok?
    ensures r.Returned? ==> r.value.layout.maxSize == metrics.value
    ensures r.Returned? ==> LayoutSize(r.value) == LayoutSize(l)
  {
    if metrics.Err? then Panicked else SetSize(l, metrics.value, ok)
  }

  /** `TextLayout::draw`: one DrawTextLayout at the origin, with the
      colour-font and clip options. */
  function DrawLayoutCall(l: TextLayout, brush: Handle, origin: Point): (c: DcCall)
    ensures c.DrawTextLayout? && c.layout == l.layout.handle && c.brush == brush
    ensures PointFromD2D(c.origin) == origin
    ensures c.options == DRAW_TEXT_OPTIONS_ENABLE_COLOR_FONT + DRAW_TEXT_OPTIONS_CLIP
  {
    DrawTextLayout(PointToD2D(origin), l.layout.handle, brush,
                   DRAW_TEXT_OPTIONS_ENABLE_COLOR_FONT + DRAW_TEXT_OPTIONS_CLIP)
  }

  /** However a layout's maximum size is changed afterwards, `size()` keeps
      reporting the size fixed at construction. */
  lemma {:induction false} SizeIsStable(l: TextLayout, sizes: seq<Size>)
    ensures Resize(l, sizes).size == l.size && Resize(l, sizes).text == l.text
    ensures |sizes| > 0 ==> Resize(l, sizes).layout.maxSize == sizes[|sizes| - 1]
    decreases |sizes|
  {
    if |sizes| > 0 {
      SizeIsStable(SetSize(l, sizes[0], Ok(())).value, sizes[1..]);
    }
  }

  function Resize(l: TextLayout, sizes: seq<Size>): TextLayout
    decreases |sizes|
  {
    if |sizes| == 0 then l else Resize(SetSize(l, sizes[0], Ok(())).value, sizes[1..])
  }
}
