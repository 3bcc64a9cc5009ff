/** The render request: its fields after destructuring with defaults, and
    the resolution of one text block's style (font, size, colour, alignment)
    with JavaScript `||` fallbacks. */
module Request {
  import opened JsValues
  import opened Fonts

  /** The per-block style object; every field may be missing. Sizes and
      letter spacing are kept as what `Number(...)` makes of them. */
  datatype StyleSpec = StyleSpec(
    fontFamily: JsString,
    fontSize: JsNumber,
    color: JsString,
    fontWeight: JsString,
    letterSpacing: JsNumber,
    align: JsString)

  const EmptyStyle := StyleSpec(None, None, None, None, None, None)

  /** A style field that is present: JSON `null`, or an object. */
  datatype StyleArg = NullStyle | StyleObject(spec: StyleSpec)

  /** The JSON body as received; None is a missing field. */
  datatype RenderRequest = RenderRequest(
    title: JsString,
    subtitle: JsString,
    name: JsString,
    body: JsString,
    signatureLabel: JsString,
    dateLabel: JsString,
    orientation: JsString,
    titleStyle: Option<StyleArg>,
    subStyle: Option<StyleArg>,
    nameStyle: Option<StyleArg>,
    bodyStyle: Option<StyleArg>)

  const EmptyRequest := RenderRequest(None, None, None, None, None, None, None, None, None, None, None)

  /** The request after destructuring: defaults filled in. */
  datatype Certificate = Certificate(
    title: string,
    subtitle: string,
    name: string,
    body: string,
    signatureLabel: string,
    dateLabel: string,
    orientation: string,
    titleStyle: StyleArg,
    subStyle: StyleArg,
    nameStyle: StyleArg,
    bodyStyle: StyleArg)

  const DefaultBody := "This is to certify that the person above has successfully completed the course."

  const DefaultCertificate := Certificate(
    "CERTIFICATE", "of participation", "Name Surname", DefaultBody, "Signature", "Date", "landscape",
    StyleObject(EmptyStyle), StyleObject(EmptyStyle), StyleObject(EmptyStyle), StyleObject(EmptyStyle))

  /** A destructuring default: taken only when the field is missing. */
  function OrDefault(v: JsString, d: string): string {
    match v
    case None => d
    case Some(s) => s
  }

  function StyleOrEmpty(v: Option<StyleArg>): StyleArg {
    match v
    case None => StyleObject(EmptyStyle)
    case Some(a) => a
  }

  /** `const { title = "CERTIFICATE", ... } = req.body || {}`. A style
      field is `null` only when the body says so: the default is an empty
      object. */
  function Destructure(body: Option<RenderRequest>): (c: Certificate)
    ensures body.None? ==> c == DefaultCertificate
    ensures c.titleStyle.NullStyle? ==> body.Some? && body.value.titleStyle == Some(NullStyle)
    ensures c.subStyle.NullStyle? ==> body.Some? && body.value.subStyle == Some(NullStyle)
    ensures c.nameStyle.NullStyle? ==> body.Some? && body.value.nameStyle == Some(NullStyle)
    ensures c.bodyStyle.NullStyle? ==> body.Some? && body.value.bodyStyle == Some(NullStyle)
  {
    var r := if body.Some? then body.value else EmptyRequest;
    Certificate(
      OrDefault(r.title, "CERTIFICATE"),
      OrDefault(r.subtitle, "of participation"),
      OrDefault(r.name, "Name Surname"),
      OrDefault(r.body, DefaultBody),
      OrDefault(r.signatureLabel, "Signature"),
      OrDefault(r.dateLabel, "Date"),
      OrDefault(r.orientation, "landscape"),
      StyleOrEmpty(r.titleStyle),
      StyleOrEmpty(r.subStyle),
      StyleOrEmpty(r.nameStyle),
      StyleOrEmpty(r.bodyStyle))
  }

  /** A missing body and an empty body both give every documented default. */
  lemma AllDefaults()
    ensures Destructure(None) == DefaultCertificate
    ensures Destructure(Some(EmptyRequest)) == DefaultCertificate
  {
  }

  /** Every field that is present, whatever its value, is taken as given;
      every missing field takes its literal default. */
  lemma GivenFieldsKept(r: RenderRequest)
    ensures var c := Destructure(Some(r));
            && (r.title.None? ==> c.title == "CERTIFICATE")
            && (r.subtitle.None? ==> c.subtitle == "of participation")
            && (r.name.None? ==> c.name == "Name Surname")
            && (r.body.None? ==> c.body == DefaultBody)
            && (r.signatureLabel.None? ==> c.signatureLabel == "Signature")
            && (r.dateLabel.None? ==> c.dateLabel == "Date")
            && (r.orientation.None? ==> c.orientation == "landscape")
            && (r.titleStyle.None? ==> c.titleStyle == StyleObject(EmptyStyle))
            && (r.subStyle.None? ==> c.subStyle == StyleObject(EmptyStyle))
            && (r.nameStyle.None? ==> c.nameStyle == StyleObject(EmptyStyle))
            && (r.bodyStyle.None? ==> c.bodyStyle == StyleObject(EmptyStyle))
    ensures var c := Destructure(Some(r));
            && (r.title.Some? ==> c.title == r.title.value)
            && (r.subtitle.Some? ==> c.subtitle == r.subtitle.value)
            && (r.name.Some? ==> c.name == r.name.value)
            && (r.body.Some? ==> c.body == r.body.value)
            && (r.signatureLabel.Some? ==> c.signatureLabel == r.signatureLabel.value)
            && (r.dateLabel.Some? ==> c.dateLabel == r.dateLabel.value)
            && (r.orientation.Some? ==> c.orientation == r.orientation.value)
            && (r.titleStyle.Some? ==> c.titleStyle == r.titleStyle.value)
            && (r.subStyle.Some? ==> c.subStyle == r.subStyle.value)
            && (r.nameStyle.Some? ==> c.nameStyle == r.nameStyle.value)
            && (r.bodyStyle.Some? ==> c.bodyStyle == r.bodyStyle.value)
  {
  }

  /** Destructuring defaults replace only missing fields: an empty title
      stays empty, unlike the style fields, which fall back on any falsy
      value. */
  lemma EmptyTextIsKept(r: RenderRequest)
    requires r.title == Some("")
    ensures Destructure(Some(r)).title == ""
  {
  }

  // ----- per-block style -----

  /** The block-specific defaults a style falls back to. */
  datatype BlockDefaults = BlockDefaults(font: string, size: real, color: string)

  /** What the block is drawn with. */
  datatype ResolvedStyle = ResolvedStyle(font: string, size: real, color: string, align: string)

  /** The title's default font comes from its weight (default "500"). */
  function TitleDefaults(s: StyleSpec): (d: BlockDefaults)
    ensures d.font == PoppinsRegular || d.font == PoppinsMedium
    ensures !Truthy(s.fontWeight) ==> d.font == PoppinsMedium
    ensures Truthy(s.fontWeight) ==> d.font == PickPoppinsByWeight(s.fontWeight)
    ensures d.size == 24.0 && d.color == "#111827"
  {
    Weight500();
    BlockDefaults(PickPoppinsByWeight(Some(StringOr(s.fontWeight, "500"))), 24.0, "#111827")
  }

  const SubtitleDefaults := BlockDefaults(PoppinsRegular, 14.0, "#6b7280")
  const NameDefaults := BlockDefaults(TimesNew, 24.0, "#8b3b3b")
  const BodyDefaults := BlockDefaults(PoppinsRegular, 12.0, "#374151")

  /** Font from the family rule, then `Number(size) || d`, `color || d`,
      `align || "center"`. */
  function ResolveStyle(s: StyleSpec, d: BlockDefaults): (r: ResolvedStyle)
    requires d.font != "" && d.size != 0.0 && d.color != ""
    ensures r.font != "" && r.color != "" && r.align != ""
    ensures r.size != 0.0
    ensures r.size == d.size || Some(r.size) == s.fontSize
    ensures r.color == d.color || Some(r.color) == s.color
    ensures r.align == "center" || Some(r.align) == s.align
  {
    ResolvedStyle(
      MapCssToFont(s.fontFamily, d.font),
      NumberOr(s.fontSize, d.size),
      StringOr(s.color, d.color),
      StringOr(s.align, "center"))
  }

  /** `Number(letterSpacing) || 0`: a NaN spacing is none at all. */
  function TitleLetterSpacing(s: StyleSpec): (sp: real)
    ensures sp == if s.letterSpacing.Some? then s.letterSpacing.value else 0.0
  {
    NumberOr(s.letterSpacing, 0.0)
  }

  /** A size that is NaN (missing or not numeric) or zero gives the block
      default; any other number, negative ones included, is used as is. */
  lemma SizeFallback(s: StyleSpec, d: BlockDefaults)
    requires d.font != "" && d.size != 0.0 && d.color != ""
    ensures s.fontSize == None || s.fontSize == Some(0.0) ==> ResolveStyle(s, d).size == d.size
    ensures s.fontSize.Some? && s.fontSize.value != 0.0 ==> ResolveStyle(s, d).size == s.fontSize.value
  {
  }

  /** An absent or empty colour or alignment falls back to the block
      colour and to "center"; a non-empty one is used as given. */
  lemma ColorAndAlignFallback(s: StyleSpec, d: BlockDefaults)
    requires d.font != "" && d.size != 0.0 && d.color != ""
    ensures ResolveStyle(s, d).color == if s.color == None || s.color == Some("") then d.color else s.color.value
    ensures ResolveStyle(s, d).align == if s.align == None || s.align == Some("") then "center" else s.align.value
  {
  }

  /** An empty style resolves to the block defaults; the title's default
      font is the medium weight. */
  lemma EmptyStyleGivesDefaults()
    ensures ResolveStyle(EmptyStyle, TitleDefaults(EmptyStyle))
         == ResolvedStyle(PoppinsMedium, 24.0, "#111827", "center")
    ensures ResolveStyle(EmptyStyle, SubtitleDefaults) == ResolvedStyle(PoppinsRegular, 14.0, "#6b7280", "center")
    ensures ResolveStyle(EmptyStyle, NameDefaults) == ResolvedStyle(TimesNew, 24.0, "#8b3b3b", "center")
    ensures ResolveStyle(EmptyStyle, BodyDefaults) == ResolvedStyle(PoppinsRegular, 12.0, "#374151", "center")
    ensures TitleLetterSpacing(EmptyStyle) == 0.0
  {
    WeightBoundary();
  }
}
