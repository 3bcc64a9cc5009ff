/** The `/api/generate-pdf` handler: it destructures the request, sizes the
    page, paints background and card, draws the four text blocks down the
    content column and the two footers, and answers with the document, or
    with a 500 error when a style object is `null`. */
module Server {
  import opened JsValues
  import opened Fonts
  import opened Request
  import opened Layout
  import opened Pdf

  const BackgroundColor := "#d1fae5"
  const CardFill := "#ffffff"
  const CardStroke := "#d1d5db"
  const RuleColor := "#4b5563"
  const FooterColor := "#6b7280"
  const FooterSize := 9.0

  datatype Response =
    | PdfResponse(contentType: string, disposition: string, page: Page, ops: seq<Op>)
    | ErrorResponse(status: int, error: string)

  /** `Math.floor(100000 + Math.random() * 900000)`, with the random number
      given. */
  function RandomSuffix(random: real): (n: int)
    requires 0.0 <= random < 1.0
    ensures 100000 <= n <= 999999
  {
    (100000.0 + random * 900000.0).Floor
  }

  /** The download name: the decimal suffix between `CertifyPro_` and
      `.pdf`. */
  function Filename(suffix: nat): (f: string)
    ensures |f| == |Decimal(suffix)| + 15
    ensures f[..11] == "CertifyPro_" && f[11..|f| - 4] == Decimal(suffix) && f[|f| - 4..] == ".pdf"
  {
    "CertifyPro_" + Decimal(suffix) + ".pdf"
  }

  /** The Content-Disposition header: the file name, quoted, after
      `attachment; filename=`. */
  function Disposition(filename: string): (d: string)
    ensures |d| == |filename| + 23
    ensures d[..22] == "attachment; filename=\"" && d[22..|d| - 1] == filename && d[|d| - 1] == '"'
  {
    "attachment; filename=\"" + filename + "\""
  }

  /** `CertifyPro_` followed by six digits and `.pdf`. */
  predicate IsCertificateFilename(f: string) {
    |f| == 21 && f[..11] == "CertifyPro_" && AllDigits(f[11..17]) && f[17..] == ".pdf"
  }

  /** Reading a property of a `null` style object throws a TypeError. */
  predicate HasNullStyle(c: Certificate) {
    c.titleStyle.NullStyle? || c.subStyle.NullStyle? || c.nameStyle.NullStyle? || c.bodyStyle.NullStyle?
  }

  /** Background over the whole page, then the card inside save/restore. */
  function FrameOps(g: Geometry): seq<Op> {
    [FillRect(0.0, 0.0, g.page.width, g.page.height, BackgroundColor),
     Save, FillStrokeRoundedRect(g.card.x, g.card.y, g.card.w, g.card.h, CardRadius, CardFill, CardStroke), Restore]
  }

  /** The title, at an absolute position 40 below the card's top edge. */
  function TitleOp(content: string, g: Geometry, r: ResolvedStyle, spacing: real): Op {
    Text(content, g.contentX, At(g.card.y + TitleOffset), g.contentW, r.align, Some(spacing), r.font, r.size, r.color)
  }

  /** A block flowing below the cursor in the content column. */
  function BlockText(content: string, g: Geometry, r: ResolvedStyle): Op {
    Text(content, g.contentX, Flow, g.contentW, r.align, None, r.font, r.size, r.color)
  }

  /** A cursor advance and the block below it. */
  function BlockOps(lines: real, content: string, g: Geometry, r: ResolvedStyle): seq<Op> {
    [MoveDown(lines), BlockText(content, g, r)]
  }

  /** A footer caption, centred under its rule in the fixed footer style
      (`"PoppinsRegular" || "Helvetica"` is always "PoppinsRegular"). */
  function FooterText(g: Geometry, caption: string, x: real): Op {
    Text(caption, x, At(g.footerY + FooterLabelOffset), FooterLineWidth, "center", None,
         PoppinsRegular, FooterSize, FooterColor)
  }

  /** A footer: a 200-wide rule and its caption. */
  function FooterOps(g: Geometry, caption: string, x: real): seq<Op> {
    [Save, FillRect(x, g.footerY, FooterLineWidth, 1.0, RuleColor), Restore, FooterText(g, caption, x)]
  }

  /** The resolved styles of the four blocks and the title's letter spacing. */
  datatype BlockStyles = BlockStyles(
    title: ResolvedStyle, spacing: real, subtitle: ResolvedStyle, name: ResolvedStyle, body: ResolvedStyle)

  function ResolveBlocks(c: Certificate): (st: BlockStyles)
    requires !HasNullStyle(c)
  {
    var ts := c.titleStyle.spec;
    BlockStyles(
      ResolveStyle(ts, TitleDefaults(ts)),
      TitleLetterSpacing(ts),
      ResolveStyle(c.subStyle.spec, SubtitleDefaults),
      ResolveStyle(c.nameStyle.spec, NameDefaults),
      ResolveStyle(c.bodyStyle.spec, BodyDefaults))
  }

  /** The title and the three flowing blocks. */
  function TextBlockOps(c: Certificate, g: Geometry, st: BlockStyles): seq<Op> {
    [TitleOp(c.title, g, st.title, st.spacing)]
    + BlockOps(0.5, c.subtitle, g, st.subtitle)
    + BlockOps(2.0, c.name, g, st.name)
    + BlockOps(1.2, c.body, g, st.body)
  }

  /** The paint operations of a certificate, in drawing order. */
  function CertificateOps(c: Certificate, g: Geometry, st: BlockStyles): seq<Op> {
    FrameOps(g)
    + TextBlockOps(c, g, st)
    + FooterOps(g, c.signatureLabel, g.sigLineX)
    + FooterOps(g, c.dateLabel, g.dateLineX)
  }

  lemma AppendAssoc(a: seq<Op>, b: seq<Op>, c: seq<Op>)
    ensures a + b + c == a + (b + c)
  {
  }

  /** What is drawn of the blocks before the first `null` style throws. */
  function OpsBeforeThrow(c: Certificate, g: Geometry): seq<Op> {
    if c.titleStyle.NullStyle? then []
    else
      var ts := c.titleStyle.spec;
      var t := [TitleOp(c.title, g, ResolveStyle(ts, TitleDefaults(ts)), TitleLetterSpacing(ts))];
      if c.subStyle.NullStyle? then t
      else
        var t2 := t + BlockOps(0.5, c.subtitle, g, ResolveStyle(c.subStyle.spec, SubtitleDefaults));
        if c.nameStyle.NullStyle? then t2
        else t2 + BlockOps(2.0, c.name, g, ResolveStyle(c.nameStyle.spec, NameDefaults))
  }

  /** The response to a request body (None: no body), on an A4 page with the
      given sides; `suffix` is the six-digit number drawn for the file
      name (see RandomSuffix). */
  function Respond(body: Option<RenderRequest>, shortSide: real, longSide: real, suffix: nat): (r: Response)
    requires 0.0 < shortSide < longSide
    requires 100000 <= suffix <= 999999
    ensures r.ErrorResponse? <==> HasNullStyle(Destructure(body))
    ensures r.ErrorResponse? ==> r.status == 500 && r.error == "PDF generation failed"
    ensures r.PdfResponse? ==>
              && r.contentType == "application/pdf"
              && r.page == PageFor(Destructure(body).orientation, shortSide, longSide)
              && |r.ops| == 19
  {
    var c := Destructure(body);
    if HasNullStyle(c) then ErrorResponse(500, "PDF generation failed")
    else
      var page := PageFor(c.orientation, shortSide, longSide);
      PdfResponse("application/pdf", Disposition(Filename(suffix)), page,
                  CertificateOps(c, GeometryOf(page), ResolveBlocks(c)))
  }

  // ----- the handler -----

  method DrawFrame(doc: PdfDocument, g: Geometry)
    modifies doc`log, doc`fillColor
    ensures doc.log == old(doc.log) + FrameOps(g)
    ensures doc.fillColor == CardFill
  {
    doc.FillRectangle(0.0, 0.0, g.page.width, g.page.height, BackgroundColor);
    doc.SaveState();
    doc.FillAndStrokeRoundedRect(g.card.x, g.card.y, g.card.w, g.card.h, CardRadius, CardFill, CardStroke);
    doc.RestoreState();
  }

  /** `font(name || fallback).fontSize(size).fillColor(color)`: the fallback
      is never taken, since a resolved font is never empty. */
  method ApplyStyle(doc: PdfDocument, r: ResolvedStyle, fallback: string)
    requires r.font != ""
    modifies doc`font, doc`fontSize, doc`fillColor
    ensures doc.font == r.font && doc.fontSize == r.size && doc.fillColor == r.color
  {
    doc.SetFont(StringOr(Some(r.font), fallback));
    doc.SetFontSize(r.size);
    doc.SetFillColor(r.color);
  }

  method DrawTitle(doc: PdfDocument, content: string, g: Geometry, r: ResolvedStyle, spacing: real)
    requires r.font != ""
    modifies doc`log, doc`font, doc`fontSize, doc`fillColor, doc`x
    ensures doc.log == old(doc.log) + [TitleOp(content, g, r, spacing)]
    ensures doc.x == g.contentX
    ensures doc.font == r.font && doc.fontSize == r.size && doc.fillColor == r.color
  {
    ApplyStyle(doc, r, "Helvetica");
    doc.TextAt(content, g.contentX, g.card.y + TitleOffset, g.contentW, r.align, Some(spacing));
  }

  /** `moveDown(lines)` and a flowing block; the x position left by the
      title puts it in the content column. */
  method DrawBlock(doc: PdfDocument, lines: real, content: string, g: Geometry, r: ResolvedStyle, fallback: string)
    requires r.font != "" && doc.x == g.contentX
    modifies doc`log, doc`font, doc`fontSize, doc`fillColor
    ensures doc.log == old(doc.log) + BlockOps(lines, content, g, r)
    ensures doc.font == r.font && doc.fontSize == r.size && doc.fillColor == r.color
  {
    doc.Advance(lines);
    ApplyStyle(doc, r, fallback);
    doc.TextFlow(content, g.contentW, r.align);
  }

  method DrawFooter(doc: PdfDocument, g: Geometry, caption: string, x: real)
    modifies doc`log, doc`font, doc`fontSize, doc`fillColor, doc`x
    ensures doc.log == old(doc.log) + FooterOps(g, caption, x)
    ensures doc.font == PoppinsRegular && doc.fontSize == FooterSize && doc.fillColor == FooterColor
    ensures doc.x == x
  {
    doc.SaveState();
    doc.FillRectangle(x, g.footerY, FooterLineWidth, 1.0, RuleColor);
    doc.RestoreState();
    doc.SetFont(StringOr(Some(PoppinsRegular), "Helvetica"));
    doc.SetFontSize(FooterSize);
    doc.SetFillColor(FooterColor);
    doc.TextAt(caption, x, g.footerY + FooterLabelOffset, FooterLineWidth, "center", None);
  }

  /** Title, subtitle, name and body, each after reading its style object.
      A `null` style throws before anything of its block is drawn; `drawn`
      is false exactly then. */
  method DrawBlocks(doc: PdfDocument, c: Certificate, g: Geometry) returns (drawn: bool)
    modifies doc`log, doc`font, doc`fontSize, doc`fillColor, doc`x
    ensures drawn <==> !HasNullStyle(c)
    ensures drawn ==> doc.log == old(doc.log) + TextBlockOps(c, g, ResolveBlocks(c))
    ensures !drawn ==> doc.log == old(doc.log) + OpsBeforeThrow(c, g)
    ensures drawn ==> var b := ResolveBlocks(c).body;
              doc.font == b.font && doc.fontSize == b.size && doc.fillColor == b.color && doc.x == g.contentX
  {
    ghost var start := doc.log;
    if c.titleStyle.NullStyle? {
      return false;
    }
    var ts := c.titleStyle.spec;
    var title := ResolveStyle(ts, TitleDefaults(ts));
    DrawTitle(doc, c.title, g, title, TitleLetterSpacing(ts));
    ghost var ops := [TitleOp(c.title, g, title, TitleLetterSpacing(ts))];
    assert doc.log == start + ops;

    if c.subStyle.NullStyle? {
      return false;
    }
    var sub := ResolveStyle(c.subStyle.spec, SubtitleDefaults);
    DrawBlock(doc, 0.5, c.subtitle, g, sub, "Helvetica");
    AppendAssoc(start, ops, BlockOps(0.5, c.subtitle, g, sub));
    ops := ops + BlockOps(0.5, c.subtitle, g, sub);

    if c.nameStyle.NullStyle? {
      return false;
    }
    var name := ResolveStyle(c.nameStyle.spec, NameDefaults);
    DrawBlock(doc, 2.0, c.name, g, name, "Times-Roman");
    AppendAssoc(start, ops, BlockOps(2.0, c.name, g, name));
    ops := ops + BlockOps(2.0, c.name, g, name);

    if c.bodyStyle.NullStyle? {
      return false;
    }
    var bodyStyle := ResolveStyle(c.bodyStyle.spec, BodyDefaults);
    DrawBlock(doc, 1.2, c.body, g, bodyStyle, "Helvetica");
    AppendAssoc(start, ops, BlockOps(1.2, c.body, g, bodyStyle));
    ops := ops + BlockOps(1.2, c.body, g, bodyStyle);

    assert ops == TextBlockOps(c, g, ResolveBlocks(c)) by {
      assert ResolveBlocks(c) == BlockStyles(title, TitleLetterSpacing(ts), sub, name, bodyStyle);
    }
    drawn := true;
  }

  /** Background and card, the four blocks, then the two footers, on a
      fresh document; `drawn` is false when a `null` style stopped it, and
      the document then holds what was drawn before the throw. */
  method DrawCertificate(doc: PdfDocument, c: Certificate, g: Geometry) returns (drawn: bool)
    requires doc.log == []
    modifies doc`log, doc`font, doc`fontSize, doc`fillColor, doc`x
    ensures drawn <==> !HasNullStyle(c)
    ensures drawn ==> doc.log == CertificateOps(c, g, ResolveBlocks(c))
    ensures !drawn ==> doc.log == FrameOps(g) + OpsBeforeThrow(c, g)
    ensures drawn ==> doc.font == PoppinsRegular && doc.fontSize == FooterSize && doc.fillColor == FooterColor
                      && doc.x == g.dateLineX
  {
    DrawFrame(doc, g);
    assert doc.log == FrameOps(g);
    drawn := DrawBlocks(doc, c, g);
    if !drawn {
      return;
    }
    DrawFooter(doc, g, c.signatureLabel, g.sigLineX);
    DrawFooter(doc, g, c.dateLabel, g.dateLineX);
  }

  /** The `/api/generate-pdf` handler, step by step against a document
      object. A `null` style object makes the first read of one of its
      properties throw; the exception is answered with a 500. */
  method GeneratePdf(body: Option<RenderRequest>, shortSide: real, longSide: real, random: real)
    returns (resp: Response)
    requires 0.0 < shortSide < longSide
    requires 0.0 <= random < 1.0
    ensures resp == Respond(body, shortSide, longSide, RandomSuffix(random))
  {
    var c := Destructure(body);
    var page := PageFor(c.orientation, shortSide, longSide);
    var doc := new PdfDocument(page.width, page.height);
    var filename := Filename(RandomSuffix(random));
    var contentType, disposition := "application/pdf", Disposition(filename);
    var drawn := DrawCertificate(doc, c, GeometryOf(page));
    if !drawn {
      return ErrorResponse(500, "PDF generation failed");
    }
    resp := PdfResponse(contentType, disposition, page, doc.log);
  }

  // ----- what every response satisfies -----

  function TextOf(o: Op): seq<string> {
    if o.Text? then [o.content] else []
  }

  function AdvanceOf(o: Op): seq<real> {
    if o.MoveDown? then [o.lines] else []
  }

  /** The texts drawn, in order. */
  function TextContents(ops: seq<Op>): seq<string> {
    if ops == [] then [] else TextOf(ops[0]) + TextContents(ops[1..])
  }

  /** The cursor advances, in order. */
  function Advances(ops: seq<Op>): seq<real> {
    if ops == [] then [] else AdvanceOf(ops[0]) + Advances(ops[1..])
  }

  lemma {:induction false} TextsConcat(a: seq<Op>, b: seq<Op>)
    ensures TextContents(a + b) == TextContents(a) + TextContents(b)
  {
    if a == [] {
      assert a + b == b;
    } else {
      TextsConcat(a[1..], b);
      assert TextContents(a + b) == TextOf(a[0]) + TextContents(a[1..] + b) by {
        assert (a + b)[0] == a[0] && (a + b)[1..] == a[1..] + b;
      }
    }
  }

  lemma {:induction false} AdvancesConcat(a: seq<Op>, b: seq<Op>)
    ensures Advances(a + b) == Advances(a) + Advances(b)
  {
    if a == [] {
      assert a + b == b;
    } else {
      AdvancesConcat(a[1..], b);
      assert Advances(a + b) == AdvanceOf(a[0]) + Advances(a[1..] + b) by {
        assert (a + b)[0] == a[0] && (a + b)[1..] == a[1..] + b;
      }
    }
  }

  /** Texts and advances of a sequence of one to four operations. */
  lemma {:induction false} TextContentsShort(ops: seq<Op>)
    requires 1 <= |ops| <= 4
    ensures TextContents(ops) == TextOf(ops[0]) + TextContents(ops[1..])
    ensures Advances(ops) == AdvanceOf(ops[0]) + Advances(ops[1..])
    ensures |ops| == 1 ==> TextContents(ops) == TextOf(ops[0]) && Advances(ops) == AdvanceOf(ops[0])
  {
    if |ops| == 1 {
      assert ops[1..] == [];
    }
  }

  lemma FrameTexts(g: Geometry)
    ensures TextContents(FrameOps(g)) == [] && Advances(FrameOps(g)) == []
  {
    var f := FrameOps(g);
    TextContentsShort(f);
    TextContentsShort(f[1..]);
    TextContentsShort(f[1..][1..]);
    TextContentsShort(f[1..][1..][1..]);
  }

  lemma TitleTexts(o: Op)
    requires o.Text?
    ensures TextContents([o]) == [o.content] && Advances([o]) == []
  {
    TextContentsShort([o]);
  }

  lemma BlockTexts(lines: real, content: string, g: Geometry, r: ResolvedStyle)
    ensures TextContents(BlockOps(lines, content, g, r)) == [content]
    ensures Advances(BlockOps(lines, content, g, r)) == [lines]
  {
    var b := BlockOps(lines, content, g, r);
    TextContentsShort(b);
    TextContentsShort(b[1..]);
  }

  lemma FooterTexts(g: Geometry, caption: string, x: real)
    ensures TextContents(FooterOps(g, caption, x)) == [caption]
    ensures Advances(FooterOps(g, caption, x)) == []
  {
    var t := FooterOps(g, caption, x);
    TextContentsShort(t);
    TextContentsShort(t[1..]);
    TextContentsShort(t[1..][1..]);
    TextContentsShort(t[1..][1..][1..]);
  }

  /** The order of texts and advances in any certificate's operations. */
  lemma CertificateOrder(c: Certificate, g: Geometry, st: BlockStyles)
    ensures var ops := CertificateOps(c, g, st);
            && TextContents(ops) == [c.title, c.subtitle, c.name, c.body, c.signatureLabel, c.dateLabel]
            && Advances(ops) == [0.5, 2.0, 1.2]
  {
    CertificateTexts(c, g, st);
    CertificateAdvances(c, g, st);
  }

  lemma CertificateTexts(c: Certificate, g: Geometry, st: BlockStyles)
    ensures TextContents(CertificateOps(c, g, st)) == [c.title, c.subtitle, c.name, c.body, c.signatureLabel, c.dateLabel]
  {
    var f, tb := FrameOps(g), TextBlockOps(c, g, st);
    var s, d := FooterOps(g, c.signatureLabel, g.sigLineX), FooterOps(g, c.dateLabel, g.dateLineX);
    assert TextContents(f + tb) == [c.title, c.subtitle, c.name, c.body] by {
      FrameTexts(g);
      TextBlockTexts(c, g, st);
      TextsConcat(f, tb);
    }
    assert TextContents(f + tb + s) == [c.title, c.subtitle, c.name, c.body, c.signatureLabel] by {
      FooterTexts(g, c.signatureLabel, g.sigLineX);
      TextsConcat(f + tb, s);
    }
    FooterTexts(g, c.dateLabel, g.dateLineX);
    TextsConcat(f + tb + s, d);
  }

  lemma CertificateAdvances(c: Certificate, g: Geometry, st: BlockStyles)
    ensures Advances(CertificateOps(c, g, st)) == [0.5, 2.0, 1.2]
  {
    var f, tb := FrameOps(g), TextBlockOps(c, g, st);
    var s, d := FooterOps(g, c.signatureLabel, g.sigLineX), FooterOps(g, c.dateLabel, g.dateLineX);
    assert Advances(f + tb) == [0.5, 2.0, 1.2] by {
      FrameTexts(g);
      TextBlockTexts(c, g, st);
      AdvancesConcat(f, tb);
    }
    assert Advances(f + tb + s) == [0.5, 2.0, 1.2] by {
      FooterTexts(g, c.signatureLabel, g.sigLineX);
      AdvancesConcat(f + tb, s);
    }
    FooterTexts(g, c.dateLabel, g.dateLineX);
    AdvancesConcat(f + tb + s, d);
  }

  /** The texts and advances of the title and the three blocks. */
  lemma TextBlockTexts(c: Certificate, g: Geometry, st: BlockStyles)
    ensures TextContents(TextBlockOps(c, g, st)) == [c.title, c.subtitle, c.name, c.body]
    ensures Advances(TextBlockOps(c, g, st)) == [0.5, 2.0, 1.2]
  {
    var t := [TitleOp(c.title, g, st.title, st.spacing)];
    var b1, b2, b3 := BlockOps(0.5, c.subtitle, g, st.subtitle), BlockOps(2.0, c.name, g, st.name), BlockOps(1.2, c.body, g, st.body);
    assert TextContents(t + b1) == [c.title, c.subtitle] && Advances(t + b1) == [0.5] by {
      TitleTexts(t[0]);
      BlockTexts(0.5, c.subtitle, g, st.subtitle);
      TextsConcat(t, b1);
      AdvancesConcat(t, b1);
    }
    assert TextContents(t + b1 + b2) == [c.title, c.subtitle, c.name] && Advances(t + b1 + b2) == [0.5, 2.0] by {
      BlockTexts(2.0, c.name, g, st.name);
      TextsConcat(t + b1, b2);
      AdvancesConcat(t + b1, b2);
    }
    BlockTexts(1.2, c.body, g, st.body);
    TextsConcat(t + b1 + b2, b3);
    AdvancesConcat(t + b1 + b2, b3);
  }

  /** Where each operation of a certificate sits. */
  lemma CertificateLayout(c: Certificate, g: Geometry, st: BlockStyles)
    ensures var ops := CertificateOps(c, g, st);
            && |ops| == 19
            && ops[0] == FillRect(0.0, 0.0, g.page.width, g.page.height, BackgroundColor)
            && ops[2] == FillStrokeRoundedRect(g.card.x, g.card.y, g.card.w, g.card.h, CardRadius, CardFill, CardStroke)
            && ops[4] == TitleOp(c.title, g, st.title, st.spacing)
            && ops[6] == BlockText(c.subtitle, g, st.subtitle)
            && ops[8] == BlockText(c.name, g, st.name)
            && ops[10] == BlockText(c.body, g, st.body)
            && ops[14] == FooterText(g, c.signatureLabel, g.sigLineX)
            && ops[18] == FooterText(g, c.dateLabel, g.dateLineX)
            && ops[11..] == FooterOps(g, c.signatureLabel, g.sigLineX) + FooterOps(g, c.dateLabel, g.dateLineX)
  {
    var s, d := FooterOps(g, c.signatureLabel, g.sigLineX), FooterOps(g, c.dateLabel, g.dateLineX);
    var head := FrameOps(g) + [TitleOp(c.title, g, st.title, st.spacing)]
      + BlockOps(0.5, c.subtitle, g, st.subtitle) + BlockOps(2.0, c.name, g, st.name) + BlockOps(1.2, c.body, g, st.body);
    var ops := CertificateOps(c, g, st);
    assert ops == head + s + d;
    assert |head| == 11;
    assert ops[11..] == s + d;
  }

  /** A request is answered with an error exactly when one of its style
      objects is `null`; the error is a 500. */
  lemma ErrorOnlyForNullStyle(body: Option<RenderRequest>, shortSide: real, longSide: real, suffix: nat)
    requires 0.0 < shortSide < longSide && 100000 <= suffix <= 999999
    ensures var resp := Respond(body, shortSide, longSide, suffix);
            resp.ErrorResponse? <==>
              body.Some? && Some(NullStyle) in [body.value.titleStyle, body.value.subStyle, body.value.nameStyle, body.value.bodyStyle]
    ensures var resp := Respond(body, shortSide, longSide, suffix);
            resp.ErrorResponse? ==> resp.status == 500
  {
    NullStyleFromBody(body);
  }

  /** A destructured style is `null` exactly when the body gives `null`. */
  lemma NullStyleFromBody(body: Option<RenderRequest>)
    ensures HasNullStyle(Destructure(body)) <==>
              body.Some? && Some(NullStyle) in [body.value.titleStyle, body.value.subStyle, body.value.nameStyle, body.value.bodyStyle]
  {
  }

  /** The paint order: background over the whole page, card, then title,
      subtitle, name and body with advances of 0.5, 2 and 1.2 lines, then
      signature and date. */
  lemma DrawOrder(body: Option<RenderRequest>, shortSide: real, longSide: real, suffix: nat)
    requires 0.0 < shortSide < longSide && 100000 <= suffix <= 999999
    ensures var resp, c := Respond(body, shortSide, longSide, suffix), Destructure(body);
            resp.PdfResponse? ==>
              && |resp.ops| == 19
              && resp.ops[0] == FillRect(0.0, 0.0, resp.page.width, resp.page.height, BackgroundColor)
              && resp.ops[2].FillStrokeRoundedRect?
              && TextContents(resp.ops) == [c.title, c.subtitle, c.name, c.body, c.signatureLabel, c.dateLabel]
              && Advances(resp.ops) == [0.5, 2.0, 1.2]
  {
    var c := Destructure(body);
    if !HasNullStyle(c) {
      var g := GeometryOf(PageFor(c.orientation, shortSide, longSide));
      CertificateOrder(c, g, ResolveBlocks(c));
      CertificateLayout(c, g, ResolveBlocks(c));
    }
  }

  /** The four blocks are drawn in the content column, 60 inside the card
      on both sides; the title 40 below the card's top edge and the others
      flowing beneath it. */
  lemma BlocksInContentColumn(body: Option<RenderRequest>, shortSide: real, longSide: real, suffix: nat)
    requires 0.0 < shortSide < longSide && 100000 <= suffix <= 999999
    ensures var resp := Respond(body, shortSide, longSide, suffix);
            resp.PdfResponse? ==>
              var g := GeometryOf(resp.page);
              && resp.ops[4].Text? && resp.ops[4].top == At(g.card.y + TitleOffset)
              && (forall i :: i in {6, 8, 10} ==> resp.ops[i].Text? && resp.ops[i].top == Flow)
              && forall i :: i in {4, 6, 8, 10} ==>
                   resp.ops[i].Text? && resp.ops[i].x == g.card.x + ContentInset
                   && resp.ops[i].x + resp.ops[i].width == g.card.x + g.card.w - ContentInset
  {
    var c := Destructure(body);
    if !HasNullStyle(c) {
      var g := GeometryOf(PageFor(c.orientation, shortSide, longSide));
      var st := ResolveBlocks(c);
      CertificateLayout(c, g, st);
    }
  }

  /** The footers depend on the labels and the page only: two requests with
      the same labels and orientation get the same footers, in the fixed
      footer font, size and colour. */
  lemma FooterIgnoresStyles(b1: Option<RenderRequest>, b2: Option<RenderRequest>, shortSide: real, longSide: real, suffix: nat)
    requires 0.0 < shortSide < longSide && 100000 <= suffix <= 999999
    requires var c1, c2 := Destructure(b1), Destructure(b2);
             c1.signatureLabel == c2.signatureLabel && c1.dateLabel == c2.dateLabel && c1.orientation == c2.orientation
    ensures var r1, r2 := Respond(b1, shortSide, longSide, suffix), Respond(b2, shortSide, longSide, suffix);
            r1.PdfResponse? && r2.PdfResponse? ==> r1.ops[11..] == r2.ops[11..]
    ensures var r1 := Respond(b1, shortSide, longSide, suffix);
            r1.PdfResponse? ==>
              forall i :: i in {14, 18} ==>
                r1.ops[i].Text? && r1.ops[i].font == PoppinsRegular && r1.ops[i].size == FooterSize
                && r1.ops[i].color == FooterColor && r1.ops[i].align == "center" && r1.ops[i].width == FooterLineWidth
  {
    var c1, c2 := Destructure(b1), Destructure(b2);
    var g := GeometryOf(PageFor(c1.orientation, shortSide, longSide));
    if !HasNullStyle(c1) {
      CertificateLayout(c1, g, ResolveBlocks(c1));
    }
    if !HasNullStyle(c2) {
      CertificateLayout(c2, g, ResolveBlocks(c2));
    }
  }

  /** Every document is offered for download as `CertifyPro_dddddd.pdf`:
      any drawn suffix has exactly six digits. */
  lemma FilenameShape(suffix: nat)
    requires 100000 <= suffix <= 999999
    ensures IsCertificateFilename(Filename(suffix))
  {
    assert Pow10(5) == 100000 && Pow10(6) == 1000000;
    DecimalLength(suffix, 5);
    var f := Filename(suffix);
    assert f[11..17] == Decimal(suffix);
  }

  /** The four blocks, in their places, carry the requested texts in their
      resolved styles. */
  lemma BlocksAsResolved(body: Option<RenderRequest>, shortSide: real, longSide: real, suffix: nat)
    requires 0.0 < shortSide < longSide && 100000 <= suffix <= 999999
    ensures var resp, c := Respond(body, shortSide, longSide, suffix), Destructure(body);
            !HasNullStyle(c) ==>
              var g, st := GeometryOf(PageFor(c.orientation, shortSide, longSide)), ResolveBlocks(c);
              && resp.PdfResponse? && |resp.ops| == 19
              && resp.page == PageFor(c.orientation, shortSide, longSide)
              && resp.contentType == "application/pdf"
              && resp.disposition == Disposition(Filename(suffix))
              && resp.ops[4] == TitleOp(c.title, g, st.title, st.spacing)
              && resp.ops[6] == BlockText(c.subtitle, g, st.subtitle)
              && resp.ops[8] == BlockText(c.name, g, st.name)
              && resp.ops[10] == BlockText(c.body, g, st.body)
  {
    var c := Destructure(body);
    if !HasNullStyle(c) {
      var g := GeometryOf(PageFor(c.orientation, shortSide, longSide));
      CertificateLayout(c, g, ResolveBlocks(c));
    }
  }

  /** The empty request: a landscape page with every documented default
      text, the title in the medium weight at 24 with no letter spacing, and
      the other blocks in their default fonts, sizes and colours, all
      centred. */
  lemma DefaultRequest(shortSide: real, longSide: real, suffix: nat)
    requires 0.0 < shortSide < longSide && 100000 <= suffix <= 999999
    ensures var resp := Respond(None, shortSide, longSide, suffix);
            var g := GeometryOf(Page(longSide, shortSide));
            && resp.PdfResponse? && |resp.ops| == 19
            && resp.page == Page(longSide, shortSide)
            && resp.ops[4] == TitleOp("CERTIFICATE", g, ResolvedStyle(PoppinsMedium, 24.0, "#111827", "center"), 0.0)
            && resp.ops[6] == BlockText("of participation", g, ResolvedStyle(PoppinsRegular, 14.0, "#6b7280", "center"))
            && resp.ops[8] == BlockText("Name Surname", g, ResolvedStyle(TimesNew, 24.0, "#8b3b3b", "center"))
            && resp.ops[10] == BlockText(DefaultBody, g, ResolvedStyle(PoppinsRegular, 12.0, "#374151", "center"))
  {
    var c := Destructure(None);
    assert c == DefaultCertificate && !HasNullStyle(c) by {
      AllDefaults();
    }
    assert ResolveBlocks(c)
        == BlockStyles(ResolvedStyle(PoppinsMedium, 24.0, "#111827", "center"), 0.0,
                       ResolvedStyle(PoppinsRegular, 14.0, "#6b7280", "center"),
                       ResolvedStyle(TimesNew, 24.0, "#8b3b3b", "center"),
                       ResolvedStyle(PoppinsRegular, 12.0, "#374151", "center")) by {
      EmptyStyleGivesDefaults();
    }
    assert PageFor(c.orientation, shortSide, longSide) == Page(longSide, shortSide) by {
      assert c.orientation == "landscape" && !IsPortrait("landscape");
    }
    BlocksAsResolved(None, shortSide, longSide, suffix);
  }

  const JaneDoeRequest := RenderRequest(None, None, Some("Jane Doe"), None, None, None, None, None, None, None, None)

  /** The request `{ name: "Jane Doe" }`: a PDF whose title reads
      "CERTIFICATE" and whose name block reads "Jane Doe", offered as
      `CertifyPro_dddddd.pdf`. */
  lemma JaneDoe(shortSide: real, longSide: real, suffix: nat)
    requires 0.0 < shortSide < longSide && 100000 <= suffix <= 999999
    ensures var resp := Respond(Some(JaneDoeRequest), shortSide, longSide, suffix);
            && resp.PdfResponse? && |resp.ops| == 19
            && resp.contentType == "application/pdf"
            && resp.disposition == Disposition(Filename(suffix))
            && IsCertificateFilename(Filename(suffix))
            && resp.ops[4].Text? && resp.ops[4].content == "CERTIFICATE"
            && resp.ops[8].Text? && resp.ops[8].content == "Jane Doe"
  {
    var c := Destructure(Some(JaneDoeRequest));
    assert c.title == "CERTIFICATE" && c.name == "Jane Doe" && !HasNullStyle(c);
    BlocksAsResolved(Some(JaneDoeRequest), shortSide, longSide, suffix);
    FilenameShape(suffix);
  }
}
