# CertifyPro certificate renderer, in Dafny

CertifyPro's backend answers `POST /api/generate-pdf` with an A4
certificate. The handler in `backend/server.js` does the following:

- It destructures the JSON body, filling in defaults for missing fields.
- It picks portrait or landscape.
- It paints a mint background and a white rounded card inset 32 from the page.
- It draws four text blocks down a content column inset a further 60 from the
  card: title, subtitle, name and body.
- It draws two footer rules with their captions: signature and date.
- It offers the document for download as `CertifyPro_dddddd.pdf`.

Each block's style comes from an optional style object. Its font comes from
the CSS family name through a substring rule table (`mapCssToFont`). For the
title, the default font is chosen by font weight (`pickPoppinsByWeight`).
Size, colour and alignment fall back with JavaScript `||`.

This project models that handler and proves properties of the model.

| file | module | what it holds |
|---|---|---|
| `js_values.dfy` | `JsValues` | The JavaScript value semantics the handler relies on: `undefined` as `None`, the `or` operator on strings and on `Number(...)` results, ASCII `toLowerCase`, `includes`/`startsWith`, `parseInt(s, 10)` and decimal printing |
| `fonts.dfy` | `Fonts` | `mapCssToFont` and `pickPoppinsByWeight`, the rule table as an independent reference, and the rule-by-rule and weight lemmas |
| `request.dfy` | `Request` | The render request, its destructuring defaults, and per-block style resolution |
| `layout.dfy` | `Layout` | Page size from the orientation; card, content column and footer geometry |
| `pdf_document.dfy` | `Pdf` | The drawing surface as a class: current font, size, fill colour and text x position, plus a log of paint operations |
| `server.dfy` | `Server` | The handler as a method driving a `PdfDocument`, proved equal to a functional specification (`Respond`), and the lemmas about every response |

The handler's page is A4, but pdfkit supplies its size in points, so the
two side lengths are parameters with `shortSide < longSide`.

`Math.random()` is left out of the functional model. `GeneratePdf` takes the
drawn value as a parameter and turns it into the six-digit suffix
(`RandomSuffix`). `Respond` and the lemmas about it take that suffix directly.

Line heights and the y position of flowing text depend on font metrics.
They stay abstract: a flowing text is recorded as placed below the cursor
(`Flow`), and `moveDown(n)` is recorded as `MoveDown(n)`.

## Model

| member | source | states |
|---|---|---|
| `JsValues.StringOr` | backend/server.js:190-237 | JavaScript `or` on a string: the result is the fallback or the given string, and never empty when the fallback is not |
| `JsValues.NumberOr` | backend/server.js:192-235 | JavaScript `or` on `Number(...)`: the result is the fallback or the given number, and never zero when the fallback is not |
| `JsValues.ToLower` | backend/server.js:51 | The lower-cased family has the same length, and each character is the ASCII lower case of the original one |
| `JsValues.ToLowerSlice` | backend/server.js:51 | Lower-casing commutes with taking a slice, so a substring spelled in any case is found in the lower-cased text |
| `JsValues.ToLowerIdempotent` | backend/server.js:51 | Lower-casing an already lower-cased family changes nothing |
| `JsValues.StartsWith` | backend/server.js:55 | `startsWith` holds exactly when the prefix occurs at position 0 |
| `JsValues.Includes` | backend/server.js:53-59 | `includes` holds only for a needle no longer than the text, and whenever the text starts with it |
| `JsValues.IncludesIff` | backend/server.js:53-59 | `includes` holds exactly when the needle occurs at some position, in both directions |
| `JsValues.TrimStart` | backend/server.js:66 | `parseInt` drops a leading run of ECMAScript whitespace; what remains is a suffix of the text that does not start with whitespace |
| `JsValues.LeadingDigits` | backend/server.js:66 | The digit run `parseInt` reads is a prefix of all digits, followed by a non-digit or the end |
| `JsValues.Decimal` | backend/server.js:152 | The printed suffix is a non-empty run of digits with no leading zero |
| `JsValues.DecimalValue` | backend/server.js:152 | Reading the printed number back gives the number |
| `JsValues.DecimalLength` | backend/server.js:151-152 | A number between 10^k and 10^(k+1) prints with k + 1 digits |
| `JsValues.ParseSigned` | backend/server.js:66 | After the whitespace: empty text is NaN, a leading digit gives a non-negative number, and a negative result needs a leading minus sign |
| `JsValues.ParseInt` | backend/server.js:66 | The empty text is NaN, a text starting with a digit reads as a non-negative number, and a negative result comes only from a minus sign after the leading whitespace |
| `JsValues.ParseIntDecimal` | backend/server.js:66 | `parseInt` of a printed number followed by any non-digit text ("500px", "500.7") is that number |
| `JsValues.ParseIntAfterMinus` | backend/server.js:66 | After a leading minus sign, `parseInt` negates the digit run that follows |
| `JsValues.ParseIntSkipsWhitespace` | backend/server.js:66 | Leading whitespace does not change what `parseInt` reads |
| `JsValues.ParseIntNaN` | backend/server.js:66 | A text that starts with neither whitespace, a sign nor a digit is NaN, and so is the empty text |
| `Fonts.MapCssToFont` | backend/server.js:49-62 | An absent or empty family keeps the default. The result is always the default or one of AlexBrush, PoppinsRegular and TimesNew. A non-empty default never gives an empty font |
| `Fonts.MapCssToFontFollowsTable` | backend/server.js:49-62 | The resolver equals an independent first-match evaluation of the rule table alex → poppins → times/georgia over the lower-cased family |
| `Fonts.AlexInAnyCase` | backend/server.js:51-53 | A family spelling "alex" in any case at any position yields AlexBrush, whatever else it contains |
| `Fonts.PoppinsRule` | backend/server.js:54-57 | "poppins" without "alex" keeps a default that starts with "Poppins" and otherwise gives PoppinsRegular |
| `Fonts.SerifRule` | backend/server.js:58-59 | "times" or "georgia", without "alex" or "poppins", yields TimesNew |
| `Fonts.NoRuleKeepsDefault` | backend/server.js:61 | A non-empty family that matches no needle keeps the default |
| `Fonts.CaseInsensitive` | backend/server.js:51 | Two families that agree up to ASCII case resolve to the same font |
| `Fonts.PoppinsDefaultKept` | backend/server.js:54-57 | A Poppins family keeps either Poppins weight given as the default |
| `Fonts.TitlePoppinsKeepsWeight` | backend/server.js:188-191 | A Poppins family on the title keeps the font its weight selected |
| `Fonts.PickPoppinsByWeight` | backend/server.js:65-69 | The result is PoppinsRegular or PoppinsMedium |
| `Fonts.WeightThreshold` | backend/server.js:65-69 | For every n, a weight written as n (plus any non-digit suffix) gives Medium exactly when n ≥ 500 |
| `Fonts.ThreeDigitWeight` | backend/server.js:65-69 | A three-digit weight gives Medium exactly when its value is ≥ 500 |
| `Fonts.WeightBoundary` | backend/server.js:67 | "499" gives Regular and "500" gives Medium |
| `Fonts.NegativeWeightIsRegular` | backend/server.js:66-68 | A weight that starts with a minus sign never gives Medium |
| `Fonts.MissingWeightIsRegular` | backend/server.js:66 | A missing or empty weight reads as "400" and gives Regular |
| `Fonts.UnparsedWeightIsRegular` | backend/server.js:66-68 | A weight that `parseInt` reads as NaN gives Regular |
| `Request.AllDefaults` | backend/server.js:103-118 | A missing body and an empty body both destructure to the documented defaults: "CERTIFICATE", "of participation", "Name Surname", the body sentence, "Signature", "Date", "landscape", and empty style objects |
| `Request.Destructure` | backend/server.js:103-118 | A missing body gives every default. A destructured style is `null` only when the body gives `null`, since the default is an empty object |
| `Request.GivenFieldsKept` | backend/server.js:103-118 | For any body: every field present, whatever its value, is taken as given, and every missing field takes its literal default |
| `Request.EmptyTextIsKept` | backend/server.js:104 | An empty title stays empty: destructuring defaults apply only to missing fields |
| `Request.TitleDefaults` | backend/server.js:188-193 | The title falls back to 24 and #111827. A missing or empty weight gives PoppinsMedium, through the "500" default; any other weight gives the font `pickPoppinsByWeight` picks for it |
| `Request.TitleLetterSpacing` | backend/server.js:194 | The spacing is the given number (a given 0 is 0 too), and 0 when it is NaN |
| `Request.ResolveStyle` | backend/server.js:192-195 | Resolved font, colour and alignment are non-empty and the size is non-zero. Each of size, colour and alignment is either the block default or the given value |
| `Request.SizeFallback` | backend/server.js:192-235 | A NaN or zero size gives the block default. Any other number, negative ones included, is used as given |
| `Request.ColorAndAlignFallback` | backend/server.js:193-237 | An absent or empty colour or alignment falls back to the block colour and to "center". A non-empty one is used as given |
| `Request.EmptyStyleGivesDefaults` | backend/server.js:188-237 | With an empty style the title is PoppinsMedium 24 #111827 with spacing 0, the subtitle PoppinsRegular 14 #6b7280, the name TimesNew 24 #8b3b3b and the body PoppinsRegular 12 #374151, all centred |
| `Layout.PageFor` | backend/server.js:122 | The page is taller than wide exactly when the orientation is the string "portrait", and it keeps the two A4 sides |
| `Layout.GeometryOf` | backend/server.js:170-253 | The card is inset 32 on every side and the content column 60 inside both card edges. The footers sit 90 above the card bottom. The rules are 120 apart and mirror each other about the page centre |
| `Layout.OrientationSwapsCard` | backend/server.js:122-176 | The landscape card is the portrait card with width and height exchanged |
| `Layout.FootersInsideCard` | backend/server.js:247-253 | On a page at least 584 wide, both footer rules lie within the card |
| `Pdf.PdfDocument.constructor` | backend/server.js:120-124 | A new document has the page's size, an empty log, Helvetica 12 in black, and zero margins, so flowing text starts at x = 0 |
| `Pdf.PdfDocument.FillRectangle` | backend/server.js:167 | A filled rectangle is appended to the log, and the fill colour becomes its colour |
| `Pdf.PdfDocument.FillAndStrokeRoundedRect` | backend/server.js:178-182 | A filled and stroked rounded rectangle is appended to the log, and the fill colour becomes its fill |
| `Pdf.PdfDocument.SaveState` | backend/server.js:179 | A save of the graphics state is appended to the log |
| `Pdf.PdfDocument.RestoreState` | backend/server.js:182 | A restore of the graphics state is appended to the log |
| `Pdf.PdfDocument.SetFont` | backend/server.js:198 | The current font becomes the given name; the log is unchanged |
| `Pdf.PdfDocument.SetFontSize` | backend/server.js:199 | The current size becomes the given size; the log is unchanged |
| `Pdf.PdfDocument.SetFillColor` | backend/server.js:200 | The current fill colour becomes the given colour; the log is unchanged |
| `Pdf.PdfDocument.Advance` | backend/server.js:214 | A cursor advance of the given number of lines is appended to the log |
| `Pdf.PdfDocument.TextAt` | backend/server.js:197-205 | Text drawn at an absolute position is logged with the current font, size and colour, and its x becomes the x of later flowing text |
| `Pdf.PdfDocument.TextFlow` | backend/server.js:213-218 | Flowing text is logged below the cursor at the current x with the current font, size and colour |
| `Server.RandomSuffix` | backend/server.js:151 | For a random value in [0, 1), the suffix lies in 100000..999999 |
| `Server.Filename` | backend/server.js:152 | The name is `CertifyPro_`, then the decimal suffix, then `.pdf`, and the suffix can be read back from between them |
| `Server.Disposition` | backend/server.js:155-158 | The header is `attachment; filename=` followed by the file name in double quotes, from which the name can be read back |
| `Server.FilenameShape` | backend/server.js:151-152 | Every download name is `CertifyPro_` followed by exactly six digits and `.pdf` |
| `Server.ApplyStyle` | backend/server.js:197-243 | The "Helvetica" and "Times-Roman" fallbacks are never taken: the document gets the resolved font, size and colour |
| `Server.DrawFrame` | backend/server.js:165-182 | The background fills the whole page, then the card is drawn inside save/restore; the fill colour is left at the card's white |
| `Server.DrawTitle` | backend/server.js:197-205 | The title is drawn 40 below the card top in the content column with its letter spacing, which leaves the text x at the column and the document in the title's font, size and colour |
| `Server.DrawBlock` | backend/server.js:213-244 | A block is a cursor advance followed by flowing text in the content column; the document is left in the block's font, size and colour |
| `Server.DrawFooter` | backend/server.js:255-275 | A footer is a 200 × 1 rule in #4b5563 inside save/restore, then its caption 6 below in PoppinsRegular 9 #6b7280, centred over the rule; the document is left in that footer style with the text x at the rule |
| `Server.DrawBlocks` | backend/server.js:187-244 | `drawn` is false exactly when a style is `null`. Then the log gains exactly the blocks before the first `null` style (`OpsBeforeThrow`); otherwise it gains all four blocks, and the document is left in the body style with the text x at the content column |
| `Server.DrawCertificate` | backend/server.js:165-275 | On a fresh document, the whole certificate is drawn exactly as `CertificateOps` lists it, leaving the footer style set and x at the date rule. With a `null` style, the log holds the frame and the blocks before that style |
| `Server.Respond` | backend/server.js:101-286 | The response is an error exactly when a style is `null`, and then it is a 500 with "PDF generation failed". Otherwise it is `application/pdf` on the oriented page with 19 operations |
| `Server.GeneratePdf` | backend/server.js:101-286 | The handler, run step by step against a document, gives exactly the response `Respond` specifies: the PDF with its operations, or the 500 error when a style object is `null` |
| `Server.CertificateOrder` | backend/server.js:197-275 | Any certificate's texts are title, subtitle, name, body, signature and date in that order, with advances 0.5, 2 and 1.2 |
| `Server.CertificateTexts` | backend/server.js:197-275 | The texts of any certificate, in drawing order |
| `Server.CertificateAdvances` | backend/server.js:213-244 | The cursor advances of any certificate, in drawing order |
| `Server.TextBlockTexts` | backend/server.js:197-244 | The title and the three blocks give the texts title, subtitle, name and body, with advances 0.5, 2 and 1.2 |
| `Server.CertificateLayout` | backend/server.js:165-275 | The 19 operations have the background first, the card third, and the title and blocks at 4, 6, 8 and 10; the two footers close the sequence |
| `Server.ErrorOnlyForNullStyle` | backend/server.js:188-285 | A request gets an error exactly when one of its four style fields is `null`, and that error is a 500 |
| `Server.NullStyleFromBody` | backend/server.js:114-118 | The destructured certificate has a `null` style exactly when the body gives one |
| `Server.DrawOrder` | backend/server.js:165-275 | Every PDF response paints the background over the whole page, then the card, then draws title, subtitle, name, body, signature and date with advances 0.5, 2 and 1.2 |
| `Server.BlocksInContentColumn` | backend/server.js:184-244 | The title is at card top + 40. The other blocks flow. All four span the content column, 60 inside both card edges |
| `Server.FooterIgnoresStyles` | backend/server.js:247-275 | Two requests with the same labels and orientation get identical footers, and the footer captions always use PoppinsRegular 9 #6b7280, centred and 200 wide |
| `Server.BlocksAsResolved` | backend/server.js:151-244 | A request without `null` styles is answered as `application/pdf` with the attachment name. Its four blocks carry the requested texts in their resolved styles |
| `Server.DefaultRequest` | backend/server.js:103-244 | The empty request gives a landscape page whose blocks read "CERTIFICATE", "of participation", "Name Surname" and the body sentence, in the default fonts, sizes and colours |
| `Server.JaneDoe` | backend/server.js:101-286 | The request `{ name: "Jane Doe" }` gives a PDF named `CertifyPro_dddddd.pdf` whose title reads "CERTIFICATE" and whose name block reads "Jane Doe" |

## Behaviour worth noting

- The download name's prefix is `CertifyPro_` (`Server.FilenameShape`).
- The `"Helvetica"` and `"Times-Roman"` fallbacks of lines 198, 215, 228 and 241 never take effect, because the resolved font name is never empty (`Server.ApplyStyle`). A missing font file therefore does not lead to a built-in font at this point. What pdfkit does with an unregistered font name is outside this model.
- The handler answers 500 only when drawing throws. Within this model, that happens exactly when a style field is `null` (`Server.ErrorOnlyForNullStyle`): reading `fontFamily` of `null` throws a TypeError. A malformed JSON body never reaches the handler: the Express body parser rejects it first.

## Left out

- HTTP plumbing:
  - Express routing;
  - the health and debug routes;
  - CORS and `backend/config.js`;
  - the `res.on("close")` teardown and `app.listen`.
- Font registration through `fs.existsSync` and `doc.registerFont` is file-system I/O. The model assumes the four fonts are registered under their names.
- pdfkit internals are a foreign library, so only the abstract paint log is modelled:
  - text shaping and line heights;
  - the y position of flowing text (`Flow` and `MoveDown` record it abstractly);
  - PDF bytes and streaming.
- Page breaks: the margins are 0, so pdfkit starts a new page whenever the next line of a flowing text would pass the page bottom. A long body or a large `fontSize` therefore yields more than one page, and the later blocks and both footers land on a page without background or card. `Respond` has a single page and no page-break operation, so the log does not record that break or which page later operations go to.
- `Math.random()` is an input of `GeneratePdf`. `Respond` takes the six-digit suffix it yields.
- `Server.ErrorOnlyForNullStyle` models the error response as status 500 and the message "PDF generation failed". It leaves out three things:
  - the `details` string, which is the text of the exception;
  - the `res.headersSent` test;
  - the headers already set before the throw. Express keeps a Content-Type that is already set, so the JSON error carries the `application/pdf` Content-Type and attachment header set at lines 154-158.

  The background and card operations drawn before the throw are not part of the error response.
- Request fields are modelled as strings (or absent), and style objects as objects or `null`. Other JSON types are left out:
  - numbers in text fields;
  - a JSON `null` in a text field, which the destructuring default (it applies only to `undefined`) keeps as `null` and pdfkit draws as empty text;
  - a non-string `fontFamily` passed through `String(...)`;
  - a numeric `fontWeight`;
  - a style given as a string or number, which behaves like an empty style object.
- `Number(...)` is abstract: a size or letter spacing is given as the number it converts to, or NaN (`None`). The string-to-number grammar, `Infinity` and floating-point rounding are left out, and coordinates are exact reals.
- `toLowerCase` is modelled on ASCII letters only. The rule needles are ASCII. A non-ASCII letter whose Unicode lower case differs is left as it is.
- `parseInt` is modelled for radix 10 on strings. A minus sign before zero gives 0 rather than -0, which does not affect the ≥ 500 test.
- `public/script.js` is the browser editor. Its payload defaults differ from the server's in places, and the server's defaults are what this model states.
