/** Page geometry of the certificate: page size from the orientation, the
    card inset from the page, the content column inset from the card, and
    the two footer rules placed symmetrically about the page centre. */
module Layout {

  datatype Page = Page(width: real, height: real)

  datatype Box = Box(x: real, y: real, w: real, h: real)

  const CardMargin := 32.0
  const CardRadius := 16.0
  const ContentInset := 60.0
  const TitleOffset := 40.0
  const FooterRise := 90.0
  const FooterLineWidth := 200.0
  const FooterGap := 120.0
  const FooterLabelOffset := 6.0

  /** Only the exact string "portrait" selects the portrait layout. */
  predicate IsPortrait(orientation: string) {
    orientation == "portrait"
  }

  /** An A4 page whose short and long sides are given: portrait keeps
      them, landscape swaps them. */
  function PageFor(orientation: string, shortSide: real, longSide: real): (p: Page)
    requires 0.0 < shortSide < longSide
    ensures IsPortrait(orientation) <==> p.width < p.height
    ensures {p.width, p.height} == {shortSide, longSide}
  {
    if IsPortrait(orientation) then Page(shortSide, longSide) else Page(longSide, shortSide)
  }

  /** The positions the handler computes from the page size. */
  datatype Geometry = Geometry(
    page: Page,
    card: Box,
    contentX: real,
    contentW: real,
    footerY: real,
    sigLineX: real,
    dateLineX: real)

  function GeometryOf(page: Page): (g: Geometry)
    ensures g.page == page
    // the card is the page inset by 32 on every side
    ensures g.card.x == CardMargin && g.card.y == CardMargin
    ensures page.width - (g.card.x + g.card.w) == CardMargin
    ensures page.height - (g.card.y + g.card.h) == CardMargin
    // the content column is inset by 60 on both sides of the card
    ensures g.contentX - g.card.x == ContentInset
    ensures (g.card.x + g.card.w) - (g.contentX + g.contentW) == ContentInset
    // the footers sit 90 above the card's bottom edge
    ensures g.footerY == g.card.y + g.card.h - FooterRise
    // the two rules are 120 apart and mirror each other about the centre
    ensures g.dateLineX - (g.sigLineX + FooterLineWidth) == FooterGap
    ensures page.width / 2.0 - (g.sigLineX + FooterLineWidth) == g.dateLineX - page.width / 2.0
    ensures g.sigLineX - 0.0 == page.width - (g.dateLineX + FooterLineWidth)
  {
    var cardW := page.width - CardMargin * 2.0;
    var cardH := page.height - CardMargin * 2.0;
    var card := Box(CardMargin, CardMargin, cardW, cardH);
    var centerX := page.width / 2.0;
    Geometry(
      page,
      card,
      card.x + ContentInset,
      cardW - 2.0 * ContentInset,
      card.y + cardH - FooterRise,
      centerX - FooterLineWidth - FooterGap / 2.0,
      centerX + FooterGap / 2.0)
  }

  /** Orientation only swaps the page sides: the card of a landscape page
      is the portrait card with width and height exchanged. */
  lemma OrientationSwapsCard(shortSide: real, longSide: real)
    requires 0.0 < shortSide < longSide
    ensures var p, l := GeometryOf(PageFor("portrait", shortSide, longSide)), GeometryOf(PageFor("landscape", shortSide, longSide));
            p.card.w == l.card.h && p.card.h == l.card.w
  {
  }

  /** On a page at least 584 wide (A4 portrait is about 595), both footer
      rules lie inside the card. */
  lemma FootersInsideCard(page: Page)
    requires page.width >= 584.0
    ensures var g := GeometryOf(page);
            g.card.x <= g.sigLineX && g.dateLineX + FooterLineWidth <= g.card.x + g.card.w
  {
  }
}
