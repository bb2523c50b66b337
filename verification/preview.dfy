/** The live preview's style resolution. Unlike the exporter it takes the
    current tier: eleven banner and info-box properties show the stored
    value (with its unit) only when the tier unlocks them and a fixed
    beginner baseline otherwise, while colours, alignment, the font family,
    the heading size and the letter spacing always show the stored value.
    The image slots follow the same `parseInt(imageCount)` thresholds as the
    exporter. */
module Preview {
  import opened Site
  import opened Difficulty
  import opened Images
  import opened Export
  import opened Text

  /** The resolved inline styles and displayed headings of the preview, and
      the images it lays out. */
  datatype Styles = Styles(
    navBackground: string,
    navHeading: string,
    bannerBackground: string,
    bannerColor: string,
    bannerTextAlign: string,
    bannerHeight: string,
    bannerMarginBottom: string,
    fontFamily: string,
    headingFontSize: string,
    headingLetterSpacing: string,
    bannerHeading: string,
    infoBorderRadius: string,
    infoPadding: string,
    infoBorderStyle: string,
    infoBorderWidth: string,
    infoBorderColor: string,
    infoMaxWidth: string,
    infoBoxShadow: string,
    infoFontWeight: string,
    infoTransform: string,
    images: seq<string>,
    imageGrid: bool
  )

  /** JavaScript `text || fallback` on strings: the empty string is falsy. */
  function OrElse(text: string, fallback: string): (r: string)
    ensures text == "" ==> r == fallback
    ensures text != "" ==> r == text
    ensures |fallback| > 0 ==> |r| > 0
  {
    if text == "" then fallback else text
  }

  /** The preview for configuration `c` seen at tier `t`. Both headings
      show some text; at most three images are laid out, the first from
      `imageSrc`, and the grid is used exactly when there are several. */
  function Render(c: SiteData, t: Tier): (r: Styles)
    ensures r.navHeading != "" && r.bannerHeading != ""
    ensures |r.images| <= 3
    ensures |r.images| > 0 ==> r.images[0] == c.imageSrc
    ensures r.imageGrid <==> |r.images| > 1
  {
    var advanced := ShowField(t, Advanced);
    var intermediate := ShowField(t, Intermediate);
    var shown := c.showImage == "yes";
    Styles(
      navBackground := c.navColor,
      navHeading := OrElse(c.navTitle, "Untitled Site"),
      bannerBackground := c.bannerBgColor,
      bannerColor := c.bannerTextColor,
      bannerTextAlign := c.bannerTextAlign,
      bannerHeight := if advanced then Px(c.bannerHeight) else "auto",
      bannerMarginBottom := if advanced then Px(c.bannerMarginBottom) else "0px",
      fontFamily := c.fontFamily,
      headingFontSize := Px(c.bannerFontSize),
      headingLetterSpacing := Px(c.bannerLetterSpacing),
      bannerHeading := OrElse(c.bannerTitle, "Headline"),
      infoBorderRadius := if intermediate then Px(c.infoBorderRadius) else "0px",
      infoPadding := if advanced then Px(c.infoPadding) else "20px",
      infoBorderStyle := if intermediate then c.infoBorderStyle else "solid",
      infoBorderWidth := if intermediate then Px(c.infoBorderWidth) else "1px",
      infoBorderColor := if intermediate then c.infoBorderColor else "#ddd",
      infoMaxWidth := if advanced then Px(c.infoWidth) else "600px",
      infoBoxShadow := if advanced then c.infoShadow else "none",
      infoFontWeight := if intermediate then c.infoFontWeight else "normal",
      infoTransform := if advanced then Rotate(c.infoRotation) else "none",
      images := if shown then Sources(c) else [],
      imageGrid := shown && IsGallery(c)
    )
  }

  // ---------------------------------------------------------------------
  // The gating table

  /** The preview properties that depend on the tier. */
  datatype Gated =
    | Height | MarginBottom | Radius | Padding | BorderStyle | BorderWidth
    | BorderColor | MaxWidth | Shadow | Weight | Transform

  /** The tier that unlocks each gated property. */
  function Required(g: Gated): Tier {
    match g
    case Height => Advanced
    case MarginBottom => Advanced
    case Radius => Intermediate
    case Padding => Advanced
    case BorderStyle => Intermediate
    case BorderWidth => Intermediate
    case BorderColor => Intermediate
    case MaxWidth => Advanced
    case Shadow => Advanced
    case Weight => Intermediate
    case Transform => Advanced
  }

  /** What a beginner's unstyled box shows while the property is locked. */
  function Baseline(g: Gated): string {
    match g
    case Height => "auto"
    case MarginBottom => "0px"
    case Radius => "0px"
    case Padding => "20px"
    case BorderStyle => "solid"
    case BorderWidth => "1px"
    case BorderColor => "#ddd"
    case MaxWidth => "600px"
    case Shadow => "none"
    case Weight => "normal"
    case Transform => "none"
  }

  /** The stored field behind each property, with the unit it is shown in. */
  function Stored(c: SiteData, g: Gated): string {
    match g
    case Height => Px(c.bannerHeight)
    case MarginBottom => Px(c.bannerMarginBottom)
    case Radius => Px(c.infoBorderRadius)
    case Padding => Px(c.infoPadding)
    case BorderStyle => c.infoBorderStyle
    case BorderWidth => Px(c.infoBorderWidth)
    case BorderColor => c.infoBorderColor
    case MaxWidth => Px(c.infoWidth)
    case Shadow => c.infoShadow
    case Weight => c.infoFontWeight
    case Transform => Rotate(c.infoRotation)
  }

  /** The value the preview resolved for a gated property. */
  function Shown(s: Styles, g: Gated): string {
    match g
    case Height => s.bannerHeight
    case MarginBottom => s.bannerMarginBottom
    case Radius => s.infoBorderRadius
    case Padding => s.infoPadding
    case BorderStyle => s.infoBorderStyle
    case BorderWidth => s.infoBorderWidth
    case BorderColor => s.infoBorderColor
    case MaxWidth => s.infoMaxWidth
    case Shadow => s.infoBoxShadow
    case Weight => s.infoFontWeight
    case Transform => s.infoTransform
  }

  /** The preview follows the table: the stored value when the tier unlocks
      the property, its baseline otherwise. */
  lemma PreviewPolicy(c: SiteData, t: Tier, g: Gated)
    ensures Shown(Render(c, t), g) ==
      if ShowField(t, Required(g)) then Stored(c, g) else Baseline(g)
  {
    match g
    case Height =>
    case MarginBottom =>
    case Radius =>
    case Padding =>
    case BorderStyle =>
    case BorderWidth =>
    case BorderColor =>
    case MaxWidth =>
    case Shadow =>
    case Weight =>
    case Transform =>
  }

  /** At the basic tier every gated property shows its baseline, whatever
      is stored. */
  lemma BasicShowsBaselines(c: SiteData, g: Gated)
    ensures Shown(Render(c, Basic), g) == Baseline(g)
  {
    PreviewPolicy(c, Basic, g);
  }

  /** At the advanced tier every gated property shows the stored value. */
  lemma AdvancedShowsStored(c: SiteData, g: Gated)
    ensures Shown(Render(c, Advanced), g) == Stored(c, g)
  {
    PreviewPolicy(c, Advanced, g);
  }

  /** Raising the tier never hides a stored value that was shown. */
  lemma PreviewMonotone(c: SiteData, t1: Tier, t2: Tier, g: Gated)
    requires Rank(t1) <= Rank(t2)
    requires ShowField(t1, Required(g))
    ensures Shown(Render(c, t2), g) == Stored(c, g)
  {
    ShowFieldMonotone(t1, t2, Required(g));
    PreviewPolicy(c, t2, g);
  }

  /** The font family, alignment, heading size and letter spacing are never
      gated: every tier shows the stored values. */
  lemma UngatedAtEveryTier(c: SiteData, t: Tier)
    ensures Render(c, t).fontFamily == c.fontFamily
    ensures Render(c, t).bannerTextAlign == c.bannerTextAlign
    ensures Render(c, t).headingFontSize == c.bannerFontSize + "px"
    ensures Render(c, t).headingLetterSpacing == c.bannerLetterSpacing + "px"
  {
  }

  /** Only the gated properties depend on the tier. */
  lemma TierChangesOnlyGated(c: SiteData, t1: Tier, t2: Tier)
    ensures Render(c, t1).(
        bannerHeight := "", bannerMarginBottom := "", infoBorderRadius := "",
        infoPadding := "", infoBorderStyle := "", infoBorderWidth := "",
        infoBorderColor := "", infoMaxWidth := "", infoBoxShadow := "",
        infoFontWeight := "", infoTransform := "")
      == Render(c, t2).(
        bannerHeight := "", bannerMarginBottom := "", infoBorderRadius := "",
        infoPadding := "", infoBorderStyle := "", infoBorderWidth := "",
        infoBorderColor := "", infoMaxWidth := "", infoBoxShadow := "",
        infoFontWeight := "", infoTransform := "")
  {
  }

  /** Empty titles are replaced by a placeholder heading; others are shown
      as typed. */
  lemma HeadingsNeverEmpty(c: SiteData, t: Tier)
    ensures |Render(c, t).navHeading| > 0 && |Render(c, t).bannerHeading| > 0
    ensures c.navTitle != "" ==> Render(c, t).navHeading == c.navTitle
    ensures c.bannerTitle != "" ==> Render(c, t).bannerHeading == c.bannerTitle
    ensures c.navTitle == "" ==> Render(c, t).navHeading == "Untitled Site"
    ensures c.bannerTitle == "" ==> Render(c, t).bannerHeading == "Headline"
  {
  }

  // ---------------------------------------------------------------------
  // Agreement with the exported document

  /** The preview lays out the same images as the exported fragment, in the
      same order, in the grid exactly when the export wraps them in the
      gallery container; with `showImage` other than "yes" neither shows
      any. */
  lemma PreviewImagesMatchExport(c: SiteData, t: Tier)
    ensures var s := Render(c, t);
      c.showImage == "yes" ==>
        RenderImages(c) ==
          if s.imageGrid then GalleryOpen + Tags(s.images) + GalleryClose else Tags(s.images)
    ensures c.showImage == "yes" ==> |Render(c, t).images| == SlotCount(RequestedCount(c))
    ensures c.showImage != "yes" ==> Render(c, t).images == [] && !Render(c, t).imageGrid
    ensures c.showImage != "yes" ==> InfoBoxElement(c) == InfoBoxHead(c) + "</div>"
  {
    RenderImagesShape(c);
  }

  /** The declaration the exporter writes for a gated property, built from
      the preview's values; the three border parts share one shorthand. */
  function ExportedAs(g: Gated, s: Styles): Declaration {
    match g
    case Height => Declaration("height", s.bannerHeight)
    case MarginBottom => Declaration("margin-bottom", s.bannerMarginBottom)
    case Radius => Declaration("border-radius", s.infoBorderRadius)
    case Padding => Declaration("padding", s.infoPadding)
    case BorderStyle => Declaration("border", s.infoBorderWidth + " " + s.infoBorderStyle + " " + s.infoBorderColor)
    case BorderWidth => Declaration("border", s.infoBorderWidth + " " + s.infoBorderStyle + " " + s.infoBorderColor)
    case BorderColor => Declaration("border", s.infoBorderWidth + " " + s.infoBorderStyle + " " + s.infoBorderColor)
    case MaxWidth => Declaration("max-width", s.infoMaxWidth)
    case Shadow => Declaration("box-shadow", s.infoBoxShadow)
    case Weight => Declaration("font-weight", s.infoFontWeight)
    case Transform => Declaration("transform", s.infoTransform)
  }

  /** The rule of the style sheet that carries a gated property. */
  lemma ExportedAsInRule(c: SiteData, g: Gated)
    ensures g in {Height, MarginBottom} ==> ExportedAs(g, Render(c, Advanced)) in BannerRule(c).declarations
    ensures g !in {Height, MarginBottom} ==> ExportedAs(g, Render(c, Advanced)) in InfoBoxRule(c).declarations
  {
  }

  lemma BannerDeclarationInDocument(c: SiteData, d: Declaration)
    requires d in BannerRule(c).declarations
    ensures Contains(Document(c), DeclarationText(d))
  {
    assert StyleSheet(c)[2] == BannerRule(c);
    DeclarationInDocument(c, BannerRule(c), d);
  }

  lemma InfoBoxDeclarationInDocument(c: SiteData, d: Declaration)
    requires d in InfoBoxRule(c).declarations
    ensures Contains(Document(c), DeclarationText(d))
  {
    assert StyleSheet(c)[4] == InfoBoxRule(c);
    DeclarationInDocument(c, InfoBoxRule(c), d);
  }

  /** At the advanced tier the preview and the exported document agree on
      every gated property: the preview's value is what the document
      declares. */
  lemma AdvancedPreviewInDocument(c: SiteData, g: Gated)
    ensures Contains(Document(c), DeclarationText(ExportedAs(g, Render(c, Advanced))))
  {
    ExportedAsInRule(c, g);
    if g == Height || g == MarginBottom {
      BannerDeclarationInDocument(c, ExportedAs(g, Render(c, Advanced)));
    } else {
      InfoBoxDeclarationInDocument(c, ExportedAs(g, Render(c, Advanced)));
    }
  }

  /** Below the advanced tier the two can disagree: a stored banner height
      of 999 is exported as `height: 999px` while the preview at the basic
      or intermediate tier shows `auto`. */
  lemma LowerTierPreviewDiffersFromExport(t: Tier)
    requires t != Advanced
    ensures var c := Set(Defaults(), BannerHeight, "999");
      && Render(c, t).bannerHeight == "auto"
      && Declaration("height", "999px") in BannerRule(c).declarations
  {
    var c := Set(Defaults(), BannerHeight, "999");
    assert Get(c, BannerHeight) == "999";
    assert Px("999") == "999px";
    assert BannerRule(c).declarations[4] == Declaration("height", "999px");
  }
}
