/** The "view source" exporter: one standalone HTML document built from the
    site configuration alone. Its style sheet is five fixed rules whose
    values are the stored fields interpolated verbatim (with "px" or "deg"
    appended where the rule needs a unit), followed by one of two gallery
    variants; its body is the nav bar, the banner and the info box, in that
    order, with the text fields inserted unescaped. */
module Export {
  import opened Site
  import opened Images
  import opened Text

  /** One `property: value;` entry of a CSS rule. */
  datatype Declaration = Declaration(property: string, value: string)

  /** A CSS rule: a selector and its declarations, in order. */
  datatype Rule = Rule(selector: string, declarations: seq<Declaration>)

  function DeclarationText(d: Declaration): string {
    d.property + ": " + d.value + ";"
  }

  /** The declarations, each preceded by one space. */
  function DeclarationsText(ds: seq<Declaration>): string {
    if |ds| == 0 then "" else " " + DeclarationText(ds[0]) + DeclarationsText(ds[1..])
  }

  /** A rule on one line: `selector { p: v; q: w; }`. */
  function RuleText(r: Rule): string {
    r.selector + " {" + DeclarationsText(r.declarations) + " }"
  }

  /** A stored number with the pixel unit the rule appends. */
  function Px(v: string): string {
    v + "px"
  }

  /** The rotation value built from the stored number of degrees. */
  function Rotate(deg: string): string {
    "rotate(" + deg + "deg)"
  }

  /** The border shorthand: width in pixels, style, colour. */
  function Border(c: SiteData): string {
    Px(c.infoBorderWidth) + " " + c.infoBorderStyle + " " + c.infoBorderColor
  }

  function BodyRule(c: SiteData): Rule {
    Rule("body", [
      Declaration("margin", "0"),
      Declaration("font-family", c.fontFamily),
      Declaration("background-color", "#f8fafc")])
  }

  function TopBarRule(c: SiteData): Rule {
    Rule(".top-bar", [
      Declaration("background-color", c.navColor),
      Declaration("padding", "20px"),
      Declaration("color", "white")])
  }

  function BannerRule(c: SiteData): Rule {
    Rule(".main-banner", [
      Declaration("background-color", c.bannerBgColor),
      Declaration("color", c.bannerTextColor),
      Declaration("padding", "50px"),
      Declaration("text-align", c.bannerTextAlign),
      Declaration("height", Px(c.bannerHeight)),
      Declaration("margin-bottom", Px(c.bannerMarginBottom)),
      Declaration("display", "flex"),
      Declaration("flex-direction", "column"),
      Declaration("justify-content", "center")])
  }

  function BannerHeadingRule(c: SiteData): Rule {
    Rule(".main-banner h1", [
      Declaration("font-size", Px(c.bannerFontSize)),
      Declaration("letter-spacing", Px(c.bannerLetterSpacing)),
      Declaration("margin", "0 0 10px 0")])
  }

  function InfoBoxRule(c: SiteData): Rule {
    Rule(".info-box", [
      Declaration("background-color", "white"),
      Declaration("border", Border(c)),
      Declaration("padding", Px(c.infoPadding)),
      Declaration("border-radius", Px(c.infoBorderRadius)),
      Declaration("margin", "0 auto 40px auto"),
      Declaration("max-width", Px(c.infoWidth)),
      Declaration("box-shadow", c.infoShadow),
      Declaration("font-weight", c.infoFontWeight),
      Declaration("transform", Rotate(c.infoRotation))])
  }

  /** The five fixed rules, in document order. */
  function BaseRules(c: SiteData): seq<Rule> {
    [BodyRule(c), TopBarRule(c), BannerRule(c), BannerHeadingRule(c), InfoBoxRule(c)]
  }

  /** The flex row that lays several images side by side. */
  const GalleryRow: Rule := Rule(".gallery", [
    Declaration("display", "flex"),
    Declaration("gap", "10px"),
    Declaration("margin-top", "15px"),
    Declaration("justify-content", "center")])

  /** Each image takes a third of the row. */
  const GalleryThumbnail: Rule := Rule(".gallery-img", [
    Declaration("width", "32%"),
    Declaration("border-radius", "8px")])

  /** A lone image, at most the box's width. */
  const SingleImage: Rule := Rule(".gallery-img", [
    Declaration("max-width", "100%"),
    Declaration("margin-top", "15px"),
    Declaration("border-radius", "8px")])

  /** The rules of the gallery variant, or of the lone-image variant. */
  function GalleryVariant(gallery: bool): seq<Rule> {
    if gallery then [GalleryRow, GalleryThumbnail] else [SingleImage]
  }

  /** The gallery variant, chosen by the image count alone: the flex row
      and thumbnails iff `parseInt(imageCount) > 1`, the lone-image rule
      otherwise, never both. */
  function GalleryRules(c: SiteData): (r: seq<Rule>)
    ensures GalleryRow in r <==> IsGallery(c)
    ensures GalleryThumbnail in r <==> IsGallery(c)
    ensures SingleImage in r <==> !IsGallery(c)
  {
    GalleryVariantsDisjoint(IsGallery(c));
    GalleryVariant(IsGallery(c))
  }

  /** The rules of the whole style sheet. */
  function StyleSheet(c: SiteData): seq<Rule> {
    BaseRules(c) + GalleryRules(c)
  }

  /** One indented line per rule. */
  function RuleLines(rules: seq<Rule>): string {
    if |rules| == 0 then "" else "    " + RuleText(rules[0]) + "\n" + RuleLines(rules[1..])
  }

  /** The gallery variant text: each rule on a fresh indented line. */
  function GalleryCss(rules: seq<Rule>): string {
    if |rules| == 0 then "" else "\n    " + RuleText(rules[0]) + GalleryCss(rules[1..])
  }

  /** The text between `<style>` and `</style>`: every rule of the style
      sheet is written into it. */
  function StyleBlock(c: SiteData): (r: string)
    ensures forall rule :: rule in StyleSheet(c) ==> Contains(r, RuleText(rule))
  {
    RulesInStyleText(BaseRules(c), GalleryRules(c));
    RuleLines(BaseRules(c)) + GalleryLine(GalleryCss(GalleryRules(c)))
  }

  /** The line the gallery variant is interpolated into. */
  function GalleryLine(css: string): string {
    "    " + css + "\n"
  }

  function ImgTag(src: string): string {
    "<img src=\"" + src + "\" class=\"gallery-img\" />"
  }

  /** The image fragment as the exporter builds it: the first tag, then one
      more per threshold reached, wrapped when the count exceeds 1. Either
      way it opens with the tag for `imageSrc`, inside the wrapper exactly
      for the gallery layout. */
  function RenderImages(c: SiteData): (r: string)
    ensures IsGallery(c) ==> GalleryOpen + ImgTag(c.imageSrc) <= r
    ensures !IsGallery(c) ==> ImgTag(c.imageSrc) <= r
  {
    var p := RequestedCount(c);
    var one := ImgTag(c.imageSrc);
    var two := if AtLeast(p, 2) then one + "\n    " + ImgTag(c.imageSrc2) else one;
    var three := if AtLeast(p, 3) then two + "\n    " + ImgTag(c.imageSrc3) else two;
    if MoreThan(p, 1) then GalleryOpen + three + GalleryClose else three
  }

  const GalleryOpen: string := "<div class=\"gallery\">\n    "
  const GalleryClose: string := "\n    </div>"

  /** Reference definition: one tag per source, separated by an indented
      line break. */
  function Tags(srcs: seq<string>): string {
    if |srcs| == 0 then ""
    else if |srcs| == 1 then ImgTag(srcs[0])
    else ImgTag(srcs[0]) + "\n    " + Tags(srcs[1..])
  }

  function NavElement(c: SiteData): string {
    "<nav class=\"top-bar\"><h1>" + c.navTitle + "</h1></nav>"
  }

  function BannerElement(c: SiteData): string {
    "<div class=\"main-banner\"><h1>" + c.bannerTitle + "</h1><p>" + c.bannerSubtitle + "</p></div>"
  }

  /** The info box up to where the images go. */
  function InfoBoxHead(c: SiteData): string {
    "<div class=\"info-box\"><h2>" + c.infoTitle + "</h2><p>" + c.infoText + "</p>"
  }

  /** The info box from where the images go: the image fragment only when
      `showImage` is exactly "yes", then the closing tag. */
  function InfoBoxTail(c: SiteData): string {
    (if c.showImage == "yes" then RenderImages(c) else "") + "</div>"
  }

  function InfoBoxElement(c: SiteData): string {
    InfoBoxHead(c) + InfoBoxTail(c)
  }

  const DocumentStart: string := "<!DOCTYPE html>\n<html>\n<head>\n  <style>\n"
  const BodyStart: string := "  </style>\n</head>\n<body>\n  "
  const DocumentEnd: string := "\n</body>\n</html>"

  /** The document template around its four interpolated pieces. */
  function Page(style: string, nav: string, banner: string, info: string): string {
    DocumentStart + style + (BodyStart + nav + "\n  " + banner + "\n  " + info + DocumentEnd)
  }

  /** The exported document. There is no tier parameter: what is exported
      depends on the configuration only. It opens the head's style element
      and holds the style block. */
  function Document(c: SiteData): (r: string)
    ensures DocumentStart <= r
    ensures Contains(r, StyleBlock(c))
  {
    PageContainsStyle(StyleBlock(c), NavElement(c), BannerElement(c), InfoBoxElement(c));
    PageStart(StyleBlock(c), NavElement(c), BannerElement(c), InfoBoxElement(c));
    Page(StyleBlock(c), NavElement(c), BannerElement(c), InfoBoxElement(c))
  }

  // ---------------------------------------------------------------------
  // The image fragment

  lemma TagsOfTwo(a: string, b: string)
    ensures Tags([a, b]) == ImgTag(a) + "\n    " + ImgTag(b)
  {
    assert [a, b][1..] == [b];
  }

  lemma TagsOfThree(a: string, b: string, c: string)
    ensures Tags([a, b, c]) == ImgTag(a) + "\n    " + ImgTag(b) + "\n    " + ImgTag(c)
  {
    assert [a, b, c][1..] == [b, c];
    TagsOfTwo(b, c);
  }

  /** The fragment is the reference list of tags over the filled slots,
      wrapped in the gallery container exactly when the gallery layout is
      chosen. */
  lemma RenderImagesShape(c: SiteData)
    ensures RenderImages(c) ==
      if IsGallery(c) then GalleryOpen + Tags(Sources(c)) + GalleryClose else Tags(Sources(c))
  {
    var p := RequestedCount(c);
    var srcs := Sources(c);
    if AtLeast(p, 3) {
      assert srcs == [c.imageSrc, c.imageSrc2, c.imageSrc3];
      TagsOfThree(c.imageSrc, c.imageSrc2, c.imageSrc3);
    } else if AtLeast(p, 2) {
      assert srcs == [c.imageSrc, c.imageSrc2];
      TagsOfTwo(c.imageSrc, c.imageSrc2);
    } else {
      assert srcs == [c.imageSrc];
    }
  }

  /** The first tag of the list is the one for the first source. */
  lemma FirstTagIsImageSrc(c: SiteData)
    ensures ImgTag(c.imageSrc) <= Tags(Sources(c))
  {
    var srcs := Sources(c);
    assert srcs[0] == c.imageSrc;
  }

  /** The info box holds the image fragment only when `showImage` is exactly
      "yes"; for any other value the box closes right after the paragraph. */
  lemma InfoBoxImages(c: SiteData)
    ensures c.showImage == "yes" ==> InfoBoxElement(c) == InfoBoxHead(c) + RenderImages(c) + "</div>"
    ensures c.showImage != "yes" ==>
      InfoBoxElement(c) == "<div class=\"info-box\"><h2>" + c.infoTitle + "</h2><p>" + c.infoText + "</p></div>"
  {
  }

  // ---------------------------------------------------------------------
  // The style sheet

  /** Each declaration of a rule appears in the rule's text. */
  lemma {:induction false} DeclarationInDeclarations(ds: seq<Declaration>, k: nat)
    requires k < |ds|
    ensures Contains(DeclarationsText(ds), DeclarationText(ds[k]))
    decreases k
  {
    if k == 0 {
      ContainsMiddle(" ", DeclarationText(ds[0]), DeclarationsText(ds[1..]));
    } else {
      DeclarationInDeclarations(ds[1..], k - 1);
      ContainsSuffix(" " + DeclarationText(ds[0]), DeclarationsText(ds[1..]));
      ContainsTransitive(DeclarationsText(ds), DeclarationsText(ds[1..]), DeclarationText(ds[k]));
    }
  }

  lemma DeclarationInRule(r: Rule, d: Declaration)
    requires d in r.declarations
    ensures Contains(RuleText(r), DeclarationText(d))
  {
    var k :| 0 <= k < |r.declarations| && r.declarations[k] == d;
    DeclarationInDeclarations(r.declarations, k);
    ContainsMiddle(r.selector + " {", DeclarationsText(r.declarations), " }");
    ContainsTransitive(RuleText(r), DeclarationsText(r.declarations), DeclarationText(d));
  }

  lemma {:induction false} RuleInRuleLines(rules: seq<Rule>, k: nat)
    requires k < |rules|
    ensures Contains(RuleLines(rules), RuleText(rules[k]))
    decreases k
  {
    if k == 0 {
      ContainsMiddle("    ", RuleText(rules[0]), "\n");
      ContainsPrefix("    " + RuleText(rules[0]) + "\n", RuleLines(rules[1..]));
      ContainsTransitive(RuleLines(rules), "    " + RuleText(rules[0]) + "\n", RuleText(rules[0]));
    } else {
      RuleInRuleLines(rules[1..], k - 1);
      ContainsSuffix("    " + RuleText(rules[0]) + "\n", RuleLines(rules[1..]));
      ContainsTransitive(RuleLines(rules), RuleLines(rules[1..]), RuleText(rules[k]));
    }
  }

  lemma {:induction false} RuleInGalleryCss(rules: seq<Rule>, k: nat)
    requires k < |rules|
    ensures Contains(GalleryCss(rules), RuleText(rules[k]))
    decreases k
  {
    if k == 0 {
      ContainsMiddle("\n    ", RuleText(rules[0]), GalleryCss(rules[1..]));
    } else {
      RuleInGalleryCss(rules[1..], k - 1);
      ContainsSuffix("\n    " + RuleText(rules[0]), GalleryCss(rules[1..]));
      ContainsTransitive(GalleryCss(rules), GalleryCss(rules[1..]), RuleText(rules[k]));
    }
  }

  /** Both parts of a style block hold their rules. */
  lemma RulesInStyleText(base: seq<Rule>, gallery: seq<Rule>)
    ensures forall rule :: rule in base + gallery ==>
      Contains(RuleLines(base) + GalleryLine(GalleryCss(gallery)), RuleText(rule))
  {
    var lines := RuleLines(base);
    var css := GalleryCss(gallery);
    forall rule | rule in base + gallery
      ensures Contains(lines + GalleryLine(css), RuleText(rule))
    {
      var k :| 0 <= k < |base + gallery| && (base + gallery)[k] == rule;
      if k < |base| {
        RuleInRuleLines(base, k);
        ContainsPrefix(lines, GalleryLine(css));
        ContainsTransitive(lines + GalleryLine(css), lines, RuleText(rule));
      } else {
        RuleInGalleryCss(gallery, k - |base|);
        ContainsMiddle("    ", css, "\n");
        ContainsTransitive(GalleryLine(css), css, RuleText(rule));
        ContainsSuffix(lines, GalleryLine(css));
        ContainsTransitive(lines + GalleryLine(css), GalleryLine(css), RuleText(rule));
      }
    }
  }

  /** The template opens with the doctype and the style element. */
  lemma PageStart(style: string, nav: string, banner: string, info: string)
    ensures DocumentStart <= Page(style, nav, banner, info)
  {
    var rest := style + (BodyStart + nav + "\n  " + banner + "\n  " + info + DocumentEnd);
    assert Page(style, nav, banner, info) == DocumentStart + rest;
  }

  /** The template keeps the info-box text it is given. */
  lemma PageContainsInfo(style: string, nav: string, banner: string, info: string)
    ensures Contains(Page(style, nav, banner, info), info)
  {
    var body := BodyStart + nav + "\n  " + banner + "\n  " + info + DocumentEnd;
    ContainsMiddle(BodyStart + nav + "\n  " + banner + "\n  ", info, DocumentEnd);
    ContainsSuffix(DocumentStart + style, body);
    ContainsTransitive(Page(style, nav, banner, info), body, info);
  }

  /** The template keeps the style text it is given. */
  lemma PageContainsStyle(style: string, nav: string, banner: string, info: string)
    ensures Contains(Page(style, nav, banner, info), style)
  {
    ContainsMiddle(DocumentStart, style, BodyStart + nav + "\n  " + banner + "\n  " + info + DocumentEnd);
  }

  /** Every rule of the style sheet is written out in the document. */
  lemma RuleInDocument(c: SiteData, r: Rule)
    requires r in StyleSheet(c)
    ensures Contains(Document(c), RuleText(r))
  {
    ContainsTransitive(Document(c), StyleBlock(c), RuleText(r));
  }

  /** Every base rule is written out in the document. */
  lemma BaseRuleInDocument(c: SiteData, k: nat)
    requires k < |BaseRules(c)|
    ensures Contains(Document(c), RuleText(BaseRules(c)[k]))
  {
    assert BaseRules(c)[k] in StyleSheet(c);
    RuleInDocument(c, BaseRules(c)[k]);
  }

  /** Every rule of the chosen gallery variant is written out in the
      document. */
  lemma GalleryRuleInDocument(c: SiteData, k: nat)
    requires k < |GalleryRules(c)|
    ensures Contains(Document(c), RuleText(GalleryRules(c)[k]))
  {
    assert GalleryRules(c)[k] in StyleSheet(c);
    RuleInDocument(c, GalleryRules(c)[k]);
  }

  /** Every declaration of every rule of the style sheet is in the document,
      with the stored value interpolated as is. */
  lemma DeclarationInDocument(c: SiteData, r: Rule, d: Declaration)
    requires r in StyleSheet(c) && d in r.declarations
    ensures Contains(Document(c), DeclarationText(d))
  {
    RuleInDocument(c, r);
    DeclarationInRule(r, d);
    ContainsTransitive(Document(c), RuleText(r), DeclarationText(d));
  }

  /** The five base rules never use the gallery selectors. */
  lemma BaseRulesNotGallery(c: SiteData, r: Rule)
    requires r in BaseRules(c)
    ensures r.selector != GalleryRow.selector && r.selector != SingleImage.selector
  {
  }

  /** The flex variant and the lone-image variant share no rule. */
  lemma GalleryVariantsDisjoint(gallery: bool)
    ensures GalleryRow in GalleryVariant(gallery) <==> gallery
    ensures GalleryThumbnail in GalleryVariant(gallery) <==> gallery
    ensures SingleImage in GalleryVariant(gallery) <==> !gallery
  {
    assert GalleryThumbnail.declarations[0] != SingleImage.declarations[0];
  }

  /** Whichever gallery variant is chosen is written into the document. */
  lemma GalleryCssInDocument(c: SiteData)
    ensures IsGallery(c) ==> Contains(Document(c), RuleText(GalleryRow))
    ensures IsGallery(c) ==> Contains(Document(c), RuleText(GalleryThumbnail))
    ensures !IsGallery(c) ==> Contains(Document(c), RuleText(SingleImage))
  {
    if IsGallery(c) {
      RuleInDocument(c, GalleryRow);
      RuleInDocument(c, GalleryThumbnail);
    } else {
      RuleInDocument(c, SingleImage);
    }
  }

  /** The gallery variant does not look at `showImage`: it is emitted even
      when no image is shown. */
  lemma GalleryCssIgnoresShowImage(c: SiteData, v: string)
    ensures GalleryRules(Set(c, ShowImage, v)) == GalleryRules(c)
  {
  }

  // ---------------------------------------------------------------------
  // The body

  /** In the template the nav piece, the banner piece and the head of the
      info piece come in this order. */
  lemma PageOrder(style: string, nav: string, banner: string, head: string, tail: string)
    ensures InOrder(Page(style, nav, banner, head + tail), nav, banner, head)
  {
    InOrderInTemplate(DocumentStart, style, BodyStart, nav, "\n  ", banner, head, tail, DocumentEnd);
  }

  /** The body holds the nav bar, then the banner, then the info box, with
      the text fields inserted verbatim. */
  lemma BodyOrder(c: SiteData)
    ensures InOrder(Document(c),
      "<nav class=\"top-bar\"><h1>" + c.navTitle + "</h1></nav>",
      "<div class=\"main-banner\"><h1>" + c.bannerTitle + "</h1><p>" + c.bannerSubtitle + "</p></div>",
      "<div class=\"info-box\"><h2>" + c.infoTitle + "</h2><p>" + c.infoText + "</p>")
  {
    PageOrder(StyleBlock(c), NavElement(c), BannerElement(c), InfoBoxHead(c), InfoBoxTail(c));
  }

  /** The whole info box, closing tag included, is in the exported
      document, and so is the image fragment whenever `showImage` is "yes". */
  lemma DocumentHoldsImages(c: SiteData)
    ensures Contains(Document(c), InfoBoxElement(c))
    ensures c.showImage == "yes" ==> Contains(Document(c), RenderImages(c))
  {
    PageContainsInfo(StyleBlock(c), NavElement(c), BannerElement(c), InfoBoxElement(c));
    if c.showImage == "yes" {
      InfoBoxImages(c);
      ContainsMiddle(InfoBoxHead(c), RenderImages(c), "</div>");
      ContainsTransitive(Document(c), InfoBoxElement(c), RenderImages(c));
    }
  }
}
