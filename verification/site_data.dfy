/** The editable site configuration: one total record of string fields,
    its hard-coded defaults, the single-field update every editor widget
    performs, the confirmed reset, and the start-up load from storage. */
module Site {
  import opened Wrappers

  /** Every value is a string, numeric ones included: they come from text
      and number inputs and are interpolated into markup unvalidated. */
  datatype SiteData = SiteData(
    navTitle: string,
    navColor: string,
    bannerTitle: string,
    bannerSubtitle: string,
    bannerBgColor: string,
    bannerTextColor: string,
    infoTitle: string,
    infoText: string,
    showImage: string,
    imageCount: string,
    bannerTextAlign: string,
    infoBorderRadius: string,
    infoBorderStyle: string,
    infoBorderColor: string,
    infoBorderWidth: string,
    fontFamily: string,
    bannerFontSize: string,
    infoFontWeight: string,
    infoPadding: string,
    infoWidth: string,
    infoShadow: string,
    bannerHeight: string,
    bannerMarginBottom: string,
    bannerLetterSpacing: string,
    infoRotation: string,
    imageSrc: string,
    imageSrc2: string,
    imageSrc3: string
  )

  /** The keys an editor widget may pass to the update callback. */
  datatype Field =
    | NavTitle | NavColor | BannerTitle | BannerSubtitle | BannerBgColor
    | BannerTextColor | InfoTitle | InfoText | ShowImage | ImageCount
    | BannerTextAlign | InfoBorderRadius | InfoBorderStyle | InfoBorderColor
    | InfoBorderWidth | FontFamily | BannerFontSize | InfoFontWeight
    | InfoPadding | InfoWidth | InfoShadow | BannerHeight | BannerMarginBottom
    | BannerLetterSpacing | InfoRotation | ImageSrc | ImageSrc2 | ImageSrc3

  /** The record every session starts from when nothing usable is stored.
      Every field holds a value, so no heading starts on its placeholder. */
  function Defaults(): (d: SiteData)
    ensures forall f :: Get(d, f) != ""
  {
    SiteData(
      navTitle := "My Awesome Site",
      navColor := "#3b82f6",
      bannerTitle := "Hello World!",
      bannerSubtitle := "I am learning to code web pages.",
      bannerBgColor := "#1e293b",
      bannerTextColor := "#ffffff",
      infoTitle := "About Me",
      infoText := "I love science and technology.",
      showImage := "yes",
      imageCount := "1",
      bannerTextAlign := "center",
      infoBorderRadius := "12",
      infoBorderStyle := "solid",
      infoBorderColor := "#dddddd",
      infoBorderWidth := "1",
      fontFamily := "sans-serif",
      bannerFontSize := "48",
      infoFontWeight := "normal",
      infoPadding := "20",
      infoWidth := "600",
      infoShadow := "none",
      bannerHeight := "300",
      bannerMarginBottom := "40",
      bannerLetterSpacing := "0",
      infoRotation := "0",
      imageSrc := "https://via.placeholder.com/150",
      imageSrc2 := "https://via.placeholder.com/150/blue",
      imageSrc3 := "https://via.placeholder.com/150/red"
    )
  }

  /** Reads the field named by `f`. */
  function Get(c: SiteData, f: Field): string {
    match f
    case NavTitle => c.navTitle
    case NavColor => c.navColor
    case BannerTitle => c.bannerTitle
    case BannerSubtitle => c.bannerSubtitle
    case BannerBgColor => c.bannerBgColor
    case BannerTextColor => c.bannerTextColor
    case InfoTitle => c.infoTitle
    case InfoText => c.infoText
    case ShowImage => c.showImage
    case ImageCount => c.imageCount
    case BannerTextAlign => c.bannerTextAlign
    case InfoBorderRadius => c.infoBorderRadius
    case InfoBorderStyle => c.infoBorderStyle
    case InfoBorderColor => c.infoBorderColor
    case InfoBorderWidth => c.infoBorderWidth
    case FontFamily => c.fontFamily
    case BannerFontSize => c.bannerFontSize
    case InfoFontWeight => c.infoFontWeight
    case InfoPadding => c.infoPadding
    case InfoWidth => c.infoWidth
    case InfoShadow => c.infoShadow
    case BannerHeight => c.bannerHeight
    case BannerMarginBottom => c.bannerMarginBottom
    case BannerLetterSpacing => c.bannerLetterSpacing
    case InfoRotation => c.infoRotation
    case ImageSrc => c.imageSrc
    case ImageSrc2 => c.imageSrc2
    case ImageSrc3 => c.imageSrc3
  }

  /** The update callback: a copy of `c` with the field `f` replaced by `v`.
      The value is stored as given, never validated. */
  function Set(c: SiteData, f: Field, v: string): (r: SiteData)
    ensures Get(r, f) == v
    ensures forall g :: g != f ==> Get(r, g) == Get(c, g)
  {
    match f
    case NavTitle => c.(navTitle := v)
    case NavColor => c.(navColor := v)
    case BannerTitle => c.(bannerTitle := v)
    case BannerSubtitle => c.(bannerSubtitle := v)
    case BannerBgColor => c.(bannerBgColor := v)
    case BannerTextColor => c.(bannerTextColor := v)
    case InfoTitle => c.(infoTitle := v)
    case InfoText => c.(infoText := v)
    case ShowImage => c.(showImage := v)
    case ImageCount => c.(imageCount := v)
    case BannerTextAlign => c.(bannerTextAlign := v)
    case InfoBorderRadius => c.(infoBorderRadius := v)
    case InfoBorderStyle => c.(infoBorderStyle := v)
    case InfoBorderColor => c.(infoBorderColor := v)
    case InfoBorderWidth => c.(infoBorderWidth := v)
    case FontFamily => c.(fontFamily := v)
    case BannerFontSize => c.(bannerFontSize := v)
    case InfoFontWeight => c.(infoFontWeight := v)
    case InfoPadding => c.(infoPadding := v)
    case InfoWidth => c.(infoWidth := v)
    case InfoShadow => c.(infoShadow := v)
    case BannerHeight => c.(bannerHeight := v)
    case BannerMarginBottom => c.(bannerMarginBottom := v)
    case BannerLetterSpacing => c.(bannerLetterSpacing := v)
    case InfoRotation => c.(infoRotation := v)
    case ImageSrc => c.(imageSrc := v)
    case ImageSrc2 => c.(imageSrc2 := v)
    case ImageSrc3 => c.(imageSrc3 := v)
  }

  /** Two successive updates of one field equal a single update with the
      later value. */
  lemma SetLastWins(c: SiteData, f: Field, v: string, w: string)
    ensures Set(Set(c, f, v), f, w) == Set(c, f, w)
  {
    match f
    case NavTitle =>
    case NavColor =>
    case BannerTitle =>
    case BannerSubtitle =>
    case BannerBgColor =>
    case BannerTextColor =>
    case InfoTitle =>
    case InfoText =>
    case ShowImage =>
    case ImageCount =>
    case BannerTextAlign =>
    case InfoBorderRadius =>
    case InfoBorderStyle =>
    case InfoBorderColor =>
    case InfoBorderWidth =>
    case FontFamily =>
    case BannerFontSize =>
    case InfoFontWeight =>
    case InfoPadding =>
    case InfoWidth =>
    case InfoShadow =>
    case BannerHeight =>
    case BannerMarginBottom =>
    case BannerLetterSpacing =>
    case InfoRotation =>
    case ImageSrc =>
    case ImageSrc2 =>
    case ImageSrc3 =>
  }

  /** Storing the value a field already holds leaves the record as it was. */
  lemma SetUnchanged(c: SiteData, f: Field)
    ensures Set(c, f, Get(c, f)) == c
  {
    match f
    case NavTitle =>
    case NavColor =>
    case BannerTitle =>
    case BannerSubtitle =>
    case BannerBgColor =>
    case BannerTextColor =>
    case InfoTitle =>
    case InfoText =>
    case ShowImage =>
    case ImageCount =>
    case BannerTextAlign =>
    case InfoBorderRadius =>
    case InfoBorderStyle =>
    case InfoBorderColor =>
    case InfoBorderWidth =>
    case FontFamily =>
    case BannerFontSize =>
    case InfoFontWeight =>
    case InfoPadding =>
    case InfoWidth =>
    case InfoShadow =>
    case BannerHeight =>
    case BannerMarginBottom =>
    case BannerLetterSpacing =>
    case InfoRotation =>
    case ImageSrc =>
    case ImageSrc2 =>
    case ImageSrc3 =>
  }

  /** The confirmed reset: a fresh copy of the defaults, whatever was there
      before. */
  function Reset(c: SiteData): (r: SiteData)
    ensures forall f :: Get(r, f) == Get(Defaults(), f)
  {
    Defaults()
  }

  /** Start-up load. `saved` is what the key-value store holds under the
      site key (`None` when the key is absent); `parse` stands for the JSON
      parser, `None` when it throws. An absent or empty blob and a parse
      failure fall back to the defaults; any parsed record is used as is. */
  function Load(saved: Option<string>, parse: string -> Option<SiteData>): (r: SiteData)
    ensures saved == None || saved == Some("") ==> r == Defaults()
    ensures saved.Some? && saved.value != "" && parse(saved.value) == None ==> r == Defaults()
    ensures saved.Some? && saved.value != "" && parse(saved.value).Some? ==> r == parse(saved.value).value
  {
    match saved
    case None => Defaults()
    case Some(blob) =>
      if blob == "" then Defaults() else parse(blob).GetOr(Defaults())
  }
}
