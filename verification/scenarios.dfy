/** Concrete configurations worked through the exporter: the defaults, a
    two-image gallery with an edited banner title, and an image count the
    code does not clamp. */
module Scenarios {
  import opened Wrappers
  import opened Site
  import opened Difficulty
  import opened JsParseInt
  import opened Images
  import opened Export
  import opened Text
  import opened App

  /** The defaults ask for one image: no gallery container, the lone-image
      rule. */
  lemma DefaultsShowOneImage()
    ensures !IsGallery(Defaults())
    ensures Sources(Defaults()) == ["https://via.placeholder.com/150"]
    ensures GalleryRules(Defaults()) == [SingleImage]
    ensures RenderImages(Defaults()) == ImgTag("https://via.placeholder.com/150")
  {
    ParseIntOne();
  }

  /** The configuration with banner title "Test" and image count "2". */
  function TwoImages(): (c: SiteData)
    ensures c.bannerTitle == "Test" && c.imageCount == "2"
    ensures c.showImage == "yes"
  {
    Set(Set(Defaults(), BannerTitle, "Test"), ImageCount, "2")
  }

  /** A count that reads as 2 fills two slots inside the gallery container. */
  lemma CountTwoFragment(c: SiteData)
    requires RequestedCount(c) == Some(2)
    ensures IsGallery(c)
    ensures RenderImages(c) == GalleryOpen + (ImgTag(c.imageSrc) + "\n    " + ImgTag(c.imageSrc2)) + GalleryClose
  {
  }

  /** Exported, the configuration holds a gallery container with exactly
      the first two image tags inside the info box, and the document holds
      that fragment. */
  lemma TwoImagesFragment()
    ensures var c := TwoImages();
      && IsGallery(c)
      && RenderImages(c) == GalleryOpen + (ImgTag(c.imageSrc) + "\n    " + ImgTag(c.imageSrc2)) + GalleryClose
      && InfoBoxElement(c) == InfoBoxHead(c) + RenderImages(c) + "</div>"
      && Contains(Document(c), RenderImages(c))
  {
    var c := TwoImages();
    assert RequestedCount(c) == ParseInt("2");
    ParseIntTwo();
    CountTwoFragment(c);
    InfoBoxImages(c);
    DocumentHoldsImages(c);
  }

  /** ... and its banner heading reads "Test", between the nav bar and the
      info box. */
  lemma TwoImagesBody()
    ensures var c := TwoImages();
      InOrder(RawCode(State(c, Advanced)),
        "<nav class=\"top-bar\"><h1>" + c.navTitle + "</h1></nav>",
        "<div class=\"main-banner\"><h1>" + "Test" + "</h1><p>" + c.bannerSubtitle + "</p></div>",
        "<div class=\"info-box\"><h2>" + c.infoTitle + "</h2><p>" + c.infoText + "</p>")
  {
    BodyOrder(TwoImages());
  }

  /** A count that reads as 3 or more fills all three slots. */
  lemma CountThreeOrMore(c: SiteData)
    requires AtLeast(RequestedCount(c), 3)
    ensures IsGallery(c)
    ensures Sources(c) == [c.imageSrc, c.imageSrc2, c.imageSrc3]
  {
  }

  /** Image count "7" is not clamped: three images and the gallery. */
  lemma SevenImagesShowThree(c: SiteData)
    requires c.imageCount == "7"
    ensures IsGallery(c)
    ensures Sources(c) == [c.imageSrc, c.imageSrc2, c.imageSrc3]
  {
    assert RequestedCount(c) == ParseInt("7");
    ParseIntSeven();
    CountThreeOrMore(c);
  }

  /** A count that reads as NaN fills one slot, without the gallery. */
  lemma CountNaN(c: SiteData)
    requires RequestedCount(c) == None
    ensures !IsGallery(c)
    ensures Sources(c) == [c.imageSrc]
  {
  }

  /** Image count "abc" has no digits: one image, no gallery. */
  lemma TextImageCountShowsOne(c: SiteData)
    requires c.imageCount == "abc"
    ensures !IsGallery(c)
    ensures Sources(c) == [c.imageSrc]
  {
    assert RequestedCount(c) == ParseInt("abc");
    ParseIntNaNExamples();
    CountNaN(c);
  }
}
