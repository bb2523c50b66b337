/** How many images the site shows and which sources fill the slots. Both
    the exported document and the live preview decide this from
    `parseInt(imageCount)` with three unclamped comparisons: the first image
    always, the second when the number is at least 2, the third when it is
    at least 3, and the side-by-side gallery layout when it exceeds 1. A
    comparison with NaN is false, so text without digits means one image. */
module Images {
  import opened Wrappers
  import opened Site
  import opened JsParseInt

  /** `parseInt(v) >= k`, false when the parse gave NaN. */
  predicate AtLeast(p: Option<int>, k: int) {
    p.Some? && p.value >= k
  }

  /** `parseInt(v) > k`, false when the parse gave NaN. */
  predicate MoreThan(p: Option<int>, k: int) {
    p.Some? && p.value > k
  }

  /** The number typed into the image-count field, as `parseInt` reads it. */
  function RequestedCount(c: SiteData): Option<int> {
    ParseInt(c.imageCount)
  }

  /** The gallery layout is chosen: `parseInt(imageCount) > 1`, which is
      exactly when more than one slot is filled. */
  function IsGallery(c: SiteData): (r: bool)
    ensures r <==> SlotCount(RequestedCount(c)) > 1
  {
    MoreThan(RequestedCount(c), 1)
  }

  /** The number of image slots filled: one, plus one for each of the two
      thresholds the parsed count reaches. */
  function SlotCount(p: Option<int>): (n: nat)
    ensures 1 <= n <= 3
    ensures n == 1 <==> p == None || p.value < 2
    ensures n == 2 <==> p == Some(2)
    ensures n == 3 <==> p.Some? && p.value >= 3
  {
    1 + (if AtLeast(p, 2) then 1 else 0) + (if AtLeast(p, 3) then 1 else 0)
  }

  /** `parseInt(v) || 1`: NaN and 0 are falsy and give 1. */
  function OrOne(p: Option<int>): int {
    if p == None || p == Some(0) then 1 else p.value
  }

  function Clamp(x: int, lo: int, hi: int): int
    requires lo <= hi
  {
    if x < lo then lo else if x > hi then hi else x
  }

  /** Slot filling without an explicit clamp still behaves like clamping the
      requested number into 1..3, reading NaN and 0 as 1. */
  lemma SlotCountIsClamp(p: Option<int>)
    ensures SlotCount(p) == Clamp(OrOne(p), 1, 3)
  {
  }

  /** The sources of the filled slots, in slot order. */
  function Sources(c: SiteData): (srcs: seq<string>)
    ensures |srcs| == SlotCount(RequestedCount(c))
    ensures srcs == [c.imageSrc, c.imageSrc2, c.imageSrc3][..|srcs|]
  {
    var p := RequestedCount(c);
    [c.imageSrc]
      + (if AtLeast(p, 2) then [c.imageSrc2] else [])
      + (if AtLeast(p, 3) then [c.imageSrc3] else [])
  }

  /** The first slot always shows the first source. */
  lemma FirstSourceIsImageSrc(c: SiteData)
    ensures |Sources(c)| >= 1 && Sources(c)[0] == c.imageSrc
  {
  }

  lemma ImageCountZero()
    ensures ParseInt("0") == Some(0) && SlotCount(ParseInt("0")) == 1
  {
    ParseIntZero();
  }

  /** Counts with no digits are NaN and fill one slot. */
  lemma ImageCountNaN()
    ensures SlotCount(ParseInt("")) == 1
    ensures SlotCount(ParseInt("abc")) == 1
  {
    ParseIntNaNExamples();
  }

  /** "7" is not clamped by the source: it fills all three slots and selects
      the gallery layout. */
  lemma ImageCountSeven()
    ensures SlotCount(ParseInt("7")) == 3 && MoreThan(ParseInt("7"), 1)
  {
    ParseIntSeven();
  }
}
