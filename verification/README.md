# Site builder core, modelled in Dafny

The STEM interactive website editor lets a learner edit one website through a list of fields. It shows the result in two ways:

- a live preview, whose styling depends on the chosen difficulty tier (basic, intermediate or advanced);
- a "view source" panel that exports one standalone HTML document.

This project models the core of that editor as pure functions over an immutable record of string fields. The core is:

- the default configuration;
- the single-field update;
- the confirmed reset;
- the tier gate;
- the HTML exporter, with its image fragment and gallery style variant;
- the preview's style resolution.

It also models ECMAScript `parseInt`, which both outputs use to read the image count.

Modules, in dependency order:

| module | file | contents |
|---|---|---|
| `Wrappers` | wrappers.dfy | `Option` (NaN from `parseInt`, an absent stored record) |
| `Site` | site_data.dfy | the 28-field record, the defaults, `Set` (the update callback), `Reset`, `Load` |
| `Difficulty` | difficulty.dfy | tiers, their rank, the `showField` comparison, both on tiers and on level names |
| `JsParseInt` | js_parse_int.dfy | `parseInt(string)` with no radix argument, following section 19.2.5 of ECMA-262 |
| `Images` | images.dfy | how many image slots are filled, and from which sources |
| `Text` | text.dfy | occurrence of a string in another; three strings in order |
| `Export` | export.dfy | the CSS rules as data, the image fragment, the document template |
| `Preview` | preview.dfy | the resolved preview styles and the gating table behind them |
| `App` | app.dfy | the session state, its three events, and the two views derived from it |
| `Scenarios` | scenarios.dfy | the defaults, a two-image gallery, and counts "7" and "abc" worked through |

The style sheet is modelled as data, not as text.
- A `Rule` is a selector plus a list of `Declaration`s.
- `RuleText` prints a rule exactly as the template lays it out: `selector { p: v; q: w; }`.
- The document is a fixed template around four interpolated pieces: the style block, the nav bar, the banner and the info box.
- Properties such as "this declaration is in the document" are proved from the rule lists through the containment lemmas of `Text`.

Behaviour of the code worth noting, all of it modelled as written:

- The exporter takes no tier. `Document(c)` depends on the configuration alone, and `App.RawCodeIgnoresTier` states this. So below the advanced tier, the preview and the export can show different values for a gated property; `Preview.LowerTierPreviewDiffersFromExport` gives an instance.
- The image count is never clamped. It is compared against thresholds: at least 2, at least 3, more than 1. `Images.SlotCountIsClamp` proves this still behaves like clamping the parsed count into 1..3, reading NaN and 0 as 1.
- The preview's locked rotation is the string `none` for `transform`, not a `0deg` angle.
- A stored record is used as soon as it parses. Nothing rejects a record with missing fields. The model's record is total, so a partial record cannot be represented (see "Left out").

## Model

| member | source | states |
|---|---|---|
| Site.Defaults | src/App.jsx:89-118 | every one of the 28 default fields holds a non-empty value |
| Site.Set | src/App.jsx:145 | an update sets the named field to the given value and leaves every other field unchanged |
| Site.SetLastWins | src/App.jsx:145 | two updates of one field equal a single update with the later value |
| Site.SetUnchanged | src/App.jsx:145 | storing the value a field already holds leaves the record as it was |
| Site.Reset | src/App.jsx:147-150 | after a reset every field equals its default, whatever the record held before |
| Site.Load | src/App.jsx:128-139 | an absent or empty stored blob, or one the parser rejects, gives the defaults; a parsed record is used as is |
| Difficulty.ShowField | src/App.jsx:185-188 | a field is shown when it requires the basic tier, when it requires the current tier, or when the current tier is advanced |
| Difficulty.ShowFieldByName | src/App.jsx:185-188 | an unknown required level is always met, and an unknown current difficulty meets only unknown required levels |
| Difficulty.IndexOf | src/App.jsx:187 | `indexOf` gives the first position of the name, or -1 exactly when the name is not in the list |
| Difficulty.ShowFieldByNameAgrees | src/App.jsx:185-188 | on the three level names, the name comparison is exactly the tier-rank comparison, in both directions |
| Difficulty.UnknownRequirementAlwaysShown | src/App.jsx:185-188 | a required level that is not one of the three names ranks -1, so it is shown at any difficulty |
| Difficulty.ShowFieldMonotone | src/App.jsx:185-188 | a field shown at one tier is shown at every higher tier |
| Difficulty.ShowFieldTable | src/App.jsx:185-188 | basic fields show at every tier; intermediate ones at all tiers but basic; advanced ones only at advanced |
| JsParseInt.ParseInt | src/App.jsx:155-157 | blank text is NaN, a negative result needs a leading minus sign, and text that starts with a non-zero digit after the white space always gives a number |
| JsParseInt.TrimStart | src/App.jsx:155-157 | `parseInt` drops exactly the leading white space: everything removed is white space, and what remains starts with a non-space |
| JsParseInt.LeadingDigits | src/App.jsx:155-157 | the digit run `parseInt` reads is the longest prefix made of digits |
| JsParseInt.UnsignedValue | src/App.jsx:155-157 | the result is NaN exactly when no digit follows the sign and the optional hex prefix |
| JsParseInt.DecimalString | src/App.jsx:155-157 | the decimal spelling of a number is non-empty, made of decimal digits, and starts with 0 only for the number 0 |
| JsParseInt.DecimalStringValue | src/App.jsx:155-157 | the digits of a decimal spelling have the value of the number spelled |
| JsParseInt.ParseIntSkipsBlank | src/App.jsx:155-157 | leading white space does not change the parsed value |
| JsParseInt.ParseIntOfDecimal | src/App.jsx:155-157 | white space, an optional minus sign and a decimal number, followed by any non-digit text (other than an x or X right after a lone 0, which makes a hex prefix), parse back to that number |
| JsParseInt.ParseIntNaNExamples | src/App.jsx:155-157 | "", "abc", "-" and "0x" parse to NaN |
| JsParseInt.ParseIntZero | src/App.jsx:155-157 | "0" parses to 0 |
| JsParseInt.ParseIntOne | src/App.jsx:155-157 | "1" parses to 1 |
| JsParseInt.ParseIntTwo | src/App.jsx:155-157 | "2" parses to 2 |
| JsParseInt.ParseIntSeven | src/App.jsx:155-157 | "7" parses to 7 |
| JsParseInt.ParseIntThreePx | src/App.jsx:155-157 | " 3px" parses to 3: leading space is skipped and trailing text ignored |
| JsParseInt.ParseIntMinusFive | src/App.jsx:155-157 | "-5" parses to -5 |
| JsParseInt.ParseIntThreeX | src/App.jsx:155-157 | "3x" parses to 3 |
| JsParseInt.ParseIntHexExample | src/App.jsx:155-157 | "0x3" is read in radix 16 and parses to 3 |
| Images.SlotCount | src/App.jsx:153-157 | one slot when the count is NaN or below 2, two when it is exactly 2, three when it is 3 or more |
| Images.SlotCountIsClamp | src/App.jsx:153-157 | the threshold tests equal clamping the parsed count into 1..3, with NaN and 0 read as 1 |
| Images.IsGallery | src/App.jsx:155-157 | the gallery layout (`> 1`) is chosen exactly when more than one slot is filled |
| Images.Sources | src/App.jsx:154-156 | the sources shown are the first `SlotCount` of imageSrc, imageSrc2, imageSrc3, in that order |
| Images.FirstSourceIsImageSrc | src/App.jsx:154 | the first slot always shows `imageSrc` |
| Images.ImageCountZero | src/App.jsx:155-157 | count "0" fills one slot |
| Images.ImageCountNaN | src/App.jsx:155-157 | counts "" and "abc" fill one slot |
| Images.ImageCountSeven | src/App.jsx:155-157 | count "7" fills three slots and selects the gallery layout |
| Export.RenderImages | src/App.jsx:153-158 | the fragment opens with the `imageSrc` tag, inside the gallery container exactly when the count exceeds 1 |
| Export.RenderImagesShape | src/App.jsx:153-158 | the image fragment is one tag per filled slot, joined by indented line breaks, and wrapped in the gallery container exactly when the count exceeds 1 |
| Export.FirstTagIsImageSrc | src/App.jsx:154 | the fragment's first tag uses `imageSrc` |
| Export.InfoBoxImages | src/App.jsx:180 | the info box holds the image fragment when `showImage` is "yes"; for any other value it closes right after the paragraph |
| Export.DeclarationInRule | src/App.jsx:169-173 | every declaration of a rule is in the rule's text |
| Export.BaseRuleInDocument | src/App.jsx:169-173 | each of the five base rules is written into the document |
| Export.GalleryRuleInDocument | src/App.jsx:160-174 | each rule of the chosen gallery variant is written into the document |
| Export.RuleInDocument | src/App.jsx:165-182 | every rule of the style sheet is written into the document |
| Export.DeclarationInDocument | src/App.jsx:168-174 | every declaration of every rule is in the document, with the stored value interpolated verbatim and its px/deg suffix |
| Export.BaseRulesNotGallery | src/App.jsx:169-173 | none of the five base rules uses a gallery selector |
| Export.GalleryVariantsDisjoint | src/App.jsx:160-163 | the flex variant and the lone-image variant share no rule |
| Export.GalleryRules | src/App.jsx:160-163 | the flex row and thumbnail rules are chosen iff `parseInt(imageCount) > 1`, the lone-image rule iff not, so never both |
| Export.GalleryCssInDocument | src/App.jsx:160-174 | the chosen gallery variant's rules are written into the document |
| Export.GalleryCssIgnoresShowImage | src/App.jsx:160-163 | the gallery variant does not depend on `showImage` |
| Export.StyleBlock | src/App.jsx:160-174 | every rule of the style sheet, base and gallery, is written into the style block |
| Export.Document | src/App.jsx:165-182 | the document opens with the doctype and the style element, and holds the style block |
| Export.PageContainsStyle | src/App.jsx:165-175 | the document template contains the style block it is given |
| Export.PageOrder | src/App.jsx:177-182 | in the template, the nav piece, the banner piece and the start of the info piece come in that order |
| Export.BodyOrder | src/App.jsx:177-180 | the document holds the nav bar, then the banner, then the head of the info box (title and text), with the five text fields inserted verbatim |
| Export.PageContainsInfo | src/App.jsx:176-182 | the document template contains the info-box piece it is given |
| Export.DocumentHoldsImages | src/App.jsx:180 | the whole info box, closing tag included, is in the document, and so is the image fragment whenever `showImage` is "yes" |
| Preview.OrElse | src/App.jsx:312-314 | empty text gives the fallback, any other text is kept, and the result is non-empty when the fallback is |
| Preview.Render | src/App.jsx:312-321 | both headings show some text, at most three images are laid out with `imageSrc` first, and the grid is used exactly when there are several |
| Preview.PreviewPolicy | src/App.jsx:313-318 | each of the eleven gated properties shows the stored value with its unit when the tier unlocks it, and its fixed baseline otherwise |
| Preview.BasicShowsBaselines | src/App.jsx:313-318 | at the basic tier every gated property shows its baseline, whatever is stored |
| Preview.AdvancedShowsStored | src/App.jsx:313-318 | at the advanced tier every gated property shows the stored value with its unit |
| Preview.PreviewMonotone | src/App.jsx:313-318 | raising the tier never hides a stored value that was shown |
| Preview.UngatedAtEveryTier | src/App.jsx:313-315 | font family, text alignment, heading size and letter spacing show the stored values at every tier |
| Preview.TierChangesOnlyGated | src/App.jsx:312-321 | apart from the eleven gated properties, the preview is the same at every tier |
| Preview.HeadingsNeverEmpty | src/App.jsx:312-314 | an empty nav title shows "Untitled Site" and an empty banner title shows "Headline"; any other title is shown as typed, so neither heading is ever empty |
| Preview.PreviewImagesMatchExport | src/App.jsx:321 | the preview shows the same images as the exported fragment, in the same order, and uses the grid exactly when the export uses the gallery container; with `showImage` other than "yes" neither shows any |
| Preview.ExportedAsInRule | src/App.jsx:171-173 | each gated property has its counterpart declaration in the banner or info-box rule |
| Preview.AdvancedPreviewInDocument | src/App.jsx:313-318 | at the advanced tier, each gated preview value is what the exported document declares |
| Preview.LowerTierPreviewDiffersFromExport | src/App.jsx:313 | at the basic and the intermediate tier a stored height of 999 is exported as 999px but previewed as `auto` |
| App.Start | src/App.jsx:120-139 | a session starts at the basic tier with the record `Site.Load` gives for the stored blob, which is the defaults when nothing is stored |
| App.Run | src/App.jsx:120-150 | in a run of events the tier changes only through tier choices, and the record only through edits and resets |
| App.Step | src/App.jsx:145-150 | an edit changes only its field, a tier choice changes only the tier, and a reset restores every default |
| App.RawCodeIgnoresTier | src/App.jsx:152-183 | the exported code is identical at every tier |
| App.ChoosingTierKeepsRawCode | src/App.jsx:348 | choosing a tier never changes the exported code |
| App.LoweringTierIsReversible | src/App.jsx:313-318 | dropping to another tier and back restores the same preview, because stored values are kept |
| App.UntouchedFieldKept | src/App.jsx:145 | a field that no event edits or resets keeps its value through a run |
| App.LastEditWins | src/App.jsx:145 | an edit holds at the end of a run in which no later event touches that field |
| App.ResetAfterAnything | src/App.jsx:147-150 | after any events, a confirmed reset gives the defaults and the default document |
| Scenarios.DefaultsShowOneImage | src/App.jsx:153-163 | the default record exports one image, no gallery container, and the lone-image rule |
| Scenarios.CountTwoFragment | src/App.jsx:153-158 | a count that reads as 2 exports exactly the first two tags inside the gallery container |
| Scenarios.TwoImagesFragment | src/App.jsx:153-180 | with title "Test" and count "2", the info box holds the gallery container with exactly two tags, and the exported document contains that fragment |
| Scenarios.TwoImagesBody | src/App.jsx:178-180 | with title "Test", the banner heading `<h1>Test</h1>` lies between the nav bar and the info box |
| Scenarios.CountThreeOrMore | src/App.jsx:155-156 | a count that reads as 3 or more shows all three sources |
| Scenarios.SevenImagesShowThree | src/App.jsx:155-157 | count "7" shows three images in the gallery |
| Scenarios.CountNaN | src/App.jsx:155-157 | a count that reads as NaN shows only the first image, without the gallery |
| Scenarios.TextImageCountShowsOne | src/App.jsx:155-157 | count "abc" shows only the first image, without the gallery |

## Left out

- React widgets: `AutoWidthInput`, `StyledSelect`, `LevelBadge`, `CSSProp` and the Tailwind class strings are presentation only. `AutoWidthInput` measures the DOM.
- Editor-panel JSX (lines 190-305, with its tier checks at lines 279-290) is UI. Its field-to-tier table also differs from the preview's gating; only the preview's gating is modelled.
- Persistence: `localStorage` reads and writes and `JSON.parse` are I/O and a foreign parser. `Site.Load` takes the stored blob and the parser as parameters. Saving after each change (line 142) is not modelled.
- Site.Load: a parsed record with missing or extra keys, or with values that are not strings (a `null` title, a numeric image count), cannot be represented, because the record type is total and every field is a string. The code would use such a record as is, and the model does not claim otherwise.
- UI state: the tab, full-screen, sidebar and modal flags, the clipboard copy and the `alert` (lines 122-126 and 328-354) are browser chrome.
- The image `onError` placeholder substitution (line 321) is a DOM event handler. It never changes the configuration or the export.
- Plain text in the preview (subtitle, info title and text, inline `fontFamily` on the paragraphs) is not part of `Preview.Styles`. It is shown verbatim.
- Export.BodyOrder and Export.RenderImagesShape: the number of `<img>` tags is stated on the list of filled slots, not by counting `<img` in the document text. Interpolated fields are unescaped and may themselves contain that text.
- Export.GalleryRules: "never both variants" is stated on the rule list, not as the absence of a rule's text from the document. User fields are interpolated verbatim and could spell out the other variant.
- Number precision: parsed values are unbounded integers. The double rounding of very long digit runs is not modelled; it cannot change a comparison with 1, 2 or 3.
