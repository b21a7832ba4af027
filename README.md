# Product landing-page generator and record editor (Dafny model)

This project models the two pieces of the quickpage-glow editor that hold its logic:

- **The landing-page generator** (`Generator`, in `generator.dfy`). It maps a product record to a standalone HTML document.
  - `Sanitize` escapes `<` and `>`. The model keeps the source's chained global `replace` and proves it equal to escaping each character on its own.
  - The font family is checked against a fixed allow-list of five to decide whether a web-font `<link>` is emitted.
  - The hero CSS depends on the layout, and only `centered` gets its own rules.
  - The hero section is a sequence of blocks. Their order depends on the layout. At most one image block appears, and it uses the first image.
  - The features section has one card per entry, labelled `Feature N`.
  - The testimonials section sits behind a two-stage gate: the first entry's quote must be non-empty, then at least one entry must have both a quote and an author. When shown, it ends with three fixed trust badges.
  - `BuildPage` gives the document as a structure (`Page`, `Section`, `HeroBlock`, cards). `GenerateHTML` renders that structure to the document string.
  - `GenerateReactCode` is the placeholder component source. It depends only on the name.
  - `DownloadFileName` is the filename chosen for each export kind.
- **The record-editing operations** (`Editor`, in `editor.dfy`).
  - Each handler is a pure update of the `ProductData` record. Its contract says which field changes, and `SameExcept` says every other field stays the same, with fields read through `Get`.
  - `ProductEditor` is a class that holds the current record. It has one method per handler, and each method's new state is stated by the update function it applies. `Valid()` says the feature list and the testimonial list are never empty, and every method keeps it.
  - Handlers that copy an array and assign into one slot do the same in the model, on a fresh `array`.
  - The image-upload loop is a method with a loop invariant.

`product.dfy` holds the record types: `Layout`, `ExportFormat`, `Testimonial` and `ProductData`. `text.dfy` holds helpers: single-character global replace, decimal rendering of numbers, substring and subsequence predicates.

Inputs that come from outside the functions are parameters:
- The copyright year, which the source reads from the clock, is a parameter of `BuildPage` and `GenerateHTML`.
- A file's MIME type and the data URL its reader produces are fields of `ImageFile`.

The testimonials gate at `src/utils/generator.ts:412` reads only the first entry's quote. A complete entry further down is not shown when the first quote is empty. `TestimonialGateReadsFirstOnly` states this behaviour.

## Model

| member | source | states |
|---|---|---|
| `Generator.Sanitize` | src/utils/generator.ts:21-24 | the result is the input with each character escaped on its own (`<` to `&lt;`, `>` to `&gt;`, others kept in order); it contains no `<` or `>`; empty stays empty |
| `Generator.ChainedReplaceIsCharwise` | src/utils/generator.ts:23 | replacing all `<` first and then all `>` equals per-character escaping (the `&lt;` inserted first is never touched by the second pass) |
| `Generator.SanitizeIdempotent` | src/utils/generator.ts:21-24 | sanitising twice equals sanitising once |
| `Generator.SanitizeFixedPoint` | src/utils/generator.ts:21-24 | sanitising leaves a text unchanged if and only if it has no angle bracket |
| `Generator.SanitizeAppend` | src/utils/generator.ts:23 | sanitising a concatenation is the concatenation of the sanitised parts |
| `Generator.FontImport` | src/utils/generator.ts:27-38 | the font link is non-empty exactly when the family is one of Inter, Playfair Display, Roboto, Montserrat, Poppins, and for those it is the stylesheet `<link>` to the web-font URL whose query is `FontQuery` of that family |
| `Generator.FontQuery` | src/utils/generator.ts:27-38 | the query is empty exactly for a family outside the allow-list; for an allow-listed family it starts with the family's URL name followed by `:wght@` |
| `Generator.FontUrlName` | src/utils/generator.ts:31 | every family other than Playfair Display appears in the URL as written (Playfair Display becomes `Playfair+Display`) |
| `Generator.FontWeights` | src/utils/generator.ts:29-37 | the weights requested: `400;500;700` for Playfair Display, `300;400;500;700` for Roboto, `300;400;500;600;700` for Inter, Montserrat and Poppins |
| `Generator.PlayfairQueryExample` | src/utils/generator.ts:31 | the Playfair Display query is `Playfair+Display:wght@400;500;700` |
| `Generator.FontResolution` | src/utils/generator.ts:26-48 | in the built page the link is present iff the family is allow-listed, and the CSS font value is the family verbatim followed by `, system-ui, sans-serif` for every family |
| `Generator.HeroStyleFor` | src/utils/generator.ts:126-141 | `centered` gives column / center / center plus the width rules `max-width: 700px; margin: 0 auto;` for the content and `max-width: 500px; margin: 0 auto;` for the image; every other layout gives row / space-between / left and empty width rules |
| `Generator.OnlyCenteredHasOwnCss` | src/utils/generator.ts:126-141 | for records equal apart from layout, the variable parts of the style sheets (`BuildCss`) are equal exactly when both or neither layout is `centered`, so `split` and `zigzag` share CSS |
| `Generator.BuildCss` | src/utils/generator.ts:41-142 | no contract of its own: the variable part of the style sheet, stated by `FontResolution` (font stack), `RawValues` (colours), `HeroStyleFor` and `OnlyCenteredHasOwnCss` (hero rules) |
| `Generator.HeroSection` | src/utils/generator.ts:334-385 | one content block, plus an image block exactly when there are images, at position 0 for `split` and 1 otherwise; the image block is `images[0]` with the sanitised name as alt; the content block carries the sanitised category, name, description, price and call to action |
| `Generator.FeatureCards` | src/utils/generator.ts:389-399 | exactly one card per feature, in order; card k is titled `Feature k+1` and its text is the sanitised feature, even when empty |
| `Generator.FeatureTitleInjective` | src/utils/generator.ts:396 | different positions get different `Feature N` labels |
| `Generator.FeaturesSection` | src/utils/generator.ts:388-409 | the features section is present iff the feature list is non-empty, and then holds the cards above |
| `Generator.CompleteOnly` | src/utils/generator.ts:413-414 | the filter keeps only entries with non-empty quote and author, as a subsequence of the input (order kept), and keeps as many as there are such entries |
| `Generator.TestimonialCards` | src/utils/generator.ts:415-420 | one card per kept entry, in order, with sanitised quote and author |
| `Generator.RenderTestimonialCards` | src/utils/generator.ts:422 | the joined items are the empty string exactly when there are no cards, so the inner `if (testimonialItems)` test is the same as "some card remains" |
| `Generator.TestimonialsSection` | src/utils/generator.ts:412-452 | the section is present iff the list is non-empty, the first quote is non-empty and some entry has both quote and author; it then holds the kept entries' cards in order followed by the three trust badges |
| `Generator.TestimonialGateReadsFirstOnly` | src/utils/generator.ts:412 | with an empty first quote the section is absent, whatever the later entries hold |
| `Generator.TestimonialGateKeepsLaterEntries` | src/utils/generator.ts:412-422 | an incomplete first entry with a quote does not hide a complete later entry: the section shows just that entry |
| `Generator.PageSections` | src/utils/generator.ts:478-482 | `<main>` holds the hero first, then the features section iff there are features, then the testimonials section iff its gate passes; its length is one plus the sizes of the two optional sections, so nothing else is there |
| `Generator.BuildPage` | src/utils/generator.ts:329-482 | no contract of its own: the document as a structure, stated by `PageSections`, `FontResolution`, `RawValues` and `PageTextIsSanitized` |
| `Generator.RawValues` | src/utils/generator.ts:344-347 | the image URL `images[0]` reaches the hero as given, and the primary and secondary colours (lines 43-44) reach the style sheet as given, with no escaping |
| `Generator.PageTextIsSanitized` | src/utils/generator.ts:338-461 | the title and every body text slot (category, name, description, price, call to action, image alt, feature titles and texts, testimonial quotes and authors, badges) contain no angle bracket |
| `Generator.GenerateHTML` | src/utils/generator.ts:455-497 | the document starts with the fixed head and a title made of the sanitised name, and ends with the copyright line for the given year and the closing tags |
| `Generator.RenderTitle` | src/utils/generator.ts:456-461 | the head text is the fixed opening, the title and the fixed ` - Product Landing Page</title>`, and the title can be read back from between them |
| `Generator.RenderFooter` | src/utils/generator.ts:482-497 | the footer is the fixed opening, the year and the fixed closing; the part between them is decimal digits that read back as the year |
| `Generator.RenderSection` | src/utils/generator.ts:335-449 | no contract of its own: wraps the hero blocks, the feature cards or the testimonial cards and badges in their `<section>` markup; the contents are stated on the `Section` values |
| `Generator.RenderFeatureCards` | src/utils/generator.ts:389-399 | no contract of its own: joins one feature-card markup per card; the cards are stated by `FeatureCards` |
| `Generator.RenderBadges` | src/utils/generator.ts:429-447 | no contract of its own: one trust-badge element per badge; the badges are the three constants, stated by `TestimonialsSection` |
| `Generator.RenderHeroBlock` | src/utils/generator.ts:336-348 | no contract of its own: the markup of one hero block from its already sanitised fields; what goes into the fields is stated by `HeroSection` |
| `Generator.RenderTestimonialCard` | src/utils/generator.ts:416-419 | no contract of its own: the markup of one testimonial card; what goes into it is stated by `TestimonialCards` |
| `Generator.RenderCss` | src/utils/generator.ts:41-326 | no contract of its own: prints the `Css` values into the style sheet around the fixed rules; the values are stated by `BuildCss`'s lemmas |
| `Generator.RenderBody` | src/utils/generator.ts:462-483 | no contract of its own: font link, style sheet, header and the rendered sections; the sections are stated by `PageSections` |
| `Generator.TwoFeaturesExample` | src/utils/generator.ts:388-409 | features `["a", "b"]` give exactly two cards, `Feature 1` / `a` and `Feature 2` / `b` |
| `Generator.BlankTestimonialExample` | src/utils/generator.ts:412 | a single blank testimonial gives no section |
| `Generator.OneTestimonialExample` | src/utils/generator.ts:412-452 | a single entry `A` / `hi` gives one card `hi` / `A` and the three badges |
| `Generator.UnknownFontExample` | src/utils/generator.ts:27-38 | `Comic Sans` gets no font link |
| `Generator.UnknownFontStackExample` | src/utils/generator.ts:48 | `Comic Sans` is still the CSS family: `Comic Sans, system-ui, sans-serif` |
| `Generator.FirstImageOnlyExample` | src/utils/generator.ts:344-348 | with images `u1`, `u2` the hero shows `u1` and no image block uses anything else |
| `Generator.GenerateReactCode` | src/utils/generator.ts:500-517 | the stub is fixed text before and after the raw, unsanitised name |
| `Generator.ReactCodeIsNameOnly` | src/utils/generator.ts:509 | two records give the same stub if and only if their names are equal |
| `Generator.DownloadFileName` | src/utils/generator.ts:520-522 | `landing-page.html` exactly for the HTML export, `ProductLandingPage.jsx` exactly for the component export |
| `Text.NatToString` | src/utils/generator.ts:396 | a number in a template literal becomes a non-empty string of decimal digits with no leading zero (it starts with `0` only for zero) |
| `Text.ParseNatToString` | src/utils/generator.ts:396 | reading the digits back gives the number, so the rendering loses nothing |
| `Text.ReplaceAll` | src/utils/generator.ts:23 | a global replace of a character by a text that does not contain it leaves none of it, and a text without that character is returned unchanged |
| `Editor.InitialProductData` | src/components/ProductEditor.tsx:16-29 | the initial record is fully stated: empty name, description, price and category, no images, features `[""]`, one blank testimonial, call to action `Buy Now`, colours `#000000` / `#ffffff`, font `Inter`, layout `centered`; it satisfies the editing invariant |
| `Editor.FieldsDetermineRecord` | src/types/product.ts:5-18 | the twelve fields make up the whole record, so a frame condition over them pins down the result completely |
| `Editor.DropIndex` | src/components/ProductEditor.tsx:55 | the index filter removes exactly the element at the index, keeping the rest in order, and removes nothing when the index is past the end |
| `Editor.SetText` | src/components/ProductEditor.tsx:39-42 | the named text input's field takes the value; every other field is unchanged |
| `Editor.SetCategory` | src/components/ProductEditor.tsx:207 | the category takes the value; every other field is unchanged |
| `Editor.SetColor` | src/components/ProductEditor.tsx:80-82 | the chosen colour field takes the value; every other field is unchanged |
| `Editor.SetLayout` | src/components/ProductEditor.tsx:84-86 | the layout takes the value; every other field is unchanged |
| `Editor.SetFont` | src/components/ProductEditor.tsx:88-90 | the font family takes the value verbatim; every other field is unchanged |
| `Editor.SetFeature` | src/components/ProductEditor.tsx:44-48 | the feature list keeps its length, holds the value at the index and is unchanged at every other index; no other field changes |
| `Editor.FeatureAdded` | src/components/ProductEditor.tsx:50-52 | the feature list grows by one blank entry at the end and its prefix is unchanged; no other field changes |
| `Editor.FeatureRemoved` | src/components/ProductEditor.tsx:54-57 | exactly the entry at the index is removed, the others keep their order, and a list left empty becomes `[""]`, so the list is never empty; no other field changes |
| `Editor.SetTestimonial` | src/components/ProductEditor.tsx:59-63 | only the chosen part (author or quote) of the entry at the index changes; other entries, the length and all other fields are unchanged |
| `Editor.TestimonialAdded` | src/components/ProductEditor.tsx:65-70 | a blank entry is appended and the earlier entries are unchanged; no other field changes |
| `Editor.TestimonialRemoved` | src/components/ProductEditor.tsx:72-78 | exactly the entry at the index is removed and a list left empty becomes one blank entry, so the list is never empty; no other field changes |
| `Editor.ImageRemoved` | src/components/ProductEditor.tsx:132-135 | exactly the image at the index is removed and the rest keep their order; the list may become empty; no other field changes |
| `Editor.MatchesImageTypeMeaning` | src/components/ProductEditor.tsx:116 | the `image.*` regular-expression test holds exactly when `image` occurs somewhere in the MIME type (the pattern is unanchored) |
| `Editor.MatchesImageType` | src/components/ProductEditor.tsx:116 | a match needs at least five characters, and a type starting with `image` matches; its full meaning is stated by `MatchesImageTypeMeaning` |
| `Editor.AcceptedImages` | src/components/ProductEditor.tsx:115-127 | no contract of its own: the data URLs appended for a selection; `AcceptedImagesSingle` and `AcceptedImagesAppend` pin it down (one URL for an accepted file, none otherwise, and concatenation is preserved), `AcceptedFileAppended` and `RejectedFileIgnored` state it per file, `AcceptedImagesProvenance` says where each URL comes from |
| `Editor.AcceptedImagesSingle` | src/components/ProductEditor.tsx:116-125 | one file gives its data URL exactly when it passes the type test and its reader result is non-empty, and nothing otherwise |
| `Editor.AcceptedImagesAppend` | src/components/ProductEditor.tsx:115 | the URLs for two selections in a row are the URLs of the first followed by those of the second, so file order is kept |
| `Editor.AcceptedFileAppended` | src/components/ProductEditor.tsx:123-125 | an accepted file's data URL is appended in its place: after the URLs of the files before it and before those of the files after it |
| `Editor.AcceptedImagesProvenance` | src/components/ProductEditor.tsx:115-127 | every appended image is the data URL of a file that passed the type test and produced a non-empty result |
| `Editor.RejectedFileIgnored` | src/components/ProductEditor.tsx:116-119 | a file failing the type test contributes nothing: dropping it from the selection gives the same appended images |
| `Editor.CollectUploads` | src/components/ProductEditor.tsx:112-129 | the loop yields the current images followed by the accepted files' data URLs in file order |
| `Editor.ProductEditor.constructor` | src/components/ProductEditor.tsx:36 | the editor starts with the initial record, in a valid state |
| `Editor.ProductEditor.HandleChange` | src/components/ProductEditor.tsx:39-42 | the new record is `SetText` of the old one; the invariant is kept |
| `Editor.ProductEditor.HandleCategoryChange` | src/components/ProductEditor.tsx:205-208 | the new record is `SetCategory` of the old one; the invariant is kept |
| `Editor.ProductEditor.HandleFeatureChange` | src/components/ProductEditor.tsx:44-48 | copies the features into a fresh array, assigns one slot, and stores the copy; the new record is `SetFeature` of the old one |
| `Editor.ProductEditor.AddFeature` | src/components/ProductEditor.tsx:50-52 | the new record is `FeatureAdded` of the old one; the invariant is kept |
| `Editor.ProductEditor.RemoveFeature` | src/components/ProductEditor.tsx:54-57 | the new record is `FeatureRemoved` of the old one; the invariant is kept |
| `Editor.ProductEditor.HandleTestimonialChange` | src/components/ProductEditor.tsx:59-63 | copies the entries into a fresh array, rewrites one part of one slot, and stores the copy; the new record is `SetTestimonial` of the old one |
| `Editor.ProductEditor.AddTestimonial` | src/components/ProductEditor.tsx:65-70 | the new record is `TestimonialAdded` of the old one; the invariant is kept |
| `Editor.ProductEditor.RemoveTestimonial` | src/components/ProductEditor.tsx:72-78 | the new record is `TestimonialRemoved` of the old one; the invariant is kept |
| `Editor.ProductEditor.HandleColorChange` | src/components/ProductEditor.tsx:80-82 | the new record is `SetColor` of the old one; the invariant is kept |
| `Editor.ProductEditor.HandleLayoutChange` | src/components/ProductEditor.tsx:84-86 | the new record is `SetLayout` of the old one; the invariant is kept |
| `Editor.ProductEditor.HandleFontChange` | src/components/ProductEditor.tsx:88-90 | the new record is `SetFont` of the old one; the invariant is kept |
| `Editor.ProductEditor.HandleImageUpload` | src/components/ProductEditor.tsx:112-130 | only the image list changes: it becomes the old images followed by the accepted files' data URLs |
| `Editor.ProductEditor.RemoveImage` | src/components/ProductEditor.tsx:132-135 | the new record is `ImageRemoved` of the old one; the invariant is kept |

## Left out

- The download side effects of `downloadCode` (Blob, object URL, anchor click, deferred clean-up, `src/utils/generator.ts:524-537`) are browser I/O. Only the filename choice is modelled.
- The current year (`src/utils/generator.ts:492`) comes from the clock. It is a parameter of the model.
- Reading files through `FileReader` (`src/components/ProductEditor.tsx:121-128`) is asynchronous, and its completion order is not fixed. `HandleImageUpload` models all reads as finished, synchronously, in file order. It also does not model that each completion stores the shared `newImages` copy over whatever the record held in between.
- Six handlers compute their new list from `product` as it was at render time and then merge that list into the latest state: `handleFeatureChange` (`src/components/ProductEditor.tsx:45`), `removeFeature` (55), `handleTestimonialChange` (60), `removeTestimonial` (73), `handleImageUpload` (113) and `removeImage` (133). The model applies each of them to the current record, so it does not capture an update that arrives between the render and the merge and is then overwritten. The other handlers read only the latest state, and for them the model is exact.
- `Editor.SetFeature`, `Editor.SetTestimonial` and the methods that call them require an index inside the list. The editor only passes the indices of the rows it renders. An index past the end would leave holes in the JavaScript array, which the model does not represent.
- JavaScript truthiness of absent values is not modelled. Every string field is a string, possibly empty, so `!str` and `t.content && t.author` become empty-string tests.
- `handleChange` is modelled for the four inputs wired to it (name, description, price, call to action). It writes to whatever key the event names, and no other key is reachable from the form.
- Toasts, drag-hover state (`src/components/ProductEditor.tsx:92-110`), the preview and export pass-throughs (`src/components/ProductEditor.tsx:137-145`), writing the document into the preview iframe, the page-level export dispatch and the purely visual components are UI plumbing. They are not part of this model.
- The fixed CSS rules and the SVG icons are opaque constants (`CssLeadingRules`, `CssTrailingRules`, `FeatureIcon`, `BadgeIcon`). The indentation and line breaks of the template literals are not reproduced. Only the variable parts of the text and its tag structure are modelled.
- `Generator.GenerateHTML` states the document's opening (head and title) and its ending (copyright year). It does not state the whole string. The section contents are stated on the `BuildPage` structure that it renders.
