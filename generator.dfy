/**
 * The landing-page generator. `BuildPage` gives the document's structure:
 * the title, the font link, the variable parts of the style sheet and the
 * hero, features and testimonials sections in the order they are
 * concatenated; `GenerateHTML` renders that structure to the document
 * string. Long fixed CSS and SVG text is kept as opaque constants.
 * The copyright year, read from the clock by the application, is a
 * parameter.
 */
module Generator {
  import opened Text
  import opened Product

  // ---------------------------------------------------------------------
  // Sanitising text for HTML
  // ---------------------------------------------------------------------

  predicate NoAngleBrackets(s: string)
  {
    '<' !in s && '>' !in s
  }

  /** The entity a single character is replaced by, or the character itself. */
  function EscapeChar(c: char): string
  {
    if c == '<' then "&lt;" else if c == '>' then "&gt;" else [c]
  }

  /** Character-by-character escaping: the meaning of the chained replace. */
  function EscapeEach(s: string): string
  {
    if s == [] then [] else EscapeChar(s[0]) + EscapeEach(s[1..])
  }

  /**
   * The generator's only injection defence: an empty string stays empty,
   * otherwise `<` is replaced globally by `&lt;`, then `>` by `&gt;`.
   */
  function Sanitize(s: string): (r: string)
    ensures r == EscapeEach(s)
    ensures NoAngleBrackets(r)
  {
    ChainedReplaceIsCharwise(s);
    EscapeEachNoAngleBrackets(s);
    if s == "" then "" else ReplaceAll(ReplaceAll(s, '<', "&lt;"), '>', "&gt;")
  }

  /** Replacing `<` first and `>` second escapes each character on its own. */
  lemma {:induction false} ChainedReplaceIsCharwise(s: string)
    ensures ReplaceAll(ReplaceAll(s, '<', "&lt;"), '>', "&gt;") == EscapeEach(s)
  {
    if s != [] {
      var head := if s[0] == '<' then "&lt;" else [s[0]];
      assert ReplaceAll(s, '<', "&lt;") == head + ReplaceAll(s[1..], '<', "&lt;");
      ReplaceAllAppend(head, ReplaceAll(s[1..], '<', "&lt;"), '>', "&gt;");
      if s[0] == '<' {
        assert ReplaceAll("&lt;", '>', "&gt;") == "&lt;";
      } else {
        assert ReplaceAll([s[0]], '>', "&gt;") == EscapeChar(s[0]);
      }
      ChainedReplaceIsCharwise(s[1..]);
    }
  }

  lemma {:induction false} EscapeEachNoAngleBrackets(s: string)
    ensures NoAngleBrackets(EscapeEach(s))
  {
    if s != [] {
      EscapeEachNoAngleBrackets(s[1..]);
    }
  }

  /** Escaping leaves text without angle brackets exactly as it is. */
  lemma {:induction false} EscapeEachIdentity(s: string)
    requires NoAngleBrackets(s)
    ensures EscapeEach(s) == s
  {
    if s != [] {
      assert s == [s[0]] + s[1..];
      assert s[0] in s;
      assert forall c :: c in s[1..] ==> c in s;
      EscapeEachIdentity(s[1..]);
    }
  }

  lemma {:induction false} EscapeEachAppend(a: string, b: string)
    ensures EscapeEach(a + b) == EscapeEach(a) + EscapeEach(b)
  {
    if a != [] {
      assert (a + b)[0] == a[0];
      assert (a + b)[1..] == a[1..] + b;
      EscapeEachAppend(a[1..], b);
    } else {
      assert a + b == b;
    }
  }

  /** Sanitising an already sanitised text changes nothing. */
  lemma SanitizeIdempotent(s: string)
    ensures Sanitize(Sanitize(s)) == Sanitize(s)
  {
    EscapeEachIdentity(Sanitize(s));
  }

  /** A text survives sanitising unchanged exactly when it has no angle bracket. */
  lemma SanitizeFixedPoint(s: string)
    ensures Sanitize(s) == s <==> NoAngleBrackets(s)
  {
    if NoAngleBrackets(s) {
      EscapeEachIdentity(s);
    }
  }

  /** Sanitising works piecewise: the text around each bracket is kept in order. */
  lemma SanitizeAppend(a: string, b: string)
    ensures Sanitize(a + b) == Sanitize(a) + Sanitize(b)
  {
    EscapeEachAppend(a, b);
  }

  // ---------------------------------------------------------------------
  // Font import and the style sheet
  // ---------------------------------------------------------------------

  const AllowedFonts: seq<string> := ["Inter", "Playfair Display", "Roboto", "Montserrat", "Poppins"]

  const FallbackFonts: string := ", system-ui, sans-serif"

  /** The family name as written in the web-font URL: the space becomes `+`. */
  function FontUrlName(fontFamily: string): (name: string)
    ensures fontFamily != "Playfair Display" ==> name == fontFamily
  {
    if fontFamily == "Playfair Display" then "Playfair+Display" else fontFamily
  }

  /** The weights requested for an allow-listed family. */
  function FontWeights(fontFamily: string): (w: string)
    ensures fontFamily == "Playfair Display" ==> w == "400;500;700"
    ensures fontFamily == "Roboto" ==> w == "300;400;500;700"
    ensures fontFamily in ["Inter", "Montserrat", "Poppins"] ==> w == "300;400;500;600;700"
  {
    if fontFamily == "Playfair Display" then "400;500;700"
    else if fontFamily == "Roboto" then "300;400;500;700"
    else "300;400;500;600;700"
  }

  /** The `family` query of the web-font URL for an allow-listed family, empty otherwise. */
  function FontQuery(fontFamily: string): (q: string)
    ensures q == "" <==> fontFamily !in AllowedFonts
    ensures fontFamily in AllowedFonts ==> FontUrlName(fontFamily) + ":wght@" <= q
  {
    if fontFamily in AllowedFonts then FontUrlName(fontFamily) + ":wght@" + FontWeights(fontFamily) else ""
  }

  const FontLinkOpen: string := "<link rel=\"stylesheet\" href=\"https://fonts.googleapis.com/css2?family="
  const FontLinkClose: string := "&display=swap\">"

  /** The web-font `<link>` for an allow-listed family, empty for any other. */
  function FontImport(fontFamily: string): (link: string)
    ensures link != "" <==> fontFamily in AllowedFonts
    ensures fontFamily in AllowedFonts ==> link == FontLinkOpen + FontQuery(fontFamily) + FontLinkClose
  {
    var query := FontQuery(fontFamily);
    if query == "" then "" else FontLinkOpen + query + FontLinkClose
  }

  /** The layout-dependent declarations of `.hero`, `.hero-content` and `.hero-image`. */
  datatype HeroStyle = HeroStyle(
    flexDirection: string,
    justifyContent: string,
    textAlign: string,
    contentWidth: string,
    imageWidth: string)

  /** The variable part of the style sheet; the rest is fixed text. */
  datatype Css = Css(primaryColor: string, secondaryColor: string, fontStack: string, hero: HeroStyle)

  /** The width rules `.hero-content` and `.hero-image` get under `centered`. */
  const CenteredContentWidth: string := "max-width: 700px; margin: 0 auto;"
  const CenteredImageWidth: string := "max-width: 500px; margin: 0 auto;"

  /** Only `Centered` is told apart: it stacks and centres, every other layout is a row. */
  function HeroStyleFor(layout: Layout): (h: HeroStyle)
    ensures h.flexDirection == "column" <==> layout == Centered
    ensures h.flexDirection == "row" <==> layout != Centered
    ensures h.justifyContent == (if layout == Centered then "center" else "space-between")
    ensures h.textAlign == (if layout == Centered then "center" else "left")
    ensures h.contentWidth == "" <==> layout != Centered
    ensures h.imageWidth == "" <==> layout != Centered
    ensures layout == Centered ==> h.contentWidth == CenteredContentWidth && h.imageWidth == CenteredImageWidth
  {
    if layout == Centered then
      HeroStyle("column", "center", "center", CenteredContentWidth, CenteredImageWidth)
    else
      HeroStyle("row", "space-between", "left", "", "")
  }

  function BuildCss(p: ProductData): Css
  {
    Css(p.primaryColor, p.secondaryColor, p.fontFamily + FallbackFonts, HeroStyleFor(p.layout))
  }

  /** `split` and `zigzag` get the same style sheet, and it differs from `centered`'s. */
  lemma OnlyCenteredHasOwnCss(p: ProductData, q: ProductData)
    requires p.(layout := Centered) == q.(layout := Centered)
    ensures BuildCss(p) == BuildCss(q) <==> (p.layout == Centered <==> q.layout == Centered)
  {
    assert p.primaryColor == q.primaryColor && p.secondaryColor == q.secondaryColor;
    assert p.fontFamily == q.fontFamily;
  }

  // ---------------------------------------------------------------------
  // Document structure
  // ---------------------------------------------------------------------

  /** A block of the hero section. */
  datatype HeroBlock =
    | Content(category: string, name: string, description: string, price: string, callToAction: string)
    | Image(src: string, alt: string)

  datatype FeatureCard = FeatureCard(title: string, text: string)

  datatype TestimonialCard = TestimonialCard(quote: string, author: string)

  datatype Section =
    | Hero(blocks: seq<HeroBlock>)
    | Features(featureCards: seq<FeatureCard>)
    | Testimonials(testimonialCards: seq<TestimonialCard>, badges: seq<string>)

  /** A whole document: head, the sections inside `<main>`, and the footer's year. */
  datatype Page = Page(title: string, fontImport: string, css: Css, main: seq<Section>, year: nat)

  const TrustBadges: seq<string> := ["Secure Checkout", "Free Shipping", "30-Day Return"]

  /** The text block of the hero: every field sanitised. */
  function HeroContent(p: ProductData): HeroBlock
  {
    Content(Sanitize(p.category), Sanitize(p.name), Sanitize(p.description), Sanitize(p.price), Sanitize(p.callToAction))
  }

  /**
   * The hero: the text block, plus an image block only when there is an
   * image, using the first one; `split` puts the image first.
   */
  function HeroSection(p: ProductData): (blocks: seq<HeroBlock>)
    ensures |blocks| == if |p.images| > 0 then 2 else 1
    ensures var i := if p.layout == Split && |p.images| > 0 then 1 else 0;
            blocks[i] == HeroContent(p)
    ensures |p.images| > 0 ==> (blocks[0].Image? <==> p.layout == Split)
    ensures forall k :: 0 <= k < |blocks| && blocks[k].Image? ==>
              blocks[k] == Image(p.images[0], Sanitize(p.name))
    ensures forall k :: 0 <= k < |blocks| && blocks[k].Content? ==> blocks[k] == HeroContent(p)
    ensures |p.images| > 0 ==> blocks[if p.layout == Split then 0 else 1] == Image(p.images[0], Sanitize(p.name))
  {
    var content := HeroContent(p);
    if |p.images| == 0 then [content]
    else
      var image := Image(p.images[0], Sanitize(p.name));
      match p.layout
      case Centered => [content, image]
      case Split => [image, content]
      case Zigzag => [content, image]
  }

  /** The label a feature card gets for its 1-based position. */
  function FeatureTitle(n: nat): string
  {
    "Feature " + NatToString(n)
  }

  /** Distinct positions get distinct labels. */
  lemma FeatureTitleInjective(m: nat, n: nat)
    requires FeatureTitle(m) == FeatureTitle(n)
    ensures m == n
  {
    assert NatToString(m) == FeatureTitle(m)[8..];
    NatToStringInjective(m, n);
  }

  /** One card per feature, in order, labelled by position, even when the text is empty. */
  function FeatureCards(features: seq<string>): (cards: seq<FeatureCard>)
    ensures |cards| == |features|
    ensures forall k :: 0 <= k < |cards| ==>
              cards[k].title == FeatureTitle(k + 1) && cards[k].text == Sanitize(features[k])
  {
    seq(|features|, k requires 0 <= k < |features| => FeatureCard(FeatureTitle(k + 1), Sanitize(features[k])))
  }

  function FeaturesSection(features: seq<string>): (s: seq<Section>)
    ensures s != [] <==> |features| > 0
    ensures s != [] ==> s == [Features(FeatureCards(features))]
  {
    if |features| > 0 then [Features(FeatureCards(features))] else []
  }

  /** The per-entry filter: both the quote and the author are non-empty. */
  predicate Complete(t: Testimonial)
  {
    t.content != "" && t.author != ""
  }

  function CountComplete(ts: seq<Testimonial>): nat
  {
    if ts == [] then 0 else (if Complete(ts[0]) then 1 else 0) + CountComplete(ts[1..])
  }

  lemma {:induction false} CountCompletePositive(ts: seq<Testimonial>)
    ensures CountComplete(ts) > 0 <==> exists k :: 0 <= k < |ts| && Complete(ts[k])
  {
    if ts != [] {
      CountCompletePositive(ts[1..]);
      if exists k :: 0 <= k < |ts| && Complete(ts[k]) {
        var k :| 0 <= k < |ts| && Complete(ts[k]);
        if k > 0 {
          assert Complete(ts[1..][k - 1]);
        }
      }
      if exists k :: 0 <= k < |ts[1..]| && Complete(ts[1..][k]) {
        var k :| 0 <= k < |ts[1..]| && Complete(ts[1..][k]);
        assert Complete(ts[k + 1]);
      }
    }
  }

  /** `filter(t => t.content && t.author)`: the complete entries, in their order. */
  function CompleteOnly(ts: seq<Testimonial>): (kept: seq<Testimonial>)
    ensures forall k :: 0 <= k < |kept| ==> Complete(kept[k])
    ensures IsSubsequence(kept, ts)
    ensures |kept| == CountComplete(ts)
  {
    if ts == [] then []
    else if Complete(ts[0]) then [ts[0]] + CompleteOnly(ts[1..])
    else CompleteOnly(ts[1..])
  }

  function TestimonialCardOf(t: Testimonial): TestimonialCard
  {
    TestimonialCard(Sanitize(t.content), Sanitize(t.author))
  }

  function TestimonialCards(kept: seq<Testimonial>): (cards: seq<TestimonialCard>)
    ensures |cards| == |kept|
    ensures forall k :: 0 <= k < |kept| ==> cards[k] == TestimonialCardOf(kept[k])
  {
    seq(|kept|, k requires 0 <= k < |kept| => TestimonialCardOf(kept[k]))
  }

  /**
   * The two-stage gate: the section is attempted only when the first
   * entry has a quote, and kept only when the filter leaves a card; it
   * then always ends with the three trust badges.
   */
  function TestimonialsSection(ts: seq<Testimonial>): (s: seq<Section>)
    ensures s != [] <==>
      |ts| > 0 && ts[0].content != "" && exists k :: 0 <= k < |ts| && Complete(ts[k])
    ensures s != [] ==> s == [Testimonials(TestimonialCards(CompleteOnly(ts)), TrustBadges)]
  {
    CountCompletePositive(ts);
    if |ts| > 0 && ts[0].content != "" then
      var items := TestimonialCards(CompleteOnly(ts));
      if items != [] then [Testimonials(items, TrustBadges)] else []
    else
      []
  }

  /** The whole document for a record, the copyright year given. */
  function BuildPage(p: ProductData, year: nat): Page
  {
    Page(Sanitize(p.name), FontImport(p.fontFamily), BuildCss(p),
         [Hero(HeroSection(p))] + FeaturesSection(p.features) + TestimonialsSection(p.testimonials),
         year)
  }

  // ---------------------------------------------------------------------
  // Properties of the document structure
  // ---------------------------------------------------------------------

  /**
   * The hero comes first, then the features section exactly when there
   * are features, then the testimonials section exactly when the gate
   * passes; nothing else is in `<main>`.
   */
  lemma PageSections(p: ProductData, year: nat)
    ensures var m := BuildPage(p, year).main;
      && 1 <= |m| <= 3
      && |m| == 1 + |FeaturesSection(p.features)| + |TestimonialsSection(p.testimonials)|
      && m[0] == Hero(HeroSection(p))
      && (|p.features| > 0 <==> |m| > 1 && m[1].Features?)
      && (|m| > 1 && m[1].Features? ==> m[1].featureCards == FeatureCards(p.features))
      && (TestimonialsSection(p.testimonials) != [] <==> m[|m| - 1].Testimonials?)
      && (m[|m| - 1].Testimonials? ==> m[|m| - 1] == TestimonialsSection(p.testimonials)[0])
  {
  }

  /**
   * The gate reads only the first entry's quote: a complete entry further
   * down is not shown when the first quote is empty.
   */
  lemma TestimonialGateReadsFirstOnly(first: Testimonial, rest: seq<Testimonial>)
    requires first.content == ""
    ensures TestimonialsSection([first] + rest) == []
  {
  }

  /** An incomplete first entry with a quote does not stop complete later ones. */
  lemma TestimonialGateKeepsLaterEntries(first: Testimonial, later: Testimonial)
    requires first.content != "" && first.author == "" && Complete(later)
    ensures TestimonialsSection([first, later]) ==
            [Testimonials([TestimonialCardOf(later)], TrustBadges)]
  {
    assert [first, later][1..] == [later];
    assert [later][1..] == [];
    assert CompleteOnly([first, later]) == [later];
    assert TestimonialCards([later]) == [TestimonialCardOf(later)];
  }

  /** The font link appears exactly for the allow-list; the CSS family is the field verbatim. */
  lemma FontResolution(p: ProductData, year: nat)
    ensures var page := BuildPage(p, year);
      && (page.fontImport != "" <==> p.fontFamily in AllowedFonts)
      && page.css.fontStack[..|p.fontFamily|] == p.fontFamily
      && page.css.fontStack[|p.fontFamily|..] == FallbackFonts
  {
  }

  /** Colours and image URLs are used as given, with no escaping. */
  lemma RawValues(p: ProductData, year: nat)
    ensures var page := BuildPage(p, year);
      && page.css.primaryColor == p.primaryColor
      && page.css.secondaryColor == p.secondaryColor
      && (|p.images| > 0 ==> Image(p.images[0], Sanitize(p.name)) in page.main[0].blocks)
  {
    var blocks := HeroSection(p);
    if |p.images| > 0 {
      var i := if p.layout == Split then 0 else 1;
      assert blocks[i].Image?;
    }
  }

  predicate SafeBlock(b: HeroBlock)
  {
    match b
    case Content(c, n, d, pr, cta) =>
      NoAngleBrackets(c) && NoAngleBrackets(n) && NoAngleBrackets(d) && NoAngleBrackets(pr) && NoAngleBrackets(cta)
    case Image(_, alt) => NoAngleBrackets(alt)
  }

  /** Every body text of a section is free of angle brackets. */
  predicate SafeSection(s: Section)
  {
    match s
    case Hero(blocks) => forall k :: 0 <= k < |blocks| ==> SafeBlock(blocks[k])
    case Features(cards) =>
      forall k :: 0 <= k < |cards| ==> NoAngleBrackets(cards[k].title) && NoAngleBrackets(cards[k].text)
    case Testimonials(cards, badges) =>
      && (forall k :: 0 <= k < |cards| ==> NoAngleBrackets(cards[k].quote) && NoAngleBrackets(cards[k].author))
      && (forall k :: 0 <= k < |badges| ==> NoAngleBrackets(badges[k]))
  }

  lemma DigitsHaveNoAngleBrackets(s: string)
    requires IsDigits(s)
    ensures NoAngleBrackets(s)
  {
    assert forall i :: 0 <= i < |s| ==> s[i] != '<' && s[i] != '>';
  }

  lemma HeroIsSafe(p: ProductData)
    ensures SafeSection(Hero(HeroSection(p)))
  {
  }

  lemma FeaturesAreSafe(features: seq<string>)
    ensures forall s :: s in FeaturesSection(features) ==> SafeSection(s)
  {
    if |features| > 0 {
      var cards := FeatureCards(features);
      forall k | 0 <= k < |cards|
        ensures NoAngleBrackets(cards[k].title)
      {
        DigitsHaveNoAngleBrackets(NatToString(k + 1));
        assert cards[k].title == "Feature " + NatToString(k + 1);
      }
      assert SafeSection(Features(cards));
    }
  }

  lemma BadgesAreSafe()
    ensures forall k :: 0 <= k < |TrustBadges| ==> NoAngleBrackets(TrustBadges[k])
  {
    assert NoAngleBrackets(TrustBadges[0]);
    assert NoAngleBrackets(TrustBadges[1]);
    assert NoAngleBrackets(TrustBadges[2]);
  }

  lemma TestimonialsAreSafe(ts: seq<Testimonial>)
    ensures forall s :: s in TestimonialsSection(ts) ==> SafeSection(s)
  {
    var t := TestimonialsSection(ts);
    if t != [] {
      var cards := TestimonialCards(CompleteOnly(ts));
      assert t[0] == Testimonials(cards, TrustBadges);
      BadgesAreSafe();
      assert SafeSection(t[0]);
    }
  }

  /**
   * No user text reaches the document body or the title without being
   * sanitised: no angle bracket can come from any of them.
   */
  lemma PageTextIsSanitized(p: ProductData, year: nat)
    ensures var page := BuildPage(p, year);
      NoAngleBrackets(page.title) && forall k :: 0 <= k < |page.main| ==> SafeSection(page.main[k])
  {
    var page := BuildPage(p, year);
    HeroIsSafe(p);
    FeaturesAreSafe(p.features);
    TestimonialsAreSafe(p.testimonials);
    forall k | 0 <= k < |page.main|
      ensures SafeSection(page.main[k])
    {
      assert page.main[k] in page.main;
    }
  }

  // ---------------------------------------------------------------------
  // Rendering the document text
  // ---------------------------------------------------------------------

  const DocumentOpen: string :=
    "<!DOCTYPE html><html lang=\"en\"><head><meta charset=\"UTF-8\">"
    + "<meta name=\"viewport\" content=\"width=device-width, initial-scale=1.0\"><title>"
  const TitleClose: string := " - Product Landing Page</title>"
  const HeaderNav: string :=
    "</head><body><header><nav><div class=\"logo\">Brand</div><div class=\"nav-links\">"
    + "<a href=\"#\">Home</a><a href=\"#\">Features</a><a href=\"#\">Testimonials</a>"
    + "<a href=\"#\">Contact</a></div></nav></header><main>"
  const FooterOpen: string :=
    "</main><footer><div class=\"footer-content\"><div class=\"logo\">Brand</div>"
    + "<div class=\"footer-links\"><a href=\"#\">Privacy Policy</a><a href=\"#\">Terms of Service</a>"
    + "<a href=\"#\">Contact Us</a></div><div class=\"copyright\">\U{A9} "
  const FooterClose: string := " All Rights Reserved</div></div></footer></body></html>"

  /** Fixed rules before `.hero` (reset, body, header, nav, links, section, headings, paragraphs). */
  const CssLeadingRules: string := "/* fixed rules: *, body, header, nav, .logo, .nav-links, section, h1, h2, p */"
  /** Fixed rules after `.hero-image` (image, price, badge, button, cards, footer, media query). */
  const CssTrailingRules: string := "/* fixed rules: .hero-image img, .price, .badge, .cta-button, .feature*, .testimonial*, .trust-badge*, footer, @media */"
  /** The check-circle icon, white on the feature cards. */
  const FeatureIcon: string := "<svg width=\"24\" height=\"24\" viewBox=\"0 0 24 24\"><path stroke=\"white\"/></svg>"
  /** The same icon in the text colour on the trust badges. */
  const BadgeIcon: string := "<svg width=\"20\" height=\"20\" viewBox=\"0 0 24 24\"><path stroke=\"currentColor\"/></svg>"

  function RenderCss(css: Css): string
  {
    ":root { --primary-color: " + css.primaryColor + "; --secondary-color: " + css.secondaryColor
    + "; --text-color: #333; --background-color: #fff; --muted-color: #f5f5f7; --font-family: "
    + css.fontStack + "; }" + CssLeadingRules
    + ".hero { display: flex; flex-direction: " + css.hero.flexDirection
    + "; align-items: center; justify-content: " + css.hero.justifyContent
    + "; text-align: " + css.hero.textAlign + "; min-height: 80vh; gap: 3rem; }"
    + ".hero-content { flex: 1; " + css.hero.contentWidth + " }"
    + ".hero-image { flex: 1; " + css.hero.imageWidth + " }"
    + CssTrailingRules
  }

  function RenderHeroBlock(b: HeroBlock): string
  {
    match b
    case Content(category, name, description, price, callToAction) =>
      "<div class=\"hero-content\"><div class=\"badge\">" + category + "</div><h1>" + name + "</h1><p>"
      + description + "</p><div class=\"price\">" + price + "</div><button class=\"cta-button\">"
      + callToAction + "</button></div>"
    case Image(src, alt) =>
      "<div class=\"hero-image\"><img src=\"" + src + "\" alt=\"" + alt + "\" /></div>"
  }

  function RenderHeroBlocks(blocks: seq<HeroBlock>): string
  {
    if blocks == [] then "" else RenderHeroBlock(blocks[0]) + RenderHeroBlocks(blocks[1..])
  }

  function RenderFeatureCards(cards: seq<FeatureCard>): string
  {
    if cards == [] then ""
    else
      "<div class=\"feature\"><div class=\"feature-icon\">" + FeatureIcon + "</div><div class=\"feature-title\">"
      + cards[0].title + "</div><p>" + cards[0].text + "</p></div>" + RenderFeatureCards(cards[1..])
  }

  function RenderTestimonialCard(c: TestimonialCard): string
  {
    "<div class=\"testimonial\"><div class=\"testimonial-content\">\"" + c.quote
    + "\"</div><div class=\"testimonial-author\">\U{2014} " + c.author + "</div></div>"
  }

  /** The joined testimonial items. */
  function RenderTestimonialCards(cards: seq<TestimonialCard>): (r: string)
    ensures r == "" <==> cards == []
  {
    if cards == [] then "" else RenderTestimonialCard(cards[0]) + RenderTestimonialCards(cards[1..])
  }

  function RenderBadges(badges: seq<string>): string
  {
    if badges == [] then ""
    else "<div class=\"trust-badge\">" + BadgeIcon + "<span>" + badges[0] + "</span></div>" + RenderBadges(badges[1..])
  }

  function RenderSection(s: Section): string
  {
    match s
    case Hero(blocks) => "<section class=\"hero\">" + RenderHeroBlocks(blocks) + "</section>"
    case Features(cards) =>
      "<section><h2>Key Features</h2><div class=\"features\">" + RenderFeatureCards(cards) + "</div></section>"
    case Testimonials(cards, badges) =>
      "<section class=\"testimonials\"><h2>What Our Customers Say</h2><div class=\"testimonial-grid\">"
      + RenderTestimonialCards(cards) + "</div><div class=\"trust-badges\">" + RenderBadges(badges)
      + "</div></section>"
  }

  function RenderSections(sections: seq<Section>): string
  {
    if sections == [] then "" else RenderSection(sections[0]) + RenderSections(sections[1..])
  }

  /** The head up to and including the title. */
  function RenderTitle(page: Page): (r: string)
    ensures |r| == |DocumentOpen| + |page.title| + |TitleClose|
    ensures DocumentOpen <= r && EndsWith(r, TitleClose)
    ensures r[|DocumentOpen|..|r| - |TitleClose|] == page.title
  {
    ConcatFrame(DocumentOpen, page.title, TitleClose);
    DocumentOpen + page.title + TitleClose
  }

  /** Font link, style sheet, header and the sections of `<main>`. */
  function RenderBody(page: Page): string
  {
    page.fontImport + "<style>" + RenderCss(page.css) + "</style>" + HeaderNav + RenderSections(page.main)
  }

  /** The end of `<main>`, the footer with the copyright year, and the closing tags. */
  function RenderFooter(page: Page): (r: string)
    ensures FooterOpen <= r && EndsWith(r, FooterClose)
    ensures |FooterOpen| + |FooterClose| < |r|
    ensures var digits := r[|FooterOpen|..|r| - |FooterClose|];
            IsDigits(digits) && ParseDecimal(digits) == page.year
  {
    var digits := NatToString(page.year);
    ConcatFrame(FooterOpen, digits, FooterClose);
    ParseNatToString(page.year);
    assert (FooterOpen + digits + FooterClose)[|FooterOpen|..|FooterOpen| + |digits|] == digits;
    FooterOpen + digits + FooterClose
  }

  /**
   * The landing-page document: it opens with the fixed head and the
   * sanitised name as title, and closes with the copyright line for the
   * given year.
   */
  function GenerateHTML(p: ProductData, year: nat): (html: string)
    ensures DocumentOpen + Sanitize(p.name) + TitleClose <= html
    ensures EndsWith(html, FooterOpen + NatToString(year) + FooterClose)
  {
    var page := BuildPage(p, year);
    var a, b, c := RenderTitle(page), RenderBody(page), RenderFooter(page);
    ConcatFrame(a, b, c);
    a + b + c
  }

  // ---------------------------------------------------------------------
  // Worked examples
  // ---------------------------------------------------------------------

  /** Two features give two cards labelled by position, whatever their text. */
  lemma TwoFeaturesExample()
    ensures FeaturesSection(["a", "b"]) ==
            [Features([FeatureCard("Feature 1", "a"), FeatureCard("Feature 2", "b")])]
  {
    var cards := FeatureCards(["a", "b"]);
    SanitizeFixedPoint("a");
    SanitizeFixedPoint("b");
    assert FeatureTitle(1) == "Feature 1" && FeatureTitle(2) == "Feature 2";
    assert cards[0] == FeatureCard("Feature 1", "a");
    assert cards[1] == FeatureCard("Feature 2", "b");
    assert cards == [FeatureCard("Feature 1", "a"), FeatureCard("Feature 2", "b")];
  }

  /** A single blank entry hides the section. */
  lemma BlankTestimonialExample()
    ensures TestimonialsSection([Testimonial("", "")]) == []
  {
  }

  /** One complete entry shows its card and the three badges. */
  lemma OneTestimonialExample()
    ensures TestimonialsSection([Testimonial("A", "hi")]) ==
            [Testimonials([TestimonialCard("hi", "A")], TrustBadges)]
  {
    var t := Testimonial("A", "hi");
    assert [t][1..] == [];
    assert CompleteOnly([t]) == [t];
    SanitizeFixedPoint("hi");
    SanitizeFixedPoint("A");
    assert TestimonialCards([t]) == [TestimonialCard("hi", "A")];
  }

  /** The two-word family is written with `+` in its query, followed by its three weights. */
  lemma PlayfairQueryExample()
    ensures FontQuery("Playfair Display") == "Playfair+Display:wght@400;500;700"
  {
    assert "Playfair Display" in AllowedFonts;
  }

  /** A family outside the allow-list gets no link... */
  lemma UnknownFontExample()
    ensures FontImport("Comic Sans") == ""
  {
    assert "Comic Sans"[0] != "Montserrat"[0];
    assert FontQuery("Comic Sans") == "";
  }

  /** ...but is still used verbatim ahead of the fallback stack. */
  lemma UnknownFontStackExample(p: ProductData)
    requires p.fontFamily == "Comic Sans"
    ensures BuildCss(p).fontStack == "Comic Sans, system-ui, sans-serif"
  {
  }

  /** With two images only the first reaches the hero. */
  lemma FirstImageOnlyExample(p: ProductData, year: nat)
    requires p.images == ["u1", "u2"]
    ensures Image("u1", Sanitize(p.name)) in BuildPage(p, year).main[0].blocks
    ensures forall b :: b in BuildPage(p, year).main[0].blocks && b.Image? ==> b.src == "u1"
  {
    RawValues(p, year);
  }

  // ---------------------------------------------------------------------
  // Component stub and export file names
  // ---------------------------------------------------------------------

  const ReactHead: string :=
    "\nimport React from 'react';\n\nconst ProductLandingPage = () => {\n  return (\n    <div>\n      <h1>"
  const ReactTail: string :=
    "</h1>\n      <p>React component code would be generated here</p>\n    </div>\n  );\n};\n\nexport default ProductLandingPage;\n  "

  /** The placeholder component source: fixed text around the raw, unsanitised name. */
  function GenerateReactCode(p: ProductData): (code: string)
    ensures |code| == |ReactHead| + |p.name| + |ReactTail|
    ensures code[..|ReactHead|] == ReactHead
    ensures code[|ReactHead|..|ReactHead| + |p.name|] == p.name
    ensures code[|ReactHead| + |p.name|..] == ReactTail
  {
    ReactHead + p.name + ReactTail
  }

  /** The stub depends on the name alone, and identifies it. */
  lemma ReactCodeIsNameOnly(p: ProductData, q: ProductData)
    ensures GenerateReactCode(p) == GenerateReactCode(q) <==> p.name == q.name
  {
    if GenerateReactCode(p) == GenerateReactCode(q) {
      var c := GenerateReactCode(p);
      assert p.name == c[|ReactHead|..|ReactHead| + |p.name|];
    }
  }

  /** The download name for each export kind; the two kinds never share a name. */
  function DownloadFileName(format: ExportFormat): (fileName: string)
    ensures fileName == "landing-page.html" <==> format == Html
    ensures fileName == "ProductLandingPage.jsx" <==> format == React
  {
    match format
    case Html => "landing-page.html"
    case React => "ProductLandingPage.jsx"
  }
}
