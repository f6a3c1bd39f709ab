/** The fixed wording of the slide prompts: brand guidelines, the
    consistency block, and the text block for each kind of slide. */
module PromptTexts {
  import opened Strings
  import opened Wrappers
  import opened CarouselTypes

  /** How a JavaScript template literal renders an optional string. */
  function Show(o: Option<string>): string {
    match o
    case Some(s) => s
    case None => "undefined"
  }

  /** How a JavaScript template literal renders an optional number. */
  function ShowNumber(o: Option<int>): string {
    match o
    case Some(n) => IntToString(n)
    case None => "undefined"
  }

  /** JavaScript truthiness of an optional string and an optional number. */
  predicate TruthyNumber(o: Option<int>) { o.Some? && o.value != 0 }

  /** The opening line of every slide prompt. */
  function Header(): (r: string)
    ensures r != ""
  {
    "Create a professional carousel slide image."
  }

  /** The brand guidelines block: colours, typography, visual style, voice,
      as sections separated by an empty line. Each section is a function
      of its own, so that a proof about the block needs to look only at
      the sections it is about. */
  function BrandContext(): (r: string)
    ensures r != ""
  {
    var sections := seq(5, BrandSection);
    assert sections[0] == BrandIntro();
    JoinStartsWith(sections, "\n\n");
    Join(sections, "\n\n")
  }

  function BrandSection(i: int): string {
    if i == 0 then BrandIntro()
    else if i == 1 then BrandColors()
    else if i == 2 then BrandTypography()
    else if i == 3 then BrandStyle()
    else BrandVoice()
  }

  function BrandIntro(): (r: string)
    ensures r != ""
  {
    BrandName() + " personal brand design system. Premium, corporate, strategic consulting feel."
  }

  function BrandName(): string {
    "Werner Strauch"
  }

  function BrandColors(): string {
    Join(["COLORS (STRICT):",
          "- Primary: Deep Navy (#0A192F) - 60% of design, professional foundation",
          "- Accent: Electric Lime (#DFFF00) - 10% ONLY, key highlights and CTAs",
          "- Contrast: Pure White (#FFFFFF) - 30%, text and breathing space"], "\n")
  }

  function BrandTypography(): string {
    Join(["TYPOGRAPHY FEEL:",
          "- Headlines: Bold, condensed, uppercase, brutalist impact (like Bebas Neue)",
          "- Subheads: Modern geometric sans-serif, distinctive (like Syne)",
          "- Body: Technical monospace for precise, expert feel (like Space Mono)"], "\n")
  }

  function BrandStyle(): string {
    Join(["VISUAL STYLE:",
          "- Ultra clean, generous whitespace",
          "- Strong typographic hierarchy - text IS the visual",
          "- Geometric accents using lime color SPARINGLY",
          "- Subtle grid pattern in background (barely visible)",
          "- Light noise texture for depth",
          "- NO stock photos, NO illustrations - pure typography and geometric shapes",
          "- Professional but not boring - strategic use of bold elements"], "\n")
  }

  function BrandVoice(): string {
    Join(["BRAND VOICE:",
          "- German text",
          "- \"Der Stille Stratege\" tagline",
          "- Expert positioning in pricing, profit, and business strategy"], "\n")
  }

  /** The consistency block asked of every slide after the first: a heading
      and the rules under it. */
  function ConsistencyBlock(): (r: string)
    ensures r != ""
  {
    JoinStartsWith([ConsistencyHeading(), ConsistencyRules()], "\n");
    Join([ConsistencyHeading(), ConsistencyRules()], "\n")
  }

  function ConsistencyHeading(): (r: string)
    ensures r != ""
  {
    "CRITICAL - VISUAL CONSISTENCY:"
  }

  function ConsistencyRules(): string {
    Join(["Match the EXACT visual style from the reference image:",
          "- Same fonts, same weights, same sizes",
          "- Same color palette and usage ratios",
          "- Same spacing and margins",
          "- Same background treatment and texture",
          "- Same accent element style",
          "This slide must look like it belongs to the same carousel."], "\n")
  }

  /** The first two characters of a string (all of it when shorter): how
      the blocks of a prompt are told apart. */
  function Lead(s: string): (r: string)
    ensures |r| <= 2 && StartsWith(s, r)
  {
    if |s| >= 2 then s[..2] else s
  }

  /** A string has the lead of any prefix of two characters or more. */
  lemma LeadOfStart(s: string, p: string)
    requires StartsWith(s, p) && |p| >= 2
    ensures Lead(s) == Lead(p)
  {
    assert s[..2] == s[..|p|][..2];
  }

  lemma LeadOfAppend(a: string, b: string)
    requires |a| >= 2
    ensures Lead(a + b) == Lead(a)
  {
    assert (a + b)[..2] == a[..2];
  }

  /** Joined lines have the lead of their first line. */
  lemma LeadOfJoin(lines: seq<string>, sep: string)
    requires lines != [] && |lines[0]| >= 2
    ensures Lead(Join(lines, sep)) == Lead(lines[0])
  {
    JoinStartsWith(lines, sep);
    LeadOfStart(Join(lines, sep), lines[0]);
  }

  lemma HeaderLead()
    ensures Lead(Header()) == "Cr"
  {
    var h := Header();
    assert h[0] == 'C' && h[1] == 'r';
    assert h[..2] == "Cr";
  }

  lemma BrandContextLead()
    ensures Lead(BrandContext()) == "We"
  {
    var sections := seq(5, BrandSection);
    assert sections[0] == BrandIntro();
    JoinStartsWith(sections, "\n\n");
    LeadOfStart(BrandContext(), BrandIntro());
    BrandIntroLead();
  }

  lemma BrandIntroLead()
    ensures Lead(BrandIntro()) == "We"
  {
    var b := BrandName();
    assert b[0] == 'W' && b[1] == 'e';
    assert BrandIntro()[..2] == b[..2] == "We";
  }

  lemma ConsistencyBlockLead()
    ensures Lead(ConsistencyBlock()) == "CR"
  {
    JoinStartsWith([ConsistencyHeading(), ConsistencyRules()], "\n");
    LeadOfStart(ConsistencyBlock(), ConsistencyHeading());
    ConsistencyHeadingLead();
  }

  lemma ConsistencyHeadingLead()
    ensures Lead(ConsistencyHeading()) == "CR"
  {
    var h := ConsistencyHeading();
    assert h[0] == 'C' && h[1] == 'R';
    assert h[..2] == "CR";
  }

  function PlatformName(p: Platform): string {
    if p == LinkedIn then "LinkedIn" else "Instagram"
  }

  /** The colour sentence: navy background for dark slides, white otherwise. */
  function ColorInstructions(c: SlideColor): string {
    if c == Dark then "Navy (#0A192F) background with white text. Lime accents."
    else "White background with navy (#0A192F) text. Lime accents."
  }

  /** The heading of each slide type's block; every type without a block of
      its own gets the generic one. */
  function TypeHeading(k: PromptKind): string {
    match k
    case HookPrompt => "Hook/Title Slide"
    case ContentPrompt => "Content Slide"
    case ListiclePrompt => "Listicle Item"
    case StepPrompt => "Framework Step"
    case CtaPrompt => "Call-to-Action (Final Slide)"
    case GenericPrompt => "Generic Content"
  }

  /** The branches of the slide-type switch: five types have a block of
      their own, all others share the generic one. */
  datatype PromptKind = HookPrompt | ContentPrompt | ListiclePrompt | StepPrompt | CtaPrompt | GenericPrompt

  function KindOf(t: SlideType): PromptKind {
    match t
    case Hook => HookPrompt
    case Content => ContentPrompt
    case ListicleItem => ListiclePrompt
    case FrameworkStep => StepPrompt
    case Cta => CtaPrompt
    case _ => GenericPrompt
  }

  /** The last line of each block: fixed text. */
  function TypeClosing(k: PromptKind): (r: string)
    ensures r != [] && !IsWhitespace(r[|r| - 1])
  {
    match k
    case HookPrompt => "- Typography IS the hero - make it commanding"
    case ContentPrompt => "- Maintain breathing room around text"
    case ListiclePrompt => "- Position: left side with text right, or stacked"
    case StepPrompt => "- Progress indicator feel"
    case CtaPrompt => "- Professional sign-off feel"
    case GenericPrompt => "Clean, professional layout with lime accent."
  }

  /** The lines of a slide type's block between its colour line and its
      closing line; an optional line that is left out stays as an empty
      line. */
  function TypeBody(c: SlideConfig): seq<string> {
    match KindOf(c.slideType)
    case HookPrompt => HookBody(c)
    case ContentPrompt => ContentBody(c)
    case ListiclePrompt => ListicleBody(c)
    case StepPrompt => StepBody(c)
    case CtaPrompt => CtaBody(c)
    case GenericPrompt => GenericBody(c)
  }

  /** The hook slide: the headline with an optional subtitle. */
  function HookBody(c: SlideConfig): seq<string> {
    ["",
     "LAYOUT:",
     "- Large, bold headline taking 50-60% of vertical space",
     "- Headline text: \"" + c.title + "\"",
     if Truthy(c.subtitle) then "- Subtitle below: \"" + c.subtitle.value + "\"" else "",
     "- One bold lime accent element (diagonal stripe, circle, or geometric shape)",
     "- Swipe arrow indicator bottom right (subtle, 50% opacity)",
     "- Clean, impactful, makes people stop scrolling",
     "",
     "HEADLINE STYLE:",
     "- Uppercase, condensed, maximum impact",
     "- Break into 2-3 lines if needed for rhythm"]
  }

  /** A content slide: the heading with an optional two-digit slide number. */
  function ContentBody(c: SlideConfig): seq<string> {
    ["",
     "LAYOUT:",
     "- Main heading: \"" + c.title + "\"",
     if TruthyNumber(c.number)
     then "- Small slide number \"" + PadStart(IntToString(c.number.value), 2, '0') + "\" in corner (subtle)"
     else "",
     "- Space for key point or insight",
     "- Lime accent bar or highlight on one element",
     "- Swipe arrow indicator bottom right",
     "- Professional, informative, easy to scan",
     "",
     "CONTENT STYLE:",
     "- Bold heading, supporting text smaller",
     "- Use geometric dividers or accent shapes"]
  }

  /** A listicle item: the accent number as the hero. */
  function ListicleBody(c: SlideConfig): seq<string> {
    ["",
     "LAYOUT:",
     "- HUGE number \"" + Show(c.accentText) + "\" in lime color (200px+ size, dominant)",
     "- Item title: \"" + c.title + "\" next to or below number",
     "- Number is the visual hero of this slide",
     "- Swipe arrow indicator bottom right",
     "- Clean, scannable, memorable",
     "",
     "NUMBER STYLE:",
     "- The number should be the first thing you see",
     "- Bold, geometric, could be outline or filled"]
  }

  /** A framework step: step indicator, number, title and optional phase label. */
  function StepBody(c: SlideConfig): seq<string> {
    ["",
     "LAYOUT:",
     "- Step indicator \"" + Show(c.accentText) + "\" (e.g., \"2/5\") prominent",
     "- Step number \"" + ShowNumber(c.number) + "\" as large lime element",
     "- Step title: \"" + c.title + "\"",
     if Truthy(c.subtitle) then "- Phase label: \"" + c.subtitle.value + "\"" else "",
     "- Swipe arrow indicator bottom right",
     "- Shows progression through framework",
     "",
     "STEP STYLE:",
     "- Large lime number block on left (or top)",
     "- Content aligned right (or below)"]
  }

  /** The call to action: brand name, tagline and optional handle. */
  function CtaBody(c: SlideConfig): seq<string> {
    ["",
     "LAYOUT:",
     "- Centered composition",
     "- Brand name \"" + c.title + "\" large and prominent",
     "- Tagline \"" + Show(c.subtitle) + "\" above or below",
     if Truthy(c.accentText) then "- Handle/contact \"" + c.accentText.value + "\" subtle" else "",
     "- Decorative lime element (concentric circles, geometric shape)",
     "- NO swipe arrow (this is the last slide)",
     "- Memorable, branded, invites follow/engagement",
     "",
     "CTA STYLE:",
     "- Name is the hero - big, bold, centered",
     "- Tagline in lighter weight",
     "- Subtle decorative elements, not overwhelming"]
  }

  /** Every other slide type: the title and an optional subtitle. */
  function GenericBody(c: SlideConfig): seq<string> {
    ["Title: \"" + c.title + "\"",
     if Truthy(c.subtitle) then "Subtitle: \"" + c.subtitle.value + "\"" else ""]
  }
}
