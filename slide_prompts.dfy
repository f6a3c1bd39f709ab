/** The prompt compiler: the text sent to the image service for a slide,
    assembled from brand guidelines, the platform's image format, a block for
    the slide's type, a consistency block for every slide after the first,
    and the topic. */
module SlidePrompts {
  import opened Strings
  import opened Wrappers
  import opened CarouselTypes
  import Seqs
  import opened PromptTexts

  /** `getConsistencyInstructions`: nothing for the first slide, the
      consistency block for every later one. */
  function ConsistencyInstructions(isFirstSlide: bool): (r: string)
    ensures r == "" <==> isFirstSlide
  {
    if isFirstSlide then "" else ConsistencyBlock()
  }

  function PlatformLines(p: Platform): seq<string> {
    var settings := Settings(p);
    ["IMAGE FORMAT:",
     "- Dimensions: " + NatToString(settings.width) + "x" + NatToString(settings.height) + "px",
     "- Aspect ratio: " + settings.aspectRatio,
     "- Platform: " + PlatformName(p),
     "- Text must be clearly readable on mobile devices",
     "- Important content in safe zone (not too close to edges)"]
  }

  /** `getPlatformInstructions`: the image format block. */
  function PlatformInstructions(p: Platform): (r: string)
    ensures r != ""
  {
    var lines := PlatformLines(p);
    assert lines[0] == "IMAGE FORMAT:";
    JoinStartsWith(lines, "\n");
    Join(lines, "\n")
  }

  /** The image format block opens with its heading, quotes the platform's
      pixel size and aspect ratio and names the platform. */
  lemma PlatformInstructionsQuote(p: Platform)
    ensures var r := PlatformInstructions(p);
      && StartsWith(r, "IMAGE FORMAT:")
      && Contains(r, "- Dimensions: " + NatToString(Settings(p).width) + "x" + NatToString(Settings(p).height) + "px")
      && Contains(r, "- Aspect ratio: " + Settings(p).aspectRatio)
      && Contains(r, "- Platform: " + (if p == LinkedIn then "LinkedIn" else "Instagram"))
  {
    var lines := PlatformLines(p);
    JoinStartsWith(lines, "\n");
    JoinContainsPart(lines, "\n", 1);
    JoinContainsPart(lines, "\n", 2);
    JoinContainsPart(lines, "\n", 3);
  }

  /** The lines of the slide-type block. */
  function TypeLines(c: SlideConfig): (r: seq<string>)
    ensures |r| >= 3 && r[0] == "SLIDE TYPE: " + TypeHeading(KindOf(c.slideType))
    ensures r[1] == ColorInstructions(c.colorMode)
    ensures r[|r| - 1] == TypeClosing(KindOf(c.slideType))
    ensures Framed(r)
  {
    ["SLIDE TYPE: " + TypeHeading(KindOf(c.slideType)), ColorInstructions(c.colorMode)]
      + TypeBody(c) + [TypeClosing(KindOf(c.slideType))]
  }

  /** `getSlideTypePrompt`: the heading line, the colour line, then the body. */
  function SlideTypePrompt(c: SlideConfig): (r: string)
    ensures r != ""
  {
    JoinStartsWith(TypeLines(c), "\n");
    Join(TypeLines(c), "\n")
  }

  /** The slide-type block opens with the type's heading. */
  lemma SlideTypePromptHeading(c: SlideConfig)
    ensures StartsWith(SlideTypePrompt(c), "SLIDE TYPE: " + TypeHeading(KindOf(c.slideType)))
  {
    JoinStartsWith(TypeLines(c), "\n");
  }

  /** The slide-type block states the slide's colour. */
  lemma SlideTypePromptColor(c: SlideConfig)
    ensures Contains(SlideTypePrompt(c), ColorInstructions(c.colorMode))
  {
    JoinContainsPart(TypeLines(c), "\n", 1);
  }

  /** As its first and last lines are fixed text, the slide-type block is
      already trimmed. */
  lemma SlideTypePromptTrimmed(c: SlideConfig)
    ensures Trim(SlideTypePrompt(c)) == SlideTypePrompt(c)
  {
    JoinLines(TypeLines(c), "\n");
  }

  /** At least two lines, the first starting and the last ending with a
      printing character. */
  predicate Framed(lines: seq<string>) {
    && |lines| >= 2
    && lines[0] != [] && !IsWhitespace(lines[0][0])
    && lines[|lines| - 1] != [] && !IsWhitespace(lines[|lines| - 1][|lines[|lines| - 1]| - 1])
  }

  /** What a block joined from lines tells about its ends and its colour line. */
  lemma JoinLines(lines: seq<string>, sep: string)
    requires Framed(lines)
    ensures StartsWith(Join(lines, sep), lines[0])
    ensures Contains(Join(lines, sep), lines[1])
    ensures Trim(Join(lines, sep)) == Join(lines, sep)
  {
    var r := Join(lines, sep);
    var last := lines[|lines| - 1];
    JoinStartsWith(lines, sep);
    JoinContainsPart(lines, sep, 1);
    JoinEndsWith(lines, sep);
    assert r[0] == lines[0][0];
    assert r[|r| - 1] == last[|last| - 1];
    TrimNoop(r);
  }

  predicate NonEmpty(s: string) { s != "" }

  /** The sections that survive `filter(Boolean)`, in order, for any
      blocks: the four fixed blocks, the consistency block when it is not
      empty, then the topic trailer. */
  function Sections(header: string, brand: string, platform: string, typePrompt: string, consistency: string,
                    c: SlideConfig, topic: string, thoughts: string): seq<string>
  {
    [header, brand, platform, typePrompt]
      + (if consistency == "" then [] else [consistency])
      + TopicTrailer(c, topic, thoughts)
  }

  /** The sections of the prompt for one slide. */
  function PromptSections(c: SlideConfig, p: Platform, isFirstSlide: bool, topic: string, thoughts: string)
    : seq<string>
  {
    Sections(Header(), BrandContext(), PlatformInstructions(p), SlideTypePrompt(c),
             ConsistencyInstructions(isFirstSlide), c, topic, thoughts)
  }

  /** The topic and, when there are thoughts, the context; nothing for the
      call to action. */
  function TopicTrailer(c: SlideConfig, topic: string, thoughts: string): seq<string> {
    if c.slideType == Cta then []
    else ["CAROUSEL TOPIC: " + topic] + (if thoughts != "" then ["ADDITIONAL CONTEXT: " + thoughts] else [])
  }

  lemma PlatformInstructionsLead(p: Platform)
    ensures Lead(PlatformInstructions(p)) == "IM"
  {
    var lines := PlatformLines(p);
    assert lines[0] == "IMAGE FORMAT:";
    LeadOfJoin(lines, "\n");
    assert "IMAGE FORMAT:"[..2] == "IM";
  }

  lemma SlideTypePromptLead(c: SlideConfig)
    ensures Lead(SlideTypePrompt(c)) == "SL"
  {
    LeadOfJoin(TypeLines(c), "\n");
    HeadingLineLead(KindOf(c.slideType));
  }

  lemma HeadingLineLead(k: PromptKind)
    ensures Lead("SLIDE TYPE: " + TypeHeading(k)) == "SL"
  {
    LeadOfAppend("SLIDE TYPE: ", TypeHeading(k));
    assert "SLIDE TYPE: "[..2] == "SL";
  }

  lemma TopicTrailerLeads(c: SlideConfig, topic: string, thoughts: string)
    ensures forall x :: x in TopicTrailer(c, topic, thoughts) ==> x != "" && (Lead(x) == "CA" || Lead(x) == "AD")
    ensures forall x :: x in TopicTrailer(c, topic, thoughts) ==> (Lead(x) == "CA" <==> x == "CAROUSEL TOPIC: " + topic)
  {
    var topicLine, contextLine := "CAROUSEL TOPIC: " + topic, "ADDITIONAL CONTEXT: " + thoughts;
    assert topicLine[..2] == "CA";
    assert contextLine[..2] == "AD";
  }

  /** The lead of every section of a prompt: each block has its own. */
  lemma SectionLeads(c: SlideConfig, p: Platform)
    ensures Lead(Header()) == "Cr" && Lead(BrandContext()) == "We" && Lead(PlatformInstructions(p)) == "IM"
    ensures Lead(SlideTypePrompt(c)) == "SL" && Lead(ConsistencyBlock()) == "CR"
  {
    HeaderLead();
    BrandContextLead();
    PlatformInstructionsLead(p);
    SlideTypePromptLead(c);
    ConsistencyBlockLead();
  }

  /** What tells the sections apart, for any blocks: each block's lead. */
  predicate DistinctLeads(header: string, brand: string, platform: string, typePrompt: string, consistency: string) {
    && Lead(header) == "Cr" && Lead(brand) == "We" && Lead(platform) == "IM" && Lead(typePrompt) == "SL"
    && (consistency == "" || Lead(consistency) == "CR")
  }

  /** For blocks with distinct leads: the consistency block is among the
      sections exactly when it is not empty, the topic line exactly when the
      slide is not the call to action, and the context line exactly when
      besides there are thoughts. */
  lemma SectionsMembership(header: string, brand: string, platform: string, typePrompt: string, consistency: string,
                           c: SlideConfig, topic: string, thoughts: string)
    requires DistinctLeads(header, brand, platform, typePrompt, consistency)
    ensures var sections := Sections(header, brand, platform, typePrompt, consistency, c, topic, thoughts);
      && (consistency != "" ==> consistency in sections)
      && (forall x :: x in sections && Lead(x) == "CR" ==> x == consistency)
      && (("CAROUSEL TOPIC: " + topic) in sections <==> c.slideType != Cta)
      && (("ADDITIONAL CONTEXT: " + thoughts) in sections <==> c.slideType != Cta && thoughts != "")
  {
    TopicTrailerLeads(c, topic, thoughts);
    var topicLine, contextLine := "CAROUSEL TOPIC: " + topic, "ADDITIONAL CONTEXT: " + thoughts;
    assert topicLine[..2] == "CA";
    assert contextLine[..2] == "AD";
  }

  /** The consistency block is one of the prompt's sections exactly when
      the slide is not the first. */
  lemma PromptConsistencyIffLater(c: SlideConfig, p: Platform, isFirstSlide: bool, topic: string, thoughts: string)
    ensures ConsistencyBlock() in PromptSections(c, p, isFirstSlide, topic, thoughts) <==> !isFirstSlide
  {
    SectionLeads(c, p);
    var consistency := ConsistencyInstructions(isFirstSlide);
    SectionsMembership(Header(), BrandContext(), PlatformInstructions(p), SlideTypePrompt(c), consistency,
                       c, topic, thoughts);
  }

  /** The topic line is one of the sections exactly when the slide is not
      the call to action. */
  lemma PromptTopicIffNotCta(c: SlideConfig, p: Platform, isFirstSlide: bool, topic: string, thoughts: string)
    ensures ("CAROUSEL TOPIC: " + topic) in PromptSections(c, p, isFirstSlide, topic, thoughts) <==> c.slideType != Cta
  {
    SectionLeads(c, p);
    SectionsMembership(Header(), BrandContext(), PlatformInstructions(p), SlideTypePrompt(c),
                       ConsistencyInstructions(isFirstSlide), c, topic, thoughts);
  }

  /** The context line is one of the sections exactly when the slide is not
      the call to action and there are thoughts. */
  lemma PromptContextIff(c: SlideConfig, p: Platform, isFirstSlide: bool, topic: string, thoughts: string)
    ensures ("ADDITIONAL CONTEXT: " + thoughts) in PromptSections(c, p, isFirstSlide, topic, thoughts)
            <==> c.slideType != Cta && thoughts != ""
  {
    SectionLeads(c, p);
    SectionsMembership(Header(), BrandContext(), PlatformInstructions(p), SlideTypePrompt(c),
                       ConsistencyInstructions(isFirstSlide), c, topic, thoughts);
  }

  /** For non-empty blocks no section is empty, so the joined prompt has
      no blank separator lines, and the header comes first. */
  lemma SectionsNonEmpty(header: string, brand: string, platform: string, typePrompt: string, consistency: string,
                         c: SlideConfig, topic: string, thoughts: string)
    requires header != "" && brand != "" && platform != "" && typePrompt != ""
    ensures var sections := Sections(header, brand, platform, typePrompt, consistency, c, topic, thoughts);
      && |sections| >= 4 && sections[0] == header
      && forall i :: 0 <= i < |sections| ==> sections[i] != ""
  {
    TopicTrailerLeads(c, topic, thoughts);
    var sections := Sections(header, brand, platform, typePrompt, consistency, c, topic, thoughts);
    forall i | 0 <= i < |sections| ensures sections[i] != "" {
      assert sections[i] in sections;
    }
  }

  /** The prompt opens with the header line and has no blank lines between
      its sections. */
  lemma PromptSectionsNonEmpty(c: SlideConfig, p: Platform, isFirstSlide: bool, topic: string, thoughts: string)
    ensures var sections := PromptSections(c, p, isFirstSlide, topic, thoughts);
      && |sections| >= 4 && sections[0] == Header()
      && forall i :: 0 <= i < |sections| ==> sections[i] != ""
  {
    SectionsNonEmpty(Header(), BrandContext(), PlatformInstructions(p), SlideTypePrompt(c),
                     ConsistencyInstructions(isFirstSlide), c, topic, thoughts);
  }

  /** `buildSlidePrompt`. An absent `thoughts` argument behaves like "", so
      the model takes a string. */
  method BuildSlidePrompt(c: SlideConfig, p: Platform, isFirstSlide: bool, topic: string, thoughts: string)
    returns (prompt: string)
    ensures prompt == Join(PromptSections(c, p, isFirstSlide, topic, thoughts), "\n")
  {
    var header, brand, platform, typePrompt := Header(), BrandContext(), PlatformInstructions(p), SlideTypePrompt(c);
    var consistency := ConsistencyInstructions(isFirstSlide);
    assert header != "" && brand != "" && platform != "" && typePrompt != "";
    prompt := AssembleSections(c, topic, thoughts, header, brand, platform, typePrompt, consistency);
  }

  /** The rest of `buildSlidePrompt`, for any non-empty fixed blocks: lay
      the blocks out with empty spacers, push the topic and the context,
      drop the empty parts, join with newlines. */
  method AssembleSections(c: SlideConfig, topic: string, thoughts: string,
                          header: string, brand: string, platform: string, typePrompt: string, consistency: string)
    returns (prompt: string)
    requires header != "" && brand != "" && platform != "" && typePrompt != ""
    ensures prompt == Join(Sections(header, brand, platform, typePrompt, consistency, c, topic, thoughts), "\n")
  {
    var parts := [header, "", brand, "", platform, "", typePrompt, "", consistency];
    if c.slideType != Cta {
      parts := parts + [""];
      parts := parts + ["CAROUSEL TOPIC: " + topic];
      if thoughts != "" {
        parts := parts + ["ADDITIONAL CONTEXT: " + thoughts];
      }
    }
    ghost var extra := parts[9..];
    assert parts == [header, "", brand, "", platform, "", typePrompt, "", consistency] + extra;
    FilterTrailer(c, topic, thoughts, extra);
    FilterSpaced(header, brand, platform, typePrompt, consistency, extra);
    prompt := Join(Seqs.Filter(parts, NonEmpty), "\n");
  }

  /** Dropping the empty parts of what is pushed after the consistency block
      leaves the topic trailer. */
  lemma FilterTrailer(c: SlideConfig, topic: string, thoughts: string, extra: seq<string>)
    requires extra == (if c.slideType == Cta then []
                       else [""] + ["CAROUSEL TOPIC: " + topic]
                            + (if thoughts != "" then ["ADDITIONAL CONTEXT: " + thoughts] else []))
    ensures Seqs.Filter(extra, NonEmpty) == TopicTrailer(c, topic, thoughts)
  {
    if c.slideType != Cta {
      var context := if thoughts != "" then ["ADDITIONAL CONTEXT: " + thoughts] else [];
      var trailer := ["CAROUSEL TOPIC: " + topic] + context;
      assert extra == [""] + trailer;
      Seqs.FilterCons("", trailer, NonEmpty);
      Seqs.FilterCons("CAROUSEL TOPIC: " + topic, context, NonEmpty);
      if thoughts != "" {
        Seqs.FilterCons("ADDITIONAL CONTEXT: " + thoughts, [], NonEmpty);
        assert context == ["ADDITIONAL CONTEXT: " + thoughts] + [];
      }
    }
  }

  /** Dropping the empty parts of the pushed sequence, for any four
      non-empty blocks with empty spacers between. */
  lemma FilterSpaced(h: string, b: string, pl: string, t: string, cons: string, extra: seq<string>)
    requires h != "" && b != "" && pl != "" && t != ""
    ensures Seqs.Filter([h, "", b, "", pl, "", t, "", cons] + extra, NonEmpty)
         == [h, b, pl, t] + (if cons == "" then [] else [cons]) + Seqs.Filter(extra, NonEmpty)
  {
    var fixed := [h, "", b, "", pl, "", t, ""];
    assert [h, "", b, "", pl, "", t, "", cons] + extra == fixed + [cons] + extra;
    Seqs.FilterAppend(fixed + [cons], extra, NonEmpty);
    Seqs.FilterAppend(fixed, [cons], NonEmpty);
    FilterFixed(h, b, pl, t);
    Seqs.FilterCons(cons, [], NonEmpty);
    assert [cons] + [] == [cons];
  }

  lemma FilterFixed(h: string, b: string, pl: string, t: string)
    requires h != "" && b != "" && pl != "" && t != ""
    ensures Seqs.Filter([h, "", b, "", pl, "", t, ""], NonEmpty) == [h, b, pl, t]
  {
    var empty: seq<string> := [];
    assert Seqs.Filter(empty, NonEmpty) == [];
    FilterPair(t, empty);
    FilterPair(pl, [t, ""]);
    FilterPair(b, [pl, "", t, ""]);
    FilterPair(h, [b, "", pl, "", t, ""]);
  }

  /** A non-empty block followed by an empty spacer keeps just the block. */
  lemma FilterPair(x: string, rest: seq<string>)
    requires x != ""
    ensures Seqs.Filter([x, ""] + rest, NonEmpty) == [x] + Seqs.Filter(rest, NonEmpty)
  {
    Seqs.FilterCons(x, [""] + rest, NonEmpty);
    Seqs.FilterCons("", rest, NonEmpty);
    assert [x, ""] + rest == [x] + ([""] + rest);
  }

  // ------------------------------------------------------------ edit prompt

  /** The lines of the edit prompt's template, between its opening and its
      closing line break; the context line is empty without thoughts. */
  function EditLines(c: SlideConfig, p: Platform, topic: string, thoughts: string): (r: seq<string>)
    ensures |r| == 12
  {
    seq(12, i => EditLine(i, c, p, topic, thoughts))
  }

  function EditLine(i: int, c: SlideConfig, p: Platform, topic: string, thoughts: string): string {
    // The opening line is written in two pieces so that the verifier finds
    // its first character quickly.
    if i == 0 then "Create the next slide " + "in this carousel series."
    else if i == 1 then StyleDemand() + " of the reference image - same fonts, colors, spacing, and design elements."
    else if i == 3 then PlatformInstructions(p)
    else if i == 5 then SlideTypePrompt(c)
    else if i == 7 then "CAROUSEL TOPIC: " + topic
    else if i == 8 then (if thoughts != "" then "CONTEXT: " + thoughts else "")
    else if i == 10 then "This slide must look like it belongs to the same carousel as the reference image."
    else if i == 11 then "Maintain perfect visual consistency while showing the new content."
    else ""
  }

  function StyleDemand(): string {
    "MATCH THE EXACT VISUAL STYLE"
  }

  /** A template literal of lines, opened and closed by a line break, and
      trimmed. */
  function TrimmedTemplate(lines: seq<string>): string {
    Trim("\n" + Join(lines, "\n") + "\n")
  }

  /** When the first line starts and the last line ends with a printing
      character, trimming removes exactly the opening and closing break. */
  lemma TrimmedTemplateJoin(lines: seq<string>)
    requires Framed(lines)
    ensures TrimmedTemplate(lines) == Join(lines, "\n")
  {
    var r := Join(lines, "\n");
    var last := lines[|lines| - 1];
    JoinStartsWith(lines, "\n");
    JoinEndsWith(lines, "\n");
    assert r[0] == lines[0][0];
    assert r[|r| - 1] == last[|last| - 1];
    TrimWrapped(r);
  }

  /** `buildEditPrompt`. An absent `thoughts` argument behaves like "". */
  function BuildEditPrompt(c: SlideConfig, p: Platform, topic: string, thoughts: string): string {
    TrimmedTemplate(EditLines(c, p, topic, thoughts))
  }

  /** Trimming removes exactly the template's opening and closing line
      break: the edit prompt is its lines joined. */
  lemma EditPromptLines(c: SlideConfig, p: Platform, topic: string, thoughts: string)
    ensures BuildEditPrompt(c, p, topic, thoughts) == Join(EditLines(c, p, topic, thoughts), "\n")
  {
    EditLinesFramed(c, p, topic, thoughts);
    TrimmedTemplateJoin(EditLines(c, p, topic, thoughts));
  }

  /** The edit prompt's first line starts with 'C' and its last ends with '.'. */
  lemma EditLinesFramed(c: SlideConfig, p: Platform, topic: string, thoughts: string)
    ensures Framed(EditLines(c, p, topic, thoughts))
  {
    var r := EditLines(c, p, topic, thoughts);
    var first, last := r[0], r[11];
    assert first == "Create the next slide " + "in this carousel series.";
    assert first[0] == 'C';
    assert last == "Maintain perfect visual consistency while showing the new content.";
    assert last[|last| - 1] == '.';
  }

  /** The edit prompt always demands the reference image's exact style. */
  lemma EditPromptStyle(c: SlideConfig, p: Platform, topic: string, thoughts: string)
    ensures Contains(BuildEditPrompt(c, p, topic, thoughts), "MATCH THE EXACT VISUAL STYLE")
  {
    EditPromptLines(c, p, topic, thoughts);
    var lines := EditLines(c, p, topic, thoughts);
    var rest := " of the reference image - same fonts, colors, spacing, and design elements.";
    assert lines[1] == EditLine(1, c, p, topic, thoughts) == StyleDemand() + rest;
    JoinContainsPart(lines, "\n", 1);
    ContainsMiddle("", StyleDemand(), rest);
    assert "" + StyleDemand() + rest == lines[1];
    ContainsTrans(Join(lines, "\n"), lines[1], StyleDemand());
  }

  /** The edit prompt names the topic, for the call to action as well. */
  lemma EditPromptTopic(c: SlideConfig, p: Platform, topic: string, thoughts: string)
    ensures Contains(BuildEditPrompt(c, p, topic, thoughts), "CAROUSEL TOPIC: " + topic)
  {
    EditPromptLines(c, p, topic, thoughts);
    var lines := EditLines(c, p, topic, thoughts);
    assert lines[7] == EditLine(7, c, p, topic, thoughts) == "CAROUSEL TOPIC: " + topic;
    JoinContainsPart(lines, "\n", 7);
  }

  /** The edit prompt carries the platform's and the slide type's blocks. */
  lemma EditPromptBlocks(c: SlideConfig, p: Platform, topic: string, thoughts: string)
    ensures Contains(BuildEditPrompt(c, p, topic, thoughts), PlatformInstructions(p))
    ensures Contains(BuildEditPrompt(c, p, topic, thoughts), SlideTypePrompt(c))
  {
    EditPromptLines(c, p, topic, thoughts);
    var lines := EditLines(c, p, topic, thoughts);
    assert lines[3] == EditLine(3, c, p, topic, thoughts) == PlatformInstructions(p);
    assert lines[5] == EditLine(5, c, p, topic, thoughts) == SlideTypePrompt(c);
    JoinContainsPart(lines, "\n", 3);
    JoinContainsPart(lines, "\n", 5);
  }

  /** The context line is there whenever there are thoughts ... */
  lemma EditPromptContext(c: SlideConfig, p: Platform, topic: string, thoughts: string)
    requires thoughts != ""
    ensures Contains(BuildEditPrompt(c, p, topic, thoughts), "CONTEXT: " + thoughts)
  {
    EditPromptLines(c, p, topic, thoughts);
    var lines := EditLines(c, p, topic, thoughts);
    assert lines[8] == EditLine(8, c, p, topic, thoughts) == "CONTEXT: " + thoughts;
    JoinContainsPart(lines, "\n", 8);
  }

  /** ... and the context line is empty exactly when there are none. */
  lemma EditContextLineEmpty(c: SlideConfig, p: Platform, topic: string, thoughts: string)
    ensures EditLines(c, p, topic, thoughts)[8] == "" <==> thoughts == ""
  {
    assert EditLines(c, p, topic, thoughts)[8] == EditLine(8, c, p, topic, thoughts);
  }
}
