/** The "Story/Framework" template: an introduction naming the number of
    steps, one slide per step, and a call to action promising more
    frameworks. */
module StoryFramework {
  import opened Wrappers
  import opened Strings
  import opened CarouselTypes
  import opened SlidePlan

  const TemplateTitle: string := "Story/Framework"
  const Description: string := "Step-by-step explanation of a concept or methodology"
  /** The declared range; the plan builder itself does not enforce it. */
  const MinSlides: int := 4
  const MaxSlides: int := 10

  const CtaBody: string := "Mehr Frameworks und Strategien"

  /** The introduction names `slideCount - 2` steps and quotes the first
      sentence of the thoughts as body text. */
  function HookSlide(topic: string, thoughts: string, slideCount: int, mode: ColorMode): SlideConfig {
    SlideConfig(0, Hook, topic, Some("Ein " + IntToString(slideCount - 2) + "-Schritte Framework"),
                FirstSentence(thoughts), None, None, true, SlideColorFor(mode, 0, slideCount))
  }

  /** Step `k` of `slideCount - 2` (at index `k`). */
  function StepSlide(k: nat, slideCount: int, mode: ColorMode): SlideConfig {
    SlideConfig(k, FrameworkStep, "Schritt " + NatToString(k), Some("Phase " + NatToString(k)), None,
                Some(k), Some(NatToString(k) + "/" + IntToString(slideCount - 2)), true,
                SlideColorFor(mode, k, slideCount))
  }

  function CtaSlide(slideCount: int, mode: ColorMode): SlideConfig {
    SlideConfig(slideCount - 1, Cta, CtaTitle, Some(CtaSubtitle), Some(CtaBody), None, Some(CtaHandle), false,
                SlideColorFor(mode, slideCount - 1, slideCount))
  }

  function Steps(count: nat, slideCount: int, mode: ColorMode): seq<SlideConfig> {
    seq(count, i requires 0 <= i => StepSlide(i + 1, slideCount, mode))
  }

  /** The plan for any slide count. */
  function Plan(topic: string, thoughts: string, slideCount: int, mode: ColorMode): seq<SlideConfig> {
    [HookSlide(topic, thoughts, slideCount, mode)]
      + Steps(InteriorCount(slideCount), slideCount, mode)
      + [CtaSlide(slideCount, mode)]
  }

  /** `generateSlideConfigs`: pushes the introduction, one step per loop
      round, then the call to action. */
  method GenerateSlideConfigs(topic: string, thoughts: string, slideCount: int, mode: ColorMode)
    returns (configs: seq<SlideConfig>)
    ensures configs == Plan(topic, thoughts, slideCount, mode)
  {
    var stepCount := slideCount - 2;
    configs := [HookSlide(topic, thoughts, slideCount, mode)];
    var i := 0;
    while i < stepCount
      invariant 0 <= i <= InteriorCount(slideCount)
      invariant configs == [HookSlide(topic, thoughts, slideCount, mode)] + Steps(i, slideCount, mode)
    {
      var stepNumber := i + 1;
      configs := configs + [StepSlide(stepNumber, slideCount, mode)];
      i := i + 1;
    }
    configs := configs + [CtaSlide(slideCount, mode)];
  }

  /** With at least two slides: one entry per slide, entry `i` has index `i`,
      hook first, call to action last, and only the last hides the swipe
      arrow. */
  lemma PlanShape(topic: string, thoughts: string, slideCount: int, mode: ColorMode)
    requires slideCount >= 2
    ensures var r := Plan(topic, thoughts, slideCount, mode);
      && |r| == slideCount
      && (forall i :: 0 <= i < |r| ==> r[i].index == i)
      && r[0].slideType == Hook && r[slideCount - 1].slideType == Cta
      && (forall i :: 0 <= i < |r| ==> (r[i].showSwipeArrow <==> i != slideCount - 1))
  {
  }

  /** The introduction names the step count and quotes the first sentence;
      step `k` is "Schritt k", "Phase k", numbered `k`, with accent "k/n";
      the call to action adds its body text. */
  lemma PlanContents(topic: string, thoughts: string, slideCount: int, mode: ColorMode)
    requires slideCount >= 2
    ensures var r := Plan(topic, thoughts, slideCount, mode);
      var n := slideCount - 2;
      && r[0].title == topic
      && r[0].subtitle == Some("Ein " + NatToString(n) + "-Schritte Framework")
      && r[0].bodyText == FirstSentence(thoughts)
      && (forall k :: 1 <= k <= n ==>
            && r[k].slideType == FrameworkStep
            && r[k].title == "Schritt " + NatToString(k)
            && r[k].subtitle == Some("Phase " + NatToString(k))
            && r[k].number == Some(k)
            && r[k].accentText == Some(NatToString(k) + "/" + NatToString(n)))
      && r[slideCount - 1].title == "WERNER STRAUCH."
      && r[slideCount - 1].bodyText == Some("Mehr Frameworks und Strategien")
      && !r[slideCount - 1].showSwipeArrow
  {
  }

  /** The same colour rule as the other templates. */
  lemma PlanColors(topic: string, thoughts: string, slideCount: int, mode: ColorMode)
    requires slideCount >= 2
    ensures var r := Plan(topic, thoughts, slideCount, mode);
      && (mode == DarkMode ==> forall i :: 0 <= i < |r| ==> r[i].colorMode == Dark)
      && (mode == LightMode ==> forall i :: 0 <= i < |r| ==> r[i].colorMode == Light)
      && (mode == MixedMode ==> r[0].colorMode == Dark && r[|r| - 1].colorMode == Dark)
      && (mode == MixedMode ==> forall i :: 0 < i < |r| - 1 ==> (r[i].colorMode == Dark <==> i % 2 == 0))
  {
  }
}
