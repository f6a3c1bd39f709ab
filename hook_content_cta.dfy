/** The "Hook → Content → CTA" template: a hook slide with the topic, numbered
    key points, and the branded call to action. */
module HookContentCta {
  import opened Wrappers
  import opened Strings
  import opened CarouselTypes
  import opened SlidePlan

  const TemplateTitle: string := "Hook → Content → CTA"
  const Description: string := "Classic attention-grabbing structure with hook opener and CTA closer"
  /** The declared range; the plan builder itself does not enforce it. */
  const MinSlides: int := 3
  const MaxSlides: int := 10

  function HookSlide(topic: string, thoughts: string, slideCount: int, mode: ColorMode): SlideConfig {
    SlideConfig(0, Hook, topic, FirstSentence(thoughts), None, None, None, true,
                SlideColorFor(mode, 0, slideCount))
  }

  /** Interior slide number `k` (at index `k`). */
  function PointSlide(k: int, slideCount: int, mode: ColorMode): SlideConfig {
    SlideConfig(k, Content, "Key Point " + IntToString(k), None, None, Some(k), None, true,
                SlideColorFor(mode, k, slideCount))
  }

  function CtaSlide(slideCount: int, mode: ColorMode): SlideConfig {
    SlideConfig(slideCount - 1, Cta, CtaTitle, Some(CtaSubtitle), None, None, Some(CtaHandle), false,
                SlideColorFor(mode, slideCount - 1, slideCount))
  }

  /** The first `count` interior slides. */
  function Points(count: nat, slideCount: int, mode: ColorMode): seq<SlideConfig> {
    seq(count, i => PointSlide(i + 1, slideCount, mode))
  }

  /** The plan for any slide count, including those outside the declared range. */
  function Plan(topic: string, thoughts: string, slideCount: int, mode: ColorMode): seq<SlideConfig> {
    [HookSlide(topic, thoughts, slideCount, mode)]
      + Points(InteriorCount(slideCount), slideCount, mode)
      + [CtaSlide(slideCount, mode)]
  }

  /** `generateSlideConfigs`: pushes the hook, then one content slide per loop
      round, then the call to action. */
  method GenerateSlideConfigs(topic: string, thoughts: string, slideCount: int, mode: ColorMode)
    returns (configs: seq<SlideConfig>)
    ensures configs == Plan(topic, thoughts, slideCount, mode)
  {
    configs := [HookSlide(topic, thoughts, slideCount, mode)];
    var contentSlideCount := slideCount - 2;
    var i := 0;
    while i < contentSlideCount
      invariant 0 <= i <= InteriorCount(slideCount)
      invariant configs == [HookSlide(topic, thoughts, slideCount, mode)] + Points(i, slideCount, mode)
    {
      configs := configs + [PointSlide(i + 1, slideCount, mode)];
      i := i + 1;
    }
    configs := configs + [CtaSlide(slideCount, mode)];
  }

  /** With at least two slides, the plan has one entry per slide, entry `i`
      has index `i`, and only the last entry hides the swipe arrow. */
  lemma PlanShape(topic: string, thoughts: string, slideCount: int, mode: ColorMode)
    requires slideCount >= 2
    ensures var r := Plan(topic, thoughts, slideCount, mode);
      && |r| == slideCount
      && (forall i :: 0 <= i < |r| ==> r[i].index == i)
      && (forall i :: 0 <= i < |r| ==> (r[i].showSwipeArrow <==> i != slideCount - 1))
  {
  }

  /** The hook carries the topic and the first sentence of the thoughts; the
      interior slides are "Key Point k" numbered k; the last slide is the
      branded call to action. */
  lemma PlanContents(topic: string, thoughts: string, slideCount: int, mode: ColorMode)
    requires slideCount >= 2
    ensures var r := Plan(topic, thoughts, slideCount, mode);
      && r[0].slideType == Hook && r[0].title == topic
      && r[0].subtitle == FirstSentence(thoughts)
      && (forall k :: 1 <= k <= slideCount - 2 ==>
            r[k].slideType == Content && r[k].title == "Key Point " + NatToString(k) && r[k].number == Some(k))
      && r[slideCount - 1].slideType == Cta && r[slideCount - 1].title == "WERNER STRAUCH."
      && r[slideCount - 1].subtitle == Some("Der Stille Stratege")
      && r[slideCount - 1].accentText == Some("@wernerstrauch")
  {
  }

  /** A fixed colour mode colours every slide alike; "mixed" makes both ends
      dark and an interior slide dark exactly at even indices. */
  lemma PlanColors(topic: string, thoughts: string, slideCount: int, mode: ColorMode)
    requires slideCount >= 2
    ensures var r := Plan(topic, thoughts, slideCount, mode);
      && (mode == DarkMode ==> forall i :: 0 <= i < |r| ==> r[i].colorMode == Dark)
      && (mode == LightMode ==> forall i :: 0 <= i < |r| ==> r[i].colorMode == Light)
      && (mode == MixedMode ==> r[0].colorMode == Dark && r[|r| - 1].colorMode == Dark)
      && (mode == MixedMode ==> forall i :: 0 < i < |r| - 1 ==> (r[i].colorMode == Dark <==> i % 2 == 0))
  {
  }

  /** Below two slides the builder still emits a hook and a call to action,
      and the call to action's index is `slideCount - 1`; so the plan no
      longer has one entry per slide (with one slide, both entries have
      index 0). */
  lemma PlanBelowTwo(topic: string, thoughts: string, slideCount: int, mode: ColorMode)
    requires slideCount < 2
    ensures var r := Plan(topic, thoughts, slideCount, mode);
      |r| == 2 && |r| != slideCount && r[0].index == 0 && r[1].index == slideCount - 1
  {
  }
}
