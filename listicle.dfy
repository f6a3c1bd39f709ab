/** The "Listicle" template: a hook announcing the number of points, one
    numbered item per point, and the branded call to action. The thoughts
    argument is accepted but never used. */
module Listicle {
  import opened Wrappers
  import opened Strings
  import opened CarouselTypes
  import opened SlidePlan

  const TemplateTitle: string := "Listicle (Top 5/10)"
  const Description: string := "Numbered list format for \"Top X\" content"
  /** The declared range; the plan builder itself does not enforce it. */
  const MinSlides: int := 4
  const MaxSlides: int := 12

  /** The hook announces `slideCount - 2` points (negative below two slides). */
  function HookSlide(topic: string, slideCount: int, mode: ColorMode): SlideConfig {
    SlideConfig(0, Hook, topic, Some(IntToString(slideCount - 2) + " Punkte die du kennen musst"),
                None, None, None, true, SlideColorFor(mode, 0, slideCount))
  }

  /** Item `k` (at index `k`), with its number padded to two digits as accent. */
  function ItemSlide(k: nat, slideCount: int, mode: ColorMode): SlideConfig {
    SlideConfig(k, ListicleItem, "Punkt " + NatToString(k), None, None, Some(k),
                Some(PadStart(NatToString(k), 2, '0')), true, SlideColorFor(mode, k, slideCount))
  }

  function CtaSlide(slideCount: int, mode: ColorMode): SlideConfig {
    SlideConfig(slideCount - 1, Cta, CtaTitle, Some(CtaSubtitle), None, None, Some(CtaHandle), false,
                SlideColorFor(mode, slideCount - 1, slideCount))
  }

  function Items(count: nat, slideCount: int, mode: ColorMode): seq<SlideConfig> {
    seq(count, i requires 0 <= i => ItemSlide(i + 1, slideCount, mode))
  }

  /** The plan for any slide count; there is no thoughts parameter because
      the builder ignores it. */
  function Plan(topic: string, slideCount: int, mode: ColorMode): seq<SlideConfig> {
    [HookSlide(topic, slideCount, mode)]
      + Items(InteriorCount(slideCount), slideCount, mode)
      + [CtaSlide(slideCount, mode)]
  }

  /** `generateSlideConfigs`: pushes the hook, one item per loop round, then
      the call to action. Its result does not depend on `thoughts`. */
  method GenerateSlideConfigs(topic: string, thoughts: string, slideCount: int, mode: ColorMode)
    returns (configs: seq<SlideConfig>)
    ensures configs == Plan(topic, slideCount, mode)
  {
    var itemCount := slideCount - 2;
    configs := [HookSlide(topic, slideCount, mode)];
    var i := 0;
    while i < itemCount
      invariant 0 <= i <= InteriorCount(slideCount)
      invariant configs == [HookSlide(topic, slideCount, mode)] + Items(i, slideCount, mode)
    {
      var itemNumber := i + 1;
      ItemsStep([HookSlide(topic, slideCount, mode)], i, slideCount, mode);
      configs := configs + [ItemSlide(itemNumber, slideCount, mode)];
      i := i + 1;
    }
    configs := configs + [CtaSlide(slideCount, mode)];
  }

  /** One more round appends the next item. */
  lemma ItemsStep(head: seq<SlideConfig>, i: nat, slideCount: int, mode: ColorMode)
    ensures head + Items(i + 1, slideCount, mode) == head + Items(i, slideCount, mode) + [ItemSlide(i + 1, slideCount, mode)]
  {
    var a, b := Items(i + 1, slideCount, mode), Items(i, slideCount, mode);
    assert forall j :: 0 <= j < i ==> a[j] == b[j];
    assert a == b + [a[i]];
  }

  /** With at least two slides: one entry per slide, entry `i` has index `i`,
      the first is the hook and the last the call to action, and only the
      last hides the swipe arrow. */
  lemma PlanShape(topic: string, slideCount: int, mode: ColorMode)
    requires slideCount >= 2
    ensures var r := Plan(topic, slideCount, mode);
      && |r| == slideCount
      && (forall i :: 0 <= i < |r| ==> r[i].index == i)
      && r[0].slideType == Hook && r[slideCount - 1].slideType == Cta
      && (forall i :: 0 <= i < |r| ==> (r[i].showSwipeArrow <==> i != slideCount - 1))
  {
  }

  /** The hook says how many points follow; item `k` is "Punkt k", numbered
      `k`, with `k` zero-padded to two digits as its accent. */
  lemma PlanContents(topic: string, slideCount: int, mode: ColorMode)
    requires slideCount >= 2
    ensures var r := Plan(topic, slideCount, mode);
      && r[0].title == topic
      && r[0].subtitle == Some(NatToString(slideCount - 2) + " Punkte die du kennen musst")
      && (forall k :: 1 <= k <= slideCount - 2 ==>
            && r[k].slideType == ListicleItem
            && r[k].title == "Punkt " + NatToString(k)
            && r[k].number == Some(k)
            && r[k].accentText == Some(if k < 10 then "0" + NatToString(k) else NatToString(k)))
      && r[slideCount - 1].title == "WERNER STRAUCH."
      && r[slideCount - 1].accentText == Some("@wernerstrauch")
  {
    var r := Plan(topic, slideCount, mode);
    forall k | 1 <= k <= slideCount - 2
      ensures r[k].accentText == Some(if k < 10 then "0" + NatToString(k) else NatToString(k))
    {
      assert r[k] == ItemSlide(k, slideCount, mode);
      PadTwoDigits(k);
    }
  }

  /** `String(k).padStart(2, '0')` prefixes one '0' to a single digit and
      leaves longer numbers alone. */
  lemma PadTwoDigits(k: nat)
    ensures PadStart(NatToString(k), 2, '0') == if k < 10 then "0" + NatToString(k) else NatToString(k)
  {
    var digits := NatToString(k);
    var padded := PadStart(digits, 2, '0');
    if k < 10 {
      assert |digits| == 1 && |padded| == 2 && padded[1..] == digits;
      assert padded == "0" + digits;
    } else {
      assert |digits| != 1;
    }
  }

  /** The same colour rule as the other templates: a fixed mode colours every
      slide alike; "mixed" keeps both ends dark and alternates in between. */
  lemma PlanColors(topic: string, slideCount: int, mode: ColorMode)
    requires slideCount >= 2
    ensures var r := Plan(topic, slideCount, mode);
      && (mode == DarkMode ==> forall i :: 0 <= i < |r| ==> r[i].colorMode == Dark)
      && (mode == LightMode ==> forall i :: 0 <= i < |r| ==> r[i].colorMode == Light)
      && (mode == MixedMode ==> r[0].colorMode == Dark && r[|r| - 1].colorMode == Dark)
      && (mode == MixedMode ==> forall i :: 0 < i < |r| - 1 ==> (r[i].colorMode == Dark <==> i % 2 == 0))
  {
  }
}
