/** What the three carousel plan builders share: the slide-colour rule, the
    closing call-to-action copy, the first sentence of the user's thoughts,
    and how many interior slides a slide count leaves room for. */
module SlidePlan {
  import opened Wrappers
  import opened Strings
  import opened CarouselTypes

  /** The colour of slide `index` in a plan of `total` slides. A fixed mode
      colours every slide alike; "mixed" keeps the first and last slide dark
      and alternates by parity in between. */
  function SlideColorFor(mode: ColorMode, index: int, total: int): (c: SlideColor)
    ensures mode == DarkMode ==> c == Dark
    ensures mode == LightMode ==> c == Light
    ensures mode == MixedMode ==> (c == Dark <==> index == 0 || index == total - 1 || index % 2 == 0)
  {
    if mode == DarkMode then Dark
    else if mode == LightMode then Light
    else if index == 0 || index == total - 1 then Dark
    // `%` is Euclidean here; for the test against 0 it agrees with the
    // truncating remainder on negative indices as well.
    else if index % 2 == 0 then Dark
    else Light
  }

  const CtaTitle: string := "WERNER STRAUCH."
  const CtaSubtitle: string := "Der Stille Stratege"
  const CtaHandle: string := "@wernerstrauch"

  /** `thoughts ? thoughts.split('.')[0] : undefined`: the text before the first
      full stop, or nothing when there are no thoughts. */
  function FirstSentence(thoughts: string): (r: Option<string>)
    ensures r.None? <==> thoughts == ""
    ensures r.Some? ==> r.value == if '.' in thoughts then thoughts[..IndexOf(thoughts, '.')] else thoughts
    ensures r.Some? ==> '.' !in r.value
  {
    if thoughts == "" then None
    else
      SplitFirst(thoughts, '.');
      Some(Strings.Split(thoughts, '.')[0])
  }

  /** How often a loop `for (i = 0; i < slideCount - 2; i++)` runs. */
  function InteriorCount(slideCount: int): nat {
    if slideCount >= 2 then slideCount - 2 else 0
  }
}
