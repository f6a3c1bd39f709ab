/** The template registry: the three plan builders under their keys, lookup
    by key with an error for unknown keys, and the choices offered to the
    user. */
module Templates {
  import opened Wrappers
  import opened CarouselTypes
  import HookContentCta
  import Listicle
  import StoryFramework

  datatype TemplateId = HookContentCtaTemplate | ListicleTemplate | StoryFrameworkTemplate

  /** A registered template: which builder it is, its display name and
      description, and its declared slide range. */
  datatype CarouselTemplate = CarouselTemplate(
    id: TemplateId, name: string, description: string, minSlides: int, maxSlides: int)

  function TemplateOf(id: TemplateId): CarouselTemplate {
    match id
    case HookContentCtaTemplate =>
      CarouselTemplate(id, HookContentCta.TemplateTitle, HookContentCta.Description,
                       HookContentCta.MinSlides, HookContentCta.MaxSlides)
    case ListicleTemplate =>
      CarouselTemplate(id, Listicle.TemplateTitle, Listicle.Description,
                       Listicle.MinSlides, Listicle.MaxSlides)
    case StoryFrameworkTemplate =>
      CarouselTemplate(id, StoryFramework.TemplateTitle, StoryFramework.Description,
                       StoryFramework.MinSlides, StoryFramework.MaxSlides)
  }

  /** A template's `generateSlideConfigs`. */
  function GeneratePlan(t: CarouselTemplate, topic: string, thoughts: string, slideCount: int, mode: ColorMode)
    : seq<SlideConfig>
  {
    match t.id
    case HookContentCtaTemplate => HookContentCta.Plan(topic, thoughts, slideCount, mode)
    case ListicleTemplate => Listicle.Plan(topic, slideCount, mode)
    case StoryFrameworkTemplate => StoryFramework.Plan(topic, thoughts, slideCount, mode)
  }

  /** Every template numbers the slides of a plan of at least two 0, 1, …
      in order. */
  lemma PlanIndices(t: CarouselTemplate, topic: string, thoughts: string, slideCount: int, mode: ColorMode)
    requires slideCount >= 2
    ensures var r := GeneratePlan(t, topic, thoughts, slideCount, mode);
            |r| == slideCount && forall i :: 0 <= i < |r| ==> r[i].index == i
  {
    match t.id
    case HookContentCtaTemplate => HookContentCta.PlanShape(topic, thoughts, slideCount, mode);
    case ListicleTemplate => Listicle.PlanShape(topic, slideCount, mode);
    case StoryFrameworkTemplate => StoryFramework.PlanShape(topic, thoughts, slideCount, mode);
  }

  /** The registry's keys, in declaration order. */
  const Keys: seq<string> := ["hook-content-cta", "listicle", "story-framework"]

  function Registry(): map<string, CarouselTemplate> {
    map["hook-content-cta" := TemplateOf(HookContentCtaTemplate),
        "listicle" := TemplateOf(ListicleTemplate),
        "story-framework" := TemplateOf(StoryFrameworkTemplate)]
  }

  /** `getTemplate`: the registered template, or the error it throws. */
  function GetTemplate(name: string): (r: Result<CarouselTemplate, string>)
    ensures r.Ok? <==> name in Keys
    ensures r.Err? ==> r.error == "Unknown template: " + name
  {
    if name in Registry() then Ok(Registry()[name]) else Err("Unknown template: " + name)
  }

  /** Each key finds its own builder. */
  lemma GetTemplateKnown()
    ensures GetTemplate("hook-content-cta") == Ok(TemplateOf(HookContentCtaTemplate))
    ensures GetTemplate("listicle") == Ok(TemplateOf(ListicleTemplate))
    ensures GetTemplate("story-framework") == Ok(TemplateOf(StoryFrameworkTemplate))
  {
  }

  /** `getAllTemplates`: the registry's entries, in insertion order. */
  function GetAllTemplates(): (r: seq<(string, CarouselTemplate)>)
    ensures |r| == 3
    ensures forall i :: 0 <= i < |r| ==> r[i].0 == Keys[i] && GetTemplate(r[i].0) == Ok(r[i].1)
  {
    seq(3, i requires 0 <= i < 3 => (Keys[i], Registry()[Keys[i]]))
  }

  /** A choice offered to the user: a caption and the registry key it selects. */
  datatype Choice = Choice(caption: string, value: string)

  const TemplateChoices: seq<Choice> := [
    Choice("Hook -> Content -> CTA (classic attention-grabbing)", "hook-content-cta"),
    Choice("Listicle (Top 5/10 numbered lists)", "listicle"),
    Choice("Story/Framework (step-by-step concept)", "story-framework")
  ]

  /** The choices select exactly the registered templates, in order; so every
      choice the user can make is found by `GetTemplate`. */
  lemma ChoicesAreRegistryKeys()
    ensures |TemplateChoices| == |GetAllTemplates()|
    ensures forall i :: 0 <= i < |TemplateChoices| ==>
      TemplateChoices[i].value == GetAllTemplates()[i].0 && GetTemplate(TemplateChoices[i].value).Ok?
  {
  }
}
