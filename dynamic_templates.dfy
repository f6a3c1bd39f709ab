/** `generateSlideHTML`: the dispatch from a slide's type to the HTML template
    that renders it. The templates' markup is not modelled; the result is the
    template that is called, named by the slide type it is written for. */
module DynamicTemplates {
  import opened CarouselTypes

  /** The template for a slide-type string. The switch knows all eighteen
      names and sends each to the template of the same name; any other
      string (the type comes from JSON at run time) falls back to the
      content template. */
  function GenerateSlideHtml(typeName: string): (r: SlideType)
    ensures forall t :: SlideTypeName(t) == typeName ==> r == t
    ensures (forall t :: SlideTypeName(t) != typeName) ==> r == Content
  {
    match ParseSlideType(typeName)
    case Some(t) =>
      SlideTypeNameInjective(t, typeName);
      t
    case None =>
      ParseSlideTypeNone(typeName);
      Content
  }

  /** Only one slide type has a given name. */
  lemma SlideTypeNameInjective(t: SlideType, typeName: string)
    requires SlideTypeName(t) == typeName
    ensures forall u :: SlideTypeName(u) == typeName ==> u == t
  {
    forall u | SlideTypeName(u) == typeName ensures u == t {
      SlideTypeNamesDistinct(t, u);
    }
  }

  /** Whether a slide type's template is one of the image-slide layouts,
      which share one module of the template library. */
  predicate IsImageLayout(t: SlideType) {
    t.ImageLeft? || t.ImageRight? || t.ImageTop? || t.PhoneMockup?
  }

  /** The five basic, nine extended and four image types each reach their
      own template, so only the four image types reach an image layout. */
  lemma DispatchGroups(t: SlideType)
    ensures GenerateSlideHtml(SlideTypeName(t)) == t
    ensures IsImageLayout(GenerateSlideHtml(SlideTypeName(t))) <==> t in {ImageLeft, ImageRight, ImageTop, PhoneMockup}
  {
  }

  /** An unknown type name, such as an empty one, renders exactly like a
      content slide. */
  lemma DispatchFallback(typeName: string)
    requires ParseSlideType(typeName).None?
    ensures GenerateSlideHtml(typeName) == GenerateSlideHtml(SlideTypeName(Content))
  {
    ParseSlideTypeNone(typeName);
  }
}
