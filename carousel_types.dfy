/** The carousel generator's vocabulary: slide types, colour modes, platforms
    with their image formats, image resolutions with their prices, and the
    records passed between planning, generation and bundling. */
module CarouselTypes {
  import opened Wrappers
  import opened Strings
  import Seqs

  /** The eighteen kinds of slide a plan or a renderer knows about. */
  datatype SlideType =
    | Hook | Content | Cta | ListicleItem | FrameworkStep
    | Quote | Comparison | Stat | Question | Tip | MythBuster | Split
    | Highlight | Chapter
    | ImageLeft | ImageRight | ImageTop | PhoneMockup

  /** The string a slide type is written as. */
  function SlideTypeName(t: SlideType): string {
    match t
    case Hook => "hook"
    case Content => "content"
    case Cta => "cta"
    case ListicleItem => "listicle-item"
    case FrameworkStep => "framework-step"
    case Quote => "quote"
    case Comparison => "comparison"
    case Stat => "stat"
    case Question => "question"
    case Tip => "tip"
    case MythBuster => "myth-buster"
    case Split => "split"
    case Highlight => "highlight"
    case Chapter => "chapter"
    case ImageLeft => "image-left"
    case ImageRight => "image-right"
    case ImageTop => "image-top"
    case PhoneMockup => "phone-mockup"
  }

  /** Every slide type, in declaration order. */
  function AllSlideTypes(): (r: seq<SlideType>)
    ensures |r| == 18
  {
    [Hook, Content, Cta, ListicleItem, FrameworkStep,
     Quote, Comparison, Stat, Question, Tip, MythBuster, Split, Highlight, Chapter,
     ImageLeft, ImageRight, ImageTop, PhoneMockup]
  }

  /** The list is complete. */
  lemma AllSlideTypesComplete(t: SlideType)
    ensures t in AllSlideTypes()
  {
    var all := AllSlideTypes();
    match t
    case Hook => assert all[0] == t;
    case Content => assert all[1] == t;
    case Cta => assert all[2] == t;
    case ListicleItem => assert all[3] == t;
    case FrameworkStep => assert all[4] == t;
    case Quote => assert all[5] == t;
    case Comparison => assert all[6] == t;
    case Stat => assert all[7] == t;
    case Question => assert all[8] == t;
    case Tip => assert all[9] == t;
    case MythBuster => assert all[10] == t;
    case Split => assert all[11] == t;
    case Highlight => assert all[12] == t;
    case Chapter => assert all[13] == t;
    case ImageLeft => assert all[14] == t;
    case ImageRight => assert all[15] == t;
    case ImageTop => assert all[16] == t;
    case PhoneMockup => assert all[17] == t;
  }

  /** The slide type a string names, if it names one. */
  function ParseSlideType(s: string): (r: Option<SlideType>)
    ensures r.Some? ==> SlideTypeName(r.value) == s
  {
    if s == "hook" then Some(Hook)
    else if s == "content" then Some(Content)
    else if s == "cta" then Some(Cta)
    else if s == "listicle-item" then Some(ListicleItem)
    else if s == "framework-step" then Some(FrameworkStep)
    else if s == "quote" then Some(Quote)
    else if s == "comparison" then Some(Comparison)
    else if s == "stat" then Some(Stat)
    else if s == "question" then Some(Question)
    else if s == "tip" then Some(Tip)
    else if s == "myth-buster" then Some(MythBuster)
    else if s == "split" then Some(Split)
    else if s == "highlight" then Some(Highlight)
    else if s == "chapter" then Some(Chapter)
    else if s == "image-left" then Some(ImageLeft)
    else if s == "image-right" then Some(ImageRight)
    else if s == "image-top" then Some(ImageTop)
    else if s == "phone-mockup" then Some(PhoneMockup)
    else None
  }

  /** Parsing a slide type's name gives back that slide type; so the
      eighteen names are pairwise distinct. */
  lemma ParseSlideTypeName(t: SlideType)
    ensures ParseSlideType(SlideTypeName(t)) == Some(t)
  {
  }

  /** A string that is no slide type's name parses to nothing, and only such
      a string does. */
  lemma ParseSlideTypeNone(s: string)
    ensures ParseSlideType(s).None? <==> forall t :: SlideTypeName(t) != s
  {
    if ParseSlideType(s).None? {
      forall t ensures SlideTypeName(t) != s {
        ParseSlideTypeName(t);
      }
    }
  }

  lemma SlideTypeNamesDistinct(t: SlideType, u: SlideType)
    ensures SlideTypeName(t) == SlideTypeName(u) ==> t == u
  {
    ParseSlideTypeName(t);
    ParseSlideTypeName(u);
  }

  /** What the user picks: one colour for all slides, or alternating. */
  datatype ColorMode = DarkMode | LightMode | MixedMode

  /** What a planned slide carries: only ever dark or light. */
  datatype SlideColor = Dark | Light

  function SlideColorName(c: SlideColor): string {
    match c
    case Dark => "dark"
    case Light => "light"
  }

  datatype Platform = LinkedIn | Instagram

  /** Width and height in pixels, aspect ratio as "w:h", and a display label. */
  datatype PlatformSettings = PlatformSettings(width: nat, height: nat, aspectRatio: string, displayLabel: string)

  /** The image format of each platform; the aspect-ratio string is the
      reduced width-to-height ratio. */
  function Settings(p: Platform): (r: PlatformSettings)
    ensures exists w: nat, h: nat ::
              && 0 < w && 0 < h
              && r.aspectRatio == NatToString(w) + ":" + NatToString(h)
              && r.width * h == r.height * w
  {
    match p
    case LinkedIn =>
      assert "1:1" == NatToString(1) + ":" + NatToString(1);
      PlatformSettings(1080, 1080, "1:1", "LinkedIn (1080x1080 square)")
    case Instagram =>
      assert "4:5" == NatToString(4) + ":" + NatToString(5);
      assert 1080 * 5 == 1350 * 4;
      PlatformSettings(1080, 1350, "4:5", "Instagram (1080x1350, 4:5)")
  }

  /** Image resolutions offered by the image service. */
  datatype Resolution = K1 | K2 | K4

  function ResolutionName(r: Resolution): string {
    match r
    case K1 => "1K"
    case K2 => "2K"
    case K4 => "4K"
  }

  /** The approximate price of one image, in US cents (0.15, 0.30, 0.60 dollars). */
  function CostPerImageCents(res: Resolution): nat {
    match res
    case K1 => 15
    case K2 => 30
    case K4 => 60
  }

  /** Each price tier costs exactly double the one below it. */
  lemma CostTiersDouble()
    ensures CostPerImageCents(K2) == 2 * CostPerImageCents(K1)
    ensures CostPerImageCents(K4) == 2 * CostPerImageCents(K2)
  {
  }

  /** One slide of a plan. The fields the three plan builders never set
      (quote author, comparison sides, image fields) are not modelled. */
  datatype SlideConfig = SlideConfig(
    index: int,
    slideType: SlideType,
    title: string,
    subtitle: Option<string>,
    bodyText: Option<string>,
    number: Option<int>,
    accentText: Option<string>,
    showSwipeArrow: bool,
    colorMode: SlideColor)

  /** A slide image written to disk. */
  datatype GeneratedSlide = GeneratedSlide(index: int, filename: string, path: string, slideType: SlideType)

  /** What a complete generation run returns; the cost is in cents. */
  datatype CarouselResult = CarouselResult(
    slides: seq<GeneratedSlide>, pdfPath: Option<string>, outputDir: string, totalCostCents: nat)
}
