/** The image service's configuration: the two model identifiers, the fixed
    generation settings, the cost estimate, and the API-key check made before
    the client is configured. */
module FalConfig {
  import opened Wrappers
  import opened Strings
  import opened CarouselTypes

  /** The service's models: text to image, and image editing. */
  datatype FalModel = TextToImage | ImageEdit

  function ModelId(m: FalModel): (r: string)
    ensures StartsWith(r, "fal-ai/nano-banana-pro")
  {
    match m
    case TextToImage => "fal-ai/nano-banana-pro"
    case ImageEdit => "fal-ai/nano-banana-pro/edit"
  }

  /** The edit model is the text-to-image model's `edit` endpoint. */
  lemma ModelIdsRelated()
    ensures ModelId(ImageEdit) == ModelId(TextToImage) + "/edit"
  {
  }

  datatype GenerationSettings = GenerationSettings(resolution: Resolution, outputFormat: string, limitGenerations: bool)

  /** `GENERATION_SETTINGS`. */
  const Generation: GenerationSettings := GenerationSettings(K2, "png", true)

  /** The price table `estimateCost` keeps, in cents, keyed as the
      resolution is written. */
  function PriceTable(): map<string, nat> {
    map["1K" := 15, "2K" := 30, "4K" := 60]
  }

  /** `estimateCost(slideCount, resolution)`, in cents. */
  function EstimateCost(slideCount: int, resolution: Resolution): int {
    slideCount * PriceTable()[ResolutionName(resolution)]
  }

  /** The resolution `estimateCost` uses when none is given. */
  const DefaultResolution: Resolution := K2

  /** The estimator's own table agrees with the per-image costs of the
      carousel types: the estimate is the slide count times that cost. */
  lemma EstimateCostMatchesTable(slideCount: int, resolution: Resolution)
    ensures EstimateCost(slideCount, resolution) == slideCount * CostPerImageCents(resolution)
  {
  }

  /** The estimate adds up over slides and doubles from tier to tier. */
  lemma EstimateCostAdditive(a: int, b: int, resolution: Resolution)
    ensures EstimateCost(a + b, resolution) == EstimateCost(a, resolution) + EstimateCost(b, resolution)
  {
    EstimateCostMatchesTable(a + b, resolution);
    EstimateCostMatchesTable(a, resolution);
    EstimateCostMatchesTable(b, resolution);
    assert (a + b) * CostPerImageCents(resolution)
        == a * CostPerImageCents(resolution) + b * CostPerImageCents(resolution);
  }

  /** A run at the generation settings' resolution costs what the default
      estimate says. */
  lemma DefaultEstimate(slideCount: int)
    ensures EstimateCost(slideCount, DefaultResolution) == slideCount * CostPerImageCents(Generation.resolution)
    ensures EstimateCost(slideCount, DefaultResolution) == 30 * slideCount
  {
  }

  /** What `configureFAL` does: exit with a status after printing a help
      text, or configure the client with the key. */
  datatype ConfigureOutcome = Exit(status: int, stderr: seq<string>) | Configured(credentials: string)

  /** The help text printed when the key is missing. */
  function MissingKeyHelp(): (r: seq<string>)
    ensures |r| == 8 && r[1] == "FAL_KEY environment variable is required."
  {
    ["\n",
     "FAL_KEY environment variable is required.",
     "",
     "To set it:",
     "  export FAL_KEY=\"your-api-key\"",
     "",
     "Get your API key at: https://fal.ai/dashboard/keys",
     ""]
  }

  /** `configureFAL` over the process environment. */
  function ConfigureFal(env: map<string, string>): (r: ConfigureOutcome)
    ensures r.Configured? <==> "FAL_KEY" in env && env["FAL_KEY"] != ""
    ensures r.Configured? ==> r.credentials == env["FAL_KEY"]
    ensures r.Exit? ==> r.status == 1 && "FAL_KEY environment variable is required." in r.stderr
  {
    var apiKey := if "FAL_KEY" in env then env["FAL_KEY"] else "";
    if apiKey == "" then Exit(1, MissingKeyHelp()) else Configured(apiKey)
  }
}
