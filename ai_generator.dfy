/** Generating a carousel with the image service: one request per planned
    slide, in order; the first slide is drawn from its text prompt alone, and
    every later slide is an edit of the slide before it, passed along as a
    data URI, so that fonts, colours and layout carry over. Each image is
    saved as it arrives, and the saved slides are bundled into a PDF.

    The image service and the network are the functions `subscribe` and
    `fetch`, indexed by the number of the call: for slide `k` the service is
    called as call `k`, and the result image is downloaded twice, as call
    `2k` (the reference for the next slide) and as call `2k + 1` (the copy
    that is saved). A service call may reject; nothing catches its error,
    so it ends the run. */
module AiGenerator {
  import opened Wrappers
  import opened Strings
  import opened Paths
  import opened CarouselTypes
  import opened FileSystems
  import opened Base64
  import FalConfig
  import Templates
  import SlidePrompts
  import ImageUtils
  import PdfBundler

  /** What the user asked for. */
  datatype GenerationOptions = GenerationOptions(
    platform: Platform,
    template: string,
    topic: string,
    thoughts: string,
    slideCount: int,
    colorMode: ColorMode,
    outputDir: string)

  /** One call of the image service: the model and the input it is given. */
  datatype Request = Request(
    model: FalConfig.FalModel,
    prompt: string,
    imageUrls: seq<string>,
    aspectRatio: string,
    resolution: Resolution,
    outputFormat: string,
    numImages: nat,
    limitGenerations: Option<bool>)

  /** A text-to-image call: no reference image, generations limited. */
  function TextRequest(prompt: string, p: Platform): Request {
    Request(FalConfig.TextToImage, prompt, [], Settings(p).aspectRatio, FalConfig.Generation.resolution,
            FalConfig.Generation.outputFormat, 1, Some(FalConfig.Generation.limitGenerations))
  }

  /** An edit call on one reference image. */
  function EditRequest(prompt: string, p: Platform, reference: string): Request {
    Request(FalConfig.ImageEdit, prompt, [reference], Settings(p).aspectRatio, FalConfig.Generation.resolution,
            FalConfig.Generation.outputFormat, 1, None)
  }

  /** What the service answers: the image URLs, either under `data` or at the
      top level; or the error the call rejects with, which nothing catches. */
  datatype FalResponse =
    | FalResponse(dataImages: Option<seq<string>>, images: Option<seq<string>>)
    | FalRejected(message: string)

  /** `response.data?.images || response.images`: an image list under `data`
      wins, even an empty one. A rejected call has no answer. */
  function ImagesOf(resp: FalResponse): Option<seq<string>> {
    if resp.FalRejected? then None
    else if resp.dataImages.Some? then resp.dataImages else resp.images
  }

  predicate HasImages(resp: FalResponse) {
    ImagesOf(resp).Some? && |ImagesOf(resp).value| > 0
  }

  /** The URL of the first image, when there is one. */
  function FirstUrl(resp: FalResponse): string {
    if HasImages(resp) then ImagesOf(resp).value[0] else ""
  }

  /** What the progress callback is told before each slide. */
  datatype Progress = Progress(current: int, total: int, slideType: SlideType)

  /** The slide plan of the chosen template, or the lookup error. */
  function Plan(o: GenerationOptions): (r: Result<seq<SlideConfig>, string>)
    ensures r.Ok? <==> o.template in Templates.Keys
    ensures r.Err? ==> r.error == "Unknown template: " + o.template
  {
    match Templates.GetTemplate(o.template)
    case Err(e) => Err(e)
    case Ok(t) => Ok(Templates.GeneratePlan(t, o.topic, o.thoughts, o.slideCount, o.colorMode))
  }

  /** The prompt `buildSlidePrompt` writes for a slide drawn from scratch. */
  function FirstSlidePrompt(o: GenerationOptions, c: SlideConfig): string {
    Join(SlidePrompts.PromptSections(c, o.platform, true, o.topic, o.thoughts), "\n")
  }

  /** The prompt `buildSlidePrompt` writes for each slide of a plan,
      drawn from scratch. */
  function FirstPrompts(o: GenerationOptions, configs: seq<SlideConfig>): (r: seq<string>)
    ensures |r| == |configs|
    ensures forall k :: 0 <= k < |configs| ==> r[k] == FirstSlidePrompt(o, configs[k])
  {
    seq(|configs|, k requires 0 <= k < |configs| => FirstSlidePrompt(o, configs[k]))
  }

  /** The prompt `buildEditPrompt` writes for each slide of a plan. */
  function EditPrompts(o: GenerationOptions, configs: seq<SlideConfig>): (r: seq<string>)
    ensures |r| == |configs|
    ensures forall k :: 0 <= k < |configs| ==>
              r[k] == SlidePrompts.BuildEditPrompt(configs[k], o.platform, o.topic, o.thoughts)
  {
    seq(|configs|, k requires 0 <= k < |configs| =>
          SlidePrompts.BuildEditPrompt(configs[k], o.platform, o.topic, o.thoughts))
  }

  /** The call made for slide `k`, given its two candidate prompts and the
      data URI of the previous slide when there is one. */
  function RequestFor(p: Platform, firstPrompt: string, editPrompt: string, k: nat, previous: Option<string>): Request {
    if k == 0 || previous.None? then TextRequest(firstPrompt, p)
    else EditRequest(editPrompt, p, previous.value)
  }

  /** The two downloads of slide `k`'s image. */
  function ReferenceDownload(subscribe: (nat, Request) -> FalResponse, fetch: (nat, string) -> ImageUtils.HttpResponse,
                             k: nat, req: Request): ImageUtils.HttpResponse {
    fetch(2 * k, FirstUrl(subscribe(k, req)))
  }

  function SaveDownload(subscribe: (nat, Request) -> FalResponse, fetch: (nat, string) -> ImageUtils.HttpResponse,
                        k: nat, req: Request): ImageUtils.HttpResponse {
    fetch(2 * k + 1, FirstUrl(subscribe(k, req)))
  }

  /** Why slide `k` fails, if it does: the call rejecting, no image in the
      answer, or one of the two downloads failing, checked in that order. */
  function StepError(subscribe: (nat, Request) -> FalResponse, fetch: (nat, string) -> ImageUtils.HttpResponse,
                     k: nat, req: Request): Option<string> {
    if subscribe(k, req).FalRejected? then Some(subscribe(k, req).message)
    else if !HasImages(subscribe(k, req)) then Some("No images returned for slide " + IntToString(k + 1))
    else if ImageUtils.DownloadImage(ReferenceDownload(subscribe, fetch, k, req)).Err? then
      Some(ImageUtils.DownloadImage(ReferenceDownload(subscribe, fetch, k, req)).error)
    else if ImageUtils.DownloadImage(SaveDownload(subscribe, fetch, k, req)).Err? then
      Some(ImageUtils.DownloadImage(SaveDownload(subscribe, fetch, k, req)).error)
    else None
  }

  /** The data URI slide `k` hands on to slide `k + 1`. */
  function Reference(subscribe: (nat, Request) -> FalResponse, fetch: (nat, string) -> ImageUtils.HttpResponse,
                     k: nat, req: Request): string {
    ImageUtils.DataUri(ReferenceDownload(subscribe, fetch, k, req).body, ImageUtils.DefaultMime)
  }

  /** The reference call `k` of a run is made on: the image call `k - 1`
      brought back, and none for the first call. */
  function PreviousAt(subscribe: (nat, Request) -> FalResponse, fetch: (nat, string) -> ImageUtils.HttpResponse,
                      requests: seq<Request>, k: nat): (r: Option<string>)
    requires k <= |requests|
    ensures r.None? <==> k == 0
  {
    if k == 0 then None else Some(Reference(subscribe, fetch, k - 1, requests[k - 1]))
  }

  /** Each call of a list is the one for its slide: slide `k`'s two
      candidate prompts, on the reference the call before it brought back. */
  predicate Chained(p: Platform, firstPrompts: seq<string>, editPrompts: seq<string>,
                    subscribe: (nat, Request) -> FalResponse, fetch: (nat, string) -> ImageUtils.HttpResponse,
                    requests: seq<Request>)
  {
    && |requests| <= |firstPrompts| && |requests| <= |editPrompts|
    && forall k {:trigger firstPrompts[k]} :: 0 <= k < |requests| ==>
         requests[k] == RequestFor(p, firstPrompts[k], editPrompts[k], k, PreviousAt(subscribe, fetch, requests, k))
  }

  /** The first `n` calls of a run, built call by call: the reference
      definition of a chained list of calls. */
  function ExpectedRequests(p: Platform, firstPrompts: seq<string>, editPrompts: seq<string>, n: nat,
                            subscribe: (nat, Request) -> FalResponse, fetch: (nat, string) -> ImageUtils.HttpResponse)
    : (r: seq<Request>)
    requires n <= |firstPrompts| && n <= |editPrompts|
    ensures |r| == n
  {
    if n == 0 then []
    else
      var earlier := ExpectedRequests(p, firstPrompts, editPrompts, n - 1, subscribe, fetch);
      earlier + [RequestFor(p, firstPrompts[n - 1], editPrompts[n - 1], n - 1,
                            PreviousAt(subscribe, fetch, earlier, n - 1))]
  }

  /** The first `n` calls of a list all went through. */
  predicate StepsSucceed(subscribe: (nat, Request) -> FalResponse, fetch: (nat, string) -> ImageUtils.HttpResponse,
                         requests: seq<Request>, n: nat)
  {
    forall k :: 0 <= k < n && k < |requests| ==> StepSucceeds(subscribe, fetch, k, requests[k])
  }

  /** Slide `k` goes through: an image came back and both its downloads
      answered with a 2xx status. */
  predicate StepSucceeds(subscribe: (nat, Request) -> FalResponse, fetch: (nat, string) -> ImageUtils.HttpResponse,
                         k: nat, req: Request)
  {
    && HasImages(subscribe(k, req))
    && 200 <= ReferenceDownload(subscribe, fetch, k, req).status <= 299
    && 200 <= SaveDownload(subscribe, fetch, k, req).status <= 299
  }

  /** Report `k` counts slide `k + 1` of all the plan's slides and names its
      type. */
  predicate ProgressReports(configs: seq<SlideConfig>, progress: seq<Progress>) {
    && |progress| <= |configs|
    && forall k :: 0 <= k < |progress| ==> progress[k] == Progress(k + 1, |configs|, configs[k].slideType)
  }

  /** The record of a saved slide. */
  function SlideFor(outputDir: string, c: SlideConfig): GeneratedSlide {
    var filename := ImageUtils.SlideFilename(c.index, SlideTypeName(c.slideType));
    GeneratedSlide(c.index, filename, PathJoin(outputDir, filename), c.slideType)
  }

  /** Each record of a list of saved slides is the one for the plan's
      configuration at the same position. */
  predicate SlidesMatch(outputDir: string, configs: seq<SlideConfig>, slides: seq<GeneratedSlide>) {
    slides <= PlanSlides(outputDir, configs)
  }

  /** The records of a whole plan, in order. */
  function PlanSlides(outputDir: string, configs: seq<SlideConfig>): (r: seq<GeneratedSlide>)
    ensures |r| == |configs|
    ensures forall k :: 0 <= k < |configs| ==> r[k] == SlideFor(outputDir, configs[k])
  {
    seq(|configs|, k requires 0 <= k < |configs| => SlideFor(outputDir, configs[k]))
  }

  /** The paths of the records of a whole plan. */
  function PlanPaths(outputDir: string, configs: seq<SlideConfig>): (r: seq<string>)
    ensures |r| == |configs|
    ensures forall k :: 0 <= k < |configs| ==> r[k] == SlideFor(outputDir, configs[k]).path
  {
    SlidePaths(PlanSlides(outputDir, configs))
  }

  function SlidePaths(slides: seq<GeneratedSlide>): (r: seq<string>)
    ensures |r| == |slides| && forall i :: 0 <= i < |r| ==> r[i] == slides[i].path
  {
    seq(|slides|, i requires 0 <= i < |slides| => slides[i].path)
  }

  /** Where the carousel's PDF goes. */
  function PdfPath(outputDir: string): string {
    outputDir + "/carousel.pdf"
  }

  /** The files after the first `n` slides of a run were saved: slide `k`'s
      second download under path `k`, one after another. */
  function SavedFiles(before: map<string, seq<byte>>, paths: seq<string>,
                      subscribe: (nat, Request) -> FalResponse, fetch: (nat, string) -> ImageUtils.HttpResponse,
                      requests: seq<Request>, n: nat): map<string, seq<byte>>
    requires n <= |paths| && n <= |requests|
  {
    if n == 0 then before
    else SavedFiles(before, paths, subscribe, fetch, requests, n - 1)
           [paths[n - 1] := SaveDownload(subscribe, fetch, n - 1, requests[n - 1]).body]
  }

  /** The directories after the first `n` slides were saved: each save makes
      the directory of its file. */
  function SavedDirs(before: set<string>, paths: seq<string>, n: nat): set<string>
    requires n <= |paths|
  {
    if n == 0 then before else SavedDirs(before, paths, n - 1) + {Parent(paths[n - 1])}
  }

  /** Later calls do not change what the earlier slides saved. */
  lemma {:induction false} SavedFilesExtend(before: map<string, seq<byte>>, paths: seq<string>,
                                            subscribe: (nat, Request) -> FalResponse,
                                            fetch: (nat, string) -> ImageUtils.HttpResponse,
                                            requests: seq<Request>, request: Request, n: nat)
    requires n <= |paths| && n <= |requests|
    ensures SavedFiles(before, paths, subscribe, fetch, requests + [request], n)
            == SavedFiles(before, paths, subscribe, fetch, requests, n)
  {
    if n > 0 {
      SavedFilesExtend(before, paths, subscribe, fetch, requests, request, n - 1);
      assert (requests + [request])[n - 1] == requests[n - 1];
    }
  }

  /** Saving slide `i` moves the saved files and directories on by one. */
  lemma SavedAdvances(before: map<string, seq<byte>>, dirsBefore: set<string>, paths: seq<string>,
                      subscribe: (nat, Request) -> FalResponse, fetch: (nat, string) -> ImageUtils.HttpResponse,
                      requests: seq<Request>, request: Request)
    requires |requests| < |paths|
    ensures SavedFiles(before, paths, subscribe, fetch, requests + [request], |requests| + 1)
            == SavedFiles(before, paths, subscribe, fetch, requests, |requests|)
                 [paths[|requests|] := SaveDownload(subscribe, fetch, |requests|, request).body]
    ensures SavedDirs(dirsBefore, paths, |requests| + 1)
            == SavedDirs(dirsBefore, paths, |requests|) + {Parent(paths[|requests|])}
  {
    SavedFilesExtend(before, paths, subscribe, fetch, requests, request, |requests|);
    assert (requests + [request])[|requests|] == request;
  }

  /** `files` and `dirs` are the disk after the first `n` slides were saved. */
  ghost predicate SavedSoFar(filesBefore: map<string, seq<byte>>, dirsBefore: set<string>, paths: seq<string>,
                             subscribe: (nat, Request) -> FalResponse,
                             fetch: (nat, string) -> ImageUtils.HttpResponse,
                             requests: seq<Request>, n: int, files: map<string, seq<byte>>, dirs: set<string>)
  {
    && 0 <= n <= |paths| && n <= |requests|
    && files == SavedFiles(filesBefore, paths, subscribe, fetch, requests, n)
    && dirs == SavedDirs(dirsBefore, paths, n)
  }

  /** Saving slide `i` on the disk of the first `i` slides gives the disk of
      the first `i + 1`. */
  lemma SavedSoFarAdvances(filesBefore: map<string, seq<byte>>, dirsBefore: set<string>, paths: seq<string>,
                           subscribe: (nat, Request) -> FalResponse,
                           fetch: (nat, string) -> ImageUtils.HttpResponse,
                           requests: seq<Request>, request: Request,
                           files: map<string, seq<byte>>, dirs: set<string>)
    requires |requests| < |paths|
    requires SavedSoFar(filesBefore, dirsBefore, paths, subscribe, fetch, requests, |requests|, files, dirs)
    ensures SavedSoFar(filesBefore, dirsBefore, paths, subscribe, fetch, requests + [request], |requests| + 1,
                       files[paths[|requests|] := SaveDownload(subscribe, fetch, |requests|, request).body],
                       dirs + {Parent(paths[|requests|])})
  {
    SavedAdvances(filesBefore, dirsBefore, paths, subscribe, fetch, requests, request);
  }

  /** Saving slide `i` of a plan under its own path moves the disk on by one
      slide. */
  lemma SlideSaved(outputDir: string, configs: seq<SlideConfig>,
                   filesBefore: map<string, seq<byte>>, dirsBefore: set<string>,
                   subscribe: (nat, Request) -> FalResponse, fetch: (nat, string) -> ImageUtils.HttpResponse,
                   requests: seq<Request>, request: Request, files: map<string, seq<byte>>, dirs: set<string>)
    requires |requests| < |configs|
    requires SavedSoFar(filesBefore, dirsBefore, PlanPaths(outputDir, configs), subscribe, fetch, requests,
                        |requests|, files, dirs)
    ensures var path := SlideFor(outputDir, configs[|requests|]).path;
            SavedSoFar(filesBefore, dirsBefore, PlanPaths(outputDir, configs), subscribe, fetch,
                       requests + [request], |requests| + 1,
                       files[path := SaveDownload(subscribe, fetch, |requests|, request).body],
                       dirs + {Parent(path)})
  {
    var paths := PlanPaths(outputDir, configs);
    assert paths[|requests|] == SlideFor(outputDir, configs[|requests|]).path;
    SavedSoFarAdvances(filesBefore, dirsBefore, paths, subscribe, fetch, requests, request, files, dirs);
  }

  /** A slide that fails saves nothing: the disk is still that of the slides
      before it. */
  lemma SavedSoFarStops(filesBefore: map<string, seq<byte>>, dirsBefore: set<string>, paths: seq<string>,
                        subscribe: (nat, Request) -> FalResponse,
                        fetch: (nat, string) -> ImageUtils.HttpResponse,
                        requests: seq<Request>, request: Request,
                        files: map<string, seq<byte>>, dirs: set<string>)
    requires SavedSoFar(filesBefore, dirsBefore, paths, subscribe, fetch, requests, |requests|, files, dirs)
    ensures SavedSoFar(filesBefore, dirsBefore, paths, subscribe, fetch, requests + [request], |requests|,
                       files, dirs)
  {
    SavedFilesExtend(filesBefore, paths, subscribe, fetch, requests, request, |requests|);
  }

  /** No two entries of a list are the same. */
  predicate Distinct(paths: seq<string>) {
    forall i, j :: 0 <= i < j < |paths| ==> paths[i] != paths[j]
  }

  /** When the paths are distinct, slide `k`'s file holds its own second
      download, whatever the other slides saved. */
  lemma {:induction false} SavedFileOfSlide(before: map<string, seq<byte>>, paths: seq<string>,
                                            subscribe: (nat, Request) -> FalResponse,
                                            fetch: (nat, string) -> ImageUtils.HttpResponse,
                                            requests: seq<Request>, n: nat, k: nat)
    requires n <= |paths| && n <= |requests| && k < n && Distinct(paths)
    ensures var saved := SavedFiles(before, paths, subscribe, fetch, requests, n);
            paths[k] in saved && saved[paths[k]] == SaveDownload(subscribe, fetch, k, requests[k]).body
  {
    if k < n - 1 {
      SavedFileOfSlide(before, paths, subscribe, fetch, requests, n - 1, k);
    }
  }

  /** Slides with non-negative, pairwise distinct indices. */
  predicate DistinctIndices(configs: seq<SlideConfig>) {
    && (forall i :: 0 <= i < |configs| ==> configs[i].index >= 0)
    && (forall i, j :: 0 <= i < j < |configs| ==> configs[i].index != configs[j].index)
  }

  /** Slides with distinct indices are saved under distinct paths. */
  lemma PlanPathsDistinct(outputDir: string, configs: seq<SlideConfig>)
    requires DistinctIndices(configs)
    ensures Distinct(PlanPaths(outputDir, configs))
  {
    var paths := PlanPaths(outputDir, configs);
    forall i, j | 0 <= i < j < |paths| ensures paths[i] != paths[j] {
      var a, b := configs[i], configs[j];
      if paths[i] == paths[j] {
        PathJoinInjective(outputDir, SlideFor(outputDir, a).filename, SlideFor(outputDir, b).filename);
        ImageUtils.SlideFilenameIndex(a.index, b.index, SlideTypeName(a.slideType), SlideTypeName(b.slideType));
      }
    }
  }

  /** Each template plans distinct non-negative indices, 0 up to the slide
      count, for at least two slides. */
  lemma PlanIndicesDistinct(o: GenerationOptions)
    requires Plan(o).Ok? && o.slideCount >= 2
    ensures DistinctIndices(Plan(o).value)
  {
    Templates.PlanIndices(Templates.GetTemplate(o.template).value, o.topic, o.thoughts, o.slideCount, o.colorMode);
  }

  /** One slide of the loop: the call for slide `i`, then, if an image came
      back, its two downloads and the saved file. The call extends the run's
      calls so far; on success the result is the slide's record and the
      reference for the next slide. */
  method GenerateSlide(o: GenerationOptions, configs: seq<SlideConfig>, i: nat, previous: Option<string>,
                       firstPrompts: seq<string>, editPrompts: seq<string>, fs: FileSystem,
                       subscribe: (nat, Request) -> FalResponse, fetch: (nat, string) -> ImageUtils.HttpResponse)
    returns (r: Result<(GeneratedSlide, string), string>, request: Request)
    requires i < |configs|
    requires |firstPrompts| == |configs| == |editPrompts|
    modifies fs
    ensures request == RequestFor(o.platform, firstPrompts[i], editPrompts[i], i, previous)
    ensures r.Err? ==> StepError(subscribe, fetch, i, request) == Some(r.error)
    ensures r.Ok? ==>
              && StepError(subscribe, fetch, i, request).None?
              && r.value.0 == SlideFor(o.outputDir, configs[i])
              && r.value.1 == Reference(subscribe, fetch, i, request)
              && fs.files == old(fs.files)[r.value.0.path := SaveDownload(subscribe, fetch, i, request).body]
              && fs.dirs == old(fs.dirs) + {Parent(r.value.0.path)}
    ensures r.Err? ==> fs.files == old(fs.files) && fs.dirs == old(fs.dirs)
  {
    var config := configs[i];
    if i == 0 || previous.None? {
      request := TextRequest(firstPrompts[i], o.platform);
    } else {
      request := EditRequest(editPrompts[i], o.platform, previous.value);
    }
    var response := subscribe(i, request);
    if response.FalRejected? {
      return Err(response.message), request;
    }
    var images := ImagesOf(response);
    if images.None? || |images.value| == 0 {
      return Err("No images returned for slide " + IntToString(i + 1)), request;
    }
    var imageUrl := images.value[0];
    var imageBuffer := ImageUtils.DownloadImage(fetch(2 * i, imageUrl));
    if imageBuffer.Err? {
      return Err(imageBuffer.error), request;
    }
    var reference := ImageUtils.DataUri(imageBuffer.value, ImageUtils.DefaultMime);
    var filename := ImageUtils.SlideFilename(config.index, SlideTypeName(config.slideType));
    var outputPath := ImageUtils.DownloadAndSave(fs, fetch(2 * i + 1, imageUrl), o.outputDir, filename);
    if outputPath.Err? {
      return Err(outputPath.error), request;
    }
    r := Ok((GeneratedSlide(config.index, filename, outputPath.value, config.slideType), reference));
  }

  /** The loop's state before slide `i`: a progress report and a call for
      each slide so far, all of which went through, their records, the
      reference for slide `i`, and 30 cents per image. */
  ghost predicate RunSoFar(o: GenerationOptions, configs: seq<SlideConfig>,
                           firstPrompts: seq<string>, editPrompts: seq<string>,
                           subscribe: (nat, Request) -> FalResponse, fetch: (nat, string) -> ImageUtils.HttpResponse,
                           i: nat, slides: seq<GeneratedSlide>, requests: seq<Request>, progress: seq<Progress>,
                           previous: Option<string>, totalCost: nat)
  {
    && |firstPrompts| == |configs| == |editPrompts|
    && CallsSoFar(o.platform, firstPrompts, editPrompts, subscribe, fetch, i, requests, previous)
    && RecordsSoFar(o.outputDir, configs, i, slides, progress, totalCost)
  }

  /** The calls of the first `i` slides: chained, all gone through, and
      handing on the reference for slide `i`. */
  ghost predicate CallsSoFar(p: Platform, firstPrompts: seq<string>, editPrompts: seq<string>,
                             subscribe: (nat, Request) -> FalResponse, fetch: (nat, string) -> ImageUtils.HttpResponse,
                             i: nat, requests: seq<Request>, previous: Option<string>)
  {
    && |requests| == i
    && Chained(p, firstPrompts, editPrompts, subscribe, fetch, requests)
    && previous == PreviousAt(subscribe, fetch, requests, i)
    && StepsSucceed(subscribe, fetch, requests, i)
  }

  /** The reports, records and cost of the first `i` slides. */
  ghost predicate RecordsSoFar(outputDir: string, configs: seq<SlideConfig>, i: nat, slides: seq<GeneratedSlide>,
                               progress: seq<Progress>, totalCost: nat)
  {
    && i <= |configs| && |slides| == i
    && |progress| == i && ProgressReports(configs, progress)
    && SlidesMatch(outputDir, configs, slides)
    && totalCost == 30 * i
  }

  /** What the loop returns: the progress reports and calls for the slides
      it reached; on failure the last slide's step failed with the error and
      every earlier one went through; on success every slide went through,
      the records are the plan's and the cost is the price of one image per
      slide. */
  ghost predicate SlidesOutcome(o: GenerationOptions, configs: seq<SlideConfig>,
                                firstPrompts: seq<string>, editPrompts: seq<string>,
                                subscribe: (nat, Request) -> FalResponse,
                                fetch: (nat, string) -> ImageUtils.HttpResponse,
                                r: Result<(seq<GeneratedSlide>, nat), string>, requests: seq<Request>,
                                progress: seq<Progress>)
  {
    && |firstPrompts| == |configs| == |editPrompts|
    && |requests| <= |configs| && |progress| == |requests| && ProgressReports(configs, progress)
    && Chained(o.platform, firstPrompts, editPrompts, subscribe, fetch, requests)
    && (r.Err? ==>
          && |requests| > 0
          && StepsSucceed(subscribe, fetch, requests, |requests| - 1)
          && StepError(subscribe, fetch, |requests| - 1, requests[|requests| - 1]) == Some(r.error))
    && (r.Ok? ==>
          && |requests| == |configs|
          && StepsSucceed(subscribe, fetch, requests, |requests|)
          && |r.value.0| == |configs| && SlidesMatch(o.outputDir, configs, r.value.0)
          && r.value.1 == |configs| * CostPerImageCents(FalConfig.Generation.resolution))
  }

  /** The loop over the plan: one slide per configuration, stopping at the
      first failure. Returns the slides and their cost in cents. The two
      prompts of each slide are passed in; the carousel passes the prompt
      compiler's (`FirstPrompts`, `EditPrompts`). */
  method GenerateSlides(o: GenerationOptions, configs: seq<SlideConfig>,
                        firstPrompts: seq<string>, editPrompts: seq<string>, fs: FileSystem,
                        subscribe: (nat, Request) -> FalResponse, fetch: (nat, string) -> ImageUtils.HttpResponse)
    returns (r: Result<(seq<GeneratedSlide>, nat), string>, requests: seq<Request>, progress: seq<Progress>)
    requires |firstPrompts| == |configs| == |editPrompts|
    modifies fs
    ensures SlidesOutcome(o, configs, firstPrompts, editPrompts, subscribe, fetch, r, requests, progress)
    ensures SavedSoFar(old(fs.files), old(fs.dirs), PlanPaths(o.outputDir, configs), subscribe, fetch, requests,
                       if r.Ok? then |configs| else |requests| - 1, fs.files, fs.dirs)
  {
    var slides: seq<GeneratedSlide> := [];
    var previous: Option<string> := None;
    var totalCost: nat := 0;
    var price := CostPerImageCents(FalConfig.Generation.resolution);
    requests, progress := [], [];
    var i := 0;
    while i < |configs|
      invariant RunSoFar(o, configs, firstPrompts, editPrompts, subscribe, fetch, i, slides, requests, progress,
                         previous, totalCost)
      invariant i <= |configs| && |requests| == i
      invariant SavedSoFar(old(fs.files), old(fs.dirs), PlanPaths(o.outputDir, configs), subscribe, fetch, requests, i,
                           fs.files, fs.dirs)
    {
      var step, request, report := SlideStep(o, configs, firstPrompts, editPrompts, fs, subscribe, fetch,
                                             old(fs.files), old(fs.dirs), i, slides, requests, progress,
                                             previous, totalCost);
      if step.Err? {
        return Err(step.error), requests + [request], progress + [report];
      }
      progress := progress + [report];
      requests := requests + [request];
      totalCost := totalCost + price;
      previous := Some(step.value.1);
      slides := slides + [step.value.0];
      i := i + 1;
    }
    RunCompletes(o, configs, firstPrompts, editPrompts, subscribe, fetch, slides, requests, progress, previous,
                 totalCost);
    r := Ok((slides, totalCost));
  }

  /** One pass of the loop in `GenerateSlides`: the progress report and the
      step for slide `i`. A failing step gives the loop's outcome with the
      disk of the slides before it; a step that goes through moves the
      loop's state and the disk on by one slide. */
  method SlideStep(o: GenerationOptions, configs: seq<SlideConfig>,
                   firstPrompts: seq<string>, editPrompts: seq<string>, fs: FileSystem,
                   subscribe: (nat, Request) -> FalResponse, fetch: (nat, string) -> ImageUtils.HttpResponse,
                   ghost filesBefore: map<string, seq<byte>>, ghost dirsBefore: set<string>,
                   i: nat, slides: seq<GeneratedSlide>, requests: seq<Request>, progress: seq<Progress>,
                   previous: Option<string>, totalCost: nat)
    returns (step: Result<(GeneratedSlide, string), string>, request: Request, report: Progress)
    requires i < |configs|
    requires RunSoFar(o, configs, firstPrompts, editPrompts, subscribe, fetch, i, slides, requests, progress,
                      previous, totalCost)
    requires SavedSoFar(filesBefore, dirsBefore, PlanPaths(o.outputDir, configs), subscribe, fetch, requests, i,
                        fs.files, fs.dirs)
    modifies fs
    ensures report == Progress(i + 1, |configs|, configs[i].slideType)
    ensures step.Err? ==>
              && SlidesOutcome(o, configs, firstPrompts, editPrompts, subscribe, fetch, Err(step.error),
                               requests + [request], progress + [report])
              && SavedSoFar(filesBefore, dirsBefore, PlanPaths(o.outputDir, configs), subscribe, fetch,
                            requests + [request], i, fs.files, fs.dirs)
    ensures step.Ok? ==>
              && RunSoFar(o, configs, firstPrompts, editPrompts, subscribe, fetch, i + 1, slides + [step.value.0],
                          requests + [request], progress + [report], Some(step.value.1),
                          totalCost + CostPerImageCents(FalConfig.Generation.resolution))
              && SavedSoFar(filesBefore, dirsBefore, PlanPaths(o.outputDir, configs), subscribe, fetch,
                            requests + [request], i + 1, fs.files, fs.dirs)
  {
    ghost var filesNow, dirsNow := fs.files, fs.dirs;
    report := Progress(i + 1, |configs|, configs[i].slideType);
    step, request := GenerateSlide(o, configs, i, previous, firstPrompts, editPrompts, fs, subscribe, fetch);
    if step.Err? {
      RunStops(o, configs, firstPrompts, editPrompts, subscribe, fetch, i, slides, requests, request, progress,
               previous, totalCost, step.error);
      SavedSoFarStops(filesBefore, dirsBefore, PlanPaths(o.outputDir, configs), subscribe, fetch, requests, request,
                      fs.files, fs.dirs);
    } else {
      RunAdvances(o, configs, firstPrompts, editPrompts, subscribe, fetch, i, slides, requests, request, progress,
                  previous, totalCost, step.value.0, step.value.1);
      SlideSaved(o.outputDir, configs, filesBefore, dirsBefore, subscribe, fetch, requests, request,
                 filesNow, dirsNow);
    }
  }

  /** A slide that goes through moves the loop's state on by one slide. */
  lemma RunAdvances(o: GenerationOptions, configs: seq<SlideConfig>,
                    firstPrompts: seq<string>, editPrompts: seq<string>,
                    subscribe: (nat, Request) -> FalResponse, fetch: (nat, string) -> ImageUtils.HttpResponse,
                    i: nat, slides: seq<GeneratedSlide>, requests: seq<Request>, request: Request,
                    progress: seq<Progress>, previous: Option<string>, totalCost: nat,
                    slide: GeneratedSlide, reference: string)
    requires i < |configs|
    requires RunSoFar(o, configs, firstPrompts, editPrompts, subscribe, fetch, i, slides, requests, progress,
                      previous, totalCost)
    requires request == RequestFor(o.platform, firstPrompts[i], editPrompts[i], i, previous)
    requires StepError(subscribe, fetch, i, request).None?
    requires slide == SlideFor(o.outputDir, configs[i])
    requires reference == Reference(subscribe, fetch, i, request)
    ensures RunSoFar(o, configs, firstPrompts, editPrompts, subscribe, fetch, i + 1, slides + [slide],
                     requests + [request], progress + [Progress(i + 1, |configs|, configs[i].slideType)],
                     Some(reference), totalCost + CostPerImageCents(FalConfig.Generation.resolution))
  {
    CallsAdvance(o.platform, firstPrompts, editPrompts, subscribe, fetch, i, requests, request, previous);
    RecordsAdvance(o.outputDir, configs, i, slides, progress, totalCost, slide);
  }

  lemma CallsAdvance(p: Platform, firstPrompts: seq<string>, editPrompts: seq<string>,
                     subscribe: (nat, Request) -> FalResponse, fetch: (nat, string) -> ImageUtils.HttpResponse,
                     i: nat, requests: seq<Request>, request: Request, previous: Option<string>)
    requires i < |firstPrompts| && i < |editPrompts|
    requires CallsSoFar(p, firstPrompts, editPrompts, subscribe, fetch, i, requests, previous)
    requires request == RequestFor(p, firstPrompts[i], editPrompts[i], i, previous)
    requires StepError(subscribe, fetch, i, request).None?
    ensures CallsSoFar(p, firstPrompts, editPrompts, subscribe, fetch, i + 1, requests + [request],
                       Some(Reference(subscribe, fetch, i, request)))
  {
    ExtendChained(p, firstPrompts, editPrompts, subscribe, fetch, requests, request);
    ExtendSucceeds(subscribe, fetch, requests, request);
    assert (requests + [request])[i] == request;
  }

  lemma RecordsAdvance(outputDir: string, configs: seq<SlideConfig>, i: nat, slides: seq<GeneratedSlide>,
                       progress: seq<Progress>, totalCost: nat, slide: GeneratedSlide)
    requires i < |configs|
    requires RecordsSoFar(outputDir, configs, i, slides, progress, totalCost)
    requires slide == SlideFor(outputDir, configs[i])
    ensures RecordsSoFar(outputDir, configs, i + 1, slides + [slide],
                         progress + [Progress(i + 1, |configs|, configs[i].slideType)],
                         totalCost + CostPerImageCents(FalConfig.Generation.resolution))
  {
    ExtendProgress(configs, progress);
    ExtendSlides(outputDir, configs, slides, slide);
    assert CostPerImageCents(FalConfig.Generation.resolution) == 30;
  }

  /** The next call made on the last call's image extends a chained list. */
  lemma ExtendChained(p: Platform, firstPrompts: seq<string>, editPrompts: seq<string>,
                      subscribe: (nat, Request) -> FalResponse, fetch: (nat, string) -> ImageUtils.HttpResponse,
                      requests: seq<Request>, request: Request)
    requires Chained(p, firstPrompts, editPrompts, subscribe, fetch, requests)
    requires |requests| < |firstPrompts| && |requests| < |editPrompts|
    requires request == RequestFor(p, firstPrompts[|requests|], editPrompts[|requests|], |requests|,
                                   PreviousAt(subscribe, fetch, requests, |requests|))
    ensures Chained(p, firstPrompts, editPrompts, subscribe, fetch, requests + [request])
  {
    var longer := requests + [request];
    forall k | 0 <= k < |longer|
      ensures longer[k] == RequestFor(p, firstPrompts[k], editPrompts[k], k, PreviousAt(subscribe, fetch, longer, k))
    {
      if 0 < k {
        assert longer[k - 1] == requests[k - 1];
      }
      if k < |requests| {
        assert longer[k] == requests[k];
      }
    }
  }

  lemma ExtendSucceeds(subscribe: (nat, Request) -> FalResponse, fetch: (nat, string) -> ImageUtils.HttpResponse,
                       requests: seq<Request>, request: Request)
    requires StepsSucceed(subscribe, fetch, requests, |requests|)
    requires StepError(subscribe, fetch, |requests|, request).None?
    ensures StepsSucceed(subscribe, fetch, requests + [request], |requests| + 1)
  {
    var longer := requests + [request];
    forall k | 0 <= k < |longer| ensures StepError(subscribe, fetch, k, longer[k]).None? {
      if k < |requests| {
        assert longer[k] == requests[k];
      }
    }
  }

  lemma ExtendProgress(configs: seq<SlideConfig>, progress: seq<Progress>)
    requires ProgressReports(configs, progress) && |progress| < |configs|
    ensures ProgressReports(configs, progress + [Progress(|progress| + 1, |configs|, configs[|progress|].slideType)])
  {
    var longer := progress + [Progress(|progress| + 1, |configs|, configs[|progress|].slideType)];
    forall k | 0 <= k < |longer| ensures longer[k] == Progress(k + 1, |configs|, configs[k].slideType) {
      if k < |progress| {
        assert longer[k] == progress[k];
      }
    }
  }

  /** A slide that fails ends the loop with the calls made so far. */
  lemma RunStops(o: GenerationOptions, configs: seq<SlideConfig>,
                 firstPrompts: seq<string>, editPrompts: seq<string>,
                 subscribe: (nat, Request) -> FalResponse, fetch: (nat, string) -> ImageUtils.HttpResponse,
                 i: nat, slides: seq<GeneratedSlide>, requests: seq<Request>, request: Request,
                 progress: seq<Progress>, previous: Option<string>, totalCost: nat, error: string)
    requires i < |configs|
    requires RunSoFar(o, configs, firstPrompts, editPrompts, subscribe, fetch, i, slides, requests, progress,
                      previous, totalCost)
    requires request == RequestFor(o.platform, firstPrompts[i], editPrompts[i], i, previous)
    requires StepError(subscribe, fetch, i, request) == Some(error)
    ensures SlidesOutcome(o, configs, firstPrompts, editPrompts, subscribe, fetch, Err(error), requests + [request],
                          progress + [Progress(i + 1, |configs|, configs[i].slideType)])
  {
    CallsStop(o.platform, firstPrompts, editPrompts, subscribe, fetch, i, requests, request, previous, error);
    ExtendProgress(configs, progress);
  }

  lemma CallsStop(p: Platform, firstPrompts: seq<string>, editPrompts: seq<string>,
                  subscribe: (nat, Request) -> FalResponse, fetch: (nat, string) -> ImageUtils.HttpResponse,
                  i: nat, requests: seq<Request>, request: Request, previous: Option<string>, error: string)
    requires i < |firstPrompts| && i < |editPrompts|
    requires CallsSoFar(p, firstPrompts, editPrompts, subscribe, fetch, i, requests, previous)
    requires request == RequestFor(p, firstPrompts[i], editPrompts[i], i, previous)
    requires StepError(subscribe, fetch, i, request) == Some(error)
    ensures Chained(p, firstPrompts, editPrompts, subscribe, fetch, requests + [request])
    ensures StepsSucceed(subscribe, fetch, requests + [request], i)
    ensures (requests + [request])[i] == request
  {
    ExtendChained(p, firstPrompts, editPrompts, subscribe, fetch, requests, request);
    var longer := requests + [request];
    forall k | 0 <= k < i ensures StepError(subscribe, fetch, k, longer[k]).None? {
      assert longer[k] == requests[k];
    }
  }

  /** Past the last slide the loop's state is a successful outcome. */
  lemma RunCompletes(o: GenerationOptions, configs: seq<SlideConfig>,
                     firstPrompts: seq<string>, editPrompts: seq<string>,
                     subscribe: (nat, Request) -> FalResponse, fetch: (nat, string) -> ImageUtils.HttpResponse,
                     slides: seq<GeneratedSlide>, requests: seq<Request>, progress: seq<Progress>,
                     previous: Option<string>, totalCost: nat)
    requires RunSoFar(o, configs, firstPrompts, editPrompts, subscribe, fetch, |configs|, slides, requests, progress,
                      previous, totalCost)
    ensures SlidesOutcome(o, configs, firstPrompts, editPrompts, subscribe, fetch, Ok((slides, totalCost)),
                          requests, progress)
  {
    assert CostPerImageCents(FalConfig.Generation.resolution) == 30;
  }

  /** A slide's image is a PNG file, so its path is never the PDF's. */
  lemma SlidePathNotPdf(outputDir: string, c: SlideConfig)
    ensures SlideFor(outputDir, c).path != PdfPath(outputDir)
  {
    var s := SlideFor(outputDir, c);
    var p := PdfPath(outputDir);
    ImageUtils.SlideFilenameLast(c.index, SlideTypeName(c.slideType));
    PathJoinEnds(outputDir, s.filename);
    assert s.path[|s.path| - 1] == s.filename[|s.filename| - 1] == 'g';
    assert p[|p| - 1] == 'f';
  }

  /** The PDF step: the saved slides, in plan order, bundled into
      `carousel.pdf` in the output directory. The slides' own files are left
      as they are, since none of them is the PDF. */
  method BundleSlides(outputDir: string, configs: seq<SlideConfig>, slides: seq<GeneratedSlide>, fs: FileSystem,
                      embedPng: seq<byte> -> Result<PdfBundler.PngImage, string>,
                      save: seq<PdfBundler.Page> -> seq<byte>)
    returns (r: Result<string, string>)
    requires |slides| == |configs| && SlidesMatch(outputDir, configs, slides)
    modifies fs
    ensures r.Ok? ==>
              && r.value == PdfPath(outputDir)
              && PdfBundler.Pages(old(fs.files), SlidePaths(slides), embedPng).Ok?
              && fs.files == old(fs.files)[PdfPath(outputDir) :=
                                             save(PdfBundler.Pages(old(fs.files), SlidePaths(slides), embedPng).value)]
              && fs.dirs == old(fs.dirs) + {Parent(PdfPath(outputDir))}
              && PdfBundler.Pages(fs.files, SlidePaths(slides), embedPng)
                 == PdfBundler.Pages(old(fs.files), SlidePaths(slides), embedPng)
    ensures r.Err? ==>
              && PdfBundler.Pages(fs.files, SlidePaths(slides), embedPng) == Err(r.error)
              && fs.files == old(fs.files) && fs.dirs == old(fs.dirs)
  {
    var slidePaths := SlidePaths(slides);
    var pdfPath := PdfPath(outputDir);
    forall k | 0 <= k < |configs| ensures slidePaths[k] != pdfPath {
      SlidePathNotPdf(outputDir, configs[k]);
    }
    ghost var filesBefore := fs.files;
    r := PdfBundler.BundleToPdf(fs, slidePaths, pdfPath, embedPng, save);
    if r.Ok? {
      PdfBundler.PagesFrame(filesBefore, pdfPath, fs.files[pdfPath], slidePaths, embedPng);
    }
  }

  /** What a run over a plan leaves behind, given the disk before and after
      it: the progress reports and calls for the slides it reached; on
      success every slide went through, the records are the plan's, the cost
      is the estimate for as many slides at the default resolution, each
      slide's second download is saved under its record's path and the PDF
      in the output directory holds one page per saved slide, in plan order,
      and nothing else changed; on failure, either the last slide's step
      failed with that error and the slides before it were saved, or every
      slide went through and was saved and bundling the PDF failed with it. */
  ghost predicate CarouselOutcome(o: GenerationOptions, configs: seq<SlideConfig>,
                                  firstPrompts: seq<string>, editPrompts: seq<string>,
                                  subscribe: (nat, Request) -> FalResponse,
                                  fetch: (nat, string) -> ImageUtils.HttpResponse,
                                  embedPng: seq<byte> -> Result<PdfBundler.PngImage, string>,
                                  save: seq<PdfBundler.Page> -> seq<byte>,
                                  filesBefore: map<string, seq<byte>>, dirsBefore: set<string>,
                                  files: map<string, seq<byte>>, dirs: set<string>,
                                  r: Result<CarouselResult, string>, requests: seq<Request>, progress: seq<Progress>)
  {
    && |firstPrompts| == |configs| == |editPrompts|
    && |requests| <= |configs|
    && |progress| == |requests| && ProgressReports(configs, progress)
    && Chained(o.platform, firstPrompts, editPrompts, subscribe, fetch, requests)
    && var paths := PlanPaths(o.outputDir, configs);
    && (r.Ok? ==>
          && |requests| == |configs|
          && StepsSucceed(subscribe, fetch, requests, |requests|)
          && |r.value.slides| == |configs| && SlidesMatch(o.outputDir, configs, r.value.slides)
          && r.value.totalCostCents == FalConfig.EstimateCost(|configs|, FalConfig.DefaultResolution)
          && r.value.outputDir == o.outputDir
          && r.value.pdfPath == Some(PdfPath(o.outputDir))
          && var saved := SavedFiles(filesBefore, paths, subscribe, fetch, requests, |configs|);
          && PdfBundler.Pages(saved, paths, embedPng).Ok?
          && files == saved[PdfPath(o.outputDir) := save(PdfBundler.Pages(saved, paths, embedPng).value)]
          && dirs == SavedDirs(dirsBefore, paths, |configs|) + {Parent(PdfPath(o.outputDir))})
    && (r.Err? ==>
          || (&& |requests| > 0
              && StepsSucceed(subscribe, fetch, requests, |requests| - 1)
              && StepError(subscribe, fetch, |requests| - 1, requests[|requests| - 1]) == Some(r.error)
              && files == SavedFiles(filesBefore, paths, subscribe, fetch, requests, |requests| - 1)
              && dirs == SavedDirs(dirsBefore, paths, |requests| - 1))
          || (&& |requests| == |configs|
              && StepsSucceed(subscribe, fetch, requests, |requests|)
              && files == SavedFiles(filesBefore, paths, subscribe, fetch, requests, |configs|)
              && dirs == SavedDirs(dirsBefore, paths, |configs|)
              && PdfBundler.Pages(files, paths, embedPng) == Err(r.error)))
  }

  /** Everything after the plan lookup: the slides, then the PDF. */
  method GenerateFromPlan(o: GenerationOptions, configs: seq<SlideConfig>,
                          firstPrompts: seq<string>, editPrompts: seq<string>, fs: FileSystem,
                          subscribe: (nat, Request) -> FalResponse,
                          fetch: (nat, string) -> ImageUtils.HttpResponse,
                          embedPng: seq<byte> -> Result<PdfBundler.PngImage, string>,
                          save: seq<PdfBundler.Page> -> seq<byte>)
    returns (r: Result<CarouselResult, string>, requests: seq<Request>, progress: seq<Progress>)
    requires |firstPrompts| == |configs| == |editPrompts|
    modifies fs
    ensures CarouselOutcome(o, configs, firstPrompts, editPrompts, subscribe, fetch, embedPng, save,
                            old(fs.files), old(fs.dirs), fs.files, fs.dirs, r, requests, progress)
  {
    var generated;
    generated, requests, progress := GenerateSlides(o, configs, firstPrompts, editPrompts, fs, subscribe, fetch);
    if generated.Err? {
      return Err(generated.error), requests, progress;
    }
    var (slides, totalCost) := generated.value;
    PlanPathsOfSlides(o.outputDir, configs, slides);
    var bundled := BundleSlides(o.outputDir, configs, slides, fs, embedPng, save);
    if bundled.Err? {
      return Err(bundled.error), requests, progress;
    }
    FalConfig.DefaultEstimate(|configs|);
    r := Ok(CarouselResult(slides, Some(bundled.value), o.outputDir, totalCost));
  }

  /** `generateCarouselWithAI(options, onProgress)`: the progress reports
      and service calls are returned alongside the result. An unknown
      template fails before anything is called or written; otherwise the run
      follows the template's plan with the prompt compiler's prompts. */
  method GenerateCarouselWithAI(o: GenerationOptions, fs: FileSystem,
                                subscribe: (nat, Request) -> FalResponse,
                                fetch: (nat, string) -> ImageUtils.HttpResponse,
                                embedPng: seq<byte> -> Result<PdfBundler.PngImage, string>,
                                save: seq<PdfBundler.Page> -> seq<byte>)
    returns (r: Result<CarouselResult, string>, requests: seq<Request>, progress: seq<Progress>)
    modifies fs
    ensures Plan(o).Err? ==>
              && r == Err(Plan(o).error) && requests == [] && progress == []
              && fs.files == old(fs.files) && fs.dirs == old(fs.dirs)
    ensures Plan(o).Ok? ==>
              CarouselOutcome(o, Plan(o).value, FirstPrompts(o, Plan(o).value), EditPrompts(o, Plan(o).value),
                              subscribe, fetch, embedPng, save,
                              old(fs.files), old(fs.dirs), fs.files, fs.dirs, r, requests, progress)
  {
    var plan := Plan(o);
    if plan.Err? {
      return Err(plan.error), [], [];
    }
    r, requests, progress := GenerateFromPlan(o, plan.value, FirstPrompts(o, plan.value), EditPrompts(o, plan.value), fs,
                                              subscribe, fetch, embedPng, save);
  }

  // ------------------------------------------------------------- properties

  /** One more slide adds the record of the next configuration. */
  lemma ExtendSlides(outputDir: string, configs: seq<SlideConfig>, slides: seq<GeneratedSlide>, slide: GeneratedSlide)
    requires SlidesMatch(outputDir, configs, slides) && |slides| < |configs|
    requires slide == SlideFor(outputDir, configs[|slides|])
    ensures SlidesMatch(outputDir, configs, slides + [slide])
  {
    var plan := PlanSlides(outputDir, configs);
    PrefixExtends(slides, plan, slide);
  }

  /** A prefix followed by the next element is a longer prefix. */
  lemma PrefixExtends<T>(p: seq<T>, s: seq<T>, x: T)
    requires p <= s && |p| < |s| && x == s[|p|]
    ensures p + [x] <= s
  {
    assert s[..|p| + 1] == p + [x];
  }

  /** A non-empty list is its first elements followed by its last. */
  lemma SplitLast<T>(xs: seq<T>)
    requires |xs| > 0
    ensures xs == xs[..|xs| - 1] + [xs[|xs| - 1]]
  {
  }

  /** The slides of a whole run have the plan's paths. */
  lemma PlanPathsOfSlides(outputDir: string, configs: seq<SlideConfig>, slides: seq<GeneratedSlide>)
    requires |slides| == |configs| && SlidesMatch(outputDir, configs, slides)
    ensures SlidePaths(slides) == PlanPaths(outputDir, configs)
  {
    var a, b := SlidePaths(slides), PlanPaths(outputDir, configs);
    forall k | 0 <= k < |configs| ensures a[k] == b[k] {
    }
  }

  /** Bundling the saved slides under distinct paths: the PDF can be made
      exactly when every slide's second download embeds, and page `k` is
      then the image of slide `k`'s download. */
  lemma SavedPages(before: map<string, seq<byte>>, paths: seq<string>,
                   subscribe: (nat, Request) -> FalResponse, fetch: (nat, string) -> ImageUtils.HttpResponse,
                   requests: seq<Request>, embedPng: seq<byte> -> Result<PdfBundler.PngImage, string>)
    requires |requests| == |paths| && Distinct(paths)
    ensures var pages := PdfBundler.Pages(SavedFiles(before, paths, subscribe, fetch, requests, |paths|), paths, embedPng);
            && (pages.Ok? <==> forall k :: 0 <= k < |paths| ==>
                                 embedPng(SaveDownload(subscribe, fetch, k, requests[k]).body).Ok?)
            && (pages.Ok? ==>
                  && |pages.value| == |paths|
                  && forall k :: 0 <= k < |paths| ==>
                       pages.value[k] == PdfBundler.PageFor(embedPng(SaveDownload(subscribe, fetch, k, requests[k]).body).value))
  {
    var saved := SavedFiles(before, paths, subscribe, fetch, requests, |paths|);
    PdfBundler.PagesOnePerPath(saved, paths, embedPng);
    forall k | 0 <= k < |paths|
      ensures PdfBundler.EmbedFile(saved, paths[k], embedPng) == embedPng(SaveDownload(subscribe, fetch, k, requests[k]).body)
    {
      SavedFileOfSlide(before, paths, subscribe, fetch, requests, |paths|, k);
    }
  }

  /** The slides saved under distinct paths, then the PDF of them written
      elsewhere: each slide's file holds its own download, and page `k` of
      the PDF is slide `k`'s image. */
  lemma SavedThenBundled(before: map<string, seq<byte>>, paths: seq<string>, pdfPath: string,
                         subscribe: (nat, Request) -> FalResponse, fetch: (nat, string) -> ImageUtils.HttpResponse,
                         requests: seq<Request>, embedPng: seq<byte> -> Result<PdfBundler.PngImage, string>,
                         save: seq<PdfBundler.Page> -> seq<byte>, files: map<string, seq<byte>>)
    requires |requests| == |paths| && Distinct(paths) && pdfPath !in paths
    requires var saved := SavedFiles(before, paths, subscribe, fetch, requests, |paths|);
             && PdfBundler.Pages(saved, paths, embedPng).Ok?
             && files == saved[pdfPath := save(PdfBundler.Pages(saved, paths, embedPng).value)]
    ensures forall k :: 0 <= k < |paths| ==>
              && paths[k] in files && files[paths[k]] == SaveDownload(subscribe, fetch, k, requests[k]).body
              && embedPng(SaveDownload(subscribe, fetch, k, requests[k]).body).Ok?
    ensures pdfPath in files
    ensures exists pages :: (&& files[pdfPath] == save(pages)
                             && |pages| == |paths|
                             && forall k :: 0 <= k < |paths| ==>
                                  pages[k] == PdfBundler.PageFor(
                                                embedPng(SaveDownload(subscribe, fetch, k, requests[k]).body).value))
  {
    var saved := SavedFiles(before, paths, subscribe, fetch, requests, |paths|);
    SavedPages(before, paths, subscribe, fetch, requests, embedPng);
    var pages := PdfBundler.Pages(saved, paths, embedPng).value;
    assert files[pdfPath] == save(pages);
    forall k | 0 <= k < |paths|
      ensures paths[k] in files && files[paths[k]] == SaveDownload(subscribe, fetch, k, requests[k]).body
    {
      SavedFileOfSlide(before, paths, subscribe, fetch, requests, |paths|, k);
    }
  }

  /** What a successful run over a plan with distinct indices leaves on
      disk: slide `k`'s file holds the image call `k` brought back, and
      page `k` of the PDF is that image. */
  lemma OutcomeFiles(o: GenerationOptions, configs: seq<SlideConfig>,
                     firstPrompts: seq<string>, editPrompts: seq<string>,
                     subscribe: (nat, Request) -> FalResponse,
                     fetch: (nat, string) -> ImageUtils.HttpResponse,
                     embedPng: seq<byte> -> Result<PdfBundler.PngImage, string>,
                     save: seq<PdfBundler.Page> -> seq<byte>,
                     filesBefore: map<string, seq<byte>>, dirsBefore: set<string>,
                     files: map<string, seq<byte>>, dirs: set<string>,
                     r: Result<CarouselResult, string>, requests: seq<Request>, progress: seq<Progress>)
    requires CarouselOutcome(o, configs, firstPrompts, editPrompts, subscribe, fetch, embedPng, save,
                             filesBefore, dirsBefore, files, dirs, r, requests, progress)
    requires r.Ok? && DistinctIndices(configs)
    ensures |requests| == |configs|
    ensures forall k :: 0 <= k < |configs| ==>
              && PlanPaths(o.outputDir, configs)[k] in files
              && files[PlanPaths(o.outputDir, configs)[k]] == SaveDownload(subscribe, fetch, k, requests[k]).body
              && embedPng(SaveDownload(subscribe, fetch, k, requests[k]).body).Ok?
    ensures PdfPath(o.outputDir) in files
    ensures exists pages :: (&& files[PdfPath(o.outputDir)] == save(pages)
                             && |pages| == |configs|
                             && forall k :: 0 <= k < |configs| ==>
                                  pages[k] == PdfBundler.PageFor(
                                                embedPng(SaveDownload(subscribe, fetch, k, requests[k]).body).value))
  {
    PlanPathsDistinct(o.outputDir, configs);
    PlanPathsNotPdf(o.outputDir, configs);
    SavedThenBundled(filesBefore, PlanPaths(o.outputDir, configs), PdfPath(o.outputDir), subscribe, fetch, requests,
                     embedPng, save, files);
  }

  /** No slide of a plan is saved under the PDF's path. */
  lemma PlanPathsNotPdf(outputDir: string, configs: seq<SlideConfig>)
    ensures PdfPath(outputDir) !in PlanPaths(outputDir, configs)
  {
    var paths := PlanPaths(outputDir, configs);
    forall k | 0 <= k < |configs| ensures paths[k] != PdfPath(outputDir) {
      SlidePathNotPdf(outputDir, configs[k]);
    }
  }

  /** For a plan of at least two slides, a successful `generateCarouselWithAI`
      run leaves each slide's own image in its file and as its page of the
      PDF. */
  lemma CarouselFiles(o: GenerationOptions, configs: seq<SlideConfig>,
                      firstPrompts: seq<string>, editPrompts: seq<string>,
                      subscribe: (nat, Request) -> FalResponse, fetch: (nat, string) -> ImageUtils.HttpResponse,
                      embedPng: seq<byte> -> Result<PdfBundler.PngImage, string>,
                      save: seq<PdfBundler.Page> -> seq<byte>,
                      filesBefore: map<string, seq<byte>>, dirsBefore: set<string>,
                      files: map<string, seq<byte>>, dirs: set<string>,
                      r: Result<CarouselResult, string>, requests: seq<Request>, progress: seq<Progress>)
    requires Plan(o) == Ok(configs) && o.slideCount >= 2
    requires CarouselOutcome(o, configs, firstPrompts, editPrompts, subscribe, fetch, embedPng, save,
                             filesBefore, dirsBefore, files, dirs, r, requests, progress)
    requires r.Ok?
    ensures |requests| == |configs|
    ensures forall k :: 0 <= k < |configs| ==>
              && PlanPaths(o.outputDir, configs)[k] in files
              && files[PlanPaths(o.outputDir, configs)[k]] == SaveDownload(subscribe, fetch, k, requests[k]).body
              && embedPng(SaveDownload(subscribe, fetch, k, requests[k]).body).Ok?
    ensures exists pages :: (&& PdfPath(o.outputDir) in files && files[PdfPath(o.outputDir)] == save(pages)
                             && |pages| == |configs|
                             && forall k :: 0 <= k < |configs| ==>
                                  pages[k] == PdfBundler.PageFor(
                                                embedPng(SaveDownload(subscribe, fetch, k, requests[k]).body).value))
  {
    PlanIndicesDistinct(o);
    OutcomeFiles(o, configs, firstPrompts, editPrompts, subscribe, fetch, embedPng, save, filesBefore, dirsBefore,
                 files, dirs, r, requests, progress);
  }

  /** The reference definition builds a chained list of calls. */
  lemma {:induction false} ExpectedChained(p: Platform, firstPrompts: seq<string>, editPrompts: seq<string>, n: nat,
                                           subscribe: (nat, Request) -> FalResponse,
                                           fetch: (nat, string) -> ImageUtils.HttpResponse)
    requires n <= |firstPrompts| && n <= |editPrompts|
    ensures Chained(p, firstPrompts, editPrompts, subscribe, fetch,
                    ExpectedRequests(p, firstPrompts, editPrompts, n, subscribe, fetch))
  {
    if n > 0 {
      var earlier := ExpectedRequests(p, firstPrompts, editPrompts, n - 1, subscribe, fetch);
      ExpectedChained(p, firstPrompts, editPrompts, n - 1, subscribe, fetch);
      ExtendChained(p, firstPrompts, editPrompts, subscribe, fetch, earlier,
                    RequestFor(p, firstPrompts[n - 1], editPrompts[n - 1], n - 1,
                               PreviousAt(subscribe, fetch, earlier, n - 1)));
    }
  }

  /** The first calls of a chained list are chained. */
  lemma ChainedPrefix(p: Platform, firstPrompts: seq<string>, editPrompts: seq<string>,
                      subscribe: (nat, Request) -> FalResponse, fetch: (nat, string) -> ImageUtils.HttpResponse,
                      requests: seq<Request>, m: nat)
    requires Chained(p, firstPrompts, editPrompts, subscribe, fetch, requests) && m <= |requests|
    ensures Chained(p, firstPrompts, editPrompts, subscribe, fetch, requests[..m])
  {
    var init := requests[..m];
    forall k | 0 <= k < m
      ensures init[k] == RequestFor(p, firstPrompts[k], editPrompts[k], k, PreviousAt(subscribe, fetch, init, k))
    {
      if 0 < k {
        assert init[k - 1] == requests[k - 1];
      }
    }
  }

  /** A chained list of calls is the reference one: the service's answers
      and the downloads determine every call of a run. */
  lemma {:induction false} ChainedIsExpected(p: Platform, firstPrompts: seq<string>, editPrompts: seq<string>,
                                             subscribe: (nat, Request) -> FalResponse,
                                             fetch: (nat, string) -> ImageUtils.HttpResponse, requests: seq<Request>)
    requires Chained(p, firstPrompts, editPrompts, subscribe, fetch, requests)
    ensures requests == ExpectedRequests(p, firstPrompts, editPrompts, |requests|, subscribe, fetch)
    decreases |requests|
  {
    var n := |requests|;
    if n > 0 {
      var init := requests[..n - 1];
      ChainedPrefix(p, firstPrompts, editPrompts, subscribe, fetch, requests, n - 1);
      ChainedIsExpected(p, firstPrompts, editPrompts, subscribe, fetch, init);
      if n > 1 {
        assert init[n - 2] == requests[n - 2];
      }
      var last := RequestFor(p, firstPrompts[n - 1], editPrompts[n - 1], n - 1,
                             PreviousAt(subscribe, fetch, init, n - 1));
      assert requests[n - 1] == last;
      assert ExpectedRequests(p, firstPrompts, editPrompts, n, subscribe, fetch) == init + [last];
      SplitLast(requests);
    }
  }

  /** Call `k` of the reference run, spelled out. */
  lemma ExpectedAt(p: Platform, firstPrompts: seq<string>, editPrompts: seq<string>, n: nat, k: nat,
                   subscribe: (nat, Request) -> FalResponse, fetch: (nat, string) -> ImageUtils.HttpResponse)
    requires k < n <= |firstPrompts| && n <= |editPrompts|
    ensures var requests := ExpectedRequests(p, firstPrompts, editPrompts, n, subscribe, fetch);
            requests[k] == RequestFor(p, firstPrompts[k], editPrompts[k], k, PreviousAt(subscribe, fetch, requests, k))
  {
    ExpectedChained(p, firstPrompts, editPrompts, n, subscribe, fetch);
  }

  /** The first slide is drawn from its text prompt alone, with generations
      limited. */
  lemma FirstSlideFromText(p: Platform, firstPrompts: seq<string>, editPrompts: seq<string>, n: nat,
                           subscribe: (nat, Request) -> FalResponse, fetch: (nat, string) -> ImageUtils.HttpResponse)
    requires 0 < n <= |firstPrompts| && n <= |editPrompts|
    ensures var first := ExpectedRequests(p, firstPrompts, editPrompts, n, subscribe, fetch)[0];
            && first.model == FalConfig.TextToImage && first.imageUrls == []
            && first.prompt == firstPrompts[0]
            && first.limitGenerations == Some(true)
  {
    ExpectedAt(p, firstPrompts, editPrompts, n, 0, subscribe, fetch);
  }

  /** Every later slide is an edit, on the edit prompt, whose only reference
      image is the slide before it. */
  lemma LaterSlidesEditPrevious(p: Platform, firstPrompts: seq<string>, editPrompts: seq<string>, n: nat, k: nat,
                                subscribe: (nat, Request) -> FalResponse,
                                fetch: (nat, string) -> ImageUtils.HttpResponse)
    requires 0 < k < n <= |firstPrompts| && n <= |editPrompts|
    ensures var requests := ExpectedRequests(p, firstPrompts, editPrompts, n, subscribe, fetch);
            && requests[k].model == FalConfig.ImageEdit
            && requests[k].imageUrls == [Reference(subscribe, fetch, k - 1, requests[k - 1])]
            && requests[k].prompt == editPrompts[k]
            && requests[k].limitGenerations.None?
  {
    ExpectedAt(p, firstPrompts, editPrompts, n, k, subscribe, fetch);
  }

  /** The platform's aspect ratio and the fixed generation settings. */
  predicate UsesSettings(p: Platform, r: Request) {
    && r.aspectRatio == Settings(p).aspectRatio
    && r.resolution == K2 && r.outputFormat == "png"
    && r.numImages == 1
  }

  /** Every call of a run asks for one PNG image at 2K in the platform's
      aspect ratio. */
  lemma RequestsUseSettings(p: Platform, firstPrompts: seq<string>, editPrompts: seq<string>, n: nat, k: nat,
                            subscribe: (nat, Request) -> FalResponse, fetch: (nat, string) -> ImageUtils.HttpResponse)
    requires k < n <= |firstPrompts| && n <= |editPrompts|
    ensures UsesSettings(p, ExpectedRequests(p, firstPrompts, editPrompts, n, subscribe, fetch)[k])
  {
    ExpectedAt(p, firstPrompts, editPrompts, n, k, subscribe, fetch);
  }

  /** The reference handed to the next slide is the downloaded image
      itself: reading the data URI back gives the PNG type and the bytes. */
  lemma ReferenceCarriesImage(subscribe: (nat, Request) -> FalResponse,
                              fetch: (nat, string) -> ImageUtils.HttpResponse, k: nat, req: Request)
    ensures ImageUtils.ParseDataUri(Reference(subscribe, fetch, k, req))
            == Some((ImageUtils.DefaultMime, ReferenceDownload(subscribe, fetch, k, req).body))
  {
    ImageUtils.DataUriRoundTrip(ReferenceDownload(subscribe, fetch, k, req).body, ImageUtils.DefaultMime);
  }

  // --------------------------------------------------------- regenerating

  /** The text `regenerateSlide` adds to a prompt for non-empty feedback. */
  function WithFeedback(prompt: string, feedback: string): (r: string)
    ensures feedback == "" ==> r == prompt
    ensures feedback != "" ==> StartsWith(r, prompt) && EndsWith(r, feedback)
  {
    if feedback == "" then prompt else prompt + "\n\nADDITIONAL FEEDBACK: " + feedback
  }

  /** The TypeError V8 throws when the slide index is outside the plan:
      `slideConfigs[slideIndex]` is `undefined`, and both prompt builders
      first read its `colorMode` (in `getSlideTypePrompt`). */
  const UndefinedConfig: string := "TypeError: Cannot read properties of undefined (reading 'colorMode')"

  /** Why a regenerated slide fails once its call is made, if it does: no
      the call rejecting, no image in the answer, or the download of the
      first image failing. */
  function RegenerateError(subscribe: (nat, Request) -> FalResponse,
                           fetch: (nat, string) -> ImageUtils.HttpResponse,
                           slideIndex: int, req: Request): Option<string> {
    if subscribe(0, req).FalRejected? then Some(subscribe(0, req).message)
    else if !HasImages(subscribe(0, req)) then Some("No images returned for slide " + IntToString(slideIndex + 1))
    else if ImageUtils.DownloadImage(fetch(0, FirstUrl(subscribe(0, req)))).Err? then
      Some(ImageUtils.DownloadImage(fetch(0, FirstUrl(subscribe(0, req)))).error)
    else None
  }

  /** The call `regenerateSlide` makes, given the reference data URI when
      a previous slide is given. */
  function RegenerateRequest(p: Platform, firstPrompt: string, editPrompt: string, reference: Option<string>,
                             feedback: string): Request {
    match reference
    case Some(uri) => EditRequest(WithFeedback(editPrompt, feedback), p, uri)
    case None => TextRequest(WithFeedback(firstPrompt, feedback), p)
  }

  /** The reference for a regenerated slide: none without a path, otherwise
      the previous slide's file on disk as a data URI, or the error reading
      a missing file gives. */
  function PreviousReference(files: map<string, seq<byte>>, previousSlideImagePath: string)
    : Result<Option<string>, string>
  {
    if previousSlideImagePath == "" then Ok(None)
    else if previousSlideImagePath !in files then Err(PdfBundler.MissingFile(previousSlideImagePath))
    else Ok(Some(ImageUtils.DataUri(files[previousSlideImagePath], ImageUtils.DefaultMime)))
  }

  /** The reference is the previous slide itself: reading the data URI back
      gives the PNG type and the file's bytes; only a missing file fails. */
  lemma PreviousReferenceCarriesFile(files: map<string, seq<byte>>, previousSlideImagePath: string)
    requires previousSlideImagePath != ""
    ensures PreviousReference(files, previousSlideImagePath).Err? <==> previousSlideImagePath !in files
    ensures previousSlideImagePath in files ==>
              && PreviousReference(files, previousSlideImagePath).value.Some?
              && ImageUtils.ParseDataUri(PreviousReference(files, previousSlideImagePath).value.value)
                 == Some((ImageUtils.DefaultMime, files[previousSlideImagePath]))
  {
    if previousSlideImagePath in files {
      ImageUtils.DataUriRoundTrip(files[previousSlideImagePath], ImageUtils.DefaultMime);
    }
  }

  /** What regenerating slide `slideIndex` of a plan leaves behind once the
      reference is known: a call only for an index inside the plan, and then
      the one for that slide's configuration; on success the image came
      back and its download (call 0) was saved under the slide's record; on
      failure the disk is unchanged. */
  ghost predicate RegeneratedFrom(o: GenerationOptions, configs: seq<SlideConfig>,
                                  firstPrompts: seq<string>, editPrompts: seq<string>,
                                  slideIndex: int, reference: Option<string>, feedback: string,
                                  subscribe: (nat, Request) -> FalResponse,
                                  fetch: (nat, string) -> ImageUtils.HttpResponse,
                                  filesBefore: map<string, seq<byte>>, dirsBefore: set<string>,
                                  files: map<string, seq<byte>>, dirs: set<string>,
                                  r: Result<GeneratedSlide, string>, request: Option<Request>)
  {
    && |firstPrompts| == |configs| == |editPrompts|
    && (request.Some? <==> 0 <= slideIndex < |configs|)
    && (request.Some? ==>
          request.value == RegenerateRequest(o.platform, firstPrompts[slideIndex], editPrompts[slideIndex],
                                             reference, feedback))
    && (request.None? ==> r == Err(UndefinedConfig) && files == filesBefore && dirs == dirsBefore)
    && (request.Some? ==>
          SavedRegenerated(o, configs[slideIndex], slideIndex, request.value, subscribe, fetch,
                           filesBefore, dirsBefore, files, dirs, r))
  }

  /** What the call `req` for a regenerated slide leaves behind: it
      succeeds exactly when the call is not rejected, an image comes back
      and its download (call 0) succeeds, and then the download is saved
      under the slide's record; otherwise the result is the reason and the
      disk is unchanged. */
  ghost predicate SavedRegenerated(o: GenerationOptions, config: SlideConfig, slideIndex: int, req: Request,
                                   subscribe: (nat, Request) -> FalResponse,
                                   fetch: (nat, string) -> ImageUtils.HttpResponse,
                                   filesBefore: map<string, seq<byte>>, dirsBefore: set<string>,
                                   files: map<string, seq<byte>>, dirs: set<string>,
                                   r: Result<GeneratedSlide, string>)
  {
    && (r.Err? ==>
          && RegenerateError(subscribe, fetch, slideIndex, req) == Some(r.error)
          && files == filesBefore && dirs == dirsBefore)
    && (r.Ok? ==>
          && RegenerateError(subscribe, fetch, slideIndex, req).None?
          && HasImages(subscribe(0, req))
          && r.value == SlideFor(o.outputDir, config)
          && files == filesBefore[r.value.path := fetch(0, FirstUrl(subscribe(0, req))).body]
          && dirs == dirsBefore + {Parent(r.value.path)})
  }

  /** What regenerating slide `slideIndex` of a plan leaves behind: a
      previous slide that cannot be read ends it before any call, with the
      disk unchanged; otherwise it goes on from that reference. */
  ghost predicate RegenerateOutcome(o: GenerationOptions, configs: seq<SlideConfig>,
                                    firstPrompts: seq<string>, editPrompts: seq<string>,
                                    slideIndex: int, previousSlideImagePath: string, feedback: string,
                                    subscribe: (nat, Request) -> FalResponse,
                                    fetch: (nat, string) -> ImageUtils.HttpResponse,
                                    filesBefore: map<string, seq<byte>>, dirsBefore: set<string>,
                                    files: map<string, seq<byte>>, dirs: set<string>,
                                    r: Result<GeneratedSlide, string>, request: Option<Request>)
  {
    match PreviousReference(filesBefore, previousSlideImagePath)
    case Err(e) => r == Err(e) && request.None? && files == filesBefore && dirs == dirsBefore
    case Ok(reference) =>
      RegeneratedFrom(o, configs, firstPrompts, editPrompts, slideIndex, reference, feedback, subscribe, fetch,
                      filesBefore, dirsBefore, files, dirs, r, request)
  }

  /** The part of `regenerateSlide` after the reference is known: the
      configuration lookup, the call and the saved download. */
  method RegenerateWithReference(o: GenerationOptions, configs: seq<SlideConfig>,
                                 firstPrompts: seq<string>, editPrompts: seq<string>,
                                 slideIndex: int, reference: Option<string>, feedback: string, fs: FileSystem,
                                 subscribe: (nat, Request) -> FalResponse,
                                 fetch: (nat, string) -> ImageUtils.HttpResponse)
    returns (r: Result<GeneratedSlide, string>, request: Option<Request>)
    requires |firstPrompts| == |configs| == |editPrompts|
    modifies fs
    ensures RegeneratedFrom(o, configs, firstPrompts, editPrompts, slideIndex, reference, feedback,
                            subscribe, fetch, old(fs.files), old(fs.dirs), fs.files, fs.dirs, r, request)
  {
    if !(0 <= slideIndex < |configs|) {
      return Err(UndefinedConfig), None;
    }
    var config := configs[slideIndex];
    var req: Request;
    if reference.Some? {
      var prompt := WithFeedback(editPrompts[slideIndex], feedback);
      req := EditRequest(prompt, o.platform, reference.value);
    } else {
      var prompt := WithFeedback(firstPrompts[slideIndex], feedback);
      req := TextRequest(prompt, o.platform);
    }
    request := Some(req);
    r := SaveRegenerated(o, config, slideIndex, req, fs, subscribe, fetch);
  }

  /** Everything after the plan lookup, with the plan's prompts passed in:
      the previous slide, when a path is given, is read from disk. */
  method RegenerateFromPlan(o: GenerationOptions, configs: seq<SlideConfig>,
                            firstPrompts: seq<string>, editPrompts: seq<string>,
                            slideIndex: int, previousSlideImagePath: string, feedback: string, fs: FileSystem,
                            subscribe: (nat, Request) -> FalResponse,
                            fetch: (nat, string) -> ImageUtils.HttpResponse)
    returns (r: Result<GeneratedSlide, string>, request: Option<Request>)
    requires |firstPrompts| == |configs| == |editPrompts|
    modifies fs
    ensures RegenerateOutcome(o, configs, firstPrompts, editPrompts, slideIndex, previousSlideImagePath, feedback,
                              subscribe, fetch, old(fs.files), old(fs.dirs), fs.files, fs.dirs, r, request)
  {
    var reference: Option<string> := None;
    if previousSlideImagePath != "" {
      var previousBuffer := fs.ReadFile(previousSlideImagePath);
      if previousBuffer.None? {
        return Err(PdfBundler.MissingFile(previousSlideImagePath)), None;
      }
      reference := Some(ImageUtils.DataUri(previousBuffer.value, ImageUtils.DefaultMime));
    }
    r, request := RegenerateWithReference(o, configs, firstPrompts, editPrompts, slideIndex, reference, feedback, fs,
                                          subscribe, fetch);
  }

  /** What Node's global `fetch` rejects with when it is given a `file:`
      URL, a scheme it does not fetch. */
  const FetchFailed: string := "TypeError: fetch failed"

  /** Node's global `fetch` on a URL: a `file:` URL is rejected, any other
      URL is answered by the network (`fetch(k, url)` for call `k`). */
  function FetchUrl(fetch: (nat, string) -> ImageUtils.HttpResponse, k: nat, url: string)
    : Result<ImageUtils.HttpResponse, string>
  {
    if StartsWith(url, "file:") then Err(FetchFailed) else Ok(fetch(k, url))
  }

  /** The reference as `regenerateSlide` loads it as written: the previous
      slide's path is downloaded as a `file://` URL with `downloadImage`,
      which Node's `fetch` rejects, so every given path fails. */
  function PreviousReferenceAsWritten(fetch: (nat, string) -> ImageUtils.HttpResponse,
                                      previousSlideImagePath: string): (r: Result<Option<string>, string>)
    ensures previousSlideImagePath == "" ==> r == Ok(None)
    ensures previousSlideImagePath != "" ==> r == Err(FetchFailed)
  {
    if previousSlideImagePath == "" then Ok(None)
    else
      var url := "file://" + previousSlideImagePath;
      assert url[..5] == "file:";
      match FetchUrl(fetch, 0, url)
      case Err(e) => Err(e)
      case Ok(resp) =>
        match ImageUtils.DownloadImage(resp)
        case Err(e) => Err(e)
        case Ok(buffer) => Ok(Some(ImageUtils.DataUri(buffer, ImageUtils.DefaultMime)))
  }

  /** `regenerateSlide` after the plan lookup as written: with a previous
      slide it fails with the `fetch` error before any call, and the disk is
      unchanged; only without one does it go on, from text. */
  method RegenerateFromPlanAsWritten(o: GenerationOptions, configs: seq<SlideConfig>,
                                     firstPrompts: seq<string>, editPrompts: seq<string>,
                                     slideIndex: int, previousSlideImagePath: string, feedback: string,
                                     fs: FileSystem,
                                     subscribe: (nat, Request) -> FalResponse,
                                     fetch: (nat, string) -> ImageUtils.HttpResponse)
    returns (r: Result<GeneratedSlide, string>, request: Option<Request>)
    requires |firstPrompts| == |configs| == |editPrompts|
    modifies fs
    ensures previousSlideImagePath != "" ==>
              r == Err(FetchFailed) && request.None? && fs.files == old(fs.files) && fs.dirs == old(fs.dirs)
    ensures previousSlideImagePath == "" ==>
              RegeneratedFrom(o, configs, firstPrompts, editPrompts, slideIndex, None, feedback,
                              subscribe, fetch, old(fs.files), old(fs.dirs), fs.files, fs.dirs, r, request)
  {
    var reference := PreviousReferenceAsWritten(fetch, previousSlideImagePath);
    if reference.Err? {
      return Err(reference.error), None;
    }
    r, request := RegenerateWithReference(o, configs, firstPrompts, editPrompts, slideIndex, reference.value,
                                          feedback, fs, subscribe, fetch);
  }

  /** The discrepancy: a previous slide that is on disk is never used as
      written, while reading it from disk gives its bytes as the
      reference. */
  lemma PreviousSlideNeverLoaded(fetch: (nat, string) -> ImageUtils.HttpResponse, files: map<string, seq<byte>>,
                                 previousSlideImagePath: string)
    requires previousSlideImagePath != "" && previousSlideImagePath in files
    ensures PreviousReferenceAsWritten(fetch, previousSlideImagePath) == Err(FetchFailed)
    ensures PreviousReference(files, previousSlideImagePath).Ok?
    ensures PreviousReference(files, previousSlideImagePath).value.Some?
  {
  }

  /** The call for a regenerated slide, then, if an image came back, its
      download (call 0) saved under the slide's record. */
  method SaveRegenerated(o: GenerationOptions, config: SlideConfig, slideIndex: int, req: Request, fs: FileSystem,
                         subscribe: (nat, Request) -> FalResponse,
                         fetch: (nat, string) -> ImageUtils.HttpResponse)
    returns (r: Result<GeneratedSlide, string>)
    modifies fs
    ensures SavedRegenerated(o, config, slideIndex, req, subscribe, fetch, old(fs.files), old(fs.dirs),
                             fs.files, fs.dirs, r)
  {
    var response := subscribe(0, req);
    if response.FalRejected? {
      return Err(response.message);
    }
    var images := ImagesOf(response);
    if images.None? || |images.value| == 0 {
      return Err("No images returned for slide " + IntToString(slideIndex + 1));
    }
    var imageUrl := images.value[0];
    var filename := ImageUtils.SlideFilename(config.index, SlideTypeName(config.slideType));
    var outputPath := ImageUtils.DownloadAndSave(fs, fetch(0, imageUrl), o.outputDir, filename);
    if outputPath.Err? {
      return Err(outputPath.error);
    }
    r := Ok(GeneratedSlide(config.index, filename, outputPath.value, config.slideType));
  }

  /** `regenerateSlide(options, slideIndex, previousSlideImagePath, feedback)`;
      an absent path or feedback is "". With a previous slide its file is
      read first and the call is an edit of it; otherwise the slide is drawn
      from text with the first slide's prompt. The feedback is appended
      either way. The new image is downloaded and saved; no cost and no
      PDF. */
  method RegenerateSlide(o: GenerationOptions, slideIndex: int, previousSlideImagePath: string, feedback: string,
                         fs: FileSystem,
                         subscribe: (nat, Request) -> FalResponse,
                         fetch: (nat, string) -> ImageUtils.HttpResponse)
    returns (r: Result<GeneratedSlide, string>, request: Option<Request>)
    modifies fs
    ensures Plan(o).Err? ==>
              r == Err(Plan(o).error) && request.None? && fs.files == old(fs.files) && fs.dirs == old(fs.dirs)
    ensures Plan(o).Ok? ==>
              RegenerateOutcome(o, Plan(o).value, FirstPrompts(o, Plan(o).value), EditPrompts(o, Plan(o).value),
                                slideIndex, previousSlideImagePath, feedback, subscribe, fetch,
                                old(fs.files), old(fs.dirs), fs.files, fs.dirs, r, request)
  {
    var plan := Plan(o);
    if plan.Err? {
      return Err(plan.error), None;
    }
    r, request := RegenerateFromPlan(o, plan.value, FirstPrompts(o, plan.value), EditPrompts(o, plan.value),
                                     slideIndex, previousSlideImagePath, feedback, fs, subscribe, fetch);
  }
}
