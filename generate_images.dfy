/** The standalone still-image script: one image per prompt, skipping images
    that already exist on disk, carrying on past a failing prompt, and
    writing a manifest that accounts for the skipped and the new images.

    The image service, the network, the clock and JSON are parameters:
    `subscribe(k, p)` is the service's answer for prompt number `k`,
    `fetch(k, url)` the download of its image, `clock(k)` the time stamp
    taken after prompt `k` (`clock(|prompts|)` for the manifest), and
    `parse`/`toJson` read and write the manifest file. */
module GenerateImages {
  import opened Wrappers
  import opened Paths
  import opened Base64
  import opened CarouselTypes
  import opened FileSystems

  // ------------------------------------------------------------------ the key

  /** `process.env.FAL_KEY || process.env.FALAI_KEY`: the first of the two
      variables that is set to a non-empty value; nothing when neither is,
      in which case the script exits with status 1 before any call. */
  function ApiKey(env: map<string, string>): (r: Option<string>)
    ensures r.None? <==> (("FAL_KEY" !in env || env["FAL_KEY"] == "") && ("FALAI_KEY" !in env || env["FALAI_KEY"] == ""))
    ensures r.Some? ==> r.value != ""
    ensures "FAL_KEY" in env && env["FAL_KEY"] != "" ==> r == Some(env["FAL_KEY"])
  {
    if "FAL_KEY" in env && env["FAL_KEY"] != "" then Some(env["FAL_KEY"])
    else if "FALAI_KEY" in env && env["FALAI_KEY"] != "" then Some(env["FALAI_KEY"])
    else None
  }

  /** The exit status of the start-up check: 1 without a key. */
  function StartupExit(env: map<string, string>): Option<int> {
    if ApiKey(env).None? then Some(1) else None
  }

  // ---------------------------------------------------------------- the data

  /** The parameters of every call, saved with each image. */
  datatype GenerationParams = GenerationParams(
    model: string, aspectRatio: string, numImages: nat, outputFormat: string, resolution: Resolution)

  const Params: GenerationParams := GenerationParams("fal-ai/nano-banana-pro", "3:4", 1, "png", K1)

  /** An image to generate: its file name stem and its prompt. */
  datatype ImagePrompt = ImagePrompt(name: string, prompt: string)

  /** A manifest entry. */
  datatype ImageInfo = ImageInfo(
    name: string, filename: string, prompt: string, parameters: GenerationParams,
    generatedAt: string, sourceUrl: Option<string>)

  datatype Manifest = Manifest(
    generatedAt: string, outputDir: string, totalImages: nat, skippedImages: nat, newlyGenerated: nat,
    images: seq<ImageInfo>)

  /** What the service call does: throw, or answer with image URLs. An answer
      without `data.images` counts as an empty list. */
  datatype ServiceAnswer = ServiceFailed(message: string) | Answered(images: seq<string>)

  /** What `generateImage` does for one prompt: skip it, generate it (with
      the bytes it saved), or throw. */
  datatype Outcome = Skipped(info: ImageInfo) | Generated(info: ImageInfo, bytes: seq<byte>) | Failed(message: string)

  function FileName(p: ImagePrompt): string {
    p.name + ".png"
  }

  function OutputPath(outputDir: string, p: ImagePrompt): string {
    PathJoin(outputDir, FileName(p))
  }

  // -------------------------------------------------------------- one prompt

  /** The result of `generateImage`, given whether the output file already
      existed, the service's answer, and the downloads. */
  function OutcomeFor(p: ImagePrompt, existed: bool, answer: ServiceAnswer,
                      fetch: (nat, string) -> Result<seq<byte>, string>, k: nat, now: string): Outcome
  {
    if existed then Skipped(ImageInfo(p.name, FileName(p), p.prompt, Params, "previously generated", None))
    else match answer
      case ServiceFailed(m) => Failed(m)
      case Answered(images) =>
        if |images| == 0 then Failed("No image generated for " + p.name)
        else match fetch(k, images[0])
          case Err(m) => Failed(m)
          case Ok(bytes) => Generated(ImageInfo(p.name, FileName(p), p.prompt, Params, now, Some(images[0])), bytes)
  }

  /** An existing file is skipped whatever the service and the network
      would have answered: no call is made for it, and its entry says
      "previously generated". */
  lemma ExistingIsSkipped(p: ImagePrompt, a1: ServiceAnswer, a2: ServiceAnswer,
                          f1: (nat, string) -> Result<seq<byte>, string>,
                          f2: (nat, string) -> Result<seq<byte>, string>, k: nat, n1: string, n2: string)
    ensures OutcomeFor(p, true, a1, f1, k, n1) == OutcomeFor(p, true, a2, f2, k, n2)
    ensures OutcomeFor(p, true, a1, f1, k, n1).Skipped?
    ensures OutcomeFor(p, true, a1, f1, k, n1).info.generatedAt == "previously generated"
  {
  }

  /** A new file is generated exactly when the service answers with an image
      and its download succeeds; the entry then names the prompt, its file,
      the first image URL and the time; an empty answer fails with
      "No image generated for <name>". */
  lemma NewImageOutcome(p: ImagePrompt, answer: ServiceAnswer,
                        fetch: (nat, string) -> Result<seq<byte>, string>, k: nat, now: string)
    ensures var o := OutcomeFor(p, false, answer, fetch, k, now);
      && !o.Skipped?
      && (o.Generated? <==> answer.Answered? && |answer.images| > 0 && fetch(k, answer.images[0]).Ok?)
      && (o.Generated? ==> o.info.name == p.name && o.info.filename == p.name + ".png"
                           && o.info.sourceUrl == Some(answer.images[0]) && o.info.generatedAt == now
                           && o.bytes == fetch(k, answer.images[0]).value)
      && (answer == Answered([]) ==> o == Failed("No image generated for " + p.name))
  {
  }

  /** `generateImage(prompt, outputDir)`: checks for the file, calls the
      service and downloads only when it is missing, and writes the image
      only when it was generated. */
  method GenerateImage(fs: FileSystem, p: ImagePrompt, outputDir: string, k: nat,
                       subscribe: (nat, ImagePrompt) -> ServiceAnswer,
                       fetch: (nat, string) -> Result<seq<byte>, string>, clock: nat -> string)
    returns (r: Outcome)
    modifies fs
    ensures r == OutcomeFor(p, old(fs.Exists(OutputPath(outputDir, p))), subscribe(k, p), fetch, k, clock(k))
    ensures fs.files == if r.Generated? then old(fs.files)[OutputPath(outputDir, p) := r.bytes] else old(fs.files)
    ensures fs.dirs == old(fs.dirs)
  {
    var outputPath := OutputPath(outputDir, p);
    if fs.Exists(outputPath) {
      return Skipped(ImageInfo(p.name, FileName(p), p.prompt, Params, "previously generated", None));
    }
    var answer := subscribe(k, p);
    if answer.ServiceFailed? {
      return Failed(answer.message);
    }
    var images := answer.images;
    if |images| == 0 {
      return Failed("No image generated for " + p.name);
    }
    var imageUrl := images[0];
    var download := fetch(k, imageUrl);
    if download.Err? {
      return Failed(download.error);
    }
    fs.WriteFile(outputPath, download.value);
    r := Generated(ImageInfo(p.name, FileName(p), p.prompt, Params, clock(k), Some(imageUrl)), download.value);
  }

  // ---------------------------------------------------------- the bookkeeping

  /** The existing manifest's entries by name; a later entry with the same
      name replaces an earlier one. */
  function IndexByName(images: seq<ImageInfo>): map<string, ImageInfo> {
    if images == [] then map[]
    else IndexByName(images[..|images| - 1])[images[|images| - 1].name := images[|images| - 1]]
  }

  /** A name is indexed exactly when some entry has it, and it maps to the
      last such entry. */
  lemma {:induction false} IndexByNameLast(images: seq<ImageInfo>, name: string)
    ensures name in IndexByName(images) <==> exists i :: 0 <= i < |images| && images[i].name == name
    ensures name in IndexByName(images) ==>
              exists i :: 0 <= i < |images| && IndexByName(images)[name] == images[i]
                          && images[i].name == name
                          && forall j :: i < j < |images| ==> images[j].name != name
  {
    if images != [] {
      var n := |images| - 1;
      var init := images[..n];
      IndexByNameLast(init, name);
      if images[n].name != name && name in IndexByName(images) {
        var i :| 0 <= i < |init| && IndexByName(init)[name] == init[i] && init[i].name == name
                 && forall j :: i < j < |init| ==> init[j].name != name;
        assert images[i] == init[i];
      }
      if exists i :: 0 <= i < |images| && images[i].name == name {
        var i :| 0 <= i < |images| && images[i].name == name;
        if i < n {
          assert init[i].name == name;
        }
      }
    }
  }

  /** Every indexed entry carries the name it is indexed under. */
  predicate KeyedByName(index: map<string, ImageInfo>) {
    forall n :: n in index ==> index[n].name == n
  }

  lemma {:induction false} IndexByNameKeyed(images: seq<ImageInfo>)
    ensures KeyedByName(IndexByName(images))
  {
    if images != [] {
      IndexByNameKeyed(images[..|images| - 1]);
    }
  }

  /** The manifest entry an outcome contributes: a skipped image keeps its
      entry from the existing manifest when there is one. */
  function Entry(index: map<string, ImageInfo>, o: Outcome): (r: Option<ImageInfo>)
    ensures r.None? <==> o.Failed?
    ensures o.Skipped? && o.info.name in index ==> r == Some(index[o.info.name])
    ensures o.Skipped? && o.info.name !in index ==> r == Some(o.info)
  {
    match o
    case Skipped(info) => Some(if info.name in index then index[info.name] else info)
    case Generated(info, _) => Some(info)
    case Failed(_) => None
  }

  /** The entry as a list of at most one. */
  function Entries(index: map<string, ImageInfo>, o: Outcome): seq<ImageInfo> {
    match Entry(index, o)
    case Some(e) => [e]
    case None => []
  }

  /** The manifest's entries for a run's outcomes, in prompt order. */
  function ManifestImages(index: map<string, ImageInfo>, outcomes: seq<Outcome>): seq<ImageInfo> {
    if outcomes == [] then []
    else
      var n := |outcomes| - 1;
      ManifestImages(index, outcomes[..n]) + Entries(index, outcomes[n])
  }

  function CountSkipped(outcomes: seq<Outcome>): nat {
    if outcomes == [] then 0
    else CountSkipped(outcomes[..|outcomes| - 1]) + (if outcomes[|outcomes| - 1].Skipped? then 1 else 0)
  }

  function CountGenerated(outcomes: seq<Outcome>): nat {
    if outcomes == [] then 0
    else CountGenerated(outcomes[..|outcomes| - 1]) + (if outcomes[|outcomes| - 1].Generated? then 1 else 0)
  }

  /** The manifest lists one entry per skipped or generated image: its
      total is the sum of the two counts, and failures are absent. */
  lemma {:induction false} ManifestCounts(index: map<string, ImageInfo>, outcomes: seq<Outcome>)
    ensures |ManifestImages(index, outcomes)| == CountSkipped(outcomes) + CountGenerated(outcomes)
  {
    if outcomes != [] {
      ManifestCounts(index, outcomes[..|outcomes| - 1]);
    }
  }

  /** The names of the prompts that did not fail, in prompt order. */
  function SucceededNames(prompts: seq<ImagePrompt>, outcomes: seq<Outcome>): seq<string>
    requires |prompts| == |outcomes|
  {
    if outcomes == [] then []
    else
      var n := |outcomes| - 1;
      SucceededNames(prompts[..n], outcomes[..n]) + (if outcomes[n].Failed? then [] else [prompts[n].name])
  }

  /** Each outcome that is not a failure is about its own prompt. */
  predicate AboutPrompts(prompts: seq<ImagePrompt>, outcomes: seq<Outcome>) {
    |prompts| == |outcomes| && forall k :: 0 <= k < |outcomes| && !outcomes[k].Failed? ==> outcomes[k].info.name == prompts[k].name
  }

  function Names(images: seq<ImageInfo>): (r: seq<string>)
    ensures |r| == |images| && forall i :: 0 <= i < |r| ==> r[i] == images[i].name
  {
    seq(|images|, i requires 0 <= i < |images| => images[i].name)
  }

  /** The manifest follows the prompts: its entries are named after the
      prompts that did not fail, in prompt order. */
  lemma {:induction false} ManifestFollowsPrompts(index: map<string, ImageInfo>, prompts: seq<ImagePrompt>,
                                                  outcomes: seq<Outcome>)
    requires KeyedByName(index) && AboutPrompts(prompts, outcomes)
    ensures Names(ManifestImages(index, outcomes)) == SucceededNames(prompts, outcomes)
  {
    if outcomes != [] {
      var n := |outcomes| - 1;
      assert AboutPrompts(prompts[..n], outcomes[..n]);
      ManifestFollowsPrompts(index, prompts[..n], outcomes[..n]);
      var before := ManifestImages(index, outcomes[..n]);
      var extra := Entries(index, outcomes[n]);
      assert Names(before + extra) == Names(before) + Names(extra);
    }
  }

  /** The files after the images of a run were written, in order. */
  function AfterWrites(files: map<string, seq<byte>>, outputDir: string, prompts: seq<ImagePrompt>,
                       outcomes: seq<Outcome>): map<string, seq<byte>>
    requires |prompts| == |outcomes|
  {
    if outcomes == [] then files
    else
      var n := |outcomes| - 1;
      var earlier := AfterWrites(files, outputDir, prompts[..n], outcomes[..n]);
      if outcomes[n].Generated? then earlier[OutputPath(outputDir, prompts[n]) := outcomes[n].bytes] else earlier
  }

  /** A file exists after the writes exactly when it existed before or some
      prompt generated it. */
  lemma {:induction false} AfterWritesFiles(files: map<string, seq<byte>>, outputDir: string,
                                            prompts: seq<ImagePrompt>, outcomes: seq<Outcome>, path: string)
    requires |prompts| == |outcomes|
    ensures path in AfterWrites(files, outputDir, prompts, outcomes) <==>
              path in files || exists j :: 0 <= j < |outcomes| && outcomes[j].Generated? && OutputPath(outputDir, prompts[j]) == path
  {
    if outcomes != [] {
      var n := |outcomes| - 1;
      AfterWritesFiles(files, outputDir, prompts[..n], outcomes[..n], path);
      if exists j :: 0 <= j < |outcomes| && outcomes[j].Generated? && OutputPath(outputDir, prompts[j]) == path {
        var j :| 0 <= j < |outcomes| && outcomes[j].Generated? && OutputPath(outputDir, prompts[j]) == path;
        if j < n {
          assert outcomes[..n][j] == outcomes[j] && prompts[..n][j] == prompts[j];
        }
      }
    }
  }

  /** The loop's state after `k` prompts. */
  ghost predicate TallySoFar(fs0: map<string, seq<byte>>, dirs: set<string>, outputDir: string,
                             prompts: seq<ImagePrompt>, index: map<string, ImageInfo>,
                             subscribe: (nat, ImagePrompt) -> ServiceAnswer,
                             fetch: (nat, string) -> Result<seq<byte>, string>, clock: nat -> string,
                             k: nat, outcomes: seq<Outcome>, existed: seq<bool>,
                             images: seq<ImageInfo>, skipped: nat, newCount: nat, files: map<string, seq<byte>>)
  {
    && k <= |prompts| && |outcomes| == |existed| == k
    && (forall j :: 0 <= j < k ==>
          && existed[j] == (OutputPath(outputDir, prompts[j]) in dirs ||
                            OutputPath(outputDir, prompts[j]) in AfterWrites(fs0, outputDir, prompts[..j], outcomes[..j]))
          && outcomes[j] == OutcomeFor(prompts[j], existed[j], subscribe(j, prompts[j]), fetch, j, clock(j)))
    && files == AfterWrites(fs0, outputDir, prompts[..k], outcomes)
    && images == ManifestImages(index, outcomes)
    && skipped == CountSkipped(outcomes) && newCount == CountGenerated(outcomes)
  }

  /** The loop of `main` over the prompts: each prompt's outcome is the one
      `generateImage` gives on the disk as the earlier prompts left it; a
      failure is logged and the loop goes on; the entries and the two
      counters are the bookkeeping of the outcomes. */
  method GenerateAll(fs: FileSystem, prompts: seq<ImagePrompt>, outputDir: string, index: map<string, ImageInfo>,
                     subscribe: (nat, ImagePrompt) -> ServiceAnswer,
                     fetch: (nat, string) -> Result<seq<byte>, string>, clock: nat -> string)
    returns (images: seq<ImageInfo>, skipped: nat, newCount: nat, ghost outcomes: seq<Outcome>, ghost existed: seq<bool>)
    modifies fs
    ensures TallySoFar(old(fs.files), old(fs.dirs), outputDir, prompts, index, subscribe, fetch, clock,
                       |prompts|, outcomes, existed, images, skipped, newCount, fs.files)
    ensures fs.dirs == old(fs.dirs)
  {
    images, skipped, newCount, outcomes, existed := [], 0, 0, [], [];
    var k := 0;
    while k < |prompts|
      invariant fs.dirs == old(fs.dirs)
      invariant TallySoFar(old(fs.files), old(fs.dirs), outputDir, prompts, index, subscribe, fetch, clock,
                           k, outcomes, existed, images, skipped, newCount, fs.files)
    {
      ghost var filesBefore := fs.files;
      ghost var was := fs.Exists(OutputPath(outputDir, prompts[k]));
      var result := GenerateImage(fs, prompts[k], outputDir, k, subscribe, fetch, clock);
      ghost var imagesBefore, skippedBefore, newBefore := images, skipped, newCount;
      match result {
        case Skipped(info) =>
          skipped := skipped + 1;
          if info.name in index {
            images := images + [index[info.name]];
          } else {
            images := images + [info];
          }
        case Generated(info, _) =>
          newCount := newCount + 1;
          images := images + [info];
        case Failed(_) =>
      }
      TallyStep(old(fs.files), old(fs.dirs), outputDir, prompts, index, subscribe, fetch, clock, k, outcomes,
                existed, imagesBefore, skippedBefore, newBefore, filesBefore, was, result, images, skipped,
                newCount, fs.files);
      outcomes := outcomes + [result];
      existed := existed + [was];
      k := k + 1;
    }
  }

  /** One more prompt extends the bookkeeping by its outcome. */
  lemma TallyStep(fs0: map<string, seq<byte>>, dirs: set<string>, outputDir: string,
                  prompts: seq<ImagePrompt>, index: map<string, ImageInfo>,
                  subscribe: (nat, ImagePrompt) -> ServiceAnswer,
                  fetch: (nat, string) -> Result<seq<byte>, string>, clock: nat -> string,
                  k: nat, outcomes: seq<Outcome>, existed: seq<bool>,
                  images: seq<ImageInfo>, skipped: nat, newCount: nat, files: map<string, seq<byte>>,
                  was: bool, result: Outcome,
                  images': seq<ImageInfo>, skipped': nat, newCount': nat, files': map<string, seq<byte>>)
    requires k < |prompts|
    requires TallySoFar(fs0, dirs, outputDir, prompts, index, subscribe, fetch, clock,
                        k, outcomes, existed, images, skipped, newCount, files)
    requires was == (OutputPath(outputDir, prompts[k]) in files || OutputPath(outputDir, prompts[k]) in dirs)
    requires result == OutcomeFor(prompts[k], was, subscribe(k, prompts[k]), fetch, k, clock(k))
    requires files' == if result.Generated? then files[OutputPath(outputDir, prompts[k]) := result.bytes] else files
    requires images' == images + Entries(index, result)
    requires skipped' == skipped + (if result.Skipped? then 1 else 0)
    requires newCount' == newCount + (if result.Generated? then 1 else 0)
    ensures TallySoFar(fs0, dirs, outputDir, prompts, index, subscribe, fetch, clock,
                       k + 1, outcomes + [result], existed + [was], images', skipped', newCount', files')
  {
    var o := outcomes + [result];
    assert o[..k] == outcomes;
    TallyPrefixStep(fs0, dirs, outputDir, prompts, subscribe, fetch, clock, k, outcomes, existed, was, result);
    assert AfterWrites(fs0, outputDir, prompts[..k + 1], o) == files' by {
      assert prompts[..k + 1][..k] == prompts[..k];
    }
    assert ManifestImages(index, o) == images';
    assert CountSkipped(o) == skipped' && CountGenerated(o) == newCount';
  }

  /** The per-prompt part of the bookkeeping, extended by one prompt. */
  lemma TallyPrefixStep(fs0: map<string, seq<byte>>, dirs: set<string>, outputDir: string,
                        prompts: seq<ImagePrompt>,
                        subscribe: (nat, ImagePrompt) -> ServiceAnswer,
                        fetch: (nat, string) -> Result<seq<byte>, string>, clock: nat -> string,
                        k: nat, outcomes: seq<Outcome>, existed: seq<bool>, was: bool, result: Outcome)
    requires k < |prompts| && |outcomes| == |existed| == k
    requires forall j :: 0 <= j < k ==>
               && existed[j] == (OutputPath(outputDir, prompts[j]) in dirs ||
                                 OutputPath(outputDir, prompts[j]) in AfterWrites(fs0, outputDir, prompts[..j], outcomes[..j]))
               && outcomes[j] == OutcomeFor(prompts[j], existed[j], subscribe(j, prompts[j]), fetch, j, clock(j))
    requires was == (OutputPath(outputDir, prompts[k]) in AfterWrites(fs0, outputDir, prompts[..k], outcomes) ||
                     OutputPath(outputDir, prompts[k]) in dirs)
    requires result == OutcomeFor(prompts[k], was, subscribe(k, prompts[k]), fetch, k, clock(k))
    ensures forall j :: 0 <= j < k + 1 ==>
              && (existed + [was])[j] == (OutputPath(outputDir, prompts[j]) in dirs ||
                                          OutputPath(outputDir, prompts[j]) in AfterWrites(fs0, outputDir, prompts[..j], (outcomes + [result])[..j]))
              && (outcomes + [result])[j] == OutcomeFor(prompts[j], (existed + [was])[j], subscribe(j, prompts[j]), fetch, j, clock(j))
  {
    var o := outcomes + [result];
    var e := existed + [was];
    forall j | 0 <= j < k + 1
      ensures e[j] == (OutputPath(outputDir, prompts[j]) in dirs ||
                       OutputPath(outputDir, prompts[j]) in AfterWrites(fs0, outputDir, prompts[..j], o[..j]))
      ensures o[j] == OutcomeFor(prompts[j], e[j], subscribe(j, prompts[j]), fetch, j, clock(j))
    {
      if j < k {
        assert o[..j] == outcomes[..j];
      } else {
        assert o[..j] == outcomes;
      }
    }
  }

  // ------------------------------------------------------------------- main

  const ManifestName: string := "images-manifest.json"

  /** `process.argv[2] || path.join(__dirname, "..", "output", …, "images")`. */
  function OutputDirFor(arg: string, scriptDir: string): string {
    if arg != "" then arg
    else PathJoin(PathJoin(PathJoin(PathJoin(scriptDir, ".."), "output"), "2026-01-01_ar-shopping-im-e-commerce-2026"), "images")
  }

  /** `loadExistingManifest`: the parsed manifest, or nothing when the file
      is missing or does not parse. */
  function LoadExistingManifest(files: map<string, seq<byte>>, manifestPath: string,
                                parse: seq<byte> -> Option<Manifest>): Option<Manifest> {
    if manifestPath in files then parse(files[manifestPath]) else None
  }

  /** The loop that fills `existingImages` from the existing manifest. */
  method BuildIndex(existing: Option<Manifest>) returns (index: map<string, ImageInfo>)
    ensures index == if existing.Some? then IndexByName(existing.value.images) else map[]
    ensures KeyedByName(index)
  {
    index := map[];
    if existing.Some? {
      var images := existing.value.images;
      var i := 0;
      while i < |images|
        invariant 0 <= i <= |images|
        invariant index == IndexByName(images[..i])
      {
        assert images[..i + 1][..i] == images[..i];
        index := index[images[i].name := images[i]];
        i := i + 1;
      }
      assert images[..|images|] == images;
      IndexByNameKeyed(images);
    }
  }

  /** `main`: creates the output directory, reads the existing manifest,
      generates every prompt, and writes the new manifest, whose counters
      account for every entry. Each prompt's outcome is the one
      `generateImage` gives on the disk as the earlier prompts left it, and
      the disk afterwards holds the generated images and the manifest. */
  method RunMain(fs: FileSystem, outputArg: string, scriptDir: string, prompts: seq<ImagePrompt>,
                 subscribe: (nat, ImagePrompt) -> ServiceAnswer,
                 fetch: (nat, string) -> Result<seq<byte>, string>, clock: nat -> string,
                 parse: seq<byte> -> Option<Manifest>, toJson: Manifest -> seq<byte>)
    returns (manifest: Manifest, ghost outcomes: seq<Outcome>, ghost existed: seq<bool>)
    modifies fs
    ensures |outcomes| == |prompts|
    ensures var outputDir := OutputDirFor(outputArg, scriptDir);
      var index := match LoadExistingManifest(old(fs.files), PathJoin(outputDir, ManifestName), parse)
                   case Some(m) => IndexByName(m.images) case None => map[];
      && TallySoFar(old(fs.files), old(fs.dirs) + {outputDir}, outputDir, prompts, index, subscribe, fetch, clock,
                    |prompts|, outcomes, existed, manifest.images, manifest.skippedImages, manifest.newlyGenerated,
                    AfterWrites(old(fs.files), outputDir, prompts, outcomes))
      && Names(manifest.images) == SucceededNames(prompts, outcomes)
    ensures manifest.totalImages == |manifest.images| == manifest.skippedImages + manifest.newlyGenerated
    ensures manifest.outputDir == OutputDirFor(outputArg, scriptDir) && manifest.generatedAt == clock(|prompts|)
    ensures fs.files == AfterWrites(old(fs.files), manifest.outputDir, prompts, outcomes)
                          [PathJoin(manifest.outputDir, ManifestName) := toJson(manifest)]
    ensures fs.dirs == old(fs.dirs) + {manifest.outputDir}
  {
    var outputDir := OutputDirFor(outputArg, scriptDir);
    var manifestPath := PathJoin(outputDir, ManifestName);
    fs.MakeDirectory(outputDir);
    var existing := LoadExistingManifest(fs.files, manifestPath, parse);
    var index := BuildIndex(existing);
    var images, skipped, newCount;
    images, skipped, newCount, outcomes, existed := GenerateAll(fs, prompts, outputDir, index, subscribe, fetch, clock);
    assert prompts[..|prompts|] == prompts;
    ManifestCounts(index, outcomes);
    forall k | 0 <= k < |outcomes| && !outcomes[k].Failed?
      ensures outcomes[k].info.name == prompts[k].name
    {
    }
    ManifestFollowsPrompts(index, prompts, outcomes);
    manifest := Manifest(clock(|prompts|), outputDir, |images|, skipped, newCount, images);
    fs.WriteFile(manifestPath, toJson(manifest));
  }
}
