# Carousel pipeline and website logic, modelled in Dafny

This project models two parts of one repository and proves properties of the model.

**The carousel pipeline** (`carousel/src`) turns a topic into a social-media image carousel. The steps are:
- A template plans the slides. There are three templates: hook/content/CTA, listicle and story framework. Each decides every slide's type, texts and colour.
- A prompt is built for each slide.
- The image service generates the slides one after the other. The first slide comes from text alone. Every later slide is an edit of the slide before it.
- The slides are saved under numbered file names in a dated, slugged output directory, and bundled into a PDF.

A second script generates stand-alone images from a list of prompts. It skips the ones that already exist and keeps a manifest of the results.

**The website logic** (`website/`) covers these parts:
- the German/English URL scheme: page and blog URLs, full-domain URLs, hreflang lists, the alternate-language link and language detection
- the schema.org builders
- the category, author and blog-image lookups
- the build-time slug map, with its cache
- the content-collection validators
- the site URL and the sitemap filter
- the ordering and ranking of the assets API (list and search)
- the contact form's section builder and response mapping

## Modelling conventions

- There is one Dafny module per source file. The modules share these helpers:
  - `Wrappers`: Option and Result
  - `Strings`: the JavaScript string operations used
  - `Seqs`: filtering and a sort proved sorted and a permutation
  - `Paths`: `path.join`, basename and dirname
  - `Base64`: encoding, with its decoder
  - `FileSystems`: a file system
  - `SlidePlan`: the slide-colour rule and the first sentence, which the three templates all share
  - `PromptTexts`: the long prompt texts
  - `AssetItems`: the directory entries that list and search share
- Loops that build a result step by step are methods with loop invariants:
  - the template loops
  - the prompt's `parts`
  - the generation loop
  - the manifest loop
  - the slug-map fold
  - the contact sections
  - the search walk

  Each method is proved against a specification function, and the lemmas are about that function. State that the source changes in place is a class: `FileSystems.FileSystem`, `SlugMap.SlugMapCache` and `AssetsList.AssetDisk`.
- External services take part only through what they return:
  - The image service and `fetch` are functions indexed by the number of the call. Node's `fetch` rejects a `file:` URL before any network call (`AiGenerator.FetchUrl`).
  - The e-mail provider's answer, the YAML parser, the PNG decoder and directory listings are explicit inputs.
  - The current date is a parameter.
- Prices are integer cents (15, 30 and 60 per image), so "N × unit price" is exact.
- Strings are sequences of Unicode code points. `localeCompare` and the default `Array.prototype.sort` order are the lexicographic order on code points, which is a total order.
- In-place sorts are a stable functional sort on sequences.
- Modification times are integers.

## Notes on the code

These facts about the code shape the model:
- **Images are downloaded twice.** `generateCarouselWithAI` downloads each generated image once to build the next slide's reference (`ai-generator.ts:129`), and again to save it (`ai-generator.ts:134`). The model uses fetch call `2k` for the reference of slide `k` and call `2k + 1` for the saved copy, so the two downloads may differ.
- **The error message is 1-based.** When a slide gets no images, the message names slide `i + 1` (`ai-generator.ts:124`).
- **The reference image is conditional.** It is used only when the previous data URI is non-empty. The data URI is always built with the `image/png` mime type.
- **An unknown template name is an error of the pipeline.** `getTemplate` throws "Unknown template: <name>", and the model returns it as an `Err` (`AiGenerator.Plan`).
- **The search trims its query for filtering only.** It filters with the trimmed query but ranks with the query as given (`AssetsSearch.PaddedQueryRanksByName`).
- **`regenerateSlide` loads the previous slide through `fetch`.** Node's `fetch` rejects `file:` URLs, so the edit branch fails as written. The model keeps that behaviour in `AiGenerator.RegenerateFromPlanAsWritten` and reads the file from disk in `AiGenerator.RegenerateFromPlan` (see "## Findings").

## Model

| member | source | states |
|---|---|---|
| CarouselTypes.AllSlideTypesComplete | carousel/src/types/carousel.types.ts:3-23 | every slide type is among the eighteen listed |
| CarouselTypes.ParseSlideType | carousel/src/types/carousel.types.ts:3-23 | a string parsed as a slide type is that type's name |
| CarouselTypes.ParseSlideTypeName | carousel/src/types/carousel.types.ts:3-23 | parsing a slide type's name gives that slide type back |
| CarouselTypes.ParseSlideTypeNone | carousel/src/types/carousel.types.ts:3-23 | a string parses to nothing exactly when it is no slide type's name |
| CarouselTypes.SlideTypeNamesDistinct | carousel/src/types/carousel.types.ts:3-23 | the eighteen names are pairwise distinct |
| CarouselTypes.Settings | carousel/src/types/carousel.types.ts:105-118 | each platform's aspect-ratio string is a ratio w:h with width·h = height·w (1:1 for 1080×1080, 4:5 for 1080×1350) |
| CarouselTypes.CostTiersDouble | carousel/src/types/carousel.types.ts:121-125 | each price tier is exactly double the one below it |
| SlidePlan.SlideColorFor | carousel/src/templates/hook-content-cta.ts:26-32 | dark mode gives dark, light mode light; mixed gives dark exactly for the first, the last and the even positions |
| SlidePlan.FirstSentence | carousel/src/templates/hook-content-cta.ts:39 | nothing exactly for empty thoughts; otherwise the text before the first '.', or all of it, and never containing '.' |
| HookContentCta.GenerateSlideConfigs | carousel/src/templates/hook-content-cta.ts:17-69 | the pushed list is the plan: hook, `slideCount - 2` points, call to action |
| HookContentCta.PlanShape | carousel/src/templates/hook-content-cta.ts:35-66 | for at least two slides: one entry per slide, entry i has index i, only the last hides the swipe arrow |
| HookContentCta.PlanContents | carousel/src/templates/hook-content-cta.ts:35-66 | the hook carries the topic and the first sentence of the thoughts; point k is "Key Point k" numbered k; the call to action's fixed copy |
| HookContentCta.PlanColors | carousel/src/templates/hook-content-cta.ts:26-32 | all dark, all light, or dark at both ends and by parity in between |
| HookContentCta.PlanBelowTwo | carousel/src/templates/hook-content-cta.ts:45-66 | below two slides the list still has a hook and a call to action, so its length differs from `slideCount` |
| Listicle.GenerateSlideConfigs | carousel/src/templates/listicle.ts:17-71 | the pushed list is the plan, which does not depend on the thoughts |
| Listicle.PlanShape | carousel/src/templates/listicle.ts:36-68 | one entry per slide, indices in order, hook first, call to action last, only the last hides the swipe arrow |
| Listicle.PlanContents | carousel/src/templates/listicle.ts:36-68 | the hook says "<n> Punkte die du kennen musst"; item k is "Punkt k", numbered k, accent k padded to two digits |
| Listicle.PadTwoDigits | carousel/src/templates/listicle.ts:54 | padding a number to two digits prefixes one '0' below ten and leaves longer numbers alone |
| Listicle.PlanColors | carousel/src/templates/listicle.ts:27-33 | the same colour rule as the other plans |
| StoryFramework.GenerateSlideConfigs | carousel/src/templates/story-framework.ts:17-74 | the pushed list is the plan: hook, `slideCount - 2` steps, call to action |
| StoryFramework.PlanShape | carousel/src/templates/story-framework.ts:36-71 | one entry per slide, indices in order, hook first, call to action last, only the last hides the swipe arrow |
| StoryFramework.PlanContents | carousel/src/templates/story-framework.ts:36-71 | "Ein n-Schritte Framework" and the first sentence on the hook; step k is "Schritt k", "Phase k", numbered k, accent "k/n"; the call to action's body text |
| StoryFramework.PlanColors | carousel/src/templates/story-framework.ts:27-33 | the same colour rule as the other plans |
| Templates.GetTemplate | carousel/src/templates/index.ts:16-22 | a template exactly for the three registered names; otherwise the error "Unknown template: <name>" |
| Templates.GetTemplateKnown | carousel/src/templates/index.ts:7-11 | each registered name gives its own template |
| Templates.GetAllTemplates | carousel/src/templates/index.ts:27-32 | three pairs, in registry order, each name with its registry entry |
| Templates.ChoicesAreRegistryKeys | carousel/src/templates/index.ts:37-50 | the menu's values are exactly the registry's keys, in order |
| FalConfig.ModelId | carousel/src/config/fal-config.ts:4-7 | both model ids name the same model family |
| FalConfig.ModelIdsRelated | carousel/src/config/fal-config.ts:4-7 | the edit model's id is the text-to-image model's id followed by "/edit" |
| FalConfig.EstimateCostMatchesTable | carousel/src/config/fal-config.ts:45-53 | the estimate is the slide count times the per-image price of the resolution, the same table as the shared price list |
| FalConfig.EstimateCostAdditive | carousel/src/config/fal-config.ts:45-53 | estimates add up over slide counts |
| FalConfig.DefaultEstimate | carousel/src/config/fal-config.ts:45-53 | the default resolution is the generation resolution, 30 cents per slide |
| FalConfig.MissingKeyHelp | carousel/src/config/fal-config.ts:24-31 | the help text printed for a missing key names FAL_KEY |
| FalConfig.ConfigureFal | carousel/src/config/fal-config.ts:20-40 | the client is configured exactly when FAL_KEY is set and non-empty, with that key; otherwise exit status 1 with the help text |
| DynamicTemplates.GenerateSlideHtml | carousel/src/slides/dynamic-templates.ts:59-107 | a slide type's name renders with that type's template; any other string with the content template |
| DynamicTemplates.SlideTypeNameInjective | carousel/src/slides/dynamic-templates.ts:60-101 | no two cases of the switch share a name |
| DynamicTemplates.DispatchGroups | carousel/src/slides/dynamic-templates.ts:62-101 | each type dispatches to its own template, and exactly the four image types to image layouts |
| DynamicTemplates.DispatchFallback | carousel/src/slides/dynamic-templates.ts:104-105 | an unknown type renders exactly like "content" |
| SlidePrompts.ConsistencyInstructions | carousel/src/prompts/slide-prompts.ts:38-53 | the consistency block is empty exactly for the first slide |
| SlidePrompts.PlatformInstructionsQuote | carousel/src/prompts/slide-prompts.ts:58-67 | the platform block starts with "IMAGE FORMAT:" and carries the platform's dimensions, aspect ratio and name (LinkedIn or Instagram) |
| SlidePrompts.TypeLines | carousel/src/prompts/slide-prompts.ts:73-184 | the slide-type block opens with the kind's heading, then the colour line, and closes with the kind's last line |
| SlidePrompts.SlideTypePromptHeading | carousel/src/prompts/slide-prompts.ts:79-183 | hook, content, listicle item, framework step and call to action have their own heading; every other type gets the generic one |
| SlidePrompts.SlideTypePromptColor | carousel/src/prompts/slide-prompts.ts:74-77 | the block carries the navy-background text for dark slides and the white-background text otherwise |
| SlidePrompts.SlideTypePromptTrimmed | carousel/src/prompts/slide-prompts.ts:79-184 | the trimmed template is its lines joined, with nothing left to trim |
| SlidePrompts.TopicTrailerLeads | carousel/src/prompts/slide-prompts.ts:210-216 | the trailer holds only the topic line and the context line |
| SlidePrompts.SectionsMembership | carousel/src/prompts/slide-prompts.ts:197-218 | for any distinct blocks, the consistency block appears when non-empty, the topic line exactly for non-CTA slides and the context line exactly when also thoughts are given |
| SlidePrompts.PromptConsistencyIffLater | carousel/src/prompts/slide-prompts.ts:206 | the prompt carries the consistency block exactly when the slide is not the first |
| SlidePrompts.PromptTopicIffNotCta | carousel/src/prompts/slide-prompts.ts:210-212 | the prompt names the topic exactly when the slide is not the call to action |
| SlidePrompts.PromptContextIff | carousel/src/prompts/slide-prompts.ts:213-215 | the prompt carries the thoughts exactly for a non-CTA slide with non-empty thoughts |
| SlidePrompts.SectionsNonEmpty | carousel/src/prompts/slide-prompts.ts:197-218 | after the filter, at least the four fixed blocks remain, the header first, and no part is empty |
| SlidePrompts.PromptSectionsNonEmpty | carousel/src/prompts/slide-prompts.ts:197-218 | the compiled prompt's parts start with the header and none is empty, so no blank separator lines remain |
| SlidePrompts.BuildSlidePrompt | carousel/src/prompts/slide-prompts.ts:190-219 | the prompt is the surviving sections in their fixed order, joined by line breaks |
| SlidePrompts.AssembleSections | carousel/src/prompts/slide-prompts.ts:197-218 | the pushes followed by `filter(Boolean)` and `join` give the ordered non-empty sections joined by line breaks |
| SlidePrompts.FilterTrailer | carousel/src/prompts/slide-prompts.ts:210-216 | dropping empty parts of what is pushed after the consistency block leaves the topic trailer |
| SlidePrompts.FilterSpaced | carousel/src/prompts/slide-prompts.ts:197-218 | dropping empty parts removes the spacers and an empty consistency block and keeps the blocks' order |
| SlidePrompts.EditPromptLines | carousel/src/prompts/slide-prompts.ts:224-246 | trimming the edit template removes exactly its opening and closing line break |
| SlidePrompts.EditPromptStyle | carousel/src/prompts/slide-prompts.ts:235 | the edit prompt always demands the exact visual style |
| SlidePrompts.EditPromptTopic | carousel/src/prompts/slide-prompts.ts:241 | the edit prompt always names the topic, for the call to action too |
| SlidePrompts.EditPromptBlocks | carousel/src/prompts/slide-prompts.ts:237-239 | the edit prompt carries the platform block and the slide-type block |
| SlidePrompts.EditPromptContext | carousel/src/prompts/slide-prompts.ts:242 | with thoughts, the edit prompt carries "CONTEXT: <thoughts>" |
| SlidePrompts.EditContextLineEmpty | carousel/src/prompts/slide-prompts.ts:242 | the context line is empty exactly when there are no thoughts |
| ImageUtils.DownloadImage | carousel/src/utils/image-utils.ts:7-16 | the body comes back exactly for a 2xx status, unchanged |
| ImageUtils.DownloadErrorText | carousel/src/utils/image-utils.ts:10-12 | any other status is the error "Failed to download image: <status> <text>" |
| ImageUtils.SaveToFile | carousel/src/utils/image-utils.ts:29-33 | the file holds the buffer, its directory exists, nothing else changes |
| ImageUtils.DownloadAndSave | carousel/src/utils/image-utils.ts:38-47 | on a good download the bytes are saved at the joined path, which is returned; on a bad one the error is passed on and nothing is written |
| ImageUtils.ParseDataUriOf | carousel/src/utils/image-utils.ts:21-24 | reading a data URI splits it at its first ';' into the mime type and the decoded payload |
| ImageUtils.DataUriRoundTrip | carousel/src/utils/image-utils.ts:21-24 | a data URI reads back as its mime type and its exact bytes |
| ImageUtils.DataUriPayload | carousel/src/utils/image-utils.ts:22-23 | the payload after "base64," is padded base64 of length 4·⌈n/3⌉ |
| ImageUtils.Transliterate | carousel/src/utils/image-utils.ts:56-59 | exactly ä, ö, ü and ß are replaced by two letters; every other character stays |
| ImageUtils.ExpandUmlautsNoop | carousel/src/utils/image-utils.ts:56-59 | a text without those letters is left alone |
| ImageUtils.CollapseRuns | carousel/src/utils/image-utils.ts:60 | the result holds only [a-z0-9-], is empty only for empty input, and starts with '-' exactly when the input starts with another character |
| ImageUtils.CollapseRunsNoDoubleHyphen | carousel/src/utils/image-utils.ts:60 | each maximal run becomes one hyphen, so no two hyphens are adjacent |
| ImageUtils.CollapseRunsKeepsAlnum | carousel/src/utils/image-utils.ts:60 | the letters and digits are kept, in order |
| ImageUtils.CollapseRunsAlnumPrefix | carousel/src/utils/image-utils.ts:60 | a prefix of letters and digits passes through unchanged |
| ImageUtils.TrimHyphens | carousel/src/utils/image-utils.ts:61 | at most one leading and one trailing character is dropped |
| ImageUtils.Truncate | carousel/src/utils/image-utils.ts:62 | at most n characters are kept, and they are a prefix |
| ImageUtils.TrimHyphensShape | carousel/src/utils/image-utils.ts:61 | on collapsed input the result neither starts nor ends with '-' |
| ImageUtils.SliceShape | carousel/src/utils/image-utils.ts:61 | a slice of a slug keeps slug characters and no double hyphen |
| ImageUtils.FullSlugEnds | carousel/src/utils/image-utils.ts:54-61 | before truncation the slug neither starts nor ends with '-' |
| ImageUtils.SlugShape | carousel/src/utils/image-utils.ts:54-62 | the slug has at most 30 characters, only [a-z0-9-], no "--", and no leading '-' |
| ImageUtils.TrimHyphensKeepsAlnum | carousel/src/utils/image-utils.ts:61 | trimming hyphens keeps every letter and digit |
| ImageUtils.FullSlugKeepsAlnum | carousel/src/utils/image-utils.ts:54-61 | the untruncated slug keeps exactly the letters and digits of the lower-cased, transliterated topic |
| ImageUtils.CollapsedExample | carousel/src/utils/image-utils.ts:54-61 | lower-case letters, a space and a letter slug to the letters, a hyphen and the letter |
| ImageUtils.SlugMayEndInHyphen | carousel/src/utils/image-utils.ts:61-62 | truncation comes after trimming, so a 30-character slug can end in '-' |
| ImageUtils.CreateOutputDir | carousel/src/utils/image-utils.ts:52-70 | the directory "<base>/<date>_<slug>" is created and returned, no file changes |
| ImageUtils.DirNameOfIsoTimestamp | carousel/src/utils/image-utils.ts:53-64 | for an ISO timestamp the name is its first ten characters, '_' and the slug |
| ImageUtils.DatePartOfIsoTimestamp | carousel/src/utils/image-utils.ts:53 | the date part of an ISO timestamp is the text before its 'T' |
| ImageUtils.OutputDirName | carousel/src/utils/image-utils.ts:64-65 | the output directory's last path segment is the directory name |
| ImageUtils.SanitizeType | carousel/src/utils/image-utils.ts:77 | one character out for each character in: the length is kept |
| ImageUtils.SanitizeTypeIdempotent | carousel/src/utils/image-utils.ts:77 | sanitising twice changes nothing more |
| ImageUtils.SanitizeTypeNoop | carousel/src/utils/image-utils.ts:77 | a name that needs no change is left alone |
| ImageUtils.SanitizeSlideTypeName | carousel/src/utils/image-utils.ts:77 | every slide type's name is kept as it is |
| ImageUtils.PaddedNumber | carousel/src/utils/image-utils.ts:76 | the padded number has at least two digits and its value is the number |
| ImageUtils.SlideFilenameNumber | carousel/src/utils/image-utils.ts:75-79 | the file name is a number of at least two digits with value index + 1, '-', the sanitised type and ".png" |
| ImageUtils.SlideFilenameHundred | carousel/src/utils/image-utils.ts:76 | padding never truncates: index 99 gives the prefix "100-" |
| ImageUtils.SmallPrefix | carousel/src/utils/image-utils.ts:76-78 | for slides 1 to 99 the name starts with two digits worth index + 1, then '-' |
| ImageUtils.SlideFilenamesSortInOrder | carousel/src/utils/image-utils.ts:75-79 | below a hundred slides, code-point order of the file names is slide order |
| ImageUtils.TwoDigitPrefixOrder | carousel/src/utils/image-utils.ts:76 | names that open with two digits sort by the two-digit number |
| ImageUtils.SlideFilenameHundredSortsEarly | carousel/src/utils/image-utils.ts:76 | from slide 100 on, the order breaks: "100-…" sorts before "11-…" |
| PdfBundler.PageFor | carousel/src/utils/pdf-bundler.ts:19-25 | a page is as large as its image, which is drawn at (0,0) at full size |
| PdfBundler.PagesOnePerPath | carousel/src/utils/pdf-bundler.ts:14-26 | the document is built exactly when every file embeds, with one page per path, in order |
| PdfBundler.PagesFirstError | carousel/src/utils/pdf-bundler.ts:14-26 | a failed build reports the error of the first path that does not embed |
| PdfBundler.PagesFrame | carousel/src/utils/pdf-bundler.ts:14-26 | writing a file that is not one of the inputs does not change the pages |
| PdfBundler.BundleToPdf | carousel/src/utils/pdf-bundler.ts:8-37 | on success the saved pages are written at the output path, its directory exists and the output path is returned; on an error nothing is written |
| PdfBundler.PagesPrefixError | carousel/src/utils/pdf-bundler.ts:14-26 | an error among the first n paths is the error of the whole loop |
| PdfBundler.PngPaths | carousel/src/utils/pdf-bundler.ts:49-52 | each selected name is joined to the input directory, in the selected order |
| PdfBundler.PngNamesSelection | carousel/src/utils/pdf-bundler.ts:49-51 | the selection is sorted and is a permutation of the names ending in ".png", and holds exactly those |
| PdfBundler.BundleDirectoryToPdf | carousel/src/utils/pdf-bundler.ts:42-60 | the sorted PNG files are bundled into `<inputDir>/<outputFilename>`, which is returned; on an error nothing is written |
| PdfBundler.NoPngError | carousel/src/utils/pdf-bundler.ts:54-56 | with no PNG file the result is the error "No PNG files found in <dir>" |
| AiGenerator.Plan | carousel/src/ai-generator.ts:51-57 | the plan exists exactly when the template name is known; otherwise the error names the unknown template |
| AiGenerator.FirstPrompts | carousel/src/ai-generator.ts:79-85 | one text-to-image prompt per planned slide, compiled from that slide's configuration |
| AiGenerator.EditPrompts | carousel/src/ai-generator.ts:99-104 | one edit prompt per planned slide, compiled from that slide's configuration |
| AiGenerator.PreviousAt | carousel/src/ai-generator.ts:97-130 | a call has a reference image exactly when it is not the first call |
| AiGenerator.ExpectedRequests | carousel/src/ai-generator.ts:64-116 | the first n calls of a run number exactly n |
| AiGenerator.PlanSlides | carousel/src/ai-generator.ts:133-141 | one record per configuration, each the record of that configuration's saved file |
| AiGenerator.SlidePaths | carousel/src/ai-generator.ts:145 | the paths of the records, in order |
| AiGenerator.GenerateSlide | carousel/src/ai-generator.ts:75-141 | the call for slide i is the one its position and reference call for; it fails with exactly the error of its step (the call's rejection, no image, or a failed download) and then leaves the disk unchanged; on success the record is the configuration's, the slide's file holds the second download of the returned image, its directory exists and no other file changed |
| AiGenerator.SlideStep | carousel/src/ai-generator.ts:75-141 | one pass of the loop: the progress report for slide i+1 of n; a failing step gives the loop's failure outcome with the disk of the slides before it; a step that goes through moves the chained calls, records, cost and disk on by one slide |
| AiGenerator.GenerateSlides | carousel/src/ai-generator.ts:64-142 | the calls made are chained, one per reached slide, with a progress report for each; a failure is the error of the last call, every earlier one went through and the disk holds exactly the files of the slides before it; on success every slide is recorded as planned at 30 cents each and the disk holds each slide's download under its path |
| AiGenerator.BundleSlides | carousel/src/ai-generator.ts:145-146 | on success `<outputDir>/carousel.pdf` is written with the pages of the saved slides in plan order and nothing else changes; on an error, the error of the first slide that cannot be embedded, nothing is written |
| AiGenerator.GenerateFromPlan | carousel/src/ai-generator.ts:60-153 | on success every call went through, the slides are the plan's, the cost is the estimate for that many images, the disk holds each slide's download and the PDF made from exactly those files, and nothing else; a failure is a failed slide step, with the earlier slides saved, or the PDF error, with every slide saved |
| AiGenerator.GenerateCarouselWithAI | carousel/src/ai-generator.ts:47-154 | an unknown template fails before any call and writes nothing; otherwise the run has the outcome of its plan with the compiled prompts, including the files it writes |
| AiGenerator.ExpectedChained | carousel/src/ai-generator.ts:64-130 | the reference run is chained: each call uses its slide's prompts and the reference of the call before |
| AiGenerator.ChainedIsExpected | carousel/src/ai-generator.ts:64-130 | a chained list of calls is the reference run of its length: the calls of a run are determined by the prompts and the service's answers |
| AiGenerator.ChainedPrefix | carousel/src/ai-generator.ts:64-130 | every prefix of a chained run is chained |
| AiGenerator.ExpectedAt | carousel/src/ai-generator.ts:64-116 | call k of the reference run is the call for slide k on the reference of call k-1 |
| AiGenerator.FirstSlideFromText | carousel/src/ai-generator.ts:77-96 | the first call is text-to-image, with no reference image, the first slide's prompt and generations limited |
| AiGenerator.LaterSlidesEditPrevious | carousel/src/ai-generator.ts:97-130 | every later call is an image edit of exactly the previous slide's downloaded image, with its edit prompt and no generation limit |
| AiGenerator.RequestsUseSettings | carousel/src/ai-generator.ts:87-115 | every call uses the platform's aspect ratio, the 2K resolution, PNG output and one image |
| AiGenerator.ReferenceCarriesImage | carousel/src/ai-generator.ts:129-130 | the reference handed on decodes back to the downloaded bytes as image/png |
| AiGenerator.SlidePathNotPdf | carousel/src/ai-generator.ts:133-146 | no slide file is written at the PDF's path |
| AiGenerator.PlanPathsOfSlides | carousel/src/ai-generator.ts:145 | the paths of matching records are the plan's paths |
| AiGenerator.SavedFilesExtend | carousel/src/ai-generator.ts:133-134 | a later call does not change what the earlier slides saved |
| AiGenerator.SavedAdvances | carousel/src/ai-generator.ts:133-134 | saving slide i adds exactly its download under its path and its directory to what the slides before it saved |
| AiGenerator.SavedSoFarAdvances | carousel/src/ai-generator.ts:133-134 | the disk of the first i slides, with slide i saved, is the disk of the first i + 1 slides |
| AiGenerator.SlideSaved | carousel/src/ai-generator.ts:133-134 | saving slide i of a plan under its record's path moves the disk of the run on by one slide |
| AiGenerator.SavedSoFarStops | carousel/src/ai-generator.ts:97-134 | a slide that fails saves nothing: the disk stays that of the slides before it |
| AiGenerator.SavedFileOfSlide | carousel/src/ai-generator.ts:133-134 | when the slides' paths are distinct, slide k's file after the loop holds slide k's own second download, whatever the other slides saved |
| AiGenerator.PlanPathsDistinct | carousel/src/ai-generator.ts:133-134 | slides with distinct non-negative indices are saved under distinct paths |
| AiGenerator.PlanIndicesDistinct | carousel/src/ai-generator.ts:51-57 | every template plans distinct non-negative slide indices for two slides or more |
| AiGenerator.SavedPages | carousel/src/ai-generator.ts:145-146 | the PDF of the saved slides can be made exactly when every slide's download embeds, and page k is then the image of slide k's download |
| AiGenerator.SavedThenBundled | carousel/src/ai-generator.ts:133-146 | slides saved under distinct paths and then bundled elsewhere: each slide's file holds its own download and page k of the PDF is slide k's image |
| AiGenerator.PlanPathsNotPdf | carousel/src/ai-generator.ts:133-146 | no path of a plan is the PDF's path |
| AiGenerator.OutcomeFiles | carousel/src/ai-generator.ts:64-146 | after a successful run over a plan with distinct indices, each slide's file holds the image its call brought back and page k of the PDF is slide k's image |
| AiGenerator.CarouselFiles | carousel/src/ai-generator.ts:47-154 | for two slides or more, a successful `generateCarouselWithAI` run leaves each slide's own image in its file and as its page of the PDF, in plan order |
| AiGenerator.PreviousReferenceCarriesFile | carousel/src/ai-generator.ts:177-180 | with a path given, the reference fails exactly when the file is missing; otherwise it decodes back to the file's bytes as image/png |
| AiGenerator.RegenerateWithReference | carousel/src/ai-generator.ts:181-238 | given the reference: an index outside the plan fails without a call, with V8's "TypeError: Cannot read properties of undefined (reading 'colorMode')", since the prompt builder reads `colorMode` of the missing configuration; otherwise the one call for that slide, which succeeds exactly when the call is not rejected, an image comes back and its download succeeds; a failure is the rejection's message, "No images returned for slide <slideIndex + 1>" or the download's error; on success its file holds the download; on failure the disk is unchanged |
| AiGenerator.PreviousReferenceAsWritten | carousel/src/ai-generator.ts:177-180 | as written, every given previous-slide path fails with the `fetch` error of a `file:` URL; no path gives no reference |
| AiGenerator.RegenerateFromPlanAsWritten | carousel/src/ai-generator.ts:173-238 | as written, regenerating with a previous slide fails before any call and leaves the disk unchanged; without one it draws the slide from text, and an index outside the plan fails with V8's "TypeError: Cannot read properties of undefined (reading 'colorMode')" |
| AiGenerator.PreviousSlideNeverLoaded | carousel/src/ai-generator.ts:177-180 | a previous slide that exists on disk fails as written, while reading it from disk gives a reference |
| ImageUtils.SlideFilenameIndex | carousel/src/utils/image-utils.ts:75-79 | two non-negative indices give the same file name only when they are equal, whatever the types |
| ImageUtils.SlideFilenameLast | carousel/src/utils/image-utils.ts:75-79 | every slide file name ends in ".png", whatever the index and the type |
| ImageUtils.SanitizeTypeAt | carousel/src/utils/image-utils.ts:77 | character i of the sanitised name is character i of the name, or '-' where that one is outside [A-Za-z0-9-] |
| Templates.PlanIndices | carousel/src/templates/index.ts:7-11 | every registered template numbers a plan of two slides or more 0, 1, … in order, one entry per slide |
| Paths.PathJoinInjective | carousel/src/utils/image-utils.ts:44 | joining two names to the same directory gives the same path only for the same name |
| AiGenerator.WithFeedback | carousel/src/ai-generator.ts:184-209 | without feedback the prompt is unchanged; with feedback the prompt is kept as the start and the feedback ends it |
| AiGenerator.SaveRegenerated | carousel/src/ai-generator.ts:223-238 | it succeeds exactly when the call is not rejected, the answer has an image and its download succeeds; the error is the rejection's message, "No images returned for slide <slideIndex + 1>" or the download's error; on success exactly one file, the slide's, is written with its download, and its directory exists; on an error the disk is unchanged |
| AiGenerator.RegenerateFromPlan | carousel/src/ai-generator.ts:173-238 | a previous slide given by a path is read from disk, and a missing file fails before any call; an index outside the plan fails without a call, with V8's "TypeError: Cannot read properties of undefined (reading 'colorMode')"; otherwise one call, with the edit prompt on the previous file's bytes or the text prompt without one, each with the feedback added; the call fails exactly with its rejection, the missing-image error or the download error; on success the slide's file holds the download and its record is returned; on failure the disk is unchanged |
| AiGenerator.RegenerateSlide | carousel/src/ai-generator.ts:159-239 | an unknown template fails without a call or a write; otherwise the outcome of regenerating from its plan, with the previous slide read from disk, an index outside the plan failing with V8's "TypeError: Cannot read properties of undefined (reading 'colorMode')" |
| GenerateImages.ApiKey | carousel/src/generate-images.ts:22 | the key is FAL_KEY when that is set and non-empty, otherwise FALAI_KEY; there is none exactly when both are unset or empty, and a key found is never empty |
| GenerateImages.ExistingIsSkipped | carousel/src/generate-images.ts:130-146 | an image whose file exists is skipped, whatever the service and the clock would say, and is marked "previously generated" |
| GenerateImages.NewImageOutcome | carousel/src/generate-images.ts:148-191 | a new image is generated exactly when the service answers with an image and its download succeeds; its entry records the name, `<name>.png`, the source URL, the time and the downloaded bytes; an empty answer fails with "No image generated for <name>" |
| GenerateImages.GenerateImage | carousel/src/generate-images.ts:126-191 | the outcome is the one for whether the file existed, the service's answer and the download; only a generated image writes its file, at `<outputDir>/<name>.png` |
| GenerateImages.IndexByNameLast | carousel/src/generate-images.ts:218-222 | a name is in the index exactly when some earlier entry has it, and it maps to the last such entry |
| GenerateImages.IndexByNameKeyed | carousel/src/generate-images.ts:218-222 | every entry of the index is stored under its own name |
| GenerateImages.Entry | carousel/src/generate-images.ts:235-247 | a failure adds no entry; a skipped image keeps its existing manifest entry when there is one, else its fresh entry |
| GenerateImages.ManifestCounts | carousel/src/generate-images.ts:227-261 | the manifest holds as many entries as images skipped plus generated |
| GenerateImages.Names | carousel/src/generate-images.ts:260 | the names of the entries, in order |
| GenerateImages.ManifestFollowsPrompts | carousel/src/generate-images.ts:231-251 | the manifest lists, in prompt order, exactly the names of the prompts that did not fail |
| GenerateImages.AfterWritesFiles | carousel/src/generate-images.ts:231-251 | after the loop a file exists exactly when it existed before or some generated image was written there |
| GenerateImages.GenerateAll | carousel/src/generate-images.ts:227-251 | each prompt's outcome is the one on the disk as the earlier prompts left it; failures are skipped; the entries and both counters are those of the outcomes; only generated files are written |
| GenerateImages.BuildIndex | carousel/src/generate-images.ts:217-225 | the index is that of the existing manifest, or empty without one, and is keyed by name |
| GenerateImages.RunMain | carousel/src/generate-images.ts:193-273 | each prompt's outcome is the one `generateImage` gives on the disk as the earlier prompts left it; the manifest counts one entry per skipped or generated image, in prompt order, with the totals, the output directory and the finishing time; the disk afterwards holds exactly the generated images and `images-manifest.json`, and the output directory exists |
| Translations.ParseLang | website/src/i18n/translations.ts:1-8 | a code names a language exactly when it is a key of the language table, and the language found has that code |
| Translations.LanguagesAreDeEn | website/src/i18n/translations.ts:1-8 | the supported languages are exactly "de" and "en", and each language's code parses back to it |
| Translations.GetLangFromUrl | website/src/i18n/translations.ts:208-212 | the language is the first path segment when that is a supported code, and the default German otherwise |
| Translations.SplitFirstSegment | website/src/i18n/translations.ts:209 | splitting "/seg/rest" at "/" gives seg as the second part |
| Translations.GetLangFirstSegment | website/src/i18n/translations.ts:208-212 | a path whose first segment is "en" is English; any other first segment gives German |
| Translations.GetLangRoot | website/src/i18n/translations.ts:208-212 | the root path "/" is German |
| Translations.UseTranslations | website/src/i18n/translations.ts:204-206 | both languages translate the same navigation and footer keys |
| I18n.HomePath | website/src/lib/i18n.ts:42-44 | the home page is "/" in German and "/en" in English |
| I18n.GetPageUrl | website/src/lib/i18n.ts:36-47 | without a slug or with "index" the URL is the language's home; otherwise the language prefix, "/" and the slug |
| I18n.StripMarkdownExtension | website/src/lib/i18n.ts:56 | the id loses a trailing ".md" or ".mdx" and is otherwise unchanged |
| I18n.GetBlogUrl | website/src/lib/i18n.ts:52-59 | the URL is the language prefix, "/blog/" and the slug (the explicit one, else the id without its extension) |
| I18n.DetectLanguageFromPath | website/src/lib/i18n.ts:234-239 | a path is English exactly when it is "/en" or starts with "/en/" |
| I18n.DetectNeedsWholeSegment | website/src/lib/i18n.ts:234-239 | "/en" followed by more letters of the same segment (as in "/english") is German |
| I18n.IndexOfAt | website/src/lib/i18n.ts:234-239 | the first occurrence of a character is found at its index |
| I18n.FirstSegmentEn | website/src/lib/i18n.ts:234-239 | a slug starting with "en/", or equal to "en", has the first segment "en" |
| I18n.SlashPrefix | website/src/lib/i18n.ts:234-239 | putting "/" in front turns the "en/" test and the "en" test into the "/en/" and "/en" tests |
| I18n.PageUrlLanguage | website/src/lib/i18n.ts:36-47 | a page's URL is detected as the page's language, unless a German slug starts with the segment "en" |
| I18n.GermanSlugEnLooksEnglish | website/src/lib/i18n.ts:36-47 | a German page with the slug "en" gets the URL "/en" and is detected as English |
| I18n.BlogUrlLanguage | website/src/lib/i18n.ts:52-59 | a blog post's URL is always detected as the post's language |
| I18n.DetectAgreesWithGetLang | website/src/lib/i18n.ts:234-239 | on absolute paths the prefix test agrees with the first-segment lookup of the translation tables |
| I18n.FindPageTranslation | website/src/lib/i18n.ts:64-73 | a found page is the first page in the list with the same page id and the target language; nothing is found exactly when no page has both |
| I18n.FindBlogTranslation | website/src/lib/i18n.ts:78-87 | a found post is the first post in the list with the same post id and the target language; nothing is found exactly when no post has both |
| I18n.GetPageTranslations | website/src/lib/i18n.ts:92-97 | the translations are exactly the pages with the same page id, and include the page itself |
| I18n.GetBlogTranslations | website/src/lib/i18n.ts:102-107 | the translations are exactly the posts with the same post id, and include the post itself |
| I18n.FullPageUrlShape | website/src/lib/i18n.ts:117-132 | a page's full URL is its language's domain, "/" and the slug; the German home is "https://wernerstrauch.de/" and the English home "https://wernerstrauch.com" |
| I18n.FullBlogUrlShape | website/src/lib/i18n.ts:169-180 | a post's full URL is its language's domain, "/blog/" and the slug, with no "/en" prefix on the English domain |
| I18n.HreflangEntries | website/src/lib/i18n.ts:142-163 | one entry per translation with its language and full URL, in order, then an "x-default" entry for the first German translation when there is one |
| I18n.PageLangs | website/src/lib/i18n.ts:153-155 | the languages of the pages, in order |
| I18n.BlogLangs | website/src/lib/i18n.ts:201-203 | the languages of the posts, in order |
| I18n.GetPageHreflangEntries | website/src/lib/i18n.ts:137-164 | one entry per translation with its language and full URL; an extra entry exactly when some translation is German, and then it is "x-default" with the German domain URL of the first German translation |
| I18n.GetBlogHreflangEntries | website/src/lib/i18n.ts:185-212 | one entry per translation with its language and full URL; an extra entry exactly when some translation is German, and then it is "x-default" with the German blog URL of the first German translation |
| I18n.GetAlternateUrl | website/src/lib/i18n.ts:218-229 | a non-empty alternate URL is returned as is; otherwise the other language's home |
| I18n.AlternateFallback | website/src/lib/i18n.ts:218-229 | the fallback is the other language's home page, and it is detected as that language |
| Schema.Absolutize | website/src/lib/schema.ts:237 | a URL starting with "http" is kept; any other is prefixed with the site's base URL |
| Schema.AbsolutizeIdempotent | website/src/lib/schema.ts:237 | an absolutized URL starts with "http", so absolutizing it again changes nothing |
| Schema.GenerateServiceSchema | website/src/lib/schema.ts:225-251 | name and description are copied, the URL is absolutized, the service type falls back to the name, the provider is the person and the area Germany; an image appears exactly when one is given, absolutized |
| Schema.ServiceSchemaStable | website/src/lib/schema.ts:225-251 | feeding a service schema's own fields back in yields the same schema |
| Schema.GenerateBreadcrumbSchema | website/src/lib/schema.ts:261-272 | one list item per breadcrumb, at position index + 1, with its name and absolutized URL |
| Schema.BreadcrumbPositions | website/src/lib/schema.ts:265-267 | positions strictly increase, the last is the number of items, and the schema of a prefix is the prefix of the schema |
| Schema.GenerateFaqSchema | website/src/lib/schema.ts:282-295 | one question per FAQ item |
| Schema.FaqRoundTrip | website/src/lib/schema.ts:286-293 | the questions and answers read back from the schema are exactly the FAQ items, in order |
| Schema.GenerateWebPageSchema | website/src/lib/schema.ts:307-331 | name and description are copied, the URL is absolute, the language is de-DE, the page is part of the site and about the person; a modification date appears exactly when a non-empty one is given |
| Schema.ParseServiceSlug | website/src/lib/schema.ts:347-393 | a slug names a service page exactly when it is one of the nine keys of the service table |
| Schema.RootPathIsRelative | website/src/lib/schema.ts:402-407 | "/<slug>" is absolutized to the base URL, "/" and the slug |
| Schema.ServicePageSchema | website/src/lib/schema.ts:398-408 | the service schema of a page carries the table's name, description and service type, the URL `https://wernerstrauch.de/<slug>` and no image |
| Schema.GetServiceSchemaForPage | website/src/lib/schema.ts:398-408 | an unknown slug gives nothing; a known slug gives that page's service schema |
| Schema.ServiceSlugInjective | website/src/lib/schema.ts:347-393 | no two service pages share a slug |
| Schema.ParseServiceSlugOf | website/src/lib/schema.ts:347-393 | every service page is found by its own slug |
| Schema.ServiceTypeSet | website/src/lib/schema.ts:347-393 | every entry of the service table has a non-empty service type, so the name fallback is never used for it |
| Schema.CatalogOrderComplete | website/src/lib/schema.ts:347-393 | every service page appears in the offer catalog's order |
| Schema.CatalogUrlAt | website/src/lib/schema.ts:133-210 | each catalog offer links to the page of the service at its position |
| Schema.CatalogMatchesServicePages | website/src/lib/schema.ts:133-210 | the offer catalog lists all nine service pages, each with the URL of its own service schema |
| BlogCategories.IdIsKey | website/src/config/blog-categories.ts:18-55 | every category's id is the key it is stored under |
| BlogCategories.ParseKey | website/src/config/blog-categories.ts:18-55 | a string names a category key exactly when it is one of the four keys |
| BlogCategories.GetCategory | website/src/config/blog-categories.ts:65-67 | a known id gives its category, whose id is that id; any other string gives nothing |
| BlogCategories.KeyNameInjective | website/src/config/blog-categories.ts:18-55 | no two categories share a key |
| BlogCategories.ParseKeyOf | website/src/config/blog-categories.ts:18-55 | every key is found by its own name |
| BlogCategories.AllKeys | website/src/config/blog-categories.ts:60 | the four keys, each at its own position |
| BlogCategories.GetAllCategories | website/src/config/blog-categories.ts:79-81 | all four categories, in declaration order |
| BlogCategories.GetCategoryBySlug | website/src/config/blog-categories.ts:72-74 | a slug of some category gives that category; any other string gives nothing |
| BlogCategories.SlugInjective | website/src/config/blog-categories.ts:18-55 | no two categories share a slug |
| BlogCategories.SlugIsNotId | website/src/config/blog-categories.ts:72-74 | looking up "strategy" by slug finds nothing: that category's slug is "strategie" |
| BlogCategories.NotStrategyId | website/src/config/blog-categories.ts:18-55 | no category's slug is the id "strategy" |
| BlogCategories.ValidIffFound | website/src/config/blog-categories.ts:86-88 | an id is valid exactly when it is found, exactly when it is one of the four keys |
| Authors.Lookup | website/src/config/authors.ts:46-48 | a key finds an author exactly when some entry has that key, and the author found is that entry's |
| Authors.AuthorByName | website/src/config/authors.ts:44-66 | a matching key wins; otherwise the first author whose name equals the argument ignoring case; otherwise an unknown author named after the argument |
| Authors.UnknownOnlyWhenUnmatched | website/src/config/authors.ts:44-66 | the fallback author (id "unknown") comes back exactly when neither the key nor any name matches |
| Authors.NameIgnoresCase | website/src/config/authors.ts:51-57 | with no key match, the first author whose name matches ignoring case is returned |
| Authors.CapitalsAreIgnored | website/src/config/authors.ts:52 | two names that differ only in letter case match |
| Authors.RegisteredAuthor | website/src/config/authors.ts:27-57 | "werner-strauch", and the name "Werner Strauch", both find the registered author |
| Authors.UnregisteredName | website/src/config/authors.ts:60-65 | any other argument gives the fallback author with that name and the title "Autor" |
| Authors.GetAuthorById | website/src/config/authors.ts:78-80 | only the id "werner-strauch" finds an author, the registered one |
| Authors.GetAllAuthors | website/src/config/authors.ts:71-73 | the authors of the table, in order |
| Authors.KeysAreIds | website/src/config/authors.ts:27-38 | every author is stored under its own id |
| SlugMap.WithField | website/src/lib/slug-map.ts:57 | setting one language's slug leaves the other language's slug unchanged |
| SlugMap.LastSlug | website/src/lib/slug-map.ts:44-62 | a page id gets a slug from a directory exactly when some page file there names it |
| SlugMap.FoldFilesEntry | website/src/lib/slug-map.ts:44-62 | after scanning one language's files, an id is in the map exactly when it was before or some file names it; its slug for that language is the last file's (the slug, or "" without one); the other language's slug stays as it was, or "" for a new id |
| SlugMap.YamlFilesOnly | website/src/lib/slug-map.ts:42 | only ".yaml" and ".yml" files are read |
| SlugMap.UnparseableSkipped | website/src/lib/slug-map.ts:48-61 | a file that does not parse changes nothing |
| SlugMap.FoldSkips | website/src/lib/slug-map.ts:51 | a file without a page id changes nothing |
| SlugMap.SlugMapEntry | website/src/lib/slug-map.ts:25-67 | an id is in the map exactly when a German or an English page file names it; each language's slug is the last such file's, or "" when no file of that language names it; a missing directory counts as empty |
| SlugMap.SlugMapCache.constructor | website/src/lib/slug-map.ts:20 | the cache starts empty |
| SlugMap.SlugMapCache.BuildSlugMap | website/src/lib/slug-map.ts:25-67 | a cached map is returned without rebuilding; otherwise the map of the pages is built once, cached and returned |
| SlugMap.SlugMapCache.GetSlugForLanguage | website/src/lib/slug-map.ts:72-75 | the slug of the id in the (cached or fresh) map, and nothing exactly when the id is missing |
| SlugMap.SlugMapCache.ClearSlugMapCache | website/src/lib/slug-map.ts:80-82 | the cache is emptied |
| SlugMap.CacheUntilCleared | website/src/lib/slug-map.ts:20-82 | a second build sees the cached map even if the pages changed; after clearing, the new pages are read |
| BlogImages.ResolveBlogImage | website/src/lib/blog-images.ts:22-39 | an empty path, or one ending in "/", resolves to nothing; otherwise the image is found exactly when its last path segment is a file in the blog image folder |
| BlogImages.PathAndNameAgree | website/src/lib/blog-images.ts:25-31 | a path and its bare file name resolve to the same image |
| BlogImages.TrailingSlashResolvesNothing | website/src/lib/blog-images.ts:27-28 | a path ending in "/" resolves to nothing |
| BlogImages.GetAllBlogImages | website/src/lib/blog-images.ts:51-55 | each image path loses its first "/src/images/blog/" |
| BlogImages.ListedNamesResolve | website/src/lib/blog-images.ts:22-55 | every name listed resolves back to its image |
| ContentConfig.IsValidPageSlug | website/src/content.config.ts:73-76 | the character check accepts a slug exactly when it matches the slug pattern: "index", or one or two "/"-separated segments of lower-case letters and digits joined by single hyphens |
| ContentConfig.SegmentIffChars | website/src/content.config.ts:75 | the recursive segment grammar and the character-level description of a segment agree |
| ContentConfig.SegmentHasChars | website/src/content.config.ts:75 | every segment of the grammar has the character-level shape |
| ContentConfig.HyphenJoin | website/src/content.config.ts:75 | a group, a hyphen and a segment make a segment |
| ContentConfig.CharsMakeSegment | website/src/content.config.ts:75 | every string of the character-level shape is a segment of the grammar |
| ContentConfig.AfterHyphen | website/src/content.config.ts:75 | a hyphen in a segment is neither first nor last and is followed by a segment |
| ContentConfig.NoSlashInSegment | website/src/content.config.ts:75 | a segment holds no "/" |
| ContentConfig.SlugCheckMatchesGrammar | website/src/content.config.ts:75 | splitting at the first "/" and checking both halves is the same as matching the pattern |
| ContentConfig.ValidSlugShape | website/src/content.config.ts:75 | a valid slug other than "index" has no capitals, starts and ends with neither "/" nor "-", has at most one "/" and no "--" |
| ContentConfig.TwoSegmentsShape | website/src/content.config.ts:75 | two segments joined by "/" have that shape |
| ContentConfig.LeadingSlashRefused | website/src/content.config.ts:75 | a slug starting with "/" is refused |
| ContentConfig.ParseLangField | website/src/content.config.ts:5 | a missing language defaults to German; a given one is accepted exactly when it is "de" or "en", as that language |
| ContentConfig.ParseStatus | website/src/content.config.ts:80 | a missing status is published; a given one is accepted exactly when it is "published" or "draft" |
| ContentConfig.ParseHeaderVariant | website/src/content.config.ts:82 | a missing header variant is light; a given one is accepted exactly when it is "light" or "dark" |
| ContentConfig.ParseSettings | website/src/content.config.ts:78-84 | the settings are accepted exactly when the status and the header variant are accepted and any priority lies in [0, 1]; the priority defaults to 0.8 |
| ContentConfig.ParseOptionalSettings | website/src/content.config.ts:78-84 | missing settings stay missing; given settings are accepted exactly when they parse |
| ContentConfig.EmptySettingsDefaults | website/src/content.config.ts:78-84 | empty settings become published, priority 0.8, light header |
| ContentConfig.SectionEnabled | website/src/content.config.ts:88 | a section is enabled unless it says otherwise |
| ContentConfig.BlogFlag | website/src/content.config.ts:23-24 | the featured and draft flags default to false |
| ContentConfig.PagesPattern | website/src/content.config.ts:51-54 | with SITE_LANG set and non-empty only that language's YAML files are loaded; otherwise all of them |
| AstroConfig.SiteLang | website/astro.config.mjs:9 | the build language is SITE_LANG when set and non-empty, otherwise "de" |
| AstroConfig.SiteUrl | website/astro.config.mjs:10-14 | the site is the English domain exactly when the build language is "en", and the German domain otherwise |
| AstroConfig.SiteUrlMatchesLanguageConfig | website/astro.config.mjs:10-14 | each language's build site is the domain that language's URL configuration names |
| AstroConfig.SitemapIncludes | website/astro.config.mjs:35-42 | a page is in the sitemap exactly when it contains none of "/dev/", "/test-", "/impressum", "/datenschutz", "/privacy", "/legal" |
| AstroConfig.ExcludedAnywhere | website/astro.config.mjs:35-42 | a page containing an excluded fragment anywhere is left out |
| AstroConfig.ExclusionEmbeds | website/astro.config.mjs:35-42 | a page left out stays left out inside a longer path |
| AssetItems.Extension | website/src/pages/api/assets/list.ts:75 | a name with no "." after its first character has no extension |
| AssetItems.ExtensionOf | website/src/pages/api/assets/list.ts:75 | the extension of "base.ext" is "ext" in lower case |
| AssetItems.SubDir | website/src/pages/api/assets/search.ts:35 | an entry of the root is its own name; deeper entries are joined with "/" |
| AssetItems.RelativePath | website/src/pages/api/assets/list.ts:61-63 | the path shown is "/" followed by the entry's path below the asset root, and ends with its name |
| AssetItems.EntryItem | website/src/pages/api/assets/list.ts:57-109 | the item keeps the entry's name and time; it is a folder exactly for a directory; only files have a size and an extension; its absolute path is under the domain's asset folder; exactly image files get a thumbnail, which is their own path |
| AssetItems.LocaleCompare | website/src/pages/api/assets/list.ts:130 | the comparison is 0 exactly for equal names and lies in [-1, 1] |
| AssetItems.LocaleCompareOrder | website/src/pages/api/assets/list.ts:130 | swapping the names negates the comparison, and it is at most 0 exactly when the first name is lexicographically no greater |
| AssetItems.LocaleCompareTransitive | website/src/pages/api/assets/list.ts:130 | the name comparison is transitive |
| AssetsList.AssetDisk.constructor | website/src/pages/api/assets/list.ts:40-54 | the disk holds the given directories and files |
| AssetsList.AssetDisk.MakeDirectory | website/src/pages/api/assets/list.ts:42 | the new directory exists and is empty; no file changes |
| AssetsList.ItemsMembers | website/src/pages/api/assets/list.ts:57-109 | the items are exactly those of the entries whose names do not start with "." |
| AssetsList.CompareAntisymmetric | website/src/pages/api/assets/list.ts:112-135 | swapping two items negates the comparison |
| AssetsList.CompareTransitive | website/src/pages/api/assets/list.ts:112-135 | the comparison is transitive |
| AssetsList.ComparatorIsTotalPreorder | website/src/pages/api/assets/list.ts:112-135 | the comparator is a total preorder for every sort key and order, so the sort is well defined |
| AssetsList.SortedListing | website/src/pages/api/assets/list.ts:112-135 | the sorted listing is a permutation of the items, ordered by the comparator, with every folder before every file |
| AssetsList.UnknownKeySortsByName | website/src/pages/api/assets/list.ts:128-131 | any sort key other than "modified" and "size" sorts by name |
| AssetsList.DescReverses | website/src/pages/api/assets/list.ts:134 | "desc" reverses the order among items of one kind; any other order is ascending |
| AssetsList.FoldersHaveNoSize | website/src/pages/api/assets/list.ts:126 | folders compare equal by size |
| AssetsList.StripTrailingSlashes | website/src/pages/api/assets/list.ts:144 | trailing slashes are removed from the path, and nothing else |
| AssetsList.ParentPath | website/src/pages/api/assets/list.ts:141-152 | the root has no parent; a parent given starts with "/" and is never "/" itself |
| AssetsList.TopLevelHasNoParent | website/src/pages/api/assets/list.ts:142-152 | a folder directly under the root has no parent |
| AssetsList.ParentIsEnclosingFolder | website/src/pages/api/assets/list.ts:141-152 | the parent of "dir/name" is the current path of "dir" |
| AssetsList.ParamOr | website/src/pages/api/assets/list.ts:29-31 | a missing or empty query parameter takes its default |
| AssetsList.GetList | website/src/pages/api/assets/list.ts:21-166 | not from localhost is refused; a path outside the asset root is refused with 400; a missing directory is created and listed empty; a path that is a file is refused with 400; a directory is listed with its visible entries sorted by the requested key and order; no file changes |
| AssetsSearch.FoundSound | website/src/pages/api/assets/search.ts:28-92 | every result is a visible file whose name contains the query ignoring case and whose type passes the filter |
| AssetsSearch.FoundInSound | website/src/pages/api/assets/search.ts:31-90 | every result from one entry is such a file |
| AssetsSearch.FoundMembers | website/src/pages/api/assets/search.ts:28-92 | an item is found exactly when some entry of the directory yields it |
| AssetsSearch.FileFound | website/src/pages/api/assets/search.ts:40-89 | every visible file that matches is found |
| AssetsSearch.SubFolderFound | website/src/pages/api/assets/search.ts:37-39 | every item found in a visible sub-folder is found |
| AssetsSearch.HiddenNotEntered | website/src/pages/api/assets/search.ts:33 | nothing is found through a hidden entry: every result comes from another entry |
| AssetsSearch.Walk | website/src/pages/api/assets/search.ts:28-92 | the walk appends exactly the files found below the directory, in directory order |
| AssetsSearch.VisitEntry | website/src/pages/api/assets/search.ts:31-90 | visiting one entry appends exactly what it yields |
| AssetsSearch.FoundStep | website/src/pages/api/assets/search.ts:31 | the results of a longer prefix of entries are those of the shorter prefix followed by the next entry's |
| AssetsSearch.SearchFilesRecursive | website/src/pages/api/assets/search.ts:19-96 | the results are the files found from the root with the lower-cased query |
| AssetsSearch.Tier | website/src/pages/api/assets/search.ts:138-149 | exact matches rank first, then names starting with the query, then the rest |
| AssetsSearch.CompareByTier | website/src/pages/api/assets/search.ts:137-152 | one result precedes another exactly when its rank is better, or equal with a name that is no greater |
| AssetsSearch.RankingIsTotalPreorder | website/src/pages/api/assets/search.ts:137-152 | the ranking comparator is a total preorder |
| AssetsSearch.RankedResults | website/src/pages/api/assets/search.ts:137-152 | the ranked results are a permutation of the found ones, ordered by rank and then by name |
| AssetsSearch.PaddedQueryRanksByName | website/src/pages/api/assets/search.ts:129-152 | a query with leading white space matches on its trimmed form but is ranked untrimmed, so no name counts as a prefix match |
| AssetsSearch.Search | website/src/pages/api/assets/search.ts:98-168 | not from localhost is refused; a missing or blank query is refused with 400; a missing asset root gives no results; otherwise the ranked matches with their count |
| Contact.ResolveDomain | website/src/pages/api/contact.ts:128-129 | a missing domain defaults to "wernerstrauch"; a given one is kept |
| Contact.ConfigOf | website/src/pages/api/contact.ts:122-144 | the two other known domains get their own configuration; every other domain falls back to the wernerstrauch configuration |
| Contact.LabelOr | website/src/pages/api/contact.ts:157-197 | a key without a label is shown as itself; a key with a label shows the label; a non-empty key never shows as empty |
| Contact.FirstStepTablesUndeclared | website/src/pages/api/contact.ts:9-119 | no label table maps a key to an empty label |
| Contact.PushWhen | website/src/pages/api/contact.ts:174-224 | a section is appended exactly when its field is present and non-empty |
| Contact.PushChannel | website/src/pages/api/contact.ts:155-171 | the channel section is added exactly when a channel is given |
| Contact.BuildSections | website/src/pages/api/contact.ts:152-224 | the sections built are the form's sections, in the fixed order channel, goal, step 3, step 4, company, shop URL, message |
| Contact.AssembleCount | website/src/pages/api/contact.ts:152-224 | there are as many sections as candidates present |
| Contact.AssembleFirst | website/src/pages/api/contact.ts:155-171 | a present first candidate is the first section |
| Contact.AssembleLast | website/src/pages/api/contact.ts:219-224 | a present last candidate is the last section |
| Contact.PresentThen | website/src/pages/api/contact.ts:152-224 | a property of a present candidate and of the rest holds of both together |
| Contact.LaterAll | website/src/pages/api/contact.ts:174-224 | a property of the six later candidates holds of all their sections |
| Contact.AssembleLater | website/src/pages/api/contact.ts:174-224 | every section after the channel's comes from a later candidate |
| Contact.Reassociate | website/src/pages/api/contact.ts:152-224 | the sections can be grouped from the right |
| Contact.AssembleAll | website/src/pages/api/contact.ts:152-224 | a property of every candidate holds of every section |
| Contact.SectionCount | website/src/pages/api/contact.ts:152-224 | the form has one section per present, non-empty field among its seven optional fields |
| Contact.ChannelComesFirst | website/src/pages/api/contact.ts:155-171 | a given channel is always the first section |
| Contact.MessageComesLast | website/src/pages/api/contact.ts:219-224 | a given message is always the last section |
| Contact.OnlyChannelHighlighted | website/src/pages/api/contact.ts:166-170 | only the channel section is highlighted |
| Contact.OnlyShopUrlIsLink | website/src/pages/api/contact.ts:210-216 | only the shop URL section is a link |
| Contact.SectionsShown | website/src/pages/api/contact.ts:152-224 | every section has a title and a non-empty value |
| Contact.StepsShown | website/src/pages/api/contact.ts:155-199 | the four step sections are shown with non-empty values |
| Contact.ChannelShown | website/src/pages/api/contact.ts:155-171 | a channel section built from a non-empty key has a non-empty value |
| Contact.GoalShown | website/src/pages/api/contact.ts:174-179 | a goal section built from a non-empty key has a non-empty value |
| Contact.Step3Shown | website/src/pages/api/contact.ts:182-189 | a step 3 section built from a non-empty key has a non-empty value |
| Contact.Step4Shown | website/src/pages/api/contact.ts:192-199 | a step 4 section built from a non-empty key has a non-empty value |
| Contact.UnknownDomainShowsKeys | website/src/pages/api/contact.ts:144-199 | an unknown domain uses the wernerstrauch configuration but the shop-marketing titles, and shows the raw keys |
| Contact.WernerStrauchLabels | website/src/pages/api/contact.ts:155-199 | on wernerstrauch the channel is "Interesse an" with the interest label, and the other steps show their raw keys |
| Contact.KiAgenturLabels | website/src/pages/api/contact.ts:155-199 | on ki-agentur the steps are "KI-Bereich", "Hauptziel", "Teamgröße" and "Zeithorizont", each with its label |
| Contact.ShopMarketingLabels | website/src/pages/api/contact.ts:155-199 | on shop-marketing the steps are "Marketing-Kanal", "Hauptziel", "Monatliches Werbebudget" and "Shopsystem", each with its label |
| Contact.TopicIsChannelValue | website/src/pages/api/contact.ts:301 | the subject's topic is the value shown in the channel section, or "Kontakt" without a channel |
| Contact.Lines | website/src/pages/api/contact.ts:294 | one "title: value" line per section, in order |
| Contact.TextHasLine | website/src/pages/api/contact.ts:286-295 | the plain-text mail contains every section's line |
| Contact.TextKeepsOrder | website/src/pages/api/contact.ts:286-295 | consecutive sections appear as consecutive lines of the plain-text mail |
| Contact.FormTextKeepsOrder | website/src/pages/api/contact.ts:152-295 | the form's sections appear in the plain-text mail as consecutive lines, in order |
| Contact.MarkupOfSections | website/src/pages/api/contact.ts:227-242 | only the channel is rendered as a badge; only the shop URL is rendered as a link, whose target is the URL given |
| Contact.EmailFor | website/src/pages/api/contact.ts:244-305 | the mail renders every section |
| Contact.UnknownDomainMailsWernerStrauch | website/src/pages/api/contact.ts:297-300 | a mail from an unknown domain goes to and comes from the wernerstrauch address |
| Contact.ResponseFor | website/src/pages/api/contact.ts:307-331 | status 200 with success exactly when the mail went out; a rejection is a 500 with its message; a thrown error is a 500 "Internal server error" |
| Contact.Post | website/src/pages/api/contact.ts:124-332 | an unreadable body is a server error and sends nothing; otherwise exactly one mail, the one for the form's domain and sections, is sent and its outcome decides the response |
| Base64.Encode | carousel/src/utils/image-utils.ts:22 | standard base64 of n bytes has 4·⌈n/3⌉ characters |
| Base64.EncodeAlphabet | carousel/src/utils/image-utils.ts:22 | the encoding uses only the base64 alphabet, with "=" padding at the end only |
| Base64.DecodeEncode | carousel/src/utils/image-utils.ts:22 | decoding the encoding gives back exactly the bytes |
| Paths.PathJoinEnds | carousel/src/utils/image-utils.ts:44 | a joined path starts with the directory and ends with the name |
| Paths.BaseNameOfJoin | carousel/src/utils/image-utils.ts:44 | the last segment of a joined path is the name |
| Paths.ParentOfJoin | carousel/src/utils/image-utils.ts:30-44 | the parent of a joined path is the directory |
| FileSystems.FileSystem.ReadFile | carousel/src/generate-images.ts:79 | a file reads back as its bytes, and a missing file as nothing |
| FileSystems.FileSystem.WriteFile | carousel/src/utils/image-utils.ts:32 | the file holds exactly the data written, and nothing else changes |
| FileSystems.FileSystem.MakeDirectory | carousel/src/utils/image-utils.ts:31 | the directory exists afterwards, and no file changes |
| Seqs.SortCorrect | carousel/src/utils/pdf-bundler.ts:51 | sorting by a total preorder yields an ordered permutation of the input |
| Seqs.FilterMembers | carousel/src/utils/pdf-bundler.ts:50 | an element survives the filter exactly when it is in the input and passes the test |
| AiGenerator.PlanPaths | carousel/src/ai-generator.ts:133-145 | one path per planned slide, each the path its record is saved under |
| Strings.Lower | website/src/pages/api/assets/search.ts:26 | lower-casing keeps the length, maps each character and leaves no ASCII capital |
| Strings.NatToString | carousel/src/utils/image-utils.ts:76 | the decimal form of a number is one or more digits, with no leading zero, and a single digit exactly below 10 |
| Strings.DecimalRoundTrip | carousel/src/utils/image-utils.ts:76 | reading a number's decimal form back gives the number |
| Strings.PadStart | carousel/src/utils/image-utils.ts:76 | padding keeps the string as the suffix, fills the front with the pad character, and reaches the width |
| Strings.Trim | website/src/pages/api/assets/search.ts:108 | trimming never lengthens, and a trimmed string neither starts nor ends with white space |
| Strings.TrimNoop | website/src/pages/api/assets/search.ts:108 | a string without white space at either end is its own trim |
| Strings.Split | website/src/i18n/translations.ts:209 | splitting gives at least one part, and no part holds the separator |
| Strings.SplitJoin | website/src/i18n/translations.ts:209 | joining the parts with the separator gives back the string |
| Strings.LexLeTotal | website/src/pages/api/assets/list.ts:130 | any two names are ordered one way or the other |
| Strings.LexLeTransitive | website/src/pages/api/assets/list.ts:130 | the name order is transitive |
| Strings.LexLeAntisymmetric | website/src/pages/api/assets/list.ts:130 | names ordered both ways are equal |

## Left out

- AiGenerator.GenerateSlide, AiGenerator.GenerateSlides and AiGenerator.RegenerateSlide: a network failure inside `downloadImage`, where `fetch` itself rejects, is not modelled. The network is a function that always answers with a status and a body. A rejected image-service call is modelled (`FalRejected`).
- Input/output and services are modelled only by what they return: the file system, the network, the image service, pdf-lib, sharp, the e-mail provider, `yaml.load`, `import.meta.glob` and zod. Their internal behaviour is not modelled.
- The clock is not modelled: the current date is a parameter. Console logging and progress spinners are left out.
- `process.exit` is modelled as an outcome value, not as a process exit. The fal client's global configuration is modelled as the credentials the outcome carries.
- Creating missing parent directories is not tracked. The file system records files and the directories explicitly created.
- Floating-point arithmetic is not modelled. Prices are integer cents. The settings priority is a `real`, checked against [0, 1].
- `toLowerCase` covers only ASCII letters and Ä, Ö, Ü, ẞ. Other Unicode case mappings are not modelled.
- `localeCompare` is approximated by code-point lexicographic order. Locale collation is not modelled.
- Strings are sequences of Unicode code points, while JavaScript strings are UTF-16 code units. Outside the Basic Multilingual Plane the two differ:
  - The default `.sort()` of the PNG names (`PdfBundler.PngNamesSelection`) puts a character above U+FFFF before one in U+E000–U+FFFF, and the model puts it after.
  - `ImageUtils.SanitizeType` turns such a character into one `-`, where the source's regular expression gives two.
  - Lengths and `substring` positions count such a character once, where the source counts two.
- JavaScript `in` tests and bracket lookups are modelled as membership among the declared keys. The source would also match `Object.prototype` names such as `toString`. This affects:
  - `translations.ts:210`
  - `blog-categories.ts:87`
  - `authors.ts:46`
  - `schema.ts:399`
  - `slug-map.ts:54`
  - `contact.ts:144`
  - the `siteUrls[siteLang]` lookup in `astro.config.mjs`
  - `templates[name]` in `carousel/src/templates/index.ts:17`, so `getTemplate("toString")` returns a function instead of throwing, where `Templates.GetTemplate` returns the "Unknown template" error
- Translations.UseTranslations: only the navigation and footer keys of the translation tables are modelled. The other UI strings are data with no behaviour.
- The fixed schema.org data objects are not modelled: Person, WebSite, Organization, and the ProfessionalService object apart from its offer catalog (`Schema.OfferCatalog`). They are constants with no logic.
- The contact e-mail's HTML styling is not modelled beyond the section markup (`Contact.MarkupOfSections`). Form fields are strings. Non-string JSON values are not modelled.
- When the contact request body cannot be parsed, the source returns 500. The model leaves out that parse: a missing body stands for it and maps to that 500.
- These helpers come from a utils module that is not part of this model: `buildFolderTree`, `sanitizePath`, `getMimeType`, the image-dimension reading and `isLocalhostRequest`. The localhost test is a boolean parameter, and file categories are a function parameter.
- The 500 responses that list and search give on an unexpected file-system exception are not modelled.
- `path.join` is modelled as joining with one `/`. Normalisation of `..`, `.` and repeated slashes is not modelled. `dirname` and the file extension are modelled for ordinary names. Names made only of slashes and dot-files without an extension are not modelled.
- HookContentCta.GenerateSlideConfigs: the declared slide-count ranges (3..10, 4..12, 4..10) are not enforced by the source, so the plans are defined for every count. The shape lemmas hold for counts of at least 2, and `HookContentCta.PlanBelowTwo` shows what the loop does below that.
- I18n.HreflangEntries: every entry's language is the item's language, defaulting to German. The `x-default` entry is the URL of the first translation whose language is given explicitly as German, because the source compares the raw field.
- The configuration checks of the command-line front end (`cli.ts`) are not part of this model. Only the API-key checks of `fal-config.ts` and `generate-images.ts` are.
- Dirname: for a path that starts with exactly two slashes and has no other slash, such as "//a", the model gives "/" where Node's `path.posix.dirname` gives "//".
- The slide HTML and CSS of the templates is not modelled. `generateSlideHTML` is modelled as the template it dispatches to.

## Findings

| source | as written | input that shows it | evidently intended | confidence | as-written member | corrected member |
|---|---|---|---|---|---|---|
| carousel/src/ai-generator.ts:177-180 | the previous slide is loaded with `downloadImage` on a `file://` URL; Node's global `fetch` rejects `file:` URLs with "TypeError: fetch failed", so regenerating with a previous slide always fails before the image service is called | `regenerateSlide(options, 1, "/out/01-hook.png")` with that file on disk | read the previous slide's file from disk and send it as the edit reference | high for Node's `fetch`; not executed | AiGenerator.RegenerateFromPlanAsWritten | AiGenerator.RegenerateFromPlan |
