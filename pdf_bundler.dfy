/** Bundling slide images into one PDF: one page per image, in the order the
    paths are given, each page the size of its image; and picking the PNG
    files of a directory in name order. Decoding PNGs and serialising the
    document are the PDF library's, passed in as functions. */
module PdfBundler {
  import opened Wrappers
  import opened Strings
  import opened Paths
  import opened Base64
  import opened FileSystems
  import Seqs

  /** An embedded PNG: its pixel size. */
  datatype PngImage = PngImage(width: nat, height: nat)

  /** A page of the document and where its image is drawn. */
  datatype Page = Page(width: nat, height: nat, image: PngImage, x: int, y: int, drawWidth: nat, drawHeight: nat)

  /** The page `bundleToPDF` adds for an image. */
  function PageFor(img: PngImage): (p: Page)
    ensures p.image == img
    ensures p.width == p.drawWidth == img.width && p.height == p.drawHeight == img.height
    ensures p.x == 0 && p.y == 0
  {
    Page(img.width, img.height, img, 0, 0, img.width, img.height)
  }

  /** The error `fs.readFile` throws for a missing file. */
  function MissingFile(path: string): string {
    "ENOENT: no such file or directory, open '" + path + "'"
  }

  /** Reading one file and embedding it: the image, or the error thrown. */
  function EmbedFile(files: map<string, seq<byte>>, path: string,
                     embedPng: seq<byte> -> Result<PngImage, string>): Result<PngImage, string>
  {
    if path !in files then Err(MissingFile(path)) else embedPng(files[path])
  }

  /** The pages for a list of image paths: the first error met, or one page
      per path. */
  function Pages(files: map<string, seq<byte>>, paths: seq<string>,
                 embedPng: seq<byte> -> Result<PngImage, string>): Result<seq<Page>, string>
    decreases |paths|
  {
    if paths == [] then Ok([])
    else match Pages(files, paths[..|paths| - 1], embedPng)
      case Err(e) => Err(e)
      case Ok(pages) =>
        match EmbedFile(files, paths[|paths| - 1], embedPng)
        case Err(e) => Err(e)
        case Ok(img) => Ok(pages + [PageFor(img)])
  }

  /** The document is built exactly when every path can be read and
      embedded; then page `i` shows the image of path `i`. */
  lemma {:induction false} PagesOnePerPath(files: map<string, seq<byte>>, paths: seq<string>,
                                           embedPng: seq<byte> -> Result<PngImage, string>)
    ensures Pages(files, paths, embedPng).Ok? <==> forall i :: 0 <= i < |paths| ==> EmbedFile(files, paths[i], embedPng).Ok?
    ensures Pages(files, paths, embedPng).Ok? ==>
      var pages := Pages(files, paths, embedPng).value;
      && |pages| == |paths|
      && forall i :: 0 <= i < |paths| ==> pages[i] == PageFor(EmbedFile(files, paths[i], embedPng).value)
    decreases |paths|
  {
    if paths != [] {
      var init := paths[..|paths| - 1];
      PagesOnePerPath(files, init, embedPng);
      assert forall i :: 0 <= i < |init| ==> init[i] == paths[i];
    }
  }

  /** A failure is the failure of the first path that cannot be read or embedded. */
  lemma {:induction false} PagesFirstError(files: map<string, seq<byte>>, paths: seq<string>,
                                           embedPng: seq<byte> -> Result<PngImage, string>)
    requires Pages(files, paths, embedPng).Err?
    ensures exists k :: (0 <= k < |paths|
      && (forall i :: 0 <= i < k ==> EmbedFile(files, paths[i], embedPng).Ok?)
      && EmbedFile(files, paths[k], embedPng) == Err(Pages(files, paths, embedPng).error))
    decreases |paths|
  {
    var init := paths[..|paths| - 1];
    assert forall i :: 0 <= i < |init| ==> init[i] == paths[i];
    if Pages(files, init, embedPng).Err? {
      PagesFirstError(files, init, embedPng);
      var k :| 0 <= k < |init|
        && (forall i :: 0 <= i < k ==> EmbedFile(files, init[i], embedPng).Ok?)
        && EmbedFile(files, init[k], embedPng) == Err(Pages(files, init, embedPng).error);
      assert paths[k] == init[k];
    } else {
      PagesOnePerPath(files, init, embedPng);
      var k := |paths| - 1;
      assert forall i :: 0 <= i < k ==> EmbedFile(files, paths[i], embedPng).Ok?;
    }
  }

  /** The pages depend only on the files at the listed paths: writing
      another file leaves them as they were. */
  lemma {:induction false} PagesFrame(files: map<string, seq<byte>>, path: string, data: seq<byte>,
                                      paths: seq<string>, embedPng: seq<byte> -> Result<PngImage, string>)
    requires path !in paths
    ensures Pages(files[path := data], paths, embedPng) == Pages(files, paths, embedPng)
    decreases |paths|
  {
    if paths != [] {
      var init := paths[..|paths| - 1];
      assert forall q :: q in init ==> q in paths;
      PagesFrame(files, path, data, init, embedPng);
    }
  }

  /** What `bundleToPDF` leaves on disk and returns. */
  function BundleOutcome(files: map<string, seq<byte>>, imagePaths: seq<string>, outputPath: string,
                         embedPng: seq<byte> -> Result<PngImage, string>,
                         save: seq<Page> -> seq<byte>): Result<string, string>
  {
    match Pages(files, imagePaths, embedPng)
    case Err(e) => Err(e)
    case Ok(_) => Ok(outputPath)
  }

  /** `bundleToPDF(imagePaths, outputPath)`: a page per image in order; the
      saved document is written to `outputPath`, whose directory is created
      first, and the path is returned. On a read or embed error nothing is
      written. */
  method BundleToPdf(fs: FileSystem, imagePaths: seq<string>, outputPath: string,
                     embedPng: seq<byte> -> Result<PngImage, string>,
                     save: seq<Page> -> seq<byte>)
    returns (r: Result<string, string>)
    modifies fs
    ensures r == BundleOutcome(old(fs.files), imagePaths, outputPath, embedPng, save)
    ensures r.Err? ==> fs.files == old(fs.files) && fs.dirs == old(fs.dirs)
    ensures r.Ok? ==>
      && fs.files == old(fs.files)[outputPath := save(Pages(old(fs.files), imagePaths, embedPng).value)]
      && fs.dirs == old(fs.dirs) + {Parent(outputPath)}
  {
    var pages: seq<Page> := [];
    var i := 0;
    while i < |imagePaths|
      invariant 0 <= i <= |imagePaths|
      invariant Pages(fs.files, imagePaths[..i], embedPng) == Ok(pages)
    {
      assert imagePaths[..i + 1][..i] == imagePaths[..i];
      var imageBytes := fs.ReadFile(imagePaths[i]);
      if imageBytes.None? {
        PagesPrefixError(fs.files, imagePaths, i + 1, embedPng);
        return Err(MissingFile(imagePaths[i]));
      }
      var image := embedPng(imageBytes.value);
      if image.Err? {
        PagesPrefixError(fs.files, imagePaths, i + 1, embedPng);
        return Err(image.error);
      }
      pages := pages + [PageFor(image.value)];
      i := i + 1;
    }
    assert imagePaths[..i] == imagePaths;
    var pdfBytes := save(pages);
    fs.MakeDirectory(Parent(outputPath));
    fs.WriteFile(outputPath, pdfBytes);
    r := Ok(outputPath);
  }

  /** An error among the first `n` paths is the error of the whole list. */
  lemma {:induction false} PagesPrefixError(files: map<string, seq<byte>>, paths: seq<string>, n: nat,
                                            embedPng: seq<byte> -> Result<PngImage, string>)
    requires n <= |paths| && Pages(files, paths[..n], embedPng).Err?
    ensures Pages(files, paths, embedPng) == Pages(files, paths[..n], embedPng)
    decreases |paths| - n
  {
    if n < |paths| {
      assert paths[..n + 1][..n] == paths[..n];
      PagesPrefixError(files, paths, n + 1, embedPng);
    } else {
      assert paths[..n] == paths;
    }
  }

  // ------------------------------------------------------------------ directory

  /** The name `bundleDirectoryToPDF` writes to when none is given. */
  const DefaultOutputFilename: string := "carousel.pdf"

  predicate IsPng(name: string) { EndsWith(name, ".png") }

  /** The directory's PNG names in sort order. */
  function PngNames(entries: seq<string>): seq<string> {
    Seqs.Sort(Seqs.Filter(entries, IsPng), LexLe)
  }

  /** The paths `bundleDirectoryToPDF` bundles: the PNG names, sorted,
      joined to the directory. */
  function PngPaths(inputDir: string, entries: seq<string>): (r: seq<string>)
    ensures |r| == |PngNames(entries)|
    ensures forall i :: 0 <= i < |r| ==> r[i] == PathJoin(inputDir, PngNames(entries)[i])
  {
    var names := PngNames(entries);
    seq(|names|, i requires 0 <= i < |names| => PathJoin(inputDir, names[i]))
  }

  /** Code-point order is a total preorder, so the sort applies. */
  lemma LexLeTotalPreorder()
    ensures Seqs.TotalPreorder(LexLe)
  {
    forall a, b ensures LexLe(a, b) || LexLe(b, a) {
      LexLeTotal(a, b);
    }
    forall a, b, c | LexLe(a, b) && LexLe(b, c) ensures LexLe(a, c) {
      LexLeTransitive(a, b, c);
    }
  }

  /** The selected names are exactly the directory's PNG entries, each as
      often as it is listed, in ascending name order. */
  lemma PngNamesSelection(entries: seq<string>)
    ensures Seqs.SortedBy(PngNames(entries), LexLe)
    ensures multiset(PngNames(entries)) == multiset(Seqs.Filter(entries, IsPng))
    ensures forall n :: n in PngNames(entries) <==> n in entries && IsPng(n)
  {
    LexLeTotalPreorder();
    Seqs.SortCorrect(Seqs.Filter(entries, IsPng), LexLe);
    forall n ensures n in PngNames(entries) <==> n in entries && IsPng(n) {
      Seqs.FilterMembers(entries, IsPng, n);
      assert n in PngNames(entries) <==> n in multiset(PngNames(entries));
    }
  }

  /** What `bundleDirectoryToPDF` returns. */
  function DirectoryOutcome(files: map<string, seq<byte>>, inputDir: string, entries: seq<string>,
                            outputFilename: string,
                            embedPng: seq<byte> -> Result<PngImage, string>,
                            save: seq<Page> -> seq<byte>): Result<string, string>
  {
    if PngPaths(inputDir, entries) == [] then Err("No PNG files found in " + inputDir)
    else BundleOutcome(files, PngPaths(inputDir, entries), PathJoin(inputDir, outputFilename), embedPng, save)
  }

  /** `bundleDirectoryToPDF(inputDir, outputFilename)`; `entries` is what
      `fs.readdir(inputDir)` lists. With no PNG among them nothing is
      written and the error names the directory. */
  method BundleDirectoryToPdf(fs: FileSystem, inputDir: string, entries: seq<string>, outputFilename: string,
                              embedPng: seq<byte> -> Result<PngImage, string>,
                              save: seq<Page> -> seq<byte>)
    returns (r: Result<string, string>)
    modifies fs
    ensures r == DirectoryOutcome(old(fs.files), inputDir, entries, outputFilename, embedPng, save)
    ensures r.Err? ==> fs.files == old(fs.files) && fs.dirs == old(fs.dirs)
    ensures r.Ok? ==> r.value == PathJoin(inputDir, outputFilename)
    ensures r.Ok? ==>
      && fs.files == old(fs.files)[PathJoin(inputDir, outputFilename) :=
           save(Pages(old(fs.files), PngPaths(inputDir, entries), embedPng).value)]
      && fs.dirs == old(fs.dirs) + {Parent(PathJoin(inputDir, outputFilename))}
  {
    var pngFiles := PngPaths(inputDir, entries);
    if |pngFiles| == 0 {
      return Err("No PNG files found in " + inputDir);
    }
    var outputPath := PathJoin(inputDir, outputFilename);
    r := BundleToPdf(fs, pngFiles, outputPath, embedPng, save);
  }

  /** The error when nothing qualifies. */
  lemma NoPngError(files: map<string, seq<byte>>, inputDir: string, entries: seq<string>, outputFilename: string,
                   embedPng: seq<byte> -> Result<PngImage, string>, save: seq<Page> -> seq<byte>)
    requires forall i :: 0 <= i < |entries| ==> !IsPng(entries[i])
    ensures DirectoryOutcome(files, inputDir, entries, outputFilename, embedPng, save)
      == Err("No PNG files found in " + inputDir)
  {
    var png := Seqs.Filter(entries, IsPng);
    if png != [] {
      Seqs.FilterMembers(entries, IsPng, png[0]);
    }
  }
}
