/** The entries the asset manager's listing and search return, and the pieces
    of them both endpoints compute the same way: hidden names, the file
    extension, the relative path and the name order. */
module AssetItems {
  import opened Wrappers
  import opened Strings

  datatype ItemKind = Folder | File

  /** A `FileSystemItem`. `modified` is the modification time in
      milliseconds; `size`, `extension` and `thumbnailUrl` are present only
      where the endpoint sets them. */
  datatype FileSystemItem = FileSystemItem(
    name: string,
    kind: ItemKind,
    path: string,
    absolutePath: string,
    modified: int,
    size: Option<nat>,
    extension: Option<string>,
    thumbnailUrl: Option<string>)

  /** A directory entry as read from the disk: a sub-directory with its own
      entries, or a file with its size and modification time. */
  datatype Node =
    | DirNode(name: string, modified: int, children: seq<Node>)
    | FileNode(name: string, modified: int, size: nat)

  /** `getFileCategory`: the category of an extension ("image", ...). */
  type Categorize = string -> string

  /** Entries whose name starts with a dot are skipped. */
  predicate IsHidden(name: string) {
    StartsWith(name, ".")
  }

  /** `path.extname(name).slice(1).toLowerCase()`: the lower-cased text after
      the last dot, and "" when the only dot leads the name or there is
      none. */
  function Extension(name: string): (r: string)
    ensures |name| == 0 || '.' !in name[1..] ==> r == ""
  {
    if |name| == 0 || '.' !in name[1..] then "" else Lower(LastSegment(name, '.'))
  }

  /** A name with a base and a dot-free extension has that extension, in
      lower case. */
  lemma ExtensionOf(base: string, ext: string)
    requires base != [] && '.' !in ext
    ensures Extension(base + "." + ext) == Lower(ext)
  {
    var name := base + "." + ext;
    assert name[1..][|base| - 1] == '.';
    LastSegmentAfterSeparator(base, '.', ext);
  }

  /** The directory `name` inside the relative directory `dir` ("" at the
      root). */
  function SubDir(dir: string, name: string): (r: string)
    ensures dir == "" ==> r == name
    ensures dir != "" ==> r == dir + "/" + name
  {
    if dir == "" then name else dir + "/" + name
  }

  /** The path of an entry relative to the asset root, with a leading `/`. */
  function RelativePath(dir: string, name: string): (r: string)
    ensures r == "/" + SubDir(dir, name)
    ensures StartsWith(r, "/") && EndsWith(r, name)
  {
    var r := "/" + SubDir(dir, name);
    assert r[|r| - |name|..] == name;
    r
  }

  /** The path under which the site's sources refer to an asset. */
  function AbsolutePath(domain: string, relativePath: string): string {
    "/src/assets/" + domain + relativePath
  }

  /** The item an entry of the folder `dir` (relative, "" at the root)
      becomes: a folder with its path and time, or a file that also carries
      its size and extension, and a thumbnail (its own path) when it is an
      image. */
  function EntryItem(e: Node, dir: string, domain: string, category: Categorize): (r: FileSystemItem)
    ensures r.name == e.name && r.path == RelativePath(dir, e.name) && r.modified == e.modified
    ensures r.kind == Folder <==> e.DirNode?
    ensures r.size.Some? <==> e.FileNode?
    ensures r.absolutePath == AbsolutePath(domain, r.path)
    ensures e.DirNode? ==> r.extension.None? && r.thumbnailUrl.None?
    ensures e.FileNode? ==> r.extension == Some(Extension(e.name))
    ensures e.FileNode? ==> (r.thumbnailUrl.Some? <==> category(Extension(e.name)) == "image")
    ensures r.thumbnailUrl.Some? ==> r.thumbnailUrl.value == r.path
  {
    var rel := RelativePath(dir, e.name);
    match e
    case DirNode(name, modified, _) =>
      FileSystemItem(name, Folder, rel, AbsolutePath(domain, rel), modified, None, None, None)
    case FileNode(name, modified, size) =>
      var ext := Extension(name);
      var thumbnail := if category(ext) == "image" then Some(rel) else None;
      FileSystemItem(name, File, rel, AbsolutePath(domain, rel), modified, Some(size), Some(ext), thumbnail)
  }

  /** `a.localeCompare(b)`, taken as code-point order. */
  function LocaleCompare(a: string, b: string): (r: int)
    ensures r == 0 <==> a == b
    ensures -1 <= r <= 1
  {
    if a == b then 0 else if LexLe(a, b) then -1 else 1
  }

  /** The comparison is a total order: swapping the arguments negates it,
      and "not after" is code-point order. */
  lemma LocaleCompareOrder(a: string, b: string)
    ensures LocaleCompare(b, a) == -LocaleCompare(a, b)
    ensures LocaleCompare(a, b) <= 0 <==> LexLe(a, b)
  {
    LexLeTotal(a, b);
    if LexLe(a, b) && LexLe(b, a) {
      LexLeAntisymmetric(a, b);
    }
  }

  lemma LocaleCompareTransitive(a: string, b: string, c: string)
    requires LocaleCompare(a, b) <= 0 && LocaleCompare(b, c) <= 0
    ensures LocaleCompare(a, c) <= 0
  {
    LocaleCompareOrder(a, b);
    LocaleCompareOrder(b, c);
    LocaleCompareOrder(a, c);
    LexLeTransitive(a, b, c);
  }
}
