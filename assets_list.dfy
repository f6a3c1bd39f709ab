/** The asset manager's listing endpoint: the visible entries of one folder
    under the asset root, folders first and then sorted by name, modification
    time or size, with the path of the enclosing folder. */
module AssetsList {
  import opened Wrappers
  import opened Strings
  import opened Seqs
  import opened AssetItems

  /** The asset disk: each directory's entries by full path, and the paths
      that are plain files. */
  class AssetDisk {
    var dirs: map<string, seq<Node>>
    var files: set<string>

    constructor (dirs0: map<string, seq<Node>>, files0: set<string>)
      ensures dirs == dirs0 && files == files0
    {
      dirs := dirs0;
      files := files0;
    }

    /** `fs.existsSync(path)`. */
    predicate Exists(path: string)
      reads this
    {
      path in dirs || path in files
    }

    /** `fs.mkdirSync(path, { recursive: true })` on a path that does not
        exist: an empty directory is there afterwards (the parents it also
        creates are not tracked). */
    method MakeDirectory(path: string)
      modifies this
      ensures dirs == old(dirs)[path := []] && files == old(files)
    {
      dirs := dirs[path := []];
    }
  }

  // ------------------------------------------------------------------- items

  /** The items the loop pushes for a folder's entries, in listing order:
      every entry but the hidden ones. */
  function Items(entries: seq<Node>, dir: string, domain: string, category: Categorize): seq<FileSystemItem> {
    MapFilter(entries, (e: Node) => !IsHidden(e.name), (e: Node) => EntryItem(e, dir, domain, category))
  }

  /** The items are exactly the visible entries' items: no hidden name is
      listed, and every visible entry is. */
  lemma ItemsMembers(entries: seq<Node>, dir: string, domain: string, category: Categorize, x: FileSystemItem)
    ensures x in Items(entries, dir, domain, category) <==>
              exists i :: 0 <= i < |entries| && !IsHidden(entries[i].name) && x == EntryItem(entries[i], dir, domain, category)
    ensures x in Items(entries, dir, domain, category) ==> !IsHidden(x.name)
  {
    MapFilterMembers(entries, (e: Node) => !IsHidden(e.name), (e: Node) => EntryItem(e, dir, domain, category), x);
  }

  // ------------------------------------------------------------- the order

  /** The comparison by the chosen key: modification time, size (0 when
      there is none), or name for "name" and any other key. */
  function KeyCompare(sortBy: string, a: FileSystemItem, b: FileSystemItem): int {
    if sortBy == "modified" then a.modified - b.modified
    else if sortBy == "size" then a.size.GetOr(0) - b.size.GetOr(0)
    else LocaleCompare(a.name, b.name)
  }

  /** The comparator handed to `items.sort`: a folder comes before a file;
      otherwise the key comparison, negated for "desc". */
  function Compare(sortBy: string, order: string, a: FileSystemItem, b: FileSystemItem): int {
    if a.kind != b.kind then (if a.kind == Folder then -1 else 1)
    else
      var c := KeyCompare(sortBy, a, b);
      if order == "desc" then -c else c
  }

  /** "May come before" under the comparator. */
  function Le(sortBy: string, order: string): (FileSystemItem, FileSystemItem) -> bool {
    (a: FileSystemItem, b: FileSystemItem) => Compare(sortBy, order, a, b) <= 0
  }

  lemma CompareAntisymmetric(sortBy: string, order: string, a: FileSystemItem, b: FileSystemItem)
    ensures Compare(sortBy, order, b, a) == -Compare(sortBy, order, a, b)
  {
    LocaleCompareOrder(a.name, b.name);
  }

  lemma CompareTransitive(sortBy: string, order: string, a: FileSystemItem, b: FileSystemItem, c: FileSystemItem)
    requires Compare(sortBy, order, a, b) <= 0 && Compare(sortBy, order, b, c) <= 0
    ensures Compare(sortBy, order, a, c) <= 0
  {
    if a.kind == b.kind && b.kind == c.kind && sortBy != "modified" && sortBy != "size" {
      if order == "desc" {
        LocaleCompareOrder(a.name, b.name);
        LocaleCompareOrder(b.name, c.name);
        LocaleCompareOrder(a.name, c.name);
        LocaleCompareTransitive(c.name, b.name, a.name);
      } else {
        LocaleCompareTransitive(a.name, b.name, c.name);
      }
    }
  }

  /** The comparator is consistent for every key and order, so the sort is
      well defined. */
  lemma ComparatorIsTotalPreorder(sortBy: string, order: string)
    ensures TotalPreorder(Le(sortBy, order))
  {
    var le := Le(sortBy, order);
    forall a, b ensures le(a, b) || le(b, a) {
      CompareAntisymmetric(sortBy, order, a, b);
    }
    forall a, b, c | le(a, b) && le(b, c) ensures le(a, c) {
      CompareTransitive(sortBy, order, a, b, c);
    }
  }

  /** `items.sort(...)`. */
  function SortItems(items: seq<FileSystemItem>, sortBy: string, order: string): seq<FileSystemItem> {
    Sort(items, Le(sortBy, order))
  }

  /** The sorted listing holds the same items, in comparator order, and
      every folder comes before every file, whatever the key and order. */
  lemma SortedListing(items: seq<FileSystemItem>, sortBy: string, order: string)
    ensures var r := SortItems(items, sortBy, order);
      && multiset(r) == multiset(items)
      && SortedBy(r, Le(sortBy, order))
      && forall i, j :: 0 <= i < j < |r| && r[j].kind == Folder ==> r[i].kind == Folder
  {
    ComparatorIsTotalPreorder(sortBy, order);
    SortCorrect(items, Le(sortBy, order));
    var r := SortItems(items, sortBy, order);
    forall i, j | 0 <= i < j < |r| && r[j].kind == Folder ensures r[i].kind == Folder {
      assert Le(sortBy, order)(r[i], r[j]);
    }
  }

  /** A key other than "modified" and "size" sorts by name. */
  lemma UnknownKeySortsByName(sortBy: string, order: string, a: FileSystemItem, b: FileSystemItem)
    requires sortBy != "modified" && sortBy != "size"
    ensures Compare(sortBy, order, a, b) == Compare("name", order, a, b)
  {
  }

  /** "desc" reverses the order of two items of the same kind; any order
      other than "desc" is ascending. */
  lemma DescReverses(sortBy: string, order: string, a: FileSystemItem, b: FileSystemItem)
    requires a.kind == b.kind
    ensures Compare(sortBy, "desc", a, b) == Compare(sortBy, "asc", b, a)
    ensures order != "desc" ==> Compare(sortBy, order, a, b) == Compare(sortBy, "asc", a, b)
  {
    CompareAntisymmetric(sortBy, "asc", a, b);
  }

  /** Sorted by size, folders (which have no size) are all equal. */
  lemma FoldersHaveNoSize(order: string, a: FileSystemItem, b: FileSystemItem)
    requires a.kind == Folder && b.kind == Folder && a.size.None? && b.size.None?
    ensures Compare("size", order, a, b) == 0
  {
  }

  // -------------------------------------------------------------- the parent

  /** Trailing `/` removed, keeping the first character. */
  function StripTrailingSlashes(p: string): (r: string)
    ensures |r| <= |p| && r == p[..|r|]
    ensures |r| > 1 ==> r[|r| - 1] != '/'
    decreases |p|
  {
    if |p| > 1 && p[|p| - 1] == '/' then StripTrailingSlashes(p[..|p| - 1]) else p
  }

  /** `path.dirname(p)` for a non-empty path: everything before the last
      `/` once trailing ones are dropped, "." when there is none and "/"
      when only the leading one remains. */
  function Dirname(p: string): string {
    var parts := Split(StripTrailingSlashes(p), '/');
    if |parts| == 1 then "."
    else
      var head := Join(parts[..|parts| - 1], "/");
      if head == "" then "/" else head
  }

  /** The path shown for a folder. */
  function CurrentPath(requestedPath: string): string {
    "/" + requestedPath
  }

  /** The `parent` of a listing: none at the root, and none for a folder
      directly under it; otherwise the enclosing folder's path with
      back-slashes made forward. */
  function ParentPath(requestedPath: string): (r: Option<string>)
    ensures requestedPath == "" ==> r.None?
    ensures r.Some? ==> StartsWith(r.value, "/") && r.value != "/"
  {
    if requestedPath == "" then None
    else
      var d := ReplaceAllChar(Dirname(requestedPath), '\\', '/');
      var parent := "/" + (if d == "." then "" else d);
      if parent == "/" then None else Some(parent)
  }

  /** A folder directly under the root has no parent. */
  lemma TopLevelHasNoParent(name: string)
    requires name != "" && '/' !in name
    ensures ParentPath(name).None?
  {
    var q := StripTrailingSlashes(name);
    assert '/' !in q by {
      assert forall k :: 0 <= k < |q| ==> q[k] == name[k];
    }
    SplitNoSeparator(q, '/');
  }

  /** A nested folder's parent is the folder that holds it, with the path
      that folder's own listing shows. */
  lemma ParentIsEnclosingFolder(dir: string, name: string)
    requires dir != "" && dir != "." && '\\' !in dir
    requires name != "" && '/' !in name
    ensures ParentPath(dir + "/" + name) == Some(CurrentPath(dir))
  {
    var p := dir + "/" + name;
    assert p[|p| - 1] == name[|name| - 1];
    assert StripTrailingSlashes(p) == p;
    SplitConcat(dir, '/', name);
    SplitNoSeparator(name, '/');
    var parts := Split(p, '/');
    assert parts[..|parts| - 1] == Split(dir, '/');
    SplitJoin(dir, '/');
    assert ReplaceAllChar(dir, '\\', '/') == dir;
  }

  // ---------------------------------------------------------------- endpoint

  datatype ListResponse =
    | Forbidden
    | Failure(status: int, error: string)
    | Listing(currentPath: string, domain: string, parent: Option<string>, items: seq<FileSystemItem>)

  /** The sort key and order: "name" and "asc" when the parameter is absent
      or empty. */
  function ParamOr(param: Option<string>, default: string): (r: string)
    ensures param.Some? && param.value != "" ==> r == param.value
    ensures param.None? || param.value == "" ==> r == default
  {
    if param.Some? && param.value != "" then param.value else default
  }

  /** What a listing of an existing folder returns. */
  function ListingOf(entries: seq<Node>, requestedPath: string, sortBy: string, order: string, domain: string, category: Categorize): ListResponse {
    Listing(CurrentPath(requestedPath), domain, ParentPath(requestedPath),
            SortItems(Items(entries, requestedPath, domain, category), sortBy, order))
  }

  /** `GET /api/assets/list`. `fullPath` is the requested path joined to the
      asset root. A request from elsewhere than the local machine is
      refused; a path outside the root and a path that is a file give 400; a
      folder that does not exist is created and listed empty. */
  method GetList(disk: AssetDisk, localhost: bool, basePath: string, requestedPath: string, fullPath: string,
                 sortParam: Option<string>, orderParam: Option<string>, domain: string, category: Categorize)
    returns (resp: ListResponse)
    modifies disk
    ensures disk.files == old(disk.files)
    ensures !localhost ==> resp == Forbidden && disk.dirs == old(disk.dirs)
    ensures localhost && !StartsWith(fullPath, basePath) ==>
              resp == Failure(400, "Ungültiger Pfad") && disk.dirs == old(disk.dirs)
    ensures localhost && StartsWith(fullPath, basePath) && !old(disk.Exists(fullPath)) ==>
              disk.dirs == old(disk.dirs)[fullPath := []]
              && resp == Listing(CurrentPath(requestedPath), domain, ParentPath(requestedPath), [])
    ensures localhost && StartsWith(fullPath, basePath) && old(disk.Exists(fullPath)) ==>
              disk.dirs == old(disk.dirs)
              && (fullPath !in old(disk.dirs) ==> resp == Failure(400, "Pfad ist kein Verzeichnis"))
              && (fullPath in old(disk.dirs) ==>
                    resp == ListingOf(old(disk.dirs)[fullPath], requestedPath, ParamOr(sortParam, "name"),
                                      ParamOr(orderParam, "asc"), domain, category))
  {
    if !localhost {
      return Forbidden;
    }
    var sortBy := ParamOr(sortParam, "name");
    var order := ParamOr(orderParam, "asc");
    if !StartsWith(fullPath, basePath) {
      return Failure(400, "Ungültiger Pfad");
    }
    if !disk.Exists(fullPath) {
      disk.MakeDirectory(fullPath);
    }
    if fullPath !in disk.dirs {
      return Failure(400, "Pfad ist kein Verzeichnis");
    }
    var entries := disk.dirs[fullPath];
    var items: seq<FileSystemItem> := [];
    for i := 0 to |entries|
      invariant items == Items(entries[..i], requestedPath, domain, category)
    {
      assert entries[..i + 1][..i] == entries[..i];
      assert entries[..i + 1][i] == entries[i];
      if !IsHidden(entries[i].name) {
        items := items + [EntryItem(entries[i], requestedPath, domain, category)];
      }
    }
    assert entries[..|entries|] == entries;
    items := SortItems(items, sortBy, order);
    resp := Listing(CurrentPath(requestedPath), domain, ParentPath(requestedPath), items);
  }
}
