/** The asset manager's search endpoint: every file under the asset root
    whose name contains the query, ignoring case, optionally of one
    category, ranked exact matches first, then names starting with the
    query, then by name. */
module AssetsSearch {
  import opened Wrappers
  import opened Strings
  import opened Seqs
  import opened AssetItems

  /** The `type` filter applies unless it is absent, empty or "all". */
  predicate TypeAccepted(typeFilter: Option<string>, category: string) {
    typeFilter.None? || typeFilter.value == "" || typeFilter.value == "all" || category == typeFilter.value
  }

  /** Whether a file is a hit: its lower-cased name contains the lower-cased
      query and its category passes the filter. */
  predicate IsHit(name: string, queryLower: string, typeFilter: Option<string>, category: Categorize) {
    Contains(Lower(name), queryLower) && TypeAccepted(typeFilter, category(Extension(name)))
  }

  /** The hits below a folder's entries, in the order `walk` pushes them:
      entry by entry, a sub-folder's hits where the sub-folder is listed. */
  function Found(entries: seq<Node>, dir: string, queryLower: string, typeFilter: Option<string>,
                 domain: string, category: Categorize): seq<FileSystemItem>
    decreases entries
  {
    if entries == [] then []
    else
      Found(entries[..|entries| - 1], dir, queryLower, typeFilter, domain, category)
      + FoundIn(entries[|entries| - 1], dir, queryLower, typeFilter, domain, category)
  }

  /** The hits one entry contributes: none for a hidden name (a hidden
      folder is not entered), a sub-folder's own hits, or the file itself
      when it is a hit. */
  function FoundIn(e: Node, dir: string, queryLower: string, typeFilter: Option<string>,
                   domain: string, category: Categorize): seq<FileSystemItem>
    decreases e
  {
    if IsHidden(e.name) then []
    else
      match e
      case DirNode(name, _, children) => Found(children, SubDir(dir, name), queryLower, typeFilter, domain, category)
      case FileNode(name, _, _) =>
        if IsHit(name, queryLower, typeFilter, category) then [EntryItem(e, dir, domain, category)] else []
  }

  /** Only hits are found: visible files whose name contains the query and
      whose category passes the filter. */
  predicate Sound(r: seq<FileSystemItem>, queryLower: string, typeFilter: Option<string>, category: Categorize) {
    forall i :: 0 <= i < |r| ==>
      && r[i].kind == File && !IsHidden(r[i].name)
      && IsHit(r[i].name, queryLower, typeFilter, category)
      && r[i].extension == Some(Extension(r[i].name))
  }

  lemma {:induction false} FoundSound(entries: seq<Node>, dir: string, queryLower: string, typeFilter: Option<string>,
                                      domain: string, category: Categorize)
    ensures Sound(Found(entries, dir, queryLower, typeFilter, domain, category), queryLower, typeFilter, category)
    decreases entries
  {
    if entries != [] {
      var a := Found(entries[..|entries| - 1], dir, queryLower, typeFilter, domain, category);
      var b := FoundIn(entries[|entries| - 1], dir, queryLower, typeFilter, domain, category);
      FoundSound(entries[..|entries| - 1], dir, queryLower, typeFilter, domain, category);
      FoundInSound(entries[|entries| - 1], dir, queryLower, typeFilter, domain, category);
      assert forall i :: 0 <= i < |a + b| ==> (a + b)[i] == if i < |a| then a[i] else b[i - |a|];
    }
  }

  lemma {:induction false} FoundInSound(e: Node, dir: string, queryLower: string, typeFilter: Option<string>,
                                        domain: string, category: Categorize)
    ensures Sound(FoundIn(e, dir, queryLower, typeFilter, domain, category), queryLower, typeFilter, category)
    decreases e
  {
    if !IsHidden(e.name) {
      match e
      case DirNode(name, _, children) =>
        FoundSound(children, SubDir(dir, name), queryLower, typeFilter, domain, category);
      case FileNode(_, _, _) =>
    }
  }

  /** `x` is among the hits of entry `i`. */
  predicate HitOf(entries: seq<Node>, i: int, dir: string, queryLower: string, typeFilter: Option<string>,
                  domain: string, category: Categorize, x: FileSystemItem) {
    0 <= i < |entries| && x in FoundIn(entries[i], dir, queryLower, typeFilter, domain, category)
  }

  /** A hit below a folder is a hit of one of its entries, and every hit of
      every entry is found. */
  lemma {:induction false} FoundMembers(entries: seq<Node>, dir: string, queryLower: string, typeFilter: Option<string>,
                                        domain: string, category: Categorize, x: FileSystemItem)
    ensures x in Found(entries, dir, queryLower, typeFilter, domain, category) <==>
              exists i :: HitOf(entries, i, dir, queryLower, typeFilter, domain, category, x)
    decreases |entries|
  {
    if entries != [] {
      var n := |entries| - 1;
      var prefix := entries[..n];
      FoundMembers(prefix, dir, queryLower, typeFilter, domain, category, x);
      forall i ensures HitOf(prefix, i, dir, queryLower, typeFilter, domain, category, x) <==>
                         i < n && HitOf(entries, i, dir, queryLower, typeFilter, domain, category, x) {
        if 0 <= i < n {
          assert prefix[i] == entries[i];
        }
      }
      var last := FoundIn(entries[n], dir, queryLower, typeFilter, domain, category);
      assert Found(entries, dir, queryLower, typeFilter, domain, category)
          == Found(prefix, dir, queryLower, typeFilter, domain, category) + last;
      if x in last {
        assert HitOf(entries, n, dir, queryLower, typeFilter, domain, category, x);
      }
      if exists i :: HitOf(entries, i, dir, queryLower, typeFilter, domain, category, x) {
        var i :| HitOf(entries, i, dir, queryLower, typeFilter, domain, category, x);
        if i < n {
          assert HitOf(prefix, i, dir, queryLower, typeFilter, domain, category, x);
        } else {
          assert x in last;
        }
      }
    }
  }

  /** Every visible file that is a hit is found, wherever it sits below
      visible folders: directly in the folder ... */
  lemma FileFound(entries: seq<Node>, i: nat, dir: string, queryLower: string, typeFilter: Option<string>,
                  domain: string, category: Categorize)
    requires i < |entries| && entries[i].FileNode? && !IsHidden(entries[i].name)
    requires IsHit(entries[i].name, queryLower, typeFilter, category)
    ensures EntryItem(entries[i], dir, domain, category) in Found(entries, dir, queryLower, typeFilter, domain, category)
  {
    var x := EntryItem(entries[i], dir, domain, category);
    assert HitOf(entries, i, dir, queryLower, typeFilter, domain, category, x);
    FoundMembers(entries, dir, queryLower, typeFilter, domain, category, x);
  }

  /** ... or inside a visible sub-folder, whose hits are all found. */
  lemma SubFolderFound(entries: seq<Node>, i: nat, dir: string, queryLower: string, typeFilter: Option<string>,
                       domain: string, category: Categorize, x: FileSystemItem)
    requires i < |entries| && entries[i].DirNode? && !IsHidden(entries[i].name)
    requires x in Found(entries[i].children, SubDir(dir, entries[i].name), queryLower, typeFilter, domain, category)
    ensures x in Found(entries, dir, queryLower, typeFilter, domain, category)
  {
    assert HitOf(entries, i, dir, queryLower, typeFilter, domain, category, x);
    FoundMembers(entries, dir, queryLower, typeFilter, domain, category, x);
  }

  /** Nothing below a hidden entry is found. */
  lemma HiddenNotEntered(entries: seq<Node>, i: nat, dir: string, queryLower: string, typeFilter: Option<string>,
                         domain: string, category: Categorize, x: FileSystemItem)
    requires i < |entries| && IsHidden(entries[i].name)
    requires x in Found(entries, dir, queryLower, typeFilter, domain, category)
    ensures exists j :: j != i && HitOf(entries, j, dir, queryLower, typeFilter, domain, category, x)
  {
    FoundMembers(entries, dir, queryLower, typeFilter, domain, category, x);
    var j :| HitOf(entries, j, dir, queryLower, typeFilter, domain, category, x);
    assert j != i;
  }

  /** `walk(currentDir)`: pushes the hits below `entries` onto `results`. */
  method Walk(entries: seq<Node>, dir: string, queryLower: string, typeFilter: Option<string>,
              domain: string, category: Categorize, results: seq<FileSystemItem>)
    returns (out: seq<FileSystemItem>)
    ensures out == results + Found(entries, dir, queryLower, typeFilter, domain, category)
    decreases entries
  {
    out := results;
    for i := 0 to |entries|
      invariant out == results + Found(entries[..i], dir, queryLower, typeFilter, domain, category)
    {
      FoundStep(entries, i, dir, queryLower, typeFilter, domain, category);
      out := VisitEntry(entries[i], dir, queryLower, typeFilter, domain, category, out);
    }
    assert entries[..|entries|] == entries;
  }

  /** The body of `walk`'s loop for one entry: a hidden name is skipped, a
      folder is walked, and a file is pushed when its name contains the
      query and its category passes the filter. */
  method VisitEntry(entry: Node, dir: string, queryLower: string, typeFilter: Option<string>,
                    domain: string, category: Categorize, results: seq<FileSystemItem>)
    returns (out: seq<FileSystemItem>)
    ensures out == results + FoundIn(entry, dir, queryLower, typeFilter, domain, category)
    decreases entry
  {
    out := results;
    if IsHidden(entry.name) {
      return;
    }
    match entry
    case DirNode(name, _, children) =>
      out := Walk(children, SubDir(dir, name), queryLower, typeFilter, domain, category, out);
    case FileNode(name, _, _) =>
      if !Contains(Lower(name), queryLower) {
        return;
      }
      var extension := Extension(name);
      if typeFilter.Some? && typeFilter.value != "" && typeFilter.value != "all" && category(extension) != typeFilter.value {
        return;
      }
      out := out + [EntryItem(entry, dir, domain, category)];
  }

  /** One more entry of the loop: its hits follow those of the entries
      before it. */
  lemma FoundStep(entries: seq<Node>, i: nat, dir: string, queryLower: string, typeFilter: Option<string>,
                  domain: string, category: Categorize)
    requires i < |entries|
    ensures Found(entries[..i + 1], dir, queryLower, typeFilter, domain, category)
            == Found(entries[..i], dir, queryLower, typeFilter, domain, category)
               + FoundIn(entries[i], dir, queryLower, typeFilter, domain, category)
  {
    assert entries[..i + 1][..i] == entries[..i];
    assert entries[..i + 1][i] == entries[i];
  }

  /** `searchFilesRecursive(basePath, basePath, query, typeFilter)`. */
  method SearchFilesRecursive(root: seq<Node>, query: string, typeFilter: Option<string>,
                              domain: string, category: Categorize)
    returns (results: seq<FileSystemItem>)
    ensures results == Found(root, "", Lower(query), typeFilter, domain, category)
  {
    results := Walk(root, "", Lower(query), typeFilter, domain, category, []);
  }

  // ---------------------------------------------------------------- ranking

  /** The relevance comparator, against the lower-cased query as sent: an
      exact name first, then a name starting with the query, otherwise by
      name. */
  function Compare(queryLower: string, a: FileSystemItem, b: FileSystemItem): int {
    var aExact := Lower(a.name) == queryLower;
    var bExact := Lower(b.name) == queryLower;
    if aExact && !bExact then -1
    else if !aExact && bExact then 1
    else
      var aStarts := StartsWith(Lower(a.name), queryLower);
      var bStarts := StartsWith(Lower(b.name), queryLower);
      if aStarts && !bStarts then -1
      else if !aStarts && bStarts then 1
      else LocaleCompare(a.name, b.name)
  }

  /** The tier of a name: 0 for an exact match, 1 for one that starts with
      the query, 2 otherwise. */
  function Tier(queryLower: string, name: string): (t: nat)
    ensures t == 0 <==> Lower(name) == queryLower
    ensures t <= 1 <==> StartsWith(Lower(name), queryLower)
    ensures t <= 2
  {
    if Lower(name) == queryLower then 0 else if StartsWith(Lower(name), queryLower) then 1 else 2
  }

  /** The comparator orders by tier, and within a tier by name. */
  lemma CompareByTier(queryLower: string, a: FileSystemItem, b: FileSystemItem)
    ensures Compare(queryLower, a, b) <= 0 <==>
              Tier(queryLower, a.name) < Tier(queryLower, b.name)
              || (Tier(queryLower, a.name) == Tier(queryLower, b.name) && LexLe(a.name, b.name))
  {
    LocaleCompareOrder(a.name, b.name);
  }

  function Le(queryLower: string): (FileSystemItem, FileSystemItem) -> bool {
    (a: FileSystemItem, b: FileSystemItem) => Compare(queryLower, a, b) <= 0
  }

  lemma RankingIsTotalPreorder(queryLower: string)
    ensures TotalPreorder(Le(queryLower))
  {
    var le := Le(queryLower);
    forall a, b ensures le(a, b) || le(b, a) {
      CompareByTier(queryLower, a, b);
      CompareByTier(queryLower, b, a);
      LexLeTotal(a.name, b.name);
    }
    forall a, b, c | le(a, b) && le(b, c) ensures le(a, c) {
      CompareByTier(queryLower, a, b);
      CompareByTier(queryLower, b, c);
      CompareByTier(queryLower, a, c);
      if Tier(queryLower, a.name) == Tier(queryLower, b.name) == Tier(queryLower, c.name) {
        LexLeTransitive(a.name, b.name, c.name);
      }
    }
  }

  /** `results.sort(...)`. */
  function Rank(results: seq<FileSystemItem>, queryLower: string): seq<FileSystemItem> {
    Sort(results, Le(queryLower))
  }

  /** The ranked results are the found ones, tiers never decrease along the
      list, and within a tier names are in order. */
  lemma RankedResults(results: seq<FileSystemItem>, queryLower: string)
    ensures var r := Rank(results, queryLower);
      && multiset(r) == multiset(results)
      && forall i, j :: 0 <= i < j < |r| ==>
           Tier(queryLower, r[i].name) < Tier(queryLower, r[j].name)
           || (Tier(queryLower, r[i].name) == Tier(queryLower, r[j].name) && LexLe(r[i].name, r[j].name))
  {
    RankingIsTotalPreorder(queryLower);
    SortCorrect(results, Le(queryLower));
    var r := Rank(results, queryLower);
    forall i, j | 0 <= i < j < |r|
      ensures Tier(queryLower, r[i].name) < Tier(queryLower, r[j].name)
              || (Tier(queryLower, r[i].name) == Tier(queryLower, r[j].name) && LexLe(r[i].name, r[j].name))
    {
      assert Le(queryLower)(r[i], r[j]);
      CompareByTier(queryLower, r[i], r[j]);
    }
  }

  /** Ranking uses the query as sent while filtering uses it trimmed: with a
      leading space, no name that starts with a visible character ranks as
      exact or prefix match, so the hits come in plain name order. */
  lemma PaddedQueryRanksByName(query: string, name: string)
    requires query != [] && IsWhitespace(query[0])
    requires name != [] && !IsWhitespace(LowerChar(name[0]))
    ensures Tier(Lower(query), name) == 2
  {
    assert Lower(name)[0] != Lower(query)[0];
  }

  // ---------------------------------------------------------------- endpoint

  datatype SearchResponse =
    | Forbidden
    | Failure(status: int, error: string)
    | Results(query: string, results: seq<FileSystemItem>, total: nat)

  /** What a search of an existing asset root returns. */
  function ResultsOf(root: seq<Node>, query: string, typeFilter: Option<string>, domain: string, category: Categorize): SearchResponse {
    var found := Found(root, "", Lower(Trim(query)), typeFilter, domain, category);
    var ranked := Rank(found, Lower(query));
    Results(query, ranked, |ranked|)
  }

  /** `GET /api/assets/search`. `root` is the asset root's entries, absent
      when it does not exist. A request from elsewhere than the local
      machine is refused; a missing, empty or blank query gives 400; a
      missing root gives no results. */
  method Search(localhost: bool, query: Option<string>, typeFilter: Option<string>, root: Option<seq<Node>>,
                domain: string, category: Categorize)
    returns (resp: SearchResponse)
    ensures !localhost ==> resp == Forbidden
    ensures localhost && (query.None? || Trim(query.value) == "") ==> resp == Failure(400, "Suchbegriff erforderlich")
    ensures localhost && query.Some? && Trim(query.value) != "" && root.None? ==> resp == Results(query.value, [], 0)
    ensures localhost && query.Some? && Trim(query.value) != "" && root.Some? ==>
              resp == ResultsOf(root.value, query.value, typeFilter, domain, category)
    ensures resp.Results? ==> resp.total == |resp.results|
  {
    if !localhost {
      return Forbidden;
    }
    if query.None? || query.value == "" || |Trim(query.value)| == 0 {
      return Failure(400, "Suchbegriff erforderlich");
    }
    var q := query.value;
    if root.None? {
      return Results(q, [], 0);
    }
    var results := SearchFilesRecursive(root.value, Trim(q), typeFilter, domain, category);
    results := Rank(results, Lower(q));
    resp := Results(q, results, |results|);
  }
}
