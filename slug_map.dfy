/** The build-time slug map: for every page id, its slug in German and in
    English, read from the YAML page files of the `de` and `en` directories
    and kept in a cache until the cache is cleared. */
module SlugMap {
  import opened Wrappers
  import opened Strings
  import opened Seqs
  import opened Translations

  datatype SlugMapping = SlugMapping(de: string, en: string)

  type Slugs = map<string, SlugMapping>

  /** A page file: its name in the language directory and its text. */
  datatype PageFile = PageFile(name: string, content: string)

  /** The fields of a page file the map reads. */
  datatype Frontmatter = Frontmatter(pageId: Option<string>, slug: Option<string>)

  /** `yaml.load`: the front matter of a text, or `None` when it does not
      parse. */
  type Parser = string -> Option<Frontmatter>

  /** The listing of the pages directory: the files of each language
      directory that exists, in listing order. */
  type PagesDir = map<Lang, seq<PageFile>>

  function Field(m: SlugMapping, l: Lang): string {
    match l
    case De => m.de
    case En => m.en
  }

  function WithField(m: SlugMapping, l: Lang, s: string): (r: SlugMapping)
    ensures Field(r, l) == s
    ensures forall other :: other != l ==> Field(r, other) == Field(m, other)
  {
    match l
    case De => m.(de := s)
    case En => m.(en := s)
  }

  predicate IsPageFile(f: PageFile) {
    EndsWith(f.name, ".yaml") || EndsWith(f.name, ".yml")
  }

  /** The page id a file contributes: a non-empty `pageId` of a file that
      parses. */
  function PageIdOf(f: PageFile, parse: Parser): Option<string> {
    match parse(f.content)
    case None => None
    case Some(fm) => if fm.pageId.Some? && fm.pageId.value != "" then fm.pageId else None
  }

  /** The slug a file contributes: its `slug`, or "" when it has none. */
  function SlugOf(f: PageFile, parse: Parser): string
    requires PageIdOf(f, parse).Some?
  {
    var fm := parse(f.content).value;
    if fm.slug.Some? then fm.slug.value else ""
  }

  /** One file of a language directory: a file without a page id (one that
      does not parse, has no `pageId` or an empty one) leaves the map as it
      is; otherwise the page's entry, created with two empty slugs if new,
      gets the file's slug for that language. */
  function StepFile(m: Slugs, lang: Lang, f: PageFile, parse: Parser): Slugs {
    match PageIdOf(f, parse)
    case None => m
    case Some(id) =>
      var entry := if id in m then m[id] else SlugMapping("", "");
      m[id := WithField(entry, lang, SlugOf(f, parse))]
  }

  /** The files of a language directory folded into the map, in order. */
  function FoldFiles(m: Slugs, lang: Lang, files: seq<PageFile>, parse: Parser): Slugs
    decreases |files|
  {
    if files == [] then m
    else StepFile(FoldFiles(m, lang, files[..|files| - 1], parse), lang, files[|files| - 1], parse)
  }

  /** The page files of a directory listing. */
  function YamlFiles(files: seq<PageFile>): seq<PageFile> {
    Filter(files, IsPageFile)
  }

  /** One language directory: skipped when it does not exist. */
  function ScanLang(m: Slugs, lang: Lang, pages: PagesDir, parse: Parser): Slugs {
    if lang in pages then FoldFiles(m, lang, YamlFiles(pages[lang]), parse) else m
  }

  /** The language directories folded in, in order. */
  function FoldLangs(langs: seq<Lang>, pages: PagesDir, parse: Parser): Slugs
    decreases |langs|
  {
    if langs == [] then map[]
    else ScanLang(FoldLangs(langs[..|langs| - 1], pages, parse), langs[|langs| - 1], pages, parse)
  }

  const PageLanguages: seq<Lang> := [De, En]

  /** The map a build produces. */
  function SlugMapOf(pages: PagesDir, parse: Parser): Slugs {
    FoldLangs(PageLanguages, pages, parse)
  }

  // ----------------------------------------------------------------- lemmas

  /** Whether one of the files contributes the page id `id`. */
  predicate Mentions(files: seq<PageFile>, parse: Parser, id: string) {
    exists i :: 0 <= i < |files| && PageIdOf(files[i], parse) == Some(id)
  }

  /** The slug of the last file that contributes `id`, if any. */
  function LastSlug(files: seq<PageFile>, parse: Parser, id: string): (r: Option<string>)
    ensures r.Some? <==> Mentions(files, parse, id)
    decreases |files|
  {
    if files == [] then None
    else
      var last := files[|files| - 1];
      var prefix := files[..|files| - 1];
      assert forall i :: 0 <= i < |prefix| ==> prefix[i] == files[i];
      if PageIdOf(last, parse) == Some(id) then Some(SlugOf(last, parse))
      else LastSlug(prefix, parse, id)
  }

  /** The effect of one language directory on an entry: the entry exists
      exactly when it existed or a file names the page; its slug in that
      language is the last such file's slug (a later file overwrites an
      earlier one), and its slug in the other language is kept, or "" for a
      new entry. */
  lemma {:induction false} FoldFilesEntry(m: Slugs, lang: Lang, files: seq<PageFile>, parse: Parser, id: string)
    ensures var r := FoldFiles(m, lang, files, parse);
      && (id in r <==> id in m || Mentions(files, parse, id))
      && (LastSlug(files, parse, id).Some? ==> Field(r[id], lang) == LastSlug(files, parse, id).value)
      && (LastSlug(files, parse, id).None? && id in m ==> r[id] == m[id])
      && (forall other :: other != lang && id in r ==>
            Field(r[id], other) == if id in m then Field(m[id], other) else "")
    decreases |files|
  {
    if files != [] {
      var prefix := files[..|files| - 1];
      var last := files[|files| - 1];
      FoldFilesEntry(m, lang, prefix, parse, id);
      assert forall i :: 0 <= i < |prefix| ==> prefix[i] == files[i];
      assert Mentions(files, parse, id) <==> Mentions(prefix, parse, id) || PageIdOf(last, parse) == Some(id);
    }
  }

  /** Files that are not page files are never read. */
  lemma YamlFilesOnly(files: seq<PageFile>)
    ensures forall f :: f in YamlFiles(files) ==> IsPageFile(f)
  {
    forall f | f in YamlFiles(files) ensures IsPageFile(f) {
      FilterMembers(files, IsPageFile, f);
    }
  }

  /** A file that does not parse leaves the map unchanged: the failure is
      not fatal and the remaining files are still read. */
  lemma UnparseableSkipped(m: Slugs, lang: Lang, files: seq<PageFile>, bad: PageFile, rest: seq<PageFile>, parse: Parser)
    requires parse(bad.content).None?
    ensures FoldFiles(m, lang, files + [bad] + rest, parse) == FoldFiles(m, lang, files + rest, parse)
  {
    FoldSkips(m, lang, files, bad, rest, parse);
  }

  lemma {:induction false} FoldSkips(m: Slugs, lang: Lang, files: seq<PageFile>, bad: PageFile, rest: seq<PageFile>, parse: Parser)
    requires PageIdOf(bad, parse).None?
    ensures FoldFiles(m, lang, files + [bad] + rest, parse) == FoldFiles(m, lang, files + rest, parse)
    decreases |rest|
  {
    if rest == [] {
      assert files + [bad] + rest == files + [bad];
      assert (files + [bad])[..|files|] == files;
      assert files + rest == files;
    } else {
      var a := files + [bad] + rest;
      var b := files + rest;
      var init := rest[..|rest| - 1];
      assert a[..|a| - 1] == files + [bad] + init;
      assert b[..|b| - 1] == files + init;
      FoldSkips(m, lang, files, bad, init, parse);
    }
  }

  /** The built map, entry by entry: a page id has an entry exactly when a
      German or English page file names it; each language's slug is that of
      the language's last file naming the page, and "" when no file of that
      language names it. */
  lemma SlugMapEntry(pages: PagesDir, parse: Parser, id: string)
    ensures var r := SlugMapOf(pages, parse);
      var de := if De in pages then YamlFiles(pages[De]) else [];
      var en := if En in pages then YamlFiles(pages[En]) else [];
      && (id in r <==> Mentions(de, parse, id) || Mentions(en, parse, id))
      && (id in r ==> Field(r[id], De) == LastSlug(de, parse, id).GetOr(""))
      && (id in r ==> Field(r[id], En) == LastSlug(en, parse, id).GetOr(""))
  {
    var de := if De in pages then YamlFiles(pages[De]) else [];
    var en := if En in pages then YamlFiles(pages[En]) else [];
    assert PageLanguages[..1] == [De] && [De][..0] == [];
    var afterDe := FoldLangs([De], pages, parse);
    assert afterDe == FoldFiles(map[], De, de, parse);
    assert SlugMapOf(pages, parse) == FoldFiles(afterDe, En, en, parse);
    FoldFilesEntry(map[], De, de, parse, id);
    FoldFilesEntry(afterDe, En, en, parse, id);
  }

  // ------------------------------------------------------------------ cache

  /** The module's cache of the built map. `builds` counts the builds that
      read the pages directory. */
  class SlugMapCache {
    var cached: Option<Slugs>
    ghost var builds: nat

    constructor ()
      ensures cached.None? && builds == 0
    {
      cached := None;
      builds := 0;
    }

    /** `buildSlugMap`: the cached map when there is one, without reading
        anything; otherwise the map of the directory as it is now, which is
        then cached. */
    method BuildSlugMap(pages: PagesDir, parse: Parser) returns (m: Slugs)
      modifies this
      ensures old(cached).Some? ==> m == old(cached).value && cached == old(cached) && builds == old(builds)
      ensures old(cached).None? ==> m == SlugMapOf(pages, parse) && cached == Some(m) && builds == old(builds) + 1
    {
      if cached.Some? {
        return cached.value;
      }
      m := map[];
      for li := 0 to |PageLanguages|
        invariant m == FoldLangs(PageLanguages[..li], pages, parse)
      {
        var lang := PageLanguages[li];
        assert PageLanguages[..li + 1][..li] == PageLanguages[..li];
        if lang !in pages {
          continue;
        }
        var files := YamlFiles(pages[lang]);
        ghost var before := m;
        for i := 0 to |files|
          invariant m == FoldFiles(before, lang, files[..i], parse)
        {
          assert files[..i + 1][..i] == files[..i];
          m := StepFile(m, lang, files[i], parse);
        }
        assert files[..|files|] == files;
      }
      assert PageLanguages[..|PageLanguages|] == PageLanguages;
      cached := Some(m);
      builds := builds + 1;
    }

    /** `getSlugForLanguage`: nothing for an unknown page id; otherwise the
        page's slug in that language, "" when it has none. */
    method GetSlugForLanguage(pageId: string, lang: Lang, pages: PagesDir, parse: Parser) returns (r: Option<string>)
      modifies this
      ensures var m := if old(cached).Some? then old(cached).value else SlugMapOf(pages, parse);
        && cached == Some(m)
        && (r.None? <==> pageId !in m)
        && (r.Some? ==> r.value == Field(m[pageId], lang))
    {
      var m := BuildSlugMap(pages, parse);
      r := if pageId in m then Some(Field(m[pageId], lang)) else None;
    }

    /** `clearSlugMapCache`. */
    method ClearSlugMapCache()
      modifies this
      ensures cached.None? && builds == old(builds)
    {
      cached := None;
    }
  }

  /** The cache at work: a second build returns the first map even when the
      directory has changed since; after clearing, the next build reads the
      changed directory. */
  method CacheUntilCleared(before: PagesDir, after: PagesDir, parse: Parser)
    returns (first: Slugs, second: Slugs, third: Slugs)
    ensures first == SlugMapOf(before, parse)
    ensures second == first
    ensures third == SlugMapOf(after, parse)
  {
    var cache := new SlugMapCache();
    first := cache.BuildSlugMap(before, parse);
    second := cache.BuildSlugMap(after, parse);
    cache.ClearSlugMapCache();
    third := cache.BuildSlugMap(after, parse);
  }
}
