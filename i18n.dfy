/** The website's language-aware URLs: the path of a page or a blog post in
    its language, the full URL on the language's own domain, the hreflang
    alternates of a page, the language switcher's fallback and the language
    of a path. German lives at the root of wernerstrauch.de; English under
    `/en`, or at the root of wernerstrauch.com for full URLs. */
module I18n {
  import opened Wrappers
  import opened Strings
  import opened Seqs
  import opened Translations

  datatype LanguageConfig = LanguageConfig(
    urlPrefix: string, name: string, nativeName: string, code: string, siteUrl: string)

  /** `LANGUAGES`. */
  function Config(l: Lang): LanguageConfig {
    match l
    case De => LanguageConfig("", "German", "Deutsch", "DE", "https://wernerstrauch.de")
    case En => LanguageConfig("/en", "English", "English", "EN", "https://wernerstrauch.com")
  }

  /** The fields of a page entry the URL functions read. `lang` is absent
      when the entry has none. */
  datatype PageEntry = PageEntry(pageId: string, lang: Option<Lang>, slug: Option<string>)

  /** The fields of a blog entry the URL functions read; `id` is its file
      name within the collection. */
  datatype BlogEntry = BlogEntry(id: string, postId: string, lang: Option<Lang>, slug: Option<string>)

  /** `lang || DEFAULT_LANGUAGE`. */
  function LangOf(lang: Option<Lang>): Lang {
    lang.GetOr(De)
  }

  /** No slug, an empty slug, or "index": the language's home page. */
  predicate IsHomeSlug(slug: Option<string>) {
    !Truthy(slug) || slug.value == "index"
  }

  /** `prefix || "/"`. */
  function HomePath(l: Lang): (r: string)
    ensures r == if l == De then "/" else "/en"
  {
    if Config(l).urlPrefix != "" then Config(l).urlPrefix else "/"
  }

  // ---------------------------------------------------------------- paths

  /** `getPageUrl`: the home path of the page's language, or the prefix, a
      `/` and the slug. */
  function GetPageUrl(page: PageEntry): (r: string)
    ensures IsHomeSlug(page.slug) ==> r == (if LangOf(page.lang) == De then "/" else "/en")
    ensures !IsHomeSlug(page.slug) ==> r == Config(LangOf(page.lang)).urlPrefix + "/" + page.slug.value
  {
    var lang := LangOf(page.lang);
    if IsHomeSlug(page.slug) then HomePath(lang) else Config(lang).urlPrefix + "/" + page.slug.value
  }

  /** `id.replace(/\.mdx?$/, "")`: a trailing ".mdx" or ".md" removed. */
  function StripMarkdownExtension(id: string): (r: string)
    ensures r == id || r + ".md" == id || r + ".mdx" == id
    ensures !EndsWith(id, ".md") && !EndsWith(id, ".mdx") ==> r == id
  {
    if EndsWith(id, ".mdx") then
      assert id == id[..|id| - 4] + ".mdx";
      id[..|id| - 4]
    else if EndsWith(id, ".md") then
      assert id == id[..|id| - 3] + ".md";
      id[..|id| - 3]
    else id
  }

  /** The slug of a post: its own, or its file name without extension. */
  function BlogSlug(post: BlogEntry): string {
    if Truthy(post.slug) then post.slug.value else StripMarkdownExtension(post.id)
  }

  /** `getBlogUrl`. */
  function GetBlogUrl(post: BlogEntry): (r: string)
    ensures r == Config(LangOf(post.lang)).urlPrefix + "/blog/" + BlogSlug(post)
  {
    Config(LangOf(post.lang)).urlPrefix + "/blog/" + BlogSlug(post)
  }

  /** `detectLanguageFromPath`: English exactly for "/en" and the paths
      under "/en/". */
  function DetectLanguageFromPath(path: string): (r: Lang)
    ensures r == En <==> StartsWith(path, "/en/") || path == "/en"
  {
    if StartsWith(path, "/en/") || path == "/en" then En else De
  }

  /** A path that merely begins with "/en", such as "/english", is German. */
  lemma DetectNeedsWholeSegment(rest: string)
    requires rest != [] && rest[0] != '/'
    ensures DetectLanguageFromPath("/en" + rest) == De
  {
    var p := "/en" + rest;
    assert p[..4][3] == rest[0];
  }

  /** The first segment of a slug: everything before its first `/`. */
  function FirstSegment(s: string): string {
    if '/' in s then s[..IndexOf(s, '/')] else s
  }

  /** The first `c` of `s` is at `j` when `s[j]` is `c` and none comes
      before it. */
  lemma {:induction false} IndexOfAt(s: string, c: char, j: nat)
    requires j < |s| && s[j] == c && c !in s[..j]
    ensures c in s && IndexOf(s, c) == j
  {
    if j > 0 {
      assert s[..j][0] == s[0];
      assert s[1..][..j - 1] == s[..j][1..];
      IndexOfAt(s[1..], c, j - 1);
    }
  }

  /** A slug whose first segment is "en": "en" itself or "en/…". */
  lemma {:induction false} FirstSegmentEn(s: string)
    requires StartsWith(s, "en/") || s == "en"
    ensures FirstSegment(s) == "en"
  {
    if s == "en" {
      assert '/' !in s;
    } else {
      assert s[..3] == "en/";
      assert s[0] == 'e' && s[1] == 'n' && s[2] == '/';
      IndexOfAt(s, '/', 2);
      assert s[..2] == "en";
    }
  }

  /** Behind a leading `/`, "/en/" and "/en" are "en/" and "en". */
  lemma SlashPrefix(s: string)
    ensures StartsWith("/" + s, "/en/") <==> StartsWith(s, "en/")
    ensures "/" + s == "/en" <==> s == "en"
  {
    var w := "/" + s;
    assert s == w[1..];
    if |s| >= 3 {
      assert w[..4] == "/" + s[..3];
      assert s[..3] == w[..4][1..];
    }
  }

  /** Every page's path is detected as the page's language, unless a German
      page's slug begins with the segment "en". */
  lemma PageUrlLanguage(page: PageEntry)
    requires LangOf(page.lang) == De && !IsHomeSlug(page.slug) ==> FirstSegment(page.slug.value) != "en"
    ensures DetectLanguageFromPath(GetPageUrl(page)) == LangOf(page.lang)
  {
    var r := GetPageUrl(page);
    if !IsHomeSlug(page.slug) {
      var slug := page.slug.value;
      if LangOf(page.lang) == En {
        assert r == "/en/" + slug;
        assert r[..4] == "/en/";
      } else {
        assert r == "/" + slug;
        SlashPrefix(slug);
        if StartsWith(slug, "en/") || slug == "en" {
          FirstSegmentEn(slug);
        }
      }
    }
  }

  /** A German page with the slug "en" gets the path "/en", which is read
      back as English. */
  lemma GermanSlugEnLooksEnglish()
    ensures GetPageUrl(PageEntry("x", Some(De), Some("en"))) == "/en"
    ensures DetectLanguageFromPath(GetPageUrl(PageEntry("x", Some(De), Some("en")))) == En
  {
  }

  /** Every post's path is detected as the post's language. */
  lemma BlogUrlLanguage(post: BlogEntry)
    ensures DetectLanguageFromPath(GetBlogUrl(post)) == LangOf(post.lang)
  {
    var r := GetBlogUrl(post);
    if LangOf(post.lang) == En {
      assert r == "/en/" + ("blog/" + BlogSlug(post));
      assert r[..4] == "/en/";
    } else {
      assert r == "/blog/" + BlogSlug(post);
      assert r[1] == 'b';
    }
  }

  /** For paths that begin with `/`, the path-based detector agrees with
      `getLangFromUrl`. */
  lemma DetectAgreesWithGetLang(path: string)
    requires path != [] && path[0] == '/'
    ensures DetectLanguageFromPath(path) == GetLangFromUrl(path)
  {
    var q := path[1..];
    var seg := FirstSegment(q);
    var rest := if '/' in q then q[IndexOf(q, '/')..] else [];
    assert q == seg + rest;
    assert path == "/" + q;
    assert "/" + seg + rest == path;
    GetLangFirstSegment(seg, rest);
    SlashPrefix(q);
    if StartsWith(q, "en/") || q == "en" {
      FirstSegmentEn(q);
    }
  }

  // ---------------------------------------------------------- translations

  /** `findPageTranslation`: the first page with the same page id and the
      target language (an entry without a language matches none). */
  function FindPageTranslation(pages: seq<PageEntry>, current: PageEntry, target: Lang): (r: Option<PageEntry>)
    ensures r.Some? ==> r.value in pages && r.value.pageId == current.pageId && r.value.lang == Some(target)
    ensures r.None? <==> forall i :: 0 <= i < |pages| ==> !(pages[i].pageId == current.pageId && pages[i].lang == Some(target))
    ensures r.Some? ==> exists k :: 0 <= k < |pages| && pages[k] == r.value
                                    && forall i :: 0 <= i < k ==>
                                         !(pages[i].pageId == current.pageId && pages[i].lang == Some(target))
  {
    Find(pages, (p: PageEntry) => p.pageId == current.pageId && p.lang == Some(target))
  }

  /** `findBlogTranslation`: the same, by post id. */
  function FindBlogTranslation(posts: seq<BlogEntry>, current: BlogEntry, target: Lang): (r: Option<BlogEntry>)
    ensures r.Some? ==> r.value in posts && r.value.postId == current.postId && r.value.lang == Some(target)
    ensures r.None? <==> forall i :: 0 <= i < |posts| ==> !(posts[i].postId == current.postId && posts[i].lang == Some(target))
    ensures r.Some? ==> exists k :: 0 <= k < |posts| && posts[k] == r.value
                                    && forall i :: 0 <= i < k ==>
                                         !(posts[i].postId == current.postId && posts[i].lang == Some(target))
  {
    Find(posts, (p: BlogEntry) => p.postId == current.postId && p.lang == Some(target))
  }

  /** `getPageTranslations`: every page with the same page id, in collection
      order, the current page included. */
  function GetPageTranslations(pages: seq<PageEntry>, current: PageEntry): (r: seq<PageEntry>)
    ensures forall p :: p in r <==> p in pages && p.pageId == current.pageId
    ensures current in pages ==> current in r
  {
    var same := (p: PageEntry) => p.pageId == current.pageId;
    forall p ensures p in Filter(pages, same) <==> p in pages && same(p) {
      FilterMembers(pages, same, p);
    }
    Filter(pages, same)
  }

  /** `getBlogTranslations`: every post with the same post id. */
  function GetBlogTranslations(posts: seq<BlogEntry>, current: BlogEntry): (r: seq<BlogEntry>)
    ensures forall p :: p in r <==> p in posts && p.postId == current.postId
    ensures current in posts ==> current in r
  {
    var same := (p: BlogEntry) => p.postId == current.postId;
    forall p ensures p in Filter(posts, same) <==> p in posts && same(p) {
      FilterMembers(posts, same, p);
    }
    Filter(posts, same)
  }

  // ------------------------------------------------------------- full URLs

  /** `getFullPageUrl`: English pages sit at the root of the .com domain,
      German pages under the .de domain at their path. */
  function GetFullPageUrl(page: PageEntry): string {
    var lang := LangOf(page.lang);
    var siteUrl := Config(lang).siteUrl;
    if lang == En then
      if IsHomeSlug(page.slug) then siteUrl else siteUrl + "/" + page.slug.value
    else siteUrl + GetPageUrl(page)
  }

  /** Both domains put a page at `/<slug>`; the German home page keeps its
      `/`, the English one has none. */
  lemma FullPageUrlShape(page: PageEntry)
    ensures !IsHomeSlug(page.slug) ==>
              GetFullPageUrl(page) == Config(LangOf(page.lang)).siteUrl + "/" + page.slug.value
    ensures IsHomeSlug(page.slug) && LangOf(page.lang) == De ==> GetFullPageUrl(page) == "https://wernerstrauch.de/"
    ensures IsHomeSlug(page.slug) && LangOf(page.lang) == En ==> GetFullPageUrl(page) == "https://wernerstrauch.com"
  {
    if !IsHomeSlug(page.slug) && LangOf(page.lang) == De {
      assert Config(De).urlPrefix + "/" + page.slug.value == "/" + page.slug.value;
    }
  }

  /** `getFullBlogUrl`. */
  function GetFullBlogUrl(post: BlogEntry): string {
    var lang := LangOf(post.lang);
    var siteUrl := Config(lang).siteUrl;
    if lang == En then siteUrl + "/blog/" + BlogSlug(post) else siteUrl + GetBlogUrl(post)
  }

  /** On either domain a post is at `/blog/<slug>`. */
  lemma FullBlogUrlShape(post: BlogEntry)
    ensures GetFullBlogUrl(post) == Config(LangOf(post.lang)).siteUrl + "/blog/" + BlogSlug(post)
  {
    if LangOf(post.lang) == De {
      assert Config(De).urlPrefix + "/blog/" + BlogSlug(post) == "/blog/" + BlogSlug(post);
    }
  }

  // -------------------------------------------------------------- hreflang

  datatype HreflangEntry = HreflangEntry(lang: string, url: string)

  /** The entries of a group of translations: one per translation, in
      order, with its language and full URL, then an `x-default` entry for
      the first German one, if there is one, whose index is `german`. */
  method HreflangEntries<T>(translations: seq<T>, lang: T -> Option<Lang>, fullUrl: T -> string)
    returns (entries: seq<HreflangEntry>, german: Option<nat>)
    ensures german == FirstIndex(translations, (t: T) => lang(t) == Some(De))
    ensures |entries| == |translations| + (if german.Some? then 1 else 0)
    ensures forall i :: 0 <= i < |translations| ==>
              entries[i] == HreflangEntry(LangCode(LangOf(lang(translations[i]))), fullUrl(translations[i]))
    ensures german.Some? ==> entries[|translations|] == HreflangEntry("x-default", fullUrl(translations[german.value]))
  {
    entries := seq(|translations|, i requires 0 <= i < |translations| =>
                     HreflangEntry(LangCode(LangOf(lang(translations[i]))), fullUrl(translations[i])));
    german := FirstIndex(translations, (t: T) => lang(t) == Some(De));
    if german.Some? {
      entries := entries + [HreflangEntry("x-default", fullUrl(translations[german.value]))];
    }
  }

  /** `j` is the index of the first German entry of `ts`. */
  predicate FirstGerman(langs: seq<Option<Lang>>, j: int) {
    0 <= j < |langs| && langs[j] == Some(De) && forall k :: 0 <= k < j ==> langs[k] != Some(De)
  }

  function PageLangs(ts: seq<PageEntry>): (r: seq<Option<Lang>>)
    ensures |r| == |ts| && forall i :: 0 <= i < |ts| ==> r[i] == ts[i].lang
  {
    seq(|ts|, i requires 0 <= i < |ts| => ts[i].lang)
  }

  function BlogLangs(ts: seq<BlogEntry>): (r: seq<Option<Lang>>)
    ensures |r| == |ts| && forall i :: 0 <= i < |ts| ==> r[i] == ts[i].lang
  {
    seq(|ts|, i requires 0 <= i < |ts| => ts[i].lang)
  }

  /** `getPageHreflangEntries`: one entry per translation, and an
      `x-default` entry for the first German translation exactly when there
      is one. */
  method GetPageHreflangEntries(pages: seq<PageEntry>, current: PageEntry) returns (entries: seq<HreflangEntry>)
    ensures var ts := GetPageTranslations(pages, current);
      && |ts| <= |entries| <= |ts| + 1
      && (forall i :: 0 <= i < |ts| ==> entries[i] == HreflangEntry(LangCode(LangOf(ts[i].lang)), GetFullPageUrl(ts[i])))
      && (|entries| == |ts| + 1 <==> Some(De) in PageLangs(ts))
      && (|entries| == |ts| + 1 ==>
            exists j :: FirstGerman(PageLangs(ts), j)
                     && entries[|ts|] == HreflangEntry("x-default", Config(De).siteUrl + GetPageUrl(ts[j])))
  {
    var ts := GetPageTranslations(pages, current);
    var german;
    entries, german := HreflangEntries(ts, (p: PageEntry) => p.lang, GetFullPageUrl);
    if german.Some? {
      var j := german.value;
      assert FirstGerman(PageLangs(ts), j);
    } else {
      assert forall i :: 0 <= i < |ts| ==> PageLangs(ts)[i] != Some(De);
    }
  }

  /** `getBlogHreflangEntries`: as for pages; the `x-default` URL lies under
      the German domain's `/blog/`. */
  method GetBlogHreflangEntries(posts: seq<BlogEntry>, current: BlogEntry) returns (entries: seq<HreflangEntry>)
    ensures var ts := GetBlogTranslations(posts, current);
      && |ts| <= |entries| <= |ts| + 1
      && (forall i :: 0 <= i < |ts| ==> entries[i] == HreflangEntry(LangCode(LangOf(ts[i].lang)), GetFullBlogUrl(ts[i])))
      && (|entries| == |ts| + 1 <==> Some(De) in BlogLangs(ts))
      && (|entries| == |ts| + 1 ==>
            exists j :: FirstGerman(BlogLangs(ts), j)
                     && entries[|ts|] == HreflangEntry("x-default", Config(De).siteUrl + "/blog/" + BlogSlug(ts[j])))
  {
    var ts := GetBlogTranslations(posts, current);
    var german;
    entries, german := HreflangEntries(ts, (p: BlogEntry) => p.lang, GetFullBlogUrl);
    if german.Some? {
      var j := german.value;
      assert FirstGerman(BlogLangs(ts), j);
      FullBlogUrlShape(ts[j]);
    } else {
      assert forall i :: 0 <= i < |ts| ==> BlogLangs(ts)[i] != Some(De);
    }
  }

  // -------------------------------------------------------------- switcher

  /** `getAlternateUrl`: the translation's URL when there is one, else the
      other language's home path. */
  function GetAlternateUrl(current: Lang, alternatePageUrl: Option<string>): (r: string)
    ensures Truthy(alternatePageUrl) ==> r == alternatePageUrl.value
    ensures !Truthy(alternatePageUrl) ==> r == (if current == De then "/en" else "/")
  {
    if Truthy(alternatePageUrl) then alternatePageUrl.value
    else HomePath(if current == De then En else De)
  }

  /** The fallback is the other language's home page, and it is detected as
      that other language. */
  lemma AlternateFallback(current: Lang)
    ensures var other := if current == De then En else De;
      && GetAlternateUrl(current, None) == GetPageUrl(PageEntry("homepage", Some(other), None))
      && DetectLanguageFromPath(GetAlternateUrl(current, None)) == other
  {
  }
}
