/** The build configuration: which domain a build is published under, chosen
    by the `SITE_LANG` environment variable, and which pages the sitemap
    lists. */
module AstroConfig {
  import opened Wrappers
  import opened Strings
  import Translations
  import I18n

  const GermanSite: string := "https://wernerstrauch.de"
  const EnglishSite: string := "https://wernerstrauch.com"

  /** `process.env.SITE_LANG || 'de'`: an unset or empty variable means
      German. */
  function SiteLang(env: Option<string>): (r: string)
    ensures env.None? || env.value == "" ==> r == "de"
    ensures env.Some? && env.value != "" ==> r == env.value
  {
    if env.Some? && env.value != "" then env.value else "de"
  }

  /** `siteUrls[siteLang] || siteUrls.de`: the English domain for "en", the
      German one for "de" and for any value that is not a key. */
  function SiteUrl(env: Option<string>): (r: string)
    ensures r == EnglishSite <==> SiteLang(env) == "en"
    ensures r == GermanSite <==> SiteLang(env) != "en"
  {
    var lang := SiteLang(env);
    assert |GermanSite| != |EnglishSite|;
    if lang == "en" then EnglishSite else GermanSite
  }

  /** A build for a language is published under the site URL the i18n
      configuration gives that language. */
  lemma SiteUrlMatchesLanguageConfig(l: Translations.Lang)
    ensures SiteUrl(Some(Translations.LangCode(l))) == I18n.Config(l).siteUrl
  {
    match l
    case De =>
    case En =>
  }

  /** The fragments that keep a page out of the sitemap: development and
      test pages, and the legal pages. */
  function ExcludedFragments(): seq<string> {
    ["/dev/", "/test-", "/impressum", "/datenschutz", "/privacy", "/legal"]
  }

  /** The sitemap's `filter`: a page is listed unless its URL contains one
      of the excluded fragments. */
  function SitemapIncludes(page: string): (r: bool)
    ensures r <==> forall i :: 0 <= i < |ExcludedFragments()| ==> !Contains(page, ExcludedFragments()[i])
  {
    var f := ExcludedFragments();
    assert f[0] == "/dev/" && f[1] == "/test-" && f[2] == "/impressum";
    assert f[3] == "/datenschutz" && f[4] == "/privacy" && f[5] == "/legal";
    if Contains(page, "/dev/") || Contains(page, "/test-") then false
    else if Contains(page, "/impressum") || Contains(page, "/datenschutz") then false
    else if Contains(page, "/privacy") || Contains(page, "/legal") then false
    else true
  }

  /** An excluded fragment anywhere in a URL, also inside a longer path
      segment, keeps the page out. */
  lemma ExcludedAnywhere(before: string, i: nat, after: string)
    requires i < |ExcludedFragments()|
    ensures !SitemapIncludes(before + ExcludedFragments()[i] + after)
  {
    ContainsMiddle(before, ExcludedFragments()[i], after);
  }

  /** Exclusion is kept by embedding: a URL containing an excluded page's URL
      is excluded as well, and a listed page's URL only contains listed
      URLs. */
  lemma ExclusionEmbeds(page: string, before: string, after: string)
    ensures !SitemapIncludes(page) ==> !SitemapIncludes(before + page + after)
    ensures SitemapIncludes(before + page + after) ==> SitemapIncludes(page)
  {
    if !SitemapIncludes(page) {
      var i :| 0 <= i < |ExcludedFragments()| && Contains(page, ExcludedFragments()[i]);
      ContainsWithin(before, page, after, ExcludedFragments()[i]);
    }
  }
}
