/** The website's two languages, the language of a request URL, and the
    per-language text tables. Only the navigation and footer entries of the
    tables are modelled; the page copy is data. */
module Translations {
  import opened Wrappers
  import opened Strings

  datatype Lang = De | En

  /** The key a language is written as. */
  function LangCode(l: Lang): string {
    match l
    case De => "de"
    case En => "en"
  }

  /** `languages`: the language keys and their display names. */
  function Languages(): map<string, string> {
    map["de" := "Deutsch", "en" := "English"]
  }

  const DefaultLang: Lang := De

  /** The language a key names; the keys are exactly those of `languages`. */
  function ParseLang(s: string): (r: Option<Lang>)
    ensures r.Some? <==> s in Languages()
    ensures r.Some? ==> LangCode(r.value) == s
  {
    if s == "de" then Some(De) else if s == "en" then Some(En) else None
  }

  /** The languages are exactly de and en, each named by its own key. */
  lemma LanguagesAreDeEn()
    ensures Languages().Keys == {LangCode(De), LangCode(En)}
    ensures forall l: Lang :: ParseLang(LangCode(l)) == Some(l)
  {
  }

  /** `getLangFromUrl`: the first segment of the path (the piece after the
      leading `/`) when it is a language key, else the default language. */
  function GetLangFromUrl(pathname: string): (r: Lang)
    ensures var parts := Strings.Split(pathname, '/');
      (|parts| >= 2 && parts[1] in Languages() ==> LangCode(r) == parts[1])
    ensures var parts := Strings.Split(pathname, '/');
      (|parts| < 2 || parts[1] !in Languages()) ==> r == DefaultLang
  {
    var parts := Strings.Split(pathname, '/');
    if |parts| >= 2 && ParseLang(parts[1]).Some? then ParseLang(parts[1]).value else DefaultLang
  }

  /** The pieces of a path `/seg…` whose first segment is `seg`. */
  lemma {:induction false} SplitFirstSegment(seg: string, rest: string)
    requires '/' !in seg && (rest == [] || rest[0] == '/')
    ensures var parts := Strings.Split("/" + seg + rest, '/'); |parts| >= 2 && parts[1] == seg
  {
    var p := "/" + seg + rest;
    assert p[1..] == seg + rest;
    if rest == [] {
      assert seg + rest == seg;
      SplitNoSeparator(seg, '/');
    } else {
      SplitFirst(seg + rest, '/');
      assert (seg + rest)[|seg|] == '/';
      assert '/' in seg + rest;
      assert forall i :: 0 <= i < |seg| ==> (seg + rest)[i] == seg[i];
      assert (seg + rest)[..|seg|] == seg;
    }
  }

  /** Only the first segment is looked at: a path whose first segment is
      "en" is English, whatever follows it, and every other first segment
      (such as "blog" in "/blog/en", or "fr") gives German. */
  lemma GetLangFirstSegment(seg: string, rest: string)
    requires '/' !in seg && (rest == [] || rest[0] == '/')
    ensures GetLangFromUrl("/" + seg + rest) == if seg == "en" then En else De
  {
    SplitFirstSegment(seg, rest);
  }

  /** The root path is German. */
  lemma GetLangRoot()
    ensures GetLangFromUrl("/") == De
  {
    SplitFirstSegment("", "");
    assert "/" + "" + "" == "/";
  }

  /** The keys of the modelled text tables. */
  function TableKeys(): set<string> {
    {"nav.about", "nav.services", "nav.contact", "nav.blog", "footer.copyright", "footer.imprint", "footer.privacy"}
  }

  /** `useTranslations(lang)`: the table of that language; both languages
      translate the same keys. */
  function UseTranslations(l: Lang): (r: map<string, string>)
    ensures r.Keys == TableKeys()
  {
    match l
    case De =>
      map["nav.about" := "Über mich", "nav.services" := "Leistungen", "nav.contact" := "Kontakt",
          "nav.blog" := "Blog",
          "footer.copyright" := "© {year} Werner Strauch. Alle Rechte vorbehalten.",
          "footer.imprint" := "Impressum", "footer.privacy" := "Datenschutz"]
    case En =>
      map["nav.about" := "About", "nav.services" := "Services", "nav.contact" := "Contact",
          "nav.blog" := "Blog",
          "footer.copyright" := "© {year} Werner Strauch. All rights reserved.",
          "footer.imprint" := "Imprint", "footer.privacy" := "Privacy Policy"]
  }
}
