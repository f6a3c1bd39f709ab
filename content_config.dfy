/** The content collections' validation: the grammar of a page's URL slug,
    the enumerations and defaults of the page and blog front matter, and the
    choice of page files by build language. Only the fields with a rule or a
    default are modelled; the free-form fields pass through unchecked. */
module ContentConfig {
  import opened Wrappers
  import opened Strings
  import opened Translations

  // ------------------------------------------------------------- slug grammar

  /** `[a-z0-9]+`. */
  predicate Group(s: string) {
    |s| > 0 && forall i :: 0 <= i < |s| ==> IsLowerAlnum(s[i])
  }

  /** `[a-z0-9]+(-[a-z0-9]+)*`: a group, or a group, a hyphen and a
      segment. */
  predicate Segment(s: string)
    decreases |s|
  {
    Group(s) || exists i :: 0 < i < |s| - 1 && s[i] == '-' && Group(s[..i]) && Segment(s[i + 1..])
  }

  /** The slug pattern as written: "index", or a segment optionally followed
      by `/` and a second segment. */
  predicate SlugGrammar(s: string) {
    || s == "index"
    || Segment(s)
    || exists i :: 0 <= i < |s| && s[i] == '/' && Segment(s[..i]) && Segment(s[i + 1..])
  }

  /** A segment by its characters: lower-case letters, digits and hyphens,
      neither starting nor ending with a hyphen, and no two hyphens in a
      row. */
  predicate SegmentChars(s: string) {
    && |s| > 0
    && (forall i :: 0 <= i < |s| ==> IsLowerAlnum(s[i]) || s[i] == '-')
    && s[0] != '-' && s[|s| - 1] != '-'
    && (forall i :: 0 <= i < |s| - 1 ==> !(s[i] == '-' && s[i + 1] == '-'))
  }

  /** The `slug` check: "index", one segment, or two segments around the
      first `/`. */
  function IsValidPageSlug(s: string): (r: bool)
    ensures r <==> SlugGrammar(s)
  {
    SlugCheckMatchesGrammar(s);
    if s == "index" then true
    else if '/' in s then
      var i := IndexOf(s, '/');
      SegmentChars(s[..i]) && SegmentChars(s[i + 1..])
    else SegmentChars(s)
  }

  /** The grammar's segments are exactly the strings with the segment
      characters. */
  lemma SegmentIffChars(s: string)
    ensures Segment(s) <==> SegmentChars(s)
  {
    if Segment(s) {
      SegmentHasChars(s);
    }
    if SegmentChars(s) {
      CharsMakeSegment(s);
    }
  }

  lemma {:induction false} SegmentHasChars(s: string)
    requires Segment(s)
    ensures SegmentChars(s)
    decreases |s|
  {
    if !Group(s) {
      var i :| 0 < i < |s| - 1 && s[i] == '-' && Group(s[..i]) && Segment(s[i + 1..]);
      var rest := s[i + 1..];
      SegmentHasChars(rest);
      HyphenJoin(s, i);
    }
  }

  /** A group, a hyphen and a segment have the segment characters. */
  lemma HyphenJoin(s: string, i: nat)
    requires 0 < i < |s| - 1 && s[i] == '-' && Group(s[..i]) && SegmentChars(s[i + 1..])
    ensures SegmentChars(s)
  {
    var g, rest := s[..i], s[i + 1..];
    forall k | 0 <= k < |s| ensures IsLowerAlnum(s[k]) || s[k] == '-' {
      if k < i { assert s[k] == g[k]; }
      else if k > i { assert s[k] == rest[k - i - 1]; }
    }
    assert s[0] == g[0];
    assert s[|s| - 1] == rest[|rest| - 1];
    forall k | 0 <= k < |s| - 1 ensures !(s[k] == '-' && s[k + 1] == '-') {
      if k < i { assert s[k] == g[k]; }
      else if k == i { assert s[k + 1] == rest[0]; }
      else { assert s[k] == rest[k - i - 1] && s[k + 1] == rest[k - i]; }
    }
  }

  lemma {:induction false} CharsMakeSegment(s: string)
    requires SegmentChars(s)
    ensures Segment(s)
    decreases |s|
  {
    if '-' !in s {
      assert Group(s);
    } else {
      var i := IndexOf(s, '-');
      var rest := s[i + 1..];
      assert Group(s[..i]) by {
        forall k | 0 <= k < i ensures IsLowerAlnum(s[..i][k]) {
          assert s[..i][k] == s[k];
        }
      }
      AfterHyphen(s, i);
      CharsMakeSegment(rest);
    }
  }

  /** What follows a hyphen of a segment is again a segment. */
  lemma AfterHyphen(s: string, i: nat)
    requires SegmentChars(s) && i < |s| && s[i] == '-'
    ensures 0 < i < |s| - 1 && SegmentChars(s[i + 1..])
  {
    var rest := s[i + 1..];
    assert rest[0] == s[i + 1];
    assert rest[|rest| - 1] == s[|s| - 1];
    forall k | 0 <= k < |rest| ensures IsLowerAlnum(rest[k]) || rest[k] == '-' {
      assert rest[k] == s[k + i + 1];
    }
    forall k | 0 <= k < |rest| - 1 ensures !(rest[k] == '-' && rest[k + 1] == '-') {
      assert rest[k] == s[k + i + 1] && rest[k + 1] == s[k + i + 2];
    }
  }

  /** A segment contains no `/`. */
  lemma NoSlashInSegment(s: string)
    requires SegmentChars(s)
    ensures '/' !in s
  {
  }


  lemma SlugCheckMatchesGrammar(s: string)
    ensures (if s == "index" then true
             else if '/' in s then SegmentChars(s[..IndexOf(s, '/')]) && SegmentChars(s[IndexOf(s, '/') + 1..])
             else SegmentChars(s)) <==> SlugGrammar(s)
  {
    SegmentIffChars(s);
    if '/' in s {
      var i := IndexOf(s, '/');
      SegmentIffChars(s[..i]);
      SegmentIffChars(s[i + 1..]);
      assert !SegmentChars(s) by { assert s[i] == '/'; }
      if exists j :: 0 <= j < |s| && s[j] == '/' && Segment(s[..j]) && Segment(s[j + 1..]) {
        var j :| 0 <= j < |s| && s[j] == '/' && Segment(s[..j]) && Segment(s[j + 1..]);
        SegmentIffChars(s[..j]);
        SegmentIffChars(s[j + 1..]);
        NoSlashInSegment(s[..j]);
        assert i == j by {
          assert forall k :: 0 <= k < j ==> s[..j][k] == s[k];
        }
      }
    } else {
      forall j | 0 <= j < |s| ensures s[j] != '/' {
      }
    }
  }

  /** What the grammar rules out: a valid slug other than "index" has no
      capital, no `/` or hyphen at either end, at most one `/`, and no two
      hyphens in a row. */
  lemma ValidSlugShape(s: string)
    requires IsValidPageSlug(s) && s != "index"
    ensures forall i :: 0 <= i < |s| ==> !IsUpperAscii(s[i])
    ensures s[0] != '/' && s[0] != '-' && s[|s| - 1] != '/' && s[|s| - 1] != '-'
    ensures forall i, j :: 0 <= i < j < |s| && s[i] == '/' ==> s[j] != '/'
    ensures forall i :: 0 <= i < |s| - 1 ==> !(s[i] == '-' && s[i + 1] == '-')
  {
    if '/' in s {
      TwoSegmentsShape(s, IndexOf(s, '/'));
    }
  }

  /** Two segments around a `/`. */
  lemma TwoSegmentsShape(s: string, k: nat)
    requires k < |s| && s[k] == '/' && SegmentChars(s[..k]) && SegmentChars(s[k + 1..])
    ensures forall i :: 0 <= i < |s| ==> !IsUpperAscii(s[i])
    ensures s[0] != '/' && s[0] != '-' && s[|s| - 1] != '/' && s[|s| - 1] != '-'
    ensures forall i, j :: 0 <= i < j < |s| && s[i] == '/' ==> s[j] != '/'
    ensures forall i :: 0 <= i < |s| - 1 ==> !(s[i] == '-' && s[i + 1] == '-')
  {
    var a, b := s[..k], s[k + 1..];
    assert forall i :: 0 <= i < k ==> s[i] == a[i];
    assert forall i :: k < i < |s| ==> s[i] == b[i - k - 1];
    assert s[0] == a[0] && s[|s| - 1] == b[|b| - 1];
  }

  /** A leading `/` is refused. */
  lemma LeadingSlashRefused(rest: string)
    ensures !IsValidPageSlug("/" + rest)
  {
    var s := "/" + rest;
    assert s[0] == '/';
    assert IndexOf(s, '/') == 0;
  }

  // ----------------------------------------------------------- enumerations

  /** `langSchema`: "de" or "en", and "de" when absent. */
  function ParseLangField(raw: Option<string>): (r: Result<Lang, string>)
    ensures raw.None? ==> r == Ok(De)
    ensures raw.Some? ==> (r.Ok? <==> raw.value in Languages())
    ensures r.Ok? && raw.Some? ==> LangCode(r.value) == raw.value
  {
    match raw
    case None => Ok(De)
    case Some(s) =>
      match ParseLang(s)
      case Some(l) => Ok(l)
      case None => Err("Invalid enum value. Expected 'de' | 'en'")
  }

  datatype Status = Published | Draft
  datatype HeaderVariant = LightHeader | DarkHeader

  /** `status`: "published" or "draft", and published when absent. */
  function ParseStatus(raw: Option<string>): (r: Option<Status>)
    ensures raw.None? ==> r == Some(Published)
    ensures raw.Some? ==> (r.Some? <==> raw.value == "published" || raw.value == "draft")
    ensures raw.Some? && r.Some? ==> (r.value == Published <==> raw.value == "published")
  {
    match raw
    case None => Some(Published)
    case Some(s) => if s == "published" then Some(Published) else if s == "draft" then Some(Draft) else None
  }

  /** `headerVariant`: "light" or "dark", and light when absent. */
  function ParseHeaderVariant(raw: Option<string>): (r: Option<HeaderVariant>)
    ensures raw.None? ==> r == Some(LightHeader)
    ensures raw.Some? ==> (r.Some? <==> raw.value == "light" || raw.value == "dark")
    ensures raw.Some? && r.Some? ==> (r.value == LightHeader <==> raw.value == "light")
  {
    match raw
    case None => Some(LightHeader)
    case Some(s) => if s == "light" then Some(LightHeader) else if s == "dark" then Some(DarkHeader) else None
  }

  /** A page's `settings` as written; absent fields are `None`. Priorities
      are exact numbers. */
  datatype RawSettings = RawSettings(status: Option<string>, priority: Option<real>, headerVariant: Option<string>)

  datatype Settings = Settings(status: Status, priority: real, headerVariant: HeaderVariant)

  const DefaultPriority: real := 0.8

  /** The settings object: each field checked against its enumeration or
      range, and defaulted when absent. */
  function ParseSettings(raw: RawSettings): (r: Result<Settings, string>)
    ensures r.Ok? <==>
              ParseStatus(raw.status).Some? && ParseHeaderVariant(raw.headerVariant).Some?
              && (raw.priority.None? || 0.0 <= raw.priority.value <= 1.0)
    ensures r.Ok? ==> 0.0 <= r.value.priority <= 1.0
    ensures r.Ok? ==> r.value.status == ParseStatus(raw.status).value
    ensures r.Ok? ==> r.value.headerVariant == ParseHeaderVariant(raw.headerVariant).value
    ensures r.Ok? ==> r.value.priority == raw.priority.GetOr(DefaultPriority)
  {
    var status := ParseStatus(raw.status);
    var variant := ParseHeaderVariant(raw.headerVariant);
    var priority := raw.priority.GetOr(DefaultPriority);
    if status.None? then Err("Invalid enum value. Expected 'published' | 'draft'")
    else if !(0.0 <= priority <= 1.0) then Err("Number must be between 0 and 1")
    else if variant.None? then Err("Invalid enum value. Expected 'light' | 'dark'")
    else Ok(Settings(status.value, priority, variant.value))
  }


  /** `settings` itself is optional: an absent object stays absent rather
      than taking the defaults. */
  function ParseOptionalSettings(raw: Option<RawSettings>): (r: Result<Option<Settings>, string>)
    ensures raw.None? ==> r == Ok(None)
    ensures raw.Some? ==> (r.Ok? <==> ParseSettings(raw.value).Ok?)
    ensures raw.Some? && r.Ok? ==> r.value == Some(ParseSettings(raw.value).value)
  {
    match raw
    case None => Ok(None)
    case Some(s) =>
      match ParseSettings(s)
      case Ok(v) => Ok(Some(v))
      case Err(e) => Err(e)
  }

  /** A present `settings` object with no fields gets every default. */
  lemma EmptySettingsDefaults()
    ensures ParseOptionalSettings(Some(RawSettings(None, None, None))) == Ok(Some(Settings(Published, 0.8, LightHeader)))
  {
  }

  /** A section's `enabled` flag: true when absent. */
  function SectionEnabled(raw: Option<bool>): (r: bool)
    ensures raw.None? ==> r
    ensures raw.Some? ==> r == raw.value
  {
    raw.GetOr(true)
  }

  /** A post's `featured` and `draft` flags: false when absent. */
  function BlogFlag(raw: Option<bool>): (r: bool)
    ensures raw.None? ==> !r
    ensures raw.Some? ==> r == raw.value
  {
    raw.GetOr(false)
  }

  // -------------------------------------------------------------- page files

  /** `pagesPattern`: the build language's directory when `SITE_LANG` is
      set, every directory otherwise. */
  function PagesPattern(siteLang: Option<string>): (r: string)
    ensures siteLang.None? || siteLang.value == "" ==> r == "**/*.{yaml,yml}"
    ensures siteLang.Some? && siteLang.value != "" ==> r == siteLang.value + "/*.{yaml,yml}"
  {
    if siteLang.Some? && siteLang.value != "" then siteLang.value + "/*.{yaml,yml}" else "**/*.{yaml,yml}"
  }
}
