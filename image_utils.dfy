/** The generator's naming rules and image helpers: the slide file name, the
    output directory's date-and-slug name, the base64 data URI of an image,
    and the error a failed download raises. Fetching, creating directories
    and writing files are I/O; the callers model them. */
module ImageUtils {
  import opened Wrappers
  import opened Strings
  import opened Base64
  import opened Paths
  import opened CarouselTypes
  import opened FileSystems
  import Seqs

  // ------------------------------------------------------------------ download

  /** What `fetch` answers: the status line and the body's bytes. */
  datatype HttpResponse = HttpResponse(status: int, statusText: string, body: seq<byte>)

  /** `downloadImage`: the body of a response whose status is in 200-299
      (`response.ok`), otherwise the error it throws. */
  function DownloadImage(resp: HttpResponse): (r: Result<seq<byte>, string>)
    ensures r.Ok? <==> 200 <= resp.status <= 299
    ensures r.Ok? ==> r.value == resp.body
  {
    if 200 <= resp.status <= 299 then Ok(resp.body)
    else Err("Failed to download image: " + IntToString(resp.status) + " " + resp.statusText)
  }

  /** The error names the status code and the status text. */
  lemma DownloadErrorText(resp: HttpResponse)
    requires !(200 <= resp.status <= 299)
    ensures DownloadImage(resp).error == "Failed to download image: " + IntToString(resp.status) + " " + resp.statusText
    ensures StartsWith(DownloadImage(resp).error, "Failed to download image: ")
    ensures Contains(DownloadImage(resp).error, IntToString(resp.status))
  {
    var pre := "Failed to download image: ";
    var code := IntToString(resp.status);
    var post := " " + resp.statusText;
    assert DownloadImage(resp).error == pre + code + post;
    ContainsMiddle(pre, code, post);
  }

  /** `saveToFile(buffer, filePath)`: creates the file's directory, then
      writes the file. */
  method SaveToFile(fs: FileSystem, buffer: seq<byte>, filePath: string)
    modifies fs
    ensures fs.files == old(fs.files)[filePath := buffer]
    ensures fs.dirs == old(fs.dirs) + {Parent(filePath)}
  {
    fs.MakeDirectory(Parent(filePath));
    fs.WriteFile(filePath, buffer);
  }

  /** `downloadAndSave(imageUrl, outputDir, filename)`, given what fetching
      the URL answers: the saved file's path, or the download error, in
      which case nothing is written. */
  method DownloadAndSave(fs: FileSystem, resp: HttpResponse, outputDir: string, filename: string)
    returns (r: Result<string, string>)
    modifies fs
    ensures r.Ok? <==> DownloadImage(resp).Ok?
    ensures r.Ok? ==>
              && r.value == PathJoin(outputDir, filename)
              && fs.files == old(fs.files)[r.value := resp.body]
              && fs.dirs == old(fs.dirs) + {Parent(r.value)}
    ensures r.Err? ==> r.error == DownloadImage(resp).error && fs.files == old(fs.files) && fs.dirs == old(fs.dirs)
  {
    var buffer := DownloadImage(resp);
    if buffer.Err? {
      return Err(buffer.error);
    }
    var outputPath := PathJoin(outputDir, filename);
    SaveToFile(fs, buffer.value, outputPath);
    r := Ok(outputPath);
  }

  // ------------------------------------------------------------------ data URI

  /** The mime type `imageToDataUri` uses when none is given. */
  const DefaultMime: string := "image/png"

  /** `imageToDataUri(buffer, mime)`. */
  function DataUri(buffer: seq<byte>, mime: string): string {
    "data:" + mime + ";base64," + Encode(buffer)
  }

  /** Reads a data URI back: the mime type before the first `;`, then
      `base64,` and the encoded bytes. */
  function ParseDataUri(s: string): Option<(string, seq<byte>)> {
    if !StartsWith(s, "data:") then None
    else
      var rest := s[5..];
      if ';' !in rest then None
      else
        var k := IndexOf(rest, ';');
        var after := rest[k + 1..];
        if !StartsWith(after, "base64,") then None
        else match Decode(after[7..])
          case None => None
          case Some(b) => Some((rest[..k], b))
  }

  /** The first `c` of `a + [c] + b` is the one after `a` when `a` has none. */
  lemma {:induction false} IndexOfAfter(a: string, c: char, b: string)
    requires c !in a
    ensures IndexOf(a + [c] + b, c) == |a|
  {
    var s := a + [c] + b;
    if a != [] {
      assert s[0] == a[0];
      assert s[1..] == a[1..] + [c] + b;
      IndexOfAfter(a[1..], c, b);
    }
  }

  /** Parsing finds the mime type and decodes what follows `;base64,`. */
  lemma ParseDataUriOf(mime: string, payload: string)
    requires ';' !in mime
    ensures ParseDataUri("data:" + mime + ";base64," + payload) ==
      match Decode(payload)
      case None => None
      case Some(b) => Some((mime, b))
  {
    var s := "data:" + mime + ";base64," + payload;
    var rest := mime + [';'] + ("base64," + payload);
    assert s == "data:" + rest;
    assert s[5..] == rest;
    IndexOfAfter(mime, ';', "base64," + payload);
    assert rest[|mime| + 1..] == "base64," + payload;
    assert ("base64," + payload)[7..] == payload;
    assert rest[..|mime|] == mime;
  }

  /** A data URI gives back the mime type and the bytes it was built from,
      for any mime type without a `;`. */
  lemma DataUriRoundTrip(buffer: seq<byte>, mime: string)
    requires ';' !in mime
    ensures ParseDataUri(DataUri(buffer, mime)) == Some((mime, buffer))
  {
    ParseDataUriOf(mime, Encode(buffer));
    DecodeEncode(buffer);
  }

  /** The encoded part is plain base64 text: alphabet characters and at most
      two padding characters at the end. */
  lemma DataUriPayload(buffer: seq<byte>, mime: string)
    ensures var s := DataUri(buffer, mime);
      var n := |"data:" + mime + ";base64,"|;
      PaddedAlphabet(s[n..]) && |s| - n == 4 * ((|buffer| + 2) / 3)
  {
    var s := DataUri(buffer, mime);
    assert s[|"data:" + mime + ";base64,"|..] == Encode(buffer);
    EncodeAlphabet(buffer);
  }

  // ------------------------------------------------------------------ slug

  /** The lower-case umlauts and sharp s. */
  predicate IsUmlaut(c: char) { c == 'ä' || c == 'ö' || c == 'ü' || c == 'ß' }

  /** The replacement for ä, ö, ü and ß; any other character stays. */
  function Transliterate(c: char): (r: string)
    ensures |r| == 1 <==> !IsUmlaut(c)
  {
    if c == 'ä' then "ae"
    else if c == 'ö' then "oe"
    else if c == 'ü' then "ue"
    else if c == 'ß' then "ss"
    else [c]
  }

  /** `.replace(/[äöüß]/g, …)`: every umlaut and ß spelled out. */
  function ExpandUmlauts(s: string): (r: string)
    ensures |r| >= |s|
  {
    if s == [] then [] else Transliterate(s[0]) + ExpandUmlauts(s[1..])
  }

  /** A text without umlauts or ß is left as it is. */
  lemma {:induction false} ExpandUmlautsNoop(s: string)
    requires forall i :: 0 <= i < |s| ==> !IsUmlaut(s[i])
    ensures ExpandUmlauts(s) == s
  {
    if s != [] {
      ExpandUmlautsNoop(s[1..]);
      assert [s[0]] + s[1..] == s;
    }
  }

  /** The characters a slug is made of: [a-z0-9] and `-`. */
  predicate IsSlugChar(c: char) { IsLowerAlnum(c) || c == '-' }

  /** No two hyphens in a row. */
  predicate NoDoubleHyphen(s: string) {
    forall i :: 0 <= i < |s| - 1 ==> !(s[i] == '-' && s[i + 1] == '-')
  }

  /** What is left after the run of characters outside [a-z0-9] that opens `s`. */
  function SkipRun(s: string): (r: string)
    ensures |r| <= |s|
    ensures r == [] || IsLowerAlnum(r[0])
  {
    if s != [] && !IsLowerAlnum(s[0]) then SkipRun(s[1..]) else s
  }

  /** `.replace(/[^a-z0-9]+/g, '-')`: every maximal run of characters
      outside [a-z0-9] becomes a single `-`. */
  function CollapseRuns(s: string): (r: string)
    ensures forall i :: 0 <= i < |r| ==> IsSlugChar(r[i])
    ensures r == [] <==> s == []
    ensures s != [] ==> (r[0] == '-' <==> !IsLowerAlnum(s[0]))
    decreases |s|
  {
    if s == [] then []
    else if IsLowerAlnum(s[0]) then [s[0]] + CollapseRuns(s[1..])
    else "-" + CollapseRuns(SkipRun(s[1..]))
  }

  /** A run is replaced by one hyphen, so two never follow each other. */
  lemma {:induction false} CollapseRunsNoDoubleHyphen(s: string)
    ensures NoDoubleHyphen(CollapseRuns(s))
    decreases |s|
  {
    if s != [] {
      if IsLowerAlnum(s[0]) {
        CollapseRunsNoDoubleHyphen(s[1..]);
        var t := CollapseRuns(s[1..]);
        assert CollapseRuns(s) == [s[0]] + t;
      } else {
        var u := SkipRun(s[1..]);
        CollapseRunsNoDoubleHyphen(u);
        var t := CollapseRuns(u);
        assert CollapseRuns(s) == "-" + t;
      }
    }
  }

  /** Skipping a run drops no letter or digit. */
  lemma {:induction false} SkipRunKeepsAlnum(s: string)
    ensures Seqs.Filter(SkipRun(s), IsLowerAlnum) == Seqs.Filter(s, IsLowerAlnum)
  {
    if s != [] && !IsLowerAlnum(s[0]) {
      SkipRunKeepsAlnum(s[1..]);
    }
  }

  /** Collapsing keeps every letter and digit, in order. */
  lemma {:induction false} CollapseRunsKeepsAlnum(s: string)
    ensures Seqs.Filter(CollapseRuns(s), IsLowerAlnum) == Seqs.Filter(s, IsLowerAlnum)
    decreases |s|
  {
    if s != [] {
      if IsLowerAlnum(s[0]) {
        CollapseRunsKeepsAlnum(s[1..]);
        Seqs.FilterCons(s[0], CollapseRuns(s[1..]), IsLowerAlnum);
      } else {
        var u := SkipRun(s[1..]);
        CollapseRunsKeepsAlnum(u);
        SkipRunKeepsAlnum(s[1..]);
        Seqs.FilterCons('-', CollapseRuns(u), IsLowerAlnum);
      }
    }
  }

  /** Letters and digits pass through unchanged. */
  lemma {:induction false} CollapseRunsAlnumPrefix(a: string, b: string)
    requires forall i :: 0 <= i < |a| ==> IsLowerAlnum(a[i])
    ensures CollapseRuns(a + b) == a + CollapseRuns(b)
  {
    if a != [] {
      assert (a + b)[0] == a[0];
      assert (a + b)[1..] == a[1..] + b;
      assert CollapseRuns(a + b) == [a[0]] + CollapseRuns(a[1..] + b);
      CollapseRunsAlnumPrefix(a[1..], b);
      assert a == [a[0]] + a[1..];
      assert [a[0]] + (a[1..] + CollapseRuns(b)) == a + CollapseRuns(b);
    } else {
      assert a + b == b;
    }
  }

  /** `.replace(/^-|-$/g, '')`: one hyphen off the front and one off the end. */
  function TrimHyphens(s: string): (r: string)
    ensures |s| - 2 <= |r| <= |s|
  {
    var t := if s != [] && s[0] == '-' then s[1..] else s;
    if t != [] && t[|t| - 1] == '-' then t[..|t| - 1] else t
  }

  /** `.slice(0, n)`. */
  function Truncate(s: string, n: nat): (r: string)
    ensures |r| <= n && StartsWith(s, r)
  {
    if |s| <= n then s else s[..n]
  }

  /** The slug before `.slice(0, 30)`. */
  function FullSlug(topic: string): string {
    TrimHyphens(CollapseRuns(ExpandUmlauts(Lower(topic))))
  }

  /** The topic's slug in `createOutputDir`: lower case, umlauts spelled out,
      runs of other characters as one hyphen, hyphens trimmed, at most 30
      characters. */
  function Slug(topic: string): string {
    Truncate(FullSlug(topic), 30)
  }

  /** What trimming keeps of a collapsed text: slug characters, no double
      hyphen, and a hyphen at neither end. */
  lemma TrimHyphensShape(s: string)
    requires forall i :: 0 <= i < |s| ==> IsSlugChar(s[i])
    requires NoDoubleHyphen(s)
    ensures var r := TrimHyphens(s);
      && (forall i :: 0 <= i < |r| ==> IsSlugChar(r[i]))
      && NoDoubleHyphen(r)
      && (r == [] || (r[0] != '-' && r[|r| - 1] != '-'))
  {
    var a := if s != [] && s[0] == '-' then 1 else 0;
    var t := s[a..];
    var b := if t != [] && t[|t| - 1] == '-' then |s| - 1 else |s|;
    assert TrimHyphens(s) == s[a..b];
    SliceShape(s, a, b);
    if a < b {
      if a == 1 {
        assert s[a] != '-';
      }
      if b < |s| {
        assert s[b] == '-';
        assert s[b - 1] != '-';
      }
    }
  }

  /** A slice keeps slug characters and the absence of double hyphens. */
  lemma SliceShape(s: string, a: nat, b: nat)
    requires a <= b <= |s|
    requires forall i :: 0 <= i < |s| ==> IsSlugChar(s[i])
    requires NoDoubleHyphen(s)
    ensures forall i :: 0 <= i < b - a ==> IsSlugChar(s[a..b][i])
    ensures NoDoubleHyphen(s[a..b])
  {
    var r := s[a..b];
    forall i | 0 <= i < |r| - 1 ensures !(r[i] == '-' && r[i + 1] == '-') {
      assert r[i] == s[a + i] && r[i + 1] == s[a + i + 1];
    }
  }

  /** The untruncated slug never ends (or starts) with a hyphen. */
  lemma FullSlugEnds(topic: string)
    ensures var u := FullSlug(topic);
      u == [] || (u[0] != '-' && u[|u| - 1] != '-')
  {
    var c := CollapseRuns(ExpandUmlauts(Lower(topic)));
    CollapseRunsNoDoubleHyphen(ExpandUmlauts(Lower(topic)));
    TrimHyphensShape(c);
  }

  /** The slug holds only [a-z0-9-], never two hyphens in a row, does not
      start with a hyphen, and has at most 30 characters. */
  lemma SlugShape(topic: string)
    ensures var r := Slug(topic);
      && |r| <= 30
      && (forall i :: 0 <= i < |r| ==> IsSlugChar(r[i]))
      && NoDoubleHyphen(r)
      && (r == [] || r[0] != '-')
  {
    var c := CollapseRuns(ExpandUmlauts(Lower(topic)));
    CollapseRunsNoDoubleHyphen(ExpandUmlauts(Lower(topic)));
    TrimHyphensShape(c);
    var u := FullSlug(topic);
    var r := Slug(topic);
    assert forall i :: 0 <= i < |r| ==> r[i] == u[i];
  }

  /** Trimming only ever removes hyphens. */
  lemma TrimHyphensKeepsAlnum(s: string)
    ensures Seqs.Filter(TrimHyphens(s), IsLowerAlnum) == Seqs.Filter(s, IsLowerAlnum)
  {
    var t := if s != [] && s[0] == '-' then s[1..] else s;
    if s != [] && s[0] == '-' {
      Seqs.FilterCons('-', t, IsLowerAlnum);
      assert s == ['-'] + t;
    }
    if t != [] && t[|t| - 1] == '-' {
      Seqs.FilterAppend(t[..|t| - 1], ['-'], IsLowerAlnum);
      assert t == t[..|t| - 1] + ['-'];
    }
  }

  /** The untruncated slug keeps every letter and digit of the lower-cased,
      spelled-out topic, in order: only separators change. */
  lemma FullSlugKeepsAlnum(topic: string)
    ensures Seqs.Filter(FullSlug(topic), IsLowerAlnum) == Seqs.Filter(ExpandUmlauts(Lower(topic)), IsLowerAlnum)
  {
    var e := ExpandUmlauts(Lower(topic));
    CollapseRunsKeepsAlnum(e);
    TrimHyphensKeepsAlnum(CollapseRuns(e));
  }

  /** Lower-casing leaves a text without capitals alone. */
  lemma LowerNoop(s: string)
    requires forall i :: 0 <= i < |s| ==> IsLowerAlnum(s[i]) || s[i] == ' '
    ensures Lower(s) == s
  {
  }

  lemma CollapseSpaceLetter(x: char)
    requires IsLowerAscii(x)
    ensures CollapseRuns([' ', x]) == ['-', x]
  {
    var s := [' ', x];
    assert s[1..] == [x];
    assert SkipRun([x]) == [x];
    assert [x][1..] == [];
    assert CollapseRuns([x]) == [x] + CollapseRuns([]);
  }

  /** Letters, a space and a letter: the space becomes a hyphen. */
  lemma CollapsedExample(a: string, x: char)
    requires forall i :: 0 <= i < |a| ==> IsLowerAscii(a[i])
    requires a != [] && IsLowerAscii(x)
    ensures FullSlug(a + [' ', x]) == a + ['-', x]
  {
    var topic := a + [' ', x];
    assert forall i :: 0 <= i < |topic| ==> IsLowerAlnum(topic[i]) || topic[i] == ' ';
    LowerNoop(topic);
    ExpandUmlautsNoop(topic);
    CollapseRunsAlnumPrefix(a, [' ', x]);
    CollapseSpaceLetter(x);
    var c := a + ['-', x];
    assert c[0] == a[0];
  }

  /** Truncation comes after trimming: 29 letters, a space and a letter give
      a 30-character slug that ends in a hyphen. */
  lemma SlugMayEndInHyphen()
    ensures var r := Slug(Repeat('a', 29) + " b");
      |r| == 30 && r[29] == '-'
  {
    var a := Repeat('a', 29);
    CollapsedExample(a, 'b');
    assert a + " b" == a + [' ', 'b'];
    assert (a + ['-', 'b'])[29] == '-';
  }

  // ------------------------------------------------------------------ directory

  /** The date part of an ISO timestamp: everything before the first `T`. */
  function DatePart(isoTimestamp: string): string {
    Strings.Split(isoTimestamp, 'T')[0]
  }

  /** `${timestamp}_${slug}`, the directory name; the timestamp is the
      clock's reading, passed in. */
  function DirName(isoTimestamp: string, topic: string): string {
    DatePart(isoTimestamp) + "_" + Slug(topic)
  }

  /** The directory `createOutputDir` creates and returns. */
  function OutputDir(baseDir: string, isoTimestamp: string, topic: string): string {
    PathJoin(baseDir, DirName(isoTimestamp, topic))
  }

  /** `createOutputDir(baseDir, topic)`, with the clock's ISO reading passed
      in: creates the directory and returns its path. */
  method CreateOutputDir(fs: FileSystem, baseDir: string, isoTimestamp: string, topic: string)
    returns (outputDir: string)
    modifies fs
    ensures outputDir == OutputDir(baseDir, isoTimestamp, topic)
    ensures fs.dirs == old(fs.dirs) + {outputDir} && fs.files == old(fs.files)
  {
    var dirName := DatePart(isoTimestamp) + "_" + Slug(topic);
    outputDir := PathJoin(baseDir, dirName);
    fs.MakeDirectory(outputDir);
  }

  /** For a timestamp `YYYY-MM-DDThh:mm:ss.sssZ` the name is the calendar
      date, an underscore and the slug. */
  lemma DirNameOfIsoTimestamp(isoTimestamp: string, topic: string)
    requires |isoTimestamp| > 10 && isoTimestamp[10] == 'T' && 'T' !in isoTimestamp[..10]
    ensures DirName(isoTimestamp, topic) == isoTimestamp[..10] + "_" + Slug(topic)
  {
    DatePartOfIsoTimestamp(isoTimestamp);
  }

  lemma DatePartOfIsoTimestamp(isoTimestamp: string)
    requires |isoTimestamp| > 10 && isoTimestamp[10] == 'T' && 'T' !in isoTimestamp[..10]
    ensures DatePart(isoTimestamp) == isoTimestamp[..10]
  {
    SplitFirst(isoTimestamp, 'T');
    assert isoTimestamp == isoTimestamp[..10] + ['T'] + isoTimestamp[11..];
    IndexOfAfter(isoTimestamp[..10], 'T', isoTimestamp[11..]);
  }

  /** The created directory sits directly in the base directory, under its
      date-and-slug name. */
  lemma OutputDirName(baseDir: string, isoTimestamp: string, topic: string)
    requires '/' !in DatePart(isoTimestamp)
    ensures BaseName(OutputDir(baseDir, isoTimestamp, topic)) == DirName(isoTimestamp, topic)
  {
    var slug := Slug(topic);
    SlugShape(topic);
    assert forall i :: 0 <= i < |slug| ==> slug[i] != '/';
    BaseNameOfJoin(baseDir, DirName(isoTimestamp, topic));
  }

  // ------------------------------------------------------------------ filename

  /** The characters `/[^a-z0-9-]/gi` leaves alone. */
  predicate IsFileNameChar(c: char) { IsLowerAscii(c) || IsUpperAscii(c) || IsDigit(c) || c == '-' }

  /** What `/[^a-z0-9-]/gi` makes of one character. */
  function SanitizeChar(c: char): char {
    if IsFileNameChar(c) then c else '-'
  }

  /** `slideType.replace(/[^a-z0-9-]/gi, '-')`: each other character becomes
      one hyphen; runs are not collapsed. */
  function SanitizeType(s: string): (r: string)
    ensures |r| == |s|
  {
    seq(|s|, i requires 0 <= i < |s| => SanitizeChar(s[i]))
  }

  /** Character `i` of the sanitised name is character `i` of the name,
      or a hyphen where that one is outside [A-Za-z0-9-]. */
  lemma SanitizeTypeAt(s: string)
    ensures forall i :: 0 <= i < |s| ==> SanitizeType(s)[i] == SanitizeChar(s[i])
  {
  }

  /** Sanitising twice changes nothing more, and a name that needs no
      change is left alone. */
  lemma SanitizeTypeIdempotent(s: string)
    ensures SanitizeType(SanitizeType(s)) == SanitizeType(s)
  {
    SanitizeTypeAt(s);
    SanitizeTypeAt(SanitizeType(s));
  }

  lemma SanitizeTypeNoop(s: string)
    requires forall i :: 0 <= i < |s| ==> IsFileNameChar(s[i])
    ensures SanitizeType(s) == s
  {
    SanitizeTypeAt(s);
  }

  /** Every slide type's name is kept as it is. */
  lemma SanitizeSlideTypeName(t: SlideType)
    ensures SanitizeType(SlideTypeName(t)) == SlideTypeName(t)
  {
    var n := SlideTypeName(t);
    assert forall i :: 0 <= i < |n| ==> IsLowerAscii(n[i]) || n[i] == '-';
    SanitizeTypeNoop(n);
  }

  /** `generateSlideFilename(index, slideType)`. */
  function SlideFilename(index: int, slideType: string): string {
    PadStart(IntToString(index + 1), 2, '0') + ("-" + SanitizeType(slideType) + ".png")
  }

  /** A leading zero does not change a decimal value. */
  lemma {:induction false} DecimalValueLeadingZero(s: string)
    requires forall i :: 0 <= i < |s| ==> IsDigit(s[i])
    ensures DecimalValue("0" + s) == DecimalValue(s)
  {
    if s != [] {
      assert ("0" + s)[..|s|] == "0" + s[..|s| - 1];
      DecimalValueLeadingZero(s[..|s| - 1]);
    }
  }

  /** The padded number: at least two digits whose value is `n`. */
  lemma PaddedNumber(n: nat)
    ensures var p := PadStart(NatToString(n), 2, '0');
      && |p| >= 2
      && (forall i :: 0 <= i < |p| ==> IsDigit(p[i]))
      && DecimalValue(p) == n
  {
    var d := NatToString(n);
    DecimalRoundTrip(n);
    if |d| < 2 {
      assert PadStart(d, 2, '0') == "0" + d;
      DecimalValueLeadingZero(d);
    }
  }

  /** A slide's file name ends in ".png", so its last character is `g`. */
  lemma SlideFilenameLast(index: int, slideType: string)
    ensures var r := SlideFilename(index, slideType); EndsWith(r, ".png") && r[|r| - 1] == 'g'
  {
    var p := PadStart(IntToString(index + 1), 2, '0');
    var rest := "-" + SanitizeType(slideType) + ".png";
    var r := SlideFilename(index, slideType);
    assert r == p + rest;
    assert rest[|rest| - 4..] == ".png";
    assert r[|r| - 4..] == rest[|rest| - 4..];
  }

  /** For a non-negative index the name is a number of at least two digits
      whose value is `index + 1`, a hyphen, the sanitised type and `.png`. */
  lemma SlideFilenameNumber(index: int, slideType: string)
    requires index >= 0
    ensures var r := SlideFilename(index, slideType);
      var k := |r| - |slideType| - 5;
      && k >= 2
      && (forall i :: 0 <= i < k ==> IsDigit(r[i]))
      && DecimalValue(r[..k]) == index + 1
      && r[k..] == "-" + SanitizeType(slideType) + ".png"
  {
    var p := PadStart(NatToString(index + 1), 2, '0');
    var rest := "-" + SanitizeType(slideType) + ".png";
    PaddedNumber(index + 1);
    assert SlideFilename(index, slideType) == p + rest;
    NumberThenRest(p, rest);
  }

  /** Slides with different non-negative indices never share a file name:
      the number before the first hyphen is the index plus one. */
  lemma SlideFilenameIndex(i: int, j: int, a: string, b: string)
    requires i >= 0 && j >= 0 && SlideFilename(i, a) == SlideFilename(j, b)
    ensures i == j
  {
    var r := SlideFilename(i, a);
    SlideFilenameNumber(i, a);
    SlideFilenameNumber(j, b);
    var ki, kj := |r| - |a| - 5, |r| - |b| - 5;
    assert r[ki] == r[ki..][0] == '-';
    assert r[kj] == r[kj..][0] == '-';
    HyphenEndsDigits(r, ki, kj);
    HyphenEndsDigits(r, kj, ki);
    assert r[..ki] == r[..kj];
  }

  /** A hyphen cannot stand inside a run of leading digits. */
  lemma HyphenEndsDigits(r: string, k: nat, m: nat)
    requires k < |r| && r[k] == '-'
    requires m <= |r| && forall i :: 0 <= i < m ==> IsDigit(r[i])
    ensures m <= k
  {
  }

  /** A digit string followed by anything splits back at the digits' end. */
  lemma NumberThenRest(p: string, rest: string)
    requires forall i :: 0 <= i < |p| ==> IsDigit(p[i])
    ensures var r := p + rest;
      && (forall i :: 0 <= i < |p| ==> IsDigit(r[i]))
      && r[..|p|] == p && r[|p|..] == rest
  {
    var r := p + rest;
    assert forall i :: 0 <= i < |p| ==> r[i] == p[i];
  }

  /** Padding never truncates: slide 100 is numbered "100". */
  lemma SlideFilenameHundred(slideType: string)
    ensures SlideFilename(99, slideType)[..4] == "100-"
  {
    assert NatToString(100) == NatToString(10) + ['0'];
    assert NatToString(10) == NatToString(1) + ['0'];
    assert IntToString(100) == "100";
  }

  /** The number of a two-digit prefix, read digit by digit. */
  lemma TwoDigitValue(p: string)
    requires |p| == 2 && IsDigit(p[0]) && IsDigit(p[1])
    ensures DecimalValue(p) == 10 * DigitValue(p[0]) + DigitValue(p[1])
  {
    var q := p[..1];
    assert q == [p[0]];
    assert q[..0] == [];
    assert DecimalValue(q) == 10 * DecimalValue([]) + DigitValue(p[0]);
    assert DecimalValue(p) == 10 * DecimalValue(q) + DigitValue(p[1]);
  }

  /** The two-digit prefix of slides 1 to 99. */
  lemma SmallPrefix(index: int, slideType: string)
    requires 0 <= index <= 98
    ensures var r := SlideFilename(index, slideType);
      |r| >= 3 && IsDigit(r[0]) && IsDigit(r[1]) && r[2] == '-'
      && 10 * DigitValue(r[0]) + DigitValue(r[1]) == index + 1
  {
    var r := SlideFilename(index, slideType);
    SlideFilenameNumber(index, slideType);
    ShortNumber(index + 1);
    assert |r| - |slideType| - 5 == 2;
    assert r[2] == r[2..][0];
    var q := r[..2];
    assert q[0] == r[0] && q[1] == r[1];
    TwoDigitValue(q);
  }

  /** A number below a hundred has at most two digits. */
  lemma ShortNumber(n: nat)
    requires n < 100
    ensures |NatToString(n)| <= 2
  {
    if n >= 10 {
      assert NatToString(n) == NatToString(n / 10) + [DigitChar(n % 10)];
    }
  }

  /** With fewer than a hundred slides, sorting the file names by code points
      puts them in slide order. */
  lemma SlideFilenamesSortInOrder(i: int, j: int, a: string, b: string)
    requires 0 <= i < j <= 98
    ensures LexLe(SlideFilename(i, a), SlideFilename(j, b))
    ensures !LexLe(SlideFilename(j, b), SlideFilename(i, a))
  {
    SmallPrefix(i, a);
    SmallPrefix(j, b);
    TwoDigitPrefixOrder(SlideFilename(i, a), SlideFilename(j, b));
  }

  /** Two strings that open with two digits are in code-point order when the
      first two-digit number is the smaller. */
  lemma TwoDigitPrefixOrder(r: string, s: string)
    requires |r| >= 2 && |s| >= 2
    requires IsDigit(r[0]) && IsDigit(r[1]) && IsDigit(s[0]) && IsDigit(s[1])
    requires 10 * DigitValue(r[0]) + DigitValue(r[1]) < 10 * DigitValue(s[0]) + DigitValue(s[1])
    ensures LexLe(r, s) && !LexLe(s, r)
  {
    if r[0] == s[0] {
      assert r[..1] == s[..1];
      LexLeAtFirstDifference(r, s, 1);
    } else {
      LexLeAtFirstDifference(r, s, 0);
    }
  }

  /** From the hundredth slide on the order breaks: slide 100's file sorts
      before slide 11's. */
  lemma SlideFilenameHundredSortsEarly(a: string, b: string)
    ensures LexLe(SlideFilename(99, a), SlideFilename(10, b))
    ensures !LexLe(SlideFilename(10, b), SlideFilename(99, a))
  {
    var r, s := SlideFilename(99, a), SlideFilename(10, b);
    SlideFilenameHundred(a);
    assert NatToString(11) == NatToString(1) + ['1'];
    assert s[..3] == "11-";
    assert r[..1] == s[..1];
    LexLeAtFirstDifference(r, s, 1);
  }
}
