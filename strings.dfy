/** The JavaScript string operations the modelled code relies on, over
    `string` (a sequence of Unicode code points): decimal conversion (`String(n)`),
    `padStart`, `startsWith`/`endsWith`/`includes`, `toLowerCase` (ASCII and the
    German umlauts only), `trim`, `split`, `join` and `replace`. */
module Strings {

  // ---------------------------------------------------------------- characters

  predicate IsDigit(c: char) { '0' <= c <= '9' }
  predicate IsLowerAscii(c: char) { 'a' <= c <= 'z' }
  predicate IsUpperAscii(c: char) { 'A' <= c <= 'Z' }

  /** The characters of the class [a-z0-9]. */
  predicate IsLowerAlnum(c: char) { IsLowerAscii(c) || IsDigit(c) }

  /** The capital German umlauts and capital sharp s. */
  predicate IsUpperUmlaut(c: char) { c == 'Ä' || c == 'Ö' || c == 'Ü' || c == 'ẞ' }

  /** `toLowerCase` on one character: ASCII letters, and the upper-case German
      umlauts and capital sharp s, which map to ä, ö, ü and ß. */
  function LowerChar(c: char): (r: char)
    ensures IsUpperAscii(c) ==> IsLowerAscii(r)
    ensures !IsUpperAscii(c) && !IsUpperUmlaut(c) ==> r == c
  {
    if IsUpperAscii(c) then (c as int + 32) as char
    else if c == 'Ä' then 'ä'
    else if c == 'Ö' then 'ö'
    else if c == 'Ü' then 'ü'
    else if c == 'ẞ' then 'ß'
    else c
  }

  function Lower(s: string): (r: string)
    ensures |r| == |s|
    ensures forall i :: 0 <= i < |s| ==> r[i] == LowerChar(s[i])
    ensures forall i :: 0 <= i < |r| ==> !IsUpperAscii(r[i])
  {
    seq(|s|, i requires 0 <= i < |s| => LowerChar(s[i]))
  }

  /** The characters `String.prototype.trim` removes: the white space and
      line terminators of ECMAScript, that is tab to carriage return, the
      space separators of Unicode (category Zs), the line and paragraph
      separators and the byte order mark. */
  predicate IsWhitespace(c: char) {
    if c < '\U{80}' then c == ' ' || '\t' <= c <= '\r' else IsWideWhitespace(c)
  }

  /** The white space outside ASCII. */
  predicate IsWideWhitespace(c: char) {
    || c == '\U{A0}' || c == '\U{1680}' || '\U{2000}' <= c <= '\U{200A}' || '\U{2028}' <= c <= '\U{2029}'
    || c == '\U{202F}' || c == '\U{205F}' || c == '\U{3000}' || c == '\U{FEFF}'
  }

  // ----------------------------------------------------------- decimal numbers

  function DigitChar(d: nat): (c: char)
    requires d < 10
    ensures IsDigit(c)
  {
    ('0' as int + d) as char
  }

  function DigitValue(c: char): (d: nat)
    requires IsDigit(c)
    ensures d < 10
  {
    c as int - '0' as int
  }

  /** `String(n)` for a non-negative integer: its decimal digits, without
      leading zeros. */
  function NatToString(n: nat): (r: string)
    ensures 1 <= |r|
    ensures forall i :: 0 <= i < |r| ==> IsDigit(r[i])
    ensures r[0] == '0' ==> n == 0
    ensures n < 10 <==> |r| == 1
  {
    if n < 10 then [DigitChar(n)] else NatToString(n / 10) + [DigitChar(n % 10)]
  }

  /** The value of a string of decimal digits (the reference the conversion is
      checked against). */
  function DecimalValue(s: string): nat
    requires forall i :: 0 <= i < |s| ==> IsDigit(s[i])
  {
    if s == [] then 0 else 10 * DecimalValue(s[..|s| - 1]) + DigitValue(s[|s| - 1])
  }

  lemma {:induction false} DecimalRoundTrip(n: nat)
    ensures DecimalValue(NatToString(n)) == n
  {
    if n >= 10 {
      var r := NatToString(n);
      assert r[..|r| - 1] == NatToString(n / 10);
      DecimalRoundTrip(n / 10);
    }
  }

  /** Different numbers print differently. */
  lemma NatToStringInjective(m: nat, n: nat)
    requires NatToString(m) == NatToString(n)
    ensures m == n
  {
    DecimalRoundTrip(m);
    DecimalRoundTrip(n);
  }

  /** `String(i)` for any integer. */
  function IntToString(i: int): (r: string)
    ensures i >= 0 ==> r == NatToString(i)
    ensures i < 0 ==> r == "-" + NatToString(-i)
  {
    if i >= 0 then NatToString(i) else "-" + NatToString(-i)
  }

  function Repeat(c: char, n: nat): (r: string)
    ensures |r| == n
    ensures forall i :: 0 <= i < n ==> r[i] == c
  {
    if n == 0 then [] else [c] + Repeat(c, n - 1)
  }

  /** `s.padStart(width, c)`: fill with `c` on the left up to `width`
      characters; a string already that long is returned unchanged. */
  function PadStart(s: string, width: nat, c: char): (r: string)
    ensures |r| == if |s| >= width then |s| else width
    ensures r[|r| - |s|..] == s
    ensures forall i :: 0 <= i < |r| - |s| ==> r[i] == c
  {
    if |s| >= width then s else Repeat(c, width - |s|) + s
  }

  // ------------------------------------------------------------ prefix, infix

  predicate StartsWith(s: string, p: string) {
    |p| <= |s| && s[..|p|] == p
  }

  predicate EndsWith(s: string, p: string) {
    |p| <= |s| && s[|s| - |p|..] == p
  }

  /** `s.includes(t)`. */
  predicate Contains(s: string, t: string)
    decreases |s|
  {
    StartsWith(s, t) || (|s| > 0 && Contains(s[1..], t))
  }

  lemma {:induction false} ContainsWitness(s: string, t: string, k: nat)
    requires k + |t| <= |s| && s[k..k + |t|] == t
    ensures Contains(s, t)
    decreases k
  {
    if k > 0 {
      assert s[1..][k - 1..k - 1 + |t|] == t;
      ContainsWitness(s[1..], t, k - 1);
    }
  }

  lemma {:induction false} ContainsHasWitness(s: string, t: string) returns (k: nat)
    requires Contains(s, t)
    ensures k + |t| <= |s| && s[k..k + |t|] == t
    decreases |s|
  {
    if StartsWith(s, t) {
      k := 0;
    } else {
      var k' := ContainsHasWitness(s[1..], t);
      k := k' + 1;
      assert s[k..k + |t|] == s[1..][k'..k' + |t|];
    }
  }

  /** A part placed between any two strings is contained in the whole. */
  lemma ContainsMiddle(a: string, t: string, b: string)
    ensures Contains(a + t + b, t)
  {
    var s := a + t + b;
    assert s[|a|..|a| + |t|] == t;
    ContainsWitness(s, t, |a|);
  }

  /** Containment survives putting more text around the string. */
  lemma ContainsWithin(a: string, s: string, b: string, t: string)
    requires Contains(s, t)
    ensures Contains(a + s + b, t)
  {
    var k := ContainsHasWitness(s, t);
    var w := a + s + b;
    assert w[|a| + k..|a| + k + |t|] == s[k..k + |t|];
    ContainsWitness(w, t, |a| + k);
  }

  /** Containment is transitive. */
  lemma ContainsTrans(s: string, t: string, u: string)
    requires Contains(s, t) && Contains(t, u)
    ensures Contains(s, u)
  {
    var k := ContainsHasWitness(s, t);
    var j := ContainsHasWitness(t, u);
    SliceOfSlice(s, k, |t|, j, |u|);
    ContainsWitness(s, u, k + j);
  }

  lemma SliceOfSlice(s: string, k: nat, n: nat, j: nat, m: nat)
    requires k + n <= |s| && j + m <= n
    ensures s[k..k + n][j..j + m] == s[k + j..k + j + m]
  {
    var a, b := s[k..k + n][j..j + m], s[k + j..k + j + m];
    forall x | 0 <= x < m ensures a[x] == b[x] {
      assert a[x] == s[k..k + n][j + x];
    }
  }

  /** A string cannot contain a longer one. */
  lemma ContainsNotLonger(s: string, t: string)
    requires Contains(s, t)
    ensures |t| <= |s|
  {
    var k := ContainsHasWitness(s, t);
  }

  /** A string cannot contain a character it does not have. */
  lemma ContainsChar(s: string, t: string, i: nat)
    requires Contains(s, t) && i < |t|
    ensures t[i] in s
  {
    var k := ContainsHasWitness(s, t);
    assert s[k + i] == t[i];
  }

  // ------------------------------------------------------------------- trimming

  function TrimStart(s: string): (r: string)
    ensures |r| <= |s| && r == s[|s| - |r|..]
    ensures r != [] ==> !IsWhitespace(r[0])
    ensures forall i :: 0 <= i < |s| - |r| ==> IsWhitespace(s[i])
  {
    if s != [] && IsWhitespace(s[0]) then TrimStart(s[1..]) else s
  }

  function TrimEnd(s: string): (r: string)
    ensures |r| <= |s| && r == s[..|r|]
    ensures r != [] ==> !IsWhitespace(r[|r| - 1])
    ensures forall i :: |r| <= i < |s| ==> IsWhitespace(s[i])
  {
    if s != [] && IsWhitespace(s[|s| - 1]) then TrimEnd(s[..|s| - 1]) else s
  }

  /** `s.trim()`: the largest infix with no white space at either end. */
  function Trim(s: string): (r: string)
    ensures |r| <= |s|
    ensures r != [] ==> !IsWhitespace(r[0]) && !IsWhitespace(r[|r| - 1])
  {
    TrimEnd(TrimStart(s))
  }

  /** A string with no white space at either end is its own trim. */
  lemma TrimNoop(s: string)
    requires s != [] && !IsWhitespace(s[0]) && !IsWhitespace(s[|s| - 1])
    ensures Trim(s) == s
  {
  }

  /** A template literal that opens and closes with a line break trims to
      its inner text when that text has no white space at its ends. */
  lemma TrimWrapped(s: string)
    requires s != [] && !IsWhitespace(s[0]) && !IsWhitespace(s[|s| - 1])
    ensures Trim("\n" + s + "\n") == s
  {
    var w := "\n" + s + "\n";
    assert w[1..] == s + "\n";
    assert TrimStart(w) == s + "\n";
    assert (s + "\n")[..|s|] == s;
  }

  /** Trimming leaves nothing exactly when the string is all white space. */
  lemma TrimEmpty(s: string)
    ensures Trim(s) == [] <==> forall i :: 0 <= i < |s| ==> IsWhitespace(s[i])
  {
    var t := TrimStart(s);
    if t != [] {
      assert t[0] == s[|s| - |t|];
      assert TrimEnd(t)[0] == t[0];
    }
  }

  /** A part of the middle of a string that begins and ends with other
      characters than white space is still there after trimming. */
  lemma TrimKeepsContained(a: string, s: string, b: string, t: string)
    requires Contains(s, t) && t != [] && !IsWhitespace(t[0]) && !IsWhitespace(t[|t| - 1])
    ensures Contains(Trim(a + s + b), t)
  {
    var k := ContainsHasWitness(s, t);
    TrimKeepsSlice(a, s, b, k, t);
  }

  lemma TrimKeepsSlice(a: string, s: string, b: string, k: nat, t: string)
    requires 0 < |t| && k + |t| <= |s| && s[k..k + |t|] == t
    requires !IsWhitespace(t[0]) && !IsWhitespace(t[|t| - 1])
    ensures Contains(Trim(a + s + b), t)
  {
    SliceOfMiddle(a, s, b, k, |t|);
    TrimKeepsInner(a + s + b, |a| + k, t);
  }

  lemma SliceOfMiddle(a: string, s: string, b: string, k: nat, n: nat)
    requires k + n <= |s|
    ensures (a + s + b)[|a| + k..|a| + k + n] == s[k..k + n]
  {
    var w := a + s + b;
    assert forall j :: |a| + k <= j < |a| + k + n ==> w[j] == s[j - |a|];
  }

  /** Trimming the start stops at or before the first other character ... */
  lemma TrimStartStops(s: string, k: nat) returns (i: nat)
    requires k < |s| && !IsWhitespace(s[k])
    ensures i <= k && TrimStart(s) == s[i..]
  {
    i := |s| - |TrimStart(s)|;
  }

  /** ... and trimming the end after the last one. */
  lemma TrimEndStops(s: string, k: nat) returns (m: nat)
    requires k < |s| && !IsWhitespace(s[k])
    ensures k < m <= |s| && TrimEnd(s) == s[..m]
  {
    m := |TrimEnd(s)|;
  }

  /** Trimming only removes white space at the ends: a part that begins and
      ends with other characters survives it. */
  lemma {:induction false} TrimKeepsInner(s: string, k: nat, t: string)
    requires 0 < |t| && k + |t| <= |s| && s[k..k + |t|] == t
    requires !IsWhitespace(t[0]) && !IsWhitespace(t[|t| - 1])
    ensures Contains(Trim(s), t)
  {
    SliceEnds(s, k, t);
    var i, m := TrimBounds(s, k, |t|);
    InfixContains(s, i, m, k, t);
  }

  /** A part lying inside an infix is contained in that infix. */
  lemma InfixContains(s: string, i: nat, m: nat, k: nat, t: string)
    requires i <= k && k + |t| <= i + m <= |s| && s[k..k + |t|] == t
    ensures Contains(s[i..][..m], t)
  {
    InfixOfInfix(s, i, m, k, |t|);
    ContainsWitness(s[i..][..m], t, k - i);
  }

  /** The trimmed string is an infix reaching from at or before the first
      kept character to at or after the last. */
  lemma TrimBounds(s: string, k: nat, n: nat) returns (i: nat, m: nat)
    requires 0 < n && k + n <= |s| && !IsWhitespace(s[k]) && !IsWhitespace(s[k + n - 1])
    ensures i <= k && k + n <= i + m <= |s| && Trim(s) == s[i..][..m]
  {
    i := TrimStartStops(s, k);
    m := TrimEndOfSuffix(s, i, k + n - 1);
  }

  /** Trimming the end of a suffix stops after the last other character. */
  lemma TrimEndOfSuffix(s: string, i: nat, j: nat) returns (m: nat)
    requires i <= j < |s| && !IsWhitespace(s[j])
    ensures j < i + m <= |s| && TrimEnd(s[i..]) == s[i..][..m]
  {
    assert s[i..][j - i] == s[j];
    m := TrimEndStops(s[i..], j - i);
  }

  lemma SliceEnds(s: string, k: nat, t: string)
    requires 0 < |t| && k + |t| <= |s| && s[k..k + |t|] == t
    ensures s[k] == t[0] && s[k + |t| - 1] == t[|t| - 1]
  {
    assert s[k..k + |t|][0] == s[k];
  }

  lemma InfixOfInfix(s: string, i: nat, m: nat, k: nat, n: nat)
    requires i <= k && k + n <= i + m <= |s|
    ensures s[i..][..m][k - i..k - i + n] == s[k..k + n]
  {
  }

  // ----------------------------------------------------------- split and join

  /** `parts.join(sep)`. */
  function Join(parts: seq<string>, sep: string): (r: string)
    ensures |parts| == 1 ==> r == parts[0]
  {
    if parts == [] then ""
    else if |parts| == 1 then parts[0]
    else parts[0] + sep + Join(parts[1..], sep)
  }

  /** Every part appears in the joined string. */
  lemma {:induction false} JoinContainsPart(parts: seq<string>, sep: string, i: nat)
    requires i < |parts|
    ensures Contains(Join(parts, sep), parts[i])
  {
    if |parts| == 1 {
      ContainsMiddle("", parts[0], "");
      assert "" + parts[0] + "" == parts[0];
    } else if i == 0 {
      ContainsMiddle("", parts[0], sep + Join(parts[1..], sep));
      assert "" + parts[0] + (sep + Join(parts[1..], sep)) == Join(parts, sep);
    } else {
      JoinContainsPart(parts[1..], sep, i - 1);
      ContainsWithin(parts[0] + sep, Join(parts[1..], sep), "", parts[i]);
      assert parts[0] + sep + Join(parts[1..], sep) + "" == Join(parts, sep);
    }
  }

  /** Neighbouring parts appear in the joined string next to each other,
      with the separator between them. */
  lemma {:induction false} JoinContainsAdjacent(parts: seq<string>, sep: string, i: nat)
    requires i + 1 < |parts|
    ensures Contains(Join(parts, sep), parts[i] + sep + parts[i + 1])
  {
    var tail := Join(parts[1..], sep);
    assert Join(parts, sep) == parts[0] + sep + tail;
    if i == 0 {
      JoinStartsWith(parts[1..], sep);
      var rest := tail[|parts[1]|..];
      assert tail == parts[1] + rest;
      assert Join(parts, sep) == "" + (parts[0] + sep + parts[1]) + rest;
      ContainsMiddle("", parts[0] + sep + parts[1], rest);
    } else {
      JoinContainsAdjacent(parts[1..], sep, i - 1);
      ContainsWithin(parts[0] + sep, tail, "", parts[i] + sep + parts[i + 1]);
      assert parts[0] + sep + tail + "" == Join(parts, sep);
    }
  }

  /** The joined string begins with the first part ... */
  lemma JoinStartsWith(parts: seq<string>, sep: string)
    requires parts != []
    ensures StartsWith(Join(parts, sep), parts[0])
  {
    if |parts| > 1 {
      assert Join(parts, sep) == parts[0] + (sep + Join(parts[1..], sep));
    }
  }

  /** ... and ends with the last one. */
  lemma {:induction false} JoinEndsWith(parts: seq<string>, sep: string)
    requires parts != []
    ensures EndsWith(Join(parts, sep), parts[|parts| - 1])
  {
    if |parts| > 1 {
      JoinEndsWith(parts[1..], sep);
      var tail := Join(parts[1..], sep);
      assert Join(parts, sep) == (parts[0] + sep) + tail;
    }
  }

  /** `s.split(c)` for a one-character separator: the pieces between the
      occurrences of `c`, always at least one. */
  function Split(s: string, c: char): (r: seq<string>)
    ensures |r| >= 1
    ensures forall k :: 0 <= k < |r| ==> c !in r[k]
  {
    if s == [] then [""]
    else
      var rest := Split(s[1..], c);
      if s[0] == c then [""] + rest
      else [[s[0]] + rest[0]] + rest[1..]
  }

  /** Joining the pieces with the separator gives the string back. */
  lemma {:induction false} SplitJoin(s: string, c: char)
    ensures Join(Split(s, c), [c]) == s
  {
    if s != [] {
      var rest := Split(s[1..], c);
      SplitJoin(s[1..], c);
      if s[0] == c {
        assert Split(s, c) == [""] + rest;
        assert Split(s, c)[1..] == rest;
      } else {
        var r := Split(s, c);
        assert r[0] == [s[0]] + rest[0];
        if |rest| == 1 {
          assert r == [[s[0]] + rest[0]];
        } else {
          assert r[1..] == rest[1..];
          assert Join(rest, [c]) == rest[0] + [c] + Join(rest[1..], [c]);
        }
      }
    }
  }

  /** Splitting around a separator splits each side. */
  lemma {:induction false} SplitConcat(a: string, c: char, b: string)
    ensures Split(a + [c] + b, c) == Split(a, c) + Split(b, c)
  {
    var s := a + [c] + b;
    if a == [] {
      assert s[0] == c && s[1..] == b;
    } else {
      var t := a[1..] + [c] + b;
      assert s[0] == a[0] && s[1..] == t;
      SplitConcat(a[1..], c, b);
      var left := Split(a[1..], c);
      if a[0] != c {
        assert Split(t, c)[0] == left[0];
        assert Split(t, c)[1..] == left[1..] + Split(b, c);
      }
    }
  }

  /** The first piece of a split is everything before the first separator. */
  lemma {:induction false} SplitFirst(s: string, c: char)
    ensures Split(s, c)[0] == (if c in s then s[..IndexOf(s, c)] else s)
  {
    if s != [] {
      SplitFirst(s[1..], c);
    }
  }

  function IndexOf(s: string, c: char): (k: nat)
    requires c in s
    ensures k < |s| && s[k] == c && c !in s[..k]
  {
    if s[0] == c then 0 else 1 + IndexOf(s[1..], c)
  }

  /** The last piece of `s.split(c)` (what `pop()` returns). */
  function LastSegment(s: string, c: char): string {
    var parts := Split(s, c);
    parts[|parts| - 1]
  }

  /** A string with no separator splits to itself. */
  lemma {:induction false} SplitNoSeparator(s: string, c: char)
    requires c !in s
    ensures Split(s, c) == [s]
  {
    if s != [] {
      SplitNoSeparator(s[1..], c);
      assert [s[0]] + s[1..] == s;
    }
  }

  /** A string holding the separator splits into at least two pieces. */
  lemma {:induction false} SplitSeveral(s: string, c: char)
    requires c in s
    ensures |Split(s, c)| >= 2
  {
    if s[0] != c {
      assert c in s[1..];
      SplitSeveral(s[1..], c);
    }
  }

  /** Splitting `a + [c] + b` where `b` has no separator: its last piece is `b`. */
  lemma {:induction false} LastSegmentAfterSeparator(a: string, c: char, b: string)
    requires c !in b
    ensures LastSegment(a + [c] + b, c) == b
  {
    if a == [] {
      SplitNoSeparator(b, c);
      assert (a + [c] + b)[1..] == b;
    } else {
      var t := a[1..] + [c] + b;
      assert (a + [c] + b)[1..] == t;
      LastSegmentAfterSeparator(a[1..], c, b);
      assert c in t by { assert t[|a| - 1] == c; }
      SplitSeveral(t, c);
    }
  }

  // -------------------------------------------------------------- replacement

  /** `s.replace(pat, rep)` with a string pattern: only the first occurrence. */
  function ReplaceFirst(s: string, pat: string, rep: string): (r: string)
    requires pat != []
    decreases |s|
  {
    if |s| < |pat| then s
    else if s[..|pat|] == pat then rep + s[|pat|..]
    else [s[0]] + ReplaceFirst(s[1..], pat, rep)
  }

  /** Replacing a leading occurrence strips it. */
  lemma ReplaceFirstPrefix(p: string, rest: string)
    requires p != []
    ensures ReplaceFirst(p + rest, p, "") == rest
  {
    assert (p + rest)[..|p|] == p;
    assert "" + (p + rest)[|p|..] == rest;
  }

  /** `s.replace(/x/g, y)` for one character: every occurrence. */
  function ReplaceAllChar(s: string, x: char, y: char): (r: string)
    ensures |r| == |s|
    ensures forall i :: 0 <= i < |s| ==> r[i] == if s[i] == x then y else s[i]
  {
    seq(|s|, i requires 0 <= i < |s| => if s[i] == x then y else s[i])
  }

  // ------------------------------------------------------------------ ordering

  /** `a` comes no later than `b` in code-point order. On text inside the
      Basic Multilingual Plane this is the UTF-16 order of
      `Array.prototype.sort()` without a comparator. */
  predicate LexLe(a: string, b: string) {
    a == [] || (b != [] && (a[0] < b[0] || (a[0] == b[0] && LexLe(a[1..], b[1..]))))
  }

  lemma {:induction false} LexLeTotal(a: string, b: string)
    ensures LexLe(a, b) || LexLe(b, a)
  {
    if a != [] && b != [] && a[0] == b[0] {
      LexLeTotal(a[1..], b[1..]);
    }
  }

  lemma {:induction false} LexLeTransitive(a: string, b: string, c: string)
    requires LexLe(a, b) && LexLe(b, c)
    ensures LexLe(a, c)
  {
    if a != [] && a[0] == b[0] && b[0] == c[0] {
      LexLeTransitive(a[1..], b[1..], c[1..]);
    }
  }

  lemma {:induction false} LexLeAntisymmetric(a: string, b: string)
    requires LexLe(a, b) && LexLe(b, a)
    ensures a == b
  {
    if a != [] {
      LexLeAntisymmetric(a[1..], b[1..]);
      assert a == [a[0]] + a[1..];
      assert b == [b[0]] + b[1..];
    }
  }

  /** Strings that first differ at position `k` are ordered by that character. */
  lemma {:induction false} LexLeAtFirstDifference(a: string, b: string, k: nat)
    requires k < |a| && k < |b| && a[..k] == b[..k] && a[k] < b[k]
    ensures LexLe(a, b) && !LexLe(b, a)
  {
    if k > 0 {
      assert a[0] == a[..k][0];
      assert b[0] == b[..k][0];
      assert a[1..][..k - 1] == a[..k][1..];
      assert b[1..][..k - 1] == b[..k][1..];
      LexLeAtFirstDifference(a[1..], b[1..], k - 1);
    }
  }
}
