/** Bytes and their standard base64 text (RFC 4648, section 4, with `=`
    padding), as `Buffer.toString('base64')` produces it, with a decoder
    that takes the text back. */
module Base64 {
  import opened Wrappers

  newtype byte = x: int | 0 <= x < 256

  /** The 64 characters of the alphabet, in order of their values. */
  predicate IsBase64Char(c: char) {
    'A' <= c <= 'Z' || 'a' <= c <= 'z' || '0' <= c <= '9' || c == '+' || c == '/'
  }

  function CharOf(d: nat): (c: char)
    requires d < 64
    ensures IsBase64Char(c)
  {
    if d < 26 then ('A' as int + d) as char
    else if d < 52 then ('a' as int + (d - 26)) as char
    else if d < 62 then ('0' as int + (d - 52)) as char
    else if d == 62 then '+'
    else '/'
  }

  function ValueOf(c: char): (d: nat)
    requires IsBase64Char(c)
    ensures d < 64
  {
    if 'A' <= c <= 'Z' then c as int - 'A' as int
    else if 'a' <= c <= 'z' then c as int - 'a' as int + 26
    else if '0' <= c <= '9' then c as int - '0' as int + 52
    else if c == '+' then 62
    else 63
  }

  lemma ValueOfCharOf(d: nat)
    requires d < 64
    ensures ValueOf(CharOf(d)) == d
  {
  }

  /** One group of one, two or three bytes: four characters, padded with
      `=` when the group is short. */
  function EncodeGroup(g: seq<byte>): (r: string)
    requires 1 <= |g| <= 3
    ensures |r| == 4
    ensures forall i :: 0 <= i < 4 ==> if i <= |g| then IsBase64Char(r[i]) else r[i] == '='
  {
    var b0 := g[0] as nat;
    if |g| == 1 then
      [CharOf(b0 / 4), CharOf(b0 % 4 * 16), '=', '=']
    else
      var b1 := g[1] as nat;
      if |g| == 2 then
        [CharOf(b0 / 4), CharOf(b0 % 4 * 16 + b1 / 16), CharOf(b1 % 16 * 4), '=']
      else
        var b2 := g[2] as nat;
        [CharOf(b0 / 4), CharOf(b0 % 4 * 16 + b1 / 16), CharOf(b1 % 16 * 4 + b2 / 64), CharOf(b2 % 64)]
  }

  /** `buffer.toString('base64')`. */
  function Encode(b: seq<byte>): (r: string)
    ensures |r| == 4 * ((|b| + 2) / 3)
    decreases |b|
  {
    if b == [] then ""
    else if |b| <= 3 then EncodeGroup(b)
    else
      assert (|b| + 2) / 3 == (|b[3..]| + 2) / 3 + 1;
      EncodeGroup(b[..3]) + Encode(b[3..])
  }

  /** Every character is from the alphabet, except `=` in the last two places. */
  predicate PaddedAlphabet(r: string) {
    forall i :: 0 <= i < |r| ==> IsBase64Char(r[i]) || (r[i] == '=' && i >= |r| - 2)
  }

  /** Every character of the encoding is from the alphabet or padding, and
      padding comes only at the end. */
  lemma {:induction false} EncodeAlphabet(b: seq<byte>)
    ensures PaddedAlphabet(Encode(b))
    decreases |b|
  {
    if |b| > 3 {
      EncodeAlphabet(b[3..]);
      var r := Encode(b);
      var head, tail := EncodeGroup(b[..3]), Encode(b[3..]);
      assert r == head + tail;
      forall i | 0 <= i < |r| ensures IsBase64Char(r[i]) || (r[i] == '=' && i >= |r| - 2) {
        if i >= 4 {
          assert r[i] == tail[i - 4];
        } else {
          assert r[i] == head[i];
        }
      }
    }
  }

  /** The bytes of one group of four characters, if it is well formed. */
  function DecodeGroup(s: string, last: bool): (r: Option<seq<byte>>)
    requires |s| == 4
  {
    if !(IsBase64Char(s[0]) && IsBase64Char(s[1])) then None
    else
      var v0, v1 := ValueOf(s[0]), ValueOf(s[1]);
      if last && s[2] == '=' && s[3] == '=' then
        Some([(v0 * 4 + v1 / 16) as byte])
      else if !IsBase64Char(s[2]) then None
      else
        var v2 := ValueOf(s[2]);
        if last && s[3] == '=' then
          Some([(v0 * 4 + v1 / 16) as byte, (v1 % 16 * 16 + v2 / 4) as byte])
        else if !IsBase64Char(s[3]) then None
        else
          var v3 := ValueOf(s[3]);
          Some([(v0 * 4 + v1 / 16) as byte, (v1 % 16 * 16 + v2 / 4) as byte, (v2 % 4 * 64 + v3) as byte])
  }

  /** The bytes a base64 text stands for; nothing for a text that is not
      groups of four characters with padding only at the very end. */
  function Decode(s: string): (r: Option<seq<byte>>)
    decreases |s|
  {
    if s == "" then Some([])
    else if |s| < 4 then None
    else match DecodeGroup(s[..4], |s| == 4)
      case None => None
      case Some(g) =>
        match Decode(s[4..])
        case None => None
        case Some(rest) => Some(g + rest)
  }

  lemma DecodeEncodeGroup(g: seq<byte>, last: bool)
    requires 1 <= |g| <= 3
    requires |g| < 3 ==> last
    ensures DecodeGroup(EncodeGroup(g), last) == Some(g)
  {
    if |g| == 1 {
      DecodeEncodeOne(g[0]);
      assert g == [g[0]];
    } else if |g| == 2 {
      DecodeEncodeTwo(g[0], g[1]);
      assert g == [g[0], g[1]];
    } else {
      DecodeEncodeThree(g[0], g[1], g[2], last);
      assert g == [g[0], g[1], g[2]];
    }
  }

  // The three bytes come back from the four 6-bit values the encoder cuts
  // them into.

  lemma FirstByteBack(b0: nat, b1: nat)
    requires b0 < 256 && b1 < 256
    ensures (b0 / 4) * 4 + (b0 % 4 * 16 + b1 / 16) / 16 == b0
  {
    assert (b0 % 4 * 16 + b1 / 16) / 16 == b0 % 4;
  }

  lemma SecondByteBack(b0: nat, b1: nat, b2: nat)
    requires b0 < 256 && b1 < 256 && b2 < 256
    ensures (b0 % 4 * 16 + b1 / 16) % 16 * 16 + (b1 % 16 * 4 + b2 / 64) / 4 == b1
  {
    assert (b0 % 4 * 16 + b1 / 16) % 16 == b1 / 16;
    assert (b1 % 16 * 4 + b2 / 64) / 4 == b1 % 16;
  }

  lemma ThirdByteBack(b1: nat, b2: nat)
    requires b1 < 256 && b2 < 256
    ensures (b1 % 16 * 4 + b2 / 64) % 4 * 64 + b2 % 64 == b2
  {
    assert (b1 % 16 * 4 + b2 / 64) % 4 == b2 / 64;
  }

  lemma DecodeEncodeOne(x: byte)
    ensures DecodeGroup(EncodeGroup([x]), true) == Some([x])
  {
    var b0 := x as nat;
    var c := EncodeGroup([x]);
    assert c[0] == CharOf(b0 / 4) && c[1] == CharOf(b0 % 4 * 16);
    ValueOfCharOf(b0 / 4);
    ValueOfCharOf(b0 % 4 * 16);
    FirstByteBack(b0, 0);
  }

  lemma DecodeEncodeTwo(x: byte, y: byte)
    ensures DecodeGroup(EncodeGroup([x, y]), true) == Some([x, y])
  {
    var b0, b1 := x as nat, y as nat;
    var v0, v1, v2 := b0 / 4, b0 % 4 * 16 + b1 / 16, b1 % 16 * 4;
    var c := EncodeGroup([x, y]);
    assert c[0] == CharOf(v0) && c[1] == CharOf(v1) && c[2] == CharOf(v2) && c[3] == '=';
    ValueOfCharOf(v0);
    ValueOfCharOf(v1);
    ValueOfCharOf(v2);
    FirstByteBack(b0, b1);
    SecondByteBack(b0, b1, 0);
  }

  lemma DecodeEncodeThree(x: byte, y: byte, z: byte, last: bool)
    ensures DecodeGroup(EncodeGroup([x, y, z]), last) == Some([x, y, z])
  {
    var b0, b1, b2 := x as nat, y as nat, z as nat;
    var v0, v1, v2, v3 := b0 / 4, b0 % 4 * 16 + b1 / 16, b1 % 16 * 4 + b2 / 64, b2 % 64;
    var c := EncodeGroup([x, y, z]);
    assert c[0] == CharOf(v0) && c[1] == CharOf(v1) && c[2] == CharOf(v2) && c[3] == CharOf(v3);
    ValueOfCharOf(v0);
    ValueOfCharOf(v1);
    ValueOfCharOf(v2);
    ValueOfCharOf(v3);
    FirstByteBack(b0, b1);
    SecondByteBack(b0, b1, b2);
    ThirdByteBack(b1, b2);
  }

  /** Decoding takes an encoding back to its bytes. */
  lemma {:induction false} DecodeEncode(b: seq<byte>)
    ensures Decode(Encode(b)) == Some(b)
    decreases |b|
  {
    if b == [] {
    } else if |b| <= 3 {
      DecodeEncodeGroup(b, true);
      assert Encode(b)[..4] == Encode(b);
      assert Encode(b)[4..] == "";
      assert b + [] == b;
    } else {
      var head, tail := EncodeGroup(b[..3]), Encode(b[3..]);
      var r := head + tail;
      assert Encode(b) == r;
      assert r[..4] == head && r[4..] == tail;
      DecodeEncodeGroup(b[..3], |r| == 4);
      DecodeEncode(b[3..]);
      assert b[..3] + b[3..] == b;
    }
  }
}
