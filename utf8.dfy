/**
 * The two string measures the open frame depends on: `Util.str2byte`,
 * which turns a Java string into its UTF-8 bytes (RFC 3629), and
 * `String.length`, which counts UTF-16 code units. A Dafny `char` is a
 * Unicode scalar value, so strings with unpaired surrogates are not
 * represented.
 */
module Utf8 {
  import opened Base

  /** UTF-8 bytes of one scalar value. */
  function CharBytes(c: char): (r: seq<byte>)
    ensures |r| == if c < 0x80 as char then 1 else if c < 0x800 as char then 2
                   else if c < 0x1_0000 as char then 3 else 4
  {
    var v := c as int;
    if v < 0x80 then [v]
    else if v < 0x800 then [0xC0 + v / 0x40, 0x80 + v % 0x40]
    else if v < 0x1_0000 then [0xE0 + v / 0x1000, 0x80 + (v / 0x40) % 0x40, 0x80 + v % 0x40]
    else [0xF0 + v / 0x4_0000, 0x80 + (v / 0x1000) % 0x40, 0x80 + (v / 0x40) % 0x40, 0x80 + v % 0x40]
  }

  /** Util.str2byte: the UTF-8 encoding of s, one to four bytes per character. */
  function Encode(s: string): (r: seq<byte>)
    ensures |s| <= |r| <= 4 * |s|
  {
    if s == [] then [] else CharBytes(s[0]) + Encode(s[1..])
  }

  /** String.length(): the number of UTF-16 code units of s, one or two per character. */
  function JavaLength(s: string): (n: nat)
    ensures |s| <= n <= 2 * |s|
  {
    if s == [] then 0 else (if s[0] < 0x1_0000 as char then 1 else 2) + JavaLength(s[1..])
  }

  predicate IsAscii(s: string)
  {
    forall i :: 0 <= i < |s| ==> s[i] < 0x80 as char
  }

  /** A string is never shorter in UTF-8 bytes than in UTF-16 units, and is exactly as long when it is ASCII. */
  lemma {:induction false} JavaLengthAtMostBytes(s: string)
    ensures JavaLength(s) <= |Encode(s)|
    ensures JavaLength(s) == |Encode(s)| <==> IsAscii(s)
  {
    if s != [] {
      JavaLengthAtMostBytes(s[1..]);
      if IsAscii(s[1..]) && s[0] < 0x80 as char {
        assert forall i :: 0 < i < |s| ==> s[i] == s[1..][i - 1];
      }
      if IsAscii(s) {
        assert forall i :: 0 <= i < |s[1..]| ==> s[1..][i] == s[i + 1];
      }
    }
  }

  /** ASCII text encodes to its character codes, one byte each. */
  lemma {:induction false} EncodeAscii(s: string)
    requires IsAscii(s)
    ensures |Encode(s)| == |s|
    ensures forall i :: 0 <= i < |s| ==> Encode(s)[i] == s[i] as int
  {
    if s != [] {
      assert forall i :: 0 <= i < |s[1..]| ==> s[1..][i] == s[i + 1];
      EncodeAscii(s[1..]);
    }
  }

  /** ASCII text encodes to exactly the given character codes. */
  lemma AsciiBytes(s: string, b: seq<byte>)
    requires IsAscii(s) && |b| == |s| && forall i :: 0 <= i < |s| ==> b[i] == s[i] as int
    ensures Encode(s) == b
  {
    EncodeAscii(s);
  }

  /** n copies of U+0800: one UTF-16 unit but three UTF-8 bytes each. */
  lemma {:induction false} ThreeByteRun(n: nat)
    ensures JavaLength(seq(n, _ => '\U{0800}')) == n
    ensures |Encode(seq(n, _ => '\U{0800}'))| == 3 * n
  {
    if n > 0 {
      var s := seq(n, _ => '\U{0800}');
      assert s[1..] == seq(n - 1, _ => '\U{0800}');
      ThreeByteRun(n - 1);
    }
  }
}
