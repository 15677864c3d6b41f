/**
 * The SSH data-type encodings of section 5 of RFC 4251 that the channel
 * writes: `uint32` (four bytes, most significant first) and `string`
 * (a `uint32` length followed by the bytes), with their decoders.
 */
module Wire {
  import opened Base

  const TWO_32: int := 0x1_0000_0000

  /** uint32 form of a Java int: the value modulo 2^32, big-endian, so a negative int goes out in two's complement. */
  function U32(x: int): (r: seq<byte>)
    ensures |r| == 4
  {
    var v := x % TWO_32;
    [v / 0x100_0000, (v / 0x1_0000) % 0x100, (v / 0x100) % 0x100, v % 0x100]
  }

  /** The unsigned value of four big-endian bytes. */
  function DecodeU32(b: seq<byte>): (n: nat)
    requires |b| == 4
    ensures n < TWO_32
  {
    (b[0] as int) * 0x100_0000 + (b[1] as int) * 0x1_0000 + (b[2] as int) * 0x100 + (b[3] as int)
  }

  /** The Java int whose two's complement bit pattern is n. */
  function AsInt32(n: nat): (x: int32)
    requires n < TWO_32
    ensures x % TWO_32 == n
  {
    if n < 0x8000_0000 then n else n - TWO_32
  }

  /** RFC 4251 `string`: length prefix, then the bytes. */
  function Str(s: seq<byte>): (r: seq<byte>)
    ensures |r| == 4 + |s| && r[4..] == s
  {
    U32(|s|) + s
  }

  /** Reads a uint32 off the front of s. */
  function ParseU32(s: seq<byte>): Option<(nat, seq<byte>)>
  {
    if |s| < 4 then None else Some((DecodeU32(s[..4]), s[4..]))
  }

  /** Reads a `string` off the front of s; fails when s holds fewer bytes than its prefix declares. */
  function ParseStr(s: seq<byte>): Option<(seq<byte>, seq<byte>)>
  {
    match ParseU32(s)
    case None => None
    case Some((n, t)) => if n <= |t| then Some((t[..n], t[n..])) else None
  }

  lemma U32RoundTrip(x: int)
    ensures DecodeU32(U32(x)) == x % TWO_32
  {
    var v := x % TWO_32;
    var b := U32(x);
    var q1 := v / 0x100;
    var q2 := q1 / 0x100;
    var q3 := q2 / 0x100;
    assert v == q1 * 0x100 + b[3];
    assert v / 0x1_0000 == q2;
    assert v / 0x100_0000 == q3;
    assert q1 == q2 * 0x100 + b[2];
    assert q2 == q3 * 0x100 + b[1];
    assert q3 == b[0];
  }

  lemma AsInt32Mod(x: int32)
    ensures AsInt32(x % TWO_32) == x
  {
  }

  lemma Int32RoundTrip(x: int32)
    ensures AsInt32(DecodeU32(U32(x))) == x
  {
    U32RoundTrip(x);
  }

  lemma ParseU32Of(x: int, rest: seq<byte>)
    ensures ParseU32(U32(x) + rest) == Some((x % TWO_32, rest))
  {
    var s := U32(x) + rest;
    assert s[..4] == U32(x);
    assert s[4..] == rest;
    U32RoundTrip(x);
  }

  lemma ParseStrOf(s: seq<byte>, rest: seq<byte>)
    requires |s| < TWO_32
    ensures ParseStr(Str(s) + rest) == Some((s, rest))
  {
    assert Str(s) + rest == U32(|s|) + (s + rest);
    ParseU32Of(|s|, s + rest);
    assert (s + rest)[..|s|] == s;
    assert (s + rest)[|s|..] == rest;
  }

  /** Division by a byte-place weight, where the arithmetic stays linear. */
  lemma DivModOf(hi: int, lo: int, m: int)
    requires m == 0x100 || m == 0x1_0000 || m == 0x100_0000
    requires 0 <= lo < m
    ensures (hi * m + lo) / m == hi && (hi * m + lo) % m == lo
  {
  }

  /** Four bytes are determined by the value they decode to. */
  lemma BytesOfU32(b: seq<byte>, x: int)
    requires |b| == 4 && DecodeU32(b) == x % TWO_32
    ensures b == U32(x)
  {
    var v := x % TWO_32;
    var b0, b1, b2, b3 := b[0] as int, b[1] as int, b[2] as int, b[3] as int;
    assert v == (b0 * 0x1_0000 + b1 * 0x100 + b2) * 0x100 + b3;
    DivModOf(b0 * 0x1_0000 + b1 * 0x100 + b2, b3, 0x100);
    DivModOf(b0 * 0x100 + b1, b2, 0x100);
    assert v == (b0 * 0x100 + b1) * 0x1_0000 + (b2 * 0x100 + b3);
    DivModOf(b0 * 0x100 + b1, b2 * 0x100 + b3, 0x1_0000);
    DivModOf(b0, b1, 0x100);
    assert v == b0 * 0x100_0000 + (b1 * 0x1_0000 + b2 * 0x100 + b3);
    DivModOf(b0, b1 * 0x1_0000 + b2 * 0x100 + b3, 0x100_0000);
  }
}
