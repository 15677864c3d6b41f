/**
 * The transport's frame buffer as the channel uses it: a fixed-size byte
 * array with a write index that `putByte`, `putInt`, `putString` and
 * `skip` advance, and a `Packet` view whose `reset` places the index just
 * after the room kept for the packet-length and padding-length fields.
 * Buffer.java and Packet.java are not part of this model. Assumed of them:
 * a put copies its bytes at the index and advances it, and a put whose
 * bytes do not fit raises ArrayIndexOutOfBoundsException without writing
 * (the `System.arraycopy` behaviour); no put grows the array.
 */
module Codec {
  import opened Base
  import Wire

  /** Where `Packet.reset` leaves the index: after uint32 packet_length and byte padding_length (section 6 of RFC 4253). */
  const PAYLOAD_OFFSET: nat := 5

  /** s with w written over it from position i on. */
  function Overwrite(s: seq<byte>, i: nat, w: seq<byte>): (r: seq<byte>)
    requires i + |w| <= |s|
    ensures |r| == |s|
  {
    s[..i] + w + s[i + |w|..]
  }

  /** Overwrite position by position: w's bytes from i on, s's elsewhere. */
  lemma OverwriteAt(s: seq<byte>, i: nat, w: seq<byte>)
    requires i + |w| <= |s|
    ensures forall j :: 0 <= j < |s| ==> Overwrite(s, i, w)[j] == if i <= j < i + |w| then w[j - i] else s[j]
  {
  }

  lemma OverwriteTwice(s: seq<byte>, i: nat, a: seq<byte>, b: seq<byte>)
    requires i + |a| + |b| <= |s|
    ensures Overwrite(Overwrite(s, i, a), i + |a|, b) == Overwrite(s, i, a + b)
  {
    var l, r := Overwrite(Overwrite(s, i, a), i + |a|, b), Overwrite(s, i, a + b);
    OverwriteAt(s, i, a);
    OverwriteAt(Overwrite(s, i, a), i + |a|, b);
    OverwriteAt(s, i, a + b);
    assert forall j :: 0 <= j < |s| ==> l[j] == r[j];
  }

  /** Writing w at i extends what lies between from and i by w. */
  lemma OverwriteExtends(s: seq<byte>, from: nat, i: nat, w: seq<byte>)
    requires from <= i && i + |w| <= |s|
    ensures Overwrite(s, i, w)[from..i + |w|] == s[from..i] + w
  {
    var l, r := Overwrite(s, i, w)[from..i + |w|], s[from..i] + w;
    OverwriteAt(s, i, w);
    assert forall j :: 0 <= j < |l| ==> l[j] == r[j];
  }

  /** System.arraycopy of all of w into dst at position at; the caller has checked the bounds. */
  method CopyInto(w: seq<byte>, dst: array<byte>, at: nat)
    requires at + |w| <= dst.Length
    modifies dst
    ensures dst[..] == Overwrite(old(dst[..]), at, w)
  {
    var k := 0;
    while k < |w|
      invariant 0 <= k <= |w|
      invariant forall j :: 0 <= j < dst.Length ==>
        dst[j] == if at <= j < at + k then w[j - at] else old(dst[j])
    {
      dst[at + k] := w[k];
      k := k + 1;
    }
    OverwriteAt(old(dst[..]), at, w);
    assert forall j :: 0 <= j < dst.Length ==> dst[..][j] == Overwrite(old(dst[..]), at, w)[j];
  }

  class Buffer {
    var buffer: array<byte>
    var index: int

    /** new Buffer(size): a zeroed array of that size, index 0. */
    constructor (size: nat)
      ensures fresh(buffer) && buffer.Length == size && index == 0
      ensures forall j :: 0 <= j < size ==> buffer[j] == 0
    {
      buffer := new byte[size](_ => 0);
      index := 0;
    }

    /** The bytes written so far after the packet header room. */
    function Message(): (m: seq<byte>)
      reads this, buffer
      requires PAYLOAD_OFFSET <= index <= buffer.Length
      ensures |m| == index - PAYLOAD_OFFSET
    {
      buffer[PAYLOAD_OFFSET..index]
    }

    /** Writes w at the index and advances it, or raises (ok false) with nothing written when w does not fit. */
    method PutBytes(w: seq<byte>) returns (ok: bool)
      modifies this, buffer
      ensures buffer == old(buffer)
      ensures ok <==> 0 <= old(index) && old(index) + |w| <= buffer.Length
      ensures ok ==> index == old(index) + |w| && buffer[..] == Overwrite(old(buffer[..]), old(index), w)
      ensures ok && PAYLOAD_OFFSET <= old(index) ==> buffer[PAYLOAD_OFFSET..index] == old(buffer[PAYLOAD_OFFSET..index]) + w
      ensures !ok ==> index == old(index) && buffer[..] == old(buffer[..])
    {
      if index < 0 || index + |w| > buffer.Length {
        return false;
      }
      CopyInto(w, buffer, index);
      if PAYLOAD_OFFSET <= index {
        OverwriteExtends(old(buffer[..]), PAYLOAD_OFFSET, index, w);
      }
      index := index + |w|;
      return true;
    }

    method PutByte(b: byte) returns (ok: bool)
      modifies this, buffer
      ensures buffer == old(buffer)
      ensures ok <==> 0 <= old(index) && old(index) + 1 <= buffer.Length
      ensures ok ==> index == old(index) + 1 && buffer[..] == Overwrite(old(buffer[..]), old(index), [b])
      ensures ok && PAYLOAD_OFFSET <= old(index) ==> buffer[PAYLOAD_OFFSET..index] == old(buffer[PAYLOAD_OFFSET..index]) + [b]
      ensures !ok ==> index == old(index) && buffer[..] == old(buffer[..])
    {
      ok := PutBytes([b]);
    }

    /** putInt: the value as an RFC 4251 uint32. */
    method PutInt(x: int32) returns (ok: bool)
      modifies this, buffer
      ensures buffer == old(buffer)
      ensures ok <==> 0 <= old(index) && old(index) + 4 <= buffer.Length
      ensures ok ==> index == old(index) + 4 && buffer[..] == Overwrite(old(buffer[..]), old(index), Wire.U32(x))
      ensures ok && PAYLOAD_OFFSET <= old(index) ==> buffer[PAYLOAD_OFFSET..index] == old(buffer[PAYLOAD_OFFSET..index]) + Wire.U32(x)
      ensures !ok ==> index == old(index) && buffer[..] == old(buffer[..])
    {
      ok := PutBytes(Wire.U32(x));
    }

    /** putString: putInt of the length, then the bytes; when only the length fits, it stays written. */
    method PutString(s: seq<byte>) returns (ok: bool)
      modifies this, buffer
      ensures buffer == old(buffer)
      ensures ok <==> 0 <= old(index) && old(index) + 4 + |s| <= buffer.Length
      ensures ok ==> index == old(index) + 4 + |s| && buffer[..] == Overwrite(old(buffer[..]), old(index), Wire.Str(s))
      ensures ok && PAYLOAD_OFFSET <= old(index) ==> buffer[PAYLOAD_OFFSET..index] == old(buffer[PAYLOAD_OFFSET..index]) + Wire.Str(s)
      ensures !ok ==> if 0 <= old(index) && old(index) + 4 <= buffer.Length
                      then index == old(index) + 4 && buffer[..] == Overwrite(old(buffer[..]), old(index), Wire.U32(|s|))
                      else index == old(index) && buffer[..] == old(buffer[..])
    {
      ok := PutBytes(Wire.U32(|s|));
      if ok {
        ok := PutBytes(s);
        if ok {
          OverwriteTwice(old(buffer[..]), old(index), Wire.U32(|s|), s);
          if PAYLOAD_OFFSET <= old(index) {
            assert buffer[PAYLOAD_OFFSET..index] == old(buffer[PAYLOAD_OFFSET..index]) + Wire.U32(|s|) + s;
          }
        }
      }
    }

    /** skip(n): advances the index without writing. */
    method Skip(n: int)
      modifies this
      ensures index == old(index) + n && buffer == old(buffer)
    {
      index := index + n;
    }
  }

  class Packet {
    const buffer: Buffer

    constructor (buffer: Buffer)
      ensures this.buffer == buffer
    {
      this.buffer := buffer;
    }

    /** reset(): index back to the start of the payload. */
    method Reset()
      modifies buffer
      ensures buffer.index == PAYLOAD_OFFSET && buffer.buffer == old(buffer.buffer)
    {
      buffer.index := PAYLOAD_OFFSET;
    }
  }
}
