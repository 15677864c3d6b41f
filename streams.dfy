/**
 * The channel's local stream pair (`IO`): the input stream whose bytes are
 * forwarded and the output stream that receives what the peer sends. The
 * input stream is a script of what its successive `read` calls deliver.
 * The IO class and the Java stream classes are not part of this model; a
 * read behaves as `InputStream.read(byte[], int, int)` is specified to.
 */
module Streams {
  import opened Base
  import Codec

  /** One step of the input script. */
  datatype ReadStep =
    | Chunk(bytes: seq<byte>)  // bytes that are available now; a read takes as many as it asked for
    | EndOfStream              // read returns -1 from here on (0 when asked for no bytes)
    | Broken                   // read throws IOException (when asked for at least one byte)

  /** A measure that every read delivering at least one byte decreases. */
  function Size(steps: seq<ReadStep>): nat
  {
    if steps == [] then 0
    else (if steps[0].Chunk? then |steps[0].bytes| else 0) + 1 + Size(steps[1..])
  }

  /** Every byte the stream can still deliver, in order. */
  function Data(steps: seq<ReadStep>): seq<byte>
  {
    if steps == [] || !steps[0].Chunk? then [] else steps[0].bytes + Data(steps[1..])
  }

  datatype ReadOutcome =
    | Got(bytes: seq<byte>, rest: seq<ReadStep>)  // read returns |bytes|
    | AtEnd                                       // read returns -1
    | Threw(failure: Failure)

  /** read(b, off, len) on an array of the given length: the argument check, 0 without reading when len is 0, then at most len bytes of the next available chunk. */
  function ReadOf(steps: seq<ReadStep>, off: int, len: int, length: nat): (r: ReadOutcome)
    ensures off < 0 || len < 0 || len > length - off <==> r == Threw(IndexOutOfBoundsException)
    ensures r.Got? ==> |r.bytes| <= len && off + |r.bytes| <= length
    ensures r.Got? ==> r.bytes + Data(r.rest) == Data(steps)
    ensures r.Got? ==> Size(r.rest) + |r.bytes| <= Size(steps)
    ensures r.Got? && len > 0 && steps != [] && steps[0].Chunk? && steps[0].bytes != [] ==> |r.bytes| > 0
    ensures 0 <= off && len == 0 <= length - off ==> r == Got([], steps)
    ensures r == AtEnd <==> (off >= 0 && 0 < len <= length - off && (steps == [] || steps[0].EndOfStream?))
  {
    if off < 0 || len < 0 || len > length - off then Threw(IndexOutOfBoundsException)
    else if len == 0 then Got([], steps)
    else if steps == [] || steps[0].EndOfStream? then AtEnd
    else if steps[0].Broken? then Threw(IOException)
    else
      var b := steps[0].bytes;
      if |b| <= len then Got(b, steps[1..])
      else
        assert b[..len] + b[len..] == b;
        Got(b[..len], [Chunk(b[len..])] + steps[1..])
  }

  /** A stream whose read calls follow its script. */
  class Source {
    var steps: seq<ReadStep>

    constructor (steps: seq<ReadStep>)
      ensures this.steps == steps
    {
      this.steps := steps;
    }

    /** read(b, off, len): returns the count (or -1), the bytes landing in b from off on, or the exception. */
    method Read(b: array<byte>, off: int, len: int) returns (n: int, thrown: Option<Failure>)
      modifies this, b
      ensures match ReadOf(old(steps), off, len, b.Length)
        case Got(bytes, rest) =>
          && thrown == None && n == |bytes| && steps == rest
          && 0 <= off && b[..] == Codec.Overwrite(old(b[..]), off, bytes)
        case AtEnd => thrown == None && n == -1 && steps == old(steps) && b[..] == old(b[..])
        case Threw(f) => thrown == Some(f) && steps == old(steps) && b[..] == old(b[..])
    {
      var r := ReadOf(steps, off, len, b.Length);
      match r
      case Got(bytes, rest) =>
        Codec.CopyInto(bytes, b, off);
        n, thrown := |bytes|, None;
        steps := rest;
      case AtEnd =>
        n, thrown := -1, None;
      case Threw(f) =>
        n, thrown := 0, Some(f);
    }
  }

  /** The output stream; only its attachment is part of this model. */
  class Sink {
    constructor ()
    {
    }
  }

  /** The IO object: the attached input and output streams, each possibly absent (null). */
  datatype IO = IO(input: Option<Source>, output: Option<Sink>)
}
