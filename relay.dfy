/**
 * What the relay loop of `ChannelDirectTCPIP.run` does, as a function of
 * what the input stream delivers: each positive read becomes one
 * SSH_MSG_CHANNEL_DATA message, unless the close flag is up when the
 * frame is ready, and a non-positive read, a raised exception or the close
 * flag ends the loop.
 */
module Relay {
  import opened Base
  import opened Frames
  import opened Streams
  import Wire
  import Codec

  /** Where run() reads payload bytes: after the packet header room and the 9-byte data header. */
  const DATA_OFFSET: nat := 14

  /** Everything the channel does that others can observe, in order. */
  datatype Event =
    | OpenSent(message: seq<byte>)               // Session.write of the channel-open packet
    | DataSent(message: seq<byte>, length: int)  // Session.write(packet, channel, length)
    | EofSent                                    // eof() sends SSH_MSG_CHANNEL_EOF
    | Disconnected                               // disconnect()
    | WorkerStarted(name: string, daemon: bool)  // a thread running run() is started; daemon: setDaemon(true) was called
    | StreamsClosed                              // io.close()
    | Deregistered                               // Channel.del(this)

  /** Why the loop ended: a read of -1 or 0, the close flag, or an exception. */
  datatype Exit = ByEndOfInput | ByClose | ByFailure

  /** The payloads handed to the session, how the loop ended, the bytes read but dropped because close was set, and what is left of the stream. */
  datatype Relayed = Relayed(payloads: seq<seq<byte>>, exit: Exit, abandoned: seq<byte>, rest: seq<ReadStep>)

  /** The bytes a single read may deliver into a buffer of that capacity. */
  function ReadLimit(capacity: nat, margin: nat): int
  {
    capacity - DATA_OFFSET - margin
  }

  /**
   * The loop from iteration k on, over a buffer of the given capacity;
   * close is the flag's value at loop entry and closeAt holds the
   * iterations in which another thread raises it before the check.
   */
  function Loop(steps: seq<ReadStep>, capacity: nat, margin: nat, k: nat, close: bool, closeAt: set<nat>): (r: Relayed)
    decreases Size(steps)
    ensures r.exit == ByClose <==> r.abandoned != []
  {
    match ReadOf(steps, DATA_OFFSET, ReadLimit(capacity, margin), capacity)
    case Threw(_) => Relayed([], ByFailure, [], steps)
    case AtEnd => Relayed([], ByEndOfInput, [], steps)
    case Got(b, rest) =>
      if |b| == 0 then Relayed([], ByEndOfInput, [], rest)
      else if close || k in closeAt then Relayed([], ByClose, b, rest)
      else
        var r := Loop(rest, capacity, margin, k + 1, close, closeAt);
        r.(payloads := [b] + r.payloads)
  }

  /** One iteration of Loop, by what the read delivers. */
  lemma LoopUnfold(steps: seq<ReadStep>, capacity: nat, margin: nat, k: nat, close: bool, closeAt: set<nat>)
    ensures var o, r := ReadOf(steps, DATA_OFFSET, ReadLimit(capacity, margin), capacity), Loop(steps, capacity, margin, k, close, closeAt);
      && (o.Threw? ==> r == Relayed([], ByFailure, [], steps))
      && (o.AtEnd? ==> r == Relayed([], ByEndOfInput, [], steps))
      && (o.Got? && |o.bytes| == 0 ==> r == Relayed([], ByEndOfInput, [], o.rest))
      && (o.Got? && |o.bytes| > 0 && (close || k in closeAt) ==> r == Relayed([], ByClose, o.bytes, o.rest))
      && (o.Got? && |o.bytes| > 0 && !(close || k in closeAt) ==>
            var r' := Loop(o.rest, capacity, margin, k + 1, close, closeAt); r == r'.(payloads := [o.bytes] + r'.payloads))
  {
  }

  function Concat(ps: seq<seq<byte>>): seq<byte>
  {
    if ps == [] then [] else ps[0] + Concat(ps[1..])
  }

  /** The session writes for these payloads, in order. */
  function DataEvents(recipient: int32, ps: seq<seq<byte>>): (es: seq<Event>)
    ensures |es| == |ps|
    ensures forall j :: 0 <= j < |es| ==> es[j] == DataSent(DataMessage(recipient, ps[j]), |ps[j]|)
  {
    if ps == [] then [] else [DataSent(DataMessage(recipient, ps[0]), |ps[0]|)] + DataEvents(recipient, ps[1..])
  }

  /** One more payload adds its data message at the end. */
  lemma {:induction false} DataEventsSnoc(recipient: int32, ps: seq<seq<byte>>, p: seq<byte>)
    ensures DataEvents(recipient, ps + [p]) == DataEvents(recipient, ps) + [DataSent(DataMessage(recipient, p), |p|)]
  {
    if ps != [] {
      assert (ps + [p])[1..] == ps[1..] + [p];
      DataEventsSnoc(recipient, ps[1..], p);
    } else {
      assert ps + [p] == [p];
    }
  }

  /** The payloads of the data messages among es, in order. */
  function Payloads(es: seq<Event>): seq<seq<byte>>
  {
    if es == [] then []
    else (if es[0].DataSent? && |es[0].message| >= 9 then [es[0].message[9..]] else []) + Payloads(es[1..])
  }

  lemma {:induction false} PayloadsAppend(a: seq<Event>, b: seq<Event>)
    ensures Payloads(a + b) == Payloads(a) + Payloads(b)
  {
    if a == [] {
      assert a + b == b;
    } else {
      var h := if a[0].DataSent? && |a[0].message| >= 9 then [a[0].message[9..]] else [];
      assert (a + b)[0] == a[0] && (a + b)[1..] == a[1..] + b;
      PayloadsAppend(a[1..], b);
      calc {
        Payloads(a + b);
        h + Payloads(a[1..] + b);
        h + (Payloads(a[1..]) + Payloads(b));
        (h + Payloads(a[1..])) + Payloads(b);
      }
    }
  }

  lemma {:induction false} PayloadsOfDataEvents(recipient: int32, ps: seq<seq<byte>>)
    ensures Payloads(DataEvents(recipient, ps)) == ps
  {
    if ps != [] {
      var es := DataEvents(recipient, ps);
      assert es == [es[0]] + es[1..];
      assert es[1..] == DataEvents(recipient, ps[1..]);
      PayloadsAppend([es[0]], es[1..]);
      assert DataMessage(recipient, ps[0])[9..] == ps[0];
      PayloadsOfDataEvents(recipient, ps[1..]);
    }
  }

  lemma {:induction false} PayloadsWithoutData(es: seq<Event>)
    requires forall j :: 0 <= j < |es| ==> !es[j].DataSent?
    ensures Payloads(es) == []
  {
    if es != [] {
      PayloadsWithoutData(es[1..]);
    }
  }

  /** Stream faithfulness: the payloads sent, then the bytes dropped at close, then what the stream still holds, are exactly what it held at the start. */
  lemma {:induction false} LoopForwardsInput(steps: seq<ReadStep>, capacity: nat, margin: nat, k: nat, close: bool, closeAt: set<nat>)
    decreases Size(steps)
    ensures var r := Loop(steps, capacity, margin, k, close, closeAt);
      Concat(r.payloads) + r.abandoned + Data(r.rest) == Data(steps)
  {
    var r := Loop(steps, capacity, margin, k, close, closeAt);
    match ReadOf(steps, DATA_OFFSET, ReadLimit(capacity, margin), capacity)
    case Threw(_) =>
    case AtEnd =>
    case Got(b, rest) =>
      if |b| != 0 && !(close || k in closeAt) {
        var r' := Loop(rest, capacity, margin, k + 1, close, closeAt);
        LoopForwardsInput(rest, capacity, margin, k + 1, close, closeAt);
        assert r == r'.(payloads := [b] + r'.payloads);
        assert ([b] + r'.payloads)[1..] == r'.payloads;
        assert Concat(r.payloads) == b + Concat(r'.payloads);
        var c, a, d := Concat(r'.payloads), r'.abandoned, Data(r'.rest);
        AppendAssoc(b, c, a);
        AppendAssoc(b, c + a, d);
      }
  }

  /** Read bound: every payload, and the frame dropped at close, holds between 1 and capacity - 14 - margin bytes, so a data frame ends by capacity - margin. */
  lemma {:induction false} LoopReadBound(steps: seq<ReadStep>, capacity: nat, margin: nat, k: nat, close: bool, closeAt: set<nat>)
    decreases Size(steps)
    ensures var r := Loop(steps, capacity, margin, k, close, closeAt);
      && (forall p :: p in r.payloads ==> 0 < |p| && DATA_OFFSET + |p| <= capacity - margin)
      && (r.exit == ByClose ==> 0 < |r.abandoned| && DATA_OFFSET + |r.abandoned| <= capacity - margin)
  {
    match ReadOf(steps, DATA_OFFSET, ReadLimit(capacity, margin), capacity)
    case Threw(_) =>
    case AtEnd =>
    case Got(b, rest) =>
      if |b| != 0 && !(close || k in closeAt) {
        LoopReadBound(rest, capacity, margin, k + 1, close, closeAt);
      }
  }

  /** Close: a flag already up lets no frame out, no frame leaves at or after an iteration that raises it, and only the flag ends the loop with a dropped frame. */
  lemma {:induction false} LoopStopsAtClose(steps: seq<ReadStep>, capacity: nat, margin: nat, k: nat, close: bool, closeAt: set<nat>)
    decreases Size(steps)
    ensures var r := Loop(steps, capacity, margin, k, close, closeAt);
      && (close ==> r.payloads == [])
      && (forall j :: j in closeAt && k <= j ==> |r.payloads| <= j - k)
      && (r.exit == ByClose ==> close || k + |r.payloads| in closeAt)
      && (r.exit != ByClose ==> r.abandoned == [])
  {
    match ReadOf(steps, DATA_OFFSET, ReadLimit(capacity, margin), capacity)
    case Threw(_) =>
    case AtEnd =>
    case Got(b, rest) =>
      if |b| != 0 && !(close || k in closeAt) {
        LoopStopsAtClose(rest, capacity, margin, k + 1, close, closeAt);
      }
  }

  /**
   * Header before payload: with the payload at offset 14 and the 9-byte
   * data header written from the reset offset 5 on, the bytes from 5 to
   * the end of the payload are exactly the data message; the header does
   * not overwrite the payload.
   */
  lemma HeaderBeforePayload(b: seq<byte>, recipient: int32, n: nat)
    requires DATA_OFFSET == Codec.PAYLOAD_OFFSET + 9
    requires DATA_OFFSET + n <= |b| && n < Wire.TWO_32
    ensures var framed := Codec.Overwrite(Codec.Overwrite(Codec.Overwrite(b, 5, [SSH_MSG_CHANNEL_DATA]), 6, Wire.U32(recipient)),
                                          10, Wire.U32(n));
      framed[Codec.PAYLOAD_OFFSET..DATA_OFFSET + n] == DataMessage(recipient, b[DATA_OFFSET..DATA_OFFSET + n])
  {
    var h1 := Codec.Overwrite(b, 5, [SSH_MSG_CHANNEL_DATA]);
    var h2 := Codec.Overwrite(h1, 6, Wire.U32(recipient));
    var framed := Codec.Overwrite(h2, 10, Wire.U32(n));
    var d := DataMessage(recipient, b[DATA_OFFSET..DATA_OFFSET + n]);
    Codec.OverwriteAt(b, 5, [SSH_MSG_CHANNEL_DATA]);
    Codec.OverwriteAt(h1, 6, Wire.U32(recipient));
    Codec.OverwriteAt(h2, 10, Wire.U32(n));
    assert forall j :: 0 <= j < |d| ==> framed[5 + j] == d[j];
  }

}
