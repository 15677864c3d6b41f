/**
 * The two messages the forwarding channel puts on the wire:
 * SSH_MSG_CHANNEL_OPEN for a "direct-tcpip" channel (sections 5.1 and
 * 7.2 of RFC 4254) and SSH_MSG_CHANNEL_DATA (section 5.2 of RFC 4254),
 * each with a decoder that inverts it.
 */
module Frames {
  import opened Base
  import opened Wire
  import Utf8

  const SSH_MSG_CHANNEL_OPEN: byte := 90
  const SSH_MSG_CHANNEL_DATA: byte := 94

  /** The eight fields of a channel-open message, in wire order. */
  datatype OpenFields = OpenFields(
    channelType: seq<byte>,
    sender: int32,
    window: int32,
    maxPacket: int32,
    host: seq<byte>,
    port: int32,
    originator: seq<byte>,
    originatorPort: int32)

  /** Every string field can carry a length prefix (true of any Java byte[]). */
  predicate Encodable(f: OpenFields)
  {
    |f.channelType| < TWO_32 && |f.host| < TWO_32 && |f.originator| < TWO_32
  }

  /** byte 90, string type, uint32 sender, window, max packet, string host, uint32 port, string originator, uint32 originator port. */
  function EncodeOpen(f: OpenFields): (m: seq<byte>)
    ensures |m| == 33 + |f.channelType| + |f.host| + |f.originator|
    ensures m[0] == SSH_MSG_CHANNEL_OPEN
  {
    [SSH_MSG_CHANNEL_OPEN] + (Str(f.channelType) + (U32(f.sender) + (U32(f.window) + (U32(f.maxPacket) +
      (Str(f.host) + (U32(f.port) + (Str(f.originator) + U32(f.originatorPort))))))))
  }

  /** Reads string originator address, uint32 originator port, and requires the message to end there. */
  function DecodeOriginator(m: seq<byte>): Option<(seq<byte>, nat)>
  {
    match ParseStr(m)
    case None => None
    case Some((originator, m1)) =>
      match ParseU32(m1)
      case None => None
      case Some((port, m2)) => if m2 == [] then Some((originator, port)) else None
  }

  /** Reads string host, uint32 port, then the originator part. */
  function DecodeTarget(m: seq<byte>): Option<(seq<byte>, nat, seq<byte>, nat)>
  {
    match ParseStr(m)
    case None => None
    case Some((host, m1)) =>
      match ParseU32(m1)
      case None => None
      case Some((port, m2)) =>
        match DecodeOriginator(m2)
        case None => None
        case Some((originator, originatorPort)) => Some((host, port, originator, originatorPort))
  }

  /** Reads the three uint32 channel parameters, then the target part. */
  function DecodeParams(m: seq<byte>): Option<(nat, nat, nat, (seq<byte>, nat, seq<byte>, nat))>
  {
    match ParseU32(m)
    case None => None
    case Some((sender, m1)) =>
      match ParseU32(m1)
      case None => None
      case Some((window, m2)) =>
        match ParseU32(m2)
        case None => None
        case Some((maxPacket, m3)) =>
          match DecodeTarget(m3)
          case None => None
          case Some(target) => Some((sender, window, maxPacket, target))
  }

  /** Parses a channel-open message; the message must end right after the originator port. */
  function DecodeOpen(m: seq<byte>): Option<OpenFields>
  {
    if |m| == 0 || m[0] != SSH_MSG_CHANNEL_OPEN then None else
    match ParseStr(m[1..])
    case None => None
    case Some((t, m1)) =>
      match DecodeParams(m1)
      case None => None
      case Some((sender, window, maxPacket, (host, port, originator, originatorPort))) =>
        Some(OpenFields(t, AsInt32(sender), AsInt32(window), AsInt32(maxPacket), host,
                        AsInt32(port), originator, AsInt32(originatorPort)))
  }

  lemma DecodeOriginatorOf(o: seq<byte>, p: int)
    requires |o| < TWO_32
    ensures DecodeOriginator(Str(o) + U32(p)) == Some((o, p % TWO_32))
  {
    ParseStrOf(o, U32(p));
    assert U32(p) == U32(p) + [];
    ParseU32Of(p, []);
  }

  lemma DecodeTargetOf(h: seq<byte>, p: int, o: seq<byte>, op: int)
    requires |h| < TWO_32 && |o| < TWO_32
    ensures DecodeTarget(Str(h) + (U32(p) + (Str(o) + U32(op)))) == Some((h, p % TWO_32, o, op % TWO_32))
  {
    ParseStrOf(h, U32(p) + (Str(o) + U32(op)));
    ParseU32Of(p, Str(o) + U32(op));
    DecodeOriginatorOf(o, op);
  }

  lemma DecodeParamsOf(f: OpenFields)
    requires Encodable(f)
    ensures var tail := Str(f.host) + (U32(f.port) + (Str(f.originator) + U32(f.originatorPort)));
      DecodeParams(U32(f.sender) + (U32(f.window) + (U32(f.maxPacket) + tail))) ==
      Some((f.sender % TWO_32, f.window % TWO_32, f.maxPacket % TWO_32,
            (f.host, f.port % TWO_32, f.originator, f.originatorPort % TWO_32)))
  {
    var tail := Str(f.host) + (U32(f.port) + (Str(f.originator) + U32(f.originatorPort)));
    ParseU32Of(f.sender, U32(f.window) + (U32(f.maxPacket) + tail));
    ParseU32Of(f.window, U32(f.maxPacket) + tail);
    ParseU32Of(f.maxPacket, tail);
    DecodeTargetOf(f.host, f.port, f.originator, f.originatorPort);
  }

  /** Decoding an encoded open message gives back exactly the eight fields. */
  lemma OpenRoundTrip(f: OpenFields)
    requires Encodable(f)
    ensures DecodeOpen(EncodeOpen(f)) == Some(f)
  {
    var tail := Str(f.host) + (U32(f.port) + (Str(f.originator) + U32(f.originatorPort)));
    var m1 := U32(f.sender) + (U32(f.window) + (U32(f.maxPacket) + tail));
    var m := EncodeOpen(f);
    assert m[1..] == Str(f.channelType) + m1;
    ParseStrOf(f.channelType, m1);
    DecodeParamsOf(f);
    AsInt32Mod(f.sender);
    AsInt32Mod(f.window);
    AsInt32Mod(f.maxPacket);
    AsInt32Mod(f.port);
    AsInt32Mod(f.originatorPort);
  }

  /** Distinct field tuples give distinct open messages. */
  lemma OpenInjective(f: OpenFields, g: OpenFields)
    requires Encodable(f) && Encodable(g)
    requires EncodeOpen(f) == EncodeOpen(g)
    ensures f == g
  {
    OpenRoundTrip(f);
    OpenRoundTrip(g);
  }

  /** The byte layout: 90 first, the type string from offset 1, the three channel parameters after it, the host string, its port, and the originator string and port last. */
  lemma OpenLayout(f: OpenFields)
    ensures var m, t, h, o := EncodeOpen(f), |f.channelType|, |f.host|, |f.originator|;
      && |m| == 33 + t + h + o
      && m[0] == SSH_MSG_CHANNEL_OPEN
      && m[1..5 + t] == Str(f.channelType)
      && m[5 + t..17 + t] == U32(f.sender) + U32(f.window) + U32(f.maxPacket)
      && m[17 + t..21 + t + h] == Str(f.host)
      && m[21 + t + h..25 + t + h] == U32(f.port)
      && m[25 + t + h..29 + t + h + o] == Str(f.originator)
      && m[29 + t + h + o..] == U32(f.originatorPort)
  {
    var m, t, h, o := EncodeOpen(f), |f.channelType|, |f.host|, |f.originator|;
    var a := U32(f.sender) + U32(f.window) + U32(f.maxPacket);
    assert m == [SSH_MSG_CHANNEL_OPEN] + Str(f.channelType) + a + Str(f.host) + U32(f.port) +
                Str(f.originator) + U32(f.originatorPort);
  }

  /** The message as its nine fields appended one after another, in the order they are written. */
  lemma OpenInOrder(f: OpenFields)
    ensures EncodeOpen(f) ==
      [] + [SSH_MSG_CHANNEL_OPEN] + Str(f.channelType) + U32(f.sender) + U32(f.window) + U32(f.maxPacket) +
      Str(f.host) + U32(f.port) + Str(f.originator) + U32(f.originatorPort)
  {
  }

  /** SSH_MSG_CHANNEL_DATA: byte 94, uint32 recipient, then the payload as a string. */
  function DataMessage(recipient: int32, payload: seq<byte>): (m: seq<byte>)
  {
    [SSH_MSG_CHANNEL_DATA] + (U32(recipient) + (U32(|payload|) + payload))
  }

  /** Parses a data message whose declared length is exactly the rest of the message. */
  function DecodeData(m: seq<byte>): Option<(int32, seq<byte>)>
  {
    if |m| < 9 || m[0] != SSH_MSG_CHANNEL_DATA || DecodeU32(m[5..9]) != |m| - 9 then None
    else Some((AsInt32(DecodeU32(m[1..5])), m[9..]))
  }

  /** A data message carries its recipient and exactly its payload, and only a data message of that recipient and payload decodes to them. */
  lemma DataRoundTrip(recipient: int32, payload: seq<byte>, m: seq<byte>)
    requires |payload| < TWO_32
    ensures DecodeData(DataMessage(recipient, payload)) == Some((recipient, payload))
    ensures DecodeData(m) == Some((recipient, payload)) ==> m == DataMessage(recipient, payload)
  {
    var d := DataMessage(recipient, payload);
    assert d[1..5] == U32(recipient);
    assert d[5..9] == U32(|payload|);
    assert d[9..] == payload;
    U32RoundTrip(recipient);
    U32RoundTrip(|payload|);
    if DecodeData(m) == Some((recipient, payload)) {
      var r := DecodeU32(m[1..5]);
      assert AsInt32(r) == recipient;
      assert r == recipient % TWO_32;
      assert DecodeU32(m[5..9]) == |payload|;
      Wire.BytesOfU32(m[1..5], recipient);
      Wire.BytesOfU32(m[5..9], |payload|);
      assert m == [m[0]] + m[1..5] + m[5..9] + m[9..];
    }
  }

  /** The channel type "direct-tcpip" as bytes. */
  const DIRECT_TCPIP: seq<byte> := [100, 105, 114, 101, 99, 116, 45, 116, 99, 112, 105, 112]

  /** DIRECT_TCPIP is what str2byte makes of "direct-tcpip": its twelve ASCII codes. */
  lemma DirectTcpipBytes()
    ensures Utf8.Encode("direct-tcpip") == DIRECT_TCPIP
  {
    assert Utf8.IsAscii("direct-tcpip");
    Utf8.AsciiBytes("direct-tcpip", [100, 105, 114, 101, 99, 116, 45, 116, 99, 112, 105, 112]);
  }
}
