/**
 * The forwarding channel's behaviour as functions of its state: the
 * channel-open packet `genChannelOpenPacket` builds, the outcome of the
 * open handshake, the events of the worker body `run`, and the effect of
 * `connect`. The class in module DirectTcpip is proved to act as these
 * functions say.
 */
module Protocol {
  import opened Base
  import opened Frames
  import opened Relay
  import opened Streams
  import Wire
  import Utf8
  import Codec

  const LOCAL_WINDOW_SIZE_MAX: int32 := 0x20000
  const LOCAL_MAXIMUM_PACKET_SIZE: int32 := 0x4000
  const DEFAULT_ORIGINATOR: string := "127.0.0.1"

  /** What genChannelOpenPacket reads: the channel type, id, local window and packet size, then the target and the originator. */
  datatype Config = Config(
    channelType: seq<byte>,
    id: int32,
    lwsize: int32,
    lmpsize: int32,
    host: Option<string>,   // None while the Java field is still null
    port: int32,
    originator: string,
    originatorPort: int32)

  /**
   * A freshly constructed channel: no host yet, port 0, originator
   * 127.0.0.1 port 0, window 0x20000, packet size 0x4000. Its originator
   * is ASCII, and until a host is set no open packet can be built.
   */
  function Defaults(id: int32): (c: Config)
    ensures c.id == id && Utf8.IsAscii(c.originator)
    ensures forall margin: nat :: OpenPacket(c, margin) == Err(NullPointerException)
  {
    DefaultOriginatorAscii();
    Config(DIRECT_TCPIP, id, LOCAL_WINDOW_SIZE_MAX, LOCAL_MAXIMUM_PACKET_SIZE, None, 0, DEFAULT_ORIGINATOR, 0)
  }

  function Fields(c: Config): OpenFields
    requires c.host.Some?
  {
    OpenFields(c.channelType, c.id, c.lwsize, c.lmpsize, Utf8.Encode(c.host.value), c.port,
               Utf8.Encode(c.originator), c.originatorPort)
  }

  /**
   * The array genChannelOpenPacket allocates: 50 plus the two strings'
   * Java lengths plus the margin. It is never larger than the same sum
   * over their UTF-8 bytes, and equal to it exactly when both are ASCII.
   */
  function OpenBufferSize(c: Config, margin: nat): (n: nat)
    requires c.host.Some?
    ensures var bytes := 50 + |Utf8.Encode(c.host.value)| + |Utf8.Encode(c.originator)| + margin;
      n <= bytes && (n == bytes <==> Utf8.IsAscii(c.host.value) && Utf8.IsAscii(c.originator))
  {
    Utf8.JavaLengthAtMostBytes(c.host.value);
    Utf8.JavaLengthAtMostBytes(c.originator);
    50 + Utf8.JavaLength(c.host.value) + Utf8.JavaLength(c.originator) + margin
  }

  /**
   * genChannelOpenPacket: the open message, or the exception it raises --
   * NullPointerException while no host is set, ArrayIndexOutOfBounds when
   * the UTF-8 bytes outgrow an array sized by Java string lengths.
   */
  function OpenPacket(c: Config, margin: nat): (r: Result<seq<byte>>)
    ensures c.host.None? <==> r == Err(NullPointerException)
    ensures c.host.Some? ==> (r.Ok? <==> Codec.PAYLOAD_OFFSET + |EncodeOpen(Fields(c))| <= OpenBufferSize(c, margin))
    ensures c.host.Some? && r.Err? ==> r.failure == ArrayIndexOutOfBoundsException
    ensures r.Ok? ==> r.value == EncodeOpen(Fields(c))
  {
    if c.host.None? then Err(NullPointerException)
    else
      var m := EncodeOpen(Fields(c));
      if Codec.PAYLOAD_OFFSET + |m| <= OpenBufferSize(c, margin) then Ok(m) else Err(ArrayIndexOutOfBoundsException)
  }

  /** The open message's length, and OpenPacket in terms of it. */
  lemma OpenPacketLength(c: Config, margin: nat)
    requires c.host.Some?
    ensures |EncodeOpen(Fields(c))| == 33 + |c.channelType| + |Utf8.Encode(c.host.value)| + |Utf8.Encode(c.originator)|
    ensures OpenPacket(c, margin) ==
      if Codec.PAYLOAD_OFFSET + |EncodeOpen(Fields(c))| <= OpenBufferSize(c, margin) then Ok(EncodeOpen(Fields(c)))
      else Err(ArrayIndexOutOfBoundsException)
  {
    OpenLayout(Fields(c));
  }

  /**
   * Whether the open packet fits: exactly when the two strings' UTF-8
   * bytes exceed their Java lengths by no more than the margin; so it
   * always fits for ASCII strings, and then decodes to the eight fields.
   */
  lemma OpenPacketFits(c: Config, margin: nat)
    requires c.host.Some? && c.channelType == DIRECT_TCPIP
    ensures var h, o := c.host.value, c.originator;
      OpenPacket(c, margin).Ok? <==>
      |Utf8.Encode(h)| + |Utf8.Encode(o)| <= Utf8.JavaLength(h) + Utf8.JavaLength(o) + margin
    ensures Utf8.IsAscii(c.host.value) && Utf8.IsAscii(c.originator) ==> OpenPacket(c, margin).Ok?
  {
    OpenLayout(Fields(c));
    Utf8.JavaLengthAtMostBytes(c.host.value);
    Utf8.JavaLengthAtMostBytes(c.originator);
  }

  /** The packet, when built, decodes to the configured fields (for strings any Java array can hold). */
  lemma OpenPacketDecodes(c: Config, margin: nat)
    requires c.host.Some? && OpenPacket(c, margin).Ok?
    requires |c.channelType| < Wire.TWO_32 && |Utf8.Encode(c.host.value)| < Wire.TWO_32 && |Utf8.Encode(c.originator)| < Wire.TWO_32
    ensures DecodeOpen(OpenPacket(c, margin).value) == Some(Fields(c))
  {
    OpenRoundTrip(Fields(c));
  }

  /** A host of margin + 1 characters U+0800 does not fit, whatever the originator. */
  lemma WideHostOverflows(c: Config, margin: nat)
    requires c.channelType == DIRECT_TCPIP && c.host == Some(seq(margin + 1, _ => '\U{0800}'))
    ensures OpenPacket(c, margin) == Err(ArrayIndexOutOfBoundsException)
  {
    Utf8.ThreeByteRun(margin + 1);
    Utf8.JavaLengthAtMostBytes(c.originator);
    OpenPacketFits(c, margin);
  }

  lemma DefaultOriginatorAscii()
    ensures Utf8.IsAscii(DEFAULT_ORIGINATOR)
  {
  }

  /** "127.0.0.1" as str2byte produces it: nine ASCII bytes. */
  lemma DefaultOriginatorBytes()
    ensures Utf8.Encode(DEFAULT_ORIGINATOR) == [49, 50, 55, 46, 48, 46, 48, 46, 49]
  {
    DefaultOriginatorAscii();
    Utf8.AsciiBytes(DEFAULT_ORIGINATOR, [49, 50, 55, 46, 48, 46, 48, 46, 49]);
  }

  /** With the default channel type and originator, an ASCII host always fits. */
  lemma DefaultOriginatorFits(c: Config, margin: nat)
    requires c.host.Some? && Utf8.IsAscii(c.host.value)
    requires c.channelType == DIRECT_TCPIP && c.originator == DEFAULT_ORIGINATOR
    ensures OpenPacket(c, margin).Ok?
  {
    DefaultOriginatorAscii();
    OpenPacketFits(c, margin);
  }

  /** ... and then decodes back to its fields. */
  lemma DefaultOriginatorDecodes(c: Config, margin: nat)
    requires c.host.Some? && Utf8.IsAscii(c.host.value) && |c.host.value| < Wire.TWO_32
    requires c.channelType == DIRECT_TCPIP && c.originator == DEFAULT_ORIGINATOR
    requires OpenPacket(c, margin).Ok?
    ensures DecodeOpen(OpenPacket(c, margin).value) == Some(Fields(c))
  {
    assert |Utf8.Encode(c.host.value)| < Wire.TWO_32 by { Utf8.EncodeAscii(c.host.value); }
    assert |Utf8.Encode(c.originator)| < Wire.TWO_32 by { DefaultOriginatorBytes(); }
    OpenPacketDecodes(c, margin);
  }

  /** Unless changed, the defaults are what the open packet carries: window 0x20000, packet size 0x4000, originator "127.0.0.1" and port 0. */
  lemma DefaultsInOpenPacket(id: int32, host: string, port: int32, margin: nat)
    requires Utf8.IsAscii(host) && |host| < Wire.TWO_32
    ensures var c := Defaults(id).(host := Some(host), port := port);
      && OpenPacket(c, margin).Ok?
      && DecodeOpen(OpenPacket(c, margin).value) ==
         Some(OpenFields([100, 105, 114, 101, 99, 116, 45, 116, 99, 112, 105, 112], id, 0x20000, 0x4000,
                         Utf8.Encode(host), port, [49, 50, 55, 46, 48, 46, 48, 46, 49], 0))
  {
    var c := Defaults(id).(host := Some(host), port := port);
    DefaultOriginatorFits(c, margin);
    DefaultOriginatorDecodes(c, margin);
    assert Fields(c) == OpenFields([100, 105, 114, 101, 99, 116, 45, 116, 99, 112, 105, 112], id, 0x20000, 0x4000,
                                   Utf8.Encode(host), port, [49, 50, 55, 46, 48, 46, 48, 46, 49], 0) by {
      DefaultOriginatorBytes();
    }
  }

  /** The peer's answer to the open message, as the session thread records it. */
  datatype Reply = Confirmed(recipient: int32, rmpsize: int32) | Refused

  /** How sendChannelOpen ended: raised before sending, sent and refused, or open with the peer's id and packet size. */
  datatype Attempt =
    | NotSent(failure: Failure)
    | SentRefused(message: seq<byte>)
    | Established(message: seq<byte>, recipient: int32, rmpsize: int32)

  /** sendChannelOpen: session check, packet, write, then the reply. */
  function OpenAttempt(sessionUp: bool, packet: Result<seq<byte>>, reply: Reply): (a: Attempt)
    ensures a.NotSent? <==> !sessionUp || packet.Err?
    ensures !sessionUp ==> a == NotSent(JSchException("session is down"))
    ensures !a.NotSent? ==> a.message == packet.value
    ensures a.Established? <==> sessionUp && packet.Ok? && reply.Confirmed?
  {
    if !sessionUp then NotSent(JSchException("session is down"))
    else if packet.Err? then NotSent(packet.failure)
    else if reply.Refused? then SentRefused(packet.value)
    else Established(packet.value, reply.recipient, reply.rmpsize)
  }

  /** The open message, when it went out. */
  function AttemptEvents(a: Attempt): seq<Event>
  {
    if a.NotSent? then [] else [OpenSent(a.message)]
  }

  /** The exception a failed attempt raises. */
  function AttemptFailure(a: Attempt): Failure
    requires !a.Established?
  {
    if a.NotSent? then a.failure else JSchException("channel is not opened.")
  }

  /** eof(): one SSH_MSG_CHANNEL_EOF unless one was sent already. */
  function EofEvents(eofLocal: bool): seq<Event>
  {
    if eofLocal then [] else [EofSent]
  }

  /**
   * The events of run(): the open attempt; then, if the channel is open and
   * the buffer (of the peer's packet size) can be allocated, the relay loop
   * while the worker is attached to an input stream; then eof() unless an
   * exception ended it, and disconnect() in every case.
   */
  function WorkerEvents(a: Attempt, attached: bool, margin: nat, steps: seq<ReadStep>, close: bool,
                        closeAt: set<nat>, eofLocal: bool): (es: seq<Event>)
  {
    AttemptEvents(a) + AfterOpenEvents(a, attached, margin, steps, close, closeAt, eofLocal)
  }

  /** The events of run() after sendChannelOpen: disconnect() alone when the open failed or the buffer cannot be allocated. */
  function AfterOpenEvents(a: Attempt, attached: bool, margin: nat, steps: seq<ReadStep>, close: bool,
                           closeAt: set<nat>, eofLocal: bool): (es: seq<Event>)
  {
    if !a.Established? || a.rmpsize < 0 then [Disconnected]
    else RelayEvents(a.recipient, a.rmpsize, attached, margin, steps, close, closeAt, eofLocal)
  }

  /** The events of run() once the buffer is allocated: the relay loop while attached, eof() unless a read failed, disconnect(). */
  function RelayEvents(recipient: int32, capacity: nat, attached: bool, margin: nat, steps: seq<ReadStep>, close: bool,
                       closeAt: set<nat>, eofLocal: bool): (es: seq<Event>)
  {
    if !attached then EofEvents(eofLocal) + [Disconnected]
    else
      var r := Loop(steps, capacity, margin, 0, close, closeAt);
      DataEvents(recipient, r.payloads) + (if r.exit == ByFailure then [] else EofEvents(eofLocal)) + [Disconnected]
  }


  /** RelayEvents of an attached worker, cut where the loop ends: the data, the eof() of a read of -1 or 0, and what follows the loop. */
  lemma RelayEventsSplit(recipient: int32, capacity: nat, margin: nat, steps: seq<ReadStep>, close: bool,
                         closeAt: set<nat>, eofLocal: bool, r: Relayed)
    requires r == Loop(steps, capacity, margin, 0, close, closeAt)
    ensures RelayEvents(recipient, capacity, true, margin, steps, close, closeAt, eofLocal) ==
      DataEvents(recipient, r.payloads) + (if r.exit == ByEndOfInput then EofEvents(eofLocal) else []) +
      ((if r.exit == ByFailure then [] else EofEvents(eofLocal || r.exit == ByEndOfInput)) + [Disconnected])
  {
  }

  /** The relay loop of run(), when it is reached: the channel is open, its buffer allocated and an input stream attached. */
  function WorkerRelay(a: Attempt, attached: bool, margin: nat, steps: seq<ReadStep>, close: bool, closeAt: set<nat>): Option<Relayed>
  {
    if a.Established? && a.rmpsize >= 0 && attached then Some(Loop(steps, a.rmpsize, margin, 0, close, closeAt)) else None
  }

  /** The relay part of the worker events. */
  lemma WorkerEventsShape(a: Attempt, attached: bool, margin: nat, steps: seq<ReadStep>, close: bool,
                          closeAt: set<nat>, eofLocal: bool)
    requires a.Established? && a.rmpsize >= 0 && attached
    ensures var r := Loop(steps, a.rmpsize, margin, 0, close, closeAt);
      WorkerEvents(a, attached, margin, steps, close, closeAt, eofLocal) ==
      [OpenSent(a.message)] + DataEvents(a.recipient, r.payloads) +
      ((if r.exit == ByFailure then [] else EofEvents(eofLocal)) + [Disconnected])
  {
    var r := Loop(steps, a.rmpsize, margin, 0, close, closeAt);
    var ds, eof := DataEvents(a.recipient, r.payloads), if r.exit == ByFailure then [] else EofEvents(eofLocal);
    assert AfterOpenEvents(a, attached, margin, steps, close, closeAt, eofLocal) == ds + eof + [Disconnected];
    AppendAssoc(ds, eof, [Disconnected]);
    AppendAssoc([OpenSent(a.message)], ds, eof + [Disconnected]);
  }

  /**
   * Termination: run() signals eof exactly when the channel opened with a
   * usable packet size, eof was not signalled before, and no exception
   * ended the relay loop; it is then the event just before the disconnect.
   * With WorkerOrder's at-most-once, eof is sent exactly once on that path.
   */
  lemma WorkerSendsEof(a: Attempt, attached: bool, margin: nat, steps: seq<ReadStep>, close: bool,
                       closeAt: set<nat>, eofLocal: bool)
    ensures var es, relay := WorkerEvents(a, attached, margin, steps, close, closeAt, eofLocal), WorkerRelay(a, attached, margin, steps, close, closeAt);
      var signals := a.Established? && a.rmpsize >= 0 && !eofLocal && (relay.None? || relay.value.exit != ByFailure);
      && (EofSent in es <==> signals)
      && (signals ==> |es| >= 2 && es[|es| - 2] == EofSent)
  {
    var es := WorkerEvents(a, attached, margin, steps, close, closeAt, eofLocal);
    match a
    case NotSent(_) =>
      assert es == [Disconnected];
    case SentRefused(m) =>
      assert es == [OpenSent(m), Disconnected];
    case Established(m, recipient, capacity) =>
      if capacity < 0 {
        assert es == [OpenSent(m), Disconnected];
      } else if !attached {
        assert es == [OpenSent(m)] + EofEvents(eofLocal) + [Disconnected];
      } else {
        var r := Loop(steps, capacity, margin, 0, close, closeAt);
        var ds := DataEvents(recipient, r.payloads);
        var eof := if r.exit == ByFailure then [] else EofEvents(eofLocal);
        WorkerEventsShape(a, attached, margin, steps, close, closeAt, eofLocal);
        AppendAssoc([OpenSent(m)] + ds, eof, [Disconnected]);
        assert es == [OpenSent(m)] + ds + eof + [Disconnected];
        assert EofSent !in [OpenSent(m)] + ds;
      }
  }

  /** The ordering facts of WorkerOrder for a trace open? + data + eof? + disconnect. */
  predicate Ordered(es: seq<Event>, eofLocal: bool)
  {
    && |es| > 0 && es[|es| - 1] == Disconnected
    && (forall j :: 0 <= j < |es| - 1 ==> es[j] != Disconnected)
    && (forall j :: 0 <= j < |es| && (es[j].DataSent? || es[j].EofSent?) ==> es[0].OpenSent?)
    && (forall j :: 0 < j < |es| ==> !es[j].OpenSent?)
    && (forall i, j :: 0 <= i < j < |es| && es[i] == EofSent ==> es[j] == Disconnected)
    && (eofLocal ==> forall j :: 0 <= j < |es| ==> es[j] != EofSent)
  }

  lemma OrderedOf(head: seq<Event>, ds: seq<Event>, eof: seq<Event>, eofLocal: bool)
    requires head == [] || (|head| == 1 && head[0].OpenSent?)
    requires forall j :: 0 <= j < |ds| ==> ds[j].DataSent?
    requires eof == [] || (eof == [EofSent] && !eofLocal)
    requires head == [] ==> ds == [] && eof == []
    ensures Ordered(head + ds + eof + [Disconnected], eofLocal)
  {
    var es := head + ds + eof + [Disconnected];
    assert forall j :: 0 <= j < |head| ==> es[j] == head[j];
    assert forall j :: |head| <= j < |head| + |ds| ==> es[j] == ds[j - |head|];
    assert forall j :: |head| + |ds| <= j < |es| - 1 ==> es[j] == eof[j - |head| - |ds|];
  }

  /**
   * Ordering: the open message is the first event whenever anything is
   * sent, never appears again, and comes before every data message; the
   * last event is the one disconnect(), and eof is signalled at most once,
   * after every data message, and not at all when it was signalled before.
   */
  lemma WorkerOrder(a: Attempt, attached: bool, margin: nat, steps: seq<ReadStep>, close: bool,
                    closeAt: set<nat>, eofLocal: bool)
    ensures Ordered(WorkerEvents(a, attached, margin, steps, close, closeAt, eofLocal), eofLocal)
  {
    var es := WorkerEvents(a, attached, margin, steps, close, closeAt, eofLocal);
    match a
    case NotSent(_) =>
      assert es == [] + [] + [] + [Disconnected];
      OrderedOf([], [], [], eofLocal);
    case SentRefused(m) =>
      assert es == [OpenSent(m)] + [] + [] + [Disconnected];
      OrderedOf([OpenSent(m)], [], [], eofLocal);
    case Established(m, recipient, capacity) =>
      if capacity < 0 {
        assert es == [OpenSent(m)] + [] + [] + [Disconnected];
        OrderedOf([OpenSent(m)], [], [], eofLocal);
      } else if !attached {
        assert es == [OpenSent(m)] + [] + EofEvents(eofLocal) + [Disconnected];
        OrderedOf([OpenSent(m)], [], EofEvents(eofLocal), eofLocal);
      } else {
        var r := Loop(steps, capacity, margin, 0, close, closeAt);
        var ds := DataEvents(recipient, r.payloads);
        var eof := if r.exit == ByFailure then [] else EofEvents(eofLocal);
        WorkerEventsShape(a, attached, margin, steps, close, closeAt, eofLocal);
        AppendAssoc([OpenSent(m)] + ds, eof, [Disconnected]);
        OrderedOf([OpenSent(m)], ds, eof, eofLocal);
      }
  }

  lemma DataFrame(recipient: int32, p: seq<byte>)
    requires |p| < Wire.TWO_32
    ensures var d := DataMessage(recipient, p);
      |d| == 9 + |p| && d[9..] == p && DecodeData(d) == Some((recipient, p))
  {
    DataRoundTrip(recipient, p, []);
  }

  /** The data messages of open + data + tail, for payloads within the read bound and a tail without data. */
  lemma FramesOfTrace(es: seq<Event>, m: seq<byte>, recipient: int32, ps: seq<seq<byte>>, tail: seq<Event>, capacity: int32, margin: nat)
    requires es == [OpenSent(m)] + DataEvents(recipient, ps) + tail
    requires forall p :: p in ps ==> 0 < |p| && DATA_OFFSET + |p| <= capacity - margin
    requires forall j :: 0 <= j < |tail| ==> !tail[j].DataSent?
    ensures forall e :: e in es && e.DataSent? ==>
      && DecodeData(e.message) == Some((recipient, e.message[9..]))
      && e.length == |e.message[9..]| > 0
      && Codec.PAYLOAD_OFFSET + |e.message| <= capacity - margin
  {
    var ds := DataEvents(recipient, ps);
    forall e | e in es && e.DataSent?
      ensures DecodeData(e.message) == Some((recipient, e.message[9..]))
      ensures e.length == |e.message[9..]| > 0
      ensures Codec.PAYLOAD_OFFSET + |e.message| <= capacity - margin
    {
      assert e in ds;
      var j :| 0 <= j < |ds| && ds[j] == e;
      assert ps[j] in ps;
      DataFrame(recipient, ps[j]);
    }
  }

  /** The payloads of open + data + tail are the data payloads, for a tail without data. */
  lemma PayloadsOfTrace(m: seq<byte>, recipient: int32, ps: seq<seq<byte>>, tail: seq<Event>)
    requires forall j :: 0 <= j < |tail| ==> !tail[j].DataSent?
    ensures Payloads([OpenSent(m)] + DataEvents(recipient, ps) + tail) == ps
  {
    var ds := DataEvents(recipient, ps);
    PayloadsAppend([OpenSent(m)], ds);
    PayloadsAppend([OpenSent(m)] + ds, tail);
    PayloadsWithoutData([OpenSent(m)]);
    PayloadsWithoutData(tail);
    PayloadsOfDataEvents(recipient, ps);
  }

  /**
   * Framing: each data message is a SSH_MSG_CHANNEL_DATA to the peer's
   * channel whose declared length is the number of bytes read, holds 1 to
   * capacity - 14 - margin of them, and ends by capacity - margin in the
   * buffer.
   */
  lemma WorkerFrames(a: Attempt, attached: bool, margin: nat, steps: seq<ReadStep>, close: bool,
                     closeAt: set<nat>, eofLocal: bool)
    requires a.Established? && a.rmpsize >= 0 && attached
    ensures forall e :: e in WorkerEvents(a, attached, margin, steps, close, closeAt, eofLocal) && e.DataSent? ==>
      && DecodeData(e.message) == Some((a.recipient, e.message[9..]))
      && e.length == |e.message[9..]| > 0
      && Codec.PAYLOAD_OFFSET + |e.message| <= a.rmpsize - margin
  {
    var r := Loop(steps, a.rmpsize, margin, 0, close, closeAt);
    var tail := (if r.exit == ByFailure then [] else EofEvents(eofLocal)) + [Disconnected];
    var es := WorkerEvents(a, attached, margin, steps, close, closeAt, eofLocal);
    WorkerEventsShape(a, attached, margin, steps, close, closeAt, eofLocal);
    LoopReadBound(steps, a.rmpsize, margin, 0, close, closeAt);
    FramesOfTrace(es, a.message, a.recipient, r.payloads, tail, a.rmpsize, margin);
  }

  /** Stream faithfulness: the payloads sent, in order, then the bytes dropped at close and what is left unread, are exactly what the stream held. */
  lemma WorkerForwards(a: Attempt, attached: bool, margin: nat, steps: seq<ReadStep>, close: bool,
                       closeAt: set<nat>, eofLocal: bool)
    requires a.Established? && a.rmpsize >= 0 && attached
    ensures var r := Loop(steps, a.rmpsize, margin, 0, close, closeAt);
      Concat(Payloads(WorkerEvents(a, attached, margin, steps, close, closeAt, eofLocal))) + r.abandoned + Data(r.rest) == Data(steps)
  {
    var r := Loop(steps, a.rmpsize, margin, 0, close, closeAt);
    var tail := (if r.exit == ByFailure then [] else EofEvents(eofLocal)) + [Disconnected];
    WorkerEventsShape(a, attached, margin, steps, close, closeAt, eofLocal);
    LoopForwardsInput(steps, a.rmpsize, margin, 0, close, closeAt);
    PayloadsOfTrace(a.message, a.recipient, r.payloads, tail);
  }

  /** What connect() did: its events, the exception it lets out, whether it tore down (closed the streams, cleared io, deregistered), and whether it started the worker. */
  datatype ConnectEffect = ConnectEffect(events: seq<Event>, thrown: Option<Failure>, teardown: bool, worker: bool)

  /** The catch block: io.close(), io = null, Channel.del(this), and only a JSchException rethrown. */
  function Teardown(sent: seq<Event>, e: Failure): (r: ConnectEffect)
    ensures r.teardown && !r.worker
    ensures |r.events| == |sent| + 2 && r.events[..|sent|] == sent && r.events[|sent|..] == [StreamsClosed, Deregistered]
    ensures r.thrown.Some? <==> e.JSchException?
    ensures r.thrown.Some? ==> r.thrown.value == e
  {
    ConnectEffect(sent + [StreamsClosed, Deregistered], if e.JSchException? then Some(e) else None, true, false)
  }

  /** The worker thread's name. */
  function WorkerName(sessionHost: string): string
  {
    "DirectTCPIP thread " + sessionHost
  }

  /**
   * connect(): fail when the session is down; start the worker when an
   * input stream is attached; otherwise run sendChannelOpen on the caller's
   * path. With io null (after an earlier failed connect) the catch block
   * itself raises NullPointerException.
   */
  function Connect(sessionUp: bool, ioPresent: bool, inputAttached: bool, a: Attempt,
                   sessionHost: string, daemon: bool): (e: ConnectEffect)
    ensures !sessionUp && ioPresent ==> e.thrown == Some(JSchException("session is down")) && e.teardown
    ensures !ioPresent ==> e == ConnectEffect([], Some(NullPointerException), false, false)
    ensures e.worker <==> sessionUp && ioPresent && inputAttached
    ensures e.worker ==> e.events == [WorkerStarted(WorkerName(sessionHost), daemon)]
    ensures ioPresent && e.thrown.Some? ==> e.thrown.value.JSchException? && e.teardown
    ensures ioPresent && sessionUp && !inputAttached ==>
      && (e.teardown <==> !a.Established?)
      && e.thrown == (if a.Established? || !AttemptFailure(a).JSchException? then None else Some(AttemptFailure(a)))
  {
    if !ioPresent then ConnectEffect([], Some(NullPointerException), false, false)
    else if !sessionUp then Teardown([], JSchException("session is down"))
    else if inputAttached then ConnectEffect([WorkerStarted(WorkerName(sessionHost), daemon)], None, false, true)
    else if a.Established? then ConnectEffect([OpenSent(a.message)], None, false, false)
    else Teardown(AttemptEvents(a), AttemptFailure(a))
  }

  /**
   * connect's log: nothing is opened and no worker started while the
   * session is down; on the caller's path the open attempt's events come
   * first, nothing after them opens, and the channel is torn down exactly
   * when the open was not confirmed; a teardown ends with the streams
   * closed and then the channel deregistered.
   */
  lemma ConnectEvents(sessionUp: bool, ioPresent: bool, inputAttached: bool, a: Attempt, sessionHost: string, daemon: bool)
    ensures var e := Connect(sessionUp, ioPresent, inputAttached, a, sessionHost, daemon);
      !sessionUp ==> forall j :: 0 <= j < |e.events| ==> !e.events[j].OpenSent? && !e.events[j].WorkerStarted?
    ensures var e := Connect(sessionUp, ioPresent, inputAttached, a, sessionHost, daemon);
      sessionUp && ioPresent && !inputAttached ==>
        && |AttemptEvents(a)| <= |e.events| && e.events[..|AttemptEvents(a)|] == AttemptEvents(a)
        && (forall j :: |AttemptEvents(a)| <= j < |e.events| ==> !e.events[j].OpenSent?)
        && (e.teardown <==> !a.Established?)
    ensures var e := Connect(sessionUp, ioPresent, inputAttached, a, sessionHost, daemon);
      e.teardown ==> |e.events| >= 2 && e.events[|e.events| - 2..] == [StreamsClosed, Deregistered]
  {
    var e := Connect(sessionUp, ioPresent, inputAttached, a, sessionHost, daemon);
    if ioPresent && !sessionUp {
      assert e.events == [StreamsClosed, Deregistered];
    } else if ioPresent && !inputAttached {
      var sent := AttemptEvents(a);
      if a.Established? {
        assert e.events == sent == [OpenSent(a.message)];
        assert e.events[..|sent|] == sent;
      } else {
        var tail := [StreamsClosed, Deregistered];
        assert e.events == sent + tail;
        assert e.events[..|sent|] == sent;
        assert forall j :: |sent| <= j < |e.events| ==> e.events[j] == tail[j - |sent|];
        assert e.events[|e.events| - 2..] == tail;
      }
    }
  }
}
