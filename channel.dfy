/**
 * The "direct-tcpip" channel object: its fields, the setters, the
 * open-packet builder, `connect`, and the worker body `run`. Everything
 * the channel does that others can observe is appended to `trace`, the
 * session's log of what the channel sent and did. The parts of Channel.java
 * it relies on (sendChannelOpen, eof, disconnect, the channel registry)
 * are not part of this model and appear as small methods with the
 * behaviour stated in their contracts.
 */
module DirectTcpip {
  import opened Base
  import opened Frames
  import opened Streams
  import opened Relay
  import opened Protocol
  import Codec
  import Utf8
  import Wire

  /** What the channel asks of its session: whether it is connected, its host name, whether threads are daemons, and the transport's buffer margin. */
  class Session {
    var connected: bool
    const host: string
    const daemonThread: bool
    const bufferMargin: nat

    constructor (connected: bool, host: string, daemonThread: bool, bufferMargin: nat)
      ensures this.connected == connected && this.host == host
      ensures this.daemonThread == daemonThread && this.bufferMargin == bufferMargin
    {
      this.connected := connected;
      this.host := host;
      this.daemonThread := daemonThread;
      this.bufferMargin := bufferMargin;
    }
  }

  class ChannelDirectTCPIP {
    const session: Session
    const id: int32
    const channelType: seq<byte>
    var lwsizeMax: int32
    var lwsize: int32
    var lmpsize: int32
    var recipient: int32        // the peer's channel number, -1 until the open is confirmed
    var rmpsize: int32          // the peer's maximum packet size
    var connected: bool
    var close: bool             // raised by the session thread when the peer closes the channel
    var eofLocal: bool          // SSH_MSG_CHANNEL_EOF already sent
    var connectTimeout: int32
    var io: Option<IO>          // None while the Java field is null
    var thread: bool            // a worker thread has been created
    var registered: bool        // in the channel registry
    var trace: seq<Event>
    var host: Option<string>
    var port: int32
    var originatorIPAddress: string
    var originatorPort: int32

    /** new ChannelDirectTCPIP() on a session, with the id the registry handed out. */
    constructor (session: Session, id: int32)
      ensures this.session == session && this.id == id
      ensures Config() == Defaults(id) && lwsizeMax == LOCAL_WINDOW_SIZE_MAX
      ensures recipient == -1 && rmpsize == 0 && !connected && !close && !eofLocal && connectTimeout == 0
      ensures io == None && !thread && registered && trace == []
    {
      this.session := session;
      this.id := id;
      channelType := DIRECT_TCPIP;
      lwsizeMax := LOCAL_WINDOW_SIZE_MAX;
      lwsize := LOCAL_WINDOW_SIZE_MAX;
      lmpsize := LOCAL_MAXIMUM_PACKET_SIZE;
      recipient := -1;
      rmpsize := 0;
      connected := false;
      close := false;
      eofLocal := false;
      connectTimeout := 0;
      io := None;
      thread := false;
      registered := true;
      trace := [];
      host := None;
      port := 0;
      originatorIPAddress := DEFAULT_ORIGINATOR;
      originatorPort := 0;
    }

    /** What genChannelOpenPacket reads. */
    function Config(): Config
      reads this`lwsize, this`lmpsize, this`host, this`port, this`originatorIPAddress, this`originatorPort
    {
      Protocol.Config(channelType, id, lwsize, lmpsize, host, port, originatorIPAddress, originatorPort)
    }

    /** The attached input stream, if io and io.in are both set. */
    function Input(): Option<Source>
      reads this`io
    {
      if io.Some? then io.value.input else None
    }

    function InputSet(): set<object>
      reads this`io
    {
      if Input().Some? then {Input().value} else {}
    }

    /** What the attached input stream has still to deliver. */
    function InputSteps(): seq<ReadStep>
      reads this`io, InputSet()
    {
      if Input().Some? then Input().value.steps else []
    }

    /** init(): a fresh IO with neither stream attached. */
    method Init()
      modifies this`io
      ensures io == Some(IO(None, None))
    {
      io := Some(IO(None, None));
    }

    method SetHost(host: string)
      modifies this`host
      ensures this.host == Some(host)
    {
      this.host := Some(host);
    }

    method SetPort(port: int32)
      modifies this`port
      ensures this.port == port
    {
      this.port := port;
    }

    method SetOrgIPAddress(address: string)
      modifies this`originatorIPAddress
      ensures originatorIPAddress == address
    {
      originatorIPAddress := address;
    }

    method SetOrgPort(port: int32)
      modifies this`originatorPort
      ensures originatorPort == port
    {
      originatorPort := port;
    }

    /** setInputStream: attaches (or, with None, detaches) the stream to forward; NullPointerException when io is null. */
    method SetInputStream(input: Option<Source>) returns (thrown: Option<Failure>)
      modifies this`io
      ensures old(io).None? ==> thrown == Some(NullPointerException) && io == old(io)
      ensures old(io).Some? ==> thrown == None && io == Some(old(io).value.(input := input))
    {
      if io.None? {
        return Some(NullPointerException);
      }
      io := Some(io.value.(input := input));
      return None;
    }

    /** setOutputStream: attaches the stream that receives the peer's data; NullPointerException when io is null. */
    method SetOutputStream(output: Option<Sink>) returns (thrown: Option<Failure>)
      modifies this`io
      ensures old(io).None? ==> thrown == Some(NullPointerException) && io == old(io)
      ensures old(io).Some? ==> thrown == None && io == Some(old(io).value.(output := output))
    {
      if io.None? {
        return Some(NullPointerException);
      }
      io := Some(io.value.(output := output));
      return None;
    }

    /** The first five puts of genChannelOpenPacket: message type, channel type, id, window and packet size. */
    method PutHeader(buf: Codec.Buffer) returns (ok: bool)
      requires Codec.PAYLOAD_OFFSET <= buf.index <= buf.buffer.Length
      modifies buf, buf.buffer
      ensures buf.buffer == old(buf.buffer)
      ensures ok <==> old(buf.index) + 17 + |channelType| <= buf.buffer.Length
      ensures ok ==> buf.index == old(buf.index) + 17 + |channelType|
      ensures ok ==> buf.Message() == old(buf.Message()) + [SSH_MSG_CHANNEL_OPEN] + Wire.Str(channelType) + Wire.U32(id) + Wire.U32(lwsize) + Wire.U32(lmpsize)
    {
      ok := buf.PutByte(SSH_MSG_CHANNEL_OPEN);
      if !ok { return; }
      ok := buf.PutString(channelType);
      if !ok { return; }
      ok := buf.PutInt(id);
      if !ok { return; }
      ok := buf.PutInt(lwsize);
      if !ok { return; }
      ok := buf.PutInt(lmpsize);
    }

    /** The last four puts of genChannelOpenPacket: host and port, originator address and port. */
    method PutTarget(buf: Codec.Buffer, hostBytes: seq<byte>, originatorBytes: seq<byte>) returns (ok: bool)
      requires Codec.PAYLOAD_OFFSET <= buf.index <= buf.buffer.Length
      modifies buf, buf.buffer
      ensures buf.buffer == old(buf.buffer)
      ensures ok <==> old(buf.index) + 16 + |hostBytes| + |originatorBytes| <= buf.buffer.Length
      ensures ok ==> buf.index == old(buf.index) + 16 + |hostBytes| + |originatorBytes|
      ensures ok ==> buf.Message() == old(buf.Message()) + Wire.Str(hostBytes) + Wire.U32(port) + Wire.Str(originatorBytes) + Wire.U32(originatorPort)
    {
      ok := buf.PutString(hostBytes);
      if !ok { return; }
      ok := buf.PutInt(port);
      if !ok { return; }
      ok := buf.PutString(originatorBytes);
      if !ok { return; }
      ok := buf.PutInt(originatorPort);
    }

    /**
     * genChannelOpenPacket: a buffer sized from the Java string lengths,
     * then the nine puts after the reset offset. Proved to write exactly
     * OpenPacket's message, or to raise what OpenPacket says.
     */
    method GenChannelOpenPacket() returns (r: Result<Codec.Packet>)
      ensures match OpenPacket(Config(), session.bufferMargin)
        case Ok(m) =>
          && r.Ok? && fresh(r.value) && fresh(r.value.buffer) && fresh(r.value.buffer.buffer)
          && r.value.buffer.index == Codec.PAYLOAD_OFFSET + |m| <= r.value.buffer.buffer.Length
          && r.value.buffer.Message() == m
        case Err(f) => r == Err(f)
    {
      if host.None? {
        return Err(NullPointerException);
      }
      var hostBytes, originatorBytes := Utf8.Encode(host.value), Utf8.Encode(originatorIPAddress);
      var buf := new Codec.Buffer(50 + Utf8.JavaLength(host.value) + Utf8.JavaLength(originatorIPAddress) + session.bufferMargin);
      var packet := new Codec.Packet(buf);
      packet.Reset();
      OpenPacketLength(Config(), session.bufferMargin);
      OpenInOrder(Fields(Config()));
      assert buf.Message() == [];
      var ok := PutHeader(buf);
      if !ok {
        return Err(ArrayIndexOutOfBoundsException);
      }
      ok := PutTarget(buf, hostBytes, originatorBytes);
      if !ok {
        return Err(ArrayIndexOutOfBoundsException);
      }
      return Ok(packet);
    }

    /**
     * Channel.sendChannelOpen, as this model assumes it: fail when the
     * session is down, write the open packet, then take the peer's reply --
     * on confirmation record its channel number and packet size and count
     * the channel as connected, on refusal raise "channel is not opened.".
     */
    method SendChannelOpen(reply: Reply) returns (thrown: Option<Failure>)
      modifies this`trace, this`recipient, this`rmpsize, this`connected
      ensures var a := OpenAttempt(session.connected, OpenPacket(old(Config()), session.bufferMargin), reply);
        && trace == old(trace) + AttemptEvents(a)
        && thrown == (if a.Established? then None else Some(AttemptFailure(a)))
        && (a.Established? ==> recipient == a.recipient && rmpsize == a.rmpsize && connected)
        && (!a.Established? ==> recipient == old(recipient) && rmpsize == old(rmpsize) && connected == old(connected))
    {
      if !session.connected {
        return Some(JSchException("session is down"));
      }
      var packet := GenChannelOpenPacket();
      if packet.Err? {
        return Some(packet.failure);
      }
      trace := trace + [OpenSent(packet.value.buffer.Message())];
      match reply
      case Refused =>
        return Some(JSchException("channel is not opened."));
      case Confirmed(peer, peerPacketSize) =>
        recipient, rmpsize, connected := peer, peerPacketSize, true;
        return None;
    }

    /** Channel.eof: one SSH_MSG_CHANNEL_EOF, and none once it has been sent. */
    method Eof()
      modifies this`trace, this`eofLocal
      ensures eofLocal && trace == old(trace) + EofEvents(old(eofLocal))
    {
      if eofLocal {
        return;
      }
      eofLocal := true;
      trace := trace + [EofSent];
    }

    /** Channel.disconnect, recorded as one event that leaves the channel not connected. */
    method Disconnect()
      modifies this`trace, this`connected
      ensures !connected && trace == old(trace) + [Disconnected]
    {
      connected := false;
      trace := trace + [Disconnected];
    }

    /** The catch block of connect: io.close(), io = null, Channel.del(this), and only a JSchException passed on. */
    method Release(e: Failure) returns (thrown: Option<Failure>)
      requires io.Some?
      modifies this`trace, this`io, this`registered
      ensures trace == old(trace) + [StreamsClosed, Deregistered] && io == None && !registered
      ensures thrown == Teardown([], e).thrown
    {
      trace := trace + [StreamsClosed];
      io := None;
      trace := trace + [Deregistered];
      registered := false;
      thrown := if e.JSchException? then Some(e) else None;
    }

    /** Protocol.Connect for this channel's session. */
    function Effect(ioPresent: bool, inputAttached: bool, a: Attempt): ConnectEffect
      reads session
    {
      Protocol.Connect(session.connected, ioPresent, inputAttached, a, session.host, session.daemonThread)
    }

    /**
     * connect(connectTimeout): stores the timeout, then acts as the
     * function Protocol.Connect describes: what is logged, what is thrown,
     * whether io is cleared and the channel deregistered, and whether a
     * worker is started; on a confirmed open the peer's parameters are
     * recorded.
     */
    method Connect(connectTimeout: int32, reply: Reply) returns (thrown: Option<Failure>)
      modifies this`connectTimeout, this`io, this`thread, this`registered, this`trace,
               this`recipient, this`rmpsize, this`connected
      ensures this.connectTimeout == connectTimeout
      ensures var e := Effect(old(io).Some?, old(Input()).Some?, OpenAttempt(session.connected, OpenPacket(old(Config()), session.bufferMargin), reply));
        && trace == old(trace) + e.events
        && thrown == e.thrown
      ensures var e := Effect(old(io).Some?, old(Input()).Some?, OpenAttempt(session.connected, OpenPacket(old(Config()), session.bufferMargin), reply));
        && io == (if e.teardown then None else old(io))
        && registered == (old(registered) && !e.teardown)
        && thread == (old(thread) || e.worker)
      ensures var a := OpenAttempt(session.connected, OpenPacket(old(Config()), session.bufferMargin), reply);
        var confirmed := session.connected && old(io).Some? && old(Input()).None? && a.Established?;
        && (confirmed ==> recipient == a.recipient && rmpsize == a.rmpsize && connected)
        && (!confirmed ==> recipient == old(recipient) && rmpsize == old(rmpsize) && connected == old(connected))
    {
      if io.None? {
        // io.in, and then io.close() in the catch block, dereference null
        thrown := Some(NullPointerException);
      } else if !session.connected {
        thrown := Release(JSchException("session is down"));
      } else if io.value.input.Some? {
        thread := true;
        trace := trace + [WorkerStarted(WorkerName(session.host), session.daemonThread)];
        thrown := None;
      } else {
        thrown := OpenInline(reply);
      }
      this.connectTimeout := connectTimeout;
    }

    /** The last branch of connect: sendChannelOpen on the caller's path, and the catch block when it fails. */
    method OpenInline(reply: Reply) returns (thrown: Option<Failure>)
      requires session.connected && io.Some? && Input().None?
      modifies this`io, this`registered, this`trace, this`recipient, this`rmpsize, this`connected
      ensures var e := Effect(true, false, OpenAttempt(true, OpenPacket(old(Config()), session.bufferMargin), reply));
        && trace == old(trace) + e.events
        && thrown == e.thrown
        && io == (if e.teardown then None else old(io))
        && registered == (old(registered) && !e.teardown)
      ensures var a := OpenAttempt(true, OpenPacket(old(Config()), session.bufferMargin), reply);
        && (a.Established? ==> recipient == a.recipient && rmpsize == a.rmpsize && connected)
        && (!a.Established? ==> recipient == old(recipient) && rmpsize == old(rmpsize) && connected == old(connected))
    {
      ghost var a := OpenAttempt(true, OpenPacket(Config(), session.bufferMargin), reply);
      var failure := SendChannelOpen(reply);
      if failure.Some? {
        thrown := Release(failure.value);
        assert Effect(true, false, a) == Teardown(AttemptEvents(a), failure.value);
        AppendAssoc(old(trace), AttemptEvents(a), [StreamsClosed, Deregistered]);
      } else {
        thrown := None;
        assert Effect(true, false, a) == ConnectEffect([OpenSent(a.message)], None, false, false);
      }
    }

    /**
     * run(): the open handshake, then the relay loop while the session and
     * the channel are connected, a worker exists and an input stream is
     * attached, then eof() and disconnect(); an exception skips eof().
     * closeAt holds the iterations in which the session thread raises
     * close between the read and its check. Proved to log exactly
     * Protocol.WorkerEvents and to consume the stream as Relay.Loop does.
     */
    method Run(reply: Reply, closeAt: set<nat>)
      modifies this`trace, this`recipient, this`rmpsize, this`connected, this`close, this`eofLocal, InputSet()
      ensures var a := OpenAttempt(session.connected, OpenPacket(old(Config()), session.bufferMargin), reply);
        trace == old(trace) + WorkerEvents(a, old(thread) && old(Input()).Some?, session.bufferMargin, old(InputSteps()), old(close), closeAt, old(eofLocal))
      ensures var a := OpenAttempt(session.connected, OpenPacket(old(Config()), session.bufferMargin), reply);
        var relay := WorkerRelay(a, old(thread) && old(Input()).Some?, session.bufferMargin, old(InputSteps()), old(close), closeAt);
        && InputSteps() == (if relay.Some? then relay.value.rest else old(InputSteps()))
        && close == (old(close) || (relay.Some? && relay.value.exit == ByClose))
        && eofLocal == (old(eofLocal) || (a.Established? && a.rmpsize >= 0 && (relay.None? || relay.value.exit != ByFailure)))
      ensures var a := OpenAttempt(session.connected, OpenPacket(old(Config()), session.bufferMargin), reply);
        && !connected
        && (a.Established? ==> recipient == a.recipient && rmpsize == a.rmpsize)
        && (!a.Established? ==> recipient == old(recipient) && rmpsize == old(rmpsize))
    {
      ghost var a := OpenAttempt(session.connected, OpenPacket(Config(), session.bufferMargin), reply);
      ghost var attached, steps, close0, eof0 := thread && Input().Some?, InputSteps(), close, eofLocal;
      var failure := SendChannelOpen(reply);
      AfterOpen(a, attached, failure.Some?, closeAt);
      AppendAssoc(old(trace), AttemptEvents(a), AfterOpenEvents(a, attached, session.bufferMargin, steps, close0, closeAt, eof0));
    }

    /** run() after sendChannelOpen returned or raised, a being what it did. */
    method AfterOpen(ghost a: Attempt, ghost attached: bool, failed: bool, closeAt: set<nat>)
      requires attached == (thread && Input().Some?)
      requires failed <==> !a.Established?
      requires a.Established? ==> session.connected && connected && recipient == a.recipient && rmpsize == a.rmpsize
      modifies this`trace, this`connected, this`close, this`eofLocal, InputSet()
      ensures trace == old(trace) + AfterOpenEvents(a, attached, session.bufferMargin, old(InputSteps()), old(close), closeAt, old(eofLocal))
      ensures var relay := WorkerRelay(a, attached, session.bufferMargin, old(InputSteps()), old(close), closeAt);
        && InputSteps() == (if relay.Some? then relay.value.rest else old(InputSteps()))
        && close == (old(close) || (relay.Some? && relay.value.exit == ByClose))
        && eofLocal == (old(eofLocal) || (a.Established? && a.rmpsize >= 0 && (relay.None? || relay.value.exit != ByFailure)))
      ensures !connected
    {
      ghost var steps, close0, eof0 := InputSteps(), close, eofLocal;
      ghost var events := AfterOpenEvents(a, attached, session.bufferMargin, steps, close0, closeAt, eof0);
      ghost var relay := WorkerRelay(a, attached, session.bufferMargin, steps, close0, closeAt);
      if failed {
        // the catch block: sendChannelOpen failed, so connected is false
        if !connected {
          connected := true;
        }
        Disconnect();
        assert events == [Disconnected] && relay == None;
        return;
      }
      if rmpsize < 0 {
        // new Buffer(rmpsize) raises NegativeArraySizeException
        Disconnect();
        assert events == [Disconnected] && relay == None;
        return;
      }
      assert events == RelayEvents(recipient, rmpsize as nat, attached, session.bufferMargin, steps, close0, closeAt, eof0);
      assert relay == if attached then Some(Loop(steps, rmpsize as nat, session.bufferMargin, 0, close0, closeAt)) else None;
      Forward(closeAt);
    }

    /**
     * run() after a confirmed open: the buffer of the peer's packet size,
     * the relay loop, then eof() unless a read raised an exception, and
     * disconnect(). Stated as Protocol.RelayEvents.
     */
    method Forward(closeAt: set<nat>)
      requires session.connected && connected && 0 <= rmpsize
      modifies this`trace, this`connected, this`close, this`eofLocal, InputSet()
      ensures trace == old(trace) + RelayEvents(recipient, rmpsize as nat, thread && Input().Some?, session.bufferMargin, old(InputSteps()), old(close), closeAt, old(eofLocal))
      ensures var r := Loop(old(InputSteps()), rmpsize as nat, session.bufferMargin, 0, old(close), closeAt);
        var attached := thread && Input().Some?;
        && InputSteps() == (if attached then r.rest else old(InputSteps()))
        && close == (old(close) || (attached && r.exit == ByClose))
        && eofLocal == (old(eofLocal) || !attached || r.exit != ByFailure)
        && !connected
    {
      var buf := new Codec.Buffer(rmpsize as nat);
      var packet := new Codec.Packet(buf);
      if !(thread && io.Some? && io.value.input.Some?) {
        // the loop condition fails at once
        Finish(false);
        return;
      }
      var src := io.value.input.value;
      ghost var steps0, close0, eof0 := src.steps, close, eofLocal;
      assert steps0 == old(InputSteps());
      var failed, r := RelayLoop(src, packet, closeAt);
      Finish(failed);
      RelayEventsSplit(recipient, rmpsize as nat, session.bufferMargin, steps0, close0, closeAt, eof0, r);
      ghost var ds, mid := DataEvents(recipient, r.payloads), if r.exit == ByEndOfInput then EofEvents(eof0) else [];
      AppendAssoc(old(trace), ds, mid);
      AppendAssoc(old(trace), ds + mid, (if r.exit == ByFailure then [] else EofEvents(eof0 || r.exit == ByEndOfInput)) + [Disconnected]);
      assert thread && Input().Some?;
      assert trace == old(trace) + RelayEvents(recipient, rmpsize as nat, true, session.bufferMargin, steps0, close0, closeAt, eof0);
    }

    /**
     * The relay loop itself: while the session and the channel are
     * connected, a worker exists and the input stream is attached, one
     * Pump per iteration; only Pump's stop leaves it. Proved to do what
     * Relay.Loop describes; failed says a read raised an exception.
     */
    method RelayLoop(src: Source, packet: Codec.Packet, closeAt: set<nat>) returns (failed: bool, ghost r: Relayed)
      requires session.connected && connected && thread && Input() == Some(src)
      requires packet.buffer.buffer.Length < 0x8000_0000
      modifies this`trace, this`close, this`eofLocal, src, packet.buffer, packet.buffer.buffer
      ensures packet.buffer.buffer == old(packet.buffer.buffer)
      ensures r == Loop(old(src.steps), packet.buffer.buffer.Length, session.bufferMargin, 0, old(close), closeAt)
      ensures src.steps == r.rest && (failed <==> r.exit == ByFailure)
      ensures trace == old(trace) + DataEvents(recipient, r.payloads) + (if r.exit == ByEndOfInput then EofEvents(old(eofLocal)) else [])
      ensures eofLocal == (old(eofLocal) || r.exit == ByEndOfInput) && close == (old(close) || r.exit == ByClose)
    {
      var buf := packet.buffer;
      ghost var capacity, margin := buf.buffer.Length, session.bufferMargin;
      ghost var bytes := buf.buffer;
      ghost var trace0, close0, eof0 := trace, close, eofLocal;
      r := Loop(src.steps, capacity, margin, 0, close0, closeAt);
      ghost var done: seq<seq<byte>> := [];
      failed := false;
      var k: nat := 0;
      while session.connected && connected && thread && io.Some? && io.value.input.Some?
        modifies this`trace, this`close, this`eofLocal, src, buf, buf.buffer
        invariant session.connected && connected && thread && io.Some? && io.value.input == Some(src)
        invariant close == close0 && eofLocal == eof0 && !failed
        invariant packet.buffer == buf && buf.buffer == bytes && bytes.Length == capacity
        invariant trace == trace0 + DataEvents(recipient, done)
        invariant var rk := Loop(src.steps, capacity, margin, k, close0, closeAt);
          r.payloads == done + rk.payloads && r.exit == rk.exit && r.abandoned == rk.abandoned && r.rest == rk.rest
        decreases Size(src.steps)
      {
        ghost var rk := Loop(src.steps, capacity, margin, k, close0, closeAt);
        var stop, payload := Pump(src, packet, k, closeAt);
        if stop.Some? {
          failed := stop.value;
          assert r.payloads == done && r.rest == src.steps && r.exit == rk.exit;
          return;
        }
        ghost var rk' := Loop(src.steps, capacity, margin, k + 1, close0, closeAt);
        assert rk.payloads == [payload] + rk'.payloads && rk.exit == rk'.exit && rk.abandoned == rk'.abandoned && rk.rest == rk'.rest;
        AppendAssoc(done, [payload], rk'.payloads);
        DataEventsSnoc(recipient, done, payload);
        done := done + [payload];
        k := k + 1;
      }
      // the guard cannot fail: nothing in the loop changes it
      assert false;
    }

    /** The code after the relay loop, or the catch block when failed: eof() unless failed, then disconnect(). */
    method Finish(failed: bool)
      modifies this`trace, this`connected, this`eofLocal
      ensures trace == old(trace) + ((if failed then [] else EofEvents(old(eofLocal))) + [Disconnected])
      ensures eofLocal == (old(eofLocal) || !failed) && !connected
    {
      if !failed {
        Eof();
      }
      Disconnect();
    }

    /**
     * One pass of the relay loop: read into the buffer from offset 14; on
     * -1 or 0 call eof() and stop; otherwise frame the bytes, let the
     * session thread raise close when k is in closeAt, stop when close is
     * up, and write the frame otherwise. The result is None to go on,
     * Some(true) when the read raised an exception and Some(false) when the
     * loop ends normally; Relay.Loop states which.
     */
    method Pump(src: Source, packet: Codec.Packet, k: nat, closeAt: set<nat>) returns (stop: Option<bool>, ghost payload: seq<byte>)
      requires Input() == Some(src) && packet.buffer.buffer.Length < 0x8000_0000
      modifies this`trace, this`close, this`eofLocal, src, packet.buffer, packet.buffer.buffer
      ensures packet.buffer.buffer == old(packet.buffer.buffer)
      ensures var r := Loop(old(src.steps), packet.buffer.buffer.Length, session.bufferMargin, k, old(close), closeAt);
        stop.Some? ==>
          && r.payloads == [] && src.steps == r.rest && (stop.value <==> r.exit == ByFailure)
          && trace == old(trace) + (if r.exit == ByEndOfInput then EofEvents(old(eofLocal)) else [])
          && eofLocal == (old(eofLocal) || r.exit == ByEndOfInput)
          && close == (old(close) || r.exit == ByClose)
      ensures var r' := Loop(src.steps, packet.buffer.buffer.Length, session.bufferMargin, k + 1, old(close), closeAt);
        stop.None? ==>
          && Loop(old(src.steps), packet.buffer.buffer.Length, session.bufferMargin, k, old(close), closeAt) == r'.(payloads := [payload] + r'.payloads)
          && trace == old(trace) + [DataSent(DataMessage(recipient, payload), |payload|)]
          && eofLocal == old(eofLocal) && close == old(close)
          && Size(src.steps) < Size(old(src.steps))
    {
      var buf := packet.buffer;
      ghost var capacity, margin := buf.buffer.Length, session.bufferMargin;
      ghost var before := buf.buffer[..];
      ghost var outcome := ReadOf(src.steps, DATA_OFFSET, ReadLimit(capacity, margin), capacity);
      LoopUnfold(src.steps, capacity, margin, k, close, closeAt);
      var n, thrown := src.Read(buf.buffer, DATA_OFFSET, buf.buffer.Length - DATA_OFFSET - session.bufferMargin);
      if thrown.Some? {
        return Some(true), [];
      }
      if n <= 0 {
        Eof();
        return Some(false), [];
      }
      payload := outcome.bytes;
      Codec.OverwriteExtends(before, DATA_OFFSET, DATA_OFFSET, payload);
      var closed := Deliver(packet, n, k in closeAt);
      stop := if closed then Some(false) else None;
    }

    /**
     * The rest of a pass once n > 0 bytes sit at offset 14: frame them, let
     * the session thread raise close (raise), and write the frame unless
     * close is up; closed says the loop ends here.
     */
    method Deliver(packet: Codec.Packet, n: int32, raise: bool) returns (closed: bool)
      requires 0 <= n && DATA_OFFSET + n <= packet.buffer.buffer.Length
      modifies this`trace, this`close, packet.buffer, packet.buffer.buffer
      ensures packet.buffer.buffer == old(packet.buffer.buffer)
      ensures close == (old(close) || raise) && closed == close
      ensures var payload := old(packet.buffer.buffer[DATA_OFFSET..DATA_OFFSET + n]);
        trace == old(trace) + (if closed then [] else [DataSent(DataMessage(recipient, payload), n as int)])
    {
      FrameData(packet, n);
      if raise {
        close := true;
      }
      if close {
        return true;
      }
      trace := trace + [DataSent(packet.buffer.Message(), n)];
      return false;
    }

    /** packet.reset(), putByte(94), putInt(recipient), putInt(n), skip(n): the data message around the n bytes a read left at offset 14. */
    method FrameData(packet: Codec.Packet, n: int32)
      requires 0 <= n && DATA_OFFSET + n <= packet.buffer.buffer.Length
      modifies packet.buffer, packet.buffer.buffer
      ensures packet.buffer.buffer == old(packet.buffer.buffer)
      ensures packet.buffer.index == DATA_OFFSET + n
      ensures packet.buffer.Message() == DataMessage(recipient, old(packet.buffer.buffer[DATA_OFFSET..DATA_OFFSET + n]))
    {
      var buf := packet.buffer;
      ghost var before := buf.buffer[..];
      packet.Reset();
      var ok := buf.PutByte(SSH_MSG_CHANNEL_DATA);
      ok := buf.PutInt(recipient);
      ok := buf.PutInt(n);
      buf.Skip(n);
      HeaderBeforePayload(before, recipient, n as nat);
    }
  }
}
