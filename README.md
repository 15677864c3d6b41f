# ChannelDirectTCPIP in Dafny

A model of JSch's `ChannelDirectTCPIP`. This is the SSH "direct-tcpip" channel of section 7.2 of RFC 4254: it asks the server to open a TCP connection to a host and port, then forwards a local input stream into that connection.

The model covers:
- the channel's fields and constructor defaults;
- the four target/originator setters and the two stream setters;
- `genChannelOpenPacket`, which writes the SSH_MSG_CHANNEL_OPEN message into a byte buffer;
- `connect`, which either starts a worker or opens the channel on the caller's path and tears the channel down on failure;
- `run`, the worker body. It sends the open message, then loops: read from the input stream into the buffer at offset 14, put the SSH_MSG_CHANNEL_DATA header in front, and hand the frame to the session unless `close` is set. It ends with `eof()` and `disconnect()`.

Modules, in dependency order:

- `Base`: bytes, Java `int` (`int32`), `Option`, `Result`, and the Java exceptions the channel can raise.
- `Wire`: the `uint32` and `string` encodings of section 5 of RFC 4251, with their decoders and round trips.
- `Utf8`: `Util.str2byte` as UTF-8 (RFC 3629) and `String.length` as UTF-16 code units.
- `Codec`: the frame buffer as the channel uses it.
  - A `Buffer` class holds a byte `array` and an index that the puts advance in place.
  - A `Packet` class has `reset`, which places the index at offset 5.
  - Buffer.java and Packet.java are not part of this model. Their behaviour is assumed and stated in the contracts of `Codec.Buffer`'s methods.
- `Frames`: the channel-open message (sections 5.1 and 7.2 of RFC 4254) and the channel-data message (section 5.2), each with a decoder proved to invert it.
- `Streams`: the input stream as a script of what successive `read` calls deliver (bytes, end of stream, or an `IOException`), and a `Source` class whose `read` follows the script.
- `Relay`: the relay loop of `run` as a pure function (`Relay.Loop`) of the script, the buffer capacity, the session's buffer margin and the close flag. Lemmas give its read bound, its handling of close, and the fact that it forwards the stream faithfully.
- `Protocol`: pure descriptions of the channel's behaviour.
  - `Protocol.OpenPacket` is the open packet.
  - `Protocol.OpenAttempt` is the handshake outcome.
  - `Protocol.WorkerEvents` is everything `run` does.
  - `Protocol.Connect` is what `connect` does.
  - Lemmas state ordering, framing and faithfulness of these.
- `DirectTcpip`: the `ChannelDirectTCPIP` class with the source's fields. Its methods are proved to do what the `Protocol` functions describe.
  - `Session` holds the session state the channel reads.
  - `trace` is the log of what the channel sends to the session and does: the open message, data frames, EOF, disconnect, worker start, stream close, deregistration.

What the channel cannot see is modelled as a parameter:
- the peer's answer to the open message (`Protocol.Reply`);
- what the input stream delivers (a `Streams.Source` script);
- the iterations in which the session thread raises `close` between a read and its check (`closeAt`).

An exception in `run` skips `eof()`: the catch block at src/main/java/com/jcraft/jsch/ChannelDirectTCPIP.java:142-149 calls only `disconnect()` and returns.

Behaviour the model makes explicit:
- The open buffer is sized from Java string lengths (UTF-16 units) plus the session's buffer margin, but the strings are written as UTF-8 bytes.
  - `Protocol.OpenPacketFits` states exactly when the packet fits; ASCII strings always fit.
  - `Protocol.WideHostOverflows` gives a host of non-ASCII characters that makes `genChannelOpenPacket` raise `ArrayIndexOutOfBoundsException`.
- `genChannelOpenPacket` with no host set raises `NullPointerException`. `connect` swallows it, because it is not a `JSchException`.
- After a failed `connect`, `io` is null. A second `connect` then raises `NullPointerException` from the catch block itself.

## Model

| member | source | states |
|---|---|---|
| Wire.U32RoundTrip | src/main/java/com/jcraft/jsch/ChannelDirectTCPIP.java:224-226 | the four bytes putInt writes decode to the value modulo 2^32 |
| Wire.Int32RoundTrip | src/main/java/com/jcraft/jsch/ChannelDirectTCPIP.java:224-226 | read back as a Java int, a uint32 gives the original int, negative values included |
| Wire.ParseStrOf | src/main/java/com/jcraft/jsch/ChannelDirectTCPIP.java:223 | a length-prefixed string followed by anything parses to the string and exactly that remainder |
| Wire.BytesOfU32 | src/main/java/com/jcraft/jsch/ChannelDirectTCPIP.java:132-133 | four bytes that decode to x mod 2^32 are the encoding of x |
| Utf8.Encode | src/main/java/com/jcraft/jsch/ChannelDirectTCPIP.java:227 | str2byte gives one to four bytes per character |
| Utf8.JavaLength | src/main/java/com/jcraft/jsch/ChannelDirectTCPIP.java:212-214 | String.length counts one or two UTF-16 units per character |
| Utf8.JavaLengthAtMostBytes | src/main/java/com/jcraft/jsch/ChannelDirectTCPIP.java:212-214 | a string's UTF-16 length never exceeds its UTF-8 byte count, and equals it exactly for ASCII |
| Utf8.EncodeAscii | src/main/java/com/jcraft/jsch/ChannelDirectTCPIP.java:227 | str2byte of ASCII text is one byte per character, equal to its code |
| Utf8.AsciiBytes | src/main/java/com/jcraft/jsch/ChannelDirectTCPIP.java:51 | str2byte of ASCII text is exactly the given character codes |
| Utf8.ThreeByteRun | src/main/java/com/jcraft/jsch/ChannelDirectTCPIP.java:212-214 | n copies of U+0800 are n UTF-16 units and 3n UTF-8 bytes |
| Codec.CopyInto | src/main/java/com/jcraft/jsch/ChannelDirectTCPIP.java:223 | copying into the array leaves it equal to the old contents overwritten at the index |
| Codec.Buffer.constructor | src/main/java/com/jcraft/jsch/ChannelDirectTCPIP.java:212-214 | new Buffer(size): a fresh zeroed array of that size, index 0 |
| Codec.Buffer.PutBytes | src/main/java/com/jcraft/jsch/ChannelDirectTCPIP.java:223 | a put succeeds exactly when the bytes fit; it then writes them at the index and advances it, and on failure it changes nothing |
| Codec.Buffer.PutByte | src/main/java/com/jcraft/jsch/ChannelDirectTCPIP.java:222 | putByte appends one byte, exactly when there is room |
| Codec.Buffer.PutInt | src/main/java/com/jcraft/jsch/ChannelDirectTCPIP.java:224 | putInt appends the RFC 4251 uint32, exactly when four bytes fit |
| Codec.Buffer.PutString | src/main/java/com/jcraft/jsch/ChannelDirectTCPIP.java:223 | putString appends the RFC 4251 string exactly when prefix and bytes fit; on failure, when the length prefix fits it stays written and the index is past it, and otherwise nothing changes |
| Codec.Buffer.Skip | src/main/java/com/jcraft/jsch/ChannelDirectTCPIP.java:134 | skip advances the index without writing, over bytes already in place |
| Codec.Packet.Reset | src/main/java/com/jcraft/jsch/ChannelDirectTCPIP.java:221 | reset puts the index at offset 5 and keeps the array |
| Codec.Packet.constructor | src/main/java/com/jcraft/jsch/ChannelDirectTCPIP.java:215 | new Packet(buf) wraps that very buffer, so the puts on buf fill the packet |
| Frames.EncodeOpen | src/main/java/com/jcraft/jsch/ChannelDirectTCPIP.java:221-230 | the open message starts with byte 90 and is 33 bytes plus the three strings' lengths |
| Frames.OpenRoundTrip | src/main/java/com/jcraft/jsch/ChannelDirectTCPIP.java:221-230 | decoding the open message gives back exactly the eight encoded fields |
| Frames.OpenInjective | src/main/java/com/jcraft/jsch/ChannelDirectTCPIP.java:221-230 | distinct field tuples give distinct open messages |
| Frames.OpenLayout | src/main/java/com/jcraft/jsch/ChannelDirectTCPIP.java:221-231 | byte layout: 90, the type string, id, window and packet size, host string and port, originator string and port, and nothing else |
| Frames.DataRoundTrip | src/main/java/com/jcraft/jsch/ChannelDirectTCPIP.java:130-134 | a data message decodes to its recipient and payload, and only that message decodes to them |
| Frames.DirectTcpipBytes | src/main/java/com/jcraft/jsch/ChannelDirectTCPIP.java:51 | str2byte("direct-tcpip") is the twelve ASCII codes the frame carries |
| Streams.ReadOf | src/main/java/com/jcraft/jsch/ChannelDirectTCPIP.java:121-125 | read(b, off, len) raises IndexOutOfBounds exactly on bad arguments, returns 0 without reading when len is 0, returns -1 exactly at end of stream when len is positive, delivers at most len bytes in order without losing any, and returns at least one byte when some are available |
| Streams.Source.Read | src/main/java/com/jcraft/jsch/ChannelDirectTCPIP.java:121-125 | the stream's read puts the delivered bytes into the array at off, returns their count (or -1 or the exception), and advances the script |
| Relay.Loop | src/main/java/com/jcraft/jsch/ChannelDirectTCPIP.java:117-140 | the loop ends with a dropped frame exactly when the close flag ended it |
| Relay.DataEvents | src/main/java/com/jcraft/jsch/ChannelDirectTCPIP.java:138 | one data message per payload, in payload order |
| Relay.PayloadsOfDataEvents | src/main/java/com/jcraft/jsch/ChannelDirectTCPIP.java:130-138 | the payloads carried by the data messages are exactly the payloads given, in order |
| Relay.LoopForwardsInput | src/main/java/com/jcraft/jsch/ChannelDirectTCPIP.java:117-140 | the payloads sent, then the bytes dropped at close, then what the stream still holds, are exactly what it held at the start |
| Relay.LoopReadBound | src/main/java/com/jcraft/jsch/ChannelDirectTCPIP.java:121-125 | every payload, and the frame dropped at close, holds 1 to capacity - 14 - margin bytes, so a frame ends by capacity - margin |
| Relay.LoopStopsAtClose | src/main/java/com/jcraft/jsch/ChannelDirectTCPIP.java:135-137 | with close already up no frame is sent; no frame is sent at or after an iteration that raises it; only close ends the loop with a dropped frame |
| Relay.HeaderBeforePayload | src/main/java/com/jcraft/jsch/ChannelDirectTCPIP.java:130-134 | given 14 = reset offset + 9, the bytes from 5 to the end of the payload are exactly the data message of the bytes read; the header does not overwrite the payload |
| Protocol.Defaults | src/main/java/com/jcraft/jsch/ChannelDirectTCPIP.java:49-64 | a fresh channel's settings keep the sender id and an ASCII originator, and no open packet can be built until a host is set (NullPointerException at any margin) |
| Protocol.OpenBufferSize | src/main/java/com/jcraft/jsch/ChannelDirectTCPIP.java:212-214 | the buffer size from Java lengths is at most 50 + the UTF-8 byte lengths + margin, and equal to it exactly when host and originator are ASCII |
| Protocol.OpenPacket | src/main/java/com/jcraft/jsch/ChannelDirectTCPIP.java:211-231 | NullPointerException exactly when no host is set; otherwise the open message exactly when it fits the allocated buffer, and ArrayIndexOutOfBounds when it does not |
| Protocol.OpenPacketLength | src/main/java/com/jcraft/jsch/ChannelDirectTCPIP.java:211-231 | the open message is 33 bytes plus the three strings' byte lengths |
| Protocol.OpenPacketFits | src/main/java/com/jcraft/jsch/ChannelDirectTCPIP.java:212-214 | the packet fits exactly when the strings' UTF-8 bytes exceed their Java lengths by at most the margin; ASCII strings always fit |
| Protocol.OpenPacketDecodes | src/main/java/com/jcraft/jsch/ChannelDirectTCPIP.java:221-230 | a built packet decodes to the configured fields |
| Protocol.WideHostOverflows | src/main/java/com/jcraft/jsch/ChannelDirectTCPIP.java:212-214 | a host of margin + 1 characters U+0800 makes genChannelOpenPacket raise ArrayIndexOutOfBounds |
| Protocol.DefaultOriginatorBytes | src/main/java/com/jcraft/jsch/ChannelDirectTCPIP.java:55 | the default originator "127.0.0.1" goes out as its nine ASCII bytes |
| Protocol.DefaultOriginatorFits | src/main/java/com/jcraft/jsch/ChannelDirectTCPIP.java:212-214 | with the default type and originator, any ASCII host fits |
| Protocol.DefaultOriginatorDecodes | src/main/java/com/jcraft/jsch/ChannelDirectTCPIP.java:221-230 | with the default type and originator and an ASCII host, the packet decodes to its fields |
| Protocol.DefaultsInOpenPacket | src/main/java/com/jcraft/jsch/ChannelDirectTCPIP.java:49-64 | a fresh channel's open message carries "direct-tcpip", window 0x20000, packet size 0x4000, originator "127.0.0.1" port 0, and the host and port set |
| Protocol.OpenAttempt | src/main/java/com/jcraft/jsch/ChannelDirectTCPIP.java:110 | nothing is sent when the session is down ("session is down") or the packet cannot be built; the message sent is the packet; the channel is open exactly when it was sent and confirmed |
| Protocol.WorkerOrder | src/main/java/com/jcraft/jsch/ChannelDirectTCPIP.java:107-154 | open first whenever anything is sent and never again, before every data message; exactly one disconnect, last; eof at most once, after all data, and not at all if already sent |
| Protocol.WorkerSendsEof | src/main/java/com/jcraft/jsch/ChannelDirectTCPIP.java:107-154 | eof is sent exactly when the channel opened with a usable packet size, eof was not sent before, and no exception ended the loop; it is then the event just before disconnect |
| Protocol.DataFrame | src/main/java/com/jcraft/jsch/ChannelDirectTCPIP.java:130-134 | a data message is 9 header bytes then the payload, and decodes to recipient and payload |
| Protocol.WorkerFrames | src/main/java/com/jcraft/jsch/ChannelDirectTCPIP.java:121-138 | each data message run sends is addressed to the peer's channel, declares the number of bytes read (1 to capacity - 14 - margin), and ends by capacity - margin |
| Protocol.WorkerForwards | src/main/java/com/jcraft/jsch/ChannelDirectTCPIP.java:117-140 | the payloads run sends, in order, then the dropped and unread bytes, are exactly what the stream held |
| Protocol.Connect | src/main/java/com/jcraft/jsch/ChannelDirectTCPIP.java:73-101 | session down raises "session is down" and tears down; io null raises NullPointerException; a worker starts exactly when the session is up and io.in is set; every exception let out is a JSchException, after a teardown; on the caller's path the channel is torn down exactly when the open was not confirmed, and the failure is rethrown exactly when it is a JSchException |
| Protocol.ConnectEvents | src/main/java/com/jcraft/jsch/ChannelDirectTCPIP.java:73-101 | nothing opened and no worker started with the session down; on the caller's path the open attempt comes first and nothing after it opens, and teardown happens exactly when the open was not confirmed; a teardown ends with close then deregister |
| Protocol.Teardown | src/main/java/com/jcraft/jsch/ChannelDirectTCPIP.java:93-99 | the catch block: streams closed then deregistered after what was sent, no worker, and the failure rethrown exactly when it is a JSchException |
| DirectTcpip.ChannelDirectTCPIP.constructor | src/main/java/com/jcraft/jsch/ChannelDirectTCPIP.java:58-64 | type "direct-tcpip", window 0x20000 (and its maximum), packet size 0x4000, originator "127.0.0.1" port 0, no host, not connected, registered |
| DirectTcpip.ChannelDirectTCPIP.Init | src/main/java/com/jcraft/jsch/ChannelDirectTCPIP.java:66-68 | io is a fresh IO with no streams |
| DirectTcpip.ChannelDirectTCPIP.SetHost | src/main/java/com/jcraft/jsch/ChannelDirectTCPIP.java:183 | the host is the one given |
| DirectTcpip.ChannelDirectTCPIP.SetPort | src/main/java/com/jcraft/jsch/ChannelDirectTCPIP.java:191 | the port is the one given |
| DirectTcpip.ChannelDirectTCPIP.SetOrgIPAddress | src/main/java/com/jcraft/jsch/ChannelDirectTCPIP.java:200 | the originator address is the one given |
| DirectTcpip.ChannelDirectTCPIP.SetOrgPort | src/main/java/com/jcraft/jsch/ChannelDirectTCPIP.java:209 | the originator port is the one given |
| DirectTcpip.ChannelDirectTCPIP.SetInputStream | src/main/java/com/jcraft/jsch/ChannelDirectTCPIP.java:162-164 | io.in becomes the stream and the output is kept; NullPointerException and no change while io is null |
| DirectTcpip.ChannelDirectTCPIP.SetOutputStream | src/main/java/com/jcraft/jsch/ChannelDirectTCPIP.java:172-174 | io.out becomes the stream and the input is kept; NullPointerException and no change while io is null |
| DirectTcpip.ChannelDirectTCPIP.PutHeader | src/main/java/com/jcraft/jsch/ChannelDirectTCPIP.java:222-226 | succeeds exactly when 17 + type bytes fit, then appends 90, the type string, id, window and packet size |
| DirectTcpip.ChannelDirectTCPIP.PutTarget | src/main/java/com/jcraft/jsch/ChannelDirectTCPIP.java:227-230 | succeeds exactly when the target fits, then appends host string, port, originator string, originator port |
| DirectTcpip.ChannelDirectTCPIP.GenChannelOpenPacket | src/main/java/com/jcraft/jsch/ChannelDirectTCPIP.java:211-232 | a fresh packet whose bytes from offset 5 to the index are exactly OpenPacket's message, or the exception OpenPacket names |
| DirectTcpip.ChannelDirectTCPIP.SendChannelOpen | src/main/java/com/jcraft/jsch/ChannelDirectTCPIP.java:90 | logs the open message when it is sent; on confirmation records the peer's channel and packet size and is connected; raises what OpenAttempt says otherwise, changing nothing else |
| DirectTcpip.ChannelDirectTCPIP.Eof | src/main/java/com/jcraft/jsch/ChannelDirectTCPIP.java:127 | one EOF message unless one was sent before |
| DirectTcpip.ChannelDirectTCPIP.Disconnect | src/main/java/com/jcraft/jsch/ChannelDirectTCPIP.java:148 | logs the disconnect and leaves the channel not connected |
| DirectTcpip.ChannelDirectTCPIP.Release | src/main/java/com/jcraft/jsch/ChannelDirectTCPIP.java:93-100 | streams closed, io null, channel deregistered, and only a JSchException rethrown |
| DirectTcpip.ChannelDirectTCPIP.Connect | src/main/java/com/jcraft/jsch/ChannelDirectTCPIP.java:73-101 | stores the timeout; log, exception, io, registration and worker are as Protocol.Connect says; the peer parameters are recorded exactly on a confirmed open on the caller's path |
| DirectTcpip.ChannelDirectTCPIP.OpenInline | src/main/java/com/jcraft/jsch/ChannelDirectTCPIP.java:89-100 | the caller's-path open and its catch block, as Protocol.Connect says |
| DirectTcpip.ChannelDirectTCPIP.Run | src/main/java/com/jcraft/jsch/ChannelDirectTCPIP.java:107-154 | logs exactly Protocol.WorkerEvents, leaves the stream, close and eof state as Relay.Loop says, and ends not connected |
| DirectTcpip.ChannelDirectTCPIP.AfterOpen | src/main/java/com/jcraft/jsch/ChannelDirectTCPIP.java:112-153 | after the open: a failed open or a negative packet size gives disconnect alone; otherwise the relay as Protocol.RelayEvents says |
| DirectTcpip.ChannelDirectTCPIP.Forward | src/main/java/com/jcraft/jsch/ChannelDirectTCPIP.java:112-153 | with the buffer allocated: the relay loop while attached, eof unless an exception, disconnect; log and stream exactly as Protocol.RelayEvents and Relay.Loop say |
| DirectTcpip.ChannelDirectTCPIP.RelayLoop | src/main/java/com/jcraft/jsch/ChannelDirectTCPIP.java:117-140 | the while loop does what Relay.Loop describes: the data messages of its payloads, eof after a read of -1 or 0, the stream's rest, whether close or an exception ended it |
| DirectTcpip.ChannelDirectTCPIP.Finish | src/main/java/com/jcraft/jsch/ChannelDirectTCPIP.java:142-153 | eof unless an exception was raised, then disconnect |
| DirectTcpip.ChannelDirectTCPIP.Pump | src/main/java/com/jcraft/jsch/ChannelDirectTCPIP.java:121-139 | one pass agrees with Relay.Loop's first step: it stops exactly where Loop stops, with eof on a read of -1 or 0, or sends the next payload's data message and shrinks the stream |
| DirectTcpip.ChannelDirectTCPIP.Deliver | src/main/java/com/jcraft/jsch/ChannelDirectTCPIP.java:130-139 | frames the bytes read and sends the data message unless close is up (raised now or before) |
| DirectTcpip.ChannelDirectTCPIP.FrameData | src/main/java/com/jcraft/jsch/ChannelDirectTCPIP.java:130-134 | reset, putByte(94), putInt(recipient), putInt(i), skip(i) make the bytes from 5 to the index exactly the data message of the i bytes read |

## Left out

- src/main/java/com/jcraft/jsch/Signature.java is not part of this model. It is an interface with no behaviour of its own.
- Threads are not modelled.
  - Starting the worker is a `WorkerStarted` event carrying the thread's name and daemon flag, and `run` is a separate method that can be called after it.
  - The `synchronized` block is not modelled as a lock.
  - Another thread may raise `close` only between a read and its check (`closeAt`).
  - Other threads changing `connected`, `thread` or `io` during the loop, or the session dropping, are not modelled.
- Channel.java, Session.java, Buffer.java, Packet.java and IO.java are not part of this model. The parts the channel uses are small methods whose contracts state the assumed behaviour:
  - `sendChannelOpen`: session check, packet, write, then the peer's answer as a parameter;
  - `eof`: one EOF message, idempotent;
  - `disconnect`: a logged event;
  - `Channel.del`: the `registered` flag;
  - the buffer's puts and `skip`;
  - `IO.close`: a logged event.
- DirectTcpip.ChannelDirectTCPIP.SendChannelOpen: the wait for the peer's confirmation, its timeout and retries are replaced by the `reply` parameter.
- DirectTcpip.ChannelDirectTCPIP.Connect: `connectTimeout` is only stored, as in this class; it is stored after the rest of the method instead of before, which nothing in the model can observe.
- `Session.write`: window flow control, blocking, splitting and exceptions are not modelled. A data frame is logged as the buffer's bytes from offset 5 to the index, together with the length argument, and a write never raises.
- DirectTcpip.ChannelDirectTCPIP.SetHost: a null argument is not modelled (the host is `None` only until first set).
- DirectTcpip.ChannelDirectTCPIP.SetOrgIPAddress: a null argument is not modelled.
- `getSession()` failing for a channel without a session is not modelled; every channel has its session.
- SetOutputStream and the output stream are not modelled beyond their attachment, because data from the peer arrives through code outside this class.
- Protocol.OpenBufferSize: Java `int` overflow of `50 + host.length() + originator_IP_address.length() + buffer_margin` is not modelled. It needs strings of about 2^31 characters.
- Utf8.Encode: a Dafny `char` is a Unicode scalar value, so Java strings with unpaired surrogates are not represented. Their `str2byte` replacement bytes are not modelled.
- The packet's length and padding fields, which the transport fills in before sending, are not modelled; the buffer keeps offsets 0 to 4 free for them.
