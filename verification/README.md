# TrenchDB: verified models of the transport, the write-ahead log and the event loop

Three cores of TrenchDB, modelled in Dafny and proved. They share one vocabulary of bytes and
big-endian integers (`Bytes.dfy`, `Utf8.dfy`). `dafny verify dfyconfig.toml` checks everything.

**The stream multiplexer** (`transport/src/tcp`, `transport/src/frame`). Frames are printed and parsed as
bytes (`Frames.dfy`; in numbers, for any bytes, in `WireFormat.dfy`); a connection reassembles them from
arbitrary reads, and a pipe of bytes refines a pipe of frames (`Connection.dfy`). `StreamManager` is a
class over that connection (`Manager.dfy`, `Streams.dfy`), each method proved equal to a function on
endpoint values (`Protocol.dfy`), whose results and errors have their exact conditions in `Verdicts.dfy`.
What one manager keeps against any peer is in `ManagerInvariant.dfy`. Two managers joined by FIFO pipes
are studied one stream at a time (`StreamPair.dfy`), then all streams and the handshake together
(`Multiplex.dfy`), then over whole runs (`TwoParty.dfy`): ordered delivery, no spurious errors, credit
conservation, matching half-close states. A run is conforming when users send no Reset, close each side of
a stream once, pop received data before their own close, and keep Ping payloads within 65,536 bytes;
ordered delivery needs none of this and holds in any run until the receiving side's first error.
`Refusals.dfy` says exactly which frames are refused in any run at all, and `LateCalls.dfy` what that
means for the calls a conforming user does not make. `PoppedData.dfy` follows the payloads to `recv_data`,
`PingEcho.dfy` those of pings back to where they came from, and `ByteParties.dfy` carries the results over
to pipes of bytes with any chunking. `Programs.dfy` holds the command-line client's `send_request` and the
serving loop as methods on the manager object; `SequentialRequests.dfy` runs each to completion over the
bytes that arrive, `RequestResponse.dfy` interleaves their steps in any order, and `ByteConversation.dfy`
does so over bytes with any chunking; `ProgramEnds.dfy` says how each ends on arbitrary bytes.

**The write-ahead log** (`engine/src/wal`). The table-driven CRC-32 equals a one-bit register
(`Checksum.dfy`) and polynomial division as IEEE 802.3 defines it (`Division.dfy`), and detects every
burst within four bytes. Entries are printed and parsed (`LogEntry.dfy`), stored in frames
(`LogFormat.dfy`), written through a buffer that may spill at any time (`LogWriter.dfy`), read with
arbitrary short reads (`LogReader.dfy`) and applied to shared table objects (`LogReplay.dfy`,
`Store.dfy`). `LogLayout.dfy` says byte by byte which files are accepted. `LogRecovery.dfy`,
`LogReopen.dfy`, `LogHistory.dfy` and `LogRestart.dfy` state what recovery gives back of whole, torn,
damaged and extended logs, when a log may be appended to after a crash, over whole histories of a writer,
and when recovery itself is interrupted.

**The event loop** (`engine/src/events`). The lifecycle and the bounded queue are classes
(`EventLifecycle.dfy`, `EventQueue.dfy`); waiting and notifying (`WakeUps.dfy`) and the supervisor with
its runner (`Supervisor.dfy`) are state machines whose steps are lock releases.

Where the code and its documentation disagree the model follows the code: the header layout is that of
`transport/src/frame/decoder.rs:39-44`, not of `doc/protocol.md:104-111`.

Properties that are false of the code are stated with the exact condition under which they hold, and with
an input for which they fail:

- frames a peer refuses: `Refusals.ExactlyTheseFail`, `LateCalls.LateRunFailsExactly` and
  `LateCalls.ResetRace`; `LateCreditFails`, `SecondCloseFails`, `ResetRaceFails` and `PingFails` are runs;
- a writer with a larger limit than the reader: `LogRecovery.WholeLogReplays`; `TooLargeToReplay`;
- appending behind a bad tail: `LogReopen.ReopenIsSafeExactly`; `TornTailSwallows` and
  `LogRecovery.ZeroTail` are bad tails;
- versions after a restarted recovery: `LogRestart.VersionsRestart`; `RestartChangesAVersion`;
- wake-ups of more than one consumer: `WakeUps.NoWakeUpIsLostExactly`; `MoreConsumersMiss`;
- tasks accepted too late: `Supervisor.AcceptedInTime`; `PushAfterStopIsLost` and `StopsIdle`;
- panicked runners that stay counted: `Supervisor.OneRunnerInOrder`; `PanicIsMiscounted`.

## Model

| member | source | states |
|---|---|---|
| `Frames.EncodeFrame` | transport/src/frame/encoder.rs:25-45 | A frame is printed, its header big-endian and then its payload, exactly when the payload has the length the header declares; nothing else is checked, and otherwise the error is `InvalidFrame`. |
| `Frames.HeaderRoundTrip` | transport/src/frame/decoder.rs:31-60 | Every header field read back from its 16 printed bytes is the field that was printed. |
| `Frames.DecodeInvertsEncode` | transport/src/frame/decoder.rs:31-68 | Decoding a valid frame followed by any bytes gives that frame and exactly its length. |
| `Frames.ProperPrefixNeedsMore` | transport/src/frame/decoder.rs:31-68 | Every proper prefix of a valid frame, the empty one included, gives `NeedMoreData`. |
| `Frames.VerdictIsStable` | transport/src/frame/decoder.rs:31-68 | Any verdict other than `NeedMoreData` is unchanged by appending bytes. |
| `Frames.EncodeInvertsDecode` | transport/src/frame/decoder.rs:31-68 | A successful decode yields a valid frame whose encoding is exactly the consumed bytes. |
| `Frames.UndecidedIsShort` | transport/src/tcp/connection.rs:176-181 | `NeedMoreData` implies a buffer shorter than the largest frame, so the read-buffer cap is never hit. |
| `Frames.TypeByteRoundTrip` | transport/src/frame/frame.rs:74-92 | Frame types survive their byte code. |
| `Frames.TypeOfByteRoundTrip` | transport/src/frame/frame.rs:74-92 | A byte that names a frame type is the code of that type. |
| `WireFormat.DecodeVerdict` | transport/src/frame/header.rs:110-160 | For every byte string, in bytes and numbers alone, exactly when `decode` succeeds and exactly when it returns each of `NeedMoreData`, `InvalidMagic`, `InvalidVersion`, `FrameTooLarge` and `InvalidFrame`: magic in bytes 0-3, version in 4, flags in 5-6, length in 11-14, type in 15. |
| `WireFormat.DecodedInBytes` | transport/src/frame/decoder.rs:31-68 | Every field of a decoded frame, its payload and its length, in the bytes it was read from. |
| `WireFormat.ReceiveVerdict` | transport/src/tcp/connection.rs:157-190 | `recv_frame` on the connection returns that verdict for the unread bytes, and `ConnectionClosed` if they end too early; only a frame consumes bytes. |
| `WireFormat.FrameInBytes` | transport/src/frame/encoder.rs:25-45 | The bytes of any frame with known flags and a payload below 2^32 bytes. |
| `WireFormat.SentInBytes` | transport/src/tcp/manager.rs:94-348 | The bytes of each kind of frame a manager sends, flags, type and payload included. |
| `WireFormat.ErrorVerdict` | transport/src/errors.rs:25-51 | For every byte string, exactly when an Error payload decodes, and to which code, stream and message. |
| `WireFormat.RejectionInBytes` | transport/src/tcp/manager.rs:128-140 | The bytes of the frame that rejects a handshake: code 8, stream 0 and the message. |
| `TransportErrors.ErrorRoundTrip` | transport/src/errors.rs:15-60 | An Error payload survives encoding if and only if its code is known, its message is UTF-8 and shorter than 65,536 bytes. |
| `Connection.Connection.BufferFrame` | transport/src/tcp/connection.rs:88-103 | A frame is appended to the write buffer, or refused as invalid or for lack of room, leaving the buffer as it was. |
| `Connection.Connection.Flush` | transport/src/tcp/connection.rs:105-122 | Everything buffered reaches the stream, once and in order, and the buffer is empty. |
| `Connection.Connection.SendFrame` | transport/src/tcp/connection.rs:124-128 | Buffering then flushing: on success the stream carries everything buffered before and then the frame. |
| `Connection.Connection.RecvFrame` | transport/src/tcp/connection.rs:157-190 | Under arbitrary short reads the result depends only on the unread bytes: the first frame, a framing error, or `ConnectionClosed`. |
| `Connection.DrainsExactlyWhatWasSent` | transport/src/tcp/connection.rs:157-190 | Chunking independence: any valid frames, and any torn beginning of one more, are received as exactly those frames and then `ConnectionClosed`. |
| `Connection.DrainedFramesWereOnTheWire` | transport/src/tcp/connection.rs:157-190 | From arbitrary bytes, the frames received are valid and their encodings are a prefix of those bytes. |
| `Connection.TakeIsExact` | transport/src/tcp/connection.rs:157-190 | A receiver holding part of a stream of frames decodes the head frame exactly when all its bytes have arrived and otherwise only waits. |
| `Connection.ByteStepRefinesFrameStep` | transport/src/tcp/connection.rs:88-190 | Each step on bytes (buffering, flushing, a chunk arriving, a receive) is one step of a pipe of frames with the same result. |
| `Connection.ByteRunIsFifo` | transport/src/tcp/connection.rs:88-190 | Over every run, flush timing and chunking, the frames received are a prefix of those sent, and all of them once no byte is left. |
| `Streams.Stream.CheckSendWindow` | transport/src/tcp/stream.rs:79-86 | A payload larger than the send window is a flow-control violation, any other is allowed. |
| `Streams.Stream.ConsumeSendWindow` | transport/src/tcp/stream.rs:88-95 | The send window shrinks by the payload, not below zero, and nothing else changes. |
| `Streams.Stream.ApplyWindowIncrement` | transport/src/tcp/stream.rs:97-100 | The send window grows by the increment, saturating at the largest 64-bit value. |
| `Streams.Stream.Push` | transport/src/tcp/stream.rs:102-109 | A payload joins the end of the receive queue and its size leaves the receive window, not below zero. |
| `Streams.Stream.Pop` | transport/src/tcp/stream.rs:111-115 | The oldest payload leaves the receive queue and its size returns to the receive window. |
| `Streams.LocalClose` | transport/src/tcp/stream.rs:124-131 | A local close ends exactly the local direction, and a reset stream stays reset. |
| `Streams.RemoteClose` | transport/src/tcp/stream.rs:133-141 | A remote close ends exactly the remote direction, and a reset stream stays reset. |
| `Streams.Stream.OnLocalClose` | transport/src/tcp/stream.rs:124-131 | The state moves as `LocalClose` says; nothing else changes. |
| `Streams.Stream.OnRemoteClose` | transport/src/tcp/stream.rs:133-141 | The state moves as `RemoteClose` says; nothing else changes. |
| `Protocol.OpenStream` | transport/src/tcp/manager.rs:240-254 | `open_stream` adds one Open frame for the id it returns to the output when it succeeds and nothing when it fails. |
| `Protocol.SendData` | transport/src/tcp/manager.rs:256-280 | `send_data` adds one Data frame with the payload when it succeeds on a non-empty payload and nothing otherwise. |
| `Protocol.CloseStream` | transport/src/tcp/manager.rs:282-303 | `close_stream` adds one Close frame when it succeeds and nothing otherwise. |
| `Protocol.ResetStream` | transport/src/tcp/manager.rs:305-317 | `reset_stream` adds one Reset frame when it succeeds and nothing otherwise. |
| `Protocol.RecvData` | transport/src/tcp/manager.rs:319-343 | `recv_data` adds nothing, or exactly one Window frame for the size of the payload it returns. |
| `Manager.StreamManager.constructor` | transport/src/tcp/manager.rs:41-56 | A new manager holds no stream, starts its ids at 1 or 2 by role, and awaits Hello. |
| `Manager.StreamManager.StartHandshake` | transport/src/tcp/manager.rs:67-82 | `start_handshake` sends Hello, flushes, and receives until the handshake is over; on success the initiator is established. |
| `Manager.StreamManager.OpenStream` | transport/src/tcp/manager.rs:240-254 | The object ends in the state, and returns the result, of `Protocol.OpenStream`; ids stop at the end of the 32-bit range. |
| `Manager.StreamManager.SendData` | transport/src/tcp/manager.rs:256-280 | State and result are those of `Protocol.SendData`, with the errors in the order the source checks them. |
| `Manager.StreamManager.CloseStream` | transport/src/tcp/manager.rs:282-303 | State and result are those of `Protocol.CloseStream`; a stream closed on both sides leaves the map. |
| `Manager.StreamManager.ResetStream` | transport/src/tcp/manager.rs:305-317 | State and result are those of `Protocol.ResetStream`. |
| `Manager.StreamManager.RecvData` | transport/src/tcp/manager.rs:319-343 | State and result are those of `Protocol.RecvData`. |
| `Manager.StreamManager.RecvFrame` | transport/src/tcp/manager.rs:358-432 | State and result are those of decoding one frame and dispatching it, whatever the chunking of the bytes; a success consumes bytes. |
| `Manager.WaitEndsEstablished` | transport/src/tcp/manager.rs:67-82 | The receive loop of `start_handshake`, if it succeeds, leaves the handshake established. |
| `Verdicts.OpenVerdict` | transport/src/tcp/manager.rs:240-254 | On any endpoint: `open_stream` fails before the handshake, from id 4,294,967,294 on, or for lack of room, each exactly then, and otherwise returns the next id. |
| `Verdicts.OpenLeaves` | transport/src/tcp/manager.rs:240-254 | On any endpoint, failures included: the id is used up and a fresh stream is there exactly if the Open frame was reached, even if it had no room; otherwise nothing changes. |
| `Verdicts.SendVerdict` | transport/src/tcp/manager.rs:256-280 | On any endpoint the exact condition of success and of each of the six errors of `send_data`; an empty payload always succeeds once established. |
| `Verdicts.SendLeaves` | transport/src/tcp/manager.rs:256-280 | Credit is deducted exactly if the Data frame was reached, even if it had no room; otherwise nothing changes. |
| `Verdicts.CloseVerdict` | transport/src/tcp/manager.rs:282-303 | The exact condition of success and of each of the four errors of `close_stream`. |
| `Verdicts.CloseLeaves` | transport/src/tcp/manager.rs:282-303 | What each state becomes; a stream closed on both sides is removed only if its Close frame had room. |
| `Verdicts.ResetVerdict` | transport/src/tcp/manager.rs:305-317 | The same for `reset_stream`. |
| `Verdicts.ResetLeaves` | transport/src/tcp/manager.rs:305-317 | The stream is removed on success and stays as reset if its Reset frame had no room; otherwise nothing changes. |
| `Verdicts.PopVerdict` | transport/src/tcp/manager.rs:319-343 | The same for `recv_data`: an unknown stream is an error, an empty queue is not, and lack of room matters only if credit is returned. |
| `Verdicts.PopLeaves` | transport/src/tcp/manager.rs:319-338 | The oldest payload leaves the queue and its size returns to the window even if the Window frame had no room; without one nothing changes. |
| `Verdicts.PingVerdict` | transport/src/tcp/manager.rs:345-348 | `send_ping` fails exactly for lack of room. |
| `Verdicts.HandshakeVerdict` | transport/src/tcp/manager.rs:67-110 | `start_handshake` up to its receive loop sends one Hello, flushed, exactly if the initiator has not begun, and changes nothing otherwise. |
| `Verdicts.FlushVerdict` | transport/src/tcp/manager.rs:215-222 | A buffered frame is flushed, behind all before it, exactly if 32,768 bytes are then buffered. |
| `Verdicts.WindowVerdict` | transport/src/tcp/stream.rs:79-115 | The initial windows, the two clamps at zero and the saturation, in numbers. |
| `Verdicts.HelloVerdict` | transport/src/tcp/manager.rs:142-160 | A Hello is accepted, answered by a flushed Welcome, exactly on stream 0 by an acceptor that waits for it and has room; otherwise the error and nothing changed. |
| `Verdicts.WelcomeVerdict` | transport/src/tcp/manager.rs:162-181 | A Welcome establishes exactly an initiator that waits for it, on stream 0; otherwise nothing changes. |
| `Verdicts.SettingsVerdict` | transport/src/tcp/manager.rs:183-192 | Settings are accepted without effect exactly on stream 0. |
| `Verdicts.ErrorFrameVerdict` | transport/src/tcp/manager.rs:194-208 | An Error frame always fails without effect: code 8 on stream 0 is `HandshakeRejected`, any other `RemoteError`, a payload that does not decode `InvalidFrame`. |
| `Verdicts.PingFrameVerdict` | transport/src/tcp/manager.rs:358-432 | A Ping is accepted exactly if its answer fits; the Pong is then flushed behind all that was buffered. |
| `Verdicts.PongFrameVerdict` | transport/src/tcp/manager.rs:358-432 | A Pong is accepted without effect, before the handshake too. |
| `Verdicts.EarlyVerdict` | transport/src/tcp/manager.rs:358-390 | A stream frame before the handshake fails and leaves streams and handshake alone; an acceptor with room sends a rejection. |
| `Verdicts.OpenFrameVerdict` | transport/src/tcp/receiver.rs:9-28 | An Open creates a stream with both windows at 65,536 exactly for an unused id of the other parity. |
| `Verdicts.DataFrameVerdict` | transport/src/tcp/receiver.rs:31-44 | Data is refused for an unknown stream or an ended direction, each with its own error, and otherwise queued. |
| `Verdicts.CloseFrameVerdict` | transport/src/tcp/receiver.rs:48-62 | A Close ends the remote direction of a known stream and removes it if the local one has ended. |
| `Verdicts.ResetFrameVerdict` | transport/src/tcp/receiver.rs:64-68 | A Reset is always accepted and removes the stream, if there is one. |
| `Verdicts.WindowFrameVerdict` | transport/src/tcp/receiver.rs:70-83 | A Window is refused for an unknown stream or a payload of other than four bytes, each with its own error, and otherwise added to the send window. |
| `ManagerInvariant.AnyHistoryIsGood` | transport/src/tcp/manager.rs:41-56 | After any local calls and any inbound frames: map keys equal stream ids, no stored stream is closed or reset, windows are non-negative, own ids are below the counter, and the write buffer is below the flush threshold. |
| `ManagerInvariant.CallKeepsGood` | transport/src/tcp/manager.rs:240-343 | Every local call keeps that invariant. |
| `ManagerInvariant.HandleKeepsGood` | transport/src/tcp/manager.rs:358-432 | Every inbound frame, valid for the protocol or not, keeps that invariant. |
| `ManagerInvariant.CloseKeepsGood` | transport/src/tcp/manager.rs:282-303 | On any state that invariant allows, `close_stream` fails only before the handshake or for an unknown id, never with `StreamClosed`. |
| `ManagerInvariant.IssuedIdsIncrease` | transport/src/tcp/manager.rs:240-254 | Over any history the ids issued have the role's parity and strictly increase. |
| `ManagerInvariant.IdsStopBeforeWrapping` | transport/src/tcp/manager.rs:240-254 | `StreamIdExhausted` is returned exactly from id 0xFFFFFFFE on; below that `open_stream` succeeds. |
| `ManagerInvariant.OpenIsAcceptedExactly` | transport/src/tcp/receiver.rs:9-28 | `handle_open` accepts exactly the ids of the other parity that are not in the map, and changes nothing otherwise. |
| `ManagerInvariant.SmallFrameFits` | transport/src/tcp/connection.rs:88-103 | On any state of the invariant a frame with at most 65,536 payload bytes fits the buffer, which stays under 32,767 + 16 + 65,536 bytes. |
| `Multiplex.CallKeepsLinked` | transport/src/tcp/manager.rs:240-343 | Every conforming call keeps the joint invariant of two endpoints and the frames between them, handshake and every stream. |
| `Multiplex.ReceiveKeepsLinked` | transport/src/tcp/manager.rs:358-432 | Receiving the next frame succeeds and keeps the joint invariant. |
| `Multiplex.OpenEffect` | transport/src/tcp/manager.rs:240-254 | When `open_stream` may be called it returns the next id, adds a fresh stream under it, overwriting none, and emits its Open. |
| `Multiplex.DataEffect` | transport/src/tcp/manager.rs:256-280 | Exactly what a permitted `send_data` does: credit deducted and Data emitted together, or nothing. |
| `Multiplex.CloseEffect` | transport/src/tcp/manager.rs:282-303 | Exactly what `close_stream` does: Close emitted and the stream half-closed, or removed if the peer had closed. |
| `Multiplex.PopEffect` | transport/src/tcp/manager.rs:319-343 | Exactly what `recv_data` does: the oldest payload is returned, and its credit emitted while the peer may still send. |
| `Multiplex.HelloKeepsLinked` | transport/src/tcp/manager.rs:67-110 | Sending Hello keeps the joint invariant. |
| `Multiplex.ReceivesHello` | transport/src/tcp/manager.rs:142-160 | A Hello that arrives in a conforming run is accepted, answered by Welcome, and keeps the joint invariant. |
| `Multiplex.ReceivesWelcome` | transport/src/tcp/manager.rs:162-181 | A Welcome that arrives is accepted and keeps the joint invariant. |
| `Multiplex.StreamFrameMeansEstablished` | transport/src/tcp/manager.rs:358-402 | If the next frame belongs to a stream, the receiver is established. |
| `StreamPair.SendsData` | transport/src/tcp/manager.rs:256-280 | Sending data keeps the invariant of one stream: credit, half-close states and the frames in flight agree. |
| `StreamPair.ReceivesData` | transport/src/tcp/receiver.rs:31-44 | Receiving data keeps it; no clamp to zero is ever taken. |
| `StreamPair.PopsAndReturnsCredit` | transport/src/tcp/manager.rs:319-343 | Popping and returning credit keeps it. |
| `StreamPair.ReceivesWindow` | transport/src/tcp/receiver.rs:70-83 | Receiving credit keeps it, without saturation. |
| `StreamPair.SendsClose` | transport/src/tcp/manager.rs:282-303 | Closing keeps it. |
| `StreamPair.ReceivesClose` | transport/src/tcp/receiver.rs:48-62 | Receiving a Close keeps it; a stream closed on both sides is gone. |
| `StreamPair.HeadIsAcceptable` | transport/src/tcp/receiver.rs:9-83 | The next frame in flight is always one the receiver's stream accepts in its present state. |
| `TwoParty.RunKeepsInv` | transport/src/tcp/manager.rs:41-432 | Every conforming run of two managers, for any interleaving of calls, flushes and receives, keeps the joint invariant. |
| `TwoParty.NoSpuriousErrors` | transport/src/tcp/manager.rs:358-432 | No `recv_frame` of a conforming run fails, for any reason, on either side. |
| `TwoParty.DeliversInOrder` | transport/src/tcp/manager.rs:256-280 | In every run, whatever the users call, up to the receiving side's first error: the Data payloads `recv_frame` returned are a prefix of those the peer's `send_data` accepted, per stream and over all streams, and all of them once nothing is buffered or in flight. |
| `TwoParty.ConformingMeansNoError` | transport/src/tcp/manager.rs:358-432 | A conforming run has no such error, so there ordered delivery holds throughout. |
| `TwoParty.CreditIsConserved` | transport/src/tcp/stream.rs:79-115 | Send window, data in flight, receive queue and credit in flight add up to 65,536 until the receiver has seen the Close, and never exceed it; receive window and queue always add up to it. |
| `TwoParty.HalfClosesMatch` | transport/src/tcp/stream.rs:124-141 | An end has closed exactly when its Close is the last frame in flight or was received; with nothing in flight both ends agree on both directions and on holding the stream. |
| `Refusals.HandshakeIsOrdered` | transport/src/tcp/manager.rs:67-181 | In every run, whatever the users call: at most one Hello and one Welcome are sent, initiator established implies acceptor established, and no stream frame, Reset included, reaches an end that is not. |
| `TwoParty.WriteBufferIsBounded` | transport/src/tcp/manager.rs:215-222 | Between calls the write buffers are below 32 KiB, and no conforming call fails for lack of room, so deducted credit is never lost. |
| `Refusals.ExactlyTheseFail` | transport/src/tcp/manager.rs:358-432 | In every run of two managers, whatever the users call, `recv_frame` fails on the next frame exactly if it is Data, Close or Window of a stream the receiver does not hold (`UnknownStream`), or a Ping whose answer does not fit the write buffer. |
| `Refusals.NotHeldMeansOver` | transport/src/tcp/receiver.rs:31-83 | In every run, the receiver does not hold the stream of such a frame exactly if it has reset the stream, or has sent its own Close and received the sender's. |
| `Refusals.RunFollows` | transport/src/tcp/receiver.rs:9-83 | In every run, what an end holds of a stream, and its half-close state, are determined by the frames it has sent and received on it. |
| `LateCalls.LateRunFailsExactly` | transport/src/tcp/manager.rs:319-343 | In every run without Reset and with small pings, in which users may pop late and close twice, `recv_frame` fails exactly on a Close or Window of a stream the receiver no longer holds, with `UnknownStream`; that is, exactly if the receiver has closed the stream and the sender had before. |
| `LateCalls.LateCredit` | transport/src/tcp/manager.rs:319-343 | In every such run a Window is refused exactly if the receiver and, before it, the sender had closed the stream. |
| `LateCalls.LateCreditFails` | transport/src/tcp/manager.rs:319-343 | A run in which the Window of a `recv_data` after the own Close is refused. |
| `LateCalls.SecondClose` | transport/src/tcp/manager.rs:282-303 | In every such run a Close is refused exactly if the receiver had closed the stream and the sender had closed it before: a first Close never is. |
| `LateCalls.SecondCloseFails` | transport/src/tcp/manager.rs:282-303 | A run in which a second Close is refused. |
| `LateCalls.ResetRace` | transport/src/tcp/receiver.rs:64-83 | In every run, once an end has reset a stream, every Data, Close and Window that arrives on it fails with `UnknownStream`; only a Reset is accepted. |
| `LateCalls.ResetRaceFails` | transport/src/tcp/receiver.rs:48-62 | A run in which an end has reset a stream and the Close that arrives next is refused. |
| `LateCalls.PingFails` | transport/src/tcp/manager.rs:358-432 | A run in which the next frame is a Ping that is refused with `BufferOverflow`, because an Open waits in the write buffer. |
| `PoppedData.PoppedThenQueued` | transport/src/tcp/manager.rs:319-343 | In every run, whatever the users call, the payloads popped from a stream and then those in its queue are the payloads `recv_frame` returned on it. |
| `PoppedData.PopsWhatWasGiven` | transport/src/tcp/manager.rs:256-343 | In every run, up to the receiving side's first error, the payloads popped from a stream are a prefix of those the peer gave to `send_data` on it. |
| `PingEcho.PingsComeBack` | transport/src/tcp/manager.rs:345-432 | In every run, whatever the users call, up to the other side's first error: the payloads of the Pong frames `recv_frame` returned are a prefix of those given to successful `send_ping` calls, and all of them once nothing is buffered or travelling either way. |
| `PingEcho.PingsAreSent` | transport/src/tcp/manager.rs:345-348 | In every run the Ping frames a side has sent carry the payloads of its successful pings, in order. |
| `PingEcho.PingsAreEchoed` | transport/src/tcp/manager.rs:358-432 | While no `recv_frame` of a side fails, the payloads of the Pong frames it has sent are those of the Ping frames it has received. |
| `PingEcho.EchoesAreReturned` | transport/src/tcp/manager.rs:358-432 | In every run the Pong payloads `recv_frame` has returned are those of the Pong frames that have come out of the pipe. |
| `ByteParties.ByteRunIsRun` | transport/src/tcp/connection.rs:88-190 | Every run of two managers over pipes of bytes, for every chunking, is a run over pipes of frames with the same calls and results; the bytes to come encode the frames not received. |
| `ByteParties.NoSpuriousByteErrors` | transport/src/tcp/connection.rs:157-190 | In a conforming run over bytes, for every chunking, no `recv_frame` fails: what has been read is accepted, or more bytes are awaited. |
| `ByteParties.ExactlyTheseBytesFail` | transport/src/tcp/connection.rs:157-190 | In any run over bytes, for every chunking, `recv_frame` fails exactly by those guards: framing never does. |
| `ByteParties.BytesDeliverInOrder` | transport/src/tcp/connection.rs:157-190 | Over bytes too, ordered delivery holds in any run up to the receiver's first error, and everything has arrived once no byte is buffered anywhere. |
| `RequestResponse.EveryAnswerIsRight` | trench-cli/src/client.rs:121-161 | For any interleaving of the client's `send_request` calls and the serving loop neither side fails, each answer returned is the handler's answer to that request, and at most two streams are live at the client and one at the server. |
| `RequestResponse.WaitingIsNeverStuck` | trench-cli/src/client.rs:133-161 | While a request waits for its answer, one of the two programs can move. |
| `RequestResponse.MovesMakeProgress` | transport/src/server/resilient_server.rs:48-117 | Every move that does something while a request waits leaves strictly less work. |
| `RequestResponse.SomeMoveIsEffective` | trench-cli/src/client.rs:133-161 | In every play in which a request waits, a move of one of the programs does something. |
| `RequestResponse.AnswerArrives` | trench-cli/src/client.rs:133-161 | From every play in which a request waits, more moves that do something than there is work left, however interleaved, bring the client back to idle with the handler's answer. |
| `ByteConversation.BytePlayIsPlay` | transport/src/tcp/connection.rs:157-190 | Every play of the two programs over pipes of bytes, for every chunking, is a play over pipes of frames. |
| `ByteConversation.EveryAnswerIsRightOnBytes` | trench-cli/src/client.rs:121-161 | For any interleaving of the two programs and any chunking of their bytes neither side fails, each answer returned is the handler's, and the stream bounds hold. |
| `ByteConversation.BytesAreNeverStuck` | trench-cli/src/client.rs:133-161 | While a request waits, one of the programs can go on or bytes are on the way. |
| `TwoParty.ConnectedAfterHandshake` | transport/src/tcp/manager.rs:67-160 | The state the conversation starts from is the one the handshake leads to. |
| `RequestResponse.ClientMoveKeeps` | trench-cli/src/client.rs:121-161 | Each client call keeps the conversation invariant. |
| `RequestResponse.ServerMoveKeeps` | transport/src/server/resilient_server.rs:53-117 | Each server call keeps the conversation invariant. |
| `RequestResponse.ClientHandles` | trench-cli/src/client.rs:133-158 | The three frames that end an exchange are accepted in each state the client can be in. |
| `RequestResponse.ServerHandles` | transport/src/server/resilient_server.rs:53-102 | The three frames of a request are accepted in each state the server can be in. |
| `RequestResponse.SubmitIsFourMoves` | trench-cli/src/client.rs:125-131 | The first four moves of an idle client are exactly `Programs.Submit`, what `send_request` does before its receive loop, failures included. |
| `RequestResponse.RespondIsItsMoves` | transport/src/server/resilient_server.rs:86-102 | The moves of a server that has a Data frame are exactly `Programs.Respond`, what the serving loop does about it, failures included. |
| `Programs.SubmitRequest` | trench-cli/src/client.rs:125-131 | On the manager object: open, send, half-close and flush, stopping at the first failure; state and result are those of `Submit`. |
| `Programs.AwaitAnswer` | trench-cli/src/client.rs:133-160 | The receive loop, on whatever bytes arrive: state, result and bytes left unread are those of `Await`. |
| `Programs.SendRequest` | trench-cli/src/client.rs:121-161 | `send_request` on the manager object computes `Request`. |
| `Programs.RespondTo` | transport/src/server/resilient_server.rs:86-102 | One Data frame at the server: pop, decode, handle and answer, stopping at the first failure, as `Respond` says. |
| `Programs.CompleteAnswer` | transport/src/server/resilient_server.rs:97-101 | Sending an answer, half-closing and flushing is `Complete`. |
| `Programs.ServeTurn` | transport/src/server/resilient_server.rs:53-115 | One turn of the serving loop, on whatever bytes arrive: it ends with what `Serve` ends with, or goes on to where `Serve` comes to the same, having consumed a frame. |
| `Programs.RunServer` | transport/src/server/resilient_server.rs:48-117 | The serving loop ends on every finite input; state, result and bytes left unread are those of `Serve`. |
| `ProgramEnds.AwaitEnds` | trench-cli/src/client.rs:133-160 | On any bytes from any peer: the client's receive loop ends at the first frame whose handling fails, with that error, or at the first Data, Close or Reset on its stream, with the answer, `InternalError`, `ConnectionClosed` or `StreamReset`, and otherwise with the framing error. |
| `ProgramEnds.ServeEnds` | transport/src/server/resilient_server.rs:48-117 | On any bytes from any peer: the serving loop ends at the first frame whose handling or answering fails, with that error; otherwise without an error if the bytes end between or inside frames, and with the framing error if they do not decode. |
| `ProgramEnds.ServeFramesEnds` | transport/src/server/resilient_server.rs:48-117 | The same on frames, with the endpoint it leaves. |
| `SequentialRequests.RequestIsAnswered` | trench-cli/src/client.rs:121-161 | One `send_request` after earlier answered ones, on the bytes that answer it: the handler's answer is returned, later bytes stay unread, and the manager is ready for the next request. |
| `SequentialRequests.AwaitFinds` | trench-cli/src/client.rs:133-158 | The receive loop skips a late Close and the credit and returns the decoded answer. |
| `SequentialRequests.ServesTheFrames` | transport/src/server/resilient_server.rs:48-117 | On arbitrary bytes the serving loop does what it would do on the frames they hold, then on the way they end. |
| `SequentialRequests.ServesAll` | transport/src/server/resilient_server.rs:48-117 | On the bytes of any number of requests, even with a torn frame behind them, the serving loop ends without an error, holding no stream and having sent exactly the answers, in order. |
| `SequentialRequests.EveryRequestIsAnswered` | trench-cli/src/client.rs:121-161 | Any number of `send_request` calls in turn on one connected manager each return the handler's answer, reading exactly the bytes up to the last answer. |
| `SequentialRequests.ClientConnects` | transport/src/tcp/manager.rs:67-82 | `start_handshake` on a new manager succeeds on the Welcome and leaves the bytes behind it unread. |
| `SequentialRequests.ServerConnects` | transport/src/server/resilient_server.rs:48-70 | The serving loop on a new manager answers the Hello and goes on as if connected. |
| `SequentialRequests.ConversationCompletes` | transport/src/server/resilient_server.rs:48-117 | Both programs over one connection, from new managers on: what the client sends, Hello included, is served without an error, and on what that serving sends the handshake succeeds and every request gets the handler's answer. |
| `Checksum.TableEntry` | engine/src/wal/checksum.rs:4-12 | The inner loop computes eight one-bit steps of the reflected register. |
| `Checksum.Crc32Table` | engine/src/wal/checksum.rs:2-16 | Entry k of the table is the register after eight one-bit steps from k. |
| `Checksum.ComputeCrc32` | engine/src/wal/checksum.rs:19-26 | The table-driven loop returns the bit-at-a-time checksum, for every byte string. |
| `Checksum.StepIsLinear` | engine/src/wal/checksum.rs:6-12 | The one-bit step is linear over XOR. |
| `Checksum.LookupIsEightSteps` | engine/src/wal/checksum.rs:22-24 | One table lookup and shift equals eight one-bit steps. |
| `Checksum.AbsorbIsInjective` | engine/src/wal/checksum.rs:19-26 | Registers that differ stay different, whatever bytes follow. |
| `Checksum.BurstIsDetected` | engine/src/wal/checksum.rs:19-26 | Data of equal length differing only within four consecutive bytes never share a checksum. |
| `Checksum.ChecksumRoundTrip` | engine/src/wal/writer.rs:97-98 | A checksum read back from its four stored bytes is itself. |
| `Checksum.ReadChecksumRoundTrip` | engine/src/wal/reader.rs:86-91 | Four stored bytes are the bytes of the checksum read from them. |
| `Division.GeneratorBits` | engine/src/wal/checksum.rs:8 | The constant 0xEDB88320, low bit first, is the IEEE 802.3 generator polynomial. |
| `Division.RegisterIsRemainder` | engine/src/wal/checksum.rs:19-26 | The register is the remainder of long division of the message, the starting register added to its leading bits. |
| `Division.ChecksumIsDivision` | engine/src/wal/checksum.rs:2-26 | `crc32` is the checksum of clause 3.2.9 of IEEE 802.3: the complemented remainder of the message with its first 32 bits complemented, for every byte string. |
| `LogEntry.ToBytes` | engine/src/wal/entry.rs:16-46 | The bytes pushed are the tag and the length-prefixed fields of the entry. |
| `LogEntry.FromBytes` | engine/src/wal/entry.rs:49-93 | The cursor-driven parser computes `Parse`, errors included. |
| `LogEntry.EntryBijection` | engine/src/wal/entry.rs:16-93 | `from_bytes` accepts a payload as an entry if and only if it is `to_bytes` of that entry with no length cut short. |
| `LogEntry.SizeCheckSuffices` | engine/src/wal/writer.rs:81-95 | Every entry within the writer's size checks survives printing and parsing: the casts to `u32` lose nothing. |
| `LogEntry.FieldRoundTrip` | engine/src/wal/codec.rs:4-50 | A field decodes where it stands if and only if its length fits 32 bits. |
| `LogEntry.DecodedIsField` | engine/src/wal/codec.rs:38-61 | Whatever decodes stands there as an encoded field of that value. |
| `LogFormat.ScanFrame` | engine/src/wal/reader.rs:60-117 | A whole stored entry is found, or reported corrupt at its start if its payload is over the limit, whatever follows. |
| `LogFormat.ScanAltered` | engine/src/wal/reader.rs:96-112 | A stored payload replaced by one of the same length is judged by its checksum first and parsed only if that matches. |
| `LogFormat.ScanShort` | engine/src/wal/reader.rs:66-101 | An entry cut at any byte is seen to be torn. |
| `LogFormat.FirstUnfitIsFirst` | engine/src/wal/writer.rs:80-95 | The first entry over the size limit is where a batch stops. |
| `LogReader.ReadAll` | engine/src/wal/reader.rs:127-143 | Filling a buffer is complete, partial or at the end of the file according to the bytes that remain, whatever the short reads. |
| `LogReader.WalReader.NextEntry` | engine/src/wal/reader.rs:60-117 | The result is that of scanning the remaining bytes; the position moves only past an entry returned; a torn tail is consumed. |
| `LogReader.Open` | engine/src/wal/format.rs:27-60 | A file opens exactly if it has eight bytes, the magic and the version; reading starts behind them. |
| `LogLayout.HeaderVerdict` | engine/src/wal/format.rs:27-60 | In bytes: a file is accepted exactly if it has eight bytes, the first four are 0x54 0x52 0x44 0x42 and the fifth is 1; otherwise the error is `UnsupportedVersion` if only the fifth is wrong, and `InvalidHeader`. |
| `LogLayout.ReplayVerdict` | engine/src/wal/replay.rs:21-62 | For every file and both modes: a replay fails with that error, nothing replayed, exactly if the header is not accepted; otherwise it never fails with it, and fails at all only in strict mode. |
| `LogLayout.OpenToAppend` | engine/src/wal/writer.rs:26-63 | Opening a writer: an empty file gets the eight bytes, an accepted one is left as it is with the position at its end, any other is refused with that error and left alone. |
| `LogLayout.OpenToRead` | engine/src/wal/reader.rs:33-52 | Opening a reader: accepted and positioned behind the eight bytes, or refused with that error. |
| `LogLayout.EntryInBytes` | engine/src/wal/entry.rs:16-46 | The payload of every entry in bytes: its tag, and each field behind its length. |
| `LogLayout.LogInBytes` | engine/src/wal/writer.rs:97-101 | The bytes of a log of one entry: header, length, checksum and payload, big-endian. |
| `LogLayout.ReplayLimit` | engine/src/wal/options.rs:24-31 | Strict replay accepts an entry exactly up to 268,435,456 payload bytes. |
| `Store.Collection.Insert` | engine/src/rec/collections.rs:71-73 | The key holds the value with version 1, whatever it held. |
| `Store.Collection.Update` | engine/src/rec/collections.rs:79-89 | The key holds the value with the next version, or the first. |
| `Store.Collection.Remove` | engine/src/rec/collections.rs:75-77 | The key is gone and its value returned. |
| `Store.MemoryStore.Create` | engine/src/memory/store.rs:95-101 | The table exists afterwards, created empty if it did not, and no other table changes. |
| `Store.MemoryStore.Remove` | engine/src/memory/store.rs:103-105 | The table is gone and no other changes. |
| `LogReplay.ApplyEntry` | engine/src/wal/replay.rs:64-84 | The store changes as `Apply` says of its tables, keys and versions, through shared collection objects. |
| `LogReplay.ReplayEntries` | engine/src/wal/replay.rs:32-62 | The loop applies exactly the entries found before reading stops and reports where and why it stopped. |
| `LogReplay.Replay` | engine/src/wal/replay.rs:21-62 | Result and store are those of `Verdict` and of applying `Replayed`; a missing file is an empty log; a strict failure keeps what was applied. |
| `LogRecovery.TornWrite` | engine/src/wal/replay.rs:21-62 | A log cut at any byte at or behind its header: exactly the whole entries are applied, `final_position` is their end, `truncated_at` is that place iff the cut is not on it, no corruption is reported, and strict replay fails with `UnexpectedEof` iff the cut is not on it. |
| `LogRecovery.WholeEntriesAreLongest` | engine/src/wal/replay.rs:32-62 | Those entries are the longest run that fits the cut. |
| `LogRecovery.TornHeader` | engine/src/wal/format.rs:30-39 | A log cut inside its header is refused in both modes. |
| `LogRecovery.DamageIsFound` | engine/src/wal/reader.rs:103-112 | A payload replaced by bytes of the same length and another checksum: strict replay fails with `CorruptEntry` at its start, lenient replay applies the entries before it and reports that place, whatever follows. |
| `LogRecovery.BurstDamageIsFound` | engine/src/wal/reader.rs:96-112 | In particular when the bytes changed lie within four consecutive ones. |
| `LogReopen.RecoveredIsPrefix` | engine/src/wal/reader.rs:60-117 | In any bytes, the entries recovery finds stand at the beginning as their frames, up to the place it reports; there is no error exactly if they are all there is. |
| `LogReopen.StrictAcceptsExactlyLogs` | engine/src/wal/replay.rs:21-62 | A strict replay succeeds exactly on a valid header followed by whole entries within the reader's limit, byte for byte. |
| `LogReopen.ReopenIsSafeExactly` | engine/src/wal/writer.rs:26-63 | Entries appended to a reopened file are replayed strictly, behind what was replayed before, if and only if the file ends at its `final_position`. |
| `LogReopen.TailIsFatal` | engine/src/wal/writer.rs:26-63 | A log with anything behind it: the log and the entries appended are replayed strictly if and only if there is nothing behind it. |
| `LogReopen.TruncationRepairs` | engine/src/wal/replay.rs:21-62 | Any file with a valid header, truncated to the `final_position` a lenient replay reports, is replayed strictly with the same entries, and so is whatever is appended to it. |
| `LogReopen.TornTailSwallows` | engine/src/wal/writer.rs:26-63 | An example: entries appended behind a torn one whose length survived are not replayed while they do not fill the length it declares. |
| `LogRecovery.ZeroTail` | engine/src/wal/replay.rs:45-58 | A log followed by zero bytes: one to seven are a torn entry, eight or more stop a lenient replay without a trace in its summary and fail a strict one with `InvalidPayload`. |
| `LogRecovery.WholeLogReplays` | engine/src/wal/replay.rs:21-62 | A complete log is replayed entirely iff every payload is within the reader's limit; the first that is not is reported as corrupt and ends the replay. |
| `LogRecovery.TooLargeToReplay` | engine/src/wal/replay.rs:21-62 | An entry that a writer with a larger limit accepts and replay reports as corrupt. |
| `LogWriter.WalWriter.WriteFrame` | engine/src/wal/writer.rs:97-101 | Length, checksum and payload are added to file and buffer and the position advances by their size. |
| `LogWriter.WalWriter.Append` | engine/src/wal/writer.rs:81-102 | An entry is written iff its payload is within the limit and `u32::MAX`; otherwise nothing changes. |
| `LogWriter.WalWriter.AppendBatch` | engine/src/wal/writer.rs:79-105 | The entries before the first too large are added in order; success means all of them, flushed to the file; the file only grows. |
| `LogWriter.Open` | engine/src/wal/writer.rs:26-63 | An empty file gets a header, any other must have a valid one and is left as it is; the position is the length of the log. |
| `LogHistory.HistoryIsLog` | engine/src/wal/writer.rs:26-105 | After any batches, rejected ones included, and any reopening, file and buffer are the header followed by the accepted entries. |
| `LogHistory.HistoryReplays` | engine/src/wal/replay.rs:21-62 | Written under limits within the reader's, the flushed log is replayed entirely: strictly, to its end, with the accepted entries in order. |
| `LogHistory.Record` | engine/src/wal/writer.rs:26-105 | A `WalWriter` opened on an empty file and given any batches and reopenings ends with the contents and the limit of that history. |
| `LogHistory.RecordAndReplay` | engine/src/wal/replay.rs:21-84 | Writing such a history through `WalWriter`, flushing and replaying it into a store: the file is the header and the accepted entries, and the store ends as if they had been applied in order, versions included. |
| `LogHistory.AcknowledgedSurvives` | engine/src/wal/writer.rs:79-115 | Whatever a crash leaves of the entries written later, recovery applies all acknowledged ones, in order, and a prefix of the later ones. |
| `LogRestart.LastEntryDecides` | engine/src/wal/replay.rs:64-84 | For every table and key, replay leaves what the last entry about it says, and otherwise what was there. |
| `LogRestart.VersionIs` | engine/src/rec/collections.rs:71-89 | After the last entry that resets a key its version is 1 if that was an insert and 0 if not, plus the number of updates since. |
| `LogRestart.RecoveryRestarts` | engine/src/wal/replay.rs:64-84 | On any starting store, replaying any prefix and then the whole log gives the same tables, keys and values as replaying it once. |
| `LogRestart.VersionsRestart` | engine/src/rec/collections.rs:79-89 | The versions are the same too if and only if every update replayed twice is of a key the log also inserts, deletes or removes with its table. |
| `LogRestart.RestartChangesAVersion` | engine/src/rec/collections.rs:79-89 | A log of one update, replayed into an empty store and then again, ends with another version. |
| `EventLifecycle.Lifecycle.Start` | engine/src/events/lifecycle.rs:29-34 | Only a created lifecycle starts running. |
| `EventLifecycle.Lifecycle.RequestStop` | engine/src/events/lifecycle.rs:36-45 | A stop request takes a created or running lifecycle to stopping or, if immediate, stopped, and leaves others alone. |
| `EventLifecycle.Lifecycle.CompleteShutdown` | engine/src/events/lifecycle.rs:47-52 | A running or stopping lifecycle becomes stopped. |
| `EventLifecycle.NeverMovesBack` | engine/src/events/lifecycle.rs:29-52 | Over any transitions the lifecycle never moves backwards, and a stop request is never undone. |
| `EventLifecycle.CreatedExactly` | engine/src/events/lifecycle.rs:29-52 | A lifecycle is still created exactly if there was nothing but shutdowns. |
| `EventLifecycle.RunningExactly` | engine/src/events/lifecycle.rs:29-34 | A lifecycle runs exactly if it was started, with no stop before and nothing but starts behind. |
| `EventLifecycle.StopDecides` | engine/src/events/lifecycle.rs:36-52 | The first stop request decides, whatever follows: an immediate one stops the lifecycle at once and for good, a graceful one until it is shut down. |
| `EventQueue.Queue.Push` | engine/src/events/producer.rs:30-53 | An item is accepted or refused as full; statistics and order are kept; a notification is due exactly when the queue was empty. |
| `EventQueue.PushAll` | engine/src/events/producer.rs:30-53 | Pushing any items onto a fresh queue: exactly as many as the capacity, or all if it is zero, are accepted, in order; only the first asks for a notification, and every other item comes back. |
| `EventQueue.Queue.TryRecv` | engine/src/events/consumer.rs:56-64 | The oldest item is returned, or none; accepted items remain popped items followed by queued ones. |
| `EventQueue.Queue.RecvTimeout` | engine/src/events/consumer.rs:40-54 | Over any course of waits the result is the oldest item not yet popped, or a time-out, or nothing yet while none arrived. |
| `WakeUps.QueueIsConserved` | engine/src/events/producer.rs:30-53 | At every lock release, with any number of consumers, accepted items are popped items followed by queued ones, within capacity. |
| `WakeUps.PushIsRefusedExactly` | engine/src/events/producer.rs:30-38 | In every run, with any number of consumers, a push is refused exactly if the capacity is not zero and as many items are accepted and not popped. |
| `WakeUps.NoLostWakeUp` | engine/src/events/consumer.rs:27-37 | With one consumer, waiting while no notification is on its way implies an empty queue, although only a push onto an empty queue notifies. |
| `WakeUps.NoWakeUpIsLostExactly` | engine/src/events/producer.rs:48-50 | For every number of consumers and every capacity: no run leaves a consumer waiting beside a queued item with no notification on its way, if and only if there is at most one consumer. |
| `WakeUps.MoreConsumersMiss` | engine/src/events/producer.rs:48-50 | For any two or more consumers and any capacity, a run that does. |
| `WakeUps.TwoConsumersCanMissAnItem` | engine/src/events/producer.rs:48-50 | An example in which the woken consumer has taken its item and the other goes on waiting beside the next. |
| `WakeUps.NoItemIsStranded` | engine/src/events/consumer.rs:27-54 | With any number of consumers, while an item is queued some consumer is not waiting or a notification is on its way. |
| `WakeUps.PushStep` | engine/src/events/producer.rs:30-53 | `push` on the queue object is the step of the state machine, possible exactly if it is not refused, and asks for a notification exactly if one becomes pending. |
| `WakeUps.PopStep` | engine/src/events/consumer.rs:56-64 | `try_recv` on the queue object is the step that pops, and finds nothing exactly if the consumer may wait. |
| `Supervisor.OneRunnerInOrder` | engine/src/events/loops.rs:58-182 | Under any interleaving of calls, panics and respawns at most one runner is alive, tasks are taken once each in acceptance order, a runner spawned after the end takes none, and `active_runners` is the number of active runners and panicked ones, so it is right if and only if none has panicked. |
| `Supervisor.PanicIsMiscounted` | engine/src/events/loops.rs:58-83 | For every capacity a run in which the only runner has panicked and `active_runners` is still 1. |
| `Supervisor.StepKeepsInv` | engine/src/events/loops.rs:58-182 | Every step keeps the invariant behind that. |
| `Supervisor.StoppedForGood` | engine/src/events/lifecycle.rs:29-52 | The lifecycle never moves backwards, and once stopped no task is taken any more. |
| `Supervisor.PushAfterStopIsLost` | engine/src/events/loops.rs:122-140 | In every run that has stopped, with the lock free and room in the queue, a push is accepted, and its task stays in the queue for ever. |
| `Supervisor.StopsIdle` | engine/src/events/loops.rs:122-149 | Such runs exist for every capacity. |
| `Supervisor.AcceptedInTime` | engine/src/events/loops.rs:58-83 | At any point of a run without panics: if the lifecycle has not stopped and the current runner has not left its loop, all tasks accepted so far are dispatched when it ends, and if there is no current runner there are none; otherwise none that is still queued ever is. |
| `Supervisor.NoRunnerMeansNothingToDo` | engine/src/events/loops.rs:122-149 | Without panics there is no current runner only before the first task is accepted and after the end. |
| `Supervisor.PushHasRunner` | engine/src/events/loops.rs:122-140 | A push that has come as far as the queue has a current runner. |
| `Supervisor.LookLeavesLiveRunner` | engine/src/events/loops.rs:151-165 | In every run, panics included: after each look at the runner, by `start` or by either look of `push`, the handle has a runner that is alive, the old one if that was alive and otherwise a new one. |
| `Supervisor.AcceptedPushLeavesLiveRunner` | engine/src/events/loops.rs:122-140 | In every run, panics included: a push whose task was accepted returns only after its second look, whatever happens in between, and then a live runner is in the handle. |
| `Supervisor.LiveRunnerServes` | engine/src/events/loops.rs:58-83 | From any point of a run, after whatever panics: unless another task panics, a live current runner that is in time takes every task accepted so far before it ends. |
| `Supervisor.PushIsRefusedExactly` | engine/src/events/producer.rs:30-38 | In every run a push at the queue is refused exactly if the capacity is not zero and as many tasks are accepted and not taken. |
| `Supervisor.CallsCanGoOn` | engine/src/events/loops.rs:114-182 | No call waits for anything but the handle's lock, and a join for anything but the end of its runner; every live runner can move. |
| `Supervisor.EnqueueStep` | engine/src/events/producer.rs:30-53 | `push` on the queue object is the supervisor's step into the queue. |
| `Supervisor.ReceiveStep` | engine/src/events/consumer.rs:40-54 | A look at the queue object is the step of a runner that receives. |
| `Supervisor.DrainedBeforeReturn` | engine/src/events/loops.rs:142-149 | If no task panics, every task accepted before the stop transition has been dispatched when any `request_stop` returns. |
| `Supervisor.JoinMakesProgress` | engine/src/events/loops.rs:58-83 | While `request_stop` joins a runner nothing is accepted, the runner can always move, and every step but a spurious wake-up brings its end nearer. |

## Left out

- Sockets, task scheduling and cancellation: a connection is two sequences of bytes; a read hands out an arbitrary non-empty part, a write is complete.
- File-system calls, fsync and I/O errors: a file is a sequence of bytes, a missing one is empty or `None`; `WalError::Io` and `WalError::PathMissing` do not occur.
- Human-readable texts of errors and log output; every other field of an error is kept.
- TLS, identities and the `ResilientClient` with its reconnecting: foreign cryptography and thin wrappers.
- The `byteser` codec: `RequestResponse` takes any codec that round-trips, with non-empty envelopes of at most 65,536 bytes, and a handler that answers every request.
- The interleaving of the two programs, in `RequestResponse`, is a state machine on values; their class form is in `Programs`, whose calls do not interleave.
- `Supervisor`'s threads and locks are steps of a state machine on values: its loops interleave, and have no method form.
- The retry and reconnect logic around `send_request`, and requests after the stream ids of a connection have run out.
- `TwoParty.NoSpuriousErrors`, credit conservation and matching half-closes assume conforming users on both ends; what one manager keeps against any peer is `ManagerInvariant.AnyHistoryIsGood`.
- Settings frames beyond their stream-id check: the code accepts and ignores them.
- Capacities and growth of the read and write buffers, which do not affect their contents.
- The log modules `engine/src/ewal` and `engine/src/walmanager`: text output with no parser to pair with.
- Versions, positions and statistics are unbounded here: their 64-bit counters do not overflow.
- Sharing of values by reference counting, and concurrent use of the store: each map operation is atomic.
- `EventLoop::post_task`, which the supervisor does not use, and the dispatcher's own work: dispatching a task either ends or panics.
- Failure to spawn a thread: `Supervisor` takes every spawn to succeed.
- Lock poisoning: no panic happens while the queue's or the lifecycle's lock is held.
- Real time: a time-out of a waiting consumer may come at any moment.
- Blocking `recv` without a time-out is `EventQueue.Queue.RecvTimeout` on waits that never time out.
