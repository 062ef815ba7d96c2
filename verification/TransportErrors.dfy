/** Error values of the transport (`transport/src/errors.rs`). The human-readable
    text of `InvalidFrame` is left out; every other field is kept. */
module TransportErrors {
  import opened Bytes
  import Utf8

  datatype TransportError =
    | InvalidMagic
    | InvalidVersion(got: byte)
    | InvalidFrame
    | FrameTooLarge(size: nat)
    | ConnectionClosed
    | StreamClosed(streamId: u32)
    | StreamReset(streamId: u32)
    | FlowControlViolation(streamId: u32)
    | HandshakeRejected(code: u16, message: seq<byte>)
    | RemoteError(code: u16, streamId: u32, message: seq<byte>)
    | NeedMoreData
    | StreamIdExhausted
    | BufferOverflow
    | InternalError
    | UnknownStream(streamId: u32)
    | StreamNotWritable(streamId: u32)

  datatype Result<+T> = Ok(value: T) | Err(error: TransportError)

  const HANDSHAKE_REJECTED: u16 := 8
  const MAX_ERROR_CODE: u16 := 12

  datatype ErrorPayload = ErrorPayload(code: u16, streamId: u32, message: seq<byte>)

  /** The message length is cast to `u16`, so a longer message is mis-declared. */
  function EncodeError(e: ErrorPayload): seq<byte> {
    BE16(e.code) + BE32(e.streamId) + BE16(|e.message| % 0x1_0000) + e.message
  }

  /** Code numbers outside the known range read as `Unknown`, which is 0. */
  function DecodeError(s: seq<byte>): Result<ErrorPayload> {
    if |s| < 8 || |s| != 8 + FromBE16(s[6..8]) || !Utf8.Valid(s[8..]) then Err(InvalidFrame)
    else
      var code := FromBE16(s[..2]);
      Ok(ErrorPayload(if code <= MAX_ERROR_CODE then code else 0, FromBE32(s[2..6]), s[8..]))
  }

  lemma ErrorRoundTrip(e: ErrorPayload)
    ensures (e.code <= MAX_ERROR_CODE && |e.message| < 0x1_0000 && Utf8.Valid(e.message))
         <==> DecodeError(EncodeError(e)) == Ok(e)
  {
    var s := EncodeError(e);
    assert s[..2] == BE16(e.code);
    assert s[2..6] == BE32(e.streamId);
    assert s[6..8] == BE16(|e.message| % 0x1_0000);
    assert s[8..] == e.message;
    BE16RoundTrip(e.code);
    BE32RoundTrip(e.streamId);
    BE16RoundTrip(|e.message| % 0x1_0000);
  }
}
