/** The TRNC frame layer: header, printer and incremental parser
    (`transport/src/frame/`). */
module Frames {
  import opened Bytes
  import opened TransportErrors

  const FLAG_FIN: u16 := 1
  const FLAG_CONTROL: u16 := 4
  const KNOWN_FLAGS: u16 := 7
  const FRAME_MAGIC: seq<byte> := [0x54, 0x52, 0x4E, 0x43]
  const CURRENT_VERSION: byte := 1
  const MIN_SUPPORTED_VERSION: byte := 1
  const MAX_FRAME_SIZE: nat := 16 * 1024 * 1024
  const HEADER_SIZE: nat := 16

  datatype Frametype =
    Open | Data | Close | Reset | Ping | Pong | Window | Error | Settings | Hello | Welcome

  type Magic = s: seq<byte> | |s| == 4 witness FRAME_MAGIC

  datatype Header = Header(
    magic: Magic, version: byte, flags: u16, streamId: u32, payloadLength: u32, frameType: Frametype)

  datatype Frame = Frame(header: Header, payload: seq<byte>)

  function TypeByte(t: Frametype): byte {
    match t
    case Open => 1
    case Data => 2
    case Close => 3
    case Reset => 4
    case Ping => 5
    case Pong => 6
    case Window => 7
    case Error => 8
    case Settings => 9
    case Hello => 10
    case Welcome => 11
  }

  function TypeOfByte(b: byte): Option<Frametype> {
    match b
    case 1 => Some(Open)
    case 2 => Some(Data)
    case 3 => Some(Close)
    case 4 => Some(Reset)
    case 5 => Some(Ping)
    case 6 => Some(Pong)
    case 7 => Some(Window)
    case 8 => Some(Error)
    case 9 => Some(Settings)
    case 10 => Some(Hello)
    case 11 => Some(Welcome)
    case _ => None
  }

  predicate IsControlType(t: Frametype) {
    t.Ping? || t.Pong? || t.Settings? || t.Hello? || t.Welcome?
  }

  /** `flags & FLAG_CONTROL != 0`. */
  predicate HasControlFlag(flags: u16) { flags / 4 % 2 == 1 }

  /** `Header::validate`: the first failing check decides the error. */
  function Validate(h: Header): Option<TransportError> {
    if h.magic != FRAME_MAGIC then Some(InvalidMagic)
    else if h.version < MIN_SUPPORTED_VERSION || h.version > CURRENT_VERSION then Some(InvalidVersion(h.version))
    else if h.payloadLength > MAX_FRAME_SIZE then Some(FrameTooLarge(h.payloadLength))
    else if h.flags > KNOWN_FLAGS then Some(InvalidFrame)
    else if IsControlType(h.frameType) != HasControlFlag(h.flags) then Some(InvalidFrame)
    else None
  }

  /** `Frame::new`; the length is cast to `u32`. */
  function NewFrame(t: Frametype, flags: u16, streamId: u32, payload: seq<byte>): Frame {
    Frame(Header(FRAME_MAGIC, CURRENT_VERSION, flags, streamId, |payload| % 0x1_0000_0000, t), payload)
  }

  /** `Frame::empty`. */
  function EmptyFrame(t: Frametype, flags: u16, streamId: u32): Frame {
    NewFrame(t, flags, streamId, [])
  }

  predicate Encodable(f: Frame) { |f.payload| == f.header.payloadLength }

  /** A frame `Header::validate` accepts and `encode` can print. */
  predicate ValidFrame(f: Frame) { Encodable(f) && Validate(f.header).None? }

  function HeaderBytes(h: Header): (s: seq<byte>)
    ensures |s| == HEADER_SIZE
  {
    h.magic + [h.version] + BE16(h.flags) + BE32(h.streamId) + BE32(h.payloadLength) + [TypeByte(h.frameType)]
  }

  /** The wire form of an encodable frame. */
  function Encode(f: Frame): (s: seq<byte>)
    ensures |s| == HEADER_SIZE + |f.payload|
  {
    HeaderBytes(f.header) + f.payload
  }

  /** The bytes of several frames, back to back. */
  function EncodeAll(fs: seq<Frame>): seq<byte> {
    if fs == [] then [] else Encode(fs[0]) + EncodeAll(fs[1..])
  }

  /** `encode`, which appends the fields to a buffer one by one. */
  method EncodeFrame(f: Frame) returns (r: Result<seq<byte>>)
    ensures r == if |f.payload| == f.header.payloadLength then Ok(Encode(f)) else Err(InvalidFrame)
  {
    if |f.payload| != f.header.payloadLength {
      return Err(InvalidFrame);
    }
    var buffer: seq<byte> := f.header.magic;
    buffer := buffer + [f.header.version];
    buffer := buffer + BE16(f.header.flags);
    buffer := buffer + BE32(f.header.streamId);
    buffer := buffer + BE32(f.header.payloadLength);
    buffer := buffer + [TypeByte(f.header.frameType)];
    buffer := buffer + f.payload;
    return Ok(buffer);
  }

  /** The header `decode` reads, before validation; `None` on an unknown type byte. */
  function ParseHeader(b: seq<byte>): Option<Header>
    requires |b| >= HEADER_SIZE
  {
    match TypeOfByte(b[15])
    case None => None
    case Some(t) => Some(Header(b[..4], b[4], FromBE16(b[5..7]), FromBE32(b[7..11]), FromBE32(b[11..15]), t))
  }

  /** `decode`: one frame and the number of bytes it took, or the reason there is none. */
  function Decode(b: seq<byte>): (r: Result<(Frame, nat)>)
    ensures r.Ok? ==> HEADER_SIZE <= r.value.1 <= |b|
  {
    if |b| < HEADER_SIZE then Err(NeedMoreData)
    else
      match ParseHeader(b)
      case None => Err(InvalidFrame)
      case Some(h) =>
        match Validate(h)
        case Some(e) => Err(e)
        case None =>
          var end := HEADER_SIZE + h.payloadLength;
          if |b| < end then Err(NeedMoreData) else Ok((Frame(h, b[HEADER_SIZE..end]), end))
  }

  // ---- The header codec ----

  lemma TypeByteRoundTrip(t: Frametype)
    ensures TypeOfByte(TypeByte(t)) == Some(t)
  {
  }

  lemma TypeOfByteRoundTrip(b: byte)
    ensures TypeOfByte(b).Some? ==> TypeByte(TypeOfByte(b).value) == b
  {
  }

  lemma HeaderLayout(h: Header, rest: seq<byte>)
    ensures var b := HeaderBytes(h) + rest;
            && b[..4] == h.magic && b[4] == h.version && b[5..7] == BE16(h.flags)
            && b[7..11] == BE32(h.streamId) && b[11..15] == BE32(h.payloadLength) && b[15] == TypeByte(h.frameType)
  {
  }

  lemma HeaderRoundTrip(h: Header, rest: seq<byte>)
    ensures ParseHeader(HeaderBytes(h) + rest) == Some(h)
  {
    HeaderLayout(h, rest);
    TypeByteRoundTrip(h.frameType);
    BE16RoundTrip(h.flags);
    BE32RoundTrip(h.streamId);
    BE32RoundTrip(h.payloadLength);
  }

  lemma ParsedHeaderPrints(b: seq<byte>)
    requires |b| >= HEADER_SIZE && ParseHeader(b).Some?
    ensures HeaderBytes(ParseHeader(b).value) == b[..HEADER_SIZE]
  {
    TypeOfByteRoundTrip(b[15]);
    FromBE16RoundTrip(b[5..7]);
    FromBE32RoundTrip(b[7..11]);
    FromBE32RoundTrip(b[11..15]);
    assert b[..16] == b[..4] + [b[4]] + b[5..7] + b[7..11] + b[11..15] + [b[15]];
  }

  // ---- The frame codec ----

  /** `decode` inverts `encode` whatever follows on the wire. */
  lemma DecodeInvertsEncode(f: Frame, rest: seq<byte>)
    requires ValidFrame(f)
    ensures Decode(Encode(f) + rest) == Ok((f, |Encode(f)|))
  {
    assert Encode(f) + rest == HeaderBytes(f.header) + (f.payload + rest);
    HeaderRoundTrip(f.header, f.payload + rest);
    assert (Encode(f) + rest)[HEADER_SIZE..HEADER_SIZE + |f.payload|] == f.payload;
  }

  /** No proper prefix of a frame is mistaken for a frame or rejected. */
  lemma ProperPrefixNeedsMore(f: Frame, k: nat)
    requires ValidFrame(f) && k < |Encode(f)|
    ensures Decode(Encode(f)[..k]) == Err(NeedMoreData)
  {
    if k >= HEADER_SIZE {
      assert Encode(f)[..k] == HeaderBytes(f.header) + f.payload[..k - HEADER_SIZE];
      HeaderRoundTrip(f.header, f.payload[..k - HEADER_SIZE]);
    }
  }

  /** Every verdict but `NeedMoreData` is final. */
  lemma VerdictIsStable(b: seq<byte>, more: seq<byte>)
    requires Decode(b) != Err(NeedMoreData)
    ensures Decode(b + more) == Decode(b)
  {
    assert forall i, j :: 0 <= i <= j <= |b| ==> (b + more)[i..j] == b[i..j];
    assert (b + more)[..4] == b[..4];
  }

  /** A decoded frame is valid and re-encodes to the bytes it was read from. */
  lemma EncodeInvertsDecode(b: seq<byte>)
    requires Decode(b).Ok?
    ensures var (f, n) := Decode(b).value; ValidFrame(f) && Encode(f) == b[..n]
  {
    ParsedHeaderPrints(b);
    var n := Decode(b).value.1;
    assert b[..n] == b[..HEADER_SIZE] + b[HEADER_SIZE..n];
  }

  /** A buffer the parser cannot decide on holds less than one largest frame. */
  lemma UndecidedIsShort(b: seq<byte>)
    requires Decode(b) == Err(NeedMoreData)
    ensures |b| < MAX_FRAME_SIZE + HEADER_SIZE
  {
  }

  lemma EncodeAllCons(f: Frame, fs: seq<Frame>)
    ensures EncodeAll([f] + fs) == Encode(f) + EncodeAll(fs)
  {
  }

  lemma {:induction false} EncodeAllAppend(a: seq<Frame>, b: seq<Frame>)
    ensures EncodeAll(a + b) == EncodeAll(a) + EncodeAll(b)
  {
    if a == [] {
      assert a + b == b;
    } else {
      var rest := a[1..];
      assert a + b == [a[0]] + (rest + b);
      EncodeAllCons(a[0], rest + b);
      EncodeAllAppend(rest, b);
      ConcatAssociates(Encode(a[0]), EncodeAll(rest), EncodeAll(b));
    }
  }

  lemma EncodeAllOne(f: Frame)
    ensures EncodeAll([f]) == Encode(f)
  {
  }
}
