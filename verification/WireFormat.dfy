/** The frames of the transport byte by byte (`transport/src/frame/`,
    `transport/src/errors.rs`): what is accepted and what is sent, in numbers. */
module WireFormat {
  import opened Bytes
  import opened TransportErrors
  import opened Frames
  import opened Protocol
  import Utf8
  import C = Connection

  /** Four bytes read as one number, the first the most significant. */
  function Word(b: seq<byte>, i: nat): nat
    requires i + 4 <= |b|
  {
    (b[i] as int) * 16_777_216 + (b[i + 1] as int) * 65_536 + (b[i + 2] as int) * 256 + b[i + 3] as int
  }

  /** Two bytes, likewise. */
  function Half(b: seq<byte>, i: nat): nat
    requires i + 2 <= |b|
  {
    (b[i] as int) * 256 + b[i + 1] as int
  }

  // ---- What is accepted ----

  predicate HasMagic(b: seq<byte>)
    requires |b| >= 16
  {
    b[0] == 0x54 && b[1] == 0x52 && b[2] == 0x4E && b[3] == 0x43
  }

  /** Flags FIN, ACK and CONTROL are 1, 2 and 4; CONTROL stands on Ping, Pong, Settings,
      Hello and Welcome, and on nothing else. */
  predicate HasFlags(b: seq<byte>)
    requires |b| >= 16
  {
    && b[5] == 0 && b[6] < 8
    && (b[6] >= 4 <==> b[15] == 5 || b[15] == 6 || b[15] == 9 || b[15] == 10 || b[15] == 11)
  }

  /** Everything `decode` checks before it looks at the payload. */
  predicate HasHeader(b: seq<byte>)
    requires |b| >= 16
  {
    HasMagic(b) && b[4] == 1 && 1 <= b[15] <= 11 && Word(b, 11) <= 16_777_216 && HasFlags(b)
  }

  lemma HeaderFields(b: seq<byte>)
    requires |b| >= 16 && 1 <= b[15] <= 11
    ensures ParseHeader(b).Some?
    ensures var h := ParseHeader(b).value;
            && h.magic == b[..4] && h.version == b[4] && h.flags == Half(b, 5)
            && h.streamId == Word(b, 7) && h.payloadLength == Word(b, 11) && IsType(h.frameType, b[15])
  {
    assert b[5..7] == [b[5], b[6]] && b[7..11] == [b[7], b[8], b[9], b[10]];
    assert b[11..15] == [b[11], b[12], b[13], b[14]];
  }

  /** The numbers of the frame types. */
  predicate IsType(t: Frametype, n: byte) {
    match t
    case Open => n == 1
    case Data => n == 2
    case Close => n == 3
    case Reset => n == 4
    case Ping => n == 5
    case Pong => n == 6
    case Window => n == 7
    case Error => n == 8
    case Settings => n == 9
    case Hello => n == 10
    case Welcome => n == 11
  }

  lemma MagicInBytes(b: seq<byte>)
    requires |b| >= 16
    ensures HasMagic(b) <==> b[..4] == FRAME_MAGIC
  {
    assert b[..4] == [b[0], b[1], b[2], b[3]];
  }

  lemma ControlBit(flags: u16)
    requires flags < 8
    ensures HasControlFlag(flags) <==> flags >= 4
  {
  }

  /** `decode` on any bytes: the verdict, in the order of its checks. */
  lemma DecodeVerdict(b: seq<byte>)
    ensures Decode(b) == Err(NeedMoreData) <==>
              |b| < 16 || (HasHeader(b) && |b| < 16 + Word(b, 11))
    ensures Decode(b) == Err(InvalidMagic) <==>
              |b| >= 16 && 1 <= b[15] <= 11 && !HasMagic(b)
    ensures |b| >= 16 ==>
              (Decode(b) == Err(InvalidVersion(b[4])) <==> 1 <= b[15] <= 11 && HasMagic(b) && b[4] != 1)
    ensures |b| >= 16 ==>
              (Decode(b) == Err(FrameTooLarge(Word(b, 11))) <==>
                 1 <= b[15] <= 11 && HasMagic(b) && b[4] == 1 && Word(b, 11) > 16_777_216)
    ensures Decode(b) == Err(InvalidFrame) <==>
              && |b| >= 16
              && (b[15] == 0 || b[15] > 11
                  || (HasMagic(b) && b[4] == 1 && Word(b, 11) <= 16_777_216 && !HasFlags(b)))
    ensures Decode(b).Ok? <==> |b| >= 16 && HasHeader(b) && |b| >= 16 + Word(b, 11)
  {
    if |b| >= 16 && 1 <= b[15] <= 11 {
      HeaderFields(b);
      MagicInBytes(b);
      if Half(b, 5) < 8 {
        ControlBit(Half(b, 5));
      }
    }
  }

  /** What an accepted frame holds, and how many bytes it took. */
  lemma DecodedInBytes(b: seq<byte>)
    requires Decode(b).Ok?
    ensures |b| >= 16 && |b| >= 16 + Word(b, 11)
    ensures var (f, n) := Decode(b).value;
            && f.header.magic == [0x54, 0x52, 0x4E, 0x43] && f.header.version == 1 && f.header.flags == b[6]
            && f.header.streamId == Word(b, 7) && f.header.payloadLength == Word(b, 11)
            && IsType(f.header.frameType, b[15])
            && f.payload == b[16..16 + Word(b, 11)] && n == 16 + Word(b, 11)
  {
    DecodeVerdict(b);
    HeaderFields(b);
    MagicInBytes(b);
  }

  /** `recv_frame` on the connection reports every other verdict as it is, and asks for
      no more bytes once there are none. */
  lemma ReceiveVerdict(b: seq<byte>)
    ensures C.Receive(b).0 ==
            match Decode(b)
            case Ok((f, _)) => Ok(f)
            case Err(e) => Err(if e.NeedMoreData? then ConnectionClosed else e)
    ensures Decode(b).Err? ==> C.Receive(b).1 == b
    ensures Decode(b).Ok? ==> C.Receive(b).1 == b[16 + |C.Receive(b).0.value.payload|..]
  {
    if Decode(b).Ok? {
      DecodedInBytes(b);
    }
  }

  // ---- What is sent ----

  /** "TRNC", version 1, and these flags. */
  function Start(flags: byte): seq<byte> { [0x54, 0x52, 0x4E, 0x43, 1, 0, flags] }

  lemma FrameInBytes(t: Frametype, flags: u16, id: u32, payload: seq<byte>)
    requires flags < 8 && |payload| < 0x1_0000_0000
    ensures Encode(NewFrame(t, flags, id, payload))
         == Start(flags) + Bytes4(id) + Bytes4(|payload|) + [TypeByte(t)] + payload
    ensures IsType(t, TypeByte(t))
  {
    assert BE16(flags) == [0, flags];
    BE32IsBytes4(id);
    BE32IsBytes4(|payload|);
  }

  /** Every frame a manager sends, as it goes over the wire. */
  lemma SentInBytes(id: u32, payload: seq<byte>, n: u32)
    requires |payload| < 0x1_0000_0000
    ensures Encode(HelloFrame()) == Start(4) + [0, 0, 0, 0] + [0, 0, 0, 0] + [10]
    ensures Encode(WelcomeFrame()) == Start(4) + [0, 0, 0, 0] + [0, 0, 0, 0] + [11]
    ensures Encode(OpenFrame(id)) == Start(0) + Bytes4(id) + [0, 0, 0, 0] + [1]
    ensures Encode(DataFrame(id, payload)) == Start(0) + Bytes4(id) + Bytes4(|payload|) + [2] + payload
    ensures Encode(CloseFrame(id)) == Start(1) + Bytes4(id) + [0, 0, 0, 0] + [3]
    ensures Encode(ResetFrame(id)) == Start(0) + Bytes4(id) + [0, 0, 0, 0] + [4]
    ensures Encode(PingFrame(payload)) == Start(4) + [0, 0, 0, 0] + Bytes4(|payload|) + [5] + payload
    ensures Encode(PongFrame(payload)) == Start(4) + [0, 0, 0, 0] + Bytes4(|payload|) + [6] + payload
    ensures Encode(WindowFrame(id, n)) == Start(0) + Bytes4(id) + [0, 0, 0, 4] + [7] + Bytes4(n)
  {
    FrameInBytes(Frametype.Hello, 4, 0, []);
    FrameInBytes(Frametype.Welcome, 4, 0, []);
    FrameInBytes(Frametype.Open, 0, id, []);
    FrameInBytes(Frametype.Data, 0, id, payload);
    FrameInBytes(Frametype.Close, 1, id, []);
    FrameInBytes(Frametype.Reset, 0, id, []);
    FrameInBytes(Frametype.Ping, 4, 0, payload);
    FrameInBytes(Frametype.Pong, 4, 0, payload);
    FrameInBytes(Frametype.Window, 0, id, BE32(n));
    BE32IsBytes4(n);
  }

  // ---- Error payloads ----

  /** `ErrorPayload::decode` on any bytes: a code, a stream and a message of the declared
      length in UTF-8; a code above 12 reads as 0. */
  lemma ErrorVerdict(b: seq<byte>)
    ensures DecodeError(b).Ok? <==> |b| >= 8 && |b| == 8 + Half(b, 6) && Utf8.Valid(b[8..])
    ensures DecodeError(b).Err? ==> DecodeError(b) == Err(InvalidFrame)
    ensures DecodeError(b).Ok? ==>
              DecodeError(b) == Ok(ErrorPayload(if Half(b, 0) > 12 then 0 else Half(b, 0), Word(b, 2), b[8..]))
  {
    if |b| >= 8 {
      assert b[6..8] == [b[6], b[7]] && b[..2] == [b[0], b[1]] && b[2..6] == [b[2], b[3], b[4], b[5]];
    }
  }

  /** What a manager that rejects a handshake sends: code 8, stream 0, and its reason. */
  lemma RejectionInBytes(text: seq<byte>)
    requires |text| < 256
    ensures Encode(RejectionFrame(text)) ==
            Start(0) + [0, 0, 0, 0] + Bytes4(8 + |text|) + [8] + ([0, 8] + [0, 0, 0, 0] + [0, |text|] + text)
  {
    var payload := EncodeError(ErrorPayload(HANDSHAKE_REJECTED, 0, text));
    assert payload == [0, 8] + [0, 0, 0, 0] + [0, |text|] + text;
    FrameInBytes(Frametype.Error, 0, 0, payload);
  }
}
