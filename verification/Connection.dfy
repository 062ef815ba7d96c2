/** A buffered connection that sends and receives frames
    (`transport/src/tcp/connection.rs`). */
module Connection {
  import opened Bytes
  import opened TransportErrors
  import opened Frames

  const MAX_BUFFER_SIZE: nat := 256 * 1024
  const MAX_READ_BUFFER_SIZE: nat := MAX_FRAME_SIZE + HEADER_SIZE

  /** One end of a byte stream. `incoming` is everything the peer will have sent
      and this end has not read; a read hands out an arbitrary non-empty part of
      it, and nothing only when the peer has closed. */
  class Pipe {
    var incoming: seq<byte>
    var outgoing: seq<byte>

    constructor (incoming: seq<byte>)
      ensures this.incoming == incoming && outgoing == []
    {
      this.incoming, this.outgoing := incoming, [];
    }

    method Read() returns (chunk: seq<byte>)
      modifies `incoming
      ensures chunk + incoming == old(incoming)
      ensures chunk == [] <==> old(incoming) == []
    {
      if incoming == [] {
        return [];
      }
      var n :| 1 <= n <= |incoming|;
      chunk, incoming := incoming[..n], incoming[n..];
    }

    method WriteAll(bytes: seq<byte>)
      modifies `outgoing
      ensures outgoing == old(outgoing) + bytes
    {
      outgoing := outgoing + bytes;
    }
  }

  /** What `recv_frame` makes of all the bytes it will ever see: its result and
      the bytes left over. No chunk boundary appears here. */
  function Receive(unread: seq<byte>): (Result<Frame>, seq<byte>) {
    match Decode(unread)
    case Ok((f, n)) => (Ok(f), unread[n..])
    case Err(NeedMoreData) => (Err(ConnectionClosed), unread)
    case Err(e) => (Err(e), unread)
  }

  class Connection {
    const stream: Pipe
    var readBuffer: seq<byte>
    var writeBuffer: seq<byte>
    /** The frames in the write buffer, and those flushed since `new`. */
    ghost var buffered: seq<Frame>
    ghost var shipped: seq<Frame>
    /** What the stream had carried before this connection wrapped it. */
    ghost const before: seq<byte>

    ghost predicate Valid()
      reads this, stream
    {
      && writeBuffer == EncodeAll(buffered)
      && |writeBuffer| <= MAX_BUFFER_SIZE
      && stream.outgoing == before + EncodeAll(shipped)
    }

    ghost function Unread(): seq<byte>
      reads this, stream
    {
      readBuffer + stream.incoming
    }

    constructor (stream: Pipe)
      ensures Valid() && this.stream == stream
      ensures buffered == shipped == [] && readBuffer == []
    {
      this.stream := stream;
      readBuffer, writeBuffer := [], [];
      buffered, shipped, before := [], [], stream.outgoing;
    }

    method BufferFrame(f: Frame) returns (r: Result<()>)
      requires Valid()
      modifies `writeBuffer, `buffered
      ensures Valid()
      ensures r == if !Encodable(f) then Err(InvalidFrame)
                   else if old(|writeBuffer|) + |Encode(f)| > MAX_BUFFER_SIZE then Err(BufferOverflow)
                   else Ok(())
      ensures buffered == if r.Ok? then old(buffered) + [f] else old(buffered)
    {
      var encoded := EncodeFrame(f);
      match encoded {
        case Err(e) => return Err(e);
        case Ok(bytes) =>
          if |writeBuffer| + |bytes| > MAX_BUFFER_SIZE {
            return Err(BufferOverflow);
          }
          EncodeAllAppend(buffered, [f]);
          EncodeAllOne(f);
          writeBuffer := writeBuffer + bytes;
          buffered := buffered + [f];
          return Ok(());
      }
    }

    method Flush()
      requires Valid()
      modifies `writeBuffer, `buffered, `shipped, stream`outgoing
      ensures Valid() && buffered == [] && shipped == old(shipped + buffered)
    {
      EncodeAllAppend(shipped, buffered);
      if |writeBuffer| == 0 {
        NoFrameIsEmpty(buffered);
        return;
      }
      stream.WriteAll(writeBuffer);
      ConcatAssociates(before, EncodeAll(shipped), EncodeAll(buffered));
      writeBuffer := [];
      buffered, shipped := [], shipped + buffered;
    }

    method SendFrame(f: Frame) returns (r: Result<()>)
      requires Valid()
      modifies `writeBuffer, `buffered, `shipped, stream`outgoing
      ensures Valid()
      ensures r == if !Encodable(f) then Err(InvalidFrame)
                   else if old(|writeBuffer|) + |Encode(f)| > MAX_BUFFER_SIZE then Err(BufferOverflow)
                   else Ok(())
      ensures r.Ok? ==> buffered == [] && shipped == old(shipped + buffered) + [f]
      ensures r.Err? ==> buffered == old(buffered) && shipped == old(shipped)
    {
      r := BufferFrame(f);
      if r.Ok? {
        Flush();
      }
    }

    /** The loop decodes what is buffered and reads more until that succeeds. The
        source's guard on an over-long read buffer is the assertion: it holds
        whenever the parser is undecided, so the guard cannot fire. */
    method RecvFrame() returns (r: Result<Frame>)
      requires Valid()
      modifies `readBuffer, stream`incoming
      ensures Valid()
      ensures (r, Unread()) == Receive(old(Unread()))
      ensures r.Ok? ==> |Unread()| + HEADER_SIZE <= old(|Unread()|)
    {
      ghost var all := Unread();
      while true
        invariant Unread() == all
        decreases |stream.incoming|
      {
        var verdict := Decode(readBuffer);
        if verdict.Ok? || verdict.error != NeedMoreData {
          DecidedEarly(readBuffer, stream.incoming);
          if verdict.Ok? {
            readBuffer := readBuffer[verdict.value.1..];
            return Ok(verdict.value.0);
          }
          return Err(verdict.error);
        }
        UndecidedIsShort(readBuffer);
        assert |readBuffer| < MAX_READ_BUFFER_SIZE;
        var chunk := stream.Read();
        if |chunk| == 0 {
          assert all == readBuffer;
          return Err(ConnectionClosed);
        }
        readBuffer := readBuffer + chunk;
      }
    }
  }

  lemma NoFrameIsEmpty(fs: seq<Frame>)
    ensures EncodeAll(fs) == [] ==> fs == []
  {
  }

  /** A verdict reached on the bytes read so far is the one on all bytes. */
  lemma DecidedEarly(read: seq<byte>, more: seq<byte>)
    requires Decode(read) != Err(NeedMoreData)
    ensures Receive(read + more) ==
            match Decode(read)
            case Ok((f, n)) => (Ok(f), read[n..] + more)
            case Err(e) => (Err(e), read + more)
  {
    VerdictIsStable(read, more);
    if Decode(read).Ok? {
      var n := Decode(read).value.1;
      assert (read + more)[n..] == read[n..] + more;
    }
  }

  // ---- Chunking independence ----

  predicate AllValid(fs: seq<Frame>) { forall f <- fs :: ValidFrame(f) }

  /** Calling `recv_frame` until it fails: the frames and the final error. */
  function Drain(unread: seq<byte>): (r: (seq<Frame>, TransportError))
    decreases |unread|
  {
    match Receive(unread)
    case (Ok(f), rest) => var (fs, e) := Drain(rest); ([f] + fs, e)
    case (Err(e), _) => ([], e)
  }

  /** While whole frames are outstanding, the next call returns the first of them. */
  lemma ReceivesNextFrame(f: Frame, rest: seq<byte>)
    requires ValidFrame(f)
    ensures Receive(Encode(f) + rest) == (Ok(f), rest)
  {
    DecodeInvertsEncode(f, rest);
  }

  lemma DrainTakesNextFrame(f: Frame, rest: seq<byte>)
    requires ValidFrame(f)
    ensures Drain(Encode(f) + rest) == ([f] + Drain(rest).0, Drain(rest).1)
  {
    ReceivesNextFrame(f, rest);
  }

  /** Valid frames, and possibly the beginning of one more, are received as
      exactly those frames and then `ConnectionClosed`. */
  lemma {:induction false} DrainsExactlyWhatWasSent(fs: seq<Frame>, torn: Frame, k: nat)
    requires AllValid(fs) && ValidFrame(torn) && k < |Encode(torn)|
    ensures Drain(EncodeAll(fs) + Encode(torn)[..k]) == (fs, ConnectionClosed)
  {
    var tail := Encode(torn)[..k];
    if fs == [] {
      assert EncodeAll(fs) + tail == tail;
      ProperPrefixNeedsMore(torn, k);
    } else {
      var later := fs[1..];
      DrainsExactlyWhatWasSent(later, torn, k);
      DrainTakesNextFrame(fs[0], EncodeAll(later) + tail);
      ConcatAssociates(Encode(fs[0]), EncodeAll(later), tail);
      assert fs == [fs[0]] + later;
    }
  }

  /** Whatever the bytes are, the frames received are valid and their encodings
      are the beginning of those bytes. */
  lemma {:induction false} DrainedFramesWereOnTheWire(unread: seq<byte>)
    ensures AllValid(Drain(unread).0) && EncodeAll(Drain(unread).0) <= unread
    decreases |unread|
  {
    var (r, rest) := Receive(unread);
    if r.Ok? {
      EncodeInvertsDecode(unread);
      DrainedFramesWereOnTheWire(rest);
      var fs := Drain(rest).0;
      EncodeAllCons(r.value, fs);
      var n := Decode(unread).value.1;
      assert unread == unread[..n] + rest;
    }
  }

  // ---- A pipe of bytes refines a pipe of frames ----

  /** The bytes between a sender and a receiver. */
  datatype Channel = Channel(writeBuffer: seq<byte>, wire: seq<byte>, readBuffer: seq<byte>)

  /** The same, as frames: buffered at the sender, and flushed but not received. */
  datatype FrameChannel = FrameChannel(buffered: seq<Frame>, flushed: seq<Frame>)

  datatype Op = Buffer(frame: Frame) | Flush | Chunk(size: nat) | Take

  /** One step on bytes, and the frame `Take` decoded, if any. A `Chunk` moves
      some bytes of the wire into the read buffer. */
  function ByteStep(c: Channel, op: Op): (Channel, seq<Frame>) {
    match op
    case Buffer(f) => (c.(writeBuffer := c.writeBuffer + Encode(f)), [])
    case Flush => (c.(writeBuffer := [], wire := c.wire + c.writeBuffer), [])
    case Chunk(n) =>
      var m := if n <= |c.wire| then n else |c.wire|;
      (c.(wire := c.wire[m..], readBuffer := c.readBuffer + c.wire[..m]), [])
    case Take =>
      match Decode(c.readBuffer)
      case Ok((f, n)) => (c.(readBuffer := c.readBuffer[n..]), [f])
      case Err(_) => (c, [])
  }

  /** The same step on frames; `taken` says whether the bytes of the next frame
      had all arrived. */
  function FrameStep(c: FrameChannel, op: Op, taken: bool): (FrameChannel, seq<Frame>)
    requires op.Take? && taken ==> c.flushed != []
  {
    match op
    case Buffer(f) => (c.(buffered := c.buffered + [f]), [])
    case Flush => (c.(buffered := [], flushed := c.flushed + c.buffered), [])
    case Chunk(_) => (c, [])
    case Take => if taken then (c.(flushed := c.flushed[1..]), [c.flushed[0]]) else (c, [])
  }

  predicate Refines(c: Channel, f: FrameChannel) {
    && AllValid(f.buffered) && AllValid(f.flushed)
    && c.writeBuffer == EncodeAll(f.buffered)
    && c.readBuffer + c.wire == EncodeAll(f.flushed)
  }

  /** Whether the receiver holds all the bytes of the next frame. */
  predicate HeadArrived(c: Channel, f: FrameChannel) {
    f.flushed != [] && |Encode(f.flushed[0])| <= |c.readBuffer|
  }

  /** Decoding succeeds exactly when the next frame has arrived, and otherwise
      only asks for more: no run of the byte pipe meets a framing error. */
  lemma TakeIsExact(c: Channel, f: FrameChannel)
    requires Refines(c, f)
    ensures if HeadArrived(c, f)
            then Decode(c.readBuffer) == Ok((f.flushed[0], |Encode(f.flushed[0])|))
            else Decode(c.readBuffer) == Err(NeedMoreData)
  {
    if f.flushed != [] {
      var head, rest := f.flushed[0], EncodeAll(f.flushed[1..]);
      var all := c.readBuffer + c.wire;
      assert all == Encode(head) + rest;
      if HeadArrived(c, f) {
        var extra := c.readBuffer[|Encode(head)|..];
        assert all[..|Encode(head)|] == Encode(head) == c.readBuffer[..|Encode(head)|];
        assert c.readBuffer == Encode(head) + extra;
        DecodeInvertsEncode(head, extra);
      } else {
        assert all[..|c.readBuffer|] == c.readBuffer == Encode(head)[..|c.readBuffer|];
        ProperPrefixNeedsMore(head, |c.readBuffer|);
      }
    }
  }

  /** Each byte-level step is one frame-level step with the same outcome. */
  lemma ByteStepRefinesFrameStep(c: Channel, f: FrameChannel, op: Op)
    requires Refines(c, f) && (op.Buffer? ==> ValidFrame(op.frame))
    ensures var (c', got) := ByteStep(c, op);
            var (f', frames) := FrameStep(f, op, HeadArrived(c, f));
            Refines(c', f') && got == frames
  {
    match op
    case Buffer(frame) =>
      EncodeAllAppend(f.buffered, [frame]);
      EncodeAllOne(frame);
    case Flush =>
      EncodeAllAppend(f.flushed, f.buffered);
      ConcatAssociates(c.readBuffer, c.wire, c.writeBuffer);
    case Chunk(n) =>
      var c' := ByteStep(c, op).0;
      assert c'.readBuffer + c'.wire == c.readBuffer + c.wire;
    case Take =>
      TakeIsExact(c, f);
      if HeadArrived(c, f) {
        var n := |Encode(f.flushed[0])|;
        assert c.readBuffer[n..] + c.wire == (c.readBuffer + c.wire)[n..];
        assert EncodeAll(f.flushed)[n..] == EncodeAll(f.flushed[1..]);
      }
  }

  function SentBy(op: Op): seq<Frame> { if op.Buffer? then [op.frame] else [] }

  lemma FrameStepKeepsOrder(f: FrameChannel, op: Op, taken: bool, sent: seq<Frame>, earlier: seq<Frame>)
    requires op.Take? && taken ==> f.flushed != []
    requires sent == earlier + (f.flushed + f.buffered)
    ensures var (f', got) := FrameStep(f, op, taken);
            sent + SentBy(op) == (earlier + got) + (f'.flushed + f'.buffered)
  {
  }

  /** The frames a run of steps hands to the sender's buffer. */
  function Sent(ops: seq<Op>): seq<Frame> {
    if ops == [] then [] else Sent(ops[..|ops| - 1]) + SentBy(ops[|ops| - 1])
  }

  /** A run of byte-level steps from empty buffers, and the frames it takes. */
  function ByteRun(ops: seq<Op>): (Channel, seq<Frame>) {
    if ops == [] then (Channel([], [], []), [])
    else
      var (c, taken) := ByteRun(ops[..|ops| - 1]);
      var (c', got) := ByteStep(c, ops[|ops| - 1]);
      (c', taken + got)
  }

  /** In every run, for every flush timing and every chunking, the frames taken
      are a prefix of the frames sent, and all of them once no byte is left. */
  lemma {:induction false} ByteRunIsFifo(ops: seq<Op>) returns (f: FrameChannel)
    requires forall op <- ops :: op.Buffer? ==> ValidFrame(op.frame)
    ensures var (c, taken) := ByteRun(ops);
            && Refines(c, f)
            && Sent(ops) == taken + (f.flushed + f.buffered)
            && (c == Channel([], [], []) ==> taken == Sent(ops))
  {
    if ops == [] {
      f := FrameChannel([], []);
    } else {
      var before, op := ops[..|ops| - 1], ops[|ops| - 1];
      var f0 := ByteRunIsFifo(before);
      var c0 := ByteRun(before).0;
      ByteStepRefinesFrameStep(c0, f0, op);
      FrameStepKeepsOrder(f0, op, HeadArrived(c0, f0), Sent(before), ByteRun(before).1);
      f := FrameStep(f0, op, HeadArrived(c0, f0)).0;
    }
    NoFrameIsEmpty(f.flushed);
    NoFrameIsEmpty(f.buffered);
  }
}
