/** What every call and every received frame comes to, on any endpoint whatever: each
    result and error, with its exact condition in numbers
    (`transport/src/tcp/manager.rs`, `transport/src/tcp/receiver.rs`). */
module Verdicts {
  import opened Bytes
  import opened TransportErrors
  import opened Frames
  import opened Streams
  import opened Protocol
  import opened WireFormat
  import Utf8

  /** The write buffer of 256 KiB has room for a frame with `n` payload bytes. */
  predicate Room(e: Endpoint, n: nat) { |EncodeAll(e.out.buffered)| + 16 + n <= 262_144 }

  predicate Sends(s: StreamState) { s.Open? || s.HalfClosedRemote? }

  predicate Receives(s: StreamState) { s.Open? || s.HalfClosedLocal? }

  predicate Over(s: StreamState) { s.Closed? || s.Reset? }

  // ---- Calls ----

  /** Ids run out two below the end of the 32-bit range. */
  lemma OpenVerdict(e: Endpoint)
    ensures OpenStream(e).result == Err(InvalidFrame) <==> !e.handshake.Established?
    ensures OpenStream(e).result == Err(StreamIdExhausted) <==>
              e.handshake.Established? && e.nextLocalId >= 4_294_967_294
    ensures OpenStream(e).result == Err(BufferOverflow) <==>
              e.handshake.Established? && e.nextLocalId < 4_294_967_294 && !Room(e, 0)
    ensures OpenStream(e).result == Ok(e.nextLocalId) <==>
              e.handshake.Established? && e.nextLocalId < 4_294_967_294 && Room(e, 0)
  {
  }

  /** The id is used up and the stream is there even if its Open frame had no room. */
  lemma OpenLeaves(e: Endpoint)
    ensures var (r, id) := (OpenStream(e), e.nextLocalId);
            if r.result.Ok? || r.result == Err(BufferOverflow)
            then r.state == e.(nextLocalId := id + 2, out := r.state.out,
                               streams := e.streams[id := StreamView(id, StreamState.Open, 65_536, 65_536, [])])
            else r.state == e
  {
  }

  lemma SendVerdict(e: Endpoint, id: u32, payload: seq<byte>)
    ensures var r := SendData(e, id, payload).result;
            var asked := e.handshake.Established? && payload != [];
            var known := asked && |payload| <= 16_777_216 && id in e.streams;
            var writable := known && Sends(e.streams[id].state);
            var allowed := writable && |payload| <= e.streams[id].sendWindow;
            && (r == Err(InvalidFrame) <==> !e.handshake.Established?)
            && (r == Err(FrameTooLarge(|payload|)) <==> asked && |payload| > 16_777_216)
            && (r == Err(UnknownStream(id)) <==> asked && |payload| <= 16_777_216 && id !in e.streams)
            && (r == Err(StreamNotWritable(id)) <==> known && !Sends(e.streams[id].state))
            && (writable && !allowed ==> r == Err(FlowControlViolation(e.streams[id].id)))
            && (r == Err(BufferOverflow) <==> allowed && !Room(e, |payload|))
            && (r == Ok(()) <==> (e.handshake.Established? && payload == []) || (allowed && Room(e, |payload|)))
  {
  }

  /** Credit is deducted even if the Data frame had no room. */
  lemma SendLeaves(e: Endpoint, id: u32, payload: seq<byte>)
    ensures var r := SendData(e, id, payload);
            if payload != [] && (r.result.Ok? || r.result == Err(BufferOverflow))
            then && id in e.streams
                 && r.state == e.(out := r.state.out,
                                  streams := e.streams[id := e.streams[id].(
                                    sendWindow := e.streams[id].sendWindow - |payload|)])
            else r.state == e
  {
  }

  lemma CloseVerdict(e: Endpoint, id: u32)
    ensures var r := CloseStream(e, id).result;
            var known := e.handshake.Established? && id in e.streams;
            && (r == Err(InvalidFrame) <==> !e.handshake.Established?)
            && (r == Err(UnknownStream(id)) <==> e.handshake.Established? && id !in e.streams)
            && (r == Err(TransportError.StreamClosed(id)) <==> known && Over(e.streams[id].state))
            && (r == Err(BufferOverflow) <==> known && !Over(e.streams[id].state) && !Room(e, 0))
            && (r == Ok(()) <==> known && !Over(e.streams[id].state) && Room(e, 0))
  {
  }

  /** A stream closed on both sides stays if its Close frame had no room. */
  lemma CloseLeaves(e: Endpoint, id: u32)
    ensures var r := CloseStream(e, id);
            if r.result.Ok? || r.result == Err(BufferOverflow)
            then && id in e.streams
                 && r.state.streams ==
                    (match e.streams[id].state
                     case Open => e.streams[id := e.streams[id].(state := HalfClosedLocal)]
                     case HalfClosedRemote =>
                       if r.result.Ok? then e.streams - {id}
                       else e.streams[id := e.streams[id].(state := StreamState.Closed)]
                     case _ => e.streams)
            else r.state == e
  {
    if id in e.streams {
      assert e.streams[id := e.streams[id]] == e.streams;
    }
  }

  lemma ResetVerdict(e: Endpoint, id: u32)
    ensures var r := ResetStream(e, id).result;
            && (r == Err(InvalidFrame) <==> !e.handshake.Established?)
            && (r == Err(UnknownStream(id)) <==> e.handshake.Established? && id !in e.streams)
            && (r == Err(BufferOverflow) <==> e.handshake.Established? && id in e.streams && !Room(e, 0))
            && (r == Ok(()) <==> e.handshake.Established? && id in e.streams && Room(e, 0))
  {
  }

  /** A reset stream is gone, or stays as reset if its Reset frame had no room. */
  lemma ResetLeaves(e: Endpoint, id: u32)
    ensures var r := ResetStream(e, id);
            && (r.result.Ok? ==> id in e.streams && r.state.streams == e.streams - {id})
            && (r.result == Err(BufferOverflow) ==>
                  && id in e.streams
                  && r.state == e.(streams := e.streams[id := e.streams[id].(state := StreamState.Reset)]))
            && (r.result.Err? && r.result != Err(BufferOverflow) ==> r.state == e)
  {
  }

  /** Popping fails for lack of room only if credit would be returned. */
  lemma PopVerdict(e: Endpoint, id: u32)
    ensures var r := RecvData(e, id).result;
            var known := e.handshake.Established? && id in e.streams;
            var queued := known && e.streams[id].recvQueue != [];
            var refused := queued && e.streams[id].recvQueue[0] != [] && Receives(e.streams[id].state) && !Room(e, 4);
            && (r == Err(InvalidFrame) <==> !e.handshake.Established?)
            && (r == Err(UnknownStream(id)) <==> e.handshake.Established? && id !in e.streams)
            && (r == Ok(None) <==> known && !queued)
            && (r == Err(BufferOverflow) <==> refused)
            && (queued && !refused ==> r == Ok(Some(e.streams[id].recvQueue[0])))
  {
  }

  /** The payload has left the queue even if its Window frame had no room. */
  lemma PopLeaves(e: Endpoint, id: u32)
    ensures var r := RecvData(e, id);
            if e.handshake.Established? && id in e.streams && e.streams[id].recvQueue != []
            then var (v, first) := (e.streams[id], e.streams[id].recvQueue[0]);
                 r.state == e.(out := r.state.out,
                               streams := e.streams[id := v.(
                                 recvWindow := v.recvWindow + |first|, recvQueue := v.recvQueue[1..])])
            else r.state == e
  {
    if id in e.streams {
      assert e.streams[id := e.streams[id]] == e.streams;
    }
  }

  lemma PingVerdict(e: Endpoint, payload: seq<byte>)
    requires |payload| < 0x1_0000_0000
    ensures SendPing(e, payload).result == if Room(e, |payload|) then Ok(()) else Err(BufferOverflow)
  {
  }

  /** The handshake begins once, at the initiator. */
  lemma HandshakeVerdict(e: Endpoint)
    ensures var r := BeginHandshake(e);
            var begins := e.role.Initiator? && e.handshake.AwaitingHello?;
            && (r.result == Ok(()) <==> !begins || Room(e, 0))
            && (r.result == Err(BufferOverflow) <==> begins && !Room(e, 0))
            && (begins && Room(e, 0) ==>
                  r.state.handshake.AwaitingWelcome? && r.state.out.shipped == e.out.All() + [HelloFrame()])
            && (!(begins && Room(e, 0)) ==> r.state.handshake == e.handshake && r.state.out.All() == e.out.All())
  {
  }

  /** A buffered frame is flushed, with all before it, once 32 KiB are buffered. */
  lemma FlushVerdict(e: Endpoint, f: Frame)
    requires Encodable(f) && Room(e, |f.payload|)
    ensures var o := Buffer(e, f).state.out;
            if |EncodeAll(e.out.buffered + [f])| >= 32_768
            then o.buffered == [] && o.shipped == e.out.All() + [f]
            else o.buffered == e.out.buffered + [f] && o.shipped == e.out.shipped
  {
    assert e.out.shipped + (e.out.buffered + [f]) == e.out.All() + [f];
  }

  // ---- Streams ----

  /** Windows start at 64 KiB, are clamped at zero from below, and at the largest signed
      64-bit value from above. */
  lemma WindowVerdict(v: StreamView, n: nat, payload: seq<byte>, increment: u32, id: u32)
    ensures NewStream(id) == StreamView(id, StreamState.Open, 65_536, 65_536, [])
    ensures ConsumeSend(v, n) == v.(sendWindow := if n <= v.sendWindow then v.sendWindow - n else 0)
    ensures PushRecv(v, payload) ==
            v.(recvWindow := if |payload| <= v.recvWindow then v.recvWindow - |payload| else 0,
               recvQueue := v.recvQueue + [payload])
    ensures var sum := v.sendWindow + increment;
            ApplyIncrement(v, increment).sendWindow ==
            if sum > 9_223_372_036_854_775_807 then 9_223_372_036_854_775_807 else sum
  {
  }

  // ---- Received frames ----

  /** An end accepts streams of the other parity. */
  predicate PeersId(role: Role, id: u32) { if role.Initiator? then id % 2 == 0 else id % 2 == 1 }

  lemma HelloVerdict(e: Endpoint, f: Frame)
    requires f.header.frameType.Hello?
    ensures var r := HandleFrame(e, f);
            var due := f.header.streamId == 0 && e.role.Acceptor? && e.handshake.AwaitingHello?;
            && (r.result == Err(InvalidFrame) <==> !due)
            && (r.result == Err(BufferOverflow) <==> due && !Room(e, 0))
            && (r.result == Ok(f) <==> due && Room(e, 0))
            && (r.result.Ok? ==>
                  r.state.handshake.Established? && r.state.streams == e.streams
                  && r.state.out.shipped == e.out.All() + [WelcomeFrame()])
            && (r.result.Err? ==> r.state == e)
  {
    assert e.out.shipped + (e.out.buffered + [WelcomeFrame()]) == e.out.All() + [WelcomeFrame()];
  }

  lemma WelcomeVerdict(e: Endpoint, f: Frame)
    requires f.header.frameType.Welcome?
    ensures var r := HandleFrame(e, f);
            var due := f.header.streamId == 0 && e.role.Initiator? && e.handshake.AwaitingWelcome?;
            && r.result == (if due then Ok(f) else Err(InvalidFrame))
            && r.state == if due then e.(handshake := Established) else e
  {
  }

  lemma SettingsVerdict(e: Endpoint, f: Frame)
    requires f.header.frameType.Settings?
    ensures HandleFrame(e, f) == Reply(e, if f.header.streamId == 0 then Ok(f) else Err(InvalidFrame))
  {
  }

  /** An Error frame is never returned: code 8 for the connection is a rejected handshake,
      any other a remote error, and a payload that does not decode an invalid frame. */
  lemma ErrorFrameVerdict(e: Endpoint, f: Frame)
    requires f.header.frameType.Error?
    ensures HandleFrame(e, f).state == e && HandleFrame(e, f).result.Err?
    ensures var (b, error) := (f.payload, HandleFrame(e, f).result.error);
            var decodes := |b| >= 8 && |b| == 8 + Half(b, 6) && Utf8.Valid(b[8..]);
            && (error == InvalidFrame <==> !decodes)
            && (decodes && Half(b, 0) == 8 && Word(b, 2) == 0 ==> error == HandshakeRejected(8, b[8..]))
            && (decodes && !(Half(b, 0) == 8 && Word(b, 2) == 0) ==>
                  error == RemoteError(if Half(b, 0) <= 12 then Half(b, 0) else 0, Word(b, 2), b[8..]))
  {
    ErrorVerdict(f.payload);
  }

  lemma PingFrameVerdict(e: Endpoint, f: Frame)
    requires f.header.frameType.Ping? && |f.payload| < 0x1_0000_0000
    ensures var r := HandleFrame(e, f);
            if Room(e, |f.payload|)
            then r.result == Ok(f) && r.state == e.(out := Outbox([], e.out.All() + [PongFrame(f.payload)]))
            else r == Reply(e, Err(BufferOverflow))
  {
    var pong := PongFrame(f.payload);
    assert e.out.shipped + (e.out.buffered + [pong]) == e.out.All() + [pong];
  }

  lemma PongFrameVerdict(e: Endpoint, f: Frame)
    requires f.header.frameType.Pong?
    ensures HandleFrame(e, f) == Reply(e, Ok(f))
  {
  }

  predicate OfStream(t: Frametype) { t.Open? || t.Data? || t.Close? || t.Reset? || t.Window? }

  /** A frame of a stream before the handshake is over: an acceptor says why it gives up,
      if it can. */
  lemma EarlyVerdict(e: Endpoint, f: Frame)
    requires OfStream(f.header.frameType) && !e.handshake.Established?
    ensures var r := HandleFrame(e, f);
            && r.result == Err(InvalidFrame) && r.state.streams == e.streams && r.state.handshake == e.handshake
            && r.state.out.All() ==
               if e.role.Acceptor? && Room(e, 8 + |REJECTION_TEXT|)
               then e.out.All() + [RejectionFrame(REJECTION_TEXT)] else e.out.All()
  {
    var f' := RejectionFrame(REJECTION_TEXT);
    assert e.out.shipped + (e.out.buffered + [f']) == e.out.All() + [f'];
  }

  lemma OpenFrameVerdict(e: Endpoint, f: Frame)
    requires f.header.frameType.Open? && e.handshake.Established?
    ensures var (r, s) := (HandleFrame(e, f), f.header.streamId);
            if PeersId(e.role, s) && s !in e.streams
            then r == Reply(e.(streams := e.streams[s := StreamView(s, StreamState.Open, 65_536, 65_536, [])]), Ok(f))
            else r == Reply(e, Err(InvalidFrame))
  {
  }

  lemma DataFrameVerdict(e: Endpoint, f: Frame)
    requires f.header.frameType.Data? && e.handshake.Established?
    ensures var (r, s) := (HandleFrame(e, f), f.header.streamId);
            && (r.result == Err(UnknownStream(s)) <==> s !in e.streams)
            && (r.result == Err(InvalidFrame) <==> s in e.streams && !Receives(e.streams[s].state))
            && (r.result == Ok(f) <==> s in e.streams && Receives(e.streams[s].state))
            && (r.result.Ok? ==> r.state == e.(streams := e.streams[s := PushRecv(e.streams[s], f.payload)]))
            && (r.result.Err? ==> r.state == e)
  {
  }

  lemma CloseFrameVerdict(e: Endpoint, f: Frame)
    requires f.header.frameType.Close? && e.handshake.Established?
    ensures var (r, s) := (HandleFrame(e, f), f.header.streamId);
            && (s !in e.streams ==> r == Reply(e, Err(UnknownStream(s))))
            && (s in e.streams ==>
                  && r.result == Ok(f)
                  && r.state == e.(streams :=
                       match e.streams[s].state
                       case Open => e.streams[s := e.streams[s].(state := HalfClosedRemote)]
                       case HalfClosedLocal => e.streams - {s}
                       case Closed => e.streams - {s}
                       case _ => e.streams))
  {
    var s := f.header.streamId;
    if s in e.streams {
      assert e.streams[s := e.streams[s]] == e.streams;
    }
  }

  lemma ResetFrameVerdict(e: Endpoint, f: Frame)
    requires f.header.frameType.Reset? && e.handshake.Established?
    ensures HandleFrame(e, f) == Reply(e.(streams := e.streams - {f.header.streamId}), Ok(f))
  {
  }

  lemma WindowFrameVerdict(e: Endpoint, f: Frame)
    requires f.header.frameType.Window? && e.handshake.Established?
    ensures var (r, s) := (HandleFrame(e, f), f.header.streamId);
            && (r.result == Err(UnknownStream(s)) <==> s !in e.streams)
            && (r.result == Err(InvalidFrame) <==> s in e.streams && |f.payload| != 4)
            && (r.result == Ok(f) <==> s in e.streams && |f.payload| == 4)
            && (r.result.Ok? ==>
                  r.state == e.(streams := e.streams[s := ApplyIncrement(e.streams[s], Word(f.payload, 0))]))
            && (r.result.Err? ==> r.state == e)
  {
  }
}
