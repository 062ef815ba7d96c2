/** What one stream manager keeps, whatever its peer sends and its user calls. */
module ManagerInvariant {
  import opened Bytes
  import opened TransportErrors
  import opened Frames
  import opened Streams
  import opened Protocol
  import C = Connection

  /** Between calls the write buffer is below the flush threshold, and every
      frame that was handed to it is one the peer's decoder accepts. */
  predicate GoodOutbox(o: Outbox) {
    |EncodeAll(o.buffered)| < FLUSH_THRESHOLD && C.AllValid(o.buffered) && C.AllValid(o.shipped)
  }

  predicate GoodStream(role: Role, next: u32, id: u32, v: StreamView) {
    && v.id == id
    && !v.state.IsClosed()
    && v.sendWindow >= 0 && v.recvWindow >= 0
    && (Own(role, id) ==> id < next)
  }

  predicate GoodStreams(e: Endpoint) {
    && Own(e.role, e.nextLocalId)
    && e.nextLocalId >= FirstId(e.role)
    && forall id <- e.streams :: GoodStream(e.role, e.nextLocalId, id, e.streams[id])
  }

  predicate Good(e: Endpoint) { GoodStreams(e) && GoodOutbox(e.out) }

  lemma UpdateKeepsGoodStreams(e: Endpoint, id: u32, v: StreamView)
    requires GoodStreams(e) && GoodStream(e.role, e.nextLocalId, id, v)
    ensures GoodStreams(e.(streams := e.streams[id := v]))
  {
  }

  lemma UpdateKeepsGoodStreams'(e: Endpoint, id: u32, v: StreamView)
    requires GoodStreams(e)
    ensures GoodStream(e.role, e.nextLocalId, id, v) ==> GoodStreams(e.(streams := e.streams[id := v]))
  {
  }

  lemma AdvanceKeepsGoodStreams(e: Endpoint)
    requires GoodStreams(e) && e.nextLocalId + 2 < 0x1_0000_0000
    ensures GoodStreams(e.(nextLocalId := e.nextLocalId + 2))
  {
  }

  // ---- The write buffer ----

  predicate Printable(t: Frametype, flags: u16) {
    IsControlType(t) == HasControlFlag(flags) && flags <= KNOWN_FLAGS
  }

  lemma PutKeepsValid(o: Outbox, t: Frametype, flags: u16, id: u32, payload: seq<byte>)
    requires GoodOutbox(o) && Printable(t, flags)
    ensures var r := Put(o, NewFrame(t, flags, id, payload));
            r.Ok? ==> C.AllValid(r.value.buffered) && r.value.shipped == o.shipped
  {
  }

  /** A frame of at most 65,536 payload bytes always fits, and the buffer then
      stays far below its limit of 256 KiB. */
  lemma SmallFrameFits(o: Outbox, f: Frame)
    requires GoodOutbox(o) && Encodable(f) && |f.payload| <= 65_536
    ensures Put(o, f).Ok?
    ensures |EncodeAll(Put(o, f).value.buffered)| <= FLUSH_THRESHOLD - 1 + HEADER_SIZE + 65_536
    ensures FLUSH_THRESHOLD - 1 + HEADER_SIZE + 65_536 <= C.MAX_BUFFER_SIZE
  {
    EncodeAllAppend(o.buffered, [f]);
    EncodeAllOne(f);
  }

  lemma BufferKeepsGood(e: Endpoint, t: Frametype, flags: u16, id: u32, payload: seq<byte>)
    requires GoodOutbox(e.out) && Printable(t, flags)
    ensures var r := Buffer(e, NewFrame(t, flags, id, payload));
            GoodOutbox(r.state.out) && r.state == e.(out := r.state.out)
  {
    PutKeepsValid(e.out, t, flags, id, payload);
  }

  lemma SendKeepsGood(e: Endpoint, t: Frametype, flags: u16, id: u32, payload: seq<byte>)
    requires GoodOutbox(e.out) && Printable(t, flags)
    ensures var r := Send(e, NewFrame(t, flags, id, payload));
            GoodOutbox(r.state.out) && r.state == e.(out := r.state.out)
  {
  }

  // ---- Local calls ----

  lemma OpenKeepsGood(e: Endpoint)
    requires Good(e)
    ensures Good(OpenStream(e).state)
    ensures OpenStream(e).result.Ok? ==>
              var id := OpenStream(e).result.value;
              && id == e.nextLocalId && id !in e.streams && Own(e.role, id)
              && OpenStream(e).state.nextLocalId == id + 2
  {
    if e.handshake.Established? && e.nextLocalId + 2 < 0x1_0000_0000 {
      var id := e.nextLocalId;
      var e0 := e.(nextLocalId := id + 2);
      AdvanceKeepsGoodStreams(e);
      UpdateKeepsGoodStreams(e0, id, NewStream(id));
      var e1 := e0.(streams := e.streams[id := NewStream(id)]);
      BufferKeepsGood(e1, Frametype.Open, 0, id, []);
    }
  }

  lemma SendDataKeepsGood(e: Endpoint, id: u32, payload: seq<byte>)
    requires Good(e)
    ensures Good(SendData(e, id, payload).state)
  {
    if id in e.streams {
      var e1 := e.(streams := e.streams[id := ConsumeSend(e.streams[id], |payload|)]);
      BufferKeepsGood(e1, Frametype.Data, 0, id, payload);
    }
  }

  /** `close_stream` never finds a closed entry, and the Close frame always fits. */
  lemma CloseKeepsGood(e: Endpoint, id: u32)
    requires Good(e)
    ensures Good(CloseStream(e, id).state)
    ensures CloseStream(e, id).result ==
            if !e.handshake.Established? then Err(InvalidFrame)
            else if id !in e.streams then Err(UnknownStream(id)) else Ok(())
  {
    if id in e.streams {
      var e1 := e.(streams := e.streams[id := e.streams[id].(state := LocalClose(e.streams[id].state))]);
      BufferKeepsGood(e1, Frametype.Close, FLAG_FIN, id, []);
      SmallFrameFits(e.out, CloseFrame(id));
    }
  }

  lemma ResetKeepsGood(e: Endpoint, id: u32)
    requires Good(e)
    ensures Good(ResetStream(e, id).state)
  {
    if id in e.streams {
      var e1 := e.(streams := e.streams[id := e.streams[id].(state := StreamState.Reset)]);
      SendKeepsGood(e1, Frametype.Reset, 0, id, []);
      SmallFrameFits(e.out, ResetFrame(id));
    }
  }

  lemma RecvDataKeepsGood(e: Endpoint, id: u32)
    requires Good(e)
    ensures Good(RecvData(e, id).state)
  {
    if id in e.streams {
      var (v, payload) := PopRecv(e.streams[id]);
      var e1 := e.(streams := e.streams[id := v]);
      if payload.Some? {
        BufferKeepsGood(e1, Frametype.Window, 0, id, BE32(|payload.value| % 0x1_0000_0000));
      }
    }
  }

  /** Every local call keeps the invariant, whether or not it succeeds. */
  lemma CallKeepsGood(e: Endpoint, c: Call)
    requires Good(e)
    ensures Good(Perform(e, c).0)
  {
    match c
    case Handshake => SendKeepsGood(e, Frametype.Hello, FLAG_CONTROL, 0, []);
    case Open => OpenKeepsGood(e);
    case Data(id, payload) => SendDataKeepsGood(e, id, payload);
    case Close(id) => CloseKeepsGood(e, id);
    case Reset(id) => ResetKeepsGood(e, id);
    case Pop(id) => RecvDataKeepsGood(e, id);
    case Ping(payload) => SendKeepsGood(e, Frametype.Ping, FLAG_CONTROL, 0, payload);
    case Flush =>
  }

  // ---- Inbound frames ----

  lemma StreamFrameKeepsGood(e: Endpoint, f: Frame)
    requires Good(e)
    ensures var id := f.header.streamId;
            && Good(HandleOpen(e, id).state) && Good(HandleData(e, id, f.payload).state)
            && Good(HandleClose(e, id).state) && Good(HandleReset(e, id)) && Good(HandleWindow(e, id, f.payload).state)
  {
    var id := f.header.streamId;
    UpdateKeepsGoodStreams'(e, id, NewStream(id));
    if id in e.streams {
      var v := e.streams[id];
      UpdateKeepsGoodStreams'(e, id, PushRecv(v, f.payload));
      UpdateKeepsGoodStreams'(e, id, v.(state := RemoteClose(v.state)));
      if |f.payload| == 4 {
        UpdateKeepsGoodStreams'(e, id, ApplyIncrement(v, FromBE32(f.payload)));
      }
    }
  }

  lemma ControlFrameKeepsGood(e: Endpoint, f: Frame)
    requires Good(e)
    ensures Good(HandleHello(e, f).state) && Good(HandlePing(e, f).state) && Good(HandleEarly(e).state)
  {
    SendKeepsGood(e, Frametype.Welcome, FLAG_CONTROL, 0, []);
    SendKeepsGood(e, Frametype.Pong, FLAG_CONTROL, 0, f.payload);
    SendKeepsGood(e, Frametype.Error, 0, 0, EncodeError(ErrorPayload(HANDSHAKE_REJECTED, 0, REJECTION_TEXT)));
  }

  lemma DispatchCases(e: Endpoint, f: Frame)
    ensures var id := f.header.streamId;
            var s := HandleFrame(e, f).state;
            || s == e || s == e.(handshake := Established)
            || s == HandleHello(e, f).state || s == HandlePing(e, f).state || s == HandleEarly(e).state
            || s == HandleOpen(e, id).state || s == HandleData(e, id, f.payload).state
            || s == HandleClose(e, id).state || s == HandleReset(e, id) || s == HandleWindow(e, id, f.payload).state
  {
  }

  lemma HandleKeepsGood(e: Endpoint, f: Frame)
    requires Good(e)
    ensures Good(HandleFrame(e, f).state)
  {
    DispatchCases(e, f);
    assert Good(e.(handshake := Established));
    ControlFrameKeepsGood(e, f);
    StreamFrameKeepsGood(e, f);
  }

  // ---- Whole histories ----

  datatype Input = Local(call: Call) | Inbound(frame: Frame)

  function After(role: Role, inputs: seq<Input>): Endpoint {
    if inputs == [] then NewEndpoint(role)
    else
      var e := After(role, inputs[..|inputs| - 1]);
      match inputs[|inputs| - 1]
      case Local(c) => Perform(e, c).0
      case Inbound(f) => HandleFrame(e, f).state
  }

  /** The ids successful `open_stream` calls returned. */
  function Issued(role: Role, inputs: seq<Input>): seq<u32> {
    if inputs == [] then []
    else
      var before := inputs[..|inputs| - 1];
      var i := inputs[|inputs| - 1];
      var got := if i.Local? && i.call.Open? then OpenStream(After(role, before)).result else Err(InvalidFrame);
      Issued(role, before) + if got.Ok? then [got.value] else []
  }

  /** After any calls and any inbound frames, in any order, the invariant holds. */
  lemma {:induction false} AnyHistoryIsGood(role: Role, inputs: seq<Input>)
    ensures Good(After(role, inputs))
  {
    if inputs != [] {
      var before := inputs[..|inputs| - 1];
      AnyHistoryIsGood(role, before);
      match inputs[|inputs| - 1]
      case Local(c) => CallKeepsGood(After(role, before), c);
      case Inbound(f) => HandleKeepsGood(After(role, before), f);
    }
  }

  /** Ids of one role, each larger than the one before, all below `next`. */
  predicate Increasing(role: Role, ids: seq<u32>, next: u32) {
    && (forall i :: 0 <= i < |ids| ==> Own(role, ids[i]) && ids[i] < next)
    && (forall i, j :: 0 <= i < j < |ids| ==> ids[i] < ids[j])
  }

  lemma IncreasingExtends(role: Role, ids: seq<u32>, id: u32, next: u32)
    requires Increasing(role, ids, id) && Own(role, id) && id < next
    ensures Increasing(role, ids + [id], next)
  {
  }

  /** Over any history the issued ids have the role's parity, strictly increase
      and lie below the next one: none is ever issued twice. */
  lemma {:induction false} IssuedIdsIncrease(role: Role, inputs: seq<Input>)
    ensures After(role, inputs).role == role
    ensures Increasing(role, Issued(role, inputs), After(role, inputs).nextLocalId)
  {
    if inputs != [] {
      var before, i := inputs[..|inputs| - 1], inputs[|inputs| - 1];
      IssuedIdsIncrease(role, before);
      AnyHistoryIsGood(role, before);
      var e := After(role, before);
      if i.Local? && i.call.Open? && OpenStream(e).result.Ok? {
        OpenKeepsGood(e);
        IncreasingExtends(role, Issued(role, before), e.nextLocalId, e.nextLocalId + 2);
      } else {
        assert Issued(role, inputs) == Issued(role, before);
      }
    }
  }

  /** The id counter stops at the end of the range instead of wrapping. */
  lemma IdsStopBeforeWrapping(e: Endpoint)
    requires Good(e) && e.handshake.Established?
    ensures OpenStream(e).result == Err(StreamIdExhausted) <==> e.nextLocalId >= 0xFFFF_FFFE
    ensures e.nextLocalId < 0xFFFF_FFFE ==> OpenStream(e).result == Ok(e.nextLocalId)
  {
  }

  /** `handle_open` looks at parity and current membership only: a peer may
      reopen an id whose stream is gone, and stream 0 is open to an acceptor. */
  lemma OpenIsAcceptedExactly(e: Endpoint, id: u32)
    requires e.handshake.Established?
    ensures var r := HandleFrame(e, OpenFrame(id));
            && (r.result == Ok(OpenFrame(id)) <==> !Own(e.role, id) && id !in e.streams)
            && (r.result.Ok? ==> r.state.streams == e.streams[id := NewStream(id)])
            && (r.result.Err? ==> r.state == e)
  {
  }
}
