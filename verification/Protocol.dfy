/** The behaviour of one stream manager as functions on values
    (`transport/src/tcp/manager.rs`, `transport/src/tcp/receiver.rs`). The class
    in `Manager.dfy` is proved to compute these functions in place. */
module Protocol {
  import opened Bytes
  import opened TransportErrors
  import opened Frames
  import opened Streams
  import C = Connection

  const FLUSH_THRESHOLD: nat := 32 * 1024

  datatype Role = Initiator | Acceptor

  datatype HandshakeState = AwaitingHello | AwaitingWelcome | Established

  /** The frames in the write buffer, and all frames flushed so far. */
  datatype Outbox = Outbox(buffered: seq<Frame>, shipped: seq<Frame>) {
    function All(): seq<Frame> { shipped + buffered }

    function Flushed(): Outbox { Outbox([], shipped + buffered) }
  }

  /** Only `fs` was added to the output, behind everything sent before. */
  predicate Appends(o: Outbox, o': Outbox, fs: seq<Frame>) {
    o'.All() == o.All() + fs && o.shipped <= o'.shipped
  }

  datatype Endpoint = Endpoint(
    role: Role, handshake: HandshakeState, nextLocalId: u32, streams: map<u32, StreamView>, out: Outbox)

  /** The state after a call, and what the call returned. */
  datatype Reply<+T> = Reply(state: Endpoint, result: Result<T>)

  function FirstId(role: Role): u32 { if role.Initiator? then 1 else 2 }

  function NewEndpoint(role: Role): Endpoint {
    Endpoint(role, AwaitingHello, FirstId(role), map[], Outbox([], []))
  }

  // ---- Sending frames ----

  /** `Connection::buffer_frame`. */
  function Put(o: Outbox, f: Frame): Result<Outbox> {
    if !Encodable(f) then Err(InvalidFrame)
    else if |EncodeAll(o.buffered)| + |Encode(f)| > C.MAX_BUFFER_SIZE then Err(BufferOverflow)
    else Ok(o.(buffered := o.buffered + [f]))
  }

  /** `buffer_and_maybe_flush`. */
  function Buffer(e: Endpoint, f: Frame): (r: Reply<()>)
    ensures r.state == e.(out := r.state.out)
    ensures r.result.Err? ==> r.state == e
    ensures Appends(e.out, r.state.out, if r.result.Ok? then [f] else [])
  {
    match Put(e.out, f)
    case Err(err) => Reply(e, Err(err))
    case Ok(o) =>
      Reply(e.(out := if |EncodeAll(o.buffered)| >= FLUSH_THRESHOLD then o.Flushed() else o), Ok(()))
  }

  /** `Connection::send_frame`: buffer, then flush. */
  function Send(e: Endpoint, f: Frame): (r: Reply<()>)
    ensures r.state == e.(out := r.state.out)
    ensures r.result.Err? ==> r.state == e
    ensures Appends(e.out, r.state.out, if r.result.Ok? then [f] else [])
  {
    match Put(e.out, f)
    case Err(err) => Reply(e, Err(err))
    case Ok(o) => Reply(e.(out := o.Flushed()), Ok(()))
  }

  /** `flush`. */
  function FlushAll(e: Endpoint): Endpoint { e.(out := e.out.Flushed()) }

  function HelloFrame(): Frame { EmptyFrame(Frametype.Hello, FLAG_CONTROL, 0) }

  function WelcomeFrame(): Frame { EmptyFrame(Frametype.Welcome, FLAG_CONTROL, 0) }

  function OpenFrame(id: u32): Frame { EmptyFrame(Frametype.Open, 0, id) }

  function DataFrame(id: u32, payload: seq<byte>): Frame { NewFrame(Frametype.Data, 0, id, payload) }

  function CloseFrame(id: u32): Frame { EmptyFrame(Frametype.Close, FLAG_FIN, id) }

  function ResetFrame(id: u32): Frame { EmptyFrame(Frametype.Reset, 0, id) }

  function WindowFrame(id: u32, increment: u32): Frame { NewFrame(Frametype.Window, 0, id, BE32(increment)) }

  function PingFrame(payload: seq<byte>): Frame { NewFrame(Frametype.Ping, FLAG_CONTROL, 0, payload) }

  function PongFrame(payload: seq<byte>): Frame { NewFrame(Frametype.Pong, FLAG_CONTROL, 0, payload) }

  /** The frame of `fail_handshake`; `text` is its message. */
  function RejectionFrame(text: seq<byte>): Frame {
    NewFrame(Frametype.Error, 0, 0, EncodeError(ErrorPayload(HANDSHAKE_REJECTED, 0, text)))
  }

  const REJECTION_TEXT: seq<byte> :=
    Ascii("received non-handshake frame before handshake completed")

  function Ascii(s: string): seq<byte> {
    seq(|s|, i requires 0 <= i < |s| => if s[i] as int < 128 then s[i] as int else 0)
  }

  // ---- Local calls ----

  /** `send_hello`. */
  function SendHello(e: Endpoint): (r: Reply<()>)
    ensures Appends(e.out, r.state.out, if r.state.handshake != e.handshake then [HelloFrame()] else [])
  {
    if !e.role.Initiator? then Reply(e, Err(InvalidFrame))
    else if !e.handshake.AwaitingHello? then Reply(e, Ok(()))
    else
      var sent := Send(e, HelloFrame());
      if sent.result.Err? then sent else Reply(sent.state.(handshake := AwaitingWelcome), Ok(()))
  }

  /** `start_handshake` up to its receive loop. */
  function BeginHandshake(e: Endpoint): Reply<()> {
    if e.handshake.Established? || e.role.Acceptor? then Reply(e, Ok(()))
    else
      var hello := SendHello(e);
      if hello.result.Err? then hello else Reply(FlushAll(hello.state), Ok(()))
  }

  function OpenStream(e: Endpoint): (r: Reply<u32>)
    ensures Appends(e.out, r.state.out, if r.result.Ok? then [OpenFrame(r.result.value)] else [])
  {
    if !e.handshake.Established? then Reply(e, Err(InvalidFrame))
    else if e.nextLocalId + 2 >= 0x1_0000_0000 then Reply(e, Err(StreamIdExhausted))
    else
      var id := e.nextLocalId;
      var sent := Buffer(e.(nextLocalId := id + 2, streams := e.streams[id := NewStream(id)]), OpenFrame(id));
      Reply(sent.state, if sent.result.Err? then Err(sent.result.error) else Ok(id))
  }

  function SendData(e: Endpoint, id: u32, payload: seq<byte>): (r: Reply<()>)
    ensures Appends(e.out, r.state.out, if r.result.Ok? && payload != [] then [DataFrame(id, payload)] else [])
  {
    if !e.handshake.Established? then Reply(e, Err(InvalidFrame))
    else if payload == [] then Reply(e, Ok(()))
    else if |payload| > MAX_FRAME_SIZE then Reply(e, Err(FrameTooLarge(|payload|)))
    else if id !in e.streams then Reply(e, Err(UnknownStream(id)))
    else if !e.streams[id].state.CanSend() then Reply(e, Err(StreamNotWritable(id)))
    else if e.streams[id].sendWindow < |payload| then Reply(e, Err(FlowControlViolation(e.streams[id].id)))
    else
      Buffer(e.(streams := e.streams[id := ConsumeSend(e.streams[id], |payload|)]), DataFrame(id, payload))
  }

  /** The entry is removed only after the Close frame was buffered. */
  function CloseStream(e: Endpoint, id: u32): (r: Reply<()>)
    ensures Appends(e.out, r.state.out, if r.result.Ok? then [CloseFrame(id)] else [])
  {
    if !e.handshake.Established? then Reply(e, Err(InvalidFrame))
    else if id !in e.streams then Reply(e, Err(UnknownStream(id)))
    else if e.streams[id].state.IsClosed() then Reply(e, Err(TransportError.StreamClosed(id)))
    else
      var state := LocalClose(e.streams[id].state);
      var sent := Buffer(e.(streams := e.streams[id := e.streams[id].(state := state)]), CloseFrame(id));
      if sent.result.Ok? && state.Closed? then Reply(sent.state.(streams := sent.state.streams - {id}), Ok(()))
      else sent
  }

  function ResetStream(e: Endpoint, id: u32): (r: Reply<()>)
    ensures Appends(e.out, r.state.out, if r.result.Ok? then [ResetFrame(id)] else [])
  {
    if !e.handshake.Established? then Reply(e, Err(InvalidFrame))
    else if id !in e.streams then Reply(e, Err(UnknownStream(id)))
    else
      var sent := Send(e.(streams := e.streams[id := e.streams[id].(state := StreamState.Reset)]), ResetFrame(id));
      if sent.result.Ok? then Reply(sent.state.(streams := sent.state.streams - {id}), Ok(())) else sent
  }

  /** The window increment is the popped length cast to `u32`. */
  function RecvData(e: Endpoint, id: u32): (r: Reply<Option<seq<byte>>>)
    ensures Appends(e.out, r.state.out, [])
         || (r.result.Ok? && r.result.value.Some?
             && Appends(e.out, r.state.out, [WindowFrame(id, |r.result.value.value| % 0x1_0000_0000)]))
  {
    if !e.handshake.Established? then Reply(e, Err(InvalidFrame))
    else if id !in e.streams then Reply(e, Err(UnknownStream(id)))
    else
      var (v, payload) := PopRecv(e.streams[id]);
      var popped := e.(streams := e.streams[id := v]);
      if payload.None? || payload.value == [] || !v.state.CanReceive() then Reply(popped, Ok(payload))
      else
        var sent := Buffer(popped, WindowFrame(id, |payload.value| % 0x1_0000_0000));
        Reply(sent.state, if sent.result.Err? then Err(sent.result.error) else Ok(payload))
  }

  function SendPing(e: Endpoint, payload: seq<byte>): Reply<()> { Send(e, PingFrame(payload)) }

  // ---- Inbound frames ----

  /** Whether `id` is one this role allocates. */
  predicate Own(role: Role, id: u32) { id % 2 == FirstId(role) % 2 }

  function HandleHello(e: Endpoint, f: Frame): Reply<()> {
    if f.header.streamId != 0 || !e.role.Acceptor? || !e.handshake.AwaitingHello? then Reply(e, Err(InvalidFrame))
    else
      var sent := Send(e, WelcomeFrame());
      if sent.result.Err? then sent else Reply(sent.state.(handshake := Established), Ok(()))
  }

  function HandleWelcome(e: Endpoint, f: Frame): Reply<()> {
    if f.header.streamId != 0 || !e.role.Initiator? || !e.handshake.AwaitingWelcome? then Reply(e, Err(InvalidFrame))
    else Reply(e.(handshake := Established), Ok(()))
  }

  function HandleSettings(e: Endpoint, f: Frame): Reply<()> {
    Reply(e, if f.header.streamId != 0 then Err(InvalidFrame) else Ok(()))
  }

  /** An Error frame always makes `recv_frame` fail. */
  function HandleError(f: Frame): TransportError {
    match DecodeError(f.payload)
    case Err(err) => err
    case Ok(p) =>
      if p.code == HANDSHAKE_REJECTED && p.streamId == 0 then HandshakeRejected(p.code, p.message)
      else RemoteError(p.code, p.streamId, p.message)
  }

  function HandleOpen(e: Endpoint, id: u32): Reply<()> {
    if Own(e.role, id) || id in e.streams then Reply(e, Err(InvalidFrame))
    else Reply(e.(streams := e.streams[id := NewStream(id)]), Ok(()))
  }

  function HandleData(e: Endpoint, id: u32, payload: seq<byte>): Reply<()> {
    if id !in e.streams then Reply(e, Err(UnknownStream(id)))
    else if !e.streams[id].state.CanReceive() then Reply(e, Err(InvalidFrame))
    else Reply(e.(streams := e.streams[id := PushRecv(e.streams[id], payload)]), Ok(()))
  }

  function HandleClose(e: Endpoint, id: u32): Reply<()> {
    if id !in e.streams then Reply(e, Err(UnknownStream(id)))
    else
      var state := RemoteClose(e.streams[id].state);
      Reply(e.(streams := if state.Closed? then e.streams - {id}
                          else e.streams[id := e.streams[id].(state := state)]), Ok(()))
  }

  function HandleReset(e: Endpoint, id: u32): Endpoint { e.(streams := e.streams - {id}) }

  function HandleWindow(e: Endpoint, id: u32, payload: seq<byte>): Reply<()> {
    if id !in e.streams then Reply(e, Err(UnknownStream(id)))
    else if |payload| != 4 then Reply(e, Err(InvalidFrame))
    else Reply(e.(streams := e.streams[id := ApplyIncrement(e.streams[id], FromBE32(payload))]), Ok(()))
  }

  function HandlePing(e: Endpoint, f: Frame): Reply<()> { Send(e, PongFrame(f.payload)) }

  /** A frame other than a handshake, Settings, Error, Ping or Pong frame before
      the handshake completed; the acceptor tries to tell the peer. */
  function HandleEarly(e: Endpoint): Reply<()> {
    Reply(if e.role.Acceptor? then Send(e, RejectionFrame(REJECTION_TEXT)).state else e, Err(InvalidFrame))
  }

  /** The dispatch of `recv_frame`. */
  function Dispatch(e: Endpoint, f: Frame): (r: Reply<()>)
    ensures r.state.role == e.role && r.state.nextLocalId == e.nextLocalId
  {
    var id := f.header.streamId;
    match f.header.frameType
    case Hello => HandleHello(e, f)
    case Welcome => HandleWelcome(e, f)
    case Settings => HandleSettings(e, f)
    case Error => Reply(e, Err(HandleError(f)))
    case Ping => HandlePing(e, f)
    case Pong => Reply(e, Ok(()))
    case _ =>
      if !e.handshake.Established? then HandleEarly(e)
      else
        match f.header.frameType
        case Open => HandleOpen(e, id)
        case Data => HandleData(e, id, f.payload)
        case Close => HandleClose(e, id)
        case Reset => Reply(HandleReset(e, id), Ok(()))
        case Window => HandleWindow(e, id, f.payload)
  }

  /** `recv_frame` once a frame has been decoded: it returns that frame. */
  function HandleFrame(e: Endpoint, f: Frame): Reply<Frame> {
    var done := Dispatch(e, f);
    Reply(done.state, if done.result.Err? then Err(done.result.error) else Ok(f))
  }

  // ---- All calls together ----

  datatype Call =
    | Handshake
    | Open
    | Data(id: u32, payload: seq<byte>)
    | Close(id: u32)
    | Reset(id: u32)
    | Pop(id: u32)
    | Ping(payload: seq<byte>)
    | Flush

  /** What a call returned. */
  datatype Outcome =
    | Done(unit: Result<()>)
    | Opened(id: Result<u32>)
    | Popped(payload: Result<Option<seq<byte>>>)

  function Perform(e: Endpoint, c: Call): (r: (Endpoint, Outcome))
    ensures r.0.role == e.role && r.0.nextLocalId >= e.nextLocalId
  {
    match c
    case Handshake => var r := BeginHandshake(e); (r.state, Done(r.result))
    case Open => var r := OpenStream(e); (r.state, Opened(r.result))
    case Data(id, payload) => var r := SendData(e, id, payload); (r.state, Done(r.result))
    case Close(id) => var r := CloseStream(e, id); (r.state, Done(r.result))
    case Reset(id) => var r := ResetStream(e, id); (r.state, Done(r.result))
    case Pop(id) => var r := RecvData(e, id); (r.state, Popped(r.result))
    case Ping(payload) => var r := SendPing(e, payload); (r.state, Done(r.result))
    case Flush => (FlushAll(e), Done(Ok(())))
  }
}
