/** The stream manager as the source has it: an object over a connection that
    updates its streams, id counter and handshake state in place
    (`transport/src/tcp/manager.rs`, with the handlers of `receiver.rs`). */
module Manager {
  import opened Bytes
  import opened TransportErrors
  import opened Frames
  import opened Protocol
  import S = Streams
  import C = Connection

  /** The receive loop of `start_handshake`: handle frames until the handshake is
      complete, a Welcome was handled, or something fails. */
  function AwaitWelcome(e: Endpoint, unread: seq<byte>): (Reply<()>, seq<byte>)
    decreases |unread|
  {
    if e.handshake.Established? then (Reply(e, Ok(())), unread)
    else
      match C.Receive(unread)
      case (Err(err), rest) => (Reply(e, Err(err)), rest)
      case (Ok(f), rest) =>
        var r := HandleFrame(e, f);
        if r.result.Err? then (Reply(r.state, Err(r.result.error)), rest)
        else if f.header.frameType.Welcome? then (Reply(r.state, Ok(())), rest)
        else AwaitWelcome(r.state, rest)
  }

  /** `start_handshake`, over all the bytes that will ever arrive. */
  function ShakeHands(e: Endpoint, unread: seq<byte>): (Reply<()>, seq<byte>) {
    var begun := BeginHandshake(e);
    if begun.result.Err? || e.role.Acceptor? then (begun, unread) else AwaitWelcome(begun.state, unread)
  }

  /** A successful wait leaves the handshake established. */
  lemma {:induction false} WaitEndsEstablished(e: Endpoint, unread: seq<byte>)
    ensures AwaitWelcome(e, unread).0.result.Ok? ==> AwaitWelcome(e, unread).0.state.handshake.Established?
    decreases |unread|
  {
    if !e.handshake.Established? {
      match C.Receive(unread)
      case (Err(_), _) =>
      case (Ok(f), rest) => WaitEndsEstablished(HandleFrame(e, f).state, rest);
    }
  }

  /** What `Connection::send_frame` did to the buffers is what `Send` says. */
  lemma SendOnBuffers(e: Endpoint, f: Frame, o: Outbox, r: Result<()>)
    requires r == if !Encodable(f) then Err(InvalidFrame)
                  else if |EncodeAll(e.out.buffered)| + |Encode(f)| > C.MAX_BUFFER_SIZE then Err(BufferOverflow)
                  else Ok(())
    requires o == if r.Ok? then Outbox([], e.out.shipped + e.out.buffered + [f]) else e.out
    ensures Reply(e.(out := o), r) == Send(e, f)
  {
  }

  class StreamManager {
    const conn: C.Connection
    const role: Role
    var streams: map<u32, S.Stream>
    var nextLocalId: u32
    var handshakeState: HandshakeState

    ghost predicate Valid()
      reads this, conn, conn.stream, streams.Values
    {
      conn.Valid() && forall id <- streams :: streams[id].id == id
    }

    ghost function Footprint(): set<object>
      reads this
    {
      {this, conn, conn.stream} + streams.Values
    }

    ghost function View(): Endpoint
      reads this, conn, streams.Values
    {
      Endpoint(role, handshakeState, nextLocalId, map id | id in streams :: streams[id].View(),
               Outbox(conn.buffered, conn.shipped))
    }

    constructor (conn: C.Connection, role: Role)
      requires conn.Valid() && conn.buffered == conn.shipped == []
      ensures Valid() && this.conn == conn && View() == NewEndpoint(role)
    {
      this.conn, this.role := conn, role;
      streams := map[];
      nextLocalId := if role.Initiator? then 1 else 2;
      handshakeState := AwaitingHello;
    }

    /** `HashMap::insert` of a new stream. */
    method Insert(id: u32)
      requires Valid()
      modifies `streams
      ensures Valid() && fresh(Footprint() - old(Footprint()))
      ensures View() == old(View()).(streams := old(View()).streams[id := S.NewStream(id)])
    {
      var stream := new S.Stream(id);
      streams := streams[id := stream];
      assert View().streams == old(View()).streams[id := S.NewStream(id)];
    }

    /** `HashMap::remove`. */
    method Remove(id: u32)
      requires Valid()
      modifies `streams
      ensures Valid() && Footprint() <= old(Footprint())
      ensures View() == old(View()).(streams := old(View()).streams - {id})
    {
      streams := streams - {id};
      assert View().streams == old(View()).streams - {id};
    }

    method BufferAndMaybeFlush(f: Frame) returns (r: Result<()>)
      requires Valid()
      modifies conn, conn.stream
      ensures Valid() && Reply(View(), r) == Buffer(old(View()), f) && conn.Unread() == old(conn.Unread())
    {
      EncodeAllAppend(conn.buffered, [f]);
      EncodeAllOne(f);
      r := conn.BufferFrame(f);
      if r.Ok? && |conn.writeBuffer| >= FLUSH_THRESHOLD {
        conn.Flush();
      }
    }

    method SendFrame(f: Frame) returns (r: Result<()>)
      requires Valid()
      modifies conn, conn.stream
      ensures Valid() && Reply(View(), r) == Send(old(View()), f) && conn.Unread() == old(conn.Unread())
    {
      r := conn.SendFrame(f);
      assert View() == old(View()).(out := Outbox(conn.buffered, conn.shipped));
      SendOnBuffers(old(View()), f, Outbox(conn.buffered, conn.shipped), r);
    }

    method SendHello() returns (r: Result<()>)
      requires Valid()
      modifies `handshakeState, conn, conn.stream
      ensures Valid() && Reply(View(), r) == Protocol.SendHello(old(View())) && conn.Unread() == old(conn.Unread())
    {
      if role != Initiator {
        return Err(InvalidFrame);
      }
      if handshakeState == AwaitingWelcome || handshakeState == Established {
        return Ok(());
      }
      r := SendFrame(HelloFrame());
      if r.Ok? {
        handshakeState := AwaitingWelcome;
      }
    }

    method Flush()
      requires Valid()
      modifies conn, conn.stream
      ensures Valid() && View() == FlushAll(old(View())) && conn.Unread() == old(conn.Unread())
    {
      conn.Flush();
    }

    method OpenStream() returns (r: Result<u32>)
      requires Valid()
      modifies Footprint()
      ensures Valid() && fresh(Footprint() - old(Footprint())) && conn.Unread() == old(conn.Unread())
      ensures Reply(View(), r) == Protocol.OpenStream(old(View()))
    {
      if handshakeState != Established {
        return Err(InvalidFrame);
      }
      var id := nextLocalId;
      if nextLocalId + 2 >= 0x1_0000_0000 {
        return Err(StreamIdExhausted);
      }
      nextLocalId := nextLocalId + 2;
      Insert(id);
      assert View() == old(View()).(nextLocalId := id + 2, streams := old(View()).streams[id := S.NewStream(id)]);
      var sent := BufferAndMaybeFlush(OpenFrame(id));
      if sent.Err? {
        return Err(sent.error);
      }
      return Ok(id);
    }

    method SendData(id: u32, payload: seq<byte>) returns (r: Result<()>)
      requires Valid()
      modifies Footprint()
      ensures Valid() && Footprint() == old(Footprint()) && conn.Unread() == old(conn.Unread())
      ensures Reply(View(), r) == Protocol.SendData(old(View()), id, payload)
    {
      if handshakeState != Established {
        return Err(InvalidFrame);
      }
      if |payload| == 0 {
        return Ok(());
      }
      if |payload| > MAX_FRAME_SIZE {
        return Err(FrameTooLarge(|payload|));
      }
      if id !in streams {
        return Err(UnknownStream(id));
      }
      var stream := streams[id];
      if !stream.state.CanSend() {
        return Err(StreamNotWritable(id));
      }
      r := stream.CheckSendWindow(|payload|);
      if r.Err? {
        return;
      }
      stream.ConsumeSendWindow(|payload|);
      assert View().streams == old(View()).streams[id := stream.View()];
      r := BufferAndMaybeFlush(DataFrame(id, payload));
    }

    method CloseStream(id: u32) returns (r: Result<()>)
      requires Valid()
      modifies Footprint()
      ensures Valid() && Footprint() <= old(Footprint()) && conn.Unread() == old(conn.Unread())
      ensures Reply(View(), r) == Protocol.CloseStream(old(View()), id)
    {
      if handshakeState != Established {
        return Err(InvalidFrame);
      }
      if id !in streams {
        return Err(UnknownStream(id));
      }
      var stream := streams[id];
      if stream.state.IsClosed() {
        return Err(TransportError.StreamClosed(id));
      }
      stream.OnLocalClose();
      var nowClosed := stream.state == S.Closed;
      assert View().streams == old(View()).streams[id := stream.View()];
      r := BufferAndMaybeFlush(CloseFrame(id));
      if r.Ok? && nowClosed {
        Remove(id);
      }
    }

    method ResetStream(id: u32) returns (r: Result<()>)
      requires Valid()
      modifies Footprint()
      ensures Valid() && Footprint() <= old(Footprint()) && conn.Unread() == old(conn.Unread())
      ensures Reply(View(), r) == Protocol.ResetStream(old(View()), id)
    {
      if handshakeState != Established {
        return Err(InvalidFrame);
      }
      if id !in streams {
        return Err(UnknownStream(id));
      }
      var stream := streams[id];
      stream.OnReset();
      assert View().streams == old(View()).streams[id := stream.View()];
      r := SendFrame(ResetFrame(id));
      if r.Ok? {
        Remove(id);
      }
    }

    method RecvData(id: u32) returns (r: Result<Option<seq<byte>>>)
      requires Valid()
      modifies Footprint()
      ensures Valid() && Footprint() == old(Footprint()) && conn.Unread() == old(conn.Unread())
      ensures Reply(View(), r) == Protocol.RecvData(old(View()), id)
    {
      if handshakeState != Established {
        return Err(InvalidFrame);
      }
      if id !in streams {
        return Err(UnknownStream(id));
      }
      var stream := streams[id];
      var shouldSendWindow := stream.state.CanReceive();
      var payload := stream.Pop();
      assert View().streams == old(View()).streams[id := stream.View()];
      if payload.Some? && shouldSendWindow && |payload.value| > 0 {
        var sent := BufferAndMaybeFlush(WindowFrame(id, |payload.value| % 0x1_0000_0000));
        if sent.Err? {
          return Err(sent.error);
        }
      }
      return Ok(payload);
    }

    method SendPing(payload: seq<byte>) returns (r: Result<()>)
      requires Valid()
      modifies conn, conn.stream
      ensures Valid() && Reply(View(), r) == Protocol.SendPing(old(View()), payload)
    {
      r := SendFrame(PingFrame(payload));
    }

    // ---- receiver.rs ----

    method HandleOpen(id: u32) returns (r: Result<()>)
      requires Valid()
      modifies Footprint()
      ensures Valid() && fresh(Footprint() - old(Footprint())) && conn.Unread() == old(conn.Unread())
      ensures Reply(View(), r) == Protocol.HandleOpen(old(View()), id)
    {
      var expectedParity := if role.Initiator? then 0 else 1;
      if id % 2 != expectedParity {
        return Err(InvalidFrame);
      }
      if id in streams {
        return Err(InvalidFrame);
      }
      Insert(id);
      return Ok(());
    }

    method HandleData(id: u32, payload: seq<byte>) returns (r: Result<()>)
      requires Valid()
      modifies Footprint()
      ensures Valid() && Footprint() == old(Footprint()) && conn.Unread() == old(conn.Unread())
      ensures Reply(View(), r) == Protocol.HandleData(old(View()), id, payload)
    {
      if id !in streams {
        return Err(UnknownStream(id));
      }
      var stream := streams[id];
      if !stream.state.CanReceive() {
        return Err(InvalidFrame);
      }
      stream.Push(payload);
      assert View().streams == old(View()).streams[id := stream.View()];
      return Ok(());
    }

    method HandleClose(id: u32) returns (r: Result<()>)
      requires Valid()
      modifies Footprint()
      ensures Valid() && Footprint() <= old(Footprint()) && conn.Unread() == old(conn.Unread())
      ensures Reply(View(), r) == Protocol.HandleClose(old(View()), id)
    {
      if id !in streams {
        return Err(UnknownStream(id));
      }
      var stream := streams[id];
      stream.OnRemoteClose();
      var nowClosed := stream.state == S.Closed;
      assert View().streams == old(View()).streams[id := stream.View()];
      if nowClosed {
        Remove(id);
        assert View().streams == old(View()).streams - {id};
      }
      return Ok(());
    }

    method HandleWindow(id: u32, payload: seq<byte>) returns (r: Result<()>)
      requires Valid()
      modifies Footprint()
      ensures Valid() && Footprint() == old(Footprint()) && conn.Unread() == old(conn.Unread())
      ensures Reply(View(), r) == Protocol.HandleWindow(old(View()), id, payload)
    {
      if id !in streams {
        return Err(UnknownStream(id));
      }
      if |payload| != 4 {
        return Err(InvalidFrame);
      }
      var stream := streams[id];
      stream.ApplyWindowIncrement(FromBE32(payload));
      assert View().streams == old(View()).streams[id := stream.View()];
      return Ok(());
    }

    // ---- The handshake ----

    method HandleHello(f: Frame) returns (r: Result<()>)
      requires Valid()
      modifies `handshakeState, conn, conn.stream
      ensures Valid() && Reply(View(), r) == Protocol.HandleHello(old(View()), f) && conn.Unread() == old(conn.Unread())
    {
      if f.header.streamId != 0 || role != Acceptor || handshakeState != AwaitingHello {
        return Err(InvalidFrame);
      }
      r := SendFrame(WelcomeFrame());
      if r.Ok? {
        handshakeState := Established;
      }
    }

    method HandleWelcome(f: Frame) returns (r: Result<()>)
      requires Valid()
      modifies `handshakeState
      ensures Valid() && Reply(View(), r) == Protocol.HandleWelcome(old(View()), f)
    {
      if f.header.streamId != 0 || role != Initiator || handshakeState != AwaitingWelcome {
        return Err(InvalidFrame);
      }
      handshakeState := Established;
      return Ok(());
    }

    /** The dispatch of `recv_frame`, on a decoded frame. */
    method Dispatch(f: Frame) returns (r: Result<()>)
      requires Valid()
      modifies Footprint()
      ensures Valid() && fresh(Footprint() - old(Footprint())) && conn.Unread() == old(conn.Unread())
      ensures Reply(View(), r) == Protocol.Dispatch(old(View()), f)
    {
      var id := f.header.streamId;
      match f.header.frameType {
        case Hello =>
          r := HandleHello(f);
        case Welcome =>
          r := HandleWelcome(f);
        case Settings =>
          r := if id != 0 then Err(InvalidFrame) else Ok(());
        case Error =>
          r := Err(HandleError(f));
        case Ping =>
          r := SendFrame(PongFrame(f.payload));
        case Pong =>
          r := Ok(());
        case _ =>
          if handshakeState != Established {
            RejectEarly();
            return Err(InvalidFrame);
          }
          r := DispatchStream(f);
      }
    }

    /** A stream frame before the handshake: an acceptor says so to its peer. */
    method RejectEarly()
      requires Valid()
      modifies conn, conn.stream
      ensures Valid() && conn.Unread() == old(conn.Unread())
      ensures View() == if role.Acceptor? then Send(old(View()), RejectionFrame(REJECTION_TEXT)).state else old(View())
    {
      if role == Acceptor {
        var _ := SendFrame(RejectionFrame(REJECTION_TEXT));
      }
    }

    /** The frames of streams, once the handshake is complete. */
    method DispatchStream(f: Frame) returns (r: Result<()>)
      requires Valid() && handshakeState == Established
      requires match f.header.frameType case Open | Data | Close | Reset | Window => true case _ => false
      modifies Footprint()
      ensures Valid() && fresh(Footprint() - old(Footprint())) && conn.Unread() == old(conn.Unread())
      ensures Reply(View(), r) == Protocol.Dispatch(old(View()), f)
    {
      var id := f.header.streamId;
      match f.header.frameType {
        case Open =>
          r := HandleOpen(id);
        case Data =>
          r := HandleData(id, f.payload);
        case Close =>
          r := HandleClose(id);
        case Reset =>
          Remove(id);
          r := Ok(());
        case Window =>
          r := HandleWindow(id, f.payload);
      }
    }

    method RecvFrame() returns (r: Result<Frame>)
      requires Valid()
      modifies Footprint()
      ensures Valid() && fresh(Footprint() - old(Footprint()))
      ensures conn.Unread() == C.Receive(old(conn.Unread())).1
      ensures match C.Receive(old(conn.Unread())).0
              case Ok(f) => Reply(View(), r) == HandleFrame(old(View()), f)
              case Err(e) => View() == old(View()) && r == Err(e)
      ensures r.Ok? ==> |conn.Unread()| < old(|conn.Unread()|)
    {
      r := conn.RecvFrame();
      if r.Ok? {
        assert View() == old(View());
        var done := Dispatch(r.value);
        if done.Err? {
          return Err(done.error);
        }
      }
    }

    /** Receive until the handshake is over. The wait ends: every round consumes a
        frame. */
    method ReceiveWelcome() returns (r: Result<()>)
      requires Valid()
      modifies Footprint()
      ensures Valid() && fresh(Footprint() - old(Footprint()))
      ensures (Reply(View(), r), conn.Unread()) == AwaitWelcome(old(View()), old(conn.Unread()))
    {
      while handshakeState != Established
        invariant Valid() && fresh(Footprint() - old(Footprint()))
        invariant AwaitWelcome(View(), conn.Unread()) == AwaitWelcome(old(View()), old(conn.Unread()))
        decreases |conn.Unread()|
      {
        var received := RecvFrame();
        if received.Err? {
          return Err(received.error);
        }
        if received.value.header.frameType == Frametype.Welcome {
          return Ok(());
        }
      }
      return Ok(());
    }

    /** Send Hello and await the Welcome. */
    method StartHandshake() returns (r: Result<()>)
      requires Valid()
      modifies Footprint()
      ensures Valid() && fresh(Footprint() - old(Footprint()))
      ensures (Reply(View(), r), conn.Unread()) == ShakeHands(old(View()), old(conn.Unread()))
      ensures r.Ok? && role.Initiator? ==> handshakeState == Established
    {
      if handshakeState == Established {
        return Ok(());
      }
      if role != Initiator {
        return Ok(());
      }
      r := SendHello();
      if r.Err? {
        return;
      }
      Flush();
      WaitEndsEstablished(View(), conn.Unread());
      r := ReceiveWelcome();
    }
  }
}
