/** The two programs that use stream managers: the command-line client's
    `send_request` (`trench-cli/src/client.rs`) and the serving loop of
    `ResilientServer` (`transport/src/server/resilient_server.rs`). */
module Programs {
  import opened Bytes
  import opened TransportErrors
  import opened Frames
  import opened Protocol
  import C = Connection
  import M = Manager

  /** The envelope codecs and the handler, which answers every request. */
  datatype Service<!Q, !A> = Service(
    writeRequest: Q -> seq<byte>, readRequest: seq<byte> -> Option<Q>,
    writeAnswer: A -> seq<byte>, readAnswer: seq<byte> -> Option<A>,
    handler: Q -> A)

  // ---- The client ----

  /** What a received frame means to a client waiting on stream `s`. */
  datatype Reaction<+A> = Ignore | Answer(answer: A) | Fail(error: TransportError)

  function React<Q, A>(sv: Service<Q, A>, s: u32, f: Frame): Reaction<A> {
    if f.header.streamId != s then Ignore
    else
      match f.header.frameType
      case Data =>
        var answer := sv.readAnswer(f.payload);
        if answer.None? then Fail(InternalError) else Answer(answer.value)
      case Close => Fail(ConnectionClosed)
      case Reset => Fail(TransportError.StreamReset(s))
      case Error => Fail(RemoteErrorOf(f, e => e))
      case _ => Ignore
  }

  /** What an Error frame is reported as: its own message, or the error of decoding it. The
      client passes the decoder's error on, the server replaces it. */
  function RemoteErrorOf(f: Frame, malformed: TransportError -> TransportError): TransportError {
    match DecodeError(f.payload)
    case Err(e) => malformed(e)
    case Ok(p) => RemoteError(p.code, p.streamId, p.message)
  }

  /** Open, send, half-close and flush: the stream the answer will come on. */
  function Submit(e: Endpoint, bytes: seq<byte>): Reply<u32> {
    var begun := OpenStream(e);
    if begun.result.Err? then Reply(begun.state, Err(begun.result.error))
    else
      var s := begun.result.value;
      var sent := SendData(begun.state, s, bytes);
      if sent.result.Err? then Reply(sent.state, Err(sent.result.error))
      else
        var closed := CloseStream(sent.state, s);
        if closed.result.Err? then Reply(closed.state, Err(closed.result.error))
        else Reply(FlushAll(closed.state), Ok(s))
  }

  /** The receive loop, over all the bytes that will ever arrive. */
  function Await<Q, A>(sv: Service<Q, A>, e: Endpoint, unread: seq<byte>, s: u32): (Reply<A>, seq<byte>)
    decreases |unread|
  {
    match C.Receive(unread)
    case (Err(err), rest) => (Reply(e, Err(err)), rest)
    case (Ok(f), rest) =>
      var r := HandleFrame(e, f);
      if r.result.Err? then (Reply(r.state, Err(r.result.error)), rest)
      else
        match React(sv, s, f)
        case Ignore => Await(sv, r.state, rest, s)
        case Answer(a) => (Reply(r.state, Ok(a)), rest)
        case Fail(err) => (Reply(r.state, Err(err)), rest)
  }

  function Request<Q, A>(sv: Service<Q, A>, e: Endpoint, unread: seq<byte>, q: Q): (Reply<A>, seq<byte>) {
    var submitted := Submit(e, sv.writeRequest(q));
    if submitted.result.Err? then (Reply(submitted.state, Err(submitted.result.error)), unread)
    else Await(sv, submitted.state, unread, submitted.result.value)
  }

  /** Open, send, half-close and flush, on the manager object. */
  method SubmitRequest(manager: M.StreamManager, bytes: seq<byte>) returns (r: Result<u32>)
    requires manager.Valid()
    modifies manager.Footprint()
    ensures manager.Valid() && fresh(manager.Footprint() - old(manager.Footprint()))
    ensures Reply(manager.View(), r) == Submit(old(manager.View()), bytes)
    ensures manager.conn.Unread() == old(manager.conn.Unread())
  {
    r := manager.OpenStream();
    if r.Err? {
      return;
    }
    var sent := manager.SendData(r.value, bytes);
    if sent.Err? {
      return Err(sent.error);
    }
    var closed := manager.CloseStream(r.value);
    if closed.Err? {
      return Err(closed.error);
    }
    manager.Flush();
  }

  /** The receive loop of `send_request`; every turn consumes a frame. */
  method AwaitAnswer<Q, A>(manager: M.StreamManager, sv: Service<Q, A>, s: u32) returns (r: Result<A>)
    requires manager.Valid()
    modifies manager.Footprint()
    ensures manager.Valid() && fresh(manager.Footprint() - old(manager.Footprint()))
    ensures (Reply(manager.View(), r), manager.conn.Unread())
            == Await(sv, old(manager.View()), old(manager.conn.Unread()), s)
  {
    while true
      invariant manager.Valid() && fresh(manager.Footprint() - old(manager.Footprint()))
      invariant Await(sv, manager.View(), manager.conn.Unread(), s)
                == Await(sv, old(manager.View()), old(manager.conn.Unread()), s)
      decreases |manager.conn.Unread()|
    {
      var received := manager.RecvFrame();
      if received.Err? {
        return Err(received.error);
      }
      match React(sv, s, received.value)
      case Ignore =>
      case Answer(a) => return Ok(a);
      case Fail(error) => return Err(error);
    }
  }

  /** `send_request`. */
  method SendRequest<Q, A>(manager: M.StreamManager, sv: Service<Q, A>, q: Q) returns (r: Result<A>)
    requires manager.Valid()
    modifies manager.Footprint()
    ensures manager.Valid() && fresh(manager.Footprint() - old(manager.Footprint()))
    ensures (Reply(manager.View(), r), manager.conn.Unread())
            == Request(sv, old(manager.View()), old(manager.conn.Unread()), q)
  {
    var submitted := SubmitRequest(manager, sv.writeRequest(q));
    if submitted.Err? {
      return Err(submitted.error);
    }
    r := AwaitAnswer(manager, sv, submitted.value);
  }

  // ---- The server ----

  /** What the serving loop does about a Data frame on stream `s`. */
  function Respond<Q, A>(sv: Service<Q, A>, e: Endpoint, s: u32): Reply<()> {
    var popped := RecvData(e, s);
    if popped.result.Err? then Reply(popped.state, Err(popped.result.error))
    else
      var bytes := if popped.result.value.Some? then popped.result.value.value else [];
      if bytes == [] then Reply(popped.state, Ok(()))
      else
        var request := sv.readRequest(bytes);
        if request.None? then Reply(popped.state, Err(InternalError))
        else Complete(popped.state, s, sv.writeAnswer(sv.handler(request.value)))
  }

  /** Send an answer, half-close and flush. */
  function Complete(e: Endpoint, s: u32, bytes: seq<byte>): Reply<()> {
    var sent := SendData(e, s, bytes);
    if sent.result.Err? then sent
    else
      var closed := CloseStream(sent.state, s);
      if closed.result.Err? then closed else Reply(FlushAll(closed.state), Ok(()))
  }

  /** The serving loop, until the connection ends or something fails. */
  function Serve<Q, A>(sv: Service<Q, A>, e: Endpoint, unread: seq<byte>): (Reply<()>, seq<byte>)
    decreases |unread|
  {
    match C.Receive(unread)
    case (Err(err), rest) => (Reply(e, if err.ConnectionClosed? then Ok(()) else Err(err)), rest)
    case (Ok(f), rest) =>
      var r := HandleFrame(e, f);
      if r.result.Err? then
        (Reply(r.state, if r.result.error.ConnectionClosed? then Ok(()) else Err(r.result.error)), rest)
      else
        match f.header.frameType
        case Data =>
          var done := Respond(sv, r.state, f.header.streamId);
          if done.result.Err? then (Reply(done.state, Err(done.result.error)), rest) else Serve(sv, done.state, rest)
        case Error => (Reply(r.state, Err(RemoteErrorOf(f, _ => InternalError))), rest)
        case _ => Serve(sv, r.state, rest)
  }

  /** Answering one Data frame, on the manager object. */
  method RespondTo<Q, A>(manager: M.StreamManager, sv: Service<Q, A>, s: u32) returns (r: Result<()>)
    requires manager.Valid()
    modifies manager.Footprint()
    ensures manager.Valid() && fresh(manager.Footprint() - old(manager.Footprint()))
    ensures Reply(manager.View(), r) == Respond(sv, old(manager.View()), s)
    ensures manager.conn.Unread() == old(manager.conn.Unread())
  {
    var popped := manager.RecvData(s);
    if popped.Err? {
      return Err(popped.error);
    }
    var payload := if popped.value.Some? then popped.value.value else [];
    if |payload| == 0 {
      return Ok(());
    }
    var request := sv.readRequest(payload);
    if request.None? {
      return Err(InternalError);
    }
    r := CompleteAnswer(manager, s, sv.writeAnswer(sv.handler(request.value)));
  }

  method CompleteAnswer(manager: M.StreamManager, s: u32, bytes: seq<byte>) returns (r: Result<()>)
    requires manager.Valid()
    modifies manager.Footprint()
    ensures manager.Valid() && fresh(manager.Footprint() - old(manager.Footprint()))
    ensures Reply(manager.View(), r) == Complete(old(manager.View()), s, bytes)
    ensures manager.conn.Unread() == old(manager.conn.Unread())
  {
    var sent := manager.SendData(s, bytes);
    if sent.Err? {
      return Err(sent.error);
    }
    var closed := manager.CloseStream(s);
    if closed.Err? {
      return Err(closed.error);
    }
    manager.Flush();
    return Ok(());
  }

  /** One turn of the serving loop: what it ends with, unless it goes on. */
  method ServeTurn<Q, A>(manager: M.StreamManager, sv: Service<Q, A>) returns (end: Option<Result<()>>)
    requires manager.Valid()
    modifies manager.Footprint()
    ensures manager.Valid() && fresh(manager.Footprint() - old(manager.Footprint()))
    ensures end.None? ==>
              && |manager.conn.Unread()| < old(|manager.conn.Unread()|)
              && Serve(sv, manager.View(), manager.conn.Unread())
                 == Serve(sv, old(manager.View()), old(manager.conn.Unread()))
    ensures end.Some? ==>
              (Reply(manager.View(), end.value), manager.conn.Unread())
              == Serve(sv, old(manager.View()), old(manager.conn.Unread()))
  {
    var received := manager.RecvFrame();
    if received == Err(ConnectionClosed) {
      return Some(Ok(()));
    }
    if received.Err? {
      return Some(Err(received.error));
    }
    var frame := received.value;
    match frame.header.frameType
    case Data =>
      var done := RespondTo(manager, sv, frame.header.streamId);
      return if done.Err? then Some(Err(done.error)) else None;
    case Error => return Some(Err(RemoteErrorOf(frame, _ => InternalError)));
    case _ => return None;
  }

  /** `run`: the loop ends because every turn consumes a frame, and the bytes of a
      connection do. */
  method RunServer<Q, A>(manager: M.StreamManager, sv: Service<Q, A>) returns (r: Result<()>)
    requires manager.Valid()
    modifies manager.Footprint()
    ensures manager.Valid() && fresh(manager.Footprint() - old(manager.Footprint()))
    ensures (Reply(manager.View(), r), manager.conn.Unread())
            == Serve(sv, old(manager.View()), old(manager.conn.Unread()))
  {
    while true
      invariant manager.Valid() && fresh(manager.Footprint() - old(manager.Footprint()))
      invariant Serve(sv, manager.View(), manager.conn.Unread())
                == Serve(sv, old(manager.View()), old(manager.conn.Unread()))
      decreases |manager.conn.Unread()|
    {
      var end := ServeTurn(manager, sv);
      if end.Some? {
        return end.value;
      }
    }
  }
}
