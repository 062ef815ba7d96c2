/** The two programs interleaved over pipes of bytes that arrive in chunks of any size:
    their plays are those of `RequestResponse` (`trench-cli/src/client.rs`,
    `transport/src/server/resilient_server.rs`). */
module ByteConversation {
  import opened Bytes
  import opened TransportErrors
  import opened Frames
  import opened Protocol
  import opened Programs
  import opened TwoParty
  import opened Refusals
  import opened RequestResponse
  import opened ByteParties
  import C = Connection

  /** An exchange, and the bytes on their way in either direction. */
  datatype Wired<Q, A> = Wired(
    link: Link, phase: ClientPhase, serving: ServerPhase, requests: seq<Q>, answers: seq<A>)
  {
    function View(): Exchange<Q, A> {
      Exchange(link.ini.party, link.acc.party, phase, serving, requests, answers)
    }

    /** The programs have come to `x`, and the ends to `link'`. */
    function With(x: Exchange<Q, A>, link': Link): Wired<Q, A> {
      Wired(link', x.phase, x.serving, x.requests, x.answers)
    }
  }

  /** One end acts: what it flushes is carried to the other. */
  function Moved(link: Link, r: Role, e: End): Link {
    link.With(r, e, Carry(link.Peer(r), link.Side(r).party, e.party))
  }

  /** One turn of the client's receive loop, on a decoded frame. */
  function AnswerDecoded<Q, A>(sv: Service<Q, A>, x: Exchange<Q, A>, s: u32, f: Frame): Exchange<Q, A> {
    var r := HandleFrame(x.client.ep, f);
    var x' := x.(client := Take(x.client, f));
    if r.result.Err? then x'.(phase := ClientFailed) else AfterFrame(sv, x', s, r.result.value)
  }

  /** One turn of the serving loop, on a decoded frame, up to its branch. */
  function RequestDecoded<Q, A>(x: Exchange<Q, A>, f: Frame): Exchange<Q, A> {
    var r := HandleFrame(x.server.ep, f);
    x.(server := Take(x.server, f),
       serving := if r.result.Err? then ServerFailed
                  else if r.result.value.header.frameType.Data? then Arrived(r.result.value.header.streamId)
                  else if r.result.value.header.frameType.Error? then ServerFailed
                  else Listening)
  }

  /** The client's next call. In `recv_frame` it decodes what has been read, and waits
      if that is not a whole frame. */
  function ClientTurn<Q, A>(sv: Service<Q, A>, b: Wired<Q, A>, q: Q): Wired<Q, A> {
    var e := b.link.ini;
    if b.phase.Waiting? then
      match Decode(e.readBuffer)
      case Ok((f, k)) =>
        var x := AnswerDecoded(sv, b.View(), b.phase.s, f);
        b.With(x, Moved(b.link, Initiator, End(x.client, e.wire, e.readBuffer[k..])))
      case Err(error) => if error.NeedMoreData? then b else b.(phase := ClientFailed)
    else
      var x := ClientMove(sv, b.View(), q);
      b.With(x, Moved(b.link, Initiator, e.(party := x.client)))
  }

  /** The server's next call, likewise. */
  function ServerTurn<Q, A>(sv: Service<Q, A>, b: Wired<Q, A>): Wired<Q, A> {
    var e := b.link.acc;
    if b.serving.Listening? then
      match Decode(e.readBuffer)
      case Ok((f, k)) =>
        var x := RequestDecoded(b.View(), f);
        b.With(x, Moved(b.link, Acceptor, End(x.server, e.wire, e.readBuffer[k..])))
      case Err(error) => if error.NeedMoreData? then b else b.(serving := ServerFailed)
    else
      var x := ServerMove(sv, b.View());
      b.With(x, Moved(b.link, Acceptor, e.(party := x.server)))
  }

  datatype ByteMove<Q> = ClientCall(q: Q) | ServerCall | Arrive(to: Role, size: nat)

  /** Some bytes arrive at an end. */
  function Arriving(link: Link, r: Role, size: nat): Link { ByteStep(link, ByteEvent(r, Chunk(size))) }

  function PlayBytes<Q, A>(sv: Service<Q, A>, moves: seq<ByteMove<Q>>): Wired<Q, A> {
    if moves == [] then Wired(Link(End(Connected().ini, [], []), End(Connected().acc, [], [])), Idle, Listening, [], [])
    else
      var b := PlayBytes(sv, moves[..|moves| - 1]);
      match moves[|moves| - 1]
      case ClientCall(q) => ClientTurn(sv, b, q)
      case ServerCall => ServerTurn(sv, b)
      case Arrive(r, size) => b.(link := Arriving(b.link, r, size))
  }

  // ---- Each turn is a move, or none ----

  predicate ClientBlocks<Q, A>(b: Wired<Q, A>) { b.phase.Waiting? && Decode(b.link.ini.readBuffer).Err? }

  predicate ServerBlocks<Q, A>(b: Wired<Q, A>) { b.serving.Listening? && Decode(b.link.acc.readBuffer).Err? }

  lemma DecodedIsReceived<Q, A>(sv: Service<Q, A>, x: Exchange<Q, A>, s: u32)
    requires Deliverable(x.client, x.server)
    ensures AnswerDecoded(sv, x, s, Next(x.client, x.server)) == ReceiveAnswer(sv, x, s)
  {
  }

  lemma ClientTurnIsMove<Q, A>(sv: Service<Q, A>, b: Wired<Q, A>, q: Q)
    requires BothCome(b.link)
    ensures ClientBlocks(b) ==> ClientTurn(sv, b, q) == b
    ensures !ClientBlocks(b) ==> ClientTurn(sv, b, q).View() == ClientMove(sv, b.View(), q)
  {
    DecodesNext(b.link.ini, b.link.acc.party);
    if b.phase.Waiting? && Deliverable(b.link.ini.party, b.link.acc.party) {
      DecodedIsReceived(sv, b.View(), b.phase.s);
    }
  }

  lemma ServerTurnIsMove<Q, A>(sv: Service<Q, A>, b: Wired<Q, A>)
    requires BothCome(b.link)
    ensures ServerBlocks(b) ==> ServerTurn(sv, b) == b
    ensures !ServerBlocks(b) ==> ServerTurn(sv, b).View() == ServerMove(sv, b.View())
  {
    DecodesNext(b.link.acc, b.link.ini.party);
  }

  // ---- The bytes still to come stay right ----

  /** One end acts, having received `e.party.got` frames by then. */
  lemma MovedComes(link: Link, r: Role, e: End)
    requires BothCome(link) && Comes(e, link.Peer(r).party)
    requires link.Side(r).party.ep.out.shipped <= e.party.ep.out.shipped && C.AllValid(e.party.ep.out.shipped)
    ensures BothCome(Moved(link, r, e))
  {
    MoreComes(link.Peer(r), link.Side(r).party, e.party);
  }

  lemma ArrivingComes(link: Link, r: Role, size: nat)
    requires BothCome(link)
    ensures BothCome(Arriving(link, r, size)) && Arriving(link, r, size).Parties() == link.Parties()
  {
    var e := link.Side(r);
    ChunkComes(e, link.Peer(r).party, if size <= |e.wire| then size else |e.wire|);
  }

  /** A call ships more, and receives nothing. */
  lemma CallShips(p: Party, q: Party, c: Call)
    ensures var p' := Act(p, q, Action.Do(c)); p'.got == p.got && p.ep.out.shipped <= p'.ep.out.shipped
  {
    ActShips(p, q, Action.Do(c));
  }

  lemma ClientMoveShips<Q, A>(sv: Service<Q, A>, x: Exchange<Q, A>, q: Q)
    requires !x.phase.Waiting?
    ensures var p' := ClientMove(sv, x, q).client;
            p'.got == x.client.got && x.client.ep.out.shipped <= p'.ep.out.shipped
  {
    match x.phase
    case Idle => CallShips(x.client, x.server, Call.Open);
    case Opened(s) =>
      if x.requests != [] {
        CallShips(x.client, x.server, Call.Data(s, sv.writeRequest(x.requests[|x.requests| - 1])));
      }
    case Sent(s) => CallShips(x.client, x.server, Call.Close(s));
    case Shut(_) => CallShips(x.client, x.server, Call.Flush);
    case ClientFailed =>
  }

  lemma ServerMoveShips<Q, A>(sv: Service<Q, A>, x: Exchange<Q, A>)
    requires !x.serving.Listening?
    ensures var p' := ServerMove(sv, x).server;
            p'.got == x.server.got && x.server.ep.out.shipped <= p'.ep.out.shipped
  {
    match x.serving
    case Arrived(s) => CallShips(x.server, x.client, Call.Pop(s));
    case Handling(s, bytes) =>
      if sv.readRequest(bytes).Some? {
        CallShips(x.server, x.client, Call.Data(s, sv.writeAnswer(sv.handler(sv.readRequest(bytes).value))));
      }
    case Answered(s) => CallShips(x.server, x.client, Call.Close(s));
    case Finished(_) => CallShips(x.server, x.client, Call.Flush);
    case ServerFailed =>
  }

  /** One end handles the frame it has decoded. */
  lemma ReceiptComes(link: Link, r: Role, f: Frame, k: nat)
    requires BothCome(link) && Decode(link.Side(r).readBuffer) == Ok((f, k)) && k <= |link.Side(r).readBuffer|
    requires C.AllValid(Take(link.Side(r).party, f).ep.out.shipped)
    ensures var e := link.Side(r); BothCome(Moved(link, r, End(Take(e.party, f), e.wire, e.readBuffer[k..])))
  {
    var (e, peer) := (link.Side(r), link.Peer(r).party);
    DecodesNext(e, peer);
    ActShips(e.party, peer, Recv);
    MovedComes(link, r, End(Take(e.party, f), e.wire, e.readBuffer[k..]));
  }

  lemma ClientTurnComes<Q, A>(sv: Service<Q, A>, b: Wired<Q, A>, q: Q)
    requires BothCome(b.link) && C.AllValid(ClientTurn(sv, b, q).link.ini.party.ep.out.shipped)
    ensures BothCome(ClientTurn(sv, b, q).link)
  {
    var e := b.link.ini;
    if b.phase.Waiting? {
      if Decode(e.readBuffer).Ok? {
        var (f, k) := Decode(e.readBuffer).value;
        ReceiptComes(b.link, Initiator, f, k);
      }
    } else {
      ClientMoveShips(sv, b.View(), q);
      MovedComes(b.link, Initiator, e.(party := ClientMove(sv, b.View(), q).client));
    }
  }

  lemma ServerTurnComes<Q, A>(sv: Service<Q, A>, b: Wired<Q, A>)
    requires BothCome(b.link) && C.AllValid(ServerTurn(sv, b).link.acc.party.ep.out.shipped)
    ensures BothCome(ServerTurn(sv, b).link)
  {
    var e := b.link.acc;
    if b.serving.Listening? {
      if Decode(e.readBuffer).Ok? {
        var (f, k) := Decode(e.readBuffer).value;
        ReceiptComes(b.link, Acceptor, f, k);
      }
    } else {
      ServerMoveShips(sv, b.View());
      MovedComes(b.link, Acceptor, e.(party := ServerMove(sv, b.View()).server));
    }
  }

  // ---- Whole plays ----

  lemma PlayIsValid<Q(!new), A(!new)>(sv: Service<Q, A>, moves: seq<Move<Q>>)
    requires Sound(sv) && |Play(sv, moves).requests| <= MAX_REQUESTS
    ensures C.AllValid(Play(sv, moves).client.ep.out.shipped) && C.AllValid(Play(sv, moves).server.ep.out.shipped)
  {
    var c := PlayKeeps(sv, moves);
  }

  /** These moves on frames have come to `b`, and the bytes to come are right. */
  ghost predicate Matches<Q(!new), A(!new)>(sv: Service<Q, A>, moves: seq<Move<Q>>, b: Wired<Q, A>) {
    Play(sv, moves) == b.View() && BothCome(b.link)
  }

  lemma ClientTurnMatches<Q(!new), A(!new)>(sv: Service<Q, A>, moves: seq<Move<Q>>, b: Wired<Q, A>, q: Q)
    returns (more: seq<Move<Q>>)
    requires Sound(sv) && Matches(sv, moves, b) && |ClientTurn(sv, b, q).requests| <= MAX_REQUESTS
    ensures Matches(sv, more, ClientTurn(sv, b, q))
  {
    ClientTurnIsMove(sv, b, q);
    if ClientBlocks(b) {
      more := moves;
    } else {
      more := moves + [Client(q)];
      PlayOn(sv, moves, Client(q));
      PlayIsValid(sv, more);
      ClientTurnComes(sv, b, q);
    }
  }

  lemma ServerTurnMatches<Q(!new), A(!new)>(sv: Service<Q, A>, moves: seq<Move<Q>>, b: Wired<Q, A>)
    returns (more: seq<Move<Q>>)
    requires Sound(sv) && Matches(sv, moves, b) && |ServerTurn(sv, b).requests| <= MAX_REQUESTS
    ensures Matches(sv, more, ServerTurn(sv, b))
  {
    ServerTurnIsMove(sv, b);
    if ServerBlocks(b) {
      more := moves;
    } else {
      more := moves + [Move<Q>.Server];
      PlayOn(sv, moves, Move<Q>.Server);
      PlayIsValid(sv, more);
      ServerTurnComes(sv, b);
    }
  }

  lemma TurnsKeepRequests<Q, A>(sv: Service<Q, A>, b: Wired<Q, A>, q: Q)
    ensures b.requests <= ClientTurn(sv, b, q).requests && ServerTurn(sv, b).requests == b.requests
  {
  }

  lemma StartMatches<Q(!new), A(!new)>(sv: Service<Q, A>)
    ensures Matches(sv, [], PlayBytes(sv, []))
  {
  }

  /** Every play over bytes, for every chunking, is a play over frames. */
  lemma {:induction false} BytePlayIsPlay<Q(!new), A(!new)>(sv: Service<Q, A>, bytes: seq<ByteMove<Q>>)
    returns (moves: seq<Move<Q>>)
    requires Sound(sv) && |PlayBytes(sv, bytes).requests| <= MAX_REQUESTS
    ensures Matches(sv, moves, PlayBytes(sv, bytes))
  {
    if bytes == [] {
      moves := [];
      StartMatches(sv);
    } else {
      var b := PlayBytes(sv, bytes[..|bytes| - 1]);
      match bytes[|bytes| - 1]
      case ClientCall(q) =>
        TurnsKeepRequests(sv, b, q);
        moves := BytePlayIsPlay(sv, bytes[..|bytes| - 1]);
        moves := ClientTurnMatches(sv, moves, b, q);
      case ServerCall =>
        moves := BytePlayIsPlay(sv, bytes[..|bytes| - 1]);
        moves := ServerTurnMatches(sv, moves, b);
      case Arrive(r, size) =>
        moves := BytePlayIsPlay(sv, bytes[..|bytes| - 1]);
        ArrivingComes(b.link, r, size);
    }
  }

  /** Whatever the interleaving of the two programs and the chunking of their bytes,
      neither ever fails, and the answers the client has returned are the handler's
      answers to its requests, in order. */
  lemma EveryAnswerIsRightOnBytes<Q(!new), A(!new)>(sv: Service<Q, A>, bytes: seq<ByteMove<Q>>)
    requires Sound(sv) && |PlayBytes(sv, bytes).requests| <= MAX_REQUESTS
    ensures var b := PlayBytes(sv, bytes);
            && !b.phase.ClientFailed? && !b.serving.ServerFailed?
            && |b.answers| == (if b.phase.Idle? then |b.requests| else |b.requests| - 1)
            && (forall i :: 0 <= i < |b.answers| ==> b.answers[i] == sv.handler(b.requests[i]))
            && |b.link.ini.party.ep.streams| <= 2 && |b.link.acc.party.ep.streams| <= 1
  {
    var moves := BytePlayIsPlay(sv, bytes);
    EveryAnswerIsRight(sv, moves);
  }

  /** An end that has all the bytes there are, and no whole frame, has nothing to
      receive. */
  lemma NothingToReceive(e: End, q: Party)
    requires Comes(e, q) && e.wire == [] && Decode(e.readBuffer).Err?
    ensures !Deliverable(e.party, q)
  {
    var coming := q.ep.out.shipped[e.party.got..];
    C.TakeIsExact(C.Channel([], e.wire, e.readBuffer), C.FrameChannel([], coming));
  }

  /** While the client waits, one of the two programs can go on, or there are bytes on
      the way. */
  lemma BytesAreNeverStuck<Q(!new), A(!new)>(sv: Service<Q, A>, bytes: seq<ByteMove<Q>>, q: Q)
    requires Sound(sv) && |PlayBytes(sv, bytes).requests| <= MAX_REQUESTS && PlayBytes(sv, bytes).phase.Waiting?
    ensures var b := PlayBytes(sv, bytes);
            !ClientBlocks(b) || !ServerBlocks(b) || b.link.ini.wire != [] || b.link.acc.wire != []
  {
    var b := PlayBytes(sv, bytes);
    var moves := BytePlayIsPlay(sv, bytes);
    SomeMoveIsEffective(sv, moves, q);
    if ClientBlocks(b) && ServerBlocks(b) && b.link.ini.wire == [] && b.link.acc.wire == [] {
      NothingToReceive(b.link.ini, b.link.acc.party);
      NothingToReceive(b.link.acc, b.link.ini.party);
      assert false;
    }
  }
}
