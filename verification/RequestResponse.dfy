/** The client's `send_request` against the serving loop, over one connection whose
    handshake is complete: both programs of `Programs.dfy`, interleaved one call at
    a time (`trench-cli/src/client.rs`, `transport/src/server/resilient_server.rs`). */
module RequestResponse {
  import opened Bytes
  import opened TransportErrors
  import opened Frames
  import opened Streams
  import opened Protocol
  import opened ManagerInvariant
  import opened Programs
  import opened StreamPair
  import opened Multiplex
  import opened TwoParty

  const MAX_ENVELOPE: nat := 65_536

  /** Codecs that round-trip, with non-empty envelopes that fit one window. */
  ghost predicate Sound<Q(!new), A(!new)>(sv: Service<Q, A>) {
    && (forall q :: sv.readRequest(sv.writeRequest(q)) == Some(q) && 0 < |sv.writeRequest(q)| <= MAX_ENVELOPE)
    && (forall a :: sv.readAnswer(sv.writeAnswer(a)) == Some(a) && 0 < |sv.writeAnswer(a)| <= MAX_ENVELOPE)
  }

  /** Where the client is: between requests, after each of the calls of
      `send_request`, or in its receive loop. */
  datatype ClientPhase = Idle | Opened(s: u32) | Sent(s: u32) | Shut(s: u32) | Waiting(s: u32) | ClientFailed

  /** Where the server is: in `recv_frame`, or between the calls that answer a
      Data frame. */
  datatype ServerPhase =
    | Listening | Arrived(s: u32) | Handling(s: u32, bytes: seq<byte>) | Answered(s: u32) | Finished(s: u32)
    | ServerFailed

  datatype Exchange<Q, A> = Exchange(
    client: Party, server: Party, phase: ClientPhase, serving: ServerPhase, requests: seq<Q>, answers: seq<A>)

  // ---- The two programs, one call at a time ----

  function NextFrame(p: Party, peer: Party): Reply<Frame>
    requires Deliverable(p, peer)
  {
    HandleFrame(p.ep, peer.ep.out.shipped[p.got])
  }

  function AfterFrame<Q, A>(sv: Service<Q, A>, x: Exchange<Q, A>, s: u32, f: Frame): Exchange<Q, A> {
    match React(sv, s, f)
    case Ignore => x
    case Answer(a) => x.(phase := Idle, answers := x.answers + [a])
    case Fail(_) => x.(phase := ClientFailed)
  }

  /** `open_stream` for a new request. */
  function BeginRequest<Q, A>(x: Exchange<Q, A>, q: Q): Exchange<Q, A> {
    var r := OpenStream(x.client.ep);
    x.(client := Act(x.client, x.server, Do(Call.Open)), requests := x.requests + [q],
       phase := if r.result.Ok? then ClientPhase.Opened(r.result.value) else ClientFailed)
  }

  function SendRequest<Q, A>(x: Exchange<Q, A>, s: u32, bytes: seq<byte>): Exchange<Q, A> {
    x.(client := Act(x.client, x.server, Do(Call.Data(s, bytes))),
       phase := if SendData(x.client.ep, s, bytes).result.Ok? then Sent(s) else ClientFailed)
  }

  function CloseRequest<Q, A>(x: Exchange<Q, A>, s: u32): Exchange<Q, A> {
    x.(client := Act(x.client, x.server, Do(Call.Close(s))),
       phase := if CloseStream(x.client.ep, s).result.Ok? then Shut(s) else ClientFailed)
  }

  function FlushRequest<Q, A>(x: Exchange<Q, A>, s: u32): Exchange<Q, A> {
    x.(client := Act(x.client, x.server, Do(Call.Flush)), phase := Waiting(s))
  }

  /** One turn of the receive loop. */
  function ReceiveAnswer<Q, A>(sv: Service<Q, A>, x: Exchange<Q, A>, s: u32): Exchange<Q, A>
    requires Deliverable(x.client, x.server)
  {
    var r := NextFrame(x.client, x.server);
    var x' := x.(client := Act(x.client, x.server, Recv));
    if r.result.Err? then x'.(phase := ClientFailed) else AfterFrame(sv, x', s, r.result.value)
  }

  /** The client's next call; `q` is the request it sends if it is idle. */
  function ClientMove<Q, A>(sv: Service<Q, A>, x: Exchange<Q, A>, q: Q): Exchange<Q, A> {
    match x.phase
    case Idle => BeginRequest(x, q)
    case Opened(s) =>
      if x.requests == [] then x.(phase := ClientFailed)
      else SendRequest(x, s, sv.writeRequest(x.requests[|x.requests| - 1]))
    case Sent(s) => CloseRequest(x, s)
    case Shut(s) => FlushRequest(x, s)
    case Waiting(s) => if Deliverable(x.client, x.server) then ReceiveAnswer(sv, x, s) else x
    case ClientFailed => x
  }

  /** `recv_frame` at the server, and its branch on the frame type. */
  function ReceiveRequest<Q, A>(x: Exchange<Q, A>): Exchange<Q, A>
    requires Deliverable(x.server, x.client)
  {
    var r := NextFrame(x.server, x.client);
    x.(server := Act(x.server, x.client, Recv),
       serving := if r.result.Err? then ServerFailed
                  else if r.result.value.header.frameType.Data? then Arrived(r.result.value.header.streamId)
                  else if r.result.value.header.frameType.Error? then ServerFailed
                  else Listening)
  }

  function TakeRequest<Q, A>(x: Exchange<Q, A>, s: u32): Exchange<Q, A> {
    var r := RecvData(x.server.ep, s);
    x.(server := Act(x.server, x.client, Do(Call.Pop(s))),
       serving := if r.result.Err? then ServerFailed
                  else if r.result.value.None? || r.result.value.value == [] then Listening
                  else Handling(s, r.result.value.value))
  }

  /** Decode the request, run the handler and send its answer. */
  function AnswerRequest<Q, A>(sv: Service<Q, A>, x: Exchange<Q, A>, s: u32, bytes: seq<byte>): Exchange<Q, A> {
    var request := sv.readRequest(bytes);
    if request.None? then x.(serving := ServerFailed) else SendAnswer(x, s, sv.writeAnswer(sv.handler(request.value)))
  }

  function SendAnswer<Q, A>(x: Exchange<Q, A>, s: u32, bytes: seq<byte>): Exchange<Q, A> {
    x.(server := Act(x.server, x.client, Do(Call.Data(s, bytes))),
       serving := if SendData(x.server.ep, s, bytes).result.Ok? then Answered(s) else ServerFailed)
  }

  function CloseAnswer<Q, A>(x: Exchange<Q, A>, s: u32): Exchange<Q, A> {
    x.(server := Act(x.server, x.client, Do(Call.Close(s))),
       serving := if CloseStream(x.server.ep, s).result.Ok? then Finished(s) else ServerFailed)
  }

  function FlushAnswer<Q, A>(x: Exchange<Q, A>): Exchange<Q, A> {
    x.(server := Act(x.server, x.client, Do(Call.Flush)), serving := Listening)
  }

  /** The server's next call. */
  function ServerMove<Q, A>(sv: Service<Q, A>, x: Exchange<Q, A>): Exchange<Q, A> {
    match x.serving
    case Listening => if Deliverable(x.server, x.client) then ReceiveRequest(x) else x
    case Arrived(s) => TakeRequest(x, s)
    case Handling(s, bytes) => AnswerRequest(sv, x, s, bytes)
    case Answered(s) => CloseAnswer(x, s)
    case Finished(s) => FlushAnswer(x)
    case ServerFailed => x
  }

  datatype Move<Q> = Client(q: Q) | Server

  function Play<Q, A>(sv: Service<Q, A>, moves: seq<Move<Q>>): Exchange<Q, A> {
    if moves == [] then Exchange(Connected().ini, Connected().acc, Idle, Listening, [], [])
    else
      var x := Play(sv, moves[..|moves| - 1]);
      match moves[|moves| - 1]
      case Client(q) => ClientMove(sv, x, q)
      case Server => ServerMove(sv, x)
  }

  // ---- What has been sent, as a function of how much ----

  /** The request envelopes begun so far, and the answer envelope each calls for. */
  datatype Script = Script(requests: seq<seq<byte>>, answers: seq<seq<byte>>) {

    predicate Valid() {
      && |requests| == |answers| <= MAX_REQUESTS
      && forall k :: 0 <= k < |requests| ==> 0 < |requests[k]| <= MAX_ENVELOPE && 0 < |answers[k]| <= MAX_ENVELOPE
    }

    function Add(q: seq<byte>, a: seq<byte>): Script { Script(requests + [q], answers + [a]) }
  }

  /** The number of requests one connection has ids for. */
  const MAX_REQUESTS: nat := 0x7FFF_FFFF

  function Id(k: nat): (s: u32)
    requires k < MAX_REQUESTS
  {
    2 * k + 1
  }

  /** The three frames the client sends for request `k`, and the server's three. */
  function RequestFrames(t: Script, k: nat): seq<Frame>
    requires t.Valid() && k < |t.requests|
  {
    [OpenFrame(Id(k)), DataFrame(Id(k), t.requests[k]), CloseFrame(Id(k))]
  }

  function AnswerFrames(t: Script, k: nat): seq<Frame>
    requires t.Valid() && k < |t.requests|
  {
    [WindowFrame(Id(k), |t.requests[k]|), DataFrame(Id(k), t.answers[k]), CloseFrame(Id(k))]
  }

  /** All frames of the first `k` requests, after the Hello or Welcome. */
  function ClientFrames(t: Script, k: nat): (fs: seq<Frame>)
    requires t.Valid() && k <= |t.requests|
    ensures |fs| == 3 * k + 1
  {
    if k == 0 then [HelloFrame()] else ClientFrames(t, k - 1) + RequestFrames(t, k - 1)
  }

  function ServerFrames(t: Script, k: nat): (fs: seq<Frame>)
    requires t.Valid() && k <= |t.requests|
    ensures |fs| == 3 * k + 1
  {
    if k == 0 then [WelcomeFrame()] else ServerFrames(t, k - 1) + AnswerFrames(t, k - 1)
  }

  /** A stream at the client, having sent and received so many of its frames. */
  function ClientView(id: u32, q: seq<byte>, a: seq<byte>, sent: nat, got: nat): StreamView {
    StreamView(id, if sent < 3 then StreamState.Open else HalfClosedLocal,
               DEFAULT_WINDOW - (if sent >= 2 then |q| else 0) + (if got >= 1 then |q| else 0),
               DEFAULT_WINDOW - (if got >= 2 then |a| else 0), if got >= 2 then [a] else [])
  }

  /** A stream at the server. */
  function ServerView(id: u32, q: seq<byte>, a: seq<byte>, got: nat, sent: nat): StreamView {
    var queued := got >= 2 && sent == 0;
    StreamView(id, if sent < 3 then StreamState.Open else HalfClosedLocal,
               DEFAULT_WINDOW - (if sent >= 2 then |a| else 0),
               DEFAULT_WINDOW - (if queued then |q| else 0), if queued then [q] else [])
  }

  /** The client's copy of the current stream. */
  function Current(t: Script, part: nat, got: nat): StreamView
    requires t.Valid() && t.requests != []
  {
    var k := |t.requests| - 1;
    ClientView(Id(k), t.requests[k], t.answers[k], part, if got <= 1 then 0 else got - 1)
  }

  /** The client's copy of the previous stream, whose answer it has had. */
  function Previous(t: Script): StreamView
    requires t.Valid() && |t.requests| >= 2
  {
    var k := |t.requests| - 2;
    ClientView(Id(k), t.requests[k], t.answers[k], 3, 2)
  }

  /** `part` frames of the current request were sent; `got` counts, of the frames
      that end the exchange, the server's previous Close, its Window and its Data. */
  predicate ClientAt(n: nat, part: nat, got: nat) {
    && 0 < part <= 3 && got <= 3
    && (part < 3 ==> got == if n == 1 then 1 else 0)
    && (got == 0 ==> n >= 2) && (n == 0 ==> part == got == 3)
  }

  /** The streams the client holds: the current one, and the previous one until
      its Close arrives. */
  function ClientMap(t: Script, part: nat, got: nat): map<u32, StreamView>
    requires t.Valid() && ClientAt(|t.requests|, part, got)
  {
    var n := |t.requests|;
    if n == 0 then map[]
    else if got == 0 then map[Id(n - 2) := Previous(t), Id(n - 1) := Current(t, part, got)]
    else map[Id(n - 1) := Current(t, part, got)]
  }

  /** The server holds the stream of the request it is receiving or answering. */
  function ServerMap(t: Script, k: nat, got: nat, sent: nat): map<u32, StreamView>
    requires t.Valid() && (got > 0 ==> k < |t.requests|)
  {
    if got == 0 then map[] else map[Id(k) := ServerView(Id(k), t.requests[k], t.answers[k], got, sent)]
  }

  function ClientOutput(t: Script, part: nat): seq<Frame>
    requires t.Valid() && 0 < part <= 3 && (t.requests == [] ==> part == 3)
  {
    var n := |t.requests|;
    if n == 0 then ClientFrames(t, 0) else ClientFrames(t, n - 1) + RequestFrames(t, n - 1)[..part]
  }

  function ServerOutput(t: Script, k: nat, sent: nat): seq<Frame>
    requires t.Valid() && k <= |t.requests| && sent <= 3 && (sent > 0 ==> k < |t.requests|)
  {
    if sent == 0 then ServerFrames(t, k) else ServerFrames(t, k) + AnswerFrames(t, k)[..sent]
  }

  // ---- What was sent earlier does not depend on later requests ----

  lemma {:induction false} FramesSurviveGrowth(t: Script, q: seq<byte>, a: seq<byte>, k: nat)
    requires t.Valid() && t.Add(q, a).Valid() && k <= |t.requests|
    ensures ClientFrames(t.Add(q, a), k) == ClientFrames(t, k)
    ensures ServerFrames(t.Add(q, a), k) == ServerFrames(t, k)
  {
    if k > 0 {
      FramesSurviveGrowth(t, q, a, k - 1);
    }
  }

  lemma ServerSurvivesGrowth(t: Script, q: seq<byte>, a: seq<byte>, k: nat, got: nat, sent: nat)
    requires t.Valid() && t.Add(q, a).Valid()
    requires k <= |t.requests| && sent <= 3 && (got > 0 || sent > 0 ==> k < |t.requests|)
    ensures ServerMap(t.Add(q, a), k, got, sent) == ServerMap(t, k, got, sent)
    ensures ServerOutput(t.Add(q, a), k, sent) == ServerOutput(t, k, sent)
  {
    FramesSurviveGrowth(t, q, a, k);
  }

  // ---- The client's steps, on what it has sent and holds ----

  lemma ClientMapOpens(t: Script, q: seq<byte>, a: seq<byte>)
    requires t.Valid() && t.Add(q, a).Valid()
    ensures var (n, t') := (|t.requests|, t.Add(q, a));
            ClientMap(t, 3, 3)[Id(n) := NewStream(Id(n))] == ClientMap(t', 1, if n == 0 then 1 else 0)
  {
  }

  lemma ClientOutputOpens(t: Script, q: seq<byte>, a: seq<byte>)
    requires t.Valid() && t.Add(q, a).Valid()
    ensures ClientOutput(t, 3) + [OpenFrame(Id(|t.requests|))] == ClientOutput(t.Add(q, a), 1)
  {
    var n := |t.requests|;
    FramesSurviveGrowth(t, q, a, n);
    assert RequestFrames(t.Add(q, a), n)[..1] == [OpenFrame(Id(n))];
    if n > 0 {
      assert RequestFrames(t, n - 1)[..3] == RequestFrames(t, n - 1);
    }
  }

  lemma ClientOutputExtends(t: Script, part: nat)
    requires t.Valid() && t.requests != [] && 0 < part < 3
    ensures ClientOutput(t, part) + [RequestFrames(t, |t.requests| - 1)[part]] == ClientOutput(t, part + 1)
  {
    var fs := RequestFrames(t, |t.requests| - 1);
    assert fs[..part] + [fs[part]] == fs[..part + 1];
  }

  lemma ClientMapMoves(t: Script, part: nat, got: nat)
    requires t.Valid() && t.requests != [] && ClientAt(|t.requests|, part, got)
    ensures var s := Id(|t.requests| - 1);
            && s in ClientMap(t, part, got) && ClientMap(t, part, got)[s] == Current(t, part, got)
            && (ClientAt(|t.requests|, part + 1, got) ==>
                  ClientMap(t, part, got)[s := Current(t, part + 1, got)] == ClientMap(t, part + 1, got))
            && (0 < got && ClientAt(|t.requests|, part, got + 1) ==>
                  ClientMap(t, part, got)[s := Current(t, part, got + 1)] == ClientMap(t, part, got + 1))
  {
  }

  /** How calls and frames move the client's copy of a stream. */
  lemma ClientViewSteps(id: u32, q: seq<byte>, a: seq<byte>)
    requires 0 < |q| <= MAX_ENVELOPE && 0 < |a| <= MAX_ENVELOPE
    ensures ClientView(id, q, a, 1, 0) == NewStream(id)
    ensures ConsumeSend(ClientView(id, q, a, 1, 0), |q|) == ClientView(id, q, a, 2, 0)
    ensures CloseLocally(Live(ClientView(id, q, a, 2, 0))) == Live(ClientView(id, q, a, 3, 0))
    ensures ApplyIncrement(ClientView(id, q, a, 3, 0), |q|) == ClientView(id, q, a, 3, 1)
    ensures PushRecv(ClientView(id, q, a, 3, 1), a) == ClientView(id, q, a, 3, 2)
    ensures CloseRemotely(Live(ClientView(id, q, a, 3, 2))) == Gone
  {
  }

  /** How frames and calls move the server's copy. */
  lemma ServerViewSteps(id: u32, q: seq<byte>, a: seq<byte>)
    requires 0 < |q| <= MAX_ENVELOPE && 0 < |a| <= MAX_ENVELOPE
    ensures ServerView(id, q, a, 1, 0) == NewStream(id)
    ensures PushRecv(ServerView(id, q, a, 1, 0), q) == ServerView(id, q, a, 2, 0)
    ensures PopRecv(ServerView(id, q, a, 2, 0)) == (ServerView(id, q, a, 2, 1), Some(q))
    ensures ConsumeSend(ServerView(id, q, a, 2, 1), |a|) == ServerView(id, q, a, 2, 2)
    ensures CloseLocally(Live(ServerView(id, q, a, 2, 2))) == Live(ServerView(id, q, a, 2, 3))
    ensures CloseRemotely(Live(ServerView(id, q, a, 2, 3))) == Gone
  {
    assert [q][1..] == [];
  }

  // ---- The client's steps ----

  predicate ClientReady(e: Endpoint, n: nat) {
    Good(e) && e.role.Initiator? && e.handshake.Established? && e.nextLocalId == 2 * n + 1
  }

  predicate ClientIs(t: Script, e: Endpoint, part: nat, got: nat) {
    && t.Valid() && ClientAt(|t.requests|, part, got)
    && ClientReady(e, |t.requests|) && e.streams == ClientMap(t, part, got) && e.out.All() == ClientOutput(t, part)
  }

  /** `open_stream` for the next request succeeds until the ids run out. */
  lemma ClientOpens(t: Script, e: Endpoint, q: seq<byte>, a: seq<byte>)
    requires ClientIs(t, e, 3, 3) && t.Add(q, a).Valid()
    ensures var r := OpenStream(e);
            && r.result == Ok(Id(|t.requests|))
            && ClientIs(t.Add(q, a), r.state, 1, if t.requests == [] then 1 else 0)
  {
    OpenEffect(e);
    OpenKeepsGood(e);
    ClientMapOpens(t, q, a);
    ClientOutputOpens(t, q, a);
  }

  lemma DataSent(e: Endpoint, s: u32, bytes: seq<byte>)
    requires Good(e) && MaySend(e, s, bytes) && e.streams[s].sendWindow <= DEFAULT_WINDOW
    ensures var r := SendData(e, s, bytes);
            && r.result == Ok(()) && Good(r.state) && r.state.role == e.role && r.state.handshake.Established?
            && r.state.nextLocalId == e.nextLocalId
            && r.state.streams == e.streams[s := ConsumeSend(e.streams[s], |bytes|)]
            && r.state.out.All() == e.out.All() + [DataFrame(s, bytes)]
  {
    DataEffect(e, s, bytes);
    SendDataKeepsGood(e, s, bytes);
  }

  lemma CloseSent(e: Endpoint, s: u32)
    requires Good(e) && MayClose(e, s) && CloseLocally(Live(e.streams[s])).Live?
    ensures var r := CloseStream(e, s);
            && r.result == Ok(()) && Good(r.state) && r.state.role == e.role && r.state.handshake.Established?
            && r.state.nextLocalId == e.nextLocalId
            && r.state.streams == e.streams[s := CloseLocally(Live(e.streams[s])).view]
            && r.state.out.All() == e.out.All() + [CloseFrame(s)]
  {
    CloseEffect(e, s);
    CloseKeepsGood(e, s);
  }

  lemma ClientSendsRequest(t: Script, e: Endpoint, got: nat)
    requires ClientIs(t, e, 1, got)
    ensures var k := |t.requests| - 1;
            var r := SendData(e, Id(k), t.requests[k]);
            r.result == Ok(()) && ClientIs(t, r.state, 2, got)
  {
    var k := |t.requests| - 1;
    ClientMapMoves(t, 1, got);
    ClientViewSteps(Id(k), t.requests[k], t.answers[k]);
    ClientOutputExtends(t, 1);
    DataSent(e, Id(k), t.requests[k]);
  }

  lemma ClientCloses(t: Script, e: Endpoint, got: nat)
    requires ClientIs(t, e, 2, got)
    ensures var r := CloseStream(e, Id(|t.requests| - 1));
            r.result == Ok(()) && ClientIs(t, r.state, 3, got)
  {
    var k := |t.requests| - 1;
    ClientMapMoves(t, 2, got);
    ClientViewSteps(Id(k), t.requests[k], t.answers[k]);
    ClientOutputExtends(t, 2);
    CloseSent(e, Id(k));
  }

  lemma ClientFlushes(t: Script, e: Endpoint, got: nat)
    requires ClientIs(t, e, 3, got)
    ensures ClientIs(t, FlushAll(e), 3, got) && FlushAll(e).out.buffered == []
  {
    assert FlushAll(e).out.All() == e.out.All();
  }

  /** The frame the client receives next: the previous Close, its Window, its Data. */
  function ClientNext(t: Script, got: nat): Frame
    requires t.Valid() && ClientAt(|t.requests|, 3, got) && got < 3
  {
    var n := |t.requests|;
    if got == 0 then CloseFrame(Id(n - 2)) else AnswerFrames(t, n - 1)[got - 1]
  }

  lemma ClientReceivesClose(t: Script, e: Endpoint)
    requires ClientIs(t, e, 3, 0)
    ensures var r := HandleFrame(e, ClientNext(t, 0));
            r.result == Ok(ClientNext(t, 0)) && r.state.out == e.out && ClientIs(t, r.state, 3, 1)
  {
    var n := |t.requests|;
    var s := Id(n - 2);
    ClientViewSteps(s, t.requests[n - 2], t.answers[n - 2]);
    assert e.streams[s] == Previous(t);
    HandleKeepsGood(e, ClientNext(t, 0));
    assert ClientMap(t, 3, 0) - {s} == ClientMap(t, 3, 1);
  }

  lemma ClientReceivesWindow(t: Script, e: Endpoint)
    requires ClientIs(t, e, 3, 1) && t.requests != []
    ensures var r := HandleFrame(e, ClientNext(t, 1));
            r.result == Ok(ClientNext(t, 1)) && r.state.out == e.out && ClientIs(t, r.state, 3, 2)
  {
    var k := |t.requests| - 1;
    ClientViewSteps(Id(k), t.requests[k], t.answers[k]);
    ClientMapMoves(t, 3, 1);
    WindowCarriesIncrement(Id(k), |t.requests[k]|);
    HandleKeepsGood(e, ClientNext(t, 1));
  }

  lemma ClientReceivesData(t: Script, e: Endpoint)
    requires ClientIs(t, e, 3, 2) && t.requests != []
    ensures var r := HandleFrame(e, ClientNext(t, 2));
            r.result == Ok(ClientNext(t, 2)) && r.state.out == e.out && ClientIs(t, r.state, 3, 3)
  {
    var k := |t.requests| - 1;
    ClientViewSteps(Id(k), t.requests[k], t.answers[k]);
    ClientMapMoves(t, 3, 2);
    HandleKeepsGood(e, ClientNext(t, 2));
  }

  // ---- The server's steps ----

  predicate ServerAt(n: nat, k: nat, got: nat, sent: nat) {
    k <= n && got <= 2 && sent <= 3 && (got > 0 ==> k < n) && (got < 2 ==> sent == 0)
  }

  predicate ServerIs(t: Script, e: Endpoint, k: nat, got: nat, sent: nat) {
    && t.Valid() && ServerAt(|t.requests|, k, got, sent)
    && Good(e) && e.role.Acceptor? && e.handshake.Established?
    && e.streams == ServerMap(t, k, got, sent) && e.out.All() == ServerOutput(t, k, sent)
  }

  lemma ServerReceivesOpen(t: Script, e: Endpoint, k: nat)
    requires ServerIs(t, e, k, 0, 0) && k < |t.requests|
    ensures var f := RequestFrames(t, k)[0];
            var r := HandleFrame(e, f);
            r.result == Ok(f) && r.state.out == e.out && ServerIs(t, r.state, k, 1, 0)
  {
    ServerViewSteps(Id(k), t.requests[k], t.answers[k]);
    HandleKeepsGood(e, RequestFrames(t, k)[0]);
  }

  lemma ServerReceivesData(t: Script, e: Endpoint, k: nat)
    requires ServerIs(t, e, k, 1, 0)
    ensures var f := RequestFrames(t, k)[1];
            var r := HandleFrame(e, f);
            r.result == Ok(f) && r.state.out == e.out && ServerIs(t, r.state, k, 2, 0)
  {
    ServerViewSteps(Id(k), t.requests[k], t.answers[k]);
    HandleKeepsGood(e, RequestFrames(t, k)[1]);
  }

  lemma ServerReceivesClose(t: Script, e: Endpoint, k: nat)
    requires ServerIs(t, e, k, 2, 3)
    ensures var f := RequestFrames(t, k)[2];
            var r := HandleFrame(e, f);
            r.result == Ok(f) && r.state.out == e.out && ServerIs(t, r.state, k + 1, 0, 0)
  {
    ServerViewSteps(Id(k), t.requests[k], t.answers[k]);
    HandleKeepsGood(e, RequestFrames(t, k)[2]);
    assert ServerMap(t, k, 2, 3) - {Id(k)} == map[];
    assert AnswerFrames(t, k)[..3] == AnswerFrames(t, k);
  }

  lemma ServerOutputExtends(t: Script, k: nat, sent: nat)
    requires t.Valid() && k < |t.requests| && sent < 3
    ensures ServerOutput(t, k, sent) + [AnswerFrames(t, k)[sent]] == ServerOutput(t, k, sent + 1)
  {
    var fs := AnswerFrames(t, k);
    assert fs[..sent] + [fs[sent]] == fs[..sent + 1];
  }

  lemma PopSent(e: Endpoint, s: u32)
    requires Good(e) && PopReturnsCredit(e, s) && |e.streams[s].recvQueue[0]| <= DEFAULT_WINDOW
    ensures var r := RecvData(e, s);
            && r.result == Ok(Some(e.streams[s].recvQueue[0]))
            && Good(r.state) && r.state.role == e.role && r.state.handshake.Established?
            && r.state.streams == e.streams[s := PopRecv(e.streams[s]).0]
            && r.state.out.All() == e.out.All() + [WindowFrame(s, |e.streams[s].recvQueue[0]|)]
  {
    PopEffect(e, s);
    RecvDataKeepsGood(e, s);
  }

  lemma ServerMapMoves(t: Script, k: nat, sent: nat)
    requires t.Valid() && k < |t.requests|
    ensures var s := Id(k);
            && s in ServerMap(t, k, 2, sent)
            && ServerMap(t, k, 2, sent)[s] == ServerView(s, t.requests[k], t.answers[k], 2, sent)
            && ServerMap(t, k, 2, sent)[s := ServerView(s, t.requests[k], t.answers[k], 2, sent + 1)]
               == ServerMap(t, k, 2, sent + 1)
  {
  }

  /** The pop returns the request that has just arrived, and its credit. */
  lemma ServerPops(t: Script, e: Endpoint, k: nat)
    requires ServerIs(t, e, k, 2, 0)
    ensures var r := RecvData(e, Id(k));
            r.result == Ok(Some(t.requests[k])) && ServerIs(t, r.state, k, 2, 1)
  {
    var s := Id(k);
    ServerViewSteps(s, t.requests[k], t.answers[k]);
    ServerOutputExtends(t, k, 0);
    ServerMapMoves(t, k, 0);
    PopSent(e, s);
  }

  lemma ServerAnswers(t: Script, e: Endpoint, k: nat)
    requires ServerIs(t, e, k, 2, 1)
    ensures var r := SendData(e, Id(k), t.answers[k]);
            r.result == Ok(()) && ServerIs(t, r.state, k, 2, 2)
  {
    ServerViewSteps(Id(k), t.requests[k], t.answers[k]);
    ServerOutputExtends(t, k, 1);
    ServerMapMoves(t, k, 1);
    DataSent(e, Id(k), t.answers[k]);
  }

  lemma ServerCloses(t: Script, e: Endpoint, k: nat)
    requires ServerIs(t, e, k, 2, 2)
    ensures var r := CloseStream(e, Id(k));
            r.result == Ok(()) && ServerIs(t, r.state, k, 2, 3)
  {
    ServerViewSteps(Id(k), t.requests[k], t.answers[k]);
    ServerOutputExtends(t, k, 2);
    ServerMapMoves(t, k, 2);
    CloseSent(e, Id(k));
  }

  lemma ServerFlushes(t: Script, e: Endpoint, k: nat)
    requires ServerIs(t, e, k, 2, 3)
    ensures ServerIs(t, FlushAll(e), k, 2, 3) && FlushAll(e).out.buffered == []
  {
    assert FlushAll(e).out.All() == e.out.All();
  }

  // ---- The frames that travel ----

  lemma {:induction false} ServerFrameAt(t: Script, k: nat, j: nat, i: nat)
    requires t.Valid() && k <= |t.requests| && j < k && i < 3
    ensures ServerFrames(t, k)[1 + 3 * j + i] == AnswerFrames(t, j)[i]
  {
    if j < k - 1 {
      ServerFrameAt(t, k - 1, j, i);
    }
  }

  lemma ServerOutputAt(t: Script, k: nat, sent: nat, j: nat, i: nat)
    requires t.Valid() && sent <= 3 && k <= |t.requests| && (sent > 0 ==> k < |t.requests|) && i < 3
    requires 1 + 3 * j + i < |ServerOutput(t, k, sent)|
    ensures j < |t.requests| && ServerOutput(t, k, sent)[1 + 3 * j + i] == AnswerFrames(t, j)[i]
  {
    if j < k {
      ServerFrameAt(t, k, j, i);
    }
  }

  lemma {:induction false} ClientFrameAt(t: Script, k: nat, j: nat, i: nat)
    requires t.Valid() && k <= |t.requests| && j < k && i < 3
    ensures ClientFrames(t, k)[1 + 3 * j + i] == RequestFrames(t, j)[i]
  {
    if j < k - 1 {
      ClientFrameAt(t, k - 1, j, i);
    }
  }

  lemma ClientOutputAt(t: Script, part: nat, j: nat, i: nat)
    requires t.Valid() && 0 < part <= 3 && (t.requests == [] ==> part == 3) && i < 3
    requires 1 + 3 * j + i < |ClientOutput(t, part)|
    ensures j < |t.requests| && ClientOutput(t, part)[1 + 3 * j + i] == RequestFrames(t, j)[i]
  {
    var n := |t.requests|;
    if n > 0 && j < n - 1 {
      ClientFrameAt(t, n - 1, j, i);
    }
  }

  // ---- The joint invariant ----

  /** Where both programs are: see `ClientAt` and `ServerAt`. */
  datatype Counters = Counters(part: nat, back: nat, k: nat, got: nat, sent: nat)

  /** The bytes the requests begun so far stand for. */
  function ScriptOf<Q, A>(sv: Service<Q, A>, qs: seq<Q>): Script {
    Script(seq(|qs|, i requires 0 <= i < |qs| => sv.writeRequest(qs[i])),
           seq(|qs|, i requires 0 <= i < |qs| => sv.writeAnswer(sv.handler(qs[i]))))
  }

  lemma ScriptGrows<Q(!new), A(!new)>(sv: Service<Q, A>, qs: seq<Q>, q: Q)
    requires Sound(sv) && |qs| < MAX_REQUESTS
    ensures ScriptOf(sv, qs).Valid()
    ensures ScriptOf(sv, qs + [q]) == ScriptOf(sv, qs).Add(sv.writeRequest(q), sv.writeAnswer(sv.handler(q)))
    ensures ScriptOf(sv, qs + [q]).Valid()
  {
  }

  predicate PhaseAt(n: nat, phase: ClientPhase, part: nat, back: nat) {
    match phase
    case Idle => part == back == 3
    case Opened(s) => n > 0 && s == 2 * n - 1 && part == 1
    case Sent(s) => n > 0 && s == 2 * n - 1 && part == 2
    case Shut(s) => n > 0 && s == 2 * n - 1 && part == 3 && back < 3
    case Waiting(s) => n > 0 && s == 2 * n - 1 && part == 3 && back < 3
    case ClientFailed => false
  }

  predicate ServingAt(t: Script, serving: ServerPhase, k: nat, got: nat, sent: nat)
    requires ServerAt(|t.requests|, k, got, sent)
  {
    match serving
    case Listening => got == 2 ==> sent == 3
    case Arrived(s) => s == 2 * k + 1 && got == 2 && sent == 0
    case Handling(s, bytes) => s == 2 * k + 1 && got == 2 && sent == 1 && bytes == t.requests[k]
    case Answered(s) => s == 2 * k + 1 && got == 2 && sent == 2
    case Finished(s) => s == 2 * k + 1 && got == 2 && sent == 3
    case ServerFailed => false
  }

  /** How many of the server's frames the client has received. */
  function ClientGot(n: nat, back: nat): int { if n == 0 then 1 else 3 * n - 3 + back }

  /** The state of the client, as party and as program. */
  predicate ClientHalf(t: Script, p: Party, phase: ClientPhase, part: nat, back: nat) {
    && ClientIs(t, p.ep, part, back) && PhaseAt(|t.requests|, phase, part, back)
    && p.got == ClientGot(|t.requests|, back)
    && (phase.Idle? || phase.Waiting? ==> p.ep.out.buffered == [])
  }

  /** The state of the server. */
  predicate ServerHalf(t: Script, p: Party, serving: ServerPhase, k: nat, got: nat, sent: nat) {
    && ServerIs(t, p.ep, k, got, sent) && ServingAt(t, serving, k, got, sent)
    && p.got == 1 + 3 * k + got
    && (serving.Listening? ==> p.ep.out.buffered == [])
  }

  /** Frames are received after they were flushed. */
  predicate Flushed(p: Party, q: Party) { p.got <= |q.ep.out.shipped| && q.got <= |p.ep.out.shipped| }

  predicate PartiesAt(t: Script, client: Party, server: Party, phase: ClientPhase, serving: ServerPhase, c: Counters) {
    && ClientHalf(t, client, phase, c.part, c.back) && ServerHalf(t, server, serving, c.k, c.got, c.sent)
    && Flushed(client, server)
  }

  ghost predicate ExchangeAt<Q, A>(sv: Service<Q, A>, x: Exchange<Q, A>, c: Counters) {
    && PartiesAt(ScriptOf(sv, x.requests), x.client, x.server, x.phase, x.serving, c)
    && AnswersMatch(sv, x.requests, x.answers, if x.phase.Idle? then |x.requests| else |x.requests| - 1)
  }

  ghost predicate AnswersMatch<Q, A>(sv: Service<Q, A>, requests: seq<Q>, answers: seq<A>, n: int) {
    |answers| == n <= |requests| && forall i :: 0 <= i < n ==> answers[i] == sv.handler(requests[i])
  }

  // ---- The client's moves ----

  /** What a call leaves alone: the counters of received frames, and the frames
      already flushed. */
  lemma CallKeepsShipped(p: Party, q: Party, c: Call)
    ensures Act(p, q, Do(c)).got == p.got && |p.ep.out.shipped| <= |Act(p, q, Do(c)).ep.out.shipped|
    ensures Flushed(p, q) ==> Flushed(Act(p, q, Do(c)), q)
  {
    CallEmits(p.ep, c);
  }

  lemma OpenMove(t: Script, p: Party, peer: Party, q: seq<byte>, a: seq<byte>) returns (back: nat)
    requires ClientHalf(t, p, Idle, 3, 3) && t.Add(q, a).Valid()
    ensures OpenStream(p.ep).result == Ok(Id(|t.requests|))
    ensures ClientHalf(t.Add(q, a), Act(p, peer, Do(Call.Open)), ClientPhase.Opened(Id(|t.requests|)), 1, back)
  {
    ClientOpens(t, p.ep, q, a);
    back := if t.requests == [] then 1 else 0;
  }

  lemma SendMove(t: Script, p: Party, peer: Party, s: u32, back: nat)
    requires ClientHalf(t, p, ClientPhase.Opened(s), 1, back)
    ensures t.requests != []
    ensures var q := t.requests[|t.requests| - 1];
            SendData(p.ep, s, q).result == Ok(()) && ClientHalf(t, Act(p, peer, Do(Call.Data(s, q))), Sent(s), 2, back)
  {
    ClientSendsRequest(t, p.ep, back);
  }

  lemma CloseMove(t: Script, p: Party, peer: Party, s: u32, back: nat)
    requires ClientHalf(t, p, Sent(s), 2, back)
    ensures CloseStream(p.ep, s).result == Ok(()) && ClientHalf(t, Act(p, peer, Do(Call.Close(s))), Shut(s), 3, back)
  {
    ClientCloses(t, p.ep, back);
  }

  lemma FlushMove(t: Script, p: Party, peer: Party, s: u32, back: nat)
    requires ClientHalf(t, p, Shut(s), 3, back)
    ensures ClientHalf(t, Act(p, peer, Do(Call.Flush)), Waiting(s), 3, back)
  {
    ClientFlushes(t, p.ep, back);
  }

  lemma ClientNextIs(t: Script, k: nat, sent: nat, back: nat)
    requires t.Valid() && k <= |t.requests| && sent <= 3 && (sent > 0 ==> k < |t.requests|)
    requires ClientAt(|t.requests|, 3, back) && back < 3 && ClientGot(|t.requests|, back) < |ServerOutput(t, k, sent)|
    ensures ServerOutput(t, k, sent)[ClientGot(|t.requests|, back)] == ClientNext(t, back)
  {
    var n := |t.requests|;
    if back == 0 {
      ServerOutputAt(t, k, sent, n - 2, 2);
    } else {
      ServerOutputAt(t, k, sent, n - 1, back - 1);
    }
  }

  lemma ClientNextArrives(t: Script, p: Party, server: Party, s: u32, back: nat,
                          serving: ServerPhase, k: nat, got: nat, sent: nat)
    requires ClientHalf(t, p, Waiting(s), 3, back) && ServerHalf(t, server, serving, k, got, sent)
    requires Deliverable(p, server)
    ensures server.ep.out.shipped[p.got] == ClientNext(t, back)
  {
    assert server.ep.out.shipped[p.got] == server.ep.out.All()[p.got];
    ClientNextIs(t, k, sent, back);
  }

  lemma ClientHandles(t: Script, e: Endpoint, back: nat)
    requires ClientIs(t, e, 3, back) && back < 3
    ensures var r := HandleFrame(e, ClientNext(t, back));
            r.result == Ok(ClientNext(t, back)) && r.state.out == e.out && ClientIs(t, r.state, 3, back + 1)
  {
    if back == 0 {
      ClientReceivesClose(t, e);
    } else if back == 1 {
      ClientReceivesWindow(t, e);
    } else {
      ClientReceivesData(t, e);
    }
  }

  lemma ClientReceiveMove(t: Script, p: Party, server: Party, s: u32, back: nat)
    requires ClientHalf(t, p, Waiting(s), 3, back) && Deliverable(p, server)
    requires server.ep.out.shipped[p.got] == ClientNext(t, back)
    ensures NextFrame(p, server).result == Ok(ClientNext(t, back))
    ensures ClientHalf(t, Act(p, server, Recv), if back == 2 then Idle else Waiting(s), 3, back + 1)
    ensures Flushed(p, server) ==> Flushed(Act(p, server, Recv), server)
  {
    ClientHandles(t, p.ep, back);
  }

  lemma SendParties(t: Script, p: Party, server: Party, s: u32, serving: ServerPhase, c: Counters)
    requires PartiesAt(t, p, server, ClientPhase.Opened(s), serving, c)
    ensures t.requests != []
    ensures var q := t.requests[|t.requests| - 1];
            && SendData(p.ep, s, q).result == Ok(())
            && PartiesAt(t, Act(p, server, Do(Call.Data(s, q))), server, Sent(s), serving, c.(part := 2))
  {
    SendMove(t, p, server, s, c.back);
    CallKeepsShipped(p, server, Call.Data(s, t.requests[|t.requests| - 1]));
  }

  lemma NextAnswer(t: Script, p: Party, server: Party, s: u32, serving: ServerPhase, c: Counters)
    requires PartiesAt(t, p, server, Waiting(s), serving, c) && Deliverable(p, server)
    ensures server.ep.out.shipped[p.got] == ClientNext(t, c.back)
    ensures NextFrame(p, server).result == Ok(ClientNext(t, c.back))
  {
    ClientNextArrives(t, p, server, s, c.back, serving, c.k, c.got, c.sent);
    ClientReceiveMove(t, p, server, s, c.back);
  }

  lemma ReceiveParties(t: Script, p: Party, server: Party, s: u32, serving: ServerPhase, c: Counters)
    requires PartiesAt(t, p, server, Waiting(s), serving, c) && Deliverable(p, server)
    ensures PartiesAt(t, Act(p, server, Recv), server, if c.back == 2 then Idle else Waiting(s), serving,
                      c.(back := c.back + 1))
  {
    NextAnswer(t, p, server, s, serving, c);
    ClientReceiveMove(t, p, server, s, c.back);
  }

  // ---- The server's moves ----

  lemma ServerNextArrives(t: Script, p: Party, client: Party, phase: ClientPhase, part: nat, back: nat,
                          k: nat, got: nat, sent: nat)
    requires ClientHalf(t, client, phase, part, back) && ServerHalf(t, p, Listening, k, got, sent)
    requires Deliverable(p, client)
    ensures k < |t.requests| && client.ep.out.shipped[p.got] == RequestFrames(t, k)[got]
  {
    assert client.ep.out.shipped[p.got] == client.ep.out.All()[p.got];
    ClientOutputAt(t, part, k, got);
  }

  function AfterReceipt(c: Counters): Counters {
    if c.got == 2 then c.(k := c.k + 1, got := 0, sent := 0) else c.(got := c.got + 1)
  }

  lemma ServerHandles(t: Script, e: Endpoint, k: nat, got: nat, sent: nat)
    requires ServerIs(t, e, k, got, sent) && k < |t.requests| && (got == 2 ==> sent == 3)
    ensures var f := RequestFrames(t, k)[got];
            var r := HandleFrame(e, f);
            && r.result == Ok(f) && r.state.out == e.out
            && if got == 2 then ServerIs(t, r.state, k + 1, 0, 0) else ServerIs(t, r.state, k, got + 1, sent)
  {
    if got == 0 {
      ServerReceivesOpen(t, e, k);
    } else if got == 1 {
      ServerReceivesData(t, e, k);
    } else {
      ServerReceivesClose(t, e, k);
    }
  }

  lemma ServerReceiveMove(t: Script, p: Party, client: Party, c: Counters)
    requires ServerHalf(t, p, Listening, c.k, c.got, c.sent) && Deliverable(p, client)
    requires c.k < |t.requests| && client.ep.out.shipped[p.got] == RequestFrames(t, c.k)[c.got]
    ensures NextFrame(p, client).result == Ok(RequestFrames(t, c.k)[c.got])
    ensures var c' := AfterReceipt(c);
            ServerHalf(t, Act(p, client, Recv), if c.got == 1 then Arrived(Id(c.k)) else Listening,
                       c'.k, c'.got, c'.sent)
    ensures Flushed(client, p) ==> Flushed(client, Act(p, client, Recv))
  {
    ServerHandles(t, p.ep, c.k, c.got, c.sent);
  }

  lemma PopMove(t: Script, p: Party, peer: Party, s: u32, k: nat)
    requires ServerHalf(t, p, Arrived(s), k, 2, 0)
    ensures RecvData(p.ep, s).result == Ok(Some(t.requests[k]))
    ensures ServerHalf(t, Act(p, peer, Do(Call.Pop(s))), Handling(s, t.requests[k]), k, 2, 1)
  {
    ServerPops(t, p.ep, k);
  }

  lemma AnswerMove(t: Script, p: Party, peer: Party, s: u32, bytes: seq<byte>, k: nat)
    requires ServerHalf(t, p, Handling(s, bytes), k, 2, 1)
    ensures bytes == t.requests[k] && SendData(p.ep, s, t.answers[k]).result == Ok(())
    ensures ServerHalf(t, Act(p, peer, Do(Call.Data(s, t.answers[k]))), Answered(s), k, 2, 2)
  {
    ServerAnswers(t, p.ep, k);
  }

  lemma ServerCloseMove(t: Script, p: Party, peer: Party, s: u32, k: nat)
    requires ServerHalf(t, p, Answered(s), k, 2, 2)
    ensures CloseStream(p.ep, s).result == Ok(())
    ensures ServerHalf(t, Act(p, peer, Do(Call.Close(s))), Finished(s), k, 2, 3)
  {
    ServerCloses(t, p.ep, k);
  }

  lemma ServerFlushMove(t: Script, p: Party, peer: Party, s: u32, k: nat)
    requires ServerHalf(t, p, Finished(s), k, 2, 3)
    ensures ServerHalf(t, Act(p, peer, Do(Call.Flush)), Listening, k, 2, 3)
  {
    ServerFlushes(t, p.ep, k);
  }

  // ---- Whole conversations ----

  /** The request bytes the client sends next are those of the last request. */
  lemma LatestRequest<Q, A>(sv: Service<Q, A>, qs: seq<Q>)
    requires qs != []
    ensures ScriptOf(sv, qs).requests != []
    ensures ScriptOf(sv, qs).requests[|qs| - 1] == sv.writeRequest(qs[|qs| - 1])
  {
  }

  /** What the server writes for request `k` once it has decoded it. */
  lemma AnswerBytes<Q(!new), A(!new)>(sv: Service<Q, A>, qs: seq<Q>, k: nat)
    requires Sound(sv) && k < |qs|
    ensures var t := ScriptOf(sv, qs);
            && t.requests[k] != [] && sv.readRequest(t.requests[k]) == Some(qs[k])
            && t.answers[k] == sv.writeAnswer(sv.handler(qs[k]))
  {
  }

  lemma AnswersAwait<Q, A>(sv: Service<Q, A>, requests: seq<Q>, answers: seq<A>, q: Q)
    requires AnswersMatch(sv, requests, answers, |requests|)
    ensures AnswersMatch(sv, requests + [q], answers, |requests + [q]| - 1)
  {
  }

  lemma AnswersArrive<Q(!new), A(!new)>(sv: Service<Q, A>, requests: seq<Q>, answers: seq<A>)
    requires Sound(sv) && requests != [] && AnswersMatch(sv, requests, answers, |requests| - 1)
    ensures var answer := sv.readAnswer(ScriptOf(sv, requests).answers[|requests| - 1]);
            answer.Some? && AnswersMatch(sv, requests, answers + [answer.value], |requests|)
  {
  }

  lemma ServerHalfSurvives(t: Script, q: seq<byte>, a: seq<byte>, p: Party, serving: ServerPhase, c: Counters)
    requires ServerHalf(t, p, serving, c.k, c.got, c.sent) && t.Add(q, a).Valid()
    ensures ServerHalf(t.Add(q, a), p, serving, c.k, c.got, c.sent)
  {
    ServerSurvivesGrowth(t, q, a, c.k, c.got, c.sent);
  }

  lemma OpenParties(t: Script, q: seq<byte>, a: seq<byte>, p: Party, server: Party, serving: ServerPhase, c: Counters)
    returns (back: nat)
    requires PartiesAt(t, p, server, Idle, serving, c) && t.Add(q, a).Valid()
    ensures OpenStream(p.ep).result == Ok(Id(|t.requests|))
    ensures PartiesAt(t.Add(q, a), Act(p, server, Do(Call.Open)), server, ClientPhase.Opened(Id(|t.requests|)), serving,
                      c.(part := 1, back := back))
  {
    back := OpenMove(t, p, server, q, a);
    ServerHalfSurvives(t, q, a, server, serving, c);
    CallKeepsShipped(p, server, Call.Open);
  }

  lemma OpenKeeps<Q(!new), A(!new)>(sv: Service<Q, A>, x: Exchange<Q, A>, q: Q, c: Counters) returns (c': Counters)
    requires Sound(sv) && ExchangeAt(sv, x, c) && x.phase.Idle? && |x.requests| < MAX_REQUESTS
    ensures ExchangeAt(sv, BeginRequest(x, q), c')
  {
    ScriptGrows(sv, x.requests, q);
    var t := ScriptOf(sv, x.requests);
    var (bytes, answer) := (sv.writeRequest(q), sv.writeAnswer(sv.handler(q)));
    var back := OpenParties(t, bytes, answer, x.client, x.server, x.serving, c);
    AnswersAwait(sv, x.requests, x.answers, q);
    c' := c.(part := 1, back := back);
  }

  lemma SendKeeps<Q(!new), A(!new)>(sv: Service<Q, A>, x: Exchange<Q, A>, s: u32, c: Counters) returns (c': Counters)
    requires ExchangeAt(sv, x, c) && x.phase == ClientPhase.Opened(s)
    ensures x.requests != [] && ExchangeAt(sv, SendRequest(x, s, sv.writeRequest(x.requests[|x.requests| - 1])), c')
  {
    var t := ScriptOf(sv, x.requests);
    SendParties(t, x.client, x.server, s, x.serving, c);
    LatestRequest(sv, x.requests);
    c' := c.(part := 2);
  }

  lemma CloseKeeps<Q(!new), A(!new)>(sv: Service<Q, A>, x: Exchange<Q, A>, s: u32, c: Counters) returns (c': Counters)
    requires ExchangeAt(sv, x, c) && x.phase == Sent(s)
    ensures ExchangeAt(sv, CloseRequest(x, s), c')
  {
    CloseMove(ScriptOf(sv, x.requests), x.client, x.server, s, c.back);
    CallKeepsShipped(x.client, x.server, Call.Close(s));
    c' := c.(part := 3);
  }

  lemma FlushKeeps<Q(!new), A(!new)>(sv: Service<Q, A>, x: Exchange<Q, A>, s: u32, c: Counters)
    requires ExchangeAt(sv, x, c) && x.phase == Shut(s)
    ensures ExchangeAt(sv, FlushRequest(x, s), c)
  {
    FlushMove(ScriptOf(sv, x.requests), x.client, x.server, s, c.back);
    CallKeepsShipped(x.client, x.server, Call.Flush);
  }

  /** Only the Data frame of the awaited stream ends the loop. */
  lemma AfterFrameIs<Q, A>(sv: Service<Q, A>, x: Exchange<Q, A>, s: u32, t: Script, back: nat)
    requires t.Valid() && ClientAt(|t.requests|, 3, back) && back < 3 && s == 2 * |t.requests| - 1
    requires back == 2 ==> sv.readAnswer(t.answers[|t.requests| - 1]).Some?
    ensures AfterFrame(sv, x, s, ClientNext(t, back)) ==
            if back < 2 then x
            else x.(phase := Idle, answers := x.answers + [sv.readAnswer(t.answers[|t.requests| - 1]).value])
  {
  }

  lemma ReceiveKeeps<Q(!new), A(!new)>(sv: Service<Q, A>, x: Exchange<Q, A>, s: u32, c: Counters)
    requires Sound(sv) && ExchangeAt(sv, x, c) && x.phase == Waiting(s) && Deliverable(x.client, x.server)
    ensures ExchangeAt(sv, ReceiveAnswer(sv, x, s), c.(back := c.back + 1))
  {
    if c.back == 2 {
      ReceivingTheAnswerKeeps(sv, x, s, c);
    } else {
      ReceivingMoreKeeps(sv, x, s, c);
    }
  }

  lemma ReceivingMoreKeeps<Q(!new), A(!new)>(sv: Service<Q, A>, x: Exchange<Q, A>, s: u32, c: Counters)
    requires Sound(sv) && ExchangeAt(sv, x, c) && x.phase == Waiting(s)
    requires Deliverable(x.client, x.server) && c.back < 2
    ensures ExchangeAt(sv, ReceiveAnswer(sv, x, s), c.(back := c.back + 1))
  {
    var t := ScriptOf(sv, x.requests);
    NextAnswer(t, x.client, x.server, s, x.serving, c);
    ReceiveParties(t, x.client, x.server, s, x.serving, c);
    ReceiveAnswerIs(sv, x, s, t, c.back);
  }

  lemma ReceivingTheAnswerKeeps<Q(!new), A(!new)>(sv: Service<Q, A>, x: Exchange<Q, A>, s: u32, c: Counters)
    requires Sound(sv) && ExchangeAt(sv, x, c) && x.phase == Waiting(s)
    requires Deliverable(x.client, x.server) && c.back == 2
    ensures ExchangeAt(sv, ReceiveAnswer(sv, x, s), c.(back := 3))
  {
    var t := ScriptOf(sv, x.requests);
    NextAnswer(t, x.client, x.server, s, x.serving, c);
    ReceiveParties(t, x.client, x.server, s, x.serving, c);
    AnswersArrive(sv, x.requests, x.answers);
    ReceiveAnswerIs(sv, x, s, t, 2);
  }

  lemma ReceiveAnswerIs<Q, A>(sv: Service<Q, A>, x: Exchange<Q, A>, s: u32, t: Script, back: nat)
    requires t.Valid() && ClientAt(|t.requests|, 3, back) && back < 3 && s == 2 * |t.requests| - 1
    requires back == 2 ==> sv.readAnswer(t.answers[|t.requests| - 1]).Some?
    requires Deliverable(x.client, x.server) && NextFrame(x.client, x.server).result == Ok(ClientNext(t, back))
    ensures var x' := x.(client := Act(x.client, x.server, Recv));
            ReceiveAnswer(sv, x, s) ==
            if back < 2 then x'
            else x'.(phase := Idle, answers := x.answers + [sv.readAnswer(t.answers[|t.requests| - 1]).value])
  {
    AfterFrameIs(sv, x.(client := Act(x.client, x.server, Recv)), s, t, back);
  }

  lemma ClientMoveKeeps<Q(!new), A(!new)>(sv: Service<Q, A>, x: Exchange<Q, A>, q: Q, c: Counters)
    returns (c': Counters)
    requires Sound(sv) && ExchangeAt(sv, x, c) && (x.phase.Idle? ==> |x.requests| < MAX_REQUESTS)
    ensures ExchangeAt(sv, ClientMove(sv, x, q), c')
  {
    if x.phase.Idle? || x.phase.Opened? {
      c' := BeginningKeeps(sv, x, q, c);
    } else if x.phase.Waiting? {
      c' := AwaitKeeps(sv, x, x.phase.s, c);
    } else {
      c' := EndingKeeps(sv, x, q, c);
    }
  }

  lemma BeginningKeeps<Q(!new), A(!new)>(sv: Service<Q, A>, x: Exchange<Q, A>, q: Q, c: Counters)
    returns (c': Counters)
    requires Sound(sv) && ExchangeAt(sv, x, c) && (x.phase.Idle? ==> |x.requests| < MAX_REQUESTS)
    requires x.phase.Idle? || x.phase.Opened?
    ensures ExchangeAt(sv, ClientMove(sv, x, q), c')
  {
    match x.phase
    case Idle => c' := OpenKeeps(sv, x, q, c);
    case Opened(s) => c' := SendKeeps(sv, x, s, c);
  }

  lemma EndingKeeps<Q(!new), A(!new)>(sv: Service<Q, A>, x: Exchange<Q, A>, q: Q, c: Counters) returns (c': Counters)
    requires Sound(sv) && ExchangeAt(sv, x, c) && (x.phase.Sent? || x.phase.Shut? || x.phase.ClientFailed?)
    ensures ExchangeAt(sv, ClientMove(sv, x, q), c')
  {
    c' := c;
    match x.phase
    case Sent(s) => c' := CloseKeeps(sv, x, s, c);
    case Shut(s) => FlushKeeps(sv, x, s, c);
    case ClientFailed =>
  }

  lemma AwaitKeeps<Q(!new), A(!new)>(sv: Service<Q, A>, x: Exchange<Q, A>, s: u32, c: Counters) returns (c': Counters)
    requires Sound(sv) && ExchangeAt(sv, x, c) && x.phase == Waiting(s)
    ensures ExchangeAt(sv, if Deliverable(x.client, x.server) then ReceiveAnswer(sv, x, s) else x, c')
  {
    c' := c;
    if Deliverable(x.client, x.server) {
      ReceiveKeeps(sv, x, s, c);
      c' := c.(back := c.back + 1);
    }
  }

  lemma ServerReceiveKeeps<Q(!new), A(!new)>(sv: Service<Q, A>, x: Exchange<Q, A>, c: Counters)
    requires ExchangeAt(sv, x, c) && x.serving.Listening? && Deliverable(x.server, x.client)
    ensures ExchangeAt(sv, ReceiveRequest(x), AfterReceipt(c))
  {
    var t := ScriptOf(sv, x.requests);
    ServerNextArrives(t, x.server, x.client, x.phase, c.part, c.back, c.k, c.got, c.sent);
    ServerReceiveMove(t, x.server, x.client, c);
  }

  lemma PopParties(t: Script, client: Party, p: Party, s: u32, phase: ClientPhase, c: Counters)
    requires PartiesAt(t, client, p, phase, Arrived(s), c)
    ensures c.k < |t.requests| && RecvData(p.ep, s).result == Ok(Some(t.requests[c.k]))
    ensures PartiesAt(t, client, Act(p, client, Do(Call.Pop(s))), phase, Handling(s, t.requests[c.k]), c.(sent := 1))
  {
    PopMove(t, p, client, s, c.k);
    CallKeepsShipped(p, client, Call.Pop(s));
  }

  lemma PopKeeps<Q(!new), A(!new)>(sv: Service<Q, A>, x: Exchange<Q, A>, s: u32, c: Counters)
    requires Sound(sv) && ExchangeAt(sv, x, c) && x.serving == Arrived(s)
    ensures ExchangeAt(sv, TakeRequest(x, s), c.(sent := 1))
  {
    var t := ScriptOf(sv, x.requests);
    PopParties(t, x.client, x.server, s, x.phase, c);
    AnswerBytes(sv, x.requests, c.k);
    TakesBytes(x, s, t.requests[c.k]);
    ServerActed(sv, x, Act(x.server, x.client, Do(Call.Pop(s))), Handling(s, t.requests[c.k]), c, c.(sent := 1));
  }

  /** Only the server has moved. */
  lemma ServerActed<Q, A>(sv: Service<Q, A>, x: Exchange<Q, A>, p: Party, serving: ServerPhase,
                          c: Counters, c': Counters)
    requires ExchangeAt(sv, x, c) && PartiesAt(ScriptOf(sv, x.requests), x.client, p, x.phase, serving, c')
    ensures ExchangeAt(sv, x.(server := p, serving := serving), c')
  {
  }

  lemma TakesBytes<Q, A>(x: Exchange<Q, A>, s: u32, bytes: seq<byte>)
    requires RecvData(x.server.ep, s).result == Ok(Some(bytes)) && bytes != []
    ensures TakeRequest(x, s) ==
            x.(server := Act(x.server, x.client, Do(Call.Pop(s))), serving := Handling(s, bytes))
  {
  }

  lemma AnswerKeeps<Q(!new), A(!new)>(sv: Service<Q, A>, x: Exchange<Q, A>, s: u32, bytes: seq<byte>, c: Counters)
    requires Sound(sv) && ExchangeAt(sv, x, c) && x.serving == Handling(s, bytes)
    ensures ExchangeAt(sv, AnswerRequest(sv, x, s, bytes), c.(sent := 2))
  {
    AnswerMove(ScriptOf(sv, x.requests), x.server, x.client, s, bytes, c.k);
    CallKeepsShipped(x.server, x.client, Call.Data(s, ScriptOf(sv, x.requests).answers[c.k]));
    AnswerBytes(sv, x.requests, c.k);
  }

  lemma ServerCloseKeeps<Q(!new), A(!new)>(sv: Service<Q, A>, x: Exchange<Q, A>, s: u32, c: Counters)
    requires ExchangeAt(sv, x, c) && x.serving == Answered(s)
    ensures ExchangeAt(sv, CloseAnswer(x, s), c.(sent := 3))
  {
    ServerCloseMove(ScriptOf(sv, x.requests), x.server, x.client, s, c.k);
    CallKeepsShipped(x.server, x.client, Call.Close(s));
  }

  lemma ServerFlushKeeps<Q(!new), A(!new)>(sv: Service<Q, A>, x: Exchange<Q, A>, s: u32, c: Counters)
    requires ExchangeAt(sv, x, c) && x.serving == Finished(s)
    ensures ExchangeAt(sv, FlushAnswer(x), c)
  {
    ServerFlushMove(ScriptOf(sv, x.requests), x.server, x.client, s, c.k);
    CallKeepsShipped(x.server, x.client, Call.Flush);
  }

  lemma ServerMoveKeeps<Q(!new), A(!new)>(sv: Service<Q, A>, x: Exchange<Q, A>, c: Counters) returns (c': Counters)
    requires Sound(sv) && ExchangeAt(sv, x, c)
    ensures ExchangeAt(sv, ServerMove(sv, x), c')
  {
    c' := c;
    match x.serving
    case Listening =>
      if Deliverable(x.server, x.client) {
        ServerReceiveKeeps(sv, x, c);
        c' := AfterReceipt(c);
      }
    case Arrived(s) =>
      PopKeeps(sv, x, s, c);
      c' := c.(sent := 1);
    case Handling(s, bytes) =>
      AnswerKeeps(sv, x, s, bytes, c);
      c' := c.(sent := 2);
    case Answered(s) =>
      ServerCloseKeeps(sv, x, s, c);
      c' := c.(sent := 3);
    case Finished(s) => ServerFlushKeeps(sv, x, s, c);
    case ServerFailed =>
  }

  lemma StartIsIdle()
    ensures PartiesAt(Script([], []), Connected().ini, Connected().acc, Idle, Listening, Counters(3, 3, 0, 0, 0))
  {
    assert EncodeAll([]) == [];
  }

  lemma StartsConnected<Q, A>(sv: Service<Q, A>) returns (c: Counters)
    ensures ExchangeAt(sv, Play(sv, []), c)
  {
    c := Counters(3, 3, 0, 0, 0);
    StartIsIdle();
  }

  lemma {:induction false} PlayKeeps<Q(!new), A(!new)>(sv: Service<Q, A>, moves: seq<Move<Q>>) returns (c: Counters)
    requires Sound(sv) && |Play(sv, moves).requests| <= MAX_REQUESTS
    ensures ExchangeAt(sv, Play(sv, moves), c)
  {
    if moves == [] {
      c := StartsConnected(sv);
    } else {
      var before := moves[..|moves| - 1];
      var c0 := PlayKeeps(sv, before);
      match moves[|moves| - 1]
      case Client(q) => c := ClientMoveKeeps(sv, Play(sv, before), q, c0);
      case Server => c := ServerMoveKeeps(sv, Play(sv, before), c0);
    }
  }

  lemma MapsAreSmall(t: Script, c: Counters)
    requires t.Valid()
    ensures ClientAt(|t.requests|, c.part, c.back) ==> |ClientMap(t, c.part, c.back)| <= 2
    ensures (c.got > 0 ==> c.k < |t.requests|) ==> |ServerMap(t, c.k, c.got, c.sent)| <= 1
  {
  }

  lemma AnswersAreRight<Q(!new), A(!new)>(sv: Service<Q, A>, x: Exchange<Q, A>, c: Counters)
    requires ExchangeAt(sv, x, c)
    ensures !x.phase.ClientFailed? && !x.serving.ServerFailed?
    ensures |x.answers| == if x.phase.Idle? then |x.requests| else |x.requests| - 1
    ensures forall i :: 0 <= i < |x.answers| ==> x.answers[i] == sv.handler(x.requests[i])
    ensures |x.client.ep.streams| <= 2 && |x.server.ep.streams| <= 1
  {
    MapsAreSmall(ScriptOf(sv, x.requests), c);
  }

  /** Whatever the interleaving of the two programs, neither ever fails, and the
      answers the client has returned are the handler's answers to its requests,
      in order; the last request may still be waiting for its answer. The client
      never holds more than two streams, the server never more than one. */
  lemma EveryAnswerIsRight<Q(!new), A(!new)>(sv: Service<Q, A>, moves: seq<Move<Q>>)
    requires Sound(sv) && |Play(sv, moves).requests| <= MAX_REQUESTS
    ensures var x := Play(sv, moves);
            && !x.phase.ClientFailed? && !x.serving.ServerFailed?
            && |x.answers| == (if x.phase.Idle? then |x.requests| else |x.requests| - 1)
            && (forall i :: 0 <= i < |x.answers| ==> x.answers[i] == sv.handler(x.requests[i]))
            && |x.client.ep.streams| <= 2 && |x.server.ep.streams| <= 1
  {
    var c := PlayKeeps(sv, moves);
    AnswersAreRight(sv, Play(sv, moves), c);
  }

  // ---- The answer arrives ----

  function ServingRank(serving: ServerPhase): nat {
    match serving
    case Arrived(_) => 7
    case Handling(_, _) => 5
    case Answered(_) => 3
    case Finished(_) => 1
    case _ => 0
  }

  /** The work left: frames neither side has received yet, and the calls the
      server still owes for a Data frame. */
  function WorkLeft<Q, A>(x: Exchange<Q, A>): int {
    8 * (|x.client.ep.out.All()| - x.server.got) + ServingRank(x.serving) + (|x.server.ep.out.All()| - x.client.got)
  }

  /** While a request waits for its answer, one of the two programs can move. */
  lemma WaitingIsNeverStuck<Q(!new), A(!new)>(sv: Service<Q, A>, x: Exchange<Q, A>, c: Counters)
    requires Sound(sv) && ExchangeAt(sv, x, c) && x.phase.Waiting?
    ensures Deliverable(x.client, x.server) || !x.serving.Listening? || Deliverable(x.server, x.client)
  {
    var n := |x.requests|;
    var t := ScriptOf(sv, x.requests);
    if x.serving.Listening? && !Deliverable(x.server, x.client) {
      assert x.client.ep.out.All() == x.client.ep.out.shipped && x.server.ep.out.All() == x.server.ep.out.shipped;
      assert |ClientOutput(t, 3)| == 3 * n + 1;
    }
  }

  /** The same quantity, from the counters. */
  function WorkAt(n: nat, serving: ServerPhase, c: Counters): int {
    8 * ((if n == 0 then 1 else 3 * n - 2 + c.part) - (1 + 3 * c.k + c.got)) + ServingRank(serving)
    + (1 + 3 * c.k + c.sent - ClientGot(n, c.back))
  }

  lemma WorkIs<Q(!new), A(!new)>(sv: Service<Q, A>, x: Exchange<Q, A>, c: Counters)
    requires ExchangeAt(sv, x, c)
    ensures WorkLeft(x) == WorkAt(|x.requests|, x.serving, c) && WorkLeft(x) >= 0
    ensures x.phase.Waiting? ==> c.part == 3 && c.back < 3
    ensures ServingAt(ScriptOf(sv, x.requests), x.serving, c.k, c.got, c.sent)
  {
    var t := ScriptOf(sv, x.requests);
    assert |ServerOutput(t, c.k, c.sent)| == 1 + 3 * c.k + c.sent;
  }

  lemma LessWork<Q(!new), A(!new)>(sv: Service<Q, A>, x: Exchange<Q, A>, x': Exchange<Q, A>, c: Counters, c': Counters)
    requires ExchangeAt(sv, x, c) && ExchangeAt(sv, x', c') && x'.requests == x.requests
    requires WorkAt(|x.requests|, x'.serving, c') < WorkAt(|x.requests|, x.serving, c)
    ensures WorkLeft(x') < WorkLeft(x)
  {
    WorkIs(sv, x, c);
    WorkIs(sv, x', c');
  }

  lemma ReceivingIsProgress<Q(!new), A(!new)>(sv: Service<Q, A>, x: Exchange<Q, A>, s: u32, c: Counters)
    requires Sound(sv) && ExchangeAt(sv, x, c) && x.phase == Waiting(s) && Deliverable(x.client, x.server)
    ensures WorkLeft(ReceiveAnswer(sv, x, s)) < WorkLeft(x)
  {
    ReceiveKeeps(sv, x, s, c);
    AnswerIsLessWork(sv, x, ReceiveAnswer(sv, x, s), c);
  }

  lemma AnswerIsLessWork<Q(!new), A(!new)>(sv: Service<Q, A>, x: Exchange<Q, A>, y: Exchange<Q, A>, c: Counters)
    requires ExchangeAt(sv, x, c) && ExchangeAt(sv, y, c.(back := c.back + 1))
    requires y.requests == x.requests && y.serving == x.serving && x.phase.Waiting?
    ensures WorkLeft(y) < WorkLeft(x)
  {
    WorkIs(sv, x, c);
    WorkIs(sv, y, c.(back := c.back + 1));
  }

  lemma ReceiptIsProgress<Q(!new), A(!new)>(sv: Service<Q, A>, x: Exchange<Q, A>, c: Counters)
    requires Sound(sv) && ExchangeAt(sv, x, c) && x.serving.Listening? && Deliverable(x.server, x.client)
    ensures WorkLeft(ReceiveRequest(x)) < WorkLeft(x)
  {
    ServerReceiveKeeps(sv, x, c);
    ReceiptIsLessWork(sv, x, ReceiveRequest(x), c);
  }

  lemma ReceiptIsLessWork<Q(!new), A(!new)>(sv: Service<Q, A>, x: Exchange<Q, A>, y: Exchange<Q, A>, c: Counters)
    requires ExchangeAt(sv, x, c) && ExchangeAt(sv, y, AfterReceipt(c)) && y.requests == x.requests
    requires x.serving.Listening?
    ensures WorkLeft(y) < WorkLeft(x)
  {
    WorkIs(sv, x, c);
    WorkIs(sv, y, AfterReceipt(c));
  }

  lemma TakingIsProgress<Q(!new), A(!new)>(sv: Service<Q, A>, x: Exchange<Q, A>, s: u32, c: Counters)
    requires Sound(sv) && ExchangeAt(sv, x, c) && x.serving == Arrived(s)
    ensures WorkLeft(TakeRequest(x, s)) < WorkLeft(x)
  {
    PopKeeps(sv, x, s, c);
    LessWork(sv, x, TakeRequest(x, s), c, c.(sent := 1));
  }

  lemma AnsweringIsProgress<Q(!new), A(!new)>(sv: Service<Q, A>, x: Exchange<Q, A>, s: u32, bytes: seq<byte>,
                                              c: Counters)
    requires Sound(sv) && ExchangeAt(sv, x, c) && x.serving == Handling(s, bytes)
    ensures WorkLeft(AnswerRequest(sv, x, s, bytes)) < WorkLeft(x)
  {
    AnswerKeeps(sv, x, s, bytes, c);
    LessWork(sv, x, AnswerRequest(sv, x, s, bytes), c, c.(sent := 2));
  }

  lemma ClosingIsProgress<Q(!new), A(!new)>(sv: Service<Q, A>, x: Exchange<Q, A>, s: u32, c: Counters)
    requires Sound(sv) && ExchangeAt(sv, x, c) && x.serving == Answered(s)
    ensures WorkLeft(CloseAnswer(x, s)) < WorkLeft(x)
  {
    ServerCloseKeeps(sv, x, s, c);
    LessWork(sv, x, CloseAnswer(x, s), c, c.(sent := 3));
  }

  lemma FlushingIsProgress<Q(!new), A(!new)>(sv: Service<Q, A>, x: Exchange<Q, A>, s: u32, c: Counters)
    requires Sound(sv) && ExchangeAt(sv, x, c) && x.serving == Finished(s)
    ensures WorkLeft(FlushAnswer(x)) < WorkLeft(x)
  {
    ServerFlushKeeps(sv, x, s, c);
    LessWork(sv, x, FlushAnswer(x), c, c);
  }

  lemma ServingIsProgress<Q(!new), A(!new)>(sv: Service<Q, A>, x: Exchange<Q, A>, c: Counters)
    requires Sound(sv) && ExchangeAt(sv, x, c) && (x.serving.Listening? ==> Deliverable(x.server, x.client))
    ensures WorkLeft(ServerMove(sv, x)) < WorkLeft(x)
  {
    match x.serving
    case Listening => ReceiptIsProgress(sv, x, c);
    case Arrived(s) => TakingIsProgress(sv, x, s, c);
    case Handling(s, bytes) => AnsweringIsProgress(sv, x, s, bytes, c);
    case Answered(s) => ClosingIsProgress(sv, x, s, c);
    case Finished(s) => FlushingIsProgress(sv, x, s, c);
    case ServerFailed =>
  }

  /** Every move of either program that does something leaves less work: the
      answer arrives after a bounded number of moves, however they interleave. */
  lemma MovesMakeProgress<Q(!new), A(!new)>(sv: Service<Q, A>, x: Exchange<Q, A>, q: Q, c: Counters)
    requires Sound(sv) && ExchangeAt(sv, x, c) && x.phase.Waiting?
    ensures WorkLeft(x) >= 0
    ensures Deliverable(x.client, x.server) ==> WorkLeft(ClientMove(sv, x, q)) < WorkLeft(x)
    ensures !x.serving.Listening? || Deliverable(x.server, x.client) ==> WorkLeft(ServerMove(sv, x)) < WorkLeft(x)
  {
    WorkIs(sv, x, c);
    if Deliverable(x.client, x.server) {
      ReceivingIsProgress(sv, x, x.phase.s, c);
    }
    if !x.serving.Listening? || Deliverable(x.server, x.client) {
      ServingIsProgress(sv, x, c);
    }
  }

  // ---- The same, over whole plays ----

  /** A move that does something to a client that waits: a program that is in
      `recv_frame` has a frame to receive. */
  predicate Effective<Q, A>(x: Exchange<Q, A>, m: Move<Q>) {
    match m
    case Client(_) => Deliverable(x.client, x.server)
    case Server => !x.serving.Listening? || Deliverable(x.server, x.client)
  }

  /** How many of these moves do something, after `moves`. */
  function Effects<Q, A>(sv: Service<Q, A>, moves: seq<Move<Q>>, more: seq<Move<Q>>): nat
    decreases |more|
  {
    if more == [] then 0
    else (if Effective(Play(sv, moves), more[0]) then 1 else 0) + Effects(sv, moves + [more[0]], more[1..])
  }

  lemma PlayOn<Q, A>(sv: Service<Q, A>, moves: seq<Move<Q>>, m: Move<Q>)
    ensures Play(sv, moves + [m]) ==
            match m
            case Client(q) => ClientMove(sv, Play(sv, moves), q)
            case Server => ServerMove(sv, Play(sv, moves))
  {
    assert (moves + [m])[..|moves|] == moves;
  }

  /** In every play, one of the two programs can move while the client waits. */
  lemma SomeMoveIsEffective<Q(!new), A(!new)>(sv: Service<Q, A>, moves: seq<Move<Q>>, q: Q)
    requires Sound(sv) && |Play(sv, moves).requests| <= MAX_REQUESTS && Play(sv, moves).phase.Waiting?
    ensures Effective(Play(sv, moves), Client(q)) || Effective(Play(sv, moves), Move<Q>.Server)
  {
    var c := PlayKeeps(sv, moves);
    WaitingIsNeverStuck(sv, Play(sv, moves), c);
  }

  /** One move of a waiting play: it changes nothing, or leaves less work, and the
      client then waits on, or has its answer. */
  lemma MoveOfWaiting<Q(!new), A(!new)>(sv: Service<Q, A>, moves: seq<Move<Q>>, m: Move<Q>)
    requires Sound(sv) && |Play(sv, moves).requests| <= MAX_REQUESTS && Play(sv, moves).phase.Waiting?
    ensures var (x, y) := (Play(sv, moves), Play(sv, moves + [m]));
            && y.requests == x.requests && (y.phase == x.phase || y.phase.Idle?) && WorkLeft(x) >= 0
            && if Effective(x, m) then WorkLeft(y) < WorkLeft(x) else y == x
  {
    var x := Play(sv, moves);
    var c := PlayKeeps(sv, moves);
    PlayOn(sv, moves, m);
    match m
    case Client(q) =>
      MovesMakeProgress(sv, x, q, c);
      WaitingClient(sv, x, q);
      EveryAnswerIsRight(sv, moves + [m]);
    case Server => ServerWhileWaiting(sv, x, c);
  }

  lemma WaitingClient<Q, A>(sv: Service<Q, A>, x: Exchange<Q, A>, q: Q)
    requires x.phase.Waiting?
    ensures var y := ClientMove(sv, x, q);
            && y.requests == x.requests && (y.phase == x.phase || y.phase.Idle? || y.phase.ClientFailed?)
            && (!Deliverable(x.client, x.server) ==> y == x)
  {
  }

  lemma ServerWhileWaiting<Q(!new), A(!new)>(sv: Service<Q, A>, x: Exchange<Q, A>, c: Counters)
    requires Sound(sv) && ExchangeAt(sv, x, c) && x.phase.Waiting?
    ensures var y := ServerMove(sv, x);
            && y.requests == x.requests && y.phase == x.phase && WorkLeft(x) >= 0
            && if Effective(x, Move<Q>.Server) then WorkLeft(y) < WorkLeft(x) else y == x
  {
    WorkIs(sv, x, c);
    if !x.serving.Listening? || Deliverable(x.server, x.client) {
      ServingIsProgress(sv, x, c);
    }
  }

  /** The client waits, and these moves are enough to bring the answer. */
  ghost predicate Enough<Q(!new), A(!new)>(sv: Service<Q, A>, moves: seq<Move<Q>>, more: seq<Move<Q>>, qs: seq<Q>) {
    && |qs| <= MAX_REQUESTS && Play(sv, moves).requests == qs && Play(sv, moves).phase.Waiting?
    && Effects(sv, moves, more) > WorkLeft(Play(sv, moves))
  }

  ghost predicate BackToIdle<Q, A>(sv: Service<Q, A>, moves: seq<Move<Q>>, qs: seq<Q>) {
    Play(sv, moves).requests == qs && Play(sv, moves).phase.Idle?
  }

  lemma FirstOfEnough<Q(!new), A(!new)>(sv: Service<Q, A>, moves: seq<Move<Q>>, more: seq<Move<Q>>, qs: seq<Q>)
    requires Sound(sv) && Enough(sv, moves, more, qs) && more != []
    ensures BackToIdle(sv, moves + [more[0]], qs) || Enough(sv, moves + [more[0]], more[1..], qs)
  {
    MoveOfWaiting(sv, moves, more[0]);
  }

  lemma NoMoveIsNotEnough<Q(!new), A(!new)>(sv: Service<Q, A>, moves: seq<Move<Q>>, qs: seq<Q>)
    requires Sound(sv)
    ensures !Enough(sv, moves, [], qs)
  {
    if Enough(sv, moves, [], qs) {
      var c := PlayKeeps(sv, moves);
      WorkIs(sv, Play(sv, moves), c);
    }
  }

  lemma {:induction false} EnoughIsEnough<Q(!new), A(!new)>(sv: Service<Q, A>, moves: seq<Move<Q>>,
                                                           more: seq<Move<Q>>, qs: seq<Q>)
    returns (end: seq<Move<Q>>)
    requires Sound(sv) && Enough(sv, moves, more, qs)
    ensures moves <= end <= moves + more && BackToIdle(sv, end, qs)
    decreases |more|
  {
    if more == [] {
      NoMoveIsNotEnough(sv, moves, qs);
      assert false;
    } else {
      var next := moves + [more[0]];
      assert next + more[1..] == moves + more;
      FirstOfEnough(sv, moves, more, qs);
      if BackToIdle(sv, next, qs) {
        end := next;
      } else {
        end := EnoughIsEnough(sv, next, more[1..], qs);
      }
    }
  }

  /** From any play in which the client waits, more than `WorkLeft` moves that do
      something, however the programs interleave, bring its answer: before they are
      over the client is idle again, and its answers are the handler's. */
  lemma AnswerArrives<Q(!new), A(!new)>(sv: Service<Q, A>, moves: seq<Move<Q>>, more: seq<Move<Q>>)
    returns (end: seq<Move<Q>>)
    requires Sound(sv) && |Play(sv, moves).requests| <= MAX_REQUESTS && Play(sv, moves).phase.Waiting?
    requires Effects(sv, moves, more) > WorkLeft(Play(sv, moves))
    ensures moves <= end <= moves + more
    ensures var (x, y) := (Play(sv, moves), Play(sv, end));
            && y.phase.Idle? && y.requests == x.requests && |y.answers| == |x.requests|
            && forall i :: 0 <= i < |x.requests| ==> y.answers[i] == sv.handler(x.requests[i])
  {
    end := EnoughIsEnough(sv, moves, more, Play(sv, moves).requests);
    EveryAnswerIsRight(sv, end);
  }

  // ---- The moves are the programs ----

  /** The first four moves of an idle client are what `send_request` does before its
      receive loop. */
  lemma SubmitIsFourMoves<Q, A>(sv: Service<Q, A>, x: Exchange<Q, A>, q: Q)
    requires x.phase.Idle?
    ensures var r := Submit(x.client.ep, sv.writeRequest(q));
            var y := ClientMove(sv, ClientMove(sv, ClientMove(sv, ClientMove(sv, x, q), q), q), q);
            && y.client.ep == r.state && y.requests == x.requests + [q]
            && y.phase == if r.result.Ok? then Waiting(r.result.value) else ClientFailed
  {
    var begun := BeginRequest(x, q);
    if !begun.phase.ClientFailed? {
      var sent := SendRequest(begun, begun.phase.s, sv.writeRequest(q));
      if !sent.phase.ClientFailed? {
        var closed := CloseRequest(sent, sent.phase.s);
        assert ClientMove(sv, closed, q) == if closed.phase.Shut? then FlushRequest(closed, closed.phase.s) else closed;
      }
    }
  }

  /** The moves of a server that has a Data frame are what the serving loop does
      about it: one if there is nothing to answer, and otherwise four. */
  lemma RespondIsItsMoves<Q, A>(sv: Service<Q, A>, x: Exchange<Q, A>, s: u32)
    requires x.serving == Arrived(s)
    ensures var r := Respond(sv, x.server.ep, s);
            var y := ServerMove(sv, x);
            var z := ServerMove(sv, ServerMove(sv, ServerMove(sv, y)));
            && (y.serving.Listening? ==> y.server.ep == r.state && r.result.Ok?)
            && (!y.serving.Listening? ==>
                  && z.server.ep == r.state
                  && (r.result.Ok? ==> z.serving.Listening?) && (r.result.Err? ==> z.serving.ServerFailed?))
  {
    var y := TakeRequest(x, s);
    if y.serving.Handling? {
      var bytes := y.serving.bytes;
      var answered := AnswerRequest(sv, y, s, bytes);
      if answered.serving.Answered? {
        CompleteIsTwoMoves(sv, answered, s);
      }
    }
  }

  lemma CompleteIsTwoMoves<Q, A>(sv: Service<Q, A>, x: Exchange<Q, A>, s: u32)
    requires x.serving == Answered(s)
    ensures var closed := CloseStream(x.server.ep, s);
            var z := ServerMove(sv, ServerMove(sv, x));
            && z.server.ep == (if closed.result.Ok? then FlushAll(closed.state) else closed.state)
            && z.serving == if closed.result.Ok? then Listening else ServerFailed
  {
    var y := CloseAnswer(x, s);
    assert ServerMove(sv, y) == if y.serving.Finished? then FlushAnswer(y) else y;
  }
}
