/** The two programs run to completion, over all the bytes that arrive: each
    `send_request` returns the handler's answer, and the serving loop answers every
    request (`trench-cli/src/client.rs`, `transport/src/server/resilient_server.rs`). */
module SequentialRequests {
  import opened Bytes
  import opened TransportErrors
  import opened Frames
  import opened Protocol
  import opened Programs
  import opened TwoParty
  import opened RequestResponse
  import C = Connection
  import M = Manager

  // ---- The client ----

  /** The frames that end the current exchange at the client. */
  function Arriving(t: Script, back: nat): seq<Frame>
    requires t.Valid() && t.requests != [] && ClientAt(|t.requests|, 3, back)
    decreases 3 - back
  {
    if back == 3 then [] else [ClientNext(t, back)] + Arriving(t, back + 1)
  }

  lemma NextIsValid(t: Script, back: nat)
    requires t.Valid() && ClientAt(|t.requests|, 3, back) && back < 3
    ensures ValidFrame(ClientNext(t, back))
  {
  }

  /** What the client makes of each of them. */
  lemma ReactsTo<Q, A>(sv: Service<Q, A>, t: Script, back: nat)
    requires t.Valid() && t.requests != [] && ClientAt(|t.requests|, 3, back) && back < 3
    requires sv.readAnswer(t.answers[|t.requests| - 1]).Some?
    ensures React(sv, Id(|t.requests| - 1), ClientNext(t, back)) ==
            if back < 2 then Ignore else Answer(sv.readAnswer(t.answers[|t.requests| - 1]).value)
  {
  }

  /** One turn of the receive loop on an encoded frame. */
  lemma AwaitStep<Q, A>(sv: Service<Q, A>, e: Endpoint, f: Frame, rest: seq<byte>, s: u32)
    requires ValidFrame(f) && HandleFrame(e, f).result == Ok(f)
    ensures Await(sv, e, Encode(f) + rest, s) ==
            match React(sv, s, f)
            case Ignore => Await(sv, HandleFrame(e, f).state, rest, s)
            case Answer(a) => (Reply(HandleFrame(e, f).state, Ok(a)), rest)
            case Fail(err) => (Reply(HandleFrame(e, f).state, Err(err)), rest)
  {
    C.ReceivesNextFrame(f, rest);
  }

  lemma {:induction false} AwaitFinds<Q, A>(sv: Service<Q, A>, t: Script, e: Endpoint, back: nat, rest: seq<byte>)
    requires t.requests != [] && back < 3 && ClientIs(t, e, 3, back)
    requires sv.readAnswer(t.answers[|t.requests| - 1]).Some?
    ensures var (r, left) := Await(sv, e, EncodeAll(Arriving(t, back)) + rest, Id(|t.requests| - 1));
            && r.result == Ok(sv.readAnswer(t.answers[|t.requests| - 1]).value)
            && left == rest && ClientIs(t, r.state, 3, 3)
    decreases 3 - back
  {
    var f := ClientNext(t, back);
    var later := EncodeAll(Arriving(t, back + 1)) + rest;
    EncodeAllCons(f, Arriving(t, back + 1));
    ConcatAssociates(Encode(f), EncodeAll(Arriving(t, back + 1)), rest);
    NextIsValid(t, back);
    ClientHandles(t, e, back);
    ReactsTo(sv, t, back);
    AwaitStep(sv, e, f, later, Id(|t.requests| - 1));
    if back < 2 {
      AwaitFinds(sv, t, HandleFrame(e, f).state, back + 1, rest);
    } else {
      assert later == rest;
    }
  }

  /** `send_request` on a client that has had its earlier answers, given the bytes of
      the frames that answer this request: it returns the handler's answer, leaves
      later bytes unread, and is ready for the next request. */
  lemma RequestIsAnswered<Q(!new), A(!new)>(sv: Service<Q, A>, qs: seq<Q>, e: Endpoint, q: Q, rest: seq<byte>)
    requires Sound(sv) && |qs| < MAX_REQUESTS && ClientIs(ScriptOf(sv, qs), e, 3, 3)
    ensures var t := ScriptOf(sv, qs + [q]);
            var back := if qs == [] then 1 else 0;
            && t.Valid()
            && var (r, left) := Request(sv, e, EncodeAll(Arriving(t, back)) + rest, q);
               r.result == Ok(sv.handler(q)) && left == rest && ClientIs(t, r.state, 3, 3)
  {
    var t := ScriptOf(sv, qs + [q]);
    var back := if qs == [] then 1 else 0;
    ScriptGrows(sv, qs, q);
    SubmitIsAccepted(ScriptOf(sv, qs), e, sv.writeRequest(q), sv.writeAnswer(sv.handler(q)));
    AnswerBytes(sv, qs + [q], |qs|);
    var e' := Submit(e, sv.writeRequest(q)).state;
    AwaitFinds(sv, t, e', back, rest);
    assert Request(sv, e, EncodeAll(Arriving(t, back)) + rest, q)
        == Await(sv, e', EncodeAll(Arriving(t, back)) + rest, Id(|qs|));
  }

  lemma SubmitIsAccepted(t: Script, e: Endpoint, q: seq<byte>, a: seq<byte>)
    requires ClientIs(t, e, 3, 3) && t.Add(q, a).Valid()
    ensures var r := Submit(e, q);
            r.result == Ok(Id(|t.requests|)) && ClientIs(t.Add(q, a), r.state, 3, if t.requests == [] then 1 else 0)
  {
    var t' := t.Add(q, a);
    var back := if t.requests == [] then 1 else 0;
    ClientOpens(t, e, q, a);
    var begun := OpenStream(e).state;
    ClientSendsRequest(t', begun, back);
    var sent := SendData(begun, Id(|t.requests|), q).state;
    ClientCloses(t', sent, back);
    ClientFlushes(t', CloseStream(sent, Id(|t.requests|)).state, back);
  }

  // ---- The server ----

  /** The serving loop on the frames that arrive, whatever their chunking. */
  function ServeFrames<Q, A>(sv: Service<Q, A>, e: Endpoint, fs: seq<Frame>, end: TransportError): Reply<()>
    decreases |fs|
  {
    if fs == [] then Reply(e, if end.ConnectionClosed? then Ok(()) else Err(end))
    else
      var r := HandleFrame(e, fs[0]);
      if r.result.Err? then Reply(r.state, if r.result.error.ConnectionClosed? then Ok(()) else Err(r.result.error))
      else if fs[0].header.frameType.Data? then
        var done := Respond(sv, r.state, fs[0].header.streamId);
        if done.result.Err? then Reply(done.state, Err(done.result.error))
        else ServeFrames(sv, done.state, fs[1..], end)
      else if fs[0].header.frameType.Error? then Reply(r.state, Err(RemoteErrorOf(fs[0], _ => InternalError)))
      else ServeFrames(sv, r.state, fs[1..], end)
  }

  lemma {:induction false} ServesTheFrames<Q, A>(sv: Service<Q, A>, e: Endpoint, unread: seq<byte>)
    ensures Serve(sv, e, unread).0 == ServeFrames(sv, e, C.Drain(unread).0, C.Drain(unread).1)
    decreases |unread|
  {
    match C.Receive(unread)
    case (Err(_), _) =>
    case (Ok(f), rest) =>
      var r := HandleFrame(e, f);
      assert C.Drain(unread).0[0] == f && C.Drain(unread).0[1..] == C.Drain(rest).0;
      ServesTheFrames(sv, Respond(sv, r.state, f.header.streamId).state, rest);
      ServesTheFrames(sv, r.state, rest);
  }

  /** The script's answers are those of the service. */
  predicate Answers<Q, A>(sv: Service<Q, A>, t: Script)
    requires t.Valid()
  {
    forall k :: 0 <= k < |t.requests| ==> AnswersOne(sv, t.requests[k], t.answers[k])
  }

  predicate AnswersOne<Q, A>(sv: Service<Q, A>, request: seq<byte>, answer: seq<byte>) {
    sv.readRequest(request).Some? && sv.writeAnswer(sv.handler(sv.readRequest(request).value)) == answer
  }

  lemma RespondAnswers<Q, A>(sv: Service<Q, A>, t: Script, e: Endpoint, k: nat)
    requires ServerIs(t, e, k, 2, 0) && AnswersOne(sv, t.requests[k], t.answers[k])
    ensures Respond(sv, e, Id(k)).result == Ok(()) && ServerIs(t, Respond(sv, e, Id(k)).state, k, 2, 3)
  {
    ServerPops(t, e, k);
    CompleteAnswers(t, RecvData(e, Id(k)).state, k);
  }

  lemma CompleteAnswers(t: Script, e: Endpoint, k: nat)
    requires ServerIs(t, e, k, 2, 1)
    ensures var r := Complete(e, Id(k), t.answers[k]); r.result == Ok(()) && ServerIs(t, r.state, k, 2, 3)
  {
    ServerAnswers(t, e, k);
    var sent := SendData(e, Id(k), t.answers[k]).state;
    ServerCloses(t, sent, k);
    ServerFlushes(t, CloseStream(sent, Id(k)).state, k);
  }

  /** The frames of the requests from `k` on. */
  function RequestsFrom(t: Script, k: nat): seq<Frame>
    requires t.Valid() && k <= |t.requests|
    decreases |t.requests| - k
  {
    if k == |t.requests| then [] else RequestFrames(t, k) + RequestsFrom(t, k + 1)
  }

  /** One request, from its Open to its Close. */
  lemma ServeOne<Q, A>(sv: Service<Q, A>, t: Script, e: Endpoint, k: nat, later: seq<Frame>, end: TransportError)
    returns (e': Endpoint)
    requires ServerIs(t, e, k, 0, 0) && k < |t.requests| && AnswersOne(sv, t.requests[k], t.answers[k])
    ensures ServeFrames(sv, e, RequestFrames(t, k) + later, end) == ServeFrames(sv, e', later, end)
    ensures ServerIs(t, e', k + 1, 0, 0)
  {
    var fs := RequestFrames(t, k);
    var (f, g, h) := (fs[0], fs[1], fs[2]);
    assert fs + later == [f] + ([g] + ([h] + later));
    ServerHandles(t, e, k, 0, 0);
    var e1 := HandleFrame(e, f).state;
    ServerHandles(t, e1, k, 1, 0);
    var e2 := HandleFrame(e1, g).state;
    RespondAnswers(sv, t, e2, k);
    var e3 := Respond(sv, e2, Id(k)).state;
    ServerHandles(t, e3, k, 2, 3);
    ServeStep(sv, e, f, [g] + ([h] + later), end);
    ServeStep(sv, e1, g, [h] + later, end);
    ServeStep(sv, e3, h, later, end);
    e' := HandleFrame(e3, h).state;
  }

  lemma ServeStep<Q, A>(sv: Service<Q, A>, e: Endpoint, f: Frame, later: seq<Frame>, end: TransportError)
    requires HandleFrame(e, f).result == Ok(f) && !f.header.frameType.Error?
    requires f.header.frameType.Data? ==> Respond(sv, HandleFrame(e, f).state, f.header.streamId).result.Ok?
    ensures var e' := HandleFrame(e, f).state;
            ServeFrames(sv, e, [f] + later, end) ==
            ServeFrames(sv, if f.header.frameType.Data? then Respond(sv, e', f.header.streamId).state else e',
                        later, end)
  {
    assert ([f] + later)[1..] == later;
  }

  lemma ServeNext<Q, A>(sv: Service<Q, A>, t: Script, e: Endpoint, k: nat) returns (e': Endpoint)
    requires ServerIs(t, e, k, 0, 0) && Answers(sv, t) && k < |t.requests|
    ensures ServerIs(t, e', k + 1, 0, 0)
    ensures ServeFrames(sv, e, RequestsFrom(t, k), ConnectionClosed)
         == ServeFrames(sv, e', RequestsFrom(t, k + 1), ConnectionClosed)
  {
    assert AnswersOne(sv, t.requests[k], t.answers[k]);
    e' := ServeOne(sv, t, e, k, RequestsFrom(t, k + 1), ConnectionClosed);
  }

  lemma ServesNone<Q, A>(sv: Service<Q, A>, t: Script, e: Endpoint)
    requires ServerIs(t, e, |t.requests|, 0, 0)
    ensures ServeFrames(sv, e, RequestsFrom(t, |t.requests|), ConnectionClosed) == Reply(e, Ok(()))
  {
  }

  lemma ServesThrough<Q, A>(sv: Service<Q, A>, t: Script, e: Endpoint) returns (last: Endpoint)
    requires ServerIs(t, e, 0, 0, 0) && Answers(sv, t)
    ensures ServeFrames(sv, e, RequestsFrom(t, 0), ConnectionClosed) == Reply(last, Ok(()))
    ensures ServerIs(t, last, |t.requests|, 0, 0)
  {
    last := e;
    for k := 0 to |t.requests|
      invariant ServerIs(t, last, k, 0, 0)
      invariant ServeFrames(sv, e, RequestsFrom(t, 0), ConnectionClosed)
             == ServeFrames(sv, last, RequestsFrom(t, k), ConnectionClosed)
    {
      last := ServeNext(sv, t, last, k);
    }
    ServesNone(sv, t, last);
  }

  lemma {:induction false} RequestsAreValid(t: Script, k: nat)
    requires t.Valid() && k <= |t.requests|
    ensures C.AllValid(RequestsFrom(t, k))
    decreases |t.requests| - k
  {
    if k < |t.requests| {
      RequestsAreValid(t, k + 1);
      RequestFramesAreValid(t, k);
    }
  }

  lemma RequestFramesAreValid(t: Script, k: nat)
    requires t.Valid() && k < |t.requests|
    ensures C.AllValid(RequestFrames(t, k))
  {
  }

  /** The serving loop on the bytes of any number of requests, even if the connection
      ends within another frame: it ends without an error, having sent exactly the
      answers, in order. */
  lemma ServesAll<Q(!new), A(!new)>(sv: Service<Q, A>, qs: seq<Q>, e: Endpoint, torn: Frame, cut: nat)
    requires Sound(sv) && ServerIs(ScriptOf(sv, qs), e, 0, 0, 0) && ValidFrame(torn) && cut < |Encode(torn)|
    ensures var t := ScriptOf(sv, qs);
            var r := Serve(sv, e, EncodeAll(RequestsFrom(t, 0)) + Encode(torn)[..cut]).0;
            r.result == Ok(()) && r.state.streams == map[] && r.state.out.All() == ServerFrames(t, |qs|)
  {
    var t := ScriptOf(sv, qs);
    ServiceAnswers(sv, qs);
    RequestsAreValid(t, 0);
    C.DrainsExactlyWhatWasSent(RequestsFrom(t, 0), torn, cut);
    ServesTheFrames(sv, e, EncodeAll(RequestsFrom(t, 0)) + Encode(torn)[..cut]);
    var last := ServesThrough(sv, t, e);
  }

  lemma ServiceAnswers<Q(!new), A(!new)>(sv: Service<Q, A>, qs: seq<Q>)
    requires Sound(sv) && ScriptOf(sv, qs).Valid()
    ensures Answers(sv, ScriptOf(sv, qs))
  {
    forall k | 0 <= k < |qs|
      ensures AnswersOne(sv, ScriptOf(sv, qs).requests[k], ScriptOf(sv, qs).answers[k])
    {
      AnswerBytes(sv, qs, k);
    }
  }

  // ---- The conversation, from the handshake on ----

  /** `send_request` for each of `qs` in turn, on one manager. */
  function RequestAll<Q, A>(sv: Service<Q, A>, e: Endpoint, unread: seq<byte>, qs: seq<Q>)
    : (seq<Result<A>>, Endpoint, seq<byte>)
  {
    if qs == [] then ([], e, unread)
    else
      var (results, e', left) := RequestAll(sv, e, unread, qs[..|qs| - 1]);
      var (r, left') := Request(sv, e', left, qs[|qs| - 1]);
      (results + [r.result], r.state, left')
  }

  /** What the server sends after its Welcome, up to the last answer. */
  function Awaited(t: Script): seq<Frame>
    requires t.Valid()
  {
    var n := |t.requests|;
    if n == 0 then [] else ServerFrames(t, n)[1..3 * n]
  }

  lemma AwaitedGrows(t: Script, q: seq<byte>, a: seq<byte>)
    requires t.Valid() && t.Add(q, a).Valid()
    ensures Awaited(t.Add(q, a)) == Awaited(t) + Arriving(t.Add(q, a), if t.requests == [] then 1 else 0)
  {
    var (n, t') := (|t.requests|, t.Add(q, a));
    FramesSurviveGrowth(t, q, a, n);
    assert ServerFrames(t', n + 1) == ServerFrames(t, n) + AnswerFrames(t', n);
    assert Arriving(t', 1) == AnswerFrames(t', n)[..2];
    if n > 0 {
      assert ServerFrames(t, n)[1..] == Awaited(t) + [ClientNext(t', 0)];
      assert Awaited(t') == ServerFrames(t, n)[1..] + AnswerFrames(t', n)[..2];
    }
  }

  ghost predicate AllAnswered<Q, A>(sv: Service<Q, A>, qs: seq<Q>, results: seq<Result<A>>) {
    |results| == |qs| && forall i :: 0 <= i < |qs| ==> results[i] == Ok(sv.handler(qs[i]))
  }

  lemma NextIsAnswered<Q, A>(sv: Service<Q, A>, qs: seq<Q>, q: Q, results: seq<Result<A>>)
    requires AllAnswered(sv, qs, results)
    ensures AllAnswered(sv, qs + [q], results + [Ok(sv.handler(q))])
  {
  }

  lemma RequestAllSteps<Q, A>(sv: Service<Q, A>, e: Endpoint, unread: seq<byte>, qs: seq<Q>, q: Q)
    ensures var (results, e', left) := RequestAll(sv, e, unread, qs);
            var (r, left') := Request(sv, e', left, q);
            RequestAll(sv, e, unread, qs + [q]) == (results + [r.result], r.state, left')
  {
    assert (qs + [q])[..|qs|] == qs;
  }

  lemma AwaitedBytes(t: Script, q: seq<byte>, a: seq<byte>, rest: seq<byte>)
    requires t.Valid() && t.Add(q, a).Valid()
    ensures EncodeAll(Awaited(t.Add(q, a))) + rest ==
            EncodeAll(Awaited(t)) + (EncodeAll(Arriving(t.Add(q, a), if t.requests == [] then 1 else 0)) + rest)
  {
    var now := Arriving(t.Add(q, a), if t.requests == [] then 1 else 0);
    AwaitedGrows(t, q, a);
    EncodeAllAppend(Awaited(t), now);
    ConcatAssociates(EncodeAll(Awaited(t)), EncodeAll(now), rest);
  }

  lemma {:induction false} EveryRequestIsAnswered<Q(!new), A(!new)>(sv: Service<Q, A>, qs: seq<Q>, rest: seq<byte>)
    requires Sound(sv) && |qs| <= MAX_REQUESTS
    ensures var t := ScriptOf(sv, qs);
            && t.Valid()
            && var (results, e, left) := RequestAll(sv, Connected().ini.ep, EncodeAll(Awaited(t)) + rest, qs);
               AllAnswered(sv, qs, results) && left == rest && ClientIs(t, e, 3, 3)
  {
    if qs == [] {
      StartIsIdle();
      assert EncodeAll([]) + rest == rest;
    } else {
      var (before, q) := (qs[..|qs| - 1], qs[|qs| - 1]);
      assert qs == before + [q];
      ScriptGrows(sv, before, q);
      var t := ScriptOf(sv, before);
      var now := EncodeAll(Arriving(ScriptOf(sv, qs), if before == [] then 1 else 0)) + rest;
      AwaitedBytes(t, sv.writeRequest(q), sv.writeAnswer(sv.handler(q)), rest);
      EveryRequestIsAnswered(sv, before, now);
      var (results, e, _) := RequestAll(sv, Connected().ini.ep, EncodeAll(Awaited(t)) + now, before);
      RequestIsAnswered(sv, before, e, q, rest);
      RequestAllSteps(sv, Connected().ini.ep, EncodeAll(Awaited(t)) + now, before, q);
      NextIsAnswered(sv, before, q, results);
    }
  }

  lemma {:induction false} ClientSendsRequests(t: Script, k: nat)
    requires t.Valid() && k <= |t.requests|
    ensures ClientFrames(t, k) + RequestsFrom(t, k) == [HelloFrame()] + RequestsFrom(t, 0)
  {
    if k > 0 {
      ClientSendsRequests(t, k - 1);
      assert ClientFrames(t, k) + RequestsFrom(t, k) == ClientFrames(t, k - 1) + RequestsFrom(t, k - 1);
    }
  }

  /** What the client reads of all the server sends. */
  lemma AwaitedIsSent(t: Script) returns (rest: seq<byte>)
    requires t.Valid()
    ensures EncodeAll(ServerFrames(t, |t.requests|)[1..]) == EncodeAll(Awaited(t)) + rest
  {
    var n := |t.requests|;
    var last := if n == 0 then [] else ServerFrames(t, n)[3 * n..];
    assert ServerFrames(t, n)[1..] == Awaited(t) + last;
    EncodeAllAppend(Awaited(t), last);
    rest := EncodeAll(last);
  }

  lemma ServerCompletes<Q(!new), A(!new)>(sv: Service<Q, A>, qs: seq<Q>) returns (server: Endpoint)
    requires Sound(sv) && ScriptOf(sv, qs).Valid()
    ensures var t := ScriptOf(sv, qs);
            && Serve(sv, Connected().acc.ep, EncodeAll(RequestsFrom(t, 0))).0 == Reply(server, Ok(()))
            && server.out.All() == ServerFrames(t, |qs|)
  {
    var bytes := EncodeAll(RequestsFrom(ScriptOf(sv, qs), 0));
    StartIsIdle();
    ServesAll(sv, qs, Connected().acc.ep, HelloFrame(), 0);
    assert bytes + Encode(HelloFrame())[..0] == bytes;
    server := Serve(sv, Connected().acc.ep, bytes).0.state;
  }

  lemma ServerFramesBegin(t: Script, k: nat)
    requires t.Valid() && k <= |t.requests|
    ensures ServerFrames(t, k)[0] == WelcomeFrame()
  {
  }

  lemma ClientCompletes<Q(!new), A(!new)>(sv: Service<Q, A>, qs: seq<Q>)
    requires Sound(sv) && |qs| <= MAX_REQUESTS
    ensures var t := ScriptOf(sv, qs);
            && t.Valid()
            && var (results, e, _) := RequestAll(sv, Connected().ini.ep, EncodeAll(ServerFrames(t, |qs|)[1..]), qs);
               AllAnswered(sv, qs, results) && e.out.All() == ClientFrames(t, |qs|)
  {
    var t := ScriptOf(sv, qs);
    ScriptIsValid(sv, qs);
    var rest := AwaitedIsSent(t);
    EveryRequestIsAnswered(sv, qs, rest);
    assert qs != [] ==> ClientOutput(t, 3) == ClientFrames(t, |qs|);
  }

  lemma ScriptIsValid<Q(!new), A(!new)>(sv: Service<Q, A>, qs: seq<Q>)
    requires Sound(sv) && |qs| <= MAX_REQUESTS
    ensures ScriptOf(sv, qs).Valid()
  {
  }

  // ---- From new managers on ----

  /** A client that connects and then makes its requests in turn. */
  function Session<Q, A>(sv: Service<Q, A>, e: Endpoint, unread: seq<byte>, qs: seq<Q>)
    : (seq<Result<A>>, Endpoint, seq<byte>)
  {
    var (begun, left) := M.ShakeHands(e, unread);
    if begun.result.Err? then ([], begun.state, left) else RequestAll(sv, begun.state, left, qs)
  }

  /** A new client is connected once the Welcome has arrived. */
  lemma ClientConnects(bytes: seq<byte>)
    ensures M.ShakeHands(NewEndpoint(Initiator), Encode(WelcomeFrame()) + bytes)
         == (Reply(Connected().ini.ep, Ok(())), bytes)
  {
    C.ReceivesNextFrame(WelcomeFrame(), bytes);
    assert BeginHandshake(NewEndpoint(Initiator)).state
        == Endpoint(Initiator, AwaitingWelcome, 1, map[], Outbox([], [HelloFrame()]));
  }

  /** The serving loop answers the Hello and goes on. */
  lemma ServerConnects<Q, A>(sv: Service<Q, A>, bytes: seq<byte>)
    ensures Serve(sv, NewEndpoint(Acceptor), Encode(HelloFrame()) + bytes) == Serve(sv, Connected().acc.ep, bytes)
  {
    C.ReceivesNextFrame(HelloFrame(), bytes);
    assert HandleFrame(NewEndpoint(Acceptor), HelloFrame()) == Reply(Connected().acc.ep, Ok(HelloFrame()));
  }

  /** Both programs over one connection, from new managers on. On all that the client
      sends (`up`) the server ends without an error, and on all that the server sends
      (`down`) the handshake succeeds and every `send_request` returns the handler's
      answer. */
  lemma ConversationCompletes<Q(!new), A(!new)>(sv: Service<Q, A>, qs: seq<Q>)
    returns (up: seq<Frame>, down: seq<Frame>)
    requires Sound(sv) && |qs| <= MAX_REQUESTS
    ensures var (results, client, _) := Session(sv, NewEndpoint(Initiator), EncodeAll(down), qs);
            AllAnswered(sv, qs, results) && client.out.All() == up
    ensures var served := Serve(sv, NewEndpoint(Acceptor), EncodeAll(up)).0;
            served.result == Ok(()) && served.state.out.All() == down
  {
    ClientCompletes(sv, qs);
    var t := ScriptOf(sv, qs);
    var requests, answers := RequestsFrom(t, 0), ServerFrames(t, |qs|)[1..];
    up, down := [HelloFrame()] + requests, [WelcomeFrame()] + answers;
    ClientSendsRequests(t, |qs|);
    var server := ServerCompletes(sv, qs);
    ServerFramesBegin(t, |qs|);
    EncodeAllCons(HelloFrame(), requests);
    EncodeAllCons(WelcomeFrame(), answers);
    ServerConnects(sv, EncodeAll(requests));
    ClientConnects(EncodeAll(answers));
  }
}
