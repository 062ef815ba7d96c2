/** How the two programs end, on any bytes from any peer
    (`trench-cli/src/client.rs`, `transport/src/server/resilient_server.rs`). */
module ProgramEnds {
  import opened Bytes
  import opened TransportErrors
  import opened Frames
  import opened Protocol
  import opened Programs
  import opened SequentialRequests
  import C = Connection

  /** The endpoint after it has handled these frames. */
  function Handled(e: Endpoint, fs: seq<Frame>): Endpoint {
    if fs == [] then e else HandleFrame(Handled(e, fs[..|fs| - 1]), fs[|fs| - 1]).state
  }

  lemma {:induction false} HandledCons(e: Endpoint, f: Frame, fs: seq<Frame>)
    ensures Handled(e, [f] + fs) == Handled(HandleFrame(e, f).state, fs)
    decreases |fs|
  {
    if fs == [] {
      assert [f] + [] == [f] && [f][..0] == [];
    } else {
      var n := |fs| - 1;
      HandledCons(e, f, fs[..n]);
      assert ([f] + fs)[..n + 1] == [f] + fs[..n] && ([f] + fs)[n + 1] == fs[n];
    }
  }

  // ---- The client ----

  /** A frame that does not end the wait for an answer on stream `s`. */
  predicate Skipped(f: Frame, s: u32) {
    f.header.streamId != s || !(f.header.frameType.Data? || f.header.frameType.Close? || f.header.frameType.Reset?)
  }

  /** What one that does comes to. */
  ghost predicate Ends<Q, A>(sv: Service<Q, A>, f: Frame, s: u32, r: Result<A>) {
    && f.header.streamId == s
    && match f.header.frameType
       case Data =>
         var answer := sv.readAnswer(f.payload);
         r == if answer.Some? then Ok(answer.value) else Err(InternalError)
       case Close => r == Err(ConnectionClosed)
       case Reset => r == Err(TransportError.StreamReset(s))
       case _ => false
  }

  /** The first `k` frames are handled without error, and do not end the wait. */
  predicate SkipsTo(e: Endpoint, fs: seq<Frame>, s: u32, k: nat)
    requires k <= |fs|
  {
    forall i :: 0 <= i < k ==> SkipsAt(e, fs, s, i)
  }

  predicate SkipsAt(e: Endpoint, fs: seq<Frame>, s: u32, i: nat)
    requires i < |fs|
  {
    HandleFrame(Handled(e, fs[..i]), fs[i]).result.Ok? && Skipped(fs[i], s)
  }

  /** An Error frame is never returned, so it ends no wait as a frame. */
  lemma ErrorFramesFail(e: Endpoint, f: Frame)
    ensures f.header.frameType.Error? ==> HandleFrame(e, f).result.Err?
  {
  }

  lemma HandledBefore(e: Endpoint, f: Frame, fs: seq<Frame>, i: nat)
    requires i < |fs|
    ensures ([f] + fs)[i + 1] == fs[i]
    ensures Handled(e, ([f] + fs)[..i + 1]) == Handled(HandleFrame(e, f).state, fs[..i])
  {
    assert ([f] + fs)[..i + 1] == [f] + fs[..i];
    HandledCons(e, f, fs[..i]);
  }

  lemma SkipsMore(e: Endpoint, f: Frame, fs: seq<Frame>, s: u32, k: nat)
    requires HandleFrame(e, f).result.Ok? && Skipped(f, s)
    requires k <= |fs| && SkipsTo(HandleFrame(e, f).state, fs, s, k)
    ensures SkipsTo(e, [f] + fs, s, k + 1)
  {
    assert ([f] + fs)[..0] == [];
    forall i | 0 < i < k + 1 ensures SkipsAt(e, [f] + fs, s, i) {
      HandledBefore(e, f, fs, i - 1);
      assert SkipsAt(HandleFrame(e, f).state, fs, s, i - 1);
    }
    assert SkipsAt(e, [f] + fs, s, 0);
  }

  /** The wait ended at frame `k`, or with the bytes. */
  ghost predicate EndsAt<Q, A>(sv: Service<Q, A>, e: Endpoint, fs: seq<Frame>, end: TransportError, s: u32,
                               k: nat, r: Reply<A>)
  {
    && k <= |fs| && SkipsTo(e, fs, s, k)
    && if k == |fs| then r == Reply(Handled(e, fs), Err(end))
       else
         var at := HandleFrame(Handled(e, fs[..k]), fs[k]);
         && r.state == at.state
         && if at.result.Err? then r.result == Err(at.result.error) else Ends(sv, fs[k], s, r.result)
  }

  lemma EndsLater<Q, A>(sv: Service<Q, A>, e: Endpoint, f: Frame, fs: seq<Frame>, end: TransportError, s: u32,
                        k: nat, r: Reply<A>)
    requires HandleFrame(e, f).result.Ok? && Skipped(f, s) && EndsAt(sv, HandleFrame(e, f).state, fs, end, s, k, r)
    ensures EndsAt(sv, e, [f] + fs, end, s, k + 1, r)
  {
    SkipsMore(e, f, fs, s, k);
    HandledCons(e, f, fs[..k]);
    assert ([f] + fs)[..k + 1] == [f] + fs[..k];
    if k == |fs| {
      assert fs[..k] == fs;
    }
  }

  lemma EndsNow<Q, A>(sv: Service<Q, A>, e: Endpoint, fs: seq<Frame>, end: TransportError, s: u32, r: Reply<A>)
    requires fs != [] && r.state == HandleFrame(e, fs[0]).state
    requires var at := HandleFrame(e, fs[0]);
             if at.result.Err? then r.result == Err(at.result.error) else Ends(sv, fs[0], s, r.result)
    ensures EndsAt(sv, e, fs, end, s, 0, r)
  {
    assert fs[..0] == [];
  }

  /** The receive loop of `send_request`, on any bytes: it ends at the first frame whose
      handling fails, with that error, or at the first Data, Close or Reset on its stream
      - with the answer, `InternalError` if it cannot be decoded, `ConnectionClosed` or
      `StreamReset` - or else with the error the frames end with. */
  lemma {:induction false} AwaitEnds<Q, A>(sv: Service<Q, A>, e: Endpoint, unread: seq<byte>, s: u32) returns (k: nat)
    ensures EndsAt(sv, e, C.Drain(unread).0, C.Drain(unread).1, s, k, Await(sv, e, unread, s).0)
    decreases |unread|
  {
    match C.Receive(unread)
    case (Err(_), _) => k := 0;
    case (Ok(f), rest) =>
      var r := HandleFrame(e, f);
      ErrorFramesFail(e, f);
      if r.result.Ok? && Skipped(f, s) {
        k := AwaitEnds(sv, r.state, rest, s);
        EndsLater(sv, e, f, C.Drain(rest).0, C.Drain(rest).1, s, k, Await(sv, r.state, rest, s).0);
        k := k + 1;
      } else {
        k := 0;
        EndsNow(sv, e, C.Drain(unread).0, C.Drain(unread).1, s, Await(sv, e, unread, s).0);
      }
  }

  /** `send_request` before its receive loop: the first call that fails ends it. */
  lemma SubmitVerdict<Q, A>(sv: Service<Q, A>, e: Endpoint, unread: seq<byte>, q: Q)
    ensures var bytes := sv.writeRequest(q);
            var begun := OpenStream(e);
            && (begun.result.Err? ==>
                  Request(sv, e, unread, q) == (Reply(begun.state, Err(begun.result.error)), unread))
            && (begun.result.Ok? ==>
                  var s := begun.result.value;
                  var sent := SendData(begun.state, s, bytes);
                  var closed := CloseStream(sent.state, s);
                  Request(sv, e, unread, q) ==
                  if sent.result.Err? then (Reply(sent.state, Err(sent.result.error)), unread)
                  else if closed.result.Err? then (Reply(closed.state, Err(closed.result.error)), unread)
                  else Await(sv, FlushAll(closed.state), unread, s))
  {
  }

  // ---- The server ----

  /** What the serving loop does about a Data frame: without data nothing, and otherwise
      it answers, or fails for the first thing that does. */
  lemma RespondVerdict<Q, A>(sv: Service<Q, A>, e: Endpoint, s: u32)
    ensures var (r, popped) := (Respond(sv, e, s), RecvData(e, s));
            && (popped.result.Err? ==> r == Reply(popped.state, Err(popped.result.error)))
            && (popped.result == Ok(None) || popped.result == Ok(Some([])) ==> r == Reply(popped.state, Ok(())))
            && (popped.result.Ok? && popped.result.value.Some? && popped.result.value.value != [] ==>
                  var request := sv.readRequest(popped.result.value.value);
                  if request.None? then r == Reply(popped.state, Err(InternalError))
                  else
                    var sent := SendData(popped.state, s, sv.writeAnswer(sv.handler(request.value)));
                    var closed := CloseStream(sent.state, s);
                    if sent.result.Err? then r == sent
                    else if closed.result.Err? then r == closed
                    else r == Reply(FlushAll(closed.state), Ok(())))
  {
  }

  lemma NeverConnectionClosed(e: Endpoint, f: Frame)
    ensures HandleFrame(e, f).result != Err(ConnectionClosed)
  {
  }

  /** One frame, handled and answered. */
  function Turn<Q, A>(sv: Service<Q, A>, e: Endpoint, f: Frame): Reply<()> {
    var r := HandleFrame(e, f);
    if r.result.Err? then Reply(r.state, Err(r.result.error))
    else if f.header.frameType.Data? then Respond(sv, r.state, f.header.streamId)
    else Reply(r.state, Ok(()))
  }

  /** The endpoint after these frames were served. */
  function Served<Q, A>(sv: Service<Q, A>, e: Endpoint, fs: seq<Frame>): Endpoint
    decreases |fs|
  {
    if fs == [] then e else Served(sv, Turn(sv, e, fs[0]).state, fs[1..])
  }

  /** How far serving gets: the number of frames served without an error. */
  function ServedCount<Q, A>(sv: Service<Q, A>, e: Endpoint, fs: seq<Frame>): (k: nat)
    ensures k <= |fs|
    decreases |fs|
  {
    if fs == [] || Turn(sv, e, fs[0]).result.Err? then 0 else 1 + ServedCount(sv, Turn(sv, e, fs[0]).state, fs[1..])
  }

  lemma ServeTurnOk<Q, A>(sv: Service<Q, A>, e: Endpoint, fs: seq<Frame>, end: TransportError)
    requires fs != [] && Turn(sv, e, fs[0]).result.Ok?
    ensures ServeFrames(sv, e, fs, end) == ServeFrames(sv, Turn(sv, e, fs[0]).state, fs[1..], end)
  {
    ErrorFramesFail(e, fs[0]);
  }

  lemma ServeTurnFails<Q, A>(sv: Service<Q, A>, e: Endpoint, fs: seq<Frame>, end: TransportError)
    requires fs != [] && Turn(sv, e, fs[0]).result.Err?
    ensures ServeFrames(sv, e, fs, end) == Turn(sv, e, fs[0])
  {
    NeverConnectionClosed(e, fs[0]);
  }

  lemma ServedCons<Q, A>(sv: Service<Q, A>, e: Endpoint, fs: seq<Frame>, k: nat)
    requires fs != [] && k < |fs|
    ensures Served(sv, e, fs[..k + 1]) == Served(sv, Turn(sv, e, fs[0]).state, fs[1..][..k])
  {
    assert fs[..k + 1][1..] == fs[1..][..k];
  }

  lemma {:induction false} ServeFramesEnds<Q, A>(sv: Service<Q, A>, e: Endpoint, fs: seq<Frame>, end: TransportError)
    ensures var k := ServedCount(sv, e, fs);
            ServeFrames(sv, e, fs, end) ==
            if k == |fs| then Reply(Served(sv, e, fs), if end == ConnectionClosed then Ok(()) else Err(end))
            else Turn(sv, Served(sv, e, fs[..k]), fs[k])
    decreases |fs|
  {
    if fs != [] {
      var turn := Turn(sv, e, fs[0]);
      if turn.result.Ok? {
        ServeTurnOk(sv, e, fs, end);
        ServeFramesEnds(sv, turn.state, fs[1..], end);
        ServedCons(sv, e, fs, ServedCount(sv, turn.state, fs[1..]));
      } else {
        ServeTurnFails(sv, e, fs, end);
        assert fs[..0] == [];
      }
    }
  }

  /** The serving loop, on any bytes: it ends at the first frame whose handling or
      answering fails, with that error; if there is none, without an error when the
      connection is closed, and otherwise with the framing error. */
  lemma ServeEnds<Q, A>(sv: Service<Q, A>, e: Endpoint, unread: seq<byte>)
    ensures var (fs, end) := C.Drain(unread);
            var (r, k) := (Serve(sv, e, unread).0, ServedCount(sv, e, fs));
            && (k < |fs| ==> r == Turn(sv, Served(sv, e, fs[..k]), fs[k]) && r.result.Err?)
            && (k == |fs| && end == ConnectionClosed ==> r.result == Ok(()))
            && (k == |fs| && end != ConnectionClosed ==> r.result == Err(end))
  {
    var (fs, end) := C.Drain(unread);
    ServesTheFrames(sv, e, unread);
    ServeFramesEnds(sv, e, fs, end);
    NextFails(sv, e, fs);
  }

  lemma {:induction false} NextFails<Q, A>(sv: Service<Q, A>, e: Endpoint, fs: seq<Frame>)
    ensures var k := ServedCount(sv, e, fs); k < |fs| ==> Turn(sv, Served(sv, e, fs[..k]), fs[k]).result.Err?
    decreases |fs|
  {
    if fs != [] && Turn(sv, e, fs[0]).result.Ok? {
      var k := ServedCount(sv, Turn(sv, e, fs[0]).state, fs[1..]);
      NextFails(sv, Turn(sv, e, fs[0]).state, fs[1..]);
      if k < |fs[1..]| {
        assert fs[..k + 1][1..] == fs[1..][..k];
      }
    } else {
      assert fs != [] ==> fs[..0] == [];
    }
  }
}
