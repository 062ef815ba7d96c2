/** Calls the conforming protocol leaves out: what the peer makes of them, in every
    run, and runs in which it refuses what they send
    (`transport/src/tcp/manager.rs`, `transport/src/tcp/receiver.rs`). */
module LateCalls {
  import opened Bytes
  import opened TransportErrors
  import opened Frames
  import opened Streams
  import opened Protocol
  import opened Multiplex
  import opened TwoParty
  import opened Refusals

  // ---- Runs without Reset ----

  /** The users may close twice and pop after their own close; they never reset, and
      keep pings small. */
  predicate LateCall(c: Call) { !c.Reset? && (c.Ping? ==> |c.payload| <= MAX_PING) }

  predicate LateRun(events: seq<Event>) {
    forall i :: 0 <= i < |events| && events[i].action.Do? ==> LateCall(events[i].action.call)
  }

  predicate Small(f: Frame) { !f.header.frameType.Reset? && (PingPong(f) ==> |f.payload| <= MAX_PING) }

  predicate AllSmall(e: Endpoint) { forall f <- e.out.All() :: Small(f) }

  lemma CallIsSmall(e: Endpoint, c: Call)
    requires AllSmall(e) && LateCall(c)
    ensures AllSmall(Perform(e, c).0)
  {
    var e' := Perform(e, c).0;
    CallEmits(e, c);
    forall f <- Emitted(e, e')
      ensures Small(f)
    {
      CallSends(e, c, f);
    }
  }

  lemma CallSends(e: Endpoint, c: Call, f: Frame)
    requires f in Emitted(e, Perform(e, c).0) && LateCall(c)
    ensures Small(f)
  {
    CallEmits(e, c);
    if c.Handshake? || c.Ping? || c.Flush? {
      OtherCallEmits(e, c);
    }
  }

  lemma ReceiptIsSmall(e: Endpoint, f: Frame)
    requires AllSmall(e) && Small(f)
    ensures AllSmall(HandleFrame(e, f).state)
  {
    var o := HandleFrame(e, f).state.out;
    if o != e.out {
      DispatchSends(e, f);
      ReplyIsSmall(e, f, o);
    }
  }

  lemma ReplyIsSmall(e: Endpoint, f: Frame, o: Outbox)
    requires AllSmall(e) && Small(f)
    requires || o == Send(e, WelcomeFrame()).state.out || o == Send(e, RejectionFrame(REJECTION_TEXT)).state.out
             || (f.header.frameType.Ping? && o == Send(e, PongFrame(f.payload)).state.out)
    ensures forall g <- o.All() :: Small(g)
  {
  }

  lemma {:induction false} LateRunIsSmall(events: seq<Event>)
    requires LateRun(events)
    ensures AllSmall(Run(events).ini.ep) && AllSmall(Run(events).acc.ep)
  {
    if events != [] {
      var before, ev := events[..|events| - 1], events[|events| - 1];
      LateRunIsSmall(before);
      var p, q := Run(before).Side(ev.role), Run(before).Peer(ev.role);
      match ev.action
      case Do(c) => CallIsSmall(p.ep, c);
      case Recv =>
        if Deliverable(p, q) {
          assert Next(p, q) in q.ep.out.All();
          ReceiptIsSmall(p.ep, Next(p, q));
        }
    }
  }

  /** In every such run `recv_frame` fails exactly if the next frame is a Close or
      Window of a stream the receiver no longer holds, and then with `UnknownStream`;
      and it no longer holds that stream exactly if both ends have closed it, the
      sender before it sent this frame. */
  lemma LateRunFailsExactly(events: seq<Event>, r: Role)
    requires LateRun(events) && Deliverable(Run(events).Side(r), Run(events).Peer(r))
    ensures var (p, q) := (Run(events).Side(r), Run(events).Peer(r));
            var f := Next(p, q);
            var s := f.header.streamId;
            var late := (f.header.frameType.Close? || f.header.frameType.Window?) && s !in p.ep.streams;
            && HandleFrame(p.ep, f).result == (if late then Err(UnknownStream(s)) else Ok(f))
            && p.got <= |q.ep.out.All()|
            && (f.header.frameType.Close? || f.header.frameType.Window? ==> (late <==> BothClosed(p, q, s)))
  {
    var p, q := Run(events).Side(r), Run(events).Peer(r);
    ExactlyTheseFail(events, r);
    LateRunIsSmall(events);
    RunFollows(events);
    FollowingIsSymmetric(Run(events).ini, Run(events).acc);
    SmallFramesFail(p, q);
    if NeedsStream(Next(p, q)) {
      NotHeldMeansOver(events, r);
    }
  }

  /** The receiver has closed the stream, and the sender had before. */
  predicate BothClosed(p: Party, q: Party, s: u32)
    requires p.got <= |q.ep.out.All()|
  {
    Has(SentOn(p, s), Frametype.Close) && Has(HeardOn(p, q, s), Frametype.Close)
  }

  lemma SmallFramesFail(p: Party, q: Party)
    requires SaneEnd(p) && Deliverable(p, q) && AllSmall(p.ep) && AllSmall(q.ep)
    ensures Next(p, q).header.frameType.Ping? ==> !Refused(p.ep, Next(p, q))
    ensures p.got <= |q.ep.out.All()|
    ensures !Has(SentOn(p, Next(p, q).header.streamId), Frametype.Reset)
  {
    assert Next(p, q) in q.ep.out.All();
    var sent := SentOn(p, Next(p, q).header.streamId);
    TraceIsPart(p.ep.out.All(), Next(p, q).header.streamId);
    assert forall k :: 0 <= k < |sent| ==> sent[k] in sent;
  }

  lemma {:induction false} TraceIsPart(fs: seq<Frame>, s: u32)
    ensures forall f <- Trace(fs, s) :: f in fs
  {
    if fs != [] {
      TraceIsPart(fs[1..], s);
    }
  }

  /** Credit returned late: the peer refuses a Window exactly if the receiver and,
      before the Window, its sender had closed the stream. */
  lemma LateCredit(events: seq<Event>, r: Role)
    requires LateRun(events) && Deliverable(Run(events).Side(r), Run(events).Peer(r))
    requires Next(Run(events).Side(r), Run(events).Peer(r)).header.frameType.Window?
    ensures var (p, q) := (Run(events).Side(r), Run(events).Peer(r));
            var f := Next(p, q);
            && p.got <= |q.ep.out.All()|
            && HandleFrame(p.ep, f).result ==
               if BothClosed(p, q, f.header.streamId) then Err(UnknownStream(f.header.streamId)) else Ok(f)
  {
    LateRunFailsExactly(events, r);
  }

  /** A second Close is refused exactly if the receiver had closed the stream too; a
      first one never is. */
  lemma SecondClose(events: seq<Event>, r: Role)
    requires LateRun(events) && Deliverable(Run(events).Side(r), Run(events).Peer(r))
    requires Next(Run(events).Side(r), Run(events).Peer(r)).header.frameType.Close?
    ensures var (p, q) := (Run(events).Side(r), Run(events).Peer(r));
            var f := Next(p, q);
            && p.got <= |q.ep.out.All()|
            && HandleFrame(p.ep, f).result ==
               if BothClosed(p, q, f.header.streamId) then Err(UnknownStream(f.header.streamId)) else Ok(f)
  {
    LateRunFailsExactly(events, r);
  }

  /** In any run, once an end has reset a stream, every Data, Close or Window that
      arrives on it is refused; only the peer's own Reset is accepted. */
  lemma ResetRace(events: seq<Event>, r: Role)
    requires Deliverable(Run(events).Side(r), Run(events).Peer(r))
    requires var (p, q) := (Run(events).Side(r), Run(events).Peer(r));
             var f := Next(p, q);
             Has(SentOn(p, f.header.streamId), Frametype.Reset) && (NeedsStream(f) || f.header.frameType.Reset?)
    ensures var (p, q) := (Run(events).Side(r), Run(events).Peer(r));
            var f := Next(p, q);
            HandleFrame(p.ep, f).result ==
            if f.header.frameType.Reset? then Ok(f) else Err(UnknownStream(f.header.streamId))
  {
    ExactlyTheseFail(events, r);
    if NeedsStream(Next(Run(events).Side(r), Run(events).Peer(r))) {
      NotHeldMeansOver(events, r);
    }
  }

  // ---- Runs that fail ----

  /** A short frame joins an empty write buffer and waits there. */
  lemma ShortFrameWaits(e: Endpoint, f: Frame)
    requires e.out.buffered == [] && Encodable(f) && |f.payload| <= 4
    ensures Buffer(e, f) == Reply(e.(out := Outbox([f], e.out.shipped)), Ok(()))
    ensures Send(e, f) == Reply(e.(out := Outbox([], e.out.shipped + [f])), Ok(()))
  {
    EncodeAllOne(f);
    assert e.out.buffered + [f] == [f];
  }

  /** One more call of a run that has come to `n`. */
  lemma Calls(events: seq<Event>, n: Net, r: Role, c: Call, e: Endpoint) returns (more: seq<Event>)
    requires LateRun(events) && Run(events) == n && Perform(n.Side(r).ep, c).0 == e && !c.Data? && LateCall(c)
    ensures LateRun(more) && Run(more) == n.With(r, n.Side(r).(ep := e)) && more == events + [Event(r, Do(c))]
  {
    more := events + [Event(r, Do(c))];
    assert more[..|events|] == events;
    assert n.Side(r).given + [] == n.Side(r).given;
  }

  lemma CallThenFlush(events: seq<Event>, n: Net, r: Role, c: Call, e: Endpoint) returns (more: seq<Event>)
    requires LateRun(events) && Run(events) == n && Perform(n.Side(r).ep, c).0 == e && !c.Data? && LateCall(c)
    ensures LateRun(more) && Run(more) == n.With(r, n.Side(r).(ep := FlushAll(e)))
    ensures more == events + [Event(r, Do(c)), Event(r, Do(Call.Flush))]
  {
    more := Calls(events, n, r, c, e);
    more := Calls(more, n.With(r, n.Side(r).(ep := e)), r, Call.Flush, FlushAll(e));
  }

  lemma Receives(events: seq<Event>, n: Net, r: Role, f: Frame, e: Endpoint) returns (more: seq<Event>)
    requires LateRun(events) && Run(events) == n && Deliverable(n.Side(r), n.Peer(r)) && Next(n.Side(r), n.Peer(r)) == f
    requires HandleFrame(n.Side(r).ep, f) == Reply(e, Ok(f))
    ensures LateRun(more) && more == events + [Event(r, Recv)]
    ensures Run(more) == n.With(r, Party(e, n.Side(r).got + 1, n.Side(r).given, n.Side(r).returned + DataOf(f)))
  {
    more := events + [Event(r, Recv)];
    assert more[..|events|] == events;
  }

  const BYTE: seq<byte> := [7]
  const RECEIVED: StreamView := NewStream(1).(recvWindow := DEFAULT_WINDOW - 1, recvQueue := [BYTE])
  const SENT: StreamView := NewStream(1).(sendWindow := DEFAULT_WINDOW - 1)

  /** An end whose write buffer is empty. */
  function Flushed(r: Role, next: u32, streams: map<u32, StreamView>, shipped: seq<Frame>): Endpoint {
    Endpoint(r, Established, next, streams, Outbox([], shipped))
  }

  function Ini(view: StreamView, more: seq<Frame>): Endpoint {
    Flushed(Initiator, 3, map[1 := view], [HelloFrame(), OpenFrame(1)] + more)
  }

  function Acc(streams: map<u32, StreamView>, more: seq<Frame>): Endpoint {
    Flushed(Acceptor, 2, streams, [WelcomeFrame()] + more)
  }

  lemma Opens(e: Endpoint)
    requires e == Connected().ini.ep
    ensures FlushAll(Perform(e, Call.Open).0) == Ini(NewStream(1), [])
  {
    ShortFrameWaits(e.(nextLocalId := 3, streams := map[1 := NewStream(1)]), OpenFrame(1));
    assert [HelloFrame()] + [OpenFrame(1)] == [HelloFrame(), OpenFrame(1)] + [];
  }

  lemma Handshakes() returns (events: seq<Event>)
    ensures LateRun(events) && Run(events) == Connected()
  {
    ConnectedAfterHandshake();
    events := [Event(Initiator, Do(Call.Handshake)), Event(Acceptor, Recv), Event(Initiator, Recv)];
  }

  function Opened(): Net {
    Net(Party(Ini(NewStream(1), []), 1, [], []), Party(Acc(map[1 := NewStream(1)], []), 2, [], []))
  }

  lemma StreamOpens() returns (events: seq<Event>)
    ensures LateRun(events) && Run(events) == Opened()
  {
    var n := Connected();
    events := Handshakes();
    Opens(n.ini.ep);
    events := CallThenFlush(events, n, Initiator, Call.Open, Perform(n.ini.ep, Call.Open).0);
    OpenArrives(n.acc.ep);
    events := Receives(events, n.(ini := Opened().ini), Acceptor, OpenFrame(1), Opened().acc.ep);
  }

  lemma OpenArrives(e: Endpoint)
    requires e == Connected().acc.ep
    ensures HandleFrame(e, OpenFrame(1)) == Reply(Opened().acc.ep, Ok(OpenFrame(1)))
  {
    assert [WelcomeFrame()] + [] == [WelcomeFrame()];
  }

  /** The acceptor sends one byte, and the initiator receives it without popping it. */
  function Delivered(): Net {
    var d := DataFrame(1, BYTE);
    Net(Party(Ini(RECEIVED, []), 2, [], [(1, BYTE)]), Party(Acc(map[1 := SENT], [d]), 2, [(1, BYTE)], []))
  }

  lemma Gives(e: Endpoint)
    requires e == Opened().acc.ep
    ensures SendData(e, 1, BYTE).result == Ok(()) && FlushAll(SendData(e, 1, BYTE).state) == Delivered().acc.ep
  {
    var d := DataFrame(1, BYTE);
    ShortFrameWaits(e.(streams := map[1 := SENT]), d);
    assert e.streams[1 := SENT] == map[1 := SENT];
    assert [WelcomeFrame()] + [] + [d] == [WelcomeFrame()] + [d];
  }

  lemma ByteArrives() returns (events: seq<Event>)
    ensures LateRun(events) && Run(events) == Delivered()
  {
    var (n, give, flush) := (Opened(), Event(Acceptor, Do(Call.Data(1, BYTE))), Event(Acceptor, Do(Call.Flush)));
    var sent := n.acc.(ep := SendData(n.acc.ep, 1, BYTE).state, given := [(1, BYTE)]);
    events := StreamOpens();
    Gives(n.acc.ep);
    assert (events + [give])[..|events|] == events;
    events := events + [give];
    assert Run(events) == n.(acc := sent);
    events := Calls(events, n.(acc := sent), Acceptor, Call.Flush, Delivered().acc.ep);
    ByteIsQueued(n.ini.ep);
    events := Receives(events, n.(acc := Delivered().acc), Initiator, DataFrame(1, BYTE), Ini(RECEIVED, []));
  }

  lemma ByteIsQueued(e: Endpoint)
    requires e == Opened().ini.ep
    ensures HandleFrame(e, DataFrame(1, BYTE)) == Reply(Ini(RECEIVED, []), Ok(DataFrame(1, BYTE)))
  {
    assert PushRecv(NewStream(1), BYTE) == RECEIVED;
    assert e.streams[1 := RECEIVED] == map[1 := RECEIVED];
  }

  const CLOSED: StreamView := RECEIVED.(state := HalfClosedLocal)

  lemma Closes(view: StreamView, more: seq<Frame>, closed: StreamView)
    requires closed == view.(state := LocalClose(view.state)) && !closed.state.IsClosed() && !view.state.IsClosed()
    ensures FlushAll(Perform(Ini(view, more), Call.Close(1)).0) == Ini(closed, more + [CloseFrame(1)])
  {
    var e := Ini(view, more);
    ShortFrameWaits(e.(streams := map[1 := closed]), CloseFrame(1));
    assert e.streams[1 := closed] == map[1 := closed];
    assert [HelloFrame(), OpenFrame(1)] + more + [CloseFrame(1)]
        == [HelloFrame(), OpenFrame(1)] + (more + [CloseFrame(1)]);
  }

  /** The initiator closes its side. */
  lemma InitiatorCloses() returns (events: seq<Event>)
    ensures LateRun(events)
    ensures Run(events) == Delivered().(ini := Delivered().ini.(ep := Ini(CLOSED, [CloseFrame(1)])))
  {
    events := ByteArrives();
    Closes(RECEIVED, [], CLOSED);
    assert [] + [CloseFrame(1)] == [CloseFrame(1)];
    var close := Call.Close(1);
    events := CallThenFlush(events, Delivered(), Initiator, close, Perform(Delivered().ini.ep, close).0);
  }

  /** The initiator has closed its side and sent `late` after that. */
  function Late(view: StreamView, late: Frame): Net {
    Delivered().(ini := Delivered().ini.(ep := Ini(view, [CloseFrame(1), late])))
  }

  const HALF: StreamView := SENT.(state := HalfClosedRemote)

  lemma CloseIsReceived(e: Endpoint)
    requires e == Delivered().acc.ep
    ensures HandleFrame(e, CloseFrame(1)) == Reply(e.(streams := map[1 := HALF]), Ok(CloseFrame(1)))
  {
    assert e.streams[1 := HALF] == map[1 := HALF];
  }

  lemma AcceptorCloses(e: Endpoint)
    requires e == Delivered().acc.ep.(streams := map[1 := HALF])
    ensures Perform(e, Call.Close(1)).0.streams == map[] && Perform(e, Call.Close(1)).0.handshake.Established?
  {
    ShortFrameWaits(e.(streams := map[1 := HALF.(state := StreamState.Closed)]), CloseFrame(1));
    assert map[1 := HALF.(state := StreamState.Closed)] - {1} == map[];
  }

  /** The acceptor receives the Close, closes too, and refuses what comes next. */
  lemma ThenFails(events: seq<Event>, view: StreamView, late: Frame) returns (more: seq<Event>)
    requires LateRun(events) && Run(events) == Late(view, late)
    requires late.header.streamId == 1 && (late.header.frameType.Close? || late.header.frameType.Window?)
    ensures LateRun(more) && Fails(more, late) && events <= more
  {
    var n := Late(view, late);
    var half := n.acc.ep.(streams := map[1 := HALF]);
    CloseIsReceived(n.acc.ep);
    more := Receives(events, n, Acceptor, CloseFrame(1), half);
    AcceptorCloses(half);
    var m := n.(acc := n.acc.(ep := half, got := 3));
    more := Calls(more, m, Acceptor, Call.Close(1), Perform(half, Call.Close(1)).0);
    more := FailsNext(more, late);
  }

  lemma FailsNext(events: seq<Event>, late: Frame) returns (more: seq<Event>)
    requires LateRun(events) && Deliverable(Run(events).acc, Run(events).ini)
             && Next(Run(events).acc, Run(events).ini) == late
    requires Run(events).acc.ep.streams == map[] && Run(events).acc.ep.handshake.Established?
    requires late.header.streamId == 1 && (late.header.frameType.Close? || late.header.frameType.Window?)
    ensures LateRun(more) && Fails(more, late) && events <= more
  {
    more := events + [Event(Acceptor, Recv)];
    assert more[..|events|] == events;
  }

  /** The last step of this run is the receipt of `f` by the acceptor, which fails. */
  predicate Fails(events: seq<Event>, f: Frame) {
    && events != [] && events[|events| - 1] == Event(Acceptor, Recv) && !NoErrorAt(events, Acceptor)
    && var n := Run(events[..|events| - 1]);
       Deliverable(n.acc, n.ini) && Next(n.acc, n.ini) == f && HandleFrame(n.acc.ep, f).result == Err(UnknownStream(1))
  }

  lemma Pops()
    ensures var e := Ini(CLOSED, [CloseFrame(1)]);
            FlushAll(Perform(e, Call.Pop(1)).0)
              == Ini(NewStream(1).(state := HalfClosedLocal), [CloseFrame(1), WindowFrame(1, 1)])
  {
    var (e, v) := (Ini(CLOSED, [CloseFrame(1)]), NewStream(1).(state := HalfClosedLocal));
    ShortFrameWaits(e.(streams := map[1 := v]), WindowFrame(1, 1));
    assert PopRecv(CLOSED).0.recvQueue == [];
    assert e.streams[1 := v] == map[1 := v];
    assert [HelloFrame(), OpenFrame(1)] + [CloseFrame(1)] + [WindowFrame(1, 1)]
        == [HelloFrame(), OpenFrame(1)] + [CloseFrame(1), WindowFrame(1, 1)];
  }

  /** A run in which the Window of a `recv_data` after the own Close is refused. */
  lemma LateCreditFails() returns (events: seq<Event>)
    ensures LateRun(events) && Fails(events, WindowFrame(1, 1)) && Event(Initiator, Do(Call.Pop(1))) in events
  {
    var pop := Call.Pop(1);
    events := InitiatorCloses();
    Pops();
    var n := Run(events);
    events := CallThenFlush(events, n, Initiator, pop, Perform(n.ini.ep, pop).0);
    assert events[|events| - 2] == Event(Initiator, Do(pop));
    events := ThenFails(events, NewStream(1).(state := HalfClosedLocal), WindowFrame(1, 1));
  }

  /** A run in which a second Close is refused. */
  lemma SecondCloseFails() returns (events: seq<Event>)
    ensures LateRun(events) && Fails(events, CloseFrame(1))
  {
    var close := Call.Close(1);
    events := InitiatorCloses();
    Closes(CLOSED, [CloseFrame(1)], CLOSED);
    assert [CloseFrame(1)] + [CloseFrame(1)] == [CloseFrame(1), CloseFrame(1)];
    var n := Run(events);
    events := CallThenFlush(events, n, Initiator, close, Perform(n.ini.ep, close).0);
    events := ThenFails(events, CLOSED, CloseFrame(1));
  }

  /** A run in which an end has reset a stream and the next frame is refused for that. */
  lemma ResetRaceFails() returns (events: seq<Event>)
    ensures var (p, q) := (Run(events).acc, Run(events).ini);
            && Deliverable(p, q) && Next(p, q) == CloseFrame(1) && Has(SentOn(p, 1), Frametype.Reset)
            && HandleFrame(p.ep, CloseFrame(1)).result == Err(UnknownStream(1))
  {
    var reset := Event(Acceptor, Do(Call.Reset(1)));
    events := EmptyStreamCloses();
    AcceptorResets(Opened().acc.ep);
    assert (events + [reset])[..|events|] == events;
    events := events + [reset];
  }

  lemma EmptyStreamCloses() returns (events: seq<Event>)
    ensures Run(events).acc == Opened().acc && Run(events).ini.got == 1
    ensures Run(events).ini.ep.out == Outbox([], [HelloFrame(), OpenFrame(1), CloseFrame(1)])
  {
    var (n, close) := (Opened(), Call.Close(1));
    events := StreamOpens();
    Closes(NewStream(1), [], NewStream(1).(state := HalfClosedLocal));
    assert [HelloFrame(), OpenFrame(1)] + ([] + [CloseFrame(1)]) == [HelloFrame(), OpenFrame(1), CloseFrame(1)];
    events := CallThenFlush(events, n, Initiator, close, Perform(n.ini.ep, close).0);
  }

  lemma AcceptorResets(e: Endpoint)
    requires e == Opened().acc.ep
    ensures var e' := Perform(e, Call.Reset(1)).0;
            e'.handshake.Established? && 1 !in e'.streams && Has(Trace(e'.out.All(), 1), Frametype.Reset)
  {
    var f := ResetFrame(1);
    ShortFrameWaits(e.(streams := e.streams[1 := NewStream(1).(state := StreamState.Reset)]), f);
    TraceAppend(e.out.All(), f, 1);
    HasAppend(Trace(e.out.All(), 1), f, Frametype.Reset);
  }

  /** A Ping so large that its answer fits the write buffer only if that is empty. */
  function LargePing(): seq<byte> { seq(262_128, _ => 0) }

  /** A run in which the next frame is a Ping that is refused, because an Open is
      waiting in the write buffer. */
  lemma PingFails() returns (events: seq<Event>)
    ensures var (p, q) := (Run(events).acc, Run(events).ini);
            && Deliverable(p, q) && Next(p, q) == PingFrame(LargePing())
            && HandleFrame(p.ep, PingFrame(LargePing())).result == Err(BufferOverflow)
  {
    var n := Connected();
    var ping := Event(Initiator, Do(Call.Ping(LargePing())));
    events := Handshakes();
    AcceptorOpens(n.acc.ep);
    events := Calls(events, n, Acceptor, Call.Open, Perform(n.acc.ep, Call.Open).0);
    InitiatorPings(n.ini.ep);
    assert (events + [ping])[..|events|] == events;
    events := events + [ping];
  }

  lemma AcceptorOpens(e: Endpoint)
    requires e == Connected().acc.ep
    ensures HandleFrame(Perform(e, Call.Open).0, PingFrame(LargePing())).result == Err(BufferOverflow)
  {
    var f := OpenFrame(2);
    ShortFrameWaits(e.(nextLocalId := 4, streams := map[2 := NewStream(2)]), f);
    EncodeAllOne(f);
  }

  lemma InitiatorPings(e: Endpoint)
    requires e == Connected().ini.ep
    ensures Perform(e, Call.Ping(LargePing())).0 ==
            e.(out := Outbox([], e.out.shipped + [PingFrame(LargePing())]))
  {
    assert [] + [PingFrame(LargePing())] == [PingFrame(LargePing())];
  }
}
