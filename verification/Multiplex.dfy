/** Two stream managers joined by two FIFO pipes of frames: what every step of a
    reset-free run keeps. `p` is the end that acts and `q` its peer; `pq` and `qp`
    are the frames sent and not yet received in either direction. */
module Multiplex {
  import opened Bytes
  import opened TransportErrors
  import opened Frames
  import opened Streams
  import opened Protocol
  import opened ManagerInvariant
  import opened StreamPair

  const MAX_PING: nat := 65_536

  // ---- Frames of one stream ----

  /** The frames of stream `s`, in order. */
  function Proj(fs: seq<Frame>, s: u32): seq<Frame> {
    if fs == [] then []
    else (if StreamFrame(fs[0]) && fs[0].header.streamId == s then [fs[0]] else []) + Proj(fs[1..], s)
  }

  lemma {:induction false} ProjAppend(fs: seq<Frame>, f: Frame, s: u32)
    ensures Proj(fs + [f], s) ==
            if StreamFrame(f) && f.header.streamId == s then Proj(fs, s) + [f] else Proj(fs, s)
  {
    if fs == [] {
      assert (fs + [f])[1..] == [];
    } else {
      ProjAppend(fs[1..], f, s);
      assert (fs + [f])[1..] == fs[1..] + [f];
    }
  }

  /** Stream `s` as `e` sees it. An end that did not open the stream and no
      longer holds it cannot tell "not yet" from "gone"; the Open frame can. */
  function SideOf(e: Endpoint, peerNext: u32, s: u32, arriving: seq<Frame>): Side {
    if s in e.streams then Live(e.streams[s])
    else if Own(e.role, s) then (if s < e.nextLocalId then Gone else Fresh)
    else if s < peerNext && !OpenPending(arriving) then Gone else Fresh
  }

  ghost predicate StreamInv(p: Endpoint, q: Endpoint, pq: seq<Frame>, qp: seq<Frame>, s: u32) {
    PairInv(Own(p.role, s), SideOf(p, q.nextLocalId, s, Proj(qp, s)), SideOf(q, p.nextLocalId, s, Proj(pq, s)),
            Proj(pq, s), Proj(qp, s))
  }

  ghost predicate StreamsInv(p: Endpoint, q: Endpoint, pq: seq<Frame>, qp: seq<Frame>) {
    forall s: u32 :: s != 0 ==> StreamInv(p, q, pq, qp, s)
  }

  // ---- Handshake ----

  predicate PingPong(f: Frame) { f.header.frameType.Ping? || f.header.frameType.Pong? }

  predicate Quiet(fs: seq<Frame>) { forall f <- fs :: PingPong(f) }

  predicate Settled(fs: seq<Frame>) { forall f <- fs :: !f.header.frameType.Hello? && !f.header.frameType.Welcome? }

  /** One handshake frame of type `t`, preceded by nothing but pings and pongs. */
  predicate Leads(fs: seq<Frame>, t: Frametype) {
    && fs != []
    && if fs[0].header.frameType == t
       then (if t.Hello? then Quiet(fs[1..]) else Settled(fs[1..]))
       else PingPong(fs[0]) && Leads(fs[1..], t)
  }

  /** `ia` and `ai` travel from the initiator and from the acceptor. */
  predicate Phases(i: HandshakeState, a: HandshakeState, ia: seq<Frame>, ai: seq<Frame>) {
    match (i, a)
    case (AwaitingHello, AwaitingHello) => Quiet(ia) && Quiet(ai)
    case (AwaitingWelcome, AwaitingHello) => Leads(ia, Frametype.Hello) && Quiet(ai)
    case (AwaitingWelcome, Established) => Quiet(ia) && Leads(ai, Frametype.Welcome)
    case (Established, Established) => Settled(ia) && Settled(ai)
    case _ => false
  }

  predicate HandshakeInv(p: Endpoint, q: Endpoint, pq: seq<Frame>, qp: seq<Frame>) {
    if p.role.Initiator? then Phases(p.handshake, q.handshake, pq, qp)
    else Phases(q.handshake, p.handshake, qp, pq)
  }

  lemma {:induction false} LeadsAppend(fs: seq<Frame>, t: Frametype, f: Frame)
    requires Leads(fs, t)
    requires if t.Hello? then PingPong(f) else !f.header.frameType.Hello? && !f.header.frameType.Welcome?
    ensures Leads(fs + [f], t)
  {
    assert (fs + [f])[1..] == fs[1..] + [f];
    if fs[0].header.frameType != t {
      LeadsAppend(fs[1..], t, f);
    }
  }

  lemma {:induction false} QuietThenLeads(fs: seq<Frame>, f: Frame)
    requires Quiet(fs) && (f.header.frameType.Hello? || f.header.frameType.Welcome?)
    ensures Leads(fs + [f], f.header.frameType)
  {
    if fs == [] {
      assert (fs + [f])[1..] == [];
    } else {
      assert PingPong(fs[0]);
      QuietThenLeads(fs[1..], f);
      assert (fs + [f])[1..] == fs[1..] + [f];
    }
  }

  // ---- The joint invariant ----

  /** A frame a conforming manager sends. */
  predicate Tame(f: Frame) {
    || (StreamFrame(f) && f.header.streamId != 0)
    || (PingPong(f) && |f.payload| <= MAX_PING)
    || ((f.header.frameType.Hello? || f.header.frameType.Welcome?) && f.header.streamId == 0)
  }

  ghost predicate Linked(p: Endpoint, q: Endpoint, pq: seq<Frame>, qp: seq<Frame>) {
    && p.role != q.role
    && Good(p) && Good(q)
    && 0 !in p.streams && 0 !in q.streams
    && (forall f <- pq :: Tame(f)) && (forall f <- qp :: Tame(f))
    && HandshakeInv(p, q, pq, qp)
    && StreamsInv(p, q, pq, qp)
  }

  lemma StreamInvIsSymmetric(p: Endpoint, q: Endpoint, pq: seq<Frame>, qp: seq<Frame>, s: u32)
    requires StreamInv(p, q, pq, qp, s) && p.role != q.role
    ensures StreamInv(q, p, qp, pq, s)
  {
    PairInvIsSymmetric(Own(p.role, s), SideOf(p, q.nextLocalId, s, Proj(qp, s)),
                       SideOf(q, p.nextLocalId, s, Proj(pq, s)), Proj(pq, s), Proj(qp, s));
  }

  lemma LinkedIsSymmetric(p: Endpoint, q: Endpoint, pq: seq<Frame>, qp: seq<Frame>)
    requires Linked(p, q, pq, qp)
    ensures Linked(q, p, qp, pq)
  {
    forall s: u32 | s != 0
      ensures StreamInv(q, p, qp, pq, s)
    {
      StreamInvIsSymmetric(p, q, pq, qp, s);
    }
  }

  lemma StartsLinked()
    ensures Linked(NewEndpoint(Initiator), NewEndpoint(Acceptor), [], [])
  {
  }

  /** The user's side of the contract: never reset; close each stream at most
      once; pop only before the own close; keep pings small. */
  predicate Conforming(e: Endpoint, c: Call) {
    match c
    case Reset(_) => false
    case Close(id) => id in e.streams ==> e.streams[id].state.CanSend()
    case Pop(id) => id in e.streams ==> e.streams[id].state.CanSend()
    case Ping(payload) => |payload| <= MAX_PING
    case _ => true
  }

  // ---- Steps that touch one stream ----

  /** `p'` is `p` with other buffers, and possibly another state of stream `id`. */
  predicate ChangesOnly(p: Endpoint, p': Endpoint, id: u32) {
    && p'.role == p.role
    && p'.streams - {id} == p.streams - {id}
    && p.nextLocalId <= p'.nextLocalId
    && (p'.nextLocalId == p.nextLocalId || (id == p.nextLocalId && p'.nextLocalId == id + 2))
  }

  lemma OtherStreamKept(p: Endpoint, q: Endpoint, pq: seq<Frame>, qp: seq<Frame>,
                        p': Endpoint, pq': seq<Frame>, qp': seq<Frame>, id: u32, s: u32)
    requires StreamInv(p, q, pq, qp, s) && ChangesOnly(p, p', id) && p.role != q.role
    requires Own(p.role, p.nextLocalId) && s != id
    requires Proj(pq', s) == Proj(pq, s) && Proj(qp', s) == Proj(qp, s)
    ensures StreamInv(p', q, pq', qp', s)
  {
    var x, y := SideOf(p, q.nextLocalId, s, Proj(qp, s)), SideOf(q, p.nextLocalId, s, Proj(pq, s));
    assert s in p'.streams <==> s in p'.streams - {id};
    assert s in p.streams <==> s in p.streams - {id};
    assert s in p.streams ==> p'.streams[s] == (p'.streams - {id})[s] == (p.streams - {id})[s];
    assert SideOf(p', q.nextLocalId, s, Proj(qp', s)) == x;
    assert SideOf(q, p'.nextLocalId, s, Proj(pq', s)) == y;
  }

  lemma OtherStreamsKept(p: Endpoint, q: Endpoint, pq: seq<Frame>, qp: seq<Frame>,
                         p': Endpoint, pq': seq<Frame>, qp': seq<Frame>, id: u32)
    requires StreamsInv(p, q, pq, qp) && ChangesOnly(p, p', id) && p.role != q.role
    requires Own(p.role, p.nextLocalId)
    requires forall s: u32 :: s != id ==> Proj(pq', s) == Proj(pq, s) && Proj(qp', s) == Proj(qp, s)
    requires id != 0 ==> StreamInv(p', q, pq', qp', id)
    ensures StreamsInv(p', q, pq', qp')
  {
    forall s: u32 | s != 0
      ensures StreamInv(p', q, pq', qp', s)
    {
      if s != id {
        OtherStreamKept(p, q, pq, qp, p', pq', qp', id, s);
      }
    }
  }

  /** A step that sends stream frame `f` and moves stream `f.streamId` to `x'`. */
  lemma SendingKeepsStreams(p: Endpoint, q: Endpoint, pq: seq<Frame>, qp: seq<Frame>, p': Endpoint, f: Frame)
    requires Linked(p, q, pq, qp) && StreamFrame(f)
    requires f.header.streamId != 0 && ChangesOnly(p, p', f.header.streamId)
    requires var s := f.header.streamId;
             PairInv(Own(p.role, s), SideOf(p', q.nextLocalId, s, Proj(qp, s)),
                     SideOf(q, p'.nextLocalId, s, Proj(pq, s) + [f]),
                     Proj(pq, s) + [f], Proj(qp, s))
    ensures StreamsInv(p', q, pq + [f], qp)
  {
    forall s: u32 ensures Proj(pq + [f], s) == if s == f.header.streamId then Proj(pq, s) + [f] else Proj(pq, s) {
      ProjAppend(pq, f, s);
    }
    OtherStreamsKept(p, q, pq, qp, p', pq + [f], qp, f.header.streamId);
  }

  lemma EstablishedSendKeepsHandshake(p: Endpoint, q: Endpoint, pq: seq<Frame>, qp: seq<Frame>, f: Frame)
    requires HandshakeInv(p, q, pq, qp) && p.handshake.Established? && p.role != q.role
    requires !f.header.frameType.Hello? && !f.header.frameType.Welcome?
    ensures HandshakeInv(p, q, pq + [f], qp)
  {
    if p.role.Acceptor? && q.handshake.AwaitingWelcome? {
      LeadsAppend(pq, Frametype.Welcome, f);
    }
  }

  lemma PingPongKeepsHandshake(p: Endpoint, q: Endpoint, pq: seq<Frame>, qp: seq<Frame>, f: Frame)
    requires HandshakeInv(p, q, pq, qp) && p.role != q.role && PingPong(f)
    ensures HandshakeInv(p, q, pq + [f], qp)
  {
    if p.role.Acceptor? && p.handshake.Established? && q.handshake.AwaitingWelcome? {
      LeadsAppend(pq, Frametype.Welcome, f);
    }
    if p.role.Initiator? && p.handshake.AwaitingWelcome? && q.handshake.AwaitingHello? {
      LeadsAppend(pq, Frametype.Hello, f);
    }
  }

  // ---- Local calls ----

  /** The frames added to an endpoint's output between two states. */
  function Emitted(e: Endpoint, e': Endpoint): seq<Frame> {
    if |e.out.All()| <= |e'.out.All()| then e'.out.All()[|e.out.All()|..] else []
  }

  /** A call led from `p` to `p'`: the joint invariant holds again, with the
      frames the call emitted behind those already travelling. */
  ghost predicate KeptLinked(p: Endpoint, q: Endpoint, pq: seq<Frame>, qp: seq<Frame>, p': Endpoint) {
    && p'.out.All() == p.out.All() + Emitted(p, p')
    && Linked(p', q, pq + Emitted(p, p'), qp)
  }

  lemma UnchangedIsKept(p: Endpoint, q: Endpoint, pq: seq<Frame>, qp: seq<Frame>)
    requires Linked(p, q, pq, qp)
    ensures KeptLinked(p, q, pq, qp, p)
  {
    assert p.out.All() + [] == p.out.All() && pq + [] == pq;
  }

  /** The invariant of the stream `f` belongs to, once `f` has been sent by `p'`. */
  ghost predicate PairAfterSend(p': Endpoint, q: Endpoint, pq: seq<Frame>, qp: seq<Frame>, f: Frame) {
    var s := f.header.streamId;
    PairInv(Own(p'.role, s), SideOf(p', q.nextLocalId, s, Proj(qp, s)), SideOf(q, p'.nextLocalId, s, Proj(pq, s) + [f]),
            Proj(pq, s) + [f], Proj(qp, s))
  }

  lemma SendingKeepsLinked(p: Endpoint, q: Endpoint, pq: seq<Frame>, qp: seq<Frame>, p': Endpoint, f: Frame)
    requires Linked(p, q, pq, qp) && p.handshake.Established? && p'.handshake.Established?
    requires Good(p') && 0 !in p'.streams && p'.out.All() == p.out.All() + [f]
    requires StreamFrame(f) && f.header.streamId != 0 && ChangesOnly(p, p', f.header.streamId)
    requires PairAfterSend(p', q, pq, qp, f)
    ensures KeptLinked(p, q, pq, qp, p') && Emitted(p, p') == [f]
  {
    assert Emitted(p, p') == [f];
    SendingKeepsStreams(p, q, pq, qp, p', f);
    EstablishedSendKeepsHandshake(p, q, pq, qp, f);
  }

  // ---- open_stream ----

  predicate MayOpen(p: Endpoint) { p.handshake.Established? && p.nextLocalId + 2 < 0x1_0000_0000 }

  lemma OpenEffect(p: Endpoint)
    requires Good(p)
    ensures !MayOpen(p) ==> OpenStream(p).result.Err? && OpenStream(p).state == p
    ensures MayOpen(p) ==>
              var (s, p') := (p.nextLocalId, OpenStream(p).state);
              && OpenStream(p).result == Ok(s) && p'.handshake.Established?
              && p'.streams == p.streams[s := NewStream(s)] && s !in p.streams
              && p'.nextLocalId == s + 2 && p'.out.All() == p.out.All() + [OpenFrame(s)]
  {
    if MayOpen(p) {
      SmallFrameFits(p.out, OpenFrame(p.nextLocalId));
    }
  }

  lemma OpenPair(p: Endpoint, q: Endpoint, pq: seq<Frame>, qp: seq<Frame>, p': Endpoint)
    requires Linked(p, q, pq, qp) && p.nextLocalId !in p.streams
    requires p'.role == p.role && p'.nextLocalId == p.nextLocalId + 2
    requires p'.streams == p.streams[p.nextLocalId := NewStream(p.nextLocalId)]
    ensures PairAfterSend(p', q, pq, qp, OpenFrame(p.nextLocalId))
  {
    var s := p.nextLocalId;
    var f := OpenFrame(s);
    assert StreamInv(p, q, pq, qp, s);
    assert Proj(pq, s) + [f] == [f];
    OpensStream(Fresh, Fresh, Proj(pq, s), Proj(qp, s), s, f);
  }

  lemma OpenKeepsLinked(p: Endpoint, q: Endpoint, pq: seq<Frame>, qp: seq<Frame>)
    requires Linked(p, q, pq, qp)
    ensures KeptLinked(p, q, pq, qp, OpenStream(p).state)
  {
    OpenEffect(p);
    if MayOpen(p) {
      var s, p' := p.nextLocalId, OpenStream(p).state;
      OpenKeepsGood(p);
      OpenPair(p, q, pq, qp, p');
      assert p'.streams - {s} == p.streams - {s};
      SendingKeepsLinked(p, q, pq, qp, p', OpenFrame(s));
    } else {
      UnchangedIsKept(p, q, pq, qp);
    }
  }

  // ---- send_data ----

  /** Appending any other frame than an Open does not change how the peer's side
      of the stream is read. */
  lemma SideAfterSend(q: Endpoint, next: u32, s: u32, xy: seq<Frame>, f: Frame)
    requires !f.header.frameType.Open?
    ensures SideOf(q, next, s, xy + [f]) == SideOf(q, next, s, xy)
  {
  }

  /** A stream in the map of a linked endpoint, with its invariant. */
  lemma LiveStream(p: Endpoint, q: Endpoint, pq: seq<Frame>, qp: seq<Frame>, s: u32) returns (y: Side)
    requires Linked(p, q, pq, qp) && s in p.streams
    ensures s != 0 && y == SideOf(q, p.nextLocalId, s, Proj(pq, s))
    ensures PairInv(Own(p.role, s), Live(p.streams[s]), y, Proj(pq, s), Proj(qp, s))
    ensures p.streams[s].sendWindow <= DEFAULT_WINDOW && TotalBytes(p.streams[s].recvQueue) <= DEFAULT_WINDOW
  {
    y := SideOf(q, p.nextLocalId, s, Proj(pq, s));
    assert StreamInv(p, q, pq, qp, s);
    assert SideOf(p, q.nextLocalId, s, Proj(qp, s)) == Live(p.streams[s]);
  }

  /** `send_data` gets as far as the write buffer. */
  predicate MaySend(p: Endpoint, s: u32, payload: seq<byte>) {
    && p.handshake.Established? && payload != [] && s in p.streams && p.streams[s].state.CanSend()
    && |payload| <= p.streams[s].sendWindow
  }

  lemma DataEffect(p: Endpoint, s: u32, payload: seq<byte>)
    requires Good(p) && (s in p.streams ==> p.streams[s].sendWindow <= DEFAULT_WINDOW)
    ensures !MaySend(p, s, payload) ==>
              && SendData(p, s, payload).state == p
              && (SendData(p, s, payload).result.Ok? <==> p.handshake.Established? && payload == [])
              && SendData(p, s, payload).result != Err(BufferOverflow)
    ensures MaySend(p, s, payload) ==>
              var p' := SendData(p, s, payload).state;
              && SendData(p, s, payload).result == Ok(()) && p'.handshake.Established?
              && p'.streams == p.streams[s := ConsumeSend(p.streams[s], |payload|)]
              && p'.nextLocalId == p.nextLocalId && p'.out.All() == p.out.All() + [DataFrame(s, payload)]
  {
    if MaySend(p, s, payload) {
      SmallFrameFits(p.out, DataFrame(s, payload));
    }
  }

  lemma DataPair(p: Endpoint, q: Endpoint, pq: seq<Frame>, qp: seq<Frame>, p': Endpoint, s: u32, payload: seq<byte>)
    requires Linked(p, q, pq, qp) && MaySend(p, s, payload)
    requires p'.role == p.role && p'.nextLocalId == p.nextLocalId
    requires p'.streams == p.streams[s := ConsumeSend(p.streams[s], |payload|)]
    ensures PairAfterSend(p', q, pq, qp, DataFrame(s, payload))
  {
    var y := LiveStream(p, q, pq, qp, s);
    var f := DataFrame(s, payload);
    SendsData(Own(p.role, s), Live(p.streams[s]), y, Proj(pq, s), Proj(qp, s), f);
    SideAfterSend(q, p.nextLocalId, s, Proj(pq, s), f);
  }

  /** Data is refused for the documented reasons only: the write buffer has room
      for whatever the peer's window allows. */
  lemma DataKeepsLinked(p: Endpoint, q: Endpoint, pq: seq<Frame>, qp: seq<Frame>, s: u32, payload: seq<byte>)
    requires Linked(p, q, pq, qp)
    ensures var r := SendData(p, s, payload);
            && KeptLinked(p, q, pq, qp, r.state) && r.result != Err(BufferOverflow)
            && Emitted(p, r.state) == if r.result.Ok? && payload != [] then [DataFrame(s, payload)] else []
  {
    if s in p.streams {
      var _ := LiveStream(p, q, pq, qp, s);
    }
    DataEffect(p, s, payload);
    if MaySend(p, s, payload) {
      var p' := SendData(p, s, payload).state;
      SendDataKeepsGood(p, s, payload);
      DataPair(p, q, pq, qp, p', s, payload);
      assert p'.streams - {s} == p.streams - {s};
      SendingKeepsLinked(p, q, pq, qp, p', DataFrame(s, payload));
    } else {
      UnchangedIsKept(p, q, pq, qp);
    }
  }

  // ---- close_stream ----

  predicate MayClose(p: Endpoint, s: u32) { p.handshake.Established? && s in p.streams }

  lemma CloseEffect(p: Endpoint, s: u32)
    requires Good(p)
    ensures !MayClose(p, s) ==> CloseStream(p, s).state == p
    ensures MayClose(p, s) ==>
              var p' := CloseStream(p, s).state;
              var x' := CloseLocally(Live(p.streams[s]));
              && CloseStream(p, s).result == Ok(()) && p'.handshake.Established?
              && p'.streams == (if x'.Gone? then p.streams - {s} else p.streams[s := x'.view])
              && p'.nextLocalId == p.nextLocalId && p'.out.All() == p.out.All() + [CloseFrame(s)]
  {
    if MayClose(p, s) {
      SmallFrameFits(p.out, CloseFrame(s));
    }
  }

  /** A stream that leaves the map of `p` reads as gone, not as fresh. */
  lemma RemovedReadsAsGone(p: Endpoint, q: Endpoint, xy: seq<Frame>, yx: seq<Frame>, y: Side, s: u32, p': Endpoint)
    requires s in p.streams && s !in p'.streams && PairInv(Own(p.role, s), Live(p.streams[s]), y, xy, yx)
    requires y == SideOf(q, p.nextLocalId, s, xy) && p.role != q.role && GoodStreams(p) && GoodStreams(q)
    requires p'.role == p.role && p'.nextLocalId == p.nextLocalId
    ensures SideOf(p', q.nextLocalId, s, yx) == Gone
  {
    if !Own(p.role, s) {
      AcceptedMeansOpened(Live(p.streams[s]), y, xy, yx);
    }
  }

  lemma ClosePair(p: Endpoint, q: Endpoint, pq: seq<Frame>, qp: seq<Frame>, p': Endpoint, s: u32)
    requires Linked(p, q, pq, qp) && MayClose(p, s) && p.streams[s].state.CanSend()
    requires p'.role == p.role && p'.nextLocalId == p.nextLocalId
    requires var x' := CloseLocally(Live(p.streams[s]));
             p'.streams == (if x'.Gone? then p.streams - {s} else p.streams[s := x'.view])
    ensures PairAfterSend(p', q, pq, qp, CloseFrame(s))
  {
    var y := LiveStream(p, q, pq, qp, s);
    var f := CloseFrame(s);
    SendsClose(Own(p.role, s), Live(p.streams[s]), y, Proj(pq, s), Proj(qp, s), f);
    SideAfterSend(q, p.nextLocalId, s, Proj(pq, s), f);
    if s !in p'.streams {
      RemovedReadsAsGone(p, q, Proj(pq, s), Proj(qp, s), y, s, p');
    }
  }

  lemma CloseKeepsLinked(p: Endpoint, q: Endpoint, pq: seq<Frame>, qp: seq<Frame>, s: u32)
    requires Linked(p, q, pq, qp) && Conforming(p, Call.Close(s))
    ensures KeptLinked(p, q, pq, qp, CloseStream(p, s).state)
  {
    CloseEffect(p, s);
    if MayClose(p, s) {
      var p' := CloseStream(p, s).state;
      CloseKeepsGood(p, s);
      ClosePair(p, q, pq, qp, p', s);
      assert p'.streams - {s} == p.streams - {s};
      SendingKeepsLinked(p, q, pq, qp, p', CloseFrame(s));
    } else {
      UnchangedIsKept(p, q, pq, qp);
    }
  }

  // ---- recv_data ----

  predicate MayPop(p: Endpoint, s: u32) { p.handshake.Established? && s in p.streams && p.streams[s].recvQueue != [] }

  /** Popping returns credit while the peer may still send. */
  predicate PopReturnsCredit(p: Endpoint, s: u32) {
    MayPop(p, s) && p.streams[s].recvQueue[0] != [] && p.streams[s].state.CanReceive()
  }

  function PopFrame(p: Endpoint, s: u32): Frame
    requires MayPop(p, s)
  {
    WindowFrame(s, |p.streams[s].recvQueue[0]| % 0x1_0000_0000)
  }

  lemma PopEffect(p: Endpoint, s: u32)
    requires Good(p)
    ensures var r := RecvData(p, s);
            && (!MayPop(p, s) ==> r.state == p && (r.result.Ok? ==> r.result == Ok(None)))
            && (MayPop(p, s) ==>
                  && r.result == Ok(Some(p.streams[s].recvQueue[0])) && r.state.handshake.Established?
                  && r.state.streams == p.streams[s := PopRecv(p.streams[s]).0]
                  && r.state.nextLocalId == p.nextLocalId
                  && r.state.out.All() == p.out.All() + if PopReturnsCredit(p, s) then [PopFrame(p, s)] else [])
  {
    if MayPop(p, s) {
      SmallFrameFits(p.out, PopFrame(p, s));
    } else if s in p.streams {
      assert p.streams[s := p.streams[s]] == p.streams;
    }
  }

  lemma WindowCarriesIncrement(s: u32, n: u32)
    ensures WindowFrame(s, n).payload == BE32(n) && FromBE32(BE32(n)) == n && CreditOf(WindowFrame(s, n)) == n
  {
    BE32RoundTrip(n);
  }

  lemma PopFrameCarriesLength(p: Endpoint, s: u32)
    requires MayPop(p, s) && |p.streams[s].recvQueue[0]| <= DEFAULT_WINDOW
    ensures |PopFrame(p, s).payload| == 4 && FromBE32(PopFrame(p, s).payload) == |p.streams[s].recvQueue[0]|
  {
    var n := |p.streams[s].recvQueue[0]|;
    assert n % 0x1_0000_0000 == n;
    WindowCarriesIncrement(s, n);
  }

  lemma PopPair(p: Endpoint, q: Endpoint, pq: seq<Frame>, qp: seq<Frame>, p': Endpoint, s: u32)
    requires Linked(p, q, pq, qp) && PopReturnsCredit(p, s) && p.streams[s].state.CanSend()
    requires p'.role == p.role && p'.nextLocalId == p.nextLocalId
    requires p'.streams == p.streams[s := PopRecv(p.streams[s]).0]
    ensures PairAfterSend(p', q, pq, qp, PopFrame(p, s))
  {
    var y := LiveStream(p, q, pq, qp, s);
    var f := PopFrame(p, s);
    PopFrameCarriesLength(p, s);
    PopsAndReturnsCredit(Own(p.role, s), Live(p.streams[s]), y, Proj(pq, s), Proj(qp, s), f);
    SideAfterSend(q, p.nextLocalId, s, Proj(pq, s), f);
  }

  lemma SilentPopPair(p: Endpoint, q: Endpoint, pq: seq<Frame>, qp: seq<Frame>, p': Endpoint, s: u32)
    requires Linked(p, q, pq, qp) && MayPop(p, s) && !PopReturnsCredit(p, s)
    requires p'.role == p.role && p'.nextLocalId == p.nextLocalId
    requires p'.streams == p.streams[s := PopRecv(p.streams[s]).0]
    ensures StreamInv(p', q, pq, qp, s)
  {
    var y := LiveStream(p, q, pq, qp, s);
    if p.streams[s].state.CanReceive() {
      PopsEmptyPayload(Own(p.role, s), Live(p.streams[s]), y, Proj(pq, s), Proj(qp, s));
    } else {
      PopsAfterRemoteClose(Own(p.role, s), Live(p.streams[s]), y, Proj(pq, s), Proj(qp, s));
    }
  }

  /** A step without frames that moves one stream. */
  lemma SilentStepIsKept(p: Endpoint, q: Endpoint, pq: seq<Frame>, qp: seq<Frame>, p': Endpoint, s: u32)
    requires Linked(p, q, pq, qp) && Good(p') && 0 !in p'.streams && p'.out.All() == p.out.All()
    requires p'.handshake == p.handshake && ChangesOnly(p, p', s) && StreamInv(p', q, pq, qp, s)
    ensures KeptLinked(p, q, pq, qp, p') && Emitted(p, p') == []
  {
    assert Emitted(p, p') == [] && pq + [] == pq;
    OtherStreamsKept(p, q, pq, qp, p', pq, qp, s);
  }

  lemma PopKeepsLinked(p: Endpoint, q: Endpoint, pq: seq<Frame>, qp: seq<Frame>, s: u32)
    requires Linked(p, q, pq, qp) && Conforming(p, Call.Pop(s))
    ensures KeptLinked(p, q, pq, qp, RecvData(p, s).state)
  {
    PopEffect(p, s);
    var p' := RecvData(p, s).state;
    if PopReturnsCredit(p, s) {
      RecvDataKeepsGood(p, s);
      PopPair(p, q, pq, qp, p', s);
      assert p'.streams - {s} == p.streams - {s};
      SendingKeepsLinked(p, q, pq, qp, p', PopFrame(p, s));
    } else if MayPop(p, s) {
      RecvDataKeepsGood(p, s);
      SilentPopPair(p, q, pq, qp, p', s);
      assert p'.streams - {s} == p.streams - {s};
      SilentStepIsKept(p, q, pq, qp, p', s);
    } else {
      UnchangedIsKept(p, q, pq, qp);
    }
  }

  // ---- Calls on the connection ----

  /** Sending a frame of no stream. */
  lemma ControlSendIsKept(p: Endpoint, q: Endpoint, pq: seq<Frame>, qp: seq<Frame>, p': Endpoint, f: Frame)
    requires Linked(p, q, pq, qp) && Good(p') && p'.out.All() == p.out.All() + [f]
    requires p'.role == p.role && p'.streams == p.streams && p'.nextLocalId == p.nextLocalId
    requires !StreamFrame(f) && Tame(f) && HandshakeInv(p', q, pq + [f], qp)
    ensures KeptLinked(p, q, pq, qp, p') && Emitted(p, p') == [f]
  {
    assert Emitted(p, p') == [f];
    forall s: u32 ensures Proj(pq + [f], s) == Proj(pq, s) {
      ProjAppend(pq, f, s);
    }
    OtherStreamsKept(p, q, pq, qp, p', pq + [f], qp, 0);
  }

  lemma PingKeepsLinked(p: Endpoint, q: Endpoint, pq: seq<Frame>, qp: seq<Frame>, payload: seq<byte>)
    requires Linked(p, q, pq, qp) && |payload| <= MAX_PING
    ensures KeptLinked(p, q, pq, qp, SendPing(p, payload).state) && SendPing(p, payload).result == Ok(())
  {
    var f := PingFrame(payload);
    SmallFrameFits(p.out, f);
    SendKeepsGood(p, Frametype.Ping, FLAG_CONTROL, 0, payload);
    PingPongKeepsHandshake(p, q, pq, qp, f);
    ControlSendIsKept(p, q, pq, qp, SendPing(p, payload).state, f);
  }

  lemma FlushKeepsLinked(p: Endpoint, q: Endpoint, pq: seq<Frame>, qp: seq<Frame>)
    requires Linked(p, q, pq, qp)
    ensures KeptLinked(p, q, pq, qp, FlushAll(p)) && Emitted(p, FlushAll(p)) == []
  {
    assert FlushAll(p).out.All() == p.out.All();
    assert ChangesOnly(p, FlushAll(p), 0);
    assert Emitted(p, FlushAll(p)) == [] && pq + [] == pq;
    OtherStreamsKept(p, q, pq, qp, FlushAll(p), pq, qp, 0);
  }

  /** `send_hello` sends at most one Hello. */
  lemma HelloKeepsLinked(p: Endpoint, q: Endpoint, pq: seq<Frame>, qp: seq<Frame>)
    requires Linked(p, q, pq, qp)
    ensures KeptLinked(p, q, pq, qp, SendHello(p).state)
  {
    if p.role.Initiator? && p.handshake.AwaitingHello? {
      var f := HelloFrame();
      SmallFrameFits(p.out, f);
      SendKeepsGood(p, Frametype.Hello, FLAG_CONTROL, 0, []);
      QuietThenLeads(pq, f);
      ControlSendIsKept(p, q, pq, qp, SendHello(p).state, f);
    } else {
      UnchangedIsKept(p, q, pq, qp);
    }
  }

  /** Every conforming call, whatever it returns, keeps the joint invariant. */
  lemma CallKeepsLinked(p: Endpoint, q: Endpoint, pq: seq<Frame>, qp: seq<Frame>, c: Call)
    requires Linked(p, q, pq, qp) && Conforming(p, c)
    ensures KeptLinked(p, q, pq, qp, Perform(p, c).0)
  {
    match c
    case Handshake =>
      UnchangedIsKept(p, q, pq, qp);
      HelloKeepsLinked(p, q, pq, qp);
      var h := SendHello(p).state;
      FlushKeepsLinked(h, q, pq + Emitted(p, h), qp);
      assert pq + Emitted(p, h) + [] == pq + Emitted(p, h);
      assert Emitted(p, FlushAll(h)) == Emitted(p, h);
    case Open => OpenKeepsLinked(p, q, pq, qp);
    case Data(s, payload) => DataKeepsLinked(p, q, pq, qp, s, payload);
    case Close(s) => CloseKeepsLinked(p, q, pq, qp, s);
    case Pop(s) => PopKeepsLinked(p, q, pq, qp, s);
    case Ping(payload) => PingKeepsLinked(p, q, pq, qp, payload);
    case Flush => FlushKeepsLinked(p, q, pq, qp);
  }

  // ---- recv_frame ----

  /** `p` handled the oldest travelling frame without error and reached `p'`. */
  ghost predicate Received(p: Endpoint, q: Endpoint, pq: seq<Frame>, qp: seq<Frame>)
    requires qp != []
  {
    var r := HandleFrame(p, qp[0]);
    && r.result == Ok(qp[0])
    && r.state.out.All() == p.out.All() + Emitted(p, r.state)
    && Linked(r.state, q, pq + Emitted(p, r.state), qp[1..])
  }

  lemma HeadOfProj(fs: seq<Frame>, s: u32)
    requires fs != []
    ensures if StreamFrame(fs[0]) && fs[0].header.streamId == s
            then Proj(fs, s) != [] && Proj(fs, s)[0] == fs[0] && Proj(fs, s)[1..] == Proj(fs[1..], s)
            else Proj(fs, s) == Proj(fs[1..], s)
  {
  }

  /** No stream frame reaches an end that has not completed the handshake. */
  lemma StreamFrameMeansEstablished(p: Endpoint, q: Endpoint, pq: seq<Frame>, qp: seq<Frame>)
    requires HandshakeInv(p, q, pq, qp) && p.role != q.role && qp != [] && StreamFrame(qp[0])
    ensures p.handshake.Established? && HandshakeInv(p, q, pq, qp[1..])
  {
    assert qp[0] in qp;
  }

  /** The invariant of one stream once its oldest frame was received by `p'`. */
  ghost predicate PairAfterReceive(p': Endpoint, q: Endpoint, pq: seq<Frame>, qp: seq<Frame>, s: u32)
    requires qp != []
  {
    StreamInv(p', q, pq, qp[1..], s)
  }

  lemma ReceivingKeepsLinked(p: Endpoint, q: Endpoint, pq: seq<Frame>, qp: seq<Frame>, p': Endpoint)
    requires Linked(p, q, pq, qp) && qp != [] && StreamFrame(qp[0])
    requires HandleFrame(p, qp[0]) == Reply(p', Ok(qp[0]))
    requires p'.out == p.out && p'.handshake == p.handshake && 0 !in p'.streams
    requires ChangesOnly(p, p', qp[0].header.streamId) && PairAfterReceive(p', q, pq, qp, qp[0].header.streamId)
    ensures Received(p, q, pq, qp)
  {
    var s := qp[0].header.streamId;
    HandleKeepsGood(p, qp[0]);
    StreamFrameMeansEstablished(p, q, pq, qp);
    forall t: u32 | t != s ensures Proj(qp[1..], t) == Proj(qp, t) {
      HeadOfProj(qp, t);
    }
    OtherStreamsKept(p, q, pq, qp, p', pq, qp[1..], s);
    assert Emitted(p, p') == [] && pq + [] == pq;
  }

  /** The stream of the oldest frame, as both ends see it. */
  lemma ArrivingStream(p: Endpoint, q: Endpoint, pq: seq<Frame>, qp: seq<Frame>) returns (x: Side, y: Side)
    requires Linked(p, q, pq, qp) && qp != [] && StreamFrame(qp[0])
    ensures var s := qp[0].header.streamId;
            && s != 0 && p.handshake.Established?
            && x == SideOf(p, q.nextLocalId, s, Proj(qp, s)) && y == SideOf(q, p.nextLocalId, s, Proj(pq, s))
            && PairInv(Own(p.role, s), x, y, Proj(pq, s), Proj(qp, s))
            && Proj(qp, s) != [] && Proj(qp, s)[0] == qp[0] && Proj(qp, s)[1..] == Proj(qp[1..], s)
  {
    var s := qp[0].header.streamId;
    assert Tame(qp[0]);
    assert StreamInv(p, q, pq, qp, s);
    x, y := SideOf(p, q.nextLocalId, s, Proj(qp, s)), SideOf(q, p.nextLocalId, s, Proj(pq, s));
    HeadOfProj(qp, s);
    StreamFrameMeansEstablished(p, q, pq, qp);
  }

  lemma OpenArrives(p: Endpoint, q: Endpoint, pq: seq<Frame>, qp: seq<Frame>) returns (p': Endpoint)
    requires Linked(p, q, pq, qp) && qp != [] && qp[0].header.frameType.Open?
    ensures var s := qp[0].header.streamId;
            && s != 0 && p.handshake.Established? && !Own(p.role, s) && s !in p.streams
            && p' == p.(streams := p.streams[s := NewStream(s)]) && PairAfterReceive(p', q, pq, qp, s)
  {
    var x, y := ArrivingStream(p, q, pq, qp);
    var s := qp[0].header.streamId;
    HeadIsAcceptable(Own(p.role, s), x, y, Proj(pq, s), Proj(qp, s));
    ReceivesOpen(Own(p.role, s), x, y, Proj(pq, s), Proj(qp, s), s);
    p' := p.(streams := p.streams[s := NewStream(s)]);
  }

  lemma ReceivesOpenFrame(p: Endpoint, q: Endpoint, pq: seq<Frame>, qp: seq<Frame>)
    requires Linked(p, q, pq, qp) && qp != [] && qp[0].header.frameType.Open?
    ensures Received(p, q, pq, qp)
  {
    var p' := OpenArrives(p, q, pq, qp);
    var s := qp[0].header.streamId;
    assert p'.streams - {s} == p.streams - {s};
    ReceivingKeepsLinked(p, q, pq, qp, p');
  }

  lemma DataArrives(p: Endpoint, q: Endpoint, pq: seq<Frame>, qp: seq<Frame>) returns (p': Endpoint)
    requires Linked(p, q, pq, qp) && qp != [] && qp[0].header.frameType.Data?
    ensures var s := qp[0].header.streamId;
            && p.handshake.Established? && s != 0 && s in p.streams && p.streams[s].state.CanReceive()
            && p' == p.(streams := p.streams[s := PushRecv(p.streams[s], qp[0].payload)])
            && PairAfterReceive(p', q, pq, qp, s)
  {
    assert Tame(qp[0]);
    var x, y := ArrivingStream(p, q, pq, qp);
    var s := qp[0].header.streamId;
    HeadIsAcceptable(Own(p.role, s), x, y, Proj(pq, s), Proj(qp, s));
    ReceivesData(Own(p.role, s), x, y, Proj(pq, s), Proj(qp, s));
    p' := p.(streams := p.streams[s := PushRecv(p.streams[s], qp[0].payload)]);
  }

  lemma ReceivesDataFrame(p: Endpoint, q: Endpoint, pq: seq<Frame>, qp: seq<Frame>)
    requires Linked(p, q, pq, qp) && qp != [] && qp[0].header.frameType.Data?
    ensures Received(p, q, pq, qp)
  {
    var p' := DataArrives(p, q, pq, qp);
    assert Tame(qp[0]);
    var s := qp[0].header.streamId;
    assert p'.streams - {s} == p.streams - {s};
    ReceivingKeepsLinked(p, q, pq, qp, p');
  }

  lemma WindowArrives(p: Endpoint, q: Endpoint, pq: seq<Frame>, qp: seq<Frame>) returns (p': Endpoint)
    requires Linked(p, q, pq, qp) && qp != [] && qp[0].header.frameType.Window?
    ensures var s := qp[0].header.streamId;
            && p.handshake.Established? && s != 0 && s in p.streams && |qp[0].payload| == 4
            && p' == p.(streams := p.streams[s := ApplyIncrement(p.streams[s], FromBE32(qp[0].payload))])
            && PairAfterReceive(p', q, pq, qp, s)
  {
    assert Tame(qp[0]);
    var x, y := ArrivingStream(p, q, pq, qp);
    var s := qp[0].header.streamId;
    HeadIsAcceptable(Own(p.role, s), x, y, Proj(pq, s), Proj(qp, s));
    ReceivesWindow(Own(p.role, s), x, y, Proj(pq, s), Proj(qp, s));
    p' := p.(streams := p.streams[s := ApplyIncrement(p.streams[s], FromBE32(qp[0].payload))]);
  }

  lemma ReceivesWindowFrame(p: Endpoint, q: Endpoint, pq: seq<Frame>, qp: seq<Frame>)
    requires Linked(p, q, pq, qp) && qp != [] && qp[0].header.frameType.Window?
    ensures Received(p, q, pq, qp)
  {
    var p' := WindowArrives(p, q, pq, qp);
    var s := qp[0].header.streamId;
    assert p'.streams - {s} == p.streams - {s};
    ReceivingKeepsLinked(p, q, pq, qp, p');
  }

  lemma CloseArrives(p: Endpoint, q: Endpoint, pq: seq<Frame>, qp: seq<Frame>) returns (p': Endpoint)
    requires Linked(p, q, pq, qp) && qp != [] && qp[0].header.frameType.Close?
    ensures var s := qp[0].header.streamId;
            && p.handshake.Established? && s != 0 && s in p.streams
            && p' == p.(streams := var state := RemoteClose(p.streams[s].state);
                                   if state.Closed? then p.streams - {s}
                                   else p.streams[s := p.streams[s].(state := state)])
            && PairAfterReceive(p', q, pq, qp, s)
  {
    var x, y := ArrivingStream(p, q, pq, qp);
    var s := qp[0].header.streamId;
    var xy, yx := Proj(pq, s), Proj(qp, s);
    HeadIsAcceptable(Own(p.role, s), x, y, xy, yx);
    ReceivesClose(Own(p.role, s), x, y, xy, yx);
    var state := RemoteClose(p.streams[s].state);
    p' := p.(streams := if state.Closed? then p.streams - {s} else p.streams[s := p.streams[s].(state := state)]);
    if state.Closed? {
      RemovedReadsAsGone(p, q, xy, yx, y, s, p');
      assert SideOf(p', q.nextLocalId, s, []) == Gone;
    }
  }

  lemma ReceivesCloseFrame(p: Endpoint, q: Endpoint, pq: seq<Frame>, qp: seq<Frame>)
    requires Linked(p, q, pq, qp) && qp != [] && qp[0].header.frameType.Close?
    ensures Received(p, q, pq, qp)
  {
    var p' := CloseArrives(p, q, pq, qp);
    var s := qp[0].header.streamId;
    assert p'.streams - {s} == p.streams - {s};
    ReceivingKeepsLinked(p, q, pq, qp, p');
  }

  // ---- Frames of the connection ----

  lemma DropsControlFrame(p: Endpoint, q: Endpoint, pq: seq<Frame>, qp: seq<Frame>, p': Endpoint)
    requires Linked(p, q, pq, qp) && qp != [] && !StreamFrame(qp[0])
    requires Good(p') && p'.role == p.role && p'.streams == p.streams && p'.nextLocalId == p.nextLocalId
    requires HandshakeInv(p', q, pq, qp[1..])
    ensures Linked(p', q, pq, qp[1..])
  {
    forall t: u32 ensures Proj(qp[1..], t) == Proj(qp, t) {
      HeadOfProj(qp, t);
    }
    OtherStreamsKept(p, q, pq, qp, p', pq, qp[1..], 0);
  }

  /** A ping is answered by a pong with the same payload. */
  lemma ReceivesPing(p: Endpoint, q: Endpoint, pq: seq<Frame>, qp: seq<Frame>)
    requires Linked(p, q, pq, qp) && qp != [] && qp[0].header.frameType.Ping?
    ensures Received(p, q, pq, qp)
    ensures Emitted(p, HandleFrame(p, qp[0]).state) == [PongFrame(qp[0].payload)]
  {
    assert Tame(qp[0]) && qp[0] in qp;
    DropsControlFrame(p, q, pq, qp, p);
    var f := PongFrame(qp[0].payload);
    var p' := Send(p, f).state;
    SmallFrameFits(p.out, f);
    SendKeepsGood(p, Frametype.Pong, FLAG_CONTROL, 0, qp[0].payload);
    PingPongKeepsHandshake(p, q, pq, qp[1..], f);
    ControlSendIsKept(p, q, pq, qp[1..], p', f);
    assert HandleFrame(p, qp[0]) == Reply(p', Ok(qp[0]));
  }

  lemma ReceivesPong(p: Endpoint, q: Endpoint, pq: seq<Frame>, qp: seq<Frame>)
    requires Linked(p, q, pq, qp) && qp != [] && qp[0].header.frameType.Pong?
    ensures Received(p, q, pq, qp)
  {
    assert Tame(qp[0]) && qp[0] in qp;
    DropsControlFrame(p, q, pq, qp, p);
    UnchangedIsKept(p, q, pq, qp[1..]);
  }

  /** A Hello finds an acceptor that waits for it. */
  lemma ReceivesHello(p: Endpoint, q: Endpoint, pq: seq<Frame>, qp: seq<Frame>)
    requires Linked(p, q, pq, qp) && qp != [] && qp[0].header.frameType.Hello?
    ensures Received(p, q, pq, qp)
  {
    assert Tame(qp[0]) && qp[0] in qp;
    assert p.role.Acceptor? && p.handshake.AwaitingHello? && Quiet(qp[1..]) && Quiet(pq);
    var f := WelcomeFrame();
    var p' := HandleFrame(p, qp[0]).state;
    SmallFrameFits(p.out, f);
    HandleKeepsGood(p, qp[0]);
    QuietThenLeads(pq, f);
    assert Emitted(p, p') == [f];
    forall t: u32 ensures Proj(qp[1..], t) == Proj(qp, t) && Proj(pq + [f], t) == Proj(pq, t) {
      HeadOfProj(qp, t);
      ProjAppend(pq, f, t);
    }
    OtherStreamsKept(p, q, pq, qp, p', pq + [f], qp[1..], 0);
  }

  /** A Welcome finds an initiator that waits for it. */
  lemma ReceivesWelcome(p: Endpoint, q: Endpoint, pq: seq<Frame>, qp: seq<Frame>)
    requires Linked(p, q, pq, qp) && qp != [] && qp[0].header.frameType.Welcome?
    ensures Received(p, q, pq, qp)
  {
    assert Tame(qp[0]) && qp[0] in qp;
    assert p.role.Initiator? && p.handshake.AwaitingWelcome? && Settled(qp[1..]) && Quiet(pq);
    var p' := p.(handshake := Established);
    HandleKeepsGood(p, qp[0]);
    DropsControlFrame(p, q, pq, qp, p');
    UnchangedIsKept(p', q, pq, qp[1..]);
    assert Emitted(p, p') == [] && pq + [] == pq;
  }

  /** No `recv_frame` of linked managers fails: every frame that can arrive is
      accepted, and receiving it keeps the joint invariant. */
  lemma ReceiveKeepsLinked(p: Endpoint, q: Endpoint, pq: seq<Frame>, qp: seq<Frame>)
    requires Linked(p, q, pq, qp) && qp != []
    ensures Received(p, q, pq, qp)
  {
    assert Tame(qp[0]);
    match qp[0].header.frameType
    case Open => ReceivesOpenFrame(p, q, pq, qp);
    case Data => ReceivesDataFrame(p, q, pq, qp);
    case Close => ReceivesCloseFrame(p, q, pq, qp);
    case Window => ReceivesWindowFrame(p, q, pq, qp);
    case Hello => ReceivesHello(p, q, pq, qp);
    case Welcome => ReceivesWelcome(p, q, pq, qp);
    case Ping => ReceivesPing(p, q, pq, qp);
    case Pong => ReceivesPong(p, q, pq, qp);
  }
}
