/** Exactly which frames a manager refuses, in every run of two managers, whatever
    their users call (`transport/src/tcp/receiver.rs`, `transport/src/tcp/manager.rs`). */
module Refusals {
  import opened Bytes
  import opened TransportErrors
  import opened Frames
  import opened Streams
  import opened Protocol
  import opened ManagerInvariant
  import opened Multiplex
  import opened TwoParty
  import C = Connection

  // ---- What one end has sent and received on a stream ----

  predicate OfAStream(t: Frametype) { t.Open? || t.Data? || t.Close? || t.Reset? || t.Window? }

  predicate OnStream(f: Frame, s: u32) { OfAStream(f.header.frameType) && f.header.streamId == s }

  /** The frames of stream `s`, in order. */
  function Trace(fs: seq<Frame>, s: u32): seq<Frame> {
    if fs == [] then [] else Picked(fs[0], s) + Trace(fs[1..], s)
  }

  function Picked(f: Frame, s: u32): seq<Frame> { if OnStream(f, s) then [f] else [] }

  lemma TraceCons(f: Frame, fs: seq<Frame>, s: u32)
    ensures Trace([f] + fs, s) == Picked(f, s) + Trace(fs, s)
  {
  }

  lemma {:induction false} TraceConcat(a: seq<Frame>, b: seq<Frame>, s: u32)
    ensures Trace(a + b, s) == Trace(a, s) + Trace(b, s)
  {
    if a == [] {
      assert a + b == b;
    } else {
      var (f, rest) := (a[0], a[1..]);
      TraceConcat(rest, b, s);
      TraceCons(f, rest + b, s);
      assert a + b == [f] + (rest + b);
      ConcatAssociates(Picked(f, s), Trace(rest, s), Trace(b, s));
    }
  }

  lemma TraceAppend(fs: seq<Frame>, f: Frame, s: u32)
    ensures Trace(fs + [f], s) == if OnStream(f, s) then Trace(fs, s) + [f] else Trace(fs, s)
  {
    TraceConcat(fs, [f], s);
  }

  lemma TraceOfPrefix(fs: seq<Frame>, k: nat, s: u32)
    requires k <= |fs|
    ensures Trace(fs[..k], s) <= Trace(fs, s)
  {
    assert fs[..k] + fs[k..] == fs;
    TraceConcat(fs[..k], fs[k..], s);
  }

  predicate Has(fs: seq<Frame>, t: Frametype) { exists k :: 0 <= k < |fs| && fs[k].header.frameType == t }

  lemma HasAppend(fs: seq<Frame>, f: Frame, t: Frametype)
    ensures Has(fs + [f], t) <==> Has(fs, t) || f.header.frameType == t
  {
    if Has(fs, t) {
      var k :| 0 <= k < |fs| && fs[k].header.frameType == t;
      assert (fs + [f])[k].header.frameType == t;
    }
    if f.header.frameType == t {
      assert (fs + [f])[|fs|].header.frameType == t;
    }
  }

  /** The order in which one end sends on a stream: first the Open if it opens the
      stream, no data after a Close, and nothing after a Reset. */
  predicate WellOrdered(opener: bool, fs: seq<Frame>) {
    && (forall k :: 0 <= k < |fs| ==> (fs[k].header.frameType.Open? <==> opener && k == 0))
    && (forall j, k :: 0 <= j < k < |fs| ==> MayFollow(fs[j].header.frameType, fs[k].header.frameType))
  }

  predicate MayFollow(t: Frametype, u: Frametype) { !t.Reset? && (t.Close? ==> !u.Data?) }

  lemma PrefixIsWellOrdered(opener: bool, a: seq<Frame>, b: seq<Frame>)
    requires a <= b && WellOrdered(opener, b)
    ensures WellOrdered(opener, a)
  {
    forall j, k | 0 <= j < k < |a|
      ensures MayFollow(a[j].header.frameType, a[k].header.frameType)
    {
      assert a[j] == b[j] && a[k] == b[k];
    }
    assert forall k :: 0 <= k < |a| ==> a[k] == b[k];
  }

  lemma OrderGrows(opener: bool, fs: seq<Frame>, f: Frame)
    requires WellOrdered(opener, fs) && !Has(fs, Frametype.Reset)
    requires f.header.frameType.Open? <==> opener && fs == []
    requires f.header.frameType.Data? ==> !Has(fs, Frametype.Close)
    ensures WellOrdered(opener, fs + [f])
  {
  }

  /** The stream is over for an end that has sent and received these frames: both
      sides closed it, or one of them reset it. */
  predicate Over(sent: seq<Frame>, rcv: seq<Frame>) {
    || (Has(sent, Frametype.Close) && Has(rcv, Frametype.Close))
    || Has(sent, Frametype.Reset) || Has(rcv, Frametype.Reset)
  }

  /** The opener has sent the Open, or the other end has received it. */
  predicate Begun(own: bool, sent: seq<Frame>, rcv: seq<Frame>) { if own then sent != [] else rcv != [] }

  function StateAfter(sent: seq<Frame>, rcv: seq<Frame>): StreamState {
    if Has(sent, Frametype.Close) then HalfClosedLocal
    else if Has(rcv, Frametype.Close) then HalfClosedRemote else StreamState.Open
  }

  /** What an end holds of stream `s` follows from the frames it has sent and
      received on it. */
  predicate Follows(e: Endpoint, s: u32, sent: seq<Frame>, rcv: seq<Frame>) {
    var own := Own(e.role, s);
    && (s in e.streams <==> Begun(own, sent, rcv) && !Over(sent, rcv))
    && (s in e.streams ==> e.streams[s].state == StateAfter(sent, rcv))
    && WellOrdered(own, sent)
    && (own && s >= e.nextLocalId ==> sent == [])
    && (!own && rcv == [] ==> sent == [])
  }

  // ---- Local calls ----

  /** Stream `s` is where it was, but for windows and queue. */
  predicate Kept(e: Endpoint, e': Endpoint, s: u32) {
    && e'.role == e.role && e'.nextLocalId >= e.nextLocalId
    && (s in e'.streams <==> s in e.streams)
    && (s in e.streams ==> e'.streams[s].state == e.streams[s].state)
  }

  lemma KeptFollows(e: Endpoint, e': Endpoint, s: u32, sent: seq<Frame>, rcv: seq<Frame>)
    requires Follows(e, s, sent, rcv) && Kept(e, e', s)
    ensures Follows(e', s, sent, rcv)
  {
  }

  /** `e` sends Data or Window on a stream it holds. */
  lemma SendFollows(e: Endpoint, e': Endpoint, s: u32, sent: seq<Frame>, rcv: seq<Frame>, f: Frame)
    requires Follows(e, s, sent, rcv) && Kept(e, e', s) && e'.nextLocalId == e.nextLocalId && s in e.streams
    requires f.header.frameType.Window? || (f.header.frameType.Data? && e.streams[s].state.CanSend())
    ensures Follows(e', s, sent + [f], rcv)
  {
    HasAppend(sent, f, Frametype.Close);
    HasAppend(sent, f, Frametype.Reset);
    OrderGrows(Own(e.role, s), sent, f);
  }

  lemma OpenFollows(e: Endpoint, e': Endpoint, s: u32, sent: seq<Frame>, rcv: seq<Frame>, f: Frame)
    requires Follows(e, s, sent, rcv) && s == e.nextLocalId && Own(e.role, s) && f.header.frameType.Open?
    requires e'.role == e.role && e'.nextLocalId == s + 2 && s in e'.streams && e'.streams[s].state.Open?
    requires !Has(rcv, Frametype.Close) && !Has(rcv, Frametype.Reset)
    ensures Follows(e', s, sent + [f], rcv)
  {
    HasAppend(sent, f, Frametype.Close);
    HasAppend(sent, f, Frametype.Reset);
    OrderGrows(true, sent, f);
  }

  lemma CloseFollows(e: Endpoint, e': Endpoint, s: u32, sent: seq<Frame>, rcv: seq<Frame>, f: Frame)
    requires Follows(e, s, sent, rcv) && s in e.streams && f.header.frameType.Close?
    requires e'.role == e.role && e'.nextLocalId == e.nextLocalId
    requires var state := LocalClose(e.streams[s].state);
             if state.Closed? then s !in e'.streams else s in e'.streams && e'.streams[s].state == state
    ensures Follows(e', s, sent + [f], rcv)
  {
    HasAppend(sent, f, Frametype.Close);
    HasAppend(sent, f, Frametype.Reset);
    OrderGrows(Own(e.role, s), sent, f);
  }

  lemma ResetFollows(e: Endpoint, e': Endpoint, s: u32, sent: seq<Frame>, rcv: seq<Frame>, f: Frame)
    requires Follows(e, s, sent, rcv) && s in e.streams && f.header.frameType.Reset?
    requires e'.role == e.role && e'.nextLocalId == e.nextLocalId && s !in e'.streams
    ensures Follows(e', s, sent + [f], rcv)
  {
    HasAppend(sent, f, Frametype.Reset);
    OrderGrows(Own(e.role, s), sent, f);
  }

  /** What a call does to stream `s`: nothing, or one frame on it. */
  lemma CallFollows(e: Endpoint, c: Call, s: u32, rcv: seq<Frame>)
    requires Good(e) && Follows(e, s, Trace(e.out.All(), s), rcv)
    requires Own(e.role, s) && Trace(e.out.All(), s) == [] ==> rcv == []
    ensures Follows(Perform(e, c).0, s, Trace(Perform(e, c).0.out.All(), s), rcv)
  {
    match c
    case Open => OpenCallFollows(e, s, rcv);
    case Data(id, payload) => DataCallFollows(e, id, payload, s, rcv);
    case Close(id) => CloseCallFollows(e, id, s, rcv);
    case Reset(id) => ResetCallFollows(e, id, s, rcv);
    case Pop(id) => PopCallFollows(e, id, s, rcv);
    case _ => OtherCallFollows(e, c, s, rcv);
  }

  lemma OpenCallFollows(e: Endpoint, s: u32, rcv: seq<Frame>)
    requires Good(e) && Follows(e, s, Trace(e.out.All(), s), rcv)
    requires Own(e.role, s) && Trace(e.out.All(), s) == [] ==> rcv == []
    ensures var e' := OpenStream(e).state; Follows(e', s, Trace(e'.out.All(), s), rcv)
  {
    var (e', sent, f) := (OpenStream(e).state, Trace(e.out.All(), s), OpenFrame(e.nextLocalId));
    OpenEffect(e);
    TraceAppend(e.out.All(), f, s);
    if MayOpen(e) {
      if s == e.nextLocalId { OpenFollows(e, e', s, sent, rcv, f); } else { KeptFollows(e, e', s, sent, rcv); }
    }
  }

  lemma DataCallFollows(e: Endpoint, id: u32, payload: seq<byte>, s: u32, rcv: seq<Frame>)
    requires Good(e) && Follows(e, s, Trace(e.out.All(), s), rcv)
    ensures var e' := SendData(e, id, payload).state; Follows(e', s, Trace(e'.out.All(), s), rcv)
  {
    var (r, sent, f) := (SendData(e, id, payload), Trace(e.out.All(), s), DataFrame(id, payload));
    TraceAppend(e.out.All(), f, s);
    DataKeeps(e, id, payload, s);
    if r.result.Ok? && payload != [] && s == id {
      SendFollows(e, r.state, s, sent, rcv, f);
    } else {
      KeptFollows(e, r.state, s, sent, rcv);
    }
  }

  /** Whatever it returns, `send_data` changes only windows and output. */
  lemma DataKeeps(e: Endpoint, id: u32, payload: seq<byte>, s: u32)
    ensures var r := SendData(e, id, payload);
            && Kept(e, r.state, s) && r.state.nextLocalId == e.nextLocalId
            && if r.result.Ok? && payload != []
               then id in e.streams && e.streams[id].state.CanSend()
                    && r.state.out.All() == e.out.All() + [DataFrame(id, payload)]
               else r.state.out.All() == e.out.All()
  {
    assert e.out.All() + [] == e.out.All();
  }

  lemma CloseCallFollows(e: Endpoint, id: u32, s: u32, rcv: seq<Frame>)
    requires Good(e) && Follows(e, s, Trace(e.out.All(), s), rcv)
    ensures var e' := CloseStream(e, id).state; Follows(e', s, Trace(e'.out.All(), s), rcv)
  {
    var (e', sent, f) := (CloseStream(e, id).state, Trace(e.out.All(), s), CloseFrame(id));
    CloseEffect(e, id);
    TraceAppend(e.out.All(), f, s);
    if MayClose(e, id) {
      if s == id { CloseFollows(e, e', s, sent, rcv, f); } else { KeptFollows(e, e', s, sent, rcv); }
    }
  }

  lemma ResetCallFollows(e: Endpoint, id: u32, s: u32, rcv: seq<Frame>)
    requires Good(e) && Follows(e, s, Trace(e.out.All(), s), rcv)
    ensures var e' := ResetStream(e, id).state; Follows(e', s, Trace(e'.out.All(), s), rcv)
  {
    var (e', sent, f) := (ResetStream(e, id).state, Trace(e.out.All(), s), ResetFrame(id));
    ResetEffect(e, id);
    TraceAppend(e.out.All(), f, s);
    if MayReset(e, id) {
      if s == id { ResetFollows(e, e', s, sent, rcv, f); } else { KeptFollows(e, e', s, sent, rcv); }
    }
  }

  predicate MayReset(e: Endpoint, id: u32) { e.handshake.Established? && id in e.streams }

  lemma ResetEffect(e: Endpoint, id: u32)
    requires Good(e)
    ensures !MayReset(e, id) ==> ResetStream(e, id).state == e
    ensures MayReset(e, id) ==>
              var r := ResetStream(e, id);
              && r.result == Ok(()) && r.state.handshake.Established? && r.state.streams == e.streams - {id}
              && r.state.role == e.role && r.state.nextLocalId == e.nextLocalId
              && r.state.out.All() == e.out.All() + [ResetFrame(id)]
  {
    if MayReset(e, id) {
      SmallFrameFits(e.out, ResetFrame(id));
    }
  }

  lemma PopCallFollows(e: Endpoint, id: u32, s: u32, rcv: seq<Frame>)
    requires Good(e) && Follows(e, s, Trace(e.out.All(), s), rcv)
    ensures var e' := RecvData(e, id).state; Follows(e', s, Trace(e'.out.All(), s), rcv)
  {
    var (e', sent) := (RecvData(e, id).state, Trace(e.out.All(), s));
    PopEffect(e, id);
    if PopReturnsCredit(e, id) {
      TraceAppend(e.out.All(), PopFrame(e, id), s);
      if s == id { SendFollows(e, e', s, sent, rcv, PopFrame(e, id)); } else { KeptFollows(e, e', s, sent, rcv); }
    } else {
      assert e.out.All() + [] == e.out.All();
      KeptFollows(e, e', s, sent, rcv);
    }
  }

  lemma OtherCallFollows(e: Endpoint, c: Call, s: u32, rcv: seq<Frame>)
    requires Follows(e, s, Trace(e.out.All(), s), rcv) && (c.Handshake? || c.Ping? || c.Flush?)
    ensures var e' := Perform(e, c).0; Follows(e', s, Trace(e'.out.All(), s), rcv)
  {
    OtherCallKeeps(e, c, s);
    KeptFollows(e, Perform(e, c).0, s, Trace(e.out.All(), s), rcv);
  }

  lemma OtherCallKeeps(e: Endpoint, c: Call, s: u32)
    requires c.Handshake? || c.Ping? || c.Flush?
    ensures var e' := Perform(e, c).0; Kept(e, e', s) && Trace(e'.out.All(), s) == Trace(e.out.All(), s)
  {
    OtherCallEmits(e, c);
    OtherCallKeepsStreams(e, c);
    var f := if c.Ping? then PingFrame(c.payload) else HelloFrame();
    TraceAppend(e.out.All(), f, s);
    assert !OnStream(f, s) && e.out.All() + [] == e.out.All();
  }

  lemma OtherCallKeepsStreams(e: Endpoint, c: Call)
    requires c.Handshake? || c.Ping? || c.Flush?
    ensures var e' := Perform(e, c).0; e'.streams == e.streams && e'.role == e.role && e'.nextLocalId == e.nextLocalId
  {
  }

  lemma OtherCallEmits(e: Endpoint, c: Call)
    requires c.Handshake? || c.Ping? || c.Flush?
    ensures var e' := Perform(e, c).0;
            && e'.out.All() == e.out.All() + Emitted(e, e')
            && (Emitted(e, e') == [] || Emitted(e, e') == [if c.Ping? then PingFrame(c.payload) else HelloFrame()])
  {
    var e' := Perform(e, c).0;
    CallEmits(e, c);
    match c
    case Handshake =>
      HelloMovesOn(e);
      assert e'.out.All() == e.out.All() || e'.out.All() == e.out.All() + [HelloFrame()];
    case Ping(payload) => assert e'.out.All() == e.out.All() || e'.out.All() == e.out.All() + [PingFrame(payload)];
    case Flush =>
  }

  // ---- Received frames ----

  /** A frame a manager can send: its window increments have four bytes, its handshake
      frames stream 0, and it sends neither Settings nor, in these runs, Error. */
  predicate Sane(f: Frame) {
    match f.header.frameType
    case Hello => f.header.streamId == 0
    case Welcome => f.header.streamId == 0
    case Window => |f.payload| == 4
    case Ping => Encodable(f)
    case Settings => false
    case Error => false
    case _ => true
  }

  /** The guards that make `recv_frame` fail. */
  predicate Refused(e: Endpoint, f: Frame) {
    match f.header.frameType
    case Data => f.header.streamId !in e.streams
    case Close => f.header.streamId !in e.streams
    case Window => f.header.streamId !in e.streams
    case Ping => |EncodeAll(e.out.buffered)| + HEADER_SIZE + |f.payload| > C.MAX_BUFFER_SIZE
    case _ => false
  }

  function ReceiptResult(e: Endpoint, f: Frame): Result<Frame> {
    if !Refused(e, f) then Ok(f)
    else Err(if f.header.frameType.Ping? then BufferOverflow else UnknownStream(f.header.streamId))
  }

  function Heard(rcv: seq<Frame>, f: Frame, s: u32): seq<Frame> { if OnStream(f, s) then rcv + [f] else rcv }

  /** A frame of a stream is refused exactly by that guard. */
  lemma StreamFrameOutcome(e: Endpoint, f: Frame, sent: seq<Frame>, rcv: seq<Frame>)
    requires e.handshake.Established? && OfAStream(f.header.frameType) && Sane(f)
    requires var s := f.header.streamId; Follows(e, s, sent, rcv) && WellOrdered(!Own(e.role, s), rcv + [f])
    ensures HandleFrame(e, f).result == ReceiptResult(e, f) && HandleFrame(e, f).state.out == e.out
    ensures Refused(e, f) ==> HandleFrame(e, f).state == e
  {
    var fs := rcv + [f];
    assert fs[|rcv|] == f;
    if f.header.frameType.Data? && Has(rcv, Frametype.Close) {
      var j :| 0 <= j < |rcv| && rcv[j].header.frameType.Close?;
      assert fs[j] == rcv[j];
    }
  }

  lemma StreamFrameFollows(e: Endpoint, f: Frame, sent: seq<Frame>, rcv: seq<Frame>)
    requires e.handshake.Established? && OfAStream(f.header.frameType) && Sane(f)
    requires var s := f.header.streamId; Follows(e, s, sent, rcv) && WellOrdered(!Own(e.role, s), rcv + [f])
    ensures Follows(HandleFrame(e, f).state, f.header.streamId, sent, rcv + [f])
  {
    StreamFrameOutcome(e, f, sent, rcv);
    assert (rcv + [f])[|rcv|] == f;
    HasAppend(rcv, f, Frametype.Close);
    HasAppend(rcv, f, Frametype.Reset);
    match f.header.frameType
    case Open =>
    case Data =>
    case Close =>
    case Reset =>
    case Window =>
  }

  /** A frame that is not on stream `s` leaves it alone. */
  lemma OtherFrameFollows(e: Endpoint, f: Frame, s: u32, sent: seq<Frame>, rcv: seq<Frame>)
    requires Follows(e, s, sent, rcv) && !OnStream(f, s)
    ensures Follows(HandleFrame(e, f).state, s, sent, rcv)
  {
    var e' := HandleFrame(e, f).state;
    OtherFrameKeeps(e, f, s);
    KeptFollows(e, e', s, sent, rcv);
  }

  lemma OtherFrameKeeps(e: Endpoint, f: Frame, s: u32)
    requires !OnStream(f, s)
    ensures Kept(e, HandleFrame(e, f).state, s)
  {
  }

  /** Receiving sends nothing on any stream. */
  lemma ReceiptSendsNothing(e: Endpoint, f: Frame, s: u32)
    ensures Trace(HandleFrame(e, f).state.out.All(), s) == Trace(e.out.All(), s)
  {
    var all := e.out.All();
    TraceAppend(all, WelcomeFrame(), s);
    TraceAppend(all, PongFrame(f.payload), s);
    TraceAppend(all, RejectionFrame(REJECTION_TEXT), s);
    assert all + [] == all;
    if HandleFrame(e, f).state.out != e.out {
      DispatchSends(e, f);
    }
  }

  lemma ReceiptFollows(e: Endpoint, f: Frame, s: u32, rcv: seq<Frame>)
    requires OfAStream(f.header.frameType) ==> e.handshake.Established? && Sane(f)
    requires Follows(e, s, Trace(e.out.All(), s), rcv) && WellOrdered(!Own(e.role, s), Heard(rcv, f, s))
    ensures var e' := HandleFrame(e, f).state; Follows(e', s, Trace(e'.out.All(), s), Heard(rcv, f, s))
  {
    ReceiptSendsNothing(e, f, s);
    if OnStream(f, s) {
      StreamFrameFollows(e, f, Trace(e.out.All(), s), rcv);
    } else {
      OtherFrameFollows(e, f, s, Trace(e.out.All(), s), rcv);
    }
  }

  // ---- The handshake ----

  /** Only pings and the handshake itself travel before an end is established. */
  lemma EarlyFrames(p: Endpoint, q: Endpoint, pq: seq<Frame>, qp: seq<Frame>)
    requires HandshakeInv(p, q, pq, qp) && p.role != q.role && qp != []
    ensures OfAStream(qp[0].header.frameType) ==> p.handshake.Established?
    ensures qp[0].header.frameType.Hello? ==>
              && p.role.Acceptor? && p.handshake.AwaitingHello? && q.handshake.AwaitingWelcome?
              && Quiet(qp[1..]) && Quiet(pq)
    ensures qp[0].header.frameType.Welcome? ==>
              && p.role.Initiator? && p.handshake.AwaitingWelcome? && q.handshake.Established?
              && Settled(qp[1..]) && Quiet(pq)
    ensures !qp[0].header.frameType.Hello? && !qp[0].header.frameType.Welcome? ==> HandshakeInv(p, q, pq, qp[1..])
  {
    assert qp[0] in qp;
  }

  lemma CallKeepsHandshake(p: Endpoint, q: Endpoint, pq: seq<Frame>, qp: seq<Frame>, c: Call)
    requires HandshakeInv(p, q, pq, qp) && p.role != q.role && Good(p)
    ensures HandshakeInv(Perform(p, c).0, q, pq + Emitted(p, Perform(p, c).0), qp)
    ensures forall f <- Emitted(p, Perform(p, c).0) :: Sane(f)
  {
    var p' := Perform(p, c).0;
    var fs := Emitted(p, p');
    CallEmits(p, c);
    assert pq + [] == pq;
    match c
    case Handshake => HelloKeepsHandshake(p, q, pq, qp);
    case Ping(payload) =>
      OtherCallEmits(p, c);
      PingPongKeepsHandshake(p, q, pq, qp, PingFrame(payload));
    case Flush => StreamCallEmits(p, c);
    case _ =>
      StreamCallEmits(p, c);
      if fs != [] {
        EstablishedSendKeepsHandshake(p, q, pq, qp, fs[0]);
      }
  }

  /** The other calls send nothing, or one frame of a stream once established. */
  lemma StreamCallEmits(e: Endpoint, c: Call)
    requires Good(e) && !c.Handshake? && !c.Ping?
    ensures var fs := Emitted(e, Perform(e, c).0);
            && Perform(e, c).0.handshake == e.handshake
            && (fs == [] || (|fs| == 1 && e.handshake.Established? && OfAStream(fs[0].header.frameType) && Sane(fs[0])))
  {
    CallEmits(e, c);
    match c
    case Open => OpenEffect(e);
    case Data(id, payload) => DataKeeps(e, id, payload, id);
    case Close(id) => CloseEffect(e, id);
    case Reset(id) => ResetEffect(e, id);
    case Pop(id) => PopEffect(e, id);
    case Flush =>
  }

  lemma HelloKeepsHandshake(p: Endpoint, q: Endpoint, pq: seq<Frame>, qp: seq<Frame>)
    requires HandshakeInv(p, q, pq, qp) && p.role != q.role && Good(p)
    ensures var p' := Perform(p, Call.Handshake).0;
            HandshakeInv(p', q, pq + Emitted(p, p'), qp) && forall f <- Emitted(p, p') :: Sane(f)
  {
    HelloMovesOn(p);
    var p' := BeginHandshake(p).state;
    assert pq + [] == pq;
    if p'.handshake != p.handshake {
      assert Emitted(p, p') == [HelloFrame()];
      QuietThenLeads(pq, HelloFrame());
    } else {
      assert Emitted(p, p') == [];
    }
  }

  /** What receiving a frame of no stream comes to. */
  ghost predicate ControlHandled(p: Endpoint, q: Endpoint, pq: seq<Frame>, qp: seq<Frame>)
    requires qp != []
  {
    var r := HandleFrame(p, qp[0]);
    && r.result == ReceiptResult(p, qp[0]) && HandshakeInv(r.state, q, pq + Emitted(p, r.state), qp[1..])
    && forall f <- Emitted(p, r.state) :: Sane(f)
  }

  lemma HelloHandled(p: Endpoint, q: Endpoint, pq: seq<Frame>, qp: seq<Frame>)
    requires HandshakeInv(p, q, pq, qp) && p.role != q.role && Good(p)
    requires qp != [] && Sane(qp[0]) && qp[0].header.frameType.Hello?
    ensures ControlHandled(p, q, pq, qp)
  {
    var p' := HandleFrame(p, qp[0]).state;
    EarlyFrames(p, q, pq, qp);
    SmallFrameFits(p.out, WelcomeFrame());
    QuietThenLeads(pq, WelcomeFrame());
    assert Emitted(p, p') == [WelcomeFrame()];
  }

  lemma WelcomeHandled(p: Endpoint, q: Endpoint, pq: seq<Frame>, qp: seq<Frame>)
    requires HandshakeInv(p, q, pq, qp) && p.role != q.role
    requires qp != [] && Sane(qp[0]) && qp[0].header.frameType.Welcome?
    ensures ControlHandled(p, q, pq, qp)
  {
    EarlyFrames(p, q, pq, qp);
    assert Emitted(p, HandleFrame(p, qp[0]).state) == [] && pq + [] == pq;
  }

  lemma PongFits(p: Endpoint, f: Frame)
    requires f.header.frameType.Ping? && Encodable(f)
    ensures HandleFrame(p, f).result == ReceiptResult(p, f)
    ensures Emitted(p, HandleFrame(p, f).state) == if Refused(p, f) then [] else [PongFrame(f.payload)]
    ensures Refused(p, f) ==> HandleFrame(p, f).state == p
    ensures HandleFrame(p, f).state == p.(out := HandleFrame(p, f).state.out)
  {
  }

  /** A handshake frame finds the end that waits for it, and a ping is answered
      unless the answer does not fit. */
  lemma ControlFrameHandled(p: Endpoint, q: Endpoint, pq: seq<Frame>, qp: seq<Frame>)
    requires HandshakeInv(p, q, pq, qp) && p.role != q.role && Good(p)
    requires qp != [] && Sane(qp[0]) && !OfAStream(qp[0].header.frameType)
    ensures ControlHandled(p, q, pq, qp)
  {
    assert pq + [] == pq;
    match qp[0].header.frameType
    case Hello => HelloHandled(p, q, pq, qp);
    case Welcome => WelcomeHandled(p, q, pq, qp);
    case Ping =>
      EarlyFrames(p, q, pq, qp);
      PongFits(p, qp[0]);
      PingPongKeepsHandshake(p, q, pq, qp[1..], PongFrame(qp[0].payload));
    case Pong =>
      EarlyFrames(p, q, pq, qp);
      assert Emitted(p, p) == [];
  }

  // ---- Both ends, over any run ----

  function SentOn(p: Party, s: u32): seq<Frame> { Trace(p.ep.out.All(), s) }

  /** The frames of stream `s` that `p` has received from `q`. */
  function HeardOn(p: Party, q: Party, s: u32): seq<Frame>
    requires p.got <= |q.ep.out.All()|
  {
    Trace(q.ep.out.All()[..p.got], s)
  }

  predicate FollowsAt(p: Party, q: Party, s: u32)
    requires p.got <= |q.ep.out.All()|
  {
    Follows(p.ep, s, SentOn(p, s), HeardOn(p, q, s))
  }

  ghost predicate AllFollow(p: Party, q: Party)
    requires p.got <= |q.ep.out.All()|
  {
    forall s: u32 :: FollowsAt(p, q, s)
  }

  predicate SaneEnd(p: Party) { Good(p.ep) && forall f <- p.ep.out.All() :: Sane(f) }

  ghost predicate BothFollow(p: Party, q: Party) {
    && p.got <= |q.ep.out.shipped| && q.got <= |p.ep.out.shipped| && p.ep.role != q.ep.role
    && SaneEnd(p) && SaneEnd(q)
    && HandshakeInv(p.ep, q.ep, InFlight(p, q.got), InFlight(q, p.got))
    && AllFollow(p, q) && AllFollow(q, p)
  }

  /** An end that has not opened its stream has received nothing on it. */
  lemma NothingBeforeOpen(p: Party, q: Party, s: u32)
    requires BothFollow(p, q) && Own(p.ep.role, s) && SentOn(p, s) == []
    ensures SentOn(q, s) == [] && HeardOn(p, q, s) == []
  {
    TraceOfPrefix(p.ep.out.All(), q.got, s);
    TraceOfPrefix(q.ep.out.All(), p.got, s);
    assert FollowsAt(q, p, s);
  }

  /** The peer has received what it had received, however the output grows. */
  lemma HeardStays(p: Party, p': Party, q: Party, more: seq<Frame>, s: u32)
    requires q.got <= |p.ep.out.All()| && p'.ep.out.All() == p.ep.out.All() + more
    ensures q.got <= |p'.ep.out.All()| && HeardOn(q, p', s) == HeardOn(q, p, s)
    ensures FollowsAt(q, p, s) ==> FollowsAt(q, p', s)
  {
    assert p'.ep.out.All()[..q.got] == p.ep.out.All()[..q.got];
  }

  lemma CallKeepsStream(p: Party, q: Party, c: Call, s: u32)
    requires BothFollow(p, q)
    ensures FollowsAt(Act(p, q, Do(c)), q, s)
  {
    if Own(p.ep.role, s) && SentOn(p, s) == [] {
      NothingBeforeOpen(p, q, s);
    }
    assert FollowsAt(p, q, s);
    CallFollows(p.ep, c, s, HeardOn(p, q, s));
  }

  lemma CallKeepsFollowing(p: Party, q: Party, c: Call)
    requires BothFollow(p, q)
    ensures BothFollow(Act(p, q, Do(c)), q)
  {
    var p' := Act(p, q, Do(c));
    CallEmits(p.ep, c);
    CallKeepsGood(p.ep, c);
    CallKeepsHandshake(p.ep, q.ep, InFlight(p, q.got), InFlight(q, p.got), c);
    assert InFlight(p', q.got) == InFlight(p, q.got) + Emitted(p.ep, p'.ep);
    forall s: u32
      ensures FollowsAt(p', q, s) && FollowsAt(q, p', s)
    {
      CallKeepsStream(p, q, c, s);
      assert FollowsAt(q, p, s);
      HeardStays(p, p', q, Emitted(p.ep, p'.ep), s);
    }
  }

  /** The next frame is one its sender may send there. */
  lemma NextIsWellOrdered(p: Party, q: Party, s: u32)
    requires BothFollow(p, q) && Deliverable(p, q)
    ensures var f := q.ep.out.shipped[p.got];
            && Sane(f) && Trace(q.ep.out.All()[..p.got + 1], s) == Heard(HeardOn(p, q, s), f, s)
            && Heard(HeardOn(p, q, s), f, s) <= SentOn(q, s)
            && WellOrdered(!Own(p.ep.role, s), Heard(HeardOn(p, q, s), f, s))
  {
    var f := q.ep.out.shipped[p.got];
    NextOfTrace(q.ep.out, p.got, s);
    assert f in q.ep.out.All();
    assert FollowsAt(q, p, s);
    OneOwner(p.ep.role, q.ep.role, s);
    PrefixIsWellOrdered(Own(q.ep.role, s), Heard(HeardOn(p, q, s), f, s), SentOn(q, s));
  }

  lemma OneOwner(a: Role, b: Role, s: u32)
    requires a != b
    ensures Own(a, s) <==> !Own(b, s)
  {
  }

  lemma NextOfTrace(o: Outbox, k: nat, s: u32)
    requires k < |o.shipped|
    ensures var heard := Heard(Trace(o.All()[..k], s), o.shipped[k], s);
            o.All()[k] == o.shipped[k] && Trace(o.All()[..k + 1], s) == heard && heard <= Trace(o.All(), s)
  {
    var all := o.All();
    assert all[..k + 1] == all[..k] + [o.shipped[k]];
    TraceAppend(all[..k], o.shipped[k], s);
    TraceOfPrefix(all, k + 1, s);
  }

  lemma ReceiptHandled(p: Party, q: Party)
    requires BothFollow(p, q) && Deliverable(p, q)
    ensures var f := q.ep.out.shipped[p.got];
            var r := HandleFrame(p.ep, f);
            && r.result == ReceiptResult(p.ep, f)
            && HandshakeInv(r.state, q.ep, InFlight(p, q.got) + Emitted(p.ep, r.state), InFlight(q, p.got + 1))
            && (OfAStream(f.header.frameType) ==> p.ep.handshake.Established?)
            && forall g <- Emitted(p.ep, r.state) :: Sane(g)
  {
    var f := q.ep.out.shipped[p.got];
    var (pq, qp) := (InFlight(p, q.got), InFlight(q, p.got));
    var s := f.header.streamId;
    assert qp[0] == f && qp[1..] == InFlight(q, p.got + 1);
    NextIsWellOrdered(p, q, s);
    EarlyFrames(p.ep, q.ep, pq, qp);
    if OfAStream(f.header.frameType) {
      assert FollowsAt(p, q, s);
      StreamFrameOutcome(p.ep, f, SentOn(p, s), HeardOn(p, q, s));
      StreamFrameKeepsHandshake(p.ep, f);
      assert pq + [] == pq;
    } else {
      ControlFrameHandled(p.ep, q.ep, pq, qp);
    }
  }

  lemma StreamFrameKeepsHandshake(e: Endpoint, f: Frame)
    requires OfAStream(f.header.frameType) && e.handshake.Established?
    ensures var e' := HandleFrame(e, f).state; e'.handshake == e.handshake && e'.role == e.role && Emitted(e, e') == []
  {
  }

  lemma ReceiptKeepsStream(p: Party, q: Party, s: u32)
    requires BothFollow(p, q) && Deliverable(p, q)
    ensures FollowsAt(Act(p, q, Recv), q, s)
  {
    ReceiptHandled(p, q);
    NextIsWellOrdered(p, q, s);
    assert FollowsAt(p, q, s);
    ReceiptFollows(p.ep, q.ep.out.shipped[p.got], s, HeardOn(p, q, s));
  }

  lemma ReceiptKeepsFollowing(p: Party, q: Party)
    requires BothFollow(p, q) && Deliverable(p, q)
    ensures BothFollow(Act(p, q, Recv), q)
  {
    var f := q.ep.out.shipped[p.got];
    var p' := Act(p, q, Recv);
    RecvMovesFrames(p, q);
    ReceiptHandled(p, q);
    HandleEmits(p.ep, f);
    HandleKeepsGood(p.ep, f);
    forall s: u32
      ensures FollowsAt(p', q, s) && FollowsAt(q, p', s)
    {
      ReceiptKeepsStream(p, q, s);
      assert FollowsAt(q, p, s);
      HeardStays(p, p', q, Emitted(p.ep, p'.ep), s);
    }
  }

  ghost predicate NetFollows(n: Net) { BothFollow(n.ini, n.acc) }

  lemma FollowingIsSymmetric(p: Party, q: Party)
    requires BothFollow(p, q)
    ensures BothFollow(q, p)
  {
  }

  lemma ActKeepsFollowing(p: Party, q: Party, a: Action)
    requires BothFollow(p, q)
    ensures BothFollow(Act(p, q, a), q)
  {
    match a
    case Do(c) => CallKeepsFollowing(p, q, c);
    case Recv => if Deliverable(p, q) { ReceiptKeepsFollowing(p, q); }
  }

  lemma StartFollows()
    ensures NetFollows(Start())
  {
  }

  /** In every run, whatever the users call, both ends follow their frames. */
  lemma {:induction false} RunFollows(events: seq<Event>)
    ensures NetFollows(Run(events))
  {
    if events == [] {
      StartFollows();
    } else {
      var before, ev := events[..|events| - 1], events[|events| - 1];
      var n := Run(before);
      RunFollows(before);
      if ev.role.Initiator? {
        ActKeepsFollowing(n.ini, n.acc, ev.action);
      } else {
        FollowingIsSymmetric(n.ini, n.acc);
        ActKeepsFollowing(n.acc, n.ini, ev.action);
        FollowingIsSymmetric(Step(n, ev).acc, n.ini);
      }
    }
  }

  /** In every run, whatever the users call, `recv_frame` fails on the next frame
      exactly if it is Data, Close or Window of a stream the receiver does not hold,
      or a Ping whose answer does not fit the write buffer. */
  lemma ExactlyTheseFail(events: seq<Event>, r: Role)
    requires Deliverable(Run(events).Side(r), Run(events).Peer(r))
    ensures var (p, q) := (Run(events).Side(r), Run(events).Peer(r));
            HandleFrame(p.ep, q.ep.out.shipped[p.got]).result == ReceiptResult(p.ep, q.ep.out.shipped[p.got])
  {
    RunFollows(events);
    FollowingIsSymmetric(Run(events).ini, Run(events).acc);
    ReceiptHandled(Run(events).Side(r), Run(events).Peer(r));
  }

  /** The same condition in terms of the frames sent and received: an end does not
      hold the stream of such a frame exactly if it has reset the stream, or has
      closed it and received the Close of the sender. */
  lemma NotHeldMeansOver(events: seq<Event>, r: Role)
    requires Deliverable(Run(events).Side(r), Run(events).Peer(r))
    requires NeedsStream(Next(Run(events).Side(r), Run(events).Peer(r)))
    ensures Run(events).Side(r).got <= |Run(events).Peer(r).ep.out.All()|
    ensures OverAtReceipt(Run(events).Side(r), Run(events).Peer(r))
  {
    RunFollows(events);
    FollowingIsSymmetric(Run(events).ini, Run(events).acc);
    NotHeld(Run(events).Side(r), Run(events).Peer(r));
  }

  function Next(p: Party, q: Party): Frame
    requires Deliverable(p, q)
  {
    q.ep.out.shipped[p.got]
  }

  predicate NeedsStream(f: Frame) {
    f.header.frameType.Data? || f.header.frameType.Close? || f.header.frameType.Window?
  }

  predicate OverAtReceipt(p: Party, q: Party)
    requires Deliverable(p, q)
  {
    var f := Next(p, q);
    var s := f.header.streamId;
    var (sent, rcv) := (SentOn(p, s), HeardOn(p, q, s));
    && (s !in p.ep.streams <==>
          Has(sent, Frametype.Reset) || (Has(sent, Frametype.Close) && Has(rcv, Frametype.Close)))
    && !Has(rcv, Frametype.Reset) && (f.header.frameType.Data? ==> !Has(rcv, Frametype.Close))
  }

  lemma NotHeld(p: Party, q: Party)
    requires BothFollow(p, q) && Deliverable(p, q) && NeedsStream(Next(p, q))
    ensures OverAtReceipt(p, q)
  {
    var f := Next(p, q);
    var s := f.header.streamId;
    NextIsWellOrdered(p, q, s);
    HeardBefore(!Own(p.ep.role, s), HeardOn(p, q, s), f);
    StreamHasBegun(p, q, s);
    assert FollowsAt(p, q, s);
  }

  lemma HeardBefore(opener: bool, rcv: seq<Frame>, f: Frame)
    requires WellOrdered(opener, rcv + [f]) && !f.header.frameType.Open?
    ensures opener ==> rcv != []
    ensures !Has(rcv, Frametype.Reset) && (f.header.frameType.Data? ==> !Has(rcv, Frametype.Close))
  {
    var fs := rcv + [f];
    assert fs[|rcv|] == f;
    forall k | 0 <= k < |rcv|
      ensures MayFollow(rcv[k].header.frameType, f.header.frameType)
    {
      assert fs[k] == rcv[k];
    }
  }

  lemma StreamHasBegun(p: Party, q: Party, s: u32)
    requires BothFollow(p, q) && SentOn(q, s) != []
    requires !Own(p.ep.role, s) ==> HeardOn(p, q, s) != []
    ensures Begun(Own(p.ep.role, s), SentOn(p, s), HeardOn(p, q, s))
  {
    if Own(p.ep.role, s) && SentOn(p, s) == [] {
      NothingBeforeOpen(p, q, s);
    }
  }

  // ---- The handshake, in any run ----

  /** In every run, whatever the users call: each end sends at most one handshake frame;
      the initiator is established only if the acceptor is; and a frame of a stream is
      only ever delivered to an end that is established. */
  lemma HandshakeIsOrdered(events: seq<Event>, r: Role)
    ensures var n := Run(events);
            && Handshakes(n.ini.ep.out.All()) <= 1 && Handshakes(n.acc.ep.out.All()) <= 1
            && (n.ini.ep.handshake.Established? ==> n.acc.ep.handshake.Established?)
            && (Deliverable(n.Side(r), n.Peer(r)) && OfAStream(Next(n.Side(r), n.Peer(r)).header.frameType) ==>
                  n.Side(r).ep.handshake.Established?)
  {
    var n := Run(events);
    RunFollows(events);
    RunCountsHandshakes(events);
    RolesAreFixed(events);
    FollowingIsSymmetric(n.ini, n.acc);
    if Deliverable(n.Side(r), n.Peer(r)) {
      ReceiptHandled(n.Side(r), n.Peer(r));
    }
  }
}
