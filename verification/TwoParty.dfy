/** Whole runs of an initiator and an acceptor: what they return to their users,
    over any interleaving of conforming calls, flushes and receives. */
module TwoParty {
  import opened Bytes
  import opened TransportErrors
  import opened Frames
  import opened Streams
  import opened Protocol
  import opened ManagerInvariant
  import opened StreamPair
  import opened Multiplex

  /** A payload and the stream it belongs to. */
  type Log = seq<(u32, seq<byte>)>

  /** An endpoint, how many of its peer's frames it has received, the non-empty
      payloads its user gave to successful `send_data` calls, and the Data
      payloads `recv_frame` returned to its user. */
  datatype Party = Party(ep: Endpoint, got: nat, given: Log, returned: Log)

  datatype Net = Net(ini: Party, acc: Party) {
    function Side(r: Role): Party { if r.Initiator? then ini else acc }

    function Peer(r: Role): Party { if r.Initiator? then acc else ini }

    function With(r: Role, p: Party): Net { if r.Initiator? then this.(ini := p) else this.(acc := p) }
  }

  datatype Action = Do(call: Call) | Recv

  datatype Event = Event(role: Role, action: Action)

  /** A frame has been flushed by the peer and not been received. */
  predicate Deliverable(p: Party, peer: Party) { p.got < |peer.ep.out.shipped| }

  /** One action of one party; `Recv` waits while nothing is deliverable. */
  function Act(p: Party, peer: Party, a: Action): Party {
    match a
    case Do(c) =>
      var (e, outcome) := Perform(p.ep, c);
      var accepted := if c.Data? && outcome.unit.Ok? && c.payload != [] then [(c.id, c.payload)] else [];
      p.(ep := e, given := p.given + accepted)
    case Recv =>
      if !Deliverable(p, peer) then p
      else
        var r := HandleFrame(p.ep, peer.ep.out.shipped[p.got]);
        p.(ep := r.state, got := p.got + 1,
           returned := p.returned + if r.result.Ok? then DataOf(r.result.value) else [])
  }

  function Step(n: Net, ev: Event): Net {
    n.With(ev.role, Act(n.Side(ev.role), n.Peer(ev.role), ev.action))
  }

  function Start(): Net {
    Net(Party(NewEndpoint(Initiator), 0, [], []), Party(NewEndpoint(Acceptor), 0, [], []))
  }

  function Run(events: seq<Event>): Net {
    if events == [] then Start() else Step(Run(events[..|events| - 1]), events[|events| - 1])
  }

  /** Both users keep to the contract at every step. */
  predicate ConformingRun(events: seq<Event>) {
    events == [] ||
    var before, ev := events[..|events| - 1], events[|events| - 1];
    ConformingRun(before) && (ev.action.Do? ==> Conforming(Run(before).Side(ev.role).ep, ev.action.call))
  }

  function DataOf(f: Frame): Log {
    if f.header.frameType.Data? then [(f.header.streamId, f.payload)] else []
  }

  /** The payloads of the Data frames, over all streams, in order. */
  function DataLog(fs: seq<Frame>): Log {
    if fs == [] then [] else DataOf(fs[0]) + DataLog(fs[1..])
  }

  function Payload(x: (u32, seq<byte>), s: u32): seq<seq<byte>> { if x.0 == s then [x.1] else [] }

  /** The payloads of one stream. */
  function OfStream(log: Log, s: u32): seq<seq<byte>> {
    if log == [] then [] else Payload(log[0], s) + OfStream(log[1..], s)
  }

  /** Frames sent by `p` that its peer has not received after `got` of them. */
  function InFlight(p: Party, got: nat): seq<Frame>
    requires got <= |p.ep.out.All()|
  {
    p.ep.out.All()[got..]
  }

  ghost predicate PartiesInv(p: Party, q: Party) {
    && p.got <= |q.ep.out.shipped| && q.got <= |p.ep.out.shipped|
    && Linked(p.ep, q.ep, InFlight(p, q.got), InFlight(q, p.got))
  }

  ghost predicate NetInv(n: Net) { PartiesInv(n.ini, n.acc) }

  lemma {:induction false} DataLogConcat(a: seq<Frame>, b: seq<Frame>)
    ensures DataLog(a + b) == DataLog(a) + DataLog(b)
  {
    if a == [] {
      assert a + b == b;
    } else {
      DataLogConcat(a[1..], b);
      assert (a + b)[0] == a[0] && (a + b)[1..] == a[1..] + b;
      ConcatAssociates(DataOf(a[0]), DataLog(a[1..]), DataLog(b));
    }
  }

  lemma DataLogOne(f: Frame)
    ensures DataLog([f]) == DataOf(f)
  {
  }

  lemma {:induction false} OfStreamConcat(a: Log, b: Log, s: u32)
    ensures OfStream(a + b, s) == OfStream(a, s) + OfStream(b, s)
  {
    if a == [] {
      assert a + b == b;
    } else {
      OfStreamConcat(a[1..], b, s);
      assert (a + b)[0] == a[0] && (a + b)[1..] == a[1..] + b;
      ConcatAssociates(Payload(a[0], s), OfStream(a[1..], s), OfStream(b, s));
    }
  }

  predicate IsHandshake(f: Frame) { f.header.frameType.Hello? || f.header.frameType.Welcome? }

  /** What a call may add to the output, and when it counts as accepted data. */
  predicate CallEmission(c: Call, fs: seq<Frame>, outcome: Outcome) {
    match c
    case Data(id, payload) =>
      fs == if outcome.Done? && outcome.unit.Ok? && payload != [] then [DataFrame(id, payload)] else []
    case _ => fs == [] || (|fs| == 1 && !fs[0].header.frameType.Data? && (IsHandshake(fs[0]) ==> c.Handshake?))
  }

  lemma CallEmits(e: Endpoint, c: Call)
    ensures var (e', outcome) := Perform(e, c);
            && |e.out.shipped| <= |e'.out.shipped|
            && e'.out.All() == e.out.All() + Emitted(e, e')
            && CallEmission(c, Emitted(e, e'), outcome)
  {
    match c
    case Handshake =>
      var h := SendHello(e).state;
      assert FlushAll(h).out.All() == h.out.All();
    case Pop(id) =>
      var r := RecvData(e, id);
      assert Appends(e.out, r.state.out, []) ==> Emitted(e, r.state) == [];
    case _ =>
  }

  /** `recv_frame` answers with at most one frame, and never with data. */
  lemma HandleEmits(e: Endpoint, f: Frame)
    ensures var e' := HandleFrame(e, f).state;
            && |e.out.shipped| <= |e'.out.shipped|
            && e'.out.All() == e.out.All() + Emitted(e, e')
            && DataLog(Emitted(e, e')) == []
  {
    var e' := Dispatch(e, f).state;
    assert e.out.All() + [] == e.out.All();
    DispatchAppends(e, f);
    if Appends(e.out, e'.out, []) {
      assert Emitted(e, e') == [];
    } else {
      var g :| Appends(e.out, e'.out, [g]) && !g.header.frameType.Data?;
      assert Emitted(e, e') == [g];
    }
  }

  lemma DispatchAppends(e: Endpoint, f: Frame)
    ensures var o := Dispatch(e, f).state.out;
            Appends(e.out, o, []) || (exists g :: Appends(e.out, o, [g]) && !g.header.frameType.Data?)
  {
    assert e.out.All() + [] == e.out.All();
    if Dispatch(e, f).state.out != e.out {
      DispatchSends(e, f);
    }
  }

  /** Only three handlers send anything. */
  lemma DispatchSends(e: Endpoint, f: Frame)
    ensures var o := Dispatch(e, f).state.out;
            || o == e.out || o == Send(e, WelcomeFrame()).state.out || o == Send(e, PongFrame(f.payload)).state.out
            || o == Send(e, RejectionFrame(REJECTION_TEXT)).state.out
  {
  }

  // ---- Every step keeps the invariant ----

  lemma CallKeepsParties(p: Party, q: Party, c: Call)
    requires PartiesInv(p, q) && Conforming(p.ep, c)
    ensures PartiesInv(Act(p, q, Do(c)), q)
  {
    var p' := Act(p, q, Do(c));
    var pq, qp := InFlight(p, q.got), InFlight(q, p.got);
    var fs := Emitted(p.ep, p'.ep);
    CallKeepsLinked(p.ep, q.ep, pq, qp, c);
    CallEmits(p.ep, c);
    assert InFlight(p', q.got) == pq + fs;
  }

  lemma RecvKeepsLinked(p: Party, q: Party)
    requires PartiesInv(p, q) && Deliverable(p, q)
    ensures var p' := Act(p, q, Recv);
            && q.got <= |p'.ep.out.shipped|
            && Linked(p'.ep, q.ep, InFlight(p', q.got), InFlight(q, p'.got))
    ensures HandleFrame(p.ep, q.ep.out.shipped[p.got]).result == Ok(q.ep.out.shipped[p.got])
  {
    RecvMovesFrames(p, q);
    ReceiveKeepsLinked(p.ep, q.ep, InFlight(p, q.got), InFlight(q, p.got));
  }

  /** What a receipt does to the frames in flight, both ways. */
  lemma RecvMovesFrames(p: Party, q: Party)
    requires Deliverable(p, q) && q.got <= |p.ep.out.shipped|
    ensures var p' := Act(p, q, Recv);
            var qp := InFlight(q, p.got);
            && qp != [] && qp[0] == q.ep.out.shipped[p.got] && qp[1..] == InFlight(q, p'.got)
            && q.got <= |p'.ep.out.shipped| && InFlight(p', q.got) == InFlight(p, q.got) + Emitted(p.ep, p'.ep)
  {
    var f := q.ep.out.shipped[p.got];
    assert f == q.ep.out.All()[p.got];
    HandleEmits(p.ep, f);
  }

  lemma PartiesInvIsSymmetric(p: Party, q: Party)
    requires PartiesInv(p, q)
    ensures PartiesInv(q, p)
  {
    LinkedIsSymmetric(p.ep, q.ep, InFlight(p, q.got), InFlight(q, p.got));
  }

  lemma ActKeepsParties(p: Party, q: Party, a: Action)
    requires PartiesInv(p, q) && (a.Do? ==> Conforming(p.ep, a.call))
    ensures PartiesInv(Act(p, q, a), q)
  {
    match a
    case Do(c) => CallKeepsParties(p, q, c);
    case Recv =>
      if Deliverable(p, q) {
        RecvKeepsLinked(p, q);
      }
  }

  /** The joint invariant holds after every conforming run. */
  lemma {:induction false} RunKeepsInv(events: seq<Event>)
    requires ConformingRun(events)
    ensures NetInv(Run(events))
  {
    if events == [] {
      StartsLinked();
    } else {
      var before, ev := events[..|events| - 1], events[|events| - 1];
      var n := Run(before);
      RunKeepsInv(before);
      if ev.role.Initiator? {
        ActKeepsParties(n.ini, n.acc, ev.action);
      } else {
        PartiesInvIsSymmetric(n.ini, n.acc);
        ActKeepsParties(n.acc, n.ini, ev.action);
        PartiesInvIsSymmetric(Step(n, ev).acc, n.ini);
      }
    }
  }

  // ---- What the users see ----

  /** No `recv_frame` of a conforming run fails, for any reason, on either side. */
  lemma NoSpuriousErrors(events: seq<Event>, r: Role)
    requires ConformingRun(events) && Deliverable(Run(events).Side(r), Run(events).Peer(r))
    ensures var (p, q) := (Run(events).Side(r), Run(events).Peer(r));
            HandleFrame(p.ep, q.ep.out.shipped[p.got]).result == Ok(q.ep.out.shipped[p.got])
  {
    var n := Run(events);
    RunKeepsInv(events);
    PartiesInvIsSymmetric(n.ini, n.acc);
    RecvKeepsLinked(n.Side(r), n.Peer(r));
  }

  lemma DataLogOfPrefix(fs: seq<Frame>, k: nat)
    requires k <= |fs|
    ensures DataLog(fs[..k]) <= DataLog(fs)
  {
    assert fs[..k] + fs[k..] == fs;
    DataLogConcat(fs[..k], fs[k..]);
  }

  lemma OfStreamOfPrefix(a: Log, b: Log, s: u32)
    requires a <= b
    ensures OfStream(a, s) <= OfStream(b, s)
  {
    assert a + b[|a|..] == b;
    OfStreamConcat(a, b[|a|..], s);
  }

  // ---- Ordered delivery, in any run ----

  /** No `recv_frame` of this side has failed so far. The users may do anything. */
  predicate NoErrorAt(events: seq<Event>, r: Role) {
    events == [] ||
    var before, ev := events[..|events| - 1], events[|events| - 1];
    var (p, q) := (Run(before).Side(r), Run(before).Peer(r));
    && NoErrorAt(before, r)
    && (ev.role == r && ev.action.Recv? && Deliverable(p, q) ==>
          HandleFrame(p.ep, q.ep.out.shipped[p.got]).result.Ok?)
  }

  predicate GivenLogged(p: Party) { p.given == DataLog(p.ep.out.All()) }

  predicate ReturnedLogged(p: Party, peer: Party) {
    p.got <= |peer.ep.out.shipped| && p.returned == DataLog(peer.ep.out.All()[..p.got])
  }

  lemma DataLogOfCall(c: Call, fs: seq<Frame>, outcome: Outcome)
    requires CallEmission(c, fs, outcome) && (c.Data? ==> outcome.Done?)
    ensures DataLog(fs) == if c.Data? && outcome.unit.Ok? && c.payload != [] then [(c.id, c.payload)] else []
  {
    if fs != [] {
      assert fs[1..] == [];
    }
  }

  /** What an action of `p` does to the logs: its output only grows, by what it
      gives, and the frames its peer has received stay where they are. */
  lemma ActKeepsOutput(p: Party, q: Party, a: Action)
    requires GivenLogged(p) && q.got <= |p.ep.out.shipped|
    ensures var p' := Act(p, q, a);
            && GivenLogged(p') && q.got <= |p'.ep.out.shipped|
            && p'.ep.out.All()[..q.got] == p.ep.out.All()[..q.got]
  {
    var p' := Act(p, q, a);
    match a
    case Do(c) =>
      CallEmits(p.ep, c);
      DataLogConcat(p.ep.out.All(), Emitted(p.ep, p'.ep));
      DataLogOfCall(c, Emitted(p.ep, p'.ep), Perform(p.ep, c).1);
    case Recv =>
      if Deliverable(p, q) {
        HandleEmits(p.ep, q.ep.out.shipped[p.got]);
        DataLogConcat(p.ep.out.All(), Emitted(p.ep, p'.ep));
      }
  }

  lemma RecvKeepsReturned(p: Party, q: Party)
    requires ReturnedLogged(p, q) && Deliverable(p, q)
    requires HandleFrame(p.ep, q.ep.out.shipped[p.got]).result.Ok?
    ensures ReturnedLogged(Act(p, q, Recv), q)
  {
    var all := q.ep.out.All();
    var f := q.ep.out.shipped[p.got];
    assert all[..p.got + 1] == all[..p.got] + [f];
    DataLogConcat(all[..p.got], [f]);
    DataLogOne(f);
  }

  predicate OutputsLogged(n: Net) {
    && GivenLogged(n.ini) && GivenLogged(n.acc)
    && n.ini.got <= |n.acc.ep.out.shipped| && n.acc.got <= |n.ini.ep.out.shipped|
  }

  lemma {:induction false} RunKeepsOutputs(events: seq<Event>)
    ensures OutputsLogged(Run(events))
  {
    if events != [] {
      var before, ev := events[..|events| - 1], events[|events| - 1];
      RunKeepsOutputs(before);
      ActKeepsOutput(Run(before).Side(ev.role), Run(before).Peer(ev.role), ev.action);
    }
  }

  lemma {:induction false} RunKeepsReturned(events: seq<Event>, r: Role)
    requires NoErrorAt(events, r)
    ensures ReturnedLogged(Run(events).Side(r), Run(events).Peer(r))
  {
    if events != [] {
      var before, ev := events[..|events| - 1], events[|events| - 1];
      var (p, q) := (Run(before).Side(r), Run(before).Peer(r));
      RunKeepsOutputs(before);
      RunKeepsReturned(before, r);
      if ev.role != r {
        ActKeepsOutput(q, p, ev.action);
      } else if ev.action.Recv? && Deliverable(p, q) {
        RecvKeepsReturned(p, q);
      }
    }
  }

  /** Reliable ordered multiplexing, in every run, whatever the users call: up to
      the first error of the receiving side, what its `recv_frame` returned is a
      prefix of what the other side gave to `send_data`, on each stream and even
      across streams, and all of it once nothing is buffered or travelling. */
  lemma DeliversInOrder(events: seq<Event>, r: Role, s: u32)
    requires NoErrorAt(events, r)
    ensures var (q, p) := (Run(events).Side(r), Run(events).Peer(r));
            && q.returned <= p.given
            && OfStream(q.returned, s) <= OfStream(p.given, s)
            && (p.ep.out.buffered == [] && !Deliverable(q, p) ==> q.returned == p.given)
  {
    RunKeepsOutputs(events);
    RunKeepsReturned(events, r);
    var q, p := Run(events).Side(r), Run(events).Peer(r);
    DataLogOfPrefix(p.ep.out.All(), q.got);
    OfStreamOfPrefix(q.returned, p.given, s);
    if p.ep.out.buffered == [] && !Deliverable(q, p) {
      assert p.ep.out.All()[..q.got] == p.ep.out.All();
    }
  }

  /** A conforming run has no error on either side. */
  lemma {:induction false} ConformingMeansNoError(events: seq<Event>, r: Role)
    requires ConformingRun(events)
    ensures NoErrorAt(events, r)
  {
    if events != [] {
      var before, ev := events[..|events| - 1], events[|events| - 1];
      ConformingMeansNoError(before, r);
      if Deliverable(Run(before).Side(r), Run(before).Peer(r)) {
        NoSpuriousErrors(before, r);
      }
    }
  }

  /** Frames of stream `s` on their way from side `r` to its peer. */
  function Travelling(n: Net, r: Role, s: u32): seq<Frame>
    requires n.Peer(r).got <= |n.Side(r).ep.out.All()|
  {
    Proj(InFlight(n.Side(r), n.Peer(r).got), s)
  }

  /** A stream both ends hold, with the invariant of the pair. */
  lemma SharedStream(events: seq<Event>, r: Role, s: u32)
    requires ConformingRun(events) && s != 0
    requires s in Run(events).Side(r).ep.streams
    ensures var n := Run(events);
            && n.Peer(r).got <= |n.Side(r).ep.out.All()| && n.Side(r).got <= |n.Peer(r).ep.out.All()|
            && var q := n.Peer(r).ep;
               PairInv(Own(r, s), Live(n.Side(r).ep.streams[s]),
                       SideOf(q, n.Side(r).ep.nextLocalId, s, Travelling(n, r, s)),
                       Travelling(n, r, s), Travelling(n, Other(r), s))
  {
    RunKeepsInv(events);
    RolesAreFixed(events);
    var n := Run(events);
    PartiesInvIsSymmetric(n.ini, n.acc);
    var p, q := n.Side(r), n.Peer(r);
    assert StreamInv(p.ep, q.ep, InFlight(p, q.got), InFlight(q, p.got), s);
  }

  function Other(r: Role): Role { if r.Initiator? then Acceptor else Initiator }

  lemma {:induction false} RolesAreFixed(events: seq<Event>)
    ensures Run(events).ini.ep.role.Initiator? && Run(events).acc.ep.role.Acceptor?
  {
    if events != [] {
      RolesAreFixed(events[..|events| - 1]);
    }
  }

  /** Credit conservation. The window of the sender, its data in flight, the
      receiver's queue and the credit travelling back make up one full window
      until the receiver has seen the sender's Close, and never more after that;
      the receive window and the queue always do. */
  lemma CreditIsConserved(events: seq<Event>, r: Role, s: u32)
    requires ConformingRun(events)
    requires s in Run(events).Side(r).ep.streams && s in Run(events).Peer(r).ep.streams
    ensures var n := Run(events);
            && n.Peer(r).got <= |n.Side(r).ep.out.All()| && n.Side(r).got <= |n.Peer(r).ep.out.All()|
            && var (x, y) := (n.Side(r).ep.streams[s], n.Peer(r).ep.streams[s]);
               var total := x.sendWindow + DataBytes(Travelling(n, r, s)) + TotalBytes(y.recvQueue)
                            + Credits(Travelling(n, Other(r), s));
               && total <= 65_536
               && (y.state.CanReceive() ==> total == 65_536)
               && y.recvWindow + TotalBytes(y.recvQueue) == 65_536
               && x.sendWindow >= 0
  {
    RunKeepsInv(events);
    SharedStream(events, r, s);
  }

  /** The half-close states of the two ends match: an end has closed exactly when
      its Close is travelling, as the last frame of the stream, or has been
      received. An end without the stream means the same at the peer, once
      nothing of the stream travels. */
  lemma HalfClosesMatch(events: seq<Event>, r: Role, s: u32)
    requires ConformingRun(events) && s in Run(events).Side(r).ep.streams
    ensures var n := Run(events);
            && n.Peer(r).got <= |n.Side(r).ep.out.All()| && n.Side(r).got <= |n.Peer(r).ep.out.All()|
            && var (xy, yx) := (Travelling(n, r, s), Travelling(n, Other(r), s));
               var (x, streams) := (n.Side(r).ep.streams[s], n.Peer(r).ep.streams);
               && (s in streams ==> (x.state.Ended().0 <==> ClosePending(xy) || streams[s].state.Ended().1))
               && (s in streams && xy == [] && yx == [] ==>
                     x.state.Ended() == (streams[s].state.Ended().1, streams[s].state.Ended().0))
               && (xy == [] && yx == [] ==> s in streams)
  {
    RunKeepsInv(events);
    SharedStream(events, r, s);
  }

  // ---- Handshake ----

  /** The number of Hello and Welcome frames. */
  function Handshakes(fs: seq<Frame>): nat {
    if fs == [] then 0 else (if IsHandshake(fs[0]) then 1 else 0) + Handshakes(fs[1..])
  }

  lemma {:induction false} HandshakesAppend(fs: seq<Frame>, f: Frame)
    ensures Handshakes(fs + [f]) == Handshakes(fs) + if IsHandshake(f) then 1 else 0
  {
    if fs == [] {
      assert (fs + [f])[1..] == [];
    } else {
      HandshakesAppend(fs[1..], f);
      assert (fs + [f])[1..] == fs[1..] + [f];
    }
  }

  /** How many handshake frames an end in this state has sent. */
  predicate HandshakeCounted(e: Endpoint) {
    Handshakes(e.out.All()) ==
    if e.role.Initiator? then (if e.handshake.AwaitingHello? then 0 else 1)
    else (if e.handshake.Established? then 1 else 0)
  }

  lemma CallKeepsCount(e: Endpoint, c: Call)
    requires HandshakeCounted(e)
    ensures HandshakeCounted(Perform(e, c).0)
  {
    CallEmits(e, c);
    var e' := Perform(e, c).0;
    var fs := Emitted(e, e');
    if fs == [] {
      assert e'.out.All() == e.out.All();
    } else {
      assert fs == [fs[0]];
      HandshakesAppend(e.out.All(), fs[0]);
    }
    if c.Handshake? {
      HelloMovesOn(e);
    }
  }

  lemma HelloMovesOn(e: Endpoint)
    ensures var e' := BeginHandshake(e).state;
            e'.out.All() == e.out.All() + if e'.handshake != e.handshake then [HelloFrame()] else []
    ensures BeginHandshake(e).state.handshake != e.handshake ==>
              e.role.Initiator? && e.handshake.AwaitingHello? && BeginHandshake(e).state.handshake.AwaitingWelcome?
  {
  }

  lemma HandleKeepsCount(e: Endpoint, f: Frame)
    requires HandshakeCounted(e)
    ensures HandshakeCounted(HandleFrame(e, f).state)
  {
    var e' := HandleFrame(e, f).state;
    HandshakesAppend(e.out.All(), WelcomeFrame());
    HandshakesAppend(e.out.All(), PongFrame(f.payload));
    HandshakesAppend(e.out.All(), RejectionFrame(REJECTION_TEXT));
    assert e.out.All() + [] == e.out.All();
    match f.header.frameType
    case Hello =>
    case Welcome =>
    case Ping =>
    case _ =>
  }

  lemma {:induction false} RunCountsHandshakes(events: seq<Event>)
    ensures HandshakeCounted(Run(events).ini.ep) && HandshakeCounted(Run(events).acc.ep)
  {
    if events != [] {
      var before, ev := events[..|events| - 1], events[|events| - 1];
      RunCountsHandshakes(before);
      var p, q := Run(before).Side(ev.role), Run(before).Peer(ev.role);
      match ev.action
      case Do(c) => CallKeepsCount(p.ep, c);
      case Recv =>
        if Deliverable(p, q) {
          HandleKeepsCount(p.ep, q.ep.out.shipped[p.got]);
        }
    }
  }

  // ---- The write buffer ----

  function ErrorOf(o: Outcome): Option<TransportError> {
    match o
    case Done(r) => if r.Err? then Some(r.error) else None
    case Opened(r) => if r.Err? then Some(r.error) else None
    case Popped(r) => if r.Err? then Some(r.error) else None
  }

  lemma CallNeverOverflows(p: Endpoint, q: Endpoint, pq: seq<Frame>, qp: seq<Frame>, c: Call)
    requires Linked(p, q, pq, qp) && Conforming(p, c)
    ensures ErrorOf(Perform(p, c).1) != Some(BufferOverflow)
  {
    match c
    case Handshake => SmallFrameFits(p.out, HelloFrame());
    case Open => OpenEffect(p);
    case Data(s, payload) => DataKeepsLinked(p, q, pq, qp, s, payload);
    case Close(s) => CloseKeepsGood(p, s);
    case Pop(s) => PopEffect(p, s);
    case Ping(payload) => PingKeepsLinked(p, q, pq, qp, payload);
    case Flush =>
  }

  /** Between calls both write buffers are below the flush threshold, and no
      conforming call ever fails for lack of room: credit that was deducted is
      always backed by a frame that was sent. */
  lemma WriteBufferIsBounded(events: seq<Event>, r: Role, c: Call)
    requires ConformingRun(events) && Conforming(Run(events).Side(r).ep, c)
    ensures |EncodeAll(Run(events).Side(r).ep.out.buffered)| < 32_768
    ensures ErrorOf(Perform(Run(events).Side(r).ep, c).1) != Some(BufferOverflow)
  {
    RunKeepsInv(events);
    var n := Run(events);
    PartiesInvIsSymmetric(n.ini, n.acc);
    var p, q := n.Side(r), n.Peer(r);
    CallNeverOverflows(p.ep, q.ep, InFlight(p, q.got), InFlight(q, p.got), c);
  }

  // ---- The state after the handshake ----

  /** Both parties after the handshake, with nothing else sent. */
  function Connected(): Net {
    Net(Party(Endpoint(Initiator, Established, 1, map[], Outbox([], [HelloFrame()])), 1, [], []),
        Party(Endpoint(Acceptor, Established, 2, map[], Outbox([], [WelcomeFrame()])), 1, [], []))
  }

  /** That state is the one the handshake leads to. */
  lemma ConnectedAfterHandshake()
    ensures var h, a, w := Event(Initiator, Do(Call.Handshake)), Event(Acceptor, Recv), Event(Initiator, Recv);
            ConformingRun([h, a, w]) && Run([h, a, w]) == Connected()
  {
    var h, a, w := Event(Initiator, Do(Call.Handshake)), Event(Acceptor, Recv), Event(Initiator, Recv);
    assert [h, a, w][..2] == [h, a] && [h, a][..1] == [h] && [h][..0] == [];
    assert ConformingRun([]) && ConformingRun([h]) && ConformingRun([h, a]);
    assert Run([h]).ini.ep == Endpoint(Initiator, AwaitingWelcome, 1, map[], Outbox([], [HelloFrame()]));
    assert Run([h, a]).acc == Connected().acc;
  }
}
