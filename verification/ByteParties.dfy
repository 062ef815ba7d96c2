/** Two managers joined by two pipes of bytes, which arrive in chunks of any size:
    their runs are the runs of `TwoParty` (`transport/src/tcp/connection.rs`). */
module ByteParties {
  import opened Bytes
  import opened TransportErrors
  import opened Frames
  import opened Protocol
  import opened Multiplex
  import opened TwoParty
  import opened Refusals
  import C = Connection

  /** A party and the bytes that come to it: flushed by the peer and not read yet,
      and read but not decoded. */
  datatype End = End(party: Party, wire: seq<byte>, readBuffer: seq<byte>)

  datatype Link = Link(ini: End, acc: End) {
    function Side(r: Role): End { if r.Initiator? then ini else acc }

    function Peer(r: Role): End { if r.Initiator? then acc else ini }

    function With(r: Role, e: End, peer: End): Link { if r.Initiator? then Link(e, peer) else Link(peer, e) }

    function Parties(): Net { Net(ini.party, acc.party) }
  }

  datatype ByteAction = Do(call: Call) | Chunk(size: nat) | Receive

  datatype ByteEvent = ByteEvent(role: Role, action: ByteAction)

  /** What was flushed between two states of an outbox, as bytes. */
  function FlushedBytes(o: Outbox, o': Outbox): seq<byte> {
    if |o.shipped| <= |o'.shipped| then EncodeAll(o'.shipped[|o.shipped|..]) else []
  }

  /** The peer's wire takes what `p` has flushed on its way to `p'`. */
  function Carry(peer: End, p: Party, p': Party): End {
    peer.(wire := peer.wire + FlushedBytes(p.ep.out, p'.ep.out))
  }

  /** A received frame, as `recv_frame` handles it once it is decoded. */
  function Take(p: Party, f: Frame): Party {
    var r := HandleFrame(p.ep, f);
    p.(ep := r.state, got := p.got + 1, returned := p.returned + if r.result.Ok? then DataOf(r.result.value) else [])
  }

  /** `Chunk` moves some bytes of the wire into the read buffer; `Receive` decodes the
      read buffer and handles the frame, if there is one. */
  function ByteStep(n: Link, ev: ByteEvent): Link {
    var (e, q) := (n.Side(ev.role), n.Peer(ev.role));
    match ev.action
    case Do(c) =>
      var p' := Act(e.party, q.party, Action.Do(c));
      n.With(ev.role, e.(party := p'), Carry(q, e.party, p'))
    case Chunk(size) =>
      var m := if size <= |e.wire| then size else |e.wire|;
      n.With(ev.role, e.(wire := e.wire[m..], readBuffer := e.readBuffer + e.wire[..m]), q)
    case Receive =>
      match Decode(e.readBuffer)
      case Ok((f, k)) =>
        var p' := Take(e.party, f);
        n.With(ev.role, End(p', e.wire, e.readBuffer[k..]), Carry(q, e.party, p'))
      case Err(_) => n
  }

  function ByteRun(events: seq<ByteEvent>): Link {
    if events == [] then Link(End(Start().ini, [], []), End(Start().acc, [], []))
    else ByteStep(ByteRun(events[..|events| - 1]), events[|events| - 1])
  }

  predicate ConformingBytes(events: seq<ByteEvent>) {
    events == [] ||
    var before, ev := events[..|events| - 1], events[|events| - 1];
    ConformingBytes(before) && (ev.action.Do? ==> Conforming(ByteRun(before).Side(ev.role).party.ep, ev.action.call))
  }

  // ---- The bytes that come are the peer's frames ----

  predicate Comes(e: End, q: Party) {
    && e.party.got <= |q.ep.out.shipped| && C.AllValid(q.ep.out.shipped)
    && e.readBuffer + e.wire == EncodeAll(q.ep.out.shipped[e.party.got..])
  }

  predicate BothCome(n: Link) { Comes(n.ini, n.acc.party) && Comes(n.acc, n.ini.party) }

  /** The peer flushed more. */
  lemma MoreComes(e: End, q: Party, q': Party)
    requires Comes(e, q) && q.ep.out.shipped <= q'.ep.out.shipped && C.AllValid(q'.ep.out.shipped)
    ensures Comes(Carry(e, q, q'), q')
  {
    var (was, now, k) := (q.ep.out.shipped, q'.ep.out.shipped, e.party.got);
    assert now[k..] == was[k..] + now[|was|..];
    EncodeAllAppend(was[k..], now[|was|..]);
    ConcatAssociates(e.readBuffer, e.wire, EncodeAll(now[|was|..]));
  }

  lemma ChunkComes(e: End, q: Party, m: nat)
    requires Comes(e, q) && m <= |e.wire|
    ensures Comes(e.(wire := e.wire[m..], readBuffer := e.readBuffer + e.wire[..m]), q)
  {
    ConcatAssociates(e.readBuffer, e.wire[..m], e.wire[m..]);
    assert e.wire[..m] + e.wire[m..] == e.wire;
  }

  /** Decoding what has come gives the next frame of the peer, or asks for more. */
  lemma DecodesNext(e: End, q: Party)
    requires Comes(e, q)
    ensures match Decode(e.readBuffer)
            case Ok((f, k)) =>
              && Deliverable(e.party, q) && f == Next(e.party, q) && k <= |e.readBuffer|
              && e.readBuffer[k..] + e.wire == EncodeAll(q.ep.out.shipped[e.party.got + 1..])
            case Err(error) => error == NeedMoreData
  {
    var coming := q.ep.out.shipped[e.party.got..];
    var (c, f) := (C.Channel([], e.wire, e.readBuffer), C.FrameChannel([], coming));
    C.TakeIsExact(c, f);
    C.ByteStepRefinesFrameStep(c, f, C.Op.Take);
    if C.HeadArrived(c, f) {
      assert coming[1..] == q.ep.out.shipped[e.party.got + 1..];
    }
  }

  // ---- Each step on bytes is a step on frames, or none ----

  lemma ShippedGrows(o: Outbox, o': Outbox, fs: seq<Frame>)
    requires o'.All() == o.All() + fs && |o.shipped| <= |o'.shipped|
    ensures o.shipped <= o'.shipped
  {
    assert o.shipped == o'.All()[..|o.shipped|];
  }

  lemma ActShips(p: Party, q: Party, a: Action)
    ensures p.ep.out.shipped <= Act(p, q, a).ep.out.shipped
  {
    var p' := Act(p, q, a);
    if a.Do? {
      CallEmits(p.ep, a.call);
      ShippedGrows(p.ep.out, p'.ep.out, Emitted(p.ep, p'.ep));
    } else if Deliverable(p, q) {
      HandleEmits(p.ep, Next(p, q));
      ShippedGrows(p.ep.out, p'.ep.out, Emitted(p.ep, p'.ep));
    }
  }

  lemma RunIsValid(events: seq<Event>)
    ensures C.AllValid(Run(events).ini.ep.out.shipped) && C.AllValid(Run(events).acc.ep.out.shipped)
  {
    RunFollows(events);
  }

  /** The action on frames a step on bytes amounts to. */
  function Meaning(n: Link, ev: ByteEvent): Option<Event> {
    match ev.action
    case Do(c) => Some(Event(ev.role, Action.Do(c)))
    case Chunk(_) => None
    case Receive => if Decode(n.Side(ev.role).readBuffer).Ok? then Some(Event(ev.role, Recv)) else None
  }

  function Grown(events: seq<Event>, more: Option<Event>): seq<Event> {
    if more.None? then events else events + [more.value]
  }

  lemma StepIsEvent(n: Link, ev: ByteEvent)
    requires BothCome(n)
    ensures ByteStep(n, ev).Parties() ==
            if Meaning(n, ev).None? then n.Parties() else Step(n.Parties(), Meaning(n, ev).value)
  {
    DecodesNext(n.Side(ev.role), n.Peer(ev.role).party);
  }

  /** The bytes still to come are right again after a party acted. */
  lemma ActorComes(n: Link, ev: ByteEvent)
    requires BothCome(n)
    ensures Comes(ByteStep(n, ev).Side(ev.role), n.Peer(ev.role).party)
    ensures ByteStep(n, ev).Peer(ev.role).party == n.Peer(ev.role).party
  {
    var (e, q) := (n.Side(ev.role), n.Peer(ev.role).party);
    match ev.action
    case Do(_) =>
    case Chunk(size) => ChunkComes(e, q, if size <= |e.wire| then size else |e.wire|);
    case Receive => DecodesNext(e, q);
  }

  lemma PeerComes(n: Link, ev: ByteEvent)
    requires BothCome(n) && C.AllValid(ByteStep(n, ev).Side(ev.role).party.ep.out.shipped)
    ensures Comes(ByteStep(n, ev).Peer(ev.role), ByteStep(n, ev).Side(ev.role).party)
  {
    var (e, q) := (n.Side(ev.role), n.Peer(ev.role));
    match ev.action
    case Do(c) =>
      ActShips(e.party, q.party, Action.Do(c));
      MoreComes(q, e.party, Act(e.party, q.party, Action.Do(c)));
    case Chunk(_) =>
    case Receive =>
      DecodesNext(e, q.party);
      if Decode(e.readBuffer).Ok? {
        ActShips(e.party, q.party, Recv);
        MoreComes(q, e.party, Act(e.party, q.party, Recv));
      }
  }

  /** Every run on bytes, for every chunking, is a run on frames with the same
      parties; what is still to come is the encoding of the frames not received. */
  lemma {:induction false} ByteRunIsRun(bytes: seq<ByteEvent>) returns (events: seq<Event>)
    ensures Run(events) == ByteRun(bytes).Parties() && BothCome(ByteRun(bytes))
    ensures ConformingBytes(bytes) ==> ConformingRun(events)
    ensures forall r :: NoByteErrorAt(bytes, r) ==> NoErrorAt(events, r)
  {
    if bytes == [] {
      events := [];
    } else {
      var before, ev := bytes[..|bytes| - 1], bytes[|bytes| - 1];
      var earlier := ByteRunIsRun(before);
      var n := ByteRun(before);
      events := Grown(earlier, Meaning(n, ev));
      StepIsEvent(n, ev);
      RunGrows(earlier, Meaning(n, ev));
      RunIsValid(events);
      ActorComes(n, ev);
      PeerComes(n, ev);
      if ConformingBytes(bytes) {
        GrownConforms(earlier, n, ev);
      }
      forall r | NoByteErrorAt(bytes, r)
        ensures NoErrorAt(events, r)
      {
        GrownHasNoError(earlier, n, ev, r);
      }
    }
  }

  lemma GrownConforms(events: seq<Event>, n: Link, ev: ByteEvent)
    requires Run(events) == n.Parties() && ConformingRun(events)
    requires ev.action.Do? ==> Conforming(n.Side(ev.role).party.ep, ev.action.call)
    ensures ConformingRun(Grown(events, Meaning(n, ev)))
  {
    RunGrows(events, Meaning(n, ev));
  }

  lemma GrownHasNoError(events: seq<Event>, n: Link, ev: ByteEvent, r: Role)
    requires Run(events) == n.Parties() && BothCome(n) && NoErrorAt(events, r)
    requires ev.role == r && ev.action.Receive? ==> Accepts(n.Side(r))
    ensures NoErrorAt(Grown(events, Meaning(n, ev)), r)
  {
    RunGrows(events, Meaning(n, ev));
    DecodesNext(n.Side(r), n.Peer(r).party);
  }

  lemma RunGrows(events: seq<Event>, more: Option<Event>)
    ensures Run(Grown(events, more)) == if more.None? then Run(events) else Step(Run(events), more.value)
    ensures more.Some? ==> Grown(events, more)[..|Grown(events, more)| - 1] == events
  {
  }

  /** No `recv_frame` of this end has failed on a decoded frame so far. */
  predicate NoByteErrorAt(bytes: seq<ByteEvent>, r: Role) {
    bytes == [] ||
    var before, ev := bytes[..|bytes| - 1], bytes[|bytes| - 1];
    && NoByteErrorAt(before, r)
    && (ev.role == r && ev.action.Receive? ==> Accepts(ByteRun(before).Side(r)))
  }

  /** `recv_frame` does not fail on what has been read. */
  predicate Accepts(e: End) {
    match Decode(e.readBuffer)
    case Ok((f, _)) => HandleFrame(e.party.ep, f).result == Ok(f)
    case Err(error) => error == NeedMoreData
  }

  // ---- The results, on bytes ----

  /** In a conforming run, for every chunking, no `recv_frame` fails: a frame that has
      arrived is accepted, and otherwise the end waits for more bytes. */
  lemma NoSpuriousByteErrors(bytes: seq<ByteEvent>, r: Role)
    requires ConformingBytes(bytes)
    ensures Accepts(ByteRun(bytes).Side(r))
  {
    var events := ByteRunIsRun(bytes);
    var n := ByteRun(bytes);
    DecodesNext(n.Side(r), n.Peer(r).party);
    if Decode(n.Side(r).readBuffer).Ok? {
      NoSpuriousErrors(events, r);
    }
  }

  /** In every run, for every chunking and whatever the users call, what has been read
      is either the beginning of a frame or handled as `Refusals` says. */
  lemma ExactlyTheseBytesFail(bytes: seq<ByteEvent>, r: Role)
    ensures match Decode(ByteRun(bytes).Side(r).readBuffer)
            case Ok((f, _)) =>
              var e := ByteRun(bytes).Side(r).party.ep; HandleFrame(e, f).result == ReceiptResult(e, f)
            case Err(error) => error == NeedMoreData
  {
    var events := ByteRunIsRun(bytes);
    var n := ByteRun(bytes);
    DecodesNext(n.Side(r), n.Peer(r).party);
    if Decode(n.Side(r).readBuffer).Ok? {
      ExactlyTheseFail(events, r);
    }
  }

  /** In every run, for every chunking and whatever the users call, up to the first
      error of the receiving end, ordered delivery holds, and everything has arrived
      once no byte is buffered anywhere. */
  lemma BytesDeliverInOrder(bytes: seq<ByteEvent>, r: Role, s: u32)
    requires NoByteErrorAt(bytes, r)
    ensures var (q, p) := (ByteRun(bytes).Side(r), ByteRun(bytes).Peer(r).party);
            && q.party.returned <= p.given && OfStream(q.party.returned, s) <= OfStream(p.given, s)
            && (p.ep.out.buffered == [] && q.wire == [] && q.readBuffer == [] ==> q.party.returned == p.given)
  {
    var events := ByteRunIsRun(bytes);
    DeliversInOrder(events, r, s);
    var q, p := ByteRun(bytes).Side(r), ByteRun(bytes).Peer(r).party;
    if q.wire == [] && q.readBuffer == [] {
      C.NoFrameIsEmpty(p.ep.out.shipped[q.party.got..]);
    }
  }
}
