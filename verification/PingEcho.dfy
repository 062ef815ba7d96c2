/** Pings and their echoes, over whole runs of two managers
    (`transport/src/tcp/manager.rs`). */
module PingEcho {
  import opened Bytes
  import opened TransportErrors
  import opened Frames
  import opened Protocol
  import opened ManagerInvariant
  import opened Multiplex
  import opened TwoParty
  import opened Refusals

  /** The payloads of the frames of one type, in order. */
  function PayloadsOf(fs: seq<Frame>, t: Frametype): seq<seq<byte>> {
    if fs == [] then [] else PayloadIf(fs[0], t) + PayloadsOf(fs[1..], t)
  }

  function PayloadIf(f: Frame, t: Frametype): seq<seq<byte>> { if f.header.frameType == t then [f.payload] else [] }

  lemma PayloadsCons(f: Frame, fs: seq<Frame>, t: Frametype)
    ensures PayloadsOf([f] + fs, t) == PayloadIf(f, t) + PayloadsOf(fs, t)
  {
  }

  lemma {:induction false} PayloadsConcat(a: seq<Frame>, b: seq<Frame>, t: Frametype)
    ensures PayloadsOf(a + b, t) == PayloadsOf(a, t) + PayloadsOf(b, t)
  {
    if a == [] {
      assert a + b == b;
    } else {
      PayloadsConcat(a[1..], b, t);
      PayloadsCons(a[0], a[1..] + b, t);
      assert a + b == [a[0]] + (a[1..] + b);
      ConcatAssociates(PayloadIf(a[0], t), PayloadsOf(a[1..], t), PayloadsOf(b, t));
    }
  }

  lemma PayloadsOfPrefix(fs: seq<Frame>, k: nat, t: Frametype)
    requires k <= |fs|
    ensures PayloadsOf(fs[..k], t) <= PayloadsOf(fs, t)
  {
    assert fs[..k] + fs[k..] == fs;
    PayloadsConcat(fs[..k], fs[k..], t);
  }

  lemma OnePayload(f: Frame, t: Frametype)
    ensures PayloadsOf([f], t) == PayloadIf(f, t)
  {
  }

  // ---- What the users see ----

  /** The payload a call gave to a successful `send_ping`. */
  function PingedBy(e: Endpoint, c: Call): seq<seq<byte>> {
    if c.Ping? && SendPing(e, c.payload).result.Ok? then [c.payload] else []
  }

  /** The payloads side `r` has given to successful `send_ping` calls. */
  function Pinged(events: seq<Event>, r: Role): seq<seq<byte>> {
    if events == [] then []
    else
      var before, ev := events[..|events| - 1], events[|events| - 1];
      Pinged(before, r) +
      if ev.role == r && ev.action.Do? then PingedBy(Run(before).Side(r).ep, ev.action.call) else []
  }

  /** The payload of the Pong a `recv_frame` returned. */
  function EchoIn(r: Result<Frame>): seq<seq<byte>> {
    if r.Ok? && r.value.header.frameType.Pong? then [r.value.payload] else []
  }

  /** The payloads of the Pong frames side `r` got from `recv_frame`. */
  function Echoed(events: seq<Event>, r: Role): seq<seq<byte>> {
    if events == [] then []
    else
      var before, ev := events[..|events| - 1], events[|events| - 1];
      var (p, q) := (Run(before).Side(r), Run(before).Peer(r));
      Echoed(before, r) +
      if ev.role == r && ev.action.Recv? && Deliverable(p, q) then EchoIn(HandleFrame(p.ep, Next(p, q)).result) else []
  }

  // ---- What is sent ----

  lemma CallSendsPing(e: Endpoint, c: Call)
    requires Good(e)
    ensures var fs := Emitted(e, Perform(e, c).0);
            && Perform(e, c).0.out.All() == e.out.All() + fs
            && PayloadsOf(fs, Frametype.Ping) == PingedBy(e, c) && PayloadsOf(fs, Frametype.Pong) == []
  {
    var fs := Emitted(e, Perform(e, c).0);
    CallEmits(e, c);
    if c.Ping? {
      PingIsSent(e, c.payload);
    } else if c.Handshake? {
      OtherCallEmits(e, c);
      OnePayload(HelloFrame(), Frametype.Ping);
      OnePayload(HelloFrame(), Frametype.Pong);
    } else {
      StreamCallEmits(e, c);
      if fs != [] {
        assert fs == [fs[0]];
        OnePayload(fs[0], Frametype.Ping);
        OnePayload(fs[0], Frametype.Pong);
      }
    }
  }

  /** A successful `send_ping` sends one Ping frame with its payload. */
  lemma PingIsSent(e: Endpoint, payload: seq<byte>)
    ensures var r := SendPing(e, payload);
            var fs := Emitted(e, r.state);
            && PayloadsOf(fs, Frametype.Ping) == (if r.result.Ok? then [payload] else [])
            && PayloadsOf(fs, Frametype.Pong) == []
  {
    var r := SendPing(e, payload);
    var fs := Emitted(e, r.state);
    if r.result.Ok? {
      assert fs == [fs[0]];
      OnePayload(fs[0], Frametype.Ping);
      OnePayload(fs[0], Frametype.Pong);
    } else {
      assert fs == [];
    }
  }

  /** A handled Ping, and nothing else, is answered by a Pong with its payload. */
  lemma ReceiptSendsPong(e: Endpoint, f: Frame)
    requires f.header.frameType.Ping? ==> Encodable(f)
    ensures var r := HandleFrame(e, f);
            var fs := Emitted(e, r.state);
            && r.state.out.All() == e.out.All() + fs
            && PayloadsOf(fs, Frametype.Ping) == []
            && PayloadsOf(fs, Frametype.Pong) == if r.result.Ok? then PayloadIf(f, Frametype.Ping) else []
  {
    HandleEmits(e, f);
    if f.header.frameType.Ping? {
      PingIsAnswered(e, f);
    } else {
      OtherFrameSendsNeither(e, f);
    }
  }

  lemma PingIsAnswered(e: Endpoint, f: Frame)
    requires f.header.frameType.Ping? && Encodable(f)
    ensures var r := HandleFrame(e, f);
            var fs := Emitted(e, r.state);
            && PayloadsOf(fs, Frametype.Ping) == []
            && PayloadsOf(fs, Frametype.Pong) == if r.result.Ok? then [f.payload] else []
  {
    PongFits(e, f);
    OnePayload(PongFrame(f.payload), Frametype.Ping);
    OnePayload(PongFrame(f.payload), Frametype.Pong);
  }

  lemma OtherFrameSendsNeither(e: Endpoint, f: Frame)
    requires !f.header.frameType.Ping?
    ensures var fs := Emitted(e, HandleFrame(e, f).state);
            PayloadsOf(fs, Frametype.Ping) == [] && PayloadsOf(fs, Frametype.Pong) == []
  {
    var fs := Emitted(e, HandleFrame(e, f).state);
    HandleEmits(e, f);
    if fs != [] {
      OtherFrameSends(e, f);
      OnePayload(fs[0], Frametype.Ping);
      OnePayload(fs[0], Frametype.Pong);
    }
  }

  /** Only a Hello is answered otherwise, or a frame that comes too early. */
  lemma OtherFrameSends(e: Endpoint, f: Frame)
    requires !f.header.frameType.Ping? && Emitted(e, HandleFrame(e, f).state) != []
    ensures var fs := Emitted(e, HandleFrame(e, f).state);
            fs == [fs[0]] && (fs[0].header.frameType.Welcome? || fs[0].header.frameType.Error?)
  {
  }

  // ---- Over any run ----

  /** Both ends follow their frames, seen from side `r`. */
  lemma SidesFollow(events: seq<Event>, r: Role)
    ensures BothFollow(Run(events).Side(r), Run(events).Peer(r))
  {
    RunFollows(events);
    FollowingIsSymmetric(Run(events).ini, Run(events).acc);
  }

  /** What an action adds to a party's output. */
  function Added(p: Party, q: Party, a: Action): seq<Frame> { Emitted(p.ep, Act(p, q, a).ep) }

  lemma ActAdds(p: Party, q: Party, a: Action)
    requires BothFollow(p, q)
    ensures var p' := Act(p, q, a);
            && p'.ep.out.All() == p.ep.out.All() + Added(p, q, a)
            && PayloadsOf(Added(p, q, a), Frametype.Ping) == (if a.Do? then PingedBy(p.ep, a.call) else [])
            && PayloadsOf(Added(p, q, a), Frametype.Pong) == PongsFor(p, q, a)
  {
    match a
    case Do(c) => CallSendsPing(p.ep, c);
    case Recv =>
      if Deliverable(p, q) {
        assert Next(p, q) in q.ep.out.All();
        ReceiptSendsPong(p.ep, Next(p, q));
      } else {
        assert Added(p, q, a) == [];
      }
  }

  /** The payloads an action echoes. */
  function PongsFor(p: Party, q: Party, a: Action): seq<seq<byte>> {
    if a.Recv? && Deliverable(p, q) && HandleFrame(p.ep, Next(p, q)).result.Ok?
    then PayloadIf(Next(p, q), Frametype.Ping) else []
  }

  lemma NothingAdded(log: seq<seq<byte>>)
    ensures log + [] == log
  {
  }

  /** The Ping frames a side has sent carry the payloads of its pings. */
  lemma {:induction false} PingsAreSent(events: seq<Event>, r: Role)
    ensures PayloadsOf(Run(events).Side(r).ep.out.All(), Frametype.Ping) == Pinged(events, r)
  {
    if events != [] {
      var before, ev := events[..|events| - 1], events[|events| - 1];
      var p, q := Run(before).Side(r), Run(before).Peer(r);
      PingsAreSent(before, r);
      NothingAdded(Pinged(before, r));
      if ev.role == r {
        SidesFollow(before, r);
        ActAdds(p, q, ev.action);
        PayloadsConcat(p.ep.out.All(), Added(p, q, ev.action), Frametype.Ping);
      }
    }
  }

  lemma PongIsReturned(e: Endpoint, f: Frame)
    ensures EchoIn(HandleFrame(e, f).result) == PayloadIf(f, Frametype.Pong)
  {
  }

  lemma OneMoreReceived(all: seq<Frame>, k: nat, f: Frame, t: Frametype)
    requires k < |all| && f == all[k]
    ensures PayloadsOf(all[..k + 1], t) == PayloadsOf(all[..k], t) + PayloadIf(f, t)
  {
    assert all[..k + 1] == all[..k] + [f];
    PayloadsConcat(all[..k], [f], t);
    OnePayload(f, t);
  }

  /** What the peer does leaves alone what has been received from it. */
  lemma FrontStays(p: Party, q: Party, a: Action)
    requires BothFollow(p, q)
    ensures var (all, all') := (q.ep.out.All(), Act(q, p, a).ep.out.All());
            all <= all' && p.got <= |all| && all'[..p.got] == all[..p.got]
  {
    FollowingIsSymmetric(p, q);
    ActAdds(q, p, a);
  }

  /** The Pong payloads a side has got are those of the Pong frames it has received. */
  lemma {:induction false} EchoesAreReturned(events: seq<Event>, r: Role)
    ensures var (p, q) := (Run(events).Side(r), Run(events).Peer(r));
            && p.got <= |q.ep.out.shipped|
            && PayloadsOf(q.ep.out.All()[..p.got], Frametype.Pong) == Echoed(events, r)
  {
    if events != [] {
      var before, ev := events[..|events| - 1], events[|events| - 1];
      var p, q := Run(before).Side(r), Run(before).Peer(r);
      EchoesAreReturned(before, r);
      SidesFollow(before, r);
      SidesFollow(events, r);
      NothingAdded(Echoed(before, r));
      if ev.role != r {
        FrontStays(p, q, ev.action);
      } else if ev.action.Recv? && Deliverable(p, q) {
        OneMoreReceived(q.ep.out.All(), p.got, Next(p, q), Frametype.Pong);
        PongIsReturned(p.ep, Next(p, q));
      }
    }
  }

  /** The Pong frames `q` has sent echo the Ping frames it has received. */
  predicate Echoes(p: Party, q: Party) {
    && q.got <= |p.ep.out.shipped|
    && PayloadsOf(q.ep.out.All(), Frametype.Pong) == PayloadsOf(p.ep.out.All()[..q.got], Frametype.Ping)
  }

  lemma PingerKeepsEchoes(p: Party, q: Party, a: Action)
    requires BothFollow(p, q) && Echoes(p, q) && q.got <= |Act(p, q, a).ep.out.shipped|
    ensures Echoes(Act(p, q, a), q)
  {
    FollowingIsSymmetric(p, q);
    FrontStays(q, p, a);
  }

  lemma EchoerKeepsEchoes(p: Party, q: Party, a: Action)
    requires BothFollow(p, q) && Echoes(p, q)
    requires a.Recv? && Deliverable(q, p) ==> HandleFrame(q.ep, Next(q, p)).result.Ok?
    ensures Echoes(p, Act(q, p, a))
  {
    FollowingIsSymmetric(p, q);
    ActAdds(q, p, a);
    PayloadsConcat(q.ep.out.All(), Added(q, p, a), Frametype.Pong);
    NothingAdded(PayloadsOf(q.ep.out.All(), Frametype.Pong));
    if a.Recv? && Deliverable(q, p) {
      OneMoreReceived(p.ep.out.All(), q.got, Next(q, p), Frametype.Ping);
    }
  }

  /** While no `recv_frame` of the peer fails, it echoes every Ping it receives. */
  lemma {:induction false} PingsAreEchoed(events: seq<Event>, r: Role)
    requires NoErrorAt(events, Other(r))
    ensures Echoes(Run(events).Side(r), Run(events).Peer(r))
  {
    if events != [] {
      var before, ev := events[..|events| - 1], events[|events| - 1];
      var p, q := Run(before).Side(r), Run(before).Peer(r);
      PingsAreEchoed(before, r);
      SidesFollow(before, r);
      SidesFollow(events, r);
      if ev.role == r {
        PingerKeepsEchoes(p, q, ev.action);
      } else {
        EchoerKeepsEchoes(p, q, ev.action);
      }
    }
  }

  /** In every run, whatever the users call, up to the first error of the other side:
      the payloads of the Pong frames `recv_frame` has returned are a prefix of those
      given to successful `send_ping` calls, and all of them once nothing is buffered or
      travelling either way. */
  lemma PingsComeBack(events: seq<Event>, r: Role)
    requires NoErrorAt(events, Other(r))
    ensures Echoed(events, r) <= Pinged(events, r)
    ensures var (p, q) := (Run(events).Side(r), Run(events).Peer(r));
            && (p.ep.out.buffered == [] && q.ep.out.buffered == [] && !Deliverable(p, q) && !Deliverable(q, p) ==>
                  Echoed(events, r) == Pinged(events, r))
  {
    var p, q := Run(events).Side(r), Run(events).Peer(r);
    PingsAreSent(events, r);
    PingsAreEchoed(events, r);
    EchoesAreReturned(events, r);
    PayloadsOfPrefix(q.ep.out.All(), p.got, Frametype.Pong);
    PayloadsOfPrefix(p.ep.out.All(), q.got, Frametype.Ping);
    if p.ep.out.buffered == [] && q.ep.out.buffered == [] && !Deliverable(p, q) && !Deliverable(q, p) {
      assert q.ep.out.All()[..p.got] == q.ep.out.All() && p.ep.out.All()[..q.got] == p.ep.out.All();
    }
  }
}
