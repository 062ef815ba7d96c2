/** What the users take out of a stream's queue with `recv_data`, over whole runs
    (`transport/src/tcp/manager.rs`). */
module PoppedData {
  import opened Bytes
  import opened Frames
  import opened Protocol
  import opened ManagerInvariant
  import opened Multiplex
  import opened TwoParty
  import opened Refusals

  /** The payload a call of `recv_data` on stream `s` returned, if any. */
  function PoppedBy(e: Endpoint, c: Call, s: u32): seq<seq<byte>> {
    if c != Call.Pop(s) then []
    else
      match RecvData(e, s).result
      case Ok(Some(payload)) => [payload]
      case _ => []
  }

  /** All payloads side `r` has popped from stream `s`, in order. */
  function PoppedOn(events: seq<Event>, r: Role, s: u32): seq<seq<byte>> {
    if events == [] then []
    else
      var before, ev := events[..|events| - 1], events[|events| - 1];
      PoppedOn(before, r, s) +
      if ev.role == r && ev.action.Do? then PoppedBy(Run(before).Side(r).ep, ev.action.call, s) else []
  }

  /** `popped` and the queue make up what was returned on the stream; once it is
      gone, what was popped is a prefix of that. */
  predicate Accounted(e: Endpoint, s: u32, popped: seq<seq<byte>>, returned: seq<seq<byte>>) {
    if s in e.streams then popped + e.streams[s].recvQueue == returned else popped <= returned
  }

  lemma CallAccounts(e: Endpoint, c: Call, s: u32, popped: seq<seq<byte>>, returned: seq<seq<byte>>)
    requires Good(e) && Accounted(e, s, popped, returned)
    requires s == e.nextLocalId ==> returned == []
    ensures Accounted(Perform(e, c).0, s, popped + PoppedBy(e, c, s), returned)
  {
    match c
    case Open => OpenEffect(e);
    case Data(id, payload) => DataKeepsQueue(e, id, payload, s);
    case Close(id) => CloseEffect(e, id);
    case Reset(id) => ResetEffect(e, id);
    case Pop(id) => PopAccounts(e, id, s, popped, returned);
    case _ => OtherCallKeepsStreams(e, c);
  }

  lemma PopAccounts(e: Endpoint, id: u32, s: u32, popped: seq<seq<byte>>, returned: seq<seq<byte>>)
    requires Good(e) && Accounted(e, s, popped, returned)
    ensures Accounted(RecvData(e, id).state, s, popped + PoppedBy(e, Call.Pop(id), s), returned)
  {
    PopEffect(e, id);
    if id == s && MayPop(e, s) {
      var queue := e.streams[s].recvQueue;
      assert popped + queue == (popped + [queue[0]]) + queue[1..];
    }
  }

  lemma DataKeepsQueue(e: Endpoint, id: u32, payload: seq<byte>, s: u32)
    ensures var e' := SendData(e, id, payload).state;
            && (s in e'.streams <==> s in e.streams)
            && (s in e.streams ==> e'.streams[s].recvQueue == e.streams[s].recvQueue)
  {
  }

  /** What a received frame returns to the user on stream `s`. */
  function ReturnedOn(e: Endpoint, f: Frame, s: u32): seq<seq<byte>> {
    if HandleFrame(e, f).result.Ok? then OfStream(DataOf(f), s) else []
  }

  lemma ReceiptAccounts(e: Endpoint, f: Frame, s: u32, popped: seq<seq<byte>>, returned: seq<seq<byte>>)
    requires Accounted(e, s, popped, returned)
    requires OfAStream(f.header.frameType) ==> e.handshake.Established?
    requires f.header.frameType.Open? && f.header.streamId == s ==> returned == []
    ensures Accounted(HandleFrame(e, f).state, s, popped, returned + ReturnedOn(e, f, s))
  {
    assert returned + [] == returned;
    if OnStream(f, s) {
      StreamFrameAccounts(e, f, popped, returned);
    } else {
      OtherFrameKeepsQueue(e, f, s);
    }
  }

  lemma StreamFrameAccounts(e: Endpoint, f: Frame, popped: seq<seq<byte>>, returned: seq<seq<byte>>)
    requires OfAStream(f.header.frameType) && e.handshake.Established?
    requires Accounted(e, f.header.streamId, popped, returned) && (f.header.frameType.Open? ==> returned == [])
    ensures var s := f.header.streamId;
            Accounted(HandleFrame(e, f).state, s, popped, returned + ReturnedOn(e, f, s))
  {
    var s := f.header.streamId;
    match f.header.frameType
    case Data =>
      if HandleFrame(e, f).result.Ok? {
        var queue := e.streams[s].recvQueue;
        assert OfStream(DataOf(f), s) == [f.payload] + [];
        assert popped + (queue + [f.payload]) == (popped + queue) + [f.payload];
      }
    case Open =>
    case Close =>
    case Reset =>
    case Window =>
  }

  lemma OtherFrameKeepsQueue(e: Endpoint, f: Frame, s: u32)
    requires !OnStream(f, s)
    ensures var e' := HandleFrame(e, f).state;
            && (s in e'.streams <==> s in e.streams)
            && (s in e.streams ==> e'.streams[s].recvQueue == e.streams[s].recvQueue)
    ensures OfStream(DataOf(f), s) == []
  {
  }

  // ---- Over any run ----

  ghost predicate AccountedAt(p: Party, q: Party, s: u32, popped: seq<seq<byte>>)
    requires p.got <= |q.ep.out.All()|
  {
    && Accounted(p.ep, s, popped, OfStream(p.returned, s))
    && (HeardOn(p, q, s) == [] ==> OfStream(p.returned, s) == [])
  }

  lemma OwnCallAccounts(p: Party, q: Party, c: Call, s: u32, popped: seq<seq<byte>>)
    requires BothFollow(p, q) && AccountedAt(p, q, s, popped)
    ensures AccountedAt(Act(p, q, Do(c)), q, s, popped + PoppedBy(p.ep, c, s))
  {
    if s == p.ep.nextLocalId {
      assert FollowsAt(p, q, s);
      NothingBeforeOpen(p, q, s);
    }
    CallAccounts(p.ep, c, s, popped, OfStream(p.returned, s));
  }

  lemma OwnReceiptAccounts(p: Party, q: Party, s: u32, popped: seq<seq<byte>>)
    requires BothFollow(p, q) && AccountedAt(p, q, s, popped) && Deliverable(p, q)
    ensures AccountedAt(Act(p, q, Recv), q, s, popped)
  {
    var f := Next(p, q);
    NextIsWellOrdered(p, q, s);
    ReceiptHandled(p, q);
    if f.header.frameType.Open? && f.header.streamId == s {
      OpenIsFirst(!Own(p.ep.role, s), HeardOn(p, q, s), f);
    }
    ReceiptAccounts(p.ep, f, s, popped, OfStream(p.returned, s));
    OfStreamConcat(p.returned, DataOf(f), s);
    OfStreamConcat(p.returned, [], s);
    assert p.returned + [] == p.returned;
    if HeardOn(Act(p, q, Recv), q, s) == [] {
      OtherFrameKeepsQueue(p.ep, f, s);
    }
  }

  lemma OpenIsFirst(opener: bool, rcv: seq<Frame>, f: Frame)
    requires WellOrdered(opener, rcv + [f]) && f.header.frameType.Open?
    ensures rcv == []
  {
    assert (rcv + [f])[|rcv|] == f;
  }

  lemma PeerActAccounts(p: Party, q: Party, a: Action, s: u32, popped: seq<seq<byte>>)
    requires BothFollow(p, q) && AccountedAt(p, q, s, popped)
    ensures BothFollow(Act(q, p, a), p) && AccountedAt(p, Act(q, p, a), s, popped)
  {
    FollowingIsSymmetric(p, q);
    ActKeepsFollowing(q, p, a);
    PeerActKeepsHeard(p, q, a, s);
  }

  lemma PeerActKeepsHeard(p: Party, q: Party, a: Action, s: u32)
    requires p.got <= |q.ep.out.All()|
    ensures p.got <= |Act(q, p, a).ep.out.All()| && HeardOn(p, Act(q, p, a), s) == HeardOn(p, q, s)
  {
    var q' := Act(q, p, a);
    if a.Do? {
      CallEmits(q.ep, a.call);
    } else if Deliverable(q, p) {
      HandleEmits(q.ep, Next(q, p));
    }
    if q' != q {
      HeardStays(q, q', p, Emitted(q.ep, q'.ep), s);
    }
  }

  lemma {:induction false} RunAccounts(events: seq<Event>, r: Role, s: u32)
    ensures Run(events).Side(r).got <= |Run(events).Peer(r).ep.out.All()|
    ensures AccountedAt(Run(events).Side(r), Run(events).Peer(r), s, PoppedOn(events, r, s))
  {
    RunFollows(events);
    if events != [] {
      var before, ev := events[..|events| - 1], events[|events| - 1];
      var p, q := Run(before).Side(r), Run(before).Peer(r);
      RunAccounts(before, r, s);
      RunFollows(before);
      FollowingIsSymmetric(Run(before).ini, Run(before).acc);
      var popped := PoppedOn(before, r, s);
      assert popped + [] == popped;
      if ev.role != r {
        PeerActAccounts(p, q, ev.action, s, popped);
      } else {
        match ev.action
        case Do(c) => OwnCallAccounts(p, q, c, s, popped);
        case Recv => if Deliverable(p, q) { OwnReceiptAccounts(p, q, s, popped); }
      }
    }
  }

  /** In every run, whatever the users call: what has been popped from a stream and
      what its queue holds are, in this order, the payloads `recv_frame` returned on
      it. */
  lemma PoppedThenQueued(events: seq<Event>, r: Role, s: u32)
    requires s in Run(events).Side(r).ep.streams
    ensures var p := Run(events).Side(r);
            PoppedOn(events, r, s) + p.ep.streams[s].recvQueue == OfStream(p.returned, s)
  {
    RunAccounts(events, r, s);
  }

  /** End to end: up to the receiving side's first error, the payloads its user popped
      from a stream are a prefix of those the other user gave to `send_data` on it. */
  lemma PopsWhatWasGiven(events: seq<Event>, r: Role, s: u32)
    requires NoErrorAt(events, r)
    ensures PoppedOn(events, r, s) <= OfStream(Run(events).Peer(r).given, s)
  {
    RunAccounts(events, r, s);
    DeliversInOrder(events, r, s);
  }
}
