/** One stream seen from both ends: the two copies of its state and the frames
    of this stream still travelling in either direction. */
module StreamPair {
  import opened Bytes
  import opened Frames
  import opened Streams

  /** A stream at one end: not opened there yet, in the map, or removed. */
  datatype Side = Fresh | Live(view: StreamView) | Gone {

    /** This end has sent its Close. */
    predicate LocalDone() { Gone? || (Live? && view.state.Ended().0) }

    /** This end has received the peer's Close. */
    predicate RemoteDone() { Gone? || (Live? && view.state.Ended().1) }

    predicate WellFormed() { Live? ==> !view.state.IsClosed() }

    /** What this end may still send; a fresh stream will start with a full window. */
    function SendCredit(): int {
      if Fresh? then DEFAULT_WINDOW else if Live? then view.sendWindow else 0
    }

    /** Bytes received and not yet popped. */
    function Queued(): nat { if Live? then TotalBytes(view.recvQueue) else 0 }
  }

  function TotalBytes(q: seq<seq<byte>>): nat {
    if q == [] then 0 else |q[0]| + TotalBytes(q[1..])
  }

  function DataBytes(fs: seq<Frame>): nat {
    if fs == [] then 0
    else (if fs[0].header.frameType.Data? then |fs[0].payload| else 0) + DataBytes(fs[1..])
  }

  function CreditOf(f: Frame): nat {
    if f.header.frameType.Window? && |f.payload| == 4 then FromBE32(f.payload) else 0
  }

  function Credits(fs: seq<Frame>): nat {
    if fs == [] then 0 else CreditOf(fs[0]) + Credits(fs[1..])
  }

  /** A frame that belongs to a stream, as a well-behaved manager sends it. */
  predicate StreamFrame(f: Frame) {
    || f.header.frameType.Open? || f.header.frameType.Close?
    || (f.header.frameType.Data? && f.payload != [])
    || (f.header.frameType.Window? && |f.payload| == 4)
  }

  predicate ClosePending(fs: seq<Frame>) { fs != [] && fs[|fs| - 1].header.frameType.Close? }

  predicate OpenPending(fs: seq<Frame>) { fs != [] && fs[0].header.frameType.Open? }

  /** Window plus data in flight plus data queued plus credit on its way back. */
  function Flow(x: Side, y: Side, xy: seq<Frame>, yx: seq<Frame>): int {
    x.SendCredit() + DataBytes(xy) + y.Queued() + Credits(yx)
  }

  /** Travelling frames: nothing follows a Close, and Open comes first. */
  predicate Ordered(y: Side, xy: seq<Frame>) {
    forall k :: 0 <= k < |xy| ==>
      && StreamFrame(xy[k])
      && (xy[k].header.frameType.Close? ==> k == |xy| - 1)
      && (xy[k].header.frameType.Open? ==> k == 0 && y.Fresh?)
  }

  /** The direction from `x` to `y`: matching half-close states and credit. */
  predicate Direction(x: Side, y: Side, xy: seq<Frame>, yx: seq<Frame>) {
    && Ordered(y, xy)
    && (x.LocalDone() <==> ClosePending(xy) || y.RemoteDone())
    && (y.RemoteDone() ==> xy == [])
    && x.SendCredit() >= 0
    && Flow(x, y, xy, yx) <= DEFAULT_WINDOW
    && (!x.Gone? && !y.RemoteDone() ==> Flow(x, y, xy, yx) == DEFAULT_WINDOW)
    && (y.Live? ==> y.view.recvWindow + y.Queued() == DEFAULT_WINDOW)
  }

  /** `x` is the end that opens this stream. */
  predicate Opening(x: Side, y: Side, xy: seq<Frame>, yx: seq<Frame>) {
    && (x.Fresh? ==> y.Fresh? && xy == [])
    && (!x.Fresh? ==> (y.Fresh? <==> OpenPending(xy)))
    && (y.Fresh? ==> yx == [] && !x.Gone?)
  }

  predicate PairInv(xOpens: bool, x: Side, y: Side, xy: seq<Frame>, yx: seq<Frame>) {
    && x.WellFormed() && y.WellFormed()
    && Direction(x, y, xy, yx) && Direction(y, x, yx, xy)
    && (if xOpens then Opening(x, y, xy, yx) else Opening(y, x, yx, xy))
  }

  // ---- Sums ----

  lemma {:induction false} TotalBytesAppend(q: seq<seq<byte>>, p: seq<byte>)
    ensures TotalBytes(q + [p]) == TotalBytes(q) + |p|
  {
    if q != [] {
      TotalBytesAppend(q[1..], p);
      assert (q + [p])[1..] == q[1..] + [p];
    }
  }

  lemma {:induction false} SumsAppend(fs: seq<Frame>, f: Frame)
    ensures DataBytes(fs + [f]) == DataBytes(fs) + if f.header.frameType.Data? then |f.payload| else 0
    ensures Credits(fs + [f]) == Credits(fs) + CreditOf(f)
  {
    if fs == [] {
      assert (fs + [f])[1..] == [];
    } else {
      SumsAppend(fs[1..], f);
      assert (fs + [f])[1..] == fs[1..] + [f];
    }
  }

  // ---- `x` sends ----

  lemma OpensStream(x: Side, y: Side, xy: seq<Frame>, yx: seq<Frame>, id: u32, f: Frame)
    requires PairInv(true, x, y, xy, yx) && x.Fresh? && f.header.frameType.Open?
    ensures PairInv(true, Live(NewStream(id)), y, xy + [f], yx)
  {
    SumsAppend(xy, f);
  }

  lemma SendsData(o: bool, x: Side, y: Side, xy: seq<Frame>, yx: seq<Frame>, f: Frame)
    requires PairInv(o, x, y, xy, yx) && x.Live? && x.view.state.CanSend()
    requires f.header.frameType.Data? && 0 < |f.payload| <= x.view.sendWindow
    ensures PairInv(o, Live(ConsumeSend(x.view, |f.payload|)), y, xy + [f], yx)
  {
    SumsAppend(xy, f);
  }

  function CloseLocally(x: Side): Side
    requires x.Live?
  {
    var state := LocalClose(x.view.state);
    if state.Closed? then Gone else Live(x.view.(state := state))
  }

  lemma SendsClose(o: bool, x: Side, y: Side, xy: seq<Frame>, yx: seq<Frame>, f: Frame)
    requires PairInv(o, x, y, xy, yx) && x.Live? && x.view.state.CanSend()
    requires f.header.frameType.Close?
    ensures PairInv(o, CloseLocally(x), y, xy + [f], yx)
  {
    SumsAppend(xy, f);
  }

  /** Popping after the peer's Close returns no credit. */
  lemma PopsAfterRemoteClose(o: bool, x: Side, y: Side, xy: seq<Frame>, yx: seq<Frame>)
    requires PairInv(o, x, y, xy, yx) && x.Live? && x.view.recvQueue != [] && !x.view.state.CanReceive()
    ensures PairInv(o, Live(PopRecv(x.view).0), y, xy, yx)
  {
  }

  lemma PopsEmptyPayload(o: bool, x: Side, y: Side, xy: seq<Frame>, yx: seq<Frame>)
    requires PairInv(o, x, y, xy, yx) && x.Live? && x.view.recvQueue != [] && x.view.recvQueue[0] == []
    ensures PairInv(o, Live(PopRecv(x.view).0), y, xy, yx)
  {
  }

  /** Popping before either Close sends the popped length back as credit. */
  lemma PopsAndReturnsCredit(o: bool, x: Side, y: Side, xy: seq<Frame>, yx: seq<Frame>, f: Frame)
    requires PairInv(o, x, y, xy, yx) && x.Live? && x.view.recvQueue != []
    requires x.view.state.CanSend() && x.view.state.CanReceive()
    requires f.header.frameType.Window? && |f.payload| == 4 && FromBE32(f.payload) == |x.view.recvQueue[0]|
    ensures PairInv(o, Live(PopRecv(x.view).0), y, xy + [f], yx)
  {
    SumsAppend(xy, f);
  }

  // ---- `x` receives the oldest travelling frame ----

  /** The oldest frame is always one `x` accepts. */
  lemma HeadIsAcceptable(o: bool, x: Side, y: Side, xy: seq<Frame>, yx: seq<Frame>)
    requires PairInv(o, x, y, xy, yx) && yx != []
    ensures StreamFrame(yx[0])
    ensures yx[0].header.frameType.Open? <==> x.Fresh?
    ensures !yx[0].header.frameType.Open? ==> x.Live? && x.view.state.CanReceive()
    ensures x.Fresh? ==> !o
  {
  }

  lemma ReceivesOpen(o: bool, x: Side, y: Side, xy: seq<Frame>, yx: seq<Frame>, id: u32)
    requires PairInv(o, x, y, xy, yx) && yx != [] && yx[0].header.frameType.Open?
    ensures PairInv(o, Live(NewStream(id)), y, xy, yx[1..])
  {
    HeadIsAcceptable(o, x, y, xy, yx);
  }

  /** The queue takes the payload, and the receive window is never clamped. */
  lemma ReceivesData(o: bool, x: Side, y: Side, xy: seq<Frame>, yx: seq<Frame>)
    requires PairInv(o, x, y, xy, yx) && yx != [] && yx[0].header.frameType.Data?
    ensures x.Live? && x.view.recvWindow >= |yx[0].payload|
    ensures PairInv(o, Live(PushRecv(x.view, yx[0].payload)), y, xy, yx[1..])
  {
    HeadIsAcceptable(o, x, y, xy, yx);
    TotalBytesAppend(x.view.recvQueue, yx[0].payload);
  }

  function CloseRemotely(x: Side): Side
    requires x.Live?
  {
    var state := RemoteClose(x.view.state);
    if state.Closed? then Gone else Live(x.view.(state := state))
  }

  lemma ReceivesClose(o: bool, x: Side, y: Side, xy: seq<Frame>, yx: seq<Frame>)
    requires PairInv(o, x, y, xy, yx) && yx != [] && yx[0].header.frameType.Close?
    ensures yx[1..] == []
    ensures x.Live? && PairInv(o, CloseRemotely(x), y, xy, yx[1..])
  {
    HeadIsAcceptable(o, x, y, xy, yx);
  }

  lemma ReceivesWindow(o: bool, x: Side, y: Side, xy: seq<Frame>, yx: seq<Frame>)
    requires PairInv(o, x, y, xy, yx) && yx != [] && yx[0].header.frameType.Window?
    ensures x.Live? && PairInv(o, Live(ApplyIncrement(x.view, FromBE32(yx[0].payload))), y, xy, yx[1..])
  {
    HeadIsAcceptable(o, x, y, xy, yx);
  }

  lemma AcceptedMeansOpened(x: Side, y: Side, xy: seq<Frame>, yx: seq<Frame>)
    requires PairInv(false, x, y, xy, yx) && x.Live?
    ensures !y.Fresh? && !OpenPending(yx)
  {
  }

  lemma PairInvIsSymmetric(o: bool, x: Side, y: Side, xy: seq<Frame>, yx: seq<Frame>)
    requires PairInv(o, x, y, xy, yx)
    ensures PairInv(!o, y, x, yx, xy)
  {
  }
}
