/** One logical stream: half-close machine, windows and receive queue
    (`transport/src/tcp/stream.rs`). */
module Streams {
  import opened Bytes
  import opened TransportErrors

  const DEFAULT_WINDOW: int := 65_536
  const I64_MAX: int := 0x7FFF_FFFF_FFFF_FFFF

  datatype StreamState = Open | HalfClosedLocal | HalfClosedRemote | Closed | Reset {

    predicate CanSend() { Open? || HalfClosedRemote? }

    predicate CanReceive() { Open? || HalfClosedLocal? }

    predicate IsClosed() { Closed? || Reset? }

    /** Whether the local and the remote direction have ended, for a stream that was not reset. */
    function Ended(): (bool, bool) {
      (HalfClosedLocal? || Closed?, HalfClosedRemote? || Closed?)
    }
  }

  /** The fields of a stream as a value. */
  datatype StreamView = StreamView(
    id: u32, state: StreamState, sendWindow: int, recvWindow: int, recvQueue: seq<seq<byte>>)

  function NewStream(id: u32): StreamView {
    StreamView(id, Open, DEFAULT_WINDOW, DEFAULT_WINDOW, [])
  }

  function LocalClose(s: StreamState): (t: StreamState)
    ensures s.Reset? ==> t == s
    ensures !s.Reset? ==> !t.Reset? && t.Ended() == (true, s.Ended().1)
  {
    match s
    case Open => HalfClosedLocal
    case HalfClosedRemote => Closed
    case other => other
  }

  function RemoteClose(s: StreamState): (t: StreamState)
    ensures s.Reset? ==> t == s
    ensures !s.Reset? ==> !t.Reset? && t.Ended() == (s.Ended().0, true)
  {
    match s
    case Open => HalfClosedRemote
    case HalfClosedLocal => Closed
    case other => other
  }

  function NonNegative(n: int): int { if n < 0 then 0 else n }

  function ConsumeSend(v: StreamView, n: nat): StreamView {
    v.(sendWindow := NonNegative(v.sendWindow - n))
  }

  /** `i64::saturating_add` of a `u32`. */
  function ApplyIncrement(v: StreamView, increment: u32): StreamView {
    v.(sendWindow := if v.sendWindow + increment > I64_MAX then I64_MAX else v.sendWindow + increment)
  }

  function PushRecv(v: StreamView, payload: seq<byte>): StreamView {
    v.(recvWindow := NonNegative(v.recvWindow - |payload|), recvQueue := v.recvQueue + [payload])
  }

  function PopRecv(v: StreamView): (StreamView, Option<seq<byte>>) {
    if v.recvQueue == [] then (v, None)
    else (v.(recvWindow := v.recvWindow + |v.recvQueue[0]|, recvQueue := v.recvQueue[1..]), Some(v.recvQueue[0]))
  }

  class Stream {
    const id: u32
    var state: StreamState
    var sendWindow: int
    var recvWindow: int
    var recvQueue: seq<seq<byte>>

    ghost function View(): StreamView
      reads this
    {
      StreamView(id, state, sendWindow, recvWindow, recvQueue)
    }

    constructor (id: u32)
      ensures View() == NewStream(id)
    {
      this.id := id;
      state, sendWindow, recvWindow, recvQueue := Open, DEFAULT_WINDOW, DEFAULT_WINDOW, [];
    }

    method CheckSendWindow(count: nat) returns (r: Result<()>)
      ensures r == if count <= sendWindow then Ok(()) else Err(FlowControlViolation(id))
    {
      if sendWindow < count {
        return Err(FlowControlViolation(id));
      }
      return Ok(());
    }

    method ConsumeSendWindow(count: nat)
      modifies `sendWindow
      ensures View() == ConsumeSend(old(View()), count)
    {
      sendWindow := sendWindow - count;
      if sendWindow < 0 {
        sendWindow := 0;
      }
    }

    method ApplyWindowIncrement(increment: u32)
      modifies `sendWindow
      ensures View() == ApplyIncrement(old(View()), increment)
    {
      sendWindow := if sendWindow + increment > I64_MAX then I64_MAX else sendWindow + increment;
    }

    method Push(payload: seq<byte>)
      modifies `recvWindow, `recvQueue
      ensures View() == PushRecv(old(View()), payload)
    {
      recvWindow := recvWindow - |payload|;
      if recvWindow < 0 {
        recvWindow := 0;
      }
      recvQueue := recvQueue + [payload];
    }

    method Pop() returns (payload: Option<seq<byte>>)
      modifies `recvWindow, `recvQueue
      ensures (View(), payload) == PopRecv(old(View()))
    {
      if recvQueue == [] {
        return None;
      }
      payload := Some(recvQueue[0]);
      recvQueue := recvQueue[1..];
      recvWindow := recvWindow + |payload.value|;
    }

    method OnLocalClose()
      modifies `state
      ensures View() == old(View()).(state := LocalClose(old(state)))
    {
      match state {
        case Open => state := HalfClosedLocal;
        case HalfClosedRemote => state := Closed;
        case _ =>
      }
    }

    method OnRemoteClose()
      modifies `state
      ensures View() == old(View()).(state := RemoteClose(old(state)))
    {
      match state {
        case Open => state := HalfClosedRemote;
        case HalfClosedLocal => state := Closed;
        case _ =>
      }
    }

    method OnReset()
      modifies `state
      ensures View() == old(View()).(state := Reset)
    {
      state := Reset;
    }
  }
}
