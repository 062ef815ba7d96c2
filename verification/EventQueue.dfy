/** The bounded event queue and its two handles (`engine/src/events/queue.rs`,
    `engine/src/events/producer.rs`, `engine/src/events/consumer.rs`). */
module EventQueue {
  import opened Bytes

  const USIZE_MAX: nat := 0xFFFF_FFFF_FFFF_FFFF

  datatype PushResult<T> = Accepted(notify: bool) | Full(item: T)

  /** What happens while a consumer waits: producers offer these items, and the
      wait ends by a time-out or by a wake-up. */
  datatype Wait<T> = Wait(offered: seq<T>, timedOut: bool)

  datatype Receipt<T> = Received(item: T) | TimedOut | StillWaiting

  /** No more items are accepted; capacity 0 is no bound. */
  predicate IsFull<T>(items: seq<T>, capacity: nat) { capacity > 0 && |items| >= capacity }

  class Queue<T> {
    const capacity: nat
    var items: seq<T>
    var totalPushed: nat
    var totalPopped: nat
    var maxQueueSize: nat
    /** Everything accepted and everything popped, in order. */
    ghost var accepted: seq<T>
    ghost var popped: seq<T>

    /** What holds whenever the queue's lock is free. */
    ghost predicate Valid()
      reads this
    {
      && accepted == popped + items
      && totalPushed == |accepted| && totalPopped == |popped|
      && |items| <= maxQueueSize <= totalPushed
      && (capacity > 0 ==> maxQueueSize <= capacity)
    }

    constructor (capacity: nat)
      ensures Valid() && this.capacity == capacity && accepted == popped == items == []
    {
      this.capacity := capacity;
      items, totalPushed, totalPopped, maxQueueSize := [], 0, 0, 0;
      accepted, popped := [], [];
    }

    /** `push`. The caller notifies one waiter, after releasing the lock, exactly
        when the queue was empty. */
    method Push(item: T) returns (r: PushResult<T>)
      requires Valid()
      modifies this
      ensures Valid() && popped == old(popped)
      ensures r == if IsFull(old(items), capacity) then Full(item) else PushResult.Accepted(old(items) == [])
      ensures accepted == if r.Full? then old(accepted) else old(accepted) + [item]
      ensures items == if r.Full? then old(items) else old(items) + [item]
      ensures maxQueueSize == if |items| > old(maxQueueSize) then |items| else old(maxQueueSize)
    {
      if capacity > 0 && |items| >= capacity {
        return Full(item);
      }
      var wasEmpty := items == [];
      items := items + [item];
      totalPushed := totalPushed + 1;
      maxQueueSize := if maxQueueSize < |items| then |items| else maxQueueSize;
      accepted := accepted + [item];
      return PushResult.Accepted(wasEmpty);
    }

    /** `try_recv`. */
    method TryRecv() returns (r: Option<T>)
      requires Valid()
      modifies this
      ensures Valid() && accepted == old(accepted) && maxQueueSize == old(maxQueueSize)
      ensures old(items) == [] ==> r == None && popped == old(popped) && items == []
      ensures old(items) != [] ==>
                r == Some(old(items)[0]) && popped == old(popped) + [old(items)[0]] && items == old(items)[1..]
    {
      if items == [] {
        return None;
      }
      r := Some(items[0]);
      popped := popped + [items[0]];
      items := items[1..];
      totalPopped := totalPopped + 1;
    }

    /** Producers at work while the lock is free. */
    method Offer(offered: seq<T>)
      requires Valid()
      modifies this
      ensures Valid() && popped == old(popped) && old(accepted) <= accepted
      ensures |offered| > 0 && old(items) == [] ==> items != []
    {
      for i := 0 to |offered|
        invariant Valid() && popped == old(popped) && old(accepted) <= accepted
        invariant i > 0 && old(items) == [] ==> items != []
      {
        ghost var before := accepted;
        var _ := Push(offered[i]);
        assert before <= accepted;
        assert |accepted| == |popped| + |items|;
      }
    }

    /** `recv_timeout`, over any finite course of waits: it returns the oldest item
        not yet popped, or a time-out. A time-out is returned without another look
        at the queue, even if an item has arrived; otherwise an empty queue is the
        only reason to go on waiting. */
    method RecvTimeout(waits: seq<Wait<T>>) returns (r: Receipt<T>)
      requires Valid()
      modifies this
      ensures Valid() && old(accepted) <= accepted
      ensures r.Received? ==>
                |old(popped)| < |accepted| && r.item == accepted[|old(popped)|] && popped == old(popped) + [r.item]
      ensures !r.Received? ==> popped == old(popped)
      ensures r.TimedOut? ==> exists k :: 0 <= k < |waits| && waits[k].timedOut
      ensures r.StillWaiting? ==>
                items == [] && forall k :: 0 <= k < |waits| ==> !waits[k].timedOut && waits[k].offered == []
      ensures old(items) != [] ==> r == Received(old(items)[0])
    {
      for k := 0 to |waits|
        invariant Valid() && popped == old(popped) && old(accepted) <= accepted
        invariant k == 0 ==> items == old(items)
        invariant k > 0 ==> old(items) == []
        invariant items == [] ==> forall j :: 0 <= j < k ==> waits[j].offered == []
        invariant forall j :: 0 <= j < k ==> !waits[j].timedOut
      {
        var next := TryRecv();
        if next.Some? {
          return Received(next.value);
        }
        Offer(waits[k].offered);
        if waits[k].timedOut {
          return TimedOut;
        }
      }
      var next := TryRecv();
      r := if next.Some? then Received(next.value) else StillWaiting;
    }
  }

  /** How many of `n` items a queue of this capacity has room for. */
  function Room(capacity: nat, n: nat): nat { if capacity == 0 || n <= capacity then n else capacity }

  /** Pushing items onto a new queue: as many as it has room for are accepted, in order,
      and the first of them asks for a notification; the others come back. */
  method PushAll<T>(capacity: nat, xs: seq<T>) returns (q: Queue<T>, results: seq<PushResult<T>>)
    ensures fresh(q) && q.Valid() && q.capacity == capacity && q.popped == []
    ensures q.accepted == xs[..Room(capacity, |xs|)] && |results| == |xs|
    ensures forall i :: 0 <= i < |xs| ==>
              results[i] == if i < Room(capacity, |xs|) then PushResult.Accepted(i == 0) else Full(xs[i])
  {
    q := new Queue(capacity);
    results := [];
    for n := 0 to |xs|
      invariant fresh(q) && q.Valid() && q.popped == []
      invariant q.capacity == capacity && q.accepted == xs[..Room(capacity, n)] && |results| == n
      invariant forall i :: 0 <= i < n ==>
                  results[i] == if i < Room(capacity, |xs|) then PushResult.Accepted(i == 0) else Full(xs[i])
    {
      var r := q.Push(xs[n]);
      results := results + [r];
    }
  }

  /** `SharedQueue::new` and `with_capacity`: a queue meant to be unbounded gets the
      largest capacity, and capacity 0 is never full either. */
  method NewQueue<T>() returns (q: Queue<T>)
    ensures fresh(q) && q.Valid() && q.capacity == USIZE_MAX && q.accepted == q.popped == []
  {
    q := new Queue(USIZE_MAX);
  }
}
