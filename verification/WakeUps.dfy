/** Waiting and notifying on the event queue, one lock release at a time
    (`engine/src/events/producer.rs`, `engine/src/events/consumer.rs`). */
module WakeUps {
  import opened Bytes
  import opened EventQueue

  datatype Consumer = Awake | Waiting | Notified

  /** `pending` producers found the queue empty when they pushed, have released its
      lock, and have not notified yet. */
  datatype World<T> = World(
    items: seq<T>, consumers: seq<Consumer>, pending: nat, accepted: seq<T>, popped: seq<T>)

  datatype Step<T> =
    | Push(item: T)
    | Notify(to: nat)
    | Pop(who: nat)
    | Wait(who: nat)
    | Wake(who: nat)

  /** `notify_one` reaches a waiting consumer if there is one; waking can also be
      spurious, or by time-out. A consumer waits only after it found nothing. */
  predicate Enabled<T>(w: World<T>, s: Step<T>, capacity: nat) {
    match s
    case Push(_) => !IsFull(w.items, capacity)
    case Notify(to) => w.pending > 0 && ((to < |w.consumers| && w.consumers[to].Waiting?) || Waiting !in w.consumers)
    case Pop(who) => who < |w.consumers| && w.consumers[who].Awake? && w.items != []
    case Wait(who) => who < |w.consumers| && w.consumers[who].Awake? && w.items == []
    case Wake(who) => who < |w.consumers| && !w.consumers[who].Awake?
  }

  function After<T>(w: World<T>, s: Step<T>): World<T> {
    match s
    case Push(item) =>
      w.(items := w.items + [item], accepted := w.accepted + [item],
         pending := w.pending + if w.items == [] then 1 else 0)
    case Notify(to) =>
      w.(pending := if w.pending > 0 then w.pending - 1 else 0,
         consumers := if to < |w.consumers| && w.consumers[to].Waiting? then w.consumers[to := Notified]
                      else w.consumers)
    case Pop(who) => if w.items == [] then w else w.(items := w.items[1..], popped := w.popped + [w.items[0]])
    case Wait(who) => if who < |w.consumers| then w.(consumers := w.consumers[who := Waiting]) else w
    case Wake(who) => if who < |w.consumers| then w.(consumers := w.consumers[who := Awake]) else w
  }

  function Fresh<T>(consumers: nat): World<T> { World([], seq(consumers, _ => Awake), 0, [], []) }

  function Run<T>(consumers: nat, steps: seq<Step<T>>): World<T> {
    if steps == [] then Fresh(consumers) else After(Run(consumers, steps[..|steps| - 1]), steps[|steps| - 1])
  }

  predicate Legal<T>(consumers: nat, steps: seq<Step<T>>, capacity: nat) {
    steps == []
    || (Legal(consumers, steps[..|steps| - 1], capacity)
        && Enabled(Run(consumers, steps[..|steps| - 1]), steps[|steps| - 1], capacity))
  }

  // ---- The steps on the queue are those of its handles ----

  ghost predicate Mirrors<T>(w: World<T>, q: Queue<T>)
    reads q
  {
    w.items == q.items && w.accepted == q.accepted && w.popped == q.popped
  }

  /** `push` on the queue object is the step `Push`, possible exactly if it is not
      refused; it asks for a notification exactly if one becomes pending. */
  method PushStep<T>(q: Queue<T>, ghost w: World<T>, item: T) returns (r: PushResult<T>)
    requires q.Valid() && Mirrors(w, q)
    modifies q
    ensures q.Valid() && (r.Accepted? <==> Enabled(w, Step.Push(item), q.capacity))
    ensures r.Accepted? ==>
              && Mirrors(After(w, Step.Push(item)), q)
              && (r.notify <==> After(w, Step.Push(item)).pending == w.pending + 1)
    ensures r.Full? ==> Mirrors(w, q)
  {
    r := q.Push(item);
  }

  /** `try_recv` is the step `Pop` of an awake consumer, if there is an item. */
  method PopStep<T>(q: Queue<T>, ghost w: World<T>, ghost who: nat) returns (r: Option<T>)
    requires q.Valid() && Mirrors(w, q) && who < |w.consumers| && w.consumers[who].Awake?
    modifies q
    ensures q.Valid() && (r.Some? <==> Enabled(w, Step.Pop(who), q.capacity))
    ensures r.Some? ==> r.value == w.items[0] && Mirrors(After(w, Step.Pop(who)), q)
    ensures r.None? ==> Mirrors(w, q) && Enabled(w, Step.Wait(who), q.capacity)
  {
    r := q.TryRecv();
  }

  /** Nothing is lost or reordered, with any number of consumers. */
  lemma {:induction false} QueueIsConserved<T>(consumers: nat, steps: seq<Step<T>>, capacity: nat)
    requires Legal(consumers, steps, capacity)
    ensures var w := Run(consumers, steps);
            && w.accepted == w.popped + w.items && |w.consumers| == consumers
            && (capacity > 0 ==> |w.items| <= capacity)
  {
    if steps != [] {
      var before := Run(consumers, steps[..|steps| - 1]);
      QueueIsConserved(consumers, steps[..|steps| - 1], capacity);
      if before.items != [] {
        assert before.items == [before.items[0]] + before.items[1..];
      }
    }
  }

  /** In every run, with any number of consumers, a push is refused exactly if as many
      items as the capacity are accepted and not popped yet; a zero capacity never
      refuses one. */
  lemma PushIsRefusedExactly<T>(consumers: nat, steps: seq<Step<T>>, capacity: nat, item: T)
    requires Legal(consumers, steps, capacity)
    ensures var w := Run(consumers, steps);
            && (!Enabled(w, Push(item), capacity) <==> capacity > 0 && |w.accepted| - |w.popped| == capacity)
            && After(w, Push(item)).accepted == w.accepted + [item]
  {
    QueueIsConserved(consumers, steps, capacity);
  }

  /** One consumer never sleeps through an item: while it waits and no notification
      is on its way, the queue is empty, although only a push onto an empty queue
      notifies. */
  lemma {:induction false} NoLostWakeUp<T>(steps: seq<Step<T>>, capacity: nat)
    requires Legal(1, steps, capacity)
    ensures var w := Run(1, steps); |w.consumers| == 1 && (w.consumers[0].Waiting? ==> w.items == [] || w.pending > 0)
  {
    if steps != [] {
      var before := Run(1, steps[..|steps| - 1]);
      NoLostWakeUp(steps[..|steps| - 1], capacity);
      if steps[|steps| - 1].Notify? && before.consumers[0].Waiting? {
        assert Waiting in before.consumers;
      }
    }
  }

  // ---- More consumers ----

  lemma OneMore<T>(n: nat, steps: seq<Step<T>>, s: Step<T>, capacity: nat)
    requires Legal(n, steps, capacity) && Enabled(Run(n, steps), s, capacity)
    ensures Legal(n, steps + [s], capacity) && Run(n, steps + [s]) == After(Run(n, steps), s)
  {
    assert (steps + [s])[..|steps|] == steps;
  }

  lemma Extend<T>(n: nat, capacity: nat, steps: seq<Step<T>>, w: World<T>, s: Step<T>, next: World<T>)
    returns (steps': seq<Step<T>>, w': World<T>)
    requires Legal(n, steps, capacity) && Run(n, steps) == w && Enabled(w, s, capacity) && After(w, s) == next
    ensures Legal(n, steps', capacity) && Run(n, steps') == w' == next
  {
    OneMore(n, steps, s, capacity);
    steps', w' := steps + [s], next;
  }

  /** A consumer waits beside a queued item, and no notification is on its way. */
  predicate Missed<T>(w: World<T>) { Waiting in w.consumers && w.items != [] && w.pending == 0 }

  ghost predicate NeverMisses<T(!new)>(n: nat, capacity: nat) {
    forall steps: seq<Step<T>> | Legal(n, steps, capacity) :: !Missed(Run(n, steps))
  }

  /** With two consumers or more, and any capacity: both wait, one item arrives, and
      the one notified wakes up, while the other goes on waiting. */
  lemma MoreConsumersMiss<T>(n: nat, capacity: nat, x: T) returns (steps: seq<Step<T>>)
    requires n >= 2
    ensures Legal(n, steps, capacity) && Missed(Run(n, steps))
  {
    var awake := Fresh<T>(n).consumers;
    var (both, told) := (awake[0 := Waiting][1 := Waiting], awake[0 := Notified][1 := Waiting]);
    var w: World<T>;
    steps, w := Extend(n, capacity, [], Fresh(n), Step.Wait(0), World([], awake[0 := Waiting], 0, [], []));
    steps, w := Extend(n, capacity, steps, w, Step.Wait(1), World([], both, 0, [], []));
    steps, w := Extend(n, capacity, steps, w, Push(x), World([x], both, 1, [x], []));
    assert both[0 := Notified] == told;
    steps, w := Extend(n, capacity, steps, w, Notify(0), World([x], told, 0, [x], []));
    steps, w := Extend(n, capacity, steps, w, Wake(0), World([x], told[0 := Awake], 0, [x], []));
    assert w.consumers[1].Waiting?;
  }

  /** The rule to notify only on a push onto an empty queue is enough exactly if there
      is at most one consumer, whatever the capacity. */
  lemma NoWakeUpIsLostExactly<T(!new)>(n: nat, capacity: nat, x: T)
    ensures NeverMisses<T>(n, capacity) <==> n <= 1
  {
    if n >= 2 {
      var steps := MoreConsumersMiss(n, capacity, x);
    } else {
      forall steps: seq<Step<T>> | Legal(n, steps, capacity)
        ensures !Missed(Run(n, steps))
      {
        QueueIsConserved(n, steps, capacity);
        if n == 1 {
          NoLostWakeUp(steps, capacity);
        }
      }
    }
  }

  /** The item need not be one that the woken consumer will take: of two consumers
      and no bound, one takes the first of two items and waits no longer, while the
      other waits beside the second. */
  lemma TwoConsumersCanMissAnItem() returns (steps: seq<Step<nat>>)
    ensures Legal(2, steps, 0)
    ensures var w := Run(2, steps); w.items == [2] && w.pending == 0 && w.consumers == [Awake, Waiting]
  {
    var w: World<nat>;
    steps, w := Extend(2, 0, [], Fresh(2), Step.Wait(0), World([], [Waiting, Awake], 0, [], []));
    steps, w := Extend(2, 0, steps, w, Step.Wait(1), World([], [Waiting, Waiting], 0, [], []));
    steps, w := Extend(2, 0, steps, w, Push(1), World([1], [Waiting, Waiting], 1, [1], []));
    steps, w := Extend(2, 0, steps, w, Notify(0), World([1], [Notified, Waiting], 0, [1], []));
    steps, w := Extend(2, 0, steps, w, Push(2), World([1, 2], [Notified, Waiting], 0, [1, 2], []));
    steps, w := Extend(2, 0, steps, w, Wake(0), World([1, 2], [Awake, Waiting], 0, [1, 2], []));
    steps, w := Extend(2, 0, steps, w, Pop(0), World([2], [Awake, Waiting], 0, [1, 2], [1]));
  }

  /** Somebody is about to look at the queue, or will be told to. */
  predicate Attended<T>(w: World<T>) {
    w.items == [] || w.pending > 0 || exists k :: 0 <= k < |w.consumers| && !w.consumers[k].Waiting?
  }

  /** Even so no item is stranded, with any number of consumers: while one is queued,
      a notification is on its way or some consumer is not waiting. */
  lemma {:induction false} NoItemIsStranded<T>(n: nat, steps: seq<Step<T>>, capacity: nat)
    requires n > 0 && Legal(n, steps, capacity)
    ensures Attended(Run(n, steps))
  {
    if steps != [] {
      NoItemIsStranded(n, steps[..|steps| - 1], capacity);
      QueueIsConserved(n, steps[..|steps| - 1], capacity);
      StepKeepsAttended(Run(n, steps[..|steps| - 1]), steps[|steps| - 1], capacity);
    }
  }

  lemma StepKeepsAttended<T>(w: World<T>, s: Step<T>, capacity: nat)
    requires Attended(w) && Enabled(w, s, capacity) && |w.consumers| > 0
    ensures Attended(After(w, s))
  {
    var v := After(w, s);
    match s
    case Push(_) =>
      if exists k :: 0 <= k < |w.consumers| && !w.consumers[k].Waiting? {
        var k :| 0 <= k < |w.consumers| && !w.consumers[k].Waiting?;
        assert !v.consumers[k].Waiting?;
      }
    case Notify(to) =>
      if to < |w.consumers| && w.consumers[to].Waiting? {
        assert !v.consumers[to].Waiting?;
      } else {
        assert w.consumers[0] in w.consumers;
        assert !v.consumers[0].Waiting?;
      }
    case Pop(who) => assert !v.consumers[who].Waiting?;
    case Wait(_) =>
    case Wake(who) => assert !v.consumers[who].Waiting?;
  }
}
