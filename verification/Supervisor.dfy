/** The event loop and its supervisor, interleaved at lock granularity
    (`engine/src/events/loops.rs`). A supervisor call holds the handle's lock from
    its first look at the handle to its return, and `request_stop` holds it while
    it joins the runner. Spawning a thread does not fail here. */
module Supervisor {
  import opened Bytes
  import opened EventLifecycle
  import EventQueue

  datatype Task = Task(id: nat, payload: seq<byte>)

  /** Where a runner thread is; each name is what it does next. */
  datatype Phase =
    | Starting                  // event_loop.start
    | Entering                  // active_runners += 1
    | Testing                   // should_continue
    | Receiving                 // the first look of recv_timeout
    | Waiting                   // on the condition variable
    | Dispatching(task: Task)
    | CheckingState             // is the lifecycle stopping?
    | CheckingEmpty             // is the queue empty?
    | Finishing                 // complete_shutdown
    | Leaving                   // active_runners -= 1
    | Ended(panicked: bool)

  /** A runner, the lifecycle when it was spawned, and how many tasks it took. */
  datatype Runner = Runner(phase: Phase, born: State, taken: nat) {
    predicate Live() { !phase.Ended? }
  }

  /** Who holds the handle's lock, and where that call is. */
  datatype Holder =
    | Free
    | Ensuring                  // start
    | Checking(task: Task)      // push: first look at the runner
    | Queueing(task: Task)      // push: into the queue
    | Rechecking                // push: second look at the runner
    | Joining(runner: nat)      // request_stop

  /** `stops` calls of `request_stop` have changed the lifecycle and not taken the
      handle yet. `mark` is the number of tasks accepted before the first of them. */
  datatype World = World(
    life: State, queue: seq<Task>, capacity: nat, active: int, holder: Holder, handle: Option<nat>,
    runners: seq<Runner>, stops: nat, mark: Option<nat>,
    accepted: seq<Task>, popped: seq<Task>, dispatched: seq<Task>, panics: nat)

  datatype Step =
    | CallStart | CallPush(task: Task)  // taking the free lock
    | Ensure | Check | Enqueue | Recheck
    | RequestStop | TakeHandle | FinishJoin
    | Turn(runner: nat)                 // a runner does what its phase says
    | TimeOut(runner: nat)
    | Panic(runner: nat)

  function Init(capacity: nat): World {
    World(Created, [], capacity, 0, Free, None, [], 0, None, [], [], [], 0)
  }

  // ---- The calls ----

  predicate RunnerIsDead(w: World) {
    w.handle.None? || w.handle.value >= |w.runners| || !w.runners[w.handle.value].Live()
  }

  /** Spawns a runner if there is none alive. */
  function Respawned(w: World): World {
    if RunnerIsDead(w) then w.(handle := Some(|w.runners|), runners := w.runners + [Runner(Starting, w.life, 0)]) else w
  }

  function Enqueued(w: World, task: Task): World {
    if EventQueue.IsFull(w.queue, w.capacity) then w.(holder := Free)
    else w.(queue := w.queue + [task], accepted := w.accepted + [task], holder := Rechecking)
  }

  function StopRequested(w: World): World {
    w.(life := AfterStop(w.life, Graceful), stops := w.stops + 1,
       mark := if w.life.Created? || w.life.Running? then Some(|w.accepted|) else w.mark)
  }

  function HandleTaken(w: World): World
    requires w.stops > 0
  {
    w.(stops := w.stops - 1, handle := None, holder := if w.handle.Some? then Joining(w.handle.value) else Free)
  }

  ghost predicate Mirrors(w: World, q: EventQueue.Queue<Task>)
    reads q
  {
    w.queue == q.items && w.accepted == q.accepted && w.popped == q.popped && w.capacity == q.capacity
  }

  /** `push` on the queue object is the step `Enqueue`. */
  method EnqueueStep(q: EventQueue.Queue<Task>, ghost w: World, task: Task) returns (r: EventQueue.PushResult<Task>)
    requires q.Valid() && Mirrors(w, q) && w.holder == Queueing(task)
    modifies q
    ensures q.Valid() && Mirrors(Enqueued(w, task), q)
    ensures r.Accepted? <==> Enqueued(w, task).accepted == w.accepted + [task]
  {
    r := q.Push(task);
  }

  // ---- The runners ----

  function WithPhase(w: World, i: nat, p: Phase): World
    requires i < |w.runners|
  {
    w.(runners := w.runners[i := w.runners[i].(phase := p)])
  }

  function Received(w: World, i: nat): World
    requires i < |w.runners|
  {
    if w.queue == [] then WithPhase(w, i, Waiting)
    else
      var r := w.runners[i];
      w.(queue := w.queue[1..], popped := w.popped + [w.queue[0]],
         runners := w.runners[i := Runner(Dispatching(w.queue[0]), r.born, r.taken + 1)])
  }

  /** Looking at the queue object is the step of a runner that receives. */
  method ReceiveStep(q: EventQueue.Queue<Task>, ghost w: World, ghost i: nat) returns (r: Option<Task>)
    requires q.Valid() && Mirrors(w, q) && i < |w.runners|
    modifies q
    ensures q.Valid() && Mirrors(Received(w, i), q)
    ensures Received(w, i).runners[i].phase == if r.None? then Waiting else Dispatching(r.value)
  {
    r := q.TryRecv();
  }

  function Turned(w: World, i: nat): World
    requires i < |w.runners|
  {
    match w.runners[i].phase
    case Starting => WithPhase(w.(life := AfterStart(w.life)), i, Entering)
    case Entering => WithPhase(w.(active := w.active + 1), i, Testing)
    case Testing => WithPhase(w, i, if Continues(w.life) then Receiving else Finishing)
    case Receiving => Received(w, i)
    case Waiting => WithPhase(w, i, Receiving)
    case Dispatching(task) => WithPhase(w.(dispatched := w.dispatched + [task]), i, CheckingState)
    case CheckingState => WithPhase(w, i, if w.life.Stopping? then CheckingEmpty else Testing)
    case CheckingEmpty => WithPhase(w, i, if w.queue == [] then Finishing else Testing)
    case Finishing => WithPhase(w.(life := AfterShutdown(w.life)), i, Leaving)
    case Leaving => WithPhase(w.(active := w.active - 1), i, Ended(false))
    case Ended(_) => w
  }

  // ---- Steps ----

  predicate Enabled(w: World, s: Step) {
    match s
    case CallStart => w.holder.Free?
    case CallPush(_) => w.holder.Free?
    case Ensure => w.holder.Ensuring?
    case Check => w.holder.Checking?
    case Enqueue => w.holder.Queueing?
    case Recheck => w.holder.Rechecking?
    case RequestStop => true
    case TakeHandle => w.holder.Free? && w.stops > 0
    case FinishJoin => w.holder.Joining? && w.holder.runner < |w.runners| && !w.runners[w.holder.runner].Live()
    case Turn(i) => i < |w.runners| && w.runners[i].Live()
    case TimeOut(i) => i < |w.runners| && w.runners[i].phase.Waiting?
    case Panic(i) => i < |w.runners| && w.runners[i].phase.Dispatching?
  }

  function After(w: World, s: Step): World
    requires Enabled(w, s)
  {
    match s
    case CallStart => w.(holder := Ensuring)
    case CallPush(task) => w.(holder := Checking(task))
    case Ensure => Respawned(w).(holder := Free)
    case Check => Respawned(w).(holder := Queueing(w.holder.task))
    case Enqueue => Enqueued(w, w.holder.task)
    case Recheck => Respawned(w).(holder := Free)
    case RequestStop => StopRequested(w)
    case TakeHandle => HandleTaken(w)
    case FinishJoin => w.(holder := Free)
    case Turn(i) => Turned(w, i)
    case TimeOut(i) => WithPhase(w, i, CheckingState)
    case Panic(i) => WithPhase(w.(panics := w.panics + 1), i, Ended(true))
  }

  // ---- What every step keeps ----

  /** The runner that may be alive: the one in the handle, or the one being joined. */
  function Current(w: World): Option<nat> {
    if w.holder.Joining? then Some(w.holder.runner) else w.handle
  }

  predicate OnlyCurrentLives(w: World) {
    && (w.holder.Joining? ==> w.handle.None?)
    && (Current(w).Some? ==> Current(w).value < |w.runners|)
    && forall i :: 0 <= i < |w.runners| && w.runners[i].Live() ==> Current(w) == Some(i)
  }

  /** A runner spawned after the lifecycle ended has taken nothing and never will. */
  predicate LateRunnersIdle(w: World) {
    forall i :: 0 <= i < |w.runners| && w.runners[i].born.Stopped? ==>
      && w.life.Stopped? && w.runners[i].taken == 0
      && w.runners[i].phase in {Starting, Entering, Testing, Finishing, Leaving, Ended(false)}
  }

  /** What the current runner does next. */
  function CurrentPhase(w: World): Phase {
    if Current(w).Some? && Current(w).value < |w.runners| then w.runners[Current(w).value].phase else Ended(false)
  }

  /** The task being dispatched. */
  function InHand(w: World): seq<Task> {
    if CurrentPhase(w).Dispatching? then [CurrentPhase(w).task] else []
  }

  /** A runner that `active_runners` counts. */
  predicate Counted(p: Phase) { !p.Starting? && !p.Entering? && !p.Ended? }

  /** Tasks leave the queue in the order they were accepted in, each once; those
      taken are dispatched but for the one in hand and one for each panic. A runner
      that panicked stays counted as active for ever. */
  predicate Conserved(w: World) {
    && w.accepted == w.popped + w.queue
    && (w.capacity > 0 ==> |w.queue| <= w.capacity)
    && |w.popped| == |w.dispatched| + |InHand(w)| + w.panics
    && (w.panics == 0 ==> w.popped == w.dispatched + InHand(w))
    && w.active == w.panics + if Counted(CurrentPhase(w)) then 1 else 0
  }

  /** The current runner has started the lifecycle, leaves only while or after it
      is stopping, and takes nothing once it has stopped. */
  predicate LifeAgrees(w: World) {
    var p := CurrentPhase(w);
    && (!p.Starting? && !p.Ended? ==> !w.life.Created?)
    && (w.stops > 0 || w.holder.Joining? || p.CheckingEmpty? || p.Finishing? || p.Leaving? ==>
          w.life.Stopping? || w.life.Stopped?)
    && (w.life.Stopped? ==> p.Leaving? || p.Ended? || p.Starting? || p.Entering? || p.Testing? || p.Finishing?)
  }

  predicate Inv(w: World) {
    OnlyCurrentLives(w) && LateRunnersIdle(w) && Conserved(w) && LifeAgrees(w)
  }

  lemma InitInv(capacity: nat)
    ensures Inv(Init(capacity))
  {
  }

  lemma RespawnKeepsInv(w: World)
    requires Inv(w) && !w.holder.Joining?
    ensures Inv(Respawned(w)) && Respawned(w).holder == w.holder && Respawned(w).handle.Some?
  {
  }

  lemma TurnKeepsRunners(w: World, i: nat)
    requires OnlyCurrentLives(w) && LateRunnersIdle(w) && i < |w.runners| && w.runners[i].Live()
    ensures OnlyCurrentLives(Turned(w, i)) && LateRunnersIdle(Turned(w, i))
  {
  }

  lemma TurnConserves(w: World, i: nat)
    requires OnlyCurrentLives(w) && Conserved(w) && i < |w.runners| && w.runners[i].Live()
    ensures Conserved(Turned(w, i))
  {
    assert Current(w) == Some(i);
    if w.runners[i].phase.Receiving? {
      ReceivingConserves(w, i);
    } else {
      MovingConserves(w, i);
    }
  }

  lemma ReceivingConserves(w: World, i: nat)
    requires Conserved(w) && i < |w.runners| && Current(w) == Some(i) && w.runners[i].phase.Receiving?
    ensures Conserved(Received(w, i))
  {
    assert Current(Received(w, i)) == Some(i);
    if w.queue != [] {
      assert w.queue == [w.queue[0]] + w.queue[1..];
    }
  }

  lemma MovingConserves(w: World, i: nat)
    requires Conserved(w) && i < |w.runners| && Current(w) == Some(i)
    requires w.runners[i].Live() && !w.runners[i].phase.Receiving?
    ensures Conserved(Turned(w, i))
  {
    assert Current(Turned(w, i)) == Some(i);
  }

  lemma TurnAgrees(w: World, i: nat)
    requires OnlyCurrentLives(w) && LateRunnersIdle(w) && LifeAgrees(w) && i < |w.runners| && w.runners[i].Live()
    ensures LifeAgrees(Turned(w, i))
  {
    assert Current(w) == Some(i) && Current(Turned(w, i)) == Some(i);
  }

  lemma CallKeepsRunners(w: World, s: Step)
    requires Inv(w) && Enabled(w, s) && !s.Turn?
    ensures OnlyCurrentLives(After(w, s)) && LateRunnersIdle(After(w, s))
  {
    if s.Ensure? || s.Check? || s.Recheck? {
      RespawnKeepsInv(w);
    }
  }

  lemma CallConserves(w: World, s: Step)
    requires Inv(w) && Enabled(w, s) && !s.Turn?
    ensures Conserved(After(w, s))
  {
    if s.Ensure? || s.Check? || s.Recheck? {
      RespawnKeepsInv(w);
    }
  }

  lemma CallAgrees(w: World, s: Step)
    requires Inv(w) && Enabled(w, s) && !s.Turn?
    ensures LifeAgrees(After(w, s))
  {
    if s.Ensure? || s.Check? || s.Recheck? {
      RespawnKeepsInv(w);
    }
  }

  lemma StepKeepsInv(w: World, s: Step)
    requires Inv(w) && Enabled(w, s)
    ensures Inv(After(w, s))
  {
    match s
    case Turn(i) =>
      TurnKeepsRunners(w, i);
      TurnConserves(w, i);
      TurnAgrees(w, i);
    case _ =>
      CallKeepsRunners(w, s);
      CallConserves(w, s);
      CallAgrees(w, s);
  }

  // ---- What is drained ----

  /** While no task has made a runner panic: a runner stands by until the first
      stop request, and leaves only after dispatching everything accepted before it. */
  predicate Drains(w: World) {
    var p := CurrentPhase(w);
    && (w.mark.Some? <==> w.life.Stopping? || w.life.Stopped?)
    && (w.mark.None? ==> (w.accepted != [] || w.holder.Queueing? ==> w.handle.Some?) && (w.handle.Some? ==> !p.Ended?))
    && (w.mark.Some? ==> w.mark.value <= |w.accepted|)
    && (w.mark.Some? && (w.life.Stopped? || p.Ended? || p.Finishing? || p.Leaving?) ==> w.mark.value <= |w.dispatched|)
  }

  lemma InitDrains(capacity: nat)
    ensures Drains(Init(capacity))
  {
  }

  lemma TurnDrains(w: World, i: nat)
    requires Inv(w) && Drains(w) && i < |w.runners| && w.runners[i].Live() && w.panics == 0
    ensures Drains(Turned(w, i))
  {
    assert Current(w) == Some(i) && Current(Turned(w, i)) == Some(i);
  }

  lemma StepDrains(w: World, s: Step)
    requires Inv(w) && Drains(w) && Enabled(w, s) && After(w, s).panics == 0
    ensures Drains(After(w, s))
  {
    match s
    case Turn(i) => TurnDrains(w, i);
    case TimeOut(i) => assert Current(w) == Some(i);
    case _ =>
  }

  // ---- Whole runs ----

  /** Every step is possible when it is taken. */
  predicate LegalFrom(w: World, steps: seq<Step>)
    decreases |steps|, 0
  {
    steps == [] || (LegalFrom(w, steps[..|steps| - 1]) && Enabled(RunFrom(w, steps[..|steps| - 1]), steps[|steps| - 1]))
  }

  function RunFrom(w: World, steps: seq<Step>): World
    requires LegalFrom(w, steps)
    decreases |steps|, 1
  {
    if steps == [] then w else After(RunFrom(w, steps[..|steps| - 1]), steps[|steps| - 1])
  }

  /** A run of a new supervisor. */
  predicate Legal(capacity: nat, steps: seq<Step>) { LegalFrom(Init(capacity), steps) }

  function Run(capacity: nat, steps: seq<Step>): World
    requires Legal(capacity, steps)
  {
    RunFrom(Init(capacity), steps)
  }

  /** A run goes on from where its first part has come to. */
  lemma {:induction false} RunsOn(w: World, steps: seq<Step>, more: seq<Step>)
    requires LegalFrom(w, steps) && LegalFrom(RunFrom(w, steps), more)
    ensures LegalFrom(w, steps + more) && RunFrom(w, steps + more) == RunFrom(RunFrom(w, steps), more)
    decreases |more|
  {
    if more == [] {
      assert steps + more == steps;
    } else {
      var n := |more| - 1;
      RunsOn(w, steps, more[..n]);
      OneMore(w, steps + more[..n], more[n]);
      assert steps + more == (steps + more[..n]) + [more[n]];
    }
  }

  lemma {:induction false} RunKeepsInv(w: World, steps: seq<Step>)
    requires Inv(w) && LegalFrom(w, steps)
    ensures Inv(RunFrom(w, steps))
    decreases |steps|
  {
    if steps != [] {
      RunKeepsInv(w, steps[..|steps| - 1]);
      StepKeepsInv(RunFrom(w, steps[..|steps| - 1]), steps[|steps| - 1]);
    }
  }

  lemma AnyRunHasInv(capacity: nat, steps: seq<Step>)
    requires Legal(capacity, steps)
    ensures Inv(Run(capacity, steps))
  {
    InitInv(capacity);
    RunKeepsInv(Init(capacity), steps);
  }

  // ---- One runner, in order ----

  function Active(w: World): set<nat> { set i | 0 <= i < |w.runners| && Counted(w.runners[i].phase) }

  function Panicked(w: World): set<nat> { set i | 0 <= i < |w.runners| && w.runners[i].phase == Ended(true) }

  lemma ActiveIsCurrent(w: World)
    requires OnlyCurrentLives(w)
    ensures Active(w) == if Counted(CurrentPhase(w)) then {Current(w).value} else {}
  {
  }

  lemma {:induction false} PanicsAreCounted(w: World, steps: seq<Step>)
    requires LegalFrom(w, steps) && w.panics == |Panicked(w)|
    ensures RunFrom(w, steps).panics == |Panicked(RunFrom(w, steps))|
    decreases |steps|
  {
    if steps != [] {
      PanicsAreCounted(w, steps[..|steps| - 1]);
      PanicIsCounted(RunFrom(w, steps[..|steps| - 1]), steps[|steps| - 1]);
    }
  }

  lemma PanicIsCounted(w: World, s: Step)
    requires Enabled(w, s)
    ensures Panicked(After(w, s)) == if s.Panic? then Panicked(w) + {s.runner} else Panicked(w)
    ensures s.Panic? ==> s.runner !in Panicked(w)
  {
    match s
    case Turn(i) => assert Panicked(Turned(w, i)) == Panicked(w);
    case _ =>
  }

  /** Under any interleaving of calls, runners, panics and respawns, at most one
      runner is alive, and tasks are taken once each, in the order they were
      accepted in. `active_runners` counts the runners that are active and those
      that panicked, so it is right exactly while none has. */
  lemma OneRunnerInOrder(capacity: nat, steps: seq<Step>)
    requires Legal(capacity, steps)
    ensures var w := Run(capacity, steps);
            && (forall i, j :: 0 <= i < |w.runners| && 0 <= j < |w.runners| ==>
                  w.runners[i].Live() && w.runners[j].Live() ==> i == j)
            && w.popped <= w.accepted && w.accepted == w.popped + w.queue
            && |w.popped| - |w.dispatched| - w.panics <= 1
            && (forall i :: 0 <= i < |w.runners| && w.runners[i].born.Stopped? ==> w.runners[i].taken == 0)
            && w.active == |Active(w)| + |Panicked(w)|
            && (w.active == |Active(w)| <==> w.panics == 0)
  {
    AnyRunHasInv(capacity, steps);
    assert Panicked(Init(capacity)) == {};
    PanicsAreCounted(Init(capacity), steps);
    ActiveIsCurrent(Run(capacity, steps));
  }

  /** A panic spoils the count, for every capacity: the only runner is gone, and one is
      still counted. */
  lemma PanicIsMiscounted(capacity: nat, task: Task) returns (steps: seq<Step>)
    ensures Legal(capacity, steps)
    ensures var w := Run(capacity, steps); w.active == 1 && Active(w) == {} && w.panics == 1
  {
    var w: World;
    steps, w := FirstPush(capacity, task);
    steps, w := FirstDispatch(capacity, steps, w, task);
    steps, w := Then(capacity, steps, w, Panic(0));
  }

  lemma FirstPush(capacity: nat, task: Task) returns (steps: seq<Step>, w: World)
    ensures Legal(capacity, steps) && Run(capacity, steps) == w
    ensures w.runners == [Runner(Starting, Created, 0)] && w.queue == [task] && w.active == 0 && w.panics == 0
    ensures w.life.Created?
  {
    w := Init(capacity);
    steps, w := Then(capacity, [], w, CallPush(task));
    steps, w := Then(capacity, steps, w, Check);
    steps, w := Then(capacity, steps, w, Enqueue);
  }

  lemma FirstDispatch(capacity: nat, steps: seq<Step>, w: World, task: Task) returns (steps': seq<Step>, w': World)
    requires Legal(capacity, steps) && Run(capacity, steps) == w && w.life.Created?
    requires w.runners == [Runner(Starting, Created, 0)] && w.queue == [task] && w.active == 0 && w.panics == 0
    ensures Legal(capacity, steps') && Run(capacity, steps') == w'
    ensures w'.runners == [Runner(Dispatching(task), Created, 1)] && w'.active == 1 && w'.panics == 0
  {
    steps', w' := Then(capacity, steps, w, Turn(0));
    steps', w' := Then(capacity, steps', w', Turn(0));
    steps', w' := Then(capacity, steps', w', Turn(0));
    steps', w' := Then(capacity, steps', w', Turn(0));
  }

  // ---- After the end ----

  /** The lifecycle never moves backwards, and once it has stopped no task is taken
      any more. */
  lemma {:induction false} StoppedForGood(w: World, more: seq<Step>)
    requires Inv(w) && LegalFrom(w, more)
    ensures var v := RunFrom(w, more);
            && Rank(w.life) <= Rank(v.life) && w.accepted <= v.accepted && w.popped <= v.popped && w.panics <= v.panics
            && (w.life.Stopped? ==> v.popped == w.popped)
    decreases |more|
  {
    if more != [] {
      var n := |more| - 1;
      StoppedForGood(w, more[..n]);
      RunKeepsInv(w, more[..n]);
      OneStepForward(RunFrom(w, more[..n]), more[n]);
    }
  }

  lemma OneStepForward(w: World, s: Step)
    requires Inv(w) && Enabled(w, s)
    ensures var v := After(w, s);
            && Rank(w.life) <= Rank(v.life) && w.accepted <= v.accepted && w.popped <= v.popped && w.panics <= v.panics
            && (w.life.Stopped? ==> v.popped == w.popped)
  {
  }

  lemma OneMore(w: World, steps: seq<Step>, s: Step)
    requires LegalFrom(w, steps) && Enabled(RunFrom(w, steps), s)
    ensures LegalFrom(w, steps + [s]) && RunFrom(w, steps + [s]) == After(RunFrom(w, steps), s)
  {
    assert (steps + [s])[..|steps|] == steps;
  }

  /** In every run that has come to `Stopped`, with the handle's lock free and room in
      the queue, a push is still accepted, and its task stays in the queue for ever. */
  lemma PushAfterStopIsLost(capacity: nat, steps: seq<Step>, task: Task, more: seq<Step>)
    requires Legal(capacity, steps)
    requires var w := Run(capacity, steps); w.life.Stopped? && w.holder.Free? && !EventQueue.IsFull(w.queue, capacity)
    ensures var w := Run(capacity, steps);
            && LegalFrom(w, [CallPush(task), Check, Enqueue])
            && var v := RunFrom(w, [CallPush(task), Check, Enqueue]);
               && v.accepted == w.accepted + [task]
               && (LegalFrom(v, more) ==> RunFrom(v, more).popped == w.popped && task in RunFrom(v, more).queue)
  {
    var w := Run(capacity, steps);
    AnyRunHasInv(capacity, steps);
    CapacityStays(Init(capacity), steps);
    PushGetsIn(w, task);
    var v := RunFrom(w, [CallPush(task), Check, Enqueue]);
    RunKeepsInv(w, [CallPush(task), Check, Enqueue]);
    if LegalFrom(v, more) {
      StoppedForGood(v, more);
      RunKeepsInv(v, more);
      StillQueued(RunFrom(v, more), |w.accepted|);
    }
  }

  lemma PushGetsIn(w: World, task: Task)
    requires w.holder.Free? && !EventQueue.IsFull(w.queue, w.capacity)
    ensures LegalFrom(w, [CallPush(task), Check, Enqueue])
    ensures var v := RunFrom(w, [CallPush(task), Check, Enqueue]);
            v.life == w.life && v.accepted == w.accepted + [task] && v.popped == w.popped
  {
    var called := After(w, CallPush(task));
    OneMore(w, [], CallPush(task));
    assert [] + [CallPush(task)] == [CallPush(task)];
    OneMore(w, [CallPush(task)], Check);
    assert [CallPush(task)] + [Check] == [CallPush(task), Check];
    OneMore(w, [CallPush(task), Check], Enqueue);
    assert [CallPush(task), Check] + [Enqueue] == [CallPush(task), Check, Enqueue];
  }

  lemma StillQueued(w: World, k: nat)
    requires Conserved(w) && |w.popped| <= k < |w.accepted|
    ensures w.accepted[k] in w.queue
  {
    assert w.accepted[k] == w.queue[k - |w.popped|];
  }

  lemma {:induction false} CapacityStays(w: World, steps: seq<Step>)
    requires LegalFrom(w, steps)
    ensures RunFrom(w, steps).capacity == w.capacity
    decreases |steps|
  {
    if steps != [] {
      CapacityStays(w, steps[..|steps| - 1]);
    }
  }

  /** Such runs exist, for every capacity: start, request a stop, and let the runner
      end. */
  lemma StopsIdle(capacity: nat) returns (steps: seq<Step>)
    ensures Legal(capacity, steps)
    ensures var w := Run(capacity, steps); w.life.Stopped? && w.holder.Free? && w.queue == []
  {
    var w := Init(capacity);
    steps, w := Then(capacity, [], w, CallStart);
    steps, w := Then(capacity, steps, w, Ensure);
    steps, w := Then(capacity, steps, w, Turn(0));
    steps, w := Then(capacity, steps, w, RequestStop);
    steps, w := Then(capacity, steps, w, Turn(0));
    assert w.runners == [Runner(Testing, Created, 0)];
    steps, w := LastTurns(capacity, steps, w);
  }

  lemma LastTurns(capacity: nat, steps: seq<Step>, w: World) returns (steps': seq<Step>, w': World)
    requires Legal(capacity, steps) && Run(capacity, steps) == w
    requires w.runners == [Runner(Testing, Created, 0)] && w.life.Stopping? && w.queue == [] && w.holder.Free?
    ensures Legal(capacity, steps') && Run(capacity, steps') == w'
    ensures w'.life.Stopped? && w'.holder.Free? && w'.queue == []
  {
    steps', w' := Then(capacity, steps, w, Turn(0));
    steps', w' := Then(capacity, steps', w', Turn(0));
    steps', w' := Then(capacity, steps', w', TimeOut(0));
    steps', w' := Then(capacity, steps', w', Turn(0));
    steps', w' := Then(capacity, steps', w', Turn(0));
    steps', w' := Then(capacity, steps', w', Turn(0));
  }

  lemma Then(capacity: nat, steps: seq<Step>, w: World, s: Step) returns (steps': seq<Step>, w': World)
    requires Legal(capacity, steps) && Run(capacity, steps) == w && Enabled(w, s)
    ensures Legal(capacity, steps') && Run(capacity, steps') == w' == After(w, s)
  {
    OneMore(Init(capacity), steps, s);
    steps', w' := steps + [s], After(w, s);
  }

  // ---- Which tasks are dispatched ----

  /** The current runner will still look at the queue. */
  predicate InTime(w: World) { !w.life.Stopped? && !CurrentPhase(w).Finishing? }

  /** A runner that left by itself did so after the end. */
  predicate LeftAfterStop(w: World) {
    forall i :: 0 <= i < |w.runners| && w.runners[i].phase in {Leaving, Ended(false)} ==> w.life.Stopped?
  }

  lemma {:induction false} RunsLeaveAfterStop(w: World, steps: seq<Step>)
    requires Inv(w) && LeftAfterStop(w) && LegalFrom(w, steps)
    ensures LeftAfterStop(RunFrom(w, steps))
    decreases |steps|
  {
    if steps != [] {
      var v := RunFrom(w, steps[..|steps| - 1]);
      RunsLeaveAfterStop(w, steps[..|steps| - 1]);
      RunKeepsInv(w, steps[..|steps| - 1]);
      LeavesAfterStop(v, steps[|steps| - 1]);
    }
  }

  lemma LeavesAfterStop(w: World, s: Step)
    requires Inv(w) && LeftAfterStop(w) && Enabled(w, s)
    ensures LeftAfterStop(After(w, s))
  {
    if s.Turn? {
      assert Current(w) == Some(s.runner);
    }
  }

  /** Runner `i` has not given up on the first `m` tasks. */
  predicate Serves(w: World, i: nat, m: nat) {
    && i < |w.runners| && m <= |w.accepted|
    && (w.life.Stopped? || w.runners[i].phase.Finishing? || w.runners[i].phase.Leaving? || w.runners[i].phase.Ended? ==>
          m <= |w.dispatched| + w.panics)
  }

  lemma StepServes(w: World, s: Step, i: nat, m: nat)
    requires Inv(w) && Enabled(w, s) && Serves(w, i, m) && After(w, s).panics == w.panics
    ensures Serves(After(w, s), i, m)
  {
    if s.Turn? {
      assert Current(w) == Some(s.runner);
    }
  }

  lemma {:induction false} RunServes(w: World, more: seq<Step>, i: nat, m: nat)
    requires Inv(w) && LegalFrom(w, more) && Serves(w, i, m) && RunFrom(w, more).panics == w.panics
    ensures Serves(RunFrom(w, more), i, m)
    decreases |more|
  {
    if more != [] {
      var n := |more| - 1;
      RunKeepsInv(w, more[..n]);
      StoppedForGood(w, more[..n]);
      OneStepForward(RunFrom(w, more[..n]), more[n]);
      RunServes(w, more[..n], i, m);
      StepServes(RunFrom(w, more[..n]), more[n], i, m);
    }
  }

  /** The current runner has left its loop, so it takes nothing more, and neither will
      any other: it is about to stop the lifecycle. */
  predicate Over(w: World, i: nat) { w.life.Stopped? || (i < |w.runners| && w.runners[i].phase.Finishing?) }

  lemma {:induction false} OverTakesNothing(w: World, more: seq<Step>, i: nat)
    requires Inv(w) && LegalFrom(w, more) && Over(w, i)
    ensures RunFrom(w, more).popped == w.popped && Over(RunFrom(w, more), i)
    decreases |more|
  {
    if more != [] {
      var n := |more| - 1;
      RunKeepsInv(w, more[..n]);
      OverTakesNothing(w, more[..n], i);
      OverStep(RunFrom(w, more[..n]), more[n], i);
    }
  }

  lemma OverStep(w: World, s: Step, i: nat)
    requires Inv(w) && Enabled(w, s) && Over(w, i)
    ensures After(w, s).popped == w.popped && Over(After(w, s), i)
  {
    if s.Turn? {
      assert Current(w) == Some(s.runner);
    }
  }

  /** What decides whether tasks are dispatched, while there is a current runner. */
  lemma CurrentRunnerDecides(capacity: nat, steps: seq<Step>, more: seq<Step>, i: nat)
    requires Legal(capacity, steps) && LegalFrom(Run(capacity, steps), more)
    requires Current(Run(capacity, steps)) == Some(i) && RunFrom(Run(capacity, steps), more).panics == 0
    ensures var (w, v) := (Run(capacity, steps), RunFrom(Run(capacity, steps), more));
            && i < |v.runners|
            && (InTime(w) && v.runners[i].phase.Ended? ==> w.accepted <= v.dispatched)
            && (!InTime(w) ==> v.popped == w.popped)
  {
    var w := Run(capacity, steps);
    AnyRunHasInv(capacity, steps);
    RunKeepsInv(w, more);
    StoppedForGood(w, more);
    if InTime(w) {
      InitInv(capacity);
      RunsLeaveAfterStop(Init(capacity), steps);
      assert Panicked(Init(capacity)) == {};
      PanicsAreCounted(Init(capacity), steps);
      assert i !in Panicked(w);
      RunServes(w, more, i, |w.accepted|);
    } else {
      OverTakesNothing(w, more, i);
    }
    RunnersStay(w, more);
  }

  lemma {:induction false} RunnersStay(w: World, more: seq<Step>)
    requires LegalFrom(w, more)
    ensures |w.runners| <= |RunFrom(w, more).runners|
    decreases |more|
  {
    if more != [] {
      RunnersStay(w, more[..|more| - 1]);
    }
  }

  /** A push that gets as far as the queue has a current runner. */
  lemma {:induction false} PushHasRunner(capacity: nat, steps: seq<Step>)
    requires Legal(capacity, steps)
    ensures var w := Run(capacity, steps); w.holder.Queueing? || w.holder.Rechecking? ==> Current(w).Some?
    decreases |steps|
  {
    if steps != [] {
      PushHasRunner(capacity, steps[..|steps| - 1]);
      AnyRunHasInv(capacity, steps[..|steps| - 1]);
    }
  }

  /** Without panics there is no current runner only before the first task is accepted
      and after the end. */
  lemma {:induction false} NoRunnerMeansNothingToDo(capacity: nat, steps: seq<Step>)
    requires Legal(capacity, steps) && Run(capacity, steps).panics == 0
    ensures var w := Run(capacity, steps); Current(w).None? ==> w.life.Stopped? || w.accepted == []
    decreases |steps|
  {
    if steps != [] {
      var before, s := steps[..|steps| - 1], steps[|steps| - 1];
      var w := Run(capacity, before);
      AnyRunHasInv(capacity, before);
      OneStepForward(w, s);
      NoRunnerMeansNothingToDo(capacity, before);
      PushHasRunner(capacity, before);
      NormalEndMeansStopped(capacity, before);
    }
  }

  lemma NormalEndMeansStopped(capacity: nat, steps: seq<Step>)
    requires Legal(capacity, steps) && Run(capacity, steps).panics == 0
    ensures var w := Run(capacity, steps);
            forall i :: 0 <= i < |w.runners| && w.runners[i].phase.Ended? ==> w.life.Stopped?
  {
    var w := Run(capacity, steps);
    InitInv(capacity);
    RunsLeaveAfterStop(Init(capacity), steps);
    assert Panicked(Init(capacity)) == {};
    PanicsAreCounted(Init(capacity), steps);
    forall i | 0 <= i < |w.runners| && w.runners[i].phase.Ended?
      ensures w.life.Stopped?
    {
      assert i !in Panicked(w);
    }
  }

  /** What decides, at any point of a run in which no task panics, whether the tasks
      accepted so far will be dispatched: if the lifecycle has not stopped and the
      current runner has not left its loop, all of them are when it ends, and if there
      is no current runner there are none; otherwise not one that is still queued ever
      is. */
  lemma AcceptedInTime(capacity: nat, steps: seq<Step>, more: seq<Step>)
    requires Legal(capacity, steps) && LegalFrom(Run(capacity, steps), more)
    requires RunFrom(Run(capacity, steps), more).panics == 0
    ensures var (w, v) := (Run(capacity, steps), RunFrom(Run(capacity, steps), more));
            && Legal(capacity, steps + more) && v == Run(capacity, steps + more)
            && (InTime(w) && Current(w).None? ==> w.accepted == [])
            && (InTime(w) && Current(w).Some? ==>
                  && Current(w).value < |v.runners|
                  && (v.runners[Current(w).value].phase.Ended? ==> w.accepted <= v.dispatched))
            && (!InTime(w) ==> v.popped == w.popped)
  {
    var w := Run(capacity, steps);
    RunsOn(Init(capacity), steps, more);
    AnyRunHasInv(capacity, steps);
    StoppedForGood(w, more);
    if Current(w).Some? {
      CurrentRunnerDecides(capacity, steps, more, Current(w).value);
    } else {
      NoRunnerMeansNothingToDo(capacity, steps);
    }
  }

  // ---- A push leaves a runner, panics or not ----

  /** The runner in the handle is alive. */
  predicate HandleLives(w: World) {
    w.handle.Some? && w.handle.value < |w.runners| && !w.runners[w.handle.value].phase.Ended?
  }

  lemma LookReplaces(w: World, s: Step)
    requires Inv(w) && Enabled(w, s) && (s.Ensure? || s.Check? || s.Recheck?)
    ensures var v := After(w, s);
            && HandleLives(v) && Current(v) == v.handle
            && (HandleLives(w) ==> v.handle == w.handle && v.runners == w.runners)
            && (!HandleLives(w) ==>
                  v.handle == Some(|w.runners|) && v.runners == w.runners + [Runner(Starting, w.life, 0)])
            && v.queue == w.queue && v.life == w.life && v.active == w.active && v.accepted == w.accepted
            && (s.Recheck? ==> v.holder.Free?)
  {
  }

  /** In every run, panics included, after each look at the runner the handle has one
      that is alive: the old one if that was alive, and otherwise a new one, which joins
      the old ones and starts in the lifecycle's present state. */
  lemma LookLeavesLiveRunner(capacity: nat, steps: seq<Step>, s: Step)
    requires Legal(capacity, steps) && Enabled(Run(capacity, steps), s) && (s.Ensure? || s.Check? || s.Recheck?)
    ensures var (w, v) := (Run(capacity, steps), After(Run(capacity, steps), s));
            && HandleLives(v) && Current(v) == v.handle
            && (HandleLives(w) ==> v.handle == w.handle && v.runners == w.runners)
            && (!HandleLives(w) ==>
                  && v.handle == Some(|w.runners|)
                  && v.runners == w.runners + [Runner(Starting, w.life, 0)])
            && v.queue == w.queue && v.life == w.life && v.active == w.active
  {
    AnyRunHasInv(capacity, steps);
    LookReplaces(Run(capacity, steps), s);
  }

  /** No call waits for anything but the handle's lock, and no runner for anything but a
      task: whoever holds the lock can go on, a stop can be requested at any time, and
      with the lock free so can the rest. */
  lemma CallsCanGoOn(w: World, task: Task)
    ensures Enabled(w, RequestStop)
    ensures w.holder.Free? ==>
              Enabled(w, CallStart) && Enabled(w, CallPush(task)) && (w.stops > 0 ==> Enabled(w, TakeHandle))
    ensures w.holder.Ensuring? ==> Enabled(w, Ensure)
    ensures w.holder.Checking? ==> Enabled(w, Check)
    ensures w.holder.Queueing? ==> Enabled(w, Enqueue)
    ensures w.holder.Rechecking? ==> Enabled(w, Recheck)
    ensures forall i :: 0 <= i < |w.runners| && !w.runners[i].phase.Ended? ==> Enabled(w, Turn(i))
    ensures Inv(w) && w.holder.Joining? && w.runners[w.holder.runner].phase.Ended? ==> Enabled(w, FinishJoin)
  {
  }

  /** Until the push looks again, its second look is still to come. */
  lemma {:induction false} SecondLookComes(w: World, mid: seq<Step>)
    requires w.holder.Rechecking? && LegalFrom(w, mid) && forall i :: 0 <= i < |mid| ==> !mid[i].Recheck?
    ensures RunFrom(w, mid).holder.Rechecking?
    decreases |mid|
  {
    if mid != [] {
      SecondLookComes(w, mid[..|mid| - 1]);
    }
  }

  /** In every run, panics included: a push whose task was accepted returns after its
      second look, whatever happens in between, and leaves a runner that is alive, with
      the task accepted. */
  lemma AcceptedPushLeavesLiveRunner(capacity: nat, steps: seq<Step>, task: Task, mid: seq<Step>)
    requires Legal(capacity, steps) && Run(capacity, steps).holder == Queueing(task)
    requires var u := After(Run(capacity, steps), Enqueue);
             && |u.accepted| > |Run(capacity, steps).accepted|
             && LegalFrom(u, mid) && forall i :: 0 <= i < |mid| ==> !mid[i].Recheck?
    ensures var (w, before) := (Run(capacity, steps), RunFrom(After(Run(capacity, steps), Enqueue), mid));
            && Enabled(before, Recheck)
            && HandleLives(After(before, Recheck)) && After(before, Recheck).holder.Free?
            && w.accepted + [task] <= After(before, Recheck).accepted
  {
    var u := After(Run(capacity, steps), Enqueue);
    AnyRunHasInv(capacity, steps);
    SecondLookComes(u, mid);
    StepKeepsInv(Run(capacity, steps), Enqueue);
    RunKeepsInv(u, mid);
    StoppedForGood(u, mid);
    LookReplaces(RunFrom(u, mid), Recheck);
  }

  /** From any point of a run, whatever panicked before: while no task panics, a current
      runner that is in time takes every task accepted so far before it ends, and each
      was dispatched or had panicked. */
  lemma LiveRunnerServes(capacity: nat, steps: seq<Step>, more: seq<Step>, i: nat)
    requires Legal(capacity, steps) && LegalFrom(Run(capacity, steps), more)
    requires Current(Run(capacity, steps)) == Some(i) && InTime(Run(capacity, steps))
    requires i < |Run(capacity, steps).runners| && Run(capacity, steps).runners[i].Live()
    requires RunFrom(Run(capacity, steps), more).panics == Run(capacity, steps).panics
    ensures var (w, v) := (Run(capacity, steps), RunFrom(Run(capacity, steps), more));
            && i < |v.runners|
            && (v.runners[i].phase.Ended? ==>
                  |w.accepted| <= |v.dispatched| + v.panics && w.accepted <= v.popped)
  {
    var w := Run(capacity, steps);
    AnyRunHasInv(capacity, steps);
    InitInv(capacity);
    RunsLeaveAfterStop(Init(capacity), steps);
    RunKeepsInv(w, more);
    StoppedForGood(w, more);
    RunServes(w, more, i, |w.accepted|);
  }

  // ---- What the queue accepts ----

  /** In every run, a push that has come to the queue is refused exactly if as many
      tasks as the capacity are accepted and not taken yet; a zero capacity never
      refuses one. */
  lemma PushIsRefusedExactly(capacity: nat, steps: seq<Step>, task: Task)
    requires Legal(capacity, steps) && Run(capacity, steps).holder == Queueing(task)
    ensures var (w, v) := (Run(capacity, steps), After(Run(capacity, steps), Enqueue));
            if capacity > 0 && |w.accepted| - |w.popped| == capacity
            then v.accepted == w.accepted && v.queue == w.queue && v.holder.Free?
            else v.accepted == w.accepted + [task] && v.queue == w.queue + [task] && v.holder.Rechecking?
  {
    AnyRunHasInv(capacity, steps);
    CapacityStays(Init(capacity), steps);
  }

  // ---- request_stop ----

  lemma {:induction false} RunDrains(w: World, steps: seq<Step>)
    requires Inv(w) && Drains(w) && LegalFrom(w, steps) && RunFrom(w, steps).panics == 0
    ensures Drains(RunFrom(w, steps))
    decreases |steps|
  {
    if steps != [] {
      var n := |steps| - 1;
      RunKeepsInv(w, steps[..n]);
      OneStepForward(RunFrom(w, steps[..n]), steps[n]);
      RunDrains(w, steps[..n]);
      StepDrains(RunFrom(w, steps[..n]), steps[n]);
    }
  }

  /** The step at which a call of `request_stop` returns: its join is over, or there
      was no runner to join. */
  predicate StopReturns(w: World, s: Step) {
    Enabled(w, s) && (s.FinishJoin? || (s.TakeHandle? && w.handle.None?))
  }

  lemma {:induction false} MarkStays(w: World, after: seq<Step>)
    requires LegalFrom(w, after) && !w.life.Created? && !w.life.Running?
    ensures var v := RunFrom(w, after);
            v.mark == w.mark && !v.life.Created? && !v.life.Running? && w.accepted <= v.accepted
    decreases |after|
  {
    if after != [] {
      var n := |after| - 1;
      MarkStays(w, after[..n]);
      MarkStep(RunFrom(w, after[..n]), after[n]);
    }
  }

  lemma MarkStep(w: World, s: Step)
    requires Enabled(w, s) && !w.life.Created? && !w.life.Running?
    ensures var v := After(w, s); v.mark == w.mark && !v.life.Created? && !v.life.Running? && w.accepted <= v.accepted
  {
  }

  /** If no task panics, every task accepted before the first stop request has been
      dispatched when any call of `request_stop` returns. */
  lemma DrainedBeforeReturn(capacity: nat, before: seq<Step>, after: seq<Step>, s: Step)
    requires Legal(capacity, before) && (Run(capacity, before).life.Created? || Run(capacity, before).life.Running?)
    requires LegalFrom(StopRequested(Run(capacity, before)), after)
    requires var v := RunFrom(StopRequested(Run(capacity, before)), after); v.panics == 0 && StopReturns(v, s)
    ensures Run(capacity, before).accepted <= RunFrom(StopRequested(Run(capacity, before)), after).dispatched
  {
    var w := Run(capacity, before);
    var stopping := After(w, RequestStop);
    var v := RunFrom(stopping, after);
    AnyRunHasInv(capacity, before);
    StepKeepsInv(w, RequestStop);
    RunKeepsInv(stopping, after);
    StoppedForGood(stopping, after);
    MarkStays(stopping, after);
    InitInv(capacity);
    InitDrains(capacity);
    RunDrains(Init(capacity), before);
    StepDrains(w, RequestStop);
    RunDrains(stopping, after);
    assert CurrentPhase(v).Ended?;
    assert v.dispatched == v.popped;
  }

  // ---- The join ends ----

  /** The steps a runner still has to take before it ends, counting the queue. */
  function DrainWork(w: World): nat {
    var empty := w.queue == [];
    10 * |w.queue| + match CurrentPhase(w)
    case Starting => 16
    case Entering => 15
    case Testing => 10
    case Receiving => 9
    case Waiting => if empty then 8 else 14
    case Dispatching(_) => if empty then 8 else 13
    case CheckingState => if empty then 7 else 12
    case CheckingEmpty => if empty then 6 else 11
    case Finishing => 5
    case Leaving => 4
    case Ended(_) => 0
  }

  /** Waking up to an empty queue, for no reason. */
  predicate SpuriousWake(w: World, s: Step) {
    s.Turn? && CurrentPhase(w).Waiting? && w.queue == []
  }

  /** While `request_stop` joins a runner, nothing can be accepted, the runner can
      always move, and each of its steps brings the end of the join nearer, unless
      it wakes up for no reason. So `request_stop` returns. */
  lemma JoinMakesProgress(w: World, s: Step)
    requires Inv(w) && w.holder.Joining? && w.runners[w.holder.runner].Live() && Enabled(w, s)
    ensures Enabled(w, Turn(w.holder.runner))
    ensures After(w, s).accepted == w.accepted && After(w, s).holder == w.holder
    ensures DrainWork(After(w, s)) <= DrainWork(w) || SpuriousWake(w, s)
    ensures s.Turn? || s.TimeOut? || s.Panic? ==> DrainWork(After(w, s)) < DrainWork(w) || SpuriousWake(w, s)
  {
    var i := w.holder.runner;
    match s
    case Turn(j) =>
      assert j == i && Current(Turned(w, i)) == Some(i);
      JoinedTurn(w, i);
    case TimeOut(j) => assert j == i;
    case Panic(j) => assert j == i;
    case _ =>
  }

  lemma JoinedTurn(w: World, i: nat)
    requires Inv(w) && w.holder == Joining(i) && w.runners[i].Live()
    ensures Turned(w, i).accepted == w.accepted && Turned(w, i).holder == w.holder
    ensures DrainWork(Turned(w, i)) < DrainWork(w) || SpuriousWake(w, Turn(i))
  {
  }
}
