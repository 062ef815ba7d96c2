/** The lifecycle of an event loop (`engine/src/events/lifecycle.rs`). */
module EventLifecycle {

  datatype State = Created | Running | Stopping | Stopped

  datatype StopPolicy = Graceful | Immediate

  function AfterStart(s: State): State { if s.Created? then Running else s }

  function AfterStop(s: State, policy: StopPolicy): State {
    if s.Stopping? || s.Stopped? then s else if policy.Graceful? then Stopping else Stopped
  }

  function AfterShutdown(s: State): State { if s.Stopping? || s.Running? then Stopped else s }

  predicate Continues(s: State) { s.Running? || s.Stopping? }

  /** How far a lifecycle has come. */
  function Rank(s: State): nat {
    match s
    case Created => 0
    case Running => 1
    case Stopping => 2
    case Stopped => 3
  }

  class Lifecycle {
    var state: State

    constructor ()
      ensures state == Created
    {
      state := Created;
    }

    method Start()
      modifies this
      ensures state == AfterStart(old(state))
    {
      if state == Created {
        state := Running;
      }
    }

    method RequestStop(policy: StopPolicy)
      modifies this
      ensures state == AfterStop(old(state), policy)
    {
      match (state, policy)
      case (Created, Graceful) => state := Stopping;
      case (Created, Immediate) => state := Stopped;
      case (Running, Graceful) => state := Stopping;
      case (Running, Immediate) => state := Stopped;
      case (_, _) =>
    }

    method CompleteShutdown()
      modifies this
      ensures state == AfterShutdown(old(state))
    {
      if state == Stopping || state == Running {
        state := Stopped;
      }
    }

    method ShouldContinue() returns (b: bool)
      ensures b == Continues(state)
    {
      b := state == Running || state == Stopping;
    }
  }

  datatype Transition = Start | Stop(policy: StopPolicy) | Shutdown

  function Next(s: State, t: Transition): State {
    match t
    case Start => AfterStart(s)
    case Stop(policy) => AfterStop(s, policy)
    case Shutdown => AfterShutdown(s)
  }

  function Life(ts: seq<Transition>): State {
    if ts == [] then Created else Next(Life(ts[..|ts| - 1]), ts[|ts| - 1])
  }

  /** A lifecycle never moves backwards, a stop request is never undone, and it
      never leaves `Stopped`. */
  lemma {:induction false} NeverMovesBack(ts: seq<Transition>, more: seq<Transition>)
    ensures Rank(Life(ts)) <= Rank(Life(ts + more))
    ensures (exists i :: 0 <= i < |ts| && ts[i].Stop?) ==> Rank(Life(ts)) >= 2
    decreases |ts| + |more|
  {
    if more != [] {
      var n := |more| - 1;
      NeverMovesBack(ts, more[..n]);
      assert (ts + more)[..|ts| + n] == ts + more[..n];
    } else if ts != [] {
      var n := |ts| - 1;
      NeverMovesBack(ts[..n], []);
      assert ts + more == ts;
      if ts[n].Stop? {
      } else if exists i :: 0 <= i < |ts| && ts[i].Stop? {
        var i :| 0 <= i < |ts| && ts[i].Stop?;
        assert ts[..n][i].Stop?;
      }
    } else {
      assert ts + more == [];
    }
  }

  lemma LifeOnward(ts: seq<Transition>, t: Transition)
    ensures Life(ts + [t]) == Next(Life(ts), t)
  {
    assert (ts + [t])[..|ts|] == ts;
  }

  /** Nothing but a shutdown, which does nothing then, leaves a lifecycle created. */
  lemma {:induction false} CreatedExactly(ts: seq<Transition>)
    ensures Life(ts) == Created <==> forall i :: 0 <= i < |ts| ==> ts[i].Shutdown?
  {
    if ts != [] {
      var n := |ts| - 1;
      CreatedExactly(ts[..n]);
      assert ts == ts[..n] + [ts[n]];
    }
  }

  /** At `i` the lifecycle was started, and nothing has stopped it since. */
  predicate StartedAt(ts: seq<Transition>, i: int) {
    && 0 <= i < |ts| && ts[i].Start?
    && (forall j :: 0 <= j < i ==> ts[j].Shutdown?) && (forall j :: i < j < |ts| ==> ts[j].Start?)
  }

  /** A lifecycle runs exactly if it was started, with no stop request before and nothing
      but further starts behind. */
  lemma {:induction false} RunningExactly(ts: seq<Transition>)
    ensures Life(ts) == Running <==> exists i :: StartedAt(ts, i)
  {
    if ts != [] {
      var n := |ts| - 1;
      RunningExactly(ts[..n]);
      CreatedExactly(ts[..n]);
      if Life(ts) == Running {
        if Life(ts[..n]) == Running {
          var i :| StartedAt(ts[..n], i);
          assert StartedAt(ts, i) by {
            assert forall j :: 0 <= j < n ==> ts[..n][j] == ts[j];
          }
        } else {
          assert StartedAt(ts, n) by {
            assert forall j :: 0 <= j < n ==> ts[..n][j] == ts[j];
          }
        }
      }
      if exists i :: StartedAt(ts, i) {
        var i :| StartedAt(ts, i);
        assert forall j :: 0 <= j < n ==> ts[..n][j] == ts[j];
        if i < n {
          assert StartedAt(ts[..n], i);
        }
      }
    }
  }

  /** The first stop request decides: an immediate one stops the lifecycle at once and
      for good, a graceful one until it is shut down, whatever else happens. */
  lemma {:induction false} StopDecides(ts: seq<Transition>, policy: StopPolicy, more: seq<Transition>)
    requires Life(ts) == Created || Life(ts) == Running
    ensures Life(ts + [Stop(policy)] + more) ==
            if policy == Immediate || exists i :: 0 <= i < |more| && more[i].Shutdown? then Stopped else Stopping
    decreases |more|
  {
    var stopped := ts + [Stop(policy)];
    if more == [] {
      LifeOnward(ts, Stop(policy));
      assert stopped + more == stopped;
    } else {
      var n := |more| - 1;
      StopDecides(ts, policy, more[..n]);
      LifeOnward(stopped + more[..n], more[n]);
      assert stopped + more == (stopped + more[..n]) + [more[n]];
      assert forall i :: 0 <= i < n ==> more[..n][i] == more[i];
      if i: nat :| i < n && more[i].Shutdown? {
        assert more[..n][i].Shutdown?;
      }
    }
  }

  /** A running lifecycle that is shut down has stopped. */
  lemma ShutdownStops(ts: seq<Transition>)
    requires Life(ts) == Running
    ensures Life(ts + [Shutdown]) == Stopped
  {
    LifeOnward(ts, Shutdown);
  }

  /** The loop goes on exactly while it runs or is stopping. */
  lemma ContinuesExactly(s: State)
    ensures Continues(s) <==> s == Running || s == Stopping
  {
  }
}
